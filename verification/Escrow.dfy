/**
 The escrow's select loop as a state machine. A step is one database access, one ledger read or
 one wallet submission, so payments, the clock and the HTTP handlers can come in between.
 */
module Escrow {
  import opened GoInt
  import opened Payout
  import opened Ledger
  import opened Settlement
  import Horizon

  type Id = int

  // ---------- State ----------

  // A document of the escrow collection.
  datatype PaymentInfo = PaymentInfo(
    id: Id, address: Account, expiration: int, asset: Asset, infos: seq<Detail>,
    paid: bool, released: bool, canceled: bool)
  {
    predicate Open() { !released && !canceled }

    function Price(): int { Required(infos) }
  }

  // What has been put on the ledger, and why.
  datatype Entry =
    | Received(tx: Tx)
    | PaidOut(id: Id, source: Account, asset: Asset, farmers: seq<Payment>, burned: int, foundation: int,
              foundationTo: Account)
    | Refunded(id: Id, source: Account, asset: Asset, to: Account, amount: nat)

  function Payments(e: Entry): seq<Payment>
    requires !e.Received?
  {
    match e
    case PaidOut(_, _, asset, farmers, burned, foundation, to) =>
      farmers + Pooled(Issuer(asset), burned) + Pooled(to, foundation)
    case Refunded(_, _, _, to, amount) => [Payment(to, amount)]
  }

  // An entry as Horizon shows it.
  function TxOf(e: Entry): Tx {
    if e.Received? then e.tx else Tx(ForReservation(e.id), Effects(e.source, e.asset, Payments(e)))
  }

  function Chain(journal: seq<Entry>): seq<Tx> {
    if journal == [] then [] else Chain(journal[..|journal| - 1]) + [TxOf(journal[|journal| - 1])]
  }

  // Why a refund is under way.
  datatype Goal = Expire(batch: seq<PaymentInfo>) | Cancel | Release

  // Where the loop stands. Documents are the copies the source holds in local variables.
  datatype Loop =
    | Idle
    | Polling(batch: seq<PaymentInfo>)                                        // checkReservations
    | Funded(doc: PaymentInfo, batch: seq<PaymentInfo>)                       // its balance was high enough
    | Deploying(doc: PaymentInfo, batch: seq<PaymentInfo>)                    // its reservation was read in state Pay
    | Marking(doc: PaymentInfo, batch: seq<PaymentInfo>)                      // Deploy is stored, Paid is not
    | Sweeping(batch: seq<PaymentInfo>)                                       // refundExpiredReservations
    | Returning(doc: PaymentInfo, goal: Goal)                                 // wallet.Refund is called
    | Refunding(doc: PaymentInfo, amount: nat, to: Account, goal: Goal)       // it has read the balance
    | Recording(doc: PaymentInfo, goal: Goal)                                 // it is done, the flag is not written

  datatype State = State(
    accounts: set<Account>,        // the escrow accounts
    foundation: Account,
    journal: seq<Entry>,
    docs: map<Id, PaymentInfo>,
    loop: Loop,
    now: int,
    unrecorded: set<Id>)           // history: money was moved but the flag write was lost

  function BalanceOf(s: State, d: PaymentInfo): int {
    Balance(Chain(s.journal), d.address, ForReservation(d.id), d.asset)
  }

  // What wallet.GetBalance reads when the lookups numbered `failing` fail, which the source only logs.
  function ReadOf(s: State, d: PaymentInfo, failing: set<nat>): int {
    Horizon.Reading(Chain(s.journal), d.address, ForReservation(d.id), d.asset, failing)
  }

  function DonorsOf(s: State, d: PaymentInfo, failing: set<nat>): set<Account> {
    Horizon.ReadDonors(Chain(s.journal), d.address, ForReservation(d.id), d.asset, failing)
  }

  // ---------- Steps ----------

  datatype Event =
    | Receive(tx: Tx)
    | Clock(now: int)
    | Register(doc: PaymentInfo)
    | StartPoll(batch: seq<PaymentInfo>)
    | Poll(failing: set<nat>)
    | ReadReservation(pay: bool)
    | WriteDeploy
    | WritePaid
    | StartSweep(batch: seq<PaymentInfo>)
    | Sweep
    | EndTick
    | CancelMessage(id: Id)
    | DeployedMessage(id: Id, wallets: map<int, Account>, submitted: bool)
    | ReadFunds(failing: set<nat>, to: Account)
    | SubmitRefund
    | Record
    | Fail
    | Panic(failing: set<nat>)
    | Crash

  predicate Active(d: PaymentInfo, now: int) { !d.paid && d.expiration > now }

  predicate Expired(d: PaymentInfo, now: int) { d.Open() && d.expiration <= now }

  predicate DistinctIds(batch: seq<PaymentInfo>) {
    forall i, j | 0 <= i < j < |batch| :: batch[i].id != batch[j].id
  }

  // A cursor returns every matching document once, in some order.
  ghost predicate Snapshot(docs: map<Id, PaymentInfo>, batch: seq<PaymentInfo>, filter: PaymentInfo -> bool) {
    && DistinctIds(batch)
    && (forall d | d in batch :: d.id in docs && docs[d.id] == d && filter(d))
    && (forall id | id in docs && filter(docs[id]) :: docs[id] in batch)
  }

  // A payment by someone else: it does not debit an escrow account, and whoever it pays is paid
  // by somebody.
  predicate External(accounts: set<Account>, tx: Tx) {
    && (forall e | e in tx.effects && e.Debited? :: e.account !in accounts)
    && ((exists e :: e in tx.effects && e.Credited? && e.account in accounts) ==>
        exists e :: e in tx.effects && e.Debited?)
  }

  function PayoutOf(s: State, d: PaymentInfo, wallets: map<int, Account>): Entry {
    var dist := DistributionOf(d.asset);
    PaidOut(d.id, d.address, d.asset,
            FarmerPayments(d.infos, dist, wallets), Burned(d.infos, dist), Foundation(d.infos, dist), s.foundation)
  }

  ghost predicate Enabled(s: State, e: Event) {
    match e
    case Receive(tx) => External(s.accounts, tx)
    case Clock(now) => s.now <= now
    case Register(d) =>
      && s.loop.Idle? && d.id !in s.docs && !d.paid && d.Open()
      && d.address in s.accounts && Admissible(d.infos)
    case StartPoll(batch) => s.loop.Idle? && Snapshot(s.docs, batch, d => Active(d, s.now))
    case Poll(_) => s.loop.Polling? && s.loop.batch != []
    case ReadReservation(_) => s.loop.Funded?
    case WriteDeploy => s.loop.Deploying?
    case WritePaid => s.loop.Marking?
    case StartSweep(batch) => s.loop.Polling? && s.loop.batch == [] && Snapshot(s.docs, batch, d => Expired(d, s.now))
    case Sweep => s.loop.Sweeping? && s.loop.batch != []
    case EndTick => s.loop.Sweeping? && s.loop.batch == []
    case CancelMessage(_) => s.loop.Idle?
    case DeployedMessage(id, wallets, submitted) =>
      // The network refuses an empty batch and one the account cannot pay.
      && s.loop.Idle?
      && (submitted && id in s.docs && s.docs[id].Open() ==>
            var d := s.docs[id];
            && Payments(PayoutOf(s, d, wallets)) != []
            && Total(Payments(PayoutOf(s, d, wallets))) <= Holdings(Chain(s.journal), d.address, d.asset))
    case ReadFunds(failing, to) =>
      // A negative refund to somebody is refused by the network, which is a failure.
      && s.loop.Returning?
      && var amount := ReadOf(s, s.loop.doc, failing);
         amount == 0 || (amount > 0 && to in DonorsOf(s, s.loop.doc, failing))
    case SubmitRefund =>
      // So is one that the account cannot pay.
      s.loop.Refunding? && s.loop.amount <= Holdings(Chain(s.journal), s.loop.doc.address, s.loop.doc.asset)
    case Record => s.loop.Recording?
    case Fail => !s.loop.Idle? && (s.loop.Polling? || s.loop.Sweeping? ==> s.loop.batch != [])
    case Panic(failing) =>
      // funders[0] of an empty list ends the program; it starts again with an idle loop.
      s.loop.Returning? && ReadOf(s, s.loop.doc, failing) != 0 && DonorsOf(s, s.loop.doc, failing) == {}
    case Crash => true
  }

  function Done(goal: Goal): Loop {
    if goal.Expire? then Sweeping(goal.batch) else Idle
  }

  // Where an error leaves the loop.
  function AfterFailure(loop: Loop): Loop {
    match loop
    case Idle => Idle
    case Polling(batch) => if batch == [] then Idle else Polling(batch[1..])
    case Funded(_, batch) => Polling(batch)
    case Deploying(_, batch) => Polling(batch)
    case Marking(_, batch) => Polling(batch)
    case Sweeping(batch) => if batch == [] then Idle else Sweeping(batch[1..])
    case Returning(_, goal) => Done(goal)
    case Refunding(_, _, _, goal) => Done(goal)
    case Recording(_, goal) => Done(goal)
  }

  // Money of this id has been moved, or is about to be reported moved, while its flag is unset.
  predicate Moved(loop: Loop, id: Id) {
    match loop
    case Returning(d, goal) => goal.Release? && d.id == id
    case Refunding(d, _, _, goal) => goal.Release? && d.id == id
    case Recording(d, _) => d.id == id
    case _ => false
  }

  function Write(s: State, d: PaymentInfo): State {
    s.(docs := s.docs[d.id := d])
  }

  ghost function Apply(s: State, e: Event): State
    requires Enabled(s, e)
  {
    match e
    case Receive(tx) => s.(journal := s.journal + [Received(tx)])
    case Clock(now) => s.(now := now)
    case Register(d) => Write(s, d)
    case StartPoll(batch) => s.(loop := Polling(batch))
    case Poll(failing) =>
      var d, rest := s.loop.batch[0], s.loop.batch[1..];
      s.(loop := if ReadOf(s, d, failing) < d.Price() then Polling(rest) else Funded(d, rest))
    case ReadReservation(pay) =>
      s.(loop := if pay then Deploying(s.loop.doc, s.loop.batch) else Polling(s.loop.batch))
    case WriteDeploy => s.(loop := Marking(s.loop.doc, s.loop.batch))
    case WritePaid => Write(s, s.loop.doc.(paid := true)).(loop := Polling(s.loop.batch))
    case StartSweep(batch) => s.(loop := Sweeping(batch))
    case Sweep => s.(loop := Returning(s.loop.batch[0], Expire(s.loop.batch[1..])))
    case EndTick => s.(loop := Idle)
    case CancelMessage(id) =>
      if id in s.docs && s.docs[id].Open() then s.(loop := Returning(s.docs[id], Cancel)) else s
    case DeployedMessage(id, wallets, submitted) =>
      if submitted && id in s.docs && s.docs[id].Open()
      then s.(journal := s.journal + [PayoutOf(s, s.docs[id], wallets)], loop := Returning(s.docs[id], Release))
      else s
    case ReadFunds(failing, to) =>
      var amount := ReadOf(s, s.loop.doc, failing);
      s.(loop := if amount == 0 then Recording(s.loop.doc, s.loop.goal)
                 else Refunding(s.loop.doc, amount, to, s.loop.goal))
    case SubmitRefund =>
      var d := s.loop.doc;
      s.(journal := s.journal + [Refunded(d.id, d.address, d.asset, s.loop.to, s.loop.amount)],
         loop := Recording(d, s.loop.goal))
    case Record =>
      var d := s.loop.doc;
      Write(s, if s.loop.goal.Release? then d.(released := true) else d.(canceled := true)).(loop := Done(s.loop.goal))
    case Fail => s.(loop := AfterFailure(s.loop), unrecorded := s.unrecorded + MovedNow(s))
    case Panic(_) => Stopped(s)
    case Crash => Stopped(s)
  }

  // The program ends and starts again: the rest of the batch is dropped.
  function Stopped(s: State): State {
    s.(loop := Idle, unrecorded := s.unrecorded + MovedNow(s))
  }

  function MovedNow(s: State): set<Id> {
    set id | id in s.docs.Keys && Moved(s.loop, id)
  }

  // The farmers are told to be paid only for a paid reservation whose flags are up to date.
  predicate Prompt(s: State, e: Event) {
    (e.DeployedMessage? && e.submitted && e.id in s.docs && s.docs[e.id].Open()) ==>
      s.docs[e.id].paid && e.id !in s.unrecorded
  }

  // The refund that follows a payout, or a settlement whose flag was lost, does not read a balance
  // that is too high. Other reads need no guard.
  predicate NotOverread(s: State, e: Event) {
    e.ReadFunds? && s.loop.Returning? && (s.loop.goal.Release? || s.loop.doc.id in s.unrecorded) ==>
      ReadOf(s, s.loop.doc, e.failing) <= BalanceOf(s, s.loop.doc)
  }

  ghost predicate SafeStep(s: State, e: Event) {
    Enabled(s, e) && Prompt(s, e) && NotOverread(s, e)
  }

  predicate Init(s: State) {
    s.journal == [] && s.docs == map[] && s.loop == Idle && s.unrecorded == {}
  }

  // Whatever the loop can do, with or without the guards.
  ghost predicate IsHistory(states: seq<State>, events: seq<Event>) {
    && |states| == |events| + 1
    && Init(states[0])
    && forall i {:trigger events[i]} | 0 <= i < |events| ::
         Enabled(states[i], events[i]) && states[i + 1] == Apply(states[i], events[i])
  }

  // What it does under them.
  ghost predicate IsRun(states: seq<State>, events: seq<Event>) {
    && |states| == |events| + 1
    && Init(states[0])
    && forall i {:trigger events[i]} | 0 <= i < |events| ::
         SafeStep(states[i], events[i]) && states[i + 1] == Apply(states[i], events[i])
  }

  // ---------- The invariant ----------

  ghost predicate DocsOk(s: State) {
    forall id | id in s.docs ::
      var d := s.docs[id];
      && d.id == id && d.address in s.accounts && Admissible(d.infos)
      && !(d.released && d.canceled)
  }

  // Copies held by the loop are up to date.
  predicate Fresh(s: State, batch: seq<PaymentInfo>) {
    DistinctIds(batch) && forall i | 0 <= i < |batch| :: batch[i].id in s.docs && s.docs[batch[i].id] == batch[i]
  }

  predicate AllUnpaid(batch: seq<PaymentInfo>) { forall i | 0 <= i < |batch| :: !batch[i].paid }

  predicate AllOpen(batch: seq<PaymentInfo>) { forall i | 0 <= i < |batch| :: batch[i].Open() }

  function Rest(goal: Goal): seq<PaymentInfo> { if goal.Expire? then goal.batch else [] }

  predicate LoopFresh(s: State) {
    match s.loop
    case Idle => true
    case Polling(batch) => Fresh(s, batch) && AllUnpaid(batch)
    case Funded(d, batch) => Fresh(s, [d] + batch) && AllUnpaid([d] + batch)
    case Deploying(d, batch) => Fresh(s, [d] + batch) && AllUnpaid([d] + batch)
    case Marking(d, batch) => Fresh(s, [d] + batch) && AllUnpaid([d] + batch)
    case Sweeping(batch) => Fresh(s, batch) && AllOpen(batch)
    case Returning(d, goal) => Fresh(s, [d] + Rest(goal)) && AllOpen([d] + Rest(goal))
    case Refunding(d, _, _, goal) => Fresh(s, [d] + Rest(goal)) && AllOpen([d] + Rest(goal))
    case Recording(d, goal) => Fresh(s, [d] + Rest(goal)) && AllOpen([d] + Rest(goal))
  }

  // The accounts that funded a reservation.
  function FundersOf(journal: seq<Entry>, d: PaymentInfo): set<Account> {
    Funders(Chain(journal), d.address, ForReservation(d.id), d.asset)
  }

  // A refund in progress, and every refund on the ledger, goes to somebody who paid in under the
  // same memo before.
  predicate RefundsTraced(s: State) {
    && (s.loop.Refunding? ==> s.loop.to in FundersOf(s.journal, s.loop.doc))
    && forall k | 0 <= k < |s.journal| :: RefundTraced(s.journal, k)
  }

  predicate RefundTraced(journal: seq<Entry>, k: nat)
    requires k < |journal|
  {
    var e := journal[k];
    e.Refunded? ==> e.to in Funders(Chain(journal[..k]), e.source, ForReservation(e.id), e.asset)
  }

  // A document that reads as unsettled, and is.
  predicate Live(s: State, d: PaymentInfo) {
    d.Open() && d.id !in s.unrecorded
  }

  // What was found to be funded is, unless it is settled already.
  predicate LoopFunded(s: State) {
    match s.loop
    case Funded(d, _) => Live(s, d) ==> BalanceOf(s, d) >= d.Price()
    case Deploying(d, _) => Live(s, d) ==> BalanceOf(s, d) >= d.Price()
    case Marking(d, _) => Live(s, d) ==> BalanceOf(s, d) >= d.Price()
    case _ => true
  }

  // What is going to be refunded is there.
  predicate RefundFunded(s: State) {
    s.loop.Refunding? ==> 0 < s.loop.amount <= BalanceOf(s, s.loop.doc)
  }

  // No reservation, and nothing else kept by memo on an escrow account, is overdrawn.
  ghost predicate Solvent(s: State) {
    forall account, memo, asset | account in s.accounts :: Balance(Chain(s.journal), account, memo, asset) >= 0
  }

  // A paid reservation that is not settled still has its price.
  predicate Covered(s: State) {
    forall id | id in s.docs && s.docs[id].paid && s.docs[id].Open() && id !in s.unrecorded && !Moved(s.loop, id) ::
      BalanceOf(s, s.docs[id]) >= s.docs[id].Price()
  }

  ghost predicate Traced(s: State) {
    forall e, account, asset | e in s.journal && account in s.accounts :: Traceable(TxOf(e), account, asset)
  }

  // Only the loop takes money off an escrow account.
  predicate Owned(s: State) {
    forall e | e in s.journal && e.Received? :: External(s.accounts, e.tx)
  }

  function PayoutCount(journal: seq<Entry>, id: Id): nat {
    if journal == [] then 0
    else
      var last := journal[|journal| - 1];
      PayoutCount(journal[..|journal| - 1], id) + if last.PaidOut? && last.id == id then 1 else 0
  }

  predicate ReleasingNow(loop: Loop, id: Id) {
    match loop
    case Returning(d, goal) => goal.Release? && d.id == id
    case Refunding(d, _, _, goal) => goal.Release? && d.id == id
    case Recording(d, goal) => goal.Release? && d.id == id
    case _ => false
  }

  // The farmers of a reservation are paid once, and Released says so.
  predicate IdPaidOnce(s: State, id: Id) {
    && PayoutCount(s.journal, id) <= 1
    && (ReleasingNow(s.loop, id) || (id in s.docs && s.docs[id].released) ==> PayoutCount(s.journal, id) == 1)
    && (PayoutCount(s.journal, id) == 1 ==>
          id in s.docs && (s.docs[id].released || id in s.unrecorded || ReleasingNow(s.loop, id)))
  }

  ghost predicate PaidOnce(s: State) {
    forall id: Id :: IdPaidOnce(s, id)
  }

  predicate NoOwn(journal: seq<Entry>, id: Id) {
    forall e | e in journal && !e.Received? :: e.id != id
  }

  // Nothing has been taken from a reservation that is not settled or being settled.
  ghost predicate Untouched(s: State) {
    forall id: Id | IsUntouched(s, id) :: NoOwn(s.journal, id)
  }

  predicate IsUntouched(s: State, id: Id) {
    !Moved(s.loop, id) && (id in s.docs ==> s.docs[id].Open() && id !in s.unrecorded)
  }

  // What every step keeps, with or without the guards, ...
  ghost predicate Sound(s: State) {
    && DocsOk(s) && LoopFresh(s) && Traced(s) && Owned(s) && RefundsTraced(s)
    && Untouched(s) && LoopFunded(s) && Covered(s)
  }

  // ... and with them.
  ghost predicate Inv(s: State) {
    Sound(s) && RefundFunded(s) && Solvent(s) && PaidOnce(s)
  }
}
