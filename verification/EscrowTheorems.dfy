/** The promises of the escrow, over every run. */
module EscrowTheorems {
  import opened GoInt
  import opened Collections
  import opened Payout
  import opened Ledger
  import opened Settlement
  import opened Escrow
  import opened EscrowSafety
  import Horizon

  // ---------- Conservation ----------

  function Incoming(effects: seq<Effect>, account: Account, asset: Asset): nat {
    if effects == [] then 0
    else
      var last := effects[|effects| - 1];
      Incoming(effects[..|effects| - 1], account, asset) +
      if last.Credited? && last.account == account && last.asset == asset then last.amount else 0
  }

  function Outgoing(effects: seq<Effect>, account: Account, asset: Asset): nat {
    if effects == [] then 0
    else
      var last := effects[|effects| - 1];
      Outgoing(effects[..|effects| - 1], account, asset) +
      if last.Debited? && last.account == account && last.asset == asset then last.amount else 0
  }

  // Where the money of one reservation came from and went to, by role.
  datatype Books = Books(credited: int, farmers: int, burned: int, foundation: int, refunded: int) {
    function Left(): int { credited - farmers - burned - foundation - refunded }
  }

  function BooksOf(journal: seq<Entry>, account: Account, id: Id, asset: Asset): Books {
    if journal == [] then Books(0, 0, 0, 0, 0)
    else
      var b, e := BooksOf(journal[..|journal| - 1], account, id, asset), journal[|journal| - 1];
      if TxOf(e).memo != ForReservation(id) then b
      else
        var b' := b.(credited := b.credited + Incoming(TxOf(e).effects, account, asset));
        match e
        case Received(_) => b'
        case PaidOut(_, source, x, farmers, burned, foundation, to) =>
          if source != account || x != asset then b'
          else b'.(farmers := b.farmers + Total(farmers),
                   burned := b.burned + Total(Pooled(Issuer(x), burned)),
                   foundation := b.foundation + Total(Pooled(to, foundation)))
        case Refunded(_, source, x, _, amount) =>
          if source != account || x != asset then b' else b'.(refunded := b.refunded + amount)
  }

  lemma {:induction false} NetIsInLessOut(effects: seq<Effect>, account: Account, asset: Asset)
    ensures Net(effects, account, asset) == Incoming(effects, account, asset) - Outgoing(effects, account, asset)
  {
    if effects == [] {
    } else {
      NetIsInLessOut(effects[..|effects| - 1], account, asset);
    }
  }

  lemma {:induction false} NothingOutgoing(effects: seq<Effect>, account: Account, asset: Asset)
    requires forall e | e in effects && e.Debited? :: e.account != account
    ensures Outgoing(effects, account, asset) == 0
  {
    if effects == [] {
    } else {
      NothingOutgoing(effects[..|effects| - 1], account, asset);
      assert effects[|effects| - 1] in effects;
    }
  }

  lemma {:induction false} PaymentsOutgoing(source: Account, asset: Asset, payments: seq<Payment>, account: Account,
                                            other: Asset)
    ensures Outgoing(Effects(source, asset, payments), account, other)
         == if account == source && other == asset then Total(payments) else 0
  {
    if payments == [] {
    } else {
      var init, last := payments[..|payments| - 1], payments[|payments| - 1];
      PaymentsOutgoing(source, asset, init, account, other);
      var effects := Effects(source, asset, payments);
      assert effects[..|effects| - 1] == Effects(source, asset, init) + [Debited(source, asset, last.amount)];
      assert effects[..|effects| - 1][..|effects| - 2] == Effects(source, asset, init);
    }
  }

  // What the ledger says a reservation has left is what its books say: everything that ever left
  // an escrow account under a memo went to the farmers, the burn or the foundation, or was refunded.
  lemma {:induction false} BooksBalance(accounts: set<Account>, journal: seq<Entry>, account: Account, id: Id,
                                        asset: Asset)
    requires account in accounts && forall e | e in journal && e.Received? :: External(accounts, e.tx)
    ensures Balance(Chain(journal), account, ForReservation(id), asset) == BooksOf(journal, account, id, asset).Left()
  {
    if journal == [] {
    } else {
      var init, e := journal[..|journal| - 1], journal[|journal| - 1];
      assert journal == init + [e] && e in journal;
      BooksBalance(accounts, init, account, id, asset);
      BalanceAfter(init, e, account, ForReservation(id), asset);
      NetIsInLessOut(TxOf(e).effects, account, asset);
      match e
      case Received(tx) => NothingOutgoing(tx.effects, account, asset);
      case PaidOut(_, source, x, farmers, burned, foundation, to) =>
        PaymentsOutgoing(source, x, Payments(e), account, asset);
        TotalConcat(farmers + Pooled(Issuer(x), burned), Pooled(to, foundation));
        TotalConcat(farmers, Pooled(Issuer(x), burned));
      case Refunded(_, source, x, to, amount) =>
        PaymentsOutgoing(source, x, Payments(e), account, asset);
        SinglePayment(to, amount);
    }
  }

  // What the transaction of a payout brings each account: its farmer's parts, the burned parts if it is
  // the issuer, the foundation's if it is the foundation.
  lemma PayoutGives(s: State, d: PaymentInfo, wallets: map<int, Account>, account: Account)
    requires Admissible(d.infos)
    ensures TxOf(PayoutOf(s, d, wallets)).memo == ForReservation(d.id)
    ensures Net(TxOf(PayoutOf(s, d, wallets)).effects, account, d.asset)
         == Due(d.infos, d.asset, wallets, s.foundation, account)
            - if account == d.address then Total(Payments(PayoutOf(s, d, wallets))) else 0
  {
    assert Payments(PayoutOf(s, d, wallets)) == Batch(d.infos, d.asset, wallets, s.foundation);
    BatchGives(d.infos, d.asset, wallets, s.foundation, account);
    EffectsGive(d.address, d.asset, Payments(PayoutOf(s, d, wallets)), account);
  }

  function MemosOf(ids: seq<Id>): (memos: seq<Memo>)
    ensures |memos| == |ids| && forall i | 0 <= i < |ids| :: memos[i] == ForReservation(ids[i])
  {
    if ids == [] then [] else MemosOf(ids[..|ids| - 1]) + [ForReservation(ids[|ids| - 1])]
  }

  lemma RunIsHistory(states: seq<State>, events: seq<Event>)
    requires IsRun(states, events)
    ensures IsHistory(states, events)
  {
  }

  // Main theorems on money. Whatever the loop does, with or without the guards, each reservation's
  // money is conserved, ...
  lemma BooksAlwaysBalance(states: seq<State>, events: seq<Event>, n: nat, account: Account, id: Id, asset: Asset)
    requires IsHistory(states, events) && n < |states| && account in states[n].accounts
    ensures Balance(Chain(states[n].journal), account, ForReservation(id), asset)
         == BooksOf(states[n].journal, account, id, asset).Left()
  {
    HistoryIsSound(states, events, n);
    BooksBalance(states[n].accounts, states[n].journal, account, id, asset);
  }

  // ... and what was refunded went to an account that had paid in for that same reservation.
  lemma RefundsReturn(states: seq<State>, events: seq<Event>, n: nat, k: nat)
    requires IsHistory(states, events) && n < |states| && k < |states[n].journal| && states[n].journal[k].Refunded?
    ensures var journal, e := states[n].journal, states[n].journal[k];
            PaidUnder(Chain(journal[..k]), e.source, ForReservation(e.id), e.asset, e.to)
  {
    var journal, e := states[n].journal, states[n].journal[k];
    HistoryIsSound(states, events, n);
    assert RefundTraced(journal, k);
    FundersPaidIn(Chain(journal[..k]), e.source, ForReservation(e.id), e.asset, e.to);
  }

  // Under the guards what is left of it is never negative ...
  lemma MoneyIsConserved(states: seq<State>, events: seq<Event>, n: nat, account: Account, id: Id, asset: Asset)
    requires IsRun(states, events) && n < |states| && account in states[n].accounts
    ensures Balance(Chain(states[n].journal), account, ForReservation(id), asset)
         == BooksOf(states[n].journal, account, id, asset).Left() >= 0
  {
    RunKeepsInv(states, events, n);
    BooksBalance(states[n].accounts, states[n].journal, account, id, asset);
  }

  // ... and an escrow account holds at least what all the reservations sharing it still own.
  lemma AccountCoversAll(states: seq<State>, events: seq<Event>, n: nat, account: Account, asset: Asset, ids: seq<Id>)
    requires IsRun(states, events) && n < |states| && account in states[n].accounts
    requires Distinct(ids)
    ensures SumBalances(Chain(states[n].journal), account, asset, MemosOf(ids))
         <= Holdings(Chain(states[n].journal), account, asset)
  {
    RunKeepsInv(states, events, n);
    AccountCoversReservations(Chain(states[n].journal), account, asset, MemosOf(ids));
  }

  // ---------- When it stays solvent ----------

  // What a payout or refund takes from its reservation is there.
  predicate Affords(s: State, e: Event) {
    && (e.DeployedMessage? && e.submitted && e.id in s.docs && s.docs[e.id].Open() ==>
          var d := s.docs[e.id];
          ToOthers(d.address, Payments(PayoutOf(s, d, e.wallets))) <= BalanceOf(s, d))
    && (e.SubmitRefund? && s.loop.Refunding? ==> s.loop.amount <= BalanceOf(s, s.loop.doc))
  }

  // Whatever the loop does, no reservation is overdrawn if and only if every payout and refund took
  // no more than its own reservation had.
  lemma {:induction false} StaysSolventIff(states: seq<State>, events: seq<Event>, n: nat)
    requires IsHistory(states, events) && n < |states|
    ensures AllSolvent(states, n) <==> AllAfforded(states, events, n)
  {
    if n == 0 {
      SolventFirst(states, events);
    } else {
      StaysSolventIff(states, events, n - 1);
      SolventNext(states, events, n);
      OneMoreSolvent(states, n);
      OneMoreAfforded(states, events, n);
    }
  }

  lemma SolventFirst(states: seq<State>, events: seq<Event>)
    requires IsHistory(states, events)
    ensures AllSolvent(states, 0) && AllAfforded(states, events, 0)
  {
  }

  ghost predicate AllSolvent(states: seq<State>, n: nat)
    requires n < |states|
  {
    forall k | 0 <= k <= n :: Solvent(states[k])
  }

  predicate AllAfforded(states: seq<State>, events: seq<Event>, n: nat)
    requires n <= |events| && n < |states|
  {
    forall k | 0 <= k < n :: Affords(states[k], events[k])
  }

  lemma OneMoreAfforded(states: seq<State>, events: seq<Event>, n: nat)
    requires 0 < n < |states| && n <= |events|
    ensures AllAfforded(states, events, n) <==>
              AllAfforded(states, events, n - 1) && Affords(states[n - 1], events[n - 1])
  {
  }

  lemma OneMoreSolvent(states: seq<State>, n: nat)
    requires 0 < n < |states|
    ensures AllSolvent(states, n) <==> AllSolvent(states, n - 1) && Solvent(states[n])
    ensures AllSolvent(states, n - 1) ==> Solvent(states[n - 1])
  {
  }

  lemma SolventNext(states: seq<State>, events: seq<Event>, n: nat)
    requires IsHistory(states, events) && 0 < n < |states|
    ensures Solvent(states[n - 1]) ==> (Solvent(states[n]) <==> Affords(states[n - 1], events[n - 1]))
  {
    HistoryIsSound(states, events, n - 1);
    if Solvent(states[n - 1]) {
      SolventStepIff(states[n - 1], events[n - 1]);
    }
  }

  lemma SolventStepIff(s: State, e: Event)
    requires Sound(s) && Solvent(s) && Enabled(s, e)
    ensures Solvent(Apply(s, e)) <==> Affords(s, e)
  {
    var x := Appended(s, e);
    if x == [] {
      assert s.journal + x == s.journal;
      NothingTaken(s, e);
    } else {
      assert x == [x[0]];
      if x[0].Received? {
        SolventAfter(s, x[0], Apply(s, e));
      } else {
        SolventEntryIff(s, x[0], Apply(s, e));
        EntryAffords(s, e, x[0]);
      }
    }
  }

  lemma NothingTaken(s: State, e: Event)
    requires Enabled(s, e) && Apply(s, e).journal == s.journal
    ensures Affords(s, e)
  {
  }

  lemma SolventEntryIff(s: State, x: Entry, s': State)
    requires Solvent(s) && !x.Received? && x.source in s.accounts
    requires s'.accounts == s.accounts && s'.journal == s.journal + [x]
    ensures Solvent(s') <==> ToOthers(x.source, Payments(x)) <=
                             Balance(Chain(s.journal), x.source, ForReservation(x.id), x.asset)
  {
    EffectsTake(x.source, x.asset, Payments(x));
    BalanceAfter(s.journal, x, x.source, ForReservation(x.id), x.asset);
    if ToOthers(x.source, Payments(x)) <= Balance(Chain(s.journal), x.source, ForReservation(x.id), x.asset) {
      forall account, memo, asset | account in s'.accounts
        ensures Balance(Chain(s'.journal), account, memo, asset) >= 0
      {
        BalanceAfter(s.journal, x, account, memo, asset);
        EffectsNet(x.source, x.asset, Payments(x), account, asset);
      }
    }
  }

  lemma EntryAffords(s: State, e: Event, x: Entry)
    requires Sound(s) && Enabled(s, e) && Apply(s, e).journal == s.journal + [x] && !x.Received?
    ensures Affords(s, e) <==> ToOthers(x.source, Payments(x)) <=
                               Balance(Chain(s.journal), x.source, ForReservation(x.id), x.asset)
  {
    assert Apply(s, e).journal[|s.journal|] == x;
    if e.SubmitRefund? {
      LoopDocIsStored(s);
      ToIsAnother(s);
      assert [Payment(x.to, x.amount)][..0] == [];
    } else {
      assert e.DeployedMessage?;
    }
  }

  // ---------- Isolation ----------

  // The memo a step writes to the ledger.
  predicate Touches(s: State, e: Event, memo: Memo) {
    match e
    case Receive(tx) => tx.memo == memo
    case DeployedMessage(id, _, _) => memo == ForReservation(id)
    case SubmitRefund => HasDoc(s.loop) && memo == ForReservation(s.loop.doc.id)
    case _ => false
  }

  // No step on one reservation changes what another one owns.
  lemma StepsAreIsolated(s: State, e: Event, account: Account, memo: Memo, asset: Asset)
    requires DocsOk(s) && Enabled(s, e) && !Touches(s, e, memo)
    ensures Balance(Chain(Apply(s, e).journal), account, memo, asset) == Balance(Chain(s.journal), account, memo, asset)
  {
    match e
    case Receive(tx) => OtherMemo(s.journal, Received(tx), account, memo, asset);
    case DeployedMessage(id, wallets, submitted) =>
      if submitted && id in s.docs && s.docs[id].Open() {
        OtherMemo(s.journal, PayoutOf(s, s.docs[id], wallets), account, memo, asset);
      }
    case SubmitRefund =>
      var d := s.loop.doc;
      OtherMemo(s.journal, Refunded(d.id, d.address, d.asset, s.loop.to, s.loop.amount), account, memo, asset);
    case _ =>
  }

  lemma OtherMemo(journal: seq<Entry>, e: Entry, account: Account, memo: Memo, asset: Asset)
    requires if e.Received? then e.tx.memo != memo else ForReservation(e.id) != memo
    ensures Balance(Chain(journal + [e]), account, memo, asset) == Balance(Chain(journal), account, memo, asset)
  {
    BalanceAfter(journal, e, account, memo, asset);
  }

  // ---------- Settled once ----------

  // In every reachable state a reservation has been paid out at most once, is not both released
  // and canceled, and has been paid out if it is released.
  lemma SettledOnce(states: seq<State>, events: seq<Event>, n: nat, id: Id)
    requires IsRun(states, events) && n < |states|
    ensures PayoutCount(states[n].journal, id) <= 1
    ensures id in states[n].docs ==> !(states[n].docs[id].released && states[n].docs[id].canceled)
    ensures id in states[n].docs && states[n].docs[id].released ==> PayoutCount(states[n].journal, id) == 1
  {
    RunKeepsInv(states, events, n);
    assert IdPaidOnce(states[n], id);
  }

  // Whole documents are written back from copies taken at the start of a batch, yet no flag is
  // ever lost: a document seen at one time is the same, with at most more flags, ever after.
  lemma {:induction false} NoLostUpdate(states: seq<State>, events: seq<Event>, m: nat, n: nat, id: Id)
    requires IsHistory(states, events) && m <= n < |states| && id in states[m].docs
    ensures id in states[n].docs && Later(states[m].docs[id], states[n].docs[id])
    decreases n - m
  {
    if m == n {
    } else {
      NoLostUpdate(states, events, m, n - 1, id);
      HistoryIsSound(states, events, n - 1);
      DocsOnlyGainFlags(states[n - 1], events[n - 1], id);
    }
  }

  lemma {:induction false} UnrecordedStays(states: seq<State>, events: seq<Event>, m: nat, n: nat)
    requires IsHistory(states, events) && m <= n < |states|
    ensures states[m].unrecorded <= states[n].unrecorded
    decreases n - m
  {
    if m == n {
    } else {
      UnrecordedStays(states, events, m, n - 1);
      UnrecordedGrows(states[n - 1], events[n - 1]);
    }
  }

  lemma UnrecordedGrows(s: State, e: Event)
    requires Enabled(s, e)
    ensures s.unrecorded <= Apply(s, e).unrecorded
  {
  }

  // What is released or canceled is not paid out any more.
  lemma {:induction false} ClosedIsNeverPaid(states: seq<State>, events: seq<Event>, m: nat, n: nat, id: Id)
    requires IsHistory(states, events) && m <= n < |states| && id in states[m].docs && !states[m].docs[id].Open()
    ensures PayoutCount(states[n].journal, id) == PayoutCount(states[m].journal, id)
    decreases n - m
  {
    if m == n {
    } else {
      ClosedIsNeverPaid(states, events, m, n - 1, id);
      NoLostUpdate(states, events, m, n - 1, id);
      HistoryIsSound(states, events, n - 1);
      ClosedIsNotPaid(states[n - 1], events[n - 1], id);
    }
  }

  lemma ClosedIsNotPaid(s: State, e: Event, id: Id)
    requires Enabled(s, e) && id in s.docs && !s.docs[id].Open() && DocsOk(s)
    ensures PayoutCount(Apply(s, e).journal, id) == PayoutCount(s.journal, id)
  {
    if e.DeployedMessage? {
      if e.submitted && e.id in s.docs && s.docs[e.id].Open() {
        PayoutCountAppend(s.journal, PayoutOf(s, s.docs[e.id], e.wallets), id);
      }
    } else {
      CountUnchanged(s, e, id);
    }
  }

  // How often the Released write of a payout was lost.
  function LostReleases(states: seq<State>, events: seq<Event>, n: nat, id: Id): nat
    requires n <= |events| && n <= |states|
  {
    if n == 0 then 0
    else LostReleases(states, events, n - 1, id) + if Loses(states[n - 1], events[n - 1], id) then 1 else 0
  }

  // Whatever the loop does, the farmers are paid once for every lost write, and once if a release is
  // under way or recorded.
  lemma {:induction false} PaidOncePerRelease(states: seq<State>, events: seq<Event>, n: nat, id: Id)
    requires IsHistory(states, events) && n < |states|
    ensures PayoutCount(states[n].journal, id) == LostReleases(states, events, n, id) + Releases(states[n], id)
  {
    if n == 0 {
    } else {
      PaidOncePerRelease(states, events, n - 1, id);
      HistoryIsSound(states, events, n - 1);
      ReleasesAfter(states[n - 1], events[n - 1], id);
    }
  }

  // A paid reservation whose settlement has not begun can be paid for in full.
  lemma PaidIsCovered(states: seq<State>, events: seq<Event>, n: nat, id: Id)
    requires IsHistory(states, events) && n < |states| && id in states[n].docs
    requires states[n].docs[id].paid && states[n].docs[id].Open() && id !in states[n].unrecorded &&
             !Moved(states[n].loop, id)
    ensures BalanceOf(states[n], states[n].docs[id]) >= states[n].docs[id].Price()
  {
    HistoryIsSound(states, events, n);
  }

  // ---------- What is read ----------

  // The balance of a reservation that is neither settled nor being settled is never read too high,
  // whatever lookups fail.
  lemma UnsettledIsReadLow(states: seq<State>, events: seq<Event>, n: nat, id: Id, failing: set<nat>)
    requires IsHistory(states, events) && n < |states| && id in states[n].docs && IsUntouched(states[n], id)
    ensures 0 <= ReadOf(states[n], states[n].docs[id], failing) <= BalanceOf(states[n], states[n].docs[id])
  {
    HistoryIsSound(states, events, n);
    UntouchedIsReadLow(states[n], states[n].docs[id], failing);
  }

  // The net amount of the transactions that are missed.
  function MissedOf(s: State, d: PaymentInfo, failing: set<nat>): int {
    Horizon.MissedNet(Chain(s.journal), d.address, ForReservation(d.id), d.asset, failing)
  }

  // A poll takes a reservation for funded that is not exactly when the price is above its balance
  // but not above what is left of the balance without the missed transactions.
  lemma PollFundsUncoveredIff(s: State, failing: set<nat>)
    requires Enabled(s, Poll(failing))
    ensures var d := s.loop.batch[0];
            Apply(s, Poll(failing)).loop.Funded? && BalanceOf(s, d) < d.Price() <==>
              BalanceOf(s, d) < d.Price() <= BalanceOf(s, d) - MissedOf(s, d, failing)
  {
    var d := s.loop.batch[0];
    Horizon.ReadingMisses(Chain(s.journal), d.address, ForReservation(d.id), d.asset, failing);
  }

  // That never happens to a reservation that is open and whose flags are up to date.
  lemma PollFundsCovered(states: seq<State>, events: seq<Event>, n: nat, failing: set<nat>)
    requires IsHistory(states, events) && n < |states| && Enabled(states[n], Poll(failing))
    requires Apply(states[n], Poll(failing)).loop.Funded? && Live(states[n], states[n].loop.batch[0])
    ensures BalanceOf(states[n], states[n].loop.batch[0]) >= states[n].loop.batch[0].Price()
  {
    HistoryIsSound(states, events, n);
    PollIsRight(states[n], failing);
  }

  // ---------- Refunds ----------

  lemma ChainTraced(s: State, account: Account, asset: Asset)
    requires Traced(s) && account in s.accounts
    ensures forall tx | tx in Chain(s.journal) :: Traceable(tx, account, asset)
  {
    forall tx | tx in Chain(s.journal)
      ensures Traceable(tx, account, asset)
    {
      var e := ChainMember(s.journal, tx);
    }
  }

  // When every lookup is answered in the end, the balance and the donors are read right.
  predicate AllAnswered(s: State, d: PaymentInfo, failing: set<nat>) {
    Horizon.AllAnswered(Horizon.Still(Chain(s.journal), ForReservation(d.id), failing))
  }

  lemma ReadRight(s: State, d: PaymentInfo, failing: set<nat>)
    requires AllAnswered(s, d, failing)
    ensures ReadOf(s, d, failing) == BalanceOf(s, d)
    ensures DonorsOf(s, d, failing) == Funders(Chain(s.journal), d.address, ForReservation(d.id), d.asset)
  {
    Horizon.ReadingIs(Chain(s.journal), d.address, ForReservation(d.id), d.asset, failing);
  }

  lemma HasFunder(s: State, d: PaymentInfo) returns (to: Account)
    requires Traced(s) && Solvent(s) && d.address in s.accounts
    ensures BalanceOf(s, d) == 0 || to in Funders(Chain(s.journal), d.address, ForReservation(d.id), d.asset)
  {
    to := "";
    if BalanceOf(s, d) != 0 {
      ChainTraced(s, d.address, d.asset);
      PositiveBalanceHasFunder(Chain(s.journal), d.address, ForReservation(d.id), d.asset);
      to :| to in Funders(Chain(s.journal), d.address, ForReservation(d.id), d.asset);
    }
  }

  // wallet.Refund never gets stuck while every lookup is answered: what it reads is right, and if
  // there is anything to refund there is somebody to refund.
  lemma RefundHasDestination(states: seq<State>, events: seq<Event>, n: nat, failing: set<nat>)
    requires IsRun(states, events) && n < |states| && states[n].loop.Returning?
    requires AllAnswered(states[n], states[n].loop.doc, failing)
    ensures exists to :: SafeStep(states[n], ReadFunds(failing, to))
    ensures !Enabled(states[n], Panic(failing))
  {
    RunKeepsInv(states, events, n);
    RefundGoesOn(states[n], failing);
  }

  // A refund panics exactly when none of the transactions that are read names a donor and one of them
  // takes money out.
  lemma RefundPanicsIff(states: seq<State>, events: seq<Event>, n: nat, failing: set<nat>)
    requires IsHistory(states, events) && n < |states| && states[n].loop.Returning?
    ensures var d, chain := states[n].loop.doc, Chain(states[n].journal);
            Enabled(states[n], Panic(failing)) <==>
              Horizon.NoDonorRead(chain, d.address, ForReservation(d.id), d.asset, failing) &&
              Horizon.DebitRead(chain, d.address, ForReservation(d.id), d.asset, failing)
  {
    var d := states[n].loop.doc;
    HistoryIsSound(states, events, n);
    LoopDocIsStored(states[n]);
    ChainTraced(states[n], d.address, d.asset);
    Horizon.NoDonorsIff(Chain(states[n].journal), d.address, ForReservation(d.id), d.asset, failing);
  }

  // So it never does when nothing was taken before: neither by a payout nor by a refund whose flag
  // was lost.
  lemma FirstRefundNeverPanics(states: seq<State>, events: seq<Event>, n: nat, failing: set<nat>)
    requires IsHistory(states, events) && n < |states| && states[n].loop.Returning?
    requires IsUntouched(states[n], states[n].loop.doc.id)
    ensures !Enabled(states[n], Panic(failing))
    ensures exists to :: SafeStep(states[n], ReadFunds(failing, to))
  {
    HistoryIsSound(states, events, n);
    RefundPanicsIff(states, events, n, failing);
    LoopDocIsStored(states[n]);
    FirstRefundGoesOn(states[n], failing);
  }

  lemma FirstRefundGoesOn(s: State, failing: set<nat>)
    requires Sound(s) && s.loop.Returning? && IsUntouched(s, s.loop.doc.id)
    ensures !Enabled(s, Panic(failing))
    ensures exists to :: SafeStep(s, ReadFunds(failing, to))
  {
    var d := s.loop.doc;
    LoopDocIsStored(s);
    UntouchedIsReadLow(s, d, failing);
    ChainTraced(s, d.address, d.asset);
    Horizon.NoDonorsIff(Chain(s.journal), d.address, ForReservation(d.id), d.asset, failing);
    if ReadOf(s, d, failing) == 0 {
      assert SafeStep(s, ReadFunds(failing, ""));
    } else {
      assert DonorsOf(s, d, failing) != {} by {
        if DonorsOf(s, d, failing) == {} {
          Horizon.NoDonorsTakes(Chain(s.journal), d.address, ForReservation(d.id), d.asset, failing);
        }
      }
      var to :| to in DonorsOf(s, d, failing);
      assert SafeStep(s, ReadFunds(failing, to));
    }
  }

  lemma RefundGoesOn(s: State, failing: set<nat>)
    requires Inv(s) && s.loop.Returning? && AllAnswered(s, s.loop.doc, failing)
    ensures exists to :: SafeStep(s, ReadFunds(failing, to))
    ensures !Enabled(s, Panic(failing))
  {
    LoopDocIsStored(s);
    ReadRight(s, s.loop.doc, failing);
    var to := HasFunder(s, s.loop.doc);
    CanRefund(s, failing, to);
  }

  lemma CanRefund(s: State, failing: set<nat>, to: Account)
    requires s.loop.Returning? && ReadOf(s, s.loop.doc, failing) == BalanceOf(s, s.loop.doc) >= 0
    requires BalanceOf(s, s.loop.doc) == 0 || to in DonorsOf(s, s.loop.doc, failing)
    ensures SafeStep(s, ReadFunds(failing, to)) && !Enabled(s, Panic(failing))
  {
  }

  // Nor can the network refuse it for lack of funds.
  lemma RefundIsCovered(s: State)
    requires Inv(s) && s.loop.Refunding?
    ensures Enabled(s, SubmitRefund)
  {
    LoopDocIsStored(s);
    BalanceIsCovered(s, s.loop.doc);
  }

  lemma BalanceIsCovered(s: State, d: PaymentInfo)
    requires Solvent(s) && d.address in s.accounts
    ensures BalanceOf(s, d) <= Holdings(Chain(s.journal), d.address, d.asset)
  {
    var memos := [ForReservation(d.id)];
    AccountCoversReservations(Chain(s.journal), d.address, d.asset, memos);
    assert memos[..0] == [];
    assert SumBalances(Chain(s.journal), d.address, d.asset, memos) == BalanceOf(s, d);
  }

  lemma DonorsAreOthers(s: State, d: PaymentInfo, failing: set<nat>)
    ensures d.address !in DonorsOf(s, d, failing)
  {
    Horizon.ReadingIs(Chain(s.journal), d.address, ForReservation(d.id), d.asset, failing);
  }

  lemma RefundTakes(s: State, e: Entry, d: PaymentInfo)
    requires e.Refunded? && e.id == d.id && e.source == d.address && e.asset == d.asset && e.to != d.address
    ensures Balance(Chain(s.journal + [e]), d.address, ForReservation(d.id), d.asset) == BalanceOf(s, d) - e.amount
  {
    BalanceAfter(s.journal, e, d.address, ForReservation(d.id), d.asset);
    EffectsNet(d.address, d.asset, Payments(e), d.address, d.asset);
    SinglePayment(e.to, e.amount);
  }

  // A refund leaves the reservation solvent if and only if the amount that was read is not above
  // what it has when the refund is submitted.
  lemma RefundSolventIff(s: State)
    requires Enabled(s, SubmitRefund) && s.loop.to != s.loop.doc.address
    ensures BalanceOf(Apply(s, SubmitRefund), s.loop.doc) == BalanceOf(s, s.loop.doc) - s.loop.amount
    ensures BalanceOf(Apply(s, SubmitRefund), s.loop.doc) >= 0 <==> s.loop.amount <= BalanceOf(s, s.loop.doc)
  {
    var d := s.loop.doc;
    RefundTakes(s, Refunded(d.id, d.address, d.asset, s.loop.to, s.loop.amount), d);
  }

  // A refund leaves exactly what it did not read and what arrived after: nothing, if it read
  // everything and nothing arrived.
  lemma RefundEmpties(s: State, failing: set<nat>, to: Account, late: State)
    requires s.loop.Returning? && Enabled(s, ReadFunds(failing, to)) && ReadOf(s, s.loop.doc, failing) > 0
    requires late == Apply(s, ReadFunds(failing, to)).(journal := late.journal) && Enabled(late, SubmitRefund)
    ensures BalanceOf(Apply(late, SubmitRefund), s.loop.doc)
         == BalanceOf(late, s.loop.doc) - ReadOf(s, s.loop.doc, failing)
    ensures late.journal == s.journal ==>
              (BalanceOf(Apply(late, SubmitRefund), s.loop.doc) == 0 <==>
               ReadOf(s, s.loop.doc, failing) == BalanceOf(s, s.loop.doc))
  {
    DonorsAreOthers(s, s.loop.doc, failing);
    RefundSolventIff(late);
  }

  // With nothing left, and nothing coming in under its memo, a reservation keeps having nothing.
  lemma NothingStaysNothing(s: State, e: Event, d: PaymentInfo)
    requires Inv(s) && SafeStep(s, e) && Empty(s, d) && !(e.Receive? && e.tx.memo == ForReservation(d.id))
    ensures Empty(Apply(s, e), d)
  {
    DocsOnlyGainFlags(s, e, d.id);
    var x := Appended(s, e);
    if x == [] {
      assert s.journal + x == s.journal;
    } else {
      assert x == [x[0]];
      IsAffordable(s, e, x[0]);
      TakesNothing(s, x[0], d);
    }
  }

  lemma TakesNothing(s: State, x: Entry, d: PaymentInfo)
    requires Affordable(s, x) && BalanceOf(s, d) == 0 && (TxOf(x).memo == ForReservation(d.id) ==> !x.Received?)
    requires !x.Received? && x.id == d.id ==> x.source == d.address && x.asset == d.asset
    ensures Balance(Chain(s.journal + [x]), d.address, ForReservation(d.id), d.asset) == 0
  {
    BalanceAfter(s.journal, x, d.address, ForReservation(d.id), d.asset);
    if !x.Received? && x.id == d.id {
      EffectsNet(d.address, d.asset, Payments(x), d.address, d.asset);
    }
  }

  predicate Empty(s: State, d: PaymentInfo) {
    BalanceOf(s, d) == 0 && d.id in s.docs && Later(d, s.docs[d.id])
  }

  lemma {:induction false} StaysEmpty(states: seq<State>, events: seq<Event>, m: nat, n: nat, d: PaymentInfo)
    requires IsRun(states, events) && m <= n < |states| && Empty(states[m], d)
    requires forall k | m <= k < n :: !(events[k].Receive? && events[k].tx.memo == ForReservation(d.id))
    ensures Empty(states[n], d)
    decreases n - m
  {
    if m == n {
    } else {
      StaysEmpty(states, events, m, n - 1, d);
      RunKeepsInv(states, events, n - 1);
      NothingStaysNothing(states[n - 1], events[n - 1], d);
    }
  }

  // The refund at step i returned everything.
  ghost predicate RefundedAll(states: seq<State>, events: seq<Event>, i: nat) {
    && IsRun(states, events) && i < |events|
    && events[i] == SubmitRefund && states[i].loop.amount == BalanceOf(states[i], states[i].loop.doc)
  }

  // Nothing was paid in for this reservation after step i and before state n.
  predicate NothingReceived(events: seq<Event>, i: nat, n: nat, id: Id)
    requires n <= |events|
  {
    forall k | i < k < n :: !(events[k].Receive? && events[k].tx.memo == ForReservation(id))
  }

  lemma EmptyNow(states: seq<State>, events: seq<Event>, i: nat)
    requires RefundedAll(states, events, i)
    ensures Empty(states[i + 1], states[i].loop.doc)
  {
    RunKeepsInv(states, events, i);
    LoopDocIsStored(states[i]);
    ToIsAnother(states[i]);
    RefundSolventIff(states[i]);
  }

  // A refund goes to somebody else.
  lemma ToIsAnother(s: State)
    requires RefundsTraced(s) && s.loop.Refunding?
    ensures s.loop.to != s.loop.doc.address
  {
  }

  // Refunding is safe to repeat. After a refund of everything, whether its flag was recorded or the
  // write was lost, and after any steps that bring in nothing for this reservation, refunding it
  // again moves nothing: the loop goes straight to writing the flag.
  lemma RefundIsRetrySafe(states: seq<State>, events: seq<Event>, i: nat, n: nat, failing: set<nat>, to: Account)
    requires RefundedAll(states, events, i) && i < n < |states|
    requires NothingReceived(events, i, n, states[i].loop.doc.id)
    requires states[n].loop.Returning? && states[n].loop.doc.id == states[i].loop.doc.id
    requires SafeStep(states[n], ReadFunds(failing, to))
    ensures Apply(states[n], ReadFunds(failing, to))
         == states[n].(loop := Recording(states[n].loop.doc, states[n].loop.goal))
  {
    var d := states[i].loop.doc;
    EmptyNow(states, events, i);
    StaysEmpty(states, events, i + 1, n, d);
    RunKeepsInv(states, events, n);
    EmptyIsRefundedAgain(states[n], d, failing, to);
  }

  lemma EmptyIsRefundedAgain(s: State, d: PaymentInfo, failing: set<nat>, to: Account)
    requires Sound(s) && Empty(s, d) && s.loop.Returning? && s.loop.doc.id == d.id
    requires SafeStep(s, ReadFunds(failing, to))
    ensures Apply(s, ReadFunds(failing, to)) == s.(loop := Recording(s.loop.doc, s.loop.goal))
  {
    LoopDocIsStored(s);
    assert BalanceOf(s, s.loop.doc) == BalanceOf(s, d);
    RefundIsRight(s, failing);
  }

  // ---------- One settlement ----------

  // A paid reservation that is deployed and not disturbed, and whose balance is read right, is
  // settled to the last unit: the batch goes to farmers, burn and foundation, and the overpayment,
  // the dust and the shares of farmers without a wallet go back to a funder.
  lemma SettlementIsExact(s: State, id: Id, wallets: map<int, Account>, failing: set<nat>, to: Account)
    requires Inv(s) && s.loop.Idle? && id in s.docs && s.docs[id].paid && s.docs[id].Open() && id !in s.unrecorded
    requires forall p | p in Batch(s.docs[id].infos, s.docs[id].asset, wallets, s.foundation) ::
               p.to != s.docs[id].address
    requires SafeStep(s, DeployedMessage(id, wallets, true))
    requires Enabled(Apply(s, DeployedMessage(id, wallets, true)), ReadFunds(failing, to))
    requires var s1 := Apply(s, DeployedMessage(id, wallets, true));
             ReadOf(s1, s.docs[id], failing) == BalanceOf(s1, s.docs[id])
    ensures var d := s.docs[id];
            var s2 := Apply(Apply(s, DeployedMessage(id, wallets, true)), ReadFunds(failing, to));
            var back := LeftToReturn(s, d, wallets);
            && 0 <= back
            && (back == 0 ==> s2.loop == Recording(d, Release) && BalanceOf(s2, d) == 0)
            && (back > 0 ==>
                  && s2.loop == Refunding(d, back, to, Release)
                  && Enabled(s2, SubmitRefund) && BalanceOf(Apply(s2, SubmitRefund), d) == 0)
  {
    AfterPayout(s, id, wallets);
    if LeftToReturn(s, s.docs[id], wallets) > 0 {
      SettlementRefund(Apply(s, DeployedMessage(id, wallets, true)), failing, to);
    }
  }

  lemma AfterPayout(s: State, id: Id, wallets: map<int, Account>)
    requires Inv(s) && s.loop.Idle? && id in s.docs && s.docs[id].paid && s.docs[id].Open() && id !in s.unrecorded
    requires forall p | p in Batch(s.docs[id].infos, s.docs[id].asset, wallets, s.foundation) ::
               p.to != s.docs[id].address
    requires SafeStep(s, DeployedMessage(id, wallets, true))
    ensures var d, s' := s.docs[id], Apply(s, DeployedMessage(id, wallets, true));
            && s'.loop == Returning(d, Release) && Solvent(s') && d.address in s'.accounts
            && BalanceOf(s', d) == LeftToReturn(s, d, wallets) >= 0
  {
    var d := s.docs[id];
    KeepsSolvent(s, DeployedMessage(id, wallets, true));
    PayoutTakes(s, d, wallets);
    PayoutLeaves(s, d, wallets);
  }

  lemma SettlementRefund(s: State, failing: set<nat>, to: Account)
    requires s.loop.Returning? && Solvent(s) && s.loop.doc.address in s.accounts
    requires Enabled(s, ReadFunds(failing, to)) && ReadOf(s, s.loop.doc, failing) == BalanceOf(s, s.loop.doc) > 0
    ensures var s' := Apply(s, ReadFunds(failing, to));
            Enabled(s', SubmitRefund) && BalanceOf(Apply(s', SubmitRefund), s.loop.doc) == 0
  {
    BalanceIsCovered(s, s.loop.doc);
    RefundEmpties(s, failing, to, Apply(s, ReadFunds(failing, to)));
  }

  lemma PayoutLeaves(s: State, d: PaymentInfo, wallets: map<int, Account>)
    requires Admissible(d.infos) && BalanceOf(s, d) >= d.Price()
    ensures BalanceOf(s, d) - Total(Batch(d.infos, d.asset, wallets, s.foundation)) == LeftToReturn(s, d, wallets) >= 0
  {
    BatchAddsUp(d.infos, d.asset, wallets, s.foundation);
  }

  // Overpayment, dust, and what is owed to farmers without a wallet.
  function LeftToReturn(s: State, d: PaymentInfo, wallets: map<int, Account>): int {
    BalanceOf(s, d) - d.Price() + Dust(d.infos) + Skipped(d.infos, DistributionOf(d.asset), wallets)
  }

  lemma PayoutTakes(s: State, d: PaymentInfo, wallets: map<int, Account>)
    requires forall p | p in Batch(d.infos, d.asset, wallets, s.foundation) :: p.to != d.address
    ensures BalanceOf(s.(journal := s.journal + [PayoutOf(s, d, wallets)]), d)
         == BalanceOf(s, d) - Total(Batch(d.infos, d.asset, wallets, s.foundation))
  {
    var e := PayoutOf(s, d, wallets);
    assert Payments(e) == Batch(d.infos, d.asset, wallets, s.foundation);
    BalanceAfter(s.journal, e, d.address, ForReservation(d.id), d.asset);
    EffectsNet(d.address, d.asset, Payments(e), d.address, d.asset);
  }
}
