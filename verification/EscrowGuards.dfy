/**
 What the guards of a safe step are for: exactly when a step without them goes wrong, and runs in
 which it does.
 */
module EscrowGuards {
  import opened GoInt
  import opened Payout
  import opened Ledger
  import opened Settlement
  import opened Escrow
  import opened EscrowSafety
  import opened EscrowTheorems
  import Horizon

  // ---------- A payout that was not due ----------

  // payoutFarmers looks at neither Paid nor the balance. A payout to others leaves its reservation
  // solvent exactly when the batch does not exceed that reservation's own balance.
  lemma PayoutSolventIff(s: State, id: Id, wallets: map<int, Account>)
    requires Enabled(s, DeployedMessage(id, wallets, true)) && id in s.docs && s.docs[id].Open() && s.docs[id].id == id
    requires forall p | p in Payments(PayoutOf(s, s.docs[id], wallets)) :: p.to != s.docs[id].address
    ensures BalanceOf(Apply(s, DeployedMessage(id, wallets, true)), s.docs[id]) >= 0
       <==> Total(Payments(PayoutOf(s, s.docs[id], wallets))) <= BalanceOf(s, s.docs[id])
  {
    PayoutTakes(s, s.docs[id], wallets);
  }

  lemma PaysIff(s: State, d: PaymentInfo, wallets: map<int, Account>)
    requires s.loop.Idle? && d.id in s.docs && s.docs[d.id] == d && d.Open()
    ensures Enabled(s, DeployedMessage(d.id, wallets, true)) <==> Payable(s, d, wallets)
  {
    PaysEntryIff(s, d, wallets, PayoutOf(s, d, wallets));
    PaymentsAreBatch(s, d, wallets);
  }

  lemma PaysEntryIff(s: State, d: PaymentInfo, wallets: map<int, Account>, e: Entry)
    requires s.loop.Idle? && d.id in s.docs && s.docs[d.id] == d && d.Open() && e == PayoutOf(s, d, wallets)
    ensures Enabled(s, DeployedMessage(d.id, wallets, true)) <==>
              Payments(e) != [] && Total(Payments(e)) <= Holdings(Chain(s.journal), d.address, d.asset)
    ensures Enabled(s, DeployedMessage(d.id, wallets, true)) ==>
              Apply(s, DeployedMessage(d.id, wallets, true)).journal == s.journal + [e]
  {
  }

  // There is something to pay, and the account can pay it.
  predicate Payable(s: State, d: PaymentInfo, wallets: map<int, Account>) {
    && Batch(d.infos, d.asset, wallets, s.foundation) != []
    && Total(Batch(d.infos, d.asset, wallets, s.foundation)) <= Holdings(Chain(s.journal), d.address, d.asset)
  }

  lemma PaymentsAreBatch(s: State, d: PaymentInfo, wallets: map<int, Account>)
    ensures Payments(PayoutOf(s, d, wallets)) == Batch(d.infos, d.asset, wallets, s.foundation)
  {
  }

  // A reservation priced in FreeTFT, all of which is burned.
  predicate FreePriced(d: PaymentInfo, n: int64) {
    && |d.infos| == 1 && d.infos[0].amount == n && 0 < n && n % 10 == 0 && 10 * n <= MAX_INT64
    && d.asset.currency == FreeTFT && d.Open() && !d.paid
  }

  lemma FreePrice(d: PaymentInfo, n: int64)
    requires FreePriced(d, n)
    ensures Admissible(d.infos) && d.Price() == n
  {
    assert d.infos[..0] == [];
    assert Required([]) == 0;
  }

  lemma FreePricedBatch(d: PaymentInfo, n: int64, foundation: Account)
    requires FreePriced(d, n)
    ensures Batch(d.infos, d.asset, map[], foundation) == [Payment(Issuer(d.asset), n)]
    ensures Total(Batch(d.infos, d.asset, map[], foundation)) == n
  {
    AllBurned(d.infos, DistributionOf(d.asset), n);
    SinglePayment(Issuer(d.asset), n);
  }

  lemma AllBurned(infos: seq<Detail>, dist: Distribution, n: nat)
    requires dist == Distribution(0, 100, 0) && |infos| == 1 && infos[0].amount == n && n % 10 == 0
    ensures FarmerPayments(infos, dist, map[]) == [] && Burned(infos, dist) == n && Foundation(infos, dist) == 0
  {
    var none := infos[..0];
    assert none == [];
    NothingKept(n);
    assert ShareOf(infos[0], dist) == Shares(0, n, 0);
    assert FarmerPayments(none, dist, map[]) == [] && Burned(none, dist) == 0 && Foundation(none, dist) == 0;
  }

  lemma NothingKept(n: nat)
    requires n % 10 == 0
    ensures Split(n, Distribution(0, 100, 0)) == Shares(0, n, 0)
  {
    SplitIsFair(n, Distribution(0, 100, 0));
  }

  // Money of one reservation on an account: nobody else's balance shows it.
  lemma Paid(tx: Tx, from: Account, d: PaymentInfo, memo: Memo, n: nat)
    requires from != d.address && tx == Horizon.Transfer(memo, from, d.address, d.asset, n)
    ensures External({d.address}, tx)
    ensures Net(tx.effects, d.address, d.asset) == n && TxDonors(tx.effects, d.address, d.asset) == {from}
  {
    Horizon.TwoEffects(from, d.address, d.asset, n, d.address);
    assert tx.effects[0] in tx.effects;
  }

  lemma OneTx(tx: Tx, account: Account, memo: Memo, asset: Asset)
    ensures Chain([Received(tx)]) == [tx]
    ensures Holdings([tx], account, asset) == Net(tx.effects, account, asset)
    ensures Balance([tx], account, memo, asset) == if tx.memo == memo then Net(tx.effects, account, asset) else 0
  {
    assert [tx][..0] == [] && [Received(tx)][..0] == [];
  }

  // Bad runs: a reservation that is never paid for, a neighbour's money on the shared account, and
  // a deployed message that burns it. Every choice of accounts and amount gives one.
  lemma UnpaidPayoutOverdraws(start: State, d: PaymentInfo, n: int64, memo: Memo, neighbour: Account) returns (s: State)
    requires Init(start) && start.accounts == {d.address} && FreePriced(d, n) && d.address != Issuer(d.asset)
    requires neighbour != d.address && memo != ForReservation(d.id)
    ensures Reachable(start, s) && d.id in s.docs && !s.docs[d.id].paid
    ensures var e := DeployedMessage(d.id, map[], true);
            Enabled(s, e) && NotOverread(s, e) && BalanceOf(Apply(s, e), d) == 0 - n
  {
    var tx := Horizon.Transfer(memo, neighbour, d.address, d.asset, n);
    Paid(tx, neighbour, d, memo, n);
    FreePrice(d, n);
    s := start.(docs := map[d.id := d], journal := [Received(tx)]);
    ReachedByDeposit(start, d, tx);
    OneTx(tx, d.address, ForReservation(d.id), d.asset);
    FreePricedBatch(d, n, start.foundation);
    BurnOverdraws(s, d, n);
  }

  lemma BurnOverdraws(s: State, d: PaymentInfo, n: nat)
    requires s.loop.Idle? && d.id in s.docs && s.docs[d.id] == d && d.Open() && d.address != Issuer(d.asset)
    requires Batch(d.infos, d.asset, map[], s.foundation) == [Payment(Issuer(d.asset), n)]
    requires n <= Holdings(Chain(s.journal), d.address, d.asset) && BalanceOf(s, d) == 0
    ensures Enabled(s, DeployedMessage(d.id, map[], true))
    ensures BalanceOf(Apply(s, DeployedMessage(d.id, map[], true)), d) == 0 - n
  {
    SinglePayment(Issuer(d.asset), n);
    PaysIff(s, d, map[]);
    PayoutTakes(s, d, map[]);
  }

  lemma ReachedByDeposit(start: State, d: PaymentInfo, tx: Tx)
    requires Init(start) && d.address in start.accounts && Admissible(d.infos) && d.Open() && !d.paid
    requires External(start.accounts, tx)
    ensures Reachable(start, start.(docs := map[d.id := d], journal := [Received(tx)]))
  {
    Starts(start);
    Next(start, start, Register(d));
    assert Apply(start, Register(d)) == start.(docs := map[d.id := d]);
    Deposit(start, start.(docs := map[d.id := d]), tx);
  }

  // ---------- Runs ----------

  ghost predicate Reachable(start: State, s: State) {
    exists states, events :: IsRun(states, events) && states[0] == start && states[|events|] == s
  }

  lemma Starts(start: State)
    requires Init(start)
    ensures Reachable(start, start)
  {
    assert IsRun([start], []);
  }

  lemma Next(start: State, s: State, e: Event)
    requires Reachable(start, s) && SafeStep(s, e)
    ensures Reachable(start, Apply(s, e))
  {
    var states, events :| IsRun(states, events) && states[0] == start && states[|events|] == s;
    RunExtends(states, events, e);
    var states', events' := states + [Apply(s, e)], events + [e];
    assert states'[|events'|] == Apply(s, e);
  }

  lemma Deposit(start: State, s: State, tx: Tx)
    requires Reachable(start, s) && External(s.accounts, tx)
    ensures Reachable(start, s.(journal := s.journal + [Received(tx)]))
  {
    Next(start, s, Receive(tx));
  }

  // A tick with one active reservation that is funded ...
  lemma TickFunds(start: State, s: State, d: PaymentInfo)
    requires Reachable(start, s) && s.loop.Idle? && s.docs == map[d.id := d] && Active(d, s.now)
    requires BalanceOf(s, d) >= d.Price()
    ensures Reachable(start, s.(loop := Funded(d, [])))
  {
    PollStarts(s, d);
    Next(start, s, StartPoll([d]));
    FundsOne(start, s.(loop := Polling([d])), d);
  }

  lemma PollStarts(s: State, d: PaymentInfo)
    requires s.loop.Idle? && s.docs == map[d.id := d] && Active(d, s.now)
    ensures SafeStep(s, StartPoll([d])) && Apply(s, StartPoll([d])) == s.(loop := Polling([d]))
  {
  }

  lemma FundsOne(start: State, s: State, d: PaymentInfo)
    requires Reachable(start, s) && s.loop == Polling([d]) && BalanceOf(s, d) >= d.Price()
    ensures Reachable(start, s.(loop := Funded(d, [])))
  {
    PollReads(s, d);
    Next(start, s, Poll({}));
  }

  lemma PollReads(s: State, d: PaymentInfo)
    requires s.loop == Polling([d]) && BalanceOf(s, d) >= d.Price()
    ensures SafeStep(s, Poll({})) && Apply(s, Poll({})) == s.(loop := Funded(d, []))
  {
    Horizon.NoFailures(Chain(s.journal), ForReservation(d.id));
    ReadRight(s, d, {});
    PollFunds(s, d, {});
  }

  lemma PollFunds(s: State, d: PaymentInfo, failing: set<nat>)
    requires s.loop == Polling([d]) && ReadOf(s, d, failing) >= d.Price()
    ensures SafeStep(s, Poll(failing)) && Apply(s, Poll(failing)) == s.(loop := Funded(d, []))
  {
    assert [d][1..] == [];
  }

  // ... and whose pipeline says Pay ...
  lemma TickDeploys(start: State, s: State, d: PaymentInfo)
    requires Reachable(start, s) && s.loop == Funded(d, [])
    ensures Reachable(start, s.(docs := s.docs[d.id := d.(paid := true)], loop := Polling([])))
  {
    Next(start, s, ReadReservation(true));
    Next(start, s.(loop := Deploying(d, [])), WriteDeploy);
    Next(start, s.(loop := Marking(d, [])), WritePaid);
  }

  lemma MarkingWrites(s: State, d: PaymentInfo)
    requires s.loop == Marking(d, []) && s.docs == map[d.id := d]
    ensures SafeStep(s, WritePaid)
    ensures Apply(s, WritePaid) == s.(docs := map[d.id := d.(paid := true)], loop := Polling([]))
  {
    assert map[d.id := d][d.id := d.(paid := true)] == map[d.id := d.(paid := true)];
  }

  // A tick with nothing to do but to refund one reservation.
  lemma SweepStarts(s: State, d: PaymentInfo)
    requires s.docs == map[d.id := d] && !Active(d, s.now)
    ensures s.loop.Idle? ==> SafeStep(s, StartPoll([])) && Apply(s, StartPoll([])) == s.(loop := Polling([]))
    ensures s.loop == Polling([]) && Expired(d, s.now) ==>
              SafeStep(s, StartSweep([d])) && Apply(s, StartSweep([d])) == s.(loop := Sweeping([d]))
    ensures s.loop == Sweeping([d]) ==>
              SafeStep(s, Sweep) && Apply(s, Sweep) == s.(loop := Returning(d, Expire([])))
  {
    assert [d][1..] == [];
  }

  // ... and nothing expired.
  lemma TickEnds(start: State, s: State)
    requires Reachable(start, s) && s.loop == Polling([]) && forall id | id in s.docs :: !Expired(s.docs[id], s.now)
    ensures Reachable(start, s.(loop := Idle))
  {
    Next(start, s, StartSweep([]));
    Next(start, s.(loop := Sweeping([])), EndTick);
  }

  // All of it.
  lemma Tick(start: State, s: State, d: PaymentInfo)
    requires Reachable(start, s) && s.loop.Idle? && s.docs == map[d.id := d] && Active(d, s.now)
    requires BalanceOf(s, d) >= d.Price()
    ensures Reachable(start, s.(docs := map[d.id := d.(paid := true)]))
  {
    TickFunds(start, s, d);
    TickDeploys(start, s.(loop := Funded(d, [])), d);
    assert s.docs[d.id := d.(paid := true)] == map[d.id := d.(paid := true)];
    TickEnds(start, s.(docs := map[d.id := d.(paid := true)], loop := Polling([])));
  }

  lemma ReachableInv(start: State, s: State)
    requires Reachable(start, s)
    ensures Inv(s)
  {
    var states, events :| IsRun(states, events) && states[0] == start && states[|events|] == s;
    RunKeepsInv(states, events, |events|);
  }

  // ---------- A settlement whose flag is lost ----------

  // After a refund whose Canceled write is lost the reservation still reads as paid and open but
  // has nothing left, ...
  lemma LostWriteEmpties(s: State, id: Id, failing: set<nat>, to: Account)
    requires Inv(s) && s.loop.Idle? && id in s.docs && s.docs[id].Open() && BalanceOf(s, s.docs[id]) > 0
    requires ReadOf(s, s.docs[id], failing) == BalanceOf(s, s.docs[id])
    requires Enabled(Apply(s, CancelMessage(id)), ReadFunds(failing, to))
    ensures var s2 := Apply(Apply(s, CancelMessage(id)), ReadFunds(failing, to));
            && Enabled(s2, SubmitRefund)
            && var s3 := Apply(s2, SubmitRefund);
               s3.loop == Recording(s.docs[id], Cancel) && s3.docs == s.docs && BalanceOf(s3, s.docs[id]) == 0
  {
    SettlementRefund(Apply(s, CancelMessage(id)), failing, to);
  }

  // ... so a payout the network accepts is paid with other reservations' money.
  lemma LostWriteOverdraws(s: State, wallets: map<int, Account>)
    requires Inv(s) && s.loop.Recording? && s.loop.goal.Cancel? && BalanceOf(s, s.loop.doc) == 0
    requires var d := s.loop.doc;
             && (forall p | p in Batch(d.infos, d.asset, wallets, s.foundation) :: p.to != d.address)
             && 0 < Total(Batch(d.infos, d.asset, wallets, s.foundation))
                  <= Holdings(Chain(s.journal), d.address, d.asset)
    ensures var d, lost := s.loop.doc, Lost(s);
            && lost == Apply(s, Fail) && d.id in lost.docs && lost.docs[d.id] == d
            && Enabled(lost, DeployedMessage(d.id, wallets, true))
            && BalanceOf(Apply(lost, DeployedMessage(d.id, wallets, true)), d) < 0
  {
    LostWrite(s);
    PayoutFromNothingOverdraws(Lost(s), s.loop.doc, wallets);
  }

  // The state after an error that keeps the flag of a settlement from being written.
  function Lost(s: State): State
    requires HasDoc(s.loop)
  {
    s.(loop := Idle, unrecorded := s.unrecorded + {s.loop.doc.id})
  }

  lemma LostWrite(s: State)
    requires Inv(s) && HasDoc(s.loop) && Moved(s.loop, s.loop.doc.id) && !s.loop.goal.Expire?
    ensures var d := s.loop.doc;
            && Enabled(s, Fail) && Apply(s, Fail) == Lost(s)
            && d.id in Lost(s).docs && Lost(s).docs[d.id] == d && d.Open()
  {
    LoopDocIsStored(s);
    assert MovedNow(s) == {s.loop.doc.id};
  }

  lemma PayoutFromNothingOverdraws(lost: State, d: PaymentInfo, wallets: map<int, Account>)
    requires lost.loop.Idle? && d.id in lost.docs && lost.docs[d.id] == d && d.Open() && BalanceOf(lost, d) == 0
    requires forall p | p in Batch(d.infos, d.asset, wallets, lost.foundation) :: p.to != d.address
    requires 0 < Total(Batch(d.infos, d.asset, wallets, lost.foundation))
               <= Holdings(Chain(lost.journal), d.address, d.asset)
    ensures Enabled(lost, DeployedMessage(d.id, wallets, true))
    ensures BalanceOf(Apply(lost, DeployedMessage(d.id, wallets, true)), d) < 0
  {
    PayoutTakes(lost, d, wallets);
  }

  // A payout whose Released write is lost, by whatever error after it, is made again by the next
  // deployed message if and only if there is something to pay and the account, with the other
  // reservations' money, can pay it.
  lemma LostReleasePaysAgainIff(s: State, wallets: map<int, Account>)
    requires Inv(s) && HasDoc(s.loop) && ReleasingNow(s.loop, s.loop.doc.id)
    ensures var d, lost, e := s.loop.doc, Lost(s), DeployedMessage(s.loop.doc.id, wallets, true);
            && lost == Apply(s, Fail) && PayoutCount(lost.journal, d.id) == 1
            && (Enabled(lost, e) <==> Payable(s, d, wallets))
            && (Enabled(lost, e) ==> PayoutCount(Apply(lost, e).journal, d.id) == 2)
  {
    LostWrite(s);
    assert IdPaidOnce(s, s.loop.doc.id);
    PaysIff(Lost(s), s.loop.doc, wallets);
    PaysEntryIff(Lost(s), s.loop.doc, wallets, PayoutOf(Lost(s), s.loop.doc, wallets));
    PayoutCountAppend(s.journal, PayoutOf(Lost(s), s.loop.doc, wallets), s.loop.doc.id);
  }

  // ---------- A balance that is read too high ----------

  // wallet.Refund follows wallet.PayoutFarmers and must see it. If the one lookup of the payout
  // fails, the refund gives back all that was there before the payout, and what the farmers got is
  // missing from the other reservations.
  lemma MissedPayoutOverdraws(s: State, id: Id, wallets: map<int, Account>, to: Account)
    requires Inv(s) && SafeStep(s, DeployedMessage(id, wallets, true)) && id in s.docs && s.docs[id].Open()
    requires forall p | p in Batch(s.docs[id].infos, s.docs[id].asset, wallets, s.foundation) ::
               p.to != s.docs[id].address
    requires |Chain(s.journal)| + 1 < Horizon.PAGE_LIMIT
    requires to in Funders(Chain(s.journal), s.docs[id].address, ForReservation(id), s.docs[id].asset)
    requires Total(Batch(s.docs[id].infos, s.docs[id].asset, wallets, s.foundation)) > 0
    ensures var d, s1 := s.docs[id], Apply(s, DeployedMessage(id, wallets, true));
            var failing := {Horizon.Asked(Chain(s.journal), ForReservation(id), 0, |Chain(s.journal)|)};
            && Enabled(s1, ReadFunds(failing, to)) && !NotOverread(s1, ReadFunds(failing, to))
            && var s2 := Apply(s1, ReadFunds(failing, to));
               && s2 == s1.(loop := Refunding(d, BalanceOf(s, d), to, Release))
               && (BalanceOf(s, d) <= Holdings(Chain(s1.journal), d.address, d.asset) ==>
                     && Enabled(s2, SubmitRefund)
                     && BalanceOf(Apply(s2, SubmitRefund), d)
                        == 0 - Total(Batch(d.infos, d.asset, wallets, s.foundation)))
  {
    var d, s1 := s.docs[id], Apply(s, DeployedMessage(id, wallets, true));
    var failing := {Horizon.Asked(Chain(s.journal), ForReservation(id), 0, |Chain(s.journal)|)};
    PayoutAffordable(s, id, wallets);
    PayoutTakes(s, d, wallets);
    MissedPayoutIsRead(s, d, PayoutOf(s, d, wallets), s1);
    RefundsTheOld(s1, d, BalanceOf(s, d), failing, to);
  }

  // A refund of what was there before, when n has been taken since.
  lemma RefundsTheOld(s1: State, d: PaymentInfo, amount: int, failing: set<nat>, to: Account)
    requires s1.loop == Returning(d, Release) && ReadOf(s1, d, failing) == amount > BalanceOf(s1, d)
    requires amount > 0 && to in DonorsOf(s1, d, failing)
    ensures Enabled(s1, ReadFunds(failing, to)) && !NotOverread(s1, ReadFunds(failing, to))
    ensures var s2 := Apply(s1, ReadFunds(failing, to));
            && s2 == s1.(loop := Refunding(d, amount, to, Release))
            && (amount <= Holdings(Chain(s1.journal), d.address, d.asset) ==>
                  Enabled(s2, SubmitRefund) && BalanceOf(Apply(s2, SubmitRefund), d) == BalanceOf(s1, d) - amount)
  {
    DonorsAreOthers(s1, d, failing);
    if amount <= Holdings(Chain(s1.journal), d.address, d.asset) {
      RefundSolventIff(Apply(s1, ReadFunds(failing, to)));
    }
  }

  lemma MissedPayoutIsRead(s: State, d: PaymentInfo, payout: Entry, s1: State)
    requires payout.PaidOut? && payout.id == d.id && s1.journal == s.journal + [payout]
    requires |Chain(s.journal)| + 1 < Horizon.PAGE_LIMIT
    ensures var failing := {Horizon.Asked(Chain(s.journal), ForReservation(d.id), 0, |Chain(s.journal)|)};
            && ReadOf(s1, d, failing) == BalanceOf(s, d)
            && DonorsOf(s1, d, failing) == Funders(Chain(s.journal), d.address, ForReservation(d.id), d.asset)
  {
    ChainAppend(s.journal, payout);
    Horizon.LastLookupFails(Chain(s.journal), TxOf(payout), d.address, ForReservation(d.id), d.asset);
  }

  // What is needed for a run: an initial state with one account, a priced reservation that does not
  // expire soon, its client, and a neighbour who uses the same account for something else.
  predicate Neighbours(start: State, d: PaymentInfo, n: int64, client: Account, neighbour: Account, memo: Memo) {
    && Init(start) && start.accounts == {d.address} && FreePriced(d, n) && d.expiration > start.now
    && client != d.address && neighbour != d.address && memo != ForReservation(d.id)
  }

  // The client and the neighbour have paid.
  function Deposited(start: State, d: PaymentInfo, n: nat, client: Account, neighbour: Account, memo: Memo): State {
    start.(docs := map[d.id := d], journal := Deposits(d, n, client, neighbour, memo))
  }

  function Deposits(d: PaymentInfo, n: nat, client: Account, neighbour: Account, memo: Memo): seq<Entry> {
    [Received(Horizon.Transfer(ForReservation(d.id), client, d.address, d.asset, n)),
     Received(Horizon.Transfer(memo, neighbour, d.address, d.asset, n))]
  }

  lemma DepositedIsReachable(start: State, d: PaymentInfo, n: int64, client: Account, neighbour: Account, memo: Memo)
    requires Neighbours(start, d, n, client, neighbour, memo)
    ensures Reachable(start, Deposited(start, d, n, client, neighbour, memo))
  {
    var mine, other := Deposits(d, n, client, neighbour, memo)[0], Deposits(d, n, client, neighbour, memo)[1];
    Paid(mine.tx, client, d, ForReservation(d.id), n);
    Paid(other.tx, neighbour, d, memo, n);
    FreePrice(d, n);
    ReachedByDeposit(start, d, mine.tx);
    Deposit(start, start.(docs := map[d.id := d], journal := [mine]), other.tx);
    assert Deposits(d, n, client, neighbour, memo) == [mine] + [other];
  }

  lemma PaidIsReachable(start: State, d: PaymentInfo, n: int64, client: Account, neighbour: Account, memo: Memo)
    requires Neighbours(start, d, n, client, neighbour, memo)
    ensures Reachable(start, Deposited(start, d.(paid := true), n, client, neighbour, memo))
  {
    DepositedIsReachable(start, d, n, client, neighbour, memo);
    DepositsBalance(d, n, client, neighbour, memo);
    FreePrice(d, n);
    Tick(start, Deposited(start, d, n, client, neighbour, memo), d);
  }

  lemma DepositsBalance(d: PaymentInfo, n: nat, client: Account, neighbour: Account, memo: Memo)
    requires client != d.address && neighbour != d.address && memo != ForReservation(d.id)
    ensures var chain := Chain(Deposits(d, n, client, neighbour, memo));
            && |chain| == 2 && Balance(chain, d.address, ForReservation(d.id), d.asset) == n
            && Holdings(chain, d.address, d.asset) == 2 * n
            && Horizon.Asked(chain, ForReservation(d.id), 0, 2) == 1
            && client in Funders(chain, d.address, ForReservation(d.id), d.asset)
  {
    var journal := Deposits(d, n, client, neighbour, memo);
    var mine, other := journal[0].tx, journal[1].tx;
    Paid(mine, client, d, ForReservation(d.id), n);
    Paid(other, neighbour, d, memo, n);
    OneTx(mine, d.address, ForReservation(d.id), d.asset);
    assert journal == [Received(mine)] + [Received(other)];
    ChainAppend([Received(mine)], Received(other));
    var chain := [mine] + [other];
    assert chain[..1] == [mine] && mine in chain;
    BalanceAppend([mine], other, d.address, ForReservation(d.id), d.asset);
    assert Horizon.Asked(chain, ForReservation(d.id), 0, 1) == 1;
  }

  // The next three steps: the payout, a refund that misses it, and its submission. The client has
  // his money back, the payout was made as well, and the neighbour's money is gone.
  lemma MissedPayoutRun(start: State, d: PaymentInfo, n: int64, client: Account, neighbour: Account, memo: Memo)
    returns (s: State)
    requires Neighbours(start, d, n, client, neighbour, memo) && d.address != Issuer(d.asset)
    ensures Reachable(start, s) && s.loop == Returning(d.(paid := true), Release)
    ensures Enabled(s, ReadFunds({1}, client)) && Enabled(Apply(s, ReadFunds({1}, client)), SubmitRefund)
    ensures BalanceOf(Apply(Apply(s, ReadFunds({1}, client)), SubmitRefund), d) == 0 - n
  {
    var paid := d.(paid := true);
    var s0 := Deposited(start, paid, n, client, neighbour, memo);
    PaidIsReachable(start, d, n, client, neighbour, memo);
    DepositsBalance(paid, n, client, neighbour, memo);
    FreePricedBatch(d, n, start.foundation);
    s := PayoutMissed(start, s0, paid, n, client);
  }

  lemma PayoutMissed(start: State, s0: State, d: PaymentInfo, n: nat, client: Account) returns (s: State)
    requires Reachable(start, s0) && s0.loop.Idle? && d.id in s0.docs && s0.docs[d.id] == d && d.Open() && d.paid
    requires d.id !in s0.unrecorded && n > 0 && d.address != Issuer(d.asset)
    requires Batch(d.infos, d.asset, map[], s0.foundation) == [Payment(Issuer(d.asset), n)]
    requires |Chain(s0.journal)| == 2 && Horizon.Asked(Chain(s0.journal), ForReservation(d.id), 0, 2) == 1
    requires client in Funders(Chain(s0.journal), d.address, ForReservation(d.id), d.asset)
    requires BalanceOf(s0, d) == n && Holdings(Chain(s0.journal), d.address, d.asset) == 2 * n
    ensures Reachable(start, s) && s.loop == Returning(d, Release)
    ensures Enabled(s, ReadFunds({1}, client)) && Enabled(Apply(s, ReadFunds({1}, client)), SubmitRefund)
    ensures BalanceOf(Apply(Apply(s, ReadFunds({1}, client)), SubmitRefund), d) == 0 - n
  {
    SinglePayment(Issuer(d.asset), n);
    PaysIff(s0, d, map[]);
    ReachableInv(start, s0);
    Next(start, s0, DeployedMessage(d.id, map[], true));
    s := Apply(s0, DeployedMessage(d.id, map[], true));
    MissedPayoutOverdraws(s0, d.id, map[], client);
    PayoutHoldings(s0, d, n);
  }

  // The issuer gets n of what the account holds.
  lemma PayoutHoldings(s: State, d: PaymentInfo, n: nat)
    requires d.address != Issuer(d.asset) &&
             Batch(d.infos, d.asset, map[], s.foundation) == [Payment(Issuer(d.asset), n)]
    ensures Holdings(Chain(s.journal + [PayoutOf(s, d, map[])]), d.address, d.asset)
         == Holdings(Chain(s.journal), d.address, d.asset) - n
  {
    var payout, payments := PayoutOf(s, d, map[]), [Payment(Issuer(d.asset), n)];
    ChainAppend(s.journal, payout);
    assert Payments(payout) == payments;
    EffectsNet(d.address, d.asset, payments, d.address, d.asset);
    SinglePayment(Issuer(d.asset), n);
    assert (Chain(s.journal) + [TxOf(payout)])[..|Chain(s.journal)|] == Chain(s.journal);
  }

  // The client alone has paid.
  function DepositedAlone(start: State, d: PaymentInfo, n: nat, client: Account): State {
    start.(docs := map[d.id := d], journal := [Received(Paying(d, n, client))])
  }

  function Paying(d: PaymentInfo, n: nat, client: Account): Tx {
    Horizon.Transfer(ForReservation(d.id), client, d.address, d.asset, n)
  }

  predicate Alone(start: State, d: PaymentInfo, n: int64, client: Account) {
    && Init(start) && start.accounts == {d.address} && FreePriced(d, n) && d.expiration > start.now
    && client != d.address && d.address != Issuer(d.asset)
  }

  lemma DepositedAloneIsReachable(start: State, d: PaymentInfo, n: int64, client: Account)
    requires Alone(start, d, n, client)
    ensures var s := DepositedAlone(start, d, n, client);
            Reachable(start, s) && BalanceOf(s, d) == Holdings(Chain(s.journal), d.address, d.asset) == n
  {
    var tx := Paying(d, n, client);
    Paid(tx, client, d, ForReservation(d.id), n);
    FreePrice(d, n);
    ReachedByDeposit(start, d, tx);
    OneTx(tx, d.address, ForReservation(d.id), d.asset);
  }

  // A run to a panic: the client pays, the farmers' batch is paid out, and in the refund after it the
  // lookup of the only payment in fails. A negative balance and nobody to refund are read, and
  // funders[0] ends the program.
  lemma FirstLookupPanicRun(start: State, d: PaymentInfo, n: int64, client: Account) returns (s: State)
    requires Alone(start, d, n, client)
    ensures Reachable(start, s) && s.loop == Returning(d.(paid := true), Release)
    ensures Enabled(s, Panic({0})) && BalanceOf(s, d) == 0
  {
    DepositedAloneIsReachable(start, d, n, client);
    FreePrice(d, n);
    Tick(start, DepositedAlone(start, d, n, client), d);
    FreePricedBatch(d, n, start.foundation);
    s := PaidOutAlone(start, DepositedAlone(start, d.(paid := true), n, client), d.(paid := true), n, client);
    FirstLookupPanics(s, client, Issuer(d.asset), n);
  }

  lemma PaidOutAlone(start: State, s0: State, d: PaymentInfo, n: nat, client: Account) returns (s: State)
    requires Reachable(start, s0) && s0.loop.Idle? && s0.docs == map[d.id := d] && d.Open() && d.paid
    requires d.id !in s0.unrecorded && s0.journal == [Received(Paying(d, n, client))]
    requires n <= Holdings(Chain(s0.journal), d.address, d.asset)
    requires Batch(d.infos, d.asset, map[], s0.foundation) == [Payment(Issuer(d.asset), n)]
    ensures Reachable(start, s) && s.loop == Returning(d, Release)
    ensures Chain(s.journal) == InAndOut(d, client, Issuer(d.asset), n)
  {
    SinglePayment(Issuer(d.asset), n);
    PaysIff(s0, d, map[]);
    PaidOutChain(s0, d, n, client);
    Next(start, s0, DeployedMessage(d.id, map[], true));
    s := Apply(s0, DeployedMessage(d.id, map[], true));
  }

  lemma PaidOutChain(s: State, d: PaymentInfo, n: nat, client: Account)
    requires s.journal == [Received(Paying(d, n, client))]
    requires Batch(d.infos, d.asset, map[], s.foundation) == [Payment(Issuer(d.asset), n)]
    ensures Chain(s.journal + [PayoutOf(s, d, map[])])
         == [Paying(d, n, client), Horizon.Transfer(ForReservation(d.id), d.address, Issuer(d.asset), d.asset, n)]
  {
    var payout := PayoutOf(s, d, map[]);
    ChainAppend(s.journal, payout);
    OneTx(Paying(d, n, client), d.address, ForReservation(d.id), d.asset);
    assert Payments(payout) == [Payment(Issuer(d.asset), n)];
    OnePaymentTx(d, Issuer(d.asset), n);
  }

  lemma OnePaymentTx(d: PaymentInfo, to: Account, n: nat)
    ensures Tx(ForReservation(d.id), Effects(d.address, d.asset, [Payment(to, n)]))
         == Horizon.Transfer(ForReservation(d.id), d.address, to, d.asset, n)
  {
    assert [Payment(to, n)][..0] == [];
  }

  lemma FirstLookupPanics(s: State, client: Account, other: Account, n: nat)
    requires s.loop.Returning? && n > 0 && client != s.loop.doc.address && other != s.loop.doc.address
    requires Chain(s.journal) == InAndOut(s.loop.doc, client, other, n)
    ensures Enabled(s, Panic({0})) && BalanceOf(s, s.loop.doc) == 0
  {
    Horizon.FirstLookupFails(s.loop.doc.address, client, other, ForReservation(s.loop.doc.id), s.loop.doc.asset, n);
  }

  // All that was paid in is paid out.
  function InAndOut(d: PaymentInfo, client: Account, other: Account, n: nat): seq<Tx> {
    [Paying(d, n, client), Horizon.Transfer(ForReservation(d.id), d.address, other, d.asset, n)]
  }

  // ---------- A reservation that is taken for funded ----------

  // A run to one: the client pays, cancels and is refunded. The document is still polled, for only
  // Paid and the expiration are looked at, the lookup of the refund fails, and the payment is read
  // again. The document is marked as paid, and nothing is left under its memo.
  lemma CanceledIsMarkedPaid(start: State, d: PaymentInfo, n: int64, client: Account) returns (before: State, s: State)
    requires Alone(start, d, n, client)
    ensures Reachable(start, before) && before.loop == Polling([d.(canceled := true)])
    ensures Enabled(before, Poll({1})) && Apply(before, Poll({1})).loop == Funded(d.(canceled := true), [])
    ensures Reachable(start, s) && s.docs == map[d.id := d.(canceled := true, paid := true)]
    ensures BalanceOf(before, d) == 0 && BalanceOf(s, d) == 0 && d.Price() == n
  {
    var s1 := RefundedIsReachable(start, d, n, client);
    var canceled := d.(canceled := true);
    FreePrice(d, n);
    before := PollsCanceled(start, s1, canceled, client);
    s := MarksPaid(start, before.(loop := Funded(canceled, [])), canceled);
  }

  lemma PollsCanceled(start: State, s: State, d: PaymentInfo, client: Account) returns (before: State)
    requires Reachable(start, s) && s.loop.Idle? && s.docs == map[d.id := d] && Active(d, s.now) && d.Price() > 0
    requires Chain(s.journal) == InAndOut(d, client, client, d.Price()) && client != d.address
    ensures Reachable(start, before) && before == s.(loop := Polling([d])) && BalanceOf(before, d) == 0
    ensures Enabled(before, Poll({1})) && Apply(before, Poll({1})) == before.(loop := Funded(d, []))
    ensures Reachable(start, before.(loop := Funded(d, [])))
  {
    PollStarts(s, d);
    Next(start, s, StartPoll([d]));
    before := s.(loop := Polling([d]));
    PollsRefunded(before, d, client);
    Next(start, before, Poll({1}));
  }

  // The refund is missed.
  lemma PollsRefunded(s: State, d: PaymentInfo, client: Account)
    requires s.loop == Polling([d]) && client != d.address && d.Price() > 0
    requires Chain(s.journal) == InAndOut(d, client, client, d.Price())
    ensures SafeStep(s, Poll({1})) && Apply(s, Poll({1})) == s.(loop := Funded(d, []))
    ensures BalanceOf(s, d) == 0
  {
    Horizon.FirstLookupFails(d.address, client, client, ForReservation(d.id), d.asset, d.Price());
    PollFunds(s, d, {1});
  }

  lemma MarksPaid(start: State, s: State, d: PaymentInfo) returns (s': State)
    requires Reachable(start, s) && s.loop == Funded(d, []) && s.docs == map[d.id := d]
    ensures Reachable(start, s') && s'.docs == map[d.id := d.(paid := true)] && s'.journal == s.journal
  {
    TickDeploys(start, s, d);
    s' := s.(docs := s.docs[d.id := d.(paid := true)], loop := Polling([]));
    assert s.docs[d.id := d.(paid := true)] == map[d.id := d.(paid := true)];
  }

  lemma RefundedIsReachable(start: State, d: PaymentInfo, n: int64, client: Account) returns (s: State)
    requires Alone(start, d, n, client)
    ensures Reachable(start, s) && s.loop.Idle? && s.docs == map[d.id := d.(canceled := true)] && s.now == start.now
    ensures Chain(s.journal) == InAndOut(d, client, client, n)
  {
    var s0 := DepositedAlone(start, d, n, client);
    DepositedAloneIsReachable(start, d, n, client);
    Next(start, s0, CancelMessage(d.id));
    s := RefundIsMade(start, s0.(loop := Returning(d, Cancel)), d, n, client);
  }

  lemma RefundIsMade(start: State, s: State, d: PaymentInfo, n: nat, client: Account) returns (s': State)
    requires Reachable(start, s) && s.loop == Returning(d, Cancel) && d.Open() && s.docs == map[d.id := d]
    requires n > 0 && s.journal == [Received(Paying(d, n, client))] && client != d.address
    ensures Reachable(start, s') && s'.loop.Idle? && s'.docs == map[d.id := d.(canceled := true)] && s'.now == s.now
    ensures Chain(s'.journal) == InAndOut(d, client, client, n)
  {
    ReadsAll(s, d, Cancel, n, client);
    Next(start, s, ReadFunds({}, client));
    var s1 := s.(loop := Refunding(d, n, client, Cancel));
    SubmitsAll(s1, d, Cancel, n, client);
    Next(start, s1, SubmitRefund);
    var s2 := s1.(journal := Back(d, n, client), loop := Recording(d, Cancel));
    RecordsCanceled(s2, d, Cancel);
    Next(start, s2, Record);
    s' := s2.(docs := map[d.id := d.(canceled := true)], loop := Idle);
    BackChain(d, n, client);
  }

  // The three steps of a refund of everything to the only client.
  function Back(d: PaymentInfo, n: nat, client: Account): seq<Entry> {
    [Received(Paying(d, n, client)), Refunded(d.id, d.address, d.asset, client, n)]
  }

  lemma ReadsAll(s: State, d: PaymentInfo, goal: Goal, n: nat, client: Account)
    requires s.loop == Returning(d, goal) && n > 0 && client != d.address
    requires s.journal == [Received(Paying(d, n, client))]
    ensures SafeStep(s, ReadFunds({}, client))
    ensures Apply(s, ReadFunds({}, client)) == s.(loop := Refunding(d, n, client, goal))
  {
    Horizon.NoFailures(Chain(s.journal), ForReservation(d.id));
    ReadRight(s, d, {});
    Paid(Paying(d, n, client), client, d, ForReservation(d.id), n);
    OneTx(Paying(d, n, client), d.address, ForReservation(d.id), d.asset);
    assert Paying(d, n, client) in Chain(s.journal);
  }

  lemma SubmitsAll(s: State, d: PaymentInfo, goal: Goal, n: nat, client: Account)
    requires s.loop == Refunding(d, n, client, goal) && client != d.address
    requires s.journal == [Received(Paying(d, n, client))]
    ensures SafeStep(s, SubmitRefund)
    ensures Apply(s, SubmitRefund) == s.(journal := Back(d, n, client), loop := Recording(d, goal))
  {
    Paid(Paying(d, n, client), client, d, ForReservation(d.id), n);
    OneTx(Paying(d, n, client), d.address, ForReservation(d.id), d.asset);
    assert s.journal + [Refunded(d.id, d.address, d.asset, client, n)] == Back(d, n, client);
  }

  lemma RecordsCanceled(s: State, d: PaymentInfo, goal: Goal)
    requires s.loop == Recording(d, goal) && !goal.Release? && s.docs == map[d.id := d]
    ensures SafeStep(s, Record)
    ensures Apply(s, Record) == s.(docs := map[d.id := d.(canceled := true)], loop := Done(goal))
  {
    assert map[d.id := d][d.id := d.(canceled := true)] == map[d.id := d.(canceled := true)];
  }

  lemma BackChain(d: PaymentInfo, n: nat, client: Account)
    ensures Chain(Back(d, n, client)) == InAndOut(d, client, client, n)
  {
    var refund := Refunded(d.id, d.address, d.asset, client, n);
    assert Back(d, n, client) == [Received(Paying(d, n, client))] + [refund];
    ChainAppend([Received(Paying(d, n, client))], refund);
    OneTx(Paying(d, n, client), d.address, ForReservation(d.id), d.asset);
    OnePaymentTx(d, client, n);
  }
}
