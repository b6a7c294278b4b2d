/** What every run of the escrow loop keeps. */
module EscrowSafety {
  import opened Payout
  import opened Ledger
  import opened Settlement
  import opened Escrow
  import Horizon

  // ---------- The journal and the chain ----------

  lemma ChainAppend(journal: seq<Entry>, e: Entry)
    ensures Chain(journal + [e]) == Chain(journal) + [TxOf(e)]
  {
    assert (journal + [e])[..|journal|] == journal;
  }

  lemma BalanceAfter(journal: seq<Entry>, e: Entry, account: Account, memo: Memo, asset: Asset)
    ensures Balance(Chain(journal + [e]), account, memo, asset)
         == Balance(Chain(journal), account, memo, asset)
            + if TxOf(e).memo == memo then Net(TxOf(e).effects, account, asset) else 0
  {
    ChainAppend(journal, e);
    BalanceAppend(Chain(journal), TxOf(e), account, memo, asset);
  }

  lemma {:induction false} ChainMember(journal: seq<Entry>, tx: Tx) returns (e: Entry)
    requires tx in Chain(journal)
    ensures e in journal && TxOf(e) == tx
  {
    var init, last := journal[..|journal| - 1], journal[|journal| - 1];
    if tx == TxOf(last) {
      e := last;
    } else {
      e := ChainMember(init, tx);
    }
  }

  lemma ReceivedNeverTakes(accounts: set<Account>, tx: Tx, account: Account, asset: Asset)
    requires External(accounts, tx) && account in accounts
    ensures Net(tx.effects, account, asset) >= 0
    ensures Traceable(tx, account, asset)
  {
    OnlyCredits(tx.effects, account, asset);
    if Net(tx.effects, account, asset) > 0 {
      var e :| e in tx.effects && e.Debited?;
      assert e.account in Payers(tx.effects, account);
    }
  }

  // Our own entries take money only from their source, and no more than they pay.
  lemma OwnEntryTakes(e: Entry, account: Account, asset: Asset)
    requires !e.Received?
    ensures Net(TxOf(e).effects, account, asset)
         >= if account == e.source && asset == e.asset then 0 - Total(Payments(e)) else 0
    ensures Traceable(TxOf(e), account, asset)
  {
    EffectsNet(e.source, e.asset, Payments(e), account, asset);
    BatchTraceable(e.source, e.asset, Payments(e), ForReservation(e.id), account, asset);
  }

  lemma PayoutWithinPrice(s: State, d: PaymentInfo, wallets: map<int, Account>)
    requires forall i | 0 <= i < |d.infos| :: d.infos[i].amount >= 0
    ensures Payments(PayoutOf(s, d, wallets)) == Batch(d.infos, d.asset, wallets, s.foundation)
    ensures Total(Payments(PayoutOf(s, d, wallets))) <= d.Price()
  {
    BatchAddsUp(d.infos, d.asset, wallets, s.foundation);
  }

  lemma SinglePayment(to: Account, amount: nat)
    ensures Total([Payment(to, amount)]) == amount
  {
    assert [Payment(to, amount)][..0] == [];
  }

  // ---------- What every step keeps, with or without the guards ----------

  // The document the loop is working on is the stored one.
  predicate HasDoc(loop: Loop) {
    !loop.Idle? && !loop.Polling? && !loop.Sweeping?
  }

  lemma LoopDocIsStored(s: State)
    requires LoopFresh(s) && HasDoc(s.loop)
    ensures s.loop.doc.id in s.docs && s.docs[s.loop.doc.id] == s.loop.doc
    ensures s.loop.Funded? || s.loop.Deploying? || s.loop.Marking? ==> !s.loop.doc.paid
    ensures s.loop.Returning? || s.loop.Refunding? || s.loop.Recording? ==> s.loop.doc.Open()
  {
    var d := s.loop.doc;
    var batch := if s.loop.Funded? || s.loop.Deploying? || s.loop.Marking? then s.loop.batch else Rest(s.loop.goal);
    assert ([d] + batch)[0] == d;
  }

  lemma KeepsDocs(s: State, e: Event)
    requires DocsOk(s) && LoopFresh(s) && Enabled(s, e)
    ensures DocsOk(Apply(s, e))
  {
    if HasDoc(s.loop) {
      LoopDocIsStored(s);
    }
  }

  // The entries a step appends: none or one.
  lemma Appended(s: State, e: Event) returns (x: seq<Entry>)
    requires DocsOk(s) && LoopFresh(s) && Enabled(s, e)
    ensures Apply(s, e).accounts == s.accounts && Apply(s, e).journal == s.journal + x && |x| <= 1
    ensures x != [] && !x[0].Received? ==>
              (e.DeployedMessage? && x[0].id == e.id) || (e.SubmitRefund? && x[0].id == s.loop.doc.id)
    ensures x != [] && !x[0].Received? ==>
              x[0].id in s.docs && x[0].source == s.docs[x[0].id].address && x[0].asset == s.docs[x[0].id].asset
    ensures x != [] && x[0].Received? ==> e == Receive(x[0].tx) && External(s.accounts, x[0].tx)
    ensures x != [] && x[0].Refunded? ==> e.SubmitRefund? && x[0].to == s.loop.to
  {
    x := [];
    if HasDoc(s.loop) {
      LoopDocIsStored(s);
    }
    match e
    case Receive(tx) =>
      x := [Received(tx)];
    case DeployedMessage(id, wallets, submitted) =>
      if submitted && id in s.docs && s.docs[id].Open() {
        x := [PayoutOf(s, s.docs[id], wallets)];
      } else {
        assert s.journal + [] == s.journal;
      }
    case SubmitRefund =>
      var d := s.loop.doc;
      x := [Refunded(d.id, d.address, d.asset, s.loop.to, s.loop.amount)];
    case _ =>
      assert s.journal + [] == s.journal;
  }

  lemma TracedAfter(s: State, x: Entry, s': State)
    requires Traced(s) && Owned(s) && (x.Received? ==> External(s.accounts, x.tx))
    requires s'.accounts == s.accounts && s'.journal == s.journal + [x]
    ensures Traced(s') && Owned(s')
  {
    forall e, account, asset | e in s'.journal && account in s'.accounts
      ensures Traceable(TxOf(e), account, asset)
    {
      if e == x {
        if x.Received? {
          ReceivedNeverTakes(s.accounts, x.tx, account, asset);
        } else {
          OwnEntryTakes(x, account, asset);
        }
      }
    }
  }

  lemma KeepsTraced(s: State, e: Event)
    requires Sound(s) && Enabled(s, e)
    ensures Traced(Apply(s, e)) && Owned(Apply(s, e))
  {
    var x := Appended(s, e);
    if x == [] {
      assert s.journal + x == s.journal;
    } else {
      assert x == [x[0]];
      TracedAfter(s, x[0], Apply(s, e));
    }
  }

  // Who is read as a donor is one, and stays one.
  lemma DonorsFunded(s: State, d: PaymentInfo, failing: set<nat>)
    ensures DonorsOf(s, d, failing) <= FundersOf(s.journal, d)
  {
    Horizon.ReadingIs(Chain(s.journal), d.address, ForReservation(d.id), d.asset, failing);
  }

  lemma FundersGrow(journal: seq<Entry>, x: Entry, d: PaymentInfo)
    ensures FundersOf(journal, d) <= FundersOf(journal + [x], d)
  {
    ChainAppend(journal, x);
    Horizon.FundersAppend(Chain(journal), TxOf(x), d.address, ForReservation(d.id), d.asset);
  }

  lemma RefundsTracedAfter(journal: seq<Entry>, x: Entry)
    requires forall k | 0 <= k < |journal| :: RefundTraced(journal, k)
    requires x.Refunded? ==> x.to in Funders(Chain(journal), x.source, ForReservation(x.id), x.asset)
    ensures forall k | 0 <= k <= |journal| :: RefundTraced(journal + [x], k)
  {
    forall k | 0 <= k <= |journal|
      ensures RefundTraced(journal + [x], k)
    {
      assert (journal + [x])[..k] == journal[..k];
      if k < |journal| {
        assert RefundTraced(journal, k);
      } else {
        assert journal[..k] == journal;
      }
    }
  }

  lemma KeepsRefundsTraced(s: State, e: Event)
    requires Sound(s) && Enabled(s, e)
    ensures RefundsTraced(Apply(s, e))
  {
    var x := Appended(s, e);
    if HasDoc(s.loop) {
      LoopDocIsStored(s);
    }
    if x == [] {
      assert s.journal + x == s.journal;
    } else {
      assert x == [x[0]];
      RefundsTracedAfter(s.journal, x[0]);
    }
    if Apply(s, e).loop.Refunding? {
      KeepsDestination(s, e, x);
    }
  }

  lemma KeepsDestination(s: State, e: Event, x: seq<Entry>)
    requires RefundsTraced(s) && Enabled(s, e) && |x| <= 1 && Apply(s, e).journal == s.journal + x
    requires Apply(s, e).loop.Refunding?
    ensures Apply(s, e).loop.to in FundersOf(Apply(s, e).journal, Apply(s, e).loop.doc)
  {
    if e.ReadFunds? {
      DonorsFunded(s, s.loop.doc, e.failing);
    } else {
      RefundingBefore(s, e);
      if x == [] {
        assert s.journal + x == s.journal;
      } else {
        assert x == [x[0]];
        FundersGrow(s.journal, x[0], s.loop.doc);
      }
    }
  }

  lemma RefundingBefore(s: State, e: Event)
    requires Enabled(s, e) && Apply(s, e).loop.Refunding? && !e.ReadFunds?
    ensures s.loop == Apply(s, e).loop
  {
  }

  // A step leaves the balance of every reservation alone, or raises it, except the one whose
  // payout or refund it submits.
  lemma OthersKeepTheirBalance(s: State, e: Event, d: PaymentInfo)
    requires Sound(s) && Enabled(s, e) && d.address in s.accounts
    requires e.DeployedMessage? ==> e.id != d.id
    requires e.SubmitRefund? ==> s.loop.doc.id != d.id
    ensures BalanceOf(Apply(s, e), d) >= BalanceOf(s, d)
  {
    var x := Appended(s, e);
    if x == [] {
      assert s.journal + x == s.journal;
    } else {
      assert x == [x[0]];
      BalanceAfter(s.journal, x[0], d.address, ForReservation(d.id), d.asset);
      if x[0].Received? {
        ReceivedNeverTakes(s.accounts, x[0].tx, d.address, d.asset);
      }
    }
  }

  // A later version of a document: only flags change, and none is ever cleared.
  predicate Later(d: PaymentInfo, d': PaymentInfo) {
    && d' == d.(paid := d'.paid, released := d'.released, canceled := d'.canceled)
    && (d.paid ==> d'.paid) && (d.released ==> d'.released) && (d.canceled ==> d'.canceled)
  }

  // Although whole documents are written back from copies, no write is lost.
  lemma DocsOnlyGainFlags(s: State, e: Event, id: Id)
    requires DocsOk(s) && LoopFresh(s) && Enabled(s, e) && id in s.docs
    ensures id in Apply(s, e).docs && Later(s.docs[id], Apply(s, e).docs[id])
    ensures Apply(s, e).docs[id].paid != s.docs[id].paid ==> e.WritePaid? && s.loop.doc.id == id
    ensures Apply(s, e).docs[id].Open() != s.docs[id].Open() ==> e.Record? && s.loop.doc.id == id
  {
    if HasDoc(s.loop) {
      LoopDocIsStored(s);
    }
  }

  lemma KeepsCovered(s: State, e: Event)
    requires Sound(s) && Enabled(s, e)
    ensures Covered(Apply(s, e))
  {
    var s' := Apply(s, e);
    forall id | id in s'.docs && s'.docs[id].paid && s'.docs[id].Open() && id !in s'.unrecorded && !Moved(s'.loop, id)
      ensures BalanceOf(s', s'.docs[id]) >= s'.docs[id].Price()
    {
      StillCovered(s, e, id);
    }
  }

  lemma StillCovered(s: State, e: Event, id: Id)
    requires Sound(s) && Enabled(s, e)
    requires var s' := Apply(s, e);
             id in s'.docs && s'.docs[id].paid && s'.docs[id].Open() && id !in s'.unrecorded && !Moved(s'.loop, id)
    ensures BalanceOf(Apply(s, e), Apply(s, e).docs[id]) >= Apply(s, e).docs[id].Price()
  {
    var s' := Apply(s, e);
    if id in s.docs {
      DocsOnlyGainFlags(s, e, id);
      var d := s.docs[id];
      UntouchedBefore(s, e, id);
      if d.paid {
        if !(e.DeployedMessage? && e.id == id) {
          OthersKeepTheirBalance(s, e, d);
        }
      } else {
        LoopDocIsStored(s);
      }
    }
  }

  // ---------- The loop's copies stay up to date ----------

  lemma FreshTail(s: State, d: PaymentInfo, batch: seq<PaymentInfo>)
    requires Fresh(s, [d] + batch)
    ensures Fresh(s, batch)
    ensures AllUnpaid([d] + batch) ==> AllUnpaid(batch)
    ensures AllOpen([d] + batch) ==> AllOpen(batch)
    // Writing the head's document back does not touch the rest of the batch.
    ensures forall d': PaymentInfo | d'.id == d.id :: Fresh(Write(s, d'), batch)
  {
    var all := [d] + batch;
    forall i | 0 <= i < |batch|
      ensures batch[i] == all[i + 1] && batch[i].id != d.id
    {
      assert all[0] == d;
    }
    forall i, j | 0 <= i < j < |batch|
      ensures batch[i].id != batch[j].id
    {
      assert all[i + 1].id != all[j + 1].id;
    }
  }

  lemma SnapshotIsFresh(s: State, batch: seq<PaymentInfo>, filter: PaymentInfo -> bool)
    requires DocsOk(s) && Snapshot(s.docs, batch, filter)
    ensures Fresh(s, batch)
    ensures forall i | 0 <= i < |batch| :: filter(batch[i])
  {
    forall i | 0 <= i < |batch|
      ensures batch[i].id in s.docs && s.docs[batch[i].id] == batch[i] && filter(batch[i])
    {
      assert batch[i] in batch;
    }
  }

  lemma SplitBatch(batch: seq<PaymentInfo>)
    requires batch != []
    ensures [batch[0]] + batch[1..] == batch
  {
  }

  lemma KeepsFreshPolling(s: State, e: Event)
    requires Sound(s) && Enabled(s, e)
    requires e.StartPoll? || e.Poll? || e.ReadReservation? || e.WriteDeploy? || e.WritePaid?
    ensures LoopFresh(Apply(s, e))
  {
    match e
    case StartPoll(batch) => SnapshotIsFresh(s, batch, d => Active(d, s.now));
    case Poll(_) =>
      SplitBatch(s.loop.batch);
      FreshTail(s, s.loop.batch[0], s.loop.batch[1..]);
    case ReadReservation(_) => FreshTail(s, s.loop.doc, s.loop.batch);
    case WritePaid => FreshTail(s, s.loop.doc, s.loop.batch);
    case _ =>
  }

  lemma KeepsFreshRefunding(s: State, e: Event)
    requires Sound(s) && Enabled(s, e)
    requires e.StartSweep? || e.Sweep? || e.EndTick? || e.ReadFunds? || e.SubmitRefund?
    ensures LoopFresh(Apply(s, e))
  {
    match e
    case StartSweep(batch) => SnapshotIsFresh(s, batch, d => Expired(d, s.now));
    case Sweep => SplitBatch(s.loop.batch);
    case SubmitRefund =>
      var batch := [s.loop.doc] + Rest(s.loop.goal);
      assert Fresh(Apply(s, e), batch) && AllOpen(batch);
    case _ =>
  }

  lemma KeepsFreshRecording(s: State)
    requires Sound(s) && Enabled(s, Record)
    ensures LoopFresh(Apply(s, Record))
  {
    var s' := Apply(s, Record);
    var d, goal := s.loop.doc, s.loop.goal;
    FreshTail(s, d, Rest(goal));
    var d' := if goal.Release? then d.(released := true) else d.(canceled := true);
    assert s'.docs == Write(s, d').docs;
    if goal.Expire? {
      assert Fresh(s', goal.batch) && AllOpen(goal.batch);
    }
  }

  lemma KeepsFreshFailing(s: State)
    requires Sound(s) && Enabled(s, Fail)
    ensures LoopFresh(Apply(s, Fail))
  {
    if s.loop.Polling? || s.loop.Sweeping? {
      SplitBatch(s.loop.batch);
      FreshTail(s, s.loop.batch[0], s.loop.batch[1..]);
    } else if s.loop.Funded? || s.loop.Deploying? || s.loop.Marking? {
      FreshTail(s, s.loop.doc, s.loop.batch);
    } else {
      FreshTail(s, s.loop.doc, Rest(s.loop.goal));
    }
  }

  lemma KeepsFresh(s: State, e: Event)
    requires Sound(s) && Enabled(s, e)
    ensures LoopFresh(Apply(s, e))
  {
    if e.Record? {
      KeepsFreshRecording(s);
    } else if e.Fail? {
      KeepsFreshFailing(s);
    } else if e.StartPoll? || e.Poll? || e.ReadReservation? || e.WriteDeploy? || e.WritePaid? {
      KeepsFreshPolling(s, e);
    } else if e.StartSweep? || e.Sweep? || e.EndTick? || e.ReadFunds? || e.SubmitRefund? {
      KeepsFreshRefunding(s, e);
    } else {
      KeepsFreshOutside(s, e);
    }
  }

  lemma KeepsFreshOutside(s: State, e: Event)
    requires Sound(s) && Enabled(s, e)
    requires e.Receive? || e.Clock? || e.Register? || e.CancelMessage? || e.DeployedMessage? || e.Panic? || e.Crash?
    ensures LoopFresh(Apply(s, e))
  {
    if e.Receive? || e.Clock? {
      SameDocsSameFresh(s, Apply(s, e));
    } else if e.CancelMessage? || e.DeployedMessage? {
      MessageKeepsFresh(s, e);
    }
  }

  lemma MessageKeepsFresh(s: State, e: Event)
    requires DocsOk(s) && Enabled(s, e) && (e.CancelMessage? || e.DeployedMessage?)
    ensures LoopFresh(Apply(s, e))
  {
    if e.id in s.docs && s.docs[e.id].Open() {
      OneIsFresh(Apply(s, e), s.docs[e.id]);
    }
  }

  lemma OneIsFresh(s: State, d: PaymentInfo)
    requires d.id in s.docs && s.docs[d.id] == d && d.Open()
    ensures Fresh(s, [d] + []) && AllOpen([d] + [])
  {
    assert [d] + [] == [d];
  }

  lemma SameDocsSameFresh(s: State, s': State)
    requires LoopFresh(s) && s'.docs == s.docs && s'.loop == s.loop
    ensures LoopFresh(s')
  {
    assert forall batch | Fresh(s, batch) :: Fresh(s', batch);
  }

  // ---------- Untouched reservations ----------

  // What is not settled and not being settled was not before, either, and this step takes nothing
  // from it.
  lemma UntouchedBefore(s: State, e: Event, id: Id)
    requires DocsOk(s) && LoopFresh(s) && Enabled(s, e) && IsUntouched(Apply(s, e), id)
    ensures IsUntouched(s, id)
    ensures e.DeployedMessage? && e.id == id ==> Apply(s, e) == s
    ensures e.SubmitRefund? ==> s.loop.doc.id != id
  {
    if HasDoc(s.loop) {
      LoopDocIsStored(s);
    }
    if id in s.docs {
      DocsOnlyGainFlags(s, e, id);
    }
  }

  lemma KeepsUntouched(s: State, e: Event)
    requires Sound(s) && Enabled(s, e)
    ensures Untouched(Apply(s, e))
  {
    var x := Appended(s, e);
    forall id: Id | IsUntouched(Apply(s, e), id)
      ensures NoOwn(Apply(s, e).journal, id)
    {
      UntouchedBefore(s, e, id);
      assert NoOwn(s.journal, id);
    }
  }

  // Whatever lookups fail, the balance of such a reservation is not read too high, ...
  lemma UntouchedIsReadLow(s: State, d: PaymentInfo, failing: set<nat>)
    requires Owned(s) && NoOwn(s.journal, d.id) && d.address in s.accounts
    ensures 0 <= ReadOf(s, d, failing) <= BalanceOf(s, d)
  {
    forall tx | tx in Chain(s.journal) && tx.memo == ForReservation(d.id)
      ensures Net(tx.effects, d.address, d.asset) >= 0
    {
      var e := ChainMember(s.journal, tx);
      if e.Received? {
        ReceivedNeverTakes(s.accounts, e.tx, d.address, d.asset);
      }
    }
    Horizon.NothingTaken(Chain(s.journal), d.address, ForReservation(d.id), d.asset, failing);
  }

  // ... so what the loop finds funded is funded, and what it is going to refund is there.
  lemma PollIsRight(s: State, failing: set<nat>)
    requires Sound(s) && Enabled(s, Poll(failing))
    ensures var d := s.loop.batch[0];
            Live(s, d) ==> ReadOf(s, d, failing) <= BalanceOf(s, d)
  {
    var d := s.loop.batch[0];
    if Live(s, d) {
      assert IsUntouched(s, d.id);
      UntouchedIsReadLow(s, d, failing);
    }
  }

  lemma RefundIsRight(s: State, failing: set<nat>)
    requires Sound(s) && s.loop.Returning? && NotOverread(s, ReadFunds(failing, ""))
    ensures ReadOf(s, s.loop.doc, failing) <= BalanceOf(s, s.loop.doc)
  {
    LoopDocIsStored(s);
    if !s.loop.goal.Release? && s.loop.doc.id !in s.unrecorded {
      assert IsUntouched(s, s.loop.doc.id);
      UntouchedIsReadLow(s, s.loop.doc, failing);
    }
  }

  lemma KeepsFunded(s: State, e: Event)
    requires Sound(s) && Enabled(s, e)
    ensures LoopFunded(Apply(s, e))
  {
    if e.Poll? {
      PollIsRight(s, e.failing);
    } else if e.Receive? && HasDoc(s.loop) {
      LoopDocIsStored(s);
      OthersKeepTheirBalance(s, e, s.loop.doc);
    }
  }

  lemma StepKeepsSound(s: State, e: Event)
    requires Sound(s) && Enabled(s, e)
    ensures Sound(Apply(s, e))
  {
    KeepsDocs(s, e);
    KeepsFresh(s, e);
    KeepsTraced(s, e);
    KeepsRefundsTraced(s, e);
    KeepsUntouched(s, e);
    KeepsFunded(s, e);
    KeepsCovered(s, e);
  }

  lemma {:induction false} HistoryIsSound(states: seq<State>, events: seq<Event>, n: nat)
    requires IsHistory(states, events) && n < |states|
    ensures Sound(states[n])
  {
    if n == 0 {
    } else {
      HistoryIsSound(states, events, n - 1);
      StepKeepsSound(states[n - 1], events[n - 1]);
    }
  }

  // ---------- The ledger under the guards ----------

  // An entry appended by this step, if any, draws no more than its own reservation has.
  predicate Affordable(s: State, e: Entry) {
    match e
    case Received(tx) => External(s.accounts, tx)
    case _ => Total(Payments(e)) <= Balance(Chain(s.journal), e.source, ForReservation(e.id), e.asset)
  }

  lemma PayoutAffordable(s: State, id: Id, wallets: map<int, Account>)
    requires Sound(s) && s.loop.Idle? && id in s.docs && s.docs[id].Open() && s.docs[id].paid && id !in s.unrecorded
    ensures Affordable(s, PayoutOf(s, s.docs[id], wallets)) && PayoutOf(s, s.docs[id], wallets).id == id
  {
    PayoutWithinPrice(s, s.docs[id], wallets);
    assert BalanceOf(s, s.docs[id]) >= s.docs[id].Price();
  }

  lemma IsAffordable(s: State, e: Event, x: Entry)
    requires Inv(s) && SafeStep(s, e) && Apply(s, e).journal == s.journal + [x]
    ensures Affordable(s, x)
  {
    assert Apply(s, e).journal[|s.journal|] == x;
    match e
    case Receive(tx) =>
    case DeployedMessage(id, wallets, submitted) =>
      PayoutAffordable(s, id, wallets);
    case SubmitRefund =>
      SinglePayment(s.loop.to, s.loop.amount);
    case _ =>
  }

  lemma SolventAfter(s: State, x: Entry, s': State)
    requires Solvent(s) && Affordable(s, x) && s'.accounts == s.accounts && s'.journal == s.journal + [x]
    ensures Solvent(s')
  {
    forall account, memo, asset | account in s'.accounts
      ensures Balance(Chain(s'.journal), account, memo, asset) >= 0
    {
      BalanceAfter(s.journal, x, account, memo, asset);
      if x.Received? {
        ReceivedNeverTakes(s.accounts, x.tx, account, asset);
      } else {
        OwnEntryTakes(x, account, asset);
      }
    }
  }

  lemma KeepsSolvent(s: State, e: Event)
    requires Inv(s) && SafeStep(s, e)
    ensures Solvent(Apply(s, e))
  {
    var x := Appended(s, e);
    if x == [] {
      assert s.journal + x == s.journal;
    } else {
      assert x == [x[0]];
      IsAffordable(s, e, x[0]);
      SolventAfter(s, x[0], Apply(s, e));
    }
  }

  lemma KeepsRefundFunded(s: State, e: Event)
    requires Inv(s) && SafeStep(s, e)
    ensures RefundFunded(Apply(s, e))
  {
    if e.ReadFunds? {
      RefundIsRight(s, e.failing);
    } else if Apply(s, e).loop.Refunding? {
      RefundingBefore(s, e);
      LoopDocIsStored(s);
      OthersKeepTheirBalance(s, e, s.loop.doc);
    }
  }

  // ---------- Paid once ----------

  lemma PayoutCountAppend(journal: seq<Entry>, e: Entry, id: Id)
    ensures PayoutCount(journal + [e], id) == PayoutCount(journal, id) + if e.PaidOut? && e.id == id then 1 else 0
  {
    assert (journal + [e])[..|journal|] == journal;
  }

  lemma KeepsPaidOnce(s: State, e: Event)
    requires Inv(s) && SafeStep(s, e)
    ensures PaidOnce(Apply(s, e))
  {
    forall id: Id
      ensures IdPaidOnce(Apply(s, e), id)
    {
      IdKeepsPaidOnce(s, e, id);
    }
  }

  lemma IdKeepsPaidOnce(s: State, e: Event, id: Id)
    requires Inv(s) && SafeStep(s, e)
    ensures IdPaidOnce(Apply(s, e), id)
  {
    if e.DeployedMessage? {
      PaidOnceDeployed(s, e, id);
    } else {
      CountUnchanged(s, e, id);
      PaidOnceOtherwise(s, e, id);
    }
  }

  lemma PaidOnceDeployed(s: State, e: Event, id: Id)
    requires Inv(s) && SafeStep(s, e) && e.DeployedMessage?
    ensures IdPaidOnce(Apply(s, e), id)
  {
    assert IdPaidOnce(s, id);
    if e.submitted && e.id in s.docs && s.docs[e.id].Open() {
      PaidOnceAfterPayout(s, Apply(s, e), s.docs[e.id], PayoutOf(s, s.docs[e.id], e.wallets), id);
    }
  }

  lemma PaidOnceAfterPayout(s: State, s': State, d: PaymentInfo, entry: Entry, id: Id)
    requires IdPaidOnce(s, id) && s.loop.Idle?
    requires d.id in s.docs && s.docs[d.id] == d && d.Open() && d.id !in s.unrecorded
    requires entry.PaidOut? && entry.id == d.id && s'.journal == s.journal + [entry]
    requires s'.docs == s.docs && s'.unrecorded == s.unrecorded && s'.loop == Returning(d, Release)
    ensures IdPaidOnce(s', id)
  {
    PayoutCountAppend(s.journal, entry, id);
  }

  lemma CountUnchanged(s: State, e: Event, id: Id)
    requires Enabled(s, e) && !e.DeployedMessage?
    ensures PayoutCount(Apply(s, e).journal, id) == PayoutCount(s.journal, id)
  {
    match e
    case Receive(tx) => PayoutCountAppend(s.journal, Received(tx), id);
    case SubmitRefund =>
      var d := s.loop.doc;
      PayoutCountAppend(s.journal, Refunded(d.id, d.address, d.asset, s.loop.to, s.loop.amount), id);
    case _ =>
  }

  lemma PaidOnceOtherwise(s: State, e: Event, id: Id)
    requires Inv(s) && SafeStep(s, e) && !e.DeployedMessage?
    requires PayoutCount(Apply(s, e).journal, id) == PayoutCount(s.journal, id)
    ensures IdPaidOnce(Apply(s, e), id)
  {
    assert IdPaidOnce(s, id);
    if HasDoc(s.loop) {
      LoopDocIsStored(s);
    }
    if id in s.docs {
      DocsOnlyGainFlags(s, e, id);
    }
    ReleasingStops(s, e, id);
  }

  // A release in progress goes on, is recorded, or is marked as unrecorded.
  lemma ReleasingStops(s: State, e: Event, id: Id)
    requires DocsOk(s) && LoopFresh(s) && Enabled(s, e) && !e.DeployedMessage?
    ensures var s' := Apply(s, e);
            && (ReleasingNow(s'.loop, id) ==> ReleasingNow(s.loop, id))
            && (ReleasingNow(s.loop, id) ==>
                  ReleasingNow(s'.loop, id) || id in s'.unrecorded || (id in s'.docs && s'.docs[id].released))
            && (id in s'.docs && s'.docs[id].released ==>
                ReleasingNow(s.loop, id) || (id in s.docs && s.docs[id].released))
            && s.unrecorded <= s'.unrecorded
  {
    if HasDoc(s.loop) {
      LoopDocIsStored(s);
    }
    match e
    case Register(d) =>
    case WritePaid =>
    case Record =>
    case Fail =>
    case Panic(_) =>
    case ReadFunds(_, _) =>
    case SubmitRefund =>
    case _ =>
  }

  // ---------- Paid once for every release that is not lost ----------

  predicate Loses(s: State, e: Event, id: Id) {
    ReleasingNow(s.loop, id) && (e.Fail? || e.Panic? || e.Crash?)
  }

  // A release is under way or recorded.
  function Releases(s: State, id: Id): nat {
    if ReleasingNow(s.loop, id) || (id in s.docs && s.docs[id].released) then 1 else 0
  }

  lemma ReleasesAfter(s: State, e: Event, id: Id)
    requires Sound(s) && Enabled(s, e)
    ensures PayoutCount(Apply(s, e).journal, id) - Releases(Apply(s, e), id)
         == PayoutCount(s.journal, id) - Releases(s, id) + if Loses(s, e, id) then 1 else 0
  {
    if e.DeployedMessage? {
      if e.submitted && e.id in s.docs && s.docs[e.id].Open() {
        PayoutCountAppend(s.journal, PayoutOf(s, s.docs[e.id], e.wallets), id);
      }
    } else {
      CountUnchanged(s, e, id);
      ReleasesOtherwise(s, e, id);
    }
  }

  lemma ReleasesOtherwise(s: State, e: Event, id: Id)
    requires DocsOk(s) && LoopFresh(s) && Enabled(s, e) && !e.DeployedMessage?
    ensures Releases(Apply(s, e), id) == Releases(s, id) - if Loses(s, e, id) then 1 else 0
  {
    if HasDoc(s.loop) {
      LoopDocIsStored(s);
    }
    if id in s.docs {
      DocsOnlyGainFlags(s, e, id);
    }
    ReleasingStops(s, e, id);
  }

  // ---------- What sets Paid and what pays out ----------

  lemma PaidOnlyByMarking(s: State, e: Event, id: Id)
    requires Sound(s) && Enabled(s, e) && id in Apply(s, e).docs && Apply(s, e).docs[id].paid
    ensures (id in s.docs && s.docs[id].paid) || (s.loop.Marking? && s.loop.doc.id == id)
  {
    if id in s.docs {
      DocsOnlyGainFlags(s, e, id);
    } else if HasDoc(s.loop) {
      LoopDocIsStored(s);
    }
  }

  lemma PayoutOnlyByMessage(s: State, e: Event, id: Id)
    requires Enabled(s, e) && PayoutCount(Apply(s, e).journal, id) > 0
    ensures PayoutCount(s.journal, id) > 0 ||
            (e.DeployedMessage? && e.submitted && e.id in s.docs && s.docs[e.id].Open() && s.docs[e.id].id == id)
  {
    if e.DeployedMessage? {
      if e.submitted && e.id in s.docs && s.docs[e.id].Open() {
        PayoutCountAppend(s.journal, PayoutOf(s, s.docs[e.id], e.wallets), id);
      }
    } else {
      CountUnchanged(s, e, id);
    }
  }

  // ---------- Every step, every run ----------

  lemma StepKeepsInv(s: State, e: Event)
    requires Inv(s) && SafeStep(s, e)
    ensures Inv(Apply(s, e))
  {
    StepKeepsSound(s, e);
    KeepsRefundFunded(s, e);
    KeepsSolvent(s, e);
    KeepsPaidOnce(s, e);
  }

  lemma {:induction false} RunKeepsInv(states: seq<State>, events: seq<Event>, n: nat)
    requires IsRun(states, events) && n < |states|
    ensures Inv(states[n])
  {
    if n == 0 {
    } else {
      RunKeepsInv(states, events, n - 1);
      StepKeepsInv(states[n - 1], events[n - 1]);
    }
  }

  // ---------- Reachable states ----------

  // The loop can get to this state, and with every guard kept if `guarded`.
  ghost predicate Reached(s: State, guarded: bool) {
    exists states, events ::
      IsHistory(states, events) && (guarded ==> IsRun(states, events)) && states[|events|] == s
  }

  lemma StartIsReached(s: State, guarded: bool)
    requires Init(s)
    ensures Reached(s, guarded)
  {
    assert IsHistory([s], []) && IsRun([s], []);
  }

  lemma Reaches(s: State, e: Event, before: bool, after: bool)
    requires Reached(s, before) && Enabled(s, e) && (after ==> before && Prompt(s, e) && NotOverread(s, e))
    ensures Reached(Apply(s, e), after)
  {
    var states, events :|
      IsHistory(states, events) && (before ==> IsRun(states, events)) && states[|events|] == s;
    var states', events' := states + [Apply(s, e)], events + [e];
    HistoryExtends(states, events, e);
    if after {
      RunExtends(states, events, e);
    }
    assert states'[|events'|] == Apply(s, e);
  }

  lemma HistoryExtends(states: seq<State>, events: seq<Event>, e: Event)
    requires IsHistory(states, events) && Enabled(states[|events|], e)
    ensures IsHistory(states + [Apply(states[|events|], e)], events + [e])
  {
    var states', events' := states + [Apply(states[|events|], e)], events + [e];
    forall i | 0 <= i < |events'|
      ensures Enabled(states'[i], events'[i]) && states'[i + 1] == Apply(states'[i], events'[i])
    {
      if i < |events| {
        assert states'[i] == states[i] && states'[i + 1] == states[i + 1] && events'[i] == events[i];
      }
    }
  }

  lemma RunExtends(states: seq<State>, events: seq<Event>, e: Event)
    requires IsRun(states, events) && SafeStep(states[|events|], e)
    ensures IsRun(states + [Apply(states[|events|], e)], events + [e])
  {
    var states', events' := states + [Apply(states[|events|], e)], events + [e];
    forall i | 0 <= i < |events'|
      ensures SafeStep(states'[i], events'[i]) && states'[i + 1] == Apply(states'[i], events'[i])
    {
      if i < |events| {
        assert states'[i] == states[i] && states'[i + 1] == states[i + 1] && events'[i] == events[i];
      }
    }
  }

  lemma ReachedIsSound(s: State, guarded: bool)
    requires Reached(s, guarded)
    ensures Sound(s) && (guarded ==> Inv(s))
  {
    var states, events :|
      IsHistory(states, events) && (guarded ==> IsRun(states, events)) && states[|events|] == s;
    HistoryIsSound(states, events, |events|);
    if guarded {
      RunKeepsInv(states, events, |events|);
    }
  }
}
