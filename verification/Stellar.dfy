/**
 The escrow service: the arms of its select loop as they run when nothing interferes. Every method
 leads from a state that some history of the machine ends in to another one, and from a guarded
 history to a guarded one exactly as far as it says.
 */
module Stellar {
  import opened Payout
  import opened Ledger
  import opened Settlement
  import opened Escrow
  import EscrowSafety
  import EscrowTheorems
  import Horizon
  import P = Pipeline

  datatype Outcome = Done | NotFound | Failed | Crashed

  // How a call of wallet.Refund ends.
  datatype Attempt = Succeeded(amount: nat) | Broke | Panicked

  // `works` is whether the account, its history and the network can be reached.
  function AttemptOf(journal: seq<Entry>, d: PaymentInfo, failing: set<nat>, works: bool): Attempt {
    var amount := ReadIn(journal, d, failing);
    if !works then Broke
    else if amount == 0 then Succeeded(0)
    else if DonorsIn(journal, d, failing) == {} then Panicked
    else if 0 < amount <= Holdings(Chain(journal), d.address, d.asset) then Succeeded(amount)
    else Broke
  }

  function ReadIn(journal: seq<Entry>, d: PaymentInfo, failing: set<nat>): int {
    Horizon.Reading(Chain(journal), d.address, ForReservation(d.id), d.asset, failing)
  }

  function DonorsIn(journal: seq<Entry>, d: PaymentInfo, failing: set<nat>): set<Account> {
    Horizon.ReadDonors(Chain(journal), d.address, ForReservation(d.id), d.asset, failing)
  }

  // The balance is not read too high.
  predicate NotTooHigh(journal: seq<Entry>, d: PaymentInfo, failing: set<nat>) {
    ReadIn(journal, d, failing) <= Balance(Chain(journal), d.address, ForReservation(d.id), d.asset)
  }

  // Where it leaves the loop, ...
  function LoopAfter(attempt: Attempt, d: PaymentInfo, goal: Goal): Loop {
    match attempt
    case Succeeded(_) => Recording(d, goal)
    case Broke => Escrow.Done(goal)
    case Panicked => Idle
  }

  // ... whether a release stays unrecorded, ...
  function UnrecordedBy(attempt: Attempt, d: PaymentInfo, goal: Goal): set<Id> {
    if attempt.Succeeded? || !goal.Release? then {} else {d.id}
  }

  // ... whether the guards of the machine are kept, ...
  predicate RefundIsSafe(s: State, d: PaymentInfo, goal: Goal, failing: set<nat>, works: bool) {
    AttemptOf(s.journal, d, failing, works).Succeeded? && (goal.Release? || d.id in s.unrecorded) ==>
      NotTooHigh(s.journal, d, failing)
  }

  function Flagged(d: PaymentInfo, goal: Goal): PaymentInfo {
    if goal.Release? then d.(released := true) else d.(canceled := true)
  }

  // ... and what its caller reports.
  function OutcomeOf(attempt: Attempt): Outcome {
    match attempt
    case Succeeded(_) => Done
    case Broke => Failed
    case Panicked => Crashed
  }

  class Service {
    const accounts: set<Account>
    const foundation: Account
    var journal: seq<Entry>                        // the ledger
    var docs: map<Id, PaymentInfo>                 // the escrow collection
    var reservations: map<Id, P.Reservation>       // the reservation collection
    var now: int
    ghost var unrecorded: set<Id>
    ghost var guarded: bool                        // so far every guard of the machine was kept

    // The machine's state when the loop stands at a given place.
    ghost function At(loop: Loop): (s: State)
      reads this
    {
      State(accounts, foundation, journal, docs, loop, now, unrecorded)
    }

    // Some history of the machine leads here, and a guarded one if the guards were kept.
    ghost predicate Stands(loop: Loop)
      reads this
    {
      EscrowSafety.Reached(At(loop), guarded)
    }

    constructor (accounts: set<Account>, foundation: Account, now: int)
      ensures Stands(Idle) && guarded && docs == map[] && journal == [] && reservations == map[]
      ensures this.accounts == accounts && this.foundation == foundation && this.now == now
    {
      this.accounts := accounts;
      this.foundation := foundation;
      this.now := now;
      journal, docs, reservations, unrecorded, guarded := [], map[], map[], {}, true;
      new;
      EscrowSafety.StartIsReached(At(Idle), true);
    }

    // A payment by somebody else.
    method Receive(tx: Tx)
      requires Stands(Idle) && External(accounts, tx)
      modifies this`journal
      ensures Stands(Idle) && journal == old(journal) + [Received(tx)]
    {
      EscrowSafety.Reaches(At(Idle), Escrow.Receive(tx), guarded, guarded);
      journal := journal + [Received(tx)];
    }

    // Time passes.
    method Wait(until: int)
      requires Stands(Idle) && now <= until
      modifies this`now
      ensures Stands(Idle) && now == until
    {
      EscrowSafety.Reaches(At(Idle), Clock(until), guarded, guarded);
      now := until;
    }

    // The end of processReservation: the collection keeps its ids unique.
    method ProcessReservation(id: Id, address: Account, expiration: int, asset: Asset, infos: seq<Detail>)
      returns (ok: bool)
      requires Stands(Idle) && address in accounts && Admissible(infos)
      modifies this`docs
      ensures Stands(Idle)
      ensures ok <==> id !in old(docs)
      ensures docs == if ok
                      then old(docs)[id := PaymentInfo(id, address, expiration, asset, infos, false, false, false)]
                      else old(docs)
    {
      if id in docs {
        return false;
      }
      var d := PaymentInfo(id, address, expiration, asset, infos, false, false, false);
      EscrowSafety.Reaches(At(Idle), Register(d), guarded, guarded);
      docs := docs[id := d];
      return true;
    }

    // refundEscrow, which is wallet.Refund: everything that is read as left goes to one of the
    // accounts it came from.
    method RefundEscrow(d: PaymentInfo, failing: set<nat>, works: bool, ghost goal: Goal) returns (attempt: Attempt)
      requires Stands(Returning(d, goal))
      modifies this`journal, this`unrecorded, this`guarded
      ensures Stands(LoopAfter(attempt, d, goal))
      ensures guarded == (old(guarded) && old(RefundIsSafe(At(Idle), d, goal, failing, works)))
      ensures unrecorded == old(unrecorded) + UnrecordedBy(attempt, d, goal)
      ensures attempt == AttemptOf(old(journal), d, failing, works)
      ensures Leaves(old(journal), d, failing, attempt, journal)
    {
      ghost var s := At(Returning(d, goal));
      attempt := WalletRefund(d, failing, works);
      RefundEnds(s, guarded, failing, works, journal);
      unrecorded := unrecorded + UnrecordedBy(attempt, d, goal);
      guarded := guarded && RefundIsSafe(s, d, goal, failing, works);
    }

    // wallet.Refund.
    method WalletRefund(d: PaymentInfo, failing: set<nat>, works: bool) returns (attempt: Attempt)
      modifies this`journal
      ensures attempt == AttemptOf(old(journal), d, failing, works)
      ensures Leaves(old(journal), d, failing, attempt, journal)
    {
      if !works {
        return Broke;
      }
      var amount, funders := Horizon.Read(Chain(journal), d.address, ForReservation(d.id), d.asset, failing);
      if amount == 0 {
        return Succeeded(0);
      }
      if funders == {} {
        return Panicked;
      }
      if amount < 0 || amount > Holdings(Chain(journal), d.address, d.asset) {
        return Broke;
      }
      var destination :| destination in funders;
      journal := journal + [Refunded(d.id, d.address, d.asset, destination, amount)];
      return Succeeded(amount);
    }

    // The flag of a finished settlement is set in the copy and the copy is written back.
    method RecordFlag(d: PaymentInfo, goal: Goal)
      requires Stands(Recording(d, goal))
      modifies this`docs
      ensures Stands(Escrow.Done(goal)) && docs == old(docs)[d.id := Flagged(d, goal)]
    {
      EscrowSafety.Reaches(At(Recording(d, goal)), Record, guarded, guarded);
      docs := docs[d.id := Flagged(d, goal)];
    }

    // A refund and, if it did not fail, its flag.
    method RefundAndRecord(d: PaymentInfo, failing: set<nat>, works: bool, goal: Goal) returns (attempt: Attempt)
      requires Stands(Returning(d, goal))
      modifies this`journal, this`docs, this`unrecorded, this`guarded
      ensures Stands(if attempt.Panicked? then Idle else Escrow.Done(goal))
      ensures guarded == (old(guarded) && old(RefundIsSafe(At(Idle), d, goal, failing, works)))
      ensures unrecorded == old(unrecorded) + UnrecordedBy(attempt, d, goal)
      ensures attempt == AttemptOf(old(journal), d, failing, works)
      ensures Leaves(old(journal), d, failing, attempt, journal)
      ensures docs == if attempt.Succeeded? then old(docs)[d.id := Flagged(d, goal)] else old(docs)
    {
      attempt := RefundEscrow(d, failing, works, goal);
      if attempt.Succeeded? {
        RecordFlag(d, goal);
      }
    }

    // A canceled message.
    method RefundClients(id: Id, failing: set<nat>, works: bool) returns (outcome: Outcome)
      requires Stands(Idle)
      modifies this`journal, this`docs, this`unrecorded, this`guarded
      ensures Stands(Idle)
      ensures guarded == (old(guarded) && CancelIsSafe(old(At(Idle)), id, failing, works))
      ensures outcome == RefundOutcome(old(docs), old(journal), id, failing, works)
      ensures if Refundable(old(docs), id) && outcome == Done
              then docs == old(docs)[id := old(docs)[id].(canceled := true)]
              else docs == old(docs)
      ensures if Refundable(old(docs), id) then Settled(old(journal), old(docs)[id], failing, works, journal)
              else journal == old(journal)
    {
      if id !in docs {
        return NotFound;
      }
      var rpi := docs[id];
      if rpi.released || rpi.canceled {
        return Done;
      }
      DocHasItsId(At(Idle), guarded, id);
      EscrowSafety.Reaches(At(Idle), CancelMessage(id), guarded, guarded);
      var attempt := RefundAndRecord(rpi, failing, works, Cancel);
      return OutcomeOf(attempt);
    }

    // A deployed message: the batch, then what is left to one of the funders. `paying` and `works`
    // are whether the two calls of the wallet reach the network.
    method PayoutFarmers(id: Id, wallets: map<int, Account>, paying: bool, failing: set<nat>, works: bool)
      returns (outcome: Outcome)
      requires Stands(Idle)
      modifies this`journal, this`docs, this`unrecorded, this`guarded
      ensures Stands(Idle)
      ensures guarded == (old(guarded) && PayoutIsSafe(old(At(Idle)), id, wallets, paying, failing, works))
      ensures outcome == PayoutOutcome(old(At(Idle)), id, wallets, paying, failing, works)
      ensures if Pays(old(At(Idle)), id, wallets, paying)
              then docs == (if outcome == Done then old(docs)[id := old(docs)[id].(released := true)] else old(docs))
                   && Settled(AfterPayout(old(At(Idle)), id, wallets), old(docs)[id], failing, works, journal)
              else docs == old(docs) && journal == old(journal)
    {
      if id !in docs {
        return NotFound;
      }
      if docs[id].released || docs[id].canceled {
        return Done;
      }
      DocHasItsId(At(Idle), guarded, id);
      outcome := PayOpen(docs[id], wallets, paying, failing, works);
    }

    // The rest of it.
    method PayOpen(rpi: PaymentInfo, wallets: map<int, Account>, paying: bool, failing: set<nat>, works: bool)
      returns (outcome: Outcome)
      requires Stands(Idle) && rpi.id in docs && docs[rpi.id] == rpi && rpi.Open() && Admissible(rpi.infos)
      modifies this`journal, this`docs, this`unrecorded, this`guarded
      ensures Stands(Idle)
      ensures guarded == (old(guarded) && PayoutIsSafe(old(At(Idle)), rpi.id, wallets, paying, failing, works))
      ensures outcome == PayoutOutcome(old(At(Idle)), rpi.id, wallets, paying, failing, works)
      ensures if Pays(old(At(Idle)), rpi.id, wallets, paying)
              then docs == (if outcome == Done then old(docs)[rpi.id := rpi.(released := true)] else old(docs))
                   && Settled(AfterPayout(old(At(Idle)), rpi.id, wallets), rpi, failing, works, journal)
              else docs == old(docs) && journal == old(journal)
    {
      var payments := CollectPayments(rpi.infos, rpi.asset, wallets, foundation);
      if !paying || payments == [] || Total(payments) > Holdings(Chain(journal), rpi.address, rpi.asset) {
        return Failed;
      }
      var attempt := Settle(rpi, wallets, failing, works);
      return OutcomeOf(attempt);
    }

    // Both submissions, and the flag.
    method Settle(rpi: PaymentInfo, wallets: map<int, Account>, failing: set<nat>, works: bool)
      returns (attempt: Attempt)
      requires Stands(Idle) && rpi.id in docs && docs[rpi.id] == rpi && Pays(At(Idle), rpi.id, wallets, true)
      modifies this`journal, this`docs, this`unrecorded, this`guarded
      ensures Stands(Idle)
      ensures guarded == (old(guarded) && PayoutIsSafe(old(At(Idle)), rpi.id, wallets, true, failing, works))
      ensures attempt == AttemptOf(AfterPayout(old(At(Idle)), rpi.id, wallets), rpi, failing, works)
      ensures Settled(AfterPayout(old(At(Idle)), rpi.id, wallets), rpi, failing, works, journal)
      ensures docs == if attempt.Succeeded? then old(docs)[rpi.id := rpi.(released := true)] else old(docs)
    {
      PayTheBatch(rpi, wallets);
      attempt := RefundAndRecord(rpi, failing, works, Release);
    }

    // The first of them.
    method PayTheBatch(rpi: PaymentInfo, wallets: map<int, Account>)
      requires Stands(Idle) && rpi.id in docs && docs[rpi.id] == rpi && Pays(At(Idle), rpi.id, wallets, true)
      modifies this`journal, this`guarded
      ensures Stands(Returning(rpi, Release)) && journal == AfterPayout(old(At(Idle)), rpi.id, wallets)
      ensures guarded == (old(guarded) && rpi.paid && rpi.id !in unrecorded)
    {
      ghost var s := At(Idle);
      var d := DistributionOf(rpi.asset);
      PayoutStep(s, guarded, rpi.id, wallets);
      journal := journal + [PaidOut(rpi.id, rpi.address, rpi.asset, FarmerPayments(rpi.infos, d, wallets),
                                    Burned(rpi.infos, d), Foundation(rpi.infos, d), foundation)];
      guarded := guarded && rpi.paid && rpi.id !in unrecorded;
      assert journal == AfterPayout(s, rpi.id, wallets);
    }

    // checkReservationPaid, for the first document of what is left of a batch. Of its lookups those
    // numbered `failing` fail.
    method CheckReservationPaid(d: PaymentInfo, failing: set<nat>, ghost rest: seq<PaymentInfo>)
      requires Stands(Polling([d] + rest))
      modifies this`docs, this`reservations
      ensures Stands(Polling(rest))
      ensures docs == if MayDeploy(journal, old(reservations), now, d, failing)
                      then old(docs)[d.id := d.(paid := true)] else old(docs)
      ensures reservations == if MayDeploy(journal, old(reservations), now, d, failing)
                              then old(reservations)[d.id := old(reservations)[d.id].(action := P.Deploy)]
                              else old(reservations)
    {
      PollOne(At(Polling([d] + rest)), guarded, d, failing, rest);
      var requiredValue := RequiredValue(d.infos);
      var balance, donors := Horizon.Read(Chain(journal), d.address, ForReservation(d.id), d.asset, failing);
      if balance < requiredValue {
        return;
      }
      if d.id !in reservations {
        LeaveOne(At(Funded(d, rest)), guarded, d, rest);
        return;
      }
      var reservation, modified := P.Next(now, reservations[d.id]);
      ReadOne(At(Funded(d, rest)), guarded, d, rest, reservation.action == P.Pay);
      if reservation.action != P.Pay {
        return;
      }
      Deploy(d, rest);
    }

    // The two writes of a reservation that is paid for.
    method Deploy(d: PaymentInfo, ghost rest: seq<PaymentInfo>)
      requires Stands(Deploying(d, rest)) && d.id in reservations
      modifies this`docs, this`reservations
      ensures Stands(Polling(rest))
      ensures docs == old(docs)[d.id := d.(paid := true)]
      ensures reservations == old(reservations)[d.id := old(reservations)[d.id].(action := P.Deploy)]
    {
      reservations := reservations[d.id := reservations[d.id].(action := P.Deploy)];
      EscrowSafety.Reaches(At(Deploying(d, rest)), WriteDeploy, guarded, guarded);
      EscrowSafety.Reaches(At(Marking(d, rest)), WritePaid, guarded, guarded);
      docs := docs[d.id := d.(paid := true)];
    }

    // checkReservations: whatever the order of the cursor, exactly the active reservations that are
    // read as funded and derived as Pay are deployed and marked paid. lookups(id) are the lookups
    // that fail for this reservation.
    method CheckReservations(batch: seq<PaymentInfo>, lookups: Id -> set<nat>)
      requires Stands(Idle) && ActiveBatch(docs, batch, now)
      modifies this`docs, this`reservations
      ensures Stands(Polling([]))
      ensures docs == MarkPaid(old(docs), Payable(old(docs), journal, old(reservations), now, lookups))
      ensures reservations == Deployed(old(reservations), Payable(old(docs), journal, old(reservations), now, lookups))
      // A document is paid afterwards if it was before, or had time, was read as funded and was at Pay.
      ensures forall id | id in old(docs) && id in docs && Funds(old(At(Idle)), old(reservations), id, lookups(id)) ::
                docs[id].paid
      ensures forall id | id in old(docs) && id in docs && !Funds(old(At(Idle)), old(reservations), id, lookups(id)) ::
                docs[id].paid == old(docs)[id].paid
    {
      ghost var docs0, reservations0, s0 := docs, reservations, At(Idle);
      EscrowSafety.ReachedIsSound(At(Idle), guarded);
      EscrowSafety.Reaches(At(Idle), StartPoll(batch), guarded, guarded);
      assert batch[0..] == batch;
      NoneChosen(docs0, reservations0);
      for i := 0 to |batch|
        invariant Stands(Polling(batch[i..]))
        invariant Checked(docs, reservations, docs0, reservations0,
                          Chosen(batch[..i], journal, reservations0, now, lookups))
      {
        CheckNext(batch, i, lookups, docs0, reservations0);
      }
      assert batch[..|batch|] == batch && batch[|batch|..] == [];
      AllChosen(docs0, batch, journal, reservations0, now, lookups);
      PaidAreFunded(s0, reservations0, lookups);
    }

    // One of them.
    method CheckNext(batch: seq<PaymentInfo>, i: nat, lookups: Id -> set<nat>,
                     ghost docs0: map<Id, PaymentInfo>, ghost reservations0: map<Id, P.Reservation>)
      requires i < |batch| && Stands(Polling(batch[i..])) && ActiveBatch(docs0, batch, now)
      requires Checked(docs, reservations, docs0, reservations0,
                       Chosen(batch[..i], journal, reservations0, now, lookups))
      modifies this`docs, this`reservations
      ensures Stands(Polling(batch[i + 1..]))
      ensures Checked(docs, reservations, docs0, reservations0,
                      Chosen(batch[..i + 1], journal, reservations0, now, lookups))
    {
      assert batch[i..] == [batch[i]] + batch[i + 1..];
      ChooseNext(docs0, batch, i, journal, reservations0, now, lookups, docs, reservations);
      CheckReservationPaid(batch[i], lookups(batch[i].id), batch[i + 1..]);
    }

    // refundExpiredReservations: the open reservations past their expiration are refunded one after
    // the other, each of whose refund succeeded is marked canceled, and everything else is left as it
    // is. A panic ends it. Attempt i is that of the i-th document of the cursor.
    method RefundExpiredReservations(batch: seq<PaymentInfo>, lookups: Id -> set<nat>, broken: set<Id>)
      returns (attempts: seq<Attempt>)
      requires Stands(Polling([])) && ExpiredBatch(docs, batch, now)
      modifies this`journal, this`docs, this`unrecorded, this`guarded
      ensures Stands(Idle)
      ensures |attempts| <= |batch| && (|attempts| < |batch| ==> attempts != [] && attempts[|attempts| - 1].Panicked?)
      ensures Sweeps(old(docs), old(journal), batch, broken, lookups, attempts)
      // What is settled or has time left is not touched, everything else has its turn unless a panic
      // comes first, and is canceled if its refund succeeds.
      ensures OverdueSwept(old(docs), docs, batch, attempts, now)
    {
      ghost var docs0, journal0 := docs, journal;
      SweepStarts(At(Polling([])), guarded, batch);
      attempts := [];
      NothingSwept(docs0, journal0, batch, broken, lookups);
      for i := 0 to |batch|
        invariant Stands(Sweeping(batch[i..])) && |attempts| == i
        invariant Sweeps(docs0, journal0, batch, broken, lookups, attempts)
      {
        var attempt := SweepNext(batch, i, lookups, broken, attempts, docs0, journal0);
        attempts := attempts + [attempt];
        if attempt.Panicked? {
          OverdueAreSwept(docs0, docs, batch, attempts, now);
          return;
        }
      }
      OverdueAreSwept(docs0, docs, batch, attempts, now);
      SweepEnds(At(Sweeping(batch[|batch|..])), guarded, batch);
    }

    // What has been swept so far.
    ghost predicate Sweeps(docs0: map<Id, PaymentInfo>, journal0: seq<Entry>, batch: seq<PaymentInfo>, broken: set<Id>,
                           lookups: Id -> set<nat>, attempts: seq<Attempt>)
      reads this
    {
      SweepOk(guarded, docs0, journal0, docs, journal, batch, broken, lookups, attempts)
    }

    // The next one of them.
    method SweepNext(batch: seq<PaymentInfo>, i: nat, lookups: Id -> set<nat>, broken: set<Id>,
                     ghost attempts: seq<Attempt>, ghost docs0: map<Id, PaymentInfo>, ghost journal0: seq<Entry>)
      returns (attempt: Attempt)
      requires i < |batch| && |attempts| == i && Stands(Sweeping(batch[i..])) && ExpiredBatch(docs0, batch, now)
      requires Sweeps(docs0, journal0, batch, broken, lookups, attempts)
      modifies this`journal, this`docs, this`unrecorded, this`guarded
      ensures Stands(if attempt.Panicked? then Idle else Sweeping(batch[i + 1..]))
      ensures Sweeps(docs0, journal0, batch, broken, lookups, attempts + [attempt])
    {
      ghost var before, docs1, was := journal, docs, guarded;
      SweepsOne(At(Sweeping(batch[i..])), guarded, batch, i);
      attempt := RefundOne(batch[i], lookups(batch[i].id), batch[i].id !in broken, Expire(batch[i + 1..]));
      SweepGoesOn(was, guarded, docs0, journal0, docs1, docs, before, journal, batch, broken, lookups, attempts,
                  attempt, now);
    }

    // One of them.
    method RefundOne(d: PaymentInfo, failing: set<nat>, works: bool, goal: Goal) returns (attempt: Attempt)
      requires Stands(Returning(d, goal)) && goal.Expire?
      modifies this`journal, this`docs, this`unrecorded, this`guarded
      ensures Stands(if attempt.Panicked? then Idle else Escrow.Done(goal))
      ensures docs == if attempt.Succeeded? then old(docs)[d.id := d.(canceled := true)] else old(docs)
      ensures attempt == AttemptOf(old(journal), d, failing, works) && Took(old(journal), journal, d, attempt)
      ensures guarded ==> old(guarded) && (failing == {} && works ==> attempt.Succeeded?)
    {
      ghost var before := journal;
      AnsweredRefund(At(Returning(d, goal)), guarded, works);
      attempt := RefundAndRecord(d, failing, works, goal);
      LeavesNothing(before, d, failing, attempt, journal);
    }
  }

  lemma PaidAreFunded(s: State, reservations: map<Id, P.Reservation>, lookups: Id -> set<nat>)
    requires forall id | id in s.docs :: s.docs[id].id == id
    ensures var docs := MarkPaid(s.docs, Payable(s.docs, s.journal, reservations, s.now, lookups));
            forall id | id in s.docs ::
              docs[id].paid == (s.docs[id].paid || Funds(s, reservations, id, lookups(id)))
  {
  }

  // It has time left, its price is read as paid in, and its reservation waits for that.
  predicate Funds(s: State, reservations: map<Id, P.Reservation>, id: Id, failing: set<nat>)
    requires id in s.docs
  {
    && s.now < s.docs[id].expiration && ReadIn(s.journal, s.docs[id], failing) >= Required(s.docs[id].infos)
    && id in reservations && P.Derive(s.now, reservations[id]) == P.Pay
  }

  predicate Overdue(d: PaymentInfo, now: int) {
    !d.released && !d.canceled && d.expiration <= now
  }

  // The others are as they were and, after a whole sweep, each of these has had a refund that succeeded
  // if and only if it is canceled now.
  predicate OverdueSwept(docs: map<Id, PaymentInfo>, after: map<Id, PaymentInfo>, batch: seq<PaymentInfo>,
                         attempts: seq<Attempt>, now: int) {
    && after.Keys == docs.Keys
    && (forall id | id in docs && !Overdue(docs[id], now) :: after[id] == docs[id])
    && (|attempts| == |batch| ==>
          forall id | id in docs && Overdue(docs[id], now) ::
            exists i :: 0 <= i < |batch| && batch[i] == docs[id] &&
                        after[id] == docs[id].(canceled := attempts[i].Succeeded?))
  }

  lemma OverdueAreSwept(docs: map<Id, PaymentInfo>, after: map<Id, PaymentInfo>, batch: seq<PaymentInfo>,
                        attempts: seq<Attempt>, now: int)
    requires ExpiredBatch(docs, batch, now) && |attempts| <= |batch| && forall id | id in docs :: docs[id].id == id
    requires after == MarkCanceled(docs, Canceled(batch, attempts))
    ensures OverdueSwept(docs, after, batch, attempts, now)
  {
    forall id | id in docs && !Overdue(docs[id], now)
      ensures after[id] == docs[id]
    {
      NotDueIsLeft(docs, batch, attempts, now, id);
    }
    if |attempts| == |batch| {
      forall id | id in docs && Overdue(docs[id], now)
        ensures exists i :: 0 <= i < |batch| && batch[i] == docs[id] &&
                            after[id] == docs[id].(canceled := attempts[i].Succeeded?)
      {
        DueHasItsTurn(docs, batch, attempts, now, id);
      }
    }
  }

  lemma NotDueIsLeft(docs: map<Id, PaymentInfo>, batch: seq<PaymentInfo>, attempts: seq<Attempt>, now: int, id: Id)
    requires ExpiredBatch(docs, batch, now) && |attempts| <= |batch| && id in docs && !Overdue(docs[id], now)
    ensures MarkCanceled(docs, Canceled(batch, attempts))[id] == docs[id]
  {
    assert forall i | 0 <= i < |attempts| :: batch[i] in batch && docs[batch[i].id] == batch[i];
    assert id !in Canceled(batch, attempts);
  }

  lemma DueHasItsTurn(docs: map<Id, PaymentInfo>, batch: seq<PaymentInfo>, attempts: seq<Attempt>, now: int, id: Id)
    requires ExpiredBatch(docs, batch, now) && |attempts| == |batch| && id in docs && Overdue(docs[id], now)
    requires docs[id].id == id
    ensures exists i :: 0 <= i < |batch| && batch[i] == docs[id] &&
                        MarkCanceled(docs, Canceled(batch, attempts))[id] ==
                          docs[id].(canceled := attempts[i].Succeeded?)
  {
    assert docs[id] in batch;
    var i :| 0 <= i < |batch| && batch[i] == docs[id];
    CanceledIff(docs, batch, attempts, now, id, i);
  }

  lemma CanceledIff(docs: map<Id, PaymentInfo>, batch: seq<PaymentInfo>, attempts: seq<Attempt>, now: int, id: Id,
                    i: nat)
    requires ExpiredBatch(docs, batch, now) && |attempts| == |batch| && id in docs && Overdue(docs[id], now)
    requires i < |batch| && batch[i] == docs[id] && docs[id].id == id
    ensures MarkCanceled(docs, Canceled(batch, attempts))[id] == docs[id].(canceled := attempts[i].Succeeded?)
  {
    assert batch[i] in batch && batch[i].id in docs;
    if id in Canceled(batch, attempts) {
      var k :| 0 <= k < |attempts| && attempts[k].Succeeded? && batch[k].id == id;
      assert k == i;
    }
  }

  predicate CancelIsSafe(s: State, id: Id, failing: set<nat>, works: bool) {
    Refundable(s.docs, id) ==> RefundIsSafe(s, s.docs[id], Cancel, failing, works)
  }

  predicate Refundable(docs: map<Id, PaymentInfo>, id: Id) {
    id in docs && docs[id].Open()
  }

  function RefundOutcome(docs: map<Id, PaymentInfo>, journal: seq<Entry>, id: Id, failing: set<nat>,
                         works: bool): Outcome {
    if id !in docs then NotFound
    else if !docs[id].Open() then Done
    else OutcomeOf(AttemptOf(journal, docs[id], failing, works))
  }

  function PayoutOutcome(s: State, id: Id, wallets: map<int, Account>, paying: bool, failing: set<nat>,
                         works: bool): Outcome {
    if id !in s.docs then NotFound
    else if !s.docs[id].Open() then Done
    else if !Pays(s, id, wallets, paying) then Failed
    else OutcomeOf(AttemptOf(AfterPayout(s, id, wallets), s.docs[id], failing, works))
  }

  // The reservation is open, there is something to pay, and the network takes it.
  predicate Pays(s: State, id: Id, wallets: map<int, Account>, paying: bool) {
    && Refundable(s.docs, id) && paying
    && var batch := Batch(s.docs[id].infos, s.docs[id].asset, wallets, s.foundation);
       batch != [] && Total(batch) <= Holdings(Chain(s.journal), s.docs[id].address, s.docs[id].asset)
  }

  // The ledger with the payout on it.
  function AfterPayout(s: State, id: Id, wallets: map<int, Account>): seq<Entry>
    requires id in s.docs
  {
    s.journal + [PayoutOf(s, s.docs[id], wallets)]
  }

  // The guards: what is paid out was marked paid and its flags are up to date, and the refund after
  // it does not read too much.
  predicate PayoutIsSafe(s: State, id: Id, wallets: map<int, Account>, paying: bool, failing: set<nat>, works: bool) {
    Pays(s, id, wallets, paying) ==>
      && s.docs[id].paid && id !in s.unrecorded
      && RefundIsSafe(s.(journal := AfterPayout(s, id, wallets)), s.docs[id], Release, failing, works)
  }

  // What a refund leaves on the ledger.
  predicate Leaves(before: seq<Entry>, d: PaymentInfo, failing: set<nat>, attempt: Attempt, journal: seq<Entry>) {
    if attempt.Succeeded? && attempt.amount > 0
    then exists to :: to in DonorsIn(before, d, failing) &&
                      journal == before + [Refunded(d.id, d.address, d.asset, to, attempt.amount)]
    else journal == before
  }

  predicate Settled(before: seq<Entry>, d: PaymentInfo, failing: set<nat>, works: bool, journal: seq<Entry>) {
    Leaves(before, d, failing, AttemptOf(before, d, failing, works), journal)
  }

  // No other balance changes, and this one by exactly what was read.
  ghost predicate Took(before: seq<Entry>, after: seq<Entry>, d: PaymentInfo, attempt: Attempt) {
    && OnlyTouches(before, after, d.id)
    && Balance(Chain(before), d.address, ForReservation(d.id), d.asset)
       == Balance(Chain(after), d.address, ForReservation(d.id), d.asset)
          + (if attempt.Succeeded? then attempt.amount else 0)
    && (attempt.Succeeded? || after == before)
  }

  lemma LeavesNothing(before: seq<Entry>, d: PaymentInfo, failing: set<nat>, attempt: Attempt, journal: seq<Entry>)
    requires Leaves(before, d, failing, attempt, journal)
    ensures Took(before, journal, d, attempt)
  {
    if attempt.Succeeded? && attempt.amount > 0 {
      var to :| to in DonorsIn(before, d, failing) &&
          journal == before + [Refunded(d.id, d.address, d.asset, to, attempt.amount)];
      var e := Refunded(d.id, d.address, d.asset, to, attempt.amount);
      AppendTouchesOne(before, e);
      var s := State({}, "", before, map[], Idle, 0, {});
      EscrowTheorems.DonorsAreOthers(s, d, failing);
      EscrowTheorems.RefundTakes(s, e, d);
    }
  }

  // ---------- The batches ----------

  ghost predicate ActiveBatch(docs: map<Id, PaymentInfo>, batch: seq<PaymentInfo>, now: int) {
    Snapshot(docs, batch, d => Active(d, now))
  }

  ghost predicate ExpiredBatch(docs: map<Id, PaymentInfo>, batch: seq<PaymentInfo>, now: int) {
    Snapshot(docs, batch, d => Expired(d, now))
  }

  // The reservation is read as funded and its pipeline says Pay.
  predicate MayDeploy(journal: seq<Entry>, reservations: map<Id, P.Reservation>, now: int, d: PaymentInfo,
                      failing: set<nat>) {
    && ReadIn(journal, d, failing) >= d.Price()
    && d.id in reservations && P.Derive(now, reservations[d.id]) == P.Pay
  }

  function Payable(docs: map<Id, PaymentInfo>, journal: seq<Entry>, reservations: map<Id, P.Reservation>, now: int,
                   lookups: Id -> set<nat>): set<Id>
  {
    set id | id in docs && Active(docs[id], now) && MayDeploy(journal, reservations, now, docs[id], lookups(id))
  }

  function Chosen(batch: seq<PaymentInfo>, journal: seq<Entry>, reservations: map<Id, P.Reservation>, now: int,
                  lookups: Id -> set<nat>): set<Id>
  {
    set d | d in batch && MayDeploy(journal, reservations, now, d, lookups(d.id)) :: d.id
  }

  function MarkPaid(docs: map<Id, PaymentInfo>, ids: set<Id>): map<Id, PaymentInfo> {
    map id | id in docs :: if id in ids then docs[id].(paid := true) else docs[id]
  }

  function Deployed(reservations: map<Id, P.Reservation>, ids: set<Id>): map<Id, P.Reservation> {
    map id | id in reservations :: if id in ids then reservations[id].(action := P.Deploy) else reservations[id]
  }

  lemma NoneChosen(docs: map<Id, PaymentInfo>, reservations: map<Id, P.Reservation>)
    ensures MarkPaid(docs, {}) == docs && Deployed(reservations, {}) == reservations
  {
  }

  // These reservations are deployed and marked.
  predicate Checked(docs: map<Id, PaymentInfo>, reservations: map<Id, P.Reservation>,
                    docs0: map<Id, PaymentInfo>, reservations0: map<Id, P.Reservation>, ids: set<Id>)
  {
    docs == MarkPaid(docs0, ids) && reservations == Deployed(reservations0, ids)
  }

  // What the next document of the batch adds, and that the earlier ones do not interfere with it.
  lemma ChooseNext(docs0: map<Id, PaymentInfo>, batch: seq<PaymentInfo>, i: nat, journal: seq<Entry>,
                   reservations0: map<Id, P.Reservation>, now: int, lookups: Id -> set<nat>,
                   docs: map<Id, PaymentInfo>, reservations: map<Id, P.Reservation>)
    requires i < |batch| && ActiveBatch(docs0, batch, now)
    requires Checked(docs, reservations, docs0, reservations0, Chosen(batch[..i], journal, reservations0, now, lookups))
    ensures var more := Chosen(batch[..i + 1], journal, reservations0, now, lookups);
            var d := batch[i];
            if MayDeploy(journal, reservations, now, d, lookups(d.id))
            then Checked(docs[d.id := d.(paid := true)], reservations[d.id := reservations[d.id].(action := P.Deploy)],
                         docs0, reservations0, more)
            else Checked(docs, reservations, docs0, reservations0, more)
  {
    var ids, d := Chosen(batch[..i], journal, reservations0, now, lookups), batch[i];
    assert batch[..i + 1] == batch[..i] + [d];
    NotBefore(batch, i);
    assert d in batch && docs0[d.id] == d && d.id !in ids;
    assert Chosen(batch[..i + 1], journal, reservations0, now, lookups)
        == if MayDeploy(journal, reservations0, now, d, lookups(d.id)) then ids + {d.id} else ids;
    if d.id in reservations {
      CheckOne(docs0, reservations0, ids, d);
    }
  }

  lemma CheckOne(docs: map<Id, PaymentInfo>, reservations: map<Id, P.Reservation>, ids: set<Id>, d: PaymentInfo)
    requires d.id in docs && docs[d.id] == d && d.id in reservations && d.id !in ids
    ensures MarkPaid(docs, ids + {d.id}) == MarkPaid(docs, ids)[d.id := d.(paid := true)]
    ensures Deployed(reservations, ids + {d.id})
         == Deployed(reservations, ids)[d.id := reservations[d.id].(action := P.Deploy)]
  {
  }

  lemma NotBefore(batch: seq<PaymentInfo>, i: nat)
    requires i < |batch| && DistinctIds(batch)
    ensures forall d | d in batch[..i] :: d.id != batch[i].id
  {
    forall j | 0 <= j < i
      ensures batch[..i][j].id != batch[i].id
    {
      assert batch[j].id != batch[i].id;
    }
  }

  lemma AllChosen(docs: map<Id, PaymentInfo>, batch: seq<PaymentInfo>, journal: seq<Entry>,
                  reservations: map<Id, P.Reservation>, now: int, lookups: Id -> set<nat>)
    requires ActiveBatch(docs, batch, now) && forall id | id in docs :: docs[id].id == id
    ensures Chosen(batch, journal, reservations, now, lookups) == Payable(docs, journal, reservations, now, lookups)
  {
    var chosen := Chosen(batch, journal, reservations, now, lookups);
    var payable := Payable(docs, journal, reservations, now, lookups);
    forall id | id in chosen
      ensures id in payable
    {
      var d :| d in batch && MayDeploy(journal, reservations, now, d, lookups(d.id)) && d.id == id;
      assert docs[d.id] == d && Active(d, now);
    }
    forall id | id in payable
      ensures id in chosen
    {
      assert docs[id] in batch && docs[id].id == id;
    }
  }

  function MarkCanceled(docs: map<Id, PaymentInfo>, ids: set<Id>): map<Id, PaymentInfo> {
    map id | id in docs :: if id in ids then docs[id].(canceled := true) else docs[id]
  }

  // The reservations of a batch whose refund succeeded.
  function Canceled(batch: seq<PaymentInfo>, attempts: seq<Attempt>): set<Id>
    requires |attempts| <= |batch|
  {
    set i | 0 <= i < |attempts| && attempts[i].Succeeded? :: batch[i].id
  }

  // What the attempt to refund one of them does to its balance, which is as it was before the sweep.
  // With every lookup answered a refund that is not broken leaves nothing of a balance that is there.
  ghost predicate Swept(before: seq<Entry>, after: seq<Entry>, d: PaymentInfo, broken: set<Id>,
                        lookups: Id -> set<nat>, attempt: Attempt)
  {
    && BalanceIn(before, d) == BalanceIn(after, d) + (if attempt.Succeeded? then attempt.amount else 0)
    && (d.id in broken ==> attempt == Broke)
    && (d.id !in broken && lookups(d.id) == {} && attempt.Succeeded? ==> BalanceIn(after, d) == 0)
  }

  function BalanceIn(journal: seq<Entry>, d: PaymentInfo): int {
    Balance(Chain(journal), d.address, ForReservation(d.id), d.asset)
  }

  ghost predicate OnlyTouchesAll(before: seq<Entry>, after: seq<Entry>, ids: set<Id>) {
    forall account, memo: Memo, asset | memo.ForReservation? ==> memo.id !in ids ::
      Balance(Chain(after), account, memo, asset) == Balance(Chain(before), account, memo, asset)
  }

  // Exactly those whose refund succeeded are marked canceled, and no other balance changes.
  ghost predicate SweptSoFar(docs0: map<Id, PaymentInfo>, before: seq<Entry>, docs: map<Id, PaymentInfo>,
                             after: seq<Entry>, batch: seq<PaymentInfo>, broken: set<Id>, lookups: Id -> set<nat>,
                             attempts: seq<Attempt>)
  {
    && |attempts| <= |batch|
    && docs == MarkCanceled(docs0, Canceled(batch, attempts))
    && OnlyTouchesAll(before, after, Canceled(batch, attempts))
    && forall i | 0 <= i < |attempts| :: Swept(before, after, batch[i], broken, lookups, attempts[i])
  }

  predicate AnsweredSucceed(batch: seq<PaymentInfo>, broken: set<Id>, lookups: Id -> set<nat>, attempts: seq<Attempt>)
    requires |attempts| <= |batch|
  {
    forall i | 0 <= i < |attempts| && batch[i].id !in broken && lookups(batch[i].id) == {} :: attempts[i].Succeeded?
  }

  ghost predicate SweepOk(guarded: bool, docs0: map<Id, PaymentInfo>, before: seq<Entry>, docs: map<Id, PaymentInfo>,
                          after: seq<Entry>, batch: seq<PaymentInfo>, broken: set<Id>, lookups: Id -> set<nat>,
                          attempts: seq<Attempt>)
  {
    && SweptSoFar(docs0, before, docs, after, batch, broken, lookups, attempts)
    && (guarded ==> AnsweredSucceed(batch, broken, lookups, attempts))
  }

  lemma SweepGoesOn(g: bool, g': bool, docs0: map<Id, PaymentInfo>, first: seq<Entry>, docs: map<Id, PaymentInfo>,
                    docs': map<Id, PaymentInfo>, before: seq<Entry>, after: seq<Entry>, batch: seq<PaymentInfo>,
                    broken: set<Id>, lookups: Id -> set<nat>, attempts: seq<Attempt>, attempt: Attempt, now: int)
    requires |attempts| < |batch| && ExpiredBatch(docs0, batch, now)
    requires SweepOk(g, docs0, first, docs, before, batch, broken, lookups, attempts)
    requires var d := batch[|attempts|];
             && docs' == (if attempt.Succeeded? then docs[d.id := d.(canceled := true)] else docs)
             && attempt == AttemptOf(before, d, lookups(d.id), d.id !in broken) && Took(before, after, d, attempt)
             && (g' ==> g && (lookups(d.id) == {} && d.id !in broken ==> attempt.Succeeded?))
    ensures SweepOk(g', docs0, first, docs', after, batch, broken, lookups, attempts + [attempt])
  {
    OneSwept(docs0, first, before, after, batch, broken, lookups, attempts, attempt, now);
    AnsweredNext(batch, broken, lookups, attempts, attempt);
  }

  lemma AnsweredNext(batch: seq<PaymentInfo>, broken: set<Id>, lookups: Id -> set<nat>, attempts: seq<Attempt>,
                     attempt: Attempt)
    requires |attempts| < |batch|
    ensures AnsweredSucceed(batch, broken, lookups, attempts) &&
            (lookups(batch[|attempts|].id) == {} && batch[|attempts|].id !in broken ==> attempt.Succeeded?) ==>
              AnsweredSucceed(batch, broken, lookups, attempts + [attempt])
  {
  }

  lemma NothingSwept(docs: map<Id, PaymentInfo>, journal: seq<Entry>, batch: seq<PaymentInfo>, broken: set<Id>,
                     lookups: Id -> set<nat>)
    ensures SweptSoFar(docs, journal, docs, journal, batch, broken, lookups, [])
    ensures AnsweredSucceed(batch, broken, lookups, [])
  {
    assert docs == MarkCanceled(docs, Canceled(batch, []));
  }

  lemma OneSwept(docs0: map<Id, PaymentInfo>, first: seq<Entry>, before: seq<Entry>, after: seq<Entry>,
                 batch: seq<PaymentInfo>, broken: set<Id>, lookups: Id -> set<nat>, attempts: seq<Attempt>,
                 attempt: Attempt, now: int)
    requires |attempts| < |batch| && ExpiredBatch(docs0, batch, now)
    requires var docs := MarkCanceled(docs0, Canceled(batch, attempts));
             SweptSoFar(docs0, first, docs, before, batch, broken, lookups, attempts)
    requires var d := batch[|attempts|];
             attempt == AttemptOf(before, d, lookups(d.id), d.id !in broken) && Took(before, after, d, attempt)
    ensures var d, docs := batch[|attempts|], MarkCanceled(docs0, Canceled(batch, attempts));
            var docs' := if attempt.Succeeded? then docs[d.id := d.(canceled := true)] else docs;
            SweptSoFar(docs0, first, docs', after, batch, broken, lookups, attempts + [attempt])
  {
    var d, ids := batch[|attempts|], Canceled(batch, attempts);
    assert d in batch && docs0[d.id] == d;
    CanceledNext(batch, attempts, attempt);
    SweptNext(first, before, after, batch, broken, lookups, attempts, attempt);
    CanceledOneMore(docs0, ids, d);
  }

  lemma CanceledOneMore(docs: map<Id, PaymentInfo>, ids: set<Id>, d: PaymentInfo)
    requires d.id in docs && docs[d.id] == d && d.id !in ids
    ensures MarkCanceled(docs, ids + {d.id}) == MarkCanceled(docs, ids)[d.id := d.(canceled := true)]
  {
  }

  lemma CanceledNext(batch: seq<PaymentInfo>, attempts: seq<Attempt>, attempt: Attempt)
    requires |attempts| < |batch| && DistinctIds(batch)
    ensures var ids, more := Canceled(batch, attempts), Canceled(batch, attempts + [attempt]);
            && batch[|attempts|].id !in ids
            && more == if attempt.Succeeded? then ids + {batch[|attempts|].id} else ids
  {
    var ids, more := Canceled(batch, attempts), Canceled(batch, attempts + [attempt]);
    forall id | id in more
      ensures id in if attempt.Succeeded? then ids + {batch[|attempts|].id} else ids
    {
      var i :| 0 <= i < |attempts + [attempt]| && (attempts + [attempt])[i].Succeeded? && batch[i].id == id;
      if i < |attempts| {
        assert attempts[i].Succeeded?;
      }
    }
    forall id | id in ids
      ensures id in more
    {
      var i :| 0 <= i < |attempts| && attempts[i].Succeeded? && batch[i].id == id;
      assert (attempts + [attempt])[i].Succeeded?;
    }
    if attempt.Succeeded? {
      assert (attempts + [attempt])[|attempts|].Succeeded?;
    }
  }

  lemma SweptNext(first: seq<Entry>, before: seq<Entry>, after: seq<Entry>, batch: seq<PaymentInfo>, broken: set<Id>,
                  lookups: Id -> set<nat>, attempts: seq<Attempt>, attempt: Attempt)
    requires |attempts| < |batch| && DistinctIds(batch)
    requires OnlyTouchesAll(first, before, Canceled(batch, attempts))
    requires forall i | 0 <= i < |attempts| :: Swept(first, before, batch[i], broken, lookups, attempts[i])
    requires var d := batch[|attempts|];
             attempt == AttemptOf(before, d, lookups(d.id), d.id !in broken) && Took(before, after, d, attempt)
    ensures OnlyTouchesAll(first, after, Canceled(batch, attempts + [attempt]))
    ensures forall i | 0 <= i <= |attempts| ::
              Swept(first, after, batch[i], broken, lookups, (attempts + [attempt])[i])
  {
    var d := batch[|attempts|];
    CanceledNext(batch, attempts, attempt);
    forall i | 0 <= i <= |attempts|
      ensures Swept(first, after, batch[i], broken, lookups, (attempts + [attempt])[i])
    {
      if i < |attempts| {
        assert batch[i].id != d.id && Swept(first, before, batch[i], broken, lookups, attempts[i]);
      } else {
        assert BalanceIn(before, d) == BalanceIn(first, d);
        SweptAlone(first, before, after, d, broken, lookups, attempt);
      }
    }
  }

  lemma SweptAlone(first: seq<Entry>, before: seq<Entry>, after: seq<Entry>, d: PaymentInfo, broken: set<Id>,
                   lookups: Id -> set<nat>, attempt: Attempt)
    requires BalanceIn(before, d) == BalanceIn(first, d) && Took(before, after, d, attempt)
    requires attempt == AttemptOf(before, d, lookups(d.id), d.id !in broken)
    ensures Swept(first, after, d, broken, lookups, attempt)
  {
    if lookups(d.id) == {} {
      var s := State({}, "", before, map[], Idle, 0, {});
      Horizon.NoFailures(Chain(before), ForReservation(d.id));
      EscrowTheorems.ReadRight(s, d, {});
    }
  }

  // ---------- Single steps ----------

  lemma DocHasItsId(s: State, g: bool, id: Id)
    requires EscrowSafety.Reached(s, g) && id in s.docs
    ensures s.docs[id].id == id && Admissible(s.docs[id].infos)
  {
    EscrowSafety.ReachedIsSound(s, g);
  }

  // An error, a panic, nothing to refund, and a refund with nothing in between.
  lemma RefundBreaks(s: State, g: bool)
    requires EscrowSafety.Reached(s, g) && s.loop.Returning?
    ensures EscrowSafety.Reached(Ended(s, Broke, s.journal), g)
  {
    EscrowSafety.ReachedIsSound(s, g);
    EscrowSafety.LoopDocIsStored(s);
    EscrowSafety.Reaches(s, Fail, g, g);
    assert MovedNow(s) == UnrecordedBy(Broke, s.loop.doc, s.loop.goal);
  }

  lemma RefundPanics(s: State, g: bool, failing: set<nat>)
    requires EscrowSafety.Reached(s, g) && Enabled(s, Panic(failing))
    ensures EscrowSafety.Reached(Ended(s, Panicked, s.journal), g)
  {
    EscrowSafety.ReachedIsSound(s, g);
    EscrowSafety.LoopDocIsStored(s);
    EscrowSafety.Reaches(s, Panic(failing), g, g);
    assert MovedNow(s) == UnrecordedBy(Panicked, s.loop.doc, s.loop.goal);
  }

  lemma RefundIsNothing(s: State, g: bool, g': bool, failing: set<nat>)
    requires EscrowSafety.Reached(s, g) && s.loop.Returning? && ReadOf(s, s.loop.doc, failing) == 0
    requires g' ==> g && NotOverread(s, ReadFunds(failing, ""))
    ensures EscrowSafety.Reached(s.(loop := Recording(s.loop.doc, s.loop.goal)), g')
  {
    EscrowSafety.Reaches(s, ReadFunds(failing, ""), g, g');
  }

  lemma RefundStep(s: State, g: bool, g': bool, failing: set<nat>, to: Account)
    requires EscrowSafety.Reached(s, g) && s.loop.Returning? && to in DonorsOf(s, s.loop.doc, failing)
    requires 0 < ReadOf(s, s.loop.doc, failing) <= Holdings(Chain(s.journal), s.loop.doc.address, s.loop.doc.asset)
    requires g' ==> g && NotOverread(s, ReadFunds(failing, to))
    ensures var d := s.loop.doc;
            var entry := Refunded(d.id, d.address, d.asset, to, ReadOf(s, d, failing));
            EscrowSafety.Reached(s.(journal := s.journal + [entry], loop := Recording(d, s.loop.goal)), g')
  {
    EscrowSafety.Reaches(s, ReadFunds(failing, to), g, g');
    EscrowSafety.Reaches(Apply(s, ReadFunds(failing, to)), SubmitRefund, g', g');
  }

  function Ended(s: State, attempt: Attempt, journal: seq<Entry>): State
    requires s.loop.Returning?
  {
    var d, goal := s.loop.doc, s.loop.goal;
    s.(journal := journal, loop := LoopAfter(attempt, d, goal),
       unrecorded := s.unrecorded + UnrecordedBy(attempt, d, goal))
  }

  lemma SweepStarts(s: State, g: bool, batch: seq<PaymentInfo>)
    requires EscrowSafety.Reached(s, g) && s.loop == Polling([]) && ExpiredBatch(s.docs, batch, s.now)
    ensures EscrowSafety.Reached(s.(loop := Sweeping(batch[0..])), g)
    ensures forall id | id in s.docs :: s.docs[id].id == id
  {
    EscrowSafety.ReachedIsSound(s, g);
    EscrowSafety.Reaches(s, StartSweep(batch), g, g);
    assert batch[0..] == batch;
  }

  lemma SweepEnds(s: State, g: bool, batch: seq<PaymentInfo>)
    requires EscrowSafety.Reached(s, g) && s.loop == Sweeping(batch[|batch|..])
    ensures EscrowSafety.Reached(s.(loop := Idle), g)
  {
    EscrowSafety.Reaches(s, EndTick, g, g);
  }

  lemma SweepsOne(s: State, g: bool, batch: seq<PaymentInfo>, k: nat)
    requires EscrowSafety.Reached(s, g) && k < |batch| && s.loop == Sweeping(batch[k..])
    ensures EscrowSafety.Reached(s.(loop := Returning(batch[k], Expire(batch[k + 1..]))), g)
  {
    assert batch[k..][0] == batch[k] && batch[k..][1..] == batch[k + 1..];
    EscrowSafety.Reaches(s, Sweep, g, g);
  }

  // With every lookup answered, a refund that is not broken succeeds with the whole balance.
  lemma AnsweredRefund(s: State, g: bool, works: bool)
    requires EscrowSafety.Reached(s, g) && s.loop.Returning?
    ensures g ==> BalanceOf(s, s.loop.doc) >= 0
    ensures g ==> AttemptOf(s.journal, s.loop.doc, {}, works)
                  == if works then Succeeded(BalanceOf(s, s.loop.doc)) else Broke
  {
    EscrowSafety.ReachedIsSound(s, g);
    if g {
      EscrowSafety.LoopDocIsStored(s);
      Horizon.NoFailures(Chain(s.journal), ForReservation(s.loop.doc.id));
      EscrowTheorems.ReadRight(s, s.loop.doc, {});
      EscrowTheorems.BalanceIsCovered(s, s.loop.doc);
      var to := EscrowTheorems.HasFunder(s, s.loop.doc);
    }
  }

  // However it ends, it is a piece of a history.
  lemma RefundEnds(s: State, g: bool, failing: set<nat>, works: bool, journal: seq<Entry>)
    requires EscrowSafety.Reached(s, g) && s.loop.Returning?
    requires Settled(s.journal, s.loop.doc, failing, works, journal)
    ensures EscrowSafety.Reached(Ended(s, AttemptOf(s.journal, s.loop.doc, failing, works), journal),
                                 g && RefundIsSafe(s, s.loop.doc, s.loop.goal, failing, works))
  {
    var d, g' := s.loop.doc, g && RefundIsSafe(s, s.loop.doc, s.loop.goal, failing, works);
    match AttemptOf(s.journal, d, failing, works)
    case Broke => RefundBreaks(s, g);
    case Panicked => RefundPanics(s, g, failing);
    case Succeeded(amount) =>
      assert s.unrecorded + {} == s.unrecorded;
      if amount == 0 {
        RefundIsNothing(s, g, g', failing);
      } else {
        var to :| to in DonorsIn(s.journal, d, failing) &&
            journal == s.journal + [Refunded(d.id, d.address, d.asset, to, amount)];
        RefundStep(s, g, g', failing, to);
      }
  }

  lemma PayoutStep(s: State, g: bool, id: Id, wallets: map<int, Account>)
    requires EscrowSafety.Reached(s, g) && s.loop.Idle? && Pays(s, id, wallets, true) && s.docs[id].id == id
    ensures EscrowSafety.Reached(s.(journal := AfterPayout(s, id, wallets), loop := Returning(s.docs[id], Release)),
                                 g && s.docs[id].paid && id !in s.unrecorded)
  {
    assert Payments(PayoutOf(s, s.docs[id], wallets))
        == Batch(s.docs[id].infos, s.docs[id].asset, wallets, s.foundation);
    EscrowSafety.Reaches(s, DeployedMessage(id, wallets, true), g, g && s.docs[id].paid && id !in s.unrecorded);
  }

  lemma PollOne(s: State, g: bool, d: PaymentInfo, failing: set<nat>, rest: seq<PaymentInfo>)
    requires EscrowSafety.Reached(s, g) && s.loop == Polling([d] + rest)
    ensures Admissible(d.infos)
    ensures EscrowSafety.Reached(s.(loop := if ReadIn(s.journal, d, failing) < d.Price() then Polling(rest)
                                            else Funded(d, rest)), g)
  {
    assert s.loop.batch[0] == d && s.loop.batch[1..] == rest;
    EscrowSafety.ReachedIsSound(s, g);
    EscrowSafety.Reaches(s, Poll(failing), g, g);
  }

  lemma ReadOne(s: State, g: bool, d: PaymentInfo, rest: seq<PaymentInfo>, pay: bool)
    requires EscrowSafety.Reached(s, g) && s.loop == Funded(d, rest)
    ensures EscrowSafety.Reached(s.(loop := if pay then Deploying(d, rest) else Polling(rest)), g)
  {
    EscrowSafety.Reaches(s, ReadReservation(pay), g, g);
  }

  lemma LeaveOne(s: State, g: bool, d: PaymentInfo, rest: seq<PaymentInfo>)
    requires EscrowSafety.Reached(s, g) && s.loop == Funded(d, rest)
    ensures EscrowSafety.Reached(s.(loop := Polling(rest)), g)
  {
    EscrowSafety.Reaches(s, Fail, g, g);
    assert s.unrecorded + MovedNow(s) == s.unrecorded;
  }

  // What the farmers are paid is on the account: the reservation's own balance covers it, so the
  // network cannot refuse it for lack of funds.
  lemma PayoutIsCovered(s: State, id: Id, wallets: map<int, Account>)
    requires Inv(s) && s.loop.Idle? && id in s.docs && s.docs[id].Open() && s.docs[id].paid && id !in s.unrecorded
    ensures Total(Payments(PayoutOf(s, s.docs[id], wallets)))
         <= Holdings(Chain(s.journal), s.docs[id].address, s.docs[id].asset)
  {
    EscrowSafety.PayoutWithinPrice(s, s.docs[id], wallets);
    EscrowTheorems.BalanceIsCovered(s, s.docs[id]);
  }

  // Nothing but this reservation's balance differs between the two ledgers.
  ghost predicate OnlyTouches(before: seq<Entry>, after: seq<Entry>, id: Id) {
    forall account, memo, asset | memo != ForReservation(id) ::
      Balance(Chain(before), account, memo, asset) == Balance(Chain(after), account, memo, asset)
  }

  lemma AppendTouchesOne(journal: seq<Entry>, e: Entry)
    requires !e.Received?
    ensures OnlyTouches(journal, journal + [e], e.id)
  {
    forall account, memo, asset | memo != ForReservation(e.id)
      ensures Balance(Chain(journal), account, memo, asset) == Balance(Chain(journal + [e]), account, memo, asset)
    {
      EscrowSafety.BalanceAfter(journal, e, account, memo, asset);
    }
  }
}
