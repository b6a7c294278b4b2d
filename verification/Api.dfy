/**
 The HTTP handlers that change reservations, as they run when nothing interferes. Every method leads
 from a store that some run of the handlers' steps ends in to another one.
 */
module Api {
  import opened Workloads
  import opened Pipeline
  import opened Reports
  import opened Collections
  import Validation
  import L = Lifecycle

  datatype Status = Accepted | NotFound | Refused

  class Handlers {
    const now: int
    var reservations: map<Id, Reservation>
    var registered: seq<(Id, Action)>            // messages to the escrow
    var canceled: seq<Id>
    var deployed: seq<Id>
    var queue: seq<Workload>                     // workloads for nodes to pick up

    ghost function At(tasks: multiset<L.Task>): L.Store
      reads this
    {
      L.Store(reservations, tasks)
    }

    // Some run of the handlers leads here.
    ghost predicate Stands(tasks: multiset<L.Task>)
      reads this
    {
      L.Reached(At(tasks), now)
    }

    constructor (now: int)
      ensures Stands(multiset{}) && this.now == now && reservations == map[]
      ensures registered == [] && canceled == [] && deployed == [] && queue == []
    {
      this.now := now;
      reservations, registered, canceled, deployed, queue := map[], [], [], [], [];
      new;
      L.StartIsReached(now);
    }

    // create: `id` is the next free id. Addresses and the customer's signature are checked by others.
    method Create(r: Reservation, id: Id, addressesOk: bool, signed: bool) returns (status: Status)
      requires Stands(multiset{}) && id !in reservations && r.action == Action.Create
      modifies this`reservations, this`registered
      ensures Stands(multiset{})
      ensures status == if MayCreate(now, Cleaned(r, id)) && addressesOk && signed then Accepted else Refused
      ensures status == Accepted ==>
                && reservations == old(reservations)[id := Created(now, r, id)]
                && registered == old(registered) + [(id, Created(now, r, id).action)]
      ensures status != Accepted ==> reservations == old(reservations) && registered == old(registered)
      // When that is, and what is stored, on the submission itself.
      ensures status == Accepted <==> Acceptable(now, r) && addressesOk && signed
      ensures status == Accepted ==>
                reservations[id] == r.(id := id, provisionSignatures := [], deleteSignatures := [], results := [],
                                       action := if r.provision.quorum <= 0 then Pay else Sign)
    {
      AcceptableIff(now, r, id);
      var reservation := Cleaned(r, id);
      if reservation.Expired(now) || reservation.expiration - now < L.HOUR {
        return Refused;
      }
      var valid := Validation.Validate(reservation.data);
      if !valid {
        return Refused;
      }
      var derived, _ := Next(now, reservation);
      if derived.action == Invalid || derived.action == Delete || !addressesOk || !signed {
        return Refused;
      }
      Creates(At(multiset{}), now, reservation);
      reservations := reservations[id := derived];
      registered := registered + [(id, reservations[id].action)];
      return Accepted;
    }

    // signProvision. `known` is whether the signer is in the phonebook, `verified` whether the
    // signature is his.
    method SignProvision(id: Id, signature: Signature, known: bool, verified: bool) returns (status: Status)
      requires Stands(multiset{})
      modifies this`reservations
      ensures Stands(multiset{})
      ensures status == if id !in old(reservations) then NotFound
                        else if !MaySignProvision(now, old(reservations)[id], signature) then Refused
                        else SignerStatus(known, verified)
      ensures reservations == if status != Accepted then old(reservations)
                              else old(reservations)[id := Provisioned(old(reservations)[id], signature)]
      // Signing alone never leads to Deploy, so nothing is queued here.
      ensures status == Accepted ==> Derive(now, reservations[id]) != Action.Deploy
      // The signer's old entry is replaced by the new one.
      ensures status == Accepted ==>
                var r, r' := old(reservations)[id], reservations[id];
                && r' == r.(provisionSignatures := r'.provisionSignatures)
                && Replaced(r.provisionSignatures, signature, r'.provisionSignatures)
    {
      if id !in reservations {
        return NotFound;
      }
      var r := reservations[id];
      var derived, _ := Next(now, r);
      if derived.action != Sign || signature.tid !in r.provision.signers {
        return Refused;
      }
      if !known {
        return NotFound;
      }
      if !verified {
        return Refused;
      }
      PushMembers(r.provisionSignatures, signature);
      DoesOne(At(multiset{}), now, L.SignProvision(id, signature), L.PushProvision(id, signature));
      reservations := reservations[id := Provisioned(r, signature)];
      return Accepted;
    }

    // setReservationDeleted.
    method SetReservationDeleted(id: Id)
      requires Stands(multiset{L.SendCancel(id)}) && id in reservations
      modifies this`reservations, this`canceled
      ensures Stands(multiset{})
      ensures canceled == old(canceled) + [id]
      ensures reservations == old(reservations)[id := old(reservations)[id].(action := Delete)]
    {
      canceled := canceled + [id];
      Does(At(multiset{L.SendCancel(id)}), now, L.SendCancel(id), multiset{L.WriteDelete(id)});
      Does(At(multiset{L.WriteDelete(id)}), now, L.WriteDelete(id), multiset{});
      reservations := reservations[id := reservations[id].(action := Delete)];
    }

    // signDelete.
    method SignDelete(id: Id, signature: Signature, known: bool, verified: bool) returns (status: Status)
      requires Stands(multiset{})
      modifies this`reservations, this`canceled, this`queue
      ensures Stands(multiset{})
      ensures status == if id !in old(reservations) then NotFound
                        else if signature.tid !in old(reservations)[id].deletion.signers then Refused
                        else SignerStatus(known, verified)
      ensures status != Accepted ==>
                reservations == old(reservations) && canceled == old(canceled) && queue == old(queue)
      ensures status == Accepted ==>
                var r := SignedOff(old(reservations)[id], signature);
                if Derive(now, r) == Delete
                then && reservations == old(reservations)[id := r.(action := Delete)]
                     && canceled == old(canceled) + [id]
                     && queue == old(queue) + r.Workloads()
                else reservations == old(reservations)[id := r] && canceled == old(canceled) && queue == old(queue)
      ensures status == Accepted ==>
                var r, r' := old(reservations)[id], reservations[id];
                && r' == r.(deleteSignatures := r'.deleteSignatures, action := r'.action)
                && Replaced(r.deleteSignatures, signature, r'.deleteSignatures)
    {
      if id !in reservations {
        return NotFound;
      }
      if signature.tid !in reservations[id].deletion.signers {
        return Refused;
      }
      if !known {
        return NotFound;
      }
      if !verified {
        return Refused;
      }
      PushMembers(reservations[id].deleteSignatures, signature);
      DoesOne(At(multiset{}), now, L.SignDelete(id, signature), L.PushDelete(id, signature));
      reservations := reservations[id := SignedOff(reservations[id], signature)];
      FinishDelete(id);
      return Accepted;
    }

    // The rest of signDelete: the document is read again.
    method FinishDelete(id: Id)
      requires Stands(multiset{L.CheckDelete(id)}) && id in reservations
      modifies this`reservations, this`canceled, this`queue
      ensures Stands(multiset{})
      ensures var r := old(reservations)[id];
              if Derive(now, r) == Delete
              then && reservations == old(reservations)[id := r.(action := Delete)]
                     && canceled == old(canceled) + [id]
                   && queue == old(queue) + r.Workloads()
              else reservations == old(reservations) && canceled == old(canceled) && queue == old(queue)
    {
      var r := reservations[id];
      var derived, _ := Next(now, r);
      Does(At(multiset{L.CheckDelete(id)}), now, L.CheckDelete(id),
           if derived.action == Delete then multiset{L.SendCancel(id)} else multiset{});
      if derived.action == Delete {
        SetReservationDeleted(id);
        var workloads := ListWorkloads(r.id, r.data, "");
        queue := queue + workloads;
      }
    }

    method HasWorkload(r: Reservation, node: NodeId, gwid: Gwid) returns (found: bool)
      ensures found == L.HasWorkload(r, node, gwid)
    {
      var workloads := ListWorkloads(r.id, r.data, node);
      for i := 0 to |workloads|
        invariant forall j | 0 <= j < i :: workloads[j].id != gwid
      {
        if workloads[i].id == gwid {
          return true;
        }
      }
      return false;
    }

    // workloadPutResult.
    method PutResult(id: Id, node: NodeId, gwid: Gwid, state: ResultState) returns (status: Status)
      requires Stands(multiset{}) && node != ""
      modifies this`reservations, this`canceled, this`deployed, this`queue
      ensures Stands(multiset{})
      ensures status == if id in old(reservations) && L.HasWorkload(old(reservations)[id], node, gwid)
                        then Accepted else NotFound
      ensures status != Accepted ==>
                && reservations == old(reservations) && canceled == old(canceled) && deployed == old(deployed)
                && queue == old(queue)
      ensures status == Accepted ==>
                var r := Reporting(old(reservations)[id], Result(gwid, node, state));
                && reservations == old(reservations)[id := if state == Error then r.(action := Delete) else r]
                && canceled == old(canceled) + (if state == Error then [id] else [])
                && deployed == old(deployed) + (if state == Ok && r.IsSuccessfullyDeployed() then [id] else [])
                && queue == Pop(old(queue), gwid, node)
      ensures status == Accepted <==> Runs(old(reservations), id, node, gwid)
      // Deleted survives every report but an error.
      ensures status == Accepted && old(reservations)[id].action == Deleted ==>
                (reservations[id].action == Deleted <==> state != Error)
    {
      if id !in reservations {
        return NotFound;
      }
      RunsIff(reservations, id, node, gwid);
      var found := HasWorkload(reservations[id], node, gwid);
      if !found {
        return NotFound;
      }
      StoreResult(id, node, gwid, state);
      queue := Pop(queue, gwid, node);
      FinishReport(id, state);
      return Accepted;
    }

    method FinishReport(id: Id, state: ResultState)
      requires Stands(AfterReport(id, state)) && id in reservations
      modifies this`reservations, this`canceled, this`deployed
      ensures Stands(multiset{})
      ensures var r := old(reservations)[id];
              && reservations == (if state == Error then old(reservations)[id := r.(action := Delete)]
                                  else old(reservations))
              && canceled == old(canceled) + (if state == Error then [id] else [])
              && deployed == old(deployed) + (if state == Ok && r.IsSuccessfullyDeployed() then [id] else [])
    {
      if state == Error {
        SetReservationDeleted(id);
      } else if state == Ok {
        FinishResult(id);
      }
    }

    method StoreResult(id: Id, node: NodeId, gwid: Gwid, state: ResultState)
      requires Stands(multiset{}) && id in reservations && node != "" && L.HasWorkload(reservations[id], node, gwid)
      modifies this`reservations
      ensures Stands(AfterReport(id, state))
      ensures reservations == old(reservations)[id := Reporting(old(reservations)[id], Result(gwid, node, state))]
    {
      var result := Result(gwid, node, state);
      DoesOne(At(multiset{}), now, L.PutResult(id, node, gwid, state), L.PushResult(id, result));
      reservations := reservations[id := Reporting(reservations[id], result)];
    }

    // The rest of workloadPutResult for an Ok result: the document is read again.
    method FinishResult(id: Id)
      requires Stands(multiset{L.CheckDeployed(id)}) && id in reservations
      modifies this`deployed
      ensures Stands(multiset{})
      ensures deployed == old(deployed) + (if reservations[id].IsSuccessfullyDeployed() then [id] else [])
    {
      var done := CheckDeployed(reservations[id]);
      Does(At(multiset{L.CheckDeployed(id)}), now, L.CheckDeployed(id),
           if done then multiset{L.SendDeployed(id)} else multiset{});
      if done {
        Does(At(multiset{L.SendDeployed(id)}), now, L.SendDeployed(id), multiset{});
        deployed := deployed + [id];
      }
    }

    // workloadPutDeleted.
    method PutDeleted(id: Id, node: NodeId, gwid: Gwid) returns (status: Status)
      requires Stands(multiset{}) && node != ""
      modifies this`reservations, this`queue
      ensures Stands(multiset{})
      ensures status == if id in old(reservations) && L.HasWorkload(old(reservations)[id], node, gwid)
                        then Accepted else NotFound
      ensures status == Accepted <==> Runs(old(reservations), id, node, gwid)
      ensures status != Accepted ==> reservations == old(reservations) && queue == old(queue)
      ensures status == Accepted ==>
                && reservations == old(reservations)[id := AfterRemoval(old(reservations)[id], gwid)]
                && queue == Pop(old(queue), gwid, node)
    {
      if id !in reservations {
        return NotFound;
      }
      RunsIff(reservations, id, node, gwid);
      var found := HasWorkload(reservations[id], node, gwid);
      if !found {
        return NotFound;
      }
      StoreRemoval(id, node, gwid);
      queue := Pop(queue, gwid, node);
      FinishRemoval(id);
      return Accepted;
    }

    method StoreRemoval(id: Id, node: NodeId, gwid: Gwid)
      requires Stands(multiset{}) && id in reservations && node != "" && L.HasWorkload(reservations[id], node, gwid)
      modifies this`reservations
      ensures Stands(multiset{L.CheckRemoved(id)})
      ensures reservations == old(reservations)[id := WithRemoval(old(reservations)[id], gwid)]
    {
      var removal := ReadRemoval(reservations[id].results, gwid);
      DoesOne(At(multiset{}), now, L.PutDeleted(id, node, gwid), L.PushRemoval(id, removal));
      reservations := reservations[id := Reporting(reservations[id], removal)];
    }

    // The rest of workloadPutDeleted: the document is read again.
    method FinishRemoval(id: Id)
      requires Stands(multiset{L.CheckRemoved(id)}) && id in reservations
      modifies this`reservations
      ensures Stands(multiset{})
      ensures var r := old(reservations)[id];
              reservations == if AllRemoved(r) then old(reservations)[id := r.(action := Deleted)]
                              else old(reservations)
    {
      var all := AllDeleted(reservations[id]);
      Does(At(multiset{L.CheckRemoved(id)}), now, L.CheckRemoved(id),
           if all then multiset{L.WriteDeleted(id)} else multiset{});
      if all {
        Does(At(multiset{L.WriteDeleted(id)}), now, L.WriteDeleted(id), multiset{});
        reservations := reservations[id := reservations[id].(action := Deleted)];
      }
    }
  }

  // What a submission becomes before it is checked, when it may be stored, and as what.
  function Cleaned(r: Reservation, id: Id): Reservation {
    r.(id := id, provisionSignatures := [], deleteSignatures := [], results := [])
  }

  predicate MayCreate(now: int, r: Reservation) {
    && !r.Expired(now) && r.expiration - now >= L.HOUR && Distinct(Validation.Ids(Validation.CheckedItems(r.data)))
    && Derive(now, r) != Delete && Derive(now, r) != Invalid
  }

  function Created(now: int, r: Reservation, id: Id): Reservation {
    Cleaned(r, id).(action := Derive(now, Cleaned(r, id)))
  }

  // It lasts an hour, its ids are distinct, nothing deletes it at once, and its provisioning window is
  // open or there is nothing to provision.
  predicate Acceptable(now: int, r: Reservation) {
    && r.expiration - now >= 3600 && Distinct(Validation.Ids(Validation.CheckedItems(r.data)))
    && r.deletion.quorum >= 0 && (now <= r.provisioning || r.Workloads() == [])
  }

  lemma AcceptableIff(now: int, r: Reservation, id: Id)
    requires r.action == Action.Create
    ensures MayCreate(now, Cleaned(r, id)) <==> Acceptable(now, r)
    ensures Acceptable(now, r) ==> Derive(now, Cleaned(r, id)) == if r.provision.quorum <= 0 then Pay else Sign
  {
    assert |AllWorkloads(id, r.data)| == |AllWorkloads(r.id, r.data)|;
  }

  ghost predicate Replaced(before: seq<Signature>, signature: Signature, after: seq<Signature>) {
    forall s :: s in after <==> s == signature || (s in before && s.tid != signature.tid)
  }

  function SignerStatus(known: bool, verified: bool): Status {
    if !known then NotFound else if !verified then Refused else Accepted
  }

  // WorkloadPop removes one matching entry.
  function Pop(queue: seq<Workload>, gwid: Gwid, node: NodeId): seq<Workload> {
    if queue == [] then []
    else if queue[0].id == gwid && queue[0].node == node then queue[1..]
    else [queue[0]] + Pop(queue[1..], gwid, node)
  }

  // What is left to do after a report is stored.
  function AfterReport(id: Id, state: ResultState): multiset<L.Task> {
    match state
    case Error => multiset{L.SendCancel(id)}
    case Ok => multiset{L.CheckDeployed(id)}
    case Removed => multiset{}
  }

  // It takes the first such entry, if there is one, and leaves all others in their order.
  lemma PopTakesOne(queue: seq<Workload>, gwid: Gwid, node: NodeId)
    ensures (forall w | w in queue :: !(w.id == gwid && w.node == node)) ==> Pop(queue, gwid, node) == queue
    ensures (exists w :: w in queue && w.id == gwid && w.node == node) ==>
              exists i :: 0 <= i < |queue| && IsTaken(queue, gwid, node, i) &&
                          Pop(queue, gwid, node) == queue[..i] + queue[i + 1..]
  {
    if w :| w in queue && w.id == gwid && w.node == node {
      var i := TakenAt(queue, gwid, node, w);
    } else {
      NoneIsTaken(queue, gwid, node);
    }
  }

  lemma {:induction false} NoneIsTaken(queue: seq<Workload>, gwid: Gwid, node: NodeId)
    requires forall w | w in queue :: !(w.id == gwid && w.node == node)
    ensures Pop(queue, gwid, node) == queue
  {
    if queue != [] {
      NoneIsTaken(queue[1..], gwid, node);
    }
  }

  lemma {:induction false} TakenAt(queue: seq<Workload>, gwid: Gwid, node: NodeId, w: Workload) returns (i: nat)
    requires w in queue && w.id == gwid && w.node == node
    ensures i < |queue| && IsTaken(queue, gwid, node, i) && Pop(queue, gwid, node) == queue[..i] + queue[i + 1..]
  {
    i := 0;
    if !(queue[0].id == gwid && queue[0].node == node) {
      assert queue == [queue[0]] + queue[1..];
      var k := TakenAt(queue[1..], gwid, node, w);
      TakenLater(queue, gwid, node, k);
      i := k + 1;
    }
  }

  predicate IsTaken(queue: seq<Workload>, gwid: Gwid, node: NodeId, i: nat)
    requires i < |queue|
  {
    queue[i].id == gwid && queue[i].node == node &&
    forall j | 0 <= j < i :: !(queue[j].id == gwid && queue[j].node == node)
  }

  lemma TakenLater(queue: seq<Workload>, gwid: Gwid, node: NodeId, k: nat)
    requires queue != [] && !(queue[0].id == gwid && queue[0].node == node)
    requires k < |queue| - 1 && IsTaken(queue[1..], gwid, node, k)
    ensures IsTaken(queue, gwid, node, k + 1)
    ensures [queue[0]] + (queue[1..][..k] + queue[1..][k + 1..]) == queue[..k + 1] + queue[k + 2..]
  {
    forall j | 0 <= j < k + 1
      ensures !(queue[j].id == gwid && queue[j].node == node)
    {
      assert j > 0 ==> queue[1..][j - 1] == queue[j];
    }
  }

  function WithRemoval(r: Reservation, gwid: Gwid): Reservation {
    Reporting(r, RemovalOf(r.results, gwid))
  }

  function AfterRemoval(r: Reservation, gwid: Gwid): Reservation {
    if AllRemoved(WithRemoval(r, gwid)) then WithRemoval(r, gwid).(action := Deleted) else WithRemoval(r, gwid)
  }

  // A request to create, and its handler to the end.
  lemma Creates(s: L.Store, now: int, r: Reservation)
    requires L.Reached(s, now) && s.tasks == multiset{} && L.Enabled(s, now, L.Event.Create(r))
    ensures L.Reached(L.Store(s.reservations[r.id := r.(action := Derive(now, r))], multiset{}), now)
  {
    var stored := r.(action := Derive(now, r));
    var reservations := s.reservations[r.id := stored];
    L.Reaches(s, now, L.Event.Create(r));
    assert multiset{} + multiset{L.ReadBack(r.id)} == multiset{L.ReadBack(r.id)};
    Does(L.Store(reservations, multiset{L.ReadBack(r.id)}), now, L.ReadBack(r.id),
         multiset{L.Registering(r.id, stored.action)});
    assert reservations[r.id := stored] == reservations;
    Does(L.Store(reservations, multiset{L.Registering(r.id, stored.action)}), now, L.Registering(r.id, stored.action),
         multiset{});
  }

  // The result that is there, or an empty one, in state Deleted.
  method ReadRemoval(results: seq<Result>, gwid: Gwid) returns (removal: Result)
    ensures removal == RemovalOf(results, gwid)
  {
    var found := ResultOf(results, gwid);
    if found == [] {
      return Result(gwid, "", Removed);
    }
    return found[0].(state := Removed);
  }

  predicate MaySignProvision(now: int, r: Reservation, signature: Signature) {
    Derive(now, r) == Sign && signature.tid in r.provision.signers
  }

  function Provisioned(r: Reservation, signature: Signature): Reservation {
    r.(provisionSignatures := Push(r.provisionSignatures, signature))
  }

  function SignedOff(r: Reservation, signature: Signature): Reservation {
    r.(deleteSignatures := Push(r.deleteSignatures, signature))
  }

  // The node runs this workload of the reservation.
  predicate Runs(reservations: map<Id, Reservation>, id: Id, node: NodeId, gwid: Gwid) {
    id in reservations && exists w :: w in reservations[id].Workloads() && w.id == gwid && w.node == node
  }

  lemma RunsIff(reservations: map<Id, Reservation>, id: Id, node: NodeId, gwid: Gwid)
    requires id in reservations && node != ""
    ensures Runs(reservations, id, node, gwid) <==> L.HasWorkload(reservations[id], node, gwid)
  {
    OnNodeMembers(reservations[id].Workloads(), node);
  }

  function Reporting(r: Reservation, result: Result): Reservation {
    r.(results := PushReport(r.results, result))
  }

  // One task on its own, and what it leaves to do.
  lemma Does(s: L.Store, now: int, task: L.Task, next: multiset<L.Task>)
    requires L.Reached(s, now) && s.tasks == multiset{task} && task.id in s.reservations
    requires next == L.FollowUp(s.reservations[task.id], now, task)
    ensures L.Reached(L.Store(s.reservations[task.id := L.Update(s.reservations[task.id], task)], next), now)
  {
    L.Reaches(s, now, L.Do(task));
    assert multiset{task} - multiset{task} + next == next;
  }

  // A request that starts with one task, and that task.
  lemma DoesOne(s: L.Store, now: int, request: L.Event, task: L.Task)
    requires L.Reached(s, now) && s.tasks == multiset{} && L.Enabled(s, now, request)
    requires L.Apply(s, now, request) == s.(tasks := multiset{task}) && task.id in s.reservations
    ensures L.Reached(L.Store(s.reservations[task.id := L.Update(s.reservations[task.id], task)],
                              L.FollowUp(s.reservations[task.id], now, task)), now)
  {
    L.Reaches(s, now, request);
    Does(s.(tasks := multiset{task}), now, task, L.FollowUp(s.reservations[task.id], now, task));
  }
}
