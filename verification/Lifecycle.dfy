/**
 The HTTP handlers as concurrent actors on the reservation collection. A handler is a sequence of
 atomic database steps; what it still has to do, with whatever it read before, is a task. Tasks
 of any number of handlers are done in any order, or never.
 */
module Lifecycle {
  import opened Workloads
  import opened Pipeline
  import opened Reports

  datatype Task =
    | ReadBack(id: Id)                                   // create: read the stored document again
    | Registering(id: Id, action: Action)                // create: hand it to the escrow
    | PushProvision(id: Id, signature: Signature)        // signProvision
    | PushDelete(id: Id, signature: Signature)           // signDelete
    | CheckDelete(id: Id)
    | PushResult(id: Id, result: Result)                 // workloadPutResult
    | CheckDeployed(id: Id)
    | SendDeployed(id: Id)
    | PushRemoval(id: Id, result: Result)                // workloadPutDeleted
    | CheckRemoved(id: Id)
    | WriteDeleted(id: Id)
    | SendCancel(id: Id)                                 // setReservationDeleted
    | WriteDelete(id: Id)

  datatype Store = Store(reservations: map<Id, Reservation>, tasks: multiset<Task>)

  datatype Event =
    | Create(r: Reservation)
    | SignProvision(id: Id, signature: Signature)
    | SignDelete(id: Id, signature: Signature)
    | List(id: Id)
    | PutResult(id: Id, node: NodeId, gwid: Gwid, state: ResultState)
    | PutDeleted(id: Id, node: NodeId, gwid: Gwid)
    | Do(task: Task)
    | RegisterFree(task: Task)                           // create: the escrow that makes everything free
    | SetDeploy(id: Id)                                  // written by the escrow loop
    | Wait                                               // something else happens

  const HOUR := 3600

  predicate HasWorkload(r: Reservation, node: NodeId, gwid: Gwid) {
    exists w :: w in Select(r.Workloads(), node) && w.id == gwid
  }

  predicate Enabled(s: Store, now: int, e: Event) {
    match e
    case Create(r) =>
      && r.id !in s.reservations && r.action == Action.Create
      && r.provisionSignatures == [] && r.deleteSignatures == [] && r.results == []
      && !r.Expired(now) && r.expiration - now >= HOUR
      && Derive(now, r) != Delete && Derive(now, r) != Invalid
    case SignProvision(id, signature) =>
      && id in s.reservations && Derive(now, s.reservations[id]) == Sign
      && signature.tid in s.reservations[id].provision.signers
    case SignDelete(id, signature) =>
      id in s.reservations && signature.tid in s.reservations[id].deletion.signers
    case List(id) => id in s.reservations
    case PutResult(id, node, gwid, _) =>
      id in s.reservations && node != "" && HasWorkload(s.reservations[id], node, gwid)
    case PutDeleted(id, node, gwid) => id in s.reservations && node != "" && HasWorkload(s.reservations[id], node, gwid)
    case Do(task) => task in s.tasks && task.id in s.reservations
    case RegisterFree(task) => task.Registering? && task in s.tasks && task.id in s.reservations
    case SetDeploy(id) => id in s.reservations
    case Wait => true
  }

  function With(s: Store, r: Reservation): Store {
    s.(reservations := s.reservations[r.id := r])
  }

  function Later(s: Store, task: Task): Store {
    s.(tasks := s.tasks + multiset{task})
  }

  function Apply(s: Store, now: int, e: Event): Store
    requires Enabled(s, now, e)
  {
    match e
    case Create(r) => Later(With(s, r.(action := Derive(now, r))), ReadBack(r.id))
    case SignProvision(id, signature) => Later(s, PushProvision(id, signature))
    case SignDelete(id, signature) => Later(s, PushDelete(id, signature))
    case List(id) => if Derive(now, s.reservations[id]) == Delete then Later(s, SendCancel(id)) else s
    case PutResult(id, node, gwid, state) => Later(s, PushResult(id, Result(gwid, node, state)))
    case PutDeleted(id, node, gwid) => Later(s, PushRemoval(id, RemovalOf(s.reservations[id].results, gwid)))
    case Do(task) =>
      var r := s.reservations[task.id];
      Store(s.reservations[task.id := Update(r, task)], s.tasks - multiset{task} + FollowUp(r, now, task))
    case RegisterFree(task) =>
      // It looks at the action it was handed, not at the one that is stored now.
      var r := s.reservations[task.id];
      Store(s.reservations[task.id := r.(action := if task.action == Pay then Deploy else r.action)],
            s.tasks - multiset{task})
    case SetDeploy(id) => s.(reservations := s.reservations[id := s.reservations[id].(action := Deploy)])
    case Wait => s
  }

  // What a task writes to its reservation ...
  function Update(r: Reservation, task: Task): Reservation {
    match task
    case PushProvision(_, signature) => r.(provisionSignatures := Push(r.provisionSignatures, signature))
    case PushDelete(_, signature) => r.(deleteSignatures := Push(r.deleteSignatures, signature))
    case PushResult(_, result) => r.(results := PushReport(r.results, result))
    case PushRemoval(_, result) => r.(results := PushReport(r.results, result))
    case WriteDeleted(_) => r.(action := Deleted)
    case WriteDelete(_) => r.(action := Delete)
    case _ => r
  }

  // ... and what its handler does next, given the reservation as it reads it.
  function FollowUp(r: Reservation, now: int, task: Task): multiset<Task> {
    var id := task.id;
    match task
    case ReadBack(_) => multiset{Registering(id, r.action)}
    case PushDelete(_, _) => multiset{CheckDelete(id)}
    case CheckDelete(_) => if Derive(now, r) == Delete then multiset{SendCancel(id)} else multiset{}
    case PushResult(_, result) =>
      if result.state == Error then multiset{SendCancel(id)}
      else if result.state == Ok then multiset{CheckDeployed(id)}
      else multiset{}
    case CheckDeployed(_) => if r.IsSuccessfullyDeployed() then multiset{SendDeployed(id)} else multiset{}
    case PushRemoval(_, _) => multiset{CheckRemoved(id)}
    case CheckRemoved(_) => if AllRemoved(r) then multiset{WriteDeleted(id)} else multiset{}
    case SendCancel(_) => multiset{WriteDelete(id)}
    case _ => multiset{}
  }

  // ---------- The invariant ----------

  predicate ReservationOk(r: Reservation) {
    && OneEach(r.provisionSignatures) && OneEach(r.deleteSignatures)
    && ResultsOk(r.Workloads(), r.results)
    && (r.action == Sign || r.action == Pay || r.action == Deploy || r.action == Delete || r.action == Deleted)
  }

  predicate TaskOk(s: Store, task: Task) {
    match task
    case PushResult(id, result) => id in s.reservations && WellKeyed(s.reservations[id].Workloads(), result)
    case PushRemoval(id, result) =>
      id in s.reservations && WellKeyed(s.reservations[id].Workloads(), result) && result.state == Removed
    case _ => task.id in s.reservations
  }

  ghost predicate Inv(s: Store) {
    && (forall id | id in s.reservations :: s.reservations[id].id == id && ReservationOk(s.reservations[id]))
    && (forall task | task in s.tasks :: TaskOk(s, task))
  }

  // What no step changes.
  predicate SameOrder(r: Reservation, r': Reservation) {
    r' == r.(action := r'.action, provisionSignatures := r'.provisionSignatures,
             deleteSignatures := r'.deleteSignatures, results := r'.results)
  }

  lemma WorkloadKeyed(r: Reservation, node: NodeId, gwid: Gwid, state: ResultState)
    requires node != "" && HasWorkload(r, node, gwid)
    ensures WellKeyed(r.Workloads(), Result(gwid, node, state))
  {
    OnNodeMembers(r.Workloads(), node);
    var w :| w in Select(r.Workloads(), node) && w.id == gwid;
    assert Key(w.id, w.node) in WorkloadKeys(r.Workloads());
  }

  // One write of a handler: the order never changes, quorums are never lost, and the reservation
  // stays well-formed.
  predicate Progress(r: Reservation, r': Reservation) {
    && SameOrder(r, r')
    && (ReservationOk(r) ==> ReservationOk(r'))
    && (r.ProvisionQuorum() ==> r'.ProvisionQuorum())
    && (r.DeleteQuorum() ==> r'.DeleteQuorum())
  }

  lemma ResultProgress(r: Reservation, result: Result)
    requires ReservationOk(r) && WellKeyed(r.Workloads(), result)
    ensures Progress(r, r.(results := PushReport(r.results, result)))
  {
    PushKeepsResultsOk(r.Workloads(), r.results, result);
    assert r.(results := PushReport(r.results, result)).Workloads() == r.Workloads();
  }

  lemma ProvisionProgress(r: Reservation, signature: Signature)
    requires ReservationOk(r)
    ensures Progress(r, r.(provisionSignatures := Push(r.provisionSignatures, signature)))
  {
    PushKeepsQuorum(r.provisionSignatures, signature, r.provision.signers);
    assert r.(provisionSignatures := Push(r.provisionSignatures, signature)).Workloads() == r.Workloads();
  }

  lemma DeleteProgress(r: Reservation, signature: Signature)
    requires ReservationOk(r)
    ensures Progress(r, r.(deleteSignatures := Push(r.deleteSignatures, signature)))
  {
    PushKeepsQuorum(r.deleteSignatures, signature, r.deletion.signers);
    assert r.(deleteSignatures := Push(r.deleteSignatures, signature)).Workloads() == r.Workloads();
  }

  lemma ActionProgress(r: Reservation, action: Action)
    requires action == Deploy || action == Delete || action == Deleted || action == r.action
    ensures Progress(r, r.(action := action))
  {
    assert r.(action := action).Workloads() == r.Workloads();
  }

  lemma UpdateProgress(r: Reservation, task: Task)
    requires ReservationOk(r)
    requires task.PushResult? || task.PushRemoval? ==> WellKeyed(r.Workloads(), task.result)
    ensures Progress(r, Update(r, task))
  {
    match task
    case PushProvision(_, signature) => ProvisionProgress(r, signature);
    case PushDelete(_, signature) => DeleteProgress(r, signature);
    case PushResult(_, result) => ResultProgress(r, result);
    case PushRemoval(_, result) => ResultProgress(r, result);
    case WriteDeleted(_) => ActionProgress(r, Deleted);
    case WriteDelete(_) => ActionProgress(r, Delete);
    case _ => ActionProgress(r, r.action);
  }

  // The only writes: a task of this reservation, or Deploy by the escrow.
  lemma StepWrites(s: Store, now: int, e: Event, id: Id)
    requires Enabled(s, now, e) && id in s.reservations
    ensures id in Apply(s, now, e).reservations
    ensures var r, r' := s.reservations[id], Apply(s, now, e).reservations[id];
            if e.Do? && e.task.id == id then r' == Update(r, e.task)
            else if e.SetDeploy? && e.id == id then r' == r.(action := Deploy)
            else if e.RegisterFree? && e.task.id == id && e.task.action == Pay then r' == r.(action := Deploy)
            else r' == r
  {
  }

  lemma ReservationStep(s: Store, now: int, e: Event, id: Id)
    requires Inv(s) && Enabled(s, now, e) && id in s.reservations
    ensures id in Apply(s, now, e).reservations
    ensures Progress(s.reservations[id], Apply(s, now, e).reservations[id])
  {
    var r := s.reservations[id];
    StepWrites(s, now, e, id);
    ActionProgress(r, Deploy);
    ActionProgress(r, r.action);
    if e.Do? && e.task.id == id {
      assert TaskOk(s, e.task);
      UpdateProgress(r, e.task);
    }
  }

  lemma CreatedIsOk(s: Store, now: int, r: Reservation)
    requires Enabled(s, now, Event.Create(r))
    ensures ReservationOk(r.(action := Derive(now, r)))
  {
  }

  lemma KeepsReservations(s: Store, now: int, e: Event)
    requires Inv(s) && Enabled(s, now, e)
    ensures var s' := Apply(s, now, e);
            forall id | id in s'.reservations :: s'.reservations[id].id == id && ReservationOk(s'.reservations[id])
  {
    var s' := Apply(s, now, e);
    forall id | id in s'.reservations
      ensures s'.reservations[id].id == id && ReservationOk(s'.reservations[id])
    {
      if id in s.reservations {
        ReservationStep(s, now, e, id);
      } else {
        CreatedIsOk(s, now, e.r);
      }
    }
  }

  lemma TaskStaysOk(s: Store, now: int, e: Event, task: Task)
    requires Inv(s) && Enabled(s, now, e) && TaskOk(s, task)
    ensures TaskOk(Apply(s, now, e), task)
  {
    ReservationStep(s, now, e, task.id);
  }

  lemma FollowUpIsOk(r: Reservation, now: int, done: Task, task: Task)
    requires task in FollowUp(r, now, done)
    ensures task.id == done.id && !task.PushResult? && !task.PushRemoval?
  {
  }

  // A handler goes on to register, or to report a deployment, only after reading so.
  lemma NewTaskWasRead(s: Store, now: int, e: Event, task: Task)
    requires Enabled(s, now, e) && task in Apply(s, now, e).tasks && task !in s.tasks
    ensures task.Registering? ==> task.id in s.reservations && s.reservations[task.id].action == task.action
    ensures task.SendDeployed? ==> task.id in s.reservations && s.reservations[task.id].IsSuccessfullyDeployed()
  {
    if e.Do? {
      FollowUpWasRead(s.reservations[e.task.id], now, e.task, task);
    }
  }

  lemma FollowUpWasRead(r: Reservation, now: int, done: Task, task: Task)
    requires task in FollowUp(r, now, done)
    ensures task.id == done.id
    ensures task.Registering? ==> task.action == r.action
    ensures task.SendDeployed? ==> r.IsSuccessfullyDeployed()
  {
  }

  // A task added by a step is well-formed in the state after it.
  lemma NewTaskIsOk(s: Store, now: int, e: Event, task: Task)
    requires Inv(s) && Enabled(s, now, e) && task in Apply(s, now, e).tasks && task !in s.tasks
    ensures TaskOk(Apply(s, now, e), task)
  {
    match e
    case PutResult(id, node, gwid, state) => WorkloadKeyed(s.reservations[id], node, gwid, state);
    case PutDeleted(id, node, gwid) =>
      RemovalIsWellKeyed(s.reservations[id].Workloads(), s.reservations[id].results, gwid);
    case Do(done) => FollowUpIsOk(s.reservations[done.id], now, done, task);
    case _ =>
  }

  lemma StepKeepsInv(s: Store, now: int, e: Event)
    requires Inv(s) && Enabled(s, now, e)
    ensures Inv(Apply(s, now, e))
  {
    KeepsReservations(s, now, e);
    forall task | task in Apply(s, now, e).tasks
      ensures TaskOk(Apply(s, now, e), task)
    {
      if task in s.tasks {
        TaskStaysOk(s, now, e, task);
      } else {
        NewTaskIsOk(s, now, e, task);
      }
    }
  }

  // ---------- Runs ----------

  predicate Init(s: Store) {
    s == Store(map[], multiset{})
  }

  // times[i] is the time of step i; the clock never goes back.
  ghost predicate IsRun(stores: seq<Store>, times: seq<int>, events: seq<Event>) {
    && |stores| == |events| + 1 && |times| == |stores|
    && Init(stores[0])
    && (forall i | 0 <= i < |events| :: times[i] <= times[i + 1])
    && (forall i {:trigger events[i]} | 0 <= i < |events| ::
          Enabled(stores[i], times[i], events[i]) && stores[i + 1] == Apply(stores[i], times[i], events[i]))
  }

  lemma {:induction false} RunKeepsInv(stores: seq<Store>, times: seq<int>, events: seq<Event>, n: nat)
    requires IsRun(stores, times, events) && n < |stores|
    ensures Inv(stores[n])
  {
    if n == 0 {
    } else {
      RunKeepsInv(stores, times, events, n - 1);
      StepKeepsInv(stores[n - 1], times[n - 1], events[n - 1]);
    }
  }

  lemma {:induction false} ReservationsPersist(stores: seq<Store>, times: seq<int>, events: seq<Event>, m: nat, n: nat,
                                               id: Id)
    requires IsRun(stores, times, events) && m <= n < |stores| && id in stores[m].reservations
    ensures Persists(stores[m], stores[n], id)
    decreases n - m
  {
    if m == n {
      PersistsItself(stores[m], id);
    } else {
      ReservationsPersist(stores, times, events, m, n - 1, id);
      PersistsOneMore(stores, times, events, m, n, id);
    }
  }

  lemma PersistsOneMore(stores: seq<Store>, times: seq<int>, events: seq<Event>, m: nat, n: nat, id: Id)
    requires IsRun(stores, times, events) && m < n < |stores| && Persists(stores[m], stores[n - 1], id)
    ensures Persists(stores[m], stores[n], id)
  {
    ReservationRunStep(stores, times, events, n - 1, id);
    PersistsFurther(stores[m], stores[n - 1], stores[n], id);
  }

  lemma {:induction false} TimeGoesOn(stores: seq<Store>, times: seq<int>, events: seq<Event>, m: nat, n: nat)
    requires IsRun(stores, times, events) && m <= n < |stores|
    ensures times[m] <= times[n]
    decreases n - m
  {
    if m == n {
    } else {
      TimeGoesOn(stores, times, events, m, n - 1);
    }
  }

  predicate Persists(s: Store, s': Store, id: Id) {
    id in s.reservations && id in s'.reservations && Progress(s.reservations[id], s'.reservations[id])
  }

  lemma ReservationRunStep(stores: seq<Store>, times: seq<int>, events: seq<Event>, n: nat, id: Id)
    requires IsRun(stores, times, events) && n < |events| && id in stores[n].reservations
    ensures Persists(stores[n], stores[n + 1], id)
  {
    RunKeepsInv(stores, times, events, n);
    ReservationStep(stores[n], times[n], events[n], id);
  }

  lemma PersistsItself(s: Store, id: Id)
    requires id in s.reservations
    ensures Persists(s, s, id)
  {
  }

  lemma PersistsFurther(s: Store, s': Store, s'': Store, id: Id)
    requires Persists(s, s', id) && Persists(s', s'', id)
    ensures Persists(s, s'', id)
  {
  }

  // Once a reservation has expired or its delete quorum is reached, every later evaluation gives
  // Delete or Deleted, whatever handlers and escrow write in between; a stale Deploy included.
  lemma DoomIsForever(stores: seq<Store>, times: seq<int>, events: seq<Event>, m: nat, n: nat, id: Id)
    requires IsRun(stores, times, events) && m <= n < |stores| && id in stores[m].reservations
    requires stores[m].reservations[id].Doomed(times[m])
    ensures id in stores[n].reservations
    ensures Derive(times[n], stores[n].reservations[id]) in {Delete, Deleted}
  {
    ReservationsPersist(stores, times, events, m, n, id);
    TimeGoesOn(stores, times, events, m, n);
  }

  // In every reachable state, counting results is enough to know that every workload was
  // reported Ok under its own id and node.
  lemma DeployedIsSound(stores: seq<Store>, times: seq<int>, events: seq<Event>, n: nat, id: Id, w: Workload)
    requires IsRun(stores, times, events) && n < |stores| && id in stores[n].reservations
    requires stores[n].reservations[id].IsSuccessfullyDeployed() && w in stores[n].reservations[id].Workloads()
    ensures exists result :: result in stores[n].reservations[id].results
                          && result.state == Ok && result.id == w.id && result.node == w.node
  {
    RunKeepsInv(stores, times, events, n);
    DeployedMeansEveryWorkload(stores[n].reservations[id], w);
  }

  // Every stored reservation had at least an hour to go when it was first stored.
  lemma {:induction false} EveryReservationHadAnHour(stores: seq<Store>, times: seq<int>, events: seq<Event>, n: nat,
                                                    id: Id) returns (k: nat)
    requires IsRun(stores, times, events) && n < |stores| && id in stores[n].reservations
    ensures k < n && id !in stores[k].reservations && id in stores[k + 1].reservations
    ensures stores[n].reservations[id].expiration - times[k] >= 3600
  {
    var m := n - 1;
    if id in stores[m].reservations {
      k := EveryReservationHadAnHour(stores, times, events, m, id);
      ReservationRunStep(stores, times, events, m, id);
    } else {
      k := m;
      CreatedWithAnHour(stores[m], times[m], events[m], id);
    }
  }

  lemma CreatedWithAnHour(s: Store, now: int, e: Event, id: Id)
    requires Enabled(s, now, e) && id !in s.reservations && id in Apply(s, now, e).reservations
    ensures Apply(s, now, e).reservations[id].expiration - now >= 3600
  {
  }

  // ---------- Reachable stores ----------

  // Handlers can leave this store, and this to do, at this time.
  ghost predicate Reached(s: Store, now: int) {
    exists stores, times, events :: IsRun(stores, times, events) && stores[|events|] == s && times[|events|] == now
  }

  lemma StartIsReached(now: int)
    ensures Reached(Store(map[], multiset{}), now)
  {
    assert IsRun([Store(map[], multiset{})], [now], []);
  }

  lemma Reaches(s: Store, now: int, e: Event)
    requires Reached(s, now) && Enabled(s, now, e)
    ensures Reached(Apply(s, now, e), now)
  {
    var stores, times, events :| IsRun(stores, times, events) && stores[|events|] == s && times[|events|] == now;
    RunExtends(stores, times, events, e);
    var stores', times', events' := stores + [Apply(s, now, e)], times + [now], events + [e];
    assert stores'[|events'|] == Apply(s, now, e) && times'[|events'|] == now;
  }

  lemma RunExtends(stores: seq<Store>, times: seq<int>, events: seq<Event>, e: Event)
    requires IsRun(stores, times, events) && Enabled(stores[|events|], times[|events|], e)
    ensures IsRun(stores + [Apply(stores[|events|], times[|events|], e)], times + [times[|events|]], events + [e])
  {
    var last := Apply(stores[|events|], times[|events|], e);
    var stores', times', events' := stores + [last], times + [times[|events|]], events + [e];
    forall i | 0 <= i < |events'|
      ensures times'[i] <= times'[i + 1] && Enabled(stores'[i], times'[i], events'[i])
      ensures stores'[i + 1] == Apply(stores'[i], times'[i], events'[i])
    {
      if i < |events| {
        assert stores'[i] == stores[i] && stores'[i + 1] == stores[i + 1] && events'[i] == events[i];
      }
    }
  }
}
