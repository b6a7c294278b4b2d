/** Runs of the whole system in which something goes wrong that one would not expect. */
module SystemRuns {
  import opened Workloads
  import opened Pipeline
  import opened Reports
  import opened Lifecycle
  import opened Ledger
  import opened Settlement
  import opened Deletion
  import W = System
  import E = Escrow
  import G = EscrowGuards
  import S = EscrowSafety
  import T = EscrowTheorems
  import Horizon

  type World = W.World

  // ---------- Reachable worlds ----------

  ghost predicate Reachable(start: World, w: World) {
    exists worlds, events :: W.IsRun(worlds, events) && worlds[0] == start && worlds[|events|] == w
  }

  lemma Starts(start: World)
    requires W.Init(start)
    ensures Reachable(start, start)
  {
    assert W.IsRun([start], []);
  }

  lemma Next(start: World, w: World, e: W.Event)
    requires Reachable(start, w) && W.Enabled(w, e)
    ensures Reachable(start, W.Apply(w, e))
  {
    var worlds, events :| W.IsRun(worlds, events) && worlds[0] == start && worlds[|events|] == w;
    RunExtends(worlds, events, e);
    var worlds', events' := worlds + [W.Apply(w, e)], events + [e];
    assert worlds'[|events'|] == W.Apply(w, e);
  }

  lemma RunExtends(worlds: seq<World>, events: seq<W.Event>, e: W.Event)
    requires W.IsRun(worlds, events) && W.Enabled(worlds[|events|], e)
    ensures W.IsRun(worlds + [W.Apply(worlds[|events|], e)], events + [e])
  {
    var worlds', events' := worlds + [W.Apply(worlds[|events|], e)], events + [e];
    forall i | 0 <= i < |events'|
      ensures W.Enabled(worlds'[i], events'[i]) && worlds'[i + 1] == W.Apply(worlds'[i], events'[i])
    {
      if i < |events| {
        assert worlds'[i] == worlds[i] && worlds'[i + 1] == worlds[i + 1];
      }
    }
  }

  // The world with one reservation and what its handlers have left to do.
  function At(w: World, r: Reservation, tasks: multiset<Task>): World {
    w.(store := Store(map[r.id := r], tasks))
  }

  // A step of a handler that the escrow does not notice.
  predicate Unnoticed(e: Event) {
    && !e.SetDeploy? && !e.RegisterFree?
    && (e.Do? ==> !e.task.Registering? && !e.task.SendCancel? && !e.task.SendDeployed?)
  }

  lemma Handle(start: World, w: World, e: Event)
    requires Reachable(start, w) && Enabled(w.store, w.Now(), e) && Unnoticed(e)
    ensures Reachable(start, w.(store := Apply(w.store, w.Now(), e)))
  {
    assert W.Apply(w, W.Http(e)) == w.(store := Apply(w.store, w.Now(), e));
    Next(start, w, W.Http(e));
  }

  // A task that is done, and what it leaves to do.
  lemma Does(start: World, w: World, r: Reservation, others: multiset<Task>, task: Task)
    requires task.id == r.id && Reachable(start, At(w, r, others + multiset{task})) && Unnoticed(Do(task))
    ensures Reachable(start, At(w, Update(r, task), others + FollowUp(r, w.Now(), task)))
  {
    Handle(start, At(w, r, others + multiset{task}), Do(task));
    assert others + multiset{task} - multiset{task} == others;
    assert map[r.id := r][r.id := Update(r, task)] == map[r.id := Update(r, task)];
  }

  // A reservation of one workload that needs no signatures.
  predicate Simple(r: Reservation, now: int, w: Workload) {
    && r.action == Action.Create && r.provisionSignatures == [] && r.deleteSignatures == [] && r.results == []
    && r.expiration - now >= HOUR && r.provisioning >= now && r.provision.quorum == 0 && r.deletion.quorum == 0
    && w.node != "" && r.Workloads() == [w]
  }

  // There is one for every id, item and time.
  lemma SimpleExists(id: Id, item: Item, now: int) returns (r: Reservation, w: Workload)
    requires item.node != ""
    ensures Simple(r, now, w) && r.id == id && w.node == item.node
  {
    var data := Data([item], [], [], [], [], [], [], [], [], []);
    r := Reservation(id, data, now + HOUR, now, Request([], 0), Request([], 0), Action.Create, [], [], []);
    w := Workload(Gwid(id, item.workload), Container, item.node);
    assert AllWorkloads(id, data) == Tag(id, Container, [item]) == [w];
  }

  // It is created and read back by its handler, which is about to hand it to the escrow.
  lemma RegisteringIsReachable(start: World, r: Reservation, w: Workload)
    requires W.Init(start) && Simple(r, start.Now(), w)
    ensures Reachable(start, At(start, r.(action := Pay), multiset{Registering(r.id, Pay)}))
  {
    var paying := r.(action := Pay);
    Starts(start);
    Handle(start, start, Event.Create(r));
    assert map[][r.id := paying] == map[r.id := paying];
    assert multiset{} + multiset{ReadBack(r.id)} == multiset{ReadBack(r.id)};
    Does(start, start, paying, multiset{}, ReadBack(r.id));
    assert multiset{} + multiset{Registering(r.id, Pay)} == multiset{Registering(r.id, Pay)};
  }

  function Removal(w: Workload): Result { Result(w.id, "", Removed) }

  function DeletedBy(r: Reservation, w: Workload): Reservation {
    r.(action := Deleted, results := [Removal(w)])
  }

  // At any time its node can report the workload as removed, and it is stored as Deleted. Whatever
  // the escrow was about to do it still is.
  lemma DeletedIsReachable(start: World, world: World, r: Reservation, w: Workload, others: multiset<Task>)
    requires Reachable(start, At(world, r, others)) && r.results == [] && r.Workloads() == [w] && w.node != ""
    ensures Reachable(start, At(world, DeletedBy(r, w), others))
  {
    HasItsWorkload(r, w);
    Handle(start, At(world, r, others), PutDeleted(r.id, w.node, w.id));
    Does(start, world, r, others, PushRemoval(r.id, Removal(w)));
    var removed := r.(results := [Removal(w)]);
    assert PushReport([], Removal(w)) == [Removal(w)];
    OneRemoved(removed, w);
    Does(start, world, removed, others, CheckRemoved(r.id));
    Does(start, world, removed, others, WriteDeleted(r.id));
    assert others + multiset{} == others;
  }

  lemma HasItsWorkload(r: Reservation, w: Workload)
    requires r.Workloads() == [w] && w.node != ""
    ensures HasWorkload(r, w.node, w.id)
  {
    assert [w][..0] == [];
    assert OnNode([w], w.node) == [w];
  }

  lemma OneRemoved(r: Reservation, w: Workload)
    requires r.Workloads() == [w] && r.results == [Removal(w)]
    ensures AllRemoved(r)
  {
  }

  predicate Stored(w: World, id: Id, action: Action) {
    w.Has(id) && w.store.reservations[id].action == action
  }

  // ---------- A deletion that is undone ----------

  // A late error report writes Delete over Deleted.
  lemma LateErrorUndeletes(start: World, r: Reservation, w: Workload) returns (before: World, after: World)
    requires W.Init(start) && Simple(r, start.Now(), w)
    ensures Reachable(start, before) && Stored(before, r.id, Deleted)
    ensures DeleteIsWritten(before, after, r.id)
  {
    var deleted, error := DeletedBy(r.(action := Pay), w), Result(w.id, w.node, Error);
    var reported := deleted.(results := PushReport(deleted.results, error));
    LateErrorIsReachable(start, r, w, deleted, reported);
    before, after := DeletesNext(start, reported, multiset{Registering(r.id, Pay)});
  }

  ghost predicate DeleteIsWritten(before: World, after: World, id: Id) {
    && W.Enabled(before, W.Http(Do(WriteDelete(id)))) && after == W.Apply(before, W.Http(Do(WriteDelete(id))))
    && Stored(after, id, Delete)
  }

  lemma DeletesNext(world: World, r: Reservation, others: multiset<Task>) returns (before: World, after: World)
    ensures before == At(world, r, others + multiset{WriteDelete(r.id)}) && DeleteIsWritten(before, after, r.id)
  {
    before := At(world, r, others + multiset{WriteDelete(r.id)});
    after := W.Apply(before, W.Http(Do(WriteDelete(r.id))));
  }

  lemma LateErrorIsReachable(start: World, r: Reservation, w: Workload, deleted: Reservation, reported: Reservation)
    requires W.Init(start) && Simple(r, start.Now(), w) && deleted == DeletedBy(r.(action := Pay), w)
    requires reported == deleted.(results := PushReport(deleted.results, Result(w.id, w.node, Error)))
    ensures Reachable(start, At(start, reported, multiset{Registering(r.id, Pay)} + multiset{WriteDelete(r.id)}))
  {
    var others := multiset{Registering(r.id, Pay)};
    RegisteringIsReachable(start, r, w);
    DeletedIsReachable(start, start, r.(action := Pay), w, others);
    ErrorIsReported(start, start, deleted, w, others);
    CancelIsSent(start, start, reported, others);
  }

  lemma ErrorIsReported(start: World, world: World, r: Reservation, w: Workload, others: multiset<Task>)
    requires Reachable(start, At(world, r, others)) && r.Workloads() == [w] && w.node != ""
    ensures var reported := r.(results := PushReport(r.results, Result(w.id, w.node, Error)));
            Reachable(start, At(world, reported, others + multiset{SendCancel(r.id)}))
  {
    HasItsWorkload(r, w);
    Handle(start, At(world, r, others), PutResult(r.id, w.node, w.id, Error));
    Does(start, world, r, others, PushResult(r.id, Result(w.id, w.node, Error)));
  }

  // The loop does not know the reservation.
  lemma CancelIsSent(start: World, world: World, r: Reservation, others: multiset<Task>)
    requires world.escrow.loop.Idle? && r.id !in world.escrow.docs
    requires Reachable(start, At(world, r, others + multiset{SendCancel(r.id)}))
    ensures Reachable(start, At(world, r, others + multiset{WriteDelete(r.id)}))
  {
    var w := At(world, r, others + multiset{SendCancel(r.id)});
    LoopIgnores(world.escrow, r.id);
    Sends(w.store, w.Now(), r, others);
    Next(start, w, W.Cancel(SendCancel(r.id)));
    assert W.Apply(w, W.Cancel(SendCancel(r.id))).escrow == world.escrow;
  }

  lemma LoopIgnores(s: E.State, id: Id)
    requires s.loop.Idle? && id !in s.docs
    ensures E.SafeStep(s, E.CancelMessage(id)) && E.Apply(s, E.CancelMessage(id)) == s
    ensures E.SafeStep(s, E.Clock(s.now)) && E.Apply(s, E.Clock(s.now)) == s
  {
  }

  lemma Sends(s: Store, now: int, r: Reservation, others: multiset<Task>)
    requires s == Store(map[r.id := r], others + multiset{SendCancel(r.id)})
    ensures Enabled(s, now, Do(SendCancel(r.id)))
    ensures Apply(s, now, Do(SendCancel(r.id))) == Store(map[r.id := r], others + multiset{WriteDelete(r.id)})
  {
    assert others + multiset{SendCancel(r.id)} - multiset{SendCancel(r.id)} == others;
    assert map[r.id := r][r.id := r] == map[r.id := r];
  }

  // So does listing it: it expires, a list request reads it as Delete and sends the cancellation, its
  // node reports the removal, and the list's Delete is written. No error is reported at all.
  lemma ListUndeletes(start: World, r: Reservation, w: Workload) returns (before: World, after: World)
    requires W.Init(start) && Simple(r, start.Now(), w)
    ensures Reachable(start, before) && Stored(before, r.id, Deleted)
    ensures before.store.reservations[r.id].results == [Removal(w)]
    ensures DeleteIsWritten(before, after, r.id)
  {
    var paying, others := r.(action := Pay), multiset{Registering(r.id, Pay)};
    var later := start.(escrow := start.escrow.(now := r.expiration));
    RegisteringIsReachable(start, r, w);
    TimePasses(start, At(start, paying, others), r.expiration);
    assert At(start, paying, others).(escrow := later.escrow) == At(later, paying, others);
    ListIsRead(start, later, paying, others);
    CancelIsSent(start, later, paying, others);
    DeletedIsReachable(start, later, paying, w, others + multiset{WriteDelete(r.id)});
    before, after := DeletesNext(later, DeletedBy(paying, w), others);
  }

  lemma TimePasses(start: World, w: World, until: int)
    requires Reachable(start, w) && w.Now() <= until
    ensures Reachable(start, w.(escrow := w.escrow.(now := until)))
  {
    assert W.Apply(w, W.Escrow(E.Clock(until))) == w.(escrow := w.escrow.(now := until));
    Next(start, w, W.Escrow(E.Clock(until)));
  }

  lemma ListIsRead(start: World, world: World, r: Reservation, others: multiset<Task>)
    requires Reachable(start, At(world, r, others)) && r.action == Pay && r.expiration <= world.Now()
    ensures Reachable(start, At(world, r, others + multiset{SendCancel(r.id)}))
  {
    Handle(start, At(world, r, others), List(r.id));
  }

  // The free escrow acts on the Pay it was handed: the reservation is stored as Deploy, and derived
  // as Deploy.
  lemma StaleDeployUndeletes(start: World, r: Reservation, w: Workload) returns (before: World, after: World)
    requires W.Init(start) && start.free && Simple(r, start.Now(), w)
    ensures Reachable(start, before) && Stored(before, r.id, Deleted)
    ensures var e := W.RegisterFree(Registering(r.id, Pay));
            W.Enabled(before, e) && after == W.Apply(before, e)
    ensures Stored(after, r.id, Deploy) && Derive(after.Now(), after.store.reservations[r.id]) == Deploy
  {
    var deleted := DeletedBy(r.(action := Pay), w);
    RegisteringIsReachable(start, r, w);
    DeletedIsReachable(start, start, r.(action := Pay), w, multiset{Registering(r.id, Pay)});
    StillDeploys(start.Now(), r, w);
    before := At(start, deleted, multiset{Registering(r.id, Pay)});
    after := FreeOverwrites(before, deleted);
  }

  lemma FreeOverwrites(before: World, r: Reservation) returns (after: World)
    requires before == At(before, r, multiset{Registering(r.id, Pay)}) && before.free
    ensures var e := W.RegisterFree(Registering(r.id, Pay));
            W.Enabled(before, e) && after == W.Apply(before, e)
    ensures r.id in after.store.reservations && after.store.reservations[r.id] == r.(action := Deploy)
    ensures after.Now() == before.Now()
  {
    after := W.Apply(before, W.RegisterFree(Registering(r.id, Pay)));
  }

  lemma StillDeploys(now: int, r: Reservation, w: Workload)
    requires Simple(r, now, w)
    ensures Derive(now, DeletedBy(r.(action := Pay), w).(action := Deploy)) == Deploy
  {
  }

  // So does the escrow loop, which writes Deploy after it read the reservation in state Pay.
  lemma StaleLoopUndeletes(start: World, r: Reservation, w: Workload, d: E.PaymentInfo, client: string, n: nat)
    returns (before: World, after: World)
    requires W.Init(start) && Simple(r, start.Now(), w) && PaidBy(start, r, d, client, n)
    ensures Reachable(start, before) && Stored(before, r.id, Deleted)
    ensures W.Enabled(before, W.StoreDeploy) && after == W.Apply(before, W.StoreDeploy)
    ensures Stored(after, r.id, Deploy) && Derive(after.Now(), after.store.reservations[r.id]) == Deploy
  {
    var deleted := DeletedBy(r.(action := Pay), w);
    var reading := LoopReads(start, r, w, d, client, n);
    DeletedIsReachable(start, reading, r.(action := Pay), w, multiset{});
    StillDeploys(start.Now(), r, w);
    before := At(reading, deleted, multiset{});
    after := LoopOverwrites(before, deleted, d);
  }

  lemma LoopOverwrites(before: World, r: Reservation, d: E.PaymentInfo) returns (after: World)
    requires before.escrow.loop == E.Deploying(d, []) && d.id == r.id && before.store.reservations == map[r.id := r]
    ensures W.Enabled(before, W.StoreDeploy) && after == W.Apply(before, W.StoreDeploy)
    ensures r.id in after.store.reservations && after.store.reservations[r.id] == r.(action := Deploy)
    ensures after.Now() == before.Now()
  {
    after := W.Apply(before, W.StoreDeploy);
  }

  // A document for which its client pays n in time.
  ghost predicate PaidBy(start: World, r: Reservation, d: E.PaymentInfo, client: string, n: nat) {
    && d.id == r.id && d.expiration == r.provisioning
    && !start.free && start.escrow.accounts == {d.address} && d.Open() && E.Active(d, start.Now())
    && Admissible(d.infos) && d.Price() == n && client != d.address
  }

  lemma LoopReads(start: World, r: Reservation, w: Workload, d: E.PaymentInfo, client: string, n: nat)
    returns (reading: World)
    requires W.Init(start) && Simple(r, start.Now(), w) && PaidBy(start, r, d, client, n)
    ensures reading.escrow == PaidFor(start, d, client, n).(loop := E.Deploying(d, []))
    ensures Reachable(start, At(reading, r.(action := Pay), multiset{}))
  {
    var s := PaidFor(start, d, client, n);
    PaidForIsReachable(start, r, w, d, client, n);
    LoopFunds(start, r.(action := Pay), s, d);
    reading := On(s.(loop := E.Deploying(d, [])), r.(action := Pay), multiset{});
    assert At(reading, r.(action := Pay), multiset{}) == reading;
  }

  // The loop with one document, for which its client has paid.
  function PaidFor(start: World, d: E.PaymentInfo, client: string, n: nat): E.State {
    start.escrow.(docs := map[d.id := d], journal := [E.Received(G.Paying(d, n, client))])
  }

  // The paid world with this loop, this reservation and these tasks.
  function On(s: E.State, r: Reservation, tasks: multiset<Task>): World {
    W.World(false, s, Store(map[r.id := r], tasks))
  }

  lemma PaidForIsReachable(start: World, r: Reservation, w: Workload, d: E.PaymentInfo, client: string, n: nat)
    requires W.Init(start) && Simple(r, start.Now(), w) && PaidBy(start, r, d, client, n)
    ensures Reachable(start, On(PaidFor(start, d, client, n), r.(action := Pay), multiset{}))
    ensures E.BalanceOf(PaidFor(start, d, client, n), d) == n
  {
    RegisteringIsReachable(start, r, w);
    LoopIsTold(start, r.(action := Pay), d);
    PaymentArrives(start, r.(action := Pay), start.escrow.(docs := map[d.id := d]), d, client, n);
  }

  lemma PaymentArrives(start: World, r: Reservation, s: E.State, d: E.PaymentInfo, client: string, n: nat)
    requires Reachable(start, On(s, r, multiset{}))
    requires s.journal == [] && s.accounts == {d.address} && client != d.address
    ensures var after := s.(journal := [E.Received(G.Paying(d, n, client))]);
            Reachable(start, On(after, r, multiset{})) && E.BalanceOf(after, d) == n
  {
    var tx := G.Paying(d, n, client);
    G.Paid(tx, client, d, ForReservation(d.id), n);
    G.OneTx(tx, d.address, ForReservation(d.id), d.asset);
    assert [] + [E.Received(tx)] == [E.Received(tx)];
    EscrowDoes(start, On(s, r, multiset{}), E.Receive(tx), s.(journal := [E.Received(tx)]));
  }

  // Registration reaches the loop.
  lemma LoopIsTold(start: World, r: Reservation, d: E.PaymentInfo)
    requires W.Init(start) && !start.free && start.escrow.accounts == {d.address} && d.Open() && !d.paid
    requires Admissible(d.infos) && d.id == r.id && d.expiration == r.provisioning
    requires Reachable(start, At(start, r, multiset{Registering(r.id, Pay)}))
    ensures Reachable(start, W.World(false, start.escrow.(docs := map[d.id := d]), Store(map[r.id := r], multiset{})))
  {
    var w := At(start, r, multiset{Registering(r.id, Pay)});
    assert map[][d.id := d] == map[d.id := d] && map[r.id := r][r.id := r] == map[r.id := r];
    Next(start, w, W.Register(Registering(r.id, Pay), d));
  }

  lemma EscrowDoes(start: World, w: World, e: E.Event, s: E.State)
    requires Reachable(start, w) && !w.free && W.Alone(e) && E.SafeStep(w.escrow, e) && s == E.Apply(w.escrow, e)
    ensures Reachable(start, w.(escrow := s))
  {
    EscrowAlone(w, e);
    Next(start, w, W.Escrow(e));
  }

  lemma EscrowAlone(w: World, e: E.Event)
    requires !w.free && W.Alone(e) && E.SafeStep(w.escrow, e)
    ensures W.Enabled(w, W.Escrow(e))
    ensures W.Apply(w, W.Escrow(e)) == w.(escrow := E.Apply(w.escrow, e))
  {
    assert W.EscrowPart(w, W.Escrow(e)) == e && W.StorePart(w, W.Escrow(e)) == Wait;
    assert Enabled(w.store, w.Now(), Wait) && Apply(w.store, w.Now(), Wait) == w.store;
  }

  // A tick finds the money, and reads the reservation in state Pay.
  lemma LoopFunds(start: World, r: Reservation, s: E.State, d: E.PaymentInfo)
    requires Reachable(start, On(s, r, multiset{})) && d.id == r.id && Derive(s.now, r) == Pay
    requires s.loop.Idle? && s.docs == map[d.id := d] && E.Active(d, s.now) && E.BalanceOf(s, d) >= d.Price()
    ensures Reachable(start, On(s.(loop := E.Deploying(d, [])), r, multiset{}))
  {
    G.PollStarts(s, d);
    EscrowDoes(start, On(s, r, multiset{}), E.StartPoll([d]), s.(loop := E.Polling([d])));
    G.PollReads(s.(loop := E.Polling([d])), d);
    EscrowDoes(start, On(s.(loop := E.Polling([d])), r, multiset{}), E.Poll({}), s.(loop := E.Funded(d, [])));
    LoopLoads(start, r, s, d, multiset{});
  }

  lemma LoopLoads(start: World, r: Reservation, s: E.State, d: E.PaymentInfo, tasks: multiset<Task>)
    requires Reachable(start, On(s.(loop := E.Funded(d, [])), r, tasks)) && d.id == r.id && Derive(s.now, r) == Pay
    ensures Reachable(start, On(s.(loop := E.Deploying(d, [])), r, tasks))
  {
    Next(start, On(s.(loop := E.Funded(d, [])), r, tasks), W.Load);
  }

  lemma LoopStores(start: World, r: Reservation, s: E.State, d: E.PaymentInfo, tasks: multiset<Task>)
    requires Reachable(start, On(s.(loop := E.Deploying(d, [])), r, tasks)) && d.id == r.id
    ensures Reachable(start, On(s.(loop := E.Marking(d, [])), r.(action := Deploy), tasks))
  {
    assert map[r.id := r][r.id := r.(action := Deploy)] == map[r.id := r.(action := Deploy)];
    Next(start, On(s.(loop := E.Deploying(d, [])), r, tasks), W.StoreDeploy);
  }

  // ---------- A canceled escrow ----------

  // A refund of everything to the only client, whatever it is for.
  lemma RefundIsMade(start: World, s: E.State, d: E.PaymentInfo, goal: E.Goal, n: nat, client: string, r: Reservation,
                     tasks: multiset<Task>)
    requires Reachable(start, On(s, r, tasks)) && s.loop == E.Returning(d, goal) && !goal.Release?
    requires s.docs == map[d.id := d] && s.journal == [E.Received(G.Paying(d, n, client))]
    requires n > 0 && client != d.address
    ensures Reachable(start, On(Refunded(s, d, goal, n, client), r, tasks))
    ensures E.Chain(Refunded(s, d, goal, n, client).journal) == G.InAndOut(d, client, client, n)
  {
    var s1 := s.(loop := E.Refunding(d, n, client, goal));
    var s2 := s.(journal := G.Back(d, n, client), loop := E.Recording(d, goal));
    G.ReadsAll(s, d, goal, n, client);
    EscrowDoes(start, On(s, r, tasks), E.ReadFunds({}, client), s1);
    G.SubmitsAll(s1, d, goal, n, client);
    EscrowDoes(start, On(s1, r, tasks), E.SubmitRefund, s2);
    G.RecordsCanceled(s2, d, goal);
    EscrowDoes(start, On(s2, r, tasks), E.Record, Refunded(s, d, goal, n, client));
    G.BackChain(d, n, client);
  }

  function Refunded(s: E.State, d: E.PaymentInfo, goal: E.Goal, n: nat, client: string): E.State {
    s.(journal := G.Back(d, n, client), docs := map[d.id := d.(canceled := true)], loop := E.Done(goal))
  }

  // Paid for and deployed, it is not reported in time. It is refunded and canceled, and then its
  // last workload is reported after all: it is derived as Deploy, and nothing is left under its memo.
  lemma LateReportDeploys(start: World, r: Reservation, w: Workload, d: E.PaymentInfo, client: string, n: nat)
    returns (world: World)
    requires W.Init(start) && Simple(r, start.Now(), w) && PaidBy(start, r, d, client, n) && n > 0
    requires r.provisioning + 1 < r.expiration
    ensures Reachable(start, world) && Stored(world, r.id, Deploy) && r.provisioning < world.Now()
    ensures Derive(world.Now(), world.store.reservations[r.id]) == Deploy
    ensures r.id in world.escrow.docs && world.escrow.docs[r.id].canceled && E.BalanceOf(world.escrow, d) == 0
  {
    var deploying := r.(action := Deploy);
    var s := SweptIsReachable(start, r, w, d, client, n);
    OkIsReported(start, On(s, deploying, multiset{}), deploying, w, multiset{});
    world := At(On(s, deploying, multiset{}), deploying.(results := [Result(w.id, w.node, Ok)]),
                multiset{} + multiset{CheckDeployed(r.id)});
    LateButReported(world.Now(), deploying.(results := [Result(w.id, w.node, Ok)]), w);
  }

  lemma LateButReported(now: int, r: Reservation, w: Workload)
    requires r.Workloads() == [w] && r.results == [Result(w.id, w.node, Ok)] && r.action == Deploy
    requires now < r.expiration && r.deletion.quorum == 0
    ensures Derive(now, r) == Deploy
  {
    OneReported(r, w);
  }

  lemma SweptIsReachable(start: World, r: Reservation, w: Workload, d: E.PaymentInfo, client: string, n: nat)
    returns (s: E.State)
    requires W.Init(start) && Simple(r, start.Now(), w) && PaidBy(start, r, d, client, n) && n > 0
    ensures Reachable(start, On(s, r.(action := Deploy), multiset{})) && s.now == r.provisioning + 1
    ensures d.id in s.docs && s.docs[d.id].canceled && E.BalanceOf(s, d) == 0
  {
    var deploying, paid := r.(action := Deploy), d.(paid := true);
    DeployedIsReachable(start, r, w, d, client, n);
    var s0 := PaidFor(start, d, client, n).(docs := map[d.id := paid], loop := E.Polling([]));
    LoopRests(start, deploying, s0, paid);
    var s1 := s0.(loop := E.Idle, now := r.provisioning + 1);
    TimePasses(start, On(s0.(loop := E.Idle), deploying, multiset{}), r.provisioning + 1);
    LoopSweeps(start, deploying, s1, paid);
    var s2 := s1.(loop := E.Returning(paid, E.Expire([])));
    RefundIsMade(start, s2, paid, E.Expire([]), n, client, deploying, multiset{});
    s := Refunded(s2, paid, E.Expire([]), n, client);
    Horizon.FirstLookupFails(d.address, client, client, ForReservation(d.id), d.asset, n);
  }

  lemma DeployedIsReachable(start: World, r: Reservation, w: Workload, d: E.PaymentInfo, client: string, n: nat)
    requires W.Init(start) && Simple(r, start.Now(), w) && PaidBy(start, r, d, client, n)
    ensures var s := PaidFor(start, d, client, n).(docs := map[d.id := d.(paid := true)], loop := E.Polling([]));
            Reachable(start, On(s, r.(action := Deploy), multiset{}))
  {
    var paying, s := r.(action := Pay), PaidFor(start, d, client, n);
    PaidForIsReachable(start, r, w, d, client, n);
    LoopFunds(start, paying, s, d);
    LoopStores(start, paying, s, d, multiset{});
    var marking := s.(loop := E.Marking(d, []));
    G.MarkingWrites(marking, d);
    EscrowDoes(start, On(marking, r.(action := Deploy), multiset{}), E.WritePaid,
               marking.(docs := map[d.id := d.(paid := true)], loop := E.Polling([])));
  }

  // The end of a tick in which nothing is expired.
  lemma LoopRests(start: World, r: Reservation, s: E.State, d: E.PaymentInfo)
    requires Reachable(start, On(s, r, multiset{})) && s.loop == E.Polling([]) && s.docs == map[d.id := d]
    requires !E.Expired(d, s.now)
    ensures Reachable(start, On(s.(loop := E.Idle), r, multiset{}))
  {
    EscrowDoes(start, On(s, r, multiset{}), E.StartSweep([]), s.(loop := E.Sweeping([])));
    EscrowDoes(start, On(s.(loop := E.Sweeping([])), r, multiset{}), E.EndTick, s.(loop := E.Idle));
  }

  // A tick in which the only document is.
  lemma LoopSweeps(start: World, r: Reservation, s: E.State, d: E.PaymentInfo)
    requires Reachable(start, On(s, r, multiset{})) && s.loop.Idle? && s.docs == map[d.id := d]
    requires d.paid && E.Expired(d, s.now)
    ensures Reachable(start, On(s.(loop := E.Returning(d, E.Expire([]))), r, multiset{}))
  {
    G.SweepStarts(s, d);
    EscrowDoes(start, On(s, r, multiset{}), E.StartPoll([]), s.(loop := E.Polling([])));
    G.SweepStarts(s.(loop := E.Polling([])), d);
    EscrowDoes(start, On(s.(loop := E.Polling([])), r, multiset{}), E.StartSweep([d]), s.(loop := E.Sweeping([d])));
    G.SweepStarts(s.(loop := E.Sweeping([d])), d);
    EscrowDoes(start, On(s.(loop := E.Sweeping([d])), r, multiset{}), E.Sweep,
               s.(loop := E.Returning(d, E.Expire([]))));
  }

  lemma OkIsReported(start: World, world: World, r: Reservation, w: Workload, others: multiset<Task>)
    requires Reachable(start, At(world, r, others)) && r.Workloads() == [w] && w.node != "" && r.results == []
    ensures var reported := r.(results := [Result(w.id, w.node, Ok)]);
            Reachable(start, At(world, reported, others + multiset{CheckDeployed(r.id)}))
  {
    HasItsWorkload(r, w);
    Handle(start, At(world, r, others), PutResult(r.id, w.node, w.id, Ok));
    Does(start, world, r, others, PushResult(r.id, Result(w.id, w.node, Ok)));
    assert PushReport([], Result(w.id, w.node, Ok)) == [Result(w.id, w.node, Ok)];
  }

  // Paid for, it is reported as broken, and its client is refunded. Before Delete is written the loop
  // polls the canceled document, misses the refund, reads the payment again, and writes Deploy: the
  // reservation is stored as Deploy, and nothing is left under its memo.
  lemma RefundedIsDeployed(start: World, r: Reservation, w: Workload, d: E.PaymentInfo, client: string, n: nat)
    returns (world: World)
    requires W.Init(start) && Simple(r, start.Now(), w) && PaidBy(start, r, d, client, n) && n > 0
    ensures Reachable(start, world) && Stored(world, r.id, Deploy)
    ensures r.id in world.escrow.docs && world.escrow.docs[r.id].canceled && E.BalanceOf(world.escrow, d) == 0
  {
    var tasks, canceled := multiset{WriteDelete(r.id)}, d.(canceled := true);
    var reported := r.(action := Pay, results := [Result(w.id, w.node, Error)]);
    BrokenIsRefunded(start, r, w, d, client, n);
    var s := Refunded(PaidFor(start, d, client, n), d, E.Cancel, n, client);
    G.BackChain(d, n, client);
    LoopPollsRefunded(start, reported, s, canceled, client, tasks);
    LoopLoads(start, reported, s, canceled, tasks);
    LoopStores(start, reported, s, canceled, tasks);
    world := On(s.(loop := E.Marking(canceled, [])), reported.(action := Deploy), tasks);
    Horizon.FirstLookupFails(d.address, client, client, ForReservation(d.id), d.asset, n);
  }

  lemma BrokenIsRefunded(start: World, r: Reservation, w: Workload, d: E.PaymentInfo, client: string, n: nat)
    requires W.Init(start) && Simple(r, start.Now(), w) && PaidBy(start, r, d, client, n) && n > 0
    ensures var reported := r.(action := Pay, results := [Result(w.id, w.node, Error)]);
            Reachable(start, On(Refunded(PaidFor(start, d, client, n), d, E.Cancel, n, client), reported,
                                multiset{WriteDelete(r.id)}))
  {
    var s, paying := PaidFor(start, d, client, n), r.(action := Pay);
    var reported := paying.(results := [Result(w.id, w.node, Error)]);
    PaidForIsReachable(start, r, w, d, client, n);
    assert At(On(s, paying, multiset{}), paying, multiset{}) == On(s, paying, multiset{});
    ErrorIsReported(start, On(s, paying, multiset{}), paying, w, multiset{});
    assert PushReport([], Result(w.id, w.node, Error)) == [Result(w.id, w.node, Error)];
    LoopIsCanceled(start, reported, s, d);
    RefundIsMade(start, s.(loop := E.Returning(d, E.Cancel)), d, E.Cancel, n, client, reported,
                 multiset{WriteDelete(r.id)});
  }

  lemma LoopIsCanceled(start: World, r: Reservation, s: E.State, d: E.PaymentInfo)
    requires Reachable(start, On(s, r, multiset{} + multiset{SendCancel(r.id)})) && s.loop.Idle?
    requires s.docs == map[d.id := d] && d.id == r.id && d.Open()
    ensures Reachable(start, On(s.(loop := E.Returning(d, E.Cancel)), r, multiset{WriteDelete(r.id)}))
  {
    var w := On(s, r, multiset{} + multiset{SendCancel(r.id)});
    Sends(w.store, w.Now(), r, multiset{});
    Next(start, w, W.Cancel(SendCancel(r.id)));
    assert multiset{} + multiset{WriteDelete(r.id)} == multiset{WriteDelete(r.id)};
  }

  lemma LoopPollsRefunded(start: World, r: Reservation, s: E.State, d: E.PaymentInfo, client: string,
                          tasks: multiset<Task>)
    requires Reachable(start, On(s, r, tasks)) && s.loop.Idle? && s.docs == map[d.id := d] && E.Active(d, s.now)
    requires d.Price() > 0 && client != d.address && E.Chain(s.journal) == G.InAndOut(d, client, client, d.Price())
    ensures Reachable(start, On(s.(loop := E.Funded(d, [])), r, tasks))
  {
    var polling := s.(loop := E.Polling([d]));
    G.PollStarts(s, d);
    EscrowDoes(start, On(s, r, tasks), E.StartPoll([d]), polling);
    G.PollsRefunded(polling, d, client);
    EscrowDoes(start, On(polling, r, tasks), E.Poll({1}), s.(loop := E.Funded(d, [])));
  }

  // ---------- Deployed without being paid for ----------

  lemma OneReported(r: Reservation, w: Workload)
    requires r.Workloads() == [w] && r.results == [Result(w.id, w.node, Ok)]
    ensures r.IsSuccessfullyDeployed() && PushReport([], Result(w.id, w.node, Ok)) == r.results
  {
  }

  // An Ok report is taken in any state: nodes can report a reservation that is still at Pay, and the
  // escrow is told that it is deployed.
  lemma UnpaidIsReportedDeployed(start: World, r: Reservation, w: Workload) returns (world: World)
    requires W.Init(start) && Simple(r, start.Now(), w)
    ensures Reachable(start, world) && Stored(world, r.id, Pay) && SendDeployed(r.id) in world.store.tasks
  {
    var others, paying := multiset{Registering(r.id, Pay)}, r.(action := Pay);
    RegisteringIsReachable(start, r, w);
    OkIsReported(start, start, paying, w, others);
    var reported := paying.(results := [Result(w.id, w.node, Ok)]);
    OneReported(reported, w);
    Does(start, start, reported, others, CheckDeployed(r.id));
    world := At(start, reported, others + multiset{SendDeployed(r.id)});
  }
}
