/** The whole explorer: HTTP handlers, escrow loop, ledger and clock, interleaved step by step. */
module System {
  import opened Pipeline
  import L = Lifecycle
  import E = Escrow
  import R = Reports
  import S = EscrowSafety
  import T = EscrowTheorems
  import V = Validation

  // `free` is the escrow that makes every reservation free; it has no loop.
  datatype World = World(free: bool, escrow: E.State, store: L.Store) {
    function Now(): int { escrow.now }

    predicate Has(id: Id) { id in store.reservations }
  }

  datatype Event =
    | Escrow(e: E.Event)                                                     // the loop, the ledger or the clock alone
    | Http(h: L.Event)                                                       // a handler alone
    | Load                                                                   // the loop reads a reservation
    | StoreDeploy                                                            // the loop writes Deploy
    | Register(task: L.Task, doc: E.PaymentInfo)                             // create reaches the loop
    | RegisterFails(task: L.Task)
    | RegisterFree(task: L.Task)
    | Cancel(task: L.Task)                                                   // setReservationDeleted reaches the loop
    | Deployed(task: L.Task, wallets: map<int, string>, submitted: bool)  // a result reaches the loop

  // Escrow steps that neither read nor write reservations nor receive messages.
  predicate Alone(e: E.Event) {
    !e.ReadReservation? && !e.WriteDeploy? && !e.Register? && !e.CancelMessage? && !e.DeployedMessage?
  }

  // The escrow's part in a step. Setting the clock to what it is changes nothing.
  function EscrowPart(w: World, e: Event): E.Event {
    match e
    case Escrow(x) => x
    case Load =>
      if w.escrow.loop.Funded? && w.Has(w.escrow.loop.doc.id)
      then E.ReadReservation(Derive(w.Now(), w.store.reservations[w.escrow.loop.doc.id]) == Pay)
      else E.Clock(w.Now())
    case StoreDeploy => E.WriteDeploy
    case Register(_, doc) => E.Register(doc)
    case Cancel(task) => if w.free then E.Clock(w.Now()) else E.CancelMessage(task.id)
    case Deployed(task, wallets, submitted) =>
      if w.free then E.Clock(w.Now()) else E.DeployedMessage(task.id, wallets, submitted)
    case _ => E.Clock(w.Now())
  }

  // The handlers' part in a step.
  function StorePart(w: World, e: Event): L.Event {
    match e
    case Escrow(_) => L.Wait
    case Http(x) => x
    case Load => L.Wait
    case StoreDeploy => if w.escrow.loop.Deploying? then L.SetDeploy(w.escrow.loop.doc.id) else L.Wait
    case Register(task, _) => L.Do(task)
    case RegisterFails(task) => L.Do(task)
    case RegisterFree(task) => L.RegisterFree(task)
    case Cancel(task) => L.Do(task)
    case Deployed(task, _, _) => L.Do(task)
  }

  // What can happen, ...
  ghost predicate Possible(w: World, e: Event) {
    && E.Enabled(w.escrow, EscrowPart(w, e))
    && L.Enabled(w.store, w.Now(), StorePart(w, e))
    && match e
       case Escrow(x) => Alone(x) && (w.free ==> x.Clock? || x.Receive?)
       case Http(x) =>
         && !x.SetDeploy? && !x.RegisterFree?
         && (x.Do? ==> !x.task.Registering? && !x.task.SendCancel? && !x.task.SendDeployed?)
       case Load => w.escrow.loop.Funded? && w.Has(w.escrow.loop.doc.id)
       case StoreDeploy => true
       case Register(task, doc) =>
         && task.Registering? && !w.free && doc.id == task.id
         && doc.expiration == w.store.reservations[task.id].provisioning
       case RegisterFails(task) => task.Registering? && !w.free
       case RegisterFree(task) => task.Registering? && w.free
       case Cancel(task) => task.SendCancel?
       case Deployed(task, _, _) => task.SendDeployed?
  }

  // ... and what happens under the guards of the loop.
  ghost predicate Enabled(w: World, e: Event) {
    Possible(w, e) && E.Prompt(w.escrow, EscrowPart(w, e)) && E.NotOverread(w.escrow, EscrowPart(w, e))
  }

  ghost function Apply(w: World, e: Event): World
    requires Possible(w, e)
  {
    World(w.free, E.Apply(w.escrow, EscrowPart(w, e)), L.Apply(w.store, w.Now(), StorePart(w, e)))
  }

  predicate Init(w: World) {
    E.Init(w.escrow) && L.Init(w.store)
  }

  ghost predicate IsHistory(worlds: seq<World>, events: seq<Event>) {
    && |worlds| == |events| + 1
    && Init(worlds[0])
    && forall i {:trigger events[i]} | 0 <= i < |events| ::
         Possible(worlds[i], events[i]) && worlds[i + 1] == Apply(worlds[i], events[i])
  }

  ghost predicate IsRun(worlds: seq<World>, events: seq<Event>) {
    && |worlds| == |events| + 1
    && Init(worlds[0])
    && forall i {:trigger events[i]} | 0 <= i < |events| ::
         Enabled(worlds[i], events[i]) && worlds[i + 1] == Apply(worlds[i], events[i])
  }

  lemma RunIsHistory(worlds: seq<World>, events: seq<Event>)
    requires IsRun(worlds, events)
    ensures IsHistory(worlds, events)
  {
  }

  // ---------- Every history is one of each part ----------

  // So everything proved about the escrow loop and about the handlers holds here.
  lemma Projections(worlds: seq<World>, events: seq<Event>)
    returns (states: seq<E.State>, escrowEvents: seq<E.Event>, stores: seq<L.Store>, times: seq<int>,
             storeEvents: seq<L.Event>)
    requires IsHistory(worlds, events)
    ensures |states| == |stores| == |times| == |worlds|
    ensures forall i | 0 <= i < |worlds| ::
              states[i] == worlds[i].escrow && stores[i] == worlds[i].store && times[i] == worlds[i].Now()
    ensures E.IsHistory(states, escrowEvents)
    ensures IsRun(worlds, events) ==> E.IsRun(states, escrowEvents)
    ensures L.IsRun(stores, times, storeEvents)
  {
    states, escrowEvents := StatesOf(worlds), EscrowEvents(worlds, events);
    stores, times, storeEvents := StoresOf(worlds), TimesOf(worlds), StoreEvents(worlds, events);
    EscrowHistory(worlds, events);
    StoreRuns(worlds, events);
    if IsRun(worlds, events) {
      EscrowRuns(worlds, events);
    }
  }

  function StatesOf(worlds: seq<World>): (states: seq<E.State>)
    ensures |states| == |worlds| && forall i | 0 <= i < |worlds| :: states[i] == worlds[i].escrow
  {
    seq(|worlds|, i requires 0 <= i < |worlds| => worlds[i].escrow)
  }

  function StoresOf(worlds: seq<World>): (stores: seq<L.Store>)
    ensures |stores| == |worlds| && forall i | 0 <= i < |worlds| :: stores[i] == worlds[i].store
  {
    seq(|worlds|, i requires 0 <= i < |worlds| => worlds[i].store)
  }

  function TimesOf(worlds: seq<World>): (times: seq<int>)
    ensures |times| == |worlds| && forall i | 0 <= i < |worlds| :: times[i] == worlds[i].Now()
  {
    seq(|worlds|, i requires 0 <= i < |worlds| => worlds[i].Now())
  }

  function EscrowEvents(worlds: seq<World>, events: seq<Event>): (parts: seq<E.Event>)
    requires |events| <= |worlds|
    ensures |parts| == |events| && forall i | 0 <= i < |events| :: parts[i] == EscrowPart(worlds[i], events[i])
  {
    seq(|events|, i requires 0 <= i < |events| => EscrowPart(worlds[i], events[i]))
  }

  function StoreEvents(worlds: seq<World>, events: seq<Event>): (parts: seq<L.Event>)
    requires |events| <= |worlds|
    ensures |parts| == |events| && forall i | 0 <= i < |events| :: parts[i] == StorePart(worlds[i], events[i])
  {
    seq(|events|, i requires 0 <= i < |events| => StorePart(worlds[i], events[i]))
  }

  lemma EscrowHistory(worlds: seq<World>, events: seq<Event>)
    requires IsHistory(worlds, events)
    ensures E.IsHistory(StatesOf(worlds), EscrowEvents(worlds, events))
  {
    var states, parts := StatesOf(worlds), EscrowEvents(worlds, events);
    forall i | 0 <= i < |parts|
      ensures E.Enabled(states[i], parts[i]) && states[i + 1] == E.Apply(states[i], parts[i])
    {
      StepProjects(worlds, events, i);
    }
  }

  lemma EscrowRuns(worlds: seq<World>, events: seq<Event>)
    requires IsRun(worlds, events)
    ensures E.IsRun(StatesOf(worlds), EscrowEvents(worlds, events))
  {
    var states, parts := StatesOf(worlds), EscrowEvents(worlds, events);
    RunIsHistory(worlds, events);
    forall i | 0 <= i < |parts|
      ensures E.SafeStep(states[i], parts[i]) && states[i + 1] == E.Apply(states[i], parts[i])
    {
      StepProjects(worlds, events, i);
      assert Enabled(worlds[i], events[i]);
    }
  }

  lemma StoreRuns(worlds: seq<World>, events: seq<Event>)
    requires IsHistory(worlds, events)
    ensures L.IsRun(StoresOf(worlds), TimesOf(worlds), StoreEvents(worlds, events))
  {
    var stores, times, parts := StoresOf(worlds), TimesOf(worlds), StoreEvents(worlds, events);
    forall i | 0 <= i < |parts|
      ensures times[i] <= times[i + 1]
      ensures L.Enabled(stores[i], times[i], parts[i]) && stores[i + 1] == L.Apply(stores[i], times[i], parts[i])
    {
      StepProjects(worlds, events, i);
    }
  }

  lemma StepProjects(worlds: seq<World>, events: seq<Event>, i: nat)
    requires IsHistory(worlds, events) && i < |events|
    ensures var w, w', e := worlds[i], worlds[i + 1], events[i];
            && E.Enabled(w.escrow, EscrowPart(w, e)) && w'.escrow == E.Apply(w.escrow, EscrowPart(w, e))
            && L.Enabled(w.store, w.Now(), StorePart(w, e)) && w'.store == L.Apply(w.store, w.Now(), StorePart(w, e))
            && w.Now() <= w'.Now()
  {
    assert worlds[i + 1] == Apply(worlds[i], events[i]);
    ClockNeverGoesBack(worlds[i].escrow, EscrowPart(worlds[i], events[i]));
  }

  lemma ClockNeverGoesBack(s: E.State, e: E.Event)
    requires E.Enabled(s, e)
    ensures s.now <= E.Apply(s, e).now
  {
  }

  // ---------- Nothing is deployed or paid out before its time ----------

  // The reservation is signed for and derived as Pay.
  predicate AtPay(w: World, id: Id) {
    w.Has(id) && w.store.reservations[id].ProvisionQuorum() && Derive(w.Now(), w.store.reservations[id]) == Pay
  }

  // The escrow has its price under its own memo.
  predicate Funded(w: World, id: Id) {
    id in w.escrow.docs && E.BalanceOf(w.escrow, w.escrow.docs[id]) >= w.escrow.docs[id].Price()
  }

  // Or its escrow is settled, so that it does not need to be: canceled, released, or settled without
  // a record of it.
  predicate Settled(w: World, id: Id) {
    id in w.escrow.docs && !E.Live(w.escrow, w.escrow.docs[id])
  }

  predicate Ready(w: World, id: Id) {
    AtPay(w, id) && (w.free || Funded(w, id) || Settled(w, id))
  }

  // Every workload has been reported.
  predicate Reported(w: World, id: Id) {
    w.Has(id) && w.store.reservations[id].IsSuccessfullyDeployed()
  }

  // It was so at some step up to n.
  ghost predicate EverAtPay(worlds: seq<World>, n: nat, id: Id)
    requires n < |worlds|
  {
    exists k :: 0 <= k <= n && AtPay(worlds[k], id)
  }

  ghost predicate EverReady(worlds: seq<World>, n: nat, id: Id)
    requires n < |worlds|
  {
    exists k :: 0 <= k <= n && Ready(worlds[k], id)
  }

  ghost predicate EverReported(worlds: seq<World>, n: nat, id: Id)
    requires n < |worlds|
  {
    exists k :: 0 <= k <= n && Reported(worlds[k], id)
  }

  // How each trace of progress was earned.
  ghost predicate Earned(worlds: seq<World>, n: nat)
    requires n < |worlds|
  {
    var w := worlds[n];
    && (forall id | w.Has(id) ::
          && (w.store.reservations[id].action == Pay ==> EverAtPay(worlds, n, id))
          && (w.store.reservations[id].action == Deploy ==> EverReady(worlds, n, id)))
    && (forall task | task in w.store.tasks ::
          && (task.Registering? && task.action == Pay ==> EverAtPay(worlds, n, task.id))
          && (task.SendDeployed? ==> EverReported(worlds, n, task.id)))
    && (w.escrow.loop.Deploying? || w.escrow.loop.Marking? ==> EverReady(worlds, n, w.escrow.loop.doc.id))
    && (forall id | id in w.escrow.docs && w.escrow.docs[id].paid :: EverReady(worlds, n, id))
  }

  lemma WorldInv(worlds: seq<World>, events: seq<Event>, n: nat)
    requires IsHistory(worlds, events) && n < |worlds|
    ensures E.Sound(worlds[n].escrow) && L.Inv(worlds[n].store)
  {
    var states, escrowEvents, stores, times, storeEvents := Projections(worlds, events);
    S.HistoryIsSound(states, escrowEvents, n);
    L.RunKeepsInv(stores, times, storeEvents, n);
  }

  lemma QuorumPersists(worlds: seq<World>, events: seq<Event>, n: nat, id: Id)
    requires IsHistory(worlds, events) && n < |worlds| && EverAtPay(worlds, n, id)
    ensures worlds[n].Has(id) && worlds[n].store.reservations[id].ProvisionQuorum()
  {
    var k :| 0 <= k <= n && AtPay(worlds[k], id);
    var states, escrowEvents, stores, times, storeEvents := Projections(worlds, events);
    L.ReservationsPersist(stores, times, storeEvents, k, n, id);
  }

  lemma EverGrows(worlds: seq<World>, n: nat, id: Id)
    requires n + 1 < |worlds|
    ensures EverAtPay(worlds, n, id) ==> EverAtPay(worlds, n + 1, id)
    ensures EverReady(worlds, n, id) ==> EverReady(worlds, n + 1, id)
    ensures EverReported(worlds, n, id) ==> EverReported(worlds, n + 1, id)
  {
  }

  lemma FreeIsReady(worlds: seq<World>, events: seq<Event>, n: nat, id: Id)
    requires IsHistory(worlds, events) && n < |worlds| && worlds[n].free && EverAtPay(worlds, n, id)
    ensures EverReady(worlds, n, id)
  {
    var k :| 0 <= k <= n && AtPay(worlds[k], id);
    ModeIsFixed(worlds, events, k, n);
    assert Ready(worlds[k], id);
  }

  lemma {:induction false} ModeIsFixed(worlds: seq<World>, events: seq<Event>, m: nat, n: nat)
    requires IsHistory(worlds, events) && m <= n < |worlds|
    ensures worlds[m].free == worlds[n].free
    decreases n - m
  {
    if m == n {
    } else {
      ModeIsFixed(worlds, events, m, n - 1);
      assert worlds[n] == Apply(worlds[n - 1], events[n - 1]);
    }
  }

  lemma CreatedAtPay(now: int, r: Reservation)
    requires r.action == Action.Create && Derive(now, r) == Pay
    ensures r.(action := Pay).ProvisionQuorum() && Derive(now, r.(action := Pay)) == Pay
  {
    assert r.(action := Pay).Workloads() == r.Workloads();
  }

  lemma NewActionEarned(worlds: seq<World>, events: seq<Event>, n: nat, id: Id)
    requires IsHistory(worlds, events) && n + 1 < |worlds| && worlds[n + 1].Has(id) && !worlds[n].Has(id)
    ensures worlds[n + 1].store.reservations[id].action == Pay ==> EverAtPay(worlds, n + 1, id)
    ensures worlds[n + 1].store.reservations[id].action != Deploy
  {
    var w, e := worlds[n], events[n];
    assert worlds[n + 1] == Apply(w, e);
    var r := e.h.r;
    if Derive(w.Now(), r) == Pay {
      CreatedAtPay(w.Now(), r);
      assert AtPay(worlds[n + 1], id);
    }
  }

  lemma ActionEarned(worlds: seq<World>, events: seq<Event>, n: nat, id: Id)
    requires IsHistory(worlds, events) && n + 1 < |worlds| && Earned(worlds, n) && worlds[n + 1].Has(id)
    ensures worlds[n + 1].store.reservations[id].action == Pay ==> EverAtPay(worlds, n + 1, id)
    ensures worlds[n + 1].store.reservations[id].action == Deploy ==> EverReady(worlds, n + 1, id)
  {
    var w, e := worlds[n], events[n];
    assert worlds[n + 1] == Apply(w, e);
    if w.Has(id) {
      EverGrows(worlds, n, id);
      L.StepWrites(w.store, w.Now(), StorePart(w, e), id);
      if e.RegisterFree? && EverAtPay(worlds, n, id) {
        FreeIsReady(worlds, events, n, id);
      }
    } else {
      NewActionEarned(worlds, events, n, id);
    }
  }

  lemma TaskEarned(worlds: seq<World>, events: seq<Event>, n: nat, task: L.Task)
    requires IsHistory(worlds, events) && n + 1 < |worlds| && Earned(worlds, n) && task in worlds[n + 1].store.tasks
    ensures task.Registering? && task.action == Pay ==> EverAtPay(worlds, n + 1, task.id)
    ensures task.SendDeployed? ==> EverReported(worlds, n + 1, task.id)
  {
    var w, e := worlds[n], events[n];
    assert worlds[n + 1] == Apply(w, e);
    EverGrows(worlds, n, task.id);
    if task !in w.store.tasks {
      L.NewTaskWasRead(w.store, w.Now(), StorePart(w, e), task);
      assert task.SendDeployed? ==> Reported(worlds[n], task.id);
    }
  }

  lemma LoopEarned(worlds: seq<World>, events: seq<Event>, n: nat)
    requires IsHistory(worlds, events) && n + 1 < |worlds| && Earned(worlds, n)
    ensures var loop := worlds[n + 1].escrow.loop;
            loop.Deploying? || loop.Marking? ==> EverReady(worlds, n + 1, loop.doc.id)
  {
    var w, e := worlds[n], events[n];
    assert worlds[n + 1] == Apply(w, e);
    if e.Load? {
      var id := w.escrow.loop.doc.id;
      WorldInv(worlds, events, n);
      S.LoopDocIsStored(w.escrow);
      if Derive(w.Now(), w.store.reservations[id]) == Pay {
        if w.store.reservations[id].action == Pay {
          QuorumPersists(worlds, events, n, id);
        }
        assert Ready(worlds[n], id);
      }
    } else {
      LoopOnlyByLoad(w.escrow, EscrowPart(w, e));
      if w.escrow.loop.Deploying? || w.escrow.loop.Marking? {
        EverGrows(worlds, n, w.escrow.loop.doc.id);
      }
    }
  }

  lemma LoopOnlyByLoad(s: E.State, e: E.Event)
    requires E.Enabled(s, e) && !e.ReadReservation?
    ensures var s' := E.Apply(s, e);
            s'.loop.Deploying? || s'.loop.Marking? ==>
              (s.loop.Deploying? || s.loop.Marking?) && s'.loop.doc.id == s.loop.doc.id
  {
  }

  lemma PaidEarned(worlds: seq<World>, events: seq<Event>, n: nat, id: Id)
    requires IsHistory(worlds, events) && n + 1 < |worlds| && Earned(worlds, n)
    requires id in worlds[n + 1].escrow.docs && worlds[n + 1].escrow.docs[id].paid
    ensures EverReady(worlds, n + 1, id)
  {
    var w, e := worlds[n], events[n];
    assert worlds[n + 1] == Apply(w, e);
    WorldInv(worlds, events, n);
    EverGrows(worlds, n, id);
    S.PaidOnlyByMarking(w.escrow, EscrowPart(w, e), id);
  }

  lemma {:induction false} ProgressIsEarned(worlds: seq<World>, events: seq<Event>, n: nat)
    requires IsHistory(worlds, events) && n < |worlds|
    ensures Earned(worlds, n)
  {
    if n == 0 {
    } else {
      ProgressIsEarned(worlds, events, n - 1);
      OneMoreIsEarned(worlds, events, n - 1);
    }
  }

  lemma OneMoreIsEarned(worlds: seq<World>, events: seq<Event>, n: nat)
    requires IsHistory(worlds, events) && n + 1 < |worlds| && Earned(worlds, n)
    ensures Earned(worlds, n + 1)
  {
    var w := worlds[n + 1];
    forall id | w.Has(id)
      ensures w.store.reservations[id].action == Pay ==> EverAtPay(worlds, n + 1, id)
      ensures w.store.reservations[id].action == Deploy ==> EverReady(worlds, n + 1, id)
    {
      ActionEarned(worlds, events, n, id);
    }
    forall task | task in w.store.tasks
      ensures task.Registering? && task.action == Pay ==> EverAtPay(worlds, n + 1, task.id)
      ensures task.SendDeployed? ==> EverReported(worlds, n + 1, task.id)
    {
      TaskEarned(worlds, events, n, task);
    }
    LoopEarned(worlds, events, n);
    forall id | id in w.escrow.docs && w.escrow.docs[id].paid
      ensures EverReady(worlds, n + 1, id)
    {
      PaidEarned(worlds, events, n, id);
    }
  }

  // Main theorem on deployment, for every interleaving, with or without the guards: a reservation is
  // stored as Deploy only if at some earlier step its provision quorum held and it was derived as Pay,
  // and, unless the free escrow is in use, the balance under its own memo was at least its price or
  // its escrow was settled already.
  lemma DeployIsEarned(worlds: seq<World>, events: seq<Event>, n: nat, id: Id)
    requires IsHistory(worlds, events) && n < |worlds| && worlds[n].Has(id)
    requires worlds[n].store.reservations[id].action == Deploy
    ensures exists k :: 0 <= k <= n && AtPay(worlds[k], id) && SignedFor(worlds[k].store.reservations[id]) &&
                        (worlds[k].free || Funded(worlds[k], id) || Settled(worlds[k], id))
  {
    ProgressIsEarned(worlds, events, n);
    var k :| 0 <= k <= n && Ready(worlds[k], id);
    WorldInv(worlds, events, k);
    QuorumIsSigners(worlds[k].store.reservations[id]);
  }

  // As many distinct signers as it asks for have signed for its provision.
  predicate SignedFor(r: Reservation) {
    r.provision.quorum == 0 || EnoughSigned(r.provisionSignatures, r.provision)
  }

  lemma QuorumIsSigners(r: Reservation)
    requires OneEach(r.provisionSignatures)
    ensures r.ProvisionQuorum() <==> SignedFor(r)
  {
    CountIsDistinctSigners(r.provisionSignatures, r.provision.signers);
  }

  // ---------- A canceled escrow ----------

  // A reservation whose escrow was canceled is derived as Deploy exactly when Deploy is stored, it is
  // not doomed, and it is not yet late or every workload was reported Ok after all. Its farmers are
  // not paid any more.
  lemma CanceledYetDeploysIff(worlds: seq<World>, events: seq<Event>, m: nat, n: nat, id: Id)
    requires IsHistory(worlds, events) && m <= n < |worlds| && worlds[n].Has(id)
    requires id in worlds[m].escrow.docs && worlds[m].escrow.docs[id].canceled
    ensures var r, now := worlds[n].store.reservations[id], worlds[n].Now();
            Derive(now, r) == Deploy <==>
              r.action == Deploy && !r.Doomed(now) && (now <= r.provisioning || CountsAsDeployed(r))
    ensures E.PayoutCount(worlds[n].escrow.journal, id) == E.PayoutCount(worlds[m].escrow.journal, id)
    ensures id in worlds[n].escrow.docs && worlds[n].escrow.docs[id].canceled
  {
    var states, escrowEvents, _, _, _ := Projections(worlds, events);
    T.ClosedIsNeverPaid(states, escrowEvents, m, n, id);
    T.NoLostUpdate(states, escrowEvents, m, n, id);
    WorldInv(worlds, events, n);
    DerivedDeployIff(worlds[n].Now(), worlds[n].store.reservations[id]);
  }

  lemma DerivedDeployIff(now: int, r: Reservation)
    requires R.ResultsOk(r.Workloads(), r.results)
    ensures Derive(now, r) == Deploy <==>
              r.action == Deploy && !r.Doomed(now) && (now <= r.provisioning || CountsAsDeployed(r))
  {
    V.DeployedIff(r);
  }

  predicate CountsAsDeployed(r: Reservation) {
    V.DistinctWorkloads(r.Workloads()) && V.AllReportedOk(r.Workloads(), r.results)
  }

  // ---------- Payouts ----------

  // Settled once is settled for good.
  lemma SettledStays(worlds: seq<World>, events: seq<Event>, k: nat, n: nat, id: Id)
    requires IsHistory(worlds, events) && k <= n < |worlds| && Settled(worlds[k], id)
    ensures Settled(worlds[n], id)
  {
    var states, escrowEvents, _, _, _ := Projections(worlds, events);
    WorldInv(worlds, events, k);
    T.NoLostUpdate(states, escrowEvents, k, n, id);
    T.UnrecordedStays(states, escrowEvents, k, n);
  }

  predicate Backed(w: World, id: Id) {
    AtPay(w, id) && (w.free || Funded(w, id))
  }

  ghost predicate EverBacked(worlds: seq<World>, n: nat, id: Id)
    requires n < |worlds|
  {
    exists k :: 0 <= k <= n && Backed(worlds[k], id)
  }

  // What is marked as paid and not settled was funded.
  lemma PaidWasFunded(worlds: seq<World>, events: seq<Event>, n: nat, id: Id)
    requires IsHistory(worlds, events) && n < |worlds| && EverReady(worlds, n, id) && !Settled(worlds[n], id)
    ensures EverBacked(worlds, n, id)
  {
    var k :| 0 <= k <= n && Ready(worlds[k], id);
    if Settled(worlds[k], id) {
      SettledStays(worlds, events, k, n, id);
    }
    assert Backed(worlds[k], id);
  }

  ghost predicate PayoutsEarned(worlds: seq<World>, n: nat)
    requires n < |worlds|
  {
    forall id: Id | E.PayoutCount(worlds[n].escrow.journal, id) > 0 ::
      EverBacked(worlds, n, id) && EverReported(worlds, n, id)
  }

  lemma PayoutEarned(worlds: seq<World>, events: seq<Event>, n: nat, id: Id)
    requires IsRun(worlds, events) && n + 1 < |worlds| && Earned(worlds, n) && PayoutsEarned(worlds, n)
    requires E.PayoutCount(worlds[n + 1].escrow.journal, id) > 0
    ensures EverBacked(worlds, n + 1, id) && EverReported(worlds, n + 1, id)
  {
    RunIsHistory(worlds, events);
    StepProjects(worlds, events, n);
    if E.PayoutCount(worlds[n].escrow.journal, id) > 0 {
      BackedGrows(worlds, n, id);
    } else {
      WorldInv(worlds, events, n);
      S.PayoutOnlyByMessage(worlds[n].escrow, EscrowPart(worlds[n], events[n]), id);
      NewPayoutEarned(worlds, events, n, id);
    }
  }

  lemma NewPayoutEarned(worlds: seq<World>, events: seq<Event>, n: nat, id: Id)
    requires IsRun(worlds, events) && n + 1 < |worlds| && Earned(worlds, n)
    requires PaysOut(worlds[n], events[n], id)
    ensures EverBacked(worlds, n + 1, id) && EverReported(worlds, n + 1, id)
  {
    var task := PaysOutTheUnsettled(worlds[n], events[n], id);
    RunIsHistory(worlds, events);
    PaidWasFunded(worlds, events, n, id);
    BackedGrows(worlds, n, id);
  }

  lemma PaysOutTheUnsettled(w: World, e: Event, id: Id) returns (task: L.Task)
    requires Enabled(w, e) && PaysOut(w, e, id)
    ensures w.escrow.docs[id].paid && !Settled(w, id)
    ensures task.SendDeployed? && task.id == id && task in w.store.tasks
  {
    MessageHasTask(w, e);
    task := e.task;
  }

  predicate PaysOut(w: World, e: Event, id: Id) {
    var part := EscrowPart(w, e);
    && part.DeployedMessage? && part.submitted && part.id == id
    && id in w.escrow.docs && w.escrow.docs[id].id == id && w.escrow.docs[id].Open()
  }

  lemma BackedGrows(worlds: seq<World>, n: nat, id: Id)
    requires n + 1 < |worlds|
    ensures EverBacked(worlds, n, id) ==> EverBacked(worlds, n + 1, id)
    ensures EverReported(worlds, n, id) ==> EverReported(worlds, n + 1, id)
  {
  }

  lemma MessageHasTask(w: World, e: Event)
    requires Possible(w, e) && EscrowPart(w, e).DeployedMessage?
    ensures e.Deployed? && e.task.SendDeployed? && e.task in w.store.tasks && EscrowPart(w, e).id == e.task.id
  {
  }

  lemma {:induction false} AllPayoutsEarned(worlds: seq<World>, events: seq<Event>, n: nat)
    requires IsRun(worlds, events) && n < |worlds|
    ensures PayoutsEarned(worlds, n)
  {
    if n == 0 {
    } else {
      AllPayoutsEarned(worlds, events, n - 1);
      RunIsHistory(worlds, events);
      ProgressIsEarned(worlds, events, n - 1);
      forall id: Id | E.PayoutCount(worlds[n].escrow.journal, id) > 0
        ensures EverBacked(worlds, n, id) && EverReported(worlds, n, id)
      {
        PayoutEarned(worlds, events, n - 1, id);
      }
    }
  }

  // With or without the guards, farmers are paid only for a reservation all of whose workloads were
  // reported Ok under their own id and node.
  lemma PayoutWasReported(worlds: seq<World>, events: seq<Event>, n: nat, id: Id)
    requires IsHistory(worlds, events) && n < |worlds| && E.PayoutCount(worlds[n].escrow.journal, id) > 0
    ensures exists k :: 0 <= k <= n && worlds[k].Has(id) && AllReportedOk(worlds[k].store.reservations[id])
  {
    PayoutReported(worlds, events, n, id);
    var k :| 0 <= k <= n && Reported(worlds[k], id);
    WorldInv(worlds, events, k);
    ReportedMeansAll(worlds[k].store.reservations[id]);
  }

  lemma {:induction false} PayoutReported(worlds: seq<World>, events: seq<Event>, n: nat, id: Id)
    requires IsHistory(worlds, events) && n < |worlds| && E.PayoutCount(worlds[n].escrow.journal, id) > 0
    ensures EverReported(worlds, n, id)
  {
    if n == 0 {
    } else if E.PayoutCount(worlds[n - 1].escrow.journal, id) > 0 {
      PayoutReported(worlds, events, n - 1, id);
      BackedGrows(worlds, n - 1, id);
    } else {
      NewPayoutReported(worlds, events, n, id);
    }
  }

  lemma NewPayoutReported(worlds: seq<World>, events: seq<Event>, n: nat, id: Id)
    requires IsHistory(worlds, events) && 0 < n < |worlds|
    requires E.PayoutCount(worlds[n - 1].escrow.journal, id) == 0 < E.PayoutCount(worlds[n].escrow.journal, id)
    ensures EverReported(worlds, n, id)
  {
    var task := PayoutHasTask(worlds, events, n - 1, id);
    ProgressIsEarned(worlds, events, n - 1);
    TaskWasReported(worlds, n, task);
  }

  lemma PayoutHasTask(worlds: seq<World>, events: seq<Event>, n: nat, id: Id) returns (task: L.Task)
    requires IsHistory(worlds, events) && n < |events|
    requires E.PayoutCount(worlds[n].escrow.journal, id) == 0 < E.PayoutCount(worlds[n + 1].escrow.journal, id)
    ensures task.SendDeployed? && task.id == id && task in worlds[n].store.tasks
  {
    StepProjects(worlds, events, n);
    WorldInv(worlds, events, n);
    task := PaysOutTheReported(worlds[n], events[n], id);
  }

  lemma PaysOutTheReported(w: World, e: Event, id: Id) returns (task: L.Task)
    requires Possible(w, e) && E.DocsOk(w.escrow)
    requires E.PayoutCount(w.escrow.journal, id) == 0
    requires E.PayoutCount(E.Apply(w.escrow, EscrowPart(w, e)).journal, id) > 0
    ensures task.SendDeployed? && task.id == id && task in w.store.tasks
  {
    S.PayoutOnlyByMessage(w.escrow, EscrowPart(w, e), id);
    MessageHasTask(w, e);
    task := e.task;
  }

  lemma TaskWasReported(worlds: seq<World>, n: nat, task: L.Task)
    requires 0 < n < |worlds| && Earned(worlds, n - 1) && task in worlds[n - 1].store.tasks && task.SendDeployed?
    ensures EverReported(worlds, n, task.id)
  {
    BackedGrows(worlds, n - 1, task.id);
  }

  // Main theorem on payouts, for every interleaving under the guards: farmers are paid at most once,
  // and only for a reservation that was signed for and funded, and all of whose workloads were
  // reported Ok under their own id and node.
  lemma PayoutIsEarned(worlds: seq<World>, events: seq<Event>, n: nat, id: Id)
    requires IsRun(worlds, events) && n < |worlds| && E.PayoutCount(worlds[n].escrow.journal, id) > 0
    ensures E.PayoutCount(worlds[n].escrow.journal, id) == 1
    ensures exists k :: 0 <= k <= n && AtPay(worlds[k], id) && (worlds[k].free || Funded(worlds[k], id))
    ensures exists k :: 0 <= k <= n && worlds[k].Has(id) && AllReportedOk(worlds[k].store.reservations[id])
  {
    AllPayoutsEarned(worlds, events, n);
    RunIsHistory(worlds, events);
    var states, escrowEvents, _, _, _ := Projections(worlds, events);
    T.SettledOnce(states, escrowEvents, n, id);
    var b :| 0 <= b <= n && Backed(worlds[b], id);
    var k :| 0 <= k <= n && Reported(worlds[k], id);
    WorldInv(worlds, events, k);
    ReportedMeansAll(worlds[k].store.reservations[id]);
  }

  predicate AllReportedOk(r: Reservation) {
    forall w | w in r.Workloads() ::
      exists result :: result in r.results && result.state == Ok && result.id == w.id && result.node == w.node
  }

  lemma ReportedMeansAll(r: Reservation)
    requires R.ResultsOk(r.Workloads(), r.results) && r.IsSuccessfullyDeployed()
    ensures AllReportedOk(r)
  {
    forall w | w in r.Workloads()
      ensures exists result :: result in r.results && result.state == Ok && result.id == w.id && result.node == w.node
    {
      R.DeployedMeansEveryWorkload(r, w);
    }
  }
}
