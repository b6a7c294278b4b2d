/** The reservation document and the action derived from it. */
module Pipeline {
  import opened Collections
  import opened Workloads

  type Id = int
  type Tid = int

  datatype Action = Create | Sign | Pay | Deploy | Delete | Invalid | Deleted

  // Who may sign and how many of them must.
  datatype Request = Request(signers: seq<Tid>, quorum: int)

  datatype Signature = Signature(tid: Tid, text: string, epoch: int)

  datatype ResultState = Error | Ok | Removed

  // A node-less result has the empty node id.
  datatype Result = Result(id: Gwid, node: NodeId, state: ResultState)

  datatype Reservation = Reservation(
    id: Id, data: Data, expiration: int, provisioning: int,
    provision: Request, deletion: Request,
    action: Action, provisionSignatures: seq<Signature>, deleteSignatures: seq<Signature>, results: seq<Result>)
  {
    function Workloads(): seq<Workload> { AllWorkloads(id, data) }

    predicate Expired(now: int) { expiration <= now }

    predicate IsSuccessfullyDeployed() {
      |results| >= |Workloads()| && forall r | r in results :: r.state == Ok
    }

    predicate ProvisionQuorum() {
      provision.quorum == 0 || Count(provisionSignatures, provision.signers) >= provision.quorum
    }

    // A quorum of zero never deletes.
    predicate DeleteQuorum() {
      deletion.quorum != 0 && Count(deleteSignatures, deletion.signers) >= deletion.quorum
    }

    // Nothing can bring the reservation back.
    predicate Doomed(now: int) { Expired(now) || DeleteQuorum() }

    // The provisioning window closed before every workload was reported.
    predicate Late(now: int) { provisioning < now && !IsSuccessfullyDeployed() }
  }

  // ---------- Quorums ----------

  function Count(signatures: seq<Signature>, signers: seq<Tid>): nat {
    if signatures == [] then 0
    else
      Count(signatures[..|signatures| - 1], signers) +
      if signatures[|signatures| - 1].tid in signers then 1 else 0
  }

  method CountSignatures(signatures: seq<Signature>, signers: seq<Tid>) returns (count: int)
    ensures count == Count(signatures, signers)
  {
    count := 0;
    for i := 0 to |signatures|
      invariant count == Count(signatures[..i], signers)
    {
      assert signatures[..i + 1][..i] == signatures[..i];
      if signatures[i].tid !in signers {
        continue;
      }
      count := count + 1;
    }
    assert signatures[..|signatures|] == signatures;
  }

  predicate OneEach(signatures: seq<Signature>) {
    forall i, j | 0 <= i < j < |signatures| :: signatures[i].tid != signatures[j].tid
  }

  function Tids(signatures: seq<Signature>): set<Tid> {
    set s | s in signatures :: s.tid
  }

  function SetOf(signers: seq<Tid>): set<Tid> {
    set t | t in signers
  }

  lemma TidsOfLast(signatures: seq<Signature>)
    requires signatures != []
    ensures Tids(signatures) == Tids(signatures[..|signatures| - 1]) + {signatures[|signatures| - 1].tid}
  {
    assert signatures == signatures[..|signatures| - 1] + [signatures[|signatures| - 1]];
  }

  lemma LastSignerIsNew(signatures: seq<Signature>)
    requires OneEach(signatures) && signatures != []
    ensures OneEach(signatures[..|signatures| - 1])
    ensures signatures[|signatures| - 1].tid !in Tids(signatures[..|signatures| - 1])
  {
    var init, last := signatures[..|signatures| - 1], signatures[|signatures| - 1];
    forall s | s in init
      ensures s.tid != last.tid
    {
      var i :| 0 <= i < |init| && init[i] == s;
      assert signatures[i].tid != signatures[|signatures| - 1].tid;
    }
  }

  lemma AddedSize<T>(before: set<T>, allowed: set<T>, x: T)
    requires x !in before
    ensures |(before + {x}) * allowed| == |before * allowed| + if x in allowed then 1 else 0
  {
    if x in allowed {
      assert (before + {x}) * allowed == before * allowed + {x};
    } else {
      assert (before + {x}) * allowed == before * allowed;
    }
  }

  // The counting loop counts the distinct allowed signers who signed.
  lemma {:induction false} CountIsDistinctSigners(signatures: seq<Signature>, signers: seq<Tid>)
    requires OneEach(signatures)
    ensures Count(signatures, signers) == |Tids(signatures) * SetOf(signers)|
  {
    if signatures == [] {
    } else {
      var init, last := signatures[..|signatures| - 1], signatures[|signatures| - 1];
      LastSignerIsNew(signatures);
      TidsOfLast(signatures);
      CountIsDistinctSigners(init, signers);
      AddedSize(Tids(init), SetOf(signers), last.tid);
    }
  }

  // The database removes every signature of this signer ...
  function Pull(signatures: seq<Signature>, tid: Tid): seq<Signature> {
    if signatures == [] then []
    else
      var last := signatures[|signatures| - 1];
      Pull(signatures[..|signatures| - 1], tid) + if last.tid == tid then [] else [last]
  }

  // ... and then adds the new one to what is now a set.
  function AddToSet(signatures: seq<Signature>, signature: Signature): seq<Signature> {
    if signature in signatures then signatures else signatures + [signature]
  }

  function Push(signatures: seq<Signature>, signature: Signature): seq<Signature> {
    AddToSet(Pull(signatures, signature.tid), signature)
  }

  lemma {:induction false} PullMembers(signatures: seq<Signature>, tid: Tid)
    ensures forall s :: s in Pull(signatures, tid) <==> s in signatures && s.tid != tid
  {
    if signatures == [] {
    } else {
      PullMembers(signatures[..|signatures| - 1], tid);
      assert signatures == signatures[..|signatures| - 1] + [signatures[|signatures| - 1]];
    }
  }

  lemma {:induction false} PullKeepsOneEach(signatures: seq<Signature>, tid: Tid)
    requires OneEach(signatures)
    ensures OneEach(Pull(signatures, tid))
  {
    if signatures == [] {
    } else {
      var init, last := signatures[..|signatures| - 1], signatures[|signatures| - 1];
      PullKeepsOneEach(init, tid);
      PullMembers(init, tid);
      forall s | s in init
        ensures s.tid != last.tid
      {
        var i :| 0 <= i < |init| && init[i] == s;
        assert signatures[i].tid != signatures[|signatures| - 1].tid;
      }
    }
  }

  // The new signature is there, and the others' are.
  lemma PushMembers(signatures: seq<Signature>, signature: Signature)
    ensures forall s ::
              s in Push(signatures, signature) <==> s == signature || (s in signatures && s.tid != signature.tid)
  {
    PullMembers(signatures, signature.tid);
  }

  // A push leaves one signature per signer, replaces nobody else's, and never lowers the count.
  lemma PushKeepsQuorum(signatures: seq<Signature>, signature: Signature, signers: seq<Tid>)
    requires OneEach(signatures)
    ensures OneEach(Push(signatures, signature))
    ensures Tids(Push(signatures, signature)) == Tids(signatures) + {signature.tid}
    ensures forall s ::
              s in Push(signatures, signature) <==> s == signature || (s in signatures && s.tid != signature.tid)
    ensures Count(signatures, signers) <= Count(Push(signatures, signature), signers)
  {
    var pulled, pushed := Pull(signatures, signature.tid), Push(signatures, signature);
    PullMembers(signatures, signature.tid);
    PullKeepsOneEach(signatures, signature.tid);
    assert signature !in pulled && pushed == pulled + [signature];
    PushedTids(signatures, signature, pulled);
    CountIsDistinctSigners(signatures, signers);
    CountIsDistinctSigners(pushed, signers);
    SubsetSize(Tids(signatures) * SetOf(signers), Tids(pushed) * SetOf(signers));
  }

  lemma PushedTids(signatures: seq<Signature>, signature: Signature, pulled: seq<Signature>)
    requires forall s :: s in pulled <==> s in signatures && s.tid != signature.tid
    ensures Tids(pulled + [signature]) == Tids(signatures) + {signature.tid}
  {
    forall t | t in Tids(signatures) && t != signature.tid
      ensures t in Tids(pulled)
    {
      var s :| s in signatures && s.tid == t;
      assert s in pulled;
    }
    assert signature in pulled + [signature];
    forall t | t in Tids(pulled)
      ensures t in Tids(pulled + [signature])
    {
      var s :| s in pulled && s.tid == t;
      assert s in pulled + [signature];
    }
  }

  // ---------- The derived action ----------

  // What the pipeline makes of a reservation at a given time.
  function Derive(now: int, r: Reservation): Action {
    if r.action == Delete || r.action == Deleted then r.action
    else if r.Doomed(now) || r.Late(now) then Delete
    else if r.action == Create || r.action == Sign then (if r.ProvisionQuorum() then Pay else Sign)
    else r.action
  }

  function Rank(action: Action): nat {
    match action
    case Create => 2
    case Sign => 1
    case _ => 0
  }

  method CheckProvisionSignatures(r: Reservation) returns (ok: bool)
    ensures ok == r.ProvisionQuorum()
  {
    if r.provision.quorum == 0 {
      return true;
    }
    var count := CountSignatures(r.provisionSignatures, r.provision.signers);
    return count >= r.provision.quorum;
  }

  method CheckDeleteSignatures(r: Reservation) returns (ok: bool)
    ensures ok == r.DeleteQuorum()
  {
    if r.deletion.quorum == 0 {
      return false;
    }
    var count := CountSignatures(r.deleteSignatures, r.deletion.signers);
    return count >= r.deletion.quorum;
  }

  method CheckDeployed(r: Reservation) returns (succeeded: bool)
    ensures succeeded == r.IsSuccessfullyDeployed()
  {
    succeeded := false;
    var workloads := ListWorkloads(r.id, r.data, "");
    if |r.results| >= |workloads| {
      succeeded := true;
      for i := 0 to |r.results|
        invariant succeeded
        invariant forall j | 0 <= j < i :: r.results[j].state == Ok
      {
        if r.results[i].state != Ok {
          succeeded := false;
          break;
        }
      }
    }
  }

  // So many distinct signers as are asked for have signed.
  predicate EnoughSigned(signatures: seq<Signature>, request: Request) {
    |Tids(signatures) * SetOf(request.signers)| >= request.quorum
  }

  // It has not expired, and it is in time or completely reported.
  predicate InTime(now: int, r: Reservation) {
    now < r.expiration && (now <= r.provisioning || r.IsSuccessfullyDeployed())
  }

  // With one signature per signer: what takes a new reservation to Pay, and what deletes one.
  lemma DerivesBySigners(now: int, r: Reservation)
    requires OneEach(r.provisionSignatures) && OneEach(r.deleteSignatures)
    ensures r.action == Create || r.action == Sign ==> InTime(now, r) ==>
              !(r.deletion.quorum != 0 && EnoughSigned(r.deleteSignatures, r.deletion)) ==>
              Derive(now, r) == if r.provision.quorum == 0 || EnoughSigned(r.provisionSignatures, r.provision)
                                then Pay else Sign
    ensures r.action != Delete && r.action != Deleted && InTime(now, r) ==>
              (Derive(now, r) == Delete <==> r.deletion.quorum != 0 && EnoughSigned(r.deleteSignatures, r.deletion))
    ensures r.action != Delete && r.action != Deleted && !InTime(now, r) ==> Derive(now, r) == Delete
    ensures r.action == Delete || r.action == Deleted ==> Derive(now, r) == r.action
  {
    CountIsDistinctSigners(r.provisionSignatures, r.provision.signers);
    CountIsDistinctSigners(r.deleteSignatures, r.deletion.signers);
  }

  // Pipeline.Next: the loop repeats until the action stops changing.
  method Next(now: int, r0: Reservation) returns (r: Reservation, modified: bool)
    ensures r == r0.(action := Derive(now, r0))
    ensures modified <==> r.action != r0.action
    // Stated on the distinct signers: a reservation in time goes to Pay when enough of them signed.
    ensures OneEach(r0.provisionSignatures) && OneEach(r0.deleteSignatures) && InTime(now, r0) ==>
              (r0.action == Create || r0.action == Sign) ==>
              !(r0.deletion.quorum != 0 && EnoughSigned(r0.deleteSignatures, r0.deletion)) ==>
              r.action == if r0.provision.quorum == 0 || EnoughSigned(r0.provisionSignatures, r0.provision)
                          then Pay else Sign
    // It is deleted when enough signed for that, which a quorum of zero never does ...
    ensures OneEach(r0.provisionSignatures) && OneEach(r0.deleteSignatures) && InTime(now, r0) ==>
              r0.action != Delete && r0.action != Deleted ==>
              (r.action == Delete <==> r0.deletion.quorum != 0 && EnoughSigned(r0.deleteSignatures, r0.deletion))
    // ... and when it is not in time.
    ensures r0.action != Delete && r0.action != Deleted && !InTime(now, r0) ==> r.action == Delete
    ensures r0.action == Delete || r0.action == Deleted ==> r == r0
  {
    if OneEach(r0.provisionSignatures) && OneEach(r0.deleteSignatures) {
      DerivesBySigners(now, r0);
    }
    r := r0;
    if r.action == Delete || r.action == Deleted {
      return r, false;
    }
    var expired := r.Expired(now);
    var deleted := CheckDeleteSignatures(r);
    if expired || deleted {
      r := r.(action := Delete);
      return r, true;
    }
    var deployed := CheckDeployed(r);
    if r.provisioning < now && !deployed {
      r := r.(action := Delete);
      return r, true;
    }
    var current := r.action;
    modified := false;
    while true
      invariant r == r0.(action := r.action) && current == r.action
      invariant modified <==> r.action != r0.action
      invariant r.action == r0.action || (r0.action == Create && r.action == Sign) ||
                (Rank(r0.action) > 0 && r.action == Pay && r0.ProvisionQuorum())
      decreases Rank(r.action)
    {
      match r.action {
        case Create =>
          r := r.(action := Sign);
        case Sign =>
          var ok := CheckProvisionSignatures(r);
          if ok {
            r := r.(action := Pay);
          }
        case _ =>
      }
      if current == r.action {
        break;
      }
      current := r.action;
      modified := true;
    }
  }

  // ---------- Lazy evaluation ----------

  // What can happen to a document between two evaluations: signatures arrive, and so may results.
  predicate Grown(r: Reservation, r': Reservation) {
    && r' == r.(provisionSignatures := r'.provisionSignatures, deleteSignatures := r'.deleteSignatures,
                results := r'.results)
    && (r.ProvisionQuorum() ==> r'.ProvisionQuorum())
    && (r.DeleteQuorum() ==> r'.DeleteQuorum())
  }

  // The derived action is never stored by readers. Storing it at t1 would make no difference at
  // t2, unless the reservation was late at t1 and its deployment was completed after that: the
  // stored Delete would stick, the lazily evaluated reservation comes back.
  lemma LazyEvaluationIff(t1: int, t2: int, r: Reservation, r': Reservation)
    requires t1 <= t2 && Grown(r, r')
    ensures Derive(t2, r'.(action := Derive(t1, r))) == Derive(t2, r')
       <==> !(r.action != Delete && r.action != Deleted && !r.Doomed(t1) && r.Late(t1)
              && !r'.Doomed(t2) && r'.IsSuccessfullyDeployed())
  {
  }

  // ---------- Any number of pushes ----------

  datatype Signing = ToProvision(signature: Signature) | ToDelete(signature: Signature)

  function PushAll(r: Reservation, signings: seq<Signing>): Reservation {
    if signings == [] then r
    else
      var r', last := PushAll(r, signings[..|signings| - 1]), signings[|signings| - 1];
      match last
      case ToProvision(s) => r'.(provisionSignatures := Push(r'.provisionSignatures, s))
      case ToDelete(s) => r'.(deleteSignatures := Push(r'.deleteSignatures, s))
  }

  lemma {:induction false} PushesGrow(r: Reservation, signings: seq<Signing>)
    requires OneEach(r.provisionSignatures) && OneEach(r.deleteSignatures)
    ensures var r' := PushAll(r, signings);
            OneEach(r'.provisionSignatures) && OneEach(r'.deleteSignatures) && Grown(r, r') && r'.results == r.results
  {
    if signings == [] {
    } else {
      PushesGrow(r, signings[..|signings| - 1]);
      var r' := PushAll(r, signings[..|signings| - 1]);
      var s := signings[|signings| - 1].signature;
      PushKeepsQuorum(r'.provisionSignatures, s, r'.provision.signers);
      PushKeepsQuorum(r'.deleteSignatures, s, r'.deletion.signers);
    }
  }

  lemma {:induction false} PushesIgnoreAction(r: Reservation, signings: seq<Signing>, action: Action)
    ensures PushAll(r.(action := action), signings) == PushAll(r, signings).(action := action)
  {
    if signings == [] {
    } else {
      PushesIgnoreAction(r, signings[..|signings| - 1], action);
    }
  }

  // Whatever is signed between two evaluations, storing the first one's result makes no
  // difference to the second.
  lemma LazyEvaluation(t1: int, t2: int, r: Reservation, signings: seq<Signing>)
    requires t1 <= t2 && OneEach(r.provisionSignatures) && OneEach(r.deleteSignatures)
    ensures Derive(t2, PushAll(r.(action := Derive(t1, r)), signings)) == Derive(t2, PushAll(r, signings))
  {
    PushesGrow(r, signings);
    PushesIgnoreAction(r, signings, Derive(t1, r));
    LazyEvaluationIff(t1, t2, r, PushAll(r, signings));
  }

  // The list left by any pushes into an empty one has one entry per signer who signed, so the
  // quorum check counts the distinct allowed signers.
  function PushEach(signatures: seq<Signature>): seq<Signature> {
    if signatures == [] then []
    else Push(PushEach(signatures[..|signatures| - 1]), signatures[|signatures| - 1])
  }

  lemma {:induction false} PushedOnce(signatures: seq<Signature>)
    ensures OneEach(PushEach(signatures)) && Tids(PushEach(signatures)) == Tids(signatures)
  {
    if signatures == [] {
    } else {
      var init, last := signatures[..|signatures| - 1], signatures[|signatures| - 1];
      PushedOnce(init);
      PushKeepsQuorum(PushEach(init), last, []);
      TidsOfLast(signatures);
    }
  }

  lemma PushedCount(signatures: seq<Signature>, signers: seq<Tid>)
    ensures OneEach(PushEach(signatures))
    ensures Count(PushEach(signatures), signers) == |Tids(signatures) * SetOf(signers)|
  {
    PushedOnce(signatures);
    CountIsDistinctSigners(PushEach(signatures), signers);
  }
}
