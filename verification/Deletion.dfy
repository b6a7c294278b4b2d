/** When a deleted reservation stays deleted. */
module Deletion {
  import opened Workloads
  import opened Pipeline
  import opened Reports
  import opened Lifecycle

  // ---------- The writes that undo a deletion ----------

  // Delete written by any handler, Deploy written by the escrow loop, and the free escrow acting on
  // the action it was handed before.
  predicate Overwrites(e: Event, id: Id) {
    || (e.Do? && e.task.WriteDelete? && e.task.id == id)
    || (e.SetDeploy? && e.id == id)
    || (e.RegisterFree? && e.task.Registering? && e.task.id == id && e.task.action == Pay)
  }

  // A step on a stored Deleted leaves it if and only if it is none of those.
  lemma DeletedStaysIff(s: Store, now: int, e: Event, id: Id)
    requires Enabled(s, now, e) && id in s.reservations && s.reservations[id].id == id &&
             s.reservations[id].action == Deleted
    ensures id in Apply(s, now, e).reservations
    ensures Apply(s, now, e).reservations[id].action == Deleted <==> !Overwrites(e, id)
    ensures Overwrites(e, id) ==> Apply(s, now, e).reservations[id].action == if e.Do? then Delete else Deploy
  {
    StepWrites(s, now, e, id);
  }

  predicate IsDeleted(s: Store, id: Id) {
    id in s.reservations && s.reservations[id].action == Deleted
  }

  lemma StepIsDeleted(stores: seq<Store>, times: seq<int>, events: seq<Event>, k: nat, id: Id)
    requires IsRun(stores, times, events) && k < |events| && IsDeleted(stores[k], id)
    ensures IsDeleted(stores[k + 1], id) <==> !Overwrites(events[k], id)
  {
    RunKeepsInv(stores, times, events, k);
    DeletedStaysIff(stores[k], times[k], events[k], id);
  }

  lemma {:induction false} StaysDeleted(stores: seq<Store>, times: seq<int>, events: seq<Event>, m: nat, n: nat, id: Id)
    requires IsRun(stores, times, events) && m <= n < |stores| && IsDeleted(stores[m], id)
    requires forall k | m <= k < n :: !Overwrites(events[k], id)
    ensures IsDeleted(stores[n], id)
    decreases n - m
  {
    if m == n {
    } else {
      StaysDeleted(stores, times, events, m, n - 1, id);
      StepIsDeleted(stores, times, events, n - 1, id);
    }
  }

  // So it is over any stretch of any run.
  lemma DeletedIsFinalIff(stores: seq<Store>, times: seq<int>, events: seq<Event>, m: nat, n: nat, id: Id)
    requires IsRun(stores, times, events) && m <= n < |stores| && IsDeleted(stores[m], id)
    ensures (forall k | m <= k <= n :: IsDeleted(stores[k], id)) <==>
              (forall k | m <= k < n :: !Overwrites(events[k], id))
  {
    if forall k | m <= k < n :: !Overwrites(events[k], id) {
      forall k | m <= k <= n
        ensures IsDeleted(stores[k], id)
      {
        StaysDeleted(stores, times, events, m, k, id);
      }
    }
    if forall k | m <= k <= n :: IsDeleted(stores[k], id) {
      forall k | m <= k < n
        ensures !Overwrites(events[k], id)
      {
        StepIsDeleted(stores, times, events, k, id);
      }
    }
  }

  // ---------- The requests that lead to them ----------

  // A task that is going to write, or to have Delete written, whatever happens.
  predicate Undoes(task: Task, id: Id) {
    task.id == id &&
      (task.SendCancel? || task.WriteDelete? || (task.Registering? && task.action == Pay) ||
       (task.PushResult? && task.result.state == Error))
  }

  // Nothing that is still to be done for a deleted reservation undoes the deletion.
  predicate Quiet(s: Store, id: Id) {
    IsDeleted(s, id) && forall task | task in s.tasks :: !Undoes(task, id)
  }

  // A new error report, and a write of the escrow loop.
  predicate Disturbs(e: Event, id: Id) {
    (e.PutResult? && e.id == id && e.state == Error) || (e.SetDeploy? && e.id == id)
  }

  // Only those can end the quiet: neither signatures, nor lists, nor removals, nor the free escrow.
  lemma QuietStays(s: Store, now: int, e: Event, id: Id)
    requires Inv(s) && Enabled(s, now, e) && Quiet(s, id) && !Disturbs(e, id)
    ensures Quiet(Apply(s, now, e), id)
  {
    var s' := Apply(s, now, e);
    assert !Overwrites(e, id);
    DeletedStaysIff(s, now, e, id);
    forall task | task in s'.tasks
      ensures !Undoes(task, id)
    {
      if task !in s.tasks {
        NewTaskIsQuiet(s, now, e, task, id);
      }
    }
  }

  lemma NewTaskIsQuiet(s: Store, now: int, e: Event, task: Task, id: Id)
    requires Inv(s) && Enabled(s, now, e) && Quiet(s, id) && !Disturbs(e, id)
    requires task in Apply(s, now, e).tasks && task !in s.tasks
    ensures !Undoes(task, id)
  {
    if e.Do? && e.task.id == id {
      assert !Undoes(e.task, id);
      FollowUpIsQuiet(s.reservations[id], now, e.task, task);
    } else if e.Do? {
      FollowUpIsQuietElsewhere(s.reservations[e.task.id], now, e.task, task, id);
    } else {
      RequestIsQuiet(s, now, e, task, id);
    }
  }

  lemma RequestIsQuiet(s: Store, now: int, e: Event, task: Task, id: Id)
    requires Enabled(s, now, e) && IsDeleted(s, id) && !Disturbs(e, id) && !e.Do?
    requires task in Apply(s, now, e).tasks && task !in s.tasks
    ensures !Undoes(task, id)
  {
  }

  lemma FollowUpIsQuiet(r: Reservation, now: int, done: Task, task: Task)
    requires r.action == Deleted && !Undoes(done, done.id) && task in FollowUp(r, now, done)
    ensures !Undoes(task, done.id)
  {
  }

  lemma FollowUpIsQuietElsewhere(r: Reservation, now: int, done: Task, task: Task, id: Id)
    requires done.id != id && task in FollowUp(r, now, done)
    ensures !Undoes(task, id)
  {
    FollowUpIsOk(r, now, done, task);
  }

  // So it is over any stretch of any run.
  lemma {:induction false} QuietIsFinal(stores: seq<Store>, times: seq<int>, events: seq<Event>, m: nat, n: nat, id: Id)
    requires IsRun(stores, times, events) && m <= n < |stores| && Quiet(stores[m], id)
    requires forall k | m <= k < n :: !Disturbs(events[k], id)
    ensures Quiet(stores[n], id)
    decreases n - m
  {
    if m == n {
    } else {
      QuietIsFinal(stores, times, events, m, n - 1, id);
      RunKeepsInv(stores, times, events, n - 1);
      QuietStays(stores[n - 1], times[n - 1], events[n - 1], id);
    }
  }

  // ---------- What is still to be done ----------

  // The handlers go on with what they have to do; no new request comes in.
  ghost predicate GoesOn(s: Store, now: int, events: seq<Event>)
    decreases |events|
  {
    events == [] ||
      (Enabled(s, now, events[0]) && (events[0].Do? || events[0].RegisterFree?) &&
       GoesOn(Apply(s, now, events[0]), now, events[1..]))
  }

  ghost function After(s: Store, now: int, events: seq<Event>): Store
    requires GoesOn(s, now, events)
    decreases |events|
  {
    if events == [] then s else After(Apply(s, now, events[0]), now, events[1..])
  }

  // Exactly then is a deletion final whatever the handlers still have to do.
  lemma QuietIff(s: Store, now: int, id: Id)
    requires Inv(s) && IsDeleted(s, id)
    ensures Quiet(s, id) <==> forall events | GoesOn(s, now, events) :: IsDeleted(After(s, now, events), id)
  {
    if Quiet(s, id) {
      forall events | GoesOn(s, now, events)
        ensures IsDeleted(After(s, now, events), id)
      {
        QuietGoesOn(s, now, events, id);
      }
    } else {
      var task :| task in s.tasks && Undoes(task, id);
      var events := Undoing(s, now, task, id);
    }
  }

  lemma {:induction false} QuietGoesOn(s: Store, now: int, events: seq<Event>, id: Id)
    requires Inv(s) && Quiet(s, id) && GoesOn(s, now, events)
    ensures Quiet(After(s, now, events), id)
    decreases |events|
  {
    if events == [] {
    } else {
      StepKeepsInv(s, now, events[0]);
      QuietStays(s, now, events[0], id);
      QuietGoesOn(Apply(s, now, events[0]), now, events[1..], id);
    }
  }

  // An error report is stored, the cancellation sent, and Delete written; or the free escrow writes
  // Deploy.
  lemma Undoing(s: Store, now: int, task: Task, id: Id) returns (events: seq<Event>)
    requires IsDeleted(s, id) && s.reservations[id].id == id && task in s.tasks && Undoes(task, id)
    ensures GoesOn(s, now, events) && !IsDeleted(After(s, now, events), id)
    decreases if task.PushResult? then 2 else if task.SendCancel? then 1 else 0
  {
    var e := if task.Registering? then RegisterFree(task) else Do(task);
    var s' := Apply(s, now, e);
    if task.Registering? || task.WriteDelete? {
      events := [e];
      OneGoesOn(s, now, e);
    } else {
      var next := if task.SendCancel? then WriteDelete(id) else SendCancel(id);
      assert next in FollowUp(s.reservations[id], now, task);
      var rest := Undoing(s', now, next, id);
      events := [e] + rest;
      assert events[1..] == rest;
    }
  }

  lemma OneGoesOn(s: Store, now: int, e: Event)
    requires Enabled(s, now, e) && (e.Do? || e.RegisterFree?)
    ensures GoesOn(s, now, [e]) && After(s, now, [e]) == Apply(s, now, e)
  {
    assert [e][1..] == [];
  }
}
