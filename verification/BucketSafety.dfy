/** Which calls can ever cost someone a bucket or an object. */
module BucketSafety {
  import opened Wrappers
  import opened Store
  import opened Backend
  import opened Deletion
  import opened Records
  import opened Annotations
  import opened Provisioner

  /** `name` is gone, or one of its objects is. */
  ghost predicate Loses(before: Buckets, after: Buckets, name: string) {
    name in before && (name !in after || exists key :: key in before[name].objects && key !in after[name].objects)
  }

  /** No single step of a provisioning removes anything; it touches its own bucket only. */
  lemma PerformKeepsEverything(w: World, s: Session, plan: Plan, step: Step)
    ensures var (after, ok) := Perform(w, s, plan, step);
            && SameCloud(w, after)
            && SameElsewhere(w.buckets, after.buckets, plan.pvc.bucket)
            && forall n :: n in w.buckets ==> n in after.buckets && after.buckets[n].objects == w.buckets[n].objects
  {
  }

  lemma DeletionTouchesOneBucket(w: World, s: Session, name: string)
    ensures var (after, err) := DeleteBucketEffect(w, s, name);
            SameCloud(w, after) && SameElsewhere(w.buckets, after.buckets, name)
  {
    var (listed, keys) := ListCall(w, s, name, "", w.page);
    if keys.Ok? {
      KeysTouchOneBucket(listed, s, name, keys.value);
      var emptied := DeleteKeys(listed, s, name, keys.value).0;
      assert (emptied.buckets - {name}) - {name} == emptied.buckets - {name};
    }
  }

  lemma {:induction false} KeysTouchOneBucket(w: World, s: Session, name: string, keys: seq<string>)
    ensures var (after, err) := DeleteKeys(w, s, name, keys);
            SameCloud(w, after) && SameElsewhere(w.buckets, after.buckets, name)
    decreases keys
  {
    if keys != [] {
      var (next, err) := DeleteObjectCall(w, s, name, keys[0]);
      if name in w.buckets {
        Overwrite(w.buckets, name, AfterDelete(w.buckets[name], keys[0]));
      }
      if err.None? {
        KeysTouchOneBucket(next, s, name, keys[1..]);
      }
    }
  }

  /** Within one provisioning, loss means compensation, and compensation means this call's
      create succeeded. */
  lemma {:induction false} TransactionLosesOnlyByRollback(w: World, claim: Claim, plan: Plan, k: nat, undo: bool,
                                                          name: string)
    requires k <= STEPS
    ensures var (after, outcome) := RunFrom(w, claim, plan, k, undo);
            && SameElsewhere(w.buckets, after.buckets, plan.pvc.bucket)
            && (Loses(w.buckets, after.buckets, name) ==>
                  && name == plan.pvc.bucket
                  && outcome.Stopped? && outcome.cleanup != NotAttempted
                  && if k == 0 && plan.Creates() then CreateSucceeds(w, plan) else undo)
    decreases STEPS - k
  {
    if k < STEPS {
      if StepAt(plan, k).None? {
        TransactionLosesOnlyByRollback(w, claim, plan, k + 1, undo, name);
      } else {
        var step := StepAt(plan, k).value;
        if !NeedsSession(step) || plan.session.Some? {
          var s := if plan.session.Some? then plan.session.value else NO_SESSION;
          var (next, ok) := Perform(w, s, plan, step);
          PerformKeepsEverything(w, s, plan, step);
          if ok {
            TransactionLosesOnlyByRollback(next, claim, plan, k + 1,
                                           if k == 0 then CreateSucceeds(w, plan) else undo, name);
          } else {
            DeletionTouchesOneBucket(next, s, plan.pvc.bucket);
            OtherBucketsSafe(next.buckets, DeleteBucketEffect(next, s, plan.pvc.bucket).0.buckets, plan.pvc.bucket,
                             name);
          }
        }
      }
    }
  }

  lemma OtherBucketsSafe(before: Buckets, after: Buckets, touched: string, name: string)
    requires SameElsewhere(before, after, touched)
    ensures Loses(before, after, name) ==> name == touched
  {
    Rebuild(before, after, touched);
  }

  // ---------------------------------------------------------------- whole runs

  /** Calls of the two operations, in any order, interleaved with users adding objects. */
  datatype Call = ProvisionCall(env: Env, claim: Claim) | DeleteCall(env: Env, volume: Volume)
                | Upload(name: string, listing: seq<string>)

  function Apply(w: World, call: Call): World {
    match call
    case ProvisionCall(env, claim) => ProvisionEffect(w, env, claim).0
    case DeleteCall(env, volume) => DeleteEffect(w, env, volume).0
    case Upload(name, listing) =>
      if name in w.buckets && (forall key :: key in w.buckets[name].objects ==> key in listing)
      then w.(buckets := w.buckets[name := w.buckets[name].(objects := listing)]) else w
  }

  function Run(w: World, calls: seq<Call>): World
    decreases calls
  {
    if calls == [] then w else Run(Apply(w, calls[0]), calls[1..])
  }

  /** The call's own create of `name` returned no error, a later step failed, and the call
      deleted the bucket. A bucket that was there before can only be the caller's own. */
  ghost predicate RollsBack(w: World, env: Env, claim: Claim, name: string) {
    var prepared := Prepare(env, claim);
    var outcome := ProvisionEffect(w, env, claim).1;
    && prepared.Ready? && prepared.plan.pvc.bucket == name && CreateSucceeds(w, prepared.plan)
    && (name in w.buckets ==> w.buckets[name].owner == prepared.plan.session.value.creds.Account())
    && outcome.Stopped? && outcome.cleanup != NotAttempted
  }

  ghost predicate AutoDeletes(volume: Volume, name: string) {
    var a := UnmarshalPvc(volume.annotations);
    a.Some? && a.value.autoDeleteBucket == "true" && a.value.bucket == name
  }

  ghost predicate Cause(w: World, call: Call, name: string) {
    match call
    case ProvisionCall(env, claim) => RollsBack(w, env, claim, name)
    case DeleteCall(_, volume) => AutoDeletes(volume, name)
    case Upload(_, _) => false
  }

  ghost predicate LosesAt(w: World, call: Call, name: string) {
    Loses(w.buckets, Apply(w, call).buckets, name)
  }

  /** The store told a successful create of an existing bucket that the caller owns it; a
      bucket reported as existing for somebody else never counts as created. */
  lemma CreatedOverExisting(w: World, plan: Plan)
    requires plan.pvc.bucket in w.buckets && CreateSucceeds(w, plan)
    ensures CreateCall(w, plan.session.value, plan.pvc.bucket, plan.sc.osStorageClass, plan.rootKey).1
            == Some(BucketAlreadyOwnedByYou)
    ensures w.buckets[plan.pvc.bucket].owner == plan.session.value.creds.Account()
  {
  }

  lemma OneCallLoss(w: World, call: Call, name: string)
    requires LosesAt(w, call, name)
    ensures Cause(w, call, name)
  {
    match call
    case ProvisionCall(env, claim) =>
      var plan := Prepare(env, claim).plan;
      TransactionLosesOnlyByRollback(w, claim, plan, 0, false, name);
      CreatedOverExisting(w, plan);
    case DeleteCall(env, volume) =>
      var a := UnmarshalPvc(volume.annotations);
      var s := SessionToDelete(env, volume, a.value).value;
      DeletionTouchesOneBucket(w, s, a.value.bucket);
      OtherBucketsSafe(w.buckets, DeleteBucketEffect(w, s, a.value.bucket).0.buckets, a.value.bucket, name);
    case Upload(_, _) =>
  }

  lemma LossHappensSomewhere(a: Buckets, b: Buckets, c: Buckets, name: string)
    requires Loses(a, c, name)
    ensures Loses(a, b, name) || Loses(b, c, name)
  {
  }

  lemma RunStepsOnce(w: World, calls: seq<Call>, j: nat)
    requires calls != [] && j < |calls|
    ensures Run(w, calls) == Run(Apply(w, calls[0]), calls[1..])
    ensures Run(w, calls[..j + 1]) == Run(Apply(w, calls[0]), calls[1..][..j])
    ensures Run(w, calls[..0]) == w
  {
    assert calls[..j + 1][1..] == calls[1..][..j];
  }

  lemma {:induction false} SomeCallLoses(w: World, calls: seq<Call>, name: string) returns (i: nat)
    requires Loses(w.buckets, Run(w, calls).buckets, name)
    ensures i < |calls| && LosesAt(Run(w, calls[..i]), calls[i], name)
    decreases calls
  {
    var next := Apply(w, calls[0]);
    RunStepsOnce(w, calls, 0);
    if Loses(w.buckets, next.buckets, name) {
      i := 0;
    } else {
      LossHappensSomewhere(w.buckets, next.buckets, Run(w, calls).buckets, name);
      var j := SomeCallLoses(next, calls[1..], name);
      RunStepsOnce(w, calls, j);
      i := j + 1;
    }
  }

  /** Over any run, under any faults, a bucket or an object disappears only in a call that
      rolled back its own successful create or that deleted an auto-delete volume. */
  lemma OnlyRollbackAndAutoDeleteLose(w: World, calls: seq<Call>, name: string)
    requires Loses(w.buckets, Run(w, calls).buckets, name)
    ensures exists i ::
              && 0 <= i < |calls|
              && LosesAt(Run(w, calls[..i]), calls[i], name)
              && Cause(Run(w, calls[..i]), calls[i], name)
  {
    var i := SomeCallLoses(w, calls, name);
    OneCallLoss(Run(w, calls[..i]), calls[i], name);
  }
}
