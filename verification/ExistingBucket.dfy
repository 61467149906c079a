/** When a provisioning can cost an account a bucket it already had: exactly when it creates
    over it, configures it, and the compensation can reach something to delete. */
module ExistingBucket {
  import opened Wrappers
  import opened Store
  import opened Backend
  import opened Deletion
  import opened Records
  import opened Annotations
  import opened Provisioner
  import opened BucketSafety
  import opened Rollback

  /** The call asks for versioning, a firewall or a quota. */
  predicate Configures(plan: Plan) {
    plan.Versioning().Some? || plan.firewall.Some? || plan.quota.Some?
  }

  /** Deleting through the session would take something: the first object of a page, or a
      bucket that holds nothing. */
  predicate Exposed(w: World, s: Session, name: string) {
    && Denial(w, s, name) == None
    && if w.buckets[name].objects == [] then w.buckets[name].retained == 0 else w.page > 0
  }

  /** What must hold beforehand for the call to be able to cost its account the bucket. */
  predicate CanLose(w: World, plan: Plan, name: string) {
    && name == plan.pvc.bucket && plan.Creates() && Configures(plan) && plan.session.Some?
    && Exposed(w, plan.session.value, name)
    && w.buckets[name].owner == plan.session.value.creds.Account()
  }

  // ---------------------------------------------------------------- no loss

  lemma SparedByDeletion(w: World, s: Session, name: string)
    requires name in w.buckets && !Exposed(w, s, name)
    ensures DeleteBucketEffect(w, s, name).0.buckets == w.buckets
  {
  }

  lemma StaysUnexposed(w: World, s: Session, plan: Plan, step: Step)
    requires plan.pvc.bucket in w.buckets && !Exposed(w, s, plan.pvc.bucket)
    ensures var next := Perform(w, s, plan, step).0;
            plan.pvc.bucket in next.buckets && !Exposed(next, s, plan.pvc.bucket)
  {
  }

  lemma {:induction false} UnexposedIsSafe(w: World, claim: Claim, plan: Plan, k: nat, undo: bool)
    requires k <= STEPS && plan.session.Some?
    requires plan.pvc.bucket in w.buckets && !Exposed(w, plan.session.value, plan.pvc.bucket)
    ensures !Loses(w.buckets, RunFrom(w, claim, plan, k, undo).0.buckets, plan.pvc.bucket)
    decreases STEPS - k
  {
    if k < STEPS {
      if StepAt(plan, k).None? {
        UnexposedIsSafe(w, claim, plan, k + 1, undo);
      } else {
        var s, name := plan.session.value, plan.pvc.bucket;
        var (next, ok) := Perform(w, s, plan, StepAt(plan, k).value);
        var end := RunFrom(w, claim, plan, k, undo).0.buckets;
        PerformKeepsEverything(w, s, plan, StepAt(plan, k).value);
        StaysUnexposed(w, s, plan, StepAt(plan, k).value);
        if ok {
          UnexposedIsSafe(next, claim, plan, k + 1, if k == 0 then CreateSucceeds(w, plan) else undo);
          if Loses(w.buckets, end, name) {
            LossHappensSomewhere(w.buckets, next.buckets, end, name);
          }
        } else {
          SparedByDeletion(next, s, name);
        }
      }
    }
  }

  /** Nothing to configure, nothing to compensate. */
  lemma {:induction false} UnconfiguredIsSafe(w: World, claim: Claim, plan: Plan, k: nat, undo: bool)
    requires k <= STEPS && !Configures(plan)
    ensures var outcome := RunFrom(w, claim, plan, k, undo).1;
            outcome.Stopped? ==> outcome.cleanup == NotAttempted
    decreases STEPS - k
  {
    if k < STEPS {
      if StepAt(plan, k).None? {
        UnconfiguredIsSafe(w, claim, plan, k + 1, undo);
      } else {
        var s := if plan.session.Some? then plan.session.value else NO_SESSION;
        var (next, ok) := Perform(w, s, plan, StepAt(plan, k).value);
        if ok {
          UnconfiguredIsSafe(next, claim, plan, k + 1, if k == 0 then CreateSucceeds(w, plan) else undo);
        }
      }
    }
  }

  lemma NoLossUnless(w: World, claim: Claim, plan: Plan, name: string)
    requires Loses(w.buckets, RunFrom(w, claim, plan, 0, false).0.buckets, name)
    ensures CanLose(w, plan, name)
  {
    TransactionLosesOnlyByRollback(w, claim, plan, 0, false, name);
    CreatedOverExisting(w, plan);
    if !Configures(plan) {
      UnconfiguredIsSafe(w, claim, plan, 0, false);
    }
    if !Exposed(w, plan.session.value, name) {
      UnexposedIsSafe(w, claim, plan, 0, false);
    }
  }

  // ---------------------------------------------------------------- loss

  lemma {:induction false} KeysOnlyLeave(w: World, s: Session, name: string, keys: seq<string>)
    requires Denial(w, s, name) == None && Quiet(w)
    ensures var (after, err) := DeleteKeys(w, s, name, keys);
            && err.None? && Quiet(after) && Denial(after, s, name) == None
            && forall key :: key in after.buckets[name].objects ==> key in w.buckets[name].objects
    decreases keys
  {
    if keys != [] {
      var next := DeleteObjectCall(w, s, name, keys[0]).0;
      WithoutOnlyLeaves(w.buckets[name].objects, keys[0]);
      KeysOnlyLeave(next, s, name, keys[1..]);
    }
  }

  lemma {:induction false} WithoutOnlyLeaves(objects: seq<string>, key: string)
    ensures forall k :: k in Without(objects, key) ==> k in objects
  {
    if objects != [] && objects[0] != key {
      WithoutOnlyLeaves(objects[1..], key);
    }
  }

  /** A fault-free deletion of an exposed bucket takes its first object, or the bucket. */
  lemma ExposedIsHit(w: World, s: Session, name: string)
    requires Exposed(w, s, name) && Quiet(w) && Distinct(w.buckets[name].objects)
    ensures Loses(w.buckets, DeleteBucketEffect(w, s, name).0.buckets, name)
  {
    var objects := w.buckets[name].objects;
    MatchingEverything(objects);
    if objects != [] {
      var (listed, keys) := ListCall(w, s, name, "", w.page);
      var next := DeleteObjectCall(listed, s, name, objects[0]).0;
      assert Without(objects, objects[0]) == objects[1..];
      assert objects[0] !in objects[1..];
      KeysOnlyLeave(next, s, name, keys.value[1..]);
      assert objects[0] in objects;
    }
  }

  /** The first configuring request is dropped: the compensation meets the bucket as it was. */
  lemma {:induction false} FirstConfigurationDropped(w: World, claim: Claim, plan: Plan, k: nat)
    requires 1 <= k <= 3 && ConfigurationsFrom(plan, k) > 0 && plan.session.Some? && w.fates(w.clock) == Dropped
    ensures var (end, outcome) := RunFrom(w, claim, plan, k, true);
            end == DeleteBucketEffect(w.(clock := w.clock + 1), plan.session.value, plan.pvc.bucket).0
    decreases STEPS - k
  {
    if StepAt(plan, k).None? {
      FirstConfigurationDropped(w, claim, plan, k + 1);
    } else {
      var (next, ok) := Perform(w, plan.session.value, plan, StepAt(plan, k).value);
      assert next == w.(clock := w.clock + 1) && !ok;
    }
  }

  /** The create is served, the next request is dropped, everything after that is served. */
  function DropSecond(clock: nat): nat -> Fate {
    i => if i == clock + 1 then Dropped else Served
  }

  lemma DroppedTransaction(w: World, claim: Claim, plan: Plan, name: string)
    requires CanLose(w, plan, name) && w.fates == DropSecond(w.clock)
    ensures var compensating := w.(clock := w.clock + 2);
            Quiet(compensating) &&
            RunFrom(w, claim, plan, 0, false).0 == DeleteBucketEffect(compensating, plan.session.value, name).0
  {
    var next := Perform(w, plan.session.value, plan, Create).0;
    assert next == w.(clock := w.clock + 1);
    assert ConfigurationsFrom(plan, 1) > 0 by {
      assert ConfigurationsFrom(plan, 3) > 0 <==> plan.quota.Some?;
      assert ConfigurationsFrom(plan, 2) > 0 <==> plan.firewall.Some? || plan.quota.Some?;
    }
    FirstConfigurationDropped(next, claim, plan, 1);
    assert RunFrom(w, claim, plan, 0, false) == RunFrom(next, claim, plan, 1, true);
  }

  // ---------------------------------------------------------------- both ways

  /** The store after the transaction under the given fates. */
  function After(w: World, fates: nat -> Fate, claim: Claim, plan: Plan): Buckets {
    RunFrom(w.(fates := fates), claim, plan, 0, false).0.buckets
  }

  /** A provisioning costs nothing of an existing bucket, whatever the faults, exactly when it
      does not both create over its account's own bucket and configure it, or the compensation
      could reach nothing there. */
  lemma TransactionSafeIff(w: World, claim: Claim, plan: Plan, name: string)
    requires name in w.buckets && Distinct(w.buckets[name].objects)
    ensures (forall fates: nat -> Fate :: !Loses(w.buckets, After(w, fates, claim, plan), name))
            <==> !CanLose(w, plan, name)
  {
    forall fates: nat -> Fate | Loses(w.buckets, After(w, fates, claim, plan), name)
      ensures CanLose(w, plan, name)
    {
      NoLossUnless(w.(fates := fates), claim, plan, name);
    }
    if CanLose(w, plan, name) {
      var dropping := w.(fates := DropSecond(w.clock));
      DroppedTransaction(dropping, claim, plan, name);
      ExposedIsHit(dropping.(clock := w.clock + 2), plan.session.value, name);
      assert Loses(w.buckets, After(w, DropSecond(w.clock), claim, plan), name);
    }
  }

  function ProvisionAfter(w: World, fates: nat -> Fate, env: Env, claim: Claim): Buckets {
    ProvisionEffect(w.(fates := fates), env, claim).0.buckets
  }

  lemma ProvisionIsTransaction(w: World, fates: nat -> Fate, env: Env, claim: Claim)
    ensures ProvisionAfter(w, fates, env, claim) ==
            if Prepare(env, claim).Ready? then After(w, fates, claim, Prepare(env, claim).plan) else w.buckets
  {
  }

  /** The same for whole calls, of any claim and any bucket. */
  lemma ProvisionSafeIff(w: World, env: Env, claim: Claim, name: string)
    requires name in w.buckets && Distinct(w.buckets[name].objects)
    ensures (forall fates: nat -> Fate :: !Loses(w.buckets, ProvisionAfter(w, fates, env, claim), name)) <==>
              !(Prepare(env, claim).Ready? && CanLose(w, Prepare(env, claim).plan, name))
  {
    var prepared := Prepare(env, claim);
    forall fates: nat -> Fate
      ensures ProvisionAfter(w, fates, env, claim) == if prepared.Ready? then After(w, fates, claim, prepared.plan)
              else w.buckets
    {
      ProvisionIsTransaction(w, fates, env, claim);
    }
    LiftedSafeIff(w, env, claim, prepared, name);
  }

  lemma LiftedSafeIff(w: World, env: Env, claim: Claim, prepared: Preparation, name: string)
    requires name in w.buckets && Distinct(w.buckets[name].objects)
    requires forall fates: nat -> Fate :: ProvisionAfter(w, fates, env, claim) ==
               if prepared.Ready? then After(w, fates, claim, prepared.plan) else w.buckets
    ensures (forall fates: nat -> Fate :: !Loses(w.buckets, ProvisionAfter(w, fates, env, claim), name)) <==>
              !(prepared.Ready? && CanLose(w, prepared.plan, name))
  {
    if prepared.Ready? {
      TransactionSafeIff(w, claim, prepared.plan, name);
    }
    if prepared.Ready? && CanLose(w, prepared.plan, name) {
      var fates: nat -> Fate :| Loses(w.buckets, After(w, fates, claim, prepared.plan), name);
      assert Loses(w.buckets, ProvisionAfter(w, fates, env, claim), name);
    }
  }

  /** An unversioned one-page bucket that can lose anything can be lost whole. */
  lemma RollbackDeletesOwnedBucket(w: World, claim: Claim, plan: Plan, name: string)
    requires CanLose(w, plan, name)
    requires var b := w.buckets[name]; b.versioning == Unset && b.retained == 0 && |b.objects| <= w.page
    ensures After(w, DropSecond(w.clock), claim, plan) == w.buckets - {name}
  {
    var dropping := w.(fates := DropSecond(w.clock));
    DroppedTransaction(dropping, claim, plan, name);
    QuietDeletion(dropping.(clock := w.clock + 2), plan.session.value, name);
  }

  // ---------------------------------------------------------------- deletions, and whole runs

  /** The volume's deletion aims at this bucket and can take something there. */
  predicate DeletesExposed(w: World, env: Env, v: Volume, name: string) {
    var a := UnmarshalPvc(v.annotations);
    && a.Some? && a.value.autoDeleteBucket == "true" && a.value.bucket == name
    && SessionToDelete(env, v, a.value).Some?
    && Exposed(w, SessionToDelete(env, v, a.value).value, name)
  }

  function DeleteAfter(w: World, fates: nat -> Fate, env: Env, v: Volume): Buckets {
    DeleteEffect(w.(fates := fates), env, v).0.buckets
  }

  lemma DeleteLossNeeds(w: World, env: Env, v: Volume, name: string)
    requires Loses(w.buckets, DeleteEffect(w, env, v).0.buckets, name)
    ensures DeletesExposed(w, env, v, name)
  {
    OneCallLoss(w, DeleteCall(env, v), name);
    var a := UnmarshalPvc(v.annotations).value;
    if !Exposed(w, SessionToDelete(env, v, a).value, name) {
      SparedByDeletion(w, SessionToDelete(env, v, a).value, name);
    }
  }

  /** Deleting a volume costs nothing of a bucket, whatever the faults, exactly when it does not
      aim an auto-delete at something it can take. */
  lemma DeleteSafeIff(w: World, env: Env, v: Volume, name: string)
    requires name in w.buckets && Distinct(w.buckets[name].objects)
    ensures (forall fates: nat -> Fate :: !Loses(w.buckets, DeleteAfter(w, fates, env, v), name))
            <==> !DeletesExposed(w, env, v, name)
  {
    forall fates: nat -> Fate | Loses(w.buckets, DeleteAfter(w, fates, env, v), name)
      ensures DeletesExposed(w, env, v, name)
    {
      DeleteLossNeeds(w.(fates := fates), env, v, name);
    }
    if DeletesExposed(w, env, v, name) {
      var calm := _ => Served;
      ExposedIsHit(w.(fates := calm), SessionToDelete(env, v, UnmarshalPvc(v.annotations).value).value, name);
      assert Loses(w.buckets, DeleteAfter(w, calm, env, v), name);
    }
  }

  /** What the store must look like before a call that costs something. */
  ghost predicate AtRisk(w: World, call: Call, name: string) {
    match call
    case ProvisionCall(env, claim) => Prepare(env, claim).Ready? && CanLose(w, Prepare(env, claim).plan, name)
    case DeleteCall(env, volume) => DeletesExposed(w, env, volume, name)
    case Upload(_, _) => false
  }

  lemma CallLossNeeds(w: World, call: Call, name: string)
    requires LosesAt(w, call, name)
    ensures AtRisk(w, call, name)
  {
    match call
    case ProvisionCall(env, claim) => NoLossUnless(w, claim, Prepare(env, claim).plan, name);
    case DeleteCall(env, volume) => DeleteLossNeeds(w, env, volume, name);
    case Upload(_, _) =>
  }

  /** Over any run, under any faults, a loss happens in a call that was bound to be dangerous
      before it started. */
  lemma OnlyCallsAtRiskLose(w: World, calls: seq<Call>, name: string)
    requires Loses(w.buckets, Run(w, calls).buckets, name)
    ensures exists i ::
              && 0 <= i < |calls|
              && LosesAt(Run(w, calls[..i]), calls[i], name)
              && AtRisk(Run(w, calls[..i]), calls[i], name)
  {
    var i := SomeCallLoses(w, calls, name);
    CallLossNeeds(Run(w, calls[..i]), calls[i], name);
  }
}
