/** The transaction against a bucket name that was free before: what a volume's bucket looks
    like, when a failed call restores the store, and when it leaves the bucket behind. */
module Rollback {
  import opened Wrappers
  import opened Store
  import opened Backend
  import opened Deletion
  import opened Records
  import opened Annotations
  import opened Provisioner
  import opened BucketSafety
  import IpLists

  /** The bucket of a new volume once the steps before `k` have succeeded. */
  function BucketAfter(plan: Plan, s: Session, k: nat): Bucket {
    var v := plan.Versioning();
    NewBucket(s, plan.sc.osStorageClass, plan.rootKey).(
      versioning := if k <= 1 || v.None? then Unset else VersioningFor(v.value),
      firewall := if k <= 2 || plan.firewall.None? then None else Some(IpLists.Entries(plan.firewall.value)),
      quota := if k <= 3 then None else plan.quota)
  }

  /** `name` is an empty bucket of this session, added to `base`. */
  ghost predicate AddedEmpty(base: Buckets, w: World, s: Session, name: string) {
    && name !in base
    && w.buckets - {name} == base
    && Denial(w, s, name) == None
    && w.buckets[name].objects == [] && w.buckets[name].retained == 0
  }

  lemma AddThenRemove(base: Buckets, name: string, b: Bucket)
    requires name !in base
    ensures base[name := b] - {name} == base
  {
  }

  /** Deleting a still empty bucket restores the store whenever it reports success; when it
      fails, the bucket is gone only if just the last reply was lost. */
  lemma DeleteAddedBucket(base: Buckets, w: World, s: Session, name: string)
    requires AddedEmpty(base, w, s, name)
    ensures var (after, err) := DeleteBucketEffect(w, s, name);
            && SameCloud(w, after)
            && (err.None? ==> after.buckets == base)
            && (err.Some? ==> (name !in after.buckets <==> err.value.BucketFailed? && w.fates(after.clock - 1) == Lost))
            && (err.Some? ==> after.buckets == if name in after.buckets then w.buckets else base)
            && (Quiet(w) ==> err.None?)
  {
  }

  function Configured(b: Bucket, step: Step): Bucket {
    match step
    case SetVersioning(enable) => b.(versioning := VersioningFor(enable))
    case SetFirewall(ips) => b.(firewall := Some(IpLists.Entries(ips)))
    case SetQuota(limit) => b.(quota := Some(limit))
    case _ => b
  }

  lemma NextConfiguration(plan: Plan, s: Session, k: nat)
    requires 1 <= k < STEPS && StepAt(plan, k).Some?
    ensures BucketAfter(plan, s, k + 1) == Configured(BucketAfter(plan, s, k), StepAt(plan, k).value)
  {
  }

  /** On a bucket the session can reach, a request configures it or leaves it alone. */
  lemma PerformConfigures(w: World, s: Session, plan: Plan, step: Step)
    requires Denial(w, s, plan.pvc.bucket) == None && !step.Create?
    ensures var (after, ok) := Perform(w, s, plan, step);
            var done := w.buckets[plan.pvc.bucket := Configured(w.buckets[plan.pvc.bucket], step)];
            (after.buckets == w.buckets || after.buckets == done) && (ok ==> after.buckets == done)
  {
  }

  /** A step on the added bucket moves it to its next configuration or, if it fails, leaves
      it there or where it was. */
  lemma StepOnAddedBucket(base: Buckets, w: World, s: Session, plan: Plan, k: nat)
    requires 1 <= k < STEPS && plan.pvc.bucket !in base
    requires w.buckets == base[plan.pvc.bucket := BucketAfter(plan, s, k)]
    requires StepAt(plan, k).Some?
    ensures var (after, ok) := Perform(w, s, plan, StepAt(plan, k).value);
            && (after.buckets == w.buckets || after.buckets == base[plan.pvc.bucket := BucketAfter(plan, s, k + 1)])
            && (ok || k >= 4 ==> after.buckets == base[plan.pvc.bucket := BucketAfter(plan, s, k + 1)])
  {
    NextConfiguration(plan, s, k);
    PerformConfigures(w, s, plan, StepAt(plan, k).value);
    Replace(base, plan.pvc.bucket, BucketAfter(plan, s, k), BucketAfter(plan, s, k + 1));
  }

  /** What the rest of the transaction makes of a bucket it created itself. */
  ghost predicate Settled(base: Buckets, name: string, final: Bucket, end: World, outcome: Outcome) {
    match outcome
    case Rejected => false
    case Provisioned(_) => end.buckets == base[name := final]
    case NilDereference(at) => at == STEPS && end.buckets == base[name := final]
    case Stopped(at, NotAttempted) => at >= 4 && end.buckets == base[name := final]
    case Stopped(at, Cleaned) => 1 <= at <= 3 && end.buckets == base
    case Stopped(at, Uncleaned(cause)) =>
      && 1 <= at <= 3
      && end.buckets - {name} == base
      && end.clock > 0
      && (name !in end.buckets <==> cause.BucketFailed? && end.fates(end.clock - 1) == Lost)
  }

  lemma AddedStaysAdded(base: Buckets, w: World, s: Session, plan: Plan, k: nat)
    requires k < STEPS && plan.pvc.bucket !in base
    requires w.buckets == base[plan.pvc.bucket := BucketAfter(plan, s, k)] ||
             w.buckets == base[plan.pvc.bucket := BucketAfter(plan, s, k + 1)]
    ensures AddedEmpty(base, w, s, plan.pvc.bucket)
  {
    AddThenRemove(base, plan.pvc.bucket, w.buckets[plan.pvc.bucket]);
  }

  lemma SettlesAtFailure(base: Buckets, w: World, claim: Claim, plan: Plan, s: Session, k: nat)
    requires 1 <= k < STEPS && plan.session == Some(s) && plan.pvc.bucket !in base
    requires w.buckets == base[plan.pvc.bucket := BucketAfter(plan, s, k)]
    requires StepAt(plan, k).Some? && !Perform(w, s, plan, StepAt(plan, k).value).1
    ensures var (end, outcome) := RunFrom(w, claim, plan, k, true);
            Settled(base, plan.pvc.bucket, BucketAfter(plan, s, STEPS), end, outcome)
  {
    var next := Perform(w, s, plan, StepAt(plan, k).value).0;
    StepOnAddedBucket(base, w, s, plan, k);
    PerformKeepsEverything(w, s, plan, StepAt(plan, k).value);
    if k <= 3 {
      AddedStaysAdded(base, next, s, plan, k);
      DeleteAddedBucket(base, next, s, plan.pvc.bucket);
      var (undone, err) := DeleteBucketEffect(next, s, plan.pvc.bucket);
      assert RunFrom(w, claim, plan, k, true) ==
             (undone, Stopped(k, if err.None? then Cleaned else Uncleaned(err.value)));
    } else {
      assert RunFrom(w, claim, plan, k, true) == (next, Stopped(k, NotAttempted));
    }
  }

  lemma {:induction false} SettlesFrom(base: Buckets, w: World, claim: Claim, plan: Plan, s: Session, k: nat)
    requires 1 <= k <= STEPS && plan.session == Some(s) && plan.pvc.bucket !in base
    requires w.buckets == base[plan.pvc.bucket := BucketAfter(plan, s, k)]
    ensures var (end, outcome) := RunFrom(w, claim, plan, k, true);
            Settled(base, plan.pvc.bucket, BucketAfter(plan, s, STEPS), end, outcome)
    decreases STEPS - k
  {
    if k < STEPS {
      if StepAt(plan, k).None? {
        SettlesFrom(base, w, claim, plan, s, k + 1);
      } else {
        var (next, ok) := Perform(w, s, plan, StepAt(plan, k).value);
        if ok {
          StepOnAddedBucket(base, w, s, plan, k);
          SettlesFrom(base, next, claim, plan, s, k + 1);
          assert RunFrom(w, claim, plan, k, true) == RunFrom(next, claim, plan, k + 1, true);
        } else {
          SettlesAtFailure(base, w, claim, plan, s, k);
        }
      }
    }
  }

  /** A call that is to create a bucket under a free name, in full: a failed create leaves
      the bucket behind only when its reply was lost; a failure of versioning, firewall or
      quota restores the store exactly when the compensating delete reports success; from the
      access check on the bucket stays, configured as asked. */
  lemma TransactionOnFreeName(w: World, claim: Claim, plan: Plan)
    requires plan.Creates() && plan.session.Some? && plan.pvc.bucket !in w.buckets
    ensures var s, name := plan.session.value, plan.pvc.bucket;
            var (end, outcome) := RunFrom(w, claim, plan, 0, false);
            if w.fates(w.clock) == Served then Settled(w.buckets, name, BucketAfter(plan, s, STEPS), end, outcome)
            else
              && outcome == Stopped(0, NotAttempted)
              && end.buckets == if w.fates(w.clock) == Lost then w.buckets[name := BucketAfter(plan, s, 1)]
                   else w.buckets
  {
    var s := plan.session.value;
    var (next, ok) := Perform(w, s, plan, Create);
    if ok {
      SettlesFrom(w.buckets, next, claim, plan, s, 1);
      assert RunFrom(w, claim, plan, 0, false) == RunFrom(next, claim, plan, 1, true);
    }
  }

  lemma MissingBucketFails(w: World, s: Session, plan: Plan, step: Step)
    requires plan.pvc.bucket !in w.buckets && !step.Create?
    ensures var (after, ok) := Perform(w, s, plan, step);
            !ok && after.buckets == w.buckets
  {
  }

  /** A call that does not create its bucket never brings one into being. */
  lemma {:induction false} NothingAdded(w: World, claim: Claim, plan: Plan, k: nat)
    requires 1 <= k <= STEPS && plan.pvc.bucket !in w.buckets
    ensures RunFrom(w, claim, plan, k, false).0.buckets == w.buckets
    decreases STEPS - k
  {
    if k < STEPS {
      if StepAt(plan, k).None? {
        NothingAdded(w, claim, plan, k + 1);
      } else {
        var s := if plan.session.Some? then plan.session.value else NO_SESSION;
        MissingBucketFails(w, s, plan, StepAt(plan, k).value);
      }
    }
  }

  // ---------------------------------------------------------------- plans

  /** A plan without a session neither creates nor sets policies: a resource configuration
      key can only come from credentials that were fetched. */
  lemma SessionIffValidated(env: Env, claim: Claim)
    requires Prepare(env, claim).Ready?
    ensures var plan := Prepare(env, claim).plan;
            && (plan.session.Some? <==> plan.validate)
            && (plan.session.None? ==> !plan.Creates() && plan.firewall.None? && plan.quota.None? &&
                                       plan.pvc.validateBucket == "no" && plan.pvc.autoCreateBucket == "false")
  {
  }

  // ---------------------------------------------------------------- what is left behind, from the inputs

  /** How many of versioning, firewall and quota are still to be requested at step `k`. */
  function ConfigurationsFrom(plan: Plan, k: nat): nat
    decreases STEPS - k
  {
    if k > 3 then 0 else (if StepAt(plan, k).Some? then 1 else 0) + ConfigurationsFrom(plan, k + 1)
  }

  /** A new bucket with `left` configuring requests ahead, the next one at `at`: the first that
      is not served is followed by the compensation's list and delete, and the bucket goes iff
      the list is served and the delete arrives. */
  predicate Survives(fates: nat -> Fate, at: nat, left: nat)
    decreases left
  {
    left == 0 || (if fates(at) == Served then Survives(fates, at + 1, left - 1)
                  else fates(at + 1) != Served || fates(at + 2) == Dropped)
  }

  predicate LeavesBucket(fates: nat -> Fate, at: nat, configurations: nat) {
    fates(at) == Lost || (fates(at) == Served && Survives(fates, at + 1, configurations))
  }

  lemma DeletionOfEmptyIff(base: Buckets, w: World, s: Session, name: string)
    requires AddedEmpty(base, w, s, name)
    ensures name in DeleteBucketEffect(w, s, name).0.buckets
            <==> w.fates(w.clock) != Served || w.fates(w.clock + 1) == Dropped
  {
  }

  /** A configuring request on the new bucket works iff it is served. */
  lemma ConfiguringIff(w: World, s: Session, plan: Plan, k: nat)
    requires 1 <= k <= 3 && StepAt(plan, k).Some? && Denial(w, s, plan.pvc.bucket) == None
    ensures var (next, ok) := Perform(w, s, plan, StepAt(plan, k).value);
            (ok <==> w.fates(w.clock) == Served) && next.fates == w.fates && next.clock == w.clock + 1
  {
  }

  lemma FailedConfigurationIff(base: Buckets, w: World, claim: Claim, plan: Plan, s: Session, k: nat)
    requires 1 <= k <= 3 && plan.session == Some(s) && plan.pvc.bucket !in base
    requires w.buckets == base[plan.pvc.bucket := BucketAfter(plan, s, k)]
    requires StepAt(plan, k).Some? && w.fates(w.clock) != Served
    ensures plan.pvc.bucket in RunFrom(w, claim, plan, k, true).0.buckets <==>
              w.fates(w.clock + 1) != Served || w.fates(w.clock + 2) == Dropped
  {
    var next := Perform(w, s, plan, StepAt(plan, k).value).0;
    ConfiguringIff(w, s, plan, k);
    StepOnAddedBucket(base, w, s, plan, k);
    AddedStaysAdded(base, next, s, plan, k);
    DeletionOfEmptyIff(base, next, s, plan.pvc.bucket);
    assert RunFrom(w, claim, plan, k, true).0 == DeleteBucketEffect(next, s, plan.pvc.bucket).0;
  }

  /** A step that works takes the bucket to its next configuration, and a configuring one off
      the count. */
  lemma ServedStepCounts(base: Buckets, w: World, plan: Plan, s: Session, k: nat)
    requires 1 <= k < STEPS && plan.pvc.bucket !in base
    requires w.buckets == base[plan.pvc.bucket := BucketAfter(plan, s, k)]
    requires StepAt(plan, k).Some? && Perform(w, s, plan, StepAt(plan, k).value).1
    ensures var next := Perform(w, s, plan, StepAt(plan, k).value).0;
            && next.buckets == base[plan.pvc.bucket := BucketAfter(plan, s, k + 1)]
            && (Survives(w.fates, w.clock, ConfigurationsFrom(plan, k)) <==>
                Survives(next.fates, next.clock, ConfigurationsFrom(plan, k + 1)))
  {
    StepOnAddedBucket(base, w, s, plan, k);
    if k <= 3 {
      ConfiguringIff(w, s, plan, k);
    }
  }

  lemma FailedStepIff(base: Buckets, w: World, claim: Claim, plan: Plan, s: Session, k: nat)
    requires 1 <= k < STEPS && plan.session == Some(s) && plan.pvc.bucket !in base
    requires w.buckets == base[plan.pvc.bucket := BucketAfter(plan, s, k)]
    requires StepAt(plan, k).Some? && !Perform(w, s, plan, StepAt(plan, k).value).1
    ensures plan.pvc.bucket in RunFrom(w, claim, plan, k, true).0.buckets <==>
              Survives(w.fates, w.clock, ConfigurationsFrom(plan, k))
  {
    if k <= 3 {
      ConfiguringIff(w, s, plan, k);
      FailedConfigurationIff(base, w, claim, plan, s, k);
    } else {
      StepOnAddedBucket(base, w, s, plan, k);
      assert RunFrom(w, claim, plan, k, true).0 == Perform(w, s, plan, StepAt(plan, k).value).0;
    }
  }

  lemma RunUnfolds(w: World, claim: Claim, plan: Plan, k: nat)
    requires 1 <= k < STEPS && plan.session.Some?
    ensures StepAt(plan, k).None? ==> RunFrom(w, claim, plan, k, true) == RunFrom(w, claim, plan, k + 1, true)
    ensures StepAt(plan, k).Some? && Perform(w, plan.session.value, plan, StepAt(plan, k).value).1 ==>
              RunFrom(w, claim, plan, k, true) ==
              RunFrom(Perform(w, plan.session.value, plan, StepAt(plan, k).value).0, claim, plan, k + 1, true)
  {
  }

  lemma {:induction false} SurvivesIff(base: Buckets, w: World, claim: Claim, plan: Plan, s: Session, k: nat)
    requires 1 <= k <= STEPS && plan.session == Some(s) && plan.pvc.bucket !in base
    requires w.buckets == base[plan.pvc.bucket := BucketAfter(plan, s, k)]
    ensures plan.pvc.bucket in RunFrom(w, claim, plan, k, true).0.buckets <==>
              Survives(w.fates, w.clock, ConfigurationsFrom(plan, k))
    decreases STEPS - k
  {
    if k < STEPS {
      RunUnfolds(w, claim, plan, k);
      if StepAt(plan, k).None? {
        SurvivesIff(base, w, claim, plan, s, k + 1);
      } else if Perform(w, s, plan, StepAt(plan, k).value).1 {
        ServedStepCounts(base, w, plan, s, k);
        SurvivesIff(base, Perform(w, s, plan, StepAt(plan, k).value).0, claim, plan, s, k + 1);
      } else {
        FailedStepIff(base, w, claim, plan, s, k);
      }
    }
  }

  lemma CreateUnfolds(w: World, claim: Claim, plan: Plan)
    requires plan.session.Some? && plan.Creates() && plan.pvc.bucket !in w.buckets
    ensures var (next, ok) := Perform(w, plan.session.value, plan, Create);
            && next.fates == w.fates && next.clock == w.clock + 1
            && (ok <==> w.fates(w.clock) == Served)
            && (w.fates(w.clock) != Dropped ==>
                  next.buckets == w.buckets[plan.pvc.bucket := BucketAfter(plan, plan.session.value, 1)])
            && (w.fates(w.clock) == Dropped ==> next.buckets == w.buckets)
            && RunFrom(w, claim, plan, 0, false) ==
               if ok then RunFrom(next, claim, plan, 1, true) else (next, Stopped(0, NotAttempted))
  {
  }

  lemma CreationLeavesBehindIff(w: World, claim: Claim, plan: Plan)
    requires plan.session.Some? && plan.Creates() && plan.pvc.bucket !in w.buckets
    ensures plan.pvc.bucket in RunFrom(w, claim, plan, 0, false).0.buckets <==>
              LeavesBucket(w.fates, w.clock, ConfigurationsFrom(plan, 1))
  {
    var s := plan.session.value;
    var (next, ok) := Perform(w, s, plan, Create);
    CreateUnfolds(w, claim, plan);
    if ok {
      SurvivesIff(w.buckets, next, claim, plan, s, 1);
    }
  }

  lemma TransactionLeavesBehindIff(w: World, claim: Claim, plan: Plan)
    requires plan.session.None? ==> !plan.Creates()
    requires plan.pvc.bucket !in w.buckets
    ensures plan.pvc.bucket in RunFrom(w, claim, plan, 0, false).0.buckets <==>
              plan.Creates() && LeavesBucket(w.fates, w.clock, ConfigurationsFrom(plan, 1))
  {
    if plan.Creates() {
      CreationLeavesBehindIff(w, claim, plan);
    } else {
      NothingAdded(w, claim, plan, 1);
      assert RunFrom(w, claim, plan, 0, false) == RunFrom(w, claim, plan, 1, false);
    }
  }

  /** Which calls leave their bucket in a store that did not have it, from the plan and the
      fates alone: those that create, and whose create is lost, or is served with every
      configuring request served, or whose compensation does not get its list served or its
      delete through. */
  lemma LeftBehindIff(w: World, env: Env, claim: Claim)
    requires Prepare(env, claim).Ready? && Prepare(env, claim).plan.pvc.bucket !in w.buckets
    ensures var plan := Prepare(env, claim).plan;
            plan.pvc.bucket in ProvisionEffect(w, env, claim).0.buckets <==>
              plan.Creates() && LeavesBucket(w.fates, w.clock, ConfigurationsFrom(plan, 1))
  {
    SessionIffValidated(env, claim);
    TransactionLeavesBehindIff(w, claim, Prepare(env, claim).plan);
  }

  // ---------------------------------------------------------------- without faults

  lemma FinishedIff(claim: Claim, plan: Plan)
    ensures Finish(claim, plan).Provisioned? <==> |claim.accessModes| == 1
  {
    if |claim.accessModes| == 1 {
      OptionsRoundTrip(DriverOptions(plan, FinalSc(plan), claim.accessModes[0]));
      PvcRoundTrip(KeptAnnotations(plan.pvc));
    }
  }

  lemma {:induction false} QuietFrom(base: Buckets, w: World, claim: Claim, plan: Plan, s: Session, k: nat)
    requires 1 <= k <= STEPS && plan.session == Some(s) && plan.pvc.bucket !in base && plan.pvc.objectPath == ""
    requires w.buckets == base[plan.pvc.bucket := BucketAfter(plan, s, k)] && Quiet(w)
    ensures var (end, outcome) := RunFrom(w, claim, plan, k, true);
            outcome == Finish(claim, plan) && end.buckets == base[plan.pvc.bucket := BucketAfter(plan, s, STEPS)]
    decreases STEPS - k
  {
    if k < STEPS {
      if StepAt(plan, k).None? {
        QuietFrom(base, w, claim, plan, s, k + 1);
      } else {
        var (next, ok) := Perform(w, s, plan, StepAt(plan, k).value);
        StepOnAddedBucket(base, w, s, plan, k);
        QuietStep(w, s, plan, k);
        QuietFrom(base, next, claim, plan, s, k + 1);
        assert RunFrom(w, claim, plan, k, true) == RunFrom(next, claim, plan, k + 1, true);
      }
    }
  }

  lemma QuietStep(w: World, s: Session, plan: Plan, k: nat)
    requires 1 <= k <= 4 && StepAt(plan, k).Some? && Denial(w, s, plan.pvc.bucket) == None && Quiet(w)
    ensures var (next, ok) := Perform(w, s, plan, StepAt(plan, k).value);
            ok && Quiet(next)
  {
  }

  /** Without any fault a creating call on a free name leaves its bucket, and a volume with it
      iff the claim asks for exactly one access mode: every other claim leaks the bucket. */
  lemma QuietCreation(w: World, env: Env, claim: Claim)
    requires Prepare(env, claim).Ready? && Quiet(w)
    requires var plan := Prepare(env, claim).plan; plan.Creates() && plan.pvc.bucket !in w.buckets
    ensures var plan := Prepare(env, claim).plan;
            var (end, outcome) := ProvisionEffect(w, env, claim);
            && plan.session.Some?
            && end.buckets == w.buckets[plan.pvc.bucket := BucketAfter(plan, plan.session.value, STEPS)]
            && (outcome.Provisioned? <==> |claim.accessModes| == 1)
  {
    SessionIffValidated(env, claim);
    NoPathWithCreate(env, claim);
    QuietTransaction(w, claim, Prepare(env, claim).plan);
    FinishedIff(claim, Prepare(env, claim).plan);
  }

  lemma NoPathWithCreate(env: Env, claim: Claim)
    requires Prepare(env, claim).Ready? && Prepare(env, claim).plan.Creates()
    ensures Prepare(env, claim).plan.pvc.objectPath == ""
  {
    assert Judge(env, claim).Accepted?;
    AcceptedIsChecked(env, claim.namespace, UnmarshalPvc(claim.annotations).value, UnmarshalSc(claim.parameters).value);
  }

  lemma QuietTransaction(w: World, claim: Claim, plan: Plan)
    requires plan.Creates() && plan.session.Some? && plan.pvc.bucket !in w.buckets && plan.pvc.objectPath == ""
             && Quiet(w)
    ensures var (end, outcome) := RunFrom(w, claim, plan, 0, false);
            && outcome == Finish(claim, plan)
            && end.buckets == w.buckets[plan.pvc.bucket := BucketAfter(plan, plan.session.value, STEPS)]
  {
    var s := plan.session.value;
    var next := Perform(w, s, plan, Create).0;
    QuietFrom(w.buckets, next, claim, plan, s, 1);
    assert RunFrom(w, claim, plan, 0, false) == RunFrom(next, claim, plan, 1, true);
  }

  // ---------------------------------------------------------------- nil dereferences

  lemma {:induction false} NilFrom(w: World, claim: Claim, plan: Plan, k: nat, undo: bool)
    requires k <= STEPS
    requires plan.session.None? ==> !plan.Creates() && !plan.validate && plan.firewall.None? && plan.quota.None?
    ensures var outcome := RunFrom(w, claim, plan, k, undo).1;
            (outcome.NilDereference? && outcome.at < STEPS) <==>
              (plan.session.None? && ((k <= 1 && plan.Versioning().Some?) || (k <= 5 && plan.pvc.objectPath != "")))
    decreases STEPS - k
  {
    if k < STEPS {
      if StepAt(plan, k).None? {
        NilFrom(w, claim, plan, k + 1, undo);
      } else if plan.session.Some? {
        var (next, ok) := Perform(w, plan.session.value, plan, StepAt(plan, k).value);
        if ok {
          NilFrom(next, claim, plan, k + 1, if k == 0 then CreateSucceeds(w, plan) else undo);
        }
      }
    }
  }

  /** A prepared call uses `sess` before creating it exactly when the claim opts out of bucket
      validation, brings its own bucket, and asks for versioning or an object path; in every
      other case each use follows the creation. The outcome depends on no fault. */
  lemma NilSessionIff(w: World, env: Env, claim: Claim)
    requires Prepare(env, claim).Ready?
    ensures var plan := Prepare(env, claim).plan;
            var outcome := ProvisionEffect(w, env, claim).1;
            (outcome.NilDereference? && outcome.at < STEPS) <==>
              (plan.pvc.validateBucket == "no" && plan.pvc.autoCreateBucket == "false" &&
               (plan.pvc.bucketVersioning != "" || plan.pvc.objectPath != ""))
  {
    SessionIffValidated(env, claim);
    NilFrom(w, claim, Prepare(env, claim).plan, 0, false);
  }
}
