/** Provisioning without faults: exactly when a prepared claim gets its volume, and what its
    bucket then is. */
module QuietProvision {
  import opened Wrappers
  import opened Store
  import opened Backend
  import opened ObjectPath
  import opened Provisioner
  import opened Rollback
  import opened Annotations
  import opened VolumeDeletion
  import IpLists

  /** What the steps from `k` on make of an existing bucket: its settings, if asked for. */
  function SettingsFrom(b: Bucket, plan: Plan, k: nat): Bucket {
    b.(versioning := if k <= 1 && plan.Versioning().Some? then VersioningFor(plan.Versioning().value) else b.versioning,
       firewall := if k <= 2 && plan.firewall.Some? then Some(IpLists.Entries(plan.firewall.value)) else b.firewall,
       quota := if k <= 3 && plan.quota.Some? then plan.quota else b.quota)
  }

  /** What the steps from `k` on ask of it: access, and the object path if there is one. */
  predicate Suits(w: World, plan: Plan, s: Session, k: nat) {
    var name, path := plan.pvc.bucket, plan.pvc.objectPath;
    && name in w.buckets
    && (k <= 4 || path != "" ==> Denial(w, s, name) == None)
    && (path != "" ==> ShowsPath(w.buckets[name].objects, ListingPrefix(path)))
  }

  /** Without faults a step on an existing bucket works or not by access and path alone. */
  lemma QuietStepIff(w: World, s: Session, plan: Plan, k: nat)
    requires 1 <= k < STEPS && StepAt(plan, k).Some? && Quiet(w) && plan.pvc.bucket in w.buckets
    ensures var name := plan.pvc.bucket;
            var (next, ok) := Perform(w, s, plan, StepAt(plan, k).value);
            && Quiet(next)
            && (ok <==>
                  && (k == 1 || k >= 4 ==> Denial(w, s, name) == None)
                  && (k == 5 ==> ShowsPath(w.buckets[name].objects, ListingPrefix(plan.pvc.objectPath))))
            && (ok ==> next.buckets == w.buckets[name := Configured(w.buckets[name], StepAt(plan, k).value)])
  {
    var step := StepAt(plan, k).value;
    if step.CheckPath? && Denial(w, s, plan.pvc.bucket) == None {
      PathCheckIff(w, s, plan.pvc.bucket, plan.pvc.objectPath);
    }
  }

  lemma SettingsNext(w: Buckets, plan: Plan, k: nat, name: string)
    requires 1 <= k < STEPS && name in w
    ensures StepAt(plan, k).None? ==> SettingsFrom(w[name], plan, k + 1) == SettingsFrom(w[name], plan, k)
    ensures StepAt(plan, k).Some? ==>
              var b := Configured(w[name], StepAt(plan, k).value);
              SettingsFrom(b, plan, k + 1) == SettingsFrom(w[name], plan, k)
    ensures SettingsFrom(w[name], plan, STEPS) == w[name]
  {
  }

  lemma SuitsNext(w: World, plan: Plan, s: Session, k: nat)
    requires 1 <= k < STEPS && plan.validate && Quiet(w) && plan.pvc.bucket in w.buckets
    ensures StepAt(plan, k).None? ==> (Suits(w, plan, s, k) <==> (k + 1 < STEPS ==> Suits(w, plan, s, k + 1)))
    ensures StepAt(plan, k).Some? ==>
              var name, (next, ok) := plan.pvc.bucket, Perform(w, s, plan, StepAt(plan, k).value);
              && (Suits(w, plan, s, k) <==> ok && (k + 1 < STEPS ==> Suits(next, plan, s, k + 1)))
              && (ok ==>
                    next.buckets[name := SettingsFrom(next.buckets[name], plan, k + 1)] ==
                    w.buckets[name := SettingsFrom(w.buckets[name], plan, k)])
  {
    SettingsNext(w.buckets, plan, k, plan.pvc.bucket);
    if StepAt(plan, k).Some? {
      QuietStepIff(w, s, plan, k);
    }
  }

  lemma {:induction false} QuietFromExisting(w: World, claim: Claim, plan: Plan, s: Session, k: nat, undo: bool)
    requires 1 <= k <= STEPS && plan.session == Some(s) && plan.validate && Quiet(w) && plan.pvc.bucket in w.buckets
    ensures var name := plan.pvc.bucket;
            var (end, outcome) := RunFrom(w, claim, plan, k, undo);
            && (outcome.Provisioned? <==> |claim.accessModes| == 1 && (k < STEPS ==> Suits(w, plan, s, k)))
            && (outcome.Provisioned? ==>
                  end.buckets == w.buckets[name := SettingsFrom(w.buckets[name], plan, k)])
    decreases STEPS - k
  {
    var name := plan.pvc.bucket;
    if k == STEPS {
      FinishedIff(claim, plan);
      SettingsNext(w.buckets, plan, 5, name);
      assert w.buckets == w.buckets[name := w.buckets[name]];
    } else {
      SettingsNext(w.buckets, plan, k, name);
      if StepAt(plan, k).None? {
        SuitsNext(w, plan, s, k);
        QuietFromExisting(w, claim, plan, s, k + 1, undo);
      } else {
        QuietStepIff(w, s, plan, k);
        SuitsNext(w, plan, s, k);
        var (next, ok) := Perform(w, s, plan, StepAt(plan, k).value);
        if ok {
          QuietFromExisting(next, claim, plan, s, k + 1, undo);
        }
      }
    }
  }

  lemma QuietOnExisting(w: World, claim: Claim, plan: Plan)
    requires plan.session.Some? && plan.validate && Quiet(w) && plan.pvc.bucket in w.buckets
    ensures var name := plan.pvc.bucket;
            var (end, outcome) := RunFrom(w, claim, plan, 0, false);
            && (outcome.Provisioned? <==> |claim.accessModes| == 1 && Suits(w, plan, plan.session.value, 0))
            && (outcome.Provisioned? ==>
                  end.buckets == w.buckets[name := SettingsFrom(w.buckets[name], plan, 0)])
  {
    var s := plan.session.value;
    if plan.Creates() {
      var (next, ok) := Perform(w, s, plan, Create);
      assert ok && next.buckets == w.buckets && Quiet(next);
      QuietFromExisting(next, claim, plan, s, 1, CreateSucceeds(w, plan));
    } else {
      QuietFromExisting(w, claim, plan, s, 1, false);
    }
  }

  lemma UnvalidatedOutcome(w: World, claim: Claim, plan: Plan)
    requires plan.session.None? && !plan.Creates() && !plan.validate && plan.firewall.None? && plan.quota.None?
    ensures var (end, outcome) := RunFrom(w, claim, plan, 0, false);
            && end == w
            && (outcome.Provisioned? <==>
                  |claim.accessModes| == 1 && plan.Versioning().None? && plan.pvc.objectPath == "")
  {
    FinishedIff(claim, plan);
    UnvalidatedFrom(w, claim, plan, 0, false);
  }

  lemma {:induction false} UnvalidatedFrom(w: World, claim: Claim, plan: Plan, k: nat, undo: bool)
    requires k <= STEPS
    requires plan.session.None? && !plan.Creates() && !plan.validate && plan.firewall.None? && plan.quota.None?
    ensures var (end, outcome) := RunFrom(w, claim, plan, k, undo);
            && end == w
            && (outcome.Provisioned? <==>
                  && Finish(claim, plan).Provisioned?
                  && (k <= 1 ==> plan.Versioning().None?) && (k <= 5 ==> plan.pvc.objectPath == ""))
    decreases STEPS - k
  {
    if k < STEPS && StepAt(plan, k).None? {
      UnvalidatedFrom(w, claim, plan, k + 1, undo);
    }
  }

  /** Without faults, exactly which prepared claims get a volume. One that looks at its bucket
      needs it there, open to its account and showing the object path, or else creates it; one
      that does not must ask for neither versioning nor an object path, and then gets its volume
      whether the bucket exists or not, without a single request. */
  lemma QuietProvisionIff(w: World, env: Env, claim: Claim)
    requires Prepare(env, claim).Ready? && Quiet(w)
    ensures var plan := Prepare(env, claim).plan;
            var name, path := plan.pvc.bucket, plan.pvc.objectPath;
            ProvisionEffect(w, env, claim).1.Provisioned? <==>
              && |claim.accessModes| == 1
              && if !plan.validate then plan.pvc.bucketVersioning == "" && path == ""
                 else if name !in w.buckets then plan.Creates()
                 else
                   && plan.session.Some? && Denial(w, plan.session.value, name) == None
                   && (path != "" ==> ShowsPath(w.buckets[name].objects, ListingPrefix(path)))
    ensures !Prepare(env, claim).plan.validate ==> ProvisionEffect(w, env, claim).0 == w
  {
    var plan := Prepare(env, claim).plan;
    SessionIffValidated(env, claim);
    if !plan.validate {
      UnvalidatedOutcome(w, claim, plan);
    } else if plan.pvc.bucket in w.buckets {
      QuietOnExisting(w, claim, plan);
    } else if plan.Creates() {
      QuietCreation(w, env, claim);
    } else {
      UncreatedIsMissed(w, claim, plan);
    }
  }

  /** And an existing bucket that a fault-free call takes over keeps its objects, owner and
      place: it gets the settings asked for and nothing else, and no other bucket changes. */
  lemma TakenOverBucket(w: World, env: Env, claim: Claim, v: Volume)
    requires IsProvisioned(w, env, claim, v) && Quiet(w) && Prepare(env, claim).plan.validate
    requires Prepare(env, claim).plan.pvc.bucket in w.buckets
    ensures var plan := Prepare(env, claim).plan;
            var before, end := w.buckets[plan.pvc.bucket], ProvisionEffect(w, env, claim).0.buckets;
            && end == w.buckets[plan.pvc.bucket := SettingsFrom(before, plan, 0)]
            && SettingsFrom(before, plan, 0).objects == before.objects
            && SettingsFrom(before, plan, 0).owner == before.owner
            && SettingsFrom(before, plan, 0).home == before.home
  {
    SessionIffValidated(env, claim);
    QuietOnExisting(w, claim, Prepare(env, claim).plan);
  }
}
