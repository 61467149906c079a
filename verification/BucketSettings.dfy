/** What a provisioned volume's bucket is set to: its versioning and its firewall, traced from
    the claim's text to the store. */
module BucketSettings {
  import opened Wrappers
  import opened Text
  import opened Store
  import opened Backend
  import opened Records
  import opened Annotations
  import opened Provisioner
  import opened BucketSafety
  import opened Rollback
  import opened VolumeDeletion
  import IpLists

  // ---------------------------------------------------------------- settings reach the bucket

  /** The bucket carries what the plan's steps before `k` set. */
  predicate HasSettings(b: Bucket, plan: Plan, k: nat) {
    && (k > 1 && plan.Versioning().Some? ==> b.versioning == VersioningFor(plan.Versioning().value))
    && (k > 2 && plan.firewall.Some? ==> b.firewall == Some(IpLists.Entries(plan.firewall.value)))
    && (k > 3 && plan.quota.Some? ==> b.quota == plan.quota)
  }

  lemma ConfigurationApplies(w: World, s: Session, plan: Plan, k: nat)
    requires 1 <= k <= 3 && StepAt(plan, k).Some?
    requires plan.pvc.bucket in w.buckets ==> HasSettings(w.buckets[plan.pvc.bucket], plan, k)
    ensures var (next, ok) := Perform(w, s, plan, StepAt(plan, k).value);
            ok && plan.pvc.bucket in next.buckets ==> HasSettings(next.buckets[plan.pvc.bucket], plan, k + 1)
  {
  }

  lemma StepApplies(w: World, s: Session, plan: Plan, k: nat)
    requires k < STEPS && StepAt(plan, k).Some?
    requires plan.pvc.bucket in w.buckets ==> HasSettings(w.buckets[plan.pvc.bucket], plan, k)
    ensures var (next, ok) := Perform(w, s, plan, StepAt(plan, k).value);
            ok && plan.pvc.bucket in next.buckets ==> HasSettings(next.buckets[plan.pvc.bucket], plan, k + 1)
  {
    if 1 <= k <= 3 {
      ConfigurationApplies(w, s, plan, k);
    } else if k > 3 {
      ChecksOnlyRead(w, s, plan, k);
    }
  }

  lemma ChecksOnlyRead(w: World, s: Session, plan: Plan, k: nat)
    requires 3 < k < STEPS && StepAt(plan, k).Some?
    ensures Perform(w, s, plan, StepAt(plan, k).value).0.buckets == w.buckets
  {
  }

  lemma {:induction false} SettingsApplied(w: World, claim: Claim, plan: Plan, k: nat, undo: bool)
    requires k <= STEPS && RunFrom(w, claim, plan, k, undo).1.Provisioned?
    requires plan.pvc.bucket in w.buckets ==> HasSettings(w.buckets[plan.pvc.bucket], plan, k)
    ensures var end := RunFrom(w, claim, plan, k, undo).0;
            plan.pvc.bucket in end.buckets ==> HasSettings(end.buckets[plan.pvc.bucket], plan, STEPS)
    decreases STEPS - k
  {
    if k < STEPS {
      if StepAt(plan, k).None? {
        SettingsApplied(w, claim, plan, k + 1, undo);
      } else {
        var s := if plan.session.Some? then plan.session.value else NO_SESSION;
        var next := Perform(w, s, plan, StepAt(plan, k).value).0;
        StepApplies(w, s, plan, k);
        SettingsApplied(next, claim, plan, k + 1, if k == 0 then CreateSucceeds(w, plan) else undo);
      }
    }
  }

  /** Whatever settings a volume's claim asks for, its bucket is there and has them. */
  lemma VolumeHasSettings(before: World, env: Env, claim: Claim, v: Volume)
    requires IsProvisioned(before, env, claim, v)
    requires var plan := Prepare(env, claim).plan; plan.Versioning().Some? || plan.firewall.Some? || plan.quota.Some?
    ensures var plan := Prepare(env, claim).plan;
            var end := ProvisionEffect(before, env, claim).0;
            plan.pvc.bucket in end.buckets && HasSettings(end.buckets[plan.pvc.bucket], plan, STEPS)
  {
    SessionIffValidated(env, claim);
    NilSessionIff(before, env, claim);
    PlanHasSettings(before, claim, Prepare(env, claim).plan);
  }

  lemma PlanHasSettings(before: World, claim: Claim, plan: Plan)
    requires RunFrom(before, claim, plan, 0, false).1.Provisioned?
    requires plan.session.Some? ==> plan.validate
    requires plan.session.None? ==> !plan.Creates() && !plan.validate && plan.firewall.None? && plan.quota.None?
    requires plan.Versioning().Some? || plan.firewall.Some? || plan.quota.Some?
    ensures var end := RunFrom(before, claim, plan, 0, false).0;
            plan.pvc.bucket in end.buckets && HasSettings(end.buckets[plan.pvc.bucket], plan, STEPS)
  {
    NilFrom(before, claim, plan, 0, false);
    ProvisionedIsReachable(before, claim, plan, 0, false);
    SettingsApplied(before, claim, plan, 0, false);
  }

  // ---------------------------------------------------------------- versioning

  /** The versioning text in force: the annotation's, else the storage class's. */
  function VersioningText(claim: Claim): string {
    match (UnmarshalPvc(claim.annotations), UnmarshalSc(claim.parameters))
    case (Some(p), Some(c)) => FirstOf(p.bucketVersioning, c.bucketVersioning)
    case _ => ""
  }

  lemma LowerCaseLetter(s: string, i: nat)
    requires i < |s|
    ensures |ToLower(s)| == |s| && !('A' <= ToLower(s)[i] <= 'Z')
  {
  }

  /** Lower-cased booleans have six spellings. */
  lemma NormalisedBool(x: string)
    requires IsBool(Normalised(x))
    ensures Normalised(x) in ["1", "t", "true", "0", "f", "false"]
  {
    LowerCaseLetter(TrimSpace(x), 0);
  }

  lemma LowerCaseWord(s: string)
    requires forall i :: 0 <= i < |s| ==> 'a' <= s[i] <= 'z' || '0' <= s[i] <= '9'
    ensures Normalised(s) == s
  {
    assert TrimSpace(s) == s;
    assert ToLower(s) == s;
  }

  lemma NormalisedTwice(s: string)
    requires s in ["", "1", "t", "true", "0", "f", "false"]
    ensures Normalised(s) == s
  {
    LowerCaseWord(s);
  }

  /** The plan enables versioning iff the text, trimmed and lower-cased, is "true"; it leaves
      it alone iff there is no text, and suspends it otherwise. */
  lemma PlannedVersioning(env: Env, claim: Claim)
    requires Prepare(env, claim).Ready?
    ensures var x := VersioningText(claim);
            && Prepare(env, claim).plan.Versioning() == (if x == "" then None else Some(Normalised(x) == "true"))
            && (x != "" ==> Normalised(x) in ["1", "t", "true", "0", "f", "false"])
  {
    var p, c := UnmarshalPvc(claim.annotations).value, UnmarshalSc(claim.parameters).value;
    assert JudgeParsed(env, claim.namespace, p, c).Accepted?;
    AcceptedVersioning(env, claim.namespace, p, c);
  }

  lemma ReadableVersioning(x: string)
    requires VersioningReadable(x)
    ensures (x == "" <==> Normalised(x) == "") && Normalised(Normalised(x)) == Normalised(x)
    ensures x != "" ==> Normalised(x) in ["1", "t", "true", "0", "f", "false"]
  {
    if x == "" {
      NormalisedTwice(x);
    } else {
      NormalisedBool(x);
      NormalisedTwice(Normalised(x));
    }
  }

  lemma AcceptedVersioning(env: Env, namespace: string, p: Pvc, c: Sc)
    requires JudgeParsed(env, namespace, p, c).Accepted?
    ensures var x := FirstOf(p.bucketVersioning, c.bucketVersioning);
            var y := JudgeParsed(env, namespace, p, c).settings.pvc.bucketVersioning;
            && (x == "" <==> y == "") && Normalised(y) == y == Normalised(x)
            && (x != "" ==> y in ["1", "t", "true", "0", "f", "false"])
  {
    ReadableVersioning(FirstOf(p.bucketVersioning, c.bucketVersioning));
  }

  /** Every volume whose claim says anything about versioning: its bucket is enabled iff that
      text, trimmed and lower-cased, is "true", and suspended otherwise. */
  lemma VersioningIff(before: World, env: Env, claim: Claim, v: Volume)
    requires IsProvisioned(before, env, claim, v) && VersioningText(claim) != ""
    ensures var name, end := Prepare(env, claim).plan.pvc.bucket, ProvisionEffect(before, env, claim).0.buckets;
            name in end && end[name].versioning == VersioningFor(Normalised(VersioningText(claim)) == "true")
  {
    PlannedVersioning(env, claim);
    VolumeHasSettings(before, env, claim, v);
  }

  /** A new bucket is enabled iff the text in force says "true", and untouched iff it is blank. */
  lemma NewBucketVersioning(before: World, env: Env, claim: Claim, v: Volume)
    requires IsProvisioned(before, env, claim, v)
    requires Prepare(env, claim).plan.Creates() && Prepare(env, claim).plan.pvc.bucket !in before.buckets
    ensures var name, end := Prepare(env, claim).plan.pvc.bucket, ProvisionEffect(before, env, claim).0.buckets;
            && name in end
            && (end[name].versioning == Enabled <==> Normalised(VersioningText(claim)) == "true")
            && (end[name].versioning == Unset <==> VersioningText(claim) == "")
  {
    PlannedVersioning(env, claim);
    ProvisionedBucket(before, env, claim, v);
    assert Normalised("") == "";
  }

  lemma SpellingObeysIff(x: string)
    requires x in ["1", "t", "true", "0", "f", "false"]
    ensures (x == "true") == MeansTrue(x) <==> x != "1" && x != "t"
  {
  }

  /** The bucket is versioned as the text reads, except exactly for the two spellings of true
      that suspend it. */
  lemma VersioningObeysIff(before: World, env: Env, claim: Claim, v: Volume)
    requires IsProvisioned(before, env, claim, v) && VersioningText(claim) != ""
    ensures var name, end := Prepare(env, claim).plan.pvc.bucket, ProvisionEffect(before, env, claim).0.buckets;
            var x := Normalised(VersioningText(claim));
            name in end && (end[name].versioning == VersioningFor(MeansTrue(x)) <==> x != "1" && x != "t")
  {
    PlannedVersioning(env, claim);
    VersioningIff(before, env, claim, v);
    SpellingObeysIff(Normalised(VersioningText(claim)));
  }

  // ---------------------------------------------------------------- firewall

  /** Where a plan's addresses come from, and that an annotated list was checked. */
  lemma PlannedFirewall(env: Env, claim: Claim)
    requires Prepare(env, claim).Ready? && Prepare(env, claim).plan.firewall.Some?
    ensures var annotated := UnmarshalPvc(claim.annotations).value.accessPolicyAllowedIps;
            && Prepare(env, claim).plan.firewall.value == FirstOf(annotated, env.vpcEndpoints)
            && (annotated != "" ==> IpLists.AllValid(annotated, env.isIp))
  {
    var p, c := UnmarshalPvc(claim.annotations).value, UnmarshalSc(claim.parameters).value;
    assert JudgeParsed(env, claim.namespace, p, c).Accepted?;
    AcceptedFirewall(env, claim.namespace, p, c);
  }

  lemma AcceptedFirewall(env: Env, namespace: string, p: Pvc, c: Sc)
    requires JudgeParsed(env, namespace, p, c).Accepted?
    ensures JudgeParsed(env, namespace, p, c).settings.pvc.accessPolicyAllowedIps == p.accessPolicyAllowedIps
    ensures p.accessPolicyAllowedIps != "" ==> IpLists.AllValid(p.accessPolicyAllowedIps, env.isIp)
  {
  }

  /** A stored firewall that lets in nothing but addresses. */
  predicate OnlyAddresses(b: Bucket, isIp: string -> bool) {
    b.firewall.Some? && forall e :: e in b.firewall.value ==> e == "" || isIp(e)
  }

  /** For every volume with a firewall: the list in its bucket has one entry per comma plus one
      of the text in force, and holds addresses and blanks only, exactly when that text is the
      annotation's, which was checked, or the provider's happens to be valid, which was not. */
  lemma StoredFirewallIff(before: World, env: Env, claim: Claim, v: Volume)
    requires IsProvisioned(before, env, claim, v) && Prepare(env, claim).plan.firewall.Some?
    ensures var name, end := Prepare(env, claim).plan.pvc.bucket, ProvisionEffect(before, env, claim).0.buckets;
            var annotated := UnmarshalPvc(claim.annotations).value.accessPolicyAllowedIps;
            && name in end && end[name].firewall.Some?
            && |end[name].firewall.value| == Count(FirstOf(annotated, env.vpcEndpoints), ',') + 1
            && (OnlyAddresses(end[name], env.isIp) <==> annotated != "" || IpLists.AllValid(env.vpcEndpoints, env.isIp))
  {
    PlannedFirewall(env, claim);
    VolumeHasSettings(before, env, claim, v);
    SplitJoin(Prepare(env, claim).plan.firewall.value, ',');
  }

  // ---------------------------------------------------------------- the policy switches

  /** What the two policy switches of an accepted claim may say. */
  lemma PlannedPolicies(env: Env, claim: Claim)
    requires Prepare(env, claim).Ready?
    ensures UnmarshalPvc(claim.annotations).Some?
    ensures var p, plan := UnmarshalPvc(claim.annotations).value, Prepare(env, claim).plan;
            && BlankOrBool(p.setAccessPolicy) && BlankOrBool(p.quotaLimit)
            && (plan.firewall.Some? <==> env.configAccessPolicy && p.setAccessPolicy != "false")
            && plan.quota == if env.configQuota && p.quotaLimit != "false" then Some(claim.storage) else None
  {
    var p, c := UnmarshalPvc(claim.annotations).value, UnmarshalSc(claim.parameters).value;
    AcceptedPolicies(env, claim.namespace, p, c);
  }

  lemma AcceptedPolicies(env: Env, namespace: string, p: Pvc, c: Sc)
    requires JudgeParsed(env, namespace, p, c).Accepted?
    ensures var pvc := JudgeParsed(env, namespace, p, c).settings.pvc;
            && pvc.setAccessPolicy == p.setAccessPolicy && BlankOrBool(p.setAccessPolicy)
            && pvc.quotaLimit == p.quotaLimit && BlankOrBool(p.quotaLimit)
  {
  }

  lemma OtherFalse(x: string)
    ensures (x != "false") == !MeansFalse(x) <==> x !in ["0", "f", "F", "FALSE", "False"]
  {
    assert "false" !in ["0", "f", "F", "FALSE", "False"] by {
      assert "false"[0] != "F"[0] && "false"[0] != "FALSE"[0] && "false"[0] != "False"[0];
    }
  }

  /** On a cluster that sets quotas, every volume's bucket gets the claimed storage as its
      quota unless the annotation is exactly "false": the annotation is obeyed as it reads,
      except exactly for the other spellings of false, which set the quota all the same. */
  lemma QuotaObeysIff(before: World, env: Env, claim: Claim, v: Volume)
    requires IsProvisioned(before, env, claim, v) && env.configQuota
    ensures var p, plan := UnmarshalPvc(claim.annotations), Prepare(env, claim).plan;
            var end := ProvisionEffect(before, env, claim).0.buckets;
            && p.Some?
            && (p.value.quotaLimit != "false" ==>
                  plan.pvc.bucket in end && end[plan.pvc.bucket].quota == Some(claim.storage))
            && (plan.quota.Some? == !MeansFalse(p.value.quotaLimit) <==>
                  p.value.quotaLimit !in ["0", "f", "F", "FALSE", "False"])
  {
    PlannedPolicies(env, claim);
    OtherFalse(UnmarshalPvc(claim.annotations).value.quotaLimit);
    if Prepare(env, claim).plan.quota.Some? {
      VolumeHasSettings(before, env, claim, v);
    }
  }

  /** And the same for the firewall. */
  lemma FirewallObeysIff(before: World, env: Env, claim: Claim, v: Volume)
    requires IsProvisioned(before, env, claim, v) && env.configAccessPolicy
    ensures var p, plan := UnmarshalPvc(claim.annotations), Prepare(env, claim).plan;
            var end := ProvisionEffect(before, env, claim).0.buckets;
            && p.Some?
            && (p.value.setAccessPolicy != "false" ==> plan.pvc.bucket in end && end[plan.pvc.bucket].firewall.Some?)
            && (plan.firewall.Some? == !MeansFalse(p.value.setAccessPolicy) <==>
                  p.value.setAccessPolicy !in ["0", "f", "F", "FALSE", "False"])
  {
    PlannedPolicies(env, claim);
    OtherFalse(UnmarshalPvc(claim.annotations).value.setAccessPolicy);
    if Prepare(env, claim).plan.firewall.Some? {
      VolumeHasSettings(before, env, claim, v);
    }
  }

  // ---------------------------------------------------------------- whatever the outcome

  lemma StepKeepsFirewall(w: World, s: Session, plan: Plan, step: Step)
    requires step.SetFirewall? ==> plan.firewall == Some(step.ips)
    ensures FirewallFrom(w.buckets, Perform(w, s, plan, step).0.buckets, plan)
  {
  }

  /** Every bucket's firewall is what it was, none if it is new, or the plan's. */
  ghost predicate FirewallFrom(before: Buckets, after: Buckets, plan: Plan) {
    forall n :: n in after ==>
      || after[n].firewall == (if n in before then before[n].firewall else None)
      || (n == plan.pvc.bucket && plan.firewall.Some?
          && after[n].firewall == Some(IpLists.Entries(plan.firewall.value)))
  }

  lemma FirewallTwice(a: Buckets, b: Buckets, c: Buckets, plan: Plan)
    requires FirewallFrom(a, b, plan) && FirewallFrom(b, c, plan) && a.Keys <= b.Keys
    ensures FirewallFrom(a, c, plan)
  {
  }

  lemma {:induction false} DeletionKeepsFirewall(w: World, s: Session, name: string, keys: seq<string>, plan: Plan)
    ensures FirewallFrom(w.buckets, DeleteKeys(w, s, name, keys).0.buckets, plan)
    ensures DeleteKeys(w, s, name, keys).0.buckets.Keys == w.buckets.Keys
    decreases keys
  {
    if keys != [] {
      var next := DeleteObjectCall(w, s, name, keys[0]).0;
      assert FirewallFrom(w.buckets, next.buckets, plan) && next.buckets.Keys == w.buckets.Keys;
      DeletionKeepsFirewall(next, s, name, keys[1..], plan);
      FirewallTwice(w.buckets, next.buckets, DeleteKeys(next, s, name, keys[1..]).0.buckets, plan);
    }
  }

  lemma CompensationKeepsFirewall(w: World, s: Session, name: string, plan: Plan)
    ensures FirewallFrom(w.buckets, DeleteBucketEffect(w, s, name).0.buckets, plan)
  {
    var (listed, keys) := ListCall(w, s, name, "", w.page);
    if keys.Ok? {
      DeletionKeepsFirewall(listed, s, name, keys.value, plan);
      var emptied := DeleteKeys(listed, s, name, keys.value).0;
      RemovalKeepsFirewall(emptied, s, name, plan);
      FirewallTwice(w.buckets, emptied.buckets, DeleteBucketCall(emptied, s, name).0.buckets, plan);
    }
  }

  lemma RemovalKeepsFirewall(w: World, s: Session, name: string, plan: Plan)
    ensures FirewallFrom(w.buckets, DeleteBucketCall(w, s, name).0.buckets, plan)
  {
  }

  /** One step, and the compensation if the step fails. */
  lemma FirewallAfterStep(w: World, claim: Claim, plan: Plan, k: nat, undo: bool)
    requires k < STEPS && StepAt(plan, k).Some?
    ensures var s := if plan.session.Some? then plan.session.value else NO_SESSION;
            var (next, ok) := Perform(w, s, plan, StepAt(plan, k).value);
            && FirewallFrom(w.buckets, next.buckets, plan) && w.buckets.Keys <= next.buckets.Keys
            && (!ok ==> FirewallFrom(w.buckets, RunFrom(w, claim, plan, k, undo).0.buckets, plan))
  {
    var s := if plan.session.Some? then plan.session.value else NO_SESSION;
    var (next, ok) := Perform(w, s, plan, StepAt(plan, k).value);
    StepKeepsFirewall(w, s, plan, StepAt(plan, k).value);
    PerformKeepsEverything(w, s, plan, StepAt(plan, k).value);
    CompensationKeepsFirewall(next, s, plan.pvc.bucket, plan);
    FirewallTwice(w.buckets, next.buckets, DeleteBucketEffect(next, s, plan.pvc.bucket).0.buckets, plan);
  }

  /** However a call ends, it stores no firewall but the planned one, nowhere but in its own
      bucket. */
  lemma {:induction false} OnlyPlannedFirewalls(w: World, claim: Claim, plan: Plan, k: nat, undo: bool)
    requires k <= STEPS
    ensures FirewallFrom(w.buckets, RunFrom(w, claim, plan, k, undo).0.buckets, plan)
    decreases STEPS - k
  {
    if k < STEPS {
      if StepAt(plan, k).None? {
        OnlyPlannedFirewalls(w, claim, plan, k + 1, undo);
      } else {
        FirewallAfterStep(w, claim, plan, k, undo);
        var s := if plan.session.Some? then plan.session.value else NO_SESSION;
        var (next, ok) := Perform(w, s, plan, StepAt(plan, k).value);
        if ok && !(NeedsSession(StepAt(plan, k).value) && plan.session.None?) {
          var undoing := if k == 0 then CreateSucceeds(w, plan) else undo;
          OnlyPlannedFirewalls(next, claim, plan, k + 1, undoing);
          FirewallTwice(w.buckets, next.buckets, RunFrom(next, claim, plan, k + 1, undoing).0.buckets, plan);
        }
      }
    }
  }
}
