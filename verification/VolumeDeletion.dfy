/** Delete against the volume Provision made: the two string maps bring back the session and
    the bucket, so a fault-free Delete undoes the call. */
module VolumeDeletion {
  import opened Wrappers
  import opened Text
  import opened Store
  import opened Backend
  import opened Deletion
  import opened Codec
  import opened Records
  import opened Annotations
  import opened Provisioner
  import opened BucketSafety
  import opened Rollback

  lemma {:induction false} ProvisionedVolume(w: World, claim: Claim, plan: Plan, k: nat, undo: bool)
    requires k <= STEPS && RunFrom(w, claim, plan, k, undo).1.Provisioned?
    ensures RunFrom(w, claim, plan, k, undo).1 == Finish(claim, plan)
    decreases STEPS - k
  {
    if k < STEPS {
      if StepAt(plan, k).None? {
        ProvisionedVolume(w, claim, plan, k + 1, undo);
      } else {
        var s := if plan.session.Some? then plan.session.value else NO_SESSION;
        var next := Perform(w, s, plan, StepAt(plan, k).value).0;
        ProvisionedVolume(next, claim, plan, k + 1, if k == 0 then CreateSucceeds(w, plan) else undo);
      }
    }
  }

  /** Looking an emitted text field up, with a missing key read as empty, gives it back. */
  lemma TextSurvives(o: Options, t: OptionTag, v: Volume)
    requires OPTIONS_SCHEMA.kind(t) == Text && MarshalOptions(o) == Some(v.options)
    ensures o.Field(t) == Str(OptionText(v, t))
  {
    OptionsIsTyped(o);
    TextLookup(OPTIONS_SCHEMA, t => o.Field(t), t);
  }

  lemma EndpointsSurvive(o: Options, v: Volume)
    requires MarshalOptions(o) == Some(v.options)
    ensures OptionText(v, OptionTag.OSEndpoint) == o.osEndpoint
    ensures OptionText(v, OptionTag.OSStorageClass) == o.osStorageClass
    ensures OptionText(v, OptionTag.IAMEndpoint) == o.iamEndpoint
  {
    TextSurvives(o, OptionTag.OSEndpoint, v);
    TextSurvives(o, OptionTag.OSStorageClass, v);
    TextSurvives(o, OptionTag.IAMEndpoint, v);
    assert o.Field(OptionTag.OSEndpoint) == Str(o.osEndpoint);
    assert o.Field(OptionTag.OSStorageClass) == Str(o.osStorageClass);
    assert o.Field(OptionTag.IAMEndpoint) == Str(o.iamEndpoint);
  }

  ghost predicate IsProvisioned(w: World, env: Env, claim: Claim, v: Volume) {
    ProvisionEffect(w, env, claim).1 == Provisioned(v)
  }

  lemma VolumeParts(w: World, env: Env, claim: Claim, v: Volume)
    requires IsProvisioned(w, env, claim, v)
    ensures Prepare(env, claim).Ready? && |claim.accessModes| == 1
    ensures var plan := Prepare(env, claim).plan;
            && MarshalOptions(DriverOptions(plan, FinalSc(plan), claim.accessModes[0])) == Some(v.options)
            && MarshalPvc(KeptAnnotations(plan.pvc)) == Some(v.annotations)
  {
    ProvisionedVolume(w, claim, Prepare(env, claim).plan, 0, false);
  }

  /** What Delete reads from the volume's annotations is what Provision used. */
  lemma AnnotationsRebuilt(pvc: Pvc, annotations: map<PvcTag, string>)
    requires MarshalPvc(KeptAnnotations(pvc)) == Some(annotations)
    ensures UnmarshalPvc(annotations) == Some(KeptAnnotations(pvc))
  {
    PvcRoundTrip(KeptAnnotations(pvc));
  }

  lemma EndpointsRebuilt(plan: Plan, accessMode: string, v: Volume, login: Login)
    requires MarshalOptions(DriverOptions(plan, FinalSc(plan), accessMode)) == Some(v.options)
    ensures DeletionSession(v, login) ==
            Session(plan.sc.osEndpoint, plan.sc.osStorageClass, login.creds.(iamEndpoint := plan.sc.iamEndpoint))
  {
    EndpointsSurvive(DriverOptions(plan, FinalSc(plan), accessMode), v);
  }

  /** The secret is readable at deletion time and still says what it said before. */
  ghost predicate SameSecret(env: Env, later: Env, pvc: Pvc) {
    && CertReadable(later, pvc.secretNamespace, pvc.secretName)
    && GetLogin(later, pvc.secretNamespace, pvc.secretName) == GetLogin(env, pvc.secretNamespace, pvc.secretName)
  }

  /** For every volume provisioned with a session, Delete opens that very session (endpoint,
      region, IAM endpoint and credentials) and aims at the same bucket. */
  lemma SessionReopened(w: World, env: Env, claim: Claim, v: Volume, later: Env)
    requires IsProvisioned(w, env, claim, v)
    requires Prepare(env, claim).plan.session.Some? && SameSecret(env, later, Prepare(env, claim).plan.pvc)
    ensures var plan := Prepare(env, claim).plan;
            var a := UnmarshalPvc(v.annotations);
            && a.Some? && a.value.bucket == plan.pvc.bucket && a.value.autoDeleteBucket == plan.pvc.autoDeleteBucket
            && SessionToDelete(later, v, a.value) == plan.session
  {
    VolumeParts(w, env, claim, v);
    var plan := Prepare(env, claim).plan;
    AnnotationsRebuilt(plan.pvc, v.annotations);
    EndpointsRebuilt(plan, claim.accessModes[0], v,
                     GetLogin(later, plan.pvc.secretNamespace, plan.pvc.secretName).value);
    PlanSession(env, claim);
  }

  lemma PlanSession(env: Env, claim: Claim)
    requires Prepare(env, claim).Ready? && Prepare(env, claim).plan.session.Some?
    ensures var plan := Prepare(env, claim).plan;
            var login := GetLogin(env, plan.pvc.secretNamespace, plan.pvc.secretName);
            login.Some? && plan.session == Some(Session(plan.sc.osEndpoint, plan.sc.osStorageClass,
                                                        login.value.creds.(iamEndpoint := plan.sc.iamEndpoint)))
  {
  }

  /** Fault-free deletion of a bucket that now holds `objects`, by its own session. */
  lemma QuietDeletionOf(base: Buckets, w: World, s: Session, name: string)
    requires Quiet(w) && name !in base && w.buckets - {name} == base
    requires Denial(w, s, name) == None && w.buckets[name].retained == 0
    ensures var b := w.buckets[name];
            var (after, err) := DeleteBucketEffect(w, s, name);
            && (err.None? <==> b.objects == [] || (b.versioning == Unset && |b.objects| <= w.page))
            && (err.None? ==> after.buckets == base)
            && (err.Some? ==> name in after.buckets)
  {
    if w.buckets[name].objects == [] {
      DeleteAddedBucket(base, w, s, name);
    } else if w.buckets[name].versioning == Unset {
      QuietDeletion(w, s, name);
    } else {
      VersionedBucketSurvives(w, s, name);
    }
  }

  /** A new volume's bucket is exactly the one asked for, added to the store as it was. */
  lemma ProvisionedBucket(before: World, env: Env, claim: Claim, v: Volume)
    requires IsProvisioned(before, env, claim, v)
    requires Prepare(env, claim).plan.Creates() && Prepare(env, claim).plan.pvc.bucket !in before.buckets
    ensures var plan := Prepare(env, claim).plan;
            && plan.session.Some?
            && ProvisionEffect(before, env, claim).0.buckets ==
               before.buckets[plan.pvc.bucket := BucketAfter(plan, plan.session.value, STEPS)]
  {
    SessionIffValidated(env, claim);
    TransactionOnFreeName(before, claim, Prepare(env, claim).plan);
  }

  lemma DeletionTarget(w: World, env: Env, claim: Claim, v: Volume, now: World, later: Env)
    requires IsProvisioned(w, env, claim, v)
    requires var plan := Prepare(env, claim).plan;
             plan.session.Some? && plan.pvc.autoDeleteBucket == "true" && SameSecret(env, later, plan.pvc)
    ensures var plan := Prepare(env, claim).plan;
            var (end, err) := DeleteBucketEffect(now, plan.session.value, plan.pvc.bucket);
            DeleteEffect(now, later, v) == (end, err.None?)
  {
    SessionReopened(w, env, claim, v, later);
  }

  /** Delete undoes Provision: for a bucket this provisioning created with auto-delete on,
      after users put any objects into it, a fault-free Delete succeeds and restores the store
      of before the provisioning exactly when the bucket is empty, or unversioned with at most
      one page of objects; otherwise it fails and the bucket is still there. */
  lemma DeleteUndoesProvision(before: World, env: Env, claim: Claim, v: Volume, now: World, later: Env,
                              objects: seq<string>)
    requires IsProvisioned(before, env, claim, v)
    requires var plan := Prepare(env, claim).plan;
             && plan.Creates() && plan.pvc.autoDeleteBucket == "true" && plan.pvc.bucket !in before.buckets
             && SameSecret(env, later, plan.pvc)
    requires var name, made := Prepare(env, claim).plan.pvc.bucket, ProvisionEffect(before, env, claim).0.buckets;
             name in made && now.buckets == made[name := made[name].(objects := objects)]
    requires Quiet(now)
    ensures var plan := Prepare(env, claim).plan;
            var (end, ok) := DeleteEffect(now, later, v);
            && (ok <==> objects == [] || (plan.Versioning().None? && |objects| <= now.page))
            && (ok ==> end.buckets == before.buckets)
            && (!ok ==> plan.pvc.bucket in end.buckets)
  {
    var plan := Prepare(env, claim).plan;
    ProvisionedBucket(before, env, claim, v);
    assert DeleteEffect(now, later, v) ==
           (DeleteBucketEffect(now, plan.session.value, plan.pvc.bucket).0,
            DeleteBucketEffect(now, plan.session.value, plan.pvc.bucket).1.None?) by {
      DeletionTarget(before, env, claim, v, now, later);
    }
    DeletionOfFilledBucket(before.buckets, now, plan, objects);
  }

  lemma DeletionOfFilledBucket(base: Buckets, now: World, plan: Plan, objects: seq<string>)
    requires plan.session.Some? && plan.pvc.bucket !in base && Quiet(now)
    requires var made := base[plan.pvc.bucket := BucketAfter(plan, plan.session.value, STEPS)];
             now.buckets == made[plan.pvc.bucket := made[plan.pvc.bucket].(objects := objects)]
    ensures var (end, err) := DeleteBucketEffect(now, plan.session.value, plan.pvc.bucket);
            && (err.None? <==> objects == [] || (plan.Versioning().None? && |objects| <= now.page))
            && (err.None? ==> end.buckets == base)
            && (err.Some? ==> plan.pvc.bucket in end.buckets)
  {
    var s, name := plan.session.value, plan.pvc.bucket;
    Replace(base, name, BucketAfter(plan, s, STEPS), BucketAfter(plan, s, STEPS).(objects := objects));
    AddThenRemove(base, name, now.buckets[name]);
    QuietDeletionOf(base, now, s, name);
  }

  /** The secret a claim's texts point at. */
  function SecretRef(env: Env, namespace: string, p: Pvc, c: Sc): (string, string) {
    (if env.allowCrossNsSecret then FirstOf(p.secretNamespace, FirstOf(c.secretNamespace, namespace)) else namespace,
     FirstOf(p.secretName, c.secretName))
  }

  lemma JudgeNeedsSecret(env: Env, namespace: string, p: Pvc, c: Sc)
    requires var ref := SecretRef(env, namespace, p, c); !CertReadable(env, ref.0, ref.1)
    ensures !JudgeParsed(env, namespace, p, c).Accepted?
  {
  }

  lemma PrepareNeedsSecret(env: Env, claim: Claim, p: Pvc, c: Sc)
    requires UnmarshalPvc(claim.annotations) == Some(p) && UnmarshalSc(claim.parameters) == Some(c)
    requires var ref := SecretRef(env, claim.namespace, p, c); !CertReadable(env, ref.0, ref.1)
    ensures !Prepare(env, claim).Ready?
  {
    JudgeNeedsSecret(env, claim.namespace, p, c);
  }

  /** A claim whose secret is missing, cannot be fetched, or has a certificate that cannot be
      written becomes no volume and does not touch the store. */
  lemma ProvisionNeedsSecret(w: World, env: Env, claim: Claim, p: Pvc, c: Sc)
    requires UnmarshalPvc(claim.annotations) == Some(p) && UnmarshalSc(claim.parameters) == Some(c)
    requires var ref := SecretRef(env, claim.namespace, p, c); !CertReadable(env, ref.0, ref.1)
    ensures ProvisionEffect(w, env, claim).0 == w && !ProvisionEffect(w, env, claim).1.Provisioned?
  {
    PrepareNeedsSecret(env, claim, p, c);
  }

  /** And once a volume is provisioned, losing its secret makes its auto-delete fail, again
      without touching the store. */
  lemma DeleteNeedsSecret(w: World, env: Env, claim: Claim, v: Volume, now: World, later: Env)
    requires IsProvisioned(w, env, claim, v)
    requires var pvc := Prepare(env, claim).plan.pvc;
             pvc.autoDeleteBucket == "true" && !CertReadable(later, pvc.secretNamespace, pvc.secretName)
    ensures DeleteEffect(now, later, v) == (now, false)
  {
    VolumeParts(w, env, claim, v);
    AnnotationsRebuilt(Prepare(env, claim).plan.pvc, v.annotations);
  }

  // ---------------------------------------------------------------- auto-delete is not "true"

  /** The auto-delete text in force: the annotation's, else the storage class's, else "false". */
  function AutoDeleteText(claim: Claim): string {
    match (UnmarshalPvc(claim.annotations), UnmarshalSc(claim.parameters))
    case (Some(p), Some(c)) => FirstOf(p.autoDeleteBucket, FirstOf(c.autoDeleteBucket, "false"))
    case _ => ""
  }

  lemma PlannedSwitches(env: Env, claim: Claim)
    requires Prepare(env, claim).Ready?
    ensures UnmarshalPvc(claim.annotations).Some? && UnmarshalSc(claim.parameters).Some?
    ensures var p, c := UnmarshalPvc(claim.annotations).value, UnmarshalSc(claim.parameters).value;
            var pvc := Prepare(env, claim).plan.pvc;
            && pvc.autoDeleteBucket == AutoDeleteText(claim)
                 && (p.autoDeleteBucket != "" ==> IsBool(p.autoDeleteBucket))
            && pvc.autoCreateBucket == FirstOf(p.autoCreateBucket, FirstOf(c.autoCreateBucket, "true"))
            && (p.autoCreateBucket != "" ==> IsBool(p.autoCreateBucket))
  {
    var p, c := UnmarshalPvc(claim.annotations).value, UnmarshalSc(claim.parameters).value;
    AcceptedSwitches(env, claim.namespace, p, c);
  }

  lemma AcceptedSwitches(env: Env, namespace: string, p: Pvc, c: Sc)
    requires JudgeParsed(env, namespace, p, c).Accepted?
    ensures var pvc := JudgeParsed(env, namespace, p, c).settings.pvc;
            && pvc.autoDeleteBucket == FirstOf(p.autoDeleteBucket, FirstOf(c.autoDeleteBucket, "false"))
            && pvc.autoCreateBucket == FirstOf(p.autoCreateBucket, FirstOf(c.autoCreateBucket, "true"))
            && BlankOrBool(p.autoDeleteBucket) && BlankOrBool(p.autoCreateBucket)
  {
  }

  /** Every volume whose auto-delete text is not exactly "true": deleting it never touches the
      store, and succeeds iff that text is a boolean, which only the storage class can prevent. */
  lemma KeptVolumeIff(w: World, env: Env, claim: Claim, v: Volume, now: World, later: Env)
    requires IsProvisioned(w, env, claim, v) && AutoDeleteText(claim) != "true"
    ensures var p, c := UnmarshalPvc(claim.annotations), UnmarshalSc(claim.parameters);
            && p.Some? && c.Some?
            && DeleteEffect(now, later, v).0 == now
            && (DeleteEffect(now, later, v).1 <==> IsBool(AutoDeleteText(claim)))
            && (IsBool(AutoDeleteText(claim)) <==>
                  p.value.autoDeleteBucket != "" || c.value.autoDeleteBucket == "" || IsBool(c.value.autoDeleteBucket))
  {
    VolumeParts(w, env, claim, v);
    PlannedSwitches(env, claim);
    AnnotationsRebuilt(Prepare(env, claim).plan.pvc, v.annotations);
  }

  /** Where the text is a boolean, a deletion goes for the bucket iff it is exactly "true", and
      otherwise reports success and changes nothing: the text is obeyed as ParseBool reads it,
      except exactly for the other spellings of true. */
  lemma AutoDeleteObeysIff(w: World, env: Env, claim: Claim, v: Volume, now: World, later: Env)
    requires IsProvisioned(w, env, claim, v) && IsBool(AutoDeleteText(claim))
    requires SameSecret(env, later, Prepare(env, claim).plan.pvc)
    ensures var name := Prepare(env, claim).plan.pvc.bucket;
            var (end, ok) := DeleteEffect(now, later, v);
            && (AutoDeleteText(claim) != "true" ==> ok && end == now)
            && (AutoDeleteText(claim) == "true" ==>
                  Prepare(env, claim).plan.session.Some? &&
                  var (after, err) := DeleteBucketEffect(now, Prepare(env, claim).plan.session.value, name);
                  (end, ok) == (after, err.None?))
            && ((AutoDeleteText(claim) == "true") == MeansTrue(AutoDeleteText(claim)) <==>
                  AutoDeleteText(claim) !in ["1", "t", "T", "TRUE", "True"])
  {
    PlannedSwitches(env, claim);
    OtherTrue(AutoDeleteText(claim));
    if AutoDeleteText(claim) == "true" {
      AutoDeleteValidates(env, claim);
      DeletionTarget(w, env, claim, v, now, later);
    } else {
      KeptVolumeIff(w, env, claim, v, now, later);
    }
  }

  lemma OtherTrue(x: string)
    ensures (x == "true") == MeansTrue(x) <==> x !in ["1", "t", "T", "TRUE", "True"]
  {
    assert "true" !in ["1", "t", "T", "TRUE", "True"] by {
      assert "true"[0] != "T"[0] && "true"[0] != "TRUE"[0] && "true"[0] != "True"[0];
    }
  }

  // ---------------------------------------------------------------- any bucket, new or old

  /** A validated call that yields a volume has seen the bucket through its own session. */
  lemma {:induction false} ProvisionedIsReachable(w: World, claim: Claim, plan: Plan, k: nat, undo: bool)
    requires k <= 4 && plan.session.Some? && plan.validate && RunFrom(w, claim, plan, k, undo).1.Provisioned?
    ensures Denial(RunFrom(w, claim, plan, k, undo).0, plan.session.value, plan.pvc.bucket) == None
    decreases STEPS - k
  {
    if StepAt(plan, k).None? {
      ProvisionedIsReachable(w, claim, plan, k + 1, undo);
    } else {
      var (next, ok) := Perform(w, plan.session.value, plan, StepAt(plan, k).value);
      if k < 4 {
        ProvisionedIsReachable(next, claim, plan, k + 1, if k == 0 then CreateSucceeds(w, plan) else undo);
      } else {
        LastCheckOnlyLooks(next, claim, plan, undo);
      }
    }
  }

  lemma PathCheckLooks(w: World, s: Session, plan: Plan)
    ensures Perform(w, s, plan, CheckPath(plan.pvc.objectPath)).0.buckets == w.buckets
  {
  }

  lemma LastCheckOnlyLooks(w: World, claim: Claim, plan: Plan, undo: bool)
    ensures RunFrom(w, claim, plan, 5, undo).0.buckets == w.buckets
  {
    if StepAt(plan, 5).None? {
      assert RunFrom(w, claim, plan, 5, undo) == RunFrom(w, claim, plan, STEPS, undo);
    } else {
      var s := if plan.session.Some? then plan.session.value else NO_SESSION;
      PathCheckLooks(w, s, plan);
      var (next, ok) := Perform(w, s, plan, StepAt(plan, 5).value);
      assert RunFrom(w, claim, plan, 5, undo).0 in {w, next};
    }
  }

  /** A deletion that succeeds on a bucket its session can reach has removed it, whatever
      faults it met. */
  lemma SuccessRemoves(w: World, s: Session, name: string)
    requires Denial(w, s, name) == None && DeleteBucketEffect(w, s, name).1.None?
    ensures DeleteBucketEffect(w, s, name).0.buckets == w.buckets - {name}
  {
    DeletionTouchesOneBucket(w, s, name);
    Rebuild(w.buckets, DeleteBucketEffect(w, s, name).0.buckets, name);
  }

  /** For every auto-delete volume, over a new or an existing bucket and whatever objects users
      put there: a Delete that succeeds, under any faults, leaves the store of before the
      provisioning without that bucket. So it restores that store iff the bucket was new. */
  lemma DeleteRestoresIff(before: World, env: Env, claim: Claim, v: Volume, now: World, later: Env,
                          objects: seq<string>)
    requires IsProvisioned(before, env, claim, v)
    requires var plan := Prepare(env, claim).plan;
             plan.pvc.autoDeleteBucket == "true" && SameSecret(env, later, plan.pvc)
    requires var name, made := Prepare(env, claim).plan.pvc.bucket, ProvisionEffect(before, env, claim).0.buckets;
             name in made && now.buckets == made[name := made[name].(objects := objects)]
    ensures var name := Prepare(env, claim).plan.pvc.bucket;
            var (end, ok) := DeleteEffect(now, later, v);
            ok ==>
              && end.buckets == before.buckets - {name}
              && (end.buckets == before.buckets <==> name !in before.buckets)
  {
    AutoDeleteValidates(env, claim);
    DeletionTarget(before, env, claim, v, now, later);
    DeletionOfReachable(before, claim, Prepare(env, claim).plan, now, objects);
  }

  lemma AutoDeleteValidates(env: Env, claim: Claim)
    requires Prepare(env, claim).Ready? && Prepare(env, claim).plan.pvc.autoDeleteBucket == "true"
    ensures Prepare(env, claim).plan.session.Some? && Prepare(env, claim).plan.validate
  {
    SessionIffValidated(env, claim);
  }

  lemma DeletionOfReachable(before: World, claim: Claim, plan: Plan, now: World, objects: seq<string>)
    requires plan.session.Some? && plan.validate && RunFrom(before, claim, plan, 0, false).1.Provisioned?
    requires var name, made := plan.pvc.bucket, RunFrom(before, claim, plan, 0, false).0.buckets;
             name in made && now.buckets == made[name := made[name].(objects := objects)]
    ensures var name := plan.pvc.bucket;
            var (end, err) := DeleteBucketEffect(now, plan.session.value, name);
            err.None? ==>
              && end.buckets == before.buckets - {name}
              && (end.buckets == before.buckets <==> name !in before.buckets)
  {
    var name, made := plan.pvc.bucket, RunFrom(before, claim, plan, 0, false).0.buckets;
    ProvisionedIsReachable(before, claim, plan, 0, false);
    TransactionLosesOnlyByRollback(before, claim, plan, 0, false, name);
    Overwrite(made, name, made[name].(objects := objects));
    if DeleteBucketEffect(now, plan.session.value, name).1.None? {
      SuccessRemoves(now, plan.session.value, name);
      assert name !in before.buckets ==> before.buckets - {name} == before.buckets;
    }
  }

  /** Auto-create with any text but "true" creates nothing, and unless it is "false" a missing
      bucket means no volume: the other spellings of true ask for a bucket that is there. */
  lemma OnlyTrueCreates(w: World, env: Env, claim: Claim)
    requires Prepare(env, claim).Ready? && Prepare(env, claim).plan.pvc.bucket !in w.buckets
    requires Prepare(env, claim).plan.pvc.autoCreateBucket != "true"
    ensures var (end, outcome) := ProvisionEffect(w, env, claim);
            && end.buckets == w.buckets
            && (Prepare(env, claim).plan.pvc.autoCreateBucket != "false" ==> !outcome.Provisioned?)
  {
    SessionIffValidated(env, claim);
    UncreatedIsMissed(w, claim, Prepare(env, claim).plan);
  }

  lemma UncreatedIsMissed(w: World, claim: Claim, plan: Plan)
    requires !plan.Creates() && plan.pvc.bucket !in w.buckets && (plan.validate ==> plan.session.Some?)
    ensures var (end, outcome) := RunFrom(w, claim, plan, 0, false);
            end.buckets == w.buckets && (plan.validate ==> !outcome.Provisioned?)
  {
    NothingAdded(w, claim, plan, 1);
    assert RunFrom(w, claim, plan, 0, false) == RunFrom(w, claim, plan, 1, false);
    if plan.validate && RunFrom(w, claim, plan, 0, false).1.Provisioned? {
      ProvisionedIsReachable(w, claim, plan, 0, false);
      assert false;
    }
  }
}
