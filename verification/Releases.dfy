/** What a deployment of `core/src/deploy.rs` has released when all its steps worked: which
    versions were uploaded, what each is made of, which of them are live, and which KV namespace
    the subscription Worker is bound to. */
module Releases {
  import opened Bytes
  import opened Saga
  import opened Steps

  // ---------------------------------------------------------------- what steps leave alone

  predicate Uploads(op: Op) {
    op.Create? || op.Upload?
  }

  predicate Promotes(op: Op, t: Target) {
    (op.Create? || op.Promote?) && op.t == t
  }

  predicate ChoosesKv(op: Op) {
    op.FindKv? || op.CreateKv? || op.UseKv?
  }

  predicate Stages(op: Op) {
    op.StageRelay? || op.StageSub?
  }

  function LiveAt(w: World, t: Target): Option<Traffic> {
    if t in w.workers then Some(w.workers[t].live) else None
  }

  lemma StepUploads(s: State, op: Op, env: Outside)
    requires Step(s, op, env).Some?
    ensures !Uploads(op) ==> Step(s, op, env).value.uploads == s.uploads
    ensures !Stages(op) ==> Step(s, op, env).value.staged == s.staged
  {
    if Quiet(op) {
      QuietStep(env, s, op);
    }
  }

  lemma StepKv(s: State, op: Op, env: Outside)
    requires Step(s, op, env).Some? && !ChoosesKv(op)
    ensures Step(s, op, env).value.namespace == s.namespace && Step(s, op, env).value.world.kv == s.world.kv
  {
    if Quiet(op) {
      QuietStep(env, s, op);
    }
  }

  lemma StepLive(s: State, op: Op, env: Outside, t: Target)
    requires Step(s, op, env).Some? && !Promotes(op, t)
    ensures LiveAt(Step(s, op, env).value.world, t) == LiveAt(s.world, t)
  {
    if Quiet(op) {
      QuietStep(env, s, op);
    }
  }

  lemma {:induction false} UploadsStay(s: State, ops: seq<Op>, env: Outside)
    requires forall i :: 0 <= i < |ops| ==> !Uploads(ops[i])
    ensures Run(s, ops, env).state.uploads == s.uploads
    decreases |ops|
  {
    if |ops| > 0 {
      var next := Step(s, ops[0], env);
      if next.Some? {
        StepUploads(s, ops[0], env);
        UploadsStay(next.value, ops[1..], env);
      }
    }
  }

  lemma {:induction false} StagedStays(s: State, ops: seq<Op>, env: Outside)
    requires forall i :: 0 <= i < |ops| ==> !Stages(ops[i])
    ensures Run(s, ops, env).state.staged == s.staged
    decreases |ops|
  {
    if |ops| > 0 {
      var next := Step(s, ops[0], env);
      if next.Some? {
        StepUploads(s, ops[0], env);
        StagedStays(next.value, ops[1..], env);
      }
    }
  }

  lemma {:induction false} KvStays(s: State, ops: seq<Op>, env: Outside)
    requires forall i :: 0 <= i < |ops| ==> !ChoosesKv(ops[i])
    ensures Run(s, ops, env).state.namespace == s.namespace && Run(s, ops, env).state.world.kv == s.world.kv
    decreases |ops|
  {
    if |ops| > 0 {
      var next := Step(s, ops[0], env);
      if next.Some? {
        StepKv(s, ops[0], env);
        KvStays(next.value, ops[1..], env);
      }
    }
  }

  lemma {:induction false} LiveStays(s: State, ops: seq<Op>, env: Outside, t: Target)
    requires forall i :: 0 <= i < |ops| ==> !Promotes(ops[i], t)
    ensures LiveAt(Run(s, ops, env).state.world, t) == LiveAt(s.world, t)
    decreases |ops|
  {
    if |ops| > 0 {
      var next := Step(s, ops[0], env);
      if next.Some? {
        StepLive(s, ops[0], env, t);
        LiveStays(next.value, ops[1..], env, t);
      }
    }
  }

  // ---------------------------------------------------------------- one release

  /** One version more was uploaded to the target, of this metadata, and it is live. */
  ghost predicate Launched(s: State, s': State, t: Target, meta: Metadata) {
    && |s'.uploads| == |s.uploads| + 1 && s'.uploads[..|s.uploads|] == s.uploads
    && var u := s'.uploads[|s.uploads|]; u.target == t && u.meta == meta && LiveAt(s'.world, t) == Some(Whole(u.version))
  }

  /** What comes behind the promotion. */
  function Rest(t: Target, spec: EndpointSpec, cron: bool): seq<Op> {
    CronOps(t, cron) + EndpointOps(t, spec) + [Check]
  }

  lemma UploadRuns(s: State, t: Target, isUpdate: bool, env: Outside)
    requires Run(s, UploadOps(t, isUpdate), env).ok
    ensures
      var s' := Run(s, UploadOps(t, isUpdate), env).state;
      s'.uploads == s.uploads + [Uploaded(t, s'.version, s.staged)]
  {
    if isUpdate {
      RunAppend(s, [ReadStable(t)], [Upload(t)], env);
      RunOne(s, ReadStable(t), env);
      var s1 := Run(s, [ReadStable(t)], env).state;
      RunOne(s1, Upload(t), env);
      assert UploadOps(t, isUpdate) == [ReadStable(t)] + [Upload(t)];
    } else {
      RunOne(s, Create(t), env);
    }
  }

  lemma PromotionRuns(s: State, t: Target, isUpdate: bool, env: Outside)
    requires Run(s, [Promote(t, isUpdate)], env).ok
    ensures
      var s' := Run(s, [Promote(t, isUpdate)], env).state;
      s'.uploads == s.uploads && LiveAt(s'.world, t) == Some(Whole(s.version))
  {
    RunOne(s, Promote(t, isUpdate), env);
  }

  predicate Calm(op: Op) {
    !Uploads(op) && !op.Promote? && !ChoosesKv(op) && !Stages(op)
  }

  ghost predicate AllCalm(ops: seq<Op>) {
    forall i :: 0 <= i < |ops| ==> Calm(ops[i])
  }

  lemma CalmAppend(a: seq<Op>, b: seq<Op>)
    requires AllCalm(a) && AllCalm(b)
    ensures AllCalm(a + b)
  {
  }

  lemma RestIsCalm(t: Target, spec: EndpointSpec, cron: bool)
    ensures AllCalm(Rest(t, spec, cron))
  {
    var sw := [Switch(t, spec.workersDev)];
    CalmAppend(sw, SubdomainOps(spec));
    CalmAppend(sw + SubdomainOps(spec), DomainOps(t, spec));
    CalmAppend(sw + SubdomainOps(spec) + DomainOps(t, spec), [Check]);
    CalmAppend(CronOps(t, cron), EndpointOps(t, spec));
    CalmAppend(CronOps(t, cron) + EndpointOps(t, spec), [Check]);
  }

  lemma ReleaseInParts(t: Target, spec: EndpointSpec, isUpdate: bool, cron: bool)
    ensures ReleaseOps(t, spec, isUpdate, cron) == UploadOps(t, isUpdate) + ([Promote(t, isUpdate)] + Rest(t, spec, cron))
  {
    var up, pr := UploadOps(t, isUpdate), [Promote(t, isUpdate)];
    Assoc(up + pr, CronOps(t, cron), EndpointOps(t, spec));
    Assoc(up + pr, CronOps(t, cron) + EndpointOps(t, spec), [Check]);
    Assoc(up, pr, Rest(t, spec, cron));
  }

  /** The version that was uploaded is the one that is live. */
  lemma ReleaseRuns(s: State, t: Target, spec: EndpointSpec, isUpdate: bool, cron: bool, env: Outside)
    requires Run(s, ReleaseOps(t, spec, isUpdate, cron), env).ok
    ensures Launched(s, Run(s, ReleaseOps(t, spec, isUpdate, cron), env).state, t, s.staged)
  {
    var up, pr, rest := UploadOps(t, isUpdate), [Promote(t, isUpdate)], Rest(t, spec, cron);
    ReleaseInParts(t, spec, isUpdate, cron);
    RunAppend(s, up, pr + rest, env);
    var s1 := Run(s, up, env).state;
    UploadRuns(s, t, isUpdate, env);
    RunAppend(s1, pr, rest, env);
    PromotionRuns(s1, t, isUpdate, env);
    var s2 := Run(s1, pr, env).state;
    RestIsCalm(t, spec, cron);
    UploadsStay(s2, rest, env);
    LiveStays(s2, rest, env, t);
  }

  // ---------------------------------------------------------------- a relay

  /** A new relay is given its secret with its first version, a linked one keeps it. */
  function RelayMetadata(spec: RelaySpec): Metadata {
    RelayMeta(if spec.origin.NewRelay? then Some(spec.origin.workerValue) else None)
  }

  /** Steps before a release change neither uploads nor what is live. */
  lemma PreparationStays(s: State, ops: seq<Op>, env: Outside, t: Target, meta: Metadata, rest: seq<Op>)
    requires forall i :: 0 <= i < |ops| ==> !Uploads(ops[i])
    requires Run(s, ops, env).ok && Run(s, ops, env).state.staged == meta
    requires Run(s, ops + rest, env).ok
    requires Launched(Run(s, ops, env).state, Run(Run(s, ops, env).state, rest, env).state, t, meta)
    ensures Launched(s, Run(s, ops + rest, env).state, t, meta)
  {
    UploadsStay(s, ops, env);
    RunAppend(s, ops, rest, env);
  }

  lemma RelayPrepares(s: State, spec: RelaySpec, env: Outside)
    ensures
      var ops := RelaySecretOps(spec.origin) + [RelayStage(spec.origin)];
      && (forall i :: 0 <= i < |ops| ==> !Uploads(ops[i]))
      && (Run(s, ops, env).ok ==> Run(s, ops, env).state.staged == RelayMetadata(spec))
  {
    var secrets, stage := RelaySecretOps(spec.origin), [RelayStage(spec.origin)];
    RunAppend(s, secrets, stage, env);
    RunOne(Run(s, secrets, env).state, stage[0], env);
  }

  lemma RelayRuns(s: State, spec: RelaySpec, env: Outside)
    requires Run(s, RelayOps(spec), env).ok
    ensures Launched(s, Run(s, RelayOps(spec), env).state, spec.target, RelayMetadata(spec))
  {
    var secrets, stage := RelaySecretOps(spec.origin), [RelayStage(spec.origin)];
    var release := ReleaseOps(spec.target, spec.endpoint, spec.origin.LinkedRelay?, false);
    RunAppend(s, secrets + stage, release, env);
    RelayPrepares(s, spec, env);
    ReleaseRuns(Run(s, secrets + stage, env).state, spec.target, spec.endpoint, spec.origin.LinkedRelay?, false, env);
    PreparationStays(s, secrets + stage, env, spec.target, RelayMetadata(spec), release);
  }

  // ---------------------------------------------------------------- the subscription Worker

  /** The namespace is that of the title: the one found, or else one new entry; a linked
      subscription Worker keeps the one it has. */
  ghost predicate KvSettled(kv: map<string, string>, kv': map<string, string>, spec: SubSpec, namespace: string) {
    match spec.origin
    case LinkedSub(_, _, details) => kv' == kv && details.Some? && namespace == details.value.0
    case NewSub(_, _) =>
      if exists id :: id in kv && kv[id] == spec.kvTitle then kv' == kv && namespace in kv && kv[namespace] == spec.kvTitle
      else namespace !in kv && kv' == kv[namespace := spec.kvTitle]
  }

  lemma KvRuns(s: State, spec: SubSpec, env: Outside)
    requires Run(s, KvOps(spec), env).ok
    ensures
      var s' := Run(s, KvOps(spec), env).state;
      KvSettled(s.world.kv, s'.world.kv, spec, s'.namespace)
  {
    match spec.origin
    case NewSub(_, _) =>
      var find, create := FindKv(spec.kvTitle), CreateKv(spec.kvTitle);
      assert KvOps(spec) == [find] + [create];
      RunAppend(s, [find], [create], env);
      RunOne(s, find, env);
      RunOne(Run(s, [find], env).state, create, env);
    case LinkedSub(_, _, _) =>
      RunOne(s, KvOps(spec)[0], env);
  }

  function SubMetadata(spec: SubSpec, nodes: string, namespace: string): Metadata {
    SubMeta(nodes, if spec.origin.NewSub? then Some(spec.origin.tokenValue) else None, namespace)
  }

  /** Behind the preparation the namespace is settled, and the metadata names it. */
  lemma SubPrepares(s: State, spec: SubSpec, nodes: string, env: Outside)
    requires Run(s, SubPreparation(spec, nodes), env).ok
    ensures
      var s' := Run(s, SubPreparation(spec, nodes), env).state;
      && s'.staged == SubMetadata(spec, nodes, s'.namespace)
      && KvSettled(s.world.kv, s'.world.kv, spec, s'.namespace)
  {
    var kv, secrets, stage := KvOps(spec), SubSecretOps(spec.origin, nodes), [SubStage(spec.origin, nodes)];
    RunAppend(s, kv + secrets, stage, env);
    KvSecretsRun(s, spec, nodes, env);
    StageRuns(Run(s, kv + secrets, env).state, spec, nodes, env);
  }

  lemma KvSecretsRun(s: State, spec: SubSpec, nodes: string, env: Outside)
    requires Run(s, KvOps(spec) + SubSecretOps(spec.origin, nodes), env).ok
    ensures
      var s' := Run(s, KvOps(spec) + SubSecretOps(spec.origin, nodes), env).state;
      KvSettled(s.world.kv, s'.world.kv, spec, s'.namespace)
  {
    RunAppend(s, KvOps(spec), SubSecretOps(spec.origin, nodes), env);
    KvRuns(s, spec, env);
    KvStays(Run(s, KvOps(spec), env).state, SubSecretOps(spec.origin, nodes), env);
  }

  lemma StageRuns(s: State, spec: SubSpec, nodes: string, env: Outside)
    ensures
      var s' := Run(s, [SubStage(spec.origin, nodes)], env).state;
      s'.staged == SubMetadata(spec, nodes, s.namespace) && s'.namespace == s.namespace && s'.world == s.world
  {
    RunOne(s, SubStage(spec.origin, nodes), env);
  }

  lemma SubIsQuiet(spec: SubSpec, nodes: string)
    ensures
      var ops := SubPreparation(spec, nodes);
      forall i :: 0 <= i < |ops| ==> !Uploads(ops[i])
    ensures
      var ops := RotateOps(spec.origin, nodes);
      forall i :: 0 <= i < |ops| ==> !Uploads(ops[i]) && !Promotes(ops[i], spec.target) && !ChoosesKv(ops[i])
  {
  }

  /** The release of the subscription Worker, and nothing of its namespaces. */
  lemma SubReleases(s: State, spec: SubSpec, env: Outside)
    requires
      var release := ReleaseOps(spec.target, spec.endpoint, spec.origin.LinkedSub?, true);
      Run(s, release, env).ok
    ensures
      var s' := Run(s, ReleaseOps(spec.target, spec.endpoint, spec.origin.LinkedSub?, true), env).state;
      Launched(s, s', spec.target, s.staged) && s'.world.kv == s.world.kv
  {
    var t, isUpdate := spec.target, spec.origin.LinkedSub?;
    ReleaseRuns(s, t, spec.endpoint, isUpdate, true, env);
    ReleaseInParts(t, spec.endpoint, isUpdate, true);
    RestIsCalm(t, spec.endpoint, true);
    var ops := ReleaseOps(t, spec.endpoint, isUpdate, true);
    assert forall i :: 0 <= i < |ops| ==> !ChoosesKv(ops[i]) by {
      QuietParts(UploadOps(t, isUpdate), [Promote(t, isUpdate)], Rest(t, spec.endpoint, true));
    }
    KvStays(s, ops, env);
  }

  lemma QuietParts(a: seq<Op>, b: seq<Op>, c: seq<Op>)
    requires forall i :: 0 <= i < |a| ==> !ChoosesKv(a[i])
    requires forall i :: 0 <= i < |b| ==> !ChoosesKv(b[i])
    requires forall i :: 0 <= i < |c| ==> !ChoosesKv(c[i])
    ensures forall i :: 0 <= i < |a + (b + c)| ==> !ChoosesKv((a + (b + c))[i])
  {
  }

  /** The subscription Worker was released with the namespace that was settled. */
  ghost predicate SubReleased(s: State, s': State, spec: SubSpec, nodes: string) {
    && |s'.uploads| == |s.uploads| + 1 && s'.uploads[|s.uploads|].meta.SubMeta?
    && var namespace := s'.uploads[|s.uploads|].meta.namespace;
    && Launched(s, s', spec.target, SubMetadata(spec, nodes, namespace))
    && KvSettled(s.world.kv, s'.world.kv, spec, namespace)
  }

  lemma SubRuns(s: State, spec: SubSpec, nodes: string, env: Outside)
    requires Run(s, SubOps(spec, nodes), env).ok
    ensures SubReleased(s, Run(s, SubOps(spec, nodes), env).state, spec, nodes)
  {
    var before, last := SubPreparation(spec, nodes), RotateOps(spec.origin, nodes);
    var release := ReleaseOps(spec.target, spec.endpoint, spec.origin.LinkedSub?, true);
    RunAppend(s, before + release, last, env);
    RunAppend(s, before, release, env);
    SubPrepares(s, spec, nodes, env);
    SubIsQuiet(spec, nodes);
    var s1 := Run(s, before, env).state;
    var s2 := Run(s1, release, env).state;
    SubReleases(s1, spec, env);
    PreparationStays(s, before, env, spec.target, s1.staged, release);
    UploadsStay(s2, last, env);
    LiveStays(s2, last, env, spec.target);
    KvStays(s2, last, env);
  }

  // ---------------------------------------------------------------- the whole plan

  /** The version of upload `i` is live, unless there was a later one to the same Worker. */
  ghost predicate Serves(w: World, uploads: seq<Uploaded>, i: nat)
    requires i < |uploads|
  {
    (forall j :: i < j < |uploads| ==> uploads[j].target != uploads[i].target)
      ==> LiveAt(w, uploads[i].target) == Some(Whole(uploads[i].version))
  }

  /** One upload for every relay, in order, each of its own metadata. */
  ghost predicate RelaysReleased(w: World, uploads: seq<Uploaded>, relays: seq<RelaySpec>) {
    && |uploads| == |relays|
    && (forall i :: 0 <= i < |relays| ==> uploads[i].target == relays[i].target && uploads[i].meta == RelayMetadata(relays[i]))
    && forall i :: 0 <= i < |uploads| ==> Serves(w, uploads, i)
  }

  lemma OneMoreServes(w: World, w': World, uploads: seq<Uploaded>, u: Uploaded)
    requires forall i :: 0 <= i < |uploads| ==> Serves(w, uploads, i)
    requires forall t: Target :: t != u.target ==> LiveAt(w', t) == LiveAt(w, t)
    requires LiveAt(w', u.target) == Some(Whole(u.version))
    ensures forall i :: 0 <= i < |uploads + [u]| ==> Serves(w', uploads + [u], i)
  {
    var all := uploads + [u];
    forall i | 0 <= i < |all| ensures Serves(w', all, i) {
      if i < |uploads| && forall j :: i < j < |all| ==> all[j].target != all[i].target {
        assert all[|uploads|] == u && all[|uploads|].target != all[i].target;
        assert Serves(w, uploads, i);
        assert forall j :: i < j < |uploads| ==> all[j] == uploads[j];
      }
    }
  }

  lemma ReleaseTouchesOne(t: Target, spec: EndpointSpec, isUpdate: bool, cron: bool, u: Target)
    requires u != t
    ensures
      var ops := ReleaseOps(t, spec, isUpdate, cron);
      forall i :: 0 <= i < |ops| ==> !Promotes(ops[i], u)
  {
    ReleaseInParts(t, spec, isUpdate, cron);
    var rest := Rest(t, spec, cron);
    RestIsCalm(t, spec, cron);
    TouchParts(UploadOps(t, isUpdate), [Promote(t, isUpdate)], rest, u);
  }

  lemma TouchParts(a: seq<Op>, b: seq<Op>, c: seq<Op>, u: Target)
    requires forall i :: 0 <= i < |a| ==> !Promotes(a[i], u)
    requires forall i :: 0 <= i < |b| ==> !Promotes(b[i], u)
    requires forall i :: 0 <= i < |c| ==> !Promotes(c[i], u)
    ensures forall i :: 0 <= i < |a + (b + c)| ==> !Promotes((a + (b + c))[i], u)
  {
  }

  lemma RelayLeavesOthers(s: State, spec: RelaySpec, env: Outside, u: Target)
    requires u != spec.target
    ensures LiveAt(Run(s, RelayOps(spec), env).state.world, u) == LiveAt(s.world, u)
  {
    ReleaseTouchesOne(spec.target, spec.endpoint, spec.origin.LinkedRelay?, false, u);
    LiveStays(s, RelayOps(spec), env, u);
  }

  lemma SubLeavesOthers(s: State, spec: SubSpec, nodes: string, env: Outside, u: Target)
    requires u != spec.target
    ensures LiveAt(Run(s, SubOps(spec, nodes), env).state.world, u) == LiveAt(s.world, u)
  {
    ReleaseTouchesOne(spec.target, spec.endpoint, spec.origin.LinkedSub?, true, u);
    LiveStays(s, SubOps(spec, nodes), env, u);
  }

  lemma RelayKeepsKv(s: State, spec: RelaySpec, env: Outside)
    ensures Run(s, RelayOps(spec), env).state.world.kv == s.world.kv
  {
    var t, isUpdate := spec.target, spec.origin.LinkedRelay?;
    ReleaseInParts(t, spec.endpoint, isUpdate, false);
    RestIsCalm(t, spec.endpoint, false);
    QuietParts(UploadOps(t, isUpdate), [Promote(t, isUpdate)], Rest(t, spec.endpoint, false));
    KvStays(s, RelayOps(spec), env);
  }

  lemma {:induction false} RelaysRun(s: State, relays: seq<RelaySpec>, env: Outside)
    requires Run(s, RelaysOps(relays), env).ok && s.uploads == []
    ensures
      var s' := Run(s, RelaysOps(relays), env).state;
      RelaysReleased(s'.world, s'.uploads, relays) && s'.world.kv == s.world.kv
  {
    if |relays| > 0 {
      var init, last := relays[..|relays| - 1], relays[|relays| - 1];
      RunAppend(s, RelaysOps(init), RelayOps(last), env);
      RelaysRun(s, init, env);
      InitLast(relays);
      OneMoreRelay(Run(s, RelaysOps(init), env).state, init, last, env);
    }
  }

  lemma OneMoreRelay(s: State, relays: seq<RelaySpec>, spec: RelaySpec, env: Outside)
    requires Run(s, RelayOps(spec), env).ok && RelaysReleased(s.world, s.uploads, relays)
    ensures
      var s' := Run(s, RelayOps(spec), env).state;
      RelaysReleased(s'.world, s'.uploads, relays + [spec]) && s'.world.kv == s.world.kv
  {
    var s' := Run(s, RelayOps(spec), env).state;
    RelayRuns(s, spec, env);
    RelayKeepsKv(s, spec, env);
    forall t: Target | t != spec.target ensures LiveAt(s'.world, t) == LiveAt(s.world, t) {
      RelayLeavesOthers(s, spec, env, t);
    }
    UploadedOneMore(s, s', relays, spec);
  }

  lemma UploadedOneMore(s: State, s': State, relays: seq<RelaySpec>, spec: RelaySpec)
    requires RelaysReleased(s.world, s.uploads, relays) && Launched(s, s', spec.target, RelayMetadata(spec))
    requires forall t: Target :: t != spec.target ==> LiveAt(s'.world, t) == LiveAt(s.world, t)
    ensures RelaysReleased(s'.world, s'.uploads, relays + [spec])
  {
    var u := s'.uploads[|s.uploads|];
    assert s'.uploads == s.uploads + [u];
    OneMoreServes(s.world, s'.world, s.uploads, u);
  }

  /** One upload for every relay and one for the subscription Worker, in order, each of its own
      metadata and live unless a later one went to the same Worker; and the namespace that the
      last one names is settled. */
  ghost predicate PlanReleased(kv: map<string, string>, w: World, uploads: seq<Uploaded>, plan: Plan, nodes: string) {
    && |uploads| == |plan.relays| + 1
    && (forall i :: 0 <= i < |plan.relays| ==>
          uploads[i].target == plan.relays[i].target && uploads[i].meta == RelayMetadata(plan.relays[i]))
    && (forall i :: 0 <= i < |uploads| ==> Serves(w, uploads, i))
    && var last := uploads[|plan.relays|];
    && last.target == plan.sub.target && last.meta.SubMeta?
    && last.meta == SubMetadata(plan.sub, nodes, last.meta.namespace) && KvSettled(kv, w.kv, plan.sub, last.meta.namespace)
  }

  lemma PlanRuns(start: World, clock: nat, env: Outside, plan: Plan, nodes: string)
    requires Deployed(start, clock, env, plan, nodes).ok
    ensures
      var s := Deployed(start, clock, env, plan, nodes).state;
      PlanReleased(start.kv, s.world, s.uploads, plan, nodes)
  {
    var s0, relays, sub := Initial(start, clock), RelaysOps(plan.relays), SubOps(plan.sub, nodes);
    RunAppend(s0, relays, sub, env);
    RelaysRun(s0, plan.relays, env);
    var s1 := Run(s0, relays, env).state;
    var s2 := Run(s1, sub, env).state;
    SubRuns(s1, plan.sub, nodes, env);
    forall t: Target | t != plan.sub.target ensures LiveAt(s2.world, t) == LiveAt(s1.world, t) {
      SubLeavesOthers(s1, plan.sub, nodes, env, t);
    }
    InitLast(s2.uploads);
    OneMoreServes(s1.world, s2.world, s1.uploads, s2.uploads[|s1.uploads|]);
  }
}
