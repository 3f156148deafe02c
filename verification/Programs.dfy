/** Lists of calls that create nothing twice: wherever such a list fails, undoing what is
    pending leads to the rolled-back world. Plans that create distinct Workers are such lists. */
module Programs {
  import opened Bytes
  import opened Saga
  import opened Steps
  import opened Rollback

  // ---------------------------------------------------------------- programs that create nothing twice

  /** The second call must not come behind the first. */
  predicate Clash(a: Op, b: Op) {
    match a
    case Create(t) => b.Create? && b.t == t
    case Store(_, r, _) => b.Store? && b.r == r
    case Rotate(_, _) => true
    case _ => false
  }

  ghost predicate NoClash(ops: seq<Op>) {
    forall i, j :: 0 <= i < j < |ops| ==> !Clash(ops[i], ops[j])
  }

  ghost predicate Cross(a: seq<Op>, b: seq<Op>) {
    forall i, j :: 0 <= i < |a| && 0 <= j < |b| ==> !Clash(a[i], b[j])
  }

  lemma NoClashAppend(a: seq<Op>, b: seq<Op>)
    requires NoClash(a) && NoClash(b) && Cross(a, b)
    ensures NoClash(a + b)
  {
    var s := a + b;
    forall i, j | 0 <= i < j < |s| ensures !Clash(s[i], s[j]) {
      assert s[i] == if i < |a| then a[i] else b[i - |a|];
      assert s[j] == if j < |a| then a[j] else b[j - |a|];
    }
  }

  /** Which Workers have had their traffic read since their last promotion. */
  function ReadAfter(read: set<Target>, op: Op): set<Target> {
    if op.ReadStable? then read + {op.t} else if op.Promote? then read - {op.t} else read
  }

  /** Before an update is promoted its traffic has been read. */
  predicate Prepared(read: set<Target>, ops: seq<Op>)
    decreases |ops|
  {
    |ops| == 0
    || ((ops[0].Promote? && ops[0].isUpdate ==> ops[0].t in read)
        && Prepared(ReadAfter(read, ops[0]), ops[1..]))
  }

  lemma {:induction false} PreparedMore(read: set<Target>, more: set<Target>, ops: seq<Op>)
    requires Prepared(read, ops) && read <= more
    ensures Prepared(more, ops)
    decreases |ops|
  {
    if |ops| > 0 {
      PreparedMore(ReadAfter(read, ops[0]), ReadAfter(more, ops[0]), ops[1..]);
    }
  }

  lemma {:induction false} PreparedAppend(read: set<Target>, a: seq<Op>, b: seq<Op>)
    requires Prepared(read, a) && Prepared({}, b)
    ensures Prepared(read, a + b)
    decreases |a|
  {
    if |a| == 0 {
      NilLeft(b);
      PreparedMore({}, read, b);
    } else {
      assert (a + b)[0] == a[0] && (a + b)[1..] == a[1..] + b;
      PreparedAppend(ReadAfter(read, a[0]), a[1..], b);
    }
  }

  /** What a plan counts on when it starts. */
  predicate Allowed(start: World, op: Op) {
    match op
    case Store(_, r, _) => r !in start.creds
    case Create(t) => t !in start.workers
    case Promote(t, isUpdate) => t in start.workers ==> isUpdate
    case _ => true
  }

  /** Nothing done so far stands in the way of a call that is still to come. */
  ghost predicate Open(s: State, op: Op) {
    match op
    case Store(_, r, _) => Credential(r) !in s.compensations
    case Create(t) => DeleteWorker(t) !in s.compensations
    case _ => true
  }

  ghost predicate AllOpen(start: World, s: State, ops: seq<Op>) {
    forall i :: 0 <= i < |ops| ==> Allowed(start, ops[i]) && Open(s, ops[i])
  }

  ghost predicate Orderly(start: World, s: State, ops: seq<Op>) {
    AllOpen(start, s, ops) && NoClash(ops) && Prepared(s.stable.Keys, ops)
  }

  lemma PromotedKeys(env: Outside, s: State, op: Op)
    requires Step(s, op, env).Some?
    ensures Step(s, op, env).value.promoted.Keys == if op.Promote? then s.promoted.Keys + {op.t} else s.promoted.Keys
  {
    if Quiet(op) {
      QuietStep(env, s, op);
    }
  }

  lemma SwitchedKeys(env: Outside, s: State, op: Op)
    requires Step(s, op, env).Some?
    ensures Step(s, op, env).value.switched
         == if op.Switch? && DevSeen(s.world, env.devReads, op.t) != op.wanted then s.switched + {op.t} else s.switched
  {
    if Quiet(op) {
      QuietStep(env, s, op);
    }
  }

  lemma StableKeys(env: Outside, s: State, op: Op)
    requires Step(s, op, env).Some?
    ensures Step(s, op, env).value.stable.Keys == ReadAfter(s.stable.Keys, op)
  {
    if Quiet(op) {
      QuietStep(env, s, op);
    }
  }

  /** What a step adds to what is pending. */
  predicate Adds(op: Op, c: Compensation) {
    match c
    case Credential(r) => (op.Store? || op.Rotate?) && op.r == r
    case DeleteWorker(t) => op.Create? && op.t == t
    case _ => true
  }

  lemma PendingGrows(env: Outside, s: State, op: Op)
    requires Step(s, op, env).Some?
    ensures
      var cs, cs' := s.compensations, Step(s, op, env).value.compensations;
      cs' == cs || (|cs'| == |cs| + 1 && cs'[..|cs|] == cs && Adds(op, cs'[|cs|]))
  {
    if Quiet(op) {
      QuietStep(env, s, op);
    }
  }

  lemma OpenStays(env: Outside, s: State, op: Op, later: Op)
    requires Step(s, op, env).Some? && Open(s, later) && !Clash(op, later)
    ensures Open(Step(s, op, env).value, later)
  {
    match later
    case Store(_, r, _) => NotAdded(env, s, op, Credential(r));
    case Create(t) => NotAdded(env, s, op, DeleteWorker(t));
    case _ =>
  }

  lemma NotAdded(env: Outside, s: State, op: Op, c: Compensation)
    requires Step(s, op, env).Some? && c !in s.compensations && !Adds(op, c)
    ensures c !in Step(s, op, env).value.compensations
  {
    PendingGrows(env, s, op);
    var cs, cs' := s.compensations, Step(s, op, env).value.compensations;
    assert cs' == cs || cs' == cs + [cs'[|cs|]];
  }

  lemma OrderlyStep(start: World, env: Outside, s: State, ops: seq<Op>)
    requires |ops| > 0 && Orderly(start, s, ops) && Step(s, ops[0], env).Some?
    ensures Orderly(start, Step(s, ops[0], env).value, ops[1..])
  {
    var s', rest := Step(s, ops[0], env).value, ops[1..];
    forall i | 0 <= i < |rest| ensures Allowed(start, rest[i]) && Open(s', rest[i]) {
      assert rest[i] == ops[i + 1];
      OpenStays(env, s, ops[0], rest[i]);
    }
    forall i, j | 0 <= i < j < |rest| ensures !Clash(rest[i], rest[j]) {
      assert rest[i] == ops[i + 1] && rest[j] == ops[j + 1];
    }
    StableKeys(env, s, ops[0]);
  }

  /** The rotation has nothing behind it. */
  lemma RotationIsLast(ops: seq<Op>)
    requires |ops| > 0 && ops[0].Rotate? && NoClash(ops)
    ensures ops[1..] == []
  {
    assert |ops| > 1 ==> Clash(ops[0], ops[1]);
  }

  lemma StoppedSound(start: World, devReads: Target -> bool, s: State, op: Op)
    requires Sound(start, devReads, s)
    ensures Sound(start, devReads, Stopped(s, op, devReads))
  {
    QuietKeeps(start, devReads, s, Stopped(s, op, devReads));
  }

  lemma OrderlyDue(start: World, s: State, ops: seq<Op>)
    requires |ops| > 0 && Orderly(start, s, ops) && !ops[0].Rotate?
    ensures Due(start, s, ops[0])
  {
  }

  /** Wherever an orderly program fails, undoing what is pending leads to the rolled-back
      world. */
  lemma {:induction false} RunKeeps(start: World, env: Outside, s: State, ops: seq<Op>)
    requires Sound(start, env.devReads, s) && Orderly(start, s, ops)
    ensures
      var o := Run(s, ops, env);
      !o.ok ==> Sound(start, env.devReads, o.state)
    decreases |ops|
  {
    if |ops| > 0 {
      var next := Step(s, ops[0], env);
      if next.None? {
        StoppedSound(start, env.devReads, s, ops[0]);
      } else if ops[0].Rotate? {
        RotationIsLast(ops);
      } else {
        OrderlyDue(start, s, ops);
        StepKeeps(start, env, s, ops[0]);
        OrderlyStep(start, env, s, ops);
        RunKeeps(start, env, next.value, ops[1..]);
      }
    }
  }

  // ---------------------------------------------------------------- plans are such programs

  function RefsOf(id: string): set<Ref> {
    {WorkerSecret(id), NodeSecret(id), TokenSecret(id)}
  }

  function RelayRefs(spec: RelaySpec): set<Ref> {
    if spec.origin.NewRelay? then RefsOf(spec.origin.id) else {}
  }

  function SubStores(spec: SubSpec): set<Ref> {
    if spec.origin.NewSub? then RefsOf(spec.origin.id) else {}
  }

  function SubRefs(spec: SubSpec): set<Ref> {
    RefsOf(spec.origin.id) + {TopologyRef(spec.origin)}
  }

  /** The Worker a spec creates. */
  function RelayCreates(spec: RelaySpec): set<Target> {
    if spec.origin.NewRelay? then {spec.target} else {}
  }

  function SubCreates(spec: SubSpec): set<Target> {
    if spec.origin.NewSub? then {spec.target} else {}
  }

  /** No two specs create the same Worker. */
  ghost predicate CreatesApart(plan: Plan) {
    && (forall i, j :: 0 <= i < j < |plan.relays| ==> RelayCreates(plan.relays[i]) !! RelayCreates(plan.relays[j]))
    && (forall i :: 0 <= i < |plan.relays| ==> RelayCreates(plan.relays[i]) !! SubCreates(plan.sub))
  }

  predicate Apart(a: RelaySpec, b: RelaySpec) {
    a.target != b.target && RelayRefs(a) !! RelayRefs(b)
  }

  predicate ApartFromSub(a: RelaySpec, b: SubSpec) {
    a.target != b.target && RelayRefs(a) !! SubRefs(b)
  }

  ghost predicate RelaysApart(relays: seq<RelaySpec>) {
    forall i, j :: 0 <= i < j < |relays| ==> Apart(relays[i], relays[j])
  }

  /** Distinct targets and fresh identifiers. */
  ghost predicate AllApart(plan: Plan) {
    && RelaysApart(plan.relays)
    && (forall i :: 0 <= i < |plan.relays| ==> ApartFromSub(plan.relays[i], plan.sub))
  }

  /** A new Worker does not exist, and its identifier names nothing yet. */
  predicate Fresh(w: World, t: Target, refs: set<Ref>) {
    t !in w.workers && forall r :: r in refs ==> r !in w.creds
  }

  /** What is new does not exist yet, and every identifier is used once. */
  ghost predicate PlanReady(w: World, plan: Plan) {
    && (forall i, j :: 0 <= i < j < |plan.relays| ==> RelayRefs(plan.relays[i]) !! RelayRefs(plan.relays[j]))
    && (forall i :: 0 <= i < |plan.relays| ==> RelayRefs(plan.relays[i]) !! SubStores(plan.sub))
    && (forall i :: 0 <= i < |plan.relays| && plan.relays[i].origin.NewRelay? ==>
          Fresh(w, plan.relays[i].target, RelayRefs(plan.relays[i])))
    && (plan.sub.origin.NewSub? ==> Fresh(w, plan.sub.target, RefsOf(plan.sub.origin.id)))
  }

  /** The call creates nothing but these Workers and these references. */
  predicate About(op: Op, creates: set<Target>, refs: set<Ref>) {
    match op
    case Store(_, r, _) => r in refs
    case Create(t) => t in creates
    case Rotate(_, _) => false
    case _ => true
  }

  ghost predicate AllAbout(ops: seq<Op>, creates: set<Target>, refs: set<Ref>) {
    forall i :: 0 <= i < |ops| ==> About(ops[i], creates, refs)
  }

  lemma AboutAppend(a: seq<Op>, b: seq<Op>, creates: set<Target>, refs: set<Ref>)
    requires AllAbout(a, creates, refs) && AllAbout(b, creates, refs)
    ensures AllAbout(a + b, creates, refs)
  {
  }

  /** Calls that clash with none. */
  predicate Inert(op: Op) {
    !op.Create? && !op.Promote? && !op.ReadStable? && !op.Store? && !op.Rotate?
  }

  ghost predicate AllInert(ops: seq<Op>) {
    forall i :: 0 <= i < |ops| ==> Inert(ops[i])
  }

  /** One part of a plan: orderly in itself, creating no more than it should, allowed at the start. */
  ghost predicate Tidy(start: World, ops: seq<Op>, creates: set<Target>, refs: set<Ref>) {
    && NoClash(ops) && Prepared({}, ops) && AllAbout(ops, creates, refs)
    && forall i :: 0 <= i < |ops| ==> Allowed(start, ops[i])
  }

  lemma TidyAppend(start: World, a: seq<Op>, b: seq<Op>, creates: set<Target>, refs: set<Ref>)
    requires Tidy(start, a, creates, refs) && Tidy(start, b, creates, refs) && Cross(a, b)
    ensures Tidy(start, a + b, creates, refs)
  {
    NoClashAppend(a, b);
    PreparedAppend({}, a, b);
    AboutAppend(a, b, creates, refs);
  }

  lemma {:induction false} InertTidy(start: World, ops: seq<Op>, creates: set<Target>, refs: set<Ref>)
    requires AllInert(ops)
    ensures Tidy(start, ops, creates, refs)
    decreases |ops|
  {
    if |ops| > 0 {
      InertTidy(start, ops[1..], creates, refs);
    }
  }

  lemma TidyInert(start: World, a: seq<Op>, b: seq<Op>, creates: set<Target>, refs: set<Ref>)
    requires Tidy(start, a, creates, refs) && AllInert(b)
    ensures Tidy(start, a + b, creates, refs)
  {
    InertTidy(start, b, creates, refs);
    TidyAppend(start, a, b, creates, refs);
  }

  lemma UploadTidy(start: World, t: Target, isUpdate: bool)
    requires t in start.workers ==> isUpdate
    ensures Tidy(start, UploadOps(t, isUpdate) + [Promote(t, isUpdate)], if isUpdate then {} else {t}, {})
  {
    var ops := UploadOps(t, isUpdate) + [Promote(t, isUpdate)];
    if isUpdate {
      assert ops == [ReadStable(t), Upload(t), Promote(t, true)];
      assert ops[1..][1..][1..] == [];
      assert Prepared({t}, [Promote(t, true)]);
      assert ops[1..] == [Upload(t), Promote(t, true)] && ops[1..][1..] == [Promote(t, true)];
      assert Prepared({t}, ops[1..]) && ReadAfter({}, ReadStable(t)) == {t};
    } else {
      assert ops == [Create(t), Promote(t, false)];
      assert ops[1..][1..] == [];
    }
  }

  /** What comes behind a promotion: schedules, and the endpoint. */
  function ExposeOps(t: Target, spec: EndpointSpec): seq<Op> {
    SubdomainOps(spec) + DomainOps(t, spec) + [Check] + [Check]
  }

  lemma ReleaseParts(t: Target, spec: EndpointSpec, isUpdate: bool, cron: bool)
    ensures ReleaseOps(t, spec, isUpdate, cron)
         == UploadOps(t, isUpdate) + [Promote(t, isUpdate)] + CronOps(t, cron) + [Switch(t, spec.workersDev)] + ExposeOps(t, spec)
  {
    var head := UploadOps(t, isUpdate) + [Promote(t, isUpdate)] + CronOps(t, cron);
    var sw, rest := [Switch(t, spec.workersDev)], SubdomainOps(spec) + DomainOps(t, spec) + [Check];
    Assoc(sw, SubdomainOps(spec), DomainOps(t, spec));
    Assoc(sw, SubdomainOps(spec) + DomainOps(t, spec), [Check]);
    assert EndpointOps(t, spec) == sw + rest;
    Assoc(head, sw, rest);
    Assoc(head + sw, rest, [Check]);
  }

  lemma ReleaseTidy(start: World, t: Target, spec: EndpointSpec, isUpdate: bool, cron: bool)
    requires t in start.workers ==> isUpdate
    ensures Tidy(start, ReleaseOps(t, spec, isUpdate, cron), if isUpdate then {} else {t}, {})
  {
    var creates: set<Target> := if isUpdate then {} else {t};
    var up, sw := UploadOps(t, isUpdate) + [Promote(t, isUpdate)], [Switch(t, spec.workersDev)];
    UploadTidy(start, t, isUpdate);
    TidyInert(start, up, CronOps(t, cron), creates, {});
    TidyInert(start, up + CronOps(t, cron), sw, creates, {});
    TidyInert(start, up + CronOps(t, cron) + sw, ExposeOps(t, spec), creates, {});
    ReleaseParts(t, spec, isUpdate, cron);
  }

  lemma TidyMore(start: World, ops: seq<Op>, creates: set<Target>, refs: set<Ref>, more: set<Target>, others: set<Ref>)
    requires Tidy(start, ops, creates, refs) && creates <= more && refs <= others
    ensures Tidy(start, ops, more, others)
  {
  }

  /** Storing two secrets of a fresh identifier, and what follows. */
  lemma StoresTidy(start: World, a: Op, b: Op, creates: set<Target>, refs: set<Ref>)
    requires a.Store? && b.Store? && a.r != b.r && a.r in refs && b.r in refs
    requires a.r !in start.creds && b.r !in start.creds
    ensures Tidy(start, [a, b], creates, refs)
  {
    assert [a, b][1..][1..] == [];
  }

  /** The secrets of a Worker, and its release. */
  lemma SecretsTidy(start: World, secrets: seq<Op>, release: seq<Op>, creates: set<Target>, refs: set<Ref>)
    requires Tidy(start, secrets, {}, refs) && Tidy(start, release, creates, {})
    ensures Tidy(start, secrets + release, creates, refs)
  {
    AboutCross(secrets, release, {}, creates, refs, {});
    TidyMore(start, secrets, {}, refs, creates, refs);
    TidyMore(start, release, creates, {}, creates, refs);
    TidyAppend(start, secrets, release, creates, refs);
  }

  lemma RelayTidy(start: World, spec: RelaySpec)
    requires spec.origin.NewRelay? ==> Fresh(start, spec.target, RelayRefs(spec))
    ensures Tidy(start, RelayOps(spec), RelayCreates(spec), RelayRefs(spec))
  {
    var refs, secrets := RelayRefs(spec), RelaySecretOps(spec.origin);
    ReleaseTidy(start, spec.target, spec.endpoint, spec.origin.LinkedRelay?, false);
    if spec.origin.NewRelay? {
      StoresTidy(start, secrets[0], secrets[1], {}, refs);
    } else {
      InertTidy(start, secrets, {}, refs);
    }
    TidyInert(start, secrets, [RelayStage(spec.origin)], {}, refs);
    SecretsTidy(start, secrets + [RelayStage(spec.origin)],
                ReleaseOps(spec.target, spec.endpoint, spec.origin.LinkedRelay?, false), RelayCreates(spec), refs);
  }

  /** The part of the subscription Worker before the rotation. */
  function SubHead(spec: SubSpec, nodes: string): seq<Op> {
    SubPreparation(spec, nodes) + ReleaseOps(spec.target, spec.endpoint, spec.origin.LinkedSub?, true)
  }

  lemma SubTidy(start: World, spec: SubSpec, nodes: string)
    requires spec.origin.NewSub? ==> Fresh(start, spec.target, RefsOf(spec.origin.id))
    ensures Tidy(start, SubHead(spec, nodes), SubCreates(spec), SubStores(spec))
  {
    var refs, kv, secrets := SubStores(spec), KvOps(spec), SubSecretOps(spec.origin, nodes);
    ReleaseTidy(start, spec.target, spec.endpoint, spec.origin.LinkedSub?, true);
    InertTidy(start, kv, {}, refs);
    if spec.origin.NewSub? {
      StoresTidy(start, secrets[0], secrets[1], {}, refs);
    } else {
      InertTidy(start, secrets, {}, refs);
    }
    TidyAppend(start, kv, secrets, {}, refs);
    TidyInert(start, kv + secrets, [SubStage(spec.origin, nodes)], {}, refs);
    SecretsTidy(start, SubPreparation(spec, nodes), ReleaseOps(spec.target, spec.endpoint, spec.origin.LinkedSub?, true),
                SubCreates(spec), refs);
  }

  lemma AboutCross(a: seq<Op>, b: seq<Op>, creates: set<Target>, more: set<Target>, refs: set<Ref>, others: set<Ref>)
    requires AllAbout(a, creates, refs) && AllAbout(b, more, others) && creates !! more && refs !! others
    ensures Cross(a, b)
  {
  }

  lemma CrossAppend(a: seq<Op>, b: seq<Op>, c: seq<Op>)
    requires Cross(a, c) && Cross(b, c)
    ensures Cross(a + b, c)
  {
  }

  /** An orderly part, allowed at the start. */
  ghost predicate Neat(start: World, ops: seq<Op>) {
    NoClash(ops) && Prepared({}, ops) && forall i :: 0 <= i < |ops| ==> Allowed(start, ops[i])
  }

  ghost predicate NoRotation(ops: seq<Op>) {
    forall i :: 0 <= i < |ops| ==> !ops[i].Rotate?
  }

  lemma TidyNeat(start: World, ops: seq<Op>, creates: set<Target>, refs: set<Ref>)
    requires Tidy(start, ops, creates, refs)
    ensures Neat(start, ops) && NoRotation(ops)
  {
  }

  lemma NoRotationAppend(a: seq<Op>, b: seq<Op>)
    requires NoRotation(a) && NoRotation(b)
    ensures NoRotation(a + b)
  {
  }

  lemma NeatAppend(start: World, a: seq<Op>, b: seq<Op>)
    requires Neat(start, a) && Neat(start, b) && Cross(a, b)
    ensures Neat(start, a + b)
  {
    NoClashAppend(a, b);
    PreparedAppend({}, a, b);
  }

  /** What this spec creates, another does not. */
  predicate MakesOther(a: RelaySpec, creates: set<Target>, refs: set<Ref>) {
    RelayCreates(a) !! creates && RelayRefs(a) !! refs
  }

  /** The relays so far clash neither with each other nor with what creates something else. */
  lemma {:induction false} RelaysNeat(start: World, relays: seq<RelaySpec>)
    requires forall i, j :: 0 <= i < j < |relays| ==> MakesOther(relays[i], RelayCreates(relays[j]), RelayRefs(relays[j]))
    requires forall i :: 0 <= i < |relays| && relays[i].origin.NewRelay? ==> Fresh(start, relays[i].target, RelayRefs(relays[i]))
    ensures Neat(start, RelaysOps(relays)) && NoRotation(RelaysOps(relays))
  {
    if |relays| > 0 {
      var init, last := relays[..|relays| - 1], relays[|relays| - 1];
      RelaysNeat(start, init);
      RelayTidy(start, last);
      TidyNeat(start, RelayOps(last), RelayCreates(last), RelayRefs(last));
      RelaysCross(start, init, RelayOps(last), RelayCreates(last), RelayRefs(last));
      NeatAppend(start, RelaysOps(init), RelayOps(last));
      NoRotationAppend(RelaysOps(init), RelayOps(last));
    }
  }

  lemma {:induction false} RelaysCross(start: World, relays: seq<RelaySpec>, ops: seq<Op>, creates: set<Target>,
                                       refs: set<Ref>)
    requires forall i :: 0 <= i < |relays| ==> MakesOther(relays[i], creates, refs)
    requires forall i :: 0 <= i < |relays| && relays[i].origin.NewRelay? ==> Fresh(start, relays[i].target, RelayRefs(relays[i]))
    requires AllAbout(ops, creates, refs)
    ensures Cross(RelaysOps(relays), ops)
  {
    if |relays| > 0 {
      var init, last := relays[..|relays| - 1], relays[|relays| - 1];
      RelaysCross(start, init, ops, creates, refs);
      RelayTidy(start, last);
      AboutCross(RelayOps(last), ops, RelayCreates(last), creates, RelayRefs(last), refs);
      CrossAppend(RelaysOps(init), RelayOps(last), ops);
    }
  }

  /** The rotation comes last. */
  lemma RotationNeat(start: World, ops: seq<Op>, origin: SubOrigin, nodes: string)
    requires Neat(start, ops) && NoRotation(ops)
    ensures Neat(start, ops + RotateOps(origin, nodes))
  {
    var last := RotateOps(origin, nodes);
    assert |last| == 1 ==> last[1..] == [];
    NeatAppend(start, ops, last);
  }

  lemma PlanParts(plan: Plan, nodes: string)
    ensures PlanOps(plan, nodes) == (RelaysOps(plan.relays) + SubHead(plan.sub, nodes)) + RotateOps(plan.sub.origin, nodes)
  {
    Assoc(RelaysOps(plan.relays), SubHead(plan.sub, nodes), RotateOps(plan.sub.origin, nodes));
  }

  lemma PartsNeat(start: World, relays: seq<Op>, head: seq<Op>, creates: set<Target>, refs: set<Ref>, origin: SubOrigin,
                  nodes: string)
    requires Neat(start, relays) && NoRotation(relays) && Tidy(start, head, creates, refs) && Cross(relays, head)
    ensures Neat(start, (relays + head) + RotateOps(origin, nodes))
  {
    TidyNeat(start, head, creates, refs);
    NeatAppend(start, relays, head);
    NoRotationAppend(relays, head);
    RotationNeat(start, relays + head, origin, nodes);
  }

  lemma PlanNeat(start: World, plan: Plan, nodes: string)
    requires PlanReady(start, plan) && CreatesApart(plan)
    ensures Neat(start, PlanOps(plan, nodes))
  {
    var relays, head := RelaysOps(plan.relays), SubHead(plan.sub, nodes);
    RelaysNeat(start, plan.relays);
    SubTidy(start, plan.sub, nodes);
    RelaysCross(start, plan.relays, head, SubCreates(plan.sub), SubStores(plan.sub));
    PartsNeat(start, relays, head, SubCreates(plan.sub), SubStores(plan.sub), plan.sub.origin, nodes);
    PlanParts(plan, nodes);
  }
}
