/** Which deployments of `core/src/deploy.rs` work out: exactly those whose plan fits the world,
    provided every call is answered as asked. */
module Feasible {
  import opened Bytes
  import opened Saga
  import opened Steps

  // ---------------------------------------------------------------- what a plan must find

  /** What calls can rely on: the Workers and the credentials there are, and which Worker each
      hostname is bound to. */
  datatype Facts = Facts(workers: set<Target>, creds: set<Ref>, bound: set<(string, Target)>)

  function FactsOf(w: World): Facts {
    Facts(w.workers.Keys, w.creds.Keys, set id | id in w.domains :: (w.domains[id].hostname, w.domains[id].service))
  }

  /** A reference that can be read; what an environment variable holds is up to the outside. */
  predicate Readable(f: Facts, r: Ref) {
    r.Keyring? ==> r in f.creds
  }

  /** The hostname is bound to this Worker, or to nothing in its account. */
  predicate Bindable(f: Facts, t: Target, hostname: string) {
    (hostname, t) in f.bound || forall b :: b in f.bound && b.0 == hostname ==> b.1.0 != t.0
  }

  predicate EndpointPossible(f: Facts, t: Target, spec: EndpointSpec) {
    spec.customDomain.Some? ==> Bindable(f, t, spec.customDomain.value)
  }

  /** The secret of a linked relay must be readable; a new one needs its two values. */
  predicate SecretsPossible(f: Facts, origin: RelayOrigin) {
    match origin
    case LinkedRelay(secret) => secret.Some? && Readable(f, secret.value)
    case NewRelay(_, worker, node) => worker != "" && node != ""
  }

  predicate RelayPossible(f: Facts, spec: RelaySpec) {
    && EndpointPossible(f, spec.target, spec.endpoint) && SecretsPossible(f, spec.origin)
    && (spec.origin.LinkedRelay? ==> spec.target in f.workers)
  }

  function Binds(t: Target, spec: EndpointSpec): set<(string, Target)> {
    if spec.customDomain.Some? then {(spec.customDomain.value, t)} else {}
  }

  /** The credentials of a new relay. */
  function Secrets(origin: RelayOrigin): set<Ref> {
    if origin.NewRelay? then {WorkerSecret(origin.id), NodeSecret(origin.id)} else {}
  }

  /** What is there behind a relay. */
  function BehindRelay(f: Facts, spec: RelaySpec): Facts {
    Facts(f.workers + if spec.origin.NewRelay? then {spec.target} else {},
          f.creds + Secrets(spec.origin),
          f.bound + Binds(spec.target, spec.endpoint))
  }

  /** A linked subscription Worker must have its namespace known and both its secrets readable;
      a new one needs its token; both need the node topology. */
  predicate SubSecretsPossible(f: Facts, origin: SubOrigin, nodes: string) {
    && nodes != ""
    && match origin
       case NewSub(_, token) => token != ""
       case LinkedSub(_, secret, details) => details.Some? && Readable(f, secret) && Readable(f, details.value.1)
  }

  predicate SubPossible(f: Facts, spec: SubSpec, nodes: string) {
    && EndpointPossible(f, spec.target, spec.endpoint) && SubSecretsPossible(f, spec.origin, nodes)
    && (spec.origin.LinkedSub? ==> spec.target in f.workers)
  }

  function BehindRelays(f: Facts, relays: seq<RelaySpec>): Facts {
    if |relays| == 0 then f else BehindRelay(BehindRelays(f, relays[..|relays| - 1]), relays[|relays| - 1])
  }

  predicate RelaysPossible(f: Facts, relays: seq<RelaySpec>) {
    |relays| > 0 ==>
      var init := relays[..|relays| - 1];
      RelaysPossible(f, init) && RelayPossible(BehindRelays(f, init), relays[|relays| - 1])
  }

  /** Every target finds what it needs, in the world or behind the targets before it. */
  predicate PlanPossible(w: World, plan: Plan, nodes: string) {
    RelaysPossible(FactsOf(w), plan.relays) && SubPossible(BehindRelays(FactsOf(w), plan.relays), plan.sub, nodes)
  }

  // ---------------------------------------------------------------- what the outside must answer

  predicate Bound(w: World, t: Target, hostname: string) {
    (hostname, t) in FactsOf(w).bound
  }

  /** The call is not refused; a listing names what is there, the Worker's own binding first,
      and a new identifier names nothing yet. */
  predicate Truthful(w: World, op: Op, a: Answer) {
    && a.ok
    && match op
       case FindKv(title) => KvNamed(w, title, a) || KvFree(w, title)
       case CreateKv(_) => a.text !in w.kv
       case FindDomain(t, hostname) =>
         if Bound(w, t, hostname) then DomainNamed(w, t.0, hostname, a) && w.domains[a.text].service == t
         else DomainNamed(w, t.0, hostname, a) || DomainFree(w, t.0, hostname)
       case Attach(_, _) => a.text !in w.domains
       case _ => true
  }

  /** Every call that is made is answered so. */
  ghost predicate Answered(s: State, ops: seq<Op>, env: Outside)
    decreases |ops|
  {
    |ops| > 0 ==>
      && (Asks(s, ops[0], env.devReads) ==> Truthful(s.world, ops[0], env.answers(s.clock)))
      && var next := Step(s, ops[0], env); next.Some? ==> Answered(next.value, ops[1..], env)
  }

  // ---------------------------------------------------------------- single calls

  predicate Permits(f: Facts, op: Op) {
    match op
    case Refuse => false
    case Resolve(r) => Readable(f, r)
    case KeepTopology(r) => Readable(f, r)
    case Store(_, r, v) => v != "" && r.Keyring?
    case Rotate(r, v) => v != "" && r.Keyring?
    case ReadStable(t) => t in f.workers
    case Upload(t) => t in f.workers
    case Promote(t, _) => t in f.workers
    case ReadCron(t) => t in f.workers
    case FindDomain(t, hostname) => Bindable(f, t, hostname)
    case _ => true
  }

  function After(f: Facts, op: Op): Facts {
    match op
    case Store(_, r, _) => f.(creds := f.creds + {r})
    case Rotate(r, _) => f.(creds := f.creds + {r})
    case Create(t) => f.(workers := f.workers + {t})
    case Attach(t, hostname) => f.(bound := f.bound + {(hostname, t)})
    case _ => f
  }

  /** What calls rely on that others made before them. */
  predicate Primed(s: State, op: Op) {
    match op
    case SetCron(t) => t in s.crons && t in s.world.workers
    case Switch(t, _) => t in s.world.workers
    case Attach(t, hostname) => s.found ==> Bound(s.world, t, hostname)
    case _ => true
  }

  lemma BindableMeaning(w: World, t: Target, hostname: string)
    ensures Bindable(FactsOf(w), t, hostname) <==> Bound(w, t, hostname) || DomainFree(w, t.0, hostname)
    ensures forall id :: id in w.domains && w.domains[id] == Domain(hostname, t) ==> Bound(w, t, hostname)
  {
    var f := FactsOf(w);
    forall id | id in w.domains ensures (w.domains[id].hostname, w.domains[id].service) in f.bound {
    }
    if Bindable(f, t, hostname) && !Bound(w, t, hostname) {
      forall id | id in w.domains ensures !DomainMatches(w.domains[id], t.0, hostname) {
        assert (w.domains[id].hostname, w.domains[id].service) in f.bound;
      }
    }
  }

  lemma FindsExactly(s: State, t: Target, hostname: string, env: Outside)
    ensures Step(s, FindDomain(t, hostname), env).Some?
       <==> Bindable(FactsOf(s.world), t, hostname) && Truthful(s.world, FindDomain(t, hostname), env.answers(s.clock))
  {
    BindableMeaning(s.world, t, hostname);
  }

  lemma StepExactly(s: State, op: Op, env: Outside)
    requires Primed(s, op)
    ensures Step(s, op, env).Some?
       <==> Permits(FactsOf(s.world), op) && (Asks(s, op, env.devReads) ==> Truthful(s.world, op, env.answers(s.clock)))
  {
    if op.FindDomain? {
      FindsExactly(s, op.t, op.hostname, env);
    }
  }

  lemma StepFacts(s: State, op: Op, env: Outside)
    requires Primed(s, op) && Step(s, op, env).Some?
    ensures FactsOf(Step(s, op, env).value.world) == After(FactsOf(s.world), op)
  {
    var s' := Step(s, op, env).value;
    if Quiet(op) {
      QuietStep(env, s, op);
    } else if op.Attach? && !s.found {
      AttachFacts(s.world, env.answers(s.clock).text, op.t, op.hostname);
    }
  }

  lemma AttachFacts(w: World, id: string, t: Target, hostname: string)
    requires id !in w.domains
    ensures FactsOf(w.(domains := w.domains[id := Domain(hostname, t)])).bound == FactsOf(w).bound + {(hostname, t)}
  {
    var w' := w.(domains := w.domains[id := Domain(hostname, t)]);
    assert (hostname, t) in FactsOf(w').bound by { assert id in w'.domains; }
    forall b | b in FactsOf(w).bound ensures b in FactsOf(w').bound {
      var k :| k in w.domains && b == (w.domains[k].hostname, w.domains[k].service);
      assert k in w'.domains;
    }
  }

  // ---------------------------------------------------------------- lists of calls

  function AfterAll(f: Facts, ops: seq<Op>): Facts
    decreases |ops|
  {
    if |ops| == 0 then f else AfterAll(After(f, ops[0]), ops[1..])
  }

  predicate PermitsAll(f: Facts, ops: seq<Op>)
    decreases |ops|
  {
    |ops| > 0 ==> Permits(f, ops[0]) && PermitsAll(After(f, ops[0]), ops[1..])
  }

  lemma {:induction false} PermitsAppend(f: Facts, a: seq<Op>, b: seq<Op>)
    ensures PermitsAll(f, a + b) <==> PermitsAll(f, a) && PermitsAll(AfterAll(f, a), b)
    ensures AfterAll(f, a + b) == AfterAll(AfterAll(f, a), b)
    decreases |a|
  {
    if |a| == 0 {
      NilLeft(b);
    } else {
      assert (a + b)[0] == a[0] && (a + b)[1..] == a[1..] + b;
      PermitsAppend(After(f, a[0]), a[1..], b);
    }
  }

  /** Schedules are set right behind reading them, workers.dev behind a promotion or a schedule,
      and a domain is attached behind looking it up. */
  predicate TidyAt(ops: seq<Op>, i: nat)
    requires i < |ops|
  {
    match ops[i]
    case SetCron(t) => i > 0 && ops[i - 1] == ReadCron(t)
    case Switch(t, _) => i > 0 && (ops[i - 1] == SetCron(t) || (ops[i - 1].Promote? && ops[i - 1].t == t))
    case Attach(t, hostname) => i > 1 && ops[i - 1] == CheckFree && ops[i - 2] == FindDomain(t, hostname)
    case _ => true
  }

  ghost predicate Tidy(ops: seq<Op>) {
    forall i :: 0 <= i < |ops| ==> TidyAt(ops, i)
  }

  lemma TidyAppend(a: seq<Op>, b: seq<Op>)
    requires Tidy(a) && Tidy(b)
    ensures Tidy(a + b)
  {
    forall i | 0 <= i < |a + b| ensures TidyAt(a + b, i) {
      if i < |a| { assert TidyAt(a, i); } else { assert TidyAt(b, i - |a|); }
    }
  }

  /** The next call is primed, and so is an attachment behind it. */
  predicate PrimedAt(s: State, ops: seq<Op>, k: nat) {
    && (k < |ops| ==> Primed(s, ops[k]))
    && (k + 1 < |ops| && ops[k].CheckFree? && ops[k + 1].Attach? ==> Primed(s, ops[k + 1]))
  }

  lemma PrimedNext(s: State, ops: seq<Op>, k: nat, env: Outside)
    requires Tidy(ops) && k < |ops| && PrimedAt(s, ops, k) && Step(s, ops[k], env).Some?
    ensures PrimedAt(Step(s, ops[k], env).value, ops, k + 1)
  {
    if k + 1 < |ops| {
      assert TidyAt(ops, k + 1);
    }
    if k + 2 < |ops| && ops[k + 1].CheckFree? && ops[k + 2].Attach? {
      assert TidyAt(ops, k + 2);
      FoundIsBound(s, ops[k + 2].t, ops[k + 2].hostname, env);
    }
  }

  lemma FoundIsBound(s: State, t: Target, hostname: string, env: Outside)
    requires Step(s, FindDomain(t, hostname), env).Some?
    ensures
      var s' := Step(s, FindDomain(t, hostname), env).value;
      s'.found ==> Bound(s'.world, t, hostname)
  {
    BindableMeaning(s.world, t, hostname);
    if Step(s, FindDomain(t, hostname), env).value.found {
      assert s.world.domains[env.answers(s.clock).text] == Domain(hostname, t);
    }
  }

  /** A list of calls works out exactly if the facts permit it and every call made is answered
      truthfully. */
  lemma {:induction false} RunExactly(s: State, ops: seq<Op>, k: nat, env: Outside)
    requires Tidy(ops) && k <= |ops| && PrimedAt(s, ops, k)
    ensures Run(s, ops[k..], env).ok <==> PermitsAll(FactsOf(s.world), ops[k..]) && Answered(s, ops[k..], env)
    decreases |ops| - k
  {
    if k < |ops| {
      assert ops[k..][0] == ops[k] && ops[k..][1..] == ops[k + 1..];
      StepExactly(s, ops[k], env);
      var next := Step(s, ops[k], env);
      if next.Some? {
        StepFacts(s, ops[k], env);
        PrimedNext(s, ops, k, env);
        RunExactly(next.value, ops, k + 1, env);
      }
    }
  }

  // ---------------------------------------------------------------- the calls of a plan

  lemma OnePermitted(f: Facts, op: Op)
    ensures PermitsAll(f, [op]) <==> Permits(f, op)
    ensures AfterAll(f, [op]) == After(f, op)
  {
    assert [op][1..] == [];
  }

  lemma TwoPermitted(f: Facts, a: Op, b: Op)
    ensures PermitsAll(f, [a, b]) <==> Permits(f, a) && Permits(After(f, a), b)
    ensures AfterAll(f, [a, b]) == After(After(f, a), b)
  {
    assert [a, b][1..] == [b];
    OnePermitted(After(f, a), b);
  }

  lemma BindPermitted(f: Facts, t: Target, hostname: string)
    ensures PermitsAll(f, BindOps(t, hostname)) <==> Bindable(f, t, hostname)
    ensures AfterAll(f, BindOps(t, hostname)) == f.(bound := f.bound + {(hostname, t)})
    ensures Tidy(BindOps(t, hostname))
  {
    var a, b := [Check, FindDomain(t, hostname)], [CheckFree, Attach(t, hostname)];
    assert BindOps(t, hostname) == a + b;
    PermitsAppend(f, a, b);
    TwoPermitted(f, Check, FindDomain(t, hostname));
    TwoPermitted(f, CheckFree, Attach(t, hostname));
  }

  lemma DomainPermitted(f: Facts, t: Target, spec: EndpointSpec)
    ensures PermitsAll(f, DomainOps(t, spec)) <==> EndpointPossible(f, t, spec)
    ensures AfterAll(f, DomainOps(t, spec)) == f.(bound := f.bound + Binds(t, spec))
    ensures Tidy(DomainOps(t, spec))
  {
    if spec.customDomain.Some? {
      BindPermitted(f, t, spec.customDomain.value);
    } else {
      assert f.bound + {} == f.bound;
    }
  }

  /** Promotion, schedule and workers.dev. */
  function ServeOps(t: Target, wanted: bool, isUpdate: bool, cron: bool): seq<Op> {
    [Promote(t, isUpdate)] + CronOps(t, cron) + [Switch(t, wanted)]
  }

  lemma ServePermitted(f: Facts, t: Target, wanted: bool, isUpdate: bool, cron: bool)
    ensures PermitsAll(f, ServeOps(t, wanted, isUpdate, cron)) <==> t in f.workers
    ensures AfterAll(f, ServeOps(t, wanted, isUpdate, cron)) == f
    ensures Tidy(ServeOps(t, wanted, isUpdate, cron))
  {
    var pr, cr, sw := [Promote(t, isUpdate)], CronOps(t, cron), [Switch(t, wanted)];
    PermitsAppend(f, pr + cr, sw);
    PermitsAppend(f, pr, cr);
    OnePermitted(f, pr[0]);
    OnePermitted(f, sw[0]);
    TwoPermitted(f, ReadCron(t), SetCron(t));
  }

  /** What is there behind a release. */
  function BehindRelease(f: Facts, t: Target, spec: EndpointSpec, isUpdate: bool): Facts {
    f.(workers := f.workers + if isUpdate then {} else {t}, bound := f.bound + Binds(t, spec))
  }

  lemma ReleaseInPieces(t: Target, spec: EndpointSpec, isUpdate: bool, cron: bool)
    ensures ReleaseOps(t, spec, isUpdate, cron)
         == UploadOps(t, isUpdate) + (ServeOps(t, spec.workersDev, isUpdate, cron)
            + (SubdomainOps(spec) + (DomainOps(t, spec) + [Check, Check])))
  {
  }

  lemma UploadPermitted(f: Facts, t: Target, isUpdate: bool)
    ensures PermitsAll(f, UploadOps(t, isUpdate)) <==> (isUpdate ==> t in f.workers)
    ensures AfterAll(f, UploadOps(t, isUpdate)) == f.(workers := f.workers + if isUpdate then {} else {t})
    ensures Tidy(UploadOps(t, isUpdate))
  {
    TwoPermitted(f, ReadStable(t), Upload(t));
    OnePermitted(f, Create(t));
  }

  lemma ExposurePermitted(f: Facts, t: Target, spec: EndpointSpec)
    ensures
      var ops := SubdomainOps(spec) + (DomainOps(t, spec) + [Check, Check]);
      && (PermitsAll(f, ops) <==> EndpointPossible(f, t, spec))
      && AfterAll(f, ops) == f.(bound := f.bound + Binds(t, spec)) && Tidy(ops)
  {
    var sub, dom, end := SubdomainOps(spec), DomainOps(t, spec), [Check, Check];
    PermitsAppend(f, sub, dom + end);
    PermitsAppend(f, dom, end);
    OnePermitted(f, Check);
    DomainPermitted(f, t, spec);
    TwoPermitted(AfterAll(f, dom), Check, Check);
    TidyAppend(dom, end);
    TidyAppend(sub, dom + end);
  }

  lemma ReleasePermitted(f: Facts, t: Target, spec: EndpointSpec, isUpdate: bool, cron: bool)
    ensures PermitsAll(f, ReleaseOps(t, spec, isUpdate, cron))
       <==> (isUpdate ==> t in f.workers) && EndpointPossible(f, t, spec)
    ensures AfterAll(f, ReleaseOps(t, spec, isUpdate, cron)) == BehindRelease(f, t, spec, isUpdate)
    ensures Tidy(ReleaseOps(t, spec, isUpdate, cron))
  {
    var up, serve := UploadOps(t, isUpdate), ServeOps(t, spec.workersDev, isUpdate, cron);
    var rest := SubdomainOps(spec) + (DomainOps(t, spec) + [Check, Check]);
    ReleaseInPieces(t, spec, isUpdate, cron);
    PermitsAppend(f, up, serve + rest);
    UploadPermitted(f, t, isUpdate);
    var f1 := AfterAll(f, up);
    PermitsAppend(f1, serve, rest);
    ServePermitted(f1, t, spec.workersDev, isUpdate, cron);
    ExposurePermitted(f1, t, spec);
    TidyAppend(serve, rest);
    TidyAppend(up, serve + rest);
  }

  /** The secrets of a relay and its metadata. */
  lemma SecretsPermitted(f: Facts, spec: RelaySpec)
    ensures
      var ops := RelaySecretOps(spec.origin) + [RelayStage(spec.origin)];
      && (PermitsAll(f, ops) <==> SecretsPossible(f, spec.origin))
      && AfterAll(f, ops) == f.(creds := f.creds + Secrets(spec.origin)) && Tidy(ops)
  {
    var ops, stage := RelaySecretOps(spec.origin), RelayStage(spec.origin);
    PermitsAppend(f, ops, [stage]);
    OnePermitted(AfterAll(f, ops), stage);
    match spec.origin
    case LinkedRelay(r) =>
      OnePermitted(f, ops[0]);
      assert f.creds + {} == f.creds;
    case NewRelay(id, _, _) =>
      TwoPermitted(f, ops[0], ops[1]);
      assert f.creds + {WorkerSecret(id)} + {NodeSecret(id)} == f.creds + {WorkerSecret(id), NodeSecret(id)};
  }

  lemma RelayPermitted(f: Facts, spec: RelaySpec)
    ensures PermitsAll(f, RelayOps(spec)) <==> RelayPossible(f, spec)
    ensures AfterAll(f, RelayOps(spec)) == BehindRelay(f, spec)
    ensures Tidy(RelayOps(spec))
  {
    var before := RelaySecretOps(spec.origin) + [RelayStage(spec.origin)];
    var release := ReleaseOps(spec.target, spec.endpoint, spec.origin.LinkedRelay?, false);
    PermitsAppend(f, before, release);
    SecretsPermitted(f, spec);
    ReleasePermitted(AfterAll(f, before), spec.target, spec.endpoint, spec.origin.LinkedRelay?, false);
    TidyAppend(before, release);
  }

  lemma {:induction false} RelaysPermitted(f: Facts, relays: seq<RelaySpec>)
    ensures PermitsAll(f, RelaysOps(relays)) <==> RelaysPossible(f, relays)
    ensures AfterAll(f, RelaysOps(relays)) == BehindRelays(f, relays)
    ensures Tidy(RelaysOps(relays))
  {
    if |relays| > 0 {
      var init, last := relays[..|relays| - 1], relays[|relays| - 1];
      RelaysPermitted(f, init);
      PermitsAppend(f, RelaysOps(init), RelayOps(last));
      RelayPermitted(BehindRelays(f, init), last);
      TidyAppend(RelaysOps(init), RelayOps(last));
    }
  }

  lemma KvPermitted(f: Facts, spec: SubSpec)
    ensures PermitsAll(f, KvOps(spec)) <==> spec.origin.NewSub? || spec.origin.details.Some?
    ensures AfterAll(f, KvOps(spec)) == f && Tidy(KvOps(spec))
  {
    TwoPermitted(f, FindKv(spec.kvTitle), CreateKv(spec.kvTitle));
    OnePermitted(f, KvOps(spec)[0]);
  }

  lemma SubSecretsPermitted(f: Facts, origin: SubOrigin, nodes: string)
    ensures SubSecretsPossible(f, origin, nodes)
       <==> PermitsAll(f, SubSecretOps(origin, nodes)) && nodes != ""
    ensures origin.NewSub? && PermitsAll(f, SubSecretOps(origin, nodes)) ==> nodes != ""
    ensures
      var f' := AfterAll(f, SubSecretOps(origin, nodes));
      f'.workers == f.workers && f'.bound == f.bound
    ensures Tidy(SubSecretOps(origin, nodes))
  {
    match origin
    case NewSub(id, token) =>
      TwoPermitted(f, SubSecretOps(origin, nodes)[0], SubSecretOps(origin, nodes)[1]);
    case LinkedSub(_, secret, details) =>
      if details.None? {
        OnePermitted(f, Refuse);
      } else {
        var keep := if secret.Keyring? then [KeepTopology(secret)] else [];
        PermitsAppend(f, keep, [Resolve(details.value.1)]);
        OnePermitted(f, KeepTopology(secret));
        OnePermitted(f, Resolve(details.value.1));
      }
  }

  lemma PreparationPermitted(f: Facts, spec: SubSpec, nodes: string)
    ensures SubSecretsPossible(f, spec.origin, nodes) <==> PermitsAll(f, SubPreparation(spec, nodes)) && nodes != ""
    ensures spec.origin.NewSub? && PermitsAll(f, SubPreparation(spec, nodes)) ==> nodes != ""
    ensures
      var f' := AfterAll(f, SubPreparation(spec, nodes));
      f'.workers == f.workers && f'.bound == f.bound
    ensures Tidy(SubPreparation(spec, nodes))
  {
    var kv, secrets, stage := KvOps(spec), SubSecretOps(spec.origin, nodes), [SubStage(spec.origin, nodes)];
    PermitsAppend(f, kv + secrets, stage);
    PermitsAppend(f, kv, secrets);
    KvPermitted(f, spec);
    SubSecretsPermitted(f, spec.origin, nodes);
    OnePermitted(AfterAll(f, secrets), stage[0]);
    TidyAppend(kv, secrets);
    TidyAppend(kv + secrets, stage);
  }

  lemma SubPermitted(f: Facts, spec: SubSpec, nodes: string)
    ensures PermitsAll(f, SubOps(spec, nodes)) <==> SubPossible(f, spec, nodes)
    ensures Tidy(SubOps(spec, nodes))
  {
    var before, last := SubPreparation(spec, nodes), RotateOps(spec.origin, nodes);
    var release := ReleaseOps(spec.target, spec.endpoint, spec.origin.LinkedSub?, true);
    PermitsAppend(f, before + release, last);
    PermitsAppend(f, before, release);
    PreparationPermitted(f, spec, nodes);
    var f1 := AfterAll(f, before);
    ReleasePermitted(f1, spec.target, spec.endpoint, spec.origin.LinkedSub?, true);
    OnePermitted(AfterAll(f1, release), Rotate(TopologyRef(spec.origin), nodes));
    TidyAppend(before, release);
    TidyAppend(before + release, last);
  }

  lemma PlanPermitted(w: World, plan: Plan, nodes: string)
    ensures PermitsAll(FactsOf(w), PlanOps(plan, nodes)) <==> PlanPossible(w, plan, nodes)
    ensures Tidy(PlanOps(plan, nodes))
  {
    var f := FactsOf(w);
    PermitsAppend(f, RelaysOps(plan.relays), SubOps(plan.sub, nodes));
    RelaysPermitted(f, plan.relays);
    SubPermitted(BehindRelays(f, plan.relays), plan.sub, nodes);
    TidyAppend(RelaysOps(plan.relays), SubOps(plan.sub, nodes));
  }

  /** A deployment works out exactly if its plan fits the world and every call that is made is
      answered truthfully. */
  lemma DeployedExactly(start: World, clock: nat, env: Outside, plan: Plan, nodes: string)
    ensures Deployed(start, clock, env, plan, nodes).ok
       <==> PlanPossible(start, plan, nodes) && Answered(Initial(start, clock), PlanOps(plan, nodes), env)
  {
    var ops := PlanOps(plan, nodes);
    PlanPermitted(start, plan, nodes);
    assert ops[0..] == ops;
    FirstPrimed(start, clock, ops);
    RunExactly(Initial(start, clock), ops, 0, env);
  }

  lemma FirstPrimed(start: World, clock: nat, ops: seq<Op>)
    requires Tidy(ops)
    ensures PrimedAt(Initial(start, clock), ops, 0)
  {
    if |ops| > 0 { assert TidyAt(ops, 0); }
    if |ops| > 1 { assert TidyAt(ops, 1); }
  }

  // ---------------------------------------------------------------- and such answers there are

  lemma {:induction false} LengthBound(names: set<string>) returns (n: nat)
    ensures forall x :: x in names ==> |x| < n
    decreases |names|
  {
    n := 0;
    if names != {} {
      var y :| y in names;
      n := LengthBound(names - {y});
      n := if |y| < n then n else |y| + 1;
    }
  }

  lemma FreshName(names: set<string>) returns (x: string)
    ensures x !in names
  {
    var n := LengthBound(names);
    x := seq(n, _ => 'a');
  }

  lemma TruthfulAnswer(w: World, op: Op) returns (a: Answer)
    ensures Truthful(w, op, a)
  {
    a := Answer(true, "", false);
    match op
    case FindKv(title) =>
      if !KvFree(w, title) {
        var id :| id in w.kv && w.kv[id] == title;
        a := a.(text := id);
      }
    case CreateKv(_) =>
      var id := FreshName(w.kv.Keys);
      a := a.(text := id);
    case FindDomain(t, hostname) => a := TruthfulListing(w, t, hostname);
    case Attach(_, _) =>
      var id := FreshName(w.domains.Keys);
      a := a.(text := id);
    case _ =>
  }

  lemma TruthfulListing(w: World, t: Target, hostname: string) returns (a: Answer)
    ensures Truthful(w, FindDomain(t, hostname), a)
  {
    a := Answer(true, "", false);
    if Bound(w, t, hostname) {
      var id :| id in w.domains && (w.domains[id].hostname, w.domains[id].service) == (hostname, t);
      a := a.(text := id);
    } else if !DomainFree(w, t.0, hostname) {
      var id :| id in w.domains && DomainMatches(w.domains[id], t.0, hostname);
      a := a.(text := id);
    }
  }

  /** The first call gets this answer, the later ones theirs. */
  function First(a: Answer, clock: nat, later: nat -> Answer): nat -> Answer {
    (k: nat) => if k <= clock then a else later(k)
  }

  lemma {:induction false} AnsweredAgrees(s: State, ops: seq<Op>, a: Outside, b: Outside)
    requires a.devReads == b.devReads && (forall k :: k >= s.clock ==> a.answers(k) == b.answers(k))
    requires Answered(s, ops, a)
    ensures Answered(s, ops, b)
    decreases |ops|
  {
    if |ops| > 0 {
      StepAgrees(s, ops[0], a, b);
      StepClock(s, ops[0], a);
      var next := Step(s, ops[0], a);
      if next.Some? {
        AnsweredAgrees(next.value, ops[1..], a, b);
      }
    }
  }

  lemma {:induction false} CanBeAnswered(s: State, ops: seq<Op>, devReads: Target -> bool) returns (answers: nat -> Answer)
    ensures Answered(s, ops, Outside(answers, devReads))
    decreases |ops|
  {
    answers := (k: nat) => Answer(true, "", false);
    if |ops| > 0 {
      var a := TruthfulAnswer(s.world, ops[0]);
      var always := Outside((k: nat) => a, devReads);
      var next := Step(s, ops[0], always);
      answers := always.answers;
      if next.Some? {
        StepClock(s, ops[0], always);
        var later := CanBeAnswered(next.value, ops[1..], devReads);
        if Asks(s, ops[0], devReads) {
          answers := First(a, s.clock, later);
          StepAgrees(s, ops[0], always, Outside(answers, devReads));
          AnsweredAgrees(next.value, ops[1..], Outside(later, devReads), Outside(answers, devReads));
        } else {
          answers := later;
          StepAgrees(s, ops[0], always, Outside(later, devReads));
        }
      }
    }
  }

  /** Every plan that fits the world can be deployed, whatever can be read of workers.dev. */
  lemma PossibleCanWork(start: World, clock: nat, devReads: Target -> bool, plan: Plan, nodes: string)
    returns (answers: nat -> Answer)
    requires PlanPossible(start, plan, nodes)
    ensures Deployed(start, clock, Outside(answers, devReads), plan, nodes).ok
  {
    answers := CanBeAnswered(Initial(start, clock), PlanOps(plan, nodes), devReads);
    DeployedExactly(start, clock, Outside(answers, devReads), plan, nodes);
  }
}
