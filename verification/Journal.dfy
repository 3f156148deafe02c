/** The journal of a deployment of `core/src/deploy.rs`: whatever its steps have made or changed
    is on record, and what is on record as made is there. */
module Journal {
  import opened Bytes
  import opened Saga
  import opened Steps

  predicate NamesCredential(r: Resource) {
    r.RelayWorkerCredential? || r.RelayNodeCredential? || r.TopologyCredential? || r.SubscriptionCredential?
  }

  ghost predicate Noted(s: State, resource: Resource, d: Disposition) {
    JournalRecord(resource, d) in s.records
  }

  /** New namespaces, Workers and domain bindings are on record as created. */
  ghost predicate MadeNoted(start: World, s: State) {
    && (forall id :: id in s.world.kv && id !in start.kv ==> Noted(s, KvNamespace(id), Created))
    && (forall t :: t in s.world.workers && t !in start.workers ==> Noted(s, WorkerScript(t.1), Created))
    && (forall id :: id in s.world.domains && id !in start.domains
          ==> Noted(s, CustomDomain(s.world.domains[id].hostname), Created))
  }

  /** So is every change of a Worker there was, under what was changed about it, unless it was
      created anew. */
  ghost predicate ChangeNoted(was: Worker, s: State, t: Target) {
    && t in s.world.workers
    && var now := s.world.workers[t];
    || Noted(s, WorkerScript(t.1), Created)
    || ((now.cron != was.cron ==> Noted(s, CronTriggers(t.1), Updated))
        && (now.workersDev != was.workersDev ==> Noted(s, WorkersDevFor(t.1), Updated))
        && (now.live != was.live ==> DeploymentNoted(s)))
  }

  ghost predicate ChangesNoted(start: World, s: State) {
    forall t :: t in start.workers ==> ChangeNoted(start.workers[t], s, t)
  }

  ghost predicate DeploymentNoted(s: State) {
    exists j :: j in s.records && j.resource.NewDeployment? && (j.disposition.Created? || j.disposition.Updated?)
  }

  ghost predicate CredentialNoted(s: State) {
    exists j :: j in s.records && NamesCredential(j.resource) && (j.disposition.Created? || j.disposition.Updated?)
  }

  /** And every credential written, and every version uploaded. */
  ghost predicate WritesNoted(start: World, s: State) {
    && (s.world.creds != start.creds ==> CredentialNoted(s))
    && (forall u :: u in s.uploads ==>
          Noted(s, WorkerVersion(u.version), Created) || Noted(s, WorkerScript(u.target.1), Created))
  }

  /** What is on record as created is there, and was not before; what is on record as found was
      there. */
  ghost predicate OnlyReal(start: World, s: State) {
    && start.kv.Keys <= s.world.kv.Keys
    && forall j :: j in s.records ==> Real(start, s.world, j)
  }

  ghost predicate Real(start: World, w: World, j: JournalRecord) {
    match j.resource
    case KvNamespace(id) => id in w.kv && (j.disposition.Created? ==> id !in start.kv)
    case CustomDomain(hostname) => exists id :: id in w.domains && w.domains[id].hostname == hostname
    case WorkerScript(script) => exists t :: t in w.workers && t.1 == script
    case _ => true
  }

  /** The journal tells the truth. */
  ghost predicate Truthful(start: World, s: State) {
    MadeNoted(start, s) && ChangesNoted(start, s) && WritesNoted(start, s) && OnlyReal(start, s)
  }

  // ---------------------------------------------------------------- single calls

  /** A record more, and nothing else. */
  lemma NoteTruthful(start: World, s: State, s': State, j: JournalRecord)
    requires Truthful(start, s) && s'.world == s.world && s'.uploads == s.uploads
    requires s'.records == s.records + [j] && Real(start, s.world, j)
    ensures Truthful(start, s')
  {
    assert forall i :: i in s.records ==> i in s'.records;
    WorkersStay(start, s, s');
  }

  lemma SameTruthful(start: World, s: State, s': State)
    requires Truthful(start, s) && s'.world == s.world && s'.uploads == s.uploads && s'.records == s.records
    ensures Truthful(start, s')
  {
  }

  /** What is on record stays real as long as nothing is taken away. */
  lemma RealStays(start: World, w: World, w': World, j: JournalRecord)
    requires Real(start, w, j) && w.kv.Keys <= w'.kv.Keys && w.workers.Keys <= w'.workers.Keys
    requires forall id :: id in w.domains ==> id in w'.domains && w'.domains[id] == w.domains[id]
    ensures Real(start, w', j)
  {
    if j.resource.CustomDomain? {
      var id :| id in w.domains && w.domains[id].hostname == j.resource.name;
      assert id in w'.domains;
    }
  }

  lemma OneMoreReal(start: World, s: State, s': State, j: JournalRecord)
    requires OnlyReal(start, s) && s'.records == s.records + [j] && Real(start, s'.world, j)
    requires s.world.kv.Keys <= s'.world.kv.Keys && s.world.workers.Keys <= s'.world.workers.Keys
    requires forall id :: id in s.world.domains ==> id in s'.world.domains && s'.world.domains[id] == s.world.domains[id]
    ensures OnlyReal(start, s')
  {
    forall i | i in s'.records ensures Real(start, s'.world, i) {
      if i in s.records { RealStays(start, s.world, s'.world, i); }
    }
  }

  lemma StoreTruthful(start: World, s: State, name: Resource, r: Ref, value: string, d: Disposition, c: Compensation)
    requires Truthful(start, s) && NamesCredential(name) && (d.Created? || d.Updated?)
    ensures Truthful(start, DidStore(s, name, r, value, d, c))
  {
    var s' := DidStore(s, name, r, value, d, c);
    assert forall i :: i in s.records ==> i in s'.records;
    WorkersStay(start, s, s');
    assert JournalRecord(name, d) in s'.records;
    OneMoreReal(start, s, s', JournalRecord(name, d));
  }

  lemma KvTruthful(start: World, s: State, id: string, title: string)
    requires Truthful(start, s) && id !in s.world.kv
    ensures Truthful(start, DidCreateKv(s, id, title))
  {
    var s' := DidCreateKv(s, id, title);
    assert forall i :: i in s.records ==> i in s'.records;
    WorkersStay(start, s, s');
    OneMoreReal(start, s, s', JournalRecord(KvNamespace(id), Created));
  }

  lemma AttachTruthful(start: World, s: State, id: string, t: Target, hostname: string)
    requires Truthful(start, s) && id !in s.world.domains
    ensures Truthful(start, DidAttach(s, id, t, hostname))
  {
    var s' := DidAttach(s, id, t, hostname);
    assert forall i :: i in s.records ==> i in s'.records;
    WorkersStay(start, s, s');
    assert id in s'.world.domains && s'.world.domains[id].hostname == hostname;
    forall k | k in s'.world.domains && k !in start.domains
      ensures Noted(s', CustomDomain(s'.world.domains[k].hostname), Created)
    {
      if k != id { assert Noted(s, CustomDomain(s.world.domains[k].hostname), Created); }
    }
    OneMoreReal(start, s, s', JournalRecord(CustomDomain(hostname), Created));
  }

  /** Nothing changes about the Workers. */
  lemma WorkersStay(start: World, s: State, s': State)
    requires ChangesNoted(start, s) && s'.world.workers == s.world.workers && forall i :: i in s.records ==> i in s'.records
    ensures ChangesNoted(start, s')
  {
    forall u | u in start.workers ensures ChangeNoted(start.workers[u], s', u) {
      assert ChangeNoted(start.workers[u], s, u);
    }
  }

  lemma CreateTruthful(start: World, s: State, t: Target, version: string, enabled: bool)
    requires Truthful(start, s)
    ensures Truthful(start, DidCreate(s, t, version, enabled))
  {
    var s' := DidCreate(s, t, version, enabled);
    assert forall i :: i in s.records ==> i in s'.records;
    assert t in s'.world.workers;
    forall u | u in start.workers ensures ChangeNoted(start.workers[u], s', u) {
      assert ChangeNoted(start.workers[u], s, u);
    }
    OneMoreReal(start, s, s', JournalRecord(WorkerScript(t.1), Created));
  }

  lemma UploadTruthful(start: World, s: State, t: Target, version: string)
    requires Truthful(start, s)
    ensures Truthful(start, DidUpload(s, t, version))
  {
    var s' := DidUpload(s, t, version);
    assert forall i :: i in s.records ==> i in s'.records;
    WorkersStay(start, s, s');
    OneMoreReal(start, s, s', JournalRecord(WorkerVersion(version), Created));
  }

  /** One Worker changes, and that is on record. */
  lemma WorkerTruthful(start: World, s: State, s': State, t: Target, j: JournalRecord)
    requires Truthful(start, s) && t in s.world.workers && t in s'.world.workers
    requires s'.world == SetWorker(s.world, t, s'.world.workers[t]) && s'.uploads == s.uploads
    requires s'.records == s.records + [j] && Real(start, s'.world, j)
    requires t in start.workers ==> ChangeNoted(start.workers[t], s', t)
    ensures Truthful(start, s')
  {
    MadeStays(start, s, s', j);
    OthersStay(start, s, s', t, j);
    OneMoreReal(start, s, s', j);
  }

  /** What was made and written is on record as before. */
  lemma MadeStays(start: World, s: State, s': State, j: JournalRecord)
    requires MadeNoted(start, s) && WritesNoted(start, s) && s'.records == s.records + [j] && s'.uploads == s.uploads
    requires s'.world == s.world.(workers := s'.world.workers) && s'.world.workers.Keys == s.world.workers.Keys
    ensures MadeNoted(start, s') && WritesNoted(start, s')
  {
    assert forall i :: i in s.records ==> i in s'.records;
  }

  lemma OthersStay(start: World, s: State, s': State, t: Target, j: JournalRecord)
    requires ChangesNoted(start, s) && t in s'.world.workers && s'.records == s.records + [j]
    requires s'.world.workers == s.world.workers[t := s'.world.workers[t]]
    requires t in start.workers ==> ChangeNoted(start.workers[t], s', t)
    ensures ChangesNoted(start, s')
  {
    assert forall i :: i in s.records ==> i in s'.records;
    forall u | u in start.workers ensures ChangeNoted(start.workers[u], s', u) {
      assert ChangeNoted(start.workers[u], s, u);
    }
  }

  lemma PromoteTruthful(start: World, s: State, t: Target, isUpdate: bool, id: string)
    requires Truthful(start, s) && t in s.world.workers
    ensures Truthful(start, DidPromote(s, t, isUpdate, id))
  {
    var s' := DidPromote(s, t, isUpdate, id);
    var j := JournalRecord(NewDeployment(id), if isUpdate then Updated else Created);
    assert s'.records == s.records + [j] && j in s'.records;
    if t in start.workers { assert ChangeNoted(start.workers[t], s, t); }
    WorkerTruthful(start, s, s', t, j);
  }

  lemma CronTruthful(start: World, s: State, t: Target)
    requires Truthful(start, s) && t in s.world.workers && t in s.crons
    ensures Truthful(start, DidSetCron(s, t))
  {
    var s', j := DidSetCron(s, t), JournalRecord(CronTriggers(t.1), Updated);
    assert s'.records == s.records + [j] && j in s'.records;
    if t in start.workers { assert ChangeNoted(start.workers[t], s, t); }
    WorkerTruthful(start, s, s', t, j);
  }

  lemma SwitchTruthful(start: World, s: State, t: Target, seen: bool, wanted: bool)
    requires Truthful(start, s) && t in s.world.workers
    ensures Truthful(start, DidSwitch(s, t, seen, wanted))
  {
    var s', j := DidSwitch(s, t, seen, wanted), JournalRecord(WorkersDevFor(t.1), Updated);
    assert s'.records == s.records + [j] && j in s'.records;
    if t in start.workers { assert ChangeNoted(start.workers[t], s, t); }
    WorkerTruthful(start, s, s', t, j);
  }

  lemma FindingTruthful(start: World, s: State, op: Op, env: Outside)
    requires Truthful(start, s) && (op.FindKv? || op.FindDomain?) && Step(s, op, env).Some?
    ensures Truthful(start, Step(s, op, env).value)
  {
    var a, s' := env.answers(s.clock), Step(s, op, env).value;
    if !s'.found {
      SameTruthful(start, s, s');
    } else if op.FindKv? {
      NoteTruthful(start, s, s', JournalRecord(KvNamespace(a.text), PreExisting));
    } else {
      assert a.text in s.world.domains && s.world.domains[a.text].hostname == op.hostname;
      NoteTruthful(start, s, s', JournalRecord(CustomDomain(op.hostname), PreExisting));
    }
  }

  /** Credentials are stored under names of credentials. */
  predicate Proper(op: Op) {
    op.Store? ==> NamesCredential(op.name)
  }

  lemma SwitchingTruthful(start: World, s: State, t: Target, wanted: bool, env: Outside)
    requires Truthful(start, s) && Step(s, Switch(t, wanted), env).Some?
    ensures Truthful(start, Step(s, Switch(t, wanted), env).value)
  {
    var s', seen := Step(s, Switch(t, wanted), env).value, DevSeen(s.world, env.devReads, t);
    if seen == wanted {
      NoteTruthful(start, s, s', JournalRecord(WorkersDevFor(t.1), PreExisting));
    } else {
      assert s' == DidSwitch(s, t, seen, wanted);
      SwitchTruthful(start, s, t, seen, wanted);
    }
  }

  lemma SchedulingTruthful(start: World, s: State, t: Target, env: Outside)
    requires Truthful(start, s) && Step(s, SetCron(t), env).Some?
    ensures Truthful(start, Step(s, SetCron(t), env).value)
  {
    if s.crons[t] != [REFRESH_CRON] {
      assert Step(s, SetCron(t), env).value == DidSetCron(s, t);
      CronTruthful(start, s, t);
    }
  }

  lemma AttachingTruthful(start: World, s: State, t: Target, hostname: string, env: Outside)
    requires Truthful(start, s) && Step(s, Attach(t, hostname), env).Some?
    ensures Truthful(start, Step(s, Attach(t, hostname), env).value)
  {
    if !s.found {
      assert Step(s, Attach(t, hostname), env).value == DidAttach(s, env.answers(s.clock).text, t, hostname);
      AttachTruthful(start, s, env.answers(s.clock).text, t, hostname);
    }
  }

  lemma KvCreationTruthful(start: World, s: State, title: string, env: Outside)
    requires Truthful(start, s) && Step(s, CreateKv(title), env).Some?
    ensures Truthful(start, Step(s, CreateKv(title), env).value)
  {
    if !s.found {
      assert Step(s, CreateKv(title), env).value == DidCreateKv(s, env.answers(s.clock).text, title);
      KvTruthful(start, s, env.answers(s.clock).text, title);
    }
  }

  lemma WritingTruthful(start: World, s: State, op: Op, env: Outside)
    requires Truthful(start, s) && Proper(op) && Step(s, op, env).Some? && (op.Store? || op.Rotate?)
    ensures Truthful(start, Step(s, op, env).value)
  {
    if op.Store? {
      StoreTruthful(start, s, op.name, op.r, op.value, Created, Credential(op.r));
    } else {
      StoreTruthful(start, s, TopologyCredential, op.r, op.value, Updated,
                    if s.topology.Some? then CredentialRestore(op.r, s.topology.value) else Credential(op.r));
    }
  }

  lemma ReleasingTruthful(start: World, s: State, op: Op, env: Outside)
    requires Truthful(start, s) && Step(s, op, env).Some? && (op.Create? || op.Upload? || op.Promote?)
    ensures Truthful(start, Step(s, op, env).value)
  {
    var a, s' := env.answers(s.clock), Step(s, op, env).value;
    if op.Create? {
      assert s' == DidCreate(s, op.t, a.text, a.enabled);
      CreateTruthful(start, s, op.t, a.text, a.enabled);
    } else if op.Upload? {
      assert s' == DidUpload(s, op.t, a.text);
      UploadTruthful(start, s, op.t, a.text);
    } else {
      assert s' == DidPromote(s, op.t, op.isUpdate, a.text);
      PromoteTruthful(start, s, op.t, op.isUpdate, a.text);
    }
  }

  // ---------------------------------------------------------------- every step

  /** These calls only read, and leave nothing on record. */
  predicate Reads(op: Op) {
    match op
    case Refuse | Resolve(_) | KeepTopology(_) | UseKv(_) | StageRelay(_) | StageSub(_, _) => true
    case ReadStable(_) | ReadCron(_) | Check | CheckFree => true
    case _ => false
  }

  lemma ReadingKeeps(s: State, op: Op, env: Outside)
    requires Reads(op) && Step(s, op, env).Some?
    ensures
      var s' := Step(s, op, env).value;
      s'.world == s.world && s'.uploads == s.uploads && s'.records == s.records
  {
  }

  lemma StepTruthful(start: World, s: State, op: Op, env: Outside)
    requires Truthful(start, s) && Proper(op) && Step(s, op, env).Some?
    ensures Truthful(start, Step(s, op, env).value)
  {
    if Reads(op) {
      ReadingKeeps(s, op, env);
      SameTruthful(start, s, Step(s, op, env).value);
    } else if op.Store? || op.Rotate? {
      WritingTruthful(start, s, op, env);
    } else if op.FindKv? || op.FindDomain? {
      FindingTruthful(start, s, op, env);
    } else if op.Create? || op.Upload? || op.Promote? {
      ReleasingTruthful(start, s, op, env);
    } else if op.CreateKv? {
      KvCreationTruthful(start, s, op.title, env);
    } else if op.SetCron? {
      SchedulingTruthful(start, s, op.t, env);
    } else if op.Switch? {
      SwitchingTruthful(start, s, op.t, op.wanted, env);
    } else {
      AttachingTruthful(start, s, op.t, op.hostname, env);
    }
  }

  ghost predicate AllProper(ops: seq<Op>) {
    forall i :: 0 <= i < |ops| ==> Proper(ops[i])
  }

  lemma ProperAppend(a: seq<Op>, b: seq<Op>)
    requires AllProper(a) && AllProper(b)
    ensures AllProper(a + b)
  {
  }

  lemma {:induction false} RunTruthful(start: World, s: State, ops: seq<Op>, env: Outside)
    requires Truthful(start, s) && AllProper(ops)
    ensures Truthful(start, Run(s, ops, env).state)
    decreases |ops|
  {
    if |ops| > 0 {
      var next := Step(s, ops[0], env);
      if next.Some? {
        StepTruthful(start, s, ops[0], env);
        RunTruthful(start, next.value, ops[1..], env);
      } else {
        SameTruthful(start, s, Stopped(s, ops[0], env.devReads));
      }
    }
  }

  // ---------------------------------------------------------------- whole deployments

  lemma ReleaseProper(t: Target, spec: EndpointSpec, isUpdate: bool, cron: bool)
    ensures AllProper(ReleaseOps(t, spec, isUpdate, cron))
  {
    var up, pr, cr := UploadOps(t, isUpdate), [Promote(t, isUpdate)], CronOps(t, cron);
    ProperAppend(up, pr);
    ProperAppend(up + pr, cr);
    ProperAppend([Switch(t, spec.workersDev)], SubdomainOps(spec));
    ProperAppend([Switch(t, spec.workersDev)] + SubdomainOps(spec), DomainOps(t, spec));
    ProperAppend([Switch(t, spec.workersDev)] + SubdomainOps(spec) + DomainOps(t, spec), [Check]);
    ProperAppend(up + pr + cr, EndpointOps(t, spec));
    ProperAppend(up + pr + cr + EndpointOps(t, spec), [Check]);
  }

  lemma {:induction false} RelaysProper(relays: seq<RelaySpec>)
    ensures AllProper(RelaysOps(relays))
  {
    if |relays| > 0 {
      var init, spec := relays[..|relays| - 1], relays[|relays| - 1];
      var before := RelaySecretOps(spec.origin) + [RelayStage(spec.origin)];
      var release := ReleaseOps(spec.target, spec.endpoint, spec.origin.LinkedRelay?, false);
      RelaysProper(init);
      ReleaseProper(spec.target, spec.endpoint, spec.origin.LinkedRelay?, false);
      ProperAppend(before, release);
      ProperAppend(RelaysOps(init), RelayOps(spec));
    }
  }

  lemma SubProper(spec: SubSpec, nodes: string)
    ensures AllProper(SubOps(spec, nodes))
  {
    var release := ReleaseOps(spec.target, spec.endpoint, spec.origin.LinkedSub?, true);
    ReleaseProper(spec.target, spec.endpoint, spec.origin.LinkedSub?, true);
    ProperAppend(KvOps(spec), SubSecretOps(spec.origin, nodes));
    ProperAppend(KvOps(spec) + SubSecretOps(spec.origin, nodes), [SubStage(spec.origin, nodes)]);
    ProperAppend(SubPreparation(spec, nodes), release);
    ProperAppend(SubPreparation(spec, nodes) + release, RotateOps(spec.origin, nodes));
  }

  /** Wherever a deployment ends, committed or at the call that failed, its journal is true. */
  lemma DeployedTruthful(start: World, clock: nat, env: Outside, plan: Plan, nodes: string)
    ensures Truthful(start, Deployed(start, clock, env, plan, nodes).state)
  {
    RelaysProper(plan.relays);
    SubProper(plan.sub, nodes);
    ProperAppend(RelaysOps(plan.relays), SubOps(plan.sub, nodes));
    RunTruthful(start, Initial(start, clock), PlanOps(plan, nodes), env);
  }
}
