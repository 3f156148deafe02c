/** A deployment of `core/src/deploy.rs` as a list of calls, each all-or-nothing and free to
    fail: which calls a plan makes in which order, and what running them does. */
module Steps {
  import opened Bytes
  import opened Saga

  const REFRESH_CRON := "17 */6 * * *"

  // ---------------------------------------------------------------- plans

  /** `subdomain` is what the account record knows of its workers.dev name. */
  datatype EndpointSpec = EndpointSpec(workersDev: bool, subdomain: Option<string>, customDomain: Option<string>)

  /** A locally linked relay, or a new one under a fresh identifier with generated secrets. */
  datatype RelayOrigin = LinkedRelay(nodeSecret: Option<Ref>) | NewRelay(id: string, workerValue: string, nodeValue: string)

  datatype RelaySpec = RelaySpec(target: Target, origin: RelayOrigin, endpoint: EndpointSpec)

  datatype SubOrigin =
    | LinkedSub(id: string, secret: Ref, details: Option<(string, Ref)>)
    | NewSub(id: string, tokenValue: string)

  datatype SubSpec = SubSpec(target: Target, origin: SubOrigin, kvTitle: string, endpoint: EndpointSpec)

  datatype Plan = Plan(relays: seq<RelaySpec>, sub: SubSpec)

  function WorkerSecret(id: string): Ref {
    Keyring(["deployment", id, "worker-secret"])
  }

  function NodeSecret(id: string): Ref {
    Keyring(["deployment", id, "node-secret"])
  }

  function TokenSecret(id: string): Ref {
    Keyring(["deployment", id, "subscription-token"])
  }

  /** Where the rotated node topology goes: an environment reference cannot be written. */
  function TopologyRef(origin: SubOrigin): Ref {
    if origin.LinkedSub? && origin.secret.Keyring? then origin.secret else WorkerSecret(origin.id)
  }

  // ---------------------------------------------------------------- what is uploaded

  /** What a version is made of besides the bundle: for a relay its secret, which only a new
      Worker is given; for the subscription Worker the node topology, its token, which only a
      new one is given, and the KV namespace it is bound to. */
  datatype Metadata = RelayMeta(secret: Option<string>) | SubMeta(nodes: string, token: Option<string>, namespace: string)

  datatype Uploaded = Uploaded(target: Target, version: string, meta: Metadata)

  // ---------------------------------------------------------------- the journal

  datatype Disposition = PreExisting | Created | Updated | Compensated | Retained

  /** What the journal calls the resources; the last three are names that only undoing uses. */
  datatype Resource =
    | RelayWorkerCredential
    | RelayNodeCredential
    | TopologyCredential
    | SubscriptionCredential
    | KvNamespace(id: string)
    | WorkerScript(script: string)
    | WorkerVersion(id: string)
    | NewDeployment(id: string)
    | CronTriggers(script: string)
    | WorkersDevFor(script: string)
    | CustomDomain(name: string)
    | CredentialNamed(reference: Ref)
    | DeploymentFor(script: string)
    | WorkersDevStateFor(script: string)

  datatype JournalRecord = JournalRecord(resource: Resource, disposition: Disposition)

  // ---------------------------------------------------------------- calls

  datatype Op =
    | Refuse
    | Resolve(r: Ref)
    | KeepTopology(r: Ref)
    | Store(name: Resource, r: Ref, value: string)
    | FindKv(title: string)
    | CreateKv(title: string)
    | UseKv(id: string)
    | StageRelay(secret: Option<string>)
    | StageSub(nodes: string, token: Option<string>)
    | ReadStable(t: Target)
    | Create(t: Target)
    | Upload(t: Target)
    | Promote(t: Target, isUpdate: bool)
    | ReadCron(t: Target)
    | SetCron(t: Target)
    | Switch(t: Target, wanted: bool)
    | Check
    | FindDomain(t: Target, hostname: string)
    | CheckFree
    | Attach(t: Target, hostname: string)
    | Rotate(r: Ref, value: string)

  function BindOps(t: Target, hostname: string): seq<Op> {
    [Check, FindDomain(t, hostname), CheckFree, Attach(t, hostname)]
  }

  function SubdomainOps(spec: EndpointSpec): seq<Op> {
    if spec.workersDev && spec.subdomain.None? then [Check] else []
  }

  function DomainOps(t: Target, spec: EndpointSpec): seq<Op> {
    if spec.customDomain.Some? then BindOps(t, spec.customDomain.value) else []
  }

  function EndpointOps(t: Target, spec: EndpointSpec): seq<Op> {
    [Switch(t, spec.workersDev)] + SubdomainOps(spec) + DomainOps(t, spec) + [Check]
  }

  function UploadOps(t: Target, isUpdate: bool): seq<Op> {
    if isUpdate then [ReadStable(t), Upload(t)] else [Create(t)]
  }

  function CronOps(t: Target, cron: bool): seq<Op> {
    if cron then [ReadCron(t), SetCron(t)] else []
  }

  /** Upload, promote, schedule if asked to, expose, verify. */
  function ReleaseOps(t: Target, spec: EndpointSpec, isUpdate: bool, cron: bool): seq<Op> {
    UploadOps(t, isUpdate) + [Promote(t, isUpdate)] + CronOps(t, cron) + EndpointOps(t, spec) + [Check]
  }

  function RelaySecretOps(origin: RelayOrigin): seq<Op> {
    match origin
    case LinkedRelay(r) => if r.None? then [Refuse] else [Resolve(r.value)]
    case NewRelay(id, worker, node) =>
      [Store(RelayWorkerCredential, WorkerSecret(id), worker), Store(RelayNodeCredential, NodeSecret(id), node)]
  }

  function RelayStage(origin: RelayOrigin): Op {
    StageRelay(if origin.NewRelay? then Some(origin.workerValue) else None)
  }

  function RelayOps(spec: RelaySpec): seq<Op> {
    RelaySecretOps(spec.origin) + [RelayStage(spec.origin)] + ReleaseOps(spec.target, spec.endpoint, spec.origin.LinkedRelay?, false)
  }

  function KvOps(spec: SubSpec): seq<Op> {
    if spec.origin.NewSub? then [FindKv(spec.kvTitle), CreateKv(spec.kvTitle)]
    else if spec.origin.details.None? then [Refuse]
    else [UseKv(spec.origin.details.value.0)]
  }

  function SubSecretOps(origin: SubOrigin, nodes: string): seq<Op> {
    match origin
    case NewSub(id, token) =>
      [Store(TopologyCredential, WorkerSecret(id), nodes), Store(SubscriptionCredential, TokenSecret(id), token)]
    case LinkedSub(_, secret, details) =>
      if details.None? then [Refuse]
      else (if secret.Keyring? then [KeepTopology(secret)] else []) + [Resolve(details.value.1)]
  }

  function RotateOps(origin: SubOrigin, nodes: string): seq<Op> {
    if origin.LinkedSub? then [Rotate(TopologyRef(origin), nodes)] else []
  }

  function SubStage(origin: SubOrigin, nodes: string): Op {
    StageSub(nodes, if origin.NewSub? then Some(origin.tokenValue) else None)
  }

  /** Namespace, credentials and metadata of the subscription Worker. */
  function SubPreparation(spec: SubSpec, nodes: string): seq<Op> {
    KvOps(spec) + SubSecretOps(spec.origin, nodes) + [SubStage(spec.origin, nodes)]
  }

  function SubOps(spec: SubSpec, nodes: string): seq<Op> {
    SubPreparation(spec, nodes) + ReleaseOps(spec.target, spec.endpoint, spec.origin.LinkedSub?, true)
    + RotateOps(spec.origin, nodes)
  }

  function RelaysOps(relays: seq<RelaySpec>): seq<Op> {
    if |relays| == 0 then [] else RelaysOps(relays[..|relays| - 1]) + RelayOps(relays[|relays| - 1])
  }

  /** The relays and the subscription Worker in the order of `execute_with`. */
  function PlanOps(plan: Plan, nodes: string): seq<Op> {
    RelaysOps(plan.relays) + SubOps(plan.sub, nodes)
  }

  // ---------------------------------------------------------------- running them

  /** What the outside says to one call: whether it works, and the identifier it hands out. */
  datatype Answer = Answer(ok: bool, text: string, enabled: bool)

  /** The answer to every call, and whether the workers.dev state of a Worker can be read: a
      failed read counts as off. */
  datatype Outside = Outside(answers: nat -> Answer, devReads: Target -> bool)

  /** The world and the transaction; then what the calls have read; then which Workers were
      promoted, to which version first, and whose workers.dev was switched; then the namespace
      and the metadata that are ready, and what has been uploaded. */
  datatype State = State(
    world: World, clock: nat, records: seq<JournalRecord>, compensations: seq<Compensation>,
    stable: map<Target, Option<string>>, crons: map<Target, seq<string>>, version: string, found: bool,
    topology: Option<string>, promoted: map<Target, string>, switched: set<Target>,
    namespace: string, staged: Metadata, uploads: seq<Uploaded>)

  function Initial(w: World, clock: nat): State {
    State(w, clock, [], [], map[], map[], "", false, None, map[], {}, "", RelayMeta(None), [])
  }

  function Tick(s: State): State {
    s.(clock := s.clock + 1)
  }

  function Note(s: State, resource: Resource, d: Disposition): State {
    s.(records := s.records + [JournalRecord(resource, d)])
  }

  /** A call that worked: the new world, a record, and how to take it back. */
  function Acted(s: State, w: World, resource: Resource, d: Disposition, c: Compensation): State {
    Note(Tick(s), resource, d).(world := w, compensations := s.compensations + [c])
  }

  predicate Resolves(w: World, r: Ref, a: Answer) {
    a.ok && (r.Keyring? ==> r in w.creds)
  }

  function Resolved(w: World, r: Ref, a: Answer): string
    requires Resolves(w, r, a)
  {
    if r.Env? then a.text else w.creds[r]
  }

  predicate Storable(r: Ref, value: string, a: Answer) {
    a.ok && value != "" && r.Keyring?
  }

  predicate Exists(w: World, t: Target, a: Answer) {
    a.ok && t in w.workers
  }

  /** A listing names the first match; a name that does not match is no answer. */
  predicate KvNamed(w: World, title: string, a: Answer) {
    a.text in w.kv && w.kv[a.text] == title
  }

  predicate KvFree(w: World, title: string) {
    forall id :: id in w.kv ==> w.kv[id] != title
  }

  predicate DomainMatches(d: Domain, account: string, hostname: string) {
    d.hostname == hostname && d.service.0 == account
  }

  predicate DomainNamed(w: World, account: string, hostname: string, a: Answer) {
    a.text in w.domains && DomainMatches(w.domains[a.text], account, hostname)
  }

  predicate DomainFree(w: World, account: string, hostname: string) {
    forall id :: id in w.domains ==> !DomainMatches(w.domains[id], account, hostname)
  }

  /** The workers.dev state as `apply_endpoint` sees it. */
  predicate DevSeen(w: World, devReads: Target -> bool, t: Target) {
    devReads(t) && t in w.workers && w.workers[t].workersDev
  }

  /** Some steps make no call, depending on what was read before. */
  predicate Asks(s: State, op: Op, devReads: Target -> bool) {
    match op
    case Refuse => false
    case CreateKv(_) => !s.found
    case UseKv(_) => false
    case StageRelay(_) => false
    case StageSub(_, _) => false
    case SetCron(t) => t in s.crons && s.crons[t] != [REFRESH_CRON]
    case Switch(t, wanted) => DevSeen(s.world, devReads, t) != wanted
    case CheckFree => !s.found
    case Attach(_, _) => !s.found
    case _ => true
  }

  function DidStore(s: State, name: Resource, r: Ref, value: string, d: Disposition, c: Compensation): State {
    Acted(s, s.world.(creds := s.world.creds[r := value]), name, d, c)
  }

  function DidRotate(s: State, r: Ref, value: string): State {
    DidStore(s, TopologyCredential, r, value, Updated,
             if s.topology.Some? then CredentialRestore(r, s.topology.value) else Credential(r))
  }

  function DidCreateKv(s: State, id: string, title: string): State {
    Acted(s, s.world.(kv := s.world.kv[id := title]), KvNamespace(id), Created, Kv(id)).(namespace := id)
  }

  function DidAttach(s: State, id: string, t: Target, hostname: string): State {
    Acted(s, s.world.(domains := s.world.domains[id := Domain(hostname, t)]), CustomDomain(hostname), Created, DetachDomain(id))
  }

  function DidCreate(s: State, t: Target, version: string, enabled: bool): State {
    Acted(s, SetWorker(s.world, t, Worker(Whole(version), [], enabled)), WorkerScript(t.1), Created, DeleteWorker(t))
      .(version := version, uploads := s.uploads + [Uploaded(t, version, s.staged)])
  }

  function DidUpload(s: State, t: Target, version: string): State {
    Note(Tick(s), WorkerVersion(version), Created).(version := version, uploads := s.uploads + [Uploaded(t, version, s.staged)])
  }

  /** `current_stable` as it was read for an update, nothing for a new Worker. */
  function PreviousOf(s: State, t: Target, isUpdate: bool): Option<string> {
    if isUpdate && t in s.stable then s.stable[t] else None
  }

  function DidPromote(s: State, t: Target, isUpdate: bool, id: string): State
    requires t in s.world.workers
  {
    Acted(s, SetWorker(s.world, t, s.world.workers[t].(live := Whole(s.version))), NewDeployment(id),
          if isUpdate then Updated else Created, Deployment(t, PreviousOf(s, t, isUpdate)))
      .(promoted := if t in s.promoted then s.promoted else s.promoted[t := s.version], stable := s.stable - {t})
  }

  function DidSetCron(s: State, t: Target): State
    requires t in s.world.workers && t in s.crons
  {
    Acted(s, SetWorker(s.world, t, s.world.workers[t].(cron := [REFRESH_CRON])), CronTriggers(t.1), Updated,
          CronSchedules(t, s.crons[t]))
      .(crons := s.crons - {t})
  }

  function DidSwitch(s: State, t: Target, seen: bool, wanted: bool): State
    requires t in s.world.workers
  {
    Acted(s, SetWorker(s.world, t, s.world.workers[t].(workersDev := wanted)), WorkersDevFor(t.1), Updated, WorkersDev(t, seen))
      .(switched := s.switched + {t})
  }

  function DidReadStable(s: State, t: Target): State
    requires t in s.world.workers
  {
    Tick(s).(stable := s.stable[t := CurrentStable(s.world.workers[t].live)])
  }

  function DidReadCron(s: State, t: Target): State
    requires t in s.world.workers
  {
    Tick(s).(crons := s.crons[t := s.world.workers[t].cron])
  }

  /** One step, if it succeeds. */
  function Step(s: State, op: Op, env: Outside): Option<State> {
    var a, w, s' := env.answers(s.clock), s.world, Tick(s);
    match op
    case Refuse => None
    case Resolve(r) => if Resolves(w, r, a) then Some(s') else None
    case KeepTopology(r) => if Resolves(w, r, a) then Some(s'.(topology := Some(Resolved(w, r, a)))) else None
    case Store(name, r, v) => if Storable(r, v, a) then Some(DidStore(s, name, r, v, Created, Credential(r))) else None
    case FindKv(title) =>
      if !a.ok then None
      else if KvNamed(w, title, a) then Some(Note(s'.(found := true, namespace := a.text), KvNamespace(a.text), PreExisting))
      else if KvFree(w, title) then Some(s'.(found := false))
      else None
    case CreateKv(title) =>
      if s.found then Some(s) else if !a.ok || a.text in w.kv then None else Some(DidCreateKv(s, a.text, title))
    case UseKv(id) => Some(s.(namespace := id))
    case StageRelay(secret) => Some(s.(staged := RelayMeta(secret)))
    case StageSub(nodes, token) => Some(s.(staged := SubMeta(nodes, token, s.namespace)))
    case ReadStable(t) =>
      if Exists(w, t, a) then Some(DidReadStable(s, t)) else None
    case Create(t) => if a.ok then Some(DidCreate(s, t, a.text, a.enabled)) else None
    case Upload(t) =>
      if Exists(w, t, a) then Some(DidUpload(s, t, a.text)) else None
    case Promote(t, isUpdate) => if Exists(w, t, a) then Some(DidPromote(s, t, isUpdate, a.text)) else None
    case ReadCron(t) => if Exists(w, t, a) then Some(DidReadCron(s, t)) else None
    case SetCron(t) =>
      if t !in s.crons then None
      else if s.crons[t] == [REFRESH_CRON] then Some(s)
      else if Exists(w, t, a) then Some(DidSetCron(s, t))
      else None
    case Switch(t, wanted) =>
      var seen := DevSeen(w, env.devReads, t);
      if seen == wanted then Some(Note(s, WorkersDevFor(t.1), PreExisting))
      else if Exists(w, t, a) then Some(DidSwitch(s, t, seen, wanted))
      else None
    case Check => if a.ok then Some(s') else None
    case FindDomain(t, hostname) =>
      if !a.ok then None
      else if DomainNamed(w, t.0, hostname, a) then
        if w.domains[a.text].service != t then None
        else Some(Note(s'.(found := true), CustomDomain(hostname), PreExisting))
      else if DomainFree(w, t.0, hostname) then Some(s'.(found := false))
      else None
    case CheckFree => if s.found then Some(s) else if a.ok then Some(s') else None
    case Attach(t, hostname) =>
      if s.found then Some(s) else if !a.ok || a.text in w.domains then None else Some(DidAttach(s, a.text, t, hostname))
    case Rotate(r, v) => if Storable(r, v, a) then Some(DidRotate(s, r, v)) else None
  }

  datatype Outcome = Outcome(ok: bool, state: State)

  /** A step that fails leaves everything as it is; the call was made all the same. */
  function Stopped(s: State, op: Op, devReads: Target -> bool): State {
    if Asks(s, op, devReads) then Tick(s) else s
  }

  /** The steps in turn, up to the first that fails. */
  function Run(s: State, ops: seq<Op>, env: Outside): Outcome
    decreases |ops|
  {
    if |ops| == 0 then Outcome(true, s)
    else
      var next := Step(s, ops[0], env);
      if next.None? then Outcome(false, Stopped(s, ops[0], env.devReads)) else Run(next.value, ops[1..], env)
  }

  /** What has become of everything when the last step was made, or one failed. */
  function Deployed(w: World, clock: nat, env: Outside, plan: Plan, nodes: string): Outcome {
    Run(Initial(w, clock), PlanOps(plan, nodes), env)
  }

  lemma {:induction false} RunAppend(s: State, a: seq<Op>, b: seq<Op>, env: Outside)
    ensures
      var o := Run(s, a, env);
      Run(s, a + b, env) == if o.ok then Run(o.state, b, env) else o
    decreases |a|
  {
    if |a| == 0 {
      NilLeft(b);
    } else {
      var next := Step(s, a[0], env);
      assert (a + b)[0] == a[0] && (a + b)[1..] == a[1..] + b;
      if next.Some? {
        RunAppend(next.value, a[1..], b, env);
      }
    }
  }

  lemma RunOne(s: State, op: Op, env: Outside)
    ensures
      var next := Step(s, op, env);
      Run(s, [op], env) == if next.Some? then Outcome(true, next.value) else Outcome(false, Stopped(s, op, env.devReads))
  {
  }

  lemma StepClock(s: State, op: Op, env: Outside)
    ensures
      var next := Step(s, op, env);
      next.Some? ==> next.value.clock == Stopped(s, op, env.devReads).clock
  {
  }

  lemma {:induction false} ClockGrows(s: State, ops: seq<Op>, env: Outside)
    ensures |ops| > 0 ==> Run(s, ops, env).state.clock >= Stopped(s, ops[0], env.devReads).clock
    ensures Run(s, ops, env).state.clock >= s.clock
    decreases |ops|
  {
    if |ops| > 0 {
      var next := Step(s, ops[0], env);
      StepClock(s, ops[0], env);
      if next.Some? {
        ClockGrows(next.value, ops[1..], env);
      }
    }
  }

  lemma StepAgrees(s: State, op: Op, a: Outside, b: Outside)
    requires a.devReads == b.devReads && (Asks(s, op, a.devReads) ==> a.answers(s.clock) == b.answers(s.clock))
    ensures Step(s, op, b) == Step(s, op, a)
  {
  }

  /** A step that only takes notes. */
  predicate Quiet(op: Op) {
    match op
    case Resolve(_) | KeepTopology(_) | FindKv(_) | UseKv(_) | StageRelay(_) | StageSub(_, _) => true
    case Upload(_) | Check | FindDomain(_, _) | CheckFree => true
    case _ => false
  }

  lemma QuietStep(env: Outside, s: State, op: Op)
    requires Quiet(op) && Step(s, op, env).Some?
    ensures
      var s' := Step(s, op, env).value;
      && s'.world == s.world && s'.compensations == s.compensations && s'.promoted == s.promoted && s'.switched == s.switched
      && s'.stable == s.stable && s'.crons == s.crons && (!op.Upload? ==> s'.uploads == s.uploads)
  {
  }

  /** A run depends on the answers to the calls it makes, and on no others. */
  lemma {:induction false} RunAgrees(s: State, ops: seq<Op>, a: Outside, b: Outside)
    requires a.devReads == b.devReads
    requires forall k :: s.clock <= k < Run(s, ops, a).state.clock ==> a.answers(k) == b.answers(k)
    ensures Run(s, ops, b) == Run(s, ops, a)
    decreases |ops|
  {
    if |ops| > 0 {
      var next := Step(s, ops[0], a);
      ClockGrows(s, ops, a);
      StepAgrees(s, ops[0], a, b);
      if next.Some? {
        StepClock(s, ops[0], a);
        RunAgrees(next.value, ops[1..], a, b);
      }
    }
  }
}
