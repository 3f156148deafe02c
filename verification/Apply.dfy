/** The apply functions of `core/src/deploy.rs` on the remote side and the transaction. Each
    runs its list of steps; if it succeeds its target is as specified, and it touches no other;
    if the whole fails it is rolled back. */
module Apply {
  import opened Bytes
  import opened Saga
  import opened Steps
  import opened Rollback
  import opened Programs
  import opened Restoration
  import opened Deploy
  import opened Releases
  import opened Feasible
  import Journal

  // ---------------------------------------------------------------- refinement

  /** The world and the transaction are those of `s`. */
  ghost predicate At(s: State, remote: Remote, tx: Transaction)
    reads remote, tx
  {
    && s.world == remote.world && s.clock == remote.clock && remote.uploads == tx.before + s.uploads
    && s.records == tx.records && s.compensations == tx.compensations
  }

  /** From `s` these steps were run, with this outcome. */
  ghost predicate Did(s: State, ops: seq<Op>, ok: bool, remote: Remote, tx: Transaction)
    reads remote, tx
  {
    var o := Run(s, ops, remote.env);
    o.ok == ok && At(o.state, remote, tx)
  }

  function Then(s: State, ops: seq<Op>, env: Outside): State {
    Run(s, ops, env).state
  }

  /** One step, taken or not. */
  lemma DidOne(s: State, op: Op, ok: bool, remote: Remote, tx: Transaction)
    requires ok == Step(s, op, remote.env).Some?
    requires At(if ok then Step(s, op, remote.env).value else Stopped(s, op, remote.env.devReads), remote, tx)
    ensures Did(s, [op], ok, remote, tx)
  {
    RunOne(s, op, remote.env);
  }

  /** Further steps behind those that worked. */
  lemma DidMore(s: State, a: seq<Op>, b: seq<Op>, ok: bool, remote: Remote, tx: Transaction)
    requires Run(s, a, remote.env).ok && Did(Then(s, a, remote.env), b, ok, remote, tx)
    ensures Did(s, a + b, ok, remote, tx)
  {
    RunAppend(s, a, b, remote.env);
  }

  /** Behind a step that failed none is taken. */
  lemma DidFail(s: State, a: seq<Op>, b: seq<Op>, remote: Remote, tx: Transaction)
    requires Did(s, a, false, remote, tx)
    ensures Did(s, a + b, false, remote, tx)
  {
    RunAppend(s, a, b, remote.env);
  }

  /** Nor any further ones. */
  lemma DidFailTwice(s: State, a: seq<Op>, b: seq<Op>, c: seq<Op>, remote: Remote, tx: Transaction)
    requires Did(s, a, false, remote, tx)
    ensures Did(s, a + b + c, false, remote, tx)
  {
    DidFail(s, a, b, remote, tx);
    DidFail(s, a + b, c, remote, tx);
  }

  lemma DidNothing(s: State, remote: Remote, tx: Transaction)
    requires At(s, remote, tx)
    ensures Did(s, [], true, remote, tx)
  {
  }

  // ---------------------------------------------------------------- what one target may touch

  ghost predicate Attached(w: World, d: Domain) {
    d in w.domains.Values
  }

  /** From `w` to `w'`, other Workers and other credentials are as they were, and no domain was
      detached. */
  ghost predicate Only(w: World, w': World, t: Target, refs: set<Ref>) {
    && (forall u: Target :: u != t ==> (u in w'.workers <==> u in w.workers))
    && (forall u: Target :: u != t && u in w.workers ==> w'.workers[u] == w.workers[u])
    && (forall r: Ref :: r !in refs ==> (r in w'.creds <==> r in w.creds))
    && (forall r: Ref :: r !in refs && r in w.creds ==> w'.creds[r] == w.creds[r])
    && (forall d: Domain :: Attached(w, d) ==> Attached(w', d))
  }

  lemma OnlyWorker(w: World, t: Target, s: Worker)
    ensures Only(w, SetWorker(w, t, s), t, {})
  {
  }

  lemma OnlyKv(w: World, w': World, t: Target)
    requires w' == w.(kv := w'.kv)
    ensures Only(w, w', t, {})
  {
  }

  lemma OnlyCredential(w: World, t: Target, r: Ref, value: string, refs: set<Ref>)
    requires r in refs
    ensures Only(w, w.(creds := w.creds[r := value]), t, refs)
  {
  }

  lemma OnlyTwice(a: World, b: World, c: World, t: Target, refs: set<Ref>)
    requires
      || (Only(a, b, t, refs) && Only(b, c, t, {}))
      || (Only(a, b, t, {}) && Only(b, c, t, refs))
      || (Only(a, b, t, refs) && Only(b, c, t, refs))
    ensures Only(a, c, t, refs)
  {
  }

  // ---------------------------------------------------------------- steps shared by both roles

  method StoreNew(remote: Remote, tx: Transaction, ghost s: State, name: Resource, r: Ref, value: string)
      returns (ok: bool)
    requires At(s, remote, tx)
    modifies remote, tx
    ensures Did(s, [Store(name, r, value)], ok, remote, tx)
    ensures remote.world == if ok then old(remote.world).(creds := old(remote.world.creds)[r := value]) else old(remote.world)
  {
    ok := remote.StoreVerified(r, value);
    if ok {
      tx.Record(name, Created, Some(Credential(r)));
    }
    DidOne(s, Store(name, r, value), ok, remote, tx);
  }

  /** Two secrets of a new deployment. */
  method StoreBoth(remote: Remote, tx: Transaction, ghost s: State, a: (Resource, Ref, string),
                   b: (Resource, Ref, string))
      returns (ok: bool)
    requires At(s, remote, tx) && a.1 != b.1
    modifies remote, tx
    ensures Did(s, [Store(a.0, a.1, a.2), Store(b.0, b.1, b.2)], ok, remote, tx)
    ensures remote.world == old(remote.world).(creds := remote.world.creds)
    ensures forall r :: r != a.1 && r != b.1 ==> (r in remote.world.creds <==> r in old(remote.world.creds))
    ensures forall r :: r != a.1 && r != b.1 && r in remote.world.creds ==> remote.world.creds[r] == old(remote.world.creds)[r]
    ensures ok ==> Holds(remote.world, a.1, a.2) && Holds(remote.world, b.1, b.2)
  {
    ghost var first, second := [Store(a.0, a.1, a.2)], [Store(b.0, b.1, b.2)];
    assert first + second == [Store(a.0, a.1, a.2), Store(b.0, b.1, b.2)];
    ok := StoreNew(remote, tx, s, a.0, a.1, a.2);
    if !ok {
      DidFail(s, first, second, remote, tx);
      return;
    }
    ok := StoreNew(remote, tx, Then(s, first, remote.env), b.0, b.1, b.2);
    DidMore(s, first, second, ok, remote, tx);
  }

  predicate Holds(w: World, r: Ref, value: string) {
    r in w.creds && w.creds[r] == value
  }

  /** A new version of an old Worker, whose live version is read before. */
  method UploadUpdate(remote: Remote, tx: Transaction, ghost s: State, t: Target, meta: Metadata)
      returns (version: Option<string>, previous: Option<string>)
    requires At(s, remote, tx) && s.staged == meta
    modifies remote, tx
    ensures Did(s, UploadOps(t, true), version.Some?, remote, tx) && remote.world == old(remote.world)
    ensures
      var s' := Then(s, UploadOps(t, true), remote.env);
      version.Some? ==> t in remote.world.workers && s'.version == version.value && PreviousOf(s', t, true) == previous
  {
    ghost var first, second := [ReadStable(t)], [Upload(t)];
    assert first + second == UploadOps(t, true);
    var read;
    read, previous := remote.ReadStable(t);
    DidOne(s, ReadStable(t), read, remote, tx);
    if !read {
      DidFail(s, first, second, remote, tx);
      return None, None;
    }
    ghost var s' := Then(s, first, remote.env);
    RunOne(s, ReadStable(t), remote.env);
    version := UploadInert(remote, tx, s', t, meta);
    DidMore(s, first, second, version.Some?, remote, tx);
    RunAppend(s, first, second, remote.env);
  }

  method UploadInert(remote: Remote, tx: Transaction, ghost s: State, t: Target, meta: Metadata)
      returns (version: Option<string>)
    requires At(s, remote, tx) && s.staged == meta
    modifies remote, tx
    ensures Did(s, [Upload(t)], version.Some?, remote, tx) && remote.world == old(remote.world)
    ensures
      var s' := Then(s, [Upload(t)], remote.env);
      version.Some? ==> t in remote.world.workers && s'.version == version.value && s'.stable == s.stable
  {
    version := remote.UploadVersion(t, meta);
    if version.Some? {
      tx.Record(WorkerVersion(version.value), Created, None);
      Assoc(tx.before, s.uploads, [Uploaded(t, version.value, meta)]);
    }
    DidOne(s, Upload(t), version.Some?, remote, tx);
    RunOne(s, Upload(t), remote.env);
  }

  method UploadNew(remote: Remote, tx: Transaction, ghost s: State, t: Target, meta: Metadata)
      returns (version: Option<string>)
    requires At(s, remote, tx) && s.staged == meta
    modifies remote, tx
    ensures Did(s, UploadOps(t, false), version.Some?, remote, tx) && Only(old(remote.world), remote.world, t, {})
    ensures
      var s' := Then(s, UploadOps(t, false), remote.env);
      version.Some? ==> t in remote.world.workers && s'.version == version.value && PreviousOf(s', t, false) == None
  {
    version := remote.CreateWorker(t, meta);
    if version.Some? {
      OnlyWorker(old(remote.world), t, remote.world.workers[t]);
      tx.Record(WorkerScript(t.1), Created, Some(DeleteWorker(t)));
      Assoc(tx.before, s.uploads, [Uploaded(t, version.value, meta)]);
    }
    DidOne(s, Create(t), version.Some?, remote, tx);
    RunOne(s, Create(t), remote.env);
  }

  method PromoteVersion(remote: Remote, tx: Transaction, ghost s: State, t: Target, version: string,
                        previous: Option<string>,
                        isUpdate: bool) returns (ok: bool)
    requires At(s, remote, tx) && s.version == version && PreviousOf(s, t, isUpdate) == previous
    modifies remote, tx
    ensures Did(s, [Promote(t, isUpdate)], ok, remote, tx) && Only(old(remote.world), remote.world, t, {})
    ensures ok ==> t in remote.world.workers && remote.world.workers[t].live == Whole(version)
  {
    var id := remote.CreateDeployment(t, version);
    if id.Some? {
      OnlyWorker(old(remote.world), t, remote.world.workers[t]);
      tx.Record(NewDeployment(id.value), if isUpdate then Updated else Created, Some(Deployment(t, previous)));
    }
    ok := id.Some?;
    DidOne(s, Promote(t, isUpdate), ok, remote, tx);
  }

  /** Other Workers and everything else are as they were, and so is the traffic of this one. */
  ghost predicate SameTraffic(w: World, w': World, t: Target) {
    Only(w, w', t, {}) && (t in w.workers ==> t in w'.workers && w'.workers[t].live == w.workers[t].live)
  }

  /** Setting the schedules, unless they are as wanted. */
  method UpdateCron(remote: Remote, tx: Transaction, ghost s: State, t: Target, previous: seq<string>)
      returns (ok: bool)
    requires At(s, remote, tx) && t in s.crons && previous == s.crons[t]
    requires t in remote.world.workers && previous == remote.world.workers[t].cron
    modifies remote, tx
    ensures Did(s, [SetCron(t)], ok, remote, tx) && SameTraffic(old(remote.world), remote.world, t)
    ensures ok ==> t in remote.world.workers && remote.world.workers[t].cron == [REFRESH_CRON]
  {
    if previous == [REFRESH_CRON] {
      DidOne(s, SetCron(t), true, remote, tx);
      return true;
    }
    ok := remote.SetCron(t, [REFRESH_CRON]);
    if ok {
      OnlyWorker(old(remote.world), t, remote.world.workers[t]);
      tx.Record(CronTriggers(t.1), Updated, Some(CronSchedules(t, previous)));
    }
    DidOne(s, SetCron(t), ok, remote, tx);
  }

  method ScheduleRefresh(remote: Remote, tx: Transaction, ghost s: State, t: Target) returns (ok: bool)
    requires At(s, remote, tx)
    modifies remote, tx
    ensures Did(s, CronOps(t, true), ok, remote, tx) && SameTraffic(old(remote.world), remote.world, t)
    ensures ok ==> t in remote.world.workers && remote.world.workers[t].cron == [REFRESH_CRON]
  {
    ghost var first, second := [ReadCron(t)], [SetCron(t)];
    assert first + second == CronOps(t, true);
    var previous := remote.GetCron(t);
    DidOne(s, ReadCron(t), previous.Some?, remote, tx);
    if previous.None? {
      DidFail(s, first, second, remote, tx);
      return false;
    }
    ghost var s' := Then(s, first, remote.env);
    RunOne(s, ReadCron(t), remote.env);
    ok := UpdateCron(remote, tx, s', t, previous.value);
    DidMore(s, first, second, ok, remote, tx);
  }

  /** Traffic and schedules of `t` are as before. */
  ghost predicate SameRelease(w: World, w': World, t: Target) {
    && Only(w, w', t, {})
    && (t in w.workers ==> t in w'.workers && w'.workers[t].live == w.workers[t].live && w'.workers[t].cron == w.workers[t].cron)
  }

  /** The switch itself, when the state seen is not the one wanted. */
  method SetWorkersDev(remote: Remote, tx: Transaction, ghost s: State, t: Target, previous: bool, wanted: bool)
      returns (ok: bool)
    requires At(s, remote, tx) && previous == DevSeen(remote.world, remote.env.devReads, t) != wanted
    modifies remote, tx
    ensures Did(s, [Switch(t, wanted)], ok, remote, tx) && SameRelease(old(remote.world), remote.world, t)
    ensures ok ==> t in remote.world.workers && remote.world.workers[t].workersDev == wanted
  {
    ok := remote.SetWorkersDev(t, wanted);
    if ok {
      OnlyWorker(old(remote.world), t, remote.world.workers[t]);
      tx.Record(WorkersDevFor(t.1), Updated, Some(WorkersDev(t, previous)));
    }
    DidOne(s, Switch(t, wanted), ok, remote, tx);
  }

  method SwitchWorkersDev(remote: Remote, tx: Transaction, ghost s: State, t: Target, wanted: bool) returns (ok: bool)
    requires At(s, remote, tx)
    modifies remote, tx
    ensures Did(s, [Switch(t, wanted)], ok, remote, tx) && SameRelease(old(remote.world), remote.world, t)
    ensures ok && remote.env.devReads(t) && t in remote.world.workers ==> remote.world.workers[t].workersDev == wanted
  {
    var previous := remote.GetWorkersDev(t);
    if previous == wanted {
      tx.Record(WorkersDevFor(t.1), PreExisting, None);
      DidOne(s, Switch(t, wanted), true, remote, tx);
      return true;
    }
    ok := SetWorkersDev(remote, tx, s, t, previous, wanted);
  }

  method Verify(remote: Remote, tx: Transaction, ghost s: State) returns (ok: bool)
    requires At(s, remote, tx)
    modifies remote`clock
    ensures Did(s, [Check], ok, remote, tx)
  {
    ok := remote.Check();
    DidOne(s, Check, ok, remote, tx);
  }

  /** The listing of Custom Domains: whether this one is attached to `t`. */
  method LookUpDomain(remote: Remote, tx: Transaction, ghost s: State, t: Target, hostname: string)
      returns (ok: bool, found: bool)
    requires At(s, remote, tx)
    modifies remote`clock, tx
    ensures Did(s, [FindDomain(t, hostname)], ok, remote, tx)
    ensures ok ==> found == Then(s, [FindDomain(t, hostname)], remote.env).found
    ensures ok && found ==> Attached(remote.world, Domain(hostname, t))
  {
    var listed, existing := remote.FindDomain(t.0, hostname);
    ok, found := listed && (existing.Some? ==> existing.value.service == t), existing.Some?;
    if ok && found {
      tx.Record(CustomDomain(hostname), PreExisting, None);
      assert existing.value == Domain(hostname, t);
    }
    DidOne(s, FindDomain(t, hostname), ok, remote, tx);
    RunOne(s, FindDomain(t, hostname), remote.env);
  }

  /** Attaching, unless it is attached already. */
  method AttachUnlessFound(remote: Remote, tx: Transaction, ghost s: State, t: Target, hostname: string, found: bool)
      returns (ok: bool)
    requires At(s, remote, tx) && s.found == found && (found ==> Attached(remote.world, Domain(hostname, t)))
    modifies remote, tx
    ensures Did(s, [CheckFree, Attach(t, hostname)], ok, remote, tx)
    ensures remote.world == old(remote.world).(domains := remote.world.domains) && Only(old(remote.world), remote.world, t, {})
    ensures ok ==> Attached(remote.world, Domain(hostname, t))
  {
    ghost var first, second := [CheckFree], [Attach(t, hostname)];
    assert first + second == [CheckFree, Attach(t, hostname)];
    ok := CheckUnlessFound(remote, tx, s, found);
    if !ok {
      DidFail(s, first, second, remote, tx);
      return;
    }
    ok := AttachNow(remote, tx, Then(s, first, remote.env), t, hostname, found);
    DidMore(s, first, second, ok, remote, tx);
  }

  method CheckUnlessFound(remote: Remote, tx: Transaction, ghost s: State, found: bool) returns (free: bool)
    requires At(s, remote, tx) && s.found == found
    modifies remote`clock
    ensures Did(s, [CheckFree], free, remote, tx) && Then(s, [CheckFree], remote.env).found == found
  {
    free := true;
    if !found {
      free := remote.Check();
    }
    DidOne(s, CheckFree, free, remote, tx);
    RunOne(s, CheckFree, remote.env);
  }

  method AttachNow(remote: Remote, tx: Transaction, ghost s: State, t: Target, hostname: string, found: bool)
      returns (ok: bool)
    requires At(s, remote, tx) && s.found == found && (found ==> Attached(remote.world, Domain(hostname, t)))
    modifies remote, tx
    ensures Did(s, [Attach(t, hostname)], ok, remote, tx)
    ensures remote.world == old(remote.world).(domains := remote.world.domains) && Only(old(remote.world), remote.world, t, {})
    ensures ok ==> Attached(remote.world, Domain(hostname, t))
  {
    ok := true;
    if !found {
      var id := remote.AttachDomain(t, hostname);
      ok := id.Some?;
      if ok {
        DomainsStay(old(remote.world), id.value, Domain(hostname, t));
        tx.Record(CustomDomain(hostname), Created, Some(DetachDomain(id.value)));
      }
    }
    DidOne(s, Attach(t, hostname), ok, remote, tx);
  }

  lemma DomainsStay(w: World, id: string, d: Domain)
    requires id !in w.domains
    ensures
      var w' := w.(domains := w.domains[id := d]);
      Attached(w', d) && forall e :: Attached(w, e) ==> Attached(w', e)
  {
    var m := w.domains[id := d];
    assert m[id] == d;
    forall e | Attached(w, e) ensures e in m.Values {
      var k :| k in w.domains && w.domains[k] == e;
      assert k in m && m[k] == e;
    }
  }

  method BindDomain(remote: Remote, tx: Transaction, ghost s: State, t: Target, hostname: string) returns (ok: bool)
    requires At(s, remote, tx)
    modifies remote, tx
    ensures Did(s, BindOps(t, hostname), ok, remote, tx)
    ensures remote.world == old(remote.world).(domains := remote.world.domains) && Only(old(remote.world), remote.world, t, {})
    ensures ok ==> Attached(remote.world, Domain(hostname, t))
  {
    ghost var zone, list, attach := [Check], [FindDomain(t, hostname)], [CheckFree, Attach(t, hostname)];
    assert zone + (list + attach) == BindOps(t, hostname);
    ok := Verify(remote, tx, s);
    if !ok {
      DidFail(s, zone, list + attach, remote, tx);
      return;
    }
    ghost var s1 := Then(s, zone, remote.env);
    var found;
    ok, found := LookUpDomain(remote, tx, s1, t, hostname);
    if !ok {
      DidFail(s1, list, attach, remote, tx);
      DidMore(s, zone, list + attach, false, remote, tx);
      return;
    }
    ok := AttachUnlessFound(remote, tx, Then(s1, list, remote.env), t, hostname, found);
    DidMore(s1, list, attach, ok, remote, tx);
    DidMore(s, zone, list + attach, ok, remote, tx);
  }

  // ---------------------------------------------------------------- the endpoint

  method ReadSubdomain(remote: Remote, tx: Transaction, ghost s: State, spec: EndpointSpec) returns (ok: bool)
    requires At(s, remote, tx)
    modifies remote`clock
    ensures Did(s, SubdomainOps(spec), ok, remote, tx)
  {
    if spec.workersDev && spec.subdomain.None? {
      ok := Verify(remote, tx, s);
    } else {
      DidNothing(s, remote, tx);
      ok := true;
    }
  }

  method BindIfAsked(remote: Remote, tx: Transaction, ghost s: State, t: Target, spec: EndpointSpec) returns (ok: bool)
    requires At(s, remote, tx)
    modifies remote, tx
    ensures Did(s, DomainOps(t, spec), ok, remote, tx)
    ensures remote.world == old(remote.world).(domains := remote.world.domains) && Only(old(remote.world), remote.world, t, {})
    ensures ok && spec.customDomain.Some? ==> Attached(remote.world, Domain(spec.customDomain.value, t))
  {
    if spec.customDomain.Some? {
      ok := BindDomain(remote, tx, s, t, spec.customDomain.value);
    } else {
      DidNothing(s, remote, tx);
      ok := true;
    }
  }

  /** The endpoint is as specified: the domain is attached, and workers.dev is switched as
      wanted if its state could be read. */
  ghost predicate Exposed(w: World, t: Target, spec: EndpointSpec, readable: bool) {
    && t in w.workers && (readable ==> w.workers[t].workersDev == spec.workersDev)
    && (spec.customDomain.Some? ==> Attached(w, Domain(spec.customDomain.value, t)))
  }

  /** `apply_endpoint` */
  method ApplyEndpoint(remote: Remote, tx: Transaction, ghost s: State, t: Target, spec: EndpointSpec)
      returns (ok: bool)
    requires At(s, remote, tx)
    modifies remote, tx
    ensures Did(s, EndpointOps(t, spec), ok, remote, tx) && SameRelease(old(remote.world), remote.world, t)
    ensures ok && t in remote.world.workers ==> Exposed(remote.world, t, spec, remote.env.devReads(t))
  {
    ghost var env, sw, sub, dom := remote.env, [Switch(t, spec.workersDev)], SubdomainOps(spec), DomainOps(t, spec);
    ok := SwitchWorkersDev(remote, tx, s, t, spec.workersDev);
    if !ok {
      DidFailTwice(s, sw, sub, dom, remote, tx);
      DidFail(s, sw + sub + dom, [Check], remote, tx);
      return;
    }
    ok := ReadSubdomain(remote, tx, Then(s, sw, env), spec);
    DidMore(s, sw, sub, ok, remote, tx);
    if !ok {
      DidFailTwice(s, sw + sub, dom, [Check], remote, tx);
      return;
    }
    ok := BindIfAsked(remote, tx, Then(s, sw + sub, env), t, spec);
    DidMore(s, sw + sub, dom, ok, remote, tx);
    if !ok {
      DidFail(s, sw + sub + dom, [Check], remote, tx);
      return;
    }
    ok := Verify(remote, tx, Then(s, sw + sub + dom, env));
    DidMore(s, sw + sub + dom, [Check], ok, remote, tx);
  }

  // ---------------------------------------------------------------- releasing a Worker

  method UploadAndPromote(remote: Remote, tx: Transaction, ghost s: State, t: Target, isUpdate: bool, meta: Metadata)
      returns (ok: bool)
    requires At(s, remote, tx) && s.staged == meta
    modifies remote, tx
    ensures Did(s, UploadOps(t, isUpdate) + [Promote(t, isUpdate)], ok, remote, tx)
    ensures Only(old(remote.world), remote.world, t, {})
    ensures ok ==> t in remote.world.workers && remote.world.workers[t].live.Whole?
  {
    var version, previous := None, None;
    if isUpdate {
      version, previous := UploadUpdate(remote, tx, s, t, meta);
    } else {
      version := UploadNew(remote, tx, s, t, meta);
    }
    if version.None? {
      DidFail(s, UploadOps(t, isUpdate), [Promote(t, isUpdate)], remote, tx);
      return false;
    }
    ghost var s' := Then(s, UploadOps(t, isUpdate), remote.env);
    ok := PromoteVersion(remote, tx, s', t, version.value, previous, isUpdate);
    DidMore(s, UploadOps(t, isUpdate), [Promote(t, isUpdate)], ok, remote, tx);
  }

  method ScheduleIfAsked(remote: Remote, tx: Transaction, ghost s: State, t: Target, cron: bool) returns (ok: bool)
    requires At(s, remote, tx)
    modifies remote, tx
    ensures Did(s, CronOps(t, cron), ok, remote, tx) && SameTraffic(old(remote.world), remote.world, t)
    ensures ok && cron ==> t in remote.world.workers && remote.world.workers[t].cron == [REFRESH_CRON]
  {
    if cron {
      ok := ScheduleRefresh(remote, tx, s, t);
    } else {
      DidNothing(s, remote, tx);
      ok := true;
    }
  }

  /** One version has all the traffic, and the endpoint is as specified. */
  ghost predicate Released(w: World, t: Target, spec: EndpointSpec, readable: bool) {
    Exposed(w, t, spec, readable) && w.workers[t].live.Whole?
  }

  /** Upload, promote, and schedule if asked to. */
  method PromoteAndSchedule(remote: Remote, tx: Transaction, ghost s: State, t: Target, isUpdate: bool, cron: bool,
                            meta: Metadata)
      returns (ok: bool)
    requires At(s, remote, tx) && s.staged == meta
    modifies remote, tx
    ensures Did(s, UploadOps(t, isUpdate) + [Promote(t, isUpdate)] + CronOps(t, cron), ok, remote, tx)
    ensures Only(old(remote.world), remote.world, t, {})
    ensures ok ==> t in remote.world.workers && remote.world.workers[t].live.Whole?
    ensures ok && cron ==> remote.world.workers[t].cron == [REFRESH_CRON]
  {
    ghost var up := UploadOps(t, isUpdate) + [Promote(t, isUpdate)];
    ok := UploadAndPromote(remote, tx, s, t, isUpdate, meta);
    if !ok {
      DidFail(s, up, CronOps(t, cron), remote, tx);
      return;
    }
    ghost var w := remote.world;
    ok := ScheduleIfAsked(remote, tx, Then(s, up, remote.env), t, cron);
    DidMore(s, up, CronOps(t, cron), ok, remote, tx);
    OnlyTwice(old(remote.world), w, remote.world, t, {});
  }

  /** Then expose and verify. */
  method Release(remote: Remote, tx: Transaction, ghost s: State, t: Target, spec: EndpointSpec, isUpdate: bool,
                 cron: bool, meta: Metadata)
      returns (ok: bool)
    requires At(s, remote, tx) && s.staged == meta
    modifies remote, tx
    ensures Did(s, ReleaseOps(t, spec, isUpdate, cron), ok, remote, tx) && Only(old(remote.world), remote.world, t, {})
    ensures ok ==>
      Released(remote.world, t, spec, remote.env.devReads(t)) && (cron ==> remote.world.workers[t].cron == [REFRESH_CRON])
  {
    ghost var up, ep := UploadOps(t, isUpdate) + [Promote(t, isUpdate)] + CronOps(t, cron), EndpointOps(t, spec);
    ok := PromoteAndSchedule(remote, tx, s, t, isUpdate, cron, meta);
    if !ok {
      DidFailTwice(s, up, ep, [Check], remote, tx);
      return;
    }
    ghost var w := remote.world;
    ok := ApplyEndpoint(remote, tx, Then(s, up, remote.env), t, spec);
    DidMore(s, up, ep, ok, remote, tx);
    OnlyTwice(old(remote.world), w, remote.world, t, {});
    if !ok {
      DidFail(s, up + ep, [Check], remote, tx);
      return;
    }
    ok := Verify(remote, tx, Then(s, up + ep, remote.env));
    DidMore(s, up + ep, [Check], ok, remote, tx);
  }

  // ---------------------------------------------------------------- what was uploaded

  /** One upload more, to the target and of this metadata, and its version is live. */
  ghost predicate NewVersion(before: seq<Uploaded>, after: seq<Uploaded>, w: World, t: Target, meta: Metadata) {
    && |after| == |before| + 1 && after[..|before|] == before
    && after[|before|].target == t && after[|before|].meta == meta && LiveAt(w, t) == Some(Whole(after[|before|].version))
  }

  lemma NewVersionBehind(prior: seq<Uploaded>, s: State, s': State, t: Target, meta: Metadata)
    requires Launched(s, s', t, meta)
    ensures NewVersion(prior + s.uploads, prior + s'.uploads, s'.world, t, meta)
    ensures (prior + s'.uploads)[|prior + s.uploads|] == s'.uploads[|s.uploads|]
  {
    assert s'.uploads == s.uploads + s'.uploads[|s.uploads|..];
    Assoc(prior, s.uploads, s'.uploads[|s.uploads|..]);
  }

  // ---------------------------------------------------------------- relays

  /** A relay is released, and a new one has both its secrets stored. */
  ghost predicate RelayDone(w: World, devReads: Target -> bool, spec: RelaySpec) {
    && Released(w, spec.target, spec.endpoint, devReads(spec.target))
    && (spec.origin.NewRelay? ==>
          Holds(w, WorkerSecret(spec.origin.id), spec.origin.workerValue)
          && Holds(w, NodeSecret(spec.origin.id), spec.origin.nodeValue))
  }

  method RelaySecrets(remote: Remote, tx: Transaction, ghost s: State, spec: RelaySpec) returns (ok: bool)
    requires At(s, remote, tx)
    modifies remote, tx
    ensures Did(s, RelaySecretOps(spec.origin), ok, remote, tx)
    ensures Only(old(remote.world), remote.world, spec.target, RelayRefs(spec))
    ensures ok && spec.origin.NewRelay? ==>
      Holds(remote.world, WorkerSecret(spec.origin.id), spec.origin.workerValue)
      && Holds(remote.world, NodeSecret(spec.origin.id), spec.origin.nodeValue)
  {
    match spec.origin
    case NewRelay(id, worker, node) =>
      assert WorkerSecret(id).path[2] != NodeSecret(id).path[2];
      ok := StoreBoth(remote, tx, s, (RelayWorkerCredential, WorkerSecret(id), worker), (RelayNodeCredential, NodeSecret(id), node));
    case LinkedRelay(None) =>
      ok := false;
      DidOne(s, Refuse, false, remote, tx);
    case LinkedRelay(Some(r)) =>
      var secret := remote.Resolve(r);
      ok := secret.Some?;
      DidOne(s, Resolve(r), ok, remote, tx);
  }

  /** `apply_relay` */
  method ApplyRelay(remote: Remote, tx: Transaction, ghost s: State, spec: RelaySpec) returns (ok: bool)
    requires At(s, remote, tx)
    modifies remote, tx
    ensures Did(s, RelayOps(spec), ok, remote, tx)
    ensures Only(old(remote.world), remote.world, spec.target, RelayRefs(spec))
    ensures ok ==> RelayDone(remote.world, remote.env.devReads, spec)
    ensures ok ==> NewVersion(old(remote.uploads), remote.uploads, remote.world, spec.target, RelayMetadata(spec))
  {
    ghost var secrets, stage := RelaySecretOps(spec.origin), [RelayStage(spec.origin)];
    ghost var release := ReleaseOps(spec.target, spec.endpoint, spec.origin.LinkedRelay?, false);
    ok := RelaySecrets(remote, tx, s, spec);
    if !ok {
      DidFailTwice(s, secrets, stage, release, remote, tx);
      return;
    }
    var meta := RelayMeta(if spec.origin.NewRelay? then Some(spec.origin.workerValue) else None);
    DidOne(Then(s, secrets, remote.env), stage[0], true, remote, tx);
    DidMore(s, secrets, stage, true, remote, tx);
    RunAppend(s, secrets, stage, remote.env);
    ghost var w := remote.world;
    ok := Release(remote, tx, Then(s, secrets + stage, remote.env), spec.target, spec.endpoint, spec.origin.LinkedRelay?, false, meta);
    DidMore(s, secrets + stage, release, ok, remote, tx);
    OnlyTwice(old(remote.world), w, remote.world, spec.target, RelayRefs(spec));
    if ok {
      RelayRuns(s, spec, remote.env);
      NewVersionBehind(tx.before, s, Then(s, RelayOps(spec), remote.env), spec.target, RelayMetadata(spec));
    }
  }

  // ---------------------------------------------------------------- the subscription Worker

  /** The subscription Worker is released and scheduled, and holds the new topology. */
  ghost predicate SubDone(w: World, devReads: Target -> bool, spec: SubSpec, nodes: string) {
    && Released(w, spec.target, spec.endpoint, devReads(spec.target))
    && w.workers[spec.target].cron == [REFRESH_CRON]
    && Holds(w, TopologyRef(spec.origin), nodes)
    && (spec.origin.NewSub? ==> Holds(w, TokenSecret(spec.origin.id), spec.origin.tokenValue))
  }

  /** The KV namespace of a new subscription Worker: the one of that title, or a new one. */
  method FindOrCreateKv(remote: Remote, tx: Transaction, ghost s: State, title: string)
      returns (namespace: Option<string>)
    requires At(s, remote, tx)
    modifies remote, tx
    ensures Did(s, [FindKv(title), CreateKv(title)], namespace.Some?, remote, tx)
    ensures namespace.Some? ==> Then(s, [FindKv(title), CreateKv(title)], remote.env).namespace == namespace.value
    ensures remote.world == old(remote.world).(kv := remote.world.kv)
  {
    ghost var first, second := [FindKv(title)], [CreateKv(title)];
    assert first + second == [FindKv(title), CreateKv(title)];
    var ok;
    ok, namespace := remote.FindKv(title);
    if namespace.Some? {
      tx.Record(KvNamespace(namespace.value), PreExisting, None);
    }
    DidOne(s, FindKv(title), ok, remote, tx);
    if !ok {
      DidFail(s, first, second, remote, tx);
      return;
    }
    ghost var s' := Then(s, first, remote.env);
    assert s'.found == namespace.Some? && (namespace.Some? ==> s'.namespace == namespace.value) by {
      RunOne(s, FindKv(title), remote.env);
    }
    if namespace.None? {
      namespace := remote.CreateKv(title);
      if namespace.Some? {
        tx.Record(KvNamespace(namespace.value), Created, Some(Kv(namespace.value)));
      }
    }
    DidOne(s', CreateKv(title), namespace.Some?, remote, tx);
    DidMore(s, first, second, namespace.Some?, remote, tx);
    RunAppend(s, first, second, remote.env);
    RunOne(s', CreateKv(title), remote.env);
  }

  method PrepareKv(remote: Remote, tx: Transaction, ghost s: State, spec: SubSpec) returns (namespace: Option<string>)
    requires At(s, remote, tx)
    modifies remote, tx
    ensures Did(s, KvOps(spec), namespace.Some?, remote, tx)
    ensures namespace.Some? ==> Then(s, KvOps(spec), remote.env).namespace == namespace.value
    ensures remote.world == old(remote.world).(kv := remote.world.kv)
  {
    match spec.origin
    case NewSub(_, _) =>
      namespace := FindOrCreateKv(remote, tx, s, spec.kvTitle);
    case LinkedSub(_, _, None) =>
      namespace := None;
      DidOne(s, Refuse, false, remote, tx);
    case LinkedSub(_, _, Some(details)) =>
      namespace := Some(details.0);
      DidOne(s, UseKv(details.0), true, remote, tx);
      RunOne(s, UseKv(details.0), remote.env);
  }

  /** The topology a linked subscription Worker has now, if it is in the keyring. */
  method ReadTopology(remote: Remote, tx: Transaction, ghost s: State, secret: Ref)
      returns (ok: bool, previous: Option<string>)
    requires At(s, remote, tx) && s.topology == None
    modifies remote`clock
    ensures
      var ops := if secret.Keyring? then [KeepTopology(secret)] else [];
      Did(s, ops, ok, remote, tx) && (ok ==> previous == Then(s, ops, remote.env).topology)
  {
    if secret.Env? {
      DidNothing(s, remote, tx);
      return true, None;
    }
    previous := remote.Resolve(secret);
    ok := previous.Some?;
    DidOne(s, KeepTopology(secret), ok, remote, tx);
    RunOne(s, KeepTopology(secret), remote.env);
  }

  // ---------------------------------------------------------------- the topology that was read

  predicate ReadsNoTopology(ops: seq<Op>) {
    forall i :: 0 <= i < |ops| ==> !ops[i].KeepTopology?
  }

  lemma StepTopology(s: State, op: Op, env: Outside)
    requires Step(s, op, env).Some? && !op.KeepTopology?
    ensures Step(s, op, env).value.topology == s.topology
  {
  }

  lemma {:induction false} TopologyStays(s: State, ops: seq<Op>, env: Outside)
    requires ReadsNoTopology(ops)
    ensures Run(s, ops, env).state.topology == s.topology
    decreases |ops|
  {
    if |ops| > 0 {
      var next := Step(s, ops[0], env);
      if next.Some? {
        StepTopology(s, ops[0], env);
        TopologyStays(next.value, ops[1..], env);
      }
    }
  }

  lemma NoTopologyTwice(a: seq<Op>, b: seq<Op>)
    requires ReadsNoTopology(a) && ReadsNoTopology(b)
    ensures ReadsNoTopology(a + b)
  {
  }

  lemma ReleaseReadsNoTopology(t: Target, spec: EndpointSpec, isUpdate: bool, cron: bool)
    ensures ReadsNoTopology(ReleaseOps(t, spec, isUpdate, cron))
  {
    var up, ep := UploadOps(t, isUpdate) + [Promote(t, isUpdate)], EndpointOps(t, spec);
    NoTopologyTwice(up, CronOps(t, cron));
    NoTopologyTwice(up + CronOps(t, cron), ep);
    NoTopologyTwice(up + CronOps(t, cron) + ep, [Check]);
  }

  lemma {:induction false} RelaysReadNoTopology(relays: seq<RelaySpec>)
    ensures ReadsNoTopology(RelaysOps(relays))
  {
    if |relays| > 0 {
      var init, last := relays[..|relays| - 1], relays[|relays| - 1];
      var release := ReleaseOps(last.target, last.endpoint, last.origin.LinkedRelay?, false);
      RelaysReadNoTopology(init);
      ReleaseReadsNoTopology(last.target, last.endpoint, last.origin.LinkedRelay?, false);
      NoTopologyTwice(RelaySecretOps(last.origin) + [RelayStage(last.origin)], release);
      NoTopologyTwice(RelaysOps(init), RelayOps(last));
    }
  }

  /** The credentials of a linked subscription Worker: the topology it has now, and its token. */
  method LinkedSecrets(remote: Remote, tx: Transaction, ghost s: State, origin: SubOrigin, ghost nodes: string)
      returns (ok: bool, previous: Option<string>)
    requires At(s, remote, tx) && s.topology == None && origin.LinkedSub? && origin.details.Some?
    modifies remote`clock
    ensures Did(s, SubSecretOps(origin, nodes), ok, remote, tx)
    ensures ok ==> previous == Then(s, SubSecretOps(origin, nodes), remote.env).topology
  {
    ghost var keep, token := if origin.secret.Keyring? then [KeepTopology(origin.secret)] else [], [Resolve(origin.details.value.1)];
    ok, previous := ReadTopology(remote, tx, s, origin.secret);
    if !ok {
      DidFail(s, keep, token, remote, tx);
      return;
    }
    ghost var s' := Then(s, keep, remote.env);
    var value := remote.Resolve(origin.details.value.1);
    ok := value.Some?;
    DidOne(s', Resolve(origin.details.value.1), ok, remote, tx);
    DidMore(s, keep, token, ok, remote, tx);
    RunAppend(s, keep, token, remote.env);
    TopologyStays(s', token, remote.env);
  }

  /** The credentials of a new subscription Worker, or what a linked one has. */
  method PrepareSecrets(remote: Remote, tx: Transaction, ghost s: State, spec: SubSpec, nodes: string)
      returns (ok: bool, previous: Option<string>)
    requires At(s, remote, tx) && s.topology == None && (spec.origin.LinkedSub? ==> spec.origin.details.Some?)
    modifies remote, tx
    ensures Did(s, SubSecretOps(spec.origin, nodes), ok, remote, tx)
    ensures Only(old(remote.world), remote.world, spec.target, SubRefs(spec))
    ensures ok && spec.origin.LinkedSub? ==> previous == Then(s, SubSecretOps(spec.origin, nodes), remote.env).topology
    ensures ok && spec.origin.NewSub? ==>
      Holds(remote.world, WorkerSecret(spec.origin.id), nodes) && Holds(remote.world, TokenSecret(spec.origin.id), spec.origin.tokenValue)
  {
    previous := None;
    if spec.origin.LinkedSub? {
      ok, previous := LinkedSecrets(remote, tx, s, spec.origin, nodes);
      return;
    }
    var id := spec.origin.id;
    assert WorkerSecret(id).path[2] != TokenSecret(id).path[2];
    ok := StoreBoth(remote, tx, s, (TopologyCredential, WorkerSecret(id), nodes),
                    (SubscriptionCredential, TokenSecret(id), spec.origin.tokenValue));
  }

  /** The last step of an update: store the rotated topology over the old one. */
  method RotateTopology(remote: Remote, tx: Transaction, ghost s: State, r: Ref, nodes: string,
                        previous: Option<string>)
      returns (ok: bool)
    requires At(s, remote, tx) && s.topology == previous
    modifies remote, tx
    ensures Did(s, [Rotate(r, nodes)], ok, remote, tx)
    ensures remote.world == if ok then old(remote.world).(creds := old(remote.world.creds)[r := nodes]) else old(remote.world)
  {
    ok := remote.StoreVerified(r, nodes);
    if ok {
      tx.Record(TopologyCredential, Updated,
                Some(if previous.Some? then CredentialRestore(r, previous.value) else Credential(r)));
    }
    DidOne(s, Rotate(r, nodes), ok, remote, tx);
  }

  method RotateIfLinked(remote: Remote, tx: Transaction, ghost s: State, origin: SubOrigin, nodes: string,
                        previous: Option<string>)
      returns (ok: bool)
    requires At(s, remote, tx) && (origin.LinkedSub? ==> s.topology == previous)
    modifies remote, tx
    ensures Did(s, RotateOps(origin, nodes), ok, remote, tx)
    ensures
      var r := TopologyRef(origin);
      remote.world == if ok && origin.LinkedSub? then old(remote.world).(creds := old(remote.world.creds)[r := nodes]) else old(remote.world)
  {
    if origin.LinkedSub? {
      ok := RotateTopology(remote, tx, s, TopologyRef(origin), nodes, previous);
    } else {
      DidNothing(s, remote, tx);
      ok := true;
    }
  }

  lemma KvFound(s: State, spec: SubSpec, env: Outside)
    requires Run(s, KvOps(spec), env).ok
    ensures spec.origin.LinkedSub? ==> spec.origin.details.Some?
  {
  }

  /** What behind the release is left of the topology that was read. */
  lemma TopologyAtEnd(s: State, a: seq<Op>, spec: SubSpec, env: Outside)
    requires Run(s, a, env).ok
    ensures
      var release := ReleaseOps(spec.target, spec.endpoint, spec.origin.LinkedSub?, true);
      Then(s, a + release, env).topology == Then(s, a, env).topology
  {
    var release := ReleaseOps(spec.target, spec.endpoint, spec.origin.LinkedSub?, true);
    RunAppend(s, a, release, env);
    ReleaseReadsNoTopology(spec.target, spec.endpoint, spec.origin.LinkedSub?, true);
    TopologyStays(Then(s, a, env), release, env);
  }

  /** `apply_sub` up to the release. */
  method PrepareSub(remote: Remote, tx: Transaction, ghost s: State, spec: SubSpec, nodes: string)
      returns (ok: bool, previous: Option<string>, meta: Metadata)
    requires At(s, remote, tx) && s.topology == None
    modifies remote, tx
    ensures Did(s, SubPreparation(spec, nodes), ok, remote, tx)
    ensures ok ==> Then(s, SubPreparation(spec, nodes), remote.env).staged == meta
    ensures Only(old(remote.world), remote.world, spec.target, SubRefs(spec))
    ensures ok && spec.origin.LinkedSub? ==>
      previous == Then(s, SubPreparation(spec, nodes), remote.env).topology
    ensures ok && spec.origin.NewSub? ==>
      Holds(remote.world, WorkerSecret(spec.origin.id), nodes) && Holds(remote.world, TokenSecret(spec.origin.id), spec.origin.tokenValue)
  {
    ghost var before, stage := KvOps(spec) + SubSecretOps(spec.origin, nodes), [SubStage(spec.origin, nodes)];
    meta := RelayMeta(None);
    var namespace;
    ok, previous, namespace := PrepareNamespaceAndSecrets(remote, tx, s, spec, nodes);
    if !ok {
      DidFail(s, before, stage, remote, tx);
      return;
    }
    meta := StageMetadata(remote, tx, Then(s, before, remote.env), spec.origin, nodes, namespace);
    DidMore(s, before, stage, true, remote, tx);
    RunAppend(s, before, stage, remote.env);
  }

  method PrepareNamespaceAndSecrets(remote: Remote, tx: Transaction, ghost s: State, spec: SubSpec, nodes: string)
      returns (ok: bool, previous: Option<string>, namespace: string)
    requires At(s, remote, tx) && s.topology == None
    modifies remote, tx
    ensures Did(s, KvOps(spec) + SubSecretOps(spec.origin, nodes), ok, remote, tx)
    ensures ok ==> Then(s, KvOps(spec) + SubSecretOps(spec.origin, nodes), remote.env).namespace == namespace
    ensures Only(old(remote.world), remote.world, spec.target, SubRefs(spec))
    ensures ok && spec.origin.LinkedSub? ==>
      previous == Then(s, KvOps(spec) + SubSecretOps(spec.origin, nodes), remote.env).topology
    ensures ok && spec.origin.NewSub? ==>
      Holds(remote.world, WorkerSecret(spec.origin.id), nodes) && Holds(remote.world, TokenSecret(spec.origin.id), spec.origin.tokenValue)
  {
    ghost var env, kv, secrets := remote.env, KvOps(spec), SubSecretOps(spec.origin, nodes);
    previous, namespace := None, "";
    var found := PrepareKv(remote, tx, s, spec);
    ok := found.Some?;
    OnlyKv(old(remote.world), remote.world, spec.target);
    if !ok {
      DidFail(s, kv, secrets, remote, tx);
      return;
    }
    namespace := found.value;
    KvFound(s, spec, env);
    TopologyStays(s, kv, env);
    ghost var w := remote.world;
    ok, previous := PrepareSecrets(remote, tx, Then(s, kv, env), spec, nodes);
    DidMore(s, kv, secrets, ok, remote, tx);
    RunAppend(s, kv, secrets, env);
    OnlyTwice(old(remote.world), w, remote.world, spec.target, SubRefs(spec));
    KvStays(Then(s, kv, env), secrets, env);
  }

  /** `sub_metadata_for` */
  method StageMetadata(remote: Remote, tx: Transaction, ghost s: State, origin: SubOrigin, nodes: string,
                       namespace: string)
      returns (meta: Metadata)
    requires At(s, remote, tx) && s.namespace == namespace
    ensures Did(s, [SubStage(origin, nodes)], true, remote, tx)
    ensures meta == Then(s, [SubStage(origin, nodes)], remote.env).staged
    ensures Then(s, [SubStage(origin, nodes)], remote.env).topology == s.topology
  {
    meta := SubMeta(nodes, if origin.NewSub? then Some(origin.tokenValue) else None, namespace);
    DidOne(s, SubStage(origin, nodes), true, remote, tx);
    RunOne(s, SubStage(origin, nodes), remote.env);
  }

  /** `apply_sub` up to the rotation. */
  method ReleaseSub(remote: Remote, tx: Transaction, ghost s: State, spec: SubSpec, nodes: string)
      returns (ok: bool, previous: Option<string>)
    requires At(s, remote, tx) && s.topology == None
    modifies remote, tx
    ensures Did(s, SubHead(spec, nodes), ok, remote, tx)
    ensures Only(old(remote.world), remote.world, spec.target, SubRefs(spec))
    ensures ok ==> Released(remote.world, spec.target, spec.endpoint, remote.env.devReads(spec.target))
    ensures ok ==> remote.world.workers[spec.target].cron == [REFRESH_CRON]
    ensures ok && spec.origin.LinkedSub? ==> previous == Then(s, SubHead(spec, nodes), remote.env).topology
    ensures ok && spec.origin.NewSub? ==>
      Holds(remote.world, WorkerSecret(spec.origin.id), nodes) && Holds(remote.world, TokenSecret(spec.origin.id), spec.origin.tokenValue)
  {
    ghost var before := SubPreparation(spec, nodes);
    ghost var release := ReleaseOps(spec.target, spec.endpoint, spec.origin.LinkedSub?, true);
    var meta;
    ok, previous, meta := PrepareSub(remote, tx, s, spec, nodes);
    if !ok {
      DidFail(s, before, release, remote, tx);
      return;
    }
    ghost var w := remote.world;
    ok := Release(remote, tx, Then(s, before, remote.env), spec.target, spec.endpoint, spec.origin.LinkedSub?, true, meta);
    DidMore(s, before, release, ok, remote, tx);
    OnlyTwice(old(remote.world), w, remote.world, spec.target, SubRefs(spec));
    TopologyAtEnd(s, before, spec, remote.env);
  }

  /** The version of the subscription Worker names a KV namespace, and that one is settled. */
  ghost predicate NewSubVersion(kv: map<string, string>, before: seq<Uploaded>, after: seq<Uploaded>, w: World,
                                spec: SubSpec, nodes: string) {
    && |after| > |before| && after[|before|].meta.SubMeta?
    && var namespace := after[|before|].meta.namespace;
    && NewVersion(before, after, w, spec.target, SubMetadata(spec, nodes, namespace)) && KvSettled(kv, w.kv, spec, namespace)
  }

  /** `apply_sub` */
  method ApplySub(remote: Remote, tx: Transaction, ghost s: State, spec: SubSpec, nodes: string) returns (ok: bool)
    requires At(s, remote, tx) && s.topology == None
    modifies remote, tx
    ensures Did(s, SubOps(spec, nodes), ok, remote, tx)
    ensures Only(old(remote.world), remote.world, spec.target, SubRefs(spec))
    ensures ok ==> SubDone(remote.world, remote.env.devReads, spec, nodes)
    ensures ok ==> NewSubVersion(old(remote.world.kv), old(remote.uploads), remote.uploads, remote.world, spec, nodes)
  {
    ghost var head := SubHead(spec, nodes);
    var previous;
    ok, previous := ReleaseSub(remote, tx, s, spec, nodes);
    if !ok {
      DidFail(s, head, RotateOps(spec.origin, nodes), remote, tx);
      return;
    }
    ghost var w := remote.world;
    ok := RotateIfLinked(remote, tx, Then(s, head, remote.env), spec.origin, nodes, previous);
    DidMore(s, head, RotateOps(spec.origin, nodes), ok, remote, tx);
    OnlyCredential(w, spec.target, TopologyRef(spec.origin), nodes, SubRefs(spec));
    OnlyTwice(old(remote.world), w, remote.world, spec.target, SubRefs(spec));
    if ok {
      SubRuns(s, spec, nodes, remote.env);
      SubVersionBehind(tx.before, s, Then(s, SubOps(spec, nodes), remote.env), spec, nodes);
    }
  }

  lemma SubVersionBehind(prior: seq<Uploaded>, s: State, s': State, spec: SubSpec, nodes: string)
    requires SubReleased(s, s', spec, nodes)
    ensures NewSubVersion(s.world.kv, prior + s.uploads, prior + s'.uploads, s'.world, spec, nodes)
  {
    NewVersionBehind(prior, s, s', spec.target, SubMetadata(spec, nodes, s'.uploads[|s.uploads|].meta.namespace));
  }

  // ---------------------------------------------------------------- the whole transaction

  lemma RelayStaysDone(w: World, w': World, devReads: Target -> bool, spec: RelaySpec, t: Target, refs: set<Ref>)
    requires Only(w, w', t, refs) && spec.target != t && RelayRefs(spec) !! refs && RelayDone(w, devReads, spec)
    ensures RelayDone(w', devReads, spec)
  {
    if spec.origin.NewRelay? {
      assert WorkerSecret(spec.origin.id) in RelayRefs(spec) && NodeSecret(spec.origin.id) in RelayRefs(spec);
    }
  }

  ghost predicate RelaysDone(w: World, devReads: Target -> bool, relays: seq<RelaySpec>, n: nat) {
    n <= |relays| && forall j :: 0 <= j < n ==> RelayDone(w, devReads, relays[j])
  }

  /** What comes later disturbs no relay before. */
  lemma RelaysStayDone(w: World, w': World, devReads: Target -> bool, relays: seq<RelaySpec>, n: nat, t: Target,
                       refs: set<Ref>)
    requires RelaysDone(w, devReads, relays, n) && Only(w, w', t, refs)
    requires forall j :: 0 <= j < n ==> relays[j].target != t && RelayRefs(relays[j]) !! refs
    ensures RelaysDone(w', devReads, relays, n)
  {
    forall j | 0 <= j < n ensures RelayDone(w', devReads, relays[j]) {
      RelayStaysDone(w, w', devReads, relays[j], t, refs);
    }
  }

  /** Every target is released under its endpoint, and every credential of the plan is stored. */
  ghost predicate PlanDone(w: World, devReads: Target -> bool, plan: Plan, nodes: string) {
    RelaysDone(w, devReads, plan.relays, |plan.relays|) && SubDone(w, devReads, plan.sub, nodes)
  }

  lemma RelaysUpTo(relays: seq<RelaySpec>, i: nat)
    requires i < |relays|
    ensures RelaysOps(relays[..i + 1]) == RelaysOps(relays[..i]) + RelayOps(relays[i])
  {
    assert relays[..i + 1][..i] == relays[..i];
  }

  /** The list of relays goes on behind those that were applied. */
  lemma {:induction false} RelaysFail(s: State, relays: seq<RelaySpec>, i: nat, n: nat, remote: Remote, tx: Transaction)
    requires i <= n <= |relays| && Did(s, RelaysOps(relays[..i]), false, remote, tx)
    ensures Did(s, RelaysOps(relays[..n]), false, remote, tx)
    decreases n - i
  {
    if i < n {
      RelaysFailOne(s, relays, i, remote, tx);
      RelaysFail(s, relays, i + 1, n, remote, tx);
    }
  }

  lemma RelaysFailOne(s: State, relays: seq<RelaySpec>, n: nat, remote: Remote, tx: Transaction)
    requires n < |relays| && Did(s, RelaysOps(relays[..n]), false, remote, tx)
    ensures Did(s, RelaysOps(relays[..n + 1]), false, remote, tx)
  {
    var before, next := RelaysOps(relays[..n]), RelayOps(relays[n]);
    RelaysUpTo(relays, n);
    DidFail(s, before, next, remote, tx);
  }

  lemma OneMoreDone(w: World, w': World, devReads: Target -> bool, relays: seq<RelaySpec>, i: nat)
    requires i < |relays| && RelaysApart(relays) && RelaysDone(w, devReads, relays, i)
    requires Only(w, w', relays[i].target, RelayRefs(relays[i])) && RelayDone(w', devReads, relays[i])
    ensures RelaysDone(w', devReads, relays, i + 1)
  {
    forall j | 0 <= j < i ensures relays[j].target != relays[i].target && RelayRefs(relays[j]) !! RelayRefs(relays[i]) {
      assert Apart(relays[j], relays[i]);
    }
    RelaysStayDone(w, w', devReads, relays, i, relays[i].target, RelayRefs(relays[i]));
  }

  method ApplyRelays(remote: Remote, tx: Transaction, ghost s: State, relays: seq<RelaySpec>) returns (ok: bool)
    requires At(s, remote, tx)
    modifies remote, tx
    ensures Did(s, RelaysOps(relays), ok, remote, tx)
    ensures ok && RelaysApart(relays) ==> RelaysDone(remote.world, remote.env.devReads, relays, |relays|)
  {
    ghost var env := remote.env;
    DidNothing(s, remote, tx);
    for i := 0 to |relays|
      invariant Did(s, RelaysOps(relays[..i]), true, remote, tx)
      invariant RelaysApart(relays) ==> RelaysDone(remote.world, env.devReads, relays, i)
    {
      ghost var before, w := RelaysOps(relays[..i]), remote.world;
      ok := ApplyRelay(remote, tx, Then(s, before, env), relays[i]);
      DidMore(s, before, RelayOps(relays[i]), ok, remote, tx);
      RelaysUpTo(relays, i);
      if !ok {
        RelaysFail(s, relays, i + 1, |relays|, remote, tx);
        WholeTake(relays);
        return;
      }
      if RelaysApart(relays) {
        OneMoreDone(w, remote.world, env.devReads, relays, i);
      }
    }
    WholeTake(relays);
    ok := true;
  }

  /** The relays and the subscription Worker in the order of `execute_with`. */
  method Attempt(remote: Remote, tx: Transaction, plan: Plan, nodes: string) returns (ok: bool)
    requires tx.records == [] && tx.compensations == [] && tx.before == remote.uploads
    modifies remote, tx
    ensures Did(Initial(old(remote.world), old(remote.clock)), PlanOps(plan, nodes), ok, remote, tx)
    ensures ok && AllApart(plan) ==> PlanDone(remote.world, remote.env.devReads, plan, nodes)
  {
    ghost var s, relays, sub := Initial(remote.world, remote.clock), RelaysOps(plan.relays), SubOps(plan.sub, nodes);
    ok := ApplyRelays(remote, tx, s, plan.relays);
    if !ok {
      DidFail(s, relays, sub, remote, tx);
      return;
    }
    ghost var w, s' := remote.world, Then(s, relays, remote.env);
    RelaysReadNoTopology(plan.relays);
    TopologyStays(s, relays, remote.env);
    ok := ApplySub(remote, tx, s', plan.sub, nodes);
    DidMore(s, relays, sub, ok, remote, tx);
    if ok && AllApart(plan) {
      RelaysStayDone(w, remote.world, remote.env.devReads, plan.relays, |plan.relays|, plan.sub.target, SubRefs(plan.sub));
    }
  }

  /** `execute_with`. A transaction that commits has released the whole plan. One that does not
      compensates every pending action once, each with its own journal record. Unless the plan
      creates one Worker twice each can be undone in its turn, so that none acts on a resource
      that is gone; and if the compensating calls work, every domain, KV namespace and credential and every Worker is as at the
      start, but for the traffic and the workers.dev state of `Residue`. */
  method Execute(remote: Remote, plan: Plan, nodes: string)
      returns (committed: bool, tx: Transaction, failures: seq<Resource>)
    requires PlanReady(remote.world, plan)
    modifies remote
    ensures
      var start, dev := old(remote.world), remote.env.devReads;
      var o := Deployed(start, old(remote.clock), remote.env, plan, nodes);
      var s := o.state;
      && committed == o.ok
      && (committed <==> PlanPossible(start, plan, nodes)
                         && Answered(Initial(start, old(remote.clock)), PlanOps(plan, nodes), remote.env))
      && Journal.Truthful(start, s)
      && (committed ==> At(s, remote, tx) && (AllApart(plan) ==> PlanDone(remote.world, dev, plan, nodes)))
      && (committed ==> remote.uploads == old(remote.uploads) + s.uploads)
      && (committed ==> PlanReleased(start.kv, remote.world, s.uploads, plan, nodes))
      && (!committed ==> tx.compensations == [] && Journalled(s.records, s.compensations, tx.records, |s.compensations|))
      && (!committed && CreatesApart(plan) ==> CanUndoAll(s.world, s.compensations))
      && (!committed && CreatesApart(plan) && failures == [] ==> remote.world == Residue(start, dev, s.promoted, s.switched))
      && (!committed && CreatesApart(plan) && failures == [] ==>
            (remote.world == start <==> AllSurvive(start, dev, s.promoted, s.switched)))
      && (!committed && remote.Obliging(s.clock) ==> (failures == [] <==> CanUndoAll(s.world, s.compensations)))
  {
    tx := new Transaction(remote.uploads);
    NilRight(remote.uploads);
    ghost var start, clock := remote.world, remote.clock;
    committed := Attempt(remote, tx, plan, nodes);
    DeployedExactly(start, clock, remote.env, plan, nodes);
    Journal.DeployedTruthful(start, clock, remote.env, plan, nodes);
    failures := [];
    if committed {
      PlanRuns(start, clock, remote.env, plan, nodes);
    } else {
      if CreatesApart(plan) {
        RolledBackExactly(start, clock, remote.env, plan, nodes);
      }
      ghost var s := Deployed(start, clock, remote.env, plan, nodes).state;
      ResidueIsStart(start, remote.env.devReads, s.promoted, s.switched);
      failures := tx.Compensate(remote);
    }
  }
}
