/** The remote side of a deployment, and the transaction of `core/src/deploy.rs` that journals
    what it does and takes it back. */
module Deploy {
  import opened Bytes
  import opened Saga
  import opened Steps

  /** The name under which undoing is journalled. */
  function ResourceOf(c: Compensation): Resource {
    match c
    case Credential(r) => CredentialNamed(r)
    case CredentialRestore(r, _) => CredentialNamed(r)
    case Kv(n) => KvNamespace(n)
    case DeleteWorker(t) => WorkerScript(t.1)
    case Deployment(t, _) => DeploymentFor(t.1)
    case WorkersDev(t, _) => WorkersDevStateFor(t.1)
    case CronSchedules(t, _) => CronTriggers(t.1)
    case DetachDomain(d) => CustomDomain(d)
  }

  // ---------------------------------------------------------------- the remote side

  /** Every method but `GetWorkersDev` makes one call. */
  class Remote {
    const env: Outside
    var world: World
    var clock: nat
    var uploads: seq<Uploaded>

    /** From the call number `n` on, nothing fails. */
    ghost predicate Obliging(n: nat) {
      forall k :: k >= n ==> env.answers(k).ok
    }

    constructor (world: World, env: Outside)
      ensures this.world == world && this.env == env && clock == 0 && uploads == []
    {
      this.world, this.env, clock, uploads := world, env, 0, [];
    }

    method Ask() returns (a: Answer)
      modifies `clock
      ensures clock == old(clock) + 1 && a == env.answers(old(clock))
    {
      a := env.answers(clock);
      clock := clock + 1;
    }

    /** A read or a check that changes nothing. */
    method Check() returns (ok: bool)
      modifies `clock
      ensures clock == old(clock) + 1 && ok == env.answers(old(clock)).ok
    {
      var a := Ask();
      return a.ok;
    }

    method StoreVerified(r: Ref, value: string) returns (ok: bool)
      modifies `world, `clock
      ensures clock == old(clock) + 1 && ok == Storable(r, value, env.answers(old(clock)))
      ensures world == if ok then old(world).(creds := old(world.creds)[r := value]) else old(world)
    {
      var a := Ask();
      if !a.ok || value == "" || r.Env? {
        return false;
      }
      world := world.(creds := world.creds[r := value]);
      return true;
    }

    method Resolve(r: Ref) returns (v: Option<string>)
      modifies `clock
      ensures clock == old(clock) + 1
      ensures
        var a := env.answers(old(clock));
        v == if Resolves(world, r, a) then Some(Resolved(world, r, a)) else None
    {
      var a := Ask();
      if !a.ok {
        return None;
      }
      if r.Env? {
        return Some(a.text);
      }
      return if r in world.creds then Some(world.creds[r]) else None;
    }

    method FindKv(title: string) returns (ok: bool, n: Option<string>)
      modifies `clock
      ensures clock == old(clock) + 1
      ensures
        var a := env.answers(old(clock));
        && ok == (a.ok && (KvNamed(world, title, a) || KvFree(world, title)))
        && n == if ok && KvNamed(world, title, a) then Some(a.text) else None
    {
      var a := Ask();
      if !a.ok {
        return false, None;
      }
      if KvNamed(world, title, a) {
        return true, Some(a.text);
      }
      return KvFree(world, title), None;
    }

    /** The server never hands out an identifier that is in use. */
    method CreateKv(title: string) returns (n: Option<string>)
      modifies `world, `clock
      ensures clock == old(clock) + 1
      ensures
        var a := env.answers(old(clock));
        && n == (if a.ok && a.text !in old(world.kv) then Some(a.text) else None)
        && world == if n.Some? then old(world).(kv := old(world.kv)[a.text := title]) else old(world)
    {
      var a := Ask();
      if !a.ok || a.text in world.kv {
        return None;
      }
      world := world.(kv := world.kv[a.text := title]);
      return Some(a.text);
    }

    /** What was uploaded is remembered, whoever did it. */
    method CreateWorker(t: Target, meta: Metadata) returns (version: Option<string>)
      modifies this
      ensures clock == old(clock) + 1
      ensures
        var a := env.answers(old(clock));
        && version == (if a.ok then Some(a.text) else None)
        && world == (if a.ok then SetWorker(old(world), t, Worker(Whole(a.text), [], a.enabled)) else old(world))
        && uploads == if a.ok then old(uploads) + [Uploaded(t, a.text, meta)] else old(uploads)
    {
      var a := Ask();
      if !a.ok {
        return None;
      }
      uploads := uploads + [Uploaded(t, a.text, meta)];
      world := SetWorker(world, t, Worker(Whole(a.text), [], a.enabled));
      return Some(a.text);
    }

    /** The uploaded version is inert: it gets no traffic. */
    method UploadVersion(t: Target, meta: Metadata) returns (version: Option<string>)
      modifies `clock, `uploads
      ensures clock == old(clock) + 1
      ensures
        var a := env.answers(old(clock));
        && version == (if Exists(world, t, a) then Some(a.text) else None)
        && uploads == if version.Some? then old(uploads) + [Uploaded(t, a.text, meta)] else old(uploads)
    {
      var a := Ask();
      if !a.ok || t !in world.workers {
        return None;
      }
      uploads := uploads + [Uploaded(t, a.text, meta)];
      return Some(a.text);
    }

    method ReadStable(t: Target) returns (ok: bool, version: Option<string>)
      modifies `clock
      ensures clock == old(clock) + 1 && ok == Exists(world, t, env.answers(old(clock)))
      ensures version == if ok then CurrentStable(world.workers[t].live) else None
    {
      var a := Ask();
      if !a.ok || t !in world.workers {
        return false, None;
      }
      return true, CurrentStable(world.workers[t].live);
    }

    method CreateDeployment(t: Target, version: string) returns (id: Option<string>)
      modifies `world, `clock
      ensures clock == old(clock) + 1
      ensures
        var a := env.answers(old(clock));
        && id == (if Exists(old(world), t, a) then Some(a.text) else None)
        && world == if id.Some? then SetWorker(old(world), t, old(world.workers)[t].(live := Whole(version))) else old(world)
    {
      var a := Ask();
      if !a.ok || t !in world.workers {
        return None;
      }
      world := SetWorker(world, t, world.workers[t].(live := Whole(version)));
      return Some(a.text);
    }

    method GetCron(t: Target) returns (schedules: Option<seq<string>>)
      modifies `clock
      ensures clock == old(clock) + 1
      ensures schedules == if Exists(world, t, env.answers(old(clock))) then Some(world.workers[t].cron) else None
    {
      var a := Ask();
      return if a.ok && t in world.workers then Some(world.workers[t].cron) else None;
    }

    method SetCron(t: Target, schedules: seq<string>) returns (ok: bool)
      modifies `world, `clock
      ensures clock == old(clock) + 1 && ok == Exists(old(world), t, env.answers(old(clock)))
      ensures world == if ok then SetWorker(old(world), t, old(world.workers)[t].(cron := schedules)) else old(world)
    {
      var a := Ask();
      if !a.ok || t !in world.workers {
        return false;
      }
      world := SetWorker(world, t, world.workers[t].(cron := schedules));
      return true;
    }

    /** A failed read counts as off. */
    method GetWorkersDev(t: Target) returns (enabled: bool)
      ensures enabled == DevSeen(world, env.devReads, t)
    {
      return env.devReads(t) && t in world.workers && world.workers[t].workersDev;
    }

    method SetWorkersDev(t: Target, enabled: bool) returns (ok: bool)
      modifies `world, `clock
      ensures clock == old(clock) + 1 && ok == Exists(old(world), t, env.answers(old(clock)))
      ensures world == if ok then SetWorker(old(world), t, old(world.workers)[t].(workersDev := enabled)) else old(world)
    {
      var a := Ask();
      if !a.ok || t !in world.workers {
        return false;
      }
      world := SetWorker(world, t, world.workers[t].(workersDev := enabled));
      return true;
    }

    method FindDomain(account: string, hostname: string) returns (ok: bool, d: Option<Domain>)
      modifies `clock
      ensures clock == old(clock) + 1
      ensures
        var a := env.answers(old(clock));
        && ok == (a.ok && (DomainNamed(world, account, hostname, a) || DomainFree(world, account, hostname)))
        && d == if ok && DomainNamed(world, account, hostname, a) then Some(world.domains[a.text]) else None
    {
      var a := Ask();
      if !a.ok {
        return false, None;
      }
      if DomainNamed(world, account, hostname, a) {
        return true, Some(world.domains[a.text]);
      }
      return DomainFree(world, account, hostname), None;
    }

    method AttachDomain(t: Target, hostname: string) returns (id: Option<string>)
      modifies `world, `clock
      ensures clock == old(clock) + 1
      ensures
        var a := env.answers(old(clock));
        && id == (if a.ok && a.text !in old(world.domains) then Some(a.text) else None)
        && world == if id.Some? then old(world).(domains := old(world.domains)[a.text := Domain(hostname, t)]) else old(world)
    {
      var a := Ask();
      if !a.ok || a.text in world.domains {
        return None;
      }
      world := world.(domains := world.domains[a.text := Domain(hostname, t)]);
      return Some(a.text);
    }

    /** One compensating call. It fails if the outside says so or if what it acts on is gone. */
    method Revert(c: Compensation) returns (ok: bool)
      modifies `world, `clock
      ensures ok ==> CanUndo(old(world), c) && world == Undo(old(world), c)
      ensures !ok ==> world == old(world)
      ensures clock >= old(clock)
      ensures env.answers(old(clock)).ok && CanUndo(old(world), c) ==> ok
    {
      if c.Deployment? && c.previousVersion.None? {
        SameWorker(world, c.script);
        return true;
      }
      var a := Ask();
      if !a.ok || !CanUndo(world, c) {
        return false;
      }
      world := Undo(world, c);
      return true;
    }
  }

  // ---------------------------------------------------------------- the transaction

  /** `before` is what had been uploaded when the transaction began. */
  class Transaction {
    const before: seq<Uploaded>
    var records: seq<JournalRecord>
    var compensations: seq<Compensation>

    constructor (before: seq<Uploaded>)
      ensures records == [] && compensations == [] && this.before == before
    {
      this.before, records, compensations := before, [], [];
    }

    method Record(resource: Resource, disposition: Disposition, compensation: Option<Compensation>)
      modifies this
      ensures records == old(records) + [JournalRecord(resource, disposition)]
      ensures compensations == if compensation.Some? then old(compensations) + [compensation.value] else old(compensations)
    {
      records := records + [JournalRecord(resource, disposition)];
      if compensation.Some? {
        compensations := compensations + [compensation.value];
      }
    }

    /** One round of the loop of `compensate`. */
    method CompensateLast(remote: Remote) returns (ok: bool)
      requires |compensations| > 0
      modifies this, remote`world, remote`clock
      ensures compensations == old(compensations)[..|old(compensations)| - 1]
      ensures
        var c := old(compensations)[|old(compensations)| - 1];
        && (ok ==> CanUndo(old(remote.world), c) && remote.world == Undo(old(remote.world), c))
        && (CanUndo(old(remote.world), c) && remote.Obliging(old(remote.clock)) ==> ok)
        && records == old(records) + [JournalRecord(ResourceOf(c), if ok then Compensated else Retained)]
      ensures remote.clock >= old(remote.clock)
    {
      var action := compensations[|compensations| - 1];
      compensations := compensations[..|compensations| - 1];
      ok := remote.Revert(action);
      records := records + [JournalRecord(ResourceOf(action), if ok then Compensated else Retained)];
    }

    /** `compensate`: pops until nothing is left and journals every action once, under its own
        resource, as compensated or as retained. If none failed, everything was undone. */
    method Compensate(remote: Remote) returns (failures: seq<Resource>)
      modifies this, remote`world, remote`clock
      ensures compensations == []
      ensures Journalled(old(records), old(compensations), records, |old(compensations)|)
      ensures failures == [] <==> NoneRetained(records, |old(records)|)
      ensures failures == [] ==> UndoneTo(old(remote.world), old(compensations), remote.world)
      ensures CanUndoAll(old(remote.world), old(compensations)) && remote.Obliging(old(remote.clock)) ==> failures == []
    {
      failures := [];
      ghost var all, start, before := compensations, remote.world, records;
      ghost var n := 0;
      WholeTake(compensations);
      while |compensations| > 0
        invariant n + |compensations| == |all| && compensations == all[..|compensations|]
        invariant Journalled(before, all, records, n)
        invariant failures == [] <==> NoneRetained(records, |before|)
        invariant failures == [] ==> Halfway(start, all, remote.world, compensations)
        invariant remote.clock >= old(remote.clock)
        invariant CanUndoAll(start, all) && remote.Obliging(old(remote.clock)) ==> failures == []
        decreases |compensations|
      {
        ghost var w, cs, rs := remote.world, compensations, records;
        var resource := ResourceOf(compensations[|compensations| - 1]);
        var ok := CompensateLast(remote);
        ghost var d := if ok then Compensated else Retained;
        JournalOne(before, all, rs, n, d);
        RetainedOne(rs, |before|, JournalRecord(resource, d));
        if ok {
          if failures == [] {
            HalfwayOn(start, all, w, cs);
          }
        } else {
          failures := failures + [resource];
        }
        n := n + 1;
      }
    }
  }

  ghost predicate NoneRetained(records: seq<JournalRecord>, from: nat) {
    forall k :: from <= k < |records| ==> records[k].disposition != Retained
  }

  ghost predicate UndoneTo(start: World, cs: seq<Compensation>, end: World) {
    CanUndoAll(start, cs) && UndoAll(start, cs) == end
  }

  /** The compensations `rest` are what remains of `all`. */
  ghost predicate Halfway(start: World, all: seq<Compensation>, w: World, rest: seq<Compensation>) {
    (CanUndoAll(start, all) <==> CanUndoAll(w, rest)) && UndoAll(start, all) == UndoAll(w, rest)
  }

  lemma HalfwayOn(start: World, all: seq<Compensation>, w: World, rest: seq<Compensation>)
    requires |rest| > 0 && Halfway(start, all, w, rest) && CanUndo(w, rest[|rest| - 1])
    ensures Halfway(start, all, Undo(w, rest[|rest| - 1]), rest[..|rest| - 1])
  {
  }

  predicate Final(d: Disposition) {
    d == Compensated || d == Retained
  }

  /** The journal `after` is `before` plus one record for each of the last `n` of `cs`,
      latest first. */
  ghost predicate Journalled(before: seq<JournalRecord>, cs: seq<Compensation>, after: seq<JournalRecord>, n: nat) {
    && n <= |cs| && |after| == |before| + n && before <= after
    && forall k :: |before| <= k < |after| ==>
         after[k].resource == ResourceOf(cs[|cs| - 1 - (k - |before|)]) && Final(after[k].disposition)
  }

  lemma JournalOne(before: seq<JournalRecord>, cs: seq<Compensation>, after: seq<JournalRecord>, n: nat, d: Disposition)
    requires Journalled(before, cs, after, n) && n < |cs| && Final(d)
    ensures Journalled(before, cs, after + [JournalRecord(ResourceOf(cs[|cs| - 1 - n]), d)], n + 1)
  {
    var later := after + [JournalRecord(ResourceOf(cs[|cs| - 1 - n]), d)];
    forall k | |before| <= k < |later|
      ensures later[k].resource == ResourceOf(cs[|cs| - 1 - (k - |before|)]) && Final(later[k].disposition)
    {
      if k < |after| {
        assert later[k] == after[k];
      }
    }
  }

  lemma RetainedOne(records: seq<JournalRecord>, from: nat, r: JournalRecord)
    requires from <= |records|
    ensures NoneRetained(records + [r], from) <==> NoneRetained(records, from) && r.disposition != Retained
  {
    var later := records + [r];
    assert later[|records|] == r;
    assert forall k :: from <= k < |records| ==> later[k] == records[k];
  }
}
