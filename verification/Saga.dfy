/** What a deployment changes, and how `Transaction` in `core/src/deploy.rs` takes it back:
    the remote resources, the compensations, and why undoing them in reverse restores the
    start. */
module Saga {
  import opened Bytes

  /** An account id and a script name. */
  type Target = (string, string)

  /** Traffic goes to one version, or is split; then the deployment history may still hold
      an older deployment that was not. */
  datatype Traffic = Whole(version: string) | Split(older: Option<string>)

  datatype Worker = Worker(live: Traffic, cron: seq<string>, workersDev: bool)

  datatype Domain = Domain(hostname: string, service: Target)

  datatype Ref = Keyring(path: seq<string>) | Env(name: string)

  datatype World = World(workers: map<Target, Worker>, domains: map<string, Domain>, kv: map<string, string>,
                         creds: map<Ref, string>)

  datatype Compensation =
    | Credential(reference: Ref)
    | CredentialRestore(reference: Ref, previous: string)
    | Kv(namespace: string)
    | DeleteWorker(script: Target)
    | Deployment(script: Target, previousVersion: Option<string>)
    | WorkersDev(script: Target, enabled: bool)
    | CronSchedules(script: Target, schedules: seq<string>)
    | DetachDomain(domainId: string)

  /** `current_stable`: the newest deployment that sends everything to one version. */
  function CurrentStable(t: Traffic): Option<string> {
    match t
    case Whole(v) => Some(v)
    case Split(older) => older
  }

  function SetWorker(w: World, t: Target, s: Worker): World {
    w.(workers := w.workers[t := s])
  }

  lemma SameWorker(w: World, t: Target)
    ensures t in w.workers ==> SetWorker(w, t, w.workers[t]) == w
  {
    if t in w.workers {
      assert w.workers[t := w.workers[t]] == w.workers;
    }
  }

  predicate OnWorker(c: Compensation) {
    c.Deployment? || c.WorkersDev? || c.CronSchedules?
  }

  /** What a compensation makes of the Worker it acts on. */
  function Adjusted(s: Worker, c: Compensation): Worker {
    match c
    case Deployment(_, p) => if p.Some? then s.(live := Whole(p.value)) else s
    case WorkersDev(_, e) => s.(workersDev := e)
    case CronSchedules(_, x) => s.(cron := x)
    case _ => s
  }

  function Undo(w: World, c: Compensation): World {
    match c
    case Credential(r) => w.(creds := w.creds - {r})
    case CredentialRestore(r, p) => w.(creds := w.creds[r := p])
    case Kv(n) => w.(kv := w.kv - {n})
    case DeleteWorker(t) => w.(workers := w.workers - {t})
    case DetachDomain(d) => w.(domains := w.domains - {d})
    case _ => if c.script in w.workers then SetWorker(w, c.script, Adjusted(w.workers[c.script], c)) else w
  }

  /** The resource a compensation acts on is there: no Worker it names has been deleted. An
      empty credential is refused by the store. */
  predicate CanUndo(w: World, c: Compensation) {
    match c
    case Credential(r) => r in w.creds
    case CredentialRestore(r, p) => p != "" && r.Keyring?
    case Kv(n) => n in w.kv
    case DeleteWorker(t) => t in w.workers
    case Deployment(t, p) => p.Some? ==> t in w.workers
    case WorkersDev(t, _) => t in w.workers
    case CronSchedules(t, _) => t in w.workers
    case DetachDomain(d) => d in w.domains
  }

  /** Last in, first out. */
  function UndoAll(w: World, cs: seq<Compensation>): World
    decreases |cs|
  {
    if |cs| == 0 then w else UndoAll(Undo(w, cs[|cs| - 1]), cs[..|cs| - 1])
  }

  predicate CanUndoAll(w: World, cs: seq<Compensation>)
    decreases |cs|
  {
    |cs| == 0 || (CanUndo(w, cs[|cs| - 1]) && CanUndoAll(Undo(w, cs[|cs| - 1]), cs[..|cs| - 1]))
  }

  /** Every compensation can run, and together they lead back to `start`. */
  ghost predicate Reverts(w: World, cs: seq<Compensation>, start: World) {
    CanUndoAll(w, cs) && UndoAll(w, cs) == start
  }

  /** A step whose compensation takes it back extends the chain. */
  lemma Extends(w: World, cs: seq<Compensation>, start: World, w': World, c: Compensation)
    requires Reverts(w, cs, start) && CanUndo(w', c) && Undo(w', c) == w
    ensures Reverts(w', cs + [c], start)
  {
    assert (cs + [c])[..|cs|] == cs;
  }

  // ---------------------------------------------------------------- Workers that will be deleted

  /** What a Worker looks like does not matter if it is to be deleted. */
  lemma {:induction false} DoomedState(w: World, cs: seq<Compensation>, t: Target, s: Worker)
    requires DeleteWorker(t) in cs && t in w.workers
    ensures CanUndoAll(SetWorker(w, t, s), cs) <==> CanUndoAll(w, cs)
    ensures UndoAll(SetWorker(w, t, s), cs) == UndoAll(w, cs)
    decreases |cs|
  {
    var c, rest := cs[|cs| - 1], cs[..|cs| - 1];
    var w' := SetWorker(w, t, s);
    InitLast(cs);
    if c == DeleteWorker(t) {
      assert Undo(w', c) == Undo(w, c);
    } else {
      UndoDoomed(w, c, t, s);
      if t in Undo(w, c).workers {
        var s' := Undo(w', c).workers[t];
        DoomedState(Undo(w, c), rest, t, s');
      }
    }
  }

  lemma UndoDoomed(w: World, c: Compensation, t: Target, s: Worker)
    requires t in w.workers && c != DeleteWorker(t)
    ensures t in Undo(w, c).workers && t in Undo(SetWorker(w, t, s), c).workers
    ensures CanUndo(SetWorker(w, t, s), c) <==> CanUndo(w, c)
    ensures Undo(SetWorker(w, t, s), c) == SetWorker(Undo(w, c), t, Undo(SetWorker(w, t, s), c).workers[t])
  {
    if OnWorker(c) {
      AdjustDoomed(w, c, t, s);
    } else if c.DeleteWorker? {
      DeleteCommutes(w.workers, t, s, c.script);
    }
  }

  lemma DeleteCommutes(m: map<Target, Worker>, t: Target, s: Worker, u: Target)
    requires u != t
    ensures m[t := s] - {u} == (m - {u})[t := s]
  {
  }

  lemma AdjustDoomed(w: World, c: Compensation, t: Target, s: Worker)
    requires t in w.workers && OnWorker(c)
    ensures t in Undo(w, c).workers && t in Undo(SetWorker(w, t, s), c).workers
    ensures Undo(SetWorker(w, t, s), c) == SetWorker(Undo(w, c), t, Undo(SetWorker(w, t, s), c).workers[t])
  {
    var u := c.script;
    if u == t {
      SetTwice(w, t, t, s, Adjusted(s, c));
      SetTwice(w, t, t, Adjusted(w.workers[t], c), Adjusted(s, c));
    } else if u in w.workers {
      SetTwice(w, t, u, s, Adjusted(w.workers[u], c));
    }
  }

  /** On a Worker that will be deleted, any change with any compensation extends the chain. */
  lemma ExtendsDoomed(w: World, cs: seq<Compensation>, start: World, t: Target, s: Worker, c: Compensation)
    requires Reverts(w, cs, start) && DeleteWorker(t) in cs && t in w.workers && OnWorker(c) && c.script == t
    ensures Reverts(SetWorker(w, t, s), cs + [c], start)
  {
    var w' := SetWorker(w, t, s);
    assert (cs + [c])[..|cs|] == cs;
    var s' := Undo(w', c).workers[t];
    assert Undo(w', c) == SetWorker(w, t, s');
    DoomedState(w, cs, t, s');
  }

  // ---------------------------------------------------------------- steps that are undone wholly

  lemma CronUndone(w: World, t: Target, schedules: seq<string>)
    requires t in w.workers
    ensures
      var w' := SetWorker(w, t, w.workers[t].(cron := schedules));
      CanUndo(w', CronSchedules(t, w.workers[t].cron)) && Undo(w', CronSchedules(t, w.workers[t].cron)) == w
  {
    var w' := SetWorker(w, t, w.workers[t].(cron := schedules));
    assert Undo(w', CronSchedules(t, w.workers[t].cron)).workers == w.workers;
  }

  lemma AttachUndone(w: World, id: string, d: Domain)
    requires id !in w.domains
    ensures
      var w' := w.(domains := w.domains[id := d]);
      CanUndo(w', DetachDomain(id)) && Undo(w', DetachDomain(id)) == w
  {
    assert w.domains[id := d] - {id} == w.domains;
  }

  lemma KvUndone(w: World, id: string, title: string)
    requires id !in w.kv
    ensures
      var w' := w.(kv := w.kv[id := title]);
      CanUndo(w', Kv(id)) && Undo(w', Kv(id)) == w
  {
    assert w.kv[id := title] - {id} == w.kv;
  }

  lemma CreationUndone(w: World, t: Target, s: Worker)
    requires t !in w.workers
    ensures CanUndo(SetWorker(w, t, s), DeleteWorker(t)) && Undo(SetWorker(w, t, s), DeleteWorker(t)) == w
  {
    assert w.workers[t := s] - {t} == w.workers;
  }

  lemma StoreUndone(w: World, r: Ref, value: string)
    requires r !in w.creds
    ensures
      var w' := w.(creds := w.creds[r := value]);
      CanUndo(w', Credential(r)) && Undo(w', Credential(r)) == w
  {
    assert w.creds[r := value] - {r} == w.creds;
  }

  // ---------------------------------------------------------------- steps that leave a mark

  /** What may be left on a Worker: another traffic, or another workers.dev state. */
  datatype Mark = Live(live: Traffic) | Dev(enabled: bool)

  function Marked(s: Worker, m: Mark): Worker {
    match m
    case Live(l) => s.(live := l)
    case Dev(e) => s.(workersDev := e)
  }

  function MarkOn(w: World, t: Target, m: Mark): World {
    if t in w.workers then SetWorker(w, t, Marked(w.workers[t], m)) else w
  }

  /** The compensation overwrites what the mark changes. */
  predicate Covers(c: Compensation, t: Target, m: Mark) {
    c == DeleteWorker(t) || (m.Live? && c.Deployment? && c.script == t) || (m.Dev? && c.WorkersDev? && c.script == t)
  }

  lemma SetTwice(w: World, t: Target, u: Target, a: Worker, b: Worker)
    ensures t != u ==> SetWorker(SetWorker(w, t, a), u, b) == SetWorker(SetWorker(w, u, b), t, a)
    ensures t == u ==> SetWorker(SetWorker(w, t, a), u, b) == SetWorker(w, u, b)
  {
    if t != u {
      assert w.workers[t := a][u := b] == w.workers[u := b][t := a];
    } else {
      assert w.workers[t := a][u := b] == w.workers[u := b];
    }
  }

  lemma AdjustMarked(w: World, c: Compensation, t: Target, m: Mark)
    requires t in w.workers && OnWorker(c) && !Covers(c, t, m)
    ensures Undo(MarkOn(w, t, m), c) == MarkOn(Undo(w, c), t, m)
  {
    var u := c.script;
    var marked := Marked(w.workers[t], m);
    if u in w.workers {
      SetTwice(w, t, u, marked, Adjusted(if u == t then marked else w.workers[u], c));
      SetTwice(w, u, t, Adjusted(w.workers[u], c), Marked(Adjusted(w.workers[t], c), m));
    }
  }

  lemma UndoMarked(w: World, c: Compensation, t: Target, m: Mark)
    requires t in w.workers && !Covers(c, t, m)
    ensures t in Undo(w, c).workers && Undo(MarkOn(w, t, m), c) == MarkOn(Undo(w, c), t, m)
    ensures CanUndo(MarkOn(w, t, m), c) <==> CanUndo(w, c)
  {
    if OnWorker(c) {
      AdjustMarked(w, c, t, m);
    } else if c.DeleteWorker? {
      DeleteCommutes(w.workers, t, Marked(w.workers[t], m), c.script);
    }
  }

  /** A mark that no compensation overwrites is still there when all are undone. */
  lemma {:induction false} MarkStays(w: World, cs: seq<Compensation>, t: Target, m: Mark)
    requires t in w.workers && forall c :: c in cs ==> !Covers(c, t, m)
    ensures UndoAll(MarkOn(w, t, m), cs) == MarkOn(UndoAll(w, cs), t, m)
    ensures CanUndoAll(MarkOn(w, t, m), cs) <==> CanUndoAll(w, cs)
    decreases |cs|
  {
    if |cs| > 0 {
      UndoMarked(w, cs[|cs| - 1], t, m);
      MarkStays(Undo(w, cs[|cs| - 1]), cs[..|cs| - 1], t, m);
    }
  }

  /** A mark that some compensation overwrites is not. */
  lemma {:induction false} MarkVanishes(w: World, cs: seq<Compensation>, t: Target, m: Mark)
    requires t in w.workers && exists c :: c in cs && c.WorkersDev? && c.script == t
    requires m.Dev?
    ensures UndoAll(MarkOn(w, t, m), cs) == UndoAll(w, cs)
    ensures CanUndoAll(MarkOn(w, t, m), cs) <==> CanUndoAll(w, cs)
    decreases |cs|
  {
    var last, rest := cs[|cs| - 1], cs[..|cs| - 1];
    if Covers(last, t, m) {
      OverwritesMark(w, last, t, m);
    } else {
      UndoMarked(w, last, t, m);
      var c :| c in cs && c.WorkersDev? && c.script == t;
      InitLast(cs);
      assert c in rest;
      MarkVanishes(Undo(w, last), rest, t, m);
    }
  }

  lemma OverwritesMark(w: World, c: Compensation, t: Target, m: Mark)
    requires t in w.workers && Covers(c, t, m) && m.Dev?
    ensures Undo(MarkOn(w, t, m), c) == Undo(w, c) && (CanUndo(MarkOn(w, t, m), c) <==> CanUndo(w, c))
  {
    if c.DeleteWorker? {
      assert Undo(MarkOn(w, t, m), c).workers == Undo(w, c).workers;
    } else {
      SetTwice(w, t, t, Marked(w.workers[t], m), Adjusted(w.workers[t], c));
    }
  }

  /** A step whose compensation leaves a mark that earlier ones overwrite. */
  lemma ExtendsCovered(w: World, cs: seq<Compensation>, start: World, w': World, c: Compensation, t: Target, m: Mark)
    requires Reverts(w, cs, start) && t in w.workers && CanUndo(w', c) && Undo(w', c) == MarkOn(w, t, m)
    requires m.Dev? && exists d :: d in cs && d.WorkersDev? && d.script == t
    ensures Reverts(w', cs + [c], start)
  {
    assert (cs + [c])[..|cs|] == cs;
    MarkVanishes(w, cs, t, m);
  }

  /** A step whose compensation takes it back but for a mark. */
  lemma ExtendsMarked(w: World, cs: seq<Compensation>, start: World, w': World, c: Compensation, t: Target, m: Mark)
    requires Reverts(w, cs, start) && t in w.workers && CanUndo(w', c) && Undo(w', c) == MarkOn(w, t, m)
    requires forall c :: c in cs ==> !Covers(c, t, m)
    ensures Reverts(w', cs + [c], MarkOn(start, t, m))
  {
    assert (cs + [c])[..|cs|] == cs;
    MarkStays(w, cs, t, m);
  }
}
