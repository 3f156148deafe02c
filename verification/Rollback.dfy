/** What compensating a failed deployment leads back to: the rolled-back world exactly, when
    it is the start, and for which plans it always is. */
module Rollback {
  import opened Bytes
  import opened Saga
  import opened Steps

  // ---------------------------------------------------------------- the rolled-back world

  /** The traffic that re-promoting the stable version leaves; without one the promoted
      version stays. */
  function TrafficLeft(t: Traffic, promoted: string): Traffic {
    Whole(if CurrentStable(t).Some? then CurrentStable(t).value else promoted)
  }

  /** What is left of a Worker that was there before. */
  function Left(was: Worker, readable: bool, promoted: Option<string>, switched: bool): Worker {
    Worker(
      if promoted.Some? then TrafficLeft(was.live, promoted.value) else was.live,
      was.cron,
      if switched then readable && was.workersDev else was.workersDev)
  }

  function Lookup(m: map<Target, string>, t: Target): Option<string> {
    if t in m then Some(m[t]) else None
  }

  /** The start, but for the traffic of the Workers that were promoted and the workers.dev
      state of those that were switched. */
  function Residue(start: World, devReads: Target -> bool, promoted: map<Target, string>,
                   switched: set<Target>): World {
    start.(workers := map t | t in start.workers :: Left(start.workers[t], devReads(t), Lookup(promoted, t), t in switched))
  }

  /** A promotion is undone if one version had all the traffic, a switch if the state was seen
      as it was. */
  predicate Survives(was: Worker, readable: bool, promoted: bool, switched: bool) {
    (promoted ==> was.live.Whole?) && (switched && was.workersDev ==> readable)
  }

  lemma LeftIsSame(was: Worker, readable: bool, promoted: Option<string>, switched: bool)
    ensures Left(was, readable, promoted, switched) == was <==> Survives(was, readable, promoted.Some?, switched)
  {
  }

  ghost predicate AllSurvive(start: World, devReads: Target -> bool, promoted: map<Target, string>,
                             switched: set<Target>) {
    forall t :: t in start.workers ==> Survives(start.workers[t], devReads(t), t in promoted, t in switched)
  }

  /** The rolled-back world is the start exactly if no promotion met split traffic and no
      switch met an unreadable state that was on. */
  lemma ResidueIsStart(start: World, devReads: Target -> bool, promoted: map<Target, string>, switched: set<Target>)
    ensures Residue(start, devReads, promoted, switched) == start <==> AllSurvive(start, devReads, promoted, switched)
  {
    var r := Residue(start, devReads, promoted, switched);
    forall t | t in start.workers
      ensures r.workers[t] == start.workers[t] <==> Survives(start.workers[t], devReads(t), t in promoted, t in switched)
    {
      LeftIsSame(start.workers[t], devReads(t), Lookup(promoted, t), t in switched);
    }
    if AllSurvive(start, devReads, promoted, switched) {
      assert r.workers == start.workers;
    }
  }

  lemma ResidueAtStart(start: World, devReads: Target -> bool)
    ensures Residue(start, devReads, map[], {}) == start
  {
    ResidueIsStart(start, devReads, map[], {});
  }

  /** A promotion, or a switch, of a Worker that was there leaves its mark on it. */
  lemma ResiduePromoted(start: World, devReads: Target -> bool, promoted: map<Target, string>, switched: set<Target>,
                        t: Target, version: string)
    requires t !in promoted
    ensures Residue(start, devReads, promoted[t := version], switched)
         == if t in start.workers
            then MarkOn(Residue(start, devReads, promoted, switched), t, Live(TrafficLeft(start.workers[t].live, version)))
            else Residue(start, devReads, promoted, switched)
  {
    var r, r' := Residue(start, devReads, promoted, switched), Residue(start, devReads, promoted[t := version], switched);
    if t in start.workers {
      assert r'.workers == MarkOn(r, t, Live(TrafficLeft(start.workers[t].live, version))).workers;
    } else {
      assert r'.workers == r.workers;
    }
  }

  lemma ResidueSwitched(start: World, devReads: Target -> bool, promoted: map<Target, string>, switched: set<Target>,
                        t: Target)
    ensures Residue(start, devReads, promoted, switched + {t})
         == if t in start.workers
            then MarkOn(Residue(start, devReads, promoted, switched), t, Dev(devReads(t) && start.workers[t].workersDev))
            else Residue(start, devReads, promoted, switched)
  {
    var r, r' := Residue(start, devReads, promoted, switched), Residue(start, devReads, promoted, switched + {t});
    if t in start.workers {
      assert r'.workers == MarkOn(r, t, Dev(devReads(t) && start.workers[t].workersDev)).workers;
    } else {
      assert r'.workers == r.workers;
    }
  }

  // ---------------------------------------------------------------- what every step keeps

  /** Undoing what is pending leads to the rolled-back world. */
  ghost predicate Returns(start: World, devReads: Target -> bool, s: State) {
    Reverts(s.world, s.compensations, Residue(start, devReads, s.promoted, s.switched))
  }

  /** A Worker is there if it was or if its deletion is pending, never both. */
  ghost predicate WorkersKnown(start: World, s: State) {
    && (forall t: Target :: t in s.world.workers <==> t in start.workers || DeleteWorker(t) in s.compensations)
    && (forall t: Target :: DeleteWorker(t) in s.compensations ==> t !in start.workers)
  }

  ghost predicate SwitchPending(cs: seq<Compensation>, t: Target) {
    exists c :: c in cs && c.WorkersDev? && c.script == t
  }

  /** What was promoted and switched is what is pending. */
  ghost predicate PendingKnown(s: State) {
    && (forall c :: c in s.compensations && c.Deployment? ==> c.script in s.promoted)
    && (forall c :: c in s.compensations && c.WorkersDev? ==> c.script in s.switched)
    && (forall t: Target :: t in s.switched ==> SwitchPending(s.compensations, t))
  }

  /** Up to its promotion the traffic of a Worker is as it was, and behind it goes to one
      version; up to a switch its workers.dev state is as it was. */
  ghost predicate FieldsKept(start: World, s: State) {
    && (forall t: Target :: t in start.workers && t in s.world.workers && t !in s.promoted ==>
          s.world.workers[t].live == start.workers[t].live)
    && (forall t: Target :: t in s.promoted && t in s.world.workers ==> s.world.workers[t].live.Whole?)
    && (forall t: Target :: t in start.workers && t in s.world.workers && t !in s.switched ==>
          s.world.workers[t].workersDev == start.workers[t].workersDev)
  }

  ghost predicate ReadsKept(s: State) {
    && (forall t: Target :: t in s.stable ==>
          t in s.world.workers && s.stable[t] == CurrentStable(s.world.workers[t].live))
    && (forall t: Target :: t in s.crons ==> t in s.world.workers && s.crons[t] == s.world.workers[t].cron)
  }

  ghost predicate CredsKnown(start: World, s: State) {
    forall r: Ref :: r in s.world.creds ==> r in start.creds || Credential(r) in s.compensations
  }

  ghost predicate Sound(start: World, devReads: Target -> bool, s: State) {
    Returns(start, devReads, s) && Known(start, s)
  }

  /** How the world, what is pending and what was read hang together. */
  ghost predicate Known(start: World, s: State) {
    WorkersKnown(start, s) && PendingKnown(s) && FieldsKept(start, s) && ReadsKept(s) && CredsKnown(start, s)
  }

  /** What a step may count on: nothing was created or stored twice, and an update was preceded
      by reading what it updates. */
  ghost predicate Due(start: World, s: State, op: Op) {
    match op
    case Store(_, r, _) => r !in start.creds && Credential(r) !in s.compensations
    case Create(t) => t !in start.workers && DeleteWorker(t) !in s.compensations
    case Promote(t, isUpdate) => t in start.workers ==> isUpdate && t in s.stable
    case Rotate(_, _) => false
    case _ => true
  }

  /** A step that only reads. */
  lemma QuietKeeps(start: World, devReads: Target -> bool, s: State, s': State)
    requires Sound(start, devReads, s) && ReadsKept(s')
    requires s'.world == s.world && s'.compensations == s.compensations && s'.promoted == s.promoted
    requires s'.switched == s.switched
    ensures Sound(start, devReads, s')
  {
  }

  lemma StoreKeeps(start: World, devReads: Target -> bool, s: State, name: Resource, r: Ref, value: string)
    requires Sound(start, devReads, s) && r !in start.creds && Credential(r) !in s.compensations
    ensures Sound(start, devReads, DidStore(s, name, r, value, Created, Credential(r)))
  {
    StoreUndone(s.world, r, value);
    AddedKeeps(start, devReads, s, DidStore(s, name, r, value, Created, Credential(r)), Credential(r));
  }

  lemma AttachKeeps(start: World, devReads: Target -> bool, s: State, id: string, t: Target, hostname: string)
    requires Sound(start, devReads, s) && id !in s.world.domains
    ensures Sound(start, devReads, DidAttach(s, id, t, hostname))
  {
    AttachUndone(s.world, id, Domain(hostname, t));
    AddedKeeps(start, devReads, s, DidAttach(s, id, t, hostname), DetachDomain(id));
  }

  lemma CreateKvKeeps(start: World, devReads: Target -> bool, s: State, id: string, title: string)
    requires Sound(start, devReads, s) && id !in s.world.kv
    ensures Sound(start, devReads, DidCreateKv(s, id, title))
  {
    KvUndone(s.world, id, title);
    AddedKeeps(start, devReads, s, DidCreateKv(s, id, title), Kv(id));
  }

  /** Adding what its compensation takes away, apart from the Workers. */
  lemma AddedKeeps(start: World, devReads: Target -> bool, s: State, s': State, c: Compensation)
    requires Sound(start, devReads, s) && CanUndo(s'.world, c) && Undo(s'.world, c) == s.world
    requires s'.compensations == s.compensations + [c] && !OnWorker(c) && !c.DeleteWorker?
    requires s'.world.workers == s.world.workers
    requires forall r :: r in s'.world.creds ==> r in s.world.creds || c == Credential(r)
    requires s'.promoted == s.promoted && s'.switched == s.switched && s'.stable == s.stable && s'.crons == s.crons
    ensures Sound(start, devReads, s')
  {
    Extends(s.world, s.compensations, Residue(start, devReads, s.promoted, s.switched), s'.world, c);
  }

  lemma CreateKeeps(start: World, devReads: Target -> bool, s: State, t: Target, version: string, enabled: bool)
    requires Sound(start, devReads, s) && t !in start.workers && DeleteWorker(t) !in s.compensations
    ensures Sound(start, devReads, DidCreate(s, t, version, enabled))
  {
    var s' := DidCreate(s, t, version, enabled);
    CreationUndone(s.world, t, Worker(Whole(version), [], enabled));
    Extends(s.world, s.compensations, Residue(start, devReads, s.promoted, s.switched), s'.world, DeleteWorker(t));
    CreateKnown(start, s, t, version, enabled);
  }

  lemma CreateKnown(start: World, s: State, t: Target, version: string, enabled: bool)
    requires Known(start, s) && t !in start.workers && DeleteWorker(t) !in s.compensations
    ensures Known(start, DidCreate(s, t, version, enabled))
  {
    var s' := DidCreate(s, t, version, enabled);
    assert forall d :: d in s'.compensations <==> d in s.compensations || d == DeleteWorker(t);
    PendingStaysKnown(s, s', DeleteWorker(t));
    CreatedKnown(start, s, s', t);
    CreatedKept(start, s, s', t);
  }

  lemma CreatedKnown(start: World, s: State, s': State, t: Target)
    requires WorkersKnown(start, s) && CredsKnown(start, s) && t !in start.workers
    requires forall d :: d in s'.compensations <==> d in s.compensations || d == DeleteWorker(t)
    requires s'.world.workers.Keys == s.world.workers.Keys + {t} && s'.world.creds == s.world.creds
    ensures WorkersKnown(start, s') && CredsKnown(start, s')
  {
    forall u: Target ensures u in s'.world.workers <==> u in start.workers || DeleteWorker(u) in s'.compensations {
      assert u in s'.world.workers.Keys <==> u in s.world.workers.Keys || u == t;
      assert DeleteWorker(u) in s'.compensations <==> DeleteWorker(u) in s.compensations || u == t;
    }
  }

  lemma CreatedKept(start: World, s: State, s': State, t: Target)
    requires FieldsKept(start, s) && ReadsKept(s) && t !in start.workers && t !in s.world.workers
    requires t in s'.world.workers && s'.world.workers == s.world.workers[t := s'.world.workers[t]]
    requires s'.world.workers[t].live.Whole?
    requires s'.promoted == s.promoted && s'.switched == s.switched && s'.stable == s.stable && s'.crons == s.crons
    ensures FieldsKept(start, s') && ReadsKept(s')
  {
  }

  /** A change to a Worker that was there, undone but for a mark. */
  lemma ChangedReturns(w: World, cs: seq<Compensation>, back: World, t: Target, s: Worker, c: Compensation, m: Mark)
    requires Reverts(w, cs, back) && t in w.workers && OnWorker(c) && c.script == t
    requires Adjusted(s, c) == Marked(w.workers[t], m)
    requires forall d :: d in cs ==> !Covers(d, t, m)
    ensures Reverts(SetWorker(w, t, s), cs + [c], MarkOn(back, t, m))
  {
    SetTwice(w, t, t, s, Adjusted(s, c));
    ExtendsMarked(w, cs, back, SetWorker(w, t, s), c, t, m);
  }

  /** Nothing pending overwrites the mark of a first promotion, or of a first switch. */
  lemma NothingCovers(start: World, s: State, t: Target, m: Mark)
    requires WorkersKnown(start, s) && PendingKnown(s) && t in start.workers
    requires if m.Live? then t !in s.promoted else t !in s.switched
    ensures forall c :: c in s.compensations ==> !Covers(c, t, m)
  {
  }

  lemma UpdatePromoted(start: World, devReads: Target -> bool, s: State, t: Target, id: string)
    requires Returns(start, devReads, s) && t !in s.promoted && t in start.workers && t in s.world.workers
    requires t in s.stable && s.stable[t] == CurrentStable(start.workers[t].live)
    requires forall c :: c in s.compensations ==> !Covers(c, t, Live(TrafficLeft(start.workers[t].live, s.version)))
    ensures Returns(start, devReads, DidPromote(s, t, true, id))
  {
    ResiduePromoted(start, devReads, s.promoted, s.switched, t, s.version);
    ChangedReturns(s.world, s.compensations, Residue(start, devReads, s.promoted, s.switched), t,
                   s.world.workers[t].(live := Whole(s.version)), Deployment(t, s.stable[t]),
                   Live(TrafficLeft(start.workers[t].live, s.version)));
  }

  /** Any further promotion found the one version of the promotion before. */
  lemma PromotedAgain(start: World, devReads: Target -> bool, s: State, t: Target, id: string)
    requires Returns(start, devReads, s) && t in s.promoted && t in s.world.workers && t in s.stable
    requires s.world.workers[t].live.Whole? && s.stable[t] == CurrentStable(s.world.workers[t].live)
    ensures Returns(start, devReads, DidPromote(s, t, true, id))
  {
    var was, c := s.world.workers[t], Deployment(t, s.stable[t]);
    var w' := SetWorker(s.world, t, was.(live := Whole(s.version)));
    SetTwice(s.world, t, t, was.(live := Whole(s.version)), was);
    SameWorker(s.world, t);
    assert Adjusted(was.(live := Whole(s.version)), c) == was;
    Extends(s.world, s.compensations, Residue(start, devReads, s.promoted, s.switched), w', c);
  }

  lemma NewPromoted(start: World, devReads: Target -> bool, s: State, t: Target, isUpdate: bool, id: string)
    requires Returns(start, devReads, s) && t !in start.workers && t in s.world.workers
    requires DeleteWorker(t) in s.compensations
    ensures Returns(start, devReads, DidPromote(s, t, isUpdate, id))
  {
    if t !in s.promoted {
      ResiduePromoted(start, devReads, s.promoted, s.switched, t, s.version);
    }
    ExtendsDoomed(s.world, s.compensations, Residue(start, devReads, s.promoted, s.switched), t,
                  s.world.workers[t].(live := Whole(s.version)), Deployment(t, PreviousOf(s, t, isUpdate)));
  }

  lemma PromoteReturns(start: World, devReads: Target -> bool, s: State, t: Target, isUpdate: bool, id: string)
    requires Sound(start, devReads, s) && t in s.world.workers
    requires t in start.workers ==> isUpdate && t in s.stable
    ensures Returns(start, devReads, DidPromote(s, t, isUpdate, id))
  {
    if t !in start.workers {
      NewPromoted(start, devReads, s, t, isUpdate, id);
    } else if t in s.promoted {
      PromotedAgain(start, devReads, s, t, id);
    } else {
      NothingCovers(start, s, t, Live(TrafficLeft(start.workers[t].live, s.version)));
      UpdatePromoted(start, devReads, s, t, id);
    }
  }

  lemma PromoteKeeps(start: World, devReads: Target -> bool, s: State, t: Target, isUpdate: bool, id: string)
    requires Sound(start, devReads, s) && t in s.world.workers
    requires t in start.workers ==> isUpdate && t in s.stable
    ensures Sound(start, devReads, DidPromote(s, t, isUpdate, id))
  {
    PromoteReturns(start, devReads, s, t, isUpdate, id);
    PromoteChanges(s, t, isUpdate, id);
    ChangeKeeps(start, s, DidPromote(s, t, isUpdate, id), t);
  }

  lemma PromoteChanges(s: State, t: Target, isUpdate: bool, id: string)
    requires t in s.world.workers
    ensures
      var s' := DidPromote(s, t, isUpdate, id);
      var c := Deployment(t, PreviousOf(s, t, isUpdate));
      && t in s'.world.workers && s'.world == SetWorker(s.world, t, s'.world.workers[t])
      && s'.compensations == s.compensations + [c] && s'.compensations[|s'.compensations| - 1] == c && Changed(s, s', t, c)
  {
    var s' := DidPromote(s, t, isUpdate, id);
    assert s'.promoted.Keys == s.promoted.Keys + {t};
  }

  lemma OldSwitched(start: World, devReads: Target -> bool, s: State, t: Target, wanted: bool)
    requires Returns(start, devReads, s) && t in start.workers && t in s.world.workers
    requires s.world.workers[t].workersDev == start.workers[t].workersDev
    requires forall c :: c in s.compensations ==> !Covers(c, t, Dev(devReads(t) && start.workers[t].workersDev))
    ensures Returns(start, devReads, DidSwitch(s, t, DevSeen(s.world, devReads, t), wanted))
  {
    var seen := DevSeen(s.world, devReads, t);
    ResidueSwitched(start, devReads, s.promoted, s.switched, t);
    ChangedReturns(s.world, s.compensations, Residue(start, devReads, s.promoted, s.switched), t,
                   s.world.workers[t].(workersDev := wanted), WorkersDev(t, seen), Dev(seen));
  }

  /** What a further switch leaves is overwritten by the compensation of the first. */
  lemma SwitchedAgain(start: World, devReads: Target -> bool, s: State, t: Target, wanted: bool)
    requires Returns(start, devReads, s) && t in s.switched && t in s.world.workers && SwitchPending(s.compensations, t)
    ensures Returns(start, devReads, DidSwitch(s, t, DevSeen(s.world, devReads, t), wanted))
  {
    var was, seen := s.world.workers[t], DevSeen(s.world, devReads, t);
    assert s.switched + {t} == s.switched;
    SetTwice(s.world, t, t, was.(workersDev := wanted), was.(workersDev := seen));
    ExtendsCovered(s.world, s.compensations, Residue(start, devReads, s.promoted, s.switched),
                   SetWorker(s.world, t, was.(workersDev := wanted)), WorkersDev(t, seen), t, Dev(seen));
  }

  lemma NewSwitched(start: World, devReads: Target -> bool, s: State, t: Target, seen: bool, wanted: bool)
    requires Returns(start, devReads, s) && t !in start.workers && t in s.world.workers
    requires DeleteWorker(t) in s.compensations
    ensures Returns(start, devReads, DidSwitch(s, t, seen, wanted))
  {
    ResidueSwitched(start, devReads, s.promoted, s.switched, t);
    ExtendsDoomed(s.world, s.compensations, Residue(start, devReads, s.promoted, s.switched), t,
                  s.world.workers[t].(workersDev := wanted), WorkersDev(t, seen));
  }

  lemma SwitchReturns(start: World, devReads: Target -> bool, s: State, t: Target, wanted: bool)
    requires Sound(start, devReads, s) && t in s.world.workers
    ensures Returns(start, devReads, DidSwitch(s, t, DevSeen(s.world, devReads, t), wanted))
  {
    if t !in start.workers {
      NewSwitched(start, devReads, s, t, DevSeen(s.world, devReads, t), wanted);
    } else if t in s.switched {
      SwitchedAgain(start, devReads, s, t, wanted);
    } else {
      NothingCovers(start, s, t, Dev(devReads(t) && start.workers[t].workersDev));
      OldSwitched(start, devReads, s, t, wanted);
    }
  }

  lemma SwitchKeeps(start: World, devReads: Target -> bool, s: State, t: Target, wanted: bool)
    requires Sound(start, devReads, s) && t in s.world.workers
    ensures Sound(start, devReads, DidSwitch(s, t, DevSeen(s.world, devReads, t), wanted))
  {
    SwitchReturns(start, devReads, s, t, wanted);
    ChangeKeeps(start, s, DidSwitch(s, t, DevSeen(s.world, devReads, t), wanted), t);
  }

  /** What a change to one Worker under its own compensation leaves as it is. */
  lemma ChangeKeeps(start: World, s: State, s': State, t: Target)
    requires Known(start, s)
    requires t in s.world.workers && t in s'.world.workers && s'.world == SetWorker(s.world, t, s'.world.workers[t])
    requires |s'.compensations| > 0 && s'.compensations == s.compensations + [s'.compensations[|s'.compensations| - 1]]
    requires Changed(s, s', t, s'.compensations[|s'.compensations| - 1])
    ensures Known(start, s')
  {
    var c := s'.compensations[|s'.compensations| - 1];
    assert forall d :: d in s'.compensations <==> d in s.compensations || d == c;
    PendingStaysKnown(s, s', c);
    FieldsStayKept(start, s, s', t, c);
    ReadsStayKept(s, s', t, c);
    assert WorkersKnown(start, s');
    assert CredsKnown(start, s');
  }

  lemma FieldsStayKept(start: World, s: State, s': State, t: Target, c: Compensation)
    requires FieldsKept(start, s) && t in s.world.workers && t in s'.world.workers && Changed(s, s', t, c)
    requires s'.world == SetWorker(s.world, t, s'.world.workers[t])
    ensures FieldsKept(start, s')
  {
    assert forall u: Target :: u in s'.promoted <==> u in s.promoted || (c.Deployment? && u == t);
    assert forall u: Target :: u in s'.switched <==> u in s.switched || (c.WorkersDev? && u == t);
    forall u: Target | u in s'.world.workers
      ensures u in start.workers && u !in s'.promoted ==> s'.world.workers[u].live == start.workers[u].live
      ensures u in s'.promoted ==> s'.world.workers[u].live.Whole?
      ensures u in start.workers && u !in s'.switched ==> s'.world.workers[u].workersDev == start.workers[u].workersDev
    {
      assert u != t ==> s'.world.workers[u] == s.world.workers[u];
    }
  }

  lemma ReadsStayKept(s: State, s': State, t: Target, c: Compensation)
    requires ReadsKept(s) && t in s.world.workers && t in s'.world.workers && Changed(s, s', t, c)
    requires s'.world == SetWorker(s.world, t, s'.world.workers[t])
    ensures ReadsKept(s')
  {
  }

  lemma PendingStaysKnown(s: State, s': State, c: Compensation)
    requires PendingKnown(s) && forall d :: d in s'.compensations <==> d in s.compensations || d == c
    requires s'.promoted.Keys == if c.Deployment? then s.promoted.Keys + {c.script} else s.promoted.Keys
    requires s'.switched == if c.WorkersDev? then s.switched + {c.script} else s.switched
    ensures PendingKnown(s')
  {
    forall t: Target | t in s'.switched ensures SwitchPending(s'.compensations, t) {
      if t in s.switched {
        var d :| d in s.compensations && d.WorkersDev? && d.script == t;
        assert d in s'.compensations;
      } else {
        assert c in s'.compensations;
      }
    }
  }

  predicate Changed(s: State, s': State, t: Target, c: Compensation)
    requires t in s.world.workers && t in s'.world.workers
  {
    var was, now := s.world.workers[t], s'.world.workers[t];
    && OnWorker(c) && c.script == t
    && (if c.Deployment? then s'.promoted.Keys == s.promoted.Keys + {t} && now.live.Whole? && s'.stable == s.stable - {t}
        else s'.promoted == s.promoted && now.live == was.live && s'.stable == s.stable)
    && (if c.WorkersDev? then s'.switched == s.switched + {t} else s'.switched == s.switched && now.workersDev == was.workersDev)
    && (if c.CronSchedules? then s'.crons == s.crons - {t} else s'.crons == s.crons && now.cron == was.cron)
  }

  lemma SetCronKeeps(start: World, devReads: Target -> bool, s: State, t: Target)
    requires Sound(start, devReads, s) && t in s.world.workers && t in s.crons
    ensures Sound(start, devReads, DidSetCron(s, t))
  {
    CronUndone(s.world, t, [REFRESH_CRON]);
    Extends(s.world, s.compensations, Residue(start, devReads, s.promoted, s.switched), DidSetCron(s, t).world,
            CronSchedules(t, s.crons[t]));
    ChangeKeeps(start, s, DidSetCron(s, t), t);
  }

  lemma ReadStableKeeps(start: World, devReads: Target -> bool, s: State, t: Target)
    requires Sound(start, devReads, s) && t in s.world.workers
    ensures Sound(start, devReads, DidReadStable(s, t))
  {
    QuietKeeps(start, devReads, s, DidReadStable(s, t));
  }

  lemma ReadCronKeeps(start: World, devReads: Target -> bool, s: State, t: Target)
    requires Sound(start, devReads, s) && t in s.world.workers
    ensures Sound(start, devReads, DidReadCron(s, t))
  {
    QuietKeeps(start, devReads, s, DidReadCron(s, t));
  }

  lemma StepKeeps(start: World, env: Outside, s: State, op: Op)
    requires Sound(start, env.devReads, s) && Due(start, s, op) && Step(s, op, env).Some?
    ensures Sound(start, env.devReads, Step(s, op, env).value)
  {
    var a, dev := env.answers(s.clock), env.devReads;
    if Quiet(op) {
      QuietStep(env, s, op);
      QuietKeeps(start, dev, s, Step(s, op, env).value);
      return;
    }
    match op
    case Store(name, r, v) => StoreKeeps(start, dev, s, name, r, v);
    case CreateKv(title) => if !s.found { CreateKvKeeps(start, dev, s, a.text, title); }
    case ReadStable(t) => ReadStableKeeps(start, dev, s, t);
    case ReadCron(t) => ReadCronKeeps(start, dev, s, t);
    case Create(t) => CreateKeeps(start, dev, s, t, a.text, a.enabled);
    case Promote(t, isUpdate) => PromoteKeeps(start, dev, s, t, isUpdate, a.text);
    case SetCron(t) => if s.crons[t] != [REFRESH_CRON] { SetCronKeeps(start, dev, s, t); }
    case Switch(t, wanted) =>
      if DevSeen(s.world, dev, t) != wanted {
        SwitchKeeps(start, dev, s, t, wanted);
      } else {
        QuietKeeps(start, dev, s, Note(s, WorkersDevFor(t.1), PreExisting));
      }
    case Attach(t, hostname) => if !s.found { AttachKeeps(start, dev, s, a.text, t, hostname); }
  }
}
