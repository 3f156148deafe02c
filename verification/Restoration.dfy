/** Whole deployments: the world a failed one is rolled back to, when that is the start, and
    the plans for which it always is. */
module Restoration {
  import opened Bytes
  import opened Saga
  import opened Steps
  import opened Rollback
  import opened Programs

  // ---------------------------------------------------------------- at every failure point

  lemma InitialSound(start: World, devReads: Target -> bool, clock: nat)
    ensures Sound(start, devReads, Initial(start, clock))
  {
    ResidueAtStart(start, devReads);
  }

  lemma InitialOrderly(start: World, clock: nat, ops: seq<Op>)
    requires Neat(start, ops)
    ensures Orderly(start, Initial(start, clock), ops)
  {
    assert Initial(start, clock).stable.Keys == {};
  }

  lemma NeatReverts(start: World, clock: nat, env: Outside, ops: seq<Op>)
    requires Neat(start, ops)
    ensures
      var o := Run(Initial(start, clock), ops, env);
      !o.ok ==> Reverts(o.state.world, o.state.compensations, Residue(start, env.devReads, o.state.promoted, o.state.switched))
  {
    InitialSound(start, env.devReads, clock);
    InitialOrderly(start, clock, ops);
    RunKeeps(start, env, Initial(start, clock), ops);
  }

  /** Wherever a deployment fails, every pending action can be undone in its turn, and that
      leads back to the start but for the traffic of the Workers that were promoted and the
      workers.dev state of those that were switched. */
  lemma RolledBackExactly(start: World, clock: nat, env: Outside, plan: Plan, nodes: string)
    requires PlanReady(start, plan) && CreatesApart(plan)
    ensures
      var o := Deployed(start, clock, env, plan, nodes);
      !o.ok ==>
        CanUndoAll(o.state.world, o.state.compensations)
        && UndoAll(o.state.world, o.state.compensations) == Residue(start, env.devReads, o.state.promoted, o.state.switched)
  {
    PlanNeat(start, plan, nodes);
    NeatReverts(start, clock, env, PlanOps(plan, nodes));
  }

  // ---------------------------------------------------------------- the plans that are always restored

  /** What a run has promoted and switched. */
  lemma {:induction false} HistoryGrows(s: State, ops: seq<Op>, env: Outside)
    ensures s.promoted.Keys <= Run(s, ops, env).state.promoted.Keys && s.switched <= Run(s, ops, env).state.switched
    decreases |ops|
  {
    if |ops| > 0 {
      var next := Step(s, ops[0], env);
      if next.Some? {
        PromotedKeys(env, s, ops[0]);
        SwitchedKeys(env, s, ops[0]);
        HistoryGrows(next.value, ops[1..], env);
      }
    }
  }

  /** The run has promoted this, or has switched on this without having seen its state. */
  predicate Happened(s: State, devReads: Target -> bool, op: Op) {
    match op
    case Promote(t, _) => t in s.promoted
    case Switch(t, wanted) => wanted && !devReads(t) ==> t in s.switched
    case _ => true
  }

  lemma {:induction false} AllHappened(s: State, ops: seq<Op>, env: Outside, i: nat)
    requires Run(s, ops, env).ok && i < |ops|
    ensures Happened(Run(s, ops, env).state, env.devReads, ops[i])
    decreases |ops|
  {
    var next := Step(s, ops[0], env);
    if i > 0 {
      AllHappened(next.value, ops[1..], env, i - 1);
    } else {
      PromotedKeys(env, s, ops[0]);
      SwitchedKeys(env, s, ops[0]);
      HistoryGrows(next.value, ops[1..], env);
    }
  }

  /** What has been promoted, or switched on without having been seen, was called for. */
  lemma {:induction false} OnlyCalled(s: State, ops: seq<Op>, env: Outside, t: Target)
    ensures
      var s' := Run(s, ops, env).state;
      && (t in s'.promoted ==> t in s.promoted || Promote(t, true) in ops || Promote(t, false) in ops)
      && (t in s'.switched && !env.devReads(t) ==> t in s.switched || Switch(t, true) in ops)
    decreases |ops|
  {
    if |ops| > 0 {
      var next := Step(s, ops[0], env);
      if next.Some? {
        PromotedKeys(env, s, ops[0]);
        SwitchedKeys(env, s, ops[0]);
        HeadTail(ops);
        OnlyCalled(next.value, ops[1..], env, t);
      }
    }
  }

  /** The target of a plan is not there yet, or all its traffic goes to one version and its
      workers.dev state can be read if it is on and stays on. */
  predicate Harmless(start: World, devReads: Target -> bool, t: Target, wanted: bool) {
    t in start.workers ==> start.workers[t].live.Whole? && (start.workers[t].workersDev && wanted ==> devReads(t))
  }

  ghost predicate PlanHarmless(start: World, devReads: Target -> bool, plan: Plan) {
    RelaysAreHarmless(start, devReads, plan.relays)
    && Harmless(start, devReads, plan.sub.target, plan.sub.endpoint.workersDev)
  }

  /** The same of single calls. */
  predicate HarmlessOp(start: World, devReads: Target -> bool, op: Op) {
    match op
    case Promote(t, _) => t in start.workers ==> start.workers[t].live.Whole?
    case Switch(t, wanted) => t in start.workers && start.workers[t].workersDev && wanted ==> devReads(t)
    case _ => true
  }

  ghost predicate AllHarmless(start: World, devReads: Target -> bool, ops: seq<Op>) {
    forall i :: 0 <= i < |ops| ==> HarmlessOp(start, devReads, ops[i])
  }

  lemma HarmlessAppend(start: World, devReads: Target -> bool, a: seq<Op>, b: seq<Op>)
    ensures AllHarmless(start, devReads, a + b) <==> AllHarmless(start, devReads, a) && AllHarmless(start, devReads, b)
  {
    var s := a + b;
    assert forall i :: 0 <= i < |a| ==> a[i] == s[i];
    assert forall i :: 0 <= i < |b| ==> b[i] == s[|a| + i];
  }

  lemma ReleaseHarmless(start: World, devReads: Target -> bool, t: Target, spec: EndpointSpec, isUpdate: bool,
                        cron: bool)
    ensures AllHarmless(start, devReads, ReleaseOps(t, spec, isUpdate, cron)) <==> Harmless(start, devReads, t, spec.workersDev)
  {
    var up, pr, cr := UploadOps(t, isUpdate), [Promote(t, isUpdate)], CronOps(t, cron);
    var sw, ex := [Switch(t, spec.workersDev)], ExposeOps(t, spec);
    ReleaseParts(t, spec, isUpdate, cron);
    HarmlessAppend(start, devReads, up, pr);
    HarmlessAppend(start, devReads, up + pr, cr);
    HarmlessAppend(start, devReads, up + pr + cr, sw);
    HarmlessAppend(start, devReads, up + pr + cr + sw, ex);
    assert pr[0] == Promote(t, isUpdate) && sw[0] == Switch(t, spec.workersDev);
  }

  /** The calls of these kinds are all harmless. */
  lemma InertHarmless(start: World, devReads: Target -> bool, ops: seq<Op>)
    requires forall i :: 0 <= i < |ops| ==> !ops[i].Promote? && !ops[i].Switch?
    ensures AllHarmless(start, devReads, ops)
  {
  }

  lemma RelayHarmless(start: World, devReads: Target -> bool, spec: RelaySpec)
    ensures AllHarmless(start, devReads, RelayOps(spec)) <==> Harmless(start, devReads, spec.target, spec.endpoint.workersDev)
  {
    var release := ReleaseOps(spec.target, spec.endpoint, spec.origin.LinkedRelay?, false);
    ReleaseHarmless(start, devReads, spec.target, spec.endpoint, spec.origin.LinkedRelay?, false);
    InertHarmless(start, devReads, RelaySecretOps(spec.origin) + [RelayStage(spec.origin)]);
    HarmlessAppend(start, devReads, RelaySecretOps(spec.origin) + [RelayStage(spec.origin)], release);
  }

  ghost predicate RelaysAreHarmless(start: World, devReads: Target -> bool, relays: seq<RelaySpec>) {
    forall i :: 0 <= i < |relays| ==> Harmless(start, devReads, relays[i].target, relays[i].endpoint.workersDev)
  }

  lemma {:induction false} RelaysHarmless(start: World, devReads: Target -> bool, relays: seq<RelaySpec>)
    ensures AllHarmless(start, devReads, RelaysOps(relays)) <==> RelaysAreHarmless(start, devReads, relays)
  {
    if |relays| > 0 {
      var init, last := relays[..|relays| - 1], relays[|relays| - 1];
      RelaysHarmless(start, devReads, init);
      RelayHarmless(start, devReads, last);
      HarmlessAppend(start, devReads, RelaysOps(init), RelayOps(last));
      assert forall i :: 0 <= i < |init| ==> init[i] == relays[i];
    }
  }

  lemma SubHarmless(start: World, devReads: Target -> bool, spec: SubSpec, nodes: string)
    ensures AllHarmless(start, devReads, SubOps(spec, nodes))
       <==> Harmless(start, devReads, spec.target, spec.endpoint.workersDev)
  {
    var before := SubPreparation(spec, nodes);
    var release := ReleaseOps(spec.target, spec.endpoint, spec.origin.LinkedSub?, true);
    InertHarmless(start, devReads, before);
    InertHarmless(start, devReads, RotateOps(spec.origin, nodes));
    ReleaseHarmless(start, devReads, spec.target, spec.endpoint, spec.origin.LinkedSub?, true);
    HarmlessAppend(start, devReads, before, release);
    HarmlessAppend(start, devReads, before + release, RotateOps(spec.origin, nodes));
  }

  /** A plan is harmless exactly if its calls are. */
  lemma PlanOpsHarmless(start: World, devReads: Target -> bool, plan: Plan, nodes: string)
    ensures AllHarmless(start, devReads, PlanOps(plan, nodes)) <==> PlanHarmless(start, devReads, plan)
  {
    RelaysHarmless(start, devReads, plan.relays);
    SubHarmless(start, devReads, plan.sub, nodes);
    HarmlessAppend(start, devReads, RelaysOps(plan.relays), SubOps(plan.sub, nodes));
  }

  /** A deployment that fails is taken back: every pending action can be undone in its turn,
      and that leads back to the start. */
  ghost predicate Restored(start: World, o: Outcome) {
    o.ok || Reverts(o.state.world, o.state.compensations, start)
  }

  /** Whatever call fails. */
  ghost predicate AlwaysRestored(start: World, clock: nat, devReads: Target -> bool, plan: Plan, nodes: string) {
    forall answers: nat -> Answer :: Restored(start, Deployed(start, clock, Outside(answers, devReads), plan, nodes))
  }

  lemma HarmlessSurvives(start: World, env: Outside, clock: nat, ops: seq<Op>, t: Target)
    requires AllHarmless(start, env.devReads, ops) && t in start.workers
    ensures
      var s := Run(Initial(start, clock), ops, env).state;
      Survives(start.workers[t], env.devReads(t), t in s.promoted, t in s.switched)
  {
    OnlyCalled(Initial(start, clock), ops, env, t);
    assert forall op :: op in ops ==> HarmlessOp(start, env.devReads, op);
  }

  /** A harmless plan is restored at every failure point. */
  lemma HarmlessRestored(start: World, clock: nat, env: Outside, plan: Plan, nodes: string)
    requires PlanReady(start, plan) && CreatesApart(plan) && PlanHarmless(start, env.devReads, plan)
    ensures Restored(start, Deployed(start, clock, env, plan, nodes))
  {
    var ops, s := PlanOps(plan, nodes), Deployed(start, clock, env, plan, nodes).state;
    RolledBackExactly(start, clock, env, plan, nodes);
    PlanOpsHarmless(start, env.devReads, plan, nodes);
    forall t | t in start.workers ensures Survives(start.workers[t], env.devReads(t), t in s.promoted, t in s.switched) {
      HarmlessSurvives(start, env, clock, ops, t);
    }
    ResidueIsStart(start, env.devReads, s.promoted, s.switched);
  }

  // ---------------------------------------------------------------- and the plans that are not

  /** The same answers before call `n`; that one fails, and everything behind it works. */
  function Cut(env: Outside, n: nat): Outside {
    Outside((k: nat) => if k < n then env.answers(k) else Answer(k != n, "", false), env.devReads)
  }

  /** Verification, or the rotation of the topology. */
  predicate Final(op: Op) {
    op.Check? || op.Rotate?
  }

  /** Every plan ends with a call that can fail. */
  lemma PlanEnds(plan: Plan, nodes: string)
    ensures |PlanOps(plan, nodes)| > 0 && Final(PlanOps(plan, nodes)[|PlanOps(plan, nodes)| - 1])
  {
  }

  /** If the last call of a run that works out had failed, everything before it would have
      been done all the same. */
  lemma LastFails(s: State, ops: seq<Op>, env: Outside)
    requires |ops| > 0 && Final(ops[|ops| - 1]) && Run(s, ops, env).ok
    ensures
      var done := Run(s, ops[..|ops| - 1], env);
      done.ok && Run(s, ops, Cut(env, done.state.clock)) == Outcome(false, Tick(done.state))
  {
    var init, last := ops[..|ops| - 1], ops[|ops| - 1];
    var done := Run(s, init, env);
    var cut := Cut(env, done.state.clock);
    InitLast(ops);
    RunAppend(s, init, [last], env);
    RunAgrees(s, init, env, cut);
    RunAppend(s, init, [last], cut);
    RunOne(done.state, last, cut);
  }

  lemma HarmfulMarks(start: World, devReads: Target -> bool, s: State, op: Op)
    requires Happened(s, devReads, op) && !HarmlessOp(start, devReads, op)
    ensures Residue(start, devReads, s.promoted, s.switched) != start
  {
    assert !Survives(start.workers[op.t], devReads(op.t), op.t in s.promoted, op.t in s.switched);
    ResidueIsStart(start, devReads, s.promoted, s.switched);
  }

  lemma HarmfulCall(start: World, devReads: Target -> bool, ops: seq<Op>) returns (i: nat)
    requires |ops| > 0 && Final(ops[|ops| - 1]) && !AllHarmless(start, devReads, ops)
    ensures i < |ops| - 1 && !HarmlessOp(start, devReads, ops[..|ops| - 1][i])
  {
    i :| 0 <= i < |ops| && !HarmlessOp(start, devReads, ops[i]);
  }

  /** The run in which everything works but the last call. */
  function LastCut(start: World, clock: nat, env: Outside, ops: seq<Op>): Outside {
    Cut(env, Run(Initial(start, clock), if |ops| > 0 then ops[..|ops| - 1] else [], env).state.clock)
  }

  /** Failing the last call of a run that works out, but for a harmful call, does not lead back
      to the start. */
  lemma LastLost(start: World, clock: nat, env: Outside, ops: seq<Op>)
    requires Neat(start, ops) && |ops| > 0 && Final(ops[|ops| - 1]) && !AllHarmless(start, env.devReads, ops)
    requires Run(Initial(start, clock), ops, env).ok
    ensures
      var o := Run(Initial(start, clock), ops, LastCut(start, clock, env, ops));
      && !o.ok && CanUndoAll(o.state.world, o.state.compensations)
      && UndoAll(o.state.world, o.state.compensations) != start
  {
    var s, init := Initial(start, clock), ops[..|ops| - 1];
    LastFails(s, ops, env);
    NeatReverts(start, clock, LastCut(start, clock, env, ops), ops);
    var i := HarmfulCall(start, env.devReads, ops);
    AllHappened(s, init, env, i);
    HarmfulMarks(start, env.devReads, Run(s, init, env).state, init[i]);
  }

  /** A plan that can work out and is not harmless has a failure from which it is not
      restored, although every compensating call works. */
  lemma HarmfulLost(start: World, clock: nat, env: Outside, plan: Plan, nodes: string)
    requires PlanReady(start, plan) && CreatesApart(plan) && !PlanHarmless(start, env.devReads, plan)
    requires Deployed(start, clock, env, plan, nodes).ok
    ensures
      var o := Deployed(start, clock, LastCut(start, clock, env, PlanOps(plan, nodes)), plan, nodes);
      && !o.ok && CanUndoAll(o.state.world, o.state.compensations)
      && UndoAll(o.state.world, o.state.compensations) != start
  {
    PlanEnds(plan, nodes);
    PlanNeat(start, plan, nodes);
    PlanOpsHarmless(start, env.devReads, plan, nodes);
    LastLost(start, clock, env, PlanOps(plan, nodes));
  }

  // ---------------------------------------------------------------- and those that create one Worker twice

  lemma {:induction false} GoneStaysGone(w: World, cs: seq<Compensation>, t: Target)
    requires t !in w.workers && DeleteWorker(t) in cs
    ensures !CanUndoAll(w, cs)
    decreases |cs|
  {
    var last, rest := cs[|cs| - 1], cs[..|cs| - 1];
    InitLast(cs);
    if last != DeleteWorker(t) {
      GoneStaysGone(Undo(w, last), rest, t);
    }
  }

  /** No compensation brings a Worker back that an earlier one has deleted. */
  lemma {:induction false} DeletedOnce(w: World, cs: seq<Compensation>, t: Target)
    requires multiset(cs)[DeleteWorker(t)] >= 2
    ensures !CanUndoAll(w, cs)
    decreases |cs|
  {
    var last, rest := cs[|cs| - 1], cs[..|cs| - 1];
    InitLast(cs);
    assert multiset(cs) == multiset(rest) + multiset{last};
    if last == DeleteWorker(t) {
      assert multiset(rest)[DeleteWorker(t)] >= 1;
      GoneStaysGone(Undo(w, last), rest, t);
    } else {
      DeletedOnce(Undo(w, last), rest, t);
    }
  }

  /** How often a list of calls creates this Worker. */
  function Creations(ops: seq<Op>, t: Target): nat
    decreases |ops|
  {
    if |ops| == 0 then 0 else (if ops[0] == Create(t) then 1 else 0) + Creations(ops[1..], t)
  }

  lemma {:induction false} CreationsAppend(a: seq<Op>, b: seq<Op>, t: Target)
    ensures Creations(a + b, t) == Creations(a, t) + Creations(b, t)
    decreases |a|
  {
    if |a| == 0 {
      NilLeft(b);
    } else {
      assert (a + b)[0] == a[0] && (a + b)[1..] == a[1..] + b;
      CreationsAppend(a[1..], b, t);
    }
  }

  lemma {:induction false} CreatedOnce(ops: seq<Op>, t: Target)
    requires Create(t) in ops
    ensures Creations(ops, t) >= 1
    decreases |ops|
  {
    if ops[0] != Create(t) {
      HeadTail(ops);
      CreatedOnce(ops[1..], t);
    }
  }

  lemma StepDeletes(s: State, op: Op, env: Outside, t: Target)
    requires Step(s, op, env).Some? && op == Create(t)
    ensures Step(s, op, env).value.compensations == s.compensations + [DeleteWorker(t)]
  {
  }

  /** Every creation has its deletion pending. */
  lemma {:induction false} DeletesPending(s: State, ops: seq<Op>, env: Outside, t: Target)
    requires Run(s, ops, env).ok
    ensures multiset(Run(s, ops, env).state.compensations)[DeleteWorker(t)]
         >= multiset(s.compensations)[DeleteWorker(t)] + Creations(ops, t)
    decreases |ops|
  {
    if |ops| > 0 {
      var next := Step(s, ops[0], env).value;
      DeletesPending(next, ops[1..], env, t);
      if ops[0] == Create(t) {
        StepDeletes(s, ops[0], env, t);
      } else {
        PendingGrows(env, s, ops[0]);
        PrefixCounts(s.compensations, next.compensations, DeleteWorker(t));
      }
    }
  }

  lemma PrefixCounts(a: seq<Compensation>, b: seq<Compensation>, c: Compensation)
    requires a <= b
    ensures multiset(b)[c] >= multiset(a)[c]
  {
    assert b == a + b[|a|..];
  }

  lemma ReleaseCreates(t: Target, spec: EndpointSpec, cron: bool)
    ensures Create(t) in ReleaseOps(t, spec, false, cron)
  {
    assert ReleaseOps(t, spec, false, cron)[0] == Create(t);
  }

  lemma RelayCreated(spec: RelaySpec, t: Target)
    requires t in RelayCreates(spec)
    ensures Creations(RelayOps(spec), t) >= 1
  {
    ReleaseCreates(t, spec.endpoint, false);
    assert Create(t) in RelayOps(spec);
    CreatedOnce(RelayOps(spec), t);
  }

  lemma SubCreated(spec: SubSpec, nodes: string, t: Target)
    requires t in SubCreates(spec)
    ensures Creations(SubOps(spec, nodes), t) >= 1
  {
    ReleaseCreates(t, spec.endpoint, true);
    assert Create(t) in SubHead(spec, nodes);
    assert Create(t) in SubOps(spec, nodes);
    CreatedOnce(SubOps(spec, nodes), t);
  }

  lemma {:induction false} RelaysCreate(relays: seq<RelaySpec>, i: nat, t: Target)
    requires i < |relays| && t in RelayCreates(relays[i])
    ensures Creations(RelaysOps(relays), t) >= 1
  {
    var init, last := relays[..|relays| - 1], relays[|relays| - 1];
    CreationsAppend(RelaysOps(init), RelayOps(last), t);
    if i < |init| {
      RelaysCreate(init, i, t);
    } else {
      RelayCreated(last, t);
    }
  }

  lemma {:induction false} RelaysCreateTwice(relays: seq<RelaySpec>, i: nat, j: nat, t: Target)
    requires i < j < |relays| && t in RelayCreates(relays[i]) && t in RelayCreates(relays[j])
    ensures Creations(RelaysOps(relays), t) >= 2
  {
    var init, last := relays[..|relays| - 1], relays[|relays| - 1];
    CreationsAppend(RelaysOps(init), RelayOps(last), t);
    if j < |init| {
      RelaysCreateTwice(init, i, j, t);
    } else {
      assert last == relays[j] && init[i] == relays[i];
      RelaysCreate(init, i, t);
      RelayCreated(last, t);
    }
  }

  lemma CreatedTwice(plan: Plan, nodes: string) returns (t: Target)
    requires !CreatesApart(plan)
    ensures Creations(PlanOps(plan, nodes), t) >= 2
  {
    var relays, sub := plan.relays, SubOps(plan.sub, nodes);
    if i, j :| 0 <= i < j < |relays| && !(RelayCreates(relays[i]) !! RelayCreates(relays[j])) {
      t :| t in RelayCreates(relays[i]) && t in RelayCreates(relays[j]);
      RelaysCreateTwice(relays, i, j, t);
      CreationsAppend(RelaysOps(relays), sub, t);
    } else {
      var i :| 0 <= i < |relays| && !(RelayCreates(relays[i]) !! SubCreates(plan.sub));
      t :| t in RelayCreates(relays[i]) && t in SubCreates(plan.sub);
      RelaysCreate(relays, i, t);
      SubCreated(plan.sub, nodes, t);
      CreationsAppend(RelaysOps(relays), sub, t);
    }
  }

  /** Two deployments to one new Worker, as a plan can ask for that names the account once by
      its id and once by its name: if the last call fails, the Worker is to be deleted twice,
      and the second deletion finds nothing. */
  lemma DoubleCreationStuck(start: World, clock: nat, env: Outside, plan: Plan, nodes: string)
    requires !CreatesApart(plan) && Deployed(start, clock, env, plan, nodes).ok
    ensures
      var o := Deployed(start, clock, LastCut(start, clock, env, PlanOps(plan, nodes)), plan, nodes);
      !o.ok && !CanUndoAll(o.state.world, o.state.compensations)
  {
    var ops, s := PlanOps(plan, nodes), Initial(start, clock);
    PlanEnds(plan, nodes);
    LastFails(s, ops, env);
    var init, last := ops[..|ops| - 1], ops[|ops| - 1];
    var t := CreatedTwice(plan, nodes);
    InitLast(ops);
    CreationsAppend(init, [last], t);
    DeletesPending(s, init, env, t);
    var done := Run(s, init, env).state;
    DeletedOnce(done.world, done.compensations, t);
  }

  // ---------------------------------------------------------------- exactly

  /** Take a plan that works out if nothing fails. Whatever call fails, it is restored, exactly
      if it creates no Worker twice, all traffic of every Worker it updates goes to one
      version, and workers.dev can be read wherever it is on and stays on. */
  lemma RestoredExactly(start: World, clock: nat, env: Outside, plan: Plan, nodes: string)
    requires PlanReady(start, plan) && Deployed(start, clock, env, plan, nodes).ok
    ensures AlwaysRestored(start, clock, env.devReads, plan, nodes)
       <==> CreatesApart(plan) && PlanHarmless(start, env.devReads, plan)
  {
    if CreatesApart(plan) && PlanHarmless(start, env.devReads, plan) {
      forall answers: nat -> Answer
        ensures Restored(start, Deployed(start, clock, Outside(answers, env.devReads), plan, nodes))
      {
        HarmlessRestored(start, clock, Outside(answers, env.devReads), plan, nodes);
      }
    } else {
      if CreatesApart(plan) {
        HarmfulLost(start, clock, env, plan, nodes);
      } else {
        DoubleCreationStuck(start, clock, env, plan, nodes);
      }
      var cut := LastCut(start, clock, env, PlanOps(plan, nodes));
      assert !Restored(start, Deployed(start, clock, Outside(cut.answers, env.devReads), plan, nodes));
    }
  }
}
