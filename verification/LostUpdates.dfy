/** Two deployments that are not restored although every compensating call works: one updates
    a Worker whose traffic is split, one a Worker whose workers.dev state cannot be read. */
module LostUpdates {
  import opened Bytes
  import opened Saga
  import opened Steps
  import opened Rollback
  import opened Programs
  import opened Restoration
  import opened Deploy
  import opened Apply

  const ACCOUNT := "account"
  const RELAY: Target := (ACCOUNT, "relay")
  const SECRET := Keyring(["relay"])
  const SHOWN := EndpointSpec(true, Some("name"), None)

  /** A relay that is linked, and its secret. */
  function Before(relay: Worker): World {
    World(map[RELAY := relay], map[], map[], map[SECRET := "secret"])
  }

  function Update(): RelaySpec {
    RelaySpec(RELAY, LinkedRelay(Some(SECRET)), SHOWN)
  }

  /** The update of that relay, and a new subscription Worker. */
  function UpdatePlan(): Plan {
    Plan([Update()], SubSpec((ACCOUNT, "sub"), NewSub("id", "token"), "kv", SHOWN))
  }

  /** Every call works but number `n`. */
  function AllBut(n: nat, readable: bool): Outside {
    Outside((k: nat) => Answer(k != n, "new", false), (t: Target) => readable)
  }

  lemma RunStep(s: State, op: Op, rest: seq<Op>, env: Outside)
    requires Step(s, op, env).Some?
    ensures Run(s, [op] + rest, env) == Run(Step(s, op, env).value, rest, env)
  {
    assert ([op] + rest)[0] == op && ([op] + rest)[1..] == rest;
  }

  /** What an update of the relay does before it verifies the endpoint. */
  function Promoting(): seq<Op> {
    [Resolve(SECRET)] + ([StageRelay(None)] + ([ReadStable(RELAY)] + ([Upload(RELAY)] + ([Promote(RELAY, true)] + []))))
  }

  function Exposing(): seq<Op> {
    [Switch(RELAY, true)] + ([Check] + [Check])
  }

  lemma UpdateOps()
    ensures RelayOps(Update()) == Promoting() + Exposing()
    ensures PlanOps(UpdatePlan(), "") == RelayOps(Update()) + SubOps(UpdatePlan().sub, "")
  {
    var relays := UpdatePlan().relays;
    assert relays[..|relays| - 1] == [] && RelaysOps([]) == [];
    assert RelaysOps(relays) == RelayOps(Update());
  }

  /** The relay has been promoted; the stable version was read before. */
  function AfterPromotion(relay: Worker): State {
    var s := Initial(Before(relay), 0);
    DidPromote(DidUpload(DidReadStable(Tick(s).(staged := RelayMeta(None)), RELAY), RELAY, "new"), RELAY, true, "new")
  }

  lemma Promotes(relay: Worker, env: Outside)
    requires forall k: nat :: k < 4 ==> env.answers(k) == Answer(true, "new", false)
    ensures Run(Initial(Before(relay), 0), Promoting(), env) == Outcome(true, AfterPromotion(relay))
  {
    var s0 := Initial(Before(relay), 0);
    var s1, staged := Tick(s0), Tick(s0).(staged := RelayMeta(None));
    RunStep(s0, Resolve(SECRET), [StageRelay(None)] + ([ReadStable(RELAY)] + ([Upload(RELAY)] + ([Promote(RELAY, true)] + []))), env);
    RunStep(s1, StageRelay(None), [ReadStable(RELAY)] + ([Upload(RELAY)] + ([Promote(RELAY, true)] + [])), env);
    PromotesStaged(staged, env);
  }

  lemma PromotesStaged(s: State, env: Outside)
    requires RELAY in s.world.workers && s.clock == 1
    requires forall k: nat :: k < 4 ==> env.answers(k) == Answer(true, "new", false)
    ensures Run(s, [ReadStable(RELAY)] + ([Upload(RELAY)] + ([Promote(RELAY, true)] + [])), env)
         == Outcome(true, DidPromote(DidUpload(DidReadStable(s, RELAY), RELAY, "new"), RELAY, true, "new"))
  {
    var s2 := DidReadStable(s, RELAY);
    var s3 := DidUpload(s2, RELAY, "new");
    RunStep(s, ReadStable(RELAY), [Upload(RELAY)] + ([Promote(RELAY, true)] + []), env);
    RunStep(s2, Upload(RELAY), [Promote(RELAY, true)] + [], env);
    RunStep(s3, Promote(RELAY, true), [], env);
  }

  lemma PromotionKnown(relay: Worker)
    ensures
      var s := AfterPromotion(relay);
      && s.clock == 4 && s.promoted == map[RELAY := "new"] && s.switched == {}
      && s.world.workers == map[RELAY := relay.(live := Whole("new"))]
  {
    assert Before(relay).workers[RELAY := relay.(live := Whole("new"))] == map[RELAY := relay.(live := Whole("new"))];
    assert map[][RELAY := "new"] == map[RELAY := "new"];
  }

  /** Behind the switch, if there is one. */
  function AfterSwitch(s: State, readable: bool): State
    requires RELAY in s.world.workers
  {
    if readable then Note(s, WorkersDevFor(RELAY.1), PreExisting) else DidSwitch(s, RELAY, false, true)
  }

  lemma ChecksFail(s: State, env: Outside)
    requires env.answers(s.clock).ok && !env.answers(s.clock + 1).ok
    ensures Run(s, [Check] + [Check], env) == Outcome(false, Tick(Tick(s)))
  {
    RunStep(s, Check, [Check], env);
    RunOne(Tick(s), Check, env);
  }

  lemma Exposes(s: State, readable: bool, env: Outside)
    requires RELAY in s.world.workers && s.world.workers[RELAY].workersDev && env.devReads(RELAY) == readable
    requires !readable ==> env.answers(s.clock).ok
    requires env.answers(AfterSwitch(s, readable).clock).ok && !env.answers(AfterSwitch(s, readable).clock + 1).ok
    ensures Run(s, Exposing(), env) == Outcome(false, Tick(Tick(AfterSwitch(s, readable))))
  {
    RunStep(s, Switch(RELAY, true), [Check] + [Check], env);
    ChecksFail(AfterSwitch(s, readable), env);
  }

  lemma UpdateStops(s: State, env: Outside)
    requires !Run(s, RelayOps(Update()), env).ok
    ensures Run(s, PlanOps(UpdatePlan(), ""), env) == Run(s, RelayOps(Update()), env)
  {
    UpdateOps();
    RunAppend(s, RelayOps(Update()), SubOps(UpdatePlan().sub, ""), env);
  }

  /** Verification fails behind the promotion, and behind the switch if there is one. */
  lemma UpdateFails(relay: Worker, readable: bool)
    requires relay.workersDev
    ensures
      var o := Deployed(Before(relay), 0, AllBut(if readable then 5 else 6, readable), UpdatePlan(), "");
      && !o.ok && o.state.clock == (if readable then 6 else 7) && RELAY in o.state.promoted
      && (RELAY in o.state.switched <==> !readable)
  {
    var env, s := AllBut(if readable then 5 else 6, readable), Initial(Before(relay), 0);
    Promotes(relay, env);
    PromotionKnown(relay);
    Exposes(AfterPromotion(relay), readable, env);
    UpdateOps();
    RunAppend(s, Promoting(), Exposing(), env);
    UpdateStops(s, env);
  }

  lemma UpdateReady(relay: Worker)
    ensures PlanReady(Before(relay), UpdatePlan()) && CreatesApart(UpdatePlan())
  {
    assert TopologyRef(UpdatePlan().sub.origin) == WorkerSecret("id");
    assert SECRET.path != WorkerSecret("id").path && SECRET.path != NodeSecret("id").path && SECRET.path != TokenSecret("id").path by {
      assert |SECRET.path| == 1;
    }
  }

  /** No version had all the traffic, and now one has. */
  lemma SplitTrafficIsLost(older: Option<string>)
    ensures
      var start, env := Before(Worker(Split(older), [], true)), AllBut(5, true);
      var o := Deployed(start, 0, env, UpdatePlan(), "");
      && PlanReady(start, UpdatePlan()) && !o.ok && CanUndoAll(o.state.world, o.state.compensations)
      && (forall k :: k >= o.state.clock ==> env.answers(k).ok)
      && UndoAll(o.state.world, o.state.compensations) != start
  {
    var relay, env := Worker(Split(older), [], true), AllBut(5, true);
    UpdateReady(relay);
    UpdateFails(relay, true);
    RolledBackExactly(Before(relay), 0, env, UpdatePlan(), "");
    var s := Deployed(Before(relay), 0, env, UpdatePlan(), "").state;
    assert !Survives(relay, true, RELAY in s.promoted, RELAY in s.switched);
    ResidueIsStart(Before(relay), env.devReads, s.promoted, s.switched);
  }

  /** workers.dev was on, and now it is off. */
  lemma UnreadStateIsLost(version: string)
    ensures
      var start, env := Before(Worker(Whole(version), [], true)), AllBut(6, false);
      var o := Deployed(start, 0, env, UpdatePlan(), "");
      && PlanReady(start, UpdatePlan()) && !o.ok && CanUndoAll(o.state.world, o.state.compensations)
      && (forall k :: k >= o.state.clock ==> env.answers(k).ok)
      && UndoAll(o.state.world, o.state.compensations) != start
  {
    var relay, env := Worker(Whole(version), [], true), AllBut(6, false);
    UpdateReady(relay);
    UpdateFails(relay, false);
    RolledBackExactly(Before(relay), 0, env, UpdatePlan(), "");
    var s := Deployed(Before(relay), 0, env, UpdatePlan(), "").state;
    assert !Survives(relay, false, RELAY in s.promoted, RELAY in s.switched);
    ResidueIsStart(Before(relay), env.devReads, s.promoted, s.switched);
  }

  /** The code, on both. */
  method LoseTraffic(older: Option<string>) returns (committed: bool, failures: seq<Resource>, after: World)
    ensures !committed && failures == [] && after != Before(Worker(Split(older), [], true))
  {
    SplitTrafficIsLost(older);
    RolledBackExactly(Before(Worker(Split(older), [], true)), 0, AllBut(5, true), UpdatePlan(), "");
    var remote := new Remote(Before(Worker(Split(older), [], true)), AllBut(5, true));
    var tx;
    committed, tx, failures := Execute(remote, UpdatePlan(), "");
    after := remote.world;
  }

  method LoseState(version: string) returns (committed: bool, failures: seq<Resource>, after: World)
    ensures !committed && failures == [] && after != Before(Worker(Whole(version), [], true))
  {
    UnreadStateIsLost(version);
    RolledBackExactly(Before(Worker(Whole(version), [], true)), 0, AllBut(6, false), UpdatePlan(), "");
    var remote := new Remote(Before(Worker(Whole(version), [], true)), AllBut(6, false));
    var tx;
    committed, tx, failures := Execute(remote, UpdatePlan(), "");
    after := remote.world;
  }
}
