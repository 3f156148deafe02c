/** The two-slot promotion of `refresh_proxyip` and `load_known_good` in `sub/src/lib.rs`:
    refreshes interleave at every read, fetch and write, any of which may fail, and a
    refresh may vanish between two of them. */
module KnownGood {
  import opened Bytes
  import opened Dataset

  /** A stored text: it parses to a dataset, or it does not. */
  datatype Raw = Json(ds: Dataset) | Garbage

  datatype Slots = Slots(active: Option<Raw>, previous: Option<Raw>)

  /** `parse_cached` */
  ghost function Cached(raw: Option<Raw>): Option<Dataset> {
    if raw.Some? && raw.value.Json? && Fit(raw.value.ds) then Some(raw.value.ds) else None
  }

  ghost predicate Good(raw: Option<Raw>) {
    raw.None? || Cached(raw).Some?
  }

  /** `load_known_good`; a read that fails counts as an absent slot. */
  ghost function Load(s: Slots, activeReads: bool, previousReads: bool): Option<Dataset> {
    var a := if activeReads then Cached(s.active) else None;
    if a.Some? then a else if previousReads then Cached(s.previous) else None
  }

  ghost predicate Available(s: Slots) {
    Load(s, true, true).Some?
  }

  // ---------------------------------------------------------------- one refresh, step by step

  datatype Pc = ReadActive | ReadPrevious | Fetching | PutPrevious | PutActive | Finished

  datatype Refresh = Refresh(pc: Pc, activeRaw: Option<Raw>, previousRaw: Option<Raw>, candidate: Option<Dataset>)

  /** The source answers with an error, with "not modified", or with a feed that `from_source`
      turned into a dataset or refused. */
  datatype Fetched = FetchFailed | NotModified(now: nat) | Modified(built: Option<Dataset>)

  /** A write succeeds, fails, or is reported as failed after it landed. */
  datatype Written = Confirmed | Refused | Unconfirmed

  datatype Outcome = Read(ok: bool) | Fetch(answer: Fetched) | Put(result: Written) | Crash

  const FRESH := Refresh(ReadActive, None, None, None)

  ghost function Known(r: Refresh): Option<Dataset> {
    if Cached(r.activeRaw).Some? then Cached(r.activeRaw) else Cached(r.previousRaw)
  }

  function KnownRaw(r: Refresh): Option<Raw> {
    if r.activeRaw.Some? then r.activeRaw else r.previousRaw
  }

  ghost function Candidate(r: Refresh, f: Fetched): Option<Dataset> {
    match f
    case FetchFailed => None
    case NotModified(now) => if Known(r).Some? then Some(Known(r).value.(refreshedAtMs := now)) else None
    case Modified(built) => built
  }

  function Finish(r: Refresh): Refresh {
    r.(pc := Finished)
  }

  /** The await the refresh is at completes with `o`; outcomes of another kind, and a crash,
      end it. */
  ghost function Advance(s: Slots, r: Refresh, o: Outcome): (Slots, Refresh) {
    match (r.pc, o)
    case (ReadActive, Read(ok)) =>
      var raw := if ok then s.active else None;
      (s, r.(activeRaw := raw, pc := if Cached(raw).None? then ReadPrevious else Fetching))
    case (ReadPrevious, Read(ok)) =>
      (s, r.(previousRaw := if ok then s.previous else None, pc := Fetching))
    case (Fetching, Fetch(f)) =>
      var c := Candidate(r, f);
      if c.None? || !Promotable(Known(r), c.value) then (s, Finish(r))
      else (s, r.(candidate := c, pc := if KnownRaw(r).Some? then PutPrevious else PutActive))
    case (PutPrevious, Put(w)) =>
      (if w.Refused? then s else s.(previous := KnownRaw(r)),
       if w.Confirmed? then r.(pc := PutActive) else Finish(r))
    case (PutActive, Put(w)) =>
      (if w.Refused? || r.candidate.None? then s else s.(active := Some(Json(r.candidate.value))), Finish(r))
    case _ => (s, Finish(r))
  }

  // ---------------------------------------------------------------- interleaved refreshes

  datatype System = System(slots: Slots, live: seq<Refresh>)

  datatype Event = Start | Step(i: nat, o: Outcome)

  ghost function Next(y: System, e: Event): System {
    match e
    case Start => y.(live := y.live + [FRESH])
    case Step(i, o) =>
      if i < |y.live| then
        var (s, r) := Advance(y.slots, y.live[i], o);
        System(s, y.live[i := r])
      else y
  }

  ghost function Run(y: System, es: seq<Event>): System {
    if |es| == 0 then y else Next(Run(y, es[..|es| - 1]), es[|es| - 1])
  }

  // ---------------------------------------------------------------- never lost

  /** A refresh that may still write holds a fit candidate. */
  ghost predicate Armed(r: Refresh) {
    && ((r.pc.PutPrevious? || r.pc.PutActive?) ==> r.candidate.Some? && Fit(r.candidate.value))
    && (r.pc.PutPrevious? ==> KnownRaw(r).Some?)
  }

  /** As long as no generation is active, what a refresh would copy over the previous
      generation is that generation. */
  ghost predicate Faithful(s: Slots, r: Refresh) {
    && Armed(r) && Good(r.activeRaw)
    && (s.active.None? ==> r.activeRaw.None? && (r.previousRaw.None? || r.previousRaw == s.previous))
    && (r.pc.ReadActive? || r.pc.ReadPrevious? ==> r.previousRaw.None?)
  }

  /** The active slot is absent or valid, and every refresh under way is faithful. */
  ghost predicate Safe(y: System) {
    Good(y.slots.active) && forall i :: 0 <= i < |y.live| ==> Faithful(y.slots, y.live[i])
  }

  /** From `s` to `s'`: no generation is lost, and while none is active the previous one is
      not touched; the refresh is faithful to what is there now. */
  ghost predicate Kept(s: Slots, s': Slots, r': Refresh) {
    && Good(s'.active) && Faithful(s', r')
    && (Available(s) ==> Available(s')) && (s.active.Some? ==> s'.active.Some?)
    && (s'.active.None? ==> s'.previous == s.previous)
  }

  /** Reading, and giving up, write nothing. */
  lemma ReadSafe(s: Slots, r: Refresh, o: Outcome)
    requires Good(s.active) && Faithful(s, r) && !r.pc.Fetching? && !(o.Put? && (r.pc.PutPrevious? || r.pc.PutActive?))
    ensures Kept(s, Advance(s, r, o).0, Advance(s, r, o).1)
  {
  }

  /** What was fetched is promoted only if it is fit. */
  lemma FetchSafe(s: Slots, r: Refresh, o: Outcome)
    requires Good(s.active) && Faithful(s, r) && r.pc.Fetching?
    ensures Kept(s, Advance(s, r, o).0, Advance(s, r, o).1)
  {
  }

  /** What is copied over the previous generation is the active one, or that generation. */
  lemma PutPreviousSafe(s: Slots, r: Refresh, w: Written)
    requires Good(s.active) && Faithful(s, r) && r.pc.PutPrevious?
    ensures Kept(s, Advance(s, r, Put(w)).0, Advance(s, r, Put(w)).1)
  {
  }

  lemma PutActiveSafe(s: Slots, r: Refresh, w: Written)
    requires Good(s.active) && Faithful(s, r) && r.pc.PutActive?
    ensures Kept(s, Advance(s, r, Put(w)).0, Advance(s, r, Put(w)).1)
  {
  }

  lemma AdvanceSafe(s: Slots, r: Refresh, o: Outcome)
    requires Good(s.active) && Faithful(s, r)
    ensures Kept(s, Advance(s, r, o).0, Advance(s, r, o).1)
  {
    if r.pc.Fetching? {
      FetchSafe(s, r, o);
    } else if r.pc.PutPrevious? && o.Put? {
      PutPreviousSafe(s, r, o.result);
    } else if r.pc.PutActive? && o.Put? {
      PutActiveSafe(s, r, o.result);
    } else {
      ReadSafe(s, r, o);
    }
  }

  lemma NextSafe(y: System, e: Event)
    requires Safe(y)
    ensures Safe(Next(y, e)) && (Available(y.slots) ==> Available(Next(y, e).slots))
  {
    if e.Step? && e.i < |y.live| {
      AdvanceSafe(y.slots, y.live[e.i], e.o);
    }
  }

  /** Every run, whatever fails in it and however refreshes interleave. */
  lemma {:induction false} RunSafe(y: System, es: seq<Event>)
    requires Safe(y)
    ensures Safe(Run(y, es)) && (Available(y.slots) ==> Available(Run(y, es).slots))
  {
    if |es| > 0 {
      RunSafe(y, es[..|es| - 1]);
      NextSafe(Run(y, es[..|es| - 1]), es[|es| - 1]);
    }
  }

  /** From two slots that are each absent or valid, both stay so. */
  ghost predicate BothGood(y: System) {
    && Good(y.slots.active) && Good(y.slots.previous)
    && forall i :: 0 <= i < |y.live| ==> GoodLocals(y.live[i])
  }

  ghost predicate GoodLocals(r: Refresh) {
    Armed(r) && Good(r.activeRaw) && Good(r.previousRaw)
  }

  lemma AdvanceBothGood(s: Slots, r: Refresh, o: Outcome)
    requires Good(s.active) && Good(s.previous) && GoodLocals(r)
    ensures Good(Advance(s, r, o).0.active) && Good(Advance(s, r, o).0.previous) && GoodLocals(Advance(s, r, o).1)
  {
    match r.pc
    case Fetching => AdvanceFetch(s, r, o);
    case _ =>
  }

  lemma AdvanceFetch(s: Slots, r: Refresh, o: Outcome)
    requires r.pc.Fetching? && Good(r.activeRaw) && Good(r.previousRaw)
    ensures Advance(s, r, o).0 == s && GoodLocals(Advance(s, r, o).1)
  {
  }

  lemma {:induction false} SlotsStayGood(y: System, es: seq<Event>)
    requires BothGood(y)
    ensures BothGood(Run(y, es))
  {
    if |es| > 0 {
      SlotsStayGood(y, es[..|es| - 1]);
      var before, e := Run(y, es[..|es| - 1]), es[|es| - 1];
      if e.Step? && e.i < |before.live| {
        AdvanceBothGood(before.slots, before.live[e.i], e.o);
      }
    }
  }

  /** Once loading succeeds, it succeeds after every continuation of the run. */
  lemma OnceLoadedAlwaysLoaded(s: Slots, before: seq<Event>, after: seq<Event>)
    requires Good(s.active)
    ensures
      var y := Run(System(s, []), before);
      Available(y.slots) ==> Available(Run(y, after).slots)
  {
    RunSafe(System(s, []), before);
    RunSafe(Run(System(s, []), before), after);
  }

  ghost predicate NeverLost(s: Slots) {
    forall es: seq<Event> :: Available(Run(System(s, []), es).slots)
  }

  /** The crash that loses everything: an active text that does not parse is copied over the
      only good generation. */
  function FatalRun(now: nat): seq<Event> {
    [Start, Step(0, Read(true)), Step(0, Read(true)), Step(0, Fetch(NotModified(now))), Step(0, Put(Confirmed)),
     Step(0, Crash)]
  }

  lemma RunOne(y: System, es: seq<Event>, e: Event)
    ensures Run(y, es + [e]) == Next(Run(y, es), e)
  {
    assert (es + [e])[..|es|] == es;
  }

  lemma RunTwo(y: System, es: seq<Event>, e: Event, f: Event)
    ensures Run(y, es + [e] + [f]) == Next(Next(Run(y, es), e), f)
  {
    RunOne(y, es, e);
    RunOne(y, es + [e], f);
  }

  lemma FatalReads(s: Slots, r: Refresh)
    requires Cached(s.active).None?
    requires r == FRESH.(activeRaw := s.active, previousRaw := s.previous, pc := Fetching)
    ensures Run(System(s, []), FatalRun(1)[..3]) == System(s, [r])
  {
    var y, es := System(s, []), FatalRun(1);
    assert es[..1] == [] + [es[0]] && es[..2] == es[..1] + [es[1]] && es[..3] == es[..2] + [es[2]];
    RunOne(y, [], es[0]);
    RunOne(y, es[..1], es[1]);
    RunOne(y, es[..2], es[2]);
  }

  /** The refresh copies the invalid text over the generation it had loaded, and crashes. */
  lemma FatalWrites(s: Slots, r: Refresh)
    requires s.active.Some? && Cached(s.active).None? && Cached(s.previous).Some?
    requires r == FRESH.(activeRaw := s.active, previousRaw := s.previous, pc := Fetching)
    ensures
      var y := Next(Next(System(s, [r]), Step(0, Fetch(NotModified(1)))), Step(0, Put(Confirmed)));
      y.slots == Slots(s.active, s.active) && |y.live| == 1
  {
    var c := Cached(s.previous).value.(refreshedAtMs := 1);
    QuarterKept(c.accepted, c.accepted);
    assert Promotable(Known(r), c);
    assert Next(System(s, [r]), Step(0, Fetch(NotModified(1)))) == System(s, [r.(candidate := Some(c), pc := PutPrevious)]);
  }

  lemma FatalRunLoses(s: Slots)
    requires s.active.Some? && Cached(s.active).None? && Cached(s.previous).Some?
    ensures !Available(Run(System(s, []), FatalRun(1)).slots)
  {
    var y, es := System(s, []), FatalRun(1);
    var r := FRESH.(activeRaw := s.active, previousRaw := s.previous, pc := Fetching);
    FatalReads(s, r);
    FatalWrites(s, r);
    var written := Next(Next(System(s, [r]), es[3]), es[4]);
    RunTwo(y, es[..3], es[3], es[4]);
    assert es == es[..3] + [es[3]] + [es[4]] + [es[5]];
    RunOne(y, es[..3] + [es[3]] + [es[4]], es[5]);
    assert Next(written, es[5]).slots == written.slots;
  }

  /** A good generation is never lost exactly if the active slot is absent or valid to begin
      with: the state in which an active text is present but does not validate is the one
      from which a run can lose it. */
  lemma NeverLostExactly(s: Slots)
    requires Available(s)
    ensures NeverLost(s) <==> Good(s.active)
  {
    if Good(s.active) {
      forall es: seq<Event> ensures Available(Run(System(s, []), es).slots) {
        RunSafe(System(s, []), es);
      }
    } else {
      FatalRunLoses(s);
    }
  }

  // ---------------------------------------------------------------- one refresh at a time

  /** The refresh saw the slots as they are. */
  ghost predicate InStep(s: Slots, r: Refresh) {
    && (r.pc.ReadPrevious? ==> r.activeRaw == s.active && Cached(s.active).None?)
    && (r.pc.Fetching? || r.pc.PutPrevious? || r.pc.PutActive? ==>
          r.activeRaw == s.active && Known(r) == Load(s, true, true))
    && (r.pc.PutPrevious? || r.pc.PutActive? ==> r.candidate.Some? && Promotable(Known(r), r.candidate.value))
    && (r.pc.PutPrevious? || r.pc.PutActive? ==> Good(s.active))
    && (r.pc.PutActive? && KnownRaw(r).Some? ==> s.previous == KnownRaw(r))
  }

  /** At most one refresh is unfinished, and its reads succeed. */
  ghost predicate Alone(y: System, e: Event) {
    match e
    case Start => forall i :: 0 <= i < |y.live| ==> y.live[i].pc.Finished?
    case Step(i, o) => o != Read(false)
  }

  ghost predicate Sequential(y: System, es: seq<Event>) {
    |es| == 0 || (Sequential(y, es[..|es| - 1]) && Alone(Run(y, es[..|es| - 1]), es[|es| - 1]))
  }

  ghost predicate OneInStep(y: System) {
    && (forall i, j :: 0 <= i < j < |y.live| ==> y.live[i].pc.Finished? || y.live[j].pc.Finished?)
    && (forall i :: 0 <= i < |y.live| ==> InStep(y.slots, y.live[i]))
  }

  /** `s` keeps the replaced generation in its previous slot, and has an active one of at
      least a quarter of it, if it had a hundred entries or more. */
  ghost predicate Keeps(replaced: Dataset, s: Slots) {
    && Cached(s.active).Some? && Cached(s.previous) == Some(replaced)
    && (replaced.accepted >= 100 ==> 4 * Cached(s.active).value.accepted >= replaced.accepted)
  }

  lemma AdvanceInStep(s: Slots, r: Refresh, o: Outcome)
    requires Good(s.active) && Faithful(s, r) && InStep(s, r) && o != Read(false)
    ensures InStep(Advance(s, r, o).0, Advance(s, r, o).1)
    ensures r.pc.Finished? ==> Advance(s, r, o) == (s, r)
    ensures Advance(s, r, o).0.active != s.active && Available(s) ==>
      Keeps(Load(s, true, true).value, Advance(s, r, o).0)
  {
  }

  lemma NextInStep(y: System, e: Event)
    requires Safe(y) && OneInStep(y) && Alone(y, e)
    ensures OneInStep(Next(y, e))
    ensures Next(y, e).slots.active != y.slots.active && Available(y.slots) ==>
      Keeps(Load(y.slots, true, true).value, Next(y, e).slots)
  {
    if e.Step? && e.i < |y.live| {
      AdvanceInStep(y.slots, y.live[e.i], e.o);
      var y' := Next(y, e);
      forall i | 0 <= i < |y'.live| ensures InStep(y'.slots, y'.live[i]) {
        if i != e.i && !y.live[e.i].pc.Finished? {
          assert y.live[i].pc.Finished?;
        }
      }
    }
  }

  lemma {:induction false} RunInStep(s: Slots, es: seq<Event>)
    requires Good(s.active) && Sequential(System(s, []), es)
    ensures OneInStep(Run(System(s, []), es))
  {
    if |es| > 0 {
      RunInStep(s, es[..|es| - 1]);
      RunSafe(System(s, []), es[..|es| - 1]);
      NextInStep(Run(System(s, []), es[..|es| - 1]), es[|es| - 1]);
    }
  }

  /** With one refresh at a time and reads that succeed, every promotion keeps the replaced
      generation in the previous slot, and is at least a quarter of it if it had a hundred
      entries or more. */
  lemma PromotionKeepsQuarter(s: Slots, es: seq<Event>, e: Event)
    requires Good(s.active) && Sequential(System(s, []), es + [e])
    ensures
      var y := Run(System(s, []), es);
      var y' := Run(System(s, []), es + [e]);
      Available(y.slots) && y'.slots.active != y.slots.active ==>
        Keeps(Load(y.slots, true, true).value, y'.slots)
  {
    assert (es + [e])[..|es|] == es;
    RunInStep(s, es);
    RunSafe(System(s, []), es);
    NextInStep(Run(System(s, []), es), e);
  }

  // ---------------------------------------------------------------- the code, undisturbed

  /** What each await of one refresh brings. */
  datatype Script = Script(activeReads: bool, previousReads: bool, answer: Fetched, copied: Written, promoted: Written)

  function Awaited(x: Script, pc: Pc): Outcome {
    match pc
    case ReadActive => Read(x.activeReads)
    case ReadPrevious => Read(x.previousReads)
    case Fetching => Fetch(x.answer)
    case PutPrevious => Put(x.copied)
    case PutActive => Put(x.promoted)
    case Finished => Crash
  }

  function Rank(pc: Pc): nat {
    match pc
    case ReadActive => 5
    case ReadPrevious => 4
    case Fetching => 3
    case PutPrevious => 2
    case PutActive => 1
    case Finished => 0
  }

  /** A refresh that nothing interrupts. */
  ghost function Through(s: Slots, r: Refresh, x: Script): Slots
    decreases Rank(r.pc)
  {
    if r.pc.Finished? then s
    else
      var (s', r') := Advance(s, r, Awaited(x, r.pc));
      Through(s', r', x)
  }

  lemma {:induction false} RunCons(y: System, e: Event, es: seq<Event>)
    ensures Run(y, [e] + es) == Run(Next(y, e), es)
  {
    if |es| == 0 {
      assert [e] + es == [] + [e];
      RunOne(y, [], e);
    } else {
      var front, last := es[..|es| - 1], es[|es| - 1];
      RunCons(y, e, front);
      assert [e] + es == ([e] + front) + [last];
      RunOne(y, [e] + front, last);
    }
  }

  /** It is one of the runs above. */
  lemma {:induction false} ThroughIsRun(s: Slots, r: Refresh, x: Script) returns (es: seq<Event>)
    ensures Run(System(s, [r]), es).slots == Through(s, r, x)
    decreases Rank(r.pc)
  {
    if r.pc.Finished? {
      return [];
    }
    var (s', r') := Advance(s, r, Awaited(x, r.pc));
    var rest := ThroughIsRun(s', r', x);
    assert Next(System(s, [r]), Step(0, Awaited(x, r.pc))) == System(s', [r']);
    RunCons(System(s, [r]), Step(0, Awaited(x, r.pc)), rest);
    es := [Step(0, Awaited(x, r.pc))] + rest;
  }

  // ---------------------------------------------------------------- what a refresh achieves

  /** The text of the active slot as it was read. */
  function SeenActive(s: Slots, x: Script): Option<Raw> {
    if x.activeReads then s.active else None
  }

  /** The text that is known: the active one whatever it holds, or else the previous one, which
      is read only if the active one is of no use. */
  ghost function SeenRaw(s: Slots, x: Script): Option<Raw> {
    if SeenActive(s, x).Some? then SeenActive(s, x) else if x.previousReads then s.previous else None
  }

  /** What the source offers: the dataset it built, or the known one under a new date. */
  ghost predicate Offered(s: Slots, x: Script, c: Dataset) {
    match x.answer
    case FetchFailed => false
    case NotModified(now) =>
      var known := Load(s, x.activeReads, x.previousReads);
      known.Some? && c == known.value.(refreshedAtMs := now)
    case Modified(built) => built == Some(c)
  }

  /** A candidate that may follow the known generation. */
  ghost predicate Promotes(s: Slots, x: Script, c: Dataset) {
    Offered(s, x, c) && Promotable(Load(s, x.activeReads, x.previousReads), c)
  }

  /** What a write makes of a slot. */
  function Slot(was: Option<Raw>, now: Raw, w: Written): Option<Raw> {
    if w.Refused? then was else Some(now)
  }

  /** With a candidate, the known text is copied to the previous slot; once that is confirmed,
      or there is none, the candidate becomes the active one, and is the result if that is
      confirmed. Without one nothing is written. */
  ghost predicate Achieves(s: Slots, x: Script, s': Slots, result: Option<Dataset>) {
    && ((forall c :: !Promotes(s, x, c)) ==> s' == s && result.None?)
    && forall c :: Promotes(s, x, c) ==>
         var raw := SeenRaw(s, x);
         if raw.Some? && !x.copied.Confirmed? then
           s' == Slots(s.active, Slot(s.previous, raw.value, x.copied)) && result.None?
         else
           && s' == Slots(Slot(s.active, Json(c), x.promoted), if raw.Some? then raw else s.previous)
           && result == if x.promoted.Confirmed? then Some(c) else None
  }

  lemma FetchedThrough(s: Slots, r: Refresh, x: Script, result: Option<Dataset>)
    requires r.pc.Fetching? && r.candidate.None? && r.activeRaw == SeenActive(s, x)
    requires r.previousRaw == if Cached(r.activeRaw).None? && x.previousReads then s.previous else None
    requires
      var c := Candidate(r, x.answer);
      result == if c.Some? && Promotable(Known(r), c.value) && (KnownRaw(r).Some? ==> x.copied.Confirmed?) && x.promoted.Confirmed?
                then c else None
    ensures Achieves(s, x, Through(s, r, x), result)
  {
    assert Known(r) == Load(s, x.activeReads, x.previousReads);
    var c := Candidate(r, x.answer);
    assert forall d :: Offered(s, x, d) <==> c == Some(d);
    if c.Some? && Promotable(Known(r), c.value) {
      assert Promotes(s, x, c.value);
      var ready := r.(candidate := c, pc := if KnownRaw(r).Some? then PutPrevious else PutActive);
      assert Through(s, r, x) == Through(s, ready, x);
      PutThrough(s, ready, x);
      KnownRawSeen(s, r, x);
    } else {
      assert Through(s, r, x) == Through(s, Finish(r), x) == s;
    }
  }

  /** A text of the active slot that is present hides the previous one. */
  lemma KnownRawSeen(s: Slots, r: Refresh, x: Script)
    requires r.activeRaw == SeenActive(s, x)
    requires r.previousRaw == if Cached(r.activeRaw).None? && x.previousReads then s.previous else None
    ensures KnownRaw(r) == SeenRaw(s, x)
  {
  }

  lemma PutThrough(s: Slots, r: Refresh, x: Script)
    requires r.candidate.Some? && r.pc == if KnownRaw(r).Some? then PutPrevious else PutActive
    ensures Through(s, r, x)
         == if KnownRaw(r).Some? && !x.copied.Confirmed? then Slots(s.active, Slot(s.previous, KnownRaw(r).value, x.copied))
            else Slots(Slot(s.active, Json(r.candidate.value), x.promoted), if KnownRaw(r).Some? then KnownRaw(r) else s.previous)
  {
    if KnownRaw(r).Some? {
      var (s', r') := Advance(s, r, Put(x.copied));
      assert Through(s, r, x) == Through(s', r', x);
      if x.copied.Confirmed? {
        PutActiveThrough(s', r', x);
      }
    } else {
      PutActiveThrough(s, r, x);
    }
  }

  lemma PutActiveThrough(s: Slots, r: Refresh, x: Script)
    requires r.candidate.Some? && r.pc.PutActive?
    ensures Through(s, r, x) == Slots(Slot(s.active, Json(r.candidate.value), x.promoted), s.previous)
  {
    var (s', r') := Advance(s, r, Put(x.promoted));
    assert Through(s, r, x) == Through(s', r', x) == s';
  }

  method ParseCached(raw: Option<Raw>) returns (r: Option<Dataset>)
    ensures r == Cached(raw)
  {
    if raw.None? || raw.value.Garbage? {
      return None;
    }
    var ok := ValidateForUse(raw.value.ds);
    return if ok then Some(raw.value.ds) else None;
  }

  /** The two slots of the key-value store. */
  class Store {
    var active: Option<Raw>
    var previous: Option<Raw>

    function View(): Slots
      reads this
    {
      Slots(active, previous)
    }

    constructor (active: Option<Raw>, previous: Option<Raw>)
      ensures View() == Slots(active, previous)
    {
      this.active, this.previous := active, previous;
    }

    /** `load_known_good`: the active slot, or else the previous one. */
    method LoadKnownGood(activeReads: bool, previousReads: bool) returns (r: Option<Dataset>)
      ensures r == Load(View(), activeReads, previousReads)
    {
      var i := 0;
      while i < 2
        invariant i <= 2
        invariant i == 1 && activeReads ==> Cached(active).None?
        invariant i == 2 ==> Load(View(), activeReads, previousReads).None?
      {
        var raw := if i == 0 then (if activeReads then active else None) else (if previousReads then previous else None);
        r := ParseCached(raw);
        if r.Some? {
          return;
        }
        i := i + 1;
      }
      return None;
    }

    method WritePrevious(raw: Raw, w: Written) returns (ok: bool)
      modifies `previous
      ensures ok == w.Confirmed? && previous == if w.Refused? then old(previous) else Some(raw)
    {
      if !w.Refused? {
        previous := Some(raw);
      }
      return w.Confirmed?;
    }

    method WriteActive(raw: Raw, w: Written) returns (ok: bool)
      modifies `active
      ensures ok == w.Confirmed? && active == if w.Refused? then old(active) else Some(raw)
    {
      if !w.Refused? {
        active := Some(raw);
      }
      return w.Confirmed?;
    }

    /** `refresh_proxyip`: the previous generation is kept before the new one is promoted. */
    method RefreshProxyIp(x: Script) returns (result: Option<Dataset>)
      modifies this
      ensures View() == Through(old(View()), FRESH, x)
      ensures Achieves(old(View()), x, View(), result)
      ensures result.Some? ==> Fit(result.value) && active == Some(Json(result.value))
    {
      var activeRaw := if x.activeReads then active else None;
      var known := ParseCached(activeRaw);
      var previousRaw := None;
      if known.None? {
        previousRaw := if x.previousReads then previous else None;
        known := ParseCached(previousRaw);
      }
      ghost var r := Refresh(Fetching, activeRaw, previousRaw, None);
      ReadThrough(View(), r, x);
      ghost var c := Candidate(r, x.answer);
      ghost var promoted := c.Some? && Promotable(Known(r), c.value) && (KnownRaw(r).Some? ==> x.copied.Confirmed?) && x.promoted.Confirmed?;
      FetchedThrough(View(), r, x, if promoted then c else None);
      var candidate := Propose(known, x.answer);
      if candidate.None? {
        return None;
      }
      var ok := ValidatePromotion(known, candidate.value);
      if !ok {
        return None;
      }
      result := Promote(r, if activeRaw.Some? then activeRaw else previousRaw, candidate.value, x);
    }

    method Promote(ghost r: Refresh, knownGoodRaw: Option<Raw>, candidate: Dataset, x: Script)
        returns (result: Option<Dataset>)
      requires r.pc.Fetching? && knownGoodRaw == KnownRaw(r)
      requires Candidate(r, x.answer) == Some(candidate) && Promotable(Known(r), candidate)
      modifies this
      ensures View() == Through(old(View()), r, x)
      ensures result.Some? ==> result.value == candidate && active == Some(Json(candidate))
      ensures result.Some? <==> (knownGoodRaw.Some? ==> x.copied.Confirmed?) && x.promoted.Confirmed?
    {
      ghost var ready := r.(candidate := Some(candidate), pc := Pc.PutActive);
      if knownGoodRaw.Some? {
        var ok := WritePrevious(knownGoodRaw.value, x.copied);
        ghost var copying := ready.(pc := PutPrevious);
        assert Through(old(View()), r, x) == Through(old(View()), copying, x);
        assert Advance(old(View()), copying, Awaited(x, PutPrevious)) == (View(), if ok then ready else Finish(copying));
        assert Through(View(), Finish(copying), x) == View();
        if !ok {
          return None;
        }
      }
      assert Through(View(), ready, x) == Through(old(View()), r, x);
      ghost var kept := View();
      var ok := WriteActive(Json(candidate), x.promoted);
      assert Advance(kept, ready, Awaited(x, PutActive)) == (View(), Finish(ready));
      assert Through(kept, ready, x) == Through(View(), Finish(ready), x) == View();
      assert Through(kept, ready, x) == Through(old(View()), r, x);
      return if ok then Some(candidate) else None;
    }
  }

  /** The reads change nothing, and end with what they found. */
  lemma ReadThrough(s: Slots, r: Refresh, x: Script)
    requires r.pc.Fetching? && r.candidate.None? && r.activeRaw == (if x.activeReads then s.active else None)
    requires r.previousRaw == if Cached(r.activeRaw).None? && x.previousReads then s.previous else None
    ensures Through(s, FRESH, x) == Through(s, r, x)
  {
    if Cached(r.activeRaw).None? {
      var r1 := FRESH.(activeRaw := r.activeRaw, pc := ReadPrevious);
      assert Through(s, FRESH, x) == Through(s, r1, x);
      assert Advance(s, r1, Awaited(x, ReadPrevious)) == (s, r);
    } else {
      assert Advance(s, FRESH, Awaited(x, ReadActive)) == (s, r);
    }
  }

  method Propose(known: Option<Dataset>, answer: Fetched) returns (c: Option<Dataset>)
    ensures c == match answer
      case FetchFailed => None
      case NotModified(now) => if known.Some? then Some(known.value.(refreshedAtMs := now)) else None
      case Modified(built) => built
  {
    match answer
    case FetchFailed => c := None;
    case NotModified(now) => c := if known.Some? then Some(known.value.(refreshedAtMs := now)) else None;
    case Modified(built) => c := built;
  }
}
