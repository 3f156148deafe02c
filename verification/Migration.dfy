/** The credential journal of the v1 migration in `core/src/config.rs`: each write remembers
    what it replaced, and a failed migration unwinds the writes in reverse. */
module Migration {
  import opened Bytes

  type Entries = map<string, string>

  /** How a write, or a deletion, ends: verified; refused without effect; or reported as failed
      after leaving something else under the reference. */
  datatype Ending = Verified | Refused | Left(entry: Option<string>)

  datatype Write = Write(reference: string, value: string)

  /** A reference, and what was read under it before; a failed read counts as nothing. */
  datatype Saved = Saved(reference: string, previous: Option<string>)

  /** How each write ends, whether the read before it works, and how each call ends that puts
      something back. */
  datatype Outside = Outside(endings: nat -> Ending, legible: nat -> bool, restores: nat -> Ending)

  function Lookup(s: Entries, r: string): Option<string> {
    if r in s then Some(s[r]) else None
  }

  function Put(s: Entries, r: string, v: Option<string>): Entries {
    if v.Some? then s[r := v.value] else s - {r}
  }

  function Seen(s: Entries, r: string, readable: bool): Option<string> {
    if readable then Lookup(s, r) else None
  }

  lemma PutLookup(s: Entries, r: string, v: Option<string>, q: string)
    ensures Lookup(Put(s, r, v), q) == if q == r then v else Lookup(s, q)
  {
  }

  lemma PutBack(s: Entries, r: string, v: Option<string>)
    ensures Put(Put(s, r, v), r, Lookup(s, r)) == s
  {
  }

  lemma PutTwice(s: Entries, r: string, v: Option<string>, x: Option<string>)
    ensures Put(Put(s, r, v), r, x) == Put(s, r, x)
  {
  }

  lemma PutCommutes(s: Entries, r: string, v: Option<string>, q: string, x: Option<string>)
    requires r != q
    ensures Put(Put(s, r, v), q, x) == Put(Put(s, q, x), r, v)
  {
  }

  // ---------------------------------------------------------------- putting back

  datatype Undone = Undone(entries: Entries, ok: bool)

  /** Putting back a remembered entry; the store refuses an empty secret. */
  function Restore(s: Entries, j: Saved, e: Ending): Undone {
    if j.previous == Some("") then Undone(s, false)
    else
      match e
      case Verified => Undone(Put(s, j.reference, j.previous), true)
      case Refused => Undone(s, false)
      case Left(entry) => Undone(Put(s, j.reference, entry), false)
  }

  /** The unwinding of a journal: last entry first, and no further than the first that cannot
      be put back. `calls` of the restoring calls have been made before. */
  function Unwind(s: Entries, journal: seq<Saved>, restores: nat -> Ending, calls: nat): Undone
    decreases |journal|
  {
    if |journal| == 0 then Undone(s, true)
    else
      var u := Restore(s, journal[|journal| - 1], restores(calls));
      if u.ok then Unwind(u.entries, journal[..|journal| - 1], restores, calls + 1) else u
  }

  // ---------------------------------------------------------------- runs

  datatype Progress = Progress(entries: Entries, journal: seq<Saved>, ok: bool, calls: nat)

  /** What is under the reference right after a write that ended so. */
  function Written(s: Entries, w: Write, e: Ending): Entries {
    if w.value == "" then s
    else
      match e
      case Verified => s[w.reference := w.value]
      case Refused => s
      case Left(entry) => Put(s, w.reference, entry)
  }

  predicate Succeeds(w: Write, e: Ending) {
    w.value != "" && e.Verified?
  }

  /** Write number `n` of the migration: journalled if it succeeds, put back at once if not. */
  function Advance(p: Progress, w: Write, n: nat, o: Outside): Progress {
    var saved := Saved(w.reference, Seen(p.entries, w.reference, o.legible(n)));
    var s := Written(p.entries, w, o.endings(n));
    if Succeeds(w, o.endings(n)) then Progress(s, p.journal + [saved], true, p.calls)
    else Progress(Restore(s, saved, o.restores(p.calls)).entries, p.journal, false, p.calls + 1)
  }

  function Run(s: Entries, writes: seq<Write>, o: Outside, n: nat): Progress
    requires n <= |writes|
  {
    if n == 0 then Progress(s, [], true, 0)
    else
      var p := Run(s, writes, o, n - 1);
      if p.ok then Advance(p, writes[n - 1], n - 1, o) else p
  }

  /** The store after a migration that failed at some write, or after the last. */
  function RolledBack(s: Entries, writes: seq<Write>, o: Outside): Entries {
    var p := Run(s, writes, o, |writes|);
    Unwind(p.entries, p.journal, o.restores, p.calls).entries
  }

  /** No later write of the first `n` has the same reference. */
  predicate LastUse(writes: seq<Write>, i: nat, n: nat)
    requires i < n <= |writes|
  {
    forall k :: i < k < n ==> writes[k].reference != writes[i].reference
  }

  /** Each written reference has its last value, and every other what it had. */
  ghost predicate Migrated(s: Entries, writes: seq<Write>, n: nat, s': Entries)
    requires n <= |writes|
  {
    && (forall i :: 0 <= i < n && LastUse(writes, i, n) ==> Lookup(s', writes[i].reference) == Some(writes[i].value))
    && (forall r :: (forall i :: 0 <= i < n ==> writes[i].reference != r) ==> Lookup(s', r) == Lookup(s, r))
  }

  lemma MigratedMore(s: Entries, writes: seq<Write>, n: nat, s': Entries)
    requires n < |writes| && Migrated(s, writes, n, s')
    ensures Migrated(s, writes, n + 1, s'[writes[n].reference := writes[n].value])
  {
    var s'' := s'[writes[n].reference := writes[n].value];
    forall i | 0 <= i < n + 1 && LastUse(writes, i, n + 1) ensures Lookup(s'', writes[i].reference) == Some(writes[i].value) {
      if i < n {
        assert writes[n].reference != writes[i].reference;
        assert LastUse(writes, i, n);
      }
    }
    forall r | forall i :: 0 <= i < n + 1 ==> writes[i].reference != r ensures Lookup(s'', r) == Lookup(s, r) {
      assert writes[n].reference != r;
    }
  }

  predicate AllSucceed(writes: seq<Write>, o: Outside, n: nat)
    requires n <= |writes|
  {
    forall i :: 0 <= i < n ==> writes[i].value != "" && o.endings(i).Verified?
  }

  /** All writes work out exactly if no value is empty and every write is verified. */
  lemma {:induction false} WorksExactly(s: Entries, writes: seq<Write>, o: Outside, n: nat)
    requires n <= |writes|
    ensures Run(s, writes, o, n).ok <==> AllSucceed(writes, o, n)
  {
    if n > 0 {
      WorksExactly(s, writes, o, n - 1);
      assert AllSucceed(writes, o, n) <==> AllSucceed(writes, o, n - 1) && Succeeds(writes[n - 1], o.endings(n - 1));
    }
  }

  /** And then the store holds what was written. */
  lemma {:induction false} SuccessMigrates(s: Entries, writes: seq<Write>, o: Outside, n: nat)
    requires n <= |writes| && Run(s, writes, o, n).ok
    ensures Migrated(s, writes, n, Run(s, writes, o, n).entries)
  {
    if n > 0 {
      SuccessMigrates(s, writes, o, n - 1);
      MigratedMore(s, writes, n - 1, Run(s, writes, o, n - 1).entries);
    }
  }

  // ---------------------------------------------------------------- the code

  class Store {
    var entries: Entries
    var calls: nat
    const o: Outside

    constructor (entries: Entries, o: Outside)
      ensures this.entries == entries && this.o == o && calls == 0
    {
      this.entries, this.o, calls := entries, o, 0;
    }

    /** `resolve(..).ok()` */
    method Resolve(r: string, n: nat) returns (previous: Option<string>)
      ensures previous == Seen(entries, r, o.legible(n))
    {
      return if o.legible(n) && r in entries then Some(entries[r]) else None;
    }

    /** `store_verified` or `delete`, as the journal calls them. */
    method PutBackEntry(j: Saved) returns (ok: bool)
      modifies this
      ensures Undone(entries, ok) == Restore(old(entries), j, o.restores(old(calls))) && calls == old(calls) + 1
    {
      var e := o.restores(calls);
      calls := calls + 1;
      if j.previous.Some? && j.previous.value == "" {
        return false;
      }
      match e
      case Verified =>
        entries := if j.previous.Some? then entries[j.reference := j.previous.value] else entries - {j.reference};
        return true;
      case Refused => return false;
      case Left(entry) =>
        entries := Put(entries, j.reference, entry);
        return false;
    }

    /** `store_migration_credential`, as write number `n` */
    method StoreCredential(journal: seq<Saved>, w: Write, n: nat) returns (ok: bool, journal': seq<Saved>)
      modifies this
      ensures Progress(entries, journal', ok, calls) == Advance(Progress(old(entries), journal, true, old(calls)), w, n, o)
    {
      var previous := Resolve(w.reference, n);
      ok := w.value != "" && o.endings(n).Verified?;
      if w.value != "" {
        match o.endings(n)
        case Verified => entries := entries[w.reference := w.value];
        case Refused =>
        case Left(entry) => entries := Put(entries, w.reference, entry);
      }
      if !ok {
        var _ := PutBackEntry(Saved(w.reference, previous));
        return false, journal;
      }
      journal' := journal + [Saved(w.reference, previous)];
    }

    /** `rollback_migration_credentials` */
    method Rollback(journal: seq<Saved>) returns (ok: bool)
      modifies this
      ensures Undone(entries, ok) == Unwind(old(entries), journal, o.restores, old(calls))
    {
      var n: nat := |journal|;
      WholeTake(journal);
      while n > 0
        invariant n <= |journal|
        invariant Unwind(entries, journal[..n], o.restores, calls) == Unwind(old(entries), journal, o.restores, old(calls))
      {
        n := n - 1;
        assert journal[..n + 1][..n] == journal[..n];
        ok := PutBackEntry(journal[n]);
        if !ok {
          return false;
        }
      }
      return true;
    }

    /** `migrate_v1`: the writes, then the steps that install the new file. */
    method Migrate(writes: seq<Write>, installed: bool) returns (ok: bool)
      requires calls == 0
      modifies this
      ensures ok <==> installed && AllSucceed(writes, o, |writes|)
      ensures ok ==> Migrated(old(entries), writes, |writes|, entries)
      ensures !ok ==> entries == RolledBack(old(entries), writes, o)
    {
      var journal: seq<Saved> := [];
      ghost var start := entries;
      WorksExactly(start, writes, o, |writes|);
      if AllSucceed(writes, o, |writes|) {
        SuccessMigrates(start, writes, o, |writes|);
      }
      for i := 0 to |writes|
        invariant Run(start, writes, o, i) == Progress(entries, journal, true, calls)
      {
        ok, journal := StoreCredential(journal, writes[i], i);
        if !ok {
          Stopped(start, writes, o, i + 1, |writes|);
          var _ := Rollback(journal);
          return false;
        }
      }
      if !installed {
        var _ := Rollback(journal);
      }
      return installed;
    }
  }

  lemma {:induction false} Stopped(s: Entries, writes: seq<Write>, o: Outside, i: nat, n: nat)
    requires i <= n <= |writes| && !Run(s, writes, o, i).ok
    ensures Run(s, writes, o, n) == Run(s, writes, o, i)
  {
    if i < n {
      Stopped(s, writes, o, i, n - 1);
    }
  }

  // ---------------------------------------------------------------- restoration

  /** Every call that puts something back works. */
  ghost predicate Obliging(o: Outside) {
    forall c :: o.restores(c).Verified?
  }

  predicate Recorded(journal: seq<Saved>, r: string) {
    exists i :: 0 <= i < |journal| && journal[i].reference == r
  }

  /** Unwinding does not touch what the journal does not name. */
  lemma {:induction false} UnwindElsewhere(s: Entries, journal: seq<Saved>, o: Outside, calls: nat, r: string)
    requires !Recorded(journal, r)
    ensures Lookup(Unwind(s, journal, o.restores, calls).entries, r) == Lookup(s, r)
    decreases |journal|
  {
    if |journal| > 0 {
      var last := journal[|journal| - 1];
      assert last.reference != r;
      var u := Restore(s, last, o.restores(calls));
      if u.ok {
        UnwindElsewhere(u.entries, journal[..|journal| - 1], o, calls + 1, r);
      }
    }
  }

  /** The journal names nothing that held an empty secret. */
  ghost predicate Restorable(journal: seq<Saved>) {
    forall i :: 0 <= i < |journal| ==> journal[i].previous != Some("")
  }

  /** What is under a reference that the journal names does not matter. */
  lemma {:induction false} UnwindOverwrites(s: Entries, journal: seq<Saved>, o: Outside, c: nat, d: nat, r: string,
                                            v: Option<string>)
    requires Obliging(o) && Restorable(journal) && (Recorded(journal, r) || v == Lookup(s, r))
    ensures Unwind(Put(s, r, v), journal, o.restores, c) == Unwind(s, journal, o.restores, d)
    decreases |journal|
  {
    PutBack(s, r, Lookup(s, r));
    if |journal| > 0 {
      var last, rest := journal[|journal| - 1], journal[..|journal| - 1];
      if last.reference == r {
        PutTwice(s, r, v, last.previous);
        UnwindOverwrites(Put(s, r, last.previous), rest, o, c + 1, d + 1, r, last.previous);
        PutTwice(s, r, last.previous, last.previous);
      } else {
        PutCommutes(s, r, v, last.reference, last.previous);
        PutLookup(s, last.reference, last.previous, r);
        UnwindOverwrites(Put(s, last.reference, last.previous), rest, o, c + 1, d + 1, r, v);
      }
    } else {
      assert Put(s, r, v) == s;
    }
  }

  /** Writes before the first empty value, and that one: the others are never reached. */
  predicate Reached(writes: seq<Write>, i: nat) {
    i < |writes| && forall k :: 0 <= k < i ==> writes[k].value != ""
  }

  predicate FirstUse(writes: seq<Write>, i: nat)
    requires i < |writes|
  {
    forall k :: 0 <= k < i ==> writes[k].reference != writes[i].reference
  }

  /** The reference is free; or what it holds is read, and can be stored again if it has to. */
  predicate Kept(s: Entries, w: Write, readable: bool) {
    var previous := Lookup(s, w.reference);
    previous == None || (readable && (w.value == "" || previous != Some("")))
  }

  /** The first write to each reference finds it so. */
  ghost predicate Harmless(s: Entries, writes: seq<Write>, legible: nat -> bool) {
    forall i :: 0 <= i < |writes| && Reached(writes, i) && FirstUse(writes, i) ==> Kept(s, writes[i], legible(i))
  }

  /** The journal leads back to `s`, and what it does not name is as in `s`. */
  ghost predicate Restores(s: Entries, p: Progress, o: Outside) {
    && Restorable(p.journal)
    && (forall c :: Unwind(p.entries, p.journal, o.restores, c) == Undone(s, true))
    && (forall r :: !Recorded(p.journal, r) ==> Lookup(p.entries, r) == Lookup(s, r))
    && (forall r :: Recorded(p.journal, r) ==> Lookup(p.entries, r) != Some(""))
  }

  lemma UnwindLast(s: Entries, journal: seq<Saved>, j: Saved, restores: nat -> Ending, c: nat)
    ensures
      var u := Restore(s, j, restores(c));
      Unwind(s, journal + [j], restores, c) == if u.ok then Unwind(u.entries, journal, restores, c + 1) else u
  {
    assert (journal + [j])[..|journal|] == journal;
  }

  lemma RecordedSnoc(journal: seq<Saved>, j: Saved, r: string)
    ensures Recorded(journal + [j], r) <==> Recorded(journal, r) || j.reference == r
  {
    if Recorded(journal, r) {
      var i :| 0 <= i < |journal| && journal[i].reference == r;
      assert (journal + [j])[i].reference == r;
    }
    if j.reference == r {
      assert (journal + [j])[|journal|].reference == r;
    }
  }

  /** A write under which the store may be put back as it was, or the journal will do it. */
  ghost predicate Safe(s: Entries, p: Progress, w: Write, readable: bool) {
    Recorded(p.journal, w.reference) || Kept(s, w, readable)
  }

  lemma SafeSeen(s: Entries, p: Progress, w: Write, readable: bool, o: Outside)
    requires Restores(s, p, o) && Safe(s, p, w, readable)
    ensures
      var previous := Seen(p.entries, w.reference, readable);
      && (Recorded(p.journal, w.reference) || previous == Lookup(p.entries, w.reference))
      && (w.value != "" ==> previous != Some(""))
  {
  }

  /** A write that succeeds and is journalled. */
  lemma SuccessRestores(s: Entries, p: Progress, w: Write, readable: bool, o: Outside)
    requires Obliging(o) && p.ok && Restores(s, p, o) && w.value != "" && Safe(s, p, w, readable)
    ensures
      var saved := Saved(w.reference, Seen(p.entries, w.reference, readable));
      Restores(s, Progress(p.entries[w.reference := w.value], p.journal + [saved], true, p.calls), o)
  {
    var r, previous := w.reference, Seen(p.entries, w.reference, readable);
    var saved, after := Saved(r, previous), Put(p.entries, r, Some(w.value));
    SafeSeen(s, p, w, readable, o);
    PutTwice(p.entries, r, Some(w.value), previous);
    forall c: nat ensures Unwind(after, p.journal + [saved], o.restores, c) == Undone(s, true) {
      UnwindLast(after, p.journal, saved, o.restores, c);
      UnwindOverwrites(p.entries, p.journal, o, c + 1, c + 1, r, previous);
    }
    forall q ensures Recorded(p.journal + [saved], q) <==> Recorded(p.journal, q) || q == r {
      RecordedSnoc(p.journal, saved, q);
    }
  }

  /** A write that fails and is put back. */
  lemma FailureRestores(s: Entries, p: Progress, w: Write, n: nat, o: Outside)
    requires Obliging(o) && p.ok && Restores(s, p, o) && Safe(s, p, w, o.legible(n)) && !Succeeds(w, o.endings(n))
    ensures
      var p' := Advance(p, w, n, o);
      !p'.ok && p'.journal == p.journal && Unwind(p'.entries, p'.journal, o.restores, p'.calls) == Undone(s, true)
  {
    var r, previous := w.reference, Seen(p.entries, w.reference, o.legible(n));
    var after := Written(p.entries, w, o.endings(n));
    SafeSeen(s, p, w, o.legible(n), o);
    if w.value == "" {
      assert after == p.entries;
      PutBack(p.entries, r, Lookup(p.entries, r));
      UnwindOverwrites(p.entries, p.journal, o, p.calls + 1, p.calls + 1, r, previous);
    } else {
      var left := if o.endings(n).Refused? then Lookup(p.entries, r) else o.endings(n).entry;
      assert after == Put(p.entries, r, left);
      PutTwice(p.entries, r, left, previous);
      UnwindOverwrites(p.entries, p.journal, o, p.calls + 1, p.calls + 1, r, previous);
    }
  }

  /** Unwinding leads back to `s`; and as long as nothing has failed it will. */
  ghost predicate WayBack(s: Entries, p: Progress, o: Outside) {
    Unwind(p.entries, p.journal, o.restores, p.calls) == Undone(s, true) && (p.ok ==> Restores(s, p, o))
  }

  /** One write more: it is journalled, or put back, and the way back is still open. */
  lemma AdvanceRestores(s: Entries, p: Progress, w: Write, n: nat, o: Outside)
    requires Obliging(o) && p.ok && Restores(s, p, o) && Safe(s, p, w, o.legible(n))
    ensures WayBack(s, Advance(p, w, n, o), o)
  {
    if Succeeds(w, o.endings(n)) {
      SuccessRestores(s, p, w, o.legible(n), o);
    } else {
      FailureRestores(s, p, w, n, o);
    }
  }

  /** What has been written is recorded. */
  lemma {:induction false} RunRecords(s: Entries, writes: seq<Write>, o: Outside, n: nat, r: string)
    requires n <= |writes| && Run(s, writes, o, n).ok
    ensures Recorded(Run(s, writes, o, n).journal, r) <==> exists k :: 0 <= k < n && writes[k].reference == r
    ensures forall k :: 0 <= k < n ==> writes[k].value != ""
  {
    if n > 0 {
      RunRecords(s, writes, o, n - 1, r);
      var p, w := Run(s, writes, o, n - 1), writes[n - 1];
      RecordedSnoc(p.journal, Saved(w.reference, Seen(p.entries, w.reference, o.legible(n - 1))), r);
    }
  }

  lemma NextIsSafe(s: Entries, writes: seq<Write>, o: Outside, n: nat)
    requires n < |writes| && Harmless(s, writes, o.legible) && Run(s, writes, o, n).ok
    ensures Safe(s, Run(s, writes, o, n), writes[n], o.legible(n))
  {
    RunRecords(s, writes, o, n, writes[n].reference);
    assert Reached(writes, n);
  }

  lemma StartRestores(s: Entries, o: Outside)
    ensures WayBack(s, Progress(s, [], true, 0), o)
  {
  }

  lemma NextRestores(s: Entries, writes: seq<Write>, o: Outside, n: nat)
    requires n < |writes| && Obliging(o) && Harmless(s, writes, o.legible)
    requires Run(s, writes, o, n).ok && WayBack(s, Run(s, writes, o, n), o)
    ensures WayBack(s, Advance(Run(s, writes, o, n), writes[n], n, o), o)
  {
    NextIsSafe(s, writes, o, n);
    AdvanceRestores(s, Run(s, writes, o, n), writes[n], n, o);
  }

  /** At every point of a run the journal is a way back. */
  lemma {:induction false} RunRestores(s: Entries, writes: seq<Write>, o: Outside, n: nat)
    requires n <= |writes| && Obliging(o) && Harmless(s, writes, o.legible)
    ensures WayBack(s, Run(s, writes, o, n), o)
  {
    if n == 0 {
      StartRestores(s, o);
    } else {
      RunRestores(s, writes, o, n - 1);
      if Run(s, writes, o, n - 1).ok {
        NextRestores(s, writes, o, n - 1);
      }
    }
  }

  // ---------------------------------------------------------------- and where it is lost

  /** All writes up to number `i` succeed and the next is refused. */
  function UpTo(i: nat, legible: nat -> bool): Outside {
    Outside((n: nat) => if n <= i then Verified else Refused, legible, (c: nat) => Verified)
  }

  /** What is found under a reference that has not been used. */
  lemma {:induction false} RunUpTo(s: Entries, writes: seq<Write>, legible: nat -> bool, i: nat, n: nat, r: string)
    requires n <= i + 1 && n <= |writes| && forall k :: 0 <= k < n ==> writes[k].value != "" && writes[k].reference != r
    ensures
      var p := Run(s, writes, UpTo(i, legible), n);
      p.ok && p.calls == 0 && !Recorded(p.journal, r) && Lookup(p.entries, r) == Lookup(s, r)
  {
    if n > 0 {
      RunUpTo(s, writes, legible, i, n - 1, r);
      var p, w := Run(s, writes, UpTo(i, legible), n - 1), writes[n - 1];
      RecordedSnoc(p.journal, Saved(w.reference, Seen(p.entries, w.reference, legible(n - 1))), r);
    }
  }

  /** A refused write may delete what it could not read, and changes nothing else. */
  lemma RefusedAdvance(p: Progress, w: Write, n: nat, o: Outside, r: string)
    requires Obliging(o) && o.endings(n).Refused?
    ensures
      var p' := Advance(p, w, n, o);
      !p'.ok && p'.journal == p.journal && (Lookup(p'.entries, r) == Lookup(p.entries, r) || Lookup(p'.entries, r) == None)
  {
  }

  /** The entry found at its first use is lost, whatever is unwound. */
  lemma LostAt(p: Progress, before: seq<Saved>, saved: Saved, o: Outside, was: string)
    requires Obliging(o) && p.journal == before + [saved] && !Recorded(before, saved.reference)
    requires saved.previous == None || (saved.previous == Some("") == Some(was) && Lookup(p.entries, saved.reference) != Some(was))
    ensures Lookup(Unwind(p.entries, p.journal, o.restores, p.calls).entries, saved.reference) != Some(was)
  {
    UnwindLast(p.entries, before, saved, o.restores, p.calls);
    if saved.previous == None {
      UnwindElsewhere(Put(p.entries, saved.reference, None), before, o, p.calls + 1, saved.reference);
    }
  }

  /** Even a write of nothing fails and deletes what could not be read. */
  lemma EmptyWriteLoses(s: Entries, writes: seq<Write>, legible: nat -> bool, i: nat)
    requires i < |writes| && Reached(writes, i) && FirstUse(writes, i) && writes[i].value == ""
    requires Lookup(s, writes[i].reference).Some? && !legible(i)
    ensures RolledBack(s, writes, UpTo(i, legible)) != s
  {
    var o, r := UpTo(i, legible), writes[i].reference;
    RunUpTo(s, writes, legible, i, i, r);
    var q := Run(s, writes, o, i + 1);
    Stopped(s, writes, o, i + 1, |writes|);
    UnwindElsewhere(q.entries, q.journal, o, q.calls, r);
  }

  /** The run fails at the next write, or after the last. */
  lemma RunEnds(s: Entries, writes: seq<Write>, legible: nat -> bool, i: nat, r: string) returns (end: Progress)
    requires i < |writes| && Run(s, writes, UpTo(i, legible), i + 1).ok
    ensures end == Run(s, writes, UpTo(i, legible), |writes|)
    ensures
      var q := Run(s, writes, UpTo(i, legible), i + 1);
      end.journal == q.journal && (Lookup(end.entries, r) == Lookup(q.entries, r) || Lookup(end.entries, r) == None)
  {
    var o := UpTo(i, legible);
    end := Run(s, writes, o, i + 1);
    if i + 1 < |writes| {
      RefusedAdvance(end, writes[i + 1], i + 1, o, r);
      end := Run(s, writes, o, i + 2);
      Stopped(s, writes, o, i + 2, |writes|);
    }
  }

  /** A write to a reference whose entry is not kept, and then a failure. */
  lemma EntryIsLost(s: Entries, writes: seq<Write>, legible: nat -> bool, i: nat)
    requires i < |writes| && Reached(writes, i) && FirstUse(writes, i) && !Kept(s, writes[i], legible(i))
    ensures RolledBack(s, writes, UpTo(i, legible)) != s
  {
    if writes[i].value == "" {
      EmptyWriteLoses(s, writes, legible, i);
      return;
    }
    var o, r := UpTo(i, legible), writes[i].reference;
    var p := Run(s, writes, o, i);
    RunUpTo(s, writes, legible, i, i, r);
    var end := RunEnds(s, writes, legible, i, r);
    LostAt(end, p.journal, Saved(r, Seen(p.entries, r, legible(i))), o, Lookup(s, r).value);
  }

  ghost predicate AlwaysRestored(s: Entries, writes: seq<Write>, legible: nat -> bool) {
    forall o: Outside :: o.legible == legible && Obliging(o) ==> RolledBack(s, writes, o) == s
  }

  /** Suppose that every call works that puts something back. However and wherever a migration
      fails, and even if it writes one reference twice, the store is as it was; exactly if the
      first write to each reference finds nothing there, or reads what is there, and overwrites
      no empty secret. */
  lemma RestoredExactly(s: Entries, writes: seq<Write>, legible: nat -> bool)
    ensures AlwaysRestored(s, writes, legible) <==> Harmless(s, writes, legible)
  {
    if Harmless(s, writes, legible) {
      forall o: Outside | o.legible == legible && Obliging(o) ensures RolledBack(s, writes, o) == s {
        RunRestores(s, writes, o, |writes|);
      }
    } else {
      var i :| 0 <= i < |writes| && Reached(writes, i) && FirstUse(writes, i) && !Kept(s, writes[i], legible(i));
      EntryIsLost(s, writes, legible, i);
      assert Obliging(UpTo(i, legible)) && UpTo(i, legible).legible == legible;
    }
  }
}
