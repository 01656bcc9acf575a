/** The migration runner: one transaction per file, in sorted order, resumable. */
module Migrations {
  import opened Common
  import opened Bags

  // ----- sort.Strings: byte-wise lexicographic order -----

  predicate Leq(a: string, b: string) {
    a == "" || (b != "" && (a[0] < b[0] || (a[0] == b[0] && Leq(a[1..], b[1..]))))
  }

  /** The order spelled out: a prefix comes first, and otherwise the first difference decides. */
  lemma {:induction false} LeqIsLexicographic(a: string, b: string)
    ensures Leq(a, b) <==>
      a <= b || exists i | 0 <= i < |a| && i < |b| :: a[..i] == b[..i] && a[i] < b[i]
    decreases |a|
  {
    if a != "" && b != "" && a[0] == b[0] {
      LeqIsLexicographic(a[1..], b[1..]);
      assert a == [a[0]] + a[1..] && b == [b[0]] + b[1..];
      if i :| 0 <= i < |a| && i < |b| && a[..i] == b[..i] && a[i] < b[i] {
        assert a[1..][..i - 1] == a[..i][1..] && b[1..][..i - 1] == b[..i][1..];
      }
      if i :| 0 <= i < |a| - 1 && i < |b| - 1 && a[1..][..i] == b[1..][..i] && a[1..][i] < b[1..][i] {
        assert a[..i + 1] == [a[0]] + a[1..][..i] && b[..i + 1] == [b[0]] + b[1..][..i];
      }
    } else if a != "" && b != "" {
      assert a[..0] == b[..0];
      assert forall i | 0 < i < |a| && i < |b| :: a[..i][0] == a[0] && b[..i][0] == b[0];
    }
  }

  lemma {:induction false} LeqTotal(a: string, b: string)
    ensures Leq(a, b) || Leq(b, a)
    ensures Leq(a, b) && Leq(b, a) ==> a == b
  {
    if a != "" && b != "" && a[0] == b[0] {
      LeqTotal(a[1..], b[1..]);
      assert a == [a[0]] + a[1..] && b == [b[0]] + b[1..];
    }
  }

  lemma {:induction false} LeqTransitive(a: string, b: string, c: string)
    requires Leq(a, b) && Leq(b, c)
    ensures Leq(a, c)
  {
    if a != "" && a[0] == b[0] && b[0] == c[0] {
      LeqTransitive(a[1..], b[1..], c[1..]);
    }
  }

  ghost predicate Sorted(s: seq<string>) { forall i, j | 0 <= i < j < |s| :: Leq(s[i], s[j]) }

  function InsertSorted(s: seq<string>, x: string): (r: seq<string>)
    ensures r != []
  {
    if s == [] then [x] else if Leq(x, s[0]) then [x] + s else [s[0]] + InsertSorted(s[1..], x)
  }

  function Sort(s: seq<string>): seq<string> {
    if s == [] then [] else InsertSorted(Sort(s[1..]), s[0])
  }

  /** Something no larger in front of a sorted list. */
  lemma SortedCons(x: string, s: seq<string>)
    requires Sorted(s) && (s != [] ==> Leq(x, s[0]))
    ensures Sorted([x] + s)
  {
    forall i | 0 <= i < |s| ensures Leq(x, s[i]) {
      if i > 0 { LeqTransitive(x, s[0], s[i]); }
    }
  }

  lemma {:induction false} InsertSortedSorts(s: seq<string>, x: string)
    requires Sorted(s)
    ensures Sorted(InsertSorted(s, x)) && multiset(InsertSorted(s, x)) == multiset(s) + multiset{x}
    ensures InsertSorted(s, x)[0] == x || (s != [] && InsertSorted(s, x)[0] == s[0])
  {
    if s != [] {
      assert s == [s[0]] + s[1..];
      if Leq(x, s[0]) {
        SortedCons(x, s);
      } else {
        LeqTotal(x, s[0]);
        InsertSortedSorts(s[1..], x);
        SortedCons(s[0], InsertSorted(s[1..], x));
      }
    }
  }

  /** The entries in order, each as often as it was given. */
  lemma {:induction false} SortSorts(s: seq<string>)
    ensures Sorted(Sort(s)) && multiset(Sort(s)) == multiset(s)
  {
    if s != [] {
      SortSorts(s[1..]);
      InsertSortedSorts(Sort(s[1..]), s[0]);
      assert s == [s[0]] + s[1..];
    }
  }

  // ----- one run as a function -----

  /** The committed state: the rows of schema_migrations, and the scripts whose
      effects are in the database, in the order they took effect. */
  datatype Db = Db(versions: set<string>, applied: seq<string>)

  const FRESH := Db({}, [])

  /** The outcomes of one entry's calls. A transaction that does not commit leaves
      nothing; a commit can take effect and lose its reply. */
  datatype EntryFaults = EntryFaults(query: bool, read: bool, begin: bool, exec: bool, record: bool, commit: Outcome)

  /** The outcomes of one run, by entry: a run visits each once. A crash is a run
      that ends at the call it crashed in. */
  datatype RunFaults = RunFaults(createTable: bool, entries: string -> EntryFaults)

  function Committed(db: Db, entry: string): Db { Db(db.versions + {entry}, db.applied + [entry]) }

  function ApplyEntry(db: Db, entry: string, f: EntryFaults): (Db, bool) {
    if !f.query then (db, false)
    else if entry in db.versions then (db, true)
    else if !f.read || !f.begin || !f.exec || !f.record then (db, false)
    else (if f.commit.Applied() then Committed(db, entry) else db, f.commit.Done?)
  }

  function ApplyAll(db: Db, entries: seq<string>, f: RunFaults): (Db, bool)
    decreases |entries|
  {
    if entries == [] then (db, true)
    else
      var (db', ok) := ApplyEntry(db, entries[0], f.entries(entries[0]));
      if ok then ApplyAll(db', entries[1..], f) else (db', false)
  }

  function RunOn(db: Db, files: seq<string>, f: RunFaults): (Db, bool) {
    if !f.createTable then (db, false) else ApplyAll(db, Sort(files), f)
  }

  // ----- when a run succeeds -----

  /** The calls made for an entry all work; for a recorded one that is the query alone. */
  predicate Goes(versions: set<string>, entry: string, e: EntryFaults) {
    e.query && (entry in versions || (e.read && e.begin && e.exec && e.record && e.commit.Done?))
  }

  /** An entry is recorded together with its effects, or neither happens: they take
      effect when every call before the commit works and the commit is not refused,
      acknowledged or not. */
  lemma EntryDecides(db: Db, entry: string, f: EntryFaults)
    ensures var db' := ApplyEntry(db, entry, f).0;
      var applies := entry !in db.versions && f.query && f.read && f.begin && f.exec && f.record && !f.commit.Refused?;
      db' == if applies then Db(db.versions + {entry}, db.applied + [entry]) else db
  {
  }

  lemma {:induction false} AllGo(db: Db, entries: seq<string>, f: RunFaults)
    ensures ApplyAll(db, entries, f).1 <==> forall e | e in entries :: Goes(db.versions, e, f.entries(e))
    decreases |entries|
  {
    if entries != [] {
      var e := entries[0];
      AllGo(ApplyEntry(db, e, f.entries(e)).0, entries[1..], f);
      assert entries == [e] + entries[1..];
    }
  }

  /** A run succeeds exactly when none of the calls it has to make fails, whatever the
      state it starts from; a recorded file is skipped. */
  lemma RunSucceeds(db: Db, files: seq<string>, f: RunFaults)
    ensures RunOn(db, files, f).1 <==>
      f.createTable && forall e | e in files :: Goes(db.versions, e, f.entries(e))
  {
    AllGo(db, Sort(files), f);
    SortSorts(files);
    SameMembers(Sort(files), files);
  }

  // ----- exactly once -----

  /** schema_migrations and the effects agree, and the effects are the first
      entries in order. */
  ghost predicate InStep(db: Db, entries: seq<string>) {
    && |db.applied| <= |entries|
    && db.applied == entries[..|db.applied|]
    && db.versions == (set e | e in db.applied)
  }

  /** The k-th entry is recorded exactly when it has been applied. */
  lemma RecordedIffApplied(db: Db, entries: seq<string>, k: nat)
    requires Distinct(entries) && InStep(db, entries) && k <= |db.applied| && k < |entries|
    ensures entries[k] in db.versions <==> k < |db.applied|
  {
    if k < |db.applied| {
      assert db.applied[k] == entries[k];
    } else {
      assert forall j | 0 <= j < |db.applied| :: db.applied[j] == entries[j];
    }
  }

  lemma EntryKeepsStep(db: Db, entries: seq<string>, k: nat, f: EntryFaults)
    requires Distinct(entries) && InStep(db, entries) && k <= |db.applied| && k < |entries|
    ensures var (db', ok) := ApplyEntry(db, entries[k], f);
      && InStep(db', entries) && |db.applied| <= |db'.applied|
      && (ok ==> k + 1 <= |db'.applied|)
  {
    RecordedIffApplied(db, entries, k);
    var db' := ApplyEntry(db, entries[k], f).0;
    if db' != db {
      assert db'.applied == entries[..k + 1];
      assert (set x | x in db'.applied) == (set x | x in db.applied) + {entries[k]};
    }
  }

  lemma {:induction false} ApplyAllKeepsStep(db: Db, entries: seq<string>, k: nat, f: RunFaults)
    requires Distinct(entries) && InStep(db, entries) && k <= |entries|
    requires k <= |db.applied|
    ensures var (db', ok) := ApplyAll(db, entries[k..], f);
      && InStep(db', entries) && |db.applied| <= |db'.applied|
      && (ok ==> db'.applied == entries)
    decreases |entries| - k
  {
    if k == |entries| {
      assert entries[k..] == [];
      assert db.applied == entries;
    } else {
      assert entries[k..][0] == entries[k] && entries[k..][1..] == entries[k + 1..];
      EntryKeepsStep(db, entries, k, f.entries(entries[k]));
      var (db', ok) := ApplyEntry(db, entries[k], f.entries(entries[k]));
      if ok {
        ApplyAllKeepsStep(db', entries, k + 1, f);
      }
    }
  }

  function RunMany(db: Db, files: seq<string>, runs: seq<RunFaults>): Db
    decreases |runs|
  {
    if runs == [] then db else RunMany(RunOn(db, files, runs[0]).0, files, runs[1..])
  }

  lemma SortKeepsDistinct(files: seq<string>)
    requires Distinct(files)
    ensures Distinct(Sort(files)) && |Sort(files)| == |files|
  {
    SortSorts(files);
    SameMembers(Sort(files), files);
    DistinctPermutes(files, Sort(files));
  }

  /** At every commit point of any number of runs, each interrupted anywhere,
      schema_migrations names exactly the scripts in effect, and those are an
      initial piece of the sorted entries, each once. */
  lemma {:induction false} InterruptedRunsKeepStep(db: Db, files: seq<string>, runs: seq<RunFaults>)
    requires Distinct(files) && InStep(db, Sort(files))
    ensures InStep(RunMany(db, files, runs), Sort(files))
    decreases |runs|
  {
    if runs != [] {
      SortKeepsDistinct(files);
      assert Sort(files)[0..] == Sort(files);
      ApplyAllKeepsStep(db, Sort(files), 0, runs[0]);
      InterruptedRunsKeepStep(RunOn(db, files, runs[0]).0, files, runs[1..]);
    }
  }

  /** Exactly once: any interrupted runs and then one that succeeds have applied
      the sorted entries, each once and in order, and a further run, whatever
      becomes of it, changes nothing and succeeds unless a query fails. */
  lemma ExactlyOnce(files: seq<string>, runs: seq<RunFaults>, last: RunFaults, more: RunFaults)
    requires Distinct(files)
    requires RunOn(RunMany(FRESH, files, runs), files, last).1
    ensures var db := RunOn(RunMany(FRESH, files, runs), files, last).0;
      && db.applied == Sort(files)
      && db.versions == (set f | f in files)
      && RunOn(db, files, more).0 == db
      && (RunOn(db, files, more).1 <==> more.createTable && forall e | e in files :: more.entries(e).query)
  {
    SortKeepsDistinct(files);
    InterruptedRunsKeepStep(FRESH, files, runs);
    var db0 := RunMany(FRESH, files, runs);
    assert Sort(files)[0..] == Sort(files);
    ApplyAllKeepsStep(db0, Sort(files), 0, last);
    SortSorts(files);
    SameMembers(Sort(files), files);
    ApplyAllKeepsStep(RunOn(db0, files, last).0, Sort(files), 0, more);
    RunSucceeds(RunOn(db0, files, last).0, files, more);
  }

  // ----- the code -----

  class Database {
    var versions: set<string>
    var applied: seq<string>

    function State(): Db reads this { Db(versions, applied) }

    constructor ()
      ensures State() == FRESH
    {
      versions, applied := {}, [];
    }

    /** Runs the files; on an error the entries before it stay committed. */
    method Run(files: seq<string>, f: RunFaults) returns (r: Result<(), AppError>)
      modifies this
      ensures State() == RunOn(old(State()), files, f).0
      ensures r.Ok? <==> RunOn(old(State()), files, f).1
      ensures r.Ok? <==> f.createTable && forall e | e in files :: Goes(old(versions), e, f.entries(e))
    {
      RunSucceeds(State(), files, f);
      if !f.createTable { return Err(Failure); }
      var entries := Sort(files);
      assert entries[0..] == entries;
      for i := 0 to |entries|
        invariant ApplyAll(old(State()), entries, f) == ApplyAll(State(), entries[i..], f)
      {
        var entry := entries[i];
        assert entries[i..][0] == entry && entries[i..][1..] == entries[i + 1..];
        var e := f.entries(entry);
        if !e.query { return Err(Failure); }
        var alreadyApplied := entry in versions;
        if alreadyApplied { continue; }
        if !e.read { return Err(Failure); }
        if !e.begin { return Err(Failure); }
        if !e.exec { return Err(Failure); }
        if !e.record { return Err(Failure); }
        if e.commit.Applied() {
          versions, applied := versions + {entry}, applied + [entry];
        }
        if !e.commit.Done? { return Err(Failure); }
      }
      r := Ok(());
    }
  }
}
