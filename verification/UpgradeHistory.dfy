/** What any number of upgrade attempts, crashed, failed or finished, leave in the history and in the settings table:
    first for every database, then exactly when only the one migration not recorded yet can run again. */
module UpgradeHistory {
  import opened Prelude
  import opened Semver
  import opened SeqFilter
  import opened TextOrder
  import opened Upgrade

  // ----- reading a history

  /** The newest version recorded in a history that began with `base` as the last one. */
  function LastNoted(log: seq<Event>, base: Option<Version>): Option<Version> {
    if log == [] then base
    else if log[|log| - 1].Noted? then Some(log[|log| - 1].version)
    else LastNoted(log[..|log| - 1], base)
  }

  /** The versions recorded in a history, in order. */
  function NotedIn(log: seq<Event>): seq<Version> {
    if log == [] then []
    else NotedIn(log[..|log| - 1]) + if log[|log| - 1].Noted? then [log[|log| - 1].version] else []
  }

  /** The list of the attempt a history is in, and how many of its migrations have run. */
  datatype Cursor = Cursor(list: seq<Version>, ran: nat)

  function CursorOf(log: seq<Event>): Cursor {
    if log == [] then Cursor([], 0)
    else
      match log[|log| - 1]
      case Started(list) => Cursor(list, 0)
      case Ran(_) => var c := CursorOf(log[..|log| - 1]); c.(ran := c.ran + 1)
      case Noted(_) => CursorOf(log[..|log| - 1])
  }

  /** An attempt takes everything above the last record. What runs is the next migration of the attempt's list, and above
      everything recorded. A record directly follows the run it records. */
  predicate EventFine(base: Option<Version>, log: seq<Event>, e: Event) {
    match e
    case Started(list) => list == Filter(AboveLast(LastNoted(log, base)), MIGRATIONS)
    case Ran(v) => var c := CursorOf(log); c.ran < |c.list| && v == c.list[c.ran] && IsAbove(v, LastNoted(log, base))
    case Noted(v) => log != [] && log[|log| - 1] == Ran(v)
  }

  predicate HistoryFine(base: Option<Version>, log: seq<Event>) {
    forall i | 0 <= i < |log| :: EventFine(base, log[..i], log[i])
  }

  lemma HistoryAppend(base: Option<Version>, log: seq<Event>, e: Event)
    requires HistoryFine(base, log) && EventFine(base, log, e)
    ensures HistoryFine(base, log + [e])
  {
    hide EventFine;
    forall i | 0 <= i < |log + [e]| ensures EventFine(base, (log + [e])[..i], (log + [e])[i]) {
      assert (log + [e])[..i] == log[..i];
      assert log[..|log|] == log;
    }
  }

  lemma ReadAppend(log: seq<Event>, e: Event, base: Option<Version>)
    ensures LastNoted(log + [e], base) == if e.Noted? then Some(e.version) else LastNoted(log, base)
    ensures NotedIn(log + [e]) == NotedIn(log) + if e.Noted? then [e.version] else []
    ensures CursorOf(log + [e]) == match e
                                   case Started(list) => Cursor(list, 0)
                                   case Ran(_) => (var c := CursorOf(log); c.(ran := c.ran + 1))
                                   case Noted(_) => CursorOf(log)
  {
    assert (log + [e])[..|log + [e]| - 1] == log;
  }

  // ----- for every database

  /** The settings table holds what it held, followed by what the history recorded. */
  predicate TableOk(start: Option<seq<Option<Version>>>, db: Db) {
    && (start.Some? ==> db.settings.Some?)
    && RecordedIn(db) == RecordedIn(Db(start, [])) + Entries(NotedIn(db.log))
    && LastVersion(db) == LastNoted(db.log, LastVersion(Db(start, [])))
  }

  function Entries(vs: seq<Version>): (r: seq<Option<Version>>)
    ensures |r| == |vs|
    ensures forall i | 0 <= i < |vs| :: r[i] == Some(vs[i])
  {
    seq(|vs|, i requires 0 <= i < |vs| => Some(vs[i]))
  }

  /** Where an attempt stands: what is left of its list ascends and is above everything recorded. */
  predicate AttemptOk(base: Option<Version>, s: State) {
    s.process.Running? ==>
      var p := s.process;
      && p.next <= |p.toRun|
      && CursorOf(s.db.log) == Cursor(p.toRun, p.next + if p.ran then 1 else 0)
      && Ascending(p.toRun)
      && (forall i | p.next <= i < |p.toRun| :: IsAbove(p.toRun[i], LastNoted(s.db.log, base)))
      && (p.ran ==> p.next < |p.toRun| && s.db.log != [] && s.db.log[|s.db.log| - 1] == Ran(p.toRun[p.next]))
  }

  predicate StateOk(start: Option<seq<Option<Version>>>, s: State) {
    var base := LastVersion(Db(start, []));
    && HistoryFine(base, s.db.log)
    && TableOk(start, s.db)
    && AttemptOk(base, s)
  }

  lemma TableAppears(start: Option<seq<Option<Version>>>, db: Db, creates: bool)
    requires TableOk(start, db)
    ensures TableOk(start, Broken(db, creates))
  {
    hide LastNoted, NotedIn;
  }

  lemma TableUnnoted(start: Option<seq<Option<Version>>>, db: Db, e: Event)
    requires TableOk(start, db) && !e.Noted?
    ensures TableOk(start, db.(log := db.log + [e]))
  {
    ReadAppend(db.log, e, LastVersion(Db(start, [])));
    hide LastNoted, NotedIn;
  }

  /** What recording a version adds to the table. */
  lemma RecordAdds(db: Db, v: Version)
    requires db.settings.Some?
    ensures var db' := Recorded(db, v);
            && db'.settings.Some? && db'.log == db.log + [Noted(v)]
            && RecordedIn(db') == RecordedIn(db) + [Some(v)] && LastVersion(db') == Some(v)
  {
  }

  lemma EntriesAppend(vs: seq<Version>, v: Version)
    ensures Entries(vs + [v]) == Entries(vs) + [Some(v)]
  {
  }

  lemma TableNoted(start: Option<seq<Option<Version>>>, db: Db, v: Version)
    requires TableOk(start, db) && db.settings.Some?
    ensures TableOk(start, Recorded(db, v))
  {
    hide LastNoted, NotedIn, RecordedIn, LastVersion, Recorded, Entries;
    ReadAppend(db.log, Noted(v), LastVersion(Db(start, [])));
    RecordAdds(db, v);
    EntriesAppend(NotedIn(db.log), v);
    assert RecordedIn(Db(start, [])) + Entries(NotedIn(db.log)) + [Some(v)] == RecordedIn(Db(start, [])) + (Entries(NotedIn(db.log)) + [Some(v)]);
  }

  lemma LaterIsStillAbove(list: seq<Version>, i: nat, j: nat)
    requires Ascending(list) && i < j < |list|
    ensures IsAbove(list[j], Some(list[i]))
  {
    hide Compare;
    CompareTotal(list[i], list[j]);
  }

  lemma AttemptStarts(base: Option<Version>, db: Db)
    requires LastVersion(db) == LastNoted(db.log, base)
    ensures var e := Started(Pending(db));
            && EventFine(base, db.log, e)
            && AttemptOk(base, State(db.(log := db.log + [e]), Running(Pending(db), 0, false)))
  {
    hide MIGRATIONS, Compare;
    var i := PendingIsSuffix(db);
    ReadAppend(db.log, Started(Pending(db)), base);
    hide LastNoted, CursorOf, Filter, Ascending, IsAbove;
  }

  lemma AttemptRuns(base: Option<Version>, s: State, settings: Option<seq<Option<Version>>>)
    requires AttemptOk(base, s) && s.process.Running? && s.process.next < |s.process.toRun| && !s.process.ran
    ensures var v := s.process.toRun[s.process.next];
            && EventFine(base, s.db.log, Ran(v))
            && AttemptOk(base, State(Db(settings, s.db.log + [Ran(v)]), s.process.(ran := true)))
  {
    hide IsAbove, Ascending;
    ReadAppend(s.db.log, Ran(s.process.toRun[s.process.next]), base);
    hide LastNoted, CursorOf;
  }

  lemma AttemptRecords(base: Option<Version>, s: State, settings: Option<seq<Option<Version>>>)
    requires AttemptOk(base, s) && s.process.Running? && s.process.ran
    ensures var p := s.process;
            var v := p.toRun[p.next];
            && EventFine(base, s.db.log, Noted(v))
            && AttemptOk(base, State(Db(settings, s.db.log + [Noted(v)]), Running(p.toRun, p.next + 1, false)))
  {
    hide IsAbove, Compare;
    var p := s.process;
    ReadAppend(s.db.log, Noted(p.toRun[p.next]), base);
    forall i | p.next < i < |p.toRun| ensures IsAbove(p.toRun[i], Some(p.toRun[p.next])) {
      LaterIsStillAbove(p.toRun, p.next, i);
    }
    hide LastNoted, CursorOf, Ascending;
  }

  lemma StartKeeps(creates: Version -> bool, start: Option<seq<Option<Version>>>, s: State)
    requires StateOk(start, s) && s.process.Idle?
    ensures StateOk(start, Next(creates, s, Start))
  {
    var base := LastVersion(Db(start, []));
    AttemptStarts(base, s.db);
    HistoryAppend(base, s.db.log, Started(Pending(s.db)));
    TableUnnoted(start, s.db, Started(Pending(s.db)));
    hide HistoryFine, TableOk, AttemptOk, EventFine, Pending, LastVersion;
  }

  lemma RunNextKeeps(creates: Version -> bool, start: Option<seq<Option<Version>>>, s: State, ok: bool, partly: bool)
    requires StateOk(start, s)
    ensures StateOk(start, Next(creates, s, RunNext(ok, partly)))
  {
    hide HistoryFine, TableOk, EventFine, LastVersion, LastNoted, CursorOf, Ascending, IsAbove;
    var p := s.process;
    if p.Running? && p.next < |p.toRun| && !p.ran {
      var base, v := LastVersion(Db(start, [])), p.toRun[p.next];
      if ok {
        var t := Next(creates, s, RunNext(ok, partly));
        AttemptRuns(base, s, t.db.settings);
        hide AttemptOk;
        HistoryAppend(base, s.db.log, Ran(v));
        TableUnnoted(start, s.db, Ran(v));
        TableAppears(start, s.db.(log := s.db.log + [Ran(v)]), creates(v));
      } else {
        TableAppears(start, s.db, partly && creates(v));
      }
    }
  }

  lemma RecordNextKeeps(creates: Version -> bool, start: Option<seq<Option<Version>>>, s: State)
    requires StateOk(start, s)
    ensures StateOk(start, Next(creates, s, RecordNext(true)))
  {
    hide HistoryFine, TableOk, EventFine, LastVersion, LastNoted, CursorOf, Ascending, IsAbove;
    var p := s.process;
    if p.Running? && p.next < |p.toRun| && p.ran && s.db.settings.Some? {
      var base, v := LastVersion(Db(start, [])), p.toRun[p.next];
      AttemptRecords(base, s, Recorded(s.db, v).settings);
      hide AttemptOk;
      HistoryAppend(base, s.db.log, Noted(v));
      TableNoted(start, s.db, v);
    }
  }

  lemma NextKeeps(creates: Version -> bool, start: Option<seq<Option<Version>>>, s: State, l: Label)
    requires StateOk(start, s)
    ensures StateOk(start, Next(creates, s, l))
  {
    hide HistoryFine, TableOk, LastVersion;
    match l
    case Start => if s.process.Idle? { StartKeeps(creates, start, s); }
    case RunNext(ok, partly) => RunNextKeeps(creates, start, s, ok, partly);
    case RecordNext(ok) => if ok { RecordNextKeeps(creates, start, s); }
    case _ =>
  }

  lemma {:induction false} RunKeeps(creates: Version -> bool, start: Option<seq<Option<Version>>>, labels: seq<Label>)
    ensures StateOk(start, Run(creates, Found(start), labels))
  {
    if labels == [] {
      assert Entries([]) == [];
    } else {
      hide StateOk, Next;
      RunKeeps(creates, start, labels[..|labels| - 1]);
      NextKeeps(creates, start, Run(creates, Found(start), labels[..|labels| - 1]), labels[|labels| - 1]);
    }
  }

  /** A record follows its run, so it is above everything recorded before that. */
  lemma RecordIsAbove(base: Option<Version>, log: seq<Event>, j: nat)
    requires HistoryFine(base, log) && j < |log| && log[j].Noted?
    ensures j > 0 && log[j - 1] == Ran(log[j].version)
    ensures IsAbove(log[j].version, LastNoted(log[..j - 1], base)) && LastNoted(log[..j], base) == LastNoted(log[..j - 1], base)
  {
    hide IsAbove, CursorOf;
    assert EventFine(base, log[..j], log[j]);
    assert log[..j][j - 1] == log[j - 1];
    assert EventFine(base, log[..j - 1], log[j - 1]);
    assert log[..j] == log[..j - 1] + [log[j - 1]];
    ReadAppend(log[..j - 1], log[j - 1], base);
    hide LastNoted, HistoryFine;
  }

  /** In a fine history what was recorded last is at or above anything recorded before. */
  lemma {:induction false} LastIsNewest(base: Option<Version>, log: seq<Event>, i: nat, j: nat)
    requires HistoryFine(base, log) && i < j <= |log| && log[i].Noted?
    ensures var last := LastNoted(log[..j], base);
            last.Some? && (last.value == log[i].version || Compare(log[i].version, last.value) == Below)
  {
    hide Compare, HistoryFine, LastNoted;
    var e := log[j - 1];
    assert log[..j] == log[..j - 1] + [e];
    ReadAppend(log[..j - 1], e, base);
    if j - 1 > i {
      LastIsNewest(base, log, i, j - 1);
      if e.Noted? {
        RecordIsAbove(base, log, j - 1);
        var last := LastNoted(log[..j - 1], base).value;
        CompareTotal(last, e.version);
        if last != log[i].version {
          CompareTransitive(log[i].version, last, e.version);
        }
      }
    }
  }

  /** Whatever runs after a record is above it, so no recorded migration ever runs again, and the records ascend. */
  lemma RecordedNeverRunsAgain(base: Option<Version>, log: seq<Event>, i: nat, j: nat)
    requires HistoryFine(base, log) && i < j < |log| && log[i].Noted? && !log[j].Started?
    ensures Compare(log[i].version, log[j].version) == Below
  {
    hide Compare, LastNoted, CursorOf;
    var k := if log[j].Ran? then j else j - 1;
    if log[j].Noted? {
      RecordIsAbove(base, log, j);
    }
    assert EventFine(base, log[..k], log[k]);
    LastIsNewest(base, log, i, k);
    var last := LastNoted(log[..k], base).value;
    CompareTotal(last, log[k].version);
    if last != log[i].version {
      CompareTransitive(log[i].version, last, log[k].version);
    }
  }

  /** Nothing that was recorded runs or is recorded again, and the records ascend. */
  predicate RecordsAscend(log: seq<Event>) {
    forall i, j | 0 <= i < j < |log| && log[i].Noted? && !log[j].Started? :: Compare(log[i].version, log[j].version) == Below
  }

  /** From any database, over any attempts that crash or fail anywhere: each attempt runs, in order, everything above the
      last record; each record directly follows its run; the settings table holds what it held and then the records in
      order; whatever runs or is recorded after a record is above it; and what is pending is what lies above the last record. */
  lemma UpgradesKeepOrder(creates: Version -> bool, start: Option<seq<Option<Version>>>, labels: seq<Label>)
    ensures var db := Run(creates, Found(start), labels).db;
            var base := LastVersion(Db(start, []));
            && HistoryFine(base, db.log)
            && RecordedIn(db) == RecordedIn(Db(start, [])) + Entries(NotedIn(db.log))
            && RecordsAscend(db.log)
            && Pending(db) == Filter(AboveLast(LastNoted(db.log, base)), MIGRATIONS)
  {
    RunKeeps(creates, start, labels);
    var log := Run(creates, Found(start), labels).db.log;
    hide Run, LastNoted, NotedIn, MIGRATIONS, HistoryFine, Compare;
    forall i, j | 0 <= i < j < |log| && log[i].Noted? && !log[j].Started? ensures Compare(log[i].version, log[j].version) == Below {
      RecordedNeverRunsAgain(LastVersion(Db(start, [])), log, i, j);
    }
  }

  // ----- when only the unrecorded migration runs again

  function Notes(log: seq<Event>): nat {
    if log == [] then 0 else Notes(log[..|log| - 1]) + if log[|log| - 1].Noted? then 1 else 0
  }

  /** Every event concerns the first migration not recorded yet, and a record directly follows the run it records. */
  predicate EventOk(pending: seq<Version>, log: seq<Event>, i: nat)
    requires i < |log|
  {
    var k := Notes(log[..i]);
    match log[i]
    case Started(list) => k <= |pending| && list == pending[k..]
    case Ran(v) => k < |pending| && v == pending[k]
    case Noted(v) => k < |pending| && v == pending[k] && i > 0 && log[i - 1] == Ran(v)
  }

  /** `pending` is what was pending at the start of the history. */
  predicate LogOk(pending: seq<Version>, log: seq<Event>) {
    && Notes(log) <= |pending|
    && forall i | 0 <= i < |log| :: EventOk(pending, log, i)
  }

  /** The settings table is there before the first record is due. */
  predicate TableInTime(creates: Version -> bool, start: Option<seq<Option<Version>>>) {
    start.Some? || creates(MIGRATIONS[0])
  }

  predicate DbOk(creates: Version -> bool, pending: seq<Version>, first: seq<Option<Version>>, db: Db) {
    && LogOk(pending, db.log)
    && Notes(db.log) <= |pending|
    && RecordedIn(db) == first + Entries(pending[..Notes(db.log)])
    && Pending(db) == pending[Notes(db.log)..]
    && (db.settings.None? ==> Notes(db.log) == 0 && pending == MIGRATIONS && creates(MIGRATIONS[0]))
  }

  predicate ProcessOk(pending: seq<Version>, s: State) {
    s.process.Running? ==>
      && s.process.next <= |s.process.toRun|
      && Notes(s.db.log) <= |pending|
      && s.process.toRun[s.process.next..] == pending[Notes(s.db.log)..]
      && (s.process.ran ==>
            s.db.log != [] && s.process.next < |s.process.toRun| && s.db.log[|s.db.log| - 1] == Ran(s.process.toRun[s.process.next]))
      && (s.db.settings.None? ==> !s.process.ran)
  }

  predicate ResumeOk(creates: Version -> bool, pending: seq<Version>, first: seq<Option<Version>>, s: State) {
    DbOk(creates, pending, first, s.db) && ProcessOk(pending, s)
  }

  lemma AppendEvent(pending: seq<Version>, log: seq<Event>, e: Event)
    requires LogOk(pending, log)
    requires match e
             case Started(list) => list == pending[Notes(log)..]
             case Ran(v) => Notes(log) < |pending| && v == pending[Notes(log)]
             case Noted(v) => Notes(log) < |pending| && v == pending[Notes(log)] && log != [] && log[|log| - 1] == Ran(v)
    ensures LogOk(pending, log + [e])
    ensures Notes(log + [e]) == Notes(log) + if e.Noted? then 1 else 0
  {
    var longer := log + [e];
    assert longer[..|log|] == log;
    forall i | 0 <= i < |longer| ensures EventOk(pending, longer, i) {
      assert longer[..i] == log[..i];
      if i < |log| {
        assert EventOk(pending, log, i);
      }
    }
  }

  lemma StartResumes(creates: Version -> bool, pending: seq<Version>, first: seq<Option<Version>>, s: State)
    requires ResumeOk(creates, pending, first, s) && s.process.Idle?
    ensures ResumeOk(creates, pending, first, Next(creates, s, Start))
  {
    hide Pending, MIGRATIONS, LogOk;
    AppendEvent(pending, s.db.log, Started(Pending(s.db)));
    PendingReadsRecorded(s.db, Next(creates, s, Start).db);
    assert Pending(s.db)[0..] == Pending(s.db);
    hide Notes;
  }

  lemma RunResumes(creates: Version -> bool, pending: seq<Version>, first: seq<Option<Version>>, s: State, ok: bool, partly: bool)
    requires ResumeOk(creates, pending, first, s)
    ensures ResumeOk(creates, pending, first, Next(creates, s, RunNext(ok, partly)))
  {
    hide Pending, MIGRATIONS, LogOk;
    var p := s.process;
    var t := Next(creates, s, RunNext(ok, partly));
    PendingReadsRecorded(s.db, t.db);
    if p.Running? && p.next < |p.toRun| && !p.ran && ok {
      assert p.toRun[p.next..][0] == pending[Notes(s.db.log)..][0];
      AppendEvent(pending, s.db.log, Ran(p.toRun[p.next]));
    }
    hide Notes;
  }

  lemma RecordResumes(creates: Version -> bool, pending: seq<Version>, first: seq<Option<Version>>, s: State)
    requires ResumeOk(creates, pending, first, s)
    ensures ResumeOk(creates, pending, first, Next(creates, s, RecordNext(true)))
  {
    hide Pending, LogOk, MIGRATIONS;
    var p := s.process;
    if p.Running? && p.next < |p.toRun| && p.ran {
      var k, v := Notes(s.db.log), p.toRun[p.next];
      assert v == p.toRun[p.next..][0] == pending[k..][0];
      AppendEvent(pending, s.db.log, Noted(v));
      PendingRecorded(s.db);
      assert pending[k..][1..] == pending[k + 1..];
      assert p.toRun[p.next..][1..] == p.toRun[p.next + 1..];
      assert Entries(pending[..k + 1]) == Entries(pending[..k]) + [Some(v)];
    }
  }

  lemma NextResumes(creates: Version -> bool, pending: seq<Version>, first: seq<Option<Version>>, s: State, l: Label)
    requires ResumeOk(creates, pending, first, s)
    ensures ResumeOk(creates, pending, first, Next(creates, s, l))
  {
    hide LogOk, Pending, Notes, MIGRATIONS;
    match l
    case Start => if s.process.Idle? { StartResumes(creates, pending, first, s); }
    case RunNext(ok, partly) => RunResumes(creates, pending, first, s, ok, partly);
    case RecordNext(ok) => if ok { RecordResumes(creates, pending, first, s); }
    case _ =>
  }

  lemma {:induction false} RunsResume(creates: Version -> bool, pending: seq<Version>, first: seq<Option<Version>>, s: State, labels: seq<Label>)
    requires ResumeOk(creates, pending, first, s)
    ensures ResumeOk(creates, pending, first, Run(creates, s, labels))
  {
    hide ResumeOk, Next;
    if labels != [] {
      RunsResume(creates, pending, first, s, labels[..|labels| - 1]);
      NextResumes(creates, pending, first, Run(creates, s, labels[..|labels| - 1]), labels[|labels| - 1]);
    }
  }

  lemma FoundResumes(creates: Version -> bool, start: Option<seq<Option<Version>>>)
    requires TableInTime(creates, start)
    ensures ResumeOk(creates, Pending(Db(start, [])), RecordedIn(Db(start, [])), Found(start))
  {
    hide Pending, MIGRATIONS;
    var pending := Pending(Db(start, []));
    assert pending[..0] == [] && pending[0..] == pending && Entries([]) == [];
    if start.None? {
      AllPendingWithoutTable(Db(start, []));
    }
  }

  /** Where the settings table is there in time, over any attempts that crash or fail anywhere: every migration that runs
      is the first one not yet recorded, the records are the pending list in order, and the rest is what is pending. */
  lemma UpgradesResume(creates: Version -> bool, start: Option<seq<Option<Version>>>, labels: seq<Label>)
    requires TableInTime(creates, start)
    ensures var pending := Pending(Db(start, []));
            var db := Run(creates, Found(start), labels).db;
            var n := Notes(db.log);
            && LogOk(pending, db.log)
            && n <= |pending|
            && RecordedIn(db) == RecordedIn(Db(start, [])) + Entries(pending[..n])
            && Pending(db) == pending[n..]
  {
    FoundResumes(creates, start);
    hide Pending;
    RunsResume(creates, Pending(Db(start, [])), RecordedIn(Db(start, [])), Found(start), labels);
    hide Run, LogOk, Notes;
  }

  const TWO_RUNS := [Start, RunNext(true, false), RecordNext(true), RunNext(true, false)]

  lemma SecondIsNotFirst(log: seq<Event>)
    requires log == [Started(MIGRATIONS), Ran(MIGRATIONS[0]), Ran(MIGRATIONS[1])]
    ensures !LogOk(MIGRATIONS, log)
  {
    assert MIGRATIONS[0] != MIGRATIONS[1];
    hide MIGRATIONS;
    NoNotes(log[..2]);
    hide Notes;
    assert !EventOk(MIGRATIONS, log, 2);
  }

  lemma FirstAgain(creates: Version -> bool, s: State)
    requires s.process.Running? && s.db.settings.None?
    ensures Next(creates, Next(creates, Next(creates, s, Crash), Start), RunNext(true, false)).db.log
            == s.db.log + [Started(MIGRATIONS), Ran(MIGRATIONS[0])]
  {
    AllPendingWithoutTable(s.db);
    assert |MIGRATIONS| > 1;
    hide Pending, MIGRATIONS;
    var s1 := Next(creates, s, Crash);
    assert s1 == State(s.db, Idle);
    var s2 := Next(creates, s1, Start);
    assert s2 == State(s.db.(log := s.db.log + [Started(MIGRATIONS)]), Running(MIGRATIONS, 0, false));
    assert s.db.log + [Started(MIGRATIONS)] + [Ran(MIGRATIONS[0])] == s.db.log + [Started(MIGRATIONS), Ran(MIGRATIONS[0])];
  }

  /** Without a table, and with none left by the first migration, the second runs although the first is not recorded;
      and after a crash the first runs again. */
  lemma SecondRunsUnrecorded(creates: Version -> bool)
    requires !creates(MIGRATIONS[0])
    ensures var db := Run(creates, Found(None), TWO_RUNS).db;
            && db.log == [Started(MIGRATIONS), Ran(MIGRATIONS[0]), Ran(MIGRATIONS[1])]
            && RecordedIn(db) == []
            && !LogOk(MIGRATIONS, db.log)
    ensures !creates(MIGRATIONS[1]) ==>
              var s := Run(creates, Found(None), TWO_RUNS);
              Next(creates, Next(creates, Next(creates, s, Crash), Start), RunNext(true, false)).db.log
              == s.db.log + [Started(MIGRATIONS), Ran(MIGRATIONS[0])]
  {
    assert |MIGRATIONS| > 1;
    hide Next, Run, MIGRATIONS, LogOk;
    TwoRuns(creates);
    var s := Run(creates, Found(None), TWO_RUNS);
    SecondIsNotFirst(s.db.log);
    if !creates(MIGRATIONS[1]) {
      FirstAgain(creates, s);
    }
  }

  lemma TwoRuns(creates: Version -> bool)
    requires !creates(MIGRATIONS[0])
    ensures Run(creates, Found(None), TWO_RUNS) ==
            State(Db(WithTable(None, creates(MIGRATIONS[1])), [Started(MIGRATIONS), Ran(MIGRATIONS[0]), Ran(MIGRATIONS[1])]), Running(MIGRATIONS, 1, true))
  {
    AllPendingWithoutTable(Db(None, []));
    assert |MIGRATIONS| > 1;
    hide Pending, MIGRATIONS;
    var s1 := Next(creates, Found(None), Start);
    var s2 := Next(creates, s1, RunNext(true, false));
    var s3 := Next(creates, s2, RecordNext(true));
    var s4 := Next(creates, s3, RunNext(true, false));
    assert s4.db.log == [Started(MIGRATIONS), Ran(MIGRATIONS[0]), Ran(MIGRATIONS[1])];
    hide Next;
    RunPrefix(creates, Found(None), TWO_RUNS, 0);
    RunPrefix(creates, Found(None), TWO_RUNS, 1);
    RunPrefix(creates, Found(None), TWO_RUNS, 2);
    RunPrefix(creates, Found(None), TWO_RUNS, 3);
    assert TWO_RUNS[..4] == TWO_RUNS;
  }

  lemma {:induction false} NoNotes(log: seq<Event>)
    requires forall e | e in log :: !e.Noted?
    ensures Notes(log) == 0
  {
    if log != [] {
      assert log[|log| - 1] in log;
      NoNotes(log[..|log| - 1]);
    }
  }

  lemma RunPrefix(creates: Version -> bool, s: State, labels: seq<Label>, i: nat)
    requires i < |labels|
    ensures Run(creates, s, labels[..0]) == s
    ensures Run(creates, s, labels[..i + 1]) == Next(creates, Run(creates, s, labels[..i]), labels[i])
  {
    assert labels[..i + 1][..i] == labels[..i];
  }

  /** All histories from a database re-run only the migration not recorded yet if and only if the settings table is there
      already or the first migration creates it. */
  lemma ResumesExactly(creates: Version -> bool, start: Option<seq<Option<Version>>>)
    ensures (forall labels :: LogOk(Pending(Db(start, [])), Run(creates, Found(start), labels).db.log)) <==> TableInTime(creates, start)
  {
    if TableInTime(creates, start) {
      forall labels ensures LogOk(Pending(Db(start, [])), Run(creates, Found(start), labels).db.log) {
        UpgradesResume(creates, start, labels);
      }
    } else {
      SecondRunsUnrecorded(creates);
      AllPendingWithoutTable(Db(start, []));
    }
  }

  // ----- when an attempt that reached its end leaves nothing

  predicate SomeCreates(creates: Version -> bool) {
    exists v :: v in MIGRATIONS && creates(v)
  }

  /** How the table and the attempt go together, whatever failed before. */
  predicate TableTracked(creates: Version -> bool, start: Option<seq<Option<Version>>>, s: State) {
    && (s.db.settings.Some? ==> start.Some? || SomeCreates(creates))
    && (s.db.settings.None? ==> start.None?)
    && (s.process.Running? ==>
          var p := s.process;
          && p.next <= |p.toRun|
          && (p.ran ==> p.next < |p.toRun|)
          && (forall v | v in p.toRun :: v in MIGRATIONS)
          && (s.db.settings.None? ==> p.toRun == MIGRATIONS && forall i | 0 <= i < p.next + (if p.ran then 1 else 0) :: !creates(p.toRun[i]))
          && (p.next == 0 && !p.ran ==> p.toRun == Pending(s.db))
          && (p.next > 0 && !p.ran && s.db.settings.Some? ==> LastVersion(s.db) == Some(p.toRun[p.next - 1]))
          && (p.toRun != [] ==> p.toRun[|p.toRun| - 1] == MIGRATIONS[|MIGRATIONS| - 1]))
  }

  lemma StartTracks(creates: Version -> bool, start: Option<seq<Option<Version>>>, s: State)
    requires TableTracked(creates, start, s) && s.process.Idle?
    ensures TableTracked(creates, start, Next(creates, s, Start))
  {
    FilterMembers(AboveLast(LastVersion(s.db)), MIGRATIONS);
    hide MIGRATIONS, Filter, SomeCreates;
    if Pending(s.db) != [] {
      NewestIsPending(s.db);
    }
    if s.db.settings.None? {
      AllPendingWithoutTable(s.db);
    }
    PendingReadsRecorded(s.db, Next(creates, s, Start).db);
    hide Pending, LastVersion;
  }

  lemma RunNextTracks(creates: Version -> bool, start: Option<seq<Option<Version>>>, s: State, ok: bool, partly: bool)
    requires TableTracked(creates, start, s)
    ensures TableTracked(creates, start, Next(creates, s, RunNext(ok, partly)))
  {
    hide MIGRATIONS, Pending, LastVersion;
    var p := s.process;
    if p.Running? && p.next < |p.toRun| && creates(p.toRun[p.next]) {
      assert p.toRun[p.next] in p.toRun;
      assert SomeCreates(creates);
    }
    hide SomeCreates;
  }

  lemma RecordNextTracks(creates: Version -> bool, start: Option<seq<Option<Version>>>, s: State)
    requires TableTracked(creates, start, s)
    ensures TableTracked(creates, start, Next(creates, s, RecordNext(true)))
  {
    hide MIGRATIONS, Pending, SomeCreates;
  }

  lemma NextTracks(creates: Version -> bool, start: Option<seq<Option<Version>>>, s: State, l: Label)
    requires TableTracked(creates, start, s)
    ensures TableTracked(creates, start, Next(creates, s, l))
  {
    hide TableTracked;
    match l
    case Start => if s.process.Idle? { StartTracks(creates, start, s); }
    case RunNext(ok, partly) => RunNextTracks(creates, start, s, ok, partly);
    case RecordNext(ok) => if ok { RecordNextTracks(creates, start, s); } else { Stopped(creates, start, s); }
    case _ => Stopped(creates, start, s);
  }

  lemma Stopped(creates: Version -> bool, start: Option<seq<Option<Version>>>, s: State)
    requires TableTracked(creates, start, s)
    ensures TableTracked(creates, start, s.(process := Idle))
  {
    hide MIGRATIONS, Pending, SomeCreates;
  }

  lemma {:induction false} RunTracks(creates: Version -> bool, start: Option<seq<Option<Version>>>, labels: seq<Label>)
    ensures TableTracked(creates, start, Run(creates, Found(start), labels))
  {
    if labels != [] {
      hide TableTracked, Next;
      RunTracks(creates, start, labels[..|labels| - 1]);
      NextTracks(creates, start, Run(creates, Found(start), labels[..|labels| - 1]), labels[|labels| - 1]);
    }
  }

  /** After any history, an attempt that reached the end of its list leaves nothing pending if and only if the settings
      table was there from the start or some migration creates it. Otherwise everything stays pending. */
  lemma FinishedExactly(creates: Version -> bool, start: Option<seq<Option<Version>>>, labels: seq<Label>)
    ensures var s := Run(creates, Found(start), labels);
            s.process.Running? && s.process.next == |s.process.toRun| ==>
              && (Pending(s.db) == [] <==> start.Some? || SomeCreates(creates))
              && (Pending(s.db) != [] ==> Pending(s.db) == MIGRATIONS)
  {
    RunTracks(creates, start, labels);
    assert |MIGRATIONS| > 0;
    hide MIGRATIONS, Pending, Run;
    var s := Run(creates, Found(start), labels);
    if s.process.Running? && s.process.next == |s.process.toRun| {
      if s.db.settings.None? {
        AllPendingWithoutTable(s.db);
      } else if s.process.toRun != [] {
        PendingAboveNewest(s.db);
      }
    }
  }

  // ----- the loop of one attempt is a path of the machine

  function Steps(n: nat): seq<Label> {
    if n == 0 then [Start] else Steps(n - 1) + [RunNext(true, false)] + [RecordNext(true)]
  }

  lemma RunOne(creates: Version -> bool, s: State, labels: seq<Label>, l: Label)
    ensures Run(creates, s, labels + [l]) == Next(creates, Run(creates, s, labels), l)
  {
    assert (labels + [l])[..|labels + [l]| - 1] == labels;
  }

  lemma {:induction false} AttemptIsAPath(creates: Version -> bool, db: Db, n: nat)
    requires n <= |Pending(db)|
    ensures var toRun := Pending(db);
            Run(creates, State(db, Idle), Steps(n)) ==
            State(After(db.(log := db.log + [Started(toRun)]), toRun, creates, n), Running(toRun, n, false))
  {
    hide Pending;
    if n == 0 {
      RunOne(creates, State(db, Idle), [], Start);
    } else {
      AttemptIsAPath(creates, db, n - 1);
      RunOne(creates, State(db, Idle), Steps(n - 1), RunNext(true, false));
      RunOne(creates, State(db, Idle), Steps(n - 1) + [RunNext(true, false)], RecordNext(true));
      hide Run, Steps;
    }
  }
}
