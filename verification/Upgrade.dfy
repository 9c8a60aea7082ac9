/** Resumable migrations: which ones are pending, the loop that runs and records them, and what is left after
    any crashes. A recorded entry that is no valid version is `None`; every valid version is above it. */
module Upgrade {
  import opened Prelude
  import opened Semver
  import opened SeqFilter
  import opened TextOrder

  function Release(major: nat, minor: nat, patch: nat): Version {
    Version(major, minor, patch, [])
  }

  function Candidate(major: nat, minor: nat, patch: nat, n: nat): Version {
    Version(major, minor, patch, [Text("rc"), Num(n)])
  }

  const MIGRATIONS := [
    Release(0, 3, 0), Release(0, 4, 0), Release(0, 5, 0), Release(0, 6, 0), Release(0, 7, 0), Release(0, 7, 4),
    Release(0, 8, 5), Release(0, 9, 1), Release(0, 10, 0), Release(1, 0, 1), Release(2, 0, 0), Release(2, 2, 0),
    Release(2, 3, 0), Release(2, 4, 0), Release(2, 5, 0), Release(2, 6, 0), Release(2, 8, 0),
    Candidate(2, 9, 0, 8), Candidate(2, 9, 0, 9), Candidate(2, 9, 0, 10), Release(2, 9, 0)]

  const NONE_RECORDED := Release(0, 0, 0)

  /** The list is in ascending order, the release after its candidates and candidate 10 after candidate 9. */
  lemma MigrationsAscend()
    ensures Ascending(MIGRATIONS)
  {
    forall i | 0 <= i < |MIGRATIONS| - 1 ensures NextIsAbove(MIGRATIONS, i) {
      CandidatesAscend(8);
      CandidatesAscend(9);
    }
    AscendingFromNeighbours(MIGRATIONS);
  }

  lemma CandidatesAscend(n: nat)
    ensures Compare(Candidate(2, 9, 0, n), Candidate(2, 9, 0, n + 1)) == Below
  {
    var a, b := [Text("rc"), Num(n)], [Text("rc"), Num(n + 1)];
    TextTotal("rc", "rc");
    assert a[1..] == [Num(n)] && b[1..] == [Num(n + 1)];
    assert CompareIdents([Num(n)], [Num(n + 1)]) == Below;
    assert CompareIdents(a, b) == Below;
  }

  // ----- the database

  /** An attempt started with its list, a migration ran, a migration was recorded. */
  datatype Event = Started(list: seq<Version>) | Ran(version: Version) | Noted(version: Version)

  /** `settings` is the array in the settings table, `None` while there is no such table; `log` is the history. */
  datatype Db = Db(settings: Option<seq<Option<Version>>>, log: seq<Event>)

  function RecordedIn(db: Db): seq<Option<Version>> {
    if db.settings.None? then [] else db.settings.value
  }

  function LastVersion(db: Db): Option<Version> {
    var recorded := RecordedIn(db);
    if recorded == [] then Some(NONE_RECORDED) else recorded[|recorded| - 1]
  }

  predicate IsAbove(v: Version, last: Option<Version>) {
    last.None? || Compare(v, last.value) == Above
  }

  function AboveLast(last: Option<Version>): Version -> bool {
    (v: Version) => IsAbove(v, last)
  }

  /** What should run: every listed version above the recorded one. */
  function Pending(db: Db): seq<Version> {
    Filter(AboveLast(LastVersion(db)), MIGRATIONS)
  }

  lemma LaterIsAbove(list: seq<Version>, last: Option<Version>, i: nat, j: nat)
    requires Ascending(list) && i <= j < |list| && IsAbove(list[i], last)
    ensures IsAbove(list[j], last)
  {
    hide Compare;
    if i < j && last.Some? {
      CompareTotal(list[i], last.value);
      CompareTransitive(last.value, list[i], list[j]);
      CompareTotal(last.value, list[j]);
    }
  }

  /** In an ascending list, everything from the first version above `last` on is all that is above it. */
  lemma SuffixIsFilter(list: seq<Version>, last: Option<Version>, i: nat)
    requires Ascending(list) && i <= |list|
    requires forall j | 0 <= j < i :: !IsAbove(list[j], last)
    requires i < |list| ==> IsAbove(list[i], last)
    ensures Filter(AboveLast(last), list) == list[i..]
  {
    hide Compare, Filter, Ascending;
    var p := AboveLast(last);
    assert list == list[..i] + list[i..];
    FilterConcat(p, list[..i], list[i..]);
    FilterNone(p, list[..i]);
    forall v | v in list[i..] ensures IsAbove(v, last) {
      var j :| 0 <= j < |list[i..]| && list[i..][j] == v;
      LaterIsAbove(list, last, i, i + j);
    }
    FilterAll(p, list[i..]);
  }

  /** The last entry of the settings table, or 0.0.0 where there is none, is at or above the listed versions before `i` and
      below those from there on. An entry that is no version is below all. */
  ghost predicate ReachedUpTo(db: Db, i: int)
    requires 0 <= i <= |MIGRATIONS|
  {
    if db.settings.Some? && db.settings.value != [] then
      match db.settings.value[|db.settings.value| - 1]
      case None => i == 0
      case Some(last) =>
        && (forall j | 0 <= j < i :: Compare(MIGRATIONS[j], last) != Above)
        && (forall j | i <= j < |MIGRATIONS| :: Compare(last, MIGRATIONS[j]) == Below)
    else i == 0
  }

  lemma FirstIsAboveNone()
    ensures |MIGRATIONS| > 0 && Compare(MIGRATIONS[0], NONE_RECORDED) == Above
  {
    assert MIGRATIONS[0] == Release(0, 3, 0);
  }

  lemma AboveIsBelow(v: Version, last: Version)
    ensures Compare(v, last) == Above <==> Compare(last, v) == Below
  {
    CompareTotal(v, last);
  }

  lemma ReachedOutright(db: Db, i: nat)
    requires i <= |MIGRATIONS| && (forall j | 0 <= j < i :: !IsAbove(MIGRATIONS[j], LastVersion(db)))
    requires forall j | i <= j < |MIGRATIONS| :: IsAbove(MIGRATIONS[j], LastVersion(db))
    ensures ReachedUpTo(db, i)
  {
    FirstIsAboveNone();
    hide MIGRATIONS, Compare;
    var last := LastVersion(db);
    if last.Some? {
      forall j | 0 <= j < |MIGRATIONS| ensures Compare(last.value, MIGRATIONS[j]) == Below <==> Compare(MIGRATIONS[j], last.value) == Above {
        AboveIsBelow(MIGRATIONS[j], last.value);
      }
    }
  }

  lemma PendingIs(db: Db)
    ensures Pending(db) == Filter(AboveLast(LastVersion(db)), MIGRATIONS)
  {
  }

  lemma AllAboveFrom(list: seq<Version>, last: Option<Version>, i: nat)
    requires Ascending(list) && i <= |list| && (i < |list| ==> IsAbove(list[i], last))
    ensures forall j | i <= j < |list| :: IsAbove(list[j], last)
  {
    hide Compare, Ascending, IsAbove;
    forall j | i <= j < |list| ensures IsAbove(list[j], last) {
      LaterIsAbove(list, last, i, j);
    }
  }

  method GetPendingMigrations(db: Db) returns (toRun: seq<Version>)
    ensures toRun == Pending(db)
    ensures exists i :: 0 <= i <= |MIGRATIONS| && toRun == MIGRATIONS[i..] && ReachedUpTo(db, i)
  {
    MigrationsAscend();
    hide MIGRATIONS, Compare, Filter, ReachedUpTo, Pending;
    PendingIs(db);
    var last := LastVersion(db);
    toRun := [];
    var i := 0;
    while i < |MIGRATIONS|
      invariant i <= |MIGRATIONS| && toRun == []
      invariant forall j | 0 <= j < i :: !IsAbove(MIGRATIONS[j], last)
    {
      if IsAbove(MIGRATIONS[i], last) {
        toRun := MIGRATIONS[i..];
        break;
      }
      i := i + 1;
    }
    SuffixIsFilter(MIGRATIONS, last, i);
    AllAboveFrom(MIGRATIONS, last, i);
    ReachedOutright(db, i);
  }

  /** A migration may leave a settings table behind. */
  function WithTable(settings: Option<seq<Option<Version>>>, creates: bool): Option<seq<Option<Version>>> {
    if settings.None? && creates then Some([]) else settings
  }

  function Migrated(db: Db, v: Version, creates: bool): Db {
    Db(WithTable(db.settings, creates), db.log + [Ran(v)])
  }

  /** A migration that fails may have done part of its work, the settings table included. */
  function Broken(db: Db, creates: bool): Db {
    db.(settings := WithTable(db.settings, creates))
  }

  /** Recording without a settings table is passed over. */
  function Recorded(db: Db, v: Version): Db {
    if db.settings.Some? then Db(Some(db.settings.value + [Some(v)]), db.log + [Noted(v)]) else db
  }

  // ----- any number of attempts, with crashes anywhere

  /** An upgrade in progress: its list, how far it got, and whether the current migration has run but is not recorded. */
  datatype Process = Idle | Running(toRun: seq<Version>, next: nat, ran: bool)

  datatype State = State(db: Db, process: Process)

  /** `partly` says that a failing migration got as far as its settings table. */
  datatype Label = Start | RunNext(ok: bool, partly: bool) | RecordNext(ok: bool) | Crash | Finish

  /** One step; `creates` says which migrations leave a settings table behind. A label that is not enabled changes nothing. */
  function Next(creates: Version -> bool, s: State, l: Label): State {
    match (l, s.process)
    case (Start, Idle) =>
      State(s.db.(log := s.db.log + [Started(Pending(s.db))]), Running(Pending(s.db), 0, false))
    case (RunNext(ok, partly), Running(toRun, next, ran)) =>
      if next >= |toRun| || ran then s
      else if ok then State(Migrated(s.db, toRun[next], creates(toRun[next])), Running(toRun, next, true))
      else State(Broken(s.db, partly && creates(toRun[next])), Idle)
    case (RecordNext(ok), Running(toRun, next, ran)) =>
      if next >= |toRun| || !ran then s
      else if ok then State(Recorded(s.db, toRun[next]), Running(toRun, next + 1, false))
      else s.(process := Idle)
    case (Crash, Running(_, _, _)) =>
      s.(process := Idle)
    case (Finish, Running(toRun, next, _)) =>
      if next == |toRun| then s.(process := Idle) else s
    case _ => s
  }

  function Run(creates: Version -> bool, s: State, labels: seq<Label>): State {
    if labels == [] then s else Next(creates, Run(creates, s, labels[..|labels| - 1]), labels[|labels| - 1])
  }

  /** A history that starts from a database as it is found. */
  function Found(settings: Option<seq<Option<Version>>>): State {
    State(Db(settings, []), Idle)
  }

  // ----- the pending list

  lemma {:induction false} FirstAbove(list: seq<Version>, last: Option<Version>) returns (i: nat)
    ensures i <= |list|
    ensures forall j | 0 <= j < i :: !IsAbove(list[j], last)
    ensures i < |list| ==> IsAbove(list[i], last)
  {
    i := 0;
    while i < |list| && !IsAbove(list[i], last)
      invariant i <= |list|
      invariant forall j | 0 <= j < i :: !IsAbove(list[j], last)
    {
      i := i + 1;
    }
  }

  /** What is pending is a suffix of the list, so it ascends, and all of it is above the last record. */
  lemma PendingIsSuffix(db: Db) returns (i: nat)
    ensures i <= |MIGRATIONS| && Pending(db) == MIGRATIONS[i..] && Ascending(Pending(db))
    ensures forall j | 0 <= j < |Pending(db)| :: IsAbove(Pending(db)[j], LastVersion(db))
  {
    MigrationsAscend();
    hide MIGRATIONS;
    i := FirstAbove(MIGRATIONS, LastVersion(db));
    SuffixIsFilter(MIGRATIONS, LastVersion(db), i);
    FilterMembers(AboveLast(LastVersion(db)), MIGRATIONS);
    hide Filter, Compare, IsAbove;
    forall j | 0 <= j < |Pending(db)| ensures IsAbove(Pending(db)[j], LastVersion(db)) {
      assert Pending(db)[j] in Pending(db);
    }
  }

  /** Above the next version is one fewer than above the last. */
  lemma PendingAfter(last: Option<Version>)
    requires Filter(AboveLast(last), MIGRATIONS) != []
    ensures var pending := Filter(AboveLast(last), MIGRATIONS);
            Filter(AboveLast(Some(pending[0])), MIGRATIONS) == pending[1..]
  {
    MigrationsAscend();
    hide MIGRATIONS;
    var i := FirstAbove(MIGRATIONS, last);
    SuffixIsFilter(MIGRATIONS, last, i);
    var v := MIGRATIONS[i];
    forall j | 0 <= j <= i ensures !IsAbove(MIGRATIONS[j], Some(v)) {
      CompareTotal(v, v);
      CompareTotal(MIGRATIONS[j], v);
    }
    if i + 1 < |MIGRATIONS| {
      CompareTotal(v, MIGRATIONS[i + 1]);
    }
    SuffixIsFilter(MIGRATIONS, Some(v), i + 1);
  }

  lemma PendingRecorded(db: Db)
    requires db.settings.Some? && Pending(db) != []
    ensures Pending(Recorded(db, Pending(db)[0])) == Pending(db)[1..]
  {
    PendingAfter(LastVersion(db));
  }

  lemma PendingReadsRecorded(a: Db, b: Db)
    requires RecordedIn(a) == RecordedIn(b)
    ensures Pending(a) == Pending(b)
  {
  }

  lemma PendingAboveNewest(db: Db)
    requires LastVersion(db) == Some(MIGRATIONS[|MIGRATIONS| - 1])
    ensures Pending(db) == []
  {
    MigrationsAscend();
    assert |MIGRATIONS| > 0;
    hide MIGRATIONS;
    var newest := MIGRATIONS[|MIGRATIONS| - 1];
    forall v | v in MIGRATIONS ensures !IsAbove(v, Some(newest)) {
      var j :| 0 <= j < |MIGRATIONS| && MIGRATIONS[j] == v;
      CompareTotal(v, newest);
    }
    FilterNone(AboveLast(Some(newest)), MIGRATIONS);
  }

  lemma NewestIsPending(db: Db)
    requires Pending(db) != []
    ensures Pending(db)[|Pending(db)| - 1] == MIGRATIONS[|MIGRATIONS| - 1]
  {
    MigrationsAscend();
    hide MIGRATIONS;
    var i := FirstAbove(MIGRATIONS, LastVersion(db));
    SuffixIsFilter(MIGRATIONS, LastVersion(db), i);
  }

  lemma AllPendingWithoutTable(db: Db)
    requires db.settings.None?
    ensures Pending(db) == MIGRATIONS
  {
    assert IsAbove(MIGRATIONS[0], Some(NONE_RECORDED));
    MigrationsAscend();
    SuffixIsFilter(MIGRATIONS, Some(NONE_RECORDED), 0);
    assert MIGRATIONS[0..] == MIGRATIONS;
  }

  // ----- one attempt without a fault

  /** The database after the first `n` migrations of the list were run and recorded. */
  function After(db: Db, toRun: seq<Version>, creates: Version -> bool, n: nat): Db
    requires n <= |toRun|
  {
    if n == 0 then db
    else Recorded(Migrated(After(db, toRun, creates, n - 1), toRun[n - 1], creates(toRun[n - 1])), toRun[n - 1])
  }

  lemma {:induction false} AfterTable(db: Db, toRun: seq<Version>, creates: Version -> bool, n: nat)
    requires n <= |toRun|
    ensures After(db, toRun, creates, n).settings.Some? <==> db.settings.Some? || exists i :: 0 <= i < n && creates(toRun[i])
  {
    if n > 0 {
      AfterTable(db, toRun, creates, n - 1);
    }
  }

  lemma LastAfter(db: Db, toRun: seq<Version>, creates: Version -> bool)
    requires toRun != [] && After(db, toRun, creates, |toRun|).settings.Some?
    ensures LastVersion(After(db, toRun, creates, |toRun|)) == Some(toRun[|toRun| - 1])
  {
  }

  /** A completed upgrade leaves nothing pending if and only if there was nothing to run, or the settings table was
      there from the start, or one of the migrations created it. Without it all of them stay pending. */
  lemma CompletedExactly(db: Db, creates: Version -> bool)
    ensures var toRun := Pending(db);
            var done := After(db, toRun, creates, |toRun|);
            && (Pending(done) == [] <==> toRun == [] || db.settings.Some? || exists i :: 0 <= i < |toRun| && creates(toRun[i]))
            && (Pending(done) != [] ==> Pending(done) == MIGRATIONS)
  {
    hide MIGRATIONS, Pending;
    var toRun := Pending(db);
    var done := After(db, toRun, creates, |toRun|);
    AfterTable(db, toRun, creates, |toRun|);
    if toRun != [] {
      if done.settings.Some? {
        LastAfter(db, toRun, creates);
        NewestIsPending(db);
        PendingAboveNewest(done);
      } else {
        AllPendingWithoutTable(done);
        AllPendingWithoutTable(db);
      }
    }
  }

  // ----- the program

  datatype Outcome = UpToDate | Complete | RunFailed(at: nat) | RecordFailed(at: nat)

  /** What each migration does: whether it runs, whether it leaves a settings table behind, whether it does so even when
      it fails, and whether recording it meets no other fault than a missing table. */
  datatype Env = Env(runs: Version -> bool, creates: Version -> bool, partly: Version -> bool, records: Version -> bool)

  class Database {
    var settings: Option<seq<Option<Version>>>
    ghost var log: seq<Event>

    constructor (settings: Option<seq<Option<Version>>>)
      ensures View() == Db(settings, [])
    {
      this.settings, log := settings, [];
    }

    ghost function View(): Db
      reads this
    {
      Db(settings, log)
    }

    method RecordMigrationVersion(v: Version, ok: bool) returns (written: bool, noTable: bool)
      modifies this
      ensures noTable == (ok && settings.None?)
      ensures written == (ok && settings.Some?)
      ensures View() == if ok then Recorded(old(View()), v) else old(View())
      ensures settings == if ok && old(settings).Some? then Some(old(settings).value + [Some(v)]) else old(settings)
    {
      noTable := ok && settings.None?;
      written := ok && settings.Some?;
      if written {
        settings := Some(settings.value + [Some(v)]);
        log := log + [Noted(v)];
      }
    }

    /** Runs and records everything pending, and stops at the first fault with all before it run and recorded. */
    method Upgrade(env: Env) returns (outcome: Outcome)
      modifies this
      ensures var start := old(View());
              var toRun := Pending(start);
              var begun := start.(log := start.log + [Started(toRun)]);
              match outcome
              case UpToDate => toRun == [] && View() == begun
              case Complete => toRun != [] && View() == After(begun, toRun, env.creates, |toRun|)
              case RunFailed(i) =>
                && i < |toRun| && !env.runs(toRun[i])
                && View() == Broken(After(begun, toRun, env.creates, i), env.partly(toRun[i]) && env.creates(toRun[i]))
              case RecordFailed(i) =>
                && i < |toRun| && !env.records(toRun[i])
                && View() == Migrated(After(begun, toRun, env.creates, i), toRun[i], env.creates(toRun[i]))
    {
      hide Pending, MIGRATIONS, ReachedUpTo, Compare;
      var toRun := GetPendingMigrations(Db(settings, []));
      PendingReadsRecorded(Db(settings, []), View());
      log := log + [Started(toRun)];
      ghost var begun := View();
      if |toRun| == 0 {
        return UpToDate;
      }
      for i := 0 to |toRun|
        invariant View() == After(begun, toRun, env.creates, i)
      {
        if !env.runs(toRun[i]) {
          if settings.None? && env.partly(toRun[i]) && env.creates(toRun[i]) {
            settings := Some([]);
          }
          return RunFailed(i);
        }
        if settings.None? && env.creates(toRun[i]) {
          settings := Some([]);
        }
        log := log + [Ran(toRun[i])];
        var written, noTable := RecordMigrationVersion(toRun[i], env.records(toRun[i]));
        if !written {
          if noTable {
            continue;
          }
          return RecordFailed(i);
        }
      }
      return Complete;
    }
  }
}
