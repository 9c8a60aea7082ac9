/** What holds of table and index over whole runs: when the one mirrors the other, how the table came about, and what
    searches returned. */
module EmbeddingHistory {
  import opened EmbeddingIndex
  import opened EmbeddingMirror
  import opened SeqFilter
  import opened VectorMath

  // ----- when the index mirrors the table

  /** At every step of every run the index mirrors the table, with any change that is still on its way to memory left
      aside, if and only if no row of a source unknown to it holds a whole element of a vector. */
  lemma IndexMirrorsExactly(root: real -> real, table: seq<Row>, labels: seq<Label>)
    ensures var s := Run(root, Boot(table), labels);
            Mirrors(root, s.chunks, Behind(s)) <==> NothingMissed(s.unknown, Behind(s))
  {
    hide Mirrors, NothingMissed, Behind, Filter, Run;
    BootOk(root, table);
    RunKeeps(root, Boot(table), labels);
    var s := Run(root, Boot(table), labels);
    MirrorsExactly(root, s.chunks, s.unknown, Behind(s));
  }

  /** Rows of unknown sources are there only while a purge is under way, and only of its type. */
  predicate NoneForgotten(s: State) {
    s.loaded ==> forall r | r in Behind(s) && SourceOf(r) in s.unknown :: s.phase.Purging? && r.sourceType == s.phase.sourceType
  }

  /** Every purge of the run that reached its rows deleted them. */
  predicate NoPurgeFails(labels: seq<Label>) {
    PurgeRows(false) !in labels
  }

  lemma MembersKept(keep: Row -> bool, table: seq<Row>)
    ensures forall r | r in Filter(keep, table) :: r in table && keep(r)
  {
    FilterMembers(keep, table);
  }

  lemma SwapForgetsNone(root: real -> real, s: State)
    requires PhaseOk(root, s) && NoneForgotten(s) && s.phase.Committed?
    ensures NoneForgotten(Next(root, s, Swap))
  {
    hide WellBuilt, Filter;
    var p := s.phase;
    MembersKept(OtherSources(p.sourceType, p.ids), p.before);
    var rows := Map(Storing(p.sourceType), p.added);
    forall r | r in rows ensures SourceOf(r) in SourcesOf(p.sourceType, p.ids) {
      var i :| 0 <= i < |rows| && rows[i] == r;
      assert p.added[i] in p.added;
    }
  }

  lemma PurgeForgetsNone(root: real -> real, s: State, l: Label)
    requires PhaseOk(root, s) && NoneForgotten(s) && (l.PurgeMemory? || l == PurgeRows(true))
    ensures NoneForgotten(Next(root, s, l))
  {
    hide Filter, Loaded, Map, Norm, IsTopK, Reported;
    if l.PurgeRows? && s.phase.Purging? {
      MembersKept(OtherType(s.phase.sourceType), s.table);
    }
  }

  lemma SweepForgetsNone(root: real -> real, s: State, l: Label)
    requires PhaseOk(root, s) && NoneForgotten(s) && (l.SweepRows? || l.SweepOne?)
    ensures NoneForgotten(Next(root, s, l))
  {
    hide Filter, Loaded, Map, Norm, IsTopK, Reported, Returns;
    if l.SweepRows? && s.phase.Free? {
      NoneDropped(l.sourceType, s.table);
    }
    if l.SweepOne? && s.phase.Sweeping? {
      var p := s.phase;
      if p.todo == [] {
        assert p.done + p.todo == p.done;
      } else {
        MembersKept(OtherSources(p.sourceType, p.done + [p.todo[0]]), p.before);
        MembersOf(OtherSources(p.sourceType, p.done), p.before);
      }
    }
  }

  lemma MembersOf(keep: Row -> bool, table: seq<Row>)
    ensures forall r | r in table && keep(r) :: r in Filter(keep, table)
  {
    forall r | r in table && keep(r) ensures r in Filter(keep, table) {
      FilterCount(keep, table, r);
      assert r in multiset(Filter(keep, table));
    }
  }

  lemma OthersForgetNone(root: real -> real, s: State, l: Label)
    requires PhaseOk(root, s) && NoneForgotten(s)
    requires !l.Swap? && !l.PurgeMemory? && !l.PurgeRows? && !l.SweepRows? && !l.SweepOne?
    ensures NoneForgotten(Next(root, s, l))
  {
    hide Filter, Loaded, Map, Norm, IsTopK, Reported, WellBuilt, NamesOnly, Applied;
  }

  lemma {:induction false} NoneForgottenOver(root: real -> real, table: seq<Row>, labels: seq<Label>)
    requires NoPurgeFails(labels)
    ensures NoneForgotten(Run(root, Boot(table), labels))
  {
    hide Next, NoneForgotten, PhaseOk, Mirrors, NormsRecorded, Separate;
    if labels == [] {
      NothingLoaded(table);
    } else {
      var front, l := labels[..|labels| - 1], labels[|labels| - 1];
      var s := Run(root, Boot(table), front);
      NoneForgottenOver(root, table, front);
      BootOk(root, table);
      RunKeeps(root, Boot(table), front);
      if l.Swap? && s.phase.Committed? {
        SwapForgetsNone(root, s);
      } else if l.PurgeMemory? || l.PurgeRows? {
        assert l in labels;
        PurgeForgetsNone(root, s, l);
      } else if l.SweepRows? || l.SweepOne? {
        SweepForgetsNone(root, s, l);
      } else if !l.Swap? {
        OthersForgetNone(root, s, l);
      } else {
        SwapDoesNothing(root, s);
      }
    }
  }

  lemma NothingLoaded(table: seq<Row>)
    ensures NoneForgotten(Boot(table))
  {
  }

  lemma SwapDoesNothing(root: real -> real, s: State)
    requires !s.phase.Committed?
    ensures Next(root, s, Swap) == s
  {
  }

  /** Once the boot load has succeeded, and while no purge has failed to delete its rows, the index mirrors the table at
      every step outside a purge: the table just before the one commit that is about to be swapped in, or the table with as
      much of a sweep as has reached memory. */
  lemma IndexMirrorsTable(root: real -> real, table: seq<Row>, labels: seq<Label>)
    requires NoPurgeFails(labels)
    ensures var s := Run(root, Boot(table), labels);
            s.loaded && !s.phase.Purging? ==> Mirrors(root, s.chunks, Behind(s))
    ensures var s := Run(root, Boot(table), labels);
            s.phase.Committed? ==>
              s.table == Applied(Replace(s.phase.sourceType, s.phase.ids, Map(Storing(s.phase.sourceType), s.phase.added)), Behind(s))
  {
    hide Mirrors, Run, Applied, Filter;
    NoneForgottenOver(root, table, labels);
    IndexMirrorsExactly(root, table, labels);
    BootOk(root, table);
    RunKeeps(root, Boot(table), labels);
  }

  // ----- how the table came about

  /** The table and the log stay as they are, or one whole change is made of both. */
  predicate WholeChange(s: State, t: State) {
    || (t.log == s.log && t.table == s.table)
    || (|t.log| == |s.log| + 1 && t.log[..|s.log|] == s.log && t.table == Applied(t.log[|s.log|], s.table))
  }

  lemma CommitWhole(root: real -> real, s: State)
    requires PhaseOk(root, s) && s.phase.InTx?
    ensures WholeChange(s, Next(root, s, Commit))
  {
    hide WellBuilt, Filter, NamesOnly;
    assert s.phase.added[..|s.phase.added|] == s.phase.added;
  }

  lemma RemoveWhole(root: real -> real, s: State, sourceType: string, sourceId: int)
    ensures WholeChange(s, Next(root, s, Remove(sourceType, sourceId)))
  {
    hide Filter;
    assert Map(Storing(sourceType), []) == [];
    assert Filter(OtherSources(sourceType, [sourceId]), s.table) + [] == Filter(OtherSources(sourceType, [sourceId]), s.table);
  }

  lemma PurgeWhole(root: real -> real, s: State, ok: bool)
    ensures WholeChange(s, Next(root, s, PurgeRows(ok)))
  {
    hide Filter;
  }

  lemma SweepWhole(root: real -> real, s: State, sourceType: string, orphans: seq<int>, returned: seq<int>)
    ensures WholeChange(s, Next(root, s, SweepRows(sourceType, orphans, returned)))
  {
    hide Filter, Returns;
    assert Filter(OtherSources(sourceType, orphans), s.table) + [] == Filter(OtherSources(sourceType, orphans), s.table);
  }

  lemma OthersChangeNothing(root: real -> real, s: State, l: Label)
    requires !l.Remove? && !l.PurgeRows? && !l.SweepRows? && !(l.Commit? && s.phase.InTx?)
    ensures WholeChange(s, Next(root, s, l))
  {
    hide Filter, Loaded, IsTopK, Reported, Norm, Applied, Map, Kept, SourcesOf, SourcesOfType, Answering;
  }

  lemma ChangesWhole(root: real -> real, s: State, l: Label)
    requires PhaseOk(root, s)
    ensures WholeChange(s, Next(root, s, l))
  {
    hide WholeChange, Next, PhaseOk;
    match l
    case Remove(sourceType, sourceId) => RemoveWhole(root, s, sourceType, sourceId);
    case PurgeRows(ok) => PurgeWhole(root, s, ok);
    case SweepRows(sourceType, orphans, returned) => SweepWhole(root, s, sourceType, orphans, returned);
    case _ =>
      if l.Commit? && s.phase.InTx? {
        CommitWhole(root, s);
      } else {
        OthersChangeNothing(root, s, l);
      }
  }

  predicate Behindhand(s: State) {
    s.phase.Committed? || s.phase.Sweeping?
  }

  /** The table is the log replayed, and what memory still lags behind by is the last change. */
  predicate LogOk(table: seq<Row>, s: State) {
    && s.table == Replayed(s.log, table)
    && (Behindhand(s) ==> |s.log| > 0 && s.phase.before == Replayed(s.log[..|s.log| - 1], table))
  }

  lemma LagsByOne(root: real -> real, s: State, l: Label)
    ensures var t := Next(root, s, l);
            Behindhand(t) ==>
              || (|t.log| == |s.log| + 1 && t.log[..|s.log|] == s.log && t.phase.before == s.table)
              || (t.log == s.log && Behindhand(s) && t.phase.before == s.phase.before)
  {
    hide Filter, Loaded, Map, Norm, IsTopK, Reported, Returns;
  }

  lemma StepReplays(root: real -> real, table: seq<Row>, s: State, l: Label)
    requires PhaseOk(root, s) && LogOk(table, s)
    ensures LogOk(table, Next(root, s, l))
  {
    ChangesWhole(root, s, l);
    LagsByOne(root, s, l);
    hide Next, PhaseOk, Applied;
    var t := Next(root, s, l);
    if t.log != s.log {
      assert t.log[..|t.log| - 1] == s.log;
    }
  }

  lemma {:induction false} LogReplays(root: real -> real, table: seq<Row>, labels: seq<Label>)
    ensures LogOk(table, Run(root, Boot(table), labels))
  {
    if labels != [] {
      var before := Run(root, Boot(table), labels[..|labels| - 1]);
      hide Next, LogOk, Mirrors, Separate, NormsRecorded, PhaseOk;
      LogReplays(root, table, labels[..|labels| - 1]);
      BootOk(root, table);
      RunKeeps(root, Boot(table), labels[..|labels| - 1]);
      StepReplays(root, table, before, labels[|labels| - 1]);
    }
  }

  /** If no change was made and no boot load completed between the two states, table and index are the same in both,
      but for what a purge drops from memory before it turns to the table. */
  predicate ChangedByLogOnly(s: State, t: State) {
    && |t.log| >= |s.log|
    && (s.loaded ==> t.loaded)
    && (|t.log| == |s.log| && t.loaded == s.loaded && !Behindhand(s) && !s.phase.Purging? ==>
          && t.table == s.table && !Behindhand(t)
          && (t.chunks == s.chunks || t.phase.Purging?))
  }

  lemma StepChangesByLogOnly(root: real -> real, s: State, l: Label)
    requires s.phase.Read? ==> !s.loaded
    ensures ChangedByLogOnly(s, Next(root, s, l))
  {
    hide Loaded, Filter, Map, Norm, IsTopK, Reported, Returns;
  }

  lemma PurgingLeavesByLog(root: real -> real, s: State, l: Label)
    requires s.phase.Purging?
    ensures var t := Next(root, s, l);
            |t.log| > |s.log| || (t.phase == s.phase && t.table == s.table && t.chunks == s.chunks && t.log == s.log && t.loaded == s.loaded)
  {
    hide Loaded, Filter, Map, Norm, IsTopK, Reported, Returns;
  }

  predicate ReadsOnce(s: State) {
    (s.phase.Read? ==> !s.loaded) && (s.loaded ==> s.ready) && (s.phase.Read? ==> !s.ready)
  }

  lemma StepReadsOnce(root: real -> real, s: State, l: Label)
    requires ReadsOnce(s)
    ensures ReadsOnce(Next(root, s, l))
  {
    hide Loaded, Filter, Map, Norm, IsTopK, Reported, Returns;
  }

  /** However many transactions began and failed: as long as nothing was changed and no boot load completed, the table and
      the index are what they were. */
  lemma {:induction false} FailedTransactionsChangeNothing(root: real -> real, s: State, labels: seq<Label>)
    requires ReadsOnce(s)
    ensures ReadsOnce(Run(root, s, labels))
    ensures ChangedByLogOnly(s, Run(root, s, labels))
  {
    if labels != [] {
      var mid, l := Run(root, s, labels[..|labels| - 1]), labels[|labels| - 1];
      hide Next;
      FailedTransactionsChangeNothing(root, s, labels[..|labels| - 1]);
      StepReadsOnce(root, mid, l);
      StepChangesByLogOnly(root, mid, l);
      if mid.phase.Purging? {
        PurgingLeavesByLog(root, mid, l);
      }
    }
  }

  // ----- what searches returned

  /** The answer is a top k of rows that the table held, all of them together, after some number of whole changes; outside
      purges and sweeps, after a load, of all the rows it held then, unless some purge failed. */
  ghost predicate AnswerFine(root: real -> real, table: seq<Row>, log: seq<Op>, purgesOk: bool, a: Answer) {
    && 0 <= a.at <= |log|
    && IsTopK(Reported(root, a.q, a.types, Loaded(root, a.rows)).0, a.k, a.hits)
    && multiset(a.rows) <= multiset(Replayed(log[..a.at], table))
    && (a.whole && purgesOk ==> a.rows == Replayed(log[..a.at], table))
  }

  ghost predicate AnswersFine(root: real -> real, table: seq<Row>, purgesOk: bool, s: State) {
    forall a | a in s.answers :: s.ready && AnswerFine(root, table, s.log, purgesOk, a)
  }

  lemma StillFine(root: real -> real, table: seq<Row>, log: seq<Op>, log': seq<Op>, purgesOk: bool, a: Answer)
    requires AnswerFine(root, table, log, purgesOk, a) && log <= log'
    ensures AnswerFine(root, table, log', purgesOk, a)
  {
    assert log'[..a.at] == log[..a.at];
  }

  lemma FewerAgain(p: Row -> bool, q: Row -> bool, s: seq<Row>)
    ensures multiset(Filter(p, s)) <= multiset(s)
    ensures multiset(Filter(p, Filter(q, s))) <= multiset(s)
  {
    FilterFewer(p, s);
    FilterFewer(q, s);
    FilterFewer(p, Filter(q, s));
  }

  lemma KnownRowsStood(s: State, table: seq<Row>, a: Answer)
    requires LogOk(table, s) && a == Answering(s, a.q, a.types, a.k, a.hits)
    ensures 0 <= a.at <= |s.log| && multiset(a.rows) <= multiset(Replayed(s.log[..a.at], table))
    ensures NoneForgotten(s) && a.whole ==> a.rows == Replayed(s.log[..a.at], table)
  {
    hide Filter, Replayed;
    assert s.log[..|s.log|] == s.log;
    if s.phase.Sweeping? {
      FewerAgain(KnownTo(s.unknown), OtherSources(s.phase.sourceType, s.phase.done), s.phase.before);
    } else {
      FilterFewer(KnownTo(s.unknown), Behind(s));
    }
    if NoneForgotten(s) && a.whole {
      FilterAll(KnownTo(s.unknown), Behind(s));
    }
  }

  lemma NewAnswerFine(root: real -> real, table: seq<Row>, s: State, l: Label, purgesOk: bool)
    requires IsSqrt(root) && MirrorOk(root, s) && LogOk(table, s) && (purgesOk ==> NoneForgotten(s))
    requires l.Ask? && IsTopK(Reported(root, l.q, l.types, s.chunks).0, l.k, l.hits)
    ensures AnswerFine(root, table, s.log, purgesOk, Answering(s, l.q, l.types, l.k, l.hits))
  {
    hide Filter, Replayed, Mirrors, IsTopK, Reported, Loaded, NoneForgotten, LogOk, PhaseOk, NormsRecorded, Separate, IsSqrt;
    var a := Answering(s, l.q, l.types, l.k, l.hits);
    KnownRowsStood(s, table, a);
    SearchSeesTable(root, l.q, l.types, l.k, s.chunks, KnownRows(s), l.hits);
  }

  lemma LogGrows(root: real -> real, s: State, l: Label)
    requires PhaseOk(root, s)
    ensures s.log <= Next(root, s, l).log
  {
    ChangesWhole(root, s, l);
    hide Next, PhaseOk, Applied;
  }

  lemma OnlyAskAnswers(root: real -> real, s: State, l: Label)
    ensures s.ready ==> Next(root, s, l).ready
    ensures l.Ask? || Next(root, s, l).answers == s.answers
  {
    hide Loaded, Filter, Map, Norm, IsTopK, Reported, Returns, Answering;
  }

  lemma StepAnswers(root: real -> real, table: seq<Row>, s: State, l: Label, purgesOk: bool)
    requires IsSqrt(root) && MirrorOk(root, s) && LogOk(table, s) && (purgesOk ==> NoneForgotten(s))
    requires AnswersFine(root, table, purgesOk, s)
    ensures AnswersFine(root, table, purgesOk, Next(root, s, l))
  {
    hide AnswerFine, Mirrors, Filter, LogOk, NoneForgotten, PhaseOk, NormsRecorded, Separate, IsTopK, Reported, Answering, IsSqrt;
    LogGrows(root, s, l);
    OnlyAskAnswers(root, s, l);
    if l.Ask? {
      if s.ready && IsTopK(Reported(root, l.q, l.types, s.chunks).0, l.k, l.hits) {
        NewAnswerFine(root, table, s, l, purgesOk);
      }
    } else {
      hide Next;
      var t := Next(root, s, l);
      forall a | a in t.answers ensures AnswerFine(root, table, t.log, purgesOk, a) {
        StillFine(root, table, s.log, t.log, purgesOk, a);
      }
    }
  }

  /** Every answer was given after the boot load had ended, and is a top k of rows that stood in the table together: no
      search sees half a transaction, and none sees an index that is still being loaded. */
  lemma {:induction false} AnswersSeeSnapshots(root: real -> real, table: seq<Row>, labels: seq<Label>)
    requires IsSqrt(root)
    ensures AnswersFine(root, table, NoPurgeFails(labels), Run(root, Boot(table), labels))
  {
    hide AnswerFine, Next, MirrorOk, LogOk, NoneForgotten, IsSqrt;
    if labels != [] {
      var front, l := labels[..|labels| - 1], labels[|labels| - 1];
      AnswersSeeSnapshots(root, table, front);
      LogReplays(root, table, front);
      BootOk(root, table);
      RunKeeps(root, Boot(table), front);
      var purgesOk := NoPurgeFails(labels);
      if purgesOk {
        NoneForgottenOver(root, table, front);
      } else {
        WeakerAnswers(root, table, NoPurgeFails(front), Run(root, Boot(table), front));
      }
      StepAnswers(root, table, Run(root, Boot(table), front), l, purgesOk);
    }
  }

  lemma WeakerAnswers(root: real -> real, table: seq<Row>, purgesOk: bool, s: State)
    requires AnswersFine(root, table, purgesOk, s)
    ensures AnswersFine(root, table, false, s)
  {
    hide Replayed, IsTopK, Reported, Loaded;
  }
}
