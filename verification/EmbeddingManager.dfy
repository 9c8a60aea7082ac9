/** The manager that changes table and index in place, and its operations as stretches of the machine. */
module EmbeddingManager {
  import opened EmbeddingCodec
  import opened EmbeddingIndex
  import opened EmbeddingMirror
  import opened SeqFilter
  import opened VectorMath

  // ----- whole operations in the machine

  lemma {:induction false} RunTwice(root: real -> real, s: State, a: seq<Label>, b: seq<Label>)
    ensures Run(root, s, a + b) == Run(root, Run(root, s, a), b)
  {
    hide Next;
    if b == [] {
      assert a + b == a;
    } else {
      assert (a + b)[..|a + b| - 1] == a + b[..|b| - 1];
      RunTwice(root, s, a, b[..|b| - 1]);
    }
  }

  lemma RunTwoSteps(root: real -> real, s: State, l1: Label, l2: Label)
    ensures Run(root, s, [l1, l2]) == Next(root, Next(root, s, l1), l2)
  {
    hide Next;
    assert [l1, l2][..1] == [l1];
    assert [l1][..0] == [];
    assert Run(root, s, []) == s;
    assert Run(root, s, [l1]) == Next(root, s, l1);
  }

  /** Where a transaction stands after some of its inserts. */
  function WithRows(s: State, n: nat): State
    requires s.phase.InTx? && n <= |s.phase.added|
  {
    var p := s.phase;
    s.(phase := p.(inserted := n, work := p.work + Map(Storing(p.sourceType), p.added[..n])))
  }

  lemma OneMoreInsert(root: real -> real, s: State, n: nat)
    requires s.phase.InTx? && n < |s.phase.added|
    ensures Next(root, WithRows(s, n), Insert) == WithRows(s, n + 1)
  {
    hide Filter, Map;
    var p := s.phase;
    assert p.added[..n + 1] == p.added[..n] + [p.added[n]];
    MapConcat(Storing(p.sourceType), p.added[..n], [p.added[n]]);
    assert Map(Storing(p.sourceType), [p.added[n]]) == [Storing(p.sourceType)(p.added[n])];
    assert p.work + Map(Storing(p.sourceType), p.added[..n]) + [Storing(p.sourceType)(p.added[n])]
        == p.work + Map(Storing(p.sourceType), p.added[..n + 1]);
  }

  lemma {:induction false} InsertsRun(root: real -> real, s: State, n: nat)
    requires s.phase.InTx? && s.phase.inserted == 0 && n <= |s.phase.added|
    ensures Run(root, s, seq(n, _ => Insert)) == WithRows(s, n)
  {
    hide Next;
    var labels := seq(n, _ => Insert);
    if n == 0 {
      assert s.phase.work + Map(Storing(s.phase.sourceType), s.phase.added[..0]) == s.phase.work;
    } else {
      hide WithRows;
      assert labels[..n - 1] == seq(n - 1, _ => Insert);
      InsertsRun(root, s, n - 1);
      OneMoreInsert(root, s, n - 1);
    }
  }

  function Transaction(sourceType: string, ids: seq<int>, embedded: seq<Embedded>): seq<Label> {
    [Begin(sourceType, ids, embedded), Clear] + seq(|embedded|, _ => Insert) + [Commit, Swap]
  }

  function Replaced(root: real -> real, s: State, sourceType: string, ids: seq<int>, embedded: seq<Embedded>): State {
    var added := Map(Indexing(root, sourceType), embedded);
    var op := Replace(sourceType, ids, Map(Storing(sourceType), added));
    s.(table := Applied(op, s.table), chunks := Kept(sourceType, ids, s.chunks) + added,
       unknown := s.unknown - SourcesOf(sourceType, ids), log := s.log + [op])
  }

  lemma OpensTransaction(root: real -> real, s: State, sourceType: string, ids: seq<int>, embedded: seq<Embedded>)
    requires s.phase.Free? && forall e | e in embedded :: e.sourceId in ids
    ensures Run(root, s, [Begin(sourceType, ids, embedded), Clear]) ==
            s.(phase := InTx(sourceType, ids, Map(Indexing(root, sourceType), embedded), 0, Filter(OtherSources(sourceType, ids), s.table)))
  {
    hide Filter, Map, Run;
    RunTwoSteps(root, s, Begin(sourceType, ids, embedded), Clear);
  }

  lemma ClosesTransaction(root: real -> real, s: State)
    requires s.phase.InTx? && s.phase.inserted == |s.phase.added|
    ensures var p := s.phase;
            Run(root, s, [Commit, Swap]) ==
            s.(table := p.work, chunks := Kept(p.sourceType, p.ids, s.chunks) + p.added,
               unknown := s.unknown - SourcesOf(p.sourceType, p.ids), phase := Free,
               log := s.log + [Replace(p.sourceType, p.ids, Map(Storing(p.sourceType), p.added))])
  {
    hide Filter, Map, Run, Kept, SourcesOf;
    RunTwoSteps(root, s, Commit, Swap);
  }

  /** A replacement without a fault, left alone, replaces rows and chunks of its sources, which are known from then on. */
  lemma TransactionIsAPath(root: real -> real, s: State, sourceType: string, ids: seq<int>, embedded: seq<Embedded>)
    requires s.phase.Free? && forall e | e in embedded :: e.sourceId in ids
    ensures Run(root, s, Transaction(sourceType, ids, embedded)) == Replaced(root, s, sourceType, ids, embedded)
  {
    hide Run, Filter, Next;
    var opening, inserts := [Begin(sourceType, ids, embedded), Clear], seq(|embedded|, _ => Insert);
    RunTwice(root, s, opening + inserts, [Commit, Swap]);
    RunTwice(root, s, opening, inserts);
    OpensTransaction(root, s, sourceType, ids, embedded);
    var started := Run(root, s, opening);
    InsertsRun(root, started, |embedded|);
    assert started.phase.added[..|embedded|] == started.phase.added;
    hide Map;
    ClosesTransaction(root, Run(root, started, inserts));
  }

  /** A replacement whose call to begin, to clear, to insert any of the chunks or to commit fails leaves everything as it was. */
  lemma FailureIsAPath(root: real -> real, s: State, sourceType: string, ids: seq<int>, embedded: seq<Embedded>, n: nat)
    requires s.phase.Free? && (forall e | e in embedded :: e.sourceId in ids) && n <= |embedded|
    ensures Run(root, s, [Begin(sourceType, ids, embedded), Fail]) == s
    ensures Run(root, s, [Begin(sourceType, ids, embedded), Clear] + seq(n, _ => Insert) + [Fail]) == s
  {
    hide Run, Filter;
    RunTwoSteps(root, s, Begin(sourceType, ids, embedded), Fail);
    var opening, inserts := [Begin(sourceType, ids, embedded), Clear], seq(n, _ => Insert);
    OpensTransaction(root, s, sourceType, ids, embedded);
    RunTwice(root, s, opening + inserts, [Fail]);
    RunTwice(root, s, opening, inserts);
    InsertsRun(root, Run(root, s, opening), n);
    hide Map;
    RunJustOne(root, Run(root, s, opening + inserts), Fail);
  }

  /** A boot load whose query fails lets searches through to whatever is in memory, and changes nothing else. */
  lemma FailedLoadIsAPath(root: real -> real, s: State)
    requires s.phase.Free?
    ensures Run(root, s, [BootFail]) == s.(ready := true)
  {
    RunJustOne(root, s, BootFail);
  }

  /** Whatever a search of the index may return, the machine answers, at any moment after the boot load. */
  lemma SearchIsAPath(root: real -> real, s: State, q: seq<real>, types: seq<string>, k: int, hits: seq<Hit>)
    requires s.ready && IsTopK(Reported(root, q, types, s.chunks).0, k, hits)
    ensures var s' := Run(root, s, [Ask(q, types, k, hits)]);
            && s' == s.(answers := s'.answers) && |s'.answers| == |s.answers| + 1 && s'.answers[..|s.answers|] == s.answers
            && var a := s'.answers[|s.answers|]; a.q == q && a.types == types && a.k == k && a.hits == hits
  {
    hide IsTopK, Reported;
    RunJustOne(root, s, Ask(q, types, k, hits));
  }

  lemma KeepsAll(sourceType: string, chunks: seq<Chunk>)
    ensures Kept(sourceType, [], chunks) == chunks
  {
    FilterAll(Sparing(Hitting(sourceType, [])), chunks);
  }

  /** Dropping the sources up to the next id is dropping that one as well, which changes nothing for one seen before. */
  lemma KeptOnce(sourceType: string, ids: seq<int>, i: nat, chunks: seq<Chunk>)
    requires i < |ids|
    ensures Kept(sourceType, ids[..i + 1], chunks) ==
            if ids[i] in ids[..i] then Kept(sourceType, ids[..i], chunks) else Kept(sourceType, [ids[i]], Kept(sourceType, ids[..i], chunks))
  {
    var next := Sparing(Hitting(sourceType, ids[..i + 1]));
    assert ids[..i + 1] == ids[..i] + [ids[i]];
    if ids[i] in ids[..i] {
      FilterAgrees(Sparing(Hitting(sourceType, ids[..i])), next, chunks);
    } else {
      FilterBoth(Sparing(Hitting(sourceType, [ids[i]])), Sparing(Hitting(sourceType, ids[..i])), next, chunks);
    }
  }

  /** A removal and its swap, left alone. */
  lemma RemovalIsAPath(root: real -> real, s: State, sourceType: string, sourceId: int)
    requires s.phase.Free?
    ensures Run(root, s, [Remove(sourceType, sourceId), Swap]) ==
            s.(table := Filter(OtherSources(sourceType, [sourceId]), s.table), chunks := Kept(sourceType, [sourceId], s.chunks),
               unknown := s.unknown - SourcesOf(sourceType, [sourceId]), log := s.log + [Replace(sourceType, [sourceId], [])])
  {
    hide Filter, Run, Kept, SourcesOf;
    RunTwoSteps(root, s, Remove(sourceType, sourceId), Swap);
    assert Map(Storing(sourceType), []) == [];
    assert Kept(sourceType, [sourceId], s.chunks) + [] == Kept(sourceType, [sourceId], s.chunks);
  }

  /** The state between the two parts of a purge. */
  function Forgot(s: State, sourceType: string): State {
    s.(chunks := Filter(Sparing(OfType(sourceType)), s.chunks), unknown := s.unknown + SourcesOfType(sourceType, s.table),
       phase := Purging(sourceType))
  }

  lemma PurgeBegins(root: real -> real, s: State, sourceType: string)
    requires s.phase.Free?
    ensures Next(root, s, PurgeMemory(sourceType)) == Forgot(s, sourceType)
  {
    hide Filter, SourcesOfType;
  }

  lemma PurgeEnds(root: real -> real, s: State, ok: bool)
    requires s.phase.Purging?
    ensures Next(root, s, PurgeRows(ok)) == Purged(s, s.phase.sourceType, ok)
  {
    hide Purged;
  }

  /** A purge, left alone: memory forgets the type, and its rows go if the delete succeeds. */
  lemma PurgeIsAPath(root: real -> real, s: State, sourceType: string, ok: bool)
    requires s.phase.Free?
    ensures Run(root, s, [PurgeMemory(sourceType), PurgeRows(ok)]) ==
            s.(table := Applied(Purge(sourceType, ok), s.table), chunks := Filter(Sparing(OfType(sourceType)), s.chunks),
               unknown := s.unknown + SourcesOfType(sourceType, s.table), log := s.log + [Purge(sourceType, ok)])
  {
    hide Filter, Run, Next, SourcesOfType, Applied;
    RunTwoSteps(root, s, PurgeMemory(sourceType), PurgeRows(ok));
    PurgeBegins(root, s, sourceType);
    PurgeEnds(root, Forgot(s, sourceType), ok);
  }

  /** A load, left alone, from the rows in any order. */
  lemma LoadIsAPath(root: real -> real, s: State, rows: seq<Row>)
    requires s.phase.Free? && !s.ready && multiset(rows) == multiset(s.table)
    ensures Run(root, s, [BootRead(rows), BootSwap]) == s.(chunks := Loaded(root, rows), ready := true, loaded := true, unknown := {})
  {
    hide Run, Loaded;
    RunTwoSteps(root, s, BootRead(rows), BootSwap);
  }

  /** The ids of a sequence, each where it comes first. */
  function Firsts(ids: seq<int>): seq<int> {
    if ids == [] then []
    else
      var front, last := Firsts(ids[..|ids| - 1]), ids[|ids| - 1];
      if last in front then front else front + [last]
  }

  lemma {:induction false} FirstsHold(ids: seq<int>)
    ensures forall x: int :: x in Firsts(ids) <==> x in ids
  {
    if ids != [] {
      FirstsHold(ids[..|ids| - 1]);
      assert ids == ids[..|ids| - 1] + [ids[|ids| - 1]];
    }
  }

  /** Where a sweep stands after some of its returned ids. */
  function SweptUpTo(s: State, sourceType: string, orphans: seq<int>, returned: seq<int>, n: nat): State
    requires n <= |returned|
  {
    var begun := Swept(s, sourceType, orphans, returned);
    begun.(chunks := Kept(sourceType, returned[..n], s.chunks), phase := Sweeping(sourceType, Firsts(returned[..n]), returned[n..], s.table))
  }

  lemma SweepsOneMore(root: real -> real, s: State, sourceType: string, orphans: seq<int>, returned: seq<int>, n: nat)
    requires n < |returned|
    ensures Next(root, SweptUpTo(s, sourceType, orphans, returned, n), SweepOne) == SweptUpTo(s, sourceType, orphans, returned, n + 1)
  {
    hide Filter, Kept;
    KeptOnce(sourceType, returned, n, s.chunks);
    FirstsHold(returned[..n]);
    assert returned[..n + 1][..n] == returned[..n];
    assert returned[n..][0] == returned[n] && returned[n..][1..] == returned[n + 1..];
  }

  lemma {:induction false} SweepsRun(root: real -> real, s: State, sourceType: string, orphans: seq<int>, returned: seq<int>, n: nat)
    requires s.phase.Free? && Returns(s.table, sourceType, orphans, returned) && n <= |returned|
    ensures Run(root, s, [SweepRows(sourceType, orphans, returned)] + seq(n, _ => SweepOne)) == SweptUpTo(s, sourceType, orphans, returned, n)
  {
    hide Next, Returns, SweptUpTo;
    var labels := [SweepRows(sourceType, orphans, returned)] + seq(n, _ => SweepOne);
    if n == 0 {
      assert labels == [SweepRows(sourceType, orphans, returned)] && labels[..0] == [];
      SweepBegins(root, s, sourceType, orphans, returned);
    } else {
      assert labels[..|labels| - 1] == [SweepRows(sourceType, orphans, returned)] + seq(n - 1, _ => SweepOne);
      SweepsRun(root, s, sourceType, orphans, returned, n - 1);
      SweepsOneMore(root, s, sourceType, orphans, returned, n - 1);
    }
  }

  lemma SweepBegins(root: real -> real, s: State, sourceType: string, orphans: seq<int>, returned: seq<int>)
    requires s.phase.Free? && Returns(s.table, sourceType, orphans, returned)
    ensures Next(root, s, SweepRows(sourceType, orphans, returned)) == SweptUpTo(s, sourceType, orphans, returned, 0)
  {
    hide Returns, Filter, Kept;
    KeepsAll(sourceType, s.chunks);
    assert returned[..0] == [] && returned[0..] == returned;
  }

  /** A sweep, left alone: the orphans' rows go, and then every returned source from memory. */
  lemma SweepIsAPath(root: real -> real, s: State, sourceType: string, orphans: seq<int>, returned: seq<int>)
    requires s.phase.Free? && Returns(s.table, sourceType, orphans, returned)
    ensures Run(root, s, [SweepRows(sourceType, orphans, returned)] + seq(|returned|, _ => SweepOne) + [SweepOne]) ==
            s.(table := Filter(OtherSources(sourceType, orphans), s.table), chunks := Kept(sourceType, returned, s.chunks),
               log := s.log + [Replace(sourceType, orphans, [])])
  {
    hide Filter, Kept, Returns, Run, Firsts;
    var labels := [SweepRows(sourceType, orphans, returned)] + seq(|returned|, _ => SweepOne);
    SweepsRun(root, s, sourceType, orphans, returned, |returned|);
    RunTwice(root, s, labels, [SweepOne]);
    RunJustOne(root, Run(root, s, labels), SweepOne);
    assert returned[..|returned|] == returned;
  }

  lemma RunJustOne(root: real -> real, s: State, l: Label)
    ensures Run(root, s, [l]) == Next(root, s, l)
  {
    hide Next;
    assert [l][..0] == [];
    assert Run(root, s, []) == s;
  }

  lemma LoadedOutright(root: real -> real, rows: seq<Row>)
    ensures var full := Filter((r: Row) => |r.bytes| >= 4, rows);
            && |Loaded(root, rows)| == |full|
            && forall i | 0 <= i < |full| ::
                 var vec := Deserialized(full[i].bytes);
                 Loaded(root, rows)[i] == Chunk(full[i].sourceType, full[i].sourceId, full[i].text, vec, Norm(root, Values(vec)))
  {
    hide Norm;
    FilterMap(NotEmpty(), Loading(root), (r: Row) => |r.bytes| >= 4, rows);
  }

  // ----- the manager, changing its table and index in place

  /** Which of the calls to the database fail. */
  datatype Faults = Faults(begin: bool, clear: bool, insert: nat -> bool, commit: bool)

  class Manager {
    const root: real -> real
    var table: seq<Row>
    const index: Index

    constructor (root: real -> real, table: seq<Row>)
      ensures this.root == root && this.table == table && fresh(index) && index.chunks == []
    {
      this.root, this.table := root, table;
      index := new Index();
    }

    method EmbedSource(sourceType: string, embedded: seq<Embedded>) returns (indexed: seq<Chunk>)
      ensures indexed == Map(Indexing(root, sourceType), embedded)
      ensures |indexed| == |embedded| && forall i | 0 <= i < |embedded| ::
                indexed[i] == Chunk(sourceType, embedded[i].sourceId, embedded[i].text, embedded[i].vec, Norm(root, Values(embedded[i].vec)))
    {
      indexed := [];
      for i := 0 to |embedded|
        invariant indexed == Map(Indexing(root, sourceType), embedded[..i])
      {
        var norm := ComputeNorm(root, Values(embedded[i].vec));
        indexed := indexed + [Chunk(sourceType, embedded[i].sourceId, embedded[i].text, embedded[i].vec, norm)];
        assert embedded[..i + 1] == embedded[..i] + [embedded[i]];
        MapConcat(Indexing(root, sourceType), embedded[..i], [embedded[i]]);
      }
      assert embedded[..|embedded|] == embedded;
    }

    /** Replaces the rows and then the chunks of the given sources, or on any fault changes neither. */
    method CommitEmbeddings(sourceType: string, ids: seq<int>, indexed: seq<Chunk>, faults: Faults) returns (ok: bool)
      modifies this`table, index
      ensures ok <==> !faults.begin && !faults.clear && !faults.commit && forall i | 0 <= i < |indexed| :: !faults.insert(i)
      ensures !ok ==> table == old(table) && index.chunks == old(index.chunks)
      ensures ok ==> table == Applied(Replace(sourceType, ids, Map(Storing(sourceType), indexed)), old(table))
      ensures ok ==> index.chunks == Kept(sourceType, ids, old(index.chunks)) + indexed
      ensures ok ==>
                && table == Filter((r: Row) => !(r.sourceType == sourceType && r.sourceId in ids), old(table))
                            + Map((c: Chunk) => Row(sourceType, c.sourceId, c.text, Serialized(c.vec), |c.vec|), indexed)
                && index.chunks == Filter((c: Chunk) => !(c.sourceType == sourceType && c.sourceId in ids), old(index.chunks)) + indexed
      ensures old(Mirrors(root, index.chunks, table)) && WellBuilt(root, sourceType, indexed) ==> Mirrors(root, index.chunks, table)
    {
      hide Mirrors, WellBuilt, Norm;
      SameFilter(OtherSources(sourceType, ids), (r: Row) => !(r.sourceType == sourceType && r.sourceId in ids), table);
      MapAgrees(Storing(sourceType), (c: Chunk) => Row(sourceType, c.sourceId, c.text, Serialized(c.vec), |c.vec|), indexed);
      if faults.begin || faults.clear {
        return false;
      }
      var work := Filter(OtherSources(sourceType, ids), table);
      for i := 0 to |indexed|
        invariant table == old(table) && index.chunks == old(index.chunks)
        invariant work == Filter(OtherSources(sourceType, ids), table) + Map(Storing(sourceType), indexed[..i])
        invariant forall j | 0 <= j < i :: !faults.insert(j)
      {
        if faults.insert(i) {
          return false;
        }
        var bytes := SerializeEmbedding(indexed[i].vec);
        work := work + [Row(sourceType, indexed[i].sourceId, indexed[i].text, bytes[..], |indexed[i].vec|)];
        assert indexed[..i + 1] == indexed[..i] + [indexed[i]];
        MapConcat(Storing(sourceType), indexed[..i], [indexed[i]]);
      }
      if faults.commit {
        return false;
      }
      assert indexed[..|indexed|] == indexed;
      table := work;
      index.ReplaceSourceIds(sourceType, ids, indexed);
      if old(Mirrors(root, index.chunks, table)) && WellBuilt(root, sourceType, indexed) {
        SwapMirrors(root, sourceType, ids, indexed, old(index.chunks), old(table));
      }
      ok := true;
    }

    method RemoveEmbeddings(sourceType: string, sourceId: int, fault: bool) returns (ok: bool)
      modifies this`table, index
      ensures ok == !fault
      ensures !ok ==> table == old(table) && index.chunks == old(index.chunks)
      ensures ok ==> table == Filter(OtherSources(sourceType, [sourceId]), old(table))
      ensures ok ==> index.chunks == Kept(sourceType, [sourceId], old(index.chunks))
      ensures ok ==>
                && table == Filter((r: Row) => r.sourceType != sourceType || r.sourceId != sourceId, old(table))
                && index.chunks == Filter((c: Chunk) => c.sourceType != sourceType || c.sourceId != sourceId, old(index.chunks))
      ensures old(Mirrors(root, index.chunks, table)) ==> Mirrors(root, index.chunks, table)
    {
      hide Mirrors;
      SameFilter(OtherSources(sourceType, [sourceId]), (r: Row) => r.sourceType != sourceType || r.sourceId != sourceId, table);
      if fault {
        return false;
      }
      table := Filter(OtherSources(sourceType, [sourceId]), table);
      index.RemoveSource(sourceType, sourceId);
      if old(Mirrors(root, index.chunks, table)) {
        NothingAdded(root, sourceType);
        SwapMirrors(root, sourceType, [sourceId], [], old(index.chunks), old(table));
        assert Map(Storing(sourceType), []) == [];
        assert table == Applied(Replace(sourceType, [sourceId], []), old(table));
        assert index.chunks == Kept(sourceType, [sourceId], old(index.chunks)) + [];
      }
      ok := true;
    }

    /** Loads what the query returned: the rows of the table in any order, or a fault. */
    method LoadIndex(rows: seq<Row>, fault: bool) returns (ok: bool)
      requires multiset(rows) == multiset(table)
      modifies index
      ensures ok == !fault
      ensures index.chunks == if ok then Loaded(root, rows) else old(index.chunks)
      ensures ok ==> Mirrors(root, index.chunks, table)
      // every row that holds a whole element becomes its chunk, in order
      ensures ok ==>
                var full := Filter((r: Row) => |r.bytes| >= 4, rows);
                && |index.chunks| == |full|
                && forall i | 0 <= i < |full| ::
                     var vec := Deserialized(full[i].bytes);
                     index.chunks[i] == Chunk(full[i].sourceType, full[i].sourceId, full[i].text, vec, Norm(root, Values(vec)))
    {
      LoadedOutright(root, rows);
      if fault {
        return false;
      }
      var chunks: seq<Chunk> := [];
      for i := 0 to |rows|
        invariant chunks == Loaded(root, rows[..i])
        invariant index.chunks == old(index.chunks) && table == old(table)
      {
        var r := rows[i];
        LoadedConcat(root, rows[..i], [r]);
        assert rows[..i + 1] == rows[..i] + [r];
        LoadedOne(root, r);
        var vec := DeserializeEmbedding(r.bytes);
        if vec.Length == 0 {
          continue;
        }
        var norm := ComputeNorm(root, Values(vec[..]));
        chunks := chunks + [Chunk(r.sourceType, r.sourceId, r.text, vec[..], norm)];
      }
      assert rows[..|rows|] == rows;
      index.ReplaceAll(chunks);
      BootMirrors(root, rows, table);
      ok := true;
    }

    /** Forgets a whole source type, and then deletes its rows if that call does not fail. */
    method PurgeEmbeddings(sourceType: string, fault: bool)
      modifies this`table, index
      ensures index.chunks == Filter(Sparing(OfType(sourceType)), old(index.chunks))
      ensures table == Applied(Purge(sourceType, !fault), old(table))
      ensures index.chunks == Filter((c: Chunk) => c.sourceType != sourceType, old(index.chunks))
      ensures table == if fault then old(table) else Filter((r: Row) => r.sourceType != sourceType, old(table))
      ensures old(Mirrors(root, index.chunks, table)) ==>
                (Mirrors(root, index.chunks, table) <==> !fault || NothingMissed(SourcesOfType(sourceType, table), table))
    {
      hide Mirrors, Filter, NothingMissed;
      SameFilter(OtherType(sourceType), (r: Row) => r.sourceType != sourceType, table);
      index.RemoveSourceType(sourceType);
      if old(Mirrors(root, index.chunks, table)) {
        DropTypeMirrors(root, sourceType, old(index.chunks), table);
        ForgottenType(sourceType, table);
        MirrorsExactly(root, index.chunks, SourcesOfType(sourceType, table), table);
      }
      if !fault {
        table := Filter(OtherType(sourceType), table);
      }
    }

    /** Deletes the rows of orphans and then forgets each source that the delete returned, once. */
    method SweepOrphans(sourceType: string, orphans: seq<int>, returned: seq<int>, fault: bool)
      requires Returns(table, sourceType, orphans, returned)
      modifies this`table, index
      ensures table == if fault then old(table) else Filter(OtherSources(sourceType, orphans), old(table))
      ensures index.chunks == if fault then old(index.chunks) else Kept(sourceType, returned, old(index.chunks))
      ensures old(Mirrors(root, index.chunks, table)) ==> Mirrors(root, index.chunks, table)
    {
      hide Mirrors, Returns, Filter, Kept;
      if fault {
        return;
      }
      ReturnedTells(table, sourceType, orphans, returned);
      table := Filter(OtherSources(sourceType, orphans), table);
      var seen: set<int> := {};
      KeepsAll(sourceType, index.chunks);
      for i := 0 to |returned|
        invariant table == Filter(OtherSources(sourceType, returned), old(table))
        invariant seen == set j | 0 <= j < i :: returned[j]
        invariant index.chunks == Kept(sourceType, returned[..i], old(index.chunks))
      {
        KeptOnce(sourceType, returned, i, old(index.chunks));
        if returned[i] in seen {
          continue;
        }
        seen := seen + {returned[i]};
        index.RemoveSource(sourceType, returned[i]);
      }
      assert returned[..|returned|] == returned;
      if old(Mirrors(root, index.chunks, table)) {
        DropSourceMirrors(root, sourceType, returned, old(index.chunks), old(table));
      }
    }
  }

  lemma ForgottenType(sourceType: string, table: seq<Row>)
    ensures Filter(KnownTo(SourcesOfType(sourceType, table)), table) == Filter(OtherType(sourceType), table)
  {
    FilterAgrees(KnownTo(SourcesOfType(sourceType, table)), OtherType(sourceType), table);
  }
}
