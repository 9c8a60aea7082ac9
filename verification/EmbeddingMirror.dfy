/** The in-memory index as a mirror of the embeddings table: boot load, replacement in a transaction followed
    by a swap in memory, removal, the purge of a source type and the sweep of orphans, all under one mutex, step by step,
    with searches in between. */
module EmbeddingMirror {
  import opened EmbeddingCodec
  import opened EmbeddingIndex
  import opened Prelude
  import opened SeqFilter
  import opened VectorMath

  datatype Row = Row(sourceType: string, sourceId: int, text: string, bytes: seq<Byte>, dimensions: nat)

  datatype Source = Source(sourceType: string, sourceId: int)

  /** A chunk's text and its vector, as they come back from the embedding provider. */
  datatype Embedded = Embedded(sourceId: int, text: string, vec: seq<Float32>)

  function Indexing(root: real -> real, sourceType: string): Embedded -> Chunk {
    (e: Embedded) => Chunk(sourceType, e.sourceId, e.text, e.vec, Norm(root, Values(e.vec)))
  }

  function Storing(sourceType: string): Chunk -> Row {
    (c: Chunk) => Row(sourceType, c.sourceId, c.text, Serialized(c.vec), |c.vec|)
  }

  function Loading(root: real -> real): Row -> Chunk {
    (r: Row) => Chunk(r.sourceType, r.sourceId, r.text, Deserialized(r.bytes), Norm(root, Values(Deserialized(r.bytes))))
  }

  /** What a boot load makes of the rows it read: rows whose vector is empty are skipped. */
  function Loaded(root: real -> real, rows: seq<Row>): seq<Chunk> {
    Filter(NotEmpty(), Map(Loading(root), rows))
  }

  function OtherSources(sourceType: string, ids: seq<int>): Row -> bool {
    (r: Row) => !(r.sourceType == sourceType && r.sourceId in ids)
  }

  function OtherType(sourceType: string): Row -> bool {
    (r: Row) => r.sourceType != sourceType
  }

  /** A change of the table: rows of some sources replaced, or a purge of a whole type, which may have failed. */
  datatype Op = Replace(sourceType: string, ids: seq<int>, rows: seq<Row>) | Purge(sourceType: string, ok: bool)

  function Applied(op: Op, table: seq<Row>): seq<Row> {
    match op
    case Replace(sourceType, ids, rows) => Filter(OtherSources(sourceType, ids), table) + rows
    case Purge(sourceType, ok) => if ok then Filter(OtherType(sourceType), table) else table
  }

  function Replayed(ops: seq<Op>, table: seq<Row>): seq<Row> {
    if ops == [] then table else Applied(ops[|ops| - 1], Replayed(ops[..|ops| - 1], table))
  }

  /** The index holds what a boot load of the table would build, leaving order and empty vectors aside. */
  predicate Mirrors(root: real -> real, chunks: seq<Chunk>, table: seq<Row>) {
    multiset(Filter(NotEmpty(), chunks)) == multiset(Loaded(root, table))
  }

  predicate WellBuilt(root: real -> real, sourceType: string, chunks: seq<Chunk>) {
    forall c | c in chunks :: c.sourceType == sourceType && c.norm == Norm(root, Values(c.vec))
  }

  // ----- the laws of the mirror

  lemma IndexedAreWellBuilt(root: real -> real, sourceType: string, embedded: seq<Embedded>)
    ensures WellBuilt(root, sourceType, Map(Indexing(root, sourceType), embedded))
  {
  }

  /** Storing chunks and loading them again gives the chunks, empty vectors aside. */
  lemma StoredThenLoaded(root: real -> real, sourceType: string, chunks: seq<Chunk>)
    requires WellBuilt(root, sourceType, chunks)
    ensures Loaded(root, Map(Storing(sourceType), chunks)) == Filter(NotEmpty(), chunks)
  {
    hide Norm;
    var back := Map(Loading(root), Map(Storing(sourceType), chunks));
    forall i | 0 <= i < |chunks| ensures back[i] == chunks[i] {
      assert chunks[i] in chunks;
      StoreThenLoad(chunks[i].vec);
    }
    assert back == chunks;
  }

  lemma LoadedConcat(root: real -> real, a: seq<Row>, b: seq<Row>)
    ensures Loaded(root, a + b) == Loaded(root, a) + Loaded(root, b)
  {
    MapConcat(Loading(root), a, b);
    FilterConcat(NotEmpty(), Map(Loading(root), a), Map(Loading(root), b));
  }

  lemma LoadedOne(root: real -> real, r: Row)
    ensures Loaded(root, [r]) == if Deserialized(r.bytes) == [] then [] else [Loading(root)(r)]
  {
    assert Map(Loading(root), [r]) == [Loading(root)(r)];
    FilterOne(NotEmpty(), Loading(root)(r));
  }

  lemma LoadedReordered(root: real -> real, a: seq<Row>, b: seq<Row>)
    requires multiset(a) == multiset(b)
    ensures multiset(Loaded(root, a)) == multiset(Loaded(root, b))
  {
    MapReordered(Loading(root), a, b);
    FilterReordered(NotEmpty(), Map(Loading(root), a), Map(Loading(root), b));
  }

  /** A test of rows that is a test of what they load as can be made before the load or after it. */
  lemma LoadedFiltered(root: real -> real, keep: Chunk -> bool, keepRow: Row -> bool, table: seq<Row>)
    requires forall r | r in table :: keepRow(r) == keep(Loading(root)(r))
    ensures Loaded(root, Filter(keepRow, table)) == Filter(keep, Loaded(root, table))
  {
    FilterMap(keep, Loading(root), keepRow, table);
    FilterTwice(NotEmpty(), keep, Map(Loading(root), table));
  }

  /** Deleting rows of some sources deletes exactly the chunks of those sources from what a load would build. */
  lemma LoadedWithoutSources(root: real -> real, sourceType: string, ids: seq<int>, table: seq<Row>)
    ensures Loaded(root, Filter(OtherSources(sourceType, ids), table)) == Kept(sourceType, ids, Loaded(root, table))
  {
    LoadedFiltered(root, Sparing(Hitting(sourceType, ids)), OtherSources(sourceType, ids), table);
  }

  lemma DropMirrors(root: real -> real, keep: Chunk -> bool, keepRow: Row -> bool, chunks: seq<Chunk>, table: seq<Row>)
    requires Mirrors(root, chunks, table) && forall r | r in table :: keepRow(r) == keep(Loading(root)(r))
    ensures Mirrors(root, Filter(keep, chunks), Filter(keepRow, table))
  {
    FilterTwice(NotEmpty(), keep, chunks);
    FilterReordered(keep, Filter(NotEmpty(), chunks), Loaded(root, table));
    LoadedFiltered(root, keep, keepRow, table);
  }

  lemma SwapMirrors(root: real -> real, sourceType: string, ids: seq<int>, added: seq<Chunk>, chunks: seq<Chunk>, table: seq<Row>)
    requires WellBuilt(root, sourceType, added) && Mirrors(root, chunks, table)
    ensures Mirrors(root, Kept(sourceType, ids, chunks) + added,
                    Applied(Replace(sourceType, ids, Map(Storing(sourceType), added)), table))
  {
    var rows := Filter(OtherSources(sourceType, ids), table);
    DropMirrors(root, Sparing(Hitting(sourceType, ids)), OtherSources(sourceType, ids), chunks, table);
    FilterConcat(NotEmpty(), Kept(sourceType, ids, chunks), added);
    StoredThenLoaded(root, sourceType, added);
    LoadedConcat(root, rows, Map(Storing(sourceType), added));
  }

  lemma DropSourceMirrors(root: real -> real, sourceType: string, ids: seq<int>, chunks: seq<Chunk>, table: seq<Row>)
    requires Mirrors(root, chunks, table)
    ensures Mirrors(root, Kept(sourceType, ids, chunks), Filter(OtherSources(sourceType, ids), table))
  {
    DropMirrors(root, Sparing(Hitting(sourceType, ids)), OtherSources(sourceType, ids), chunks, table);
  }

  lemma DropTypeMirrors(root: real -> real, sourceType: string, chunks: seq<Chunk>, table: seq<Row>)
    requires Mirrors(root, chunks, table)
    ensures Mirrors(root, Filter(Sparing(OfType(sourceType)), chunks), Filter(OtherType(sourceType), table))
  {
    DropMirrors(root, Sparing(OfType(sourceType)), OtherType(sourceType), chunks, table);
  }

  lemma BootMirrors(root: real -> real, rows: seq<Row>, table: seq<Row>)
    requires multiset(rows) == multiset(table)
    ensures Mirrors(root, Loaded(root, rows), table)
  {
    LoadedReordered(root, rows, table);
    FilterMembers(NotEmpty(), Map(Loading(root), rows));
    FilterAll(NotEmpty(), Loaded(root, rows));
  }

  /** A search of a mirroring index may return exactly what a search of the table itself may return. */
  lemma SearchSeesTable(root: real -> real, q: seq<real>, types: seq<string>, k: int, chunks: seq<Chunk>, table: seq<Row>, r: seq<Hit>)
    requires IsSqrt(root) && Mirrors(root, chunks, table)
    ensures IsTopK(Reported(root, q, types, chunks).0, k, r) <==> IsTopK(Reported(root, q, types, Loaded(root, table)).0, k, r)
  {
    if q == [] {
      NormIsRoot(root, q);
    } else {
      EmptyChunksNeverHit(root, q, types, chunks);
      HitsReordered(root, q, types, Filter(NotEmpty(), chunks), Loaded(root, table));
      TopKReordered(Hits(root, q, types, chunks), Hits(root, q, types, Loaded(root, table)), k, r);
    }
  }

  // ----- rows the index does not know

  function SourceOf(r: Row): Source {
    Source(r.sourceType, r.sourceId)
  }

  function SourcesOf(sourceType: string, ids: seq<int>): set<Source> {
    set id | id in ids :: Source(sourceType, id)
  }

  function SourcesOfType(sourceType: string, table: seq<Row>): set<Source> {
    set r | r in table && r.sourceType == sourceType :: SourceOf(r)
  }

  function KnownTo(unknown: set<Source>): Row -> bool {
    (r: Row) => SourceOf(r) !in unknown
  }

  function UnknownTo(unknown: set<Source>): Row -> bool {
    (r: Row) => SourceOf(r) in unknown
  }

  /** No row of an unknown source holds a whole element of a vector. */
  predicate NothingMissed(unknown: set<Source>, table: seq<Row>) {
    forall r | r in table && SourceOf(r) in unknown :: |r.bytes| < 4
  }

  lemma {:induction false} LoadedSplit(root: real -> real, unknown: set<Source>, table: seq<Row>)
    ensures multiset(Loaded(root, table)) ==
            multiset(Loaded(root, Filter(KnownTo(unknown), table))) + multiset(Loaded(root, Filter(UnknownTo(unknown), table)))
  {
    if table != [] {
      var front, last := table[..|table| - 1], table[|table| - 1];
      assert table == front + [last];
      LoadedSplit(root, unknown, front);
      LoadedConcat(root, front, [last]);
      LoadedConcat(root, Filter(KnownTo(unknown), front), [last]);
      LoadedConcat(root, Filter(UnknownTo(unknown), front), [last]);
      hide Loaded;
    }
  }

  lemma {:induction false} LoadsNothing(root: real -> real, rows: seq<Row>)
    ensures Loaded(root, rows) == [] <==> forall r | r in rows :: |r.bytes| < 4
  {
    if rows != [] {
      var front, last := rows[..|rows| - 1], rows[|rows| - 1];
      assert rows == front + [last];
      LoadsNothing(root, front);
      LoadedConcat(root, front, [last]);
      LoadedOne(root, last);
      hide Loaded;
    }
  }

  /** An index that mirrors the known rows mirrors the table exactly when it misses nothing. */
  lemma MirrorsExactly(root: real -> real, chunks: seq<Chunk>, unknown: set<Source>, table: seq<Row>)
    requires Mirrors(root, chunks, Filter(KnownTo(unknown), table))
    ensures Mirrors(root, chunks, table) <==> NothingMissed(unknown, table)
  {
    var missed := Filter(UnknownTo(unknown), table);
    LoadedSplit(root, unknown, table);
    LoadsNothing(root, missed);
    forall r | r in table && SourceOf(r) in unknown ensures r in missed {
      FilterCount(UnknownTo(unknown), table, r);
      assert r in multiset(missed);
    }
    FilterMembers(UnknownTo(unknown), table);
    assert |multiset(Loaded(root, missed))| == |Loaded(root, missed)|;
  }

  // ----- the machine

  datatype Phase =
    | Free
    | Read(rows: seq<Row>)
    | Opened(sourceType: string, ids: seq<int>, added: seq<Chunk>)
    | InTx(sourceType: string, ids: seq<int>, added: seq<Chunk>, inserted: nat, work: seq<Row>)
    | Committed(sourceType: string, ids: seq<int>, added: seq<Chunk>, before: seq<Row>)
    | Purging(sourceType: string)
    | Sweeping(sourceType: string, done: seq<int>, todo: seq<int>, before: seq<Row>)

  /** What a search returned, the rows the index stood for then, the number of changes of the table before it, and whether
      the index was loaded and no purge or sweep under way. */
  datatype Answer = Answer(q: seq<real>, types: seq<string>, k: int, hits: seq<Hit>, rows: seq<Row>, at: int, whole: bool)

  /** `phase` is where the holder of the mutex stands; `unknown` are the sources whose rows were never read into memory, or
      were dropped from it by a purge, and were not written or loaded since; `log` lists the changes of the table so far. */
  datatype State = State(
    table: seq<Row>,
    chunks: seq<Chunk>,
    ready: bool,
    loaded: bool,
    unknown: set<Source>,
    phase: Phase,
    log: seq<Op>,
    answers: seq<Answer>)

  datatype Label =
    | BootRead(rows: seq<Row>)
    | BootFail
    | BootSwap
    | Begin(sourceType: string, ids: seq<int>, embedded: seq<Embedded>)
    | Clear
    | Insert
    | Commit
    | Fail
    | Remove(sourceType: string, sourceId: int)
    | Swap
    | PurgeMemory(sourceType: string)
    | PurgeRows(ok: bool)
    | SweepRows(sourceType: string, orphans: seq<int>, returned: seq<int>)
    | SweepOne
    | Ask(q: seq<real>, types: seq<string>, k: int, hits: seq<Hit>)

  /** The table as the in-memory index should know it: before the one change that has not reached memory yet, or with as
      much of a sweep as has. */
  function Behind(s: State): seq<Row> {
    match s.phase
    case Committed(_, _, _, before) => before
    case Sweeping(sourceType, done, _, before) => Filter(OtherSources(sourceType, done), before)
    case _ => s.table
  }

  function KnownRows(s: State): seq<Row> {
    Filter(KnownTo(s.unknown), Behind(s))
  }

  function Committing(s: State, sourceType: string, ids: seq<int>, added: seq<Chunk>, table: seq<Row>): State {
    s.(table := table, phase := Committed(sourceType, ids, added, s.table),
       log := s.log + [Replace(sourceType, ids, Map(Storing(sourceType), added))])
  }

  function Purged(s: State, sourceType: string, ok: bool): State {
    s.(table := Applied(Purge(sourceType, ok), s.table), phase := Free, log := s.log + [Purge(sourceType, ok)])
  }

  function IdOf(): Row -> int {
    (r: Row) => r.sourceId
  }

  function Orphaned(sourceType: string, ids: seq<int>): Row -> bool {
    (r: Row) => r.sourceType == sourceType && r.sourceId in ids
  }

  /** One id for every deleted row, in any order. */
  predicate Returns(table: seq<Row>, sourceType: string, orphans: seq<int>, returned: seq<int>) {
    multiset(returned) == multiset(Map(IdOf(), Filter(Orphaned(sourceType, orphans), table)))
  }

  function Swept(s: State, sourceType: string, orphans: seq<int>, returned: seq<int>): State {
    s.(table := Filter(OtherSources(sourceType, orphans), s.table), phase := Sweeping(sourceType, [], returned, s.table),
       log := s.log + [Replace(sourceType, orphans, [])])
  }

  /** The loop over the returned ids drops each source once. */
  function SweptOne(s: State): State
    requires s.phase.Sweeping?
  {
    var p := s.phase;
    if p.todo == [] then s.(phase := Free)
    else if p.todo[0] in p.done then s.(phase := p.(todo := p.todo[1..]))
    else s.(chunks := Kept(p.sourceType, [p.todo[0]], s.chunks), phase := p.(done := p.done + [p.todo[0]], todo := p.todo[1..]))
  }

  function Answering(s: State, q: seq<real>, types: seq<string>, k: int, hits: seq<Hit>): Answer {
    Answer(q, types, k, hits, KnownRows(s),
           if s.phase.Committed? || s.phase.Sweeping? then |s.log| - 1 else |s.log|,
           s.loaded && !s.phase.Purging? && !s.phase.Sweeping?)
  }

  /** One step. A label that is not enabled changes nothing. A search waits for the boot load to end and can come at any
      moment after. Chunks are only added for the sources that are replaced. */
  function Next(root: real -> real, s: State, l: Label): State {
    match (l, s.phase)
    case (BootRead(rows), Free) =>
      if !s.ready && multiset(rows) == multiset(s.table) then s.(phase := Read(rows)) else s
    case (BootFail, Free) =>
      s.(ready := true)
    case (BootSwap, Read(rows)) =>
      s.(chunks := Loaded(root, rows), ready := true, loaded := true, unknown := {}, phase := Free)
    case (Begin(sourceType, ids, embedded), Free) =>
      if forall e | e in embedded :: e.sourceId in ids
      then s.(phase := Opened(sourceType, ids, Map(Indexing(root, sourceType), embedded)))
      else s
    case (Clear, Opened(sourceType, ids, added)) =>
      s.(phase := InTx(sourceType, ids, added, 0, Filter(OtherSources(sourceType, ids), s.table)))
    case (Insert, InTx(sourceType, ids, added, inserted, work)) =>
      if inserted < |added| then
        s.(phase := InTx(sourceType, ids, added, inserted + 1, work + [Storing(sourceType)(added[inserted])]))
      else s
    case (Commit, InTx(sourceType, ids, added, inserted, work)) =>
      if inserted == |added| then Committing(s, sourceType, ids, added, work) else s
    case (Fail, Opened(_, _, _)) =>
      s.(phase := Free)
    case (Fail, InTx(_, _, _, _, _)) =>
      s.(phase := Free)
    case (Remove(sourceType, sourceId), Free) =>
      Committing(s, sourceType, [sourceId], [], Filter(OtherSources(sourceType, [sourceId]), s.table))
    case (Swap, Committed(sourceType, ids, added, _)) =>
      s.(chunks := Kept(sourceType, ids, s.chunks) + added, unknown := s.unknown - SourcesOf(sourceType, ids), phase := Free)
    case (PurgeMemory(sourceType), Free) =>
      s.(chunks := Filter(Sparing(OfType(sourceType)), s.chunks), unknown := s.unknown + SourcesOfType(sourceType, s.table),
         phase := Purging(sourceType))
    case (PurgeRows(ok), Purging(sourceType)) =>
      Purged(s, sourceType, ok)
    case (SweepRows(sourceType, orphans, returned), Free) =>
      if Returns(s.table, sourceType, orphans, returned) then Swept(s, sourceType, orphans, returned) else s
    case (SweepOne, Sweeping(_, _, _, _)) =>
      SweptOne(s)
    case (Ask(q, types, k, hits), _) =>
      if s.ready && IsTopK(Reported(root, q, types, s.chunks).0, k, hits)
      then s.(answers := s.answers + [Answering(s, q, types, k, hits)])
      else s
    case _ => s
  }

  function Run(root: real -> real, s: State, labels: seq<Label>): State {
    if labels == [] then s else Next(root, Run(root, s, labels[..|labels| - 1]), labels[|labels| - 1])
  }

  /** A process that has just started knows no row of the table. */
  function Boot(table: seq<Row>): State {
    State(table, [], false, false, set r | r in table :: SourceOf(r), Free, [], [])
  }

  // ----- what every step keeps

  predicate NamesOnly(added: seq<Chunk>, ids: seq<int>) {
    forall c | c in added :: c.sourceId in ids
  }

  predicate PhaseOk(root: real -> real, s: State) {
    match s.phase
    case Free => true
    case Read(rows) => multiset(rows) == multiset(s.table)
    case Opened(sourceType, ids, added) => WellBuilt(root, sourceType, added) && NamesOnly(added, ids)
    case InTx(sourceType, ids, added, inserted, work) =>
      && WellBuilt(root, sourceType, added) && NamesOnly(added, ids)
      && inserted <= |added|
      && work == Filter(OtherSources(sourceType, ids), s.table) + Map(Storing(sourceType), added[..inserted])
    case Committed(sourceType, ids, added, before) =>
      && WellBuilt(root, sourceType, added) && NamesOnly(added, ids)
      && s.table == Applied(Replace(sourceType, ids, Map(Storing(sourceType), added)), before)
    case Purging(sourceType) => SourcesOfType(sourceType, s.table) <= s.unknown
    case Sweeping(sourceType, done, todo, before) => s.table == Filter(OtherSources(sourceType, done + todo), before)
  }

  /** No chunk belongs to a source whose rows the index does not know. */
  predicate Separate(chunks: seq<Chunk>, unknown: set<Source>) {
    forall c | c in chunks :: Source(c.sourceType, c.sourceId) !in unknown
  }

  predicate MirrorOk(root: real -> real, s: State) {
    && PhaseOk(root, s)
    && Mirrors(root, s.chunks, KnownRows(s))
    && NormsRecorded(root, s.chunks)
    && Separate(s.chunks, s.unknown)
  }

  lemma InsertKeeps(root: real -> real, s: State)
    requires MirrorOk(root, s) && s.phase.InTx?
    ensures MirrorOk(root, Next(root, s, Insert))
  {
    hide WellBuilt, Filter, NamesOnly, Mirrors, NormsRecorded, Separate;
    var p := s.phase;
    if p.inserted < |p.added| {
      assert Map(Storing(p.sourceType), p.added[..p.inserted + 1])
          == Map(Storing(p.sourceType), p.added[..p.inserted]) + [Storing(p.sourceType)(p.added[p.inserted])];
    }
  }

  /** After the swap the index knows the rows it knew, less those replaced, and the new ones. */
  lemma SwapKnows(unknown: set<Source>, sourceType: string, ids: seq<int>, added: seq<Chunk>, before: seq<Row>)
    requires NamesOnly(added, ids)
    ensures var op := Replace(sourceType, ids, Map(Storing(sourceType), added));
            Filter(KnownTo(unknown - SourcesOf(sourceType, ids)), Applied(op, before)) == Applied(op, Filter(KnownTo(unknown), before))
  {
    var rows := Map(Storing(sourceType), added);
    var known := KnownTo(unknown - SourcesOf(sourceType, ids));
    var others := OtherSources(sourceType, ids);
    FilterConcat(known, Filter(others, before), rows);
    forall r | r in rows ensures known(r) {
      var i :| 0 <= i < |rows| && rows[i] == r;
      assert added[i] in added;
    }
    FilterAll(known, rows);
    FilterMembers(others, before);
    FilterAgrees(known, KnownTo(unknown), Filter(others, before));
    FilterTwice(KnownTo(unknown), others, before);
  }

  lemma SwapKeeps(root: real -> real, s: State)
    requires MirrorOk(root, s) && s.phase.Committed?
    ensures MirrorOk(root, Next(root, s, Swap))
  {
    hide Mirrors, Applied, Norm;
    var p := s.phase;
    SwapMirrors(root, p.sourceType, p.ids, p.added, s.chunks, KnownRows(s));
    SwapKnows(s.unknown, p.sourceType, p.ids, p.added, p.before);
    FilterMembers(Sparing(Hitting(p.sourceType, p.ids)), s.chunks);
  }

  lemma LoadedWellBuilt(root: real -> real, rows: seq<Row>)
    ensures NormsRecorded(root, Loaded(root, rows))
  {
    hide Norm;
    FilterMembers(NotEmpty(), Map(Loading(root), rows));
  }

  lemma AllKnown(table: seq<Row>)
    ensures Filter(KnownTo({}), table) == table
  {
    FilterAll(KnownTo({}), table);
  }

  lemma BootSwapKeeps(root: real -> real, s: State)
    requires MirrorOk(root, s) && s.phase.Read?
    ensures MirrorOk(root, Next(root, s, BootSwap))
  {
    hide Mirrors, Norm, NormsRecorded, Loaded, Filter, KnownTo;
    BootMirrors(root, s.phase.rows, s.table);
    AllKnown(s.table);
    LoadedWellBuilt(root, s.phase.rows);
  }

  /** A purge forgets exactly the rows of its type. */
  lemma ForgetsType(unknown: set<Source>, sourceType: string, table: seq<Row>)
    ensures Filter(KnownTo(unknown + SourcesOfType(sourceType, table)), table) ==
            Filter(OtherType(sourceType), Filter(KnownTo(unknown), table))
  {
    var more := unknown + SourcesOfType(sourceType, table);
    forall r | r in table ensures KnownTo(more)(r) == (OtherType(sourceType)(r) && KnownTo(unknown)(r)) {
      assert SourceOf(r) in SourcesOfType(sourceType, table) <==> r.sourceType == sourceType;
    }
    FilterBoth(OtherType(sourceType), KnownTo(unknown), KnownTo(more), table);
  }

  lemma ForgottenChunks(root: real -> real, chunks: seq<Chunk>, unknown: set<Source>, sourceType: string, table: seq<Row>)
    requires NormsRecorded(root, chunks) && Separate(chunks, unknown)
    ensures var kept := Filter(Sparing(OfType(sourceType)), chunks);
            NormsRecorded(root, kept) && Separate(kept, unknown + SourcesOfType(sourceType, table))
  {
    hide Norm;
    FilterMembers(Sparing(OfType(sourceType)), chunks);
  }

  lemma PurgeMemoryKeeps(root: real -> real, s: State, sourceType: string)
    requires MirrorOk(root, s) && s.phase.Free?
    ensures MirrorOk(root, Next(root, s, PurgeMemory(sourceType)))
  {
    hide Mirrors, Norm, NormsRecorded, Separate, Filter, KnownTo, SourcesOfType;
    DropTypeMirrors(root, sourceType, s.chunks, KnownRows(s));
    ForgetsType(s.unknown, sourceType, s.table);
    ForgottenChunks(root, s.chunks, s.unknown, sourceType, s.table);
  }

  /** Rows the index was told to forget may be deleted without it noticing. */
  lemma PurgeKnows(unknown: set<Source>, sourceType: string, table: seq<Row>)
    requires SourcesOfType(sourceType, table) <= unknown
    ensures Filter(KnownTo(unknown), Filter(OtherType(sourceType), table)) == Filter(KnownTo(unknown), table)
  {
    forall r | r in table && KnownTo(unknown)(r) ensures OtherType(sourceType)(r) {
      assert SourceOf(r) !in SourcesOfType(sourceType, table);
    }
    FilterBoth(KnownTo(unknown), OtherType(sourceType), KnownTo(unknown), table);
  }

  lemma PurgeRowsKeeps(root: real -> real, s: State, ok: bool)
    requires MirrorOk(root, s) && s.phase.Purging?
    ensures MirrorOk(root, Next(root, s, PurgeRows(ok)))
  {
    hide Mirrors, Norm, NormsRecorded, Separate, Filter, SourcesOfType, KnownTo, OtherType;
    PurgeKnows(s.unknown, s.phase.sourceType, s.table);
  }

  /** Which rows a sweep deletes can be told from the ids it returns. */
  lemma ReturnedTells(table: seq<Row>, sourceType: string, orphans: seq<int>, returned: seq<int>)
    requires Returns(table, sourceType, orphans, returned)
    ensures Filter(OtherSources(sourceType, orphans), table) == Filter(OtherSources(sourceType, returned), table)
  {
    var gone := Filter(Orphaned(sourceType, orphans), table);
    forall r | r in table ensures OtherSources(sourceType, orphans)(r) == OtherSources(sourceType, returned)(r) {
      if Orphaned(sourceType, orphans)(r) {
        FilterCount(Orphaned(sourceType, orphans), table, r);
        assert r in multiset(gone);
        var i := PlaceOf(gone, r);
        assert Map(IdOf(), gone)[i] in multiset(returned);
      }
      if r.sourceId in returned {
        assert r.sourceId in multiset(Map(IdOf(), gone));
        var i := PlaceOf(Map(IdOf(), gone), r.sourceId);
        FilterMembers(Orphaned(sourceType, orphans), table);
        assert gone[i] in gone;
      }
    }
    FilterAgrees(OtherSources(sourceType, orphans), OtherSources(sourceType, returned), table);
  }

  lemma SweepRowsKeeps(root: real -> real, s: State, sourceType: string, orphans: seq<int>, returned: seq<int>)
    requires MirrorOk(root, s) && s.phase.Free? && Returns(s.table, sourceType, orphans, returned)
    ensures MirrorOk(root, Swept(s, sourceType, orphans, returned))
  {
    hide Mirrors, Norm, NormsRecorded, Separate, Returns, Filter, KnownTo;
    ReturnedTells(s.table, sourceType, orphans, returned);
    NoneDropped(sourceType, s.table);
    assert [] + returned == returned;
  }

  lemma NoneDropped(sourceType: string, table: seq<Row>)
    ensures Filter(OtherSources(sourceType, []), table) == table
  {
    FilterAll(OtherSources(sourceType, []), table);
  }

  lemma SweepOneKeeps(root: real -> real, s: State)
    requires MirrorOk(root, s) && s.phase.Sweeping?
    ensures MirrorOk(root, SweptOne(s))
  {
    hide Mirrors, Norm;
    var p := s.phase;
    if p.todo == [] {
      assert p.done + p.todo == p.done;
    } else if p.todo[0] in p.done {
      FilterAgrees(OtherSources(p.sourceType, p.done + p.todo), OtherSources(p.sourceType, p.done + p.todo[1..]), p.before);
    } else {
      var one, done := [p.todo[0]], p.done + [p.todo[0]];
      assert done + p.todo[1..] == p.done + p.todo;
      DropSourceMirrors(root, p.sourceType, one, s.chunks, KnownRows(s));
      FilterTwice(OtherSources(p.sourceType, one), KnownTo(s.unknown), Behind(s));
      FilterBoth(OtherSources(p.sourceType, one), OtherSources(p.sourceType, p.done), OtherSources(p.sourceType, done), p.before);
      FilterMembers(Sparing(Hitting(p.sourceType, one)), s.chunks);
    }
  }

  lemma CommitKeeps(root: real -> real, s: State, l: Label)
    requires MirrorOk(root, s) && (l.Commit? || l.Remove?)
    ensures MirrorOk(root, Next(root, s, l))
  {
    hide Mirrors, Norm, NormsRecorded, WellBuilt, Separate;
    match (l, s.phase)
    case (Commit, InTx(sourceType, ids, added, inserted, work)) =>
      assert added[..|added|] == added;
    case (Remove(sourceType, sourceId), Free) =>
      NothingAdded(root, sourceType);
      assert Map(Storing(sourceType), []) == [];
    case _ =>
  }

  lemma NothingAdded(root: real -> real, sourceType: string)
    ensures WellBuilt(root, sourceType, [])
  {
  }

  lemma BeginKeeps(root: real -> real, s: State, sourceType: string, ids: seq<int>, embedded: seq<Embedded>)
    requires MirrorOk(root, s) && s.phase.Free?
    ensures MirrorOk(root, Next(root, s, Begin(sourceType, ids, embedded)))
  {
    hide Mirrors, Norm, NormsRecorded, Separate, Filter;
    IndexedAreWellBuilt(root, sourceType, embedded);
    var added := Map(Indexing(root, sourceType), embedded);
    if forall e | e in embedded :: e.sourceId in ids {
      forall c | c in added ensures c.sourceId in ids {
        var i :| 0 <= i < |added| && added[i] == c;
        assert embedded[i] in embedded;
      }
    }
  }

  lemma NextKeeps(root: real -> real, s: State, l: Label)
    requires MirrorOk(root, s)
    ensures MirrorOk(root, Next(root, s, l))
  {
    hide MirrorOk, Mirrors, Filter, Norm, Returns, NormsRecorded;
    match (l, s.phase)
    case (Insert, InTx(_, _, _, _, _)) => InsertKeeps(root, s);
    case (Swap, Committed(_, _, _, _)) => SwapKeeps(root, s);
    case (BootSwap, Read(_)) => BootSwapKeeps(root, s);
    case (Commit, _) => CommitKeeps(root, s, l);
    case (Remove(_, _), _) => CommitKeeps(root, s, l);
    case (Begin(sourceType, ids, embedded), Free) => BeginKeeps(root, s, sourceType, ids, embedded);
    case (PurgeMemory(sourceType), Free) => PurgeMemoryKeeps(root, s, sourceType);
    case (PurgeRows(ok), Purging(_)) => PurgeRowsKeeps(root, s, ok);
    case (SweepRows(sourceType, orphans, returned), Free) =>
      if Returns(s.table, sourceType, orphans, returned) {
        SweepRowsKeeps(root, s, sourceType, orphans, returned);
      }
    case (SweepOne, Sweeping(_, _, _, _)) => SweepOneKeeps(root, s);
    case _ => OtherStepKeeps(root, s, l);
  }

  lemma OtherStepKeeps(root: real -> real, s: State, l: Label)
    requires MirrorOk(root, s)
    requires l.BootRead? || l.BootFail? || l.Clear? || l.Fail? || l.Ask? || Next(root, s, l) == s
    ensures MirrorOk(root, Next(root, s, l))
  {
    hide Mirrors, NormsRecorded, Norm, Filter, Separate, WellBuilt, NamesOnly, IsTopK, Reported, Answering;
  }

  lemma {:induction false} RunKeeps(root: real -> real, s: State, labels: seq<Label>)
    requires MirrorOk(root, s)
    ensures MirrorOk(root, Run(root, s, labels))
  {
    hide MirrorOk, Next;
    if labels != [] {
      RunKeeps(root, s, labels[..|labels| - 1]);
      NextKeeps(root, Run(root, s, labels[..|labels| - 1]), labels[|labels| - 1]);
    }
  }

  lemma BootOk(root: real -> real, table: seq<Row>)
    ensures MirrorOk(root, Boot(table))
  {
    FilterNone(KnownTo(Boot(table).unknown), table);
  }
}
