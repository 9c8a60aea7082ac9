/** Reconciling the tags with the index: what is embedded, what is dropped, and whether that repairs a failed purge. */
module TagReconcile {
  import opened EmbeddingCodec
  import opened EmbeddingIndex
  import opened EmbeddingMirror
  import opened EmbeddingManager
  import opened EmbeddingHistory
  import opened Prelude
  import opened SeqFilter

  const TAG := "tag"

  datatype Tag = Tag(id: int, name: string)

  // ----- the chunk of each source

  predicate IsOf(c: Chunk, sourceType: string, id: int) {
    c.sourceType == sourceType && c.sourceId == id
  }

  /** The last chunk of a source. */
  function Latest(chunks: seq<Chunk>, sourceType: string, id: int): Option<Chunk> {
    if chunks == [] then None
    else if IsOf(chunks[|chunks| - 1], sourceType, id) then Some(chunks[|chunks| - 1])
    else Latest(chunks[..|chunks| - 1], sourceType, id)
  }

  predicate Holds(m: map<int, Chunk>, id: int, c: Option<Chunk>) {
    if id in m then c == Some(m[id]) else c == None
  }

  ghost predicate IsBySource(m: map<int, Chunk>, sourceType: string, chunks: seq<Chunk>) {
    forall id: int :: Holds(m, id, Latest(chunks, sourceType, id))
  }

  method ChunksBySourceId(chunks: seq<Chunk>, sourceType: string) returns (out: map<int, Chunk>)
    ensures IsBySource(out, sourceType, chunks)
  {
    out := map[];
    for i := 0 to |chunks|
      invariant IsBySource(out, sourceType, chunks[..i])
    {
      assert chunks[..i + 1][..i] == chunks[..i];
      var c := chunks[i];
      if c.sourceType == sourceType {
        out := out[c.sourceId := c];
      }
    }
    assert chunks[..|chunks|] == chunks;
  }

  lemma {:induction false} LatestIsOne(chunks: seq<Chunk>, sourceType: string, id: int)
    ensures match Latest(chunks, sourceType, id)
            case Some(c) => c in chunks && IsOf(c, sourceType, id)
            case None => forall c | c in chunks :: !IsOf(c, sourceType, id)
  {
    if chunks != [] {
      LatestIsOne(chunks[..|chunks| - 1], sourceType, id);
    }
  }

  lemma {:induction false} LatestOfTwo(a: seq<Chunk>, b: seq<Chunk>, sourceType: string, id: int)
    ensures Latest(a + b, sourceType, id) == if Latest(b, sourceType, id).Some? then Latest(b, sourceType, id) else Latest(a, sourceType, id)
  {
    if b == [] {
      assert a + b == a;
    } else {
      assert (a + b)[..|a + b| - 1] == a + b[..|b| - 1];
      LatestOfTwo(a, b[..|b| - 1], sourceType, id);
    }
  }

  /** Dropping other sources leaves the last chunk of this one what it was. */
  lemma {:induction false} LatestKept(chunks: seq<Chunk>, sourceType: string, ids: seq<int>, id: int)
    ensures Latest(Kept(sourceType, ids, chunks), sourceType, id) == if id in ids then None else Latest(chunks, sourceType, id)
  {
    if chunks != [] {
      var front, last := chunks[..|chunks| - 1], chunks[|chunks| - 1];
      LatestKept(front, sourceType, ids, id);
      assert (Kept(sourceType, ids, front) + [last])[..|Kept(sourceType, ids, front)|] == Kept(sourceType, ids, front);
    }
  }

  // ----- what differs

  function Names(t: Tag, id: int): bool {
    t.id == id && !IsBlank(t.name)
  }

  /** There is a tag of this id with a name. */
  predicate Current(tags: seq<Tag>, id: int) {
    exists t | t in tags :: Names(t, id)
  }

  /** A named tag whose name is not what the index holds for it. */
  function Stale(indexed: map<int, Chunk>): Tag -> bool {
    (t: Tag) => !IsBlank(t.name) && !(t.id in indexed && indexed[t.id].text == t.name)
  }

  predicate Ascending(s: seq<int>) {
    forall i, j | 0 <= i < j < |s| :: s[i] < s[j]
  }

  lemma AppendAscends(s: seq<int>, x: int)
    requires Ascending(s) && forall y | y in s :: y < x
    ensures Ascending(s + [x])
  {
    forall i | 0 <= i < |s| ensures s[i] < x {
      assert s[i] in s;
    }
  }

  function Placed(s: seq<int>, x: int): (r: seq<int>)
    requires Ascending(s) && x !in s
    ensures Ascending(r)
    ensures forall y :: y in r <==> y in s || y == x
  {
    if s == [] || s[|s| - 1] < x then
      AppendAscends(s, x);
      s + [x]
    else
      var front, last := s[..|s| - 1], s[|s| - 1];
      assert last in s && s == front + [last];
      AppendAscends(Placed(front, x), last);
      Placed(front, x) + [last]
  }

  lemma CurrentOutright(tags: seq<Tag>)
    ensures forall id :: !Current(tags, id) <==> forall t | t in tags && t.id == id :: forall i | 0 <= i < |t.name| :: IsSpace(t.name[i])
  {
    forall id ensures !Current(tags, id) <==> forall t | t in tags && t.id == id :: forall i | 0 <= i < |t.name| :: IsSpace(t.name[i]) {
      if !Current(tags, id) {
        forall t | t in tags && t.id == id ensures forall i | 0 <= i < |t.name| :: IsSpace(t.name[i]) {
          assert !Names(t, id);
        }
      }
    }
  }

  method DiffTagIndex(tags: seq<Tag>, indexed: map<int, Chunk>) returns (stale: seq<Tag>, removed: seq<int>)
    ensures stale == Filter(Stale(indexed), tags)
    ensures Ascending(removed) && forall id :: id in removed <==> id in indexed && !Current(tags, id)
    ensures stale == Filter((t: Tag) => (exists i :: 0 <= i < |t.name| && !IsSpace(t.name[i]))
                                        && !(t.id in indexed && indexed[t.id].text == t.name), tags)
    ensures forall id :: id in removed <==>
              id in indexed && forall t | t in tags && t.id == id :: forall i | 0 <= i < |t.name| :: IsSpace(t.name[i])
  {
    var live: set<int> := {};
    stale := [];
    for i := 0 to |tags|
      invariant stale == Filter(Stale(indexed), tags[..i])
      invariant forall id :: id in live <==> Current(tags[..i], id)
    {
      var t := tags[i];
      assert tags[..i + 1] == tags[..i] + [t];
      assert forall id :: Current(tags[..i + 1], id) <==> Current(tags[..i], id) || Names(t, id);
      if IsBlank(t.name) {
        continue;
      }
      live := live + {t.id};
      if t.id in indexed && indexed[t.id].text == t.name {
        continue;
      }
      stale := stale + [t];
    }
    assert tags[..|tags|] == tags;
    removed := [];
    var keys := indexed.Keys;
    while keys != {}
      invariant keys <= indexed.Keys
      invariant Ascending(removed)
      invariant forall id :: id in removed <==> id in indexed && id !in keys && id !in live
      decreases keys
    {
      SomeMember(keys);
      var id :| id in keys;
      keys := keys - {id};
      if id !in live {
        removed := Placed(removed, id);
      }
    }
    SameFilter(Stale(indexed), (t: Tag) => (exists i :: 0 <= i < |t.name| && !IsSpace(t.name[i]))
                                           && !(t.id in indexed && indexed[t.id].text == t.name), tags);
    CurrentOutright(tags);
  }

  // ----- one reconcile

  function TagId(): Tag -> int {
    (t: Tag) => t.id
  }

  /** What the provider returned for the stale tags. */
  predicate Embeds(embedded: seq<Embedded>, stale: seq<Tag>) {
    && |embedded| == |stale|
    && forall i | 0 <= i < |stale| :: embedded[i].sourceId == stale[i].id && embedded[i].text == stale[i].name
  }

  /** A reconcile is one replacement of the sources that differ, if there are any. */
  function Reconciled(root: real -> real, s: State, stale: seq<Tag>, removed: seq<int>, embedded: seq<Embedded>): State {
    var touched := removed + Map(TagId(), stale);
    if touched == [] then s else Run(root, s, Transaction(TAG, touched, embedded))
  }

  ghost predicate Differs(chunks: seq<Chunk>, tags: seq<Tag>, indexed: map<int, Chunk>, stale: seq<Tag>, removed: seq<int>) {
    && IsBySource(indexed, TAG, chunks)
    && stale == Filter(Stale(indexed), tags)
    && forall id :: id in removed <==> id in indexed && !Current(tags, id)
  }

  lemma EmbedsTouched(stale: seq<Tag>, removed: seq<int>, embedded: seq<Embedded>)
    requires Embeds(embedded, stale)
    ensures forall e | e in embedded :: e.sourceId in removed + Map(TagId(), stale)
  {
    forall e | e in embedded ensures e.sourceId in removed + Map(TagId(), stale) {
      var i :| 0 <= i < |embedded| && embedded[i] == e;
      assert Map(TagId(), stale)[i] in Map(TagId(), stale);
    }
  }

  lemma NothingReplaced(root: real -> real, s: State)
    ensures var t := Replaced(root, s, TAG, [], []); t.table == s.table && t.chunks == s.chunks && t.unknown == s.unknown
  {
    NoneDropped(TAG, s.table);
    KeepsAll(TAG, s.chunks);
    assert Map(Storing(TAG), Map(Indexing(root, TAG), [])) == [];
  }

  lemma ReconciledState(root: real -> real, s: State, stale: seq<Tag>, removed: seq<int>, embedded: seq<Embedded>)
    requires s.phase.Free? && Embeds(embedded, stale)
    ensures var t := Reconciled(root, s, stale, removed, embedded);
            var r := Replaced(root, s, TAG, removed + Map(TagId(), stale), embedded);
            t.table == r.table && t.chunks == r.chunks && t.unknown == r.unknown && t.phase.Free?
  {
    hide Run, Replaced;
    var touched := removed + Map(TagId(), stale);
    EmbedsTouched(stale, removed, embedded);
    if touched == [] {
      assert |removed| + |stale| == 0;
      NothingReplaced(root, s);
      assert embedded == [];
    } else {
      TransactionIsAPath(root, s, TAG, touched, embedded);
      SameFree(root, s, touched, embedded);
    }
  }

  lemma SameFree(root: real -> real, s: State, touched: seq<int>, embedded: seq<Embedded>)
    requires s.phase.Free?
    ensures Replaced(root, s, TAG, touched, embedded).phase.Free?
  {
  }

  // ----- whether a reconcile repairs a failed purge

  lemma {:induction false} KeptTags(p: Tag -> bool, tags: seq<Tag>)
    ensures forall t | t in tags && p(t) :: t in Filter(p, tags)
    ensures forall t | t in Filter(p, tags) :: t in tags && p(t)
  {
    if tags != [] {
      KeptTags(p, tags[..|tags| - 1]);
    }
  }

  /** A reconcile touches exactly the tags that are current, among those the index knows nothing of. */
  lemma TouchesCurrent(s: State, tags: seq<Tag>, indexed: map<int, Chunk>, stale: seq<Tag>, removed: seq<int>, id: int)
    requires Differs(s.chunks, tags, indexed, stale, removed)
    requires Separate(s.chunks, s.unknown) && Source(TAG, id) in s.unknown
    ensures id in removed + Map(TagId(), stale) <==> Current(tags, id)
  {
    LatestIsOne(s.chunks, TAG, id);
    assert Holds(indexed, id, Latest(s.chunks, TAG, id));
    assert id !in indexed;
    KeptTags(Stale(indexed), tags);
    if Current(tags, id) {
      var t :| t in tags && Names(t, id);
      assert t in stale;
      var i :| 0 <= i < |stale| && stale[i] == t;
      assert Map(TagId(), stale)[i] in Map(TagId(), stale);
    }
    if id in Map(TagId(), stale) {
      var i :| 0 <= i < |stale| && Map(TagId(), stale)[i] == id;
      assert stale[i] in stale && Names(stale[i], id);
    }
  }

  /** Every row the index does not know, and that holds a whole element, is of a tag that still has a name. */
  predicate OnlyCurrentMissed(s: State, tags: seq<Tag>) {
    forall r | r in s.table && SourceOf(r) in s.unknown && |r.bytes| >= 4 :: r.sourceType == TAG && Current(tags, r.sourceId)
  }

  lemma MissedAfter(root: real -> real, s: State, ids: seq<int>, embedded: seq<Embedded>)
    requires forall e | e in embedded :: e.sourceId in ids
    ensures var t := Replaced(root, s, TAG, ids, embedded);
            NothingMissed(t.unknown, t.table) <==>
            forall r | r in s.table && SourceOf(r) in s.unknown && |r.bytes| >= 4 :: r.sourceType == TAG && r.sourceId in ids
  {
    var t := Replaced(root, s, TAG, ids, embedded);
    var added := Map(Storing(TAG), Map(Indexing(root, TAG), embedded));
    forall r | r in added ensures SourceOf(r) !in t.unknown {
      var i :| 0 <= i < |added| && added[i] == r;
      assert embedded[i] in embedded;
    }
    MembersKept(OtherSources(TAG, ids), s.table);
    MembersOf(OtherSources(TAG, ids), s.table);
    hide Filter, Map;
    forall r | r in s.table && SourceOf(r) in s.unknown && !(r.sourceType == TAG && r.sourceId in ids)
      ensures r in t.table && SourceOf(r) in t.unknown
    {
      assert OtherSources(TAG, ids)(r);
    }
  }

  /** After a reconcile the index mirrors the table if and only if everything it missed before was of a current tag: rows a
      failed purge left behind are overwritten for the tags that still are there and have a name, and no others. */
  lemma ReconcileRepairsExactly(root: real -> real, s: State, tags: seq<Tag>, indexed: map<int, Chunk>,
                                stale: seq<Tag>, removed: seq<int>, embedded: seq<Embedded>)
    requires MirrorOk(root, s) && s.phase.Free?
    requires Differs(s.chunks, tags, indexed, stale, removed) && Embeds(embedded, stale)
    ensures var t := Reconciled(root, s, stale, removed, embedded);
            Mirrors(root, t.chunks, t.table) <==> OnlyCurrentMissed(s, tags)
  {
    hide Mirrors, Reconciled, Replaced, Current, Filter, Map, NothingMissed, Differs, Embeds, Separate;
    var ids := removed + Map(TagId(), stale);
    EmbedsTouched(stale, removed, embedded);
    var t := Reconciled(root, s, stale, removed, embedded);
    ReconciledState(root, s, stale, removed, embedded);
    ReconciledOk(root, s, stale, removed, embedded);
    MirrorsExactly(root, t.chunks, t.unknown, t.table);
    MissedAfter(root, s, ids, embedded);
    forall r | r in s.table && SourceOf(r) in s.unknown && r.sourceType == TAG
      ensures r.sourceId in ids <==> Current(tags, r.sourceId)
    {
      TouchesCurrent(s, tags, indexed, stale, removed, r.sourceId);
    }
  }

  lemma ReconciledOk(root: real -> real, s: State, stale: seq<Tag>, removed: seq<int>, embedded: seq<Embedded>)
    requires MirrorOk(root, s)
    ensures MirrorOk(root, Reconciled(root, s, stale, removed, embedded))
  {
    hide MirrorOk, Run;
    var touched := removed + Map(TagId(), stale);
    if touched != [] {
      RunKeeps(root, s, Transaction(TAG, touched, embedded));
    }
  }

  lemma RunFour(root: real -> real, s: State, l1: Label, l2: Label, l3: Label, l4: Label)
    ensures Run(root, s, [l1, l2] + [l3, l4]) == Next(root, Next(root, Next(root, Next(root, s, l1), l2), l3), l4)
  {
    hide Run, Next;
    RunTwice(root, s, [l1, l2], [l3, l4]);
    RunTwoSteps(root, s, l1, l2);
    RunTwoSteps(root, Run(root, s, [l1, l2]), l3, l4);
  }

  lemma ForgetsAll(root: real -> real, r: Row)
    requires r.sourceType == TAG
    ensures Filter(Sparing(OfType(TAG)), Loaded(root, [r])) == []
  {
    FilterMembers(NotEmpty(), Map(Loading(root), [r]));
    FilterNone(Sparing(OfType(TAG)), Loaded(root, [r]));
  }

  lemma NothingDiffers(s: State)
    requires s.chunks == []
    ensures Differs(s.chunks, [], map[], [], [])
  {
  }

  /** A failed purge, with the only tag deleted before the next reconcile: that reconcile finds nothing to do, and the row
      stays in the table with the index not knowing of it. */
  lemma RowLeftBehind(root: real -> real, r: Row)
    requires r.sourceType == TAG && |r.bytes| >= 4
    ensures var s := Run(root, Boot([r]), [BootRead([r]), BootSwap] + [PurgeMemory(TAG), PurgeRows(false)]);
            && s.loaded && s.phase.Free? && s.table == [r]
            && Differs(s.chunks, [], map[], [], []) && Reconciled(root, s, [], [], []) == s
            && !Mirrors(root, s.chunks, s.table)
  {
    hide Run, Filter, Loaded, Mirrors, Differs;
    RunFour(root, Boot([r]), BootRead([r]), BootSwap, PurgeMemory(TAG), PurgeRows(false));
    ForgetsAll(root, r);
    var s := Run(root, Boot([r]), [BootRead([r]), BootSwap] + [PurgeMemory(TAG), PurgeRows(false)]);
    assert s.table == [r] && s.chunks == [] && r in s.table;
    assert SourceOf(r) in s.unknown;
    IndexMirrorsExactly(root, [r], [BootRead([r]), BootSwap] + [PurgeMemory(TAG), PurgeRows(false)]);
    NothingDiffers(s);
    hide Next;
    assert [] + Map(TagId(), []) == [];
  }

  // ----- the next reconcile

  /** No two tags have one id. */
  predicate Distinct(tags: seq<Tag>) {
    forall i, j | 0 <= i < j < |tags| :: tags[i].id != tags[j].id
  }

  lemma {:induction false} LatestAdded(root: real -> real, embedded: seq<Embedded>, i: nat)
    requires i < |embedded| && forall j | i < j < |embedded| :: embedded[j].sourceId != embedded[i].sourceId
    ensures Latest(Map(Indexing(root, TAG), embedded), TAG, embedded[i].sourceId) == Some(Indexing(root, TAG)(embedded[i]))
    decreases |embedded|
  {
    var last := |embedded| - 1;
    assert Map(Indexing(root, TAG), embedded)[..last] == Map(Indexing(root, TAG), embedded[..last]);
    if i < last {
      assert embedded[last].sourceId != embedded[i].sourceId;
      LatestAdded(root, embedded[..last], i);
    }
  }

  lemma {:induction false} NoneAdded(root: real -> real, embedded: seq<Embedded>, id: int)
    requires forall e | e in embedded :: e.sourceId != id
    ensures Latest(Map(Indexing(root, TAG), embedded), TAG, id) == None
  {
    if embedded != [] {
      var last := |embedded| - 1;
      assert embedded[last] in embedded;
      assert Map(Indexing(root, TAG), embedded)[..last] == Map(Indexing(root, TAG), embedded[..last]);
      NoneAdded(root, embedded[..last], id);
    }
  }

  lemma {:induction false} DistinctKept(p: Tag -> bool, tags: seq<Tag>)
    requires Distinct(tags)
    ensures Distinct(Filter(p, tags))
  {
    if tags != [] {
      var front, last := tags[..|tags| - 1], tags[|tags| - 1];
      DistinctKept(p, front);
      KeptTags(p, front);
      forall i | 0 <= i < |Filter(p, front)| ensures Filter(p, front)[i].id != last.id {
        assert Filter(p, front)[i] in front;
      }
    }
  }

  /** What the index holds for a tag after the reconcile: the new chunk, or none for a dropped tag, or what it held before. */
  lemma LatestAfter(root: real -> real, chunks: seq<Chunk>, stale: seq<Tag>, removed: seq<int>, embedded: seq<Embedded>, id: int)
    requires Embeds(embedded, stale) && Distinct(stale)
    ensures var c := Latest(Kept(TAG, removed + Map(TagId(), stale), chunks) + Map(Indexing(root, TAG), embedded), TAG, id);
            && (forall t | t in stale && t.id == id :: c.Some? && c.value.text == t.name)
            && ((forall t | t in stale :: t.id != id) ==> c == if id in removed then None else Latest(chunks, TAG, id))
  {
    var ids, added := removed + Map(TagId(), stale), Map(Indexing(root, TAG), embedded);
    LatestOfTwo(Kept(TAG, ids, chunks), added, TAG, id);
    LatestKept(chunks, TAG, ids, id);
    hide Kept, Latest;
    forall t | t in stale && t.id == id ensures Latest(added, TAG, id).Some? && Latest(added, TAG, id).value.text == t.name {
      var i :| 0 <= i < |stale| && stale[i] == t;
      LatestAdded(root, embedded, i);
    }
    if forall t | t in stale :: t.id != id {
      forall e | e in embedded ensures e.sourceId != id {
        var i :| 0 <= i < |embedded| && embedded[i] == e;
        assert stale[i] in stale;
      }
      NoneAdded(root, embedded, id);
      forall i | 0 <= i < |stale| ensures Map(TagId(), stale)[i] != id {
        assert stale[i] in stale;
      }
    }
  }

  /** A reconcile that went through leaves the next one of the same tags nothing to do. */
  lemma ReconcileSettles(root: real -> real, s: State, tags: seq<Tag>, indexed: map<int, Chunk>, stale: seq<Tag>, removed: seq<int>,
                         embedded: seq<Embedded>, indexed': map<int, Chunk>, stale': seq<Tag>, removed': seq<int>)
    requires s.phase.Free? && Distinct(tags)
    requires Differs(s.chunks, tags, indexed, stale, removed) && Embeds(embedded, stale)
    requires Differs(Reconciled(root, s, stale, removed, embedded).chunks, tags, indexed', stale', removed')
    ensures stale' == [] && removed' == []
  {
    hide Reconciled, Latest, Embeds, Kept, Map, Applied;
    var t := Reconciled(root, s, stale, removed, embedded);
    ReconciledState(root, s, stale, removed, embedded);
    DistinctKept(Stale(indexed), tags);
    KeptTags(Stale(indexed), tags);
    forall g | g in tags ensures !Stale(indexed')(g) {
      LatestAfter(root, s.chunks, stale, removed, embedded, g.id);
      assert Holds(indexed, g.id, Latest(s.chunks, TAG, g.id));
      assert Holds(indexed', g.id, Latest(t.chunks, TAG, g.id));
      NamedIsSettled(tags, stale, removed, g, indexed);
    }
    FilterNone(Stale(indexed'), tags);
    forall id | id in indexed' ensures Current(tags, id) {
      LatestAfter(root, s.chunks, stale, removed, embedded, id);
      assert Holds(indexed, id, Latest(s.chunks, TAG, id));
      assert Holds(indexed', id, Latest(t.chunks, TAG, id));
      if g :| g in stale && g.id == id {
        assert Names(g, id);
      }
    }
    SomeIn(removed');
  }

  lemma SomeIn(ids: seq<int>)
    ensures ids == [] || exists id :: id in ids
  {
    if ids != [] {
      var id := ids[0];
      assert id in ids;
    }
  }

  /** A named tag that is not stale shares its id with no stale one, and is not removed. */
  lemma NamedIsSettled(tags: seq<Tag>, stale: seq<Tag>, removed: seq<int>, g: Tag, indexed: map<int, Chunk>)
    requires Distinct(tags) && g in tags && stale == Filter(Stale(indexed), tags)
    requires forall id :: id in removed <==> id in indexed && !Current(tags, id)
    ensures !IsBlank(g.name) ==> g.id !in removed
    ensures !IsBlank(g.name) && g !in stale ==> forall t | t in stale :: t.id != g.id
    ensures g in stale <==> Stale(indexed)(g)
  {
    KeptTags(Stale(indexed), tags);
    if !IsBlank(g.name) {
      assert Names(g, g.id);
    }
    forall t | t in stale && t.id == g.id ensures t == g {
      var i :| 0 <= i < |tags| && tags[i] == t;
      var j :| 0 <= j < |tags| && tags[j] == g;
    }
  }

  // ----- tags and index in step

  /** The name has a character that is no white space. */
  predicate HasName(t: Tag) {
    exists i :: 0 <= i < |t.name| && !IsSpace(t.name[i])
  }

  /** The last chunk of the tag has its name. */
  predicate Shown(chunks: seq<Chunk>, t: Tag) {
    exists i :: 0 <= i < |chunks| && ShownAt(chunks, t, i)
  }

  predicate ShownAt(chunks: seq<Chunk>, t: Tag, i: nat)
    requires i < |chunks|
  {
    && chunks[i].sourceType == "tag" && chunks[i].sourceId == t.id && chunks[i].text == t.name
    && forall j | i < j < |chunks| :: chunks[j].sourceType == "tag" ==> chunks[j].sourceId != t.id
  }

  /** Every tag with a name is in the index under it. */
  predicate AllShown(tags: seq<Tag>, chunks: seq<Chunk>) {
    forall t | t in tags && HasName(t) :: Shown(chunks, t)
  }

  /** Every tag in the index is there, with a name. */
  predicate NoneGone(tags: seq<Tag>, chunks: seq<Chunk>) {
    forall c | c in chunks && c.sourceType == "tag" :: exists t :: t in tags && t.id == c.sourceId && HasName(t)
  }

  lemma {:induction false} ShownIsLatest(chunks: seq<Chunk>, t: Tag)
    ensures Shown(chunks, t) <==> Latest(chunks, TAG, t.id).Some? && Latest(chunks, TAG, t.id).value.text == t.name
  {
    if chunks != [] {
      var front, last := chunks[..|chunks| - 1], |chunks| - 1;
      ShownIsLatest(front, t);
      if IsOf(chunks[last], TAG, t.id) {
        assert ShownAt(chunks, t, last) <==> chunks[last].text == t.name;
      } else {
        forall i | 0 <= i < last ensures ShownAt(chunks, t, i) <==> ShownAt(front, t, i) {
          ShownEarlier(chunks, t, i);
        }
      }
    }
  }

  lemma ShownEarlier(chunks: seq<Chunk>, t: Tag, i: nat)
    requires i < |chunks| - 1 && !IsOf(chunks[|chunks| - 1], TAG, t.id)
    ensures ShownAt(chunks, t, i) <==> ShownAt(chunks[..|chunks| - 1], t, i)
  {
    var front := chunks[..|chunks| - 1];
    forall j | i < j < |front| ensures front[j] == chunks[j] {}
  }

  lemma NamedIsCurrent(tags: seq<Tag>, id: int)
    ensures Current(tags, id) <==> exists t :: t in tags && t.id == id && HasName(t)
  {
    if t :| t in tags && t.id == id && HasName(t) {
      assert Names(t, id);
    }
    if Current(tags, id) {
      var t :| t in tags && Names(t, id);
      assert HasName(t);
    }
  }

  /** A tag is stale exactly when it has a name and the index does not show it. */
  lemma StaleIsUnshown(chunks: seq<Chunk>, indexed: map<int, Chunk>, t: Tag)
    requires IsBySource(indexed, TAG, chunks)
    ensures Stale(indexed)(t) <==> HasName(t) && !Shown(chunks, t)
  {
    ShownIsLatest(chunks, t);
    assert Holds(indexed, t.id, Latest(chunks, TAG, t.id));
  }

  lemma StaleOutright(tags: seq<Tag>, chunks: seq<Chunk>, indexed: map<int, Chunk>)
    requires IsBySource(indexed, TAG, chunks)
    ensures Filter(Stale(indexed), tags) == Filter((t: Tag) => HasName(t) && !Shown(chunks, t), tags)
  {
    forall t ensures Stale(indexed)(t) == (HasName(t) && !Shown(chunks, t)) {
      StaleIsUnshown(chunks, indexed, t);
    }
    hide Stale, HasName, Shown, Filter;
    SameFilter(Stale(indexed), (t: Tag) => HasName(t) && !Shown(chunks, t), tags);
  }

  /** There is nothing to embed exactly when all tags are shown, and nothing to drop exactly when none in the index is gone. */
  lemma NothingToDo(tags: seq<Tag>, chunks: seq<Chunk>, indexed: map<int, Chunk>, stale: seq<Tag>, removed: seq<int>)
    requires Differs(chunks, tags, indexed, stale, removed)
    ensures stale == [] <==> AllShown(tags, chunks)
    ensures removed == [] <==> NoneGone(tags, chunks)
  {
    hide HasName, Shown, Latest, IsBySource;
    forall t ensures Stale(indexed)(t) <==> HasName(t) && !Shown(chunks, t) {
      StaleIsUnshown(chunks, indexed, t);
    }
    hide Stale;
    KeptTags(Stale(indexed), tags);
    if AllShown(tags, chunks) {
      FilterNone(Stale(indexed), tags);
    }
    NothingToDrop(tags, chunks, indexed, removed);
  }

  lemma NothingToDrop(tags: seq<Tag>, chunks: seq<Chunk>, indexed: map<int, Chunk>, removed: seq<int>)
    requires IsBySource(indexed, TAG, chunks)
    requires forall id :: id in removed <==> id in indexed && !Current(tags, id)
    ensures removed == [] <==> NoneGone(tags, chunks)
  {
    hide HasName, Latest;
    forall id ensures Holds(indexed, id, Latest(chunks, TAG, id)) {}
    forall id ensures Current(tags, id) <==> exists t :: t in tags && t.id == id && HasName(t) {
      NamedIsCurrent(tags, id);
    }
    hide Current, IsBySource;
    if removed == [] {
      forall c | c in chunks && c.sourceType == "tag" ensures Current(tags, c.sourceId) {
        LatestIsOne(chunks, TAG, c.sourceId);
        assert IsOf(c, TAG, c.sourceId) && Holds(indexed, c.sourceId, Latest(chunks, TAG, c.sourceId));
      }
    } else if NoneGone(tags, chunks) {
      var id := removed[0];
      assert id in removed && Holds(indexed, id, Latest(chunks, TAG, id));
      LatestIsOne(chunks, TAG, id);
    }
  }

  /** After the replacement every named tag is shown and no other one is in the index. */
  lemma ReplacedIsInStep(root: real -> real, chunks: seq<Chunk>, tags: seq<Tag>, indexed: map<int, Chunk>,
                         stale: seq<Tag>, removed: seq<int>, embedded: seq<Embedded>)
    requires Distinct(tags) && Differs(chunks, tags, indexed, stale, removed) && Embeds(embedded, stale)
    ensures var after := Kept(TAG, removed + Map(TagId(), stale), chunks) + Map(Indexing(root, TAG), embedded);
            AllShown(tags, after) && NoneGone(tags, after)
  {
    hide HasName, Shown, Latest, Kept, Map, Embeds, Filter;
    var after := Kept(TAG, removed + Map(TagId(), stale), chunks) + Map(Indexing(root, TAG), embedded);
    DistinctKept(Stale(indexed), tags);
    KeptTags(Stale(indexed), tags);
    forall t | t in tags && HasName(t) ensures Shown(after, t) {
      LatestAfter(root, chunks, stale, removed, embedded, t.id);
      NamedIsSettled(tags, stale, removed, t, indexed);
      assert Holds(indexed, t.id, Latest(chunks, TAG, t.id));
      NamedIsCurrent([t], t.id);
      ShownIsLatest(after, t);
    }
    forall c | c in after && c.sourceType == "tag" ensures exists t :: t in tags && t.id == c.sourceId && HasName(t) {
      LatestAfter(root, chunks, stale, removed, embedded, c.sourceId);
      LatestIsOne(after, TAG, c.sourceId);
      assert IsOf(c, TAG, c.sourceId) && Holds(indexed, c.sourceId, Latest(chunks, TAG, c.sourceId));
      NamedIsCurrent(tags, c.sourceId);
      if t :| t in stale && t.id == c.sourceId {
        assert Names(t, c.sourceId);
      }
    }
  }

  // ----- the handler

  function Embedding(vector: Tag -> seq<Float32>): Tag -> Embedded {
    (t: Tag) => Embedded(t.id, t.name, vector(t))
  }

  /** Rows and chunks of the tags that differ are replaced, in table and index. */
  ghost predicate ReplacesDiff(root: real -> real, tags: seq<Tag>, vector: Tag -> seq<Float32>,
                               table: seq<Row>, chunks: seq<Chunk>, table': seq<Row>, chunks': seq<Chunk>) {
    exists indexed, stale, removed :: Differs(chunks, tags, indexed, stale, removed) &&
      var ids := removed + Map(TagId(), stale);
      var added := Map(Indexing(root, TAG), Map(Embedding(vector), stale));
      table' == Applied(Replace(TAG, ids, Map(Storing(TAG), added)), table) && chunks' == Kept(TAG, ids, chunks) + added
  }

  lemma {:induction false} EmbeddingEmbeds(vector: Tag -> seq<Float32>, stale: seq<Tag>)
    ensures Embeds(Map(Embedding(vector), stale), stale)
  {
  }

  /** A replacement of sources of one type leaves the chunks and rows of the other types what they were. */
  lemma OthersStay(sourceType: string, ids: seq<int>, added: seq<Chunk>, chunks: seq<Chunk>, table: seq<Row>)
    requires forall c | c in added :: c.sourceType == sourceType
    ensures Filter((c: Chunk) => c.sourceType != sourceType, Kept(sourceType, ids, chunks) + added) ==
            Filter((c: Chunk) => c.sourceType != sourceType, chunks)
    ensures Filter((r: Row) => r.sourceType != sourceType, Applied(Replace(sourceType, ids, Map(Storing(sourceType), added)), table)) ==
            Filter((r: Row) => r.sourceType != sourceType, table)
  {
    var p, q := (c: Chunk) => c.sourceType != sourceType, (r: Row) => r.sourceType != sourceType;
    FilterConcat(p, Kept(sourceType, ids, chunks), added);
    FilterNone(p, added);
    FilterWithin(p, Sparing(Hitting(sourceType, ids)), chunks);
    var rows := Map(Storing(sourceType), added);
    FilterConcat(q, Filter(OtherSources(sourceType, ids), table), rows);
    FilterNone(q, rows);
    FilterWithin(q, OtherSources(sourceType, ids), table);
    SameFilter(p, (c: Chunk) => c.sourceType != sourceType, chunks);
    SameFilter(p, (c: Chunk) => c.sourceType != sourceType, Kept(sourceType, ids, chunks) + added);
    SameFilter(q, (r: Row) => r.sourceType != sourceType, table);
    SameFilter(q, (r: Row) => r.sourceType != sourceType, Applied(Replace(sourceType, ids, rows), table));
  }

  lemma {:induction false} FilterWithin<T>(p: T -> bool, q: T -> bool, s: seq<T>)
    requires forall x | x in s && p(x) :: q(x)
    ensures Filter(p, Filter(q, s)) == Filter(p, s)
  {
    if s != [] {
      FilterWithin(p, q, s[..|s| - 1]);
      FilterConcat(p, Filter(q, s[..|s| - 1]), [s[|s| - 1]]);
    }
  }

  /** Embeds what is missing or renamed and drops what is gone, in one replacement; gives up if the provider fails or a
      purge came in between. */
  method ReconcileTags(m: Manager, tags: seq<Tag>, vector: Tag -> seq<Float32>, providerOk: bool, superseded: bool, faults: Faults)
    returns (replaced: bool)
    modifies m`table, m.index
    ensures !replaced ==> m.table == old(m.table) && m.index.chunks == old(m.index.chunks)
    ensures replaced ==> ReplacesDiff(m.root, tags, vector, old(m.table), old(m.index.chunks), m.table, m.index.chunks)
    ensures old(Mirrors(m.root, m.index.chunks, m.table)) ==> Mirrors(m.root, m.index.chunks, m.table)
    // it goes through exactly when tags and index differ and no call fails, and then they are in step
    ensures replaced <==>
              && !(AllShown(tags, old(m.index.chunks)) && NoneGone(tags, old(m.index.chunks)))
              && (providerOk || AllShown(tags, old(m.index.chunks))) && !superseded
              && !faults.begin && !faults.clear && !faults.commit
              && forall i | 0 <= i < |Filter((t: Tag) => HasName(t) && !Shown(old(m.index.chunks), t), tags)| :: !faults.insert(i)
    ensures replaced && Distinct(tags) ==> AllShown(tags, m.index.chunks) && NoneGone(tags, m.index.chunks)
    ensures Filter((c: Chunk) => c.sourceType != "tag", m.index.chunks) == Filter((c: Chunk) => c.sourceType != "tag", old(m.index.chunks))
    ensures Filter((r: Row) => r.sourceType != "tag", m.table) == Filter((r: Row) => r.sourceType != "tag", old(m.table))
  {
    hide Mirrors, Filter, Map, Kept, Applied, WellBuilt, AllShown, NoneGone, Shown, HasName, Latest, Stale, Distinct;
    var indexed := ChunksBySourceId(m.index.chunks, TAG);
    var stale, removed := DiffTagIndex(tags, indexed);
    assert Differs(m.index.chunks, tags, indexed, stale, removed);
    NothingToDo(tags, m.index.chunks, indexed, stale, removed);
    StaleOutright(tags, m.index.chunks, indexed);
    if (stale == [] && removed == []) || (stale != [] && !providerOk) {
      return false;
    }
    var chunks := m.EmbedSource(TAG, Map(Embedding(vector), stale));
    IndexedAreWellBuilt(m.root, TAG, Map(Embedding(vector), stale));
    if superseded {
      return false;
    }
    replaced := m.CommitEmbeddings(TAG, removed + Map(TagId(), stale), chunks, faults);
    if replaced {
      OthersStay(TAG, removed + Map(TagId(), stale), chunks, old(m.index.chunks), old(m.table));
      if Distinct(tags) {
        EmbeddingEmbeds(vector, stale);
        ReplacedIsInStep(m.root, old(m.index.chunks), tags, indexed, stale, removed, Map(Embedding(vector), stale));
      }
    }
  }
}
