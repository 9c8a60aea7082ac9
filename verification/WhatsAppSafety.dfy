/** What every interleaving of workers and agents keeps: each message stored once, one open conversation
    per contact and inbox, nothing reported as done that is not, no placeholder for a cancelled download. */
module WhatsAppSafety {
  import opened Prelude
  import opened KeyedLocks
  import opened WhatsAppPipeline
  import opened WhatsAppLockPart

  /** What a settled message is entitled to say about itself. */
  predicate FateOk(table: seq<Row>, m: Msg, fate: Fate) {
    match fate
    case Stored => InTable(table, m.id)
    case Dropped(IgnoredType) => m.kind in IGNORED_TYPES
    case Dropped(SystemEvent) => m.kind == "system"
    case Dropped(NoEnabledInbox(seen)) => NoneTakes(seen, m)
    case Dropped(ContactDisabled(contact, disabled)) => contact in disabled
    case Errored => true
  }

  predicate InFlight(th: Thread) {
    |th.fates| < |th.msgs|
  }

  ghost predicate FatesFine(table: seq<Row>, th: Thread) {
    && |th.fates| <= |th.msgs|
    && (forall i | 0 <= i < |th.fates| :: FateOk(table, th.msgs[i], th.fates[i]))
    && (th.pc.LeaveConv? || th.pc.LeftConv? || th.pc.LeaveSender? || th.pc.LeftSender? ==>
          InFlight(th) && FateOk(table, Current(th), th.pc.fate))
    && (th.pc.Inserted? ==> InFlight(th) && InTable(table, Current(th).id))
  }

  predicate AboutToStore(pc: Pc) {
    pc.Missing? || pc.Fetched? || pc.Checked? || pc.WantConv? || pc.HaveConv? || pc.NoneOpen? || pc.Chosen?
  }

  /** Between the duplicate check and the insert the message is not in the table. */
  predicate NotYetStored(table: seq<Row>, th: Thread) {
    AboutToStore(th.pc) ==> InFlight(th) && !InTable(table, Current(th).id)
  }

  predicate MediaFine(th: Thread) {
    && (th.pc.Fetched? && th.pc.media.CutShort? ==> th.cancelled)
    && (th.pc.Checked? || th.pc.WantConv? || th.pc.HaveConv? || th.pc.NoneOpen? || th.pc.Chosen? ==> !th.pc.media.CutShort?)
  }

  /** No conversation of the pair is open except, perhaps, this one. */
  ghost predicate OnlyOpen(convs: map<nat, Conv>, pair: Pair, conv: nat) {
    && conv in convs && convs[conv].pair == pair
    && forall c | c in convs && IsOpen(convs, c, pair) :: c == conv
  }

  ghost predicate ConvFine(convs: map<nat, Conv>, pc: Pc) {
    && (pc.NoneOpen? || pc.AgentNone? ==> !AnyOpen(convs, pc.pair))
    && (pc.Chosen? || pc.Inserted? ==> OnlyOpen(convs, pc.pair, pc.conv))
    && (pc.AgentSend? || pc.AgentUndo? ==> pc.conv in convs && convs[pc.conv].pair == pc.pair)
  }

  ghost predicate SendersFine(senderOf: string -> string, msgs: seq<Msg>) {
    forall i | 0 <= i < |msgs| :: msgs[i].from == senderOf(msgs[i].id)
  }

  ghost predicate ThreadFine(senderOf: string -> string, table: seq<Row>, convs: map<nat, Conv>, th: Thread) {
    && SendersFine(senderOf, th.msgs)
    && FatesFine(table, th)
    && NotYetStored(table, th)
    && MediaFine(th)
    && ConvFine(convs, th.pc)
  }

  /** At most one open conversation per contact and inbox. */
  ghost predicate OneOpen(convs: map<nat, Conv>) {
    forall a, b | a in convs && b in convs && convs[a].open && convs[b].open && convs[a].pair == convs[b].pair :: a == b
  }

  /** No message id twice, and no row made from a cancelled download. */
  ghost predicate TableFine(table: seq<Row>) {
    && (forall i, j | 0 <= i < j < |table| :: table[i].id != table[j].id)
    && (forall i | 0 <= i < |table| :: !table[i].media.CutShort?)
  }

  /** A delivery that returned nil has every message stored, or dropped for a coded reason. */
  ghost predicate ReceiptFine(table: seq<Row>, r: Receipt) {
    r.ok ==> |r.fates| == |r.msgs| && forall i | 0 <= i < |r.msgs| :: r.fates[i] != Errored && FateOk(table, r.msgs[i], r.fates[i])
  }

  ghost predicate DataPart(senderOf: string -> string, s: State) {
    && (forall t | t in s.threads :: ThreadFine(senderOf, s.table, s.convs, s.threads[t]))
    && OneOpen(s.convs) && TableFine(s.table)
    && (forall i | 0 <= i < |s.receipts| :: ReceiptFine(s.table, s.receipts[i]))
  }

  ghost predicate Inv(senderOf: string -> string, s: State) {
    LockPart(s) && DataPart(senderOf, s)
  }

  // ----- exclusion, from the locks

  lemma SameSenderSameThread(s: State, t: Tid, u: Tid)
    requires LockPart(s) && t in s.threads && u in s.threads
    requires SenderStage(s.threads[t].pc) == Some(Holding) && SenderStage(s.threads[u].pc) == Some(Holding)
    requires InFlight(s.threads[t]) && InFlight(s.threads[u]) && Current(s.threads[t]).from == Current(s.threads[u]).from
    ensures t == u
  {
    hide LocksOk;
    assert SenderAgrees(s, t) && SenderAgrees(s, u);
    MutualExclusion(s.sender, t, u, Current(s.threads[t]).from);
  }

  lemma SamePairSameThread(s: State, t: Tid, u: Tid)
    requires LockPart(s) && t in s.threads && u in s.threads
    requires ConvStage(s.threads[t].pc) == Some(Holding) && ConvStage(s.threads[u].pc) == Some(Holding)
    requires s.threads[t].pc.pair == s.threads[u].pc.pair
    ensures t == u
  {
    hide LocksOk;
    assert ConvAgrees(s, t) && ConvAgrees(s, u);
    MutualExclusion(s.conv, t, u, s.threads[t].pc.pair);
  }

  // ----- a step of thread t seen from the other threads

  lemma QuietStep(senderOf: string -> string, s: State, s': State, t: Tid)
    requires DataPart(senderOf, s) && OnlyAt(s.threads, s'.threads, t)
    requires s'.table == s.table && s'.convs == s.convs && s'.receipts == s.receipts
    requires t in s'.threads ==> ThreadFine(senderOf, s.table, s.convs, s'.threads[t])
    ensures DataPart(senderOf, s')
  {
    hide ThreadFine, OneOpen, TableFine, ReceiptFine;
  }

  lemma InTableAfter(table: seq<Row>, row: Row, id: string)
    ensures InTable(table + [row], id) <==> InTable(table, id) || id == row.id
  {
    if InTable(table, id) {
      var i :| 0 <= i < |table| && table[i].id == id;
      assert (table + [row])[i].id == id;
    }
    if id == row.id {
      assert (table + [row])[|table|].id == id;
    }
  }

  lemma FateOkAfter(table: seq<Row>, row: Row, m: Msg, fate: Fate)
    requires FateOk(table, m, fate)
    ensures FateOk(table + [row], m, fate)
  {
    InTableAfter(table, row, m.id);
  }

  lemma OthersAfterInsert(senderOf: string -> string, table: seq<Row>, convs: map<nat, Conv>, row: Row, th: Thread)
    requires ThreadFine(senderOf, table, convs, th)
    requires AboutToStore(th.pc) ==> Current(th).id != row.id
    ensures ThreadFine(senderOf, table + [row], convs, th)
  {
    hide InTable, ConvFine, SendersFine;
    forall m, fate | FateOk(table, m, fate) ensures FateOk(table + [row], m, fate) {
      FateOkAfter(table, row, m, fate);
    }
    forall id ensures InTable(table + [row], id) <==> InTable(table, id) || id == row.id {
      InTableAfter(table, row, id);
    }
  }

  lemma InsertStep(senderOf: string -> string, s: State, s': State, t: Tid, row: Row)
    requires LockPart(s) && DataPart(senderOf, s) && t in s.threads && s.threads[t].pc.Chosen?
    requires row.id == Current(s.threads[t]).id && !row.media.CutShort?
    requires OnlyAt(s.threads, s'.threads, t) && s'.table == s.table + [row] && s'.convs == s.convs && s'.receipts == s.receipts
    requires t in s'.threads && ThreadFine(senderOf, s'.table, s.convs, s'.threads[t])
    ensures DataPart(senderOf, s')
  {
    hide LockPart, OneOpen, ReceiptFine, FatesFine, ConvFine, InTable;
    var th := s.threads[t];
    assert InFlight(th) && !InTable(s.table, row.id);
    NotInTable(s.table, row.id);
    forall u | u in s'.threads && u != t ensures ThreadFine(senderOf, s'.table, s'.convs, s'.threads[u]) {
      var other := s.threads[u];
      if AboutToStore(other.pc) && Current(other).id == row.id {
        SameSenderSameThread(s, t, u);
      }
      OthersAfterInsert(senderOf, s.table, s.convs, row, other);
    }
    forall i | 0 <= i < |s.receipts| ensures ReceiptFine(s'.table, s.receipts[i]) {
      ReceiptAfter(s.table, row, s.receipts[i]);
    }
  }

  lemma NotInTable(table: seq<Row>, id: string)
    requires !InTable(table, id)
    ensures forall i | 0 <= i < |table| :: table[i].id != id
  {
  }

  lemma ReceiptAfter(table: seq<Row>, row: Row, r: Receipt)
    requires ReceiptFine(table, r)
    ensures ReceiptFine(table + [row], r)
  {
    hide FateOk;
    if r.ok {
      forall i | 0 <= i < |r.msgs| ensures FateOk(table + [row], r.msgs[i], r.fates[i]) {
        FateOkAfter(table, row, r.msgs[i], r.fates[i]);
      }
    }
  }

  /** Conversations of other pairs are as they were. */
  ghost predicate OnlyPair(convs: map<nat, Conv>, convs': map<nat, Conv>, pair: Pair) {
    && (forall c | c in convs && convs[c].pair != pair :: c in convs' && convs'[c] == convs[c])
    && (forall c | c in convs' && convs'[c].pair != pair :: c in convs && convs'[c] == convs[c])
  }

  lemma OthersAfterConvChange(convs: map<nat, Conv>, convs': map<nat, Conv>, pair: Pair, pc: Pc)
    requires ConvFine(convs, pc) && OnlyPair(convs, convs', pair)
    requires pc.NoneOpen? || pc.AgentNone? || pc.Chosen? || pc.Inserted? || pc.AgentSend? || pc.AgentUndo? ==> pc.pair != pair
    ensures ConvFine(convs', pc)
  {
  }

  lemma ConvStep(senderOf: string -> string, s: State, s': State, t: Tid)
    requires LockPart(s) && DataPart(senderOf, s) && t in s.threads && ConvStage(s.threads[t].pc) == Some(Holding)
    requires OnlyAt(s.threads, s'.threads, t) && s'.table == s.table && s'.receipts == s.receipts
    requires OnlyPair(s.convs, s'.convs, s.threads[t].pc.pair) && OneOpen(s'.convs)
    requires t in s'.threads ==> ThreadFine(senderOf, s.table, s'.convs, s'.threads[t])
    ensures DataPart(senderOf, s')
  {
    hide LockPart, OneOpen, OnlyPair, ConvFine, FatesFine, NotYetStored, MediaFine, SendersFine, TableFine, ReceiptFine;
    var pair := s.threads[t].pc.pair;
    forall u | u in s'.threads && u != t ensures ThreadFine(senderOf, s'.table, s'.convs, s'.threads[u]) {
      var pc := s.threads[u].pc;
      if pc.NoneOpen? || pc.AgentNone? || pc.Chosen? || pc.Inserted? || pc.AgentSend? || pc.AgentUndo? {
        if pc.pair == pair {
          SamePairSameThread(s, t, u);
        }
      }
      OthersAfterConvChange(s.convs, s'.convs, pair, pc);
    }
  }

  // ----- every step

  lemma ThreadOf(senderOf: string -> string, s: State, t: Tid)
    requires DataPart(senderOf, s) && t in s.threads
    ensures ThreadFine(senderOf, s.table, s.convs, s.threads[t]) && OneOpen(s.convs)
  {
  }

  lemma ThreadConvs(senderOf: string -> string, s: State, th: Thread)
    requires ThreadFine(senderOf, s.table, s.convs, th)
    ensures ConvFine(s.convs, th.pc)
  {
    hide SendersFine, FatesFine, NotYetStored, MediaFine, ConvFine;
  }

  lemma FateOkCases(table: seq<Row>, m: Msg)
    ensures FateOk(table, m, Errored)
    ensures forall inboxes :: NoneTakes(inboxes, m) ==> FateOk(table, m, Dropped(NoEnabledInbox(inboxes)))
    ensures forall contact, disabled :: contact in disabled ==> FateOk(table, m, Dropped(ContactDisabled(contact, disabled)))
    ensures InTable(table, m.id) ==> FateOk(table, m, Stored)
  {
  }

  /** A worker that has not stored anything may go to a place where nothing is claimed but a good fate. */
  lemma QuietThread(senderOf: string -> string, s: State, th: Thread, pc: Pc)
    requires ThreadFine(senderOf, s.table, s.convs, th) && InFlight(th)
    requires pc.Resolved? || pc.Known? || pc.WantSender? || pc.HaveSender? || pc.LeftSender? || pc.LeaveSender?
    requires pc.LeaveSender? || pc.LeftSender? ==> FateOk(s.table, Current(th), pc.fate)
    ensures ThreadFine(senderOf, s.table, s.convs, th.(pc := pc))
  {
    hide SendersFine, FateOk, InTable;
  }

  /** A step that moves its thread to a place it is fit for, and leaves the tables alone. */
  lemma GotoData(senderOf: string -> string, s: State, s1: State, t: Tid, pc: Pc)
    requires DataPart(senderOf, s) && t in s.threads && s1.threads == s.threads
    requires s1.table == s.table && s1.convs == s.convs && s1.receipts == s.receipts
    requires ThreadFine(senderOf, s.table, s.convs, s.threads[t].(pc := pc))
    ensures DataPart(senderOf, Goto(s1, t, pc))
  {
    hide DataPart, ThreadFine;
    QuietStep(senderOf, s, Goto(s1, t, pc), t);
  }

  /** An agent may go wherever the conversations allow it. */
  lemma AgentThread(senderOf: string -> string, s: State, th: Thread, pc: Pc)
    requires ThreadFine(senderOf, s.table, s.convs, th) && IsAgent(pc) && ConvFine(s.convs, pc)
    ensures ThreadFine(senderOf, s.table, s.convs, th.(pc := pc))
  {
    hide SendersFine, FateOk, InTable, ConvFine;
  }

  /** A worker may leave the locks with a good fate. */
  lemma LeavingThread(senderOf: string -> string, s: State, th: Thread, pc: Pc)
    requires ThreadFine(senderOf, s.table, s.convs, th) && InFlight(th)
    requires (pc.LeaveConv? || pc.LeftConv?) && FateOk(s.table, Current(th), pc.fate)
    ensures ThreadFine(senderOf, s.table, s.convs, th.(pc := pc))
  {
    hide SendersFine, FateOk, InTable;
  }

  /** A message that is not in the table yet may be fetched. */
  lemma FetchingThread(senderOf: string -> string, s: State, th: Thread, pc: Pc)
    requires ThreadFine(senderOf, s.table, s.convs, th) && InFlight(th) && !InTable(s.table, Current(th).id)
    requires pc.Missing? || pc.Fetched? || pc.Checked?
    requires pc.Fetched? && pc.media.CutShort? ==> th.cancelled
    requires pc.Checked? ==> !pc.media.CutShort?
    ensures ThreadFine(senderOf, s.table, s.convs, th.(pc := pc))
  {
    hide SendersFine, FateOk, InTable;
  }

  /** A message on its way to the table may be put into any conversation it was looked up for. */
  lemma StoringThread(senderOf: string -> string, s: State, th: Thread, pc: Pc)
    requires ThreadFine(senderOf, s.table, s.convs, th) && InFlight(th) && AboutToStore(th.pc) && AboutToStore(pc)
    requires (th.pc.HaveConv? || th.pc.NoneOpen?) && (pc.NoneOpen? || pc.Chosen?) && pc.media == th.pc.media && ConvFine(s.convs, pc)
    ensures ThreadFine(senderOf, s.table, s.convs, th.(pc := pc))
  {
    hide SendersFine, FateOk, InTable, ConvFine;
  }

  /** Where the search for the inbox leaves the worker. */
  lemma FindInboxCases(s: State, t: Tid, m: Msg, inbox: int)
    requires t in s.threads && s.threads[t].pc.HaveSender?
    ensures var s' := FindInbox(s, t, m, inbox);
            && s' == s.(threads := s'.threads) && t in s'.threads && s'.threads == s.threads[t := s.threads[t].(pc := s'.threads[t].pc)]
            && var pc := s'.threads[t].pc;
               || pc.Resolved? || pc.HaveSender? || pc == LeaveSender(Errored)
               || (pc == LeaveSender(Dropped(NoEnabledInbox(s.inboxes))) && NoneTakes(s.inboxes, m))
  {
    hide AnyServes;
    assert s.threads == s.threads[t := s.threads[t]];
  }

  /** A worker settles its message with a good fate. */
  lemma SettledThread(senderOf: string -> string, s: State, th: Thread, fate: Fate)
    requires ThreadFine(senderOf, s.table, s.convs, th) && InFlight(th) && FateOk(s.table, Current(th), fate)
    ensures ThreadFine(senderOf, s.table, s.convs, th.(fates := th.fates + [fate], pc := Ready))
  {
    hide SendersFine, FateOk, InTable;
  }

  lemma BeginFates(s: State, t: Tid, c: Choice)
    requires t in s.threads && s.threads[t].pc.Ready? && InFlight(s.threads[t])
    ensures var th := s.threads[t];
            var s' := Begin(s, t, c);
            && s' == s.(sender := s'.sender, threads := s'.threads) && t in s'.threads
            && s'.threads == s.threads[t := s'.threads[t]]
            && (|| s'.threads[t] == th.(pc := WantSender) || s'.threads[t] == th
                || exists fate :: FateOk(s.table, Current(th), fate) && s'.threads[t] == th.(fates := th.fates + [fate], pc := Ready))
  {
    hide InTable, Register, Countable;
    var th := s.threads[t];
    var m := Current(th);
    assert s.threads == s.threads[t := th];
    if m.id == "" || m.from == "" {
      assert FateOk(s.table, m, Errored);
    } else if m.kind in IGNORED_TYPES {
      assert FateOk(s.table, m, Dropped(IgnoredType));
    } else if m.kind == "system" {
      assert FateOk(s.table, m, if c.ok then Dropped(SystemEvent) else Errored);
    }
  }

  lemma BeginData(senderOf: string -> string, s: State, t: Tid, c: Choice)
    requires DataPart(senderOf, s) && t in s.threads && s.threads[t].pc.Ready? && InFlight(s.threads[t])
    ensures DataPart(senderOf, Begin(s, t, c))
  {
    hide DataPart, ThreadFine, FateOk, OneOpen;
    var th := s.threads[t];
    ThreadOf(senderOf, s, t);
    BeginFates(s, t, c);
    hide Begin;
    var s' := Begin(s, t, c);
    if s'.threads[t] == th.(pc := WantSender) {
      QuietThread(senderOf, s, th, WantSender);
    } else if s'.threads[t] != th {
      var fate :| FateOk(s.table, Current(th), fate) && s'.threads[t] == th.(fates := th.fates + [fate], pc := Ready);
      SettledThread(senderOf, s, th, fate);
    }
    QuietStep(senderOf, s, s', t);
  }

  /** Steps at the two locks that leave the tables alone. */
  lemma QuietSenderIn(senderOf: string -> string, s: State, t: Tid, c: Choice)
    requires DataPart(senderOf, s) && t in s.threads && InFlight(s.threads[t]) && s.threads[t].pc.WantSender?
    ensures DataPart(senderOf, Ingest(s, t, c))
  {
    hide DataPart, ThreadFine, FateOk, OneOpen, Acquire, CanAcquire, ConvLockStep, ResolveStep, MediaStep, Lookup, StoreStep;
    ThreadOf(senderOf, s, t);
    QuietThread(senderOf, s, s.threads[t], HaveSender);
    QuietStep(senderOf, s, Ingest(s, t, c), t);
  }

  lemma LockingThread(senderOf: string -> string, s: State, th: Thread, pc: Pc)
    requires ThreadFine(senderOf, s.table, s.convs, th) && (th.pc.Checked? || th.pc.WantConv?)
    requires (pc.WantConv? || pc.HaveConv?) && pc.media == th.pc.media
    ensures ThreadFine(senderOf, s.table, s.convs, th.(pc := pc))
  {
    hide SendersFine, FateOk, InTable;
  }

  lemma QuietConvIn(senderOf: string -> string, s: State, t: Tid, c: Choice)
    requires DataPart(senderOf, s) && t in s.threads && InFlight(s.threads[t])
    requires var pc := s.threads[t].pc; pc.Checked? || pc.WantConv?
    ensures DataPart(senderOf, Ingest(s, t, c))
  {
    hide OneOpen, ThreadFine, DataPart, Register, Acquire, Goto, SenderStep, ResolveStep, MediaStep, Lookup, StoreStep;
    var th := s.threads[t];
    var pc := th.pc;
    ThreadOf(senderOf, s, t);
    if pc.Checked? {
      if t !in s.conv.tickets && c.entry !in s.conv.used && Countable(s.conv, pc.pair) {
        LockingThread(senderOf, s, th, WantConv(pc.pair, pc.reopen, pc.media));
        GotoData(senderOf, s, s.(conv := Register(s.conv, t, pc.pair, c.entry)), t, WantConv(pc.pair, pc.reopen, pc.media));
      }
    } else if CanAcquire(s.conv, t) {
      LockingThread(senderOf, s, th, HaveConv(pc.pair, pc.reopen, pc.media));
      GotoData(senderOf, s, s.(conv := Acquire(s.conv, t)), t, HaveConv(pc.pair, pc.reopen, pc.media));
    }
  }

  /** Resolving the inbox. */
  lemma QuietInbox(senderOf: string -> string, s: State, t: Tid, c: Choice)
    requires DataPart(senderOf, s) && t in s.threads && InFlight(s.threads[t]) && s.threads[t].pc.HaveSender?
    ensures DataPart(senderOf, Ingest(s, t, c))
  {
    hide OneOpen, TableFine, ReceiptFine, InTable, DataPart, SendersFine, FateOk, NoneTakes, SenderStep, MediaStep, ConvLockStep, Lookup, StoreStep, ThreadFine;
    var th := s.threads[t];
    ThreadOf(senderOf, s, t);
    FateOkCases(s.table, Current(th));
    FindInboxCases(s, t, Current(th), c.inbox);
    hide FindInbox;
    var s' := Ingest(s, t, c);
    QuietThread(senderOf, s, th, s'.threads[t].pc);
    QuietStep(senderOf, s, s', t);
  }

  /** Reading the contact. */
  lemma QuietContact(senderOf: string -> string, s: State, t: Tid, c: Choice)
    requires DataPart(senderOf, s) && t in s.threads && InFlight(s.threads[t]) && s.threads[t].pc.Resolved?
    ensures DataPart(senderOf, Ingest(s, t, c))
  {
    hide OneOpen, TableFine, ReceiptFine, InTable, DataPart, SendersFine, FateOk, SenderStep, MediaStep, ConvLockStep, Lookup, StoreStep, ThreadFine, FindInbox;
    var th := s.threads[t];
    ThreadOf(senderOf, s, t);
    FateOkCases(s.table, Current(th));
    var s' := Ingest(s, t, c);
    QuietThread(senderOf, s, th, s'.threads[t].pc);
    QuietStep(senderOf, s, s', t);
  }

  /** The duplicate check. */
  lemma QuietKnown(senderOf: string -> string, s: State, t: Tid, c: Choice)
    requires DataPart(senderOf, s) && t in s.threads && InFlight(s.threads[t]) && s.threads[t].pc.Known?
    ensures DataPart(senderOf, Ingest(s, t, c))
  {
    hide OneOpen, ThreadFine, InTable, DataPart, FateOk, Goto, SenderStep, ResolveStep, ConvLockStep, Lookup, StoreStep;
    var th := s.threads[t];
    ThreadOf(senderOf, s, t);
    FateOkCases(s.table, Current(th));
    if !c.ok {
      QuietThread(senderOf, s, th, LeaveSender(Errored));
      GotoData(senderOf, s, s, t, LeaveSender(Errored));
    } else if InTable(s.table, Current(th).id) {
      QuietThread(senderOf, s, th, LeaveSender(Stored));
      GotoData(senderOf, s, s, t, LeaveSender(Stored));
    } else {
      FetchingThread(senderOf, s, th, Missing(th.pc.pair, th.pc.reopen));
      GotoData(senderOf, s, s, t, Missing(th.pc.pair, th.pc.reopen));
    }
  }

  lemma UnderWayNotStored(senderOf: string -> string, s: State, th: Thread)
    requires ThreadFine(senderOf, s.table, s.convs, th) && AboutToStore(th.pc)
    ensures InFlight(th) && !InTable(s.table, Current(th).id) && MediaFine(th)
  {
    hide SendersFine, FatesFine, InTable, ConvFine;
  }

  /** The download. */
  lemma QuietDownload(senderOf: string -> string, s: State, t: Tid, c: Choice)
    requires DataPart(senderOf, s) && t in s.threads && InFlight(s.threads[t]) && s.threads[t].pc.Missing?
    ensures DataPart(senderOf, Ingest(s, t, c))
  {
    hide OneOpen, ThreadFine, InTable, DataPart, FateOk, Goto, SenderStep, ResolveStep, ConvLockStep, Lookup, StoreStep;
    var th := s.threads[t];
    ThreadOf(senderOf, s, t);
    UnderWayNotStored(senderOf, s, th);
    FateOkCases(s.table, Current(th));
    if !c.ok {
      QuietThread(senderOf, s, th, LeaveSender(Errored));
      GotoData(senderOf, s, s, t, LeaveSender(Errored));
    } else if !c.media.CutShort? || th.cancelled {
      FetchingThread(senderOf, s, th, Fetched(th.pc.pair, th.pc.reopen, c.media));
      GotoData(senderOf, s, s, t, Fetched(th.pc.pair, th.pc.reopen, c.media));
    }
  }

  /** The look at the context after the download. */
  lemma QuietFetched(senderOf: string -> string, s: State, t: Tid, c: Choice)
    requires DataPart(senderOf, s) && t in s.threads && InFlight(s.threads[t]) && s.threads[t].pc.Fetched?
    ensures DataPart(senderOf, Ingest(s, t, c))
  {
    hide OneOpen, ThreadFine, InTable, DataPart, FateOk, Goto, SenderStep, ResolveStep, ConvLockStep, Lookup, StoreStep;
    var th := s.threads[t];
    ThreadOf(senderOf, s, t);
    UnderWayNotStored(senderOf, s, th);
    FateOkCases(s.table, Current(th));
    if th.cancelled {
      QuietThread(senderOf, s, th, LeaveSender(Errored));
      GotoData(senderOf, s, s, t, LeaveSender(Errored));
    } else {
      FetchingThread(senderOf, s, th, Checked(th.pc.pair, th.pc.reopen, th.pc.media));
      GotoData(senderOf, s, s, t, Checked(th.pc.pair, th.pc.reopen, th.pc.media));
    }
  }

  lemma ThreadFate(senderOf: string -> string, s: State, th: Thread)
    requires ThreadFine(senderOf, s.table, s.convs, th)
    requires th.pc.LeaveConv? || th.pc.LeftConv? || th.pc.LeaveSender? || th.pc.LeftSender?
    ensures InFlight(th) && FateOk(s.table, Current(th), th.pc.fate)
  {
    hide SendersFine, FateOk, NotYetStored, MediaFine, ConvFine;
  }

  lemma LeaveConvData(senderOf: string -> string, s: State, t: Tid, c: Choice)
    requires DataPart(senderOf, s) && t in s.threads && InFlight(s.threads[t])
    requires var pc := s.threads[t].pc; pc.LeaveConv? || pc.LeftConv?
    ensures DataPart(senderOf, Ingest(s, t, c))
  {
    hide OneOpen, ThreadFine, DataPart, FateOk, Unlock, Deregister, Goto, SenderStep, ResolveStep, MediaStep, Lookup, StoreStep;
    var th := s.threads[t];
    var pc := th.pc;
    ThreadOf(senderOf, s, t);
    ThreadFate(senderOf, s, th);
    if pc.LeaveConv? {
      if At(s.conv, t, Holding) {
        LeavingThread(senderOf, s, th, LeftConv(pc.pair, pc.fate));
        GotoData(senderOf, s, s.(conv := Unlock(s.conv, t)), t, LeftConv(pc.pair, pc.fate));
      }
    } else if CanDeregister(s.conv, t) {
      QuietThread(senderOf, s, th, LeaveSender(pc.fate));
      GotoData(senderOf, s, s.(conv := Deregister(s.conv, t)), t, LeaveSender(pc.fate));
    }
  }

  lemma LeaveSenderData(senderOf: string -> string, s: State, t: Tid, c: Choice)
    requires DataPart(senderOf, s) && t in s.threads && InFlight(s.threads[t])
    requires var pc := s.threads[t].pc; pc.LeaveSender? || pc.LeftSender?
    ensures DataPart(senderOf, Ingest(s, t, c))
  {
    hide OneOpen, ThreadFine, DataPart, FateOk, Unlock, Deregister, Goto, Settle, ConvLockStep, ResolveStep, MediaStep, Lookup, StoreStep;
    var th := s.threads[t];
    var pc := th.pc;
    ThreadOf(senderOf, s, t);
    ThreadFate(senderOf, s, th);
    if pc.LeaveSender? {
      if At(s.sender, t, Holding) {
        QuietThread(senderOf, s, th, LeftSender(pc.fate));
        GotoData(senderOf, s, s.(sender := Unlock(s.sender, t)), t, LeftSender(pc.fate));
      }
    } else if CanDeregister(s.sender, t) {
      SettledThread(senderOf, s, th, pc.fate);
      SettleData(senderOf, s, s.(sender := Deregister(s.sender, t)), t, pc.fate);
    }
  }

  lemma SettleData(senderOf: string -> string, s: State, s1: State, t: Tid, fate: Fate)
    requires DataPart(senderOf, s) && t in s.threads && s1.threads == s.threads
    requires s1.table == s.table && s1.convs == s.convs && s1.receipts == s.receipts
    requires var th := s.threads[t]; ThreadFine(senderOf, s.table, s.convs, th.(fates := th.fates + [fate], pc := Ready))
    ensures DataPart(senderOf, Settle(s1, t, fate))
  {
    hide DataPart, ThreadFine;
    QuietStep(senderOf, s, Settle(s1, t, fate), t);
  }

  lemma LookupChoosesOnlyOpen(convs: map<nat, Conv>, pair: Pair, c: nat)
    requires OneOpen(convs)
    requires IsOpen(convs, c, pair) || (!AnyOpen(convs, pair) && c in convs && convs[c].pair == pair)
    ensures OnlyOpen(convs, pair, c)
  {
  }

  lemma LookupData(senderOf: string -> string, s: State, t: Tid, c: Choice)
    requires DataPart(senderOf, s) && t in s.threads && InFlight(s.threads[t]) && s.threads[t].pc.HaveConv?
    ensures DataPart(senderOf, Ingest(s, t, c))
  {
    hide OneOpen, ThreadFine, InTable, DataPart, FateOk, OnlyOpen, AnyOpen, Goto, SenderStep, ResolveStep, MediaStep, ConvLockStep, StoreStep;
    var th := s.threads[t];
    var pc := th.pc;
    ThreadOf(senderOf, s, t);
    FateOkCases(s.table, Current(th));
    if !c.ok {
      LeavingThread(senderOf, s, th, LeaveConv(pc.pair, Errored));
      GotoData(senderOf, s, s, t, LeaveConv(pc.pair, Errored));
    } else if IsOpen(s.convs, c.conv, pc.pair) || (!AnyOpen(s.convs, pc.pair) && c.conv in s.convs && s.convs[c.conv].pair == pc.pair) {
      LookupChoosesOnlyOpen(s.convs, pc.pair, c.conv);
      StoringThread(senderOf, s, th, Chosen(pc.pair, c.conv, pc.media));
      GotoData(senderOf, s, s, t, Chosen(pc.pair, c.conv, pc.media));
    }
    if !AnyOpen(s.convs, pc.pair) {
      StoringThread(senderOf, s, th, NoneOpen(pc.pair, pc.media));
      GotoData(senderOf, s, s, t, NoneOpen(pc.pair, pc.media));
    }
  }

  lemma CreatedIsOnlyOpen(convs: map<nat, Conv>, pair: Pair, c: nat)
    requires OneOpen(convs) && !AnyOpen(convs, pair) && c !in convs
    ensures var convs' := convs[c := Conv(pair, true)];
            OnlyOpen(convs', pair, c) && OneOpen(convs') && OnlyPair(convs, convs', pair)
  {
    forall a | a in convs && convs[a].open ensures convs[a].pair != pair {
      assert IsOpen(convs, a, convs[a].pair);
    }
  }

  lemma ReopenedIsOnlyOpen(convs: map<nat, Conv>, pair: Pair, c: nat)
    requires OneOpen(convs) && OnlyOpen(convs, pair, c)
    ensures var convs' := convs[c := convs[c].(open := true)];
            OneOpen(convs') && OnlyPair(convs, convs', pair)
  {
    forall a | a in convs && convs[a].open && convs[a].pair == pair ensures a == c {
      assert IsOpen(convs, a, pair);
    }
  }

  lemma DeletedKeeps(convs: map<nat, Conv>, pair: Pair, c: nat)
    requires OneOpen(convs) && c in convs && convs[c].pair == pair
    ensures OneOpen(convs - {c}) && OnlyPair(convs, convs - {c}, pair)
  {
  }

  /** A worker may go on into a conversation it has just created. */
  lemma MovedWorker(senderOf: string -> string, s: State, convs': map<nat, Conv>, th: Thread, pc: Pc)
    requires ThreadFine(senderOf, s.table, s.convs, th) && InFlight(th) && th.pc.NoneOpen?
    requires pc.Chosen? && pc.media == th.pc.media && ConvFine(convs', pc)
    ensures ThreadFine(senderOf, s.table, convs', th.(pc := pc))
  {
    hide SendersFine, FateOk, InTable, ConvFine;
  }

  lemma CreateData(senderOf: string -> string, s: State, t: Tid, c: Choice)
    requires LockPart(s) && DataPart(senderOf, s) && t in s.threads && InFlight(s.threads[t]) && s.threads[t].pc.NoneOpen?
    ensures DataPart(senderOf, Ingest(s, t, c))
  {
    hide LockPart, OneOpen, OnlyOpen, OnlyPair, ThreadFine, DataPart, AnyOpen, FateOk, SenderStep, ResolveStep, MediaStep, ConvLockStep, Lookup;
    var th := s.threads[t];
    var pc := th.pc;
    ThreadOf(senderOf, s, t);
    if !c.ok {
      FateOkCases(s.table, Current(th));
      LeavingThread(senderOf, s, th, LeaveConv(pc.pair, Errored));
      GotoData(senderOf, s, s, t, LeaveConv(pc.pair, Errored));
    } else if c.conv !in s.convs {
      ThreadConvs(senderOf, s, th);
      CreatedIsOnlyOpen(s.convs, pc.pair, c.conv);
      MovedWorker(senderOf, s, s.convs[c.conv := Conv(pc.pair, true)], th, Chosen(pc.pair, c.conv, pc.media));
      ConvStep(senderOf, s, Ingest(s, t, c), t);
    }
  }

  /** The message a worker has just inserted is in the table. */
  lemma InsertedThread(senderOf: string -> string, s: State, th: Thread, row: Row, pc: Pc)
    requires ThreadFine(senderOf, s.table, s.convs, th) && InFlight(th) && th.pc.Chosen? && row.id == Current(th).id
    requires pc.Inserted? && ConvFine(s.convs, pc)
    ensures ThreadFine(senderOf, s.table + [row], s.convs, th.(pc := pc))
  {
    hide SendersFine, FateOk, InTable, ConvFine;
    InTableAfter(s.table, row, row.id);
    forall i | 0 <= i < |th.fates| ensures FateOk(s.table + [row], th.msgs[i], th.fates[i]) {
      FateOkAfter(s.table, row, th.msgs[i], th.fates[i]);
    }
  }

  lemma ChosenMedia(senderOf: string -> string, s: State, th: Thread)
    requires ThreadFine(senderOf, s.table, s.convs, th) && th.pc.Chosen?
    ensures !th.pc.media.CutShort?
  {
    hide SendersFine, FatesFine, NotYetStored, ConvFine;
  }

  lemma StoreData(senderOf: string -> string, s: State, t: Tid, c: Choice)
    requires LockPart(s) && DataPart(senderOf, s) && t in s.threads && InFlight(s.threads[t]) && s.threads[t].pc.Chosen?
    ensures DataPart(senderOf, Ingest(s, t, c))
  {
    hide LockPart, OneOpen, OnlyOpen, ThreadFine, DataPart, FateOk, SenderStep, ResolveStep, MediaStep, ConvLockStep, Lookup;
    var th := s.threads[t];
    var pc := th.pc;
    ThreadOf(senderOf, s, t);
    if c.ok {
      var row := Row(Current(th).id, pc.conv, pc.media);
      ThreadConvs(senderOf, s, th);
      ChosenMedia(senderOf, s, th);
      InsertedThread(senderOf, s, th, row, Inserted(pc.pair, pc.conv, c.found));
      InsertStep(senderOf, s, Ingest(s, t, c), t, row);
    } else {
      FateOkCases(s.table, Current(th));
      LeavingThread(senderOf, s, th, LeaveConv(pc.pair, Errored));
      GotoData(senderOf, s, s, t, LeaveConv(pc.pair, Errored));
    }
  }

  lemma InsertedIsStored(senderOf: string -> string, s: State, th: Thread)
    requires ThreadFine(senderOf, s.table, s.convs, th) && th.pc.Inserted?
    ensures InFlight(th) && InTable(s.table, Current(th).id)
  {
    hide SendersFine, FateOk, NotYetStored, MediaFine, ConvFine, InTable;
  }

  /** Leaving with a good fate claims nothing of the conversations. */
  lemma LeavingAnyConvs(senderOf: string -> string, s: State, convs': map<nat, Conv>, th: Thread, pc: Pc)
    requires ThreadFine(senderOf, s.table, s.convs, th.(pc := pc)) && pc.LeaveConv?
    ensures ThreadFine(senderOf, s.table, convs', th.(pc := pc))
  {
    hide SendersFine, FatesFine, InTable;
  }

  lemma ReopenData(senderOf: string -> string, s: State, t: Tid, c: Choice)
    requires LockPart(s) && DataPart(senderOf, s) && t in s.threads && InFlight(s.threads[t]) && s.threads[t].pc.Inserted?
    ensures DataPart(senderOf, Ingest(s, t, c))
  {
    hide LockPart, OneOpen, OnlyPair, OnlyOpen, ThreadFine, DataPart, FateOk, SenderStep, ResolveStep, MediaStep, ConvLockStep, Lookup;
    var th := s.threads[t];
    var pc := th.pc;
    var fate := if pc.windowOk then Stored else Errored;
    ThreadOf(senderOf, s, t);
    InsertedIsStored(senderOf, s, th);
    FateOkCases(s.table, Current(th));
    LeavingThread(senderOf, s, th, LeaveConv(pc.pair, fate));
    if c.ok && pc.conv in s.convs {
      ThreadConvs(senderOf, s, th);
      ReopenedIsOnlyOpen(s.convs, pc.pair, pc.conv);
      LeavingAnyConvs(senderOf, s, s.convs[pc.conv := s.convs[pc.conv].(open := true)], th, LeaveConv(pc.pair, fate));
      ConvStep(senderOf, s, Ingest(s, t, c), t);
    } else {
      GotoData(senderOf, s, s, t, LeaveConv(pc.pair, fate));
    }
  }

  lemma AgentCreates(senderOf: string -> string, s: State, t: Tid, c: Choice)
    requires LockPart(s) && DataPart(senderOf, s) && t in s.threads && s.threads[t].pc.AgentNone?
    ensures DataPart(senderOf, Create(s, t, c))
  {
    hide LockPart, OneOpen, OnlyOpen, OnlyPair, ThreadFine, DataPart, AnyOpen, AgentLockStep;
    var th := s.threads[t];
    var pair := th.pc.pair;
    ThreadOf(senderOf, s, t);
    if !c.ok {
      AgentThread(senderOf, s, th, AgentLeave(pair));
      GotoData(senderOf, s, s, t, AgentLeave(pair));
    } else if c.conv !in s.convs {
      ThreadConvs(senderOf, s, th);
      CreatedIsOnlyOpen(s.convs, pair, c.conv);
      var convs' := s.convs[c.conv := Conv(pair, true)];
      MovedAgent(senderOf, s, convs', th, AgentSend(pair, c.conv));
      ConvStep(senderOf, s, Create(s, t, c), t);
    }
  }

  /** The same when the agent has just changed the conversations. */
  lemma MovedAgent(senderOf: string -> string, s: State, convs': map<nat, Conv>, th: Thread, pc: Pc)
    requires ThreadFine(senderOf, s.table, s.convs, th) && IsAgent(pc) && ConvFine(convs', pc)
    ensures ThreadFine(senderOf, s.table, convs', th.(pc := pc))
  {
    hide SendersFine, FateOk, InTable, ConvFine;
  }

  lemma AgentDeletes(senderOf: string -> string, s: State, t: Tid, c: Choice)
    requires LockPart(s) && DataPart(senderOf, s) && t in s.threads && s.threads[t].pc.AgentUndo?
    ensures DataPart(senderOf, Create(s, t, c))
  {
    hide LockPart, OneOpen, OnlyOpen, OnlyPair, ThreadFine, DataPart, AnyOpen, AgentLockStep;
    var th := s.threads[t];
    var pc := th.pc;
    ThreadOf(senderOf, s, t);
    if c.ok {
      ThreadConvs(senderOf, s, th);
      DeletedKeeps(s.convs, pc.pair, pc.conv);
      MovedAgent(senderOf, s, s.convs - {pc.conv}, th, AgentLeave(pc.pair));
      ConvStep(senderOf, s, Create(s, t, c), t);
    } else {
      AgentThread(senderOf, s, th, AgentLeave(pc.pair));
      GotoData(senderOf, s, s, t, AgentLeave(pc.pair));
    }
  }

  /** The agent's way to the lock. */
  lemma AgentLockIn(senderOf: string -> string, s: State, t: Tid, c: Choice)
    requires DataPart(senderOf, s) && t in s.threads && (s.threads[t].pc.AgentStart? || s.threads[t].pc.AgentWant?)
    ensures DataPart(senderOf, Create(s, t, c))
  {
    hide OneOpen, ThreadFine, DataPart, Register, Acquire, Goto, AgentDataStep;
    var th := s.threads[t];
    ThreadOf(senderOf, s, t);
    AgentThread(senderOf, s, th, AgentWant(th.pc.pair));
    AgentThread(senderOf, s, th, AgentHave(th.pc.pair));
    if th.pc.AgentStart? {
      if t !in s.conv.tickets && c.entry !in s.conv.used && Countable(s.conv, th.pc.pair) {
        GotoData(senderOf, s, s.(conv := Register(s.conv, t, th.pc.pair, c.entry)), t, AgentWant(th.pc.pair));
      }
    } else if CanAcquire(s.conv, t) {
      GotoData(senderOf, s, s.(conv := Acquire(s.conv, t)), t, AgentHave(th.pc.pair));
    }
  }

  lemma AgentLockOut(senderOf: string -> string, s: State, t: Tid, c: Choice)
    requires DataPart(senderOf, s) && t in s.threads && (s.threads[t].pc.AgentLeave? || s.threads[t].pc.AgentLeft?)
    ensures DataPart(senderOf, Create(s, t, c))
  {
    hide OneOpen, ThreadFine, DataPart, Unlock, Deregister, At, CanDeregister, Goto, AgentDataStep;
    var th := s.threads[t];
    ThreadOf(senderOf, s, t);
    if th.pc.AgentLeave? {
      if At(s.conv, t, Holding) {
        AgentThread(senderOf, s, th, AgentLeft(th.pc.pair));
        GotoData(senderOf, s, s.(conv := Unlock(s.conv, t)), t, AgentLeft(th.pc.pair));
      }
    } else {
      QuietStep(senderOf, s, Create(s, t, c), t);
    }
  }

  lemma AgentQuiet(senderOf: string -> string, s: State, t: Tid, c: Choice)
    requires DataPart(senderOf, s) && t in s.threads
    requires var pc := s.threads[t].pc; pc.AgentHave? || pc.AgentSend?
    ensures DataPart(senderOf, Create(s, t, c))
  {
    hide OneOpen, ThreadFine, DataPart, AnyOpen, OnlyOpen, Goto, AgentLockStep;
    var th := s.threads[t];
    var pair := th.pc.pair;
    ThreadOf(senderOf, s, t);
    AgentThread(senderOf, s, th, AgentLeave(pair));
    GotoData(senderOf, s, s, t, AgentLeave(pair));
    if th.pc.AgentSend? {
      ThreadConvs(senderOf, s, th);
      AgentThread(senderOf, s, th, AgentUndo(pair, th.pc.conv));
      GotoData(senderOf, s, s, t, AgentUndo(pair, th.pc.conv));
    } else if !AnyOpen(s.convs, pair) {
      AgentThread(senderOf, s, th, AgentNone(pair));
      GotoData(senderOf, s, s, t, AgentNone(pair));
    }
  }

  lemma ReportData(senderOf: string -> string, s: State, t: Tid, ok: bool)
    requires DataPart(senderOf, s) && t in s.threads && !InFlight(s.threads[t])
    ensures DataPart(senderOf, Report(s, t, ok))
  {
    hide OneOpen, TableFine, FateOk;
    var th := s.threads[t];
    assert FatesFine(s.table, th);
    assert forall i | 0 <= i < |th.fates| :: th.fates[i] in th.fates;
    assert ReceiptFine(s.table, Receipt(th.msgs, th.fates, ok && Errored !in th.fates));
    hide ThreadFine, ReceiptFine;
  }

  lemma StepKeeps(senderOf: string -> string, s: State, t: Tid, c: Choice)
    requires Inv(senderOf, s) && t in s.threads
    ensures Inv(senderOf, StepThread(s, t, c))
  {
    hide LockPart, DataPart, Create, Ingest, Begin, Report;
    LocksStepKeeps(s, t, c);
    var th := s.threads[t];
    if IsAgent(th.pc) {
      match th.pc
      case AgentNone(_) => AgentCreates(senderOf, s, t, c);
      case AgentUndo(_, _) => AgentDeletes(senderOf, s, t, c);
      case AgentHave(_) => AgentQuiet(senderOf, s, t, c);
      case AgentSend(_, _) => AgentQuiet(senderOf, s, t, c);
      case AgentStart(_) => AgentLockIn(senderOf, s, t, c);
      case AgentWant(_) => AgentLockIn(senderOf, s, t, c);
      case _ => AgentLockOut(senderOf, s, t, c);
    } else if |th.fates| >= |th.msgs| {
      if th.pc.Ready? {
        ReportData(senderOf, s, t, c.ok);
      }
    } else if th.pc.Ready? {
      BeginData(senderOf, s, t, c);
    } else {
      match th.pc
      case HaveConv(_, _, _) => LookupData(senderOf, s, t, c);
      case NoneOpen(_, _) => CreateData(senderOf, s, t, c);
      case Chosen(_, _, _) => StoreData(senderOf, s, t, c);
      case Inserted(_, _, _) => ReopenData(senderOf, s, t, c);
      case LeaveConv(_, _) => LeaveConvData(senderOf, s, t, c);
      case LeftConv(_, _) => LeaveConvData(senderOf, s, t, c);
      case LeaveSender(_) => LeaveSenderData(senderOf, s, t, c);
      case LeftSender(_) => LeaveSenderData(senderOf, s, t, c);
      case HaveSender => QuietInbox(senderOf, s, t, c);
      case Resolved(_, _) => QuietContact(senderOf, s, t, c);
      case Known(_, _) => QuietKnown(senderOf, s, t, c);
      case Missing(_, _) => QuietDownload(senderOf, s, t, c);
      case Fetched(_, _, _) => QuietFetched(senderOf, s, t, c);
      case WantSender => QuietSenderIn(senderOf, s, t, c);
      case _ => QuietConvIn(senderOf, s, t, c);
    }
  }

  lemma ResolveKeeps(convs: map<nat, Conv>, conv: nat, pc: Pc)
    requires conv in convs && ConvFine(convs, pc)
    ensures ConvFine(convs[conv := convs[conv].(open := false)], pc)
  {
    var convs' := convs[conv := convs[conv].(open := false)];
    forall c | c in convs' && convs'[c].open ensures c in convs && convs[c] == convs'[c] {}
    if pc.NoneOpen? || pc.AgentNone? {
      assert forall c | c in convs' :: IsOpen(convs', c, pc.pair) ==> IsOpen(convs, c, pc.pair);
    }
  }

  lemma FreshFine(senderOf: string -> string, table: seq<Row>, convs: map<nat, Conv>, th: Thread)
    requires th.fates == [] && SendersFine(senderOf, th.msgs) && (th.pc.Ready? || th.pc.AgentStart?)
    ensures ThreadFine(senderOf, table, convs, th)
  {
    hide SendersFine;
  }

  lemma StartKeeps(senderOf: string -> string, s: State, l: Label)
    requires Inv(senderOf, s) && (l.Deliver? || l.AgentCreate?)
    ensures Inv(senderOf, Next(senderOf, s, l))
  {
    hide DataPart, ThreadFine, LockPart;
    var s' := Next(senderOf, s, l);
    if s' != s {
      FreshThread(s, s', l.t);
      FreshFine(senderOf, s.table, s.convs, s'.threads[l.t]);
      QuietStep(senderOf, s, s', l.t);
    }
  }

  lemma CancelledFine(senderOf: string -> string, table: seq<Row>, convs: map<nat, Conv>, th: Thread)
    requires ThreadFine(senderOf, table, convs, th)
    ensures ThreadFine(senderOf, table, convs, th.(cancelled := true))
  {
    hide SendersFine, FateOk, InTable, ConvFine;
  }

  lemma CancelledLocks(s: State, t: Tid)
    requires LockPart(s) && t in s.threads
    ensures LockPart(s.(threads := s.threads[t := s.threads[t].(cancelled := true)]))
  {
    hide LocksOk;
    assert SenderAgrees(s, t) && ConvAgrees(s, t);
    LocksFrame(s, s.(threads := s.threads[t := s.threads[t].(cancelled := true)]), t);
  }

  lemma CancelKeeps(senderOf: string -> string, s: State, t: Tid)
    requires Inv(senderOf, s) && t in s.threads
    ensures Inv(senderOf, s.(threads := s.threads[t := s.threads[t].(cancelled := true)]))
  {
    hide LockPart, DataPart, ThreadFine, OneOpen;
    CancelledLocks(s, t);
    ThreadOf(senderOf, s, t);
    CancelledFine(senderOf, s.table, s.convs, s.threads[t]);
    QuietStep(senderOf, s, s.(threads := s.threads[t := s.threads[t].(cancelled := true)]), t);
  }

  lemma ResolvedKeeps(senderOf: string -> string, s: State, conv: nat)
    requires Inv(senderOf, s) && conv in s.convs
    ensures Inv(senderOf, s.(convs := s.convs[conv := s.convs[conv].(open := false)]))
  {
    hide LockPart, TableFine, ReceiptFine, FatesFine, NotYetStored, MediaFine, SendersFine, ConvFine;
    var s' := s.(convs := s.convs[conv := s.convs[conv].(open := false)]);
    forall t | t in s.threads ensures ThreadFine(senderOf, s.table, s'.convs, s.threads[t]) {
      ResolveKeeps(s.convs, conv, s.threads[t].pc);
    }
    SameLocks(s, s');
  }

  lemma SettingsKeep(senderOf: string -> string, s: State, s': State)
    requires Inv(senderOf, s) && s' == s.(inboxes := s'.inboxes, disabled := s'.disabled)
    ensures Inv(senderOf, s')
  {
    hide ThreadFine, OneOpen, TableFine, ReceiptFine;
    SameLocks(s, s');
  }

  /** Deliveries and creates starting, contexts being cancelled, conversations being resolved by agents. */
  lemma OutsideKeeps(senderOf: string -> string, s: State, l: Label)
    requires Inv(senderOf, s) && !l.Step?
    ensures Inv(senderOf, Next(senderOf, s, l))
  {
    hide Inv;
    match l
    case Deliver(_, _) => StartKeeps(senderOf, s, l);
    case AgentCreate(_, _) => StartKeeps(senderOf, s, l);
    case Step(_, _) =>
    case Cancel(t) => if t in s.threads { CancelKeeps(senderOf, s, t); }
    case Resolve(conv) => if conv in s.convs { ResolvedKeeps(senderOf, s, conv); }
    case SetInbox(_, _) => SettingsKeep(senderOf, s, Next(senderOf, s, l));
    case SetContact(_, _) => SettingsKeep(senderOf, s, Next(senderOf, s, l));
  }

  lemma SameLocks(s: State, s': State)
    requires LockPart(s) && s'.sender == s.sender && s'.conv == s.conv && s'.threads == s.threads
    ensures LockPart(s')
  {
    hide LocksOk;
    forall t | t in s'.threads ensures SenderAgrees(s', t) && ConvAgrees(s', t) {
      assert SenderAgrees(s, t) && ConvAgrees(s, t);
    }
  }

  lemma FreshThread(s: State, s': State, t: Tid)
    requires LockPart(s) && t !in s.threads && s'.sender == s.sender && s'.conv == s.conv
    requires t in s'.threads && s'.threads == s.threads[t := s'.threads[t]]
    requires s'.threads[t].pc.Ready? || s'.threads[t].pc.AgentStart?
    ensures LockPart(s')
  {
    hide LocksOk;
    LocksFrame(s, s', t);
  }

  lemma NextKeeps(senderOf: string -> string, s: State, l: Label)
    requires Inv(senderOf, s)
    ensures Inv(senderOf, Next(senderOf, s, l))
  {
    hide Inv, StepThread;
    if l.Step? {
      if l.t in s.threads {
        StepKeeps(senderOf, s, l.t, l.choice);
      }
    } else {
      OutsideKeeps(senderOf, s, l);
    }
  }

  lemma {:induction false} RunFromKeeps(senderOf: string -> string, s: State, labels: seq<Label>)
    requires Inv(senderOf, s)
    ensures Inv(senderOf, RunFrom(senderOf, s, labels))
  {
    hide Inv, Next;
    if labels != [] {
      RunFromKeeps(senderOf, s, labels[..|labels| - 1]);
      NextKeeps(senderOf, RunFrom(senderOf, s, labels[..|labels| - 1]), labels[|labels| - 1]);
    }
  }

  lemma {:induction false} RunKeeps(senderOf: string -> string, labels: seq<Label>)
    ensures Inv(senderOf, Run(senderOf, labels))
  {
    hide Inv, Next;
    if labels == [] {
      InitOk(senderOf);
    } else {
      RunKeeps(senderOf, labels[..|labels| - 1]);
      NextKeeps(senderOf, Run(senderOf, labels[..|labels| - 1]), labels[|labels| - 1]);
    }
  }

  lemma InitOk(senderOf: string -> string)
    ensures Inv(senderOf, Init())
  {
  }

  // ----- theorems

  /** Under any interleaving of deliveries, redeliveries, retries and concurrent workers no message id is stored
      twice, and no row stands for a cancelled download. */
  lemma EachMessageStoredOnce(senderOf: string -> string, labels: seq<Label>)
    ensures var table := Run(senderOf, labels).table;
            && (forall i, j | 0 <= i < j < |table| :: table[i].id != table[j].id)
            && (forall i | 0 <= i < |table| :: !table[i].media.CutShort?)
  {
    hide LockPart;
    RunKeeps(senderOf, labels);
  }

  /** A delivery that returned nil has every one of its messages in the table, or dropped for a coded reason that held. */
  lemma NilMeansStoredOrDropped(senderOf: string -> string, labels: seq<Label>)
    ensures var s := Run(senderOf, labels);
            forall k, i | 0 <= k < |s.receipts| && s.receipts[k].ok && 0 <= i < |s.receipts[k].msgs| ::
              var r := s.receipts[k];
              && |r.fates| == |r.msgs|
              && match r.fates[i]
                 case Stored => exists j :: 0 <= j < |s.table| && s.table[j].id == r.msgs[i].id
                 case Errored => false
                 case Dropped(IgnoredType) => r.msgs[i].kind in ["reaction", "ephemeral", "request_welcome"]
                 case Dropped(SystemEvent) => r.msgs[i].kind == "system"
                 case Dropped(NoEnabledInbox(seen)) =>
                   && r.msgs[i].url in seen
                   && forall inbox | inbox in seen && seen[inbox].enabled ::
                        if r.msgs[i].phone == "" then inbox != r.msgs[i].url else seen[inbox].phone != r.msgs[i].phone
                 case Dropped(ContactDisabled(contact, disabled)) => contact in disabled
  {
    hide LockPart, NoneTakes;
    RunKeeps(senderOf, labels);
    var s := Run(senderOf, labels);
    forall k | 0 <= k < |s.receipts| ensures ReceiptFine(s.table, s.receipts[k]) {}
    forall seen: map<int, Inbox>, m: Msg | NoneTakes(seen, m) ensures m.url in seen && forall inbox | inbox in seen && seen[inbox].enabled ::
             if m.phone == "" then inbox != m.url else seen[inbox].phone != m.phone {
      NobodyTakes(seen, m);
    }
    hide DataPart;
  }

  /** No inbox takes the message exactly when the delivery's own is there, and none that is enabled has the number named, or
      is the delivery's own if none is named. */
  lemma NobodyTakes(seen: map<int, Inbox>, m: Msg)
    ensures NoneTakes(seen, m) <==>
            && m.url in seen
            && forall inbox | inbox in seen && seen[inbox].enabled ::
                 if m.phone == "" then inbox != m.url else seen[inbox].phone != m.phone
  {
    forall inbox | inbox in seen && seen[inbox].enabled && seen[inbox].phone == m.phone ensures Serves(seen, inbox, m.phone) {}
  }

  /** A worker drops a message for want of an inbox exactly when, as it looks, the delivery's inbox cannot take it and no
      enabled inbox has its number; and for its contact exactly when the contact is disabled then. */
  lemma DroppedExactlyThen(s: State, t: Tid, c: Choice)
    requires t in s.threads && InFlight(s.threads[t]) && c.ok
    requires s.threads[t].pc.HaveSender? || s.threads[t].pc.Resolved?
    ensures var th := s.threads[t];
            var s' := Ingest(s, t, c);
            && t in s'.threads
            && (th.pc.HaveSender? ==>
                  (s'.threads[t].pc == LeaveSender(Dropped(NoEnabledInbox(s.inboxes))) <==> NoneTakes(s.inboxes, Current(th))))
            && (th.pc.Resolved? ==>
                  (s'.threads[t].pc == LeaveSender(Dropped(ContactDisabled(c.contact, s.disabled))) <==> c.contact in s.disabled))
  {
    hide AnyServes, SenderStep, MediaStep, ConvLockStep, Lookup, StoreStep;
  }

  /** Ingests and agent-initiated creates together never leave a contact with two open conversations in an inbox. */
  lemma OneOpenConversation(senderOf: string -> string, labels: seq<Label>)
    ensures var convs := Run(senderOf, labels).convs;
            forall a, b | a in convs && b in convs && convs[a].open && convs[b].open && convs[a].pair == convs[b].pair :: a == b
  {
    hide LockPart;
    RunKeeps(senderOf, labels);
  }
}
