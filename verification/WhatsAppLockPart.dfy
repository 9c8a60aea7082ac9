/** Where each program counter of the pipeline stands at its two locks, and that every step keeps it so. */
module WhatsAppLockPart {
  import opened Prelude
  import opened KeyedLocks
  import opened WhatsAppPipeline

  // ----- what a program counter says about the two locks

  function SenderStage(pc: Pc): Option<Stage> {
    if pc.WantSender? then Some(Waiting)
    else if pc.LeftSender? then Some(Releasing)
    else if pc.Ready? || IsAgent(pc) then None
    else Some(Holding)
  }

  function ConvStage(pc: Pc): Option<Stage> {
    match pc
    case WantConv(_, _, _) => Some(Waiting)
    case HaveConv(_, _, _) => Some(Holding)
    case NoneOpen(_, _) => Some(Holding)
    case Chosen(_, _, _) => Some(Holding)
    case Inserted(_, _, _) => Some(Holding)
    case LeaveConv(_, _) => Some(Holding)
    case LeftConv(_, _) => Some(Releasing)
    case AgentWant(_) => Some(Waiting)
    case AgentHave(_) => Some(Holding)
    case AgentNone(_) => Some(Holding)
    case AgentSend(_, _) => Some(Holding)
    case AgentUndo(_, _) => Some(Holding)
    case AgentLeave(_) => Some(Holding)
    case AgentLeft(_) => Some(Releasing)
    case _ => None
  }

  predicate SenderAgrees(s: State, t: Tid)
    requires t in s.threads
  {
    var th := s.threads[t];
    match SenderStage(th.pc)
    case None => t !in s.sender.tickets
    case Some(stage) =>
      && |th.fates| < |th.msgs|
      && t in s.sender.tickets && s.sender.tickets[t].stage == stage && s.sender.tickets[t].key == Current(th).from
  }

  predicate ConvAgrees(s: State, t: Tid)
    requires t in s.threads
  {
    match ConvStage(s.threads[t].pc)
    case None => t !in s.conv.tickets
    case Some(stage) => t in s.conv.tickets && s.conv.tickets[t].stage == stage && s.conv.tickets[t].key == s.threads[t].pc.pair
  }

  ghost predicate LockPart(s: State) {
    && LocksOk(s.sender) && LocksOk(s.conv)
    && (forall t | t in s.sender.tickets :: t in s.threads)
    && (forall t | t in s.conv.tickets :: t in s.threads)
    && (forall t | t in s.threads :: SenderAgrees(s, t))
    && (forall t | t in s.threads :: ConvAgrees(s, t))
  }

  /** Only thread `t`'s entry of the map changes. */
  predicate OnlyAt<T(==)>(a: map<Tid, T>, b: map<Tid, T>, t: Tid) {
    && (forall u | u in a && u != t :: u in b && b[u] == a[u])
    && (forall u | u in b && u != t :: u in a)
  }

  predicate Agrees(s: State, t: Tid) {
    if t in s.threads then SenderAgrees(s, t) && ConvAgrees(s, t) else t !in s.sender.tickets && t !in s.conv.tickets
  }

  lemma LocksFrame(s: State, s': State, t: Tid)
    requires LockPart(s) && LocksOk(s'.sender) && LocksOk(s'.conv)
    requires OnlyAt(s.threads, s'.threads, t)
    requires OnlyAt(s.sender.tickets, s'.sender.tickets, t) && OnlyAt(s.conv.tickets, s'.conv.tickets, t)
    requires Agrees(s', t)
    ensures LockPart(s')
  {
    hide LocksOk;
    forall u | u in s'.threads ensures SenderAgrees(s', u) && ConvAgrees(s', u) {
      if u != t {
        assert SenderAgrees(s, u) && ConvAgrees(s, u);
      }
    }
  }

  /** What one step of thread `t` may do to the locks. */
  ghost predicate Moved(s: State, s': State, t: Tid) {
    && LocksOk(s'.sender) && LocksOk(s'.conv) && Agrees(s', t)
    && OnlyAt(s.threads, s'.threads, t)
    && OnlyAt(s.sender.tickets, s'.sender.tickets, t) && OnlyAt(s.conv.tickets, s'.conv.tickets, t)
  }

  ghost predicate InStep(s: State, t: Tid) {
    LocksOk(s.sender) && LocksOk(s.conv) && t in s.threads && Agrees(s, t)
  }

  lemma MappedIsCounted<K, E>(l: Locks<K, E>, key: K)
    requires LocksOk(l)
    ensures Countable(l, key)
  {
  }

  lemma RegisterConv(s: State, t: Tid, pair: Pair, entry: nat, pc: Pc)
    requires InStep(s, t) && t !in s.conv.tickets && entry !in s.conv.used
    requires ConvStage(pc) == Some(Waiting) && pc.pair == pair && SenderStage(pc) == SenderStage(s.threads[t].pc)
    ensures Countable(s.conv, pair) && Moved(s, Goto(s.(conv := Register(s.conv, t, pair, entry)), t, pc), t)
  {
    hide LocksOk;
    RegisterKeeps(s.conv, t, pair, entry);
    MappedIsCounted(s.conv, pair);
  }

  lemma AcquireConv(s: State, t: Tid, pc: Pc)
    requires InStep(s, t) && CanAcquire(s.conv, t)
    requires ConvStage(s.threads[t].pc) == Some(Waiting) && ConvStage(pc) == Some(Holding)
    requires pc.pair == s.threads[t].pc.pair && SenderStage(pc) == SenderStage(s.threads[t].pc)
    ensures Moved(s, Goto(s.(conv := Acquire(s.conv, t)), t, pc), t)
  {
    hide LocksOk;
    AcquireKeeps(s.conv, t);
  }

  lemma UnlockConv(s: State, t: Tid, pc: Pc)
    requires InStep(s, t) && ConvStage(s.threads[t].pc) == Some(Holding) && ConvStage(pc) == Some(Releasing)
    requires pc.pair == s.threads[t].pc.pair && SenderStage(pc) == SenderStage(s.threads[t].pc)
    ensures At(s.conv, t, Holding) && Moved(s, Goto(s.(conv := Unlock(s.conv, t)), t, pc), t)
  {
    hide LocksOk;
    UnlockKeeps(s.conv, t);
  }

  lemma DeregisterConv(s: State, t: Tid, threads: map<Tid, Thread>)
    requires InStep(s, t) && ConvStage(s.threads[t].pc) == Some(Releasing)
    requires OnlyAt(s.threads, threads, t)
    requires if t in threads then
               && SenderStage(threads[t].pc) == SenderStage(s.threads[t].pc) && ConvStage(threads[t].pc) == None
               && threads[t].msgs == s.threads[t].msgs && threads[t].fates == s.threads[t].fates
             else SenderStage(s.threads[t].pc) == None
    ensures CanDeregister(s.conv, t) && Moved(s, s.(conv := Deregister(s.conv, t), threads := threads), t)
  {
    hide LocksOk;
    DeregisterKeeps(s.conv, t);
  }

  lemma RegisterSender(s: State, t: Tid, entry: nat, pc: Pc)
    requires InStep(s, t) && t !in s.sender.tickets && entry !in s.sender.used
    requires |s.threads[t].fates| < |s.threads[t].msgs|
    requires SenderStage(pc) == Some(Waiting) && ConvStage(pc) == None && ConvStage(s.threads[t].pc) == None
    ensures var from := Current(s.threads[t]).from;
            Countable(s.sender, from) && Moved(s, Goto(s.(sender := Register(s.sender, t, from, entry)), t, pc), t)
  {
    hide LocksOk;
    RegisterKeeps(s.sender, t, Current(s.threads[t]).from, entry);
    MappedIsCounted(s.sender, Current(s.threads[t]).from);
  }

  lemma AcquireSender(s: State, t: Tid, pc: Pc)
    requires InStep(s, t) && CanAcquire(s.sender, t)
    requires SenderStage(s.threads[t].pc) == Some(Waiting) && SenderStage(pc) == Some(Holding)
    requires ConvStage(s.threads[t].pc) == None && ConvStage(pc) == None
    ensures Moved(s, Goto(s.(sender := Acquire(s.sender, t)), t, pc), t)
  {
    hide LocksOk;
    AcquireKeeps(s.sender, t);
  }

  lemma UnlockSender(s: State, t: Tid, pc: Pc)
    requires InStep(s, t) && SenderStage(s.threads[t].pc) == Some(Holding) && SenderStage(pc) == Some(Releasing)
    requires ConvStage(s.threads[t].pc) == None && ConvStage(pc) == None
    ensures At(s.sender, t, Holding) && Moved(s, Goto(s.(sender := Unlock(s.sender, t)), t, pc), t)
  {
    hide LocksOk;
    UnlockKeeps(s.sender, t);
  }

  lemma DeregisterSender(s: State, t: Tid, fate: Fate)
    requires InStep(s, t) && SenderStage(s.threads[t].pc) == Some(Releasing) && ConvStage(s.threads[t].pc) == None
    ensures CanDeregister(s.sender, t) && Moved(s, Settle(s.(sender := Deregister(s.sender, t)), t, fate), t)
  {
    hide LocksOk;
    DeregisterKeeps(s.sender, t);
  }

  /** A step that touches neither lock and keeps the thread's place at both. */
  predicate StaysPut(s: State, s': State, t: Tid)
    requires t in s.threads
  {
    && s'.sender == s.sender && s'.conv == s.conv && OnlyAt(s.threads, s'.threads, t)
    && if t in s'.threads then
         && SenderStage(s'.threads[t].pc) == SenderStage(s.threads[t].pc)
         && ConvStage(s'.threads[t].pc) == ConvStage(s.threads[t].pc)
         && (ConvStage(s.threads[t].pc).Some? ==> s'.threads[t].pc.pair == s.threads[t].pc.pair)
         && s'.threads[t].msgs == s.threads[t].msgs
         && (s'.threads[t].fates == s.threads[t].fates || SenderStage(s.threads[t].pc) == None)
       else SenderStage(s.threads[t].pc) == None && ConvStage(s.threads[t].pc) == None
  }

  lemma NoLock(s: State, s': State, t: Tid)
    requires InStep(s, t) && StaysPut(s, s', t)
    ensures Moved(s, s', t)
  {
    hide LocksOk;
  }

  lemma SameStays(s: State, t: Tid)
    requires t in s.threads
    ensures StaysPut(s, s, t)
  {
  }

  predicate SameStages(a: Pc, b: Pc) {
    && SenderStage(b) == SenderStage(a) && ConvStage(b) == ConvStage(a)
    && (ConvStage(a).Some? ==> a.pair == b.pair)
  }

  lemma GotoStays(s: State, s1: State, t: Tid, pc: Pc)
    requires t in s.threads && s1.threads == s.threads && s1.sender == s.sender && s1.conv == s.conv
    requires SameStages(s.threads[t].pc, pc)
    ensures StaysPut(s, Goto(s1, t, pc), t)
  {
    hide SenderStage, ConvStage;
  }

  lemma AgentStays(s: State, t: Tid, c: Choice)
    requires t in s.threads && IsAgent(s.threads[t].pc) && !AtAgentLock(s.threads[t].pc)
    ensures StaysPut(s, Create(s, t, c), t)
  {
    hide AnyOpen, AgentLockStep, StaysPut, Goto;
    SameStays(s, t);
    GotoStays(s, s, t, AgentLeave(s.threads[t].pc.pair));
    match s.threads[t].pc
    case AgentHave(pair) => GotoStays(s, s, t, AgentNone(pair));
    case AgentNone(pair) =>
      GotoStays(s, s.(convs := s.convs[c.conv := Conv(pair, true)]), t, AgentSend(pair, c.conv));
    case AgentSend(pair, conv) => GotoStays(s, s, t, AgentUndo(pair, conv));
    case AgentUndo(pair, conv) => GotoStays(s, s.(convs := s.convs - {conv}), t, AgentLeave(pair));
  }

  lemma FindStays(s: State, t: Tid, m: Msg, inbox: int)
    requires t in s.threads && s.threads[t].pc.HaveSender?
    ensures StaysPut(s, FindInbox(s, t, m, inbox), t)
  {
    hide Serves, AnyServes, TakesOwn, StaysPut, Goto;
    SameStays(s, t);
    GotoStays(s, s, t, LeaveSender(Errored));
    GotoStays(s, s, t, LeaveSender(Dropped(NoEnabledInbox(s.inboxes))));
    if TakesOwn(s.inboxes, m) {
      OwnIsThere(s.inboxes, m);
      GotoStays(s, s, t, Resolved(m.url, s.inboxes[m.url].reopen));
    } else if Serves(s.inboxes, inbox, m.phone) {
      ServingIsThere(s.inboxes, inbox, m.phone);
      GotoStays(s, s, t, Resolved(inbox, s.inboxes[inbox].reopen));
    }
  }

  lemma OwnIsThere(inboxes: map<int, Inbox>, m: Msg)
    requires TakesOwn(inboxes, m)
    ensures m.url in inboxes
  {
  }

  lemma ServingIsThere(inboxes: map<int, Inbox>, id: int, phone: string)
    requires Serves(inboxes, id, phone)
    ensures id in inboxes
  {
  }

  lemma ResolveStays(s: State, t: Tid, m: Msg, c: Choice)
    requires t in s.threads && AtResolve(s.threads[t].pc)
    ensures StaysPut(s, ResolveStep(s, t, m, c), t)
  {
    hide StaysPut, Goto, FindInbox;
    GotoStays(s, s, t, LeaveSender(Errored));
    if s.threads[t].pc.HaveSender? {
      FindStays(s, t, m, c.inbox);
    } else {
      var pc := s.threads[t].pc;
      GotoStays(s, s, t, LeaveSender(Dropped(ContactDisabled(c.contact, s.disabled))));
      GotoStays(s, s, t, Known(Pair(c.contact, pc.inbox), pc.reopen));
    }
  }

  lemma FetchStays(s: State, t: Tid, m: Msg, c: Choice)
    requires t in s.threads && AtMedia(s.threads[t].pc)
    ensures StaysPut(s, MediaStep(s, t, m, c), t)
  {
    hide InTable, StaysPut, Goto, SameStages;
    var pc := s.threads[t].pc;
    SameStays(s, t);
    FetchStages(pc, c.media);
    GotoStays(s, s, t, LeaveSender(Errored));
    match pc
    case Known(pair, reopen) =>
      GotoStays(s, s, t, LeaveSender(Stored));
      GotoStays(s, s, t, Missing(pair, reopen));
    case Missing(pair, reopen) => GotoStays(s, s, t, Fetched(pair, reopen, c.media));
    case Fetched(pair, reopen, media) => GotoStays(s, s, t, Checked(pair, reopen, media));
  }

  /** All of these places hold the sender lock, and none the other. */
  lemma FetchStages(pc: Pc, media: Media)
    requires AtMedia(pc)
    ensures SameStages(pc, LeaveSender(Errored)) && SameStages(pc, LeaveSender(Stored))
    ensures SameStages(pc, Missing(pc.pair, pc.reopen)) && SameStages(pc, Fetched(pc.pair, pc.reopen, media))
    ensures pc.Fetched? ==> SameStages(pc, Checked(pc.pair, pc.reopen, pc.media))
  {
  }

  lemma LookupStays(s: State, t: Tid, pair: Pair, reopen: bool, media: Media, c: Choice)
    requires t in s.threads && s.threads[t].pc.HaveConv? && s.threads[t].pc.pair == pair
    ensures StaysPut(s, Lookup(s, t, pair, reopen, media, c), t)
  {
    hide AnyOpen, IsOpen, StaysPut, Goto;
    SameStays(s, t);
    GotoStays(s, s, t, LeaveConv(pair, Errored));
    GotoStays(s, s, t, Chosen(pair, c.conv, media));
    GotoStays(s, s, t, NoneOpen(pair, media));
  }

  lemma StoreStays(s: State, t: Tid, m: Msg, c: Choice)
    requires t in s.threads && AtStore(s.threads[t].pc)
    ensures StaysPut(s, StoreStep(s, t, m, c), t)
  {
    hide StaysPut, Goto;
    var pc := s.threads[t].pc;
    SameStays(s, t);
    GotoStays(s, s, t, LeaveConv(pc.pair, Errored));
    match pc
    case NoneOpen(pair, media) =>
      GotoStays(s, s.(convs := s.convs[c.conv := Conv(pair, true)]), t, Chosen(pair, c.conv, media));
    case Chosen(pair, conv, media) =>
      GotoStays(s, s.(table := s.table + [Row(m.id, conv, media)]), t, Inserted(pair, conv, c.found));
    case Inserted(pair, conv, windowOk) =>
      var fate := if windowOk then Stored else Errored;
      GotoStays(s, s, t, LeaveConv(pair, fate));
      if conv in s.convs {
        GotoStays(s, s.(convs := s.convs[conv := s.convs[conv].(open := true)]), t, LeaveConv(pair, fate));
      }
  }

  lemma AgentRegisters(s: State, t: Tid, c: Choice)
    requires InStep(s, t) && s.threads[t].pc.AgentStart?
    ensures Moved(s, AgentLockStep(s, t, c.entry), t)
  {
    hide LocksOk, Moved, Agrees;
    var pair := s.threads[t].pc.pair;
    if t !in s.conv.tickets && c.entry !in s.conv.used {
      RegisterConv(s, t, pair, c.entry, AgentWant(pair));
    } else {
      SameStays(s, t);
      NoLock(s, s, t);
    }
  }

  lemma AgentAcquires(s: State, t: Tid, c: Choice)
    requires InStep(s, t) && s.threads[t].pc.AgentWant?
    ensures Moved(s, AgentLockStep(s, t, c.entry), t)
  {
    hide LocksOk, Moved, Agrees;
    if CanAcquire(s.conv, t) {
      AcquireConv(s, t, AgentHave(s.threads[t].pc.pair));
    } else {
      SameStays(s, t);
      NoLock(s, s, t);
    }
  }

  lemma AgentLeaves(s: State, t: Tid, c: Choice)
    requires InStep(s, t) && (s.threads[t].pc.AgentLeave? || s.threads[t].pc.AgentLeft?)
    ensures Moved(s, AgentLockStep(s, t, c.entry), t)
  {
    hide LocksOk, Moved, Agrees;
    if s.threads[t].pc.AgentLeave? {
      UnlockConv(s, t, AgentLeft(s.threads[t].pc.pair));
    } else {
      DeregisterConv(s, t, s.threads - {t});
    }
  }

  lemma AgentLocks(s: State, t: Tid, c: Choice)
    requires t in s.threads && InStep(s, t) && IsAgent(s.threads[t].pc)
    ensures Moved(s, Create(s, t, c), t)
  {
    hide InStep, Moved, AgentLockStep, AgentDataStep, StaysPut;
    var pc := s.threads[t].pc;
    if pc.AgentStart? {
      AgentRegisters(s, t, c);
    } else if pc.AgentWant? {
      AgentAcquires(s, t, c);
    } else if AtAgentLock(pc) {
      AgentLeaves(s, t, c);
    } else {
      AgentStays(s, t, c);
      NoLock(s, Create(s, t, c), t);
    }
  }

  lemma SettleStays(s: State, t: Tid, fate: Fate)
    requires t in s.threads && s.threads[t].pc.Ready?
    ensures StaysPut(s, Settle(s, t, fate), t)
  {
  }

  /** Unless the worker registers for its sender's lock, it settles the message at once or stays where it is. */
  lemma BeginStays(s: State, t: Tid, c: Choice)
    requires t in s.threads && s.threads[t].pc.Ready? && |s.threads[t].fates| < |s.threads[t].msgs|
    ensures Begin(s, t, c).sender == s.sender ==> StaysPut(s, Begin(s, t, c), t)
  {
    hide Countable, StaysPut, Settle, Goto;
    SameStays(s, t);
    SettleStays(s, t, Errored);
    SettleStays(s, t, Dropped(IgnoredType));
    SettleStays(s, t, Dropped(SystemEvent));
    if t !in s.sender.tickets && Countable(s.sender, Current(s.threads[t]).from) {
      BeginRegisters(s, t, c);
    }
  }

  lemma BeginRegisters(s: State, t: Tid, c: Choice)
    requires t in s.threads && |s.threads[t].fates| < |s.threads[t].msgs|
    requires t !in s.sender.tickets && Countable(s.sender, Current(s.threads[t]).from)
    ensures Goto(s.(sender := Register(s.sender, t, Current(s.threads[t]).from, c.entry)), t, WantSender).sender != s.sender
  {
    assert t in Register(s.sender, t, Current(s.threads[t]).from, c.entry).tickets;
  }

  lemma BeginLocks(s: State, t: Tid, c: Choice)
    requires InStep(s, t) && s.threads[t].pc.Ready? && |s.threads[t].fates| < |s.threads[t].msgs|
    ensures Moved(s, Begin(s, t, c), t)
  {
    hide LocksOk, Moved, StaysPut;
    var s' := Begin(s, t, c);
    if s'.sender == s.sender {
      BeginStays(s, t, c);
      NoLock(s, s', t);
    } else {
      RegisterSender(s, t, c.entry, WantSender);
    }
  }

  lemma SenderAcquires(s: State, t: Tid)
    requires InStep(s, t) && s.threads[t].pc.WantSender?
    ensures Moved(s, SenderStep(s, t), t)
  {
    hide LocksOk, Moved, Agrees;
    if CanAcquire(s.sender, t) {
      AcquireSender(s, t, HaveSender);
    } else {
      SameStays(s, t);
      NoLock(s, s, t);
    }
  }

  lemma SenderLeaves(s: State, t: Tid)
    requires InStep(s, t) && (s.threads[t].pc.LeaveSender? || s.threads[t].pc.LeftSender?)
    ensures Moved(s, SenderStep(s, t), t)
  {
    hide LocksOk, Moved, Agrees;
    if s.threads[t].pc.LeaveSender? {
      UnlockSender(s, t, LeftSender(s.threads[t].pc.fate));
    } else {
      DeregisterSender(s, t, s.threads[t].pc.fate);
    }
  }

  lemma ConvRegisters(s: State, t: Tid, entry: nat)
    requires InStep(s, t) && s.threads[t].pc.Checked?
    ensures Moved(s, ConvLockStep(s, t, entry), t)
  {
    hide LocksOk, Moved, Agrees;
    var pc := s.threads[t].pc;
    if t !in s.conv.tickets && entry !in s.conv.used {
      RegisterConv(s, t, pc.pair, entry, WantConv(pc.pair, pc.reopen, pc.media));
    } else {
      SameStays(s, t);
      NoLock(s, s, t);
    }
  }

  lemma ConvAcquires(s: State, t: Tid, entry: nat)
    requires InStep(s, t) && s.threads[t].pc.WantConv?
    ensures Moved(s, ConvLockStep(s, t, entry), t)
  {
    hide LocksOk, Moved, Agrees;
    var pc := s.threads[t].pc;
    if CanAcquire(s.conv, t) {
      AcquireConv(s, t, HaveConv(pc.pair, pc.reopen, pc.media));
    } else {
      SameStays(s, t);
      NoLock(s, s, t);
    }
  }

  lemma ConvLeaves(s: State, t: Tid, entry: nat)
    requires InStep(s, t) && (s.threads[t].pc.LeaveConv? || s.threads[t].pc.LeftConv?)
    ensures Moved(s, ConvLockStep(s, t, entry), t)
  {
    hide LocksOk, Moved, Agrees;
    var pc := s.threads[t].pc;
    if pc.LeaveConv? {
      UnlockConv(s, t, LeftConv(pc.pair, pc.fate));
    } else {
      DeregisterConv(s, t, s.threads[t := s.threads[t].(pc := LeaveSender(pc.fate))]);
    }
  }

  lemma IngestLocks(s: State, t: Tid, c: Choice)
    requires InStep(s, t) && |s.threads[t].fates| < |s.threads[t].msgs|
    requires !IsAgent(s.threads[t].pc) && !s.threads[t].pc.Ready?
    ensures Moved(s, Ingest(s, t, c), t)
  {
    var th := s.threads[t];
    assert t in s.threads;
    hide InStep, Moved, StaysPut, SenderStep, ResolveStep, MediaStep, ConvLockStep, Lookup, StoreStep;
    var pc := th.pc;
    if pc.WantSender? {
      SenderAcquires(s, t);
    } else if AtSender(pc) {
      SenderLeaves(s, t);
    } else if AtResolve(pc) {
      ResolveStays(s, t, Current(th), c);
      NoLock(s, Ingest(s, t, c), t);
    } else if AtMedia(pc) {
      FetchStays(s, t, Current(th), c);
      NoLock(s, Ingest(s, t, c), t);
    } else if pc.Checked? {
      ConvRegisters(s, t, c.entry);
    } else if pc.WantConv? {
      ConvAcquires(s, t, c.entry);
    } else if AtConvLock(pc) {
      ConvLeaves(s, t, c.entry);
    } else if pc.HaveConv? {
      LookupStays(s, t, pc.pair, pc.reopen, pc.media, c);
      NoLock(s, Ingest(s, t, c), t);
    } else {
      StoreStays(s, t, Current(th), c);
      NoLock(s, Ingest(s, t, c), t);
    }
  }

  lemma ReportStays(s: State, t: Tid, c: Choice)
    requires t in s.threads && !IsAgent(s.threads[t].pc) && |s.threads[t].fates| >= |s.threads[t].msgs|
    requires SenderStage(s.threads[t].pc) == None ==> ConvStage(s.threads[t].pc) == None
    ensures StaysPut(s, StepThread(s, t, c), t)
  {
  }

  lemma LocksStepKeeps(s: State, t: Tid, c: Choice)
    requires LockPart(s) && t in s.threads
    ensures LockPart(StepThread(s, t, c))
  {
    hide LocksOk, Create, Begin, Ingest, OnlyAt, StaysPut;
    var th := s.threads[t];
    var s' := StepThread(s, t, c);
    assert SenderAgrees(s, t) && ConvAgrees(s, t);
    if IsAgent(th.pc) {
      AgentLocks(s, t, c);
    } else if |th.fates| >= |th.msgs| {
      ReportStays(s, t, c);
      NoLock(s, s', t);
    } else if th.pc.Ready? {
      BeginLocks(s, t, c);
    } else {
      IngestLocks(s, t, c);
    }
    LocksFrame(s, s', t);
  }
}
