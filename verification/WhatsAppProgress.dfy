/** No deadlock and no endless work: since the sender lock is always taken before the conversation lock,
    some unfinished thread can step, and every step brings its thread closer to its end. */
module WhatsAppProgress {
  import opened KeyedLocks
  import opened WhatsAppPipeline
  import opened WhatsAppLockPart
  import opened WhatsAppSafety

  function Rank(pc: Pc): nat {
    match pc
    case Ready => 19
    case WantSender => 18
    case HaveSender => 17
    case Resolved(_, _) => 16
    case Known(_, _) => 15
    case Missing(_, _) => 14
    case Fetched(_, _, _) => 13
    case Checked(_, _, _) => 12
    case WantConv(_, _, _) => 11
    case HaveConv(_, _, _) => 10
    case NoneOpen(_, _) => 9
    case Chosen(_, _, _) => 8
    case Inserted(_, _, _) => 7
    case LeaveConv(_, _) => 6
    case LeftConv(_, _) => 5
    case LeaveSender(_) => 4
    case LeftSender(_) => 3
    case AgentStart(_) => 8
    case AgentWant(_) => 7
    case AgentHave(_) => 6
    case AgentNone(_) => 5
    case AgentSend(_, _) => 4
    case AgentUndo(_, _) => 3
    case AgentLeave(_) => 2
    case AgentLeft(_) => 1
  }

  /** How many steps a thread can still take at most. */
  function WorkLeft(th: Thread): nat {
    20 * (if InFlight(th) then |th.msgs| - |th.fates| else 0) + Rank(th.pc)
  }

  /** A step changes nothing, ends its thread, or leaves it strictly less to do; no other thread moves. */
  predicate Descends(s: State, s': State, t: Tid)
    requires t in s.threads
  {
    && OnlyAt(s.threads, s'.threads, t)
    && (s' == s || t !in s'.threads || WorkLeft(s'.threads[t]) < WorkLeft(s.threads[t]))
  }

  lemma SameDescends(s: State, t: Tid)
    requires t in s.threads
    ensures Descends(s, s, t)
  {
  }

  lemma GotoDescends(s: State, s1: State, t: Tid, pc: Pc)
    requires t in s.threads && s1.threads == s.threads && Rank(pc) < Rank(s.threads[t].pc)
    ensures Descends(s, Goto(s1, t, pc), t)
  {
    hide Rank;
  }

  lemma EndDescends(s: State, s': State, t: Tid)
    requires t in s.threads && (s' == s || s'.threads == s.threads - {t})
    ensures Descends(s, s', t)
  {
  }

  lemma AgentInDescends(s: State, t: Tid, c: Choice)
    requires t in s.threads && (s.threads[t].pc.AgentStart? || s.threads[t].pc.AgentWant?)
    ensures Descends(s, AgentLockStep(s, t, c.entry), t)
  {
    hide Register, Acquire, Descends, Goto;
    SameDescends(s, t);
    var pair := s.threads[t].pc.pair;
    if s.threads[t].pc.AgentWant? {
      if CanAcquire(s.conv, t) {
        GotoDescends(s, s.(conv := Acquire(s.conv, t)), t, AgentHave(pair));
      }
    } else if Countable(s.conv, pair) {
      GotoDescends(s, s.(conv := Register(s.conv, t, pair, c.entry)), t, AgentWant(pair));
    }
  }

  lemma AgentOutDescends(s: State, t: Tid, c: Choice)
    requires t in s.threads && (s.threads[t].pc.AgentLeave? || s.threads[t].pc.AgentLeft?)
    ensures Descends(s, AgentLockStep(s, t, c.entry), t)
  {
    hide Unlock, Deregister, Descends, Goto;
    SameDescends(s, t);
    if s.threads[t].pc.AgentLeft? {
      EndDescends(s, AgentLockStep(s, t, c.entry), t);
    } else if At(s.conv, t, Holding) {
      GotoDescends(s, s.(conv := Unlock(s.conv, t)), t, AgentLeft(s.threads[t].pc.pair));
    }
  }

  lemma AgentLockDescends(s: State, t: Tid, c: Choice)
    requires t in s.threads && AtAgentLock(s.threads[t].pc)
    ensures Descends(s, AgentLockStep(s, t, c.entry), t)
  {
    hide AgentLockStep, Descends;
    var pc := s.threads[t].pc;
    if pc.AgentStart? || pc.AgentWant? {
      AgentInDescends(s, t, c);
    } else {
      AgentOutDescends(s, t, c);
    }
  }

  lemma AgentDataDescends(s: State, t: Tid, c: Choice)
    requires t in s.threads && IsAgent(s.threads[t].pc) && !AtAgentLock(s.threads[t].pc)
    ensures Descends(s, AgentDataStep(s, t, c), t)
  {
    hide AnyOpen, Descends, Goto;
    SameDescends(s, t);
    GotoDescends(s, s, t, AgentLeave(s.threads[t].pc.pair));
    match s.threads[t].pc
    case AgentHave(pair) => GotoDescends(s, s, t, AgentNone(pair));
    case AgentNone(pair) =>
      GotoDescends(s, s.(convs := s.convs[c.conv := Conv(pair, true)]), t, AgentSend(pair, c.conv));
    case AgentSend(pair, conv) => GotoDescends(s, s, t, AgentUndo(pair, conv));
    case AgentUndo(pair, conv) => GotoDescends(s, s.(convs := s.convs - {conv}), t, AgentLeave(pair));
  }

  lemma SettleDescends(s: State, s1: State, t: Tid, fate: Fate)
    requires t in s.threads && InFlight(s.threads[t]) && s1.threads == s.threads
    ensures Descends(s, Settle(s1, t, fate), t)
  {
  }

  lemma BeginDescends(s: State, t: Tid, c: Choice)
    requires t in s.threads && InFlight(s.threads[t]) && s.threads[t].pc.Ready?
    ensures Descends(s, Begin(s, t, c), t)
  {
    hide Register, Descends, Goto, Settle;
    SameDescends(s, t);
    SettleDescends(s, s, t, Errored);
    SettleDescends(s, s, t, Dropped(IgnoredType));
    SettleDescends(s, s, t, Dropped(SystemEvent));
    if Countable(s.sender, Current(s.threads[t]).from) {
      GotoDescends(s, s.(sender := Register(s.sender, t, Current(s.threads[t]).from, c.entry)), t, WantSender);
    }
  }

  lemma SenderDescends(s: State, t: Tid)
    requires t in s.threads && InFlight(s.threads[t]) && AtSender(s.threads[t].pc)
    ensures Descends(s, SenderStep(s, t), t)
  {
    hide Acquire, Unlock, Deregister, Descends, Goto, Settle;
    SameDescends(s, t);
    match s.threads[t].pc
    case WantSender =>
      if CanAcquire(s.sender, t) {
        GotoDescends(s, s.(sender := Acquire(s.sender, t)), t, HaveSender);
      }
    case LeaveSender(fate) =>
      if At(s.sender, t, Holding) {
        GotoDescends(s, s.(sender := Unlock(s.sender, t)), t, LeftSender(fate));
      }
    case LeftSender(fate) =>
      if CanDeregister(s.sender, t) {
        SettleDescends(s, s.(sender := Deregister(s.sender, t)), t, fate);
      }
  }

  lemma ConvInDescends(s: State, t: Tid, entry: nat)
    requires t in s.threads && (s.threads[t].pc.Checked? || s.threads[t].pc.WantConv?)
    ensures Descends(s, ConvLockStep(s, t, entry), t)
  {
    hide Register, Acquire, Descends, Goto;
    SameDescends(s, t);
    var pc := s.threads[t].pc;
    if pc.WantConv? {
      if CanAcquire(s.conv, t) {
        GotoDescends(s, s.(conv := Acquire(s.conv, t)), t, HaveConv(pc.pair, pc.reopen, pc.media));
      }
    } else if Countable(s.conv, pc.pair) {
      GotoDescends(s, s.(conv := Register(s.conv, t, pc.pair, entry)), t, WantConv(pc.pair, pc.reopen, pc.media));
    }
  }

  lemma ConvOutDescends(s: State, t: Tid, entry: nat)
    requires t in s.threads && (s.threads[t].pc.LeaveConv? || s.threads[t].pc.LeftConv?)
    ensures Descends(s, ConvLockStep(s, t, entry), t)
  {
    hide Unlock, Deregister, Descends, Goto;
    SameDescends(s, t);
    var pc := s.threads[t].pc;
    if pc.LeaveConv? {
      if At(s.conv, t, Holding) {
        GotoDescends(s, s.(conv := Unlock(s.conv, t)), t, LeftConv(pc.pair, pc.fate));
      }
    } else if CanDeregister(s.conv, t) {
      GotoDescends(s, s.(conv := Deregister(s.conv, t)), t, LeaveSender(pc.fate));
    }
  }

  lemma ConvLockDescends(s: State, t: Tid, entry: nat)
    requires t in s.threads && AtConvLock(s.threads[t].pc)
    ensures Descends(s, ConvLockStep(s, t, entry), t)
  {
    hide ConvLockStep, Descends;
    var pc := s.threads[t].pc;
    if pc.Checked? || pc.WantConv? {
      ConvInDescends(s, t, entry);
    } else {
      ConvOutDescends(s, t, entry);
    }
  }

  lemma FindDescends(s: State, t: Tid, m: Msg, inbox: int)
    requires t in s.threads && s.threads[t].pc.HaveSender?
    ensures Descends(s, FindInbox(s, t, m, inbox), t)
  {
    hide AnyServes, Descends, Goto;
    SameDescends(s, t);
    GotoDescends(s, s, t, LeaveSender(Errored));
    GotoDescends(s, s, t, LeaveSender(Dropped(NoEnabledInbox(s.inboxes))));
    if TakesOwn(s.inboxes, m) {
      GotoDescends(s, s, t, Resolved(m.url, s.inboxes[m.url].reopen));
    } else if Serves(s.inboxes, inbox, m.phone) {
      GotoDescends(s, s, t, Resolved(inbox, s.inboxes[inbox].reopen));
    }
  }

  lemma ResolveDescends(s: State, t: Tid, m: Msg, c: Choice)
    requires t in s.threads && AtResolve(s.threads[t].pc)
    ensures Descends(s, ResolveStep(s, t, m, c), t)
  {
    hide FindInbox, Descends, Goto;
    GotoDescends(s, s, t, LeaveSender(Errored));
    if s.threads[t].pc.HaveSender? {
      FindDescends(s, t, m, c.inbox);
    } else {
      var pc := s.threads[t].pc;
      GotoDescends(s, s, t, LeaveSender(Dropped(ContactDisabled(c.contact, s.disabled))));
      GotoDescends(s, s, t, Known(Pair(c.contact, pc.inbox), pc.reopen));
    }
  }

  lemma FetchDescends(s: State, t: Tid, m: Msg, c: Choice)
    requires t in s.threads && AtMedia(s.threads[t].pc)
    ensures Descends(s, MediaStep(s, t, m, c), t)
  {
    hide InTable, Descends, Goto;
    SameDescends(s, t);
    GotoDescends(s, s, t, LeaveSender(Errored));
    match s.threads[t].pc
    case Known(pair, reopen) =>
      GotoDescends(s, s, t, LeaveSender(Stored));
      GotoDescends(s, s, t, Missing(pair, reopen));
    case Missing(pair, reopen) => GotoDescends(s, s, t, Fetched(pair, reopen, c.media));
    case Fetched(pair, reopen, media) => GotoDescends(s, s, t, Checked(pair, reopen, media));
  }

  lemma LookupDescends(s: State, t: Tid, pair: Pair, reopen: bool, media: Media, c: Choice)
    requires t in s.threads && s.threads[t].pc.HaveConv?
    ensures Descends(s, Lookup(s, t, pair, reopen, media, c), t)
  {
    hide AnyOpen, IsOpen, Descends, Goto;
    SameDescends(s, t);
    GotoDescends(s, s, t, LeaveConv(pair, Errored));
    GotoDescends(s, s, t, Chosen(pair, c.conv, media));
    GotoDescends(s, s, t, NoneOpen(pair, media));
  }

  lemma StoreDescends(s: State, t: Tid, m: Msg, c: Choice)
    requires t in s.threads && AtStore(s.threads[t].pc)
    ensures Descends(s, StoreStep(s, t, m, c), t)
  {
    hide Descends, Goto;
    SameDescends(s, t);
    GotoDescends(s, s, t, LeaveConv(s.threads[t].pc.pair, Errored));
    match s.threads[t].pc
    case NoneOpen(pair, media) =>
      GotoDescends(s, s.(convs := s.convs[c.conv := Conv(pair, true)]), t, Chosen(pair, c.conv, media));
    case Chosen(pair, conv, media) =>
      GotoDescends(s, s.(table := s.table + [Row(m.id, conv, media)]), t, Inserted(pair, conv, c.found));
    case Inserted(pair, conv, windowOk) =>
      var fate := if windowOk then Stored else Errored;
      GotoDescends(s, s, t, LeaveConv(pair, fate));
      if conv in s.convs {
        GotoDescends(s, s.(convs := s.convs[conv := s.convs[conv].(open := true)]), t, LeaveConv(pair, fate));
      }
  }

  lemma IngestDescends(s: State, t: Tid, c: Choice)
    requires t in s.threads && InFlight(s.threads[t]) && !IsAgent(s.threads[t].pc) && !s.threads[t].pc.Ready?
    ensures Descends(s, Ingest(s, t, c), t)
  {
    hide SenderStep, ResolveStep, MediaStep, ConvLockStep, Lookup, StoreStep, Descends;
    var th := s.threads[t];
    var pc := th.pc;
    if AtSender(pc) {
      SenderDescends(s, t);
    } else if AtResolve(pc) {
      ResolveDescends(s, t, Current(th), c);
    } else if AtMedia(pc) {
      FetchDescends(s, t, Current(th), c);
    } else if AtConvLock(pc) {
      ConvLockDescends(s, t, c.entry);
    } else if pc.HaveConv? {
      LookupDescends(s, t, pc.pair, pc.reopen, pc.media, c);
    } else {
      StoreDescends(s, t, Current(th), c);
    }
  }

  lemma StepDescends(s: State, t: Tid, c: Choice)
    requires t in s.threads
    ensures Descends(s, StepThread(s, t, c), t)
  {
    hide AgentLockStep, AgentDataStep, Begin, Ingest;
    var th := s.threads[t];
    if IsAgent(th.pc) {
      if AtAgentLock(th.pc) {
        AgentLockDescends(s, t, c);
      } else {
        AgentDataDescends(s, t, c);
      }
    } else if InFlight(th) {
      if th.pc.Ready? {
        BeginDescends(s, t, c);
      } else {
        IngestDescends(s, t, c);
      }
    }
  }

  predicate IsWaiting(pc: Pc) {
    pc.WantSender? || pc.WantConv? || pc.AgentWant?
  }

  ghost function Above(used: set<nat>): (n: nat)
    ensures forall x | x in used :: x < n
  {
    if used == {} then 0
    else
      var x :| x in used;
      var m := Above(used - {x});
      assert forall y | y in used :: y == x || y in used - {x};
      if x < m then m else x + 1
  }

  /** The inbox with the number the message of thread `t` names, if there is one. */
  ghost function HelpfulInbox(s: State, t: Tid): int
    requires t in s.threads
  {
    var th := s.threads[t];
    if InFlight(th) && AnyServes(s.inboxes, Current(th).phone)
    then (var id :| id in s.inboxes && Serves(s.inboxes, id, Current(th).phone); id) else 0
  }

  /** Answers under which thread `t` is not held up by its environment. */
  ghost function Helpful(s: State, t: Tid): Choice
    requires t in s.threads
  {
    var pc := s.threads[t].pc;
    var conv := if pc.HaveConv? && AnyOpen(s.convs, pc.pair)
                then (var c :| c in s.convs && IsOpen(s.convs, c, pc.pair); c)
                else Above(s.convs.Keys);
    Choice(true, true, if pc.HaveSender? then HelpfulInbox(s, t) else 0, 0, Attached, conv, Above(s.sender.used + s.conv.used))
  }

  ghost predicate CanStep(s: State, t: Tid) {
    t in s.threads && exists c :: StepThread(s, t, c) != s
  }

  lemma AgentLockMoves(s: State, t: Tid)
    requires LocksOk(s.conv) && t in s.threads && ConvAgrees(s, t)
    requires AtAgentLock(s.threads[t].pc) && !s.threads[t].pc.AgentWant?
    ensures AgentLockStep(s, t, Helpful(s, t).entry) != s
  {
    hide LocksOk;
    MappedIsCounted(s.conv, s.threads[t].pc.pair);
    if s.threads[t].pc.AgentLeft? {
      DeregisterKeeps(s.conv, t);
    }
  }

  lemma AgentMoves(s: State, t: Tid)
    requires LocksOk(s.conv) && t in s.threads && ConvAgrees(s, t)
    requires IsAgent(s.threads[t].pc) && !IsWaiting(s.threads[t].pc)
    ensures Create(s, t, Helpful(s, t)) != s
  {
    hide LocksOk, ConvAgrees, AgentLockStep;
    if AtAgentLock(s.threads[t].pc) {
      AgentLockMoves(s, t);
    }
  }

  lemma SenderLockMoves(s: State, t: Tid)
    requires LocksOk(s.sender) && t in s.threads && SenderAgrees(s, t)
    requires InFlight(s.threads[t]) && (s.threads[t].pc.LeaveSender? || s.threads[t].pc.LeftSender?)
    ensures Ingest(s, t, Helpful(s, t)) != s
  {
    hide LocksOk, ResolveStep, MediaStep, ConvLockStep, Lookup, StoreStep, Helpful;
    if s.threads[t].pc.LeftSender? {
      DeregisterKeeps(s.sender, t);
    }
  }

  lemma ConvLockMoves(s: State, t: Tid)
    requires LocksOk(s.conv) && t in s.threads && ConvAgrees(s, t) && InFlight(s.threads[t])
    requires var pc := s.threads[t].pc; pc.LeaveConv? || pc.LeftConv? || pc.Checked?
    ensures Ingest(s, t, Helpful(s, t)) != s
  {
    hide LocksOk, SenderStep, ResolveStep, MediaStep, Lookup, StoreStep;
    match s.threads[t].pc
    case Checked(pair, _, _) => MappedIsCounted(s.conv, pair);
    case LeftConv(_, _) => DeregisterKeeps(s.conv, t);
    case _ =>
  }

  lemma BeginMoves(s: State, t: Tid)
    requires LocksOk(s.sender) && t in s.threads && SenderAgrees(s, t) && InFlight(s.threads[t]) && s.threads[t].pc.Ready?
    ensures Begin(s, t, Helpful(s, t)) != s
  {
    hide LocksOk;
    MappedIsCounted(s.sender, Current(s.threads[t]).from);
  }

  /** Between the locks nothing holds a worker up but its environment. */
  lemma FreeMoves(s: State, t: Tid)
    requires t in s.threads && InFlight(s.threads[t])
    requires var pc := s.threads[t].pc; AtResolve(pc) || AtMedia(pc) || AtStore(pc) || pc.HaveConv?
    ensures Ingest(s, t, Helpful(s, t)) != s
  {
    hide SenderStep, ConvLockStep;
  }

  lemma WorkerMoves(s: State, t: Tid)
    requires LocksOk(s.sender) && LocksOk(s.conv) && t in s.threads && SenderAgrees(s, t) && ConvAgrees(s, t)
    requires !IsAgent(s.threads[t].pc) && !IsWaiting(s.threads[t].pc) && InFlight(s.threads[t])
    ensures StepThread(s, t, Helpful(s, t)) != s
  {
    hide LocksOk, Ingest, Begin, Helpful, SenderAgrees, ConvAgrees;
    var pc := s.threads[t].pc;
    if pc.Ready? {
      BeginMoves(s, t);
    } else if AtSender(pc) {
      SenderLockMoves(s, t);
    } else if AtConvLock(pc) {
      ConvLockMoves(s, t);
    } else {
      FreeMoves(s, t);
    }
  }

  lemma Unblocked(s: State, t: Tid)
    requires LockPart(s) && t in s.threads && !IsWaiting(s.threads[t].pc)
    ensures CanStep(s, t)
  {
    hide LocksOk, Helpful, Create, Begin, Ingest;
    var th := s.threads[t];
    assert SenderAgrees(s, t) && ConvAgrees(s, t);
    if IsAgent(th.pc) {
      AgentMoves(s, t);
    } else if InFlight(th) {
      WorkerMoves(s, t);
    } else {
      assert th.pc.Ready?;
      assert t !in Report(s, t, true).threads;
    }
    assert StepThread(s, t, Helpful(s, t)) != s;
  }

  lemma ConvAcquireMoves(s: State, t: Tid)
    requires t in s.threads && (s.threads[t].pc.WantConv? || s.threads[t].pc.AgentWant?) && CanAcquire(s.conv, t)
    requires s.threads[t].pc.WantConv? ==> InFlight(s.threads[t])
    ensures CanStep(s, t)
  {
    assert StepThread(s, t, Helpful(s, t)).threads[t].pc != s.threads[t].pc;
  }

  /** Whoever holds the conversation lock is not waiting for any lock. */
  lemma ConvHolderMoves(s: State, u: Tid, key: Pair)
    requires LockPart(s) && HoldsKey(s.conv, u, key)
    ensures CanStep(s, u)
  {
    hide LocksOk, CanStep;
    assert SenderAgrees(s, u) && ConvAgrees(s, u);
    Unblocked(s, u);
  }

  lemma ConvWaiterStands(s: State, t: Tid)
    requires LockPart(s) && t in s.threads && (s.threads[t].pc.WantConv? || s.threads[t].pc.AgentWant?)
    ensures At(s.conv, t, Waiting) && (s.threads[t].pc.WantConv? ==> InFlight(s.threads[t]))
  {
    hide LocksOk;
    assert SenderAgrees(s, t) && ConvAgrees(s, t);
  }

  /** A thread at the conversation lock can step, or the thread that holds it can. */
  lemma ConvWaiter(s: State, t: Tid)
    requires LockPart(s) && t in s.threads && (s.threads[t].pc.WantConv? || s.threads[t].pc.AgentWant?)
    ensures exists u :: CanStep(s, u)
  {
    ConvWaiterStands(s, t);
    if CanAcquire(s.conv, t) {
      hide LockPart, CanStep, CanAcquire;
      ConvAcquireMoves(s, t);
    } else {
      BlockedByHolder(s.conv, t);
      hide LockPart, CanStep;
      var u :| u != t && HoldsKey(s.conv, u, s.conv.tickets[t].key);
      ConvHolderMoves(s, u, s.conv.tickets[t].key);
    }
  }

  lemma SenderWaiterStands(s: State, t: Tid)
    requires LockPart(s) && t in s.threads && s.threads[t].pc.WantSender?
    ensures At(s.sender, t, Waiting) && InFlight(s.threads[t])
  {
    hide LocksOk;
    assert SenderAgrees(s, t);
  }

  lemma SenderAcquireMoves(s: State, t: Tid)
    requires t in s.threads && s.threads[t].pc.WantSender? && CanAcquire(s.sender, t) && InFlight(s.threads[t])
    ensures CanStep(s, t)
  {
    hide Create, Begin, ResolveStep, MediaStep, ConvLockStep, Lookup, StoreStep, Helpful;
    assert StepThread(s, t, Helpful(s, t)).threads[t].pc != s.threads[t].pc;
  }

  /** Whoever holds the sender lock can step, or waits at the conversation lock. */
  lemma SenderHolderMoves(s: State, u: Tid, key: string)
    requires LockPart(s) && HoldsKey(s.sender, u, key)
    ensures exists v :: CanStep(s, v)
  {
    hide LocksOk, CanStep;
    assert SenderAgrees(s, u);
    if s.threads[u].pc.WantConv? {
      ConvWaiter(s, u);
    } else {
      Unblocked(s, u);
    }
  }

  lemma SenderWaiter(s: State, t: Tid)
    requires LockPart(s) && t in s.threads && s.threads[t].pc.WantSender?
    ensures exists u :: CanStep(s, u)
  {
    SenderWaiterStands(s, t);
    if CanAcquire(s.sender, t) {
      hide LockPart, CanStep, CanAcquire;
      SenderAcquireMoves(s, t);
    } else {
      BlockedByHolder(s.sender, t);
      hide LockPart, CanStep;
      var u :| u != t && HoldsKey(s.sender, u, s.sender.tickets[t].key);
      SenderHolderMoves(s, u, s.sender.tickets[t].key);
    }
  }

  /** If any thread is unfinished, some unfinished thread can step. */
  lemma SomeoneSteps(s: State)
    requires LockPart(s) && s.threads != map[]
    ensures exists t :: CanStep(s, t)
  {
    hide LockPart, CanStep;
    var t :| t in s.threads;
    var pc := s.threads[t].pc;
    if pc.WantSender? {
      SenderWaiter(s, t);
    } else if IsWaiting(pc) {
      ConvWaiter(s, t);
    } else {
      Unblocked(s, t);
    }
  }

  /** In every reachable state with an unfinished thread, some unfinished thread can step. */
  lemma NoDeadlock(senderOf: string -> string, labels: seq<Label>)
    ensures var s := Run(senderOf, labels);
            s.threads != map[] ==> exists t :: CanStep(s, t)
  {
    hide LockPart, DataPart, CanStep;
    RunKeeps(senderOf, labels);
    if Run(senderOf, labels).threads != map[] {
      SomeoneSteps(Run(senderOf, labels));
    }
  }
}
