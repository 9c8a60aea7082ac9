/** The handlers in the form the program runs them, changing the tables in place. Beside its tables a desk carries the
    state of the pipeline machine: every handler takes exactly the steps its thread takes there, while other threads may
    be anywhere. */
module WhatsAppHandlers {
  import opened Prelude
  import opened KeyedLocks
  import opened WhatsAppPipeline
  import opened WhatsAppLockPart
  import opened WhatsAppSafety
  import opened WhatsAppProgress
  import opened WhatsAppMedia

  /** What the database, the contact lookup and the media server do during one ingest. */
  datatype Env = Env(systemOk: bool, inboxOk: bool, contact: Option<int>, duplicateOk: bool,
                     hasMedia: bool, attempts: nat -> Attempt, ctx: Context, timerWins: nat -> bool, maxBytes: nat,
                     lookupOk: bool, reopenable: Option<nat>, createOk: bool, insertOk: bool, reopenOk: bool, windowOk: bool)

  predicate Ordinary(m: Msg) {
    m.id != "" && m.from != "" && m.kind !in IGNORED_TYPES && m.kind != "system"
  }

  /** A step of the thread, or its context being cancelled. */
  datatype Move = Choose(choice: Choice) | CancelNow

  function Cancelling(s: State, t: Tid): State
    requires t in s.threads
  {
    s.(threads := s.threads[t := s.threads[t].(cancelled := true)])
  }

  function Steps(s: State, t: Tid, moves: seq<Move>): State {
    if moves == [] then s
    else
      var before := Steps(s, t, moves[..|moves| - 1]);
      if t !in before.threads then before
      else match moves[|moves| - 1]
        case Choose(c) => StepThread(before, t, c)
        case CancelNow => Cancelling(before, t)
  }

  /** The thread can get from one state to the other by moves of its own, no other thread taking any. */
  ghost predicate Reach(s: State, s': State, t: Tid) {
    exists moves :: s' == Steps(s, t, moves)
  }

  lemma ReachSelf(s: State, t: Tid)
    ensures Reach(s, s, t)
  {
    assert s == Steps(s, t, []);
  }

  lemma ReachNext(s: State, s': State, t: Tid, c: Choice)
    requires Reach(s, s', t) && t in s'.threads
    ensures Reach(s, StepThread(s', t, c), t)
  {
    hide StepThread;
    var moves :| s' == Steps(s, t, moves);
    assert (moves + [Choose(c)])[..|moves + [Choose(c)]| - 1] == moves;
    assert StepThread(s', t, c) == Steps(s, t, moves + [Choose(c)]);
  }

  lemma ReachCancel(s: State, t: Tid)
    requires t in s.threads
    ensures Reach(s, Cancelling(s, t), t)
  {
    assert [CancelNow][..0] == [];
    assert Cancelling(s, t) == Steps(s, t, [CancelNow]);
  }

  lemma {:induction false} StepsTwice(s: State, t: Tid, a: seq<Move>, b: seq<Move>)
    ensures Steps(s, t, a + b) == Steps(Steps(s, t, a), t, b)
  {
    hide StepThread;
    if b == [] {
      assert a + b == a;
    } else {
      StepsTwice(s, t, a, b[..|b| - 1]);
      assert (a + b)[..|a + b| - 1] == a + b[..|b| - 1];
    }
  }

  lemma ReachFurther(s: State, s': State, s'': State, t: Tid)
    requires Reach(s, s', t) && Reach(s', s'', t)
    ensures Reach(s, s'', t)
  {
    var a :| s' == Steps(s, t, a);
    var b :| s'' == Steps(s', t, b);
    StepsTwice(s, t, a, b);
    assert s'' == Steps(s, t, a + b);
  }

  lemma {:induction false} StepsLeaveOthers(s: State, t: Tid, moves: seq<Move>)
    ensures OnlyAt(s.threads, Steps(s, t, moves).threads, t)
  {
    hide StepThread;
    if moves != [] {
      StepsLeaveOthers(s, t, moves[..|moves| - 1]);
      var before := Steps(s, t, moves[..|moves| - 1]);
      if t in before.threads && moves[|moves| - 1].Choose? {
        StepDescends(before, t, moves[|moves| - 1].choice);
      }
    }
  }

  /** No other thread holds a lock. */
  predicate OthersIdle(s: State, t: Tid) {
    forall u | u in s.threads && u != t :: SenderStage(s.threads[u].pc) != Some(Holding) && ConvStage(s.threads[u].pc) != Some(Holding)
  }

  lemma OthersStayIdle(s: State, s': State, t: Tid)
    requires Reach(s, s', t) && OthersIdle(s, t)
    ensures OthersIdle(s', t)
  {
    var moves :| s' == Steps(s, t, moves);
    StepsLeaveOthers(s, t, moves);
    hide Steps, SenderStage, ConvStage;
  }

  /** Nobody holds the key at the moment. */
  predicate Free<K, E>(l: Locks<K, E>, key: K) {
    key in l.entries ==> l.entries[key] !in l.owner
  }

  lemma OwnersStandThere(s: State)
    requires LockPart(s)
    ensures forall e | e in s.sender.owner :: s.sender.owner[e] in s.threads && SenderStage(s.threads[s.sender.owner[e]].pc) == Some(Holding)
    ensures forall e | e in s.conv.owner :: s.conv.owner[e] in s.threads && ConvStage(s.threads[s.conv.owner[e]].pc) == Some(Holding)
  {
    hide SenderStage, ConvStage, TicketsCurrent, CountsExact, EntriesDistinct;
    forall e | e in s.sender.owner
      ensures s.sender.owner[e] in s.threads && SenderStage(s.threads[s.sender.owner[e]].pc) == Some(Holding)
    {
      assert SenderAgrees(s, s.sender.owner[e]);
    }
    forall e | e in s.conv.owner
      ensures s.conv.owner[e] in s.threads && ConvStage(s.threads[s.conv.owner[e]].pc) == Some(Holding)
    {
      assert ConvAgrees(s, s.conv.owner[e]);
    }
  }

  lemma IdleIsFree(senderOf: string -> string, s: State, t: Tid)
    requires Inv(senderOf, s) && OthersIdle(s, t)
    requires t in s.threads && SenderStage(s.threads[t].pc) != Some(Holding) && ConvStage(s.threads[t].pc) != Some(Holding)
    ensures forall key :: Free(s.sender, key)
    ensures forall key :: Free(s.conv, key)
  {
    hide LockPart, DataPart, SenderStage, ConvStage;
    OwnersStandThere(s);
  }

  function Ask(ok: bool): Choice {
    Choice(ok, true, 0, 0, Attached, 0, 0)
  }

  // ----- what single steps of a lone thread do

  lemma FreshIsFree<K, E>(l: Locks<K, E>, entry: E)
    requires LocksOk(l) && entry !in l.used
    ensures entry !in l.owner
  {
  }

  lemma RegisterFree<K, E>(l: Locks<K, E>, t: Tid, key: K, entry: E)
    requires LocksOk(l) && Free(l, key) && entry !in l.used
    ensures Countable(l, key) && CanAcquire(Register(l, t, key, entry), t)
  {
    hide LocksOk;
    MappedIsCounted(l, key);
    FreshIsFree(l, entry);
  }

  lemma Stands(s: State, t: Tid)
    requires LockPart(s) && t in s.threads
    ensures LocksOk(s.sender) && LocksOk(s.conv) && SenderAgrees(s, t) && ConvAgrees(s, t)
  {
    hide LocksOk;
  }

  lemma Dispatch(s: State, t: Tid, c: Choice)
    requires t in s.threads && InFlight(s.threads[t]) && !IsAgent(s.threads[t].pc) && !s.threads[t].pc.Ready?
    ensures var th := s.threads[t];
            var pc := th.pc;
            && (AtSender(pc) ==> StepThread(s, t, c) == SenderStep(s, t))
            && (AtResolve(pc) ==> StepThread(s, t, c) == ResolveStep(s, t, Current(th), c))
            && (AtMedia(pc) ==> StepThread(s, t, c) == MediaStep(s, t, Current(th), c))
            && (AtConvLock(pc) ==> StepThread(s, t, c) == ConvLockStep(s, t, c.entry))
            && (pc.HaveConv? ==> StepThread(s, t, c) == Lookup(s, t, pc.pair, pc.reopen, pc.media, c))
            && (AtStore(pc) ==> StepThread(s, t, c) == StoreStep(s, t, Current(th), c))
  {
    hide SenderStep, ResolveStep, MediaStep, ConvLockStep, StoreStep, Lookup;
  }

  lemma RegistersSender(s: State, t: Tid, entry: nat)
    requires LockPart(s) && t in s.threads && s.threads[t].pc.Ready? && InFlight(s.threads[t]) && Ordinary(Current(s.threads[t]))
    requires Free(s.sender, Current(s.threads[t]).from) && entry !in s.sender.used
    ensures var s1 := StepThread(s, t, Ask(true).(entry := entry));
            && s1 == s.(sender := s1.sender, threads := s.threads[t := s.threads[t].(pc := WantSender)])
            && CanAcquire(s1.sender, t)
  {
    hide LockPart, LocksOk, Ingest, Create, Register, Countable, CanAcquire;
    Stands(s, t);
    RegisterFree(s.sender, t, Current(s.threads[t]).from, entry);
  }

  lemma AcquiresSender(s: State, t: Tid, c: Choice)
    requires t in s.threads && InFlight(s.threads[t]) && s.threads[t].pc.WantSender? && CanAcquire(s.sender, t)
    ensures var s1 := StepThread(s, t, c);
            s1 == s.(sender := s1.sender, threads := s.threads[t := s.threads[t].(pc := HaveSender)])
  {
    hide StepThread, CanAcquire;
    Dispatch(s, t, c);
  }

  lemma LeavesSender(s: State, t: Tid)
    requires LockPart(s) && t in s.threads && s.threads[t].pc.LeaveSender? && InFlight(s.threads[t])
    ensures var c := Ask(true);
            var s1 := StepThread(s, t, c);
            && t in s1.threads && s1.threads[t].pc.LeftSender?
            && s1 == s.(sender := s1.sender, threads := s.threads[t := s.threads[t].(pc := LeftSender(s.threads[t].pc.fate))])
  {
    hide LockPart, LocksOk, StepThread, Unlock;
    Stands(s, t);
    Dispatch(s, t, Ask(true));
  }

  lemma LeftSenderSettles(s: State, t: Tid)
    requires LockPart(s) && t in s.threads && s.threads[t].pc.LeftSender? && InFlight(s.threads[t])
    ensures var th := s.threads[t];
            var s1 := StepThread(s, t, Ask(true));
            && t in s1.threads && s1.threads[t] == th.(fates := th.fates + [th.pc.fate], pc := Ready)
            && s1 == s.(sender := s1.sender, threads := s.threads[t := s1.threads[t]])
  {
    hide LockPart, LocksOk, StepThread, Deregister;
    Stands(s, t);
    Dispatch(s, t, Ask(true));
    DeregisterKeeps(s.sender, t);
  }

  lemma RegistersConv(s: State, t: Tid, entry: nat)
    requires LockPart(s) && t in s.threads && s.threads[t].pc.Checked? && InFlight(s.threads[t])
    requires Free(s.conv, s.threads[t].pc.pair) && entry !in s.conv.used
    ensures var pc := s.threads[t].pc;
            var s1 := StepThread(s, t, Ask(true).(entry := entry));
            && s1 == s.(conv := s1.conv, threads := s.threads[t := s.threads[t].(pc := WantConv(pc.pair, pc.reopen, pc.media))])
            && CanAcquire(s1.conv, t)
  {
    hide LockPart, LocksOk, StepThread, Register, Countable, CanAcquire;
    Stands(s, t);
    Dispatch(s, t, Ask(true).(entry := entry));
    RegisterFree(s.conv, t, s.threads[t].pc.pair, entry);
  }

  lemma AcquiresConv(s: State, t: Tid, c: Choice)
    requires t in s.threads && InFlight(s.threads[t]) && s.threads[t].pc.WantConv? && CanAcquire(s.conv, t)
    ensures var pc := s.threads[t].pc;
            var s1 := StepThread(s, t, c);
            s1 == s.(conv := s1.conv, threads := s.threads[t := s.threads[t].(pc := HaveConv(pc.pair, pc.reopen, pc.media))])
  {
    hide StepThread, CanAcquire;
    Dispatch(s, t, c);
  }

  lemma LeavesConv(s: State, t: Tid)
    requires LockPart(s) && t in s.threads && s.threads[t].pc.LeaveConv? && InFlight(s.threads[t])
    ensures var pc := s.threads[t].pc;
            var s1 := StepThread(s, t, Ask(true));
            && t in s1.threads
            && s1 == s.(conv := s1.conv, threads := s.threads[t := s.threads[t].(pc := LeftConv(pc.pair, pc.fate))])
  {
    hide LockPart, LocksOk, StepThread, Unlock;
    Stands(s, t);
    Dispatch(s, t, Ask(true));
  }

  lemma LeftConvReturns(s: State, t: Tid)
    requires LockPart(s) && t in s.threads && s.threads[t].pc.LeftConv? && InFlight(s.threads[t])
    ensures var pc := s.threads[t].pc;
            var s1 := StepThread(s, t, Ask(true));
            && t in s1.threads
            && s1 == s.(conv := s1.conv, threads := s.threads[t := s.threads[t].(pc := LeaveSender(pc.fate))])
  {
    hide LockPart, LocksOk, StepThread, Deregister;
    Stands(s, t);
    Dispatch(s, t, Ask(true));
    DeregisterKeeps(s.conv, t);
  }

  lemma BeginSettles(s: State, t: Tid, ok: bool)
    requires t in s.threads && InFlight(s.threads[t]) && s.threads[t].pc.Ready? && !Ordinary(Current(s.threads[t]))
    ensures StepThread(s, t, Ask(ok)) == Settle(s, t, Preliminary(Current(s.threads[t]), ok))
  {
    hide Register, Countable;
  }

  /** What becomes of a message that is not ordinary. */
  function Preliminary(m: Msg, systemOk: bool): Fate
    requires !Ordinary(m)
  {
    if m.id == "" || m.from == "" then Errored
    else if m.kind in IGNORED_TYPES then Dropped(IgnoredType)
    else if systemOk then Dropped(SystemEvent) else Errored
  }

  lemma NeverStored(m: Msg, systemOk: bool)
    requires !Ordinary(m)
    ensures Preliminary(m, systemOk) != Stored
  {
  }

  datatype Resolution = Found(inbox: int) | NotThere | NoneEnabled

  datatype Progress<T> = Settled(fate: Fate) | GoOn(value: T)

  datatype Target = Target(pair: Pair, reopen: bool)

  predicate Cancelled(env: Env) {
    IsCancelled(env.ctx, AFTER_FETCH)
  }

  /** There is nothing to download, or one of the attempts does not break. */
  predicate Settles(env: Env) {
    !env.hasMedia || exists k | 1 <= k <= MAX_ATTEMPTS :: !OutcomeOf(env.attempts(k), env.maxBytes).Broke?
  }

  /** The delivery's inbox or another enabled one takes the message. */
  predicate SomeTakes(inboxes: map<int, Inbox>, m: Msg) {
    TakesOwn(inboxes, m) || (m.phone != "" && AnyServes(inboxes, m.phone))
  }

  /** Nothing fails, is disabled or is cancelled. */
  predicate Smooth(env: Env, inboxes: map<int, Inbox>, disabled: set<int>, m: Msg) {
    && env.inboxOk && env.contact.Some? && env.contact.value !in disabled && SomeTakes(inboxes, m)
    && env.duplicateOk && !Cancelled(env) && Settles(env)
    && env.lookupOk && env.createOk && env.insertOk && env.windowOk
  }

  /** What the download may hand on: the body of an attempt, a placeholder for a coded reason, or nothing to download. */
  ghost predicate MediaFrom(env: Env, media: Media) {
    match media
    case TextOnly => !env.hasMedia
    case Attached =>
      exists n, body :: Reaches(env.attempts, env.ctx, n, env.maxBytes) && OutcomeOf(env.attempts(n), env.maxBytes) == Downloaded(body) && body != []
    case Placeholder => exists n :: Reaches(env.attempts, env.ctx, n, env.maxBytes) && Hopeless(env.attempts, n, env.maxBytes)
    case CutShort => Cancelled(env)
  }

  /** The table is as before or ends in one new row: the message, with its media, in a conversation of the pair. */
  ghost predicate AtMostStored(before: seq<Row>, after: seq<Row>, m: Msg, pair: Pair, media: Media, convs: map<nat, Conv>) {
    || after == before
    || (|after| == |before| + 1 && after[..|before|] == before
        && after[|before|].id == m.id && after[|before|].media == media
        && after[|before|].conv in convs && convs[after[|before|].conv].pair == pair)
  }

  /** Nothing changes, or a conversation is opened, new or again, for a pair that had none open. */
  ghost predicate OneOpened(before: map<nat, Conv>, after: map<nat, Conv>, pair: Pair) {
    after == before || (!AnyOpen(before, pair) && exists c: nat :: (c in before ==> before[c].pair == pair) && after == before[c := Conv(pair, true)])
  }

  /** The inbox takes the message: it is enabled and has the number the message names, if it names one; and it is the one
      of the delivery, unless that cannot take the message. */
  predicate Serving(inboxes: map<int, Inbox>, m: Msg, id: int) {
    && id in inboxes && inboxes[id].enabled && (m.phone == "" || inboxes[id].phone == m.phone)
    && (id == m.url || (m.phone != "" && !(m.url in inboxes && inboxes[m.url].enabled && inboxes[m.url].phone == m.phone)))
  }

  /** The conversation picked for the pair: an open one if there is one, else the one that may be reopened, else a new one. */
  ghost predicate Picked(before: map<nat, Conv>, after: map<nat, Conv>, pair: Pair, reopen: bool, reopenable: Option<nat>, conv: nat) {
    && conv in after && after[conv].pair == pair
    && if exists c :: c in before && before[c].open && before[c].pair == pair then
         conv in before && before[conv].open && after.Keys == before.Keys
       else if reopen && reopenable.Some? && reopenable.value in before && before[reopenable.value].pair == pair then
         conv == reopenable.value && after.Keys == before.Keys
       else
         conv !in before && after.Keys == before.Keys + {conv}
  }

  /** A message that is stored goes into the conversation picked for its contact in an inbox that takes it, which is open
      afterwards unless reopening it fails. */
  ghost predicate RightPlace(inboxes: map<int, Inbox>, before: map<nat, Conv>, after: map<nat, Conv>, m: Msg, pair: Pair, env: Env, conv: nat) {
    && Serving(inboxes, m, pair.inbox)
    && Picked(before, after, pair, inboxes[pair.inbox].reopen, env.reopenable, conv)
    && (env.reopenOk ==> after[conv].open)
  }

  lemma OpenOutright(convs: map<nat, Conv>, pair: Pair)
    ensures !AnyOpen(convs, pair) <==> forall c | c in convs && convs[c].pair == pair :: !convs[c].open
  {
    if !AnyOpen(convs, pair) {
      forall c | c in convs && convs[c].pair == pair ensures !convs[c].open {
        assert !IsOpen(convs, c, pair);
      }
    }
  }

  /** Why an ordinary message is dropped. */
  predicate DropFits(inboxes: map<int, Inbox>, disabled: set<int>, m: Msg, env: Env, reason: Reason) {
    match reason
    case IgnoredType => m.kind == "reaction" || m.kind == "ephemeral" || m.kind == "request_welcome"
    case SystemEvent => m.kind == "system"
    case NoEnabledInbox(seen) => seen == inboxes && m.url in inboxes && forall id | id in inboxes :: !Serving(inboxes, m, id)
    case ContactDisabled(contact, those) => those == disabled && env.contact == Some(contact) && contact in disabled
  }

  /** One open conversation of the pair is new, and nothing else changes. */
  ghost predicate Added(before: map<nat, Conv>, after: map<nat, Conv>, pair: Pair) {
    exists c: nat :: c !in before && after == before[c := Conv(pair, true)]
  }

  // ----- the steps of a message that is under way, one place at a time

  lemma InboxSteps(s: State, t: Tid, r: Resolution)
    requires t in s.threads && InFlight(s.threads[t]) && s.threads[t].pc.HaveSender?
    requires var m := Current(s.threads[t]);
             match r
             case Found(id) => if TakesOwn(s.inboxes, m) then id == m.url else m.phone != "" && Serves(s.inboxes, id, m.phone)
             case NotThere => !TakesOwn(s.inboxes, m) && !(m.phone != "" && AnyServes(s.inboxes, m.phone)) && m.url !in s.inboxes
             case NoneEnabled => NoneTakes(s.inboxes, m)
    ensures StepThread(s, t, Ask(false)) == Goto(s, t, LeaveSender(Errored))
    ensures match r
            case Found(id) =>
              && id in s.inboxes
              && StepThread(s, t, Ask(true).(inbox := id)) == Goto(s, t, Resolved(id, s.inboxes[id].reopen))
            case NotThere => StepThread(s, t, Ask(true)) == Goto(s, t, LeaveSender(Errored))
            case NoneEnabled => StepThread(s, t, Ask(true)) == Goto(s, t, LeaveSender(Dropped(NoEnabledInbox(s.inboxes))))
  {
    hide StepThread, Goto;
    Dispatch(s, t, Ask(false));
    Dispatch(s, t, Ask(true));
    if r.Found? {
      Dispatch(s, t, Ask(true).(inbox := r.inbox));
    }
  }

  lemma ContactSteps(s: State, t: Tid, contact: int)
    requires t in s.threads && InFlight(s.threads[t]) && s.threads[t].pc.Resolved?
    ensures StepThread(s, t, Ask(false)) == Goto(s, t, LeaveSender(Errored))
    ensures var pc := s.threads[t].pc;
            StepThread(s, t, Ask(true).(contact := contact)) ==
            Goto(s, t, if contact in s.disabled then LeaveSender(Dropped(ContactDisabled(contact, s.disabled)))
                       else Known(Pair(contact, pc.inbox), pc.reopen))
  {
    hide StepThread, Goto;
    Dispatch(s, t, Ask(false));
    Dispatch(s, t, Ask(true).(contact := contact));
  }

  lemma DuplicateSteps(s: State, t: Tid)
    requires t in s.threads && InFlight(s.threads[t]) && s.threads[t].pc.Known?
    ensures StepThread(s, t, Ask(false)) == Goto(s, t, LeaveSender(Errored))
    ensures var pc := s.threads[t].pc;
            StepThread(s, t, Ask(true)) ==
            Goto(s, t, if InTable(s.table, Current(s.threads[t]).id) then LeaveSender(Stored) else Missing(pc.pair, pc.reopen))
  {
    hide StepThread, Goto, InTable;
    Dispatch(s, t, Ask(false));
    Dispatch(s, t, Ask(true));
  }

  lemma DownloadSteps(s: State, t: Tid, media: Media)
    requires t in s.threads && InFlight(s.threads[t]) && s.threads[t].pc.Missing?
    requires media.CutShort? ==> s.threads[t].cancelled
    ensures StepThread(s, t, Ask(false)) == Goto(s, t, LeaveSender(Errored))
    ensures var pc := s.threads[t].pc;
            StepThread(s, t, Ask(true).(media := media)) == Goto(s, t, Fetched(pc.pair, pc.reopen, media))
  {
    hide StepThread, Goto;
    Dispatch(s, t, Ask(false));
    Dispatch(s, t, Ask(true).(media := media));
  }

  lemma CancelSteps(s: State, t: Tid)
    requires t in s.threads && InFlight(s.threads[t]) && s.threads[t].pc.Fetched?
    ensures var th := s.threads[t];
            StepThread(s, t, Ask(true)) ==
            Goto(s, t, if th.cancelled then LeaveSender(Errored) else Checked(th.pc.pair, th.pc.reopen, th.pc.media))
  {
    hide StepThread, Goto;
    Dispatch(s, t, Ask(true));
  }

  /** Where the lookup takes the thread: to an open conversation, to one that may be reopened, or to a new one. */
  lemma LookupSteps(s: State, t: Tid, chosen: Option<nat>)
    requires t in s.threads && InFlight(s.threads[t]) && s.threads[t].pc.HaveConv?
    requires var pc := s.threads[t].pc;
             match chosen
             case Some(c) => IsOpen(s.convs, c, pc.pair) || (!AnyOpen(s.convs, pc.pair) && pc.reopen && c in s.convs && s.convs[c].pair == pc.pair)
             case None => !AnyOpen(s.convs, pc.pair)
    ensures var pc := s.threads[t].pc;
            && StepThread(s, t, Ask(false)) == Goto(s, t, LeaveConv(pc.pair, Errored))
            && match chosen
               case Some(c) => StepThread(s, t, Ask(true).(conv := c)) == Goto(s, t, Chosen(pc.pair, c, pc.media))
               case None => StepThread(s, t, Ask(true).(found := false)) == Goto(s, t, NoneOpen(pc.pair, pc.media))
  {
    hide StepThread, Goto;
    Dispatch(s, t, Ask(false));
    match chosen
    case Some(c) => Dispatch(s, t, Ask(true).(conv := c));
    case None => Dispatch(s, t, Ask(true).(found := false));
  }

  lemma CreateSteps(s: State, t: Tid, conv: nat)
    requires t in s.threads && InFlight(s.threads[t]) && s.threads[t].pc.NoneOpen? && conv !in s.convs
    ensures var pc := s.threads[t].pc;
            && StepThread(s, t, Ask(false)) == Goto(s, t, LeaveConv(pc.pair, Errored))
            && StepThread(s, t, Ask(true).(conv := conv)) ==
               Goto(s.(convs := s.convs[conv := Conv(pc.pair, true)]), t, Chosen(pc.pair, conv, pc.media))
  {
    hide StepThread, Goto;
    Dispatch(s, t, Ask(false));
    Dispatch(s, t, Ask(true).(conv := conv));
  }

  lemma InsertSteps(s: State, t: Tid, windowOk: bool)
    requires t in s.threads && InFlight(s.threads[t]) && s.threads[t].pc.Chosen?
    ensures var pc := s.threads[t].pc;
            && StepThread(s, t, Ask(false)) == Goto(s, t, LeaveConv(pc.pair, Errored))
            && StepThread(s, t, Ask(true).(found := windowOk)) ==
               Goto(s.(table := s.table + [Row(Current(s.threads[t]).id, pc.conv, pc.media)]), t, Inserted(pc.pair, pc.conv, windowOk))
  {
    hide StepThread, Goto;
    Dispatch(s, t, Ask(false));
    Dispatch(s, t, Ask(true).(found := windowOk));
  }

  lemma ReopenSteps(s: State, t: Tid)
    requires t in s.threads && InFlight(s.threads[t]) && s.threads[t].pc.Inserted? && s.threads[t].pc.conv in s.convs
    ensures var pc := s.threads[t].pc;
            var fate := if pc.windowOk then Stored else Errored;
            && StepThread(s, t, Ask(false)) == Goto(s, t, LeaveConv(pc.pair, fate))
            && StepThread(s, t, Ask(true)) ==
               Goto(s.(convs := s.convs[pc.conv := s.convs[pc.conv].(open := true)]), t, LeaveConv(pc.pair, fate))
  {
    hide StepThread, Goto;
    Dispatch(s, t, Ask(false));
    Dispatch(s, t, Ask(true));
  }

  /** What an ingest may do to the tables: store this message once in a conversation of its contact, opening at most one,
      and nothing at all for a duplicate, a drop or a cancelled context. */
  ghost predicate Ingested(inboxes: map<int, Inbox>, disabled: set<int>, before: seq<Row>, after: seq<Row>,
                           convs: map<nat, Conv>, convs': map<nat, Conv>, m: Msg, env: Env, fate: Fate) {
    && (fate == Stored ==> InTable(before, m.id) || after != before)
    && (fate.Dropped? ==> DropFits(inboxes, disabled, m, env, fate.reason))
    && (InTable(before, m.id) || fate.Dropped? || Cancelled(env) || env.contact.None? ==> after == before && convs' == convs)
    && (env.contact.Some? ==> exists pair: Pair, media: Media ::
          pair.contact == env.contact.value && (after != before ==> MediaFrom(env, media))
          && AtMostStored(before, after, m, pair, media, convs') && OneOpened(convs, convs', pair)
          && (after != before ==>
                pair.contact !in disabled && RightPlace(inboxes, convs, convs', m, pair, env, after[|before|].conv)))
  }

  lemma NothingStored(inboxes: map<int, Inbox>, disabled: set<int>, table: seq<Row>, convs: map<nat, Conv>, m: Msg, env: Env, fate: Fate)
    requires fate == Stored ==> InTable(table, m.id)
    requires fate.Dropped? ==> DropFits(inboxes, disabled, m, env, fate.reason)
    ensures Ingested(inboxes, disabled, table, table, convs, convs, m, env, fate)
  {
    hide InTable, MediaFrom, DropFits, RightPlace;
    if env.contact.Some? {
      var p := Pair(env.contact.value, 0);
      assert AtMostStored(table, table, m, p, TextOnly, convs) && OneOpened(convs, convs, p);
    }
  }

  /** The new row, if there is one, is in the right place. */
  ghost predicate PlacedWell(inboxes: map<int, Inbox>, before: seq<Row>, after: seq<Row>, convs: map<nat, Conv>, convs': map<nat, Conv>,
                             m: Msg, pair: Pair, env: Env) {
    after != before ==> |after| > |before| && RightPlace(inboxes, convs, convs', m, pair, env, after[|before|].conv)
  }

  lemma StoredOrNot(inboxes: map<int, Inbox>, disabled: set<int>, before: seq<Row>, after: seq<Row>,
                    convs: map<nat, Conv>, convs': map<nat, Conv>, m: Msg, env: Env, fate: Fate, pair: Pair, media: Media)
    requires env.contact == Some(pair.contact) && !InTable(before, m.id) && !Cancelled(env) && MediaFrom(env, media)
    requires AtMostStored(before, after, m, pair, media, convs') && OneOpened(convs, convs', pair)
    requires PlacedWell(inboxes, before, after, convs, convs', m, pair, env)
    requires !fate.Dropped? && (fate == Stored ==> after != before) && pair.contact !in disabled
    ensures Ingested(inboxes, disabled, before, after, convs, convs', m, env, fate)
  {
    hide InTable, MediaFrom, OneOpened, RightPlace;
  }

  lemma NotStored(table: seq<Row>, m: Msg, pair: Pair, media: Media, convs: map<nat, Conv>)
    ensures AtMostStored(table, table, m, pair, media, convs)
  {
  }

  /** An insert into the conversation that was picked, with or without the reopening after it. */
  lemma PlacesPicked(table: seq<Row>, table': seq<Row>, before: map<nat, Conv>, chosen: map<nat, Conv>, after: map<nat, Conv>,
                     m: Msg, to: Target, media: Media, env: Env, conv: nat)
    requires Picked(before, chosen, to.pair, to.reopen, env.reopenable, conv) && OneOpened(before, chosen, to.pair)
    requires OnlyOpen(chosen, to.pair, conv)
    requires table' == if env.insertOk then table + [Row(m.id, conv, media)] else table
    requires after == if env.insertOk && env.reopenOk then chosen[conv := chosen[conv].(open := true)] else chosen
    ensures AtMostStored(table, table', m, to.pair, media, after) && OneOpened(before, after, to.pair)
    ensures table' != table ==>
              && |table'| > |table| && table'[|table|].conv == conv
              && Picked(before, after, to.pair, to.reopen, env.reopenable, conv) && (env.reopenOk ==> after[conv].open)
  {
    PickedOpened(before, chosen, after, to.pair, to.reopen, env.reopenable, conv);
    if after != chosen {
      StillOneOpened(before, chosen, after, to.pair, conv);
    }
    hide OneOpened, Picked;
  }

  lemma NewIsPicked(before: map<nat, Conv>, after: map<nat, Conv>, pair: Pair, reopen: bool, reopenable: Option<nat>, conv: nat)
    requires conv !in before && after == before[conv := Conv(pair, true)]
    requires forall c | c in before && before[c].pair == pair :: !before[c].open
    requires !(reopen && reopenable.Some? && reopenable.value in before && before[reopenable.value].pair == pair)
    ensures Picked(before, after, pair, reopen, reopenable, conv)
  {
  }

  /** Opening the conversation that was picked does not change where the message goes. */
  lemma PickedOpened(before: map<nat, Conv>, chosen: map<nat, Conv>, after: map<nat, Conv>, pair: Pair, reopen: bool,
                     reopenable: Option<nat>, conv: nat)
    requires Picked(before, chosen, pair, reopen, reopenable, conv)
    requires after == chosen || after == chosen[conv := chosen[conv].(open := true)]
    ensures Picked(before, after, pair, reopen, reopenable, conv)
  {
    assert after.Keys == chosen.Keys;
  }

  /** Reopening the conversation chosen for the pair is still at most one opening. */
  lemma StillOneOpened(before: map<nat, Conv>, chosen: map<nat, Conv>, after: map<nat, Conv>, pair: Pair, conv: nat)
    requires OneOpened(before, chosen, pair) && OnlyOpen(chosen, pair, conv)
    requires after == chosen[conv := chosen[conv].(open := true)]
    ensures OneOpened(before, after, pair)
  {
    if chosen[conv].open {
      assert after == chosen;
    } else {
      if chosen != before {
        var c: nat :| (c in before ==> before[c].pair == pair) && chosen == before[c := Conv(pair, true)];
        assert IsOpen(chosen, c, pair);
      }
      assert after == before[conv := Conv(pair, true)];
    }
  }

  // ----- the steps of an agent who creates a conversation

  lemma AgentLockDispatch(s: State, t: Tid, c: Choice)
    requires t in s.threads && AtAgentLock(s.threads[t].pc)
    ensures StepThread(s, t, c) == AgentLockStep(s, t, c.entry)
  {
    hide AgentDataStep, AgentLockStep, Begin, Ingest;
  }

  lemma AgentRegistersConv(s: State, t: Tid, entry: nat)
    requires LockPart(s) && t in s.threads && s.threads[t].pc.AgentStart?
    requires Free(s.conv, s.threads[t].pc.pair) && entry !in s.conv.used
    ensures var s1 := StepThread(s, t, Ask(true).(entry := entry));
            && s1 == s.(conv := s1.conv, threads := s.threads[t := s.threads[t].(pc := AgentWant(s.threads[t].pc.pair))])
            && CanAcquire(s1.conv, t)
  {
    hide LockPart, LocksOk, StepThread, Register, Countable, CanAcquire;
    Stands(s, t);
    AgentLockDispatch(s, t, Ask(true).(entry := entry));
    RegisterFree(s.conv, t, s.threads[t].pc.pair, entry);
  }

  lemma AgentAcquiresConv(s: State, t: Tid, c: Choice)
    requires t in s.threads && s.threads[t].pc.AgentWant? && CanAcquire(s.conv, t)
    ensures var s1 := StepThread(s, t, c);
            s1 == s.(conv := s1.conv, threads := s.threads[t := s.threads[t].(pc := AgentHave(s.threads[t].pc.pair))])
  {
    hide StepThread, CanAcquire;
    AgentLockDispatch(s, t, c);
  }

  lemma AgentUnlocksConv(s: State, t: Tid)
    requires LockPart(s) && t in s.threads && s.threads[t].pc.AgentLeave?
    ensures var s1 := StepThread(s, t, Ask(true));
            s1 == s.(conv := s1.conv, threads := s.threads[t := s.threads[t].(pc := AgentLeft(s.threads[t].pc.pair))])
  {
    hide LockPart, LocksOk, StepThread, Unlock;
    Stands(s, t);
    AgentLockDispatch(s, t, Ask(true));
  }

  lemma AgentIsGone(s: State, t: Tid)
    requires LockPart(s) && t in s.threads && s.threads[t].pc.AgentLeft?
    ensures var s1 := StepThread(s, t, Ask(true));
            s1 == s.(conv := s1.conv, threads := s.threads - {t})
  {
    hide LockPart, LocksOk, StepThread, Deregister;
    Stands(s, t);
    AgentLockDispatch(s, t, Ask(true));
    DeregisterKeeps(s.conv, t);
  }

  lemma AgentDispatch(s: State, t: Tid, c: Choice)
    requires t in s.threads && IsAgent(s.threads[t].pc) && !AtAgentLock(s.threads[t].pc)
    ensures StepThread(s, t, c) == AgentDataStep(s, t, c)
  {
    hide AgentDataStep, AgentLockStep, Begin, Ingest;
  }

  lemma AgentLooks(s: State, t: Tid, ok: bool)
    requires t in s.threads && s.threads[t].pc.AgentHave?
    ensures var pair := s.threads[t].pc.pair;
            StepThread(s, t, Ask(ok)) == Goto(s, t, if ok && !AnyOpen(s.convs, pair) then AgentNone(pair) else AgentLeave(pair))
  {
    hide StepThread, Goto, AnyOpen;
    AgentDispatch(s, t, Ask(ok));
  }

  lemma AgentCreateSteps(s: State, t: Tid, conv: nat)
    requires t in s.threads && s.threads[t].pc.AgentNone? && conv !in s.convs
    ensures var pair := s.threads[t].pc.pair;
            && StepThread(s, t, Ask(false)) == Goto(s, t, AgentLeave(pair))
            && StepThread(s, t, Ask(true).(conv := conv)) ==
               Goto(s.(convs := s.convs[conv := Conv(pair, true)]), t, AgentSend(pair, conv))
  {
    hide StepThread, Goto;
    AgentDispatch(s, t, Ask(false));
    AgentDispatch(s, t, Ask(true).(conv := conv));
  }

  lemma AgentSends(s: State, t: Tid, ok: bool)
    requires t in s.threads && s.threads[t].pc.AgentSend?
    ensures var pc := s.threads[t].pc;
            StepThread(s, t, Ask(ok)) == Goto(s, t, if ok then AgentLeave(pc.pair) else AgentUndo(pc.pair, pc.conv))
  {
    hide StepThread, Goto;
    AgentDispatch(s, t, Ask(ok));
  }

  lemma AgentUndoes(s: State, t: Tid, ok: bool)
    requires t in s.threads && s.threads[t].pc.AgentUndo?
    ensures var pc := s.threads[t].pc;
            StepThread(s, t, Ask(ok)) == Goto(if ok then s.(convs := s.convs - {pc.conv}) else s, t, AgentLeave(pc.pair))
  {
    hide StepThread, Goto;
    AgentDispatch(s, t, Ask(ok));
  }

  class Desk {
    ghost const senderOf: string -> string
    var table: seq<Row>
    var convs: map<nat, Conv>
    var inboxes: map<int, Inbox>
    var disabled: set<int>
    var nextConv: nat
    ghost var model: State

    /** The tables are the machine's, and the machine is in a reachable shape. */
    ghost predicate Valid()
      reads this
    {
      && Inv(senderOf, model)
      && model.table == table && model.convs == convs && model.inboxes == inboxes && model.disabled == disabled
      && forall c | c in convs :: c < nextConv
    }

    /** The thread stands at this place, and no conversation lock has changed hands since `conv`. */
    ghost predicate At(t: Tid, th: Thread, pc: Pc, conv: Locks<Pair, nat>)
      reads this
    {
      Valid() && t in model.threads && model.threads[t] == th.(pc := pc) && (InFlight(th) || IsAgent(pc)) && model.conv == conv
    }

    constructor (ghost senderOf: string -> string)
      ensures Valid() && model == Init() && this.senderOf == senderOf
    {
      this.senderOf := senderOf;
      table, convs, inboxes, disabled, nextConv := [], map[], map[], {}, 0;
      model := Init();
      new;
      InitOk(senderOf);
    }

    /** One step of the thread in the machine. */
    ghost method Tick(t: Tid, c: Choice)
      requires Inv(senderOf, model) && t in model.threads
      modifies this`model
      ensures model == StepThread(old(model), t, c)
      ensures Inv(senderOf, model)
    {
      StepKeeps(senderOf, model, t, c);
      model := StepThread(model, t, c);
    }

    /** A step that moves the thread and nothing else. */
    ghost method Jump(t: Tid, th: Thread, pc: Pc, to: Pc, c: Choice, conv: Locks<Pair, nat>)
      requires At(t, th, pc, conv) && StepThread(model, t, c) == Goto(model, t, to) && (InFlight(th) || IsAgent(to))
      modifies this`model
      ensures At(t, th, to, conv) && Reach(old(model), model, t)
    {
      hide Inv, StepThread;
      ReachSelf(model, t);
      ReachNext(model, model, t, c);
      Tick(t, c);
    }

    ghost method TakeSender(t: Tid, th: Thread)
      requires At(t, th, Ready, model.conv) && Ordinary(Current(th)) && Free(model.sender, Current(th).from) && th.pc.Ready?
      modifies this`model
      ensures At(t, th, HaveSender, old(model.conv)) && Reach(old(model), model, t)
    {
      hide LockPart, DataPart, StepThread, Ordinary, Free;
      var entry := Above(model.sender.used);
      RegistersSender(model, t, entry);
      ReachSelf(model, t);
      ReachNext(model, model, t, Ask(true).(entry := entry));
      Tick(t, Ask(true).(entry := entry));
      AcquiresSender(model, t, Ask(true).(entry := entry));
      ReachNext(old(model), model, t, Ask(true).(entry := entry));
      Tick(t, Ask(true).(entry := entry));
    }

    ghost method LeaveSender(t: Tid, th: Thread, fate: Fate)
      requires At(t, th, Pc.LeaveSender(fate), model.conv)
      modifies this`model
      ensures Valid() && t in model.threads && model.threads[t] == th.(fates := th.fates + [fate], pc := Ready)
      ensures Reach(old(model), model, t) && model.conv == old(model.conv)
    {
      hide LockPart, DataPart, StepThread;
      LeavesSender(model, t);
      ReachSelf(model, t);
      ReachNext(model, model, t, Ask(true));
      Tick(t, Ask(true));
      LeftSenderSettles(model, t);
      ReachNext(old(model), model, t, Ask(true));
      Tick(t, Ask(true));
    }

    ghost method TakeConv(t: Tid, th: Thread, pair: Pair, reopen: bool, media: Media)
      requires At(t, th, Checked(pair, reopen, media), model.conv) && Free(model.conv, pair)
      modifies this`model
      ensures At(t, th, HaveConv(pair, reopen, media), model.conv) && Reach(old(model), model, t)
    {
      hide LockPart, DataPart, StepThread, Free;
      var entry := Above(model.conv.used);
      RegistersConv(model, t, entry);
      ReachSelf(model, t);
      ReachNext(model, model, t, Ask(true).(entry := entry));
      Tick(t, Ask(true).(entry := entry));
      AcquiresConv(model, t, Ask(true).(entry := entry));
      ReachNext(old(model), model, t, Ask(true).(entry := entry));
      Tick(t, Ask(true).(entry := entry));
    }

    ghost method LeaveConv(t: Tid, th: Thread, pair: Pair, fate: Fate)
      requires At(t, th, Pc.LeaveConv(pair, fate), model.conv)
      modifies this`model
      ensures At(t, th, Pc.LeaveSender(fate), model.conv) && Reach(old(model), model, t)
    {
      hide LockPart, DataPart, StepThread;
      LeavesConv(model, t);
      ReachSelf(model, t);
      ReachNext(model, model, t, Ask(true));
      Tick(t, Ask(true));
      LeftConvReturns(model, t);
      ReachNext(old(model), model, t, Ask(true));
      Tick(t, Ask(true));
    }

    /** The delivery's own inbox if it can take the message, else an enabled one with the number the message names. */
    method ResolveInbox(m: Msg) returns (r: Resolution)
      ensures match r
              case Found(id) =>
                && Serving(inboxes, m, id)
                && if TakesOwn(inboxes, m) then id == m.url else m.phone != "" && Serves(inboxes, id, m.phone)
              case NotThere =>
                && m.url !in inboxes && (forall id | id in inboxes :: !Serving(inboxes, m, id))
                && !TakesOwn(inboxes, m) && !(m.phone != "" && AnyServes(inboxes, m.phone))
              case NoneEnabled =>
                m.url in inboxes && (forall id | id in inboxes :: !Serving(inboxes, m, id)) && NoneTakes(inboxes, m)
    {
      if m.url in inboxes && inboxes[m.url].enabled && (m.phone == "" || inboxes[m.url].phone == m.phone) {
        return Found(m.url);
      }
      if m.phone != "" {
        if id :| id in inboxes && inboxes[id].enabled && inboxes[id].phone == m.phone {
          return Found(id);
        }
        assert forall id | id in inboxes :: !Serves(inboxes, id, m.phone);
      }
      return if m.url in inboxes then NoneEnabled else NotThere;
    }

    /** From the sender lock to a known contact and inbox. */
    method ResolveTarget(ghost t: Tid, ghost th: Thread, m: Msg, env: Env) returns (r: Progress<Target>)
      requires At(t, th, HaveSender, model.conv) && m == Current(th)
      modifies this`model
      ensures Reach(old(model), model, t)
      ensures match r
              case Settled(fate) =>
                && At(t, th, Pc.LeaveSender(fate), old(model.conv)) && fate != Stored
                && (fate.Dropped? ==> DropFits(inboxes, disabled, m, env, fate.reason))
              case GoOn(to) =>
                && At(t, th, Known(to.pair, to.reopen), old(model.conv)) && env.contact == Some(to.pair.contact)
                && Serving(inboxes, m, to.pair.inbox) && to.reopen == inboxes[to.pair.inbox].reopen && to.pair.contact !in disabled
      ensures env.inboxOk && env.contact.Some? && env.contact.value !in disabled && SomeTakes(inboxes, m) ==> r.GoOn?
    {
      hide Inv, StepThread, Goto, Serves, AnyServes, TakesOwn, Reach, Serving;
      var resolution := ResolveInbox(m);
      InboxSteps(model, t, resolution);
      if !env.inboxOk {
        Jump(t, th, HaveSender, Pc.LeaveSender(Errored), Ask(false), model.conv);
        return Settled(Errored);
      }
      match resolution {
        case NotThere =>
          Jump(t, th, HaveSender, Pc.LeaveSender(Errored), Ask(true), model.conv);
          return Settled(Errored);
        case NoneEnabled =>
          Jump(t, th, HaveSender, Pc.LeaveSender(Dropped(NoEnabledInbox(inboxes))), Ask(true), model.conv);
          return Settled(Dropped(NoEnabledInbox(inboxes)));
        case Found(inbox) =>
          var reopen := inboxes[inbox].reopen;
          Jump(t, th, HaveSender, Resolved(inbox, reopen), Ask(true).(inbox := inbox), model.conv);
          ghost var middle := model;
          r := ResolveContact(t, th, inbox, reopen, env);
          ReachFurther(old(model), middle, model, t);
      }
    }

    method ResolveContact(ghost t: Tid, ghost th: Thread, inbox: int, reopen: bool, env: Env) returns (r: Progress<Target>)
      requires At(t, th, Resolved(inbox, reopen), model.conv)
      modifies this`model
      ensures Reach(old(model), model, t)
      ensures match r
              case Settled(fate) =>
                && At(t, th, Pc.LeaveSender(fate), old(model.conv)) && fate != Stored
                && (fate.Dropped? ==> env.contact.Some? && env.contact.value in disabled
                                      && fate == Dropped(ContactDisabled(env.contact.value, disabled)))
              case GoOn(to) =>
                && At(t, th, Known(to.pair, to.reopen), old(model.conv)) && env.contact == Some(to.pair.contact)
                && to.pair.inbox == inbox && to.reopen == reopen && to.pair.contact !in disabled
      ensures env.contact.Some? && env.contact.value !in disabled ==> r.GoOn?
    {
      hide Inv, StepThread, Goto, Reach;
      if env.contact.None? {
        ContactSteps(model, t, 0);
        Jump(t, th, Resolved(inbox, reopen), Pc.LeaveSender(Errored), Ask(false), model.conv);
        return Settled(Errored);
      }
      var contact := env.contact.value;
      ContactSteps(model, t, contact);
      if contact in disabled {
        var fate := Dropped(ContactDisabled(contact, disabled));
        Jump(t, th, Resolved(inbox, reopen), Pc.LeaveSender(fate), Ask(true).(contact := contact), model.conv);
        return Settled(fate);
      }
      Jump(t, th, Resolved(inbox, reopen), Known(Pair(contact, inbox), reopen), Ask(true).(contact := contact), model.conv);
      return GoOn(Target(Pair(contact, inbox), reopen));
    }

    /** The duplicate check and the download. */
    method FetchMedia(ghost t: Tid, ghost th: Thread, m: Msg, to: Target, env: Env) returns (r: Progress<Media>)
      requires At(t, th, Known(to.pair, to.reopen), model.conv) && m == Current(th) && th.cancelled == Cancelled(env)
      modifies this`model
      ensures Reach(old(model), model, t)
      ensures match r
              case Settled(fate) => At(t, th, Pc.LeaveSender(fate), old(model.conv)) && (fate == Stored ==> InTable(table, m.id)) && !fate.Dropped?
              case GoOn(media) =>
                && At(t, th, Checked(to.pair, to.reopen, media), old(model.conv))
                && !InTable(table, m.id) && !Cancelled(env) && MediaFrom(env, media)
      ensures env.duplicateOk && InTable(table, m.id) ==> r == Settled(Stored)
      ensures env.duplicateOk && !InTable(table, m.id) && !Cancelled(env) && Settles(env) ==> r.GoOn?
    {
      hide Inv, StepThread, Goto, Reach, InTable, MediaFrom;
      DuplicateSteps(model, t);
      if !env.duplicateOk {
        Jump(t, th, Known(to.pair, to.reopen), Pc.LeaveSender(Errored), Ask(false), model.conv);
        return Settled(Errored);
      }
      if InTable(table, m.id) {
        Jump(t, th, Known(to.pair, to.reopen), Pc.LeaveSender(Stored), Ask(true), model.conv);
        return Settled(Stored);
      }
      Jump(t, th, Known(to.pair, to.reopen), Missing(to.pair, to.reopen), Ask(true), model.conv);
      ghost var middle := model;
      r := Download(t, th, to, env);
      ReachFurther(old(model), middle, model, t);
    }

    method Download(ghost t: Tid, ghost th: Thread, to: Target, env: Env) returns (r: Progress<Media>)
      requires At(t, th, Missing(to.pair, to.reopen), model.conv) && th.cancelled == Cancelled(env)
      modifies this`model
      ensures Reach(old(model), model, t)
      ensures match r
              case Settled(fate) => At(t, th, Pc.LeaveSender(fate), old(model.conv)) && fate == Errored
              case GoOn(media) =>
                At(t, th, Checked(to.pair, to.reopen, media), old(model.conv)) && !Cancelled(env) && MediaFrom(env, media)
      ensures !Cancelled(env) && Settles(env) ==> r.GoOn?
    {
      hide Inv, StepThread, Goto, Reach;
      var body, err := FetchWhatsAppAttachments(env.hasMedia, env.attempts, env.ctx, env.timerWins, env.maxBytes);
      var media := if !env.hasMedia then TextOnly else if body.Some? then Attached else if Cancelled(env) then CutShort else Placeholder;
      DownloadSteps(model, t, media);
      if err.Some? {
        Jump(t, th, Missing(to.pair, to.reopen), Pc.LeaveSender(Errored), Ask(false), model.conv);
        return Settled(Errored);
      }
      Jump(t, th, Missing(to.pair, to.reopen), Pc.Fetched(to.pair, to.reopen, media), Ask(true).(media := media), model.conv);
      ghost var middle := model;
      CancelSteps(model, t);
      if Cancelled(env) {
        Jump(t, th, Pc.Fetched(to.pair, to.reopen, media), Pc.LeaveSender(Errored), Ask(true), model.conv);
        r := Settled(Errored);
      } else {
        Jump(t, th, Pc.Fetched(to.pair, to.reopen, media), Checked(to.pair, to.reopen, media), Ask(true), model.conv);
        r := GoOn(media);
      }
      ReachFurther(old(model), middle, model, t);
    }

    /** A step that changes the tables along with the thread's place; the caller does the same to its own. */
    ghost method Shift(t: Tid, to: Pc, c: Choice, next: State)
      requires Inv(senderOf, model) && t in model.threads && next.threads == model.threads
      requires StepThread(model, t, c) == Goto(next, t, to)
      modifies this`model
      ensures model == Goto(next, t, to) && Inv(senderOf, model) && Reach(old(model), model, t)
    {
      hide Inv, StepThread, Goto;
      ReachSelf(model, t);
      ReachNext(model, model, t, c);
      Tick(t, c);
    }

    /** The open conversation of the pair, else the one that may be reopened. */
    method FindConversation(pair: Pair, reopen: bool, reopenable: Option<nat>) returns (conv: Option<nat>)
      ensures match conv
              case Some(c) =>
                IsOpen(convs, c, pair) || (!AnyOpen(convs, pair) && reopen && c in convs && convs[c].pair == pair)
              case None => !AnyOpen(convs, pair)
      ensures conv.Some? ==> Picked(convs, convs, pair, reopen, reopenable, conv.value)
      ensures conv.None? ==>
                && (forall c | c in convs && convs[c].pair == pair :: !convs[c].open)
                && !(reopen && reopenable.Some? && reopenable.value in convs && convs[reopenable.value].pair == pair)
    {
      if c :| c in convs && IsOpen(convs, c, pair) {
        return Some(c);
      }
      assert forall c | c in convs :: !IsOpen(convs, c, pair);
      if reopen && reopenable.Some? && reopenable.value in convs && convs[reopenable.value].pair == pair {
        return reopenable;
      }
      return None;
    }

    /** The conversation found, or a new one; the place is under the lock of the pair. */
    method ChooseConversation(ghost t: Tid, ghost th: Thread, to: Target, media: Media, env: Env) returns (conv: Option<nat>)
      requires At(t, th, HaveConv(to.pair, to.reopen, media), model.conv)
      modifies this`model, this`convs, this`nextConv
      ensures Reach(old(model), model, t) && OneOpened(old(convs), convs, to.pair)
      ensures match conv
              case None => At(t, th, Pc.LeaveConv(to.pair, Errored), old(model.conv))
              case Some(c) =>
                && At(t, th, Chosen(to.pair, c, media), old(model.conv)) && c in convs && convs[c].pair == to.pair
                && Picked(old(convs), convs, to.pair, to.reopen, env.reopenable, c)
      ensures env.lookupOk && env.createOk ==> conv.Some?
      ensures old(AnyOpen(convs, to.pair)) ==> convs == old(convs)
    {
      hide Inv, StepThread, Goto, Reach, AnyOpen, Picked;
      if !env.lookupOk {
        LookupFails(model, t);
        Jump(t, th, HaveConv(to.pair, to.reopen, media), Pc.LeaveConv(to.pair, Errored), Ask(false), model.conv);
        return None;
      }
      conv := FindConversation(to.pair, to.reopen, env.reopenable);
      LookupSteps(model, t, conv);
      if conv.Some? {
        Jump(t, th, HaveConv(to.pair, to.reopen, media), Chosen(to.pair, conv.value, media), Ask(true).(conv := conv.value), model.conv);
      } else {
        Jump(t, th, HaveConv(to.pair, to.reopen, media), NoneOpen(to.pair, media), Ask(true).(found := false), model.conv);
        ghost var middle, before := model, convs;
        conv := CreateConversation(t, th, to.pair, media, env);
        ReachFurther(old(model), middle, model, t);
        if conv.Some? {
          NewIsPicked(before, convs, to.pair, to.reopen, env.reopenable, conv.value);
        }
      }
    }

    method CreateConversation(ghost t: Tid, ghost th: Thread, pair: Pair, media: Media, env: Env) returns (conv: Option<nat>)
      requires At(t, th, NoneOpen(pair, media), model.conv) && !AnyOpen(convs, pair)
      modifies this`model, this`convs, this`nextConv
      ensures Reach(old(model), model, t) && OneOpened(old(convs), convs, pair)
      ensures match conv
              case None => At(t, th, Pc.LeaveConv(pair, Errored), old(model.conv))
              case Some(c) =>
                && At(t, th, Chosen(pair, c, media), old(model.conv)) && c in convs && convs[c].pair == pair
                && c !in old(convs) && convs == old(convs)[c := Conv(pair, true)]
      ensures env.createOk ==> conv.Some?
    {
      hide Inv, StepThread, Reach;
      CreateSteps(model, t, nextConv);
      if !env.createOk {
        Jump(t, th, NoneOpen(pair, media), Pc.LeaveConv(pair, Errored), Ask(false), model.conv);
        return None;
      }
      var c := nextConv;
      Shift(t, Chosen(pair, c, media), Ask(true).(conv := c), model.(convs := model.convs[c := Conv(pair, true)]));
      convs := convs[c := Conv(pair, true)];
      nextConv := nextConv + 1;
      return Some(c);
    }

    /** Inserts the message and reopens its conversation. */
    method InsertMessage(ghost t: Tid, ghost th: Thread, m: Msg, pair: Pair, conv: nat, media: Media, env: Env) returns (fate: Fate)
      requires At(t, th, Chosen(pair, conv, media), model.conv) && m == Current(th) && conv in convs
      modifies this`model, this`table, this`convs
      ensures At(t, th, Pc.LeaveConv(pair, fate), old(model.conv)) && Reach(old(model), model, t)
      ensures fate == (if env.insertOk && env.windowOk then Stored else Errored)
      ensures table == if env.insertOk then old(table) + [Row(m.id, conv, media)] else old(table)
      ensures convs == if env.insertOk && env.reopenOk then old(convs)[conv := old(convs)[conv].(open := true)] else old(convs)
    {
      hide Inv, StepThread, Reach;
      InsertSteps(model, t, env.windowOk);
      if !env.insertOk {
        Jump(t, th, Chosen(pair, conv, media), Pc.LeaveConv(pair, Errored), Ask(false), model.conv);
        return Errored;
      }
      var row := Row(m.id, conv, media);
      Shift(t, Inserted(pair, conv, env.windowOk), Ask(true).(found := env.windowOk), model.(table := model.table + [row]));
      table := table + [row];
      ghost var middle := model;
      hide Goto, IsAgent;
      fate := if env.windowOk then Stored else Errored;
      Reopen(t, th, pair, conv, env.windowOk, env.reopenOk);
      ReachFurther(old(model), middle, model, t);
    }

    /** The hook after the insert: the conversation is open again, unless that fails. */
    method Reopen(ghost t: Tid, ghost th: Thread, pair: Pair, conv: nat, windowOk: bool, ok: bool)
      requires At(t, th, Inserted(pair, conv, windowOk), model.conv) && conv in convs
      modifies this`model, this`convs
      ensures At(t, th, Pc.LeaveConv(pair, if windowOk then Stored else Errored), old(model.conv)) && Reach(old(model), model, t)
      ensures convs == if ok then old(convs)[conv := old(convs)[conv].(open := true)] else old(convs)
    {
      hide Inv, StepThread, Reach;
      ReopenSteps(model, t);
      ghost var fate := if windowOk then Stored else Errored;
      if ok {
        Shift(t, Pc.LeaveConv(pair, fate), Ask(true), model.(convs := model.convs[conv := model.convs[conv].(open := true)]));
        convs := convs[conv := convs[conv].(open := true)];
      } else {
        Jump(t, th, Inserted(pair, conv, windowOk), Pc.LeaveConv(pair, fate), Ask(false), model.conv);
      }
    }

    /** Under the conversation lock: choosing the conversation and inserting the message into it. */
    method StoreLocked(ghost t: Tid, ghost th: Thread, m: Msg, to: Target, media: Media, env: Env) returns (fate: Fate)
      requires At(t, th, HaveConv(to.pair, to.reopen, media), model.conv) && m == Current(th)
      modifies this`model, this`table, this`convs, this`nextConv
      ensures At(t, th, Pc.LeaveConv(to.pair, fate), model.conv) && Reach(old(model), model, t)
      ensures AtMostStored(old(table), table, m, to.pair, media, convs) && OneOpened(old(convs), convs, to.pair)
      ensures table != old(table) ==>
                && |table| > |old(table)|
                && var conv := table[|old(table)|].conv;
                   Picked(old(convs), convs, to.pair, to.reopen, env.reopenable, conv) && (env.reopenOk ==> convs[conv].open)
      ensures fate == Stored || fate == Errored
      ensures fate == Stored ==> table != old(table)
      ensures env.lookupOk && env.createOk && env.insertOk && env.windowOk ==> fate == Stored
    {
      hide Inv, StepThread, Goto, Reach, OneOpened, IsAgent, Picked, AtMostStored;
      ghost var table0, before := table, convs;
      var conv := ChooseConversation(t, th, to, media, env);
      if conv.None? {
        NotStored(table, m, to.pair, media, convs);
        return Errored;
      }
      ghost var middle, chosen := model, convs;
      ChosenIsOnly(this, t, th, to.pair, conv.value, media);
      fate := InsertMessage(t, th, m, to.pair, conv.value, media, env);
      ReachFurther(old(model), middle, model, t);
      PlacesPicked(table0, table, before, chosen, convs, m, to, media, env, conv.value);
    }

    /** Stores the message under the conversation lock. */
    method StoreMessage(ghost t: Tid, ghost th: Thread, m: Msg, to: Target, media: Media, env: Env) returns (fate: Fate)
      requires At(t, th, Checked(to.pair, to.reopen, media), model.conv) && m == Current(th) && Free(model.conv, to.pair)
      modifies this`model, this`table, this`convs, this`nextConv
      ensures At(t, th, Pc.LeaveSender(fate), model.conv) && Reach(old(model), model, t)
      ensures AtMostStored(old(table), table, m, to.pair, media, convs) && OneOpened(old(convs), convs, to.pair)
      ensures table != old(table) ==>
                && |table| > |old(table)|
                && var conv := table[|old(table)|].conv;
                   Picked(old(convs), convs, to.pair, to.reopen, env.reopenable, conv) && (env.reopenOk ==> convs[conv].open)
      ensures fate == Stored || fate == Errored
      ensures fate == Stored ==> table != old(table)
      ensures env.lookupOk && env.createOk && env.insertOk && env.windowOk ==> fate == Stored
    {
      hide Inv, StepThread, Goto, Reach, Free, OneOpened, AtMostStored, IsAgent, Picked;
      TakeConv(t, th, to.pair, to.reopen, media);
      ghost var held := model;
      fate := StoreLocked(t, th, m, to, media, env);
      ghost var done := model;
      ReachFurther(old(model), held, done, t);
      LeaveConv(t, th, to.pair, fate);
      ReachFurther(old(model), done, model, t);
    }

    /** The message of a known contact and inbox: the duplicate check, the download and the insert. */
    method IngestKnown(ghost t: Tid, ghost th: Thread, m: Msg, to: Target, env: Env) returns (fate: Fate)
      requires At(t, th, Known(to.pair, to.reopen), model.conv) && m == Current(th) && th.cancelled == Cancelled(env)
      requires env.contact == Some(to.pair.contact) && Free(model.conv, to.pair)
      requires Serving(inboxes, m, to.pair.inbox) && to.reopen == inboxes[to.pair.inbox].reopen && to.pair.contact !in disabled
      modifies this`model, this`table, this`convs, this`nextConv
      ensures At(t, th, Pc.LeaveSender(fate), model.conv) && Reach(old(model), model, t)
      ensures Ingested(inboxes, disabled, old(table), table, old(convs), convs, m, env, fate)
      ensures Smooth(env, inboxes, disabled, m) ==> fate == Stored
    {
      hide Inv, StepThread, Goto, Reach, Free, InTable, MediaFrom, OneOpened, AtMostStored, SomeTakes, Settles, Ingested, IsAgent, Serving, Picked, DropFits;
      ghost var before, convs0 := table, convs;
      var media := FetchMedia(t, th, m, to, env);
      ghost var fetched := model;
      if media.Settled? {
        NothingStored(inboxes, disabled, table, convs, m, env, media.fate);
        return media.fate;
      }
      fate := StoreMessage(t, th, m, to, media.value, env);
      ReachFurther(old(model), fetched, model, t);
      StoredOrNot(inboxes, disabled, before, table, convs0, convs, m, env, fate, to.pair, media.value);
    }

    /** Stores an ordinary message at most once, or says why not, all under the lock of its sender. */
    method IngestOrdinary(ghost t: Tid, ghost th: Thread, m: Msg, env: Env) returns (fate: Fate)
      requires At(t, th, HaveSender, model.conv) && m == Current(th) && th.cancelled == Cancelled(env)
      requires forall pair :: Free(model.conv, pair)
      modifies this`model, this`table, this`convs, this`nextConv
      ensures At(t, th, Pc.LeaveSender(fate), model.conv) && Reach(old(model), model, t)
      ensures Ingested(inboxes, disabled, old(table), table, old(convs), convs, m, env, fate)
      ensures Smooth(env, inboxes, disabled, m) ==> fate == Stored
    {
      hide Inv, StepThread, Goto, Reach, Free, InTable, MediaFrom, SomeTakes, Settles, Ingested, IsAgent, Cancelled, Serving, DropFits;
      var target := ResolveTarget(t, th, m, env);
      if target.Settled? {
        NothingStored(inboxes, disabled, table, convs, m, env, target.fate);
        return target.fate;
      }
      ghost var resolved := model;
      fate := IngestKnown(t, th, m, target.value, env);
      ReachFurther(old(model), resolved, model, t);
    }

    /** A message that is not ordinary is settled in one step. */
    ghost method SettleAtOnce(t: Tid, th: Thread, ok: bool)
      requires At(t, th, Ready, model.conv) && th.pc.Ready? && InFlight(th) && !Ordinary(Current(th))
      modifies this`model
      ensures Valid() && Reach(old(model), model, t) && t in model.threads
      ensures model.threads[t] == th.(fates := th.fates + [Preliminary(Current(th), ok)])
    {
      hide Inv, StepThread, Ordinary, Preliminary;
      BeginSettles(model, t, ok);
      ReachSelf(model, t);
      ReachNext(model, model, t, Ask(ok));
      Tick(t, Ask(ok));
    }

    /** An ordinary message from taking its sender's lock to leaving it. */
    method IngestLocked(ghost t: Tid, ghost th: Thread, m: Msg, env: Env) returns (fate: Fate)
      requires At(t, th, Ready, model.conv) && th.pc.Ready? && m == Current(th) && Ordinary(m) && th.cancelled == Cancelled(env)
      requires Free(model.sender, m.from) && forall pair :: Free(model.conv, pair)
      modifies this`model, this`table, this`convs, this`nextConv
      ensures Valid() && Reach(old(model), model, t) && t in model.threads
      ensures model.threads[t] == th.(fates := th.fates + [fate])
      ensures Ingested(inboxes, disabled, old(table), table, old(convs), convs, m, env, fate)
      ensures Smooth(env, inboxes, disabled, m) ==> fate == Stored
    {
      hide Inv, StepThread, Reach, Free, Smooth, Ingested, IsAgent, Ordinary;
      TakeSender(t, th);
      ghost var held := model;
      fate := IngestOrdinary(t, th, m, env);
      ghost var done := model;
      ReachFurther(old(model), held, done, t);
      LeaveSender(t, th, fate);
      ReachFurther(old(model), done, model, t);
    }

    /** A message without an id or a sender, of an ignored type or from the system itself. */
    method IngestOther(ghost t: Tid, ghost th: Thread, m: Msg, env: Env) returns (fate: Fate)
      requires At(t, th, Ready, model.conv) && th.pc.Ready? && m == Current(th) && !Ordinary(m)
      modifies this`model
      ensures Valid() && Reach(old(model), model, t) && t in model.threads
      ensures model.threads[t] == th.(fates := th.fates + [fate])
      ensures fate == Preliminary(m, env.systemOk) && Ingested(inboxes, disabled, table, table, convs, convs, m, env, fate)
    {
      hide Inv, StepThread, Reach, InTable, MediaFrom, OneOpened, AtMostStored;
      fate := Preliminary(m, env.systemOk);
      NeverStored(m, env.systemOk);
      NothingStored(inboxes, disabled, table, convs, m, env, fate);
      hide Ingested, Preliminary;
      SettleAtOnce(t, th, env.systemOk);
    }

    /** One message, while nobody holds its locks. */
    method IngestFree(ghost t: Tid, ghost th: Thread, m: Msg, env: Env) returns (fate: Fate)
      requires At(t, th, Ready, model.conv) && th.pc.Ready? && InFlight(th) && m == Current(th) && th.cancelled == Cancelled(env)
      requires Free(model.sender, m.from) && forall pair :: Free(model.conv, pair)
      modifies this`model, this`table, this`convs, this`nextConv
      ensures Valid() && Reach(old(model), model, t) && t in model.threads
      ensures model.threads[t] == th.(fates := th.fates + [fate])
      ensures Ingested(inboxes, disabled, old(table), table, old(convs), convs, m, env, fate)
      ensures !Ordinary(m) ==> fate == Preliminary(m, env.systemOk) && table == old(table) && convs == old(convs)
      ensures m.id == "" || m.from == "" ==> fate == Errored
      ensures m.id != "" && m.from != "" && (m.kind == "reaction" || m.kind == "ephemeral" || m.kind == "request_welcome") ==>
                fate == Dropped(IgnoredType)
      ensures m.id != "" && m.from != "" && m.kind == "system" ==> fate == (if env.systemOk then Dropped(SystemEvent) else Errored)
      ensures Ordinary(m) && Smooth(env, inboxes, disabled, m) ==> fate == Stored
    {
      hide Inv, StepThread, Reach, Free, Smooth, Ingested, IsAgent, Cancelled;
      if m.id == "" || m.from == "" || m.kind in IGNORED_TYPES || m.kind == "system" {
        fate := IngestOther(t, th, m, env);
      } else {
        fate := IngestLocked(t, th, m, env);
      }
    }

    lemma WorkerFindsFree(t: Tid)
      requires Valid() && t in model.threads && model.threads[t].pc.Ready? && OthersIdle(model, t)
      ensures forall key :: Free(model.sender, key)
      ensures forall pair :: Free(model.conv, pair)
    {
      hide LockPart, DataPart;
      IdleIsFree(senderOf, model, t);
    }

    /** What becomes of one message; the thread takes it from the place between two messages to the next such place. */
    method IngestWhatsAppMessage(ghost t: Tid, m: Msg, env: Env) returns (fate: Fate)
      requires Valid() && t in model.threads && model.threads[t].pc.Ready? && InFlight(model.threads[t])
      requires m == Current(model.threads[t]) && model.threads[t].cancelled == Cancelled(env)
      requires OthersIdle(model, t)
      modifies this`model, this`table, this`convs, this`nextConv
      ensures Valid() && Reach(old(model), model, t) && t in model.threads && OthersIdle(model, t)
      ensures model.threads[t] == old(model.threads[t]).(fates := old(model.threads[t]).fates + [fate])
      ensures Ingested(inboxes, disabled, old(table), table, old(convs), convs, m, env, fate)
      ensures !Ordinary(m) ==> fate == Preliminary(m, env.systemOk) && table == old(table) && convs == old(convs)
      ensures m.id == "" || m.from == "" ==> fate == Errored
      ensures m.id != "" && m.from != "" && (m.kind == "reaction" || m.kind == "ephemeral" || m.kind == "request_welcome") ==>
                fate == Dropped(IgnoredType)
      ensures m.id != "" && m.from != "" && m.kind == "system" ==> fate == (if env.systemOk then Dropped(SystemEvent) else Errored)
      ensures Ordinary(m) && Smooth(env, inboxes, disabled, m) ==> fate == Stored
    {
      hide Inv, Reach, Free, Smooth, OthersIdle, Ingested, IsAgent, Preliminary, Ordinary, Cancelled;
      WorkerFindsFree(t);
      fate := IngestFree(t, model.threads[t], m, env);
      OthersStayIdle(old(model), model, t);
    }

    /** The context of the delivery is cancelled, if it is to be. */
    ghost method CancelContext(t: Tid, now: bool)
      requires Valid() && t in model.threads && OthersIdle(model, t)
      modifies this`model
      ensures Valid() && Reach(old(model), model, t) && OthersIdle(model, t) && t in model.threads
      ensures model.threads[t] == old(model.threads[t]).(cancelled := old(model.threads[t].cancelled) || now)
    {
      hide Inv, Reach, OthersIdle;
      ReachSelf(model, t);
      if now {
        CancelKeeps(senderOf, model, t);
        ReachCancel(model, t);
        OthersStayIdle(model, Cancelling(model, t), t);
        model := Cancelling(model, t);
      }
    }

    /** One turn of the loop over the messages. */
    method NextMessage(ghost t: Tid, ghost th: Thread, m: Msg, env: Env) returns (fate: Fate)
      requires Valid() && t in model.threads && OthersIdle(model, t) && model.threads[t] == th
      requires th.pc.Ready? && InFlight(th) && m == Current(th) && (th.cancelled ==> Cancelled(env))
      modifies this`model, this`table, this`convs, this`nextConv
      ensures Valid() && Reach(old(model), model, t) && t in model.threads && OthersIdle(model, t)
      ensures model.threads[t] == th.(fates := th.fates + [fate], cancelled := Cancelled(env))
      ensures old(table) <= table
      ensures Ordinary(m) && Smooth(env, inboxes, disabled, m) ==> fate == Stored
      ensures old(InTable(table, m.id)) ==> table == old(table) && convs == old(convs)
    {
      hide Inv, StepThread, Reach, InTable, Smooth, Cancelled, Ordinary, OthersIdle, MediaFrom, OneOpened, Preliminary;
      CancelContext(t, Cancelled(env));
      ghost var ready := model;
      fate := IngestWhatsAppMessage(t, m, env);
      ReachFurther(old(model), ready, model, t);
    }

    /** The thread reports its delivery and is gone. */
    ghost method Deliver(t: Tid, msgs: seq<Msg>, fates: seq<Fate>, restOk: bool)
      requires Valid() && t in model.threads && |fates| == |msgs|
      requires model.threads[t] == Thread(msgs, fates, model.threads[t].cancelled, Ready)
      modifies this`model
      ensures Valid() && Reach(old(model), model, t) && t !in model.threads
      ensures |model.receipts| > 0 && model.receipts[|model.receipts| - 1] == Receipt(msgs, fates, restOk && Errored !in fates)
    {
      hide Inv, StepThread, Reach;
      Reports(model, t, restOk);
      ReachSelf(model, t);
      ReachNext(model, model, t, Ask(restOk));
      Tick(t, Ask(restOk));
    }

    /** Works through the messages of a delivery, every one of them whatever became of those before, and reports whether
        the delivery is done with. */
    method ProcessWhatsAppPayload(ghost t: Tid, msgs: seq<Msg>, envs: nat -> Env, restOk: bool) returns (fates: seq<Fate>, ok: bool)
      requires Valid() && t in model.threads && OthersIdle(model, t)
      requires model.threads[t] == Thread(msgs, [], false, Ready)
      requires forall i, j | 0 <= i < j :: Cancelled(envs(i)) ==> Cancelled(envs(j))
      modifies this`model, this`table, this`convs, this`nextConv
      ensures Valid() && Reach(old(model), model, t) && t !in model.threads
      ensures |fates| == |msgs| && (ok <==> restOk && Errored !in fates)
      ensures |model.receipts| > 0 && model.receipts[|model.receipts| - 1] == Receipt(msgs, fates, ok)
      ensures old(table) <= table
      ensures forall i | 0 <= i < |msgs| && Ordinary(msgs[i]) && Smooth(envs(i), inboxes, disabled, msgs[i]) :: fates[i] == Stored
      ensures (forall i | 0 <= i < |msgs| :: old(InTable(table, msgs[i].id))) ==> table == old(table) && convs == old(convs)
    {
      hide Inv, StepThread, Reach, InTable, Smooth, Cancelled, Ordinary, OthersIdle, MediaFrom, OneOpened, Preliminary;
      fates := [];
      ReachSelf(model, t);
      for n := 0 to |msgs|
        invariant Valid() && Reach(old(model), model, t) && t in model.threads && OthersIdle(model, t)
        invariant model.threads[t] == Thread(msgs, fates, model.threads[t].cancelled, Ready) && |fates| == n
        invariant model.threads[t].cancelled == (n > 0 && Cancelled(envs(n - 1)))
        invariant old(table) <= table
        invariant forall i | 0 <= i < n && Ordinary(msgs[i]) && Smooth(envs(i), inboxes, disabled, msgs[i]) :: fates[i] == Stored
        invariant (forall i | 0 <= i < |msgs| :: old(InTable(table, msgs[i].id))) ==> table == old(table) && convs == old(convs)
      {
        ghost var before := model;
        var fate := NextMessage(t, model.threads[t], msgs[n], envs(n));
        ReachFurther(old(model), before, model, t);
        fates := fates + [fate];
      }
      ok := restOk && Errored !in fates;
      ghost var done := model;
      Deliver(t, msgs, fates, restOk);
      ReachFurther(old(model), done, model, t);
    }

    ghost method AgentTakesConv(t: Tid, th: Thread, pair: Pair)
      requires At(t, th, AgentStart(pair), model.conv) && Free(model.conv, pair)
      modifies this`model
      ensures At(t, th, AgentHave(pair), model.conv) && Reach(old(model), model, t)
    {
      hide LockPart, DataPart, StepThread, Free;
      var entry := Above(model.conv.used);
      AgentRegistersConv(model, t, entry);
      ReachSelf(model, t);
      ReachNext(model, model, t, Ask(true).(entry := entry));
      Tick(t, Ask(true).(entry := entry));
      AgentAcquiresConv(model, t, Ask(true).(entry := entry));
      ReachNext(old(model), model, t, Ask(true).(entry := entry));
      Tick(t, Ask(true).(entry := entry));
    }

    ghost method AgentLeavesConv(t: Tid, th: Thread, pair: Pair)
      requires At(t, th, AgentLeave(pair), model.conv)
      modifies this`model
      ensures Valid() && t !in model.threads && Reach(old(model), model, t)
    {
      hide LockPart, DataPart, StepThread;
      AgentUnlocksConv(model, t);
      ReachSelf(model, t);
      ReachNext(model, model, t, Ask(true));
      Tick(t, Ask(true));
      AgentIsGone(model, t);
      ReachNext(old(model), model, t, Ask(true));
      Tick(t, Ask(true));
    }

    /** Creates a conversation for a pair that has none open and sends its first message; a conversation whose message
        cannot be sent is deleted again, if that call does not fail as well. */
    method HandleCreateConversation(ghost t: Tid, pair: Pair, lookupOk: bool, createOk: bool, sendOk: bool, deleteOk: bool)
      returns (created: bool)
      requires Valid() && t in model.threads && model.threads[t].pc == AgentStart(pair) && OthersIdle(model, t)
      modifies this`model, this`convs, this`nextConv
      ensures Valid() && Reach(old(model), model, t) && t !in model.threads
      ensures created <==> lookupOk && createOk && sendOk && forall c | c in old(convs) && old(convs)[c].pair == pair :: !old(convs)[c].open
      ensures created ==> Added(old(convs), convs, pair)
      ensures !created && deleteOk ==> convs == old(convs)
      ensures OneOpened(old(convs), convs, pair)
    {
      OpenOutright(convs, pair);
      hide Inv, StepThread, Goto, Reach, AnyOpen, OneOpened, Added;
      AgentFindsFree(t, pair);
      created := CreateLocked(t, model.threads[t], pair, lookupOk, createOk, sendOk, deleteOk);
    }

    lemma AgentFindsFree(t: Tid, pair: Pair)
      requires Valid() && t in model.threads && model.threads[t].pc == AgentStart(pair) && OthersIdle(model, t)
      ensures Free(model.conv, pair)
    {
      hide LockPart, DataPart;
      IdleIsFree(senderOf, model, t);
    }

    method CreateLocked(ghost t: Tid, ghost th: Thread, pair: Pair, lookupOk: bool, createOk: bool, sendOk: bool, deleteOk: bool)
      returns (created: bool)
      requires At(t, th, AgentStart(pair), model.conv) && Free(model.conv, pair)
      modifies this`model, this`convs, this`nextConv
      ensures Valid() && Reach(old(model), model, t) && t !in model.threads
      ensures created <==> lookupOk && !old(AnyOpen(convs, pair)) && createOk && sendOk
      ensures created ==> Added(old(convs), convs, pair)
      ensures !created && deleteOk ==> convs == old(convs)
      ensures OneOpened(old(convs), convs, pair)
    {
      hide Inv, StepThread, Goto, Reach, Free, AnyOpen, OneOpened, Added, IsAgent;
      AgentTakesConv(t, th, pair);
      ghost var held := model;
      created := CreateUnlessOpen(t, th, pair, lookupOk, createOk, sendOk, deleteOk);
      ghost var done := model;
      ReachFurther(old(model), held, done, t);
      AgentLeavesConv(t, th, pair);
      ReachFurther(old(model), done, model, t);
    }

    method CreateUnlessOpen(ghost t: Tid, ghost th: Thread, pair: Pair, lookupOk: bool, createOk: bool, sendOk: bool, deleteOk: bool)
      returns (created: bool)
      requires At(t, th, AgentHave(pair), model.conv)
      modifies this`model, this`convs, this`nextConv
      ensures At(t, th, AgentLeave(pair), old(model.conv)) && Reach(old(model), model, t)
      ensures created <==> lookupOk && !old(AnyOpen(convs, pair)) && createOk && sendOk
      ensures created ==> Added(old(convs), convs, pair)
      ensures !created && deleteOk ==> convs == old(convs)
      ensures OneOpened(old(convs), convs, pair)
    {
      hide Inv, StepThread, Goto, Reach, AnyOpen;
      AgentLooks(model, t, lookupOk);
      if !lookupOk || AnyOpen(convs, pair) {
        Jump(t, th, AgentHave(pair), AgentLeave(pair), Ask(lookupOk), model.conv);
        return false;
      }
      Jump(t, th, AgentHave(pair), AgentNone(pair), Ask(lookupOk), model.conv);
      ghost var none := model;
      created := CreateAndSend(t, th, pair, createOk, sendOk, deleteOk);
      ReachFurther(old(model), none, model, t);
    }

    method CreateAndSend(ghost t: Tid, ghost th: Thread, pair: Pair, createOk: bool, sendOk: bool, deleteOk: bool) returns (created: bool)
      requires At(t, th, AgentNone(pair), model.conv) && !AnyOpen(convs, pair)
      modifies this`model, this`convs, this`nextConv
      ensures At(t, th, AgentLeave(pair), old(model.conv)) && Reach(old(model), model, t)
      ensures created <==> createOk && sendOk
      ensures created ==> Added(old(convs), convs, pair)
      ensures !created && deleteOk ==> convs == old(convs)
      ensures OneOpened(old(convs), convs, pair)
    {
      hide Inv, StepThread, Reach, AnyOpen;
      AgentCreateSteps(model, t, nextConv);
      if !createOk {
        Jump(t, th, AgentNone(pair), AgentLeave(pair), Ask(false), model.conv);
        return false;
      }
      var c := nextConv;
      Shift(t, AgentSend(pair, c), Ask(true).(conv := c), model.(convs := model.convs[c := Conv(pair, true)]));
      convs := convs[c := Conv(pair, true)];
      nextConv := nextConv + 1;
      ghost var there := model;
      hide Goto;
      created := SendFirst(t, th, pair, c, sendOk, deleteOk);
      ReachFurther(old(model), there, model, t);
      assert old(convs)[c := Conv(pair, true)] - {c} == old(convs);
    }

    /** Sends the first message, and deletes the conversation again if that fails. */
    method SendFirst(ghost t: Tid, ghost th: Thread, pair: Pair, c: nat, sendOk: bool, deleteOk: bool) returns (sent: bool)
      requires At(t, th, AgentSend(pair, c), model.conv)
      modifies this`model, this`convs
      ensures At(t, th, AgentLeave(pair), old(model.conv)) && Reach(old(model), model, t)
      ensures sent == sendOk
      ensures convs == if sent || !deleteOk then old(convs) else old(convs) - {c}
    {
      hide Inv, StepThread, Reach, Goto;
      AgentSends(model, t, sendOk);
      if sendOk {
        Jump(t, th, AgentSend(pair, c), AgentLeave(pair), Ask(true), model.conv);
        return true;
      }
      Jump(t, th, AgentSend(pair, c), AgentUndo(pair, c), Ask(false), model.conv);
      ghost var failed := model;
      DeleteConversation(t, th, pair, c, deleteOk);
      ReachFurther(old(model), failed, model, t);
      return false;
    }

    /** Deletes the conversation, or leaves it where it is when the call fails. */
    method DeleteConversation(ghost t: Tid, ghost th: Thread, pair: Pair, c: nat, ok: bool)
      requires At(t, th, AgentUndo(pair, c), model.conv)
      modifies this`model, this`convs
      ensures At(t, th, AgentLeave(pair), old(model.conv)) && Reach(old(model), model, t)
      ensures convs == if ok then old(convs) - {c} else old(convs)
    {
      hide Inv, StepThread, Reach;
      AgentUndoes(model, t, ok);
      if ok {
        Shift(t, AgentLeave(pair), Ask(true), model.(convs := model.convs - {c}));
        convs := convs - {c};
      } else {
        Jump(t, th, AgentUndo(pair, c), AgentLeave(pair), Ask(false), model.conv);
      }
    }
  }

  /** The invariant knows the conversation a thread has chosen as the only open one of its pair, if any is open. */
  lemma ChosenIsOnly(desk: Desk, t: Tid, th: Thread, pair: Pair, conv: nat, media: Media)
    requires desk.At(t, th, Chosen(pair, conv, media), desk.model.conv)
    ensures OnlyOpen(desk.convs, pair, conv)
  {
    hide LockPart, OneOpen, TableFine, ReceiptFine, FatesFine, NotYetStored, SendersFine, MediaFine;
    ThreadOf(desk.senderOf, desk.model, t);
  }

  lemma Reports(s: State, t: Tid, ok: bool)
    requires t in s.threads && s.threads[t].pc.Ready? && !InFlight(s.threads[t])
    ensures StepThread(s, t, Ask(ok)) == Report(s, t, ok)
  {
    hide Begin, Ingest, Create;
  }

  lemma LookupFails(s: State, t: Tid)
    requires t in s.threads && InFlight(s.threads[t]) && s.threads[t].pc.HaveConv?
    ensures StepThread(s, t, Ask(false)) == Goto(s, t, LeaveConv(s.threads[t].pc.pair, Errored))
  {
    hide StepThread, Goto;
    Dispatch(s, t, Ask(false));
  }
}
