/** The inbound pipeline as small-step threads: workers ingesting deliveries and agents creating
    conversations, over one message table, one conversation table and two keyed locks. A label that is not
    enabled changes nothing, so a theorem about all label sequences covers every interleaving. */
module WhatsAppPipeline {
  import opened KeyedLocks
  import opened Prelude

  /** A parsed message: `url` is the inbox its delivery was posted to, `phone` the number it names, if it names one. */
  datatype Msg = Msg(id: string, from: string, kind: string, url: int, phone: string)

  /** A WhatsApp inbox; `reopen` says that it has a window in which resolved conversations are used again. */
  datatype Inbox = Inbox(enabled: bool, phone: string, reopen: bool)

  /** Why a message is dropped, with what the worker saw of the inboxes or of the disabled contacts. */
  datatype Reason =
    | IgnoredType
    | SystemEvent
    | NoEnabledInbox(seen: map<int, Inbox>)
    | ContactDisabled(contact: int, disabled: set<int>)

  datatype Fate = Stored | Dropped(reason: Reason) | Errored

  /** What the media stage hands on; `CutShort` is the empty result of a cancelled download. */
  datatype Media = TextOnly | Attached | Placeholder | CutShort

  datatype Pair = Pair(contact: int, inbox: int)

  datatype Conv = Conv(pair: Pair, open: bool)

  datatype Row = Row(id: string, conv: nat, media: Media)

  datatype Pc =
    // a worker, between messages and within one
    | Ready
    | WantSender
    | HaveSender
    | Resolved(inbox: int, reopen: bool)
    | Known(pair: Pair, reopen: bool)
    | Missing(pair: Pair, reopen: bool)
    | Fetched(pair: Pair, reopen: bool, media: Media)
    | Checked(pair: Pair, reopen: bool, media: Media)
    | WantConv(pair: Pair, reopen: bool, media: Media)
    | HaveConv(pair: Pair, reopen: bool, media: Media)
    | NoneOpen(pair: Pair, media: Media)
    | Chosen(pair: Pair, conv: nat, media: Media)
    | Inserted(pair: Pair, conv: nat, windowOk: bool)
    | LeaveConv(pair: Pair, fate: Fate)
    | LeftConv(pair: Pair, fate: Fate)
    | LeaveSender(fate: Fate)
    | LeftSender(fate: Fate)
    // an agent creating a conversation
    | AgentStart(pair: Pair)
    | AgentWant(pair: Pair)
    | AgentHave(pair: Pair)
    | AgentNone(pair: Pair)
    | AgentSend(pair: Pair, conv: nat)
    | AgentUndo(pair: Pair, conv: nat)
    | AgentLeave(pair: Pair)
    | AgentLeft(pair: Pair)

  datatype Thread = Thread(msgs: seq<Msg>, fates: seq<Fate>, cancelled: bool, pc: Pc)

  /** What a delivery reported: its messages, what became of each, and whether it returned nil. */
  datatype Receipt = Receipt(msgs: seq<Msg>, fates: seq<Fate>, ok: bool)

  datatype State = State(
    sender: Locks<string, nat>,
    conv: Locks<Pair, nat>,
    threads: map<Tid, Thread>,
    table: seq<Row>,
    convs: map<nat, Conv>,
    inboxes: map<int, Inbox>,
    disabled: set<int>,
    receipts: seq<Receipt>)

  /** The environment's answers to one step. */
  datatype Choice = Choice(
    ok: bool,            // the call of this step succeeds
    found: bool,         // it finds what it looks for
    inbox: int,          // the inbox found by its number
    contact: int,        // the contact of the sender
    media: Media,
    conv: nat,           // which conversation a lookup returns, or the id of a created one
    entry: nat)          // the address of a lock entry created in this step

  datatype Label =
    | Deliver(t: Tid, msgs: seq<Msg>)
    | AgentCreate(t: Tid, pair: Pair)
    | Step(t: Tid, choice: Choice)
    | Cancel(t: Tid)
    | Resolve(conv: nat)
    | SetInbox(id: int, inbox: Option<Inbox>)
    | SetContact(contact: int, enabled: bool)

  function Init(): State {
    State(NoLocks(), NoLocks(), map[], [], map[], map[], {}, [])
  }

  predicate InTable(table: seq<Row>, id: string) {
    exists i | 0 <= i < |table| :: table[i].id == id
  }

  predicate IsOpen(convs: map<nat, Conv>, c: nat, pair: Pair) {
    c in convs && convs[c].open && convs[c].pair == pair
  }

  predicate AnyOpen(convs: map<nat, Conv>, pair: Pair) {
    exists c | c in convs :: IsOpen(convs, c, pair)
  }

  predicate Serves(inboxes: map<int, Inbox>, id: int, phone: string) {
    id in inboxes && inboxes[id].enabled && inboxes[id].phone == phone
  }

  predicate AnyServes(inboxes: map<int, Inbox>, phone: string) {
    exists id | id in inboxes :: Serves(inboxes, id, phone)
  }

  /** The inbox of the delivery takes the message itself. */
  predicate TakesOwn(inboxes: map<int, Inbox>, m: Msg) {
    m.url in inboxes && inboxes[m.url].enabled && (m.phone == "" || inboxes[m.url].phone == m.phone)
  }

  /** The delivery's inbox exists but cannot take the message, and no enabled inbox has the number it names. */
  predicate NoneTakes(inboxes: map<int, Inbox>, m: Msg) {
    m.url in inboxes && !TakesOwn(inboxes, m) && !(m.phone != "" && AnyServes(inboxes, m.phone))
  }

  const IGNORED_TYPES := {"reaction", "ephemeral", "request_welcome"}

  function Goto(s: State, t: Tid, pc: Pc): State
    requires t in s.threads
  {
    s.(threads := s.threads[t := s.threads[t].(pc := pc)])
  }

  /** The message is done with; the worker turns to the next one. */
  function Settle(s: State, t: Tid, fate: Fate): State
    requires t in s.threads
  {
    var th := s.threads[t];
    s.(threads := s.threads[t := th.(fates := th.fates + [fate], pc := Ready)])
  }

  /** A delivery is over: nil exactly when no message and nothing else in it failed. */
  function Report(s: State, t: Tid, restOk: bool): State
    requires t in s.threads
  {
    var th := s.threads[t];
    s.(threads := s.threads - {t}, receipts := s.receipts + [Receipt(th.msgs, th.fates, restOk && Errored !in th.fates)])
  }

  function Begin(s: State, t: Tid, c: Choice): State
    requires t in s.threads && |s.threads[t].fates| < |s.threads[t].msgs|
  {
    var m := s.threads[t].msgs[|s.threads[t].fates|];
    if m.id == "" || m.from == "" then Settle(s, t, Errored)
    else if m.kind in IGNORED_TYPES then Settle(s, t, Dropped(IgnoredType))
    else if m.kind == "system" then Settle(s, t, if c.ok then Dropped(SystemEvent) else Errored)
    else if t in s.sender.tickets || c.entry in s.sender.used || !Countable(s.sender, m.from) then s
    else Goto(s.(sender := Register(s.sender, t, m.from, c.entry)), t, WantSender)
  }

  predicate Countable<K, E>(l: Locks<K, E>, key: K) {
    key in l.entries ==> l.entries[key] in l.refs
  }

  predicate CanDeregister<K, E>(l: Locks<K, E>, t: Tid) {
    At(l, t, Releasing) && l.tickets[t].entry in l.refs && l.refs[l.tickets[t].entry] > 0
  }

  /** Looking the conversation up: an open one, else one the reopen window allows, else none. */
  function Lookup(s: State, t: Tid, pair: Pair, reopen: bool, media: Media, c: Choice): State
    requires t in s.threads
  {
    if !c.ok then Goto(s, t, LeaveConv(pair, Errored))
    else if AnyOpen(s.convs, pair) then
      if IsOpen(s.convs, c.conv, pair) then Goto(s, t, Chosen(pair, c.conv, media)) else s
    else if reopen && c.found && c.conv in s.convs && s.convs[c.conv].pair == pair then Goto(s, t, Chosen(pair, c.conv, media))
    else Goto(s, t, NoneOpen(pair, media))
  }

  function Current(th: Thread): Msg
    requires |th.fates| < |th.msgs|
  {
    th.msgs[|th.fates|]
  }

  /** Finding the inbox: the delivery's own, else the one given if it has the number the message names. */
  function FindInbox(s: State, t: Tid, m: Msg, inbox: int): State
    requires t in s.threads
  {
    if TakesOwn(s.inboxes, m) then Goto(s, t, Resolved(m.url, s.inboxes[m.url].reopen))
    else if m.phone != "" && AnyServes(s.inboxes, m.phone) then
      if Serves(s.inboxes, inbox, m.phone) then Goto(s, t, Resolved(inbox, s.inboxes[inbox].reopen)) else s
    else if m.url !in s.inboxes then Goto(s, t, LeaveSender(Errored))
    else Goto(s, t, LeaveSender(Dropped(NoEnabledInbox(s.inboxes))))
  }

  /** Taking and leaving the sender lock. */
  function SenderStep(s: State, t: Tid): State
    requires t in s.threads
  {
    match s.threads[t].pc
    case WantSender =>
      if CanAcquire(s.sender, t) then Goto(s.(sender := Acquire(s.sender, t)), t, HaveSender) else s
    case LeaveSender(fate) =>
      if At(s.sender, t, Holding) then Goto(s.(sender := Unlock(s.sender, t)), t, LeftSender(fate)) else s
    case LeftSender(fate) =>
      if CanDeregister(s.sender, t) then Settle(s.(sender := Deregister(s.sender, t)), t, fate) else s
    case _ => s
  }

  /** Resolving the inbox and the contact. */
  function ResolveStep(s: State, t: Tid, m: Msg, c: Choice): State
    requires t in s.threads
  {
    match s.threads[t].pc
    case HaveSender =>
      if !c.ok then Goto(s, t, LeaveSender(Errored)) else FindInbox(s, t, m, c.inbox)
    case Resolved(inbox, reopen) =>
      if !c.ok then Goto(s, t, LeaveSender(Errored))
      else if c.contact in s.disabled then Goto(s, t, LeaveSender(Dropped(ContactDisabled(c.contact, s.disabled))))
      else Goto(s, t, Known(Pair(c.contact, inbox), reopen))
    case _ => s
  }

  /** The duplicate check, the download and the look at the context after it. */
  function MediaStep(s: State, t: Tid, m: Msg, c: Choice): State
    requires t in s.threads
  {
    var th := s.threads[t];
    match th.pc
    case Known(pair, reopen) =>
      if !c.ok then Goto(s, t, LeaveSender(Errored))
      else if InTable(s.table, m.id) then Goto(s, t, LeaveSender(Stored))
      else Goto(s, t, Missing(pair, reopen))
    case Missing(pair, reopen) =>
      if !c.ok then Goto(s, t, LeaveSender(Errored))
      else if c.media.CutShort? && !th.cancelled then s
      else Goto(s, t, Fetched(pair, reopen, c.media))
    case Fetched(pair, reopen, media) =>
      if th.cancelled then Goto(s, t, LeaveSender(Errored)) else Goto(s, t, Checked(pair, reopen, media))
    case _ => s
  }

  /** Taking and leaving the conversation lock. */
  function ConvLockStep(s: State, t: Tid, entry: nat): State
    requires t in s.threads
  {
    match s.threads[t].pc
    case Checked(pair, reopen, media) =>
      if t in s.conv.tickets || entry in s.conv.used || !Countable(s.conv, pair) then s
      else Goto(s.(conv := Register(s.conv, t, pair, entry)), t, WantConv(pair, reopen, media))
    case WantConv(pair, reopen, media) =>
      if CanAcquire(s.conv, t) then Goto(s.(conv := Acquire(s.conv, t)), t, HaveConv(pair, reopen, media)) else s
    case LeaveConv(pair, fate) =>
      if At(s.conv, t, Holding) then Goto(s.(conv := Unlock(s.conv, t)), t, LeftConv(pair, fate)) else s
    case LeftConv(pair, fate) =>
      if CanDeregister(s.conv, t) then Goto(s.(conv := Deregister(s.conv, t)), t, LeaveSender(fate)) else s
    case _ => s
  }

  /** Under the conversation lock: creating a conversation, inserting the message, reopening the conversation. */
  function StoreStep(s: State, t: Tid, m: Msg, c: Choice): State
    requires t in s.threads
  {
    match s.threads[t].pc
    case NoneOpen(pair, media) =>
      if !c.ok then Goto(s, t, LeaveConv(pair, Errored))
      else if c.conv in s.convs then s
      else Goto(s.(convs := s.convs[c.conv := Conv(pair, true)]), t, Chosen(pair, c.conv, media))
    case Chosen(pair, conv, media) =>
      if !c.ok then Goto(s, t, LeaveConv(pair, Errored))
      else Goto(s.(table := s.table + [Row(m.id, conv, media)]), t, Inserted(pair, conv, c.found))
    case Inserted(pair, conv, windowOk) =>
      var fate := if windowOk then Stored else Errored;
      if c.ok && conv in s.convs
      then Goto(s.(convs := s.convs[conv := s.convs[conv].(open := true)]), t, LeaveConv(pair, fate))
      else Goto(s, t, LeaveConv(pair, fate))
    case _ => s
  }

  predicate AtSender(pc: Pc) {
    pc.WantSender? || pc.LeaveSender? || pc.LeftSender?
  }

  predicate AtResolve(pc: Pc) {
    pc.HaveSender? || pc.Resolved?
  }

  predicate AtMedia(pc: Pc) {
    pc.Known? || pc.Missing? || pc.Fetched?
  }

  predicate AtConvLock(pc: Pc) {
    pc.Checked? || pc.WantConv? || pc.LeaveConv? || pc.LeftConv?
  }

  predicate AtStore(pc: Pc) {
    pc.NoneOpen? || pc.Chosen? || pc.Inserted?
  }

  /** One atomic step of a worker that is inside a message. */
  function Ingest(s: State, t: Tid, c: Choice): State
    requires t in s.threads && |s.threads[t].fates| < |s.threads[t].msgs|
  {
    var th := s.threads[t];
    var pc := th.pc;
    if AtSender(pc) then SenderStep(s, t)
    else if AtResolve(pc) then ResolveStep(s, t, Current(th), c)
    else if AtMedia(pc) then MediaStep(s, t, Current(th), c)
    else if AtConvLock(pc) then ConvLockStep(s, t, c.entry)
    else if pc.HaveConv? then Lookup(s, t, pc.pair, pc.reopen, pc.media, c)
    else if AtStore(pc) then StoreStep(s, t, Current(th), c)
    else s
  }

  /** An agent-initiated create at the conversation lock. */
  function AgentLockStep(s: State, t: Tid, entry: nat): State
    requires t in s.threads
  {
    match s.threads[t].pc
    case AgentStart(pair) =>
      if t in s.conv.tickets || entry in s.conv.used || !Countable(s.conv, pair) then s
      else Goto(s.(conv := Register(s.conv, t, pair, entry)), t, AgentWant(pair))
    case AgentWant(pair) =>
      if CanAcquire(s.conv, t) then Goto(s.(conv := Acquire(s.conv, t)), t, AgentHave(pair)) else s
    case AgentLeave(pair) =>
      if At(s.conv, t, Holding) then Goto(s.(conv := Unlock(s.conv, t)), t, AgentLeft(pair)) else s
    case AgentLeft(pair) =>
      if CanDeregister(s.conv, t) then s.(conv := Deregister(s.conv, t), threads := s.threads - {t}) else s
    case _ => s
  }

  /** An agent-initiated create under the lock: look, create, send, and delete what could not be sent. */
  function AgentDataStep(s: State, t: Tid, c: Choice): State
    requires t in s.threads
  {
    match s.threads[t].pc
    case AgentHave(pair) =>
      if !c.ok || AnyOpen(s.convs, pair) then Goto(s, t, AgentLeave(pair)) else Goto(s, t, AgentNone(pair))
    case AgentNone(pair) =>
      if !c.ok then Goto(s, t, AgentLeave(pair))
      else if c.conv in s.convs then s
      else Goto(s.(convs := s.convs[c.conv := Conv(pair, true)]), t, AgentSend(pair, c.conv))
    case AgentSend(pair, conv) => Goto(s, t, if c.ok then AgentLeave(pair) else AgentUndo(pair, conv))
    case AgentUndo(pair, conv) =>
      Goto(if c.ok then s.(convs := s.convs - {conv}) else s, t, AgentLeave(pair))
    case _ => s
  }

  predicate AtAgentLock(pc: Pc) {
    pc.AgentStart? || pc.AgentWant? || pc.AgentLeave? || pc.AgentLeft?
  }

  /** One atomic step of an agent-initiated create. */
  function Create(s: State, t: Tid, c: Choice): State
    requires t in s.threads
  {
    if AtAgentLock(s.threads[t].pc) then AgentLockStep(s, t, c.entry) else AgentDataStep(s, t, c)
  }

  predicate IsAgent(pc: Pc) {
    pc.AgentStart? || pc.AgentWant? || pc.AgentHave? || pc.AgentNone? || pc.AgentSend? || pc.AgentUndo? || pc.AgentLeave? || pc.AgentLeft?
  }

  function StepThread(s: State, t: Tid, c: Choice): State
    requires t in s.threads
  {
    var th := s.threads[t];
    if IsAgent(th.pc) then Create(s, t, c)
    else if |th.fates| >= |th.msgs| then (if th.pc.Ready? then Report(s, t, c.ok) else s)
    else if th.pc.Ready? then Begin(s, t, c)
    else Ingest(s, t, c)
  }

  /** `senderOf` is the one sender of each message id. */
  function Next(senderOf: string -> string, s: State, l: Label): State {
    match l
    case Deliver(t, msgs) =>
      if t in s.threads || exists i | 0 <= i < |msgs| :: msgs[i].from != senderOf(msgs[i].id) then s
      else s.(threads := s.threads[t := Thread(msgs, [], false, Ready)])
    case AgentCreate(t, pair) =>
      if t in s.threads then s else s.(threads := s.threads[t := Thread([], [], false, AgentStart(pair))])
    case Step(t, c) => if t in s.threads then StepThread(s, t, c) else s
    case Cancel(t) => if t in s.threads then s.(threads := s.threads[t := s.threads[t].(cancelled := true)]) else s
    case SetInbox(id, inbox) => s.(inboxes := if inbox.Some? then s.inboxes[id := inbox.value] else s.inboxes - {id})
    case SetContact(contact, enabled) => s.(disabled := if enabled then s.disabled - {contact} else s.disabled + {contact})
    case Resolve(conv) => if conv in s.convs then s.(convs := s.convs[conv := s.convs[conv].(open := false)]) else s
  }

  function Run(senderOf: string -> string, labels: seq<Label>): State {
    if labels == [] then Init() else Next(senderOf, Run(senderOf, labels[..|labels| - 1]), labels[|labels| - 1])
  }

  /** A run that goes on from a state. */
  function RunFrom(senderOf: string -> string, s: State, labels: seq<Label>): State {
    if labels == [] then s else Next(senderOf, RunFrom(senderOf, s, labels[..|labels| - 1]), labels[|labels| - 1])
  }
}
