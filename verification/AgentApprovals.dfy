/** Pausable runs under every interleaving: threads that start, work, claim and decide runs, the shared
    map of parked runs, expiry, clearing, and a tool table that changes underneath. The state after a
    sequence of labels is a function of the labels; a label that is not enabled changes nothing, so a
    theorem about all label sequences is a theorem about all runs of the system. */
module AgentApprovals {
  import opened Prelude
  import opened AgentTranscript
  import opened AgentRun

  type Tid = nat

  datatype ToolRecord = ToolRecord(
    enabled: bool,
    name: string,
    updatedAt: int,
    copilotEnabled: bool,
    generateReplyEnabled: bool)

  /** Where a run stands: batches started so far and calls of the current batch answered. */
  datatype Pos = Pos(step: nat, call: nat)

  predicate Before(a: Pos, b: Pos) {
    a.step < b.step || (a.step == b.step && a.call < b.call)
  }

  function At(r: Run): Pos {
    Pos(r.step, r.nextToolCall)
  }

  datatype Event =
    | ModelCalled(key: nat, budget: nat, transcript: seq<Message>)
    | Executed(run: Run, grant: Option<RunId>)
    | Parked(run: Run)
    | Decided(id: RunId, agentId: int, approved: bool, time: int)
    | Validated(id: RunId, record: ToolRecord)

  /** A thread loops over a run, holds a run it has just claimed, or holds an approved run whose tool still matched. */
  datatype Thread = Working(run: Run) | Claimed(run: Run, approved: bool) | Cleared(run: Run)

  datatype State = State(
    now: int,
    pending: map<RunId, Run>,
    active: map<Tid, Thread>,
    issued: set<RunId>,
    tools: map<int, ToolRecord>,
    runs: nat,
    log: seq<Event>)

  datatype Label =
    | Start(t: Tid, scope: Scope, registry: map<string, Tool>, messages: seq<Message>, maxSteps: int, approvals: bool)
    | Work(t: Tid, env: Env, freshId: RunId)
    | Claim(t: Tid, id: RunId, agentId: int, approved: bool)
    | Decide(t: Tid)
    | Clear(scope: Scope)
    | Query
    | Tick(elapsed: nat)
    | SetTool(toolId: int, record: Option<ToolRecord>)

  function Init(now: int, tools: map<int, ToolRecord>): State {
    State(now, map[], map[], {}, tools, 0, [])
  }

  function Unexpired(pending: map<RunId, Run>, now: int): map<RunId, Run> {
    map id | id in pending && pending[id].expiresAt > now :: pending[id]
  }

  function WithoutScope(pending: map<RunId, Run>, scope: Scope): map<RunId, Run> {
    map id | id in pending && !SameScope(pending[id].scope, scope) :: pending[id]
  }

  predicate ScopeTaken(pending: map<RunId, Run>, scope: Scope) {
    exists id | id in pending :: SameScope(pending[id].scope, scope)
  }

  /** The run as it is parked: a new id, the tool it waits on, and its lifetime. */
  function Stamp(r: Run, id: RunId, now: int): Run
    requires Guarded(r)
  {
    var tool := r.registry[CurrentCall(r).name];
    r.(id := id, toolId := tool.toolId, toolUpdatedAt := tool.updatedAt,
       createdAt := now, expiresAt := now + PENDING_RUN_TTL)
  }

  /** The run carries the tool its call waits on, and its lifetime. */
  predicate Stamped(r: Run)
    requires Guarded(r)
  {
    var tool := r.registry[CurrentCall(r).name];
    && tool.Custom? && r.toolId == tool.toolId && r.toolUpdatedAt == tool.updatedAt
    && r.expiresAt == r.createdAt + PENDING_RUN_TTL
  }

  /** The tool record still allows the parked call. */
  predicate Matches(r: Run, record: ToolRecord) {
    && Unanswered(r)
    && record.enabled
    && record.name == CurrentCall(r).name
    && record.updatedAt == r.toolUpdatedAt
    && (r.scope.surface == SURFACE_COPILOT ==> record.copilotEnabled)
    && (r.scope.surface == SURFACE_REPLY ==> record.generateReplyEnabled)
  }

  /** Parking: expired entries go first, then the run is admitted unless its scope is taken. */
  function Park(s: State, t: Tid, r: Run): State {
    var live := Unexpired(s.pending, s.now);
    var freed := s.(active := s.active - {t}, issued := s.issued + {r.id});
    if ScopeTaken(live, r.scope) then freed.(pending := live)
    else freed.(pending := live[r.id := r], log := s.log + [Parked(r)])
  }

  function Execute(s: State, t: Tid, r: Run, env: Env, grant: Option<RunId>): State
    requires Unanswered(r)
  {
    s.(active := s.active[t := Working(Resolve(r, ExecuteToolCall(r, env)))],
       log := s.log + [Executed(r, grant)])
  }

  function Consult(s: State, t: Tid, r: Run, env: Env): State {
    var asked := s.(log := s.log + [ModelCalled(r.key, r.maxSteps, r.messages)]);
    var m := NextMove(r, env);
    if m.Asked? then asked.(active := s.active[t := Working(m.run)]) else asked.(active := s.active - {t})
  }

  function WorkStep(s: State, t: Tid, env: Env, freshId: RunId): State
    requires t in s.active
  {
    match s.active[t]
    case Working(r) =>
      if AwaitsApproval(r) then (if freshId in s.issued then s else Park(s, t, Stamp(r, freshId, s.now)))
      else if Unanswered(r) then Execute(s, t, r, env, None)
      else Consult(s, t, r, env)
    case Claimed(_, _) => s
    case Cleared(r) => if Unanswered(r) then Execute(s, t, r, env, Some(r.id)) else s
  }

  function ClaimStep(s: State, t: Tid, id: RunId, agentId: int, approved: bool): State {
    var live := Unexpired(s.pending, s.now);
    if id !in live || live[id].scope.agentId != agentId then s.(pending := live)
    else s.(pending := live - {id}, active := s.active[t := Claimed(live[id], approved)],
            log := s.log + [Decided(id, agentId, approved, s.now)])
  }

  const DECLINED := "The agent declined this tool call."

  function DecideStep(s: State, t: Tid): State
    requires t in s.active && s.active[t].Claimed?
  {
    var r := s.active[t].run;
    if s.active[t].approved then
      if r.toolId in s.tools && Matches(r, s.tools[r.toolId])
      then s.(active := s.active[t := Cleared(r)], log := s.log + [Validated(r.id, s.tools[r.toolId])])
      else s.(active := s.active - {t})
    else if Unanswered(r) then s.(active := s.active[t := Working(Resolve(r, DECLINED))])
    else s
  }

  predicate AllPlain(messages: seq<Message>) {
    forall i | 0 <= i < |messages| :: IsPlain(messages[i])
  }

  function Next(s: State, l: Label): State {
    match l
    case Start(t, scope, registry, messages, maxSteps, approvals) =>
      if t in s.active || !AllPlain(messages) then s
      else s.(active := s.active[t := Working(NewRun(s.runs, scope, registry, messages, maxSteps, approvals))],
              runs := s.runs + 1)
    case Work(t, env, freshId) => if t in s.active then WorkStep(s, t, env, freshId) else s
    case Claim(t, id, agentId, approved) => if t in s.active then s else ClaimStep(s, t, id, agentId, approved)
    case Decide(t) => if t in s.active && s.active[t].Claimed? then DecideStep(s, t) else s
    case Clear(scope) => s.(pending := WithoutScope(s.pending, scope))
    case Query => s.(pending := Unexpired(s.pending, s.now))
    case Tick(elapsed) => s.(now := s.now + elapsed)
    case SetTool(toolId, record) =>
      s.(tools := if record.Some? then s.tools[toolId := record.value] else s.tools - {toolId})
  }

  function Exec(s: State, labels: seq<Label>): State {
    if labels == [] then s else Next(Exec(s, labels[..|labels| - 1]), labels[|labels| - 1])
  }

  function ModelCalls(log: seq<Event>, key: nat): nat {
    if log == [] then 0
    else
      var e := log[|log| - 1];
      ModelCalls(log[..|log| - 1], key) + (if e.ModelCalled? && e.key == key then 1 else 0)
  }

  // ----- invariants

  /** The run was parked at `p` of the log and decided at `d` after it, by its own agent. */
  ghost predicate DecidedAfterPark(log: seq<Event>, r: Run, approved: bool, time: int, p: nat, d: nat) {
    p < d < |log| && log[p] == Parked(r) && log[d] == Decided(r.id, r.scope.agentId, approved, time)
  }

  /** After position `d` the tool of the run was found to match. */
  ghost predicate ValidatedAfter(log: seq<Event>, r: Run, record: ToolRecord, d: nat, v: nat) {
    d < v < |log| && log[v] == Validated(r.id, record) && Matches(r, record)
  }

  ghost predicate GrantedBy(log: seq<Event>, e: Event, time: int, record: ToolRecord, p: nat, d: nat, v: nat)
    requires e.Executed?
  {
    e.grant == Some(e.run.id) && DecidedAfterPark(log, e.run, true, time, p, d) && ValidatedAfter(log, e.run, record, d, v)
  }

  /** This very run was parked at this very call, then claimed by the scope's own agent with approval, then its tool found
      to match. */
  ghost predicate Granted(log: seq<Event>, e: Event)
    requires e.Executed?
  {
    exists time, record, p, d, v :: GrantedBy(log, e, time, record, p, d, v)
  }

  predicate SameCall(e: Event, key: nat, at: Pos) {
    e.Executed? && e.run.key == key && At(e.run) == at
  }

  ghost predicate KnownEvents(log: seq<Event>, issued: set<RunId>, runs: nat) {
    forall e | e in log ::
      match e
      case ModelCalled(key, budget, transcript) =>
        key < runs && Complete(transcript) && ModelCalls(log, key) <= budget + 1
      case Executed(r, _) => r.key < runs && Unanswered(r)
      case Parked(r) => r.key < runs && r.id in issued && AwaitsApproval(r) && Stamped(r)
      case Decided(id, _, _, _) => id in issued
      case Validated(_, _) => true
  }

  ghost predicate ParkedOnce(log: seq<Event>) {
    forall p, q | p in log && q in log && p.Parked? && q.Parked? ::
      p.run.id == q.run.id || (p.run.key == q.run.key && At(p.run) == At(q.run)) ==> p == q
  }

  ghost predicate DecidedOnce(log: seq<Event>) {
    forall i, j | 0 <= i < j < |log| && log[i].Decided? && log[j].Decided? :: log[i].id != log[j].id
  }

  ghost predicate ExecutedOnce(log: seq<Event>) {
    forall i, j | 0 <= i < j < |log| && log[i].Executed? && log[j].Executed? :: !SameCall(log[i], log[j].run.key, At(log[j].run))
  }

  ghost predicate DecidedFrom(log: seq<Event>, d: Event, r: Run)
    requires d.Decided?
  {
    && Parked(r) in log && r.id == d.id && r.scope.agentId == d.agentId
    && d.time < r.createdAt + PENDING_RUN_TTL
    && (!d.approved ==> forall x | x in log :: !SameCall(x, r.key, At(r)))
  }

  /** Every decision was made by the parked run's own agent within its lifetime, and no declined call was executed. */
  ghost predicate DecisionsSound(log: seq<Event>) {
    forall d | d in log && d.Decided? :: exists r :: DecidedFrom(log, d, r)
  }

  ghost predicate ExecutionsGranted(log: seq<Event>) {
    forall i | 0 <= i < |log| && log[i].Executed? && AwaitsApproval(log[i].run) :: Granted(log[..i], log[i])
  }

  ghost predicate LogOk(log: seq<Event>, issued: set<RunId>, runs: nat) {
    && KnownEvents(log, issued, runs)
    && ParkedOnce(log)
    && DecidedOnce(log)
    && ExecutedOnce(log)
    && DecisionsSound(log)
    && ExecutionsGranted(log)
  }

  /** What the log says about a run someone holds: steps equal model calls, everything executed or parked
      lies before the run's position, and a run waiting for approval is itself the last one parked. */
  ghost predicate History(log: seq<Event>, runs: nat, r: Run, awaiting: bool) {
    && RunOk(r) && r.key < runs
    && ModelCalls(log, r.key) == r.step
    && (forall e | e in log && e.ModelCalled? && e.key == r.key :: e.budget == r.maxSteps)
    && (forall e | e in log && e.Executed? && e.run.key == r.key :: Before(At(e.run), At(r)))
    && (forall e | e in log && e.Parked? && e.run.key == r.key :: Before(At(e.run), At(r)) || (awaiting && e.run == r))
    && (awaiting ==> Parked(r) in log && AwaitsApproval(r))
  }

  ghost predicate Undecided(log: seq<Event>, id: RunId) {
    forall e | e in log && e.Decided? :: e.id != id
  }

  ghost predicate ThreadOk(log: seq<Event>, th: Thread) {
    match th
    case Working(_) => true
    case Claimed(r, approved) => exists time, p, d :: DecidedAfterPark(log, r, approved, time, p, d)
    case Cleared(r) =>
      exists time, record, p, d, v :: DecidedAfterPark(log, r, true, time, p, d) && ValidatedAfter(log, r, record, d, v)
  }

  /** Each key is its run's id and no two parked runs share a scope. */
  ghost predicate OnePerScope(pending: map<RunId, Run>) {
    && (forall id | id in pending :: pending[id].id == id)
    && (forall a, b | a in pending && b in pending && a != b :: !SameScope(pending[a].scope, pending[b].scope))
  }

  /** No run object is held twice, by threads or by the map. */
  ghost predicate OneHolder(pending: map<RunId, Run>, active: map<Tid, Thread>) {
    && (forall a, b | a in pending && b in pending && a != b :: pending[a].key != pending[b].key)
    && (forall t, u | t in active && u in active && t != u :: active[t].run.key != active[u].run.key)
    && (forall t, a | t in active && a in pending :: active[t].run.key != pending[a].key)
  }

  ghost predicate PendingOk(log: seq<Event>, runs: nat, pending: map<RunId, Run>) {
    forall id | id in pending :: History(log, runs, pending[id], true) && Undecided(log, id)
  }

  ghost predicate ActiveOk(log: seq<Event>, runs: nat, active: map<Tid, Thread>) {
    forall t | t in active :: History(log, runs, active[t].run, !active[t].Working?) && ThreadOk(log, active[t])
  }

  ghost predicate Inv(s: State) {
    && LogOk(s.log, s.issued, s.runs)
    && OnePerScope(s.pending)
    && OneHolder(s.pending, s.active)
    && PendingOk(s.log, s.runs, s.pending)
    && ActiveOk(s.log, s.runs, s.active)
  }
}
