/** One tool-calling run on its own: the record that survives a pause, a single move of the loop,
    and what an uninterrupted stretch of the loop does. */
module AgentRun {
  import opened Prelude
  import opened AgentTranscript

  type RunId = string

  const DEFAULT_MAX_STEPS := 5

  /** Ten minutes in nanoseconds. */
  const PENDING_RUN_TTL := 600_000_000_000

  const SURFACE_COPILOT := "copilot"
  const SURFACE_REPLY := "generate_reply"

  /** A registered tool. Only custom tools can ask for approval. */
  datatype Tool = Builtin | Custom(toolId: int, approvalRequired: bool, updatedAt: int)

  datatype Scope = Scope(
    agentId: int,
    conversationId: int,
    conversationUuid: string,
    surface: string,
    userMessage: string)

  /** The user message is carried along but is not part of a scope's identity. */
  predicate SameScope(a: Scope, b: Scope) {
    && a.agentId == b.agentId
    && a.conversationId == b.conversationId
    && a.conversationUuid == b.conversationUuid
    && a.surface == b.surface
  }

  /** The record of a run. `key` is the identity of the run object itself and never changes. */
  datatype Run = Run(
    key: nat,
    scope: Scope,
    registry: map<string, Tool>,
    messages: seq<Message>,
    toolCalls: seq<ToolCall>,
    nextToolCall: nat,
    step: nat,
    maxSteps: nat,
    approvals: bool,
    id: RunId,
    toolId: int,
    toolUpdatedAt: int,
    createdAt: int,
    expiresAt: int)

  function NewRun(key: nat, scope: Scope, registry: map<string, Tool>, messages: seq<Message>,
                  maxSteps: int, approvals: bool): Run
  {
    Run(key, scope, registry, messages, [], 0, 0, if maxSteps <= 0 then DEFAULT_MAX_STEPS else maxSteps,
        approvals, "", 0, 0, 0, 0)
  }

  datatype Reply = Reply(content: string, toolCalls: seq<ToolCall>) | ProviderError

  datatype ToolOutcome = Output(text: string) | ToolError

  /** The model and the tools. Transcripts of one run only grow, so letting the answers depend on the
      transcript loses no behaviour. `offered` says whether the tools were offered to the model. */
  datatype Env = Env(model: (seq<Message>, bool) -> Reply, tool: (seq<Message>, ToolCall) -> ToolOutcome)

  predicate Unanswered(r: Run) {
    r.nextToolCall < |r.toolCalls|
  }

  function CurrentCall(r: Run): ToolCall
    requires Unanswered(r)
  {
    r.toolCalls[r.nextToolCall]
  }

  /** The registered tool behind the current call asks for approval. */
  predicate Guarded(r: Run) {
    && Unanswered(r)
    && var name := CurrentCall(r).name;
    && name in r.registry && r.registry[name].Custom? && r.registry[name].approvalRequired
  }

  predicate AwaitsApproval(r: Run) {
    r.approvals && Guarded(r)
  }

  function ExecuteToolCall(r: Run, env: Env): string
    requires Unanswered(r)
  {
    var call := CurrentCall(r);
    if call.name !in r.registry then "error: unknown tool " + call.name
    else match env.tool(r.messages, call)
      case Output(text) => text
      case ToolError => "the tool call failed"
  }

  /** The current call gets its result and the run moves on to the next one. */
  function Resolve(r: Run, result: string): Run
    requires Unanswered(r)
  {
    r.(messages := r.messages + [Answer(CurrentCall(r), result)], nextToolCall := r.nextToolCall + 1)
  }

  /** The model asked for tools: a new batch starts and one step of the budget is spent. */
  function Extend(r: Run, content: string, calls: seq<ToolCall>): Run {
    r.(messages := r.messages + [Request(content, calls)], toolCalls := calls, nextToolCall := 0, step := r.step + 1)
  }

  datatype RunError = ModelFailed | NoAnswerWithinSteps | ApprovalPending

  datatype Move =
    | Ran(run: Run)
    | Asked(run: Run)
    | Pauses
    | Finishes(content: string)
    | Fails(error: RunError)

  /** One move of the loop: answer the current call, stop for approval, or ask the model. */
  function NextMove(r: Run, env: Env): Move {
    if Unanswered(r) then
      if AwaitsApproval(r) then Pauses else Ran(Resolve(r, ExecuteToolCall(r, env)))
    else if r.step < r.maxSteps then
      match env.model(r.messages, true)
      case ProviderError => Fails(ModelFailed)
      case Reply(content, calls) => if calls == [] then Finishes(content) else Asked(Extend(r, content, calls))
    else
      match env.model(r.messages, false)
      case ProviderError => Fails(ModelFailed)
      case Reply(content, _) => if IsBlank(content) then Fails(NoAnswerWithinSteps) else Finishes(content)
  }

  /** The invariant a run carries through every pause. */
  ghost predicate RunOk(r: Run) {
    && r.step <= r.maxSteps
    && if Unanswered(r) then OpenAt(r.messages, r.toolCalls, r.nextToolCall) else Complete(r.messages)
  }

  lemma NewRunOk(key: nat, scope: Scope, registry: map<string, Tool>, messages: seq<Message>, maxSteps: int, approvals: bool)
    requires forall m | m in messages :: IsPlain(m)
    ensures RunOk(NewRun(key, scope, registry, messages, maxSteps, approvals))
  {
    PlainIsComplete(messages);
  }

  lemma ResolveKeeps(r: Run, result: string)
    requires RunOk(r) && Unanswered(r)
    ensures RunOk(Resolve(r, result))
  {
    AnswerAdvances(r.messages, r.toolCalls, r.nextToolCall, result);
    if r.nextToolCall + 1 == |r.toolCalls| {
      LastAnswerCompletes(Resolve(r, result).messages, r.toolCalls);
    }
  }

  /** Each move keeps the invariant, and the model is only ever shown a fully answered transcript. */
  lemma MoveKeeps(r: Run, env: Env)
    requires RunOk(r)
    ensures var m := NextMove(r, env);
            && (m.Ran? || m.Asked? ==> RunOk(m.run))
            && (!Unanswered(r) ==> Complete(r.messages))
  {
    if Unanswered(r) {
      ResolveKeeps(r, ExecuteToolCall(r, env));
    } else if r.step < r.maxSteps {
      match env.model(r.messages, true)
      case ProviderError =>
      case Reply(content, calls) =>
        if calls != [] {
          RequestOpens(r.messages, content, calls);
        }
    }
  }

  function Remaining(r: Run): nat {
    if r.step < r.maxSteps then r.maxSteps - r.step else 0
  }

  function Open(r: Run): nat {
    if Unanswered(r) then |r.toolCalls| - r.nextToolCall else 0
  }

  /** The lexicographic measure (steps left, unanswered calls) falls with every move that does not stop. */
  lemma MoveDescends(r: Run, env: Env)
    ensures var m := NextMove(r, env);
            && (m.Ran? ==> Remaining(m.run) == Remaining(r) && Open(m.run) < Open(r))
            && (m.Asked? ==> Remaining(m.run) < Remaining(r))
  {
  }

  /** How an uninterrupted stretch ends, and the transcripts the model was shown on the way. */
  datatype Stretch = Stretch(run: Run, end: Move, shown: seq<seq<Message>>)

  function Advance(r: Run, env: Env): Stretch
    decreases Remaining(r), Open(r)
  {
    var m := NextMove(r, env);
    match m
    case Ran(run) => Advance(run, env)
    case Asked(run) => var s := Advance(run, env); s.(shown := [r.messages] + s.shown)
    case Pauses => Stretch(r, m, [])
    case Finishes(_) => Stretch(r.(toolCalls := []), m, [r.messages])
    case Fails(_) => Stretch(r.(toolCalls := []), m, [r.messages])
  }

  // ----- the loop, one move at a time

  lemma StretchPauses(r: Run, env: Env)
    requires AwaitsApproval(r)
    ensures Advance(r, env) == Stretch(r, Pauses, [])
  {
  }

  lemma StretchRuns(r: Run, env: Env)
    requires Unanswered(r) && !AwaitsApproval(r)
    ensures Advance(r, env) == Advance(Resolve(r, ExecuteToolCall(r, env)), env)
  {
  }

  /** A fully answered batch can be forgotten. */
  lemma StretchSettles(r: Run, env: Env)
    requires !Unanswered(r)
    ensures Advance(r.(toolCalls := []), env) == Advance(r, env)
  {
  }

  lemma StretchAsks(r: Run, env: Env)
    requires !Unanswered(r) && r.step < r.maxSteps
    ensures match env.model(r.messages, true)
            case ProviderError => Advance(r, env) == Stretch(r.(toolCalls := []), Fails(ModelFailed), [r.messages])
            case Reply(content, calls) =>
              if calls == [] then Advance(r, env) == Stretch(r.(toolCalls := []), Finishes(content), [r.messages])
              else
                var b := Advance(Extend(r, content, calls), env);
                Advance(r, env) == b.(shown := [r.messages] + b.shown)
  {
  }

  lemma StretchForces(r: Run, env: Env)
    requires !Unanswered(r) && r.step >= r.maxSteps
    ensures match env.model(r.messages, false)
            case ProviderError => Advance(r, env) == Stretch(r.(toolCalls := []), Fails(ModelFailed), [r.messages])
            case Reply(content, _) =>
              Advance(r, env) ==
              Stretch(r.(toolCalls := []), if IsBlank(content) then Fails(NoAnswerWithinSteps) else Finishes(content), [r.messages])
  {
  }

  /** What survives of a run: the parts no move touches. */
  predicate SameRun(a: Run, b: Run) {
    a.key == b.key && a.scope == b.scope && a.registry == b.registry && a.maxSteps == b.maxSteps && a.approvals == b.approvals
  }

  /** A run that the model has ended stays in order when its batch is forgotten, and waits for nobody. */
  lemma StopsSettled(r: Run, env: Env)
    requires RunOk(r)
    ensures !Unanswered(r) ==> RunOk(r.(toolCalls := [])) && !AwaitsApproval(r.(toolCalls := []))
    ensures r.step <= r.maxSteps
  {
    hide Complete, OpenAt;
  }

  /** A stretch shows the model only complete transcripts, stops for approval exactly at an unanswered
      guarded call with everything before it answered, and pays one step per model call, the forced
      last one excepted. */
  lemma {:induction false} AdvanceKeeps(r: Run, env: Env)
    requires RunOk(r)
    ensures var s := Advance(r, env);
            && SameRun(s.run, r) && RunOk(s.run)
            && !s.end.Ran? && !s.end.Asked?
            && (forall i | 0 <= i < |s.shown| :: Complete(s.shown[i]))
            && (s.end.Pauses? <==> AwaitsApproval(s.run))
            && (s.end.Pauses? ==> r.step + |s.shown| == s.run.step)
            && r.step + |s.shown| <= r.maxSteps + 1
    decreases Remaining(r), Open(r)
  {
    hide RunOk, Complete;
    MoveKeeps(r, env);
    StopsSettled(r, env);
    var m := NextMove(r, env);
    if m.Ran? || m.Asked? {
      AdvanceKeeps(m.run, env);
    }
  }

  /** The end is what the model said to the last transcript it was shown, with the tools offered while steps are left and
      without them afterwards. */
  ghost predicate SaidByModel(a: Stretch, last: seq<Message>, env: Env) {
    var reply := env.model(last, a.run.step < a.run.maxSteps);
    match a.end
    case Finishes(content) =>
      && reply.Reply? && reply.content == content
      && if a.run.step < a.run.maxSteps then reply.toolCalls == [] else exists i :: 0 <= i < |content| && !IsSpace(content[i])
    case Fails(error) =>
      if error == ModelFailed then reply == ProviderError
      else
        && error == NoAnswerWithinSteps && a.run.step >= a.run.maxSteps
        && reply.Reply? && forall i | 0 <= i < |reply.content| :: IsSpace(reply.content[i])
    case _ => false
  }

  lemma {:induction false} EndIsTheModels(r: Run, env: Env)
    ensures var a := Advance(r, env);
            !a.end.Pauses? ==> a.shown != [] && SaidByModel(a, a.shown[|a.shown| - 1], env)
    decreases Remaining(r), Open(r)
  {
    hide SaidByModel, AwaitsApproval, Resolve, Extend, ExecuteToolCall, IsBlank;
    MoveDescends(r, env);
    var m := NextMove(r, env);
    if m.Ran? || m.Asked? {
      EndIsTheModels(m.run, env);
      SameLastWord(r, m.run, env);
    } else if !m.Pauses? {
      LastWord(r, env);
    }
  }

  /** A move that asks the model puts what it was shown in front, and no move changes the end. */
  lemma SameLastWord(r: Run, next: Run, env: Env)
    requires (NextMove(r, env).Ran? || NextMove(r, env).Asked?) && NextMove(r, env).run == next
    ensures var a, b := Advance(r, env), Advance(next, env);
            a.end == b.end && a.run == b.run && (b.shown != [] ==> a.shown != [] && a.shown[|a.shown| - 1] == b.shown[|b.shown| - 1])
    ensures forall last :: SaidByModel(Advance(r, env), last, env) == SaidByModel(Advance(next, env), last, env)
  {
    hide AwaitsApproval, Resolve, Extend, ExecuteToolCall, IsBlank, IsSpace;
  }

  lemma LastWord(r: Run, env: Env)
    requires !Unanswered(r) && (NextMove(r, env).Finishes? || NextMove(r, env).Fails?)
    ensures SaidByModel(Stretch(r.(toolCalls := []), NextMove(r, env), [r.messages]), r.messages, env)
  {
    hide IsSpace;
  }

  /** Each transcript shown extends `base` and properly extends the one shown before it. */
  ghost predicate Growing(base: seq<Message>, shown: seq<seq<Message>>) {
    && (forall i | 0 <= i < |shown| :: base <= shown[i])
    && (forall i, j | 0 <= i < j < |shown| :: shown[i] < shown[j])
  }

  lemma GrowingFromEarlier(base: seq<Message>, later: seq<Message>, shown: seq<seq<Message>>)
    requires base < later && Growing(later, shown)
    ensures Growing(base, shown) && Growing(base, [base] + shown)
  {
    forall i | 0 <= i < |shown| ensures base < shown[i] {
      assert later <= shown[i];
    }
  }

  /** The model never sees the same transcript twice in a stretch: each one it is shown extends the last. */
  lemma {:induction false} ShownTranscriptsGrow(r: Run, env: Env)
    ensures Growing(r.messages, Advance(r, env).shown)
    decreases Remaining(r), Open(r)
  {
    var m := NextMove(r, env);
    if m.Ran? || m.Asked? {
      ShownTranscriptsGrow(m.run, env);
      GrowingFromEarlier(r.messages, m.run.messages, Advance(m.run, env).shown);
    }
  }
}
