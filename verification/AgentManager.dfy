/** The run objects and the manager that parks them, in the form the program updates them: fields
    changed in place by loops, and one map of parked runs. Every method is tied to the functions the
    interleaving model is made of. */
module AgentManager {
  import opened Prelude
  import opened AgentTranscript
  import opened AgentRun
  import opened AgentApprovals
  import opened AgentPrompt

  class PendingRun {
    ghost const key: nat
    const scope: Scope
    const registry: map<string, Tool>
    const maxSteps: nat
    const approvals: bool
    var messages: seq<Message>
    var toolCalls: seq<ToolCall>
    var nextToolCall: nat
    var step: nat
    var id: RunId
    var toolId: int
    var toolUpdatedAt: int
    var createdAt: int
    var expiresAt: int

    constructor (ghost key: nat, scope: Scope, registry: map<string, Tool>, messages: seq<Message>, maxSteps: int, approvals: bool)
      ensures View() == NewRun(key, scope, registry, messages, maxSteps, approvals)
      ensures this.scope == scope && this.registry == registry && this.messages == messages && this.approvals == approvals
      ensures this.maxSteps == (if maxSteps > 0 then maxSteps else 5) && step == 0 && toolCalls == [] && id == ""
    {
      this.key, this.scope, this.registry, this.approvals := key, scope, registry, approvals;
      this.messages := messages;
      this.maxSteps := if maxSteps <= 0 then DEFAULT_MAX_STEPS else maxSteps;
      toolCalls, nextToolCall, step := [], 0, 0;
      id, toolId, toolUpdatedAt, createdAt, expiresAt := "", 0, 0, 0, 0;
    }

    ghost function View(): Run
      reads this
    {
      Run(key, scope, registry, messages, toolCalls, nextToolCall, step, maxSteps, approvals,
          id, toolId, toolUpdatedAt, createdAt, expiresAt)
    }

    method AppendToolResult(toolCall: ToolCall, result: string)
      modifies this`messages
      ensures messages == old(messages) + [Answer(toolCall, result)]
      ensures messages == old(messages) + [Message(Tool, result, toolCall.name, toolCall.id, [], [])]
    {
      messages := messages + [Message(Tool, result, toolCall.name, toolCall.id, [], [])];
    }

    method ExecuteToolCall(env: Env) returns (result: string)
      requires nextToolCall < |toolCalls|
      ensures result == AgentRun.ExecuteToolCall(View(), env)
      ensures var call := toolCalls[nextToolCall];
              result == if call.name !in registry then "error: unknown tool " + call.name
                        else match env.tool(messages, call)
                             case Output(text) => text
                             case ToolError => "the tool call failed"
    {
      var call := toolCalls[nextToolCall];
      if call.name !in registry {
        return "error: unknown tool " + call.name;
      }
      match env.tool(messages, call)
      case Output(text) => result := text;
      case ToolError => result := "the tool call failed";
    }
  }

  /** A run over the system prompt, with the workspace's instructions if the surface takes them, and the history. */
  method NewAgentRun(ghost key: nat, scope: Scope, registry: map<string, Tool>, systemPrompt: string, instructions: string,
                     appendInstructions: bool, history: seq<Message>, maxSteps: int, approvals: bool) returns (run: PendingRun)
    ensures fresh(run)
    ensures run.View() == NewRun(key, scope, registry,
                                 FirstMessages(systemPrompt, if appendInstructions then instructions else "", history), maxSteps, approvals)
    ensures (forall m | m in history :: IsPlain(m)) ==> RunOk(run.View())
  {
    assert Trimmed("") == "";
    hide Trimmed;
    var prompt := systemPrompt;
    var trimmed := Trimmed(instructions);
    if appendInstructions && trimmed != "" {
      if prompt != "" {
        prompt := prompt + "\n\n";
      }
      prompt := prompt + (INSTRUCTIONS + trimmed);
    }
    var messages: seq<Message> := [];
    if prompt != "" {
      messages := [Message(System, prompt, "", "", [], [])];
    }
    messages := messages + history;
    assert prompt == Prompt(systemPrompt, if appendInstructions then instructions else "");
    run := new PendingRun(key, scope, registry, messages, maxSteps, approvals);
    if forall m | m in history :: IsPlain(m) {
      FirstMessagesPlain(systemPrompt, if appendInstructions then instructions else "", history);
      NewRunOk(key, scope, registry, messages, maxSteps, approvals);
    }
  }

  lemma FirstMessagesOutright(systemPrompt: string, instructions: string, history: seq<Message>)
    ensures var extra := if Trimmed(instructions) != ""
                         then "Workspace admin instructions (follow these, they take precedence on tone and format):\n" + Trimmed(instructions)
                         else "";
            var prompt := systemPrompt + (if systemPrompt != "" && extra != "" then "\n\n" else "") + extra;
            FirstMessages(systemPrompt, instructions, history) ==
            (if prompt != "" then [Message(System, prompt, "", "", [], [])] else []) + history
  {
    hide Trimmed;
    var trimmed := Trimmed(instructions);
    var between := if systemPrompt == "" then "" else "\n\n";
    assert systemPrompt + between + INSTRUCTIONS + trimmed == systemPrompt + between + (INSTRUCTIONS + trimmed);
    assert systemPrompt + "" + "" == systemPrompt;
  }

  datatype Approval = Approval(runId: RunId, toolName: string, arguments: string)

  function ApprovalOf(r: Run): Approval
    requires Unanswered(r)
  {
    Approval(r.id, CurrentCall(r).name, CurrentCall(r).arguments)
  }

  datatype Processed = AllAnswered | ApprovalRequired(approval: Approval) | Conflict

  datatype RunResult = Completed(content: string) | NeedsApproval(approval: Approval) | Failed(error: RunError)

  datatype ClaimError = NotFound | NotOwner

  datatype ClaimResult = Granted(run: PendingRun) | Refused(error: ClaimError)

  datatype ResumeResult = Resumed(result: RunResult) | ResponseFailed(approved: bool) | NotClaimed(error: ClaimError) | ToolChanged

  /** Two stretches that stop in the same state for the same reason. */
  predicate SameEnd(a: Stretch, b: Stretch) {
    a.end == b.end && a.run == b.run
  }

  /** What the caller gets, and what happens to the parked runs, when a stretch ends the way `a` does. */
  ghost predicate Delivers(a: Stretch, before: map<RunId, Run>, after: map<RunId, Run>, view: Run,
                           freshId: RunId, now: int, result: RunResult)
  {
    match a.end
    case Finishes(content) => result == Completed(content) && view == a.run && after == before
    case Fails(error) => result == Failed(error) && view == a.run && after == before
    case _ =>
      && AwaitsApproval(a.run) && view == Stamp(a.run, freshId, now)
      && var live := Unexpired(before, now);
         if ScopeTaken(live, view.scope) then result == Failed(ApprovalPending) && after == live
         else result == NeedsApproval(ApprovalOf(view)) && after == live[freshId := view]
  }

  /** The model ends the run here, with the parked runs untouched. */
  ghost predicate Ends(a: Stretch, view: Run, result: RunResult) {
    && a.run == view
    && match a.end
       case Finishes(content) => result == Completed(content)
       case Fails(error) => result == Failed(error)
       case _ => false
  }

  lemma EndDelivers(a: Stretch, before: map<RunId, Run>, view: Run, freshId: RunId, now: int, result: RunResult)
    requires Ends(a, view, result)
    ensures Delivers(a, before, before, view, freshId, now, result)
  {
    hide AwaitsApproval, ScopeTaken, Unexpired;
  }

  /** The run stops at a guarded call: it is parked, or refused because its scope is taken. */
  ghost predicate Halts(a: Stretch, before: map<RunId, Run>, after: map<RunId, Run>, view: Run, freshId: RunId, now: int, result: Processed) {
    && a.end.Pauses? && AwaitsApproval(a.run) && view == Stamp(a.run, freshId, now)
    && var live := Unexpired(before, now);
       if ScopeTaken(live, view.scope) then result == Conflict && after == live
       else result == ApprovalRequired(ApprovalOf(view)) && after == live[freshId := view]
  }

  /** Message `at` answers the call with its own id and with what its tool put out when it saw the transcript so far. */
  ghost predicate AnsweredBy(r: Run, call: ToolCall, messages: seq<Message>, at: nat, env: Env)
    requires at < |messages|
  {
    && messages[at].role == Tool && messages[at].toolCallId == call.id && messages[at].toolCalls == []
    && messages[at].content == (if call.name !in r.registry then "error: unknown tool " + call.name
                                else match env.tool(messages[..at], call)
                                     case Output(text) => text
                                     case ToolError => "the tool call failed")
  }

  /** The calls of the run from its next one up to `to` are answered one after the other, and none of them was of a tool
      that needs approval. */
  ghost predicate AnsweredUpTo(r: Run, messages: seq<Message>, to: nat, env: Env) {
    && r.nextToolCall <= to <= |r.toolCalls|
    && r.messages <= messages && |messages| == |r.messages| + to - r.nextToolCall
    && forall i | r.nextToolCall <= i < to ::
         var call := r.toolCalls[i];
         && AnsweredBy(r, call, messages, |r.messages| + i - r.nextToolCall, env)
         && !(r.approvals && call.name in r.registry && r.registry[call.name].Custom? && r.registry[call.name].approvalRequired)
  }

  lemma NothingAnswered(r: Run, env: Env)
    ensures r.nextToolCall <= |r.toolCalls| ==> AnsweredUpTo(r, r.messages, r.nextToolCall, env)
  {
  }

  lemma FullyAnswered(first: Run, r: Run, env: Env)
    requires AnsweredUpTo(first, r.messages, r.nextToolCall, env) && first.toolCalls == r.toolCalls && !Unanswered(r)
    ensures AnsweredUpTo(first, r.messages, |first.toolCalls|, env)
  {
  }

  lemma StillAnswered(r: Run, call: ToolCall, messages: seq<Message>, at: nat, env: Env, m: Message)
    requires at < |messages|
    ensures AnsweredBy(r, call, messages + [m], at, env) == AnsweredBy(r, call, messages, at, env)
  {
    assert (messages + [m])[..at] == messages[..at];
  }

  lemma AnsweredNow(first: Run, r: Run, env: Env)
    requires Unanswered(r) && r.registry == first.registry
    ensures AnsweredBy(first, CurrentCall(r), Resolve(r, AgentRun.ExecuteToolCall(r, env)).messages, |r.messages|, env)
  {
    var next := Resolve(r, AgentRun.ExecuteToolCall(r, env));
    assert next.messages[..|r.messages|] == r.messages;
  }

  lemma NeedsNoApproval(r: Run)
    requires Unanswered(r) && !AwaitsApproval(r)
    ensures var name := r.toolCalls[r.nextToolCall].name;
            !(r.approvals && name in r.registry && r.registry[name].Custom? && r.registry[name].approvalRequired)
  {
  }

  lemma OneMoreAnswered(first: Run, r: Run, env: Env)
    requires AnsweredUpTo(first, r.messages, r.nextToolCall, env) && r.toolCalls == first.toolCalls && SameRun(r, first)
    requires Unanswered(r) && !AwaitsApproval(r)
    ensures var next := Resolve(r, AgentRun.ExecuteToolCall(r, env));
            AnsweredUpTo(first, next.messages, next.nextToolCall, env)
  {
    hide AnsweredBy, AgentRun.ExecuteToolCall, AwaitsApproval;
    NeedsNoApproval(r);
    AnsweredNow(first, r, env);
    EarlierAnswered(first, r, env, Resolve(r, AgentRun.ExecuteToolCall(r, env)).messages[|r.messages|]);
  }

  lemma EarlierAnswered(first: Run, r: Run, env: Env, m: Message)
    requires AnsweredUpTo(first, r.messages, r.nextToolCall, env)
    ensures forall i | first.nextToolCall <= i < r.nextToolCall ::
              AnsweredBy(first, first.toolCalls[i], r.messages + [m], |first.messages| + i - first.nextToolCall, env)
  {
    hide AnsweredBy;
    forall i | first.nextToolCall <= i < r.nextToolCall
      ensures AnsweredBy(first, first.toolCalls[i], r.messages + [m], |first.messages| + i - first.nextToolCall, env)
    {
      StillAnswered(first, first.toolCalls[i], r.messages, |first.messages| + i - first.nextToolCall, env, m);
    }
  }

  function ResultOf(processed: Processed): RunResult
    requires !processed.AllAnswered?
  {
    if processed.Conflict? then Failed(ApprovalPending) else NeedsApproval(processed.approval)
  }

  lemma HaltDelivers(a: Stretch, b: Stretch, before: map<RunId, Run>, after: map<RunId, Run>, view: Run,
                     freshId: RunId, now: int, processed: Processed)
    requires Halts(a, before, after, view, freshId, now, processed) && SameEnd(a, b)
    ensures !processed.AllAnswered? && Delivers(b, before, after, view, freshId, now, ResultOf(processed))
  {
    hide ScopeTaken, Unexpired;
  }

  /** What a decision on the claimed run `r` does: a changed tool ends the run, otherwise the call gets its
      output or the refusal, and the run carries on from there. */
  ghost predicate Decides(r: Run, approved: bool, tools: map<int, ToolRecord>, env: Env,
                          before: map<RunId, Run>, after: map<RunId, Run>, view: Run,
                          freshId: RunId, now: int, result: ResumeResult)
  {
    && Unanswered(r)
    && if approved && !(r.toolId in tools && Matches(r, tools[r.toolId]))
       then result == ToolChanged && after == before
       else exists inner ::
              && Delivers(Advance(Resolve(r, if approved then ExecuteToolCall(r, env) else DECLINED), env),
                          before, after, view, freshId, now, inner)
              && result == if inner.Failed? then ResponseFailed(approved) else Resumed(inner)
  }

  /** What the manager keeps of its parked runs: one per scope, each under its own id, each waiting at a guarded call
      with everything before it answered. */
  ghost predicate WellParked(pending: map<RunId, Run>) {
    OnePerScope(pending) && forall id | id in pending :: AwaitsApproval(pending[id]) && RunOk(pending[id])
  }

  lemma FewerParked(sub: map<RunId, Run>, pending: map<RunId, Run>)
    requires WellParked(pending) && forall id | id in sub :: id in pending && sub[id] == pending[id]
    ensures WellParked(sub)
  {
    hide AwaitsApproval, RunOk, SameScope;
  }

  lemma UnexpiredWell(pending: map<RunId, Run>, now: int)
    ensures WellParked(pending) ==> WellParked(Unexpired(pending, now))
  {
    hide WellParked;
    if WellParked(pending) {
      FewerParked(Unexpired(pending, now), pending);
    }
  }

  lemma OneFewerWell(pending: map<RunId, Run>, id: RunId)
    ensures WellParked(pending) ==> WellParked(pending - {id})
  {
    hide WellParked;
    if WellParked(pending) {
      FewerParked(pending - {id}, pending);
    }
  }

  lemma OtherScopesWell(pending: map<RunId, Run>, scope: Scope)
    ensures WellParked(pending) ==> WellParked(WithoutScope(pending, scope))
  {
    hide WellParked, SameScope;
    if WellParked(pending) {
      FewerParked(WithoutScope(pending, scope), pending);
    }
  }

  lemma OneMoreParked(live: map<RunId, Run>, r: Run)
    requires WellParked(live) && !ScopeTaken(live, r.scope) && AwaitsApproval(r) && RunOk(r)
    ensures WellParked(live[r.id := r])
  {
    hide AwaitsApproval, RunOk;
  }

  /** A run that ends or parks leaves the parked runs well parked. */
  lemma DeliversKeeps(r: Run, env: Env, before: map<RunId, Run>, after: map<RunId, Run>, view: Run,
                      freshId: RunId, now: int, result: RunResult)
    requires RunOk(r) && WellParked(before) && Delivers(Advance(r, env), before, after, view, freshId, now, result)
    ensures WellParked(after)
  {
    AdvanceKeeps(r, env);
    hide Advance, RunOk, WellParked;
    FewerParked(Unexpired(before, now), before);
    if after != before && !ScopeTaken(Unexpired(before, now), view.scope) {
      StampKeeps(Advance(r, env).run, freshId, now);
      OneMoreParked(Unexpired(before, now), view);
    }
  }

  lemma StampKeeps(r: Run, freshId: RunId, now: int)
    requires RunOk(r) && AwaitsApproval(r)
    ensures RunOk(Stamp(r, freshId, now)) && AwaitsApproval(Stamp(r, freshId, now))
  {
    hide OpenAt, Complete;
  }

  /** A scope is the agent, the conversation under both its names, and the surface. */
  lemma ScopeIsFour(scope: Scope)
    ensures forall its: Scope ::
              SameScope(its, scope) <==>
              its.agentId == scope.agentId && its.conversationId == scope.conversationId
              && its.conversationUuid == scope.conversationUuid && its.surface == scope.surface
  {
  }

  /** No run that has not expired is parked for the same agent, conversation and surface. */
  ghost predicate ScopeFree(pending: map<RunId, Run>, now: int, scope: Scope) {
    forall id | id in pending && pending[id].expiresAt > now ::
      var its := pending[id].scope;
      !(its.agentId == scope.agentId && its.conversationId == scope.conversationId
        && its.conversationUuid == scope.conversationUuid && its.surface == scope.surface)
  }

  lemma FreeIsNotTaken(pending: map<RunId, Run>, now: int, scope: Scope)
    ensures ScopeFree(pending, now, scope) <==> !ScopeTaken(Unexpired(pending, now), scope)
  {
    var live := Unexpired(pending, now);
    if ScopeTaken(live, scope) {
      var id :| id in live && SameScope(live[id].scope, scope);
      assert id in pending && live[id] == pending[id];
    } else {
      forall id | id in pending && pending[id].expiresAt > now ensures !SameScope(pending[id].scope, scope) {
        assert id in live && live[id] == pending[id];
      }
    }
  }

  class Manager {
    var pendingRuns: map<RunId, PendingRun>

    ghost function Pending(): map<RunId, Run>
      reads this, pendingRuns.Values
    {
      map id | id in pendingRuns :: pendingRuns[id].View()
    }

    ghost predicate Valid()
      reads this, pendingRuns.Values
    {
      WellParked(Pending())
    }

    constructor ()
      ensures Valid() && pendingRuns == map[]
    {
      pendingRuns := map[];
    }

    /** The scan over the map that drops what has expired. */
    method DropExpired(now: int)
      modifies this
      ensures pendingRuns == map id | id in old(pendingRuns) && old(pendingRuns)[id].expiresAt > now :: old(pendingRuns)[id]
    {
      hide WellParked;
      var ids := pendingRuns.Keys;
      while ids != {}
        invariant ids <= pendingRuns.Keys <= old(pendingRuns).Keys
        invariant forall id | id in pendingRuns :: pendingRuns[id] == old(pendingRuns)[id]
        invariant forall id | id in old(pendingRuns) && id !in ids ::
                    id in pendingRuns <==> old(pendingRuns)[id].expiresAt > now
        decreases ids
      {
        var id :| id in ids;
        ids := ids - {id};
        if pendingRuns[id].expiresAt <= now {
          pendingRuns := pendingRuns - {id};
        }
      }
    }

    method DeleteExpiredAgentRunsLocked(now: int)
      modifies this
      ensures pendingRuns == map id | id in old(pendingRuns) && old(pendingRuns)[id].expiresAt > now :: old(pendingRuns)[id]
      ensures Pending() == Unexpired(old(Pending()), now)
      ensures old(Valid()) ==> Valid()
    {
      hide WellParked;
      UnexpiredWell(Pending(), now);
      DropExpired(now);
    }

    /** The scan over the map that drops the runs of a scope. */
    method DropScope(scope: Scope)
      modifies this
      ensures pendingRuns == map id | id in old(pendingRuns) && !SameScope(old(pendingRuns)[id].scope, scope) :: old(pendingRuns)[id]
    {
      hide SameScope;
      var ids := pendingRuns.Keys;
      while ids != {}
        invariant ids <= pendingRuns.Keys <= old(pendingRuns).Keys
        invariant forall id | id in pendingRuns :: pendingRuns[id] == old(pendingRuns)[id]
        invariant forall id | id in old(pendingRuns) && id !in ids ::
                    id in pendingRuns <==> !SameScope(old(pendingRuns)[id].scope, scope)
        decreases ids
      {
        var id :| id in ids;
        ids := ids - {id};
        if SameScope(pendingRuns[id].scope, scope) {
          pendingRuns := pendingRuns - {id};
        }
      }
    }

    method ClearPendingAgentRuns(scope: Scope)
      modifies this
      ensures Pending() == WithoutScope(old(Pending()), scope)
      ensures forall id | id in old(pendingRuns) ::
                var its := old(pendingRuns)[id].scope;
                if its.agentId == scope.agentId && its.conversationId == scope.conversationId
                   && its.conversationUuid == scope.conversationUuid && its.surface == scope.surface
                then id !in pendingRuns else id in pendingRuns && pendingRuns[id] == old(pendingRuns)[id]
      ensures forall id | id in pendingRuns :: id in old(pendingRuns)
      ensures old(Valid()) ==> Valid()
    {
      hide WellParked;
      OtherScopesWell(Pending(), scope);
      DropScope(scope);
      assert Pending() == WithoutScope(old(Pending()), scope);
    }

    /** The scan for a run of the scope. */
    method HoldsScope(scope: Scope) returns (taken: bool)
      ensures taken == ScopeTaken(Pending(), scope)
    {
      hide SameScope;
      assert forall id | id in pendingRuns :: Pending()[id].scope == pendingRuns[id].scope;
      var ids := pendingRuns.Keys;
      while ids != {}
        invariant ids <= pendingRuns.Keys
        invariant forall id | id in pendingRuns && id !in ids :: !SameScope(pendingRuns[id].scope, scope)
        decreases ids
      {
        var id :| id in ids;
        ids := ids - {id};
        if SameScope(pendingRuns[id].scope, scope) {
          return true;
        }
      }
      return false;
    }

    /** The scan for the scope and the insertion. */
    method AdmitRun(run: PendingRun) returns (stored: bool)
      modifies this
      ensures stored == !ScopeTaken(old(Pending()), run.scope)
      ensures Pending() == if stored then old(Pending())[run.id := run.View()] else old(Pending())
    {
      hide ScopeTaken;
      var taken := HoldsScope(run.scope);
      if taken {
        return false;
      }
      pendingRuns := pendingRuns[run.id := run];
      return true;
    }

    /** Admits a run unless a live run of its scope is already parked. */
    method StoreAgentRun(run: PendingRun, now: int) returns (stored: bool)
      modifies this
      ensures stored == !ScopeTaken(Unexpired(old(Pending()), now), run.scope)
      ensures stored ==> Pending() == Unexpired(old(Pending()), now)[run.id := run.View()]
      ensures !stored ==> Pending() == Unexpired(old(Pending()), now)
      ensures stored <==> ScopeFree(old(Pending()), now, run.scope)
      ensures old(Valid()) && AwaitsApproval(run.View()) && RunOk(run.View()) ==> Valid()
    {
      hide WellParked, AwaitsApproval, RunOk, ScopeTaken, Unexpired, ScopeFree;
      FreeIsNotTaken(Pending(), now, run.scope);
      DeleteExpiredAgentRunsLocked(now);
      ghost var live := Pending();
      stored := AdmitRun(run);
      if stored && old(Valid()) && AwaitsApproval(run.View()) && RunOk(run.View()) {
        OneMoreParked(live, run.View());
      }
    }

    method ClaimAgentRun(runId: RunId, agentId: int, now: int) returns (result: ClaimResult)
      modifies this
      ensures forall id | id in pendingRuns :: id in old(pendingRuns) && pendingRuns[id] == old(pendingRuns)[id]
      ensures result.Granted? ==> runId !in pendingRuns
      ensures old(Valid()) ==> Valid()
      ensures var live := Unexpired(old(Pending()), now);
              match result
              case Granted(run) =>
                && runId in live && live[runId].scope.agentId == agentId
                && run == old(pendingRuns)[runId] && Pending() == live - {runId}
              case Refused(NotFound) => runId !in live && Pending() == live
              case Refused(NotOwner) => runId in live && live[runId].scope.agentId != agentId && Pending() == live
    {
      hide WellParked;
      DeleteExpiredAgentRunsLocked(now);
      if runId !in pendingRuns {
        return Refused(NotFound);
      }
      var run := pendingRuns[runId];
      if run.scope.agentId != agentId {
        return Refused(NotOwner);
      }
      OneFewerWell(Pending(), runId);
      ghost var live := Pending();
      pendingRuns := pendingRuns - {runId};
      assert Pending() == live - {runId};
      return Granted(run);
    }

    /** The scan for the newest run of the scope. */
    method NewestRun(scope: Scope) returns (newest: PendingRun?)
      ensures newest == null <==> forall id | id in pendingRuns :: !SameScope(pendingRuns[id].scope, scope)
      ensures newest != null ==>
                && (exists id :: id in pendingRuns && pendingRuns[id] == newest)
                && SameScope(newest.scope, scope)
                && forall id | id in pendingRuns && SameScope(pendingRuns[id].scope, scope) ::
                     pendingRuns[id].createdAt <= newest.createdAt
    {
      hide SameScope;
      newest := null;
      var ids := pendingRuns.Keys;
      while ids != {}
        invariant ids <= pendingRuns.Keys
        invariant newest == null ==> forall id | id in pendingRuns && id !in ids :: !SameScope(pendingRuns[id].scope, scope)
        invariant newest != null ==>
                    && (exists id :: id in pendingRuns && pendingRuns[id] == newest)
                    && SameScope(newest.scope, scope)
                    && forall id | id in pendingRuns && id !in ids && SameScope(pendingRuns[id].scope, scope) ::
                         pendingRuns[id].createdAt <= newest.createdAt
        decreases ids
      {
        var id :| id in ids;
        ids := ids - {id};
        var run := pendingRuns[id];
        if !SameScope(run.scope, scope) || (newest != null && run.createdAt <= newest.createdAt) {
          continue;
        }
        newest := run;
      }
    }

    /** The newest live run of the scope, whatever order the map is scanned in. */
    method PendingAgentApproval(scope: Scope, now: int) returns (newest: PendingRun?)
      modifies this
      ensures Pending() == Unexpired(old(Pending()), now)
      ensures old(Valid()) ==> Valid()
      ensures newest == null <==> !ScopeTaken(Pending(), scope)
      ensures newest != null ==>
                && (exists id :: id in pendingRuns && pendingRuns[id] == newest)
                && SameScope(newest.scope, scope)
                && newest.scope.agentId == scope.agentId && newest.scope.conversationId == scope.conversationId
                && newest.scope.conversationUuid == scope.conversationUuid && newest.scope.surface == scope.surface
                && forall id | id in pendingRuns && SameScope(pendingRuns[id].scope, scope) ::
                     pendingRuns[id].createdAt <= newest.createdAt
    {
      ScopeIsFour(scope);
      hide WellParked, SameScope, Unexpired;
      DeleteExpiredAgentRunsLocked(now);
      newest := NewestRun(scope);
      assert forall id | id in pendingRuns :: Pending()[id].scope == pendingRuns[id].scope;
    }

    method ValidateApprovedTool(run: PendingRun, tools: map<int, ToolRecord>) returns (ok: bool)
      requires run.nextToolCall < |run.toolCalls|
      ensures ok == (run.toolId in tools && Matches(run.View(), tools[run.toolId]))
      ensures ok <==>
                && run.toolId in tools && tools[run.toolId].enabled
                && tools[run.toolId].name == run.toolCalls[run.nextToolCall].name
                && tools[run.toolId].updatedAt == run.toolUpdatedAt
                && (run.scope.surface == "copilot" ==> tools[run.toolId].copilotEnabled)
                && (run.scope.surface == "generate_reply" ==> tools[run.toolId].generateReplyEnabled)
    {
      if run.toolId !in tools {
        return false;
      }
      var tool := tools[run.toolId];
      if !tool.enabled || tool.name != run.toolCalls[run.nextToolCall].name || tool.updatedAt != run.toolUpdatedAt {
        return false;
      }
      if run.scope.surface == SURFACE_COPILOT && !tool.copilotEnabled {
        return false;
      }
      if run.scope.surface == SURFACE_REPLY && !tool.generateReplyEnabled {
        return false;
      }
      return true;
    }

    /** Stamps the run with a fresh id, its tool and its lifetime, and stores it. */
    method ParkRun(run: PendingRun, tool: AgentRun.Tool, freshId: RunId, now: int) returns (stored: bool)
      requires run !in pendingRuns.Values
      requires Guarded(run.View()) && tool == run.registry[run.toolCalls[run.nextToolCall].name]
      modifies this, run
      ensures run.View() == Stamp(old(run.View()), freshId, now)
      ensures run.id == freshId && run.createdAt == now && run.expiresAt == now + 600_000_000_000
      ensures tool.Custom? && run.toolId == tool.toolId && run.toolUpdatedAt == tool.updatedAt
      ensures stored == !ScopeTaken(Unexpired(old(Pending()), now), run.scope)
      ensures Pending() == if stored then Unexpired(old(Pending()), now)[freshId := run.View()] else Unexpired(old(Pending()), now)
      ensures old(Valid()) && old(AwaitsApproval(run.View()) && RunOk(run.View())) ==> Valid()
    {
      hide WellParked, ScopeTaken, Unexpired, ScopeFree;
      if AwaitsApproval(run.View()) && RunOk(run.View()) {
        StampKeeps(run.View(), freshId, now);
      }
      hide AwaitsApproval, RunOk;
      run.id := freshId;
      run.toolId := tool.toolId;
      run.toolUpdatedAt := tool.updatedAt;
      run.createdAt := now;
      run.expiresAt := now + PENDING_RUN_TTL;
      assert Pending() == old(Pending());
      stored := StoreAgentRun(run, now);
    }

    /** The current call gets its output and the run moves on to the next one. */
    method AnswerCall(run: PendingRun, env: Env)
      requires run !in pendingRuns.Values && run.nextToolCall < |run.toolCalls|
      modifies run
      ensures run.View() == Resolve(old(run.View()), AgentRun.ExecuteToolCall(old(run.View()), env))
      ensures Pending() == old(Pending())
    {
      var output := run.ExecuteToolCall(env);
      run.AppendToolResult(run.toolCalls[run.nextToolCall], output);
      run.nextToolCall := run.nextToolCall + 1;
    }

    /** Parks the run at its guarded call, or gives up because its scope is taken. */
    method AskAgent(run: PendingRun, tool: AgentRun.Tool, freshId: RunId, now: int) returns (result: Processed)
      requires run !in pendingRuns.Values
      requires Guarded(run.View()) && tool == run.registry[run.toolCalls[run.nextToolCall].name]
      modifies this, run
      ensures run.View() == Stamp(old(run.View()), freshId, now)
      ensures var live := Unexpired(old(Pending()), now);
              if ScopeTaken(live, run.View().scope) then result == Conflict && Pending() == live
              else result == ApprovalRequired(ApprovalOf(run.View())) && Pending() == live[freshId := run.View()]
    {
      hide Unexpired, ScopeTaken;
      var stored := ParkRun(run, tool, freshId, now);
      if !stored {
        return Conflict;
      }
      var toolCall := run.toolCalls[run.nextToolCall];
      return ApprovalRequired(Approval(run.id, toolCall.name, toolCall.arguments));
    }

    /** The loop over the open batch, up to its end or to the first call of a tool that needs approval. */
    method AnswerOpenCalls(run: PendingRun, env: Env) returns (asks: bool)
      requires run !in pendingRuns.Values
      modifies run
      ensures Pending() == old(Pending()) && run.toolCalls == old(run.toolCalls)
      ensures SameRun(run.View(), old(run.View())) && run.step == old(run.step)
      ensures Advance(run.View(), env) == Advance(old(run.View()), env)
      ensures old(run.nextToolCall) <= |run.toolCalls| ==> AnsweredUpTo(old(run.View()), run.messages, run.nextToolCall, env)
      ensures run.nextToolCall < |run.toolCalls| <==> asks
      ensures run.nextToolCall >= old(run.nextToolCall)
      ensures asks ==>
                && run.nextToolCall < |run.toolCalls|
                && var name := run.toolCalls[run.nextToolCall].name;
                   run.approvals && name in run.registry && run.registry[name].Custom? && run.registry[name].approvalRequired
    {
      hide Advance, NextMove, AnsweredUpTo;
      NothingAnswered(run.View(), env);
      while run.nextToolCall < |run.toolCalls|
        invariant Advance(run.View(), env) == Advance(old(run.View()), env)
        invariant SameRun(run.View(), old(run.View())) && run.step == old(run.step)
        invariant Pending() == old(Pending()) && run.toolCalls == old(run.toolCalls)
        invariant run.nextToolCall >= old(run.nextToolCall)
        invariant old(run.nextToolCall) <= |run.toolCalls| ==> AnsweredUpTo(old(run.View()), run.messages, run.nextToolCall, env)
        decreases |run.toolCalls| - run.nextToolCall
      {
        var toolCall := run.toolCalls[run.nextToolCall];
        if run.approvals && toolCall.name in run.registry {
          var tool := run.registry[toolCall.name];
          if tool.Custom? && tool.approvalRequired {
            return true;
          }
        }
        StretchRuns(run.View(), env);
        if old(run.nextToolCall) <= |run.toolCalls| {
          OneMoreAnswered(old(run.View()), run.View(), env);
        }
        AnswerCall(run, env);
      }
      return false;
    }

    lemma StampLeaves(r: Run, freshId: RunId, now: int)
      requires Guarded(r)
      ensures var p := Stamp(r, freshId, now);
              p.messages == r.messages && p.toolCalls == r.toolCalls && p.nextToolCall == r.nextToolCall
    {
    }

    /** Answers the open batch up to the first call that needs approval. */
    method ProcessAgentToolCalls(run: PendingRun, env: Env, freshId: RunId, now: int) returns (result: Processed)
      requires run !in pendingRuns.Values
      modifies this, run
      ensures result.AllAnswered? ==>
                && run.toolCalls == [] && Advance(run.View(), env) == Advance(old(run.View()), env)
                && SameRun(run.View(), old(run.View())) && run.step == old(run.step)
                && pendingRuns == old(pendingRuns) && Pending() == old(Pending())
      ensures !result.AllAnswered? ==>
                && Advance(old(run.View()), env).shown == []
                && Halts(Advance(old(run.View()), env), old(Pending()), Pending(), run.View(), freshId, now, result)
      // the batch is answered in order, all of it or up to the first call of a tool that needs approval
      ensures result.AllAnswered? && old(run.nextToolCall) <= |old(run.toolCalls)| ==>
                AnsweredUpTo(old(run.View()), run.messages, |old(run.toolCalls)|, env)
      ensures !result.AllAnswered? ==>
                && run.toolCalls == old(run.toolCalls) && run.nextToolCall < |run.toolCalls|
                && AnsweredUpTo(old(run.View()), run.messages, run.nextToolCall, env)
                && var name := run.toolCalls[run.nextToolCall].name;
                   run.approvals && name in run.registry && run.registry[name].Custom? && run.registry[name].approvalRequired
    {
      hide Advance, Unexpired, ScopeTaken, Stamp, ApprovalOf, AnsweredUpTo;
      var asks := AnswerOpenCalls(run, env);
      if asks {
        var tool := run.registry[run.toolCalls[run.nextToolCall].name];
        StretchPauses(run.View(), env);
        StampLeaves(run.View(), freshId, now);
        result := AskAgent(run, tool, freshId, now);
      } else {
        if old(run.nextToolCall) <= |run.toolCalls| {
          FullyAnswered(old(run.View()), run.View(), env);
        }
        StretchSettles(run.View(), env);
        run.toolCalls := [];
        result := AllAnswered;
      }
    }

    /** The model call of a turn: it ends the run, or opens a batch and spends a step. */
    method AskModel(run: PendingRun, env: Env) returns (stop: Option<RunResult>)
      requires run !in pendingRuns.Values
      requires run.step < run.maxSteps && run.toolCalls == []
      modifies run
      ensures Pending() == old(Pending())
      ensures stop.Some? ==> Ends(Advance(old(run.View()), env), run.View(), stop.value)
      ensures stop.None? ==> run.step == old(run.step) + 1 && SameEnd(Advance(run.View(), env), Advance(old(run.View()), env))
      ensures var reply := env.model(old(run.messages), true);
              if reply.ProviderError? then stop == Some(Failed(ModelFailed))
              else if reply.toolCalls == [] then stop == Some(Completed(reply.content))
              else
                && stop.None? && run.toolCalls == reply.toolCalls && run.nextToolCall == 0
                && run.messages == old(run.messages) + [Message(Assistant, reply.content, "", "", reply.toolCalls, [])]
    {
      hide Advance;
      StretchAsks(run.View(), env);
      var reply := env.model(run.messages, true);
      if reply.ProviderError? {
        return Some(Failed(ModelFailed));
      }
      if |reply.toolCalls| == 0 {
        return Some(Completed(reply.content));
      }
      run.messages := run.messages + [Message(Assistant, reply.content, "", "", reply.toolCalls, [])];
      run.toolCalls := reply.toolCalls;
      run.nextToolCall := 0;
      run.step := run.step + 1;
      return None;
    }

    /** One turn of the loop: a model call and, if it asks for tools, the processing of its batch. */
    method TakeStep(run: PendingRun, env: Env, freshId: RunId, now: int) returns (stop: Option<RunResult>)
      requires run !in pendingRuns.Values
      requires run.step < run.maxSteps && run.toolCalls == []
      modifies this, run
      ensures stop.Some? ==> Delivers(Advance(old(run.View()), env), old(Pending()), Pending(), run.View(), freshId, now, stop.value)
      ensures stop.None? ==>
                && run.toolCalls == [] && pendingRuns == old(pendingRuns) && Pending() == old(Pending())
                && run.step == old(run.step) + 1
                && SameEnd(Advance(run.View(), env), Advance(old(run.View()), env))
    {
      hide Advance, Delivers, Halts, Ends, SameRun;
      ghost var a, before := Advance(run.View(), env), Pending();
      stop := AskModel(run, env);
      if stop.Some? {
        EndDelivers(a, before, run.View(), freshId, now, stop.value);
        return;
      }
      ghost var b := Advance(run.View(), env);
      var processed := ProcessAgentToolCalls(run, env, freshId, now);
      if !processed.AllAnswered? {
        HaltDelivers(b, a, before, Pending(), run.View(), freshId, now, processed);
        stop := Some(ResultOf(processed));
      }
    }

    /** The last call, when the steps are used up: without tools, and with an answer or none. */
    method ForceAnswer(run: PendingRun, env: Env) returns (result: RunResult)
      requires run.step >= run.maxSteps && run.toolCalls == []
      ensures Ends(Advance(run.View(), env), run.View(), result)
      ensures var reply := env.model(run.messages, false);
              result == if reply.ProviderError? then Failed(ModelFailed)
                        else if forall i | 0 <= i < |reply.content| :: IsSpace(reply.content[i]) then Failed(NoAnswerWithinSteps)
                        else Completed(reply.content)
    {
      hide Advance;
      StretchForces(run.View(), env);
      var reply := env.model(run.messages, false);
      if reply.ProviderError? {
        return Failed(ModelFailed);
      }
      if IsBlank(reply.content) {
        return Failed(NoAnswerWithinSteps);
      }
      return Completed(reply.content);
    }

    /** The loop, once the open batch is answered. */
    method TakeSteps(run: PendingRun, env: Env, freshId: RunId, now: int) returns (result: RunResult)
      requires run !in pendingRuns.Values && run.toolCalls == []
      modifies this, run
      ensures Delivers(Advance(old(run.View()), env), old(Pending()), Pending(), run.View(), freshId, now, result)
    {
      hide Advance, Ends, AwaitsApproval, Stamp, Unexpired, ScopeTaken;
      ghost var a := Advance(run.View(), env);
      while run.step < run.maxSteps
        invariant run.toolCalls == [] && pendingRuns == old(pendingRuns) && Pending() == old(Pending())
        invariant SameEnd(Advance(run.View(), env), a)
        decreases run.maxSteps - run.step
      {
        var stop := TakeStep(run, env, freshId, now);
        if stop.Some? {
          return stop.value;
        }
      }
      result := ForceAnswer(run, env);
      EndDelivers(Advance(run.View(), env), Pending(), run.View(), freshId, now, result);
    }

    /** Runs the loop until it finishes, fails or parks: exactly the stretch the run's state and environment determine. */
    method ContinueAgentRun(run: PendingRun, env: Env, freshId: RunId, now: int) returns (result: RunResult)
      requires run !in pendingRuns.Values
      modifies this, run
      ensures Delivers(Advance(old(run.View()), env), old(Pending()), Pending(), run.View(), freshId, now, result)
      ensures old(Valid()) && old(RunOk(run.View())) ==> Valid()
    {
      hide Advance, Delivers, Halts, RunOk, WellParked, SameRun;
      ghost var a, before := Advance(run.View(), env), Pending();
      var processed := ProcessAgentToolCalls(run, env, freshId, now);
      if processed.AllAnswered? {
        result := TakeSteps(run, env, freshId, now);
      } else {
        HaltDelivers(a, a, before, Pending(), run.View(), freshId, now, processed);
        result := ResultOf(processed);
      }
      if old(Valid()) && old(RunOk(run.View())) {
        DeliversKeeps(old(run.View()), env, before, Pending(), run.View(), freshId, now, result);
      }
    }

    /** Gives the current call this result and carries on. */
    method AnswerAndContinue(run: PendingRun, output: string, env: Env, freshId: RunId, now: int) returns (result: RunResult)
      requires run !in pendingRuns.Values && run.nextToolCall < |run.toolCalls|
      modifies this, run
      ensures Delivers(Advance(Resolve(old(run.View()), output), env), old(Pending()), Pending(), run.View(), freshId, now, result)
      ensures old(Valid()) && old(RunOk(run.View())) ==> Valid()
    {
      hide Advance, Delivers, WellParked, OpenAt, Complete;
      if RunOk(run.View()) {
        ResolveKeeps(run.View(), output);
      }
      run.AppendToolResult(run.toolCalls[run.nextToolCall], output);
      run.nextToolCall := run.nextToolCall + 1;
      assert run.View() == Resolve(old(run.View()), output);
      assert Pending() == old(Pending());
      result := ContinueAgentRun(run, env, freshId, now);
    }

    /** Applies a decision to a claimed run and carries on. */
    method ApplyDecision(run: PendingRun, approved: bool, tools: map<int, ToolRecord>, env: Env, freshId: RunId, now: int)
      returns (result: ResumeResult)
      requires run !in pendingRuns.Values && run.nextToolCall < |run.toolCalls|
      modifies this, run
      ensures Decides(old(run.View()), approved, tools, env, old(Pending()), Pending(), run.View(), freshId, now, result)
      ensures old(Valid()) && old(RunOk(run.View())) ==> Valid()
    {
      hide Advance, Resolve, Delivers, Matches, WellParked, OpenAt, Complete;
      var output := DECLINED;
      if approved {
        var ok := ValidateApprovedTool(run, tools);
        if !ok {
          return ToolChanged;
        }
        output := run.ExecuteToolCall(env);
      }
      var inner := AnswerAndContinue(run, output, env, freshId, now);
      result := if inner.Failed? then ResponseFailed(approved) else Resumed(inner);
    }

    /** Claims a parked run, applies the agent's decision and carries on; `later` is when it may park again. A decision is
        never taken back: a failure of the rest of the run is reported in the result instead. */
    method ResumeAgentRun(runId: RunId, agentId: int, approved: bool, tools: map<int, ToolRecord>,
                          env: Env, freshId: RunId, now: int, later: int) returns (result: ResumeResult)
      requires Valid()
      modifies this, pendingRuns.Values
      ensures Valid()
      ensures var live := Unexpired(old(Pending()), now);
              if runId !in live then result == NotClaimed(NotFound) && Pending() == live
              else if live[runId].scope.agentId != agentId then result == NotClaimed(NotOwner) && Pending() == live
              else Decides(live[runId], approved, tools, env, live - {runId}, Pending(),
                           old(pendingRuns)[runId].View(), freshId, later, result)
    {
      hide Decides, WellParked;
      ClaimableRun(this, runId);
      var claimed := ClaimAgentRun(runId, agentId, now);
      if claimed.Refused? {
        return NotClaimed(claimed.error);
      }
      NotParked(this, claimed.run);
      result := ApplyDecision(claimed.run, approved, tools, env, freshId, later);
    }

    /** Builds a run and takes it to its first stop. */
    method RunAgentWithApprovals(ghost key: nat, scope: Scope, registry: map<string, Tool>, systemPrompt: string, instructions: string,
                                 history: seq<Message>, maxSteps: int, env: Env, freshId: RunId, now: int) returns (result: RunResult)
      requires Valid()
      modifies this
      ensures (forall m | m in history :: IsPlain(m)) ==> Valid()
      ensures exists view ::
                var r := NewRun(key, scope, registry, FirstMessages(systemPrompt, instructions, history), maxSteps, true);
                Delivers(Advance(r, env), old(Pending()), Pending(), view, freshId, now, result)
    {
      hide Delivers, Advance, WellParked;
      var run := NewAgentRun(key, scope, registry, systemPrompt, instructions, true, history, maxSteps, true);
      if forall m | m in history :: IsPlain(m) {
        FirstMessagesPlain(systemPrompt, instructions, history);
        NewRunOk(key, scope, registry, FirstMessages(systemPrompt, instructions, history), maxSteps, true);
      }
      assert Pending() == old(Pending());
      result := ContinueAgentRun(run, env, freshId, now);
    }
  }

  lemma ClaimableRun(m: Manager, runId: RunId)
    requires m.Valid()
    ensures runId in m.pendingRuns ==>
              m.pendingRuns[runId].id == runId && Unanswered(m.pendingRuns[runId].View()) && RunOk(m.pendingRuns[runId].View())
  {
    hide RunOk;
    assert runId in m.pendingRuns ==> m.Pending()[runId] == m.pendingRuns[runId].View();
  }

  /** A run whose id is not in use is not parked under another one. */
  lemma NotParked(m: Manager, run: PendingRun)
    requires m.Valid() && run.id !in m.pendingRuns
    ensures run !in m.pendingRuns.Values
  {
    hide RunOk, AwaitsApproval;
    forall id | id in m.pendingRuns ensures m.pendingRuns[id] != run {
      assert m.Pending()[id].id == id;
    }
  }

  /** What a stretch leaves of the transcript it started from: all of it, at its front. */
  lemma {:induction false} StretchExtends(r: Run, env: Env)
    ensures r.messages <= Advance(r, env).run.messages
    decreases Remaining(r), Open(r)
  {
    MoveDescends(r, env);
    var m := NextMove(r, env);
    if m.Ran? || m.Asked? {
      StretchExtends(m.run, env);
    }
  }

  lemma DeliveredExtends(r: Run, env: Env, before: map<RunId, Run>, after: map<RunId, Run>, view: Run, freshId: RunId, now: int, result: RunResult)
    requires Delivers(Advance(r, env), before, after, view, freshId, now, result)
    ensures r.messages <= view.messages
  {
    hide Advance, ScopeTaken, Unexpired;
    StretchExtends(r, env);
  }

  /** What a decision means: an approval whose tool record has changed ends the run; otherwise the call gets the output of
      its tool or the refusal, under its own id. */
  lemma DecisionMeans(r: Run, approved: bool, tools: map<int, ToolRecord>, env: Env, before: map<RunId, Run>, after: map<RunId, Run>,
                      view: Run, freshId: RunId, now: int, result: ResumeResult)
    requires Decides(r, approved, tools, env, before, after, view, freshId, now, result)
    ensures result.ToolChanged? <==>
              approved && !(&& r.toolId in tools && tools[r.toolId].enabled
                            && tools[r.toolId].name == r.toolCalls[r.nextToolCall].name
                            && tools[r.toolId].updatedAt == r.toolUpdatedAt
                            && (r.scope.surface == "copilot" ==> tools[r.toolId].copilotEnabled)
                            && (r.scope.surface == "generate_reply" ==> tools[r.toolId].generateReplyEnabled))
    ensures result.ToolChanged? ==> after == before
    // a failure of the rest of the run does not take the decision back: it is reported with it
    ensures !result.NotClaimed? && (result.Resumed? ==> !result.result.Failed?) && (result.ResponseFailed? ==> result.approved == approved)
    ensures !result.ToolChanged? ==>
              var call, at := r.toolCalls[r.nextToolCall], |r.messages|;
              && |view.messages| > at && r.messages <= view.messages
              && view.messages[at].role == Tool && view.messages[at].toolCallId == call.id
              && view.messages[at].content == (if !approved then "The agent declined this tool call."
                                               else if call.name !in r.registry then "error: unknown tool " + call.name
                                               else match env.tool(r.messages, call)
                                                    case Output(text) => text
                                                    case ToolError => "the tool call failed")
  {
    hide Delivers, Advance;
    if !result.ToolChanged? {
      var output := if approved then AgentRun.ExecuteToolCall(r, env) else DECLINED;
      var inner :| Delivers(Advance(Resolve(r, output), env), before, after, view, freshId, now, inner);
      DeliveredExtends(Resolve(r, output), env, before, after, view, freshId, now, inner);
      assert view.messages[|r.messages|] == Resolve(r, output).messages[|r.messages|];
    }
  }
}
