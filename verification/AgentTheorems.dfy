/** What holds of every run of the system: after any sequence of starts, work, claims, decisions, clears,
    expiries and tool changes. */
module AgentTheorems {
  import opened Prelude
  import opened AgentTranscript
  import opened AgentRun
  import opened AgentApprovals
  import opened AgentSafety

  lemma ReachableKeeps(now: int, tools: map<int, ToolRecord>, labels: seq<Label>)
    ensures Inv(Exec(Init(now, tools), labels))
  {
    ExecKeeps(Init(now, tools), labels);
  }

  /** The answers to a request follow it in the order of its calls, no answer stands elsewhere, and every id is answered as
      often as it is asked for. */
  ghost predicate AllAnswered(ms: seq<Message>) {
    && (forall i, k | 0 <= i < |ms| && 0 <= k < |ms[i].toolCalls| :: AnsweredBy(ms, ms[i].toolCalls[k], i + 1 + k))
    && (forall j | 0 <= j < |ms| && ms[j].role == Tool :: exists i | 0 <= i < j :: j <= i + |ms[i].toolCalls|)
    && (forall id :: TimesAnswered(ms, id) == TimesAsked(ms, id))
  }

  predicate AnsweredBy(ms: seq<Message>, call: ToolCall, j: nat) {
    j < |ms| && ms[j].role == Tool && ms[j].toolCallId == call.id
  }

  lemma CompleteIsAnswered(ms: seq<Message>)
    requires Complete(ms)
    ensures AllAnswered(ms)
  {
    hide TimesAnswered, TimesAsked;
    forall i, k | 0 <= i < |ms| && 0 <= k < |ms[i].toolCalls| ensures AnsweredBy(ms, ms[i].toolCalls[k], i + 1 + k) {
      assert AnsweredAt(ms, i) && Answers(ms[i + 1 + k], ms[i].toolCalls[k]);
    }
    forall j | 0 <= j < |ms| && ms[j].role == Tool ensures exists i | 0 <= i < j :: j <= i + |ms[i].toolCalls| {
      var i :| 0 <= i < j && BelongsTo(ms, j, i);
      assert j <= i + |ms[i].toolCalls|;
    }
    forall id ensures TimesAnswered(ms, id) == TimesAsked(ms, id) {
      EachCallAnsweredOnce(ms, id);
    }
  }

  /** Through any sequence of pauses, decisions and re-parks, every transcript the model is shown is fully
      answered: each call by one tool message with its id, in call order, before anything later. */
  lemma ModelSeesAnsweredTranscripts(now: int, tools: map<int, ToolRecord>, labels: seq<Label>)
    ensures forall e | e in Exec(Init(now, tools), labels).log && e.ModelCalled? :: AllAnswered(e.transcript)
  {
    ReachableKeeps(now, tools, labels);
    forall e | e in Exec(Init(now, tools), labels).log && e.ModelCalled? ensures AllAnswered(e.transcript) {
      CompleteIsAnswered(e.transcript);
    }
  }

  /** A parked run has answered exactly its first `nextToolCall` calls; the next one is of a custom tool that needs approval,
      whose number and version the run carries, and it lives for ten minutes. The map's keys are the runs' ids and no
      scope is parked twice. */
  lemma ParkedRunsAwaitTheNextCall(now: int, tools: map<int, ToolRecord>, labels: seq<Label>)
    ensures var s := Exec(Init(now, tools), labels);
            && (forall a, b | a in s.pending && b in s.pending ::
                  var p, q := s.pending[a].scope, s.pending[b].scope;
                  (p.agentId == q.agentId && p.conversationId == q.conversationId
                   && p.conversationUuid == q.conversationUuid && p.surface == q.surface) ==> a == b)
            && forall id | id in s.pending ::
                 var r := s.pending[id];
                 && r.id == id
                 && r.nextToolCall < |r.toolCalls| && OpenAt(r.messages, r.toolCalls, r.nextToolCall)
                 && r.approvals && r.toolCalls[r.nextToolCall].name in r.registry
                 && r.registry[r.toolCalls[r.nextToolCall].name] == Custom(r.toolId, true, r.toolUpdatedAt)
                 && r.step <= r.maxSteps && r.expiresAt == r.createdAt + 600_000_000_000
  {
    ReachableKeeps(now, tools, labels);
    var s := Exec(Init(now, tools), labels);
    assert forall id | id in s.pending :: Parked(s.pending[id]) in s.log;
  }

  /** Whichever order the map is scanned in, the newest run of a scope is the same one: there is only one. */
  lemma NewestRunIsUnique(now: int, tools: map<int, ToolRecord>, labels: seq<Label>, scope: Scope, a: RunId, b: RunId)
    requires var p := Exec(Init(now, tools), labels).pending;
             && a in p && b in p && SameScope(p[a].scope, scope) && SameScope(p[b].scope, scope)
    ensures a == b
  {
    ReachableKeeps(now, tools, labels);
  }

  /** The run was parked at `p`, its scope's own agent approved it at `d`, and at `v` the record of its tool was found
      enabled, under the name of the call and in the version the run waited on, and open to the surface it runs on. */
  ghost predicate ApprovedAt(log: seq<Event>, r: Run, call: ToolCall, time: int, record: ToolRecord, p: nat, d: nat, v: nat) {
    && p < d < v < |log|
    && log[p] == Parked(r) && log[d] == Decided(r.id, r.scope.agentId, true, time) && log[v] == Validated(r.id, record)
    && record.enabled && record.name == call.name && record.updatedAt == r.toolUpdatedAt
    && (r.scope.surface == "copilot" ==> record.copilotEnabled)
    && (r.scope.surface == "generate_reply" ==> record.generateReplyEnabled)
  }

  ghost predicate Approved(log: seq<Event>, r: Run, call: ToolCall) {
    exists time, record, p, d, v :: ApprovedAt(log, r, call, time, record, p, d, v)
  }

  /** With approvals on, a call of a custom tool that needs approval is executed only after the very run that executes it
      was parked at this call and approved. */
  lemma GuardedToolsRunOnlyWhenGranted(now: int, tools: map<int, ToolRecord>, labels: seq<Label>)
    ensures var log := Exec(Init(now, tools), labels).log;
            forall i | 0 <= i < |log| && log[i].Executed? ::
              var r := log[i].run;
              && r.nextToolCall < |r.toolCalls|
              && var call := r.toolCalls[r.nextToolCall];
                 r.approvals && call.name in r.registry && r.registry[call.name].Custom? && r.registry[call.name].approvalRequired ==>
                   Approved(log[..i], r, call)
  {
    ReachableKeeps(now, tools, labels);
    var log := Exec(Init(now, tools), labels).log;
    hide Exec;
    forall i | 0 <= i < |log| && log[i].Executed? && AwaitsApproval(log[i].run)
      ensures Approved(log[..i], log[i].run, CurrentCall(log[i].run))
    {
      ApprovedOutright(log[..i], log[i]);
    }
    assert forall i | 0 <= i < |log| && log[i].Executed? :: log[i] in log;
  }

  lemma ApprovedOutright(log: seq<Event>, e: Event)
    requires e.Executed? && Granted(log, e) && Unanswered(e.run)
    ensures Approved(log, e.run, CurrentCall(e.run))
  {
    var time, record, p, d, v :| GrantedBy(log, e, time, record, p, d, v);
    assert ApprovedAt(log, e.run, CurrentCall(e.run), time, record, p, d, v);
  }

  /** Two decisions in a log are about different ids and about different calls. */
  ghost predicate DecidedAtMostOnce(log: seq<Event>) {
    forall i, j, p, q | 0 <= i < j < |log| && log[i].Decided? && log[j].Decided?
                        && p in log && q in log && p.Parked? && q.Parked?
                        && p.run.id == log[i].id && q.run.id == log[j].id ::
      && p.run.id != q.run.id
      && (p.run.key != q.run.key || p.run.step != q.run.step || p.run.nextToolCall != q.run.nextToolCall)
  }

  /** Each parked call is decided at most once, by its own agent and within ten minutes of being parked. */
  lemma EachCallDecidedAtMostOnce(now: int, tools: map<int, ToolRecord>, labels: seq<Label>)
    ensures var log := Exec(Init(now, tools), labels).log;
            && DecidedAtMostOnce(log)
            && forall d | d in log && d.Decided? ::
                 exists r :: Parked(r) in log && r.id == d.id && r.scope.agentId == d.agentId
                             && d.time < r.createdAt + 600_000_000_000
  {
    hide KnownEvents, ExecutedOnce, ExecutionsGranted, PendingOk, ActiveOk, OneHolder, Exec;
    ReachableKeeps(now, tools, labels);
    var log := Exec(Init(now, tools), labels).log;
    forall d | d in log && d.Decided?
      ensures exists r :: Parked(r) in log && r.id == d.id && r.scope.agentId == d.agentId
                          && d.time < r.createdAt + 600_000_000_000
    {
      var r :| DecidedFrom(log, d, r);
      assert Parked(r) in log;
    }
  }

  /** A declined call is never executed, and no call is executed twice. */
  lemma DeclinedCallsNeverRun(now: int, tools: map<int, ToolRecord>, labels: seq<Label>)
    ensures var log := Exec(Init(now, tools), labels).log;
            && (forall i, j | 0 <= i < j < |log| && log[i].Executed? && log[j].Executed? ::
                  log[i].run.key != log[j].run.key || log[i].run.step != log[j].run.step
                  || log[i].run.nextToolCall != log[j].run.nextToolCall)
            && forall d, p, x | d in log && p in log && x in log && d.Decided? && !d.approved
                                && p.Parked? && p.run.id == d.id && x.Executed? ::
                 x.run.key != p.run.key || x.run.step != p.run.step || x.run.nextToolCall != p.run.nextToolCall
  {
    ReachableKeeps(now, tools, labels);
    var log := Exec(Init(now, tools), labels).log;
    forall d, p, x | d in log && p in log && x in log && d.Decided? && !d.approved && p.Parked? && p.run.id == d.id
      ensures !SameCall(x, p.run.key, At(p.run))
    {
      var r :| DecidedFrom(log, d, r);
      assert Parked(r) in log;
    }
  }

  /** Across all its pauses and resumes a run calls the model at most one time more than its step budget. */
  lemma BudgetSurvivesPauses(now: int, tools: map<int, ToolRecord>, labels: seq<Label>)
    ensures var log := Exec(Init(now, tools), labels).log;
            forall e | e in log && e.ModelCalled? :: ModelCalls(log, e.key) <= e.budget + 1
  {
    ReachableKeeps(now, tools, labels);
  }

  /** The run was parked once, and no claim can find it any more: it is out of the map, or past its expiry in it. */
  ghost predicate Closed(s: State, id: RunId) {
    id in s.issued && (id in s.pending ==> s.pending[id].expiresAt <= s.now)
  }

  /** How often the run of this id was decided. */
  function Decisions(log: seq<Event>, id: RunId): nat {
    if log == [] then 0
    else
      var e := log[|log| - 1];
      Decisions(log[..|log| - 1], id) + (if e.Decided? && e.id == id then 1 else 0)
  }

  lemma DecisionsAfter(log: seq<Event>, id: RunId)
    ensures forall e :: Decisions(log + [e], id) == Decisions(log, id) + (if e.Decided? && e.id == id then 1 else 0)
  {
    forall e ensures Decisions(log + [e], id) == Decisions(log, id) + (if e.Decided? && e.id == id then 1 else 0) {
      assert (log + [e])[..|log|] == log;
    }
  }

  lemma ClosedStays(s: State, l: Label, id: RunId)
    requires Closed(s, id)
    ensures Closed(Next(s, l), id) && Decisions(Next(s, l).log, id) == Decisions(s.log, id)
  {
    DecisionsAfter(s.log, id);
    hide Decisions, NextMove, AwaitsApproval, Matches, ScopeTaken, Resolve, Unanswered;
  }

  /** A run that was claimed, cleared or has expired is never decided from then on, whatever had been decided before. */
  lemma {:induction false} ClosedRunsAreNeverDecided(s: State, labels: seq<Label>, id: RunId)
    requires Closed(s, id)
    ensures Closed(Exec(s, labels), id) && Decisions(Exec(s, labels).log, id) == Decisions(s.log, id)
  {
    hide Next;
    if labels != [] {
      var before := Exec(s, labels[..|labels| - 1]);
      ClosedRunsAreNeverDecided(s, labels[..|labels| - 1], id);
      ClosedStays(before, labels[|labels| - 1], id);
    }
  }

  /** What closes a parked run: its agent's claim, clearing its scope, and the time of its expiry. */
  lemma ParkedRunsClose(s: State, id: RunId, l: Label)
    requires Inv(s) && id in s.pending
    requires match l
             case Claim(t, claimed, agentId, _) => t !in s.active && claimed == id && agentId == s.pending[id].scope.agentId
             case Clear(scope) => SameScope(s.pending[id].scope, scope)
             case Tick(elapsed) => s.pending[id].expiresAt <= s.now + elapsed
             case _ => false
    ensures Closed(Next(s, l), id)
  {
    hide SameScope, RunOk;
    assert Parked(s.pending[id]) in s.log;
  }

  // ----- nothing outside is held back

  lemma {:induction false} ToolsMayGo(s: State, ids: set<int>) returns (labels: seq<Label>)
    ensures Exec(s, labels) == s.(tools := s.tools - ids)
    decreases ids
  {
    hide WorkStep, ClaimStep, DecideStep;
    SomeMember(ids);
    if ids == {} {
      labels := [];
    } else {
      var id :| id in ids;
      var before := ToolsMayGo(s, ids - {id});
      labels := before + [SetTool(id, None)];
      assert labels[..|before|] == before;
      assert s.tools - (ids - {id}) - {id} == s.tools - ids;
    }
  }

  lemma {:induction false} ToolsMayCome(s: State, more: map<int, ToolRecord>) returns (labels: seq<Label>)
    ensures Exec(s, labels) == s.(tools := s.tools + more)
    decreases more
  {
    hide WorkStep, ClaimStep, DecideStep;
    SomeMember(more.Keys);
    if more == map[] {
      labels := [];
      assert s.tools + map[] == s.tools;
    } else {
      var id :| id in more.Keys;
      var before := ToolsMayCome(s, more - {id});
      labels := before + [SetTool(id, Some(more[id]))];
      assert labels[..|before|] == before;
      AddedLast(s.tools, more, id);
    }
  }

  lemma {:induction false} ExecTwice(s: State, a: seq<Label>, b: seq<Label>)
    ensures Exec(s, a + b) == Exec(Exec(s, a), b)
  {
    hide Next;
    if b == [] {
      assert a + b == a;
    } else {
      assert (a + b)[..|a + b| - 1] == a + b[..|b| - 1];
      ExecTwice(s, a, b[..|b| - 1]);
    }
  }

  /** At any moment, whatever is parked or under way, the tool table may become any other and any time may pass. */
  lemma AnyToolsAnyTime(s: State, tools: map<int, ToolRecord>, elapsed: nat) returns (labels: seq<Label>)
    ensures Exec(s, labels) == s.(tools := tools, now := s.now + elapsed)
  {
    var gone := ToolsMayGo(s, s.tools.Keys);
    assert s.tools - s.tools.Keys == map[];
    var come := ToolsMayCome(Exec(s, gone), tools);
    assert map[] + tools == tools;
    ExecTwice(s, gone, come);
    labels := gone + come + [Tick(elapsed)];
    assert labels[..|gone + come|] == gone + come;
    hide WorkStep, ClaimStep, DecideStep;
  }

  // ----- an uninterrupted stretch is a path of the interleaving model

  function Moves(r: Run, env: Env): nat
    decreases Remaining(r), Open(r)
  {
    var m := NextMove(r, env);
    1 + if m.Ran? || m.Asked? then Moves(m.run, env) else 0
  }

  function Repeat(l: Label, n: nat): seq<Label> {
    if n == 0 then [] else Repeat(l, n - 1) + [l]
  }

  lemma {:induction false} ExecFromFront(s: State, l: Label, n: nat)
    requires n > 0
    ensures Exec(s, Repeat(l, n)) == Exec(Next(s, l), Repeat(l, n - 1))
  {
    assert Repeat(l, n)[..n - 1] == Repeat(l, n - 1) by { RepeatLength(l, n); RepeatLength(l, n - 1); }
    RepeatLength(l, n);
    if n == 1 {
      assert Exec(s, []) == s;
      assert Exec(s, Repeat(l, 1)) == Next(s, l);
    } else {
      ExecFromFront(s, l, n - 1);
      RepeatLength(l, n - 1);
      assert Repeat(l, n - 1)[..n - 2] == Repeat(l, n - 2) by { RepeatLength(l, n - 2); }
    }
  }

  lemma {:induction false} RepeatLength(l: Label, n: nat)
    ensures |Repeat(l, n)| == n
    ensures n > 0 ==> Repeat(l, n)[n - 1] == l
  {
    if n > 0 {
      RepeatLength(l, n - 1);
    }
  }

  /** The transcripts the model was shown on behalf of one run. */
  function Shown(log: seq<Event>, key: nat): seq<seq<Message>> {
    if log == [] then []
    else
      var e := log[|log| - 1];
      Shown(log[..|log| - 1], key) + (if e.ModelCalled? && e.key == key then [e.transcript] else [])
  }

  lemma ShownAfter(log: seq<Event>, e: Event, key: nat)
    ensures Shown(log + [e], key) == Shown(log, key) + (if e.ModelCalled? && e.key == key then [e.transcript] else [])
  {
    assert (log + [e])[..|log|] == log;
  }

  /** From `s` to `s'` thread `t`'s run was shown the transcripts of `a` and then parked, was refused because
      its scope is taken, or left. */
  ghost predicate EndsLike(s: State, s': State, t: Tid, key: nat, a: Stretch, freshId: RunId) {
    && s'.active == s.active - {t}
    && Shown(s'.log, key) == Shown(s.log, key) + a.shown
    && var live := Unexpired(s.pending, s.now);
       if !a.end.Pauses? then s'.pending == s.pending
       else
         && AwaitsApproval(a.run)
         && s'.pending == if ScopeTaken(live, a.run.scope) then live else live[freshId := Stamp(a.run, freshId, s.now)]
  }

  lemma PauseEnds(s: State, t: Tid, env: Env, freshId: RunId)
    requires t in s.active && s.active[t].Working? && freshId !in s.issued && AwaitsApproval(s.active[t].run)
    ensures var r := s.active[t].run;
            EndsLike(s, Next(s, Work(t, env, freshId)), t, r.key, Advance(r, env), freshId)
  {
    hide Advance, NextMove, ScopeTaken, Shown;
    var r := s.active[t].run;
    ShownAfter(s.log, Parked(Stamp(r, freshId, s.now)), r.key);
    StretchPauses(r, env);
  }

  lemma ConsultEnds(s: State, t: Tid, env: Env, freshId: RunId)
    requires t in s.active && s.active[t] == Working(s.active[t].run) && !Unanswered(s.active[t].run)
    requires !NextMove(s.active[t].run, env).Asked?
    ensures var r := s.active[t].run;
            EndsLike(s, Next(s, Work(t, env, freshId)), t, r.key, Advance(r, env), freshId)
  {
    hide Advance, ScopeTaken, Shown;
    var r := s.active[t].run;
    ShownAfter(s.log, ModelCalled(r.key, r.maxSteps, r.messages), r.key);
    if r.step < r.maxSteps {
      StretchAsks(r, env);
    } else {
      StretchForces(r, env);
    }
  }

  /** Prepending a move that leaves the parked runs alone. */
  lemma EndsEarlier(s: State, s1: State, s': State, t: Tid, r: Run, a: Stretch, b: Stretch, freshId: RunId, shown: seq<seq<Message>>)
    requires EndsLike(s1, s', t, r.key, b, freshId)
    requires s1.active - {t} == s.active - {t} && s1.pending == s.pending && s1.now == s.now
    requires Shown(s1.log, r.key) == Shown(s.log, r.key) + shown
    requires SameOutcome(a, b) && a.shown == shown + b.shown
    ensures EndsLike(s, s', t, r.key, a, freshId)
  {
    hide Shown, ScopeTaken, Stamp, AwaitsApproval;
  }

  predicate SameOutcome(a: Stretch, b: Stretch) {
    a.run == b.run && a.end == b.end
  }

  /** A thread left alone follows exactly the stretch its run determines. */
  lemma {:induction false} StretchIsAPath(s: State, t: Tid, env: Env, freshId: RunId)
    requires t in s.active && s.active[t].Working? && freshId !in s.issued
    ensures var r := s.active[t].run;
            var s' := Exec(s, Repeat(Work(t, env, freshId), Moves(r, env)));
            EndsLike(s, s', t, r.key, Advance(r, env), freshId)
    decreases Remaining(s.active[t].run), Open(s.active[t].run)
  {
    hide Advance, ScopeTaken, Stamp, Shown, EndsLike, Exec;
    var r := s.active[t].run;
    var l := Work(t, env, freshId);
    var m := NextMove(r, env);
    var s1 := Next(s, l);
    ExecFromFront(s, l, Moves(r, env));
    if AwaitsApproval(r) {
      PauseEnds(s, t, env, freshId);
      ExecNothing(s1);
    } else if Unanswered(r) {
      ShownAfter(s.log, Executed(r, None), r.key);
      StretchRuns(r, env);
      StretchIsAPath(s1, t, env, freshId);
      assert s.active[t := Working(m.run)] - {t} == s.active - {t};
      EndsEarlier(s, s1, Exec(s1, Repeat(l, Moves(m.run, env))), t, r, Advance(r, env), Advance(m.run, env), freshId, []);
    } else if m.Asked? {
      ShownAfter(s.log, ModelCalled(r.key, r.maxSteps, r.messages), r.key);
      StretchAsks(r, env);
      StretchIsAPath(s1, t, env, freshId);
      assert s.active[t := Working(m.run)] - {t} == s.active - {t};
      EndsEarlier(s, s1, Exec(s1, Repeat(l, Moves(m.run, env))), t, r, Advance(r, env), Advance(m.run, env), freshId, [r.messages]);
    } else {
      ConsultEnds(s, t, env, freshId);
      ExecNothing(s1);
    }
  }

  lemma ExecNothing(s: State)
    ensures Exec(s, []) == s
  {
  }
}
