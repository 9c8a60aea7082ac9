/** The manager's two entry points as paths of one thread in the interleaving model: whatever their contracts allow to come
    of a call is what that thread's own steps lead to, if nobody else steps in between. */
module AgentPaths {
  import opened Prelude
  import opened AgentTranscript
  import opened AgentRun
  import opened AgentApprovals
  import opened AgentTheorems
  import opened AgentManager

  lemma {:induction false} ExecTwice(s: State, a: seq<Label>, b: seq<Label>)
    ensures Exec(s, a + b) == Exec(Exec(s, a), b)
  {
    hide Next;
    if b == [] {
      assert a + b == a;
    } else {
      assert (a + b)[..|a + b| - 1] == a + b[..|b| - 1];
      ExecTwice(s, a, b[..|b| - 1]);
    }
  }

  lemma StepLogs(s: State, l: Label)
    ensures s.log <= Next(s, l).log
  {
    hide NextMove, AwaitsApproval, Matches, ScopeTaken, Resolve, Unanswered, Unexpired, Stamp;
  }

  lemma {:induction false} LogGrows(s: State, labels: seq<Label>)
    ensures s.log <= Exec(s, labels).log
  {
    hide Next;
    if labels != [] {
      LogGrows(s, labels[..|labels| - 1]);
      StepLogs(Exec(s, labels[..|labels| - 1]), labels[|labels| - 1]);
    }
  }

  lemma ExecOne(s: State, l: Label)
    ensures Exec(s, [l]) == Next(s, l)
  {
    hide Next;
    assert [l][..0] == [];
    assert Exec(s, []) == s;
  }

  lemma ExecTwoSteps(s: State, l: Label, m: Label)
    ensures Exec(s, [l, m]) == Next(Next(s, l), m)
  {
    hide Next, Exec;
    assert [l, m] == [l] + [m];
    ExecTwice(s, [l], [m]);
    ExecOne(s, l);
    ExecOne(Next(s, l), m);
  }

  // ----- a stretch, as the manager reports it

  /** A stretch that the model ends and one that the manager delivers leave the same runs parked. */
  lemma SameParked(s: State, s': State, t: Tid, key: nat, a: Stretch, after: map<RunId, Run>, view: Run, freshId: RunId, result: RunResult)
    requires EndsLike(s, s', t, key, a, freshId)
    requires !a.end.Ran? && !a.end.Asked?
    requires Delivers(a, s.pending, after, view, freshId, s.now, result)
    ensures s'.pending == after
  {
    hide Shown, Unexpired, ScopeTaken, AwaitsApproval;
    if a.end.Pauses? {
      StampScope(a.run, freshId, s.now);
    }
  }

  lemma StampScope(r: Run, freshId: RunId, now: int)
    requires AwaitsApproval(r)
    ensures Stamp(r, freshId, now).scope == r.scope
  {
  }

  lemma {:induction false} AdvanceStops(r: Run, env: Env)
    ensures var end := Advance(r, env).end; !end.Ran? && !end.Asked?
    decreases Remaining(r), Open(r)
  {
    MoveDescends(r, env);
    var m := NextMove(r, env);
    if m.Ran? || m.Asked? {
      AdvanceStops(m.run, env);
    }
  }

  // ----- a new run

  function RunPath(t: Tid, r: Run, env: Env, freshId: RunId): seq<Label> {
    [Start(t, r.scope, r.registry, r.messages, r.maxSteps, r.approvals)] + Repeat(Work(t, env, freshId), Moves(r, env))
  }

  /** Building a run and taking it to its first stop: the thread is gone again, and the parked runs are those the manager
      promises. */
  lemma RunIsAPath(s: State, t: Tid, scope: Scope, registry: map<string, Tool>, messages: seq<Message>, maxSteps: int,
                   env: Env, after: map<RunId, Run>, view: Run, freshId: RunId, result: RunResult)
    requires t !in s.active && freshId !in s.issued && AllPlain(messages)
    requires Delivers(Advance(NewRun(s.runs, scope, registry, messages, maxSteps, true), env), s.pending, after, view, freshId, s.now, result)
    ensures var r := NewRun(s.runs, scope, registry, messages, maxSteps, true);
            var s' := Exec(s, RunPath(t, r, env, freshId));
            && s'.active == s.active && s'.pending == after
            && Shown(s'.log, r.key) == Shown(s.log, r.key) + Advance(r, env).shown
  {
    hide Advance, Exec, Moves, Repeat, Delivers, EndsLike;
    var r := NewRun(s.runs, scope, registry, messages, maxSteps, true);
    var start := Start(t, r.scope, r.registry, r.messages, r.maxSteps, r.approvals);
    ExecTwice(s, [start], Repeat(Work(t, env, freshId), Moves(r, env)));
    ExecOne(s, start);
    assert NewRun(s.runs, r.scope, r.registry, r.messages, r.maxSteps, r.approvals) == r;
    var s1 := Next(s, start);
    assert s1.active - {t} == s.active;
    StretchIsAPath(s1, t, env, freshId);
    AdvanceStops(r, env);
    var s' := Exec(s1, Repeat(Work(t, env, freshId), Moves(r, env)));
    SameParked(s1, s', t, r.key, Advance(r, env), after, view, freshId, result);
    EndedAway(s1, s', t, r.key, Advance(r, env), freshId);
  }

  lemma EndedAway(s: State, s': State, t: Tid, key: nat, a: Stretch, freshId: RunId)
    requires EndsLike(s, s', t, key, a, freshId)
    ensures s'.active == s.active - {t} && Shown(s'.log, key) == Shown(s.log, key) + a.shown
  {
    hide Shown, ScopeTaken, Stamp, AwaitsApproval;
  }

  // ----- a resumed run

  predicate Claimable(s: State, id: RunId, agentId: int) {
    var live := Unexpired(s.pending, s.now);
    id in live && live[id].scope.agentId == agentId
  }

  predicate StillMatches(s: State, r: Run) {
    r.toolId in s.tools && Matches(r, s.tools[r.toolId])
  }

  /** The run with its decision applied. */
  function AfterDecision(r: Run, approved: bool, env: Env): Run
    requires Unanswered(r)
  {
    Resolve(r, if approved then ExecuteToolCall(r, env) else DECLINED)
  }

  /** The thread's steps: the claim, the time that passes, the decision, the approved call, and the rest of the run. */
  function ResumePath(s: State, t: Tid, id: RunId, agentId: int, approved: bool, env: Env, freshId: RunId, elapsed: nat): seq<Label> {
    var claim := [Claim(t, id, agentId, approved)];
    if !Claimable(s, id, agentId) || !Unanswered(s.pending[id]) then claim
    else
      var r := s.pending[id];
      var decide := claim + [Tick(elapsed)] + [Decide(t)];
      if approved && !StillMatches(s, r) then decide
      else
        decide + (if approved then [Work(t, env, freshId)] else [])
        + Repeat(Work(t, env, freshId), Moves(AfterDecision(r, approved, env), env))
  }

  /** The state after the claim and the time that passed. */
  function Held(s: State, t: Tid, id: RunId, approved: bool, elapsed: nat): State
    requires id in s.pending
  {
    var r := s.pending[id];
    s.(now := s.now + elapsed, pending := Unexpired(s.pending, s.now) - {id}, active := s.active[t := Claimed(r, approved)],
       log := s.log + [Event.Decided(id, r.scope.agentId, approved, s.now)])
  }

  lemma ClaimPath(s: State, t: Tid, id: RunId, agentId: int, approved: bool, elapsed: nat)
    requires t !in s.active && Claimable(s, id, agentId)
    ensures Exec(s, [Claim(t, id, agentId, approved)] + [Tick(elapsed)]) == Held(s, t, id, approved, elapsed)
  {
    hide Exec;
    assert [Claim(t, id, agentId, approved)] + [Tick(elapsed)] == [Claim(t, id, agentId, approved), Tick(elapsed)];
    ExecTwoSteps(s, Claim(t, id, agentId, approved), Tick(elapsed));
  }

  /** Where the rest of the run starts from. */
  predicate GoesOn(s: State, h: State, t: Tid, r: Run) {
    && h.active.Keys == s.active.Keys + {t} && h.active - {t} == s.active - {t} && h.active[t] == Working(r)
    && h.pending == s.pending && h.now == s.now && h.issued == s.issued && Shown(h.log, r.key) == Shown(s.log, r.key)
  }

  lemma DeclinedGoesOn(h: State, t: Tid, r: Run, env: Env)
    requires t in h.active && h.active[t] == Claimed(r, false) && Unanswered(r)
    ensures GoesOn(h, Next(h, Decide(t)), t, AfterDecision(r, false, env))
  {
    hide Shown;
  }

  lemma ApprovedGoesOn(h: State, t: Tid, r: Run, env: Env, freshId: RunId)
    requires t in h.active && h.active[t] == Claimed(r, true) && Unanswered(r) && StillMatches(h, r)
    ensures GoesOn(h, Next(Next(h, Decide(t)), Work(t, env, freshId)), t, AfterDecision(r, true, env))
  {
    hide Shown, Matches;
    var cleared := Next(h, Decide(t));
    ShownAfter(h.log, Validated(r.id, h.tools[r.toolId]), r.key);
    ShownAfter(cleared.log, Executed(r, Some(r.id)), r.key);
  }

  lemma ChangedToolEnds(h: State, t: Tid, r: Run)
    requires t in h.active && h.active[t] == Claimed(r, true) && !StillMatches(h, r)
    ensures Next(h, Decide(t)) == h.(active := h.active - {t})
  {
    hide Matches;
  }

  /** The rest of the run, from the state the decision leaves. */
  lemma RestIsAPath(h: State, h1: State, t: Tid, r: Run, env: Env, after: map<RunId, Run>, view: Run, freshId: RunId, result: RunResult)
    requires t in h.active && GoesOn(h, h1, t, r) && freshId !in h.issued
    requires Delivers(Advance(r, env), h.pending, after, view, freshId, h.now, result)
    ensures var s' := Exec(h1, Repeat(Work(t, env, freshId), Moves(r, env)));
            && s'.active == h.active - {t} && s'.pending == after
            && Shown(s'.log, r.key) == Shown(h.log, r.key) + Advance(r, env).shown
  {
    hide Advance, Exec, Moves, Repeat, Delivers, EndsLike, Shown;
    var s' := Exec(h1, Repeat(Work(t, env, freshId), Moves(r, env)));
    StretchIsAPath(h1, t, env, freshId);
    AdvanceStops(r, env);
    SameParked(h1, s', t, r.key, Advance(r, env), after, view, freshId, result);
    EndedAway(h1, s', t, r.key, Advance(r, env), freshId);
  }

  lemma DecisionIsAPath(h: State, t: Tid, r: Run, approved: bool, env: Env, after: map<RunId, Run>, view: Run, freshId: RunId, result: RunResult)
    requires t in h.active && h.active[t] == Claimed(r, approved) && Unanswered(r) && freshId !in h.issued
    requires approved ==> StillMatches(h, r)
    requires Delivers(Advance(AfterDecision(r, approved, env), env), h.pending, after, view, freshId, h.now, result)
    ensures var d := AfterDecision(r, approved, env);
            var s' := Exec(h, [Decide(t)] + (if approved then [Work(t, env, freshId)] else []) + Repeat(Work(t, env, freshId), Moves(d, env)));
            && s'.active == h.active - {t} && s'.pending == after
            && Shown(s'.log, r.key) == Shown(h.log, r.key) + Advance(d, env).shown
  {
    hide Advance, Exec, Moves, Repeat, Delivers, Shown, Next, GoesOn, StillMatches;
    var d := AfterDecision(r, approved, env);
    var rest := Repeat(Work(t, env, freshId), Moves(d, env));
    if approved {
      assert [Decide(t)] + [Work(t, env, freshId)] == [Decide(t), Work(t, env, freshId)];
      ExecTwoSteps(h, Decide(t), Work(t, env, freshId));
      ExecTwice(h, [Decide(t)] + [Work(t, env, freshId)], rest);
      ApprovedGoesOn(h, t, r, env, freshId);
      RestIsAPath(h, Next(Next(h, Decide(t)), Work(t, env, freshId)), t, d, env, after, view, freshId, result);
    } else {
      assert [Decide(t)] + [] == [Decide(t)];
      ExecOne(h, Decide(t));
      ExecTwice(h, [Decide(t)], rest);
      DeclinedGoesOn(h, t, r, env);
      RestIsAPath(h, Next(h, Decide(t)), t, d, env, after, view, freshId, result);
    }
  }

  /** What the contract of a resume allows, of the runs parked before and after. */
  ghost predicate Resumes(s: State, id: RunId, agentId: int, approved: bool, env: Env, elapsed: nat,
                          after: map<RunId, Run>, view: Run, freshId: RunId, result: ResumeResult) {
    var live := Unexpired(s.pending, s.now);
    if id !in live then result == NotClaimed(NotFound) && after == live
    else if live[id].scope.agentId != agentId then result == NotClaimed(NotOwner) && after == live
    else Decides(live[id], approved, s.tools, env, live - {id}, after, view, freshId, s.now + elapsed, result)
  }

  /** Whatever a resume may do to the parked runs is what its thread's path does; the decision of a claimed run is in the
      log, and the thread is gone again. */
  lemma ResumeIsAPath(s: State, t: Tid, id: RunId, agentId: int, approved: bool, env: Env, elapsed: nat,
                      after: map<RunId, Run>, view: Run, freshId: RunId, result: ResumeResult)
    requires t !in s.active && freshId !in s.issued
    requires Resumes(s, id, agentId, approved, env, elapsed, after, view, freshId, result)
    ensures var s' := Exec(s, ResumePath(s, t, id, agentId, approved, env, freshId, elapsed));
            && s'.active == s.active && s'.pending == after
            && (Claimable(s, id, agentId) ==> s.log + [Event.Decided(id, agentId, approved, s.now)] <= s'.log)
  {
    hide Exec, Advance, Moves, Repeat, Delivers, StillMatches;
    var claim := Claim(t, id, agentId, approved);
    if Claimable(s, id, agentId) {
      assert Unanswered(s.pending[id]);
      ClaimedIsAPath(s, t, id, agentId, approved, env, elapsed, after, view, freshId, result);
    } else {
      ExecOne(s, claim);
    }
  }

  /** The tool has changed: the thread gives the run up. */
  lemma ChangedIsAPath(s: State, t: Tid, id: RunId, agentId: int, env: Env, elapsed: nat, freshId: RunId)
    requires t !in s.active && Claimable(s, id, agentId) && Unanswered(s.pending[id]) && !StillMatches(s, s.pending[id])
    ensures var s' := Exec(s, ResumePath(s, t, id, agentId, true, env, freshId, elapsed));
            && s'.active == s.active && s'.pending == Unexpired(s.pending, s.now) - {id}
            && s.log + [Event.Decided(id, agentId, true, s.now)] <= s'.log
  {
    hide Exec, Moves, Repeat, Next, Matches;
    var h := Held(s, t, id, true, elapsed);
    ClaimPath(s, t, id, agentId, true, elapsed);
    ExecTwice(s, [Claim(t, id, agentId, true)] + [Tick(elapsed)], [Decide(t)]);
    ExecOne(h, Decide(t));
    ChangedToolEnds(h, t, s.pending[id]);
    assert h.active - {t} == s.active;
  }

  lemma DecidedIsAPath(s: State, t: Tid, id: RunId, agentId: int, approved: bool, env: Env, elapsed: nat,
                       after: map<RunId, Run>, view: Run, freshId: RunId, result: RunResult)
    requires t !in s.active && freshId !in s.issued && Claimable(s, id, agentId) && Unanswered(s.pending[id])
    requires approved ==> StillMatches(s, s.pending[id])
    requires Delivers(Advance(AfterDecision(s.pending[id], approved, env), env), Unexpired(s.pending, s.now) - {id}, after, view,
                      freshId, s.now + elapsed, result)
    ensures var s' := Exec(s, ResumePath(s, t, id, agentId, approved, env, freshId, elapsed));
            && s'.active == s.active && s'.pending == after
            && s.log + [Event.Decided(id, agentId, approved, s.now)] <= s'.log
  {
    hide Exec, Advance, Moves, Repeat, Delivers, Next, Matches, AfterDecision;
    var r, h := s.pending[id], Held(s, t, id, approved, elapsed);
    var start := [Claim(t, id, agentId, approved)] + [Tick(elapsed)];
    var work := if approved then [Work(t, env, freshId)] else [];
    var rest := Repeat(Work(t, env, freshId), Moves(AfterDecision(r, approved, env), env));
    ClaimPath(s, t, id, agentId, approved, elapsed);
    assert h.active - {t} == s.active;
    DecisionIsAPath(h, t, r, approved, env, after, view, freshId, result);
    ExecTwice(s, start, [Decide(t)] + work + rest);
    LogGrows(h, [Decide(t)] + work + rest);
    assert start + ([Decide(t)] + work + rest) == start + [Decide(t)] + work + rest;
  }

  lemma ClaimedIsAPath(s: State, t: Tid, id: RunId, agentId: int, approved: bool, env: Env, elapsed: nat,
                       after: map<RunId, Run>, view: Run, freshId: RunId, result: ResumeResult)
    requires t !in s.active && freshId !in s.issued && Claimable(s, id, agentId)
    requires Decides(s.pending[id], approved, s.tools, env, Unexpired(s.pending, s.now) - {id}, after, view, freshId, s.now + elapsed, result)
    ensures var s' := Exec(s, ResumePath(s, t, id, agentId, approved, env, freshId, elapsed));
            && s'.active == s.active && s'.pending == after
            && s.log + [Event.Decided(id, agentId, approved, s.now)] <= s'.log
  {
    hide Exec, Advance, Delivers, ResumePath, Matches, Resolve, ExecuteToolCall;
    var r := s.pending[id];
    if approved && !StillMatches(s, r) {
      ChangedIsAPath(s, t, id, agentId, env, elapsed, freshId);
    } else {
      var output := if approved then ExecuteToolCall(r, env) else DECLINED;
      var inner :| Delivers(Advance(Resolve(r, output), env), Unexpired(s.pending, s.now) - {id}, after, view, freshId, s.now + elapsed, inner);
      DecidedIsAPath(s, t, id, agentId, approved, env, elapsed, after, view, freshId, inner);
    }
  }
}
