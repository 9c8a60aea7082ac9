/** The safety theorems of pausable runs, for every interleaving of threads. */
module AgentSafety {
  import opened Prelude
  import opened AgentTranscript
  import opened AgentRun
  import opened AgentApprovals

  // ----- appending one event to a good log

  ghost predicate Admissible(log: seq<Event>, issued: set<RunId>, runs: nat, e: Event) {
    match e
    case ModelCalled(key, budget, transcript) =>
      && key < runs && Complete(transcript) && ModelCalls(log, key) <= budget
      && forall f | f in log && f.ModelCalled? && f.key == key :: f.budget == budget
    case Executed(r, _) =>
      && r.key < runs && Unanswered(r)
      && (forall x | x in log :: !SameCall(x, r.key, At(r)))
      && (AwaitsApproval(r) ==> Granted(log, e))
      && (forall p, d | p in log && d in log && p.Parked? && d.Decided? && p.run.id == d.id
                        && p.run.key == r.key && At(p.run) == At(r) :: d.approved)
    case Parked(r) =>
      && r.key < runs && r.id in issued && AwaitsApproval(r) && Stamped(r)
      && forall p | p in log && p.Parked? :: p.run.id != r.id && !(p.run.key == r.key && At(p.run) == At(r))
    case Decided(id, _, _, _) => id in issued && Undecided(log, id) && exists r :: DecidedFrom(log, e, r)
    case Validated(_, _) => true
  }

  lemma CallsAfter(log: seq<Event>, e: Event, key: nat)
    ensures ModelCalls(log + [e], key) == ModelCalls(log, key) + (if e.ModelCalled? && e.key == key then 1 else 0)
  {
    assert (log + [e])[..|log|] == log;
  }

  lemma AppendKnown(log: seq<Event>, issued: set<RunId>, runs: nat, e: Event)
    requires KnownEvents(log, issued, runs) && Admissible(log, issued, runs, e)
    ensures KnownEvents(log + [e], issued, runs)
  {
    forall f | f in log + [e] && f.ModelCalled? ensures ModelCalls(log + [e], f.key) <= f.budget + 1 {
      CallsAfter(log, e, f.key);
    }
  }

  lemma AppendDecisions(log: seq<Event>, issued: set<RunId>, runs: nat, e: Event)
    requires DecisionsSound(log) && Admissible(log, issued, runs, e)
    ensures DecisionsSound(log + [e])
  {
    forall d | d in log + [e] && d.Decided? ensures exists r :: DecidedFrom(log + [e], d, r) {
      var r :| DecidedFrom(log, d, r);
      assert Parked(r) in log;
      assert DecidedFrom(log + [e], d, r);
    }
  }

  lemma AppendGrants(log: seq<Event>, issued: set<RunId>, runs: nat, e: Event)
    requires ExecutionsGranted(log) && Admissible(log, issued, runs, e)
    ensures ExecutionsGranted(log + [e])
  {
    forall i | 0 <= i < |log + [e]| && (log + [e])[i].Executed? && AwaitsApproval((log + [e])[i].run)
      ensures Granted((log + [e])[..i], (log + [e])[i])
    {
      assert (log + [e])[..i] == log[..i];
      assert i == |log| ==> log[..i] == log;
    }
  }

  lemma AppendParked(log: seq<Event>, issued: set<RunId>, runs: nat, e: Event)
    requires ParkedOnce(log) && Admissible(log, issued, runs, e)
    ensures ParkedOnce(log + [e])
  {
    hide AwaitsApproval, Granted, DecidedFrom, Undecided, ModelCalls, Complete;
  }

  lemma AppendDecided(log: seq<Event>, issued: set<RunId>, runs: nat, e: Event)
    requires DecidedOnce(log) && Admissible(log, issued, runs, e)
    ensures DecidedOnce(log + [e])
  {
    hide AwaitsApproval, Granted, DecidedFrom, ModelCalls, Complete;
    forall i | 0 <= i < |log| ensures log[i] in log {}
  }

  lemma AppendExecuted(log: seq<Event>, issued: set<RunId>, runs: nat, e: Event)
    requires ExecutedOnce(log) && Admissible(log, issued, runs, e)
    ensures ExecutedOnce(log + [e])
  {
    hide AwaitsApproval, Granted, DecidedFrom, Undecided, ModelCalls, Complete;
    forall i | 0 <= i < |log| ensures log[i] in log {}
  }

  lemma AppendKeeps(log: seq<Event>, issued: set<RunId>, runs: nat, e: Event)
    requires LogOk(log, issued, runs) && Admissible(log, issued, runs, e)
    ensures LogOk(log + [e], issued, runs)
  {
    hide KnownEvents, ParkedOnce, DecidedOnce, ExecutedOnce, DecisionsSound, ExecutionsGranted, Admissible;
    AppendKnown(log, issued, runs, e);
    AppendDecisions(log, issued, runs, e);
    AppendGrants(log, issued, runs, e);
    AppendParked(log, issued, runs, e);
    AppendDecided(log, issued, runs, e);
    AppendExecuted(log, issued, runs, e);
  }

  lemma GrowKeeps(log: seq<Event>, issued: set<RunId>, runs: nat, issued': set<RunId>, runs': nat)
    requires LogOk(log, issued, runs) && issued <= issued' && runs <= runs'
    ensures LogOk(log, issued', runs')
  {
  }

  predicate Touches(e: Event, key: nat) {
    match e
    case ModelCalled(k, _, _) => k == key
    case Executed(r, _) => r.key == key
    case Parked(r) => r.key == key
    case Decided(_, _, _, _) => false
    case Validated(_, _) => false
  }

  lemma OthersKeep(log: seq<Event>, runs: nat, r: Run, awaiting: bool, e: Event)
    requires History(log, runs, r, awaiting) && !Touches(e, r.key)
    ensures History(log + [e], runs, r, awaiting)
  {
    CallsAfter(log, e, r.key);
  }

  lemma ThreadKeeps(log: seq<Event>, th: Thread, e: Event)
    requires ThreadOk(log, th)
    ensures ThreadOk(log + [e], th)
  {
    hide Matches;
    match th
    case Working(_) =>
    case Claimed(r, approved) =>
      var time, p, d :| DecidedAfterPark(log, r, approved, time, p, d);
      assert DecidedAfterPark(log + [e], r, approved, time, p, d);
    case Cleared(r) =>
      var time, record, p, d, v :| DecidedAfterPark(log, r, true, time, p, d) && ValidatedAfter(log, r, record, d, v);
      assert DecidedAfterPark(log + [e], r, true, time, p, d) && ValidatedAfter(log + [e], r, record, d, v);
  }

  /** A decision on an id is the only one, so two logged decisions on it are the same event. */
  lemma SameDecision(log: seq<Event>, d: Event, f: Event)
    requires DecidedOnce(log) && d in log && f in log && d.Decided? && f.Decided? && d.id == f.id
    ensures d == f
  {
    var i :| 0 <= i < |log| && log[i] == d;
    var j :| 0 <= j < |log| && log[j] == f;
  }

  // ----- the holders, when an event is logged or a holder changes

  lemma PendingAppend(log: seq<Event>, runs: nat, pending: map<RunId, Run>, e: Event)
    requires PendingOk(log, runs, pending)
    requires forall id | id in pending :: !Touches(e, pending[id].key)
    requires e.Decided? ==> e.id !in pending
    ensures PendingOk(log + [e], runs, pending)
  {
    forall id | id in pending ensures History(log + [e], runs, pending[id], true) && Undecided(log + [e], id) {
      OthersKeep(log, runs, pending[id], true, e);
    }
  }

  lemma ActiveAppend(log: seq<Event>, runs: nat, active: map<Tid, Thread>, e: Event)
    requires ActiveOk(log, runs, active)
    requires forall t | t in active :: !Touches(e, active[t].run.key)
    ensures ActiveOk(log + [e], runs, active)
  {
    hide History, ThreadOk, Touches;
    forall t | t in active ensures History(log + [e], runs, active[t].run, !active[t].Working?) && ThreadOk(log + [e], active[t]) {
      OthersKeep(log, runs, active[t].run, !active[t].Working?, e);
      ThreadKeeps(log, active[t], e);
    }
  }

  lemma PendingSubmap(log: seq<Event>, runs: nat, sub: map<RunId, Run>, pending: map<RunId, Run>)
    requires PendingOk(log, runs, pending) && OnePerScope(pending)
    requires forall id | id in sub :: id in pending && sub[id] == pending[id]
    ensures PendingOk(log, runs, sub) && OnePerScope(sub)
  {
    hide History, Undecided, SameScope;
  }

  lemma HoldersSubmap(pending: map<RunId, Run>, active: map<Tid, Thread>, sub: map<RunId, Run>, act: map<Tid, Thread>)
    requires OneHolder(pending, active)
    requires forall id | id in sub :: id in pending && sub[id] == pending[id]
    requires forall t | t in act :: t in active && act[t].run.key == active[t].run.key
    ensures OneHolder(sub, act)
  {
  }

  lemma ActiveSet(log: seq<Event>, runs: nat, active: map<Tid, Thread>, t: Tid, th: Thread)
    requires ActiveOk(log, runs, active - {t})
    requires History(log, runs, th.run, !th.Working?) && ThreadOk(log, th)
    ensures ActiveOk(log, runs, active[t := th])
  {
    hide History, ThreadOk;
    forall u | u in active && u != t ensures u in active - {t} {}
  }

  lemma ActiveLess(log: seq<Event>, runs: nat, active: map<Tid, Thread>, t: Tid)
    requires ActiveOk(log, runs, active)
    ensures ActiveOk(log, runs, active - {t})
  {
    hide History, ThreadOk;
  }

  /** Everyone but thread `t` keeps what is known of its run when an event about `t`'s run is logged. */
  lemma RestKeeps(s: State, t: Tid, e: Event)
    requires OneHolder(s.pending, s.active) && PendingOk(s.log, s.runs, s.pending) && ActiveOk(s.log, s.runs, s.active)
    requires t in s.active && !e.Decided?
    requires forall key | Touches(e, key) :: key == s.active[t].run.key
    ensures PendingOk(s.log + [e], s.runs, s.pending) && ActiveOk(s.log + [e], s.runs, s.active - {t})
  {
    hide Touches, PendingOk, ActiveOk;
    ActiveLess(s.log, s.runs, s.active, t);
    PendingAppend(s.log, s.runs, s.pending, e);
    ActiveAppend(s.log, s.runs, s.active - {t}, e);
  }

  /** Thread `t` logs an event about its run and goes on as `th`, holding the same run. */
  lemma ThreadMoves(s: State, t: Tid, th: Thread, e: Event)
    requires Inv(s) && t in s.active && !e.Decided?
    requires forall key | Touches(e, key) :: key == s.active[t].run.key
    requires th.run.key == s.active[t].run.key
    requires Admissible(s.log, s.issued, s.runs, e)
    requires History(s.log + [e], s.runs, th.run, !th.Working?) && ThreadOk(s.log + [e], th)
    ensures Inv(s.(active := s.active[t := th], log := s.log + [e]))
  {
    hide LogOk, OnePerScope, PendingOk, ActiveOk, Admissible, History, ThreadOk, Touches, OneHolder;
    RestKeeps(s, t, e);
    AppendKeeps(s.log, s.issued, s.runs, e);
    ActiveSet(s.log + [e], s.runs, s.active, t, th);
    HoldersSubmap(s.pending, s.active, s.pending, s.active[t := th]);
  }

  // ----- each kind of step keeps the invariant

  lemma {:induction false} NoCalls(log: seq<Event>, key: nat)
    requires forall e | e in log :: !Touches(e, key)
    ensures ModelCalls(log, key) == 0
  {
    if log != [] {
      assert log[|log| - 1] in log;
      NoCalls(log[..|log| - 1], key);
    }
  }

  lemma FreshKey(log: seq<Event>, issued: set<RunId>, runs: nat)
    requires KnownEvents(log, issued, runs)
    ensures ModelCalls(log, runs) == 0
    ensures forall e | e in log :: !Touches(e, runs)
  {
    NoCalls(log, runs);
  }

  lemma StartHistory(s: State, r: Run)
    requires LogOk(s.log, s.issued, s.runs)
    requires RunOk(r) && r.key == s.runs && r.step == 0 && r.toolCalls == []
    ensures History(s.log, s.runs + 1, r, false)
  {
    FreshKey(s.log, s.issued, s.runs);
  }

  lemma MoreRuns(s: State)
    requires PendingOk(s.log, s.runs, s.pending) && ActiveOk(s.log, s.runs, s.active)
    ensures PendingOk(s.log, s.runs + 1, s.pending) && ActiveOk(s.log, s.runs + 1, s.active)
    ensures forall id | id in s.pending :: s.pending[id].key < s.runs
    ensures forall t | t in s.active :: s.active[t].run.key < s.runs
  {
    hide RunOk, ThreadOk, Undecided;
  }

  lemma HoldersStart(pending: map<RunId, Run>, active: map<Tid, Thread>, t: Tid, th: Thread)
    requires OneHolder(pending, active) && t !in active
    requires forall id | id in pending :: pending[id].key < th.run.key
    requires forall u | u in active :: active[u].run.key < th.run.key
    ensures OneHolder(pending, active[t := th])
  {
  }

  lemma StartKeeps(s: State, l: Label)
    requires Inv(s) && l.Start?
    ensures Inv(Next(s, l))
  {
    hide LogOk, History, Undecided, RunOk, OnePerScope, OneHolder, PendingOk, ActiveOk;
    if l.t !in s.active && AllPlain(l.messages) {
      var r := NewRun(s.runs, l.scope, l.registry, l.messages, l.maxSteps, l.approvals);
      assert forall m | m in l.messages :: IsPlain(m);
      NewRunOk(s.runs, l.scope, l.registry, l.messages, l.maxSteps, l.approvals);
      StartHistory(s, r);
      GrowKeeps(s.log, s.issued, s.runs, s.issued, s.runs + 1);
      MoreRuns(s);
      HoldersStart(s.pending, s.active, l.t, Working(r));
      ActiveLess(s.log, s.runs + 1, s.active, l.t);
      ActiveSet(s.log, s.runs + 1, s.active, l.t, Working(r));
    }
  }

  lemma ParkAdmissible(s: State, t: Tid, r: Run, freshId: RunId)
    requires LogOk(s.log, s.issued, s.runs) && History(s.log, s.runs, r, false)
    requires AwaitsApproval(r) && freshId !in s.issued
    ensures var p := Stamp(r, freshId, s.now);
            && Admissible(s.log, s.issued + {freshId}, s.runs, Parked(p))
            && LogOk(s.log, s.issued + {freshId}, s.runs)
  {
    hide RunOk;
    assert forall q | q in s.log && q.Parked? :: q.run.id in s.issued;
    GrowKeeps(s.log, s.issued, s.runs, s.issued + {freshId}, s.runs);
  }

  lemma ParkHistory(s: State, r: Run, freshId: RunId)
    requires LogOk(s.log, s.issued, s.runs) && History(s.log, s.runs, r, false)
    requires AwaitsApproval(r) && freshId !in s.issued
    ensures var p := Stamp(r, freshId, s.now);
            && History(s.log + [Parked(p)], s.runs, p, true)
            && Undecided(s.log + [Parked(p)], freshId)
  {
    hide OpenAt, Complete;
    var p := Stamp(r, freshId, s.now);
    CallsAfter(s.log, Parked(p), p.key);
    assert Parked(p) in s.log + [Parked(p)];
  }

  lemma AdmitOnePerScope(live: map<RunId, Run>, p: Run)
    requires OnePerScope(live) && !ScopeTaken(live, p.scope)
    ensures OnePerScope(live[p.id := p])
  {
  }

  lemma AdmitPending(log: seq<Event>, runs: nat, live: map<RunId, Run>, p: Run)
    requires PendingOk(log, runs, live) && History(log, runs, p, true) && Undecided(log, p.id)
    ensures PendingOk(log, runs, live[p.id := p])
  {
    hide History, Undecided;
  }

  /** The run of thread `t` goes from the thread into the map. */
  lemma AdmitHolders(pending: map<RunId, Run>, active: map<Tid, Thread>, live: map<RunId, Run>, t: Tid, p: Run)
    requires OneHolder(pending, active) && t in active && active[t].run.key == p.key
    requires forall id | id in live :: id in pending && live[id] == pending[id]
    ensures OneHolder(live[p.id := p], active - {t})
  {
  }

  lemma ParkTaken(s: State, t: Tid, p: Run)
    requires Inv(s) && t in s.active && LogOk(s.log, s.issued + {p.id}, s.runs)
    requires ScopeTaken(Unexpired(s.pending, s.now), p.scope)
    ensures Inv(Park(s, t, p))
  {
    hide LogOk, OnePerScope, PendingOk, ActiveOk, OneHolder, ScopeTaken;
    var live := Unexpired(s.pending, s.now);
    PendingSubmap(s.log, s.runs, live, s.pending);
    ActiveLess(s.log, s.runs, s.active, t);
    HoldersSubmap(s.pending, s.active, live, s.active - {t});
  }

  lemma ParkAdmitted(s: State, t: Tid, p: Run)
    requires Inv(s) && t in s.active && s.active[t].run.key == p.key
    requires LogOk(s.log, s.issued + {p.id}, s.runs) && Admissible(s.log, s.issued + {p.id}, s.runs, Parked(p))
    requires History(s.log + [Parked(p)], s.runs, p, true) && Undecided(s.log + [Parked(p)], p.id)
    requires !ScopeTaken(Unexpired(s.pending, s.now), p.scope)
    ensures Inv(Park(s, t, p))
  {
    hide LogOk, OnePerScope, PendingOk, ActiveOk, OneHolder, ScopeTaken, History, Undecided, Admissible;
    var live, e := Unexpired(s.pending, s.now), Parked(p);
    RestKeeps(s, t, e);
    AppendKeeps(s.log, s.issued + {p.id}, s.runs, e);
    PendingSubmap(s.log + [e], s.runs, live, s.pending);
    AdmitOnePerScope(live, p);
    AdmitPending(s.log + [e], s.runs, live, p);
    AdmitHolders(s.pending, s.active, live, t, p);
  }

  lemma ParkKeeps(s: State, t: Tid, r: Run, freshId: RunId)
    requires Inv(s) && t in s.active && s.active[t] == Working(r)
    requires AwaitsApproval(r) && freshId !in s.issued
    ensures Inv(Park(s, t, Stamp(r, freshId, s.now)))
  {
    hide LogOk, History, ThreadOk, Undecided, Admissible, OnePerScope, OneHolder, PendingOk, ScopeTaken, Park;
    var p := Stamp(r, freshId, s.now);
    ParkAdmissible(s, t, r, freshId);
    ParkHistory(s, r, freshId);
    hide ActiveOk;
    if ScopeTaken(Unexpired(s.pending, s.now), p.scope) {
      ParkTaken(s, t, p);
    } else {
      ParkAdmitted(s, t, p);
    }
  }

  /** What an approved thread executes was parked, decided and validated in this order. */
  lemma ClearedIsGranted(log: seq<Event>, r: Run, e: Event)
    requires ThreadOk(log, Cleared(r)) && DecidedOnce(log) && Unanswered(r)
    requires e == Executed(r, Some(r.id))
    ensures Granted(log, e)
    ensures forall d | d in log && d.Decided? && d.id == r.id :: d.approved
  {
    hide Matches;
    var time, record, p: nat, d: nat, v: nat :| DecidedAfterPark(log, r, true, time, p, d) && ValidatedAfter(log, r, record, d, v);
    assert GrantedBy(log, e, time, record, p, d, v);
    forall f | f in log && f.Decided? && f.id == r.id ensures f.approved {
      SameDecision(log, f, log[d]);
    }
  }

  lemma WorkingIsUnparked(log: seq<Event>, runs: nat, r: Run)
    requires History(log, runs, r, false)
    ensures forall p | p in log && p.Parked? && p.run.key == r.key :: At(p.run) != At(r)
  {
  }

  lemma ParkedIsThis(log: seq<Event>, runs: nat, r: Run)
    requires History(log, runs, r, true)
    ensures forall p | p in log && p.Parked? && p.run.key == r.key && At(p.run) == At(r) :: p.run == r
  {
  }

  lemma ExecuteAdmissible(s: State, th: Thread, r: Run, grant: Option<RunId>)
    requires LogOk(s.log, s.issued, s.runs) && th.run == r && Unanswered(r) && !th.Claimed?
    requires History(s.log, s.runs, r, !th.Working?) && ThreadOk(s.log, th)
    requires th.Working? ==> !AwaitsApproval(r)
    requires th.Cleared? ==> grant == Some(r.id)
    ensures Admissible(s.log, s.issued, s.runs, Executed(r, grant))
  {
    hide RunOk, AwaitsApproval, ThreadOk, Granted, KnownEvents, ParkedOnce, ExecutedOnce, DecisionsSound, ExecutionsGranted;
    if th.Cleared? {
      ClearedIsGranted(s.log, r, Executed(r, grant));
      ParkedIsThis(s.log, s.runs, r);
    } else {
      WorkingIsUnparked(s.log, s.runs, r);
    }
    hide DecidedOnce;
  }

  lemma ExecuteHistory(log: seq<Event>, runs: nat, r: Run, awaiting: bool, result: string, grant: Option<RunId>)
    requires History(log, runs, r, awaiting) && Unanswered(r)
    ensures History(log + [Executed(r, grant)], runs, Resolve(r, result), false)
  {
    CallsAfter(log, Executed(r, grant), r.key);
    ResolveKeeps(r, result);
    hide RunOk;
  }

  lemma ExecuteKeeps(s: State, t: Tid, r: Run, env: Env, grant: Option<RunId>)
    requires Inv(s) && t in s.active && s.active[t].run == r && Unanswered(r) && !s.active[t].Claimed?
    requires s.active[t].Working? ==> !AwaitsApproval(r)
    requires s.active[t].Cleared? ==> grant == Some(r.id)
    ensures Inv(Execute(s, t, r, env, grant))
  {
    hide LogOk, History, Undecided, Admissible, OnePerScope, OneHolder, PendingOk, AwaitsApproval, Inv;
    HolderKnown(s, t);
    var e := Executed(r, grant);
    ExecuteAdmissible(s, s.active[t], r, grant);
    ExecuteHistory(s.log, s.runs, r, !s.active[t].Working?, ExecuteToolCall(r, env), grant);
    ThreadMoves(s, t, Working(Resolve(r, ExecuteToolCall(r, env))), e);
  }

  lemma HolderKnown(s: State, t: Tid)
    requires Inv(s) && t in s.active
    ensures LogOk(s.log, s.issued, s.runs)
    ensures History(s.log, s.runs, s.active[t].run, !s.active[t].Working?) && ThreadOk(s.log, s.active[t])
  {
    hide LogOk, History, ThreadOk;
  }

  lemma ConsultAdmissible(s: State, r: Run)
    requires LogOk(s.log, s.issued, s.runs) && History(s.log, s.runs, r, false) && !Unanswered(r)
    ensures Admissible(s.log, s.issued, s.runs, ModelCalled(r.key, r.maxSteps, r.messages))
  {
    hide LogOk, Complete;
  }

  lemma ConsultHistory(log: seq<Event>, runs: nat, r: Run, env: Env)
    requires History(log, runs, r, false) && !Unanswered(r) && NextMove(r, env).Asked?
    ensures History(log + [ModelCalled(r.key, r.maxSteps, r.messages)], runs, NextMove(r, env).run, false)
  {
    CallsAfter(log, ModelCalled(r.key, r.maxSteps, r.messages), r.key);
    MoveKeeps(r, env);
    hide RunOk, Complete;
  }

  lemma ConsultLeaves(s: State, t: Tid, e: Event)
    requires Inv(s) && t in s.active && !e.Decided?
    requires forall key | Touches(e, key) :: key == s.active[t].run.key
    requires Admissible(s.log, s.issued, s.runs, e)
    ensures Inv(s.(active := s.active - {t}, log := s.log + [e]))
  {
    hide LogOk, OnePerScope, PendingOk, ActiveOk, Admissible, Touches, OneHolder;
    RestKeeps(s, t, e);
    AppendKeeps(s.log, s.issued, s.runs, e);
    HoldersSubmap(s.pending, s.active, s.pending, s.active - {t});
  }

  lemma ConsultKeeps(s: State, t: Tid, r: Run, env: Env)
    requires Inv(s) && t in s.active && s.active[t] == Working(r) && !Unanswered(r)
    ensures Inv(Consult(s, t, r, env))
  {
    hide LogOk, History, Undecided, Admissible, OnePerScope, OneHolder, PendingOk, Inv;
    HolderKnown(s, t);
    var e := ModelCalled(r.key, r.maxSteps, r.messages);
    ConsultAdmissible(s, r);
    if NextMove(r, env).Asked? {
      ConsultHistory(s.log, s.runs, r, env);
      ThreadMoves(s, t, Working(NextMove(r, env).run), e);
    } else {
      ConsultLeaves(s, t, e);
    }
  }

  lemma WorkKeeps(s: State, t: Tid, env: Env, freshId: RunId)
    requires Inv(s) && t in s.active
    ensures Inv(WorkStep(s, t, env, freshId))
  {
    hide Inv, Park, Execute, Consult, AwaitsApproval;
    match s.active[t]
    case Working(r) =>
      if AwaitsApproval(r) {
        if freshId !in s.issued {
          ParkKeeps(s, t, r, freshId);
        }
      } else if Unanswered(r) {
        ExecuteKeeps(s, t, r, env, None);
      } else {
        ConsultKeeps(s, t, r, env);
      }
    case Claimed(_, _) =>
    case Cleared(r) =>
      if Unanswered(r) {
        ExecuteKeeps(s, t, r, env, Some(r.id));
      }
  }

  lemma ClaimAdmissible(s: State, id: RunId, approved: bool)
    requires LogOk(s.log, s.issued, s.runs) && PendingOk(s.log, s.runs, s.pending) && OnePerScope(s.pending)
    requires id in s.pending && s.pending[id].expiresAt > s.now
    ensures var r := s.pending[id];
            var e := Decided(id, r.scope.agentId, approved, s.now);
            && r.id == id && History(s.log, s.runs, r, true)
            && Admissible(s.log, s.issued, s.runs, e)
            && ThreadOk(s.log + [e], Claimed(r, approved))
  {
    hide RunOk, AwaitsApproval, ParkedOnce, DecidedOnce, ExecutedOnce, DecisionsSound, ExecutionsGranted;
    var r := s.pending[id];
    var e := Decided(id, r.scope.agentId, approved, s.now);
    assert Parked(r) in s.log;
    assert DecidedFrom(s.log, e, r);
    var p :| 0 <= p < |s.log| && s.log[p] == Parked(r);
    assert DecidedAfterPark(s.log + [e], r, approved, s.now, p, |s.log|);
  }

  lemma ClaimHolders(pending: map<RunId, Run>, active: map<Tid, Thread>, live: map<RunId, Run>, t: Tid, id: RunId, th: Thread)
    requires OneHolder(pending, active) && id in live && th.run == live[id]
    requires forall a | a in live :: a in pending && live[a] == pending[a]
    ensures OneHolder(live - {id}, active[t := th])
  {
  }

  lemma ClaimGrants(s: State, t: Tid, id: RunId, approved: bool)
    requires Inv(s) && t !in s.active && id in s.pending && s.pending[id].expiresAt > s.now
    ensures var r := s.pending[id];
            Inv(s.(pending := Unexpired(s.pending, s.now) - {id}, active := s.active[t := Claimed(r, approved)],
                   log := s.log + [Decided(id, r.scope.agentId, approved, s.now)]))
  {
    hide LogOk, History, ThreadOk, Admissible, OnePerScope, OneHolder, PendingOk, ActiveOk;
    ClaimAdmissible(s, id, approved);
    var r, live := s.pending[id], Unexpired(s.pending, s.now);
    var e := Decided(id, r.scope.agentId, approved, s.now);
    AppendKeeps(s.log, s.issued, s.runs, e);
    PendingSubmap(s.log, s.runs, live - {id}, s.pending);
    PendingAppend(s.log, s.runs, live - {id}, e);
    ActiveAppend(s.log, s.runs, s.active, e);
    ActiveLess(s.log + [e], s.runs, s.active, t);
    OthersKeep(s.log, s.runs, r, true, e);
    ActiveSet(s.log + [e], s.runs, s.active, t, Claimed(r, approved));
    ClaimHolders(s.pending, s.active, live, t, id, Claimed(r, approved));
  }

  /** Dropping parked runs keeps everything. */
  lemma FewerPending(s: State, sub: map<RunId, Run>)
    requires Inv(s) && forall id | id in sub :: id in s.pending && sub[id] == s.pending[id]
    ensures Inv(s.(pending := sub))
  {
    hide LogOk, OnePerScope, OneHolder, PendingOk, ActiveOk;
    PendingSubmap(s.log, s.runs, sub, s.pending);
    HoldersSubmap(s.pending, s.active, sub, s.active);
  }

  lemma ClaimKeeps(s: State, t: Tid, id: RunId, agentId: int, approved: bool)
    requires Inv(s) && t !in s.active
    ensures Inv(ClaimStep(s, t, id, agentId, approved))
  {
    hide Inv;
    var live := Unexpired(s.pending, s.now);
    if id in live && live[id].scope.agentId == agentId {
      ClaimGrants(s, t, id, approved);
    } else {
      FewerPending(s, live);
    }
  }

  lemma ValidateThread(log: seq<Event>, r: Run, record: ToolRecord)
    requires ThreadOk(log, Claimed(r, true)) && Matches(r, record)
    ensures ThreadOk(log + [Validated(r.id, record)], Cleared(r))
  {
    hide Matches;
    var e := Validated(r.id, record);
    var time, p, d :| DecidedAfterPark(log, r, true, time, p, d);
    assert DecidedAfterPark(log + [e], r, true, time, p, d);
    assert ValidatedAfter(log + [e], r, record, d, |log|);
  }

  lemma ValidateKeeps(s: State, t: Tid, record: ToolRecord)
    requires Inv(s) && t in s.active && s.active[t].Claimed? && s.active[t].approved
    requires Matches(s.active[t].run, record)
    ensures var r := s.active[t].run;
            Inv(s.(active := s.active[t := Cleared(r)], log := s.log + [Validated(r.id, record)]))
  {
    hide Inv, LogOk, History, ThreadOk, Matches;
    var r := s.active[t].run;
    var e := Validated(r.id, record);
    HolderKnown(s, t);
    OthersKeep(s.log, s.runs, r, true, e);
    ValidateThread(s.log, r, record);
    ThreadMoves(s, t, Cleared(r), e);
  }

  lemma DeclineHistory(log: seq<Event>, runs: nat, r: Run, result: string)
    requires History(log, runs, r, true)
    ensures Unanswered(r) && History(log, runs, Resolve(r, result), false)
  {
    ResolveKeeps(r, result);
    hide RunOk;
  }

  lemma DeclineKeeps(s: State, t: Tid)
    requires Inv(s) && t in s.active && s.active[t].Claimed? && Unanswered(s.active[t].run)
    ensures Inv(s.(active := s.active[t := Working(Resolve(s.active[t].run, DECLINED))]))
  {
    hide LogOk, History, OnePerScope, OneHolder, PendingOk;
    var th := Working(Resolve(s.active[t].run, DECLINED));
    DeclineHistory(s.log, s.runs, s.active[t].run, DECLINED);
    ActiveLess(s.log, s.runs, s.active, t);
    ActiveSet(s.log, s.runs, s.active, t, th);
    HoldersSubmap(s.pending, s.active, s.pending, s.active[t := th]);
  }

  /** A thread that gives its run up. */
  lemma LeaveKeeps(s: State, t: Tid)
    requires Inv(s)
    ensures Inv(s.(active := s.active - {t}))
  {
    hide LogOk, OnePerScope, OneHolder, PendingOk, ActiveOk;
    ActiveLess(s.log, s.runs, s.active, t);
    HoldersSubmap(s.pending, s.active, s.pending, s.active - {t});
  }

  lemma DecideKeeps(s: State, t: Tid)
    requires Inv(s) && t in s.active && s.active[t].Claimed?
    ensures Inv(DecideStep(s, t))
  {
    hide Inv, Matches;
    var r := s.active[t].run;
    if s.active[t].approved {
      if r.toolId in s.tools && Matches(r, s.tools[r.toolId]) {
        ValidateKeeps(s, t, s.tools[r.toolId]);
      } else {
        LeaveKeeps(s, t);
      }
    } else if Unanswered(r) {
      DeclineKeeps(s, t);
    }
  }

  /** The clock and the tool table are no part of the invariant. */
  lemma OutsideKeeps(s: State, now: int, tools: map<int, ToolRecord>)
    requires Inv(s)
    ensures Inv(s.(now := now)) && Inv(s.(tools := tools))
  {
    hide LogOk, OnePerScope, OneHolder, PendingOk, ActiveOk;
  }

  lemma NextKeeps(s: State, l: Label)
    requires Inv(s)
    ensures Inv(Next(s, l))
  {
    hide Inv, WorkStep, ClaimStep, DecideStep, AllPlain;
    match l
    case Start(_, _, _, _, _, _) => StartKeeps(s, l);
    case Work(t, env, freshId) => if t in s.active { WorkKeeps(s, t, env, freshId); }
    case Claim(t, id, agentId, approved) => if t !in s.active { ClaimKeeps(s, t, id, agentId, approved); }
    case Decide(t) => if t in s.active && s.active[t].Claimed? { DecideKeeps(s, t); }
    case Clear(scope) => FewerPending(s, WithoutScope(s.pending, scope));
    case Query => FewerPending(s, Unexpired(s.pending, s.now));
    case Tick(elapsed) => OutsideKeeps(s, s.now + elapsed, s.tools);
    case SetTool(toolId, record) =>
      OutsideKeeps(s, s.now, if record.Some? then s.tools[toolId := record.value] else s.tools - {toolId});
  }

  lemma {:induction false} ExecKeeps(s: State, labels: seq<Label>)
    requires Inv(s)
    ensures Inv(Exec(s, labels))
  {
    hide Inv, Next;
    if labels != [] {
      ExecKeeps(s, labels[..|labels| - 1]);
      NextKeeps(Exec(s, labels[..|labels| - 1]), labels[|labels| - 1]);
    }
  }
}
