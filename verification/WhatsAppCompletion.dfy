/** Everything ends: once no new deliveries and creates come, the threads take a bounded number of steps more, and where
    none can take another, all of them are finished. */
module WhatsAppCompletion {
  import opened Prelude
  import opened KeyedLocks
  import opened WhatsAppPipeline
  import opened WhatsAppLockPart
  import opened WhatsAppSafety
  import opened WhatsAppProgress

  // ----- the work of all threads

  /** What is left to do for all threads together: their steps, and leaving. */
  ghost function TotalWork(threads: map<Tid, Thread>): nat {
    if threads == map[] then 0
    else
      var t :| t in threads;
      1 + WorkLeft(threads[t]) + TotalWork(threads - {t})
  }

  lemma {:induction false} WorkOfOne(threads: map<Tid, Thread>, t: Tid)
    requires t in threads
    ensures TotalWork(threads) == 1 + WorkLeft(threads[t]) + TotalWork(threads - {t})
    decreases |threads|
  {
    hide WorkLeft;
    var u :| u in threads && TotalWork(threads) == 1 + WorkLeft(threads[u]) + TotalWork(threads - {u});
    if u != t {
      WorkOfOne(threads - {u}, t);
      WorkOfOne(threads - {t}, u);
      assert threads - {u} - {t} == threads - {t} - {u};
    }
  }

  /** Work of a map that differs at one thread only. */
  lemma WorkElsewhere(a: map<Tid, Thread>, b: map<Tid, Thread>, t: Tid)
    requires t in a && OnlyAt(a, b, t)
    ensures TotalWork(a) == 1 + WorkLeft(a[t]) + TotalWork(a - {t})
    ensures TotalWork(b) == (if t in b then 1 + WorkLeft(b[t]) else 0) + TotalWork(a - {t})
  {
    hide WorkLeft, TotalWork;
    WorkOfOne(a, t);
    if t in b {
      WorkOfOne(b, t);
      assert b - {t} == a - {t};
    } else {
      assert b == a - {t};
    }
  }

  // ----- every step costs

  predicate NoNewWork(labels: seq<Label>) {
    forall l | l in labels :: !l.Deliver? && !l.AgentCreate?
  }

  /** A label under which a thread really takes a step. */
  predicate Moves(senderOf: string -> string, s: State, l: Label) {
    l.Step? && Next(senderOf, s, l) != s
  }

  /** The number of steps the threads take in a run. */
  function Taken(senderOf: string -> string, s: State, labels: seq<Label>): nat {
    if labels == [] then 0
    else
      var front, l := labels[..|labels| - 1], labels[|labels| - 1];
      Taken(senderOf, s, front) + (if Moves(senderOf, RunFrom(senderOf, s, front), l) then 1 else 0)
  }

  lemma StepCosts(senderOf: string -> string, s: State, l: Label)
    requires !l.Deliver? && !l.AgentCreate?
    ensures var s' := Next(senderOf, s, l);
            TotalWork(s'.threads) + (if Moves(senderOf, s, l) then 1 else 0) <= TotalWork(s.threads)
  {
    hide StepThread, TotalWork, WorkLeft;
    var s' := Next(senderOf, s, l);
    if l.Step? && l.t in s.threads {
      StepDescends(s, l.t, l.choice);
      WorkElsewhere(s.threads, s'.threads, l.t);
    } else if l.Cancel? && l.t in s.threads {
      WorkElsewhere(s.threads, s'.threads, l.t);
      CancelCostsNothing(s.threads[l.t]);
    }
  }

  lemma CancelCostsNothing(th: Thread)
    ensures WorkLeft(th.(cancelled := true)) == WorkLeft(th)
  {
  }

  /** With no new deliveries and creates, the steps taken and the work left never exceed the work there was, whatever is
      cancelled, closed or switched in between. */
  lemma {:induction false} WorkIsBounded(senderOf: string -> string, s: State, labels: seq<Label>)
    requires NoNewWork(labels)
    ensures Taken(senderOf, s, labels) + TotalWork(RunFrom(senderOf, s, labels).threads) <= TotalWork(s.threads)
  {
    hide Next, TotalWork, Moves;
    if labels != [] {
      var front, l := labels[..|labels| - 1], labels[|labels| - 1];
      assert l in labels;
      WorkIsBounded(senderOf, s, front);
      StepCosts(senderOf, RunFrom(senderOf, s, front), l);
    }
  }

  /** Nobody can take a step. */
  ghost predicate AtRest(senderOf: string -> string, s: State) {
    forall t, c :: !Moves(senderOf, s, Step(t, c))
  }

  lemma RestIsTheEnd(senderOf: string -> string, s: State)
    requires Inv(senderOf, s)
    ensures AtRest(senderOf, s) <==> s.threads == map[]
  {
    hide LockPart, DataPart, StepThread;
    if s.threads != map[] {
      SomeoneSteps(s);
      var t :| CanStep(s, t);
      var c :| StepThread(s, t, c) != s;
      assert Moves(senderOf, s, Step(t, c));
    }
  }

  /** From every reachable state, however the threads go on while no new work comes: they take no more steps than there is
      work left, and the run can be continued exactly as long as some thread is unfinished. */
  lemma EverythingEnds(senderOf: string -> string, before: seq<Label>, labels: seq<Label>)
    requires NoNewWork(labels)
    ensures var s := Run(senderOf, before);
            var s' := RunFrom(senderOf, s, labels);
            && Taken(senderOf, s, labels) <= TotalWork(s.threads)
            && (AtRest(senderOf, s') <==> s'.threads == map[])
  {
    hide Inv, TotalWork, AtRest;
    RunKeeps(senderOf, before);
    WorkIsBounded(senderOf, Run(senderOf, before), labels);
    RunFromKeeps(senderOf, Run(senderOf, before), labels);
    RestIsTheEnd(senderOf, RunFrom(senderOf, Run(senderOf, before), labels));
  }

  /** All labels are steps of threads, and each of them moves. */
  predicate AllMove(senderOf: string -> string, s: State, labels: seq<Label>) {
    forall i | 0 <= i < |labels| :: Moves(senderOf, RunFrom(senderOf, s, labels[..i]), labels[i])
  }

  lemma {:induction false} FromFront(senderOf: string -> string, s: State, l: Label, labels: seq<Label>)
    ensures RunFrom(senderOf, s, [l] + labels) == RunFrom(senderOf, Next(senderOf, s, l), labels)
  {
    hide Next;
    if labels == [] {
      assert [l] + labels == [l] && [l][..0] == [];
      assert RunFrom(senderOf, s, []) == s;
    } else {
      assert ([l] + labels)[..|labels|] == [l] + labels[..|labels| - 1];
      FromFront(senderOf, s, l, labels[..|labels| - 1]);
    }
  }

  lemma MovesFirst(senderOf: string -> string, s: State, l: Label, labels: seq<Label>)
    requires Moves(senderOf, s, l) && AllMove(senderOf, Next(senderOf, s, l), labels)
    ensures AllMove(senderOf, s, [l] + labels)
  {
    hide Moves, Next;
    var all := [l] + labels;
    forall i | 0 <= i < |all| ensures Moves(senderOf, RunFrom(senderOf, s, all[..i]), all[i]) {
      if i == 0 {
        assert RunFrom(senderOf, s, all[..0]) == s;
      } else {
        assert all[..i] == [l] + labels[..i - 1];
        FromFront(senderOf, s, l, labels[..i - 1]);
      }
    }
  }

  /** From every state that keeps the invariant some run of steps finishes all threads. */
  lemma {:induction false} AllCanFinish(senderOf: string -> string, s: State) returns (labels: seq<Label>)
    requires Inv(senderOf, s)
    ensures AllMove(senderOf, s, labels) && RunFrom(senderOf, s, labels).threads == map[]
    decreases TotalWork(s.threads)
  {
    hide Inv, Next, TotalWork, Moves, AllMove;
    if s.threads == map[] {
      labels := [];
      NothingMoves(senderOf, s);
    } else {
      RestIsTheEnd(senderOf, s);
      var t, c :| Moves(senderOf, s, Step(t, c));
      StepCosts(senderOf, s, Step(t, c));
      NextKeeps(senderOf, s, Step(t, c));
      var rest := AllCanFinish(senderOf, Next(senderOf, s, Step(t, c)));
      labels := [Step(t, c)] + rest;
      MovesFirst(senderOf, s, Step(t, c), rest);
      FromFront(senderOf, s, Step(t, c), rest);
    }
  }

  lemma NothingMoves(senderOf: string -> string, s: State)
    ensures AllMove(senderOf, s, []) && RunFrom(senderOf, s, []) == s
  {
  }

  // ----- what may come at any moment

  lemma {:induction false} RunFromTwice(senderOf: string -> string, s: State, a: seq<Label>, b: seq<Label>)
    ensures RunFrom(senderOf, s, a + b) == RunFrom(senderOf, RunFrom(senderOf, s, a), b)
  {
    hide Next;
    if b == [] {
      assert a + b == a;
    } else {
      assert (a + b)[..|a + b| - 1] == a + b[..|b| - 1];
      RunFromTwice(senderOf, s, a, b[..|b| - 1]);
    }
  }

  lemma OneMore(senderOf: string -> string, s: State, labels: seq<Label>, l: Label)
    ensures RunFrom(senderOf, s, labels + [l]) == Next(senderOf, RunFrom(senderOf, s, labels), l)
  {
    assert (labels + [l])[..|labels|] == labels;
  }

  /** A delivery of messages of their own senders, or a create by an agent, before its first step. */
  predicate Arriving(senderOf: string -> string, th: Thread) {
    && th.fates == [] && !th.cancelled
    && if th.pc.AgentStart? then th.msgs == []
       else th.pc.Ready? && forall i | 0 <= i < |th.msgs| :: th.msgs[i].from == senderOf(th.msgs[i].id)
  }

  function Arrival(t: Tid, th: Thread): Label {
    if th.pc.AgentStart? then AgentCreate(t, th.pc.pair) else Deliver(t, th.msgs)
  }

  lemma Arrives(senderOf: string -> string, s: State, t: Tid, th: Thread)
    requires t !in s.threads && Arriving(senderOf, th)
    ensures Next(senderOf, s, Arrival(t, th)) == s.(threads := s.threads[t := th])
  {
    hide StepThread;
  }

  lemma {:induction false} MayArrive(senderOf: string -> string, s: State, arrivals: map<Tid, Thread>) returns (labels: seq<Label>)
    requires arrivals.Keys !! s.threads.Keys && forall t | t in arrivals :: Arriving(senderOf, arrivals[t])
    ensures RunFrom(senderOf, s, labels) == s.(threads := s.threads + arrivals)
    decreases arrivals
  {
    hide StepThread;
    if arrivals == map[] {
      labels := [];
      assert s.threads + map[] == s.threads;
    } else {
      var t :| t in arrivals;
      var th := arrivals[t];
      var before := MayArrive(senderOf, s, arrivals - {t});
      labels := before + [Arrival(t, th)];
      OneMore(senderOf, s, before, Arrival(t, th));
      hide RunFrom;
      Arrives(senderOf, RunFrom(senderOf, s, before), t, th);
      hide Arriving, Arrival, Next;
      AddedLast(s.threads, arrivals, t);
    }
  }

  lemma {:induction false} InboxesMayGo(senderOf: string -> string, s: State, ids: set<int>) returns (labels: seq<Label>)
    ensures RunFrom(senderOf, s, labels) == s.(inboxes := s.inboxes - ids)
    decreases ids
  {
    hide StepThread;
    SomeMember(ids);
    if ids == {} {
      labels := [];
    } else {
      var id :| id in ids;
      var before := InboxesMayGo(senderOf, s, ids - {id});
      labels := before + [SetInbox(id, None)];
      OneMore(senderOf, s, before, SetInbox(id, None));
      assert s.inboxes - (ids - {id}) - {id} == s.inboxes - ids;
    }
  }

  lemma {:induction false} InboxesMayCome(senderOf: string -> string, s: State, more: map<int, Inbox>) returns (labels: seq<Label>)
    ensures RunFrom(senderOf, s, labels) == s.(inboxes := s.inboxes + more)
    decreases more
  {
    hide StepThread;
    SomeMember(more.Keys);
    if more == map[] {
      labels := [];
      assert s.inboxes + map[] == s.inboxes;
    } else {
      var id :| id in more.Keys;
      var before := InboxesMayCome(senderOf, s, more - {id});
      labels := before + [SetInbox(id, Some(more[id]))];
      OneMore(senderOf, s, before, SetInbox(id, Some(more[id])));
      AddedLast(s.inboxes, more, id);
    }
  }

  lemma {:induction false} ContactsMaySwitch(senderOf: string -> string, s: State, contacts: set<int>, enabled: bool) returns (labels: seq<Label>)
    ensures RunFrom(senderOf, s, labels) == s.(disabled := if enabled then s.disabled - contacts else s.disabled + contacts)
    decreases contacts
  {
    hide StepThread;
    SomeMember(contacts);
    if contacts == {} {
      labels := [];
      assert s.disabled - {} == s.disabled + {} == s.disabled;
    } else {
      var c :| c in contacts;
      var before := ContactsMaySwitch(senderOf, s, contacts - {c}, enabled);
      labels := before + [SetContact(c, enabled)];
      OneMore(senderOf, s, before, SetContact(c, enabled));
      assert s.disabled - (contacts - {c}) - {c} == s.disabled - contacts;
      assert s.disabled + (contacts - {c}) + {c} == s.disabled + contacts;
    }
  }

  function WithClosed(convs: map<nat, Conv>, closed: set<nat>): map<nat, Conv> {
    map c | c in convs :: if c in closed then convs[c].(open := false) else convs[c]
  }

  lemma {:induction false} MayClose(senderOf: string -> string, s: State, closed: set<nat>) returns (labels: seq<Label>)
    ensures RunFrom(senderOf, s, labels) == s.(convs := WithClosed(s.convs, closed))
    decreases closed
  {
    hide StepThread;
    if closed == {} {
      labels := [];
      assert WithClosed(s.convs, {}) == s.convs;
    } else {
      var c :| c in closed;
      var before := MayClose(senderOf, s, closed - {c});
      labels := before + [Resolve(c)];
      OneMore(senderOf, s, before, Resolve(c));
      var convs := WithClosed(s.convs, closed - {c});
      assert c in convs ==> convs[c := convs[c].(open := false)] == WithClosed(s.convs, closed);
      assert c !in convs ==> convs == WithClosed(s.convs, closed);
    }
  }

  function WithCancelled(threads: map<Tid, Thread>, cancelled: set<Tid>): map<Tid, Thread> {
    map t | t in threads :: if t in cancelled then threads[t].(cancelled := true) else threads[t]
  }

  lemma {:induction false} MayCancel(senderOf: string -> string, s: State, cancelled: set<Tid>) returns (labels: seq<Label>)
    ensures RunFrom(senderOf, s, labels) == s.(threads := WithCancelled(s.threads, cancelled))
    decreases cancelled
  {
    hide StepThread;
    if cancelled == {} {
      labels := [];
      assert WithCancelled(s.threads, {}) == s.threads;
    } else {
      var t :| t in cancelled;
      var before := MayCancel(senderOf, s, cancelled - {t});
      labels := before + [Cancel(t)];
      OneMore(senderOf, s, before, Cancel(t));
      var threads := WithCancelled(s.threads, cancelled - {t});
      assert t in threads ==> threads[t := threads[t].(cancelled := true)] == WithCancelled(s.threads, cancelled);
      assert t !in threads ==> threads == WithCancelled(s.threads, cancelled);
    }
  }

  /** At any moment, whatever the threads are doing, any number of deliveries and creates may come in together, any threads be
      cancelled, any conversations be closed, and any inboxes and contacts be switched: no run is left out. */
  lemma AnythingMayCome(senderOf: string -> string, s: State, arrivals: map<Tid, Thread>, cancelled: set<Tid>, closed: set<nat>,
                        inboxes: map<int, Inbox>, disabled: set<int>) returns (labels: seq<Label>)
    requires arrivals.Keys !! s.threads.Keys && forall t | t in arrivals :: Arriving(senderOf, arrivals[t])
    ensures RunFrom(senderOf, s, labels) ==
            s.(threads := WithCancelled(s.threads + arrivals, cancelled), convs := WithClosed(s.convs, closed),
               inboxes := inboxes, disabled := disabled)
  {
    hide RunFrom, WithCancelled, WithClosed, Arriving;
    var arrive := MayArrive(senderOf, s, arrivals);
    var s1 := RunFrom(senderOf, s, arrive);
    var cancel := MayCancel(senderOf, s1, cancelled);
    var s2 := RunFrom(senderOf, s1, cancel);
    var close := MayClose(senderOf, s2, closed);
    var s3 := RunFrom(senderOf, s2, close);
    var switch := SettingsMayBecome(senderOf, s3, inboxes, disabled);
    RunFromTwice(senderOf, s, arrive, cancel);
    RunFromTwice(senderOf, s, arrive + cancel, close);
    RunFromTwice(senderOf, s, arrive + cancel + close, switch);
    labels := arrive + cancel + close + switch;
  }

  lemma SettingsMayBecome(senderOf: string -> string, s: State, inboxes: map<int, Inbox>, disabled: set<int>) returns (labels: seq<Label>)
    ensures RunFrom(senderOf, s, labels) == s.(inboxes := inboxes, disabled := disabled)
  {
    hide RunFrom;
    var go := InboxesMayGo(senderOf, s, s.inboxes.Keys);
    assert s.inboxes - s.inboxes.Keys == map[];
    var s1 := RunFrom(senderOf, s, go);
    var come := InboxesMayCome(senderOf, s1, inboxes);
    assert map[] + inboxes == inboxes;
    var s2 := RunFrom(senderOf, s1, come);
    var enable := ContactsMaySwitch(senderOf, s2, s.disabled, true);
    var s3 := RunFrom(senderOf, s2, enable);
    assert s.disabled - s.disabled == {};
    var disable := ContactsMaySwitch(senderOf, s3, disabled, false);
    assert {} + disabled == disabled;
    RunFromTwice(senderOf, s, go, come);
    RunFromTwice(senderOf, s, go + come, enable);
    RunFromTwice(senderOf, s, go + come + enable, disable);
    labels := go + come + enable + disable;
  }
}
