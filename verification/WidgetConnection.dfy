/** One widget websocket connection: the loop over its frames, the client it registers with the live chat inbox, and
    the throttle on its frames. */
module WidgetConnection {
  import opened Prelude
  import opened SeqFilter

  const MAX_JOINS: nat := 10

  datatype Kind = Typing | PageVisit | Ping

  const MILLISECOND: int := 1_000_000

  function MinInterval(kind: Kind): int {
    match kind
    case Typing => 50 * MILLISECOND
    case PageVisit => 1000 * MILLISECOND
    case Ping => 1000 * MILLISECOND
  }

  /** A join is refused before a client is added, or the client is added and the confirmation cannot be written, or it
      succeeds. Users have positive ids. */
  datatype Join = Refused | Unconfirmed(user: int) | Joined(user: int)

  datatype Frame = JoinFrame(join: Join) | Timed(kind: Kind, now: int) | Unknown

  /** What one turn of the loop meets: whether the client was found closed, and the frame read, if reading did not fail. */
  datatype Input = Input(closed: bool, frame: Option<Frame>)

  datatype Client = Client(id: nat, user: int)

  datatype Event =
    | Added(client: Client)
    | Removed(client: Client)
    | Acted(user: int, kind: Kind)
    | Passed(kind: Kind, now: int)

  datatype Conn = Conn(client: Option<Client>, joins: nat, lastAt: map<Kind, int>, nextId: nat, open: bool, log: seq<Event>)

  const OPENED := Conn(None, 0, map[], 0, true, [])

  // ----- one turn of the loop

  function Allowed(lastAt: map<Kind, int>, kind: Kind, now: int): bool {
    kind in lastAt ==> now - lastAt[kind] >= MinInterval(kind)
  }

  function Dismissed(c: Conn): Conn {
    if c.client.Some? then c.(client := None, log := c.log + [Removed(c.client.value)]) else c
  }

  function AfterJoin(c: Conn, join: Join): Conn {
    match join
    case Refused => c
    case Unconfirmed(user) =>
      var added := Client(c.nextId, user);
      c.(nextId := c.nextId + 1, log := c.log + [Added(added), Removed(added)])
    case Joined(user) =>
      var added := Client(c.nextId, user);
      c.(nextId := c.nextId + 1, log := c.log + [Added(added)], client := Some(added))
  }

  /** Typing and page visits need a joined user before the throttle is asked; a ping is answered for anyone. */
  function AfterTimed(c: Conn, kind: Kind, now: int): Conn {
    if c.client.None? && kind != Ping then c
    else if !Allowed(c.lastAt, kind, now) then c
    else
      c.(lastAt := c.lastAt[kind := now],
         log := c.log + [Passed(kind, now)] + if c.client.Some? then [Acted(c.client.value.user, kind)] else [])
  }

  function Turn(c: Conn, input: Input): Conn {
    if !c.open then c
    else if (c.client.Some? && input.closed) || input.frame.None? then c.(open := false)
    else
      match input.frame.value
      case Unknown => c
      case Timed(kind, now) => AfterTimed(c, kind, now)
      case JoinFrame(join) =>
        var d := c.(joins := c.joins + 1);
        if d.joins > MAX_JOINS then d.(open := false) else AfterJoin(Dismissed(d), join)
  }

  function Turns(c: Conn, inputs: seq<Input>): Conn {
    if inputs == [] then c else Turn(Turns(c, inputs[..|inputs| - 1]), inputs[|inputs| - 1])
  }

  /** The connection after its last frame, with the deferred removal done. */
  function Served(inputs: seq<Input>): Conn {
    Dismissed(Turns(OPENED, inputs))
  }

  // ----- who is registered

  /** Nobody, one client, or a history no sequence of single registrations has. */
  datatype Registered = Nobody | One(client: Client) | Broken

  /** Reads a history: a client may be added only when none is registered, removed only when it is the registered one,
      and a frame acts only for the user of the registered client. */
  function Scan(log: seq<Event>): Registered {
    if log == [] then Nobody
    else
      match (Scan(log[..|log| - 1]), log[|log| - 1])
      case (Nobody, Added(c)) => One(c)
      case (One(c), Removed(d)) => if c == d then Nobody else Broken
      case (One(c), Acted(user, _)) => if c.user == user then One(c) else Broken
      case (r, Passed(_, _)) => r
      case _ => Broken
  }

  function IsAdd(): Event -> bool {
    (e: Event) => e.Added?
  }

  function Adds(log: seq<Event>): seq<Event> {
    Filter(IsAdd(), log)
  }

  function Adding(id: nat): Event -> bool {
    (e: Event) => e.Added? && e.client.id == id
  }

  function Removing(id: nat): Event -> bool {
    (e: Event) => e.Removed? && e.client.id == id
  }

  function Times(p: Event -> bool, log: seq<Event>): nat {
    |Filter(p, log)|
  }

  ghost predicate ConnOk(c: Conn) {
    && Scan(c.log) == (if c.client.Some? then One(c.client.value) else Nobody)
    && c.nextId <= c.joins
    && (c.open ==> c.joins <= MAX_JOINS)
    && |Adds(c.log)| == c.nextId <= MAX_JOINS
    && IdsFresh(c.log, c.nextId)
  }

  ghost predicate IdsFresh(log: seq<Event>, n: nat) {
    forall id: nat :: Times(Adding(id), log) == if id < n then 1 else 0
  }

  lemma ScanAppend(log: seq<Event>, e: Event)
    ensures Scan(log + [e]) ==
            match (Scan(log), e)
            case (Nobody, Added(c)) => One(c)
            case (One(c), Removed(d)) => (if c == d then Nobody else Broken)
            case (One(c), Acted(user, _)) => (if c.user == user then One(c) else Broken)
            case (r, Passed(_, _)) => r
            case _ => Broken
  {
    assert (log + [e])[..|log + [e]| - 1] == log;
  }

  lemma CountAppend(p: Event -> bool, log: seq<Event>, e: Event)
    ensures Times(p, log + [e]) == Times(p, log) + if p(e) then 1 else 0
  {
    FilterConcat(p, log, [e]);
    FilterOne(p, e);
  }

  lemma FreshAppend(log: seq<Event>, n: nat, e: Event)
    requires IdsFresh(log, n)
    ensures !e.Added? ==> IdsFresh(log + [e], n) && |Adds(log + [e])| == |Adds(log)|
    ensures e.Added? && e.client.id == n ==> IdsFresh(log + [e], n + 1) && |Adds(log + [e])| == |Adds(log)| + 1
  {
    hide Times;
    forall id: nat ensures Times(Adding(id), log + [e]) == Times(Adding(id), log) + if e.Added? && e.client.id == id then 1 else 0 {
      CountAppend(Adding(id), log, e);
    }
    AddsAppend(log, e);
  }

  lemma AddsAppend(log: seq<Event>, e: Event)
    ensures |Adds(log + [e])| == |Adds(log)| + if e.Added? then 1 else 0
  {
    CountAppend(IsAdd(), log, e);
  }

  lemma DismissKeeps(c: Conn)
    requires ConnOk(c)
    ensures ConnOk(Dismissed(c))
  {
    hide Scan, IdsFresh, Adds;
    if c.client.Some? {
      ScanAppend(c.log, Removed(c.client.value));
      FreshAppend(c.log, c.nextId, Removed(c.client.value));
    }
  }

  lemma JoinKeeps(c: Conn, join: Join)
    requires ConnOk(c) && c.open && c.client.None? && c.nextId < c.joins
    ensures ConnOk(AfterJoin(c, join))
  {
    hide Scan, IdsFresh, Adds;
    if !join.Refused? {
      var added := Client(c.nextId, join.user);
      ScanAppend(c.log, Added(added));
      FreshAppend(c.log, c.nextId, Added(added));
      var log := c.log + [Added(added)];
      ScanAppend(log, Removed(added));
      FreshAppend(log, c.nextId + 1, Removed(added));
      assert c.log + [Added(added), Removed(added)] == log + [Removed(added)];
    }
  }

  lemma TimedKeeps(c: Conn, kind: Kind, now: int)
    requires ConnOk(c)
    ensures ConnOk(AfterTimed(c, kind, now))
  {
    hide Scan, IdsFresh, Adds, Allowed;
    var e := Passed(kind, now);
    ScanAppend(c.log, e);
    FreshAppend(c.log, c.nextId, e);
    if c.client.Some? {
      var log, f := c.log + [e], Acted(c.client.value.user, kind);
      ScanAppend(log, f);
      FreshAppend(log, c.nextId, f);
    } else {
      assert c.log + [e] + [] == c.log + [e];
    }
  }

  lemma TurnKeeps(c: Conn, input: Input)
    requires ConnOk(c)
    ensures ConnOk(Turn(c, input))
  {
    hide Scan, IdsFresh, Adds;
    if c.open && input.frame.Some? && !(c.client.Some? && input.closed) {
      match input.frame.value
      case Unknown =>
      case Timed(kind, now) => TimedKeeps(c, kind, now);
      case JoinFrame(join) =>
        var d := c.(joins := c.joins + 1);
        if d.joins <= MAX_JOINS {
          DismissKeeps(d);
          JoinKeeps(Dismissed(d), join);
        }
    }
  }

  lemma {:induction false} TurnsKeep(inputs: seq<Input>)
    ensures ConnOk(Turns(OPENED, inputs))
  {
    hide Turn;
    if inputs != [] {
      hide ConnOk;
      TurnsKeep(inputs[..|inputs| - 1]);
      TurnKeeps(Turns(OPENED, inputs[..|inputs| - 1]), inputs[|inputs| - 1]);
    }
  }

  /** For any frames: in every prefix of the history at most one client is registered, and all frames that act do so for
      its user; at the end nobody is, and at most ten were ever added. */
  lemma OneClientAtATime(inputs: seq<Input>, i: nat)
    requires i <= |Served(inputs).log|
    ensures !Scan(Served(inputs).log[..i]).Broken?
    ensures Scan(Served(inputs).log).Nobody?
    ensures |Adds(Served(inputs).log)| <= 10
  {
    TurnsKeep(inputs);
    DismissKeeps(Turns(OPENED, inputs));
    hide Turns;
    if Scan(Served(inputs).log[..i]).Broken? {
      BrokenStays(Served(inputs).log, i);
    }
  }

  lemma {:induction false} BrokenStays(log: seq<Event>, i: nat)
    requires i <= |log| && Scan(log[..i]).Broken?
    ensures Scan(log).Broken?
    decreases |log| - i
  {
    if i < |log| {
      assert log[..i + 1][..i] == log[..i];
      BrokenStays(log, i + 1);
    } else {
      assert log[..i] == log;
    }
  }

  /** In an unbroken history a client was removed as often as it was added, once less while it is registered. */
  lemma {:induction false} RemovedAsOftenAsAdded(log: seq<Event>, id: nat)
    requires !Scan(log).Broken?
    ensures Times(Adding(id), log) == Times(Removing(id), log) + match Scan(log)
                                                                  case One(c) => (if c.id == id then 1 else 0)
                                                                  case _ => 0
  {
    if log != [] {
      var front, e := log[..|log| - 1], log[|log| - 1];
      assert log == front + [e];
      RemovedAsOftenAsAdded(front, id);
      CountAppend(Adding(id), front, e);
      CountAppend(Removing(id), front, e);
      hide Times;
    }
  }

  /** Every client the connection added is removed exactly once by the time it ends. */
  lemma EachClientRemovedOnce(inputs: seq<Input>, id: nat)
    ensures Times(Adding(id), Served(inputs).log) == Times(Removing(id), Served(inputs).log)
            == if id < Served(inputs).nextId then 1 else 0
  {
    TurnsKeep(inputs);
    DismissKeeps(Turns(OPENED, inputs));
    hide Turns, Times, Scan;
    RemovedAsOftenAsAdded(Served(inputs).log, id);
  }

  // ----- the throttle

  /** The moments frames of a kind passed, in order. */
  function PassTimes(kind: Kind, log: seq<Event>): seq<int> {
    if log == [] then []
    else
      var e := log[|log| - 1];
      PassTimes(kind, log[..|log| - 1]) + if e.Passed? && e.kind == kind then [e.now] else []
  }

  predicate Gaps(ts: seq<int>, d: int) {
    forall i, j | 0 <= i < j < |ts| :: ts[j] - ts[i] >= d
  }

  /** The throttle remembers the last moment a frame of each kind passed. */
  predicate ThrottleOk(c: Conn, kind: Kind) {
    var ts := PassTimes(kind, c.log);
    && Gaps(ts, MinInterval(kind))
    && (kind in c.lastAt <==> ts != [])
    && (ts != [] ==> c.lastAt[kind] == ts[|ts| - 1])
  }

  lemma {:induction false} PassTimesConcat(kind: Kind, log: seq<Event>, more: seq<Event>)
    ensures PassTimes(kind, log + more) == PassTimes(kind, log) + PassTimes(kind, more)
  {
    if more == [] {
      assert log + more == log;
    } else {
      PassTimesConcat(kind, log, more[..|more| - 1]);
      assert (log + more)[..|log + more| - 1] == log + more[..|more| - 1];
    }
  }

  lemma OtherEventsDoNotPass(kind: Kind, e: Event)
    ensures PassTimes(kind, [e]) == if e.Passed? && e.kind == kind then [e.now] else []
  {
    assert [e][..0] == [];
  }

  lemma PassKeepsGaps(ts: seq<int>, now: int, d: int)
    requires Gaps(ts, d) && d >= 0
    requires ts != [] ==> now - ts[|ts| - 1] >= d
    ensures Gaps(ts + [now], d)
  {
  }

  lemma QuietKeepsThrottle(c: Conn, t: Conn, kind: Kind, more: seq<Event>)
    requires ThrottleOk(c, kind) && t.lastAt == c.lastAt && t.log == c.log + more
    requires forall e | e in more :: !e.Passed?
    ensures ThrottleOk(t, kind)
    decreases |more|
  {
    PassTimesConcat(kind, c.log, more);
    NothingPasses(kind, more);
  }

  lemma {:induction false} NothingPasses(kind: Kind, more: seq<Event>)
    requires forall e | e in more :: !e.Passed?
    ensures PassTimes(kind, more) == []
  {
    if more != [] {
      assert more[|more| - 1] in more;
      NothingPasses(kind, more[..|more| - 1]);
    }
  }

  lemma TimedKeepsThrottle(c: Conn, kind: Kind, passing: Kind, now: int)
    requires ThrottleOk(c, kind)
    ensures ThrottleOk(AfterTimed(c, passing, now), kind)
  {
    hide PassTimes, Gaps;
    var t := AfterTimed(c, passing, now);
    if t.log != c.log {
      var ts := PassTimes(kind, c.log);
      var acted := if c.client.Some? then [Acted(c.client.value.user, passing)] else [];
      PassTimesConcat(kind, c.log + [Passed(passing, now)], acted);
      PassTimesConcat(kind, c.log, [Passed(passing, now)]);
      NothingPasses(kind, acted);
      OtherEventsDoNotPass(kind, Passed(passing, now));
      if passing == kind {
        PassKeepsGaps(ts, now, MinInterval(kind));
        assert PassTimes(kind, t.log) == ts + [now];
      } else {
        assert PassTimes(kind, t.log) == ts;
      }
    }
  }

  lemma TurnKeepsThrottle(c: Conn, kind: Kind, input: Input)
    requires ThrottleOk(c, kind)
    ensures ThrottleOk(Turn(c, input), kind)
  {
    hide ThrottleOk;
    if input.frame.Some? && input.frame.value.Timed? {
      TimedKeepsThrottle(c, kind, input.frame.value.kind, input.frame.value.now);
      QuietKeepsThrottle(c, c.(open := false), kind, []);
    } else {
      var t := Turn(c, input);
      var more := t.log[|c.log|..];
      assert t.log == c.log + more && t.lastAt == c.lastAt;
      QuietKeepsThrottle(c, t, kind, more);
    }
  }

  lemma {:induction false} TurnsKeepThrottle(kind: Kind, inputs: seq<Input>)
    ensures ThrottleOk(Turns(OPENED, inputs), kind)
  {
    if inputs != [] {
      hide ThrottleOk, Turn;
      TurnsKeepThrottle(kind, inputs[..|inputs| - 1]);
      TurnKeepsThrottle(Turns(OPENED, inputs[..|inputs| - 1]), kind, inputs[|inputs| - 1]);
    }
  }

  function Within(start: int, length: int): int -> bool {
    (t: int) => start <= t <= start + length
  }

  lemma {:induction false} FilterKeepsGaps(p: int -> bool, ts: seq<int>, d: int)
    requires Gaps(ts, d)
    ensures Gaps(Filter(p, ts), d)
  {
    if ts != [] {
      var front, last := ts[..|ts| - 1], ts[|ts| - 1];
      FilterKeepsGaps(p, front, d);
      FilterMembers(p, front);
      var some := Filter(p, front);
      forall i | 0 <= i < |some| ensures last - some[i] >= d {
        assert some[i] in front;
        var j :| 0 <= j < |front| && front[j] == some[i];
        assert ts[j] == some[i];
      }
    }
  }

  lemma {:induction false} GapsAddUp(ts: seq<int>, d: int, k: nat)
    requires Gaps(ts, d) && k < |ts|
    ensures ts[k] - ts[0] >= k * d
  {
    if k > 0 {
      GapsAddUp(ts, d, k - 1);
      assert ts[k] - ts[k - 1] >= d;
      assert k * d == (k - 1) * d + d;
    }
  }

  lemma FloorBound(n: nat, d: int, length: int)
    requires d > 0 && length >= 0 && n * d <= length
    ensures n <= length / d
  {
    var q := length / d;
    assert length < (q + 1) * d;
    if n >= q + 1 {
      ProductOrder(q + 1, n, d);
    }
  }

  lemma ProductOrder(a: int, b: int, d: int)
    requires a <= b && d > 0
    ensures a * d <= b * d
  {
  }

  lemma ServedKeepsThrottle(kind: Kind, inputs: seq<Input>)
    ensures Gaps(PassTimes(kind, Served(inputs).log), MinInterval(kind))
  {
    TurnsKeepThrottle(kind, inputs);
    var c := Turns(OPENED, inputs);
    hide Turns, PassTimes, Gaps;
    QuietKeepsThrottle(c, Dismissed(c), kind, if c.client.Some? then [Removed(c.client.value)] else []);
  }

  lemma WindowOfGaps(ts: seq<int>, d: int, start: int, length: nat)
    requires Gaps(ts, d) && d > 0
    ensures |Filter(Within(start, length), ts)| <= length / d + 1
  {
    var seen := Filter(Within(start, length), ts);
    FilterKeepsGaps(Within(start, length), ts, d);
    FilterMembers(Within(start, length), ts);
    if seen != [] {
      GapsAddUp(seen, d, |seen| - 1);
      assert seen[0] in seen && seen[|seen| - 1] in seen;
      FloorBound(|seen| - 1, d, length);
    }
  }

  /** Whatever the frames and however the clock moves: in any window of a length, at most the whole number of intervals
      in it plus one frames of a kind pass. */
  lemma WindowBound(inputs: seq<Input>, kind: Kind, start: int, length: nat)
    ensures |Filter(Within(start, length), PassTimes(kind, Served(inputs).log))| <= length / MinInterval(kind) + 1
  {
    ServedKeepsThrottle(kind, inputs);
    hide Served, PassTimes;
    WindowOfGaps(PassTimes(kind, Served(inputs).log), MinInterval(kind), start, length);
  }

  /** A frame read from an open connection passes exactly when someone is joined, or it is a ping, and none of its kind
      passed before or the last one at least 50 milliseconds ago, a whole second for page visits and pings. Then it acts
      for the user who is joined. */
  lemma PassesExactly(inputs: seq<Input>, closed: bool, kind: Kind, now: int)
    requires var c := Turns(OPENED, inputs); c.open && !(closed && Scan(c.log).One?)
    ensures var c, c' := Turns(OPENED, inputs), Turns(OPENED, inputs + [Input(closed, Some(Timed(kind, now)))]);
            var ts, registered := PassTimes(kind, c.log), Scan(c.log);
            var gap := if kind == Typing then 50_000_000 else 1_000_000_000;
            && c'.open
            && if (registered.One? || kind == Ping) && (ts == [] || now - ts[|ts| - 1] >= gap) then
                 c'.log == c.log + [Passed(kind, now)] + if registered.One? then [Acted(registered.client.user, kind)] else []
               else c'.log == c.log
  {
    TurnsKeep(inputs);
    TurnsKeepThrottle(kind, inputs);
    assert (inputs + [Input(closed, Some(Timed(kind, now)))])[..|inputs|] == inputs;
    hide PassTimes, Scan, Gaps, IdsFresh, Adds;
  }

  /** The join frames among the first inputs. */
  function Joins(inputs: seq<Input>): nat {
    if inputs == [] then 0
    else
      var last := inputs[|inputs| - 1].frame;
      Joins(inputs[..|inputs| - 1]) + if last.Some? && last.value.JoinFrame? then 1 else 0
  }

  lemma {:induction false} JoinsCounted(inputs: seq<Input>)
    ensures Turns(OPENED, inputs).open ==> Turns(OPENED, inputs).joins == Joins(inputs)
  {
    if inputs != [] {
      JoinsCounted(inputs[..|inputs| - 1]);
      JoinCounted(Turns(OPENED, inputs[..|inputs| - 1]), inputs[|inputs| - 1]);
      hide Turn;
    }
  }

  lemma JoinCounted(c: Conn, input: Input)
    ensures Turn(c, input).open ==>
              c.open && Turn(c, input).joins == c.joins + if input.frame.Some? && input.frame.value.JoinFrame? then 1 else 0
  {
  }

  /** The first ten joins of a connection each remove the client before, if there is one, and then register the new one,
      remove it again when it cannot be told so, or are refused; an eleventh closes the connection. */
  lemma JoinsExactly(inputs: seq<Input>, closed: bool, join: Join)
    requires var c := Turns(OPENED, inputs); c.open && !(closed && Scan(c.log).One?)
    ensures var c, c' := Turns(OPENED, inputs), Turns(OPENED, inputs + [Input(closed, Some(JoinFrame(join)))]);
            var before := c.log + if Scan(c.log).One? then [Removed(Scan(c.log).client)] else [];
            if Joins(inputs) < 10 then
              && c'.open
              && match join
                 case Refused => c'.log == before
                 case Unconfirmed(user) => exists id :: c'.log == before + [Added(Client(id, user)), Removed(Client(id, user))]
                 case Joined(user) => exists id :: c'.log == before + [Added(Client(id, user))]
            else !c'.open && c'.log == c.log
  {
    TurnsKeep(inputs);
    JoinsCounted(inputs);
    assert (inputs + [Input(closed, Some(JoinFrame(join)))])[..|inputs|] == inputs;
    hide Scan, IdsFresh, Adds, Joins;
  }

  /** A connection ends when a frame cannot be read or its client is found closed, and an unknown frame does nothing. */
  lemma EndsExactly(inputs: seq<Input>, input: Input)
    requires Turns(OPENED, inputs).open && (input.frame.None? || input.frame == Some(Unknown))
    ensures var c, c' := Turns(OPENED, inputs), Turns(OPENED, inputs + [input]);
            c'.log == c.log && (c'.open <==> input.frame.Some? && !(input.closed && Scan(c.log).One?))
  {
    TurnsKeep(inputs);
    assert (inputs + [input])[..|inputs|] == inputs;
    hide Scan, IdsFresh, Adds;
  }

  // ----- the program

  class Connection {
    var client: Option<Client>
    var joins: nat
    var lastAt: map<Kind, int>
    var nextId: nat
    ghost var log: seq<Event>

    constructor ()
      ensures View(true) == OPENED
    {
      client, joins, lastAt, nextId, log := None, 0, map[], 0, [];
    }

    ghost function View(open: bool): Conn
      reads this
    {
      Conn(client, joins, lastAt, nextId, open, log)
    }

    method Allow(kind: Kind, now: int) returns (ok: bool)
      modifies this`lastAt
      ensures ok == Allowed(old(lastAt), kind, now)
      ensures ok <==> kind !in old(lastAt) || now - old(lastAt)[kind] >= (if kind == Typing then 50_000_000 else 1_000_000_000)
      ensures lastAt == if ok then old(lastAt)[kind := now] else old(lastAt)
    {
      if kind in lastAt && now - lastAt[kind] < MinInterval(kind) {
        return false;
      }
      lastAt := lastAt[kind := now];
      return true;
    }

    method RemoveClient()
      modifies this`client, this`log
      ensures forall open :: View(open) == Dismissed(old(View(open)))
      ensures client.None?
    {
      if client.Some? {
        log := log + [Removed(client.value)];
        client := None;
      }
    }

    method HandleInboxJoin(join: Join)
      requires client.None?
      modifies this`client, this`nextId, this`log
      ensures View(true) == AfterJoin(old(View(true)), join)
    {
      if join.Refused? {
        return;
      }
      var added := Client(nextId, join.user);
      nextId := nextId + 1;
      log := log + [Added(added)];
      if join.Unconfirmed? {
        log := log + [Removed(added)];
        return;
      }
      client := Some(added);
    }

    method HandleTimed(kind: Kind, now: int)
      modifies this`lastAt, this`log
      ensures View(true) == AfterTimed(old(View(true)), kind, now)
    {
      if client.None? && kind != Ping {
        return;
      }
      var ok := Allow(kind, now);
      if !ok {
        return;
      }
      log := log + [Passed(kind, now)];
      if client.Some? {
        log := log + [Acted(client.value.user, kind)];
      }
    }

    /** Serves the connection until a frame cannot be read, the client is found closed or the joins are used up, and
        removes the client on the way out. */
    method Serve(inputs: seq<Input>)
      requires View(true) == OPENED
      modifies this
      ensures exists open :: View(open) == Served(inputs)
    {
      var open := true;
      ghost var turns: nat := 0;
      for i := 0 to |inputs|
        invariant open && turns == i
        invariant View(open) == Turns(OPENED, inputs[..i])
      {
        assert inputs[..i + 1][..i] == inputs[..i];
        turns := i + 1;
        hide AfterJoin, AfterTimed, Dismissed;
        if client.Some? && inputs[i].closed {
          open := false;
          break;
        }
        if inputs[i].frame.None? {
          open := false;
          break;
        }
        match inputs[i].frame.value
        case Unknown =>
        case Timed(kind, now) => HandleTimed(kind, now);
        case JoinFrame(join) =>
          joins := joins + 1;
          if joins > MAX_JOINS {
            open := false;
            break;
          }
          RemoveClient();
          HandleInboxJoin(join);
      }
      assert View(open) == Turns(OPENED, inputs[..turns]);
      ClosedStays(inputs, turns);
      RemoveClient();
      assert View(open) == Served(inputs);
    }
  }

  /** A connection that is closed does not change any more. */
  lemma {:induction false} ClosedStays(inputs: seq<Input>, i: nat)
    requires i <= |inputs|
    requires i == |inputs| || !Turns(OPENED, inputs[..i]).open
    ensures Turns(OPENED, inputs[..i]) == Turns(OPENED, inputs)
    decreases |inputs| - i
  {
    if i < |inputs| {
      assert inputs[..i + 1][..i] == inputs[..i];
      ClosedStays(inputs, i + 1);
    } else {
      assert inputs[..i] == inputs;
    }
  }
}
