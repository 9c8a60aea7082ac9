/** Logins under the read lock and account changes under the write lock, step by step, over the account table
    and the session store. A session is named by the moment it was saved. */
module Sessions {
  /** `changedAt` is the moment of the last password change, disabling or deletion; `clearedAt` the moment of the last
      such change whose sessions were then destroyed without error. Both are -1 when there was none. */
  datatype Account = Account(enabled: bool, deleted: bool, password: string, changedAt: int, clearedAt: int)

  datatype Credential = Password(password: string) | Oidc

  datatype Session = Session(user: int, credential: Credential)

  /** A login handler inside the read lock. */
  datatype Reader = Entered | Checked(user: int, credential: Credential) | Leaving

  datatype Handler =
    | UpdateAgent(user: int, newPassword: string, enabled: bool)
    | DeleteAgent(user: int)
    | SetPassword(user: int, newPassword: string)

  /** The handler inside the write lock, if there is one. */
  datatype Writer = NoWriter | Changing(handler: Handler) | Destroying(user: int) | Done

  datatype State = State(accounts: map<int, Account>, live: map<nat, Session>, missed: set<nat>,
                         readers: map<nat, Reader>, writer: Writer, clock: nat)

  datatype Label =
    | Create(user: int, password: string)
    | TakeRead(tid: nat)
    | Check(tid: nat, user: int, credential: Credential)
    | Save(tid: nat, ok: bool)
    | ReleaseRead(tid: nat)
    | TakeWrite(handler: Handler)
    | Change(ok: bool)
    | Destroy(ok: bool, kept: set<nat>)
    | ReleaseWrite
    | End(ids: set<nat>)

  /** What both login handlers ask of the account before they save a session. */
  predicate MayLogIn(accounts: map<int, Account>, user: int, credential: Credential) {
    && user in accounts
    && !accounts[user].deleted
    && accounts[user].enabled
    && (credential.Password? ==> credential.password == accounts[user].password)
  }

  /** Whether the handler finds its account: a deleted agent is not found for an update, but still for a delete or by a reset token. */
  predicate Finds(accounts: map<int, Account>, h: Handler) {
    h.user in accounts && (h.UpdateAgent? ==> !accounts[h.user].deleted)
  }

  /** Whether the handler goes on to destroy the sessions of the agent. */
  predicate Revokes(h: Handler) {
    h.UpdateAgent? ==> h.newPassword != "" || !h.enabled
  }

  function Changed(a: Account, h: Handler, now: nat): Account {
    var b := match h
      case UpdateAgent(_, password, enabled) => a.(enabled := enabled, password := if password != "" then password else a.password)
      case DeleteAgent(_) => a.(deleted := true)
      case SetPassword(_, password) => a.(password := password);
    if Revokes(h) then b.(changedAt := now) else b
  }

  /** The sessions of a user that a failed call to destroy them leaves, when it leaves those in `kept`. */
  function LeftBehind(live: map<nat, Session>, user: int, kept: set<nat>): set<nat> {
    set id | id in kept && id in live && live[id].user == user
  }

  function Destroyed(live: map<nat, Session>, user: int, left: set<nat>): map<nat, Session> {
    map id | id in live && (live[id].user != user || id in left) :: live[id]
  }

  /** One step. A label that is not enabled only lets time pass. */
  function Next(s: State, l: Label): State {
    Step(s, l).(clock := s.clock + 1)
  }

  function Step(s: State, l: Label): State {
    match l
    case Create(user, password) =>
      if user in s.accounts then s else s.(accounts := s.accounts[user := Account(true, false, password, -1, -1)])
    case TakeRead(tid) =>
      if s.writer.NoWriter? && tid !in s.readers then s.(readers := s.readers[tid := Entered]) else s
    case Check(tid, user, credential) =>
      if tid in s.readers && s.readers[tid].Entered? then
        s.(readers := s.readers[tid := if MayLogIn(s.accounts, user, credential) then Checked(user, credential) else Leaving])
      else s
    case Save(tid, ok) =>
      if tid in s.readers && s.readers[tid].Checked? then
        var r := s.readers[tid];
        s.(readers := s.readers[tid := Leaving],
           live := if ok then s.live[s.clock := Session(r.user, r.credential)] else s.live)
      else s
    case ReleaseRead(tid) =>
      if tid in s.readers && s.readers[tid].Leaving? then s.(readers := s.readers - {tid}) else s
    case TakeWrite(handler) =>
      if s.writer.NoWriter? && s.readers == map[] then s.(writer := Changing(handler)) else s
    case Change(ok) =>
      if !s.writer.Changing? then s
      else if ok && Finds(s.accounts, s.writer.handler) then
        var h := s.writer.handler;
        s.(accounts := s.accounts[h.user := Changed(s.accounts[h.user], h, s.clock)],
           writer := if Revokes(h) then Destroying(h.user) else Done)
      else s.(writer := Done)
    case Destroy(ok, kept) =>
      if !s.writer.Destroying? then s
      else
        var u := s.writer.user;
        var left := if ok then {} else LeftBehind(s.live, u, kept);
        s.(live := Destroyed(s.live, u, left),
           missed := s.missed + left,
           accounts := if ok && u in s.accounts then s.accounts[u := s.accounts[u].(clearedAt := s.accounts[u].changedAt)] else s.accounts,
           writer := Done)
    case ReleaseWrite =>
      if s.writer.Done? then s.(writer := NoWriter) else s
    case End(ids) =>
      s.(live := s.live - ids)
  }

  function Run(s: State, labels: seq<Label>): State {
    if labels == [] then s else Next(Run(s, labels[..|labels| - 1]), labels[|labels| - 1])
  }

  const BOOT := State(map[], map[], {}, map[], NoWriter, 0)

  // ----- the promise

  /** A live session that should not be: its agent is gone, disabled, or changed since. */
  predicate Stale(s: State, id: nat)
    requires id in s.live
  {
    var u := s.live[id].user;
    u !in s.accounts || s.accounts[u].deleted || !s.accounts[u].enabled || id <= s.accounts[u].changedAt
  }

  /** Every live session belongs to an enabled, undeleted agent and was saved after the agent's last change. */
  predicate Promise(s: State) {
    forall id | id in s.live :: !Stale(s, id)
  }

  // ----- what every step keeps

  predicate TimesOk(s: State) {
    && (forall id | id in s.live :: id < s.clock)
    && (forall u | u in s.accounts :: s.accounts[u].clearedAt <= s.accounts[u].changedAt < s.clock)
  }

  predicate LockOk(s: State) {
    !s.writer.NoWriter? ==> s.readers == map[]
  }

  predicate CheckedOk(s: State) {
    forall t | t in s.readers && s.readers[t].Checked? :: MayLogIn(s.accounts, s.readers[t].user, s.readers[t].credential)
  }

  predicate BeingDestroyed(s: State, id: nat)
    requires id in s.live
  {
    s.writer.Destroying? && s.writer.user == s.live[id].user
  }

  predicate SessionOk(s: State, id: nat)
    requires id in s.live
  {
    var u := s.live[id].user;
    && u in s.accounts
    && id > s.accounts[u].clearedAt
    && (id in s.missed ==> id <= s.accounts[u].changedAt)
    && (id !in s.missed && !BeingDestroyed(s, id) ==>
          !Stale(s, id) && MayLogIn(s.accounts, u, s.live[id].credential))
  }

  predicate SessionsOk(s: State) {
    forall id | id in s.live :: SessionOk(s, id)
  }

  predicate WriterOk(s: State) {
    s.writer.Destroying? ==> s.writer.user in s.accounts && forall id | id in s.live && BeingDestroyed(s, id) :: id <= s.accounts[s.writer.user].changedAt
  }

  predicate Ok(s: State) {
    && TimesOk(s)
    && LockOk(s)
    && CheckedOk(s)
    && SessionsOk(s)
    && WriterOk(s)
    && forall id | id in s.missed :: id < s.clock
  }

  lemma ChangeKeeps(s: State, ok: bool)
    requires Ok(s)
    ensures Ok(Next(s, Change(ok)))
  {
  }

  lemma DestroyKeeps(s: State, ok: bool, kept: set<nat>)
    requires Ok(s)
    ensures Ok(Next(s, Destroy(ok, kept)))
  {
  }

  lemma EnterLeaveKeeps(s: State, l: Label)
    requires Ok(s) && (l.TakeRead? || l.ReleaseRead?)
    ensures Ok(Next(s, l))
  {
    hide MayLogIn;
  }

  lemma CheckKeeps(s: State, tid: nat, user: int, credential: Credential)
    requires Ok(s)
    ensures Ok(Next(s, Check(tid, user, credential)))
  {
    hide MayLogIn;
  }

  lemma SaveKeeps(s: State, tid: nat, ok: bool)
    requires Ok(s)
    ensures Ok(Next(s, Save(tid, ok)))
  {
  }

  lemma WriterKeeps(s: State, l: Label)
    requires Ok(s) && (l.TakeWrite? || l.ReleaseWrite?)
    ensures Ok(Next(s, l))
  {
  }

  lemma CreateKeeps(s: State, user: int, password: string)
    requires Ok(s)
    ensures Ok(Next(s, Create(user, password)))
  {
  }

  lemma EndKeeps(s: State, ids: set<nat>)
    requires Ok(s)
    ensures Ok(Next(s, End(ids)))
  {
  }

  lemma NextKeeps(s: State, l: Label)
    requires Ok(s)
    ensures Ok(Next(s, l))
  {
    hide Ok, Next;
    match l
    case Change(ok) => ChangeKeeps(s, ok);
    case Destroy(ok, kept) => DestroyKeeps(s, ok, kept);
    case Create(user, password) => CreateKeeps(s, user, password);
    case End(ids) => EndKeeps(s, ids);
    case TakeWrite(_) => WriterKeeps(s, l);
    case ReleaseWrite => WriterKeeps(s, l);
    case Check(tid, user, credential) => CheckKeeps(s, tid, user, credential);
    case Save(tid, ok) => SaveKeeps(s, tid, ok);
    case _ => EnterLeaveKeeps(s, l);
  }

  lemma {:induction false} RunKeeps(s: State, labels: seq<Label>)
    requires Ok(s)
    ensures Ok(Run(s, labels))
  {
    hide Ok, Next;
    if labels != [] {
      RunKeeps(s, labels[..|labels| - 1]);
      NextKeeps(Run(s, labels[..|labels| - 1]), labels[|labels| - 1]);
    }
  }

  /** The lock lets in any number of logins while no handler writes, and a handler exactly when nobody is inside. */
  lemma LockAdmits(s: State, tid: nat, h: Handler)
    ensures tid !in s.readers ==> (tid in Next(s, TakeRead(tid)).readers <==> s.writer == NoWriter)
    ensures s.writer == NoWriter ==> (Next(s, TakeWrite(h)).writer == Changing(h) <==> s.readers == map[])
    ensures s.writer != NoWriter ==> Next(s, TakeWrite(h)).writer == s.writer
  {
  }

  /** Sessions may also end on their own, at any moment and whoever holds the lock. */
  lemma SessionsMayEnd(s: State, ids: set<nat>)
    ensures var s' := Next(s, End(ids));
            && s'.live.Keys == s.live.Keys - ids && (forall id | id in s'.live :: s'.live[id] == s.live[id])
            && s'.accounts == s.accounts && s'.readers == s.readers && s'.writer == s.writer
  {
  }

  // ----- over whole runs

  /** With no write-locked handler running, every live session is of an enabled, undeleted agent and newer than the agent's
      last change, if and only if no live session was left behind by a call that failed to destroy those of its agent. */
  lemma PromiseHoldsExactly(labels: seq<Label>)
    ensures var s := Run(BOOT, labels);
            s.writer.NoWriter? ==>
              ((forall id | id in s.live ::
                  var u := s.live[id].user;
                  u in s.accounts && s.accounts[u].enabled && !s.accounts[u].deleted && id > s.accounts[u].changedAt)
               <==> forall id | id in s.live :: id !in s.missed)
  {
    RunKeeps(BOOT, labels);
    var s := Run(BOOT, labels);
    hide Run;
    if s.writer.NoWriter? {
      forall id | id in s.live ensures SessionOk(s, id) && !BeingDestroyed(s, id) {
      }
    }
  }

  /** Whatever failed, and even while a handler runs: a live session was saved after its agent's last change whose
      sessions were destroyed without error. */
  lemma SavedAfterLastClear(labels: seq<Label>)
    ensures var s := Run(BOOT, labels);
            forall id | id in s.live :: s.live[id].user in s.accounts && id > s.accounts[s.live[id].user].clearedAt
  {
    RunKeeps(BOOT, labels);
    var s := Run(BOOT, labels);
    hide Run;
    forall id | id in s.live ensures s.live[id].user in s.accounts && id > s.accounts[s.live[id].user].clearedAt {
      assert SessionOk(s, id);
    }
  }

  /** While no call failed to destroy sessions, a password session was opened with the password the account has now. */
  lemma SessionsKnowThePassword(labels: seq<Label>)
    ensures var s := Run(BOOT, labels);
            s.writer.NoWriter? && s.missed == {} ==>
              forall id | id in s.live ::
                var u := s.live[id].user;
                u in s.accounts && (s.live[id].credential.Password? ==> s.live[id].credential.password == s.accounts[u].password)
  {
    RunKeeps(BOOT, labels);
    var s := Run(BOOT, labels);
    hide Run;
    if s.writer.NoWriter? && s.missed == {} {
      forall id | id in s.live ensures SessionOk(s, id) && MayLogIn(s.accounts, s.live[id].user, s.live[id].credential) {
        assert SessionOk(s, id);
      }
    }
  }

  predicate DestroyFails(l: Label) {
    l.Destroy? && !l.ok && l.kept != {}
  }

  lemma StepMisses(s: State, l: Label)
    requires s.missed == {} && !DestroyFails(l)
    ensures Next(s, l).missed == {}
  {
    hide MayLogIn, Finds, Changed, Destroyed;
  }

  lemma {:induction false} NothingMissed(labels: seq<Label>)
    requires forall l | l in labels :: !DestroyFails(l)
    ensures Run(BOOT, labels).missed == {}
  {
    hide Next, DestroyFails;
    if labels != [] {
      assert labels[|labels| - 1] in labels;
      NothingMissed(labels[..|labels| - 1]);
      StepMisses(Run(BOOT, labels[..|labels| - 1]), labels[|labels| - 1]);
    }
  }

  /** In a run in which destroying sessions never fails, the promise holds whenever no write-locked handler runs. */
  lemma PromiseWithoutFailures(labels: seq<Label>)
    requires forall l | l in labels :: !DestroyFails(l)
    ensures Run(BOOT, labels).writer.NoWriter? ==> Promise(Run(BOOT, labels))
  {
    NothingMissed(labels);
    PromiseHoldsExactly(labels);
    hide Run;
  }

  // ----- one login

  /** The steps of one login, from taking the read lock to releasing it. */
  function LoggedIn(s: State, user: int, credential: Credential, saveOk: bool): State {
    Next(Next(Next(Next(s, TakeRead(0)), Check(0, user, credential)), Save(0, saveOk)), ReleaseRead(0))
  }

  lemma LoginChecks(s: State, user: int, credential: Credential)
    requires s.writer.NoWriter? && s.readers == map[]
    ensures Next(Next(s, TakeRead(0)), Check(0, user, credential)) ==
            s.(clock := s.clock + 2,
               readers := map[0 := if MayLogIn(s.accounts, user, credential) then Checked(user, credential) else Leaving])
  {
    hide MayLogIn;
    var s1 := Next(s, TakeRead(0));
    assert s1 == s.(clock := s.clock + 1, readers := map[0 := Entered]);
  }

  lemma LoginSaves(s: State, r: Reader, saveOk: bool)
    requires s.readers == map[0 := r] && !r.Entered?
    ensures Next(Next(s, Save(0, saveOk)), ReleaseRead(0)) ==
            s.(clock := s.clock + 2, readers := map[],
               live := if saveOk && r.Checked? then s.live[s.clock := Session(r.user, r.credential)] else s.live)
  {
    var s1 := Next(s, Save(0, saveOk));
    assert s1.readers == map[0 := Leaving];
  }

  /** What one login does, in one piece: it saves a session or nothing. */
  lemma LoginState(s: State, user: int, credential: Credential, saveOk: bool)
    requires s.writer.NoWriter? && s.readers == map[]
    ensures LoggedIn(s, user, credential, saveOk) ==
            s.(clock := s.clock + 4,
               live := if saveOk && MayLogIn(s.accounts, user, credential)
                       then s.live[s.clock + 2 := Session(user, credential)] else s.live)
  {
    hide MayLogIn, Next;
    LoginChecks(s, user, credential);
    var s2 := Next(Next(s, TakeRead(0)), Check(0, user, credential));
    LoginSaves(s2, s2.readers[0], saveOk);
  }

  // ----- one handler

  /** The steps of one write-locked handler, from taking the lock to releasing it. */
  function Handled(s: State, h: Handler, ok: bool, destroyed: bool, kept: set<nat>): State {
    Next(Next(Next(Next(s, TakeWrite(h)), Change(ok)), Destroy(destroyed, kept)), ReleaseWrite)
  }

  /** The live sessions of the handler's agent that outlive a failed call to destroy them. */
  predicate LeavesSome(s: State, h: Handler, kept: set<nat>) {
    exists id :: id in kept && id in s.live && s.live[id].user == h.user
  }

  /** A handler keeps the promise if and only if it changes nothing that revokes, or its sessions are destroyed, or the
      failed call left none of them. */
  lemma HandlerKeepsPromiseExactly(s: State, h: Handler, ok: bool, destroyed: bool, kept: set<nat>)
    requires Ok(s) && Promise(s) && s.writer.NoWriter? && s.readers == map[]
    ensures Promise(Handled(s, h, ok, destroyed, kept)) <==>
            !(ok && Finds(s.accounts, h) && Revokes(h) && !destroyed && LeavesSome(s, h, kept))
  {
    var s1 := Next(s, TakeWrite(h));
    var s2 := Next(s1, Change(ok));
    var s3 := Next(s2, Destroy(destroyed, kept));
    var s4 := Next(s3, ReleaseWrite);
    HandledState(s, h, ok, destroyed, kept);
    if ok && Finds(s.accounts, h) && Revokes(h) && !destroyed && LeavesSome(s, h, kept) {
      var id :| id in kept && id in s.live && s.live[id].user == h.user;
      assert id in s4.live && Stale(s4, id);
    }
  }

  /** What one handler does, in one piece. */
  lemma HandledState(s: State, h: Handler, ok: bool, destroyed: bool, kept: set<nat>)
    requires s.writer.NoWriter? && s.readers == map[]
    ensures var t := Handled(s, h, ok, destroyed, kept);
            var changes := ok && Finds(s.accounts, h);
            && t.writer.NoWriter? && t.readers == map[] && t.clock == s.clock + 4
            && (!changes ==> t.accounts == s.accounts && t.live == s.live && t.missed == s.missed)
            && (changes && !Revokes(h) ==>
                && t.live == s.live && t.missed == s.missed
                && t.accounts == s.accounts[h.user := Changed(s.accounts[h.user], h, s.clock + 1)])
            && (changes && Revokes(h) ==>
                && (var a := Changed(s.accounts[h.user], h, s.clock + 1);
                    t.accounts == s.accounts[h.user := if destroyed then a.(clearedAt := a.changedAt) else a])
                && (var left := if destroyed then {} else LeftBehind(s.live, h.user, kept);
                    t.live == Destroyed(s.live, h.user, left) && t.missed == s.missed + left))
  {
    hide LeftBehind, Destroyed;
    var t := Handled(s, h, ok, destroyed, kept);
    if ok && Finds(s.accounts, h) && Revokes(h) {
      var a := Changed(s.accounts[h.user], h, s.clock + 1);
      assert t.accounts == s.accounts[h.user := if destroyed then a.(clearedAt := a.changedAt) else a];
    }
  }

  const LOGIN := [Create(7, "old"), TakeRead(0), Check(0, 7, Password("old")), Save(0, true), ReleaseRead(0)]

  const LOGGED_IN := State(map[7 := Account(true, false, "old", -1, -1)], map[3 := Session(7, Password("old"))], {}, map[], NoWriter, 5)

  lemma LoginRuns()
    ensures Run(BOOT, LOGIN) == LOGGED_IN
  {
    var s1 := Next(BOOT, Create(7, "old"));
    var s2 := Next(s1, TakeRead(0));
    var s3 := Next(s2, Check(0, 7, Password("old")));
    var s4 := Next(s3, Save(0, true));
    assert Next(s4, ReleaseRead(0)) == LOGGED_IN;
    hide Next;
    RunPrefix(LOGIN, 0);
    RunPrefix(LOGIN, 1);
    RunPrefix(LOGIN, 2);
    RunPrefix(LOGIN, 3);
    RunPrefix(LOGIN, 4);
    assert LOGIN[..5] == LOGIN;
  }

  lemma RunPrefix(labels: seq<Label>, i: nat)
    requires i < |labels|
    ensures Run(BOOT, labels[..0]) == BOOT
    ensures Run(BOOT, labels[..i + 1]) == Next(Run(BOOT, labels[..i]), labels[i])
  {
    assert labels[..i + 1][..i] == labels[..i];
  }

  lemma RunOne(s: State, labels: seq<Label>, l: Label)
    ensures Run(s, labels + [l]) == Next(Run(s, labels), l)
  {
    assert (labels + [l])[..|labels + [l]| - 1] == labels;
  }

  lemma RunHandler(s: State, labels: seq<Label>, h: Handler, ok: bool, destroyed: bool, kept: set<nat>)
    ensures Run(s, labels + [TakeWrite(h)] + [Change(ok)] + [Destroy(destroyed, kept)] + [ReleaseWrite])
         == Handled(Run(s, labels), h, ok, destroyed, kept)
  {
    hide Next;
    RunOne(s, labels, TakeWrite(h));
    RunOne(s, labels + [TakeWrite(h)], Change(ok));
    RunOne(s, labels + [TakeWrite(h)] + [Change(ok)], Destroy(destroyed, kept));
    RunOne(s, labels + [TakeWrite(h)] + [Change(ok)] + [Destroy(destroyed, kept)], ReleaseWrite);
  }

  /** A disabled agent keeps a session when destroying it fails: the account is saved first. */
  lemma FailedDestroyLeavesSession()
    ensures var s := Run(BOOT, LOGIN + [TakeWrite(UpdateAgent(7, "", false))] + [Change(true)] + [Destroy(false, {3})] + [ReleaseWrite]);
            s.writer.NoWriter? && 3 in s.live && s.live[3].user == 7 && 7 in s.accounts && !s.accounts[7].enabled
  {
    LoginRuns();
    RunHandler(BOOT, LOGIN, UpdateAgent(7, "", false), true, false, {3});
    HandledState(LOGGED_IN, UpdateAgent(7, "", false), true, false, {3});
    hide Run, Handled;
  }

  // ----- the handlers, changing the tables in place

  /** The sessions of one user are gone, but for some in `kept`, and all others are there. */
  ghost predicate Cleared(before: map<nat, Session>, after: map<nat, Session>, user: int, kept: set<nat>) {
    forall id :: if id in before && (before[id].user != user || id in kept) then id in after && after[id] == before[id] else id !in after
  }

  /** Only this account is changed, to have this password and these marks. */
  ghost predicate Becomes(before: map<int, Account>, after: map<int, Account>, user: int, password: string, enabled: bool, deleted: bool) {
    && after.Keys == before.Keys
    && (forall u | u in before && u != user :: after[u] == before[u])
    && user in after && after[user].password == password && after[user].enabled == enabled && after[user].deleted == deleted
  }

  /** The account table and the session store. `missed` only records which sessions a failed call left behind. */
  class App {
    var accounts: map<int, Account>
    var live: map<nat, Session>
    ghost var missed: set<nat>
    var clock: nat

    constructor ()
      ensures View() == BOOT
    {
      accounts, live, missed, clock := map[], map[], {}, 0;
    }

    /** The machine's state while no handler holds the lock. */
    ghost function View(): State
      reads this
    {
      State(accounts, live, missed, map[], NoWriter, clock)
    }

    /** Whether a session was saved; a failed save leaves none that names an agent, and what fails after it does not undo it. */
    method HandleLogin(user: int, credential: Credential, saveOk: bool) returns (saved: bool)
      modifies this
      ensures View() == LoggedIn(old(View()), user, credential, saveOk)
      ensures saved <==>
                && saveOk && user in accounts && accounts[user].enabled && !accounts[user].deleted
                && (credential == Oidc || credential == Password(accounts[user].password))
      ensures accounts == old(accounts)
      ensures live == if saved then old(live)[old(clock) + 2 := Session(user, credential)] else old(live)
    {
      hide LoggedIn;
      LoginState(View(), user, credential, saveOk);
      clock := clock + 4;
      if user !in accounts || accounts[user].deleted {
        return false;
      }
      if credential.Password? && credential.password != accounts[user].password {
        return false;
      }
      if !accounts[user].enabled {
        return false;
      }
      if !saveOk {
        return false;
      }
      live := live[clock - 2 := Session(user, credential)];
      return true;
    }

    /** Destroys the sessions of a user; on a fault those in `kept` stay. */
    method DestroyUserSessions(user: int, fault: bool, kept: set<nat>)
      modifies this`live, this`missed
      ensures var left := if fault then LeftBehind(old(live), user, kept) else {};
              live == Destroyed(old(live), user, left) && missed == old(missed) + left
      ensures Cleared(old(live), live, user, if fault then kept else {})
    {
      ghost var left := if fault then LeftBehind(live, user, kept) else {};
      missed := missed + left;
      live := map id | id in live && (live[id].user != user || (fault && id in kept)) :: live[id];
      assert live == Destroyed(old(live), user, left);
    }

    method HandleUpdateAgent(user: int, newPassword: string, enabled: bool, updateOk: bool, fault: bool, kept: set<nat>) returns (ok: bool)
      modifies this
      ensures View() == Handled(old(View()), UpdateAgent(user, newPassword, enabled), updateOk, !fault, kept)
      ensures ok <==> updateOk && old(user in accounts && !accounts[user].deleted) && !(fault && (newPassword != "" || !enabled))
      ensures if updateOk && old(user in accounts && !accounts[user].deleted) then
                && Becomes(old(accounts), accounts, user, if newPassword != "" then newPassword else old(accounts)[user].password, enabled, false)
                && if newPassword != "" || !enabled then
                     accounts[user].changedAt == old(clock) + 1 && Cleared(old(live), live, user, if fault then kept else {})
                   else
                     accounts[user].changedAt == old(accounts)[user].changedAt && live == old(live)
              else accounts == old(accounts) && live == old(live)
    {
      hide Handled, LeftBehind, Destroyed;
      HandledState(View(), UpdateAgent(user, newPassword, enabled), updateOk, !fault, kept);
      clock := clock + 4;
      if user !in accounts || accounts[user].deleted || !updateOk {
        return false;
      }
      var revokes := newPassword != "" || !enabled;
      var a := accounts[user].(enabled := enabled);
      if newPassword != "" {
        a := a.(password := newPassword);
      }
      if revokes {
        a := a.(changedAt := clock - 3);
      }
      accounts := accounts[user := a];
      if revokes {
        DestroyUserSessions(user, fault, kept);
        if fault {
          return false;
        }
        accounts := accounts[user := a.(clearedAt := a.changedAt)];
        assert accounts == old(accounts)[user := a.(clearedAt := a.changedAt)];
      }
      return true;
    }

    method HandleDeleteAgent(user: int, deleteOk: bool, fault: bool, kept: set<nat>) returns (ok: bool)
      modifies this
      ensures View() == Handled(old(View()), DeleteAgent(user), deleteOk, !fault, kept)
      ensures ok <==> deleteOk && user in old(accounts) && !fault
      ensures if deleteOk && user in old(accounts) then
                && Becomes(old(accounts), accounts, user, old(accounts)[user].password, old(accounts)[user].enabled, true)
                && accounts[user].changedAt == old(clock) + 1 && Cleared(old(live), live, user, if fault then kept else {})
              else accounts == old(accounts) && live == old(live)
    {
      hide Handled, LeftBehind, Destroyed;
      HandledState(View(), DeleteAgent(user), deleteOk, !fault, kept);
      clock := clock + 4;
      if user !in accounts || !deleteOk {
        return false;
      }
      var a := accounts[user].(deleted := true, changedAt := clock - 3);
      accounts := accounts[user := a];
      DestroyUserSessions(user, fault, kept);
      if fault {
        return false;
      }
      accounts := accounts[user := a.(clearedAt := a.changedAt)];
      assert accounts == old(accounts)[user := a.(clearedAt := a.changedAt)];
      return true;
    }

    /** `user` is the agent the reset token names. */
    method HandleSetPassword(user: int, newPassword: string, resetOk: bool, fault: bool, kept: set<nat>) returns (ok: bool)
      modifies this
      ensures View() == Handled(old(View()), SetPassword(user, newPassword), resetOk, !fault, kept)
      ensures ok <==> resetOk && user in old(accounts) && !fault
      ensures if resetOk && user in old(accounts) then
                && Becomes(old(accounts), accounts, user, newPassword, old(accounts)[user].enabled, old(accounts)[user].deleted)
                && accounts[user].changedAt == old(clock) + 1 && Cleared(old(live), live, user, if fault then kept else {})
              else accounts == old(accounts) && live == old(live)
    {
      hide Handled, LeftBehind, Destroyed, Cleared;
      HandledState(View(), SetPassword(user, newPassword), resetOk, !fault, kept);
      clock := clock + 4;
      if user !in accounts || !resetOk {
        return false;
      }
      var a := accounts[user].(password := newPassword, changedAt := clock - 3);
      accounts := accounts[user := a];
      DestroyUserSessions(user, fault, kept);
      if fault {
        return false;
      }
      accounts := accounts[user := a.(clearedAt := a.changedAt)];
      assert accounts == old(accounts)[user := a.(clearedAt := a.changedAt)];
      return true;
    }
  }
}
