/** An agent reopening a conversation, which happens without its lock and without a look at the others: when that leaves the
    pipeline's promise of one open conversation per contact and inbox intact. */
module WhatsAppReopen {
  import opened KeyedLocks
  import opened WhatsAppPipeline
  import opened WhatsAppLockPart
  import opened WhatsAppSafety
  import opened WhatsAppProgress
  import opened WhatsAppHandlers

  function Reopened(s: State, conv: nat): State
    requires conv in s.convs
  {
    s.(convs := s.convs[conv := s.convs[conv].(open := true)])
  }

  /** A thread here has looked, and may go on to open a conversation of the pair other than this one. */
  predicate MayOpenOther(pc: Pc, pair: Pair, conv: nat) {
    || ((pc.NoneOpen? || pc.AgentNone?) && pc.pair == pair)
    || ((pc.Chosen? || pc.Inserted?) && pc.pair == pair && pc.conv != conv)
  }

  predicate NoneMayOpenOther(s: State, pair: Pair, conv: nat) {
    forall t | t in s.threads :: !MayOpenOther(s.threads[t].pc, pair, conv)
  }

  predicate NoOtherOpen(convs: map<nat, Conv>, pair: Pair, conv: nat) {
    forall c | c in convs && IsOpen(convs, c, pair) :: c == conv
  }

  /** Nothing else of the pair is open, and nobody under its lock is about to open anything else. */
  predicate Harmless(s: State, conv: nat)
    requires conv in s.convs
  {
    NoOtherOpen(s.convs, s.convs[conv].pair, conv) && NoneMayOpenOther(s, s.convs[conv].pair, conv)
  }

  // ----- harmless means harmless for good

  lemma ReopenFine(convs: map<nat, Conv>, conv: nat, pc: Pc)
    requires conv in convs && ConvFine(convs, pc) && !MayOpenOther(pc, convs[conv].pair, conv)
    ensures ConvFine(convs[conv := convs[conv].(open := true)], pc)
  {
    var convs' := convs[conv := convs[conv].(open := true)];
    if pc.NoneOpen? || pc.AgentNone? {
      assert forall c | c in convs' :: IsOpen(convs', c, pc.pair) ==> IsOpen(convs, c, pc.pair);
    }
  }

  lemma StillOneOpen(convs: map<nat, Conv>, conv: nat)
    requires conv in convs && OneOpen(convs) && NoOtherOpen(convs, convs[conv].pair, conv)
    ensures OneOpen(convs[conv := convs[conv].(open := true)])
  {
    forall c | c in convs && convs[c].open && convs[c].pair == convs[conv].pair ensures c == conv {
      assert IsOpen(convs, c, convs[conv].pair);
    }
  }

  lemma ReopenKeeps(senderOf: string -> string, s: State, conv: nat)
    requires Inv(senderOf, s) && conv in s.convs && Harmless(s, conv)
    ensures Inv(senderOf, Reopened(s, conv))
  {
    hide LockPart, TableFine, ReceiptFine, FatesFine, NotYetStored, MediaFine, SendersFine, ConvFine, MayOpenOther, NoOtherOpen, OneOpen;
    StillOneOpen(s.convs, conv);
    forall t | t in s.threads ensures ThreadFine(senderOf, s.table, Reopened(s, conv).convs, s.threads[t]) {
      ReopenFine(s.convs, conv, s.threads[t].pc);
    }
    SameLocks(s, Reopened(s, conv));
  }

  // ----- and otherwise some run ends with two open

  lemma TwoOpen(convs: map<nat, Conv>, a: nat, b: nat)
    requires a in convs && b in convs && a != b && convs[a].open && convs[b].open && convs[a].pair == convs[b].pair
    ensures !OneOpen(convs)
  {
  }

  lemma RunSteps(senderOf: string -> string, s: State, t: Tid, c: Choice, d: Choice)
    requires t in s.threads && t in StepThread(s, t, c).threads
    ensures RunFrom(senderOf, s, []) == s
    ensures RunFrom(senderOf, s, [Step(t, c)]) == StepThread(s, t, c)
    ensures RunFrom(senderOf, s, [Step(t, c), Step(t, d)]) == StepThread(StepThread(s, t, c), t, d)
  {
    hide StepThread;
    assert [Step(t, c)][..0] == [];
    assert [Step(t, c), Step(t, d)][..1] == [Step(t, c)];
  }

  lemma UnderWay(senderOf: string -> string, s: State, t: Tid)
    requires Inv(senderOf, s) && t in s.threads && (s.threads[t].pc.NoneOpen? || s.threads[t].pc.Chosen? || s.threads[t].pc.Inserted?)
    ensures InFlight(s.threads[t])
    ensures !s.threads[t].pc.NoneOpen? ==> s.threads[t].pc.conv in s.convs && s.convs[s.threads[t].pc.conv].pair == s.threads[t].pc.pair
  {
    hide DataPart, LocksOk;
    assert SenderAgrees(s, t);
    ThreadConv(senderOf, s, t);
  }

  lemma ThreadConv(senderOf: string -> string, s: State, t: Tid)
    requires DataPart(senderOf, s) && t in s.threads
    ensures ConvFine(s.convs, s.threads[t].pc)
  {
    ThreadOf(senderOf, s, t);
  }

  lemma CreatesAnother(senderOf: string -> string, s: State, t: Tid, conv: nat)
    requires Inv(senderOf, s) && conv in s.convs && t in s.threads
    requires (s.threads[t].pc.NoneOpen? || s.threads[t].pc.AgentNone?) && s.threads[t].pc.pair == s.convs[conv].pair
    ensures exists labels :: !OneOpen(RunFrom(senderOf, Reopened(s, conv), labels).convs)
  {
    hide Inv, StepThread, OneOpen, RunFrom;
    var r, c := Reopened(s, conv), Above(s.convs.Keys);
    var choice := Ask(true).(conv := c);
    if s.threads[t].pc.NoneOpen? {
      UnderWay(senderOf, s, t);
      CreateSteps(r, t, c);
    } else {
      AgentCreateSteps(r, t, c);
    }
    RunSteps(senderOf, r, t, choice, choice);
    TwoOpen(StepThread(r, t, choice).convs, conv, c);
  }

  lemma OpensAnother(senderOf: string -> string, s: State, t: Tid, conv: nat)
    requires Inv(senderOf, s) && conv in s.convs && t in s.threads
    requires s.threads[t].pc.Chosen? || s.threads[t].pc.Inserted?
    requires s.threads[t].pc.pair == s.convs[conv].pair && s.threads[t].pc.conv != conv
    ensures exists labels :: !OneOpen(RunFrom(senderOf, Reopened(s, conv), labels).convs)
  {
    hide Inv, StepThread, OneOpen, RunFrom;
    UnderWay(senderOf, s, t);
    var r, d := Reopened(s, conv), s.threads[t].pc.conv;
    if s.threads[t].pc.Inserted? {
      ReopenSteps(r, t);
      RunSteps(senderOf, r, t, Ask(true), Ask(true));
      TwoOpen(StepThread(r, t, Ask(true)).convs, conv, d);
    } else {
      InsertSteps(r, t, true);
      var mid := StepThread(r, t, Ask(true).(found := true));
      ReopenSteps(mid, t);
      RunSteps(senderOf, r, t, Ask(true).(found := true), Ask(true));
      TwoOpen(StepThread(mid, t, Ask(true)).convs, conv, d);
    }
  }

  lemma AnotherIsOpen(senderOf: string -> string, s: State, c: nat, conv: nat)
    requires conv in s.convs && c in s.convs && c != conv && IsOpen(s.convs, c, s.convs[conv].pair)
    ensures exists labels :: !OneOpen(RunFrom(senderOf, Reopened(s, conv), labels).convs)
  {
    TwoOpen(Reopened(s, conv).convs, c, conv);
    assert RunFrom(senderOf, Reopened(s, conv), []) == Reopened(s, conv);
  }

  /** Whatever happens after an agent has reopened a conversation, no contact ever has two open in an inbox, if and only if
      at that moment the contact has no other open there and nobody under the lock of the two is about to open one. */
  lemma ReopenKeepsExactly(senderOf: string -> string, s: State, conv: nat)
    requires Inv(senderOf, s) && conv in s.convs
    ensures (forall labels :: OneOpen(RunFrom(senderOf, Reopened(s, conv), labels).convs)) <==> Harmless(s, conv)
  {
    hide Inv, OneOpen, RunFrom, Reopened;
    if Harmless(s, conv) {
      ReopenKeeps(senderOf, s, conv);
      forall labels ensures OneOpen(RunFrom(senderOf, Reopened(s, conv), labels).convs) {
        RunFromKeeps(senderOf, Reopened(s, conv), labels);
        OneOpenOf(senderOf, RunFrom(senderOf, Reopened(s, conv), labels));
      }
    } else if !NoOtherOpen(s.convs, s.convs[conv].pair, conv) {
      var c :| c in s.convs && IsOpen(s.convs, c, s.convs[conv].pair) && c != conv;
      AnotherIsOpen(senderOf, s, c, conv);
    } else {
      var t :| t in s.threads && MayOpenOther(s.threads[t].pc, s.convs[conv].pair, conv);
      if s.threads[t].pc.NoneOpen? || s.threads[t].pc.AgentNone? {
        CreatesAnother(senderOf, s, t, conv);
      } else {
        OpensAnother(senderOf, s, t, conv);
      }
    }
  }

  lemma OneOpenOf(senderOf: string -> string, s: State)
    requires Inv(senderOf, s)
    ensures OneOpen(s.convs)
  {
  }
}
