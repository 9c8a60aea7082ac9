/** The chat transcript of an agent run: which messages it may hold, when every tool call
    in it is answered, and how the run's three ways of extending it keep that shape. */
module AgentTranscript {
  import opened SeqFilter

  datatype Role = System | User | Assistant | Tool | Other(name: string)

  datatype ToolCall = ToolCall(id: string, name: string, arguments: string)

  datatype Message = Message(
    role: Role,
    content: string,
    name: string,
    toolCallId: string,
    toolCalls: seq<ToolCall>,
    images: seq<string>)

  /** The assistant turn appended when the model asks for tools. */
  function Request(content: string, calls: seq<ToolCall>): Message {
    Message(Assistant, content, "", "", calls, [])
  }

  /** The tool turn appended once a call has a result. */
  function Answer(call: ToolCall, result: string): Message {
    Message(Tool, result, call.name, call.id, [], [])
  }

  predicate Answers(m: Message, call: ToolCall) {
    m.role == Tool && m.toolCallId == call.id && m.name == call.name && m.toolCalls == []
  }

  /** A message that neither asks for a tool nor answers one. */
  predicate IsPlain(m: Message) {
    m.role != Tool && m.toolCalls == []
  }

  /** The tool calls of the message at `i` are answered, in call order, by the messages right after it. */
  predicate AnsweredAt(ms: seq<Message>, i: nat)
    requires i < |ms|
  {
    var calls := ms[i].toolCalls;
    && ms[i].role == Assistant
    && i + |calls| < |ms|
    && forall k | 0 <= k < |calls| :: Answers(ms[i + 1 + k], calls[k])
  }

  /** The tool message at `j` is one of the answers that follow the request at `i`. */
  predicate BelongsTo(ms: seq<Message>, j: nat, i: nat)
    requires i < |ms|
  {
    i < j <= i + |ms[i].toolCalls|
  }

  /** Every request is answered call by call before anything else is said, and no tool message stands alone. */
  ghost predicate Complete(ms: seq<Message>) {
    && (forall i | 0 <= i < |ms| && ms[i].toolCalls != [] :: AnsweredAt(ms, i))
    && (forall j | 0 <= j < |ms| && ms[j].role == Tool ::
          exists i | 0 <= i < j :: BelongsTo(ms, j, i))
  }

  /** The transcript ends in a request for `calls` of which exactly the first `next` are answered. */
  ghost predicate OpenAt(ms: seq<Message>, calls: seq<ToolCall>, next: nat) {
    && next <= |calls| && next < |ms|
    && var n := |ms| - next - 1;
    && Complete(ms[..n])
    && ms[n].role == Assistant && ms[n].toolCalls == calls && calls != []
    && forall k | 0 <= k < next :: Answers(ms[n + 1 + k], calls[k])
  }

  lemma PlainIsComplete(ms: seq<Message>)
    requires forall m | m in ms :: IsPlain(m)
    ensures Complete(ms)
  {
    assert forall i | 0 <= i < |ms| :: ms[i] in ms;
  }

  lemma RequestOpens(ms: seq<Message>, content: string, calls: seq<ToolCall>)
    requires Complete(ms) && calls != []
    ensures OpenAt(ms + [Request(content, calls)], calls, 0)
  {
    assert (ms + [Request(content, calls)])[..|ms|] == ms;
  }

  lemma AnswerAdvances(ms: seq<Message>, calls: seq<ToolCall>, next: nat, result: string)
    requires OpenAt(ms, calls, next) && next < |calls|
    ensures OpenAt(ms + [Answer(calls[next], result)], calls, next + 1)
  {
    var n := |ms| - next - 1;
    assert (ms + [Answer(calls[next], result)])[..n] == ms[..n];
  }

  /** Once the last call is answered the whole transcript is complete again. */
  lemma LastAnswerCompletes(ms: seq<Message>, calls: seq<ToolCall>)
    requires OpenAt(ms, calls, |calls|)
    ensures Complete(ms)
  {
    var n := |ms| - |calls| - 1;
    var head := ms[..n];
    forall i | n < i < |ms| ensures ms[i].role == Tool && ms[i].toolCalls == [] {
      assert Answers(ms[n + 1 + (i - n - 1)], calls[i - n - 1]);
    }
    forall i | 0 <= i < |ms| && ms[i].toolCalls != [] ensures AnsweredAt(ms, i) {
      if i < n {
        assert AnsweredAt(head, i);
        forall k | 0 <= k < |ms[i].toolCalls| ensures Answers(ms[i + 1 + k], ms[i].toolCalls[k]) {
          assert ms[i + 1 + k] == head[i + 1 + k];
        }
      }
    }
    forall j | 0 <= j < |ms| && ms[j].role == Tool ensures exists i | 0 <= i < j :: BelongsTo(ms, j, i) {
      if j < n {
        assert head[j] == ms[j];
        var i :| 0 <= i < j && BelongsTo(head, j, i);
        assert head[i] == ms[i];
        assert BelongsTo(ms, j, i);
      } else {
        assert BelongsTo(ms, j, n);
      }
    }
  }

  function CallsWithId(calls: seq<ToolCall>, id: string): nat {
    if calls == [] then 0 else (if calls[0].id == id then 1 else 0) + CallsWithId(calls[1..], id)
  }

  /** How often the transcript asks for a call with this id. */
  function TimesAsked(ms: seq<Message>, id: string): nat {
    if ms == [] then 0 else CallsWithId(ms[0].toolCalls, id) + TimesAsked(ms[1..], id)
  }

  /** How often the transcript answers a call with this id. */
  function TimesAnswered(ms: seq<Message>, id: string): nat {
    if ms == [] then 0 else (if ms[0].role == Tool && ms[0].toolCallId == id then 1 else 0) + TimesAnswered(ms[1..], id)
  }

  lemma {:induction false} AnswerBlock(ms: seq<Message>, calls: seq<ToolCall>, id: string)
    requires |calls| <= |ms|
    requires forall k | 0 <= k < |calls| :: Answers(ms[k], calls[k])
    ensures TimesAsked(ms, id) == TimesAsked(ms[|calls|..], id)
    ensures TimesAnswered(ms, id) == CallsWithId(calls, id) + TimesAnswered(ms[|calls|..], id)
  {
    if calls == [] {
      assert ms[0..] == ms;
    } else {
      assert forall k | 0 <= k < |calls[1..]| :: ms[1..][k] == ms[k + 1] && calls[1..][k] == calls[k + 1];
      AnswerBlock(ms[1..], calls[1..], id);
      assert Answers(ms[0], calls[0]);
      assert ms[1..][|calls[1..]|..] == ms[|calls|..];
    }
  }

  lemma CompleteAfter(ms: seq<Message>)
    requires Complete(ms) && ms != []
    ensures ms[0].role != Tool
    ensures 1 + |ms[0].toolCalls| <= |ms| && Complete(ms[1 + |ms[0].toolCalls|..])
  {
    var n := 1 + |ms[0].toolCalls|;
    assert ms[0].toolCalls != [] ==> AnsweredAt(ms, 0);
    var tail := ms[n..];
    forall i | 0 < i < n ensures ms[i].toolCalls == [] {
      assert Answers(ms[0 + 1 + (i - 1)], ms[0].toolCalls[i - 1]);
    }
    forall i | 0 <= i < |tail| && tail[i].toolCalls != [] ensures AnsweredAt(tail, i) {
      assert AnsweredAt(ms, n + i);
      forall k | 0 <= k < |tail[i].toolCalls| ensures Answers(tail[i + 1 + k], tail[i].toolCalls[k]) {
        assert tail[i + 1 + k] == ms[n + i + 1 + k];
      }
    }
    forall j | 0 <= j < |tail| && tail[j].role == Tool ensures exists i | 0 <= i < j :: BelongsTo(tail, j, i) {
      assert ms[n + j].role == Tool;
      var i :| 0 <= i < n + j && BelongsTo(ms, n + j, i);
      assert n <= i;
      assert tail[i - n] == ms[i];
      assert BelongsTo(tail, j, i - n);
    }
  }

  /** In a complete transcript each id is answered exactly as often as it is asked for, so a call whose
      id the model used once has exactly one answer. */
  lemma {:induction false} EachCallAnsweredOnce(ms: seq<Message>, id: string)
    requires Complete(ms)
    ensures TimesAnswered(ms, id) == TimesAsked(ms, id)
    decreases |ms|
  {
    if ms == [] {
    } else {
      CompleteAfter(ms);
      var calls := ms[0].toolCalls;
      var rest := ms[1..];
      if calls != [] {
        assert AnsweredAt(ms, 0);
        assert forall k | 0 <= k < |calls| :: rest[k] == ms[0 + 1 + k];
      }
      AnswerBlock(rest, calls, id);
      assert rest[|calls|..] == ms[1 + |calls|..];
      EachCallAnsweredOnce(ms[1 + |calls|..], id);
    }
  }

  /** The messages the copilot starts a run from: the context, and of the history the text and images of what the user and
      the assistant said, in order. Whatever the history holds, there are no requests and no tool messages among them. */
  method CopilotMessages(context: string, hasContext: bool, history: seq<Message>) returns (msgs: seq<Message>)
    ensures forall m | m in msgs :: m.role != Tool && m.toolCalls == [] && m.toolCallId == ""
    ensures hasContext ==> msgs != [] && msgs[0].role == User && msgs[0].content == context
    ensures var turns := Filter((m: Message) => m.role == User || m.role == Assistant, history);
            var from := if hasContext then 1 else 0;
            && |msgs| == from + |turns|
            && forall i | 0 <= i < |turns| ::
                 msgs[from + i].role == turns[i].role && msgs[from + i].content == turns[i].content && msgs[from + i].images == turns[i].images
  {
    msgs := [];
    if hasContext {
      msgs := [Message(User, context, "", "", [], [])];
    }
    ghost var from, isTurn := |msgs|, (m: Message) => m.role == User || m.role == Assistant;
    for i := 0 to |history|
      invariant forall m | m in msgs :: m.role != Tool && m.toolCalls == [] && m.toolCallId == ""
      invariant hasContext ==> msgs != [] && msgs[0].role == User && msgs[0].content == context
      invariant |msgs| == from + |Filter(isTurn, history[..i])|
      invariant forall j | 0 <= j < |Filter(isTurn, history[..i])| ::
                  var t := Filter(isTurn, history[..i])[j];
                  msgs[from + j].role == t.role && msgs[from + j].content == t.content && msgs[from + j].images == t.images
    {
      assert history[..i + 1][..i] == history[..i];
      if history[i].role != User && history[i].role != Assistant {
        continue;
      }
      msgs := msgs + [Message(history[i].role, history[i].content, "", "", [], history[i].images)];
    }
    assert history[..|history|] == history;
    SameFilter(isTurn, (m: Message) => m.role == User || m.role == Assistant, history);
  }
}
