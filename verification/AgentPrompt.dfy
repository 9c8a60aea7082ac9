/** The messages a run starts from: one system message, if there is anything to say in it, and the history. */
module AgentPrompt {
  import opened Prelude
  import opened AgentTranscript

  /** `r` is `s` without some of the spaces around it. */
  ghost predicate IsTrimOf(s: string, r: string) {
    exists pre: string, post: string :: s == pre + r + post && IsBlank(pre) && IsBlank(post)
  }

  lemma Trims(s: string, pre: string, r: string, post: string)
    requires s == pre + r + post && IsBlank(pre) && IsBlank(post)
    ensures IsTrimOf(s, r)
  {
  }

  /** What is left of a text between the first and the last character that is no space. */
  function Trimmed(s: string): (r: string)
    ensures r != [] ==> !IsSpace(r[0]) && !IsSpace(r[|r| - 1])
    ensures IsTrimOf(s, r)
    decreases |s|
  {
    if s == [] then
      Trims(s, "", "", "");
      []
    else if IsSpace(s[0]) then
      TrimFront(s, Trimmed(s[1..]));
      Trimmed(s[1..])
    else if IsSpace(s[|s| - 1]) then
      TrimBack(s, Trimmed(s[..|s| - 1]));
      Trimmed(s[..|s| - 1])
    else
      assert s == "" + s + "";
      Trims(s, "", s, "");
      s
  }

  lemma TrimFront(s: string, r: string)
    requires s != [] && IsSpace(s[0]) && IsTrimOf(s[1..], r)
    ensures IsTrimOf(s, r)
  {
    hide IsSpace;
    var pre: string, post: string :| s[1..] == pre + r + post && IsBlank(pre) && IsBlank(post);
    assert s == ([s[0]] + pre) + r + post;
    Trims(s, [s[0]] + pre, r, post);
  }

  lemma TrimBack(s: string, r: string)
    requires s != [] && IsSpace(s[|s| - 1]) && IsTrimOf(s[..|s| - 1], r)
    ensures IsTrimOf(s, r)
  {
    hide IsSpace;
    var pre: string, post: string :| s[..|s| - 1] == pre + r + post && IsBlank(pre) && IsBlank(post);
    var end := post + [s[|s| - 1]];
    assert s == pre + r + end;
    assert forall k | 0 <= k < |post| :: end[k] == post[k];
    Trims(s, pre, r, end);
  }

  const INSTRUCTIONS := "Workspace admin instructions (follow these, they take precedence on tone and format):\n"

  /** The system prompt and the workspace instructions, an empty line between them if there are both. */
  function Prompt(systemPrompt: string, instructions: string): string {
    var trimmed := Trimmed(instructions);
    if trimmed == [] then systemPrompt
    else systemPrompt + (if systemPrompt == "" then "" else "\n\n") + INSTRUCTIONS + trimmed
  }

  function FirstMessages(systemPrompt: string, instructions: string, history: seq<Message>): seq<Message> {
    var prompt := Prompt(systemPrompt, instructions);
    (if prompt == "" then [] else [Message(System, prompt, "", "", [], [])]) + history
  }

  lemma FirstMessagesPlain(systemPrompt: string, instructions: string, history: seq<Message>)
    requires forall m | m in history :: IsPlain(m)
    ensures forall m | m in FirstMessages(systemPrompt, instructions, history) :: IsPlain(m)
  {
    hide Trimmed;
  }
}
