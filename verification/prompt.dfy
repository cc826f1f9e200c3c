/**
  `buildPrompt`: the system prompt (a constant) and the user prompt, assembled
  from the normalized message, the last ten recent messages of the group and the
  first five retrieved past messages.
 */
module Prompt {
  import opened Strings
  import opened Values
  import opened Types

  const SystemPrompt: string :=
    "You are Jethalal, a witty, socially intelligent AI assistant in group chats. Your personality:\n"
    + "- Friendly, helpful, and occasionally funny\n"
    + "- You add value - only speak when your response contributes meaningfully\n"
    + "- Track conversation context, sentiment, and participation\n"
    + "- Avoid dominating; let humans lead\n"
    + "- In conflict, stay neutral and de-escalate\n"
    + "\n"
    + "Output JSON with:\n"
    + "- should_respond: true only if your response adds value (not for every message)\n"
    + "- response: { type: \"text\"|\"poll\"|\"reaction\"|\"dm\", content: string, options?: string[], mention_user?: string }\n"
    + "\n"
    + "Rules: No spam. Be concise. Use emoji sparingly.\n"
    + "When the user directly @mentions you or says hello/greetings, you MUST respond (should_respond: true)."

  /** How many of the most recent messages the prompt shows. */
  const RecentWindow: nat := 10

  /** How many retrieved messages the prompt shows. */
  const RetrievedWindow: nat := 5

  const NoRecent: string := "(no recent messages)"
  const RetrievedHeader: string := "\nRelevant past context:\n"
  const MentionHint: string :=
    "\nIMPORTANT: The user has directly @mentioned/pinged you. You MUST respond with should_respond: true and a helpful, friendly reply.\n"
  const RespondLine: string :=
    "Respond with JSON: { \"should_respond\": boolean, \"response\": { \"type\": \"text\", \"content\": \"...\", ... } }"

  /** The two prompts of a turn; the system prompt is the same for every turn. */
  datatype Prompts = Prompts(user: string) {
    function System(): string {
      SystemPrompt
    }
  }

  function RecentLine(m: RecentMessage): string {
    "[" + m.user_name + "]: " + m.content
  }

  function RecentLines(ms: seq<RecentMessage>): (r: seq<string>)
    ensures |r| == |ms|
    ensures forall i :: 0 <= i < |ms| ==> r[i] == RecentLine(ms[i])
  {
    seq(|ms|, i requires 0 <= i < |ms| => RecentLine(ms[i]))
  }

  function RetrievedLines(ms: seq<RetrievedMessage>): (r: seq<string>)
    ensures |r| == |ms|
    ensures forall i :: 0 <= i < |ms| ==> r[i] == "- " + ms[i].content
  {
    seq(|ms|, i requires 0 <= i < |ms| => "- " + ms[i].content)
  }

  /** `recent_messages.slice(-10).map(...).join("\n")`. */
  function RecentText(ctx: GroupContext): string {
    Join("\n", RecentLines(Slice(ctx.recent_messages, -(RecentWindow as int), |ctx.recent_messages|)))
  }

  /** `recentText || "(no recent messages)"`. */
  function RecentSection(ctx: GroupContext): string {
    var t := RecentText(ctx);
    if t == "" then NoRecent else t
  }

  /** The retrieval section: a header and one `- content` line for each of the
      first five retrieved messages, or nothing when there are none. */
  function RetrievedText(retrieved: RetrievedContext): string {
    if |retrieved.messages| > 0 then
      RetrievedHeader + Join("\n", Slice(RetrievedLines(retrieved.messages), 0, RetrievedWindow))
    else ""
  }

  /** `opts?.isDirectMention ? hint : ""`; `opts` is `Undefined` when omitted. */
  function HintText(opts: Value): string {
    if JsTruthy(Get(opts, "isDirectMention")) then MentionHint else ""
  }

  /** The fixed frame of the user prompt around its variable parts. */
  function UserPrompt(groupId: string, recent: string, rag: string, quote: string, hint: string): string {
    "Group: " + groupId + "\nRecent messages:\n" + recent + "\n" + rag + quote + hint + "\n\n" + RespondLine
  }

  /** The line quoting the new message. */
  function Quote(message: NormalizedMessage): string {
    "\n\nNew message from " + message.user_name + ": \"" + message.content_trimmed + "\"\n"
  }

  /** Where the variable parts sit in the frame. */
  lemma UserPromptFrame(groupId: string, recent: string, rag: string, quote: string, hint: string)
    ensures var u := UserPrompt(groupId, recent, rag, quote, hint);
      && IsPrefix("Group: " + groupId + "\nRecent messages:\n", u)
      && Contains(u, quote)
      && IsSuffix(hint + "\n\n" + RespondLine, u)
  {
    var head := "Group: " + groupId + "\nRecent messages:\n";
    var before := head + recent + "\n" + rag;
    var tail := hint + "\n\n" + RespondLine;
    var u := UserPrompt(groupId, recent, rag, quote, hint);
    assert u == before + quote + tail;
    ContainsInfix(before, quote, tail);
    assert u == head + (recent + "\n" + rag + quote + tail);
    assert u == (before + quote) + tail;
  }

  function BuildPrompt(message: NormalizedMessage, ctx: GroupContext, retrieved: RetrievedContext, opts: Value): (p: Prompts)
    // the user prompt names the group, quotes the sender and the capped content, and ends with the instruction
    ensures IsPrefix("Group: " + message.group_id + "\nRecent messages:\n", p.user)
    // then the recent section, the retrieved section and the quoted message, in that order
    ensures IsPrefix("Group: " + message.group_id + "\nRecent messages:\n" + RecentSection(ctx) + "\n"
                     + RetrievedText(retrieved) + Quote(message), p.user)
    ensures Contains(p.user, Quote(message))
    ensures IsSuffix(HintText(opts) + "\n\n" + RespondLine, p.user)
  {
    UserPromptFrame(message.group_id, RecentSection(ctx), RetrievedText(retrieved), Quote(message), HintText(opts));
    Prompts(UserPrompt(message.group_id, RecentSection(ctx), RetrievedText(retrieved), Quote(message), HintText(opts)))
  }

  /** Only the last ten recent messages are shown, oldest first. */
  lemma RecentIsLastTen(ctx: GroupContext)
    ensures var ms := ctx.recent_messages;
      RecentText(ctx) == Join("\n", RecentLines(ms[|ms| - Min(RecentWindow, |ms|)..]))
  {
    SliceTail(ctx.recent_messages, RecentWindow);
  }

  /** Only the first five retrieved messages are shown, in order. */
  lemma RetrievedIsFirstFive(retrieved: RetrievedContext)
    ensures var ms := retrieved.messages;
      && (|ms| == 0 <==> RetrievedText(retrieved) == "")
      && (|ms| > 0 ==> RetrievedText(retrieved) == RetrievedHeader + Join("\n", RetrievedLines(ms[..Min(RetrievedWindow, |ms|)])))
  {
    var ms := retrieved.messages;
    SliceHead(RetrievedLines(ms), RetrievedWindow);
    assert RetrievedLines(ms)[..Min(RetrievedWindow, |ms|)] == RetrievedLines(ms[..Min(RetrievedWindow, |ms|)]);
  }

  /** A join of lines that all start with `c` starts with `c` (when non-empty). */
  lemma JoinHead(xs: seq<string>, c: char)
    requires |xs| > 0
    requires forall i :: 0 <= i < |xs| ==> |xs[i]| > 0 && xs[i][0] == c
    ensures |Join("\n", xs)| > 0 && Join("\n", xs)[0] == c
  {
    JoinStartsWithFirst("\n", xs);
  }

  /** The placeholder is shown exactly when the group has no recent messages:
      every shown line starts with `[`, and the placeholder does not. */
  lemma PlaceholderIffNoRecent(ctx: GroupContext)
    ensures RecentSection(ctx) == NoRecent <==> |ctx.recent_messages| == 0
  {
    var ms := ctx.recent_messages;
    var w := ms[|ms| - Min(RecentWindow, |ms|)..];
    RecentIsLastTen(ctx);
    if |ms| > 0 {
      JoinHead(RecentLines(w), '[');
    }
  }

  /** The mention hint is shown exactly when the options ask for it: the user
      prompt then ends with the hint followed by the closing instruction. */
  lemma HintIffDirectMention(message: NormalizedMessage, ctx: GroupContext, retrieved: RetrievedContext, opts: Value)
    ensures IsSuffix(MentionHint + "\n\n" + RespondLine, BuildPrompt(message, ctx, retrieved, opts).user)
      <==> JsTruthy(Get(opts, "isDirectMention"))
  {
    var user := BuildPrompt(message, ctx, retrieved, opts).user;
    if !JsTruthy(Get(opts, "isDirectMention")) {
      var q := Quote(message);
      var frame := "Group: " + message.group_id + "\nRecent messages:\n" + RecentSection(ctx) + "\n" + RetrievedText(retrieved);
      HintlessEnding(frame + q, user);
    }
  }

  /** Without the hint the instruction follows the closing quote of the message,
      where the hint would have ended in a full stop. */
  lemma HintlessEnding(front: string, user: string)
    requires |front| > 1 && front[|front| - 2] == '"'
    requires user == front + "" + "\n\n" + RespondLine
    ensures !IsSuffix(MentionHint + "\n\n" + RespondLine, user)
  {
    var suffix := MentionHint + "\n\n" + RespondLine;
    var k := |"\n\n" + RespondLine| + 2;
    assert user[|user| - k] == '"';
    assert suffix[|suffix| - k] == MentionHint[|MentionHint| - 2] == '.';
  }

  /** The full content never reaches the model: messages that differ only in it
      get the same prompts. */
  lemma PromptIgnoresFullContent(message: NormalizedMessage, other: string, ctx: GroupContext, retrieved: RetrievedContext, opts: Value)
    ensures BuildPrompt(message.(content := other), ctx, retrieved, opts) == BuildPrompt(message, ctx, retrieved, opts)
  {
  }

  /** Neither turn handler passes options, so neither ever shows the hint. */
  lemma CallersNeverHint()
    ensures HintText(Undefined) == ""
  {
  }
}
