/**
  The records the server exchanges with its bots: the declared platform set,
  the incoming and normalized message, the reply decision, and the read-only
  context snapshots a turn works from.
 */
module Types {
  import opened Strings
  import opened Values

  /** The declared platform set: exactly three names. */
  datatype Platform = Slack | Telegram | Whatsapp

  function PlatformName(p: Platform): string {
    match p
    case Slack => "slack"
    case Telegram => "telegram"
    case Whatsapp => "whatsapp"
  }

  /** Reads a platform name back; only the three declared names are platforms. */
  function ParsePlatform(s: string): (p: Option<Platform>)
    ensures p.Some? <==> s in {"slack", "telegram", "whatsapp"}
    ensures p.Some? ==> PlatformName(p.value) == s
  {
    if s == "slack" then Some(Slack)
    else if s == "telegram" then Some(Telegram)
    else if s == "whatsapp" then Some(Whatsapp)
    else None
  }

  lemma PlatformNameRoundTrip(p: Platform)
    ensures ParsePlatform(PlatformName(p)) == Some(p)
  {
  }

  /** The name the Discord bot sends is not one of the declared platforms. */
  lemma DiscordOutsidePlatforms()
    ensures ParsePlatform("discord") == None
  {
  }

  /** The closed set of reply kinds. */
  datatype ResponseType = Text | Poll | Reaction | Dm

  function TypeName(t: ResponseType): string {
    match t
    case Text => "text"
    case Poll => "poll"
    case Reaction => "reaction"
    case Dm => "dm"
  }

  /** `["text", "poll", "reaction", "dm"].includes(v)`: only these four strings
      are reply kinds (`includes` compares by value and type, so no coercion). */
  function ParseType(v: Value): (t: Option<ResponseType>)
    ensures t.Some? <==> v.Str? && v.s in {"text", "poll", "reaction", "dm"}
    ensures t.Some? ==> v == Str(TypeName(t.value))
  {
    if v == Str("text") then Some(Text)
    else if v == Str("poll") then Some(Poll)
    else if v == Str("reaction") then Some(Reaction)
    else if v == Str("dm") then Some(Dm)
    else None
  }

  lemma TypeNameRoundTrip(t: ResponseType)
    ensures ParseType(Str(TypeName(t))) == Some(t)
  {
  }

  /** The message shape the bots are declared to post. */
  datatype IncomingMessage = IncomingMessage(
    platform: Platform,
    group_id: string,
    user_id: string,
    user_name: string,
    content: string,
    timestamp: string,
    message_id: string)

  /** The JSON object a bot posts for a typed incoming message. */
  function IncomingObject(m: IncomingMessage): map<string, Value> {
    map[
      "platform" := Str(PlatformName(m.platform)),
      "group_id" := Str(m.group_id),
      "user_id" := Str(m.user_id),
      "user_name" := Str(m.user_name),
      "content" := Str(m.content),
      "timestamp" := Str(m.timestamp),
      "message_id" := Str(m.message_id)]
  }

  /** Every incoming field plus `normalized_at` and `content_trimmed`. `platform`
      and `timestamp` are whatever the sender put there when present (only a
      missing one is replaced); `extra` holds the sender's other fields. */
  datatype NormalizedMessage = NormalizedMessage(
    platform: Value,
    group_id: string,
    user_id: string,
    user_name: string,
    content: string,
    timestamp: Value,
    message_id: string,
    normalized_at: string,
    content_trimmed: string,
    extra: map<string, Value>)

  /** The keys the normalizer sets itself. */
  const NormalizedKeys: set<string> := {
    "platform", "group_id", "user_id", "user_name", "content", "timestamp",
    "message_id", "normalized_at", "content_trimmed"}

  /** The object a normalized message is, including the fields carried over. */
  function NormalizedObject(n: NormalizedMessage): map<string, Value> {
    n.extra + NormalizedFields(n)
  }

  /** The fields the normalizer sets, as object entries. */
  function NormalizedFields(n: NormalizedMessage): (m: map<string, Value>)
    ensures m.Keys == NormalizedKeys
  {
    map[
      "platform" := n.platform,
      "group_id" := Str(n.group_id),
      "user_id" := Str(n.user_id),
      "user_name" := Str(n.user_name),
      "content" := Str(n.content),
      "timestamp" := n.timestamp,
      "message_id" := Str(n.message_id),
      "normalized_at" := Str(n.normalized_at),
      "content_trimmed" := Str(n.content_trimmed)]
  }

  /** The optional reply payload. `options` and `mention_user` are copied from the
      model's output without inspection; `Undefined` means absent. */
  datatype Reply = Reply(kind: ResponseType, content: string, options: Value, mention_user: Value)

  /** The decision returned to a bot. `platform` and `group_id` are copied from
      the model client's output, which may carry anything there. */
  datatype AIResponse = AIResponse(
    should_respond: bool,
    platform: Value,
    group_id: Value,
    response: Option<Reply>)

  /** The schema invariant: a reply is only ever requested with a payload whose
      content is non-empty and carries no surrounding whitespace. */
  predicate WellFormed(r: AIResponse) {
    r.should_respond ==> r.response.Some? && r.response.value.content != "" && Trimmed(JS, r.response.value.content)
  }

  /** The JSON object a decision is sent as. */
  function ResponseObject(r: AIResponse): map<string, Value> {
    var head := map["should_respond" := Bool(r.should_respond), "platform" := r.platform, "group_id" := r.group_id];
    match r.response
    case None => head
    case Some(p) => head["response" := Obj(map[
      "type" := Str(TypeName(p.kind)),
      "content" := Str(p.content),
      "options" := p.options,
      "mention_user" := p.mention_user])]
  }

  datatype RecentMessage = RecentMessage(user_name: string, content: string, timestamp: string)

  datatype ParticipantStats = ParticipantStats(message_count: int, last_active: string)

  datatype GroupContext = GroupContext(
    group_id: string,
    recent_messages: seq<RecentMessage>,
    participant_stats: map<string, ParticipantStats>,
    sentiment_summary: Option<string>)

  datatype RetrievedMessage = RetrievedMessage(content: string, timestamp: string, relevance_score: Option<real>)

  datatype RetrievedContext = RetrievedContext(messages: seq<RetrievedMessage>)
}
