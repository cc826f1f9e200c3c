/**
  The Discord `messageCreate` handler: it ignores bots and blank messages,
  builds the incoming object with Discord-specific fallbacks, runs the turn
  pipeline under the group lock and replies in the channel when the decision
  says so. Errors are caught inside the handler, so none escapes. The gateway
  client, login and the asynchronous scheduling of the turn are outside the model.
 */
module DiscordBot {
  import opened Strings
  import opened Values
  import opened Types
  import opened Turn
  import Normalizer

  datatype Author = Author(bot: bool, id: string, username: Option<string>, globalName: Option<string>)

  datatype Channel = Channel(id: string)

  /** The fields of a (possibly partial) Discord message the handler reads;
      `createdAt` is the ISO rendering of the creation date. */
  datatype DiscordMessage = DiscordMessage(
    author: Option<Author>,
    content: Option<string>,
    channel: Option<Channel>,
    createdAt: Option<string>,
    id: Option<string>)

  /** The clock readings: the normalizer's two, and `Date.now()` in milliseconds
      for a missing message id. The fallback timestamp doubles as the handler's
      own `new Date().toISOString()`. */
  datatype Clock = Clock(iso: Normalizer.Clock, nowMs: nat)

  /** The steps a turn took and the reply text it sent, if any. */
  datatype Served = Served(events: seq<Stage>, reply: Option<string>)

  /** What the handler did: nothing, or a turn for the normalized message. */
  datatype Delivery =
    | Ignored
    | Processed(normalized: NormalizedMessage, served: Served)

  predicate FromBot(m: DiscordMessage) {
    m.author.Some? && m.author.value.bot
  }

  /** `(message.content || "").trim()`. */
  function Text(m: DiscordMessage): (t: string)
    ensures Trimmed(JS, t)
    ensures m.content.Some? ==> t == Trim(JS, m.content.value)
  {
    TrimSpec(JS, "");
    Trim(JS, if m.content.Some? then m.content.value else "")
  }

  function GroupId(m: DiscordMessage): string {
    FirstSet(if m.channel.Some? then Some(m.channel.value.id) else None, None, "unknown")
  }

  function UserId(m: DiscordMessage): string {
    FirstSet(if m.author.Some? then Some(m.author.value.id) else None, None, "unknown")
  }

  function UserName(m: DiscordMessage): string {
    if m.author.Some? then FirstSet(m.author.value.username, m.author.value.globalName, "User") else "User"
  }

  function Timestamp(m: DiscordMessage, clock: Clock): string {
    FirstSet(m.createdAt, None, clock.iso.fallbackTimestamp)
  }

  function MessageId(m: DiscordMessage, clock: Clock): string {
    FirstSet(m.id, None, "discord_" + NatToString(clock.nowMs))
  }

  /** The object handed to the normalizer. */
  function Incoming(m: DiscordMessage, clock: Clock): (o: map<string, Value>)
    ensures o.Keys == {"platform", "group_id", "user_id", "user_name", "content", "timestamp", "message_id"}
    ensures o.Keys <= NormalizedKeys
  {
    map[
      "platform" := Str("discord"),
      "group_id" := Str(GroupId(m)),
      "user_id" := Str(UserId(m)),
      "user_name" := Str(UserName(m)),
      "content" := Str(Text(m)),
      "timestamp" := Str(Timestamp(m, clock)),
      "message_id" := Str(MessageId(m, clock))]
  }

  /** The reply the handler sends for a decision: its content, when it says to
      respond, the content is non-empty and the message has a channel. */
  function ReplyFor(decision: Result<AIResponse>, m: DiscordMessage): (r: Option<string>)
    ensures r.Some? <==> decision.Ok? && decision.value.should_respond && decision.value.response.Some?
                         && decision.value.response.value.content != "" && m.channel.Some?
    ensures r.Some? ==> r.value == decision.value.response.value.content
  {
    if decision.Ok? && decision.value.should_respond && decision.value.response.Some?
       && decision.value.response.value.content != "" && m.channel.Some?
    then Some(decision.value.response.value.content)
    else None
  }

  function OnMessage(m: DiscordMessage, clock: Clock, sv: Services): (d: Delivery)
    // bots and blank messages are dropped before anything else happens
    ensures d.Ignored? <==> FromBot(m) || Text(m) == ""
    // everything else is normalized and served
    ensures d.Processed? ==>
      && d.normalized == Normalizer.Normalize(Incoming(m, clock), clock.iso)
      && d.served == Serve(d.normalized, m, sv)
  {
    if FromBot(m) || Text(m) == "" then Ignored
    else
      var n := Normalizer.Normalize(Incoming(m, clock), clock.iso);
      Processed(n, Serve(n, m, sv))
  }

  /** The turn inside `try`/`catch`/`finally`, for the normalized message `n`. */
  function Serve(n: NormalizedMessage, m: DiscordMessage, sv: Services): (s: Served)
    // a failed acquisition is caught, and the group entry is still released
    ensures sv.acquire(n.group_id).Err? ==> s == Served([AcquireLock, ReleaseGroup], None)
    // once acquired, the stages run in order, the reply (if any) follows them, and both releases close the turn
    ensures sv.acquire(n.group_id).Ok? ==>
      var o := RunStages(n, sv, Str("discord"));
      && s.reply == ReplyFor(o.decision, m)
      && s.events == [AcquireLock] + o.Run() + (if s.reply.Some? then [SendReply] else []) + [CallRelease, ReleaseGroup]
  {
    match sv.acquire(n.group_id)
    case Err(_) => Served([AcquireLock, ReleaseGroup], None)
    case Ok(_) =>
      var o := RunStages(n, sv, Str("discord"));
      var reply := ReplyFor(o.decision, m);
      Served([AcquireLock] + o.Run() + (if reply.Some? then [SendReply] else []) + [CallRelease, ReleaseGroup], reply)
  }

  /** The fields of the incoming object, looked up one by one. */
  lemma IncomingFields(m: DiscordMessage, clock: Clock)
    ensures var o := Incoming(m, clock);
      && Field(o, "platform") == Str("discord")
      && Field(o, "group_id") == Str(GroupId(m))
      && Field(o, "user_id") == Str(UserId(m))
      && Field(o, "user_name") == Str(UserName(m))
      && Field(o, "content") == Str(Text(m))
  {
  }

  /** What the normalizer makes of the Discord fields: the platform tag, the
      message text unchanged (it is already trimmed), and nothing extra. */
  lemma NormalizedContent(m: DiscordMessage, clock: Clock)
    ensures var n := Normalizer.Normalize(Incoming(m, clock), clock.iso);
      && n.platform == Str("discord")
      && n.content == Text(m)
      && n.extra == map[]
  {
    var msg := Incoming(m, clock);
    var n := Normalizer.Normalize(msg, clock.iso);
    IncomingFields(m, clock);
    TrimOfTrimmed(JS, Text(m));
    assert n.extra.Keys == {};
  }

  /** The identifiers are the Discord ones (or their fallbacks), trimmed. */
  lemma NormalizedIds(m: DiscordMessage, clock: Clock)
    ensures var n := Normalizer.Normalize(Incoming(m, clock), clock.iso);
      n.group_id == Trim(JS, GroupId(m)) && n.user_id == Trim(JS, UserId(m))
  {
    IncomingFields(m, clock);
    Normalizer.CoerceTextOfString(Str(GroupId(m)));
    Normalizer.CoerceTextOfString(Str(UserId(m)));
  }

  /** The display name is the Discord one (or its fallback), trimmed: never
      the user id, since the handler's own fallback already filled it. */
  lemma NormalizedUserName(m: DiscordMessage, clock: Clock)
    ensures Normalizer.Normalize(Incoming(m, clock), clock.iso).user_name == Trim(JS, UserName(m))
  {
    IncomingFields(m, clock);
    assert UserName(m) != "";
    Normalizer.CoerceTextOfString(Str(UserName(m)));
  }

  /** Without a channel the group is "unknown", and without an author the user
      is "unknown" and named "User". */
  lemma Fallbacks(m: DiscordMessage)
    ensures m.channel.None? ==> GroupId(m) == "unknown"
    ensures m.author.None? ==> UserId(m) == "unknown" && UserName(m) == "User"
    ensures m.author.Some? && !IsSet(m.author.value.username) && IsSet(m.author.value.globalName) ==>
      UserName(m) == m.author.value.globalName.value
  {
  }

  /** On a decision the engine emitted, the content test adds nothing: the
      reply goes out exactly when the decision is to respond in a channel. */
  lemma ReplyForCanonical(decision: Result<AIResponse>, m: DiscordMessage)
    requires decision.Ok? ==> DecisionEngine.Canonical(decision.value)
    ensures ReplyFor(decision, m).Some? <==> decision.Ok? && decision.value.should_respond && m.channel.Some?
    ensures ReplyFor(decision, m).Some? ==> ReplyFor(decision, m).value != ""
  {
  }

  /** A reply goes out exactly when every stage succeeded, the decision is to
      respond and the message has a channel; it is the decision's content, which
      is never blank. */
  lemma ReplyIffRespondInChannel(n: NormalizedMessage, m: DiscordMessage, sv: Services)
    requires sv.acquire(n.group_id).Ok?
    ensures var s := Serve(n, m, sv);
      && (s.reply.Some? <==> AllSucceed(n, sv, Str("discord")) && DecisionOf(n, sv, Str("discord")).should_respond && m.channel.Some?)
      && (s.reply.Some? ==> s.reply.value == DecisionOf(n, sv, Str("discord")).response.value.content && s.reply.value != "")
  {
    ReplyForCanonical(RunStages(n, sv, Str("discord")).decision, m);
  }

  /** The reply step is taken exactly when a reply goes out. */
  lemma SendReplyIffReply(n: NormalizedMessage, m: DiscordMessage, sv: Services)
    ensures var s := Serve(n, m, sv);
      SendReply in s.events <==> s.reply.Some?
  {
    var s := Serve(n, m, sv);
    if sv.acquire(n.group_id).Ok? {
      TurnShape(s.events, RunStages(n, sv, Str("discord")).reached, s.reply.Some?);
    }
  }

  /** Every turn releases the group entry as its last step, even when the
      acquisition failed, and calls the lock's closure exactly when it got the lock. */
  lemma GroupAlwaysReleased(n: NormalizedMessage, m: DiscordMessage, sv: Services)
    ensures var s := Serve(n, m, sv);
      && |s.events| >= 2 && s.events[0] == AcquireLock && s.events[|s.events| - 1] == ReleaseGroup
      && (CallRelease in s.events <==> sv.acquire(n.group_id).Ok?)
  {
    var s := Serve(n, m, sv);
    if sv.acquire(n.group_id).Ok? {
      TurnShape(s.events, RunStages(n, sv, Str("discord")).reached, s.reply.Some?);
    }
  }

  /** The steps of a turn that got the lock: the acquisition first, the reply
      step only when replying, the two releases last. */
  lemma TurnShape(events: seq<Stage>, reached: nat, replied: bool)
    requires reached <= |Pipeline|
    requires events == [AcquireLock] + Pipeline[..reached] + (if replied then [SendReply] else []) + [CallRelease, ReleaseGroup]
    ensures SendReply in events <==> replied
    ensures |events| >= 3 && events[0] == AcquireLock && events[|events| - 1] == ReleaseGroup && CallRelease in events
  {
    assert SendReply !in Pipeline;
    assert SendReply !in Pipeline[..reached];
    assert events[|events| - 2] == CallRelease;
    if replied {
      assert events[|events| - 3] == SendReply;
    }
  }
}
