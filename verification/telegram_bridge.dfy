/**
  The Telegram bridge's pure helpers: content extraction (text, caption or a
  media placeholder), the payload for the server, and the gate that decides
  whether the server's answer becomes a reply. Python semantics throughout:
  `or` on strings, `str.strip()`, truthiness of dicts. The Telegram client,
  polling and the HTTP call to the server are outside the model.
 */
module TelegramBridge {
  import opened Strings
  import opened Values
  import opened Types
  import DecisionEngine
  import Normalizer
  import Server

  /** The media a message can carry without text, in the order they are tried. */
  datatype Media = Photo | Video | Document | Voice | Sticker | Animation

  const MediaOrder: seq<Media> := [Photo, Video, Document, Voice, Sticker, Animation]

  function Placeholder(k: Media): (p: string)
    ensures p != "" && Trimmed(Python, p)
  {
    match k
    case Photo => "[User sent a photo]"
    case Video => "[User sent a video]"
    case Document => "[User sent a document]"
    case Voice => "[User sent a voice message]"
    case Sticker => "[User sent a sticker]"
    case Animation => "[User sent a GIF]"
  }

  /** The ISO rendering of `msg.date` and whether it carries a time zone. */
  datatype Date = Date(iso: string, aware: bool)

  /** A message: its text and caption, which media it holds (each flag is the
      attribute's truthiness), its date and id. */
  datatype TgMessage = TgMessage(
    text: Option<string>,
    caption: Option<string>,
    photo: bool, video: bool, document: bool, voice: bool, sticker: bool, animation: bool,
    date: Option<Date>,
    messageId: int)

  datatype TgUser = TgUser(id: int, username: Option<string>, firstName: Option<string>, lastName: Option<string>)

  datatype TgChat = TgChat(id: int, title: Option<string>)

  /** Which field of the update carries its message. */
  datatype UpdateKind = NewMessage | EditedMessage | ChannelPost | EditedChannelPost

  /** An update: its kind, the effective message (whatever field carries it),
      the effective user (absent for channel posts) and the effective chat. */
  datatype Update = Update(kind: UpdateKind, message: Option<TgMessage>, user: Option<TgUser>, chat: TgChat)

  /** The payload posted to the server. */
  datatype Payload = Payload(
    platform: string, group_id: string, user_id: string, user_name: string,
    content: string, timestamp: string, message_id: string)

  predicate Has(msg: TgMessage, k: Media) {
    match k
    case Photo => msg.photo
    case Video => msg.video
    case Document => msg.document
    case Voice => msg.voice
    case Sticker => msg.sticker
    case Animation => msg.animation
  }

  /** Index in `MediaOrder` of the first medium the message holds, at or after
      `from`; `|MediaOrder|` when it holds none. */
  function FirstMedia(msg: TgMessage, from: nat): (k: nat)
    requires from <= |MediaOrder|
    ensures from <= k <= |MediaOrder|
    ensures k < |MediaOrder| ==> Has(msg, MediaOrder[k])
    ensures forall j :: from <= j < k ==> !Has(msg, MediaOrder[j])
    decreases |MediaOrder| - from
  {
    if from == |MediaOrder| || Has(msg, MediaOrder[from]) then from else FirstMedia(msg, from + 1)
  }

  /** `(msg.text or msg.caption or "").strip()`. */
  function TextOf(msg: TgMessage): string {
    Trim(Python, FirstSet(msg.text, msg.caption, ""))
  }

  /** `_extract_content`: the stripped text or caption when non-empty, else the
      placeholder of the first medium present, else `None`. */
  function ExtractContent(msg: Option<TgMessage>): (r: Option<string>)
    ensures msg.None? ==> r.None?
    ensures msg.Some? && TextOf(msg.value) != "" ==> r == Some(TextOf(msg.value))
    // without text the media are tried in order, and the first one present names the placeholder
    ensures msg.Some? && TextOf(msg.value) == "" ==>
      var k := FirstMedia(msg.value, 0);
      r == if k < |MediaOrder| then Some(Placeholder(MediaOrder[k])) else None
    ensures r.Some? ==> r.value != "" && Trimmed(Python, r.value)
  {
    if msg.None? then None
    else
      var m := msg.value;
      var text := TextOf(m);
      if text != "" then Some(text)
      else if m.photo then Some("[User sent a photo]")
      else if m.video then Some("[User sent a video]")
      else if m.document then Some("[User sent a document]")
      else if m.voice then Some("[User sent a voice message]")
      else if m.sticker then Some("[User sent a sticker]")
      else if m.animation then Some("[User sent a GIF]")
      else None
  }

  /** Whitespace-only text is a non-empty string, so `or` keeps it and the
      caption is never read: the message is treated as having no text. */
  lemma {:induction false} BlankTextShadowsCaption(m: TgMessage)
    requires m.text.Some? && m.text.value != "" && AllSpace(Python, m.text.value)
    ensures ExtractContent(Some(m)) == ExtractContent(Some(m.(caption := None, text := None)))
    ensures m.caption.Some? && m.caption.value != "" && FirstMedia(m, 0) == |MediaOrder| ==> ExtractContent(Some(m)) == None
  {
    TrimSpec(Python, m.text.value);
    TrimSpec(Python, "");
    assert FirstMedia(m, 0) == FirstMedia(m.(caption := None, text := None), 0) by {
      SameMedia(m, m.(caption := None, text := None), 0);
    }
  }

  /** Messages holding the same media have the same first medium. */
  lemma {:induction false} SameMedia(a: TgMessage, b: TgMessage, from: nat)
    requires from <= |MediaOrder|
    requires forall k :: Has(a, k) == Has(b, k)
    ensures FirstMedia(a, from) == FirstMedia(b, from)
    decreases |MediaOrder| - from
  {
    if from < |MediaOrder| && !Has(a, MediaOrder[from]) {
      SameMedia(a, b, from + 1);
    }
  }

  /** The sender's name: user name, first name, last name, "User"; for a post
      without a user, the chat title or "Channel". */
  function SenderName(update: Update): (name: string)
    ensures name != ""
    ensures update.user.None? ==> name == FirstSet(update.chat.title, None, "Channel")
    ensures update.user.Some? ==>
      var u := update.user.value;
      && (IsSet(u.username) ==> name == u.username.value)
      && (!IsSet(u.username) && IsSet(u.firstName) ==> name == u.firstName.value)
      && (!IsSet(u.username) && !IsSet(u.firstName) && IsSet(u.lastName) ==> name == u.lastName.value)
      && (!IsSet(u.username) && !IsSet(u.firstName) && !IsSet(u.lastName) ==> name == "User")
  {
    if update.user.Some? then
      var u := update.user.value;
      FirstSet(u.username, u.firstName, FirstSet(u.lastName, None, "User"))
    else FirstSet(update.chat.title, None, "Channel")
  }

  /** `ts.isoformat()`, with "Z" appended when the date has no time zone; the
      current time when there is no date. */
  function Timestamp(date: Option<Date>, nowIso: string): (t: string)
    ensures date.Some? && date.value.aware ==> t == date.value.iso
    ensures date.Some? && !date.value.aware ==> t == date.value.iso + "Z"
    ensures date.None? ==> t == nowIso
  {
    if date.Some? then date.value.iso + (if date.value.aware then "" else "Z") else nowIso
  }

  /** `_build_payload`; `nowIso` is `datetime.now(timezone.utc).isoformat()`. */
  function BuildPayload(update: Update, nowIso: string): (p: Option<Payload>)
    // no payload exactly when there is no message or nothing to say about it
    ensures p.None? <==> update.message.None? || ExtractContent(update.message).None?
    ensures p.Some? ==>
      && p.value.platform == "telegram"
      && p.value.group_id == IntToString(update.chat.id)
      && p.value.content == ExtractContent(update.message).value
      && p.value.message_id == IntToString(update.message.value.messageId)
      && p.value.timestamp == Timestamp(update.message.value.date, nowIso)
      // a post without a user is attributed to the chat
      && p.value.user_id == IntToString(if update.user.Some? then update.user.value.id else update.chat.id)
      && p.value.user_name == SenderName(update) && p.value.user_name != ""
  {
    if update.message.None? then None
    else
      var content := ExtractContent(update.message);
      if content.None? || content.value == "" then None
      else
        var userId := if update.user.Some? then IntToString(update.user.value.id) else IntToString(update.chat.id);
        var name := SenderName(update);
        Some(Payload("telegram", IntToString(update.chat.id), userId, if name != "" then name else "Unknown",
                     content.value, Timestamp(update.message.value.date, nowIso),
                     IntToString(update.message.value.messageId)))
  }

  /** The JSON object posted to the server. */
  function PayloadObject(p: Payload): map<string, Value> {
    map["platform" := Str(p.platform), "group_id" := Str(p.group_id), "user_id" := Str(p.user_id),
        "user_name" := Str(p.user_name), "content" := Str(p.content), "timestamp" := Str(p.timestamp),
        "message_id" := Str(p.message_id)]
  }

  /** The reply gate of `handle_message` on the decoded answer (`Null` when the
      call failed): the text to send, if any. `repr` renders lists and dicts for
      `str`. `Err` when a truthy answer is not a dict, since it has no `get`. */
  function ReplyGate(response: Value, repr: Value -> string): (r: Result<Option<string>>)
    ensures r.Err? <==> PyTruthy(response) && !response.Obj?
    // a reply is sent exactly when the flag is truthy, the reply is a non-empty dict and its content is truthy and non-blank
    ensures r.Ok? && r.value.Some? <==>
      && response.Obj?
      && PyTruthy(Field(response.fields, "should_respond"))
      && var reply := Field(response.fields, "response");
        && reply.Obj? && |reply.fields| > 0
        && PyTruthy(Field(reply.fields, "content"))
        && !AllSpace(Python, PyStr(Field(reply.fields, "content"), repr))
    // the text sent is the stripped string form of the content
    ensures r.Ok? && r.value.Some? ==>
      r.value.value == Trim(Python, PyStr(Field(Field(response.fields, "response").fields, "content"), repr))
    ensures r.Ok? && r.value.Some? ==> r.value.value != "" && Trimmed(Python, r.value.value)
  {
    if !PyTruthy(response) then Ok(None)
    else if !response.Obj? then Err(NoGetError(response))
    else if !PyTruthy(Field(response.fields, "should_respond")) then Ok(None)
    else
      var reply := Field(response.fields, "response");
      if !PyTruthy(reply) || !reply.Obj? then Ok(None)
      else
        var content := Field(reply.fields, "content");
        TrimSpec(Python, PyStr(content, repr));
        if !PyTruthy(content) || Trim(Python, PyStr(content, repr)) == "" then Ok(None)
        else Ok(Some(Trim(Python, PyStr(content, repr))))
  }

  /** The gate declines the server's 500 body. In the bridge that body does not
      even reach the gate: `urlopen` raises on a 500 status, and the call
      returns `None`. */
  lemma FailureBodyIsSilent(platform: Value, group: string, repr: Value -> string)
    ensures ReplyGate(Obj(map["should_respond" := Bool(false), "platform" := platform, "group_id" := Str(group),
                              "error" := Str("AI processing failed")]), repr) == Ok(None)
  {
  }
  /** The server reads the payload as sent: it passes validation, and the
      normalized message keeps the platform, the ids, the timestamp and, up to
      JavaScript's wider notion of whitespace, the name and the content; nothing
      is carried over as an extra field. */
  lemma ServerReadsPayload(update: Update, nowIso: string, clock: Normalizer.Clock)
    requires BuildPayload(update, nowIso).Some?
    ensures var p := BuildPayload(update, nowIso).value;
      var n := Normalizer.Normalize(PayloadObject(p), clock);
      && Server.Valid(Obj(PayloadObject(p)))
      && n.platform == Str("telegram")
      && n.group_id == p.group_id && n.user_id == p.user_id && n.message_id == p.message_id
      && n.content == Trim(JS, p.content) && n.user_name == Trim(JS, p.user_name)
      && (p.timestamp != "" ==> n.timestamp == Str(p.timestamp))
      && n.extra == map[]
  {
    var p := BuildPayload(update, nowIso).value;
    NormalizedPayload(p, clock);
  }

  lemma NormalizedPayload(p: Payload, clock: Normalizer.Clock)
    requires p.platform == "telegram" && p.content != "" && p.user_name != ""
    requires Trimmed(JS, p.group_id) && Trimmed(JS, p.user_id) && Trimmed(JS, p.message_id)
    requires p.group_id != ""
    ensures var n := Normalizer.Normalize(PayloadObject(p), clock);
      && Server.Valid(Obj(PayloadObject(p)))
      && n.platform == Str("telegram")
      && n.group_id == p.group_id && n.user_id == p.user_id && n.message_id == p.message_id
      && n.content == Trim(JS, p.content) && n.user_name == Trim(JS, p.user_name)
      && (p.timestamp != "" ==> n.timestamp == Str(p.timestamp))
      && n.extra == map[]
  {
    var o := PayloadObject(p);
    PayloadFields(p);
    Normalizer.CoerceTextOfString(Str(p.group_id));
    Normalizer.CoerceTextOfString(Str(p.user_id));
    Normalizer.CoerceTextOfString(Str(p.message_id));
    TrimOfTrimmed(JS, p.group_id);
    TrimOfTrimmed(JS, p.user_id);
    TrimOfTrimmed(JS, p.message_id);
  }

  lemma PayloadFields(p: Payload)
    ensures var o := PayloadObject(p);
      && Field(o, "platform") == Str(p.platform) && Field(o, "group_id") == Str(p.group_id)
      && Field(o, "user_id") == Str(p.user_id) && Field(o, "user_name") == Str(p.user_name)
      && Field(o, "content") == Str(p.content) && Field(o, "timestamp") == Str(p.timestamp)
      && Field(o, "message_id") == Str(p.message_id)
      && Normalizer.Extra(o) == map[]
  {
    var o := PayloadObject(p);
    assert o.Keys == {"platform", "group_id", "user_id", "user_name", "content", "timestamp", "message_id"};
    assert Normalizer.Extra(o).Keys == {};
  }

  /** On the server's decision body the gate sends the decision's content,
      stripped by Python's rules, when anything is left of it. */
  lemma DecisionGate(d: AIResponse, repr: Value -> string)
    requires DecisionEngine.Canonical(d)
    ensures ReplyGate(Obj(ResponseObject(d)), repr)
      == Ok(if d.should_respond && Trim(Python, d.response.value.content) != ""
            then Some(Trim(Python, d.response.value.content)) else None)
  {
    if d.should_respond {
      var reply := Field(ResponseObject(d), "response");
      assert "content" in reply.fields;
      TrimSpec(Python, d.response.value.content);
    }
  }

  /** U+001C is no whitespace to JavaScript's `trim`, so the server keeps a
      reply made of it, but it is to Python's `strip`, so the bridge sends
      nothing. */
  lemma SeparatorReplyDropped(platform: Value, group: Value, repr: Value -> string)
    ensures var d := AIResponse(true, platform, group, Some(Reply(Text, "\U{1C}", Undefined, Undefined)));
      && DecisionEngine.Canonical(d)
      && ReplyGate(Obj(ResponseObject(d)), repr) == Ok(None)
  {
    var d := AIResponse(true, platform, group, Some(Reply(Text, "\U{1C}", Undefined, Undefined)));
    assert Trim(Python, "\U{1C}") == "" by { TrimSpec(Python, "\U{1C}"); }
    DecisionGate(d, repr);
  }
}
