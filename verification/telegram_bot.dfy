/**
  The simpler Telegram bridge's `handle_message`: it skips updates without
  text, posts a payload to the server and picks the reply text from the answer.
  Only failures inside its `try` become an "Error: ..." reply; reading the
  user or the date of the update happens before it, and a failure there
  escapes the handler. The HTTP call is a parameter; sending is outside the model.
 */
module TelegramBot {
  import opened Strings
  import opened Values
  import opened Types
  import TelegramBridge
  import DecisionEngine
  import Normalizer
  import Turn
  import Server

  /** The payload posted to the server. */
  datatype BotPayload = BotPayload(group_id: string, content: string, user: string, platform: string, timestamp: string)

  /** The server's answer: the status, and the outcome of `response.json()`. */
  datatype Answer = Answer(status: int, json: Result<Value>)

  /** What the handler did: the payload it posted, if any, and the text it replied with, if any. */
  datatype BotTurn = BotTurn(payload: Option<BotPayload>, reply: Option<Value>)

  /** `username or first_name or str(id)`. */
  function UserLabel(u: TelegramBridge.TgUser): (shown: string)
    ensures IsSet(u.username) ==> shown == u.username.value
    ensures !IsSet(u.username) && IsSet(u.firstName) ==> shown == u.firstName.value
    ensures !IsSet(u.username) && !IsSet(u.firstName) ==> shown == IntToString(u.id)
  {
    FirstSet(u.username, u.firstName, IntToString(u.id))
  }

  /** The text selected from a 200 answer whose flag is truthy: the `response`
      key when present (whatever its value), else the `message` key; a dict's
      truthy `content`, else the string form of a truthy value, else nothing. */
  function SelectText(data: map<string, Value>, repr: Value -> string): (t: Option<Value>)
    ensures "response" in data && !data["response"].Obj? ==>
      t == (if PyTruthy(data["response"]) && PyStr(data["response"], repr) != "" then Some(Str(PyStr(data["response"], repr))) else None)
    ensures "response" !in data && "message" in data && !data["message"].Obj? ==>
      t == (if PyTruthy(data["message"]) && PyStr(data["message"], repr) != "" then Some(Str(PyStr(data["message"], repr))) else None)
    ensures "response" !in data && "message" !in data ==> t == None
    // a dict keeps its content when truthy; an empty content falls back to the dict's own string form
    ensures var raw := PyGet(data, "response", PyGet(data, "message", Null));
      raw.Obj? ==>
        && (PyTruthy(PyGet(raw.fields, "content", Null)) ==> t == Some(PyGet(raw.fields, "content", Null)))
        && (!PyTruthy(PyGet(raw.fields, "content", Null)) ==> t == (if |raw.fields| > 0 && repr(raw) != "" then Some(Str(repr(raw))) else None))
    ensures t.Some? ==> PyTruthy(t.value)
  {
    var raw := PyGet(data, "response", PyGet(data, "message", Null));
    var fromDict := if raw.Obj? then PyGet(raw.fields, "content", Null) else Null;
    if PyTruthy(fromDict) then Some(fromDict)
    else if PyTruthy(raw) then
      var s := PyStr(raw, repr);
      if s != "" then Some(Str(s)) else None
    else None
  }

  /** `update.message`: only an update carrying a new message has it; edited
      messages and channel posts come under other attributes. */
  function MessageAttribute(update: TelegramBridge.Update): Option<TelegramBridge.TgMessage> {
    if update.kind == TelegramBridge.NewMessage then update.message else None
  }

  /** The object posted to the server. */
  function PayloadObject(p: BotPayload): map<string, Value> {
    map["group_id" := Str(p.group_id), "content" := Str(p.content), "user" := Str(p.user),
        "platform" := Str(p.platform), "timestamp" := Str(p.timestamp)]
  }

  function HandleMessage(update: TelegramBridge.Update, post: BotPayload -> Result<Answer>, repr: Value -> string): (r: Result<BotTurn>)
    // edited messages and channel posts have no `message`: nothing is posted and nothing is said
    ensures update.kind != TelegramBridge.NewMessage ==> r == Ok(BotTurn(None, None))
    // no message or no text: the same
    ensures update.message.None? || !IsSet(update.message.value.text) ==> r == Ok(BotTurn(None, None))
    // outside the try: a missing user or date raises out of the handler
    ensures update.kind == TelegramBridge.NewMessage && update.message.Some? && IsSet(update.message.value.text) ==>
      (r.Err? <==> update.user.None? || update.message.value.date.None?)
    ensures r.Ok? && r.value.payload.Some? ==>
      var p := r.value.payload.value;
      && update.kind == TelegramBridge.NewMessage
      && p.platform == "telegram"
      && p.group_id == IntToString(update.chat.id)
      && p.content == update.message.value.text.value
      && p.user == UserLabel(update.user.value)
      && p.timestamp == update.message.value.date.value.iso
    // a reply other than an error report needs a 200 answer, a dict body and a truthy flag
    ensures r.Ok? && r.value.payload.Some? && r.value.reply.Some? ==>
      var answer := post(r.value.payload.value);
      || (answer.Ok? && answer.value.status == 200 && answer.value.json.Ok? && answer.value.json.value.Obj?
          && PyTruthy(Field(answer.value.json.value.fields, "should_respond"))
          && r.value.reply == SelectText(answer.value.json.value.fields, repr))
      || (r.value.reply.value.Str? && IsPrefix("Error: ", r.value.reply.value.s))
    // the reply is the one the answer to the posted payload calls for
    ensures r.Ok? && r.value.payload.Some? ==> r.value.reply == Reply(post(r.value.payload.value), repr)
    // without a payload nothing is said
    ensures r.Ok? && r.value.payload.None? ==> r.value.reply.None?
  {
    var m := MessageAttribute(update);
    if m.None? || !IsSet(m.value.text) then Ok(BotTurn(None, None))
    else if update.user.None? then Err(NoAttributeError(Null, "username"))
    else if m.value.date.None? then Err(NoAttributeError(Null, "isoformat"))
    else
      var payload := BotPayload(IntToString(update.chat.id), m.value.text.value, UserLabel(update.user.value), "telegram", m.value.date.value.iso);
      Ok(BotTurn(Some(payload), Reply(post(payload), repr)))
  }

  /** The body of the `try`: the reply for the outcome of the post. Every
      failure inside it is reported as "Error: " and the exception's text. */
  function Reply(answer: Result<Answer>, repr: Value -> string): (reply: Option<Value>)
    ensures reply.Some? ==> reply.value.Str? || PyTruthy(reply.value)
    ensures answer.Err? ==> reply == Some(Str("Error: " + answer.error))
    ensures answer.Ok? && answer.value.status != 200 ==> reply.None?
    // an unreadable body, or one that is not a dict and so has no `get`, is reported too
    ensures answer.Ok? && answer.value.status == 200 && answer.value.json.Err? ==>
      reply == Some(Str("Error: " + answer.value.json.error))
    ensures answer.Ok? && answer.value.status == 200 && answer.value.json.Ok? && !answer.value.json.value.Obj? ==>
      reply == Some(Str("Error: " + NoGetError(answer.value.json.value)))
    // a dict body: the selected text when the flag is truthy, else nothing
    ensures answer.Ok? && answer.value.status == 200 && answer.value.json.Ok? && answer.value.json.value.Obj? ==>
      reply == if PyTruthy(Field(answer.value.json.value.fields, "should_respond"))
               then SelectText(answer.value.json.value.fields, repr) else None
  {
    if answer.Err? then Some(Str("Error: " + answer.error))
    else if answer.value.status != 200 then None
    else match answer.value.json
      case Err(e) => Some(Str("Error: " + e))
      case Ok(data) =>
        if !data.Obj? then Some(Str("Error: " + NoGetError(data)))
        else if !PyTruthy(Field(data.fields, "should_respond")) then None
        else SelectText(data.fields, repr)
  }

  /** `response` is chosen by presence: an empty `response` hides a non-empty
      `message`, and nothing is sent. */
  lemma PresenceBeatsTruthiness(message: string, repr: Value -> string)
    requires message != ""
    ensures SelectText(map["should_respond" := Bool(true), "response" := Str(""), "message" := Str(message)], repr) == None
  {
  }

  /** A dict reply with empty content is sent as the dict's string form. */
  lemma EmptyContentSendsDict(data: map<string, Value>, fields: map<string, Value>, repr: Value -> string)
    requires "response" in data && data["response"] == Obj(fields)
    requires "content" in fields && fields["content"] == Str("")
    requires repr(Obj(fields)) != ""
    ensures SelectText(data, repr) == Some(Str(repr(Obj(fields))))
  {
  }

  /** On a decision body from the server (a dict reply with non-empty content)
      the reply is that content. */
  lemma DecisionBodyReply(content: string, kind: string, repr: Value -> string)
    requires content != ""
    ensures var reply := Obj(map["type" := Str(kind), "content" := Str(content)]);
      SelectText(map["should_respond" := Bool(true), "response" := reply], repr) == Some(Str(content))
  {
    var reply := Obj(map["type" := Str(kind), "content" := Str(content)]);
    assert PyGet(reply.fields, "content", Null) == Str(content);
  }
  /** On the server's decision body the reply is the decision's content exactly
      when the decision responds. */
  lemma DecisionReply(d: AIResponse, repr: Value -> string)
    requires DecisionEngine.Canonical(d)
    ensures Reply(Ok(Answer(200, Ok(Obj(ResponseObject(d))))), repr)
      == if d.should_respond then Some(Str(d.response.value.content)) else None
  {
  }

  /** The bot sends its label under `user`, a key the server does not read:
      every sender is "Unknown" to the server, and the label travels on as an
      extra field. */
  lemma ServerSeesNoSender(p: BotPayload, clock: Normalizer.Clock)
    ensures var n := Normalizer.Normalize(PayloadObject(p), clock);
      && n.user_name == "Unknown" && n.user_id == ""
      && n.group_id == Trim(JS, p.group_id) && n.content == Trim(JS, p.content)
      && n.extra == map["user" := Str(p.user)]
  {
    var o := PayloadObject(p);
    assert Field(o, "user_name") == Undefined && Field(o, "user_id") == Undefined;
    assert Field(o, "group_id") == Str(p.group_id) && Field(o, "content") == Str(p.content);
    var e := Normalizer.Extra(o);
    assert e.Keys == {"user"} by {
      assert o.Keys == {"group_id", "content", "user", "platform", "timestamp"};
    }
    assert e == map["user" := Str(p.user)];
    Normalizer.CoerceTextOfString(Str(p.group_id));
  }

  /** Whatever the bot posts, a reply comes back exactly when the server answers
      200 with a decision to respond, and it is the decision's content. */
  lemma ServerReply(body: Value, clock: Normalizer.Clock, sv: Turn.Services, repr: Value -> string)
    ensures var x := Server.Handle(body, clock, sv).response;
      Reply(Ok(Answer(x.status, Ok(Obj(x.body)))), repr)
        == if x.status == 200 && body.Obj? && Turn.AllSucceed(Normalizer.Normalize(body.fields, clock), sv, Normalizer.Normalize(body.fields, clock).platform)
           then
             var n := Normalizer.Normalize(body.fields, clock);
             var d := Turn.DecisionOf(n, sv, n.platform);
             if d.should_respond then Some(Str(d.response.value.content)) else None
           else None
  {
    var x := Server.Handle(body, clock, sv).response;
    if x.status == 200 {
      var n := Normalizer.Normalize(body.fields, clock);
      DecisionReply(Turn.DecisionOf(n, sv, n.platform), repr);
    }
  }
}
