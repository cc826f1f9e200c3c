/**
  The WhatsApp bridge: the Twilio webhook, the payload it posts to the AI
  endpoint, the selection of the reply text from the answer, and the TwiML
  document it answers with. The text is escaped with the predefined entities
  of section 2.4 of XML 1.0 (`&amp;`, `&lt;`, `&gt;`). The aiohttp server, the
  HTTP call and the log file are outside the model.
 */
module WhatsAppBridge {
  import opened Strings
  import opened Values
  import opened Types
  import DecisionEngine
  import Normalizer
  import Turn
  import Server

  /** The payload posted to the AI endpoint; `timestamp` is `str(datetime.now())`. */
  datatype WaPayload = WaPayload(platform: string, group_id: string, user: string, message: string, timestamp: string)

  /** The AI endpoint's answer: status, `Content-Type`, and the outcomes of
      `resp.json()` and `resp.text()`. */
  datatype AiAnswer = AiAnswer(status: int, contentType: string, json: Result<Value>, text: Result<string>)

  datatype WebResponse = WebResponse(status: int, text: string)

  /** What the webhook did: the payload it posted, if any, and its response. */
  datatype Exchange = Exchange(asked: Option<WaPayload>, response: WebResponse)

  const Prolog: string := "<?xml version=\"1.0\" encoding=\"UTF-8\"?>"
  const Open: string := "<Response><Message>"
  const Close: string := "</Message></Response>"
  const EmptyTwiml: string := Prolog + "<Response></Response>"
  const Apology: string := "Sorry, something went wrong."

  /** `build_payload`: the sender is both the group and the user. */
  function BuildPayload(fromNum: string, body: string, now: string): (p: WaPayload)
    ensures p.platform == "whatsapp"
    ensures p.group_id == fromNum && p.user == fromNum
    ensures p.message == body && p.timestamp == now
  {
    WaPayload("whatsapp", fromNum, fromNum, body, now)
  }

  /** The JSON object posted to the AI endpoint. */
  function PayloadObject(p: WaPayload): map<string, Value> {
    map["platform" := Str(p.platform), "group_id" := Str(p.group_id), "user" := Str(p.user),
        "message" := Str(p.message), "timestamp" := Str(p.timestamp)]
  }

  /** The payload carries the text under `message`, not `content`: posted to the
      server's message handler it is refused as missing a required field, before
      any lock is taken. */
  lemma ServerRefusesPayload(fromNum: string, body: string, now: string, clock: Normalizer.Clock, sv: Turn.Services)
    ensures Server.Handle(Obj(PayloadObject(BuildPayload(fromNum, body, now))), clock, sv)
      == Server.Exchange([], Server.HttpResponse(400, Server.BadRequest))
  {
    var o := PayloadObject(BuildPayload(fromNum, body, now));
    assert "content" !in o;
  }

  /** `call_ai` after the request: the reply value, or the error it raises.
      `repr` renders a dict for `str`. */
  function CallAi(answer: Result<AiAnswer>, repr: Value -> string): (r: Result<Value>)
    ensures answer.Err? ==> r.Err?
    // a non-200 status reports the status and the body text
    ensures answer.Ok? && answer.value.status != 200 && answer.value.text.Ok? ==>
      r == Ok(Str("AI error (" + IntToString(answer.value.status) + "): " + answer.value.text.value))
    // JSON answers: the `response` key if present, else `message`, else the whole object's string form
    ensures answer.Ok? && answer.value.status == 200 && Contains(answer.value.contentType, "application/json")
            && answer.value.json.Ok? && answer.value.json.value.Obj? ==>
      var data := answer.value.json.value.fields;
      && ("response" in data ==> r == Ok(data["response"]))
      && ("response" !in data && "message" in data ==> r == Ok(data["message"]))
      && ("response" !in data && "message" !in data ==> r == Ok(Str(repr(answer.value.json.value))))
    // other answers are passed on as text
    ensures answer.Ok? && answer.value.status == 200 && !Contains(answer.value.contentType, "application/json") ==>
      r == (if answer.value.text.Ok? then Ok(Str(answer.value.text.value)) else Err(answer.value.text.error))
    // an unreadable JSON body, or an unreadable text on an error status, raises
    ensures && answer.Ok? && answer.value.status == 200
            && Contains(answer.value.contentType, "application/json") && answer.value.json.Err?
            ==> r == Err(answer.value.json.error)
    ensures answer.Ok? && answer.value.status != 200 && answer.value.text.Err? ==> r == Err(answer.value.text.error)
    // a JSON body that is not an object has no `get`
    ensures (answer.Ok? && answer.value.status == 200 && Contains(answer.value.contentType, "application/json")
             && answer.value.json.Ok? && !answer.value.json.value.Obj?) ==> r.Err?
  {
    if answer.Err? then Err(answer.error)
    else
      var a := answer.value;
      if a.status == 200 then
        if Contains(a.contentType, "application/json") then
          match a.json
          case Err(e) => Err(e)
          case Ok(data) =>
            if !data.Obj? then Err(NoGetError(data))
            else Ok(PyGet(data.fields, "response", PyGet(data.fields, "message", Str(PyStr(data, repr)))))
        else
          match a.text
          case Err(e) => Err(e)
          case Ok(t) => Ok(Str(t))
      else
        match a.text
        case Err(e) => Err(e)
        case Ok(t) => Ok(Str("AI error (" + IntToString(a.status) + "): " + t))
  }

  /** `s.replace(c, rep)` for a one-character pattern. */
  function ReplaceChar(s: string, c: char, rep: string): string
    decreases |s|
  {
    if |s| == 0 then "" else (if s[0] == c then rep else [s[0]]) + ReplaceChar(s[1..], c, rep)
  }

  /** `text.replace("&", "&amp;").replace("<", "&lt;").replace(">", "&gt;")`. */
  function Escape(text: string): string {
    ReplaceChar(ReplaceChar(ReplaceChar(text, '&', "&amp;"), '<', "&lt;"), '>', "&gt;")
  }

  /** The entity for one character, or the character itself. */
  function EscapeChar(c: char): (e: string)
    ensures |e| > 0 && (e[0] == '&' <==> c in "&<>")
  {
    if c == '&' then "&amp;" else if c == '<' then "&lt;" else if c == '>' then "&gt;" else [c]
  }

  /** The one-pass escape: each character replaced by its entity. */
  function EscapeEach(text: string): string
    decreases |text|
  {
    if |text| == 0 then "" else EscapeChar(text[0]) + EscapeEach(text[1..])
  }

  /** The left-to-right decoder of the three entities; any other `&` stays. */
  function Unescape(e: string): string
    decreases |e|
  {
    if |e| == 0 then ""
    else if IsPrefix("&amp;", e) then "&" + Unescape(e[5..])
    else if IsPrefix("&lt;", e) then "<" + Unescape(e[4..])
    else if IsPrefix("&gt;", e) then ">" + Unescape(e[4..])
    else [e[0]] + Unescape(e[1..])
  }

  /** The entity an `&` at `i` begins. */
  predicate EntityAt(e: string, i: nat)
    requires i <= |e|
  {
    IsPrefix("&amp;", e[i..]) || IsPrefix("&lt;", e[i..]) || IsPrefix("&gt;", e[i..])
  }

  lemma {:induction false} ReplaceCharAppend(a: string, b: string, c: char, rep: string)
    ensures ReplaceChar(a + b, c, rep) == ReplaceChar(a, c, rep) + ReplaceChar(b, c, rep)
    decreases |a|
  {
    if |a| == 0 {
      assert a + b == b;
    } else {
      assert (a + b)[1..] == a[1..] + b;
      ReplaceCharAppend(a[1..], b, c, rep);
    }
  }

  lemma {:induction false} ReplaceCharAbsent(s: string, c: char, rep: string)
    requires c !in s
    ensures ReplaceChar(s, c, rep) == s
    decreases |s|
  {
    if |s| > 0 {
      assert c !in s[1..];
      ReplaceCharAbsent(s[1..], c, rep);
    }
  }

  lemma ReplaceOne(ch: char, c: char, rep: string)
    ensures ReplaceChar([ch], c, rep) == if ch == c then rep else [ch]
  {
    assert [ch][1..] == "";
  }

  /** The three passes on one character give its entity: no entity contains a
      character a later pass replaces. */
  lemma EscapeOfChar(ch: char)
    ensures Escape([ch]) == EscapeChar(ch)
  {
    ReplaceOne(ch, '&', "&amp;");
    var one := ReplaceChar([ch], '&', "&amp;");
    if ch == '<' {
      ReplaceOne(ch, '<', "&lt;");
      ReplaceCharAbsent("&lt;", '>', "&gt;");
    } else if ch == '>' {
      ReplaceOne(ch, '<', "&lt;");
      ReplaceOne(ch, '>', "&gt;");
    } else if ch == '&' {
      ReplaceCharAbsent("&amp;", '<', "&lt;");
      ReplaceCharAbsent("&amp;", '>', "&gt;");
    } else {
      ReplaceOne(ch, '<', "&lt;");
      ReplaceOne(ch, '>', "&gt;");
    }
  }

  /** The three sequential passes equal the one-pass escape, because `&` is
      replaced first and no entity holds `<` or `>`. */
  lemma {:induction false} EscapeIsOnePass(text: string)
    ensures Escape(text) == EscapeEach(text)
    decreases |text|
  {
    if |text| > 0 {
      var head := [text[0]];
      assert text == head + text[1..];
      ReplaceCharAppend(head, text[1..], '&', "&amp;");
      ReplaceCharAppend(ReplaceChar(head, '&', "&amp;"), ReplaceChar(text[1..], '&', "&amp;"), '<', "&lt;");
      ReplaceCharAppend(ReplaceChar(ReplaceChar(head, '&', "&amp;"), '<', "&lt;"),
                        ReplaceChar(ReplaceChar(text[1..], '&', "&amp;"), '<', "&lt;"), '>', "&gt;");
      EscapeOfChar(text[0]);
      EscapeIsOnePass(text[1..]);
    }
  }

  /** The escaped text holds no raw `<` or `>`. */
  lemma {:induction false} NoRawAngles(text: string)
    ensures '<' !in EscapeEach(text) && '>' !in EscapeEach(text)
    decreases |text|
  {
    if |text| > 0 {
      NoRawAngles(text[1..]);
    }
  }

  lemma PrefixOfAppend(p: string, t: string)
    ensures IsPrefix(p, p + t) && (p + t)[|p|..] == t
  {
    assert (p + t)[..|p|] == p;
  }

  lemma NotPrefix(p: string, s: string, i: nat)
    requires i < |p| && i < |s| && s[i] != p[i]
    ensures !IsPrefix(p, s)
  {
  }

  /** An escaped character begins with `&` only when it is an entity, and
      holds no other `&`. */
  lemma EntityHead(c: char, rest: string)
    ensures var head := EscapeChar(c);
      && (head[0] == '&' ==> EntityAt(head + rest, 0))
      && (forall j :: 0 < j < |head| ==> head[j] != '&')
  {
    var head := EscapeChar(c);
    PrefixOfAppend(head, rest);
    assert (head + rest)[0..] == head + rest;
  }

  /** Every `&` in `e` begins one of the three entities. */
  predicate AmpersandsAreEntities(e: string) {
    forall i :: 0 <= i < |e| && e[i] == '&' ==> EntityAt(e, i)
  }

  /** Every `&` in the escaped text begins one of the three entities. */
  lemma {:induction false} AmpersandsBeginEntities(text: string)
    ensures AmpersandsAreEntities(EscapeEach(text))
    decreases |text|
  {
    if |text| > 0 {
      var head := EscapeChar(text[0]);
      var rest := EscapeEach(text[1..]);
      var e := head + rest;
      AmpersandsBeginEntities(text[1..]);
      assert AmpersandsAreEntities(rest);
      EntityHead(text[0], rest);
      forall i | 0 <= i < |e| && e[i] == '&'
        ensures EntityAt(e, i)
      {
        if i >= |head| {
          assert rest[i - |head|] == '&';
          assert e[i..] == rest[i - |head|..];
        } else {
          assert e[i] == head[i];
        }
      }
    }
  }

  /** Decoding one escaped character followed by anything. */
  lemma UnescapeStep(c: char, t: string)
    ensures Unescape(EscapeChar(c) + t) == [c] + Unescape(t)
  {
    var e := EscapeChar(c) + t;
    if c == '&' {
      PrefixOfAppend("&amp;", t);
    } else if c == '<' {
      NotPrefix("&amp;", e, 1);
      PrefixOfAppend("&lt;", t);
    } else if c == '>' {
      NotPrefix("&amp;", e, 1);
      NotPrefix("&lt;", e, 1);
      PrefixOfAppend("&gt;", t);
    } else {
      NotPrefix("&amp;", e, 0);
      NotPrefix("&lt;", e, 0);
      NotPrefix("&gt;", e, 0);
      PrefixOfAppend([c], t);
    }
  }

  /** Decoding left to right recovers the text. */
  lemma {:induction false} UnescapeEscape(text: string)
    ensures Unescape(EscapeEach(text)) == text
    decreases |text|
  {
    if |text| > 0 {
      UnescapeStep(text[0], EscapeEach(text[1..]));
      UnescapeEscape(text[1..]);
      assert text == [text[0]] + text[1..];
    }
  }

  /** Escaping `&` last turns `<` into `&amp;lt;`. */
  lemma AmpersandLastEscape()
    ensures ReplaceChar(ReplaceChar(ReplaceChar("<", '<', "&lt;"), '>', "&gt;"), '&', "&amp;") == "&amp;lt;"
  {
  }

  /** Escaping `&` last would break the round trip: `<` would decode as `&lt;`. */
  lemma AmpersandLastBreaksRoundTrip()
    ensures var late := ReplaceChar(ReplaceChar(ReplaceChar("<", '<', "&lt;"), '>', "&gt;"), '&', "&amp;");
      late == "&amp;lt;" && Unescape(late) == "&lt;"
  {
    AmpersandLastEscape();
    assert "&amp;lt;" == EscapeChar('&') + ("l" + ("t" + (";" + "")));
    UnescapeStep('&', "lt;");
    UnescapeStep('l', "t;");
    UnescapeStep('t', ";");
    UnescapeStep(';', "");
  }

  /** `twiml_message`: the prolog, the message element, the escaped text. */
  function Twiml(text: string): (doc: string)
    ensures doc == Prolog + Open + EscapeEach(text) + Close
  {
    EscapeIsOnePass(text);
    Prolog + Open + Escape(text) + Close
  }

  /** The message element's content decodes back to the text, and holds no markup. */
  lemma TwimlCarriesText(text: string)
    ensures var doc := Twiml(text);
      var body := doc[|Prolog + Open|..|doc| - |Close|];
      && body == EscapeEach(text)
      && Unescape(body) == text
      && '<' !in body && '>' !in body
  {
    var doc := Twiml(text);
    assert doc == (Prolog + Open) + EscapeEach(text) + Close;
    assert doc[|Prolog + Open|..|doc| - |Close|] == EscapeEach(text);
    UnescapeEscape(text);
    NoRawAngles(text);
  }

  /** `data.get(key)` on the form or query: the value when present. */
  function Lookup(data: map<string, string>, key: string): Option<string> {
    if key in data then Some(data[key]) else None
  }

  /** `(data.get("Body") or "").strip()`. */
  function Body(data: map<string, string>): string {
    Trim(Python, FirstSet(Lookup(data, "Body"), None, ""))
  }

  /** `data.get("From", "")`. */
  function Sender(data: map<string, string>): string {
    if "From" in data then data["From"] else ""
  }

  /** The document answering a reply: the reply itself when it is a string;
      any other reply has no `replace`, and the error is caught into the apology. */
  function Respond(reply: Result<Value>): (doc: string)
    ensures reply.Ok? && reply.value.Str? ==> doc == Twiml(reply.value.s)
    ensures !(reply.Ok? && reply.value.Str?) ==> doc == Twiml(Apology)
  {
    match reply
    case Ok(Str(text)) => Twiml(text)
    case _ => Twiml(Apology)
  }

  /** `webhook`. `form` is the outcome of reading the POST form (the query for a
      GET); `ai` is the call to the AI endpoint; `now` the payload's time. */
  function Webhook(httpMethod: string, form: Result<map<string, string>>, now: string,
                   ai: WaPayload -> Result<AiAnswer>, repr: Value -> string): (x: Exchange)
    // methods other than POST and GET get an empty 405
    ensures httpMethod !in {"POST", "GET"} <==> x.response.status == 405
    ensures httpMethod !in {"POST", "GET"} ==> x == Exchange(None, WebResponse(405, ""))
    ensures x.response.status in {200, 405}
    // a blank body gets an empty document and the AI is not asked
    ensures httpMethod in {"POST", "GET"} && form.Ok? && Body(form.value) == "" ==>
      x == Exchange(None, WebResponse(200, EmptyTwiml))
    // an unreadable form is caught into the apology
    ensures httpMethod in {"POST", "GET"} && form.Err? ==> x == Exchange(None, WebResponse(200, Twiml(Apology)))
    // otherwise the stripped body is posted for the sender, and the reply answered
    ensures httpMethod in {"POST", "GET"} && form.Ok? && Body(form.value) != "" ==>
      && x.asked == Some(BuildPayload(Sender(form.value), Body(form.value), now))
      && x.response == WebResponse(200, Respond(CallAi(ai(x.asked.value), repr)))
  {
    if httpMethod !in {"POST", "GET"} then Exchange(None, WebResponse(405, ""))
    else match form
      case Err(_) => Exchange(None, WebResponse(200, Twiml(Apology)))
      case Ok(data) =>
        if Body(data) == "" then Exchange(None, WebResponse(200, EmptyTwiml))
        else
          var payload := BuildPayload(Sender(data), Body(data), now);
          Exchange(Some(payload), WebResponse(200, Respond(CallAi(ai(payload), repr))))
  }

  /** Every 200 answer is a TwiML document: the empty one, or a message whose
      content decodes back to a string the AI sent or to the apology. */
  lemma WebhookAnswersTwiml(httpMethod: string, form: Result<map<string, string>>, now: string,
                            ai: WaPayload -> Result<AiAnswer>, repr: Value -> string)
    ensures var x := Webhook(httpMethod, form, now, ai, repr);
      x.response.status == 200 ==>
        || x.response.text == EmptyTwiml
        || x.response.text == Twiml(Apology)
        || (x.asked.Some? && CallAi(ai(x.asked.value), repr).Ok? && CallAi(ai(x.asked.value), repr).value.Str?
            && x.response.text == Twiml(CallAi(ai(x.asked.value), repr).value.s))
  {
  }

  /** An answer shaped like the server's decision, with a reply object, is not
      a string: the sender gets the apology. */
  lemma ObjectReplyGetsApology(answer: AiAnswer, reply: map<string, Value>, repr: Value -> string)
    requires answer.status == 200 && Contains(answer.contentType, "application/json")
    requires answer.json.Ok? && answer.json.value.Obj?
    requires "response" in answer.json.value.fields && answer.json.value.fields["response"] == Obj(reply)
    ensures CallAi(Ok(answer), repr) == Ok(Obj(reply))
    ensures Respond(CallAi(Ok(answer), repr)) == Twiml(Apology)
  {
  }
  /** Whatever the server decides, the sender never reads the decision's text:
      a decision to respond carries its reply as an object, which gets the
      apology, and a refusal has neither `response` nor `message`, so the
      string form of the whole body is sent. */
  lemma DecisionAnswer(d: AIResponse, contentType: string, text: Result<string>, repr: Value -> string)
    requires DecisionEngine.Canonical(d) && Contains(contentType, "application/json")
    ensures var a := AiAnswer(200, contentType, Ok(Obj(ResponseObject(d))), text);
      && CallAi(Ok(a), repr)
         == (if d.should_respond then Ok(ResponseObject(d)["response"]) else Ok(Str(repr(Obj(ResponseObject(d))))))
      && Respond(CallAi(Ok(a), repr)) == Twiml(if d.should_respond then Apology else repr(Obj(ResponseObject(d))))
  {
    var o := ResponseObject(d);
    var a := AiAnswer(200, contentType, Ok(Obj(o)), text);
    if d.should_respond {
      assert "response" in o && o["response"].Obj?;
      assert CallAi(Ok(a), repr) == Ok(o["response"]);
    } else {
      assert "response" !in o && "message" !in o;
      assert CallAi(Ok(a), repr) == Ok(Str(repr(Obj(o))));
    }
  }
}
