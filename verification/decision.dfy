/**
  `decisionEngine`: reduces the model client's untrusted output object to an
  `AIResponse`. It fails closed: anything short of a truthy `should_respond`, a
  reply kind from the closed enum and non-blank string content becomes "do not
  respond". The context argument is never read, so the model omits it.
 */
module DecisionEngine {
  import opened Strings
  import opened Values
  import opened Types

  /** The decision that declines to respond, keeping `platform` and `group_id`. */
  function Decline(raw: map<string, Value>): AIResponse {
    AIResponse(false, Field(raw, "platform"), Field(raw, "group_id"), None)
  }

  /** `response?.content?.trim() || ""`: `Err` when the content is present but is
      not a string, since it then has no `trim` method to call. */
  function ReplyText(response: Value): (r: Result<string>)
    ensures r.Err? <==> !IsNullish(Get(response, "content")) && !Get(response, "content").Str?
    ensures r.Ok? && Get(response, "content").Str? ==> r.value == Trim(JS, Get(response, "content").s)
    ensures r.Ok? && IsNullish(Get(response, "content")) ==> r.value == ""
  {
    var c := Get(response, "content");
    if IsNullish(c) then Ok("")
    else if c.Str? then Ok(Trim(JS, c.s))
    else Err("TypeError: response.content.trim is not a function")
  }

  /** A decision as the engine emits it: well formed, and carrying a reply
      exactly when it says to respond. */
  predicate Canonical(r: AIResponse) {
    WellFormed(r) && (r.response.Some? <==> r.should_respond)
  }

  function Decide(raw: map<string, Value>): (r: Result<AIResponse>)
    // a falsy or missing should_respond declines without looking further
    ensures !JsTruthy(Field(raw, "should_respond")) ==> r == Ok(Decline(raw))
    // the one way to fail: a truthy should_respond with non-string, non-null content
    ensures r.Err? <==>
      && JsTruthy(Field(raw, "should_respond"))
      && !IsNullish(Get(Field(raw, "response"), "content"))
      && !Get(Field(raw, "response"), "content").Str?
    // every decision is canonical and copies platform and group_id unchanged
    ensures r.Ok? ==> Canonical(r.value)
    ensures r.Ok? ==> r.value.platform == Field(raw, "platform") && r.value.group_id == Field(raw, "group_id")
    // a reply is kept exactly when the kind is in the enum and the content is non-blank text
    ensures r.Ok? && r.value.should_respond <==>
      var resp := Field(raw, "response");
      && JsTruthy(Field(raw, "should_respond"))
      && ParseType(Get(resp, "type")).Some?
      && Get(resp, "content").Str?
      && !AllSpace(JS, Get(resp, "content").s)
    // the kept reply holds the validated kind, the trimmed content and the two pass-through fields
    ensures r.Ok? && r.value.should_respond ==>
      var resp := Field(raw, "response");
      && Get(resp, "content").Str?
      && r.value.response.value == Reply(
           ParseType(Get(resp, "type")).value,
           Trim(JS, Get(resp, "content").s),
           Get(resp, "options"),
           Get(resp, "mention_user"))
  {
    if !JsTruthy(Field(raw, "should_respond")) then Ok(Decline(raw))
    else
      var response := Field(raw, "response");
      var kind := ParseType(Get(response, "type"));
      match ReplyText(response)
      case Err(e) => Err(e)
      case Ok(content) =>
        TrimSpec(JS, if Get(response, "content").Str? then Get(response, "content").s else "");
        if kind.None? || content == "" then Ok(Decline(raw))
        else Ok(AIResponse(true, Field(raw, "platform"), Field(raw, "group_id"),
          Some(Reply(kind.value, content, Get(response, "options"), Get(response, "mention_user")))))
  }

  /** Blank content is refused whatever the kind. */
  lemma BlankContentDeclines(raw: map<string, Value>)
    requires Get(Field(raw, "response"), "content").Str?
    requires AllSpace(JS, Get(Field(raw, "response"), "content").s)
    ensures Decide(raw).Ok? && !Decide(raw).value.should_respond
  {
  }

  /** A kind outside the four is refused whatever the content. */
  lemma UnknownKindDeclines(raw: map<string, Value>)
    requires ParseType(Get(Field(raw, "response"), "type")).None?
    requires !Get(Field(raw, "response"), "content").Str? ==> IsNullish(Get(Field(raw, "response"), "content"))
    ensures Decide(raw) == Ok(Decline(raw))
  {
  }

  /** Fed its own output object, the engine returns the same decision. */
  lemma {:induction false} CanonicalFixedPoint(r: AIResponse)
    requires Canonical(r)
    ensures Decide(ResponseObject(r)) == Ok(r)
  {
    var o := ResponseObject(r);
    assert Field(o, "should_respond") == Bool(r.should_respond);
    assert Field(o, "platform") == r.platform && Field(o, "group_id") == r.group_id;
    if r.should_respond {
      var p := r.response.value;
      var resp := Field(o, "response");
      assert resp.Obj?;
      assert Get(resp, "type") == Str(TypeName(p.kind));
      TypeNameRoundTrip(p.kind);
      assert Get(resp, "content") == Str(p.content);
      TrimOfTrimmed(JS, p.content);
      TrimSpec(JS, p.content);
    }
  }

  /** Applying the engine to its own output changes nothing. */
  lemma DecideIdempotent(raw: map<string, Value>)
    requires Decide(raw).Ok?
    ensures Decide(ResponseObject(Decide(raw).value)) == Decide(raw)
  {
    CanonicalFixedPoint(Decide(raw).value);
  }
}
