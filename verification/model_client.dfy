/**
  `callAIMLAPI`: the request to the chat-completions endpoint and the
  post-processing of its answer. The network call (`fetch`, with the reply's
  `json()` body) and `JSON.parse` are parameters; environment variables are an
  `Env` record. Every failure ends in the same safe "do not respond" object.
 */
module ModelClient {
  import opened Strings
  import opened Values

  const DefaultBase: string := "https://api.aimlapi.com/v1"
  const DefaultModel: string := "gpt-4"
  const Completions: string := "/chat/completions"

  /** The environment variables read: `AIML_API_BASE_URL`, `AIML_API_URL`,
      `AIML_API_TOKEN`, `AIML_MODEL`. */
  datatype Env = Env(baseUrl: Option<string>, apiUrl: Option<string>, token: Option<string>, model: Option<string>)

  /** The parts of the POST request that depend on the inputs. */
  datatype Request = Request(url: string, authorization: string, model: string, system: string, user: string)

  /** A reply: `ok`, `status`, and the outcome of `response.json()`. */
  datatype HttpReply = HttpReply(ok: bool, status: int, json: Result<Value>)

  /** What a call did: the request it sent, if any, and the object it returned. */
  datatype Call = Call(request: Option<Request>, result: map<string, Value>)

  /** `s.replace(/\/$/, "")`: at most one trailing slash is removed. */
  function StripSlash(s: string): (r: string)
    ensures IsPrefix(r, s) && |s| - 1 <= |r| <= |s|
    ensures |r| < |s| <==> |s| > 0 && s[|s| - 1] == '/'
  {
    if |s| > 0 && s[|s| - 1] == '/' then s[..|s| - 1] else s
  }

  /** The endpoint: the base as is when it already names the completions path,
      otherwise the base (without one trailing slash) followed by it. */
  function ApiUrl(base: string): (u: string)
    ensures Contains(u, Completions)
    ensures Contains(base, Completions) ==> u == base
    ensures !Contains(base, Completions) ==> IsPrefix(StripSlash(base), u) && IsSuffix(Completions, u) && |u| == |StripSlash(base)| + |Completions|
  {
    if Contains(base, Completions) then base
    else
      var u := StripSlash(base) + Completions;
      ContainsInfix(StripSlash(base), Completions, []);
      assert StripSlash(base) + Completions + [] == u;
      u
  }

  /** Building the URL from a URL it built changes nothing. */
  lemma ApiUrlIdempotent(base: string)
    ensures ApiUrl(ApiUrl(base)) == ApiUrl(base)
  {
  }

  function Fallback(platform: Value, groupId: string): map<string, Value> {
    map["should_respond" := Bool(false), "platform" := platform, "group_id" := Str(groupId)]
  }

  /** `data.choices?.[0]?.message?.content?.trim() || "{}"`. `Err` when `data` is
      `null` (reading `choices` throws) or the content is present but not a
      string (it has no `trim`). */
  function ModelText(data: Value): (r: Result<string>)
    ensures r.Err? <==> IsNullish(data) || (!IsNullish(ContentOf(data)) && !ContentOf(data).Str?)
    ensures r.Ok? ==> r.value != ""
    ensures r.Ok? && ContentOf(data).Str? && !AllSpace(JS, ContentOf(data).s) ==> r.value == Trim(JS, ContentOf(data).s)
    ensures r.Ok? && (IsNullish(ContentOf(data)) || (ContentOf(data).Str? && AllSpace(JS, ContentOf(data).s))) ==> r.value == "{}"
  {
    if IsNullish(data) then Err("TypeError: Cannot read properties of null (reading 'choices')")
    else
      var c := ContentOf(data);
      if IsNullish(c) then Ok("{}")
      else if c.Str? then
        TrimSpec(JS, c.s);
        var t := Trim(JS, c.s);
        Ok(if t == "" then "{}" else t)
      else Err("TypeError: content.trim is not a function")
  }

  /** `data.choices?.[0]?.message?.content`. */
  function ContentOf(data: Value): Value {
    Get(Get(Index0(Get(data, "choices")), "message"), "content")
  }

  /** Index of the first `c` at or after `from`, or `|s|`. */
  function Find(s: string, c: char, from: nat): (i: nat)
    requires from <= |s|
    ensures from <= i <= |s|
    ensures i < |s| ==> s[i] == c
    ensures forall k :: from <= k < i ==> s[k] != c
    decreases |s| - from
  {
    if from == |s| || s[from] == c then from else Find(s, c, from + 1)
  }

  /** Index of the last `c` before `end`, or `-1`. */
  function FindLast(s: string, c: char, end: nat): (i: int)
    requires end <= |s|
    ensures -1 <= i < end
    ensures i >= 0 ==> s[i] == c
    ensures forall k :: i < k < end ==> s[k] != c
    decreases end
  {
    if end == 0 then -1 else if s[end - 1] == c then end - 1 else FindLast(s, c, end - 1)
  }

  /** `content.match(/\{[\s\S]*\}/)?.[0]`: from the first `{` to the last `}`. */
  function JsonSpan(content: string): (r: Option<string>)
    ensures r.Some? <==> exists i, j :: 0 <= i < j < |content| && content[i] == '{' && content[j] == '}'
    ensures r.Some? ==> |r.value| >= 2 && r.value[0] == '{' && r.value[|r.value| - 1] == '}'
  {
    var i := Find(content, '{', 0);
    var j := FindLast(content, '}', |content|);
    if i < j then Some(content[i..j + 1])
    else
      assert forall a, b :: 0 <= a < b < |content| && content[a] == '{' && content[b] == '}' ==> i <= a && b <= j;
      None
  }

  /** The span is the leftmost, longest match: given the first `{` and the last
      `}` of the content, with the `{` before the `}`, the span runs from one to
      the other. */
  lemma JsonSpanIsLeftmostLongest(content: string, i: nat, j: nat)
    requires i < j < |content| && content[i] == '{' && content[j] == '}'
    requires forall k :: 0 <= k < i ==> content[k] != '{'
    requires forall k :: j < k < |content| ==> content[k] != '}'
    ensures JsonSpan(content) == Some(content[i..j + 1])
  {
    var i' := Find(content, '{', 0);
    var j' := FindLast(content, '}', |content|);
    assert i' == i && j' == j;
  }

  /** The returned object: the coerced fields first, then every parsed key
      spread over them. */
  function Merge(platform: Value, groupId: string, parsed: map<string, Value>): (o: map<string, Value>)
    ensures o.Keys == parsed.Keys + {"should_respond", "platform", "group_id", "response"}
    // a parsed key always wins, even over the coerced flag and the caller's ids
    ensures forall k :: k in parsed ==> o[k] == parsed[k]
    ensures "platform" !in parsed ==> o["platform"] == platform
    ensures "group_id" !in parsed ==> o["group_id"] == Str(groupId)
    ensures "response" !in parsed ==> o["response"] == Undefined
    // whichever flag survives, its truthiness is the parsed flag's
    ensures JsTruthy(o["should_respond"]) == JsTruthy(Field(parsed, "should_respond"))
  {
    var base := map[
      "should_respond" := Bool(JsTruthy(Field(parsed, "should_respond"))),
      "platform" := platform,
      "group_id" := Str(groupId),
      "response" := Field(parsed, "response")];
    base + parsed
  }

  /** Everything after a reply arrives: status, body, content, span, parse, merge. */
  function Interpret(reply: Result<HttpReply>, parse: string -> Option<map<string, Value>>, platform: Value, groupId: string): (o: map<string, Value>)
    // a failed call, a non-ok status, an unreadable body, a bad content field and unparsable JSON all give the safe object
    ensures reply.Err? || !reply.value.ok || reply.value.json.Err? ==> o == Fallback(platform, groupId)
    ensures reply.Ok? && reply.value.ok && reply.value.json.Ok? ==>
      var text := ModelText(reply.value.json.value);
      && (text.Err? ==> o == Fallback(platform, groupId))
      && (text.Ok? && JsonSpan(text.value).None? ==> o == Merge(platform, groupId, map[]))
      && (text.Ok? && JsonSpan(text.value).Some? && parse(JsonSpan(text.value).value).None? ==> o == Fallback(platform, groupId))
      && (text.Ok? && JsonSpan(text.value).Some? && parse(JsonSpan(text.value).value).Some? ==>
            o == Merge(platform, groupId, parse(JsonSpan(text.value).value).value))
  {
    if reply.Err? || !reply.value.ok || reply.value.json.Err? then Fallback(platform, groupId)
    else match ModelText(reply.value.json.value)
      case Err(_) => Fallback(platform, groupId)
      case Ok(text) =>
        match JsonSpan(text)
        case None => Merge(platform, groupId, map[])
        case Some(span) =>
          match parse(span)
          case None => Fallback(platform, groupId)
          case Some(parsed) => Merge(platform, groupId, parsed)
  }

  function CallModel(
    env: Env,
    fetch: Request -> Result<HttpReply>,
    parse: string -> Option<map<string, Value>>,
    system: string, user: string, platform: Value, groupId: string): (c: Call)
    // without a token nothing is sent and the safe object is returned
    ensures !IsSet(env.token) ==> c == Call(None, Fallback(platform, groupId))
    // with one, exactly one request goes to the derived endpoint with both prompts
    ensures IsSet(env.token) ==>
      && c.request.Some?
      && c.request.value.url == ApiUrl(FirstSet(env.baseUrl, env.apiUrl, DefaultBase))
      && c.request.value.authorization == "Bearer " + env.token.value
      && c.request.value.model == FirstSet(env.model, None, DefaultModel)
      && c.request.value.system == system && c.request.value.user == user
      && c.result == Interpret(fetch(c.request.value), parse, platform, groupId)
  {
    if !IsSet(env.token) then Call(None, Fallback(platform, groupId))
    else
      var url := ApiUrl(FirstSet(env.baseUrl, env.apiUrl, DefaultBase));
      var request := Request(url, "Bearer " + env.token.value, FirstSet(env.model, None, DefaultModel), system, user);
      Call(Some(request), Interpret(fetch(request), parse, platform, groupId))
  }

  /** Whatever the model answers, the object carries `should_respond`, and the
      `platform`, `group_id` and `response` keys. */
  lemma CallModelShape(env: Env, fetch: Request -> Result<HttpReply>, parse: string -> Option<map<string, Value>>,
                       system: string, user: string, platform: Value, groupId: string)
    ensures var o := CallModel(env, fetch, parse, system, user, platform, groupId).result;
      {"should_respond", "platform", "group_id"} <= o.Keys
  {
    if IsSet(env.token) {
      var url := ApiUrl(FirstSet(env.baseUrl, env.apiUrl, DefaultBase));
      var request := Request(url, "Bearer " + env.token.value, FirstSet(env.model, None, DefaultModel), system, user);
      InterpretShape(fetch(request), parse, platform, groupId);
    }
  }

  lemma InterpretShape(reply: Result<HttpReply>, parse: string -> Option<map<string, Value>>, platform: Value, groupId: string)
    ensures {"should_respond", "platform", "group_id"} <= Interpret(reply, parse, platform, groupId).Keys
  {
  }

  /** The model's own `group_id` replaces the caller's: the answer `{"group_id": "other"}`
      is returned with `group_id` "other". */
  lemma ParsedGroupIdOverrides(platform: Value, groupId: string)
    ensures Merge(platform, groupId, map["group_id" := Str("other")])["group_id"] == Str("other")
  {
  }

  /** Missing content and blank content both read as the empty object `{}`. */
  lemma BlankContentIsEmptyObject(data: Value)
    requires !IsNullish(data)
    requires IsNullish(ContentOf(data)) || (ContentOf(data).Str? && AllSpace(JS, ContentOf(data).s))
    ensures ModelText(data) == Ok("{}") && JsonSpan("{}") == Some("{}")
  {
    assert ModelText(data).Ok?;
    JsonSpanIsLeftmostLongest("{}", 0, 1);
    assert "{}"[0..2] == "{}";
  }
}
