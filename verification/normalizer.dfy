/**
  `normalizeMessage`: coerces an untrusted message object into a
  `NormalizedMessage`. Every input object yields a result here; the one way the
  code can throw, `String()` on an object whose own `toString` is not callable,
  is outside the value model.
 */
module Normalizer {
  import opened Strings
  import opened Values
  import opened Types

  /** Length cap for the copy of the content used in prompts and retrieval. */
  const ContentCap: nat := 2000

  /** The two readings of the wall clock (`new Date().toISOString()`) the
      normalizer takes: one for `normalized_at`, one for a missing `timestamp`. */
  datatype Clock = Clock(normalizedAt: string, fallbackTimestamp: string)

  /** `String(x || "").trim()`: a missing or falsy field becomes `""`. */
  function CoerceText(x: Value): (r: string)
    ensures Trimmed(JS, r)
    ensures !JsTruthy(x) ==> r == ""
    ensures JsTruthy(x) ==> r == Trim(JS, JsString(x))
  {
    Trim(JS, JsString(JsOr(x, Str(""))))
  }

  /** `String(user_name || user_id || "Unknown").trim()`: the first truthy of the
      three, stringified and trimmed. */
  function DisplayName(userName: Value, userId: Value): (r: string)
    ensures JsTruthy(userName) ==> r == CoerceText(userName)
    ensures !JsTruthy(userName) && JsTruthy(userId) ==> r == CoerceText(userId)
    ensures !JsTruthy(userName) && !JsTruthy(userId) ==> r == "Unknown"
  {
    TrimOfTrimmed(JS, "Unknown");
    Trim(JS, JsString(JsOr(JsOr(userName, userId), Str("Unknown"))))
  }

  function Normalize(msg: map<string, Value>, clock: Clock): (n: NormalizedMessage)
    // content: the trimmed text, "" when missing; the prompt copy is its first 2000 characters
    ensures n.content == CoerceText(Field(msg, "content")) && Trimmed(JS, n.content)
    ensures Field(msg, "content").Str? ==> n.content == Trim(JS, Field(msg, "content").s)
    ensures !JsTruthy(Field(msg, "content")) ==> n.content == ""
    ensures IsPrefix(n.content_trimmed, n.content) && |n.content_trimmed| == Min(|n.content|, ContentCap)
    // platform defaults only when null or undefined
    ensures IsNullish(Field(msg, "platform")) ==> n.platform == Str("slack")
    ensures !IsNullish(Field(msg, "platform")) ==> n.platform == Field(msg, "platform")
    // identifiers are trimmed, "" when missing
    ensures n.group_id == CoerceText(Field(msg, "group_id"))
    ensures n.user_id == CoerceText(Field(msg, "user_id"))
    ensures n.message_id == CoerceText(Field(msg, "message_id"))
    // the display name is the first truthy of user_name, user_id, "Unknown"
    ensures n.user_name == DisplayName(Field(msg, "user_name"), Field(msg, "user_id"))
    // the timestamp is kept when truthy, otherwise read from the clock
    ensures JsTruthy(Field(msg, "timestamp")) ==> n.timestamp == Field(msg, "timestamp")
    ensures !JsTruthy(Field(msg, "timestamp")) ==> n.timestamp == Str(clock.fallbackTimestamp)
    ensures n.normalized_at == clock.normalizedAt
    // every other field passes through unchanged
    ensures n.extra.Keys == msg.Keys - NormalizedKeys
    ensures forall k :: k in n.extra ==> k in msg && n.extra[k] == msg[k]
  {
    var content := Content(Field(msg, "content"));
    NormalizedMessage(
      platform := Nullish(Field(msg, "platform"), Str("slack")),
      group_id := CoerceText(Field(msg, "group_id")),
      user_id := CoerceText(Field(msg, "user_id")),
      user_name := DisplayName(Field(msg, "user_name"), Field(msg, "user_id")),
      content := content.0,
      timestamp := JsOr(Field(msg, "timestamp"), Str(clock.fallbackTimestamp)),
      message_id := CoerceText(Field(msg, "message_id")),
      normalized_at := clock.normalizedAt,
      content_trimmed := content.1,
      extra := Extra(msg))
  }

  /** The content and its capped copy. */
  function Content(x: Value): (r: (string, string))
    ensures r.0 == CoerceText(x) && Trimmed(JS, r.0)
    ensures x.Str? ==> r.0 == Trim(JS, x.s)
    ensures !JsTruthy(x) ==> r.0 == ""
    ensures IsPrefix(r.1, r.0) && |r.1| == Min(|r.0|, ContentCap)
  {
    var content := CoerceText(x);
    SliceHead(content, ContentCap);
    CoerceTextOfString(x);
    (content, Slice(content, 0, ContentCap))
  }

  /** The fields outside the normalized ones, as they came. */
  function Extra(msg: map<string, Value>): (e: map<string, Value>)
    ensures e.Keys == msg.Keys - NormalizedKeys
    ensures forall k :: k in e ==> k in msg && e[k] == msg[k]
  {
    map k | k in msg && k !in NormalizedKeys :: msg[k]
  }

  /** On a string field the coercion is just the trim (an empty string, falsy,
      is replaced by another empty string). */
  lemma CoerceTextOfString(x: Value)
    ensures x.Str? ==> CoerceText(x) == Trim(JS, x.s)
  {
    if x == Str("") {
      assert AllSpace(JS, "");
    }
  }

  /** Re-coercing an already coerced string changes nothing. */
  lemma CoerceTextStable(s: string)
    requires Trimmed(JS, s)
    ensures CoerceText(Str(s)) == s
  {
    if s != "" {
      TrimOfTrimmed(JS, s);
    }
  }

  /** Reading a normalized message back as an object yields its own fields. */
  lemma NormalizedObjectFields(n: NormalizedMessage)
    ensures var o := NormalizedObject(n);
      && Field(o, "content") == Str(n.content)
      && Field(o, "group_id") == Str(n.group_id)
      && Field(o, "user_id") == Str(n.user_id)
      && Field(o, "user_name") == Str(n.user_name)
      && Field(o, "message_id") == Str(n.message_id)
      && Field(o, "platform") == n.platform
      && Field(o, "timestamp") == n.timestamp
      && o.Keys == n.extra.Keys + NormalizedKeys
  {
    var named := NormalizedFields(n);
    assert Field(named, "content") == Str(n.content);
  }

  /** Normalizing a normalized message again leaves its content, the capped
      content, the identifiers, the platform and the carried-over fields as they
      were (the clock may have moved on in between). */
  lemma NormalizeTwice(msg: map<string, Value>, c1: Clock, c2: Clock)
    ensures var n1 := Normalize(msg, c1); var n2 := Normalize(NormalizedObject(n1), c2);
      && n2.content == n1.content
      && n2.content_trimmed == n1.content_trimmed
      && n2.group_id == n1.group_id
      && n2.user_id == n1.user_id
      && n2.message_id == n1.message_id
      && n2.platform == n1.platform
      && n2.extra == n1.extra
  {
    var n1 := Normalize(msg, c1);
    NormalizedObjectFields(n1);
    StableText(n1, c2);
    StableExtra(n1, c2);
  }

  lemma StableText(n1: NormalizedMessage, c2: Clock)
    requires Trimmed(JS, n1.content) && Trimmed(JS, n1.group_id) && Trimmed(JS, n1.user_id) && Trimmed(JS, n1.message_id)
    requires IsPrefix(n1.content_trimmed, n1.content) && |n1.content_trimmed| == Min(|n1.content|, ContentCap)
    ensures var n2 := Normalize(NormalizedObject(n1), c2);
      && n2.content == n1.content
      && n2.content_trimmed == n1.content_trimmed
      && n2.group_id == n1.group_id
      && n2.user_id == n1.user_id
      && n2.message_id == n1.message_id
  {
    NormalizedObjectFields(n1);
    CoerceTextStable(n1.content);
    CoerceTextStable(n1.group_id);
    CoerceTextStable(n1.user_id);
    CoerceTextStable(n1.message_id);
  }

  lemma StableExtra(n1: NormalizedMessage, c2: Clock)
    requires !IsNullish(n1.platform)
    requires n1.extra.Keys !! NormalizedKeys
    ensures var n2 := Normalize(NormalizedObject(n1), c2);
      && n2.platform == n1.platform
      && n2.extra == n1.extra
  {
    NormalizedObjectFields(n1);
    var o := NormalizedObject(n1);
    var named := NormalizedFields(n1);
    var n2 := Normalize(o, c2);
    assert n2.extra.Keys == n1.extra.Keys;
    forall k | k in n2.extra ensures n2.extra[k] == n1.extra[k] {
      assert k !in named;
      assert o[k] == n1.extra[k];
    }
  }

  /** A truthy timestamp survives a second normalization too, provided the first
      clock reading was not empty. */
  lemma NormalizeTwiceTimestamp(msg: map<string, Value>, c1: Clock, c2: Clock)
    requires c1.fallbackTimestamp != ""
    ensures Normalize(NormalizedObject(Normalize(msg, c1)), c2).timestamp == Normalize(msg, c1).timestamp
  {
    NormalizedObjectFields(Normalize(msg, c1));
  }

  /** The display name is not stable: a whitespace-only name is truthy, so it is
      chosen and trimmed to `""`; a second pass then falls through to `user_id`. */
  lemma UserNameNotStable()
    ensures var msg := map["user_name" := Str(" "), "user_id" := Str("u1")];
      var c := Clock("t", "t");
      var n1 := Normalize(msg, c);
      && n1.user_name == ""
      && Normalize(NormalizedObject(n1), c).user_name == "u1"
  {
    var msg := map["user_name" := Str(" "), "user_id" := Str("u1")];
    var c := Clock("t", "t");
    assert Field(msg, "user_name") == Str(" ") && Field(msg, "user_id") == Str("u1");
    TrimSpec(JS, " ");
    CoerceTextStable("u1");
    var n1 := Normalize(msg, c);
    assert n1.user_name == "";
    assert n1.user_id == "u1";
    NormalizedObjectFields(n1);
  }

  /** A whitespace-only display name is kept (it is truthy) and trims to `""`. */
  lemma BlankUserNameBecomesEmpty(msg: map<string, Value>, clock: Clock)
    requires Field(msg, "user_name").Str? && Field(msg, "user_name").s != ""
    requires AllSpace(JS, Field(msg, "user_name").s)
    ensures Normalize(msg, clock).user_name == ""
  {
  }

  /** A message of the declared shape keeps all its fields (trimmed), gains the
      two derived ones, and carries nothing else. */
  lemma NormalizeDeclared(m: IncomingMessage, clock: Clock)
    ensures var n := Normalize(IncomingObject(m), clock);
      && n.platform == Str(PlatformName(m.platform))
      && n.group_id == Trim(JS, m.group_id)
      && n.user_id == Trim(JS, m.user_id)
      && n.content == Trim(JS, m.content)
      && n.message_id == Trim(JS, m.message_id)
      && n.extra == map[]
  {
    var o := IncomingObject(m);
    assert Field(o, "group_id") == Str(m.group_id);
    assert Field(o, "user_id") == Str(m.user_id);
    assert Field(o, "message_id") == Str(m.message_id);
    assert Field(o, "content") == Str(m.content);
    assert Field(o, "platform") == Str(PlatformName(m.platform));
    var n := Normalize(o, clock);
    assert n.extra.Keys == {};
  }
}
