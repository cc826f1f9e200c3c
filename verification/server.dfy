/**
  The `POST /api/message` handler: validation, normalization, the group lock,
  the turn pipeline and the mapping of its outcome to an HTTP status and body.
  Express, JSON body parsing and logging are outside the model; the request
  body arrives as a `Value`.
 */
module Server {
  import opened Strings
  import opened Values
  import opened Types
  import opened Turn
  import Normalizer
  import Lock

  datatype HttpResponse = HttpResponse(status: int, body: map<string, Value>)

  /** The steps a request took, and the response it got. */
  datatype Exchange = Exchange(events: seq<Stage>, response: HttpResponse)

  const BadRequest: map<string, Value> := map["error" := Str("Missing required fields: group_id, content")]
  const Busy: map<string, Value> := map["error" := Str("AI busy, try again later")]

  /** The 500 body: a refusal that still names the platform and the group. */
  function ProcessingFailed(n: NormalizedMessage): (b: map<string, Value>)
    ensures b.Keys == {"should_respond", "platform", "group_id", "error"}
    ensures !JsTruthy(b["should_respond"]) && b["platform"] == n.platform && b["group_id"] == Str(n.group_id)
  {
    map["should_respond" := Bool(false), "platform" := n.platform, "group_id" := Str(n.group_id),
        "error" := Str("AI processing failed")]
  }

  /** Both required fields are truthy. */
  predicate Valid(body: Value) {
    JsTruthy(Get(body, "group_id")) && JsTruthy(Get(body, "content"))
  }

  function Handle(body: Value, clock: Normalizer.Clock, sv: Services): (x: Exchange)
    ensures x.response.status in {200, 400, 500, 503}
    // a request missing either field is refused before anything else happens
    ensures x.response.status == 400 <==> !Valid(body)
    ensures !Valid(body) ==> x == Exchange([], HttpResponse(400, BadRequest))
    ensures Valid(body) ==> body.Obj?
    ensures Valid(body) ==>
      var n := Normalizer.Normalize(body.fields, clock);
      // a failed acquisition answers 503 and releases nothing
      && (x.response.status == 503 <==> sv.acquire(n.group_id).Err?)
      && (sv.acquire(n.group_id).Err? ==> x == Exchange([AcquireLock], HttpResponse(503, Busy)))
      // once acquired, the stages run in order and both releases follow, whatever happened
      && (sv.acquire(n.group_id).Ok? ==>
            && x.events == [AcquireLock] + RunStages(n, sv, n.platform).Run() + [CallRelease, ReleaseGroup]
            && (x.response.status == 200 <==> AllSucceed(n, sv, n.platform))
            && (AllSucceed(n, sv, n.platform) ==> x.response.body == ResponseObject(DecisionOf(n, sv, n.platform)))
            && (!AllSucceed(n, sv, n.platform) ==> x.response == HttpResponse(500, ProcessingFailed(n))))
  {
    if !Valid(body) then Exchange([], HttpResponse(400, BadRequest))
    else
      var n := Normalizer.Normalize(body.fields, clock);
      match sv.acquire(n.group_id)
      case Err(_) => Exchange([AcquireLock], HttpResponse(503, Busy))
      case Ok(_) =>
        var o := RunStages(n, sv, n.platform);
        var response := match o.decision
          case Ok(d) => HttpResponse(200, ResponseObject(d))
          case Err(_) => HttpResponse(500, ProcessingFailed(n));
        Exchange([AcquireLock] + o.Run() + [CallRelease, ReleaseGroup], response)
  }

  /** Every request that got the lock gives it back: the closure is called and
      then the group entry is released, as the last two steps, exactly once each.
      A request that did not get the lock releases nothing. */
  lemma ReleasedOnEveryExit(body: Value, clock: Normalizer.Clock, sv: Services)
    ensures var x := Handle(body, clock, sv);
      && (CallRelease in x.events <==> x.response.status in {200, 500})
      && (x.response.status in {200, 500} ==>
            && x.events[0] == AcquireLock
            && |x.events| >= 3
            && x.events[|x.events| - 2..] == [CallRelease, ReleaseGroup]
            && CallRelease !in x.events[..|x.events| - 2]
            && ReleaseGroup !in x.events[..|x.events| - 2])
      && (x.response.status == 503 ==> x.events == [AcquireLock])
  {
    var x := Handle(body, clock, sv);
    if Valid(body) {
      var n := Normalizer.Normalize(body.fields, clock);
      if sv.acquire(n.group_id).Ok? {
        var k := RunStages(n, sv, n.platform).reached;
        assert x.events == [AcquireLock] + Pipeline[..k] + [CallRelease, ReleaseGroup];
        ReleasesClose(x.events, k);
        assert x.events[|x.events| - 2] == CallRelease;
      }
    }
  }

  /** An acquisition, some pipeline stages, then the two releases: each release
      appears once, at the end. */
  lemma ReleasesClose(events: seq<Stage>, reached: nat)
    requires reached <= |Pipeline|
    requires events == [AcquireLock] + Pipeline[..reached] + [CallRelease, ReleaseGroup]
    ensures events[0] == AcquireLock
    ensures |events| >= 3 && events[|events| - 2..] == [CallRelease, ReleaseGroup]
    ensures CallRelease !in events[..|events| - 2] && ReleaseGroup !in events[..|events| - 2]
  {
    assert events[0] == AcquireLock;
    assert events[..|events| - 2] == [AcquireLock] + Pipeline[..reached];
    PipelineHasNoLockSteps(reached);
  }

  /** The lock registry sees, for a request that got the lock, exactly one
      acquisition, one call of its closure and one release of the group. */
  lemma RegistryCalls(body: Value, clock: Normalizer.Clock, sv: Services, c: Lock.Caller)
    requires Valid(body)
    requires sv.acquire(Normalizer.Normalize(body.fields, clock).group_id).Ok?
    ensures var g := Normalizer.Normalize(body.fields, clock).group_id;
      LockCalls(Handle(body, clock, sv).events, g, c) == [Lock.Acq(g), Lock.Rel(c), Lock.DropGroup(g)]
  {
    var n := Normalizer.Normalize(body.fields, clock);
    var k := RunStages(n, sv, n.platform).reached;
    assert Handle(body, clock, sv).events == [AcquireLock] + Pipeline[..k] + [CallRelease, ReleaseGroup];
    PipelineHasNoLockSteps(k);
    LockCallsOfTurn(Pipeline[..k], n.group_id, c);
  }

  /** Whitespace-only content passes validation (a non-empty string is truthy)
      and reaches the pipeline as the empty string. */
  lemma BlankContentPassesValidation(group: string, blank: string, clock: Normalizer.Clock, sv: Services)
    requires group != "" && blank != "" && AllSpace(JS, blank)
    ensures var body := Obj(map["group_id" := Str(group), "content" := Str(blank)]);
      && Handle(body, clock, sv).response.status != 400
      && Normalizer.Normalize(body.fields, clock).content == ""
  {
    TrimSpec(JS, blank);
  }
}
