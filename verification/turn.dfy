/**
  The turn pipeline both handlers run once they hold the group's lock: load the
  context, retrieve past messages, build the prompt, call the model, apply the
  decision engine, update memory. Loading, retrieval, the model call and the
  memory update are services that may throw; the prompt builder and the
  decision engine are the modelled ones.
 */
module Turn {
  import opened Values
  import opened Types
  import Prompt
  import DecisionEngine
  import Lock
  import ModelClient

  /** The observable steps of a turn, in the order a handler takes them. */
  datatype Stage =
    | AcquireLock
    | LoadContext
    | Retrieve
    | BuildPrompt
    | CallModel
    | Decide
    | UpdateMemory
    | SendReply
    | CallRelease
    | ReleaseGroup

  /** `acquireGroupLock`, `loadContext`, `retrieveFromVectorDB`, `callAIMLAPI` and
      `updateMemory`; `Err` means the call threw. */
  datatype Services = Services(
    acquire: string -> Result<()>,
    loadContext: string -> Result<GroupContext>,
    retrieve: (string, string) -> Result<RetrievedContext>,
    callModel: (Prompt.Prompts, Value, string) -> Result<map<string, Value>>,
    updateMemory: (NormalizedMessage, AIResponse) -> Result<()>)

  /** The stages inside the lock, in order. */
  const Pipeline: seq<Stage> := [LoadContext, Retrieve, BuildPrompt, CallModel, Decide, UpdateMemory]

  /** How many stages of the pipeline were started, and the decision or the
      error that ended the run. */
  datatype Outcome = Outcome(reached: nat, decision: Result<AIResponse>) {
    /** The stages started, in order. */
    function Run(): seq<Stage>
      requires reached <= |Pipeline|
    {
      Pipeline[..reached]
    }
  }

  /** The prompt for this turn's context, sent to the model client. */
  function Ask(n: NormalizedMessage, sv: Services, platform: Value, ctx: GroupContext, retrieved: RetrievedContext): Result<map<string, Value>> {
    sv.callModel(Prompt.BuildPrompt(n, ctx, retrieved, Undefined), platform, n.group_id)
  }

  /** Every service call succeeds and the decision engine does not throw, for
      this message; `platform` is what the handler passes to the model client. */
  predicate AllSucceed(n: NormalizedMessage, sv: Services, platform: Value) {
    && sv.loadContext(n.group_id).Ok?
    && sv.retrieve(n.group_id, n.content_trimmed).Ok?
    && var answer := Ask(n, sv, platform, sv.loadContext(n.group_id).value, sv.retrieve(n.group_id, n.content_trimmed).value);
      && answer.Ok?
      && DecisionEngine.Decide(answer.value).Ok?
      && sv.updateMemory(n, DecisionEngine.Decide(answer.value).value).Ok?
  }

  /** Stage `k` of `Pipeline` (counting from 1) throws when it is run, the
      stages before it having succeeded. Building the prompt never throws. */
  predicate FailsAt(n: NormalizedMessage, sv: Services, platform: Value, k: nat) {
    var g := n.group_id;
    if k == 1 then sv.loadContext(g).Err?
    else if sv.loadContext(g).Err? || sv.retrieve(g, n.content_trimmed).Err? then k == 2 && sv.loadContext(g).Ok?
    else
      var answer := Ask(n, sv, platform, sv.loadContext(g).value, sv.retrieve(g, n.content_trimmed).value);
      if k == 4 then answer.Err?
      else if answer.Err? then false
      else if k == 5 then DecisionEngine.Decide(answer.value).Err?
      else k == 6 && DecisionEngine.Decide(answer.value).Ok? && sv.updateMemory(n, DecisionEngine.Decide(answer.value).value).Err?
  }

  /** The decision of a run in which everything succeeds: the engine applied to
      what the model returned for the prompt built from this turn's context. */
  function DecisionOf(n: NormalizedMessage, sv: Services, platform: Value): AIResponse
    requires AllSucceed(n, sv, platform)
  {
    DecisionEngine.Decide(Ask(n, sv, platform, sv.loadContext(n.group_id).value, sv.retrieve(n.group_id, n.content_trimmed).value).value).value
  }

  /** The last two stages: the decision engine on the model's answer, then the
      memory update. */
  function Conclude(n: NormalizedMessage, sv: Services, answer: map<string, Value>): (o: Outcome)
    ensures o.reached in {5, 6}
    // a throwing engine stops the run before the memory update
    ensures o.reached == 5 <==> DecisionEngine.Decide(answer).Err?
    ensures o.reached == 5 ==> o.decision.Err?
    ensures o.decision.Ok? <==> DecisionEngine.Decide(answer).Ok? && sv.updateMemory(n, DecisionEngine.Decide(answer).value).Ok?
    ensures o.decision.Ok? ==> o.reached == 6 && o.decision == DecisionEngine.Decide(answer)
  {
    match DecisionEngine.Decide(answer)
    case Err(e) => Outcome(5, Err(e))
    case Ok(d) =>
      match sv.updateMemory(n, d)
      case Err(e) => Outcome(6, Err(e))
      case Ok(_) => Outcome(6, Ok(d))
  }

  function RunStages(n: NormalizedMessage, sv: Services, platform: Value): (o: Outcome)
    ensures 1 <= o.reached <= |Pipeline|
    // stages start strictly in order, each only after the previous one succeeded,
    // and a failed run stops at the stage that threw
    ensures forall k :: 1 <= k < o.reached ==> !FailsAt(n, sv, platform, k)
    ensures o.decision.Err? ==> FailsAt(n, sv, platform, o.reached)
    // building the prompt cannot fail, so no run stops there
    ensures Pipeline[o.reached - 1] != BuildPrompt
    // a decision comes out exactly when every stage succeeded, the memory update included
    ensures o.decision.Ok? <==> AllSucceed(n, sv, platform)
    ensures o.decision.Ok? ==> o.reached == |Pipeline| && o.decision.value == DecisionOf(n, sv, platform)
    ensures o.decision.Ok? ==> DecisionEngine.Canonical(o.decision.value)
  {
    match sv.loadContext(n.group_id)
    case Err(e) => Outcome(1, Err(e))
    case Ok(ctx) =>
      match sv.retrieve(n.group_id, n.content_trimmed)
      case Err(e) => Outcome(2, Err(e))
      case Ok(retrieved) =>
        match Ask(n, sv, platform, ctx, retrieved)
        case Err(e) => Outcome(4, Err(e))
        case Ok(answer) => Conclude(n, sv, answer)
  }

  /** Every run succeeds exactly when no stage throws, and a throwing stage is
      the one the run stops at. */
  lemma AllSucceedIffNoFailure(n: NormalizedMessage, sv: Services, platform: Value)
    ensures AllSucceed(n, sv, platform) <==> forall k :: 1 <= k <= |Pipeline| ==> !FailsAt(n, sv, platform, k)
    ensures forall k :: 1 <= k <= |Pipeline| && FailsAt(n, sv, platform, k) ==> RunStages(n, sv, platform).reached == k
  {
    var o := RunStages(n, sv, platform);
    if !AllSucceed(n, sv, platform) {
      assert FailsAt(n, sv, platform, o.reached);
    }
    forall k | 1 <= k <= |Pipeline| && FailsAt(n, sv, platform, k)
      ensures o.reached == k
    {
      FailsAtMostOnce(n, sv, platform, k, o.reached);
    }
  }

  /** At most one stage throws. */
  lemma FailsAtMostOnce(n: NormalizedMessage, sv: Services, platform: Value, j: nat, k: nat)
    requires FailsAt(n, sv, platform, j) && FailsAt(n, sv, platform, k)
    ensures j == k
  {
  }

  /** `callAIMLAPI` as the model stage of a turn. */
  function ModelService(env: ModelClient.Env, fetch: ModelClient.Request -> Result<ModelClient.HttpReply>,
                        parse: string -> Option<map<string, Value>>): (Prompt.Prompts, Value, string) -> Result<map<string, Value>> {
    (p: Prompt.Prompts, platform: Value, g: string) => Ok(ModelClient.CallModel(env, fetch, parse, p.System(), p.user, platform, g).result)
  }

  /** The model client catches its own failures, so with it as the model stage
      no run ends at that stage. */
  lemma ModelStageNeverFails(n: NormalizedMessage, sv: Services, platform: Value, env: ModelClient.Env,
                             fetch: ModelClient.Request -> Result<ModelClient.HttpReply>, parse: string -> Option<map<string, Value>>)
    requires sv.callModel == ModelService(env, fetch, parse)
    ensures Pipeline[RunStages(n, sv, platform).reached - 1] != CallModel
  {
    var o := RunStages(n, sv, platform);
    if sv.loadContext(n.group_id).Ok? && sv.retrieve(n.group_id, n.content_trimmed).Ok? {
      assert Ask(n, sv, platform, sv.loadContext(n.group_id).value, sv.retrieve(n.group_id, n.content_trimmed).value).Ok?;
    }
  }

  /** A failing memory update still fails the turn, although the decision was
      already made. */
  lemma MemoryFailureFailsTurn(n: NormalizedMessage, sv: Services, platform: Value)
    requires sv.loadContext(n.group_id).Ok? && sv.retrieve(n.group_id, n.content_trimmed).Ok?
    requires var answer := Ask(n, sv, platform, sv.loadContext(n.group_id).value, sv.retrieve(n.group_id, n.content_trimmed).value);
      answer.Ok? && DecisionEngine.Decide(answer.value).Ok?
    requires forall d :: sv.updateMemory(n, d).Err?
    ensures RunStages(n, sv, platform).decision.Err?
    ensures RunStages(n, sv, platform).reached == |Pipeline|
  {
  }

  /** The lock registry calls a sequence of turn steps makes, for group `g` and
      the caller `c` its acquisition became. */
  function LockCalls(events: seq<Stage>, g: Lock.GroupId, c: Lock.Caller): (calls: seq<Lock.Event>)
    ensures |calls| <= |events|
    decreases |events|
  {
    if |events| == 0 then []
    else
      var rest := LockCalls(events[1..], g, c);
      match events[0]
      case AcquireLock => [Lock.Acq(g)] + rest
      case CallRelease => [Lock.Rel(c)] + rest
      case ReleaseGroup => [Lock.DropGroup(g)] + rest
      case _ => rest
  }

  /** Steps other than the lock's own make no registry calls. */
  lemma {:induction false} LockCallsOfStages(events: seq<Stage>, g: Lock.GroupId, c: Lock.Caller)
    requires forall i :: 0 <= i < |events| ==> events[i] !in {AcquireLock, CallRelease, ReleaseGroup}
    ensures LockCalls(events, g, c) == []
    decreases |events|
  {
    if |events| > 0 {
      LockCallsOfStages(events[1..], g, c);
    }
  }

  /** The pipeline's own stages are none of the lock's steps. */
  lemma PipelineHasNoLockSteps(k: nat)
    requires k <= |Pipeline|
    ensures forall i :: 0 <= i < k ==> Pipeline[..k][i] !in {AcquireLock, CallRelease, ReleaseGroup}
    ensures AcquireLock !in Pipeline[..k] && CallRelease !in Pipeline[..k] && ReleaseGroup !in Pipeline[..k]
  {
  }

  /** The registry calls of an acquisition, some other steps, and the two
      releases: the closure, then `releaseGroupLock`. */
  lemma LockCallsOfTurn(middle: seq<Stage>, g: Lock.GroupId, c: Lock.Caller)
    requires forall i :: 0 <= i < |middle| ==> middle[i] !in {AcquireLock, CallRelease, ReleaseGroup}
    ensures LockCalls([AcquireLock] + middle + [CallRelease, ReleaseGroup], g, c)
      == [Lock.Acq(g), Lock.Rel(c), Lock.DropGroup(g)]
  {
    var events := [AcquireLock] + middle + [CallRelease, ReleaseGroup];
    assert events[1..] == middle + [CallRelease, ReleaseGroup];
    LockCallsAppend(middle, [CallRelease, ReleaseGroup], g, c);
    LockCallsOfStages(middle, g, c);
    assert [CallRelease, ReleaseGroup][1..] == [ReleaseGroup];
    assert [ReleaseGroup][1..] == [];
  }

  lemma {:induction false} LockCallsAppend(a: seq<Stage>, b: seq<Stage>, g: Lock.GroupId, c: Lock.Caller)
    ensures LockCalls(a + b, g, c) == LockCalls(a, g, c) + LockCalls(b, g, c)
    decreases |a|
  {
    if |a| == 0 {
      assert a + b == b;
    } else {
      assert (a + b)[1..] == a[1..] + b;
      LockCallsAppend(a[1..], b, g, c);
    }
  }
}
