/** The custom-resource handler: one event in, at most one call to the
    function-management API, exactly one response to CloudFormation.

    The API's answer is a parameter (`SdkOutcome`), and what the handler does
    is recorded as a sequence of effects: the call it makes and the response
    it sends, in order. */
module Handler {
  import opened Js
  import opened Params

  /** The value of `response.SUCCESS` / `response.FAILED`. */
  datatype Status = Success | Failed

  /** The SDK's `data` or `err` object, and any other response data, taken as
      an uninterpreted value. */
  type Payload = string

  /** What the SDK hands the callback: `err` set, or `data`. */
  datatype SdkOutcome = Ok(data: Payload) | Err(error: Payload)

  /** The three calls into the function-management API. */
  datatype SdkCall =
    | CreateFunction(params: ParamsValue)
    | UpdateFunctionConfiguration(params: ParamsValue)
    | DeleteFunction(functionName: Option<string>)

  /** `response.send(event, context, status, data, physicalResourceId)`;
      arguments left out are undefined. */
  datatype Response = Response(status: Status, data: Option<Payload>, physicalResourceId: Option<string>)

  datatype Effect = Call(call: SdkCall) | Send(response: Response)

  /** How an invocation ends: with its effects, or by a TypeError thrown when
      the event has no `ResourceProperties.Lambda` to read. */
  datatype Run = Threw | Completed(effects: seq<Effect>)

  /** The event as a value: the fields the handler reads. */
  datatype EventValue = EventValue(
    requestType: Option<string>,
    physicalResourceId: Option<string>,
    lambda: Option<ParamsValue>)

  /** The event as the handler receives it, whose `Lambda` record it may rewrite. */
  datatype Event = Event(
    requestType: Option<string>,
    physicalResourceId: Option<string>,
    lambda: Option<LambdaParams>)

  /** The objects an event lets the handler change. */
  function Footprint(e: Event): set<object> {
    if e.lambda.Some? then {e.lambda.value} else {}
  }

  /** The event's current value. */
  function Snapshot(e: Event): EventValue
    reads Footprint(e)
  {
    EventValue(e.requestType, e.physicalResourceId,
      if e.lambda.Some? then Some(e.lambda.value.Value()) else None)
  }

  /** The API calls among `effects`, in order. */
  function Calls(effects: seq<Effect>): (calls: seq<SdkCall>)
    ensures |calls| <= |effects|
    ensures forall c :: c in calls <==> Call(c) in effects
  {
    if effects == [] then []
    else
      var rest := Calls(effects[1..]);
      assert effects == [effects[0]] + effects[1..];
      if effects[0].Call? then [effects[0].call] + rest else rest
  }

  /** The responses among `effects`, in order. */
  function Responses(effects: seq<Effect>): (responses: seq<Response>)
    ensures |responses| <= |effects|
    ensures forall r :: r in responses <==> Send(r) in effects
  {
    if effects == [] then []
    else
      var rest := Responses(effects[1..]);
      assert effects == [effects[0]] + effects[1..];
      if effects[0].Send? then [effects[0].response] + rest else rest
  }

  /** The shape of every completed invocation: at most one call, then exactly
      one response, and nothing after it. */
  predicate OneShot(effects: seq<Effect>) {
    |Responses(effects)| == 1 && |Calls(effects)| <= 1
    && effects != [] && effects[|effects| - 1].Send?
  }

  /** The API callback: FAILED with the error, or SUCCESS with the data; the
      physical resource id to attach is chosen by each path. */
  function Callback(o: SdkOutcome, idOnError: Option<string>, idOnSuccess: Option<string>): (r: Response)
    ensures r.status == Success <==> o.Ok?
    ensures o.Ok? ==> r.data == Some(o.data) && r.physicalResourceId == idOnSuccess
    ensures o.Err? ==> r.data == Some(o.error) && r.physicalResourceId == idOnError
  {
    match o
    case Err(error) => Response(Failed, Some(error), idOnError)
    case Ok(data) => Response(Success, Some(data), idOnSuccess)
  }

  /** One call, then the response to its outcome. */
  function CallThenReply(call: SdkCall, reply: Response): (effects: seq<Effect>)
    ensures OneShot(effects)
    ensures Calls(effects) == [call] && Responses(effects) == [reply]
  {
    var effects := [Call(call), Send(reply)];
    assert effects[1..] == [Send(reply)];
    effects
  }

  /** A response sent without any call. */
  function ReplyOnly(reply: Response): (effects: seq<Effect>)
    ensures OneShot(effects)
    ensures Calls(effects) == [] && Responses(effects) == [reply]
  {
    [Send(reply)]
  }

  /** createLambda: create the function from the prepared parameters; only a
      success reports the function name as the physical resource id. */
  function CreateEffects(p: ParamsValue, o: SdkOutcome): (effects: seq<Effect>)
    ensures OneShot(effects)
    ensures Calls(effects) == [CreateFunction(CreateParams(p))]
    ensures Responses(effects) == [Callback(o, None, p.functionName)]
    ensures Responses(effects)[0].status == Success <==> o.Ok?
    ensures Responses(effects)[0].physicalResourceId == if o.Ok? then p.functionName else None
  {
    CallThenReply(CreateFunction(CreateParams(p)), Callback(o, None, p.functionName))
  }

  /** updateLambdaConfiguration: update with the parameters as given; both
      outcomes report the function name as the physical resource id. */
  function UpdateEffects(p: ParamsValue, o: SdkOutcome): (effects: seq<Effect>)
    ensures OneShot(effects)
    ensures Calls(effects) == [UpdateFunctionConfiguration(p)]
    ensures Responses(effects) == [Callback(o, p.functionName, p.functionName)]
    ensures Responses(effects)[0].status == Success <==> o.Ok?
    ensures Responses(effects)[0].physicalResourceId == p.functionName
  {
    CallThenReply(UpdateFunctionConfiguration(p), Callback(o, p.functionName, p.functionName))
  }

  /** deleteLambda: delete only a function this stack created, that is one
      whose name is the stored physical resource id; otherwise report success. */
  function DeleteEffects(physicalResourceId: Option<string>, p: ParamsValue, o: SdkOutcome): (effects: seq<Effect>)
    ensures OneShot(effects)
    ensures Calls(effects) != [] <==> physicalResourceId == p.functionName
    ensures physicalResourceId == p.functionName ==>
      Calls(effects) == [DeleteFunction(p.functionName)]
      && Responses(effects) == [Callback(o, p.functionName, p.functionName)]
    ensures physicalResourceId != p.functionName ==>
      effects == [Send(Response(Success, None, None))]
  {
    if physicalResourceId == p.functionName then
      CallThenReply(DeleteFunction(p.functionName), Callback(o, p.functionName, p.functionName))
    else
      ReplyOnly(Response(Success, None, None))
  }

  /** The three request types the handler serves. */
  predicate IsKnown(requestType: Option<string>) {
    requestType == Some("Create") || requestType == Some("Update") || requestType == Some("Delete")
  }

  /** `'Unknown event: ' + event.RequestType`, where undefined prints as "undefined". */
  function UnknownEventMessage(requestType: Option<string>): (m: string)
    ensures |m| >= 15 && m[..15] == "Unknown event: "
    ensures requestType.Some? ==> m[15..] == requestType.value
    ensures requestType.None? ==> m[15..] == "undefined"
  {
    "Unknown event: " + match requestType
      case Some(t) => t
      case None => "undefined"
  }

  /** The call a request type leads to. */
  predicate CallFits(requestType: Option<string>, call: SdkCall) {
    match call
    case CreateFunction(_) => requestType == Some("Create")
    case UpdateFunctionConfiguration(_) => requestType == Some("Update")
    case DeleteFunction(_) => requestType == Some("Delete")
  }

  /** exports.handler: the switch on `RequestType`. */
  function Dispatch(e: EventValue, o: SdkOutcome): (r: Run)
    ensures r.Threw? <==> IsKnown(e.requestType) && e.lambda.None?
    ensures r.Completed? ==> OneShot(r.effects)
    ensures r.Completed? ==> forall c :: c in Calls(r.effects) ==> CallFits(e.requestType, c)
    ensures e.lambda.Some? && (e.requestType == Some("Create") || e.requestType == Some("Update")) ==>
      |Calls(r.effects)| == 1
    ensures e.lambda.Some? && e.requestType == Some("Delete") ==>
      (|Calls(r.effects)| == 1 <==> e.physicalResourceId == e.lambda.value.functionName)
    ensures e.lambda.Some? && e.requestType == Some("Create") ==>
      r == Completed(CreateEffects(e.lambda.value, o))
    ensures e.lambda.Some? && e.requestType == Some("Update") ==>
      r == Completed(UpdateEffects(e.lambda.value, o))
    ensures e.lambda.Some? && e.requestType == Some("Delete") ==>
      r == Completed(DeleteEffects(e.physicalResourceId, e.lambda.value, o))
    ensures !IsKnown(e.requestType) ==>
      r == Completed([Send(Response(Failed, Some(UnknownEventMessage(e.requestType)), None))])
  {
    match e.requestType
    case Some("Create") =>
      if e.lambda.None? then Threw else Completed(CreateEffects(e.lambda.value, o))
    case Some("Update") =>
      if e.lambda.None? then Threw else Completed(UpdateEffects(e.lambda.value, o))
    case Some("Delete") =>
      if e.lambda.None? then Threw else Completed(DeleteEffects(e.physicalResourceId, e.lambda.value, o))
    case _ =>
      Completed(ReplyOnly(Response(Failed, Some(UnknownEventMessage(e.requestType)), None)))
  }

  /** A Delete carrying the id a successful Create reported deletes exactly
      the function that Create made. */
  lemma CreatedThenDeleted(p: ParamsValue, created: SdkOutcome, o: SdkOutcome)
    requires created.Ok? && p.functionName.Some?
    ensures var reported := Responses(CreateEffects(p, created))[0].physicalResourceId;
      Dispatch(EventValue(Some("Delete"), reported, Some(p)), o).effects
        == [Call(DeleteFunction(p.functionName)), Send(Callback(o, p.functionName, p.functionName))]
  {
  }

  /** A Delete whose stored id is not the function's name (as after a failed
      Create, which reported none) deletes nothing and succeeds. */
  lemma ForeignIdNotDeleted(e: EventValue, o: SdkOutcome)
    requires e.requestType == Some("Delete") && e.lambda.Some?
    requires e.physicalResourceId != e.lambda.value.functionName
    ensures Dispatch(e, o) == Completed([Send(Response(Success, None, None))])
  {
  }

  /** createLambda, on the mutable record: note the name, fill in the echo
      defaults when there is no S3 code, call createFunction, relay its outcome. */
  method CreateLambda(lambda: LambdaParams, o: SdkOutcome) returns (effects: seq<Effect>)
    modifies lambda
    ensures lambda.Value() == CreateParams(old(lambda.Value()))
    ensures effects == CreateEffects(old(lambda.Value()), o)
  {
    var functionName := lambda.functionName;
    if !lambda.code.Some? || !Truthy(lambda.code.value.s3Bucket) {
      lambda.ApplyEchoDefaults();
    }
    var reply := Callback(o, None, functionName);
    effects := [Call(CreateFunction(lambda.Value())), Send(reply)];
  }

  /** exports.handler, on the event as received: only a Create rewrites the
      `Lambda` record. */
  method HandleEvent(e: Event, o: SdkOutcome) returns (r: Run)
    modifies Footprint(e)
    ensures r == Dispatch(old(Snapshot(e)), o)
    ensures e.lambda.Some? ==> (e.lambda.value.Value() ==
      if e.requestType == Some("Create") then CreateParams(old(e.lambda.value.Value()))
      else old(e.lambda.value.Value()))
  {
    match e.requestType
    case Some("Create") =>
      if e.lambda.None? {
        r := Threw;
      } else {
        var effects := CreateLambda(e.lambda.value, o);
        r := Completed(effects);
      }
    case Some("Update") =>
      if e.lambda.None? {
        r := Threw;
      } else {
        r := Completed(UpdateEffects(e.lambda.value.Value(), o));
      }
    case Some("Delete") =>
      if e.lambda.None? {
        r := Threw;
      } else {
        r := Completed(DeleteEffects(e.physicalResourceId, e.lambda.value.Value(), o));
      }
    case _ =>
      r := Completed(ReplyOnly(Response(Failed, Some(UnknownEventMessage(e.requestType)), None)));
  }
}
