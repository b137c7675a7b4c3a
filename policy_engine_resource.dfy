/**
 * The CloudFormation custom resource that creates, updates and deletes AgentCore policy
 * engines, policies and the association of an engine with a gateway.
 *
 * The control plane is a `ControlPlane` object: it records every API call the handler makes,
 * in order, and a `Service` answers each one (its answer may depend on how many calls came
 * before). A polling waiter asks at most `rounds` times: the number of status checks that fit
 * in its 300-second budget. Each handler is specified by a function giving the response it
 * sends and the calls it makes, and the handler method is proved to do exactly that.
 */
module PolicyEngineResource {
  import opened Wrappers
  import opened Seqs
  import opened Text
  import opened PyDict
  import opened Json

  // ---------------------------------------------------------------------------
  // The control plane
  // ---------------------------------------------------------------------------

  /** Why a call raised: the service's ResourceNotFoundException, or anything else. */
  datatype Fault = NotFound | OtherFault

  /** A call's outcome: the reply's string fields, or the exception with its message. */
  datatype Reply = Returned(body: Dict<string>) | Threw(fault: Fault, message: string)

  /**
   * The arguments `update_gateway` receives (`gatewayIdentifier` and the copied gateway fields).
   * In `copied` a None is the Python None that `response.get(key)` gives for a missing field; in
   * `interceptorConfigurations` a None stands for the `[]` default `response.get(key, [])` sends.
   */
  datatype GatewayUpdate = GatewayUpdate(
    gatewayIdentifier: string,
    copied: seq<Option<string>>,
    policyEngineArn: Option<string>,
    mode: string,
    interceptorConfigurations: Option<string>)

  /** One call to the `bedrock-agentcore-control` client. */
  datatype Call =
    | CreateEngineCall(name: string, description: string)
    | GetEngineCall(engineId: string)
    | UpdateEngineCall(engineId: string, description: string)
    | DeleteEngineCall(engineId: string)
    | CreatePolicyCall(engineId: string, policyName: string, statement: string, description: string)
    | GetPolicyCall(engineId: string, policyId: string)
    | UpdatePolicyCall(optEngineId: Option<string>, policyId: string, description: string, optStatement: Option<string>)
    | DeletePolicyCall(engineId: string, policyId: string)
    | GetGatewayCall(gatewayId: string)
    | UpdateGatewayCall(update: GatewayUpdate)

  /**
   * The service behind the client: `respond(n, c)` is its answer to call `c` made after `n`
   * earlier calls, and `rounds` is how many status checks a waiter's time budget allows.
   */
  datatype Service = Service(respond: (nat, Call) -> Reply, rounds: nat)

  // ---------------------------------------------------------------------------
  // Waiters
  // ---------------------------------------------------------------------------

  /** What one status check decides: the wait is over, it failed with a message, or it goes on. */
  datatype Step = Done | Stop(message: string) | Pending

  /** What the waiter's status check made as the `k`-th call decides. */
  function StepAt(respond: (nat, Call) -> Reply, c: Call, classify: Reply -> Step, k: nat): Step {
    classify(respond(k, c))
  }

  /** The outcome of a waiter whose first poll is the `n`-th call, and how many polls it made. */
  function AwaitOutcome(respond: (nat, Call) -> Reply, n: nat, c: Call, classify: Reply -> Step,
                        rounds: nat, timeout: string): (r: (Result<()>, nat))
    ensures r.1 <= rounds
    ensures rounds > 0 ==> r.1 > 0
    decreases rounds
  {
    if rounds == 0 then (Raised(timeout), 0)
    else
      match StepAt(respond, c, classify, n)
      case Done => (Ok(()), 1)
      case Stop(m) => (Raised(m), 1)
      case Pending =>
        var w := AwaitOutcome(respond, n + 1, c, classify, rounds - 1, timeout);
        (w.0, w.1 + 1)
  }

  /**
   * After `done` polls that went on, the waiter started at the `n`-th call ends as the waiter
   * started at the `(n + done)`-th call with the time that is left, `done` polls later.
   */
  predicate Resumes(respond: (nat, Call) -> Reply, n: nat, c: Call, classify: Reply -> Step, timeout: string, done: nat, left: nat) {
    var w := AwaitOutcome(respond, n + done, c, classify, left, timeout);
    AwaitOutcome(respond, n, c, classify, done + left, timeout) == (w.0, w.1 + done)
  }

  /** A poll that goes on moves the resumption point one call on. */
  lemma AwaitPending(respond: (nat, Call) -> Reply, n: nat, c: Call, classify: Reply -> Step, timeout: string, done: nat, left: nat)
    requires left > 0 && StepAt(respond, c, classify, n + done).Pending?
    requires Resumes(respond, n, c, classify, timeout, done, left)
    ensures Resumes(respond, n, c, classify, timeout, done + 1, left - 1)
  {
  }

  /** A poll that settles decides the outcome of the whole wait. */
  lemma AwaitSettled(respond: (nat, Call) -> Reply, n: nat, c: Call, classify: Reply -> Step, timeout: string, done: nat, left: nat)
    requires left > 0 && !StepAt(respond, c, classify, n + done).Pending?
    requires Resumes(respond, n, c, classify, timeout, done, left)
    ensures var s := StepAt(respond, c, classify, n + done);
      AwaitOutcome(respond, n, c, classify, done + left, timeout) == (if s.Done? then Ok(()) else Raised(s.message), done + 1)
  {
  }

  /** Every poll from the `n`-th call up to, not including, the `m`-th went on. */
  predicate PendingUntil(respond: (nat, Call) -> Reply, c: Call, classify: Reply -> Step, n: nat, m: nat) {
    forall k :: n <= k < m ==> StepAt(respond, c, classify, k).Pending?
  }

  /** A waiter ends at the first poll that settles: done returns, a failure raises its message. */
  lemma {:induction false} AwaitSettlesAtFirst(respond: (nat, Call) -> Reply, n: nat, c: Call,
                                               classify: Reply -> Step, rounds: nat, timeout: string, i: nat)
    requires i < rounds
    requires PendingUntil(respond, c, classify, n, n + i)
    requires !StepAt(respond, c, classify, n + i).Pending?
    ensures var s := StepAt(respond, c, classify, n + i);
      AwaitOutcome(respond, n, c, classify, rounds, timeout) == (if s.Done? then Ok(()) else Raised(s.message), i + 1)
    decreases i
  {
    if i > 0 {
      assert StepAt(respond, c, classify, n).Pending?;
      AwaitSettlesAtFirst(respond, n + 1, c, classify, rounds - 1, timeout, i - 1);
    }
  }

  /** A waiter none of whose polls settles makes every poll it has time for and raises its timeout. */
  lemma {:induction false} AwaitTimesOut(respond: (nat, Call) -> Reply, n: nat, c: Call,
                                         classify: Reply -> Step, rounds: nat, timeout: string)
    requires PendingUntil(respond, c, classify, n, n + rounds)
    ensures AwaitOutcome(respond, n, c, classify, rounds, timeout) == (Raised(timeout), rounds)
    decreases rounds
  {
    if rounds > 0 {
      assert StepAt(respond, c, classify, n).Pending?;
      AwaitTimesOut(respond, n + 1, c, classify, rounds - 1, timeout);
    }
  }

  /** A waiter returns exactly when some poll reports it done and every poll before it went on. */
  lemma {:induction false} AwaitReturnsIff(respond: (nat, Call) -> Reply, n: nat, c: Call,
                                           classify: Reply -> Step, rounds: nat, timeout: string)
    ensures AwaitOutcome(respond, n, c, classify, rounds, timeout).0.Ok? <==>
      exists k :: n <= k < n + rounds && StepAt(respond, c, classify, k).Done? && PendingUntil(respond, c, classify, n, k)
    decreases rounds
  {
    if rounds > 0 {
      var s := StepAt(respond, c, classify, n);
      if s.Pending? {
        AwaitReturnsIff(respond, n + 1, c, classify, rounds - 1, timeout);
        if AwaitOutcome(respond, n, c, classify, rounds, timeout).0.Ok? {
          var k :| n + 1 <= k < n + rounds && StepAt(respond, c, classify, k).Done? && PendingUntil(respond, c, classify, n + 1, k);
          assert PendingUntil(respond, c, classify, n, k);
        }
        if exists k :: n <= k < n + rounds && StepAt(respond, c, classify, k).Done? && PendingUntil(respond, c, classify, n, k) {
          var k :| n <= k < n + rounds && StepAt(respond, c, classify, k).Done? && PendingUntil(respond, c, classify, n, k);
          assert k != n;
          assert PendingUntil(respond, c, classify, n + 1, k);
        }
      } else if s.Done? {
        assert PendingUntil(respond, c, classify, n, n);
      } else {
        forall k | n <= k < n + rounds && PendingUntil(respond, c, classify, n, k) ensures k == n {
          assert !StepAt(respond, c, classify, n).Pending?;
        }
      }
    }
  }

  const EngineActiveTimeout := "Policy engine did not become active within 300 seconds"
  const PolicyActiveTimeout := "Policy did not become active within 300 seconds"
  const PolicyDeletedTimeout := "Policy was not deleted within 300 seconds"
  const EngineDeletedTimeout := "Policy engine was not deleted within 300 seconds"

  /**
   * One check of `wait_for_policy_engine_active`: `ACTIVE` is done, `FAILED` and `DELETING` fail,
   * any other status goes on; a reply without a status and every exception, not-found included,
   * end the wait with that error.
   */
  function EngineActiveStep(reply: Reply): (s: Step)
    ensures s.Done? <==> reply.Returned? && Get(reply.body, "status") == Some("ACTIVE")
    ensures s.Pending? <==>
      (reply.Returned? && Get(reply.body, "status").Some? &&
       Get(reply.body, "status").value !in ["ACTIVE", "FAILED", "DELETING"])
    ensures reply.Threw? ==> s == Stop(reply.message)
    ensures reply.Returned? && !HasKey(reply.body, "status") ==> s == Stop(KeyErrorMessage("status"))
  {
    match reply
    case Threw(_, m) => Stop(m)
    case Returned(body) =>
      match Index(body, "status")
      case Raised(m) => Stop(m)
      case Ok(status) =>
        if status == "ACTIVE" then Done
        else if status == "FAILED" || status == "DELETING" then
          Stop("Policy engine creation failed with status: " + status)
        else Pending
  }

  /**
   * One check of `wait_for_policy_active`: the status defaults to `UNKNOWN`; `ACTIVE` is done,
   * `FAILED`, `DELETING` and `CREATE_FAILED` fail; a policy not found yet goes on, as does any
   * other status; any other exception ends the wait.
   */
  function PolicyActiveStep(reply: Reply): (s: Step)
    ensures s.Done? <==> reply.Returned? && GetOr(reply.body, "status", "UNKNOWN") == "ACTIVE"
    ensures s.Pending? <==>
      (|| (reply.Threw? && reply.fault == NotFound)
       || (reply.Returned? && GetOr(reply.body, "status", "UNKNOWN") !in ["ACTIVE", "FAILED", "DELETING", "CREATE_FAILED"]))
    ensures reply.Threw? && reply.fault == OtherFault ==> s == Stop(reply.message)
  {
    match reply
    case Threw(NotFound, _) => Pending
    case Threw(OtherFault, m) => Stop(m)
    case Returned(body) =>
      var status := GetOr(body, "status", "UNKNOWN");
      if status == "ACTIVE" then Done
      else if status == "FAILED" || status == "DELETING" || status == "CREATE_FAILED" then
        Stop("Policy creation failed with status: " + status)
      else Pending
  }

  /**
   * One check of `wait_for_policy_deleted` and `wait_for_policy_engine_deleted`: only not-found
   * ends the wait successfully; any status, `DELETING` or not, goes on; other exceptions fail.
   */
  function DeletedStep(reply: Reply): (s: Step)
    ensures s.Done? <==> reply.Threw? && reply.fault == NotFound
    ensures s.Pending? <==> reply.Returned?
    ensures s.Stop? ==> s.message == reply.message
  {
    match reply
    case Threw(NotFound, _) => Done
    case Threw(OtherFault, m) => Stop(m)
    case Returned(_) => Pending
  }

  // ---------------------------------------------------------------------------
  // The CloudFormation event and response
  // ---------------------------------------------------------------------------

  /** The fields of a custom-resource event the handler reads; properties are strings. */
  datatype Event = Event(
    requestType: string,
    properties: Dict<string>,
    physicalResourceId: Option<string>,
    oldProperties: Option<Dict<string>>,
    stackId: string,
    requestId: string,
    logicalResourceId: string)

  /** The response body `send_response` builds (and PUTs to the event's ResponseURL). */
  datatype Response = Response(
    status: string,
    reason: string,
    physicalResourceId: string,
    stackId: string,
    requestId: string,
    logicalResourceId: string,
    data: Dict<Value>)

  /** The physical id `send_response` reports: the argument, else the event's, else `failed-<epoch>`. */
  function ResponseId(event: Event, physicalId: Option<string>, now: nat): (r: string)
    ensures physicalId.Some? && physicalId.value != "" ==> r == physicalId.value
    ensures (physicalId.None? || physicalId.value == "") && event.physicalResourceId.Some? ==>
      r == event.physicalResourceId.value
    ensures (physicalId.None? || physicalId.value == "") && event.physicalResourceId.None? ==>
      r == "failed-" + NatToString(now)
  {
    if physicalId.Some? && physicalId.value != "" then physicalId.value
    else event.physicalResourceId.GetOr("failed-" + NatToString(now))
  }

  /** `send_response(event, status, reason, data, physical_id)`: the body it sends and returns. */
  function SendResponse(event: Event, status: string, reason: string, data: Dict<Value>,
                        physicalId: Option<string>, now: nat): (r: Response)
    ensures r.status == status && r.reason == reason && r.data == data
    ensures r.physicalResourceId == ResponseId(event, physicalId, now)
    ensures r.stackId == event.stackId && r.requestId == event.requestId
    ensures r.logicalResourceId == event.logicalResourceId
  {
    Response(status, reason, ResponseId(event, physicalId, now),
             event.stackId, event.requestId, event.logicalResourceId, data)
  }

  /** A response answers `event`: it carries the event's stack, request and logical resource ids. */
  predicate Answers(r: Response, event: Event) {
    r.stackId == event.stackId && r.requestId == event.requestId && r.logicalResourceId == event.logicalResourceId
  }

  /** The FAILED response an exception ends in: its message is the reason, there is no data. */
  function FailedResponse(event: Event, message: string, now: nat): Response {
    SendResponse(event, "FAILED", message, [], None, now)
  }

  /** The SUCCESS response a delete reports when its calls raised. */
  function WarnedDelete(event: Event, message: string, now: nat): Response {
    SendResponse(event, "SUCCESS", "Delete completed with warnings: " + message, [],
                 Some(event.physicalResourceId.GetOr("unknown")), now)
  }

  /** Python's `f"{x}"` for a string or `None`. */
  function OptText(o: Option<string>): string {
    if o.Some? then o.value else "None"
  }

  /** A string or `None` as a JSON value. */
  function OptValue(o: Option<string>): Value {
    if o.Some? then Str(o.value) else Null
  }

  /** `if not x`: the value is `None` or empty. */
  predicate Blank(o: Option<string>) {
    o.None? || o.value == ""
  }


  // ---------------------------------------------------------------------------
  // What each handler does: the response it sends and the calls it makes
  // ---------------------------------------------------------------------------

  /** A handler's run: the response it sends and the calls it makes, in order. */
  datatype Run = Run(response: Response, calls: seq<Call>)

  /** The run of a handler that calls `first` and then does `rest`. */
  function After(first: Call, rest: Run): (r: Run)
    ensures r.response == rest.response && r.calls == [first] + rest.calls
  {
    Run(rest.response, [first] + rest.calls)
  }

  // Policy engines

  function EngineName(props: Dict<string>): string {
    GetOr(props, "PolicyEngineName", "default_policy_engine")
  }

  function EngineDescription(props: Dict<string>): string {
    GetOr(props, "Description", "Policy Engine: " + EngineName(props))
  }

  /** The id and ARN a `create_policy_engine` reply carries, or the error reading them raises. */
  function EngineCreated(reply: Reply): (r: Result<(string, string)>)
    ensures r.Ok? <==> reply.Returned? && HasKey(reply.body, "policyEngineId") && HasKey(reply.body, "policyEngineArn")
    ensures r.Ok? ==> Get(reply.body, "policyEngineId") == Some(r.value.0) && Get(reply.body, "policyEngineArn") == Some(r.value.1)
    ensures reply.Threw? ==> r == Raised(reply.message)
  {
    match reply
    case Threw(_, m) => Raised(m)
    case Returned(body) =>
      var id :- Index(body, "policyEngineId");
      var arn :- Index(body, "policyEngineArn");
      Ok((id, arn))
  }

  /** The SUCCESS response of a creation: the new engine's id and ARN, and the physical id is the engine id. */
  function EngineCreatedResponse(event: Event, id: string, arn: string, now: nat): Response {
    SendResponse(event, "SUCCESS", "Policy engine created successfully",
                 [("PolicyEngineId", Str(id)), ("PolicyEngineArn", Str(arn)), ("Status", Str("ACTIVE"))], Some(id), now)
  }

  /** `create_policy_engine`: create the engine, wait until it is active, report its id. */
  function EngineCreation(sv: Service, n: nat, event: Event, now: nat): Run
  {
    var call := CreateEngineCall(EngineName(event.properties), EngineDescription(event.properties));
    match EngineCreated(sv.respond(n, call))
    case Raised(m) => Run(FailedResponse(event, m, now), [call])
    case Ok((id, arn)) =>
      var w := AwaitOutcome(sv.respond, n + 1, GetEngineCall(id), EngineActiveStep, sv.rounds, EngineActiveTimeout);
      var calls := [call] + Repeat(GetEngineCall(id), w.1);
      if w.0.Raised? then Run(FailedResponse(event, w.0.message, now), calls)
      else
        Run(EngineCreatedResponse(event, id, arn, now),
            calls)
  }

  /** What `EngineCreation` promises of every run. */
  lemma EngineCreationOutcome(sv: Service, n: nat, event: Event, now: nat)
    ensures var r := EngineCreation(sv, n, event, now);
      Answers(r.response, event) && r.response.status in {"SUCCESS", "FAILED"}
    ensures var r := EngineCreation(sv, n, event, now);
      r.calls != [] && r.calls[0] == CreateEngineCall(EngineName(event.properties), EngineDescription(event.properties))
    ensures var r := EngineCreation(sv, n, event, now);
      r.response.status == "FAILED" ==> r.response.data == []
  {
  }

  /**
   * A successful creation reports the id the service returned as the physical id, and only
   * after one of the waiter's checks of that engine found it `ACTIVE`.
   */
  lemma CreatedEngineIsActive(sv: Service, n: nat, event: Event, now: nat)
    requires EngineCreation(sv, n, event, now).response.status == "SUCCESS"
    ensures var call := CreateEngineCall(EngineName(event.properties), EngineDescription(event.properties));
      var created := EngineCreated(sv.respond(n, call));
      && created.Ok?
      && EngineCreation(sv, n, event, now).response.physicalResourceId == ResponseId(event, Some(created.value.0), now)
      && exists k :: n + 1 <= k < n + 1 + sv.rounds &&
           sv.respond(k, GetEngineCall(created.value.0)).Returned? &&
           Get(sv.respond(k, GetEngineCall(created.value.0)).body, "status") == Some("ACTIVE")
  {
    var call := CreateEngineCall(EngineName(event.properties), EngineDescription(event.properties));
    var id := EngineCreated(sv.respond(n, call)).value.0;
    AwaitReturnsIff(sv.respond, n + 1, GetEngineCall(id), EngineActiveStep, sv.rounds, EngineActiveTimeout);
    var k :| n + 1 <= k < n + 1 + sv.rounds && StepAt(sv.respond, GetEngineCall(id), EngineActiveStep, k).Done? &&
             PendingUntil(sv.respond, GetEngineCall(id), EngineActiveStep, n + 1, k);
    assert EngineActiveStep(sv.respond(k, GetEngineCall(id))).Done?;
  }

  /** The name a policy engine is recreated under when an update finds it gone. */
  function RecreatedName(props: Dict<string>): string {
    GetOr(props, "PolicyEngineName", "default-policy-engine")
  }

  /** The SUCCESS response of a recreation: the new engine's id is the physical id. */
  function EngineRecreatedResponse(event: Event, id: string, now: nat): Response {
    SendResponse(event, "SUCCESS", "Policy engine recreated successfully",
                 [("PolicyEngineId", Str(id)), ("Status", Str("ACTIVE"))], Some(id), now)
  }

  /** Recreating a vanished engine: create, wait until active, report the new id. */
  function EngineRecreation(sv: Service, n: nat, event: Event, now: nat): Run
  {
    var name := RecreatedName(event.properties);
    var call := CreateEngineCall(name, "Policy Engine: " + name);
    match sv.respond(n, call)
    case Threw(_, m) => Run(FailedResponse(event, m, now), [call])
    case Returned(body) =>
      match Index(body, "policyEngineId")
      case Raised(m) => Run(FailedResponse(event, m, now), [call])
      case Ok(id) =>
        var w := AwaitOutcome(sv.respond, n + 1, GetEngineCall(id), EngineActiveStep, sv.rounds, EngineActiveTimeout);
        var calls := [call] + Repeat(GetEngineCall(id), w.1);
        if w.0.Raised? then Run(FailedResponse(event, w.0.message, now), calls)
        else
          Run(EngineRecreatedResponse(event, id, now),
              calls)
  }

  /** What `EngineRecreation` promises of every run. */
  lemma EngineRecreationOutcome(sv: Service, n: nat, event: Event, now: nat)
    ensures var r := EngineRecreation(sv, n, event, now);
      Answers(r.response, event) && r.response.status in {"SUCCESS", "FAILED"}
    ensures var r := EngineRecreation(sv, n, event, now);
      var name := RecreatedName(event.properties);
      r.calls != [] && r.calls[0] == CreateEngineCall(name, "Policy Engine: " + name)
    ensures var r := EngineRecreation(sv, n, event, now);
      var name := RecreatedName(event.properties);
      var created := sv.respond(n, CreateEngineCall(name, "Policy Engine: " + name));
      r.response.status == "SUCCESS" ==>
        && created.Returned? && HasKey(created.body, "policyEngineId")
        && r.response.physicalResourceId == ResponseId(event, Get(created.body, "policyEngineId"), now)
  {
  }

  const UpdateFailure := "Failed to update policy engine: "

  /** The SUCCESS response of an update: the status the lookup saw, the ARN the update returned. */
  function EngineUpdatedResponse(event: Event, id: string, arn: string, status: string, now: nat): Response {
    SendResponse(event, "SUCCESS", "Policy engine update",
                 [("PolicyEngineId", Str(id)), ("PolicyEngineArn", Str(arn)), ("Status", Str(status))], Some(id), now)
  }

  /** Updating an engine that exists: new description, wait until active, keep the id. */
  function ExistingEngineUpdate(sv: Service, n: nat, event: Event, id: string, status: string, now: nat): Run
  {
    var call := UpdateEngineCall(id, EngineDescription(event.properties));
    match sv.respond(n, call)
    case Threw(_, m) => Run(FailedResponse(event, UpdateFailure + m, now), [call])
    case Returned(body) =>
      var w := AwaitOutcome(sv.respond, n + 1, GetEngineCall(id), EngineActiveStep, sv.rounds, EngineActiveTimeout);
      var calls := [call] + Repeat(GetEngineCall(id), w.1);
      if w.0.Raised? then Run(FailedResponse(event, UpdateFailure + w.0.message, now), calls)
      else
        Run(EngineUpdatedResponse(event, id, GetOr(body, "policyEngineArn", ""), status, now),
            calls)
  }

  /** What `ExistingEngineUpdate` promises of every run. */
  lemma ExistingEngineUpdateOutcome(sv: Service, n: nat, event: Event, id: string, status: string, now: nat)
    ensures var r := ExistingEngineUpdate(sv, n, event, id, status, now);
      Answers(r.response, event) && r.response.status in {"SUCCESS", "FAILED"}
    ensures var r := ExistingEngineUpdate(sv, n, event, id, status, now);
      r.calls != [] && r.calls[0] == UpdateEngineCall(id, EngineDescription(event.properties))
    ensures var r := ExistingEngineUpdate(sv, n, event, id, status, now);
      r.response.status == "SUCCESS" ==> r.response.physicalResourceId == ResponseId(event, Some(id), now)
    ensures var r := ExistingEngineUpdate(sv, n, event, id, status, now);
      r.response.status == "FAILED" ==> UpdateFailure <= r.response.reason
  {
  }

  /**
   * `update_policy_engine`: look the engine up by its physical id; update it when it exists,
   * recreate it when the service says it is not found, fail on any other error.
   */
  function EngineUpdate(sv: Service, n: nat, event: Event, now: nat): Run
  {
    var id := event.physicalResourceId.GetOr("");
    match sv.respond(n, GetEngineCall(id))
    case Threw(OtherFault, m) => Run(FailedResponse(event, m, now), [GetEngineCall(id)])
    case Threw(NotFound, _) => After(GetEngineCall(id), EngineRecreation(sv, n + 1, event, now))
    case Returned(body) =>
      After(GetEngineCall(id), ExistingEngineUpdate(sv, n + 1, event, id, GetOr(body, "status", "UNKNOWN"), now))
  }

  /** What `EngineUpdate` promises of every run. */
  lemma EngineUpdateOutcome(sv: Service, n: nat, event: Event, now: nat)
    ensures var r := EngineUpdate(sv, n, event, now);
      Answers(r.response, event) && r.response.status in {"SUCCESS", "FAILED"}
    ensures var r := EngineUpdate(sv, n, event, now);
      r.calls != [] && r.calls[0] == GetEngineCall(event.physicalResourceId.GetOr(""))
  {
  }

  /**
   * What an update does, by what the lookup found: an engine that exists is updated and keeps
   * its physical id; a missing one is recreated and a successful recreation reports the new id;
   * any other error fails with its message and no further call.
   */
  lemma UpdateRecreatesOnlyMissingEngines(sv: Service, n: nat, event: Event, now: nat)
    ensures var id := event.physicalResourceId.GetOr("");
      var found := sv.respond(n, GetEngineCall(id));
      var r := EngineUpdate(sv, n, event, now);
      && (found.Returned? ==>
            && |r.calls| > 1 && r.calls[1] == UpdateEngineCall(id, EngineDescription(event.properties))
            && (r.response.status == "SUCCESS" ==> r.response.physicalResourceId == ResponseId(event, Some(id), now)))
      && (found.Threw? && found.fault == NotFound ==>
            && var name := RecreatedName(event.properties);
               |r.calls| > 1 && r.calls[1] == CreateEngineCall(name, "Policy Engine: " + name))
      && (found.Threw? && found.fault == OtherFault ==>
            r == Run(FailedResponse(event, found.message, now), [GetEngineCall(id)]))
  {
  }

  function EngineDeletedResponse(event: Event, id: string, now: nat): Response {
    SendResponse(event, "SUCCESS", "Policy engine deleted successfully", [], Some(id), now)
  }

  /** `delete_policy_engine`: delete, wait until gone; never fails, and needs a physical id to call. */
  function EngineDeletion(sv: Service, n: nat, event: Event, now: nat): Run
  {
    var id := event.physicalResourceId.GetOr("");
    if id == "" then
      Run(EngineDeletedResponse(event, id, now), [])
    else
      match sv.respond(n, DeleteEngineCall(id))
      case Threw(_, m) => Run(WarnedDelete(event, m, now), [DeleteEngineCall(id)])
      case Returned(_) =>
        var w := AwaitOutcome(sv.respond, n + 1, GetEngineCall(id), DeletedStep, sv.rounds, EngineDeletedTimeout);
        var calls := [DeleteEngineCall(id)] + Repeat(GetEngineCall(id), w.1);
        if w.0.Raised? then Run(WarnedDelete(event, w.0.message, now), calls)
        else Run(EngineDeletedResponse(event, id, now), calls)
  }

  /** Deleting an engine always reports success; with no engine id it makes no call, otherwise it starts with `delete_policy_engine`. */
  lemma EngineDeletionSucceeds(sv: Service, n: nat, event: Event, now: nat)
    ensures var r := EngineDeletion(sv, n, event, now);
      Answers(r.response, event) && r.response.status == "SUCCESS"
    ensures var r := EngineDeletion(sv, n, event, now);
      event.physicalResourceId.GetOr("") == "" <==> r.calls == []
    ensures var r := EngineDeletion(sv, n, event, now);
      r.calls != [] ==> r.calls[0] == DeleteEngineCall(event.physicalResourceId.GetOr(""))
  {
  }

  // Policies

  function PolicyDescription(props: Dict<string>): string {
    GetOr(props, "PolicyDescription", "Policy: " + OptText(Get(props, "PolicyName")))
  }

  /** The error `create_policy` raises for a missing required property, checked in this order. */
  function MissingPolicyField(props: Dict<string>): (r: Option<string>)
    ensures r.None? <==>
      !Blank(Get(props, "PolicyEngineId")) && !Blank(Get(props, "PolicyName")) && !Blank(Get(props, "PolicyStatement"))
    ensures Blank(Get(props, "PolicyEngineId")) ==> r == Some("PolicyEngineId is required for creating a policy")
  {
    if Blank(Get(props, "PolicyEngineId")) then Some("PolicyEngineId is required for creating a policy")
    else if Blank(Get(props, "PolicyName")) then Some("PolicyName is required")
    else if Blank(Get(props, "PolicyStatement")) then Some("PolicyStatement is required")
    else None
  }

  function PolicyCreatedResponse(event: Event, policyId: string, engineId: string, name: string, description: string,
                                 now: nat): Response {
    SendResponse(event, "SUCCESS", "Policy created successfully",
                 [("PolicyId", Str(policyId)), ("PolicyEngineId", Str(engineId)), ("PolicyDescription", Str(description)),
                  ("PolicyName", Str(name)), ("Status", Str("ACTIVE"))],
                 Some(policyId), now)
  }

  /** `create_policy`: check the required properties, create with the Cedar statement, wait until active. */
  function PolicyCreation(sv: Service, n: nat, event: Event, now: nat): Run
  {
    var props := event.properties;
    match MissingPolicyField(props)
    case Some(m) => Run(FailedResponse(event, m, now), [])
    case None =>
      var engineId, name := Get(props, "PolicyEngineId").value, Get(props, "PolicyName").value;
      var description := PolicyDescription(props);
      var call := CreatePolicyCall(engineId, name, Get(props, "PolicyStatement").value, description);
      match sv.respond(n, call)
      case Threw(_, m) => Run(FailedResponse(event, m, now), [call])
      case Returned(body) =>
        match Index(body, "policyId")
        case Raised(m) => Run(FailedResponse(event, m, now), [call])
        case Ok(policyId) =>
          var w := AwaitOutcome(sv.respond, n + 1, GetPolicyCall(engineId, policyId), PolicyActiveStep, sv.rounds,
                                PolicyActiveTimeout);
          var calls := [call] + Repeat(GetPolicyCall(engineId, policyId), w.1);
          if w.0.Raised? then Run(FailedResponse(event, w.0.message, now), calls)
          else
            Run(PolicyCreatedResponse(event, policyId, engineId, name, description, now),
                calls)
  }

  /** What `PolicyCreation` promises of every run. */
  lemma PolicyCreationOutcome(sv: Service, n: nat, event: Event, now: nat)
    ensures var r := PolicyCreation(sv, n, event, now);
      Answers(r.response, event) && r.response.status in {"SUCCESS", "FAILED"}
    ensures var r := PolicyCreation(sv, n, event, now);
      var missing := MissingPolicyField(event.properties);
      missing.Some? ==> r == Run(FailedResponse(event, missing.value, now), [])
    ensures var r := PolicyCreation(sv, n, event, now);
      var props := event.properties;
      MissingPolicyField(props).None? ==>
        && r.calls != []
        && r.calls[0] == CreatePolicyCall(Get(props, "PolicyEngineId").value, Get(props, "PolicyName").value,
                                          Get(props, "PolicyStatement").value, PolicyDescription(props))
  {
  }

  /** The statement the previous properties held (`""` when they hold none). */
  function OldStatement(event: Event): string {
    GetOr(event.oldProperties.GetOr([]), "PolicyStatement", "")
  }

  /** The `update_policy` call an update makes when the statement changed. */
  function PolicyUpdateCall(event: Event): Call {
    var props := event.properties;
    UpdatePolicyCall(Get(props, "PolicyEngineId"), event.physicalResourceId.GetOr(""), PolicyDescription(props),
                     Get(props, "PolicyStatement"))
  }

  /** The SUCCESS response of a policy update; a missing engine id or name is reported as `null`. */
  function PolicyUpdatedResponse(event: Event, now: nat): Response {
    var props := event.properties;
    var id := event.physicalResourceId.GetOr("");
    SendResponse(event, "SUCCESS", "Policy updated successfully",
                 [("PolicyId", Str(id)), ("PolicyEngineId", OptValue(Get(props, "PolicyEngineId"))),
                  ("PolicyName", OptValue(Get(props, "PolicyName"))),
                  ("PolicyDescription", Str(PolicyDescription(props))), ("Status", Str("ACTIVE"))],
                 Some(id), now)
  }

  /**
   * `update_policy`: the update API is called exactly when the statement differs from the old
   * one, and a successful update reports the physical id it was given.
   */
  function PolicyUpdate(sv: Service, n: nat, event: Event, now: nat): Run
  {
    var props := event.properties;
    var id := event.physicalResourceId.GetOr("");
    var success := PolicyUpdatedResponse(event, now);
    if Get(props, "PolicyStatement") == Some(OldStatement(event)) then Run(success, [])
    else
      match sv.respond(n, PolicyUpdateCall(event))
      case Threw(_, m) => Run(FailedResponse(event, m, now), [PolicyUpdateCall(event)])
      case Returned(_) => Run(success, [PolicyUpdateCall(event)])
  }

  /** What `PolicyUpdate` promises of every run. */
  lemma PolicyUpdateOutcome(sv: Service, n: nat, event: Event, now: nat)
    ensures var r := PolicyUpdate(sv, n, event, now);
      Answers(r.response, event)
    ensures var r := PolicyUpdate(sv, n, event, now);
      var changed := Get(event.properties, "PolicyStatement") != Some(OldStatement(event));
      r.calls == if changed then [PolicyUpdateCall(event)] else []
    ensures var r := PolicyUpdate(sv, n, event, now);
      var changed := Get(event.properties, "PolicyStatement") != Some(OldStatement(event));
      var reply := sv.respond(n, PolicyUpdateCall(event));
      r.response.status == "SUCCESS" <==> !changed || reply.Returned?
    ensures var r := PolicyUpdate(sv, n, event, now);
      r.response.status == "SUCCESS" ==>
      r.response.physicalResourceId == ResponseId(event, Some(event.physicalResourceId.GetOr("")), now)
    ensures var r := PolicyUpdate(sv, n, event, now);
      r.response.status != "SUCCESS" ==>
      r.response == FailedResponse(event, sv.respond(n, PolicyUpdateCall(event)).message, now)
  {
  }

  function PolicyDeletedResponse(event: Event, id: string, now: nat): Response {
    SendResponse(event, "SUCCESS", "Policy deleted successfully", [], Some(id), now)
  }

  /** `delete_policy`: delete, wait until gone; never fails, and needs both ids to call. */
  function PolicyDeletion(sv: Service, n: nat, event: Event, now: nat): Run
  {
    var id := event.physicalResourceId.GetOr("");
    var engineId := Get(event.properties, "PolicyEngineId");
    if id == "" || Blank(engineId) then
      Run(PolicyDeletedResponse(event, id, now), [])
    else
      var call := DeletePolicyCall(engineId.value, id);
      match sv.respond(n, call)
      case Threw(_, m) => Run(WarnedDelete(event, m, now), [call])
      case Returned(_) =>
        var w := AwaitOutcome(sv.respond, n + 1, GetPolicyCall(engineId.value, id), DeletedStep, sv.rounds,
                              PolicyDeletedTimeout);
        var calls := [call] + Repeat(GetPolicyCall(engineId.value, id), w.1);
        if w.0.Raised? then Run(WarnedDelete(event, w.0.message, now), calls)
        else Run(PolicyDeletedResponse(event, id, now), calls)
  }

  /** Deleting a policy always reports success; without both ids it makes no call, otherwise it starts with `delete_policy`. */
  lemma PolicyDeletionSucceeds(sv: Service, n: nat, event: Event, now: nat)
    ensures var r := PolicyDeletion(sv, n, event, now);
      Answers(r.response, event) && r.response.status == "SUCCESS"
    ensures var r := PolicyDeletion(sv, n, event, now);
      event.physicalResourceId.GetOr("") == "" || Blank(Get(event.properties, "PolicyEngineId")) <==> r.calls == []
    ensures var r := PolicyDeletion(sv, n, event, now);
      r.calls != [] ==>
      r.calls[0] == DeletePolicyCall(Get(event.properties, "PolicyEngineId").value, event.physicalResourceId.GetOr(""))
  {
  }

  // Gateway association

  /** The gateway fields copied into `update_gateway`, in the order the handler lists them. */
  const CopiedGatewayFields: seq<string> :=
    ["name", "roleArn", "protocolType", "protocolConfiguration", "authorizerType", "authorizerConfiguration"]

  /** `[d.get(k) for k in keys]`. */
  function Pick(d: Dict<string>, keys: seq<string>): (r: seq<Option<string>>)
    ensures |r| == |keys| && forall i :: 0 <= i < |keys| ==> r[i] == Get(d, keys[i])
  {
    if keys == [] then [] else [Get(d, keys[0])] + Pick(d, keys[1..])
  }

  /** The association's physical id: `<PolicyEngineId>-association` (`None-association` without one). */
  function AssociationId(props: Dict<string>): string {
    OptText(Get(props, "PolicyEngineId")) + "-association"
  }

  /** The `update_gateway` arguments for a gateway as `get_gateway` returned it. */
  function GatewayUpdateFor(gatewayId: string, gateway: Dict<string>, props: Dict<string>): (u: GatewayUpdate)
    ensures u.gatewayIdentifier == gatewayId && u.policyEngineArn == Get(props, "PolicyEngineArn")
    ensures u.mode == GetOr(props, "PolicyEngineConfigurationMode", "LOG_ONLY")
    ensures |u.copied| == |CopiedGatewayFields|
    ensures forall i :: 0 <= i < |CopiedGatewayFields| ==> u.copied[i] == Get(gateway, CopiedGatewayFields[i])
    ensures u.interceptorConfigurations == Get(gateway, "interceptorConfigurations")
  {
    GatewayUpdate(gatewayId, Pick(gateway, CopiedGatewayFields), Get(props, "PolicyEngineArn"),
                  GetOr(props, "PolicyEngineConfigurationMode", "LOG_ONLY"), Get(gateway, "interceptorConfigurations"))
  }

  const AssociationError := "Error associating policy engine with gateway: "

  function AssociationSuccess(event: Event, now: nat): Response {
    SendResponse(event, "SUCCESS", "Policy engine associated with gateway successfully", [],
                 Some(AssociationId(event.properties)), now)
  }

  function AssociationDeleted(event: Event, now: nat): Response {
    SendResponse(event, "SUCCESS", "Policy engine gateway association deleted", [], Some(AssociationId(event.properties)), now)
  }

  /** Attaching the engine to a named gateway: read the gateway back, write it with the engine attached. */
  function GatewayAttachment(sv: Service, n: nat, event: Event, gatewayId: string, now: nat): Run
  {
    match sv.respond(n, GetGatewayCall(gatewayId))
    case Threw(_, m) => Run(FailedResponse(event, AssociationError + m, now), [GetGatewayCall(gatewayId)])
    case Returned(gateway) =>
      var update := UpdateGatewayCall(GatewayUpdateFor(gatewayId, gateway, event.properties));
      match sv.respond(n + 1, update)
      case Threw(_, m) => Run(FailedResponse(event, AssociationError + m, now), [GetGatewayCall(gatewayId), update])
      case Returned(_) => Run(AssociationSuccess(event, now), [GetGatewayCall(gatewayId), update])
  }

  /** What `GatewayAttachment` promises of every run. */
  lemma GatewayAttachmentOutcome(sv: Service, n: nat, event: Event, gatewayId: string, now: nat)
    ensures var r := GatewayAttachment(sv, n, event, gatewayId, now);
      Answers(r.response, event)
    ensures var r := GatewayAttachment(sv, n, event, gatewayId, now);
      r.calls != [] && r.calls[0] == GetGatewayCall(gatewayId) && |r.calls| <= 2
    ensures var r := GatewayAttachment(sv, n, event, gatewayId, now);
      r.response.status == "SUCCESS" <==> |r.calls| == 2 && sv.respond(n + 1, r.calls[1]).Returned?
    ensures var r := GatewayAttachment(sv, n, event, gatewayId, now);
      r.response.status == "SUCCESS" ==> r.response == AssociationSuccess(event, now)
    ensures var r := GatewayAttachment(sv, n, event, gatewayId, now);
      r.response.status != "SUCCESS" ==> AssociationError <= r.response.reason
  {
  }

  /**
   * `handle_policy_engine_gateway_association`: Delete makes no call; Create and Update attach
   * the engine to the gateway `GatewayId` names, or make no call without one; any other request
   * type raises.
   */
  function Association(sv: Service, n: nat, event: Event, now: nat): Result<Run>
  {
    if event.requestType == "Delete" then
      Ok(Run(AssociationDeleted(event, now), []))
    else if event.requestType == "Create" || event.requestType == "Update" then
      var gatewayId := Get(event.properties, "GatewayId");
      if Blank(gatewayId) then Ok(Run(AssociationSuccess(event, now), []))
      else Ok(GatewayAttachment(sv, n, event, gatewayId.value, now))
    else Raised("Unknown request type: " + event.requestType)
  }

  /** What `Association` promises of every run. */
  lemma AssociationOutcome(sv: Service, n: nat, event: Event, now: nat)
    ensures var r := Association(sv, n, event, now);
      r.Raised? <==> event.requestType !in {"Create", "Update", "Delete"}
    ensures var r := Association(sv, n, event, now);
      r.Raised? ==> r.message == "Unknown request type: " + event.requestType
    ensures var r := Association(sv, n, event, now);
      r.Ok? ==> Answers(r.value.response, event)
    ensures var r := Association(sv, n, event, now);
      event.requestType == "Delete" ==>
      r == Ok(Run(AssociationDeleted(event, now), []))
    ensures var r := Association(sv, n, event, now);
      event.requestType in {"Create", "Update"} && Blank(Get(event.properties, "GatewayId")) ==>
      r == Ok(Run(AssociationSuccess(event, now), []))
  {
    var gatewayId := Get(event.properties, "GatewayId");
    if event.requestType == "Delete" {
      assert Association(sv, n, event, now) == Ok(Run(AssociationDeleted(event, now), []));
    } else if event.requestType == "Create" || event.requestType == "Update" {
      if Blank(gatewayId) {
        assert Association(sv, n, event, now) == Ok(Run(AssociationSuccess(event, now), []));
      } else {
        GatewayAttachmentOutcome(sv, n, event, gatewayId.value, now);
        assert Association(sv, n, event, now) == Ok(GatewayAttachment(sv, n, event, gatewayId.value, now));
      }
    } else {
      assert Association(sv, n, event, now) == Raised("Unknown request type: " + event.requestType);
    }
  }

  // Dispatch

  /** `handle_policy_engine`. */
  function EngineDispatch(sv: Service, n: nat, event: Event, now: nat): Result<Run>
  {
    if event.requestType == "Create" then Ok(EngineCreation(sv, n, event, now))
    else if event.requestType == "Update" then Ok(EngineUpdate(sv, n, event, now))
    else if event.requestType == "Delete" then Ok(EngineDeletion(sv, n, event, now))
    else Raised("Unknown request type: " + event.requestType)
  }

  /** What `EngineDispatch` promises of every run. */
  lemma EngineDispatchOutcome(sv: Service, n: nat, event: Event, now: nat)
    ensures var r := EngineDispatch(sv, n, event, now);
      r.Raised? <==> event.requestType !in {"Create", "Update", "Delete"}
    ensures var r := EngineDispatch(sv, n, event, now);
      r.Raised? ==> r.message == "Unknown request type: " + event.requestType
    ensures var r := EngineDispatch(sv, n, event, now);
      r.Ok? ==> Answers(r.value.response, event)
  {
    if event.requestType == "Create" {
      EngineCreationOutcome(sv, n, event, now);
    } else if event.requestType == "Update" {
      EngineUpdateOutcome(sv, n, event, now);
    } else if event.requestType == "Delete" {
      EngineDeletionSucceeds(sv, n, event, now);
    }
  }

  /** `handle_policy`. */
  function PolicyDispatch(sv: Service, n: nat, event: Event, now: nat): Result<Run>
  {
    if event.requestType == "Create" then Ok(PolicyCreation(sv, n, event, now))
    else if event.requestType == "Update" then Ok(PolicyUpdate(sv, n, event, now))
    else if event.requestType == "Delete" then Ok(PolicyDeletion(sv, n, event, now))
    else Raised("Unknown request type: " + event.requestType)
  }

  /** What `PolicyDispatch` promises of every run. */
  lemma PolicyDispatchOutcome(sv: Service, n: nat, event: Event, now: nat)
    ensures var r := PolicyDispatch(sv, n, event, now);
      r.Raised? <==> event.requestType !in {"Create", "Update", "Delete"}
    ensures var r := PolicyDispatch(sv, n, event, now);
      r.Raised? ==> r.message == "Unknown request type: " + event.requestType
    ensures var r := PolicyDispatch(sv, n, event, now);
      r.Ok? ==> Answers(r.value.response, event)
  {
    if event.requestType == "Create" {
      PolicyCreationOutcome(sv, n, event, now);
    } else if event.requestType == "Update" {
      PolicyUpdateOutcome(sv, n, event, now);
    } else if event.requestType == "Delete" {
      PolicyDeletionSucceeds(sv, n, event, now);
    }
  }

  /** The resource type an event names: `ResourceType`, by default `PolicyEngine`. */
  function ResourceType(event: Event): string {
    GetOr(event.properties, "ResourceType", "PolicyEngine")
  }

  const KnownResourceTypes := {"PolicyEngine", "Policy", "PolicyEngineGatewayAssociation"}

  /** `lambda_handler`: dispatch on the resource type; a raised error becomes a FAILED response. */
  function Handled(sv: Service, n: nat, event: Event, now: nat): Run
  {
    var resourceType := ResourceType(event);
    var handled :=
      if resourceType == "PolicyEngine" then EngineDispatch(sv, n, event, now)
      else if resourceType == "Policy" then PolicyDispatch(sv, n, event, now)
      else if resourceType == "PolicyEngineGatewayAssociation" then Association(sv, n, event, now)
      else Raised("Unknown resource type: " + resourceType);
    match handled
    case Ok(run) => run
    case Raised(m) => Run(FailedResponse(event, m, now), [])
  }

  /**
   * An unknown resource type or request type makes no call and ends in a FAILED response whose
   * reason is the error; a Delete of any known resource type reports SUCCESS; and every
   * response answers the event.
   */
  lemma HandlerOutcomes(sv: Service, n: nat, event: Event, now: nat)
    ensures Answers(Handled(sv, n, event, now).response, event)
    ensures ResourceType(event) !in KnownResourceTypes ==>
      Handled(sv, n, event, now) == Run(FailedResponse(event, "Unknown resource type: " + ResourceType(event), now), [])
    ensures ResourceType(event) in KnownResourceTypes && event.requestType !in {"Create", "Update", "Delete"} ==>
      Handled(sv, n, event, now) == Run(FailedResponse(event, "Unknown request type: " + event.requestType, now), [])
    ensures ResourceType(event) in KnownResourceTypes && event.requestType == "Delete" ==>
      Handled(sv, n, event, now).response.status == "SUCCESS"
  {
    var resourceType := ResourceType(event);
    if resourceType == "PolicyEngine" {
      EngineDispatchOutcome(sv, n, event, now);
      if event.requestType == "Delete" {
        EngineDeletionSucceeds(sv, n, event, now);
      }
    } else if resourceType == "Policy" {
      PolicyDispatchOutcome(sv, n, event, now);
      if event.requestType == "Delete" {
        PolicyDeletionSucceeds(sv, n, event, now);
      }
    } else if resourceType == "PolicyEngineGatewayAssociation" {
      AssociationOutcome(sv, n, event, now);
    }
  }

  // ---------------------------------------------------------------------------
  // The handler, call by call
  // ---------------------------------------------------------------------------

  class ControlPlane {
    /** The calls made so far, oldest first. */
    var log: seq<Call>
    /** The service the calls go to. */
    const service: Service

    constructor (service: Service)
      ensures log == [] && this.service == service
    {
      log := [];
      this.service := service;
    }

    /** Makes one call: it is logged and the service answers it. */
    method Send(c: Call) returns (reply: Reply)
      modifies this
      ensures log == old(log) + [c]
      ensures reply == service.respond(|old(log)|, c)
    {
      reply := service.respond(|log|, c);
      log := log + [c];
    }

    /** One poll of a waiter: sends `c` and classifies the reply. */
    method Poll(c: Call, classify: Reply -> Step) returns (step: Step)
      modifies this
      ensures log == old(log) + [c]
      ensures step == StepAt(service.respond, c, classify, |old(log)|)
    {
      var reply := Send(c);
      step := classify(reply);
    }

    /**
     * A `wait_for_*` loop: polls with `c` while time remains, until `classify` settles the
     * outcome; raises `timeout` when no poll settles it.
     */
    method Await(c: Call, classify: Reply -> Step, timeout: string) returns (r: Result<()>)
      modifies this
      ensures var w := AwaitOutcome(service.respond, |old(log)|, c, classify, service.rounds, timeout);
        r == w.0 && log == old(log) + Repeat(c, w.1)
    {
      ghost var start, pre := |log|, log;
      var respond, left: nat := service.respond, service.rounds;
      var done: nat := 0;
      while left > 0
        invariant done + left == service.rounds
        invariant log == pre + Repeat(c, done)
        invariant Resumes(respond, start, c, classify, timeout, done, left)
      {
        var step := Poll(c, classify);
        AppendAssoc(pre, Repeat(c, done), [c]);
        if !step.Pending? {
          AwaitSettled(respond, start, c, classify, timeout, done, left);
          return if step.Done? then Ok(()) else Raised(step.message);
        }
        AwaitPending(respond, start, c, classify, timeout, done, left);
        left, done := left - 1, done + 1;
      }
      r := Raised(timeout);
    }
  }

  /** The log after a call and then a waiter's polls, regrouped as the specification writes it. */
  lemma SendThenPoll(pre: seq<Call>, call: Call, sv: Service, c: Call, classify: Reply -> Step, timeout: string)
    ensures var polls := Repeat(c, AwaitOutcome(sv.respond, |pre| + 1, c, classify, sv.rounds, timeout).1);
      (pre + [call]) + polls == pre + ([call] + polls)
  {
    AppendAssoc(pre, [call], Repeat(c, AwaitOutcome(sv.respond, |pre| + 1, c, classify, sv.rounds, timeout).1));
  }

  method CreatePolicyEngine(cp: ControlPlane, event: Event, now: nat) returns (r: Response)
    modifies cp
    ensures var run := EngineCreation(cp.service, |old(cp.log)|, event, now);
      r == run.response && cp.log == old(cp.log) + run.calls
  {
    var call := CreateEngineCall(EngineName(event.properties), EngineDescription(event.properties));
    var reply := cp.Send(call);
    var created := EngineCreated(reply);
    if created.Raised? {
      return FailedResponse(event, created.message, now);
    }
    var (id, arn) := created.value;
    SendThenPoll(old(cp.log), call, cp.service, GetEngineCall(id), EngineActiveStep, EngineActiveTimeout);
    var waited := cp.Await(GetEngineCall(id), EngineActiveStep, EngineActiveTimeout);
    if waited.Raised? {
      return FailedResponse(event, waited.message, now);
    }
    r := EngineCreatedResponse(event, id, arn, now);
  }

  /** The recreation branch of `update_policy_engine`. */
  method RecreatePolicyEngine(cp: ControlPlane, event: Event, now: nat) returns (r: Response)
    modifies cp
    ensures var run := EngineRecreation(cp.service, |old(cp.log)|, event, now);
      r == run.response && cp.log == old(cp.log) + run.calls
  {
    var name := RecreatedName(event.properties);
    var call := CreateEngineCall(name, "Policy Engine: " + name);
    var created := cp.Send(call);
    if created.Threw? {
      return FailedResponse(event, created.message, now);
    }
    var newId := Index(created.body, "policyEngineId");
    if newId.Raised? {
      return FailedResponse(event, newId.message, now);
    }
    SendThenPoll(old(cp.log), call, cp.service, GetEngineCall(newId.value), EngineActiveStep, EngineActiveTimeout);
    var waited := cp.Await(GetEngineCall(newId.value), EngineActiveStep, EngineActiveTimeout);
    if waited.Raised? {
      return FailedResponse(event, waited.message, now);
    }
    r := EngineRecreatedResponse(event, newId.value, now);
  }

  /** The branch of `update_policy_engine` for an engine that exists. */
  method UpdateExistingEngine(cp: ControlPlane, event: Event, id: string, status: string, now: nat) returns (r: Response)
    modifies cp
    ensures var run := ExistingEngineUpdate(cp.service, |old(cp.log)|, event, id, status, now);
      r == run.response && cp.log == old(cp.log) + run.calls
  {
    var call := UpdateEngineCall(id, EngineDescription(event.properties));
    var updated := cp.Send(call);
    if updated.Threw? {
      return FailedResponse(event, UpdateFailure + updated.message, now);
    }
    SendThenPoll(old(cp.log), call, cp.service, GetEngineCall(id), EngineActiveStep, EngineActiveTimeout);
    var waited := cp.Await(GetEngineCall(id), EngineActiveStep, EngineActiveTimeout);
    if waited.Raised? {
      return FailedResponse(event, UpdateFailure + waited.message, now);
    }
    r := EngineUpdatedResponse(event, id, GetOr(updated.body, "policyEngineArn", ""), status, now);
  }

  method UpdatePolicyEngine(cp: ControlPlane, event: Event, now: nat) returns (r: Response)
    modifies cp
    ensures var run := EngineUpdate(cp.service, |old(cp.log)|, event, now);
      r == run.response && cp.log == old(cp.log) + run.calls
  {
    ghost var n := |cp.log|;
    var id := event.physicalResourceId.GetOr("");
    var found := cp.Send(GetEngineCall(id));
    if found.Returned? {
      var status := GetOr(found.body, "status", "UNKNOWN");
      ghost var rest := ExistingEngineUpdate(cp.service, n + 1, event, id, status, now);
      assert EngineUpdate(cp.service, n, event, now) == After(GetEngineCall(id), rest);
      r := UpdateExistingEngine(cp, event, id, status, now);
      AppendAssoc(old(cp.log), [GetEngineCall(id)], rest.calls);
    } else if found.fault == NotFound {
      ghost var rest := EngineRecreation(cp.service, n + 1, event, now);
      assert EngineUpdate(cp.service, n, event, now) == After(GetEngineCall(id), rest);
      r := RecreatePolicyEngine(cp, event, now);
      AppendAssoc(old(cp.log), [GetEngineCall(id)], rest.calls);
    } else {
      r := FailedResponse(event, found.message, now);
    }
  }

  method DeletePolicyEngine(cp: ControlPlane, event: Event, now: nat) returns (r: Response)
    modifies cp
    ensures var run := EngineDeletion(cp.service, |old(cp.log)|, event, now);
      r == run.response && cp.log == old(cp.log) + run.calls
  {
    var id := event.physicalResourceId.GetOr("");
    if id != "" {
      var deleted := cp.Send(DeleteEngineCall(id));
      if deleted.Threw? {
        return WarnedDelete(event, deleted.message, now);
      }
      SendThenPoll(old(cp.log), DeleteEngineCall(id), cp.service, GetEngineCall(id), DeletedStep, EngineDeletedTimeout);
      var waited := cp.Await(GetEngineCall(id), DeletedStep, EngineDeletedTimeout);
      if waited.Raised? {
        return WarnedDelete(event, waited.message, now);
      }
    }
    r := EngineDeletedResponse(event, id, now);
  }

  method CreatePolicy(cp: ControlPlane, event: Event, now: nat) returns (r: Response)
    modifies cp
    ensures var run := PolicyCreation(cp.service, |old(cp.log)|, event, now);
      r == run.response && cp.log == old(cp.log) + run.calls
  {
    var props := event.properties;
    var missing := MissingPolicyField(props);
    if missing.Some? {
      return FailedResponse(event, missing.value, now);
    }
    var engineId, name := Get(props, "PolicyEngineId").value, Get(props, "PolicyName").value;
    var description := PolicyDescription(props);
    var call := CreatePolicyCall(engineId, name, Get(props, "PolicyStatement").value, description);
    var created := cp.Send(call);
    if created.Threw? {
      return FailedResponse(event, created.message, now);
    }
    var policyId := Index(created.body, "policyId");
    if policyId.Raised? {
      return FailedResponse(event, policyId.message, now);
    }
    SendThenPoll(old(cp.log), call, cp.service, GetPolicyCall(engineId, policyId.value), PolicyActiveStep, PolicyActiveTimeout);
    var waited := cp.Await(GetPolicyCall(engineId, policyId.value), PolicyActiveStep, PolicyActiveTimeout);
    if waited.Raised? {
      return FailedResponse(event, waited.message, now);
    }
    r := PolicyCreatedResponse(event, policyId.value, engineId, name, description, now);
  }

  method UpdatePolicy(cp: ControlPlane, event: Event, now: nat) returns (r: Response)
    modifies cp
    ensures var run := PolicyUpdate(cp.service, |old(cp.log)|, event, now);
      r == run.response && cp.log == old(cp.log) + run.calls
  {
    var props := event.properties;
    var id := event.physicalResourceId.GetOr("");
    if Get(props, "PolicyStatement") != Some(OldStatement(event)) {
      var updated := cp.Send(PolicyUpdateCall(event));
      if updated.Threw? {
        return FailedResponse(event, updated.message, now);
      }
    }
    r := PolicyUpdatedResponse(event, now);
  }

  method DeletePolicy(cp: ControlPlane, event: Event, now: nat) returns (r: Response)
    modifies cp
    ensures var run := PolicyDeletion(cp.service, |old(cp.log)|, event, now);
      r == run.response && cp.log == old(cp.log) + run.calls
  {
    var id := event.physicalResourceId.GetOr("");
    var engineId := Get(event.properties, "PolicyEngineId");
    if id != "" && !Blank(engineId) {
      var call := DeletePolicyCall(engineId.value, id);
      var deleted := cp.Send(call);
      if deleted.Threw? {
        return WarnedDelete(event, deleted.message, now);
      }
      SendThenPoll(old(cp.log), call, cp.service, GetPolicyCall(engineId.value, id), DeletedStep, PolicyDeletedTimeout);
      var waited := cp.Await(GetPolicyCall(engineId.value, id), DeletedStep, PolicyDeletedTimeout);
      if waited.Raised? {
        return WarnedDelete(event, waited.message, now);
      }
    }
    r := PolicyDeletedResponse(event, id, now);
  }

  /** Attaching the engine to the gateway `gatewayId` names: `get_gateway`, then `update_gateway`. */
  method AttachToGateway(cp: ControlPlane, event: Event, gatewayId: string, now: nat) returns (r: Response)
    modifies cp
    ensures var run := GatewayAttachment(cp.service, |old(cp.log)|, event, gatewayId, now);
      r == run.response && cp.log == old(cp.log) + run.calls
  {
    var got := cp.Send(GetGatewayCall(gatewayId));
    if got.Threw? {
      return FailedResponse(event, AssociationError + got.message, now);
    }
    var update := UpdateGatewayCall(GatewayUpdateFor(gatewayId, got.body, event.properties));
    var updated := cp.Send(update);
    AppendAssoc(old(cp.log), [GetGatewayCall(gatewayId)], [update]);
    if updated.Threw? {
      return FailedResponse(event, AssociationError + updated.message, now);
    }
    r := AssociationSuccess(event, now);
  }

  method HandleAssociation(cp: ControlPlane, event: Event, now: nat) returns (r: Result<Response>)
    modifies cp
    ensures var run := Association(cp.service, |old(cp.log)|, event, now);
      && (run.Raised? ==> r == Raised(run.message) && cp.log == old(cp.log))
      && (run.Ok? ==> r == Ok(run.value.response) && cp.log == old(cp.log) + run.value.calls)
  {
    if event.requestType == "Delete" {
      r := Ok(AssociationDeleted(event, now));
    } else if event.requestType == "Create" || event.requestType == "Update" {
      var gatewayId := Get(event.properties, "GatewayId");
      if Blank(gatewayId) {
        r := Ok(AssociationSuccess(event, now));
      } else {
        var response := AttachToGateway(cp, event, gatewayId.value, now);
        r := Ok(response);
      }
    } else {
      r := Raised("Unknown request type: " + event.requestType);
    }
  }

  method HandlePolicyEngine(cp: ControlPlane, event: Event, now: nat) returns (r: Result<Response>)
    modifies cp
    ensures var run := EngineDispatch(cp.service, |old(cp.log)|, event, now);
      && (run.Raised? ==> r == Raised(run.message) && cp.log == old(cp.log))
      && (run.Ok? ==> r == Ok(run.value.response) && cp.log == old(cp.log) + run.value.calls)
  {
    if event.requestType == "Create" {
      var response := CreatePolicyEngine(cp, event, now);
      r := Ok(response);
    } else if event.requestType == "Update" {
      var response := UpdatePolicyEngine(cp, event, now);
      r := Ok(response);
    } else if event.requestType == "Delete" {
      var response := DeletePolicyEngine(cp, event, now);
      r := Ok(response);
    } else {
      r := Raised("Unknown request type: " + event.requestType);
    }
  }

  method HandlePolicy(cp: ControlPlane, event: Event, now: nat) returns (r: Result<Response>)
    modifies cp
    ensures var run := PolicyDispatch(cp.service, |old(cp.log)|, event, now);
      && (run.Raised? ==> r == Raised(run.message) && cp.log == old(cp.log))
      && (run.Ok? ==> r == Ok(run.value.response) && cp.log == old(cp.log) + run.value.calls)
  {
    if event.requestType == "Create" {
      var response := CreatePolicy(cp, event, now);
      r := Ok(response);
    } else if event.requestType == "Update" {
      var response := UpdatePolicy(cp, event, now);
      r := Ok(response);
    } else if event.requestType == "Delete" {
      var response := DeletePolicy(cp, event, now);
      r := Ok(response);
    } else {
      r := Raised("Unknown request type: " + event.requestType);
    }
  }

  /** `lambda_handler`, making its calls on `cp`. */
  method LambdaHandler(cp: ControlPlane, event: Event, now: nat) returns (r: Response)
    modifies cp
    ensures var run := Handled(cp.service, |old(cp.log)|, event, now);
      r == run.response && cp.log == old(cp.log) + run.calls
  {
    var resourceType := ResourceType(event);
    var handled: Result<Response>;
    if resourceType == "PolicyEngine" {
      handled := HandlePolicyEngine(cp, event, now);
    } else if resourceType == "Policy" {
      handled := HandlePolicy(cp, event, now);
    } else if resourceType == "PolicyEngineGatewayAssociation" {
      handled := HandleAssociation(cp, event, now);
    } else {
      handled := Raised("Unknown resource type: " + resourceType);
    }
    r := match handled
      case Ok(response) => response
      case Raised(m) => FailedResponse(event, m, now);
  }
}
