/**
 * The policy-engine helpers of the Cedar policy generator script: recording a created engine in
 * `gateway_config.json`, waiting for an engine to become ACTIVE, and the results of the create
 * and list calls. The control-plane client is an oracle; time is counted in polls.
 */
module PolicyGenerator {
  import opened Wrappers
  import opened PyDict
  import opened Json
  import opened JsonText

  const IdKey := "policy_engine_id"
  const ArnKey := "policy_engine_arn"

  /** `gateway_config.json` in the working directory: absent, not readable as JSON, or a JSON document. */
  datatype ConfigFile = Missing | Unreadable | Document(content: Value)

  /** `config[key] = v` when `config.get(key) != v`; otherwise the config as it was. */
  function WithValue(fields: Dict<Value>, key: string, v: Value): Dict<Value> {
    if Get(fields, key) != Some(v) then Put(fields, key, v) else fields
  }

  /** The config after both conditional assignments. */
  function Merged(fields: Dict<Value>, id: Value, arn: Value): Dict<Value> {
    WithValue(WithValue(fields, IdKey, id), ArnKey, arn)
  }

  /** At least one of the two values differs from what the config holds: `updates_made` is non-empty. */
  predicate Differs(fields: Dict<Value>, id: Value, arn: Value) {
    Get(fields, IdKey) != Some(id) || Get(fields, ArnKey) != Some(arn)
  }

  /** The file is rewritten: it holds a JSON object and one of the two values differs. */
  predicate Written(file: ConfigFile, id: Value, arn: Value) {
    file.Document? && file.content.Obj? && Differs(file.content.fields, id, arn)
  }

  /** The file after a save; a missing or unreadable file, or one not holding an object, is left alone. */
  function Saved(file: ConfigFile, id: Value, arn: Value): ConfigFile {
    if Written(file, id, arn) then Document(Obj(Merged(file.content.fields, id, arn))) else file
  }

  /** The working directory's `gateway_config.json`, with how often it was written. */
  class Workspace {
    var config: ConfigFile
    var writes: nat

    constructor(config: ConfigFile)
      ensures this.config == config && writes == 0
    {
      this.config := config;
      writes := 0;
    }

    /**
     * `_save_policy_engine_to_config`: a missing file is skipped; a failure to read the file or to
     * assign into what it holds is swallowed; the file is written only when a value changed.
     */
    method SaveToConfig(id: Value, arn: Value)
      modifies this
      ensures config == Saved(old(config), id, arn)
      ensures writes == old(writes) + if Written(old(config), id, arn) then 1 else 0
    {
      if !config.Document? {
        return;
      }
      if !config.content.Obj? {
        return;
      }
      var fields := config.content.fields;
      var updates: seq<string> := [];
      if !HasKey(fields, IdKey) || Get(fields, IdKey) != Some(id) {
        fields := Put(fields, IdKey, id);
        updates := updates + [IdKey + ": " + PyStr(id)];
      }
      if !HasKey(fields, ArnKey) || Get(fields, ArnKey) != Some(arn) {
        fields := Put(fields, ArnKey, arn);
        updates := updates + [ArnKey + ": " + PyStr(arn)];
      }
      if updates != [] {
        config := Document(Obj(fields));
        writes := writes + 1;
      }
    }
  }

  // Properties of the merge

  /** After the merge the config holds both given values. */
  lemma MergedSetsKeys(fields: Dict<Value>, id: Value, arn: Value)
    ensures Get(Merged(fields, id, arn), IdKey) == Some(id)
    ensures Get(Merged(fields, id, arn), ArnKey) == Some(arn)
  {
  }

  /** Every other key keeps its value. */
  lemma MergedKeepsOthers(fields: Dict<Value>, id: Value, arn: Value, k: string)
    requires k != IdKey && k != ArnKey
    ensures Get(Merged(fields, id, arn), k) == Get(fields, k)
  {
  }

  /** The conditional assignments amount to assigning both keys outright, entry order included. */
  lemma MergedIsAssignment(fields: Dict<Value>, id: Value, arn: Value)
    ensures Merged(fields, id, arn) == Put(Put(fields, IdKey, id), ArnKey, arn)
  {
    var first := WithValue(fields, IdKey, id);
    if Get(fields, IdKey) == Some(id) {
      PutSame(fields, IdKey, id);
    }
    assert first == Put(fields, IdKey, id);
    if Get(first, ArnKey) == Some(arn) {
      PutSame(first, ArnKey, arn);
    }
  }

  /** The file is written exactly when the save changes it. */
  lemma WrittenIffChanged(file: ConfigFile, id: Value, arn: Value)
    ensures Written(file, id, arn) <==> Saved(file, id, arn) != file
  {
    if Written(file, id, arn) {
      var fields := file.content.fields;
      MergedSetsKeys(fields, id, arn);
      if Get(fields, IdKey) != Some(id) {
        assert Get(Merged(fields, id, arn), IdKey) != Get(fields, IdKey);
      } else {
        assert Get(Merged(fields, id, arn), ArnKey) != Get(fields, ArnKey);
      }
    }
  }

  /** Saving the same engine twice writes once at most: the second save finds nothing to change. */
  lemma SaveIdempotent(file: ConfigFile, id: Value, arn: Value)
    ensures !Written(Saved(file, id, arn), id, arn)
    ensures Saved(Saved(file, id, arn), id, arn) == Saved(file, id, arn)
  {
    if Written(file, id, arn) {
      MergedSetsKeys(file.content.fields, id, arn);
    }
  }

  // wait_for_policy_engine_active

  /** What one poll says: the engine is active, has failed, or has to be asked again. */
  datatype Verdict = Active | FailedState | Pending

  const FailedStatuses := [Str("CREATE_FAILED"), Str("UPDATE_FAILED"), Str("DELETE_FAILED")]

  /**
   * The verdict of one `get_policy_engine` answer: `None` (a ClientError) and an empty reply are
   * both falsy and mean "ask again", as does any status that is neither ACTIVE nor failed.
   */
  function VerdictOf(engine: Option<Dict<Value>>): Verdict {
    if engine.None? || engine.value == [] then Pending
    else
      var status := Get(engine.value, "status");
      if status == Some(Str("ACTIVE")) then Active
      else if status.Some? && status.value in FailedStatuses then FailedState
      else Pending
  }

  /**
   * The polling loop; `getEngine(k)` is the answer to the `k`-th poll (from 0) and `rounds` the
   * number of polls that fit in the timeout. The first poll that settles decides; if none does,
   * the wait fails after every poll was spent.
   */
  method WaitForActive(getEngine: nat -> Option<Dict<Value>>, rounds: nat) returns (active: bool, polls: nat)
    ensures polls <= rounds && (rounds > 0 ==> polls > 0)
    ensures forall k :: 0 <= k < polls - 1 ==> VerdictOf(getEngine(k)) == Pending
    ensures polls < rounds ==> VerdictOf(getEngine(polls - 1)) != Pending
    ensures active <==> polls > 0 && VerdictOf(getEngine(polls - 1)) == Active
  {
    polls := 0;
    while polls < rounds
      invariant polls <= rounds
      invariant forall k :: 0 <= k < polls ==> VerdictOf(getEngine(k)) == Pending
    {
      polls := polls + 1;
      var engine := getEngine(polls - 1);
      if engine.None? || engine.value == [] {
        continue;
      }
      var status := Get(engine.value, "status");
      if status == Some(Str("ACTIVE")) {
        return true, polls;
      }
      if status.Some? && status.value in FailedStatuses {
        return false, polls;
      }
    }
    active := false;
  }

  // create_policy_engine and list_policy_engines

  /** What `create_policy_engine` gives back: the response, or a ClientError. */
  datatype CreateReply = Created(response: Dict<Value>) | CreateFailed

  /**
   * `create_policy_engine`: a ClientError gives None; a response without an id raises KeyError;
   * otherwise the id, after saving the engine to the config when the response carries an ARN.
   */
  method CreatePolicyEngine(name: string, create: string -> CreateReply, workspace: Workspace)
    returns (r: Result<Option<Value>>)
    modifies workspace
    ensures create(name).CreateFailed? ==> r == Ok(None) && unchanged(workspace)
    ensures create(name).Created? && !HasKey(create(name).response, "policyEngineId") ==>
      r == Raised(KeyErrorMessage("policyEngineId")) && unchanged(workspace)
    ensures create(name).Created? && HasKey(create(name).response, "policyEngineId") ==>
      var response := create(name).response;
      var id, arn := Get(response, "policyEngineId").value, Get(response, "policyEngineArn");
      && r == Ok(Some(id))
      && (arn.Some? && Truthy(arn.value) ==>
            workspace.config == Saved(old(workspace.config), id, arn.value)
            && workspace.writes == old(workspace.writes) + if Written(old(workspace.config), id, arn.value) then 1 else 0)
      && (!(arn.Some? && Truthy(arn.value)) ==> unchanged(workspace))
  {
    var reply := create(name);
    if reply.CreateFailed? {
      return Ok(None);
    }
    var id := Get(reply.response, "policyEngineId");
    if id.None? {
      return Raised(KeyErrorMessage("policyEngineId"));
    }
    var arn := Get(reply.response, "policyEngineArn");
    if arn.Some? && Truthy(arn.value) {
      workspace.SaveToConfig(id.value, arn.value);
    }
    r := Ok(Some(id.value));
  }

  /** The message of the TypeError `len` raises on a value that has no length. */
  function NoLen(v: Value): string {
    "object of type '" + TypeName(v) + "' has no len()"
  }

  /**
   * `list_policy_engines`: the `policyEngines` entry, `[]` when absent or on a ClientError (`None`).
   * The entry's `len` is taken for the log line, so an entry without a length (null, a boolean or
   * a number) raises TypeError, which `except ClientError` does not catch.
   */
  function ListPolicyEngines(reply: Option<Dict<Value>>): (r: Result<Value>)
    ensures reply.None? ==> r == Ok(Arr([]))
    ensures reply.Some? && !HasKey(reply.value, "policyEngines") ==> r == Ok(Arr([]))
    ensures reply.Some? && HasKey(reply.value, "policyEngines") ==>
      var engines := Get(reply.value, "policyEngines").value;
      && (r.Ok? <==> engines.Str? || engines.Arr? || engines.Obj?)
      && (r.Ok? ==> r.value == engines)
      && (r.Raised? ==> r.message == NoLen(engines))
  {
    if reply.None? then Ok(Arr([]))
    else
      var engines := GetOr(reply.value, "policyEngines", Arr([]));
      if engines.Str? || engines.Arr? || engines.Obj? then Ok(engines) else Raised(NoLen(engines))
  }
}
