/**
 * The Cognito pre-token-generation trigger: it tags the user from the e-mail address and
 * writes `email` and `user_tag` into the claim overrides of both the ID token and the access
 * token, creating the nested dictionaries of `event["response"]` that are missing. Every
 * exception is logged and swallowed; the same event object is returned.
 */
module PreToken {
  import opened Wrappers
  import opened PyDict
  import opened Json

  /** The one address that is tagged as an administrator. */
  const AdminEmail := "vscode-admin@example.com"

  /** `custom_tag`: the administrator tag for the configured address, the regular tag for any other value. */
  function UserTag(email: Value): (tag: string)
    ensures tag == "admin_user" <==> email == Str(AdminEmail)
    ensures tag != "admin_user" ==> tag == "regular_user"
  {
    if email == Str(AdminEmail) then "admin_user" else "regular_user"
  }

  /**
   * `event["request"]["userAttributes"].get("email", "")`; None when a step raises (a missing
   * key, a value that cannot be indexed by a string, attributes without `.get`).
   */
  function EmailOf(event: Dict<Value>): Option<Value> {
    match Get<Value>(event, "request")
    case Some(Obj(request)) =>
      (match Get<Value>(request, "userAttributes")
       case Some(Obj(attributes)) => Some(GetOr(attributes, "email", Str("")))
       case _ => None)
    case _ => None
  }

  /**
   * The dictionary found under `key` once a `key not in parent` guard has run: a new `{}` when
   * the key is missing (or holds None, when `noneToo`), the dictionary already there otherwise;
   * None when the code then raises because that value is not a dictionary.
   */
  function Container(parent: Dict<Value>, key: string, noneToo: bool): Option<Dict<Value>> {
    match Get<Value>(parent, key)
    case None => Some([])
    case Some(Null) => if noneToo then Some([]) else None
    case Some(Obj(fields)) => Some(fields)
    case Some(_) => None
  }

  /**
   * A guard without the None case lets the code go on exactly when the value is missing or a
   * dictionary; a guard that also tests `is None` lets None through as well.
   */
  lemma ContainerIff(parent: Dict<Value>, key: string)
    ensures Container(parent, key, false).Some? <==> MissingOrDict(Get(parent, key))
    ensures Container(parent, key, true).Some? <==> MissingOrDict(Get(parent, key)) || Get(parent, key) == Some(Null)
    ensures Get(parent, key) == Some(Null) ==> Container(parent, key, true) == Some([]) && Container(parent, key, false).None?
  {
  }

  /** `claims["user_tag"] = tag` then `claims["email"] = email`, as the ID-token block does. */
  function IdClaimsAdded(claims: Dict<Value>, email: Value, tag: string): (r: Dict<Value>)
    ensures Get(r, "email") == Some(email) && Get(r, "user_tag") == Some(Str(tag))
    ensures forall k :: k != "email" && k != "user_tag" ==> Get(r, k) == Get(claims, k)
  {
    Put(Put(claims, "user_tag", Str(tag)), "email", email)
  }

  /** `claims["email"] = email` then `claims["user_tag"] = tag`, as the access-token block does. */
  function AccessClaimsAdded(claims: Dict<Value>, email: Value, tag: string): (r: Dict<Value>)
    ensures Get(r, "email") == Some(email) && Get(r, "user_tag") == Some(Str(tag))
    ensures forall k :: k != "email" && k != "user_tag" ==> Get(r, k) == Get(claims, k)
  {
    Put(Put(claims, "email", email), "user_tag", Str(tag))
  }

  /** `d[key] = inner` for a dictionary `inner`. */
  function Nest(d: Dict<Value>, key: string, inner: Dict<Value>): Dict<Value> {
    Put(d, key, Obj(inner))
  }

  /** The ID-token block applied to the dictionary `response`; None when a step raises. */
  function WithIdClaims(response: Dict<Value>, email: Value, tag: string): Option<Dict<Value>> {
    match Container(response, "claimsOverrideDetails", true)
    case None => None
    case Some(details) =>
      match Container(details, "claimsToAddOrOverride", false)
      case None => None
      case Some(claims) =>
        Some(Nest(response, "claimsOverrideDetails",
                  Nest(details, "claimsToAddOrOverride", IdClaimsAdded(claims, email, tag))))
  }

  /** The access-token block applied to the dictionary `response`; None when a step raises. */
  function WithAccessClaims(response: Dict<Value>, email: Value, tag: string): Option<Dict<Value>> {
    match Container(response, "claimsAndScopeOverrideDetails", true)
    case None => None
    case Some(scope) =>
      match Container(scope, "accessTokenGeneration", false)
      case None => None
      case Some(generation) =>
        match Container(generation, "claimsToAddOrOverride", false)
        case None => None
        case Some(claims) =>
          Some(Nest(response, "claimsAndScopeOverrideDetails",
                    Nest(scope, "accessTokenGeneration",
                         Nest(generation, "claimsToAddOrOverride", AccessClaimsAdded(claims, email, tag)))))
  }

  /**
   * The event after `lambda_handler`. The ID-token block and the access-token block each
   * either completes or raises before changing anything, so a failure in the second keeps the first.
   */
  function Handled(event: Dict<Value>): Dict<Value> {
    match EmailOf(event)
    case None => event
    case Some(email) =>
      match Child(event, "response")
      case None => event
      case Some(response) =>
        match WithIdClaims(response, email, UserTag(email))
        case None => event
        case Some(withId) =>
          match WithAccessClaims(withId, email, UserTag(email))
          case None => Nest(event, "response", withId)
          case Some(withBoth) => Nest(event, "response", withBoth)
  }

  // Readers for the properties

  /** `d[key]` when it is a dictionary. */
  function Child(d: Dict<Value>, key: string): Option<Dict<Value>> {
    match Get<Value>(d, key)
    case Some(Obj(fields)) => Some(fields)
    case _ => None
  }

  /** `response["claimsOverrideDetails"]["claimsToAddOrOverride"]`, when both are dictionaries. */
  function IdClaimsIn(response: Dict<Value>): Option<Dict<Value>> {
    match Child(response, "claimsOverrideDetails")
    case None => None
    case Some(details) => Child(details, "claimsToAddOrOverride")
  }

  /** `response["claimsAndScopeOverrideDetails"]["accessTokenGeneration"]["claimsToAddOrOverride"]`, when all are dictionaries. */
  function AccessClaimsIn(response: Dict<Value>): Option<Dict<Value>> {
    match Child(response, "claimsAndScopeOverrideDetails")
    case None => None
    case Some(scope) =>
      match Child(scope, "accessTokenGeneration")
      case None => None
      case Some(generation) => Child(generation, "claimsToAddOrOverride")
  }

  /** The ID-token claims of an event. */
  function IdClaimsOf(event: Dict<Value>): Option<Dict<Value>> {
    match Child(event, "response")
    case None => None
    case Some(response) => IdClaimsIn(response)
  }

  /** The access-token claims of an event. */
  function AccessClaimsOf(event: Dict<Value>): Option<Dict<Value>> {
    match Child(event, "response")
    case None => None
    case Some(response) => AccessClaimsIn(response)
  }

  /** The claims a token starts from: those already there, or none. */
  function Prior(claims: Option<Dict<Value>>): Dict<Value> {
    claims.GetOr([])
  }

  /** Missing, or a dictionary. */
  predicate MissingOrDict(v: Option<Value>) {
    v.None? || v.value.Obj?
  }

  /** The ID-token containers of `response` are missing, None (the outer one) or dictionaries. */
  predicate IdPathOk(response: Dict<Value>) {
    match Get<Value>(response, "claimsOverrideDetails")
    case None => true
    case Some(Null) => true
    case Some(Obj(details)) => MissingOrDict(Get(details, "claimsToAddOrOverride"))
    case Some(_) => false
  }

  /** The access-token containers of `response` are missing, None (the outer one only) or dictionaries. */
  predicate AccessPathOk(response: Dict<Value>) {
    match Get<Value>(response, "claimsAndScopeOverrideDetails")
    case None => true
    case Some(Null) => true
    case Some(Obj(scope)) =>
      (match Get<Value>(scope, "accessTokenGeneration")
       case None => true
       case Some(Obj(generation)) => MissingOrDict(Get(generation, "claimsToAddOrOverride"))
       case Some(_) => false)
    case Some(_) => false
  }

  // Properties

  /** `d[key] = inner` makes `inner` the dictionary under `key`. */
  lemma NestOutcome(d: Dict<Value>, key: string, inner: Dict<Value>)
    ensures Child(Nest(d, key, inner), key) == Some(inner)
  {
  }

  /** `d[key] = inner` leaves every other key alone. */
  lemma NestOther(d: Dict<Value>, key: string, inner: Dict<Value>, k: string)
    requires k != key
    ensures Get(Nest(d, key, inner), k) == Get(d, k)
  {
  }

  /** The ID-token block goes through exactly when its containers are missing, None or dictionaries. */
  lemma IdBlockIff(response: Dict<Value>, email: Value, tag: string)
    ensures WithIdClaims(response, email, tag).Some? <==> IdPathOk(response)
  {
    var g := Get<Value>(response, "claimsOverrideDetails");
    if g.None? || g.value.Null? {
      assert Container(response, "claimsOverrideDetails", true) == Some([]);
      assert Container([], "claimsToAddOrOverride", false) == Some([]);
      assert IdPathOk(response);
      assert WithIdClaims(response, email, tag).Some?;
    } else if g.value.Obj? {
      var details := g.value.fields;
      assert Container(response, "claimsOverrideDetails", true) == Some(details);
      assert IdPathOk(response) == MissingOrDict(Get(details, "claimsToAddOrOverride"));
      assert WithIdClaims(response, email, tag).Some? == Container(details, "claimsToAddOrOverride", false).Some?;
      ContainerIff(details, "claimsToAddOrOverride");
    } else {
      assert Container(response, "claimsOverrideDetails", true) == None;
      assert !IdPathOk(response);
      assert WithIdClaims(response, email, tag).None?;
    }
  }

  /**
   * When it goes through, the ID-token block adds the two claims to those already there and
   * leaves the access-token part of `response` alone.
   */
  lemma IdBlockOutcome(response: Dict<Value>, email: Value, tag: string)
    requires IdPathOk(response)
    ensures WithIdClaims(response, email, tag).Some?
    ensures var r := WithIdClaims(response, email, tag).value;
      && IdClaimsIn(r) == Some(IdClaimsAdded(Prior(IdClaimsIn(response)), email, tag))
      && Get(r, "claimsAndScopeOverrideDetails") == Get(response, "claimsAndScopeOverrideDetails")
  {
    IdBlockIff(response, email, tag);
    var details := Container(response, "claimsOverrideDetails", true).value;
    var claims := Container(details, "claimsToAddOrOverride", false).value;
    assert Prior(IdClaimsIn(response)) == claims;
    var added := IdClaimsAdded(claims, email, tag);
    var inner := Nest(details, "claimsToAddOrOverride", added);
    assert WithIdClaims(response, email, tag) == Some(Nest(response, "claimsOverrideDetails", inner));
    NestOutcome(details, "claimsToAddOrOverride", added);
    NestOutcome(response, "claimsOverrideDetails", inner);
    assert IdClaimsIn(Nest(response, "claimsOverrideDetails", inner)) == Some(added);
    assert |"claimsAndScopeOverrideDetails"| != |"claimsOverrideDetails"|;
    NestOther(response, "claimsOverrideDetails", inner, "claimsAndScopeOverrideDetails");
  }

  /** The access-token block goes through exactly when its containers are missing, None (the outermost only) or dictionaries. */
  lemma AccessBlockIff(response: Dict<Value>, email: Value, tag: string)
    ensures WithAccessClaims(response, email, tag).Some? <==> AccessPathOk(response)
  {
    var g := Get<Value>(response, "claimsAndScopeOverrideDetails");
    if g.None? || g.value.Null? {
      assert Container(response, "claimsAndScopeOverrideDetails", true) == Some([]);
      assert Container([], "accessTokenGeneration", false) == Some([]);
      assert Container([], "claimsToAddOrOverride", false) == Some([]);
      assert AccessPathOk(response);
      assert WithAccessClaims(response, email, tag).Some?;
    } else if g.value.Obj? {
      var scope := g.value.fields;
      assert Container(response, "claimsAndScopeOverrideDetails", true) == Some(scope);
      var h := Get<Value>(scope, "accessTokenGeneration");
      if h.None? {
        assert Container(scope, "accessTokenGeneration", false) == Some([]);
        assert Container([], "claimsToAddOrOverride", false) == Some([]);
        assert AccessPathOk(response);
        assert WithAccessClaims(response, email, tag).Some?;
      } else if h.value.Obj? {
        var generation := h.value.fields;
        assert Container(scope, "accessTokenGeneration", false) == Some(generation);
        assert AccessPathOk(response) == MissingOrDict(Get(generation, "claimsToAddOrOverride"));
        assert WithAccessClaims(response, email, tag).Some? == Container(generation, "claimsToAddOrOverride", false).Some?;
        ContainerIff(generation, "claimsToAddOrOverride");
      } else {
        assert Container(scope, "accessTokenGeneration", false) == None;
        assert !AccessPathOk(response);
        assert WithAccessClaims(response, email, tag).None?;
      }
    } else {
      assert Container(response, "claimsAndScopeOverrideDetails", true) == None;
      assert !AccessPathOk(response);
      assert WithAccessClaims(response, email, tag).None?;
    }
  }

  /**
   * When it goes through, the access-token block adds the two claims to those already there
   * and leaves the ID-token part of `response` alone.
   */
  lemma AccessBlockOutcome(response: Dict<Value>, email: Value, tag: string)
    requires AccessPathOk(response)
    ensures WithAccessClaims(response, email, tag).Some?
    ensures var r := WithAccessClaims(response, email, tag).value;
      && AccessClaimsIn(r) == Some(AccessClaimsAdded(Prior(AccessClaimsIn(response)), email, tag))
      && Get(r, "claimsOverrideDetails") == Get(response, "claimsOverrideDetails")
  {
    AccessBlockIff(response, email, tag);
    var scope := Container(response, "claimsAndScopeOverrideDetails", true).value;
    var generation := Container(scope, "accessTokenGeneration", false).value;
    var claims := Container(generation, "claimsToAddOrOverride", false).value;
    assert Prior(AccessClaimsIn(response)) == claims;
    var added := AccessClaimsAdded(claims, email, tag);
    var inner := Nest(generation, "claimsToAddOrOverride", added);
    var middle := Nest(scope, "accessTokenGeneration", inner);
    assert WithAccessClaims(response, email, tag) == Some(Nest(response, "claimsAndScopeOverrideDetails", middle));
    NestOutcome(generation, "claimsToAddOrOverride", added);
    NestOutcome(scope, "accessTokenGeneration", inner);
    NestOutcome(response, "claimsAndScopeOverrideDetails", middle);
    assert AccessClaimsIn(Nest(response, "claimsAndScopeOverrideDetails", middle)) == Some(added);
    assert |"claimsAndScopeOverrideDetails"| != |"claimsOverrideDetails"|;
    NestOther(response, "claimsAndScopeOverrideDetails", middle, "claimsOverrideDetails");
  }

  /** The ID-token reader only looks under `claimsOverrideDetails`. */
  lemma IdReaderOwnKey(a: Dict<Value>, b: Dict<Value>)
    requires Get(a, "claimsOverrideDetails") == Get(b, "claimsOverrideDetails")
    ensures IdClaimsIn(a) == IdClaimsIn(b)
  {
  }

  /** The access-token reader and guard only look under `claimsAndScopeOverrideDetails`. */
  lemma AccessReaderOwnKey(a: Dict<Value>, b: Dict<Value>)
    requires Get(a, "claimsAndScopeOverrideDetails") == Get(b, "claimsAndScopeOverrideDetails")
    ensures AccessClaimsIn(a) == AccessClaimsIn(b) && AccessPathOk(a) == AccessPathOk(b)
  {
  }

  /** The event's claim readers on an event whose `response` was just assigned. */
  lemma ClaimsOfNested(event: Dict<Value>, response: Dict<Value>)
    ensures IdClaimsOf(Nest(event, "response", response)) == IdClaimsIn(response)
    ensures AccessClaimsOf(Nest(event, "response", response)) == AccessClaimsIn(response)
  {
    NestOutcome(event, "response", response);
  }

  /**
   * When the e-mail can be read and every container is usable, both tokens carry the same
   * `email` and `user_tag`, the tag is `admin_user` exactly for the configured address, and
   * every other claim already there is kept.
   */
  lemma ClaimsInjected(event: Dict<Value>, email: Value, response: Dict<Value>)
    requires EmailOf(event) == Some(email) && Child(event, "response") == Some(response)
    requires IdPathOk(response) && AccessPathOk(response)
    ensures var h := Handled(event);
      && IdClaimsOf(h) == Some(IdClaimsAdded(Prior(IdClaimsOf(event)), email, UserTag(email)))
      && AccessClaimsOf(h) == Some(AccessClaimsAdded(Prior(AccessClaimsOf(event)), email, UserTag(email)))
  {
    var tag := UserTag(email);
    IdBlockOutcome(response, email, tag);
    var withId := WithIdClaims(response, email, tag).value;
    assert Get(withId, "claimsAndScopeOverrideDetails") == Get(response, "claimsAndScopeOverrideDetails");
    AccessReaderOwnKey(withId, response);
    AccessBlockOutcome(withId, email, tag);
    var withBoth := WithAccessClaims(withId, email, tag).value;
    assert Get(withBoth, "claimsOverrideDetails") == Get(withId, "claimsOverrideDetails");
    IdReaderOwnKey(withBoth, withId);
    assert Handled(event) == Nest(event, "response", withBoth);
    ClaimsOfNested(event, withBoth);
  }

  /** Both tokens get the same `email` and `user_tag`; the tag is `admin_user` exactly for the configured address. */
  lemma SameClaimsInBothTokens(event: Dict<Value>, email: Value, response: Dict<Value>)
    requires EmailOf(event) == Some(email) && Child(event, "response") == Some(response)
    requires IdPathOk(response) && AccessPathOk(response)
    ensures var h := Handled(event);
      && IdClaimsOf(h).Some? && AccessClaimsOf(h).Some?
      && Get(IdClaimsOf(h).value, "email") == Get(AccessClaimsOf(h).value, "email") == Some(email)
      && Get(IdClaimsOf(h).value, "user_tag") == Get(AccessClaimsOf(h).value, "user_tag")
      && (Get(IdClaimsOf(h).value, "user_tag") == Some(Str("admin_user")) <==> email == Str(AdminEmail))
      && (email != Str(AdminEmail) ==> Get(IdClaimsOf(h).value, "user_tag") == Some(Str("regular_user")))
  {
    ClaimsInjected(event, email, response);
  }

  /** Every key of the event other than `response` is left as it was, whatever happens. */
  lemma OnlyResponseChanges(event: Dict<Value>, k: string)
    requires k != "response"
    ensures Get(Handled(event), k) == Get(event, k)
  {
    match EmailOf(event)
    case None =>
    case Some(email) =>
      match Child(event, "response")
      case None =>
      case Some(response) =>
        match WithIdClaims(response, email, UserTag(email))
        case None =>
        case Some(withId) =>
          NestOther(event, "response", withId, k);
          match WithAccessClaims(withId, email, UserTag(email))
          case None =>
          case Some(withBoth) =>
            NestOther(event, "response", withBoth, k);
  }

  /**
   * An event whose e-mail cannot be read, whose `response` is missing or not a dictionary, or
   * whose ID-token containers are unusable is returned unchanged.
   */
  lemma ErrorsLeaveEventUnchanged(event: Dict<Value>)
    requires || EmailOf(event).None?
             || Child(event, "response").None?
             || !IdPathOk(Child(event, "response").value)
    ensures Handled(event) == event
  {
    if EmailOf(event).Some? && Child(event, "response").Some? {
      IdBlockIff(Child(event, "response").value, EmailOf(event).value, UserTag(EmailOf(event).value));
    }
  }

  /**
   * When only the access-token containers are unusable (an `accessTokenGeneration` that is
   * None, say), the ID-token claims are still written and the access-token part of `response`
   * is left as it was.
   */
  lemma IdClaimsSurviveAccessFailure(event: Dict<Value>, email: Value, response: Dict<Value>)
    requires EmailOf(event) == Some(email) && Child(event, "response") == Some(response)
    requires IdPathOk(response) && !AccessPathOk(response)
    ensures var h := Handled(event);
      && IdClaimsOf(h) == Some(IdClaimsAdded(Prior(IdClaimsOf(event)), email, UserTag(email)))
      && Child(h, "response").Some?
      && Get(Child(h, "response").value, "claimsAndScopeOverrideDetails") == Get(response, "claimsAndScopeOverrideDetails")
  {
    var tag := UserTag(email);
    IdBlockOutcome(response, email, tag);
    var withId := WithIdClaims(response, email, tag).value;
    assert Get(withId, "claimsAndScopeOverrideDetails") == Get(response, "claimsAndScopeOverrideDetails");
    AccessReaderOwnKey(withId, response);
    AccessBlockIff(withId, email, tag);
    assert WithAccessClaims(withId, email, tag) == None;
    assert Handled(event) == Nest(event, "response", withId);
    ClaimsOfNested(event, withId);
    NestOutcome(event, "response", withId);
  }

  // The handler

  /** The event object Lambda passes in: a dictionary the handler updates in place. */
  class CognitoEvent {
    var fields: Dict<Value>

    constructor (fields: Dict<Value>)
      ensures this.fields == fields
    {
      this.fields := fields;
    }
  }

  /**
   * `lambda_handler`: reads the e-mail, picks the tag, fills the ID-token claims and then the
   * access-token claims, and returns the same event; an exception ends the updates and is swallowed.
   */
  method LambdaHandler(event: CognitoEvent) returns (r: CognitoEvent)
    modifies event
    ensures r == event && event.fields == Handled(old(event.fields))
  {
    r := event;
    var email := EmailOf(event.fields);
    if email.None? {
      return;
    }
    var customTag := "default_user";
    if email.value == Str(AdminEmail) {
      customTag := "admin_user";
    } else {
      customTag := "regular_user";
    }
    var response := Child(event.fields, "response");
    if response.None? {
      return;
    }
    // ID token
    var details := Container(response.value, "claimsOverrideDetails", true);
    if details.None? {
      return;
    }
    var claims := Container(details.value, "claimsToAddOrOverride", false);
    if claims.None? {
      return;
    }
    var updated := Nest(response.value, "claimsOverrideDetails",
                        Nest(details.value, "claimsToAddOrOverride", IdClaimsAdded(claims.value, email.value, customTag)));
    assert WithIdClaims(response.value, email.value, customTag) == Some(updated);
    ghost var withId := updated;
    event.fields := Nest(event.fields, "response", updated);
    // access token
    var scope := Container(updated, "claimsAndScopeOverrideDetails", true);
    if scope.None? {
      assert WithAccessClaims(withId, email.value, customTag).None?;
      return;
    }
    var generation := Container(scope.value, "accessTokenGeneration", false);
    if generation.None? {
      assert WithAccessClaims(withId, email.value, customTag).None?;
      return;
    }
    claims := Container(generation.value, "claimsToAddOrOverride", false);
    if claims.None? {
      assert WithAccessClaims(withId, email.value, customTag).None?;
      return;
    }
    updated := Nest(updated, "claimsAndScopeOverrideDetails",
                    Nest(scope.value, "accessTokenGeneration",
                         Nest(generation.value, "claimsToAddOrOverride", AccessClaimsAdded(claims.value, email.value, customTag))));
    assert WithAccessClaims(withId, email.value, customTag) == Some(updated);
    PutTwice(old(event.fields), "response", Obj(withId), Obj(updated));
    event.fields := Nest(event.fields, "response", updated);
  }
}
