/** The request layer: the bearer-token check, the 404 rule of the listing and
    lookup routes, and the chat-completions route, which authenticates,
    charges one use to the token and only then hands the request to the
    forwarder (the model gate, then the upstream provider). */
module Gateway {
  import opened Wrappers
  import opened Models
  import opened Tables
  import opened Crud
  import opened ModelGate

  // ---------------------------------------------------------------------------
  // Authentication
  // ---------------------------------------------------------------------------

  /** Why a bearer token is refused, in the order the checks are made. */
  datatype AuthError = InvalidToken | NoUsesLeft | ExpiredOrDisabled

  function Message(e: AuthError): string {
    match e
    case InvalidToken => "Invalid token"
    case NoUsesLeft => "No uses left"
    case ExpiredOrDisabled => "Token is expired or disabled"
  }

  datatype Verdict = Accept | Reject(reason: AuthError)

  /** None of the four flags stands in the way. */
  predicate Enabled(t: Token) {
    t.isActive && !t.isExpired && !t.isRevoked && !t.isBlocked
  }

  /** Decides a bearer token against the token table: unknown key first, then
      a counter of exactly zero, then a disabling flag. Only the token row is
      read; the owner's `isBanned` and `isActive` play no part. */
  function Authenticate(tokens: seq<Token>, key: string): (r: Verdict)
    ensures r == Reject(InvalidToken) <==> key !in TokenKeys(tokens)
    ensures r == Reject(NoUsesLeft) ==> exists t :: t in tokens && t.key == key && t.usesLeft == 0
    ensures r == Reject(ExpiredOrDisabled) ==> exists t :: t in tokens && t.key == key && !Enabled(t)
    ensures r == Accept ==> exists t :: t in tokens && t.key == key && t.usesLeft != 0 && Enabled(t)
  {
    match GetToken(tokens, key)
    case None => Reject(InvalidToken)
    case Some(t) =>
      if t.usesLeft == 0 then Reject(NoUsesLeft)
      else if t.isExpired || !t.isActive || t.isRevoked || t.isBlocked then Reject(ExpiredOrDisabled)
      else Accept
  }

  /** With unique keys, the verdict on a stored token is decided by its own
      row: "No uses left" exactly when the counter is zero, whatever the flags;
      otherwise "expired or disabled" exactly when a flag is against it;
      otherwise accepted, a negative counter included. */
  lemma AuthenticateRow(tokens: seq<Token>, key: string, i: nat)
    requires UniqueTokenKeys(tokens)
    requires i < |tokens| && tokens[i].key == key
    ensures Authenticate(tokens, key) ==
      if tokens[i].usesLeft == 0 then Reject(NoUsesLeft)
      else if !Enabled(tokens[i]) then Reject(ExpiredOrDisabled)
      else Accept
  {
    GetTokenUnique(tokens, key, i);
  }

  /** With unique keys, a token is accepted if and only if it is stored, its
      counter is not zero and it is enabled. */
  lemma AuthenticateAcceptsIff(tokens: seq<Token>, key: string)
    requires UniqueTokenKeys(tokens)
    ensures Authenticate(tokens, key) == Accept <==>
      exists i :: 0 <= i < |tokens| && tokens[i].key == key && tokens[i].usesLeft != 0 && Enabled(tokens[i])
  {

  }

  // ---------------------------------------------------------------------------
  // Read routes
  // ---------------------------------------------------------------------------

  /** How a route fails: an HTTP error with its status and detail, or an
      exception the route does not catch (a server error). */
  datatype Failure = HttpException(status: int, detail: string) | InternalError

  /** `GET /users`: the window of users, 404 when it is empty. */
  function ReadUsers(users: seq<User>, skip: int, limit: int): (r: Result<seq<User>, Failure>)
    ensures r == Err(HttpException(404, "No users found")) <==>
      WindowArgument(skip) && WindowArgument(limit) && (skip >= |users| || limit == 0)
    ensures r == Err(InternalError) <==> !WindowArgument(skip) || !WindowArgument(limit)
    ensures r.Ok? ==> r.value != [] && GetUsers(users, skip, limit) == Ok(r.value)
  {
    match GetUsers(users, skip, limit)
    case Err(_) => Err(InternalError)
    case Ok(page) =>
      PageEmptyIff(users, skip, limit);
      if |page| == 0 then Err(HttpException(404, "No users found")) else Ok(page)
  }

  /** `GET /tokens`: the window of tokens, 404 when it is empty. */
  function ReadTokens(tokens: seq<Token>, skip: int, limit: int): (r: Result<seq<Token>, Failure>)
    ensures r == Err(HttpException(404, "No tokens found")) <==>
      WindowArgument(skip) && WindowArgument(limit) && (skip >= |tokens| || limit == 0)
    ensures r == Err(InternalError) <==> !WindowArgument(skip) || !WindowArgument(limit)
    ensures r.Ok? ==> r.value != [] && GetTokens(tokens, skip, limit) == Ok(r.value)
  {
    match GetTokens(tokens, skip, limit)
    case Err(_) => Err(InternalError)
    case Ok(page) =>
      PageEmptyIff(tokens, skip, limit);
      if |page| == 0 then Err(HttpException(404, "No tokens found")) else Ok(page)
  }

  /** A listing request without arguments reads the first hundred rows in
      stored order, and is a 404 only when the table is empty. */
  lemma DefaultListing(users: seq<User>, tokens: seq<Token>)
    ensures ReadUsers(users, DefaultSkip, DefaultLimit) ==
      if users == [] then Err(HttpException(404, "No users found")) else Ok(users[..Min(DefaultLimit, |users|)])
    ensures ReadTokens(tokens, DefaultSkip, DefaultLimit) ==
      if tokens == [] then Err(HttpException(404, "No tokens found")) else Ok(tokens[..Min(DefaultLimit, |tokens|)])
  {
  }

  /** `GET /user/{slack_id}` */
  function ReadUser(users: seq<User>, slackId: string): (r: Result<User, Failure>)
    ensures r.Err? <==> slackId !in UserKeys(users)
    ensures r.Err? ==> r.error == HttpException(404, "User not found")
    ensures r.Ok? ==> r.value in users && r.value.slackId == slackId
  {
    match GetUserBySlackId(users, slackId)
    case None => Err(HttpException(404, "User not found"))
    case Some(u) => Ok(u)
  }

  /** `GET /token/{token}` */
  function ReadToken(tokens: seq<Token>, key: string): (r: Result<Token, Failure>)
    ensures r.Err? <==> key !in TokenKeys(tokens)
    ensures r.Err? ==> r.error == HttpException(404, "Token not found")
    ensures r.Ok? ==> r.value in tokens && r.value.key == key
  {
    match GetToken(tokens, key)
    case None => Err(HttpException(404, "Token not found"))
    case Some(t) => Ok(t)
  }

  // ---------------------------------------------------------------------------
  // The chat-completions route
  // ---------------------------------------------------------------------------

  /** The upstream provider's answer to a forwarded request: its status and
      body. The provider itself is outside the model. */
  datatype Upstream = Upstream(status: int, body: string)

  /** What the route answers: the completion, a 200 body `{"Error": message}`
      for a caught error, an HTTP error with status and detail, or a server
      error for an exception nobody catches. */
  datatype Reply =
    | Completion(body: string)
    | ErrorBody(message: string)
    | HttpError(status: int, detail: string)
    | ServerFault

  /** The (body, status) pair the forwarder hands back: the gate's refusal, or
      the upstream's answer when the gate lets the request through; None when
      the gate raised. */
  function Completions(gate: Gate, upstream: Upstream): (r: Option<Upstream>)
    ensures gate == Forward ==> r == Some(upstream)
    ensures gate.Refused? ==> r == Some(Upstream(gate.status, gate.message))
    ensures gate == Fault <==> r.None?
  {
    match gate
    case Forward => Some(upstream)
    case Refused(status, message) => Some(Upstream(status, message))
    case Fault => None
  }

  /** The route's answer to the forwarder's pair: any status other than 200 is
      raised again with the same status and the body as detail. */
  function Respond(completions: Option<Upstream>): (r: Reply)
    ensures completions.None? <==> r == ServerFault
    ensures completions.Some? && completions.value.status != 200 ==>
      r == HttpError(completions.value.status, completions.value.body)
    ensures completions.Some? && completions.value.status == 200 ==> r == Completion(completions.value.body)
    ensures !r.ErrorBody?
  {
    match completions
    case None => ServerFault
    case Some(c) => if c.status != 200 then HttpError(c.status, c.body) else Completion(c.body)
  }

  /** The counter the charge commits, one below the stored one, fits the
      column; otherwise the commit fails. */
  predicate ChargeFits(tokens: seq<Token>, key: string) {
    match GetToken(tokens, key)
    case None => true
    case Some(t) => InIntRange(t.usesLeft - 1)
  }

  /** One call of the route, as a function of the store: the token table
      afterwards and the reply. A refused token costs nothing and gets the
      refusal in a 200 body. An accepted token is charged one use; the reply
      is then what the gate and the upstream decide, judged on the table
      before the charge. A charge that cannot be committed is a server error
      that leaves the table as it was. */
  function ChatCall(users: seq<User>, tokens: seq<Token>, key: string, model: Option<string>, upstream: Upstream): (r: (seq<Token>, Reply))
    ensures |r.0| == |tokens|
    ensures r.0 != tokens <==> Authenticate(tokens, key) == Accept && ChargeFits(tokens, key)
    ensures Authenticate(tokens, key).Reject? ==>
      r == (tokens, ErrorBody(Message(Authenticate(tokens, key).reason)))
    ensures Authenticate(tokens, key) == Accept && !ChargeFits(tokens, key) ==> r == (tokens, ServerFault)
    ensures Authenticate(tokens, key) == Accept && ChargeFits(tokens, key) ==>
      r.1 == Respond(Completions(CheckModel(users, tokens, key, model), upstream))
  {
    match Authenticate(tokens, key)
    case Reject(e) => (tokens, ErrorBody(Message(e)))
    case Accept =>
      if !ChargeFits(tokens, key) then (tokens, ServerFault)
      else
        var at := KeyIndex(tokens, key);
        var charged := UpdateAt(tokens, at, Used);
        assert charged[at.value] != tokens[at.value];
        ChargeKeepsGate(users, tokens, key, model);
        (charged, Respond(Completions(CheckModel(users, charged, key, model), upstream)))
  }

  /** Charging a use keeps the token found under the key and its owner, so the
      gate decides the same before and after the charge. */
  lemma ChargeKeepsGate(users: seq<User>, tokens: seq<Token>, key: string, model: Option<string>)
    ensures CheckModel(users, UpdateAt(tokens, KeyIndex(tokens, key), Used), key, model) == CheckModel(users, tokens, key, model)
  {

  }

  /** An accepted call costs its token exactly one use, whatever the gate and
      the upstream answer afterwards: no refund for a refusal or an upstream
      error. Every other row is unchanged. Over a consistent store the one
      exception is a counter at the column's minimum, which cannot go lower. */
  lemma AcceptedCallChargesOnce(users: seq<User>, tokens: seq<Token>, usages: seq<Usage>, key: string, model: Option<string>, upstream: Upstream, i: nat)
    requires Consistent(users, tokens, usages)
    requires i < |tokens| && tokens[i].key == key
    requires Authenticate(tokens, key) == Accept
    ensures ChatCall(users, tokens, key, model, upstream).0 ==
      if tokens[i].usesLeft == MinInt then tokens
      else tokens[i := tokens[i].(usesLeft := tokens[i].usesLeft - 1)]
  {
    assert tokens[i] in tokens;
    GetTokenUnique(tokens, key, i);
  }

  /** When the gate lets the request through, an upstream status other than
      200 reaches the caller as an HTTP error with that same status and body,
      and the use stays charged. */
  lemma UpstreamErrorPassedThrough(users: seq<User>, tokens: seq<Token>, key: string, model: Option<string>, upstream: Upstream)
    requires Authenticate(tokens, key) == Accept
    requires CheckModel(users, tokens, key, model) == Forward
    requires upstream.status != 200
    ensures ChatCall(users, tokens, key, model, upstream) ==
      if ChargeFits(tokens, key) then (UpdateAt(tokens, KeyIndex(tokens, key), Used), HttpError(upstream.status, upstream.body))
      else (tokens, ServerFault)
  {
  }

  /** A restricted model requested by an owner without the permission is
      answered 403 with the fixed message, yet the use has already been
      charged: the charge comes before the forwarder runs the gate. */
  lemma ForbiddenModelStillCharged(users: seq<User>, tokens: seq<Token>, usages: seq<Usage>, key: string, name: string, upstream: Upstream, i: nat, j: nat)
    requires Consistent(users, tokens, usages)
    requires i < |tokens| && tokens[i].key == key && tokens[i].usesLeft != 0 && Enabled(tokens[i])
    requires j < |users| && tokens[i].owner == Some(users[j].slackId)
    requires name in BlockedModels && !users[j].gpt4UsageAllowed
    ensures ChatCall(users, tokens, key, Some(name), upstream) ==
      if tokens[i].usesLeft == MinInt then (tokens, ServerFault)
      else (tokens[i := tokens[i].(usesLeft := tokens[i].usesLeft - 1)], HttpError(403, NotAvailable))
  {
    AuthenticateRow(tokens, key, i);
    GateOnStore(users, tokens, usages, key, name, i, j);
    GetTokenUnique(tokens, key, i);
    assert tokens[i] in tokens;
  }

  /** Banning or deactivating a user changes nothing about the route's
      behaviour for that user's tokens. */
  lemma OwnerStatusIgnored(users: seq<User>, tokens: seq<Token>, key: string, model: Option<string>, upstream: Upstream, j: nat, banned: bool, active: bool)
    requires j < |users|
    ensures ChatCall(users[j := users[j].(isBanned := banned, isActive := active)], tokens, key, model, upstream)
         == ChatCall(users, tokens, key, model, upstream)
  {
    var changed := users[j := users[j].(isBanned := banned, isActive := active)];
    forall slackId: string ensures GetUserBySlackId(changed, slackId).Some? == GetUserBySlackId(users, slackId).Some?
      && (GetUserBySlackId(users, slackId).Some? ==>
            GetUserBySlackId(changed, slackId).value.gpt4UsageAllowed == GetUserBySlackId(users, slackId).value.gpt4UsageAllowed)
    {
      FirstIndexCongruent(changed, (u: User) => u.slackId == slackId, users, (u: User) => u.slackId == slackId);
    }
  }

  /** Runs the route against the store: authenticate, charge one use to the
      token found under the key and commit (a counter that no longer fits the
      column makes the commit fail), then forward (gate, then upstream) and
      answer. */
  method PostChatCompletions(store: Store, key: string, model: Option<string>, upstream: Upstream) returns (reply: Reply)
    requires store.Valid()
    modifies store
    ensures store.Valid()
    ensures store.users == old(store.users) && store.usages == old(store.usages)
    ensures (store.tokens, reply) == ChatCall(old(store.users), old(store.tokens), key, model, upstream)
  {
    var verdict := Authenticate(store.tokens, key);
    if verdict.Reject? {
      return ErrorBody(Message(verdict.reason));
    }
    if !ChargeFits(store.tokens, key) {
      return ServerFault;
    }
    var at := KeyIndex(store.tokens, key);
    UpdateConsistent(store.users, store.tokens, store.usages, at, Used);
    store.tokens := UpdateAt(store.tokens, at, Used);
    var completions := Completions(CheckModel(store.users, store.tokens, key, model), upstream);
    reply := Respond(completions);
  }

  // ---------------------------------------------------------------------------
  // A token's life
  // ---------------------------------------------------------------------------

  /** An unknown key is refused as an invalid token, and the call neither
      charges anything nor reaches the gate. */
  lemma UnknownTokenRejected(users: seq<User>, tokens: seq<Token>, key: string, model: Option<string>, upstream: Upstream)
    requires key !in TokenKeys(tokens)
    ensures Authenticate(tokens, key) == Reject(InvalidToken)
    ensures ChatCall(users, tokens, key, model, upstream) == (tokens, ErrorBody("Invalid token"))
  {
  }

  /** A newly created token is accepted; after one use it has 499 uses left; after it
      is revoked it is refused as disabled. */
  lemma FreshUseRevoke(key: string, owner: string)
    ensures var created := [NewToken(key, Some(owner))];
      && Authenticate(created, key) == Accept
      && var used := UpdateMatched(created, key, owner, Used);
      && used[0].usesLeft == 499
      && Authenticate(used, key) == Accept
      && var revoked := UpdateMatched(used, key, owner, Revoked);
      && Authenticate(revoked, key) == Reject(ExpiredOrDisabled)
  {

  }
}
