/** The token/user store: keyed lookups and paginated listings as functions over
    the tables, and the create/update/delete operations as methods of `Store`,
    which holds the three tables and changes them in place. Each commit of the
    relational store is one assignment to the tables. */
module Crud {
  import opened Wrappers
  import opened Models
  import opened Tables

  /** How an operation of the store fails. */
  datatype CrudError =
    | NoMatch           // the lookup found no row and the code used the missing row
    | DuplicateKey      // the insert would repeat a primary key
    | MissingReference  // the insert names an owner that is not a user
    | BadWindow         // the database refuses an OFFSET or LIMIT outside 0 .. MaxBigInt
    | OutOfRange        // the commit stores a counter outside the INTEGER column

  // ---------------------------------------------------------------------------
  // Keys and the table invariant
  // ---------------------------------------------------------------------------

  function UserKeys(users: seq<User>): set<string> { set u | u in users :: u.slackId }

  function TokenKeys(tokens: seq<Token>): set<string> { set t | t in tokens :: t.key }

  ghost predicate UniqueUserKeys(users: seq<User>) {
    forall i, j :: 0 <= i < j < |users| ==> users[i].slackId != users[j].slackId
  }

  ghost predicate UniqueTokenKeys(tokens: seq<Token>) {
    forall i, j :: 0 <= i < j < |tokens| ==> tokens[i].key != tokens[j].key
  }

  ghost predicate UniqueUsageIds(usages: seq<Usage>) {
    forall i, j :: 0 <= i < j < |usages| ==> usages[i].id != usages[j].id
  }

  /** The foreign key `tokens.user_id -> users.slack_id`. */
  ghost predicate OwnersExist(users: seq<User>, tokens: seq<Token>) {
    forall t :: t in tokens && t.owner.Some? ==> t.owner.value in UserKeys(users)
  }

  /** The foreign key `usages.token_id -> tokens.token`. */
  ghost predicate UsagesReferToTokens(tokens: seq<Token>, usages: seq<Usage>) {
    forall u :: u in usages && u.tokenId.Some? ==> u.tokenId.value in TokenKeys(tokens)
  }

  /** Every stored counter is a value of the `INTEGER` column. */
  ghost predicate CountersInRange(tokens: seq<Token>) {
    forall t :: t in tokens ==> InIntRange(t.usesLeft)
  }

  /** Primary keys are unique, every reference names an existing row and every
      counter fits its column. */
  ghost predicate Consistent(users: seq<User>, tokens: seq<Token>, usages: seq<Usage>) {
    && UniqueUserKeys(users)
    && UniqueTokenKeys(tokens)
    && UniqueUsageIds(usages)
    && OwnersExist(users, tokens)
    && UsagesReferToTokens(tokens, usages)
    && CountersInRange(tokens)
  }

  // ---------------------------------------------------------------------------
  // Queries
  // ---------------------------------------------------------------------------

  /** The `skip` and `limit` a listing takes when the caller leaves them out. */
  const DefaultSkip: int := 0
  const DefaultLimit: int := 100

  /** The largest `BIGINT`, the type of the `OFFSET` and `LIMIT` operands. */
  const MaxBigInt: int := 0x7fff_ffff_ffff_ffff

  /** An `OFFSET` or `LIMIT` operand the database takes. */
  predicate WindowArgument(n: int) { 0 <= n <= MaxBigInt }

  /** The `OFFSET skip LIMIT limit` window, refused for a negative argument or
      one beyond `BIGINT`. */
  function Window<T>(rows: seq<T>, skip: int, limit: int): (r: Result<seq<T>, CrudError>)
    ensures r.Err? <==> !WindowArgument(skip) || !WindowArgument(limit)
    ensures r.Err? ==> r.error == BadWindow
    ensures r.Ok? ==> |r.value| <= limit
    ensures r.Ok? ==> forall k :: 0 <= k < |r.value| ==> 0 <= skip + k < |rows| && r.value[k] == rows[skip + k]
    ensures r.Ok? && skip < |rows| ==> |r.value| == Min(limit, |rows| - skip)
  {
    if !WindowArgument(skip) || !WindowArgument(limit) then Err(BadWindow) else Ok(Page(rows, skip, limit))
  }

  function GetUsers(users: seq<User>, skip: int, limit: int): (r: Result<seq<User>, CrudError>)
    ensures r.Err? <==> !WindowArgument(skip) || !WindowArgument(limit)
    ensures r.Ok? ==> |r.value| <= limit
    ensures r.Ok? ==> forall k :: 0 <= k < |r.value| ==> 0 <= skip + k < |users| && r.value[k] == users[skip + k]
    ensures r.Ok? && skip < |users| ==> |r.value| == Min(limit, |users| - skip)
  {
    Window(users, skip, limit)
  }

  function GetTokens(tokens: seq<Token>, skip: int, limit: int): (r: Result<seq<Token>, CrudError>)
    ensures r.Err? <==> !WindowArgument(skip) || !WindowArgument(limit)
    ensures r.Ok? ==> |r.value| <= limit
    ensures r.Ok? ==> forall k :: 0 <= k < |r.value| ==> 0 <= skip + k < |tokens| && r.value[k] == tokens[skip + k]
    ensures r.Ok? && skip < |tokens| ==> |r.value| == Min(limit, |tokens| - skip)
  {
    Window(tokens, skip, limit)
  }

  /** The row at `at`, when there is one. */
  function RowAt<T>(rows: seq<T>, at: Option<nat>): (r: Option<T>)
    requires at.Some? ==> at.value < |rows|
    ensures r.Some? <==> at.Some?
    ensures r.Some? ==> r.value == rows[at.value]
  {
    match at
    case None => None
    case Some(i) => Some(rows[i])
  }

  function UserIndex(users: seq<User>, slackId: string): Option<nat> {
    FirstIndex(users, (u: User) => u.slackId == slackId)
  }

  function GetUserBySlackId(users: seq<User>, slackId: string): (r: Option<User>)
    ensures r.Some? ==> r.value in users && r.value.slackId == slackId
    ensures r.None? <==> slackId !in UserKeys(users)
  {
    var r := RowAt(users, UserIndex(users, slackId));
    assert r.None? ==> forall u :: u in users ==> u.slackId != slackId by {
      if r.None? {
        forall u | u in users ensures u.slackId != slackId {
          var j :| 0 <= j < |users| && users[j] == u;
        }
      }
    }
    r
  }

  function GetUserByEmail(users: seq<User>, email: string): (r: Option<User>)
    ensures r.Some? ==> r.value in users && r.value.email == Some(email)
    ensures r.None? <==> forall u :: u in users ==> u.email != Some(email)
  {
    var r := RowAt(users, FirstIndex(users, (u: User) => u.email == Some(email)));
    assert r.None? ==> forall u :: u in users ==> u.email != Some(email) by {
      if r.None? {
        forall u | u in users ensures u.email != Some(email) {
          var j :| 0 <= j < |users| && users[j] == u;
        }
      }
    }
    r
  }

  /** Index of the first user with both the given key and e-mail: the row
      `update_user` and `delete_user` act on. */
  function AccountIndex(users: seq<User>, slackId: string, email: string): Option<nat> {
    FirstIndex(users, (u: User) => u.slackId == slackId && u.email == Some(email))
  }

  function GetUserBySlackIdAndEmail(users: seq<User>, slackId: string, email: string): (r: Option<User>)
    ensures r.Some? ==> r.value in users && r.value.slackId == slackId && r.value.email == Some(email)
    ensures r.None? <==> forall u :: u in users ==> !(u.slackId == slackId && u.email == Some(email))
  {
    var r := RowAt(users, AccountIndex(users, slackId, email));
    assert r.None? ==> forall u :: u in users ==> !(u.slackId == slackId && u.email == Some(email)) by {
      if r.None? {
        forall u | u in users ensures !(u.slackId == slackId && u.email == Some(email)) {
          var j :| 0 <= j < |users| && users[j] == u;
        }
      }
    }
    r
  }

  function KeyIndex(tokens: seq<Token>, key: string): Option<nat> {
    FirstIndex(tokens, (t: Token) => t.key == key)
  }

  function GetToken(tokens: seq<Token>, key: string): (r: Option<Token>)
    ensures r.Some? ==> r.value in tokens && r.value.key == key
    ensures r.None? <==> key !in TokenKeys(tokens)
  {
    var r := RowAt(tokens, KeyIndex(tokens, key));
    assert r.None? ==> forall t :: t in tokens ==> t.key != key by {
      if r.None? {
        forall t | t in tokens ensures t.key != key {
          var j :| 0 <= j < |tokens| && tokens[j] == t;
        }
      }
    }
    r
  }

  /** With unique keys, GetToken finds THE row carrying the key. */
  lemma GetTokenUnique(tokens: seq<Token>, key: string, i: nat)
    requires UniqueTokenKeys(tokens)
    requires i < |tokens| && tokens[i].key == key
    ensures KeyIndex(tokens, key) == Some(i)
    ensures GetToken(tokens, key) == Some(tokens[i])
  {
    FirstIndexIs(tokens, (t: Token) => t.key == key, i);
  }

  function GetTokensByOwner(tokens: seq<Token>, owner: string): (r: seq<Token>)
    ensures forall t :: t in r <==> t in tokens && t.owner == Some(owner)
    ensures forall t :: multiset(r)[t] == if t.owner == Some(owner) then multiset(tokens)[t] else 0
  {
    Filter(tokens, (t: Token) => t.owner == Some(owner))
  }

  /** The filter every token mutator starts with: this key, owned by this user. */
  predicate Matches(t: Token, key: string, owner: string) {
    t.key == key && t.owner == Some(owner)
  }

  function MatchIndex(tokens: seq<Token>, key: string, owner: string): Option<nat> {
    FirstIndex(tokens, (t: Token) => Matches(t, key, owner))
  }

  function GetTokensByOwnerAndToken(tokens: seq<Token>, owner: string, key: string): (r: Option<Token>)
    ensures r.Some? ==> r.value in tokens && Matches(r.value, key, owner)
    ensures r.None? <==> forall j :: 0 <= j < |tokens| ==> !Matches(tokens[j], key, owner)
  {
    RowAt(tokens, MatchIndex(tokens, key, owner))
  }

  function GetTokensByOwnerAndTokenAndUsesLeft(tokens: seq<Token>, owner: string, key: string, usesLeft: int): (r: Option<Token>)
    ensures r.Some? ==> r.value in tokens && Matches(r.value, key, owner) && r.value.usesLeft == usesLeft
    ensures r.None? <==> forall j :: 0 <= j < |tokens| ==> !(Matches(tokens[j], key, owner) && tokens[j].usesLeft == usesLeft)
  {
    RowAt(tokens, FirstIndex(tokens, (t: Token) => Matches(t, key, owner) && t.usesLeft == usesLeft))
  }

  function GetTokensByOwnerAndTokenAndIsRevoked(tokens: seq<Token>, owner: string, key: string, isRevoked: bool): (r: Option<Token>)
    ensures r.Some? ==> r.value in tokens && Matches(r.value, key, owner) && r.value.isRevoked == isRevoked
    ensures r.None? <==> forall j :: 0 <= j < |tokens| ==> !(Matches(tokens[j], key, owner) && tokens[j].isRevoked == isRevoked)
  {
    RowAt(tokens, FirstIndex(tokens, (t: Token) => Matches(t, key, owner) && t.isRevoked == isRevoked))
  }

  function GetTokensByOwnerAndTokenAndIsBlocked(tokens: seq<Token>, owner: string, key: string, isBlocked: bool): (r: Option<Token>)
    ensures r.Some? ==> r.value in tokens && Matches(r.value, key, owner) && r.value.isBlocked == isBlocked
    ensures r.None? <==> forall j :: 0 <= j < |tokens| ==> !(Matches(tokens[j], key, owner) && tokens[j].isBlocked == isBlocked)
  {
    RowAt(tokens, FirstIndex(tokens, (t: Token) => Matches(t, key, owner) && t.isBlocked == isBlocked))
  }

  // ---------------------------------------------------------------------------
  // Row updates
  // ---------------------------------------------------------------------------

  /** `use_token`: one use fewer. Whether the result fits the column is
      decided when it is committed. */
  function Used(t: Token): Token { t.(usesLeft := t.usesLeft - 1) }

  /** `revoke_token` */
  function Revoked(t: Token): Token { t.(isRevoked := true) }

  /** `block_token` */
  function Blocked(t: Token): Token { t.(isBlocked := true) }

  /** `unblock_token` */
  function Unblocked(t: Token): Token { t.(isBlocked := false) }

  /** `update_token` */
  function WithUsesLeft(t: Token, usesLeft: int): Token { t.(usesLeft := usesLeft) }

  /** An update that keeps the row's key and owner. */
  ghost predicate KeepsIdentity(f: Token -> Token) {
    forall t :: f(t).key == t.key && f(t).owner == t.owner
  }

  /** The table with `f` applied to the row at `at`, or unchanged without one. */
  function UpdateAt(tokens: seq<Token>, at: Option<nat>, f: Token -> Token): (r: seq<Token>)
    requires at.Some? ==> at.value < |tokens|
    ensures |r| == |tokens|
    ensures forall j :: 0 <= j < |tokens| && at != Some(j) ==> r[j] == tokens[j]
    ensures at.Some? ==> r[at.value] == f(tokens[at.value])
  {
    match at
    case None => tokens
    case Some(i) => tokens[i := f(tokens[i])]
  }

  /** The token table after a mutator applies `f` to the row matching `key`
      and `owner`: only that row changes, and nothing changes without one. */
  function UpdateMatched(tokens: seq<Token>, key: string, owner: string, f: Token -> Token): (r: seq<Token>)
    ensures |r| == |tokens|
    ensures MatchIndex(tokens, key, owner).None? ==> r == tokens
    ensures forall j :: 0 <= j < |tokens| && MatchIndex(tokens, key, owner) != Some(j) ==> r[j] == tokens[j]
  {
    UpdateAt(tokens, MatchIndex(tokens, key, owner), f)
  }

  /** An update that keeps key and owner leaves the matched row matched: the
      same row is found again afterwards. */
  lemma MatchSurvivesUpdate(tokens: seq<Token>, key: string, owner: string, f: Token -> Token)
    requires KeepsIdentity(f)
    ensures MatchIndex(UpdateMatched(tokens, key, owner, f), key, owner) == MatchIndex(tokens, key, owner)
  {

  }

  /** Repeating an update whose second application changes nothing is the
      same as applying it once. */
  lemma UpdateIdempotent(tokens: seq<Token>, key: string, owner: string, f: Token -> Token)
    requires KeepsIdentity(f)
    requires forall t :: f(f(t)) == f(t)
    ensures UpdateMatched(UpdateMatched(tokens, key, owner, f), key, owner, f) == UpdateMatched(tokens, key, owner, f)
  {
    MatchSurvivesUpdate(tokens, key, owner, f);
  }

  /** Revoking twice is revoking once. */
  lemma RevokeIdempotent(tokens: seq<Token>, key: string, owner: string)
    ensures UpdateMatched(UpdateMatched(tokens, key, owner, Revoked), key, owner, Revoked)
         == UpdateMatched(tokens, key, owner, Revoked)
  {
    UpdateIdempotent(tokens, key, owner, Revoked);
  }

  /** Revoking sets `isRevoked` of the matched row and nothing else. */
  lemma RevokeSetsOnlyRevoked(tokens: seq<Token>, key: string, owner: string, i: nat)
    requires MatchIndex(tokens, key, owner) == Some(i)
    ensures var after := UpdateMatched(tokens, key, owner, Revoked);
      && after[i].isRevoked
      && after[i] == tokens[i].(isRevoked := after[i].isRevoked)
      && forall j :: 0 <= j < |tokens| && j != i ==> after[j] == tokens[j]
  {
  }

  /** Blocking and unblocking set `isBlocked` of the matched row and leave its
      `isRevoked`, `isExpired`, `isActive` and `usesLeft` alone. */
  lemma BlockFlagsOnly(tokens: seq<Token>, key: string, owner: string, i: nat)
    requires MatchIndex(tokens, key, owner) == Some(i)
    ensures var blocked := UpdateMatched(tokens, key, owner, Blocked);
      && blocked[i].isBlocked
      && blocked[i] == tokens[i].(isBlocked := true)
      && forall j :: 0 <= j < |tokens| && j != i ==> blocked[j] == tokens[j]
    ensures var unblocked := UpdateMatched(tokens, key, owner, Unblocked);
      && !unblocked[i].isBlocked
      && unblocked[i] == tokens[i].(isBlocked := false)
      && forall j :: 0 <= j < |tokens| && j != i ==> unblocked[j] == tokens[j]
  {
  }

  /** Unblocking undoes blocking on a row that was not blocked before. */
  lemma UnblockUndoesBlock(tokens: seq<Token>, key: string, owner: string)
    requires forall j :: 0 <= j < |tokens| && Matches(tokens[j], key, owner) ==> !tokens[j].isBlocked
    ensures UpdateMatched(UpdateMatched(tokens, key, owner, Blocked), key, owner, Unblocked) == tokens
  {
    MatchSurvivesUpdate(tokens, key, owner, Blocked);
  }

  /** `use_token` lowers the matched counter by exactly one; zero is no
      floor, a row at zero goes to minus one. Nothing else changes. */
  lemma UseDecrementsByOne(tokens: seq<Token>, key: string, owner: string, i: nat)
    requires MatchIndex(tokens, key, owner) == Some(i)
    ensures var after := UpdateMatched(tokens, key, owner, Used);
      && after[i].usesLeft == tokens[i].usesLeft - 1
      && after[i] == tokens[i].(usesLeft := after[i].usesLeft)
      && forall j :: 0 <= j < |tokens| && j != i ==> after[j] == tokens[j]
  {
  }

  /** `update_token` replaces the counter and keeps every flag. */
  lemma UpdateSetsCounter(tokens: seq<Token>, key: string, owner: string, i: nat, usesLeft: int)
    requires MatchIndex(tokens, key, owner) == Some(i)
    ensures var after := UpdateMatched(tokens, key, owner, (t: Token) => WithUsesLeft(t, usesLeft));
      && after[i].usesLeft == usesLeft
      && after[i] == tokens[i].(usesLeft := usesLeft)
      && forall j :: 0 <= j < |tokens| && j != i ==> after[j] == tokens[j]
  {
  }

  // ---------------------------------------------------------------------------
  // Row removal and the references it clears
  // ---------------------------------------------------------------------------

  /** The tokens after the user `slackId` is deleted: their owner reference is
      cleared, every other row is untouched. */
  function Orphaned(tokens: seq<Token>, slackId: string): (r: seq<Token>)
    ensures |r| == |tokens|
    ensures forall j :: 0 <= j < |tokens| ==> r[j].owner != Some(slackId)
    ensures forall j :: 0 <= j < |tokens| ==> r[j] == tokens[j] || r[j] == tokens[j].(owner := None)
    ensures forall j :: 0 <= j < |tokens| && tokens[j].owner != Some(slackId) ==> r[j] == tokens[j]
  {
    seq(|tokens|, j requires 0 <= j < |tokens| =>
      if tokens[j].owner == Some(slackId) then tokens[j].(owner := None) else tokens[j])
  }

  /** The usages after the token `key` is deleted: their token reference is
      cleared, every other row is untouched. */
  function Detached(usages: seq<Usage>, key: string): (r: seq<Usage>)
    ensures |r| == |usages|
    ensures forall j :: 0 <= j < |usages| ==> r[j].tokenId != Some(key)
    ensures forall j :: 0 <= j < |usages| ==> r[j] == usages[j] || r[j] == usages[j].(tokenId := None)
    ensures forall j :: 0 <= j < |usages| && usages[j].tokenId != Some(key) ==> r[j] == usages[j]
  {
    seq(|usages|, j requires 0 <= j < |usages| =>
      if usages[j].tokenId == Some(key) then usages[j].(tokenId := None) else usages[j])
  }

  /** With unique keys, removing the row at `i` removes exactly its key. */
  lemma TokenKeysWithout(tokens: seq<Token>, i: nat)
    requires UniqueTokenKeys(tokens) && i < |tokens|
    ensures TokenKeys(Without(tokens, i)) == TokenKeys(tokens) - {tokens[i].key}
  {

  }

  /** With unique keys, removing the row at `i` removes exactly its key. */
  lemma UserKeysWithout(users: seq<User>, i: nat)
    requires UniqueUserKeys(users) && i < |users|
    ensures UserKeys(Without(users, i)) == UserKeys(users) - {users[i].slackId}
  {

  }

  /** Deleting a token (and detaching its usages) keeps the store consistent. */
  lemma DeleteTokenConsistent(users: seq<User>, tokens: seq<Token>, usages: seq<Usage>, i: nat)
    requires Consistent(users, tokens, usages) && i < |tokens|
    ensures Consistent(users, Without(tokens, i), Detached(usages, tokens[i].key))
  {

  }

  /** Deleting a user (and clearing the owner of its tokens) keeps the store
      consistent. */
  lemma DeleteUserConsistent(users: seq<User>, tokens: seq<Token>, usages: seq<Usage>, i: nat)
    requires Consistent(users, tokens, usages) && i < |users|
    ensures Consistent(Without(users, i), Orphaned(tokens, users[i].slackId), usages)
  {

  }

  /** Changing a token row without touching its key or owner, to a counter
      that fits the column, keeps the store consistent. */
  lemma UpdateConsistent(users: seq<User>, tokens: seq<Token>, usages: seq<Usage>, at: Option<nat>, f: Token -> Token)
    requires Consistent(users, tokens, usages)
    requires at.Some? ==> at.value < |tokens| && InIntRange(f(tokens[at.value]).usesLeft)
    requires KeepsIdentity(f)
    ensures Consistent(users, UpdateAt(tokens, at, f), usages)
  {

  }

  /** Renaming a user keeps the store consistent. */
  lemma RenameConsistent(users: seq<User>, tokens: seq<Token>, usages: seq<Usage>, i: nat, name: string)
    requires Consistent(users, tokens, usages) && i < |users|
    ensures Consistent(users[i := users[i].(name := name)], tokens, usages)
  {
    var after := users[i := users[i].(name := name)];
    assert UserKeys(after) == UserKeys(users) by {
      forall k | k in UserKeys(users) ensures k in UserKeys(after) {
        var u :| u in users && u.slackId == k;
        var j :| 0 <= j < |users| && users[j] == u;
        assert after[j].slackId == k;
      }
    }
  }

  /** Appending a user with a new key keeps the store consistent. */
  lemma InsertUserConsistent(users: seq<User>, tokens: seq<Token>, usages: seq<Usage>, u: User)
    requires Consistent(users, tokens, usages) && u.slackId !in UserKeys(users)
    ensures Consistent(users + [u], tokens, usages)
  {

  }

  /** Appending a token with a new key, an existing owner and a counter that
      fits the column keeps the store consistent. */
  lemma InsertTokenConsistent(users: seq<User>, tokens: seq<Token>, usages: seq<Usage>, t: Token)
    requires Consistent(users, tokens, usages)
    requires t.key !in TokenKeys(tokens)
    requires t.owner.Some? ==> t.owner.value in UserKeys(users)
    requires InIntRange(t.usesLeft)
    ensures Consistent(users, tokens + [t], usages)
  {

  }

  // ---------------------------------------------------------------------------
  // The store
  // ---------------------------------------------------------------------------

  /** The three tables, in stored order. */
  class Store {
    var users: seq<User>
    var tokens: seq<Token>
    var usages: seq<Usage>

    ghost predicate Valid()
      reads this
    {
      Consistent(users, tokens, usages)
    }

    /** Opens the store over existing, consistent tables. */
    constructor (users0: seq<User>, tokens0: seq<Token>, usages0: seq<Usage>)
      requires Consistent(users0, tokens0, usages0)
      ensures Valid()
      ensures users == users0 && tokens == tokens0 && usages == usages0
    {
      users, tokens, usages := users0, tokens0, usages0;
    }

    /** `create_user`: inserts a user with the default flags; the primary key
        refuses a second row for the same `slackId`. */
    method CreateUser(slackId: string, name: string, email: string) returns (r: Result<User, CrudError>)
      requires Valid()
      modifies this
      ensures Valid()
      ensures tokens == old(tokens) && usages == old(usages)
      ensures slackId in old(UserKeys(users)) ==> r == Err(DuplicateKey) && users == old(users)
      ensures slackId !in old(UserKeys(users)) ==>
        && r == Ok(NewUser(slackId, name, Some(email)))
        && users == old(users) + [r.value]
    {
      if GetUserBySlackId(users, slackId).Some? {
        return Err(DuplicateKey);
      }
      var u := NewUser(slackId, name, Some(email));
      InsertUserConsistent(users, tokens, usages, u);
      users := users + [u];
      r := Ok(u);
    }

    /** `create_token`: inserts a token with the default flags and quota for
        `owner`. The key is the freshly generated value; the primary key
        refuses one already stored, the foreign key an owner that is not a
        user. */
    method CreateToken(key: string, owner: string) returns (r: Result<Token, CrudError>)
      requires Valid()
      modifies this
      ensures Valid()
      ensures users == old(users) && usages == old(usages)
      ensures key in old(TokenKeys(tokens)) ==> r == Err(DuplicateKey) && tokens == old(tokens)
      ensures key !in old(TokenKeys(tokens)) && owner !in UserKeys(users) ==> r == Err(MissingReference) && tokens == old(tokens)
      ensures key !in old(TokenKeys(tokens)) && owner in UserKeys(users) ==>
        && r == Ok(NewToken(key, Some(owner)))
        && tokens == old(tokens) + [r.value]
    {
      if GetToken(tokens, key).Some? {
        return Err(DuplicateKey);
      }
      if GetUserBySlackId(users, owner).None? {
        return Err(MissingReference);
      }
      var t := NewToken(key, Some(owner));
      InsertTokenConsistent(users, tokens, usages, t);
      tokens := tokens + [t];
      r := Ok(t);
    }

    /** The shared shape of the token mutators: find the row with this key and
        owner, fail with NoMatch if there is none, otherwise commit `f` of it
        and return the stored row. The commit fails with OutOfRange, and
        stores nothing, when the new counter does not fit the column. */
    method ApplyToMatch(key: string, owner: string, f: Token -> Token) returns (r: Result<Token, CrudError>)
      requires Valid() && KeepsIdentity(f)
      modifies this
      ensures Valid()
      ensures users == old(users) && usages == old(usages)
      ensures MatchIndex(old(tokens), key, owner).None? ==> r == Err(NoMatch) && tokens == old(tokens)
      ensures MatchIndex(old(tokens), key, owner).Some? ==>
        var row := f(old(tokens)[MatchIndex(old(tokens), key, owner).value]);
        if InIntRange(row.usesLeft) then r == Ok(row) && tokens == UpdateMatched(old(tokens), key, owner, f)
        else r == Err(OutOfRange) && tokens == old(tokens)
    {
      var at := MatchIndex(tokens, key, owner);
      if at.None? {
        return Err(NoMatch);
      }
      var row := f(tokens[at.value]);
      if !InIntRange(row.usesLeft) {
        return Err(OutOfRange);
      }
      UpdateConsistent(users, tokens, usages, at, f);
      tokens := UpdateAt(tokens, at, f);
      r := Ok(row);
    }

    /** `use_token`: the matched counter goes down by one. Only a row already
        at the column's minimum cannot take the commit. */
    method UseToken(key: string, owner: string) returns (r: Result<Token, CrudError>)
      requires Valid()
      modifies this
      ensures Valid()
      ensures users == old(users) && usages == old(usages)
      ensures MatchIndex(old(tokens), key, owner).None? ==> r == Err(NoMatch) && tokens == old(tokens)
      ensures MatchIndex(old(tokens), key, owner).Some? ==>
        var row := old(tokens)[MatchIndex(old(tokens), key, owner).value];
        if row.usesLeft == MinInt then r == Err(OutOfRange) && tokens == old(tokens)
        else r == Ok(Used(row)) && tokens == UpdateMatched(old(tokens), key, owner, Used)
    {
      ghost var at := MatchIndex(tokens, key, owner);
      if at.Some? {
        assert tokens[at.value] in tokens;
      }
      r := ApplyToMatch(key, owner, Used);
    }

    /** `revoke_token` */
    method RevokeToken(key: string, owner: string) returns (r: Result<Token, CrudError>)
      requires Valid()
      modifies this
      ensures Valid()
      ensures users == old(users) && usages == old(usages)
      ensures tokens == UpdateMatched(old(tokens), key, owner, Revoked)
      ensures MatchIndex(old(tokens), key, owner).None? ==> r == Err(NoMatch)
      ensures MatchIndex(old(tokens), key, owner).Some? ==>
        r == Ok(Revoked(old(tokens)[MatchIndex(old(tokens), key, owner).value]))
    {
      ghost var at := MatchIndex(tokens, key, owner);
      if at.Some? {
        assert tokens[at.value] in tokens;
      }
      r := ApplyToMatch(key, owner, Revoked);
    }

    /** `block_token` */
    method BlockToken(key: string, owner: string) returns (r: Result<Token, CrudError>)
      requires Valid()
      modifies this
      ensures Valid()
      ensures users == old(users) && usages == old(usages)
      ensures tokens == UpdateMatched(old(tokens), key, owner, Blocked)
      ensures MatchIndex(old(tokens), key, owner).None? ==> r == Err(NoMatch)
      ensures MatchIndex(old(tokens), key, owner).Some? ==>
        r == Ok(Blocked(old(tokens)[MatchIndex(old(tokens), key, owner).value]))
    {
      ghost var at := MatchIndex(tokens, key, owner);
      if at.Some? {
        assert tokens[at.value] in tokens;
      }
      r := ApplyToMatch(key, owner, Blocked);
    }

    /** `unblock_token` */
    method UnblockToken(key: string, owner: string) returns (r: Result<Token, CrudError>)
      requires Valid()
      modifies this
      ensures Valid()
      ensures users == old(users) && usages == old(usages)
      ensures tokens == UpdateMatched(old(tokens), key, owner, Unblocked)
      ensures MatchIndex(old(tokens), key, owner).None? ==> r == Err(NoMatch)
      ensures MatchIndex(old(tokens), key, owner).Some? ==>
        r == Ok(Unblocked(old(tokens)[MatchIndex(old(tokens), key, owner).value]))
    {
      ghost var at := MatchIndex(tokens, key, owner);
      if at.Some? {
        assert tokens[at.value] in tokens;
      }
      r := ApplyToMatch(key, owner, Unblocked);
    }

    /** `update_token`: replaces the counter of the matched row; a value
        outside the column is refused at the commit. */
    method UpdateToken(key: string, owner: string, usesLeft: int) returns (r: Result<Token, CrudError>)
      requires Valid()
      modifies this
      ensures Valid()
      ensures users == old(users) && usages == old(usages)
      ensures MatchIndex(old(tokens), key, owner).None? ==> r == Err(NoMatch) && tokens == old(tokens)
      ensures MatchIndex(old(tokens), key, owner).Some? && !InIntRange(usesLeft) ==>
        r == Err(OutOfRange) && tokens == old(tokens)
      ensures MatchIndex(old(tokens), key, owner).Some? && InIntRange(usesLeft) ==>
        && r == Ok(WithUsesLeft(old(tokens)[MatchIndex(old(tokens), key, owner).value], usesLeft))
        && tokens == UpdateMatched(old(tokens), key, owner, (t: Token) => WithUsesLeft(t, usesLeft))
    {
      r := ApplyToMatch(key, owner, (t: Token) => WithUsesLeft(t, usesLeft));
    }

    /** `delete_token`: removes the matched row and returns it; usages that
        referenced it lose the reference. */
    method DeleteToken(key: string, owner: string) returns (r: Result<Token, CrudError>)
      requires Valid()
      modifies this
      ensures Valid()
      ensures users == old(users)
      ensures MatchIndex(old(tokens), key, owner).None? ==>
        r == Err(NoMatch) && tokens == old(tokens) && usages == old(usages)
      ensures MatchIndex(old(tokens), key, owner).Some? ==>
        var i := MatchIndex(old(tokens), key, owner).value;
        && r == Ok(old(tokens)[i])
        && tokens == Without(old(tokens), i)
        && usages == Detached(old(usages), key)
    {
      var at := MatchIndex(tokens, key, owner);
      if at.None? {
        return Err(NoMatch);
      }
      var i := at.value;
      r := Ok(tokens[i]);
      DeleteTokenConsistent(users, tokens, usages, i);
      tokens, usages := Without(tokens, i), Detached(usages, key);
    }

    /** `delete_user`: removes the first user with this key and e-mail and
        returns it; tokens it owned lose their owner. */
    method DeleteUser(slackId: string, email: string) returns (r: Result<User, CrudError>)
      requires Valid()
      modifies this
      ensures Valid()
      ensures usages == old(usages)
      ensures AccountIndex(old(users), slackId, email).None? ==>
        r == Err(NoMatch) && users == old(users) && tokens == old(tokens)
      ensures AccountIndex(old(users), slackId, email).Some? ==>
        var i := AccountIndex(old(users), slackId, email).value;
        && r == Ok(old(users)[i])
        && users == Without(old(users), i)
        && tokens == Orphaned(old(tokens), slackId)
    {
      var at := AccountIndex(users, slackId, email);
      if at.None? {
        return Err(NoMatch);
      }
      var i := at.value;
      r := Ok(users[i]);
      DeleteUserConsistent(users, tokens, usages, i);
      users, tokens := Without(users, i), Orphaned(tokens, slackId);
    }

    /** `update_user`: renames the first user with this key and e-mail. */
    method UpdateUser(slackId: string, email: string, name: string) returns (r: Result<User, CrudError>)
      requires Valid()
      modifies this
      ensures Valid()
      ensures tokens == old(tokens) && usages == old(usages)
      ensures AccountIndex(old(users), slackId, email).None? ==> r == Err(NoMatch) && users == old(users)
      ensures AccountIndex(old(users), slackId, email).Some? ==>
        var i := AccountIndex(old(users), slackId, email).value;
        && r == Ok(old(users)[i].(name := name))
        && users == old(users)[i := r.value]
    {
      var at := AccountIndex(users, slackId, email);
      if at.None? {
        return Err(NoMatch);
      }
      var i := at.value;
      RenameConsistent(users, tokens, usages, i, name);
      users := users[i := users[i].(name := name)];
      r := Ok(users[i]);
    }
  }
}
