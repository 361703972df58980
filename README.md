# OpenAI gateway: token store and quota decisions, in Dafny

This project models the part of the Hack Club OpenAI gateway that holds real
decisions: the store of users and access tokens with its create, lookup,
update and delete operations, the bearer-token check, the per-call charge of
one use on the chat-completions route, the 404 rule of the listing routes, and
the model-tier gate that keeps restricted models from owners without the
`gpt4_usage_allowed` permission.

Layout, one module per source file:

- `wrappers.dfy` (`Wrappers`): `Option` and `Result`.
- `models.dfy` (`Models`): the `User`, `Token` and `Usage` rows and the column
  defaults of a new row (`NewUser`, `NewToken`, `DefaultUsesLeft = 500`),
  and the range of the 32-bit `INTEGER` column `uses_left` (`MinInt`,
  `MaxInt`, `InIntRange`).
- `tables.dfy` (`Tables`): the query primitives of the relational store over
  a table held as its rows in stored order: first match, filter,
  `OFFSET/LIMIT` window, row removal.
- `crud.dfy` (`Crud`): the queries as functions over the tables; the table
  invariant `Consistent` (unique primary keys, foreign keys that resolve,
  counters within their column);
  class `Store`, whose methods are the mutators, each committing by
  reassigning the tables; and the lemmas about the row updates.
- `modelgate.dfy` (`ModelGate`): the restricted-model list and the gate.
- `gateway.dfy` (`Gateway`): `Authenticate`, the read routes, and the
  chat-completions route both as a method on the store
  (`PostChatCompletions`) and as the function it is proved against
  (`ChatCall`).

Modelling choices:

- A table is a sequence of rows. The listing queries have no `ORDER BY`, so
  the model fixes one order, the stored order. Unique keys make each table
  equivalent to a map keyed by its primary key.
- `Token.owner` (`user_id`), `User.email` and `Usage.tokenId` are nullable
  columns, so they are `Option`s. Every mutator matches on `owner ==
  Some(owner_slack_id)`. The source filters on an `owner_slack_id` attribute
  that the `Token` row does not have; the model reads it as the owner column.
- Deleting a row whose children reference it clears the children's
  reference. The `tokens` and `usages` relationships have no delete cascade,
  and the ORM's default then sets the child's foreign key to NULL. This is
  `Orphaned` and `Detached`.
- A row that is not there, when the code goes on to use it (`.first()`
  returned `None`), is the error `NoMatch`. No other row is changed.
- PostgreSQL refuses an `OFFSET` or `LIMIT` that is negative or beyond
  `BIGINT` (`MaxBigInt`, 2^63 - 1). The code passes `skip` and `limit`
  through unchecked, so such values give `BadWindow`, which the route does
  not catch (a server error).
- `skip` and `limit` default to 0 and 100 in `get_users`, `get_tokens` and
  both listing routes. Dafny has no default arguments, so the defaults are
  the constants `DefaultSkip` and `DefaultLimit`, and `DefaultListing`
  states what a listing without arguments returns.
- `uses_left` is a 32-bit `INTEGER` column. The store holds only counters
  in its range, and a commit that would store one outside it fails with
  "integer out of range" and stores nothing. In the store's methods this is
  the error `OutOfRange`, with every table unchanged. On the chat route the
  database error is not a `ValueError`, so nobody catches it: the reply is a
  server error and no use is charged.
- Some cross-references in the source do not resolve, and the model follows
  their evident intent:
  - `crud.check_token` is read as "`get_token` finds a row".
  - `chat_completions` is read as the gate in `openai.py` followed by the
    upstream call.
  - The key of a new token is a parameter of `CreateToken`: the `uuid4`
    value the column default would generate. It is refused if already
    stored.
  - `update_token` takes the key, the owner and the new counter.

Behaviour of the code that the model keeps as written:

- Zero is no floor for the counter. `use_token` and the chat route subtract
  one without a check, and `Authenticate` refuses only a counter equal to
  zero, so a negative counter is accepted (`AuthenticateRow`). Only the
  column's minimum, -2147483648, stops the decrement, as a failed commit.
- A zero counter reports "No uses left" even on a revoked token, because
  that check comes first.
- `Authenticate` reads only the token row. An owner's `is_banned` and
  `is_active` change nothing (`OwnerStatusIgnored`).
- The chat route charges the use before the forwarder runs the model gate.
  A 403 for a restricted model therefore still costs one use
  (`ForbiddenModelStillCharged`). An upstream error costs one use too.
- Pagination is not clamped.
- `create_user` sets only the key, the name and the e-mail. Every flag takes
  its column default, whatever the request carried.

## Model

| member | source | states |
|---|---|---|
| Models.NewUser | open_ai_token/models.py:16-22 | a new user is not admin, club leader or superpowered, may use images but not restricted models, is not banned and is active |
| Models.NewToken | open_ai_token/models.py:31-35 | a new token is active, not revoked, expired or blocked, and has 500 uses |
| Tables.FirstIndex | open_ai_token/crud.py:7 | `.filter(...).first()`: the first row passing the filter, every row before it failing; none exactly when no row passes |
| Tables.Filter | open_ai_token/crud.py:93 | `.filter(...).all()`: exactly the rows passing the filter, each as often as stored, none more |
| Tables.Page | open_ai_token/crud.py:16 | `.offset(skip).limit(limit)`: min(limit, count-skip) rows, none when skip is past the end, the k-th being row skip+k |
| Tables.Without | open_ai_token/crud.py:68 | `db.delete`: one row fewer, the rows before it kept in place and the rows after it moved up by one; the removed row is the only row lost |
| Tables.PagesAdjoin | open_ai_token/crud.py:15-16 | the page of a rows at skip, followed by the page of b rows at skip+a, is the page of a+b rows at skip: no gap and no overlap |
| Tables.PageEmptyIff | open_ai_token/main.py:71-72 | a window is empty exactly when it starts past the last row or its limit is zero |
| Crud.Window | open_ai_token/crud.py:15-16 | refused with BadWindow exactly for an offset or limit that is negative or beyond BIGINT; otherwise at most limit rows, the k-th being stored row skip+k |
| Crud.GetUsers | open_ai_token/crud.py:15-16 | refused exactly for an offset or limit that is negative or beyond BIGINT; otherwise at most limit users, the k-th being stored user skip+k, and exactly min(limit, count-skip) of them when skip is in range |
| Crud.GetTokens | open_ai_token/crud.py:28-29 | the same window law over the token table |
| Crud.GetUserBySlackId | open_ai_token/crud.py:6-7 | a stored user with that key, or none exactly when no user has the key |
| Crud.GetUserByEmail | open_ai_token/crud.py:9-10 | a stored user with that e-mail, or none exactly when no user has it |
| Crud.GetUserBySlackIdAndEmail | open_ai_token/crud.py:12-13 | a stored user with both, or none exactly when no user has both |
| Crud.GetToken | open_ai_token/crud.py:25-26 | a stored token with that key, or none exactly when the key is not stored |
| Crud.Consistent | open_ai_token/models.py:13-47 | the table invariant: unique slack_id, token and usage id; every token owner and usage token reference resolves; every counter lies in the INTEGER range |
| Crud.GetTokenUnique | open_ai_token/crud.py:25-26 | with unique keys, the result is the one row carrying the key |
| Crud.GetTokensByOwner | open_ai_token/crud.py:92-93 | exactly the owner's tokens, each as often as stored |
| Crud.GetTokensByOwnerAndToken | open_ai_token/crud.py:95-96 | a stored row with that key and owner, or none exactly when no row has both |
| Crud.GetTokensByOwnerAndTokenAndUsesLeft | open_ai_token/crud.py:98-99 | the same, also requiring the given counter |
| Crud.GetTokensByOwnerAndTokenAndIsRevoked | open_ai_token/crud.py:101-102 | the same, also requiring the given revoked flag |
| Crud.GetTokensByOwnerAndTokenAndIsBlocked | open_ai_token/crud.py:104-105 | the same, also requiring the given blocked flag |
| Crud.Used | open_ai_token/crud.py:40 | the counter one lower, every other column of the row kept |
| Crud.Revoked | open_ai_token/crud.py:47 | is_revoked set, every other column kept |
| Crud.Blocked | open_ai_token/crud.py:54 | is_blocked set, every other column kept |
| Crud.Unblocked | open_ai_token/crud.py:61 | is_blocked cleared, every other column kept |
| Crud.WithUsesLeft | open_ai_token/crud.py:87 | the counter replaced by the given value, every other column kept |
| Crud.UpdateMatched | open_ai_token/crud.py:39-40 | a token mutator changes only the row matching key and owner, and changes nothing when no row matches |
| Crud.MatchSurvivesUpdate | open_ai_token/crud.py:46-47 | a flag or counter update leaves the same row matched afterwards |
| Crud.RevokeIdempotent | open_ai_token/crud.py:45-50 | revoking twice gives the same table as revoking once |
| Crud.RevokeSetsOnlyRevoked | open_ai_token/crud.py:45-50 | revoking sets is_revoked of the matched row; every other field and row stays |
| Crud.BlockFlagsOnly | open_ai_token/crud.py:52-64 | block sets and unblock clears is_blocked of the matched row; revoked, expired, active, counter and other rows stay |
| Crud.UnblockUndoesBlock | open_ai_token/crud.py:52-64 | on a row that was not blocked, unblocking after blocking restores the table |
| Crud.UseDecrementsByOne | open_ai_token/crud.py:38-43 | use_token lowers the matched counter by exactly one, zero being no floor (0 goes to -1); nothing else changes |
| Crud.UpdateSetsCounter | open_ai_token/crud.py:85-90 | update_token sets the matched counter to the value given and keeps every flag |
| Crud.Orphaned | open_ai_token/models.py:23 | after a user is deleted, no token names it; the tokens it owned lose their owner and no other row changes |
| Crud.Detached | open_ai_token/models.py:38 | after a token is deleted, no usage names it; the usages of that token lose the reference and no other row changes |
| Crud.DeleteTokenConsistent | open_ai_token/crud.py:66-70 | deleting a token and detaching its usages keeps keys unique and references resolving |
| Crud.DeleteUserConsistent | open_ai_token/crud.py:72-76 | deleting a user and orphaning its tokens keeps keys unique and references resolving |
| Crud.UpdateConsistent | open_ai_token/models.py:29-35 | an update that keeps a token's key and owner and leaves its counter in the INTEGER range keeps the store consistent |
| Crud.RenameConsistent | open_ai_token/crud.py:78-83 | renaming a user keeps the store consistent |
| Crud.InsertUserConsistent | open_ai_token/models.py:13 | a user with a key not yet stored can be appended without breaking key uniqueness |
| Crud.InsertTokenConsistent | open_ai_token/models.py:29-35 | a token with a new key, an existing owner and a counter in the INTEGER range can be appended consistently |
| Crud.Store.CreateUser | open_ai_token/crud.py:18-23 | an existing key is refused and nothing is stored; otherwise the user with default flags is appended and returned |
| Crud.Store.CreateToken | open_ai_token/crud.py:31-36 | a stored key or an unknown owner is refused and nothing is stored; otherwise the default token is appended and returned |
| Crud.Store.UseToken | open_ai_token/crud.py:38-43 | the matched row gets one use fewer and is returned; a row at the INTEGER minimum gives OutOfRange and no change; NoMatch and no change without a match |
| Crud.Store.RevokeToken | open_ai_token/crud.py:45-50 | the matched row becomes revoked and is returned; NoMatch and no change without a match |
| Crud.Store.BlockToken | open_ai_token/crud.py:52-57 | the matched row becomes blocked and is returned; NoMatch and no change without a match |
| Crud.Store.UnblockToken | open_ai_token/crud.py:59-64 | the matched row becomes unblocked and is returned; NoMatch and no change without a match |
| Crud.Store.DeleteToken | open_ai_token/crud.py:66-70 | the matched row is removed and returned; its usages are detached; NoMatch and no change without a match |
| Crud.Store.DeleteUser | open_ai_token/crud.py:72-76 | the first user with that key and e-mail is removed and returned; its tokens lose their owner; NoMatch and no change without a match |
| Crud.Store.UpdateUser | open_ai_token/crud.py:78-83 | the first user with that key and e-mail gets the new name; NoMatch and no change without a match |
| Crud.Store.UpdateToken | open_ai_token/crud.py:85-90 | the matched row gets the given counter and is returned; a value outside the INTEGER range gives OutOfRange and no change; NoMatch and no change without a match |
| Crud.Store.ApplyToMatch | open_ai_token/crud.py:38-64 | the shape of every token mutator: NoMatch without a match; OutOfRange and no change when the updated row's counter leaves the INTEGER range; otherwise only the matched row is updated and it is returned |
| ModelGate.OwnerOf | open_ai_token/models.py:37 | a token's owner row, absent exactly when the token has no owner or the owner is not stored |
| ModelGate.CheckModel | open_ai_token/openai.py:45-49 | a refusal is always 403 with the fixed message, and only for a listed model; an unlisted model always passes; an exception arises exactly for a missing model entry, or for a listed model whose token or owner cannot be loaded |
| ModelGate.GateOnStore | open_ai_token/openai.py:45-49 | over a consistent store, a named model is refused exactly when listed and the owner lacks the permission; with the permission every model passes |
| Gateway.Enabled | open_ai_token/main.py:53 | none of the four flags stands in the way: active, not expired, not revoked, not blocked |
| Gateway.Authenticate | open_ai_token/main.py:43-54 | "Invalid token" exactly when the key is not stored; "No uses left", "expired or disabled" and acceptance each only on a stored row with zero uses, a disabling flag, or non-zero uses and no such flag respectively |
| Gateway.AuthenticateRow | open_ai_token/main.py:51-54 | on a stored key: "No uses left" exactly when the counter is zero (first, whatever the flags), else "expired or disabled" exactly when a flag is against it, else accepted, a negative counter included |
| Gateway.AuthenticateAcceptsIff | open_ai_token/main.py:43-54 | with unique keys, accepted if and only if some row has the key, a non-zero counter and no disabling flag |
| Gateway.UnknownTokenRejected | open_ai_token/main.py:46-50 | every key that is not stored is refused as an invalid token, and the chat call answers with that error body and charges nothing |
| Gateway.ReadUsers | open_ai_token/main.py:68-73 | 404 "No users found" exactly when the window is empty, a server error exactly for an offset or limit that is negative or beyond BIGINT, otherwise the non-empty window |
| Gateway.ReadTokens | open_ai_token/main.py:89-94 | 404 "No tokens found" exactly when the window is empty, a server error exactly for an offset or limit that is negative or beyond BIGINT, otherwise the non-empty window |
| Gateway.DefaultListing | open_ai_token/main.py:69-72 | a listing without arguments (skip 0, limit 100) is a 404 exactly when the table is empty and otherwise returns its first hundred rows |
| Gateway.ReadUser | open_ai_token/main.py:75-80 | 404 "User not found" exactly when the key is not stored, otherwise a user with that key |
| Gateway.ReadToken | open_ai_token/main.py:82-87 | 404 "Token not found" exactly when the key is not stored, otherwise a token with that key |
| Gateway.Completions | open_ai_token/openai.py:47-53 | the gate's refusal is passed on as the pair with its status; a pass hands on the upstream answer unchanged; a gate exception yields no pair |
| Gateway.Respond | open_ai_token/main.py:124-127 | a status other than 200 is raised with that same status and the body as detail; 200 returns the body |
| Gateway.ChatCall | open_ai_token/main.py:109-132 | the table changes exactly when the token is accepted and its lowered counter fits the column; a refused token gets the error body with its message; an accepted token whose counter cannot go lower gets a server error; otherwise the reply is what the gate and the upstream decide on the table before the charge: 200 returns the body, another status is raised, a gate exception is a server error |
| Gateway.ChargeKeepsGate | open_ai_token/main.py:121-124 | charging the use does not change what the gate decides |
| Gateway.AcceptedCallChargesOnce | open_ai_token/main.py:116-122 | over a consistent store, an accepted call lowers its own token's counter by exactly one, whatever the reply, and no other row changes; a counter at the INTEGER minimum is left as it is |
| Gateway.UpstreamErrorPassedThrough | open_ai_token/main.py:121-126 | when the gate passes, an upstream status other than 200 reaches the caller with the same status and body, with the use still charged; if the charge cannot be committed, a server error and no charge |
| Gateway.ForbiddenModelStillCharged | open_ai_token/main.py:116-126 | a restricted model without the permission gets 403 with the fixed message, and the use is charged all the same; only a counter at the INTEGER minimum gives a server error instead, with no charge |
| Gateway.OwnerStatusIgnored | open_ai_token/main.py:43-54 | banning or deactivating a user changes nothing about what the route does |
| Gateway.PostChatCompletions | open_ai_token/main.py:109-132 | the method leaves the store consistent, changes only the token table, and gives exactly the table and reply of ChatCall, including the failed commit |
| Gateway.FreshUseRevoke | open_ai_token/crud.py:38-50 | a new token is accepted; one use leaves 499; after revoking it is refused as expired or disabled |

## Left out

- The upstream provider is outside the model. The HTTP calls, chunked
  streaming and the other forwarders (models, images, embeddings,
  fine-tuning, batches) are not modelled. Its answer is a parameter
  (`Upstream`: status and body).
- A pass of the gate returns a stream in the source, not a (body, status)
  pair. The model reads it as the upstream's pair, so no upstream error is
  raised in the middle of a stream.
- The web framework is not modelled: app setup, CORS, documentation flags,
  dependency injection, bearer-header parsing, and the `register` and `POST
  /token` routes, which only call `create_user` and `create_token`.
- Sessions, engine, commit and refresh are not modelled. Each commit is one
  assignment to the tables, and a commit fails only for the reasons the
  model names (a repeated key, a missing owner, a counter out of range).
  What happens to the session after a failed commit is not modelled.
  Creation timestamps are left out.
- Concurrency is not modelled, and the model runs one call at a time. The
  source's read-then-write decrement has no lock, but the model states no
  atomicity it could break.
- Gateway.PostChatCompletions: the route fetches the token again after
  authenticating and fails with "Token not found" if it is gone. In a
  sequential model this cannot happen, so that branch is not modelled.
- No operation of the core writes a `Usage` row. Usages are modelled only as
  a table whose references a token deletion clears.
- Schema validation (`schemas.py`) is not modelled. A request's `model`
  entry is `Option<string>`, and a missing entry is a server error.
