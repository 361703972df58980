/** The three persisted record shapes (the `users`, `tokens` and `usages` tables)
    and the column defaults a freshly inserted row receives. Creation timestamps
    are not modelled. */
module Models {
  import opened Wrappers

  /** Default of the `uses_left` column: the quota of a new token. */
  const DefaultUsesLeft: int := 500

  /** The bounds of a PostgreSQL `INTEGER` column (32-bit two's complement),
      the type of `uses_left`: a commit of a value outside them fails. */
  const MinInt: int := -0x8000_0000
  const MaxInt: int := 0x7fff_ffff

  predicate InIntRange(n: int) { MinInt <= n <= MaxInt }

  /** A row of `users`; `slackId` is the primary key, `email` is nullable. */
  datatype User = User(
    slackId: string,
    name: string,
    email: Option<string>,
    isAdmin: bool,
    isClubLeader: bool,
    canUseSuperpowers: bool,
    imageUsageAllowed: bool,
    gpt4UsageAllowed: bool,
    isBanned: bool,
    isActive: bool)

  /** A row of `tokens`; `key` (the `token` column) is the primary key and
      `owner` (the `user_id` column) a nullable reference to `users`. */
  datatype Token = Token(
    key: string,
    owner: Option<string>,
    isActive: bool,
    isRevoked: bool,
    isExpired: bool,
    isBlocked: bool,
    usesLeft: int)

  /** A row of `usages`; `id` is the primary key and `tokenId` a nullable
      reference to `tokens`. */
  datatype Usage = Usage(
    id: int,
    requestData: string,
    responseData: string,
    tokenId: Option<string>,
    endpoint: string)

  /** The user row inserted for a registration: only the key, the name and the
      e-mail are set, every flag takes its column default. */
  function NewUser(slackId: string, name: string, email: Option<string>): (u: User)
    ensures u.slackId == slackId && u.name == name && u.email == email
    ensures !u.isAdmin && !u.isClubLeader && !u.canUseSuperpowers
    ensures u.imageUsageAllowed && !u.gpt4UsageAllowed
    ensures !u.isBanned && u.isActive
  {
    User(slackId, name, email,
         isAdmin := false, isClubLeader := false, canUseSuperpowers := false,
         imageUsageAllowed := true, gpt4UsageAllowed := false,
         isBanned := false, isActive := true)
  }

  /** The token row inserted for a new token: active, none of the three
      disabling flags set, and the default quota. */
  function NewToken(key: string, owner: Option<string>): (t: Token)
    ensures t.key == key && t.owner == owner
    ensures t.isActive && !t.isRevoked && !t.isExpired && !t.isBlocked
    ensures t.usesLeft == DefaultUsesLeft && InIntRange(t.usesLeft)
  {
    Token(key, owner, isActive := true, isRevoked := false, isExpired := false,
          isBlocked := false, usesLeft := DefaultUsesLeft)
  }
}
