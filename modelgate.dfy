/** The model-tier gate at the top of the chat-completions forwarder: a request
    for a model on the restricted list is refused with 403 unless the token's
    owner may use those models. It reads the store and changes nothing; it is
    decided before any upstream request exists. */
module ModelGate {
  import opened Wrappers
  import opened Models
  import opened Crud

  /** The restricted model names. */
  const BlockedModels: seq<string> := [
    "gpt-4-turbo-preview", "gpt-4o", "gpt-4-turbo", "gpt-4",
    "gpt-3.5-turbo", "gpt-4-1106-preview", "gpt-4-0613", "gpt-4o-2024-05-13"]

  /** The message of the 403 refusal. */
  const NotAvailable: string := "This model is not available for use at this time."

  /** What the gate decides: go on to the upstream, refuse with a status and a
      message, or fail with an exception (the request has no model entry, or a
      restricted model is asked for through a token whose row or owner row
      cannot be loaded). */
  datatype Gate = Forward | Refused(status: int, message: string) | Fault

  /** The user row a token's owner reference loads, if any. */
  function OwnerOf(users: seq<User>, t: Token): (r: Option<User>)
    ensures r.Some? ==> t.owner.Some? && r.value in users && r.value.slackId == t.owner.value
    ensures r.None? <==> t.owner.None? || t.owner.value !in UserKeys(users)
  {
    match t.owner
    case None => None
    case Some(slackId) => GetUserBySlackId(users, slackId)
  }

  /** The gate for a request naming `model` (None: the request body has no
      model entry) made with the token `key`. The owner is consulted only for
      a restricted model. */
  function CheckModel(users: seq<User>, tokens: seq<Token>, key: string, model: Option<string>): (r: Gate)
    ensures r.Refused? ==> r.status == 403 && r.message == NotAvailable
    ensures r.Refused? ==> model.Some? && model.value in BlockedModels
    ensures model.Some? && model.value !in BlockedModels ==> r == Forward
    ensures r == Fault <==>
      || model.None?
      || (model.value in BlockedModels && (key !in TokenKeys(tokens) || OwnerOf(users, GetToken(tokens, key).value).None?))
  {
    match model
    case None => Fault
    case Some(name) =>
      if name !in BlockedModels then Forward
      else match GetToken(tokens, key)
        case None => Fault
        case Some(t) => match OwnerOf(users, t)
          case None => Fault
          case Some(u) => if u.gpt4UsageAllowed then Forward else Refused(403, NotAvailable)
  }

  /** Over a consistent store and an owned token, the gate refuses exactly a
      restricted model whose owner lacks the permission, and forwards every
      other named model; in particular an owner with the permission passes
      for every model name. */
  lemma GateOnStore(users: seq<User>, tokens: seq<Token>, usages: seq<Usage>, key: string, name: string, i: nat, j: nat)
    requires Consistent(users, tokens, usages)
    requires i < |tokens| && tokens[i].key == key
    requires j < |users| && tokens[i].owner == Some(users[j].slackId)
    ensures CheckModel(users, tokens, key, Some(name)) ==
      if name in BlockedModels && !users[j].gpt4UsageAllowed then Refused(403, NotAvailable) else Forward
  {

  }
}
