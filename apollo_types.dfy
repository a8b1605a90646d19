/** Values shared by the client-lookup model: clients, client registries,
    optional values, and the two errors that client resolution can raise. */
module ApolloTypes {

  /** An ApolloClient instance. Its internals are out of scope; only its
      identity matters, and `handle` tells distinct instances apart. */
  datatype Client = Client(handle: nat)

  type ClientId = string

  /** A `ClientDict`: client instances keyed by client id. */
  type Registry = map<ClientId, Client>

  /** The reserved key under which the default client is registered. */
  const DefaultKey: ClientId := "default"

  /** A JavaScript value that may be `null` or `undefined` (`None`). */
  datatype Option<+T> = None | Some(value: T)

  /** The two errors thrown during resolution. */
  datatype ClientError =
    | NoInjection(clientId: ClientId)  // a named client was asked for, but no dictionary exists
    | NotFound(name: string)           // nothing was found; `name` is the id asked for, or "default"

  /** A computation that either yields a value or throws a `ClientError`. */
  datatype Result<+T> = Ok(value: T) | Err(error: ClientError)

  /** Property access `dict[key]` on a dictionary: `undefined` when the key is absent. */
  function Get(m: Registry, key: ClientId): (r: Option<Client>)
  {
    if key in m then Some(m[key]) else None
  }

  /** The text of the `Error` thrown for each kind of failure. */
  function Message(e: ClientError): (m: string)
  {
    match e
    case NoInjection(id) =>
      "No apolloClients injection found, tried to resolve '" + id + "' clientId"
    case NotFound(name) =>
      "Apollo client with id " + name
      + " not found. Use provideApolloClient() if you are outside of a component setup."
  }

  /** The id an error reports. */
  function Subject(e: ClientError): (s: string)
  {
    match e
    case NoInjection(id) => id
    case NotFound(name) => name
  }

  /** `t` occurs in `s` starting at index `k`. */
  predicate OccursAt(s: string, t: string, k: int)
  {
    0 <= k <= |s| - |t| && s[k..k + |t|] == t
  }

  /** `t` occurs in `s` as a contiguous substring. */
  ghost predicate Mentions(s: string, t: string)
  {
    exists k :: OccursAt(s, t, k)
  }

  /** Every error message names the client id it is about. */
  lemma {:induction false} MessageMentionsSubject(e: ClientError)
    ensures Mentions(Message(e), Subject(e))
  {
    match e
    case NoInjection(id) =>
      var prefix := "No apolloClients injection found, tried to resolve '";
      assert OccursAt(Message(e), id, |prefix|);
    case NotFound(name) =>
      var prefix := "Apollo client with id ";
      assert OccursAt(Message(e), name, |prefix|);
  }
}
