/** Client lookup for the Vue integration of Apollo: resolving a client from
    the component tree's injections or from the registry made current by a
    scoped provide, the module-level registry itself, and the plugin installer. */
module VueApollo {
  import opened ApolloTypes

  /** What a component sees through `inject(ApolloClients, null)` (`clients`)
      and `inject(DefaultApolloClient, null)` (`client`); equally, what an
      app has published under those two keys. */
  datatype Injection = Injection(clients: Option<Registry>, client: Option<Client>)

  /** Whether `useApolloClient` runs inside a component setup
      (`getCurrentInstance()` is non-null), and if so what is injected there. */
  datatype Setup = OutsideComponent | InsideComponent(injected: Injection)

  /** JavaScript truthiness of an optional id: `undefined` and `""` are falsy. */
  predicate Truthy(id: Option<ClientId>)
  {
    id.Some? && id.value != ""
  }

  /** The registry key that a lookup for `id` uses: a falsy id means the default client. */
  function KeyOf(id: Option<ClientId>): (k: ClientId)
  {
    if Truthy(id) then id.value else DefaultKey
  }

  /** `resolveDefaultClient`: the dictionary's default entry when a dictionary
      exists (even if it has none), else the single client. */
  function ResolveDefaultClient(providedClients: Option<Registry>, providedClient: Option<Client>): (r: Option<Client>)
    ensures providedClients.Some? ==> (r.Some? <==> DefaultKey in providedClients.value)
    ensures providedClients.Some? ==> r == Get(providedClients.value, DefaultKey)
    ensures providedClients.None? ==> r == providedClient
  {
    match providedClients
    case Some(d) => Get(d, DefaultKey)
    case None => providedClient
  }

  /** `resolveClientWithId`: a named lookup, which throws when there is no dictionary. */
  function ResolveClientWithId(providedClients: Option<Registry>, clientId: ClientId): (r: Result<Option<Client>>)
    ensures r.Err? <==> providedClients.None?
    ensures r.Err? ==> r.error == NoInjection(clientId)
    ensures r.Ok? ==> (r.value.Some? <==> clientId in providedClients.value)
    ensures providedClients.Some? ==> r == Ok(Get(providedClients.value, clientId))
  {
    match providedClients
    case None => Err(NoInjection(clientId))
    case Some(d) => Ok(Get(d, clientId))
  }

  /** The object `useApolloClient(clientId)` returns: the id given to it, the
      registry that was current when it was called, and where it was called. */
  datatype Resolver = Resolver(clientId: Option<ClientId>, snapshot: Registry, setup: Setup)

  /** The `resolveImpl` closure installed outside a component: a lookup in the
      captured registry only. The registry is never null, so it never throws. */
  function SnapshotLookup(snapshot: Registry, id: Option<ClientId>): (r: Result<Option<Client>>)
    ensures r == Ok(Get(snapshot, KeyOf(id)))
  {
    if Truthy(id) then ResolveClientWithId(Some(snapshot), id.value)
    else Ok(ResolveDefaultClient(Some(snapshot), Get(snapshot, DefaultKey)))
  }

  /** The first step of the `resolveImpl` closure installed inside a component:
      a lookup in what was injected. */
  function InjectedLookup(injected: Injection, id: Option<ClientId>): (r: Result<Option<Client>>)
    ensures r.Err? <==> Truthy(id) && injected.clients.None?
    ensures r.Err? ==> r.error == NoInjection(id.value)
    ensures Truthy(id) && injected.clients.Some? ==> r == Ok(Get(injected.clients.value, id.value))
    ensures !Truthy(id) && injected.clients.Some? ==> r == Ok(Get(injected.clients.value, DefaultKey))
    ensures !Truthy(id) && injected.clients.None? ==> r == Ok(injected.client)
  {
    if Truthy(id) then ResolveClientWithId(injected.clients, id.value)
    else Ok(ResolveDefaultClient(injected.clients, injected.client))
  }

  /** `resolveImpl(id)`: the captured snapshot alone outside a component;
      inside one, the injected lookup, falling back to the snapshot only when
      that lookup finds nothing. */
  function ResolveImpl(res: Resolver, id: Option<ClientId>): (r: Result<Option<Client>>)
    ensures res.setup.OutsideComponent? ==> r == Ok(Get(res.snapshot, KeyOf(id)))
    ensures res.setup.InsideComponent? && InjectedLookup(res.setup.injected, id).Err? ==>
              r == InjectedLookup(res.setup.injected, id)
    ensures res.setup.InsideComponent? && InjectedLookup(res.setup.injected, id) == Ok(None) ==>
              r == Ok(Get(res.snapshot, KeyOf(id)))
    ensures res.setup.InsideComponent? && InjectedLookup(res.setup.injected, id).Ok?
              && InjectedLookup(res.setup.injected, id).value.Some? ==>
              r == InjectedLookup(res.setup.injected, id)
  {
    match res.setup
    case OutsideComponent => SnapshotLookup(res.snapshot, id)
    case InsideComponent(injected) =>
      match InjectedLookup(injected, id)
      case Err(e) => Err(e)
      case Ok(Some(c)) => Ok(Some(c))
      case Ok(None) => SnapshotLookup(res.snapshot, id)
  }

  /** The id `resolveClient(arg)` works with: `arg`, or the id given to
      `useApolloClient` when `arg` is `undefined` (a default parameter). */
  function EffectiveId(res: Resolver, arg: Option<ClientId>): (id: Option<ClientId>)
  {
    if arg.None? then res.clientId else arg
  }

  /** The name a "not found" error reports: `id ?? 'default'`. */
  function NameOf(id: Option<ClientId>): (n: string)
  {
    match id
    case Some(s) => s
    case None => DefaultKey
  }

  /** `resolveClient(arg)`: a client that is present, or an error; an absent
      result of `resolveImpl` becomes "not found". */
  function ResolveClient(res: Resolver, arg: Option<ClientId>): (r: Result<Client>)
    ensures r.Ok? ==> ResolveImpl(res, EffectiveId(res, arg)) == Ok(Some(r.value))
    ensures ResolveImpl(res, EffectiveId(res, arg)).Ok? && ResolveImpl(res, EffectiveId(res, arg)).value.Some? ==>
              r == Ok(ResolveImpl(res, EffectiveId(res, arg)).value.value)
    ensures r.Err? && r.error.NoInjection? <==> ResolveImpl(res, EffectiveId(res, arg)).Err?
    ensures r.Err? && r.error.NoInjection? ==> r.error == ResolveImpl(res, EffectiveId(res, arg)).error
    ensures r.Err? && r.error.NotFound? <==> ResolveImpl(res, EffectiveId(res, arg)) == Ok(None)
    ensures r.Err? && r.error.NotFound? ==> r.error.name == NameOf(EffectiveId(res, arg))
  {
    var id := EffectiveId(res, arg);
    match ResolveImpl(res, id)
    case Err(e) => Err(e)
    case Ok(None) => Err(NotFound(NameOf(id)))
    case Ok(Some(c)) => Ok(c)
  }

  /** The `client` getter: `resolveClient()` with no argument. */
  function ClientOf(res: Resolver): (r: Result<Client>)
    ensures r == ResolveClient(res, res.clientId)
  {
    ResolveClient(res, None)
  }

  /** The module's mutable state: the variable `currentApolloClients`. */
  class ApolloRegistry {
    var current: Registry

    /** Module load: the registry starts empty. */
    constructor ()
      ensures current == map[]
    {
      current := map[];
    }

    /** `provideApolloClient(client)`: the registry becomes exactly `{default: client}`. */
    method ProvideApolloClient(client: Client)
      modifies this
      ensures current == map[DefaultKey := client]
    {
      current := map[DefaultKey := client];
    }

    /** `provideApolloClients(clients)`: the registry becomes `clients`. */
    method ProvideApolloClients(clients: Registry)
      modifies this
      ensures current == clients
    {
      current := clients;
    }

    /** The executor both provide functions return: runs the callback `fn`
        with the registry as it stands, then resets the registry to `{}` and
        returns the callback's result. */
    method RunScope<R>(fn: Registry -> R) returns (result: R)
      modifies this
      ensures result == fn(old(current))
      ensures current == map[]
    {
      result := fn(current);
      current := map[];
    }

    /** `useApolloClient(clientId)`: a resolver that captures the registry
        current at this call; its answers depend on that capture only. */
    method UseApolloClient(clientId: Option<ClientId>, setup: Setup) returns (res: Resolver)
      ensures res.snapshot == current && res.clientId == clientId && res.setup == setup
      ensures setup.OutsideComponent? ==>
                forall id :: ResolveImpl(res, Some(id)) == Ok(Get(current, KeyOf(Some(id))))
    {
      res := Resolver(clientId, current, setup);
    }
  }

  /** The options given to `createApollo`. */
  datatype PluginOptions = PluginOptions(client: Option<Client>, clients: Option<Registry>)

  /** The type of `clients` demands a default entry. */
  predicate WellTypedOptions(options: PluginOptions)
  {
    options.clients.Some? ==> DefaultKey in options.clients.value
  }

  /** `createApollo(options).install(app)`: publishes each option that is
      present into the app's provides and leaves the other key as it was. */
  function Install(options: PluginOptions, app: Injection): (r: Injection)
    ensures options.client.Some? ==> r.client == options.client
    ensures options.client.None? ==> r.client == app.client
    ensures options.clients.Some? ==> r.clients == options.clients
    ensures options.clients.None? ==> r.clients == app.clients
  {
    var withClient := if options.client.Some? then app.(client := options.client) else app;
    if options.clients.Some? then withClient.(clients := options.clients) else withClient
  }

  /** An app before anything is installed into it. */
  const EmptyApp: Injection := Injection(None, None)
}
