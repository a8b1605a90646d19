/** What client resolution, scoped provide and the installer promise, stated
    over the model in VueApollo. */
module VueApolloProperties {
  import opened ApolloTypes
  import opened VueApollo

  // ----- Registry resolution -----

  /** A dictionary, when present, decides the default client on its own: the
      single client is ignored, even when the dictionary has no default entry.
      Only without a dictionary is the single client used. */
  lemma DictionaryShadowsSingleClient(d: Registry, c1: Option<Client>, c2: Option<Client>)
    ensures ResolveDefaultClient(Some(d), c1) == ResolveDefaultClient(Some(d), c2)
    ensures ResolveDefaultClient(Some(d), c1) == Get(d, DefaultKey)
    ensures DefaultKey !in d ==> ResolveDefaultClient(Some(d), c1) == None
    ensures ResolveDefaultClient(None, c1) == c1
  {
  }

  /** Inside a component with a (truthy) id and no injected dictionary, the
      injection error is thrown before the snapshot is ever consulted, even
      when the snapshot holds that id. */
  lemma NamedLookupNeedsInjectedDictionary(res: Resolver, id: ClientId)
    requires res.setup.InsideComponent? && res.setup.injected.clients.None?
    requires id != ""
    ensures ResolveClientWithId(None, id) == Err(NoInjection(id))
    ensures ResolveImpl(res, Some(id)) == Err(NoInjection(id))
    ensures ResolveClient(res, Some(id)) == Err(NoInjection(id))
  {
  }

  // ----- The resolver built by useApolloClient -----

  /** Outside a component only the captured registry is used, under the id
      when it is truthy and under "default" otherwise; the injection error
      never arises there. */
  lemma OutsideUsesOnlySnapshot(res: Resolver, arg: Option<ClientId>)
    requires res.setup.OutsideComponent?
    ensures var id := EffectiveId(res, arg);
            ResolveClient(res, arg)
            == if KeyOf(id) in res.snapshot then Ok(res.snapshot[KeyOf(id)]) else Err(NotFound(NameOf(id)))
    ensures !(ResolveClient(res, arg).Err? && ResolveClient(res, arg).error.NoInjection?)
  {
  }

  /** An empty id is falsy, so it selects the default client in both branches. */
  lemma EmptyIdMeansDefault(res: Resolver)
    ensures ResolveImpl(res, Some("")) == ResolveImpl(res, None)
  {
  }

  /** `resolveClient('')` passes the empty string explicitly, so the default
      parameter does not apply: the default client is resolved whatever id the
      resolver was built with, and a failure names the empty string. */
  lemma ExplicitEmptyIdOverridesConstructionId(res: Resolver)
    ensures ResolveClient(res, Some("")).Ok? <==> ResolveImpl(res, None).Ok? && ResolveImpl(res, None).value.Some?
    ensures ResolveClient(res, Some("")).Ok? ==> ResolveImpl(res, None) == Ok(Some(ResolveClient(res, Some("")).value))
    ensures ResolveImpl(res, None) == Ok(None) ==> ResolveClient(res, Some("")) == Err(NotFound(""))
  {
    EmptyIdMeansDefault(res);
  }

  /** Inside a component, whatever the injected lookup yields wins (a client
      or the injection error), and the snapshot has no say; it is consulted
      only when that lookup yields nothing. */
  lemma InjectedLookupWins(res: Resolver, other: Registry, id: Option<ClientId>)
    requires res.setup.InsideComponent?
    ensures InjectedLookup(res.setup.injected, id) != Ok(None) ==>
              ResolveImpl(res, id) == ResolveImpl(res.(snapshot := other), id)
              && ResolveImpl(res, id) == InjectedLookup(res.setup.injected, id)
    ensures InjectedLookup(res.setup.injected, id) == Ok(None) ==>
              ResolveImpl(res, id) == ResolveImpl(res.(setup := OutsideComponent), id)
  {
  }

  /** Injected and captured registries both hold `id`: the injected client is returned. */
  lemma InjectedClientTakesPriority(res: Resolver, d: Registry, id: ClientId)
    requires res.setup.InsideComponent? && res.setup.injected.clients == Some(d)
    requires id != "" && id in d && id in res.snapshot
    ensures ResolveClient(res, Some(id)) == Ok(d[id])
  {
  }

  /** Injected dictionary without `id`: the captured registry supplies it. This
      is how a registry left current by a provide reaches components. */
  lemma SnapshotFallbackInsideComponent(res: Resolver, d: Registry, id: ClientId)
    requires res.setup.InsideComponent? && res.setup.injected.clients == Some(d)
    requires id != "" && id !in d && id in res.snapshot
    ensures ResolveClient(res, Some(id)) == Ok(res.snapshot[id])
  {
  }

  /** The getter resolves the id given to `useApolloClient` and never yields an
      absent client: either a client that some lookup found, or an error. */
  lemma GetterResolvesConstructionId(res: Resolver)
    ensures ClientOf(res).Ok? ==> ResolveImpl(res, res.clientId) == Ok(Some(ClientOf(res).value))
    ensures ClientOf(res).Err? && ClientOf(res).error.NotFound? ==>
              ClientOf(res).error == NotFound(NameOf(res.clientId))
  {
  }

  /** With no registry anywhere, asking for id `x` fails with an error whose
      message mentions `x`: "not found" outside a component, the injection
      error inside one. This holds for `resolveClient('x')` and for the
      getter of `useApolloClient('x')`. */
  lemma {:induction false} NoRegistriesErrorMentionsId(res: Resolver, id: ClientId)
    requires res.snapshot == map[]
    requires res.setup.OutsideComponent? || res.setup == InsideComponent(EmptyApp)
    requires id != ""
    ensures ResolveClient(res, Some(id)).Err?
    ensures Mentions(Message(ResolveClient(res, Some(id)).error), id)
    ensures res.clientId == Some(id) ==> ClientOf(res).Err? && Mentions(Message(ClientOf(res).error), id)
  {
    var e := ResolveClient(res, Some(id)).error;
    assert Subject(e) == id;
    MessageMentionsSubject(e);
  }

  // ----- Scoped provide -----

  /** Inside the executor of `provideApolloClient(c)`, a resolver built there
      outside a component finds `c`; once the executor has returned, a new
      resolver built outside a component finds nothing and reports "default". */
  method ProvideClientScope(g: ApolloRegistry, c: Client) returns (inside: Result<Client>, after: Result<Client>)
    modifies g
    ensures inside == Ok(c)
    ensures after == Err(NotFound(DefaultKey))
    ensures g.current == map[]
  {
    g.ProvideApolloClient(c);
    inside := g.RunScope((s: Registry) => ClientOf(Resolver(None, s, OutsideComponent)));
    var res := g.UseApolloClient(None, OutsideComponent);
    after := ClientOf(res);
  }

  /** While `provideApolloClients(d)` is in force, a resolver built outside a
      component finds each registered (truthy) id, and an unregistered id fails
      with an error naming it. */
  method ProvideClientsLookup(g: ApolloRegistry, d: Registry) returns (res: Resolver)
    modifies g
    ensures g.current == d
    ensures forall id :: id in d && id != "" ==> ResolveClient(res, Some(id)) == Ok(d[id])
    ensures forall id :: id !in d && id != "" ==> ResolveClient(res, Some(id)) == Err(NotFound(id))
  {
    g.ProvideApolloClients(d);
    res := g.UseApolloClient(None, OutsideComponent);
  }

  /** A resolver keeps the registry it captured: clearing the scope and
      providing another client later changes neither what it resolves nor what
      its getter returns, while a resolver built afterwards outside a component
      sees the new client. */
  method CapturedRegistrySurvivesRebinding(g: ApolloRegistry, c1: Client, c2: Client)
    returns (before: Result<Client>, later: Result<Client>, rebuilt: Result<Client>)
    modifies g
    ensures before == Ok(c1) && later == Ok(c1)
    ensures rebuilt == Ok(c2)
  {
    g.ProvideApolloClient(c1);
    var res := g.UseApolloClient(None, OutsideComponent);
    before := ClientOf(res);
    var _ := g.RunScope((s: Registry) => s);
    g.ProvideApolloClient(c2);
    later := ClientOf(res);
    var res2 := g.UseApolloClient(None, OutsideComponent);
    rebuilt := ClientOf(res2);
  }

  /** The executor can run any callback: it hands back exactly that callback's
      result, and every executor leaves the registry empty, so a resolver
      created after it outside a component sees nothing. */
  method ScopeReturnsCallbackResult<R>(g: ApolloRegistry, clients: Registry, fn: Registry -> R)
    returns (result: R, after: Resolver)
    modifies g
    ensures result == fn(clients)
    ensures g.current == map[]
    ensures forall id :: ResolveImpl(after, Some(id)) == Ok(None)
  {
    g.ProvideApolloClients(clients);
    result := g.RunScope(fn);
    after := g.UseApolloClient(None, OutsideComponent);
  }

  /** During the executor of `provideApolloClients(d)`, a component with no
      injected dictionary cannot reach `d` by id: the named injected lookup
      throws before the snapshot fallback. Only the default client falls back
      to `d`, and only when no single client is injected either. */
  method ProvidedClientsInUninjectedComponent(g: ApolloRegistry, d: Registry, id: ClientId)
    returns (named: Result<Client>, byDefault: Result<Client>)
    requires id != ""
    modifies g
    ensures named == Err(NoInjection(id))
    ensures byDefault == if DefaultKey in d then Ok(d[DefaultKey]) else Err(NotFound(DefaultKey))
    ensures g.current == map[]
  {
    g.ProvideApolloClients(d);
    var both := g.RunScope((s: Registry) =>
      var res := Resolver(None, s, InsideComponent(EmptyApp));
      (ResolveClient(res, Some(id)), ClientOf(res)));
    named, byDefault := both.0, both.1;
  }

  // ----- The installer -----

  /** After `createApollo({clients: d}).install(app)`, a component resolves
      every registered (truthy) id through injection alone, whatever the
      captured registry holds; with a well-typed dictionary the default
      client is its default entry. */
  lemma {:induction false} InstalledClientsResolveInComponent(options: PluginOptions, snapshot: Registry, id: ClientId)
    requires options.clients.Some? && id != "" && id in options.clients.value
    ensures var res := Resolver(None, snapshot, InsideComponent(Install(options, EmptyApp)));
            ResolveClient(res, Some(id)) == Ok(options.clients.value[id])
    ensures WellTypedOptions(options) ==>
              var res := Resolver(None, snapshot, InsideComponent(Install(options, EmptyApp)));
              ClientOf(res) == Ok(options.clients.value[DefaultKey])
  {
  }

  /** After `createApollo({client: c}).install(app)` alone, a component's
      default client is `c`, but any named lookup throws the injection error:
      no dictionary was published, and the captured registry is not tried. */
  lemma InstalledSingleClientOnly(c: Client, snapshot: Registry, id: ClientId)
    requires id != ""
    ensures var res := Resolver(None, snapshot, InsideComponent(Install(PluginOptions(Some(c), None), EmptyApp)));
            ClientOf(res) == Ok(c) && ResolveClient(res, Some(id)) == Err(NoInjection(id))
  {
  }
}
