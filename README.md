# Client lookup for the Vue integration of Apollo

This project models `useApolloClient.ts` of the vue-apollo composables and
proves properties of the model. The file lets a component, or code outside
any component, find an Apollo client instance. It looks in two places:

- the component tree's injections: a dictionary of named clients and/or a
  single default client, published by the `createApollo(...).install` plugin;
- a module-level registry `currentApolloClients`, which `provideApolloClient`
  and `provideApolloClients` set and whose executor clears after running a
  callback.

Files:

- `apollo_types.dfy` (module `ApolloTypes`): clients as opaque identities,
  registries as `map<string, Client>`, `Option`, the two errors and their
  message texts.
- `use_apollo_client.dfy` (module `VueApollo`): `resolveDefaultClient`,
  `resolveClientWithId`, the resolver `useApolloClient` returns (its two
  `resolveImpl` closures, `resolveClient`, the `client` getter), the
  module-level registry as class `ApolloRegistry` with the provide
  functions and their executor, and the installer.
- `properties.dfy` (module `VueApolloProperties`): lemmas about resolution
  and the installer, and methods that run provide scopes against
  `ApolloRegistry` and prove what resolvers see.

Modelling choices:

- `getCurrentInstance()` and the two `inject(..., null)` calls become the
  `Setup` datatype: `OutsideComponent`, or `InsideComponent(injected)` where
  `injected` holds the two injected values as `Option`s. The two Symbol keys
  become the two fields of `Injection`.
- An absent id (`undefined`) is `None`. JavaScript truthiness of `if (id)` is
  `Truthy`: `undefined` and `""` select the default client.
- The default parameter of `resolveClient` applies only to `undefined`:
  `resolveClient('')` resolves the default client even when the resolver was
  built with another id, and its "not found" error names `''`, because
  `'' ?? 'default'` is `''`.
- A thrown error is `Err(...)` of `Result`. `resolveImpl` may throw only the
  injection error; `resolveClient` adds "not found".
- `useApolloClient` captures the registry when it is called (line 41). The
  resolver is a datatype value holding that capture, so provide calls and
  scope clears made later do not change what it resolves. The `client`
  getter re-runs resolution on every access, but against that capture, so a
  registry change made after `useApolloClient` returned is not observed by
  the getter. The model follows the code here.
- The executor returned by both provide functions is `ApolloRegistry.RunScope`.
  The two executors have identical bodies. The callback is a function of the
  registry in force while it runs, so it can build resolvers that capture it.

## Model

| member | source | states |
|---|---|---|
| `VueApollo.ResolveDefaultClient` | projects/graphql/packages/vue-apollo/src/composable/useApolloClient.ts:23-28 | with a dictionary, the result is the dictionary's `default` entry, present exactly when the dictionary has one; without a dictionary, the result is the single provided client |
| `VueApolloProperties.DictionaryShadowsSingleClient` | projects/graphql/packages/vue-apollo/src/composable/useApolloClient.ts:23-27 | a present dictionary alone decides the default lookup and the single client has no effect, even when the dictionary lacks `default`; the single client is used only when there is no dictionary |
| `VueApollo.ResolveClientWithId` | projects/graphql/packages/vue-apollo/src/composable/useApolloClient.ts:30-35 | throws exactly when there is no dictionary, and that error names the requested id; otherwise yields the dictionary's entry for the id, which is present exactly when the id is a key |
| `VueApolloProperties.NamedLookupNeedsInjectedDictionary` | projects/graphql/packages/vue-apollo/src/composable/useApolloClient.ts:56-61 | inside a component with a non-empty id and no injected dictionary, `resolveImpl` and `resolveClient` throw the injection error naming the id, before any snapshot fallback, even when the snapshot holds the id |
| `VueApollo.SnapshotLookup` | projects/graphql/packages/vue-apollo/src/composable/useApolloClient.ts:43-49 | outside a component the lookup never throws and yields the captured registry's entry for the id, or for `default` when the id is falsy |
| `VueApollo.InjectedLookup` | projects/graphql/packages/vue-apollo/src/composable/useApolloClient.ts:52-57 | the injected lookup (lines 52-53 and 57, and the default lookup of line 63) throws exactly when the id is truthy and no dictionary is injected; otherwise it yields the dictionary's entry for the id or `default`, or the single injected client when there is no dictionary |
| `VueApollo.ResolveImpl` | projects/graphql/packages/vue-apollo/src/composable/useApolloClient.ts:43-69 | outside a component only the snapshot is used; inside, an injected client or an injection error is the answer, and the snapshot is consulted only when the injected lookup yields nothing |
| `VueApolloProperties.OutsideUsesOnlySnapshot` | projects/graphql/packages/vue-apollo/src/composable/useApolloClient.ts:43-49 | outside a component `resolveClient` returns the snapshot's client for the key, or "not found" naming `id ?? 'default'`; the injection error cannot arise there |
| `VueApolloProperties.EmptyIdMeansDefault` | projects/graphql/packages/vue-apollo/src/composable/useApolloClient.ts:45-56 | an empty id is treated as the default id in both `resolveImpl` branches |
| `VueApolloProperties.InjectedLookupWins` | projects/graphql/packages/vue-apollo/src/composable/useApolloClient.ts:55-68 | inside a component, when the injected lookup yields a client or throws, the snapshot cannot change the outcome; when it yields nothing, the outcome is the outside-component lookup on the snapshot |
| `VueApolloProperties.InjectedClientTakesPriority` | projects/graphql/packages/vue-apollo/src/composable/useApolloClient.ts:56-59 | when both the injected dictionary and the snapshot hold an id, the injected client is returned |
| `VueApolloProperties.SnapshotFallbackInsideComponent` | projects/graphql/packages/vue-apollo/src/composable/useApolloClient.ts:56-61 | when the injected dictionary lacks an id that the snapshot holds, the snapshot's client is returned |
| `VueApollo.ResolveClient` | projects/graphql/packages/vue-apollo/src/composable/useApolloClient.ts:71-81 | returns a client exactly when `resolveImpl` found one; the injection error passes through unchanged; "not found" is raised exactly when `resolveImpl` yields nothing, naming `id ?? 'default'` |
| `VueApolloProperties.ExplicitEmptyIdOverridesConstructionId` | projects/graphql/packages/vue-apollo/src/composable/useApolloClient.ts:71-77 | `resolveClient('')` resolves the default client whatever id the resolver was built with, and a failure names the empty string |
| `VueApollo.ClientOf` | projects/graphql/packages/vue-apollo/src/composable/useApolloClient.ts:85-87 | the `client` getter resolves the id given to `useApolloClient` |
| `VueApolloProperties.GetterResolvesConstructionId` | projects/graphql/packages/vue-apollo/src/composable/useApolloClient.ts:71-87 | the getter's result is a client that `resolveImpl` found for the construction id, or "not found" naming `clientId ?? 'default'`, or the injection error; never an absent value |
| `ApolloTypes.MessageMentionsSubject` | projects/graphql/packages/vue-apollo/src/composable/useApolloClient.ts:30-35 | each error message (lines 32 and 74-78) contains the id the error is about |
| `VueApolloProperties.NoRegistriesErrorMentionsId` | projects/graphql/packages/vue-apollo/src/composable/useApolloClient.ts:71-81 | with no registry anywhere, asking for a non-empty id fails with a message mentioning that id, inside or outside a component, both through `resolveClient(id)` and through the getter of a resolver built with that id |
| `VueApollo.ApolloRegistry.constructor` | projects/graphql/packages/vue-apollo/src/composable/useApolloClient.ts:16 | the module-level registry starts empty |
| `VueApollo.ApolloRegistry.UseApolloClient` | projects/graphql/packages/vue-apollo/src/composable/useApolloClient.ts:37-41 | the resolver captures the registry current at the call, with the given id and setup; outside a component it resolves every id from that capture |
| `VueApollo.ApolloRegistry.ProvideApolloClient` | projects/graphql/packages/vue-apollo/src/composable/useApolloClient.ts:91-94 | the registry becomes exactly `{default: client}` |
| `VueApollo.ApolloRegistry.ProvideApolloClients` | projects/graphql/packages/vue-apollo/src/composable/useApolloClient.ts:102-103 | the registry becomes the given dictionary |
| `VueApollo.ApolloRegistry.RunScope` | projects/graphql/packages/vue-apollo/src/composable/useApolloClient.ts:95-99 | the executor (also lines 104-108) returns the callback's result computed with the registry in force, and leaves the registry equal to `{}` |
| `VueApolloProperties.ProvideClientScope` | projects/graphql/packages/vue-apollo/src/composable/useApolloClient.ts:91-99 | a resolver built outside a component inside the executor of `provideApolloClient(c)` finds `c`; one built outside a component after it fails with "not found" naming `default` |
| `VueApolloProperties.ProvidedClientsInUninjectedComponent` | projects/graphql/packages/vue-apollo/src/composable/useApolloClient.ts:55-68 | while `provideApolloClients(d)` is in force, a resolver built inside a component with nothing injected throws the injection error for every non-empty id, even one in `d`; its default client falls back to `d`'s `default` entry, or fails naming `default` |
| `VueApolloProperties.ProvideClientsLookup` | projects/graphql/packages/vue-apollo/src/composable/useApolloClient.ts:102-103 | while `provideApolloClients(d)` is in force, for a resolver built outside a component, every non-empty registered id resolves to its client and every unregistered one fails naming that id |
| `VueApolloProperties.CapturedRegistrySurvivesRebinding` | projects/graphql/packages/vue-apollo/src/composable/useApolloClient.ts:41 | a resolver keeps answering from its capture after the scope is cleared and another client is provided, while a resolver built afterwards outside a component sees the new client |
| `VueApolloProperties.ScopeReturnsCallbackResult` | projects/graphql/packages/vue-apollo/src/composable/useApolloClient.ts:102-108 | the executor of `provideApolloClients` returns the callback's result computed with the provided registry, and afterwards nothing resolves by id for a resolver built outside a component |
| `VueApollo.Install` | projects/graphql/packages/vue-apollo/src/composable/useApolloClient.ts:119-126 | `client` and `clients` are each published only when present; a missing option leaves what the app already provides under that key |
| `VueApolloProperties.InstalledClientsResolveInComponent` | projects/graphql/packages/vue-apollo/src/composable/useApolloClient.ts:119-126 | after installing a dictionary, a component resolves each non-empty registered id from injection alone, whatever the captured registry holds, and, when the dictionary has a `default` entry as its type demands, its default client is that entry |
| `VueApolloProperties.InstalledSingleClientOnly` | projects/graphql/packages/vue-apollo/src/composable/useApolloClient.ts:121-123 | after installing only a single client, a component's default client is that client, and every named lookup throws the injection error without trying the captured registry |

## Left out

- Vue itself: `getCurrentInstance`, `inject` and `app.provide` become plain inputs (`Setup`, `Injection`). An app's provides are a value that `Install` returns updated, rather than a mutated `App` object. Provides made by intermediate components, which `inject` would find before the app's, are not modelled.
- ApolloClient internals and the TypeScript cache-shape generics: a client is an opaque identity.
- Keys that a JavaScript property lookup finds on `Object.prototype` (such as `constructor` or `toString`) are not modelled: a lookup finds only the registry's own keys.
- The callback run by an executor is a pure function of the registry in force. It cannot itself call a provide function or the executor. Its exceptions are not modelled; since there is no `try`/`finally`, a throwing callback would leave the registry set.
- Nested, reentrant or concurrent scopes: execution is single-threaded and synchronous. Each `RunScope` just reads and then clears the one registry.
- Aliasing of the dictionary passed to `provideApolloClients`: the model copies it by value, so the caller's later mutations are not seen.
- The executor is not returned as a closure value. Both provide functions' executors have the same body, so a single `RunScope` method stands for both.
- The unused imports `RenderPromises` and `isServer` (lines 4-5), and server-side rendering.
- The TypeScript requirement that `clients` carries a `default` entry is the predicate `WellTypedOptions`. `Install` neither checks nor demands it.
