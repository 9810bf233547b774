# axios-hooks-mock, modelled in Dafny

`AxiosHooksMock` is a registry that stands in for the `useAxios` hook in
tests. It is written in TypeScript, and this project models it in Dafny. The
mock maps composite keys of the form `METHOD|URL` to canned `useAxios` results.

- `detectUrlAndMethod` resolves a request descriptor to a URL and a method.
  The descriptor is either a URL string or an axios config.
- `buildCompositeKey` turns that URL and method into the key.
- `addImplementation` stores a result under a key (`Map.set`, so the last
  write wins). The constructor's item list, `construct`, and the helpers
  `get`, `post`, `put`, `patch` and `delete` all go through it.
- `implement()` returns a function that answers a descriptor with the result
  stored under its key, or `undefined`. That function reads the registry at
  call time.

Files:

- `wrappers.dfy`: `Option` (`undefined` is `None`) and `Result`. A `Failure`
  stands for the exception the JavaScript would throw.
- `strings.dfy`: `startsWith`, ASCII `toUpperCase`, and separator lemmas.
- `querystring.dfy`: `querystring.stringify`. Percent-encoding is a function
  parameter `escape`.
- `request.dfy`: `detectUrlAndMethod`, `buildCompositeKey` and their
  properties.
- `registry.dfy`: the `AxiosHooksMock` class and the function `implement()`
  returns (`MockImplementation`). They are proved against the pure
  specification functions `Register`, `RegisterAll` and `Resolve`.
- `scenarios.dfy`: the library's own test situations, run through the model.

Some behaviour follows the code as written (`src/lib/index.ts`):

- Only `baseURL` is read (`index.ts:59`). A lower-case `baseUrl` ends up
  among the fields that play no part, so the query-parameter fixtures
  produce keys like `GET|/123?param=one`.
- `params` is a truthiness test (`index.ts:54`). An empty `params` object
  still appends `?`.
- "Absolute" means the URL starts with the literal `http`.
- A config without `url` throws a TypeError on `config.url.startsWith`.
  This is modelled as `Failure(UrlMissing)` in registration and lookup.
- The class has no default fallback. A lookup miss is `None`.
- The class has no second constructor argument.
- The function `implement()` returns holds a reference to the registry, not
  a copy. Entries added later are visible (`Scenarios.LiveView`).

The constructor takes one extra argument, `escape`, which the source does
not have. `escape` stands for `querystring.escape`, the percent-encoding of
Node's `querystring` module. The model does not include Node's code.
Injectivity of the serialisation is proved only under the explicit
assumption `QueryString.SafeEscape`: `escape` is injective and never outputs
`&` or `=`. The scenarios use an escape that changes nothing, which is what
percent-encoding does to their alphanumeric names and values.

## Model

| member | source | states |
|---|---|---|
| `Request.DetectUrlAndMethod` | src/lib/index.ts:48-63 | A string is itself with GET. A config fails exactly when `url` is missing. Otherwise the method is the config's own, or GET. The URL is `baseURL` (only for a non-`http` URL with a `baseURL`) + `url` + the query suffix. |
| `Request.BareIsGet` | src/lib/index.ts:51-53 | A bare string `s` always resolves to the key `GET|s`. |
| `Request.OnlyFourFieldsMatter` | src/lib/index.ts:54-62 | Configs that agree on `url`, `baseURL`, `method` and `params` resolve alike, whatever their other fields (`data`, `baseUrl`, ...). |
| `Request.AbsoluteIgnoresBase` | src/lib/index.ts:58-60 | For a URL starting with `http`, replacing `baseURL` changes nothing. |
| `Request.EmptyParamsAppendQuestionMark` | src/lib/index.ts:54-56 | An empty but present `params` appends exactly `?` and gives a different key from no `params`. |
| `Request.BuildCompositeKey` | src/lib/index.ts:65-66 | The key is the upper-cased method, then `|`, then the URL, at the stated positions. |
| `Request.CompositeKeyIgnoresCase` | src/lib/index.ts:65-66 | Methods equal up to letter case give the same key. |
| `Request.CompositeKeyOfUpper` | src/lib/index.ts:65-66 | Upper-casing the method first does not change the key. |
| `Request.CompositeKeyInjective` | src/lib/index.ts:65-66 | For methods without `|`, two keys are equal if and only if the upper-cased methods and the URLs are equal. |
| `Request.CompositeKeySeparatorCollision` | src/lib/index.ts:65-66 | `|` is not escaped, so a method containing `|` can collide with a different URL. This is the limit of injectivity. |
| `Request.BareMatchesGetConfig` | src/lib/index.ts:51-62 | `u` and `{url: u, method: m}` give the same key when `m` is any spelling of GET or absent, `params` is absent, and `u` is absolute or there is no `baseURL`. |
| `Request.ParamsDistinguishKeys` | src/lib/index.ts:54-60 | Under `SafeEscape`, configs that differ only in `params` get different keys. |
| `QueryString.Stringify` | src/lib/index.ts:55 | The serialisation is empty exactly when there are no parameters. |
| `QueryString.StringifyAppend` | src/lib/index.ts:55 | Serialisation keeps the parameters' order: it distributes over list concatenation, joined by `&`. |
| `QueryString.FieldInjective` | src/lib/index.ts:55 | Under `SafeEscape`, a `key=value` field determines the key and the value. |
| `QueryString.StringifyInjective` | src/lib/index.ts:55 | Under `SafeEscape`, equal serialisations come from equal parameter lists, order included. |
| `Registry.RegisterThenResolve` | src/lib/index.ts:74-83 | Registering a descriptor and looking it up returns the registered pair. Registration fails exactly when lookup does. |
| `Registry.RegisterFrame` | src/lib/index.ts:78-81 | Registering leaves the answer for every descriptor with another key unchanged. |
| `Registry.LastWriteWins` | src/lib/index.ts:81 | A second registration under the same key replaces the first: the map is as if only the second had happened. |
| `Registry.RegisterAllFailsIff` | src/lib/index.ts:28-35 | Registering the item list fails if and only if some item's descriptor does not resolve. |
| `Registry.RegisterAllKeys` | src/lib/index.ts:28-35 | After the list, the keys are the old keys plus every item's key. |
| `Registry.RegisterAllLastItemWins` | src/lib/index.ts:29-34 | On a key collision in the list, the last item with that key is the one stored. |
| `Registry.RegisterAllUntouched` | src/lib/index.ts:29-34 | A key that no item resolves to keeps its previous entry, or its absence. |
| `Registry.RegisterAllAppend` | src/lib/index.ts:29-34 | Registering `xs` then `ys` equals registering `xs + ys`: the constructor is a left fold of `addImplementation`. |
| `Registry.VerbKeyMissesGet` | src/lib/index.ts:99-134 | `post`/`put`/`patch`/`delete` keys are `VERB|url`, and no GET key equals one. |
| `Registry.VerbRegistrationInvisibleToGet` | src/lib/index.ts:99-134 | What those helpers store never changes the answer to a bare-string (GET) request. |
| `Registry.VerbConfigKey` | src/lib/index.ts:100 | `{ url, method: VERB }` always resolves, to `VERB|url`. |
| `Registry.ParamRoutesDoNotCollide` | src/lib/index.ts:54-81 | Under `SafeEscape`, two routes differing only in `params` each resolve to their own pair after both are registered. |
| `Registry.AxiosHooksMock.constructor` | src/lib/index.ts:22-36 | Starts empty. When items are given, the map after the in-order loop is the left fold `RegisterAll` over them. |
| `Registry.AxiosHooksMock.Construct` | src/lib/index.ts:39-46 | Same map as the constructor. Fails, with the same error as the fold, exactly when some item does not resolve. |
| `Registry.AxiosHooksMock.AddImplementation` | src/lib/index.ts:74-83 | Either fails (missing `url`) with the map unchanged, or stores the pair under the descriptor's key, leaves every other key unchanged and returns the object itself. |
| `Registry.AxiosHooksMock.Get` | src/lib/index.ts:90-92 | Map becomes the old map with `GET|url` set to the pair. Returns itself. |
| `Registry.AxiosHooksMock.Post` | src/lib/index.ts:99-101 | Map becomes the old map with `POST|url` set to the pair. Returns itself. |
| `Registry.AxiosHooksMock.Put` | src/lib/index.ts:108-110 | Map becomes the old map with `PUT|url` set to the pair. Returns itself. |
| `Registry.AxiosHooksMock.Patch` | src/lib/index.ts:117-119 | Map becomes the old map with `PATCH|url` set to the pair. Returns itself. |
| `Registry.AxiosHooksMock.Delete` | src/lib/index.ts:126-134 | Map becomes the old map with `DELETE|url` set to the pair. Returns itself. |
| `Registry.AxiosHooksMock.Implement` | src/lib/index.ts:139-140 | Returns a new lookup function bound to this very registry, not a copy. |
| `Registry.MockImplementation.Call` | src/lib/index.ts:141-154 | Fails exactly when the descriptor does not resolve. Otherwise returns the pair under its key in the registry as it is now, or `None` when the key is absent. Changes nothing. |
| `Scenarios.ConvenienceMethods` | src/tests/MethodsTestComponent/index.test.tsx:23-66 | After chaining the five helpers on one URL, each method's config finds its own pair, the bare URL finds the GET pair, and HEAD finds nothing. |
| `Scenarios.QueryParamRoutes` | src/tests/QueryParamsTestComponent/index.test.tsx:20-57 | Three constructor items differing only in one query value each resolve to their own pair. |
| `Scenarios.LiveView` | src/lib/index.ts:139-155 | A request answered with `None` before `get` is answered with the new pair after it, through the same function from `implement()`. |
| `Scenarios.MissingUrl` | src/lib/index.ts:59 | A config without `url` fails with `UrlMissing` even when it has a `baseURL`. |

## Left out

- The response values and the refetch function are the opaque type
  parameter `P`. Calling the refetch function and counting its calls belong
  to the test harness.
- Percent-encoding (`querystring.escape`) is a parameter. Its injectivity,
  and that it never outputs `&` or `=`, are an explicit assumption
  (`SafeEscape`), not a proof.
- `params` values are strings. Node's handling of numbers, booleans, arrays
  and nested objects in `querystring.stringify` is not modelled. Neither is
  JavaScript's property order, which puts integer-like keys first.
- `Request.DetectUrlAndMethod` upper-cases only ASCII letters (in
  `BuildCompositeKey`), not JavaScript's full Unicode `toUpperCase`.
- `Registry.AxiosHooksMock.constructor` requires every item to resolve. When
  one does not, the JavaScript constructor throws and no object exists.
  `Construct` models that path as a `Failure`.
- The default pair and the second constructor argument, used by two tests
  (`src/tests/SimpleTestComponent/index.test.tsx:217`, `:242-245`), do not
  exist in the class. They are not modelled.
- The React fixture components, the jest tests and the type-only files
  (`src/lib/AxiosHooksMockItem.ts`, `src/lib/AxiosHooksTuple.ts`,
  `src/lib/AxiosHooksArray.ts`, `src/index.ts`) are used only as evidence.
  The `as AxiosHooksTuple` cast is type-level only.
