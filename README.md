# orbital-wc core, modelled in Dafny

orbital-wc is an experimental web-component framework. It connects a reactivity library to Custom Elements and lit-html templates, and adds a small router bridge. The reactive engine, the renderer, the router and the platform are all libraries. What the repository writes itself is bookkeeping and selection logic, and that is what this project models and proves:

- **Component host** (`createElement`, module `Runtime`, file `runtime.dfy`). Its argument is either a bare setup function or an object with a prop schema and a setup function. The host creates one reactive cell per declared prop and runs setup once with the props bag; setup registers mount and cleanup callbacks. The platform's attribute-changed, connected and disconnected callbacks then drive the cells and the two callback lists. The host is a class, `Element`. A ghost `log` records which callbacks ran, in order.
- **`show`**: picks the children template or the fallback, and says whether the children function was called.
- **`withWatch`** (module `Watch`, file `watch.dfy`): for each interpolated value, decides whether to wrap it in the `watch` directive. The decision uses the value's kind and arity and the last space-separated chunk of the raw text before it. JavaScript's `split(" ")` is modelled exactly and proved to round-trip with `join(" ")` in both directions.
- **`WatchDirective`**: a state machine over the fields `getter` and `dispose`. Pure step functions on `DirectiveState` are the specification; the `WatchDirective` class's methods are proved equal to them. Reactive roots are abstract ids with a set of live ones. The calls to `setValue` are a sequence.
- **Router selections** (module `Router`, file `router.dfy`): the outlet's slot name, the anchor search and error cases of the link handler, and the loader-data lookup.

External inputs are parameters:
- the value a getter yields now;
- whether a router provider answered;
- the URL-to-pathname function, `None` when `new URL` throws.

Callbacks, setup functions, getters, templates and loader data are opaque identities.

Choices the code makes that are easy to misread:
- Cleanup callbacks run in registration (FIFO) order, not in reverse (src/runtime.ts:91-95).
- An attribute write stores exactly what the platform passes, including `null` on removal (`AttrValue.Null`) (src/runtime.ts:79-83).
- `show` evaluates its computed once and returns the value, not a reactive template (src/runtime.ts:117).
- `withWatch` finds the binding's attribute chunk by splitting only on the space character (src/func-new.ts:108). An `@name=` or `.name=` attribute separated from what precedes it by a tab or a newline is not recognised as an event or property binding.

## Model

| member | source | states |
|---|---|---|
| `Runtime.Resolve` | src/runtime.ts:39-48 | a function argument gives the setup and no schema; an object gives both its schema and its setup |
| `Runtime.ObservedAttributes` | src/runtime.ts:75-77 | the observed names are the schema's keys with a schema, and empty exactly when there is no schema or it has no keys |
| `Runtime.ObservedAttributesOfOptions` | src/runtime.ts:75-77 | observed attributes are the schema's keys in order, and empty without a schema |
| `Runtime.EmptyCells` | src/runtime.ts:58-62 | exactly one cell per declared key, each initially unset |
| `Runtime.RegistrationsSplit` | src/runtime.ts:65-70 | every registration made during setup lands in exactly one list, and no callback is lost or invented |
| `Runtime.Element.constructor` | src/runtime.ts:50-73 | after construction the cells are exactly the declared keys, all unset; setup saw a props bag with exactly those keys; `inits` and `deinits` hold its registrations in order; nothing has run |
| `Runtime.RegistrationsKeepOrder` | src/runtime.ts:68-69 | both lists keep registration order: the callbacks of a later stretch of registrations follow those of an earlier one |
| `Runtime.Element.OnMount` | src/runtime.ts:68 | appends the callback to the end of `inits`; nothing else changes |
| `Runtime.Element.OnCleanup` | src/runtime.ts:69 | appends the callback to the end of `deinits`; nothing else changes |
| `Runtime.Element.AttributeChangedCallback` | src/runtime.ts:79-83 | a declared name's cell becomes exactly the new value; other cells, the lists and the log are unchanged; an undeclared name is a no-op |
| `Runtime.Element.ConnectedCallback` | src/runtime.ts:85-89 | runs every mount callback once, in registration order |
| `Runtime.Element.DisconnectedCallback` | src/runtime.ts:91-95 | runs every cleanup callback once, in registration (FIFO) order |
| `Runtime.Reconnect` | src/runtime.ts:79-95 | connect, attribute change, disconnect, connect: the lists are unchanged and the mount callbacks are replayed |
| `Runtime.Show` | src/runtime.ts:99-118 | children are called iff `when`; the result is the children's template when shown, otherwise the fallback, with `nothing` as the default |
| `Runtime.ShowHiddenIgnoresChildren` | src/runtime.ts:109-115 | while hidden, the result does not depend on the children |
| `Watch.JoinSplit` | src/func-new.ts:108 | joining the chunks of `split(" ")` with spaces gives back the raw string |
| `Watch.Split` | src/func-new.ts:108 | `split(" ")` gives at least one chunk, and no chunk contains a space |
| `Watch.Join` | src/func-new.ts:108 | the joined string starts with the first chunk and ends with the last one |
| `Watch.SplitJoin` | src/func-new.ts:108 | splitting a join of space-free chunks gives back the chunks |
| `Watch.SplitLast` | src/func-new.ts:108-109 | the last chunk is a suffix; it is the whole string if there is one chunk, and a space precedes it otherwise |
| `Watch.LastChunk` | src/func-new.ts:108-109 | `prevPart` has no space, is a suffix of the raw text, and is the whole text or preceded by a space |
| `Watch.LastChunkUnique` | src/func-new.ts:108-109 | any suffix with those properties is `prevPart` |
| `Watch.WithWatch` | src/func-new.ts:99-121 | strings pass through; one output per value, in order; each output is the same value, wrapped or not; wrapped iff it is a zero-arity function whose `prevPart` starts with neither `@` nor `.` |
| `Watch.EventAndPropertyBindingsUnwrapped` | src/func-new.ts:108-118 | a value at an `@name=` or `.name=` chunk that follows a space is passed through unwrapped, even a zero-arity function |
| `Watch.TextPositionFunctionWrapped` | src/func-new.ts:105-118 | a zero-arity function after text ending in a space is wrapped |
| `Watch.Initial` | src/func-new.ts:28-30 | a new directive has no live subscription and has committed nothing |
| `Watch.RenderSameGetter` | src/func-new.ts:32-35 | rendering the recorded getter again changes nothing: no disposal, no new subscription |
| `Watch.WatchDirective.constructor` | src/func-new.ts:28-30 | a new directive has no getter, no disposer, no live root and no commits, in lit's connection state |
| `Watch.RenderStep` | src/func-new.ts:32-57 | render records the getter and never commits; the same getter changes nothing; a new one disposes the held root and adds root `nextRoot`, which `dispose` then holds |
| `Watch.EffectRunStep` | src/func-new.ts:43-51 | a re-run commits its value exactly when its root is live, and changes nothing else |
| `Watch.DisconnectedStep` | src/func-new.ts:59-61 | disconnected disposes the held root and keeps the getter for reconnection |
| `Watch.ReconnectedStep` | src/func-new.ts:63-86 | the corrected reconnect disposes the held root first, then with a recorded getter adds root `nextRoot`, holds it, and commits the current value |
| `Watch.ReconnectedAsWritten` | src/func-new.ts:63-86 | as written, reconnect with a recorded getter adds a fresh root and keeps every root already live; the previous root stays live |
| `Watch.RenderNewGetter` | src/func-new.ts:33-54 | a new getter disposes the previous root, is recorded, and leaves exactly one live root, a fresh one; its first run commits nothing |
| `Watch.LaterRunsCommit` | src/func-new.ts:39-53 | once `render` has returned, a re-run of the new subscription calls `setValue` |
| `Watch.OnlyCurrentRootCommits` | src/func-new.ts:40-51 | under the no-leak invariant, only the root held in `dispose` can call `setValue` |
| `Watch.DisconnectedDisposesAll` | src/func-new.ts:59-61 | `disconnected` disposes the current subscription, leaving nothing live and nothing able to commit |
| `Watch.ReconnectedResubscribes` | src/func-new.ts:63-86 | `reconnected` resubscribes only with a recorded getter; its first run is not suppressed and commits the current value |
| `Watch.StepsKeepNoLeak` | src/func-new.ts:28-86 | render, effect re-runs, `disconnected` and the corrected `reconnected` keep every live root reachable through `dispose` |
| `Watch.ReconnectedAsWrittenAfterDisconnect` | src/func-new.ts:59-86 | after a `disconnected`, the code as written and the corrected code agree |
| `Watch.ReconnectedAsWrittenLeaks` | src/func-new.ts:77-85 | as written, render-while-disconnected followed by `reconnected` leaves a root live that no disposal reaches, and that root keeps calling `setValue` |
| `Watch.ReconnectedDoesNotLeak` | src/func-new.ts:77-85 | the same sequence with the corrected `reconnected` leaves nothing live after `disconnected` |
| `Watch.WatchDirective.Render` | src/func-new.ts:32-57 | performs the render step on the fields, suppresses `setValue` during the synchronous first run through `updateFromLit`, and returns the getter's current value |
| `Watch.WatchDirective.EffectBody` | src/func-new.ts:43-51 | calls `setValue` exactly when `updateFromLit` is false |
| `Watch.WatchDirective.EffectRun` | src/func-new.ts:43-51 | a live subscription's re-run commits the value it read; a disposed one does nothing |
| `Watch.WatchDirective.Disconnected` | src/func-new.ts:59-61 | performs the disconnect step and keeps the no-leak invariant |
| `Watch.WatchDirective.Reconnected` | src/func-new.ts:63-86 | performs the corrected reconnect step and keeps the no-leak invariant |
| `Router.ChildIds` | src/router.ts:63 | the route ids of the matches, in order; absent when state or matches are absent |
| `Router.OutletName` | src/router.ts:63-64 | the slot name is the second match's route id, or `""` when state or matches are absent or there are fewer than two matches |
| `Router.OutletNameIgnoresDeeperMatches` | src/router.ts:63-64 | matches after the second, and the loader data, do not affect the slot name |
| `Router.LoaderData` | src/router.ts:53-58 | yields `loaderData[id]` when present; absent, not an error, when there is no loader data or no entry |
| `Router.FindAnchor` | src/router.ts:74-76 | finds the index of the first anchor in composed-path order, or none when no entry is an anchor |
| `Router.LinkHandler` | src/router.ts:70-81 | the default is always prevented; it fails with the missing-anchor error iff no path entry is an anchor; a navigation goes to the pathname of an anchor on the path |
| `Router.LinkHandlerUsesFirstAnchor` | src/router.ts:73-80 | with a router, it navigates to the pathname of the first anchor, whatever later anchors say |

## Left out

- The DOM and the Custom Elements platform: `attachShadow`, `customElements.define`, event dispatch, `composedPath()` and URL parsing. The composed path is a sequence, the pathname an abstract function parameter, and the platform's calls are method calls.
- The render effect `effect(() => diff(render(), root))` in the host constructor. It belongs to the reactive engine and the renderer.
- The `provide`/`consume` context channel, `provideRouter`, `consumeRouterState`, `consumeNavigate` and `consumeLocation`. They are defined by DOM event listeners and by the reactive and router libraries. The link handler takes their outcome as a parameter, `routerProvided`.
- The internals of `@vue/reactivity`, `solid-js`, lit-html and `@remix-run/router`: refs, computeds, effects, scopes, roots, `untrack`, diffing, the `directive()` factory and `setValue`. Reactive roots are abstract ids; `setValue` calls are a recorded sequence; `nothing` is a sentinel.
- zod schemas. A schema is only its list of key names.
- The demo components, `createComponent` and `render` in src/func-new.ts, and src/func-main.ts, src/class-main.ts, src/signal.ts and src/orbital.ts: demo content and re-exports.
- The `console.log` call inside `withWatch`: it is output only.
- Runtime.Element.constructor: setup is reduced to the registrations it makes while it runs. A callback that registers further callbacks while the lists are being replayed is not modelled. In JavaScript, `for...of` would visit callbacks added during the iteration.
- Runtime.Element.ConnectedCallback: callbacks are opaque and only logged. Their effects, and exceptions that would stop the loop, are not modelled.
- WithWatch: assumes the tagged-template shape, with one raw string more than values. A hand-made call with fewer raw strings throws in the source; that case is not modelled.
- Watch.WatchDirective.Render: follows the source's assumption that the effect's first run happens synchronously inside `createRoot`. The values a getter yields are parameters.
- Router.LoaderData: covers only the loader data's own entries. For an id with no entry that names an inherited property of a plain object (`"constructor"`, `"toString"`, `"__proto__"`), the source's bracket lookup yields that inherited property; the model yields nothing.
- Router.LinkHandler: ignores the reactive subscription each call leaves behind through `consumeNavigate`.

## Findings

| source | as written | input that shows it | evidently intended | confidence | as-written member | corrected member |
|---|---|---|---|---|---|---|
| src/func-new.ts:77-85 | `reconnected` creates a new root and overwrites `this.dispose` without disposing the root it held | the directive is rendered while disconnected (lit's `isConnected: false` render option), then reconnected: two roots are live. After `disconnected` the first is still live, and after rendering a new getter it still calls `setValue` | dispose any root still held before resubscribing; the comment assumes `disconnected` already did that | medium, not executed | `Watch.ReconnectedAsWrittenLeaks` | `Watch.WatchDirective.Reconnected` |
