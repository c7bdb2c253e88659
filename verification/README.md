# BeautyTruth state machines in Dafny

BeautyTruth is an iOS app. It scans a cosmetic product's barcode, looks the
code up with a product service, and shows the result behind a cloud sign-in.
Its logic sits in two reducer state machines. Both are driven by a small
reactive engine, which merges events from the user interface and from
"feedbacks" (state-guarded side effects) and reduces them one at a time.
This project models:

- the authentication reducer: 8 states, 11 events (`Authentication`, authentication.dfy);
- the product-lookup reducer: 5 states, 5 events. It comes with the product record built
  from the lookup response, the guard of the `findProduct` feedback, and the feedback itself
  as a pure function of a lookup oracle (`ProductFlow`, product.dfy);
- the completeness label `checkInfomationNils` (`ProductExtensions`, product_extensions.dfy);
- the engine's serialized behaviour (`Engine`, engine.dfy). Once events have been merged into
  one arrival order, the engine computes a left fold of the reducer (`Run`). Subscribers see
  the initial state and then one state per event (`Trace`).

The signed-in user, the auth error and Swift's `Error` are opaque type parameters. A UUID and
a URL are small datatypes that only matter for equality. Optionals are `Wrappers.Option`, and
a lookup outcome is `Wrappers.Result`.

Each reducer has an independent reference: `Step`, its transition table written row by row.
`ReduceFollowsTable` proves the nested switch implements exactly that table. The remaining
lemmas are about runs: terminal states, states that are never re-entered, where a payload
comes from, and end-to-end scenarios.

Facts about the code that shape the model:

- The authentication view model registers only the user-input feedback
  (BeautyTruth/Features/Authentication/AuthenticationViewModel.swift:19-28). The session feedback is
  commented out (201-209), and its draft guards on `loading`, which no branch of the reducer produces.
- The sign-in screens send only `onAppear`, `onCheckAutoLogin`, `onLogin`, `onShowSignUp`, `onShowLogin`
  and `onConfirmation` (BeautyTruth/Features/Authentication/AuthenticationView.swift:21-210). Nothing sends
  `onAlreadyLoggedIn`, `onNotLoggedIn`, `onLoaded` or `onLogInError`. As wired, the flow therefore never
  gets past the splash screen (`Authentication.StuckInAutoLogin`). The auth scenarios inject the session
  result by hand, and `Authentication.CheckSession` models the missing session check.
- `onConfirmation` carries both a user name and a confirmation code.

## Model

| member | source | states |
|---|---|---|
| Engine.RunSnoc | BeautyTruth/Features/Product/ProductViewModel.swift:22-32 | the engine reduces merged events in arrival order: the last event is reduced against the state that all earlier events produced |
| Engine.Trace | BeautyTruth/Features/Product/ProductViewModel.swift:22-32 | the published states are the initial state followed by one state per event; each is the reducer applied to its predecessor, and the last is the fold's result |
| Engine.RunAppend | BeautyTruth/Features/Product/ProductViewModel.swift:22-32 | the engine keeps no memory besides the current state: two batches in a row act like their concatenation |
| Authentication.Reduce | BeautyTruth/Features/Authentication/AuthenticationViewModel.swift:77-134 | `loaded` and `error` are terminal; `idle`, `loading` and `confirmation` are never produced from another state; a new user comes from `onAlreadyLoggedIn`/`onLoaded` and a new error from `onLogInError`, each carrying that payload |
| Authentication.ReduceFollowsTable | BeautyTruth/Features/Authentication/AuthenticationViewModel.swift:77-134 | the reducer implements the transition table exactly (both directions): a listed pair moves to the state its row names, and every unlisted pair is a no-op |
| Authentication.IgnoredRequests | BeautyTruth/Features/Authentication/AuthenticationViewModel.swift:86-128 | `onCheckAutoLogin` in `autoLogin` and `onLogin` in `login` are no-ops; `onCreateAccount` keeps `signup` |
| Authentication.TerminalAbsorbs | BeautyTruth/Features/Authentication/AuthenticationViewModel.swift:129-132 | from `loaded(u)` or `error(e)`, any event sequence ends in the same state |
| Authentication.NeverEnteredLater | BeautyTruth/Features/Authentication/AuthenticationViewModel.swift:77-134 | a run that ends in `idle`, `loading` or `confirmation` ends in its initial state |
| Authentication.UnreachableFromIdle | BeautyTruth/Features/Authentication/AuthenticationViewModel.swift:77-134 | starting from `idle`, no event sequence reaches `loading` or `confirmation` |
| Authentication.IdleUntilAppear | BeautyTruth/Features/Authentication/AuthenticationViewModel.swift:79-85 | a run from `idle` is still `idle` if and only if `onAppear` never arrived |
| Authentication.LoadedUserProvenance | BeautyTruth/Features/Authentication/AuthenticationViewModel.swift:86-108 | a run ending in `loaded(u)` started there or received `onAlreadyLoggedIn(u)` or `onLoaded(u)` |
| Authentication.ErrorProvenance | BeautyTruth/Features/Authentication/AuthenticationViewModel.swift:116-132 | a run ending in `error(x)` started there or received `onLogInError(x)` |
| Authentication.AutoLoginScenario | BeautyTruth/Features/Authentication/AuthenticationViewModel.swift:79-94 | `idle`, then `onAppear`, then `onAlreadyLoggedIn(u)` gives `loaded(u)` |
| Authentication.StuckInAutoLogin | BeautyTruth/Features/Authentication/AuthenticationViewModel.swift:19-28 | with only the events the screens send, a run from `idle` or `autoLogin` ends in `idle` or `autoLogin`: the app as wired stays on the splash screen |
| Authentication.CheckSession | BeautyTruth/Features/Authentication/AuthenticationViewModel.swift:201-209 | the session check emits nothing outside `autoLogin` and exactly one event inside it |
| Authentication.AutoLoginSettles | BeautyTruth/Features/Authentication/AuthenticationViewModel.swift:86-94 | with the session check in place, `onAppear` leads to `autoLogin`, which a signed-in session settles as `loaded(u)` and a signed-out one as `login`; a service error is ignored there |
| Authentication.SignUpScenario | BeautyTruth/Features/Authentication/AuthenticationViewModel.swift:79-108 | `idle`, then `onAppear`, `onNotLoggedIn`, `onShowSignUp` gives `signup` |
| ProductFlow.FromDto | BeautyTruth/Features/Product/ProductViewModel.swift:77-86 | the product carries each of the eight response fields unchanged, identifier included |
| ProductFlow.FromDtoLossless | BeautyTruth/Features/Product/ProductViewModel.swift:77-86 | two responses give the same product if and only if they are equal |
| ProductFlow.Reduce | BeautyTruth/Features/Product/ProductViewModel.swift:93-132 | `error` is terminal; `onLoaded` changes nothing; `idle` is never re-entered; `scanning` is entered only from `idle`; a lookup starts only from `scanning`/`loaded` for the scanned code; it ends only from `loading`, with the event's product or error |
| ProductFlow.ReduceFollowsTable | BeautyTruth/Features/Product/ProductViewModel.swift:93-132 | the reducer implements the transition table exactly (both directions); unlisted pairs, including a second barcode while loading, are no-ops |
| ProductFlow.LookupGuard | BeautyTruth/Features/Product/ProductViewModel.swift:136 | the feedback is active exactly in `loading(code)`, and then uses that code |
| ProductFlow.FindProduct | BeautyTruth/Features/Product/ProductViewModel.swift:134-143 | the feedback emits nothing outside `loading` and exactly one event inside it |
| ProductFlow.LookupSettles | BeautyTruth/Features/Product/ProductViewModel.swift:109-143 | in `loading(code)`, the feedback's event gives `loaded` with the product built from the response, or `error` with the service's error |
| ProductFlow.ErrorAbsorbs | BeautyTruth/Features/Product/ProductViewModel.swift:129-130 | `error(e)` is unchanged by any event sequence |
| ProductFlow.IdleUntilAppear | BeautyTruth/Features/Product/ProductViewModel.swift:95-101 | a run from `idle` is still `idle` if and only if `onAppear` never arrived |
| ProductFlow.LoadingCodeProvenance | BeautyTruth/Features/Product/ProductViewModel.swift:102-128 | a run ending in `loading(c)` started there or received `onGotBarcode(c)` |
| ProductFlow.LoadedProductProvenance | BeautyTruth/Features/Product/ProductViewModel.swift:109-121 | a run ending in `loaded(p)` started there or received `onStoreToHistory(p)` |
| ProductFlow.OnLoadedIgnored | BeautyTruth/Features/Product/ProductViewModel.swift:93-132 | removing every `onLoaded` event from any sequence leaves the outcome unchanged |
| ProductFlow.ScanScenario | BeautyTruth/Features/Product/ProductViewModel.swift:93-143 | `onAppear` then `onGotBarcode(c)` from `idle` publishes `idle`, `scanning`, `loading(c)`; the lookup feedback's event then settles it as `loaded` with the built product or `error` with the service's error, also when all events are fed as one sequence |
| ProductFlow.LookupFailureIsFinal | BeautyTruth/Features/Product/ProductViewModel.swift:117-130 | a failed lookup ends in `error` with the service's error, and a later barcode leaves it unchanged |
| ProductExtensions.CheckInfomationNils | BeautyTruth/Extensions/ProductExtensions.swift:12-25 | the result is one of four labels: "noBrand&Descrition" iff both fields are absent, "noBrand" iff only the brand is, "noDescription" iff only the description is, and "success" iff both are present |
| ProductExtensions.LabelDependsOnlyOnPresence | BeautyTruth/Extensions/ProductExtensions.swift:12-25 | products that agree on whether brand and description are present get the same label, whatever their other fields hold |
| ProductExtensions.HappyPathComplete | BeautyTruth/Extensions/ProductExtensions.swift:22-23 | a scanned code whose lookup returns a brand and a description ends in `loaded` with that product, labelled "success" |

## Left out

- The reactive engine's merge, scheduling and cancel-on-state-change behaviour (`Publishers.system`, `Feedback`). That code is not part of this model, and it involves concurrency. The model starts from the merged, serialized event sequence.
- Stale-lookup suppression. The reducer accepts `onStoreToHistory` in any `loading(_)` state, whatever code the result was looked up for (`ProductFlow.ReduceFollowsTable`). Dropping a stale result is the engine's cancellation, which is left out as above.
- The `catch` branch of the product reducer's `onStoreToHistory` case: building `loaded(product)` cannot throw, so that branch is dead.
- The user-input feedbacks (`userInput`), which only relay events sent by the interface; the lemmas take those events as their input sequence.
- Auth-service calls: `fetchCurrentAuthSession`, `signUp`, `confirmSignUp` and `signIn` in the view model, whose results are only printed, and `AuthenticationsFunctions.fetchCurrentAuthSession`, which returns the SDK's publisher and is never called. They are foreign SDK calls. The session check's answer is a parameter of `CheckSession`.
- `APIs.GetProduct`: a signed network request. It appears here only as the `lookup` oracle passed to `FindProduct`.
- JSON coding of `ProductDTO`/`Product` (the coding keys omit `id`, so decoding generates a fresh UUID): serialization belongs to the platform.
- SwiftUI views, the bottom sheet's floating-point drag arithmetic, the scanner glue, the keyboard follower and the persisted settings: user interface, floating point, a third-party library and platform storage.
- The commented-out history storage and JWT helpers, which are not live code.

## Findings

| source | as written | input that shows it | evidently intended | confidence | as-written member | corrected member |
|---|---|---|---|---|---|---|
| BeautyTruth/Features/Authentication/AuthenticationViewModel.swift:19-28 | only the user-input feedback is registered; the session feedback is commented out and no screen sends the session events | from `idle`, `[onAppear, onCheckAutoLogin]` or any other sequence of events the screens send | a session check active in `autoLogin` that emits `onAlreadyLoggedIn(u)`, `onNotLoggedIn` or `onLogInError(e)` | not executed; high that the wired flow stays on the splash screen, medium on the intended guard | Authentication.StuckInAutoLogin | Authentication.AutoLoginSettles |
