# apiinit — a Dafny model of the initialization gate

`apiinit` is a middleware for the APIBox framework. It holds back every
request until one request with the action `APIBox.Init` has arrived. That
request carries flat dotted parameters:

- `apisign.<name>` configures the signature validator;
- `apiproxy.<alias>.<name>` configures the proxy client of one backend.

The gate copies those settings onto the two middlewares. It then marks
itself initialized and hands its registered callbacks off to be run. From
then on every request passes through. A gate switched off in the
configuration (`apiinit.disabled`) passes everything through from the
start.

The model has four modules:

- `Text` (text.dfy) holds the two string operations the gate relies on. `SplitOnce` is Go's `strings.SplitN(s, ".", 2)`. `Atoi` is `strconv.Atoi` with its error discarded.
- `Router` (router.dfy) is the loop that groups the request parameters by middleware. `Route` is a method with a loop over the parameter map. It is proved against two order-free specification functions, `SignParamsOf` and `ProxyParamsOf`, each characterised by a predicate (`IsSignParams`, `IsProxyParams`). `Classify` is the per-key reference definition, and lemmas tie it to the predicates.
- `Targets` (targets.dfy) holds the two setting appliers. The validator and the proxy clients are plain records (`SignTarget`, `Client`), and a backend registry maps aliases to clients. Each applier is a method with a loop over the settings map. Each is proved equal to an order-free specification: `SignConfigured`, `ClientConfigured` or `ProxyConfigured`.
- `Gate` (gate.dfy) is the gate itself: a class `Init` with the `disabled` and `inited` flags and the callback list. `ServeHTTP` uses the pure decision `Decide` and calls `Route` and the appliers. `Run` and `InitedAfter` follow the gate through a sequence of requests; the lemmas about them state the gate's lifecycle, and the method `ServeAll`, which feeds a sequence of requests to `ServeHTTP`, is proved to answer and end as they say.

Go iterates maps in random order. The loops pick an arbitrary remaining key
(`var k :| k in rest`), so every proof holds for every visiting order.

Two behaviours of the code are easy to misread; the model follows the code:

- A non-numeric `nonce_length` is not ignored. `client.NonceLength, _ = strconv.Atoi(v)` assigns Atoi's value on error, which is 0 on a syntax error (init.go:124). `NonNumericNonceLength` states this.
- A second `APIBox.Init` after initialization is not rejected. The `inited` check comes before the action check, so the request passes through (init.go:40-44). `RunPassesWhenSettled` states this.

## Model

| member | source | states |
|---|---|---|
| Text.SplitOnce | init.go:61-64 | no result exactly when the key has no dot; otherwise the head has no dot and head, dot and tail rebuild the key |
| Text.SplitOnceJoin | init.go:61 | splitting `head.tail` gives back `head` and `tail` when the head has no dot, so a split is taken at the first dot |
| Text.ParseInt | init.go:124 | a value is parsed exactly when the text is an optional sign followed by at least one digit |
| Text.Atoi | init.go:124 | a value that is not an optional sign followed by at least one digit gives 0; a decimal one gives its parsed value |
| Text.AtoiFormatInt | init.go:124 | every integer written in decimal is read back by Atoi unchanged |
| Text.AtoiSyntaxError | init.go:124 | a character that is neither a digit nor a leading sign makes Atoi yield 0 |
| Router.Classify | init.go:61-78 | the route of one key: a key without a dot is dropped, and a backend alias never holds a dot |
| Router.ClassifyInverse | init.go:60-79 | a key routed to signing setting X is `apisign.X`; a key routed to backend A, setting S is `apiproxy.A.S` with A dot-free |
| Router.ClassifySignKey | init.go:66-67 | `apisign.X` is routed to signing setting X, with any further dots kept in X |
| Router.ClassifyProxyKey | init.go:68-77 | `apiproxy.A.S` with a dot-free A is routed to setting S of backend A |
| Router.ClassifyDropped | init.go:61-78 | a key is dropped exactly when it has neither routed form: no dot, another first segment, or `apiproxy.A` with no second dot |
| Router.SignParamsInsert | init.go:65-67 | one more parameter extends the signing map by the entry its route names, and by nothing when it is not a signing key |
| Router.ProxyKeyInjective | init.go:69-77 | two dot-free aliases with names give the same key only when alias and name agree |
| Router.ProxyParamsInsert | init.go:68-77 | one more parameter adds its setting to its backend's inner map, creating that map when missing, and changes nothing else |
| Router.SignParamsExist | init.go:58-67 | every parameter map has a signing map |
| Router.ProxyParamsStep | init.go:60-77 | adding one more parameter keeps the backend map defined |
| Router.ProxyParamsExist | init.go:59-77 | every parameter map has a backend map |
| Router.SignParamsUnique | init.go:58-67 | the signing map of a parameter map is unique |
| Router.ProxyParamsUnique | init.go:59-77 | the backend map of a parameter map is unique; no backend has an empty inner map |
| Router.SignParamsOf | init.go:58-67 | the signing map holds one entry per `apisign.X` key, under X, with that key's value, and nothing else |
| Router.ProxyParamsOf | init.go:59-77 | the backend map holds, for each dot-free alias A, one entry S per `apiproxy.A.S` key, and no empty inner map |
| Router.Route | init.go:57-79 | the grouping loop builds exactly the signing map and the backend map, whatever order it visits the keys in |
| Router.ExampleSignKey | init.go:66-67 | `apisign.sign_key` is routed to signing setting `sign_key` |
| Router.ExampleProxyKey | init.go:68-77 | `apiproxy.b1.gwurl` is routed to setting `gwurl` of backend `b1` |
| Router.ExampleOtherKey | init.go:65 | `foo.bar` is dropped |
| Router.ExampleUndottedKey | init.go:62-64 | `noDot` is dropped |
| Router.RouteExample | init.go:57-79 | a four-key request gives the signing map `{sign_key: abc}` and the backend map `{b1: {gwurl: http://x}}` |
| Targets.ApplySignSetting | init.go:85-94 | one signing setting applied alone gives the validator configured by that one setting |
| Targets.SignConfigured | init.go:84-95 | settings that name neither `sign_key` nor `disabled` leave the validator unchanged |
| Targets.SignSettingsCommute | init.go:84-95 | two distinct signing settings give the same validator in either order |
| Targets.SignDisabledSetting | init.go:88-93 | `disabled` leaves the validator enabled exactly when the value is "N" and does not touch the key |
| Targets.SignOtherNameIgnored | init.go:85-94 | a signing setting other than `sign_key` and `disabled` changes nothing |
| Targets.ApplySignSettings | init.go:84-95 | the loop over the signing settings sets the key to `sign_key`'s value and the enabled flag from `disabled`, each only when present |
| Targets.ApplyClientSetting | init.go:108-137 | one client setting applied alone gives the client configured by that one setting |
| Targets.ParamsConfiguredSingle | init.go:125-136 | one setting alone sets parameter K of a group exactly when it is `<group>.K`, and leaves both maps alone otherwise |
| Targets.ParamsConfiguredOther | init.go:125-136 | a setting that is not `<group>.K` leaves that group's parameter map as it is |
| Targets.ParamsConfiguredSet | init.go:126-134 | the setting `<group>.K` sets parameter K of that group and no other |
| Targets.FieldsConfiguredInsert | init.go:108-124 | one more setting updates the six plain client fields as the switch does |
| Targets.ApplyClientSettingParams | init.go:125-136 | the switch changes a parameter map only for a dotted name in that map's group; the six plain field names have no dot |
| Targets.ClientConfiguredInsert | init.go:107-138 | the client after one more setting is the switch applied to the client after the others |
| Targets.ParamsConfiguredUnique | init.go:125-136 | a group's parameter map after the settings is unique |
| Targets.ClientConfiguredExists | init.go:107-138 | every client and settings map have a configured client |
| Targets.ClientConfigured | init.go:107-138 | each recognised name sets its field, `nonce_enabled` to true only for "Y", `nonce_length` to Atoi's value, and each `default_params.K` / `override_params.K` only parameter K |
| Targets.ClientConfiguredUnique | init.go:107-138 | the configured client is unique |
| Targets.ApplyClientSettings | init.go:107-138 | the loop over one backend's settings builds the configured client, whatever the visiting order |
| Targets.ApplyProxySettings | init.go:102-139 | every backend with a client gets its settings applied; backends without a client are skipped; other clients are left as they were |
| Targets.ProxyConfigured | init.go:102-139 | the applier keeps the set of backends and leaves every backend without settings unchanged |
| Targets.UnknownAliasSkipped | init.go:103-106 | settings for an alias without a client make no difference |
| Targets.DefaultParamExample | init.go:130-131 | `default_params.K` sets default parameter K and nothing else on the client |
| Targets.NonceEnabledSetting | init.go:117-122 | `nonce_enabled` turns the nonce on exactly for the value "Y" |
| Targets.ClientOtherNameIgnored | init.go:125-136 | a name that is neither a field name nor a dotted name in one of the two parameter groups changes nothing |
| Targets.NonNumericNonceLength | init.go:123-124 | a `nonce_length` value that is not an optional sign followed by at least one digit sets the nonce length to 0 |
| Gate.ConfigDisabled | init.go:24 | the gate is disabled as the `apiinit.disabled` option says, and not disabled when the option is absent |
| Gate.Configure | init.go:55-141 | a middleware is configured only when present and stays present; the proxy keeps its set of backends; without signing settings the validator is unchanged |
| Gate.Decide | init.go:36-53 | pass through exactly when disabled or inited; handle exactly the action `APIBox.Init` otherwise; reject every other action |
| Gate.ConfigureGuardsHarmless | init.go:81-100 | the emptiness checks in front of the two appliers change nothing: an empty group of settings leaves its middleware as it is |
| Gate.ConfigureExample | init.go:55-141 | a four-key init request sets the validator's key and backend `b1`'s URL and changes no other backend |
| Gate.Run | init.go:35-159 | a run of requests gets one decision per request |
| Gate.InitedAfterRun | init.go:143 | the gate ends a run initialized exactly when it started so or handled an init request, so `inited` never returns to false |
| Gate.RunPassesWhenSettled | init.go:36-44 | a disabled or initialized gate passes every request through, a second `APIBox.Init` included |
| Gate.RunAfterInit | init.go:40-44 | every request after the handled init request passes through |
| Gate.RunAtMostOneInit | init.go:40-53 | at most one request of a run is handled as the init request |
| Gate.RunRejectedBeforeInit | init.go:154-156 | a request is rejected only by an enabled, uninitialized gate for an action other than `APIBox.Init`, and every earlier request was rejected too |
| Gate.RunSnoc | init.go:35-159 | one more request at the end of a run adds the decision taken with the flag the run so far left, and updates that flag as the request does |
| Gate.Init.constructor | init.go:20-29 | a new gate is disabled as configured, by default not, is not initialized and has no callbacks |
| Gate.Init.AddCallback | init.go:31-33 | one callback is appended at the end; the earlier callbacks and both flags are unchanged |
| Gate.Init.ServeHTTP | init.go:35-159 | the callbacks never change. Pass-through and rejection (ModuleInitWaiting) change nothing. The init request configures the middlewares present, sets `inited` whatever settings it carried, and hands off the callbacks in order |
| Gate.Init.ServeAll | init.go:35-159 | the gate object, fed a run of requests one after another, answers each as `Run` decides, ends with `inited` as `InitedAfter` gives, keeps its callbacks and leaves the middlewares configured by the request handled as init, so the lifecycle lemmas about `Run` hold for the object |

## Left out

- The HTTP plumbing is not modelled. This covers building the request context and its failure path (init.go:46-50), writing the response (init.go:144, init.go:155), and the `next` continuation. A request is reduced to its action and parameter map, and the response to an `Outcome` value.
- The goroutine that runs the callbacks (init.go:146-150) is concurrent code over opaque functions. The model hands the callback sequence off, unchanged and in order, in the `Initialized` outcome. It does not model that the goroutine reads the list when it runs, so callbacks appended in between may also run.
- The middleware registry lookups and type assertions (init.go:82-83, init.go:100-101) become optional records in `Middlewares`. `GetClient` returning nil becomes an alias missing from the registry map.
- The internals of the signature validator and the proxy client belong to other packages. The model keeps only the fields the gate sets. `SetSignKey`, `Enable`, `Disable`, `SetDefaultParam` and `SetOverrideParam` are taken as plain field and map updates.
- Gate.Init.constructor reads the configuration as a map of boolean options. Parsing of non-boolean configuration values by `GetDefaultBool` is not modelled.
- Text.Atoi does not model `strconv.Atoi`'s range errors: for a decimal value out of range, Go returns the clamped 64-bit value, while the model returns the unbounded decimal value. A value whose leading digits overflow before a later non-digit (such as `99999999999999999999x`) is also a range error in Go and gets the clamped value; the model's Atoi gives 0 there, so `AtoiSyntaxError` and `NonNumericNonceLength` describe the model, not Go, on such values.
- Registering the error group and its localised messages (init.go:21, error_define.go:14-27) is not modelled. Only the error's group, code and name are kept, in `ModuleInitWaiting`.
- The model treats the validator and the clients as values returned by the appliers. It does not model in-place updates through shared references, such as a client reachable from elsewhere seeing the change.
- Requests are modelled one at a time. Go's HTTP server runs `ServeHTTP` concurrently, and `inited` is read and written without a lock (init.go:40, init.go:143, init.go:154). Two `APIBox.Init` requests that both pass line 40 both route and apply their settings. A request that passed line 40 before another request set `inited` can reach the final `next(w, r)` (init.go:158). The model does not capture this race. `Gate.RunAtMostOneInit` holds for a sequential run only.
- In a sequential run the final `next(w, r)` (init.go:158) cannot be reached, because line 154 is always true there. The model has no such path.
