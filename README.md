# Plugin discovery and the example modifier plugin, in Dafny

This project models two small pieces of the plugin layer of an API gateway
(a fork of KrakenD / Lura) and proves what they promise.

- **Discovery** (`discovery.dfy`, module `Discovery`): `Scan(folder, pattern)`
  reads a directory and returns, in listing order, `filepath.Join(folder, name)`
  for every entry that is not a directory and whose name contains `pattern` as a
  plain substring; when the directory cannot be read it returns an empty list and
  the error. The directory read is an input: the method receives the outcome of
  `os.ReadDir(folder)` as a `Result` holding either the listing or the read error.
  `Scan` is a method with a loop whose invariant ties the accumulated paths to the
  recursive specification `Discovered` of the prefix already visited. `Selected`
  gives the positions of the kept entries in increasing order. Its contract and the
  lemmas about it state soundness, completeness, "each kept entry exactly once",
  order preservation, irrelevance of ignored entries, the empty pattern, and the
  empty result.
- **Modifier plugin** (`modifier_plugin.dfy`, module `ModifierPlugin`): the
  example plugin `lura-request-modifier-example`.
  - `RegisterModifiers` returns the sequence of callback calls it makes.
  - The package-level `logger` and `ctx` variables are the fields of the class
    `PluginState`. `RegisterLogger` and `RegisterContext` are its methods.
    The two modifier factories are functions that read these fields.
  - The untyped modifier input is the datatype `Input`. It holds two
    independent optional views, one per type assertion, so a value may be a
    `RequestWrapper`, a `ResponseWrapper`, both or neither.
  - The closures the factories return are `RequestTransform` and
    `ResponseTransform`. Both reject the wrong shape with `UnknownRequestType`
    (`unkownTypeErr`).
  - `Modify` is `modifier`. It copies every field of the request except the
    context, which it leaves nil, and the path, which it extends by `/fooo`.
  - The plugin's `requestWrapper` struct holds the same eight values a
    `RequestWrapper` exposes, so both are the record `RequestView`. The struct's
    accessor methods are that record's field selectors.

`wrappers.dfy` holds the `Option` and `Result` datatypes used by both modules.

Stated assumptions:

- `filepath.Join` is taken with `/` as separator, on a clean folder and a plain
  entry name. `JoinPath(folder, name)` is `name` when the folder is empty or `.`,
  `"/" + name` when the folder is `/`, and `folder + "/" + name` otherwise.
- `path.Join(p, "/fooo")` is modelled for an already-clean request path `p`. An
  empty path or `/` gives `/fooo`, `.` gives `fooo`, and any other clean path
  gets `/fooo` appended.
- Go's `nil` slice returned by a scan with no match and the empty slice returned
  on a read error are both the empty sequence.
- A `context.Context`, `io.ReadCloser`, `*url.URL` and the `interface{}` values
  in response data or configuration are opaque and are compared only for equality.
  A nil one is `None`: the context, body and URL fields are `Option`s, and so are
  the values of the response data and configuration maps. This includes the
  package-level context slot, which `RegisterContext(nil)` may empty.
- Go maps (params, headers, query, response data) are reference values, and the
  request `modifier` builds shares them with its input. The model treats them
  as immutable Dafny values, so that sharing is invisible in the model.
- The type assertion `in.(Logger)` is modelled by comparing a candidate's method
  set with the six `Logger` methods.

## Model

| member | source | states |
|---|---|---|
| Discovery.Scan | plugin/plugin.go:15-30 | on a read failure: empty list and that error; otherwise no error and exactly the paths `Discovered` specifies, built by a loop whose invariant relates the list to the visited prefix |
| Discovery.Discovered | plugin/plugin.go:21-29 | the result of a successful scan never has more paths than the listing has entries |
| Discovery.Selected | plugin/plugin.go:23-27 | the kept positions: each is an entry that is not a directory and whose name contains the pattern, in strictly increasing order, and no such entry is missing |
| Discovery.DiscoveredFollowsSelected | plugin/plugin.go:23-27 | the k-th returned path is the folder joined with the name of the k-th kept entry, and there are as many paths as kept entries |
| Discovery.SelectedCountsEachEntryOnce | plugin/plugin.go:23-27 | a kept entry contributes exactly once, any other entry never |
| Discovery.ScanSound | plugin/plugin.go:24-25 | every returned path is the folder joined with the name of a non-directory entry whose name contains the pattern |
| Discovery.ScanComplete | plugin/plugin.go:23-27 | every non-directory entry whose name contains the pattern contributes its joined path, at a position belonging to it |
| Discovery.ScanPreservesOrder | plugin/plugin.go:23-26 | of two returned paths, the earlier comes from the earlier entry of the listing (no re-sorting) |
| Discovery.DiscoveredAppend | plugin/plugin.go:23-27 | scanning a listing split in two gives the two parts' results concatenated |
| Discovery.IgnoredEntryIrrelevant | plugin/plugin.go:24 | inserting a directory, or a file whose name lacks the pattern, anywhere in the listing leaves the result unchanged |
| Discovery.NoMatchIffEmpty | plugin/plugin.go:21-29 | a successful scan returns an empty list exactly when no entry is kept |
| Discovery.Contains | plugin/plugin.go:24 | `strings.Contains`: a pattern is found only in a name at least as long, and the empty pattern always (the exact characterisation is `ContainsIffOccurs`) |
| Discovery.Kept | plugin/plugin.go:24 | the entry filter: a kept entry is not a directory and its name is at least as long as the pattern; with the empty pattern exactly the non-directories are kept |
| Discovery.JoinPath | plugin/plugin.go:25 | `filepath.Join(folder, name)`: the path ends in the name, preceded by a separator unless the folder is empty or `.` |
| Discovery.EmptyPatternOccursEverywhere | plugin/plugin.go:24 | the empty pattern is contained in every name |
| Discovery.EmptyPatternKeepsEveryFile | plugin/plugin.go:24 | with the empty pattern an entry is kept exactly when it is not a directory |
| Discovery.ContainsIffOccurs | plugin/plugin.go:24 | the containment test is plain substring search: true exactly when the pattern occurs at some position of the name |
| Discovery.JoinPathInjective | plugin/plugin.go:25 | joining onto one folder maps distinct names to distinct paths |
| Discovery.DistinctNamesDistinctPaths | plugin/plugin.go:25 | a listing without repeated names yields no repeated path |
| ModifierPlugin.RegisterModifiers | proxy/plugin/tests/logger/main.go:23-31 | the callback is called exactly twice: first `r+"-request"` with the request factory and flags (true, false), then `r+"-response"` with the response factory and flags (false, true); each call has one phase flag set, matching its factory, and the two names differ |
| ModifierPlugin.ModifierNamesInjective | proxy/plugin/tests/logger/main.go:29-30 | two registration names are equal exactly when registerer and factory are the same, so co-loaded plugins with distinct names never collide |
| ModifierPlugin.PluginState.constructor | proxy/plugin/tests/logger/main.go:18-19 | the logger slot starts empty and the context slot holds the background context |
| ModifierPlugin.PluginState.RegisterLogger | proxy/plugin/tests/logger/main.go:33-40 | a candidate that satisfies Logger is stored in the logger slot; any other leaves the logger slot unchanged; the context slot never changes |
| ModifierPlugin.PluginState.RegisterContext | proxy/plugin/tests/logger/main.go:42-45 | with a logger registered, the context slot becomes the given context, possibly nil, and the logger slot is unchanged |
| ModifierPlugin.SatisfiesLogger | proxy/plugin/tests/logger/main.go:34-37 | the type assertion `in.(Logger)`: a passing value has the `Debug` (and `Fatal`) method, and a value with no methods never passes |
| ModifierPlugin.PluginState.RequestModifierFactory | proxy/plugin/tests/logger/main.go:47-89 | whatever the configuration, returns a request-phase closure that acts as `RequestTransform` on every input, the logging one exactly when a logger is registered |
| ModifierPlugin.PluginState.ResponseModifierFactory | proxy/plugin/tests/logger/main.go:91-157 | whatever the configuration, returns a response-phase closure that acts as `ResponseTransform` on every input, the logging one exactly when a logger is registered |
| ModifierPlugin.PluginState.Build | proxy/plugin/tests/logger/main.go:25-30 | the factory a registration hands over yields a modifier of that factory's phase |
| ModifierPlugin.RegisteredModifiersBehave | proxy/plugin/tests/logger/main.go:29-30 | through its registered factory, the request modifier rewrites requests, the response modifier returns responses unchanged, and each rejects the other shapes with `unkownTypeErr` |
| ModifierPlugin.RequestTransform | proxy/plugin/tests/logger/main.go:57-88 | fails with `unkownTypeErr` exactly when the input does not pass the RequestWrapper assertion (whether or not it is also a ResponseWrapper); otherwise returns a requestWrapper, which is no ResponseWrapper, holding the rewrite |
| ModifierPlugin.ResponseTransform | proxy/plugin/tests/logger/main.go:113-156 | fails with `unkownTypeErr` exactly when the input does not pass the ResponseWrapper assertion (whether or not it is also a RequestWrapper); otherwise returns its input unchanged |
| ModifierPlugin.Apply | proxy/plugin/tests/logger/main.go:59-156 | calling a returned closure: its only error is `unkownTypeErr`; a request closure answers with a request that is no response, a response closure with its own input |
| ModifierPlugin.RequestModifiersAgree | proxy/plugin/tests/logger/main.go:57-88 | the request closures built with and without a logger return the same value on every input: `modifier(req)` for a request, `unkownTypeErr` otherwise |
| ModifierPlugin.ResponseModifierIdempotent | proxy/plugin/tests/logger/main.go:113-156 | a response modifier returns a response as it came and rejects anything else, so applying it twice gives the original value |
| ModifierPlugin.PhasesRejectEachOther | proxy/plugin/tests/logger/main.go:59-135 | a request modifier fails with `unkownTypeErr` on every value that is not a RequestWrapper (a plain response among them), a response modifier on every value that is not a ResponseWrapper |
| ModifierPlugin.DualShapeAcceptedByBoth | proxy/plugin/tests/logger/main.go:59-135 | a value that is both a RequestWrapper and a ResponseWrapper passes both type assertions: the request modifier rewrites it, the response modifier returns it |
| ModifierPlugin.RewriteIsOnlyARequest | proxy/plugin/tests/logger/main.go:116-169 | the requestWrapper the request modifier returns is rejected by a response modifier |
| ModifierPlugin.RewriteRewrittenAgain | proxy/plugin/tests/logger/main.go:57-66 | the rewrite has a nil context, and the request closure built without a logger, fed the rewrite, appends the segment again |
| ModifierPlugin.Modify | proxy/plugin/tests/logger/main.go:159-169 | params, headers, body, method, URL and query are copied; the context is left nil; the path becomes `path.Join(old, "/fooo")` |
| ModifierPlugin.ModifyChangesOnlyPathAndContext | proxy/plugin/tests/logger/main.go:159-169 | the rewritten request equals the original with only path and context replaced, and restoring those two gives the original back |
| ModifierPlugin.JoinSuffix | proxy/plugin/tests/logger/main.go:167 | `path.Join(p, "/fooo")` for a clean `p`: every result but the one for `.` ends in `/fooo`, and a rooted path stays rooted |
| ModifierPlugin.JoinSuffixExtendsPath | proxy/plugin/tests/logger/main.go:167 | a clean path other than empty, `/` and `.` keeps its text and gains exactly the segment `/fooo` |
| ModifierPlugin.JoinSuffixExample | proxy/plugin/tests/logger/main.go:167 | `/users` becomes `/users/fooo` |

## Left out

- `os.ReadDir` itself: the listing, or the read error, is an input to `Scan`. That covers ReadDir's sorting by file name and its partial listing on error, which `Scan` discards.
- JoinPath: cleaning by `filepath.Join` of a folder that is not already clean (repeated or trailing separators, `.` and `..` elements) and the separator of other operating systems are not modelled.
- JoinSuffix: the full `path.Clean` algorithm behind `path.Join` is not modelled. For a request path that is not already clean (repeated or trailing slashes, `.` or `..` elements other than leading `..`), the model's result can differ from Go's.
- Logging and printing (`logger.Debug`, `fmt.Println`) are purely observational and are left out. So the two closures of one phase compute the same result, and `Modifier.withLogger` only records which closure a factory picked. Two panics inside that logging are left out as well. The logging closures call `Value` on the request's or response's context, which panics when it is nil. The response closure reads `v[0]` of every request header, which panics on an empty header slice.
- The shutdown goroutines the factories start (`<-ctx.Done()` followed by a log line) are concurrency and are left out. After `RegisterContext(nil)`, each later factory call starts a goroutine that calls `Done` on the nil context, which panics and ends the process; the model's `PluginState.Build` returns a working modifier instead.
- RewriteRewrittenAgain: only the closure built without a logger is covered. The logging request closure calls `Value` on its input's context (main.go:78-79), and the rewrite's context is always nil, so in the source feeding it the rewrite panics; the model, which leaves logging out, would return a second rewrite.
- PluginState.RegisterContext: the source assigns `ctx` and then panics when no logger is registered. The model states this as the precondition that a logger is present, so the state left behind by that panic is not modelled.
- Input: a value that is both a RequestWrapper and a ResponseWrapper answers `Context()` and `Headers()` once for both views. The model does not require the two views to agree on these.
- The type assertion `in.(Logger)` compares method names only. Method signatures, and a typed nil pointer that satisfies the interface, are not modelled.
- The factories' configuration argument is accepted and ignored, as in the source. The "Request modifier injected" confirmation and the "loaded without logger" message are output and are left out.
- `main()` and the dynamic loading of the plugin are not part of this model.
