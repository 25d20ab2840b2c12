# cl-tutor: alpha orchestrator and bravo/charlie workers, in Dafny

A model of the three applications of cl-tutor. The orchestrator **alpha** takes a
request with a primary content and one content for each worker. It calls the
**bravo** client when the bravo content is non-empty, then the **charlie** client
when the charlie content is non-empty. It answers with the primary content, a
space and each worker's output. Bravo reverses the runes of its content and
upper-cases them. Charlie replaces every rune of `AEIOUaeiou` with `*`. Every
entry point first looks up a logger in the request context and fails without
one. Alpha's client calls also need the request id from the context.

Modules:

- `Common` (`common.dfy`): `Option`, `Result` (a value or a Go error's message), the `Logger` handle and the `Context` record with an optional logger and an optional request id.
- `Bravo` (`bravo.dfy`): `ReverseString` is the Go swap loop over a rune `array`; `ReverseUpper` is the function it is proved against; `Reversed` is an independent recursive reversal that the lemmas connect to it. The entry point appears twice: `BravoLogicFlowEntry` is the method with the source's statements, and `Transform` is the same entry point as a function, because alpha's injected clients must be functions; the method's `ensures r == Transform(ctx, req)` ties the two.
- `Charlie` (`charlie.dfy`): `ReplaceVowelsWithAsterisk` is the Go loop that appends to a builder; `Mask` is the function it is proved against. As in `Bravo`, `CharlieLogicFlowEntry` is the method and `Transform` the function form that the controllers use, tied by the method's `ensures r == Transform(ctx, req)`.
- `Alpha` (`alpha.dfy`): pure functions. The datatype `Alpha` holds the two injected client functions, as the Go struct does. Each function returns a `Traced` value: the result plus the client calls made, in order, with their arguments. This makes "which client is called, when, with what" statable.
- `Controllers` (`controllers.dfy`): the wiring of `main.go`. Each worker controller builds a context with a logger and the given request id. Alpha, built with these controllers, is proved to return the primary content followed by the real workers' outputs.

Strings are `seq<char>` and stand for Go rune sequences. Go errors are their message strings. The messages are the source's own.

Facts about the code that the model makes explicit:

- For main.go's sample request the bravo field is `John Doe OT OVARB MORF DLROW OLLEH` and the charlie field is `John Doe H*ll* W*rld fr*m Ch*rl** t*` (`Controllers.SampleRequest`).
- `AlphaLogicFlowEntry` turns every error of the flow into `error while contacting charlie service`, a bravo failure included; only a missing logger at the entry keeps its own message.
- The workers never read the request id; alpha reads it only just before calling a client.

## Model

| member | source | states |
|---|---|---|
| Bravo.ReverseString | applications/bravo/bravo.go:68-90 | with no logger, the logger error; otherwise `Ok(ReverseUpper(content))`: same rune count, and rune k of the output is the upper case of input rune n-1-k. The swap loop's invariants: i + j = n - 1; positions below i and above j are swapped; i..j are untouched |
| Bravo.BravoLogicFlowEntry | applications/bravo/bravo.go:43-66 | fails exactly when the context has no logger, with the logger message; otherwise the manipulated content is `ReverseUpper(req.content)`; the "error while manipulate string" branch is unreachable |
| Bravo.Upper | applications/bravo/bravo.go:85 | the per-rune case map on ASCII: no lower-case ASCII letter is left, and every other rune is unchanged |
| Bravo.Reversed | applications/bravo/bravo.go:81-84 | the runes in the opposite order; keeps the length, and `ReversedAt` gives position k |
| Bravo.ReverseUpper | applications/bravo/bravo.go:81-85 | `strings.ToUpper` of the reversed runes; keeps the length, and `ReverseUpperAt` gives its pointwise meaning |
| Bravo.UpperAll | applications/bravo/bravo.go:85 | `strings.ToUpper`: keeps the rune count; `UpperAllAt` gives its pointwise meaning |
| Bravo.UpperAllAt | applications/bravo/bravo.go:85 | `strings.ToUpper` maps rune to rune: same length, rune k becomes `Upper` of rune k |
| Bravo.UpperAllAppend | applications/bravo/bravo.go:85 | upper-casing distributes over concatenation |
| Bravo.ReversedAt | applications/bravo/bravo.go:81-84 | the recursive reversal puts input rune n-1-k at position k |
| Bravo.ReverseUpperAt | applications/bravo/bravo.go:81-85 | bravo's output has as many runes as its input, and its rune k is the upper case of input rune n-1-k |
| Bravo.ReversedTwice | applications/bravo/bravo.go:82-84 | reversing twice gives back the original runes |
| Bravo.UpperThenReverse | applications/bravo/bravo.go:85 | reverse-then-uppercase equals uppercase-then-reverse |
| Bravo.ReverseUpperTwice | applications/bravo/bravo.go:81-85 | bravo applied twice gives the upper-case form of the original: the case is lost, the order comes back |
| Bravo.ReverseUpperAppend | applications/bravo/bravo.go:81-85 | the output for `a + b` is the output for `b` followed by the output for `a` |
| Bravo.ReverseUpperEmpty | applications/bravo/bravo.go:81-85 | the empty input gives the empty output |
| Bravo.ReverseUpperOneRune | applications/bravo/bravo.go:81-85 | a one-rune input gives its upper-case form |
| Bravo.ReverseUpperExample | applications/bravo/bravo.go:81-85 | "abc" becomes "CBA" |
| Bravo.ReverseUpperSample | main.go:22 | main.go's bravo content "Hello World from Bravo to" becomes "OT OVARB MORF DLROW OLLEH" |
| Bravo.Transform | applications/bravo/bravo.go:43-66 | the entry point as a function: fails exactly when the logger is missing, with the logger message; otherwise `ReverseUpper(req.content)`, of the same length; `BravoLogicFlowEntry` is tied to it by `ensures r == Transform(ctx, req)` |
| Charlie.Mask | applications/charlie/charlie.go:81-89 | same rune count; rune k is `*` when input rune k is in `AEIOUaeiou` and the input rune otherwise |
| Charlie.ReplaceVowelsWithAsterisk | applications/charlie/charlie.go:68-95 | with no logger, the logger error; otherwise `Ok(Mask(content))`; the loop invariant is that after k runes the builder holds exactly `Mask` of that prefix |
| Charlie.CharlieLogicFlowEntry | applications/charlie/charlie.go:43-66 | fails exactly when the context has no logger, with the logger message; otherwise the manipulated content is `Mask(req.content)`; the "error while manipulate string" branch is unreachable |
| Charlie.MaskHasNoVowel | applications/charlie/charlie.go:81-89 | no rune of `AEIOUaeiou` appears in the output |
| Charlie.MaskIdempotent | applications/charlie/charlie.go:84-88 | masking the output again leaves it unchanged |
| Charlie.MaskUnchangedIffVowelFree | applications/charlie/charlie.go:83-89 | the input is returned unchanged if and only if it has no vowel |
| Charlie.MaskAppend | applications/charlie/charlie.go:83-89 | masking distributes over concatenation |
| Charlie.MaskEmpty | applications/charlie/charlie.go:83-89 | the empty input is returned unchanged |
| Charlie.MaskExample | applications/charlie/charlie.go:81-89 | "Hello World" becomes "H*ll* W*rld" |
| Charlie.MaskSample | main.go:23 | main.go's charlie content "Hello World from Charlie to" becomes "H*ll* W*rld fr*m Ch*rl** t*" |
| Charlie.Transform | applications/charlie/charlie.go:43-66 | the entry point as a function: fails exactly when the logger is missing, with the logger message; otherwise `Mask(req.content)`, of the same length; `CharlieLogicFlowEntry` is tied to it by `ensures r == Transform(ctx, req)` |
| Alpha.Alpha.RequestToBravoApp | applications/alpha/alpha.go:122-151 | no logger: the logger error, no call; no request id: the request-id error, no call; otherwise exactly one bravo call with the context's id and `req.BravoContent`; with both present, the result is exactly the client's answer when it succeeds and "error while contacting bravo service" when it fails |
| Alpha.Alpha.RequestToCharlieApp | applications/alpha/alpha.go:153-182 | the same for the charlie client and `req.CharlieContent`: a successful answer is passed through and a failure becomes "error while contacting charlie service" |
| Alpha.Alpha.BravoStage | applications/alpha/alpha.go:95-102 | the bravo block: a call (with the context's id and the bravo content) exactly when logger, id and content are present; fails iff the content is non-empty and the logger or id is missing or the client fails; otherwise yields the client's output, `""` for empty content |
| Alpha.Alpha.CharlieStage | applications/alpha/alpha.go:106-113 | the same for the charlie block |
| Alpha.Alpha.BusinessLogicFlow | applications/alpha/alpha.go:78-120 | no logger: error before any call; at most one call per client, bravo's before charlie's; each call gets the context's id and its own content; bravo is called iff logger, id and bravo content are present; charlie iff logger, id and charlie content are present and bravo did not fail; a missing id is an error iff some content is non-empty; the error message names the failed stage; succeeds iff no attempted client fails and the id is present whenever a content is non-empty; on success each field is `AlphaContent + " " +` that worker's output, `""` when skipped |
| Alpha.Alpha.AlphaLogicFlowEntry | applications/alpha/alpha.go:55-76 | no logger: the logger error and no call; otherwise every error is "error while contacting charlie service"; the same calls as the flow; the same success condition and merged response |
| Alpha.Alpha.SkippedWorkersLeaveTrailingSpace | applications/alpha/alpha.go:91-118 | both worker contents empty: no call, no request id needed, both fields are `AlphaContent + " "` |
| Alpha.Alpha.BravoFailureStopsCharlie | applications/alpha/alpha.go:95-100 | a failing bravo call: charlie is never called, and the error is returned with no partial response |
| Alpha.Alpha.ClientsCalled | applications/alpha/alpha.go:95-113 | the bravo client appears in the calls iff the flow reaches it; charlie iff the flow reaches it and bravo did not fail |
| Controllers.BravoController | main.go:47-64 | `ControllerBravoApplication` builds a context with a logger and the id, so it never fails and returns `ReverseUpper(request.content)` |
| Controllers.CharlieController | main.go:66-83 | `ControllerCharlieApplication`: never fails and returns `Mask(request.content)` |
| Controllers.Service | main.go:34-39 | alpha constructed with the two controllers: its bravo client always answers `ReverseUpper` of the content, its charlie client `Mask` of it |
| Controllers.ComposedWithWorkers | main.go:47-83 | wired to the real worker controllers, with a logger and a request id, alpha succeeds with `AlphaContent + " " + ReverseUpper(BravoContent)` and `AlphaContent + " " + Mask(CharlieContent)` |
| Controllers.SampleRequest | main.go:13-45 | `ControllerAlphaApplication`'s fixed request, id "1239893491327": alpha succeeds with `John Doe OT OVARB MORF DLROW OLLEH` and `John Doe H*ll* W*rld fr*m Ch*rl** t*` |

## Left out

- Logging: the `Infow`/`Errorw` calls, the deferred end-of-execution entries and the `fName`/`Package` strings. They do not affect any result.
- `logger/logger.go`: the zap and lumberjack configuration, the sinks and the process id. `Common.Logger` only stands for a logger being present.
- `context.Context` as a key/value store: the key types and the type assertions become the two `Option` fields of `Common.Context`.
- The `Name` and `Version` fields and the `New...Application` constructors. The `Alpha` datatype holds the two client functions that `NewAlphaApplication` stores.
- Bravo.Upper: maps only the ASCII letters a-z. Go's `unicode.ToUpper` also maps non-ASCII letters; `Upper` leaves them unchanged. The general lemmas use only that `Upper` works rune by rune and, in `ReverseUpperTwice`, that applying it twice changes nothing; the concrete examples (`ReverseUpperExample`, `ReverseUpperSample`, `Controllers.SampleRequest`) have ASCII input, where `Upper` and `strings.ToUpper` agree.
- UTF-8 decoding: input strings are rune sequences already. Go's replacement of invalid bytes with U+FFFD is not modelled. A Go string has a non-zero byte length exactly when it has a rune, so the `len(...) > 0` tests become "non-empty".
- A client that returns neither a response nor an error would make alpha panic when it reads the response. The client model returns a `Result`, so this case does not exist.
- `main.go`: the printing in `main` and its `panic`. The sample request of `ControllerAlphaApplication` is modelled by `Controllers.SampleRequest`.
