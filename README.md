# Cardano playground core, modelled in Dafny

The playground is a browser code editor. It runs JavaScript or TypeScript in a WebContainer and lets the user connect a Cardano wallet. The frontend calls one serverless endpoint, which transpiles TypeScript; JavaScript runs in the WebContainer. The repository also holds a second endpoint that runs code in an isolated VM and a hello-world endpoint, which the frontend does not call. This project models the logic of that system that does not live inside a foreign runtime:

- ANSI colour-code stripping (`stripAnsiCodes`), a single pass that removes `ESC [ digits m`.
- The execute-code endpoint. Its injected `console` shim appends one tagged, space-joined line per call to the `__logs` buffer. Its handler chooses between 405, 400, a run, 200 `{result, console}` and 500 `{error, console: []}`.
- The compile and hello-world endpoints, and the CORS header writes they make on the response object before dispatching.
- The lazily booted WebContainer singleton (`instance`, `initializationPromise`), which must boot at most once.
- The frontend executor. `executeCode` dispatches on the language. `executeJavaScript` shows a running concatenation of chunk-wise stripped output chunks, or the error line.
- The wallet hook: `shortenAddress`, `disconnectWallet` and `connectWallet`'s chain of checks and error messages.
- The playground component: restoring language and code from session storage, `handleLoadExample`, example selection by title, and `handleExecuteCode`.

Modules, one per source file:

| module | file |
|---|---|
| `StringUtils` | `StringUtils.dfy` |
| `ExecuteCode` | `ExecuteCode.dfy` |
| `Compile` | `Compile.dfy` |
| `Index` | `Index.dfy` |
| `Cors` | `Cors.dfy` |
| `WebContainerInstance` | `WebContainerInstance.dfy` |
| `CodeExecutor` | `CodeExecutor.dfy` |
| `UseWallet` | `UseWallet.dfy` |
| `App` | `App.dfy` |

Two shared modules support them:
- `JsValues` holds JavaScript values, truthiness and property reads.
- `Http` holds the response object as a class with headers, a status and the list of sent replies.

Foreign behaviour enters as function-typed parameters:
- the isolate run;
- `transpileModule`;
- the container process;
- the fetch of the compile endpoint;
- `BrowserWallet.enable`.

Code that changes state is modelled as classes with `modifies` clauses:
- the response object;
- the console shim;
- the singleton's module variables;
- the console view;
- the wallet hook's state;
- the playground component's state.

Each of those methods is tied to a specification function, and the properties are proved about that function.

Two behaviours of the code are easy to miss, and the model follows the code:
- A throw during execution answers 500 with `console: []`. The lines logged before the throw are dropped, not returned.
- Destructuring `const { code } = req.body` of an undefined or null body throws outside the `try` block. The handler then rejects with no response, not 400; in the model this is `ExecuteCode.Rejected`.

`App.tsx` passes `setExecutionStatus` to `executeCode` as a fourth argument. `executeCode` takes three parameters, so the status is only ever reset to null and never set to success or error. `App.tsx`'s own `connectWallet`, `disconnectWallet` and `shortenAddress` repeat the wallet hook's, apart from the logging, and are modelled once in `UseWallet`.

## Model

| member | source | states |
|---|---|---|
| StringUtils.MatchLength | frontend/src/utils/stringUtils.ts:3 | a non-zero length is a prefix that is exactly ESC, `[`, one or more ASCII digits and `m`; zero means no prefix of any length matches |
| StringUtils.StripAnsiCodes | frontend/src/utils/stringUtils.ts:1-4 | the output is never longer than the input |
| StringUtils.Scan | frontend/src/utils/stringUtils.ts:3 | the single left-to-right pass splits the input into kept characters and removed well-formed colour codes that together spell the input |
| StringUtils.StripKeepsScannedText | frontend/src/utils/stringUtils.ts:3 | the result is exactly the kept characters of that split, so every removed span is a whole `ESC[digits m` code |
| StringUtils.NoEscUnchanged | frontend/src/utils/stringUtils.ts:3 | a string with no ESC character is returned unchanged |
| StringUtils.StripIsSubsequence | frontend/src/utils/stringUtils.ts:3 | the output is a subsequence of the input: kept characters keep their order |
| StringUtils.NoMatchUnchanged | frontend/src/utils/stringUtils.ts:3 | without a match anywhere the string is unchanged |
| StringUtils.MatchShortens | frontend/src/utils/stringUtils.ts:3 | a match at any position makes the output strictly shorter |
| StringUtils.ShorterIffMatch | frontend/src/utils/stringUtils.ts:3 | the output is shorter, and differs from the input, exactly when the input contains a match |
| StringUtils.RemovesColourCode | frontend/src/utils/stringUtils.ts:3 | `ESC[31mred` becomes `red` |
| StringUtils.KeepsCodeWithoutDigits | frontend/src/utils/stringUtils.ts:3 | `ESC[m` (no digits) is left intact |
| StringUtils.KeepsCompoundCode | frontend/src/utils/stringUtils.ts:3 | `ESC[1;32m` (contains `;`) is left intact |
| StringUtils.NotIdempotent | frontend/src/utils/stringUtils.ts:3 | one pass turns `ESC[ESC[1m2m` into `ESC[2m`, which a second pass removes: stripping is not idempotent |
| ExecuteCode.Tag | backend/api/execute-code.js:65-76 | only `log` has the empty tag; every other tag ends in `: ` |
| ExecuteCode.TagsDiffer | backend/api/execute-code.js:65-76 | different console methods put different tags in front of their lines |
| ExecuteCode.Join | backend/api/execute-code.js:66 | the joined length is the argument lengths plus one space between neighbours, and it starts with the first argument |
| ExecuteCode.JoinSnoc | backend/api/execute-code.js:66 | one more argument adds a single space and that argument at the end |
| ExecuteCode.Entry | backend/api/execute-code.js:65-76 | a line is the method's tag followed by the joined arguments |
| ExecuteCode.ConsoleShim.constructor | backend/api/execute-code.js:63 | the buffer starts empty |
| ExecuteCode.ConsoleShim.Log | backend/api/execute-code.js:65-67 | exactly one untagged line is appended to the buffer |
| ExecuteCode.ConsoleShim.Error | backend/api/execute-code.js:68-70 | exactly one line tagged `Error: ` is appended |
| ExecuteCode.ConsoleShim.Warn | backend/api/execute-code.js:71-73 | exactly one line tagged `Warning: ` is appended |
| ExecuteCode.ConsoleShim.Info | backend/api/execute-code.js:74-76 | exactly one line tagged `Info: ` is appended |
| ExecuteCode.ConsoleShim.Call | backend/api/execute-code.js:64-77 | any console call appends exactly its entry at the end, leaving earlier entries untouched |
| ExecuteCode.Replay | backend/api/execute-code.js:63-77 | the buffer after a sequence of calls has one entry per call, the i-th being the i-th call's line |
| ExecuteCode.ReplaySnoc | backend/api/execute-code.js:63-77 | one more call adds exactly its entry to the buffer |
| ExecuteCode.RunCalls | backend/api/execute-code.js:62-83 | sandboxed code issuing calls one after another on the shim grows the buffer by exactly their replay |
| ExecuteCode.ReplayAppend | backend/api/execute-code.js:63-77 | later calls only append: buffer order is call order |
| ExecuteCode.Handle | backend/api/execute-code.js:47-106 | non-POST answers 405 `{error: 'Only POST method is allowed'}`; a POST with an undefined or null body is rejected; 400 exactly for a falsy `code`, with `{error: 'Code is required'}`; 200 only after a completed run |
| ExecuteCode.NoIsolateWithoutCode | backend/api/execute-code.js:48-55 | a request that is not a POST with truthy code never depends on the isolate |
| ExecuteCode.LimitsAreFixed | backend/api/execute-code.js:58-92 | the isolate is consulted only with 128 MB and 1000 ms, whatever the request |
| ExecuteCode.RunReply | backend/api/execute-code.js:92-104 | a completed run answers 200 with the result and the buffer; a throw answers 500 with its message and an empty console |
| ExecuteCode.TraceOutcome | backend/api/execute-code.js:81-93 | a completed run's buffer has one line per console call made |
| ExecuteCode.TracedRequest | backend/api/execute-code.js:62-104 | for code issuing console calls, the `console` field on success lists Tag+Join per call in call order; on a throw it is empty |
| ExecuteCode.WarnThenThrow | backend/api/execute-code.js:100-104 | a warning followed by a throw of `boom` answers 500 `{error: 'boom', console: []}` |
| ExecuteCode.EntryExamples | backend/api/execute-code.js:65-70 | `console.log()` records `''`; `console.error('a','b')` records `Error: a b` |
| Compile.Decide | backend/api/compile.ts:10-36 | OPTIONS alone gets an empty body; 405 `{error: 'Method Not Allowed'}` exactly for other non-POSTs; 400 `{error: 'Bad Request: "code" is required'}` exactly for a POST without truthy body and code; 500 exactly when the transpiler throws |
| Compile.TranspileOnlyForValidPost | backend/api/compile.ts:10-25 | the transpiler is consulted only for a POST carrying code |
| Compile.ValidPostReply | backend/api/compile.ts:27-36 | a valid POST answers 200 `{jsCode}` with the output text, or 500 with `error` and `details` |
| Compile.Handle | backend/api/compile.ts:5-37 | CORS headers for POST and OPTIONS are set on every request, then exactly one reply, the decided one, is sent |
| Index.Decide | backend/api/index.ts:4-26 | 500 `{error: 'Internal Server Error'}` exactly on a fault; empty body exactly for OPTIONS; 405 `{error: 'Method Not Allowed'}` exactly for neither GET nor OPTIONS |
| Index.GetGreets | backend/api/index.ts:21 | GET answers 200 `{message: 'Hello, World!'}` |
| Index.Handle | backend/api/index.ts:4-26 | CORS headers for GET are set first, then exactly one reply, the decided one, is sent |
| Cors.WithCors | backend/utils/setCorsHeaders.ts:3-7 | origin `*`, the given methods and header `Content-Type` are set; only those three keys are added and every other header is unchanged |
| Cors.LaterCallWins | backend/utils/setCorsHeaders.ts:3-7 | a later call overrides an earlier one, so calling twice with the same methods equals calling once |
| Cors.SetCorsHeaders | backend/utils/setCorsHeaders.ts:3-7 | the headers become WithCors of the old headers; status and sent replies are untouched |
| WebContainerInstance.Get | frontend/src/webContainerInstance.ts:8-21 | a stored instance is returned with the state untouched; the boot starts only without instance and promise; the instance is never changed by a call |
| WebContainerInstance.Resolve | frontend/src/webContainerInstance.ts:14-17 | the boot's completion stores the booted container while the boot is under way |
| WebContainerInstance.StepPreservesReachable | frontend/src/webContainerInstance.ts:5-21 | every call and boot completion keeps boots = 1 exactly when the promise exists, and an instance only after it |
| WebContainerInstance.RunPreservesReachable | frontend/src/webContainerInstance.ts:5-21 | the same holds after any sequence of events |
| WebContainerInstance.BootAtMostOnce | frontend/src/webContainerInstance.ts:13-18 | over any sequence of calls and completions, the boot is started at most once |
| WebContainerInstance.RunNeverResets | frontend/src/webContainerInstance.ts:5-21 | the promise is never reset, a stored instance never changes, and boots never decrease |
| WebContainerInstance.ReadyForever | frontend/src/webContainerInstance.ts:9-17 | once the boot resolved, every later call returns that same container and leaves the state alone |
| WebContainerInstance.ContainerSlot.constructor | frontend/src/webContainerInstance.ts:5-6 | both module variables start null and nothing has booted |
| WebContainerInstance.ContainerSlot.GetWebContainerInstance | frontend/src/webContainerInstance.ts:8-21 | the module variables and the returned handle follow Get |
| WebContainerInstance.ContainerSlot.OnBooted | frontend/src/webContainerInstance.ts:14-17 | the module variables follow Resolve |
| CodeExecutor.StripChunksSubsequence | frontend/src/execution/codeExecutor.ts:14-22 | the shown output is a subsequence of what the process wrote: chunk-wise stripping only deletes characters |
| CodeExecutor.StripChunks | frontend/src/execution/codeExecutor.ts:14-20 | the accumulated output of a single chunk is that chunk stripped, as stripping the whole output would give |
| CodeExecutor.StripChunksSnoc | frontend/src/execution/codeExecutor.ts:18-19 | one more chunk appends exactly that chunk, stripped on its own |
| CodeExecutor.StripChunksAppend | frontend/src/execution/codeExecutor.ts:18-19 | the shown output distributes over splitting the chunk stream |
| CodeExecutor.Displays | frontend/src/execution/codeExecutor.ts:15-23 | one shown value per chunk, the k-th being the concatenation of the stripped first k+1 chunks |
| CodeExecutor.DisplaysSnoc | frontend/src/execution/codeExecutor.ts:17-20 | one more chunk adds exactly one shown value, the previous output extended by the stripped chunk |
| CodeExecutor.DisplaysGrow | frontend/src/execution/codeExecutor.ts:18-20 | each shown value extends the previous one by the next stripped chunk |
| CodeExecutor.ChunkwiseDiffersFromWhole | frontend/src/execution/codeExecutor.ts:18-19 | a colour code split across two chunks survives: chunk-wise stripping differs from stripping the whole output |
| CodeExecutor.ConsoleView.constructor | frontend/src/App.tsx:35 | the console output starts as `''` with nothing shown yet |
| CodeExecutor.ConsoleView.Set | frontend/src/execution/codeExecutor.ts:20 | the output becomes the text and is recorded as the latest shown value |
| CodeExecutor.StreamOutput | frontend/src/execution/codeExecutor.ts:14-23 | the values shown while the chunks arrive are exactly Displays of the chunks, and the output ends as all chunks stripped and concatenated |
| CodeExecutor.ExecuteJavaScript | frontend/src/execution/codeExecutor.ts:5-30 | the values shown are exactly the run's displays: per-chunk running output, or `Execution Error: ` + message; the output ends at the last one |
| CodeExecutor.CodeToRun | frontend/src/execution/codeExecutor.ts:39-59 | nothing runs without a container; JavaScript runs verbatim; otherwise the run happens exactly when the compile fetch succeeds, and what runs is the response's `jsCode` |
| CodeExecutor.Shown | frontend/src/execution/codeExecutor.ts:38-59 | the output is first cleared to `''`; then `WebContainer not initialized` without a container, the run's displays of the source for JavaScript, of the fetched `jsCode` for TypeScript, and nothing more when the fetch fails |
| CodeExecutor.FinalOutput | frontend/src/execution/codeExecutor.ts:14-58 | the console text left behind: `WebContainer not initialized` without a container, `''` after a failed fetch, `Execution Error: ` + message after a failed run, else every chunk stripped and concatenated |
| CodeExecutor.ExecuteCode | frontend/src/execution/codeExecutor.ts:33-60 | the compile endpoint is fetched exactly for TypeScript with a container; the code run and every value shown follow CodeToRun and Shown, and the final console text is the last value shown |
| UseWallet.SliceIndex | frontend/src/hooks/useWallet.ts:89 | a resolved slice index lies within the string |
| UseWallet.Slice | frontend/src/hooks/useWallet.ts:89 | the slice has the length between its resolved indices, or zero |
| UseWallet.ShortenAddress | frontend/src/hooks/useWallet.ts:87-90 | `''` for `''`; otherwise min(15,n) leading characters, `...`, then min(5,n) trailing characters, of total length min(15,n)+3+min(5,n) |
| UseWallet.ShortenEmptyIff | frontend/src/hooks/useWallet.ts:88 | the shortened form is empty exactly for the empty address |
| UseWallet.ShortenKeepsEnds | frontend/src/hooks/useWallet.ts:89 | for addresses of 20 or more characters, equal short forms mean equal first 15 and last 5 characters |
| UseWallet.ErrorText | frontend/src/hooks/useWallet.ts:74-76 | an Error's message, or the fixed fallback text for anything else thrown |
| UseWallet.Connect | frontend/src/hooks/useWallet.ts:45-79 | the list visibility and available wallets never change; the wallet changes only to what enabling returned |
| UseWallet.ConnectWithoutName | frontend/src/hooks/useWallet.ts:47-49 | an empty name sets only `No wallet name provided`, whatever enabling would do |
| UseWallet.ConnectEnableThrows | frontend/src/hooks/useWallet.ts:51-77 | a throw from enabling sets only the error text |
| UseWallet.ConnectAddress | frontend/src/hooks/useWallet.ts:55-63 | the address is the first reward address; an empty or missing list fails with `No addresses found` after the wallet is stored |
| UseWallet.ConnectLaterFailures | frontend/src/hooks/useWallet.ts:51-77 | a falsy enable result sets only `Failed to enable wallet`; a throw from `getRewardAddresses` sets its text after the wallet is stored; a throw from `getBalance`, or a missing or empty balance (`Failed to get balance`), sets the error after wallet and address are stored |
| UseWallet.ConnectSucceeds | frontend/src/hooks/useWallet.ts:51-71 | a connection that passes every check sets wallet, address and balance and leaves the error text alone |
| UseWallet.WalletSession.constructor | frontend/src/hooks/useWallet.ts:10-15 | no wallet, address `''`, no balance, no error, list hidden, no wallets |
| UseWallet.WalletSession.OnWalletsFetched | frontend/src/hooks/useWallet.ts:19-25 | the fetched wallets become `availableWallets` and nothing else changes |
| UseWallet.WalletSession.DisconnectWallet | frontend/src/hooks/useWallet.ts:81-85 | wallet, address and balance become null, `''` and null; error, list visibility and wallets are untouched |
| UseWallet.WalletSession.ConnectWallet | frontend/src/hooks/useWallet.ts:45-79 | the hook's state after the setter sequence is exactly Connect of the state before |
| App.Lookup | frontend/src/App.tsx:18-33 | the read gives a value exactly for a stored key, and that key's value |
| App.InitialLanguage | frontend/src/App.tsx:18-28 | JavaScript exactly when `javascript` is stored; TypeScript for `typescript`, any other value, no value or a storage error |
| App.LanguageRoundTrip | frontend/src/App.tsx:21-22 | a stored language name is restored as that language |
| App.InitialCode | frontend/src/App.tsx:30-33 | the saved string whenever one exists, even empty; `''` when absent |
| App.FindExample | frontend/src/App.tsx:319 | none exactly when no example has the title; otherwise an example with that title, with none before it |
| App.Persist | frontend/src/App.tsx:151-152 | `code` and `language` hold the example's code and language name; only those two keys are added and every other entry is unchanged |
| App.LanguageSaveAfterLoad | frontend/src/App.tsx:88-90 | after loading an example, the language-save effect writes what the load already persisted |
| App.PersistRestores | frontend/src/App.tsx:146-153 | what `handleLoadExample` persists is what the initializers restore on the next load |
| App.Playground.constructor | frontend/src/App.tsx:18-37 | language and code come from the initializers; status null; console output `''` |
| App.Playground.SaveLanguage | frontend/src/App.tsx:88-90 | the current language is written under `language`; language, code and status stay |
| App.Playground.HandleLoadExample | frontend/src/App.tsx:146-153 | code and language taken from the example, console cleared, status null, both values persisted |
| App.Playground.OnExampleSelected | frontend/src/App.tsx:318-323 | the first example with the chosen title is loaded; with no match, nothing changes |
| App.Playground.HandleExecuteCode | frontend/src/App.tsx:133-136 | the status becomes null, language, code and storage stay, and the console shows what ExecuteCode shows, ending on the last value shown |

## Left out

- The isolated VM and its internals are left out: memory-limit enforcement, the wall-clock timeout, script compilation and the `JSON.stringify`/`JSON.parse` transport. They are foreign and timing-dependent, so the run is a parameter that completes with a result and the buffer, or throws.
- Console argument stringification (`args.map(String)`) is left out, because JavaScript value stringification is foreign. Console arguments are modelled as strings already.
- `transpileModule` is a parameter that returns output text or throws, because it is a foreign compiler. Nothing is claimed about its text.
- WebContainer I/O is left out: the boot itself, the file write, the spawn and the stream piping are foreign. A process run is modelled as a sequence of output chunks or a failure before any output.
- The fetch of the compile endpoint is modelled as a `jsCode` value or a throw, because it is network I/O.
- CodeExecutor.ExecuteJavaScript: a stream error after some chunks is not modelled, and neither are the un-awaited `pipeTo` and `await process.exit`. The container and the stream are foreign, so they are not interleaved with later UI actions.
- CodeExecutor.ExecuteCode: the container's availability is a boolean, and `executeJavaScript`'s own second call of the singleton is folded into the container parameter. The singleton itself is modelled in `WebContainerInstance`.
- WebContainerInstance.Resolve: a rejected boot is not modelled, because it is foreign behaviour. The promise stays set and no instance is stored.
- The ADA balance (`parseInt(quantity) / 1_000_000`, `toFixed(2)`) is an abstract function to `real`, because it is floating point.
- The `BrowserWallet` SDK calls are parameters: `enable`, `getRewardAddresses` and `getBalance`. The wallets that `getAvailableWallets` returns are the argument of `OnWalletsFetched`.
- React's scheduling of effects is left out. `SaveLanguage` and `OnWalletsFetched` are methods that a caller runs at the moments the effects would fire. The `Playground` constructor gives the state of the first render, before the language-save effect has run.
- Timers are left out: the 3-second clearing of the error message, the debounced session save and the copy-message timeouts.
- Logging via `console.log` and `console.error` in the handlers, the hook and the component is left out, because it has no effect on state.
- UseWallet.ShortenAddress: Dafny strings are sequences of Unicode scalar values, while `String.prototype.slice` counts UTF-16 code units. The model therefore differs from the source when a character outside the Basic Multilingual Plane falls in the first 15 or last 5 positions, where JavaScript would split the surrogate pair. Bech32 wallet addresses are ASCII, so this does not arise for them.
- App.InitialCode: a throwing session storage in the code initializer is not modelled. The source has no `try` there, so such a throw would crash the render.
- Index.Handle: an exception in the try block is a boolean `fault`, and it is all or nothing: on a fault no header is written at all. A throw from the second or third `setHeader` would keep the writes before it, and that partial header map is not modelled. The response methods themselves are taken not to throw.
- Rendering, the editor, resizing, the click-outside listener, the wallet list toggle and the clipboard helpers are left out as UI and browser I/O.
- The duplicate `handleLoadExample` in the toolbar component is not part of this model.
- The build configuration and the static example data are not part of this model. Examples are a parameter.
