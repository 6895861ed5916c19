# node-7z process runner, modelled in Dafny

This project models `util/run.js` of node-7z, the function every node-7z
command goes through to run the 7-Zip binary. The function:

- checks its arguments;
- builds the argument vector, the positional `args` followed by the serialized switches;
- spawns 7-Zip;
- hands every stdout chunk to an optional `progress` callback, together with
  a cancel thunk;
- extracts `Error:` messages from stdout with a module-global regular
  expression that has the `g` flag;
- collects every non-empty stderr chunk;
- settles the returned promise once, on the first of a throwing progress
  callback, a process `error` event or the process `close` event.

Files:

- `values.dfy` (module `JsValues`): `Option`, and the JavaScript values the
  runner tells apart (strings, arrays, the `Error` objects it builds, and
  everything else).
- `error_regex.dfy` (module `ErrorRegex`): the pattern `Error:` + `os.EOL` +
  `?(.*)` and one `exec` of it. The exec follows RegExpBuiltinExec, section
  22.2.7.2 of ECMA-262 (2024 edition). `os.EOL` is a parameter (`Lf` or
  `CrLf`). The `?` applies to the last character of the line ending only, so
  on Windows the `\r` is required. The scan starts at `lastIndex`. A hit
  moves `lastIndex` to the end of the match; a miss resets it to 0. The
  capture runs up to the next line terminator (`\n`, `\r`, U+2028, U+2029).
- `runner.dfy` (module `Runner`): `feedStdout`, `feedStderr`, `assert`, and
  the synchronous start (`Start`). It also holds the per-invocation state
  machine twice:
  - as the function `Step` over a `State` value and a delivered `Event`;
  - as the class `Invocation`, whose fields are the closure variables of
    the source (`errors`, `canceled`, the pattern's `lastIndex`, the number of
    kill requests, the settlement), plus the chunks the progress callback
    was called with, and one method per event handler. Each
    method is proved to perform `Step`.
- `runner_properties.dfy` (module `RunnerProperties`): lemmas about
  sequences of events (`Replay`) and a few worked inputs.

What the code does, and the model with it:

- A command only has to be a string: `Start` accepts the empty string.
- The capture keeps what follows `Error:` verbatim. On POSIX,
  "Error: disk full\n" records " disk full", with the leading space.
- Each stdout chunk gets one `exec`, so it yields at most one entry, not one
  per marker.
- The `exec` starts at the `lastIndex` left by the previous chunk, so a
  marker before that index is skipped.
- Every call of the cancel thunk issues a kill; nothing makes it idempotent.

## Model

| member | source | states |
|---|---|---|
| `ErrorRegex.LineEnd` | util/run.js:8 | The greedy `(.*)` reaches the first line terminator at or after its start, or the end of the chunk, and contains no line terminator. |
| `ErrorRegex.MatchAt` | util/run.js:8 | A match at `p` exists iff `Error:` and the required part of `os.EOL` occur at `p`. The matched prefix is that literal, plus the optional last EOL character exactly when it is present. The capture is a maximal run without line terminators. |
| `ErrorRegex.Search` | util/run.js:14 | Returns the leftmost position at or after `from` where a match starts, and that match. Returns nothing iff no position up to the chunk's length matches. |
| `ErrorRegex.Exec` | util/run.js:14 | One global `exec`: a miss iff no match starts at or after `lastIndex`, and then `lastIndex` becomes 0. A hit is the leftmost match at or after `lastIndex`, and `lastIndex` becomes its end, strictly greater than before. |
| `Runner.FeedStdout` | util/run.js:10-20 | Returns undefined iff no marker occurs at or after `lastIndex`. Otherwise it returns the text after the first such marker and its optional EOL, up to the next line terminator, with no line terminator in it. The new `lastIndex` is that match's end, or 0 on a miss. |
| `Runner.FeedStderr` | util/run.js:22-28 | A non-empty chunk is returned verbatim. An empty chunk gives undefined. |
| `Runner.Assert` | util/run.js:30-34 | Throws nothing iff the condition holds. Otherwise throws an Error whose message is "Assertion failed: " followed by the message. |
| `Runner.Start` | util/run.js:46-56 | Refused iff `cmd` is not a string or `args` is not an array; the command check comes first, with its own message. Otherwise spawns `cmd` with a vector whose first part is exactly `args` and whose rest is the serialized switches, in order. |
| `Runner.Initial` | util/run.js:57-62 | Starts from the values set at util/run.js:57 and 62, and they are Consistent. |
| `Runner.StepKeepsConsistent` | util/run.js:62-95 | Every handler keeps three facts: only non-empty strings are in `errors`; `canceled` implies at least one kill; a resolved value's errors are a prefix of `errors`. |
| `Runner.Invocation.constructor` | util/run.js:46-63 | Performs `Start`. A refused call is already rejected with the assertion Error and has no process. A spawned one starts with no errors, not canceled, no kills, the caller-visible `lastIndex`, no progress calls, and is unsettled. |
| `Runner.Invocation.SettleWith` | util/run.js:54 | `resolve`/`reject`: only the first call sets the outcome. |
| `Runner.Invocation.OnStdoutData` | util/run.js:64-77 | A supplied progress callback (util/run.js:11-12) is recorded as called with the chunk, verbatim, before any scan. If it throws: one kill, reject with the thrown value, and `errors` and `lastIndex` unchanged. Otherwise `errors` gains the non-empty capture of `feedStdout` and `lastIndex` takes the scan's value. `canceled` is never touched. |
| `Runner.Invocation.OnStderrData` | util/run.js:78-88 | A non-empty chunk is appended verbatim; an empty chunk changes nothing. Nothing else changes. |
| `Runner.Invocation.CancelThunk` | util/run.js:66-69 | Sets `canceled` and adds one kill. It does not settle and touches neither `errors` nor `lastIndex`. |
| `Runner.Invocation.OnError` | util/run.js:89-92 | One kill, then rejects with the process error unless already settled. |
| `Runner.Invocation.OnClose` | util/run.js:93-95 | Resolves with the exit code and the errors collected so far, unless already settled. |
| `RunnerProperties.ReplayKeepsConsistent` | util/run.js:62-95 | The consistency facts hold after any sequence of events. |
| `RunnerProperties.SettledOutcomeIsFinal` | util/run.js:54 | Once settled, no later event changes the settlement. |
| `RunnerProperties.UnsettledWithoutSettlingEvent` | util/run.js:89-95 | With no throwing progress callback, `error` or `close` in the trace, the promise stays unsettled. |
| `RunnerProperties.FirstSettlingEventWins` | util/run.js:73-95 | The first settling event decides the outcome. `close` resolves with the errors collected by the events before it. A throwing progress callback or a process error rejects with its value. |
| `RunnerProperties.ErrorsOnlyGrow` | util/run.js:62 | `errors` is append-only: the old list is a prefix of the new one, and each event adds at most one entry. |
| `RunnerProperties.CanceledIffCancelCalled` | util/run.js:57 | At the end `canceled` holds iff it held before or the cancel thunk was called. |
| `RunnerProperties.KillsCountKillingEvents` | util/run.js:66-92 | The number of kills is exactly the number of cancel calls, process errors and throwing progress calls. |
| `RunnerProperties.StdoutChunkEffect` | util/run.js:14-19 | A stdout chunk whose callback returned appends the non-empty capture after the first marker at or after `lastIndex`, and moves `lastIndex` to the match's end. With no such marker, `errors` is unchanged and `lastIndex` becomes 0. `canceled`, the kills and the settlement do not change. |
| `RunnerProperties.ProgressSeesEveryStdoutChunk` | util/run.js:11-12 | With a progress callback supplied, the chunks it was called with are exactly the stdout chunks of the trace, verbatim and in delivery order, throwing or not. Without a callback there are no calls. |
| `RunnerProperties.DiskFullScan` | util/run.js:8 | On POSIX, "Error: disk full" (with or without a trailing newline) scanned from 0 yields " disk full" and `lastIndex` 16. |
| `RunnerProperties.RepeatedChunkIsMissedOnce` | util/run.js:14 | The same chunk "Error: disk full" delivered three times is recorded only twice. The second delivery is scanned from index 16, misses and resets `lastIndex`. |
| `RunnerProperties.PosixDiskFullResolves` | util/run.js:93-95 | "Error: disk full\n" then `close` with code 2 resolves with code 2 and the errors [" disk full"]. |
| `RunnerProperties.WindowsNeedsCarriageReturn` | util/run.js:8 | With `os.EOL` = "\r\n", "Error: x\r\n" records nothing and "Error:\r\nx\r\n" records "x". |

## Left out

- Process I/O: `child_process.spawn`, the stream objects, `run.kill()` and `run.stdin`. A kill is a counter. The stdin handle passed to `progress` is not represented.
- What `spawn` does with the command and the vector: the model stops at what is handed to it. If `spawn` throws inside the promise executor, the real promise rejects; `Start` still reports a spawn, for instance for an empty command.
- Decoding with `data.toString()`: chunks arrive as strings. Strings are sequences of Unicode scalar values, whereas JavaScript's `lastIndex` counts UTF-16 code units. The two differ only for characters outside the Basic Multilingual Plane.
- `./switches` (`utilSwitches`) is not part of this model. It is the caller-supplied total function `serialize`; its own validation errors are not represented.
- The progress callback itself. Each stdout event carries whether the callback threw and what. Calls of the cancel thunk made from inside the callback are separate `Cancel` events delivered before the chunk. Cancel touches neither `errors` nor `lastIndex`, so the order does not change the result.
- Scheduling: interleaving of stdout, stderr, `error` and `close` is one sequential event trace. Any trace is accepted, including events that Node would not deliver, such as a cancel without a progress callback or data after `close`.
- Concurrent invocations sharing the global pattern: one invocation is modelled, and the pattern's `lastIndex` at the start of the call is a parameter.
- Settlement aliasing: `close` resolves with an object holding the live `errors` array, so entries pushed later would show up in it. `Resolved` records the list as it stands at `close`.
- The `catch` around the stderr handler: `feedStderr` cannot throw on a string, so that path cannot be taken.
- Bluebird machinery beyond settle-once.
