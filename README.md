# httpbot input bridge — a Dafny model

httpbot is a small HTTP server that runs on an Android device and turns HTTP
requests into input events: taps, swipes, key presses and typed text. It has
four POST endpoints, `/tap`, `/swipe`, `/key` and `/text`. Each of them puts an
*action* onto a bounded queue. A pool of workers takes actions off the queue and
runs the matching command handler. The request waits a short while (200 ms for a
swipe, 150 ms for the rest) for the handler's answer. If the answer arrives it
is returned with status 200. If it does not, the request says `202 OK|<kind>
enqueued`. Before any of this the server applies two checks. A POST body over
1024 bytes is refused with 413. If four requests are already in flight, the new
one is refused with `503 ERROR|server busy`.

The project models all of `main.go` except the screen-capture stream and the
process wiring. It has six modules:

- `Wrappers` (wrappers.dfy): the `Option` type.

- `Strings` (strings.dfy): the parts of Go's `strings` package the parsers
  rely on, namely `TrimSpace`, `TrimPrefix` and `Fields`, plus the UTF-8 byte
  length that `len(string)` reports.
- `Strconv` (strconv.dfy): Go's `strconv.Atoi` (64-bit range, syntax and range
  errors, and the `NumError` message), `Itoa` and `Quote`, and the 64-bit
  wrap-around of `int` multiplication.
- `Commands` (commands.dfy): the three parsers `parseTap`, `parseSwipe` and
  `parseKey`. They return the same named results the Go functions return,
  including the partial values that come back with a coordinate error.
- `Handlers` (handlers.dfy): the four command handlers as imperative methods.
  Each is proved equal to a function that returns the reply and the trace of
  effects (commands run, touches sent, sleeps), and lemmas state what those
  traces are.
- `Dispatch` (dispatch.dfy): the worker's dispatch switch, the WORKERS and
  QUEUE_SIZE settings, and the request handler. The handler, the queue, the
  semaphore and the reply channels are a `Dispatcher` class whose methods
  change them in place.

The external `input` command (`runInputCommand`) is an `Executor`. This is a
function from the attempt number to the command's output and error, given as a
parameter. The touch device is recorded as trace events.

The worker calls the handler through `Dispatcher.run`. This is a constant
function field that the constructor sets to `Execute`, the model of the Go
switch (`main.go:235-246`), so it stays `Execute` for the object's lifetime.
`RunAction` proves that the imperative switch computes `Execute`.

The request handler waits for the worker until its deadline. `EnqueueAndWait`
models that wait with `finishedWithin: nat -> seq<Executor>`. Given a deadline
in milliseconds it returns the worker steps, in queue order, that complete
before the deadline. The method then runs those steps. The request's own reply
is in its channel exactly when its action was among them.

Partial values on a coordinate error: in `parseTap` and `parseSwipe` an
`Atoi` error on a coordinate returns through the named results
(`main.go:49-56`, `main.go:109-124`). So the coordinates converted before the
error come back, together with the value `Atoi` returned for the failing
field. The model returns the same values, and `TapAnswer` and `HeadAnswer`
state them.

Each parser is specified by a predicate over its field list, written in terms
of a reference reading of decimals (`Accepts`, `DecimalValue`) rather than
`Atoi`: `TapAnswer`, `HeadAnswer` with `SwipeAnswer`, and `KeyAnswer`. The
predicate goes through the checks in the code's order and names, for the first
check that fails, the exact error and values returned. When every check passes
it gives the value the fields denote (`TapOf`, `SwipeOf`, `KeyOf`).

## Model

| member | source | states |
|---|---|---|
| Strings.TrimSpaceEmpty | main.go:163-164 | `TrimSpace(s)` is empty exactly when every character of `s` is white space |
| Strings.FieldsEmpty | main.go:168-170 | `Fields(s)` is empty exactly when `s` is all white space, so a blank key command has zero fields |
| Strings.FieldsTrimSpace | main.go:44-45 | splitting the trimmed command gives the same fields as splitting the untrimmed one |
| Strings.FieldsJoin | main.go:98 | joining fields with single spaces and splitting again gives back exactly those fields |
| Strings.TrimPrefix | main.go:166 | when the prefix is present, the result is the rest after it; otherwise the string is unchanged |
| Strings.Fields | main.go:45 | every element of the split is a non-empty word without white space |
| Strings.Utf8Len | main.go:215 | the byte length lies between the rune count and four times the rune count, and is 0 only for the empty string |
| Strings.AsciiUtf8Len | main.go:215 | for an ASCII body, the reported byte length equals the number of characters |
| Strconv.Atoi | main.go:49-56 | the value is a 64-bit integer, an error names the input string, and a syntax error comes with the value 0 |
| Strconv.AtoiAccepts | main.go:49-56 | `Atoi` succeeds exactly on optionally signed decimal strings whose value fits in 64 bits, and then returns that value |
| Strconv.AtoiItoa | main.go:98 | every 64-bit integer printed by `Itoa` converts back to itself without error |
| Strconv.ItoaDecimal | main.go:98 | the decimal reference reads every printed 64-bit integer back as itself |
| Strconv.Wrap64 | main.go:90 | the result is a 64-bit integer congruent to the input modulo 2^64, and equals the input when the input already fits |
| Strconv.QuotePlain | main.go:76-77 | a printable ASCII string without quote or backslash is quoted by surrounding it with double quotes |
| Commands.ParseTap | main.go:43-72 | `TapAnswer` holds for the command's fields: a count other than 2 or 4 is the usage error with zeros; a first or second coordinate Atoi rejects is Atoi's error with the coordinates read so far; a bad amount is `invalid amount` and a bad delay `invalid delay`, each with all zeros; otherwise the tap the fields denote, with defaults 1 and 0 for two fields. Success holds exactly when `TapFieldsOk` holds, and a parsed tap is in the 64-bit range |
| Commands.TapFromFields | main.go:46-71 | the same `TapAnswer` and accepts-exactly facts over the field list |
| Commands.TapRoundTrip | main.go:74-98 | the fields echoed in the `OK\|tapped` answer parse back to the same tap |
| Commands.TapShortForm | main.go:57-70 | a command of two printed integers parses as that tap with amount 1 and delay 0 |
| Commands.SwipeHead | main.go:109-128 | `HeadAnswer`: the first coordinate Atoi rejects gives Atoi's error with the coordinates read before it; a duration that is not a non-negative decimal gives `invalid duration` with all zeros; otherwise the four coordinates and the duration the fields denote. It succeeds exactly when the first five fields pass |
| Commands.SwipeTail | main.go:129-136 | an amount field that is not a decimal ≥ 1 is `invalid amount`, then a delay field that is not a decimal ≥ 0 is `invalid delay`, each with all zeros; otherwise the head with the amount and delay those fields denote |
| Commands.ParseSwipe | main.go:103-138 | corrected parser, `SwipeAnswer` for the command's fields: a count other than 5 or 7 is the usage error; then the head checks; then for seven fields `invalid amount` or `invalid delay` with all zeros; otherwise the swipe the fields denote, with amount 1 and delay 0 for five fields. Success holds exactly when `SwipeFieldsOk` holds, and a parsed swipe is in range |
| Commands.SwipeFromFields | main.go:106-137 | the same `SwipeAnswer` and accepts-exactly facts over the field list |
| Commands.SwipeRoundTrip | main.go:140-157 | the seven numbers echoed in the `OK\|swiped` answer parse back to the same swipe |
| Commands.SwipeShortForm | main.go:101-107 | in the corrected parser, five printed integers with a non-negative duration parse as a swipe with amount 1 and delay 0 |
| Commands.ParseSwipeAsWritten | main.go:103-138 | parseSwipe as written: it panics only with index 5 out of range for length 5, on a five-field command, and it never succeeds except on seven fields; a five-field command whose first five fields fail a check returns the same answer as the corrected parser, i.e. the head's error with its values (e.g. `invalid duration` with all zeros for `0 0 1 1 -5`) |
| Commands.SwipeAsWrittenAgrees | main.go:103-138 | for any field count other than five, the parser as written returns the corrected parser's result |
| Commands.SwipeAsWrittenFiveFields | main.go:106-133 | with five fields, the parser as written never succeeds; it panics reading index 5 of a 5-element slice exactly when the first five fields are valid, and otherwise returns the head's error from main.go:109-127 |
| Commands.SwipeAsWrittenPanics | main.go:129 | every well-formed five-field swipe makes the parser as written panic with index 5 out of range |
| Commands.SwipeFiveFieldWitness | main.go:106-133 | on `0 0 10 10 300` the corrected parser gives the swipe with amount 1 and delay 0, and the parser as written panics |
| Commands.ParseKey | main.go:162-188 | `KeyAnswer` holds for the command's fields: a count other than 1 or 3 is the usage error; for three fields a bad amount is `invalid amount` and a bad delay `invalid delay`; every error has an empty key code and zeros; otherwise the first field as key code with the amount and delay the fields denote, defaults 1 and 0. Success holds exactly when `KeyFieldsOk` holds |
| Commands.KeyFromFields | main.go:168-187 | the same `KeyAnswer` and accepts-exactly facts over the field list, with amount and delay in the 64-bit range |
| Commands.SendKeyFallbackInert | main.go:163-167 | when the trimmed command is empty, the `sendKey` fallback also yields an empty string, so the fallback never changes the outcome |
| Commands.BlankKeyRejected | main.go:163-170 | a white-space-only key command is the usage error |
| Commands.KeyShortForm | main.go:172-173 | a lone word parses as that key code with amount 1 and delay 0 |
| Commands.KeyRoundTrip | main.go:168-187 | a key code followed by a printed amount ≥ 1 and delay ≥ 0 parses back to exactly those three values |
| Handlers.FailureReply | main.go:151 | a failed command's answer starts with `ERROR\|` |
| Handlers.ParseErrorReply | main.go:76-78 | a parse error's answer starts with `ERROR\|` |
| Handlers.FirstFailure | main.go:146-152 | the attempt index at which the first failure happens: no attempt before it failed, and the attempt at it failed, when it is below the amount |
| Handlers.RunRepeated | main.go:146-156 | the loop that runs a command up to `amount` times and sleeps after each success computes `Repeated` |
| Handlers.TouchRepeated | main.go:85-96 | the tap loop sends the touch then sleeps, `amount` times, and nothing else |
| Handlers.HandleTap | main.go:74-99 | the imperative tap handler's answer and effects equal `TapOutcome` |
| Handlers.HandleSwipe | main.go:140-158 | the imperative swipe handler's answer and effects equal `SwipeOutcome` |
| Handlers.HandleKey | main.go:190-205 | the imperative key handler's answer and effects equal `KeyOutcome` |
| Handlers.HandleText | main.go:207-216 | the imperative text handler's answer and effects equal `TextOutcome` |
| Handlers.RepeatedRuns | main.go:146-152 | a repeated command runs once per attempt up to and including the first failure, and `amount` times when none fails |
| Handlers.RepeatedSleeps | main.go:153-155 | one sleep of `delay` follows each successful attempt, and none follows a failure; a zero delay sleeps never |
| Handlers.RepeatedReply | main.go:146-157 | when every attempt succeeds, the answer is the success text; otherwise a failure exists below the amount |
| Handlers.RepeatedBounded | main.go:146-152 | at most `amount` commands run, and every one but the last succeeded |
| Handlers.TapSpec | main.go:74-99 | a tap that does not parse does nothing and answers the parse error; a parsed tap opens the device first and closes it last, touches the scaled (wrapped 64-bit) point exactly `amount` times, sleeps `delay` after each touch, runs no command and answers `OK\|tapped …` |
| Handlers.TapTouchExact | main.go:90 | when the scaled coordinates fit in 64 bits, the touch is at exactly (60x, 33y) |
| Handlers.TapEcho | main.go:98 | a parsed tap's answer spells out the tap, and those numbers parse back to the same tap |
| Handlers.SwipeSpec | main.go:140-158 | a swipe that does not parse runs nothing; a parsed swipe runs the same swipe command once per attempt up to the first failure, sleeps after each success, and answers OK only when all attempts succeed, else the first failure |
| Handlers.SwipeEcho | main.go:157 | when all runs succeed, the answer spells out the swipe, and those numbers parse back to the same swipe |
| Handlers.SwipedAllSucceed | main.go:146-157 | a parsed swipe whose every run succeeds answers `OK\|swiped` with its seven values |
| Handlers.KeySpec | main.go:190-205 | the same behaviour for the key command, with the answer `OK\|key <code> x<amount> delay=<delay>` |
| Handlers.BlankKeyRunsNothing | main.go:162-193 | a blank key command runs nothing and answers the usage error |
| Handlers.TextSpec | main.go:207-216 | an empty body runs nothing and answers `ERROR\|empty text`; any other body runs one text command, and answers its length in bytes on success or the failure otherwise |
| Handlers.TextAsciiLength | main.go:215 | for ASCII text the reported length is the character count |
| Dispatch.EnvPositive | main.go:276-287 | the setting is either the default or a positive integer the variable parses to, and it is positive whenever the default is |
| Dispatch.EnvPositiveSpec | main.go:276-287 | the variable is used exactly when it is a decimal 64-bit integer above zero; otherwise the default is used |
| Dispatch.EnvPositiveDefaults | main.go:276-287 | an unset, zero or negative variable keeps the default |
| Dispatch.RunAction | main.go:235-246 | the worker's switch runs the handler named by the action's type, and answers `ERROR\|unknown action` otherwise |
| Dispatch.ExecuteUnknown | main.go:244-245 | an action of any other type runs nothing and answers `ERROR\|unknown action` |
| Dispatch.RouteOf | main.go:322-420 | GET `/cap` and only it captures; a POST to `/swipe`, `/tap`, `/key` or `/text` enqueues with that kind, and only those do; every other request is NotFound, and exactly those are |
| Dispatch.Deliver | main.go:247-251 | delivering worker results leaves the number of reply channels unchanged |
| Dispatch.DeliverAnswered | main.go:247-251 | after the workers run, the channel of each action that ran holds that action's own answer |
| Dispatch.DeliverUntouched | main.go:247-251 | a channel whose action has not run keeps its contents |
| Dispatch.OwnReply | main.go:347-357 | the waiting request finds its own answer in its channel exactly when enough worker steps completed to reach its action |
| Dispatch.Dispatcher.constructor | main.go:276-290 | the pool and queue sizes come from WORKERS and QUEUE_SIZE; the queue, channels and log start empty, no permit is held, and the worker runs `Execute` |
| Dispatch.Dispatcher.TryAcquire | main.go:312-320 | a permit is taken exactly when fewer than four are held |
| Dispatch.Dispatcher.Release | main.go:314 | one permit is given back |
| Dispatch.Dispatcher.TryEnqueue | main.go:346-348 | the action is appended with a fresh empty reply channel exactly when the queue is below its capacity; otherwise nothing changes |
| Dispatch.Dispatcher.TrySend | main.go:248-251 | the answer is stored exactly when the capacity-one channel is empty; otherwise it is dropped |
| Dispatch.Dispatcher.WorkerStep | main.go:233-251 | one worker step takes the oldest action, appends its effects to the log and puts its answer in its own channel; on an empty queue nothing changes |
| Dispatch.Dispatcher.RunWorkers | main.go:232-253 | running n worker steps removes the n oldest actions, logs their effects in queue order and answers each in its own channel |
| Dispatch.Dispatcher.EnqueueAndWait | main.go:343-416 | a full queue answers `503 ERROR\|queue full` and changes nothing; otherwise the action is queued, the completed worker steps run, and the answer is 200 with the action's own reply if its step completed in time, else `202 OK\|<kind> enqueued` |
| Dispatch.Dispatcher.Serve | main.go:298-420 | an oversized POST is 413, and with four permits held a request is 503 busy, in both cases with no change; GET `/cap` streams and an unknown route is 404 with an empty body, with no change; a command route either is 503 queue-full with no change, or queues the action with a fresh channel, runs the completed worker steps (new queue, log and channels as in `EnqueueAndWait`) and answers 200 with its own reply or 202; the permit count is the same afterwards on every path |

## Left out

- `runInputCommand` (main.go:220-228) starts an external process. The model replaces it with the `Executor` parameter, which gives each attempt's output and error. Per-call timeouts and the process environment are not modelled.
- `OpenInputDevice`, `SendTouch` and `Close` are not part of this model; they are defined outside main.go. Their effects are trace events. Their errors are only logged, so an open or touch error does not change the answer, and the model does not represent it.
- `time.Sleep` is a `Sleep(ms)` trace event. Wall-clock time and the overflow of `time.Duration(delay) * time.Millisecond` for huge delays are not modelled.
- Handlers.HandleSwipe, Handlers.SwipeOutcome, Dispatch.Execute and through them the Dispatcher (WorkerStep, RunWorkers, EnqueueAndWait, Serve) use the corrected swipe parser. On a well-formed five-field swipe such as `0 0 10 10 300`, the program as written panics at main.go:129 inside the worker goroutine; nothing recovers the panic, so the whole process exits. The model instead runs the swipe with amount 1 and delay 0 and answers OK. `ParseSwipeAsWritten` with `SwipeAsWrittenPanics` records what the program does (see Findings).
- Goroutines: workers run one step at a time. The WORKERS value is stored but does not change the model's behaviour. The race between a worker and the request timer is the `finishedWithin` parameter. Interleavings in which a later action finishes before an earlier one are not represented.
- Reply channels are a sequence of capacity-one slots in the `Dispatcher`, not separate channel objects.
- Dispatch.Dispatcher.Serve: for GET `/cap` it only states that the response is the capture stream. Running `ascreencap`, copying its output and the two status 500 errors are not modelled.
- The server set-up, PORT, the health response, logging, signal handling and shutdown are not modelled.
- Strings.Utf8Len counts UTF-8 bytes for each Unicode scalar value. Request bodies that are not valid UTF-8 are not represented, because Dafny strings hold scalar values.
- Strconv.QuotePlain: the `Quote` model's `IsPrint` follows Go exactly up to U+00FF and treats every code point above U+00FF as printable, so such characters are emitted as they are. Go escapes the non-printable ones, for example U+0378 as `\u0378`; Go's Unicode printability tables are not modelled, so error messages quoting such inputs may differ. The lemma covers plain printable ASCII only.
- Dispatch.Dispatcher.constructor: the worker function is the `Execute` function. `RunAction` is the imperative switch proved equal to it; the worker calls the function value.

## Findings

| source | as written | input that shows it | evidently intended | confidence | as-written member | corrected member |
|---|---|---|---|---|---|---|
| main.go:106-133 | the length check lets 5 fields through, but `parts[5]` is then read unconditionally, so every well-formed five-field swipe panics with index 5 out of range for length 5 | `0 0 10 10 300` | five fields use the defaults amount=1 and delay=0, as the usage message `[amount] [delay]` says | high, not executed | Commands.ParseSwipeAsWritten, Commands.SwipeFiveFieldWitness | Commands.ParseSwipe |
