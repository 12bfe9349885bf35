# Gemini CLI DevTools: telemetry hub, playground flows, console filter, metrics summary

This project models four parts of the DevTools panel in Dafny and proves properties about them:

- **The telemetry hub** (`MonitorService`, services/monitor.ts). It is one in-memory object that owns five stores:
  - a log list capped at 1000 entries;
  - a metric list capped at 50 points;
  - the run-state record, updated by a shallow merge;
  - an unbounded chat list;
  - the saved-command list, where new commands go first and deletion is by id.

  Each store has its own listener set. Every mutation replaces the store and then synchronously calls that store's listeners in registration order. Subscribing calls the new listener once, immediately, and hands back an unsubscribe closure.
- **The playground's send and save flows** (`handleSend`, `simulateResponse`, `handleSaveCommand` in components/Playground.tsx). Each is a fixed sequence of hub mutations. Sending has three paths:
  - the simulation path, taken without a usable API key;
  - the API path when the generation call succeeds;
  - the API path when it fails.
- **The console's log filter** (components/Console.tsx). It matches a case-insensitive substring of the message and, optionally, the exact level.
- **The metrics panel's derived values** (components/Metrics.tsx): the chart rows and the four summary figures.

How the Dafny files map to the code:

- `types.dfy` holds the value records of types.ts.
- `seqs.dfy` holds generic sequence facts: `Array.filter` as `Keep`, subsequences, and duplicate-free sequences.
- `monitor.dfy` holds:
  - the pure definition of each store mutation, as functions `AfterLog`, `AfterMetric`, … over a `Stores` value;
  - the class `Hub`, with one `seq` field per store and one duplicate-free `seq` of abstract listener ids per listener `Set`.

  Every `Hub` method changes only the fields its `modifies` clause names. Its contract gives the new stores as the matching `After…` function of the old ones. The listener invocations are recorded in the field `delivered`, as (listener, snapshot) pairs. The hub also keeps a ghost `history` of the public mutations it was asked to perform, each with its clock reading.
  - a pure replay of a run of such mutations: `Replay` gives the stores it leaves, and `Deliveries` gives the listener invocations it makes, one notification of the mutated channel's listeners after each mutation.
- `playground.dfy` holds:
  - the pure effect of each flow on the stores, and the list of hub calls it makes, with lemmas about both;
  - the class `Playground`, whose methods drive a `Hub` and are proved equal to those effects and call lists. Each method's listener invocations are proved to be exactly the `Deliveries` of its call list.

  The generation call's result, the clock readings and the localized strings are parameters.
- `console.dfy` and `metrics.dfy` are pure functions over hub snapshots, with lemmas.

## Model

| member | source | states |
|---|---|---|
| Monitor.Push | services/monitor.ts:55-56 | Appending to a capped store: a store within the cap stays within it, and the new element is last. Below the cap the result is `old + [e]`; at the cap it is `old[1..] + [e]`, so exactly the single oldest entry is dropped. |
| Monitor.PushAllKeepsNewest | services/monitor.ts:55-56 | Over any run of insertions that starts within the cap, the store holds exactly the newest `cap` of everything inserted (exact FIFO eviction) and never exceeds the cap. |
| Monitor.Merge | services/monitor.ts:103-104 | `{ ...state, ...partial }`: each field the partial record names takes the given value, and every other field keeps its old value. |
| Monitor.MergeNoChange | services/monitor.ts:103-104 | An empty partial update leaves the record unchanged. |
| Monitor.MergeThen | services/monitor.ts:103-104 | Two successive updates equal one update with the later fields winning, so updating merges rather than replaces. |
| Monitor.MergeIdempotent | services/monitor.ts:103-104 | Repeating the same update changes nothing further. |
| Monitor.WithoutId | services/monitor.ts:163 | Deletion keeps, in their original order, exactly the commands whose id differs from the argument. Every occurrence of such a command survives, and none of a command carrying the id. An id no command carries leaves the list unchanged. |
| Monitor.DeleteUndoesSave | services/monitor.ts:151-165 | Deleting the command just saved, by the id it was given, restores the previous list, provided no older command carried that id. |
| Monitor.MutationsKeepIdsIssued | services/monitor.ts:46-165 | Every mutation keeps each generated id in the stores below the id counter, so the next id handed out is carried by no entry. |
| Monitor.SaveDeleteRoundTrip | services/monitor.ts:151-165 | On the stores of a valid hub, which keep every generated id below the counter, deleting the command just saved by its id restores the list. No freshness hypothesis is needed. |
| Monitor.Registered | services/monitor.ts:65 | `Set.add`: the new listener goes last, one already present keeps its place, the set stays duplicate-free, and its members are the old ones plus the listener. |
| Monitor.Removed | services/monitor.ts:67 | `Set.delete`: the members are the old ones minus the listener, the result is a subsequence of the old set, so the others keep their registration order, and removing an absent listener changes nothing. |
| Monitor.RemovedIdempotent | services/monitor.ts:67 | Running an unsubscribe closure a second time does nothing more. |
| Monitor.UnsubscribedHearsNothing | services/monitor.ts:67-71 | After its unsubscribe closure has run any positive number of times, the listener is absent, and a later notification of that set calls it zero times. |
| Monitor.FanoutCallsOnce | services/monitor.ts:70-72 | A notification calls each registered listener exactly once and calls no unregistered one. |
| Monitor.FanoutSkipsAbsent | services/monitor.ts:70-72 | A listener not in the set receives no call from a notification. |
| Monitor.CallsToAppend | services/monitor.ts:70-72 | Counting the calls a listener receives is additive over consecutive runs of deliveries. |
| Monitor.DefaultCommands | services/monitor.ts:18-31 | The saved-command store starts with exactly two commands, with ids `default-1` and `default-2`, in that order. |
| Monitor.Hub.constructor | services/monitor.ts:6-43 | After construction the log store is exactly the INFO/SYSTEM "initialized" entry followed by the SUCCESS/SYSTEM "Connected" entry. The saved commands are the two defaults, chat and metrics are empty, and no listeners are registered. The state is IDLE with a null current command, model `gemini-2.5-flash`, version `1.0.4-beta`, and the given key flag. |
| Monitor.Hub.Notify | services/monitor.ts:70-72 | The `forEach` loop of each notify helper (also at lines 98-100, 114-116, 146-148 and 173-175) appends one delivery per registered listener of the channel, in registration order, each carrying the channel's current snapshot. The stores and listener sets are unchanged. |
| Monitor.Hub.AddLog | services/monitor.ts:46-58 | The stores become `AfterLog` of the old ones: the entry with a fresh id, the given level, source, metadata and timestamp is appended under the 1000 cap, and nothing else changes. Every log listener is then notified with the new list. The hub invariant is preserved: the caps, the duplicate-free listener sets, and every generated id below the counter. The listener sets are unchanged. |
| Monitor.Hub.GetLogs | services/monitor.ts:60-62 | Returns the current log list. |
| Monitor.Hub.SubscribeLogs | services/monitor.ts:64-68 | Only the log listener set changes: the listener is added to it. The listener is called exactly once, immediately, with the current log list, even when that list is empty. The returned subscription names the log channel and that listener. |
| Monitor.Hub.ClearLogs | services/monitor.ts:74-77 | The log store becomes empty, every other store is unchanged, and the log listeners are notified with the empty list. |
| Monitor.Hub.AddMetric | services/monitor.ts:80-90 | The stores become `AfterMetric` of the old ones: the point is appended under the 50 cap, and nothing else changes. The metric listeners are then notified with the new list. |
| Monitor.Hub.SubscribeMetrics | services/monitor.ts:92-96 | Adds the listener to the metric set only, calls it once immediately with the current metrics, and returns its subscription. |
| Monitor.Hub.UpdateState | services/monitor.ts:103-106 | The state becomes `Merge(old state, patch)`, the other stores are unchanged, and the state listeners are notified with the merged record. |
| Monitor.Hub.SubscribeState | services/monitor.ts:108-112 | Adds the listener to the state set only, calls it once immediately with the current record, and returns its subscription. |
| Monitor.Hub.GetState | services/monitor.ts:118-120 | Returns the current run-state record. |
| Monitor.Hub.AddChatMessage | services/monitor.ts:123-133 | The message, with a fresh id, its role, text, timestamp and error flag (false by default), is appended to the chat with no cap. Nothing else changes, and the chat listeners are notified. |
| Monitor.Hub.ClearChat | services/monitor.ts:135-138 | The chat becomes empty, every other store is unchanged, and the chat listeners are notified with the empty list. |
| Monitor.Hub.SubscribeChat | services/monitor.ts:140-144 | Adds the listener to the chat set only, calls it once immediately with the current chat, and returns its subscription. |
| Monitor.Hub.SaveCommand | services/monitor.ts:151-160 | The new command, with a fresh id, is prepended: the list becomes `[new] + old`. Nothing else changes, and the command listeners are notified. |
| Monitor.Hub.DeleteCommand | services/monitor.ts:162-165 | The list becomes `WithoutId(old, id)`, and the command listeners are notified whether or not a command was removed. |
| Monitor.Hub.SubscribeCommands | services/monitor.ts:167-171 | Adds the listener to the command set only, calls it once immediately with the current commands, and returns its subscription. |
| Monitor.Hub.Unsubscribe | services/monitor.ts:67 | The closure removes the listener from its own channel's set, and every other channel's set and all stores are unchanged (the same closure appears at lines 95, 111, 143 and 170). |
| Console.IncludesIff | components/Console.tsx:76 | `includes` holds exactly when the needle occurs in the message at some position. |
| Console.FilteredLogs | components/Console.tsx:75-79 | The result is a subsequence of the logs: order is kept and nothing is invented. An entry is kept exactly when its lower-cased message contains the lower-cased filter and its level matches, which gives completeness as well as soundness. A matching entry keeps every one of its occurrences. With a specific level chosen, every kept entry has that level. |
| Console.FilterShowsAll | components/Console.tsx:76-77 | With level ALL and an empty filter, the view shows every log. |
| Console.FilterDependsOnLowerCase | components/Console.tsx:76 | Two filter strings with the same lower-case form select the same entries. |
| Console.FilterIgnoresCase | components/Console.tsx:76 | Upper-casing or lower-casing the filter string does not change the result. |
| Metrics.ChartData | components/Metrics.tsx:17-20 | The chart rows have the same length and order as the metric points; each row carries its point and that point's formatted time. |
| Metrics.RequestsAfterAdd | components/Metrics.tsx:101 | The request count is the number of points. A new metric raises it by one below the cap and leaves it at 50 at the cap. |
| Metrics.RoundedQuotient | components/Metrics.tsx:106 | `Math.round(a / n)` for n > 0: the result lies within one half of `a / n`, with halves rounded up. |
| Metrics.AverageLatency | components/Metrics.tsx:106 | The average is 0 for no points, and otherwise the mean latency rounded as `Math.round` rounds it. |
| Metrics.AverageLatencyBounds | components/Metrics.tsx:106 | For a non-empty list, the displayed average lies between the smallest and the largest latency. |
| Metrics.TotalTokensAppend | components/Metrics.tsx:112 | The token total is the sum over the points: appending a point adds exactly its tokens. |
| Metrics.TotalTokensMonotone | components/Metrics.tsx:112 | The token total does not decrease when a point with a non-negative count is appended. |
| Metrics.TotalLatencyBounds | components/Metrics.tsx:106 | Latencies that all lie in [lo, hi] sum to a value in [n·lo, n·hi]. |
| Metrics.LastModel | components/Metrics.tsx:118 | The last-model figure is `'-'` for no points, and otherwise the model of the final point. |
| Metrics.LastModelAfterAdd | components/Metrics.tsx:118 | After the hub records a metric, the last-model figure is that metric's model. |
| Seqs.Keep | components/Console.tsx:75 | `Array.filter`: the result is a subsequence, and an element is in it exactly when it is in the input and satisfies the predicate. Each element satisfying the predicate occurs as often as in the input, and any other element not at all. |
| Playground.TrimEmptyIffBlank | components/Playground.tsx:62 | `!s.trim()` holds exactly for an empty or whitespace-only string, with ECMAScript's whitespace set. |
| Playground.EstimateTokens | components/Playground.tsx:53 | `Math.ceil(chars / 4)`, also used at line 92: the fewest 4-character tokens that cover the characters. |
| Playground.TokenCountChoice | components/Playground.tsx:92 | The recorded count is the reported total when it is present and non-zero (the falsy-value fallback of JavaScript's or-operator). Otherwise it is the ceiling estimate over prompt plus reply length. |
| Playground.RunThenIdle | components/Playground.tsx:43-57 | The RUNNING update followed by the IDLE update leaves the status IDLE and the current command null, with every other field unchanged. |
| Playground.SendBlankIsNoOp | components/Playground.tsx:62 | A send changes no store exactly when the prompt is blank or whitespace-only. |
| Playground.SendEndsIdle | components/Playground.tsx:100-103 | After any non-blank send, on the simulation path and on both API outcomes, the state is IDLE with a null current command. The other state fields and the saved commands are unchanged. |
| Playground.SendAddsTwoMessages | components/Playground.tsx:61-104 | A non-blank send appends exactly two chat messages and keeps the old ones. The first is the user's prompt at the start time. The second is the model's reply at the end time, flagged as an error exactly on failure. Its text is the simulated text, or the response text (the no-text placeholder when empty), or the error label joined to the error's message. |
| Playground.SendRecordsMetric | components/Playground.tsx:52-99 | The simulation path pushes one metric with the elapsed time and `ceil(len(simulated)/4)` tokens. A successful call pushes one metric with the elapsed time and the chosen token count. A failed call leaves the metric store untouched. |
| Playground.SendLastLog | components/Playground.tsx:55-98 | The log cap is kept. After a non-blank send, the newest log is an API entry at the end time: ERROR exactly when the call failed, SUCCESS otherwise. |
| Playground.SendConsumesIds | components/Playground.tsx:61-104 | A blank send creates no entries. A simulated send creates five ids (two chat messages, three logs), and an API send creates four. |
| Playground.SendBracketsEveryPath | components/Playground.tsx:61-104 | The call list is empty exactly for a blank prompt. Otherwise the first call is the user's chat message, made before any branching, and the last is the IDLE update. |
| Playground.SimulationTrace | components/Playground.tsx:40-71 | The simulation path makes, in order: the user message, a WARN/SYSTEM log, an INFO/API log, RUNNING with `generateContent`, the simulated reply, a SUCCESS/API log, the metric with the estimated tokens, and IDLE with null. |
| Playground.SuccessTrace | components/Playground.tsx:74-103 | A successful call makes seven calls: after the user's message, RUNNING and the INFO log come next. There is exactly one model reply (the fourth call) and exactly one metric (the sixth), and no ERROR log. |
| Playground.FailureTrace | components/Playground.tsx:74-103 | A failed call makes exactly one ERROR log, followed by exactly one model reply, which is flagged as an error and carries the error label and message. No metric is recorded. |
| Monitor.ReplayAppend | services/monitor.ts:46-165 | Replaying a run split in two gives the stores of replaying the second part on the stores the first part leaves. |
| Monitor.DeliveriesAppend | services/monitor.ts:46-175 | The listener invocations of a run split in two are those of the first part followed by those of the second, made on the stores the first part leaves. |
| Monitor.ReplayStep | services/monitor.ts:46-175 | Extending a replayed run by one mutation gives the stores that mutation produces, and adds to the deliveries one notification of its channel with the new snapshot. |
| Monitor.DeliveriesCallsTo | services/monitor.ts:46-175 | With duplicate-free listener sets, a run of mutations calls a listener exactly once for each mutation of a channel it is registered on, and never otherwise. |
| Playground.SimulationIsReplay | components/Playground.tsx:40-59 | Replaying the simulation's call list, one hub mutation at a time, produces exactly the stores `SimulationEffect` states. |
| Playground.Playground.constructor | components/Playground.tsx:13-21 | The component starts with model `gemini-2.5-flash`, an empty prompt and command name, not loading, and the save dialog closed. |
| Playground.Playground.SimulateResponse | components/Playground.tsx:40-59 | The hub's stores become `SimulationEffect` of the old ones, and the hub receives exactly `SimulationCalls`. The listener invocations are exactly the `Deliveries` of those calls on the old stores and listener sets. Loading ends false, and no listener set changes. |
| Playground.Playground.SendSimulated | components/Playground.tsx:68-71 | Without a usable key: the hub's stores become `SimulationEffect` applied after the WARN/SYSTEM simulation log, and the hub receives exactly that log followed by `SimulationCalls`. The listener invocations are exactly the `Deliveries` of those calls on the old stores and listener sets. Loading ends false, and no listener set changes. |
| Playground.Playground.SendToApi | components/Playground.tsx:74-103 | The hub's stores become `ApiEffect` of the old ones for the given outcome, and the hub receives exactly `ApiCalls`: RUNNING, the INFO log, then the outcome's calls. The listener invocations are exactly the `Deliveries` of those calls on the old stores and listener sets. Loading ends false, and no listener set changes. |
| Playground.Playground.ReportReply | components/Playground.tsx:87-103 | After a successful generation call, the stores gain the reply, the SUCCESS log and the metric and then return to IDLE. The hub receives exactly those four calls, and the listener invocations are their `Deliveries`. Loading ends false. |
| Playground.Playground.ReportError | components/Playground.tsx:97-103 | After a failed generation call, the stores gain the ERROR log and the error reply and then return to IDLE. The hub receives exactly those three calls, and the listener invocations are their `Deliveries`. Loading ends false. |
| Playground.Playground.SendPrompt | components/Playground.tsx:64-103 | For a prompt known not to be blank, the stores become `PromptEffect` of the old ones, and the hub receives exactly `PromptCalls`: the user's message, then the simulation or API calls. The listener invocations are exactly the `Deliveries` of those calls on the old stores and listener sets. Loading ends false. |
| Playground.Playground.HandleSend | components/Playground.tsx:61-104 | The hub's stores become `SendEffect` of the old ones, and the hub receives exactly `SendCalls`. The listener invocations are exactly the `Deliveries` of those calls on the old stores and listener sets. A blank prompt leaves the hub, the prompt and the loading flag untouched. Otherwise the prompt is cleared and loading ends false. A key counts only when present and non-empty. |
| Playground.Playground.HandleSaveCommand | components/Playground.tsx:106-111 | When the name or the prompt is blank, the hub and the dialog state are untouched, so the saved commands are unchanged. Otherwise the hub's stores become `AfterSave` with that name and prompt, exactly one save call is made, and its listener invocations are that call's `Deliveries`. The name is cleared, and the dialog closes. |

## Left out

- Rendering: all JSX, recharts, scrolling, styling and React hooks are left out. The `useEffect` hooks only subscribe and unsubscribe, which the hub model covers. `handleLoadCommand`, which only sets the prompt, is left out too.
- The playground's local `messages` and `savedCommands` state is left out. It is only a listener's copy of the hub's stores.
- The `GoogleGenAI` call (components/Playground.tsx:81-85) is an external asynchronous library. Its result enters as the `Outcome` parameter: the response text (empty when absent) and the optional total token count, or the thrown error's message. Throws of non-`Error` values, and a `NaN` or non-numeric token count, are not modelled.
- Clocks are parameters: `Date.now()` becomes a `now` argument of each hub mutation, and the playground's `startTime` and `endTime`. The 1000 ms `setTimeout` is not modelled. Playground.tsx reads the clock separately for each entry; the model stamps the entries made before the wait with `startTime` and those after it with `endTime`.
- The random ids (`Math.random().toString(36)`) become serial numbers from a counter. The hub invariant keeps every generated id below the counter, so a new id is always fresh here, while random strings could in principle collide.
- `process.env.API_KEY` (services/monitor.ts:12) becomes the constructor's `apiKeyConfigured` flag.
- Asynchrony is not modelled: overlapping `handleSend` calls, re-entrant listeners that mutate the hub while they are being notified, and React's deferred state updates. Each flow is modelled as running to completion.
- Listeners are abstract ids. The model records each call with its snapshot and does not run listener code.
- Translations are left out. The strings the flows look up (simulation log, simulated reply, no-text placeholder, error label) are the `Texts` parameter.
- Formatting is a parameter or left out. Locale time formatting becomes the chart's `format` parameter. `toLocaleString` of the token total and wall-clock decomposition in the console's log rows are left out.
- Metadata is a list of key/value pairs. The `{ error }` object is its message text, and `` `${duration}ms` `` is the `Millis` value of the duration. `JSON.stringify` is left out.
- `StatePatch` has no explicit `undefined` field: a JavaScript spread would copy one, while the model only has named or absent fields.
- Console.Lower: lower-casing covers ASCII letters only, not the full Unicode case mapping of `toLowerCase`.
- Lengths count Dafny characters, not UTF-16 code units, so `length` differs for characters outside the Basic Multilingual Plane.
- Metrics.AverageLatency: latencies are whole milliseconds. The rounding of a floating-point quotient is modelled as exact rational rounding.
- DevToolsWidget.tsx, App.tsx, the contexts and the build configuration are not part of this model.
