/** The playground's send and save flows (components/Playground.tsx): fixed
    sequences of hub mutations on the simulation path (no API key), the API path
    (success or failure of the generation call), and the save-command dialog. */
module Playground {
  import opened Types
  import opened Seqs
  import opened Monitor

  const GenerateCommand: string := "generateContent"

  /** `updateState({ status: 'RUNNING', currentCommand: 'generateContent' })`. */
  const RunningPatch: StatePatch := StatePatch(Some(Running), Some(Some(GenerateCommand)), None, None, None)

  /** `updateState({ status: 'IDLE', currentCommand: null })`. */
  const IdlePatch: StatePatch := StatePatch(Some(Idle), Some(None), None, None, None)

  /** The localized strings the flows use, as the current language supplies them. */
  datatype Texts = Texts(simulationLog: string, simulatedResponse: string, noText: string, errorLabel: string)

  /** What the external generation call yields: the response text (empty when
      absent) and its optional total token count, or the error's message. */
  datatype Outcome = Generated(text: string, totalTokenCount: Option<int>) | Failed(message: string)

  // ---------------------------------------------------------------------------
  // String.prototype.trim
  // ---------------------------------------------------------------------------

  /** The characters `trim` strips: ECMAScript WhiteSpace and LineTerminator. */
  predicate IsWhitespace(c: char)
  {
    || c == '\t' || c == '\n' || c == '\r' || c == ' '
    || c == '\U{000B}' || c == '\U{000C}' || c == '\U{00A0}' || c == '\U{1680}'
    || ('\U{2000}' <= c <= '\U{200A}')
    || c == '\U{2028}' || c == '\U{2029}' || c == '\U{202F}' || c == '\U{205F}'
    || c == '\U{3000}' || c == '\U{FEFF}'
  }

  /** Empty, or made of whitespace only. */
  predicate IsBlank(s: string)
  {
    forall i :: 0 <= i < |s| ==> IsWhitespace(s[i])
  }

  function TrimStart(s: string): string
    decreases |s|
  {
    if s != [] && IsWhitespace(s[0]) then TrimStart(s[1..]) else s
  }

  function TrimEnd(s: string): string
    decreases |s|
  {
    if s != [] && IsWhitespace(s[|s| - 1]) then TrimEnd(s[..|s| - 1]) else s
  }

  function Trim(s: string): string
  {
    TrimEnd(TrimStart(s))
  }

  lemma {:induction false} TrimStartBlank(s: string)
    ensures TrimStart(s) == [] <==> IsBlank(s)
    ensures TrimStart(s) != [] ==> !IsWhitespace(TrimStart(s)[0])
    decreases |s|
  {
    if s != [] && IsWhitespace(s[0]) {
      TrimStartBlank(s[1..]);
      assert IsBlank(s) <==> IsBlank(s[1..]) by {
        if IsBlank(s[1..]) {
          forall i | 0 <= i < |s| ensures IsWhitespace(s[i]) {
            if i > 0 { assert s[i] == s[1..][i - 1]; }
          }
        }
        if IsBlank(s) {
          forall i | 0 <= i < |s[1..]| ensures IsWhitespace(s[1..][i]) { assert s[1..][i] == s[i + 1]; }
        }
      }
    }
  }

  /** `TrimEnd` never strips a non-whitespace first character. */
  lemma {:induction false} TrimEndKeepsHead(s: string)
    requires s != [] && !IsWhitespace(s[0])
    ensures TrimEnd(s) != []
    decreases |s|
  {
    if IsWhitespace(s[|s| - 1]) {
      TrimEndKeepsHead(s[..|s| - 1]);
    }
  }

  /** `!s.trim()` holds exactly for blank strings. */
  lemma TrimEmptyIffBlank(s: string)
    ensures Trim(s) == "" <==> IsBlank(s)
  {
    TrimStartBlank(s);
    if TrimStart(s) != [] {
      TrimEndKeepsHead(TrimStart(s));
    }
  }

  // ---------------------------------------------------------------------------
  // Pure expressions of the send flow
  // ---------------------------------------------------------------------------

  /** `Math.ceil(chars / 4)`: the fewest 4-character tokens that cover `chars`. */
  function EstimateTokens(chars: nat): (r: nat)
    ensures chars <= 4 * r < chars + 4
  {
    (chars + 3) / 4
  }

  /** `result.text || noText`: an empty response text falls back to the placeholder. */
  function ReplyText(text: string, noText: string): string
  {
    if text != "" then text else noText
  }

  /** `totalTokenCount || Math.ceil((promptLength + textLength) / 4)`: a missing
      or zero count falls back to the estimate. */
  function TokenCount(reported: Option<int>, promptLength: nat, textLength: nat): int
  {
    if reported.Some? && reported.value != 0 then reported.value
    else EstimateTokens(promptLength + textLength)
  }

  /** The recorded token count is the reported one when it is non-zero, and otherwise
      the character-length estimate, which covers prompt and reply. */
  lemma TokenCountChoice(reported: Option<int>, promptLength: nat, textLength: nat)
    ensures reported.Some? && reported.value != 0 ==> TokenCount(reported, promptLength, textLength) == reported.value
    ensures (reported.None? || reported.value == 0) ==>
              promptLength + textLength <= 4 * TokenCount(reported, promptLength, textLength) < promptLength + textLength + 4
  {
  }


  // ---------------------------------------------------------------------------
  // What each flow does to the hub's stores
  // ---------------------------------------------------------------------------

  /** `endTime - startTime`: the duration in milliseconds between two clock readings. */
  function Elapsed(startTime: int, endTime: int): int
  {
    endTime - startTime
  }

  /** `simulateResponse`: INFO log, RUNNING, the simulated reply, SUCCESS log with
      the duration and the estimated tokens, the metric, IDLE. */
  function SimulationEffect(s: Stores, userPrompt: string, model: string, tr: Texts, startTime: int, endTime: int): Stores
  {
    var duration := Elapsed(startTime, endTime);
    var tokens := EstimateTokens(|tr.simulatedResponse|);
    var s1 := AfterLog(s, startTime, "Starting simulation for model: " + model, Info, API, Some([("prompt", Text(userPrompt))]));
    var s2 := AfterUpdate(s1, RunningPatch);
    var s3 := AfterChat(s2, endTime, Model, tr.simulatedResponse, false);
    var s4 := AfterLog(s3, endTime, "Received response from simulated backend", Success, API,
                       Some([("duration", Millis(duration)), ("tokens", Number(tokens))]));
    var s5 := AfterMetric(s4, endTime, duration, tokens, model);
    AfterUpdate(s5, IdlePatch)
  }

  /** The `try`/`catch` block of `handleSend`, after the generation call returned or threw. */
  function OutcomeEffect(s: Stores, userPrompt: string, model: string, outcome: Outcome, tr: Texts,
                         endTime: int, duration: int): Stores
  {
    match outcome
    case Generated(text, reported) =>
      var reply := ReplyText(text, tr.noText);
      var tokens := TokenCount(reported, |userPrompt|, |reply|);
      var s1 := AfterChat(s, endTime, Model, reply, false);
      var s2 := AfterLog(s1, endTime, "Gemini API Success", Success, API,
                         Some([("duration", Number(duration)), ("model", Text(model)), ("tokens", Number(tokens))]));
      AfterMetric(s2, endTime, duration, tokens, model)
    case Failed(message) =>
      var s1 := AfterLog(s, endTime, "Gemini API Error: " + message, Error, API, Some([("error", Text(message))]));
      AfterChat(s1, endTime, Model, tr.errorLabel + ": " + message, true)
  }

  /** The API branch of `handleSend`: RUNNING, the INFO log, the outcome, then IDLE
      from the `finally` block. */
  function ApiEffect(s: Stores, userPrompt: string, model: string, outcome: Outcome, tr: Texts,
                     startTime: int, endTime: int): Stores
  {
    var s1 := AfterLog(AfterUpdate(s, RunningPatch), startTime, "Calling Gemini API: " + model, Info, API,
                       Some([("promptLength", Number(|userPrompt|))]));
    AfterUpdate(OutcomeEffect(s1, userPrompt, model, outcome, tr, endTime, Elapsed(startTime, endTime)), IdlePatch)
  }

  /** A prompt that is sent: the user's message, then the simulation (no usable key)
      or the API call bracketed by RUNNING and IDLE. */
  function PromptEffect(s: Stores, prompt: string, keyed: bool, outcome: Outcome, model: string, tr: Texts,
                        startTime: int, endTime: int): Stores
  {
    var s1 := AfterChat(s, startTime, User, prompt, false);
    if !keyed then
      SimulationEffect(AfterLog(s1, startTime, tr.simulationLog, Warn, SYSTEM, None), prompt, model, tr, startTime, endTime)
    else
      ApiEffect(s1, prompt, model, outcome, tr, startTime, endTime)
  }

  /** `handleSend`: nothing for a blank prompt, and otherwise the prompt is sent. */
  function SendEffect(s: Stores, prompt: string, keyed: bool, outcome: Outcome, model: string, tr: Texts,
                      startTime: int, endTime: int): Stores
  {
    if Trim(prompt) == "" then s else PromptEffect(s, prompt, keyed, outcome, model, tr, startTime, endTime)
  }

  /** The running and idle updates of one send leave the record idle with no current
      command, and every other field as it was. */
  lemma RunThenIdle(st: CLIState)
    ensures Merge(Merge(st, RunningPatch), IdlePatch) == st.(status := Idle, currentCommand := None)
  {
  }

  /** A blank or whitespace-only prompt changes no store; any other prompt does. */
  lemma SendBlankIsNoOp(s: Stores, prompt: string, keyed: bool, outcome: Outcome, model: string, tr: Texts,
                        startTime: int, endTime: int)
    ensures SendEffect(s, prompt, keyed, outcome, model, tr, startTime, endTime) == s <==> IsBlank(prompt)
  {
    TrimEmptyIffBlank(prompt);
    if !IsBlank(prompt) {
      var r := SendEffect(s, prompt, keyed, outcome, model, tr, startTime, endTime);
      assert |r.chat| == |s.chat| + 2;
    }
  }

  /** After a send the run state is idle with no current command, whatever happened
      to the generation call, and the saved commands are untouched. */
  lemma SendEndsIdle(s: Stores, prompt: string, keyed: bool, outcome: Outcome, model: string, tr: Texts,
                     startTime: int, endTime: int)
    requires !IsBlank(prompt)
    ensures var r := SendEffect(s, prompt, keyed, outcome, model, tr, startTime, endTime);
      && r.state == s.state.(status := Idle, currentCommand := None)
      && r.commands == s.commands
  {
    TrimEmptyIffBlank(prompt);
    RunThenIdle(s.state);
  }

  /** A send appends exactly two chat messages: the user's prompt, then the model's
      reply, which is the simulated text, the response text (or its placeholder), or
      the error label with the error's message, flagged as an error only on failure. */
  lemma SendAddsTwoMessages(s: Stores, prompt: string, keyed: bool, outcome: Outcome, model: string, tr: Texts,
                            startTime: int, endTime: int)
    requires !IsBlank(prompt)
    ensures var r := SendEffect(s, prompt, keyed, outcome, model, tr, startTime, endTime);
      && |r.chat| == |s.chat| + 2
      && r.chat[..|s.chat|] == s.chat
      && r.chat[|s.chat|] == ChatMessage(Fresh(s.nextId), User, prompt, startTime, false)
      && r.chat[|s.chat| + 1].role == Model
      && r.chat[|s.chat| + 1].timestamp == endTime
      && (r.chat[|s.chat| + 1].error <==> keyed && outcome.Failed?)
      && (!keyed ==> r.chat[|s.chat| + 1].text == tr.simulatedResponse)
      && (keyed && outcome.Generated? ==> r.chat[|s.chat| + 1].text == ReplyText(outcome.text, tr.noText))
      && (keyed && outcome.Failed? ==> r.chat[|s.chat| + 1].text == tr.errorLabel + ": " + outcome.message)
  {
    TrimEmptyIffBlank(prompt);
  }

  /** A send records one metric, with the estimated or reported token count, unless
      the generation call failed; then the metric store is untouched. */
  lemma SendRecordsMetric(s: Stores, prompt: string, keyed: bool, outcome: Outcome, model: string, tr: Texts,
                          startTime: int, endTime: int)
    requires !IsBlank(prompt)
    ensures var r := SendEffect(s, prompt, keyed, outcome, model, tr, startTime, endTime);
      && (!keyed ==> r.metrics == Push(s.metrics,
                                       MetricPoint(endTime, Elapsed(startTime, endTime), EstimateTokens(|tr.simulatedResponse|), model),
                                       MaxMetrics))
      && (keyed && outcome.Generated? ==>
            r.metrics == Push(s.metrics,
                              MetricPoint(endTime, Elapsed(startTime, endTime),
                                          TokenCount(outcome.totalTokenCount, |prompt|, |ReplyText(outcome.text, tr.noText)|),
                                          model),
                              MaxMetrics))
      && (keyed && outcome.Failed? ==> r.metrics == s.metrics)
  {
    TrimEmptyIffBlank(prompt);
  }

  /** The log store stays within its cap, and the newest entry of a send is the API's
      verdict at the end time: ERROR exactly when the generation call failed, and
      SUCCESS otherwise. */
  lemma SendLastLog(s: Stores, prompt: string, keyed: bool, outcome: Outcome, model: string, tr: Texts,
                    startTime: int, endTime: int)
    requires |s.logs| <= MaxLogs
    ensures var r := SendEffect(s, prompt, keyed, outcome, model, tr, startTime, endTime);
      && |r.logs| <= MaxLogs
      && (!IsBlank(prompt) ==>
            && r.logs != []
            && var last := r.logs[|r.logs| - 1];
            && last.source == API && last.timestamp == endTime
            && (last.level == Error <==> keyed && outcome.Failed?)
            && (last.level == Success <==> !(keyed && outcome.Failed?)))
  {
    TrimEmptyIffBlank(prompt);
  }

  /** Every send that is not blank consumes five fresh ids on the simulation path and
      four on the API path. */
  lemma SendConsumesIds(s: Stores, prompt: string, keyed: bool, outcome: Outcome, model: string, tr: Texts,
                        startTime: int, endTime: int)
    ensures SendEffect(s, prompt, keyed, outcome, model, tr, startTime, endTime).nextId
         == s.nextId + (if IsBlank(prompt) then 0 else if keyed then 4 else 5)
  {
    TrimEmptyIffBlank(prompt);
  }

  // ---------------------------------------------------------------------------
  // The hub calls each flow makes, in order
  // ---------------------------------------------------------------------------

  /** The calls of `simulateResponse`, with the clock before and after the delay. */
  function SimulationCalls(userPrompt: string, model: string, tr: Texts, startTime: int, endTime: int): seq<Call>
  {
    var duration := Elapsed(startTime, endTime);
    var tokens := EstimateTokens(|tr.simulatedResponse|);
    [ LogCall(startTime, "Starting simulation for model: " + model, Info, API, Some([("prompt", Text(userPrompt))])),
      StateCall(RunningPatch),
      ChatCall(endTime, Model, tr.simulatedResponse, false),
      LogCall(endTime, "Received response from simulated backend", Success, API,
              Some([("duration", Millis(duration)), ("tokens", Number(tokens))])),
      MetricCall(endTime, duration, tokens, model),
      StateCall(IdlePatch) ]
  }

  /** The calls once the generation call has returned: the reply, SUCCESS log and
      metric, or the ERROR log and error reply, then IDLE from the `finally` block. */
  function OutcomeCalls(userPrompt: string, model: string, outcome: Outcome, tr: Texts,
                        endTime: int, duration: int): seq<Call>
  {
    match outcome
    case Generated(text, reported) =>
      var reply := ReplyText(text, tr.noText);
      var tokens := TokenCount(reported, |userPrompt|, |reply|);
      [ ChatCall(endTime, Model, reply, false),
        LogCall(endTime, "Gemini API Success", Success, API,
                Some([("duration", Number(duration)), ("model", Text(model)), ("tokens", Number(tokens))])),
        MetricCall(endTime, duration, tokens, model),
        StateCall(IdlePatch) ]
    case Failed(message) =>
      [ LogCall(endTime, "Gemini API Error: " + message, Error, API, Some([("error", Text(message))])),
        ChatCall(endTime, Model, tr.errorLabel + ": " + message, true),
        StateCall(IdlePatch) ]
  }

  /** The calls of the API branch of `handleSend`: RUNNING, the INFO log, then those
      of the outcome. */
  function ApiCalls(userPrompt: string, model: string, outcome: Outcome, tr: Texts, startTime: int, endTime: int): seq<Call>
  {
    [ StateCall(RunningPatch),
      LogCall(startTime, "Calling Gemini API: " + model, Info, API, Some([("promptLength", Number(|userPrompt|))])) ]
    + OutcomeCalls(userPrompt, model, outcome, tr, endTime, Elapsed(startTime, endTime))
  }

  /** The user's message, the first call of a send. */
  function UserCall(prompt: string, startTime: int): Call
  {
    ChatCall(startTime, User, prompt, false)
  }

  /** The WARN log of a send without a usable key. */
  function WarnCall(tr: Texts, startTime: int): Call
  {
    LogCall(startTime, tr.simulationLog, Warn, SYSTEM, None)
  }

  /** The calls that send a prompt, in order. */
  function PromptCalls(prompt: string, keyed: bool, outcome: Outcome, model: string, tr: Texts,
                       startTime: int, endTime: int): seq<Call>
  {
    if !keyed then
      [UserCall(prompt, startTime)] + ([WarnCall(tr, startTime)] + SimulationCalls(prompt, model, tr, startTime, endTime))
    else
      [UserCall(prompt, startTime)] + ApiCalls(prompt, model, outcome, tr, startTime, endTime)
  }

  /** Everything `handleSend` asks of the hub, in order. */
  function SendCalls(prompt: string, keyed: bool, outcome: Outcome, model: string, tr: Texts,
                     startTime: int, endTime: int): seq<Call>
  {
    if Trim(prompt) == "" then [] else PromptCalls(prompt, keyed, outcome, model, tr, startTime, endTime)
  }

  /** Replaying a run starts with its first call. */
  lemma ReplayCons(s: Stores, c: Call, rest: seq<Call>)
    ensures Replay(s, [c] + rest) == Replay(Apply(s, c), rest)
  {
    assert ([c] + rest)[1..] == rest;
  }

  /** Replaying the calls of `simulateResponse` has the effect the flow states. */
  lemma SimulationIsReplay(s: Stores, userPrompt: string, model: string, tr: Texts, startTime: int, endTime: int)
    ensures Replay(s, SimulationCalls(userPrompt, model, tr, startTime, endTime))
         == SimulationEffect(s, userPrompt, model, tr, startTime, endTime)
  {
    var c := SimulationCalls(userPrompt, model, tr, startTime, endTime);
    assert c == [c[0]] + ([c[1]] + ([c[2]] + ([c[3]] + ([c[4]] + [c[5]]))));
    var s1 := Apply(s, c[0]);
    var s2 := Apply(s1, c[1]);
    var s3 := Apply(s2, c[2]);
    var s4 := Apply(s3, c[3]);
    var s5 := Apply(s4, c[4]);
    ReplayCons(s, c[0], [c[1]] + ([c[2]] + ([c[3]] + ([c[4]] + [c[5]]))));
    ReplayCons(s1, c[1], [c[2]] + ([c[3]] + ([c[4]] + [c[5]])));
    ReplayCons(s2, c[2], [c[3]] + ([c[4]] + [c[5]]));
    ReplayCons(s3, c[3], [c[4]] + [c[5]]);
    ReplayCons(s4, c[4], [c[5]]);
    ReplayOne(s5, [], c[5]);
  }

  predicate IsErrorLog(c: Call) { c.LogCall? && c.level == Error }
  predicate IsModelReply(c: Call) { c.ChatCall? && c.role == Model }

  /** A prompt that is sent is recorded as the user's chat message before anything
      else, and the run state is reset to idle last, on every path; a blank prompt
      makes no call at all. */
  lemma SendBracketsEveryPath(prompt: string, keyed: bool, outcome: Outcome, model: string, tr: Texts,
                              startTime: int, endTime: int)
    ensures var calls := SendCalls(prompt, keyed, outcome, model, tr, startTime, endTime);
      && (calls == [] <==> IsBlank(prompt))
      && (!IsBlank(prompt) ==>
            && calls[0] == ChatCall(startTime, User, prompt, false)
            && calls[|calls| - 1] == StateCall(IdlePatch))
  {
    TrimEmptyIffBlank(prompt);
  }

  /** The simulation path: WARN/SYSTEM log, INFO/API log, RUNNING, the simulated
      reply, SUCCESS/API log, one metric with the estimated tokens, IDLE. */
  lemma SimulationTrace(prompt: string, outcome: Outcome, model: string, tr: Texts, startTime: int, endTime: int)
    requires !IsBlank(prompt)
    ensures var calls := SendCalls(prompt, false, outcome, model, tr, startTime, endTime);
      && |calls| == 8
      && calls[1].LogCall? && calls[1].level == Warn && calls[1].source == SYSTEM
      && calls[2].LogCall? && calls[2].level == Info && calls[2].source == API
      && calls[3] == StateCall(RunningPatch)
      && calls[4] == ChatCall(endTime, Model, tr.simulatedResponse, false)
      && calls[5].LogCall? && calls[5].level == Success && calls[5].source == API
      && calls[6] == MetricCall(endTime, Elapsed(startTime, endTime), EstimateTokens(|tr.simulatedResponse|), model)
      && calls[7] == StateCall(IdlePatch)
  {
    TrimEmptyIffBlank(prompt);
  }

  /** A successful call: after the user's message, RUNNING and the INFO log come
      next, before the reply, and there is exactly one model reply, exactly one
      metric, and no ERROR log. */
  lemma SuccessTrace(prompt: string, text: string, reported: Option<int>, model: string, tr: Texts,
                     startTime: int, endTime: int)
    requires !IsBlank(prompt)
    ensures var calls := SendCalls(prompt, true, Generated(text, reported), model, tr, startTime, endTime);
      && |calls| == 7
      && calls[1] == StateCall(RunningPatch)
      && calls[2].LogCall? && calls[2].level == Info
      && (forall i :: 0 <= i < |calls| ==> (IsModelReply(calls[i]) <==> i == 3))
      && (forall i :: 0 <= i < |calls| ==> (calls[i].MetricCall? <==> i == 5))
      && (forall i :: 0 <= i < |calls| ==> !IsErrorLog(calls[i]))
  {
    TrimEmptyIffBlank(prompt);
  }

  /** A failed call: exactly one ERROR log, followed by exactly one model reply that
      carries the error label and message and is flagged as an error; no metric. */
  lemma FailureTrace(prompt: string, message: string, model: string, tr: Texts, startTime: int, endTime: int)
    requires !IsBlank(prompt)
    ensures var calls := SendCalls(prompt, true, Failed(message), model, tr, startTime, endTime);
      && |calls| == 6
      && (forall i :: 0 <= i < |calls| ==> (IsErrorLog(calls[i]) <==> i == 3))
      && (forall i :: 0 <= i < |calls| ==> (IsModelReply(calls[i]) <==> i == 4))
      && calls[4] == ChatCall(endTime, Model, tr.errorLabel + ": " + message, true)
      && (forall i :: 0 <= i < |calls| ==> !calls[i].MetricCall?)
  {
    TrimEmptyIffBlank(prompt);
  }

  // ---------------------------------------------------------------------------
  // The component
  // ---------------------------------------------------------------------------

  /** The playground's props (`apiKey`) and React state, driving one hub. */
  class Playground {
    const hub: Hub
    const apiKey: Option<string>
    var modelName: string
    var prompt: string
    var loading: bool
    var newCommandName: string
    var showSaveDialog: bool

    /** `!!apiKey`: an empty key counts as none. */
    predicate HasKey()
    {
      apiKey.Some? && apiKey.value != ""
    }

    constructor (hub: Hub, apiKey: Option<string>)
      ensures this.hub == hub && this.apiKey == apiKey
      ensures modelName == DefaultModel && prompt == "" && !loading
      ensures newCommandName == "" && !showSaveDialog
    {
      this.hub := hub;
      this.apiKey := apiKey;
      modelName := DefaultModel;
      prompt := "";
      loading := false;
      newCommandName := "";
      showSaveDialog := false;
    }

    /** `simulateResponse(userPrompt)`; `startTime` and `endTime` are the clock
        before and after the simulated delay. */
    method SimulateResponse(userPrompt: string, startTime: int, endTime: int, tr: Texts)
      requires hub.Valid()
      modifies this`loading, hub
      ensures hub.Valid() && !loading
      ensures hub.Contents() == SimulationEffect(old(hub.Contents()), userPrompt, modelName, tr, startTime, endTime)
      ensures hub.history == old(hub.history) + SimulationCalls(userPrompt, modelName, tr, startTime, endTime)
      ensures hub.delivered == old(hub.delivered)
                               + Deliveries(old(hub.Contents()), old(hub.Subscribers()),
                                            SimulationCalls(userPrompt, modelName, tr, startTime, endTime))
      ensures hub.Subscribers() == old(hub.Subscribers())
    {
      ghost var calls := SimulationCalls(userPrompt, modelName, tr, startTime, endTime);
      ghost var s0, d0, subs := hub.Contents(), hub.delivered, hub.Subscribers();
      ghost var done: seq<Call> := [];
      ghost var s, d := s0, d0;
      AppendSix(hub.history, calls[0], calls[1], calls[2], calls[3], calls[4], calls[5]);
      AppendSix([], calls[0], calls[1], calls[2], calls[3], calls[4], calls[5]);
      loading := true;
      hub.AddLog(startTime, "Starting simulation for model: " + modelName, Info, API, Some([("prompt", Text(userPrompt))]));
      ReplayLog(s0, d0, subs, done, s, d, calls[0], hub.Contents(), hub.delivered);
      done, s, d := done + [calls[0]], hub.Contents(), hub.delivered;
      hub.UpdateState(RunningPatch);
      ReplayUpdate(s0, d0, subs, done, s, d, calls[1], hub.Contents(), hub.delivered);
      done, s, d := done + [calls[1]], hub.Contents(), hub.delivered;
      var simulatedText := tr.simulatedResponse;
      hub.AddChatMessage(endTime, Model, simulatedText);
      ReplayChat(s0, d0, subs, done, s, d, calls[2], hub.Contents(), hub.delivered);
      done, s, d := done + [calls[2]], hub.Contents(), hub.delivered;
      var duration := Elapsed(startTime, endTime);
      var estimatedTokens := EstimateTokens(|simulatedText|);
      hub.AddLog(endTime, "Received response from simulated backend", Success, API,
                 Some([("duration", Millis(duration)), ("tokens", Number(estimatedTokens))]));
      ReplayLog(s0, d0, subs, done, s, d, calls[3], hub.Contents(), hub.delivered);
      done, s, d := done + [calls[3]], hub.Contents(), hub.delivered;
      hub.AddMetric(endTime, duration, estimatedTokens, modelName);
      ReplayMetric(s0, d0, subs, done, s, d, calls[4], hub.Contents(), hub.delivered);
      done, s, d := done + [calls[4]], hub.Contents(), hub.delivered;
      hub.UpdateState(IdlePatch);
      ReplayUpdate(s0, d0, subs, done, s, d, calls[5], hub.Contents(), hub.delivered);
      done := done + [calls[5]];
      assert done == calls;
      SimulationIsReplay(s0, userPrompt, modelName, tr, startTime, endTime);
      loading := false;
    }

    /** Lines 74-103 of `handleSend`: the generation call and its bookkeeping. */
    method SendToApi(currentPrompt: string, outcome: Outcome, startTime: int, endTime: int, tr: Texts)
      requires hub.Valid()
      modifies this`loading, hub
      ensures hub.Valid() && !loading
      ensures hub.Contents() == ApiEffect(old(hub.Contents()), currentPrompt, modelName, outcome, tr, startTime, endTime)
      ensures hub.history == old(hub.history) + ApiCalls(currentPrompt, modelName, outcome, tr, startTime, endTime)
      ensures hub.delivered == old(hub.delivered)
                               + Deliveries(old(hub.Contents()), old(hub.Subscribers()),
                                            ApiCalls(currentPrompt, modelName, outcome, tr, startTime, endTime))
      ensures hub.Subscribers() == old(hub.Subscribers())
    {
      ghost var h0, s0, d0, subs := hub.history, hub.Contents(), hub.delivered, hub.Subscribers();
      ghost var calls := ApiCalls(currentPrompt, modelName, outcome, tr, startTime, endTime);
      ghost var running := StateCall(RunningPatch);
      ghost var calling := LogCall(startTime, "Calling Gemini API: " + modelName, Info, API,
                                   Some([("promptLength", Number(|currentPrompt|))]));
      ghost var done: seq<Call> := [];
      ghost var s, d := s0, d0;
      loading := true;
      hub.UpdateState(RunningPatch);
      ReplayUpdate(s0, d0, subs, done, s, d, running, hub.Contents(), hub.delivered);
      done, s, d := done + [running], hub.Contents(), hub.delivered;
      hub.AddLog(startTime, "Calling Gemini API: " + modelName, Info, API, Some([("promptLength", Number(|currentPrompt|))]));
      ReplayLog(s0, d0, subs, done, s, d, calling, hub.Contents(), hub.delivered);
      done, s, d := done + [calling], hub.Contents(), hub.delivered;
      ghost var rest := OutcomeCalls(currentPrompt, modelName, outcome, tr, endTime, Elapsed(startTime, endTime));
      assert calls == [running, calling] + rest;
      assert done == [running, calling];
      assert hub.history == h0 + done;
      match outcome {
        case Generated(resultText, reported) =>
          ReportReply(currentPrompt, resultText, reported, endTime, Elapsed(startTime, endTime), tr);
        case Failed(message) =>
          ReportError(currentPrompt, message, endTime, Elapsed(startTime, endTime), tr);
      }
      ReplayThen(s0, d0, subs, done, s, d, rest, hub.delivered);
      AppendThen(h0, done, rest);
    }

    /** Lines 87-95 of `handleSend`, then the `finally` block at lines 100-103: the
        reply, the SUCCESS log and the metric, then IDLE. */
    method ReportReply(currentPrompt: string, resultText: string, reported: Option<int>,
                       endTime: int, duration: int, tr: Texts)
      requires hub.Valid()
      modifies this`loading, hub
      ensures hub.Valid() && !loading
      ensures hub.Contents() == AfterUpdate(OutcomeEffect(old(hub.Contents()), currentPrompt, modelName,
                                                          Generated(resultText, reported), tr, endTime, duration), IdlePatch)
      ensures hub.history == old(hub.history) + OutcomeCalls(currentPrompt, modelName, Generated(resultText, reported), tr, endTime, duration)
      ensures hub.delivered == old(hub.delivered)
                               + Deliveries(old(hub.Contents()), old(hub.Subscribers()),
                                            OutcomeCalls(currentPrompt, modelName, Generated(resultText, reported), tr, endTime, duration))
      ensures hub.Subscribers() == old(hub.Subscribers())
    {
      ghost var h0, s0, d0, subs := hub.history, hub.Contents(), hub.delivered, hub.Subscribers();
      ghost var calls := OutcomeCalls(currentPrompt, modelName, Generated(resultText, reported), tr, endTime, duration);
      ghost var done: seq<Call> := [];
      ghost var s, d := s0, d0;
      AppendFour(h0, calls[0], calls[1], calls[2], calls[3]);
      AppendFour([], calls[0], calls[1], calls[2], calls[3]);
      var text := ReplyText(resultText, tr.noText);
      hub.AddChatMessage(endTime, Model, text);
      ReplayChat(s0, d0, subs, done, s, d, calls[0], hub.Contents(), hub.delivered);
      done, s, d := done + [calls[0]], hub.Contents(), hub.delivered;
      var tokenCount := TokenCount(reported, |currentPrompt|, |text|);
      hub.AddLog(endTime, "Gemini API Success", Success, API,
                 Some([("duration", Number(duration)), ("model", Text(modelName)), ("tokens", Number(tokenCount))]));
      ReplayLog(s0, d0, subs, done, s, d, calls[1], hub.Contents(), hub.delivered);
      done, s, d := done + [calls[1]], hub.Contents(), hub.delivered;
      hub.AddMetric(endTime, duration, tokenCount, modelName);
      ReplayMetric(s0, d0, subs, done, s, d, calls[2], hub.Contents(), hub.delivered);
      done, s, d := done + [calls[2]], hub.Contents(), hub.delivered;
      loading := false;
      hub.UpdateState(IdlePatch);
      ReplayUpdate(s0, d0, subs, done, s, d, calls[3], hub.Contents(), hub.delivered);
      done := done + [calls[3]];
      assert done == calls;
    }

    /** Lines 97-99 of `handleSend`, then the `finally` block at lines 100-103: the
        ERROR log and the error reply, then IDLE. */
    method ReportError(currentPrompt: string, message: string, endTime: int, duration: int, tr: Texts)
      requires hub.Valid()
      modifies this`loading, hub
      ensures hub.Valid() && !loading
      ensures hub.Contents() == AfterUpdate(OutcomeEffect(old(hub.Contents()), currentPrompt, modelName,
                                                          Failed(message), tr, endTime, duration), IdlePatch)
      ensures hub.history == old(hub.history) + OutcomeCalls(currentPrompt, modelName, Failed(message), tr, endTime, duration)
      ensures hub.delivered == old(hub.delivered)
                               + Deliveries(old(hub.Contents()), old(hub.Subscribers()),
                                            OutcomeCalls(currentPrompt, modelName, Failed(message), tr, endTime, duration))
      ensures hub.Subscribers() == old(hub.Subscribers())
    {
      ghost var h0, s0, d0, subs := hub.history, hub.Contents(), hub.delivered, hub.Subscribers();
      ghost var calls := OutcomeCalls(currentPrompt, modelName, Failed(message), tr, endTime, duration);
      ghost var done: seq<Call> := [];
      ghost var s, d := s0, d0;
      AppendThree(h0, calls[0], calls[1], calls[2]);
      AppendThree([], calls[0], calls[1], calls[2]);
      hub.AddLog(endTime, "Gemini API Error: " + message, Error, API, Some([("error", Text(message))]));
      ReplayLog(s0, d0, subs, done, s, d, calls[0], hub.Contents(), hub.delivered);
      done, s, d := done + [calls[0]], hub.Contents(), hub.delivered;
      hub.AddChatMessage(endTime, Model, tr.errorLabel + ": " + message, true);
      ReplayChat(s0, d0, subs, done, s, d, calls[1], hub.Contents(), hub.delivered);
      done, s, d := done + [calls[1]], hub.Contents(), hub.delivered;
      loading := false;
      hub.UpdateState(IdlePatch);
      ReplayUpdate(s0, d0, subs, done, s, d, calls[2], hub.Contents(), hub.delivered);
      done := done + [calls[2]];
      assert done == calls;
    }

    /** `handleSend()`; `outcome` is what the generation call yields on the API path,
        `startTime` and `endTime` the clock before and after it. */
    method HandleSend(outcome: Outcome, startTime: int, endTime: int, tr: Texts)
      requires hub.Valid()
      modifies this`prompt, this`loading, hub
      ensures hub.Valid()
      ensures hub.Contents() == SendEffect(old(hub.Contents()), old(prompt), HasKey(), outcome, modelName, tr, startTime, endTime)
      ensures hub.history == old(hub.history) + SendCalls(old(prompt), HasKey(), outcome, modelName, tr, startTime, endTime)
      ensures hub.delivered == old(hub.delivered)
                               + Deliveries(old(hub.Contents()), old(hub.Subscribers()),
                                            SendCalls(old(prompt), HasKey(), outcome, modelName, tr, startTime, endTime))
      ensures hub.Subscribers() == old(hub.Subscribers())
      ensures IsBlank(old(prompt)) ==> unchanged(hub) && prompt == old(prompt) && loading == old(loading)
      ensures !IsBlank(old(prompt)) ==> prompt == "" && !loading
    {
      var currentPrompt := prompt;
      TrimEmptyIffBlank(currentPrompt);
      if Trim(currentPrompt) != "" {
        prompt := "";
        SendPrompt(currentPrompt, outcome, startTime, endTime, tr);
      }
    }

    /** Lines 64-103 of `handleSend`, once the prompt is known not to be blank: the
        user's message, then the simulation or the API call. */
    method SendPrompt(currentPrompt: string, outcome: Outcome, startTime: int, endTime: int, tr: Texts)
      requires hub.Valid()
      modifies this`loading, hub
      ensures hub.Valid() && !loading
      ensures hub.Contents() == PromptEffect(old(hub.Contents()), currentPrompt, HasKey(), outcome, modelName, tr, startTime, endTime)
      ensures hub.history == old(hub.history) + PromptCalls(currentPrompt, HasKey(), outcome, modelName, tr, startTime, endTime)
      ensures hub.delivered == old(hub.delivered)
                               + Deliveries(old(hub.Contents()), old(hub.Subscribers()),
                                            PromptCalls(currentPrompt, HasKey(), outcome, modelName, tr, startTime, endTime))
      ensures hub.Subscribers() == old(hub.Subscribers())
    {
      ghost var h0, s0, d0, subs := hub.history, hub.Contents(), hub.delivered, hub.Subscribers();
      ghost var first := UserCall(currentPrompt, startTime);
      hub.AddChatMessage(startTime, User, currentPrompt);
      ghost var s1, d1 := hub.Contents(), hub.delivered;
      ReplayChat(s0, d0, subs, [], s0, d0, first, s1, d1);
      assert [] + [first] == [first];

      if !HasKey() {
        ghost var rest := [WarnCall(tr, startTime)] + SimulationCalls(currentPrompt, modelName, tr, startTime, endTime);
        AppendOneThen(h0, first, rest);
        assert PromptCalls(currentPrompt, HasKey(), outcome, modelName, tr, startTime, endTime) == [first] + rest;
        SendSimulated(currentPrompt, startTime, endTime, tr);
        ReplayThen(s0, d0, subs, [first], s1, d1, rest, hub.delivered);
      } else {
        ghost var rest := ApiCalls(currentPrompt, modelName, outcome, tr, startTime, endTime);
        AppendOneThen(h0, first, rest);
        assert PromptCalls(currentPrompt, HasKey(), outcome, modelName, tr, startTime, endTime) == [first] + rest;
        SendToApi(currentPrompt, outcome, startTime, endTime, tr);
        ReplayThen(s0, d0, subs, [first], s1, d1, rest, hub.delivered);
      }
    }

    /** Lines 69-70 of `handleSend`: without a usable key, warn and simulate. */
    method SendSimulated(currentPrompt: string, startTime: int, endTime: int, tr: Texts)
      requires hub.Valid()
      modifies this`loading, hub
      ensures hub.Valid() && !loading
      ensures hub.Contents() == SimulationEffect(AfterLog(old(hub.Contents()), startTime, tr.simulationLog, Warn, SYSTEM, None),
                                                 currentPrompt, modelName, tr, startTime, endTime)
      ensures hub.history == old(hub.history) + ([WarnCall(tr, startTime)]
                                                  + SimulationCalls(currentPrompt, modelName, tr, startTime, endTime))
      ensures hub.delivered == old(hub.delivered)
                               + Deliveries(old(hub.Contents()), old(hub.Subscribers()),
                                            [WarnCall(tr, startTime)]
                                            + SimulationCalls(currentPrompt, modelName, tr, startTime, endTime))
      ensures hub.Subscribers() == old(hub.Subscribers())
    {
      ghost var s0, d0, subs := hub.Contents(), hub.delivered, hub.Subscribers();
      ghost var warn := WarnCall(tr, startTime);
      ghost var rest := SimulationCalls(currentPrompt, modelName, tr, startTime, endTime);
      AppendOneThen(hub.history, warn, rest);
      hub.AddLog(startTime, tr.simulationLog, Warn, SYSTEM);
      ghost var s1, d1 := hub.Contents(), hub.delivered;
      ReplayLog(s0, d0, subs, [], s0, d0, warn, s1, d1);
      SimulateResponse(currentPrompt, startTime, endTime, tr);
      ReplayThen(s0, d0, subs, [] + [warn], s1, d1, rest, hub.delivered);
    }

    /** `handleSaveCommand()`: saves the current name and prompt unless either is blank,
        then clears the name and closes the dialog. */
    method HandleSaveCommand(now: int)
      requires hub.Valid()
      modifies this`newCommandName, this`showSaveDialog, hub
      ensures hub.Valid()
      ensures hub.Subscribers() == old(hub.Subscribers())
      ensures IsBlank(old(newCommandName)) || IsBlank(prompt) ==>
        unchanged(hub) && newCommandName == old(newCommandName) && showSaveDialog == old(showSaveDialog)
      ensures !IsBlank(old(newCommandName)) && !IsBlank(prompt) ==>
        && hub.Contents() == AfterSave(old(hub.Contents()), now, old(newCommandName), prompt)
        && hub.history == old(hub.history) + [SaveCall(now, old(newCommandName), prompt)]
        && hub.delivered == old(hub.delivered)
                            + Deliveries(old(hub.Contents()), old(hub.Subscribers()),
                                         [SaveCall(now, old(newCommandName), prompt)])
        && newCommandName == "" && !showSaveDialog
    {
      TrimEmptyIffBlank(newCommandName);
      TrimEmptyIffBlank(prompt);
      if Trim(newCommandName) == "" || Trim(prompt) == "" {
        return;
      }
      hub.SaveCommand(now, newCommandName, prompt);
      newCommandName := "";
      showSaveDialog := false;
    }
  }
}
