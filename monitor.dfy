/** The telemetry hub of services/monitor.ts: five observable stores (logs, metrics,
    run state, chat, saved commands), each with its own listener set, notified
    synchronously and in registration order after every mutation. */
module Monitor {
  import opened Types
  import opened Seqs

  /** Retention caps of the log and metric stores. */
  const MaxLogs: nat := 1000
  const MaxMetrics: nat := 50

  const BootMessage: string := "Gemini CLI DevTools initialized"
  const ConnectedMessage: string := "Connected to local CLI instance"
  const DefaultModel: string := "gemini-2.5-flash"
  const Version: string := "1.0.4-beta"

  // ---------------------------------------------------------------------------
  // Retention: append at the tail, then drop the single oldest entry on overflow
  // ---------------------------------------------------------------------------

  /** `xs = [...xs, e]; if (xs.length > cap) xs.shift()`. */
  function Push<T>(s: seq<T>, e: T, cap: nat): (r: seq<T>)
    requires 0 < cap
    ensures |s| <= cap ==> |r| <= cap
    ensures r != [] && r[|r| - 1] == e
    ensures |s| < cap ==> r == s + [e]
    ensures |s| >= cap ==> r == s[1..] + [e]
  {
    var grown := s + [e];
    if |grown| > cap then grown[1..] else grown
  }

  /** The newest `n` elements of `s`. */
  function Newest<T>(s: seq<T>, n: nat): (r: seq<T>)
    ensures |r| <= n && |r| <= |s|
  {
    if |s| <= n then s else s[|s| - n..]
  }

  /** A run of pushes, one per element of `es`, in order. */
  function PushAll<T>(s: seq<T>, es: seq<T>, cap: nat): seq<T>
    requires 0 < cap
    decreases |es|
  {
    if es == [] then s else PushAll(Push(s, es[0], cap), es[1..], cap)
  }

  lemma NewestOfNewest<T>(x: seq<T>, y: seq<T>, n: nat)
    ensures Newest(Newest(x, n) + y, n) == Newest(x + y, n)
  {
    if |x| > n && y != [] {
      var w, z := x[|x| - n..], x + y;
      assert w + y == z[|x| - n..];
      assert Newest(w + y, n) == (w + y)[|y|..];
      assert (w + y)[|y|..] == z[|z| - n..] by {
        forall i | 0 <= i < n
          ensures (w + y)[|y|..][i] == z[|z| - n..][i]
        {
          assert (w + y)[|y|..][i] == z[|x| - n + |y| + i];
        }
      }
    } else if |x| > n {
      assert x + y == x;
    }
  }

  /** One push onto a store within the cap keeps the newest `cap` elements. */
  lemma PushIsNewest<T>(s: seq<T>, e: T, cap: nat)
    requires 0 < cap && |s| <= cap
    ensures Push(s, e, cap) == Newest(s + [e], cap)
  {
    if |s| == cap {
      assert Push(s, e, cap) == (s + [e])[1..];
    }
  }

  /** FIFO retention over any sequence of insertions: starting within the cap, the
      store holds exactly the newest `cap` of everything ever inserted, so the
      entries evicted are precisely the earliest ones. */
  lemma {:induction false} PushAllKeepsNewest<T>(s: seq<T>, es: seq<T>, cap: nat)
    requires 0 < cap && |s| <= cap
    ensures PushAll(s, es, cap) == Newest(s + es, cap)
    ensures |PushAll(s, es, cap)| <= cap
    decreases |es|
  {
    if es == [] {
      assert s + es == s;
    } else {
      var s' := Push(s, es[0], cap);
      PushIsNewest(s, es[0], cap);
      PushAllKeepsNewest(s', es[1..], cap);
      assert PushAll(s, es, cap) == Newest(Newest(s + [es[0]], cap) + es[1..], cap);
      NewestOfNewest(s + [es[0]], es[1..], cap);
      assert s + [es[0]] + es[1..] == s + es;
    }
  }

  // ---------------------------------------------------------------------------
  // Run state: shallow merge of a partial record
  // ---------------------------------------------------------------------------

  function Pick<T>(o: Option<T>, d: T): T
  {
    if o.Some? then o.value else d
  }

  /** `{ ...st, ...p }`: the fields `p` names are overwritten, all others keep their value. */
  function Merge(st: CLIState, p: StatePatch): (r: CLIState)
    ensures p.status.Some? ==> r.status == p.status.value
    ensures p.status.None? ==> r.status == st.status
    ensures p.currentCommand.Some? ==> r.currentCommand == p.currentCommand.value
    ensures p.currentCommand.None? ==> r.currentCommand == st.currentCommand
    ensures p.selectedModel.Some? ==> r.selectedModel == p.selectedModel.value
    ensures p.selectedModel.None? ==> r.selectedModel == st.selectedModel
    ensures p.apiKeyConfigured.Some? ==> r.apiKeyConfigured == p.apiKeyConfigured.value
    ensures p.apiKeyConfigured.None? ==> r.apiKeyConfigured == st.apiKeyConfigured
    ensures p.version.Some? ==> r.version == p.version.value
    ensures p.version.None? ==> r.version == st.version
  {
    CLIState(
      Pick(p.status, st.status),
      Pick(p.currentCommand, st.currentCommand),
      Pick(p.selectedModel, st.selectedModel),
      Pick(p.apiKeyConfigured, st.apiKeyConfigured),
      Pick(p.version, st.version))
  }

  const NoChange: StatePatch := StatePatch(None, None, None, None, None)

  /** The patch equivalent to applying `p` and then `q`. */
  function Then(p: StatePatch, q: StatePatch): StatePatch
  {
    StatePatch(
      if q.status.Some? then q.status else p.status,
      if q.currentCommand.Some? then q.currentCommand else p.currentCommand,
      if q.selectedModel.Some? then q.selectedModel else p.selectedModel,
      if q.apiKeyConfigured.Some? then q.apiKeyConfigured else p.apiKeyConfigured,
      if q.version.Some? then q.version else p.version)
  }

  /** An empty partial update leaves the record as it was. */
  lemma MergeNoChange(st: CLIState)
    ensures Merge(st, NoChange) == st
  {
  }

  /** Two successive updates are one merged update: merge, not replace. */
  lemma MergeThen(st: CLIState, p: StatePatch, q: StatePatch)
    ensures Merge(Merge(st, p), q) == Merge(st, Then(p, q))
  {
  }

  /** Repeating an update changes nothing further. */
  lemma MergeIdempotent(st: CLIState, p: StatePatch)
    ensures Merge(Merge(st, p), p) == Merge(st, p)
  {
  }

  // ---------------------------------------------------------------------------
  // Saved commands: delete by id
  // ---------------------------------------------------------------------------

  /** `cmds.filter(c => c.id !== id)`. */
  function WithoutId(cmds: seq<SavedCommand>, id: Id): (r: seq<SavedCommand>)
    ensures IsSubsequence(r, cmds)
    ensures forall c :: c in r <==> c in cmds && c.id != id
    ensures forall c :: multiset(r)[c] == if c.id != id then multiset(cmds)[c] else 0
    ensures (forall c :: c in cmds ==> c.id != id) ==> r == cmds
  {
    var keep := (c: SavedCommand) => c.id != id;
    if forall c :: c in cmds ==> c.id != id then
      KeepAll(cmds, keep);
      Keep(cmds, keep)
    else
      Keep(cmds, keep)
  }

  // ---------------------------------------------------------------------------
  // Listener sets and notification
  // ---------------------------------------------------------------------------

  /** A listener callback, identified abstractly. */
  type ListenerId = nat

  datatype Channel = LogsChannel | MetricsChannel | StateChannel | ChatChannel | CommandsChannel

  /** What a listener of each channel receives: the full current collection or record. */
  datatype Snapshot =
    | LogsSnapshot(logs: seq<LogEntry>)
    | MetricsSnapshot(metrics: seq<MetricPoint>)
    | StateSnapshot(state: CLIState)
    | ChatSnapshot(chat: seq<ChatMessage>)
    | CommandsSnapshot(commands: seq<SavedCommand>)

  /** One invocation of a listener with a snapshot. */
  datatype Delivery = Delivery(listener: ListenerId, snapshot: Snapshot)

  /** The unsubscribe closure returned by a subscribe call. */
  datatype Subscription = Subscription(channel: Channel, listener: ListenerId)

  /** `set.add(l)`: a new listener goes last; one already present keeps its place. */
  function Registered(ls: seq<ListenerId>, l: ListenerId): (r: seq<ListenerId>)
    ensures NoDuplicates(ls) ==> NoDuplicates(r)
    ensures forall x :: x in r <==> x in ls || x == l
    ensures |ls| <= |r| && r[..|ls|] == ls
  {
    if l in ls then ls
    else
      if NoDuplicates(ls) then AppendNoDuplicates(ls, l); ls + [l]
      else ls + [l]
  }

  /** `set.delete(l)`: the others keep their order. */
  function Removed(ls: seq<ListenerId>, l: ListenerId): (r: seq<ListenerId>)
    ensures NoDuplicates(ls) ==> NoDuplicates(r)
    ensures forall x :: x in r <==> x in ls && x != l
    ensures IsSubsequence(r, ls)
    ensures l !in ls ==> r == ls
  {
    var keep := (x: ListenerId) => x != l;
    if NoDuplicates(ls) then KeepNoDuplicates(ls, keep); RemovedAbsent(ls, l); Keep(ls, keep)
    else RemovedAbsent(ls, l); Keep(ls, keep)
  }

  lemma RemovedAbsent(ls: seq<ListenerId>, l: ListenerId)
    ensures l !in ls ==> Keep(ls, (x: ListenerId) => x != l) == ls
  {
    if l !in ls {
      KeepAll(ls, (x: ListenerId) => x != l);
    }
  }

  /** Calling an unsubscribe closure again does nothing more. */
  lemma RemovedIdempotent(ls: seq<ListenerId>, l: ListenerId)
    ensures Removed(Removed(ls, l), l) == Removed(ls, l)
  {
  }

  /** `set.forEach(l => l(snap))`: one delivery per listener, in registration order. */
  function Fanout(ls: seq<ListenerId>, snap: Snapshot): seq<Delivery>
  {
    seq(|ls|, i requires 0 <= i < |ls| => Delivery(ls[i], snap))
  }

  /** How many times listener `l` is invoked in `t`. */
  function CallsTo(t: seq<Delivery>, l: ListenerId): nat
  {
    if t == [] then 0 else (if t[0].listener == l then 1 else 0) + CallsTo(t[1..], l)
  }

  lemma {:induction false} CallsToAppend(t: seq<Delivery>, u: seq<Delivery>, l: ListenerId)
    ensures CallsTo(t + u, l) == CallsTo(t, l) + CallsTo(u, l)
  {
    if t == [] {
      assert t + u == u;
    } else {
      assert (t + u)[0] == t[0];
      assert (t + u)[1..] == t[1..] + u;
      CallsToAppend(t[1..], u, l);
    }
  }

  /** A notification calls every registered listener exactly once and nobody else. */
  lemma {:induction false} FanoutCallsOnce(ls: seq<ListenerId>, snap: Snapshot, l: ListenerId)
    requires NoDuplicates(ls)
    ensures CallsTo(Fanout(ls, snap), l) == if l in ls then 1 else 0
  {
    if ls != [] {
      TailNoDuplicates(ls);
      var t := Fanout(ls, snap);
      assert t[1..] == Fanout(ls[1..], snap);
      FanoutCallsOnce(ls[1..], snap, l);
      assert l in ls <==> l == ls[0] || l in ls[1..];
    }
  }

  /** A listener no longer in the set is not called by a notification. */
  lemma {:induction false} FanoutSkipsAbsent(ls: seq<ListenerId>, snap: Snapshot, l: ListenerId)
    requires l !in ls
    ensures CallsTo(Fanout(ls, snap), l) == 0
  {
    if ls != [] {
      var t := Fanout(ls, snap);
      assert t[1..] == Fanout(ls[1..], snap);
      assert l !in ls[1..];
      FanoutSkipsAbsent(ls[1..], snap, l);
    }
  }

  /** After its unsubscribe closure has run once or more, a listener is absent from
      the set and no later notification of that set calls it. */
  lemma UnsubscribedHearsNothing(ls: seq<ListenerId>, l: ListenerId, times: nat, snap: Snapshot)
    requires 0 < times
    ensures l !in RemovedTimes(ls, l, times)
    ensures RemovedTimes(ls, l, times) == Removed(ls, l)
    ensures CallsTo(Fanout(RemovedTimes(ls, l, times), snap), l) == 0
  {
    RemovedTimesOnce(ls, l, times);
    FanoutSkipsAbsent(Removed(ls, l), snap, l);
  }

  /** The set after the same unsubscribe closure has run `times` times. */
  function RemovedTimes(ls: seq<ListenerId>, l: ListenerId, times: nat): seq<ListenerId>
  {
    if times == 0 then ls else Removed(RemovedTimes(ls, l, times - 1), l)
  }

  lemma {:induction false} RemovedTimesOnce(ls: seq<ListenerId>, l: ListenerId, times: nat)
    requires 0 < times
    ensures RemovedTimes(ls, l, times) == Removed(ls, l)
  {
    if times > 1 {
      RemovedTimesOnce(ls, l, times - 1);
      RemovedIdempotent(ls, l);
    }
  }

  /** Each public mutation of the hub, with the arguments its caller chose and, for
      the mutations that stamp a record, the clock reading `now` they take. The hub
      records them in a ghost history, so that a caller's contract can state the
      order in which it drives the stores. */
  datatype Call =
    | LogCall(now: int, message: string, level: LogLevel, source: Source, metadata: Option<Metadata>)
    | ClearLogsCall
    | MetricCall(now: int, latency: int, tokens: int, model: string)
    | StateCall(patch: StatePatch)
    | ChatCall(now: int, role: Role, text: string, error: bool)
    | ClearChatCall
    | SaveCall(now: int, name: string, prompt: string)
    | DeleteCall(id: Id)

  /** The two example commands the saved-command store starts with. */
  function DefaultCommands(now: int): (r: seq<SavedCommand>)
    ensures |r| == 2 && r[0].id == Named("default-1") && r[1].id == Named("default-2")
  {
    [ SavedCommand(Named("default-1"), "React Hook 설명", "React Hooks의 장점을 한 문장으로 설명해줘.", now),
      SavedCommand(Named("default-2"), "JSON 파싱 코드", "Python에서 안전하게 JSON을 파싱하는 함수를 작성해줘.", now) ]
  }

  // ---------------------------------------------------------------------------
  // The stores, and what each mutation does to them
  // ---------------------------------------------------------------------------

  /** The hub's five stores together with its id counter. */
  datatype Stores = Stores(
    logs: seq<LogEntry>,
    metrics: seq<MetricPoint>,
    state: CLIState,
    chat: seq<ChatMessage>,
    commands: seq<SavedCommand>,
    nextId: nat)

  /** Every generated id held in the stores was handed out already: its serial is
      below the counter, so the next id the hub hands out is carried by no entry. */
  predicate IdsIssued(s: Stores)
  {
    && (forall e :: e in s.logs && e.id.Fresh? ==> e.id.serial < s.nextId)
    && (forall m :: m in s.chat && m.id.Fresh? ==> m.id.serial < s.nextId)
    && (forall c :: c in s.commands && c.id.Fresh? ==> c.id.serial < s.nextId)
  }

  /** `addLog`: a new entry with a fresh id at the tail of the log store, capped. */
  function AfterLog(s: Stores, now: int, message: string, level: LogLevel, source: Source,
                    metadata: Option<Metadata>): Stores
  {
    s.(logs := Push(s.logs, LogEntry(Fresh(s.nextId), now, level, message, metadata, source), MaxLogs),
       nextId := s.nextId + 1)
  }

  /** `clearLogs`. */
  function AfterClearLogs(s: Stores): Stores
  {
    s.(logs := [])
  }

  /** `addMetric`: a new point at the tail of the metric store, capped. */
  function AfterMetric(s: Stores, now: int, latency: int, tokens: int, model: string): Stores
  {
    s.(metrics := Push(s.metrics, MetricPoint(now, latency, tokens, model), MaxMetrics))
  }

  /** `updateState`. */
  function AfterUpdate(s: Stores, p: StatePatch): Stores
  {
    s.(state := Merge(s.state, p))
  }

  /** `addChatMessage`: a new message with a fresh id at the tail, never capped. */
  function AfterChat(s: Stores, now: int, role: Role, text: string, error: bool): Stores
  {
    s.(chat := s.chat + [ChatMessage(Fresh(s.nextId), role, text, now, error)], nextId := s.nextId + 1)
  }

  /** `clearChat`. */
  function AfterClearChat(s: Stores): Stores
  {
    s.(chat := [])
  }

  /** `saveCommand`: a new command with a fresh id at the head of the list. */
  function AfterSave(s: Stores, now: int, name: string, prompt: string): Stores
  {
    s.(commands := [SavedCommand(Fresh(s.nextId), name, prompt, now)] + s.commands, nextId := s.nextId + 1)
  }

  /** `deleteCommand`. */
  function AfterDelete(s: Stores, id: Id): Stores
  {
    s.(commands := WithoutId(s.commands, id))
  }

  /** Every mutation keeps the ids issued: the counter only grows, and each new
      entry takes the current counter value before it is advanced. */
  lemma MutationsKeepIdsIssued(s: Stores, now: int, message: string, level: LogLevel, source: Source,
                               metadata: Option<Metadata>, latency: int, tokens: int, model: string,
                               p: StatePatch, role: Role, text: string, error: bool,
                               name: string, prompt: string, id: Id)
    requires IdsIssued(s)
    ensures IdsIssued(AfterLog(s, now, message, level, source, metadata))
    ensures IdsIssued(AfterClearLogs(s))
    ensures IdsIssued(AfterMetric(s, now, latency, tokens, model))
    ensures IdsIssued(AfterUpdate(s, p))
    ensures IdsIssued(AfterChat(s, now, role, text, error))
    ensures IdsIssued(AfterClearChat(s))
    ensures IdsIssued(AfterSave(s, now, name, prompt))
    ensures IdsIssued(AfterDelete(s, id))
  {
  }

  /** Deleting the command just saved, by the id it was given, restores the list,
      provided no older command already carried that id. */
  lemma DeleteUndoesSave(s: Stores, now: int, name: string, prompt: string)
    requires forall c :: c in s.commands ==> c.id != Fresh(s.nextId)
    ensures AfterDelete(AfterSave(s, now, name, prompt), Fresh(s.nextId)).commands == s.commands
  {
    var saved := SavedCommand(Fresh(s.nextId), name, prompt, now);
    var keep := (c: SavedCommand) => c.id != Fresh(s.nextId);
    assert ([saved] + s.commands)[1..] == s.commands;
    assert Keep([saved] + s.commands, keep) == Keep(s.commands, keep);
    KeepAll(s.commands, keep);
  }

  /** On stores whose ids were all issued by the counter, in particular those of a
      valid hub, deleting the command just saved by its id restores the list. */
  lemma SaveDeleteRoundTrip(s: Stores, now: int, name: string, prompt: string)
    requires IdsIssued(s)
    ensures AfterDelete(AfterSave(s, now, name, prompt), Fresh(s.nextId)).commands == s.commands
  {
    DeleteUndoesSave(s, now, name, prompt);
  }

  // ---------------------------------------------------------------------------
  // Replaying a run of mutations
  // ---------------------------------------------------------------------------

  /** The channel whose store a mutation replaces, and whose listeners it calls. */
  function ChannelOf(c: Call): Channel
  {
    match c
    case LogCall(_, _, _, _, _) => LogsChannel
    case ClearLogsCall => LogsChannel
    case MetricCall(_, _, _, _) => MetricsChannel
    case StateCall(_) => StateChannel
    case ChatCall(_, _, _, _) => ChatChannel
    case ClearChatCall => ChatChannel
    case SaveCall(_, _, _) => CommandsChannel
    case DeleteCall(_) => CommandsChannel
  }

  /** What a listener of `ch` is handed when the stores are `s`. */
  function SnapshotOf(s: Stores, ch: Channel): Snapshot
  {
    match ch
    case LogsChannel => LogsSnapshot(s.logs)
    case MetricsChannel => MetricsSnapshot(s.metrics)
    case StateChannel => StateSnapshot(s.state)
    case ChatChannel => ChatSnapshot(s.chat)
    case CommandsChannel => CommandsSnapshot(s.commands)
  }

  /** The listener set of `ch` among the five sets `subs`, given in channel order. */
  function ListenersOf(subs: seq<seq<ListenerId>>, ch: Channel): seq<ListenerId>
  {
    var i := match ch
      case LogsChannel => 0
      case MetricsChannel => 1
      case StateChannel => 2
      case ChatChannel => 3
      case CommandsChannel => 4;
    if i < |subs| then subs[i] else []
  }

  /** What one mutation does to the stores. */
  function Apply(s: Stores, c: Call): Stores
  {
    match c
    case LogCall(now, message, level, source, metadata) => AfterLog(s, now, message, level, source, metadata)
    case ClearLogsCall => AfterClearLogs(s)
    case MetricCall(now, latency, tokens, model) => AfterMetric(s, now, latency, tokens, model)
    case StateCall(p) => AfterUpdate(s, p)
    case ChatCall(now, role, text, error) => AfterChat(s, now, role, text, error)
    case ClearChatCall => AfterClearChat(s)
    case SaveCall(now, name, prompt) => AfterSave(s, now, name, prompt)
    case DeleteCall(id) => AfterDelete(s, id)
  }

  /** The stores after the mutations `calls`, made in order on `s`. */
  function Replay(s: Stores, calls: seq<Call>): Stores
    decreases |calls|
  {
    if calls == [] then s else Replay(Apply(s, calls[0]), calls[1..])
  }

  /** The listener invocations the mutations `calls` make, in order, on stores `s`
      while the listener sets are `subs`: each mutation calls its channel's
      listeners, in registration order, with the snapshot it leaves behind. */
  function Deliveries(s: Stores, subs: seq<seq<ListenerId>>, calls: seq<Call>): seq<Delivery>
    decreases |calls|
  {
    if calls == [] then []
    else
      var s1 := Apply(s, calls[0]);
      var ch := ChannelOf(calls[0]);
      Fanout(ListenersOf(subs, ch), SnapshotOf(s1, ch)) + Deliveries(s1, subs, calls[1..])
  }

  /** A single mutation notifies its own channel once, with the stores it produces. */
  lemma ReplayOne(s: Stores, subs: seq<seq<ListenerId>>, c: Call)
    ensures Replay(s, [c]) == Apply(s, c)
    ensures Deliveries(s, subs, [c]) == Fanout(ListenersOf(subs, ChannelOf(c)), SnapshotOf(Apply(s, c), ChannelOf(c)))
  {
    assert [c][1..] == [];
  }

  /** A run split in two replays as its first part followed by its second, started
      from the stores the first part leaves. */
  lemma {:induction false} ReplayAppend(s: Stores, a: seq<Call>, b: seq<Call>)
    ensures Replay(s, a + b) == Replay(Replay(s, a), b)
    decreases |a|
  {
    if a == [] {
      assert a + b == b;
    } else {
      assert (a + b)[0] == a[0];
      assert (a + b)[1..] == a[1..] + b;
      ReplayAppend(Apply(s, a[0]), a[1..], b);
    }
  }

  /** The deliveries of a run split in two are those of its first part followed by
      those of its second, made on the stores the first part leaves. */
  lemma {:induction false} DeliveriesAppend(s: Stores, subs: seq<seq<ListenerId>>, a: seq<Call>, b: seq<Call>)
    ensures Deliveries(s, subs, a + b) == Deliveries(s, subs, a) + Deliveries(Replay(s, a), subs, b)
    decreases |a|
  {
    if a == [] {
      assert a + b == b;
    } else {
      var s1, ch := Apply(s, a[0]), ChannelOf(a[0]);
      var f := Fanout(ListenersOf(subs, ch), SnapshotOf(s1, ch));
      assert (a + b)[0] == a[0];
      assert (a + b)[1..] == a[1..] + b;
      DeliveriesAppend(s1, subs, a[1..], b);
      assert Replay(s, a) == Replay(s1, a[1..]);
      assert Deliveries(s, subs, a + b) == f + Deliveries(s1, subs, a[1..] + b);
      assert Deliveries(s, subs, a) == f + Deliveries(s1, subs, a[1..]);
      AppendThen(f, Deliveries(s1, subs, a[1..]), Deliveries(Replay(s, a), subs, b));
    }
  }

  /** A run replayed from `s0` with deliveries `d0` before it, extended by one more
      mutation `c` that turns stores `s` into `s'` and notifies `c`'s channel. */
  lemma ReplayStep(s0: Stores, d0: seq<Delivery>, subs: seq<seq<ListenerId>>, done: seq<Call>,
                   s: Stores, d: seq<Delivery>, c: Call, s': Stores, d': seq<Delivery>)
    requires s == Replay(s0, done) && d == d0 + Deliveries(s0, subs, done)
    requires s' == Apply(s, c)
    requires d' == d + Fanout(ListenersOf(subs, ChannelOf(c)), SnapshotOf(s', ChannelOf(c)))
    ensures s' == Replay(s0, done + [c]) && d' == d0 + Deliveries(s0, subs, done + [c])
  {
    ReplayOne(s, subs, c);
    ReplayAppend(s0, done, [c]);
    DeliveriesAppend(s0, subs, done, [c]);
    AppendThen(d0, Deliveries(s0, subs, done), Deliveries(s, subs, [c]));
  }

  /** A replayed run followed by the deliveries of a further run `rest`, made on the
      stores the first run leaves, is the replay of both runs. */
  lemma ReplayThen(s0: Stores, d0: seq<Delivery>, subs: seq<seq<ListenerId>>, done: seq<Call>,
                   s: Stores, d: seq<Delivery>, rest: seq<Call>, d': seq<Delivery>)
    requires s == Replay(s0, done) && d == d0 + Deliveries(s0, subs, done)
    requires d' == d + Deliveries(s, subs, rest)
    ensures d' == d0 + Deliveries(s0, subs, done + rest)
  {
    DeliveriesAppend(s0, subs, done, rest);
    AppendThen(d0, Deliveries(s0, subs, done), Deliveries(s, subs, rest));
  }

  /** `ReplayStep` for an `addLog`, from what the hub method guarantees. */
  lemma ReplayLog(s0: Stores, d0: seq<Delivery>, subs: seq<seq<ListenerId>>, done: seq<Call>,
                  s: Stores, d: seq<Delivery>, c: Call, s': Stores, d': seq<Delivery>)
    requires s == Replay(s0, done) && d == d0 + Deliveries(s0, subs, done)
    requires c.LogCall? && |subs| == 5
    requires s' == AfterLog(s, c.now, c.message, c.level, c.source, c.metadata)
    requires d' == d + Fanout(subs[0], LogsSnapshot(s'.logs))
    ensures s' == Replay(s0, done + [c]) && d' == d0 + Deliveries(s0, subs, done + [c])
  {
    ReplayStep(s0, d0, subs, done, s, d, c, s', d');
  }

  /** `ReplayStep` for an `addMetric`. */
  lemma ReplayMetric(s0: Stores, d0: seq<Delivery>, subs: seq<seq<ListenerId>>, done: seq<Call>,
                     s: Stores, d: seq<Delivery>, c: Call, s': Stores, d': seq<Delivery>)
    requires s == Replay(s0, done) && d == d0 + Deliveries(s0, subs, done)
    requires c.MetricCall? && |subs| == 5
    requires s' == AfterMetric(s, c.now, c.latency, c.tokens, c.model)
    requires d' == d + Fanout(subs[1], MetricsSnapshot(s'.metrics))
    ensures s' == Replay(s0, done + [c]) && d' == d0 + Deliveries(s0, subs, done + [c])
  {
    ReplayStep(s0, d0, subs, done, s, d, c, s', d');
  }

  /** `ReplayStep` for an `updateState`. */
  lemma ReplayUpdate(s0: Stores, d0: seq<Delivery>, subs: seq<seq<ListenerId>>, done: seq<Call>,
                     s: Stores, d: seq<Delivery>, c: Call, s': Stores, d': seq<Delivery>)
    requires s == Replay(s0, done) && d == d0 + Deliveries(s0, subs, done)
    requires c.StateCall? && |subs| == 5
    requires s' == AfterUpdate(s, c.patch)
    requires d' == d + Fanout(subs[2], StateSnapshot(s'.state))
    ensures s' == Replay(s0, done + [c]) && d' == d0 + Deliveries(s0, subs, done + [c])
  {
    ReplayStep(s0, d0, subs, done, s, d, c, s', d');
  }

  /** `ReplayStep` for an `addChatMessage`. */
  lemma ReplayChat(s0: Stores, d0: seq<Delivery>, subs: seq<seq<ListenerId>>, done: seq<Call>,
                   s: Stores, d: seq<Delivery>, c: Call, s': Stores, d': seq<Delivery>)
    requires s == Replay(s0, done) && d == d0 + Deliveries(s0, subs, done)
    requires c.ChatCall? && |subs| == 5
    requires s' == AfterChat(s, c.now, c.role, c.text, c.error)
    requires d' == d + Fanout(subs[3], ChatSnapshot(s'.chat))
    ensures s' == Replay(s0, done + [c]) && d' == d0 + Deliveries(s0, subs, done + [c])
  {
    ReplayStep(s0, d0, subs, done, s, d, c, s', d');
  }

  /** How many of the mutations `calls` notify a channel whose set holds `l`. */
  function Heard(subs: seq<seq<ListenerId>>, calls: seq<Call>, l: ListenerId): nat
    decreases |calls|
  {
    if calls == [] then 0
    else (if l in ListenersOf(subs, ChannelOf(calls[0])) then 1 else 0) + Heard(subs, calls[1..], l)
  }

  /** With duplicate-free listener sets, a run of mutations calls each listener once
      per mutation of a channel it is registered on, and never otherwise. */
  lemma {:induction false} DeliveriesCallsTo(s: Stores, subs: seq<seq<ListenerId>>, calls: seq<Call>, l: ListenerId)
    requires forall i :: 0 <= i < |subs| ==> NoDuplicates(subs[i])
    ensures CallsTo(Deliveries(s, subs, calls), l) == Heard(subs, calls, l)
    decreases |calls|
  {
    if calls != [] {
      var s1 := Apply(s, calls[0]);
      var ch := ChannelOf(calls[0]);
      var ls := ListenersOf(subs, ch);
      assert NoDuplicates(ls);
      FanoutCallsOnce(ls, SnapshotOf(s1, ch), l);
      CallsToAppend(Fanout(ls, SnapshotOf(s1, ch)), Deliveries(s1, subs, calls[1..]), l);
      DeliveriesCallsTo(s1, subs, calls[1..], l);
    }
  }

  // ---------------------------------------------------------------------------
  // The hub
  // ---------------------------------------------------------------------------

  class Hub {
    var logs: seq<LogEntry>
    var metrics: seq<MetricPoint>
    var state: CLIState
    var chatHistory: seq<ChatMessage>
    var savedCommands: seq<SavedCommand>

    var logListeners: seq<ListenerId>
    var metricListeners: seq<ListenerId>
    var stateListeners: seq<ListenerId>
    var chatListeners: seq<ListenerId>
    var commandListeners: seq<ListenerId>

    /** Every listener invocation made so far, in order. */
    var delivered: seq<Delivery>
    /** Source of fresh entry ids. */
    var nextId: nat
    ghost var history: seq<Call>

    ghost predicate Valid()
      reads this
    {
      && |logs| <= MaxLogs
      && |metrics| <= MaxMetrics
      && IdsIssued(Contents())
      && NoDuplicates(logListeners)
      && NoDuplicates(metricListeners)
      && NoDuplicates(stateListeners)
      && NoDuplicates(chatListeners)
      && NoDuplicates(commandListeners)
    }

    /** The five listener sets, in channel order. */
    function Subscribers(): seq<seq<ListenerId>>
      reads this
    {
      [logListeners, metricListeners, stateListeners, chatListeners, commandListeners]
    }

    function Contents(): Stores
      reads this
    {
      Stores(logs, metrics, state, chatHistory, savedCommands, nextId)
    }

    function Listeners(ch: Channel): seq<ListenerId>
      reads this
    {
      match ch
      case LogsChannel => logListeners
      case MetricsChannel => metricListeners
      case StateChannel => stateListeners
      case ChatChannel => chatListeners
      case CommandsChannel => commandListeners
    }

    function CurrentSnapshot(ch: Channel): Snapshot
      reads this
    {
      SnapshotOf(Contents(), ch)
    }

    /** The hub as constructed: two boot log entries, the two default saved commands,
        an idle run state, and no listeners. `apiKeyConfigured` and `now` stand for
        the environment's API key and the clock. */
    constructor (apiKeyConfigured: bool, now: int)
      ensures Valid()
      ensures logs == [LogEntry(Fresh(0), now, Info, BootMessage, None, SYSTEM),
                       LogEntry(Fresh(1), now, Success, ConnectedMessage, None, SYSTEM)]
      ensures metrics == [] && chatHistory == []
      ensures savedCommands == DefaultCommands(now)
      ensures state == CLIState(Idle, None, DefaultModel, apiKeyConfigured, Version)
      ensures logListeners == [] && metricListeners == [] && stateListeners == []
      ensures chatListeners == [] && commandListeners == []
      ensures delivered == [] && nextId == 2
      ensures history == [LogCall(now, BootMessage, Info, SYSTEM, None), LogCall(now, ConnectedMessage, Success, SYSTEM, None)]
    {
      logs := [];
      metrics := [];
      state := CLIState(Idle, None, DefaultModel, apiKeyConfigured, Version);
      chatHistory := [];
      savedCommands := DefaultCommands(now);
      logListeners, metricListeners, stateListeners, chatListeners, commandListeners := [], [], [], [], [];
      delivered := [];
      nextId := 0;
      history := [];
      new;
      AddLog(now, BootMessage, Info, SYSTEM);
      AddLog(now, ConnectedMessage, Success, SYSTEM);
    }

    /** `notifyXListeners()`: call every listener of `ch`, in registration order,
        with the channel's current snapshot. */
    method Notify(ch: Channel)
      modifies this`delivered
      ensures delivered == old(delivered) + Fanout(Listeners(ch), CurrentSnapshot(ch))
      ensures Contents() == old(Contents()) && Subscribers() == old(Subscribers())
      ensures Valid() == old(Valid())
    {
      var ls := Listeners(ch);
      var snap := CurrentSnapshot(ch);
      var i := 0;
      while i < |ls|
        invariant 0 <= i <= |ls|
        invariant delivered == old(delivered) + Fanout(ls[..i], snap)
      {
        assert Fanout(ls[..i + 1], snap) == Fanout(ls[..i], snap) + [Delivery(ls[i], snap)];
        delivered := delivered + [Delivery(ls[i], snap)];
        i := i + 1;
      }
      assert ls[..i] == ls;
    }

    // --- Logs ---

    method AddLog(now: int, message: string, level: LogLevel := Info, source: Source := CLI,
                  metadata: Option<Metadata> := None)
      requires Valid()
      modifies this`logs, this`nextId, this`delivered, this`history
      ensures Valid()
      ensures Contents() == AfterLog(old(Contents()), now, message, level, source, metadata)
      ensures delivered == old(delivered) + Fanout(logListeners, LogsSnapshot(logs))
      ensures history == old(history) + [LogCall(now, message, level, source, metadata)]
      ensures Subscribers() == old(Subscribers())
    {
      var entry := LogEntry(Fresh(nextId), now, level, message, metadata, source);
      nextId := nextId + 1;
      logs := logs + [entry];
      if |logs| > MaxLogs {
        logs := logs[1..];
      }
      history := history + [LogCall(now, message, level, source, metadata)];
      Notify(LogsChannel);
    }

    method GetLogs() returns (r: seq<LogEntry>)
      ensures r == logs
    {
      r := logs;
    }

    method SubscribeLogs(l: ListenerId) returns (u: Subscription)
      requires Valid()
      modifies this`logListeners, this`delivered
      ensures Valid()
      ensures logListeners == Registered(old(logListeners), l)
      ensures delivered == old(delivered) + [Delivery(l, LogsSnapshot(logs))]
      ensures u == Subscription(LogsChannel, l)
    {
      logListeners := Registered(logListeners, l);
      delivered := delivered + [Delivery(l, LogsSnapshot(logs))];
      u := Subscription(LogsChannel, l);
    }

    method ClearLogs()
      requires Valid()
      modifies this`logs, this`delivered, this`history
      ensures Valid()
      ensures Contents() == AfterClearLogs(old(Contents()))
      ensures delivered == old(delivered) + Fanout(logListeners, LogsSnapshot([]))
      ensures history == old(history) + [ClearLogsCall]
      ensures Subscribers() == old(Subscribers())
    {
      logs := [];
      history := history + [ClearLogsCall];
      Notify(LogsChannel);
    }

    // --- Metrics ---

    method AddMetric(now: int, latency: int, tokens: int, model: string)
      requires Valid()
      modifies this`metrics, this`delivered, this`history
      ensures Valid()
      ensures Contents() == AfterMetric(old(Contents()), now, latency, tokens, model)
      ensures delivered == old(delivered) + Fanout(metricListeners, MetricsSnapshot(metrics))
      ensures history == old(history) + [MetricCall(now, latency, tokens, model)]
      ensures Subscribers() == old(Subscribers())
    {
      var point := MetricPoint(now, latency, tokens, model);
      metrics := metrics + [point];
      if |metrics| > MaxMetrics {
        metrics := metrics[1..];
      }
      history := history + [MetricCall(now, latency, tokens, model)];
      Notify(MetricsChannel);
    }

    method SubscribeMetrics(l: ListenerId) returns (u: Subscription)
      requires Valid()
      modifies this`metricListeners, this`delivered
      ensures Valid()
      ensures metricListeners == Registered(old(metricListeners), l)
      ensures delivered == old(delivered) + [Delivery(l, MetricsSnapshot(metrics))]
      ensures u == Subscription(MetricsChannel, l)
    {
      metricListeners := Registered(metricListeners, l);
      delivered := delivered + [Delivery(l, MetricsSnapshot(metrics))];
      u := Subscription(MetricsChannel, l);
    }

    // --- State ---

    method UpdateState(p: StatePatch)
      requires Valid()
      modifies this`state, this`delivered, this`history
      ensures Valid()
      ensures Contents() == AfterUpdate(old(Contents()), p)
      ensures delivered == old(delivered) + Fanout(stateListeners, StateSnapshot(state))
      ensures history == old(history) + [StateCall(p)]
      ensures Subscribers() == old(Subscribers())
    {
      state := Merge(state, p);
      history := history + [StateCall(p)];
      Notify(StateChannel);
    }

    method SubscribeState(l: ListenerId) returns (u: Subscription)
      requires Valid()
      modifies this`stateListeners, this`delivered
      ensures Valid()
      ensures stateListeners == Registered(old(stateListeners), l)
      ensures delivered == old(delivered) + [Delivery(l, StateSnapshot(state))]
      ensures u == Subscription(StateChannel, l)
    {
      stateListeners := Registered(stateListeners, l);
      delivered := delivered + [Delivery(l, StateSnapshot(state))];
      u := Subscription(StateChannel, l);
    }

    method GetState() returns (r: CLIState)
      ensures r == state
    {
      r := state;
    }

    // --- Chat ---

    method AddChatMessage(now: int, role: Role, text: string, error: bool := false)
      requires Valid()
      modifies this`chatHistory, this`nextId, this`delivered, this`history
      ensures Valid()
      ensures Contents() == AfterChat(old(Contents()), now, role, text, error)
      ensures delivered == old(delivered) + Fanout(chatListeners, ChatSnapshot(chatHistory))
      ensures history == old(history) + [ChatCall(now, role, text, error)]
      ensures Subscribers() == old(Subscribers())
    {
      var msg := ChatMessage(Fresh(nextId), role, text, now, error);
      nextId := nextId + 1;
      chatHistory := chatHistory + [msg];
      history := history + [ChatCall(now, role, text, error)];
      Notify(ChatChannel);
    }

    method ClearChat()
      requires Valid()
      modifies this`chatHistory, this`delivered, this`history
      ensures Valid()
      ensures Contents() == AfterClearChat(old(Contents()))
      ensures delivered == old(delivered) + Fanout(chatListeners, ChatSnapshot([]))
      ensures history == old(history) + [ClearChatCall]
      ensures Subscribers() == old(Subscribers())
    {
      chatHistory := [];
      history := history + [ClearChatCall];
      Notify(ChatChannel);
    }

    method SubscribeChat(l: ListenerId) returns (u: Subscription)
      requires Valid()
      modifies this`chatListeners, this`delivered
      ensures Valid()
      ensures chatListeners == Registered(old(chatListeners), l)
      ensures delivered == old(delivered) + [Delivery(l, ChatSnapshot(chatHistory))]
      ensures u == Subscription(ChatChannel, l)
    {
      chatListeners := Registered(chatListeners, l);
      delivered := delivered + [Delivery(l, ChatSnapshot(chatHistory))];
      u := Subscription(ChatChannel, l);
    }

    // --- Saved commands ---

    method SaveCommand(now: int, name: string, prompt: string)
      requires Valid()
      modifies this`savedCommands, this`nextId, this`delivered, this`history
      ensures Valid()
      ensures Contents() == AfterSave(old(Contents()), now, name, prompt)
      ensures delivered == old(delivered) + Fanout(commandListeners, CommandsSnapshot(savedCommands))
      ensures history == old(history) + [SaveCall(now, name, prompt)]
      ensures Subscribers() == old(Subscribers())
    {
      var cmd := SavedCommand(Fresh(nextId), name, prompt, now);
      nextId := nextId + 1;
      savedCommands := [cmd] + savedCommands;
      history := history + [SaveCall(now, name, prompt)];
      Notify(CommandsChannel);
    }

    method DeleteCommand(id: Id)
      requires Valid()
      modifies this`savedCommands, this`delivered, this`history
      ensures Valid()
      ensures Contents() == AfterDelete(old(Contents()), id)
      ensures delivered == old(delivered) + Fanout(commandListeners, CommandsSnapshot(savedCommands))
      ensures history == old(history) + [DeleteCall(id)]
      ensures Subscribers() == old(Subscribers())
    {
      savedCommands := WithoutId(savedCommands, id);
      history := history + [DeleteCall(id)];
      Notify(CommandsChannel);
    }

    method SubscribeCommands(l: ListenerId) returns (u: Subscription)
      requires Valid()
      modifies this`commandListeners, this`delivered
      ensures Valid()
      ensures commandListeners == Registered(old(commandListeners), l)
      ensures delivered == old(delivered) + [Delivery(l, CommandsSnapshot(savedCommands))]
      ensures u == Subscription(CommandsChannel, l)
    {
      commandListeners := Registered(commandListeners, l);
      delivered := delivered + [Delivery(l, CommandsSnapshot(savedCommands))];
      u := Subscription(CommandsChannel, l);
    }

    // --- Unsubscribe closures ---

    /** Invoke the closure a subscribe call returned: `set.delete(listener)` on that
        channel's set only. */
    method Unsubscribe(u: Subscription)
      requires Valid()
      modifies this`logListeners, this`metricListeners, this`stateListeners, this`chatListeners,
               this`commandListeners
      ensures Valid()
      ensures Listeners(u.channel) == Removed(old(Listeners(u.channel)), u.listener)
      ensures u.channel != LogsChannel ==> logListeners == old(logListeners)
      ensures u.channel != MetricsChannel ==> metricListeners == old(metricListeners)
      ensures u.channel != StateChannel ==> stateListeners == old(stateListeners)
      ensures u.channel != ChatChannel ==> chatListeners == old(chatListeners)
      ensures u.channel != CommandsChannel ==> commandListeners == old(commandListeners)
      ensures Contents() == old(Contents())
    {
      match u.channel
      case LogsChannel => logListeners := Removed(logListeners, u.listener);
      case MetricsChannel => metricListeners := Removed(metricListeners, u.listener);
      case StateChannel => stateListeners := Removed(stateListeners, u.listener);
      case ChatChannel => chatListeners := Removed(chatListeners, u.listener);
      case CommandsChannel => commandListeners := Removed(commandListeners, u.listener);
    }
  }
}
