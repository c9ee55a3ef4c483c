/**
 * The composite-metric evaluation actor (`fty_metric_composite_server`): a
 * phase counter, a cache from input topic to its last value and validity
 * deadline, and the stored evaluation script. Control commands move the
 * phase and load the descriptor; every accepted metric updates the cache
 * and runs one evaluation over the entries that are still valid.
 *
 * The Lua interpreter is replaced by a function parameter `eval` from the
 * snapshot and the script text to an `EvalResult`; the bus, the shared
 * memory sink and the clock are left outside (the time is the parameter
 * `now`, the published metric is returned to the caller).
 */
module CompositeServer {
  import opened Wrappers
  import opened TopicGrammar

  /** A reading or script result; the source uses `double`. */
  type Val = int

  /** Seconds a published composite metric stays valid (`TTL = 5*60`). */
  const PublishedTtl: nat := 300

  /** `struct value`: a reading and the deadline until which it is valid. */
  datatype CacheValue = CacheValue(value: Val, validTill: int)

  /**
   * The entry CONFIG creates for every input topic: deadline 0, that is
   * already expired. The source leaves the value uninitialised; it is never
   * read while the entry is expired.
   */
  const Expired: CacheValue := CacheValue(0, 0)

  /** Outcome of opening and deserialising the descriptor named by CONFIG. */
  datatype DescriptorLoad =
    | CannotOpen
    | Malformed
    | Descriptor(inputs: seq<string>, evaluation: string)

  /** A message on the actor's control pipe, by its first frame. */
  datatype Command =
    | Term
    | Connect(endpoint: string)
    | Config(load: DescriptorLoad)
    | Other(name: string)

  /** What the loop does after a control command. */
  datatype Control = Continue | Exit

  /**
   * What the bus hands over when it is ready: nothing, a message that does
   * not decode as a metric, or a metric with the subject it arrived on.
   */
  datatype Inbound =
    | NoMessage
    | Undecodable
    | Metric(subject: string, value: Val, ttl: nat, timestamp: nat)

  /** A value the script leaves on the interpreter stack. */
  datatype ScriptValue = Text(s: string) | Number(n: Val)

  /** The script run: an error message, or the values on the stack after it. */
  datatype EvalResult = EvalError(message: string) | Returned(values: seq<ScriptValue>)

  /** The metric the actor publishes (`fty_proto` METRIC fields it sets). */
  datatype OutboundMetric = OutboundMetric(
    metricType: string, name: string, value: Val, unit: string, ttl: nat, time: int)

  /** What one bus wake-up led to. */
  datatype Outcome =
    | DataBeforeConfig
    | Ignored
    | ScriptFailed(message: string)
    | NotEnoughData
    | InvalidTopic
    | Publish(subject: string, metric: OutboundMetric)

  /**
   * What wakes the loop: a control message, or the bus reporting a queued
   * message at time `now`. The messages themselves wait in the bus's queue
   * until the loop receives them.
   */
  datatype Event = FromPipe(cmd: Command) | BusReady(now: int)

  /** Number of bus wake-ups among `events`. */
  function BusCount(events: seq<Event>): nat {
    if events == [] then 0
    else BusCount(events[..|events| - 1]) + (if events[|events| - 1].BusReady? then 1 else 0)
  }

  /** Decimal digit for `d`. */
  function Digit(d: nat): char
    requires d < 10
  {
    "0123456789"[d]
  }

  /** Decimal text of a natural number. */
  function DigitText(n: nat): (r: string)
    ensures forall i :: 0 <= i < |r| ==> '0' <= r[i] <= '9'
    decreases n
  {
    if n < 10 then [Digit(n)] else DigitText(n / 10) + [Digit(n % 10)]
  }

  /** Decimal text of an integer, as the interpreter renders a number. */
  function NumberText(n: int): (r: string)
    ensures '@' !in r
  {
    if n < 0 then "-" + DigitText(-n) else DigitText(n)
  }

  /** `lua_tostring` of a stack value. */
  function TextOf(v: ScriptValue): string {
    match v
    case Text(s) => s
    case Number(n) => NumberText(n)
  }

  /** `lua_tonumber` of a stack value; text is not converted (see README). */
  function NumberOf(v: ScriptValue): Val {
    match v
    case Text(_) => 0
    case Number(n) => n
  }

  /**
   * Classification of one script run: an error, a count other than three,
   * a result topic without `@`, or a metric to publish under the result
   * topic, split at its last `@` into type and name.
   */
  function Evaluate(r: EvalResult, now: int): (o: Outcome)
    ensures o.Publish? <==> r.Returned? && |r.values| == 3 && '@' in TextOf(r.values[0])
    ensures r.EvalError? ==> o == ScriptFailed(r.message)
    ensures r.Returned? && |r.values| != 3 ==> o == NotEnoughData
    ensures r.Returned? && |r.values| == 3 && '@' !in TextOf(r.values[0]) ==> o == InvalidTopic
    ensures o.Publish? ==>
      && o.subject == TextOf(r.values[0])
      && o.metric.metricType + "@" + o.metric.name == o.subject
      && '@' !in o.metric.name
      && o.metric.value == NumberOf(r.values[1])
      && o.metric.unit == TextOf(r.values[2])
      && o.metric.ttl == PublishedTtl
      && o.metric.time == now
  {
    match r
    case EvalError(msg) => ScriptFailed(msg)
    case Returned(vs) =>
      if |vs| != 3 then NotEnoughData
      else
        var topic := TextOf(vs[0]);
        match SplitTopic(topic)
        case None => InvalidTopic
        case Some((metricType, name)) =>
          Publish(topic, OutboundMetric(metricType, name, NumberOf(vs[1]), TextOf(vs[2]), PublishedTtl, now))
  }

  /**
   * A run returning an `@`-topic, a number and a unit publishes exactly that
   * type, name, value and unit, with the fixed TTL and the evaluation time.
   */
  lemma EvaluatePublishes(metricType: string, name: string, value: Val, unit: string, now: int)
    requires '@' !in name
    ensures Evaluate(Returned([Text(metricType + "@" + name), Number(value), Text(unit)]), now)
         == Publish(metricType + "@" + name, OutboundMetric(metricType, name, value, unit, PublishedTtl, now))
  {
    JoinSplit(metricType, name);
  }

  /** The entries handed to the script: those whose deadline is not before `now`. */
  function Snapshot(cache: map<string, CacheValue>, now: int): (m: map<string, Val>)
    ensures forall t :: t in m <==> t in cache && now <= cache[t].validTill
    ensures forall t :: t in m ==> m[t] == cache[t].value
  {
    map t | t in cache && now <= cache[t].validTill :: cache[t].value
  }

  /** The cache after CONFIG's loop has given each listed topic an expired entry. */
  function ExpireInputs(cache: map<string, CacheValue>, inputs: seq<string>): map<string, CacheValue> {
    if inputs == [] then cache
    else ExpireInputs(cache, inputs[..|inputs| - 1])[inputs[|inputs| - 1] := Expired]
  }

  /**
   * CONFIG leaves one expired slot per distinct listed topic (duplicates
   * share it) and every other entry as it was.
   */
  lemma {:induction false} ExpireInputsSpec(cache: map<string, CacheValue>, inputs: seq<string>)
    ensures forall t :: t in ExpireInputs(cache, inputs) <==> t in cache || t in inputs
    ensures forall t :: t in inputs ==> ExpireInputs(cache, inputs)[t] == Expired
    ensures forall t :: t in cache && t !in inputs ==> ExpireInputs(cache, inputs)[t] == cache[t]
  {
    if inputs != [] {
      var init := inputs[..|inputs| - 1];
      ExpireInputsSpec(cache, init);
      assert inputs == init + [inputs[|inputs| - 1]];
    }
  }

  /** The patterns CONFIG registers, one per listed topic, in order. */
  function Filters(inputs: seq<string>): (fs: seq<string>)
    ensures |fs| == |inputs|
    ensures forall i :: 0 <= i < |inputs| ==> fs[i] == SubscriptionFilter(inputs[i])
  {
    if inputs == [] then []
    else Filters(inputs[..|inputs| - 1]) + [SubscriptionFilter(inputs[|inputs| - 1])]
  }

  /** A topic that has never received data is not handed to the script. */
  lemma FreshInputsNotInSnapshot(cache: map<string, CacheValue>, inputs: seq<string>, now: int)
    requires now > 0
    ensures forall t :: t in inputs ==> t !in Snapshot(ExpireInputs(cache, inputs), now)
  {
    ExpireInputsSpec(cache, inputs);
  }

  /** The cache after a metric: that topic's entry inserted or replaced. */
  function Stored(cache: map<string, CacheValue>, subject: string, value: Val, ttl: nat, timestamp: nat): (c: map<string, CacheValue>)
    ensures c.Keys == cache.Keys + {subject}
    ensures c[subject] == CacheValue(value, timestamp + ttl)
    ensures forall t :: t in cache && t != subject ==> c[t] == cache[t]
  {
    cache[subject := CacheValue(value, timestamp + ttl)]
  }

  /** Delivering the same metric twice leaves the same cache and snapshot as once. */
  lemma RedeliveryIdempotent(cache: map<string, CacheValue>, subject: string, value: Val, ttl: nat, timestamp: nat, now: int)
    ensures Stored(Stored(cache, subject, value, ttl, timestamp), subject, value, ttl, timestamp)
         == Stored(cache, subject, value, ttl, timestamp)
    ensures Snapshot(Stored(Stored(cache, subject, value, ttl, timestamp), subject, value, ttl, timestamp), now)
         == Snapshot(Stored(cache, subject, value, ttl, timestamp), now)
  {
  }

  /**
   * A stored reading is handed to the script exactly while
   * `now <= timestamp + ttl`, whatever it replaced.
   */
  lemma StoredVisibleUntilDeadline(cache: map<string, CacheValue>, subject: string, value: Val, ttl: nat, timestamp: nat, now: int)
    ensures var s := Snapshot(Stored(cache, subject, value, ttl, timestamp), now);
      (subject in s <==> now <= timestamp + ttl) && (subject in s ==> s[subject] == value)
  {
  }

  /** The actor's fields as one value, to state what a run of the loop leaves behind. */
  datatype ActorState = ActorState(
    phase: int, cache: map<string, CacheValue>, luaCode: string, subscriptions: seq<string>)

  /**
   * The state after a control command: CONNECT sets phase 1, a loadable
   * CONFIG after CONNECT installs the descriptor and sets phase 2, and every
   * other command, including one that ends the loop, changes nothing.
   */
  function AfterCommand(s: ActorState, cmd: Command): ActorState {
    match cmd
    case Connect(_) => s.(phase := 1)
    case Config(load) =>
      if s.phase >= 1 && load.Descriptor? then
        ActorState(2, ExpireInputs(s.cache, load.inputs), load.evaluation, s.subscriptions + Filters(load.inputs))
      else s
    case _ => s
  }

  /** The commands that end the loop in state `s`: `$TERM`, and a CONFIG after CONNECT that cannot be loaded. */
  predicate Stops(s: ActorState, cmd: Command) {
    cmd.Term? || (cmd.Config? && s.phase >= 1 && !cmd.load.Descriptor?)
  }

  /** A run so far: the state, how many queued bus messages it has received, and one outcome per bus wake-up. */
  datatype RunTrace = RunTrace(state: ActorState, received: nat, outcomes: seq<Outcome>)

  /** What `mlm_client_recv` hands over: the next queued message, or nothing once the queue is empty. */
  function NextMessage(inbox: seq<Inbound>, received: nat): Inbound {
    if received < |inbox| then inbox[received] else NoMessage
  }

  /**
   * One wake-up. A bus wake-up before CONFIG receives nothing, so the queued
   * message stays for a later wake-up; from phase 2 on it receives the next
   * message and, for a metric, stores it and runs the script.
   */
  function Step(t: RunTrace, e: Event, inbox: seq<Inbound>, eval: (map<string, Val>, string) -> EvalResult): RunTrace {
    match e
    case FromPipe(cmd) => t.(state := AfterCommand(t.state, cmd))
    case BusReady(now) =>
      if t.state.phase < 2 then t.(outcomes := t.outcomes + [DataBeforeConfig])
      else
        var msg := NextMessage(inbox, t.received);
        var received := if t.received < |inbox| then t.received + 1 else t.received;
        if msg.Metric? then
          var c := Stored(t.state.cache, msg.subject, msg.value, msg.ttl, msg.timestamp);
          RunTrace(t.state.(cache := c), received, t.outcomes + [Evaluate(eval(Snapshot(c, now), t.state.luaCode), now)])
        else RunTrace(t.state, received, t.outcomes + [Ignored])
  }

  /** The wake-ups `events` applied in order from state `s0`, the bus queue holding `inbox`. */
  function Replay(s0: ActorState, events: seq<Event>, inbox: seq<Inbound>, eval: (map<string, Val>, string) -> EvalResult): RunTrace {
    if events == [] then RunTrace(s0, 0, [])
    else Step(Replay(s0, events[..|events| - 1], inbox, eval), events[|events| - 1], inbox, eval)
  }

  /** The wake-up at index `k` ends the loop. */
  predicate StopsAt(s0: ActorState, events: seq<Event>, k: int, inbox: seq<Inbound>, eval: (map<string, Val>, string) -> EvalResult)
    requires 0 <= k < |events|
  {
    events[k].FromPipe? && Stops(Replay(s0, events[..k], inbox, eval).state, events[k].cmd)
  }

  /** Replaying one more wake-up is one more step. */
  lemma ReplaySnoc(s0: ActorState, events: seq<Event>, e: Event, inbox: seq<Inbound>, eval: (map<string, Val>, string) -> EvalResult)
    ensures Replay(s0, events + [e], inbox, eval) == Step(Replay(s0, events, inbox, eval), e, inbox, eval)
  {
    assert (events + [e])[..|events|] == events;
  }

  /**
   * Every bus wake-up yields exactly one outcome, and the loop receives the
   * queued messages at most once each, in queue order.
   */
  lemma {:induction false} ReplayCounts(s0: ActorState, events: seq<Event>, inbox: seq<Inbound>, eval: (map<string, Val>, string) -> EvalResult)
    ensures |Replay(s0, events, inbox, eval).outcomes| == BusCount(events)
    ensures Replay(s0, events, inbox, eval).received <= |inbox|
    ensures Replay(s0, events, inbox, eval).received <= BusCount(events)
  {
    if events != [] {
      ReplayCounts(s0, events[..|events| - 1], inbox, eval);
    }
  }

  /**
   * Until a CONFIG arrives nothing is taken off the bus: a run from a state
   * before CONFIG that contains no CONFIG receives no message, keeps the
   * cache, and stays below phase 2; every bus wake-up reports data before
   * CONFIG.
   */
  lemma {:induction false} NothingReceivedBeforeConfig(s0: ActorState, events: seq<Event>, inbox: seq<Inbound>, eval: (map<string, Val>, string) -> EvalResult)
    requires s0.phase < 2
    requires forall k :: 0 <= k < |events| ==> !(events[k].FromPipe? && events[k].cmd.Config?)
    ensures Replay(s0, events, inbox, eval).received == 0
    ensures Replay(s0, events, inbox, eval).state.phase < 2
    ensures Replay(s0, events, inbox, eval).state.cache == s0.cache
    ensures forall i :: 0 <= i < |Replay(s0, events, inbox, eval).outcomes| ==>
      Replay(s0, events, inbox, eval).outcomes[i] == DataBeforeConfig
  {
    if events != [] {
      NothingReceivedBeforeConfig(s0, events[..|events| - 1], inbox, eval);
    }
  }

  /**
   * A metric that reaches the bus between CONNECT and CONFIG is not lost:
   * the wake-up before CONFIG leaves it queued, and the first wake-up after
   * CONFIG receives it, stores it over the expired slots and runs the new
   * script on it.
   */
  lemma DeferredMetricApplied(
    s0: ActorState, endpoint: string, inputs: seq<string>, code: string, m: Inbound,
    t1: int, t2: int, eval: (map<string, Val>, string) -> EvalResult)
    requires m.Metric?
    ensures var r := Replay(s0, [FromPipe(Connect(endpoint)), BusReady(t1), FromPipe(Config(Descriptor(inputs, code))), BusReady(t2)], [m], eval);
      var c := Stored(ExpireInputs(s0.cache, inputs), m.subject, m.value, m.ttl, m.timestamp);
      && r.received == 1
      && r.state.phase == 2
      && r.state.cache == c
      && r.outcomes == [DataBeforeConfig, Evaluate(eval(Snapshot(c, t2), code), t2)]
  {
    var e0 := FromPipe(Connect(endpoint));
    var e2 := FromPipe(Config(Descriptor(inputs, code)));
    var r0 := Replay(s0, [e0], [m], eval);
    ReplaySnoc(s0, [], e0, [m], eval);
    assert [] + [e0] == [e0];
    assert r0.state.phase == 1 && r0.received == 0 && r0.outcomes == [];
    ReplaySnoc(s0, [e0], BusReady(t1), [m], eval);
    assert [e0] + [BusReady(t1)] == [e0, BusReady(t1)];
    var r1 := Replay(s0, [e0, BusReady(t1)], [m], eval);
    assert r1 == r0.(outcomes := [DataBeforeConfig]);
    ReplaySnoc(s0, [e0, BusReady(t1)], e2, [m], eval);
    assert [e0, BusReady(t1)] + [e2] == [e0, BusReady(t1), e2];
    var r2 := Replay(s0, [e0, BusReady(t1), e2], [m], eval);
    assert r2.state.phase == 2 && r2.state.luaCode == code && r2.state.cache == ExpireInputs(s0.cache, inputs);
    assert r2.received == 0 && r2.outcomes == [DataBeforeConfig];
    ReplaySnoc(s0, [e0, BusReady(t1), e2], BusReady(t2), [m], eval);
    assert [e0, BusReady(t1), e2] + [BusReady(t2)] == [e0, BusReady(t1), e2, BusReady(t2)];
  }

  /** The actor's state. */
  class CompositeActor {
    /** 0 unconnected, 1 connected, 2 configured. */
    var phase: int
    var cache: map<string, CacheValue>
    var luaCode: string
    /** The patterns registered with the bus for the sensor stream, in order. */
    var subscriptions: seq<string>

    /**
     * Phase in range, nothing configured before the first CONNECT, and every
     * registered pattern accepts exactly one subject, which has a cache entry.
     */
    ghost predicate Valid()
      reads this
    {
      && 0 <= phase <= 2
      && (phase == 0 ==> cache == map[] && subscriptions == [])
      && (forall i :: 0 <= i < |subscriptions| ==>
            FilterSubject(subscriptions[i]).Some? && FilterSubject(subscriptions[i]).value in cache)
    }

    /** The fields as one value. */
    ghost function State(): ActorState
      reads this
    {
      ActorState(phase, cache, luaCode, subscriptions)
    }

    /** True when some registered pattern accepts `subject`. */
    ghost predicate Subscribed(subject: string)
      reads this
    {
      exists i :: 0 <= i < |subscriptions| && FilterSubject(subscriptions[i]) == Some(subject)
    }

    constructor ()
      ensures Valid()
      ensures phase == 0 && cache == map[] && luaCode == "" && subscriptions == []
    {
      phase := 0;
      cache := map[];
      luaCode := "";
      subscriptions := [];
    }

    /** `$TERM`: the loop ends, whatever the phase; the state is left alone. */
    method Terminate() returns (next: Control)
      ensures next == Exit
    {
      next := Exit;
    }

    /** CONNECT: the phase becomes 1 unconditionally, even from 2. */
    method Connect(endpoint: string)
      requires Valid()
      modifies this`phase
      ensures Valid()
      ensures phase == 1
    {
      phase := 1;
    }

    /**
     * CONFIG: refused before CONNECT; a descriptor that cannot be opened or
     * deserialised ends the loop; otherwise the script is stored, every input
     * topic gets an expired entry and a pattern of its own, and the phase
     * becomes 2.
     */
    method Configure(load: DescriptorLoad) returns (next: Control)
      requires Valid()
      modifies this
      ensures Valid()
      ensures old(phase) < 1 ==> next == Continue && unchanged(this)
      ensures old(phase) >= 1 && !load.Descriptor? ==> next == Exit && unchanged(this)
      ensures old(phase) >= 1 && load.Descriptor? ==>
        && next == Continue
        && phase == 2
        && luaCode == load.evaluation
        && cache == ExpireInputs(old(cache), load.inputs)
        && subscriptions == old(subscriptions) + Filters(load.inputs)
    {
      if phase < 1 {
        return Continue;
      }
      if !load.Descriptor? {
        return Exit;
      }
      luaCode := load.evaluation;
      var inputs := load.inputs;
      ExpireAndSubscribe(inputs);
      // every registered pattern, old or new, accepts a subject that has a cache entry
      ExpireInputsSpec(old(cache), inputs);
      forall k | 0 <= k < |subscriptions|
        ensures FilterSubject(subscriptions[k]).Some? && FilterSubject(subscriptions[k]).value in cache
      {
        var n := |old(subscriptions)|;
        if k < n {
          assert subscriptions[k] == old(subscriptions)[k];
        } else {
          assert subscriptions[k] == SubscriptionFilter(inputs[k - n]);
          FilterRoundTrip(inputs[k - n]);
        }
      }
      phase := 2;
      next := Continue;
    }

    /** CONFIG's loop: an expired entry and a pattern for each listed topic, in order. */
    method ExpireAndSubscribe(inputs: seq<string>)
      modifies this`cache, this`subscriptions
      ensures cache == ExpireInputs(old(cache), inputs)
      ensures subscriptions == old(subscriptions) + Filters(inputs)
    {
      for i := 0 to |inputs|
        invariant cache == ExpireInputs(old(cache), inputs[..i])
        invariant subscriptions == old(subscriptions) + Filters(inputs[..i])
      {
        var topic := inputs[i];
        ghost var prefix := inputs[..i];
        assert inputs[..i + 1] == prefix + [topic];
        assert (prefix + [topic])[..|prefix|] == prefix;
        cache := cache[topic := Expired];
        var escaped := EscapeRegex(topic);
        ghost var before := subscriptions;
        subscriptions := subscriptions + ["^" + escaped + "$"];
        assert subscriptions[|before|] == SubscriptionFilter(topic);
        assert subscriptions == old(subscriptions) + (Filters(prefix) + [SubscriptionFilter(topic)]);
      }
      assert inputs[..|inputs|] == inputs;
    }

    /** One control message, dispatched on its command name. */
    method HandleCommand(cmd: Command) returns (next: Control)
      requires Valid()
      modifies this
      ensures Valid()
      ensures cmd.Term? ==> next == Exit && unchanged(this)
      ensures cmd.Other? ==> next == Continue && unchanged(this)
      ensures cmd.Connect? ==>
        && next == Continue && phase == 1
        && cache == old(cache) && luaCode == old(luaCode) && subscriptions == old(subscriptions)
      ensures cmd.Config? && old(phase) < 1 ==> next == Continue && unchanged(this)
      ensures cmd.Config? && old(phase) >= 1 && !cmd.load.Descriptor? ==> next == Exit && unchanged(this)
      ensures cmd.Config? && old(phase) >= 1 && cmd.load.Descriptor? ==>
        && next == Continue && phase == 2 && luaCode == cmd.load.evaluation
        && cache == ExpireInputs(old(cache), cmd.load.inputs)
        && subscriptions == old(subscriptions) + Filters(cmd.load.inputs)
    {
      match cmd
      case Term =>
        next := Terminate();
      case Connect(endpoint) =>
        Connect(endpoint);
        next := Continue;
      case Config(load) =>
        next := Configure(load);
      case Other(_) =>
        next := Continue;
    }

    /** The table handed to the script, built by walking the cache. */
    method BuildSnapshot(now: int) returns (mt: map<string, Val>)
      ensures mt == Snapshot(cache, now)
    {
      mt := map[];
      var pending := cache.Keys;
      while pending != {}
        invariant pending <= cache.Keys
        invariant forall t :: t in mt <==> t in cache && t !in pending && now <= cache[t].validTill
        invariant forall t :: t in mt ==> mt[t] == cache[t].value
        decreases pending
      {
        var t :| t in pending;
        if now <= cache[t].validTill {
          mt := mt[t := cache[t].value];
        }
        pending := pending - {t};
      }
    }

    /**
     * The bus is ready. Before CONFIG nothing is received: the message stays
     * queued (`received` is false). From phase 2 on, `msg` is what
     * `mlm_client_recv` hands over: nothing or an undecodable message is
     * ignored; a metric inserts or replaces the cache entry of its subject,
     * and the script runs once on the entries still valid at `now`.
     */
    method OnMetric(msg: Inbound, now: int, eval: (map<string, Val>, string) -> EvalResult)
      returns (outcome: Outcome, received: bool)
      requires Valid()
      modifies this`cache
      ensures Valid()
      ensures received <==> old(phase) == 2
      ensures old(phase) < 2 ==> outcome == DataBeforeConfig && cache == old(cache)
      ensures old(phase) == 2 && !msg.Metric? ==> outcome == Ignored && cache == old(cache)
      ensures old(phase) == 2 && msg.Metric? ==>
        && cache == Stored(old(cache), msg.subject, msg.value, msg.ttl, msg.timestamp)
        && outcome == Evaluate(eval(Snapshot(cache, now), luaCode), now)
      ensures msg.Metric? && Subscribed(msg.subject) ==> cache.Keys == old(cache).Keys
    {
      if phase < 2 {
        return DataBeforeConfig, false;
      }
      received := true;
      if !msg.Metric? {
        return Ignored, received;
      }
      // find-then-assign or insert: one map update either way
      cache := cache[msg.subject := CacheValue(msg.value, msg.timestamp + msg.ttl)];
      var mt := BuildSnapshot(now);
      var result := eval(mt, luaCode);
      outcome := Evaluate(result, now);
    }

    /**
     * The actor loop over a sequence of wake-ups, with `inbox` the messages
     * queued on the bus in arrival order. It follows `Replay` wake-up by
     * wake-up and stops right after the first wake-up that `Stops` ($TERM,
     * or a CONFIG after CONNECT whose descriptor cannot be loaded).
     */
    method Run(events: seq<Event>, inbox: seq<Inbound>, eval: (map<string, Val>, string) -> EvalResult)
      returns (outcomes: seq<Outcome>, consumed: nat, received: nat, exited: bool)
      requires Valid()
      modifies this
      ensures Valid()
      ensures consumed <= |events|
      ensures var t := Replay(old(State()), events[..consumed], inbox, eval);
        State() == t.state && received == t.received && outcomes == t.outcomes
      ensures exited ==> 0 < consumed && StopsAt(old(State()), events, consumed - 1, inbox, eval)
      ensures !exited ==> consumed == |events|
      ensures forall k :: 0 <= k < consumed && (k < consumed - 1 || !exited) ==>
        !StopsAt(old(State()), events, k, inbox, eval)
    {
      ghost var s0 := State();
      outcomes := [];
      consumed := 0;
      received := 0;
      exited := false;
      while consumed < |events|
        invariant Valid()
        invariant consumed <= |events|
        invariant var t := Replay(s0, events[..consumed], inbox, eval);
          State() == t.state && received == t.received && outcomes == t.outcomes
        invariant forall k :: 0 <= k < consumed ==> !StopsAt(s0, events, k, inbox, eval)
      {
        var e := events[consumed];
        ghost var before := events[..consumed];
        assert events[..consumed + 1] == before + [e];
        ReplaySnoc(s0, before, e, inbox, eval);
        consumed := consumed + 1;
        match e
        case FromPipe(cmd) =>
          var next := HandleCommand(cmd);
          if next == Exit {
            exited := true;
            return;
          }
        case BusReady(now) =>
          received, outcomes := WakeOnBus(now, inbox, received, outcomes, eval);
      }
    }

    /** One bus wake-up of the loop: `Step` on the state, the queue position and the outcomes. */
    method WakeOnBus(now: int, inbox: seq<Inbound>, received: nat, outcomes: seq<Outcome>,
                     eval: (map<string, Val>, string) -> EvalResult)
      returns (received': nat, outcomes': seq<Outcome>)
      requires Valid()
      modifies this`cache
      ensures Valid()
      ensures var t := Step(RunTrace(old(State()), received, outcomes), BusReady(now), inbox, eval);
        State() == t.state && received' == t.received && outcomes' == t.outcomes
    {
      var msg := if received < |inbox| then inbox[received] else NoMessage;
      var o, took := OnMetric(msg, now, eval);
      received' := if took && received < |inbox| then received + 1 else received;
      outcomes' := outcomes + [o];
    }
  }
}

/**
 * The server selftest's run, with an averaging script over the two
 * thermometers standing in for the fixture script.
 */
module CompositeServerScenario {
  import opened CompositeServer

  const TH1 := "temperature@TH1"
  const TH2 := "temperature@TH2"
  const Result := "temperature@world"

  /** Average of the valid thermometers, or an error when none is valid. */
  function Average(mt: map<string, Val>, code: string): EvalResult {
    if TH1 in mt && TH2 in mt then Returned([Text(Result), Number((mt[TH1] + mt[TH2]) / 2), Text("C")])
    else if TH1 in mt then Returned([Text(Result), Number(mt[TH1]), Text("C")])
    else if TH2 in mt then Returned([Text(Result), Number(mt[TH2]), Text("C")])
    else EvalError("all sensors lost")
  }

  /** The cache right after CONFIG with both thermometers. */
  const Configured: map<string, CacheValue> := map[TH1 := Expired, TH2 := Expired]

  /** A single valid reading of 40 publishes 40. */
  lemma ScenarioSingleInput()
    ensures var c := Stored(Configured, TH1, 40, 60, 1000);
      Evaluate(Average(Snapshot(c, 1000), "average"), 1000)
        == Publish(Result, OutboundMetric("temperature", "world", 40, "C", PublishedTtl, 1000))
  {
    var mt := Snapshot(Stored(Configured, TH1, 40, 60, 1000), 1000);
    assert TH1 != TH2 by { assert TH1[14] != TH2[14]; }
    assert TH1 in mt && mt[TH1] == 40 && TH2 !in mt;
    assert Result == "temperature" + "@" + "world";
    EvaluatePublishes("temperature", "world", 40, "C", 1000);
  }

  /** A second reading of 100 averages with the first: 70. */
  lemma ScenarioTwoInputs()
    ensures var c := Stored(Stored(Configured, TH1, 40, 60, 1000), TH2, 100, 60, 1000);
      Evaluate(Average(Snapshot(c, 1000), "average"), 1000)
        == Publish(Result, OutboundMetric("temperature", "world", 70, "C", PublishedTtl, 1000))
  {
    var mt := Snapshot(Stored(Stored(Configured, TH1, 40, 60, 1000), TH2, 100, 60, 1000), 1000);
    assert TH1 != TH2 by { assert TH1[14] != TH2[14]; }
    assert TH1 in mt && mt[TH1] == 40 && TH2 in mt && mt[TH2] == 100;
    assert (mt[TH1] + mt[TH2]) / 2 == 70;
    assert Result == "temperature" + "@" + "world";
    EvaluatePublishes("temperature", "world", 70, "C", 1000);
  }

  /** Replacing the first reading by 70 gives 85. */
  lemma ScenarioUpdate()
    ensures var c := Stored(Stored(Stored(Configured, TH1, 40, 60, 1000), TH2, 100, 60, 1000), TH1, 70, 60, 1000);
      Evaluate(Average(Snapshot(c, 1000), "average"), 1000)
        == Publish(Result, OutboundMetric("temperature", "world", 85, "C", PublishedTtl, 1000))
  {
    var mt := Snapshot(Stored(Stored(Stored(Configured, TH1, 40, 60, 1000), TH2, 100, 60, 1000), TH1, 70, 60, 1000), 1000);
    assert TH1 != TH2 by { assert TH1[14] != TH2[14]; }
    assert TH1 in mt && mt[TH1] == 70 && TH2 in mt && mt[TH2] == 100;
    assert (mt[TH1] + mt[TH2]) / 2 == 85;
    assert Result == "temperature" + "@" + "world";
    EvaluatePublishes("temperature", "world", 85, "C", 1000);
  }

  /** When every reading is stale the script fails and nothing is published. */
  lemma ScenarioAllStale(c: map<string, CacheValue>)
    requires c.Keys == {TH1, TH2}
    requires c[TH1].validTill < 1100 && c[TH2].validTill < 1100
    ensures Evaluate(Average(Snapshot(c, 1100), "average"), 1100) == ScriptFailed("all sensors lost")
  {
    var mt := Snapshot(c, 1100);
    assert TH1 !in mt && TH2 !in mt;
  }

  /** CONFIG with both thermometers leaves both expired. */
  lemma ConfiguredCache()
    ensures ExpireInputs(map[], [TH1, TH2]) == Configured
  {
    var c := ExpireInputs(map[], [TH1, TH2]);
    ExpireInputsSpec(map[], [TH1, TH2]);
    assert TH1 in [TH1, TH2] && TH2 in [TH1, TH2];
    assert c.Keys == Configured.Keys;
    assert c[TH1] == Expired && c[TH2] == Expired;
  }

  /** A new actor after CONNECT and a CONFIG listing both thermometers. */
  method NewConfiguredActor() returns (actor: CompositeActor)
    ensures fresh(actor) && actor.Valid()
    ensures actor.phase == 2 && actor.luaCode == "average" && actor.cache == Configured
  {
    actor := new CompositeActor();
    actor.Connect("inproc://bios-cm-server-test");
    var next := actor.Configure(Descriptor([TH1, TH2], "average"));
    ConfiguredCache();
  }

  /** The selftest's three deliveries and what each publishes: 40, then 70, then 85. */
  method Selftest() returns (outcomes: seq<Outcome>)
    ensures outcomes == [
      Publish(Result, OutboundMetric("temperature", "world", 40, "C", 300, 1000)),
      Publish(Result, OutboundMetric("temperature", "world", 70, "C", 300, 1000)),
      Publish(Result, OutboundMetric("temperature", "world", 85, "C", 300, 1000))]
  {
    var actor := NewConfiguredActor();

    var o1, _ := actor.OnMetric(Metric(TH1, 40, 60, 1000), 1000, Average);
    ScenarioSingleInput();

    var o2, _ := actor.OnMetric(Metric(TH2, 100, 60, 1000), 1000, Average);
    ScenarioTwoInputs();

    var o3, _ := actor.OnMetric(Metric(TH1, 70, 60, 1000), 1000, Average);
    ScenarioUpdate();
    outcomes := [o1, o2, o3];
  }
}
