/**
 * The realtime messaging client: one MQTT session, an offline command outbox
 * kept in the persisted store, and fan-out of every parsed inbound message to a
 * set of registered handlers. The MQTT library is foreign: what the service asks
 * of it is recorded in the ghost log `calls`, and the library's callbacks
 * ('connect', 'reconnect', 'error', 'offline', 'close', 'message') are event
 * methods that the environment invokes.
 */
module Mqtt {
  import opened Wrappers
  import opened Json
  import opened Storage

  // ----- Topics -----

  function SensorTopic(deviceId: string): string { "devices/" + deviceId + "/sensor" }
  function StatusTopic(deviceId: string): string { "devices/" + deviceId + "/status" }
  function ReportAckTopic(deviceId: string): string { "devices/" + deviceId + "/report_ack" }
  function CommandTopic(deviceId: string): string { "devices/" + deviceId + "/command" }

  /** The wildcard subscription covering every device's telemetry. */
  const ALL_SENSORS_TOPIC: string := "devices/+/sensor"

  /** The three topics subscribed per device, in the order they are subscribed. */
  function DeviceTopics(deviceId: string): seq<string> {
    [SensorTopic(deviceId), StatusTopic(deviceId), ReportAckTopic(deviceId)]
  }

  /** The three per-device topics are pairwise distinct. */
  lemma DeviceTopicsDistinct(deviceId: string)
    ensures forall i, j :: 0 <= i < j < 3 ==> DeviceTopics(deviceId)[i] != DeviceTopics(deviceId)[j]
  {
    var n := |deviceId|;
    var ts := DeviceTopics(deviceId);
    assert ts[0][n + 9] == 's' && ts[1][n + 9] == 's' && ts[2][n + 9] == 'r';
    assert ts[0][n + 10] == 'e' && ts[1][n + 10] == 't';
  }

  /** A device's telemetry topic determines the device. */
  lemma SensorTopicInjective(a: string, b: string)
    ensures SensorTopic(a) == SensorTopic(b) ==> a == b
  {
    if SensorTopic(a) == SensorTopic(b) {
      assert |a| == |b|;
      assert a == SensorTopic(a)[8..8 + |a|];
    }
  }

  /**
   * The command topic of any device differs, as a string, from every topic
   * filter the client subscribes: each per-device topic and the wildcard.
   */
  lemma CommandTopicNeverSubscribed(a: string, b: string)
    ensures CommandTopic(a) !in DeviceTopics(b)
    ensures CommandTopic(a) != ALL_SENSORS_TOPIC
  {
    var c := CommandTopic(a);
    assert c[|c| - 1] == 'd';
    var ts := DeviceTopics(b);
    assert ts[0][|ts[0]| - 1] == 'r' && ts[1][|ts[1]| - 1] == 's' && ts[2][|ts[2]| - 1] == 'k';
    assert ALL_SENSORS_TOPIC[|ALL_SENSORS_TOPIC| - 1] == 'r';
  }

  // ----- Reconnect backoff -----

  const INITIAL_DELAY: int := 1000
  const MAX_DELAY: int := 60000
  const MAX_RECONNECT_ATTEMPTS: nat := 10

  function Min(a: int, b: int): int { if a <= b then a else b }

  function Pow2(n: nat): nat { if n == 0 then 1 else 2 * Pow2(n - 1) }

  /**
   * The delay the service holds after `attempts` reconnect events since the last
   * successful connect: unchanged for the first ten, then doubled per event up
   * to the ceiling.
   */
  function BackoffDelay(attempts: nat): int {
    if attempts <= MAX_RECONNECT_ATTEMPTS then INITIAL_DELAY
    else Min(BackoffDelay(attempts - 1) * 2, MAX_DELAY)
  }

  /** The delay always lies between the floor and the ceiling. */
  lemma {:induction false} BackoffBounds(attempts: nat)
    ensures INITIAL_DELAY <= BackoffDelay(attempts) <= MAX_DELAY
  {
    if attempts > MAX_RECONNECT_ATTEMPTS {
      BackoffBounds(attempts - 1);
    }
  }

  /** More failed attempts never mean a shorter delay. */
  lemma {:induction false} BackoffMonotone(m: nat, n: nat)
    requires m <= n
    ensures BackoffDelay(m) <= BackoffDelay(n)
  {
    if m < n {
      BackoffMonotone(m, n - 1);
      BackoffBounds(n - 1);
    }
  }

  /** Past the threshold the delay is the floor doubled once per extra attempt, capped. */
  lemma {:induction false} BackoffClosedForm(attempts: nat)
    requires attempts > MAX_RECONNECT_ATTEMPTS
    ensures BackoffDelay(attempts) == Min(INITIAL_DELAY * Pow2(attempts - MAX_RECONNECT_ATTEMPTS), MAX_DELAY)
  {
    if attempts > MAX_RECONNECT_ATTEMPTS + 1 {
      BackoffClosedForm(attempts - 1);
    }
  }

  /** From the sixteenth attempt on, the delay sits at the ceiling. */
  lemma BackoffReachesCeiling(attempts: nat)
    requires attempts >= 16
    ensures BackoffDelay(attempts) == MAX_DELAY
  {
    BackoffClosedForm(attempts);
    PowGrows(attempts - MAX_RECONNECT_ATTEMPTS);
  }

  lemma {:induction false} PowGrows(n: nat)
    requires n >= 6
    ensures Pow2(n) >= 64
  {
    if n > 6 { PowGrows(n - 1); }
  }

  // ----- Transport log and fan-out -----

  /** A handler's identity: registering the same handler twice registers it once. */
  type Handler = nat

  /** The capability `onMessage` returns; invoking it removes exactly that handler. */
  datatype Registration = Registration(handler: Handler)

  /** A call made on the MQTT client; an absent argument (`undefined`) is `None`. */
  datatype Call =
    | Connect(clientId: string, keepalive: nat, clean: bool, reconnectPeriod: int)
    | Subscribe(topic: string, qos: nat)
    | Unsubscribe(topic: string)
    | Publish(target: Option<Value>, body: Option<Value>, qos: nat)
    | End

  /** One invocation of a registered handler. */
  datatype Delivery = Delivery(handler: Handler, topic: string, payload: Value)

  /** The publish `publishCommand` issues when online. */
  function DirectPublish(deviceId: string, command: Value): Call {
    Publish(Some(Str(CommandTopic(deviceId))), Some(Str(Stringify(command))), 1)
  }

  /** The object `publishCommand` hands to the outbox when offline. */
  function OutboxItem(deviceId: string, command: Value): Value {
    Obj([Field("topic", Str(CommandTopic(deviceId))), Field("payload", Str(Stringify(command))), Field("command", command)])
  }

  /** The publish the flush issues for one stored entry: its stored topic and payload, QoS 1. */
  function ReplayOf(item: Value): Call {
    Publish(Get(item, "topic"), Get(item, "payload"), 1)
  }

  function ReplayAll(queue: seq<Value>): (r: seq<Call>)
    ensures |r| == |queue|
    ensures forall i :: 0 <= i < |queue| ==> r[i] == ReplayOf(queue[i])
  {
    seq(|queue|, i requires 0 <= i < |queue| => ReplayOf(queue[i]))
  }

  /**
   * The entries the flush replays before one throws: `item.topic` on a `null`
   * entry raises a TypeError, which ends the loop. The result is the longest
   * prefix of the queue without a `null` entry.
   */
  function Replayable(queue: seq<Value>): (r: seq<Value>)
    ensures |r| <= |queue| && r == queue[..|r|]
    ensures forall i :: 0 <= i < |r| ==> !r[i].Null?
    ensures |r| < |queue| ==> queue[|r|].Null?
  {
    if queue == [] || queue[0].Null? then []
    else [queue[0]] + Replayable(queue[1..])
  }

  /** The replayed prefix ends exactly at the first `null` entry, or covers the whole queue when there is none. */
  lemma {:induction false} ReplayableUpTo(queue: seq<Value>, n: nat)
    requires n <= |queue|
    requires forall i :: 0 <= i < n ==> !queue[i].Null?
    requires n < |queue| ==> queue[n].Null?
    ensures Replayable(queue) == queue[..n]
    decreases n
  {
    if n > 0 {
      ReplayableUpTo(queue[1..], n - 1);
      assert queue[..n] == [queue[0]] + queue[1..][..n - 1];
    }
  }

  /** The client calls a flush makes, given the store it starts from. */
  function FlushCalls(prefs: map<string, Value>, withClient: bool): seq<Call> {
    match QueueOf(Read(prefs, OFFLINE_QUEUE))
    case Some(q) => if withClient then ReplayAll(Replayable(q)) else []
    case None => []
  }

  /**
   * The store a flush leaves behind: the outbox is reset to `[]` unless it was
   * empty or unreadable, or the replay threw on a `null` entry.
   */
  function FlushPrefs(prefs: map<string, Value>, withClient: bool): map<string, Value> {
    match QueueOf(Read(prefs, OFFLINE_QUEUE))
    case Some(q) => if q == [] || (withClient && Replayable(q) != q) then prefs else prefs[OFFLINE_QUEUE := Arr([])]
    case None => prefs
  }

  /**
   * After a flush of a readable outbox, the outbox reads as empty exactly when
   * the replay did not throw; when it threw, the store is left as it was.
   */
  lemma FlushEmptiesOutbox(prefs: map<string, Value>, withClient: bool, queue: seq<Value>)
    requires QueueOf(Read(prefs, OFFLINE_QUEUE)) == Some(queue)
    ensures QueueOf(Read(FlushPrefs(prefs, withClient), OFFLINE_QUEUE)) == Some([])
        <==> !withClient || forall i :: 0 <= i < |queue| ==> !queue[i].Null?
    ensures withClient && (exists i :: 0 <= i < |queue| && queue[i].Null?) ==> FlushPrefs(prefs, withClient) == prefs
  {
    if withClient && forall i :: 0 <= i < |queue| ==> !queue[i].Null? {
      ReplayableUpTo(queue, |queue|);
    }
  }

  /**
   * With a client, a `null` entry at index `k` (the first one) ends the
   * replay: the entries before it are published and the outbox is kept.
   */
  lemma FlushStopsAtNull(prefs: map<string, Value>, queue: seq<Value>, k: nat)
    requires QueueOf(Read(prefs, OFFLINE_QUEUE)) == Some(queue)
    requires k < |queue| && queue[k].Null?
    requires forall i :: 0 <= i < k ==> !queue[i].Null?
    ensures FlushCalls(prefs, true) == ReplayAll(queue[..k])
    ensures FlushPrefs(prefs, true) == prefs
  {
    ReplayableUpTo(queue, k);
  }

  /**
   * A command queued while offline is replayed by the flush as exactly the
   * publish that would have been issued online: same topic, same payload, QoS 1.
   */
  lemma QueuedCommandReplaysAsDirect(deviceId: string, command: Value, now: NumberText)
    ensures ReplayOf(Stamped(OutboxItem(deviceId, command), now)) == DirectPublish(deviceId, command)
  {
    var item := OutboxItem(deviceId, command);
    assert Get(item, "topic") == Some(Str(CommandTopic(deviceId)));
    assert item.fields[1..][0].key == "payload";
    assert Get(item, "payload") == Some(Str(Stringify(command)));
  }

  /** A flush of an outbox whose last entry is `item` publishes the earlier entries, then `item`, and empties it. */
  lemma FlushAfterAppend(prefs: map<string, Value>, queue: seq<Value>, item: Value)
    requires Read(prefs, OFFLINE_QUEUE) == Arr(queue + [item])
    requires forall i :: 0 <= i < |queue| ==> !queue[i].Null?
    requires !item.Null?
    ensures FlushCalls(prefs, true) == ReplayAll(queue) + [ReplayOf(item)]
    ensures QueueOf(Read(FlushPrefs(prefs, true), OFFLINE_QUEUE)) == Some([])
  {
    var q := queue + [item];
    assert QueueOf(Read(prefs, OFFLINE_QUEUE)) == Some(q);
    ReplayableUpTo(q, |q|);
    assert q[..|q|] == q;
    assert ReplayAll(q) == ReplayAll(queue) + [ReplayOf(item)];
  }

  /**
   * Commands queued one after another while offline are replayed in the order
   * they were queued, each as its online publish.
   */
  lemma QueuedCommandsReplayInOrder(ids: seq<string>, commands: seq<Value>, stamps: seq<NumberText>)
    requires |ids| == |commands| == |stamps|
    ensures ReplayAll(seq(|ids|, i requires 0 <= i < |ids| => Stamped(OutboxItem(ids[i], commands[i]), stamps[i])))
         == seq(|ids|, i requires 0 <= i < |ids| => DirectPublish(ids[i], commands[i]))
  {
    forall i | 0 <= i < |ids| {
      QueuedCommandReplaysAsDirect(ids[i], commands[i], stamps[i]);
    }
  }

  /** The handlers a message reaches: all of them in order, up to and including the first that throws. */
  function Reached(hs: seq<Handler>, throwing: set<Handler>): (r: seq<Handler>)
    ensures |r| <= |hs| && r == hs[..|r|]
    ensures forall i :: 0 <= i < |r| - 1 ==> r[i] !in throwing
    ensures |r| < |hs| ==> |r| > 0 && r[|r| - 1] in throwing
  {
    if hs == [] then []
    else if hs[0] in throwing then [hs[0]]
    else [hs[0]] + Reached(hs[1..], throwing)
  }

  function DeliveriesTo(hs: seq<Handler>, topic: string, payload: Value): (r: seq<Delivery>)
    ensures |r| == |hs|
    ensures forall i :: 0 <= i < |hs| ==> r[i] == Delivery(hs[i], topic, payload)
  {
    seq(|hs|, i requires 0 <= i < |hs| => Delivery(hs[i], topic, payload))
  }

  function HandlersOf(ds: seq<Delivery>): seq<Handler> {
    seq(|ds|, i requires 0 <= i < |ds| => ds[i].handler)
  }

  ghost predicate Distinct(hs: seq<Handler>) {
    forall i, j :: 0 <= i < j < |hs| ==> hs[i] != hs[j]
  }

  /** `Set.delete`: removes `h` and keeps the order of the rest. */
  function Without(hs: seq<Handler>, h: Handler): (r: seq<Handler>)
    ensures h !in r
    ensures forall x :: x != h ==> (x in r <==> x in hs)
    ensures Distinct(hs) ==> Distinct(r)
    ensures h !in hs ==> r == hs
  {
    if hs == [] then []
    else if hs[0] == h then Without(hs[1..], h)
    else
      var rest := Without(hs[1..], h);
      assert Distinct(hs) ==> hs[0] !in hs[1..] && Distinct(hs[1..]);
      [hs[0]] + rest
  }

  /** In a duplicate-free handler sequence every member occurs exactly once. */
  lemma {:induction false} DistinctOccursOnce(hs: seq<Handler>, h: Handler)
    requires Distinct(hs)
    ensures multiset(hs)[h] == (if h in hs then 1 else 0)
  {
    if hs != [] {
      assert hs == [hs[0]] + hs[1..];
      assert Distinct(hs[1..]);
      DistinctOccursOnce(hs[1..], h);
      assert hs[0] !in hs[1..];
    }
  }

  /**
   * When no handler throws, a message reaches every registered handler exactly
   * once, and nothing else.
   */
  lemma DeliveredExactlyOnce(hs: seq<Handler>, throwing: set<Handler>, topic: string, payload: Value, h: Handler)
    requires Distinct(hs)
    requires forall x :: x in hs ==> x !in throwing
    ensures multiset(HandlersOf(DeliveriesTo(Reached(hs, throwing), topic, payload)))[h] == (if h in hs then 1 else 0)
  {
    var r := Reached(hs, throwing);
    assert r == hs;
    assert HandlersOf(DeliveriesTo(r, topic, payload)) == hs;
    DistinctOccursOnce(hs, h);
  }

  class MqttService {
    const storage: Store
    var hasClient: bool
    var handlers: seq<Handler>
    var reconnectAttempts: nat
    var reconnectDelay: int
    var connected: bool
    ghost var calls: seq<Call>
    ghost var deliveries: seq<Delivery>

    /**
     * The delay is a function of the attempts since the last connect, the
     * handler set has no duplicates, and only a service with a client is online.
     */
    ghost predicate Valid()
      reads this
    {
      reconnectDelay == BackoffDelay(reconnectAttempts) && Distinct(handlers) && (connected ==> hasClient)
    }

    /** Construction opens the session; `created` is false when the library throws while connecting. */
    constructor(storage: Store, clientSuffix: string, created: bool)
      ensures Valid() && this.storage == storage
      ensures !connected && reconnectAttempts == 0 && reconnectDelay == INITIAL_DELAY && handlers == []
      ensures hasClient == created
      ensures calls == [Connect("earena_client_" + clientSuffix, 60, false, INITIAL_DELAY)] && deliveries == []
    {
      this.storage := storage;
      handlers := [];
      reconnectAttempts := 0;
      reconnectDelay := 1000;
      connected := false;
      hasClient := created;
      calls := [Connect("earena_client_" + clientSuffix, 60, false, 1000)];
      deliveries := [];
    }

    /** The library's 'connect' event: online, backoff reset, then the outbox is flushed. */
    method OnConnect()
      requires Valid() && hasClient
      modifies this, storage
      ensures Valid()
      ensures connected && reconnectAttempts == 0 && reconnectDelay == INITIAL_DELAY
      ensures handlers == old(handlers) && hasClient == old(hasClient) && deliveries == old(deliveries)
      ensures calls == old(calls) + FlushCalls(old(storage.prefs), hasClient)
      ensures storage.prefs == FlushPrefs(old(storage.prefs), hasClient)
    {
      connected := true;
      reconnectAttempts := 0;
      reconnectDelay := 1000;
      FlushOfflineQueue();
    }

    /** The library's 'reconnect' event: one more attempt; past ten attempts the delay doubles up to 60000. */
    method OnReconnect()
      requires Valid()
      modifies this`reconnectAttempts, this`reconnectDelay
      ensures Valid()
      ensures reconnectAttempts == old(reconnectAttempts) + 1
      ensures reconnectDelay ==
        if reconnectAttempts > MAX_RECONNECT_ATTEMPTS then Min(old(reconnectDelay) * 2, MAX_DELAY) else old(reconnectDelay)
      ensures old(reconnectDelay) <= reconnectDelay <= MAX_DELAY
    {
      reconnectAttempts := reconnectAttempts + 1;
      if reconnectAttempts > MAX_RECONNECT_ATTEMPTS {
        reconnectDelay := Min(reconnectDelay * 2, 60000);
      }
      BackoffMonotone(reconnectAttempts - 1, reconnectAttempts);
      BackoffBounds(reconnectAttempts);
    }

    /** The library's 'error' event. */
    method OnError()
      modifies this`connected
      ensures !connected
    {
      connected := false;
    }

    /** The library's 'offline' event. */
    method OnOffline()
      modifies this`connected
      ensures !connected
    {
      connected := false;
    }

    /** The library's 'close' event. */
    method OnClose()
      modifies this`connected
      ensures !connected
    {
      connected := false;
    }

    /**
     * The library's 'message' event. `parsed` is the result of parsing the body
     * as JSON (`None` when parsing throws). A parsed message goes to each handler
     * in registration order; a handler in `throwing` throws, which ends the
     * fan-out (the exception is caught around the whole loop).
     */
    method OnMessageEvent(topic: string, parsed: Option<Value>, throwing: set<Handler>)
      modifies this`deliveries
      ensures parsed.None? ==> deliveries == old(deliveries)
      ensures parsed.Some? ==> deliveries == old(deliveries) + DeliveriesTo(Reached(handlers, throwing), topic, parsed.value)
    {
      if parsed.None? {
        return;
      }
      var message := parsed.value;
      var i := 0;
      while i < |handlers|
        invariant 0 <= i <= |handlers|
        invariant forall j :: 0 <= j < i ==> handlers[j] !in throwing
        invariant deliveries == old(deliveries) + DeliveriesTo(handlers[..i], topic, message)
      {
        deliveries := deliveries + [Delivery(handlers[i], topic, message)];
        assert handlers[..i + 1] == handlers[..i] + [handlers[i]];
        if handlers[i] in throwing {
          ReachedStopsAt(handlers, throwing, i);
          return;
        }
        i := i + 1;
      }
      ReachedAll(handlers, throwing);
    }

    /** Subscribes the device's three topics at QoS 1, whether or not the session is currently up. */
    method SubscribeToDevice(deviceId: string)
      modifies this`calls
      ensures calls == old(calls) +
        if hasClient then [Subscribe(SensorTopic(deviceId), 1), Subscribe(StatusTopic(deviceId), 1), Subscribe(ReportAckTopic(deviceId), 1)]
        else []
    {
      if !hasClient {
        return;
      }
      var topics := DeviceTopics(deviceId);
      for i := 0 to |topics|
        invariant calls == old(calls) + seq(i, j requires 0 <= j < i => Subscribe(topics[j], 1))
      {
        calls := calls + [Subscribe(topics[i], 1)];
      }
    }

    method SubscribeToAllDevices()
      modifies this`calls
      ensures calls == old(calls) + if hasClient then [Subscribe(ALL_SENSORS_TOPIC, 1)] else []
    {
      if !hasClient {
        return;
      }
      calls := calls + [Subscribe(ALL_SENSORS_TOPIC, 1)];
    }

    method UnsubscribeFromDevice(deviceId: string)
      modifies this`calls
      ensures calls == old(calls) +
        if hasClient then [Unsubscribe(SensorTopic(deviceId)), Unsubscribe(StatusTopic(deviceId)), Unsubscribe(ReportAckTopic(deviceId))]
        else []
    {
      if !hasClient {
        return;
      }
      var topics := DeviceTopics(deviceId);
      for i := 0 to |topics|
        invariant calls == old(calls) + seq(i, j requires 0 <= j < i => Unsubscribe(topics[j]))
      {
        calls := calls + [Unsubscribe(topics[i])];
      }
    }

    /**
     * Online (connected with a client): one QoS 1 publish to the command topic,
     * resolving true, or rejecting when the transport reports an error. Offline:
     * no client call; the command is appended to the outbox and the result is
     * false (the append itself rejects only if the stored outbox is not a queue).
     */
    method PublishCommand(deviceId: string, command: Value, now: NumberText, transportError: bool)
      returns (r: Result<bool, string>)
      modifies this`calls, storage
      ensures connected && hasClient ==>
        && calls == old(calls) + [DirectPublish(deviceId, command)]
        && storage.prefs == old(storage.prefs)
        && r == if transportError then Err("publish failed") else Ok(true)
      ensures !(connected && hasClient) ==> calls == old(calls)
      ensures !(connected && hasClient) && QueueOf(Read(old(storage.prefs), OFFLINE_QUEUE)).Some? ==>
        && r == Ok(false)
        && storage.prefs == old(storage.prefs)[OFFLINE_QUEUE :=
             Arr(QueueOf(Read(old(storage.prefs), OFFLINE_QUEUE)).value + [Stamped(OutboxItem(deviceId, command), now)])]
      ensures !(connected && hasClient) && QueueOf(Read(old(storage.prefs), OFFLINE_QUEUE)).None? ==>
        r.Err? && storage.prefs == old(storage.prefs)
    {
      var topic := CommandTopic(deviceId);
      var payload := Stringify(command);
      if connected && hasClient {
        calls := calls + [Publish(Some(Str(topic)), Some(Str(payload)), 1)];
        r := if transportError then Err("publish failed") else Ok(true);
      } else {
        var queued := storage.QueueCommand(OutboxItem(deviceId, command), now);
        if queued.Err? {
          return Err(queued.error);
        }
        r := Ok(false);
      }
    }

    /**
     * Replays the outbox in order with each entry's stored topic and payload,
     * then resets it to `[]`; a `null` entry ends the replay and keeps the outbox.
     */
    method FlushOfflineQueue()
      modifies this`calls, storage
      ensures calls == old(calls) + FlushCalls(old(storage.prefs), hasClient)
      ensures storage.prefs == FlushPrefs(old(storage.prefs), hasClient)
    {
      var queue := storage.GetOfflineQueue();
      if queue.None? {
        return;
      }
      var items := queue.value;
      if |items| == 0 {
        return;
      }
      for i := 0 to |items|
        invariant calls == old(calls) + if hasClient then ReplayAll(items[..i]) else []
        invariant hasClient ==> forall j :: 0 <= j < i ==> !items[j].Null?
        invariant storage.prefs == old(storage.prefs)
      {
        if hasClient {
          if items[i].Null? {
            // `item.topic` throws; the catch skips the clear
            ReplayableUpTo(items, i);
            assert |Replayable(items)| < |items|;
            return;
          }
          calls := calls + [ReplayOf(items[i])];
          assert ReplayAll(items[..i + 1]) == ReplayAll(items[..i]) + [ReplayOf(items[i])];
        }
      }
      if hasClient {
        ReplayableUpTo(items, |items|);
      }
      assert items[..|items|] == items;
      storage.ClearOfflineQueue();
    }

    /** Registers a handler (a handler already present stays where it is) and returns its removal capability. */
    method OnMessage(handler: Handler) returns (registration: Registration)
      requires Valid()
      modifies this`handlers
      ensures Valid()
      ensures handler in handlers
      ensures handlers == if handler in old(handlers) then old(handlers) else old(handlers) + [handler]
      ensures registration == Registration(handler)
    {
      if handler !in handlers {
        handlers := handlers + [handler];
      }
      registration := Registration(handler);
    }

    /** Invokes a capability returned by `OnMessage`: removes only that handler. */
    method Unregister(u: Registration) returns (removed: bool)
      requires Valid()
      modifies this`handlers
      ensures Valid()
      ensures removed == (u.handler in old(handlers))
      ensures handlers == Without(old(handlers), u.handler)
    {
      removed := u.handler in handlers;
      handlers := Without(handlers, u.handler);
    }

    method IsConnected() returns (r: bool)
      ensures r == connected
    {
      r := connected;
    }

    /** Ends the session and drops the client; without a client nothing happens. */
    method Disconnect()
      modifies this`hasClient, this`connected, this`calls
      ensures old(hasClient) ==> !hasClient && !connected && calls == old(calls) + [End]
      ensures !old(hasClient) ==> hasClient == old(hasClient) && connected == old(connected) && calls == old(calls)
    {
      if hasClient {
        calls := calls + [End];
        hasClient := false;
        connected := false;
      }
    }
  }

  lemma ReachedStopsAt(hs: seq<Handler>, throwing: set<Handler>, i: nat)
    requires i < |hs| && hs[i] in throwing
    requires forall j :: 0 <= j < i ==> hs[j] !in throwing
    ensures Reached(hs, throwing) == hs[..i + 1]
  {
    if i > 0 {
      ReachedStopsAt(hs[1..], throwing, i - 1);
      assert hs[..i + 1] == [hs[0]] + hs[1..][..i];
    }
  }

  lemma ReachedAll(hs: seq<Handler>, throwing: set<Handler>)
    requires forall j :: 0 <= j < |hs| ==> hs[j] !in throwing
    ensures Reached(hs, throwing) == hs
  {
    if hs != [] {
      ReachedAll(hs[1..], throwing);
    }
  }
}
