/**
 * The device detail view: it follows one device's telemetry topic, keeps the
 * latest payload and a chart of the last 20 readings, and sends the three
 * command shapes (motor, timer, height) for the device.
 */
module DeviceDetail {
  import opened Wrappers
  import opened Json
  import opened Storage
  import opened Mqtt

  const CHART_WINDOW: nat := 20

  /** One chart reading; a field the payload lacks is `None` (`undefined`). */
  datatype ChartPoint = ChartPoint(time: string, power: Option<Value>, flowRate: Option<Value>, waterDepth: Option<Value>)

  /** The point built from a telemetry payload; `time` is the local time of day, read from the clock. */
  function PointOf(payload: Value, time: string): ChartPoint {
    ChartPoint(time, Get(payload, "power"), Get(payload, "flowRate"), Get(payload, "waterDepth"))
  }

  /** `s.slice(-n)` for positive `n`: the last `n` elements, or all of them when there are fewer. */
  function LastN<T>(s: seq<T>, n: nat): (r: seq<T>)
    requires n > 0
    ensures |r| == Min(|s|, n)
    ensures r == s[|s| - |r|..]
  {
    if |s| <= n then s else s[|s| - n..]
  }

  /** `[...prev, point].slice(-20)`. */
  function AppendPoint(prev: seq<ChartPoint>, point: ChartPoint): (r: seq<ChartPoint>)
    ensures |r| == Min(|prev| + 1, CHART_WINDOW)
    ensures r[|r| - 1] == point
    ensures |prev| < CHART_WINDOW ==> r == prev + [point]
    ensures |prev| == CHART_WINDOW ==> r == prev[1..] + [point]
  {
    var r := LastN(prev + [point], CHART_WINDOW);
    assert |prev| == CHART_WINDOW ==> (prev + [point])[1..] == prev[1..] + [point];
    r
  }

  /** The chart after appending `points` one by one to `prev`. */
  function Appended(prev: seq<ChartPoint>, points: seq<ChartPoint>): seq<ChartPoint>
    decreases |points|
  {
    if points == [] then prev
    else AppendPoint(Appended(prev, points[..|points| - 1]), points[|points| - 1])
  }

  lemma LastNOfLastN<T>(s: seq<T>, x: T, n: nat)
    requires n > 0
    ensures LastN(LastN(s, n) + [x], n) == LastN(s + [x], n)
  {
    if |s| > n {
      var t := s[|s| - n..];
      assert (t + [x])[1..] == (s + [x])[|s| + 1 - n..];
    }
  }

  /**
   * Whatever arrives, the chart holds the latest readings in arrival order,
   * at most 20 of them: the last 20 of everything appended so far.
   */
  lemma {:induction false} ChartKeepsLatest(prev: seq<ChartPoint>, points: seq<ChartPoint>)
    requires |prev| <= CHART_WINDOW
    ensures Appended(prev, points) == LastN(prev + points, CHART_WINDOW)
    decreases |points|
  {
    if points == [] {
      assert prev + points == prev;
    } else {
      var init, last := points[..|points| - 1], points[|points| - 1];
      calc {
        Appended(prev, points);
        AppendPoint(Appended(prev, init), last);
        { ChartKeepsLatest(prev, init); }
        AppendPoint(LastN(prev + init, CHART_WINDOW), last);
        LastN(LastN(prev + init, CHART_WINDOW) + [last], CHART_WINDOW);
        { LastNOfLastN(prev + init, last, CHART_WINDOW); }
        LastN(prev + init + [last], CHART_WINDOW);
        { assert prev + init + [last] == prev + points; }
        LastN(prev + points, CHART_WINDOW);
      }
    }
  }

  // ----- Command shapes -----

  /** The word a motor command carries for the requested state. */
  function StateWord(on: bool): string {
    if on then "ON" else "OFF"
  }

  /** `{ type: 'motor', state: on ? 'ON' : 'OFF' }` */
  function MotorCommand(on: bool): Value {
    Obj([Field("type", Str("motor")), Field("state", Str(StateWord(on)))])
  }

  /** `{ type: 'timer', duration }` with the duration as the number the form holds. */
  function TimerCommand(duration: NumberText): Value {
    Obj([Field("type", Str("timer")), Field("duration", Num(duration))])
  }

  /** `{ type: 'height', value }` with the height as the number the form holds. */
  function HeightCommand(value: NumberText): Value {
    Obj([Field("type", Str("height")), Field("value", Num(value))])
  }

  // ----- Wire text of the commands -----

  /** Letters and underscores only: nothing JSON would escape. */
  predicate Plain(s: string) {
    forall i :: 0 <= i < |s| ==> 'a' <= s[i] <= 'z' || 'A' <= s[i] <= 'Z' || s[i] == '_'
  }

  lemma {:induction false} EscapeIdentity(s: string)
    requires Plain(s)
    ensures EscapeString(s) == s
  {
    if s != [] {
      EscapeIdentity(s[1..]);
    }
  }

  lemma QuotePlain(s: string)
    requires Plain(s)
    ensures Quote(s) == ['"'] + s + ['"']
  {
    EscapeIdentity(s);
  }

  /**
   * The text of a two-field object, grouped as `Stringify` builds it (the
   * grouping keeps the proofs about it cheap).
   */
  lemma TwoFieldObject(k1: string, v1: Value, k2: string, v2: Value)
    ensures Stringify(Obj([Field(k1, v1), Field(k2, v2)]))
         == "{" + (Quote(k1) + ":" + Stringify(v1) + ("," + (Quote(k2) + ":" + Stringify(v2) + ""))) + "}"
  {
    var fs := [Field(k1, v1), Field(k2, v2)];
    assert fs[1..] == [Field(k2, v2)];
    assert StringifyFields(fs[1..]) == Quote(k2) + ":" + Stringify(v2) + "";
    assert StringifyFields(fs) == Quote(k1) + ":" + Stringify(v1) + ("," + StringifyFields(fs[1..]));
  }

  /** A two-field object whose keys and first value are plain words is written without escapes. */
  lemma PlainTwoField(k1: string, s1: string, k2: string, v2: Value)
    requires Plain(k1) && Plain(s1) && Plain(k2)
    ensures Stringify(Obj([Field(k1, Str(s1)), Field(k2, v2)]))
         == "{" + ((['"'] + k1 + ['"']) + ":" + (['"'] + s1 + ['"']) + ("," + ((['"'] + k2 + ['"']) + ":" + Stringify(v2) + ""))) + "}"
  {
    TwoFieldObject(k1, Str(s1), k2, v2);
    QuotePlain(k1);
    QuotePlain(s1);
    QuotePlain(k2);
  }

  // The wire texts are proved in two steps each (the object's shape, then the
  // flattening of the literal pieces): in one step the solver does not finish.

  lemma MotorShape(on: bool)
    ensures Stringify(MotorCommand(on))
         == "{" + ((['"'] + "type" + ['"']) + ":" + (['"'] + "motor" + ['"']) + ("," + ((['"'] + "state" + ['"']) + ":" + (['"'] + StateWord(on) + ['"']) + ""))) + "}"
  {
    assert Plain("type") && Plain("motor") && Plain("state") && Plain(StateWord(on));
    PlainTwoField("type", "motor", "state", Str(StateWord(on)));
    QuotePlain(StateWord(on));
  }

  lemma MotorFlat(w: string)
    ensures "{" + ((['"'] + "type" + ['"']) + ":" + (['"'] + "motor" + ['"']) + ("," + ((['"'] + "state" + ['"']) + ":" + (['"'] + w + ['"']) + ""))) + "}"
         == "{\"type\":\"motor\",\"state\":\"" + w + "\"}"
  {
  }

  /** The wire payload of a motor command. */
  lemma MotorPayload(on: bool)
    ensures Stringify(MotorCommand(on)) == "{\"type\":\"motor\",\"state\":" + (if on then "\"ON\"" else "\"OFF\"") + "}"
  {
    MotorShape(on);
    MotorFlat(StateWord(on));
  }

  lemma TimerShape(duration: NumberText)
    ensures Stringify(TimerCommand(duration))
         == "{" + ((['"'] + "type" + ['"']) + ":" + (['"'] + "timer" + ['"']) + ("," + ((['"'] + "duration" + ['"']) + ":" + duration + ""))) + "}"
  {
    assert Plain("type") && Plain("timer") && Plain("duration");
    PlainTwoField("type", "timer", "duration", Num(duration));
  }

  lemma TimerFlat(duration: NumberText)
    ensures "{" + ((['"'] + "type" + ['"']) + ":" + (['"'] + "timer" + ['"']) + ("," + ((['"'] + "duration" + ['"']) + ":" + duration + ""))) + "}"
         == "{\"type\":\"timer\",\"duration\":" + duration + "}"
  {
  }

  /** The wire payload of a timer command: the duration goes out as a bare number. */
  lemma TimerPayload(duration: NumberText)
    ensures Stringify(TimerCommand(duration)) == "{\"type\":\"timer\",\"duration\":" + duration + "}"
  {
    TimerShape(duration);
    TimerFlat(duration);
  }

  lemma HeightShape(value: NumberText)
    ensures Stringify(HeightCommand(value))
         == "{" + ((['"'] + "type" + ['"']) + ":" + (['"'] + "height" + ['"']) + ("," + ((['"'] + "value" + ['"']) + ":" + value + ""))) + "}"
  {
    assert Plain("type") && Plain("height") && Plain("value");
    PlainTwoField("type", "height", "value", Num(value));
  }

  lemma HeightFlat(value: NumberText)
    ensures "{" + ((['"'] + "type" + ['"']) + ":" + (['"'] + "height" + ['"']) + ("," + ((['"'] + "value" + ['"']) + ":" + value + ""))) + "}"
         == "{\"type\":\"height\",\"value\":" + value + "}"
  {
  }

  /** The wire payload of a height command: the height goes out as a bare number. */
  lemma HeightPayload(value: NumberText)
    ensures Stringify(HeightCommand(value)) == "{\"type\":\"height\",\"value\":" + value + "}"
  {
    HeightShape(value);
    HeightFlat(value);
  }

  /** The toast a command handler shows: none when there is no device id. */
  datatype Toast = NoToast | SuccessToast | ErrorToast

  /**
   * What sending `command` for device `id` does, given whether the service
   * was connected with a client (`online`): without an id nothing; online one
   * publish on the command topic, success unless the transport fails; offline
   * the stamped command is appended to a readable outbox (success) or, with an
   * unreadable outbox, nothing changes (error).
   */
  ghost predicate Sent(id: string, online: bool, transportError: bool, command: Value, now: NumberText,
                       calls0: seq<Call>, calls1: seq<Call>,
                       prefs0: map<string, Value>, prefs1: map<string, Value>, toast: Toast)
  {
    if id == "" then
      toast == NoToast && calls1 == calls0 && prefs1 == prefs0
    else if online then
      && calls1 == calls0 + [DirectPublish(id, command)]
      && prefs1 == prefs0
      && toast == (if transportError then ErrorToast else SuccessToast)
    else
      && calls1 == calls0
      && var q := QueueOf(Read(prefs0, OFFLINE_QUEUE));
         if q.Some? then
           toast == SuccessToast
           && prefs1 == prefs0[OFFLINE_QUEUE := Arr(q.value + [Stamped(OutboxItem(id, command), now)])]
         else
           toast == ErrorToast && prefs1 == prefs0
  }

  /** The detail view's state for the device with route id `id` ("" when the route has none). */
  class DetailView {
    const storage: Store
    const id: string
    var sensorData: Value
    var chart: seq<ChartPoint>

    constructor(storage: Store, id: string)
      ensures this.storage == storage && this.id == id
      ensures sensorData == Null && chart == []
    {
      this.storage := storage;
      this.id := id;
      sensorData := Null;
      chart := [];
    }

    /**
     * The view's message handler: only this device's telemetry topic counts;
     * it replaces the sensor data, stores the snapshot and appends a chart point.
     */
    method OnSensorMessage(topic: string, payload: Value, time: string)
      modifies this`sensorData, this`chart, storage
      ensures topic == SensorTopic(id) ==>
        && sensorData == payload
        && chart == AppendPoint(old(chart), PointOf(payload, time))
        && storage.prefs == old(storage.prefs)[DeviceStateKey(id) := payload]
      ensures topic != SensorTopic(id) ==>
        sensorData == old(sensorData) && chart == old(chart) && storage.prefs == old(storage.prefs)
    {
      if topic == SensorTopic(id) {
        sensorData := payload;
        storage.SetDeviceState(id, payload);
        chart := AppendPoint(chart, PointOf(payload, time));
      }
    }

    /** Shows the stored snapshot, when there is a truthy one. */
    method LoadCached()
      modifies this`sensorData
      ensures var cached := Read(storage.prefs, DeviceStateKey(id));
              sensorData == if Truthy(cached) then cached else old(sensorData)
    {
      var cached := storage.GetDeviceState(id);
      if Truthy(cached) {
        sensorData := cached;
      }
    }

    /**
     * The view's mount effect: subscribe the device's topics, register the
     * handler, load the snapshot. Nothing happens without a device id.
     */
    method Mount(service: MqttService, handler: Handler) returns (registration: Option<Registration>)
      requires service.Valid()
      modifies service`calls, service`handlers, this`sensorData
      ensures service.Valid()
      ensures id == "" ==>
        registration == None && service.calls == old(service.calls) && service.handlers == old(service.handlers) && sensorData == old(sensorData)
      ensures id != "" ==>
        && registration == Some(Registration(handler))
        && service.calls == old(service.calls) +
             (if service.hasClient then [Subscribe(SensorTopic(id), 1), Subscribe(StatusTopic(id), 1), Subscribe(ReportAckTopic(id), 1)] else [])
        && service.handlers == (if handler in old(service.handlers) then old(service.handlers) else old(service.handlers) + [handler])
        && var cached := Read(storage.prefs, DeviceStateKey(id));
           sensorData == if Truthy(cached) then cached else old(sensorData)
    {
      if id == "" {
        return None;
      }
      service.SubscribeToDevice(id);
      var reg := service.OnMessage(handler);
      LoadCached();
      registration := Some(reg);
    }

    /** The view's unmount cleanup: remove the handler, then unsubscribe the device's topics. */
    method Unmount(service: MqttService, registration: Registration)
      requires id != ""
      requires service.Valid()
      modifies service`calls, service`handlers
      ensures service.Valid()
      ensures service.handlers == Without(old(service.handlers), registration.handler)
      ensures service.calls == old(service.calls) +
        if service.hasClient then [Unsubscribe(SensorTopic(id)), Unsubscribe(StatusTopic(id)), Unsubscribe(ReportAckTopic(id))] else []
    {
      var _ := service.Unregister(registration);
      service.UnsubscribeFromDevice(id);
    }

    /**
     * Sends a command for this device and reports the outcome: success when the
     * publish resolves (also when it was only queued offline), error when it rejects.
     */
    method SendCommand(service: MqttService, command: Value, now: NumberText, transportError: bool) returns (toast: Toast)
      modifies service`calls, service.storage
      ensures Sent(id, service.connected && service.hasClient, transportError, command, now,
                   old(service.calls), service.calls, old(service.storage.prefs), service.storage.prefs, toast)
    {
      if id == "" {
        return NoToast;
      }
      var r := service.PublishCommand(id, command, now, transportError);
      toast := if r.Ok? then SuccessToast else ErrorToast;
    }

    method HandleMotorControl(service: MqttService, on: bool, now: NumberText, transportError: bool) returns (toast: Toast)
      modifies service`calls, service.storage
      ensures Sent(id, service.connected && service.hasClient, transportError, MotorCommand(on), now,
                   old(service.calls), service.calls, old(service.storage.prefs), service.storage.prefs, toast)
    {
      toast := SendCommand(service, MotorCommand(on), now, transportError);
    }

    method HandleTimerSet(service: MqttService, duration: NumberText, now: NumberText, transportError: bool) returns (toast: Toast)
      modifies service`calls, service.storage
      ensures Sent(id, service.connected && service.hasClient, transportError, TimerCommand(duration), now,
                   old(service.calls), service.calls, old(service.storage.prefs), service.storage.prefs, toast)
    {
      toast := SendCommand(service, TimerCommand(duration), now, transportError);
    }

    method HandleHeightSet(service: MqttService, value: NumberText, now: NumberText, transportError: bool) returns (toast: Toast)
      modifies service`calls, service.storage
      ensures Sent(id, service.connected && service.hasClient, transportError, HeightCommand(value), now,
                   old(service.calls), service.calls, old(service.storage.prefs), service.storage.prefs, toast)
    {
      toast := SendCommand(service, HeightCommand(value), now, transportError);
    }
  }

  /**
   * A command sent while offline joins the back of a readable outbox and the
   * send reports success; the flush on the next connect then publishes the
   * earlier entries and this command, which goes out exactly as an online send
   * would have, and leaves the outbox empty.
   */
  lemma OfflineSendThenFlush(id: string, transportError: bool, command: Value, now: NumberText,
                             calls0: seq<Call>, calls1: seq<Call>,
                             prefs0: map<string, Value>, prefs1: map<string, Value>, toast: Toast, queue: seq<Value>)
    requires id != ""
    requires QueueOf(Read(prefs0, OFFLINE_QUEUE)) == Some(queue)
    requires forall i :: 0 <= i < |queue| ==> !queue[i].Null?
    requires Sent(id, false, transportError, command, now, calls0, calls1, prefs0, prefs1, toast)
    ensures toast == SuccessToast && calls1 == calls0
    ensures FlushCalls(prefs1, true) == ReplayAll(queue) + [DirectPublish(id, command)]
    ensures QueueOf(Read(FlushPrefs(prefs1, true), OFFLINE_QUEUE)) == Some([])
  {
    var item := Stamped(OutboxItem(id, command), now);
    assert Read(prefs1, OFFLINE_QUEUE) == Arr(queue + [item]);
    FlushAfterAppend(prefs1, queue, item);
    QueuedCommandReplaysAsDirect(id, command, now);
  }
}
