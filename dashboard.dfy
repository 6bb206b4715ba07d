/**
 * The dashboard's realtime bookkeeping: it listens to every device's telemetry,
 * keeps the latest payload per device id (mirrored to the persisted store),
 * seeds that map from the store on load, and pairs each listed device with its
 * latest payload.
 */
module Dashboard {
  import opened Wrappers
  import opened Json
  import opened Storage
  import opened Mqtt

  const PREFIX: string := "devices/"
  const SUFFIX: string := "/sensor"

  /**
   * The regular expression `devices\/([^\/]+)\/sensor` matches at position `q`
   * with group `id` (it is not anchored: text may precede and follow).
   */
  ghost predicate MatchesAt(topic: string, q: nat, id: string) {
    && q + |PREFIX| + |id| + |SUFFIX| <= |topic|
    && topic[q..q + |PREFIX|] == PREFIX
    && |id| > 0
    && (forall j :: 0 <= j < |id| ==> id[j] != '/')
    && topic[q + |PREFIX|..q + |PREFIX| + |id|] == id
    && topic[q + |PREFIX| + |id|..q + |PREFIX| + |id| + |SUFFIX|] == SUFFIX
  }

  /** The end of the run of non-slash characters starting at `k`. */
  function RunEnd(t: string, k: nat): (e: nat)
    requires k <= |t|
    ensures k <= e <= |t|
    ensures forall j :: k <= j < e ==> t[j] != '/'
    ensures e < |t| ==> t[e] == '/'
    decreases |t| - k
  {
    if k == |t| || t[k] == '/' then k else RunEnd(t, k + 1)
  }

  /** Whether the pattern matches at `q`, as the greedy `[^\/]+` decides it. */
  predicate MatchAt(t: string, q: nat) {
    && q + |PREFIX| <= |t|
    && t[q..q + |PREFIX|] == PREFIX
    && var e := RunEnd(t, q + |PREFIX|);
       e > q + |PREFIX| && e + |SUFFIX| <= |t| && t[e..e + |SUFFIX|] == SUFFIX
  }

  function GroupAt(t: string, q: nat): string
    requires q + |PREFIX| <= |t|
  {
    t[q + |PREFIX|..RunEnd(t, q + |PREFIX|)]
  }

  /** At one position the pattern has at most one match, and the greedy run finds it. */
  lemma MatchAtIff(t: string, q: nat, id: string)
    ensures MatchesAt(t, q, id) <==> (MatchAt(t, q) && id == GroupAt(t, q))
  {
    if MatchesAt(t, q, id) {
      var k := q + |PREFIX|;
      var e := k + |id|;
      assert t[e] == SUFFIX[0];
      assert forall j :: k <= j < e ==> t[j] == id[j - k];
      RunEndIs(t, k, e);
    }
  }

  lemma {:induction false} RunEndIs(t: string, k: nat, e: nat)
    requires k <= e < |t| && t[e] == '/'
    requires forall j :: k <= j < e ==> t[j] != '/'
    ensures RunEnd(t, k) == e
    decreases e - k
  {
    if k < e {
      RunEndIs(t, k + 1, e);
    }
  }

  /** The leftmost position at or after `i` where the pattern matches. */
  function FirstMatch(t: string, i: nat): (r: Option<nat>)
    requires i <= |t|
    ensures r.Some? ==> i <= r.value && MatchAt(t, r.value) && forall q :: i <= q < r.value ==> !MatchAt(t, q)
    ensures r.None? ==> forall q :: i <= q ==> !MatchAt(t, q)
    decreases |t| - i
  {
    if i == |t| then None
    else if MatchAt(t, i) then Some(i)
    else FirstMatch(t, i + 1)
  }

  /**
   * `topic.match(/devices\/([^\/]+)\/sensor/)[1]`: the group of the leftmost
   * match, or `None` when the topic does not match.
   */
  function SensorDeviceId(topic: string): (r: Option<string>)
    ensures r.Some? ==> |r.value| > 0 && forall j :: 0 <= j < |r.value| ==> r.value[j] != '/'
    ensures r.Some? ==> exists q: nat :: MatchesAt(topic, q, r.value) && forall p: nat, id :: p < q ==> !MatchesAt(topic, p, id)
    ensures r.None? ==> forall q: nat, id :: !MatchesAt(topic, q, id)
  {
    match FirstMatch(topic, 0)
    case None =>
      assert forall q: nat, id :: !MatchesAt(topic, q, id) by {
        forall q: nat, id ensures !MatchesAt(topic, q, id) { MatchAtIff(topic, q, id); }
      }
      None
    case Some(q) =>
      var id := GroupAt(topic, q);
      MatchAtIff(topic, q, id);
      assert forall p: nat, id' :: p < q ==> !MatchesAt(topic, p, id') by {
        forall p: nat, id' | p < q ensures !MatchesAt(topic, p, id') { MatchAtIff(topic, p, id'); }
      }
      Some(id)
  }

  /** A device's own telemetry topic yields that device's id, for any id free of slashes. */
  lemma SensorTopicYieldsId(deviceId: string)
    requires |deviceId| > 0 && forall j :: 0 <= j < |deviceId| ==> deviceId[j] != '/'
    ensures SensorDeviceId(SensorTopic(deviceId)) == Some(deviceId)
  {
    var t := SensorTopic(deviceId);
    assert MatchesAt(t, 0, deviceId);
    MatchAtIff(t, 0, deviceId);
  }

  lemma PumpExample()
    ensures SensorDeviceId("devices/pump-7/sensor") == Some("pump-7")
  {
    var id := "pump-7";
    assert forall j :: 0 <= j < |id| ==> id[j] != '/';
    assert SensorTopic(id) == "devices/pump-7/sensor";
    SensorTopicYieldsId(id);
  }

  ghost predicate SuffixAt(t: string, e: nat) {
    e + |SUFFIX| <= |t| && t[e..e + |SUFFIX|] == SUFFIX
  }

  /** A topic in which "/sensor" never occurs cannot match. */
  lemma NoSuffixNoMatch(t: string)
    requires forall e: nat :: !SuffixAt(t, e)
    ensures SensorDeviceId(t) == None
  {
    forall q: nat, id | MatchesAt(t, q, id) ensures false {
      assert SuffixAt(t, q + |PREFIX| + |id|);
    }
  }

  /** A status topic is not telemetry: the dashboard ignores it. */
  lemma StatusExample()
    ensures SensorDeviceId("devices/x/status") == None
  {
    var t := "devices/x/status";
    forall e: nat ensures !SuffixAt(t, e) {
      if e + |SUFFIX| > |t| {
      } else if e != 7 && e != 9 {
        assert t[e..e + |SUFFIX|][0] != '/';
      } else if e == 7 {
        assert t[e..e + |SUFFIX|][1] != 's';
      } else {
        assert t[e..e + |SUFFIX|][2] != 'e';
      }
    }
    NoSuffixNoMatch(t);
  }

  /** A device as listed by the REST API; only its id matters here. */
  datatype Device = Device(id: string, info: Value)

  /** `{...device, sensorData: realtime.get(device.id)}`. */
  datatype MergedDevice = MergedDevice(device: Device, sensorData: Option<Value>)

  function Latest(realtime: map<string, Value>, id: string): Option<Value> {
    if id in realtime then Some(realtime[id]) else None
  }

  /** The device list paired with the latest payloads: same length and order; empty before the list loads. */
  function MergedDevices(devices: Option<seq<Device>>, realtime: map<string, Value>): (r: seq<MergedDevice>)
    ensures devices.None? ==> r == []
    ensures devices.Some? ==> |r| == |devices.value|
    ensures devices.Some? ==> forall i :: 0 <= i < |r| ==>
      r[i].device == devices.value[i] && r[i].sensorData == Latest(realtime, devices.value[i].id)
  {
    match devices
    case None => []
    case Some(ds) => seq(|ds|, i requires 0 <= i < |ds| => MergedDevice(ds[i], Latest(realtime, ds[i].id)))
  }

  /** One step of the cached-state load: a truthy cached snapshot replaces the device's entry. */
  function CacheOne(m: map<string, Value>, d: Device, prefs: map<string, Value>): map<string, Value> {
    var cached := Read(prefs, DeviceStateKey(d.id));
    if Truthy(cached) then m[d.id := cached] else m
  }

  /** The map after loading the cached snapshots of `ds`, in list order. */
  function WithCached(m: map<string, Value>, ds: seq<Device>, prefs: map<string, Value>): map<string, Value>
    decreases |ds|
  {
    if ds == [] then m else CacheOne(WithCached(m, ds[..|ds| - 1], prefs), ds[|ds| - 1], prefs)
  }

  ghost predicate Listed(ds: seq<Device>, id: string) {
    exists j :: 0 <= j < |ds| && ds[j].id == id
  }

  /**
   * After the load, a listed device with a truthy cached snapshot shows that
   * snapshot; every other entry is as it was.
   */
  lemma {:induction false} WithCachedLoads(m: map<string, Value>, ds: seq<Device>, prefs: map<string, Value>, id: string)
    ensures var cached := Read(prefs, DeviceStateKey(id));
            var w := WithCached(m, ds, prefs);
            if Listed(ds, id) && Truthy(cached) then id in w && w[id] == cached
            else Latest(w, id) == Latest(m, id)
    decreases |ds|
  {
    if ds != [] {
      var init := ds[..|ds| - 1];
      WithCachedLoads(m, init, prefs, id);
      if Listed(ds, id) && !Listed(init, id) {
        assert ds[|ds| - 1].id == id;
      }
      if Listed(init, id) {
        var j :| 0 <= j < |init| && init[j].id == id;
        assert ds[j].id == id;
      }
    }
  }

  /** The dashboard's realtime state. */
  class DashboardView {
    const storage: Store
    var realtime: map<string, Value>

    constructor(storage: Store)
      ensures this.storage == storage && realtime == map[]
    {
      this.storage := storage;
      realtime := map[];
    }

    /** The dashboard's message handler: telemetry topics update the device's entry and its stored snapshot. */
    method OnSensorMessage(topic: string, payload: Value)
      modifies this`realtime, storage
      ensures SensorDeviceId(topic).None? ==> realtime == old(realtime) && storage.prefs == old(storage.prefs)
      ensures SensorDeviceId(topic).Some? ==>
        var id := SensorDeviceId(topic).value;
        && realtime == old(realtime)[id := payload]
        && storage.prefs == old(storage.prefs)[DeviceStateKey(id) := payload]
    {
      var found := SensorDeviceId(topic);
      if found.Some? {
        var id := found.value;
        realtime := realtime[id := payload];
        storage.SetDeviceState(id, payload);
      }
    }

    /** Seeds the map from the stored snapshots of the listed devices; does nothing before the list loads. */
    method LoadCachedStates(devices: Option<seq<Device>>)
      modifies this`realtime
      ensures devices.None? ==> realtime == old(realtime)
      ensures devices.Some? ==> realtime == WithCached(old(realtime), devices.value, storage.prefs)
    {
      if devices.None? {
        return;
      }
      var ds := devices.value;
      for i := 0 to |ds|
        invariant realtime == WithCached(old(realtime), ds[..i], storage.prefs)
      {
        var cached := storage.GetDeviceState(ds[i].id);
        if Truthy(cached) {
          realtime := realtime[ds[i].id := cached];
        }
        assert ds[..i + 1][..i] == ds[..i];
      }
      assert ds[..|ds|] == ds;
    }
  }

  /** After a telemetry message, every listed device with that id shows the new payload. */
  lemma MergedShowsLatest(devices: seq<Device>, realtime: map<string, Value>, topic: string, payload: Value, i: nat)
    requires SensorDeviceId(topic).Some? && i < |devices| && devices[i].id == SensorDeviceId(topic).value
    ensures MergedDevices(Some(devices), realtime[SensorDeviceId(topic).value := payload])[i].sensorData == Some(payload)
  {
  }
}
