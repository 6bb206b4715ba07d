/**
 * The persisted key-value layer: a store of JSON values under string keys
 * (the platform's preferences store, written as JSON text and parsed back on
 * read), with helpers for the auth session, per-device snapshots and the
 * offline command outbox.
 */
module Storage {
  import opened Wrappers
  import opened Json

  const AUTH_TOKEN: string := "auth.token"
  const USER_DATA: string := "auth.user"
  const DEVICE_STATE_PREFIX: string := "device.state."
  const OFFLINE_QUEUE: string := "outbox.commands"
  const LANGUAGE: string := "lang"

  /** The keys that are not per-device snapshots. */
  function FixedKeys(): set<string> {
    {AUTH_TOKEN, USER_DATA, OFFLINE_QUEUE, LANGUAGE}
  }

  function DeviceStateKey(deviceId: string): string {
    DEVICE_STATE_PREFIX + deviceId
  }

  /** What `get` returns for a key: the stored value, or null when the key is absent. */
  function Read(prefs: map<string, Value>, key: string): Value {
    if key in prefs then prefs[key] else Null
  }

  /**
   * How the outbox code reads a stored queue, `(stored) || []`: a falsy value
   * counts as the empty queue, an array is the queue, and any other value is
   * not a queue (`None`; appending to it or iterating it throws).
   */
  function QueueOf(v: Value): (q: Option<seq<Value>>)
    ensures !Truthy(v) ==> q == Some([])
    ensures v.Arr? ==> q == Some(v.items)
    ensures q.Some? ==> !Truthy(v) || v.Arr?
  {
    if !Truthy(v) then Some([])
    else if v.Arr? then Some(v.items)
    else None
  }

  /** The outbox entry `{...command, timestamp: now}` that `queueCommand` appends. */
  function Stamped(command: Value, now: NumberText): (e: Value)
    requires command.Obj?
    ensures Get(e, "timestamp") == Some(Num(now))
    ensures forall k :: k != "timestamp" ==> Get(e, k) == Get(command, k)
  {
    Obj(Assign(command.fields, "timestamp", Num(now)))
  }

  /** Distinct devices never share a snapshot key. */
  lemma DeviceStateKeyInjective(a: string, b: string)
    ensures DeviceStateKey(a) == DeviceStateKey(b) ==> a == b
  {
    if DeviceStateKey(a) == DeviceStateKey(b) {
      assert a == DeviceStateKey(a)[|DEVICE_STATE_PREFIX|..];
    }
  }

  /** A snapshot key never collides with the auth keys, the outbox key or the language key. */
  lemma DeviceStateKeyIsolated(deviceId: string)
    ensures DeviceStateKey(deviceId) !in FixedKeys()
  {
    var k := DeviceStateKey(deviceId);
    assert k[0] == 'd' && k[1] == 'e' && k[2] == 'v';
  }

  /** The platform preferences store, holding JSON values by key. */
  class Store {
    var prefs: map<string, Value>

    constructor(initial: map<string, Value>)
      ensures prefs == initial
    {
      prefs := initial;
    }

    method Set(key: string, value: Value)
      modifies this
      ensures prefs == old(prefs)[key := value]
    {
      prefs := prefs[key := value];
    }

    method Get(key: string) returns (r: Value)
      ensures key in prefs ==> r == prefs[key]
      ensures key !in prefs ==> r == Null
    {
      r := if key in prefs then prefs[key] else Null;
    }

    method Remove(key: string)
      modifies this
      ensures prefs == old(prefs) - {key}
    {
      prefs := prefs - {key};
    }

    method Clear()
      modifies this
      ensures prefs == map[]
    {
      prefs := map[];
    }

    method SetToken(token: string)
      modifies this
      ensures prefs == old(prefs)[AUTH_TOKEN := Str(token)]
    {
      Set(AUTH_TOKEN, Str(token));
    }

    method GetToken() returns (r: Value)
      ensures r == Read(prefs, AUTH_TOKEN)
    {
      r := Get(AUTH_TOKEN);
    }

    method SetUser(user: Value)
      modifies this
      ensures prefs == old(prefs)[USER_DATA := user]
    {
      Set(USER_DATA, user);
    }

    method GetUser() returns (r: Value)
      ensures r == Read(prefs, USER_DATA)
    {
      r := Get(USER_DATA);
    }

    method ClearAuth()
      modifies this
      ensures prefs == old(prefs) - {AUTH_TOKEN, USER_DATA}
      ensures forall k :: k in old(prefs) && k != AUTH_TOKEN && k != USER_DATA ==> k in prefs && prefs[k] == old(prefs)[k]
    {
      Remove(AUTH_TOKEN);
      Remove(USER_DATA);
    }

    method SetDeviceState(deviceId: string, state: Value)
      modifies this
      ensures prefs == old(prefs)[DeviceStateKey(deviceId) := state]
    {
      Set(DeviceStateKey(deviceId), state);
    }

    method GetDeviceState(deviceId: string) returns (r: Value)
      ensures r == Read(prefs, DeviceStateKey(deviceId))
    {
      r := Get(DeviceStateKey(deviceId));
    }

    /**
     * Appends `{...command, timestamp: now}` to the stored outbox. Rejects, and
     * changes nothing, when the stored outbox is a value that is not a queue.
     */
    method QueueCommand(command: Value, now: NumberText) returns (r: Result<(), string>)
      requires command.Obj?
      modifies this
      ensures QueueOf(Read(old(prefs), OFFLINE_QUEUE)).None? ==> r.Err? && prefs == old(prefs)
      ensures QueueOf(Read(old(prefs), OFFLINE_QUEUE)).Some? ==>
        r.Ok? && prefs == old(prefs)[OFFLINE_QUEUE := Arr(QueueOf(Read(old(prefs), OFFLINE_QUEUE)).value + [Stamped(command, now)])]
    {
      var stored := Get(OFFLINE_QUEUE);
      var queue := QueueOf(stored);
      if queue.None? {
        return Err("queue.push is not a function");
      }
      Set(OFFLINE_QUEUE, Arr(queue.value + [Stamped(command, now)]));
      r := Ok(());
    }

    method GetOfflineQueue() returns (r: Option<seq<Value>>)
      ensures r == QueueOf(Read(prefs, OFFLINE_QUEUE))
      ensures OFFLINE_QUEUE !in prefs ==> r == Some([])
    {
      var stored := Get(OFFLINE_QUEUE);
      r := QueueOf(stored);
    }

    /** Stores an empty array under the outbox key (the key is kept, not removed). */
    method ClearOfflineQueue()
      modifies this
      ensures prefs == old(prefs)[OFFLINE_QUEUE := Arr([])]
      ensures QueueOf(Read(prefs, OFFLINE_QUEUE)) == Some([])
    {
      Set(OFFLINE_QUEUE, Arr([]));
    }
  }
}
