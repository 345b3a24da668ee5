/** The event bus of the instrument software (src/device_events.py): a table
    of callbacks per event type, synchronous delivery, and the heartbeat
    table with its timeout sweep. Times are `datetime`s counted in
    microseconds. */
module DeviceEvents {
  import opened Values

  /** `DeviceEvent` */
  datatype DeviceEvent = DeviceEvent(eventType: string, timestamp: int, data: Value, deviceId: string)

  /** A subscribed callable. Bound methods compare equal when they are the
      same function of the same object, so a callback is named by the
      object that owns it and the function's name. */
  datatype CallbackId = CallbackId(owner: nat, name: string)

  /** One invocation made by `emit_event`: the callback, the event it was
      given, and whether it raised (which is logged and swallowed). */
  datatype Delivery = Delivery(callback: CallbackId, event: DeviceEvent, raised: bool)

  const TIMEOUT_EVENT := "device_timeout"
  /** A device is late when the seconds of the gap exceed this. */
  const HEARTBEAT_TIMEOUT := 10
  const MICROS_PER_SECOND := 1000000
  const SECONDS_PER_DAY := 86400

  /** The callbacks listed for `eventType` (none when the type is absent). */
  function Listeners(subs: map<string, seq<CallbackId>>, eventType: string): (r: seq<CallbackId>)
    ensures eventType !in subs ==> r == []
  {
    if eventType in subs then subs[eventType] else []
  }

  /** The table after `subscribe(eventType, cb)`. */
  function Appended(subs: map<string, seq<CallbackId>>, eventType: string, cb: CallbackId)
    : (r: map<string, seq<CallbackId>>)
    ensures r.Keys == subs.Keys + {eventType}
    ensures r[eventType] == Listeners(subs, eventType) + [cb]
    ensures forall t :: t in subs && t != eventType ==> r[t] == subs[t]
  {
    subs[eventType := Listeners(subs, eventType) + [cb]]
  }

  /** `[c for c in cbs if c != cb]` */
  function Without(cbs: seq<CallbackId>, cb: CallbackId): (r: seq<CallbackId>)
    ensures cb !in r
    ensures forall c :: c != cb ==> multiset(r)[c] == multiset(cbs)[c]
    ensures |cbs| == 1 ==> r == if cbs[0] == cb then [] else cbs
  {
    if cbs == [] then []
    else
      var init := cbs[..|cbs| - 1];
      var last := cbs[|cbs| - 1];
      assert cbs == init + [last];
      if last == cb then Without(init, cb) else Without(init, cb) + [last]
  }

  /** The table after `unsubscribe(eventType, cb)`. */
  function Removed(subs: map<string, seq<CallbackId>>, eventType: string, cb: CallbackId)
    : (r: map<string, seq<CallbackId>>)
    ensures r.Keys == subs.Keys
    ensures eventType in subs ==> r[eventType] == Without(subs[eventType], cb)
    ensures forall t :: t in subs && t != eventType ==> r[t] == subs[t]
  {
    if eventType in subs then subs[eventType := Without(subs[eventType], cb)] else subs
  }

  /** What `emit_event` does for one event: every listed callback is called,
      in order, whether or not an earlier one raised. */
  function Deliveries(cbs: seq<CallbackId>, e: DeviceEvent, raises: set<CallbackId>): (r: seq<Delivery>)
    ensures |r| == |cbs|
    ensures forall i :: 0 <= i < |cbs| ==>
      r[i].callback == cbs[i] && r[i].event == e && (r[i].raised <==> cbs[i] in raises)
  {
    if cbs == [] then []
    else
      var last := cbs[|cbs| - 1];
      Deliveries(cbs[..|cbs| - 1], e, raises) + [Delivery(last, e, last in raises)]
  }

  /** Emitting each event of `events` in turn. */
  function Broadcast(subs: map<string, seq<CallbackId>>, events: seq<DeviceEvent>, raises: set<CallbackId>)
    : seq<Delivery>
  {
    if events == [] then []
    else
      var last := events[|events| - 1];
      Broadcast(subs, events[..|events| - 1], raises)
        + Deliveries(Listeners(subs, last.eventType), last, raises)
  }

  /** `timedelta(microseconds=micros).seconds`: the seconds within the last
      day of the difference, not its total length. */
  function TimedeltaSeconds(micros: int): (s: int)
    ensures 0 <= s < SECONDS_PER_DAY
    ensures 0 <= micros < SECONDS_PER_DAY * MICROS_PER_SECOND ==>
      s * MICROS_PER_SECOND <= micros < (s + 1) * MICROS_PER_SECOND
  {
    (micros / MICROS_PER_SECOND) % SECONDS_PER_DAY
  }

  /** `(now - last_beat).seconds > 10`. Within a day after the heartbeat
      this means eleven whole seconds or more; a heartbeat up to a day in
      the future is late unless it lies more than 86 389 seconds ahead. */
  function TimedOut(lastBeat: int, now: int): (late: bool)
    ensures 0 <= now - lastBeat < SECONDS_PER_DAY * MICROS_PER_SECOND ==>
      (late <==> now - lastBeat >= 11 * MICROS_PER_SECOND)
    ensures 0 < lastBeat - now <= SECONDS_PER_DAY * MICROS_PER_SECOND ==>
      (late <==> lastBeat - now <= 86389 * MICROS_PER_SECOND)
  {
    TimedeltaSeconds(now - lastBeat) > HEARTBEAT_TIMEOUT
  }

  /** The event the sweep emits for a late device. */
  function TimeoutEvent(deviceId: string, lastBeat: int, now: int): DeviceEvent
  {
    DeviceEvent(TIMEOUT_EVENT, now, Dict(map["last_seen" := Instant(lastBeat)]), deviceId)
  }

  /** The events one sweep emits, walking the table in insertion order. */
  function TimeoutEvents(order: seq<string>, beats: map<string, int>, now: int): (r: seq<DeviceEvent>)
    ensures |r| <= |order|
  {
    if order == [] then []
    else
      var id := order[|order| - 1];
      var prev := TimeoutEvents(order[..|order| - 1], beats, now);
      if id in beats && TimedOut(beats[id], now) then prev + [TimeoutEvent(id, beats[id], now)]
      else prev
  }

  /** One more entry of the table adds its timeout event, if any. */
  lemma TimeoutEventsStep(order: seq<string>, i: nat, beats: map<string, int>, now: int)
    requires i < |order| && order[i] in beats
    ensures TimeoutEvents(order[..i + 1], beats, now)
            == TimeoutEvents(order[..i], beats, now)
               + (if TimedOut(beats[order[i]], now) then [TimeoutEvent(order[i], beats[order[i]], now)] else [])
  {
    assert order[..i + 1][..i] == order[..i];
  }

  /** Broadcasting one more event appends its deliveries. */
  lemma BroadcastStep(subs: map<string, seq<CallbackId>>, events: seq<DeviceEvent>, e: DeviceEvent,
                      raises: set<CallbackId>)
    ensures Broadcast(subs, events + [e], raises)
            == Broadcast(subs, events, raises) + Deliveries(Listeners(subs, e.eventType), e, raises)
  {
    assert (events + [e])[..|events|] == events;
  }

  class DeviceEventManager {
    var subscribers: map<string, seq<CallbackId>>
    var running: bool
    var lastHeartbeat: map<string, int>
    /** The keys of `lastHeartbeat` in insertion order, the order a dict
        iterates in. */
    var heartbeatOrder: seq<string>

    ghost predicate Valid()
      reads this
    {
      && (forall id :: id in heartbeatOrder <==> id in lastHeartbeat)
      && (forall i, j :: 0 <= i < j < |heartbeatOrder| ==> heartbeatOrder[i] != heartbeatOrder[j])
    }

    constructor ()
      ensures Valid()
      ensures subscribers == map[] && !running
      ensures lastHeartbeat == map[] && heartbeatOrder == []
    {
      subscribers := map[];
      running := false;
      lastHeartbeat := map[];
      heartbeatOrder := [];
    }

    /** `start`: raises the running flag (the monitor task is one
        `MonitorStep` per tick). */
    method Start()
      modifies this
      ensures running
      ensures subscribers == old(subscribers)
      ensures lastHeartbeat == old(lastHeartbeat) && heartbeatOrder == old(heartbeatOrder)
    {
      running := true;
    }

    /** `stop`: clears the running flag. */
    method Stop()
      modifies this
      ensures !running
      ensures subscribers == old(subscribers)
      ensures lastHeartbeat == old(lastHeartbeat) && heartbeatOrder == old(heartbeatOrder)
    {
      running := false;
    }

    /** `subscribe`: appends `cb` to the list for `eventType`. */
    method Subscribe(eventType: string, cb: CallbackId)
      modifies this
      ensures subscribers == Appended(old(subscribers), eventType, cb)
      ensures running == old(running)
      ensures lastHeartbeat == old(lastHeartbeat) && heartbeatOrder == old(heartbeatOrder)
    {
      if eventType !in subscribers {
        subscribers := subscribers[eventType := []];
      }
      subscribers := subscribers[eventType := subscribers[eventType] + [cb]];
    }

    /** `unsubscribe`: drops every occurrence of `cb` from the list for
        `eventType`, keeping the others in order. */
    method Unsubscribe(eventType: string, cb: CallbackId)
      modifies this
      ensures subscribers == Removed(old(subscribers), eventType, cb)
      ensures running == old(running)
      ensures lastHeartbeat == old(lastHeartbeat) && heartbeatOrder == old(heartbeatOrder)
    {
      if eventType in subscribers {
        var kept := [];
        var cbs := subscribers[eventType];
        var i := 0;
        while i < |cbs|
          invariant 0 <= i <= |cbs|
          invariant kept == Without(cbs[..i], cb)
        {
          assert cbs[..i + 1][..i] == cbs[..i];
          if cbs[i] != cb {
            kept := kept + [cbs[i]];
          }
          i := i + 1;
        }
        assert cbs[..i] == cbs;
        subscribers := subscribers[eventType := kept];
      }
    }

    /** `emit_event`: calls the callbacks listed for the event's exact type,
        in order; one that raises does not stop the rest. */
    method EmitEvent(e: DeviceEvent, raises: set<CallbackId>) returns (trace: seq<Delivery>)
      ensures trace == Deliveries(Listeners(subscribers, e.eventType), e, raises)
    {
      trace := [];
      if e.eventType in subscribers {
        var cbs := subscribers[e.eventType];
        var i := 0;
        while i < |cbs|
          invariant 0 <= i <= |cbs|
          invariant trace == Deliveries(cbs[..i], e, raises)
        {
          assert cbs[..i + 1][..i] == cbs[..i];
          var raised := cbs[i] in raises;
          trace := trace + [Delivery(cbs[i], e, raised)];
          i := i + 1;
        }
        assert cbs[..i] == cbs;
      }
    }

    /** `register_heartbeat`: records `now` for the device, overwriting any
        earlier entry in place. */
    method RegisterHeartbeat(deviceId: string, now: int)
      requires Valid()
      modifies this
      ensures Valid()
      ensures lastHeartbeat == old(lastHeartbeat)[deviceId := now]
      ensures heartbeatOrder ==
        if deviceId in old(lastHeartbeat) then old(heartbeatOrder) else old(heartbeatOrder) + [deviceId]
      ensures subscribers == old(subscribers) && running == old(running)
    {
      if deviceId !in lastHeartbeat {
        heartbeatOrder := heartbeatOrder + [deviceId];
      }
      lastHeartbeat := lastHeartbeat[deviceId := now];
    }

    /** The body of one `_heartbeat_monitor` iteration at time `now`: a
        `device_timeout` event for each late device, each emitted in turn. */
    method HeartbeatSweep(now: int, raises: set<CallbackId>) returns (events: seq<DeviceEvent>, trace: seq<Delivery>)
      requires Valid()
      ensures events == TimeoutEvents(heartbeatOrder, lastHeartbeat, now)
      ensures trace == Broadcast(subscribers, events, raises)
    {
      events := [];
      trace := [];
      var i := 0;
      while i < |heartbeatOrder|
        invariant 0 <= i <= |heartbeatOrder|
        invariant events == TimeoutEvents(heartbeatOrder[..i], lastHeartbeat, now)
        invariant trace == Broadcast(subscribers, events, raises)
      {
        var id := heartbeatOrder[i];
        var lastBeat := lastHeartbeat[id];
        TimeoutEventsStep(heartbeatOrder, i, lastHeartbeat, now);
        if TimedOut(lastBeat, now) {
          var e := TimeoutEvent(id, lastBeat, now);
          var delivered := EmitEvent(e, raises);
          BroadcastStep(subscribers, events, e, raises);
          events := events + [e];
          trace := trace + delivered;
        }
        i := i + 1;
      }
      assert heartbeatOrder[..i] == heartbeatOrder;
    }

    /** One turn of the `while self._running` loop: a sweep when the flag is
        set, nothing once it has been cleared. */
    method MonitorStep(now: int, raises: set<CallbackId>) returns (events: seq<DeviceEvent>, trace: seq<Delivery>)
      requires Valid()
      ensures running ==> events == TimeoutEvents(heartbeatOrder, lastHeartbeat, now)
      ensures !running ==> events == []
      ensures trace == Broadcast(subscribers, events, raises)
    {
      if running {
        events, trace := HeartbeatSweep(now, raises);
      } else {
        events, trace := [], [];
      }
    }
  }

  // ---------------------------------------------------------------------------
  // Properties

  /** Unsubscribing cuts the removed callback out and keeps the others in
      their order: with the one-element case of `Without`, filtering a list
      is filtering its parts and joining the results. */
  lemma {:induction false} WithoutKeepsOrder(a: seq<CallbackId>, b: seq<CallbackId>, cb: CallbackId)
    ensures Without(a + b, cb) == Without(a, cb) + Without(b, cb)
    decreases |b|
  {
    if b == [] {
      assert a + b == a;
    } else {
      var init := b[..|b| - 1];
      var last := b[|b| - 1];
      assert b == init + [last];
      assert a + b == (a + init) + [last];
      WithoutKeepsOrder(a, init, cb);
      WithoutSnoc(a + init, last, cb);
      WithoutSnoc(init, last, cb);
    }
  }

  lemma WithoutSnoc(cbs: seq<CallbackId>, c: CallbackId, cb: CallbackId)
    ensures Without(cbs + [c], cb) == Without(cbs, cb) + (if c == cb then [] else [c])
  {
    assert (cbs + [c])[..|cbs|] == cbs;
  }

  lemma DeliveriesSnoc(cbs: seq<CallbackId>, c: CallbackId, e: DeviceEvent, raises: set<CallbackId>)
    ensures Deliveries(cbs + [c], e, raises) == Deliveries(cbs, e, raises) + [Delivery(c, e, c in raises)]
  {
    assert (cbs + [c])[..|cbs|] == cbs;
  }

  /** A callback that was not listed is gone again after subscribing and
      unsubscribing it. */
  lemma {:induction false} SubscribeThenUnsubscribe(cbs: seq<CallbackId>, cb: CallbackId)
    requires cb !in cbs
    ensures Without(cbs + [cb], cb) == cbs
  {
    assert (cbs + [cb])[..|cbs|] == cbs;
    WithoutAbsent(cbs, cb);
  }

  /** Unsubscribing a callback that is not listed changes nothing. */
  lemma {:induction false} WithoutAbsent(cbs: seq<CallbackId>, cb: CallbackId)
    requires cb !in cbs
    ensures Without(cbs, cb) == cbs
  {
    if cbs != [] {
      var init := cbs[..|cbs| - 1];
      assert cbs == init + [cbs[|cbs| - 1]];
      WithoutAbsent(init, cb);
    }
  }

  /** Every delivery of an emitted event goes to a callback listed for its
      exact type: a type nobody subscribed to reaches nobody. */
  lemma {:induction false} BroadcastOnlyListeners(
    subs: map<string, seq<CallbackId>>, events: seq<DeviceEvent>, raises: set<CallbackId>, d: Delivery)
    requires d in Broadcast(subs, events, raises)
    ensures d.event in events && d.callback in Listeners(subs, d.event.eventType)
  {
    var last := events[|events| - 1];
    var prev := Broadcast(subs, events[..|events| - 1], raises);
    var now := Deliveries(Listeners(subs, last.eventType), last, raises);
    if d in prev {
      BroadcastOnlyListeners(subs, events[..|events| - 1], raises, d);
    } else {
      assert d in now;
      var i :| 0 <= i < |now| && now[i] == d;
    }
  }

  /** A sweep emits a timeout event for exactly the registered devices whose
      gap's seconds exceed ten, each stamped `now` and carrying its last
      heartbeat. */
  lemma {:induction false} TimeoutEventsExact(order: seq<string>, beats: map<string, int>, now: int, e: DeviceEvent)
    ensures e in TimeoutEvents(order, beats, now) <==>
      && e.deviceId in order && e.deviceId in beats
      && TimedOut(beats[e.deviceId], now)
      && e == TimeoutEvent(e.deviceId, beats[e.deviceId], now)
  {
    if order != [] {
      var init := order[..|order| - 1];
      assert order == init + [order[|order| - 1]];
      TimeoutEventsExact(init, beats, now, e);
    }
  }

  /** A device silent for one day and five seconds is not reported: only the
      within-day seconds of the gap are compared. */
  lemma SilentForADayIsNotLate(lastBeat: int)
    ensures !TimedOut(lastBeat, lastBeat + (SECONDS_PER_DAY + 5) * MICROS_PER_SECOND)
  {
    var d := (SECONDS_PER_DAY + 5) * MICROS_PER_SECOND;
    assert d / MICROS_PER_SECOND == SECONDS_PER_DAY + 5;
  }
}
