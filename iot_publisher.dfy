/** The IoT publisher (src/iot_publisher.py): a start/stop switch that
    subscribes three handlers to the event bus, each of which turns an event
    into one `(topic, payload)` message appended to an in-memory log. */
module IotPublisher {
  import opened Values
  import opened DeviceEvents

  const DATA_POINT_EVENT := "cv_data_point"
  const CONFIG_EVENT := "cv_config"
  const COMPLETE_EVENT := "cv_measurement_complete"

  const DATA_POINT_HANDLER := "_on_cv_data_point"
  const CONFIG_HANDLER := "_on_cv_config"
  const COMPLETE_HANDLER := "_on_cv_complete"

  /** One entry of `published`: the topic and the JSON text. */
  datatype Message = Message(topic: string, payload: string)

  /** `f"{topic_root}/{device_id}/{suffix}"` */
  function Topic(root: string, deviceId: string, suffix: string): string
  {
    root + "/" + deviceId + "/" + suffix
  }

  /** The topic suffix each handler publishes under. */
  function SuffixOf(handler: string): Option<string>
  {
    if handler == DATA_POINT_HANDLER then Some("data_point")
    else if handler == CONFIG_HANDLER then Some("config")
    else if handler == COMPLETE_HANDLER then Some("measurement_complete")
    else None
  }

  /** The suffix of each of the three handlers; the handler names differ
      in length, so no two of them are equal. */
  lemma HandlerSuffixes()
    ensures SuffixOf(DATA_POINT_HANDLER) == Some("data_point")
    ensures SuffixOf(CONFIG_HANDLER) == Some("config")
    ensures SuffixOf(COMPLETE_HANDLER) == Some("measurement_complete")
  {
    assert |DATA_POINT_HANDLER| == 17 && |CONFIG_HANDLER| == 13 && |COMPLETE_HANDLER| == 15;
  }

  /** `_make_payload`: the event as a JSON-ready dict; the `datetime`
      timestamp is rendered by `isoformat`. */
  function MakePayload(e: DeviceEvent, isoformat: int -> string): (p: Value)
    ensures p.Dict? && p.fields.Keys == {"type", "timestamp", "device_id", "data"}
  {
    Dict(map["type" := Str(e.eventType), "timestamp" := Str(isoformat(e.timestamp)),
             "device_id" := Str(e.deviceId), "data" := e.data])
  }

  /** Reads the event's type, device id and data back out of a payload. */
  function PayloadFields(p: Value): Option<(string, string, Value)>
  {
    if p.Dict? && "type" in p.fields && "device_id" in p.fields && "data" in p.fields
       && p.fields["type"].Str? && p.fields["device_id"].Str?
    then Some((p.fields["type"].s, p.fields["device_id"].s, p.fields["data"]))
    else None
  }

  /** The callbacks of `cbs` that are bound methods of object `owner`, in
      order. */
  function Owned(cbs: seq<CallbackId>, owner: nat): (r: seq<CallbackId>)
    ensures forall c :: c in r <==> c in cbs && c.owner == owner
  {
    if cbs == [] then []
    else
      var last := cbs[|cbs| - 1];
      Owned(cbs[..|cbs| - 1], owner) + (if last.owner == owner then [last] else [])
  }

  /** The bus table after `start` subscribes the handlers of object `owner`. */
  function StartedTable(subs: map<string, seq<CallbackId>>, owner: nat): map<string, seq<CallbackId>>
  {
    var t1 := Appended(subs, DATA_POINT_EVENT, CallbackId(owner, DATA_POINT_HANDLER));
    var t2 := Appended(t1, CONFIG_EVENT, CallbackId(owner, CONFIG_HANDLER));
    Appended(t2, COMPLETE_EVENT, CallbackId(owner, COMPLETE_HANDLER))
  }

  /** The bus table after `stop` unsubscribes the handlers of object `owner`. */
  function StoppedTable(subs: map<string, seq<CallbackId>>, owner: nat): map<string, seq<CallbackId>>
  {
    var t1 := Removed(subs, DATA_POINT_EVENT, CallbackId(owner, DATA_POINT_HANDLER));
    var t2 := Removed(t1, CONFIG_EVENT, CallbackId(owner, CONFIG_HANDLER));
    Removed(t2, COMPLETE_EVENT, CallbackId(owner, COMPLETE_HANDLER))
  }

  /** Each handler of object `owner` is listed under its event type exactly
      once when `running`, and not at all otherwise. */
  predicate SubscribedIn(subs: map<string, seq<CallbackId>>, owner: nat, running: bool)
  {
    && Owned(Listeners(subs, DATA_POINT_EVENT), owner) == (if running then [CallbackId(owner, DATA_POINT_HANDLER)] else [])
    && Owned(Listeners(subs, CONFIG_EVENT), owner) == (if running then [CallbackId(owner, CONFIG_HANDLER)] else [])
    && Owned(Listeners(subs, COMPLETE_EVENT), owner) == (if running then [CallbackId(owner, COMPLETE_HANDLER)] else [])
  }

  class IoTPublisher {
    const topicRoot: string
    /** The identity of this object, which its bound methods carry. */
    const id: nat
    /** The shared `event_manager`. */
    const bus: DeviceEventManager
    /** `json.dumps(payload, ensure_ascii=False, default=str)` */
    const dumps: Value -> string
    /** `datetime.isoformat()` */
    const isoformat: int -> string
    var running: bool
    var published: seq<Message>

    /** A new object: `id` is fresh, so none of its bound methods is on the
        bus yet, and the publisher starts stopped and subscribed nowhere. */
    constructor (topicRoot: string, id: nat, bus: DeviceEventManager, dumps: Value -> string, isoformat: int -> string)
      requires forall t :: Owned(Listeners(bus.subscribers, t), id) == []
      ensures this.topicRoot == topicRoot && this.id == id && this.bus == bus
      ensures this.dumps == dumps && this.isoformat == isoformat
      ensures !running && published == []
      ensures Subscribed()
    {
      this.topicRoot := topicRoot;
      this.id := id;
      this.bus := bus;
      this.dumps := dumps;
      this.isoformat := isoformat;
      running := false;
      published := [];
      assert Owned(Listeners(bus.subscribers, DATA_POINT_EVENT), id) == [];
      assert Owned(Listeners(bus.subscribers, CONFIG_EVENT), id) == [];
      assert Owned(Listeners(bus.subscribers, COMPLETE_EVENT), id) == [];
    }

    function Handler(name: string): CallbackId
    {
      CallbackId(id, name)
    }

    /** The message a handler of this publisher appends for `e`. */
    function MessageFor(e: DeviceEvent, suffix: string): Message
    {
      Message(Topic(topicRoot, e.deviceId, suffix), dumps(MakePayload(e, isoformat)))
    }

    /** What one delivery appends to `published`: one message when it went to
        one of this publisher's handlers and did not raise, nothing
        otherwise. */
    function Publication(d: Delivery): (r: seq<Message>)
      ensures |r| <= 1
    {
      if d.callback.owner == id && !d.raised && SuffixOf(d.callback.name).Some?
      then [MessageFor(d.event, SuffixOf(d.callback.name).value)]
      else []
    }

    function Publications(trace: seq<Delivery>): seq<Message>
    {
      if trace == [] then []
      else Publications(trace[..|trace| - 1]) + Publication(trace[|trace| - 1])
    }

    /** Each of the three handlers is on the bus exactly once while the
        publisher runs and not at all while it is stopped. */
    ghost predicate Subscribed()
      reads this, bus
    {
      SubscribedIn(bus.subscribers, id, running)
    }

    /** `start`: a no-op when already running; otherwise raises the flag and
        subscribes the three handlers. */
    method Start()
      modifies this, bus
      ensures running
      ensures bus.subscribers == if old(running) then old(bus.subscribers) else StartedTable(old(bus.subscribers), id)
      ensures old(Subscribed()) ==> Subscribed()
      ensures published == old(published)
      ensures bus.running == old(bus.running) && bus.lastHeartbeat == old(bus.lastHeartbeat)
      ensures bus.heartbeatOrder == old(bus.heartbeatOrder)
    {
      if running {
        return;
      }
      ghost var subs := bus.subscribers;
      ghost var wasSubscribed := Subscribed();
      if wasSubscribed {
        StartKeepsSubscribed(subs, id);
      }
      running := true;
      bus.Subscribe(DATA_POINT_EVENT, Handler(DATA_POINT_HANDLER));
      bus.Subscribe(CONFIG_EVENT, Handler(CONFIG_HANDLER));
      bus.Subscribe(COMPLETE_EVENT, Handler(COMPLETE_HANDLER));
      assert bus.subscribers == StartedTable(subs, id);
    }

    /** `stop`: a no-op when stopped; otherwise unsubscribes the three
        handlers and clears the flag. */
    method Stop()
      modifies this, bus
      ensures !running
      ensures bus.subscribers == if old(running) then StoppedTable(old(bus.subscribers), id) else old(bus.subscribers)
      ensures old(Subscribed()) ==> Subscribed()
      ensures published == old(published)
      ensures bus.running == old(bus.running) && bus.lastHeartbeat == old(bus.lastHeartbeat)
      ensures bus.heartbeatOrder == old(bus.heartbeatOrder)
    {
      if !running {
        return;
      }
      ghost var subs := bus.subscribers;
      ghost var wasSubscribed := Subscribed();
      if wasSubscribed {
        StopKeepsSubscribed(subs, id);
      }
      bus.Unsubscribe(DATA_POINT_EVENT, Handler(DATA_POINT_HANDLER));
      bus.Unsubscribe(CONFIG_EVENT, Handler(CONFIG_HANDLER));
      bus.Unsubscribe(COMPLETE_EVENT, Handler(COMPLETE_HANDLER));
      running := false;
      assert bus.subscribers == StoppedTable(subs, id);
    }

    /** `_publish`: serialises the payload and appends one message. */
    method Publish(topic: string, payload: Value)
      modifies this
      ensures published == old(published) + [Message(topic, dumps(payload))]
      ensures running == old(running)
    {
      var msg := dumps(payload);
      published := published + [Message(topic, msg)];
    }

    /** `_on_cv_data_point` */
    method OnCvDataPoint(e: DeviceEvent)
      modifies this
      ensures published == old(published) + [MessageFor(e, "data_point")]
      ensures running == old(running)
    {
      var payload := MakePayload(e, isoformat);
      var topic := Topic(topicRoot, e.deviceId, "data_point");
      Publish(topic, payload);
    }

    /** `_on_cv_config` */
    method OnCvConfig(e: DeviceEvent)
      modifies this
      ensures published == old(published) + [MessageFor(e, "config")]
      ensures running == old(running)
    {
      var payload := MakePayload(e, isoformat);
      var topic := Topic(topicRoot, e.deviceId, "config");
      Publish(topic, payload);
    }

    /** `_on_cv_complete` */
    method OnCvComplete(e: DeviceEvent)
      modifies this
      ensures published == old(published) + [MessageFor(e, "measurement_complete")]
      ensures running == old(running)
    {
      var payload := MakePayload(e, isoformat);
      var topic := Topic(topicRoot, e.deviceId, "measurement_complete");
      Publish(topic, payload);
    }

    /** Runs this publisher's handler for one delivery of a trace, when the
        delivery reached it. A delivery marked as raised stopped before its
        append. */
    method Dispatch(d: Delivery)
      modifies this
      ensures published == old(published) + Publication(d)
      ensures running == old(running)
    {
      HandlerSuffixes();
      if d.callback.owner == id && !d.raised {
        if d.callback.name == DATA_POINT_HANDLER {
          OnCvDataPoint(d.event);
        } else if d.callback.name == CONFIG_HANDLER {
          OnCvConfig(d.event);
        } else if d.callback.name == COMPLETE_HANDLER {
          OnCvComplete(d.event);
        }
      }
    }

    /** Runs this publisher's handlers for the deliveries of a trace that
        reached them. */
    method Deliver(trace: seq<Delivery>)
      modifies this
      ensures published == old(published) + Publications(trace)
      ensures running == old(running)
    {
      var i := 0;
      while i < |trace|
        invariant 0 <= i <= |trace|
        invariant published == old(published) + Publications(trace[..i])
        invariant running == old(running)
      {
        PublicationsStep(trace, i);
        ghost var before := published;
        Dispatch(trace[i]);
        assert published == before + Publication(trace[i]);
        i := i + 1;
      }
      assert trace[..i] == trace;
    }

    lemma PublicationsStep(trace: seq<Delivery>, i: nat)
      requires i < |trace|
      ensures Publications(trace[..i + 1]) == Publications(trace[..i]) + Publication(trace[i])
    {
      assert trace[..i + 1][..i] == trace[..i];
    }

    lemma PublicationsSnoc(ds: seq<Delivery>, d: Delivery)
      ensures Publications(ds + [d]) == Publications(ds) + Publication(d)
    {
      assert (ds + [d])[..|ds|] == ds;
    }

    /** Only this publisher's own callbacks matter to what it publishes. */
    lemma {:induction false} PublicationsOfOwned(cbs: seq<CallbackId>, e: DeviceEvent, raises: set<CallbackId>)
      ensures Publications(Deliveries(cbs, e, raises)) == Publications(Deliveries(Owned(cbs, id), e, raises))
    {
      if cbs != [] {
        var init := cbs[..|cbs| - 1];
        var last := cbs[|cbs| - 1];
        var d := Delivery(last, e, last in raises);
        assert cbs == init + [last];
        DeliveriesSnoc(init, last, e, raises);
        PublicationsSnoc(Deliveries(init, e, raises), d);
        PublicationsOfOwned(init, e, raises);
        OwnedAppend(init, last, id);
        var before := Publications(Deliveries(Owned(init, id), e, raises));
        assert Publications(Deliveries(cbs, e, raises)) == before + Publication(d);
        if last.owner == id {
          assert Owned(cbs, id) == Owned(init, id) + [last];
          DeliveriesSnoc(Owned(init, id), last, e, raises);
          PublicationsSnoc(Deliveries(Owned(init, id), e, raises), d);
        } else {
          assert Publication(d) == [];
          assert Owned(cbs, id) == Owned(init, id);
          assert before + Publication(d) == before;
        }
      }
    }

    /** While the publisher runs, an event of one of its three types yields
        exactly one message, under that type's topic; stopped, it yields
        none. */
    lemma PublishedOnce(e: DeviceEvent, raises: set<CallbackId>, name: string)
      requires Subscribed()
      requires (e.eventType, name) in
        {(DATA_POINT_EVENT, DATA_POINT_HANDLER), (CONFIG_EVENT, CONFIG_HANDLER), (COMPLETE_EVENT, COMPLETE_HANDLER)}
      requires Handler(name) !in raises
      ensures Publications(Deliveries(Listeners(bus.subscribers, e.eventType), e, raises))
              == if running then [MessageFor(e, SuffixOf(name).value)] else []
    {
      PublicationsOfOwned(Listeners(bus.subscribers, e.eventType), e, raises);
      HandlerSuffixes();
      assert |DATA_POINT_EVENT| == 13 && |CONFIG_EVENT| == 9 && |COMPLETE_EVENT| == 23;
      assert Owned(Listeners(bus.subscribers, e.eventType), id) == if running then [Handler(name)] else [];
      if running {
        var ds := Deliveries([Handler(name)], e, raises);
        assert ds[..0] == [];
        assert Publications(ds) == Publication(Delivery(Handler(name), e, false));
      }
    }
  }

  // ---------------------------------------------------------------------------
  // Properties

  lemma OwnedAppend(cbs: seq<CallbackId>, c: CallbackId, owner: nat)
    ensures Owned(cbs + [c], owner) == Owned(cbs, owner) + (if c.owner == owner then [c] else [])
  {
    assert (cbs + [c])[..|cbs|] == cbs;
  }

  /** Removing a callback and keeping one object's callbacks commute. */
  lemma {:induction false} OwnedWithout(cbs: seq<CallbackId>, c: CallbackId, owner: nat)
    ensures Owned(Without(cbs, c), owner) == Without(Owned(cbs, owner), c)
  {
    if cbs != [] {
      var init := cbs[..|cbs| - 1];
      var last := cbs[|cbs| - 1];
      assert cbs == init + [last];
      OwnedWithout(init, c, owner);
      WithoutSnoc(init, last, c);
      OwnedAppend(init, last, owner);
      var kept := if last.owner == owner then [last] else [];
      assert Owned(cbs, owner) == Owned(init, owner) + kept;
      if last == c {
        assert Without(cbs, c) == Without(init, c);
        if last.owner == owner {
          WithoutSnoc(Owned(init, owner), last, c);
        } else {
          assert Owned(init, owner) + kept == Owned(init, owner);
        }
      } else {
        assert Without(cbs, c) == Without(init, c) + [last];
        OwnedAppend(Without(init, c), last, owner);
        if last.owner == owner {
          WithoutSnoc(Owned(init, owner), last, c);
        } else {
          assert Owned(init, owner) + kept == Owned(init, owner);
          assert Owned(Without(init, c), owner) + kept == Owned(Without(init, c), owner);
        }
      }
    }
  }

  lemma StartKeepsSubscribed(subs: map<string, seq<CallbackId>>, owner: nat)
    requires SubscribedIn(subs, owner, false)
    ensures SubscribedIn(StartedTable(subs, owner), owner, true)
  {
    OwnedAppend(Listeners(subs, DATA_POINT_EVENT), CallbackId(owner, DATA_POINT_HANDLER), owner);
    OwnedAppend(Listeners(subs, CONFIG_EVENT), CallbackId(owner, CONFIG_HANDLER), owner);
    OwnedAppend(Listeners(subs, COMPLETE_EVENT), CallbackId(owner, COMPLETE_HANDLER), owner);
  }

  lemma StopKeepsSubscribed(subs: map<string, seq<CallbackId>>, owner: nat)
    requires SubscribedIn(subs, owner, true)
    ensures SubscribedIn(StoppedTable(subs, owner), owner, false)
  {
    OwnedRemove(Listeners(subs, DATA_POINT_EVENT), CallbackId(owner, DATA_POINT_HANDLER), owner);
    OwnedRemove(Listeners(subs, CONFIG_EVENT), CallbackId(owner, CONFIG_HANDLER), owner);
    OwnedRemove(Listeners(subs, COMPLETE_EVENT), CallbackId(owner, COMPLETE_HANDLER), owner);
  }

  /** A list whose only callback of `owner` is `c` has none left once `c`
      is removed. */
  lemma OwnedRemove(cbs: seq<CallbackId>, c: CallbackId, owner: nat)
    requires Owned(cbs, owner) == [c]
    ensures Owned(Without(cbs, c), owner) == []
  {
    OwnedWithout(cbs, c, owner);
    assert [c][..0] == [];
  }

  /** The payload gives back the event's type, device id and data
      unchanged. */
  lemma PayloadRoundTrip(e: DeviceEvent, isoformat: int -> string)
    ensures PayloadFields(MakePayload(e, isoformat)) == Some((e.eventType, e.deviceId, e.data))
  {
  }

  /** Device ids and suffixes without '/' are told apart by the topic. */
  lemma TopicInjective(root: string, d1: string, s1: string, d2: string, s2: string)
    requires '/' !in d1 && '/' !in d2 && '/' !in s1 && '/' !in s2
    requires Topic(root, d1, s1) == Topic(root, d2, s2)
    ensures d1 == d2 && s1 == s2
  {
    var t := Topic(root, d1, s1);
    var n := |root| + 1;
    assert t == root + "/" + d1 + "/" + s1;
    assert t == root + "/" + d2 + "/" + s2;
    assert forall k :: 0 <= k < |d1| ==> t[n + k] == d1[k];
    assert forall k :: 0 <= k < |d2| ==> t[n + k] == d2[k];
    assert t[n + |d1|] == '/' && t[n + |d2|] == '/';
    assert |d1| == |d2|;
    assert d1 == t[n..n + |d1|];
    assert d2 == t[n..n + |d2|];
    assert s1 == t[n + |d1| + 1..];
  }
}
