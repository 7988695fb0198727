/** The notification outbox: emitting a notification persists it as a PENDING event
    and then hands it to the in-process handler, if one is registered. */
module Notifications {
  import opened Wrappers
  import opened Clock
  import opened Strings
  import opened Models

  /** The identity of a registered asynchronous handler. */
  datatype Handler = Handler(name: string)

  /** One call of a handler with a notification. */
  datatype Delivery = Delivery(handler: Handler, notification: Notification)

  /** `notification.get("channel", "default")` as stored in the NOT NULL text column:
      an integer is stored as its decimal text and an explicit null makes the insert fail. */
  function ChannelOf(n: Notification): (r: Result<string>)
    ensures "channel" !in n ==> r == Ok("default")
    ensures r.Err? <==> "channel" in n && n["channel"].VNull?
  {
    if "channel" !in n then Ok("default")
    else match n["channel"]
      case VStr(s) => Ok(s)
      case VInt(i) => Ok(IntToString(i))
      case VNull => Err(Raised("IntegrityError"))
  }

  /** The row a successful emission inserts. */
  function NewEvent(id: int, channel: string, n: Notification, now: Timestamp): NotificationEvent {
    NotificationEvent(id, channel, n, EvPending, Some(DefaultAttemptCount), None,
                      None, None, None, now, now, None)
  }

  /** Every notification of `ns` has a channel, so emitting it stores a row. */
  predicate Routable(ns: seq<Notification>) {
    forall k :: 0 <= k < |ns| ==> ChannelOf(ns[k]).Ok?
  }

  /** The events after emitting each of `ns` in turn. */
  function EnqueueAll(events: seq<NotificationEvent>, ns: seq<Notification>, now: Timestamp): (r: seq<NotificationEvent>)
    requires EventKeys(events) && Routable(ns)
    ensures EventKeys(r) && |r| == |events| + |ns|
  {
    if |ns| == 0 then events
    else
      var prev := EnqueueAll(events, ns[..|ns| - 1], now);
      var n := ns[|ns| - 1];
      prev + [NewEvent(NextEventId(prev), ChannelOf(n).value, n, now)]
  }

  /** Emission keeps the existing events and appends one PENDING, unsent, unlocked event
      per notification, carrying that notification as its payload. */
  lemma {:induction false} EnqueueAllAppends(events: seq<NotificationEvent>, ns: seq<Notification>, now: Timestamp)
    requires EventKeys(events) && Routable(ns)
    ensures var r := EnqueueAll(events, ns, now);
      && r[..|events|] == events
      && forall k :: 0 <= k < |ns| ==>
           r[|events| + k] == NewEvent(r[|events| + k].id, ChannelOf(ns[k]).value, ns[k], now)
  {
    if |ns| > 0 {
      var init := ns[..|ns| - 1];
      EnqueueAllAppends(events, init, now);
      var prev := EnqueueAll(events, init, now);
      var r := EnqueueAll(events, ns, now);
      assert r[..|prev|] == prev;
      forall k | 0 <= k < |ns|
        ensures r[|events| + k] == NewEvent(r[|events| + k].id, ChannelOf(ns[k]).value, ns[k], now)
      {
        if k < |init| {
          assert ns[k] == init[k];
          assert r[|events| + k] == prev[|events| + k];
        }
      }
    }
  }

  /** The handler calls made for `ns`: one per notification when a handler is registered. */
  function HandledAll(h: Option<Handler>, ns: seq<Notification>): (r: seq<Delivery>)
    ensures h.None? ==> r == []
    ensures h.Some? ==> |r| == |ns| && forall k :: 0 <= k < |ns| ==> r[k] == Delivery(h.value, ns[k])
  {
    if h.None? then [] else seq(|ns|, k requires 0 <= k < |ns| => Delivery(h.value, ns[k]))
  }

  /** The event table, the module-level handler slot and the record of handler calls. */
  class Outbox {
    var events: seq<NotificationEvent>
    var handler: Option<Handler>
    var deliveries: seq<Delivery>

    predicate Valid()
      reads this
    {
      EventKeys(events)
    }

    constructor ()
      ensures Valid() && events == [] && handler == None && deliveries == []
    {
      events, handler, deliveries := [], None, [];
    }

    /** `register_notification_handler`: the last registration wins. */
    method RegisterHandler(h: Handler)
      modifies this
      ensures handler == Some(h)
      ensures events == old(events) && deliveries == old(deliveries)
    {
      handler := Some(h);
    }

    /** `emit_notification`: insert the event (its own transaction), then call the handler.
        A failing insert propagates before the handler is reached; a failing handler is
        swallowed, so only its call is recorded. */
    method Emit(n: Notification, now: Timestamp) returns (res: Result<()>)
      requires Valid()
      modifies this
      ensures Valid() && handler == old(handler)
      ensures res.Ok? <==> ChannelOf(n).Ok?
      ensures res.Err? ==> events == old(events) && deliveries == old(deliveries)
      ensures res.Ok? ==>
        && events == old(events) + [NewEvent(NextEventId(old(events)), ChannelOf(n).value, n, now)]
        && deliveries == old(deliveries) + HandledAll(old(handler), [n])
    {
      var channel := ChannelOf(n);
      if channel.Err? {
        return Err(channel.error);
      }
      events := events + [NewEvent(NextEventId(events), channel.value, n, now)];
      if handler.Some? {
        deliveries := deliveries + [Delivery(handler.value, n)];
      }
      res := Ok(());
    }
  }

  /** Emitting one more notification appends its event. */
  lemma EnqueueOneMore(events: seq<NotificationEvent>, ns: seq<Notification>, n: Notification, now: Timestamp)
    requires EventKeys(events) && Routable(ns) && ChannelOf(n).Ok?
    ensures Routable(ns + [n])
    ensures EnqueueAll(events, ns + [n], now)
         == EnqueueAll(events, ns, now) + [NewEvent(NextEventId(EnqueueAll(events, ns, now)), ChannelOf(n).value, n, now)]
  {
    assert (ns + [n])[..|ns|] == ns;
  }

  lemma HandledAllAppend(h: Option<Handler>, a: seq<Notification>, b: seq<Notification>)
    ensures HandledAll(h, a + b) == HandledAll(h, a) + HandledAll(h, b)
  {
    if h.Some? {
      var l, r := HandledAll(h, a + b), HandledAll(h, a) + HandledAll(h, b);
      assert |l| == |r|;
      forall k | 0 <= k < |l|
        ensures l[k] == r[k]
      {
        if k < |a| {
          assert (a + b)[k] == a[k];
        } else {
          assert (a + b)[k] == b[k - |a|];
        }
      }
    }
  }

  /** Emitting `a` and then `b` is emitting `a + b`. */
  lemma {:induction false} EnqueueAllAppend(events: seq<NotificationEvent>, a: seq<Notification>, b: seq<Notification>, now: Timestamp)
    requires EventKeys(events) && Routable(a) && Routable(b)
    ensures Routable(a + b)
    ensures EnqueueAll(EnqueueAll(events, a, now), b, now) == EnqueueAll(events, a + b, now)
  {
    assert forall k :: 0 <= k < |a + b| ==> (a + b)[k] == if k < |a| then a[k] else b[k - |a|];
    if |b| > 0 {
      var b' := b[..|b| - 1];
      EnqueueAllAppend(events, a, b', now);
      assert (a + b)[..|a + b| - 1] == a + b';
    } else {
      assert a + b == a;
    }
  }
}
