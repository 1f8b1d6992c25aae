/** The per-service event cache of the DevTools background-services panel, as values.
    `Cache` is the `_events` map of BackgroundServiceModel; `Model` adds the two logs
    that stand for the model's outbound effects (requests to the backend agent and
    dispatches to listeners); `Step` is the effect of one call on the model, and `Run`
    the effect of a sequence of calls. The class in module Resources is specified by `Step`. */
module EventCache {

  /** A `Protocol.BackgroundService.ServiceName`; only compared, never inspected. */
  type ServiceName(==, !new)

  /** The fields of a `BackgroundServiceEvent` other than `service`, which the model never reads. */
  type Payload

  /** A `BackgroundServiceEvent`: the cache routes it by `service` and nothing else. */
  datatype Event = Event(service: ServiceName, payload: Payload)

  /** The `_events` map: a service's list of buffered events, oldest first. */
  type Cache = map<ServiceName, seq<Event>>

  /** A call on the backend agent (`startObserving`, `setRecording`, `clearEvents`). */
  datatype Request =
    | StartObserving(service: ServiceName)
    | SetRecording(shouldRecord: bool, service: ServiceName)
    | ClearEvents(service: ServiceName)

  /** A dispatch to listeners, tagged as in the `Events` enum. */
  datatype Notification =
    | RecordingStateChanged(isRecording: bool, serviceName: ServiceName)
    | BackgroundServiceEventReceived(event: Event)

  /** A request as issued, with the cache as it stood at that moment. */
  datatype Sent = Sent(request: Request, cacheThen: Cache)

  /** A notification as dispatched, with the cache a listener reading it at that moment sees. */
  datatype Dispatched = Dispatched(note: Notification, cacheThen: Cache)

  /** The whole observable state of one BackgroundServiceModel. */
  datatype Model = Model(cache: Cache, requests: seq<Sent>, notifications: seq<Dispatched>)

  /** One operation of BackgroundServiceModel that changes something. */
  datatype Call =
    | Enable(service: ServiceName)
    | SetRecording(shouldRecord: bool, service: ServiceName)
    | ClearEvents(service: ServiceName)
    | RecordingStateChanged(isRecording: bool, service: ServiceName)
    | EventReceived(event: Event)

  // ---------------------------------------------------------------------------
  // The cache

  /** `getEvents`: the stored list, or the empty list for a service with no entry;
      an unknown service is not an error. */
  function Lookup(c: Cache, s: ServiceName): (r: seq<Event>)
    ensures s in c ==> r == c[s]
    ensures s !in c ==> r == []
  {
    if s in c then c[s] else []
  }

  /** `_events.set(s, [])`, as done by `enable` and `clearEvents`. */
  function Reset(c: Cache, s: ServiceName): (r: Cache)
    ensures r.Keys == c.Keys + {s}
    ensures s in r && r[s] == []
    ensures forall t :: t != s ==> Lookup(r, t) == Lookup(c, t)
  {
    c[s := []]
  }

  /** `_events.get(e.service).push(e)`: defined only when `e.service` has an entry,
      because on a missing entry the call throws. */
  function Append(c: Cache, e: Event): (r: Cache)
    requires e.service in c
    ensures r.Keys == c.Keys
    ensures r[e.service] == c[e.service] + [e]
    ensures forall t :: t != e.service ==> Lookup(r, t) == Lookup(c, t)
  {
    c[e.service := c[e.service] + [e]]
  }

  // ---------------------------------------------------------------------------
  // One call, and a sequence of calls

  /** A freshly constructed model: the `_events` map is empty and nothing was sent. */
  function Initial(): (r: Model)
    ensures r.cache.Keys == {}
    ensures forall s :: Lookup(r.cache, s) == []
    ensures r.requests == [] && r.notifications == []
  {
    Model(map[], [], [])
  }

  /** Whether the model can take the call: `backgroundServiceEventReceived` throws
      when the event's service has no entry; everything else is always accepted. */
  predicate Accepts(c: Cache, call: Call)
    ensures !call.EventReceived? ==> Accepts(c, call)
    ensures call.EventReceived? ==> (Accepts(c, call) <==> call.event.service in c)
  {
    call.EventReceived? ==> call.event.service in c
  }

  /** The effect of one call, in the order the code performs its two steps:
      `enable`/`clearEvents` reset the entry and then send; `setRecording` only sends;
      `recordingStateChanged` only dispatches; an event is appended and then dispatched.
      Keys are added only by resets; each log grows at its end by one entry per
      request sent or notification dispatched, and no older entry changes. */
  function Step(m: Model, call: Call): (r: Model)
    requires Accepts(m.cache, call)
    ensures r.cache.Keys == m.cache.Keys + ResetTarget(call)
    ensures |r.requests| == |m.requests| + |Requests(call)| && r.requests[..|m.requests|] == m.requests
    ensures |r.notifications| == |m.notifications| + |Notifications(call)|
    ensures r.notifications[..|m.notifications|] == m.notifications
  {
    match call
    case Enable(s) =>
      var c := Reset(m.cache, s);
      Model(c, m.requests + [Sent(Request.StartObserving(s), c)], m.notifications)
    case SetRecording(b, s) =>
      Model(m.cache, m.requests + [Sent(Request.SetRecording(b, s), m.cache)], m.notifications)
    case ClearEvents(s) =>
      var c := Reset(m.cache, s);
      Model(c, m.requests + [Sent(Request.ClearEvents(s), c)], m.notifications)
    case RecordingStateChanged(b, s) =>
      Model(m.cache, m.requests, m.notifications + [Dispatched(Notification.RecordingStateChanged(b, s), m.cache)])
    case EventReceived(e) =>
      var c := Append(m.cache, e);
      Model(c, m.requests, m.notifications + [Dispatched(Notification.BackgroundServiceEventReceived(e), c)])
  }

  /** Every call of `calls`, taken in turn from `m`, is accepted. */
  predicate Runnable(m: Model, calls: seq<Call>)
    decreases |calls|
  {
    calls == [] || (Accepts(m.cache, calls[0]) && Runnable(Step(m, calls[0]), calls[1..]))
  }

  /** The model after taking `calls` in order. */
  function Run(m: Model, calls: seq<Call>): Model
    requires Runnable(m, calls)
    decreases |calls|
  {
    if calls == [] then m else Run(Step(m, calls[0]), calls[1..])
  }

  /** The service whose entry the call resets: `enable(s)` and `clearEvents(s)` reset `s`. */
  function ResetTarget(call: Call): set<ServiceName>
  {
    if call.Enable? || call.ClearEvents? then {call.service} else {}
  }

  /** The call resets the entry of `s`. */
  predicate ResetsService(call: Call, s: ServiceName)
  {
    s in ResetTarget(call)
  }

  /** The event of service `s` that the call pushes, if any. */
  function ReceivedBy(call: Call, s: ServiceName): seq<Event>
  {
    if call.EventReceived? && call.event.service == s then [call.event] else []
  }

  /** The events of service `s` pushed by `calls`, in arrival order. */
  function Received(calls: seq<Call>, s: ServiceName): seq<Event>
    decreases |calls|
  {
    if calls == [] then [] else ReceivedBy(calls[0], s) + Received(calls[1..], s)
  }

  /** The services whose entry `calls` reset. */
  function ResetServices(calls: seq<Call>): set<ServiceName>
    decreases |calls|
  {
    if calls == [] then {} else ResetTarget(calls[0]) + ResetServices(calls[1..])
  }

  /** The requests a call sends: one for each outbound operation, none for an inbound one. */
  function Requests(call: Call): seq<Request>
  {
    match call
    case Enable(s) => [Request.StartObserving(s)]
    case SetRecording(b, s) => [Request.SetRecording(b, s)]
    case ClearEvents(s) => [Request.ClearEvents(s)]
    case RecordingStateChanged(_, _) => []
    case EventReceived(_) => []
  }

  /** The notifications a call dispatches: one for each inbound operation, none for an outbound one. */
  function Notifications(call: Call): seq<Notification>
  {
    match call
    case Enable(_) => []
    case SetRecording(_, _) => []
    case ClearEvents(_) => []
    case RecordingStateChanged(b, s) => [Notification.RecordingStateChanged(b, s)]
    case EventReceived(e) => [Notification.BackgroundServiceEventReceived(e)]
  }

  /** The requests sent by `calls`, in order. */
  function AllRequests(calls: seq<Call>): seq<Request>
    decreases |calls|
  {
    if calls == [] then [] else Requests(calls[0]) + AllRequests(calls[1..])
  }

  /** The notifications dispatched by `calls`, in order. */
  function AllNotifications(calls: seq<Call>): seq<Notification>
    decreases |calls|
  {
    if calls == [] then [] else Notifications(calls[0]) + AllNotifications(calls[1..])
  }

  /** The requests of a request log, without the snapshots. */
  function RequestsOf(log: seq<Sent>): seq<Request>
    decreases |log|
  {
    if log == [] then [] else [log[0].request] + RequestsOf(log[1..])
  }

  /** The notifications of a dispatch log, without the snapshots. */
  function NotificationsOf(log: seq<Dispatched>): seq<Notification>
    decreases |log|
  {
    if log == [] then [] else [log[0].note] + NotificationsOf(log[1..])
  }

  /** The last event of `events` is `e`. */
  predicate EndsWith(events: seq<Event>, e: Event)
  {
    events != [] && events[|events| - 1] == e
  }

  /** The notification is an event dispatch made when its event was already the last
      buffered event of its service, so a listener reading `getEvents` sees it. */
  predicate SeesOwnEvent(d: Dispatched)
    requires d.note.BackgroundServiceEventReceived?
  {
    EndsWith(Lookup(d.cacheThen, d.note.event.service), d.note.event)
  }

  /** Every event dispatch in the log sees its own event. */
  predicate EventsVisibleAtDispatch(log: seq<Dispatched>)
  {
    forall i :: 0 <= i < |log| && log[i].note.BackgroundServiceEventReceived? ==> SeesOwnEvent(log[i])
  }

  // ---------------------------------------------------------------------------
  // Properties of single calls

  /** `enable(s)` empties the list of `s`, leaves every other service's list alone,
      sends exactly `startObserving(s)` after the reset, and dispatches nothing. */
  lemma EnableEffect(m: Model, s: ServiceName)
    ensures var r := Step(m, Call.Enable(s));
      && s in r.cache && Lookup(r.cache, s) == []
      && (forall t :: t != s ==> Lookup(r.cache, t) == Lookup(m.cache, t))
      && r.requests == m.requests + [Sent(Request.StartObserving(s), r.cache)]
      && Lookup(r.requests[|r.requests| - 1].cacheThen, s) == []
      && r.notifications == m.notifications
  {
  }

  /** `clearEvents(s)` empties the list of `s`, leaves every other service's list alone,
      sends exactly `clearEvents(s)` after the reset, and dispatches nothing. */
  lemma ClearEventsEffect(m: Model, s: ServiceName)
    ensures var r := Step(m, Call.ClearEvents(s));
      && s in r.cache && Lookup(r.cache, s) == []
      && (forall t :: t != s ==> Lookup(r.cache, t) == Lookup(m.cache, t))
      && r.requests == m.requests + [Sent(Request.ClearEvents(s), r.cache)]
      && Lookup(r.requests[|r.requests| - 1].cacheThen, s) == []
      && r.notifications == m.notifications
  {
  }

  /** Resetting twice leaves the same cache as resetting once, whichever of
      `enable` and `clearEvents` does each reset. */
  lemma ResetIdempotent(m: Model, first: Call, second: Call, s: ServiceName)
    requires ResetsService(first, s) && ResetsService(second, s)
    ensures Step(Step(m, first), second).cache == Step(m, first).cache
  {
    assert Step(m, first).cache == Reset(m.cache, s);
    assert Step(Step(m, first), second).cache == Reset(Reset(m.cache, s), s);
  }

  /** `setRecording(b, s)` sends exactly `setRecording(b, s)`, leaves the cache alone and
      dispatches nothing; the change of recording state is reported only by
      `recordingStateChanged`, which dispatches exactly `{isRecording, serviceName}`
      and sends nothing. */
  lemma RecordingEffects(m: Model, b: bool, s: ServiceName)
    ensures var r := Step(m, Call.SetRecording(b, s));
      && r.cache == m.cache
      && RequestsOf(r.requests) == RequestsOf(m.requests) + [Request.SetRecording(b, s)]
      && r.notifications == m.notifications
    ensures var r := Step(m, Call.RecordingStateChanged(b, s));
      && r.cache == m.cache
      && r.requests == m.requests
      && NotificationsOf(r.notifications) == NotificationsOf(m.notifications) + [Notification.RecordingStateChanged(b, s)]
  {
    RequestsOfAppend(m.requests, [Sent(Request.SetRecording(b, s), m.cache)]);
    NotificationsOfAppend(m.notifications, [Dispatched(Notification.RecordingStateChanged(b, s), m.cache)]);
  }

  /** Receiving `e` appends it to the end of its service's list, leaves every other list
      alone, sends nothing, and dispatches exactly one notification, carrying `e`,
      at a moment when `e` is already the last event of its service. */
  lemma EventReceivedEffect(m: Model, e: Event)
    requires e.service in m.cache
    ensures var r := Step(m, Call.EventReceived(e));
      && Lookup(r.cache, e.service) == Lookup(m.cache, e.service) + [e]
      && (forall t :: t != e.service ==> Lookup(r.cache, t) == Lookup(m.cache, t))
      && r.requests == m.requests
      && |r.notifications| == |m.notifications| + 1
      && r.notifications[..|m.notifications|] == m.notifications
      && r.notifications[|m.notifications|].note == Notification.BackgroundServiceEventReceived(e)
      && Lookup(r.notifications[|m.notifications|].cacheThen, e.service) == Lookup(m.cache, e.service) + [e]
  {
    var r := Step(m, Call.EventReceived(e));
    assert r.notifications[..|m.notifications|] == m.notifications;
  }

  // ---------------------------------------------------------------------------
  // Properties of sequences of calls

  lemma {:induction false} RequestsOfAppend(a: seq<Sent>, b: seq<Sent>)
    ensures RequestsOf(a + b) == RequestsOf(a) + RequestsOf(b)
    decreases |a|
  {
    if a == [] {
      assert a + b == b;
    } else {
      assert (a + b)[1..] == a[1..] + b;
      RequestsOfAppend(a[1..], b);
    }
  }

  lemma {:induction false} NotificationsOfAppend(a: seq<Dispatched>, b: seq<Dispatched>)
    ensures NotificationsOf(a + b) == NotificationsOf(a) + NotificationsOf(b)
    decreases |a|
  {
    if a == [] {
      assert a + b == b;
    } else {
      assert (a + b)[1..] == a[1..] + b;
      NotificationsOfAppend(a[1..], b);
    }
  }

  /** A service no call of `calls` resets ends with its old list followed by exactly the
      events pushed for it, in arrival order; "old list" is the empty list when it had
      no entry. Entries only grow at the end: nothing is dropped, duplicated or reordered. */
  lemma {:induction false} RunLookup(m: Model, calls: seq<Call>, s: ServiceName)
    requires Runnable(m, calls)
    requires forall i :: 0 <= i < |calls| ==> !ResetsService(calls[i], s)
    ensures Lookup(Run(m, calls).cache, s) == Lookup(m.cache, s) + Received(calls, s)
    decreases |calls|
  {
    if calls != [] {
      var rest := calls[1..];
      assert !ResetsService(calls[0], s);
      forall i | 0 <= i < |rest| ensures !ResetsService(rest[i], s) {
        assert rest[i] == calls[i + 1];
      }
      RunLookup(Step(m, calls[0]), rest, s);
      assert Lookup(Run(m, calls).cache, s)
        == (Lookup(m.cache, s) + ReceivedBy(calls[0], s)) + Received(rest, s);
    }
  }

  /** After `enable(s)`, followed by any calls that do not reset `s` again (events for `s`
      and for other services, other services enabled or cleared, recording toggles),
      `getEvents(s)` is exactly the events pushed for `s`, in arrival order. */
  lemma EnableThenReceive(m: Model, s: ServiceName, calls: seq<Call>)
    requires Runnable(m, [Call.Enable(s)] + calls)
    requires forall i :: 0 <= i < |calls| ==> !ResetsService(calls[i], s)
    ensures Lookup(Run(m, [Call.Enable(s)] + calls).cache, s) == Received(calls, s)
  {
    var all := [Call.Enable(s)] + calls;
    assert all[1..] == calls;
    RunLookup(Step(m, Call.Enable(s)), calls, s);
  }

  /** The events of `events` that belong to `s`, when all of them do, are all of them. */
  lemma {:induction false} ReceivedAll(events: seq<Event>, s: ServiceName, calls: seq<Call>)
    requires |calls| == |events|
    requires forall i :: 0 <= i < |calls| ==> calls[i] == Call.EventReceived(events[i])
    requires forall i :: 0 <= i < |events| ==> events[i].service == s
    ensures Received(calls, s) == events
    decreases |calls|
  {
    if calls != [] {
      ReceivedAll(events[1..], s, calls[1..]);
    }
  }

  /** `enable(s)` and then the pushes `e1..en`, all for `s`: `getEvents(s)` is `[e1..en]`. */
  lemma EnableThenReceiveOnly(m: Model, s: ServiceName, events: seq<Event>, calls: seq<Call>)
    requires |calls| == |events|
    requires forall i :: 0 <= i < |calls| ==> calls[i] == Call.EventReceived(events[i])
    requires forall i :: 0 <= i < |events| ==> events[i].service == s
    requires Runnable(m, [Call.Enable(s)] + calls)
    ensures Lookup(Run(m, [Call.Enable(s)] + calls).cache, s) == events
  {
    forall i | 0 <= i < |calls| ensures !ResetsService(calls[i], s) {
      assert calls[i] == Call.EventReceived(events[i]);
    }
    EnableThenReceive(m, s, calls);
    ReceivedAll(events, s, calls);
  }

  /** A service has an entry after a run exactly when it had one before or some call
      of the run enabled or cleared it; pushed events never create an entry. */
  lemma {:induction false} RunKeys(m: Model, calls: seq<Call>)
    requires Runnable(m, calls)
    ensures Run(m, calls).cache.Keys == m.cache.Keys + ResetServices(calls)
    decreases |calls|
  {
    if calls != [] {
      RunKeys(Step(m, calls[0]), calls[1..]);
    }
  }

  /** One call adds exactly its own requests and notifications to the end of the logs. */
  lemma StepLogs(m: Model, call: Call)
    requires Accepts(m.cache, call)
    ensures var n := Step(m, call);
      && |m.requests| <= |n.requests| && n.requests[..|m.requests|] == m.requests
      && |m.notifications| <= |n.notifications| && n.notifications[..|m.notifications|] == m.notifications
      && RequestsOf(n.requests) == RequestsOf(m.requests) + Requests(call)
      && NotificationsOf(n.notifications) == NotificationsOf(m.notifications) + Notifications(call)
  {
    var n := Step(m, call);
    var sent := n.requests[|m.requests|..];
    var dispatched := n.notifications[|m.notifications|..];
    assert n.requests == m.requests + sent;
    assert n.notifications == m.notifications + dispatched;
    RequestsOfAppend(m.requests, sent);
    NotificationsOfAppend(m.notifications, dispatched);
    match call
    case Enable(_) =>
    case SetRecording(_, _) =>
    case ClearEvents(_) =>
    case RecordingStateChanged(_, _) =>
    case EventReceived(_) =>
  }

  /** A run sends exactly the requests of its outbound calls, in call order, and keeps
      the requests sent before it. */
  lemma {:induction false} RunRequests(m: Model, calls: seq<Call>)
    requires Runnable(m, calls)
    ensures RequestsOf(Run(m, calls).requests) == RequestsOf(m.requests) + AllRequests(calls)
    ensures |m.requests| <= |Run(m, calls).requests| && Run(m, calls).requests[..|m.requests|] == m.requests
    decreases |calls|
  {
    if calls != [] {
      var n := Step(m, calls[0]);
      StepLogs(m, calls[0]);
      RunRequests(n, calls[1..]);
      var r := Run(m, calls);
      assert r == Run(n, calls[1..]);
      assert RequestsOf(r.requests) == (RequestsOf(m.requests) + Requests(calls[0])) + AllRequests(calls[1..]);
      assert r.requests[..|m.requests|] == r.requests[..|n.requests|][..|m.requests|];
    }
  }

  /** A run dispatches exactly the notifications of its inbound calls, in call order,
      and keeps the notifications dispatched before it. */
  lemma {:induction false} RunNotifications(m: Model, calls: seq<Call>)
    requires Runnable(m, calls)
    ensures NotificationsOf(Run(m, calls).notifications) == NotificationsOf(m.notifications) + AllNotifications(calls)
    ensures |m.notifications| <= |Run(m, calls).notifications| && Run(m, calls).notifications[..|m.notifications|] == m.notifications
    decreases |calls|
  {
    if calls != [] {
      var n := Step(m, calls[0]);
      StepLogs(m, calls[0]);
      RunNotifications(n, calls[1..]);
      var r := Run(m, calls);
      assert r == Run(n, calls[1..]);
      assert NotificationsOf(r.notifications)
        == (NotificationsOf(m.notifications) + Notifications(calls[0])) + AllNotifications(calls[1..]);
      assert r.notifications[..|m.notifications|] == r.notifications[..|n.notifications|][..|m.notifications|];
    }
  }

  /** Every event notification of a run, whatever the other calls, is dispatched after
      its event is appended: the invariant `EventsVisibleAtDispatch` is kept by every run. */
  lemma {:induction false} RunKeepsEventsVisible(m: Model, calls: seq<Call>)
    requires Runnable(m, calls)
    requires EventsVisibleAtDispatch(m.notifications)
    ensures EventsVisibleAtDispatch(Run(m, calls).notifications)
    decreases |calls|
  {
    if calls != [] {
      var n := Step(m, calls[0]);
      forall i | 0 <= i < |n.notifications| && n.notifications[i].note.BackgroundServiceEventReceived?
        ensures SeesOwnEvent(n.notifications[i])
      {
        if i < |m.notifications| {
          assert n.notifications[i] == m.notifications[i];
        }
      }
      RunKeepsEventsVisible(n, calls[1..]);
    }
  }

  /** A freshly constructed model answers `getEvents` with the empty list for every service,
      and every run from it keeps event notifications visible at dispatch. */
  lemma InitialRuns(calls: seq<Call>)
    requires Runnable(Initial(), calls)
    ensures EventsVisibleAtDispatch(Run(Initial(), calls).notifications)
    ensures Run(Initial(), calls).cache.Keys == ResetServices(calls)
  {
    RunKeepsEventsVisible(Initial(), calls);
    RunKeys(Initial(), calls);
  }
  /** Running `a` and then `b` is running `a + b`: the sequence can be taken in two
      parts, and it runs exactly when both parts run in turn. */
  lemma {:induction false} RunAppend(m: Model, a: seq<Call>, b: seq<Call>)
    ensures Runnable(m, a + b) <==> Runnable(m, a) && Runnable(Run(m, a), b)
    ensures Runnable(m, a + b) ==> Run(m, a + b) == Run(Run(m, a), b)
    decreases |a|
  {
    if a == [] {
      assert a + b == b;
    } else {
      assert (a + b)[0] == a[0];
      assert (a + b)[1..] == a[1..] + b;
      if Accepts(m.cache, a[0]) {
        RunAppend(Step(m, a[0]), a[1..], b);
      }
    }
  }

  /** One more call at the end of a run is one more `Step`: this is how calls on one
      object, each specified by `Step`, add up to a `Run`. */
  lemma RunSnoc(m: Model, calls: seq<Call>, call: Call)
    requires Runnable(m, calls)
    requires Accepts(Run(m, calls).cache, call)
    ensures Runnable(m, calls + [call])
    ensures Run(m, calls + [call]) == Step(Run(m, calls), call)
  {
    var n := Run(m, calls);
    assert [call][0] == call && [call][1..] == [];
    assert Runnable(Step(n, call), []);
    assert Runnable(n, [call]);
    assert Run(n, [call]) == Run(Step(n, call), []) == Step(n, call);
    RunAppend(m, calls, [call]);
  }

  /** A service that a run from a new model never enabled or cleared has no events. */
  lemma NeverResetIsEmpty(calls: seq<Call>, s: ServiceName)
    requires Runnable(Initial(), calls)
    requires s !in ResetServices(calls)
    ensures Lookup(Run(Initial(), calls).cache, s) == []
  {
    InitialRuns(calls);
  }

  /** Pushes for a service that has an entry can always be taken. */
  lemma {:induction false} ReceivesRunnable(m: Model, s: ServiceName, calls: seq<Call>)
    requires s in m.cache
    requires forall i :: 0 <= i < |calls| ==> calls[i].EventReceived? && calls[i].event.service == s
    ensures Runnable(m, calls)
    decreases |calls|
  {
    if calls != [] {
      var n := Step(m, calls[0]);
      assert n.cache.Keys == m.cache.Keys;
      forall i | 0 <= i < |calls[1..]|
        ensures calls[1..][i].EventReceived? && calls[1..][i].event.service == s
      {
        assert calls[1..][i] == calls[i + 1];
      }
      ReceivesRunnable(n, s, calls[1..]);
    }
  }
}
