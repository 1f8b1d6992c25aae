/** BackgroundServiceModel, the object a DevTools target owns: the `_events` map is a
    field that the methods update in place; the calls it makes on the backend agent and
    the notifications it dispatches to listeners are kept as ghost logs. Every method is
    specified by `EventCache.Step`; `Replay` shows that any sequence of calls on one
    object leaves it in the state `EventCache.Run` gives, so what is proved about runs
    holds of the object. */
module Resources {
  import opened EventCache

  class BackgroundServiceModel {
    /** `_events`: service name to its buffered events, oldest first. */
    var events: Cache
    /** The requests sent to the backend agent, oldest first. */
    ghost var requests: seq<Sent>
    /** The notifications dispatched to listeners, oldest first. */
    ghost var notifications: seq<Dispatched>

    /** The object's state as a value of the specification. */
    ghost function State(): Model
      reads this
    {
      Model(events, requests, notifications)
    }

    /** A new model starts with an empty `_events` map and has sent and dispatched nothing. */
    constructor ()
      ensures State() == Initial()
      ensures events == map[]
      ensures requests == [] && notifications == []
    {
      events := map[];
      requests := [];
      notifications := [];
    }

    /** `enable`: reset the list of `serviceName` to empty, then ask the agent to start observing. */
    method Enable(serviceName: ServiceName)
      modifies this
      ensures State() == Step(old(State()), Call.Enable(serviceName))
      ensures events == old(events)[serviceName := []]
      ensures requests == old(requests) + [Sent(Request.StartObserving(serviceName), events)]
      ensures notifications == old(notifications)
    {
      events := events[serviceName := []];
      requests := requests + [Sent(Request.StartObserving(serviceName), events)];
    }

    /** `setRecording`: forward the toggle to the agent; the cache and the listeners are not touched. */
    method SetRecording(shouldRecord: bool, serviceName: ServiceName)
      modifies this
      ensures State() == Step(old(State()), Call.SetRecording(shouldRecord, serviceName))
      ensures events == old(events)
      ensures requests == old(requests) + [Sent(Request.SetRecording(shouldRecord, serviceName), events)]
      ensures notifications == old(notifications)
    {
      requests := requests + [Sent(Request.SetRecording(shouldRecord, serviceName), events)];
    }

    /** `clearEvents`: reset the list of `serviceName` to empty, then ask the agent to clear its own. */
    method ClearEvents(serviceName: ServiceName)
      modifies this
      ensures State() == Step(old(State()), Call.ClearEvents(serviceName))
      ensures events == old(events)[serviceName := []]
      ensures requests == old(requests) + [Sent(Request.ClearEvents(serviceName), events)]
      ensures notifications == old(notifications)
    {
      events := events[serviceName := []];
      requests := requests + [Sent(Request.ClearEvents(serviceName), events)];
    }

    /** `getEvents`: the buffered list of `serviceName`, or the empty list if it has no entry. */
    function GetEvents(serviceName: ServiceName): (r: seq<Event>)
      reads this
      ensures serviceName in events ==> r == events[serviceName]
      ensures serviceName !in events ==> r == []
    {
      Lookup(events, serviceName)
    }

    /** `recordingStateChanged`: dispatch `{isRecording, serviceName}`; the cache is not touched. */
    method RecordingStateChanged(isRecording: bool, serviceName: ServiceName)
      modifies this
      ensures State() == Step(old(State()), Call.RecordingStateChanged(isRecording, serviceName))
      ensures events == old(events)
      ensures requests == old(requests)
      ensures notifications == old(notifications)
        + [Dispatched(Notification.RecordingStateChanged(isRecording, serviceName), events)]
    {
      notifications := notifications
        + [Dispatched(Notification.RecordingStateChanged(isRecording, serviceName), events)];
    }

    /** `backgroundServiceEventReceived`: push the event onto the list of `event.service`,
        then dispatch it. The list must exist: the JavaScript class throws when it does not. */
    method BackgroundServiceEventReceived(event: Event)
      requires event.service in events
      modifies this
      ensures State() == Step(old(State()), Call.EventReceived(event))
      ensures events == old(events)[event.service := old(events)[event.service] + [event]]
      ensures requests == old(requests)
      ensures notifications == old(notifications)
        + [Dispatched(Notification.BackgroundServiceEventReceived(event), events)]
    {
      events := events[event.service := events[event.service] + [event]];
      notifications := notifications
        + [Dispatched(Notification.BackgroundServiceEventReceived(event), events)];
    }
  }

  /** A fresh model knows no service; after `enable(s)` and two events for `s`, `getEvents(s)`
      is those two events in arrival order; after `clearEvents(s)` it is empty again. */
  method EnableReceiveClear(s: ServiceName, first: Payload, second: Payload)
    returns (initially: seq<Event>, buffered: seq<Event>, afterClear: seq<Event>)
    ensures initially == []
    ensures buffered == [Event(s, first), Event(s, second)]
    ensures afterClear == []
  {
    var model := new BackgroundServiceModel();
    initially := model.GetEvents(s);
    model.Enable(s);
    model.BackgroundServiceEventReceived(Event(s, first));
    model.BackgroundServiceEventReceived(Event(s, second));
    buffered := model.GetEvents(s);
    model.ClearEvents(s);
    afterClear := model.GetEvents(s);
  }

  /** `setRecording(b, s)` leaves the events alone, and only the later `recordingStateChanged(b, s)`
      dispatches `{isRecording: b, serviceName: s}`. Enabling a service again drops what it had
      buffered, even without `clearEvents`. */
  method RecordingAndReenable(s: ServiceName, b: bool, p: Payload)
    returns (ghost afterSet: seq<Notification>, ghost afterChange: seq<Notification>,
             buffered: seq<Event>, afterReenable: seq<Event>)
    ensures afterSet == []
    ensures afterChange == [Notification.RecordingStateChanged(b, s)]
    ensures buffered == [Event(s, p)]
    ensures afterReenable == []
  {
    var model := new BackgroundServiceModel();
    model.Enable(s);
    model.SetRecording(b, s);
    afterSet := NotificationsOf(model.notifications);
    model.RecordingStateChanged(b, s);
    afterChange := NotificationsOf(model.notifications);
    assert |model.notifications| == 1 && model.notifications[1..] == [];
    model.BackgroundServiceEventReceived(Event(s, p));
    buffered := model.GetEvents(s);
    model.Enable(s);
    afterReenable := model.GetEvents(s);
  }

  /** Takes `calls` in order on one new object: its state is then `Run(Initial(), calls)`. */
  method Replay(calls: seq<Call>) returns (model: BackgroundServiceModel)
    requires Runnable(Initial(), calls)
    ensures fresh(model)
    ensures model.State() == Run(Initial(), calls)
  {
    model := new BackgroundServiceModel();
    var i := 0;
    while i < |calls|
      invariant 0 <= i <= |calls|
      invariant Runnable(Initial(), calls[..i])
      invariant model.State() == Run(Initial(), calls[..i])
    {
      var call := calls[i];
      assert calls[..i + 1] + calls[i + 1..] == calls;
      assert calls[..i] + [call] == calls[..i + 1];
      RunAppend(Initial(), calls[..i + 1], calls[i + 1..]);
      RunAppend(Initial(), calls[..i], [call]);
      assert [call][0] == call;
      RunSnoc(Initial(), calls[..i], call);
      match call {
        case Enable(s) => model.Enable(s);
        case SetRecording(b, s) => model.SetRecording(b, s);
        case ClearEvents(s) => model.ClearEvents(s);
        case RecordingStateChanged(b, s) => model.RecordingStateChanged(b, s);
        case EventReceived(e) => model.BackgroundServiceEventReceived(e);
      }
      i := i + 1;
    }
    assert calls[..|calls|] == calls;
  }

  /** On one object, `enable(s)` followed by the pushes `e1..en`, all for `s`,
      leaves `getEvents(s)` equal to `[e1..en]`, for every n. */
  method EnableThenReceiveOnObject(s: ServiceName, events: seq<Event>) returns (buffered: seq<Event>)
    requires forall i :: 0 <= i < |events| ==> events[i].service == s
    ensures buffered == events
  {
    var receives := seq(|events|, i requires 0 <= i < |events| => Call.EventReceived(events[i]));
    var calls := [Call.Enable(s)] + receives;
    assert calls[0] == Call.Enable(s) && calls[1..] == receives;
    ReceivesRunnable(Step(Initial(), Call.Enable(s)), s, receives);
    assert Runnable(Initial(), calls);
    EnableThenReceiveOnly(Initial(), s, events, receives);
    var model := Replay(calls);
    buffered := model.GetEvents(s);
  }
}
