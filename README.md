# BackgroundServiceModel in Dafny

This project models `BackgroundServiceModel`, the DevTools front-end model behind the
Background Services panel. One instance exists per connected target. It keeps `_events`, a
map from a background service name to the events received for that service, oldest first.
It forwards `enable`, `setRecording` and `clearEvents` to the target's background-service
agent. It takes two pushes from the backend: `recordingStateChanged` and
`backgroundServiceEventReceived`. Each push is republished to the model's listeners.

The model has two modules:

- `EventCache` (EventCache.dfy) is the specification, written on values. `Cache` is the
  `_events` map. `Request` is the type of calls on the agent. `Notification` is the type of
  dispatches to listeners, with the two tags of the `Events` enum of the JavaScript module. A `Model` holds
  the cache and two logs. Each log entry also records the cache as it stood when the request
  was sent or the notification was dispatched, so "reset before the request" and "append
  before the notification" can be stated. `Step` gives the effect of one call and `Run` the
  effect of a sequence of calls. The lemmas about `Run` cover arbitrary interleavings of all
  five state-changing operations.
- `Resources` (Resources.dfy) is the class `BackgroundServiceModel`. It has a mutable
  `events` map field and ghost `requests` and `notifications` logs. Each method states its
  exact new state and also `State() == Step(old(State()), …)`. The client method `Replay`
  takes any sequence of calls on one object and ends in the state `Run` gives (through
  `RunSnoc`), so the lemmas about `Run` hold of the object. Three more client methods run
  short scenarios on one object.

`ServiceName` and `Payload` are opaque types. An `Event` is routed by its `service` field
and by nothing else, because the code reads no other field.

Three facts about the code a reader might not expect:

- The routing key is `event.service` (line 68), not `serviceName`.
- `clearEvents` creates an entry just as `enable` does (line 42). So a service has an entry
  exactly when it was enabled or cleared at least once (`RunKeys`).
- Pushing an event for a service with no entry throws, because
  `this._events.get(...)` is `undefined`. The model makes this a precondition
  (`Accepts`, and the `requires` on `BackgroundServiceEventReceived`). It does not create
  the entry lazily.

## Model

| member | source | states |
|---|---|---|
| `EventCache.Reset` | devtools-frontend/front_end/resources/BackgroundServiceModel.js:26 | after `_events.set(s, [])`, `s` has an empty entry, the key set gains only `s`, and every other service reads as before |
| `EventCache.Append` | devtools-frontend/front_end/resources/BackgroundServiceModel.js:68 | the push is defined only when `e.service` has an entry; the entry becomes the old list with `e` at the end; no key is added; every other service reads as before |
| `EventCache.Initial` | devtools-frontend/front_end/resources/BackgroundServiceModel.js:19 | a new model has no entries, `getEvents` gives the empty list for every service, and both logs are empty |
| `EventCache.Lookup` | devtools-frontend/front_end/resources/BackgroundServiceModel.js:50-52 | `getEvents` on values: the stored list of a service that has an entry, the empty list (not an error) for one that has none |
| `EventCache.Accepts` | devtools-frontend/front_end/resources/BackgroundServiceModel.js:67-68 | the only call the model cannot take is a push for a service with no entry (where `this._events.get(...).push` throws); every other call is always taken |
| `EventCache.Step` | devtools-frontend/front_end/resources/BackgroundServiceModel.js:25-70 | the effect of each of the five calls; keys are added only by `enable`/`clearEvents` of that service; each log grows at its end by exactly the requests sent or the notifications dispatched, and older entries are kept |
| `EventCache.EnableEffect` | devtools-frontend/front_end/resources/BackgroundServiceModel.js:25-28 | `enable(s)` empties the list of `s` whatever it held and leaves other services alone; it sends exactly `startObserving(s)`, and the cache at that moment already has the reset; it dispatches nothing |
| `EventCache.ClearEventsEffect` | devtools-frontend/front_end/resources/BackgroundServiceModel.js:41-44 | `clearEvents(s)` empties the list of `s` and leaves other services alone; it sends exactly `clearEvents(s)` after the reset; it dispatches nothing |
| `EventCache.ResetIdempotent` | devtools-frontend/front_end/resources/BackgroundServiceModel.js:26-42 | two resets of `s`, by `enable` or `clearEvents` in any combination, leave the same cache as one |
| `EventCache.RecordingEffects` | devtools-frontend/front_end/resources/BackgroundServiceModel.js:34-61 | `setRecording(b, s)` sends exactly `setRecording(b, s)`, leaves the cache alone and dispatches nothing; `recordingStateChanged(b, s)` dispatches exactly `{isRecording: b, serviceName: s}`, sends nothing and leaves the cache alone |
| `EventCache.EventReceivedEffect` | devtools-frontend/front_end/resources/BackgroundServiceModel.js:67-70 | receiving `e` appends it at the end of its service's list and leaves other lists alone; it dispatches exactly one notification, carrying `e`, when `e` is already the last event of its service; it sends nothing |
| `EventCache.RunLookup` | devtools-frontend/front_end/resources/BackgroundServiceModel.js:50-68 | across any run that never resets `s`, the list of `s` becomes its old list followed by exactly the events pushed for `s`, in arrival order |
| `EventCache.EnableThenReceive` | devtools-frontend/front_end/resources/BackgroundServiceModel.js:26-68 | after `enable(s)` and any calls that do not reset `s` again, `getEvents(s)` is exactly the events pushed for `s`, in arrival order |
| `EventCache.EnableThenReceiveOnly` | devtools-frontend/front_end/resources/BackgroundServiceModel.js:26-68 | after `enable(s)` and the pushes `e1..en`, all for `s`, `getEvents(s)` is `[e1..en]` |
| `EventCache.RunKeys` | devtools-frontend/front_end/resources/BackgroundServiceModel.js:26-68 | after a run, a service has an entry exactly when it had one before or the run enabled or cleared it; pushes never create entries |
| `EventCache.StepLogs` | devtools-frontend/front_end/resources/BackgroundServiceModel.js:27-69 | one call adds exactly its own request (outbound calls) or notification (inbound calls) at the end of the logs and keeps the older entries |
| `EventCache.RunRequests` | devtools-frontend/front_end/resources/BackgroundServiceModel.js:27-43 | a run sends exactly the requests of its outbound calls (`startObserving`, `setRecording`, `clearEvents`), in call order, and keeps the requests sent before it |
| `EventCache.RunNotifications` | devtools-frontend/front_end/resources/BackgroundServiceModel.js:60-69 | a run dispatches exactly the notifications of its inbound calls (`recordingStateChanged`, `backgroundServiceEventReceived`), in call order, and keeps the notifications dispatched before it |
| `EventCache.RunKeepsEventsVisible` | devtools-frontend/front_end/resources/BackgroundServiceModel.js:68-69 | every run keeps the invariant that each event notification was dispatched when its event was already the last buffered event of its service |
| `EventCache.InitialRuns` | devtools-frontend/front_end/resources/BackgroundServiceModel.js:19-69 | from a new model, every run gives entries exactly for the services it enabled or cleared, and a listener of every event notification sees that event in `getEvents` |
| `EventCache.NeverResetIsEmpty` | devtools-frontend/front_end/resources/BackgroundServiceModel.js:50-52 | from a new model, `getEvents(s)` is empty after any run that never enabled or cleared `s` |
| `EventCache.ReceivesRunnable` | devtools-frontend/front_end/resources/BackgroundServiceModel.js:68 | pushes for a service that has an entry never throw, however many arrive |
| `EventCache.RunAppend` | devtools-frontend/front_end/resources/BackgroundServiceModel.js:25-70 | running `a` then `b` is running `a + b`, and `a + b` can be taken exactly when `a` can and then `b` can |
| `EventCache.RunSnoc` | devtools-frontend/front_end/resources/BackgroundServiceModel.js:25-70 | one more call at the end of a run is one more `Step`, which is how calls on one object add up to a run |
| `Resources.BackgroundServiceModel.constructor` | devtools-frontend/front_end/resources/BackgroundServiceModel.js:13-20 | a new model has an empty `_events` map and empty logs (`Initial`) |
| `Resources.BackgroundServiceModel.Enable` | devtools-frontend/front_end/resources/BackgroundServiceModel.js:25-28 | sets the entry of `serviceName` to empty, logs `startObserving(serviceName)` with the already-reset cache, dispatches nothing; equal to `Step` on `Enable` |
| `Resources.BackgroundServiceModel.SetRecording` | devtools-frontend/front_end/resources/BackgroundServiceModel.js:34-36 | leaves `events` and the notifications as they were and logs exactly `setRecording(shouldRecord, serviceName)`; equal to `Step` on `SetRecording` |
| `Resources.BackgroundServiceModel.ClearEvents` | devtools-frontend/front_end/resources/BackgroundServiceModel.js:41-44 | sets the entry of `serviceName` to empty, logs `clearEvents(serviceName)` with the already-reset cache, dispatches nothing; equal to `Step` on `ClearEvents` |
| `Resources.BackgroundServiceModel.GetEvents` | devtools-frontend/front_end/resources/BackgroundServiceModel.js:50-52 | the stored list of a service with an entry, or the empty list for a service without one; never fails |
| `Resources.BackgroundServiceModel.RecordingStateChanged` | devtools-frontend/front_end/resources/BackgroundServiceModel.js:59-61 | leaves `events` and the requests as they were and dispatches exactly `RecordingStateChanged {isRecording, serviceName}`; equal to `Step` on `RecordingStateChanged` |
| `Resources.BackgroundServiceModel.BackgroundServiceEventReceived` | devtools-frontend/front_end/resources/BackgroundServiceModel.js:67-70 | requires an entry for `event.service`; that entry becomes the old list plus the event, and nothing else in `events` changes; dispatches exactly `BackgroundServiceEventReceived(event)` with the updated cache; sends nothing |
| `Resources.EnableReceiveClear` | devtools-frontend/front_end/resources/BackgroundServiceModel.js:19-70 | on one object: `getEvents(s)` is empty when new, is the two pushed events in order after `enable(s)` and two pushes, and is empty again after `clearEvents(s)` |
| `Resources.RecordingAndReenable` | devtools-frontend/front_end/resources/BackgroundServiceModel.js:25-70 | on one object: the notification log stays empty after `setRecording(b, s)` and holds exactly `RecordingStateChanged {isRecording: b, serviceName: s}` after `recordingStateChanged(b, s)` (ghost results); a buffered event is there after a push and gone after a second `enable(s)` without `clearEvents` |
| `Resources.Replay` | devtools-frontend/front_end/resources/BackgroundServiceModel.js:25-70 | taking any sequence of calls that do not throw, in order, on one new object leaves it in the state `Run(Initial(), calls)` |
| `Resources.EnableThenReceiveOnObject` | devtools-frontend/front_end/resources/BackgroundServiceModel.js:25-68 | on one object, `enable(s)` followed by pushes `e1..en`, all for `s`, gives `getEvents(s) == [e1..en]`, for every n |

## Left out

- The backend agent and its transport (`backgroundServiceAgent()`, and the calls `startObserving`, `setRecording` and `clearEvents` on it, lines 15, 27, 35, 43). The model records these calls in the `requests` log. Their asynchronous results, including failures, are not modelled, because the code neither awaits nor handles them.
- Dispatcher and model registration (`registerBackgroundServiceDispatcher` at line 16, `SDK.SDKModel.register` at line 73). This is global-registry plumbing outside the class.
- Listener management and invocation (`dispatchEventToListeners`, inherited from `SDK.SDKModel`). That code is not part of this model. A dispatch is one entry in the `notifications` log, and listener order is not modelled.
- The legacy globals and typedefs (lines 81-96). The `Events` enum (lines 76-79) appears only as the two constructors of `Notification`.
- Event payload fields other than `service`. The code never reads them, so `Payload` is opaque.
- Resources.BackgroundServiceModel.GetEvents: the JavaScript method returns the live stored array, so a caller could change the cache through it. The model returns a `seq` value, so that aliasing is not captured.
