# Call forwarding with answering-machine detection, in Dafny

This project models the webhook decision logic of two small telephony
applications that forward a call with answering-machine detection (AMD):

- **Task-routing variant** (`tr_with_amd.py`, module `TaskRouter`, with the
  workspace bookkeeping in module `Workspaces`). An inbound call is enqueued.
  The task router reserves a worker, and `assign` dials that worker with AMD.
  The call is recorded in the pending-call table under the task SID. The
  outbound call's status callbacks (`outbound`) do four things:
  - clear that entry;
  - reject the reservation, with a follow-up activity, when a machine, a
    failure, a busy line or no answer is reported;
  - dial the queue with the reservation when a person answers;
  - start the cool-down timer that puts the worker back to Idle.

  A `task.canceled` event cancels the pending call. The dashboard toggle
  (`process_update`) sets a worker Idle or Offline.
- **Conference variant** (`forward_amd.py`, module `Conference`). The inbound
  call is parked in a conference named after its call SID while the
  destination is dialed. When a person answers, `outbound` joins them to the
  conference if it is still in progress, and hangs up otherwise. When a
  machine answers or nobody is reached, the caller is redirected to the
  not-available message. The settings page (`index`) updates the caller id
  and destination number.
- **Configuration** (`config.py`, module `Config`). The server URL is the first
  public tunnel URL. The server name is that URL sliced from
  `find("://") + 3`, exactly as Python computes it.

Shared values are in module `Webhook`: optional parameters, `Response`,
`Command` and `Outcome`. Every provider REST call is modelled as a `Command`
value in the list a handler returns: create, cancel or redirect a call,
reject a reservation, set a worker's activity, start the Idle timer, push to
the dashboard. The provider's answers are inputs:
- the new call's SID, or its absence when creation fails;
- the list of in-progress conferences, or a provider error.

The pending-call table is a `map` field of class `TaskRouterApp`.
`Assign` and `Outbound` update it in place, each tied to a step function
over the old table. The conference settings are fields of class
`ConferenceApp`, which `Index` updates.

Behaviour of the code worth noting:
- `assign` overwrites an existing entry for the task.
- `cancel_call` cancels the pending call but does not remove its entry.
  The entry is removed by the next `outbound` callback for the task.
- `outbound` acts on every callback, including one for an entry that is
  already gone.
- Only `AnsweredBy == "machine_start"` counts as a machine; `fax`, `human`,
  `unknown` and an absent value are all treated as a person.
- The table key is the task SID *as received*, so it may be absent
  (Python's `None`). `assign` without a `TaskSid` records the call under
  `None`, and `outbound` or `cancel_call` without one finds it.
- A `worker.activity.update` event whose previous activity SID is not in the
  activity table raises an uncaught lookup error, so `trevents` answers
  500 then. Otherwise it answers 204.
- In `assign`, a missing `caller_id` task attribute, when no caller id is
  configured, is an uncaught lookup error: 500, no call, table unchanged.
- In `outbound` (task routing), a callback without `CallStatus` takes the
  final branch: reject with Temporarily Unavailable and start the Idle timer.
- Templates render an absent value as the text `None` (`Webhook.Render`).
- The conference variant has no pending-call table and no route that cancels
  the outbound call when the inbound call ends.

## Model

| member | source | states |
|---|---|---|
| `Config.Find` | config.py:26 | Python's `str.find`: -1 exactly when the pattern occurs nowhere; otherwise an index where it occurs, with no occurrence before it |
| `Config.SliceFrom` | config.py:26 | Python's `s[k:]`: always a suffix of `s`, of length `len(s) - k`, or empty once `k` passes the end |
| `Config.ServerUrl` | config.py:25 | present exactly when the URL list is non-empty, and then it is the first URL |
| `Config.ServerName` | config.py:26 | absent exactly when the server URL is absent or empty; otherwise always a suffix of the URL |
| `Config.ServerNameAfterScheme` | config.py:26 | when the URL contains `://`, the name is everything after its first occurrence |
| `Config.ServerNameWithoutScheme` | config.py:26 | when the URL has no `://`, `find` gives -1 and the name is the URL without its first two characters |
| `Config.ServerNameOfTunnel` | config.py:24-26 | for the tunnel list `https://abc.ngrok.io`, `http://abc.ngrok.io` the name is `abc.ngrok.io` |
| `Workspaces.OpenWorkspace` | tr_with_amd.py:39-57 | no workspace and no workflow fail with their own errors; otherwise the first workspace's first workflow, and the loop leaves the activity-by-SID and SID-by-name tables equal to "last write wins" over the activity list |
| `Workspaces.TabulateKeys` | tr_with_amd.py:53-57 | the tables' keys are exactly the SIDs (resp. names) of the listed activities |
| `Workspaces.TabulateLast` | tr_with_amd.py:53-57 | an activity not shadowed by a later one with the same key has its value in the table |
| `Workspaces.TabulateSource` | tr_with_amd.py:53-57 | every key maps to the value of the LAST activity carrying that key |
| `Workspaces.ActivityNamesComplete` | tr_with_amd.py:55-56 | with distinct SIDs, `activity_names[a.sid] == a.friendly_name` for every activity |
| `Workspaces.ActivityTablesInverse` | tr_with_amd.py:55-57 | with distinct SIDs, looking up the SID of a name and then the name of that SID gives the name back |
| `Workspaces.ResolveActivities` | tr_with_amd.py:77-83 | succeeds exactly when Offline, Idle and Temporarily Unavailable are all present, with their SIDs; otherwise reports the first of the three, in that order, that is missing from the table |
| `Workspaces.Startup` | tr_with_amd.py:74-85 | startup fails on a missing workspace, workflow or activity; on success the deployment holds the workspace's SID, its first workflow, the tables built by the loop and the three resolved activities |
| `Workspaces.MakeAgent` | tr_with_amd.py:25-34 | `online` holds exactly when the activity name is not `Offline`; `phone` is the attribute when present and `""` otherwise; the other fields are copied |
| `Workspaces.ListAgents` | tr_with_amd.py:92-96 | one agent per listed worker, in order, each derived from its worker |
| `TaskRouter.OutboundDecision` | tr_with_amd.py:237-273 | `completed`/`canceled`: 204 and nothing issued, whatever else is sent; a missing task, reservation or worker SID: 400 naming the first missing one, nothing issued; machine answer: hangup, exactly one reject with Temporarily Unavailable and exactly one Idle timer for the worker; any other answer: dial the queue with the reservation and Temporarily Unavailable, one Idle timer, no reject; `failed`: 204 and a single reject with Offline, no timer; any other status: 204, one reject with Temporarily Unavailable and one Idle timer |
| `TaskRouter.ReservationSettled` | tr_with_amd.py:247-273 | every callback that passes validation settles its reservation one way: the queue is dialed with it exactly when nothing is rejected, and any reject is of that reservation and happens once |
| `TaskRouter.WorkerRescheduled` | tr_with_amd.py:247-273 | a worker is scheduled back to Idle, exactly once, exactly when it is left Temporarily Unavailable (rejected or dialed); a worker set Offline gets no timer |
| `TaskRouter.OutboundStep` | tr_with_amd.py:234-235 | after any callback, also on the 400 paths, its task SID is no longer a key of the table and every other entry is unchanged |
| `TaskRouter.CallerIdFor` | tr_with_amd.py:188 | the configured caller id when set, else the task's `caller_id` attribute; absent exactly when neither exists |
| `TaskRouter.AssignStep` | tr_with_amd.py:173-210 | no `phone`: the reject instruction with Offline, no call, table unchanged; no caller id: 500, no call, table unchanged; otherwise exactly one call to the phone with the task/reservation/worker callback, and either 204 with the table entry for the task set (overwriting) to the new call, or 500 with the table unchanged |
| `TaskRouter.CancelCommands` | tr_with_amd.py:145-154 | a cancel for the task's pending call exactly when the task is a key; nothing otherwise |
| `TaskRouter.DashboardOutcome` | tr_with_amd.py:132-142 | an unknown previous activity SID is a 500 with nothing pushed; otherwise one push carrying the worker SID, worker name, activity SID and activity name from the event (`""` for an absent one) and the previous activity's name |
| `TaskRouter.TreventsOutcome` | tr_with_amd.py:116-129 | 204 for every event other than a worker update, and an event that is neither a worker update nor `task.canceled` issues nothing; a call is cancelled only on `task.canceled`, and then exactly as `cancel_call` does |
| `TaskRouter.ActivityFor` | tr_with_amd.py:162-164 | online selects Idle, offline selects Offline |
| `TaskRouter.DashboardToggleRoundTrip` | tr_with_amd.py:158-164 | with distinct activity SIDs, a worker put in the activity a toggle selects is shown by the dashboard as online exactly when the toggle asked for online |
| `TaskRouter.CancelledTaskScenario` | tr_with_amd.py:145-238 | assign, then `task.canceled`, then the late `canceled` callback twice: one cancel of the placed call, entry kept by the cancel, cleared by the first callback, both callbacks 204 with nothing issued, the second changing nothing |
| `TaskRouter.TaskRouterApp.constructor` | tr_with_amd.py:69-71 | the pending-call table starts empty |
| `TaskRouter.TaskRouterApp.Incoming` | tr_with_amd.py:104-112 | enqueue into the workspace's workflow with the caller's number, rendered as `None` when absent |
| `TaskRouter.TaskRouterApp.Assign` | tr_with_amd.py:169-210 | updates the table in place as `AssignStep` says, returning its outcome |
| `TaskRouter.TaskRouterApp.Outbound` | tr_with_amd.py:213-273 | pops the task's entry in place, then answers as `OutboundDecision` |
| `TaskRouter.TaskRouterApp.CancelPendingCall` | tr_with_amd.py:145-154 | reads the table without changing it; cancel for the task's call exactly when present |
| `TaskRouter.TaskRouterApp.Trevents` | tr_with_amd.py:115-129 | dispatches on the event type as `TreventsOutcome`, never changing the table |
| `TaskRouter.TaskRouterApp.ProcessUpdate` | tr_with_amd.py:157-166 | sets the worker to the activity `ActivityFor` selects |
| `TaskRouter.TaskRouterApp.RescheduleAgent` | tr_with_amd.py:286-293 | the timer sets the worker to Idle |
| `Conference.ConferenceIsActive` | forward_amd.py:108-115 | true exactly when the in-progress list for the name is non-empty; false on a provider error |
| `Conference.OutboundDecision` | forward_amd.py:62-94 | missing `InboundSid`: 400 and no redirect, whatever the status; machine answer: hangup and exactly one redirect of the inbound call to `not_available.xml`; other answer: no redirect, join the conference named by the inbound SID when it is active, hangup otherwise; `busy`/`failed`/`no-answer`/`canceled`: 204 and exactly one redirect; any other status: 204 and nothing; the only command ever issued is that redirect |
| `Conference.JoinsOnlyLiveConference` | forward_amd.py:78-88 | the response joins a conference exactly when a non-machine answer finds the conference active, and then it is the inbound caller's conference |
| `Conference.RedirectsOnlyWhenUnavailable` | forward_amd.py:78-94 | the caller is redirected to the not-available message exactly when a machine answered or nobody was reached |
| `Conference.ChooseCallerId` | forward_amd.py:46 | the configured caller id when set and non-empty, else the inbound caller's number |
| `Conference.ConferenceApp.constructor` | config.py:13-17 | settings start at the configured caller id and destination number |
| `Conference.ConferenceApp.Index` | forward_amd.py:25-32 | a POST stores the submitted caller id and destination number; a GET leaves both; the page shows the current values |
| `Conference.ConferenceApp.Inbound` | forward_amd.py:35-59 | exactly one call to the destination, from the chosen caller id, whose callbacks carry the inbound SID; the caller is parked in the conference named by that SID, or 500 when creation fails |
| `Conference.ConferenceApp.ParkedAndJoinedInSameConference` | forward_amd.py:35-88 | after parking, a person's answer on a live conference joins the very conference the caller was parked in, with nothing redirected |
| `Conference.ConferenceApp.ParkedAndMachineAnswered` | forward_amd.py:35-81 | after parking, a machine answer hangs up and redirects the parked caller to the not-available message |

## Left out

- Flask routing, request parsing and template rendering. Responses are the
  `Response` datatype, and request parameters are record fields.
- JSON decoding of the worker and task attributes. They are given as decoded
  string-to-string maps. A malformed payload, or a non-string `phone`, is not
  modelled.
- An `assign` request without `WorkerAttributes` or `TaskAttributes` fails
  in JSON decoding before the phone check, which answers 500; the model's
  `AssignRequest` always carries both maps, so this 500 is not modelled.
- The provider's REST client. Each call is an emitted `Command`; the
  provider's answers are inputs.
- Failures of the housekeeping calls are only logged by the source, so the
  outcome does not depend on them. This covers reject, reschedule, redirect,
  cancel and worker update.
- `threading.Timer`, the cool-down duration and the timer thread. The model
  records only that an Idle timer was started for a worker.
  `TaskRouterApp.RescheduleAgent` is what the timer issues when it fires.
- The SocketIO push itself, and the rendering of both dashboards. A failed
  worker listing on the task-routing dashboard (a 500) is not modelled.
- A malformed dashboard message to `process_update` (a missing key) is not
  modelled.
- Startup provider errors (`sys.exit` with the provider's message) are not
  modelled. The workspace listing is an input.
- Copying `SERVER_NAME` into the Flask configuration, `app.run` and
  `socketio.run`, and the ngrok API query in `ngrok.py`. Its URL list is the
  input of `Config.ServerUrl`.
- Configuration names that `config.py` does not define become parameters:
  - the task-routing caller id (`TaskRouterApp.configuredCallerId`, empty
    when unset);
  - the workspace name (`Workspaces.Startup`'s `name`);
  - the cool-down interval;
  - the credentials.
- Concurrency: races between webhook deliveries on the pending-call table.
  The table is modelled sequentially.
