/** The task-routing variant: an inbound call is enqueued, the task router
    reserves a worker, the application dials the worker with answering-machine
    detection, and the outbound call's status callbacks decide whether the
    reservation is accepted (by dialing the queue) or rejected.

    The decision logic is given as functions over the pending-call table; the
    class `TaskRouterApp` holds the table and updates it in place. */
module TaskRouter {
  import opened Webhook
  import opened Workspaces

  /** The pending-call table: task SID (possibly absent) to outbound call SID. */
  type Table = map<Option<string>, string>

  /** Parameters of a status callback from the outbound call to a worker. */
  datatype OutboundCallback = OutboundCallback(
    taskSid: Option<string>,
    reservationSid: Option<string>,
    workerSid: Option<string>,
    callSid: Option<string>,
    callStatus: Option<string>,
    answeredBy: Option<string>)

  /** Parameters of the task router's assignment callback; the two attribute
      payloads are given decoded. */
  datatype AssignRequest = AssignRequest(
    workerAttributes: map<string, string>,
    taskAttributes: map<string, string>,
    reservationSid: Option<string>,
    taskSid: Option<string>,
    workerSid: Option<string>)

  /** Parameters of a task-router event callback. */
  datatype RouterEvent = RouterEvent(
    eventType: Option<string>,
    taskSid: Option<string>,
    workerSid: Option<string>,
    workerName: Option<string>,
    activitySid: Option<string>,
    activityName: Option<string>,
    previousActivitySid: Option<string>)

  /** A dashboard toggle: put the worker online (Idle) or offline. */
  datatype StatusUpdate = StatusUpdate(workerSid: string, online: bool)

  /** A handler's effect on the pending-call table together with its outcome. */
  datatype Step = Step(table: Table, outcome: Outcome)

  /** The callback reports a call that is over: no reservation handling follows. */
  predicate CallEnded(status: Option<string>) {
    status == Some("completed") || status == Some("canceled")
  }

  /** The callback gets past the early returns and the parameter checks. */
  predicate Actionable(cb: OutboundCallback) {
    !CallEnded(cb.callStatus) && cb.taskSid.Some? && cb.reservationSid.Some? && cb.workerSid.Some?
  }

  predicate Answered(cb: OutboundCallback) {
    cb.callStatus == Some("in-progress")
  }

  predicate AnsweredByMachine(cb: OutboundCallback) {
    cb.answeredBy == Some(MachineStart)
  }

  /** The `outbound` decision once the table entry is cleared. */
  function OutboundDecision(cb: OutboundCallback, acts: Activities): (r: Outcome)
    ensures CallEnded(cb.callStatus) ==> r.response == NoContent && r.commands == []
    ensures !CallEnded(cb.callStatus) && cb.taskSid.None? ==>
      r.response == BadRequest("Missing TaskSid") && r.commands == []
    ensures !CallEnded(cb.callStatus) && cb.taskSid.Some? && cb.reservationSid.None? ==>
      r.response == BadRequest("Missing ReservationSid") && r.commands == []
    ensures !CallEnded(cb.callStatus) && cb.taskSid.Some? && cb.reservationSid.Some? && cb.workerSid.None? ==>
      r.response == BadRequest("Missing WorkerSid") && r.commands == []
    ensures Actionable(cb) && Answered(cb) && AnsweredByMachine(cb) ==>
      var reject := RejectReservation(cb.taskSid.value, cb.reservationSid.value, acts.tempUnavailable);
      r.response == Hangup && |r.commands| == 2 &&
      ExactlyOnce(r.commands, reject) && ExactlyOnce(r.commands, ScheduleIdle(cb.workerSid.value))
    ensures Actionable(cb) && Answered(cb) && !AnsweredByMachine(cb) ==>
      r.response == DialQueue(cb.reservationSid.value, acts.tempUnavailable) &&
      r.commands == [ScheduleIdle(cb.workerSid.value)]
    ensures Actionable(cb) && cb.callStatus == Some("failed") ==>
      r.response == NoContent &&
      r.commands == [RejectReservation(cb.taskSid.value, cb.reservationSid.value, acts.offline)]
    ensures Actionable(cb) && !Answered(cb) && cb.callStatus != Some("failed") ==>
      var reject := RejectReservation(cb.taskSid.value, cb.reservationSid.value, acts.tempUnavailable);
      r.response == NoContent && |r.commands| == 2 &&
      ExactlyOnce(r.commands, reject) && ExactlyOnce(r.commands, ScheduleIdle(cb.workerSid.value))
  {
    if CallEnded(cb.callStatus) then Outcome(NoContent, [])
    else if cb.taskSid.None? then Outcome(BadRequest("Missing TaskSid"), [])
    else if cb.reservationSid.None? then Outcome(BadRequest("Missing ReservationSid"), [])
    else if cb.workerSid.None? then Outcome(BadRequest("Missing WorkerSid"), [])
    else
      var task, reservation, worker := cb.taskSid.value, cb.reservationSid.value, cb.workerSid.value;
      if Answered(cb) then
        if AnsweredByMachine(cb) then
          Outcome(Hangup, [RejectReservation(task, reservation, acts.tempUnavailable), ScheduleIdle(worker)])
        else
          // Dialing the queue with the reservation SID accepts the reservation.
          Outcome(DialQueue(reservation, acts.tempUnavailable), [ScheduleIdle(worker)])
      else if cb.callStatus == Some("failed") then
        Outcome(NoContent, [RejectReservation(task, reservation, acts.offline)])
      else
        Outcome(NoContent, [RejectReservation(task, reservation, acts.tempUnavailable), ScheduleIdle(worker)])
  }

  /** Every actionable callback settles its reservation exactly one way: either
      the queue is dialed with it, or it is rejected, exactly once. */
  lemma ReservationSettled(cb: OutboundCallback, acts: Activities)
    requires Actionable(cb)
    ensures var r := OutboundDecision(cb, acts);
      (r.response.DialQueue? <==> NoRejection(r.commands)) &&
      (r.response.DialQueue? ==> r.response.reservationSid == cb.reservationSid.value) &&
      forall c :: c in r.commands && c.RejectReservation? ==>
        c.reservationSid == cb.reservationSid.value && c.taskSid == cb.taskSid.value && ExactlyOnce(r.commands, c)
  {
    var r := OutboundDecision(cb, acts);
    if !r.response.DialQueue? {
      assert r.commands[0] in r.commands;
    }
  }

  /** A worker left Temporarily Unavailable is always scheduled back to Idle;
      one set Offline never is. */
  lemma WorkerRescheduled(cb: OutboundCallback, acts: Activities)
    requires Actionable(cb)
    requires acts.offline != acts.tempUnavailable
    ensures var r := OutboundDecision(cb, acts);
      ((exists c :: c in r.commands && c.RejectReservation? && c.activitySid == acts.tempUnavailable)
         || r.response.DialQueue?)
      <==> ExactlyOnce(r.commands, ScheduleIdle(cb.workerSid.value))
    ensures var r := OutboundDecision(cb, acts);
      (exists c :: c in r.commands && c.RejectReservation? && c.activitySid == acts.offline) ==> NoTimer(r.commands)
  {
    var r := OutboundDecision(cb, acts);
    if (Answered(cb) && AnsweredByMachine(cb)) || (!Answered(cb) && cb.callStatus != Some("failed")) {
      assert r.commands[0] in r.commands;
    }
  }

  /** `outbound`: the callback's task entry is removed first, whatever follows,
      including on the 400 paths; every other entry is kept. */
  function OutboundStep(t: Table, cb: OutboundCallback, acts: Activities): (s: Step)
    ensures cb.taskSid !in s.table
    ensures forall k :: k != cb.taskSid ==> (k in s.table <==> k in t)
    ensures forall k :: k != cb.taskSid && k in t ==> s.table[k] == t[k]
    ensures s.outcome == OutboundDecision(cb, acts)
  {
    Step(t - {cb.taskSid}, OutboundDecision(cb, acts))
  }

  /** The caller id for a worker's call: the configured one when set, else the
      task's `caller_id` attribute; absent when neither is there. */
  function CallerIdFor(configured: string, taskAttributes: map<string, string>): (r: Option<string>)
    ensures configured != "" ==> r == Some(configured)
    ensures configured == "" && "caller_id" in taskAttributes ==> r == Some(taskAttributes["caller_id"])
    ensures r.None? <==> configured == "" && "caller_id" !in taskAttributes
  {
    if configured != "" then Some(configured)
    else if "caller_id" in taskAttributes then Some(taskAttributes["caller_id"])
    else None
  }

  /** The outbound call `assign` places for a request with a phone number. */
  function WorkerCall(req: AssignRequest, callerId: Option<string>): Command
    requires "phone" in req.workerAttributes
  {
    CreateCall(Some(req.workerAttributes["phone"]), callerId,
               TaskCallback(req.taskSid, req.reservationSid, req.workerSid))
  }

  /** `assign`: reject when the worker has no phone; otherwise place the call,
      and record it under the task SID when creation succeeded (`created` is
      the new call's SID, absent when the provider refused). */
  function AssignStep(t: Table, req: AssignRequest, configuredCallerId: string, acts: Activities,
                      created: Option<string>): (s: Step)
    ensures "phone" !in req.workerAttributes ==>
      s.outcome == Outcome(RejectInstruction(acts.offline), []) && s.table == t
    ensures "phone" in req.workerAttributes && CallerIdFor(configuredCallerId, req.taskAttributes).None? ==>
      s.outcome == Outcome(ServerError, []) && s.table == t
    ensures "phone" in req.workerAttributes && CallerIdFor(configuredCallerId, req.taskAttributes).Some? ==>
      var call := WorkerCall(req, CallerIdFor(configuredCallerId, req.taskAttributes));
      s.outcome.commands == [call] &&
      (created.Some? ==> s.outcome.response == NoContent && s.table == t[req.taskSid := created.value]) &&
      (created.None? ==> s.outcome.response == ServerError && s.table == t)
  {
    if "phone" !in req.workerAttributes then
      Step(t, Outcome(RejectInstruction(acts.offline), []))
    else
      var callerId := CallerIdFor(configuredCallerId, req.taskAttributes);
      if callerId.None? then
        Step(t, Outcome(ServerError, []))
      else
        var call := WorkerCall(req, callerId);
        match created
        case Some(sid) => Step(t[req.taskSid := sid], Outcome(NoContent, [call]))
        case None => Step(t, Outcome(ServerError, [call]))
  }

  /** `cancel_call`: cancel the pending call of the task, if there is one. */
  function CancelCommands(t: Table, taskSid: Option<string>): (cmds: seq<Command>)
    ensures taskSid in t ==> cmds == [CancelCall(t[taskSid])]
    ensures taskSid !in t ==> cmds == []
  {
    if taskSid in t then [CancelCall(t[taskSid])] else []
  }

  /** `update_dashboard`: push the change, looking the previous activity's name
      up by SID; an unknown SID is an uncaught lookup error (status 500). */
  function DashboardOutcome(ev: RouterEvent, activityNames: map<string, string>): (r: Outcome)
    ensures ev.previousActivitySid.GetOr("") !in activityNames ==> r == Outcome(ServerError, [])
    ensures ev.previousActivitySid.GetOr("") in activityNames ==>
      r.response == NoContent && |r.commands| == 1 && r.commands[0].PushStatus? &&
      r.commands[0].push.previousActivityName == activityNames[ev.previousActivitySid.GetOr("")] &&
      r.commands[0].push.workerSid == ev.workerSid.GetOr("") &&
      r.commands[0].push.workerName == ev.workerName.GetOr("") &&
      r.commands[0].push.activitySid == ev.activitySid.GetOr("") &&
      r.commands[0].push.activityName == ev.activityName.GetOr("")
  {
    var previous := ev.previousActivitySid.GetOr("");
    if previous !in activityNames then
      Outcome(ServerError, [])
    else
      Outcome(NoContent, [PushStatus(StatusPush(
        ev.workerSid.GetOr(""), ev.workerName.GetOr(""), ev.activitySid.GetOr(""),
        ev.activityName.GetOr(""), activityNames[previous]))])
  }

  /** `trevents`: answer 204, cancelling the task's pending call only on
      `task.canceled`; the table is never modified. */
  function TreventsOutcome(t: Table, ev: RouterEvent, activityNames: map<string, string>): (r: Outcome)
    ensures ev.eventType != Some("worker.activity.update") ==> r.response == NoContent
    ensures ev.eventType == Some("task.canceled") ==> r.commands == CancelCommands(t, ev.taskSid)
    ensures ev.eventType != Some("task.canceled") ==> forall c :: c in r.commands ==> !c.CancelCall?
    ensures ev.eventType == Some("worker.activity.update") ==> r == DashboardOutcome(ev, activityNames)
    ensures ev.eventType != Some("worker.activity.update") && ev.eventType != Some("task.canceled") ==>
      r == Outcome(NoContent, [])
  {
    if ev.eventType == Some("worker.activity.update") then DashboardOutcome(ev, activityNames)
    else if ev.eventType == Some("task.canceled") then Outcome(NoContent, CancelCommands(t, ev.taskSid))
    else Outcome(NoContent, [])
  }

  /** The activity a dashboard toggle selects. */
  function ActivityFor(online: bool, acts: Activities): (a: string)
    ensures online ==> a == acts.idle
    ensures !online ==> a == acts.offline
  {
    if online then acts.idle else acts.offline
  }

  /** Toggling a worker on the dashboard round-trips: once the worker is in
      the chosen activity, the dashboard shows it with the requested state. */
  lemma DashboardToggleRoundTrip(acts: seq<Activity>, online: bool, w: Worker)
    requires DistinctSids(acts)
    requires ResolveActivities(Tabulate(acts, NameToSid)).Ok?
    requires var chosen := ActivityFor(online, ResolveActivities(Tabulate(acts, NameToSid)).value);
      chosen in Tabulate(acts, SidToName) ==> w.activityName == Tabulate(acts, SidToName)[chosen]
    ensures MakeAgent(w).online == online
  {
    ActivityTablesInverse(acts);
  }

  /** A task is assigned and its call placed; the task is then cancelled, and
      the call's late "canceled" callback arrives, twice. The cancellation
      targets the placed call exactly once and keeps the entry; the first
      callback clears it; both callbacks are acknowledged with nothing issued. */
  lemma {:induction false} CancelledTaskScenario(t: Table, req: AssignRequest, configuredCallerId: string,
                                    acts: Activities, call: string, names: map<string, string>)
    requires "phone" in req.workerAttributes
    requires CallerIdFor(configuredCallerId, req.taskAttributes).Some?
    ensures
      var placed := AssignStep(t, req, configuredCallerId, acts, Some(call));
      var cancel := RouterEvent(Some("task.canceled"), req.taskSid, None, None, None, None, None);
      var cancelled := TreventsOutcome(placed.table, cancel, names);
      var late := OutboundCallback(req.taskSid, req.reservationSid, req.workerSid, Some(call), Some("canceled"), None);
      var first := OutboundStep(placed.table, late, acts);
      var second := OutboundStep(first.table, late, acts);
      cancelled == Outcome(NoContent, [CancelCall(call)]) &&
      req.taskSid in placed.table &&
      first.outcome == Outcome(NoContent, []) && req.taskSid !in first.table &&
      second.outcome == Outcome(NoContent, []) && second.table == first.table
  {
    var placed := AssignStep(t, req, configuredCallerId, acts, Some(call));
    assert placed.table == t[req.taskSid := call];
    var late := OutboundCallback(req.taskSid, req.reservationSid, req.workerSid, Some(call), Some("canceled"), None);
    var first := OutboundStep(placed.table, late, acts);
    var second := OutboundStep(first.table, late, acts);
    assert second.table == first.table - {req.taskSid};
  }

  /** The application state: the pending-call table, updated in place, and the
      workspace snapshot resolved at startup. */
  class TaskRouterApp {
    var pendingCalls: Table
    const workspace: Workspace
    const activities: Activities
    /** The configured caller id; empty when none is configured. */
    const configuredCallerId: string

    constructor (d: Deployment, configuredCallerId: string)
      ensures pendingCalls == map[]
      ensures workspace == d.workspace && activities == d.activities
      ensures this.configuredCallerId == configuredCallerId
    {
      pendingCalls := map[];
      workspace := d.workspace;
      activities := d.activities;
      this.configuredCallerId := configuredCallerId;
    }

    /** `/inbound`: enqueue the call into the workspace's workflow. */
    function Incoming(from: Option<string>): (r: Response)
      ensures r.Enqueue? && r.workflowSid == workspace.workflowSid
      ensures r.callerId == Render(from)
    {
      Enqueue(workspace.workflowSid, Render(from))
    }

    /** `assign`: place the call to the worker and record it under the task. */
    method Assign(req: AssignRequest, created: Option<string>) returns (o: Outcome)
      modifies this
      ensures Step(pendingCalls, o) == AssignStep(old(pendingCalls), req, configuredCallerId, activities, created)
    {
      if "phone" !in req.workerAttributes {
        return Outcome(RejectInstruction(activities.offline), []);
      }
      var callerId := CallerIdFor(configuredCallerId, req.taskAttributes);
      if callerId.None? {
        return Outcome(ServerError, []);
      }
      var call := WorkerCall(req, callerId);
      if created.None? {
        return Outcome(ServerError, [call]);
      }
      pendingCalls := pendingCalls[req.taskSid := created.value];
      o := Outcome(NoContent, [call]);
    }

    /** `outbound`: pop the task's entry, then decide. */
    method Outbound(cb: OutboundCallback) returns (o: Outcome)
      modifies this
      ensures Step(pendingCalls, o) == OutboundStep(old(pendingCalls), cb, activities)
    {
      if cb.taskSid in pendingCalls {
        pendingCalls := pendingCalls - {cb.taskSid};
      }
      o := OutboundDecision(cb, activities);
    }

    /** `cancel_call`: reads the table, never changes it. */
    method CancelPendingCall(taskSid: Option<string>) returns (cmds: seq<Command>)
      ensures cmds == CancelCommands(pendingCalls, taskSid)
      ensures taskSid in pendingCalls ==> cmds == [CancelCall(pendingCalls[taskSid])]
      ensures taskSid !in pendingCalls ==> cmds == []
    {
      cmds := [];
      if taskSid in pendingCalls {
        cmds := [CancelCall(pendingCalls[taskSid])];
      }
    }

    /** `trevents`: dispatch on the event type. */
    method Trevents(ev: RouterEvent) returns (o: Outcome)
      ensures o == TreventsOutcome(pendingCalls, ev, workspace.activityNames)
    {
      if ev.eventType == Some("worker.activity.update") {
        o := DashboardOutcome(ev, workspace.activityNames);
      } else if ev.eventType == Some("task.canceled") {
        var cmds := CancelPendingCall(ev.taskSid);
        o := Outcome(NoContent, cmds);
      } else {
        o := Outcome(NoContent, []);
      }
    }

    /** `process_update`: set the worker Idle when toggled online, else Offline. */
    method ProcessUpdate(update: StatusUpdate) returns (cmd: Command)
      ensures cmd == SetWorkerActivity(update.workerSid, ActivityFor(update.online, activities))
    {
      cmd := SetWorkerActivity(update.workerSid, ActivityFor(update.online, activities));
    }

    /** `reschedule_agent`: what the cool-down timer issues when it fires. */
    function RescheduleAgent(workerSid: string): (c: Command)
      ensures c == SetWorkerActivity(workerSid, activities.idle)
    {
      SetWorkerActivity(workerSid, activities.idle)
    }
  }
}
