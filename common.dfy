/** Values shared by both webhook applications: optional request parameters,
    the responses a webhook returns, and the provider commands it issues.
    Calls into the telephony provider's REST API are not performed here; each
    one becomes a `Command` value in the list a handler returns. */
module Webhook {

  /** A request parameter or configuration value that may be absent (Python's None). */
  datatype Option<+T> = None | Some(value: T) {
    /** `request.values.get(name, default)`: the value if present, else `default`. */
    function GetOr(default: T): (r: T)
      ensures Some? ==> r == value
      ensures None? ==> r == default
    {
      match this
      case Some(v) => v
      case None => default
    }
  }

  /** The answering-machine classification that both applications treat as a machine. */
  const MachineStart: string := "machine_start"

  /** Python's truthiness of an optional string: present and non-empty. */
  predicate Truthy(v: Option<string>) {
    v.Some? && v.value != ""
  }

  /** How a template renders an optional value: the string itself, or "None". */
  function Render(v: Option<string>): (r: string)
    ensures v.Some? ==> r == v.value
    ensures v.None? ==> r == "None"
  {
    match v
    case Some(s) => s
    case None => "None"
  }

  /** The status-callback address given to a new outbound call; it carries the
      correlation parameters back to the `outbound` webhook. Absent parameters
      are left out of the query string. */
  datatype Callback =
    | TaskCallback(taskSid: Option<string>, reservationSid: Option<string>, workerSid: Option<string>)
    | ConferenceCallback(inboundSid: Option<string>)

  /** The fields pushed to the browser dashboard on a worker activity change. */
  datatype StatusPush = StatusPush(
    workerSid: string,
    workerName: string,
    activitySid: string,
    activityName: string,
    previousActivityName: string)

  /** A request to the telephony provider, or a deferred action. */
  datatype Command =
      /** Create an outbound call with machine detection enabled; `callback` is
          both the answer URL and the status callback. */
    | CreateCall(to: Option<string>, from: Option<string>, callback: Callback)
      /** Cancel a call that has not yet been answered. */
    | CancelCall(callSid: string)
      /** Replace a live call's instructions with the static markup `markup`. */
    | RedirectCall(callSid: string, markup: string)
      /** Reject a task reservation, moving the worker to `activitySid`. */
    | RejectReservation(taskSid: string, reservationSid: string, activitySid: string)
      /** Start the cool-down timer that later puts `workerSid` back to Idle. */
    | ScheduleIdle(workerSid: string)
      /** Set a worker's activity. */
    | SetWorkerActivity(workerSid: string, activitySid: string)
      /** Push a status update to the browser dashboard. */
    | PushStatus(push: StatusPush)

  /** What a webhook answers to the provider (or to the browser). */
  datatype Response =
      /** An empty body with status 204. */
    | NoContent
      /** Status 400 with a reason. */
    | BadRequest(reason: string)
      /** Status 500: a failed call creation or an uncaught lookup error. */
    | ServerError
      /** The static `hangup.xml` markup. */
    | Hangup
      /** Markup that puts the call into the conference named `name`. */
    | JoinConference(name: string)
      /** Markup that dials the task queue, accepting reservation `reservationSid`
          with post-work activity `activitySid`. */
    | DialQueue(reservationSid: string, activitySid: string)
      /** Markup that enqueues the inbound call into workflow `workflowSid`. */
    | Enqueue(workflowSid: string, callerId: string)
      /** The JSON assignment instruction "reject" with follow-up activity `activitySid`. */
    | RejectInstruction(activitySid: string)
      /** The settings page showing the current caller id and destination number. */
    | SettingsPage(callerId: string, destNum: string)

  /** A handler's answer together with the commands it issued, in order. */
  datatype Outcome = Outcome(response: Response, commands: seq<Command>)

  /** `c` occurs exactly once among `cmds`. */
  predicate ExactlyOnce(cmds: seq<Command>, c: Command) {
    multiset(cmds)[c] == 1
  }

  /** No reservation is rejected by `cmds`. */
  predicate NoRejection(cmds: seq<Command>) {
    forall c :: c in cmds ==> !c.RejectReservation?
  }

  /** No cool-down timer is started by `cmds`. */
  predicate NoTimer(cmds: seq<Command>) {
    forall c :: c in cmds ==> !c.ScheduleIdle?
  }

  /** No call is redirected by `cmds`. */
  predicate NoRedirect(cmds: seq<Command>) {
    forall c :: c in cmds ==> !c.RedirectCall?
  }
}
