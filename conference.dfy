/** The conference variant: an inbound call is parked in a conference named
    after its call SID while an outbound call with answering-machine detection
    is placed to the destination number; the outbound call's callbacks decide
    whether it joins the conference or the caller hears a not-available
    message. Whether the conference is still in progress is the provider's
    answer, given as an input. */
module Conference {
  import opened Webhook
  import Config

  /** The static markup the inbound call is redirected to when nobody is reached. */
  const NotAvailable: string := "not_available.xml"

  /** Parameters of a status callback from the outbound call. */
  datatype OutboundCallback = OutboundCallback(
    inboundSid: Option<string>,
    callSid: Option<string>,
    callStatus: Option<string>,
    answeredBy: Option<string>)

  /** Parameters of the inbound call webhook. */
  datatype InboundRequest = InboundRequest(callSid: Option<string>, from: Option<string>)

  /** A settings page request; the two form fields are given for a POST. */
  datatype IndexRequest = IndexRequest(httpMethod: string, callerId: Option<string>, destNum: Option<string>)

  /** The provider's answer to "in-progress conferences with this name". */
  datatype ConferenceListing = Listed(conferenceSids: seq<string>) | ProviderError(message: string)

  /** `conference_is_active`: some in-progress conference has the name; a
      provider error counts as inactive. */
  function ConferenceIsActive(listing: ConferenceListing): (active: bool)
    ensures listing.ProviderError? ==> !active
    ensures listing.Listed? ==> (active <==> listing.conferenceSids != [])
  {
    match listing
    case Listed(sids) => |sids| > 0
    case ProviderError(_) => false
  }

  /** The outbound call did not reach anyone. */
  predicate Unreached(status: Option<string>) {
    status == Some("busy") || status == Some("failed") || status == Some("no-answer") || status == Some("canceled")
  }

  /** The `outbound` decision; `listing` is consulted only when a person answered. */
  function OutboundDecision(cb: OutboundCallback, listing: ConferenceListing): (r: Outcome)
    ensures cb.inboundSid.None? ==> r.response == BadRequest("Missing InboundSid") && NoRedirect(r.commands)
    ensures cb.inboundSid.Some? && cb.callStatus == Some("in-progress") && cb.answeredBy == Some(MachineStart) ==>
      r.response == Hangup && |r.commands| == 1 && ExactlyOnce(r.commands, RedirectCall(cb.inboundSid.value, NotAvailable))
    ensures cb.inboundSid.Some? && cb.callStatus == Some("in-progress") && cb.answeredBy != Some(MachineStart) ==>
      NoRedirect(r.commands) &&
      (ConferenceIsActive(listing) ==> r.response == JoinConference(cb.inboundSid.value)) &&
      (!ConferenceIsActive(listing) ==> r.response == Hangup)
    ensures cb.inboundSid.Some? && Unreached(cb.callStatus) ==>
      r.response == NoContent && |r.commands| == 1 && ExactlyOnce(r.commands, RedirectCall(cb.inboundSid.value, NotAvailable))
    ensures cb.inboundSid.Some? && cb.callStatus != Some("in-progress") && !Unreached(cb.callStatus) ==>
      r == Outcome(NoContent, [])
    ensures forall c :: c in r.commands ==> cb.inboundSid.Some? && c == RedirectCall(cb.inboundSid.value, NotAvailable)
  {
    if cb.inboundSid.None? then
      Outcome(BadRequest("Missing InboundSid"), [])
    else
      var inbound := cb.inboundSid.value;
      if cb.callStatus == Some("in-progress") then
        if cb.answeredBy == Some(MachineStart) then
          Outcome(Hangup, [RedirectCall(inbound, NotAvailable)])
        else if ConferenceIsActive(listing) then
          Outcome(JoinConference(inbound), [])
        else
          Outcome(Hangup, [])
      else if Unreached(cb.callStatus) then
        Outcome(NoContent, [RedirectCall(inbound, NotAvailable)])
      else
        Outcome(NoContent, [])
  }

  /** The outbound leg joins the conference exactly when a non-machine answer
      finds the inbound caller's conference still in progress, and then it
      joins that caller's conference. */
  lemma JoinsOnlyLiveConference(cb: OutboundCallback, listing: ConferenceListing)
    ensures var r := OutboundDecision(cb, listing);
      r.response.JoinConference? <==>
        cb.inboundSid.Some? && cb.callStatus == Some("in-progress") &&
        cb.answeredBy != Some(MachineStart) && ConferenceIsActive(listing)
    ensures var r := OutboundDecision(cb, listing);
      r.response.JoinConference? ==> r.response.name == cb.inboundSid.value
  {
  }

  /** The caller is told nobody is available exactly when the outbound call
      reached a machine or reached nobody. */
  lemma RedirectsOnlyWhenUnavailable(cb: OutboundCallback, listing: ConferenceListing)
    ensures var r := OutboundDecision(cb, listing);
      !NoRedirect(r.commands) <==>
        cb.inboundSid.Some? &&
        ((cb.callStatus == Some("in-progress") && cb.answeredBy == Some(MachineStart)) || Unreached(cb.callStatus))
  {
    var r := OutboundDecision(cb, listing);
    if r.commands != [] {
      assert r.commands[0] in r.commands;
    }
  }

  /** `inbound`'s caller id: the configured one when set, else the caller's. */
  function ChooseCallerId(configured: Option<string>, from: Option<string>): (r: Option<string>)
    ensures Truthy(configured) ==> r == configured
    ensures !Truthy(configured) ==> r == from
  {
    if Truthy(configured) then configured else from
  }

  /** The settings the conference variant reads and the settings page updates. */
  class ConferenceApp {
    var callerId: Option<string>
    var destNum: Option<string>

    constructor ()
      ensures callerId == Some(Config.InitialCallerId) && destNum == Some(Config.InitialDestNum)
    {
      callerId := Some(Config.InitialCallerId);
      destNum := Some(Config.InitialDestNum);
    }

    /** `index`: a POST stores the submitted values; the page shows the current ones. */
    method Index(req: IndexRequest) returns (page: Response)
      modifies this
      ensures req.httpMethod == "POST" ==> callerId == req.callerId && destNum == req.destNum
      ensures req.httpMethod != "POST" ==> callerId == old(callerId) && destNum == old(destNum)
      ensures page == SettingsPage(Render(callerId), Render(destNum))
    {
      if req.httpMethod == "POST" {
        callerId := req.callerId;
        destNum := req.destNum;
      }
      page := SettingsPage(Render(callerId), Render(destNum));
    }

    /** `inbound`: place the outbound call, whose callbacks carry the inbound
        SID, and park the caller in the conference named by that SID;
        `created` says whether the provider accepted the call. */
    function Inbound(req: InboundRequest, created: bool): (o: Outcome)
      reads this
      ensures o.commands == [CreateCall(destNum, ChooseCallerId(callerId, req.from), ConferenceCallback(req.callSid))]
      ensures Truthy(callerId) ==> o.commands[0].from == callerId
      ensures !Truthy(callerId) ==> o.commands[0].from == req.from
      ensures o.commands[0].callback.inboundSid == req.callSid
      ensures created ==> o.response == JoinConference(Render(req.callSid))
      ensures !created ==> o.response == ServerError
    {
      var call := CreateCall(destNum, ChooseCallerId(callerId, req.from), ConferenceCallback(req.callSid));
      if created then Outcome(JoinConference(Render(req.callSid)), [call])
      else Outcome(ServerError, [call])
    }

    /** An inbound call parked and then answered by a person: the callback
        names the same conference the caller was parked in, and the outbound
        leg joins it while it is in progress. */
    lemma ParkedAndJoinedInSameConference(req: InboundRequest, outboundSid: string,
                                          answeredBy: Option<string>, listing: ConferenceListing)
      requires req.callSid.Some?
      requires answeredBy != Some(MachineStart)
      requires ConferenceIsActive(listing)
      ensures
        var parked := Inbound(req, true);
        var cb := OutboundCallback(parked.commands[0].callback.inboundSid, Some(outboundSid),
                                   Some("in-progress"), answeredBy);
        OutboundDecision(cb, listing).response == parked.response &&
        OutboundDecision(cb, listing).commands == []
    {
    }

    /** An inbound call parked and then reaching a machine: the caller is sent
        to the not-available message, the machine is hung up on. */
    lemma ParkedAndMachineAnswered(req: InboundRequest, outboundSid: string, listing: ConferenceListing)
      requires req.callSid.Some?
      ensures
        var parked := Inbound(req, true);
        var cb := OutboundCallback(parked.commands[0].callback.inboundSid, Some(outboundSid),
                                   Some("in-progress"), Some(MachineStart));
        OutboundDecision(cb, listing) == Outcome(Hangup, [RedirectCall(req.callSid.value, NotAvailable)])
    {
    }
  }
}
