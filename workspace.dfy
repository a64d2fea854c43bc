/** The task-routing workspace as the application sees it after startup: the
    workspace and its default workflow, the two lookup tables between activity
    SIDs and activity names, the three activities the application needs, and
    the agents shown on the dashboard. The provider's listings are inputs. */
module Workspaces {
  import opened Webhook

  const Offline: string := "Offline"
  const Idle: string := "Idle"
  const TempUnavailable: string := "Temporarily Unavailable"

  /** A worker activity as the provider lists it. */
  datatype Activity = Activity(sid: string, name: string)

  /** What the provider returns for a workspace with the configured name. */
  datatype WorkspaceListing = WorkspaceListing(sid: string, workflowSids: seq<string>, activities: seq<Activity>)

  /** The workspace snapshot: its SID, its first workflow, and the activity
      tables keyed by SID and by name. */
  datatype Workspace = Workspace(
    sid: string,
    workflowSid: string,
    activityNames: map<string, string>,
    activitySids: map<string, string>)

  /** The three activities the application moves workers between. */
  datatype Activities = Activities(offline: string, idle: string, tempUnavailable: string)

  /** Why startup stops the process. */
  datatype StartupError =
    | NoWorkspace(workspaceName: string)
    | NoWorkflows(workspaceName: string)
    | MissingActivity(activityName: string)

  datatype Result<+T> = Ok(value: T) | Err(error: StartupError)

  /** A successfully started application's view of the workspace. */
  datatype Deployment = Deployment(workspace: Workspace, activities: Activities)

  function SidToName(a: Activity): (string, string) { (a.sid, a.name) }

  function NameToSid(a: Activity): (string, string) { (a.name, a.sid) }

  /** The table left by storing `t[k] := v` for the entry `(k, v)` of each
      activity in turn: a later activity overwrites an earlier one's key. */
  function Tabulate(acts: seq<Activity>, entry: Activity -> (string, string)): map<string, string>
    decreases |acts|
  {
    if acts == [] then map[]
    else
      var e := entry(acts[|acts| - 1]);
      Tabulate(acts[..|acts| - 1], entry)[e.0 := e.1]
  }

  /** The keys of the table are exactly the keys of the entries. */
  lemma {:induction false} TabulateKeys(acts: seq<Activity>, entry: Activity -> (string, string))
    ensures Tabulate(acts, entry).Keys == set a | a in acts :: entry(a).0
  {
    if acts != [] {
      var init := acts[..|acts| - 1];
      TabulateKeys(init, entry);
      assert acts == init + [acts[|acts| - 1]];
    }
  }

  /** An activity that no later activity shadows has its entry in the table. */
  lemma {:induction false} TabulateLast(acts: seq<Activity>, entry: Activity -> (string, string), i: int)
    requires 0 <= i < |acts|
    requires forall j :: i < j < |acts| ==> entry(acts[j]).0 != entry(acts[i]).0
    ensures entry(acts[i]).0 in Tabulate(acts, entry)
    ensures Tabulate(acts, entry)[entry(acts[i]).0] == entry(acts[i]).1
  {
    if i < |acts| - 1 {
      var init := acts[..|acts| - 1];
      assert init[i] == acts[i];
      TabulateLast(init, entry, i);
    }
  }

  /** Every key of the table holds the value of the LAST activity with that key. */
  lemma {:induction false} TabulateSource(acts: seq<Activity>, entry: Activity -> (string, string), k: string)
    returns (i: int)
    requires k in Tabulate(acts, entry)
    ensures 0 <= i < |acts| && entry(acts[i]).0 == k
    ensures Tabulate(acts, entry)[k] == entry(acts[i]).1
    ensures forall j :: i < j < |acts| ==> entry(acts[j]).0 != k
  {
    var last := entry(acts[|acts| - 1]);
    if last.0 == k {
      i := |acts| - 1;
    } else {
      var init := acts[..|acts| - 1];
      i := TabulateSource(init, entry, k);
      assert init[i] == acts[i];
    }
  }

  /** `Workspace.__init__`: take the first workspace and its first workflow,
      and fill both activity tables in one pass over the activities. */
  method OpenWorkspace(name: string, found: seq<WorkspaceListing>) returns (r: Result<Workspace>)
    ensures found == [] ==> r == Err(NoWorkspace(name))
    ensures found != [] && found[0].workflowSids == [] ==> r == Err(NoWorkflows(name))
    ensures found != [] && found[0].workflowSids != [] ==>
      r == Ok(Workspace(found[0].sid, found[0].workflowSids[0],
                        Tabulate(found[0].activities, SidToName),
                        Tabulate(found[0].activities, NameToSid)))
  {
    if found == [] {
      return Err(NoWorkspace(name));
    }
    var ws := found[0];
    if ws.workflowSids == [] {
      return Err(NoWorkflows(name));
    }
    var acts := ws.activities;
    var names: map<string, string> := map[];
    var sids: map<string, string> := map[];
    for i := 0 to |acts|
      invariant names == Tabulate(acts[..i], SidToName)
      invariant sids == Tabulate(acts[..i], NameToSid)
    {
      assert acts[..i + 1][..i] == acts[..i];
      names := names[acts[i].sid := acts[i].name];
      sids := sids[acts[i].name := acts[i].sid];
    }
    assert acts[..|acts|] == acts;
    r := Ok(Workspace(ws.sid, ws.workflowSids[0], names, sids));
  }

  /** The startup lookup of the three named activities; the first one missing,
      in the order Offline, Idle, Temporarily Unavailable, is reported. */
  function ResolveActivities(sids: map<string, string>): (r: Result<Activities>)
    ensures r.Ok? <==> Offline in sids && Idle in sids && TempUnavailable in sids
    ensures r.Ok? ==> r.value == Activities(sids[Offline], sids[Idle], sids[TempUnavailable])
    ensures r.Err? ==> r.error.MissingActivity? && r.error.activityName !in sids
    ensures r.Err? ==> r.error.activityName in {Offline, Idle, TempUnavailable}
    ensures r.Err? && r.error.activityName != Offline ==> Offline in sids
    ensures r.Err? && r.error.activityName == TempUnavailable ==> Idle in sids
  {
    if Offline !in sids then Err(MissingActivity(Offline))
    else if Idle !in sids then Err(MissingActivity(Idle))
    else if TempUnavailable !in sids then Err(MissingActivity(TempUnavailable))
    else Ok(Activities(sids[Offline], sids[Idle], sids[TempUnavailable]))
  }

  /** Process startup: open the workspace, then resolve the three activities. */
  method Startup(name: string, found: seq<WorkspaceListing>) returns (r: Result<Deployment>)
    ensures found == [] ==> r == Err(NoWorkspace(name))
    ensures found != [] && found[0].workflowSids == [] ==> r == Err(NoWorkflows(name))
    ensures found != [] && found[0].workflowSids != [] ==>
      var sids := Tabulate(found[0].activities, NameToSid);
      (r.Ok? <==> ResolveActivities(sids).Ok?) &&
      (r.Ok? ==> r.value.activities == ResolveActivities(sids).value
                 && r.value.workspace.activitySids == sids
                 && r.value.workspace.activityNames == Tabulate(found[0].activities, SidToName)
                 && r.value.workspace.sid == found[0].sid
                 && r.value.workspace.workflowSid == found[0].workflowSids[0]) &&
      (r.Err? ==> r.error == ResolveActivities(sids).error)
  {
    var ws := OpenWorkspace(name, found);
    if ws.Err? {
      return Err(ws.error);
    }
    var acts := ResolveActivities(ws.value.activitySids);
    if acts.Err? {
      return Err(acts.error);
    }
    r := Ok(Deployment(ws.value, acts.value));
  }

  /** Activity SIDs are pairwise distinct. */
  predicate DistinctSids(acts: seq<Activity>) {
    forall i, j :: 0 <= i < j < |acts| ==> acts[i].sid != acts[j].sid
  }

  /** With distinct SIDs, the name table records every activity's own name. */
  lemma ActivityNamesComplete(acts: seq<Activity>)
    requires DistinctSids(acts)
    ensures forall i :: 0 <= i < |acts| ==>
      acts[i].sid in Tabulate(acts, SidToName) && Tabulate(acts, SidToName)[acts[i].sid] == acts[i].name
  {
    forall i | 0 <= i < |acts|
      ensures acts[i].sid in Tabulate(acts, SidToName) && Tabulate(acts, SidToName)[acts[i].sid] == acts[i].name
    {
      TabulateLast(acts, SidToName, i);
    }
  }

  /** With distinct SIDs, the two tables are inverse: the name of the SID
      recorded for a name is that name. */
  lemma ActivityTablesInverse(acts: seq<Activity>)
    requires DistinctSids(acts)
    ensures forall n :: n in Tabulate(acts, NameToSid) ==>
      var s := Tabulate(acts, NameToSid)[n];
      s in Tabulate(acts, SidToName) && Tabulate(acts, SidToName)[s] == n
  {
    forall n | n in Tabulate(acts, NameToSid)
      ensures var s := Tabulate(acts, NameToSid)[n];
              s in Tabulate(acts, SidToName) && Tabulate(acts, SidToName)[s] == n
    {
      var i := TabulateSource(acts, NameToSid, n);
      TabulateLast(acts, SidToName, i);
    }
  }

  /** A worker as the provider lists it; `attributes` is its decoded JSON object. */
  datatype Worker = Worker(
    sid: string,
    friendlyName: string,
    activitySid: string,
    activityName: string,
    attributes: map<string, string>)

  /** A dashboard row. */
  datatype Agent = Agent(
    sid: string,
    name: string,
    activitySid: string,
    activityName: string,
    online: bool,
    phone: string)

  /** `Agent.__init__`: copy the worker's fields, derive `online` from the
      activity name and `phone` from the attributes. */
  function MakeAgent(w: Worker): (a: Agent)
    ensures a.online <==> w.activityName != Offline
    ensures "phone" in w.attributes ==> a.phone == w.attributes["phone"]
    ensures "phone" !in w.attributes ==> a.phone == ""
    ensures a.sid == w.sid && a.name == w.friendlyName
    ensures a.activitySid == w.activitySid && a.activityName == w.activityName
  {
    Agent(w.sid, w.friendlyName, w.activitySid, w.activityName,
          w.activityName != Offline,
          if "phone" in w.attributes then w.attributes["phone"] else "")
  }

  /** The dashboard's loop over the listed workers, one agent per worker in order. */
  method ListAgents(workers: seq<Worker>) returns (agents: seq<Agent>)
    ensures |agents| == |workers|
    ensures forall i :: 0 <= i < |workers| ==> agents[i] == MakeAgent(workers[i])
  {
    agents := [];
    for i := 0 to |workers|
      invariant |agents| == i
      invariant forall k :: 0 <= k < i ==> agents[k] == MakeAgent(workers[k])
    {
      agents := agents + [MakeAgent(workers[i])];
    }
  }
}
