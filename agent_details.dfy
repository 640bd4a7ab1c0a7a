/** The agent profile page: the agent is looked up by the route id in the
    agent list, shown field by field, and edited through a dialog whose
    draft is PATCHed with no client-side checks. */
module AgentDetails {
  import opened Wrappers
  import opened JsValues
  import opened Lookup
  import opened Feedback

  /** `value || "-"`: what a detail row shows. */
  function DetailRow(value: Value): (shown: Value)
    ensures !Falsy(shown)
    ensures shown == value <==> !Falsy(value)
    ensures shown != value ==> shown == Str("-")
  {
    Or(value, Str("-"))
  }

  /** `agent.role || "Agent"`: the role badge. */
  function RoleLabel(role: Value): (shown: Value)
    ensures !Falsy(shown)
    ensures shown == role <==> !Falsy(role)
    ensures shown != role ==> shown == Str("Agent")
  {
    Or(role, Str("Agent"))
  }

  const Updated := "\U{2705} Agent profile updated!"
  const UpdateFailed := "\U{26A0}\U{FE0F} Update failed."
  const UpdateError := "\U{274C} Error updating agent."

  /** The fields the edit dialog lets the user change; first name and phone
      are shown disabled. */
  const EditableFields: set<string> := {
    "user_lastname", "country_code", "email", "landline_number", "address_line1",
    "address_line2", "zip_code", "state", "country", "tv_provider_account_number",
    "internet_provider_account_number", "wireless_provider_account_number"
  }

  datatype Request = GetAgents | PatchProfile(body: Record)

  class AgentDetailsView {
    const routeId: string
    var token: string          // "" when local storage holds none
    var agent: Option<Record>  // None renders "Agent not found"
    var loading: bool
    var openEditDialog: bool
    var editData: Record
    var alerts: seq<string>    // browser alerts shown, oldest first
    var sent: seq<Request>     // requests issued, oldest first

    constructor (routeId: string, token: string)
      ensures this.routeId == routeId && this.token == token
      ensures agent.None? && loading && !openEditDialog && editData == map[]
      ensures alerts == [] && sent == []
    {
      this.routeId := routeId;
      this.token := token;
      agent := None;
      loading := true;
      openEditDialog := false;
      editData := map[];
      alerts := [];
      sent := [];
    }

    /** The mount effect: with no token the page shows "Agent not found"
        at once; otherwise the agent list is fetched and searched. */
    method Load(reply: Fetch<seq<Record>>)
      modifies this`agent, this`loading, this`sent
      ensures !loading
      ensures token == "" ==> agent.None? && sent == old(sent)
      ensures token != "" ==> sent == old(sent) + [GetAgents]
      ensures token != "" && reply.Failed? ==> agent.None?
      ensures token != "" && reply.Fetched? ==> agent == FindById(reply.data, RecordId, routeId)
    {
      if token == "" {
        loading := false;
        agent := None;
        return;
      }
      sent := sent + [GetAgents];
      match reply {
        case Failed =>
          agent := None;
        case Fetched(data) =>
          agent := FindById(data, RecordId, routeId);
      }
      loading := false;
    }

    /** "Edit Profile": the draft starts as the shown agent. The button
        exists only while an agent is shown. */
    method OpenEditor()
      requires agent.Some?
      modifies this`editData, this`openEditDialog
      ensures editData == agent.value && openEditDialog
    {
      editData := agent.value;
      openEditDialog := true;
    }

    /** Typing into one of the dialog's editable fields. */
    method EditField(key: string, text: string)
      requires key in EditableFields
      modifies this`editData
      ensures editData == old(editData)[key := Str(text)]
      ensures forall k :: k != key ==> Get(editData, k) == Get(old(editData), k)
    {
      editData := editData[key := Str(text)];
    }

    /** "Cancel", or a click outside the dialog. */
    method CloseEditor()
      modifies this`openEditDialog
      ensures !openEditDialog
    {
      openEditDialog := false;
    }

    /** "Save": without a token nothing happens; otherwise the draft is sent
        as it stands, and only the success message merges it into the agent
        and closes the dialog. */
    method Update(reply: PatchReply)
      modifies this`agent, this`openEditDialog, this`alerts, this`sent
      ensures token == "" ==> agent == old(agent) && openEditDialog == old(openEditDialog)
                              && alerts == old(alerts) && sent == old(sent)
      ensures token != "" ==> sent == old(sent) + [PatchProfile(editData)]
      ensures token != "" && reply == PatchReplied(Str(ProfileUpdated)) ==>
                agent == Some(Spread(old(agent), editData)) && !openEditDialog
                && alerts == old(alerts) + [Updated]
      ensures token != "" && reply != PatchReplied(Str(ProfileUpdated)) ==>
                agent == old(agent) && openEditDialog == old(openEditDialog)
                && alerts == old(alerts) + [if reply.PatchThrew? then UpdateError else UpdateFailed]
    {
      if token == "" {
        return;
      }
      sent := sent + [PatchProfile(editData)];
      match reply {
        case PatchThrew =>
          alerts := alerts + [UpdateError];
        case PatchReplied(message) =>
          if message == Str(ProfileUpdated) {
            alerts := alerts + [Updated];
            agent := Some(Spread(agent, editData));
            openEditDialog := false;
          } else {
            alerts := alerts + [UpdateFailed];
          }
      }
    }
  }

  /** After a successful save, a field the draft holds shows the draft's
      value and any other field shows what the agent held before. */
  lemma SavedAgentShows(before: Record, draft: Record, key: string)
    ensures DetailRow(Get(Spread(Some(before), draft), key))
         == (if key in draft then DetailRow(draft[key]) else DetailRow(Get(before, key)))
  {
  }
}
