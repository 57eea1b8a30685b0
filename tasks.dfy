/** The `tasks` object that `create_task` posts and `update_task` patches. */
module Tasks {
  import opened Wrappers
  import opened Text
  import opened Payload

  /** Longest title and description the tools send. */
  const TitleMax := 1000
  const DescriptionMax := 10000

  /** The states `update_task` accepts. */
  const States: set<string> := {"todo", "in_progress", "closed"}

  /** The `tasks` JSON object: one field per key, `None` (or `false` for the `subtask` flag)
      where the key is absent. */
  datatype Task = Task(
    title: Option<string>,
    description: Option<string>,
    state: Option<string>,
    organization: Option<string>,
    team: Option<string>,
    assignees: Option<seq<string>>,
    dueAt: Option<int>,
    conversation: Option<string>,
    subtask: bool)

  /** The object with no key at all. */
  const NoKeys := Task(None, None, None, None, None, None, None, None, false)

  /** The task of `create_task`. A subtask needs a conversation and is marked `subtask`; a
      standalone task needs a team or assignees. Title and description are always sent, cut to
      their maxima; every other key is present exactly when its argument is truthy. */
  method CreatePayload(
    title: string,
    description: string,
    organizationId: Option<string>,
    teamId: Option<string>,
    assigneeIds: Option<seq<string>>,
    dueDate: Option<int>,
    conversationId: Option<string>,
    isSubtask: bool
  ) returns (r: Result<Task, Error>)
    ensures isSubtask ==> (r.Failure? <==> !TruthyText(conversationId))
    ensures !isSubtask ==> (r.Failure? <==> !TruthyText(teamId) && !TruthyList(assigneeIds))
    ensures r.Failure? ==> r.error == (if isSubtask then SubtaskWithoutConversation else StandaloneWithoutTeamOrAssignees)
    ensures r.Success? ==>
      && r.value.title == Some(Prefix(title, TitleMax))
      && r.value.description == Some(Prefix(description, DescriptionMax))
      && r.value.state.None?
    ensures r.Success? ==>
      && (r.value.organization.Some? <==> TruthyText(organizationId))
      && (TruthyText(organizationId) ==> r.value.organization == organizationId)
      && (r.value.team.Some? <==> TruthyText(teamId))
      && (TruthyText(teamId) ==> r.value.team == teamId)
      && (r.value.assignees.Some? <==> TruthyList(assigneeIds))
      && (TruthyList(assigneeIds) ==> r.value.assignees == assigneeIds)
      && (r.value.dueAt.Some? <==> TruthyInt(dueDate))
      && (TruthyInt(dueDate) ==> r.value.dueAt == dueDate)
    ensures r.Success? ==>
      && (r.value.conversation.Some? <==> isSubtask)
      && (isSubtask ==> r.value.conversation == conversationId)
      && r.value.subtask == isSubtask
  {
    var task := NoKeys.(
      title := Some(Prefix(title, TitleMax)),
      description := Some(if description != "" then Prefix(description, DescriptionMax) else ""));
    if TruthyText(organizationId) {
      task := task.(organization := organizationId);
    }
    if TruthyText(teamId) {
      task := task.(team := teamId);
    }
    if TruthyList(assigneeIds) {
      task := task.(assignees := assigneeIds);
    }
    if TruthyInt(dueDate) {
      task := task.(dueAt := dueDate);
    }
    if isSubtask {
      if !TruthyText(conversationId) {
        return Failure(SubtaskWithoutConversation);
      }
      task := task.(conversation := conversationId, subtask := true);
    } else {
      if !TruthyText(teamId) && !TruthyList(assigneeIds) {
        return Failure(StandaloneWithoutTeamOrAssignees);
      }
    }
    return Success(task);
  }

  /** The task of `update_task`: a key for every argument that is not `None` (an empty
      string or list still counts as given); a state outside `States` is an error, and so is
      an update that would send no key at all. */
  method UpdatePayload(
    title: Option<string>,
    description: Option<string>,
    state: Option<string>,
    assigneeIds: Option<seq<string>>,
    teamId: Option<string>,
    dueDate: Option<int>
  ) returns (r: Result<Task, Error>)
    ensures state.Some? && state.value !in States ==> r == Failure(InvalidTaskState(state.value))
    ensures title.None? && description.None? && state.None? && assigneeIds.None? && teamId.None? && dueDate.None? ==>
      r == Failure(NothingToUpdate)
    ensures r.Failure? ==>
      (state.Some? && state.value !in States) ||
      (title.None? && description.None? && state.None? && assigneeIds.None? && teamId.None? && dueDate.None?)
    ensures r.Success? ==>
      && (r.value.title.Some? <==> title.Some?)
      && (title.Some? ==> r.value.title == Some(Prefix(title.value, TitleMax)))
      && (r.value.description.Some? <==> description.Some?)
      && (description.Some? ==> r.value.description == Some(Prefix(description.value, DescriptionMax)))
      && r.value.state == state
      && (state.Some? ==> state.value in States)
    ensures r.Success? ==>
      && r.value.assignees == assigneeIds
      && r.value.team == teamId
      && r.value.dueAt == dueDate
      && r.value.organization.None? && r.value.conversation.None? && !r.value.subtask
    ensures r.Success? ==> r.value != NoKeys
  {
    var task := NoKeys;
    if title.Some? {
      task := task.(title := Some(Prefix(title.value, TitleMax)));
    }
    if description.Some? {
      task := task.(description := Some(Prefix(description.value, DescriptionMax)));
    }
    if state.Some? {
      if state.value !in States {
        return Failure(InvalidTaskState(state.value));
      }
      task := task.(state := state);
    }
    if assigneeIds.Some? {
      task := task.(assignees := assigneeIds);
    }
    if teamId.Some? {
      task := task.(team := teamId);
    }
    if dueDate.Some? {
      task := task.(dueAt := dueDate);
    }
    if task == NoKeys {
      return Failure(NothingToUpdate);
    }
    return Success(task);
  }
}
