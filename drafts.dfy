/** The `drafts` object that `create_draft` posts. */
module Drafts {
  import opened Wrappers
  import opened Payload

  /** The `drafts` JSON object: one field per key, `None` (or `false` for the `send` and
      `close` flags) where the key is absent. */
  datatype Draft = Draft(
    account: string,
    toFields: Value,
    subject: Option<string>,
    body: Option<string>,
    send: bool,
    sendAt: Option<int>,
    conversation: Option<string>,
    team: Option<string>,
    addSharedLabels: Option<seq<string>>,
    addAssignees: Option<seq<string>>,
    close: bool)

  /** The draft of `create_draft`: the account and the parsed recipients always; `send` and
      `close` only when true; a schedule only when the draft is not sent at once; every other
      key exactly when its argument is truthy. Recipients that do not parse are an error. */
  method DraftPayload(
    accountId: string,
    toFields: JsonArg,
    subject: Option<string>,
    body: Option<string>,
    send: bool,
    sendAt: Option<int>,
    conversationId: Option<string>,
    teamId: Option<string>,
    addSharedLabels: Option<seq<string>>,
    addAssignees: Option<seq<string>>,
    close: bool
  ) returns (r: Result<Draft, Error>)
    ensures r.Failure? <==> toFields.parsed.None?
    ensures r.Failure? ==> r.error == InvalidJson("to_fields_data")
    ensures r.Success? ==> r.value.account == accountId && r.value.toFields == toFields.parsed.value
    ensures r.Success? ==>
      && r.value.send == send
      && (r.value.sendAt.Some? <==> TruthyInt(sendAt) && !send)
      && (r.value.sendAt.Some? ==> r.value.sendAt == sendAt)
      && r.value.close == close
    ensures r.Success? ==>
      && (r.value.subject.Some? <==> TruthyText(subject))
      && (TruthyText(subject) ==> r.value.subject == subject)
      && (r.value.body.Some? <==> TruthyText(body))
      && (TruthyText(body) ==> r.value.body == body)
      && (r.value.conversation.Some? <==> TruthyText(conversationId))
      && (TruthyText(conversationId) ==> r.value.conversation == conversationId)
      && (r.value.team.Some? <==> TruthyText(teamId))
      && (TruthyText(teamId) ==> r.value.team == teamId)
    ensures r.Success? ==>
      && (r.value.addSharedLabels.Some? <==> TruthyList(addSharedLabels))
      && (TruthyList(addSharedLabels) ==> r.value.addSharedLabels == addSharedLabels)
      && (r.value.addAssignees.Some? <==> TruthyList(addAssignees))
      && (TruthyList(addAssignees) ==> r.value.addAssignees == addAssignees)
  {
    if toFields.parsed.None? {
      return Failure(InvalidJson("to_fields_data"));
    }
    var recipients := toFields.parsed.value;
    var subj := KeptText(subject);
    var content := KeptText(body);
    var schedule := if TruthyInt(sendAt) && !send then sendAt else None;
    var conv := KeptText(conversationId);
    var team := KeptText(teamId);
    var labels := KeptList(addSharedLabels);
    var assignees := KeptList(addAssignees);
    var draft := Draft(accountId, recipients, subj, content, send, schedule, conv, team, labels, assignees, close);
    return Success(draft);
  }
}
