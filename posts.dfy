/** The `posts` payload of `create_post`, the summary of what a post asked for, and the post
    previews. */
module Posts {
  import opened Wrappers
  import opened Text
  import opened Payload

  /** The nested `notification` object of a post. */
  datatype Notification = Notification(title: Option<string>, body: Option<string>)

  /** The `posts` JSON object: one field per key, `None` (or `false` for the three flags) where
      the key is absent. */
  datatype Post = Post(
    conversation: Option<string>,
    organization: Option<string>,
    notification: Option<Notification>,
    username: Option<string>,
    usernameIcon: Option<string>,
    text: Option<string>,
    markdown: Option<string>,
    team: Option<string>,
    addSharedLabels: Option<seq<string>>,
    removeSharedLabels: Option<seq<string>>,
    addAssignees: Option<seq<string>>,
    removeAssignees: Option<seq<string>>,
    close: bool,
    reopen: bool,
    addToInbox: bool)

  /** The nested `notification` object of `create_post`: the title opens it, the body joins
      the object the title opened or opens a fresh one, and it exists exactly when either is
      given. */
  method NotificationPayload(title: Option<string>, body: Option<string>) returns (n: Option<Notification>)
    ensures n.Some? <==> TruthyText(title) || TruthyText(body)
    ensures n.Some? ==>
      && (n.value.title.Some? <==> TruthyText(title))
      && (TruthyText(title) ==> n.value.title == title)
      && (n.value.body.Some? <==> TruthyText(body))
      && (TruthyText(body) ==> n.value.body == body)
  {
    n := None;
    if TruthyText(title) {
      n := Some(Notification(title, None));
    }
    if TruthyText(body) {
      var current := if n.Some? then n.value else Notification(None, None);
      n := Some(current.(body := body));
    }
  }

  /** The post of `create_post`: each key exactly when its argument is truthy (each flag only
      when true), with the push-notification title and body gathered in one nested
      `notification` object that exists exactly when one of them is given. */
  method PostPayload(
    conversationId: Option<string>,
    organizationId: Option<string>,
    notificationTitle: Option<string>,
    notificationBody: Option<string>,
    username: Option<string>,
    usernameIcon: Option<string>,
    text: Option<string>,
    markdown: Option<string>,
    teamId: Option<string>,
    addSharedLabels: Option<seq<string>>,
    removeSharedLabels: Option<seq<string>>,
    addAssignees: Option<seq<string>>,
    removeAssignees: Option<seq<string>>,
    close: bool,
    reopen: bool,
    addToInbox: bool
  ) returns (post: Post)
    ensures post.notification.Some? <==> TruthyText(notificationTitle) || TruthyText(notificationBody)
    ensures post.notification.Some? ==>
      && (post.notification.value.title.Some? <==> TruthyText(notificationTitle))
      && (TruthyText(notificationTitle) ==> post.notification.value.title == notificationTitle)
      && (post.notification.value.body.Some? <==> TruthyText(notificationBody))
      && (TruthyText(notificationBody) ==> post.notification.value.body == notificationBody)
    ensures
      && (post.conversation.Some? <==> TruthyText(conversationId))
      && (TruthyText(conversationId) ==> post.conversation == conversationId)
      && (post.organization.Some? <==> TruthyText(organizationId))
      && (TruthyText(organizationId) ==> post.organization == organizationId)
      && (post.username.Some? <==> TruthyText(username))
      && (TruthyText(username) ==> post.username == username)
      && (post.usernameIcon.Some? <==> TruthyText(usernameIcon))
      && (TruthyText(usernameIcon) ==> post.usernameIcon == usernameIcon)
    ensures
      && (post.text.Some? <==> TruthyText(text))
      && (TruthyText(text) ==> post.text == text)
      && (post.markdown.Some? <==> TruthyText(markdown))
      && (TruthyText(markdown) ==> post.markdown == markdown)
      && (post.team.Some? <==> TruthyText(teamId))
      && (TruthyText(teamId) ==> post.team == teamId)
    ensures
      && (post.addSharedLabels.Some? <==> TruthyList(addSharedLabels))
      && (TruthyList(addSharedLabels) ==> post.addSharedLabels == addSharedLabels)
      && (post.removeSharedLabels.Some? <==> TruthyList(removeSharedLabels))
      && (TruthyList(removeSharedLabels) ==> post.removeSharedLabels == removeSharedLabels)
      && (post.addAssignees.Some? <==> TruthyList(addAssignees))
      && (TruthyList(addAssignees) ==> post.addAssignees == addAssignees)
      && (post.removeAssignees.Some? <==> TruthyList(removeAssignees))
      && (TruthyList(removeAssignees) ==> post.removeAssignees == removeAssignees)
    ensures post.close == close && post.reopen == reopen && post.addToInbox == addToInbox
  {
    var notification := NotificationPayload(notificationTitle, notificationBody);
    var conversation := KeptText(conversationId);
    var organization := KeptText(organizationId);
    var author := KeptText(username);
    var icon := KeptText(usernameIcon);
    var plain := KeptText(text);
    var formatted := KeptText(markdown);
    var team := KeptText(teamId);
    var labelsIn := KeptList(addSharedLabels);
    var labelsOut := KeptList(removeSharedLabels);
    var assigneesIn := KeptList(addAssignees);
    var assigneesOut := KeptList(removeAssignees);
    post := Post(conversation, organization, notification, author, icon, plain, formatted, team,
                 labelsIn, labelsOut, assigneesIn, assigneesOut, close, reopen, addToInbox);
  }

  /** One entry of the "Actions" line of the reply of `create_post`; the counts are the lengths
      of the label and assignee lists. */
  datatype Action =
    | Closed
    | Reopened
    | MovedToInbox
    | AddedLabels(count: nat)
    | RemovedLabels(count: nat)
    | Assigned(count: nat)
    | Unassigned(count: nat)

  /** The conversation changes a post asks for, as `create_post` receives them. */
  datatype Changes = Changes(
    close: bool,
    reopen: bool,
    addToInbox: bool,
    addSharedLabels: Option<seq<string>>,
    removeSharedLabels: Option<seq<string>>,
    addAssignees: Option<seq<string>>,
    removeAssignees: Option<seq<string>>)

  /** Whether `c` asks for `a`, with its count: a flag when it is true, a list when it is
      non-empty, counted by its length. */
  predicate Requested(a: Action, c: Changes) {
    match a
    case Closed => c.close
    case Reopened => c.reopen
    case MovedToInbox => c.addToInbox
    case AddedLabels(n) => TruthyList(c.addSharedLabels) && n == |c.addSharedLabels.value|
    case RemovedLabels(n) => TruthyList(c.removeSharedLabels) && n == |c.removeSharedLabels.value|
    case Assigned(n) => TruthyList(c.addAssignees) && n == |c.addAssignees.value|
    case Unassigned(n) => TruthyList(c.removeAssignees) && n == |c.removeAssignees.value|
  }

  /** How many kinds of action `c` asks for. */
  function RequestedKinds(c: Changes): (n: nat)
    ensures n <= 7
  {
    (if c.close then 1 else 0) + (if c.reopen then 1 else 0) + (if c.addToInbox then 1 else 0)
    + (if TruthyList(c.addSharedLabels) then 1 else 0) + (if TruthyList(c.removeSharedLabels) then 1 else 0)
    + (if TruthyList(c.addAssignees) then 1 else 0) + (if TruthyList(c.removeAssignees) then 1 else 0)
  }

  /** The actions the reply of `create_post` lists: exactly the requested ones, and as many
      as there are requested kinds, so none twice. */
  method PostActions(c: Changes) returns (actions: seq<Action>)
    ensures forall a :: a in actions <==> Requested(a, c)
    ensures |actions| == RequestedKinds(c)
  {
    actions := [];
    if c.close {
      actions := actions + [Closed];
    }
    if c.reopen {
      actions := actions + [Reopened];
    }
    if c.addToInbox {
      actions := actions + [MovedToInbox];
    }
    if TruthyList(c.addSharedLabels) {
      actions := actions + [AddedLabels(|c.addSharedLabels.value|)];
    }
    if TruthyList(c.removeSharedLabels) {
      actions := actions + [RemovedLabels(|c.removeSharedLabels.value|)];
    }
    if TruthyList(c.addAssignees) {
      actions := actions + [Assigned(|c.addAssignees.value|)];
    }
    if TruthyList(c.removeAssignees) {
      actions := actions + [Unassigned(|c.removeAssignees.value|)];
    }
  }

  /** Which of a post's two bodies a preview shows. */
  datatype Excerpt = TextExcerpt(text: string) | MarkdownExcerpt(markdown: string)

  /** The preview of a post's content, cut at `width` characters with an ellipsis (100 in the
      reply of `create_post`, 150 in `get_conversation_posts`): the text wins whenever it is
      non-empty, the markdown shows only in its absence, and no preview exists without either.
      A body that fits is shown whole; a longer one is cut and followed by exactly "...". */
  function PostExcerpt(text: Option<string>, markdown: Option<string>, width: nat): (e: Option<Excerpt>)
    ensures e.None? <==> !TruthyText(text) && !TruthyText(markdown)
    ensures e.Some? ==> (e.value.TextExcerpt? <==> TruthyText(text))
    ensures e.Some? && e.value.TextExcerpt? ==>
      && (|text.value| <= width ==> e.value.text == text.value)
      && (|text.value| > width ==> e.value.text == text.value[..width] + "...")
    ensures e.Some? && e.value.MarkdownExcerpt? ==>
      && (|markdown.value| <= width ==> e.value.markdown == markdown.value)
      && (|markdown.value| > width ==> e.value.markdown == markdown.value[..width] + "...")
  {
    if TruthyText(text) then Some(TextExcerpt(Ellipsize(text.value, width)))
    else if TruthyText(markdown) then Some(MarkdownExcerpt(Ellipsize(markdown.value, width)))
    else None
  }
}
