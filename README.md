# Missive MCP server: the decisions around each API call

The Missive MCP server (`local-server/main.py`) exposes one async tool per Missive REST
endpoint. Each tool does three things:

1. it checks and clamps its arguments;
2. it builds the query parameters or the JSON payload of one HTTP call;
3. it turns the JSON reply into text.

This project models the first two steps and the decisions in the third. Those are the
whitelists, the required-field rules and the limit and offset clamps, which keys end up in each
payload, the truncation with an ellipsis, the hours-and-minutes split of durations, the top-ten
breakdowns of an analytics report and the "see more" paging hint.

The project has these modules:

- `Wrappers`: `Option` and `Result`.
- `Text`: `Min`/`Max`, prefixes, and the `s[:n] + ("..." if len(s) > n else "")` ellipsis.
- `Payload`: JSON values, a caller's JSON argument, the tools' error cases, Python truthiness, and
  the "keep it only when truthy" helpers.
- `Conversations`: the `params` of `get_conversations_filtered` and the per-conversation list
  limits.
- `Tasks`: the `tasks` objects of `create_task` and `update_task`.
- `Users`: the paging of `get_users` and `list_contacts`.
- `Drafts`: the `drafts` object of `create_draft`.
- `Posts`: the `posts` object of `create_post`, its "Actions" summary and the post previews.
- `Contacts`: the `contacts` objects of `create_contact` and `update_contact`, and the kind check
  of `list_contact_groups`.
- `Messages`: the preview and body excerpts of the message tools.
- `Analytics`: the reply of `get_analytics_report`, as a sequence of abstract lines.

### How the Python becomes Dafny

- **Payload dicts.** A payload dict built key by key becomes a record with one `Option` field per
  key, where `None` means the key is absent. The boolean flags the tools only ever set to `True`
  become `bool` fields, false when absent. A `params` dict stays a `map<string, Value>`.
- **Truthiness.** Python's `if x:` becomes `TruthyText` / `TruthyList` / `TruthyInt`: present
  and non-empty, or non-zero. Python's `if x is not None:` becomes `x.Some?`.
- **Errors.** A tool that returns an error string before any request is built returns `Failure`
  with the matching `Error` case.
- **Report text.** The report text accumulated with `result +=` becomes a sequence of `Line`
  values, one per printed line, built by methods with loops. The methods are proved equal to
  specification functions, and the shape of the reply is proved about those functions. The
  *outline* of a reply is its structural lines: section headings, the names of listed rows and
  "and N more" lines.
- **Durations.** Durations are whole seconds (`nat`). Python's `//` and `%` on non-negative
  integers agree with Dafny's `/` and `%`.

## Model

| member | source | states |
|---|---|---|
| Text.Prefix | local-server/main.py:442-443 | `s[:n]`: a prefix of `s` of length `min(len(s), n)`, all of `s` when it is short enough |
| Text.Ellipsize | local-server/main.py:304 | `s[:w] + "..."` when longer than `w`: unchanged when it fits, otherwise exactly the first `w` characters followed by `...` |
| Text.EllipsizeIdempotent | local-server/main.py:304 | shortening to a width is idempotent: a preview already cut at `w` characters, with or without its ellipsis, is unchanged by cutting it again at `w` |
| Payload.KeptText | local-server/main.py:1346-1347 | an `if x:` key: kept exactly when the text is present and non-empty, and then unchanged |
| Payload.KeptList | local-server/main.py:1361-1362 | an `if xs:` key: kept exactly when the list is present and non-empty, and then unchanged |
| Conversations.FilteredParams | local-server/main.py:90-117 | unknown mailbox is an error and no params; otherwise exactly `{mailbox: "true", limit: min(limit, 50)}`, replaced by `{team_<mailbox>: team, limit}` only for inbox, closed and all with a non-empty team |
| Conversations.ListingParams | local-server/main.py:276 | the only key is `limit`, never above the list's cap (10 for messages and comments, 25 for drafts and posts), the requested value when within the cap and the cap otherwise |
| Tasks.CreatePayload | local-server/main.py:441-467 | a subtask without conversation and a standalone task with neither team nor assignees are errors (and only they); title and description are their prefixes of at most 1000 and 10000 characters; each optional key present exactly when its argument is truthy; `conversation` and `subtask` exactly for subtasks |
| Tasks.UpdatePayload | local-server/main.py:552-575 | a key for exactly the arguments that are not `None`, empty values included; a state outside todo/in_progress/closed and an update with no field are errors, and the only ones; the result is never the empty object |
| Users.SentLimit | local-server/main.py:933 | the sent limit never exceeds 200 and equals the request when it is within 200 |
| Users.SentOffset | local-server/main.py:934 | the sent offset is never negative and equals the request when it is not |
| Users.UsersParams | local-server/main.py:932-938 | `limit` and `offset` are the clamped values, `organization` is present exactly when its argument is non-empty, and no other key exists |
| Users.ContactsParams | local-server/main.py:1790-1799 | `limit` and `offset` are the clamped values, `contact_book` and `search` are present exactly when non-empty, and no other key exists |
| Users.MoreHint | local-server/main.py:983-985 | the hint as written: shown exactly when the number of records returned equals the raw requested limit, suggesting `offset + limit` from the raw values |
| Users.MoreHintMissesFullPage | local-server/main.py:983-985 | a request for 250 records gets a full page of 200 with more remaining, yet no hint |
| Users.MoreHintOverlapsAfterNegativeOffset | local-server/main.py:1850-1851 | an offset of -10 shows records 0-49 but suggests offset 40, inside the page just shown |
| Users.NextOffset | local-server/main.py:983-985 | the corrected hint: shown exactly when the page is full for the sent limit, pointing just past the last record shown |
| Users.NextOffsetWalksListing | local-server/main.py:932-935 | with the corrected hint no record is skipped or repeated: an absent hint means the listing is exhausted, and the page plus the page it points to is the double-length page from the same offset |
| Drafts.DraftPayload | local-server/main.py:1331-1369 | recipients that do not parse are an error and the only one; account and recipients always present; `send` and `close` set only when true; `send_at` only when non-zero and `send` is false; every other key present exactly when truthy and then unchanged |
| Posts.NotificationPayload | local-server/main.py:1588-1594 | the nested `notification` object exists exactly when a title or a body is given, and holds each of them exactly when it is given |
| Posts.PostPayload | local-server/main.py:1578-1628 | every key present exactly when its argument is truthy and then unchanged, the notification nested as above, and the three flags equal to their arguments |
| Posts.PostActions | local-server/main.py:1660-1676 | the actions listed are exactly those requested, each flag when true and each list when non-empty with its length, and there are as many as requested kinds, so none twice |
| Posts.PostExcerpt | local-server/main.py:1737-1745 | no preview without text or markdown; the text whenever it is non-empty, the markdown otherwise; a body that fits `width` is shown whole, and a longer one is cut to its first `width` characters followed by exactly `...` |
| Contacts.ContactInfos | local-server/main.py:1994-2000 | one entry per non-empty email and phone, the email first and the phone last |
| Contacts.InfoList | local-server/main.py:2107-2113 | the infos appended step by step equal `ContactInfos` |
| Contacts.CreateContactPayload | local-server/main.py:1985-2011 | memberships text that is non-empty and does not parse is the only error; the contact book is always present; names and notes exactly when truthy; `infos` exactly when the email or the phone is truthy, and never empty; memberships exactly when their text is non-empty |
| Contacts.UpdateContactPayload | local-server/main.py:2097-2127 | failure exactly for unparsable memberships or no field at all, with the matching error; every non-`None` field is sent unchanged; `infos` is sent whenever an email or a phone is given, and is possibly empty; no contact book |
| Contacts.GroupsParams | local-server/main.py:2280-2289 | a kind other than group or organization is an error, and the only one; otherwise the only param is the kind |
| Messages.MessagePreview | local-server/main.py:302-304 | none for an empty preview; otherwise the preview itself when it has at most 100 characters, and its first 100 characters followed by exactly `...` when it is longer |
| Messages.BodyExcerpt | local-server/main.py:697-701 | none for an empty body; otherwise the tag-stripped body itself when it has at most 500 characters, and its first 500 characters followed by exactly `...` when it is longer |
| Analytics.SplitDuration | local-server/main.py:1201-1202 | minutes below 60, and hours and minutes cover the duration to within less than a minute |
| Analytics.DurationLine | local-server/main.py:1199-1206 | no line for a zero duration and one line otherwise; hours shown exactly when the duration is at least an hour; minutes below 60; the displayed time within a minute below the duration |
| Analytics.Shown | local-server/main.py:1246 | a breakdown lists a prefix of its rows: all teams, and the first `min(len, 10)` users or labels |
| Analytics.RenderRows | local-server/main.py:1232-1237 | the row loop appends exactly the lines of every listed row, in order |
| Analytics.RenderBreakdown | local-server/main.py:1244-1264 | a breakdown as written equals its specification: nothing for an empty list, otherwise the heading, the listed rows, the remainder line and a blank line |
| Analytics.BreakdownOutline | local-server/main.py:1244-1264 | the outline of a breakdown is its heading, the names of the listed rows in order, then "and N more" when a user or label list is longer than ten |
| Analytics.TopTenBreakdown | local-server/main.py:1255-1263 | a non-empty user or label breakdown has outline length `1 + min(len, 10) + (1 if len > 10)`: the heading first, the first rows in order, and "and len - 10 more" last exactly when there are more than ten |
| Analytics.RenderMetrics | local-server/main.py:1175-1228 | the four metric sections as written equal their specification |
| Analytics.RenderReport | local-server/main.py:1145-1278 | the whole reply as written equals its specification: not found, still processing, or the full report |
| Analytics.NoSectionsUntilReady | local-server/main.py:1145-1158 | a missing report or a pending or processing one has no section at all, and a pending report ends with the still-processing notice |
| Analytics.MetricsOutline | local-server/main.py:1175-1228 | the metric sections show a heading for exactly each non-empty metric object, in the order conversations, messages, response time, resolution time |
| Analytics.BreakdownsOutline | local-server/main.py:1230-1264 | the breakdowns come in the order teams, users, labels, each with its own outline |
| Analytics.ReportOutline | local-server/main.py:1175-1276 | the outline of a finished report is the metric headings, then the three breakdowns, then the raw-data heading when no metric is there |
| Analytics.RawDataIffNoMetrics | local-server/main.py:1266-1267 | the raw-data heading appears exactly when none of the six metrics is present; the labels do not count among them |

## Left out

- HTTP and async plumbing: the `httpx` calls, `raise_for_status`, the per-status error messages,
  and the payload envelopes (`{"tasks": ...}`, `{"drafts": ...}`). The builders return the inner
  object.
- `get_api_token` reads an environment variable before any validation. It is I/O and is not
  modelled.
- `format_timestamp` depends on the local timezone and `strftime`. It is not modelled.
- `json.loads` of a caller's JSON string is a parameter (`JsonArg.parsed`), either a value or a
  parse failure. The error message text of the parser is left out.
- The regular expression that strips tags in `get_message_details` is a parameter of
  `Messages.BodyExcerpt`. Only the 500-character excerpt around it is modelled.
- Exact output text (emoji, wording, numbering, the e-mail, ID and count lines of each listed
  item) is abstracted into `Line` values. The lines the model keeps carry the decisions.
- Analytics durations that arrive as floats: durations are whole seconds only.
- JSON floats a caller passes in `to_fields_data` or `memberships_data` are carried as their
  literal text (`Value.Float`); their numeric value is never inspected.
- An empty `analytics_reports` object is "not found" in the tool. `Analytics.ReportLines` receives
  it as `None`; the step that maps `{}` to `None` is part of reading the reply and is not modelled.
- The raw-data listing of `get_analytics_report` walks arbitrary report keys and value types.
  Only its heading is modelled; the per-key lines are not.
- These tools are outside the modelled core. Their few decisions repeat patterns modelled
  elsewhere: a JSON argument that must parse, keys sent only when truthy, an `organization` filter
  sent only when given. They are not modelled:
  - `get_conversations`, `get_conversation_details`, `search_messages_by_email_id`;
  - `create_custom_message` and `create_analytics_report`, including its `strptime` date
    check;
  - `delete_draft`, `delete_contact`, `get_contact`;
  - `list_contact_books`, `list_organizations`, `list_teams`, `list_shared_labels`.
- `mcp.run()` and tool registration belong to the framework.
- Posts.PostActions: states which actions are listed, with their counts and no repeats, but not
  the fixed order in which the reply lists them (closed, reopened, moved to inbox, labels added,
  labels removed, assigned, unassigned).
- Users.Page: the server is taken to honour the sent offset and limit exactly. That is an
  assumption about the Missive API, not about this code.

## Findings

| source | as written | input that shows it | evidently intended | confidence | as-written member | corrected member |
|---|---|---|---|---|---|---|
| local-server/main.py:983-985 | the "see more" hint is shown when the count returned equals the raw `limit`, which can exceed the 200 actually sent | `get_users(limit=250)` on 300 users: 200 are returned, no hint | compare with the limit sent, `min(limit, 200)` | not executed | Users.MoreHintMissesFullPage | Users.NextOffset |
| local-server/main.py:1850-1851 | the next offset is the raw `offset + limit`, while the page started at `max(offset, 0)` | `list_contacts(limit=50, offset=-10)`: records 0-49 shown, "Use offset=40" suggested | `max(offset, 0) + min(limit, 200)` | not executed | Users.MoreHintOverlapsAfterNegativeOffset | Users.NextOffsetWalksListing |
