/** Query parameters of the conversation tools: the mailbox filter of
    `get_conversations_filtered` and the per-conversation list limits. */
module Conversations {
  import opened Wrappers
  import opened Text
  import opened Payload

  /** The largest page `get_conversations_filtered` asks for. */
  const ListCap := 50

  /** The mailboxes `get_conversations_filtered` accepts. */
  const Mailboxes: set<string> := {"inbox", "all", "assigned", "closed", "flagged", "trashed", "junked", "snoozed"}

  /** The mailboxes that have a team variant (`team_inbox`, `team_closed`, `team_all`). */
  const TeamMailboxes: set<string> := {"inbox", "closed", "all"}

  /** The `params` dict of `get_conversations_filtered`: one flag named after the mailbox, or,
      with a team, the team variant of the three mailboxes that have one; an unknown mailbox is
      an error and no request is built. */
  method FilteredParams(mailbox: string, limit: int, teamId: Option<string>) returns (r: Result<Fields, Error>)
    ensures r.Failure? <==> mailbox !in Mailboxes
    ensures r.Failure? ==> r.error == InvalidMailbox(mailbox)
    ensures r.Success? && TruthyText(teamId) && mailbox in TeamMailboxes ==>
      r.value == map["team_" + mailbox := Str(teamId.value), "limit" := Int(Min(limit, ListCap))]
    ensures r.Success? && !(TruthyText(teamId) && mailbox in TeamMailboxes) ==>
      r.value == map[mailbox := Str("true"), "limit" := Int(Min(limit, ListCap))]
  {
    var params: Fields := map["limit" := Int(Min(limit, ListCap))];
    if mailbox == "inbox" {
      params := params["inbox" := Str("true")];
    } else if mailbox == "all" {
      params := params["all" := Str("true")];
    } else if mailbox == "assigned" {
      params := params["assigned" := Str("true")];
    } else if mailbox == "closed" {
      params := params["closed" := Str("true")];
    } else if mailbox == "flagged" {
      params := params["flagged" := Str("true")];
    } else if mailbox == "trashed" {
      params := params["trashed" := Str("true")];
    } else if mailbox == "junked" {
      params := params["junked" := Str("true")];
    } else if mailbox == "snoozed" {
      params := params["snoozed" := Str("true")];
    } else {
      return Failure(InvalidMailbox(mailbox));
    }
    if TruthyText(teamId) {
      if mailbox == "inbox" {
        assert "team_" + mailbox == "team_inbox";
        params := map["team_inbox" := Str(teamId.value), "limit" := Int(Min(limit, ListCap))];
      } else if mailbox == "closed" {
        assert "team_" + mailbox == "team_closed";
        params := map["team_closed" := Str(teamId.value), "limit" := Int(Min(limit, ListCap))];
      } else if mailbox == "all" {
        assert "team_" + mailbox == "team_all";
        params := map["team_all" := Str(teamId.value), "limit" := Int(Min(limit, ListCap))];
      }
    }
    return Success(params);
  }

  /** The per-conversation lists, each fetched with its own cap. */
  datatype Listing = Messages | Comments | Drafts | Posts

  /** Messages and comments are capped at 10, drafts and posts at 25. */
  function Cap(listing: Listing): nat
  {
    match listing
    case Messages => 10
    case Comments => 10
    case Drafts => 25
    case Posts => 25
  }

  /** `params={"limit": min(limit, cap)}` of the four per-conversation list tools. */
  function ListingParams(listing: Listing, limit: int): (params: Fields)
    ensures params.Keys == {"limit"}
    ensures params["limit"].Int? && params["limit"].n <= Cap(listing)
    ensures limit <= Cap(listing) ==> params["limit"].n == limit
    ensures limit > Cap(listing) ==> params["limit"].n == Cap(listing)
  {
    map["limit" := Int(Min(limit, Cap(listing)))]
  }
}
