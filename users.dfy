/** Paging of `get_users` and `list_contacts`: the query parameters and the "see more" hint. */
module Users {
  import opened Wrappers
  import opened Text
  import opened Payload

  /** The largest page the two listing tools ask for. */
  const PageCap := 200

  /** The limit actually sent: `min(limit, 200)`. */
  function SentLimit(limit: int): (l: int)
    ensures l <= PageCap
    ensures limit <= PageCap ==> l == limit
    ensures limit > PageCap ==> l == PageCap
  {
    Min(limit, PageCap)
  }

  /** The offset actually sent: `max(offset, 0)`. */
  function SentOffset(offset: int): (o: nat)
    ensures offset >= 0 ==> o == offset
    ensures offset < 0 ==> o == 0
  {
    Max(offset, 0)
  }

  /** The `params` dict of `get_users`. */
  method UsersParams(organizationId: Option<string>, limit: int, offset: int) returns (params: Fields)
    ensures "limit" in params && params["limit"] == Int(SentLimit(limit))
    ensures "offset" in params && params["offset"] == Int(SentOffset(offset))
    ensures "organization" in params <==> TruthyText(organizationId)
    ensures TruthyText(organizationId) ==> params["organization"] == Str(organizationId.value)
    ensures params.Keys <= {"limit", "offset", "organization"}
  {
    params := map["limit" := Int(SentLimit(limit)), "offset" := Int(SentOffset(offset))];
    if TruthyText(organizationId) {
      params := params["organization" := Str(organizationId.value)];
    }
  }

  /** The `params` dict of `list_contacts`. */
  method ContactsParams(contactBookId: Option<string>, search: Option<string>, limit: int, offset: int)
    returns (params: Fields)
    ensures "limit" in params && params["limit"] == Int(SentLimit(limit))
    ensures "offset" in params && params["offset"] == Int(SentOffset(offset))
    ensures "contact_book" in params <==> TruthyText(contactBookId)
    ensures TruthyText(contactBookId) ==> params["contact_book"] == Str(contactBookId.value)
    ensures "search" in params <==> TruthyText(search)
    ensures TruthyText(search) ==> params["search"] == Str(search.value)
    ensures params.Keys <= {"limit", "offset", "contact_book", "search"}
  {
    params := map["limit" := Int(SentLimit(limit)), "offset" := Int(SentOffset(offset))];
    if TruthyText(contactBookId) {
      params := params["contact_book" := Str(contactBookId.value)];
    }
    if TruthyText(search) {
      params := params["search" := Str(search.value)];
    }
  }

  /** The "see more" hint of both tools as written: after a non-empty reply of `returned`
      records, it appears exactly when `returned` equals the RAW requested limit, and suggests
      the raw `offset + limit`. (An empty reply returns "not found" before the hint.) */
  function MoreHint(returned: nat, limit: int, offset: int): (next: Option<int>)
    ensures next.Some? <==> returned > 0 && returned == limit
    ensures next.Some? ==> next.value == offset + returned
  {
    if returned > 0 && returned == limit then Some(offset + limit) else None
  }

  /** The upstream listing, taken to honour the sent offset and limit exactly:
      the records from `offset` on, at most `limit` of them. */
  function Page<T>(all: seq<T>, offset: nat, limit: nat): (page: seq<T>)
    ensures |page| <= limit
    ensures offset + |page| <= |all| || page == []
    ensures |page| < limit ==> offset + |page| >= |all|
  {
    if offset >= |all| then [] else all[offset..Min(offset + limit, |all|)]
  }

  /** With a limit above 200 the server sends a full page of 200 records, yet the hint is
      missing although more records remain. */
  lemma MoreHintMissesFullPage()
    ensures var all := seq(300, i => i);
            var page := Page(all, SentOffset(0), SentLimit(250));
            |page| == 200 && |page| < |all| && MoreHint(|page|, 250, 0) == None
  {
  }

  /** With a negative offset the page starts at record 0, yet the hint points back into the
      page just shown, so the next page repeats records. */
  lemma MoreHintOverlapsAfterNegativeOffset()
    ensures var all := seq(100, i => i);
            var page := Page(all, SentOffset(-10), SentLimit(50));
            |page| == 50 && MoreHint(|page|, 50, -10) == Some(40) && 40 < SentOffset(-10) + |page|
  {
  }

  /** The hint computed from the values actually sent: present exactly when the page is full,
      pointing just past the last record shown. */
  function NextOffset(returned: nat, limit: int, offset: int): (next: Option<int>)
    ensures next.Some? <==> returned > 0 && returned == SentLimit(limit)
    ensures next.Some? ==> next.value == SentOffset(offset) + returned
  {
    if returned > 0 && returned == SentLimit(limit) then Some(SentOffset(offset) + returned) else None
  }

  /** Following `NextOffset` misses nothing and repeats nothing: when it is absent the listing
      is exhausted, and when present the current page followed by the page it points to is
      exactly the double-length page from the current offset. */
  lemma NextOffsetWalksListing<T>(all: seq<T>, limit: int, offset: int)
    requires limit >= 1
    ensures var page := Page(all, SentOffset(offset), SentLimit(limit));
            var next := NextOffset(|page|, limit, offset);
            && (next.None? ==> SentOffset(offset) + |page| >= |all|)
            && (next.Some? ==> page + Page(all, next.value, SentLimit(limit)) == Page(all, SentOffset(offset), 2 * SentLimit(limit)))
  {
    var o, l := SentOffset(offset), SentLimit(limit);
    var page := Page(all, o, l);
    if |page| > 0 && |page| == l {
      assert o + l <= |all|;
      var rest := Page(all, o + l, l);
      if o + l >= |all| {
        assert rest == [];
        assert Page(all, o, 2 * l) == all[o..|all|];
      } else {
        assert rest == all[o + l..Min(o + 2 * l, |all|)];
        assert Page(all, o, 2 * l) == all[o..Min(o + 2 * l, |all|)];
      }
    }
  }
}
