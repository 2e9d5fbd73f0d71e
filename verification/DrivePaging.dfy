/**
 * Keyset pagination of a ticket's artifacts (apps/drive/src/storage/store.ts, listByTicket).  A page
 * token is the id of the last artifact looked at, so whole pages may be filtered out and still lead on.
 */
module DrivePaging {
  import opened Prelude
  import opened DriveIndex
  import opened DriveMachine

  const PAGE_SIZE := 100

  datatype Page = Page(items: seq<Id>, token: Option<Id>)

  predicate Increasing(s: seq<Id>) {
    forall i, k | 0 <= i < k < |s| :: s[i] < s[k]
  }

  /** ORDER BY artifact_id ASC. */
  function Sorted(ids: set<Id>): (s: seq<Id>)
    ensures Increasing(s) && |s| == |ids|
    ensures forall a :: a in s <==> a in ids
    decreases |ids|
  {
    if ids == {} then []
    else
      var m := Largest(ids);
      var rest := Sorted(ids - {m});
      assert forall i | 0 <= i < |rest| :: rest[i] in rest;
      rest + [m]
  }

  /** WHERE ticket_id = ? AND artifact_id > ?; the empty cursor lies below every id. */
  function Candidates(ix: Index, ticket: Ticket, after: Option<Id>): set<Id> {
    set a | a in ix.artifacts && ix.artifacts[a].ticket == ticket && (after.Some? ==> a > after.value)
  }

  /** Registration-only artifacts are hidden, delete-marked ones unless asked for. */
  predicate Visible(ix: Index, a: Id, includeDeleted: bool) {
    a in ix.artifacts && HasVersion(ix.versions, a) && (includeDeleted || ix.artifacts[a].current.Some?)
  }

  function Shown(ix: Index, ids: seq<Id>, includeDeleted: bool): seq<Id> {
    if ids == [] then []
    else Shown(ix, Front(ids), includeDeleted) + (if Visible(ix, Last(ids), includeDeleted) then [Last(ids)] else [])
  }

  function PageOf(ix: Index, ticket: Ticket, after: Option<Id>, includeDeleted: bool): Page {
    var ids := Sorted(Candidates(ix, ticket, after));
    if |ids| > PAGE_SIZE then Page(Shown(ix, ids[..PAGE_SIZE], includeDeleted), Some(ids[PAGE_SIZE - 1]))
    else Page(Shown(ix, ids, includeDeleted), None)
  }

  method ListByTicket(ix: Index, ticket: Ticket, after: Option<Id>,
                      includeDeleted: bool) returns (r: Result<Page, DriveError>)
    ensures r == if ValidTicket(ticket) then Ok(PageOf(ix, ticket, after, includeDeleted)) else Err(MalformedId)
  {
    if !ValidTicket(ticket) {
      return Err(MalformedId);
    }
    hide Shown, Visible, Increasing, Candidates;
    CandidatesExist(ix, ticket, after);
    var ids := Sorted(Candidates(ix, ticket, after));
    var rows := if |ids| > PAGE_SIZE + 1 then ids[..PAGE_SIZE + 1] else ids;
    var page := if |rows| > PAGE_SIZE then rows[..PAGE_SIZE] else rows;
    assert page == if |ids| > PAGE_SIZE then ids[..PAGE_SIZE] else ids;
    assert forall i | 0 <= i < |page| :: page[i] == ids[i] && ids[i] in ids;
    var items := FilterPage(ix, page, includeDeleted);
    return Ok(Page(items, if |rows| > PAGE_SIZE then Some(Last(page)) else None));
  }

  lemma CandidatesExist(ix: Index, ticket: Ticket, after: Option<Id>)
    ensures Candidates(ix, ticket, after) <= ix.artifacts.Keys
  {
  }

  /** The page loop: hide registration-only artifacts, and delete-marked ones unless asked for. */
  method FilterPage(ix: Index, page: seq<Id>, includeDeleted: bool) returns (items: seq<Id>)
    requires forall i | 0 <= i < |page| :: page[i] in ix.artifacts
    ensures items == Shown(ix, page, includeDeleted)
  {
    items := [];
    var i := 0;
    while i < |page|
      invariant 0 <= i <= |page|
      invariant items == Shown(ix, page[..i], includeDeleted)
    {
      var a := page[i];
      assert Front(page[..i + 1]) == page[..i] && Last(page[..i + 1]) == a;
      var hasVersion := HasVersion(ix.versions, a);
      var deleted := ix.artifacts[a].current.None? && hasVersion;
      if hasVersion && (!deleted || includeDeleted) {
        items := items + [a];
      }
      i := i + 1;
    }
    assert page[..i] == page;
  }

  // ----- following the tokens ------------------------------------------------------------------------------

  /** An increasing sequence is determined by its members. */
  lemma {:induction false} IncreasingUnique(s: seq<Id>, t: seq<Id>)
    requires Increasing(s) && Increasing(t) && forall a :: a in s <==> a in t
    ensures s == t
  {
    assert (s != [] ==> s[0] in s) && (t != [] ==> t[0] in t);
    if s != [] && t != [] {
      SameLast(s, t);
      forall a
        ensures a in Front(s) <==> a in Front(t)
      {
        FrontMember(s, a);
        FrontMember(t, a);
      }
      IncreasingUnique(Front(s), Front(t));
      assert s == Front(s) + [Last(s)] && t == Front(t) + [Last(t)];
    }
  }

  lemma SameLast(s: seq<Id>, t: seq<Id>)
    requires Increasing(s) && Increasing(t) && s != [] && t != [] && forall a :: a in s <==> a in t
    ensures Last(s) == Last(t)
  {
    assert Last(s) in t && Last(t) in s;
    var i :| 0 <= i < |t| && t[i] == Last(s);
    var k :| 0 <= k < |s| && s[k] == Last(t);
  }

  lemma FrontMember(s: seq<Id>, a: Id)
    requires Increasing(s) && s != []
    ensures a in Front(s) <==> a in s && a != Last(s)
  {
    if a in s && a != Last(s) {
      var i :| 0 <= i < |s| && s[i] == a;
      assert Front(s)[i] == a;
    }
  }

  lemma TailMember(ids: seq<Id>, k: nat, a: Id)
    requires Increasing(ids) && k < |ids|
    ensures a in ids[k + 1..] <==> a in ids && a > ids[k]
  {
    if a in ids && a > ids[k] {
      var i :| 0 <= i < |ids| && ids[i] == a;
      assert ids[k + 1..][i - k - 1] == a;
    }
    if a in ids[k + 1..] {
      var i :| 0 <= i < |ids[k + 1..]| && ids[k + 1..][i] == a;
      assert ids[i + k + 1] == a;
    }
  }

  /** The query behind a cursor is the rest of the query before it. */
  lemma CursorDrops(ix: Index, ticket: Ticket, after: Option<Id>, k: nat)
    requires k < |Sorted(Candidates(ix, ticket, after))|
    ensures Sorted(Candidates(ix, ticket, Some(Sorted(Candidates(ix, ticket, after))[k]))) ==
            Sorted(Candidates(ix, ticket, after))[k + 1..]
  {
    hide Sorted;
    var ids := Sorted(Candidates(ix, ticket, after));
    var rest := Sorted(Candidates(ix, ticket, Some(ids[k])));
    assert ids[k] in ids;
    forall a
      ensures a in rest <==> a in ids[k + 1..]
    {
      TailMember(ids, k, a);
    }
    IncreasingUnique(rest, ids[k + 1..]);
  }

  lemma {:induction false} ShownJoins(ix: Index, a: seq<Id>, b: seq<Id>, includeDeleted: bool)
    ensures Shown(ix, a + b, includeDeleted) == Shown(ix, a, includeDeleted) + Shown(ix, b, includeDeleted)
  {
    if b == [] {
      assert a + b == a;
    } else {
      assert Front(a + b) == a + Front(b);
      ShownJoins(ix, a, Front(b), includeDeleted);
    }
  }

  /** Everything a client collects that follows tokens from `after` until there is none. */
  function Follow(ix: Index, ticket: Ticket, after: Option<Id>, includeDeleted: bool): seq<Id>
    decreases |Candidates(ix, ticket, after)|
  {
    var page := PageOf(ix, ticket, after, includeDeleted);
    if page.token.None? then page.items
    else
      assert |Candidates(ix, ticket, page.token)| < |Candidates(ix, ticket, after)| by {
        CursorDrops(ix, ticket, after, PAGE_SIZE - 1);
      }
      page.items + Follow(ix, ticket, page.token, includeDeleted)
  }

  /** Following the tokens gives the unpaged query, whichever pages came back empty. */
  lemma {:induction false} FollowIsQuery(ix: Index, ticket: Ticket, after: Option<Id>, includeDeleted: bool)
    ensures Follow(ix, ticket, after, includeDeleted) ==
            Shown(ix, Sorted(Candidates(ix, ticket, after)), includeDeleted)
    decreases |Candidates(ix, ticket, after)|
  {
    hide Sorted, Shown;
    var ids := Sorted(Candidates(ix, ticket, after));
    if |ids| > PAGE_SIZE {
      var token := Some(ids[PAGE_SIZE - 1]);
      CursorDrops(ix, ticket, after, PAGE_SIZE - 1);
      FollowIsQuery(ix, ticket, token, includeDeleted);
      ShownJoins(ix, ids[..PAGE_SIZE], ids[PAGE_SIZE..], includeDeleted);
      assert ids[..PAGE_SIZE] + ids[PAGE_SIZE..] == ids;
    }
  }

  lemma {:induction false} ShownMembers(ix: Index, ids: seq<Id>, includeDeleted: bool)
    requires Increasing(ids)
    ensures Increasing(Shown(ix, ids, includeDeleted))
    ensures forall a :: a in Shown(ix, ids, includeDeleted) <==> a in ids && Visible(ix, a, includeDeleted)
  {
    if ids != [] {
      ShownMembers(ix, Front(ids), includeDeleted);
      var shown := Shown(ix, Front(ids), includeDeleted);
      forall i | 0 <= i < |shown|
        ensures shown[i] < Last(ids)
      {
        assert shown[i] in Front(ids);
      }
      forall a
        ensures a in ids <==> a in Front(ids) || a == Last(ids)
      {
        FrontMember(ids, a);
      }
    }
  }

  /** An artifact that some version row names, with a current version unless deleted ones are asked for. */
  ghost predicate Listed(ix: Index, a: Id, includeDeleted: bool) {
    && a in ix.artifacts
    && (exists v | v in ix.versions :: ix.versions[v].artifact == a)
    && (ix.artifacts[a].current != None || includeDeleted)
  }

  lemma VisibleIsListed(ix: Index, includeDeleted: bool)
    ensures forall a: Id :: Visible(ix, a, includeDeleted) <==> Listed(ix, a, includeDeleted)
    ensures forall a: Id | Listed(ix, a, includeDeleted) :: a in ix.artifacts
  {
  }

  /**
   * From the empty cursor: once each, in id order, every artifact of the ticket that was ever committed to and, unless
   * deleted ones are asked for, has a current version; and nothing else.
   */
  lemma PagedListingComplete(ix: Index, ticket: Ticket, includeDeleted: bool)
    ensures var all := Follow(ix, ticket, None, includeDeleted);
            && Increasing(all)
            && forall a :: a in all <==> Listed(ix, a, includeDeleted) && ix.artifacts[a].ticket == ticket
  {
    hide Follow, Shown, Sorted, Visible, Listed;
    FollowIsQuery(ix, ticket, None, includeDeleted);
    ShownMembers(ix, Sorted(Candidates(ix, ticket, None)), includeDeleted);
    VisibleIsListed(ix, includeDeleted);
  }

  function UpTo(ids: set<Id>, top: Id): set<Id> {
    set a | a in ids && a <= top
  }

  lemma {:induction false} Counted(ids: seq<Id>)
    requires Increasing(ids)
    ensures |Elements(ids)| == |ids|
  {
    if ids != [] {
      var front := Front(ids);
      Counted(front);
      forall a: Id
        ensures a in ids <==> a in front || a == Last(ids)
      {
        FrontMember(ids, a);
      }
      FrontMember(ids, Last(ids));
      assert Elements(ids) == Elements(front) + {Last(ids)};
    }
  }

  /** The page shows, in order, the listed ones of `all` up to its token. */
  ghost predicate PageShows(ix: Index, page: Page, all: set<Id>, includeDeleted: bool) {
    && Increasing(page.items)
    && forall a :: a in page.items <==>
         a in all && (page.token != None ==> a <= page.token.value) && Listed(ix, a, includeDeleted)
  }

  lemma HeadShows(ix: Index, ids: seq<Id>, all: set<Id>, includeDeleted: bool, token: Option<Id>)
    requires Increasing(ids) && forall a :: a in ids <==> a in all && (token != None ==> a <= token.value)
    ensures PageShows(ix, Page(Shown(ix, ids, includeDeleted), token), all, includeDeleted)
  {
    hide Shown, Listed, Visible, Increasing;
    VisibleIsListed(ix, includeDeleted);
    ShownMembers(ix, ids, includeDeleted);
  }

  /**
   * One page looks at the first hundred artifacts of the ticket behind the cursor.  It ends in a token, the last of
   * them, exactly if there are more, and shows those of them that are listed at all.
   */
  lemma PageLooksAtHundred(ix: Index, ticket: Ticket, after: Option<Id>, includeDeleted: bool, all: set<Id>)
    requires forall a :: a in all <==>
               a in ix.artifacts && ix.artifacts[a].ticket == ticket && (after == None || a > after.value)
    ensures var page := PageOf(ix, ticket, after, includeDeleted);
            && (page.token == None <==> |all| <= 100)
            && (page.token != None ==> |UpTo(all, page.token.value)| == 100 && page.token.value in all)
            && PageShows(ix, page, all, includeDeleted)
  {
    assert all == Candidates(ix, ticket, after);
    var ids := Sorted(all);
    hide Sorted, Shown, Candidates, PageShows, UpTo, Increasing;
    CutAtHundred(ix, ids, all, PageOf(ix, ticket, after, includeDeleted), includeDeleted);
  }

  lemma CutAtHundred(ix: Index, ids: seq<Id>, all: set<Id>, page: Page, includeDeleted: bool)
    requires Increasing(ids) && |ids| == |all| && forall a :: a in ids <==> a in all
    requires page ==
             if |ids| > PAGE_SIZE then Page(Shown(ix, ids[..PAGE_SIZE], includeDeleted), Some(ids[PAGE_SIZE - 1]))
                     else Page(Shown(ix, ids, includeDeleted), None)
    ensures page.token == None <==> |all| <= 100
    ensures page.token != None ==> |UpTo(all, page.token.value)| == 100 && page.token.value in all
    ensures PageShows(ix, page, all, includeDeleted)
  {
    hide Shown, PageShows, UpTo, Increasing;
    if |ids| > PAGE_SIZE {
      FirstOf(ids, all, PAGE_SIZE);
      HeadIncreases(ids, PAGE_SIZE);
      HeadShows(ix, ids[..PAGE_SIZE], all, includeDeleted, Some(ids[PAGE_SIZE - 1]));
    } else {
      HeadShows(ix, ids, all, includeDeleted, None);
    }
  }

  lemma HeadIncreases(ids: seq<Id>, k: nat)
    requires Increasing(ids) && k <= |ids|
    ensures Increasing(ids[..k])
  {
  }

  lemma FirstOf(ids: seq<Id>, all: set<Id>, k: nat)
    requires Increasing(ids) && 0 < k <= |ids| && forall a :: a in ids <==> a in all
    ensures ids[k - 1] in all && |UpTo(all, ids[k - 1])| == k
    ensures forall a :: a in ids[..k] <==> a in all && a <= ids[k - 1]
  {
    var head := ids[..k];
    forall a: Id
      ensures a in head <==> a in all && a <= ids[k - 1]
    {
      HeadMember(ids, k, a);
    }
    assert ids[k - 1] in ids;
    Counted(head);
    assert UpTo(all, ids[k - 1]) == Elements(head);
  }

  lemma HeadMember(ids: seq<Id>, k: nat, a: Id)
    requires Increasing(ids) && 0 < k <= |ids|
    ensures a in ids[..k] <==> a in ids && a <= ids[k - 1]
  {
    if a in ids && a <= ids[k - 1] {
      var i :| 0 <= i < |ids| && ids[i] == a;
      assert ids[..k][i] == a;
    }
    if a in ids[..k] {
      var i :| 0 <= i < k && ids[..k][i] == a;
      assert ids[i] == a;
    }
  }
}
