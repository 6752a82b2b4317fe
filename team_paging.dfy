/** How the team repository scan of setTeamRepositories meets a server that pages by offset
    over the team's current repositories, and a corrected scan that lists every page before
    removing anything. */
module TeamRepoPaging {
  import opened Results
  import opened Paging
  import opened GiteaClient
  import opened TeamSync

  // ----- names of listed repositories -----

  lemma {:induction false} NamesAppend(a: seq<Repository>, b: seq<Repository>)
    ensures Names(a + b) == Names(a) + Names(b)
    decreases |a|
  {
    if a == [] {
      assert a + b == b;
    } else {
      assert (a + b)[1..] == a[1..] + b;
      NamesAppend(a[1..], b);
    }
  }

  /** A name is listed exactly when some repository carries it. */
  lemma {:induction false} NamesMeaning(items: seq<Repository>)
    ensures forall x :: x in Names(items) <==> exists i :: 0 <= i < |items| && items[i].name == x
    decreases |items|
  {
    if items != [] {
      NamesMeaning(items[1..]);
      forall x | x in Names(items)
        ensures exists i :: 0 <= i < |items| && items[i].name == x
      {
        if x != items[0].name {
          assert x in Names(items[1..]);
          var j :| 0 <= j < |items[1..]| && items[1..][j].name == x;
          assert items[j + 1].name == x;
        }
      }
      forall i | 0 <= i < |items|
        ensures items[i].name in Names(items)
      {
        if i > 0 {
          assert items[1..][i - 1] == items[i];
        }
      }
    }
  }

  // ----- a server that pages by offset -----

  /** The repositories of `team` whose names are not in `gone`, in order. */
  function Remaining(team: seq<Repository>, gone: set<string>): seq<Repository>
    decreases |team|
  {
    if team == [] then []
    else (if team[0].name in gone then [] else [team[0]]) + Remaining(team[1..], gone)
  }

  lemma {:induction false} RemainingAppend(a: seq<Repository>, b: seq<Repository>, gone: set<string>)
    ensures Remaining(a + b, gone) == Remaining(a, gone) + Remaining(b, gone)
    decreases |a|
  {
    if a == [] {
      assert a + b == b;
    } else {
      assert (a + b)[1..] == a[1..] + b;
      RemainingAppend(a[1..], b, gone);
    }
  }

  /** Nothing remains of repositories whose names are all gone. */
  lemma {:induction false} RemainingAllGone(team: seq<Repository>, gone: set<string>)
    requires forall i :: 0 <= i < |team| ==> team[i].name in gone
    ensures Remaining(team, gone) == []
    decreases |team|
  {
    if team != [] {
      RemainingAllGone(team[1..], gone);
    }
  }

  /** Offset paging: page n holds the repositories at positions (n - 1) * PageSize up to
      n * PageSize of the current list. */
  function OffsetPages(items: seq<Repository>): (pages: seq<Reply<seq<Repository>>>)
    ensures |pages| <= |items| / PageSize + 1
    decreases |items|
  {
    if |items| <= PageSize then [Ok(items)] else [Ok(items[..PageSize])] + OffsetPages(items[PageSize..])
  }

  /** A server that holds the repositories `team` (for every team), lists what the requests
      so far have not removed by offset, and accepts every removal and every addition; it
      answers no other request. */
  function OffsetRemote(team: seq<Repository>): Remote {
    Remote(
      log => [], 0, log => [], 0, log => [], 0,
      (log, teamId) => OffsetPages(Remaining(team, Removed(log))),
      |team| / PageSize + 1,
      (log, a1) => Fail(500, "not served"),
      (log, a1) => Fail(500, "not served"),
      (log, a1, a2) => Fail(500, "not served"),
      (log, a1) => Fail(500, "not served"),
      (log, a1) => Fail(500, "not served"),
      (log, a1) => Fail(500, "not served"),
      (log, a1, a2) => Fail(500, "not served"),
      (log, a1, a2) => Fail(500, "not served"),
      (log, a1) => Fail(500, "not served"),
      (log, a1, a2, a3) => Fail(500, "not served"),
      (log, a1, a2) => Fail(500, "not served"),
      (log, a1, a2, a3) => Fail(500, "not served"),
      (log, a1) => Fail(500, "not served"),
      (log, a1, a2) => Fail(500, "not served"),
      (log, a1, a2) => Fail(500, "not served"),
      (log, a1) => Fail(500, "not served"),
      (log, a1, a2) => Fail(500, "not served"),
      (log, a1, a2, a3) => Ok(()),
      (log, a1, a2, a3) => Ok(()),
      (log, a1) => Fail(500, "not served"),
      (log, a1, a2) => Fail(500, "not served"),
      (log, a1) => Fail(500, "not served"),
      (log, a1, a2, a3) => Fail(500, "not served"),
      (log, a1, a2, a3) => Fail(500, "not served"),
      (log, a1, a2, a3) => Fail(500, "not served"),
      (log, a1) => Fail(500, "not served"),
      (log, a1) => Fail(500, "not served"),
      (log, a1, a2) => Fail(500, "not served"),
      (log, a1) => Fail(500, "not served"),
      (log, a1) => Fail(500, "not served"),
      (log, a1, a2) => Fail(500, "not served"),
      (log, a1, a2) => Fail(500, "not served"),
      (log, a1, a2, a3) => Fail(500, "not served"),
      (log, a1, a2, a3, a4) => Fail(500, "not served"),
      (log, a1, a2, a3) => Fail(500, "not served"))
  }

  /** Every repository of `team` has a name of its own. */
  predicate DistinctNames(team: seq<Repository>) {
    forall i, j :: 0 <= i < j < |team| ==> team[i].name != team[j].name
  }

  /** A repository whose name, "r" repeated i + 1 times, tells it from every other. */
  function Repo(i: nat): Repository {
    Repository(i, "owner", seq(i + 1, j => 'r'), "", "", false, false, false, 0, "", "", "", "",
               0, 0, 0, 0, "", "", "", false, false, false)
  }

  /** Repositories 0 to k - 1: teams of any size with distinct names exist. */
  function Repos(k: nat): (team: seq<Repository>)
    ensures |team| == k && forall i :: 0 <= i < k ==> team[i] == Repo(i)
    ensures DistinctNames(team)
  {
    if k == 0 then [] else Repos(k - 1) + [Repo(k - 1)]
  }

  /** The requests that remove `items`, in order. */
  function RemoveCalls(teamId: int, org: string, items: seq<Repository>): (calls: seq<Call>)
    ensures |calls| == |items|
    decreases |items|
  {
    if items == [] then []
    else [Call.RemoveTeamRepository(teamId, org, items[0].name)] + RemoveCalls(teamId, org, items[1..])
  }

  /** When no listed name is configured and every removal succeeds, a page's scan removes
      all of it, in order, without error. */
  lemma {:induction false} ScanItemsRemovesAll(team: seq<Repository>, log: seq<Call>, teamId: int, org: string,
                                               items: seq<Repository>, flags: map<string, bool>)
    requires forall i :: 0 <= i < |items| ==> items[i].name !in flags
    ensures ScanItems(OffsetRemote(team), log, teamId, org, items, flags) == Scan(RemoveCalls(teamId, org, items), flags, None)
    ensures Removed(RemoveCalls(teamId, org, items)) == Names(items)
    decreases |items|
  {
    if items != [] {
      var call := Call.RemoveTeamRepository(teamId, org, items[0].name);
      ScanItemsRemovesAll(team, log + [call], teamId, org, items[1..], flags);
      assert ([call] + RemoveCalls(teamId, org, items[1..]))[1..] == RemoveCalls(teamId, org, items[1..]);
    }
  }

  /** Before any removal the offset server lists the first PageSize repositories of a team
      of PageSize + 1 on page 1. */
  lemma OffsetFirstPage(team: seq<Repository>, teamId: int)
    requires |team| == PageSize + 1
    ensures TeamPage(OffsetRemote(team), [], teamId, 1) == Ok(team[..PageSize])
  {
    assert team == team[..PageSize] + [team[PageSize]];
    RemainingAppend(team[..PageSize], [team[PageSize]], {});
    RemainingKeepsAll(team[..PageSize]);
    assert Removed([]) == {};
    assert team[PageSize..] == [team[PageSize]];
  }

  /** Once the first PageSize names are gone only the last repository remains, so the offset
      server's page 2 is empty. */
  lemma OffsetSecondPage(team: seq<Repository>, teamId: int, log: seq<Call>)
    requires |team| == PageSize + 1 && DistinctNames(team)
    requires Removed(log) == Names(team[..PageSize])
    ensures Remaining(team, Removed(log)) == [team[PageSize]]
    ensures TeamPage(OffsetRemote(team), log, teamId, 2) == Ok([])
  {
    var first, last := team[..PageSize], team[PageSize];
    assert team == first + [last];
    RemainingAppend(first, [last], Names(first));
    NamesMeaning(first);
    RemainingAllGone(first, Names(first));
    assert last.name !in Names(first) by {
      forall i | 0 <= i < |first| ensures first[i].name != last.name {
        assert first[i] == team[i];
      }
    }
  }

  /** The source's scan on the offset server: a team holds PageSize + 1 repositories with
      distinct names and none is configured. Page 1 lists PageSize of them and all are
      removed; the last one moves up to position 1, so page 2 comes back empty. The scan
      ends without error and leaves nothing to add, yet the team still holds that
      repository. */
  lemma OffsetPagingLeavesRepository(team: seq<Repository>, teamId: int, org: string)
    requires |team| == PageSize + 1 && DistinctNames(team)
    ensures var s := ScanPages(OffsetRemote(team), [], teamId, org, 1, map[]);
      && s.err.None? && Flagged(s.flags) == {}
      && Remaining(team, Removed(s.calls)) == [team[PageSize]]
  {
    var remote := OffsetRemote(team);
    var first := team[..PageSize];
    var list1, list2 := ListCall(teamId, 1), ListCall(teamId, 2);
    OffsetFirstPage(team, teamId);
    assert [] + [list1] == [list1];
    ScanItemsRemovesAll(team, [list1], teamId, org, first, map[]);
    var removes := RemoveCalls(teamId, org, first);
    var log1 := [list1] + removes;
    assert Removed(log1) == Names(first) by {
      ListingRemovesNothing(teamId, 1);
      RemovedAppend([list1], removes);
    }
    OffsetSecondPage(team, teamId, log1);
    assert ScanPages(remote, log1, teamId, org, 2, map[]) == Scan([list2], map[], None);
    ScanPagesStep(remote, [], teamId, org, 1, map[]);
    var s := ScanPages(remote, [], teamId, org, 1, map[]);
    assert s == Scan([list1] + removes + [list2], map[], None);
    assert Removed(s.calls) == Names(first) by {
      RemovedAppend([list1] + removes, [list2]);
      ListingRemovesNothing(teamId, 2);
    }
  }

  /** Nothing remains of a list once all its names are gone. */
  lemma {:induction false} RemainingNamesGone(team: seq<Repository>, gone: set<string>)
    requires Names(team) <= gone
    ensures Remaining(team, gone) == []
    decreases |team|
  {
    if team != [] {
      RemainingNamesGone(team[1..], gone);
    }
  }

  /** Nothing is gone from a list when nothing has been removed. */
  lemma {:induction false} RemainingKeepsAll(team: seq<Repository>)
    ensures Remaining(team, {}) == team
    decreases |team|
  {
    if team != [] {
      RemainingKeepsAll(team[1..]);
    }
  }

  // ----- the corrected scan: list every page, then remove -----

  /** What the listing phase of the corrected scan ends with: the list requests it sent, the
      repositories they returned in page order, and the error that stopped it. */
  datatype Listing = Listing(calls: seq<Call>, items: seq<Repository>, err: Option<string>)

  /** List pages `n`, `n + 1`, … after the history `log`, removing nothing, until a failed or
      empty page. */
  function ListAll(remote: Remote, log: seq<Call>, teamId: int, n: nat): Listing
    requires n >= 1
    decreases remote.teamRepoPages + 1 - n
  {
    match TeamPage(remote, log, teamId, n)
    case Fail(_, msg) => Listing([ListCall(teamId, n)], [], Some(msg))
    case Ok(items) =>
      if items == [] then Listing([ListCall(teamId, n)], [], None)
      else
        var rest := ListAll(remote, log + [ListCall(teamId, n)], teamId, n + 1);
        Listing([ListCall(teamId, n)] + rest.calls, items + rest.items, rest.err)
  }

  /** The corrected scan: list the whole team first, then flag each configured repository
      and remove each other one, as one page is processed. */
  function ScanFixed(remote: Remote, log: seq<Call>, teamId: int, org: string, flags: map<string, bool>): Scan {
    var l := ListAll(remote, log, teamId, 1);
    if l.err.Some? then Scan(l.calls, flags, l.err)
    else
      var s := ScanItems(remote, log + l.calls, teamId, org, l.items, flags);
      Scan(l.calls + s.calls, s.flags, s.err)
  }

  /** A corrected scan whose listing succeeds goes on with the listed repositories after
      the list requests. */
  lemma ScanFixedListed(remote: Remote, log: seq<Call>, teamId: int, org: string, flags: map<string, bool>)
    requires ListAll(remote, log, teamId, 1).err.None?
    ensures var l := ListAll(remote, log, teamId, 1);
      var s := ScanItems(remote, log + l.calls, teamId, org, l.items, flags);
      ScanFixed(remote, log, teamId, org, flags) == Scan(l.calls + s.calls, s.flags, s.err)
  {
  }

  /** Requests that only list this team's repositories. */
  predicate ListRequests(calls: seq<Call>, teamId: int) {
    forall i :: 0 <= i < |calls| ==> calls[i].ListTeamRepositories? && calls[i] == ListCall(teamId, calls[i].page)
  }

  lemma ListRequestsAppend(a: seq<Call>, b: seq<Call>, teamId: int)
    requires ListRequests(a, teamId) && ListRequests(b, teamId)
    ensures ListRequests(a + b, teamId)
  {
    forall i | |a| <= i < |a + b|
      ensures (a + b)[i] == b[i - |a|]
    {
    }
  }

  /** List requests remove nothing. */
  lemma {:induction false} RemovedListOnly(calls: seq<Call>, teamId: int)
    requires ListRequests(calls, teamId)
    ensures Removed(calls) == {}
    decreases |calls|
  {
    if calls != [] {
      RemovedListOnly(calls[1..], teamId);
    }
  }

  /** The hypothesis of the corrected scan: listing the team's repositories does not change
      how the server lists them after `log`. Removals may change it at will. */
  ghost predicate ListingReadOnly(remote: Remote, log: seq<Call>, teamId: int) {
    forall ext :: ListRequests(ext, teamId) ==> remote.teamRepos(log + ext, teamId) == remote.teamRepos(log, teamId)
  }

  /** The offset server only changes its listing on a removal. */
  lemma OffsetRemoteListingReadOnly(team: seq<Repository>, log: seq<Call>, teamId: int)
    ensures ListingReadOnly(OffsetRemote(team), log, teamId)
  {
    forall ext | ListRequests(ext, teamId)
      ensures Removed(log + ext) == Removed(log)
    {
      RemovedListOnly(ext, teamId);
      RemovedAppend(log, ext);
    }
  }

  /** When listing is read-only, the listing phase sends only list requests and, when it
      ends without error, returns exactly the repositories the server lists after `log0`. */
  lemma {:induction false} ListAllReadsListing(remote: Remote, log0: seq<Call>, ext: seq<Call>, teamId: int, n: nat)
    requires n >= 1 && ListingReadOnly(remote, log0, teamId) && ListRequests(ext, teamId)
    ensures var l := ListAll(remote, log0 + ext, teamId, n);
      && ListRequests(l.calls, teamId)
      && (l.err.None? ==> Names(l.items) == Listed(remote, log0, teamId, n))
    decreases remote.teamRepoPages + 1 - n
  {
    var log := log0 + ext;
    var list := ListCall(teamId, n);
    assert TeamPage(remote, log, teamId, n) == TeamPage(remote, log0, teamId, n);
    assert ListRequests([list], teamId);
    match TeamPage(remote, log, teamId, n)
    case Fail(_, _) =>
    case Ok(items) =>
      if items != [] {
        ListRequestsAppend(ext, [list], teamId);
        assert log0 + (ext + [list]) == log + [list];
        ListAllReadsListing(remote, log0, ext + [list], teamId, n + 1);
        var rest := ListAll(remote, log + [list], teamId, n + 1);
        ListRequestsAppend([list], rest.calls, teamId);
        NamesAppend(items, rest.items);
      }
  }

  /** The corrected scan, when listing is read-only and it ends without error, removes
      exactly the listed repositories that are not configured and leaves exactly the
      configured ones that are not listed to add: the team then holds the configuration. */
  lemma FixedScanReachesConfiguration(remote: Remote, log: seq<Call>, teamId: int, org: string, wanted: seq<string>)
    requires ListingReadOnly(remote, log, teamId)
    ensures var s := ScanFixed(remote, log, teamId, org, DesiredFlags(wanted));
      var listed := Listed(remote, log, teamId, 1);
      s.err.None? ==>
        && Removed(s.calls) == listed - Desired(wanted)
        && Flagged(s.flags) == Desired(wanted) - listed
        && (listed - Removed(s.calls)) + Flagged(s.flags) == Desired(wanted)
  {
    var flags := DesiredFlags(wanted);
    DesiredFlagsMeaning(wanted);
    assert log + [] == log;
    ListAllReadsListing(remote, log, [], teamId, 1);
    var l := ListAll(remote, log, teamId, 1);
    if l.err.None? {
      var s := ScanItems(remote, log + l.calls, teamId, org, l.items, flags);
      ScanItemsEffect(remote, log + l.calls, teamId, org, l.items, flags);
      RemovedListOnly(l.calls, teamId);
      RemovedAppend(l.calls, s.calls);
      if s.err.None? {
        assert Flagged(s.flags) == Desired(wanted) - Names(l.items);
      }
    }
  }

  /** The corrected sync in update mode: when listing is read-only and the scan and the add
      phase end without error, the team holds exactly the configured repositories: those
      listed before the sync, less those removed, plus those added. */
  lemma FixedSyncReachesConfiguration(remote: Remote, log: seq<Call>, teamId: int, org: string,
                                      wanted: seq<string>, added: seq<string>)
    requires ListingReadOnly(remote, log, teamId)
    requires var s := ScanFixed(remote, log, teamId, org, DesiredFlags(wanted));
      s.err.None? && AddPhase(remote, log + s.calls, teamId, org, Flagged(s.flags), added, None)
    ensures var s := ScanFixed(remote, log, teamId, org, DesiredFlags(wanted));
      (Listed(remote, log, teamId, 1) - Removed(s.calls)) + (set i | 0 <= i < |added| :: added[i]) == Desired(wanted)
  {
    FixedScanReachesConfiguration(remote, log, teamId, org, wanted);
    var s := ScanFixed(remote, log, teamId, org, DesiredFlags(wanted));
    assert (set i | 0 <= i < |added| :: added[i]) == Flagged(s.flags);
  }

  /** Before any removal the offset server lists the whole of a team of PageSize + 1: the
      first PageSize on page 1 and the last on page 2. */
  lemma OffsetListing(team: seq<Repository>, teamId: int)
    requires |team| == PageSize + 1
    ensures TeamPage(OffsetRemote(team), [], teamId, 1) == Ok(team[..PageSize])
    ensures TeamPage(OffsetRemote(team), [], teamId, 2) == Ok(team[PageSize..])
    ensures TeamPage(OffsetRemote(team), [], teamId, 3) == Ok([])
  {
    RemainingKeepsAll(team);
    assert Removed([]) == {};
    assert OffsetPages(team[PageSize..]) == [Ok(team[PageSize..])];
  }

  /** Listing before any removal, the corrected scan reads the whole of a team of
      PageSize + 1 from the offset server, in three requests. */
  lemma OffsetListAll(team: seq<Repository>, teamId: int)
    requires |team| == PageSize + 1
    ensures ListAll(OffsetRemote(team), [], teamId, 1) ==
      Listing([ListCall(teamId, 1), ListCall(teamId, 2), ListCall(teamId, 3)], team, None)
  {
    var remote := OffsetRemote(team);
    var list1, list2, list3 := ListCall(teamId, 1), ListCall(teamId, 2), ListCall(teamId, 3);
    OffsetListing(team, teamId);
    OffsetRemoteListingReadOnly(team, [], teamId);
    assert ListRequests([list1], teamId) && [] + [list1] == [list1];
    assert TeamPage(remote, [list1], teamId, 2) == Ok(team[PageSize..]);
    assert ListRequests([list1, list2], teamId) && [] + [list1, list2] == [list1] + [list2];
    assert TeamPage(remote, [list1, list2], teamId, 3) == Ok([]);
    assert ListAll(remote, [list1, list2], teamId, 3) == Listing([list3], [], None);
    assert ListAll(remote, [list1], teamId, 2) == Listing([list2, list3], team[PageSize..], None);
    assert team[..PageSize] + team[PageSize..] == team;
  }

  /** Hence the listing phase reads the whole team without error and removes nothing. */
  lemma OffsetListAllRemovesNothing(team: seq<Repository>, teamId: int)
    requires |team| == PageSize + 1
    ensures var l := ListAll(OffsetRemote(team), [], teamId, 1);
      l.err.None? && l.items == team && Removed(l.calls) == {}
  {
    var remote := OffsetRemote(team);
    var none: seq<Call> := [];
    OffsetListAll(team, teamId);
    OffsetRemoteListingReadOnly(team, [], teamId);
    assert none + none == none;
    ListAllReadsListing(remote, none, none, teamId, 1);
    RemovedListOnly(ListAll(remote, [], teamId, 1).calls, teamId);
  }

  /** On any server where listing reads the whole team and removes nothing, and every
      removal succeeds, the corrected scan with nothing configured removes every repository. */
  lemma FixedScanClearsTeam(remote: Remote, team: seq<Repository>, teamId: int, org: string)
    requires var l := ListAll(remote, [], teamId, 1);
      l.err.None? && l.items == team && Removed(l.calls) == {}
    requires ScanItems(remote, [] + ListAll(remote, [], teamId, 1).calls, teamId, org, team, map[]) ==
      Scan(RemoveCalls(teamId, org, team), map[], None)
    requires Removed(RemoveCalls(teamId, org, team)) == Names(team)
    ensures var s := ScanFixed(remote, [], teamId, org, map[]);
      s.err.None? && Flagged(s.flags) == {} && Remaining(team, Removed(s.calls)) == []
  {
    var l := ListAll(remote, [], teamId, 1);
    var calls := RemoveCalls(teamId, org, team);
    ScanFixedListed(remote, [], teamId, org, map[]);
    RemovedAppend(l.calls, calls);
    RemainingNamesGone(team, Names(team));
  }

  /** The corrected scan on the offset server, with nothing configured, removes every
      repository of a team of PageSize + 1: none remains. */
  lemma FixedScanClearsOffsetTeam(team: seq<Repository>, teamId: int, org: string)
    requires |team| == PageSize + 1
    ensures var s := ScanFixed(OffsetRemote(team), [], teamId, org, map[]);
      s.err.None? && Flagged(s.flags) == {} && Remaining(team, Removed(s.calls)) == []
  {
    var l := ListAll(OffsetRemote(team), [], teamId, 1);
    OffsetListAllRemovesNothing(team, teamId);
    ScanItemsRemovesAll(team, [] + l.calls, teamId, org, team, map[]);
    FixedScanClearsTeam(OffsetRemote(team), team, teamId, org);
  }

  /** The corrected scan as a loop: list pages until a failed or empty one, then process the
      listed repositories. */
  predicate ListLoop(remote: Remote, log0: seq<Call>, teamId: int, n: nat,
                     log: seq<Call>, items: seq<Repository>, done: seq<Call>)
  {
    && 1 <= n <= remote.teamRepoPages + 1
    && log == log0 + done
    && var rest := ListAll(remote, log, teamId, n);
       ListAll(remote, log0, teamId, 1) == Listing(done + rest.calls, items + rest.items, rest.err)
  }

  lemma ListLoopInit(remote: Remote, log0: seq<Call>, teamId: int)
    ensures ListLoop(remote, log0, teamId, 1, log0, [], [])
  {
    var l := ListAll(remote, log0, teamId, 1);
    assert log0 + [] == log0 && [] + l.calls == l.calls && [] + l.items == l.items;
  }

  /** The listing loop at a failed or empty page. */
  lemma ListLoopEnd(remote: Remote, log0: seq<Call>, teamId: int, n: nat,
                    log: seq<Call>, items: seq<Repository>, done: seq<Call>)
    requires ListLoop(remote, log0, teamId, n, log, items, done)
    requires !(TeamPage(remote, log, teamId, n).Ok? && TeamPage(remote, log, teamId, n).value != [])
    ensures var total := ListAll(remote, log0, teamId, 1);
      var page := TeamPage(remote, log, teamId, n);
      && log0 + total.calls == log + [ListCall(teamId, n)]
      && (page.Fail? ==> total.err == Some(page.msg))
      && (page.Ok? ==> total.err.None? && total.items == items)
  {
    var list := ListCall(teamId, n);
    assert log0 + (done + [list]) == (log0 + done) + [list];
    assert items + [] == items;
  }

  /** The listing loop at a page that lists repositories. */
  lemma ListLoopMore(remote: Remote, log0: seq<Call>, teamId: int, n: nat,
                     log: seq<Call>, items: seq<Repository>, done: seq<Call>)
    requires ListLoop(remote, log0, teamId, n, log, items, done)
    requires TeamPage(remote, log, teamId, n).Ok? && TeamPage(remote, log, teamId, n).value != []
    ensures ListLoop(remote, log0, teamId, n + 1, log + [ListCall(teamId, n)],
                     items + TeamPage(remote, log, teamId, n).value, done + [ListCall(teamId, n)])
  {
    var list := ListCall(teamId, n);
    var page := TeamPage(remote, log, teamId, n).value;
    var rest := ListAll(remote, log + [list], teamId, n + 1);
    assert log0 + (done + [list]) == (log0 + done) + [list];
    assert done + ([list] + rest.calls) == (done + [list]) + rest.calls;
    assert items + (page + rest.items) == (items + page) + rest.items;
  }

  /** The listing phase of the corrected scan: request pages until a failed or empty one. */
  method ListTeam(c: Client, teamId: int) returns (items: seq<Repository>, err: Option<string>)
    modifies c
    ensures var l := ListAll(c.remote, old(c.log), teamId, 1);
      c.log == old(c.log) + l.calls && err == l.err && (err.None? ==> items == l.items)
  {
    ghost var log0 := c.log;
    var page := 1;
    items := [];
    ghost var done: seq<Call> := [];
    ListLoopInit(c.remote, log0, teamId);
    while true
      invariant ListLoop(c.remote, log0, teamId, page, c.log, items, done)
      decreases c.remote.teamRepoPages + 1 - page
    {
      ghost var before := c.log;
      var reply := c.ListTeamRepositories(teamId, page);
      if reply.Fail? {
        ListLoopEnd(c.remote, log0, teamId, page, before, items, done);
        return items, Some(reply.msg);
      }
      if reply.value == [] {
        ListLoopEnd(c.remote, log0, teamId, page, before, items, done);
        return items, None;
      }
      ListLoopMore(c.remote, log0, teamId, page, before, items, done);
      items := items + reply.value;
      done := done + [ListCall(teamId, page)];
      page := page + 1;
    }
  }

  /** The corrected scan of an update: list every page, then remove. */
  method ScanTeamFixed(c: Client, teamId: int, org: string, flags: map<string, bool>)
    returns (newFlags: map<string, bool>, err: Option<string>)
    modifies c
    ensures var s := ScanFixed(c.remote, old(c.log), teamId, org, flags);
      c.log == old(c.log) + s.calls && err == s.err && (err.None? ==> newFlags == s.flags)
  {
    ghost var log0 := c.log;
    var items, listErr := ListTeam(c, teamId);
    ghost var l := ListAll(c.remote, log0, teamId, 1);
    if listErr.Some? {
      return flags, listErr;
    }
    ghost var listed := c.log;
    newFlags, err := ScanPage(c, teamId, org, items, flags);
    ghost var s := ScanItems(c.remote, listed, teamId, org, items, flags);
    assert log0 + (l.calls + s.calls) == listed + s.calls;
  }
}
