/** setTeamRepositories: make a team's repositories match the configured list. The configured
    names become a map flagged `true`; on an update the team's current repositories are listed
    page by page, every listed repository that is not configured is removed and every one that
    is configured is flagged `false`; finally every name still flagged `true` is added. */
module TeamSync {
  import opened Results
  import opened Paging
  import opened State
  import opened GiteaClient

  const TeamOrg := "organisation"
  const TeamRepositories := "repositories"

  // ----- the desired set -----

  /** The map the source builds from the configured names: every non-empty name, flagged true. */
  function DesiredFlags(wanted: seq<string>): map<string, bool>
    decreases |wanted|
  {
    if wanted == [] then map[]
    else
      var flags := DesiredFlags(wanted[..|wanted| - 1]);
      var last := wanted[|wanted| - 1];
      if last != "" then flags[last := true] else flags
  }

  /** The configured repositories: empty names are ignored and duplicates collapse. */
  function Desired(wanted: seq<string>): set<string> {
    set i | 0 <= i < |wanted| && wanted[i] != "" :: wanted[i]
  }

  /** The names still flagged for adding. */
  function Flagged(flags: map<string, bool>): set<string> {
    set k | k in flags && flags[k]
  }

  lemma {:induction false} DesiredFlagsMeaning(wanted: seq<string>)
    ensures DesiredFlags(wanted).Keys == Desired(wanted)
    ensures Flagged(DesiredFlags(wanted)) == Desired(wanted)
    decreases |wanted|
  {
    if wanted != [] {
      var init := wanted[..|wanted| - 1];
      DesiredFlagsMeaning(init);
      var last := wanted[|wanted| - 1];
      assert forall i :: 0 <= i < |init| ==> init[i] == wanted[i];
      if last != "" {
        assert Desired(wanted) == Desired(init) + {last};
      } else {
        assert Desired(wanted) == Desired(init);
      }
    }
  }

  // ----- the scan of the current repositories -----

  /** How a scan ends: the requests it made, the flags it leaves, and the error that stopped it. */
  datatype Scan = Scan(calls: seq<Call>, flags: map<string, bool>, err: Option<string>)

  /** The names of the listed repositories. */
  function Names(items: seq<Repository>): set<string>
    decreases |items|
  {
    if items == [] then {} else {items[0].name} + Names(items[1..])
  }

  /** The names a sequence of requests removes. */
  function Removed(calls: seq<Call>): set<string>
    decreases |calls|
  {
    if calls == [] then {}
    else (if calls[0].RemoveTeamRepository? then {calls[0].repo} else {}) + Removed(calls[1..])
  }

  lemma {:induction false} RemovedAppend(a: seq<Call>, b: seq<Call>)
    ensures Removed(a + b) == Removed(a) + Removed(b)
    decreases |a|
  {
    if a == [] {
      assert a + b == b;
    } else {
      assert (a + b)[1..] == a[1..] + b;
      RemovedAppend(a[1..], b);
    }
  }

  /** One page of the scan: for each listed repository, in order, flag a configured one
      `false` and remove any other; a failed removal stops the scan. `log` is the history
      before the page is processed. */
  function ScanItems(remote: Remote, log: seq<Call>, teamId: int, org: string,
                     items: seq<Repository>, flags: map<string, bool>): Scan
    decreases |items|
  {
    if items == [] then Scan([], flags, None)
    else
      var name := items[0].name;
      if name in flags then ScanItems(remote, log, teamId, org, items[1..], flags[name := false])
      else
        var call := Call.RemoveTeamRepository(teamId, org, name);
        var r := remote.removeTeamRepository(log, teamId, org, name);
        if r.Fail? then Scan([call], flags, Some(r.msg))
        else
          var rest := ScanItems(remote, log + [call], teamId, org, items[1..], flags);
          Scan([call] + rest.calls, rest.flags, rest.err)
  }

  /** The request that lists page `n` of a team's repositories. */
  function ListCall(teamId: int, n: nat): Call {
    Call.ListTeamRepositories(teamId, n, PageSize)
  }

  /** The scan from page `n` on, after the history `log`: list page `n` as the server shows
      it now, stop at a failed or empty page, otherwise process its repositories and go on
      with the next page, listed after this page's removals. */
  function ScanPages(remote: Remote, log: seq<Call>, teamId: int, org: string,
                     n: nat, flags: map<string, bool>): Scan
    requires n >= 1
    decreases remote.teamRepoPages + 1 - n
  {
    match TeamPage(remote, log, teamId, n)
    case Fail(_, msg) => Scan([ListCall(teamId, n)], flags, Some(msg))
    case Ok(items) =>
      if items == [] then Scan([ListCall(teamId, n)], flags, None)
      else
        var s := ScanItems(remote, log + [ListCall(teamId, n)], teamId, org, items, flags);
        if s.err.Some? then Scan([ListCall(teamId, n)] + s.calls, s.flags, s.err)
        else
          var rest := ScanPages(remote, log + [ListCall(teamId, n)] + s.calls, teamId, org, n + 1, s.flags);
          Scan([ListCall(teamId, n)] + s.calls + rest.calls, rest.flags, rest.err)
  }

  /** The names on the pages the scan from page `n` reads, each page as it was listed. */
  function Seen(remote: Remote, log: seq<Call>, teamId: int, org: string,
                n: nat, flags: map<string, bool>): set<string>
    requires n >= 1
    decreases remote.teamRepoPages + 1 - n
  {
    match TeamPage(remote, log, teamId, n)
    case Fail(_, _) => {}
    case Ok(items) =>
      if items == [] then {}
      else
        var s := ScanItems(remote, log + [ListCall(teamId, n)], teamId, org, items, flags);
        if s.err.Some? then Names(items)
        else Names(items) + Seen(remote, log + [ListCall(teamId, n)] + s.calls, teamId, org, n + 1, s.flags)
  }

  /** The names on the pages from `n` up to the first empty (or failed) page of the listing
      the server shows after the history `log`. */
  function Listed(remote: Remote, log: seq<Call>, teamId: int, n: nat): set<string>
    requires n >= 1
    decreases remote.teamRepoPages + 1 - n
  {
    match TeamPage(remote, log, teamId, n)
    case Fail(_, _) => {}
    case Ok(items) => if items == [] then {} else Names(items) + Listed(remote, log, teamId, n + 1)
  }

  /** A request of the scan: a listing of this team's repositories, or the removal of a
      repository of `org` that is not configured. */
  predicate ScanRequest(call: Call, teamId: int, org: string, flags: map<string, bool>) {
    || (call.ListTeamRepositories? && call == ListCall(teamId, call.page))
    || (call.RemoveTeamRepository? && call == Call.RemoveTeamRepository(teamId, org, call.repo) && call.repo !in flags)
  }

  predicate ScanRequests(calls: seq<Call>, teamId: int, org: string, flags: map<string, bool>) {
    forall i :: 0 <= i < |calls| ==> ScanRequest(calls[i], teamId, org, flags)
  }

  lemma ScanRequestsAppend(a: seq<Call>, b: seq<Call>, teamId: int, org: string, flags: map<string, bool>, other: map<string, bool>)
    requires ScanRequests(a, teamId, org, flags) && ScanRequests(b, teamId, org, other)
    requires other.Keys == flags.Keys
    ensures ScanRequests(a + b, teamId, org, flags)
  {
    forall i | 0 <= i < |a + b|
      ensures ScanRequest((a + b)[i], teamId, org, flags)
    {
      if i >= |a| {
        assert (a + b)[i] == b[i - |a|];
        assert ScanRequest(b[i - |a|], teamId, org, other);
      }
    }
  }

  /** One page: the keys never change; a finished page unflags exactly the configured names
      it lists and removes exactly the listed names that are not configured. */
  lemma {:induction false} ScanItemsEffect(remote: Remote, log: seq<Call>, teamId: int, org: string,
                                           items: seq<Repository>, flags: map<string, bool>)
    ensures var s := ScanItems(remote, log, teamId, org, items, flags);
      && s.flags.Keys == flags.Keys
      && ScanRequests(s.calls, teamId, org, flags)
      && (s.err.None? ==> forall k :: k in flags ==> s.flags[k] == (flags[k] && k !in Names(items)))
      && (s.err.None? ==> Removed(s.calls) == Names(items) - flags.Keys)
    decreases |items|
  {
    if items != [] {
      var name := items[0].name;
      if name in flags {
        ScanItemsEffect(remote, log, teamId, org, items[1..], flags[name := false]);
      } else {
        var call := Call.RemoveTeamRepository(teamId, org, name);
        if remote.removeTeamRepository(log, teamId, org, name).Ok? {
          var rest := ScanItems(remote, log + [call], teamId, org, items[1..], flags);
          ScanItemsEffect(remote, log + [call], teamId, org, items[1..], flags);
          assert ([call] + rest.calls)[1..] == rest.calls;
          ScanRequestsAppend([call], rest.calls, teamId, org, flags, flags);
        }
      }
    }
  }

  /** Every request of the scan from page `n` lists this team's repositories or removes an
      unconfigured one, and the scan never changes which names are configured. */
  lemma {:induction false} ScanPagesRequests(remote: Remote, log: seq<Call>, teamId: int, org: string,
                                             n: nat, flags: map<string, bool>)
    requires n >= 1
    ensures var s := ScanPages(remote, log, teamId, org, n, flags);
      s.flags.Keys == flags.Keys && ScanRequests(s.calls, teamId, org, flags)
    decreases remote.teamRepoPages + 1 - n
  {
    var list := ListCall(teamId, n);
    assert ScanRequests([list], teamId, org, flags);
    match TeamPage(remote, log, teamId, n)
    case Fail(_, _) =>
    case Ok(items) =>
      if items != [] {
        var s := ScanItems(remote, log + [list], teamId, org, items, flags);
        ScanItemsEffect(remote, log + [list], teamId, org, items, flags);
        ScanRequestsAppend([list], s.calls, teamId, org, flags, flags);
        if s.err.None? {
          var rest := ScanPages(remote, log + [list] + s.calls, teamId, org, n + 1, s.flags);
          ScanPagesRequests(remote, log + [list] + s.calls, teamId, org, n + 1, s.flags);
          ScanRequestsAppend([list] + s.calls, rest.calls, teamId, org, flags, s.flags);
        }
      }
  }

  /** The whole scan from page `n`, when it ends without error: a configured name stays
      flagged exactly when none of the pages the scan read lists it. */
  lemma {:induction false} ScanPagesEffect(remote: Remote, log: seq<Call>, teamId: int, org: string,
                                           n: nat, flags: map<string, bool>)
    requires n >= 1
    ensures var s := ScanPages(remote, log, teamId, org, n, flags);
      && s.flags.Keys == flags.Keys
      && (s.err.None? ==> forall k :: k in flags ==> s.flags[k] == (flags[k] && k !in Seen(remote, log, teamId, org, n, flags)))
    decreases remote.teamRepoPages + 1 - n
  {
    var list := ListCall(teamId, n);
    ScanPagesRequests(remote, log, teamId, org, n, flags);
    match TeamPage(remote, log, teamId, n)
    case Fail(_, _) =>
    case Ok(items) =>
      if items != [] {
        var s := ScanItems(remote, log + [list], teamId, org, items, flags);
        ScanItemsEffect(remote, log + [list], teamId, org, items, flags);
        if s.err.None? {
          ScanPagesEffect(remote, log + [list] + s.calls, teamId, org, n + 1, s.flags);
        }
      }
  }

  /** Removals of two runs of requests, each removing the names of its own set outside `k`. */
  lemma RemovedCombine(c1: seq<Call>, c2: seq<Call>, a: set<string>, b: set<string>, k: set<string>)
    requires Removed(c1) == a - k && Removed(c2) == b - k
    ensures Removed(c1 + c2) == (a + b) - k
  {
    RemovedAppend(c1, c2);
  }

  lemma ListingRemovesNothing(teamId: int, n: nat)
    ensures Removed([ListCall(teamId, n)]) == {}
  {
    assert [ListCall(teamId, n)][1..] == [];
  }

  /** A page that lists repositories: if its removals fail the scan ends there, having seen
      that page; otherwise the scan goes on at the next page, listed after the removals. */
  lemma ScanPagesStep(remote: Remote, log: seq<Call>, teamId: int, org: string, n: nat, flags: map<string, bool>)
    requires n >= 1 && TeamPage(remote, log, teamId, n).Ok? && TeamPage(remote, log, teamId, n).value != []
    ensures var list := ListCall(teamId, n);
      var items := TeamPage(remote, log, teamId, n).value;
      var s := ScanItems(remote, log + [list], teamId, org, items, flags);
      var rest := ScanPages(remote, log + [list] + s.calls, teamId, org, n + 1, s.flags);
      && n <= remote.teamRepoPages
      && (s.err.Some? ==> ScanPages(remote, log, teamId, org, n, flags) == Scan([list] + s.calls, s.flags, s.err))
      && (s.err.None? ==>
            && ScanPages(remote, log, teamId, org, n, flags) == Scan([list] + s.calls + rest.calls, rest.flags, rest.err)
            && Seen(remote, log, teamId, org, n, flags) == Names(items) + Seen(remote, log + [list] + s.calls, teamId, org, n + 1, s.flags))
  {
  }

  /** A failed page ends the scan with an error; an empty one ends it after its listing,
      having seen nothing. */
  lemma ScanPagesEnd(remote: Remote, log: seq<Call>, teamId: int, org: string, n: nat, flags: map<string, bool>)
    requires n >= 1 && !(TeamPage(remote, log, teamId, n).Ok? && TeamPage(remote, log, teamId, n).value != [])
    ensures var t := ScanPages(remote, log, teamId, org, n, flags);
      t.err.None? ==> t.calls == [ListCall(teamId, n)] && Seen(remote, log, teamId, org, n, flags) == {}
  {
  }

  /** The whole scan from page `n`, when it ends without error, removes exactly the names it
      saw that are not configured. */
  lemma {:induction false} ScanPagesRemoved(remote: Remote, log: seq<Call>, teamId: int, org: string,
                                            n: nat, flags: map<string, bool>)
    requires n >= 1
    ensures var s := ScanPages(remote, log, teamId, org, n, flags);
      s.err.None? ==> Removed(s.calls) == Seen(remote, log, teamId, org, n, flags) - flags.Keys
    decreases remote.teamRepoPages + 1 - n, 1
  {
    if TeamPage(remote, log, teamId, n).Ok? && TeamPage(remote, log, teamId, n).value != [] {
      ScanPagesRemovedMore(remote, log, teamId, org, n, flags);
    } else {
      ListingRemovesNothing(teamId, n);
      ScanPagesEnd(remote, log, teamId, org, n, flags);
    }
  }

  /** ScanPagesRemoved at a page that lists repositories: that page's removals, then the
      rest of the scan's. */
  lemma {:induction false} ScanPagesRemovedMore(remote: Remote, log: seq<Call>, teamId: int, org: string,
                                                n: nat, flags: map<string, bool>)
    requires n >= 1 && TeamPage(remote, log, teamId, n).Ok? && TeamPage(remote, log, teamId, n).value != []
    ensures var s := ScanPages(remote, log, teamId, org, n, flags);
      s.err.None? ==> Removed(s.calls) == Seen(remote, log, teamId, org, n, flags) - flags.Keys
    decreases remote.teamRepoPages + 1 - n, 0
  {
    var list := ListCall(teamId, n);
    var items := TeamPage(remote, log, teamId, n).value;
    var s := ScanItems(remote, log + [list], teamId, org, items, flags);
    assert n <= remote.teamRepoPages;
    if s.err.None? {
      var log' := log + [list] + s.calls;
      var rest := ScanPages(remote, log', teamId, org, n + 1, s.flags);
      var t := ScanPages(remote, log, teamId, org, n, flags);
      assert t.calls == [list] + s.calls + rest.calls && t.err == rest.err
          && Seen(remote, log, teamId, org, n, flags) == Names(items) + Seen(remote, log', teamId, org, n + 1, s.flags) by {
        ScanPagesStep(remote, log, teamId, org, n, flags);
      }
      assert Removed([list] + s.calls) == Names(items) - flags.Keys by {
        ScanItemsEffect(remote, log + [list], teamId, org, items, flags);
        ListingRemovesNothing(teamId, n);
        RemovedAppend([list], s.calls);
      }
      ScanPagesRemoved(remote, log', teamId, org, n + 1, s.flags);
      if rest.err.None? {
        assert s.flags.Keys == flags.Keys by {
          ScanItemsEffect(remote, log + [list], teamId, org, items, flags);
        }
        RemovedCombine([list] + s.calls, rest.calls, Names(items), Seen(remote, log', teamId, org, n + 1, s.flags), flags.Keys);
      }
    }
  }

  // ----- the add phase -----

  /** The requests that add `names`, in order. */
  function AddCalls(teamId: int, org: string, names: seq<string>): (calls: seq<Call>)
    ensures |calls| == |names|
  {
    if names == [] then [] else AddCalls(teamId, org, names[..|names| - 1]) + [Call.AddTeamRepository(teamId, org, names[|names| - 1])]
  }

  lemma {:induction false} AddCallsAt(teamId: int, org: string, names: seq<string>)
    ensures forall i :: 0 <= i < |names| ==> AddCalls(teamId, org, names)[i] == Call.AddTeamRepository(teamId, org, names[i])
    decreases |names|
  {
    if names != [] {
      AddCallsAt(teamId, org, names[..|names| - 1]);
      assert forall i :: 0 <= i < |names| - 1 ==> names[..|names| - 1][i] == names[i];
    }
  }

  /** The add phase after the history `log`: `added` holds distinct flagged names, each added
      with success except possibly the last; with no error they are all the flagged names,
      and an error is the last add's failure. The order is not fixed: the source walks a Go
      map. */
  predicate AddPhase(remote: Remote, log: seq<Call>, teamId: int, org: string,
                     pending: set<string>, added: seq<string>, err: Option<string>)
  {
    && (forall i, j :: 0 <= i < j < |added| ==> added[i] != added[j])
    && (forall i :: 0 <= i < |added| ==> added[i] in pending)
    && (forall i :: 0 <= i < |added| && (err.None? || i < |added| - 1) ==>
          AddReply(remote, log, teamId, org, added, i).Ok?)
    && (err.None? ==> forall k :: k in pending ==> k in added)
    && (err.Some? ==>
          && |added| > 0
          && AddReply(remote, log, teamId, org, added, |added| - 1).Fail?
          && AddReply(remote, log, teamId, org, added, |added| - 1).msg == err.value)
  }

  /** The answer to adding `added[i]`, after the history `log` and the earlier adds. */
  function AddReply(remote: Remote, log: seq<Call>, teamId: int, org: string, added: seq<string>, i: nat): Reply<()>
    requires i < |added|
  {
    remote.addTeamRepository(log + AddCalls(teamId, org, added[..i]), teamId, org, added[i])
  }

  lemma AddReplyExtend(remote: Remote, log: seq<Call>, teamId: int, org: string, added: seq<string>, x: string)
    ensures forall i :: 0 <= i < |added| ==>
      AddReply(remote, log, teamId, org, added + [x], i) == AddReply(remote, log, teamId, org, added, i)
  {
    forall i | 0 <= i < |added|
      ensures AddReply(remote, log, teamId, org, added + [x], i) == AddReply(remote, log, teamId, org, added, i)
    {
      assert (added + [x])[..i] == added[..i];
    }
  }

  /** What the add loop keeps: `added` and `pending` split the names done from the names to
      do, `added` has no repeats, and every add so far succeeded. */
  predicate AddLoop(remote: Remote, log: seq<Call>, teamId: int, org: string,
                    all: set<string>, pending: set<string>, added: seq<string>)
  {
    && pending <= all
    && (forall i :: 0 <= i < |added| ==> added[i] in all && added[i] !in pending)
    && (forall k :: k in all && k !in pending ==> k in added)
    && (forall i, j :: 0 <= i < j < |added| ==> added[i] != added[j])
    && (forall i :: 0 <= i < |added| ==> AddReply(remote, log, teamId, org, added, i).Ok?)
  }

  lemma AddLoopStep(remote: Remote, log: seq<Call>, teamId: int, org: string,
                    all: set<string>, pending: set<string>, added: seq<string>, repo: string)
    requires AddLoop(remote, log, teamId, org, all, pending, added) && repo in pending
    ensures var next := added + [repo];
      var r := remote.addTeamRepository(log + AddCalls(teamId, org, added), teamId, org, repo);
      && AddCalls(teamId, org, next) == AddCalls(teamId, org, added) + [Call.AddTeamRepository(teamId, org, repo)]
      && (r.Ok? ==> AddLoop(remote, log, teamId, org, all, pending - {repo}, next))
      && (r.Fail? ==> AddPhase(remote, log, teamId, org, all, next, Some(r.msg)))
  {
    AddReplyExtend(remote, log, teamId, org, added, repo);
    assert (added + [repo])[..|added|] == added;
  }

  lemma AddLoopDone(remote: Remote, log: seq<Call>, teamId: int, org: string,
                    all: set<string>, added: seq<string>)
    requires AddLoop(remote, log, teamId, org, all, {}, added)
    ensures AddPhase(remote, log, teamId, org, all, added, None)
  {
  }

  /** The final loop: add every flagged name, stopping at the first failure. */
  method AddFlagged(c: Client, teamId: int, org: string, flags: map<string, bool>)
    returns (err: Option<string>, ghost added: seq<string>)
    modifies c
    ensures c.log == old(c.log) + AddCalls(teamId, org, added)
    ensures AddPhase(c.remote, old(c.log), teamId, org, Flagged(flags), added, err)
  {
    ghost var all := Flagged(flags);
    ghost var log0 := c.log;
    var pending := Flagged(flags);
    added := [];
    while pending != {}
      invariant c.log == log0 + AddCalls(teamId, org, added)
      invariant AddLoop(c.remote, log0, teamId, org, all, pending, added)
      decreases pending
    {
      var repo :| repo in pending;
      AddLoopStep(c.remote, log0, teamId, org, all, pending, added, repo);
      var r := c.AddTeamRepository(teamId, org, repo);
      added := added + [repo];
      if r.Fail? {
        return Some(r.msg), added;
      }
      pending := pending - {repo};
    }
    AddLoopDone(c.remote, log0, teamId, org, all, added);
    err := None;
  }

  // ----- the scan loops -----

  /** What the inner loop keeps: `done` is what it has sent since `log0`, and the page's scan
      is `done` followed by the scan of the items from `j` on. */
  predicate ItemsLoop(remote: Remote, log0: seq<Call>, teamId: int, org: string, items: seq<Repository>,
                      flags: map<string, bool>, j: nat, log: seq<Call>, newFlags: map<string, bool>, done: seq<Call>)
  {
    && j <= |items|
    && log == log0 + done
    && var rest := ScanItems(remote, log, teamId, org, items[j..], newFlags);
       ScanItems(remote, log0, teamId, org, items, flags) == Scan(done + rest.calls, rest.flags, rest.err)
  }

  lemma ItemsLoopStep(remote: Remote, log0: seq<Call>, teamId: int, org: string, items: seq<Repository>,
                      flags: map<string, bool>, j: nat, log: seq<Call>, newFlags: map<string, bool>, done: seq<Call>)
    requires ItemsLoop(remote, log0, teamId, org, items, flags, j, log, newFlags, done) && j < |items|
    ensures var name := items[j].name;
      var call := Call.RemoveTeamRepository(teamId, org, name);
      var r := remote.removeTeamRepository(log, teamId, org, name);
      && (name in newFlags ==> ItemsLoop(remote, log0, teamId, org, items, flags, j + 1, log, newFlags[name := false], done))
      && (name !in newFlags && r.Ok? ==> ItemsLoop(remote, log0, teamId, org, items, flags, j + 1, log + [call], newFlags, done + [call]))
      && (name !in newFlags && r.Fail? ==>
            ScanItems(remote, log0, teamId, org, items, flags) == Scan(done + [call], newFlags, Some(r.msg)))
  {
    assert items[j..][0] == items[j] && items[j..][1..] == items[j + 1..];
    var name := items[j].name;
    var call := Call.RemoveTeamRepository(teamId, org, name);
    if name !in newFlags {
      var rest := ScanItems(remote, log + [call], teamId, org, items[j + 1..], newFlags);
      assert done + ([call] + rest.calls) == (done + [call]) + rest.calls;
      assert log + [call] == log0 + (done + [call]);
    }
  }

  lemma ItemsLoopDone(remote: Remote, log0: seq<Call>, teamId: int, org: string, items: seq<Repository>,
                      flags: map<string, bool>, log: seq<Call>, newFlags: map<string, bool>, done: seq<Call>)
    requires ItemsLoop(remote, log0, teamId, org, items, flags, |items|, log, newFlags, done)
    ensures ScanItems(remote, log0, teamId, org, items, flags) == Scan(done, newFlags, None)
  {
    assert items[|items|..] == [];
    assert done + [] == done;
  }

  /** The inner loop over one listed page. */
  method ScanPage(c: Client, teamId: int, org: string, items: seq<Repository>, flags: map<string, bool>)
    returns (newFlags: map<string, bool>, err: Option<string>)
    modifies c
    ensures var s := ScanItems(c.remote, old(c.log), teamId, org, items, flags);
      c.log == old(c.log) + s.calls && err == s.err && (err.None? ==> newFlags == s.flags)
  {
    ghost var log0 := c.log;
    newFlags := flags;
    var j := 0;
    ghost var done: seq<Call> := [];
    assert items[0..] == items;
    while j < |items|
      invariant ItemsLoop(c.remote, log0, teamId, org, items, flags, j, c.log, newFlags, done)
      decreases |items| - j
    {
      var name := items[j].name;
      ItemsLoopStep(c.remote, log0, teamId, org, items, flags, j, c.log, newFlags, done);
      if name in newFlags {
        newFlags := newFlags[name := false];
      } else {
        var r := c.RemoveTeamRepository(teamId, org, name);
        done := done + [Call.RemoveTeamRepository(teamId, org, name)];
        if r.Fail? {
          return newFlags, Some(r.msg);
        }
      }
      j := j + 1;
    }
    ItemsLoopDone(c.remote, log0, teamId, org, items, flags, c.log, newFlags, done);
    err := None;
  }

  /** The desired map, built by the first loop. */
  method BuildFlags(wanted: seq<string>) returns (flags: map<string, bool>)
    ensures flags == DesiredFlags(wanted)
    ensures Flagged(flags) == Desired(wanted) && flags.Keys == Desired(wanted)
  {
    flags := map[];
    for i := 0 to |wanted|
      invariant flags == DesiredFlags(wanted[..i])
    {
      assert wanted[..i + 1][..i] == wanted[..i];
      if wanted[i] != "" {
        flags := flags[wanted[i] := true];
      }
    }
    assert wanted[..|wanted|] == wanted;
    DesiredFlagsMeaning(wanted);
  }

  /** What the outer loop keeps: `done` is what it has sent since `log0`, and the whole scan
      is `done` followed by the scan from page `n` on. */
  predicate PagesLoop(remote: Remote, log0: seq<Call>, teamId: int, org: string,
                      flags: map<string, bool>, n: nat, log: seq<Call>, newFlags: map<string, bool>, done: seq<Call>)
  {
    && 1 <= n <= remote.teamRepoPages + 1
    && log == log0 + done
    && var rest := ScanPages(remote, log, teamId, org, n, newFlags);
       ScanPages(remote, log0, teamId, org, 1, flags) == Scan(done + rest.calls, rest.flags, rest.err)
  }

  lemma PagesLoopInit(remote: Remote, log0: seq<Call>, teamId: int, org: string, flags: map<string, bool>)
    ensures PagesLoop(remote, log0, teamId, org, flags, 1, log0, flags, [])
  {
    assert log0 + [] == log0;
  }

  /** The outer loop at a failed or empty page. */
  lemma PagesLoopEnd(remote: Remote, log0: seq<Call>, teamId: int, org: string,
                     flags: map<string, bool>, n: nat, log: seq<Call>, newFlags: map<string, bool>, done: seq<Call>)
    requires PagesLoop(remote, log0, teamId, org, flags, n, log, newFlags, done)
    requires !(TeamPage(remote, log, teamId, n).Ok? && TeamPage(remote, log, teamId, n).value != [])
    ensures var list := ListCall(teamId, n);
      var total := ScanPages(remote, log0, teamId, org, 1, flags);
      var page := TeamPage(remote, log, teamId, n);
      && log0 + total.calls == log + [list]
      && (page.Fail? ==> total.err == Some(page.msg))
      && (page.Ok? ==> total.err.None? && total.flags == newFlags)
  {
    var list := ListCall(teamId, n);
    assert log0 + (done + [list]) == (log0 + done) + [list];
  }

  /** The outer loop at a page that lists repositories. */
  lemma PagesLoopMore(remote: Remote, log0: seq<Call>, teamId: int, org: string,
                      flags: map<string, bool>, n: nat, log: seq<Call>, newFlags: map<string, bool>, done: seq<Call>)
    requires PagesLoop(remote, log0, teamId, org, flags, n, log, newFlags, done)
    requires TeamPage(remote, log, teamId, n).Ok? && TeamPage(remote, log, teamId, n).value != []
    ensures var list := ListCall(teamId, n);
      var total := ScanPages(remote, log0, teamId, org, 1, flags);
      var s := ScanItems(remote, log + [list], teamId, org, TeamPage(remote, log, teamId, n).value, newFlags);
      && (s.err.Some? ==> total.err == s.err && log0 + total.calls == log + [list] + s.calls)
      && (s.err.None? ==> PagesLoop(remote, log0, teamId, org, flags, n + 1, log + [list] + s.calls, s.flags, done + [list] + s.calls))
  {
    var list := ListCall(teamId, n);
    var s := ScanItems(remote, log + [list], teamId, org, TeamPage(remote, log, teamId, n).value, newFlags);
    ScanPagesStep(remote, log, teamId, org, n, newFlags);
    if s.err.Some? {
      assert done + ([list] + s.calls) == done + [list] + s.calls;
      assert log0 + (done + [list] + s.calls) == (log0 + done) + [list] + s.calls;
    } else {
      PagesLoopNext(remote, log0, teamId, org, flags, n, log, newFlags, done, s);
    }
  }

  /** The outer loop moves on after a page processed without error. */
  lemma PagesLoopNext(remote: Remote, log0: seq<Call>, teamId: int, org: string,
                      flags: map<string, bool>, n: nat, log: seq<Call>, newFlags: map<string, bool>, done: seq<Call>, s: Scan)
    requires PagesLoop(remote, log0, teamId, org, flags, n, log, newFlags, done)
    requires n <= remote.teamRepoPages && s.err.None?
    requires var rest := ScanPages(remote, log + [ListCall(teamId, n)] + s.calls, teamId, org, n + 1, s.flags);
      ScanPages(remote, log, teamId, org, n, newFlags) == Scan([ListCall(teamId, n)] + s.calls + rest.calls, rest.flags, rest.err)
    ensures PagesLoop(remote, log0, teamId, org, flags, n + 1, log + [ListCall(teamId, n)] + s.calls, s.flags,
                      done + [ListCall(teamId, n)] + s.calls)
  {
    var list := ListCall(teamId, n);
    var rest := ScanPages(remote, log + [list] + s.calls, teamId, org, n + 1, s.flags);
    assert log0 + (done + [list] + s.calls) == (log0 + done) + [list] + s.calls;
    assert done + ([list] + s.calls + rest.calls) == (done + [list] + s.calls) + rest.calls;
  }

  /** The scan of an update: list the team's repositories page by page from page 1, each
      page as the server lists it at that moment. */
  method ScanTeam(c: Client, teamId: int, org: string, flags: map<string, bool>)
    returns (newFlags: map<string, bool>, err: Option<string>)
    modifies c
    ensures var s := ScanPages(c.remote, old(c.log), teamId, org, 1, flags);
      c.log == old(c.log) + s.calls && err == s.err && (err.None? ==> newFlags == s.flags)
  {
    ghost var log0 := c.log;
    var page := 1;
    newFlags := flags;
    ghost var done: seq<Call> := [];
    PagesLoopInit(c.remote, log0, teamId, org, flags);
    while true
      invariant PagesLoop(c.remote, log0, teamId, org, flags, page, c.log, newFlags, done)
      decreases c.remote.teamRepoPages + 1 - page
    {
      ghost var before := c.log;
      var reply := c.ListTeamRepositories(teamId, page);
      if reply.Fail? {
        PagesLoopEnd(c.remote, log0, teamId, org, flags, page, before, newFlags, done);
        return newFlags, Some(reply.msg);
      }
      if reply.value == [] {
        PagesLoopEnd(c.remote, log0, teamId, org, flags, page, before, newFlags, done);
        return newFlags, None;
      }
      var items := reply.value;
      PagesLoopMore(c.remote, log0, teamId, org, flags, page, before, newFlags, done);
      ghost var sItems := ScanItems(c.remote, before + [ListCall(teamId, page)], teamId, org, items, newFlags);
      var pageFlags, pageErr := ScanPage(c, teamId, org, items, newFlags);
      if pageErr.Some? {
        return newFlags, pageErr;
      }
      done := done + [ListCall(teamId, page)] + sItems.calls;
      newFlags := pageFlags;
      page := page + 1;
    }
  }

  /** The scan an update makes (none when creating). */
  function ScanFor(remote: Remote, log: seq<Call>, teamId: int, org: string,
                   flags: map<string, bool>, update: bool): Scan
  {
    if update then ScanPages(remote, log, teamId, org, 1, flags)
    else Scan([], flags, None)
  }

  /** What setTeamRepositories does after the history `log`, for the attributes `fields`: the
      scan (an update only) and then, if it ended without error, the add phase; `after` is the
      history when it returns `err`. */
  predicate SyncRan(remote: Remote, log: seq<Call>, teamId: int, fields: Fields, update: bool,
                    added: seq<string>, err: Option<string>, after: seq<Call>)
  {
    var org := GetString(fields, TeamOrg);
    var s := ScanFor(remote, log, teamId, org, DesiredFlags(GetStrings(fields, TeamRepositories)), update);
    && (s.err.Some? ==> err == s.err && after == log + s.calls)
    && (s.err.None? ==>
          && after == log + s.calls + AddCalls(teamId, org, added)
          && AddPhase(remote, log + s.calls, teamId, org, Flagged(s.flags), added, err))
  }

  /** setTeamRepositories(team, d, meta, update). */
  method SetTeamRepositories(team: Team, d: ResourceData, c: Client, update: bool)
    returns (err: Option<string>, ghost added: seq<string>)
    modifies c
    ensures SyncRan(c.remote, old(c.log), team.id, d.fields, update, added, err, c.log)
  {
    var org := GetString(d.fields, TeamOrg);
    var flags := BuildFlags(GetStrings(d.fields, TeamRepositories));
    ghost var s := ScanFor(c.remote, c.log, team.id, org, flags, update);
    if update {
      var scanErr;
      flags, scanErr := ScanTeam(c, team.id, org, flags);
      if scanErr.Some? {
        return scanErr, [];
      }
    } else {
      assert c.log == old(c.log) + s.calls;
    }
    assert c.log == old(c.log) + s.calls && flags == s.flags;
    err, added := AddFlagged(c, team.id, org, flags);
  }

  // ----- what the sync achieves -----

  /** Creating (no scan): nothing is listed or removed, and the names to add are exactly the
      distinct non-empty configured names. */
  lemma CreateAddsDesired(remote: Remote, log: seq<Call>, teamId: int, org: string, wanted: seq<string>)
    ensures var s := ScanFor(remote, log, teamId, org, DesiredFlags(wanted), false);
      s.calls == [] && s.err.None? && Flagged(s.flags) == Desired(wanted)
  {
    DesiredFlagsMeaning(wanted);
  }

  /** Updating, against any server: with `seen` the names on the pages the scan read, a
      finished scan removes exactly seen \ desired and leaves exactly desired \ seen to add;
      the two sets are disjoint, so a repository the scan saw is never re-added. Every
      request of the scan lists this team's repositories or removes an unconfigured one. */
  lemma {:induction false} UpdateSyncEffect(remote: Remote, log: seq<Call>, teamId: int, org: string, wanted: seq<string>)
    ensures var s := ScanFor(remote, log, teamId, org, DesiredFlags(wanted), true);
      var seen := Seen(remote, log, teamId, org, 1, DesiredFlags(wanted));
      && ScanRequests(s.calls, teamId, org, DesiredFlags(wanted))
      && (s.err.None? ==> Removed(s.calls) == seen - Desired(wanted))
      && (s.err.None? ==> Flagged(s.flags) == Desired(wanted) - seen)
      && Removed(s.calls) !! Flagged(s.flags)
  {
    var flags := DesiredFlags(wanted);
    DesiredFlagsMeaning(wanted);
    ScanPagesRequests(remote, log, teamId, org, 1, flags);
    ScanPagesEffect(remote, log, teamId, org, 1, flags);
    ScanPagesRemoved(remote, log, teamId, org, 1, flags);
    var s := ScanPages(remote, log, teamId, org, 1, flags);
    RemovedOnlyUnconfigured(s.calls, teamId, org, flags);
    assert forall k :: k in Flagged(s.flags) ==> k in flags;
  }

  /** Removals in a scan name only keys outside the desired map. */
  lemma {:induction false} RemovedOnlyUnconfigured(calls: seq<Call>, teamId: int, org: string, flags: map<string, bool>)
    requires ScanRequests(calls, teamId, org, flags)
    ensures forall k :: k in Removed(calls) ==> k !in flags
    decreases |calls|
  {
    if calls != [] {
      RemovedOnlyUnconfigured(calls[1..], teamId, org, flags);
    }
  }

  /** The hypothesis under which the paging loop reads the team's whole listing: the requests
      of the scan (its listings and its removals) do not change how the server lists the
      team's repositories after `log`. A server that pages by offset over the current list
      does not satisfy it (see OffsetPagingLeavesRepository). */
  ghost predicate ListingStable(remote: Remote, log: seq<Call>, teamId: int, org: string, flags: map<string, bool>) {
    forall ext :: ScanRequests(ext, teamId, org, flags) ==> remote.teamRepos(log + ext, teamId) == remote.teamRepos(log, teamId)
  }

  /** Under a stable listing, a page reads the same after any requests of the scan. */
  lemma StablePage(remote: Remote, log0: seq<Call>, ext: seq<Call>, teamId: int, org: string,
                   flags0: map<string, bool>, n: nat)
    requires n >= 1 && ListingStable(remote, log0, teamId, org, flags0) && ScanRequests(ext, teamId, org, flags0)
    ensures TeamPage(remote, log0 + ext, teamId, n) == TeamPage(remote, log0, teamId, n)
  {
  }

  /** The requests of one page, appended to requests of the scan, are requests of the scan,
      and the page keeps the configured names. */
  lemma ScanRequestsExtend(remote: Remote, log: seq<Call>, ext: seq<Call>, teamId: int, org: string,
                           flags0: map<string, bool>, n: nat, items: seq<Repository>, flags: map<string, bool>)
    requires ScanRequests(ext, teamId, org, flags0) && flags.Keys == flags0.Keys
    ensures var s := ScanItems(remote, log + [ListCall(teamId, n)], teamId, org, items, flags);
      ScanRequests(ext + ([ListCall(teamId, n)] + s.calls), teamId, org, flags0) && s.flags.Keys == flags0.Keys
  {
    var list := ListCall(teamId, n);
    var s := ScanItems(remote, log + [list], teamId, org, items, flags);
    ScanItemsEffect(remote, log + [list], teamId, org, items, flags);
    assert ScanRequests([list], teamId, org, flags);
    ScanRequestsAppend([list], s.calls, teamId, org, flags, flags);
    ScanRequestsAppend(ext, [list] + s.calls, teamId, org, flags0, flags);
  }

  /** Under a stable listing, a scan that ends without error sees exactly the listing as it
      stood before the scan. */
  lemma {:induction false} SeenUnderStableListing(remote: Remote, log0: seq<Call>, ext: seq<Call>, teamId: int, org: string,
                                                  flags0: map<string, bool>, n: nat, flags: map<string, bool>)
    requires n >= 1 && ListingStable(remote, log0, teamId, org, flags0)
    requires ScanRequests(ext, teamId, org, flags0) && flags.Keys == flags0.Keys
    ensures ScanPages(remote, log0 + ext, teamId, org, n, flags).err.None? ==>
      Seen(remote, log0 + ext, teamId, org, n, flags) == Listed(remote, log0, teamId, n)
    decreases remote.teamRepoPages + 1 - n
  {
    var log := log0 + ext;
    StablePage(remote, log0, ext, teamId, org, flags0, n);
    var page := TeamPage(remote, log, teamId, n);
    if page.Ok? && page.value != [] {
      var list := ListCall(teamId, n);
      var s := ScanItems(remote, log + [list], teamId, org, page.value, flags);
      ScanPagesStep(remote, log, teamId, org, n, flags);
      if s.err.None? {
        var ext' := ext + ([list] + s.calls);
        ScanRequestsExtend(remote, log, ext, teamId, org, flags0, n, page.value, flags);
        assert log0 + ext' == log + [list] + s.calls;
        SeenUnderStableListing(remote, log0, ext', teamId, org, flags0, n + 1, s.flags);
      }
    } else {
      ScanPagesEnd(remote, log, teamId, org, n, flags);
    }
  }

  /** Under a stable listing, running the sync against a team that already holds exactly the
      configured repositories changes nothing: it removes nothing and adds nothing. */
  lemma SyncIdempotent(remote: Remote, log: seq<Call>, teamId: int, org: string, wanted: seq<string>)
    requires ListingStable(remote, log, teamId, org, DesiredFlags(wanted))
    requires Listed(remote, log, teamId, 1) == Desired(wanted)
    ensures var s := ScanFor(remote, log, teamId, org, DesiredFlags(wanted), true);
      s.err.None? ==> Removed(s.calls) == {} && Flagged(s.flags) == {}
  {
    UpdateSyncEffect(remote, log, teamId, org, wanted);
    assert log + [] == log;
    SeenUnderStableListing(remote, log, [], teamId, org, DesiredFlags(wanted), 1, DesiredFlags(wanted));
  }

  /** Under a stable listing, a sync in update mode that ends without error leaves the team
      with exactly the configured repositories: those listed before the sync, less those
      removed, plus those added. */
  lemma SyncReachesConfiguration(remote: Remote, log: seq<Call>, teamId: int, fields: Fields,
                                 added: seq<string>, after: seq<Call>)
    requires SyncRan(remote, log, teamId, fields, true, added, None, after)
    requires ListingStable(remote, log, teamId, GetString(fields, TeamOrg), DesiredFlags(GetStrings(fields, TeamRepositories)))
    ensures var org := GetString(fields, TeamOrg);
      var wanted := GetStrings(fields, TeamRepositories);
      var s := ScanFor(remote, log, teamId, org, DesiredFlags(wanted), true);
      s.err.None? && (Listed(remote, log, teamId, 1) - Removed(s.calls)) + (set i | 0 <= i < |added| :: added[i]) == Desired(wanted)
  {
    var org := GetString(fields, TeamOrg);
    var wanted := GetStrings(fields, TeamRepositories);
    UpdateSyncEffect(remote, log, teamId, org, wanted);
    assert log + [] == log;
    SeenUnderStableListing(remote, log, [], teamId, org, DesiredFlags(wanted), 1, DesiredFlags(wanted));
    var s := ScanFor(remote, log, teamId, org, DesiredFlags(wanted), true);
    assert (set i | 0 <= i < |added| :: added[i]) == Flagged(s.flags);
  }
}
