/** The `gitea_team` resource: a team of an organisation, its repository units, its members
    and (unless it includes every repository) its repositories. */
module TeamResource {
  import opened Results
  import opened Strings
  import opened State
  import opened GiteaClient
  import opened TeamSync

  // ----- attribute keys (TeamOrg and TeamRepositories live with the sync) -----

  const TeamName := "name"
  const TeamDescription := "description"
  const TeamPermissions := "permission"
  const TeamCreateRepoFlag := "can_create_repos"
  const TeamIncludeAllReposFlag := "include_all_repositories"
  const TeamUnits := "units"
  const TeamMembers := "members"

  // ----- the units parser -----

  /** The order in which the handlers test the unit tokens. */
  const UnitOrder: seq<RepoUnit> :=
    [UnitCode, UnitIssues, UnitExtIssues, UnitWiki, UnitPulls, UnitReleases, UnitExtWiki, UnitProjects]

  /** A unit's position in UnitOrder. */
  function Rank(u: RepoUnit): nat {
    match u
    case UnitCode => 0
    case UnitIssues => 1
    case UnitExtIssues => 2
    case UnitWiki => 3
    case UnitPulls => 4
    case UnitReleases => 5
    case UnitExtWiki => 6
    case UnitProjects => 7
  }

  lemma RankIsPosition(u: RepoUnit)
    ensures Rank(u) < |UnitOrder| && UnitOrder[Rank(u)] == u
  {
  }

  /** The unit `u` when its token occurs in `s`. */
  function Kept(s: string, u: RepoUnit): seq<RepoUnit> {
    if Contains(s, u.Token()) then [u] else []
  }

  /** The units of `order` whose token occurs in `s`, in order. */
  function UnitsIn(s: string, order: seq<RepoUnit>): seq<RepoUnit>
    decreases |order|
  {
    if order == [] then [] else UnitsIn(s, order[..|order| - 1]) + Kept(s, order[|order| - 1])
  }

  /** The unit list both handlers build from the `units` string. */
  function SelectedUnits(s: string): seq<RepoUnit> {
    UnitsIn(s, UnitOrder)
  }

  /** Scanning `order` keeps exactly the units of `order` whose token occurs in `s`. */
  lemma {:induction false} UnitsInMembers(s: string, order: seq<RepoUnit>)
    ensures forall u :: u in UnitsIn(s, order) <==> u in order && Contains(s, u.Token())
    decreases |order|
  {
    if order != [] {
      var init := order[..|order| - 1];
      UnitsInMembers(s, init);
      assert order == init + [order[|order| - 1]];
    }
  }

  /** Scanning an order of strictly increasing rank keeps the kept units in that order. */
  lemma {:induction false} UnitsInSorted(s: string, order: seq<RepoUnit>)
    requires forall i, j :: 0 <= i < j < |order| ==> Rank(order[i]) < Rank(order[j])
    ensures forall i, j :: 0 <= i < j < |UnitsIn(s, order)| ==>
      Rank(UnitsIn(s, order)[i]) < Rank(UnitsIn(s, order)[j])
    decreases |order|
  {
    if order != [] {
      var init := order[..|order| - 1];
      var last := order[|order| - 1];
      UnitsInSorted(s, init);
      UnitsInMembers(s, init);
      var r0 := UnitsIn(s, init);
      var r := r0 + Kept(s, last);
      assert UnitsIn(s, order) == r;
      forall i, j | 0 <= i < j < |r| ensures Rank(r[i]) < Rank(r[j]) {
        if j >= |r0| {
          assert r[j] == last && r[i] == r0[i];
          assert r0[i] in init;
          var x :| 0 <= x < |init| && init[x] == r0[i];
          assert order[x] == r0[i] && order[|order| - 1] == last;
          assert Rank(order[x]) < Rank(order[|order| - 1]);
        } else {
          assert r[i] == r0[i] && r[j] == r0[j];
          assert Rank(r0[i]) < Rank(r0[j]);
        }
      }
    }
  }

  /** Scanning the first k units of UnitOrder: a unit is kept iff it is among them and its
      token occurs in `s`; kept units come in strictly increasing order. */
  lemma UnitsInPrefix(s: string, k: nat)
    requires k <= |UnitOrder|
    ensures var r := UnitsIn(s, UnitOrder[..k]);
      && (forall u :: u in r <==> Rank(u) < k && Contains(s, u.Token()))
      && (forall i, j :: 0 <= i < j < |r| ==> Rank(r[i]) < Rank(r[j]))
      && (forall i :: 0 <= i < |r| ==> Rank(r[i]) < k)
  {
    var order := UnitOrder[..k];
    assert forall i :: 0 <= i < |order| ==> Rank(order[i]) == i;
    forall u ensures u in order <==> Rank(u) < k {
      RankIsPosition(u);
    }
    UnitsInMembers(s, order);
    UnitsInSorted(s, order);
    var r := UnitsIn(s, order);
    assert forall i :: 0 <= i < |r| ==> Rank(r[i]) < k by {
      forall i | 0 <= i < |r| ensures Rank(r[i]) < k {
        assert r[i] in r;
      }
    }
  }

  /** The unit list holds a unit iff its token occurs in the `units` string, and lists the
      units at most once each, in the fixed order code, issues, ext_issues, wiki, pulls,
      releases, ext_wiki, projects. */
  lemma SelectedUnitsMeaning(s: string)
    ensures var r := SelectedUnits(s);
      && (forall u :: u in r <==> Contains(s, u.Token()))
      && (forall i, j :: 0 <= i < j < |r| ==> Rank(r[i]) < Rank(r[j]))
  {
    UnitsInPrefix(s, |UnitOrder|);
    assert UnitOrder[..|UnitOrder|] == UnitOrder;
  }

  /** Scanning one more unit of UnitOrder appends that unit when its token occurs. */
  lemma UnitsInStep(s: string, k: nat)
    requires 1 <= k <= |UnitOrder|
    ensures UnitsIn(s, UnitOrder[..k]) == UnitsIn(s, UnitOrder[..k - 1]) + Kept(s, UnitOrder[k - 1])
  {
    assert UnitOrder[..k][..k - 1] == UnitOrder[..k - 1];
  }

  /** One of the eight tests: append `u` when its token occurs in `s`. */
  method AppendIfListed(s: string, units: seq<RepoUnit>, u: RepoUnit) returns (r: seq<RepoUnit>)
    ensures r == units + Kept(s, u)
  {
    r := units;
    if Contains(s, u.Token()) {
      r := r + [u];
    }
  }

  /** The eight tests of the handlers, in their order. */
  method ParseUnits(s: string) returns (units: seq<RepoUnit>)
    ensures units == SelectedUnits(s)
  {
    units := [];
    assert units == UnitsIn(s, UnitOrder[..0]);
    units := AppendIfListed(s, units, UnitCode);
    UnitsInStep(s, 1);
    units := AppendIfListed(s, units, UnitIssues);
    UnitsInStep(s, 2);
    units := AppendIfListed(s, units, UnitExtIssues);
    UnitsInStep(s, 3);
    units := AppendIfListed(s, units, UnitWiki);
    UnitsInStep(s, 4);
    units := AppendIfListed(s, units, UnitPulls);
    UnitsInStep(s, 5);
    units := AppendIfListed(s, units, UnitReleases);
    UnitsInStep(s, 6);
    units := AppendIfListed(s, units, UnitExtWiki);
    UnitsInStep(s, 7);
    units := AppendIfListed(s, units, UnitProjects);
    UnitsInStep(s, 8);
    assert UnitOrder[..8] == UnitOrder;
  }

  // ----- request payloads -----

  function CreateOptions(f: Fields): CreateTeamOption {
    CreateTeamOption(
      GetString(f, TeamName), GetString(f, TeamDescription), GetString(f, TeamPermissions),
      GetBool(f, TeamCreateRepoFlag), GetBool(f, TeamIncludeAllReposFlag),
      SelectedUnits(GetString(f, TeamUnits)))
  }

  function EditOptions(f: Fields): EditTeamOption {
    EditTeamOption(
      GetString(f, TeamName), GetString(f, TeamDescription), GetString(f, TeamPermissions),
      GetBool(f, TeamCreateRepoFlag), GetBool(f, TeamIncludeAllReposFlag),
      SelectedUnits(GetString(f, TeamUnits)))
  }

  // ----- the member loop -----

  /** The requests of a member loop and the error that stopped it. */
  datatype Run = Run(calls: seq<Call>, err: Option<string>)

  /** The member loop after the history `log`: each non-empty name, in order, is added; a
      failed add stops the loop. */
  function MemberAdds(remote: Remote, log: seq<Call>, teamId: int, users: seq<string>): Run
    decreases |users|
  {
    if users == [] then Run([], None)
    else if users[0] == "" then MemberAdds(remote, log, teamId, users[1..])
    else
      var call := Call.AddTeamMember(teamId, users[0]);
      var r := remote.addTeamMember(log, teamId, users[0]);
      if r.Fail? then Run([call], Some(r.msg))
      else
        var rest := MemberAdds(remote, log + [call], teamId, users[1..]);
        Run([call] + rest.calls, rest.err)
  }

  /** Some configured member is a non-empty name. */
  predicate AnyMember(users: seq<string>) {
    exists i :: 0 <= i < |users| && users[i] != ""
  }

  /** The member loop only adds members (never removes one), only configured non-empty ones,
      of this team; when it ends without error every configured non-empty name was added. */
  lemma {:induction false} MemberAddsEffect(remote: Remote, log: seq<Call>, teamId: int, users: seq<string>)
    ensures var m := MemberAdds(remote, log, teamId, users);
      && (forall i :: 0 <= i < |m.calls| ==>
            m.calls[i].AddTeamMember? && m.calls[i].teamId == teamId
            && m.calls[i].user in users && m.calls[i].user != "")
      && (m.err.None? ==> forall u :: u in users && u != "" ==> Call.AddTeamMember(teamId, u) in m.calls)
      && (!AnyMember(users) ==> m == Run([], None))
    decreases |users|
  {
    if users != [] {
      var u := users[0];
      assert forall x :: x in users[1..] ==> x in users;
      assert forall x :: x in users ==> x == u || x in users[1..];
      if u == "" {
        MemberAddsEffect(remote, log, teamId, users[1..]);
        assert AnyMember(users[1..]) ==> AnyMember(users);
      } else {
        var call := Call.AddTeamMember(teamId, u);
        assert AnyMember(users) by { assert users[0] != ""; }
        if remote.addTeamMember(log, teamId, u).Ok? {
          var rest := MemberAdds(remote, log + [call], teamId, users[1..]);
          MemberAddsEffect(remote, log + [call], teamId, users[1..]);
          assert forall i :: 0 < i < |[call] + rest.calls| ==> ([call] + rest.calls)[i] == rest.calls[i - 1];
        }
      }
    }
  }

  /** What the member loop keeps: `done` is what it has sent since `log0`, the loop's run is
      `done` followed by the run over the names from `j` on, and without a team every name so
      far was empty. */
  predicate MembersLoop(remote: Remote, log0: seq<Call>, teamId: int, users: seq<string>, hasTeam: bool,
                        j: nat, log: seq<Call>, done: seq<Call>)
  {
    && j <= |users|
    && log == log0 + done
    && (!hasTeam ==> done == [] && forall i :: 0 <= i < j ==> users[i] == "")
    && var rest := MemberAdds(remote, log, teamId, users[j..]);
       MemberAdds(remote, log0, teamId, users) == Run(done + rest.calls, rest.err)
  }

  lemma MembersLoopStep(remote: Remote, log0: seq<Call>, teamId: int, users: seq<string>, hasTeam: bool,
                        j: nat, log: seq<Call>, done: seq<Call>)
    requires MembersLoop(remote, log0, teamId, users, hasTeam, j, log, done) && j < |users|
    ensures var u := users[j];
      var call := Call.AddTeamMember(teamId, u);
      var r := remote.addTeamMember(log, teamId, u);
      && (u == "" ==> MembersLoop(remote, log0, teamId, users, hasTeam, j + 1, log, done))
      && (u != "" ==> AnyMember(users))
      && (u != "" && hasTeam && r.Ok? ==>
            MembersLoop(remote, log0, teamId, users, hasTeam, j + 1, log + [call], done + [call]))
      && (u != "" && r.Fail? ==> MemberAdds(remote, log0, teamId, users) == Run(done + [call], Some(r.msg)))
  {
    assert users[j..][0] == users[j] && users[j..][1..] == users[j + 1..];
    var u := users[j];
    var call := Call.AddTeamMember(teamId, u);
    if u != "" {
      var rest := MemberAdds(remote, log + [call], teamId, users[j + 1..]);
      assert done + ([call] + rest.calls) == (done + [call]) + rest.calls;
    }
  }

  lemma MembersLoopDone(remote: Remote, log0: seq<Call>, teamId: int, users: seq<string>, hasTeam: bool,
                        log: seq<Call>, done: seq<Call>)
    requires MembersLoop(remote, log0, teamId, users, hasTeam, |users|, log, done)
    ensures MemberAdds(remote, log0, teamId, users) == Run(done, None)
    ensures !hasTeam ==> !AnyMember(users)
  {
    assert users[|users|..] == [];
    assert done + [] == done;
  }

  /** The ID the member and sync requests carry: the team's, or none at all when there is no
      team (the loop then never sends a request). */
  function TeamIdOf(team: Option<Team>): int {
    if team.Some? then team.value.id else 0
  }

  /** The member loop of both handlers. With no team (the record of a failed call) the first
      non-empty name dereferences it and the handler crashes before any request. */
  method AddMembers(c: Client, team: Option<Team>, users: seq<string>) returns (err: Option<string>, crashed: bool)
    modifies c
    ensures crashed <==> team.None? && AnyMember(users)
    ensures crashed ==> c.log == old(c.log)
    ensures var m := MemberAdds(c.remote, old(c.log), TeamIdOf(team), users);
      !crashed ==> c.log == old(c.log) + m.calls && err == m.err
  {
    ghost var log0 := c.log;
    ghost var done: seq<Call> := [];
    var teamId := TeamIdOf(team);
    assert users[0..] == users;
    for j := 0 to |users|
      invariant MembersLoop(c.remote, log0, teamId, users, team.Some?, j, c.log, done)
    {
      var user := users[j];
      MembersLoopStep(c.remote, log0, teamId, users, team.Some?, j, c.log, done);
      if user != "" {
        if team.None? {
          return None, true;
        }
        var r := c.AddTeamMember(team.value.id, user);
        done := done + [Call.AddTeamMember(teamId, user)];
        if r.Fail? {
          return Some(r.msg), false;
        }
      }
    }
    MembersLoopDone(c.remote, log0, teamId, users, team.Some?, c.log, done);
    return None, false;
  }

  // ----- setTeamResourceData -----

  /** A list attribute's value as `d.Get` gives it (an unset list reads as empty). */
  function ListValue(m: Fields, k: string): Value {
    if k in m && m[k].ListOf? then m[k] else ListOf([])
  }

  /** The writes of setTeamResourceData: the team's settings from the server, and units,
      organisation, members and repositories echoed from the configuration. */
  function TeamAttributes(team: Team, m: Fields): seq<(string, Value)> {
    [ (TeamCreateRepoFlag, Flag(team.canCreateOrgRepo)), (TeamDescription, Text(team.description)),
      (TeamName, Text(team.name)), (TeamPermissions, Text(team.permission)),
      (TeamIncludeAllReposFlag, Flag(team.includesAllRepositories)),
      (TeamUnits, Text(GetString(m, TeamUnits))), (TeamOrg, Text(GetString(m, TeamOrg))),
      (TeamMembers, ListValue(m, TeamMembers)), (TeamRepositories, ListValue(m, TeamRepositories)) ]
  }

  /** The state after setTeamResourceData(team, d) on attributes `f`. */
  predicate Written(team: Team, f: Fields, newId: string, newFields: Fields) {
    newId == FormatInt(team.id) && newFields == Assign(f, TeamAttributes(team, f))
  }

  method SetTeamResourceData(team: Team, d: ResourceData)
    modifies d
    ensures Written(team, old(d.fields), d.id, d.fields)
  {
    var f := d.fields;
    d.SetId(FormatInt(team.id));
    d.SetAll(TeamAttributes(team, f));
  }

  /** After a write-back the getters give the server's settings. */
  lemma TeamWriteBack(m: Fields, team: Team)
    ensures var n := Assign(m, TeamAttributes(team, m));
      && GetString(n, TeamName) == team.name
      && GetString(n, TeamDescription) == team.description
      && GetBool(n, TeamIncludeAllReposFlag) == team.includesAllRepositories
  {
    var pairs := TeamAttributes(team, m);
    LastWriteAt(pairs, TeamName, 2);
    LastWriteAt(pairs, TeamDescription, 1);
    LastWriteAt(pairs, TeamIncludeAllReposFlag, 4);
    AssignAt(m, pairs, TeamName);
    AssignAt(m, pairs, TeamDescription);
    AssignAt(m, pairs, TeamIncludeAllReposFlag);
  }

  /** ... and the configured units, organisation, members and repositories read back as they
      were configured. */
  lemma TeamWriteBackEchoes(m: Fields, team: Team)
    ensures var n := Assign(m, TeamAttributes(team, m));
      && GetString(n, TeamUnits) == GetString(m, TeamUnits)
      && GetString(n, TeamOrg) == GetString(m, TeamOrg)
      && GetStrings(n, TeamMembers) == GetStrings(m, TeamMembers)
      && GetStrings(n, TeamRepositories) == GetStrings(m, TeamRepositories)
  {
    var pairs := TeamAttributes(team, m);
    LastWriteAt(pairs, TeamUnits, 5);
    LastWriteAt(pairs, TeamOrg, 6);
    LastWriteAt(pairs, TeamMembers, 7);
    LastWriteAt(pairs, TeamRepositories, 8);
    AssignAt(m, pairs, TeamUnits);
    AssignAt(m, pairs, TeamOrg);
    AssignAt(m, pairs, TeamMembers);
    AssignAt(m, pairs, TeamRepositories);
  }

  /** After a write-back the resource ID reads back as the team's ID (for an ID in the int64
      range), and the name, description and include-all flag as the server's. */
  lemma TeamReadAfterWrite(team: Team, f: Fields, newId: string, newFields: Fields)
    requires Written(team, f, newId, newFields)
    requires MinInt64 <= team.id <= MaxInt64
    ensures ParseInt(newId) == Parsed(team.id, None)
    ensures GetString(newFields, TeamName) == team.name
    ensures GetBool(newFields, TeamIncludeAllReposFlag) == team.includesAllRepositories
  {
    ParseFormatRoundTrip(team.id);
    TeamWriteBack(f, team);
  }

  // ----- resourceTeamRead -----

  /** The error a handler outcome carries, if any. */
  function ErrOf(out: Outcome): Option<string> {
    if out.Error? then Some(out.msg) else None
  }

  /** The read parses the resource ID, ignoring a parse error (the number is then 0 or the
      clamped value), and fetches that team: a 404 clears the ID, another failure is
      returned, and a found team is written back. */
  method TeamRead(d: ResourceData, c: Client) returns (out: Outcome)
    modifies d, c
    ensures var id := ParseInt(old(d.id)).value;
      var r := c.remote.getTeam(old(c.log), id);
      && c.log == old(c.log) + [Call.GetTeam(id)]
      && (r.IsNotFound() ==> out == Done && d.id == "" && d.fields == old(d.fields))
      && (r.Fail? && !r.IsNotFound() ==> out == Error(r.msg) && unchanged(d))
      && (r.Ok? ==> out == Done && Written(r.value, old(d.fields), d.id, d.fields))
  {
    var p := ParseInt(d.id);
    var r := c.GetTeam(p.value);
    if r.Fail? {
      if r.status == 404 {
        d.SetId("");
        return Done;
      }
      return Error(r.msg);
    }
    SetTeamResourceData(r.value, d);
    out := Done;
  }

  // ----- resourceTeamCreate -----

  /** The create after the history `log0`, for attributes `f` and ID `id0`: create the team,
      add the members, sync the repositories unless the team includes all of them, and write
      the created team back. `log`, `newId` and `newFields` are the state it leaves. */
  predicate CreateRan(remote: Remote, log0: seq<Call>, f: Fields, id0: string, out: Outcome,
                      added: seq<string>, log: seq<Call>, newId: string, newFields: Fields)
  {
    var org := GetString(f, TeamOrg);
    var r := remote.createTeam(log0, org, CreateOptions(f));
    var log1 := log0 + [Call.CreateTeam(org, CreateOptions(f))];
    && (r.Fail? ==> out == Error(r.msg) && log == log1 && newId == id0 && newFields == f)
    && (r.Ok? ==> MembersThenSync(remote, log1, f, id0, r.value, out, added, log, newId, newFields))
  }

  /** The create after its team `team` was created, the history then being `log1`. */
  predicate MembersThenSync(remote: Remote, log1: seq<Call>, f: Fields, id0: string, team: Team, out: Outcome,
                            added: seq<string>, log: seq<Call>, newId: string, newFields: Fields)
  {
    var m := MemberAdds(remote, log1, team.id, GetStrings(f, TeamMembers));
    var log2 := log1 + m.calls;
    && out != Crash
    && (m.err.Some? ==> out == Error(m.err.value) && log == log2 && newId == id0 && newFields == f)
    && (m.err.None? && GetBool(f, TeamIncludeAllReposFlag) ==> log == log2)
    && (m.err.None? && !GetBool(f, TeamIncludeAllReposFlag) ==>
          SyncRan(remote, log2, team.id, f, false, added, ErrOf(out), log))
    && (m.err.None? ==>
          && (out.Error? ==> newId == id0 && newFields == f)
          && (out.Done? ==> Written(team, f, newId, newFields)))
  }

  method TeamCreate(d: ResourceData, c: Client) returns (out: Outcome, ghost added: seq<string>)
    modifies d, c
    ensures CreateRan(c.remote, old(c.log), old(d.fields), old(d.id), out, added, c.log, d.id, d.fields)
  {
    added := [];
    var f := d.fields;
    var units := ParseUnits(GetString(f, TeamUnits));
    var includeAllRepos := GetBool(f, TeamIncludeAllReposFlag);
    var opts := CreateTeamOption(GetString(f, TeamName), GetString(f, TeamDescription),
      GetString(f, TeamPermissions), GetBool(f, TeamCreateRepoFlag), includeAllRepos, units);
    var r := c.CreateTeam(GetString(f, TeamOrg), opts);
    if r.Fail? {
      return Error(r.msg), added;
    }
    var err, _ := AddMembers(c, Some(r.value), GetStrings(f, TeamMembers));
    if err.Some? {
      return Error(err.value), added;
    }
    if !includeAllRepos {
      var syncErr;
      syncErr, added := SetTeamRepositories(r.value, d, c, false);
      if syncErr.Some? {
        return Error(syncErr.value), added;
      }
    }
    SetTeamResourceData(r.value, d);
    out := Done;
  }

  /** Requests that only add members or repositories to team `teamId`. */
  predicate AddsOnly(calls: seq<Call>, teamId: int) {
    forall i :: 0 <= i < |calls| ==>
      (calls[i].AddTeamMember? || calls[i].AddTeamRepository?) && calls[i].teamId == teamId
  }

  lemma AddsOnlyAppend(a: seq<Call>, b: seq<Call>, teamId: int)
    requires AddsOnly(a, teamId) && AddsOnly(b, teamId)
    ensures AddsOnly(a + b, teamId)
  {
    forall i | 0 <= i < |a + b|
      ensures ((a + b)[i].AddTeamMember? || (a + b)[i].AddTeamRepository?) && (a + b)[i].teamId == teamId
    {
      if i >= |a| {
        assert (a + b)[i] == b[i - |a|];
      }
    }
  }

  lemma MemberAddsOnly(remote: Remote, log: seq<Call>, teamId: int, users: seq<string>)
    ensures AddsOnly(MemberAdds(remote, log, teamId, users).calls, teamId)
  {
    MemberAddsEffect(remote, log, teamId, users);
  }

  lemma AddCallsOnly(teamId: int, org: string, names: seq<string>)
    ensures AddsOnly(AddCalls(teamId, org, names), teamId)
  {
    AddCallsAt(teamId, org, names);
  }

  /** After the creation request, a create sends only member and repository adds for the
      created team. */
  lemma MembersThenSyncRequests(remote: Remote, log1: seq<Call>, f: Fields, id0: string, team: Team, out: Outcome,
                                added: seq<string>, log: seq<Call>, newId: string, newFields: Fields)
    requires MembersThenSync(remote, log1, f, id0, team, out, added, log, newId, newFields)
    ensures |log1| <= |log| && log[..|log1|] == log1 && AddsOnly(log[|log1|..], team.id)
  {
    var org := GetString(f, TeamOrg);
    var m := MemberAdds(remote, log1, team.id, GetStrings(f, TeamMembers));
    MemberAddsOnly(remote, log1, team.id, GetStrings(f, TeamMembers));
    var log2 := log1 + m.calls;
    var tail: seq<Call> := [];
    if m.err.None? && !GetBool(f, TeamIncludeAllReposFlag) {
      tail := AddCalls(team.id, org, added);
      AddCallsOnly(team.id, org, added);
      assert log == log2 + [] + tail;
    }
    AddsOnlyAppend(m.calls, tail, team.id);
    var rest := m.calls + tail;
    assert log == log1 + rest;
    assert log[|log1|..] == rest;
  }

  /** Every request of a create after `log0` is the team creation carrying the configured
      options, followed only by member and repository adds for the created team: one create,
      and never an edit. */
  lemma CreateRequests(remote: Remote, log0: seq<Call>, f: Fields, id0: string, out: Outcome,
                       added: seq<string>, log: seq<Call>, newId: string, newFields: Fields)
    requires CreateRan(remote, log0, f, id0, out, added, log, newId, newFields)
    ensures |log| > |log0| && log[..|log0| + 1] == log0 + [Call.CreateTeam(GetString(f, TeamOrg), CreateOptions(f))]
    ensures var r := remote.createTeam(log0, GetString(f, TeamOrg), CreateOptions(f));
      && (r.Fail? ==> |log| == |log0| + 1)
      && (r.Ok? ==> AddsOnly(log[|log0| + 1..], r.value.id))
  {
    var org := GetString(f, TeamOrg);
    var r := remote.createTeam(log0, org, CreateOptions(f));
    var log1 := log0 + [Call.CreateTeam(org, CreateOptions(f))];
    if r.Ok? {
      MembersThenSyncRequests(remote, log1, f, id0, r.value, out, added, log, newId, newFields);
    }
  }

  /** Once the team is created, a create that succeeds has written it back, added every
      configured non-empty member and, unless the team includes all repositories, added every
      configured repository. */
  lemma MembersThenSyncAchieves(remote: Remote, log1: seq<Call>, f: Fields, id0: string, team: Team, out: Outcome,
                                added: seq<string>, log: seq<Call>, newId: string, newFields: Fields)
    requires MembersThenSync(remote, log1, f, id0, team, out, added, log, newId, newFields) && out == Done
    ensures Written(team, f, newId, newFields)
    ensures forall u :: u in GetStrings(f, TeamMembers) && u != "" ==> Call.AddTeamMember(team.id, u) in log
    ensures !GetBool(f, TeamIncludeAllReposFlag) ==>
      forall repo :: repo in Desired(GetStrings(f, TeamRepositories)) ==>
        Call.AddTeamRepository(team.id, GetString(f, TeamOrg), repo) in log
  {
    var org := GetString(f, TeamOrg);
    var users := GetStrings(f, TeamMembers);
    var m := MemberAdds(remote, log1, team.id, users);
    var log2 := log1 + m.calls;
    var tail: seq<Call> := [];
    if !GetBool(f, TeamIncludeAllReposFlag) {
      tail := AddCalls(team.id, org, added);
      assert log == log2 + [] + tail;
    }
    assert log == log2 + tail;
    assert forall u :: u in users && u != "" ==> Call.AddTeamMember(team.id, u) in log by {
      MemberAddsEffect(remote, log1, team.id, users);
      assert forall x :: x in m.calls ==> x in log;
    }
    if !GetBool(f, TeamIncludeAllReposFlag) {
      var wanted := GetStrings(f, TeamRepositories);
      CreateAddsDesired(remote, log2, team.id, org, wanted);
      AddsInLog(log2, team.id, org, added, log);
    }
  }

  /** Every name whose add request ends the history was added. */
  lemma AddsInLog(log2: seq<Call>, teamId: int, org: string, added: seq<string>, log: seq<Call>)
    requires log == log2 + AddCalls(teamId, org, added)
    ensures forall repo :: repo in added ==> Call.AddTeamRepository(teamId, org, repo) in log
  {
    var tail := AddCalls(teamId, org, added);
    AddCallsAt(teamId, org, added);
    forall repo | repo in added
      ensures Call.AddTeamRepository(teamId, org, repo) in log
    {
      var i :| 0 <= i < |added| && added[i] == repo;
      assert log[|log2| + i] == tail[i];
    }
  }

  /** A create that succeeds has created a team, written it back, added every configured
      non-empty member and, unless the team includes all repositories, added every configured
      repository. */
  lemma CreateAchieves(remote: Remote, log0: seq<Call>, f: Fields, id0: string, out: Outcome,
                       added: seq<string>, log: seq<Call>, newId: string, newFields: Fields)
    requires CreateRan(remote, log0, f, id0, out, added, log, newId, newFields) && out == Done
    ensures var org := GetString(f, TeamOrg);
      var r := remote.createTeam(log0, org, CreateOptions(f));
      && r.Ok? && Written(r.value, f, newId, newFields)
      && (forall u :: u in GetStrings(f, TeamMembers) && u != "" ==> Call.AddTeamMember(r.value.id, u) in log)
      && (!GetBool(f, TeamIncludeAllReposFlag) ==>
            forall repo :: repo in Desired(GetStrings(f, TeamRepositories)) ==>
              Call.AddTeamRepository(r.value.id, org, repo) in log)
  {
    var org := GetString(f, TeamOrg);
    var r := remote.createTeam(log0, org, CreateOptions(f));
    var log1 := log0 + [Call.CreateTeam(org, CreateOptions(f))];
    MembersThenSyncAchieves(remote, log1, f, id0, r.value, out, added, log, newId, newFields);
  }

  // ----- resourceTeamUpdate -----

  /** The update after its probe, the history being `log0`: `team` is the probe's record
      (None when the probe failed), `id` the parsed resource ID. It edits team `id`, adds the
      members to `team`, syncs the repositories of `team` (update mode) unless the team
      includes all of them, and writes back a fresh fetch of team `id`. `added`, `syncErr` and
      `mid` describe the sync (the history after it). */
  predicate TailRan(remote: Remote, log0: seq<Call>, f: Fields, id0: string, team: Option<Team>, id: int,
                    out: Outcome, added: seq<string>, syncErr: Option<string>, mid: seq<Call>,
                    log: seq<Call>, newId: string, newFields: Fields)
  {
    var e := remote.editTeam(log0, id, EditOptions(f));
    var log1 := log0 + [Call.EditTeam(id, EditOptions(f))];
    && (e.Fail? ==> out == Error(e.msg) && log == log1 && newId == id0 && newFields == f)
    && (e.Ok? ==> MembersThenRefresh(remote, log1, f, id0, team, id, out, added, syncErr, mid, log, newId, newFields))
  }

  /** The update after its edit was accepted, the history then being `log1`. */
  predicate MembersThenRefresh(remote: Remote, log1: seq<Call>, f: Fields, id0: string, team: Option<Team>, id: int,
                               out: Outcome, added: seq<string>, syncErr: Option<string>, mid: seq<Call>,
                               log: seq<Call>, newId: string, newFields: Fields)
  {
    var users := GetStrings(f, TeamMembers);
    var m := MemberAdds(remote, log1, TeamIdOf(team), users);
    var log2 := log1 + m.calls;
    var includeAllRepos := GetBool(f, TeamIncludeAllReposFlag);
    && (team.None? && AnyMember(users) ==> out == Crash && log == log1 && newId == id0 && newFields == f)
    && (m.err.Some? && !(team.None? && AnyMember(users)) ==>
          out == Error(m.err.value) && log == log2 && newId == id0 && newFields == f)
    && (m.err.None? && !(team.None? && AnyMember(users)) ==>
          && (includeAllRepos ==> Refreshed(remote, log2, f, id0, id, out, log, newId, newFields))
          && (!includeAllRepos && team.None? ==> out == Crash && log == log2 && newId == id0 && newFields == f)
          && (!includeAllRepos && team.Some? ==>
                && SyncRan(remote, log2, team.value.id, f, true, added, syncErr, mid)
                && (syncErr.Some? ==> out == Error(syncErr.value) && log == mid && newId == id0 && newFields == f)
                && (syncErr.None? ==> Refreshed(remote, mid, f, id0, id, out, log, newId, newFields))))
  }

  /** The final fetch of team `id` after the history `log2`, whose record is written back
      unchecked: a failed fetch leaves no team to write and the handler crashes. */
  predicate Refreshed(remote: Remote, log2: seq<Call>, f: Fields, id0: string, id: int, out: Outcome,
                      log: seq<Call>, newId: string, newFields: Fields)
  {
    var g := remote.getTeam(log2, id);
    && log == log2 + [Call.GetTeam(id)]
    && (g.Fail? ==> out == Crash && newId == id0 && newFields == f)
    && (g.Ok? ==> out == Done && Written(g.value, f, newId, newFields))
  }

  method UpdateTail(d: ResourceData, c: Client, team: Option<Team>, id: int)
    returns (out: Outcome, ghost added: seq<string>, syncErr: Option<string>, ghost mid: seq<Call>)
    modifies d, c
    ensures TailRan(c.remote, old(c.log), old(d.fields), old(d.id), team, id, out, added, syncErr, mid, c.log, d.id, d.fields)
  {
    added, syncErr, mid := [], None, [];
    var f := d.fields;
    var includeAllRepos := GetBool(f, TeamIncludeAllReposFlag);
    var units := ParseUnits(GetString(f, TeamUnits));
    var opts := EditTeamOption(GetString(f, TeamName), GetString(f, TeamDescription),
      GetString(f, TeamPermissions), GetBool(f, TeamCreateRepoFlag), includeAllRepos, units);
    var e := c.EditTeam(id, opts);
    if e.Fail? {
      return Error(e.msg), added, syncErr, mid;
    }
    var err, crashed := AddMembers(c, team, GetStrings(f, TeamMembers));
    if crashed {
      return Crash, added, syncErr, mid;
    }
    if err.Some? {
      return Error(err.value), added, syncErr, mid;
    }
    if !includeAllRepos {
      if team.None? {
        return Crash, added, syncErr, mid;
      }
      syncErr, added := SetTeamRepositories(team.value, d, c, true);
      mid := c.log;
      if syncErr.Some? {
        return Error(syncErr.value), added, syncErr, mid;
      }
    }
    var g := c.GetTeam(id);
    if g.Fail? {
      return Crash, added, syncErr, mid;
    }
    SetTeamResourceData(g.value, d);
    out := Done;
  }

  /** The ghost record of an update: the fallback create's outcome and the state it left, and
      the tail's sync. */
  datatype Trace = Trace(createOut: Outcome, createAdded: seq<string>, createLog: seq<Call>,
                         createId: string, createFields: Fields,
                         added: seq<string>, syncErr: Option<string>, mid: seq<Call>)

  /** The update as written: probe team `id`; another failure than 404 is returned; on a 404
      the create runs, its outcome is dropped, and the update goes on against the missing ID
      `id` with no team record; otherwise it goes on with the found team. */
  predicate UpdateRan(remote: Remote, log0: seq<Call>, f: Fields, id0: string, t: Trace, out: Outcome,
                      log: seq<Call>, newId: string, newFields: Fields)
  {
    var id := ParseInt(id0).value;
    var r := remote.getTeam(log0, id);
    var log1 := log0 + [Call.GetTeam(id)];
    && (r.Fail? && !r.IsNotFound() ==> out == Error(r.msg) && log == log1 && newId == id0 && newFields == f)
    && (r.Ok? ==> TailRan(remote, log1, f, id0, Some(r.value), id, out, t.added, t.syncErr, t.mid, log, newId, newFields))
    && (r.IsNotFound() ==>
          && CreateRan(remote, log1, f, id0, t.createOut, t.createAdded, t.createLog, t.createId, t.createFields)
          && TailRan(remote, t.createLog, t.createFields, t.createId, None, id, out, t.added, t.syncErr, t.mid,
                     log, newId, newFields))
  }

  method TeamUpdate(d: ResourceData, c: Client) returns (out: Outcome, ghost t: Trace)
    modifies d, c
    ensures UpdateRan(c.remote, old(c.log), old(d.fields), old(d.id), t, out, c.log, d.id, d.fields)
  {
    t := Trace(Done, [], [], "", map[], [], None, []);
    var p := ParseInt(d.id);
    var id := p.value;
    var r := c.GetTeam(id);
    var team: Option<Team> := None;
    if r.Fail? {
      if r.status != 404 {
        return Error(r.msg), t;
      }
      var createOut, createAdded := TeamCreate(d, c);
      t := t.(createOut := createOut, createAdded := createAdded, createLog := c.log,
              createId := d.id, createFields := d.fields);
    } else {
      team := Some(r.value);
    }
    ghost var added, mid;
    var syncErr;
    out, added, syncErr, mid := UpdateTail(d, c, team, id);
    t := t.(added := added, syncErr := syncErr, mid := mid);
  }

  /** After a 404 probe the update as written sends, behind the create's requests, an edit of
      the team ID it has just found missing. */
  lemma UpdateOfMissingTeamEditsIt(remote: Remote, log0: seq<Call>, f: Fields, id0: string, t: Trace,
                                   out: Outcome, log: seq<Call>, newId: string, newFields: Fields)
    requires UpdateRan(remote, log0, f, id0, t, out, log, newId, newFields)
    requires remote.getTeam(log0, ParseInt(id0).value).IsNotFound()
    ensures var id := ParseInt(id0).value;
      && |log0| + 1 < |t.createLog| < |log|
      && log[|log0|] == Call.GetTeam(id)
      && log[|log0| + 1] == Call.CreateTeam(GetString(f, TeamOrg), CreateOptions(f))
      && log[|t.createLog|] == Call.EditTeam(id, EditOptions(t.createFields))
  {
    var id := ParseInt(id0).value;
    var log1 := log0 + [Call.GetTeam(id)];
    CreateRequests(remote, log1, f, id0, t.createOut, t.createAdded, t.createLog, t.createId, t.createFields);
    TailPrefix(remote, t.createLog, t.createFields, t.createId, None, id, out, t.added, t.syncErr, t.mid,
               log, newId, newFields);
    ThreeSteps(log0, Call.GetTeam(id), Call.CreateTeam(GetString(f, TeamOrg), CreateOptions(f)), t.createLog,
               Call.EditTeam(id, EditOptions(t.createFields)), log);
  }

  /** Read off three requests from prefixes of the history. */
  lemma ThreeSteps(log0: seq<Call>, a: Call, b: Call, mid: seq<Call>, c: Call, log: seq<Call>)
    requires |mid| > |log0| + 1 && mid[..|log0| + 2] == log0 + [a] + [b]
    requires |log| > |mid| && log[..|mid| + 1] == mid + [c]
    ensures log[|log0|] == a && log[|log0| + 1] == b && log[|mid|] == c
  {
    assert log[|log0|] == mid[|log0|] == (log0 + [a] + [b])[|log0|];
    assert log[|log0| + 1] == mid[|log0| + 1] == (log0 + [a] + [b])[|log0| + 1];
  }

  /** ... and once that edit is accepted and a member is configured, it crashes: the member
      loop dereferences the team record the failed probe left empty. */
  lemma UpdateOfMissingTeamCrashes(remote: Remote, log0: seq<Call>, f: Fields, id0: string, t: Trace,
                                   out: Outcome, log: seq<Call>, newId: string, newFields: Fields)
    requires UpdateRan(remote, log0, f, id0, t, out, log, newId, newFields)
    requires remote.getTeam(log0, ParseInt(id0).value).IsNotFound()
    requires remote.editTeam(t.createLog, ParseInt(id0).value, EditOptions(t.createFields)).Ok?
    requires AnyMember(GetStrings(t.createFields, TeamMembers))
    ensures out == Crash
  {
  }

  /** The tail's first request is the edit. */
  lemma TailPrefix(remote: Remote, log0: seq<Call>, f: Fields, id0: string, team: Option<Team>, id: int,
                   out: Outcome, added: seq<string>, syncErr: Option<string>, mid: seq<Call>,
                   log: seq<Call>, newId: string, newFields: Fields)
    requires TailRan(remote, log0, f, id0, team, id, out, added, syncErr, mid, log, newId, newFields)
    ensures |log| > |log0| && log[..|log0| + 1] == log0 + [Call.EditTeam(id, EditOptions(f))]
  {
    var log1 := log0 + [Call.EditTeam(id, EditOptions(f))];
    if remote.editTeam(log0, id, EditOptions(f)).Ok? {
      var m := MemberAdds(remote, log1, TeamIdOf(team), GetStrings(f, TeamMembers));
      var log2 := log1 + m.calls;
      if m.err.None? && !GetBool(f, TeamIncludeAllReposFlag) && team.Some? && !(team.None? && AnyMember(GetStrings(f, TeamMembers))) {
        var org := GetString(f, TeamOrg);
        var s := ScanFor(remote, log2, team.value.id, org, DesiredFlags(GetStrings(f, TeamRepositories)), true);
        assert log2 <= mid;
        assert mid <= log;
      }
      assert log1 <= log;
    }
  }

  /** The update as it is evidently meant: on a 404 probe the create's outcome is the
      update's, and nothing else runs. */
  predicate UpdateFixedRan(remote: Remote, log0: seq<Call>, f: Fields, id0: string, t: Trace, out: Outcome,
                           log: seq<Call>, newId: string, newFields: Fields)
  {
    var id := ParseInt(id0).value;
    var r := remote.getTeam(log0, id);
    var log1 := log0 + [Call.GetTeam(id)];
    && (r.Fail? && !r.IsNotFound() ==> out == Error(r.msg) && log == log1 && newId == id0 && newFields == f)
    && (r.Ok? ==> TailRan(remote, log1, f, id0, Some(r.value), id, out, t.added, t.syncErr, t.mid, log, newId, newFields))
    && (r.IsNotFound() ==> CreateRan(remote, log1, f, id0, out, t.createAdded, log, newId, newFields))
  }

  method TeamUpdateFixed(d: ResourceData, c: Client) returns (out: Outcome, ghost t: Trace)
    modifies d, c
    ensures UpdateFixedRan(c.remote, old(c.log), old(d.fields), old(d.id), t, out, c.log, d.id, d.fields)
  {
    t := Trace(Done, [], [], "", map[], [], None, []);
    var p := ParseInt(d.id);
    var id := p.value;
    var r := c.GetTeam(id);
    if r.Fail? {
      if r.status != 404 {
        return Error(r.msg), t;
      }
      ghost var createAdded;
      out, createAdded := TeamCreate(d, c);
      t := t.(createAdded := createAdded);
      return;
    }
    ghost var added, mid;
    var syncErr;
    out, added, syncErr, mid := UpdateTail(d, c, Some(r.value), id);
    t := t.(added := added, syncErr := syncErr, mid := mid);
  }

  /** An update of a team that is gone makes one create and no edit: behind the probe come
      the creation request and then only member and repository adds; it never crashes. */
  lemma UpdateFixedOfMissingTeamCreatesOnce(remote: Remote, log0: seq<Call>, f: Fields, id0: string, t: Trace,
                                            out: Outcome, log: seq<Call>, newId: string, newFields: Fields)
    requires UpdateFixedRan(remote, log0, f, id0, t, out, log, newId, newFields)
    requires remote.getTeam(log0, ParseInt(id0).value).IsNotFound()
    ensures |log| > |log0| + 1
    ensures log[|log0|] == Call.GetTeam(ParseInt(id0).value)
    ensures log[|log0| + 1] == Call.CreateTeam(GetString(f, TeamOrg), CreateOptions(f))
    ensures forall i :: |log0| + 1 < i < |log| ==> log[i].AddTeamMember? || log[i].AddTeamRepository?
    ensures out != Crash
  {
    var log1 := log0 + [Call.GetTeam(ParseInt(id0).value)];
    CreateRequests(remote, log1, f, id0, out, t.createAdded, log, newId, newFields);
    var r := remote.createTeam(log1, GetString(f, TeamOrg), CreateOptions(f));
    assert log[|log0|] == log[..|log1| + 1][|log0|];
    assert log[|log1|] == log[..|log1| + 1][|log1|];
    if r.Ok? {
      forall i | |log1| < i < |log|
        ensures log[i].AddTeamMember? || log[i].AddTeamRepository?
      {
        assert log[i] == log[|log1| + 1..][i - |log1| - 1];
      }
    }
  }

  /** An update of an existing team that succeeds has written back the refetched team, added
      every configured non-empty member and, unless the team includes all repositories, run
      the sync to its end without error. */
  lemma UpdateAchieves(remote: Remote, log0: seq<Call>, f: Fields, id0: string, team: Team, id: int,
                       out: Outcome, added: seq<string>, syncErr: Option<string>, mid: seq<Call>,
                       log: seq<Call>, newId: string, newFields: Fields)
    requires TailRan(remote, log0, f, id0, Some(team), id, out, added, syncErr, mid, log, newId, newFields)
    requires out == Done
    ensures remote.editTeam(log0, id, EditOptions(f)).Ok?
    ensures forall u :: u in GetStrings(f, TeamMembers) && u != "" ==> Call.AddTeamMember(team.id, u) in log
    ensures !GetBool(f, TeamIncludeAllReposFlag) ==> syncErr.None?
    ensures |log| > 0 && log[|log| - 1] == Call.GetTeam(id)
    ensures remote.getTeam(log[..|log| - 1], id).Ok?
    ensures Written(remote.getTeam(log[..|log| - 1], id).value, f, newId, newFields)
  {
    var log1 := log0 + [Call.EditTeam(id, EditOptions(f))];
    var users := GetStrings(f, TeamMembers);
    var m := MemberAdds(remote, log1, team.id, users);
    var log2 := log1 + m.calls;
    var before := if GetBool(f, TeamIncludeAllReposFlag) then log2 else mid;
    assert Refreshed(remote, before, f, id0, id, out, log, newId, newFields);
    RefreshedWritesFetched(remote, before, f, id0, id, out, log, newId, newFields);
    assert log2 <= before by {
      if !GetBool(f, TeamIncludeAllReposFlag) {
        var org := GetString(f, TeamOrg);
        var s := ScanFor(remote, log2, team.id, org, DesiredFlags(GetStrings(f, TeamRepositories)), true);
      }
    }
    MemberAddsEffect(remote, log1, team.id, users);
    assert forall x :: x in m.calls ==> x in log2;
  }

  /** A refresh that succeeds ends the history with the fetch, and writes back its record. */
  lemma RefreshedWritesFetched(remote: Remote, before: seq<Call>, f: Fields, id0: string, id: int, out: Outcome,
                               log: seq<Call>, newId: string, newFields: Fields)
    requires Refreshed(remote, before, f, id0, id, out, log, newId, newFields) && out == Done
    ensures |log| > 0 && log[|log| - 1] == Call.GetTeam(id) && log[..|log| - 1] == before
    ensures remote.getTeam(before, id).Ok? && Written(remote.getTeam(before, id).value, f, newId, newFields)
  {
    assert log[..|log| - 1] == before;
  }

  // ----- resourceTeamDelete -----

  /** The delete as written: a 404 takes the bare `return`, which hands back the named
      result still holding the delete's error, so deleting a team that is already gone
      fails like any other error. */
  method TeamDelete(d: ResourceData, c: Client) returns (out: Outcome)
    modifies c
    ensures var id := ParseInt(d.id).value;
      var r := c.remote.deleteTeam(old(c.log), id);
      && c.log == old(c.log) + [Call.DeleteTeam(id)]
      && (r.Ok? ==> out == Done)
      && (r.Fail? ==> out == Error(r.msg))
  {
    var p := ParseInt(d.id);
    var r := c.DeleteTeam(p.value);
    if r.Fail? {
      // the bare `return` hands back the 404 error: the same outcome as below
      if r.status == 404 {
        return Error(r.msg);
      }
      return Error(r.msg);
    }
    out := Done;
  }

  /** The delete as it is evidently meant: a team that is already gone counts as deleted. */
  method TeamDeleteFixed(d: ResourceData, c: Client) returns (out: Outcome)
    modifies c
    ensures var id := ParseInt(d.id).value;
      var r := c.remote.deleteTeam(old(c.log), id);
      && c.log == old(c.log) + [Call.DeleteTeam(id)]
      && (r.Ok? || r.IsNotFound() ==> out == Done)
      && (r.Fail? && !r.IsNotFound() ==> out == Error(r.msg))
  {
    var p := ParseInt(d.id);
    var r := c.DeleteTeam(p.value);
    if r.Fail? {
      if r.status == 404 {
        return Done;
      }
      return Error(r.msg);
    }
    out := Done;
  }
}
