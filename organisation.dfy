/** The `gitea_org` resource: an organisation, kept in the state under its decimal ID and
    looked up again by that ID in the admin organisation list. */
module OrganisationResource {
  import opened Results
  import opened Strings
  import opened Paging
  import opened State
  import opened GiteaClient

  // ----- attribute keys -----

  const OrgName := "name"
  const OrgFullName := "full_name"
  const OrgDescription := "description"
  const OrgWebsite := "website"
  const OrgLocation := "location"
  const OrgVisibility := "visibility"
  const RepoAdminChangeTeamAccess := "repo_admin_change_team_access"

  // ----- searchOrgByClientId -----

  function OrgIdIs(id: int): Organization -> bool {
    (o: Organization) => o.id == id
  }

  function OrgNotFound(id: int): string {
    "Organisation with ID " + FormatInt(id) + " could not be found"
  }

  /** The search over the admin organisation list, each page as the remote serves it at its
      request. */
  function OrgLookup(remote: Remote, log: seq<Call>, id: int): Lookup<Organization> {
    Search(Observed(OrgsFeed(remote), log), OrgIdIs(id), 1)
  }

  /** The history after the search. */
  function AfterLookup(remote: Remote, log: seq<Call>, id: int): seq<Call> {
    log + PageCalls(OrgsFeed(remote), OrgLookup(remote, log, id).page)
  }

  method SearchOrgByClientId(c: Client, id: int) returns (res: Result<Organization>)
    modifies c
    ensures res == AsResult(OrgLookup(c.remote, old(c.log), id), OrgNotFound(id))
    ensures res.Success? ==> res.value.id == id
    ensures c.log == AfterLookup(c.remote, old(c.log), id)
  {
    var l := Find(c, OrgsFeed(c.remote), OrgIdIs(id));
    SearchSound(Observed(OrgsFeed(c.remote), old(c.log)), OrgIdIs(id), 1);
    res := AsResult(l, OrgNotFound(id));
  }

  // ----- setOrgResourceData -----

  function OrgAttributes(org: Organization): seq<(string, Value)> {
    [ (OrgName, Text(org.userName)), (OrgFullName, Text(org.fullName)), ("avatar_url", Text(org.avatarURL)),
      (OrgDescription, Text(org.description)), (OrgWebsite, Text(org.website)),
      (OrgLocation, Text(org.location)), (OrgVisibility, Text(org.visibility)) ]
  }

  /** The state after setOrgResourceData(org, d) on attributes `f`. */
  predicate OrgWritten(org: Organization, f: Fields, newId: string, newFields: Fields) {
    newId == FormatInt(org.id) && newFields == Assign(f, OrgAttributes(org))
  }

  method SetOrgResourceData(org: Organization, d: ResourceData)
    modifies d
    ensures OrgWritten(org, old(d.fields), d.id, d.fields)
  {
    d.SetId(FormatInt(org.id));
    d.SetAll(OrgAttributes(org));
  }

  /** After a write-back the ID parses back to the organisation's ID (in the int64 range), so
      the next read searches for this organisation, and the name reads as its user name. */
  lemma OrgReadAfterWrite(org: Organization, f: Fields, newId: string, newFields: Fields)
    requires OrgWritten(org, f, newId, newFields)
    requires MinInt64 <= org.id <= MaxInt64
    ensures ParseInt(newId) == Parsed(org.id, None)
    ensures GetString(newFields, OrgName) == org.userName
    ensures GetString(newFields, OrgFullName) == org.fullName
  {
    assert GetString(newFields, OrgName) == org.userName && GetString(newFields, OrgFullName) == org.fullName by {
      var pairs := OrgAttributes(org);
      LastWriteAt(pairs, OrgName, 0);
      LastWriteAt(pairs, OrgFullName, 1);
      AssignAt(f, pairs, OrgName);
      AssignAt(f, pairs, OrgFullName);
    }
    ParseFormatRoundTrip(org.id);
  }

  // ----- resourceOrgRead -----

  /** The read parses the ID (a parse error is dropped: the number is then 0 or the clamped
      value) and searches for that organisation. Any failure, "not found" included, is
      returned as an error and the ID is kept. */
  method OrgRead(d: ResourceData, c: Client) returns (out: Outcome)
    modifies d, c
    ensures var id := ParseInt(old(d.id)).value;
      var l := OrgLookup(c.remote, old(c.log), id);
      && c.log == AfterLookup(c.remote, old(c.log), id)
      && (!l.Hit? ==> out == Error(AsResult(l, OrgNotFound(id)).msg) && unchanged(d))
      && (l.Hit? ==> out == Done && l.item.id == id && OrgWritten(l.item, old(d.fields), d.id, d.fields))
  {
    var p := ParseInt(d.id);
    var org := SearchOrgByClientId(c, p.value);
    if org.Failure? {
      return Error(org.msg);
    }
    SetOrgResourceData(org.value, d);
    out := Done;
  }

  // ----- resourceOrgCreate -----

  function CreateOptions(f: Fields): CreateOrgOption {
    CreateOrgOption(GetString(f, OrgName), GetString(f, OrgFullName), GetString(f, OrgDescription),
      GetString(f, OrgWebsite), GetString(f, OrgLocation), GetString(f, OrgVisibility),
      GetBool(f, RepoAdminChangeTeamAccess))
  }

  /** The create after the history `log0`: one creation request; a failure is returned with
      the state untouched, a created organisation is written back. */
  predicate OrgCreateRan(remote: Remote, log0: seq<Call>, f: Fields, id0: string, out: Outcome,
                         log: seq<Call>, newId: string, newFields: Fields)
  {
    var r := remote.createOrg(log0, CreateOptions(f));
    && log == log0 + [Call.CreateOrg(CreateOptions(f))]
    && (r.Fail? ==> out == Error(r.msg) && newId == id0 && newFields == f)
    && (r.Ok? ==> out == Done && OrgWritten(r.value, f, newId, newFields))
  }

  method OrgCreate(d: ResourceData, c: Client) returns (out: Outcome)
    modifies d, c
    ensures OrgCreateRan(c.remote, old(c.log), old(d.fields), old(d.id), out, c.log, d.id, d.fields)
  {
    var f := d.fields;
    var opts := CreateOrgOption(GetString(f, OrgName), GetString(f, OrgFullName), GetString(f, OrgDescription),
      GetString(f, OrgWebsite), GetString(f, OrgLocation), GetString(f, OrgVisibility),
      GetBool(f, RepoAdminChangeTeamAccess));
    var r := c.CreateOrg(opts);
    if r.Fail? {
      return Error(r.msg);
    }
    SetOrgResourceData(r.value, d);
    out := Done;
  }

  // ----- resourceOrgUpdate -----

  /** The edit request: the settings, never the name (the organisation is addressed by it)
      nor the team-access flag. */
  function EditOptions(f: Fields): EditOrgOption {
    EditOrgOption(GetString(f, OrgFullName), GetString(f, OrgDescription), GetString(f, OrgWebsite),
      GetString(f, OrgLocation), GetString(f, OrgVisibility))
  }

  /** The update after its probe, the history being `log0`: edit the organisation named in
      the state (the answer is ignored), fetch it again and write the fetched record back; a
      failed fetch leaves no record to write and the handler crashes. */
  predicate EditThenRefetch(remote: Remote, log0: seq<Call>, f: Fields, id0: string, out: Outcome,
                            log: seq<Call>, newId: string, newFields: Fields)
  {
    var name := GetString(f, OrgName);
    var log1 := log0 + [Call.EditOrg(name, EditOptions(f))];
    var g := remote.getOrg(log1, name);
    && log == log1 + [Call.GetOrg(name)]
    && (g.Fail? ==> out == Crash && newId == id0 && newFields == f)
    && (g.Ok? ==> out == Done && OrgWritten(g.value, f, newId, newFields))
  }

  method EditAndRefetch(d: ResourceData, c: Client) returns (out: Outcome)
    modifies d, c
    ensures EditThenRefetch(c.remote, old(c.log), old(d.fields), old(d.id), out, c.log, d.id, d.fields)
  {
    var f := d.fields;
    var opts := EditOrgOption(GetString(f, OrgFullName), GetString(f, OrgDescription), GetString(f, OrgWebsite),
      GetString(f, OrgLocation), GetString(f, OrgVisibility));
    var _ := c.EditOrg(GetString(f, OrgName), opts);
    var g := c.GetOrg(GetString(f, OrgName));
    if g.Fail? {
      return Crash;
    }
    SetOrgResourceData(g.value, d);
    out := Done;
  }

  /** The ghost record of an update's fallback create: its outcome and the state it left. */
  datatype CreateTrace = CreateTrace(out: Outcome, log: seq<Call>, id: string, fields: Fields)

  /** The update as written: probe the organisation by name; another failure than 404 is
      returned; on a 404 the create runs, its outcome is dropped, and the update goes on to
      the edit and the fetch anyway. */
  predicate OrgUpdateRan(remote: Remote, log0: seq<Call>, f: Fields, id0: string, t: CreateTrace, out: Outcome,
                         log: seq<Call>, newId: string, newFields: Fields)
  {
    var name := GetString(f, OrgName);
    var r := remote.getOrg(log0, name);
    var log1 := log0 + [Call.GetOrg(name)];
    && (r.Fail? && !r.IsNotFound() ==> out == Error(r.msg) && log == log1 && newId == id0 && newFields == f)
    && (r.Ok? ==> EditThenRefetch(remote, log1, f, id0, out, log, newId, newFields))
    && (r.IsNotFound() ==>
          && OrgCreateRan(remote, log1, f, id0, t.out, t.log, t.id, t.fields)
          && EditThenRefetch(remote, t.log, t.fields, t.id, out, log, newId, newFields))
  }

  method OrgUpdate(d: ResourceData, c: Client) returns (out: Outcome, ghost t: CreateTrace)
    modifies d, c
    ensures OrgUpdateRan(c.remote, old(c.log), old(d.fields), old(d.id), t, out, c.log, d.id, d.fields)
  {
    t := CreateTrace(Done, [], "", map[]);
    var r := c.GetOrg(GetString(d.fields, OrgName));
    if r.Fail? {
      if r.status != 404 {
        return Error(r.msg), t;
      }
      var createOut := OrgCreate(d, c);
      t := CreateTrace(createOut, c.log, d.id, d.fields);
    }
    out := EditAndRefetch(d, c);
  }

  /** After a 404 probe the update as written creates the organisation and then still edits
      and fetches it: four requests, the third an edit. */
  lemma OrgUpdateOfMissingOrgEditsIt(remote: Remote, log0: seq<Call>, f: Fields, id0: string, t: CreateTrace,
                                     out: Outcome, log: seq<Call>, newId: string, newFields: Fields)
    requires OrgUpdateRan(remote, log0, f, id0, t, out, log, newId, newFields)
    requires remote.getOrg(log0, GetString(f, OrgName)).IsNotFound()
    ensures |log| == |log0| + 4
    ensures log[|log0|] == Call.GetOrg(GetString(f, OrgName))
    ensures log[|log0| + 1] == Call.CreateOrg(CreateOptions(f))
    ensures log[|log0| + 2] == Call.EditOrg(GetString(t.fields, OrgName), EditOptions(t.fields))
  {
    var name := GetString(f, OrgName);
    assert t.log == log0 + [Call.GetOrg(name)] + [Call.CreateOrg(CreateOptions(f))];
    var name2 := GetString(t.fields, OrgName);
    assert log == t.log + [Call.EditOrg(name2, EditOptions(t.fields))] + [Call.GetOrg(name2)];
  }

  /** The update as it is evidently meant: on a 404 probe the create's outcome is the
      update's, and nothing else runs. */
  predicate OrgUpdateFixedRan(remote: Remote, log0: seq<Call>, f: Fields, id0: string, out: Outcome,
                              log: seq<Call>, newId: string, newFields: Fields)
  {
    var name := GetString(f, OrgName);
    var r := remote.getOrg(log0, name);
    var log1 := log0 + [Call.GetOrg(name)];
    && (r.Fail? && !r.IsNotFound() ==> out == Error(r.msg) && log == log1 && newId == id0 && newFields == f)
    && (r.Ok? ==> EditThenRefetch(remote, log1, f, id0, out, log, newId, newFields))
    && (r.IsNotFound() ==> OrgCreateRan(remote, log1, f, id0, out, log, newId, newFields))
  }

  method OrgUpdateFixed(d: ResourceData, c: Client) returns (out: Outcome)
    modifies d, c
    ensures OrgUpdateFixedRan(c.remote, old(c.log), old(d.fields), old(d.id), out, c.log, d.id, d.fields)
  {
    var r := c.GetOrg(GetString(d.fields, OrgName));
    if r.Fail? {
      if r.status != 404 {
        return Error(r.msg);
      }
      out := OrgCreate(d, c);
      return;
    }
    out := EditAndRefetch(d, c);
  }

  /** An update of an organisation that is gone makes the probe and one create, and nothing
      else: no edit, and no crash. */
  lemma OrgUpdateFixedOfMissingOrgCreatesOnce(remote: Remote, log0: seq<Call>, f: Fields, id0: string,
                                              out: Outcome, log: seq<Call>, newId: string, newFields: Fields)
    requires OrgUpdateFixedRan(remote, log0, f, id0, out, log, newId, newFields)
    requires remote.getOrg(log0, GetString(f, OrgName)).IsNotFound()
    ensures log == log0 + [Call.GetOrg(GetString(f, OrgName)), Call.CreateOrg(CreateOptions(f))]
    ensures out != Crash
  {
  }

  // ----- resourceOrgDelete -----

  /** The delete as written: a 404 takes the bare `return`, which hands back the named
      result still holding the delete's error, so deleting an organisation that is already
      gone fails like any other error. */
  method OrgDelete(d: ResourceData, c: Client) returns (out: Outcome)
    modifies c
    ensures var name := GetString(d.fields, OrgName);
      var r := c.remote.deleteOrg(old(c.log), name);
      && c.log == old(c.log) + [Call.DeleteOrg(name)]
      && (r.Ok? ==> out == Done)
      && (r.Fail? ==> out == Error(r.msg))
  {
    var r := c.DeleteOrg(GetString(d.fields, OrgName));
    if r.Fail? {
      // the bare `return` hands back the 404 error: the same outcome as below
      if r.status == 404 {
        return Error(r.msg);
      }
      return Error(r.msg);
    }
    out := Done;
  }

  /** The delete as it is evidently meant: an organisation that is already gone counts as
      deleted. */
  method OrgDeleteFixed(d: ResourceData, c: Client) returns (out: Outcome)
    modifies c
    ensures var name := GetString(d.fields, OrgName);
      var r := c.remote.deleteOrg(old(c.log), name);
      && c.log == old(c.log) + [Call.DeleteOrg(name)]
      && (r.Ok? || r.IsNotFound() ==> out == Done)
      && (r.Fail? && !r.IsNotFound() ==> out == Error(r.msg))
  {
    var r := c.DeleteOrg(GetString(d.fields, OrgName));
    if r.Fail? {
      if r.status == 404 {
        return Done;
      }
      return Error(r.msg);
    }
    out := Done;
  }
}
