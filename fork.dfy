/** The `gitea_fork` resource: a fork of a repository, kept in the state under the decimal ID
    of the forked repository. */
module ForkResource {
  import opened Results
  import opened Strings
  import opened State
  import opened GiteaClient

  // ----- attribute keys -----

  const ForkOwner := "owner"
  const ForkRepo := "repo"
  const ForkOrganization := "organization"

  // ----- resourceForkCreate -----

  /** The fork request names a target organisation only when one is configured. */
  function ForkOptions(f: Fields): (opts: CreateForkOption)
    ensures opts.organization.Some? <==> GetString(f, ForkOrganization) != ""
    ensures opts.organization.Some? ==> opts.organization.value == GetString(f, ForkOrganization)
  {
    var org := GetString(f, ForkOrganization);
    if org != "" then CreateForkOption(Some(org)) else CreateForkOption(None)
  }

  /** The create forks the configured repository; on success it sets only the ID (the
      attributes stay as configured), on failure it returns the error with the state
      untouched. */
  method ForkCreate(d: ResourceData, c: Client) returns (out: Outcome)
    modifies d, c
    ensures var owner, repo, opts := GetString(old(d.fields), ForkOwner), GetString(old(d.fields), ForkRepo), ForkOptions(old(d.fields));
      var r := c.remote.createFork(old(c.log), owner, repo, opts);
      && c.log == old(c.log) + [Call.CreateFork(owner, repo, opts)]
      && d.fields == old(d.fields)
      && (r.Fail? ==> out == Error(r.msg) && d.id == old(d.id))
      && (r.Ok? ==> out == Done && d.id == FormatInt(r.value.id))
  {
    var opts := CreateForkOption(None);
    var org := GetString(d.fields, ForkOrganization);
    if org != "" {
      opts := CreateForkOption(Some(org));
    }
    var r := c.CreateFork(GetString(d.fields, ForkOwner), GetString(d.fields, ForkRepo), opts);
    if r.Fail? {
      return Error(r.msg);
    }
    SetForkResourceData(r.value, d);
    out := Done;
  }

  /** setForkResourceData: the ID only. */
  method SetForkResourceData(repo: Repository, d: ResourceData)
    modifies d
    ensures d.id == FormatInt(repo.id) && d.fields == old(d.fields)
  {
    d.SetId(FormatInt(repo.id));
  }

  // ----- resourceForkRead -----

  /** The read: an unparsable ID is an error and nothing is fetched; otherwise the
      repository with that ID is fetched, a 404 clears the ID, another failure is returned,
      and a found repository's ID is stored. */
  method ForkRead(d: ResourceData, c: Client) returns (out: Outcome)
    modifies d, c
    ensures d.fields == old(d.fields)
    ensures var p := ParseInt(old(d.id));
      && (p.err.Some? ==> out == Error(p.err.value) && c.log == old(c.log) && d.id == old(d.id))
      && (p.err.None? ==>
            var g := c.remote.getRepoByID(old(c.log), p.value);
            && c.log == old(c.log) + [Call.GetRepoByID(p.value)]
            && (g.Fail? ==> GoneOrFailed(g, out, old(d.id), old(d.fields), d.id, d.fields))
            && (g.Ok? ==> out == Done && d.id == FormatInt(g.value.id)))
  {
    var p := ParseInt(d.id);
    if p.err.Some? {
      return Error(p.err.value);
    }
    var g := c.GetRepoByID(p.value);
    if g.Fail? {
      if g.status == 404 {
        d.SetId("");
        return Done;
      }
      return Error(g.msg);
    }
    SetForkResourceData(g.value, d);
    out := Done;
  }

  // ----- resourceForkDelete -----

  /** The delete removes the repository named `repo` under the configured organisation (the
      empty name when the fork went to the caller's own account) and succeeds whatever the
      server answers. */
  method ForkDelete(d: ResourceData, c: Client) returns (out: Outcome)
    modifies c
    ensures out == Done
    ensures c.log == old(c.log) + [Call.DeleteRepo(GetString(d.fields, ForkOrganization), GetString(d.fields, ForkRepo))]
  {
    var _ := c.DeleteRepo(GetString(d.fields, ForkOrganization), GetString(d.fields, ForkRepo));
    out := Done;
  }
}
