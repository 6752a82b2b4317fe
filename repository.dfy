/** The `gitea_repository` resource: a repository owned by a user or an organisation, created
    empty or migrated from another service, and the paged owner lookup its create uses. */
module RepositoryResource {
  import opened Results
  import opened Strings
  import opened Paging
  import opened State
  import opened GiteaClient

  // ----- attribute keys -----

  const RepoOwner := "username"
  const RepoName := "name"
  const RepoDescription := "description"
  const RepoPrivate := "private"
  const RepoIssueLabels := "issue_labels"
  const RepoAutoInit := "auto_init"
  const RepoTemplate := "repo_template"
  const RepoGitignores := "gitignores"
  const RepoLicense := "license"
  const RepoReadme := "readme"
  const RepoDefaultBranch := "default_branch"
  const RepoWebsite := "website"
  const RepoIssues := "has_issues"
  const RepoWiki := "has_wiki"
  const RepoPrs := "has_pull_requests"
  const RepoProjects := "has_projects"
  const RepoIgnoreWhitespace := "ignore_whitespace_conflicts"
  const RepoAllowMerge := "allow_merge_commits"
  const RepoAllowRebase := "allow_rebase"
  const RepoAllowRebaseMerge := "allow_rebase_explicit"
  const RepoAllowSquash := "allow_squash_merge"
  const RepoArchived := "archived"
  const RepoAllowManualMerge := "allow_manual_merge"
  const RepoAutodetectManualMerge := "autodetect_manual_merge"
  const RepoMirror := "mirror"
  /** The misspelt key, kept for old configurations; it wins over the correct one. */
  const MigrationCloneAddresse := "migration_clone_addresse"
  const MigrationCloneAddress := "migration_clone_address"
  const MigrationService := "migration_service"
  const MigrationAuthName := "migration_service_auth_username"
  const MigrationAuthPassword := "migration_service_auth_password"
  const MigrationAuthToken := "migration_service_auth_token"
  const MigrationMilestones := "migration_milestones"
  const MigrationReleases := "migration_releases"
  const MigrationIssueLabels := "migration_issue_labels"
  const MigrationMirrorInterval := "migration_mirror_interval"
  const MigrationLFS := "migration_lfs"
  const MigrationLFSEndpoint := "migration_lfs_endpoint"

  // ----- searchUserByName -----

  function UserNamed(name: string): User -> bool {
    (u: User) => u.userName == name
  }

  const NotFoundPhrase := "could not be found"

  function UserNotFound(name: string): string {
    "User with name " + name + " " + NotFoundPhrase
  }

  /** The "not found" error of the owner lookup carries the phrase the create checks for. */
  lemma UserNotFoundHasPhrase(name: string)
    ensures Contains(UserNotFound(name), NotFoundPhrase)
  {
    var pre := "User with name " + name + " ";
    assert UserNotFound(name) == pre + NotFoundPhrase;
    assert (pre + NotFoundPhrase)[|pre + NotFoundPhrase| - |NotFoundPhrase|..] == NotFoundPhrase;
    SuffixIsContained(UserNotFound(name), NotFoundPhrase);
  }

  /** The search over the admin user list, each page as the remote serves it at its request. */
  function UserLookup(remote: Remote, log: seq<Call>, name: string): Lookup<User> {
    Search(Observed(UsersFeed(remote), log), UserNamed(name), 1)
  }

  /** searchUserByName: page through the admin user list for a user called `name`. */
  method SearchUserByName(c: Client, name: string) returns (res: Result<User>)
    modifies c
    ensures res == AsResult(UserLookup(c.remote, old(c.log), name), UserNotFound(name))
    ensures res.Success? ==> res.value.userName == name
    ensures c.log == old(c.log) + PageCalls(UsersFeed(c.remote), UserLookup(c.remote, old(c.log), name).page)
  {
    var l := Find(c, UsersFeed(c.remote), UserNamed(name));
    SearchSound(Observed(UsersFeed(c.remote), old(c.log)), UserNamed(name), 1);
    res := AsResult(l, UserNotFound(name));
  }

  // ----- the state written back from a repository -----

  function RepoAttributes(repo: Repository): seq<(string, Value)> {
    [ (RepoOwner, Text(repo.ownerName)), (RepoName, Text(repo.name)),
      (RepoDescription, Text(repo.description)), ("full_name", Text(repo.fullName)),
      (RepoPrivate, Flag(repo.isPrivate)), ("fork", Flag(repo.fork)),
      (RepoMirror, Flag(repo.mirror)), ("size", Number(repo.size)),
      ("html_url", Text(repo.htmlURL)), ("ssh_url", Text(repo.sshURL)),
      ("clone_url", Text(repo.cloneURL)), (RepoWebsite, Text(repo.website)),
      ("stars", Number(repo.stars)), ("forks", Number(repo.forks)),
      ("watchers", Number(repo.watchers)), ("open_issue_count", Number(repo.openIssues)),
      (RepoDefaultBranch, Text(repo.defaultBranch)), ("created", Text(repo.created)),
      ("updated", Text(repo.updated)), ("permission_admin", Flag(repo.permAdmin)),
      ("permission_push", Flag(repo.permPush)), ("permission_pull", Flag(repo.permPull)) ]
  }

  /** setRepoResourceData: the ID is the decimal repository ID; the attributes mirror it. */
  method SetRepoResourceData(repo: Repository, d: ResourceData)
    modifies d
    ensures d.id == FormatInt(repo.id)
    ensures d.fields == Assign(old(d.fields), RepoAttributes(repo))
  {
    d.SetId(FormatInt(repo.id));
    d.SetAll(RepoAttributes(repo));
  }

  /** What the state says after a write-back, read through the getters: owner and name. */
  lemma RepoWriteBack(m: Fields, repo: Repository)
    ensures var n := Assign(m, RepoAttributes(repo));
      && GetString(n, RepoOwner) == repo.ownerName
      && GetString(n, RepoName) == repo.name
  {
    var pairs := RepoAttributes(repo);
    LastWriteAt(pairs, RepoOwner, 0);
    LastWriteAt(pairs, RepoName, 1);
    AssignAt(m, pairs, RepoOwner);
    AssignAt(m, pairs, RepoName);
  }

  /** The same for visibility, mirroring and the default branch. */
  lemma RepoWriteBackSettings(m: Fields, repo: Repository)
    ensures var n := Assign(m, RepoAttributes(repo));
      && GetBool(n, RepoPrivate) == repo.isPrivate
      && GetBool(n, RepoMirror) == repo.mirror
      && GetString(n, RepoDefaultBranch) == repo.defaultBranch
  {
    var pairs := RepoAttributes(repo);
    LastWriteAt(pairs, RepoPrivate, 4);
    LastWriteAt(pairs, RepoMirror, 6);
    LastWriteAt(pairs, RepoDefaultBranch, 16);
    AssignAt(m, pairs, RepoPrivate);
    AssignAt(m, pairs, RepoMirror);
    AssignAt(m, pairs, RepoDefaultBranch);
  }

  // ----- resourceRepoRead -----

  /** resourceRepoRead: the ID must parse as a decimal int64; a repository the server does
      not know (404) is dropped from the state by clearing the ID; other errors are returned. */
  method RepoRead(d: ResourceData, c: Client) returns (out: Outcome)
    modifies d, c
    ensures var p := ParseInt(old(d.id));
      p.err.Some? ==> out == Error(p.err.value) && c.log == old(c.log) && unchanged(d)
    ensures var p := ParseInt(old(d.id));
      var r := c.remote.getRepoByID(old(c.log), p.value);
      p.err.None? ==>
        && c.log == old(c.log) + [Call.GetRepoByID(p.value)]
        && (r.IsNotFound() ==> out == Done && d.id == "" && d.fields == old(d.fields))
        && (r.Fail? && !r.IsNotFound() ==> out == Error(r.msg) && unchanged(d))
        && (r.Ok? ==> out == Done && d.id == FormatInt(r.value.id)
                      && d.fields == Assign(old(d.fields), RepoAttributes(r.value)))
  {
    var p := ParseInt(d.id);
    if p.err.Some? {
      return Error(p.err.value);
    }
    var r := c.GetRepoByID(p.value);
    if r.Fail? {
      if r.status == 404 {
        d.SetId("");
        return Done;
      }
      return Error(r.msg);
    }
    SetRepoResourceData(r.value, d);
    out := Done;
  }

  // ----- resourceRepoCreate -----

  /** The four ways a create can go, and the early stop when the owner does not exist. */
  datatype CreatePath = OwnerMissing | Migrate | OrgRepo | AdminRepo | UserRepo

  /** The migration source: the misspelt key when it is set, the correct one otherwise. */
  function CloneAddress(m: Fields): string {
    if GetString(m, MigrationCloneAddresse) != "" then GetString(m, MigrationCloneAddresse)
    else GetString(m, MigrationCloneAddress)
  }

  /** The decision resourceRepoCreate makes. `orgNotFound` is whether the owner lookup as an
      organisation answered 404; `ownerSearch` is the result of the user lookup (consulted
      only then). A failed user lookup other than "not found" is taken as missing admin
      rights, and the repository is created for the authenticated user. */
  function SelectPath(orgNotFound: bool, ownerSearch: Result<User>, cloneAddr: string): CreatePath {
    var orgRepo := !orgNotFound;
    var hasAdmin := orgNotFound && ownerSearch.Success?;
    if orgNotFound && ownerSearch.Failure? && Contains(ownerSearch.msg, NotFoundPhrase) then OwnerMissing
    else if cloneAddr != "" then Migrate
    else if orgRepo then OrgRepo
    else if hasAdmin then AdminRepo
    else UserRepo
  }

  function MigrateOptions(m: Fields, cloneAddr: string): MigrateRepoOption {
    MigrateRepoOption(
      repoName := GetString(m, RepoName),
      repoOwner := GetString(m, RepoOwner),
      cloneAddr := cloneAddr,
      service := GetString(m, MigrationService),
      mirror := GetBool(m, RepoMirror),
      isPrivate := GetBool(m, RepoPrivate),
      description := GetString(m, RepoDescription),
      wiki := GetBool(m, RepoWiki),
      milestones := GetBool(m, MigrationMilestones),
      labels := GetBool(m, MigrationIssueLabels),
      issues := GetBool(m, RepoIssues),
      pullRequests := GetBool(m, RepoPrs),
      releases := GetBool(m, MigrationReleases),
      mirrorInterval := GetString(m, MigrationMirrorInterval),
      lfs := GetBool(m, MigrationLFS),
      lfsEndpoint := GetString(m, MigrationLFSEndpoint),
      authUsername := if GetString(m, MigrationAuthName) != "" then GetString(m, MigrationAuthName) else "",
      authPassword := if GetString(m, MigrationAuthPassword) != "" then GetString(m, MigrationAuthPassword) else "",
      authToken := if GetString(m, MigrationAuthToken) != "" then GetString(m, MigrationAuthToken) else "")
  }

  /** Each migration credential is in the request (a non-empty string) exactly when it is
      configured non-empty, and then it is the configured value; an unset credential is
      sent as absent. */
  lemma MigrationCredentialsAsConfigured(m: Fields, cloneAddr: string)
    ensures var o := MigrateOptions(m, cloneAddr);
      && (o.authUsername != "" <==> GetString(m, MigrationAuthName) != "")
      && (o.authPassword != "" <==> GetString(m, MigrationAuthPassword) != "")
      && (o.authToken != "" <==> GetString(m, MigrationAuthToken) != "")
      && (o.authUsername != "" ==> o.authUsername == GetString(m, MigrationAuthName))
      && (o.authPassword != "" ==> o.authPassword == GetString(m, MigrationAuthPassword))
      && (o.authToken != "" ==> o.authToken == GetString(m, MigrationAuthToken))
  {
  }

  function CreateOptions(m: Fields): (o: CreateRepoOption)
    ensures o.trustModel == "default"
    ensures o.name == GetString(m, RepoName)
  {
    CreateRepoOption(
      name := GetString(m, RepoName),
      description := GetString(m, RepoDescription),
      isPrivate := GetBool(m, RepoPrivate),
      issueLabels := GetString(m, RepoIssueLabels),
      autoInit := GetBool(m, RepoAutoInit),
      template := GetBool(m, RepoTemplate),
      gitignores := GetString(m, RepoGitignores),
      license := GetString(m, RepoLicense),
      readme := GetString(m, RepoReadme),
      defaultBranch := GetString(m, RepoDefaultBranch),
      trustModel := "default")
  }

  /** The one request that creates the repository on `path`. */
  function CreateCall(path: CreatePath, m: Fields): Call
    requires path != OwnerMissing
  {
    match path
    case Migrate => Call.MigrateRepo(MigrateOptions(m, CloneAddress(m)))
    case OrgRepo => Call.CreateOrgRepo(GetString(m, RepoOwner), CreateOptions(m))
    case AdminRepo => Call.AdminCreateRepo(GetString(m, RepoOwner), CreateOptions(m))
    case UserRepo => Call.CreateRepo(CreateOptions(m))
  }

  /** The remote's answer to that request, made after the requests `log`. */
  function CreateReply(remote: Remote, log: seq<Call>, path: CreatePath, m: Fields): Reply<Repository>
    requires path != OwnerMissing
  {
    match path
    case Migrate => remote.migrateRepo(log, MigrateOptions(m, CloneAddress(m)))
    case OrgRepo => remote.createOrgRepo(log, GetString(m, RepoOwner), CreateOptions(m))
    case AdminRepo => remote.adminCreateRepo(log, GetString(m, RepoOwner), CreateOptions(m))
    case UserRepo => remote.createRepo(log, CreateOptions(m))
  }

  /** The organisation probe's answer, and the user lookup made after it. */
  function OrgProbe(remote: Remote, log: seq<Call>, owner: string): Reply<Organization> {
    remote.getOrg(log, owner)
  }

  function OwnerLookup(remote: Remote, log: seq<Call>, owner: string): Lookup<User> {
    UserLookup(remote, log + [Call.GetOrg(owner)], owner)
  }

  /** The path the remote's answers select for the configuration `m`, starting after `log`. */
  function PathFor(remote: Remote, log: seq<Call>, m: Fields): CreatePath {
    var owner := GetString(m, RepoOwner);
    SelectPath(OrgProbe(remote, log, owner).IsNotFound(),
               AsResult(OwnerLookup(remote, log, owner), UserNotFound(owner)),
               CloneAddress(m))
  }

  /** The probes made before creating: the organisation lookup, then, when it answered 404,
      the pages of the user list. */
  function Probes(remote: Remote, log: seq<Call>, owner: string): seq<Call> {
    [Call.GetOrg(owner)]
      + (if OrgProbe(remote, log, owner).IsNotFound()
         then PageCalls(UsersFeed(remote), OwnerLookup(remote, log, owner).page)
         else [])
  }

  function OwnerMissingMessage(owner: string): string {
    "Creation of repository cound not proceed as owner " + owner + " is not present in gitea"
  }

  /** The first half of resourceRepoCreate: look the owner up as an organisation and, when
      that answers 404, as a user. `missing` stops the create; otherwise `orgRepo` and
      `hasAdmin` choose the endpoint. */
  method ProbeOwner(c: Client, owner: string) returns (orgRepo: bool, hasAdmin: bool, missing: bool)
    modifies c
    ensures var search := AsResult(OwnerLookup(c.remote, old(c.log), owner), UserNotFound(owner));
      var orgNotFound := OrgProbe(c.remote, old(c.log), owner).IsNotFound();
      && orgRepo == !orgNotFound
      && hasAdmin == (orgNotFound && search.Success?)
      && missing == (orgNotFound && search.Failure? && Contains(search.msg, NotFoundPhrase))
    ensures c.log == old(c.log) + Probes(c.remote, old(c.log), owner)
  {
    var org := c.GetOrg(owner);
    missing := false;
    if org.IsNotFound() {
      var search := SearchUserByName(c, owner);
      if search.Failure? {
        if Contains(search.msg, NotFoundPhrase) {
          missing := true;
        }
        hasAdmin := false;
      } else {
        hasAdmin := true;
      }
      orgRepo := false;
    } else {
      orgRepo := true;
      hasAdmin := false;
    }
  }

  /** resourceRepoCreate: probe the owner, then make exactly one creating request (unless the
      owner does not exist) and write the created repository back. */
  method RepoCreate(d: ResourceData, c: Client) returns (out: Outcome)
    modifies d, c
    ensures var owner := GetString(old(d.fields), RepoOwner);
      var path := PathFor(c.remote, old(c.log), old(d.fields));
      path == OwnerMissing ==>
        && out == Error(OwnerMissingMessage(owner))
        && c.log == old(c.log) + Probes(c.remote, old(c.log), owner)
        && unchanged(d)
    ensures var owner := GetString(old(d.fields), RepoOwner);
      var path := PathFor(c.remote, old(c.log), old(d.fields));
      var before := old(c.log) + Probes(c.remote, old(c.log), owner);
      path != OwnerMissing ==>
        var r := CreateReply(c.remote, before, path, old(d.fields));
        && c.log == before + [CreateCall(path, old(d.fields))]
        && (r.Fail? ==> out == Error(r.msg) && unchanged(d))
        && (r.Ok? ==> out == Done && d.id == FormatInt(r.value.id)
                      && d.fields == Assign(old(d.fields), RepoAttributes(r.value)))
  {
    var owner := GetString(d.fields, RepoOwner);
    ghost var path := PathFor(c.remote, c.log, d.fields);
    var orgRepo, hasAdmin, missing := ProbeOwner(c, owner);
    ghost var before := c.log;
    if missing {
      return Error(OwnerMissingMessage(owner));
    }
    var cloneAddr := CloneAddress(d.fields);
    var r: Reply<Repository>;
    if cloneAddr != "" {
      r := c.MigrateRepo(MigrateOptions(d.fields, cloneAddr));
    } else {
      var opts := CreateOptions(d.fields);
      if orgRepo {
        r := c.CreateOrgRepo(owner, opts);
      } else if hasAdmin {
        r := c.AdminCreateRepo(owner, opts);
      } else {
        r := c.CreateRepo(opts);
      }
    }
    assert r == CreateReply(c.remote, before, path, d.fields);
    if r.Fail? {
      return Error(r.msg);
    }
    SetRepoResourceData(r.value, d);
    out := Done;
  }

  /** A creating request, as opposed to a probe. */
  predicate Creates(call: Call) {
    call.MigrateRepo? || call.CreateOrgRepo? || call.AdminCreateRepo? || call.CreateRepo?
  }

  /** A create makes at most one creating request: none of the probes creates anything, and
      the request made after them does. */
  lemma {:induction false} CreateMakesOneCreatingRequest(remote: Remote, log: seq<Call>, m: Fields)
    ensures var probes := Probes(remote, log, GetString(m, RepoOwner));
      forall i :: 0 <= i < |probes| ==> !Creates(probes[i])
    ensures PathFor(remote, log, m) != OwnerMissing ==> Creates(CreateCall(PathFor(remote, log, m), m))
  {
    var owner := GetString(m, RepoOwner);
    var calls := PageCalls(UsersFeed(remote), OwnerLookup(remote, log, owner).page);
    assert forall i :: 0 <= i < |calls| ==> calls[i].AdminListUsers?;
  }

  /** The create stops for a missing owner exactly when the owner is not an organisation and
      the user list ran out without it (or failed with a message that happens to carry the
      same phrase). An owner that exists, as organisation or user, is never reported missing. */
  lemma OwnerMissingIffNotListed(remote: Remote, log: seq<Call>, m: Fields)
    ensures var owner := GetString(m, RepoOwner);
      var l := OwnerLookup(remote, log, owner);
      PathFor(remote, log, m) == OwnerMissing <==>
        OrgProbe(remote, log, owner).IsNotFound()
        && (l.Exhausted? || (l.ListError? && Contains(l.msg, NotFoundPhrase)))
  {
    UserNotFoundHasPhrase(GetString(m, RepoOwner));
  }

  /** Which creating endpoint is used: a migration source always means a migration, an
      organisation owner always gets an organisation repository, and a user owner gets an
      admin create only when the user list holds that user. */
  lemma CreateEndpointChoice(remote: Remote, log: seq<Call>, m: Fields)
    ensures var owner := GetString(m, RepoOwner);
      var path := PathFor(remote, log, m);
      var isOrg := !OrgProbe(remote, log, owner).IsNotFound();
      && (path != OwnerMissing && CloneAddress(m) != "" ==> path == Migrate)
      && (isOrg ==> path != OwnerMissing && path != AdminRepo && path != UserRepo)
      && (isOrg && CloneAddress(m) == "" ==> path == OrgRepo)
      && (path == AdminRepo ==> OwnerLookup(remote, log, owner).Hit?
                                && OwnerLookup(remote, log, owner).item.userName == owner)
  {
    var owner := GetString(m, RepoOwner);
    SearchSound(Observed(UsersFeed(remote), log + [Call.GetOrg(owner)]), UserNamed(owner), 1);
  }

  // ----- resourceRepoUpdate -----

  /** The edit request: a mirror gets its sync interval and never the archive flag; any other
      repository gets the archive flag and never an interval. */
  function EditOptions(m: Fields): (o: EditRepoOption)
    ensures o.mirrorInterval.Some? <==> GetBool(m, RepoMirror)
    ensures o.archived.Some? <==> !GetBool(m, RepoMirror)
    ensures o.mirrorInterval.Some? ==> o.mirrorInterval.value == GetString(m, MigrationMirrorInterval)
    ensures o.archived.Some? ==> o.archived.value == GetBool(m, RepoArchived)
  {
    var mirror := GetBool(m, RepoMirror);
    EditRepoOption(
      name := GetString(m, RepoName),
      description := GetString(m, RepoDescription),
      website := GetString(m, RepoWebsite),
      isPrivate := GetBool(m, RepoPrivate),
      template := GetBool(m, RepoTemplate),
      hasIssues := GetBool(m, RepoIssues),
      hasWiki := GetBool(m, RepoWiki),
      defaultBranch := GetString(m, RepoDefaultBranch),
      hasPullRequests := GetBool(m, RepoPrs),
      hasProjects := GetBool(m, RepoProjects),
      ignoreWhitespaceConflicts := GetBool(m, RepoIgnoreWhitespace),
      allowMerge := GetBool(m, RepoAllowMerge),
      allowRebase := GetBool(m, RepoAllowRebase),
      allowRebaseMerge := GetBool(m, RepoAllowRebaseMerge),
      allowSquash := GetBool(m, RepoAllowSquash),
      allowManualMerge := GetBool(m, RepoAllowManualMerge),
      autodetectManualMerge := GetBool(m, RepoAutodetectManualMerge),
      archived := if mirror then None else Some(GetBool(m, RepoArchived)),
      mirrorInterval := if mirror then Some(GetString(m, MigrationMirrorInterval)) else None)
  }

  /** resourceRepoUpdate: one edit request addressed by the configured owner and name. */
  method RepoUpdate(d: ResourceData, c: Client) returns (out: Outcome)
    modifies d, c
    ensures var owner := GetString(old(d.fields), RepoOwner);
      var name := GetString(old(d.fields), RepoName);
      var r := c.remote.editRepo(old(c.log), owner, name, EditOptions(old(d.fields)));
      && c.log == old(c.log) + [Call.EditRepo(owner, name, EditOptions(old(d.fields)))]
      && (r.Fail? ==> out == Error(r.msg) && unchanged(d))
      && (r.Ok? ==> out == Done && d.id == FormatInt(r.value.id)
                    && d.fields == Assign(old(d.fields), RepoAttributes(r.value)))
  {
    var opts := EditOptions(d.fields);
    var r := c.EditRepo(GetString(d.fields, RepoOwner), GetString(d.fields, RepoName), opts);
    if r.Fail? {
      return Error(r.msg);
    }
    SetRepoResourceData(r.value, d);
    out := Done;
  }

  // ----- respurceRepoDelete -----

  /** The delete ignores the server's answer: it always reports success. */
  method RepoDelete(d: ResourceData, c: Client) returns (out: Outcome)
    modifies c
    ensures out == Done
    ensures c.log == old(c.log) + [Call.DeleteRepo(GetString(d.fields, RepoOwner), GetString(d.fields, RepoName))]
  {
    var _ := c.DeleteRepo(GetString(d.fields, RepoOwner), GetString(d.fields, RepoName));
    out := Done;
  }
}
