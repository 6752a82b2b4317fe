/** The Gitea SDK client, seen from the provider: the records it exchanges, the requests the
    provider makes, and a `Client` object that answers each request from a fixed description
    of the remote service (`Remote`) and records every request in its call log. */
module GiteaClient {
  import opened Results
  import opened Paging

  // ----- records the server returns -----

  datatype User = User(
    id: int, userName: string, email: string, fullName: string, isAdmin: bool,
    created: string, avatarURL: string, lastLogin: string, language: string)

  datatype Organization = Organization(
    id: int, userName: string, fullName: string, avatarURL: string, description: string,
    website: string, location: string, visibility: string)

  datatype Repository = Repository(
    id: int, ownerName: string, name: string, fullName: string, description: string,
    isPrivate: bool, fork: bool, mirror: bool, size: int,
    htmlURL: string, sshURL: string, cloneURL: string, website: string,
    stars: int, forks: int, watchers: int, openIssues: int, defaultBranch: string,
    created: string, updated: string, permAdmin: bool, permPush: bool, permPull: bool)

  datatype Team = Team(
    id: int, name: string, description: string, permission: string,
    canCreateOrgRepo: bool, includesAllRepositories: bool)

  datatype Oauth2 = Oauth2(
    id: int, name: string, clientID: string, clientSecret: string,
    confidentialClient: bool, redirectURIs: seq<string>)

  datatype PublicKey = PublicKey(
    id: int, key: string, title: string, readOnly: bool, created: string,
    fingerprint: string, keyType: string)

  datatype DeployKey = DeployKey(id: int, key: string, title: string, readOnly: bool)

  datatype GitHook = GitHook(name: string, content: string)

  /** The repository units a team may be granted, with their wire names. */
  datatype RepoUnit = UnitCode | UnitIssues | UnitExtIssues | UnitWiki | UnitPulls
                    | UnitReleases | UnitExtWiki | UnitProjects
  {
    function Token(): string {
      match this
      case UnitCode => "repo.code"
      case UnitIssues => "repo.issues"
      case UnitExtIssues => "repo.ext_issues"
      case UnitWiki => "repo.wiki"
      case UnitPulls => "repo.pulls"
      case UnitReleases => "repo.releases"
      case UnitExtWiki => "repo.ext_wiki"
      case UnitProjects => "repo.projects"
    }
  }

  // ----- request payloads -----

  datatype MigrateRepoOption = MigrateRepoOption(
    repoName: string, repoOwner: string, cloneAddr: string, service: string,
    mirror: bool, isPrivate: bool, description: string, wiki: bool, milestones: bool,
    labels: bool, issues: bool, pullRequests: bool, releases: bool, mirrorInterval: string,
    lfs: bool, lfsEndpoint: string, authUsername: string, authPassword: string, authToken: string)

  datatype CreateRepoOption = CreateRepoOption(
    name: string, description: string, isPrivate: bool, issueLabels: string, autoInit: bool,
    template: bool, gitignores: string, license: string, readme: string,
    defaultBranch: string, trustModel: string)

  /** Reference fields the provider may leave nil are `Option`s; the others it always sets. */
  datatype EditRepoOption = EditRepoOption(
    name: string, description: string, website: string, isPrivate: bool, template: bool,
    hasIssues: bool, hasWiki: bool, defaultBranch: string, hasPullRequests: bool,
    hasProjects: bool, ignoreWhitespaceConflicts: bool, allowMerge: bool, allowRebase: bool,
    allowRebaseMerge: bool, allowSquash: bool, allowManualMerge: bool,
    autodetectManualMerge: bool, archived: Option<bool>, mirrorInterval: Option<string>)

  datatype CreateForkOption = CreateForkOption(organization: Option<string>)

  datatype CreateTeamOption = CreateTeamOption(
    name: string, description: string, permission: string, canCreateOrgRepo: bool,
    includesAllRepositories: bool, units: seq<RepoUnit>)

  datatype EditTeamOption = EditTeamOption(
    name: string, description: string, permission: string, canCreateOrgRepo: bool,
    includesAllRepositories: bool, units: seq<RepoUnit>)

  datatype CreateOauth2Option = CreateOauth2Option(
    name: string, confidentialClient: bool, redirectURIs: seq<string>)

  datatype CreateOrgOption = CreateOrgOption(
    name: string, fullName: string, description: string, website: string, location: string,
    visibility: string, repoAdminChangeTeamAccess: bool)

  datatype EditOrgOption = EditOrgOption(
    fullName: string, description: string, website: string, location: string, visibility: string)

  datatype CreateKeyOption = CreateKeyOption(title: string, key: string, readOnly: bool)

  datatype CreateUserOption = CreateUserOption(
    sourceID: int, loginName: string, username: string, fullName: string, email: string,
    password: string, mustChangePassword: bool, sendNotify: bool, visibility: string)

  /** `password` is a plain string in the SDK: "" means the field is omitted from the request. */
  datatype EditUserOption = EditUserOption(
    sourceID: int, loginName: string, email: string, fullName: string, password: string,
    description: string, mustChangePassword: bool, location: string, active: bool,
    admin: bool, allowGitHook: bool, allowImportLocal: bool, maxRepoCreation: int,
    prohibitLogin: bool, allowCreateOrganization: bool, restricted: bool, visibility: string)

  datatype EditGitHookOption = EditGitHookOption(content: string)

  // ----- the call log -----

  /** One request made to the remote service, with its arguments. */
  datatype Call =
    | AdminListUsers(page: nat, pageSize: nat)
    | AdminListOrgs(page: nat, pageSize: nat)
    | ListOauth2(page: nat, pageSize: nat)
    | ListTeamRepositories(teamId: int, page: nat, pageSize: nat)
    | GetOrg(orgName: string)
    | CreateOrg(createOrg: CreateOrgOption)
    | EditOrg(orgName: string, editOrg: EditOrgOption)
    | DeleteOrg(orgName: string)
    | GetRepoByID(repoId: int)
    | MigrateRepo(migrate: MigrateRepoOption)
    | CreateOrgRepo(owner: string, createRepo: CreateRepoOption)
    | AdminCreateRepo(owner: string, createRepo: CreateRepoOption)
    | CreateRepo(createRepo: CreateRepoOption)
    | EditRepo(owner: string, repo: string, editRepo: EditRepoOption)
    | DeleteRepo(owner: string, repo: string)
    | CreateFork(owner: string, repo: string, fork: CreateForkOption)
    | GetTeam(teamId: int)
    | CreateTeam(orgName: string, createTeam: CreateTeamOption)
    | EditTeam(teamId: int, editTeam: EditTeamOption)
    | DeleteTeam(teamId: int)
    | AddTeamMember(teamId: int, user: string)
    | AddTeamRepository(teamId: int, orgName: string, repo: string)
    | RemoveTeamRepository(teamId: int, orgName: string, repo: string)
    | CreateOauth2(oauth2: CreateOauth2Option)
    | UpdateOauth2(appId: int, oauth2: CreateOauth2Option)
    | DeleteOauth2(appId: int)
    | GetDeployKey(owner: string, repo: string, keyId: int)
    | CreateDeployKey(owner: string, repo: string, createKey: CreateKeyOption)
    | DeleteDeployKey(owner: string, repo: string, keyId: int)
    | GetUserByID(userId: int)
    | AdminCreateUser(createUser: CreateUserOption)
    | AdminEditUser(user: string, editUser: EditUserOption)
    | AdminDeleteUser(user: string)
    | GetPublicKey(keyId: int)
    | AdminCreateUserPublicKey(user: string, createKey: CreateKeyOption)
    | AdminDeleteUserPublicKey(user: string, keyId: int)
    | GetRepoGitHook(user: string, repo: string, hook: string)
    | EditRepoGitHook(user: string, repo: string, hook: string, editHook: EditGitHookOption)
    | DeleteRepoGitHook(user: string, repo: string, hook: string)

  // ----- the remote service -----

  /** What the remote service answers. An answer depends on the request and on the requests
      made before it (the first argument, the client's log so far), so a server whose state
      changes with each request is covered. List endpoints give the whole listing, page by
      page (see Paging.PageAt), as it stands after that history; each page request is
      answered from the listing after the requests before it. A listing never fills more
      than its bound (`userPages`, `orgPages`, `appPages`, `teamRepoPages`) pages: the server
      holds finitely many records, and past the bound every page is empty. */
  datatype Remote = Remote(
    adminUsers: seq<Call> -> seq<Reply<seq<User>>>,
    userPages: nat,
    adminOrgs: seq<Call> -> seq<Reply<seq<Organization>>>,
    orgPages: nat,
    oauth2Apps: seq<Call> -> seq<Reply<seq<Oauth2>>>,
    appPages: nat,
    teamRepos: (seq<Call>, int) -> seq<Reply<seq<Repository>>>,
    teamRepoPages: nat,
    getOrg: (seq<Call>, string) -> Reply<Organization>,
    createOrg: (seq<Call>, CreateOrgOption) -> Reply<Organization>,
    editOrg: (seq<Call>, string, EditOrgOption) -> Reply<()>,
    deleteOrg: (seq<Call>, string) -> Reply<()>,
    getRepoByID: (seq<Call>, int) -> Reply<Repository>,
    migrateRepo: (seq<Call>, MigrateRepoOption) -> Reply<Repository>,
    createOrgRepo: (seq<Call>, string, CreateRepoOption) -> Reply<Repository>,
    adminCreateRepo: (seq<Call>, string, CreateRepoOption) -> Reply<Repository>,
    createRepo: (seq<Call>, CreateRepoOption) -> Reply<Repository>,
    editRepo: (seq<Call>, string, string, EditRepoOption) -> Reply<Repository>,
    deleteRepo: (seq<Call>, string, string) -> Reply<()>,
    createFork: (seq<Call>, string, string, CreateForkOption) -> Reply<Repository>,
    getTeam: (seq<Call>, int) -> Reply<Team>,
    createTeam: (seq<Call>, string, CreateTeamOption) -> Reply<Team>,
    editTeam: (seq<Call>, int, EditTeamOption) -> Reply<()>,
    deleteTeam: (seq<Call>, int) -> Reply<()>,
    addTeamMember: (seq<Call>, int, string) -> Reply<()>,
    addTeamRepository: (seq<Call>, int, string, string) -> Reply<()>,
    removeTeamRepository: (seq<Call>, int, string, string) -> Reply<()>,
    createOauth2: (seq<Call>, CreateOauth2Option) -> Reply<Oauth2>,
    updateOauth2: (seq<Call>, int, CreateOauth2Option) -> Reply<Oauth2>,
    deleteOauth2: (seq<Call>, int) -> Reply<()>,
    getDeployKey: (seq<Call>, string, string, int) -> Reply<DeployKey>,
    createDeployKey: (seq<Call>, string, string, CreateKeyOption) -> Reply<DeployKey>,
    deleteDeployKey: (seq<Call>, string, string, int) -> Reply<()>,
    getUserByID: (seq<Call>, int) -> Reply<User>,
    adminCreateUser: (seq<Call>, CreateUserOption) -> Reply<User>,
    adminEditUser: (seq<Call>, string, EditUserOption) -> Reply<()>,
    adminDeleteUser: (seq<Call>, string) -> Reply<()>,
    getPublicKey: (seq<Call>, int) -> Reply<PublicKey>,
    adminCreateUserPublicKey: (seq<Call>, string, CreateKeyOption) -> Reply<PublicKey>,
    adminDeleteUserPublicKey: (seq<Call>, string, int) -> Reply<()>,
    getRepoGitHook: (seq<Call>, string, string, string) -> Reply<GitHook>,
    editRepoGitHook: (seq<Call>, string, string, string, EditGitHookOption) -> Reply<()>,
    deleteRepoGitHook: (seq<Call>, string, string, string) -> Reply<()>)

  /** A list endpoint: its listing after a given history, the number of pages it never
      exceeds, and the request that fetches page `n`. */
  datatype Feed<T> = Feed(listing: seq<Call> -> seq<Reply<seq<T>>>, bound: nat, request: nat -> Call)

  /** Page `n` of a feed, as the server serves it after the history `log`. */
  function FeedPage<T>(feed: Feed<T>, log: seq<Call>, n: nat): Reply<seq<T>>
    requires n >= 1
  {
    if n <= feed.bound then PageAt(feed.listing(log), n) else Ok([])
  }

  /** The requests that fetch pages 1 to k, in order. */
  function PageCalls<T>(feed: Feed<T>, k: nat): (calls: seq<Call>)
    ensures |calls| == k
    ensures forall i :: 0 <= i < k ==> calls[i] == feed.request(i + 1)
  {
    if k == 0 then [] else PageCalls(feed, k - 1) + [feed.request(k)]
  }

  /** The pages a search reads when it starts after `log0`: page j + 1 as the server serves
      it after `log0` and the j page requests before it. A search that reaches page j + 1
      has sent exactly those requests, so these are the pages it sees, whatever the server. */
  function Observed<T>(feed: Feed<T>, log0: seq<Call>): (pages: seq<Reply<seq<T>>>)
    ensures |pages| == feed.bound
  {
    ObservedUpTo(feed, log0, feed.bound)
  }

  /** The first k observed pages. */
  function ObservedUpTo<T>(feed: Feed<T>, log0: seq<Call>, k: nat): (pages: seq<Reply<seq<T>>>)
    ensures |pages| == k
  {
    if k == 0 then [] else ObservedUpTo(feed, log0, k - 1) + [FeedPage(feed, log0 + PageCalls(feed, k - 1), k)]
  }

  lemma {:induction false} ObservedUpToAt<T>(feed: Feed<T>, log0: seq<Call>, k: nat, n: nat)
    requires 1 <= n <= k
    ensures ObservedUpTo(feed, log0, k)[n - 1] == FeedPage(feed, log0 + PageCalls(feed, n - 1), n)
    decreases k
  {
    if n < k {
      ObservedUpToAt(feed, log0, k - 1, n);
    }
  }

  /** Page n of the observed pages is the page the n-th request is answered with. */
  lemma ObservedPage<T>(feed: Feed<T>, log0: seq<Call>, n: nat)
    requires n >= 1
    ensures PageAt(Observed(feed, log0), n) == FeedPage(feed, log0 + PageCalls(feed, n - 1), n)
  {
    if n <= feed.bound {
      ObservedUpToAt(feed, log0, feed.bound, n);
    }
  }

  /** The listing the search starts from, page by page. */
  function Snapshot<T>(feed: Feed<T>, log0: seq<Call>): (pages: seq<Reply<seq<T>>>)
    ensures |pages| == feed.bound
  {
    SnapshotUpTo(feed, log0, feed.bound)
  }

  /** The first k pages of the listing the search starts from. */
  function SnapshotUpTo<T>(feed: Feed<T>, log0: seq<Call>, k: nat): (pages: seq<Reply<seq<T>>>)
    ensures |pages| == k
  {
    if k == 0 then [] else SnapshotUpTo(feed, log0, k - 1) + [FeedPage(feed, log0, k)]
  }

  /** The hypothesis that page requests do not change the listing after `log0`. */
  ghost predicate ListingReadOnly<T>(feed: Feed<T>, log0: seq<Call>) {
    forall k: nat :: feed.listing(log0 + PageCalls(feed, k)) == feed.listing(log0)
  }

  lemma {:induction false} ObservedUpToReadOnly<T>(feed: Feed<T>, log0: seq<Call>, k: nat)
    requires ListingReadOnly(feed, log0)
    ensures ObservedUpTo(feed, log0, k) == SnapshotUpTo(feed, log0, k)
    decreases k
  {
    if k > 0 {
      ObservedUpToReadOnly(feed, log0, k - 1);
      assert feed.listing(log0 + PageCalls(feed, k - 1)) == feed.listing(log0);
    }
  }

  /** When page requests leave the listing alone, a search sees the listing as it stood when
      it started; otherwise (a record added or removed between two requests) it sees each
      page as it was at its own request. */
  lemma ObservedReadOnly<T>(feed: Feed<T>, log0: seq<Call>)
    requires ListingReadOnly(feed, log0)
    ensures Observed(feed, log0) == Snapshot(feed, log0)
  {
    ObservedUpToReadOnly(feed, log0, feed.bound);
  }

  /** Within its bound the snapshot is the listing itself. */
  lemma {:induction false} SnapshotPage<T>(feed: Feed<T>, log0: seq<Call>, k: nat, n: nat)
    requires 1 <= n <= k
    ensures SnapshotUpTo(feed, log0, k)[n - 1] == FeedPage(feed, log0, n)
    decreases k
  {
    if n < k {
      SnapshotPage(feed, log0, k - 1, n);
    }
  }

  function UsersFeed(remote: Remote): Feed<User> {
    Feed(remote.adminUsers, remote.userPages, (n: nat) => Call.AdminListUsers(n, PageSize))
  }

  function OrgsFeed(remote: Remote): Feed<Organization> {
    Feed(remote.adminOrgs, remote.orgPages, (n: nat) => Call.AdminListOrgs(n, PageSize))
  }

  function Oauth2Feed(remote: Remote): Feed<Oauth2> {
    Feed(remote.oauth2Apps, remote.appPages, (n: nat) => Call.ListOauth2(n, PageSize))
  }

  /** Page `n` of a team's repositories, as the server lists them after the history `log`. */
  function TeamPage(remote: Remote, log: seq<Call>, teamId: int, n: nat): Reply<seq<Repository>>
    requires n >= 1
  {
    if n <= remote.teamRepoPages then PageAt(remote.teamRepos(log, teamId), n) else Ok([])
  }

  /** The SDK client. Each method makes one request: it appends the request to `log` and
      returns the remote service's answer; nothing else changes. */
  class Client {
    const remote: Remote
    var log: seq<Call>

    constructor (remote: Remote)
      ensures this.remote == remote && log == []
    {
      this.remote := remote;
      log := [];
    }

    method FetchPage<T>(feed: Feed<T>, n: nat) returns (r: Reply<seq<T>>)
      requires n >= 1
      modifies this
      ensures log == old(log) + [feed.request(n)]
      ensures r == FeedPage(feed, old(log), n)
    {
      r := FeedPage(feed, log, n);
      log := log + [feed.request(n)];
    }

    /** One page of a team's repositories, as the server lists them at this point. */
    method ListTeamRepositories(teamId: int, n: nat) returns (r: Reply<seq<Repository>>)
      requires n >= 1
      modifies this
      ensures log == old(log) + [Call.ListTeamRepositories(teamId, n, PageSize)]
      ensures r == TeamPage(remote, old(log), teamId, n)
    {
      r := TeamPage(remote, log, teamId, n);
      log := log + [Call.ListTeamRepositories(teamId, n, PageSize)];
    }

    method GetOrg(name: string) returns (r: Reply<Organization>)
      modifies this
      ensures log == old(log) + [Call.GetOrg(name)] && r == remote.getOrg(old(log), name)
    {
      r := remote.getOrg(log, name);
      log := log + [Call.GetOrg(name)];
    }

    method CreateOrg(opts: CreateOrgOption) returns (r: Reply<Organization>)
      modifies this
      ensures log == old(log) + [Call.CreateOrg(opts)] && r == remote.createOrg(old(log), opts)
    {
      r := remote.createOrg(log, opts);
      log := log + [Call.CreateOrg(opts)];
    }

    method EditOrg(name: string, opts: EditOrgOption) returns (r: Reply<()>)
      modifies this
      ensures log == old(log) + [Call.EditOrg(name, opts)] && r == remote.editOrg(old(log), name, opts)
    {
      r := remote.editOrg(log, name, opts);
      log := log + [Call.EditOrg(name, opts)];
    }

    method DeleteOrg(name: string) returns (r: Reply<()>)
      modifies this
      ensures log == old(log) + [Call.DeleteOrg(name)] && r == remote.deleteOrg(old(log), name)
    {
      r := remote.deleteOrg(log, name);
      log := log + [Call.DeleteOrg(name)];
    }

    method GetRepoByID(id: int) returns (r: Reply<Repository>)
      modifies this
      ensures log == old(log) + [Call.GetRepoByID(id)] && r == remote.getRepoByID(old(log), id)
    {
      r := remote.getRepoByID(log, id);
      log := log + [Call.GetRepoByID(id)];
    }

    method MigrateRepo(opts: MigrateRepoOption) returns (r: Reply<Repository>)
      modifies this
      ensures log == old(log) + [Call.MigrateRepo(opts)] && r == remote.migrateRepo(old(log), opts)
    {
      r := remote.migrateRepo(log, opts);
      log := log + [Call.MigrateRepo(opts)];
    }

    method CreateOrgRepo(org: string, opts: CreateRepoOption) returns (r: Reply<Repository>)
      modifies this
      ensures log == old(log) + [Call.CreateOrgRepo(org, opts)] && r == remote.createOrgRepo(old(log), org, opts)
    {
      r := remote.createOrgRepo(log, org, opts);
      log := log + [Call.CreateOrgRepo(org, opts)];
    }

    method AdminCreateRepo(user: string, opts: CreateRepoOption) returns (r: Reply<Repository>)
      modifies this
      ensures log == old(log) + [Call.AdminCreateRepo(user, opts)] && r == remote.adminCreateRepo(old(log), user, opts)
    {
      r := remote.adminCreateRepo(log, user, opts);
      log := log + [Call.AdminCreateRepo(user, opts)];
    }

    method CreateRepo(opts: CreateRepoOption) returns (r: Reply<Repository>)
      modifies this
      ensures log == old(log) + [Call.CreateRepo(opts)] && r == remote.createRepo(old(log), opts)
    {
      r := remote.createRepo(log, opts);
      log := log + [Call.CreateRepo(opts)];
    }

    method EditRepo(owner: string, repo: string, opts: EditRepoOption) returns (r: Reply<Repository>)
      modifies this
      ensures log == old(log) + [Call.EditRepo(owner, repo, opts)] && r == remote.editRepo(old(log), owner, repo, opts)
    {
      r := remote.editRepo(log, owner, repo, opts);
      log := log + [Call.EditRepo(owner, repo, opts)];
    }

    method DeleteRepo(owner: string, repo: string) returns (r: Reply<()>)
      modifies this
      ensures log == old(log) + [Call.DeleteRepo(owner, repo)] && r == remote.deleteRepo(old(log), owner, repo)
    {
      r := remote.deleteRepo(log, owner, repo);
      log := log + [Call.DeleteRepo(owner, repo)];
    }

    method CreateFork(owner: string, repo: string, opts: CreateForkOption) returns (r: Reply<Repository>)
      modifies this
      ensures log == old(log) + [Call.CreateFork(owner, repo, opts)] && r == remote.createFork(old(log), owner, repo, opts)
    {
      r := remote.createFork(log, owner, repo, opts);
      log := log + [Call.CreateFork(owner, repo, opts)];
    }

    method GetTeam(id: int) returns (r: Reply<Team>)
      modifies this
      ensures log == old(log) + [Call.GetTeam(id)] && r == remote.getTeam(old(log), id)
    {
      r := remote.getTeam(log, id);
      log := log + [Call.GetTeam(id)];
    }

    method CreateTeam(org: string, opts: CreateTeamOption) returns (r: Reply<Team>)
      modifies this
      ensures log == old(log) + [Call.CreateTeam(org, opts)] && r == remote.createTeam(old(log), org, opts)
    {
      r := remote.createTeam(log, org, opts);
      log := log + [Call.CreateTeam(org, opts)];
    }

    method EditTeam(id: int, opts: EditTeamOption) returns (r: Reply<()>)
      modifies this
      ensures log == old(log) + [Call.EditTeam(id, opts)] && r == remote.editTeam(old(log), id, opts)
    {
      r := remote.editTeam(log, id, opts);
      log := log + [Call.EditTeam(id, opts)];
    }

    method DeleteTeam(id: int) returns (r: Reply<()>)
      modifies this
      ensures log == old(log) + [Call.DeleteTeam(id)] && r == remote.deleteTeam(old(log), id)
    {
      r := remote.deleteTeam(log, id);
      log := log + [Call.DeleteTeam(id)];
    }

    method AddTeamMember(id: int, user: string) returns (r: Reply<()>)
      modifies this
      ensures log == old(log) + [Call.AddTeamMember(id, user)] && r == remote.addTeamMember(old(log), id, user)
    {
      r := remote.addTeamMember(log, id, user);
      log := log + [Call.AddTeamMember(id, user)];
    }

    method AddTeamRepository(id: int, org: string, repo: string) returns (r: Reply<()>)
      modifies this
      ensures log == old(log) + [Call.AddTeamRepository(id, org, repo)]
      ensures r == remote.addTeamRepository(old(log), id, org, repo)
    {
      r := remote.addTeamRepository(log, id, org, repo);
      log := log + [Call.AddTeamRepository(id, org, repo)];
    }

    method RemoveTeamRepository(id: int, org: string, repo: string) returns (r: Reply<()>)
      modifies this
      ensures log == old(log) + [Call.RemoveTeamRepository(id, org, repo)]
      ensures r == remote.removeTeamRepository(old(log), id, org, repo)
    {
      r := remote.removeTeamRepository(log, id, org, repo);
      log := log + [Call.RemoveTeamRepository(id, org, repo)];
    }

    method CreateOauth2(opts: CreateOauth2Option) returns (r: Reply<Oauth2>)
      modifies this
      ensures log == old(log) + [Call.CreateOauth2(opts)] && r == remote.createOauth2(old(log), opts)
    {
      r := remote.createOauth2(log, opts);
      log := log + [Call.CreateOauth2(opts)];
    }

    method UpdateOauth2(id: int, opts: CreateOauth2Option) returns (r: Reply<Oauth2>)
      modifies this
      ensures log == old(log) + [Call.UpdateOauth2(id, opts)] && r == remote.updateOauth2(old(log), id, opts)
    {
      r := remote.updateOauth2(log, id, opts);
      log := log + [Call.UpdateOauth2(id, opts)];
    }

    method DeleteOauth2(id: int) returns (r: Reply<()>)
      modifies this
      ensures log == old(log) + [Call.DeleteOauth2(id)] && r == remote.deleteOauth2(old(log), id)
    {
      r := remote.deleteOauth2(log, id);
      log := log + [Call.DeleteOauth2(id)];
    }

    method GetDeployKey(owner: string, repo: string, id: int) returns (r: Reply<DeployKey>)
      modifies this
      ensures log == old(log) + [Call.GetDeployKey(owner, repo, id)] && r == remote.getDeployKey(old(log), owner, repo, id)
    {
      r := remote.getDeployKey(log, owner, repo, id);
      log := log + [Call.GetDeployKey(owner, repo, id)];
    }

    method CreateDeployKey(owner: string, repo: string, opts: CreateKeyOption) returns (r: Reply<DeployKey>)
      modifies this
      ensures log == old(log) + [Call.CreateDeployKey(owner, repo, opts)]
      ensures r == remote.createDeployKey(old(log), owner, repo, opts)
    {
      r := remote.createDeployKey(log, owner, repo, opts);
      log := log + [Call.CreateDeployKey(owner, repo, opts)];
    }

    method DeleteDeployKey(owner: string, repo: string, id: int) returns (r: Reply<()>)
      modifies this
      ensures log == old(log) + [Call.DeleteDeployKey(owner, repo, id)]
      ensures r == remote.deleteDeployKey(old(log), owner, repo, id)
    {
      r := remote.deleteDeployKey(log, owner, repo, id);
      log := log + [Call.DeleteDeployKey(owner, repo, id)];
    }

    method GetUserByID(id: int) returns (r: Reply<User>)
      modifies this
      ensures log == old(log) + [Call.GetUserByID(id)] && r == remote.getUserByID(old(log), id)
    {
      r := remote.getUserByID(log, id);
      log := log + [Call.GetUserByID(id)];
    }

    method AdminCreateUser(opts: CreateUserOption) returns (r: Reply<User>)
      modifies this
      ensures log == old(log) + [Call.AdminCreateUser(opts)] && r == remote.adminCreateUser(old(log), opts)
    {
      r := remote.adminCreateUser(log, opts);
      log := log + [Call.AdminCreateUser(opts)];
    }

    method AdminEditUser(user: string, opts: EditUserOption) returns (r: Reply<()>)
      modifies this
      ensures log == old(log) + [Call.AdminEditUser(user, opts)] && r == remote.adminEditUser(old(log), user, opts)
    {
      r := remote.adminEditUser(log, user, opts);
      log := log + [Call.AdminEditUser(user, opts)];
    }

    method AdminDeleteUser(user: string) returns (r: Reply<()>)
      modifies this
      ensures log == old(log) + [Call.AdminDeleteUser(user)] && r == remote.adminDeleteUser(old(log), user)
    {
      r := remote.adminDeleteUser(log, user);
      log := log + [Call.AdminDeleteUser(user)];
    }

    method GetPublicKey(id: int) returns (r: Reply<PublicKey>)
      modifies this
      ensures log == old(log) + [Call.GetPublicKey(id)] && r == remote.getPublicKey(old(log), id)
    {
      r := remote.getPublicKey(log, id);
      log := log + [Call.GetPublicKey(id)];
    }

    method AdminCreateUserPublicKey(user: string, opts: CreateKeyOption) returns (r: Reply<PublicKey>)
      modifies this
      ensures log == old(log) + [Call.AdminCreateUserPublicKey(user, opts)]
      ensures r == remote.adminCreateUserPublicKey(old(log), user, opts)
    {
      r := remote.adminCreateUserPublicKey(log, user, opts);
      log := log + [Call.AdminCreateUserPublicKey(user, opts)];
    }

    method AdminDeleteUserPublicKey(user: string, id: int) returns (r: Reply<()>)
      modifies this
      ensures log == old(log) + [Call.AdminDeleteUserPublicKey(user, id)]
      ensures r == remote.adminDeleteUserPublicKey(old(log), user, id)
    {
      r := remote.adminDeleteUserPublicKey(log, user, id);
      log := log + [Call.AdminDeleteUserPublicKey(user, id)];
    }

    method GetRepoGitHook(user: string, repo: string, hook: string) returns (r: Reply<GitHook>)
      modifies this
      ensures log == old(log) + [Call.GetRepoGitHook(user, repo, hook)]
      ensures r == remote.getRepoGitHook(old(log), user, repo, hook)
    {
      r := remote.getRepoGitHook(log, user, repo, hook);
      log := log + [Call.GetRepoGitHook(user, repo, hook)];
    }

    method EditRepoGitHook(user: string, repo: string, hook: string, opts: EditGitHookOption) returns (r: Reply<()>)
      modifies this
      ensures log == old(log) + [Call.EditRepoGitHook(user, repo, hook, opts)]
      ensures r == remote.editRepoGitHook(old(log), user, repo, hook, opts)
    {
      r := remote.editRepoGitHook(log, user, repo, hook, opts);
      log := log + [Call.EditRepoGitHook(user, repo, hook, opts)];
    }

    method DeleteRepoGitHook(user: string, repo: string, hook: string) returns (r: Reply<()>)
      modifies this
      ensures log == old(log) + [Call.DeleteRepoGitHook(user, repo, hook)]
      ensures r == remote.deleteRepoGitHook(old(log), user, repo, hook)
    {
      r := remote.deleteRepoGitHook(log, user, repo, hook);
      log := log + [Call.DeleteRepoGitHook(user, repo, hook)];
    }
  }

  /** The paging loop shared by the three lookups: fetch pages 1, 2, ... (each a request of
      size PageSize, answered after the requests before it), return the first element
      satisfying `key`, stop at the first empty page or at the first failed fetch. It is the
      search over the pages as they were fetched, and it fetches exactly `r.page` pages. */
  method Find<T>(c: Client, feed: Feed<T>, key: T -> bool) returns (r: Lookup<T>)
    modifies c
    ensures r == Search(Observed(feed, old(c.log)), key, 1)
    ensures c.log == old(c.log) + PageCalls(feed, r.page)
  {
    ghost var pages := Observed(feed, c.log);
    var page := 1;
    while true
      invariant 1 <= page <= feed.bound + 1
      invariant Search(pages, key, page) == Search(pages, key, 1)
      invariant c.log == old(c.log) + PageCalls(feed, page - 1)
      decreases feed.bound + 1 - page
    {
      ghost var before := c.log;
      var reply := c.FetchPage(feed, page);
      assert reply == PageAt(pages, page) by {
        ObservedPage(feed, old(c.log), page);
      }
      assert c.log == old(c.log) + PageCalls(feed, page) by {
        assert PageCalls(feed, page) == PageCalls(feed, page - 1) + [feed.request(page)];
        assert before == old(c.log) + PageCalls(feed, page - 1);
      }
      if reply.Fail? {
        assert Search(pages, key, page) == ListError(reply.msg, page);
        return ListError(reply.msg, page);
      }
      var items := reply.value;
      if items == [] {
        assert Search(pages, key, page) == Exhausted(page);
        return Exhausted(page);
      }
      var i := 0;
      while i < |items|
        invariant 0 <= i <= |items|
        invariant forall j :: 0 <= j < i ==> !key(items[j])
      {
        if key(items[i]) {
          assert FirstMatch(items, key) == i;
          assert Search(pages, key, page) == Hit(items[i], page, i);
          return Hit(items[i], page, i);
        }
        i := i + 1;
      }
      assert FirstMatch(items, key) == |items|;
      assert Search(pages, key, page) == Search(pages, key, page + 1);
      page := page + 1;
    }
  }
}
