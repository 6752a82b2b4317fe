/** The `gitea_git_hook` resource: the content of one of a repository's server-side git
    hooks, kept in the state under the ID "<user>/<repo>/<hook name>". Every hook exists on
    the server (empty and disabled), so creating one is editing it. */
module GitHookResource {
  import opened Results
  import opened Strings
  import opened State
  import opened GiteaClient

  // ----- attribute keys -----

  const HookUser := "user"
  const HookRepo := "repo"
  const HookName := "name"
  const HookContent := "content"

  // ----- setGitHookResourceData -----

  /** fmt.Sprintf("%s/%s/%s", user, repo, name). */
  function HookId(user: string, repo: string, name: string): string {
    user + "/" + repo + "/" + name
  }

  /** The ID names its hook: when no part holds a "/", splitting it gives the parts back. */
  lemma HookIdParts(user: string, repo: string, name: string)
    requires '/' !in user && '/' !in repo && '/' !in name
    ensures Split(HookId(user, repo, name), '/') == [user, repo, name]
  {
    SplitWithoutSeparator(name, '/');
    SplitAtSeparator(repo, '/', name);
    SplitAtSeparator(user, '/', repo + "/" + name);
    assert HookId(user, repo, name) == user + "/" + (repo + "/" + name);
  }

  function HookAttributes(user: string, repo: string, hook: GitHook): seq<(string, Value)> {
    [(HookUser, Text(user)), (HookRepo, Text(repo)), (HookName, Text(hook.name)), (HookContent, Text(hook.content))]
  }

  /** The state after a write-back: the ID and the name are the fetched hook's. */
  predicate HookWritten(user: string, repo: string, hook: GitHook, f: Fields, newId: string, newFields: Fields) {
    newId == HookId(user, repo, hook.name) && newFields == Assign(f, HookAttributes(user, repo, hook))
  }

  method SetGitHookResourceData(user: string, repo: string, hook: GitHook, d: ResourceData)
    modifies d
    ensures HookWritten(user, repo, hook, old(d.fields), d.id, d.fields)
  {
    d.SetId(user + "/" + repo + "/" + hook.name);
    d.SetAll(HookAttributes(user, repo, hook));
  }

  /** After a write-back the attributes read as the hook that was fetched. */
  lemma HookWriteBack(user: string, repo: string, hook: GitHook, f: Fields, newId: string, newFields: Fields)
    requires HookWritten(user, repo, hook, f, newId, newFields)
    ensures GetString(newFields, HookName) == hook.name
    ensures GetString(newFields, HookContent) == hook.content
    ensures GetString(newFields, HookUser) == user && GetString(newFields, HookRepo) == repo
  {
    var pairs := HookAttributes(user, repo, hook);
    LastWriteAt(pairs, HookUser, 0);
    LastWriteAt(pairs, HookRepo, 1);
    LastWriteAt(pairs, HookName, 2);
    LastWriteAt(pairs, HookContent, 3);
    AssignAt(f, pairs, HookUser);
    AssignAt(f, pairs, HookRepo);
    AssignAt(f, pairs, HookName);
    AssignAt(f, pairs, HookContent);
  }

  // ----- resourceGitHookRead -----

  /** The read fetches the configured hook; any failure, a 404 included, is returned, and the
      ID is never cleared. */
  method GitHookRead(d: ResourceData, c: Client) returns (out: Outcome)
    modifies d, c
    ensures var user, repo, name := GetString(old(d.fields), HookUser), GetString(old(d.fields), HookRepo), GetString(old(d.fields), HookName);
      var g := c.remote.getRepoGitHook(old(c.log), user, repo, name);
      && c.log == old(c.log) + [Call.GetRepoGitHook(user, repo, name)]
      && (g.Fail? ==> out == Error(g.msg) && d.id == old(d.id) && d.fields == old(d.fields))
      && (g.Ok? ==> out == Done && HookWritten(user, repo, g.value, old(d.fields), d.id, d.fields))
  {
    var user, repo, name := GetString(d.fields, HookUser), GetString(d.fields, HookRepo), GetString(d.fields, HookName);
    var g := c.GetRepoGitHook(user, repo, name);
    if g.Fail? {
      return Error(g.msg);
    }
    SetGitHookResourceData(user, repo, g.value, d);
    out := Done;
  }

  // ----- resourceGitHookUpdate (also the create) -----

  /** The update writes the configured content; a failed edit is returned without a fetch;
      otherwise the hook is fetched again, a failed fetch is returned, and the fetched hook is
      written back. */
  predicate UpdateRan(remote: Remote, log0: seq<Call>, f: Fields, id0: string, out: Outcome,
                      log: seq<Call>, newId: string, newFields: Fields)
  {
    var user, repo, name := GetString(f, HookUser), GetString(f, HookRepo), GetString(f, HookName);
    var opts := EditGitHookOption(GetString(f, HookContent));
    var e := remote.editRepoGitHook(log0, user, repo, name, opts);
    var log1 := log0 + [Call.EditRepoGitHook(user, repo, name, opts)];
    && (e.Fail? ==> out == Error(e.msg) && log == log1 && newId == id0 && newFields == f)
    && (e.Ok? ==>
          var g := remote.getRepoGitHook(log1, user, repo, name);
          && log == log1 + [Call.GetRepoGitHook(user, repo, name)]
          && (g.Fail? ==> out == Error(g.msg) && newId == id0 && newFields == f)
          && (g.Ok? ==> out == Done && HookWritten(user, repo, g.value, f, newId, newFields)))
  }

  method GitHookUpdate(d: ResourceData, c: Client) returns (out: Outcome)
    modifies d, c
    ensures UpdateRan(c.remote, old(c.log), old(d.fields), old(d.id), out, c.log, d.id, d.fields)
  {
    var user, repo, name := GetString(d.fields, HookUser), GetString(d.fields, HookRepo), GetString(d.fields, HookName);
    var e := c.EditRepoGitHook(user, repo, name, EditGitHookOption(GetString(d.fields, HookContent)));
    if e.Fail? {
      return Error(e.msg);
    }
    var g := c.GetRepoGitHook(user, repo, name);
    if g.Fail? {
      return Error(g.msg);
    }
    SetGitHookResourceData(user, repo, g.value, d);
    out := Done;
  }

  /** The create is the update: the framework's Create entry runs the same handler. */
  method GitHookCreate(d: ResourceData, c: Client) returns (out: Outcome)
    modifies d, c
    ensures UpdateRan(c.remote, old(c.log), old(d.fields), old(d.id), out, c.log, d.id, d.fields)
  {
    out := GitHookUpdate(d, c);
  }

  /** An update that succeeds stores the content the server reports after the edit, under
      the ID of the hook the configured name fetched. */
  lemma UpdateStoresFetchedHook(remote: Remote, log0: seq<Call>, f: Fields, id0: string, out: Outcome,
                                log: seq<Call>, newId: string, newFields: Fields)
    requires UpdateRan(remote, log0, f, id0, out, log, newId, newFields)
    requires out == Done
    ensures |log| == |log0| + 2
    ensures var user, repo, name := GetString(f, HookUser), GetString(f, HookRepo), GetString(f, HookName);
      var g := remote.getRepoGitHook(log[..|log0| + 1], user, repo, name);
      && g.Ok?
      && newId == HookId(user, repo, g.value.name)
      && GetString(newFields, HookContent) == g.value.content
  {
    var user, repo, name := GetString(f, HookUser), GetString(f, HookRepo), GetString(f, HookName);
    var opts := EditGitHookOption(GetString(f, HookContent));
    var log1 := log0 + [Call.EditRepoGitHook(user, repo, name, opts)];
    assert log[..|log0| + 1] == log1;
    var g := remote.getRepoGitHook(log1, user, repo, name);
    HookWriteBack(user, repo, g.value, f, newId, newFields);
  }

  // ----- resourceGitHookDelete -----

  /** The delete returns the server's answer unchanged, a 404 included. */
  method GitHookDelete(d: ResourceData, c: Client) returns (out: Outcome)
    modifies c
    ensures var user, repo, name := GetString(d.fields, HookUser), GetString(d.fields, HookRepo), GetString(d.fields, HookName);
      var r := c.remote.deleteRepoGitHook(old(c.log), user, repo, name);
      && c.log == old(c.log) + [Call.DeleteRepoGitHook(user, repo, name)]
      && (r.Ok? ==> out == Done)
      && (r.Fail? ==> out == Error(r.msg))
  {
    var r := c.DeleteRepoGitHook(GetString(d.fields, HookUser), GetString(d.fields, HookRepo), GetString(d.fields, HookName));
    if r.Fail? {
      return Error(r.msg);
    }
    out := Done;
  }
}
