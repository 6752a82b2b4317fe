/** The `gitea_repository_key` resource: a deploy key of a repository, kept in the state
    under the composite ID "<repository ID>/<key ID>". */
module RepositoryKeyResource {
  import opened Results
  import opened Strings
  import opened State
  import opened GiteaClient

  // ----- attribute keys -----

  const KeyRepoId := "repository"
  const KeyTitle := "title"
  const KeyKey := "key"
  const KeyReadOnly := "read_only"

  // ----- the composite ID -----

  /** What resourceRepoKeyIdParts returns: whether the ID has the composite shape, the two
      numbers, and the parse error. */
  datatype KeyIdParts = KeyIdParts(hasId: bool, repoId: int, keyId: int, err: Option<string>)

  /** An ID that does not split into exactly two pieces at "/" is no composite ID at all (no
      error); a piece that is no base-10 int64 is an error with both numbers zero. */
  function IdParts(id: string): (r: KeyIdParts)
    ensures r.hasId <==> multiset(id)['/'] == 1
    ensures !r.hasId ==> r == KeyIdParts(false, 0, 0, None)
    ensures r.err.Some? ==> r.repoId == 0 && r.keyId == 0
    ensures MinInt64 <= r.repoId <= MaxInt64 && MinInt64 <= r.keyId <= MaxInt64
  {
    SplitCount(id, '/');
    var parts := Split(id, '/');
    if |parts| != 2 then KeyIdParts(false, 0, 0, None)
    else
      var repoId := ParseInt(parts[0]);
      if repoId.err.Some? then KeyIdParts(true, 0, 0, repoId.err)
      else
        var keyId := ParseInt(parts[1]);
        if keyId.err.Some? then KeyIdParts(true, 0, 0, keyId.err)
        else KeyIdParts(true, repoId.value, keyId.value, None)
  }

  /** fmt.Sprintf("%d/%d", repoId, keyId). */
  function KeyId(repoId: int, keyId: int): string {
    FormatInt(repoId) + "/" + FormatInt(keyId)
  }

  /** Round trip: the ID a write-back stores parses back to the same two numbers. */
  lemma KeyIdRoundTrip(repoId: int, keyId: int)
    requires MinInt64 <= repoId <= MaxInt64 && MinInt64 <= keyId <= MaxInt64
    ensures IdParts(KeyId(repoId, keyId)) == KeyIdParts(true, repoId, keyId, None)
  {
    var a, b := FormatInt(repoId), FormatInt(keyId);
    FormatIntHasNoSeparator(repoId, '/');
    FormatIntHasNoSeparator(keyId, '/');
    SplitAtSeparator(a, '/', b);
    SplitWithoutSeparator(b, '/');
    assert Split(KeyId(repoId, keyId), '/') == [a, b];
    ParseFormatRoundTrip(repoId);
    ParseFormatRoundTrip(keyId);
  }

  // ----- setRepoKeyResourceData -----

  function KeyAttributes(repoId: int, dk: DeployKey): seq<(string, Value)> {
    [(KeyRepoId, Number(repoId)), (KeyReadOnly, Flag(dk.readOnly)), (KeyKey, Text(dk.key)), (KeyTitle, Text(dk.title))]
  }

  predicate KeyWritten(dk: DeployKey, repoId: int, f: Fields, newId: string, newFields: Fields) {
    newId == KeyId(repoId, dk.id) && newFields == Assign(f, KeyAttributes(repoId, dk))
  }

  method SetRepoKeyResourceData(dk: DeployKey, repoId: int, d: ResourceData)
    modifies d
    ensures KeyWritten(dk, repoId, old(d.fields), d.id, d.fields)
  {
    d.SetId(FormatInt(repoId) + "/" + FormatInt(dk.id));
    d.SetAll(KeyAttributes(repoId, dk));
  }

  /** After a write-back the attributes read as the key's, and the repository attribute
      holds the repository the ID names. */
  lemma KeyWriteBack(dk: DeployKey, repoId: int, f: Fields, newId: string, newFields: Fields)
    requires KeyWritten(dk, repoId, f, newId, newFields)
    ensures GetInt(newFields, KeyRepoId) == repoId
    ensures GetString(newFields, KeyKey) == dk.key && GetString(newFields, KeyTitle) == dk.title
    ensures GetBool(newFields, KeyReadOnly) == dk.readOnly
  {
    var pairs := KeyAttributes(repoId, dk);
    LastWriteAt(pairs, KeyRepoId, 0);
    LastWriteAt(pairs, KeyReadOnly, 1);
    LastWriteAt(pairs, KeyKey, 2);
    LastWriteAt(pairs, KeyTitle, 3);
    AssignAt(f, pairs, KeyRepoId);
    AssignAt(f, pairs, KeyReadOnly);
    AssignAt(f, pairs, KeyKey);
    AssignAt(f, pairs, KeyTitle);
  }

  // ----- resourceRepoKeyRead -----

  /** The read after a well-formed ID: fetch the repository, then its key; a 404 on either
      clears the ID, another failure is returned, and a found key is written back. */
  predicate ReadRan(remote: Remote, log0: seq<Call>, p: KeyIdParts, f: Fields, id0: string, out: Outcome,
                    log: seq<Call>, newId: string, newFields: Fields)
  {
    var r := remote.getRepoByID(log0, p.repoId);
    var log1 := log0 + [Call.GetRepoByID(p.repoId)];
    && (r.Fail? ==> log == log1 && GoneOrFailed(r, out, id0, f, newId, newFields))
    && (r.Ok? ==>
          var k := remote.getDeployKey(log1, r.value.ownerName, r.value.name, p.keyId);
          && log == log1 + [Call.GetDeployKey(r.value.ownerName, r.value.name, p.keyId)]
          && (k.Fail? ==> GoneOrFailed(k, out, id0, f, newId, newFields))
          && (k.Ok? ==> out == Done && KeyWritten(k.value, p.repoId, f, newId, newFields)))
  }

  method RepoKeyRead(d: ResourceData, c: Client) returns (out: Outcome)
    modifies d, c
    ensures var p := IdParts(old(d.id));
      && (p.err.Some? ==> out == Error(p.err.value) && c.log == old(c.log) && unchanged(d))
      && (p.err.None? && !p.hasId ==> out == Done && c.log == old(c.log) && d.id == "" && d.fields == old(d.fields))
      && (p.err.None? && p.hasId ==> ReadRan(c.remote, old(c.log), p, old(d.fields), old(d.id), out, c.log, d.id, d.fields))
  {
    var p := IdParts(d.id);
    if p.err.Some? {
      return Error(p.err.value);
    }
    if !p.hasId {
      d.SetId("");
      return Done;
    }
    var repo := c.GetRepoByID(p.repoId);
    if repo.Fail? {
      if repo.status == 404 {
        d.SetId("");
        return Done;
      }
      return Error(repo.msg);
    }
    var key := c.GetDeployKey(repo.value.ownerName, repo.value.name, p.keyId);
    if key.Fail? {
      if key.status == 404 {
        d.SetId("");
        return Done;
      }
      return Error(key.msg);
    }
    SetRepoKeyResourceData(key.value, p.repoId, d);
    out := Done;
  }

  // ----- resourceRepoKeyCreate -----

  function CreateOptions(f: Fields): CreateKeyOption {
    CreateKeyOption(GetString(f, KeyTitle), GetString(f, KeyKey), GetBool(f, KeyReadOnly))
  }

  /** The create fetches the configured repository and adds the key to it under its owner
      and name; the state is written only when both calls succeed, under the ID of the
      fetched repository. */
  method RepoKeyCreate(d: ResourceData, c: Client) returns (out: Outcome)
    modifies d, c
    ensures var r := c.remote.getRepoByID(old(c.log), GetInt(old(d.fields), KeyRepoId));
      var log1 := old(c.log) + [Call.GetRepoByID(GetInt(old(d.fields), KeyRepoId))];
      && (r.Fail? ==> out == Error(r.msg) && c.log == log1 && unchanged(d))
      && (r.Ok? ==>
            var opts := CreateOptions(old(d.fields));
            var k := c.remote.createDeployKey(log1, r.value.ownerName, r.value.name, opts);
            && c.log == log1 + [Call.CreateDeployKey(r.value.ownerName, r.value.name, opts)]
            && (k.Fail? ==> out == Error(k.msg) && unchanged(d))
            && (k.Ok? ==> out == Done && KeyWritten(k.value, r.value.id, old(d.fields), d.id, d.fields)))
  {
    var repo := c.GetRepoByID(GetInt(d.fields, KeyRepoId));
    if repo.Fail? {
      return Error(repo.msg);
    }
    var opts := CreateKeyOption(GetString(d.fields, KeyTitle), GetString(d.fields, KeyKey), GetBool(d.fields, KeyReadOnly));
    var dk := c.CreateDeployKey(repo.value.ownerName, repo.value.name, opts);
    if dk.Fail? {
      return Error(dk.msg);
    }
    SetRepoKeyResourceData(dk.value, repo.value.id, d);
    out := Done;
  }

  // ----- respurceRepoKeyDelete -----

  /** The delete: a malformed ID is an error; no composite ID or a repository that is gone
      clears the ID; otherwise the key is deleted and the answer ignored, so the delete
      succeeds whatever the server says. */
  method RepoKeyDelete(d: ResourceData, c: Client) returns (out: Outcome)
    modifies d, c
    ensures d.fields == old(d.fields)
    ensures var p := IdParts(old(d.id));
      && (p.err.Some? ==> out == Error(p.err.value) && c.log == old(c.log) && d.id == old(d.id))
      && (p.err.None? && !p.hasId ==> out == Done && c.log == old(c.log) && d.id == "")
      && (p.err.None? && p.hasId ==>
            var r := c.remote.getRepoByID(old(c.log), p.repoId);
            var log1 := old(c.log) + [Call.GetRepoByID(p.repoId)];
            && (r.Fail? ==> c.log == log1 && GoneOrFailed(r, out, old(d.id), old(d.fields), d.id, d.fields))
            && (r.Ok? ==>
                  && out == Done && d.id == old(d.id)
                  && c.log == log1 + [Call.DeleteDeployKey(r.value.ownerName, r.value.name, p.keyId)]))
  {
    var p := IdParts(d.id);
    if p.err.Some? {
      return Error(p.err.value);
    }
    if !p.hasId {
      d.SetId("");
      return Done;
    }
    var repo := c.GetRepoByID(p.repoId);
    if repo.Fail? {
      if repo.status == 404 {
        d.SetId("");
        return Done;
      }
      return Error(repo.msg);
    }
    var _ := c.DeleteDeployKey(repo.value.ownerName, repo.value.name, p.keyId);
    out := Done;
  }
}
