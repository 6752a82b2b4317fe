/** The `gitea_public_key` resource: an SSH key of a user, managed through the admin API and
    kept in the state under its decimal ID. */
module PublicKeyResource {
  import opened Results
  import opened Strings
  import opened State
  import opened GiteaClient

  // ----- attribute keys -----

  const KeyUser := "username"
  const KeyText := "key"
  const KeyReadOnly := "read_only"
  const KeyTitle := "title"
  const KeyFingerprint := "fingerprint"
  const KeyCreated := "created"
  const KeyType := "type"

  // ----- setPublicKeyResourceData -----

  /** The owner is kept as configured (the server's record does not name it); the rest comes
      from the server's record. */
  function KeyAttributes(key: PublicKey, f: Fields): seq<(string, Value)> {
    [ (KeyUser, Text(GetString(f, KeyUser))), (KeyText, Text(key.key)), (KeyTitle, Text(key.title)),
      (KeyReadOnly, Flag(key.readOnly)), (KeyCreated, Text(key.created)),
      (KeyFingerprint, Text(key.fingerprint)), (KeyType, Text(key.keyType)) ]
  }

  predicate KeyWritten(key: PublicKey, f: Fields, newId: string, newFields: Fields) {
    newId == FormatInt(key.id) && newFields == Assign(f, KeyAttributes(key, f))
  }

  method SetPublicKeyResourceData(key: PublicKey, d: ResourceData)
    modifies d
    ensures KeyWritten(key, old(d.fields), d.id, d.fields)
  {
    d.SetId(FormatInt(key.id));
    d.SetAll(KeyAttributes(key, d.fields));
  }

  /** After a write-back the owner is the configured one, and the key text and title are
      the server's. */
  lemma KeyWriteBack(key: PublicKey, f: Fields, newId: string, newFields: Fields)
    requires KeyWritten(key, f, newId, newFields)
    ensures GetString(newFields, KeyUser) == GetString(f, KeyUser)
    ensures GetString(newFields, KeyText) == key.key
    ensures GetString(newFields, KeyTitle) == key.title
  {
    var pairs := KeyAttributes(key, f);
    LastWriteAt(pairs, KeyUser, 0);
    LastWriteAt(pairs, KeyText, 1);
    LastWriteAt(pairs, KeyTitle, 2);
    AssignAt(f, pairs, KeyUser);
    AssignAt(f, pairs, KeyText);
    AssignAt(f, pairs, KeyTitle);
  }

  // ----- resourcePublicKeyRead -----

  /** The read parses the ID (a parse error is dropped) and fetches that key; a 404 clears
      the ID, another failure is returned, and a found key is written back. */
  method PublicKeyRead(d: ResourceData, c: Client) returns (out: Outcome)
    modifies d, c
    ensures var id := ParseInt(old(d.id)).value;
      var g := c.remote.getPublicKey(old(c.log), id);
      && c.log == old(c.log) + [Call.GetPublicKey(id)]
      && (g.Fail? ==> GoneOrFailed(g, out, old(d.id), old(d.fields), d.id, d.fields))
      && (g.Ok? ==> out == Done && KeyWritten(g.value, old(d.fields), d.id, d.fields))
  {
    var p := ParseInt(d.id);
    var g := c.GetPublicKey(p.value);
    if g.Fail? {
      if g.status == 404 {
        d.SetId("");
        return Done;
      }
      return Error(g.msg);
    }
    SetPublicKeyResourceData(g.value, d);
    out := Done;
  }

  // ----- resourcePublicKeyCreate -----

  function CreateOptions(f: Fields): CreateKeyOption {
    CreateKeyOption(GetString(f, KeyTitle), GetString(f, KeyText), GetBool(f, KeyReadOnly))
  }

  /** The create sends one request for the configured owner. Its error is not checked: a
      failure leaves no record to write back, and the handler crashes. */
  predicate CreateRan(remote: Remote, log0: seq<Call>, f: Fields, id0: string, out: Outcome,
                      log: seq<Call>, newId: string, newFields: Fields)
  {
    var user := GetString(f, KeyUser);
    var r := remote.adminCreateUserPublicKey(log0, user, CreateOptions(f));
    && log == log0 + [Call.AdminCreateUserPublicKey(user, CreateOptions(f))]
    && (r.Fail? ==> out == Crash && newId == id0 && newFields == f)
    && (r.Ok? ==> out == Done && KeyWritten(r.value, f, newId, newFields))
  }

  method PublicKeyCreate(d: ResourceData, c: Client) returns (out: Outcome)
    modifies d, c
    ensures CreateRan(c.remote, old(c.log), old(d.fields), old(d.id), out, c.log, d.id, d.fields)
  {
    var opts := CreateKeyOption(GetString(d.fields, KeyTitle), GetString(d.fields, KeyText), GetBool(d.fields, KeyReadOnly));
    var r := c.AdminCreateUserPublicKey(GetString(d.fields, KeyUser), opts);
    if r.Fail? {
      return Crash;
    }
    SetPublicKeyResourceData(r.value, d);
    out := Done;
  }

  // ----- resourcePublicKeyDelete -----

  /** The delete as written: the key named by the ID (a parse error is dropped) is deleted
      for the configured owner; a 404 takes the bare `return`, which hands back the named
      result still holding the delete's error, so deleting a key that is already gone fails. */
  method PublicKeyDelete(d: ResourceData, c: Client) returns (out: Outcome)
    modifies c
    ensures var user, id := GetString(d.fields, KeyUser), ParseInt(d.id).value;
      var r := c.remote.adminDeleteUserPublicKey(old(c.log), user, id);
      && c.log == old(c.log) + [Call.AdminDeleteUserPublicKey(user, id)]
      && (r.Ok? ==> out == Done)
      && (r.Fail? ==> out == Error(r.msg))
  {
    var p := ParseInt(d.id);
    var r := c.AdminDeleteUserPublicKey(GetString(d.fields, KeyUser), p.value);
    if r.Fail? {
      // the bare `return` hands back the 404 error: the same outcome as below
      if r.status == 404 {
        return Error(r.msg);
      }
      return Error(r.msg);
    }
    out := Done;
  }

  /** The delete as evidently intended: a key that is already gone counts as deleted. */
  method PublicKeyDeleteFixed(d: ResourceData, c: Client) returns (out: Outcome)
    modifies c
    ensures var user, id := GetString(d.fields, KeyUser), ParseInt(d.id).value;
      var r := c.remote.adminDeleteUserPublicKey(old(c.log), user, id);
      && c.log == old(c.log) + [Call.AdminDeleteUserPublicKey(user, id)]
      && (r.Ok? || r.IsNotFound() ==> out == Done)
      && (r.Fail? && !r.IsNotFound() ==> out == Error(r.msg))
  {
    var p := ParseInt(d.id);
    var r := c.AdminDeleteUserPublicKey(GetString(d.fields, KeyUser), p.value);
    if r.Fail? {
      if r.status == 404 {
        return Done;
      }
      return Error(r.msg);
    }
    out := Done;
  }

  // ----- resourcePublicKeyUpdate -----

  /** An update is a delete of the old key followed by a create: whatever the delete
      answers, the create runs, and the update's outcome is the create's (a failed create
      crashes the handler; a failed delete is never reported). */
  method PublicKeyUpdate(d: ResourceData, c: Client) returns (out: Outcome)
    modifies d, c
    ensures var user, id := GetString(old(d.fields), KeyUser), ParseInt(old(d.id)).value;
      var log1 := old(c.log) + [Call.AdminDeleteUserPublicKey(user, id)];
      CreateRan(c.remote, log1, old(d.fields), old(d.id), out, c.log, d.id, d.fields)
  {
    var _ := PublicKeyDelete(d, c);
    out := PublicKeyCreate(d, c);
  }

  /** An update never ends in an error: it succeeds, or crashes because the create failed. */
  lemma UpdateNeverErrs(remote: Remote, log0: seq<Call>, f: Fields, id0: string, out: Outcome,
                        log: seq<Call>, newId: string, newFields: Fields)
    requires CreateRan(remote, log0, f, id0, out, log, newId, newFields)
    ensures out == Done || out == Crash
    ensures out == Crash <==> remote.adminCreateUserPublicKey(log0, GetString(f, KeyUser), CreateOptions(f)).Fail?
  {
  }
}
