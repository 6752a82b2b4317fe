/** The `gitea_user` resource: a user managed through the admin API, kept in the state under
    its decimal ID. */
module UserResource {
  import opened Results
  import opened Strings
  import opened State
  import opened GiteaClient

  // ----- attribute keys -----

  const UserName := "username"
  const UserLoginName := "login_name"
  const UserEmail := "email"
  const UserFullName := "full_name"
  const UserPassword := "password"
  const UserMustChangePassword := "must_change_password"
  const UserSendNotification := "send_notification"
  const UserVisibility := "visibility"
  const UserDescription := "description"
  const UserLocation := "location"
  const UserActive := "active"
  const UserAdmin := "admin"
  const UserAllowGitHook := "allow_git_hook"
  const UserAllowLocalImport := "allow_import_local"
  const UserMaxRepoCreation := "max_repo_creation"
  const UserProhibitLogin := "prohibit_login"
  const UserAllowCreateOrgs := "allow_create_organization"
  const UserRestricted := "restricted"
  const UserForcePasswordChange := "force_password_change"

  // ----- setUserResourceData -----

  /** The attributes taken from the server's record. */
  function ServerAttributes(user: User): seq<(string, Value)> {
    [ (UserName, Text(user.userName)), (UserEmail, Text(user.email)), (UserFullName, Text(user.fullName)),
      (UserAdmin, Flag(user.isAdmin)), ("created", Text(user.created)), ("avatar_url", Text(user.avatarURL)),
      ("last_login", Text(user.lastLogin)), ("language", Text(user.language)) ]
  }

  /** The other configurable attributes, read from the state and written back as they were
      (an unset one as its zero value). */
  function CopiedAttributes(f: Fields): seq<(string, Value)> {
    [ (UserLoginName, Text(GetString(f, UserLoginName))),
      (UserMustChangePassword, Flag(GetBool(f, UserMustChangePassword))),
      (UserSendNotification, Flag(GetBool(f, UserSendNotification))),
      (UserVisibility, Text(GetString(f, UserVisibility))),
      (UserDescription, Text(GetString(f, UserDescription))),
      (UserLocation, Text(GetString(f, UserLocation))),
      (UserActive, Flag(GetBool(f, UserActive))),
      (UserAllowGitHook, Flag(GetBool(f, UserAllowGitHook))),
      (UserAllowLocalImport, Flag(GetBool(f, UserAllowLocalImport))),
      (UserMaxRepoCreation, Number(GetInt(f, UserMaxRepoCreation))),
      (UserProhibitLogin, Flag(GetBool(f, UserProhibitLogin))),
      (UserAllowCreateOrgs, Flag(GetBool(f, UserAllowCreateOrgs))),
      (UserRestricted, Flag(GetBool(f, UserRestricted))),
      (UserForcePasswordChange, Flag(GetBool(f, UserForcePasswordChange))) ]
  }

  /** The state after setUserResourceData(user, d): the server's attributes, then the copied
      ones (each of which reads a key the first group does not write). */
  predicate UserWritten(user: User, f: Fields, newId: string, newFields: Fields) {
    newId == FormatInt(user.id) && newFields == Assign(Assign(f, ServerAttributes(user)), CopiedAttributes(f))
  }

  method SetUserResourceData(user: User, d: ResourceData)
    modifies d
    ensures UserWritten(user, old(d.fields), d.id, d.fields)
  {
    var f := d.fields;
    d.SetId(FormatInt(user.id));
    d.SetAll(ServerAttributes(user));
    d.SetAll(CopiedAttributes(f));
  }

  /** After a write-back the identity attributes read as the server's record. */
  lemma UserWriteBackIdentity(user: User, f: Fields, newId: string, newFields: Fields)
    requires UserWritten(user, f, newId, newFields)
    ensures GetString(newFields, UserName) == user.userName
    ensures GetString(newFields, UserEmail) == user.email
    ensures GetBool(newFields, UserAdmin) == user.isAdmin
  {
    var server, copied := ServerAttributes(user), CopiedAttributes(f);
    var mid := Assign(f, server);
    assert GetString(newFields, UserName) == user.userName by {
      LastWriteAt(server, UserName, 0); AssignAt(f, server, UserName);
      LastWriteNone(copied, UserName); AssignAt(mid, copied, UserName);
    }
    assert GetString(newFields, UserEmail) == user.email by {
      LastWriteAt(server, UserEmail, 1); AssignAt(f, server, UserEmail);
      LastWriteNone(copied, UserEmail); AssignAt(mid, copied, UserEmail);
    }
    assert GetBool(newFields, UserAdmin) == user.isAdmin by {
      LastWriteAt(server, UserAdmin, 3); AssignAt(f, server, UserAdmin);
      LastWriteNone(copied, UserAdmin); AssignAt(mid, copied, UserAdmin);
    }
  }

  /** After a write-back the configured attributes read as they did before. */
  lemma UserWriteBackCopies(user: User, f: Fields, newId: string, newFields: Fields)
    requires UserWritten(user, f, newId, newFields)
    ensures GetString(newFields, UserLoginName) == GetString(f, UserLoginName)
    ensures GetString(newFields, UserVisibility) == GetString(f, UserVisibility)
    ensures GetInt(newFields, UserMaxRepoCreation) == GetInt(f, UserMaxRepoCreation)
    ensures GetBool(newFields, UserForcePasswordChange) == GetBool(f, UserForcePasswordChange)
  {
    var copied := CopiedAttributes(f);
    var mid := Assign(f, ServerAttributes(user));
    assert GetString(newFields, UserLoginName) == GetString(f, UserLoginName) by {
      LastWriteAt(copied, UserLoginName, 0); AssignAt(mid, copied, UserLoginName);
    }
    assert GetString(newFields, UserVisibility) == GetString(f, UserVisibility) by {
      LastWriteAt(copied, UserVisibility, 3); AssignAt(mid, copied, UserVisibility);
    }
    assert GetInt(newFields, UserMaxRepoCreation) == GetInt(f, UserMaxRepoCreation) by {
      LastWriteAt(copied, UserMaxRepoCreation, 9); AssignAt(mid, copied, UserMaxRepoCreation);
    }
    assert GetBool(newFields, UserForcePasswordChange) == GetBool(f, UserForcePasswordChange) by {
      LastWriteAt(copied, UserForcePasswordChange, 13); AssignAt(mid, copied, UserForcePasswordChange);
    }
  }

  // ----- resourceUserRead -----

  /** The read parses the ID (a parse error is dropped) and fetches that user; a 404 clears
      the ID, another failure is returned, and a found user is written back. */
  method UserRead(d: ResourceData, c: Client) returns (out: Outcome)
    modifies d, c
    ensures var id := ParseInt(old(d.id)).value;
      var g := c.remote.getUserByID(old(c.log), id);
      && c.log == old(c.log) + [Call.GetUserByID(id)]
      && (g.Fail? ==> GoneOrFailed(g, out, old(d.id), old(d.fields), d.id, d.fields))
      && (g.Ok? ==> out == Done && UserWritten(g.value, old(d.fields), d.id, d.fields))
  {
    var p := ParseInt(d.id);
    var g := c.GetUserByID(p.value);
    if g.Fail? {
      if g.status == 404 {
        d.SetId("");
        return Done;
      }
      return Error(g.msg);
    }
    SetUserResourceData(g.value, d);
    out := Done;
  }

  // ----- request payloads -----

  function CreateOptions(f: Fields): CreateUserOption {
    CreateUserOption(0, GetString(f, UserLoginName), GetString(f, UserName), GetString(f, UserFullName),
      GetString(f, UserEmail), GetString(f, UserPassword), GetBool(f, UserMustChangePassword),
      GetBool(f, UserSendNotification), GetString(f, UserVisibility))
  }

  /** The edit payload with a given password ("" leaves the password out). */
  function EditWith(f: Fields, password: string): EditUserOption {
    EditUserOption(0, GetString(f, UserLoginName), GetString(f, UserEmail), GetString(f, UserFullName),
      password, GetString(f, UserDescription), GetBool(f, UserMustChangePassword),
      GetString(f, UserLocation), GetBool(f, UserActive), GetBool(f, UserAdmin),
      GetBool(f, UserAllowGitHook), GetBool(f, UserAllowLocalImport), GetInt(f, UserMaxRepoCreation),
      GetBool(f, UserProhibitLogin), GetBool(f, UserAllowCreateOrgs), GetBool(f, UserRestricted),
      GetString(f, UserVisibility))
  }

  /** The edit payload the update sends: the password only under force_password_change. */
  function EditOptions(f: Fields): EditUserOption {
    if GetBool(f, UserForcePasswordChange) then EditWith(f, GetString(f, UserPassword)) else EditWith(f, "")
  }

  /** The password reaches the server exactly when force_password_change is set and a
      password is configured. */
  lemma PasswordSentOnlyWhenForced(f: Fields)
    ensures EditOptions(f).password != "" <==> GetBool(f, UserForcePasswordChange) && GetString(f, UserPassword) != ""
    ensures EditOptions(f).password != "" ==> EditOptions(f).password == GetString(f, UserPassword)
  {
  }

  /** Apart from the password, the payload does not depend on force_password_change or on
      the configured password: both branches of the update send the same other fields. */
  lemma EditIgnoresForceFlag(f: Fields, force: Value, password: Value)
    ensures EditOptions(f[UserForcePasswordChange := force][UserPassword := password]).(password := "")
         == EditOptions(f).(password := "")
  {
    var g := f[UserForcePasswordChange := force][UserPassword := password];
    forall k | k in EditKeys
      ensures (k in g <==> k in f) && (k in f ==> g[k] == f[k])
    {
      assert k != UserForcePasswordChange && k != UserPassword;
    }
    EditWithReadsEditKeys(f, g, "");
    EditOptionsWithoutPassword(f);
    EditOptionsWithoutPassword(g);
  }

  /** Leaving the password out, the payload is the one without a password. */
  lemma EditOptionsWithoutPassword(f: Fields)
    ensures EditOptions(f).(password := "") == EditWith(f, "")
  {
    var p := if GetBool(f, UserForcePasswordChange) then GetString(f, UserPassword) else "";
    assert EditOptions(f) == EditWith(f, p);
    var e := EditWith(f, p);
    assert e.(password := "") == EditWith(f, "");
  }

  /** The attributes the edit payload reads, the password aside. */
  const EditKeys := {UserLoginName, UserEmail, UserFullName, UserDescription, UserMustChangePassword,
                     UserLocation, UserActive, UserAdmin, UserAllowGitHook, UserAllowLocalImport,
                     UserMaxRepoCreation, UserProhibitLogin, UserAllowCreateOrgs, UserRestricted, UserVisibility}

  /** Two states that agree on EditKeys give the same payload. */
  lemma EditWithReadsEditKeys(f: Fields, g: Fields, password: string)
    requires forall k :: k in EditKeys ==> (k in g <==> k in f) && (k in f ==> g[k] == f[k])
    ensures EditWith(g, password) == EditWith(f, password)
  {
  }

  // ----- resourceUserUpdate -----

  /** The ID after the creation request an update makes for a user that is gone. */
  function IdAfterCreate(r: Reply<User>, id0: string): string {
    if r.Ok? then FormatInt(r.value.id) else id0
  }

  /** The creation an update falls back to: the request, and on success the new ID. The
      update the create then runs in turn is not followed. */
  method StartCreate(d: ResourceData, c: Client)
    modifies d, c
    ensures var r := c.remote.adminCreateUser(old(c.log), CreateOptions(old(d.fields)));
      && c.log == old(c.log) + [Call.AdminCreateUser(CreateOptions(old(d.fields)))]
      && d.id == IdAfterCreate(r, old(d.id)) && d.fields == old(d.fields)
  {
    var f := d.fields;
    var opts := CreateUserOption(0, GetString(f, UserLoginName), GetString(f, UserName), GetString(f, UserFullName),
      GetString(f, UserEmail), GetString(f, UserPassword), GetBool(f, UserMustChangePassword),
      GetBool(f, UserSendNotification), GetString(f, UserVisibility));
    var r := c.AdminCreateUser(opts);
    if r.Ok? {
      d.SetId(FormatInt(r.value.id));
    }
  }

  /** The second half of an update, after the history `log0`: edit the user by name; a
      failed edit is returned; then fetch user `refetchId` again and write it back, a failed
      fetch leaving no record to write (the handler crashes). */
  predicate EditThenRefetch(remote: Remote, log0: seq<Call>, f: Fields, refetchId: int, id0: string,
                            out: Outcome, log: seq<Call>, newId: string, newFields: Fields)
  {
    var name := GetString(f, UserName);
    var e := remote.adminEditUser(log0, name, EditOptions(f));
    var log1 := log0 + [Call.AdminEditUser(name, EditOptions(f))];
    && (e.Fail? ==> out == Error(e.msg) && log == log1 && newId == id0 && newFields == f)
    && (e.Ok? ==>
          var g := remote.getUserByID(log1, refetchId);
          && log == log1 + [Call.GetUserByID(refetchId)]
          && (g.Fail? ==> out == Crash && newId == id0 && newFields == f)
          && (g.Ok? ==> out == Done && UserWritten(g.value, f, newId, newFields)))
  }

  method EditAndRefetch(d: ResourceData, c: Client, refetchId: int) returns (out: Outcome)
    modifies d, c
    ensures EditThenRefetch(c.remote, old(c.log), old(d.fields), refetchId, old(d.id), out, c.log, d.id, d.fields)
  {
    var name := GetString(d.fields, UserName);
    var e;
    if GetBool(d.fields, UserForcePasswordChange) {
      e := c.AdminEditUser(name, EditWith(d.fields, GetString(d.fields, UserPassword)));
    } else {
      e := c.AdminEditUser(name, EditWith(d.fields, ""));
    }
    if e.Fail? {
      return Error(e.msg);
    }
    var g := c.GetUserByID(refetchId);
    if g.Fail? {
      return Crash;
    }
    SetUserResourceData(g.value, d);
    out := Done;
  }

  /** The update as written: probe the user by the ID in the state; another failure than 404
      is returned before any edit; on a 404 the user is created, and the update goes on to
      edit and re-fetch with the ID it parsed before the create. */
  predicate UserUpdateRan(remote: Remote, log0: seq<Call>, f: Fields, id0: string, out: Outcome,
                          log: seq<Call>, newId: string, newFields: Fields)
  {
    var id := ParseInt(id0).value;
    var g := remote.getUserByID(log0, id);
    var log1 := log0 + [Call.GetUserByID(id)];
    var r := remote.adminCreateUser(log1, CreateOptions(f));
    && (g.Fail? && g.status != 404 ==> out == Error(g.msg) && log == log1 && newId == id0 && newFields == f)
    && (g.Ok? ==> EditThenRefetch(remote, log1, f, id, id0, out, log, newId, newFields))
    && (g.IsNotFound() ==>
          EditThenRefetch(remote, log1 + [Call.AdminCreateUser(CreateOptions(f))], f, id, IdAfterCreate(r, id0),
            out, log, newId, newFields))
  }

  method UserUpdate(d: ResourceData, c: Client) returns (out: Outcome)
    modifies d, c
    ensures UserUpdateRan(c.remote, old(c.log), old(d.fields), old(d.id), out, c.log, d.id, d.fields)
  {
    var p := ParseInt(d.id);
    var g := c.GetUserByID(p.value);
    if g.Fail? {
      if g.status != 404 {
        return Error(g.msg);
      }
      StartCreate(d, c);
    }
    out := EditAndRefetch(d, c, p.value);
  }

  /** As written, the update of a user that is gone re-fetches by the old ID even after the
      create has put the new user's ID in the state: its final refetch asks for the old ID. */
  lemma UpdateOfMissingUserRefetchesOldId(remote: Remote, log0: seq<Call>, f: Fields, id0: string, out: Outcome,
                                          log: seq<Call>, newId: string, newFields: Fields)
    requires UserUpdateRan(remote, log0, f, id0, out, log, newId, newFields)
    requires remote.getUserByID(log0, ParseInt(id0).value).IsNotFound()
    requires remote.adminEditUser(log0 + [Call.GetUserByID(ParseInt(id0).value), Call.AdminCreateUser(CreateOptions(f))],
                                  GetString(f, UserName), EditOptions(f)).Ok?
    ensures |log| >= |log0| + 3
    ensures log[|log0| + 1] == Call.AdminCreateUser(CreateOptions(f))
    ensures log[|log| - 1] == Call.GetUserByID(ParseInt(id0).value)
  {
    var id := ParseInt(id0).value;
    var log2 := log0 + [Call.GetUserByID(id)] + [Call.AdminCreateUser(CreateOptions(f))];
    assert log0 + [Call.GetUserByID(id), Call.AdminCreateUser(CreateOptions(f))] == log2;
  }

  /** The update as evidently intended: after the fallback create, the re-fetch uses the ID
      the create wrote. */
  predicate UserUpdateFixedRan(remote: Remote, log0: seq<Call>, f: Fields, id0: string, out: Outcome,
                               log: seq<Call>, newId: string, newFields: Fields)
  {
    var id := ParseInt(id0).value;
    var g := remote.getUserByID(log0, id);
    var log1 := log0 + [Call.GetUserByID(id)];
    var r := remote.adminCreateUser(log1, CreateOptions(f));
    var id1 := IdAfterCreate(r, id0);
    && (g.Fail? && g.status != 404 ==> out == Error(g.msg) && log == log1 && newId == id0 && newFields == f)
    && (g.Ok? ==> EditThenRefetch(remote, log1, f, id, id0, out, log, newId, newFields))
    && (g.IsNotFound() ==>
          EditThenRefetch(remote, log1 + [Call.AdminCreateUser(CreateOptions(f))], f, ParseInt(id1).value, id1,
            out, log, newId, newFields))
  }

  method UserUpdateFixed(d: ResourceData, c: Client) returns (out: Outcome)
    modifies d, c
    ensures UserUpdateFixedRan(c.remote, old(c.log), old(d.fields), old(d.id), out, c.log, d.id, d.fields)
  {
    var p := ParseInt(d.id);
    var g := c.GetUserByID(p.value);
    if g.Fail? {
      if g.status != 404 {
        return Error(g.msg);
      }
      StartCreate(d, c);
      p := ParseInt(d.id);
    }
    out := EditAndRefetch(d, c, p.value);
  }

  /** With the correction, the update of a user that is gone re-fetches the user it created
      (whose ID is an int64, as the server's are). */
  lemma UpdateFixedRefetchesCreatedUser(remote: Remote, log0: seq<Call>, f: Fields, id0: string, out: Outcome,
                                        log: seq<Call>, newId: string, newFields: Fields)
    requires UserUpdateFixedRan(remote, log0, f, id0, out, log, newId, newFields)
    requires remote.getUserByID(log0, ParseInt(id0).value).IsNotFound()
    requires var r := remote.adminCreateUser(log0 + [Call.GetUserByID(ParseInt(id0).value)], CreateOptions(f));
      r.Ok? && MinInt64 <= r.value.id <= MaxInt64
    requires remote.adminEditUser(log0 + [Call.GetUserByID(ParseInt(id0).value), Call.AdminCreateUser(CreateOptions(f))],
                                  GetString(f, UserName), EditOptions(f)).Ok?
    ensures |log| == |log0| + 4
    ensures log[|log0| + 3]
         == Call.GetUserByID(remote.adminCreateUser(log0 + [Call.GetUserByID(ParseInt(id0).value)], CreateOptions(f)).value.id)
  {
    var id := ParseInt(id0).value;
    var r := remote.adminCreateUser(log0 + [Call.GetUserByID(id)], CreateOptions(f));
    ParseFormatRoundTrip(r.value.id);
    assert log0 + [Call.GetUserByID(id), Call.AdminCreateUser(CreateOptions(f))]
        == log0 + [Call.GetUserByID(id)] + [Call.AdminCreateUser(CreateOptions(f))];
  }

  // ----- resourceUserCreate -----

  /** The create: one creation request; a failure is returned with the state untouched;
      otherwise the new user's ID is stored and the update runs on it. */
  predicate UserCreateRan(remote: Remote, log0: seq<Call>, f: Fields, id0: string, out: Outcome,
                          log: seq<Call>, newId: string, newFields: Fields)
  {
    var r := remote.adminCreateUser(log0, CreateOptions(f));
    var log1 := log0 + [Call.AdminCreateUser(CreateOptions(f))];
    && (r.Fail? ==> out == Error(r.msg) && log == log1 && newId == id0 && newFields == f)
    && (r.Ok? ==> UserUpdateRan(remote, log1, f, FormatInt(r.value.id), out, log, newId, newFields))
  }

  method UserCreate(d: ResourceData, c: Client) returns (out: Outcome)
    modifies d, c
    ensures UserCreateRan(c.remote, old(c.log), old(d.fields), old(d.id), out, c.log, d.id, d.fields)
  {
    var f := d.fields;
    var opts := CreateUserOption(0, GetString(f, UserLoginName), GetString(f, UserName), GetString(f, UserFullName),
      GetString(f, UserEmail), GetString(f, UserPassword), GetBool(f, UserMustChangePassword),
      GetBool(f, UserSendNotification), GetString(f, UserVisibility));
    var r := c.AdminCreateUser(opts);
    if r.Fail? {
      return Error(r.msg);
    }
    d.SetId(FormatInt(r.value.id));
    out := UserUpdate(d, c);
  }

  /** Every run of the second half of an update extends the history it started from. */
  lemma EditThenRefetchExtends(remote: Remote, log0: seq<Call>, f: Fields, refetchId: int, id0: string,
                               out: Outcome, log: seq<Call>, newId: string, newFields: Fields)
    requires EditThenRefetch(remote, log0, f, refetchId, id0, out, log, newId, newFields)
    ensures |log| > |log0| && log[..|log0|] == log0
  {
    var name := GetString(f, UserName);
    var log1 := log0 + [Call.AdminEditUser(name, EditOptions(f))];
    if remote.adminEditUser(log0, name, EditOptions(f)).Ok? {
      assert log[..|log1|] == log1;
    }
  }

  /** The update's first request is the probe of the user the state names. */
  lemma UpdateProbesStateId(remote: Remote, log0: seq<Call>, f: Fields, id0: string, out: Outcome,
                            log: seq<Call>, newId: string, newFields: Fields)
    requires UserUpdateRan(remote, log0, f, id0, out, log, newId, newFields)
    ensures |log| > |log0| && log[..|log0|] == log0 && log[|log0|] == Call.GetUserByID(ParseInt(id0).value)
  {
    var id := ParseInt(id0).value;
    var g := remote.getUserByID(log0, id);
    var log1 := log0 + [Call.GetUserByID(id)];
    if g.Ok? {
      EditThenRefetchExtends(remote, log1, f, id, id0, out, log, newId, newFields);
      assert log[..|log1|] == log1;
    } else if g.status == 404 {
      var log2 := log1 + [Call.AdminCreateUser(CreateOptions(f))];
      var r := remote.adminCreateUser(log1, CreateOptions(f));
      EditThenRefetchExtends(remote, log2, f, id, IdAfterCreate(r, id0), out, log, newId, newFields);
      assert log[..|log2|] == log2;
      assert log[|log0|] == log2[|log0|];
    }
  }

  /** The update that follows a successful create works on the created user: its probe asks
      for exactly the ID the server gave the new user. */
  lemma CreateProbesCreatedUser(remote: Remote, log0: seq<Call>, f: Fields, id0: string, out: Outcome,
                                log: seq<Call>, newId: string, newFields: Fields)
    requires UserCreateRan(remote, log0, f, id0, out, log, newId, newFields)
    requires var r := remote.adminCreateUser(log0, CreateOptions(f)); r.Ok? && MinInt64 <= r.value.id <= MaxInt64
    ensures |log| >= |log0| + 2
    ensures log[|log0|] == Call.AdminCreateUser(CreateOptions(f))
    ensures log[|log0| + 1] == Call.GetUserByID(remote.adminCreateUser(log0, CreateOptions(f)).value.id)
  {
    var r := remote.adminCreateUser(log0, CreateOptions(f));
    var log1 := log0 + [Call.AdminCreateUser(CreateOptions(f))];
    ParseFormatRoundTrip(r.value.id);
    UpdateProbesStateId(remote, log1, f, FormatInt(r.value.id), out, log, newId, newFields);
    assert log[|log0|] == log[..|log1|][|log0|];
  }

  // ----- resourceUserDelete -----

  /** The delete as written: a 404 takes the bare `return`, which hands back the named result
      still holding the delete's error, so deleting a user that is already gone fails. */
  method UserDelete(d: ResourceData, c: Client) returns (out: Outcome)
    modifies c
    ensures var name := GetString(d.fields, UserName);
      var r := c.remote.adminDeleteUser(old(c.log), name);
      && c.log == old(c.log) + [Call.AdminDeleteUser(name)]
      && (r.Ok? ==> out == Done)
      && (r.Fail? ==> out == Error(r.msg))
  {
    var r := c.AdminDeleteUser(GetString(d.fields, UserName));
    if r.Fail? {
      // the bare `return` hands back the 404 error: the same outcome as below
      if r.status == 404 {
        return Error(r.msg);
      }
      return Error(r.msg);
    }
    out := Done;
  }

  /** The delete as evidently intended: a user that is already gone counts as deleted. */
  method UserDeleteFixed(d: ResourceData, c: Client) returns (out: Outcome)
    modifies c
    ensures var name := GetString(d.fields, UserName);
      var r := c.remote.adminDeleteUser(old(c.log), name);
      && c.log == old(c.log) + [Call.AdminDeleteUser(name)]
      && (r.Ok? || r.IsNotFound() ==> out == Done)
      && (r.Fail? && !r.IsNotFound() ==> out == Error(r.msg))
  {
    var r := c.AdminDeleteUser(GetString(d.fields, UserName));
    if r.Fail? {
      if r.status == 404 {
        return Done;
      }
      return Error(r.msg);
    }
    out := Done;
  }
}
