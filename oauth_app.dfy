/** The `gitea_oauth2_app` resource: an OAuth2 application of the authenticated user, found
    again by its client ID, whose secret the server reveals only when it creates the app. */
module OauthAppResource {
  import opened Results
  import opened Paging
  import opened State
  import opened GiteaClient

  // ----- attribute keys -----

  const OauthName := "name"
  const OauthConfidentialClient := "confidential_client"
  const OauthRedirectURIs := "redirect_uris"
  const OauthClientId := "client_id"
  const OauthClientSecret := "client_secret"

  // ----- ExpandStringList / CollapseStringList -----

  /** The configured values that are non-empty strings, in their order. */
  function Expanded(configured: seq<Value>): (r: seq<string>)
    ensures |r| <= |configured|
    ensures forall x :: x in r <==> x != "" && Text(x) in configured
  {
    if configured == [] then []
    else
      var head := if configured[0].Text? && configured[0].s != "" then [configured[0].s] else [];
      assert forall v :: v in configured <==> v == configured[0] || v in configured[1..];
      head + Expanded(configured[1..])
  }

  /** Filtering splits over concatenation, so the result keeps the input order. */
  lemma {:induction false} ExpandedAppend(a: seq<Value>, b: seq<Value>)
    ensures Expanded(a + b) == Expanded(a) + Expanded(b)
    decreases |a|
  {
    if a == [] {
      assert a + b == b;
    } else {
      var head := if a[0].Text? && a[0].s != "" then [a[0].s] else [];
      assert (a + b)[0] == a[0] && (a + b)[1..] == a[1..] + b;
      ExpandedAppend(a[1..], b);
      calc {
        Expanded(a + b);
        head + Expanded(a[1..] + b);
        head + (Expanded(a[1..]) + Expanded(b));
        (head + Expanded(a[1..])) + Expanded(b);
        Expanded(a) + Expanded(b);
      }
    }
  }

  /** One value expands to its string when it is a non-empty string, and to nothing otherwise. */
  lemma ExpandedSingle(v: Value)
    ensures Expanded([v]) == if v.Text? && v.s != "" then [v.s] else []
  {
    assert [v][1..] == [];
  }

  method ExpandStringList(configured: seq<Value>) returns (res: seq<string>)
    ensures res == Expanded(configured)
  {
    res := [];
    for i := 0 to |configured|
      invariant res == Expanded(configured[..i])
    {
      assert configured[..i + 1] == configured[..i] + [configured[i]];
      ExpandedAppend(configured[..i], [configured[i]]);
      ExpandedSingle(configured[i]);
      if configured[i].Text? && configured[i].s != "" {
        res := res + [configured[i].s];
      }
    }
    assert configured[..|configured|] == configured;
  }

  /** Each string as a value, in order. */
  function Collapsed(strlist: seq<string>): (r: seq<Value>)
    ensures |r| == |strlist|
    ensures forall i :: 0 <= i < |r| ==> r[i] == Text(strlist[i])
  {
    if strlist == [] then [] else [Text(strlist[0])] + Collapsed(strlist[1..])
  }

  method CollapseStringList(strlist: seq<string>) returns (res: seq<Value>)
    ensures res == Collapsed(strlist)
  {
    res := [];
    for i := 0 to |strlist|
      invariant |res| == i && forall j :: 0 <= j < i ==> res[j] == Text(strlist[j])
    {
      res := res + [Text(strlist[i])];
    }
  }

  /** Collapsing and expanding again gives back a list without empty strings. */
  lemma {:induction false} ExpandCollapse(xs: seq<string>)
    requires forall i :: 0 <= i < |xs| ==> xs[i] != ""
    ensures Expanded(Collapsed(xs)) == xs
    decreases |xs|
  {
    if xs != [] {
      var c := Collapsed(xs);
      assert c[1..] == Collapsed(xs[1..]);
      ExpandCollapse(xs[1..]);
    }
  }

  // ----- searchOauth2AppByClientId -----

  function ClientIdIs(id: string): Oauth2 -> bool {
    (a: Oauth2) => a.clientID == id
  }

  function AppNotFound(id: string): string {
    "no oauth client can be found by id '" + id + "'"
  }

  /** The search over the user's applications, each page as the remote serves it at its
      request. */
  function AppLookup(remote: Remote, log: seq<Call>, id: string): Lookup<Oauth2> {
    Search(Observed(Oauth2Feed(remote), log), ClientIdIs(id), 1)
  }

  /** The history after the search. */
  function AfterLookup(remote: Remote, log: seq<Call>, id: string): seq<Call> {
    log + PageCalls(Oauth2Feed(remote), AppLookup(remote, log, id).page)
  }

  method SearchOauth2AppByClientId(c: Client, id: string) returns (res: Result<Oauth2>)
    modifies c
    ensures res == AsResult(AppLookup(c.remote, old(c.log), id), AppNotFound(id))
    ensures res.Success? ==> res.value.clientID == id
    ensures c.log == AfterLookup(c.remote, old(c.log), id)
  {
    var l := Find(c, Oauth2Feed(c.remote), ClientIdIs(id));
    SearchSound(Observed(Oauth2Feed(c.remote), old(c.log)), ClientIdIs(id), 1);
    res := AsResult(l, AppNotFound(id));
  }

  // ----- setOAuth2ResourceData -----

  /** The attributes the write-back always sets (the source walks a map of them; the keys are
      distinct, so the order does not matter). */
  function AppAttributes(app: Oauth2): seq<(string, Value)> {
    [ (OauthName, Text(app.name)), (OauthConfidentialClient, Flag(app.confidentialClient)),
      (OauthRedirectURIs, SetOf(Collapsed(app.redirectURIs))), (OauthClientId, Text(app.clientID)) ]
  }

  /** The attributes after the write-back: the secret only when the server sent one. */
  function WrittenApp(app: Oauth2, f: Fields): Fields {
    var g := Assign(f, AppAttributes(app));
    if app.clientSecret != "" then g[OauthClientSecret := Text(app.clientSecret)] else g
  }

  method SetOAuth2ResourceData(app: Oauth2, d: ResourceData)
    modifies d
    ensures d.id == app.clientID && d.fields == WrittenApp(app, old(d.fields))
  {
    d.SetId(app.clientID);
    d.SetAll(AppAttributes(app));
    if app.clientSecret != "" {
      d.SetAll([(OauthClientSecret, Text(app.clientSecret))]);
    }
  }

  /** After a write-back the attributes read as the application's; a secret the server did
      not send leaves the earlier secret as it was. */
  lemma AppWriteBack(f: Fields, app: Oauth2)
    ensures var n := WrittenApp(app, f);
      && GetString(n, OauthName) == app.name
      && GetBool(n, OauthConfidentialClient) == app.confidentialClient
      && GetString(n, OauthClientId) == app.clientID
      && (app.clientSecret != "" ==> GetString(n, OauthClientSecret) == app.clientSecret)
      && (app.clientSecret == "" ==> (OauthClientSecret in n <==> OauthClientSecret in f))
      && (app.clientSecret == "" && OauthClientSecret in f ==> n[OauthClientSecret] == f[OauthClientSecret])
  {
    var pairs := AppAttributes(app);
    LastWriteAt(pairs, OauthName, 0);
    LastWriteAt(pairs, OauthConfidentialClient, 1);
    LastWriteAt(pairs, OauthClientId, 3);
    AssignAt(f, pairs, OauthName);
    AssignAt(f, pairs, OauthConfidentialClient);
    AssignAt(f, pairs, OauthClientId);
    LastWriteNone(pairs, OauthClientSecret);
    AssignAt(f, pairs, OauthClientSecret);
  }

  /** The redirect URIs written back expand to the application's URIs, as long as none is
      empty. */
  lemma AppWriteBackRedirects(f: Fields, app: Oauth2)
    requires forall i :: 0 <= i < |app.redirectURIs| ==> app.redirectURIs[i] != ""
    ensures Expanded(RedirectItems(WrittenApp(app, f))) == app.redirectURIs
  {
    var pairs := AppAttributes(app);
    LastWriteAt(pairs, OauthRedirectURIs, 2);
    AssignAt(f, pairs, OauthRedirectURIs);
    var n := WrittenApp(app, f);
    assert n[OauthRedirectURIs] == Assign(f, pairs)[OauthRedirectURIs];
    assert RedirectItems(n) == Collapsed(app.redirectURIs);
    ExpandCollapse(app.redirectURIs);
  }

  // ----- resourceOauth2AppUpcreate -----

  /** `d.Get(k).(T)` succeeds: the attribute is unset (its zero value has the declared type) or
      holds a value of that type. */
  predicate RedirectsOk(f: Fields) { OauthRedirectURIs !in f || f[OauthRedirectURIs].SetOf? }
  predicate NameOk(f: Fields) { OauthName !in f || f[OauthName].Text? }
  predicate ConfidentialOk(f: Fields) { OauthConfidentialClient !in f || f[OauthConfidentialClient].Flag? }

  /** The elements of the redirect URI set, as its List() yields them. */
  function RedirectItems(f: Fields): seq<Value> {
    if OauthRedirectURIs in f && f[OauthRedirectURIs].SetOf? then f[OauthRedirectURIs].items else []
  }

  function TypeError(key: string, what: string): string {
    "attribute " + key + " must be set" + what
  }

  /** The three type checks, in order, and the request they let through. */
  function Checked(f: Fields): (r: Result<CreateOauth2Option>)
    ensures r.Success? <==> RedirectsOk(f) && NameOk(f) && ConfidentialOk(f)
    ensures !RedirectsOk(f) ==> r == Failure(TypeError(OauthRedirectURIs, " to a set of strings"))
    ensures r.Success? ==>
      r.value == CreateOauth2Option(GetString(f, OauthName), GetBool(f, OauthConfidentialClient),
                                    Expanded(RedirectItems(f)))
  {
    if !RedirectsOk(f) then Failure(TypeError(OauthRedirectURIs, " to a set of strings"))
    else if !NameOk(f) then Failure(TypeError(OauthName, " and must be a string"))
    else if !ConfidentialOk(f) then Failure(TypeError(OauthConfidentialClient, " and must be a bool"))
    else Success(CreateOauth2Option(GetString(f, OauthName), GetBool(f, OauthConfidentialClient),
                                    Expanded(RedirectItems(f))))
  }

  /** The create or update call's answer, after which the history is `after`: a failure is
      returned with the state untouched, an application is written back. */
  predicate Stored(r: Reply<Oauth2>, after: seq<Call>, f: Fields, id0: string, out: Outcome,
                   log: seq<Call>, newId: string, newFields: Fields)
  {
    && log == after
    && (r.Fail? ==> out == Error(r.msg) && newId == id0 && newFields == f)
    && (r.Ok? ==> out == Done && newId == r.value.clientID && newFields == WrittenApp(r.value, f))
  }

  /** What Upcreate does after the history `log0`, on attributes `f` and ID `id0`. */
  predicate UpcreateRan(remote: Remote, log0: seq<Call>, f: Fields, id0: string, isNew: bool,
                        out: Outcome, log: seq<Call>, newId: string, newFields: Fields)
  {
    var checked := Checked(f);
    && (checked.Failure? ==> out == Error(checked.msg) && log == log0 && newId == id0 && newFields == f)
    && (checked.Success? && isNew ==>
          Stored(remote.createOauth2(log0, checked.value), log0 + [Call.CreateOauth2(checked.value)],
                 f, id0, out, log, newId, newFields))
    && (checked.Success? && !isNew ==>
          var l := AppLookup(remote, log0, id0);
          var log1 := AfterLookup(remote, log0, id0);
          && (!l.Hit? ==> out == Error(AsResult(l, AppNotFound(id0)).msg) && log == log1 && newId == id0 && newFields == f)
          && (l.Hit? ==>
                Stored(remote.updateOauth2(log1, l.item.id, checked.value), log1 + [Call.UpdateOauth2(l.item.id, checked.value)],
                       f, id0, out, log, newId, newFields)))
  }

  /** resourceOauth2AppUpcreate, both the create and the update of the resource. */
  method Oauth2AppUpcreate(d: ResourceData, c: Client) returns (out: Outcome)
    modifies d, c
    ensures UpcreateRan(c.remote, old(c.log), old(d.fields), old(d.id), d.isNew, out, c.log, d.id, d.fields)
  {
    var f := d.fields;
    if !RedirectsOk(f) {
      return Error(TypeError(OauthRedirectURIs, " to a set of strings"));
    }
    var redirectURIs := ExpandStringList(RedirectItems(f));
    if !NameOk(f) {
      return Error(TypeError(OauthName, " and must be a string"));
    }
    if !ConfidentialOk(f) {
      return Error(TypeError(OauthConfidentialClient, " and must be a bool"));
    }
    var opts := CreateOauth2Option(GetString(f, OauthName), GetBool(f, OauthConfidentialClient), redirectURIs);
    var r: Reply<Oauth2>;
    if d.isNew {
      r := c.CreateOauth2(opts);
    } else {
      var found := SearchOauth2AppByClientId(c, d.id);
      if found.Failure? {
        return Error(found.msg);
      }
      r := c.UpdateOauth2(found.value.id, opts);
    }
    if r.Fail? {
      return Error(r.msg);
    }
    SetOAuth2ResourceData(r.value, d);
    out := Done;
  }

  /** An attribute of the wrong type stops Upcreate before any request, with that attribute's
      error; a new resource is only ever created, never looked up or updated. */
  lemma UpcreateRequests(remote: Remote, log0: seq<Call>, f: Fields, id0: string, isNew: bool,
                         out: Outcome, log: seq<Call>, newId: string, newFields: Fields)
    requires UpcreateRan(remote, log0, f, id0, isNew, out, log, newId, newFields)
    ensures Checked(f).Failure? ==> log == log0 && out.Error?
    ensures isNew && Checked(f).Success? ==> log == log0 + [Call.CreateOauth2(Checked(f).value)]
    ensures !isNew ==> forall i :: |log0| <= i < |log| ==> !log[i].CreateOauth2?
  {
    if !isNew && Checked(f).Success? {
      var feed := Oauth2Feed(remote);
      var k := AppLookup(remote, log0, id0).page;
      assert forall i :: 0 <= i < k ==> PageCalls(feed, k)[i].ListOauth2?;
      assert forall i :: |log0| <= i < |log0| + k ==> log[i] == PageCalls(feed, k)[i - |log0|];
    }
  }

  /** An update goes to the first application, in page order, whose client ID is the
      resource ID, and to no other. */
  lemma UpcreateUpdatesFoundApp(remote: Remote, log0: seq<Call>, f: Fields, id0: string,
                                out: Outcome, log: seq<Call>, newId: string, newFields: Fields)
    requires UpcreateRan(remote, log0, f, id0, false, out, log, newId, newFields)
    requires Checked(f).Success? && AppLookup(remote, log0, id0).Hit?
    ensures var l := AppLookup(remote, log0, id0);
      && l.item.clientID == id0
      && (forall j :: 1 <= j < l.page ==> Passes(Observed(Oauth2Feed(remote), log0), ClientIdIs(id0), j))
      && log[|log| - 1] == Call.UpdateOauth2(l.item.id, Checked(f).value)
  {
    SearchSound(Observed(Oauth2Feed(remote), log0), ClientIdIs(id0), 1);
  }

  // ----- resourceOauth2AppRead -----

  /** The read looks the application up by the resource ID. Any failure, "not found"
      included, is returned as an error and the ID is kept; a found application is written
      back, which keeps the ID. */
  method Oauth2AppRead(d: ResourceData, c: Client) returns (out: Outcome)
    modifies d, c
    ensures var l := AppLookup(c.remote, old(c.log), old(d.id));
      && c.log == AfterLookup(c.remote, old(c.log), old(d.id))
      && (!l.Hit? ==> out == Error(AsResult(l, AppNotFound(old(d.id))).msg) && unchanged(d))
      && (l.Hit? ==> out == Done && d.id == old(d.id) && d.fields == WrittenApp(l.item, old(d.fields)))
  {
    var app := SearchOauth2AppByClientId(c, d.id);
    if app.Failure? {
      return Error(app.msg);
    }
    SetOAuth2ResourceData(app.value, d);
    out := Done;
  }

  // ----- resourceOauth2AppDelete -----

  /** The delete looks the application up and deletes it by its numeric ID; a failed lookup
      is returned before any delete, and the delete's own error is returned. */
  method Oauth2AppDelete(d: ResourceData, c: Client) returns (out: Outcome)
    modifies c
    ensures var l := AppLookup(c.remote, old(c.log), d.id);
      var log1 := AfterLookup(c.remote, old(c.log), d.id);
      && (!l.Hit? ==> out == Error(AsResult(l, AppNotFound(d.id)).msg) && c.log == log1)
      && (l.Hit? ==>
            var r := c.remote.deleteOauth2(log1, l.item.id);
            && l.item.clientID == d.id
            && c.log == log1 + [Call.DeleteOauth2(l.item.id)]
            && out == (if r.Fail? then Error(r.msg) else Done))
  {
    var app := SearchOauth2AppByClientId(c, d.id);
    if app.Failure? {
      return Error(app.msg);
    }
    var r := c.DeleteOauth2(app.value.id);
    if r.Fail? {
      return Error(r.msg);
    }
    out := Done;
  }
}
