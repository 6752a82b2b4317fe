# Gitea Terraform provider: resource handlers

This project models the resource handlers of the Terraform provider for Gitea. These are
the Create, Read, Update and Delete functions of the resources `gitea_repository`,
`gitea_user`, `gitea_team`, `gitea_org`, `gitea_oauth2_app`, `gitea_repository_key`,
`gitea_public_key`, `gitea_git_hook` and `gitea_fork`. It also models the helpers they share:

- the paginated lookups;
- the team repository synchronisation;
- the unit-list parsing;
- the composite deploy-key ID;
- the provider's `base_url` validation.

The model is organised as follows:

- **`GiteaClient`.** The Gitea server is a value of type `GiteaClient.Remote`. Every endpoint
  is a function of the requests sent so far and of the request's arguments. This lets a
  server change between requests, list requests included: every page is answered from the
  listing as it stands at that request. Everything proved holds for every server, except
  where a lemma names a hypothesis on the server. A handler
  talks to it through a `GiteaClient.Client` object that appends each request to its log.
  A reply is `Ok(value)` or `Fail(status, message)`.
- **`State`.** Terraform's `schema.ResourceData` is the class `State.ResourceData`. It holds
  the resource ID and a map from attribute names to values. The getters return Go's zero
  value for an attribute that is missing or of another type.
- **`Outcome`.** Each handler returns one of three outcomes:
  - `Done`, for a nil error;
  - `Error(message)`;
  - `Crash`, when the Go code dereferences the nil record that the client library returns
    with an error.
- **`Strings`.** The `strconv.ParseInt(s, 10, 64)`, `fmt.Sprintf("%d", …)`, `strings.Split`
  and `strings.Contains` functions of Go's standard library are written out in full. This
  covers the syntax error, the clamping of out-of-range values, the int64 bounds and the
  split pieces.
- **`Paging`.** The paginated search over the admin user list, the organisation list and
  the OAuth2 application list (pages of 50) is one generic specification, `Paging.Search`,
  over a sequence of pages. The loop `GiteaClient.Find` is proved to be that search over
  `GiteaClient.Observed`, the pages as they were served, each at its own request.
- **Resource modules.** There is one module per resource, named after the resource, plus
  `TeamSync` for `setTeamRepositories`, and `TeamRepoPaging` for how that scan meets a server
  that pages by offset, with a corrected scan that lists every page before removing. Each
  handler is a method with `modifies` on the state and on the client. Its `ensures` gives, for every branch of the Go code:
  - the requests sent;
  - the outcome;
  - the new ID and attributes.

  Lemmas then state what the handlers achieve.

## Model

| member | source | states |
|---|---|---|
| Paging.FirstMatch | gitea/resource_gitea_repository.go:73-77 | the in-page scan stops at the first element with the wanted key; no earlier element has it |
| Paging.SearchSound | gitea/resource_gitea_repository.go:55-81 | every page before the one where the search ends was fetched, non-empty and without a match; a hit is that page's first match; an exhaustion ends on an empty page; a list error ends on a failed page with its message |
| Paging.SearchSkipsPassingPages | gitea/resource_gitea_repository.go:58-80 | pages that were fetched, are non-empty and hold no match do not change the search's result |
| Paging.SearchFindsFirstMatch | gitea/resource_gitea_repository.go:55-81 | the search returns the first matching element in page order and then in-page order, with its page and index |
| Paging.SearchReportsExhaustion | gitea/resource_gitea_repository.go:69-71 | "not found" is reported exactly when an empty page is reached and every earlier page passed |
| Paging.SearchPassesListErrorThrough | gitea/resource_gitea_repository.go:65-67 | a page that cannot be fetched ends the search with that page's error, unchanged |
| GiteaClient.PageCalls | gitea/resource_gitea_repository.go:58-64 | the requests that fetch pages 1..k are k requests, the i-th asking for page i |
| GiteaClient.Client.FetchPage | gitea/resource_gitea_repository.go:59-64 | one list request is logged and the reply is page n of the listing as it stands at that request |
| GiteaClient.Find | gitea/resource_gitea_oauth_app.go:134-159 | against any server, the paging loop returns exactly `Paging.Search` from page 1 over the pages as each was served at its own request, and sends exactly the requests for the pages it reached |
| GiteaClient.ObservedReadOnly | gitea/resource_gitea_oauth_app.go:137-157 | when page requests do not change the listing (`ListingReadOnly`), the pages a search reads are the listing as it stood when the search started |
| GiteaClient.ObservedPage | gitea/resource_gitea_oauth_app.go:137-157 | page n of what a search observes is the page the n-th request is answered with, after the n - 1 requests before it |
| Provider.MessagesDiffer | gitea/provider.go:118-127 | the two validation messages are never equal |
| Provider.ValidateAPIURLVersion | gitea/provider.go:118-127 | no warnings; the API-path error is reported iff the URL ends with "/api/v1" or "/api/v1/"; the localhost error iff the URL contains "localhost" and a "."; at most these two, in that order |
| Strings.ContainsIffOccurs | gitea/resource_gitea_team.go:54-56 | `strings.Contains` holds iff the substring occurs at some index |
| Strings.SuffixIsContained | gitea/resource_gitea_repository.go:121 | a message ending with a phrase contains it |
| Strings.Split | gitea/resource_gitea_repository_key.go:20 | `strings.Split` always returns at least one piece |
| Strings.SplitWithoutSeparator | gitea/resource_gitea_repository_key.go:20 | a string without the separator splits into itself |
| Strings.SplitAtSeparator | gitea/resource_gitea_repository_key.go:20 | splitting `a + sep + r` gives `a` followed by the pieces of `r` |
| Strings.SplitJoin | gitea/resource_gitea_repository_key.go:20-23 | Split inverts Join when no piece holds the separator |
| Strings.SplitCount | gitea/resource_gitea_repository_key.go:20-23 | Split gives one more piece than the string has separators |
| Strings.JoinSplit | gitea/resource_gitea_repository_key.go:20 | joining the pieces of a split gives back the original string, and no piece holds the separator |
| Strings.Digits | gitea/resource_gitea_team.go:229 | the decimal form of a natural number is non-empty and made of digit characters only |
| Strings.FormatIntHasNoSeparator | gitea/resource_gitea_repository_key.go:122 | a formatted integer holds no character other than a sign and digits |
| Strings.ScanUint | gitea/resource_gitea_team.go:27 | the digit loop of base-10 parsing: a non-digit is a syntax error with value 0; an overflow is a range error with the largest uint64 |
| Strings.ParseInt | gitea/resource_gitea_team.go:27 | `strconv.ParseInt(s, 10, 64)`: the value is always in the int64 range; the empty string is an error; on an error the value is 0 or one of the two int64 bounds |
| Strings.ScanDigits | gitea/resource_gitea_team.go:27 | a digit string whose value fits in a uint64 scans to that value without error |
| Strings.ParseFormatRoundTrip | gitea/resource_gitea_team.go:27-32 | every int64 written with `%d` parses back to itself without error, so a stored ID names the same record |
| State.StringsOf | gitea/resource_gitea_oauth_app.go:63-72 | a string is among the results iff it is a string element of the list value; no more results than elements |
| State.LastWriteAt | gitea/resource_gitea_team.go:229-238 | among successive `d.Set` calls, the last write of a key is the one no later call overrides |
| State.LastWriteNone | gitea/resource_gitea_team.go:229-238 | a key that no call writes has no last write |
| State.AssignAt | gitea/resource_gitea_team.go:229-238 | after successive `d.Set` calls a written key holds its last value and every other key keeps its old value or stays absent |
| State.ResourceData.SetId | gitea/resource_gitea_team.go:36 | `d.SetId(v)` changes the ID only |
| State.ResourceData.SetAll | gitea/resource_gitea_team.go:230-238 | a run of `d.Set` calls changes the attributes as `Assign` says and keeps the ID |
| RepositoryResource.UserNotFoundHasPhrase | gitea/resource_gitea_repository.go:70 | the user lookup's "not found" error carries the phrase that the create tests for |
| RepositoryResource.SearchUserByName | gitea/resource_gitea_repository.go:55-81 | the result is the paged search for that user name, with the not-found message; a found user has that name; the requests are exactly the pages read |
| RepositoryResource.SetRepoResourceData | gitea/resource_gitea_repository.go:279-305 | the ID is the repository's decimal ID and the attributes are the repository's |
| RepositoryResource.RepoWriteBack | gitea/resource_gitea_repository.go:281-282 | after a write-back the owner and name read as the server's |
| RepositoryResource.RepoWriteBackSettings | gitea/resource_gitea_repository.go:285-297 | after a write-back the privacy, mirror flag and default branch read as the server's |
| RepositoryResource.RepoRead | gitea/resource_gitea_repository.go:83-107 | an unparsable ID is an error and nothing is fetched; otherwise one fetch by ID, where a 404 clears the ID, another failure is returned and a found repository is written back |
| RepositoryResource.MigrationCredentialsAsConfigured | gitea/resource_gitea_repository.go:162-170 | each credential is in the migration request exactly when it is configured non-empty, and then it is the configured value |
| RepositoryResource.CreateOptions | gitea/resource_gitea_repository.go:175-187 | the plain create request always carries the trust model "default" and the configured name |
| RepositoryResource.ProbeOwner | gitea/resource_gitea_repository.go:116-132 | the owner is probed as an organisation and, only after a 404, searched as a user; the flags missing, orgRepo and hasAdmin follow the branches |
| RepositoryResource.RepoCreate | gitea/resource_gitea_repository.go:109-207 | probe, then (unless the owner is missing) one creating request at the chosen endpoint; a failure is returned, a success is written back |
| RepositoryResource.CreateMakesOneCreatingRequest | gitea/resource_gitea_repository.go:109-207 | a create makes at most one creating request, and it is the last request |
| RepositoryResource.OwnerMissingIffNotListed | gitea/resource_gitea_repository.go:118-123 | the create stops for a missing owner exactly when the owner is no organisation and the user search failed with a message holding "could not be found" |
| RepositoryResource.CreateEndpointChoice | gitea/resource_gitea_repository.go:141-198 | a clone address means a migration; an organisation owner gets an organisation repository; a user owner gets an admin create only when the user list holds the user |
| RepositoryResource.EditOptions | gitea/resource_gitea_repository.go:252-258 | a mirror gets its interval and never the archive flag; any other repository gets the archive flag and never an interval |
| RepositoryResource.RepoUpdate | gitea/resource_gitea_repository.go:209-269 | one edit addressed by the configured owner and name; a failure is returned, a success is written back |
| RepositoryResource.RepoDelete | gitea/resource_gitea_repository.go:271-277 | one delete by owner and name; the handler succeeds whatever the server answers |
| TeamResource.RankIsPosition | gitea/resource_gitea_team.go:54-77 | each unit has a position in the fixed order of the eight tests |
| TeamResource.UnitsInMembers | gitea/resource_gitea_team.go:54-77 | testing the tokens of any order of units keeps exactly the units of that order whose token occurs in the string |
| TeamResource.UnitsInSorted | gitea/resource_gitea_team.go:54-77 | when the tests come in increasing rank, the kept units are in increasing rank |
| TeamResource.UnitsInPrefix | gitea/resource_gitea_team.go:54-77 | after the first k tests a unit is listed iff it is among them and its token occurs in the string; the listed units are in strictly increasing order |
| TeamResource.SelectedUnitsMeaning | gitea/resource_gitea_team.go:54-77 | the unit list holds a unit iff its token occurs in `units`, each at most once, in the fixed order |
| TeamResource.UnitsInStep | gitea/resource_gitea_team.go:54-56 | one more test appends its unit exactly when the token occurs |
| TeamResource.ParseUnits | gitea/resource_gitea_team.go:143-166 | the eight tests compute exactly the selected units |
| TeamResource.MemberAddsEffect | gitea/resource_gitea_team.go:96-105 | the member loop only adds configured non-empty names to this team and never removes one; when it ends without error every such name was added |
| TeamResource.AddMembers | gitea/resource_gitea_team.go:183-192 | the member loop: with no team record it crashes at the first non-empty name, before any request; otherwise it adds members until the first failure |
| TeamResource.SetTeamResourceData | gitea/resource_gitea_team.go:228-240 | the ID is the team's decimal ID; the server's settings are written, and the configured units, organisation, members and repositories are written back as they were |
| TeamResource.TeamWriteBack | gitea/resource_gitea_team.go:230-234 | after a write-back the getters give the server's name, description and include-all flag |
| TeamResource.TeamWriteBackEchoes | gitea/resource_gitea_team.go:235-238 | after a write-back the units, organisation, members and repositories read as configured |
| TeamResource.TeamReadAfterWrite | gitea/resource_gitea_team.go:24-46 | the ID written back parses to the team's ID, so a later read fetches the same team |
| TeamResource.TeamRead | gitea/resource_gitea_team.go:24-46 | the ID is parsed with its error ignored; one fetch, where a 404 clears the ID, another failure is returned and a found team is written back |
| TeamResource.TeamCreate | gitea/resource_gitea_team.go:48-117 | the create request, then the member loop, then the repository sync unless all repositories are included, then the write-back; the first failure is returned |
| TeamResource.MembersThenSyncRequests | gitea/resource_gitea_team.go:96-112 | after the creation request, a create sends only member and repository adds for the created team |
| TeamResource.CreateRequests | gitea/resource_gitea_team.go:48-117 | a create sends one creation request with the configured options and then only adds: never an edit or a removal |
| TeamResource.MembersThenSyncAchieves | gitea/resource_gitea_team.go:96-116 | once the team exists, a successful create has written it back and added every configured member and, unless all repositories are included, every configured repository |
| TeamResource.CreateAchieves | gitea/resource_gitea_team.go:48-117 | a successful create has created the team, written it back and added every configured member and repository |
| TeamResource.UpdateTail | gitea/resource_gitea_team.go:137-205 | the edit with the configured options, the member loop, the sync in update mode and the refetch; a failed refetch crashes |
| TeamResource.TeamUpdate | gitea/resource_gitea_team.go:119-206 | as written: the probe, and on a 404 the create, after which the update still goes on to the edit of the old ID |
| TeamResource.UpdateOfMissingTeamEditsIt | gitea/resource_gitea_team.go:127-177 | after a 404 probe the update as written sends an edit of the team ID that it has just found missing |
| TeamResource.UpdateOfMissingTeamCrashes | gitea/resource_gitea_team.go:127-187 | after a 404 probe, an accepted edit and a configured member, the update as written crashes on the empty team record |
| TeamResource.TeamUpdateFixed | gitea/resource_gitea_team.go:119-206 | corrected: on a 404 probe the create's outcome is the update's |
| TeamResource.UpdateFixedOfMissingTeamCreatesOnce | gitea/resource_gitea_team.go:127-135 | corrected: the update of a missing team sends the probe, one creation and then only adds; no edit and no crash |
| TeamResource.UpdateAchieves | gitea/resource_gitea_team.go:119-206 | a successful update of an existing team has written back the refetched team, added every configured member and run the sync to its end |
| TeamResource.TeamDelete | gitea/resource_gitea_team.go:208-226 | as written: one delete by the parsed ID; any failure, a 404 included, is returned |
| TeamResource.TeamDeleteFixed | gitea/resource_gitea_team.go:215-223 | corrected: a 404 counts as deleted; other failures are returned |
| TeamSync.DesiredFlagsMeaning | gitea/resource_gitea_team.go:331-336 | the desired map holds exactly the distinct non-empty configured names, all flagged |
| TeamSync.RemovedAppend | gitea/resource_gitea_team.go:361 | the names removed by a run of requests split over concatenation |
| TeamSync.ScanItemsEffect | gitea/resource_gitea_team.go:356-366 | one listed page unflags exactly the configured names it lists and removes exactly the listed names that are not configured; the keys never change |
| TeamSync.ScanPagesRequests | gitea/resource_gitea_team.go:341-369 | every request of the scan lists this team's repositories or removes an unconfigured one |
| TeamSync.ScanPagesEffect | gitea/resource_gitea_team.go:341-369 | a finished scan leaves a configured name flagged exactly when no page before the first empty one lists it |
| TeamSync.ListingRemovesNothing | gitea/resource_gitea_team.go:343-348 | a list request removes nothing |
| TeamSync.ScanPagesRemoved | gitea/resource_gitea_team.go:341-369 | a finished scan removes exactly the listed names that are not configured |
| TeamSync.AddCalls | gitea/resource_gitea_team.go:372-379 | the add requests for a list of names: one per name, in order |
| TeamSync.AddFlagged | gitea/resource_gitea_team.go:372-379 | the final loop adds flagged names one by one and stops at the first failure, with that failure's message |
| TeamSync.ScanPage | gitea/resource_gitea_team.go:356-366 | the inner loop over one listed page computes exactly the page's specified scan |
| TeamSync.BuildFlags | gitea/resource_gitea_team.go:331-336 | the first loop builds exactly the desired map |
| TeamSync.PagesLoopEnd | gitea/resource_gitea_team.go:349-354 | at a failed page the scan ends with that page's message; at an empty page it ends without error with the flags so far; either way after that page's list request |
| TeamSync.PagesLoopMore | gitea/resource_gitea_team.go:356-368 | at a page that lists repositories, a failed removal ends the scan with its error after that page's requests; otherwise the loop goes on at the next page |
| TeamSync.PagesLoopNext | gitea/resource_gitea_team.go:368 | after a page processed without error the loop invariant holds for the next page, listed after this page's removals |
| TeamSync.ScanTeam | gitea/resource_gitea_team.go:338-370 | the paging loop computes exactly the specified scan from page 1, each page listed as the server shows it after the removals of the pages before it |
| TeamSync.SetTeamRepositories | gitea/resource_gitea_team.go:326-382 | the scan runs in update mode only, each page listed after the requests before it; the names still flagged are then added; a failed list, removal or add ends it with that error; the requests are exactly the scan's and the adds' |
| TeamSync.CreateAddsDesired | gitea/resource_gitea_team.go:338-379 | when creating, nothing is listed or removed, and the names to add are exactly the distinct non-empty configured names |
| TeamSync.UpdateSyncEffect | gitea/resource_gitea_team.go:338-379 | against any server: with `seen` the names on the pages as the scan read them, a finished scan removes exactly seen \ desired and leaves exactly desired \ seen to add; the two sets are disjoint |
| TeamSync.RemovedOnlyUnconfigured | gitea/resource_gitea_team.go:357-364 | a scan removes only repositories that are not configured |
| TeamSync.SeenUnderStableListing | gitea/resource_gitea_team.go:338-370 | when the scan's own requests do not change the server's listing (`ListingStable`), a finished scan has seen exactly the listing as it stood before the scan |
| TeamSync.SyncIdempotent | gitea/resource_gitea_team.go:326-382 | under `ListingStable`, a team that already holds exactly the configured repositories is left unchanged: nothing removed, nothing added |
| TeamSync.SyncReachesConfiguration | gitea/resource_gitea_team.go:326-382 | under `ListingStable`, an update-mode sync that ends without error leaves the team with exactly the configured repositories: those listed before it, less those removed, plus those added |
| TeamRepoPaging.NamesMeaning | gitea/resource_gitea_team.go:356-357 | a name is among the listed names exactly when some listed repository carries it |
| TeamRepoPaging.OffsetPagingLeavesRepository | gitea/resource_gitea_team.go:341-369 | as written, against a server that pages by offset over the current list: a team of 51 unconfigured repositories loses the 50 of page 1, page 2 then comes back empty, and the scan ends without error while one unconfigured repository remains |
| TeamRepoPaging.OffsetRemoteListingReadOnly | gitea/resource_gitea_team.go:343-348 | the offset server changes its listing only on a removal, so it meets the corrected scan's hypothesis `ListingReadOnly` |
| TeamRepoPaging.ListAllReadsListing | gitea/resource_gitea_team.go:341-354 | when listing is read-only, the corrected scan's listing phase sends only list requests and, ending without error, returns exactly the repositories listed before it |
| TeamRepoPaging.OffsetListAllRemovesNothing | gitea/resource_gitea_team.go:341-354 | the listing phase reads the whole of a team of 51 from the offset server without error and removes nothing |
| TeamRepoPaging.ListTeam | gitea/resource_gitea_team.go:341-354 | corrected: the listing loop requests pages 1, 2, … until a failed or empty one and returns exactly the specified listing (requests, repositories in page order, error) |
| TeamRepoPaging.ScanTeamFixed | gitea/resource_gitea_team.go:338-370 | corrected: the loop lists every page first and then flags or removes the listed repositories; it computes exactly the specified corrected scan |
| TeamRepoPaging.FixedScanReachesConfiguration | gitea/resource_gitea_team.go:338-370 | corrected: when listing is read-only, a finished scan removes exactly listed \ desired and leaves exactly desired \ listed to add, so the team ends with the configuration |
| TeamRepoPaging.FixedSyncReachesConfiguration | gitea/resource_gitea_team.go:326-382 | corrected: when listing is read-only and the adds succeed, the team holds exactly the configured repositories |
| TeamRepoPaging.FixedScanClearsTeam | gitea/resource_gitea_team.go:338-370 | corrected: on any server whose listing returns the whole team and removes nothing, and which accepts every removal, the scan with nothing configured leaves no repository |
| TeamRepoPaging.FixedScanClearsOffsetTeam | gitea/resource_gitea_team.go:338-370 | corrected: on the offset server the 51-repository team of the counterexample is cleared completely |
| OauthAppResource.Expanded | gitea/resource_gitea_oauth_app.go:63-72 | a string is in the result iff it is a non-empty string element of the configured list; never longer than the list |
| OauthAppResource.ExpandedAppend | gitea/resource_gitea_oauth_app.go:65-70 | the filter splits over concatenation, so the order is kept |
| OauthAppResource.ExpandStringList | gitea/resource_gitea_oauth_app.go:63-72 | the loop computes exactly the non-empty strings, in order |
| OauthAppResource.Collapsed | gitea/resource_gitea_oauth_app.go:74-80 | the i-th value is the i-th string; same length |
| OauthAppResource.CollapseStringList | gitea/resource_gitea_oauth_app.go:74-80 | the loop computes exactly the collapsed list |
| OauthAppResource.ExpandCollapse | gitea/resource_gitea_oauth_app.go:63-80 | expanding a collapsed list without empty strings gives the same list back |
| OauthAppResource.SearchOauth2AppByClientId | gitea/resource_gitea_oauth_app.go:134-159 | the paged search by client ID with its not-found message; a found application has that client ID |
| OauthAppResource.SetOAuth2ResourceData | gitea/resource_gitea_oauth_app.go:189-210 | the ID is the client ID; name, confidentiality, redirect URIs and client ID are written, and the secret only when the server sent one |
| OauthAppResource.AppWriteBack | gitea/resource_gitea_oauth_app.go:189-210 | after a write-back the attributes read as the application's; a secret the server did not send leaves the earlier one |
| OauthAppResource.AppWriteBackRedirects | gitea/resource_gitea_oauth_app.go:195 | the redirect URIs written back expand to the application's URIs when none is empty |
| OauthAppResource.Checked | gitea/resource_gitea_oauth_app.go:85-109 | the checks pass iff the three attributes have their types; the first failing one gives its own error; a passing check yields the request with the configured name, flag and expanded URIs |
| OauthAppResource.Oauth2AppUpcreate | gitea/resource_gitea_oauth_app.go:82-132 | a type error stops before any request; a new resource is created; an existing one is looked up and the found application updated; failures are returned |
| OauthAppResource.UpcreateRequests | gitea/resource_gitea_oauth_app.go:85-114 | a wrongly typed attribute stops the upcreate before any request with that attribute's error; a new resource is only created, never looked up or updated |
| OauthAppResource.UpcreateUpdatesFoundApp | gitea/resource_gitea_oauth_app.go:116-122 | an update goes to the first application in page order whose client ID is the resource ID, and to no other |
| OauthAppResource.Oauth2AppRead | gitea/resource_gitea_oauth_app.go:161-173 | any failed lookup, "not found" included, is returned and the ID kept; a found application is written back |
| OauthAppResource.Oauth2AppDelete | gitea/resource_gitea_oauth_app.go:175-187 | a failed lookup is returned before any delete; otherwise one delete by the found numeric ID, whose error is returned |
| OrganisationResource.SearchOrgByClientId | gitea/resource_gitea_organisation.go:22-49 | the paged search by organisation ID with its not-found message; a found organisation has that ID |
| OrganisationResource.SetOrgResourceData | gitea/resource_gitea_organisation.go:143-154 | the ID is the organisation's decimal ID and the seven attributes are the server's |
| OrganisationResource.OrgReadAfterWrite | gitea/resource_gitea_organisation.go:143-146 | the ID written back parses to the organisation's ID, and the name and full name read as the server's |
| OrganisationResource.OrgRead | gitea/resource_gitea_organisation.go:51-67 | the ID is parsed with its error ignored; a failed search, "not found" included, is returned with the state untouched; a found organisation is written back |
| OrganisationResource.OrgCreate | gitea/resource_gitea_organisation.go:69-90 | one creation request with the configured options; a failure is returned with the state untouched; a success is written back |
| OrganisationResource.EditAndRefetch | gitea/resource_gitea_organisation.go:108-122 | the edit by name with its result ignored, then the refetch by name; a failed refetch crashes, a found one is written back |
| OrganisationResource.OrgUpdate | gitea/resource_gitea_organisation.go:92-123 | as written: the probe by name; another failure is returned; a 404 runs the create and then still the edit and the refetch |
| OrganisationResource.OrgUpdateOfMissingOrgEditsIt | gitea/resource_gitea_organisation.go:98-118 | after a 404 probe the update as written sends the create, an edit and a refetch: four requests |
| OrganisationResource.OrgUpdateFixed | gitea/resource_gitea_organisation.go:92-123 | corrected: on a 404 probe the create's outcome is the update's |
| OrganisationResource.OrgUpdateFixedOfMissingOrgCreatesOnce | gitea/resource_gitea_organisation.go:98-106 | corrected: the update of a missing organisation sends the probe and one create, and never crashes |
| OrganisationResource.OrgDelete | gitea/resource_gitea_organisation.go:125-141 | as written: one delete by name; any failure, a 404 included, is returned |
| OrganisationResource.OrgDeleteFixed | gitea/resource_gitea_organisation.go:130-138 | corrected: a 404 counts as deleted; other failures are returned |
| RepositoryKeyResource.IdParts | gitea/resource_gitea_repository_key.go:19-34 | the ID has the composite shape iff it holds exactly one "/"; otherwise no error and zeros; a parse error gives zeros; both numbers are in the int64 range |
| RepositoryKeyResource.KeyIdRoundTrip | gitea/resource_gitea_repository_key.go:19-34 | the ID a write-back stores parses back to the same repository and key IDs without error |
| RepositoryKeyResource.SetRepoKeyResourceData | gitea/resource_gitea_repository_key.go:121-128 | the ID is "<repository>/<key>" and the key's attributes are written |
| RepositoryKeyResource.KeyWriteBack | gitea/resource_gitea_repository_key.go:121-128 | after a write-back the repository attribute is the ID's repository, and the key, title and read-only flag are the key's |
| RepositoryKeyResource.RepoKeyRead | gitea/resource_gitea_repository_key.go:36-71 | a malformed number is an error; an ID that is not composite is cleared; a 404 on the repository or on the key clears the ID; other failures are returned; a found key is written back |
| RepositoryKeyResource.RepoKeyCreate | gitea/resource_gitea_repository_key.go:73-94 | fetch the configured repository, then add the key under its owner and name; the first failure is returned with the state untouched; a success is written back under the fetched repository's ID |
| RepositoryKeyResource.RepoKeyDelete | gitea/resource_gitea_repository_key.go:96-119 | a malformed number is an error; an ID that is not composite or a repository that is gone clears the ID; otherwise one key delete whose answer is ignored |
| UserResource.SetUserResourceData | gitea/resource_gitea_user.go:197-223 | the ID is the user's decimal ID; the server's attributes are written, then the configured ones are written back as they were |
| UserResource.UserWriteBackIdentity | gitea/resource_gitea_user.go:198-202 | after a write-back the username, email and admin flag read as the server's |
| UserResource.UserWriteBackCopies | gitea/resource_gitea_user.go:207-220 | after a write-back login name, visibility, repository limit and force flag read as configured |
| UserResource.UserRead | gitea/resource_gitea_user.go:33-55 | the ID is parsed with its error ignored; one fetch, where a 404 clears the ID, another failure is returned and a found user is written back |
| UserResource.PasswordSentOnlyWhenForced | gitea/resource_gitea_user.go:120-164 | the edit carries a password exactly when force_password_change is set and a password is configured, and then the configured one |
| UserResource.EditOptionsWithoutPassword | gitea/resource_gitea_user.go:120-164 | the payload the update sends differs from the password-free edit only in its password field |
| UserResource.EditIgnoresForceFlag | gitea/resource_gitea_user.go:120-164 | apart from the password, both branches send the same edit whatever the force flag and the password |
| UserResource.StartCreate | gitea/resource_gitea_user.go:64-81 | the create request an update falls back to; on success the ID becomes the new user's |
| UserResource.EditAndRefetch | gitea/resource_gitea_user.go:120-176 | the edit by username; its failure is returned; then the refetch by the given ID, where a failure crashes and a found user is written back |
| UserResource.UserUpdate | gitea/resource_gitea_user.go:88-177 | as written: probe by the parsed ID; another failure is returned; a 404 runs the create; then edit and refetch by the ID parsed at the start |
| UserResource.UpdateOfMissingUserRefetchesOldId | gitea/resource_gitea_user.go:91-172 | as written, after a 404 probe and an accepted edit, the last request is the refetch of the old ID, not of the created user |
| UserResource.UserUpdateFixed | gitea/resource_gitea_user.go:88-177 | corrected: after the fallback create the ID is parsed again for the refetch |
| UserResource.UpdateFixedRefetchesCreatedUser | gitea/resource_gitea_user.go:95-172 | corrected: after a 404 probe and an accepted edit the refetch asks for the created user's ID |
| UserResource.UserCreate | gitea/resource_gitea_user.go:57-86 | one creation request; a failure is returned with the state untouched; on success the ID is set and the update runs |
| UserResource.EditThenRefetchExtends | gitea/resource_gitea_user.go:140-172 | the second half of an update only appends requests to the history |
| UserResource.UpdateProbesStateId | gitea/resource_gitea_user.go:91-95 | the first request of an update is the fetch of the user whose ID the state holds |
| UserResource.CreateProbesCreatedUser | gitea/resource_gitea_user.go:76-95 | after a successful create, the update's probe asks for the created user |
| UserResource.UserDelete | gitea/resource_gitea_user.go:179-195 | as written: one delete by username; any failure, a 404 included, is returned |
| UserResource.UserDeleteFixed | gitea/resource_gitea_user.go:184-192 | corrected: a 404 counts as deleted; other failures are returned |
| PublicKeyResource.SetPublicKeyResourceData | gitea/resource_gitea_public_key.go:91-101 | the ID is the key's decimal ID; the owner is kept as configured and the rest is the server's |
| PublicKeyResource.KeyWriteBack | gitea/resource_gitea_public_key.go:91-101 | after a write-back the owner reads as configured and the key text and title as the server's |
| PublicKeyResource.PublicKeyRead | gitea/resource_gitea_public_key.go:22-44 | the ID is parsed with its error ignored; one fetch, where a 404 clears the ID, another failure is returned and a found key is written back |
| PublicKeyResource.PublicKeyCreate | gitea/resource_gitea_public_key.go:46-62 | one creation request for the configured owner; its error is not checked, so a failure crashes; a success is written back |
| PublicKeyResource.PublicKeyDelete | gitea/resource_gitea_public_key.go:71-89 | as written: one delete by owner and parsed ID; any failure, a 404 included, is returned |
| PublicKeyResource.PublicKeyDeleteFixed | gitea/resource_gitea_public_key.go:78-86 | corrected: a 404 counts as deleted; other failures are returned |
| PublicKeyResource.PublicKeyUpdate | gitea/resource_gitea_public_key.go:64-69 | a delete followed by a create whatever the delete answered; the outcome is the create's |
| PublicKeyResource.UpdateNeverErrs | gitea/resource_gitea_public_key.go:64-69 | an update never returns an error: it succeeds, or it crashes exactly when the create fails |
| ForkResource.ForkOptions | gitea/resource_gitea_fork.go:17-34 | the fork names a target organisation exactly when a non-empty one is configured, and then that one |
| ForkResource.ForkCreate | gitea/resource_gitea_fork.go:17-34 | one fork request; a failure is returned with the ID kept; a success sets only the ID |
| ForkResource.SetForkResourceData | gitea/resource_gitea_fork.go:70-75 | the ID is the fork's decimal ID and the attributes are unchanged |
| ForkResource.ForkRead | gitea/resource_gitea_fork.go:36-60 | an unparsable ID is an error with no request; a 404 clears the ID; another failure is returned; a found repository's ID is stored |
| ForkResource.ForkDelete | gitea/resource_gitea_fork.go:62-68 | one delete of the configured organisation's repository; the handler always succeeds |
| GitHookResource.HookIdParts | gitea/resource_gitea_git_hook.go:76-83 | the ID "<user>/<repo>/<name>" splits back into its three parts when none holds "/" |
| GitHookResource.SetGitHookResourceData | gitea/resource_gitea_git_hook.go:76-83 | the ID is user/repo/name and the four attributes are the hook's |
| GitHookResource.HookWriteBack | gitea/resource_gitea_git_hook.go:76-83 | after a write-back the user, repository, name and content read as the fetched hook's |
| GitHookResource.GitHookRead | gitea/resource_gitea_git_hook.go:17-33 | any failed fetch, a 404 included, is returned and the ID never cleared; a found hook is written back |
| GitHookResource.GitHookUpdate | gitea/resource_gitea_git_hook.go:35-62 | the edit with the configured content; a failure is returned with no fetch; then the fetch, whose failure is returned and whose hook is written back |
| GitHookResource.GitHookCreate | gitea/resource_gitea_git_hook.go:88-89 | the create is the update handler |
| GitHookResource.UpdateStoresFetchedHook | gitea/resource_gitea_git_hook.go:35-62 | a successful update sends two requests and stores the content that the server reports after the edit |
| GitHookResource.GitHookDelete | gitea/resource_gitea_git_hook.go:64-74 | one delete; any failure, a 404 included, is returned |

## Left out

- UserResource.StartCreate: the update's fallback create is followed only as far as its
  creation request and the new ID. The update that this create runs in turn
  (resource_gitea_user.go:83) is not followed, because Create and Update call each other
  without bound.
- UserResource.UserUpdate: for the same reason, the nested update of the fallback create does
  not appear in the update's requests.
- `Crash`: the client library's source is not part of this model. The handlers assume its
  convention: it returns a nil record together with every error, and a nil response only
  when no HTTP response came back. A nil response on a failed call (reading
  `resp.StatusCode`) is not modelled; every failure carries a status.
- The provider's configuration and client construction (config.go, `providerConfigure`,
  main.go), the token resource, the data sources, the schema declarations (types, defaults,
  ForceNew) and the tests are not part of this model.
- `resourceGiteaRepositoryKey` is not registered in the provider's resource map; its
  handlers are modelled all the same.
- The `for … range` over the desired map in `setTeamRepositories` visits names in Go's
  random map order. The model adds them in one fixed order and states the set that is
  added, not the order.
- TeamSync.SetTeamRepositories: the scan is followed as written, each page listed after the
  removals before it. That the sync leaves the team with exactly the configured repositories
  (TeamSync.SyncReachesConfiguration, TeamSync.SyncIdempotent) is proved only under the
  hypothesis `TeamSync.ListingStable`: the scan's own requests do not change how the server
  lists the team. How the Gitea server pages is not part of this model; a server that pages
  by offset breaks the hypothesis (see Findings).
- `schema.Set` hashing and ordering of `redirect_uris` is not modelled. The set is a list
  whose order is the server's.
- The errors returned by `d.Set` are not modelled. Every value written has the schema's
  type, so they do not arise.
- Strings.ParseInt: the message of a parse error does not reproduce the quoting
  (`strconv.Quote`) of the input.
- Logging (`tflog.Warn`) is left out.
- Timestamps (`created`, `updated`, `last_login`) are carried as strings, in the form the
  server sends them.
- A resource that is already gone conventionally counts as deleted. The Delete handlers of
  the team, organisation, user and public key return the 404 error instead; the model follows
  the code (see Findings).
- A Read of a missing resource conventionally clears its ID. OrganisationResource.OrgRead,
  OauthAppResource.Oauth2AppRead and GitHookResource.GitHookRead return the error and keep the
  ID; the model follows the code.
- RepositoryKeyResource.RepoKeyRead, RepositoryKeyResource.RepoKeyCreate,
  RepositoryKeyResource.RepoKeyDelete and RepositoryResource.SetRepoResourceData: the
  repository's owner record is assumed present. The Go code dereferences
  `repo.Owner.UserName` (resource_gitea_repository_key.go:58, 82, 117 and
  resource_gitea_repository.go:281); the model reads the owner's name as a plain string, so a
  repository without an owner does not crash.
- Every listing is assumed finite and paged: past a bound (`userPages`, `orgPages`,
  `appPages`, `teamRepoPages` of `GiteaClient.Remote`) every page is empty. The loops of
  resource_gitea_repository.go:58-80, resource_gitea_organisation.go:26-47,
  resource_gitea_oauth_app.go:139-157 and resource_gitea_team.go:341-369 have no page cap, so
  on a server that ignores `page` and keeps answering the same non-empty page they never end;
  the model does not cover that server.

## Findings

| source | as written | input that shows it | evidently intended | confidence | as-written member | corrected member |
|---|---|---|---|---|---|---|
| gitea/resource_gitea_team.go:215-223 | on a 404 the bare `return` hands back the named result `err`, which still holds the delete's error | delete a team that the server answers with 404 | a team that is already gone counts as deleted (nil error) | high, not executed | TeamResource.TeamDelete | TeamResource.TeamDeleteFixed |
| gitea/resource_gitea_organisation.go:130-138 | the same bare `return` on a 404 returns the error | delete an organisation that the server answers with 404 | success on 404 | high, not executed | OrganisationResource.OrgDelete | OrganisationResource.OrgDeleteFixed |
| gitea/resource_gitea_user.go:184-192 | the same bare `return` on a 404 returns the error | delete a user that the server answers with 404 | success on 404 | high, not executed | UserResource.UserDelete | UserResource.UserDeleteFixed |
| gitea/resource_gitea_public_key.go:78-86 | the same bare `return` on a 404 returns the error | delete a key that the server answers with 404 | success on 404 | high, not executed | PublicKeyResource.PublicKeyDelete | PublicKeyResource.PublicKeyDeleteFixed |
| gitea/resource_gitea_team.go:129-187 | after a 404 probe the update runs the create and then edits the old, missing ID; with a member configured it dereferences the nil team | update a team whose ID the server answers with 404, the edit accepted, one member configured | return the create's outcome | high, not executed | TeamResource.UpdateOfMissingTeamCrashes | TeamResource.UpdateFixedOfMissingTeamCreatesOnce |
| gitea/resource_gitea_organisation.go:98-118 | after a 404 probe the update runs the create and still sends an edit and a refetch | update an organisation that the server answers with 404 | return the create's outcome | medium, not executed | OrganisationResource.OrgUpdateOfMissingOrgEditsIt | OrganisationResource.OrgUpdateFixedOfMissingOrgCreatesOnce |
| gitea/resource_gitea_team.go:341-369 | page n's unconfigured repositories are removed before page n + 1 is listed; on a server that pages by offset over the current list the remaining repositories move forward past the next page | a team of 51 unconfigured repositories, pages of 50 by offset: page 1 removes 50, page 2 is empty, one repository stays | list every page before removing anything, so the team ends with exactly the configured repositories | medium (depends on the server's paging), not executed | TeamRepoPaging.OffsetPagingLeavesRepository | TeamRepoPaging.FixedScanReachesConfiguration |
| gitea/resource_gitea_user.go:91-172 | after a 404 probe the update runs the create, which sets a new ID, but refetches the ID parsed before it | update a user whose ID the server answers with 404, the edit accepted | refetch the created user | high, not executed | UserResource.UpdateOfMissingUserRefetchesOldId | UserResource.UpdateFixedRefetchesCreatedUser |
