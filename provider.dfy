/** Validation of the provider's `base_url` setting. */
module Provider {
  import opened Strings

  const Subject: string := "terraform-gitea-provider base URL "

  function ApiPathError(url: string): string {
    Subject + "format is incorrect; " + "Please leave out API Path " + url
  }

  /** RFC 2606, section 2, reserves "localhost" as a top-level name, so it has no subdomains. */
  const LocalhostError: string :=
    Subject + "violates RFC 2606; " + "Please do not define a subdomain for localhost!"

  /** The two messages can never be confused: they differ right after "base URL ". */
  lemma MessagesDiffer(url: string)
    ensures ApiPathError(url) != LocalhostError
  {
    assert |Subject| == 34;
    assert ApiPathError(url)[34] == "format is incorrect; "[0] == 'f';
    assert LocalhostError[34] == "violates RFC 2606; "[0] == 'v';
  }

  /** validateAPIURLVersion: returns (warnings, errors). The URL must not end with the API
      path, and must not name a subdomain of localhost (it holds both "localhost" and "."). */
  function ValidateAPIURLVersion(url: string): (r: (seq<string>, seq<string>))
    ensures r.0 == []
    ensures |r.1| <= 2
    ensures ApiPathError(url) in r.1 <==> HasSuffix(url, "/api/v1") || HasSuffix(url, "/api/v1/")
    ensures LocalhostError in r.1 <==> Contains(url, "localhost") && Contains(url, ".")
    ensures forall e :: e in r.1 ==> e == ApiPathError(url) || e == LocalhostError
    ensures |r.1| == 2 ==> r.1 == [ApiPathError(url), LocalhostError]
  {
    var apiPath := if HasSuffix(url, "/api/v1") || HasSuffix(url, "/api/v1/") then [ApiPathError(url)] else [];
    var localhost := if Contains(url, "localhost") && Contains(url, ".") then [LocalhostError] else [];
    MessagesDiffer(url);
    ([], apiPath + localhost)
  }
}
