/**
 * Upstream base-URL normalisation and hostname suffix matching
 * (apps/worker/src/utils/url.ts).
 */
module Url {
  import opened Text

  /** `s.replace(/\/+$/, "")`: drops every trailing '/'. */
  function StripTrailingSlashes(s: string): (r: string)
    ensures |r| <= |s| && r == s[..|r|]
    ensures r == [] || r[|r| - 1] != '/'
    ensures forall i :: |r| <= i < |s| ==> s[i] == '/'
  {
    if s != [] && s[|s| - 1] == '/' then StripTrailingSlashes(s[..|s| - 1]) else s
  }

  /** `/\/v1$/i.test(s)`: the string ends in "/v1" or "/V1". */
  predicate EndsWithV1(s: string) {
    |s| >= 3 && s[|s| - 3] == '/' && (s[|s| - 2] == 'v' || s[|s| - 2] == 'V') && s[|s| - 1] == '1'
  }

  /** `normalizeBaseUrl`: trim, drop trailing slashes, then drop one trailing "/v1". */
  function NormalizeBaseUrl(baseUrl: string): (r: string)
    ensures baseUrl == "" ==> r == ""
    ensures |r| <= |Trim(baseUrl)| && r == Trim(baseUrl)[..|r|]
  {
    if baseUrl == "" then ""
    else
      var t := Trim(baseUrl);
      var trimmed := StripTrailingSlashes(t);
      if EndsWithV1(trimmed) then
        assert trimmed[..|trimmed| - 3] == t[..|trimmed| - 3];
        trimmed[..|trimmed| - 3]
      else trimmed
  }

  predicate AllSlashes(s: string) {
    forall i :: 0 <= i < |s| ==> s[i] == '/'
  }

  /**
   * What normalisation removes from the trimmed input: a run of slashes at the
   * very end, preceded by at most one "/v1" (either case), and nothing else.
   * When only slashes go, they are all of them and no "/v1" is left behind;
   * when the input ends in "/v1" once its slashes are gone, the "/v1" goes too.
   */
  lemma NormalizeRemovesSlashesThenV1(baseUrl: string)
    ensures var t := Trim(baseUrl); var r := NormalizeBaseUrl(baseUrl); var removed := t[|r|..];
      && (|| AllSlashes(removed)
          || (|removed| >= 3 && EndsWithV1(removed[..3]) && AllSlashes(removed[3..])))
      && (AllSlashes(removed) ==> (r == [] || r[|r| - 1] != '/') && !EndsWithV1(r))
      && (EndsWithV1(StripTrailingSlashes(t)) ==> !AllSlashes(removed))
  {
    if baseUrl == "" {
      assert |Trim(baseUrl)| == 0;
      return;
    }
    var t := Trim(baseUrl);
    var s := StripTrailingSlashes(t);
    var r := NormalizeBaseUrl(baseUrl);
    assert forall i :: |s| <= i < |t| ==> t[i] == '/';
    if EndsWithV1(s) {
      assert r == s[..|s| - 3];
      var removed := t[|r|..];
      assert removed[..3] == s[|s| - 3..];
      assert removed[3..] == t[|s|..];
      assert AllSlashes(removed[3..]);
    } else {
      assert r == s;
      assert AllSlashes(t[|r|..]);
    }
  }

  /** A trailing "/v1" is removed whether or not slashes follow it, and in either case. */
  lemma NormalizeDropsTrailingV1(p: string)
    requires p != [] && !IsSpace(p[0]) && p[|p| - 1] != '/' && !IsSpace(p[|p| - 1])
    ensures NormalizeBaseUrl(p + "/v1/") == p
    ensures NormalizeBaseUrl(p + "/V1") == p
  {
    NormalizeDropsSlashThenV1(p);
    NormalizeDropsUpperV1(p);
  }

  lemma NormalizeDropsSlashThenV1(p: string)
    requires p != [] && !IsSpace(p[0]) && p[|p| - 1] != '/' && !IsSpace(p[|p| - 1])
    ensures NormalizeBaseUrl(p + "/v1/") == p
  {
    var s := p + "/v1/";
    TrimOfTrimmed(s);
    assert s[..|s| - 1] == p + "/v1";
    assert StripTrailingSlashes(s) == StripTrailingSlashes(p + "/v1");
    assert StripTrailingSlashes(p + "/v1") == p + "/v1";
    assert (p + "/v1")[..|p|] == p;
  }

  lemma NormalizeDropsUpperV1(p: string)
    requires p != [] && !IsSpace(p[0]) && p[|p| - 1] != '/' && !IsSpace(p[|p| - 1])
    ensures NormalizeBaseUrl(p + "/V1") == p
  {
    var s := p + "/V1";
    TrimOfTrimmed(s);
    assert StripTrailingSlashes(s) == s;
    assert s[..|p|] == p;
  }

  /** Normalisation is not idempotent: "/v1/v1" loses one segment per call. */
  lemma NormalizeNotIdempotent()
    ensures NormalizeBaseUrl("h/v1/v1") == "h/v1"
    ensures NormalizeBaseUrl(NormalizeBaseUrl("h/v1/v1")) == "h"
  {
    NormalizeDropsTrailingV1Once("h/v1");
    NormalizeDropsTrailingV1Once("h");
  }

  lemma NormalizeDropsTrailingV1Once(p: string)
    requires p != [] && !IsSpace(p[0]) && p[|p| - 1] != '/' && !IsSpace(p[|p| - 1])
    ensures NormalizeBaseUrl(p + "/v1") == p
  {
    var s := p + "/v1";
    TrimOfTrimmed(s);
    assert StripTrailingSlashes(s) == s;
    assert s[..|p|] == p;
  }

  /** `hostnameMatches`: equal, or a subdomain of the site hostname. */
  predicate HostnameMatches(channelHostname: string, siteHostname: string) {
    if channelHostname == "" || siteHostname == "" then false
    else channelHostname == siteHostname || EndsWith(channelHostname, "." + siteHostname)
  }

  /**
   * Matching happens only at a label boundary: the channel hostname is the site
   * hostname itself, or ends with it immediately after a '.'.
   */
  lemma HostnameMatchesAtDotBoundary(c: string, s: string)
    ensures HostnameMatches(c, s) <==>
      c != "" && s != "" &&
      (c == s || (|c| > |s| && c[|c| - |s| - 1] == '.' && c[|c| - |s|..] == s))
  {
    if c != "" && s != "" && |c| > |s| {
      assert c[|c| - |s| - 1..] == [c[|c| - |s| - 1]] + c[|c| - |s|..];
    }
  }

  lemma HostnameMatchesExamples()
    ensures HostnameMatches("api.example.com", "example.com")
    ensures !HostnameMatches("badexample.com", "example.com")
    ensures forall h :: h != "" ==> HostnameMatches(h, h)
    ensures forall h :: !HostnameMatches(h, "") && !HostnameMatches("", h)
  {
    HostnameMatchesAtDotBoundary("api.example.com", "example.com");
    HostnameMatchesAtDotBoundary("badexample.com", "example.com");
  }
}
