/** How the background coordinator names a tab's site and decides whether the
    site is one the user tracks. */
module DomainMatch {
  import opened Wrappers
  import opened Text
  import opened Types

  /** `extractDomain`: the URL's host name with one leading `www.` removed, or
      `None` when the URL does not parse. `hostname` is what the URL parser
      yields (`None` when it throws). */
  function ExtractDomain(hostname: Option<string>): (r: Option<string>)
    ensures hostname.None? <==> r.None?
    ensures hostname.Some? && StartsWith(hostname.value, "www.") ==> r == Some(hostname.value[4..])
    ensures hostname.Some? && !StartsWith(hostname.value, "www.") ==> r == hostname
  {
    match hostname
    case None => None
    case Some(h) => Some(if StartsWith(h, "www.") then h[4..] else h)
  }

  /** Only one `www.` goes: `www.www.example.com` becomes `www.example.com`. */
  lemma WwwStrippedOnce(rest: string)
    ensures ExtractDomain(Some("www.www." + rest)) == Some("www." + rest)
  {
    var h := "www.www." + rest;
    assert h[..4] == "www.";
    assert h[4..] == "www." + rest;
  }

  /** `isTrackedDomain`'s test: some enabled entry's domain occurs somewhere
      inside `domain` (a substring test, not a suffix or label match). */
  function IsTracked(ds: seq<DomainConfig>, domain: string): (b: bool)
    ensures b <==> exists k :: 0 <= k < |ds| && ds[k].enabled && Includes(domain, ds[k].domain)
  {
    if ds == [] then false
    else
      var rest := IsTracked(ds[1..], domain);
      assert rest <==> exists k :: 1 <= k < |ds| && ds[k].enabled && Includes(domain, ds[k].domain) by {
        if rest {
          var j :| 0 <= j < |ds[1..]| && ds[1..][j].enabled && Includes(domain, ds[1..][j].domain);
          assert ds[j + 1] == ds[1..][j];
        }
        if exists k :: 1 <= k < |ds| && ds[k].enabled && Includes(domain, ds[k].domain) {
          var k :| 1 <= k < |ds| && ds[k].enabled && Includes(domain, ds[k].domain);
          assert ds[1..][k - 1] == ds[k];
        }
      }
      (ds[0].enabled && Includes(domain, ds[0].domain)) || rest
  }

  /** A disabled entry never makes a site tracked: switching every entry off
      tracks nothing. */
  lemma DisabledTracksNothing(ds: seq<DomainConfig>, domain: string)
    requires forall k :: 0 <= k < |ds| ==> !ds[k].enabled
    ensures !IsTracked(ds, domain)
  {
  }

  /** The substring quirk: an enabled `x.com` entry also tracks `xx.com`. */
  lemma SubstringQuirk()
    ensures IsTracked([DomainConfig("x.com", true)], "xx.com")
  {
    var h := "xx.com";
    assert OccursAt(h, "x.com", 1) by { assert h[1..6] == "x.com"; }
  }

  /** With the default list, `netflix.com` counts as tracked, because it
      contains `x.com`. */
  lemma DefaultsTrackNetflix()
    ensures IsTracked(DEFAULT_SETTINGS.trackedDomains, "netflix.com")
  {
    var h := "netflix.com";
    var ds := DEFAULT_SETTINGS.trackedDomains;
    assert ds[2] == DomainConfig("x.com", true);
    assert OccursAt(h, "x.com", 6) by { assert h[6..11] == "x.com"; }
  }

  /** An enabled entry with the empty domain tracks every site. */
  lemma EmptyEntryTracksEverything(ds: seq<DomainConfig>, domain: string)
    requires exists k :: 0 <= k < |ds| && ds[k] == DomainConfig("", true)
    ensures IsTracked(ds, domain)
  {
    var k :| 0 <= k < |ds| && ds[k] == DomainConfig("", true);
    assert OccursAt(domain, "", 0);
  }
}
