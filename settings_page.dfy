/** The settings page's edits to the tracked-domain list, and the save path
    that writes the edited settings back to the store. */
module SettingsPage {
  import opened Wrappers
  import opened Text
  import opened Types
  import opened Storage

  /** `replace(/^(https?:\/\/)?(www\.)?/, "")`: a leading `https://` or
      `http://`, then a leading `www.`, each removed when present. */
  function StripSchemeAndWww(s: string): (r: string)
    ensures |r| <= |s| && r == s[|s| - |r|..]
    ensures StartsWith(s, "https://") && !StartsWith(s[8..], "www.") ==> r == s[8..]
    ensures StartsWith(s, "https://") && StartsWith(s[8..], "www.") ==> r == s[12..]
    ensures StartsWith(s, "http://") && !StartsWith(s[7..], "www.") ==> r == s[7..]
    ensures StartsWith(s, "http://") && StartsWith(s[7..], "www.") ==> r == s[11..]
    ensures !StartsWith(s, "https://") && !StartsWith(s, "http://") && StartsWith(s, "www.") ==> r == s[4..]
    ensures !StartsWith(s, "https://") && !StartsWith(s, "http://") && !StartsWith(s, "www.") ==> r == s
  {
    if StartsWith(s, "https://") then
      assert !StartsWith(s, "http://") by {
        assert s[4] == "https://"[4] != "http://"[4];
      }
      StripWww(s[8..])
    else if StartsWith(s, "http://") then
      StripWww(s[7..])
    else
      StripWww(s)
  }

  /** A leading `www.` removed when present. */
  function StripWww(s: string): (r: string)
    ensures |r| <= |s| && r == s[|s| - |r|..]
    ensures StartsWith(s, "www.") ==> s == "www." + r
    ensures !StartsWith(s, "www.") ==> r == s
  {
    if StartsWith(s, "www.") then s[4..] else s
  }

  predicate NoLineTerminator(s: string) {
    forall k :: 0 <= k < |s| ==> !IsLineTerminator(s[k])
  }

  /** Position `k` of `s` is where `/\/.*$/` matches: a `/` with no line
      terminator after it (a regular-expression `.` does not cross one). */
  predicate PathStartsAt(s: string, k: int)
    requires 0 <= k < |s|
  {
    s[k] == '/' && NoLineTerminator(s[k + 1..])
  }

  /** `s.replace(/\/.*$/, "")`: cuts `s` at the first position where a path
      starts, and keeps `s` whole when there is none. */
  function DropPath(s: string): (r: string)
    ensures |r| <= |s| && r == s[..|r|]
    ensures |r| < |s| ==> PathStartsAt(s, |r|)
    ensures forall k :: 0 <= k < |r| ==> !PathStartsAt(s, k)
  {
    if s == [] then s
    else if PathStartsAt(s, 0) then []
    else
      var rest := DropPath(s[1..]);
      assert forall k :: 1 <= k < |s| ==> (PathStartsAt(s, k) <==> PathStartsAt(s[1..], k - 1)) by {
        forall k | 1 <= k < |s| ensures PathStartsAt(s, k) <==> PathStartsAt(s[1..], k - 1) {
          assert s[1..][k - 1] == s[k] && s[1..][k..] == s[k + 1..];
        }
      }
      [s[0]] + rest
  }

  /** On one line of input, the cut is at the first `/`, and what is kept
      holds no `/`. */
  lemma DropPathSingleLine(s: string)
    requires NoLineTerminator(s)
    ensures '/' !in DropPath(s)
    ensures |DropPath(s)| < |s| ==> s[|DropPath(s)|] == '/'
  {
    var r := DropPath(s);
    forall k | 0 <= k < |r| ensures r[k] != '/' {
      assert !PathStartsAt(s, k);
    }
  }

  /** The chain `trim()`, strip scheme and `www.`, drop the path: never
      longer than the input, and empty for a blank input. */
  function NormalizeDomain(input: string): (d: string)
    ensures |d| <= |input|
    ensures AllSpace(input) ==> d == []
  {
    DropPath(StripSchemeAndWww(Trim(input)))
  }

  /** A URL typed with scheme, `www.` and a path normalises to its host. */
  lemma NormalizeUrl(host: string, path: string)
    requires host != [] && '/' !in host && NoLineTerminator(path)
    requires path == [] || !IsJsSpace(path[|path| - 1])
    ensures NormalizeDomain("https://www." + host + "/" + path) == host
  {
    var u := host + "/" + path;
    var s := "https://www." + host + "/" + path;
    assert s == "https://www." + u;
    assert Trim(s) == s by {
      assert s[0] == 'h' && s[|s| - 1] == u[|u| - 1];
      TrimKeepsTrimmed(s);
    }
    StripHttpsWww(u);
    DropPathAtHost(host, path);
  }

  /** `https://www.` is removed as a whole. */
  lemma StripHttpsWww(u: string)
    ensures StripSchemeAndWww("https://www." + u) == u
  {
    var s := "https://www." + u;
    assert s[..8] == "https://" && s[8..][..4] == "www." && s[12..] == u;
  }

  /** The path starts at the first `/` when it is on one line. */
  lemma DropPathAtHost(host: string, path: string)
    requires '/' !in host && NoLineTerminator(path)
    ensures DropPath(host + "/" + path) == host
  {
    var u := host + "/" + path;
    var d := DropPath(u);
    assert u[|host|] == '/' && u[|host| + 1..] == path;
    assert PathStartsAt(u, |host|);
    assert |d| == |host|;
    assert d == u[..|host|] == host;
  }


  predicate HasDomain(ds: seq<DomainConfig>, domain: string) {
    exists k :: 0 <= k < |ds| && ds[k].domain == domain
  }

  /** `toggleDomain(index)`: flips `enabled` of entry `index` and of no other
      entry; length and order stay. */
  function ToggleAt(ds: seq<DomainConfig>, index: int): (r: seq<DomainConfig>)
    requires 0 <= index < |ds|
    ensures |r| == |ds|
    ensures r[index].domain == ds[index].domain && r[index].enabled == !ds[index].enabled
    ensures forall k :: 0 <= k < |ds| && k != index ==> r[k] == ds[k]
  {
    ds[index := ds[index].(enabled := !ds[index].enabled)]
  }

  /** Toggling the same entry twice restores the list. */
  lemma ToggleTwice(ds: seq<DomainConfig>, index: int)
    requires 0 <= index < |ds|
    ensures ToggleAt(ToggleAt(ds, index), index) == ds
  {
  }

  /** `removeDomain(index)`: `filter((_, i) => i !== index)`. Entry `index`
      goes and the rest keep their order; an index outside the list removes
      nothing. */
  function RemoveAt(ds: seq<DomainConfig>, index: int): (r: seq<DomainConfig>)
    ensures 0 <= index < |ds| ==> |r| == |ds| - 1
    ensures 0 <= index < |ds| ==> forall k :: 0 <= k < index ==> r[k] == ds[k]
    ensures 0 <= index < |ds| ==> forall k :: index <= k < |r| ==> r[k] == ds[k + 1]
    ensures !(0 <= index < |ds|) ==> r == ds
  {
    if 0 <= index < |ds| then ds[..index] + ds[index + 1..] else ds
  }

  /** `addDomain`: `None` when the page returns without saving (blank input,
      or the normalised domain is already listed); otherwise the list with
      `{domain, enabled: true}` appended. */
  function AddEntry(ds: seq<DomainConfig>, input: string): (r: Option<seq<DomainConfig>>)
    ensures r.None? <==> AllSpace(input) || HasDomain(ds, NormalizeDomain(input))
    ensures r.Some? ==> |r.value| == |ds| + 1 && r.value[..|ds|] == ds
    ensures r.Some? ==> r.value[|ds|] == DomainConfig(NormalizeDomain(input), true)
  {
    if Trim(input) == [] then None
    else
      var domain := NormalizeDomain(input);
      if HasDomain(ds, domain) then None
      else Some(ds + [DomainConfig(domain, true)])
  }

  predicate DistinctDomains(ds: seq<DomainConfig>) {
    forall i, j :: 0 <= i < j < |ds| ==> ds[i].domain != ds[j].domain
  }

  /** Adding never introduces a duplicate domain. */
  lemma AddDomainKeepsDistinct(ds: seq<DomainConfig>, input: string)
    requires DistinctDomains(ds)
    ensures AddEntry(ds, input).Some? ==> DistinctDomains(AddEntry(ds, input).value)
  {
    var r := AddEntry(ds, input);
    if r.Some? {
      var v := r.value;
      forall i, j | 0 <= i < j < |v| ensures v[i].domain != v[j].domain {
        if j == |ds| {
          assert v[i] == ds[i];
        } else {
          assert v[i] == ds[i] && v[j] == ds[j];
        }
      }
    }
  }

  /** Blank input never changes the list. */
  lemma AddBlankIsNoOp(ds: seq<DomainConfig>, input: string)
    requires AllSpace(input)
    ensures AddEntry(ds, input).None?
  {
  }


  /** A piece of a one-line string is one line. */
  lemma SliceIsOneLine(s: string, i: int, j: int)
    requires 0 <= i <= j <= |s| && NoLineTerminator(s)
    ensures NoLineTerminator(s[i..j])
  {
    forall k | 0 <= k < j - i ensures !IsLineTerminator(s[i..j][k]) {
      assert s[i..j][k] == s[i + k];
    }
  }

  /** A normalised domain typed on one line never contains a `/`. */
  lemma NormalizedHasNoSlash(input: string)
    requires NoLineTerminator(input)
    ensures '/' !in NormalizeDomain(input)
  {
    var t := Trim(input);
    assert NoLineTerminator(t) by {
      var i :| SliceBetween(input, t, i, IsJsSpace);
      SliceIsOneLine(input, i, i + |t|);
    }
    var u := StripSchemeAndWww(t);
    SliceIsOneLine(t, |t| - |u|, |t|);
    DropPathSingleLine(u);
  }

  /** An input that is nothing but a scheme normalises to the empty domain
      and is accepted (when no empty domain is listed yet). */
  lemma SchemeOnlyAddsEmptyDomain(ds: seq<DomainConfig>)
    requires !HasDomain(ds, "")
    ensures AddEntry(ds, "https://") == Some(ds + [DomainConfig("", true)])
  {
    var s := "https://";
    assert s[0] == 'h' && !IsJsSpace(s[0]);
    assert TrimStart(s) == s;
    assert s[|s| - 1] == '/' && !IsJsSpace(s[|s| - 1]);
    assert TrimEnd(s) == s;
    assert Trim(s) == s;
    assert StartsWith(s, "https://");
    assert StripSchemeAndWww(s) == "";
    assert NormalizeDomain(s) == "";
  }

  /** The state of the settings page: the settings it loaded (null until
      loaded), the text box for a new domain, and the "saved" indicator. */
  class SettingsPanel {
    const store: Store
    var settings: Option<Settings>
    var newDomain: string
    var saved: bool

    constructor (store: Store)
      ensures this.store == store && settings == None && newDomain == "" && !saved
    {
      this.store := store;
      settings := None;
      newDomain := "";
      saved := false;
    }

    /** The page's initial effect: load the stored settings. */
    method Load()
      modifies this
      ensures settings == Some(store.CurrentSettings())
      ensures newDomain == old(newDomain) && saved == old(saved)
    {
      var s := store.GetSettings();
      settings := Some(s);
    }

    /** `handleSave`: nothing before the settings are loaded; otherwise the
        page's settings with the update applied become both the page's state
        and the stored settings, replacing whatever the store held. */
    method HandleSave(u: SettingsUpdate)
      modifies this, store
      ensures old(settings).None? ==>
        settings == old(settings) && saved == old(saved) && store.settingsBlob == old(store.settingsBlob)
      ensures old(settings).Some? ==>
        settings == Some(Merge(old(settings).value, u)) && store.settingsBlob == settings && saved
      ensures newDomain == old(newDomain)
      ensures store.userBlob == old(store.userBlob) && store.timeBlob == old(store.timeBlob)
    {
      if settings.None? {
        return;
      }
      var updated := Merge(settings.value, u);
      var stored := store.SaveSettings(FullUpdate(updated));
      MergeFull(old(store.CurrentSettings()), updated);
      settings := Some(updated);
      saved := true;
    }

    /** `toggleDomain`: saves the list with entry `index` flipped. */
    method ToggleDomain(index: int)
      requires settings.Some? ==> 0 <= index < |settings.value.trackedDomains|
      modifies this, store
      ensures old(settings).None? ==> settings == old(settings) && store.settingsBlob == old(store.settingsBlob)
      ensures old(settings).Some? ==>
        settings == Some(old(settings).value.(trackedDomains :=
          ToggleAt(old(settings).value.trackedDomains, index)))
        && store.settingsBlob == settings
      ensures store.userBlob == old(store.userBlob) && store.timeBlob == old(store.timeBlob)
    {
      if settings.None? {
        return;
      }
      var domains := ToggleAt(settings.value.trackedDomains, index);
      HandleSave(DomainsUpdate(domains));
    }

    /** `addDomain`: saves the list with the normalised text-box domain
        appended and clears the text box, unless the text is blank or the
        domain is already listed, in which case nothing changes. */
    method AddDomain()
      modifies this, store
      ensures old(settings).None? || AddEntry(old(settings).value.trackedDomains, old(newDomain)).None? ==>
        settings == old(settings) && newDomain == old(newDomain) && store.settingsBlob == old(store.settingsBlob)
      ensures old(settings).Some? && AddEntry(old(settings).value.trackedDomains, old(newDomain)).Some? ==>
        settings == Some(old(settings).value.(trackedDomains :=
          AddEntry(old(settings).value.trackedDomains, old(newDomain)).value))
        && store.settingsBlob == settings && newDomain == ""
      ensures store.userBlob == old(store.userBlob) && store.timeBlob == old(store.timeBlob)
    {
      if settings.None? {
        return;
      }
      var added := AddEntry(settings.value.trackedDomains, newDomain);
      if added.None? {
        return;
      }
      HandleSave(DomainsUpdate(added.value));
      newDomain := "";
    }

    /** `removeDomain`: saves the list without entry `index`. */
    method RemoveDomain(index: int)
      modifies this, store
      ensures old(settings).None? ==> settings == old(settings) && store.settingsBlob == old(store.settingsBlob)
      ensures old(settings).Some? ==>
        settings == Some(old(settings).value.(trackedDomains :=
          RemoveAt(old(settings).value.trackedDomains, index)))
        && store.settingsBlob == settings
      ensures store.userBlob == old(store.userBlob) && store.timeBlob == old(store.timeBlob)
    {
      if settings.None? {
        return;
      }
      var domains := RemoveAt(settings.value.trackedDomains, index);
      HandleSave(DomainsUpdate(domains));
    }
  }
}
