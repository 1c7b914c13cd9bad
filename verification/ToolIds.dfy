/**
 * Resolution of the tool id that namespaces config, error-report and
 * tracking calls. `useConfig` scans the page URL with `/toolId=([^&]+)/`
 * and falls back to the injected `__TOOL_ID__` and then to "unknown"; the
 * provider uses its `toolId` prop instead of the URL; the error reporter
 * and the tracker use only the injected global.
 *
 * The injected global is `None` when it is not set (undefined or null);
 * `Some("")` is the falsy empty string.
 */
module ToolIds {
  import opened Js

  const Marker: string := "toolId="

  /** The regular expression can match starting at `i`: the literal
      `toolId=` is there and is followed by at least one character that is
      not `&`. */
  predicate MatchAt(s: string, i: nat) {
    i + |Marker| < |s| && s[i..i + |Marker|] == Marker && s[i + |Marker|] != '&'
  }

  /** `i` is where the regular expression matches: the leftmost start. */
  predicate LeftmostMatch(s: string, i: nat) {
    MatchAt(s, i) && forall m: nat :: m < i ==> !MatchAt(s, m)
  }

  /** The end of the maximal run of characters other than `&` that starts at `j`. */
  function RunEnd(s: string, j: nat): (k: nat)
    requires j <= |s|
    ensures j <= k <= |s|
    ensures forall m :: j <= m < k ==> s[m] != '&'
    ensures k == |s| || s[k] == '&'
    decreases |s| - j
  {
    if j == |s| || s[j] == '&' then j else RunEnd(s, j + 1)
  }

  /** Capture group 1 of a match at `i`: the greedy `[^&]+` after the marker. */
  function Capture(s: string, i: nat): (c: string)
    requires MatchAt(s, i)
    ensures c != ""
    ensures forall m :: 0 <= m < |c| ==> c[m] != '&'
    ensures i + |Marker| + |c| <= |s| && c == s[i + |Marker| .. i + |Marker| + |c|]
    ensures i + |Marker| + |c| == |s| || s[i + |Marker| + |c|] == '&'
  {
    s[i + |Marker| .. RunEnd(s, i + |Marker|)]
  }

  /** The search of `String.prototype.match` from position `i` onwards. */
  function ScanFrom(s: string, i: nat): (r: Option<string>)
    requires i <= |s|
    ensures r.None? <==> forall j: nat :: i <= j ==> !MatchAt(s, j)
    ensures r.Some? ==> exists j: nat :: i <= j && MatchAt(s, j) && (forall m: nat :: i <= m < j ==> !MatchAt(s, m)) && r.value == Capture(s, j)
    decreases |s| - i
  {
    if i == |s| then None
    else if MatchAt(s, i) then Some(Capture(s, i))
    else ScanFrom(s, i + 1)
  }

  /** `href.match(/toolId=([^&]+)/)?.[1]`: the non-empty run of non-`&`
      characters after the leftmost `toolId=` that has one, or nothing when
      no `toolId=` in the URL is followed by such a run. */
  function ScanToolId(href: string): (r: Option<string>)
    ensures r.None? <==> forall i: nat :: !MatchAt(href, i)
    ensures r.Some? ==> exists i: nat :: LeftmostMatch(href, i) && r.value == Capture(href, i)
    ensures r.Some? ==> r.value != "" && forall m :: 0 <= m < |r.value| ==> r.value[m] != '&'
  {
    ScanFrom(href, 0)
  }

  /** `window.__TOOL_ID__ || 'unknown'` */
  function InjectedOrUnknown(injected: Option<string>): (id: string)
    ensures id != ""
    ensures injected.Some? && injected.value != "" ==> id == injected.value
    ensures injected.None? || injected.value == "" ==> id == "unknown"
  {
    if injected.Some? && injected.value != "" then injected.value else "unknown"
  }

  /** The id `useConfig` stores in its ref: the URL's `toolId` parameter,
      otherwise the injected global, otherwise "unknown". Never empty. */
  function ConfigToolId(href: string, injected: Option<string>): (id: string)
    ensures id != ""
    ensures (exists i: nat :: MatchAt(href, i)) ==> exists i: nat :: LeftmostMatch(href, i) && id == Capture(href, i)
    ensures (forall i: nat :: !MatchAt(href, i)) ==> id == InjectedOrUnknown(injected)
  {
    match ScanToolId(href)
    case Some(captured) => captured
    case None => InjectedOrUnknown(injected)
  }

  /** The provider's id: its `toolId` prop when truthy, otherwise the
      injected global, otherwise "unknown". The URL plays no part. */
  function ProviderToolId(prop: Option<string>, injected: Option<string>): (id: string)
    ensures id != ""
    ensures prop.Some? && prop.value != "" ==> id == prop.value
    ensures prop.None? || prop.value == "" ==> id == InjectedOrUnknown(injected)
  {
    if prop.Some? && prop.value != "" then prop.value else InjectedOrUnknown(injected)
  }

  /** Without a prop and without a `toolId=` in the URL, the provider and
      `useConfig` settle on the same id. */
  lemma ProviderAgreesWithConfigWithoutUrlId(href: string, prop: Option<string>, injected: Option<string>)
    requires prop.None? || prop.value == ""
    requires forall i: nat :: !MatchAt(href, i)
    ensures ProviderToolId(prop, injected) == ConfigToolId(href, injected)
  {
  }

  /** The chains differ: with no prop and no injected global, a URL carrying
      `?toolId=calc` gives `useConfig` the id "calc" while the provider, the
      error reporter and the tracker use "unknown". */
  lemma UrlIdReachesOnlyConfig()
    ensures ConfigToolId("?toolId=calc", None) == "calc"
    ensures ProviderToolId(None, None) == "unknown"
    ensures InjectedOrUnknown(None) == "unknown"
  {
    var href := "?toolId=calc";
    assert !MatchAt(href, 0) by {
      assert href[0..7][6] == 'd' != Marker[6];
    }
    assert MatchAt(href, 1) by {
      assert href[1..8] == Marker;
    }
    assert RunEnd(href, 8) == 12 by {
      assert RunEnd(href, 12) == 12;
      assert RunEnd(href, 11) == 12;
      assert RunEnd(href, 10) == 12;
      assert RunEnd(href, 9) == 12;
    }
    assert ScanFrom(href, 0) == ScanFrom(href, 1) == Some(href[8..12]);
    assert href[8..12] == "calc";
  }

  /** A `toolId=` followed directly by `&` does not match; the scan moves
      on to the next one that carries a value. */
  lemma EmptyParameterIsSkipped()
    ensures ConfigToolId("toolId=&toolId=ab", Some("fallback")) == "ab"
  {
    var href := "toolId=&toolId=ab";
    assert !MatchAt(href, 0) by { assert href[7] == '&'; }
    assert !MatchAt(href, 1) by { assert href[1..8][0] == 'o'; }
    assert !MatchAt(href, 2) by { assert href[2..9][0] == 'o'; }
    assert !MatchAt(href, 3) by { assert href[3..10][0] == 'l'; }
    assert !MatchAt(href, 4) by { assert href[4..11][0] == 'I'; }
    assert !MatchAt(href, 5) by { assert href[5..12][0] == 'd'; }
    assert !MatchAt(href, 6) by { assert href[6..13][0] == '='; }
    assert !MatchAt(href, 7) by { assert href[7..14][0] == '&'; }
    assert MatchAt(href, 8) by { assert href[8..15] == Marker; }
    assert RunEnd(href, 15) == 17 by { assert RunEnd(href, 16) == 17; }
    assert href[15..17] == "ab";
    assert ScanFrom(href, 8) == Some("ab");
    assert ScanFrom(href, 7) == ScanFrom(href, 8);
    assert ScanFrom(href, 6) == ScanFrom(href, 7);
    assert ScanFrom(href, 5) == ScanFrom(href, 6);
    assert ScanFrom(href, 4) == ScanFrom(href, 5);
    assert ScanFrom(href, 3) == ScanFrom(href, 4);
    assert ScanFrom(href, 2) == ScanFrom(href, 3);
    assert ScanFrom(href, 1) == ScanFrom(href, 2);
    assert ScanFrom(href, 0) == ScanFrom(href, 1);
  }
}
