/** `AppService`: the desktop-updater version gate, the clean-ups applied to an imported cURL
    command and its URL, and the conversion of a parsed cURL request into a request item. */
module AppService {
  import opened StringUtil
  import opened CollectionModel

  // ---------------------------------------------------------------------------------------
  // Version comparison (`isVersionGreater`)

  predicate AllDigits(s: string)
  {
    forall i :: 0 <= i < |s| ==> '0' <= s[i] <= '9'
  }

  function DecimalValue(s: string): nat
    requires AllDigits(s)
  {
    if s == [] then 0 else 10 * DecimalValue(s[..|s| - 1]) + (s[|s| - 1] as int - '0' as int)
  }

  /** `Number(part) || 0` for a dotted component: a decimal literal with an optional sign gives
      its value; anything `Number` rejects (NaN) and the empty string give 0. */
  function PartValue(p: string): int
  {
    if p != [] && AllDigits(p) then DecimalValue(p)
    else if |p| > 1 && p[0] == '-' && AllDigits(p[1..]) then 0 - DecimalValue(p[1..]) as int
    else if |p| > 1 && p[0] == '+' && AllDigits(p[1..]) then DecimalValue(p[1..])
    else 0
  }

  /** `v.split(".").map(Number)`, with the `|| 0` default applied. */
  function VersionParts(v: string): (ps: seq<int>)
    ensures |ps| == |Split(v, '.')|
  {
    var pieces := Split(v, '.');
    seq(|pieces|, i requires 0 <= i < |pieces| => PartValue(pieces[i]))
  }

  /** The `i`-th component, 0 when the version has fewer components. */
  function Component(ps: seq<int>, i: nat): int
  {
    if i < |ps| then ps[i] else 0
  }

  function Max(a: nat, b: nat): nat
  {
    if a < b then b else a
  }

  /** `a` is greater than `b` in the lexicographic order on zero-padded components: the first
      component where they differ is larger in `a`. */
  ghost predicate PartsGreater(a: seq<int>, b: seq<int>)
  {
    exists k :: 0 <= k < Max(|a|, |b|) && Component(a, k) > Component(b, k)
      && forall j :: 0 <= j < k ==> Component(a, j) == Component(b, j)
  }

  /** Two part lists that agree on every zero-padded component denote the same version. */
  ghost predicate SameVersion(a: seq<int>, b: seq<int>)
  {
    forall k :: 0 <= k < Max(|a|, |b|) ==> Component(a, k) == Component(b, k)
  }

  /** `isVersionGreater(v1, v2)`; `None` is an undefined configuration value or query. */
  method IsVersionGreater(v1: Option<string>, v2: Option<string>) returns (r: bool)
    ensures r <==> Truthy(v1) && Truthy(v2) && PartsGreater(VersionParts(v1.value), VersionParts(v2.value))
  {
    if Truthy(v1) && Truthy(v2) {
      var p1 := VersionParts(v1.value);
      var p2 := VersionParts(v2.value);
      var n := Max(|p1|, |p2|);
      var i := 0;
      while i < n
        invariant 0 <= i <= n
        invariant forall j :: 0 <= j < i ==> Component(p1, j) == Component(p2, j)
      {
        var a, b := Component(p1, i), Component(p2, i);
        if a > b {
          return true;
        }
        if a < b {
          FirstDifferenceDecides(p2, p1, i);
          return false;
        }
        i := i + 1;
      }
      assert SameVersion(p1, p2);
      SameVersionNotGreater(p1, p2);
    }
    return false;
  }

  /** When `b` wins at the first differing component `i`, `a` is not greater. */
  lemma FirstDifferenceDecides(a: seq<int>, b: seq<int>, i: nat)
    requires i < Max(|a|, |b|)
    requires forall j :: 0 <= j < i ==> Component(a, j) == Component(b, j)
    requires Component(a, i) > Component(b, i)
    ensures PartsGreater(a, b) && !PartsGreater(b, a)
  {
  }

  /** Equal versions ("1.2" and "1.2.0") are not greater either way. */
  lemma SameVersionNotGreater(a: seq<int>, b: seq<int>)
    requires SameVersion(a, b)
    ensures !PartsGreater(a, b) && !PartsGreater(b, a)
  {
  }

  /** The order is a strict order: irreflexive, asymmetric and transitive. */
  lemma PartsGreaterIsStrictOrder(a: seq<int>, b: seq<int>, c: seq<int>)
    ensures !PartsGreater(a, a)
    ensures PartsGreater(a, b) ==> !PartsGreater(b, a)
    ensures PartsGreater(a, b) && PartsGreater(b, c) ==> PartsGreater(a, c)
  {
    if PartsGreater(a, b) {
      var k :| 0 <= k < Max(|a|, |b|) && Component(a, k) > Component(b, k)
        && forall j :: 0 <= j < k ==> Component(a, j) == Component(b, j);
      FirstDifferenceDecides(a, b, k);
      if PartsGreater(b, c) {
        var m :| 0 <= m < Max(|b|, |c|) && Component(b, m) > Component(c, m)
          && forall j :: 0 <= j < m ==> Component(b, j) == Component(c, j);
        var d := if k < m then k else m;
        assert forall j :: 0 <= j < d ==> Component(a, j) == Component(c, j);
        assert Component(a, d) > Component(c, d);
        FirstDifferenceDecides(a, c, d);
      }
    }
  }

  /** Any two versions are ordered one way or the other, or are the same version. */
  lemma PartsTrichotomy(a: seq<int>, b: seq<int>)
    ensures PartsGreater(a, b) || PartsGreater(b, a) || SameVersion(a, b)
  {
    if !SameVersion(a, b) {
      var k :| 0 <= k < Max(|a|, |b|) && Component(a, k) != Component(b, k);
      var i := FirstDifference(a, b, k);
      if Component(a, i) > Component(b, i) {
        FirstDifferenceDecides(a, b, i);
      } else {
        FirstDifferenceDecides(b, a, i);
      }
    }
  }

  /** The first index at which two part lists differ, given that `k` is one. */
  lemma {:induction false} FirstDifference(a: seq<int>, b: seq<int>, k: nat) returns (i: nat)
    requires k < Max(|a|, |b|) && Component(a, k) != Component(b, k)
    ensures i <= k && Component(a, i) != Component(b, i)
    ensures forall j :: 0 <= j < i ==> Component(a, j) == Component(b, j)
    decreases k
  {
    if forall j :: 0 <= j < k ==> Component(a, j) == Component(b, j) {
      i := k;
    } else {
      var j :| 0 <= j < k && Component(a, j) != Component(b, j);
      i := FirstDifference(a, b, j);
    }
  }

  /** A trailing ".0" never changes a comparison. */
  lemma TrailingZeroIsSameVersion(a: seq<int>)
    ensures SameVersion(a + [0], a)
  {
    forall k | 0 <= k < Max(|a + [0]|, |a|)
      ensures Component(a + [0], k) == Component(a, k)
    {
    }
  }

  // ---------------------------------------------------------------------------------------
  // Updater gate (`getUpdaterDetails`)

  const HttpOk: int := 200
  const HttpNoContent: int := 204

  datatype Platform = Platform(signature: Option<string>, url: Option<string>)

  /** The `updater.*` configuration values. */
  datatype UpdaterConfig = UpdaterConfig(
    updateAvailable: Option<string>,
    appVersion: Option<string>,
    windows: Platform,
    macAppleSilicon: Platform,
    macIntel: Platform)

  /** The updater JSON: the version and one entry per platform
      (windows-x86_64, darwin-aarch64, darwin-x86_64). */
  datatype UpdaterJson = UpdaterJson(
    version: Option<string>,
    windowsX8664: Platform,
    darwinAarch64: Platform,
    darwinX8664: Platform)

  datatype UpdaterResponse = UpdaterResponse(statusCode: int, data: Option<UpdaterJson>)

  /** An update is offered only when it is switched on and the configured version is newer
      than the caller's; then the configured platforms are returned with 200, otherwise 204
      and no data. */
  method GetUpdaterDetails(config: UpdaterConfig, currentVersion: Option<string>) returns (resp: UpdaterResponse)
    ensures resp.statusCode == HttpOk <==>
      config.updateAvailable == Some("true") && Truthy(config.appVersion) && Truthy(currentVersion)
      && PartsGreater(VersionParts(config.appVersion.value), VersionParts(currentVersion.value))
    ensures resp.statusCode != HttpOk ==> resp == UpdaterResponse(HttpNoContent, None)
    ensures resp.statusCode == HttpOk ==>
      resp.data == Some(UpdaterJson(config.appVersion, config.windows, config.macAppleSilicon, config.macIntel))
    ensures config.appVersion == currentVersion ==> resp.statusCode == HttpNoContent
  {
    var greater := false;
    if config.updateAvailable == Some("true") {
      greater := IsVersionGreater(config.appVersion, currentVersion);
    }
    if greater {
      resp := UpdaterResponse(HttpOk,
        Some(UpdaterJson(config.appVersion, config.windows, config.macAppleSilicon, config.macIntel)));
    } else {
      resp := UpdaterResponse(HttpNoContent, None);
    }
    if config.appVersion == currentVersion && Truthy(currentVersion) {
      var p := VersionParts(currentVersion.value);
      PartsGreaterIsStrictOrder(p, p, p);
    }
  }

  // ---------------------------------------------------------------------------------------
  // cURL command clean-up (`formatCurl`)

  /** `replace(/^curl/i, "curl")`: a leading "curl" in any letter case becomes lower case. */
  function FixCurlPrefix(s: string): string
  {
    if |s| >= 4 && Lower(s[..4]) == "curl" then "curl" + s[4..] else s
  }

  /** `replace(/\s+/g, " ")`: every maximal run of white space becomes one space. */
  function Collapse(s: string): string
    decreases |s|
  {
    if s == [] then []
    else if IsSpace(s[0]) then [' '] + Collapse(TrimStart(s[1..]))
    else [s[0]] + Collapse(s[1..])
  }

  /** `formatCurl` as written: prefix fix, then white-space collapse, then `trim`. */
  function FormatCurl(s: string): string
  {
    Trim(Collapse(FixCurlPrefix(s)))
  }

  /** Every white-space character is a plain space and none is followed by another. */
  predicate SingleSpaced(t: string)
  {
    forall i :: 0 <= i < |t| && IsSpace(t[i]) ==> t[i] == ' ' && (i + 1 < |t| ==> !IsSpace(t[i + 1]))
  }

  /** The shape `formatCurl` promises: single-spaced, nothing to trim at either end. */
  predicate Normalized(t: string)
  {
    SingleSpaced(t) && (t == [] || (!IsSpace(t[0]) && !IsSpace(t[|t| - 1])))
  }

  /** The characters of `s` that are not white space, in order. */
  function NonSpace(s: string): string
  {
    if s == [] then [] else (if IsSpace(s[0]) then [] else [s[0]]) + NonSpace(s[1..])
  }

  lemma {:induction false} CollapseSingleSpaced(s: string)
    ensures SingleSpaced(Collapse(s))
    decreases |s|
  {
    if s != [] {
      if IsSpace(s[0]) {
        var t := TrimStart(s[1..]);
        CollapseSingleSpaced(t);
        if t != [] {
          CollapseNonSpace(t[0], t[1..]);
          assert t == [t[0]] + t[1..];
        }
        SingleSpacedCons(' ', Collapse(t));
      } else {
        CollapseSingleSpaced(s[1..]);
        SingleSpacedCons(s[0], Collapse(s[1..]));
      }
    }
  }

  /** Putting a non-space, or a space before a non-space, in front keeps a string single-spaced. */
  lemma SingleSpacedCons(c: char, u: string)
    requires SingleSpaced(u)
    requires !IsSpace(c) || (c == ' ' && (u == [] || !IsSpace(u[0])))
    ensures SingleSpaced([c] + u)
  {
    var t := [c] + u;
    forall i | 0 <= i < |t| && IsSpace(t[i])
      ensures t[i] == ' ' && (i + 1 < |t| ==> !IsSpace(t[i + 1]))
    {
      if i > 0 {
        assert t[i] == u[i - 1];
        if i + 1 < |t| {
          assert t[i + 1] == u[i];
        }
      }
    }
  }

  lemma SingleSpacedSlice(t: string, a: nat, b: nat)
    requires SingleSpaced(t) && a <= b <= |t|
    ensures SingleSpaced(t[a..b])
  {
    forall i | 0 <= i < b - a && IsSpace(t[a..b][i])
      ensures t[a..b][i] == ' ' && (i + 1 < b - a ==> !IsSpace(t[a..b][i + 1]))
    {
      assert t[a..b][i] == t[a + i];
      if i + 1 < b - a {
        assert t[a..b][i + 1] == t[a + i + 1];
      }
    }
  }

  /** Trimming keeps a single-spaced string single-spaced and leaves nothing to trim. */
  lemma TrimNormalizes(t: string)
    requires SingleSpaced(t)
    ensures Normalized(Trim(t))
  {
    var u := TrimStart(t);
    SingleSpacedSlice(t, |t| - |u|, |t|);
    SingleSpacedSlice(u, 0, |TrimEnd(u)|);
  }

  /** The output of `formatCurl` has no leading or trailing white space, and each run of
      white space inside it is one plain space. */
  lemma FormatCurlNormalized(s: string)
    ensures Normalized(FormatCurl(s))
  {
    CollapseSingleSpaced(FixCurlPrefix(s));
    TrimNormalizes(Collapse(FixCurlPrefix(s)));
  }

  lemma {:induction false} CollapseFixpoint(t: string)
    requires SingleSpaced(t)
    ensures Collapse(t) == t
    decreases |t|
  {
    if t != [] {
      var rest := t[1..];
      SingleSpacedSlice(t, 1, |t|);
      CollapseFixpoint(rest);
      assert t == [t[0]] + rest;
      if IsSpace(t[0]) {
        CollapseLoneSpace(rest);
      } else {
        CollapseNonSpace(t[0], rest);
      }
    }
  }

  lemma CollapseNonSpace(c: char, rest: string)
    requires !IsSpace(c)
    ensures Collapse([c] + rest) == [c] + Collapse(rest)
  {
    assert ([c] + rest)[1..] == rest;
  }

  lemma CollapseLoneSpace(rest: string)
    requires rest == [] || !IsSpace(rest[0])
    ensures Collapse([' '] + rest) == [' '] + Collapse(rest)
  {
    assert ([' '] + rest)[1..] == rest;
    assert TrimStart(rest) == rest;
  }

  /** A normalized string is left alone by the collapse and the trim. */
  lemma NormalizedFixpoint(t: string)
    requires Normalized(t)
    ensures Trim(Collapse(t)) == t
  {
    CollapseFixpoint(t);
  }

  lemma CurlLetters(s: string)
    requires |s| >= 4 && Lower(s[..4]) == "curl"
    ensures forall i :: 0 <= i < 4 ==> !IsSpace(s[i])
  {
    forall i | 0 <= i < 4
      ensures !IsSpace(s[i])
    {
      assert LowerChar(s[..4][i]) == "curl"[i];
    }
  }

  lemma FixCurlPrefixKeepsNormalized(t: string)
    requires Normalized(t)
    ensures Normalized(FixCurlPrefix(t))
  {
    if |t| >= 4 && Lower(t[..4]) == "curl" {
      CurlLetters(t);
      var r := FixCurlPrefix(t);
      forall i | 0 <= i < |r| && IsSpace(r[i])
        ensures r[i] == ' ' && (i + 1 < |r| ==> !IsSpace(r[i + 1]))
      {
        assert r[i] == t[i];
        if i + 1 < |r| {
          assert r[i + 1] == t[i + 1];
        }
      }
    }
  }

  /** Running `formatCurl` on its own output only re-applies the prefix fix. */
  lemma FormatCurlTwice(s: string)
    ensures FormatCurl(FormatCurl(s)) == FixCurlPrefix(FormatCurl(s))
  {
    var r := FormatCurl(s);
    FormatCurlNormalized(s);
    FixCurlPrefixKeepsNormalized(r);
    NormalizedFixpoint(FixCurlPrefix(r));
  }

  /** A string without white space is left alone by the collapse and the trim. */
  lemma NoSpaceFixpoint(t: string)
    requires NoSpace(t)
    ensures Collapse(t) == t && TrimStart(t) == t && Trim(t) == t
  {
    assert SingleSpaced(t);
    CollapseFixpoint(t);
    if t != [] {
      assert !IsSpace(t[0]) && !IsSpace(t[|t| - 1]);
    }
  }

  lemma CurlHasNoSpace()
    ensures NoSpace("CURL") && NoSpace("curl")
  {
    var t, u := "CURL", "curl";
    assert t[0] == 'C' && t[1] == 'U' && t[2] == 'R' && t[3] == 'L';
    assert u[0] == 'c' && u[1] == 'u' && u[2] == 'r' && u[3] == 'l';
  }

  lemma FormatCurlFirstPass()
    ensures FormatCurl(" CURL") == "CURL"
  {
    var t := "CURL";
    var s := [' '] + t;
    assert s == " CURL";
    CurlHasNoSpace();
    NoSpaceFixpoint(t);
    assert s[1..] == t;
    assert Lower(s[..4])[0] == ' ';
    assert FixCurlPrefix(s) == s;
    CollapseLoneSpace(t);
    assert TrimStart(s) == TrimStart(t);
  }

  lemma FormatCurlSecondPass()
    ensures FormatCurl("CURL") == "curl"
  {
    assert Lower("CURL"[..4]) == "curl";
    assert FixCurlPrefix("CURL") == "curl";
    CurlHasNoSpace();
    NoSpaceFixpoint("curl");
  }

  /** As written, `formatCurl` is not idempotent: the prefix fix runs before the trim, so an
      upper-case "CURL" after leading white space survives the first pass only. */
  lemma FormatCurlNotIdempotent()
    ensures FormatCurl(" CURL") == "CURL"
    ensures FormatCurl(FormatCurl(" CURL")) == "curl"
  {
    FormatCurlFirstPass();
    FormatCurlSecondPass();
  }

  /** `formatCurl` with the prefix fix applied after the trim. */
  function FormatCurlFixed(s: string): string
  {
    FixCurlPrefix(Trim(Collapse(s)))
  }

  /** The corrected clean-up gives the same shape and is idempotent. */
  lemma FormatCurlFixedIdempotent(s: string)
    ensures Normalized(FormatCurlFixed(s))
    ensures FormatCurlFixed(FormatCurlFixed(s)) == FormatCurlFixed(s)
  {
    var t := Trim(Collapse(s));
    CollapseSingleSpaced(s);
    TrimNormalizes(Collapse(s));
    FixCurlPrefixKeepsNormalized(t);
    NormalizedFixpoint(FixCurlPrefix(t));
  }

  lemma {:induction false} NonSpaceAppend(a: string, b: string)
    ensures NonSpace(a + b) == NonSpace(a) + NonSpace(b)
    decreases |a|
  {
    if a == [] {
      assert a + b == b;
    } else {
      assert (a + b)[0] == a[0] && (a + b)[1..] == a[1..] + b;
      NonSpaceAppend(a[1..], b);
    }
  }

  lemma {:induction false} NonSpaceOfSpaces(s: string)
    requires forall i :: 0 <= i < |s| ==> IsSpace(s[i])
    ensures NonSpace(s) == []
    decreases |s|
  {
    if s != [] {
      NonSpaceOfSpaces(s[1..]);
    }
  }

  lemma NonSpaceTrimStart(s: string)
    ensures NonSpace(TrimStart(s)) == NonSpace(s)
  {
    var u := TrimStart(s);
    assert s == s[..|s| - |u|] + u;
    NonSpaceAppend(s[..|s| - |u|], u);
    NonSpaceOfSpaces(s[..|s| - |u|]);
  }

  lemma NonSpaceTrimEnd(u: string)
    ensures NonSpace(TrimEnd(u)) == NonSpace(u)
  {
    var v := TrimEnd(u);
    assert u == v + u[|v|..];
    NonSpaceAppend(v, u[|v|..]);
    NonSpaceOfSpaces(u[|v|..]);
  }

  lemma NonSpaceTrim(s: string)
    ensures NonSpace(Trim(s)) == NonSpace(s)
  {
    NonSpaceTrimStart(s);
    NonSpaceTrimEnd(TrimStart(s));
  }

  lemma {:induction false} NonSpaceCollapse(s: string)
    ensures NonSpace(Collapse(s)) == NonSpace(s)
    decreases |s|
  {
    if s != [] {
      if IsSpace(s[0]) {
        var t := TrimStart(s[1..]);
        NonSpaceCollapse(t);
        NonSpaceTrim(s[1..]);
        NonSpaceAppend([' '], Collapse(t));
        assert NonSpace(TrimEnd(t)) == NonSpace(t) by {
          NonSpaceTrim(t);
          assert TrimStart(t) == t;
        }
      } else {
        NonSpaceCollapse(s[1..]);
        NonSpaceAppend([s[0]], Collapse(s[1..]));
      }
    }
  }

  /** `formatCurl` changes only white space, apart from the case of a leading "curl". */
  lemma FormatCurlKeepsText(s: string)
    ensures NonSpace(FormatCurl(s)) == NonSpace(FixCurlPrefix(s))
  {
    NonSpaceCollapse(FixCurlPrefix(s));
    NonSpaceTrim(Collapse(FixCurlPrefix(s)));
  }

  // ---------------------------------------------------------------------------------------
  // URL scheme clean-up (`handleFormatUrl`)

  /** Length of an `http://` or `https://` at the start of `s`, or 0. */
  function SchemeLength(s: string): nat
  {
    if StartsWith(s, "https://") then 8 else if StartsWith(s, "http://") then 7 else 0
  }

  /** `url.replace(/^(https?:\/\/\s*)+(https?:\/\/)/, "$2")` */
  function FormatUrl(url: string): string
  {
    if SchemeLength(url) > 0 then LastScheme(url) else url
  }

  /** A second scheme (after optional white space) directly follows the leading one. */
  predicate RepeatedScheme(url: string)
  {
    SchemeLength(url) > 0 && SchemeLength(TrimStart(url[SchemeLength(url)..])) > 0
  }

  /** Length of an `http://` or `https://` starting at index `i` of `s` and ending no later
      than `j`, or 0. */
  function SchemeAt(s: string, i: nat, j: nat): nat
    requires i <= j <= |s|
  {
    if i + 8 <= j && s[i] == 'h' && s[i + 1] == 't' && s[i + 2] == 't' && s[i + 3] == 'p'
      && s[i + 4] == 's' && s[i + 5] == ':' && s[i + 6] == '/' && s[i + 7] == '/' then 8
    else if i + 7 <= j && s[i] == 'h' && s[i + 1] == 't' && s[i + 2] == 't' && s[i + 3] == 'p'
      && s[i + 4] == ':' && s[i + 5] == '/' && s[i + 6] == '/' then 7
    else 0
  }

  /** The first index from `i` on that does not hold white space (`\s*`). */
  function SkipSpaces(s: string, i: nat): (k: nat)
    requires i <= |s|
    ensures i <= k <= |s|
    ensures k == |s| || !IsSpace(s[k])
    decreases |s| - i
  {
    if i == |s| || !IsSpace(s[i]) then i else SkipSpaces(s, i + 1)
  }

  /** `s[i..j]` matches `(https?:\/\/\s*)+`: one or more schemes, each followed by optional
      white space. (At most one of the two schemes can start at a given index.) */
  predicate SchemeChainAt(s: string, i: nat, j: nat)
    requires i <= j <= |s|
    decreases j - i, 0
  {
    SchemeAt(s, i, j) > 0 && ChainTailAt(s, i + SchemeAt(s, i, j), j)
  }

  /** What may follow a scheme inside the chain: white space, then nothing or another chain. */
  predicate ChainTailAt(s: string, i: nat, j: nat)
    requires i <= j <= |s|
    decreases j - i, 1
  {
    i == j || (IsSpace(s[i]) && ChainTailAt(s, i + 1, j)) || SchemeChainAt(s, i, j)
  }

  /** White space up to the next non-space index, followed by a chain (or by nothing), is a
      valid tail after a scheme. */
  lemma {:induction false} SpacesThenChain(s: string, a: nat, j: nat)
    requires a <= |s| && SkipSpaces(s, a) <= j <= |s|
    requires SkipSpaces(s, a) == j || SchemeChainAt(s, SkipSpaces(s, a), j)
    ensures ChainTailAt(s, a, j)
    decreases j - a
  {
    if a < SkipSpaces(s, a) {
      SpacesThenChain(s, a + 1, j);
    }
  }

  /** A scheme at `i`, white space, then a chain (or nothing) up to `k`: together a chain
      from `i` to `k`. */
  lemma ChainJoin(s: string, i: nat, k: nat)
    requires i <= |s| && SchemeAt(s, i, |s|) > 0
    requires SkipSpaces(s, i + SchemeAt(s, i, |s|)) <= k <= |s|
    requires k == SkipSpaces(s, i + SchemeAt(s, i, |s|))
      || SchemeChainAt(s, SkipSpaces(s, i + SchemeAt(s, i, |s|)), k)
    ensures SchemeChainAt(s, i, k)
  {
    assert SchemeAt(s, i, k) == SchemeAt(s, i, |s|);
    SpacesThenChain(s, i + SchemeAt(s, i, |s|), k);
  }

  /** From a scheme at index `i`, the index of the last scheme of the chain
      `scheme \s* scheme \s* ...` that starts there. */
  function LastSchemeFrom(s: string, i: nat): (k: nat)
    requires i <= |s| && SchemeAt(s, i, |s|) > 0
    ensures i <= k <= |s|
    decreases |s| - i
  {
    var m := SkipSpaces(s, i + SchemeAt(s, i, |s|));
    if SchemeAt(s, m, |s|) > 0 then LastSchemeFrom(s, m) else i
  }

  /** The walk ends at a scheme that no other scheme follows, reached over a scheme chain. */
  lemma {:induction false} LastSchemeFromChain(s: string, i: nat)
    requires i <= |s| && SchemeAt(s, i, |s|) > 0
    ensures SchemeAt(s, LastSchemeFrom(s, i), |s|) > 0
    ensures SchemeAt(s, SkipSpaces(s, LastSchemeFrom(s, i) + SchemeAt(s, LastSchemeFrom(s, i), |s|)), |s|) == 0
    ensures LastSchemeFrom(s, i) == i || SchemeChainAt(s, i, LastSchemeFrom(s, i))
    decreases |s| - i
  {
    var m := SkipSpaces(s, i + SchemeAt(s, i, |s|));
    if SchemeAt(s, m, |s|) > 0 {
      var k := LastSchemeFrom(s, m);
      assert LastSchemeFrom(s, i) == k;
      LastSchemeFromChain(s, m);
      ChainJoin(s, i, k);
    }
  }

  /** `SchemeLength` of a suffix is `SchemeAt` at the suffix's start. */
  lemma SchemeLengthAt(s: string, i: nat)
    requires i <= |s|
    ensures SchemeLength(s[i..]) == SchemeAt(s, i, |s|)
  {
    var u := s[i..];
    assert forall p :: 0 <= p < |u| ==> u[p] == s[i + p];
    if |u| >= 8 {
      assert u[..8] == "https://" <==> (u[0] == 'h' && u[1] == 't' && u[2] == 't' && u[3] == 'p'
        && u[4] == 's' && u[5] == ':' && u[6] == '/' && u[7] == '/');
    }
    if |u| >= 7 {
      assert u[..7] == "http://" <==> (u[0] == 'h' && u[1] == 't' && u[2] == 't' && u[3] == 'p'
        && u[4] == ':' && u[5] == '/' && u[6] == '/');
    }
  }

  /** `TrimStart` of a suffix is the suffix from the first non-space index. */
  lemma {:induction false} TrimStartSkip(s: string, i: nat)
    requires i <= |s|
    ensures TrimStart(s[i..]) == s[SkipSpaces(s, i)..]
    decreases |s| - i
  {
    if i < |s| && IsSpace(s[i]) {
      assert s[i..][1..] == s[i + 1..];
      TrimStartSkip(s, i + 1);
    }
  }

  /** The scheme after the white space that starts a suffix, read on indices. */
  lemma SchemeAfterSpaces(s: string, a: nat)
    requires a <= |s|
    ensures SchemeLength(TrimStart(s[a..])) == SchemeAt(s, SkipSpaces(s, a), |s|)
  {
    TrimStartSkip(s, a);
    SchemeLengthAt(s, SkipSpaces(s, a));
  }

  /** The index-based walk, read back on suffixes. */
  lemma LastSchemeBridge(s: string, k: nat)
    requires k <= |s| && SchemeAt(s, k, |s|) > 0
    requires SchemeAt(s, SkipSpaces(s, k + SchemeAt(s, k, |s|)), |s|) == 0
    ensures SchemeLength(s[k..]) > 0
    ensures SchemeLength(TrimStart(s[k..][SchemeLength(s[k..])..])) == 0
  {
    var n := SchemeAt(s, k, |s|);
    SchemeLengthAt(s, k);
    assert s[k..][n..] == s[k + n..];
    SchemeAfterSpaces(s, k + n);
  }

  /** From a string that starts with a scheme, the suffix that starts at the last scheme of
      the chain `scheme \s* scheme \s* ...` it begins with. */
  function LastScheme(s: string): (r: string)
    requires SchemeLength(s) > 0
    ensures |r| <= |s| && r == s[|s| - |r|..]
    ensures SchemeLength(r) > 0
    ensures SchemeLength(TrimStart(r[SchemeLength(r)..])) == 0
    ensures r == s || SchemeChainAt(s, 0, |s| - |r|)
  {
    SchemeLengthAt(s, 0);
    assert s[0..] == s;
    var k := LastSchemeFrom(s, 0);
    LastSchemeFromChain(s, 0);
    LastSchemeBridge(s, k);
    assert |s| - |s[k..]| == k;
    s[k..]
  }

  /** A second scheme directly follows the leading one, read on indices. */
  lemma RepeatedSchemeAt(url: string)
    requires SchemeLength(url) > 0
    ensures SchemeAt(url, 0, |url|) == SchemeLength(url)
    ensures RepeatedScheme(url) <==> SchemeAt(url, SkipSpaces(url, SchemeLength(url)), |url|) > 0
  {
    SchemeLengthAt(url, 0);
    assert url[0..] == url;
    SchemeAfterSpaces(url, SchemeLength(url));
  }

  /** The clean-up only drops a prefix of the URL, and that prefix is a scheme chain. */
  lemma FormatUrlSuffix(url: string)
    ensures |FormatUrl(url)| <= |url| && FormatUrl(url) == url[|url| - |FormatUrl(url)|..]
    ensures FormatUrl(url) == url || SchemeChainAt(url, 0, |url| - |FormatUrl(url)|)
  {
    if SchemeLength(url) > 0 {
      var r := LastScheme(url);
      assert FormatUrl(url) == r;
    }
  }

  /** The URL is changed exactly when it starts with a repeated scheme. */
  lemma FormatUrlChangesIff(url: string)
    ensures FormatUrl(url) != url <==> RepeatedScheme(url)
  {
    if SchemeLength(url) > 0 {
      RepeatedSchemeAt(url);
      var k := LastSchemeFrom(url, 0);
      LastSchemeFromChain(url, 0);
      assert FormatUrl(url) == url[k..];
      assert k == 0 <==> !RepeatedScheme(url);
    }
  }

  /** A URL keeps its leading scheme, and no repeated scheme is left. */
  lemma FormatUrlLeavesOneScheme(url: string)
    ensures SchemeLength(FormatUrl(url)) > 0 <==> SchemeLength(url) > 0
    ensures !RepeatedScheme(FormatUrl(url))
  {
  }

  /** Cleaning a URL twice is the same as cleaning it once. */
  lemma FormatUrlIdempotent(url: string)
    ensures FormatUrl(FormatUrl(url)) == FormatUrl(url)
  {
    FormatUrlLeavesOneScheme(url);
    FormatUrlChangesIff(FormatUrl(url));
  }

  // ---------------------------------------------------------------------------------------
  // Parsed cURL request to request item (`transformRequest`)

  /** `method.toUpperCase()`, with anything but the five supported verbs mapped to "INVALID". */
  function NormalizeMethod(m: string): (r: string)
    ensures r in {"GET", "POST", "PUT", "PATCH", "DELETE", "INVALID"}
    ensures Upper(m) in {"GET", "POST", "PUT", "PATCH", "DELETE"} ==> r == Upper(m)
    ensures Upper(m) !in {"GET", "POST", "PUT", "PATCH", "DELETE"} ==> r == "INVALID"
  {
    var u := Upper(m);
    if u == "GET" || u == "POST" || u == "PUT" || u == "PATCH" || u == "DELETE" then u else "INVALID"
  }

  /** `files` of the parsed request: an array of `{key}` objects or an object keyed by name. */
  datatype FileSet = FileArray(keys: seq<Option<string>>) | FileObject(names: seq<string>)

  /** The object curlconverter produces: `queries` and `headers` are the entries of plain
      objects, listed in the order `Object.entries` yields them (integer-like keys first in
      ascending order, then the other keys in insertion order). */
  datatype CurlRequest = CurlRequest(
    httpMethod: string,
    url: string,
    queries: Option<seq<(string, string)>>,
    headers: Option<seq<(string, string)>>,
    data: Option<string>,
    files: Option<FileSet>)

  /** What the library calls return for this request. `multipartRows` is the list of text rows
      the multipart branch extracts (boundary split, or `JSON.parse`, or `&`-split pairs), or
      `None` when that extraction throws (a `split` on undefined data or on a part without a
      name). */
  datatype LibraryResults = LibraryResults(
    multipartRows: Option<seq<KeyValue>>,
    prettyJson: string,
    compactJson: string,
    urlencodedRows: seq<KeyValue>,
    decodeBase64: string -> string)

  /** The `TypeError`s `transformRequest` can throw. */
  datatype TransformError = HeadersMissing | MultipartUnreadable

  datatype AuthState = AuthState(auth: Auth, mode: AuthMode)

  const InitialAuth := AuthState(EmptyAuth, NoAuth)

  predicate IsApiKeyName(key: string)
  {
    Lower(key) == "api-key" || Lower(key) == "x-api-key"
  }

  predicate IsAuthorization(key: string)
  {
    Lower(key) == "authorization"
  }

  predicate IsBearer(value: string)
  {
    StartsWith(value, "bearer ") || StartsWith(value, "Bearer ")
  }

  predicate IsBasic(value: string)
  {
    StartsWith(value, "basic ") || StartsWith(value, "Basic ")
  }

  /** `decoded.split(":")` read as `[username, password]`: the text before the first colon,
      and the text between the first and the second colon. */
  function BasicCredentials(decoded: string): (b: BasicAuth)
    ensures b.username == decoded[..IndexOf(decoded, ':')]
    ensures IndexOf(decoded, ':') == |decoded| ==> b.password == ""
    ensures IndexOf(decoded, ':') < |decoded| ==>
      var rest := decoded[IndexOf(decoded, ':') + 1..];
      b.password == rest[..IndexOf(rest, ':')]
  {
    var parts := Split(decoded, ':');
    BasicAuth(parts[0], if |parts| > 1 then parts[1] else "")
  }

  /** The auth type one query (`inHeaders` false) or header entry switches to, if any. */
  function AuthTrigger(key: string, value: string, inHeaders: bool): Option<AuthMode>
  {
    if IsApiKeyName(key) then Some(ApiKeyAuth)
    else if inHeaders && IsAuthorization(key) && IsBearer(value) then Some(BearerToken)
    else if inHeaders && IsAuthorization(key) && IsBasic(value) then Some(BasicAuthMode)
    else None
  }

  /** No entry passes two of the auth checks: the key names differ, and so do the prefixes
      "bearer " and "basic ". */
  lemma AuthChecksExclusive(key: string, value: string)
    ensures !(IsApiKeyName(key) && IsAuthorization(key))
    ensures !(IsBearer(value) && IsBasic(value))
  {
    if IsBearer(value) {
      assert value[..7][1] == 'e';
    }
  }

  /** The auth checks made for one query or header entry. The source runs the header checks
      (bearer, API key, basic) one after the other; as no entry passes two of them
      (`AuthChecksExclusive`), at most one applies. */
  function AuthStep(st: AuthState, key: string, value: string, inHeaders: bool, decode: string -> string): (s: AuthState)
    ensures AuthTrigger(key, value, inHeaders).None? ==> s == st
    ensures AuthTrigger(key, value, inHeaders).Some? ==> s.mode == AuthTrigger(key, value, inHeaders).value
    ensures s.auth.bearerToken ==
      if inHeaders && IsAuthorization(key) && IsBearer(value) then Trim(value[7..]) else st.auth.bearerToken
    ensures s.auth.apiKey ==
      if IsApiKeyName(key) then ApiKey(key, value, if inHeaders then Header else QueryParameter) else st.auth.apiKey
    ensures s.auth.basicAuth ==
      if inHeaders && IsAuthorization(key) && IsBasic(value) then BasicCredentials(decode(value[6..]))
      else st.auth.basicAuth
  {
    AuthChecksExclusive(key, value);
    if IsApiKeyName(key) then
      AuthState(st.auth.(apiKey := ApiKey(key, value, if inHeaders then Header else QueryParameter)), ApiKeyAuth)
    else if inHeaders && IsAuthorization(key) && IsBearer(value) then
      AuthState(st.auth.(bearerToken := Trim(value[7..])), BearerToken)
    else if inHeaders && IsAuthorization(key) && IsBasic(value) then
      AuthState(st.auth.(basicAuth := BasicCredentials(decode(value[6..]))), BasicAuthMode)
    else st
  }

  /** The auth state after the checks on every entry, in order. */
  function AuthFold(st: AuthState, es: seq<(string, string)>, inHeaders: bool, decode: string -> string): AuthState
    decreases |es|
  {
    if es == [] then st
    else AuthStep(AuthFold(st, es[..|es| - 1], inHeaders, decode), es[|es| - 1].0, es[|es| - 1].1, inHeaders, decode)
  }

  /** Every entry as a checked row. */
  function EntryRows(es: seq<(string, string)>): (rows: seq<KeyValue>)
    ensures |rows| == |es|
    ensures forall i :: 0 <= i < |es| ==> rows[i] == KeyValue(es[i].0, es[i].1, true)
    decreases |es|
  {
    if es == [] then [] else EntryRows(es[..|es| - 1]) + [KeyValue(es[|es| - 1].0, es[|es| - 1].1, true)]
  }

  /** The header rows copied into the request: all of them, except "Content-Type" in form-data mode. */
  function KeptHeaderRows(hs: seq<(string, string)>, isFormData: bool): seq<KeyValue>
    decreases |hs|
  {
    if hs == [] then []
    else
      var last := hs[|hs| - 1];
      KeptHeaderRows(hs[..|hs| - 1], isFormData)
      + (if isFormData && last.0 == "Content-Type" then [] else [KeyValue(last.0, last.1, true)])
  }

  /** `headers[key]`: the value of the entry with that key. */
  function Lookup(hs: seq<(string, string)>, key: string): (v: Option<string>)
    ensures v.Some? <==> exists i :: 0 <= i < |hs| && hs[i].0 == key
    ensures v.Some? ==> (key, v.value) in hs
  {
    if hs == [] then None else if hs[0].0 == key then Some(hs[0].1) else Lookup(hs[1..], key)
  }

  /** `headers["content-type"] || headers["Content-Type"] || ""` */
  function ContentType(hs: seq<(string, string)>): string
  {
    var lower := Lookup(hs, "content-type");
    var upper := Lookup(hs, "Content-Type");
    if Truthy(lower) then lower.value else if Truthy(upper) then upper.value else ""
  }

  /** The body type chosen for a content type, in the order the checks are made. */
  function ContentBodyMode(ct: string): BodyMode
  {
    if StartsWith(ct, "multipart/form-data") then Multipart
    else if Contains(ct, "application/json") then Json
    else if Contains(ct, "application/javascript") then JavaScript
    else if Contains(ct, "text/html") then TextHtml
    else if Contains(ct, "application/xml") || Contains(ct, "text/xml") then Xml
    else if Contains(ct, "application/x-www-form-urlencoded") then UrlEncoded
    else TextPlain
  }

  datatype BodyOutcome = BodyOutcome(raw: string, urlencoded: seq<KeyValue>, formText: seq<KeyValue>, mode: BodyMode)

  const NoBodyOutcome := BodyOutcome("", [], [], NoBody)

  /** The body branch taken for a request with data or files. */
  function BodyFor(ct: string, lib: LibraryResults): (r: Result<BodyOutcome, TransformError>)
    ensures r.Err? <==> ContentBodyMode(ct) == Multipart && lib.multipartRows.None?
    ensures r.Ok? ==> r.value.mode == ContentBodyMode(ct)
    ensures ContentBodyMode(ct) == Json ==> r == Ok(BodyOutcome(lib.prettyJson, [], [], Json))
    ensures ContentBodyMode(ct) == TextPlain ==> r == Ok(BodyOutcome(lib.compactJson, [], [], TextPlain))
    ensures ContentBodyMode(ct) == UrlEncoded ==> r == Ok(BodyOutcome("", lib.urlencodedRows, [], UrlEncoded))
    ensures ContentBodyMode(ct) == Multipart && lib.multipartRows.Some? ==>
      r == Ok(BodyOutcome("", [], lib.multipartRows.value, Multipart))
    ensures ContentBodyMode(ct) in {JavaScript, TextHtml, Xml} ==> r == Ok(BodyOutcome("", [], [], ContentBodyMode(ct)))
  {
    match ContentBodyMode(ct)
    case Multipart =>
      if lib.multipartRows.None? then Err(MultipartUnreadable)
      else Ok(BodyOutcome("", [], lib.multipartRows.value, Multipart))
    case Json => Ok(BodyOutcome(lib.prettyJson, [], [], Json))
    case UrlEncoded => Ok(BodyOutcome("", lib.urlencodedRows, [], UrlEncoded))
    case TextPlain => Ok(BodyOutcome(lib.compactJson, [], [], TextPlain))
    case other => Ok(BodyOutcome("", [], [], other))
  }

  /** The rows pushed into `formdata.text` for the request's files. */
  function FileRows(f: FileSet): (rows: seq<KeyValue>)
    ensures |rows| == (if f.FileArray? then |f.keys| else |f.names|)
    ensures forall i :: 0 <= i < |rows| ==> rows[i].value == "" && rows[i].checked
    ensures f.FileArray? ==> forall i :: 0 <= i < |f.keys| ==>
      rows[i].key == (if f.keys[i].Some? && f.keys[i].value != "" then f.keys[i].value else "")
    ensures f.FileObject? ==> forall i :: 0 <= i < |f.names| ==> rows[i].key == f.names[i]
  {
    match f
    case FileArray(keys) =>
      seq(|keys|, i requires 0 <= i < |keys| => KeyValue(if Truthy(keys[i]) then keys[i].value else "", "", true))
    case FileObject(names) =>
      seq(|names|, i requires 0 <= i < |names| => KeyValue(names[i], "", true))
  }

  predicate HasBody(req: CurlRequest)
  {
    Truthy(req.data) || req.files.Some?
  }

  /** The body branch, or the `TypeError` of reading `headers` when there are none. */
  function RequestBody(req: CurlRequest, lib: LibraryResults): Result<BodyOutcome, TransformError>
  {
    if !HasBody(req) then Ok(NoBodyOutcome)
    else if req.headers.None? then Err(HeadersMissing)
    else BodyFor(ContentType(req.headers.value), lib)
  }

  /** The auth state after the query entries. */
  function QueryAuth(req: CurlRequest, lib: LibraryResults): AuthState
  {
    if req.queries.Some? then AuthFold(InitialAuth, req.queries.value, false, lib.decodeBase64) else InitialAuth
  }

  /** The auth state after the query entries and then the header entries. */
  function FinalAuth(req: CurlRequest, lib: LibraryResults): AuthState
  {
    if req.headers.Some? then AuthFold(QueryAuth(req, lib), req.headers.value, true, lib.decodeBase64)
    else QueryAuth(req, lib)
  }

  /** The request item built around a body outcome. */
  function Assemble(req: CurlRequest, lib: LibraryResults, b: BodyOutcome): TransformedRequest
  {
    var url := FormatUrl(req.url);
    var st := FinalAuth(req, lib);
    var request := RequestData(
      NormalizeMethod(req.httpMethod),
      url,
      Body(b.raw, b.urlencoded, b.formText + (if req.files.Some? then FileRows(req.files.value) else []), []),
      if req.headers.Some? then KeptHeaderRows(req.headers.value, b.mode == Multipart) + [DefaultRow] else [],
      if req.queries.Some? then EntryRows(req.queries.value) else [],
      st.auth,
      b.mode,
      st.mode);
    TransformedRequest(url, "", Request, User, PadDefaults(request), "", "")
  }

  /** The request item `transformRequest` returns, or the error it throws. */
  function Transform(req: CurlRequest, lib: LibraryResults): Result<TransformedRequest, TransformError>
  {
    var body := RequestBody(req, lib);
    if body.Err? then Err(body.error) else Ok(Assemble(req, lib, body.value))
  }

  /** The query loop of `transformRequest`: one checked row per entry, and the API-key check. */
  method CollectQueries(qs: seq<(string, string)>, decode: string -> string) returns (rows: seq<KeyValue>, st: AuthState)
    ensures rows == EntryRows(qs)
    ensures st == AuthFold(InitialAuth, qs, false, decode)
  {
    rows, st := [], InitialAuth;
    var i := 0;
    while i < |qs|
      invariant 0 <= i <= |qs|
      invariant rows == EntryRows(qs[..i])
      invariant st == AuthFold(InitialAuth, qs[..i], false, decode)
    {
      assert qs[..i + 1][..i] == qs[..i];
      AuthFoldStep(InitialAuth, qs, i, false, decode);
      rows := rows + [KeyValue(qs[i].0, qs[i].1, true)];
      st := AuthStep(st, qs[i].0, qs[i].1, false, decode);
      i := i + 1;
    }
    assert qs[..|qs|] == qs;
  }

  lemma AuthFoldStep(st0: AuthState, es: seq<(string, string)>, i: nat, inHeaders: bool, decode: string -> string)
    requires i < |es|
    ensures AuthFold(st0, es[..i + 1], inHeaders, decode)
      == AuthStep(AuthFold(st0, es[..i], inHeaders, decode), es[i].0, es[i].1, inHeaders, decode)
  {
    assert es[..i + 1][..i] == es[..i];
  }

  lemma KeptHeaderRowsStep(hs: seq<(string, string)>, i: nat, isFormData: bool)
    requires i < |hs|
    ensures KeptHeaderRows(hs[..i + 1], isFormData) == KeptHeaderRows(hs[..i], isFormData)
      + (if isFormData && hs[i].0 == "Content-Type" then [] else [KeyValue(hs[i].0, hs[i].1, true)])
  {
    assert hs[..i + 1][..i] == hs[..i];
  }

  /** The header loop of `transformRequest`: copy the header (except "Content-Type" in form-data
      mode), then the bearer, API-key and basic checks; one default row at the end. */
  method CollectHeaders(st0: AuthState, hs: seq<(string, string)>, isFormData: bool, decode: string -> string)
    returns (rows: seq<KeyValue>, st: AuthState)
    ensures rows == KeptHeaderRows(hs, isFormData) + [DefaultRow]
    ensures st == AuthFold(st0, hs, true, decode)
  {
    rows, st := [], st0;
    var i := 0;
    while i < |hs|
      invariant 0 <= i <= |hs|
      invariant rows == KeptHeaderRows(hs[..i], isFormData)
      invariant st == AuthFold(st0, hs[..i], true, decode)
    {
      var key, value := hs[i].0, hs[i].1;
      KeptHeaderRowsStep(hs, i, isFormData);
      AuthFoldStep(st0, hs, i, true, decode);
      if !(isFormData && key == "Content-Type") {
        rows := rows + [KeyValue(key, value, true)];
      }
      st := AuthStep(st, key, value, true, decode);
      i := i + 1;
    }
    assert hs[..|hs|] == hs;
    rows := rows + [DefaultRow];
  }

  /** The body branch of `transformRequest`: nothing without data or files; otherwise the
      content type (read from `headers`, which must then exist) picks the body. */
  method SelectBody(req: CurlRequest, lib: LibraryResults) returns (r: Result<BodyOutcome, TransformError>)
    ensures r == RequestBody(req, lib)
  {
    if !HasBody(req) {
      return Ok(NoBodyOutcome);
    }
    if req.headers.None? {
      return Err(HeadersMissing);
    }
    r := BodyFor(ContentType(req.headers.value), lib);
  }

  /** The rest of `transformRequest` around a chosen body: query rows and query auth, the file
      rows, header rows and header auth, then the padding. */
  method BuildRequest(req: CurlRequest, lib: LibraryResults, body: BodyOutcome) returns (item: TransformedRequest)
    ensures item == Assemble(req, lib, body)
  {
    var url := FormatUrl(req.url);
    var auth := InitialAuth;
    var queryParams: seq<KeyValue> := [];
    if req.queries.Some? {
      queryParams, auth := CollectQueries(req.queries.value, lib.decodeBase64);
    }
    assert auth == QueryAuth(req, lib);
    var formText := body.formText;
    if req.files.Some? {
      formText := formText + FileRows(req.files.value);
    }
    var headers: seq<KeyValue> := [];
    if req.headers.Some? {
      headers, auth := CollectHeaders(auth, req.headers.value, body.mode == Multipart, lib.decodeBase64);
    }
    assert auth == FinalAuth(req, lib);
    var request := RequestData(NormalizeMethod(req.httpMethod), url, Body(body.raw, body.urlencoded, formText, []),
      headers, queryParams, auth.auth, body.mode, auth.mode);
    item := TransformedRequest(url, "", Request, User, PadDefaults(request), "", "");
  }

  /** `transformRequest`: the request item, or the error thrown while reading the body. */
  method TransformRequest(req: CurlRequest, lib: LibraryResults) returns (r: Result<TransformedRequest, TransformError>)
    ensures r == Transform(req, lib)
  {
    var body := SelectBody(req, lib);
    if body.Err? {
      return Err(body.error);
    }
    var item := BuildRequest(req, lib, body.value);
    r := Ok(item);
  }

  // Properties of the imported request

  /** The import fails exactly when a body is present without headers, or when a multipart body
      cannot be read. */
  lemma TransformErrors(req: CurlRequest, lib: LibraryResults)
    ensures Transform(req, lib).Err? <==>
      HasBody(req) && (req.headers.None? ||
        (ContentBodyMode(ContentType(req.headers.value)) == Multipart && lib.multipartRows.None?))
  {
  }

  /** What fills the rows and the raw body: the query rows, pretty JSON for JSON and compact
      JSON for plain text in `raw` (nothing for JavaScript, HTML and XML), the parsed rows for
      url-encoded, the multipart rows followed by the file rows in `formdata.text`, and only the
      default row in `formdata.file`; empty lists receive their default row. */
  lemma TransformRows(req: CurlRequest, lib: LibraryResults)
    requires Transform(req, lib).Ok?
    ensures Transform(req, lib).value.request.bodyType == Multipart ==> lib.multipartRows.Some?
    ensures var q := Transform(req, lib).value.request;
      q.queryParams == PadRows(if req.queries.Some? then EntryRows(req.queries.value) else [])
      && q.body.raw == (if q.bodyType == Json then lib.prettyJson else if q.bodyType == TextPlain then lib.compactJson else "")
      && q.body.urlencoded == PadRows(if q.bodyType == UrlEncoded then lib.urlencodedRows else [])
      && q.body.formText == PadRows((if q.bodyType == Multipart then lib.multipartRows.value else [])
           + (if req.files.Some? then FileRows(req.files.value) else []))
      && q.body.formFile == [DefaultFile]
  {
    var b := RequestBody(req, lib).value;
    assert Transform(req, lib).value == Assemble(req, lib, b);
    if HasBody(req) {
      var ct := ContentType(req.headers.value);
      assert b == BodyFor(ct, lib).value;
    }
  }

  /** On success every list of the request holds a row, the name and URL are the cleaned URL,
      and the method is one of the five verbs or "INVALID". */
  lemma TransformShape(req: CurlRequest, lib: LibraryResults)
    requires Transform(req, lib).Ok?
    ensures Padded(Transform(req, lib).value.request)
    ensures Transform(req, lib).value.name == FormatUrl(req.url) == Transform(req, lib).value.request.url
    ensures Transform(req, lib).value.request.httpMethod in {"GET", "POST", "PUT", "PATCH", "DELETE", "INVALID"}
    ensures Transform(req, lib).value.itemType == Request && Transform(req, lib).value.source == User
  {
  }

  /** The last entry that triggers an auth type decides the auth type of the fold. */
  lemma {:induction false} LastTriggerDecides(st: AuthState, es: seq<(string, string)>, inHeaders: bool, decode: string -> string, i: nat)
    requires i < |es| && AuthTrigger(es[i].0, es[i].1, inHeaders).Some?
    requires forall j :: i < j < |es| ==> AuthTrigger(es[j].0, es[j].1, inHeaders).None?
    ensures AuthFold(st, es, inHeaders, decode).mode == AuthTrigger(es[i].0, es[i].1, inHeaders).value
    decreases |es|
  {
    if i < |es| - 1 {
      var init := es[..|es| - 1];
      assert forall j :: i < j < |init| ==> init[j] == es[j];
      LastTriggerDecides(st, init, inHeaders, decode, i);
    }
  }

  /** Entries that trigger nothing leave the auth state alone. */
  lemma {:induction false} NoTriggerKeepsAuth(st: AuthState, es: seq<(string, string)>, inHeaders: bool, decode: string -> string)
    requires forall j :: 0 <= j < |es| ==> AuthTrigger(es[j].0, es[j].1, inHeaders).None?
    ensures AuthFold(st, es, inHeaders, decode) == st
    decreases |es|
  {
    if es != [] {
      NoTriggerKeepsAuth(st, es[..|es| - 1], inHeaders, decode);
    }
  }

  /** The bearer token is the trimmed remainder of the last `authorization: Bearer …` header. */
  lemma {:induction false} LastBearerSetsToken(st: AuthState, hs: seq<(string, string)>, decode: string -> string, i: nat)
    requires i < |hs| && IsAuthorization(hs[i].0) && IsBearer(hs[i].1)
    requires forall j :: i < j < |hs| ==> !(IsAuthorization(hs[j].0) && IsBearer(hs[j].1))
    ensures AuthFold(st, hs, true, decode).auth.bearerToken == Trim(hs[i].1[7..])
    decreases |hs|
  {
    var init := hs[..|hs| - 1];
    var last := hs[|hs| - 1];
    assert AuthFold(st, hs, true, decode) == AuthStep(AuthFold(st, init, true, decode), last.0, last.1, true, decode);
    if i < |hs| - 1 {
      assert forall j :: i < j < |init| ==> init[j] == hs[j];
      LastBearerSetsToken(st, init, decode, i);
    }
  }

  /** The API key is the last `api-key`/`x-api-key` entry, added where it was found. */
  lemma {:induction false} LastApiKeyWins(st: AuthState, es: seq<(string, string)>, inHeaders: bool, decode: string -> string, i: nat)
    requires i < |es| && IsApiKeyName(es[i].0)
    requires forall j :: i < j < |es| ==> !IsApiKeyName(es[j].0)
    ensures AuthFold(st, es, inHeaders, decode).auth.apiKey ==
      ApiKey(es[i].0, es[i].1, if inHeaders then Header else QueryParameter)
    decreases |es|
  {
    if i < |es| - 1 {
      var init := es[..|es| - 1];
      assert forall j :: i < j < |init| ==> init[j] == es[j];
      LastApiKeyWins(st, init, inHeaders, decode, i);
    }
  }

  /** A bearer `authorization` header that no later header overrides makes the request use
      that bearer token, whatever the query string holds. */
  lemma TransformBearer(req: CurlRequest, lib: LibraryResults, i: nat)
    requires Transform(req, lib).Ok? && req.headers.Some?
    requires i < |req.headers.value|
    requires IsAuthorization(req.headers.value[i].0) && IsBearer(req.headers.value[i].1)
    requires forall j :: i < j < |req.headers.value| ==>
      AuthTrigger(req.headers.value[j].0, req.headers.value[j].1, true).None?
    ensures Transform(req, lib).value.request.authType == BearerToken
    ensures Transform(req, lib).value.request.auth.bearerToken == Trim(req.headers.value[i].1[7..])
  {
    var hs := req.headers.value;
    var st1 := QueryAuth(req, lib);
    assert !IsApiKeyName(hs[i].0);
    LastTriggerDecides(st1, hs, true, lib.decodeBase64, i);
    LastBearerSetsToken(st1, hs, lib.decodeBase64, i);
  }

  /** An `api-key` query parameter gives API-key auth added to the query string, unless a
      header switches the auth type. */
  lemma TransformQueryApiKey(req: CurlRequest, lib: LibraryResults, i: nat)
    requires Transform(req, lib).Ok? && req.queries.Some?
    requires i < |req.queries.value| && IsApiKeyName(req.queries.value[i].0)
    requires forall j :: i < j < |req.queries.value| ==> !IsApiKeyName(req.queries.value[j].0)
    requires req.headers.Some? ==>
      forall j :: 0 <= j < |req.headers.value| ==> AuthTrigger(req.headers.value[j].0, req.headers.value[j].1, true).None?
    ensures Transform(req, lib).value.request.authType == ApiKeyAuth
    ensures Transform(req, lib).value.request.auth.apiKey ==
      ApiKey(req.queries.value[i].0, req.queries.value[i].1, QueryParameter)
  {
    var qs := req.queries.value;
    var st1 := AuthFold(InitialAuth, qs, false, lib.decodeBase64);
    LastTriggerDecides(InitialAuth, qs, false, lib.decodeBase64, i);
    LastApiKeyWins(InitialAuth, qs, false, lib.decodeBase64, i);
    if req.headers.Some? {
      NoTriggerKeepsAuth(st1, req.headers.value, true, lib.decodeBase64);
    }
  }

  /** Without form data every header is copied in order; in form-data mode every header but
      "Content-Type" is, and no "Content-Type" row is kept. */
  lemma {:induction false} KeptHeaderRowsSpec(hs: seq<(string, string)>, isFormData: bool)
    ensures !isFormData ==> KeptHeaderRows(hs, isFormData) == EntryRows(hs)
    ensures isFormData ==> forall r :: r in KeptHeaderRows(hs, isFormData) ==> r.key != "Content-Type"
    ensures forall i :: 0 <= i < |hs| && !(isFormData && hs[i].0 == "Content-Type") ==>
      KeyValue(hs[i].0, hs[i].1, true) in KeptHeaderRows(hs, isFormData)
    decreases |hs|
  {
    if hs != [] {
      var init := hs[..|hs| - 1];
      KeptHeaderRowsSpec(init, isFormData);
      assert forall i :: 0 <= i < |init| ==> hs[i] == init[i];
    }
  }

  /** A multipart request drops its "Content-Type" header row; other headers are kept, followed
      by one default row. */
  lemma TransformHeaders(req: CurlRequest, lib: LibraryResults)
    requires Transform(req, lib).Ok? && req.headers.Some?
    ensures var rows := Transform(req, lib).value.request.headers;
      rows[|rows| - 1] == DefaultRow
      && (Transform(req, lib).value.request.bodyType == Multipart ==>
            forall k :: 0 <= k < |rows| - 1 ==> rows[k].key != "Content-Type")
      && (Transform(req, lib).value.request.bodyType != Multipart ==>
            rows == EntryRows(req.headers.value) + [DefaultRow])
  {
    var r := Transform(req, lib).value.request;
    assert r.headers == KeptHeaderRows(req.headers.value, r.bodyType == Multipart) + [DefaultRow];
    HeaderRowsShape(req.headers.value, r.bodyType == Multipart);
  }

  /** The header rows of a transformed request: the kept rows, then the default row. */
  lemma HeaderRowsShape(hs: seq<(string, string)>, isFormData: bool)
    ensures var rows := KeptHeaderRows(hs, isFormData) + [DefaultRow];
      rows[|rows| - 1] == DefaultRow
      && (isFormData ==> forall k :: 0 <= k < |rows| - 1 ==> rows[k].key != "Content-Type")
      && (!isFormData ==> rows == EntryRows(hs) + [DefaultRow])
  {
    var kept := KeptHeaderRows(hs, isFormData);
    KeptHeaderRowsSpec(hs, isFormData);
    assert forall k :: 0 <= k < |kept| ==> (kept + [DefaultRow])[k] == kept[k];
  }

  /** The body type follows the first matching content-type check; a request with neither data
      nor files keeps no body. */
  lemma TransformBodyMode(req: CurlRequest, lib: LibraryResults)
    requires Transform(req, lib).Ok?
    ensures !HasBody(req) ==> Transform(req, lib).value.request.bodyType == NoBody
    ensures HasBody(req) ==>
      Transform(req, lib).value.request.bodyType == ContentBodyMode(ContentType(req.headers.value))
  {
  }

  /** The order of the content-type checks: multipart first, then JSON, JavaScript, HTML, XML,
      url-encoded, and plain text for everything else. */
  lemma ContentBodyModePriority(ct: string)
    ensures ContentBodyMode(ct) == Multipart <==> StartsWith(ct, "multipart/form-data")
    ensures ContentBodyMode(ct) == Json <==>
      !StartsWith(ct, "multipart/form-data") && Contains(ct, "application/json")
    ensures ContentBodyMode(ct) == JavaScript <==>
      !StartsWith(ct, "multipart/form-data") && !Contains(ct, "application/json")
      && Contains(ct, "application/javascript")
    ensures ContentBodyMode(ct) == TextHtml <==>
      !StartsWith(ct, "multipart/form-data") && !Contains(ct, "application/json")
      && !Contains(ct, "application/javascript") && Contains(ct, "text/html")
    ensures ContentBodyMode(ct) == Xml <==>
      !StartsWith(ct, "multipart/form-data") && !Contains(ct, "application/json")
      && !Contains(ct, "application/javascript") && !Contains(ct, "text/html")
      && (Contains(ct, "application/xml") || Contains(ct, "text/xml"))
    ensures ContentBodyMode(ct) == UrlEncoded <==>
      !StartsWith(ct, "multipart/form-data") && !Contains(ct, "application/json")
      && !Contains(ct, "application/javascript") && !Contains(ct, "text/html")
      && !Contains(ct, "application/xml") && !Contains(ct, "text/xml")
      && Contains(ct, "application/x-www-form-urlencoded")
    ensures ContentBodyMode(ct) == TextPlain <==>
      !StartsWith(ct, "multipart/form-data") && !Contains(ct, "application/json")
      && !Contains(ct, "application/javascript") && !Contains(ct, "text/html")
      && !Contains(ct, "application/xml") && !Contains(ct, "text/xml")
      && !Contains(ct, "application/x-www-form-urlencoded")
    ensures ContentBodyMode(ct) != NoBody
  {
  }
}
