/** Image URL normalisation (src/utils/url.js): absolute, protocol-relative,
    `data:` and `blob:` URLs pass through; any other path is joined to the API
    base URL with exactly one `/` between them. The base URL is a parameter. */
module Url {
  import opened Js

  /** ASCII lower-casing. A case-insensitive JavaScript regular expression
      without the `u` flag folds no non-ASCII character onto an ASCII letter,
      so this folding decides the prefix tests exactly. */
  function LowerAscii(c: char): char
  {
    if 'A' <= c <= 'Z' then (c as int + 32) as char else c
  }

  /** `s` starts with `prefix`, ignoring ASCII case (`prefix` is lower case). */
  predicate HasPrefixIgnoringCase(s: string, prefix: string)
  {
    |prefix| <= |s| && forall i :: 0 <= i < |prefix| ==> LowerAscii(s[i]) == prefix[i]
  }

  /** The path matches `ABSOLUTE_RE`: it starts with `//`, `http://` or
      `https://`, in any letter case. */
  predicate IsAbsolute(s: string)
  {
    HasPrefixIgnoringCase(s, "//") || HasPrefixIgnoringCase(s, "http://") || HasPrefixIgnoringCase(s, "https://")
  }

  predicate PassesThrough(s: string)
  {
    IsAbsolute(s) || (|s| >= 5 && (s[..5] == "data:" || s[..5] == "blob:"))
  }

  /** The base URL with its whole run of trailing slashes removed. */
  function StripTrailingSlashes(s: string): (r: string)
    ensures r <= s
    ensures r == [] || r[|r| - 1] != '/'
    ensures forall i :: |r| <= i < |s| ==> s[i] == '/'
    decreases |s|
  {
    if |s| > 0 && s[|s| - 1] == '/' then StripTrailingSlashes(s[..|s| - 1]) else s
  }

  /** Stripping twice strips nothing more. */
  lemma StripIdempotent(s: string)
    ensures StripTrailingSlashes(StripTrailingSlashes(s)) == StripTrailingSlashes(s)
  {
  }

  /** The path with a `/` put in front unless it already starts with one. */
  function WithLeadingSlash(p: string): (r: string)
    ensures |r| > 0 && r[0] == '/'
  {
    if |p| > 0 && p[0] == '/' then p else "/" + p
  }

  /** `getImageUrl(relativePath)` with `apiClient.defaults.baseURL` given as `baseUrl`. */
  function GetImageUrl(relativePath: Option<string>, baseUrl: Option<string>): (r: Option<string>)
    ensures r.None? <==> !Truthy(relativePath)
    ensures r.Some? ==> |relativePath.value| <= |r.value| && r.value[|r.value| - |relativePath.value|..] == relativePath.value
  {
    if !Truthy(relativePath) then None
    else
      var p := relativePath.value;
      if PassesThrough(p) then Some(p)
      else
        var base := StripTrailingSlashes(if Truthy(baseUrl) then baseUrl.value else "");
        Some(base + WithLeadingSlash(p))
  }

  /** A missing or empty input has no URL. */
  lemma EmptyHasNoUrl(baseUrl: Option<string>)
    ensures GetImageUrl(None, baseUrl) == None
    ensures GetImageUrl(Some(""), baseUrl) == None
  {
  }

  /** Absolute, protocol-relative, `data:` and `blob:` URLs come back unchanged. */
  lemma PassThroughUnchanged(p: string, baseUrl: Option<string>)
    requires PassesThrough(p)
    ensures GetImageUrl(Some(p), baseUrl) == Some(p)
  {
  }

  /** Any other path: the base without its trailing slashes, exactly one `/`,
      then the path without its leading `/` (when it had one): the base has no
      trailing `/` and the rest no leading one. */
  lemma JoinedWithOneSlash(p: string, baseUrl: Option<string>)
    requires p != "" && !PassesThrough(p)
    ensures var base := StripTrailingSlashes(if Truthy(baseUrl) then baseUrl.value else "");
      var rest := if p[0] == '/' then p[1..] else p;
      && GetImageUrl(Some(p), baseUrl) == Some(base + "/" + rest)
      && (base == [] || base[|base| - 1] != '/')
      && (rest == [] || rest[0] != '/')
  {
    var base := StripTrailingSlashes(if Truthy(baseUrl) then baseUrl.value else "");
    if p[0] == '/' {
      assert base + p == base + "/" + p[1..] by {
        assert p == "/" + p[1..];
      }
      if |p| > 1 && p[1] == '/' {
        assert HasPrefixIgnoringCase(p, "//");
      }
    } else {
      assert base + ("/" + p) == base + "/" + p;
    }
  }

  /** Without a configured base URL the result is the path with a leading slash. */
  lemma NoBaseGivesRootedPath(p: string, baseUrl: Option<string>)
    requires p != "" && !PassesThrough(p) && !Truthy(baseUrl)
    ensures GetImageUrl(Some(p), baseUrl) == Some(WithLeadingSlash(p))
  {
    assert StripTrailingSlashes("") == "";
    assert "" + WithLeadingSlash(p) == WithLeadingSlash(p);
  }
}
