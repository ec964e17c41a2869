/**
 * URL and domain shaping shared by the endpoints: the `https://` default
 * scheme, the WHOIS and profile domain clean-up, and `urlparse`'s
 * scheme and network location.
 */
module Urls {
  import opened Text

  predicate HasScheme(u: string) {
    StartsWith(u, "http://") || StartsWith(u, "https://")
  }

  /** A URL without an `http://` or `https://` prefix gets `https://` in front; any other URL is kept. */
  function NormalizeUrl(u: string): (r: string)
    ensures HasScheme(r)
    ensures HasScheme(u) ==> r == u
    ensures !HasScheme(u) ==> r == "https://" + u
  {
    if HasScheme(u) then u
    else
      assert ("https://" + u)[..8] == "https://";
      "https://" + u
  }

  lemma NormalizeIdempotent(u: string)
    ensures NormalizeUrl(NormalizeUrl(u)) == NormalizeUrl(u)
  {
  }

  /** The WHOIS endpoint's domain: drop every `https://`, then every `http://`, then keep the text before the first `/`. */
  function WhoisDomain(d: string): (r: string)
    ensures '/' !in r
  {
    BeforeFirst(ReplaceAll(ReplaceAll(d, "https://", ""), "http://", ""), '/')
  }

  /** A host name with no path and no embedded scheme. */
  predicate IsBareHost(h: string) {
    '/' !in h && !Contains(h, "http://") && !Contains(h, "https://")
  }

  lemma BeforeFirstAbsent(s: string, c: char)
    requires c !in s
    ensures BeforeFirst(s, c) == s
  {
  }

  /** A bare host survives the WHOIS clean-up, also after the default scheme was put in front of it. */
  lemma WhoisBareHost(h: string)
    requires IsBareHost(h)
    ensures WhoisDomain(h) == h
    ensures WhoisDomain(NormalizeUrl(h)) == h
  {
    ReplaceAbsent(h, "https://", "");
    ReplaceAbsent(h, "http://", "");
    BeforeFirstAbsent(h, '/');
    var u := "https://" + h;
    assert NormalizeUrl(h) == u;
    assert StartsWith(u, "https://") && u[8..] == h;
    assert ReplaceAll(u, "https://", "") == ReplaceAll(h, "https://", "");
  }

  /** The profile endpoint's domain: drop `http://`, `https://` and `www.`, then keep the text before the first `/`. */
  function ProfileDomain(d: string): (r: string)
    ensures '/' !in r
  {
    BeforeFirst(ReplaceAll(ReplaceAll(ReplaceAll(d, "http://", ""), "https://", ""), "www.", ""), '/')
  }

  lemma ProfileBareHost(h: string)
    requires IsBareHost(h) && !Contains(h, "www.")
    ensures ProfileDomain(h) == h
  {
    ReplaceAbsent(h, "http://", "");
    ReplaceAbsent(h, "https://", "");
    ReplaceAbsent(h, "www.", "");
    BeforeFirstAbsent(h, '/');
  }

  /** `urlparse(url).scheme` for a URL that has one of the two schemes. */
  function SchemeOf(url: string): string
    requires HasScheme(url)
  {
    if StartsWith(url, "https://") then "https" else "http"
  }

  /** `urlparse(url).netloc`: the text after `scheme://` up to the first `/`, `?` or `#`. */
  function Netloc(url: string): (r: string)
    requires HasScheme(url)
    ensures '/' !in r
  {
    var rest := if StartsWith(url, "https://") then url[8..] else url[7..];
    var r := BeforeAny(rest, {'/', '?', '#'});
    assert forall i :: 0 <= i < |r| ==> r[i] != '/';
    r
  }

  /** `f"{scheme}://{netloc}"`: the URL cut back to its origin, which is a prefix of the URL. */
  function BaseUrl(url: string): (r: string)
    requires HasScheme(url)
    ensures HasScheme(r)
    ensures StartsWith(url, r)
    ensures r == SchemeOf(url) + "://" + Netloc(url)
  {
    var n := Netloc(url);
    if StartsWith(url, "https://") then
      assert url == "https://" + url[8..];
      assert ("https://" + n)[..8] == "https://";
      assert url[..8 + |n|] == "https://" + n;
      "https://" + n
    else
      assert url == "http://" + url[7..];
      assert ("http://" + n)[..7] == "http://";
      assert url[..7 + |n|] == "http://" + n;
      "http://" + n
  }

  /**
   * `urlsplit` (under `urlparse` and `urljoin`) raises `ValueError` when the
   * host part holds an opening bracket without a closing one, or the reverse.
   */
  predicate InvalidNetloc(url: string)
    requires HasScheme(url)
  {
    ('[' in Netloc(url)) != (']' in Netloc(url))
  }

  /** The host part is a piece of the URL, so a URL without brackets always splits. */
  lemma NoBracketsSplits(url: string)
    requires HasScheme(url) && '[' !in url && ']' !in url
    ensures !InvalidNetloc(url)
  {
    var rest := if StartsWith(url, "https://") then url[8..] else url[7..];
    var n := Netloc(url);
    assert n == rest[..|n|];
    assert forall c :: c in n ==> c in rest;
  }
}
