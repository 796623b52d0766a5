/**
 The song form's link check (`frontend/src/pages/AddSong.tsx`): the regular expression
 `^https?:\/\/(www\.)?(youtube\.com|youtu\.be)\/.*$`. Without the `m` and `s` flags the
 trailing `.*$` takes the rest of the input, which must hold no line terminator.
 */
module LinkPattern {
  import opened Strings

  predicate NoLineTerminator(s: string) {
    forall i :: 0 <= i < |s| ==> !IsLineTerminator(s[i])
  }

  /** `(youtube\.com|youtu\.be)\/.*$` */
  predicate HostAndPath(s: string) {
    || (StartsWith(s, "youtube.com/") && NoLineTerminator(s[12..]))
    || (StartsWith(s, "youtu.be/") && NoLineTerminator(s[9..]))
  }

  /** `(www\.)?` followed by the host and path; the empty alternative is tried when the
      `www.` one fails. */
  predicate AfterScheme(s: string) {
    HostAndPath(s) || (StartsWith(s, "www.") && HostAndPath(s[4..]))
  }

  /** The whole expression, anchored at both ends. */
  predicate MatchesLinkPattern(link: string) {
    || (StartsWith(link, "http://") && AfterScheme(link[7..]))
    || (StartsWith(link, "https://") && AfterScheme(link[8..]))
  }

  function SchemeText(secure: bool): string {
    if secure then "https://" else "http://"
  }

  function WwwText(www: bool): string {
    if www then "www." else ""
  }

  /** One of the two hosts, with the `/` after it. */
  function HostText(short: bool): string {
    if short then "youtu.be/" else "youtube.com/"
  }

  /** What follows the scheme, up to the free rest. */
  function SitePrefix(www: bool, short: bool): string {
    WwwText(www) + HostText(short)
  }

  /** The prefix the expression fixes for one choice of scheme, `www.` and host. */
  function PatternPrefix(secure: bool, www: bool, short: bool): string {
    SchemeText(secure) + SitePrefix(www, short)
  }

  /** `link` is that prefix followed by a rest without a line terminator. */
  predicate PatternParts(link: string, secure: bool, www: bool, short: bool) {
    var p := PatternPrefix(secure, www, short);
    StartsWith(link, p) && NoLineTerminator(link[|p|..])
  }

  /** `s` starts with `a` then `b` exactly when it starts with `a + b`; what follows
      is the same either way. */
  lemma StartsWithBoth(s: string, a: string, b: string)
    ensures StartsWith(s, a + b) <==> StartsWith(s, a) && StartsWith(s[|a|..], b)
    ensures StartsWith(s, a + b) ==> s[|a + b|..] == s[|a|..][|b|..]
  {
    if StartsWith(s, a + b) {
      assert s[..|a|] == (a + b)[..|a|];
      assert s[|a|..][..|b|] == s[..|a + b|][|a|..];
    }
    if StartsWith(s, a) && StartsWith(s[|a|..], b) {
      assert s[..|a + b|] == s[..|a|] + s[|a|..][..|b|];
    }
  }

  /** The host and path part, for one host. */
  lemma HostAndPathParts(s: string, short: bool)
    ensures (StartsWith(s, HostText(short)) && NoLineTerminator(s[|HostText(short)|..])) ==> HostAndPath(s)
  {
  }

  /** The part after the scheme, for one choice of `www.` and host. */
  lemma AfterSchemeParts(a: string, www: bool, short: bool)
    requires StartsWith(a, SitePrefix(www, short)) && NoLineTerminator(a[|SitePrefix(www, short)|..])
    ensures AfterScheme(a)
  {
    StartsWithBoth(a, WwwText(www), HostText(short));
    var b := a[|WwwText(www)|..];
    HostAndPathParts(b, short);
    if !www {
      assert b == a;
    }
  }

  /** Every link of the expression's shape matches it. */
  lemma PatternAccepts(link: string, secure: bool, www: bool, short: bool)
    requires PatternParts(link, secure, www, short)
    ensures MatchesLinkPattern(link)
  {
    StartsWithBoth(link, SchemeText(secure), SitePrefix(www, short));
    AfterSchemeParts(link[|SchemeText(secure)|..], www, short);
  }

  /** The host and path part has one of the two shapes. */
  lemma HostAndPathShape(s: string) returns (short: bool)
    requires HostAndPath(s)
    ensures StartsWith(s, HostText(short)) && NoLineTerminator(s[|HostText(short)|..])
  {
    short := StartsWith(s, "youtu.be/") && NoLineTerminator(s[9..]);
  }

  /** Everything after the scheme has one of the four shapes. */
  lemma AfterSchemeShape(a: string) returns (www: bool, short: bool)
    requires AfterScheme(a)
    ensures StartsWith(a, SitePrefix(www, short)) && NoLineTerminator(a[|SitePrefix(www, short)|..])
  {
    www := !HostAndPath(a);
    var b := a[|WwwText(www)|..];
    if !www {
      assert b == a;
    }
    short := HostAndPathShape(b);
    StartsWithBoth(a, WwwText(www), HostText(short));
  }

  /** Every matching link has the expression's shape: with `PatternAccepts`, the
      predicate is exactly the expression's language. */
  lemma PatternShape(link: string)
    requires MatchesLinkPattern(link)
    ensures exists secure, www, short :: PatternParts(link, secure, www, short)
  {
    var secure := !(StartsWith(link, "http://") && AfterScheme(link[7..]));
    var www, short := AfterSchemeShape(link[|SchemeText(secure)|..]);
    StartsWithBoth(link, SchemeText(secure), SitePrefix(www, short));
    assert PatternParts(link, secure, www, short);
  }

  /** The mobile host `m.youtube.com` is refused. */
  lemma MobileHostRejected(rest: string)
    ensures !MatchesLinkPattern("https://m.youtube.com/" + rest)
  {
    var link := "https://m.youtube.com/" + rest;
    assert link[4] == 's';
    assert link[8] == 'm';
    assert !StartsWith(link, "http://");
    var a := link[8..];
    assert a[0] == 'm';
  }
}
