/** How `prepare` reads what the user typed: a deployment URL (`http` or
    `https`, then at least five characters out of letters, digits, `_`, `-`,
    `/` and `.`) or a 64-character project token (letters, digits and `_`).
    A URL is kept without its trailing slashes. */
module Prepare {
  import opened Text

  /** `\w`. */
  predicate IsWordChar(c: char)
  {
    ('a' <= c <= 'z') || ('A' <= c <= 'Z') || ('0' <= c <= '9') || c == '_'
  }

  /** `[\w\-/_.]`. */
  predicate IsUrlChar(c: char)
  {
    IsWordChar(c) || c == '-' || c == '/' || c == '.'
  }

  predicate AllUrlChars(s: string)
  {
    forall i :: 0 <= i < |s| ==> IsUrlChar(s[i])
  }

  /** `/^https?:\/\/[\w\-/_.]{5,}$/`. */
  predicate IsUrl(s: string)
  {
    || (StartsWith(s, "http://") && |s| >= 12 && AllUrlChars(s[7..]))
    || (StartsWith(s, "https://") && |s| >= 13 && AllUrlChars(s[8..]))
  }

  /** `/^\w{64}$/`. */
  predicate IsToken(s: string)
  {
    |s| == 64 && forall i :: 0 <= i < |s| ==> IsWordChar(s[i])
  }

  datatype Input = UrlInput(url: string) | TokenInput(token: string) | Invalid

  /** The URL test comes first; a URL is stored as `res.replace(/\/+$/, '')`. */
  function Classify(res: string): Input
  {
    if IsUrl(res) then UrlInput(StripTrailing(res, '/'))
    else if IsToken(res) then TokenInput(res)
    else Invalid
  }

  /** No text is both a URL and a token (a URL has a ':'), so the order of the
      tests does not matter. */
  lemma UrlAndTokenDisjoint(s: string)
    ensures !(IsUrl(s) && IsToken(s))
  {
    if IsUrl(s) {
      assert s[..7] == "http://" || s[..8] == "https://";
      assert s[4] == ':' || s[5] == ':';
    }
  }

  /** A classified URL is the typed text without its trailing slashes, and a
      classified token is the typed text, a valid token. */
  lemma ClassifyShape(res: string)
    ensures Classify(res).UrlInput? <==> IsUrl(res)
    ensures Classify(res).TokenInput? <==> IsToken(res)
    ensures Classify(res).UrlInput? ==>
      var u := Classify(res).url;
      && u == res[..|u|]
      && (forall i :: |u| <= i < |res| ==> res[i] == '/')
      && (u == "" || u[|u| - 1] != '/')
    ensures Classify(res).TokenInput? ==> Classify(res).token == res
  {
    StripTrailingShape(res, '/');
    UrlAndTokenDisjoint(res);
  }

  /** A stripped URL keeps at least its scheme and colon, so it is never empty. */
  lemma StrippedUrlKeepsColon(res: string)
    requires IsUrl(res)
    ensures var u := StripTrailing(res, '/');
      |u| >= 5 && u[..4] == "http"
  {
    var u := StripTrailing(res, '/');
    StripTrailingShape(res, '/');
    var p := if StartsWith(res, "http://") then "http://" else "https://";
    assert res[..|p|] == p;
    var c := |p| - 3;
    assert res[c] == res[..|p|][c] == p[c] == ':';
    assert |u| > c;
    forall i | 0 <= i < 4
      ensures u[i] == "http"[i]
    {
      assert u[i] == res[..|u|][i] == res[i] == res[..|p|][i] == p[i];
    }
    assert u[..4] == "http";
  }

  /** When the host part holds anything but slashes, stripping keeps the scheme
      and the '//' behind it. */
  lemma StrippedUrlKeepsScheme(res: string, k: nat)
    requires IsUrl(res)
    requires 8 <= k < |res| && res[k] != '/'
    ensures StartsWith(Classify(res).url, "http://") || StartsWith(Classify(res).url, "https://")
  {
    var u := StripTrailing(res, '/');
    StripTrailingShape(res, '/');
    assert |u| > k;
    assert u[..7] == res[..7] && u[..8] == res[..8];
  }

  /** An address of slashes only passes the test and is stored as "http:". */
  lemma SlashOnlyUrl(res: string)
    requires res == "http://" + "/////"
    ensures IsUrl(res) && Classify(res).url == "http:"
  {
    assert res[..7] == "http://";
    assert forall i :: 5 <= i < |res| ==> res[i] == '/';
    assert res[4] == ':';
    var r := StripTrailing(res, '/');
    StripTrailingShape(res, '/');
    assert res[4] != '/';
    assert |r| >= 5;
    assert r == res[..5] == "http:";
  }
}
