/**
 * The client's conversion of the bus URL given to the constructor into the WebSocket URL
 * (`_toWS`): a path is made absolute with the page's origin, then the HTTP scheme is
 * mapped to the WebSocket one.
 */
module WsUrl {

  const Https: string := "https://"
  const Http: string := "http://"

  predicate StartsWith(s: string, p: string)
  {
    |p| <= |s| && s[..|p|] == p
  }

  /** `p` occurs in `s` at index `i`. */
  predicate OccursAt(s: string, p: string, i: nat)
  {
    i + |p| <= |s| && s[i..i + |p|] == p
  }

  /** `p` occurs nowhere in `s`. */
  ghost predicate Absent(s: string, p: string)
  {
    forall i: nat :: !OccursAt(s, p, i)
  }

  /** `i` is the first index at which `p` occurs in `s`. */
  ghost predicate FirstAt(s: string, p: string, i: nat)
  {
    OccursAt(s, p, i) && forall j: nat :: j < i ==> !OccursAt(s, p, j)
  }

  lemma OccursAtShift(s: string, p: string, j: nat)
    requires |s| > 0
    ensures OccursAt(s[1..], p, j) <==> OccursAt(s, p, j + 1)
  {
    if j + 1 + |p| <= |s| {
      assert s[1..][j..j + |p|] == s[j + 1..j + 1 + |p|];
    }
  }

  lemma OccursAtAppend(a: string, b: string, p: string, j: nat)
    ensures OccursAt(b, p, j) <==> OccursAt(a + b, p, |a| + j)
  {
    if j + |p| <= |b| {
      assert (a + b)[|a| + j..|a| + j + |p|] == b[j..j + |p|];
    }
  }

  /** An occurrence is ruled out by one character that differs. */
  lemma NotAt(s: string, p: string, i: nat, k: nat)
    requires k < |p| && i + k < |s| && s[i + k] != p[k]
    ensures !OccursAt(s, p, i)
  {
  }

  lemma StartsWithIsOccursAtZero(s: string, p: string)
    ensures StartsWith(s, p) <==> OccursAt(s, p, 0)
  {
  }

  /** `s.replace(p, r)` with a string pattern: the first occurrence of `p`, wherever it is, becomes `r`. */
  function ReplaceFirst(s: string, p: string, r: string): string
    decreases |s|
  {
    if StartsWith(s, p) then r + s[|p|..]
    else if s == [] then s
    else [s[0]] + ReplaceFirst(s[1..], p, r)
  }

  /** Without an occurrence of the pattern, `replace` returns its input. */
  lemma {:induction false} ReplaceAbsent(s: string, p: string, r: string)
    requires Absent(s, p)
    ensures ReplaceFirst(s, p, r) == s
    decreases |s|
  {
    StartsWithIsOccursAtZero(s, p);
    if s != [] {
      forall j: nat ensures !OccursAt(s[1..], p, j) {
        OccursAtShift(s, p, j);
      }
      ReplaceAbsent(s[1..], p, r);
    }
  }

  /** `replace` rewrites the first occurrence and keeps what surrounds it. */
  lemma {:induction false} ReplaceAtFirst(s: string, p: string, r: string, i: nat)
    requires FirstAt(s, p, i)
    ensures ReplaceFirst(s, p, r) == s[..i] + r + s[i + |p|..]
    decreases |s|
  {
    StartsWithIsOccursAtZero(s, p);
    if i == 0 {
      assert ReplaceFirst(s, p, r) == r + s[|p|..];
    } else {
      assert !StartsWith(s, p) && s != [];
      var t := s[1..];
      OccursAtShift(s, p, i - 1);
      forall j: nat | j < i - 1 ensures !OccursAt(t, p, j) {
        OccursAtShift(s, p, j);
      }
      ReplaceAtFirst(t, p, r, i - 1);
      assert ReplaceFirst(s, p, r) == [s[0]] + ReplaceFirst(t, p, r);
      assert [s[0]] + t[..i - 1] == s[..i];
      assert t[i - 1 + |p|..] == s[i + |p|..];
    }
  }

  /** The path made absolute: an `http(s)://` URL is kept, anything else follows the origin. */
  function Absolute(origin: string, path: string): string
  {
    if StartsWith(path, Https) || StartsWith(path, Http) then path else origin + path
  }

  /** `_toWS` as written: each `replace` rewrites the first occurrence anywhere in the URL. */
  function ToWSAsWritten(origin: string, path: string): string
  {
    ReplaceFirst(ReplaceFirst(Absolute(origin, path), Https, "wss://"), Http, "ws://")
  }

  /** No URL starts with both schemes: they differ at index 4. */
  lemma SchemesExclusive(s: string)
    ensures StartsWith(s, Https) ==> !StartsWith(s, Http)
  {
    if StartsWith(s, Https) {
      assert s[..|Https|][4] == s[4] == 's';
      assert |s| >= |Http| && s[..|Http|][4] == s[4];
    }
  }

  /** `_toWS` as intended: only the scheme is rewritten; the rest of the URL is kept. */
  function ToWS(origin: string, path: string): (url: string)
    ensures var org := Absolute(origin, path);
      && (StartsWith(org, Https) ==> url == "wss://" + org[|Https|..])
      && (StartsWith(org, Http) ==> url == "ws://" + org[|Http|..])
      && (!StartsWith(org, Https) && !StartsWith(org, Http) ==> url == org)
  {
    var org := Absolute(origin, path);
    SchemesExclusive(org);
    if StartsWith(org, Https) then "wss://" + org[|Https|..]
    else if StartsWith(org, Http) then "ws://" + org[|Http|..]
    else org
  }

  /** The reverse mapping, from the WebSocket schemes back to the HTTP ones. */
  function ToHttp(url: string): string
  {
    if StartsWith(url, "wss://") then Https + url[6..]
    else if StartsWith(url, "ws://") then Http + url[5..]
    else url
  }

  /** Mapping back recovers the absolute URL for both HTTP schemes: no other part is touched. */
  lemma {:induction false} ToWSRoundTrip(origin: string, path: string)
    requires StartsWith(Absolute(origin, path), Https) || StartsWith(Absolute(origin, path), Http)
    ensures ToHttp(ToWS(origin, path)) == Absolute(origin, path)
  {
    var org := Absolute(origin, path);
    var url := ToWS(origin, path);
    SchemesExclusive(org);
    if StartsWith(org, Https) {
      assert url == "wss://" + org[8..];
      assert StartsWith(url, "wss://");
      assert url[6..] == org[8..];
      assert org == Https + org[8..];
    } else {
      assert url == "ws://" + org[7..];
      assert url[2] == ':';
      if |url| >= 6 { assert url[..6][2] == url[2]; }
      assert url[5..] == org[7..];
      assert org == Http + org[7..];
    }
  }

  /** Neither scheme pattern occurs in `s`. */
  ghost predicate SchemeFree(s: string)
  {
    Absent(s, Https) && Absent(s, Http)
  }

  /** A prefix that holds no first character of `p` adds no occurrence of `p`. */
  lemma AbsentAfter(prefix: string, rest: string, p: string)
    requires |p| > 0 && Absent(rest, p)
    requires forall i: nat :: i < |prefix| ==> prefix[i] != p[0]
    ensures Absent(prefix + rest, p)
  {
    var s := prefix + rest;
    forall i: nat ensures !OccursAt(s, p, i) {
      if i < |prefix| {
        NotAt(s, p, i, 0);
      } else {
        OccursAtAppend(prefix, rest, p, i - |prefix|);
      }
    }
  }

  /**
   * The two definitions agree on every URL whose text after the scheme contains neither
   * `http://` nor `https://`: then the first occurrence is the scheme itself.
   */
  lemma {:induction false} AsWrittenAgreesOnPlainUrls(origin: string, path: string)
    requires var org := Absolute(origin, path);
      || (StartsWith(org, Https) && SchemeFree(org[|Https|..]))
      || (StartsWith(org, Http) && SchemeFree(org[|Http|..]))
    ensures ToWSAsWritten(origin, path) == ToWS(origin, path)
  {
    var org := Absolute(origin, path);
    SchemesExclusive(org);
    if StartsWith(org, Https) {
      var rest := org[|Https|..];
      assert org == Https + rest;
      StartsWithIsOccursAtZero(org, Https);
      ReplaceAtFirst(org, Https, "wss://", 0);
      var once := ReplaceFirst(org, Https, "wss://");
      assert once == "wss://" + rest;
      AbsentAfter("wss://", rest, Http);
      ReplaceAbsent(once, Http, "ws://");
    } else {
      var rest := org[|Http|..];
      assert org == Http + rest;
      assert Absent(org, Https) by {
        forall i: nat ensures !OccursAt(org, Https, i) {
          if i == 0 {
            StartsWithIsOccursAtZero(org, Https);
          } else if i < |Http| {
            NotAt(org, Https, i, 0);
          } else {
            OccursAtAppend(Http, rest, Https, i - |Http|);
          }
        }
      }
      ReplaceAbsent(org, Https, "wss://");
      StartsWithIsOccursAtZero(org, Http);
      ReplaceAtFirst(org, Http, "ws://", 0);
    }
  }

  /**
   * The discrepancy: an absolute URL that holds another URL in its path or query gets that
   * embedded URL's scheme rewritten too.
   */
  lemma EmbeddedSchemeIsRewritten()
    ensures ToWSAsWritten("", "http://a/https://b") == "ws://a/wss://b"
    ensures ToWS("", "http://a/https://b") == "ws://a/https://b"
  {
    AsWrittenOnEmbedded("http://a/https://b");
    IntendedOnEmbedded("http://a/https://b");
  }

  lemma AsWrittenOnEmbedded(s: string)
    requires s == "http://a/https://b"
    ensures ToWSAsWritten("", s) == "ws://a/wss://b"
  {
    assert StartsWith(s, Http) && Absolute("", s) == s;
    FirstReplacement(s);
    SecondReplacement("http://a/wss://b");
  }

  lemma IntendedOnEmbedded(s: string)
    requires s == "http://a/https://b"
    ensures ToWS("", s) == "ws://a/https://b"
  {
    assert StartsWith(s, Http) && Absolute("", s) == s;
    SchemesExclusive(s);
    assert s[|Http|..] == "a/https://b";
  }

  lemma FirstReplacement(s: string)
    requires s == "http://a/https://b"
    ensures ReplaceFirst(s, Https, "wss://") == "http://a/wss://b"
  {
    EmbeddedFirstAt(s);
    ReplaceAtNine(s);
  }

  lemma EmbeddedFirstAt(s: string)
    requires s == "http://a/https://b"
    ensures FirstAt(s, Https, 9)
  {
    NotAt(s, Https, 0, 4);
    forall j: nat | 0 < j < 9 ensures !OccursAt(s, Https, j) {
      NotAt(s, Https, j, 0);
    }
  }

  lemma ReplaceAtNine(s: string)
    requires FirstAt(s, Https, 9) && s[..9] == "http://a/" && s[17..] == "b"
    ensures ReplaceFirst(s, Https, "wss://") == "http://a/wss://b"
  {
    ReplaceAtFirst(s, Https, "wss://", 9);
  }

  lemma SecondReplacement(s: string)
    requires s == "http://a/wss://b"
    ensures ReplaceFirst(s, Http, "ws://") == "ws://a/wss://b"
  {
    StartsWithIsOccursAtZero(s, Http);
    ReplaceAtFirst(s, Http, "ws://", 0);
  }
}
