/** Where an authorization code may be sent: the registration guard of
    cmd/mcp-remote/register_guard.go, and the query that consent.go appends to
    an accepted redirect URI. URL parsing itself is a parameter. */
module Redirects {
  import opened Basics

  const MAX_REDIRECT_URIS := 5
  const MAX_CLIENT_NAME_LEN := 255
  const MAX_REDIRECT_URI_LEN := 2048

  /** What net/url and net.ParseIP say about a string. */
  datatype UrlParts = UrlParts(scheme: string, hostname: string, fragment: string, loopbackIP: bool)

  type Parser = string -> Option<UrlParts>

  datatype UriVerdict =
    | Accepted
    | EmptyUri
    | TooLong
    | Unparsable
    | HasFragment
    | NoHost
    | PlainHttp
    | NoScheme
    | BadScheme

  function LowerChar(c: char): char {
    if 'A' <= c <= 'Z' then c - 'A' + 'a' else c
  }

  function Lower(s: string): string {
    seq(|s|, i requires 0 <= i < |s| => LowerChar(s[i]))
  }

  /** strings.EqualFold also takes the long s, here its two bytes, for an s. */
  const LONG_S_HOST := "localho\U{c5}\U{bf}t"

  predicate IsLoopback(u: UrlParts) {
    Lower(u.hostname) == "localhost" || Lower(u.hostname) == LONG_S_HOST || u.loopbackIP
  }

  function ValidateRedirectURI(parse: Parser, raw: string): UriVerdict {
    if raw == "" then EmptyUri
    else if |raw| > MAX_REDIRECT_URI_LEN then TooLong
    else match parse(raw)
      case None => Unparsable
      case Some(u) =>
        if u.fragment != "" || '#' in raw then HasFragment
        else match Lower(u.scheme)
          case "https" => if u.hostname == "" then NoHost else Accepted
          case "http" => if IsLoopback(u) then Accepted else PlainHttp
          case "" => NoScheme
          case _ => if '.' in u.scheme then Accepted else BadScheme
  }

  predicate ValidRegistration(parse: Parser, name: string, uris: seq<string>) {
    && 0 < |uris| <= MAX_REDIRECT_URIS
    && |name| <= MAX_CLIENT_NAME_LEN
    && forall i | 0 <= i < |uris| :: ValidateRedirectURI(parse, uris[i]) == Accepted
  }

  // ----- Where a code may be sent

  predicate IsLetter(c: char, lower: char) {
    c == lower || ('a' <= lower <= 'z' && c as int + 32 == lower as int)
  }

  /** s is the word in any mixture of cases; the word is in small letters. */
  predicate Spells(s: string, word: string) {
    |s| == |word| && forall i | 0 <= i < |s| :: IsLetter(s[i], word[i])
  }

  /** A name or an address of the machine itself. */
  predicate OwnMachine(u: UrlParts) {
    u.loopbackIP || Spells(u.hostname, "localhost")
    || (|u.hostname| == 10 && Spells(u.hostname[..7], "localho") && u.hostname[7..9] == "\U{c5}\U{bf}"
        && Spells(u.hostname[9..], "t"))
  }

  /** At most 2048 bytes that parse, without a fragment, and lead over https to
      some host, over plain http to the machine itself, or to an application whose
      own scheme has a dot. */
  predicate MayReceiveCodes(parse: Parser, raw: string) {
    && 1 <= |raw| <= 2048 && '#' !in raw && parse(raw).Some?
    && var u := parse(raw).value;
    && u.fragment == ""
    && if Spells(u.scheme, "https") then u.hostname != ""
       else if Spells(u.scheme, "http") then OwnMachine(u)
       else '.' in u.scheme
  }

  lemma LowerSpells(s: string, word: string)
    requires forall i | 0 <= i < |word| :: !('A' <= word[i] <= 'Z')
    ensures Lower(s) == word <==> Spells(s, word)
  {
    if Lower(s) == word {
      forall i | 0 <= i < |s|
        ensures IsLetter(s[i], word[i])
      {
        assert Lower(s)[i] == LowerChar(s[i]);
      }
    }
    if Spells(s, word) {
      forall i | 0 <= i < |s|
        ensures Lower(s)[i] == word[i]
      {
        assert IsLetter(s[i], word[i]);
      }
      assert Lower(s) == word;
    }
  }

  lemma LongSpells(s: string)
    ensures Lower(s) == LONG_S_HOST
            <==> |s| == 10 && Spells(s[..7], "localho") && s[7..9] == "\U{c5}\U{bf}" && Spells(s[9..], "t")
  {
    LowerSpells(s, LONG_S_HOST);
    if |s| == 10 {
      assert LONG_S_HOST == "localho" + "\U{c5}\U{bf}" + "t";
      if Spells(s, LONG_S_HOST) {
        assert forall i | 0 <= i < 7 :: IsLetter(s[i], LONG_S_HOST[i]);
        assert IsLetter(s[7], LONG_S_HOST[7]) && IsLetter(s[8], LONG_S_HOST[8]) && IsLetter(s[9], LONG_S_HOST[9]);
      } else if Spells(s[..7], "localho") && s[7..9] == "\U{c5}\U{bf}" && Spells(s[9..], "t") {
        forall i | 0 <= i < 10
          ensures IsLetter(s[i], LONG_S_HOST[i])
        {
          assert i < 7 ==> IsLetter(s[..7][i], "localho"[i]);
          assert i == 7 ==> s[7] == s[7..9][0];
          assert i == 8 ==> s[8] == s[7..9][1];
          assert i == 9 ==> IsLetter(s[9..][0], "t"[0]);
        }
      }
    }
  }

  /** The validation accepts exactly the URIs that may receive codes. */
  lemma AcceptedIffSafe(parse: Parser, raw: string)
    ensures ValidateRedirectURI(parse, raw) == Accepted <==> MayReceiveCodes(parse, raw)
  {
    if raw != "" && |raw| <= MAX_REDIRECT_URI_LEN && parse(raw).Some? {
      var u := parse(raw).value;
      LowerSpells(u.scheme, "https");
      LowerSpells(u.scheme, "http");
      LowerSpells(u.scheme, "");
      LowerSpells(u.hostname, "localhost");
      LongSpells(u.hostname);
    }
  }

  /** What a registration may look like: one to five such URIs, and a name that
      fits. */
  predicate MayRegister(parse: Parser, name: string, uris: seq<string>) {
    1 <= |uris| <= 5 && |name| <= 255 && forall i | 0 <= i < |uris| :: MayReceiveCodes(parse, uris[i])
  }

  lemma ValidIffSafe(parse: Parser, name: string, uris: seq<string>)
    ensures ValidRegistration(parse, name, uris) <==> MayRegister(parse, name, uris)
  {
    forall i | 0 <= i < |uris|
      ensures ValidateRedirectURI(parse, uris[i]) == Accepted <==> MayReceiveCodes(parse, uris[i])
    {
      AcceptedIffSafe(parse, uris[i]);
    }
  }

  /** The loop that applies the limits one URI at a time. */
  method ValidateRegistration(parse: Parser, name: string, uris: seq<string>) returns (ok: bool)
    ensures ok <==> ValidRegistration(parse, name, uris)
    ensures ok <==> MayRegister(parse, name, uris)
  {
    ValidIffSafe(parse, name, uris);
    if |uris| == 0 || |uris| > MAX_REDIRECT_URIS || |name| > MAX_CLIENT_NAME_LEN {
      return false;
    }
    for i := 0 to |uris|
      invariant forall j | 0 <= j < i :: ValidateRedirectURI(parse, uris[j]) == Accepted
    {
      if ValidateRedirectURI(parse, uris[i]) != Accepted {
        return false;
      }
    }
    return true;
  }

  method Contains(haystack: seq<string>, needle: string) returns (found: bool)
    ensures found <==> needle in haystack
  {
    for i := 0 to |haystack|
      invariant needle !in haystack[..i]
    {
      if haystack[i] == needle {
        return true;
      }
    }
    assert haystack[..|haystack|] == haystack;
    return false;
  }

  lemma OrXorZero(diff: bv8, x: bv8, y: bv8)
    ensures (diff | (x ^ y)) == 0 <==> diff == 0 && x == y
  {
  }

  /** The comparison behind verifyPKCE never stops early, yet decides equality. */
  method SubtleConstantTimeEq(a: seq<bv8>, b: seq<bv8>) returns (eq: bool)
    ensures eq <==> a == b
  {
    if |a| != |b| {
      return false;
    }
    var diff: bv8 := 0;
    for i := 0 to |a|
      invariant diff == 0 <==> a[..i] == b[..i]
    {
      OrXorZero(diff, a[i], b[i]);
      assert a[..i + 1] == a[..i] + [a[i]] && b[..i + 1] == b[..i] + [b[i]];
      diff := diff | (a[i] ^ b[i]);
    }
    assert a[..|a|] == a && b[..|b|] == b;
    return diff == 0;
  }

  // ----- Queries

  function AppendQuery(uri: string, encoded: string): string {
    uri + (if '?' in uri then "&" else "?") + encoded
  }

  /** The longest prefix of s free of c. */
  function Before(s: string, c: char): (r: string)
    ensures c !in r && r <= s
    ensures c in s ==> |r| < |s| && s[|r|] == c
    ensures c !in s ==> r == s
  {
    if s == "" || s[0] == c then "" else [s[0]] + Before(s[1..], c)
  }

  /** The query component by section 3 of RFC 3986: after the first '?' that
      precedes the first '#', up to that '#'. */
  function QueryOf(uri: string): Option<string> {
    var u := Before(uri, '#');
    var base := Before(u, '?');
    if |base| < |u| then Some(u[|base| + 1..]) else None
  }

  function BaseOf(uri: string): string {
    Before(Before(uri, '#'), '?')
  }

  lemma {:induction false} BeforeConcat(a: string, b: string, c: char)
    ensures Before(a + b, c) == if c in a then Before(a, c) else a + Before(b, c)
  {
    if a == "" {
      assert a + b == b;
    } else if a[0] != c {
      assert (a + b)[1..] == a[1..] + b;
      BeforeConcat(a[1..], b, c);
    }
  }

  function Joined(uri: string, encoded: string): string {
    match QueryOf(uri)
    case None => encoded
    case Some(q) => q + "&" + encoded
  }

  lemma QuerySplits(base: string, query: string)
    requires '#' !in base && '#' !in query && '?' !in base
    ensures BaseOf(base + ("?" + query)) == base && QueryOf(base + ("?" + query)) == Some(query)
  {
    var u := base + ("?" + query);
    NoMark(base, query);
    QueryStarts(base, query);
    assert u[|base| + 1..] == query;
  }

  lemma NoMark(base: string, query: string)
    requires '#' !in base && '#' !in query
    ensures Before(base + ("?" + query), '#') == base + ("?" + query)
  {
  }

  lemma QueryStarts(base: string, query: string)
    requires '?' !in base
    ensures Before(base + ("?" + query), '?') == base
  {
    BeforeConcat(base, "?" + query, '?');
    assert Before("?" + query, '?') == "";
    assert base + "" == base;
  }

  lemma Assoc(a: string, b: string, c: string)
    ensures (a + b) + c == a + (b + c)
  {
  }

  lemma AppendToQuery(base: string, query: string, encoded: string)
    requires '#' !in base && '#' !in query && '#' !in encoded && '?' !in base
    ensures var uri := base + ("?" + query);
            && BaseOf(AppendQuery(uri, encoded)) == base
            && QueryOf(AppendQuery(uri, encoded)) == Some(query + "&" + encoded)
  {
    var uri := base + ("?" + query);
    assert uri[|base|] == '?';
    assert AppendQuery(uri, encoded) == (uri + "&") + encoded;
    Assoc(uri, "&", encoded);
    Assoc(base, "?" + query, "&" + encoded);
    Assoc("?", query, "&" + encoded);
    Assoc(query, "&", encoded);
    QuerySplits(base, query + "&" + encoded);
  }

  lemma AppendWithoutFragment(uri: string, encoded: string)
    requires '#' !in uri && '#' !in encoded
    ensures BaseOf(AppendQuery(uri, encoded)) == BaseOf(uri)
    ensures QueryOf(AppendQuery(uri, encoded)) == Some(Joined(uri, encoded))
  {
    assert Before(uri, '#') == uri;
    var b := Before(uri, '?');
    if '?' in uri {
      var q := uri[|b| + 1..];
      assert uri == b + ("?" + q);
      QuerySplits(b, q);
      AppendToQuery(b, q, encoded);
    } else {
      Assoc(uri, "?", encoded);
      QuerySplits(uri, encoded);
    }
  }

  lemma AppendBehindFragment(uri: string, encoded: string)
    requires '#' in uri
    ensures BaseOf(AppendQuery(uri, encoded)) == BaseOf(uri)
    ensures QueryOf(AppendQuery(uri, encoded)) == QueryOf(uri)
  {
    var tail := (if '?' in uri then "&" else "?") + encoded;
    assert AppendQuery(uri, encoded) == uri + tail;
    BeforeConcat(uri, tail, '#');
  }

  /** The parameters a redirect carries land in its query exactly when the
      registered URI has no '#'; this is what the no-fragment rule is for. */
  lemma AppendedParametersReachQuery(uri: string, encoded: string)
    requires '#' !in encoded
    ensures BaseOf(AppendQuery(uri, encoded)) == BaseOf(uri)
    ensures '#' !in uri <==> QueryOf(AppendQuery(uri, encoded)) == Some(Joined(uri, encoded))
  {
    if '#' in uri {
      AppendBehindFragment(uri, encoded);
      if QueryOf(uri).Some? {
        assert |Joined(uri, encoded)| > |QueryOf(uri).value|;
      }
    } else {
      AppendWithoutFragment(uri, encoded);
    }
  }

  lemma AcceptedUriKeepsParametersInQuery(parse: Parser, uri: string, encoded: string)
    requires ValidateRedirectURI(parse, uri) == Accepted && '#' !in encoded
    ensures BaseOf(AppendQuery(uri, encoded)) == BaseOf(uri)
    ensures QueryOf(AppendQuery(uri, encoded)) == Some(Joined(uri, encoded))
  {
    AppendedParametersReachQuery(uri, encoded);
  }

  /** Every registered URI therefore delivers its parameters in the query. */
  lemma RegisteredUriKeepsParametersInQuery(
      parse: Parser, name: string, uris: seq<string>, uri: string, encoded: string)
    requires ValidRegistration(parse, name, uris) && uri in uris
    requires '#' !in encoded
    ensures QueryOf(AppendQuery(uri, encoded)) == Some(Joined(uri, encoded))
  {
    var i :| 0 <= i < |uris| && uris[i] == uri;
    AcceptedUriKeepsParametersInQuery(parse, uris[i], encoded);
  }
}
