/** source/data.ts: the two origins the app is served from, and the URL
    builders. A URL is a record of its base text and its key/value pairs;
    parsing and percent-encoding are not modelled. */
module Data {

  const AppHostName: string := "teame-c1a32.web.app"
  const AppOrigin: string := "https://" + AppHostName

  /** The production host, or a local development server on a port. */
  datatype Origin = Release | Debug(port: int)

  const ReleaseOrigin: Origin := Release

  function DebugOrigin(portNumber: int): Origin {
    Debug(portNumber)
  }

  function DigitChar(d: nat): char
    requires d < 10
  {
    "0123456789"[d]
  }

  predicate IsDigit(c: char) {
    '0' <= c <= '9'
  }

  /** The decimal numeral of a natural number, without leading zeros. */
  function NatToDecimal(n: nat): string
    decreases n
  {
    if n < 10 then [DigitChar(n)] else NatToDecimal(n / 10) + [DigitChar(n % 10)]
  }

  /** `Number.prototype.toString()` of an integer-valued number whose
      magnitude is below 2^53, where every integer is exact. */
  function IntToDecimal(n: int): string {
    if n < 0 then "-" + NatToDecimal(-n) else NatToDecimal(n)
  }

  function DigitValue(c: char): nat
    requires IsDigit(c)
  {
    (c as int) - ('0' as int)
  }

  /** Reference reading of a string of decimal digits. */
  function DecimalValue(s: string): nat
    requires forall i :: 0 <= i < |s| ==> IsDigit(s[i])
    decreases |s|
  {
    if s == [] then 0
    else DecimalValue(s[..|s| - 1]) * 10 + DigitValue(s[|s| - 1])
  }

  /** A decimal numeral is a non-empty string of digits, and only the
      numeral of zero starts with `0`. */
  lemma {:induction false} NatToDecimalDigits(n: nat)
    ensures |NatToDecimal(n)| >= 1
    ensures forall i :: 0 <= i < |NatToDecimal(n)| ==> IsDigit(NatToDecimal(n)[i])
    ensures NatToDecimal(n)[0] == '0' <==> n == 0
    decreases n
  {
    if n >= 10 {
      NatToDecimalDigits(n / 10);
      assert NatToDecimal(n)[0] == NatToDecimal(n / 10)[0];
    }
  }

  /** Reading a decimal numeral back gives the number. */
  lemma {:induction false} NatToDecimalRoundTrip(n: nat)
    ensures (forall i :: 0 <= i < |NatToDecimal(n)| ==> IsDigit(NatToDecimal(n)[i]))
         && DecimalValue(NatToDecimal(n)) == n
    decreases n
  {
    NatToDecimalDigits(n);
    if n >= 10 {
      NatToDecimalRoundTrip(n / 10);
      var s := NatToDecimal(n);
      assert s[..|s| - 1] == NatToDecimal(n / 10);
    }
  }

  /** Only the numeral of a negative number starts with a minus sign. */
  lemma IntToDecimalSign(n: int)
    ensures |IntToDecimal(n)| >= 1
    ensures IntToDecimal(n)[0] == '-' <==> n < 0
  {
    if n >= 0 {
      NatToDecimalDigits(n);
    }
  }

  /** A non-negative integer prints as digits that read back as the number,
      with no leading zero. */
  lemma IntToDecimalNonNegative(n: int)
    requires n >= 0
    ensures forall i :: 0 <= i < |IntToDecimal(n)| ==> IsDigit(IntToDecimal(n)[i])
    ensures DecimalValue(IntToDecimal(n)) == n
    ensures IntToDecimal(n)[0] == '0' <==> n == 0
  {
    NatToDecimalDigits(n);
    NatToDecimalRoundTrip(n);
  }

  /** A negative integer prints as a minus sign and then the numeral of its
      magnitude, with no leading zero. */
  lemma IntToDecimalNegative(n: int)
    requires n < 0
    ensures |IntToDecimal(n)| >= 2 && IntToDecimal(n)[0] == '-'
    ensures var m := IntToDecimal(n)[1..];
      m == NatToDecimal(-n)
      && (forall i :: 0 <= i < |m| ==> IsDigit(m[i]))
      && DecimalValue(m) == -n
      && m[0] != '0'
  {
    NatToDecimalDigits(-n);
    NatToDecimalRoundTrip(-n);
    assert IntToDecimal(n)[1..] == NatToDecimal(-n);
  }

  lemma NatToDecimalInjective(x: nat, y: nat)
    requires NatToDecimal(x) == NatToDecimal(y)
    ensures x == y
  {
    NatToDecimalRoundTrip(x);
    NatToDecimalRoundTrip(y);
  }

  /** Distinct integers have distinct numerals. */
  lemma IntToDecimalInjective(a: int, b: int)
    requires IntToDecimal(a) == IntToDecimal(b)
    ensures a == b
  {
    if a < 0 && b < 0 {
      var da, db := NatToDecimal(-a), NatToDecimal(-b);
      assert IntToDecimal(a) == "-" + da && IntToDecimal(b) == "-" + db;
      assert da == ("-" + da)[1..] && db == ("-" + db)[1..];
      NatToDecimalInjective(-a, -b);
    } else if a >= 0 && b >= 0 {
      NatToDecimalInjective(a, b);
    } else {
      IntToDecimalSign(a);
      IntToDecimalSign(b);
    }
  }

  /** `originToString`. */
  function OriginToString(origin: Origin): string {
    match origin
    case Release => AppOrigin
    case Debug(port) => "http://localhost:" + IntToDecimal(port)
  }

  lemma OriginToStringValues(p: int)
    ensures OriginToString(ReleaseOrigin) == "https://teame-c1a32.web.app"
    ensures OriginToString(DebugOrigin(p)) == "http://localhost:" + IntToDecimal(p)
  {
  }

  lemma ReleaseIsNotDebug(p: int)
    ensures OriginToString(Release) != OriginToString(Debug(p))
  {
    assert OriginToString(Release)[4] == 's';
    assert OriginToString(Debug(p))[4] == ':';
  }

  /** Different origins never print alike: a redirect built from an origin
      names exactly that origin. */
  lemma OriginToStringInjective(a: Origin, b: Origin)
    requires OriginToString(a) == OriginToString(b)
    ensures a == b
  {
    var prefix := "http://localhost:";
    match a
    case Release =>
      if b.Debug? {
        ReleaseIsNotDebug(b.port);
      }
    case Debug(p) =>
      if b.Release? {
        ReleaseIsNotDebug(p);
      } else {
        var q := b.port;
        assert OriginToString(a) == prefix + IntToDecimal(p);
        assert OriginToString(b) == prefix + IntToDecimal(q);
        assert IntToDecimal(p) == (prefix + IntToDecimal(p))[|prefix|..];
        assert IntToDecimal(q) == (prefix + IntToDecimal(q))[|prefix|..];
        IntToDecimalInjective(p, b.port);
      }
  }

  /** `Array.prototype.join`: the elements with `sep` between neighbours;
      the empty array joins to the empty string. */
  function Join(parts: seq<string>, sep: string): string
    decreases |parts|
  {
    if parts == [] then ""
    else if |parts| == 1 then parts[0]
    else parts[0] + sep + Join(parts[1..], sep)
  }

  /** Reference splitting of a string at every occurrence of `sep`. */
  function Split(s: string, sep: char): (r: seq<string>)
    ensures |r| >= 1
    decreases |s|
  {
    if s == [] then [""]
    else
      var rest := Split(s[1..], sep);
      if s[0] == sep then [""] + rest else [[s[0]] + rest[0]] + rest[1..]
  }

  lemma {:induction false} SplitWithoutSeparator(x: string, sep: char, t: string)
    requires forall i :: 0 <= i < |x| ==> x[i] != sep
    ensures Split(x, sep) == [x]
    ensures Split(x + [sep] + t, sep) == [x] + Split(t, sep)
    decreases |x|
  {
    if x == [] {
      assert x + [sep] + t == [sep] + t;
      assert ([sep] + t)[1..] == t;
    } else {
      SplitWithoutSeparator(x[1..], sep, t);
      assert (x + [sep] + t)[1..] == x[1..] + [sep] + t;
      assert [x[0]] + x[1..] == x;
    }
  }

  /** Joining path segments with "/" loses nothing when no segment holds a "/":
      splitting the result gives the segments back. */
  lemma {:induction false} JoinSplitRoundTrip(parts: seq<string>, sep: char)
    requires |parts| >= 1
    requires forall k, i :: 0 <= k < |parts| && 0 <= i < |parts[k]| ==> parts[k][i] != sep
    ensures Split(Join(parts, [sep]), sep) == parts
    decreases |parts|
  {
    if |parts| == 1 {
      SplitWithoutSeparator(parts[0], sep, "");
    } else {
      JoinSplitRoundTrip(parts[1..], sep);
      SplitWithoutSeparator(parts[0], sep, Join(parts[1..], [sep]));
      assert [parts[0]] + parts[1..] == parts;
    }
  }

  /** A URL as a base (scheme, host and path text) with its query pairs and
      its fragment pairs, in order. */
  datatype Url = Url(base: string, query: seq<(string, string)>, fragment: seq<(string, string)>)

  /** `urlFromString`. */
  function UrlFromString(domainAndPath: string): (r: Url)
    ensures |r.base| == 8 + |domainAndPath|
    ensures r.base[..8] == "https://" && r.base[8..] == domainAndPath
    ensures r.query == [] && r.fragment == []
  {
    Url("https://" + domainAndPath, [], [])
  }

  /** The base text `urlFromStringWithQuery` builds. */
  function QueryUrlBase(domain: string, path: seq<string>): string {
    "https://" + domain + Join(path, "/")
  }

  /** `urlFromStringWithQuery`: the base is "https://", the domain and the
      joined path with nothing between domain and path; then one query pair
      is appended per entry of the map, in the map's iteration order (the
      entries are given as that ordered list). */
  method UrlFromStringWithQuery(domain: string, path: seq<string>, query: seq<(string, string)>)
    returns (url: Url)
    ensures url.base == QueryUrlBase(domain, path)
    ensures url.query == query
    ensures url.fragment == []
  {
    url := UrlFromString(domain + Join(path, "/"));
    assert "https://" + (domain + Join(path, "/")) == "https://" + domain + Join(path, "/");
    var i := 0;
    while i < |query|
      invariant 0 <= i <= |query|
      invariant url.base == "https://" + domain + Join(path, "/")
      invariant url.query == query[..i]
      invariant url.fragment == []
    {
      url := url.(query := url.query + [query[i]]);
      i := i + 1;
    }
    assert query[..|query|] == query;
  }

  /** `urlFromStringWithFragment`: the pairs become the fragment, never the
      query, on the base `originToString(origin) + path`. */
  function UrlFromStringWithFragment(origin: Origin, path: string, fragment: seq<(string, string)>): (r: Url)
    ensures r.query == [] && r.fragment == fragment
    ensures var o := OriginToString(origin);
      |o| <= |r.base| && r.base[..|o|] == o && r.base[|o|..] == path
  {
    Url(OriginToString(origin) + path, [], fragment)
  }

  /** The joined text starts with the first part. */
  lemma {:induction false} JoinStartsWithFirst(parts: seq<string>, sep: string)
    requires |parts| >= 1
    ensures |parts[0]| <= |Join(parts, sep)|
    ensures Join(parts, sep)[..|parts[0]|] == parts[0]
  {
    if |parts| > 1 {
      assert Join(parts, sep) == parts[0] + (sep + Join(parts[1..], sep));
    }
  }

  /** No "/" is put between the domain and the first path segment: right
      after "https://" and the domain comes the first segment itself. */
  lemma QueryBaseHasNoSeparator(domain: string, path: seq<string>)
    requires |path| >= 1
    ensures var base := QueryUrlBase(domain, path);
      var n := 8 + |domain|;
      n + |path[0]| <= |base| && base[..n] == "https://" + domain && base[n..n + |path[0]|] == path[0]
  {
    JoinStartsWithFirst(path, "/");
    var j := Join(path, "/");
    var base := QueryUrlBase(domain, path);
    var n := 8 + |domain|;
    assert base == ("https://" + domain) + j;
    assert base[n..n + |path[0]|] == j[..|path[0]|];
  }

  /** An access token passed as a fragment pair on the production origin
      travels in the fragment of the production URL of the path, never in
      the query. */
  lemma LogInRedirectUrl(path: string, accessToken: string)
    ensures UrlFromStringWithFragment(ReleaseOrigin, path, [("accessToken", accessToken)])
         == Url("https://teame-c1a32.web.app" + path, [], [("accessToken", accessToken)])
  {
  }
}
