/** Recognition of the three URL shapes the handler answers, and the
    purchase-order id taken from them. */
module Urls {
  import opened Wrappers

  const Collection := "/purchase-orders"

  predicate IsDigit(c: char)
  {
    '0' <= c <= '9'
  }

  predicate AllDigits(s: string)
  {
    forall i :: 0 <= i < |s| ==> IsDigit(s[i])
  }

  /** A string the regular-expression atom `\d+` matches in full. */
  predicate IsDigitRun(s: string)
  {
    |s| > 0 && AllDigits(s)
  }

  function DetailsPath(d: string): string
  {
    Collection + "/" + d + "/details"
  }

  function SinglePath(d: string): string
  {
    Collection + "/" + d
  }

  /** The URLs matching `^/purchase-orders/\d+/details$`. */
  ghost predicate DetailsShape(url: string)
  {
    exists d :: IsDigitRun(d) && url == DetailsPath(d)
  }

  /** The URLs matching `^/purchase-orders/\d+$`. */
  ghost predicate SingleShape(url: string)
  {
    exists d :: IsDigitRun(d) && url == SinglePath(d)
  }

  /** The two URLs the list rule compares against. */
  predicate ListShape(url: string)
  {
    url == Collection || url == Collection + "/"
  }

  /** The longest prefix of s made of digits. */
  function LeadingDigits(s: string): (d: string)
    ensures d <= s && AllDigits(d)
    ensures |d| == |s| || !IsDigit(s[|d|])
  {
    if s == [] || !IsDigit(s[0]) then [] else [s[0]] + LeadingDigits(s[1..])
  }

  /** What follows `/purchase-orders/` in url, if url starts with it. */
  function AfterCollection(url: string): (r: Option<string>)
    ensures r.Some? <==> Collection + "/" <= url
    ensures r.Some? ==> url == Collection + "/" + r.value
  {
    var p := Collection + "/";
    if |url| < |p| || url[..|p|] != p then None else Some(url[|p|..])
  }

  /** The digit run the details pattern captures, when url has the details shape. */
  function MatchDetails(url: string): (r: Option<string>)
    ensures r.Some? ==> IsDigitRun(r.value) && url == DetailsPath(r.value)
  {
    match AfterCollection(url)
    case None => None
    case Some(rest) =>
      var d := LeadingDigits(rest);
      if |d| > 0 && rest[|d|..] == "/details" then
        assert rest == d + "/details";
        Some(d)
      else None
  }

  /** The digit run the single-order pattern captures, when url has that shape. */
  function MatchSingle(url: string): (r: Option<string>)
    ensures r.Some? ==> IsDigitRun(r.value) && url == SinglePath(r.value)
  {
    match AfterCollection(url)
    case None => None
    case Some(rest) => if IsDigitRun(rest) then Some(rest) else None
  }

  lemma LeadingDigitsOfRun(d: string, tail: string)
    requires AllDigits(d)
    requires tail == [] || !IsDigit(tail[0])
    ensures LeadingDigits(d + tail) == d
  {
    if d != [] {
      assert (d + tail)[1..] == d[1..] + tail;
      LeadingDigitsOfRun(d[1..], tail);
    } else {
      assert d + tail == tail;
    }
  }

  lemma AfterCollectionOf(s: string)
    ensures AfterCollection(Collection + "/" + s) == Some(s)
  {
    var p := Collection + "/";
    assert (p + s)[..|p|] == p;
    assert (p + s)[|p|..] == s;
  }

  /** Every URL of the details shape is recognised, with its own digit run. */
  lemma MatchDetailsComplete(d: string)
    requires IsDigitRun(d)
    ensures MatchDetails(DetailsPath(d)) == Some(d)
  {
    assert DetailsPath(d) == Collection + "/" + (d + "/details");
    AfterCollectionOf(d + "/details");
    LeadingDigitsOfRun(d, "/details");
    assert (d + "/details")[|d|..] == "/details";
  }

  /** Every URL of the single-order shape is recognised, with its own digit run. */
  lemma MatchSingleComplete(d: string)
    requires IsDigitRun(d)
    ensures MatchSingle(SinglePath(d)) == Some(d)
  {
    AfterCollectionOf(d);
  }

  lemma MatchDetailsIff(url: string)
    ensures MatchDetails(url).Some? <==> DetailsShape(url)
  {
    if DetailsShape(url) {
      var d :| IsDigitRun(d) && url == DetailsPath(d);
      MatchDetailsComplete(d);
    }
  }

  lemma MatchSingleIff(url: string)
    ensures MatchSingle(url).Some? <==> SingleShape(url)
  {
    if SingleShape(url) {
      var d :| IsDigitRun(d) && url == SinglePath(d);
      MatchSingleComplete(d);
    }
  }

  lemma DetailsPathNotSinglePath(d: string, e: string)
    requires IsDigitRun(d) && IsDigitRun(e)
    ensures DetailsPath(d) != SinglePath(e)
  {
    var k := |Collection + "/"| + |d|;
    assert DetailsPath(d)[k] == '/';
    if k < |SinglePath(e)| {
      assert SinglePath(e)[k] == e[|d|];
    }
  }

  /** The three shapes never overlap: in particular, because the single-order
      pattern is anchored at the end, a details URL never has the single shape. */
  lemma ShapesDisjoint(url: string)
    ensures DetailsShape(url) ==> !SingleShape(url)
    ensures ListShape(url) ==> !DetailsShape(url) && !SingleShape(url)
  {
    if DetailsShape(url) {
      var d :| IsDigitRun(d) && url == DetailsPath(d);
      forall e | IsDigitRun(e) ensures url != SinglePath(e) {
        DetailsPathNotSinglePath(d, e);
      }
    }
    if ListShape(url) {
      forall d | IsDigitRun(d) ensures url != DetailsPath(d) && url != SinglePath(d) {
        assert |SinglePath(d)| > |Collection + "/"|;
      }
    }
  }

  function DigitValue(c: char): nat
    requires IsDigit(c)
  {
    c as int - '0' as int
  }

  /** `parseInt` of a digit run: its decimal value. */
  function ParseInt(d: string): nat
    requires AllDigits(d)
  {
    if d == [] then 0 else ParseInt(d[..|d| - 1]) * 10 + DigitValue(d[|d| - 1])
  }

  /** Leading zeros do not change the parsed id. */
  lemma {:induction false} LeadingZeroIgnored(d: string)
    requires AllDigits(d)
    ensures ParseInt("0" + d) == ParseInt(d)
  {
    if d != [] {
      assert ("0" + d)[..|d|] == "0" + d[..|d| - 1];
      LeadingZeroIgnored(d[..|d| - 1]);
    }
  }

  function DigitChar(n: nat): (c: char)
    requires n < 10
    ensures IsDigit(c) && DigitValue(c) == n
  {
    ('0' as int + n) as char
  }

  /** The decimal text of n, as `${n}` writes it in a client's URL. */
  function Decimal(n: nat): (s: string)
    ensures IsDigitRun(s)
  {
    if n < 10 then [DigitChar(n)] else Decimal(n / 10) + [DigitChar(n % 10)]
  }

  /** Parsing the decimal text of a number gives the number back. */
  lemma {:induction false} ParseDecimal(n: nat)
    ensures ParseInt(Decimal(n)) == n
  {
    var s := Decimal(n);
    if n >= 10 {
      assert s[..|s| - 1] == Decimal(n / 10);
      ParseDecimal(n / 10);
    } else {
      assert s[..|s| - 1] == [];
    }
  }

  /** A route the handler answers, or Other for a request it passes on. */
  datatype Route = Details(id: nat) | Single(id: nat) | List | Other

  /** The handler's rules in order, first match wins. */
  function Classify(verb: string, url: string): Route
  {
    if verb == "GET" && MatchDetails(url).Some? then
      Details(ParseInt(MatchDetails(url).value))
    else if verb == "GET" && MatchSingle(url).Some? then
      Single(ParseInt(MatchSingle(url).value))
    else if verb == "GET" && ListShape(url) then
      List
    else
      Other
  }

  /** Each route is chosen exactly for GET requests of its own shape. */
  lemma ClassifyShapes(verb: string, url: string)
    ensures Classify(verb, url).Details? <==> verb == "GET" && DetailsShape(url)
    ensures Classify(verb, url).Single? <==> verb == "GET" && SingleShape(url)
    ensures Classify(verb, url).List? <==> verb == "GET" && ListShape(url)
    ensures Classify(verb, url).Other? <==>
      !(verb == "GET" && (DetailsShape(url) || SingleShape(url) || ListShape(url)))
  {
    MatchDetailsIff(url);
    MatchSingleIff(url);
    ShapesDisjoint(url);
  }

  lemma ClassifyDetailsPath(d: string)
    requires IsDigitRun(d)
    ensures Classify("GET", DetailsPath(d)) == Details(ParseInt(d))
  {
    MatchDetailsComplete(d);
  }

  lemma ClassifySinglePath(d: string)
    requires IsDigitRun(d)
    ensures Classify("GET", SinglePath(d)) == Single(ParseInt(d))
  {
    MatchSingleComplete(d);
    MatchDetailsIff(SinglePath(d));
    ShapesDisjoint(SinglePath(d));
    assert SingleShape(SinglePath(d));
  }

  /** The decimal text of n in `/purchase-orders/<text>` or
      `/purchase-orders/<text>/details` routes to n. */
  lemma SinglePathRoundTrip(n: nat)
    ensures Classify("GET", SinglePath(Decimal(n))) == Single(n)
    ensures Classify("GET", DetailsPath(Decimal(n))) == Details(n)
  {
    ClassifySinglePath(Decimal(n));
    ClassifyDetailsPath(Decimal(n));
    ParseDecimal(n);
  }

  /** `/purchase-orders/007` names order 7. */
  lemma LeadingZerosExample()
    ensures Classify("GET", "/purchase-orders/007") == Single(7)
  {
    assert "/purchase-orders/007" == SinglePath("007");
    ClassifySinglePath("007");
    LeadingZeroIgnored("07");
    LeadingZeroIgnored("7");
    assert "0" + "7" == "07";
    assert "0" + "07" == "007";
  }
}
