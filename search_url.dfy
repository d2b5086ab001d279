/**
 * The search request URL: a fixed endpoint followed by one "&name=value"
 * pair for every non-empty Search string, in a fixed order, and, when a
 * page is requested, a final "&page=k" with k written in decimal.
 */
module SearchUrl {
  import opened Wrappers
  import opened Config

  const Base: string := "https://wallhaven.cc/api/v1/search?"

  /** The query-parameter names, in the order the request appends them. */
  const Names: seq<string> := ["q", "categories", "purity", "sorting", "order", "topRange",
                               "atleast", "resolutions", "ratios", "colors", "apikey"]

  datatype Field = Field(name: string, value: string)

  /** The Search strings paired with their parameter names, in request order. */
  function Fields(s: Search): (r: seq<Field>)
    ensures |r| == FieldCount
    ensures forall i :: 0 <= i < FieldCount ==> r[i] == Field(Names[i], Values(s)[i])
  {
    var v := Values(s);
    [Field(Names[0], v[0]), Field(Names[1], v[1]), Field(Names[2], v[2]),
     Field(Names[3], v[3]), Field(Names[4], v[4]), Field(Names[5], v[5]),
     Field(Names[6], v[6]), Field(Names[7], v[7]), Field(Names[8], v[8]),
     Field(Names[9], v[9]), Field(Names[10], v[10])]
  }

  /** The text one parameter contributes. */
  function Pair(name: string, value: string): string
  {
    "&" + name + "=" + value
  }

  /** One use of the parameter macro: append "&name=value" unless the value is empty. */
  function Parameter(link: string, name: string, value: string): (r: string)
    ensures value == "" ==> r == link
    ensures value != "" ==> r == link + Pair(name, value)
  {
    if value == "" then link else link + "&" + name + "=" + value
  }

  /** The macro applied to each field in turn, as the request builder does. */
  function AppendAll(link: string, fields: seq<Field>): string
    decreases |fields|
  {
    if fields == [] then link
    else AppendAll(Parameter(link, fields[0].name, fields[0].value), fields[1..])
  }

  /** Reference definition: the fields whose value is not empty, in order. */
  function NonEmpty(fields: seq<Field>): (r: seq<Field>)
    ensures |r| <= |fields|
    ensures forall f :: f in r ==> f in fields && f.value != ""
    decreases |fields|
  {
    if fields == [] then []
    else if fields[0].value == "" then NonEmpty(fields[1..])
    else [fields[0]] + NonEmpty(fields[1..])
  }

  /** Reference definition: the pairs of the given fields, concatenated. */
  function Render(fields: seq<Field>): string
    decreases |fields|
  {
    if fields == [] then ""
    else Pair(fields[0].name, fields[0].value) + Render(fields[1..])
  }

  /** The URL built from a Search record, before any page parameter. */
  function SearchLink(s: Search): string
  {
    AppendAll(Base, Fields(s))
  }

  /** The search URL is the endpoint with the macro applied to the eleven
      Search strings one after the other, in the fixed order. */
  lemma SearchLinkUnrolled(s: Search)
    ensures SearchLink(s) ==
      Parameter(Parameter(Parameter(Parameter(Parameter(Parameter(Parameter(Parameter(
      Parameter(Parameter(Parameter(Base,
        "q", s.query), "categories", s.categories), "purity", s.purity),
        "sorting", s.sorting), "order", s.order), "topRange", s.topRange),
        "atleast", s.atLeast), "resolutions", s.resolutions), "ratios", s.ratios),
        "colors", s.colors), "apikey", s.apiKey)
  {
    var fs := Fields(s);
    var link := Base;
    link := Parameter(link, "q", s.query);
    assert AppendAll(Base, fs) == AppendAll(link, fs[1..]);
    link := Parameter(link, "categories", s.categories);
    assert AppendAll(Base, fs) == AppendAll(link, fs[2..]) by { assert fs[1..][1..] == fs[2..]; }
    link := Parameter(link, "purity", s.purity);
    assert AppendAll(Base, fs) == AppendAll(link, fs[3..]) by { assert fs[2..][1..] == fs[3..]; }
    link := Parameter(link, "sorting", s.sorting);
    assert AppendAll(Base, fs) == AppendAll(link, fs[4..]) by { assert fs[3..][1..] == fs[4..]; }
    link := Parameter(link, "order", s.order);
    assert AppendAll(Base, fs) == AppendAll(link, fs[5..]) by { assert fs[4..][1..] == fs[5..]; }
    link := Parameter(link, "topRange", s.topRange);
    assert AppendAll(Base, fs) == AppendAll(link, fs[6..]) by { assert fs[5..][1..] == fs[6..]; }
    link := Parameter(link, "atleast", s.atLeast);
    assert AppendAll(Base, fs) == AppendAll(link, fs[7..]) by { assert fs[6..][1..] == fs[7..]; }
    link := Parameter(link, "resolutions", s.resolutions);
    assert AppendAll(Base, fs) == AppendAll(link, fs[8..]) by { assert fs[7..][1..] == fs[8..]; }
    link := Parameter(link, "ratios", s.ratios);
    assert AppendAll(Base, fs) == AppendAll(link, fs[9..]) by { assert fs[8..][1..] == fs[9..]; }
    link := Parameter(link, "colors", s.colors);
    assert AppendAll(Base, fs) == AppendAll(link, fs[10..]) by { assert fs[9..][1..] == fs[10..]; }
    link := Parameter(link, "apikey", s.apiKey);
    assert AppendAll(Base, fs) == AppendAll(link, []) by { assert fs[10..][1..] == []; }
  }

  /** Applying the macro to each field appends exactly the pairs of the
      non-empty fields, in field order. */
  lemma {:induction false} AppendAllIsRender(link: string, fields: seq<Field>)
    ensures AppendAll(link, fields) == link + Render(NonEmpty(fields))
    decreases |fields|
  {
    if fields != [] {
      var f, rest := fields[0], fields[1..];
      var next := Parameter(link, f.name, f.value);
      AppendAllIsRender(next, rest);
      if f.value != "" {
        assert NonEmpty(fields) == [f] + NonEmpty(rest);
        assert Render(NonEmpty(fields)) == Pair(f.name, f.value) + Render(NonEmpty(rest));
      }
    }
  }

  /** The search URL is the endpoint followed, in the fixed order, by
      "&name=value" for each non-empty Search string. */
  lemma SearchLinkShape(s: Search)
    ensures SearchLink(s) == Base + Render(NonEmpty(Fields(s)))
  {
    AppendAllIsRender(Base, Fields(s));
  }

  lemma {:induction false} NonEmptyOfEmpties(fields: seq<Field>)
    requires forall i :: 0 <= i < |fields| ==> fields[i].value == ""
    ensures NonEmpty(fields) == []
    decreases |fields|
  {
    if fields != [] {
      NonEmptyOfEmpties(fields[1..]);
    }
  }

  lemma {:induction false} NonEmptyOfSingle(fields: seq<Field>, k: nat)
    requires k < |fields| && fields[k].value != ""
    requires forall i :: 0 <= i < |fields| && i != k ==> fields[i].value == ""
    ensures NonEmpty(fields) == [fields[k]]
    decreases |fields|
  {
    if k == 0 {
      NonEmptyOfEmpties(fields[1..]);
    } else {
      NonEmptyOfSingle(fields[1..], k - 1);
    }
  }

  /** With every Search string empty the URL is the bare endpoint. */
  lemma AllEmptyIsBase(s: Search)
    requires forall i :: 0 <= i < FieldCount ==> Values(s)[i] == ""
    ensures SearchLink(s) == Base
  {
    NonEmptyOfEmpties(Fields(s));
    SearchLinkShape(s);
  }

  /** With exactly one Search string set the URL carries exactly that one pair. */
  lemma OneFieldOnePair(s: Search, k: nat)
    requires k < FieldCount && Values(s)[k] != ""
    requires forall i :: 0 <= i < FieldCount && i != k ==> Values(s)[i] == ""
    ensures SearchLink(s) == Base + Pair(Names[k], Values(s)[k])
  {
    var fs := Fields(s);
    OneFieldAppended(Base, fs, k);
    assert fs[k] == Field(Names[k], Values(s)[k]);
  }

  lemma OneFieldAppended(link: string, fields: seq<Field>, k: nat)
    requires k < |fields| && fields[k].value != ""
    requires forall i :: 0 <= i < |fields| && i != k ==> fields[i].value == ""
    ensures AppendAll(link, fields) == link + Pair(fields[k].name, fields[k].value)
  {
    NonEmptyOfSingle(fields, k);
    AppendAllIsRender(link, fields);
    assert Render([fields[k]]) == Pair(fields[k].name, fields[k].value) + Render([]);
  }

  /** The default search keeps its first seven fields and drops the rest.
      It is stated for any s equal to the default rather than for
      DefaultSearch() itself, so that the recursive functions are not
      unrolled at a literal argument. */
  lemma DefaultNonEmpty(s: Search)
    requires s == DefaultSearch()
    ensures NonEmpty(Fields(s)) == Fields(s)[..7]
  {
    var fs := Fields(s);
    NonEmptyOfEmpties(fs[7..]);
    assert fs == fs[..7] + fs[7..];
    NonEmptyPrefix(fs[..7], fs[7..]);
  }

  lemma {:induction false} RenderSeven(fs: seq<Field>)
    requires |fs| == 7
    ensures Render(fs) == Pair(fs[0].name, fs[0].value) + Pair(fs[1].name, fs[1].value)
                        + Pair(fs[2].name, fs[2].value) + Pair(fs[3].name, fs[3].value)
                        + Pair(fs[4].name, fs[4].value) + Pair(fs[5].name, fs[5].value)
                        + Pair(fs[6].name, fs[6].value)
  {
    var p := seq(7, i requires 0 <= i < 7 => Pair(fs[i].name, fs[i].value));
    assert Render(fs[6..]) == p[6] by { assert fs[6..][1..] == []; }
    assert Render(fs[5..]) == p[5] + Render(fs[6..]) by { assert fs[5..][1..] == fs[6..]; }
    assert Render(fs[4..]) == p[4] + Render(fs[5..]) by { assert fs[4..][1..] == fs[5..]; }
    assert Render(fs[3..]) == p[3] + Render(fs[4..]) by { assert fs[3..][1..] == fs[4..]; }
    assert Render(fs[2..]) == p[2] + Render(fs[3..]) by { assert fs[2..][1..] == fs[3..]; }
    assert Render(fs[1..]) == p[1] + Render(fs[2..]) by { assert fs[1..][1..] == fs[2..]; }
  }

  /** The default search yields seven parameters, in the fixed order.
      (Stated for s == DefaultSearch(), as DefaultNonEmpty is.) */
  lemma DefaultSearchLink(s: Search)
    requires s == DefaultSearch()
    ensures |NonEmpty(Fields(s))| == 7
    ensures SearchLink(s) ==
              Base + Pair("q", "+landscape +mountain") + Pair("categories", "111")
                   + Pair("purity", "100") + Pair("sorting", "date_added") + Pair("order", "desc")
                   + Pair("topRange", "1M") + Pair("atleast", "1920x1080")
  {
    var fs := Fields(s);
    DefaultNonEmpty(s);
    SearchLinkShape(s);
    DefaultFields(s);
    RenderSeven(fs[..7]);
    PrependSeven(Base, Pair("q", "+landscape +mountain"), Pair("categories", "111"),
                 Pair("purity", "100"), Pair("sorting", "date_added"), Pair("order", "desc"),
                 Pair("topRange", "1M"), Pair("atleast", "1920x1080"));
  }

  /** The names and values of the seven fields the default search sets.
      (Stated for s == DefaultSearch(), as DefaultNonEmpty is.) */
  lemma DefaultFields(s: Search)
    requires s == DefaultSearch()
    ensures var f := Fields(s);
            f[0] == Field("q", "+landscape +mountain") && f[1] == Field("categories", "111") &&
            f[2] == Field("purity", "100") && f[3] == Field("sorting", "date_added") &&
            f[4] == Field("order", "desc") && f[5] == Field("topRange", "1M") &&
            f[6] == Field("atleast", "1920x1080")
  {
  }

  /** Regrouping the concatenation of the seven pairs after the endpoint. */
  lemma PrependSeven(b: string, p0: string, p1: string, p2: string, p3: string, p4: string,
                     p5: string, p6: string)
    ensures b + (p0 + p1 + p2 + p3 + p4 + p5 + p6) == b + p0 + p1 + p2 + p3 + p4 + p5 + p6
  {
  }

  /** Filtering fields that are all non-empty, followed by fields that are
      all empty, keeps exactly the first group. */
  lemma {:induction false} NonEmptyPrefix(front: seq<Field>, back: seq<Field>)
    requires forall i :: 0 <= i < |front| ==> front[i].value != ""
    requires NonEmpty(back) == []
    ensures NonEmpty(front + back) == front
    decreases |front|
  {
    if front != [] {
      assert (front + back)[1..] == front[1..] + back;
      NonEmptyPrefix(front[1..], back);
    } else {
      assert front + back == back;
    }
  }

  // Decimal rendering of the page number, as integer formatting does.

  function Digit(d: nat): (c: char)
    requires d < 10
    ensures '0' <= c <= '9'
  {
    "0123456789"[d]
  }

  function DigitValue(c: char): nat
  {
    if '0' <= c <= '9' then (c - '0') as nat else 0
  }

  /** The decimal digits of n, without leading zeros. */
  function Decimal(n: nat): (r: string)
    ensures |r| >= 1
    ensures forall i :: 0 <= i < |r| ==> '0' <= r[i] <= '9'
    ensures |r| > 1 ==> r[0] != '0'
    decreases n
  {
    if n < 10 then [Digit(n)] else Decimal(n / 10) + [Digit(n % 10)]
  }

  /** Reads a string of decimal digits back as a number. */
  function ParseDecimal(s: string): nat
    decreases |s|
  {
    if s == [] then 0 else ParseDecimal(s[..|s| - 1]) * 10 + DigitValue(s[|s| - 1])
  }

  lemma DigitRoundTrip(d: nat)
    requires d < 10
    ensures DigitValue(Digit(d)) == d
  {
    var digits := "0123456789";
    assert forall j :: 0 <= j < 10 ==> digits[j] as int - '0' as int == j;
  }

  /** Decimal rendering loses nothing: the page number can be read back. */
  lemma {:induction false} DecimalRoundTrip(n: nat)
    ensures ParseDecimal(Decimal(n)) == n
    decreases n
  {
    var r := Decimal(n);
    if n < 10 {
      DigitRoundTrip(n);
      assert r[..0] == [];
    } else {
      DecimalRoundTrip(n / 10);
      DigitRoundTrip(n % 10);
      assert r[..|r| - 1] == Decimal(n / 10);
    }
  }

  /** The complete request URL: with a page, "&page=k" follows the search parameters. */
  function RequestLink(s: Search, page: Option<nat>): (r: string)
    ensures page.None? ==> r == SearchLink(s)
    ensures page.Some? ==> r == SearchLink(s) + "&page=" + Decimal(page.value)
  {
    match page
    case None => SearchLink(s)
    case Some(k) => SearchLink(s) + "&page=" + Decimal(k)
  }

  /** The page parameter is the last thing in the URL, and it names the
      requested page. */
  lemma PageSuffixReadsBack(s: Search, k: nat)
    ensures var r := RequestLink(s, Some(k));
            |r| > |SearchLink(s)| + 6 &&
            r[..|SearchLink(s)|] == SearchLink(s) &&
            r[|SearchLink(s)|..|SearchLink(s)| + 6] == "&page=" &&
            ParseDecimal(r[|SearchLink(s)| + 6..]) == k
  {
    var r := RequestLink(s, Some(k));
    var n := |SearchLink(s)|;
    assert r[n + 6..] == Decimal(k);
    DecimalRoundTrip(k);
  }
}
