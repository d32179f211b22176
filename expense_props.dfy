/**
 * The expense page's props as `getInitialProps` computes them from the route query, the
 * JavaScript `parseInt` that reads the expense id, and the route the page replaces itself
 * with when the "expense submitted" message is dismissed.
 */
module ExpenseProps {
  import opened Wrappers
  import opened ExpenseData

  /** The route query the page is opened with; every parameter may be missing. */
  datatype RouteQuery = RouteQuery(
    parentCollectiveSlug: Option<string>,
    collectiveSlug: Option<string>,
    expenseId: Option<string>,
    createSuccess: Option<string>)

  /** The white space `parseInt` skips: tab, vertical tab, form feed, the space separators, BOM and line terminators. */
  predicate IsJsSpace(c: char)
  {
    c == '\t' || c == '\n' || c == '\U{000B}' || c == '\U{000C}' || c == '\r' || c == ' ' ||
    c == '\U{00A0}' || c == '\U{1680}' || ('\U{2000}' <= c <= '\U{200A}') ||
    c == '\U{2028}' || c == '\U{2029}' || c == '\U{202F}' || c == '\U{205F}' ||
    c == '\U{3000}' || c == '\U{FEFF}'
  }

  /** `s` without its leading white space. */
  function TrimStart(s: string): (r: string)
    ensures |r| <= |s| && r == s[|s| - |r|..]
    ensures r == [] || !IsJsSpace(r[0])
    ensures forall i | 0 <= i < |s| - |r| :: IsJsSpace(s[i])
  {
    if s == [] || !IsJsSpace(s[0]) then s else TrimStart(s[1..])
  }

  /** The value of `c` as a digit in base `radix` (10 or 16), if it is one. */
  function DigitValue(c: char, radix: nat): (r: Option<nat>)
    requires radix == 10 || radix == 16
    ensures r.Some? ==> r.value < radix
  {
    if '0' <= c <= '9' then Some(c as nat - '0' as nat)
    else if radix == 16 && 'a' <= c <= 'f' then Some(c as nat - 'a' as nat + 10)
    else if radix == 16 && 'A' <= c <= 'F' then Some(c as nat - 'A' as nat + 10)
    else None
  }

  predicate AllDigits(s: string, radix: nat)
    requires radix == 10 || radix == 16
  {
    forall i | 0 <= i < |s| :: DigitValue(s[i], radix).Some?
  }

  /** The length of the longest prefix of `s` made of digits of base `radix`. */
  function DigitPrefixLength(s: string, radix: nat): (n: nat)
    requires radix == 10 || radix == 16
    ensures n <= |s| && AllDigits(s[..n], radix)
    ensures n < |s| ==> DigitValue(s[n], radix).None?
  {
    if s == [] || DigitValue(s[0], radix).None? then 0
    else
      var m := DigitPrefixLength(s[1..], radix);
      assert s[1..][..m] == s[1..m + 1];
      1 + m
  }

  /** The number the digit string `ds` denotes in base `radix`. */
  function DigitsValue(ds: string, radix: nat): nat
    requires radix == 10 || radix == 16
    requires AllDigits(ds, radix)
  {
    if ds == [] then 0
    else DigitsValue(ds[..|ds| - 1], radix) * radix + DigitValue(ds[|ds| - 1], radix).value
  }

  /** The sign `parseInt` reads: whether the text starts with `-`, and the text after a `-` or `+`. */
  function SplitSign(t: string): (r: (bool, string))
    ensures |r.1| <= |t|
  {
    if |t| > 0 && t[0] == '-' then (true, t[1..])
    else if |t| > 0 && t[0] == '+' then (false, t[1..])
    else (false, t)
  }

  /** The unsigned number at the start of `u`: hexadecimal after a `0x`/`0X` prefix, decimal otherwise. */
  function ParseMagnitude(u: string): (r: Option<nat>)
  {
    var hex := |u| >= 2 && u[0] == '0' && (u[1] == 'x' || u[1] == 'X');
    var radix := if hex then 16 else 10;
    var body := if hex then u[2..] else u;
    var n := DigitPrefixLength(body, radix);
    if n == 0 then None else Some(DigitsValue(body[..n], radix))
  }

  /**
   * JavaScript's `parseInt(s)` without a radix: leading white space is skipped, one sign is read,
   * a `0x`/`0X` prefix switches to base 16, and the longest run of digits that follows is the
   * value. No digits at all gives NaN, here `None`.
   */
  function ParseInt(s: string): (r: Option<int>)
  {
    var (negative, u) := SplitSign(TrimStart(s));
    match ParseMagnitude(u)
    case None => None
    case Some(m) => Some(if negative then -(m as int) else m)
  }

  function DigitChar(d: nat): (c: char)
    requires d < 10
    ensures DigitValue(c, 10) == Some(d)
  {
    ('0' as nat + d) as char
  }

  /** The decimal numeral of `n`, as `String(n)` writes it. */
  function NatToString(n: nat): (r: string)
    ensures |r| >= 1 && AllDigits(r, 10)
  {
    if n < 10 then [DigitChar(n)] else NatToString(n / 10) + [DigitChar(n % 10)]
  }

  /** The decimal numeral of `n` with a minus sign when negative, as `String(n)` writes a safe integer. */
  function IntToString(n: int): string
  {
    if n < 0 then "-" + NatToString(-n) else NatToString(n)
  }

  lemma {:induction false} NatToStringValue(n: nat)
    ensures DigitsValue(NatToString(n), 10) == n
  {
    if n >= 10 {
      var r := NatToString(n);
      assert r[..|r| - 1] == NatToString(n / 10);
      NatToStringValue(n / 10);
    }
  }

  /** A decimal digit string, leading zeros included, is read as its value: a `0` followed by a digit is no `0x` prefix. */
  lemma ParseMagnitudeOfNumeral(d: string)
    requires |d| >= 1 && AllDigits(d, 10)
    ensures ParseMagnitude(d) == Some(DigitsValue(d, 10))
  {
    var k := DigitPrefixLength(d, 10);
    assert k == |d|;
    assert d[..k] == d;
  }

  /** An optionally signed decimal digit string, leading zeros included, is read as its value. */
  lemma ParseIntOfNumeral(s: string, negative: bool, d: string)
    requires |d| >= 1 && AllDigits(d, 10)
    requires s == (if negative then "-" else "") + d
    ensures ParseInt(s) == Some(if negative then -(DigitsValue(d, 10) as int) else DigitsValue(d, 10))
  {
    assert DigitValue(d[0], 10).Some?;
    assert '0' <= s[0] <= '9' || s[0] == '-';
    assert !IsJsSpace(s[0]);
    assert TrimStart(s) == s;
    assert SplitSign(s) == (negative, d);
    ParseMagnitudeOfNumeral(d);
  }

  /** A numeral written by `String(n)` is read back by `parseInt` as `n`. */
  lemma ParseIntOfIntToString(n: int)
    ensures ParseInt(IntToString(n)) == Some(n)
  {
    var m: nat := if n < 0 then -n else n;
    NatToStringValue(m);
    ParseIntOfNumeral(IntToString(n), n < 0, NatToString(m));
  }

  /** `Boolean(v)` of a query parameter: true exactly for a non-empty string. */
  function Truthy(v: Option<string>): (b: bool)
    ensures b <==> v != None && v != Some("")
  {
    v.Some? && |v.value| > 0
  }

  /** `getInitialProps`: the props of the page, read from the route query. */
  function GetInitialProps(q: RouteQuery): (p: PageProps)
    ensures p.parentCollectiveSlug == q.parentCollectiveSlug && p.collectiveSlug == q.collectiveSlug
    ensures q.expenseId.None? ==> p.legacyExpenseId.None?
    ensures forall n: int :: q.expenseId == Some(IntToString(n)) ==> p.legacyExpenseId == Some(n)
    ensures forall d: string | |d| >= 1 && AllDigits(d, 10) ::
      q.expenseId == Some(d) ==> p.legacyExpenseId == Some(DigitsValue(d, 10))
    ensures p.createSuccess <==> q.createSuccess.Some? && q.createSuccess.value != ""
  {
    forall n: int | q.expenseId == Some(IntToString(n)) ensures ParseInt(q.expenseId.value) == Some(n) {
      ParseIntOfIntToString(n);
    }
    forall d: string | |d| >= 1 && AllDigits(d, 10) && q.expenseId == Some(d)
      ensures ParseInt(d) == Some(DigitsValue(d, 10))
    {
      ParseIntOfNumeral(d, false, d);
    }
    PageProps(
      q.parentCollectiveSlug,
      q.collectiveSlug,
      // `parseInt(undefined)` reads the string "undefined", which has no digits
      if q.expenseId.Some? then ParseInt(q.expenseId.value) else None,
      Truthy(q.createSuccess))
  }

  /** `parentCollectiveSlug && 'events'`: absent stays absent, the empty string stays itself. */
  function CollectiveTypeParam(parentCollectiveSlug: Option<string>): (r: Option<string>)
    ensures parentCollectiveSlug.None? ==> r.None?
    ensures parentCollectiveSlug == Some("") ==> r == Some("")
    ensures parentCollectiveSlug.Some? && parentCollectiveSlug.value != "" ==> r == Some("events")
  {
    match parentCollectiveSlug
    case None => None
    case Some(p) => if p == "" then Some("") else Some("events")
  }

  /** The route parameters `onSuccessMsgDismiss` replaces the location with: the same expense, without `createSuccess`. */
  function DismissRouteParams(props: PageProps): (r: RouteParams)
    ensures r.expenseId == props.legacyExpenseId && r.collectiveSlug == props.collectiveSlug
    ensures r.parentCollectiveSlug == props.parentCollectiveSlug
  {
    RouteParams(
      props.parentCollectiveSlug,
      props.collectiveSlug,
      CollectiveTypeParam(props.parentCollectiveSlug),
      props.legacyExpenseId)
  }

  /** The route query the router hands back for a route: the expense id is written as a numeral, `createSuccess` is gone. */
  function QueryOfRoute(r: RouteParams): RouteQuery
    requires r.expenseId.Some?
  {
    RouteQuery(r.parentCollectiveSlug, r.collectiveSlug, Some(IntToString(r.expenseId.value)), None)
  }

  /** Dismissing the success message keeps the page on the same expense and turns `createSuccess` off. */
  lemma DismissRouteRoundTrip(props: PageProps)
    requires props.legacyExpenseId.Some?
    ensures GetInitialProps(QueryOfRoute(DismissRouteParams(props))) == props.(createSuccess := false)
  {
    ParseIntOfIntToString(props.legacyExpenseId.value);
  }
}
