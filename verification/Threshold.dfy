/**
 Pass/fail thresholds.  Conditions are texts such as "< 200ms", ">= 1.5s" or "< 1%".

 A threshold is a floating-point value and may be infinite or not a number.  A token with an
 exponent, underscores or hexadecimal digits gets the value the parameter `foreign` assigns to
 it, which is never NaN; every result holds for any `foreign`.
 */
module Threshold {
  import opened Wrappers
  import opened Histogram
  import C = Collector

  // ----- text -----

  /** Unicode white space, as trimmed by strings.TrimSpace. */
  predicate IsSpace(c: char) {
    || '\t' <= c <= '\r' || c == ' ' || c == '\U{0085}' || c == '\U{00A0}' || c == '\U{1680}'
    || '\U{2000}' <= c <= '\U{200A}' || c == '\U{2028}' || c == '\U{2029}' || c == '\U{202F}'
    || c == '\U{205F}' || c == '\U{3000}'
  }

  predicate IsDigit(c: char) {
    '0' <= c <= '9'
  }

  predicate Spaces(s: string) {
    forall i :: 0 <= i < |s| ==> IsSpace(s[i])
  }

  predicate Digits(s: string) {
    forall i :: 0 <= i < |s| ==> IsDigit(s[i])
  }

  function TrimLeft(s: string): string {
    if s != [] && IsSpace(s[0]) then TrimLeft(s[1..]) else s
  }

  function TrimRight(s: string): (t: string)
    ensures t <= s && (t != [] ==> !IsSpace(t[|t| - 1]))
  {
    if s != [] && IsSpace(s[|s| - 1]) then TrimRight(s[..|s| - 1]) else s
  }

  function TrimSpace(s: string): string {
    TrimRight(TrimLeft(s))
  }

  predicate HasPrefix(s: string, prefix: string) {
    |prefix| <= |s| && s[..|prefix|] == prefix
  }

  predicate HasSuffix(s: string, suffix: string) {
    |suffix| <= |s| && s[|s| - |suffix|..] == suffix
  }

  function TrimSuffix(s: string, suffix: string): string
    requires HasSuffix(s, suffix)
  {
    s[..|s| - |suffix|]
  }

  // ----- numbers -----

  function DigitPrefix(s: string): (n: nat)
    ensures n <= |s|
  {
    if s != [] && IsDigit(s[0]) then 1 + DigitPrefix(s[1..]) else 0
  }

  function SignPrefix(s: string): (n: nat)
    ensures n <= |s|
  {
    if s != [] && (s[0] == '+' || s[0] == '-') then 1 else 0
  }

  function NatValue(ds: string): int {
    if ds == [] then 0 else 10 * NatValue(ds[..|ds| - 1]) + (ds[|ds| - 1] as int - '0' as int)
  }

  /** The value of digits after the point. */
  function FractionValue(ds: string): real {
    if ds == [] then 0.0 else ((ds[0] as int - '0' as int) as real + FractionValue(ds[1..])) / 10.0
  }

  function DecimalValue(negative: bool, whole: string, frac: string): real {
    var v := NatValue(whole) as real + FractionValue(frac);
    if negative then -v else v
  }

  /** The plain decimal a text begins with, and what follows it. */
  datatype Token = Token(sign: string, whole: string, point: bool, frac: string, rest: string)

  function LexFraction(sign: string, whole: string, s: string): Token {
    if s != [] && s[0] == '.' then
      var n := DigitPrefix(s[1..]);
      Token(sign, whole, true, s[1..][..n], s[1..][n..])
    else Token(sign, whole, false, "", s)
  }

  function LexWhole(sign: string, s: string): Token {
    var n := DigitPrefix(s);
    LexFraction(sign, s[..n], s[n..])
  }

  function Lex(s: string): Token {
    LexWhole(s[..SignPrefix(s)], s[SignPrefix(s)..])
  }

  /** A float64, with reals for the finite ones. */
  datatype Float = Finite(x: real) | PosInf | NegInf | NaN

  type Ordered = v: Float | !v.NaN? witness Finite(0.0)

  type Reading = string -> Ordered

  /** The number token goes on beyond a plain decimal. */
  predicate IsForeign(t: Token) {
    t.rest != [] && (t.rest[0] in "eEpP_" || (!t.point && t.whole == "0" && t.rest[0] in "xX"))
  }

  function TokenValue(t: Token, s: string, foreign: Reading): Ordered {
    if IsForeign(t) then foreign(s)
    else if t.whole + t.frac == "" then Finite(0.0)
    else Finite(DecimalValue(t.sign == "-", t.whole, t.frac))
  }

  /** The letter in either case. */
  predicate Either(c: char, lower: char, upper: char) {
    c == lower || c == upper
  }

  predicate BeginsNaN(s: string) {
    |s| >= 3 && Either(s[0], 'n', 'N') && Either(s[1], 'a', 'A') && Either(s[2], 'n', 'N')
  }

  predicate BeginsInf(s: string) {
    |s| >= 3 && Either(s[0], 'i', 'I') && Either(s[1], 'n', 'N') && Either(s[2], 'f', 'F')
  }

  /**
   Sscanf(s, "%f", &threshold) with threshold 0 before: 0 is kept when no number can be read.
   A sign is read before Inf, not before NaN.
   */
  function Scan(s: string, foreign: Reading): Float {
    if BeginsNaN(s) then NaN
    else if BeginsInf(s[SignPrefix(s)..]) then (if s[0] == '-' then NegInf else PosInf)
    else TokenValue(Lex(s), s, foreign)
  }

  function TimesThousand(v: Float): Float {
    if v.Finite? then Finite(v.x * 1000.0) else v
  }

  /** The threshold after the operator, with seconds converted to milliseconds. */
  function ThresholdOf(text: string, foreign: Reading): Float {
    if HasSuffix(text, "ms") then Scan(TrimSuffix(text, "ms"), foreign)
    else if HasSuffix(text, "s") then TimesThousand(Scan(TrimSuffix(text, "s"), foreign))
    else if HasSuffix(text, "%") then Scan(TrimSuffix(text, "%"), foreign)
    else Scan(text, foreign)
  }

  // ----- conditions -----

  datatype Op = Lt | Le | Gt | Ge

  function OpText(op: Op): string {
    match op case Lt => "<" case Le => "<=" case Gt => ">" case Ge => ">="
  }

  /** IEEE comparison of a finite value; every comparison with NaN is false. */
  predicate Compare(op: Op, actual: real, threshold: Float) {
    match threshold
    case PosInf => op.Lt? || op.Le?
    case NegInf => op.Gt? || op.Ge?
    case NaN => false
    case Finite(x) =>
      match op
      case Lt => actual < x
      case Le => actual <= x
      case Gt => actual > x
      case Ge => actual >= x
  }

  function OperatorOf(condition: string): (op: Option<Op>)
    ensures op.Some? ==> HasPrefix(condition, OpText(op.value))
  {
    if HasPrefix(condition, "<=") then Some(Le)
    else if HasPrefix(condition, ">=") then Some(Ge)
    else if HasPrefix(condition, "<") then Some(Lt)
    else if HasPrefix(condition, ">") then Some(Gt)
    else None
  }

  predicate EvaluateCondition(actual: real, condition: string, foreign: Reading) {
    var trimmed := TrimSpace(condition);
    match OperatorOf(trimmed)
    case None => false
    case Some(op) =>
      Compare(op, actual, ThresholdOf(TrimSpace(trimmed[|OpText(op)|..]), foreign))
  }

  // ----- thresholds of a result -----

  datatype Rule = Rule(metric: string, condition: string)
  datatype Actual = Milliseconds(ms: int) | Percent(value: real) | Count(n: int) | UnknownMetric
  datatype Verdict = Verdict(metric: string, condition: string, actual: string, passed: bool)

  function ActualOf(metric: string, r: C.TestResult): Actual {
    if metric == "http_req_duration_p50" then Milliseconds(Millis(r.p50Us))
    else if metric == "http_req_duration_p95" then Milliseconds(Millis(r.p95Us))
    else if metric == "http_req_duration_p99" then Milliseconds(Millis(r.p99Us))
    else if metric == "http_req_duration_avg" then Milliseconds(Millis(r.avgUs))
    else if metric == "http_req_failed" then Percent(r.errorRate * 100.0)
    else if metric == "http_reqs" then Count(r.totalRequests)
    else UnknownMetric
  }

  function Number(a: Actual): real {
    match a
    case Milliseconds(ms) => ms as real
    case Percent(value) => value
    case Count(n) => n as real
    case UnknownMetric => 0.0
  }

  // ----- the printer -----

  datatype Unit = Ms | Sec | Pct | Plain

  function UnitText(u: Unit): string {
    match u case Ms => "ms" case Sec => "s" case Pct => "%" case Plain => ""
  }

  /** Seconds count as 1000 milliseconds. */
  function Scaled(x: real, u: Unit): real {
    if u.Sec? then x * 1000.0 else x
  }

  /** A plain decimal: optional sign, digits, optional point and digits, at least one digit. */
  datatype Decimal = Decimal(sign: string, whole: string, point: bool, frac: string)
  {
    predicate Valid() {
      && sign in {"", "+", "-"} && Digits(whole) && Digits(frac)
      && (!point ==> frac == "") && whole + frac != ""
    }

    function Text(): string {
      sign + whole + (if point then "." + frac else "")
    }

    function Value(): real {
      DecimalValue(sign == "-", whole, frac)
    }
  }

  /** A condition with white space anywhere around its three parts. */
  datatype Condition = Condition(
    lead: string, op: Op, gap: string, num: Decimal, gap2: string, unit: Unit, trail: string)
  {
    predicate Valid() {
      Spaces(lead) && Spaces(gap) && Spaces(gap2) && Spaces(trail) && num.Valid()
    }

    /** The threshold the condition means. */
    function Meaning(): real {
      Scaled(num.Value(), unit)
    }

    function Text(): string {
      lead + OpText(op) + gap + num.Text() + gap2 + UnitText(unit) + trail
    }
  }

  // ----- the printed actual value -----

  function NatText(n: nat): string {
    if n < 10 then [DigitChar(n)] else NatText(n / 10) + [DigitChar(n % 10)]
  }

  function DigitChar(n: nat): (c: char)
    requires n < 10
    ensures IsDigit(c) && c as int == '0' as int + n
  {
    '0' + n as char
  }

  function Abs(n: int): nat {
    if n < 0 then -n else n
  }

  /** %d */
  function IntDecimal(n: int): Decimal {
    Decimal(if n < 0 then "-" else "", NatText(Abs(n)), false, "")
  }

  /** To the nearest integer, ties to even. */
  function Nearest(x: real): (n: nat)
    requires x >= 0.0
    ensures n as real - 0.5 <= x <= n as real + 0.5
    ensures x == n as real - 0.5 || x == n as real + 0.5 ==> n % 2 == 0
  {
    var f := x.Floor;
    var d := x - f as real;
    if d < 0.5 || (d == 0.5 && f % 2 == 0) then f else f + 1
  }

  /** %.2f */
  function FixedDecimal(x: real): Decimal {
    var h := Nearest(100.0 * (if x < 0.0 then -x else x));
    Decimal(if x < 0.0 then "-" else "", NatText(h / 100), true, [DigitChar(h % 100 / 10), DigitChar(h % 100 % 10)])
  }

  function ActualText(a: Actual): string {
    match a
    case Milliseconds(ms) => IntDecimal(ms).Text() + "ms"
    case Percent(value) => FixedDecimal(value).Text() + "%"
    case Count(n) => IntDecimal(n).Text()
    case UnknownMetric => "unknown metric"
  }

  /** The verdict quotes its rule, prints the measured value, and says whether it meets the condition. */
  predicate Judges(v: Verdict, rule: Rule, r: C.TestResult, foreign: Reading) {
    var actual := ActualOf(rule.metric, r);
    && v.metric == rule.metric && v.condition == rule.condition && v.actual == ActualText(actual)
    && (v.passed <==> !actual.UnknownMetric? && EvaluateCondition(Number(actual), rule.condition, foreign))
  }

  /** One verdict per rule, in order; an unknown metric fails whatever its condition. */
  method Evaluate(rules: seq<Rule>, r: C.TestResult, foreign: Reading) returns (verdicts: seq<Verdict>)
    ensures |verdicts| == |rules|
    ensures forall i :: 0 <= i < |rules| ==> Judges(verdicts[i], rules[i], r, foreign)
  {
    verdicts := [];
    for i := 0 to |rules|
      invariant |verdicts| == i
      invariant forall k :: 0 <= k < i ==> Judges(verdicts[k], rules[k], r, foreign)
    {
      var t := rules[i];
      var actual := ActualOf(t.metric, r);
      var passed := false;
      if !actual.UnknownMetric? {
        passed := EvaluateCondition(Number(actual), t.condition, foreign);
      }
      verdicts := verdicts + [Verdict(t.metric, t.condition, ActualText(actual), passed)];
    }
  }

  /** White space by code: the ASCII controls from tab to carriage return, and the Unicode separators. */
  lemma SpaceExactly(c: char)
    ensures var code := c as int;
      IsSpace(c) <==> 9 <= code < 14 || 8192 <= code < 8203
                      || code in [32, 133, 160, 5760, 8232, 8233, 8239, 8287, 12288]
  {
  }

  // ----- the parser inverts the printer -----

  lemma {:induction false} TrimLeftSpaces(w: string, x: string)
    requires Spaces(w) && (x != [] ==> !IsSpace(x[0]))
    ensures TrimLeft(w + x) == x
  {
    if w == [] {
      assert w + x == x;
    } else {
      assert (w + x)[1..] == w[1..] + x;
      TrimLeftSpaces(w[1..], x);
    }
  }

  lemma {:induction false} TrimRightSpaces(x: string, w: string)
    requires Spaces(w) && (x != [] ==> !IsSpace(x[|x| - 1]))
    ensures TrimRight(x + w) == x
  {
    if w == [] {
      assert x + w == x;
    } else {
      assert (x + w)[..|x + w| - 1] == x + w[..|w| - 1];
      TrimRightSpaces(x, w[..|w| - 1]);
    }
  }

  lemma TrimBoth(w: string, x: string, v: string)
    requires Spaces(w) && Spaces(v) && x != [] && !IsSpace(x[0]) && !IsSpace(x[|x| - 1])
    ensures TrimSpace(w + x + v) == x
  {
    assert w + x + v == w + (x + v);
    TrimLeftSpaces(w, x + v);
    TrimRightSpaces(x, v);
  }

  lemma {:induction false} DigitRun(ds: string, rest: string)
    requires Digits(ds) && (rest != [] ==> !IsDigit(rest[0]))
    ensures DigitPrefix(ds + rest) == |ds|
  {
    if ds == [] {
      assert ds + rest == rest;
    } else {
      assert (ds + rest)[1..] == ds[1..] + rest;
      DigitRun(ds[1..], rest);
    }
  }

  /** Nothing in rest continues a number. */
  predicate Stops(rest: string) {
    rest != [] ==> IsSpace(rest[0])
  }

  lemma FractionInverts(d: Decimal, rest: string)
    requires d.Valid() && Stops(rest)
    ensures LexFraction(d.sign, d.whole, (if d.point then "." + d.frac else "") + rest)
         == Token(d.sign, d.whole, d.point, d.frac, rest)
  {
    if d.point {
      assert ("." + d.frac + rest)[1..] == d.frac + rest;
      DigitRun(d.frac, rest);
    } else {
      assert "" + rest == rest;
    }
  }

  lemma WholeInverts(d: Decimal, rest: string)
    requires d.Valid() && Stops(rest)
    ensures LexWhole(d.sign, d.whole + (if d.point then "." + d.frac else "") + rest)
         == Token(d.sign, d.whole, d.point, d.frac, rest)
  {
    var tail := (if d.point then "." + d.frac else "") + rest;
    assert d.whole + (if d.point then "." + d.frac else "") + rest == d.whole + tail;
    DigitRun(d.whole, tail);
    assert (d.whole + tail)[..|d.whole|] == d.whole && (d.whole + tail)[|d.whole|..] == tail;
    FractionInverts(d, rest);
  }

  lemma SignInverts(sign: string, rest: string)
    requires sign in {"", "+", "-"} && rest != [] && rest[0] != '+' && rest[0] != '-'
    ensures Lex(sign + rest) == LexWhole(sign, rest)
  {
    var s := sign + rest;
    assert s[..|sign|] == sign && s[|sign|..] == rest;
  }

  lemma LexInverts(d: Decimal, rest: string)
    requires d.Valid() && Stops(rest)
    ensures Lex(d.Text() + rest) == Token(d.sign, d.whole, d.point, d.frac, rest)
  {
    var r1 := d.whole + (if d.point then "." + d.frac else "") + rest;
    assert d.Text() + rest == d.sign + r1;
    assert r1[0] == if d.whole == "" then '.' else d.whole[0];
    SignInverts(d.sign, r1);
    WholeInverts(d, rest);
  }

  lemma TokenInverts(d: Decimal, rest: string, s: string, foreign: Reading)
    requires d.Valid() && Stops(rest)
    ensures TokenValue(Token(d.sign, d.whole, d.point, d.frac, rest), s, foreign) == Finite(d.Value())
  {
  }

  lemma UnsignedBegins(d: Decimal, r: string)
    requires d.Valid() && d.whole + (if d.point then "." + d.frac else "") <= r
    ensures r != "" && (IsDigit(r[0]) || r[0] == '.')
  {
    assert r[0] == if d.whole == "" then '.' else d.whole[0];
  }

  lemma SignSkipped(sign: string, r: string)
    requires sign in {"", "+", "-"} && r != "" && (IsDigit(r[0]) || r[0] == '.')
    ensures (sign + r)[SignPrefix(sign + r)..] == r && !BeginsNaN(sign + r) && !BeginsInf(r)
  {
  }

  /** A printed number begins neither like NaN nor, after its sign, like Inf. */
  lemma DecimalBegins(d: Decimal, rest: string)
    requires d.Valid()
    ensures var t := d.Text() + rest; !BeginsNaN(t) && !BeginsInf(t[SignPrefix(t)..])
  {
    var r := d.whole + (if d.point then "." + d.frac else "") + rest;
    assert d.Text() + rest == d.sign + r;
    UnsignedBegins(d, r);
    SignSkipped(d.sign, r);
  }

  lemma ScanInvertsText(d: Decimal, rest: string, foreign: Reading)
    requires d.Valid() && Stops(rest)
    ensures Scan(d.Text() + rest, foreign) == Finite(d.Value())
  {
    DecimalBegins(d, rest);
    LexInverts(d, rest);
    TokenInverts(d, rest, d.Text() + rest, foreign);
  }

  /** First and last character of a printed number. */
  lemma NumberEdges(d: Decimal)
    requires d.Valid()
    ensures var t := d.Text();
      t != "" && !IsSpace(t[0]) && !IsSpace(t[|t| - 1]) && t[0] != '=' && (IsDigit(t[|t| - 1]) || t[|t| - 1] == '.')
  {
  }

  lemma SuffixInverts(body: string, unit: Unit)
    requires body != "" && body[|body| - 1] !in "ms%"
    ensures HasSuffix(body + UnitText(unit), UnitText(unit))
    ensures TrimSuffix(body + UnitText(unit), UnitText(unit)) == body
    ensures HasSuffix(body + UnitText(unit), "ms") <==> unit.Ms?
    ensures HasSuffix(body + UnitText(unit), "s") <==> unit.Ms? || unit.Sec?
    ensures HasSuffix(body + UnitText(unit), "%") <==> unit.Pct?
  {
    var text := body + UnitText(unit);
    assert text[..|body|] == body && text[|body|..] == UnitText(unit);
    LastOf(text, "s");
    LastOf(text, "%");
    if HasSuffix(text, "ms") {
      assert text[|text| - 2] == 'm' && text[|text| - 1] == 's';
    }
  }

  lemma LastOf(text: string, suffix: string)
    requires |suffix| == 1 && text != ""
    ensures HasSuffix(text, suffix) <==> text[|text| - 1] == suffix[0]
  {
    assert text[|text| - 1..] == [text[|text| - 1]];
  }

  lemma ThresholdBySuffix(body: string, unit: Unit, foreign: Reading)
    requires body != "" && body[|body| - 1] !in "ms%"
    ensures ThresholdOf(body + UnitText(unit), foreign)
         == (if unit.Sec? then TimesThousand(Scan(body, foreign)) else Scan(body, foreign))
  {
    SuffixInverts(body, unit);
    if unit.Plain? {
      assert body + UnitText(unit) == body;
    }
  }

  /** A printed number and the gap after it do not end like a unit. */
  lemma BodyEnds(d: Decimal, gap2: string)
    requires d.Valid() && Spaces(gap2)
    ensures var body := d.Text() + gap2; body != "" && body[|body| - 1] !in "ms%"
  {
    NumberEdges(d);
    var body := d.Text() + gap2;
    assert body[|body| - 1] == if gap2 == "" then d.Text()[|d.Text()| - 1] else gap2[|gap2| - 1];
  }

  lemma ThresholdOfBody(body: string, unit: Unit, x: real, foreign: Reading)
    requires body != "" && body[|body| - 1] !in "ms%" && Scan(body, foreign) == Finite(x)
    ensures ThresholdOf(body + UnitText(unit), foreign) == Finite(Scaled(x, unit))
  {
    ThresholdBySuffix(body, unit, foreign);
  }

  lemma ThresholdInverts(d: Decimal, gap2: string, unit: Unit, foreign: Reading)
    requires d.Valid() && Spaces(gap2)
    ensures ThresholdOf(d.Text() + gap2 + UnitText(unit), foreign) == Finite(Scaled(d.Value(), unit))
  {
    BodyEnds(d, gap2);
    ScanInvertsText(d, gap2, foreign);
    ThresholdOfBody(d.Text() + gap2, unit, d.Value(), foreign);
  }

  /** The text between the outer spaces; with no unit the inner gap belongs to them. */
  function Core(c: Condition): string {
    c.num.Text() + (if c.unit.Plain? then "" else c.gap2) + UnitText(c.unit)
  }

  lemma CoreEdges(c: Condition)
    requires c.Valid()
    ensures var t := Core(c); t != "" && !IsSpace(t[0]) && t[0] != '=' && !IsSpace(t[|t| - 1])
  {
    NumberEdges(c.num);
  }

  lemma OperatorInverts(op: Op, rest: string)
    requires rest != "" ==> rest[0] != '='
    ensures OperatorOf(OpText(op) + rest) == Some(op) && (OpText(op) + rest)[|OpText(op)|..] == rest
  {
    var t := OpText(op) + rest;
    assert t[..|OpText(op)|] == OpText(op);
    assert HasPrefix(t, "<=") ==> t[0] == '<' && t[1] == '=';
    assert HasPrefix(t, ">=") ==> t[0] == '>' && t[1] == '=';
    assert HasPrefix(t, "<") ==> t[0] == '<';
  }

  lemma EvaluateTrimmed(actual: real, text: string, op: Op, rest: string, foreign: Reading)
    requires TrimSpace(text) == OpText(op) + rest && (rest != "" ==> rest[0] != '=')
    ensures EvaluateCondition(actual, text, foreign) <==> Compare(op, actual, ThresholdOf(TrimSpace(rest), foreign))
  {
    OperatorInverts(op, rest);
  }

  lemma CoreInverts(c: Condition, foreign: Reading)
    requires c.Valid()
    ensures ThresholdOf(Core(c), foreign) == Finite(c.Meaning())
  {
    var gap := if c.unit.Plain? then "" else c.gap2;
    assert Core(c) == c.num.Text() + gap + UnitText(c.unit);
    ThresholdInverts(c.num, gap, c.unit, foreign);
  }

  /** Evaluating a printed condition is the comparison it means, seconds counting 1000. */
  lemma ConditionRoundTrip(actual: real, c: Condition, foreign: Reading)
    requires c.Valid()
    ensures EvaluateCondition(actual, c.Text(), foreign) <==> Compare(c.op, actual, Finite(c.Meaning()))
  {
    TextTrims(c);
    CoreTrims(c);
    CoreInverts(c, foreign);
    EvaluateTrimmed(actual, c.Text(), c.op, c.gap + Core(c), foreign);
  }

  lemma SimpleCondition(actual: real, op: Op, gap: string, d: Decimal, unit: Unit, foreign: Reading)
    requires Spaces(gap) && d.Valid()
    ensures EvaluateCondition(actual, OpText(op) + gap + d.Text() + UnitText(unit), foreign)
       <==> Compare(op, actual, Finite(Scaled(d.Value(), unit)))
  {
    var c := Condition("", op, gap, d, "", unit, "");
    assert c.Text() == OpText(op) + gap + d.Text() + UnitText(unit);
    ConditionRoundTrip(actual, c, foreign);
  }

  /** Each operator is the comparison of its name. */
  lemma OperatorMeans(actual: real, gap: string, d: Decimal, foreign: Reading)
    requires Spaces(gap) && d.Valid()
    ensures EvaluateCondition(actual, "<" + gap + d.Text() + "ms", foreign) <==> actual < d.Value()
    ensures EvaluateCondition(actual, "<=" + gap + d.Text() + "ms", foreign) <==> actual <= d.Value()
    ensures EvaluateCondition(actual, ">" + gap + d.Text() + "ms", foreign) <==> actual > d.Value()
    ensures EvaluateCondition(actual, ">=" + gap + d.Text() + "ms", foreign) <==> actual >= d.Value()
  {
    SimpleCondition(actual, Lt, gap, d, Ms, foreign);
    SimpleCondition(actual, Le, gap, d, Ms, foreign);
    SimpleCondition(actual, Gt, gap, d, Ms, foreign);
    SimpleCondition(actual, Ge, gap, d, Ms, foreign);
  }

  /** Seconds count 1000, percent and plain numbers one. */
  lemma UnitMeans(actual: real, gap: string, d: Decimal, foreign: Reading)
    requires Spaces(gap) && d.Valid()
    ensures EvaluateCondition(actual, "<" + gap + d.Text() + "s", foreign) <==> actual < d.Value() * 1000.0
    ensures EvaluateCondition(actual, "<" + gap + d.Text() + "%", foreign) <==> actual < d.Value()
    ensures EvaluateCondition(actual, "<" + gap + d.Text(), foreign) <==> actual < d.Value()
  {
    SimpleCondition(actual, Lt, gap, d, Sec, foreign);
    SimpleCondition(actual, Lt, gap, d, Pct, foreign);
    SimpleCondition(actual, Lt, gap, d, Plain, foreign);
    assert "<" + gap + d.Text() + "" == "<" + gap + d.Text();
  }

  lemma ThreeDigits(a: char, b: char, c: char)
    ensures NatValue([a, b, c])
         == 100 * (a as int - '0' as int) + 10 * (b as int - '0' as int) + (c as int - '0' as int)
  {
    assert [a, b, c][..2] == [a, b] && [a, b][..1] == [a];
    OneDigit(a);
    assert NatValue([a, b]) == 10 * NatValue([a]) + (b as int - '0' as int);
  }

  lemma OneDigit(c: char)
    ensures NatValue([c]) == c as int - '0' as int && FractionValue([c]) == (c as int - '0' as int) as real / 10.0
  {
    assert [c][..0] == [] && [c][1..] == [];
  }

  /** Conditions as users write them. */
  lemma EverydayConditions(actual: real, foreign: Reading)
    ensures EvaluateCondition(actual, "< 250ms", foreign) <==> actual < 250.0
    ensures EvaluateCondition(actual, "< 1.5s", foreign) <==> actual < 1500.0
    ensures EvaluateCondition(actual, "<-1%", foreign) <==> actual < -1.0
  {
    ThreeDigits('2', '5', '0');
    OneDigit('1');
    OneDigit('5');
    assert "<" + " " + "250" + "ms" == "< 250ms" && "<" + " " + "1.5" + "s" == "< 1.5s";
    assert "<" + "" + "-1" + "%" == "<-1%";
    assert Decimal("", "250", false, "").Text() == "250" && Decimal("-", "1", false, "").Text() == "-1";
    assert Decimal("", "1", true, "5").Text() == "1.5";
    OperatorMeans(actual, " ", Decimal("", "250", false, ""), foreign);
    UnitMeans(actual, " ", Decimal("", "1", true, "5"), foreign);
    UnitMeans(actual, "", Decimal("-", "1", false, ""), foreign);
  }

  /** The text split at its outer spaces. */
  lemma TextSplits(c: Condition)
    requires c.Valid()
    ensures c.Text() == c.lead + (OpText(c.op) + (c.gap + Core(c))) + ((if c.unit.Plain? then c.gap2 else "") + c.trail)
  {
    var a, b, u := c.lead + OpText(c.op) + c.gap, c.num.Text(), UnitText(c.unit);
    assert c.Text() == a + (b + c.gap2 + u) + c.trail;
    if c.unit.Plain? {
      assert b + c.gap2 + u == Core(c) + c.gap2;
    } else {
      assert b + c.gap2 + u == Core(c);
    }
    assert a + Core(c) == c.lead + (OpText(c.op) + (c.gap + Core(c)));
  }

  lemma InnerEdges(op: Op, x: string)
    requires x != "" && !IsSpace(x[|x| - 1])
    ensures var t := OpText(op) + x; !IsSpace(t[0]) && !IsSpace(t[|t| - 1])
  {
  }

  /** Trimming the text leaves operator, gap and core. */
  lemma TextTrims(c: Condition)
    requires c.Valid()
    ensures TrimSpace(c.Text()) == OpText(c.op) + (c.gap + Core(c))
  {
    CoreEdges(c);
    var x := c.gap + Core(c);
    assert x[|x| - 1] == Core(c)[|Core(c)| - 1];
    InnerEdges(c.op, x);
    TextSplits(c);
    TrimBoth(c.lead, OpText(c.op) + x, (if c.unit.Plain? then c.gap2 else "") + c.trail);
  }

  /** Trimming what follows the operator leaves the core. */
  lemma CoreTrims(c: Condition)
    requires c.Valid()
    ensures TrimSpace(c.gap + Core(c)) == Core(c) && c.gap + Core(c) != "" && (c.gap + Core(c))[0] != '='
  {
    CoreEdges(c);
    var core := Core(c);
    assert c.gap + core == c.gap + core + "";
    TrimBoth(c.gap, core, "");
  }

  // ----- the printed actual value reads back -----

  lemma {:induction false} NatReads(n: nat)
    ensures Digits(NatText(n)) && NatText(n) != "" && NatValue(NatText(n)) == n
  {
    if n >= 10 {
      NatReads(n / 10);
      var ds, d := NatText(n / 10), DigitChar(n % 10);
      assert NatText(n)[..|ds|] == ds && NatText(n)[|ds|] == d;
    } else {
      assert [DigitChar(n)][..0] == "";
    }
  }

  lemma IntReads(n: int)
    ensures IntDecimal(n).Valid() && IntDecimal(n).Value() == n as real
  {
    NatReads(Abs(n));
  }

  lemma TwoDigits(d: nat, e: nat)
    requires d < 10 && e < 10
    ensures FractionValue([DigitChar(d), DigitChar(e)]) == (10 * d + e) as real / 100.0
  {
    assert [DigitChar(d), DigitChar(e)][1..] == [DigitChar(e)] && [DigitChar(e)][1..] == "";
    assert FractionValue([DigitChar(e)]) == (e as real + FractionValue("")) / 10.0;
  }

  lemma HundredthsRead(negative: bool, h: nat)
    ensures DecimalValue(negative, NatText(h / 100), [DigitChar(h % 100 / 10), DigitChar(h % 100 % 10)])
         == (if negative then -(h as real / 100.0) else h as real / 100.0)
  {
    NatReads(h / 100);
    var r := h % 100;
    TwoDigits(r / 10, r % 10);
    assert 10 * (r / 10) + r % 10 == r && 100 * (h / 100) + r == h;
  }

  lemma FixedReads(x: real)
    ensures FixedDecimal(x).Valid() && x - 0.005 <= FixedDecimal(x).Value() <= x + 0.005
  {
    var h := Nearest(100.0 * (if x < 0.0 then -x else x));
    NatReads(h / 100);
    HundredthsRead(x < 0.0, h);
  }

  function UnitOf(a: Actual): Unit {
    match a case Milliseconds(_) => Ms case Percent(_) => Pct case Count(_) => Plain case UnknownMetric => Plain
  }

  function DecimalOf(a: Actual): Decimal
    requires !a.UnknownMetric?
  {
    match a
    case Milliseconds(ms) => IntDecimal(ms)
    case Percent(value) => FixedDecimal(value)
    case Count(n) => IntDecimal(n)
  }

  lemma ActualTextShape(a: Actual)
    requires !a.UnknownMetric?
    ensures DecimalOf(a).Valid() && ActualText(a) == DecimalOf(a).Text() + "" + UnitText(UnitOf(a))
    ensures a.Percent? ==> a.value - 0.005 <= DecimalOf(a).Value() <= a.value + 0.005
    ensures !a.Percent? ==> DecimalOf(a).Value() == Number(a)
  {
    match a
    case Milliseconds(ms) => IntReads(ms);
    case Percent(value) => FixedReads(value);
    case Count(n) => IntReads(n);
  }

  /**
   The actual value printed in a verdict, read as a threshold, is the value that was compared:
   exactly for milliseconds and counts, to half a hundredth for the percentage.
   */
  lemma ActualReadsBack(a: Actual, foreign: Reading)
    requires !a.UnknownMetric?
    ensures var v := ThresholdOf(ActualText(a), foreign);
      && v.Finite?
      && (if a.Percent? then Number(a) - 0.005 <= v.x <= Number(a) + 0.005 else v.x == Number(a))
  {
    ActualTextShape(a);
    ThresholdInverts(DecimalOf(a), "", UnitOf(a), foreign);
  }

  /** The verdict prints the number x and compares that number. */
  predicate Reads(v: Verdict, rule: Rule, x: real, foreign: Reading) {
    ThresholdOf(v.actual, foreign) == Finite(x) && (v.passed <==> EvaluateCondition(x, rule.condition, foreign))
  }

  /** The verdict prints the number x to half a hundredth and compares x itself. */
  predicate ReadsRounded(v: Verdict, rule: Rule, x: real, foreign: Reading) {
    var printed := ThresholdOf(v.actual, foreign);
    && printed.Finite? && x - 0.005 <= printed.x <= x + 0.005
    && (v.passed <==> EvaluateCondition(x, rule.condition, foreign))
  }

  const METRICS := ["http_req_duration_p50", "http_req_duration_p95", "http_req_duration_p99",
                    "http_req_duration_avg", "http_req_failed", "http_reqs"]

  /** a is the field of the result that the metric names. */
  predicate FieldOf(metric: string, r: C.TestResult, a: Actual) {
    && (metric == "http_req_duration_p50" ==> a == Milliseconds(Millis(r.p50Us)))
    && (metric == "http_req_duration_p95" ==> a == Milliseconds(Millis(r.p95Us)))
    && (metric == "http_req_duration_p99" ==> a == Milliseconds(Millis(r.p99Us)))
    && (metric == "http_req_duration_avg" ==> a == Milliseconds(Millis(r.avgUs)))
    && (metric == "http_req_failed" ==> a == Percent(r.errorRate * 100.0))
    && (metric == "http_reqs" ==> a == Count(r.totalRequests))
    && (metric !in METRICS ==> a == UnknownMetric)
  }

  /** The verdict judges the number it prints. */
  predicate JudgesNumber(v: Verdict, rule: Rule, a: Actual, foreign: Reading) {
    match a
    case Milliseconds(ms) => Reads(v, rule, ms as real, foreign)
    case Percent(value) => ReadsRounded(v, rule, value, foreign)
    case Count(n) => Reads(v, rule, n as real, foreign)
    case UnknownMetric => v.actual == "unknown metric" && !v.passed
  }

  lemma FieldOfMetric(metric: string, r: C.TestResult)
    ensures FieldOf(metric, r, ActualOf(metric, r))
  {
  }

  lemma NumberJudged(v: Verdict, rule: Rule, r: C.TestResult, foreign: Reading)
    requires Judges(v, rule, r, foreign)
    ensures JudgesNumber(v, rule, ActualOf(rule.metric, r), foreign)
  {
    var a := ActualOf(rule.metric, r);
    if !a.UnknownMetric? {
      ActualReadsBack(a, foreign);
    }
  }

  lemma FieldJudged(v: Verdict, rule: Rule, r: C.TestResult, a: Actual, foreign: Reading)
    requires FieldOf(rule.metric, r, a) && JudgesNumber(v, rule, a, foreign)
    ensures rule.metric == "http_req_duration_p50" ==> Reads(v, rule, Millis(r.p50Us) as real, foreign)
    ensures rule.metric == "http_req_duration_p95" ==> Reads(v, rule, Millis(r.p95Us) as real, foreign)
    ensures rule.metric == "http_req_duration_p99" ==> Reads(v, rule, Millis(r.p99Us) as real, foreign)
    ensures rule.metric == "http_req_duration_avg" ==> Reads(v, rule, Millis(r.avgUs) as real, foreign)
    ensures rule.metric == "http_req_failed" ==> ReadsRounded(v, rule, r.errorRate * 100.0, foreign)
    ensures rule.metric == "http_reqs" ==> Reads(v, rule, r.totalRequests as real, foreign)
    ensures rule.metric !in METRICS ==> v.actual == "unknown metric" && !v.passed
  {
  }

  /**
   What each metric measures.  The latencies are whole milliseconds of the result's own field,
   failures are a percentage, requests a count; every other name fails.
   */
  lemma VerdictMeans(v: Verdict, rule: Rule, r: C.TestResult, foreign: Reading)
    requires Judges(v, rule, r, foreign)
    ensures rule.metric == "http_req_duration_p50" ==> Reads(v, rule, Millis(r.p50Us) as real, foreign)
    ensures rule.metric == "http_req_duration_p95" ==> Reads(v, rule, Millis(r.p95Us) as real, foreign)
    ensures rule.metric == "http_req_duration_p99" ==> Reads(v, rule, Millis(r.p99Us) as real, foreign)
    ensures rule.metric == "http_req_duration_avg" ==> Reads(v, rule, Millis(r.avgUs) as real, foreign)
    ensures rule.metric == "http_req_failed" ==> ReadsRounded(v, rule, r.errorRate * 100.0, foreign)
    ensures rule.metric == "http_reqs" ==> Reads(v, rule, r.totalRequests as real, foreign)
    ensures rule.metric !in METRICS ==> v.actual == "unknown metric" && !v.passed
  {
    FieldOfMetric(rule.metric, r);
    NumberJudged(v, rule, r, foreign);
    FieldJudged(v, rule, r, ActualOf(rule.metric, r), foreign);
  }

  // ----- verdicts -----

  lemma {:induction false} TrimRightAfter(x: string, t: string)
    requires x != [] && !IsSpace(x[|x| - 1])
    ensures TrimRight(x + t) == x + TrimRight(t)
  {
    if t == [] {
      assert x + t == x;
    } else if IsSpace(t[|t| - 1]) {
      assert (x + t)[..|x + t| - 1] == x + t[..|t| - 1];
      TrimRightAfter(x, t[..|t| - 1]);
    }
  }

  lemma SpacesJoin(v: string, w: string)
    requires Spaces(v) && Spaces(w)
    ensures Spaces(v + w)
  {
  }

  lemma {:induction false} TrimLeftSplits(s: string) returns (w: string)
    ensures s == w + TrimLeft(s) && Spaces(w)
    ensures TrimLeft(s) != [] ==> !IsSpace(TrimLeft(s)[0])
  {
    if s != [] && IsSpace(s[0]) {
      var v := TrimLeftSplits(s[1..]);
      w := [s[0]] + v;
      SpacesJoin([s[0]], v);
      calc {
        s;
        [s[0]] + s[1..];
        [s[0]] + (v + TrimLeft(s[1..]));
        w + TrimLeft(s);
      }
    } else {
      w := [];
    }
  }

  lemma {:induction false} TrimRightSplits(s: string) returns (w: string)
    ensures s == TrimRight(s) + w && Spaces(w)
  {
    if s != [] && IsSpace(s[|s| - 1]) {
      var init, last := s[..|s| - 1], [s[|s| - 1]];
      var v := TrimRightSplits(init);
      w := v + last;
      SpacesJoin(v, last);
      calc {
        s;
        init + last;
        (TrimRight(init) + v) + last;
        TrimRight(s) + w;
      }
    } else {
      w := [];
    }
  }

  lemma TrimBothSame(w: string, y: string, u: string, v: string)
    requires Spaces(w) && Spaces(u) && Spaces(v) && y != [] && !IsSpace(y[0]) && !IsSpace(y[|y| - 1])
    ensures TrimSpace(w + y + u) == TrimSpace(w + y + v)
  {
    TrimBoth(w, y, u);
    TrimBoth(w, y, v);
  }

  /** Trimming the right end first changes nothing. */
  lemma TrimSpaceTwice(t: string)
    ensures TrimSpace(TrimRight(t)) == TrimSpace(t)
  {
    var x := TrimRight(t);
    var v := TrimRightSplits(t);
    var w := TrimLeftSplits(x);
    var y := TrimLeft(x);
    if y == [] {
      assert x == w && x == [] && t == v + [];
      TrimLeftSpaces(v, []);
    } else {
      assert y[|y| - 1] == x[|x| - 1];
      assert t == w + y + v && x == w + y + [];
      TrimBothSame(w, y, v, []);
    }
  }

  lemma OperatorTrims(op: Op, t: string)
    ensures TrimSpace(OpText(op) + t) == OpText(op) + TrimRight(t)
  {
    assert TrimLeft(OpText(op) + t) == OpText(op) + t;
    TrimRightAfter(OpText(op), t);
  }

  /** What the operator is compared with, for the text t after it. */
  lemma EvaluateAfterOperator(actual: real, op: Op, t: string, foreign: Reading)
    requires t != [] ==> t[0] != '='
    ensures EvaluateCondition(actual, OpText(op) + t, foreign)
       <==> Compare(op, actual, ThresholdOf(TrimSpace(t), foreign))
  {
    OperatorTrims(op, t);
    TrimSpaceTwice(t);
    EvaluateTrimmed(actual, OpText(op) + t, op, TrimRight(t), foreign);
  }

  lemma SuffixAfterNaN(x: string, suffix: string)
    requires HasSuffix(x, suffix) && suffix in {"ms", "s", "%"}
    ensures BeginsNaN(TrimSuffix(x, suffix)) <==> BeginsNaN(x)
  {
    var n := |x| - |suffix|;
    assert x[n..][0] == x[n] == suffix[0];
    if BeginsNaN(x) {
      assert n != 0 && n != 1 && n != 2;
    }
  }

  /** The threshold is NaN exactly when its text begins so, whatever unit follows. */
  lemma NaNExactly(x: string, foreign: Reading)
    ensures ThresholdOf(x, foreign).NaN? <==> BeginsNaN(x)
  {
    if HasSuffix(x, "ms") {
      SuffixAfterNaN(x, "ms");
    } else if HasSuffix(x, "s") {
      SuffixAfterNaN(x, "s");
    } else if HasSuffix(x, "%") {
      SuffixAfterNaN(x, "%");
    }
  }

  function Opposite(op: Op): Op {
    match op case Lt => Ge case Le => Gt case Gt => Le case Ge => Lt
  }

  lemma CompareOpposite(op: Op, actual: real, v: Float)
    ensures (Compare(op, actual, v) <==> !Compare(Opposite(op), actual, v)) <==> !v.NaN?
  {
  }

  /**
   "<" and ">=", and "<=" and ">", are complements on a text that follows the operator exactly
   when it does not begin, after spaces, with "nan" in any case.
   */
  lemma Complements(actual: real, op: Op, t: string, foreign: Reading)
    requires t != [] ==> t[0] != '='
    ensures (EvaluateCondition(actual, OpText(op) + t, foreign)
             <==> !EvaluateCondition(actual, OpText(Opposite(op)) + t, foreign))
       <==> !BeginsNaN(TrimSpace(t))
  {
    NaNExactly(TrimSpace(t), foreign);
    EvaluateAfterOperator(actual, op, t, foreign);
    EvaluateAfterOperator(actual, Opposite(op), t, foreign);
    CompareOpposite(op, actual, ThresholdOf(TrimSpace(t), foreign));
  }

  /** After a text that begins with "nan" every operator fails. */
  lemma NaNDefeats(actual: real, op: Op, t: string, foreign: Reading)
    requires BeginsNaN(TrimSpace(t)) && t != [] && t[0] != '='
    ensures !EvaluateCondition(actual, OpText(op) + t, foreign)
  {
    NaNExactly(TrimSpace(t), foreign);
    EvaluateAfterOperator(actual, op, t, foreign);
  }

  lemma NaNText()
    ensures BeginsNaN(TrimSpace(" nan"))
  {
    assert " " + "nan" + "" == " nan";
    TrimBoth(" ", "nan", "");
  }

  /** So a condition and its complement can both fail: "< nan" and ">= nan" do. */
  lemma NaNDefeatsBoth(actual: real, foreign: Reading)
    ensures !EvaluateCondition(actual, OpText(Lt) + " nan", foreign)
    ensures !EvaluateCondition(actual, OpText(Ge) + " nan", foreign)
  {
    NaNText();
    NaNDefeats(actual, Lt, " nan", foreign);
    NaNDefeats(actual, Ge, " nan", foreign);
  }

  lemma AfterSpace(actual: real, op: Op, x: string, foreign: Reading)
    requires x != "" && !IsSpace(x[0]) && !IsSpace(x[|x| - 1])
    ensures EvaluateCondition(actual, OpText(op) + " " + x, foreign) <==> Compare(op, actual, ThresholdOf(x, foreign))
  {
    assert OpText(op) + " " + x == OpText(op) + (" " + x) && " " + x + "" == " " + x;
    TrimBoth(" ", x, "");
    EvaluateAfterOperator(actual, op, " " + x, foreign);
  }

  lemma NoUnit(x: string, foreign: Reading)
    requires x != "" && x[|x| - 1] !in "s%"
    ensures ThresholdOf(x, foreign) == Scan(x, foreign)
  {
    LastOf(x, "s");
    LastOf(x, "%");
  }

  lemma InfinityScans(foreign: Reading)
    ensures Scan("inf", foreign) == PosInf && Scan("+Inf", foreign) == PosInf && Scan("-INF", foreign) == NegInf
  {
    assert "inf"[0..] == "inf" && "+Inf"[1..] == "Inf" && "-INF"[1..] == "INF";
    assert BeginsInf("inf") && BeginsInf("Inf") && BeginsInf("INF");
  }

  lemma InfinityReads(x: string, foreign: Reading)
    requires x in ["inf", "+Inf", "-INF"]
    ensures x != "" && !IsSpace(x[0]) && !IsSpace(x[|x| - 1])
    ensures ThresholdOf(x, foreign) == if x == "-INF" then NegInf else PosInf
  {
    NoUnit(x, foreign);
    InfinityScans(foreign);
  }

  /** Infinities are read in any case, with or without a sign, and every value lies between them. */
  lemma InfiniteConditions(actual: real, op: Op, x: string, foreign: Reading)
    requires x in ["inf", "+Inf", "-INF"]
    ensures EvaluateCondition(actual, OpText(op) + " " + x, foreign)
       <==> if x == "-INF" then op in {Gt, Ge} else op in {Lt, Le}
  {
    InfinityReads(x, foreign);
    AfterSpace(actual, op, x, foreign);
  }

  /** The text begins with nothing a number can begin with. */
  predicate Numberless(x: string) {
    && (x != "" ==> !IsDigit(x[0]) && x[0] !in "+-.eEpP_")
    && !BeginsNaN(x) && !BeginsInf(x)
  }

  lemma NumberlessScan(x: string, foreign: Reading)
    requires Numberless(x)
    ensures Scan(x, foreign) == Finite(0.0)
  {
    assert x[0..] == x;
  }

  /** Such a text leaves the threshold at 0, whatever unit it ends with. */
  lemma NumberlessIsZero(actual: real, op: Op, x: string, foreign: Reading)
    requires Numberless(x) && x != "" && !IsSpace(x[0]) && !IsSpace(x[|x| - 1])
    ensures EvaluateCondition(actual, OpText(op) + " " + x, foreign) <==> Compare(op, actual, Finite(0.0))
  {
    NumberlessScan(x, foreign);
    NumberlessPrefix(x, "ms", foreign);
    NumberlessPrefix(x, "s", foreign);
    NumberlessPrefix(x, "%", foreign);
    AfterSpace(actual, op, x, foreign);
  }

  lemma NumberlessPrefix(x: string, suffix: string, foreign: Reading)
    requires Numberless(x)
    ensures HasSuffix(x, suffix) ==> Scan(TrimSuffix(x, suffix), foreign) == Finite(0.0)
  {
    if HasSuffix(x, suffix) {
      NumberlessScan(TrimSuffix(x, suffix), foreign);
    }
  }

  /** Every condition text is monotone in the actual value, in the direction of its operator. */
  lemma VerdictMonotone(low: real, high: real, condition: string, foreign: Reading)
    requires low <= high
    ensures HasPrefix(TrimSpace(condition), "<") && EvaluateCondition(high, condition, foreign)
      ==> EvaluateCondition(low, condition, foreign)
    ensures HasPrefix(TrimSpace(condition), ">") && EvaluateCondition(low, condition, foreign)
      ==> EvaluateCondition(high, condition, foreign)
    ensures !HasPrefix(TrimSpace(condition), "<") && !HasPrefix(TrimSpace(condition), ">")
      ==> !EvaluateCondition(low, condition, foreign)
  {
    var t := TrimSpace(condition);
    assert HasPrefix(t, "<=") ==> t[0] == '<' && HasPrefix(t, "<");
    assert HasPrefix(t, ">=") ==> t[0] == '>' && HasPrefix(t, ">");
    assert HasPrefix(t, "<") ==> t[0] == '<';
    assert HasPrefix(t, ">") ==> t[0] == '>';
  }
}
