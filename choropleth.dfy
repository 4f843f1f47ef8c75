/** The choropleth colour-ramp engine of django_mapengine/choropleth.py.

    A catalogue of named choropleth configurations is turned into renderer
    expressions "interpolate-hcl" over a feature state: either from the
    breakpoints fixed in a configuration (static mode) or from breakpoints
    spread evenly between "nice" limits of a sample of values (dynamic mode).
    The colorbrewer palette table is a parameter of every operation. */
module Choropleth {
  import opened Common

  /** The largest number of breakpoints a colorbrewer palette supports. */
  const MaxColorbrewerSteps: int := 9

  type Rgb = (int, int, int)

  /** colorbrewer.sequential["multihue"]: palette name, then number of colours, then the colours. */
  type Palettes = map<string, map<int, seq<Rgb>>>

  /** One entry of the choropleth style file; None stands for an absent key.
      In numColors, Some(0) stands for every falsy value (0 and null). */
  datatype Config = Config(colorPalette: Option<string>, numColors: Option<int>, values: Option<seq<real>>)

  const DefaultConfig: Config := Config(Some("YlGnBu"), Some(6), None)

  /** The loaded style file: its configurations and the order of its keys. */
  datatype Catalogue = Catalogue(configs: map<string, Config>, order: seq<string>)

  function GetConfig(c: Catalogue, name: string): Config {
    if name in c.configs then c.configs[name] else DefaultConfig
  }

  // ---------------------------------------------------------------------
  // Exact arithmetic: powers of ten, digit counts, floor and ceiling

  function Pow10(d: nat): (p: nat)
    ensures p >= 1
  {
    if d == 0 then 1 else 10 * Pow10(d - 1)
  }

  /** int(math.log10(n)) computed exactly: the d with 10^d <= n < 10^(d+1). */
  function Digits(n: real): (d: nat)
    requires n >= 1.0
    ensures Pow10(d) as real <= n < Pow10(d + 1) as real
    decreases n.Floor
  {
    if n < 10.0 then 0
    else
      assert (n / 10.0).Floor < n.Floor;
      1 + Digits(n / 10.0)
  }

  /** Python's int() on a float: truncation toward zero. */
  function Trunc(x: real): (r: int)
    ensures x >= 0.0 ==> r as real <= x < r as real + 1.0
    ensures x < 0.0 ==> r as real - 1.0 < x <= r as real
  {
    if x >= 0.0 then x.Floor else -((-x).Floor)
  }

  /** Python's math.ceil. */
  function Ceil(x: real): (r: int)
    ensures r as real - 1.0 < x <= r as real
  {
    -((-x).Floor)
  }

  lemma CastMul(a: int, b: int)
    ensures (a * b) as real == a as real * b as real
  {
  }

  lemma MulMono(a: real, b: real, c: real)
    requires a <= b && c >= 0.0
    ensures a * c <= b * c
  {
  }

  lemma MulStrict(a: real, b: real, c: real)
    requires a < b && c > 0.0
    ensures a * c < b * c
  {
  }

  lemma MulMonoInt(a: int, b: int, c: int)
    requires a <= b && c >= 0
    ensures a * c <= b * c
  {
  }

  /** k * p is a multiple of p: Euclidean division recovers k. */
  lemma MultipleOf(k: int, p: int)
    requires p >= 1
    ensures (k * p) / p == k && (k * p) % p == 0
  {
    var a := k * p;
    var q := a / p;
    assert a == q * p + a % p;
    assert (k - q) * p == a % p;
    if k - q >= 1 { MulMonoInt(1, k - q, p); }
    if k - q <= -1 { MulMonoInt(k - q, -1, p); }
  }

  /** A leading digit k times p lies between p and bound times p. */
  lemma DigitMultiple(k: int, p: int, bound: int)
    requires p >= 1 && 1 <= k <= bound
    ensures (k * p) % p == 0 && p <= k * p <= bound * p
  {
    MultipleOf(k, p);
    MulMonoInt(1, k, p);
    MulMonoInt(k, bound, p);
  }

  /** For p <= n < 10 p, the quotient n / p lies in [1, 10). */
  lemma QuotientRange(n: real, p: real)
    requires p > 0.0 && p <= n < 10.0 * p
    ensures (n / p) * p == n
    ensures 1.0 <= n / p < 10.0
  {
    var q := n / p;
    if q < 1.0 { MulStrict(q, 1.0, p); }
    if q >= 10.0 { MulMono(10.0, q, p); }
  }

  lemma ShiftMul(a: real, c: real)
    ensures (a + 1.0) * c == a * c + c
  {
  }

  /** Scaling k <= q < k + 1 by a positive p. */
  lemma ScaledBetween(k: int, q: real, p: nat)
    requires p >= 1 && k as real <= q < (k + 1) as real
    ensures (k * p) as real <= q * p as real < (k * p + p) as real
  {
    var pr := p as real;
    CastMul(k, p);
    MulMono(k as real, q, pr);
    MulStrict(q, k as real + 1.0, pr);
    ShiftMul(k as real, pr);
  }

  lemma LeadingDigitDown(n: real, p: nat)
    requires p >= 1 && p as real <= n < 10.0 * p as real
    ensures 1 <= Trunc(n / p as real) <= 9
    ensures (Trunc(n / p as real) * p) as real <= n < (Trunc(n / p as real) * p + p) as real
  {
    var q := n / p as real;
    QuotientRange(n, p as real);
    ScaledBetween(Trunc(q), q, p);
  }

  /** Scaling k - 1 < q <= k by a positive p. */
  lemma ScaledBelow(k: int, q: real, p: nat)
    requires p >= 1 && (k - 1) as real < q <= k as real
    ensures q * p as real <= (k * p) as real < q * p as real + p as real
  {
    var pr := p as real;
    CastMul(k, p);
    MulMono(q, k as real, pr);
    MulStrict(k as real - 1.0, q, pr);
    ShiftMul(k as real - 1.0, pr);
  }

  lemma LeadingDigitUp(n: real, p: nat)
    requires p >= 1 && p as real <= n < 10.0 * p as real
    ensures 1 <= Ceil(n / p as real) <= 10
    ensures n <= (Ceil(n / p as real) * p) as real < n + p as real
  {
    var q := n / p as real;
    QuotientRange(n, p as real);
    ScaledBelow(Ceil(q), q, p);
  }

  /** __calculate_lower_limit: round down to the leading digit.
      In 0 < n < 1 the expression int((n * 10) / 10) truncates to 0. */
  function LowerLimit(n: real): (r: int)
    ensures n == 0.0 ==> r == 0
    ensures 0.0 < n < 1.0 ==> r == 0
    ensures n < 0.0 ==> n <= r as real < n + 1.0
    ensures n >= 0.0 ==> r as real <= n
    ensures n >= 1.0 ==>
      var p := Pow10(Digits(n));
      && r % p == 0 && p <= r <= 9 * p
      && r as real <= n < (r + p) as real
  {
    if n == 0.0 then Trunc(n)
    else if n < 1.0 then Trunc((n * 10.0) / 10.0)
    else
      var p := Pow10(Digits(n));
      LeadingDigitDown(n, p);
      var k := Trunc(n / p as real);
      DigitMultiple(k, p, 9);
      k * p
  }

  /** __calculate_upper_limit: round up to the next leading digit.
      In n <= 1 the expression math.ceil((n * 10) / 10) is math.ceil(n). */
  function UpperLimit(n: real): (r: int)
    ensures n <= 1.0 ==> r as real - 1.0 < n <= r as real
    ensures 0.0 < n <= 1.0 ==> r == 1
    ensures n > 1.0 ==>
      var p := Pow10(Digits(n));
      && r % p == 0 && p <= r <= 10 * p
      && n <= r as real < n + p as real
  {
    if n <= 1.0 then Ceil((n * 10.0) / 10.0)
    else
      var p := Pow10(Digits(n));
      LeadingDigitUp(n, p);
      var k := Ceil(n / p as real);
      DigitMultiple(k, p, 10);
      k * p
  }

  // ---------------------------------------------------------------------
  // Breakpoints

  function Min(s: seq<real>): (m: real)
    requires |s| > 0
    ensures m in s && forall x :: x in s ==> m <= x
  {
    if |s| == 1 then s[0]
    else
      var rest := Min(s[1..]);
      assert forall x :: x in s ==> x == s[0] || x in s[1..];
      if s[0] <= rest then s[0] else rest
  }

  function Max(s: seq<real>): (m: real)
    requires |s| > 0
    ensures m in s && forall x :: x in s ==> x <= m
  {
    if |s| == 1 then s[0]
    else
      var rest := Max(s[1..]);
      assert forall x :: x in s ==> x == s[0] || x in s[1..];
      if s[0] >= rest then s[0] else rest
  }

  /** __calculate_step_size. */
  function StepSize(lo: real, hi: real, num: int): (r: real)
    requires num != 0
    ensures r * num as real == hi - lo
  {
    (hi - lo) / num as real
  }

  /** [min_value + i * step_size for i in range(num)] + [max_value]. */
  function DynamicSteps(lo: int, hi: int, num: int): seq<real>
    requires num != 0
  {
    seq(if num > 0 then num else 0, i => lo as real + i as real * StepSize(lo as real, hi as real, num))
    + [hi as real]
  }

  /** The number of colours of a dynamic choropleth: num_colors when truthy, else 6. */
  function NumColors(c: Config): int
    requires c.numColors.Some?
  {
    if c.numColors.value != 0 then c.numColors.value else 6
  }

  /** __calculate_steps. Dynamic mode exactly when values is non-empty. */
  function CalculateSteps(config: Config, values: seq<real>): (r: Result<seq<real>>)
    ensures |values| == 0 && config.values.Some? ==> r == Success(config.values.value)
    ensures |values| == 0 && config.values.None? ==> r == Failure(ChoroplethError)
    ensures |values| > 0 ==>
      (r == Failure(ChoroplethError) <==> Min(values) < 0.0 || Max(values) <= 0.0)
    ensures |values| > 0 ==>
      (r == Failure(KeyError) <==> Min(values) >= 0.0 && Max(values) > 0.0 && config.numColors.None?)
    ensures |values| > 0 ==>
      (r.Success? <==> Min(values) >= 0.0 && Max(values) > 0.0 && config.numColors.Some?)
    ensures |values| > 0 && r.Success? ==>
      config.numColors.Some? && r.value == DynamicSteps(LowerLimit(Min(values)), UpperLimit(Max(values)), NumColors(config))
  {
    if |values| > 0 then
      if Min(values) < 0.0 || Max(values) <= 0.0 then Failure(ChoroplethError)
      else
        var minValue := LowerLimit(Min(values));
        var maxValue := UpperLimit(Max(values));
        if config.numColors.None? then Failure(KeyError)
        else Success(DynamicSteps(minValue, maxValue, NumColors(config)))
    else if config.values.None? then Failure(ChoroplethError)
    else Success(config.values.value)
  }

  /** Shape of the evenly spaced steps: num + 1 entries, the last exactly hi. */
  lemma {:induction false} DynamicStepsShape(lo: int, hi: int, num: int)
    requires num > 0
    ensures var s := DynamicSteps(lo, hi, num);
      && |s| == num + 1
      && s[0] == lo as real
      && s[num] == hi as real
      && (forall i :: 0 <= i < num ==> s[i] == lo as real + i as real * (hi - lo) as real / num as real)
      && (lo <= hi ==> forall i, j :: 0 <= i <= j <= num ==> s[i] <= s[j])
  {
    var s := DynamicSteps(lo, hi, num);
    var st := StepSize(lo as real, hi as real, num);
    assert st * num as real == (hi - lo) as real;
    forall i | 0 <= i < num
      ensures s[i] == lo as real + i as real * (hi - lo) as real / num as real
    {
      assert s[i] == lo as real + i as real * st;
    }
    if lo <= hi {
      assert st >= 0.0;
      forall i, j | 0 <= i <= j <= num
        ensures s[i] <= s[j]
      {
        if j < num {
          assert (j - i) as real * st >= 0.0;
        } else if i < num {
          assert s[i] == lo as real + i as real * st;
          assert lo as real + i as real * st + (num - i) as real * st == hi as real;
          assert (num - i) as real * st >= 0.0;
        }
      }
    }
  }

  /** Dynamic breakpoints bracket the sample: num + 1 non-decreasing entries whose first
      is at most every value and whose last is at least every value. */
  lemma DynamicStepsBracketValues(config: Config, values: seq<real>)
    requires |values| > 0 && Min(values) >= 0.0 && Max(values) > 0.0
    requires config.numColors.Some? && NumColors(config) > 0
    ensures CalculateSteps(config, values).Success?
    ensures var s := CalculateSteps(config, values).value;
      && |s| == NumColors(config) + 1
      && (forall v :: v in values ==> s[0] <= v <= s[|s| - 1])
      && (forall i, j :: 0 <= i <= j < |s| ==> s[i] <= s[j])
  {
    var lo := LowerLimit(Min(values));
    var hi := UpperLimit(Max(values));
    assert lo as real <= Min(values) <= Max(values) <= hi as real;
    DynamicStepsShape(lo, hi, NumColors(config));
  }

  /** A negative num_colors makes range(num) empty: the only step is the upper limit. */
  lemma NegativeNumColorsSingleStep(config: Config, values: seq<real>)
    requires |values| > 0 && Min(values) >= 0.0 && Max(values) > 0.0
    requires config.numColors.Some? && NumColors(config) < 0
    ensures CalculateSteps(config, values).value == [UpperLimit(Max(values)) as real]
  {
  }

  // ---------------------------------------------------------------------
  // The renderer expression

  const HeaderTag: string := "interpolate-hcl"

  function Header(name: string): seq<Value> {
    [Str(HeaderTag), Arr([Str("linear")]), Arr([Str("feature-state"), Str(name)])]
  }

  /** f"rgb({color[0]}, {color[1]}, {color[2]})". */
  function RgbString(c: Rgb): string {
    "rgb(" + IntToString(c.0) + ", " + IntToString(c.1) + ", " + IntToString(c.2) + ")"
  }

  function MinLen(a: int, b: int): int {
    if a <= b then a else b
  }

  /** The colour strings of a palette entry, in order. */
  function RgbStrings(colors: seq<Rgb>): (r: seq<Value>)
    ensures |r| == |colors|
  {
    seq(|colors|, i requires 0 <= i < |colors| => Str(RgbString(colors[i])))
  }

  /** The alternating step, colour entries of the first k pairs. */
  function PairsUpTo(steps: seq<real>, colors: seq<Value>, k: nat): (p: seq<Value>)
    requires k <= |steps| && k <= |colors|
    ensures |p| == 2 * k
    ensures forall i :: 0 <= i < k ==> p[2 * i] == Num(steps[i]) && p[2 * i + 1] == colors[i]
  {
    if k == 0 then []
    else PairsUpTo(steps, colors, k - 1) + [Num(steps[k - 1]), colors[k - 1]]
  }

  /** The alternating step, colour entries of zip(steps, colors), which stops
      at the shorter sequence. */
  function Pairs(steps: seq<real>, colors: seq<Value>): (p: seq<Value>)
    ensures |p| == 2 * MinLen(|steps|, |colors|)
    ensures forall i :: 0 <= i < MinLen(|steps|, |colors|) ==>
      p[2 * i] == Num(steps[i]) && p[2 * i + 1] == colors[i]
  {
    PairsUpTo(steps, colors, MinLen(|steps|, |colors|))
  }

  /** The palette half of get_fill_color: the colours for the given steps,
      or the exception raised on the way. */
  function Colorize(config: Config, palettes: Palettes, name: string, steps: seq<real>): (r: Result<seq<Value>>)
    ensures config.colorPalette.None? ==> r == Failure(KeyError)
    ensures config.colorPalette.Some? && config.colorPalette.value !in palettes ==> r == Failure(ChoroplethError)
    ensures config.colorPalette.Some? && config.colorPalette.value in palettes ==>
      && (|steps| > MaxColorbrewerSteps ==> r == Failure(IndexError))
      && (|steps| <= MaxColorbrewerSteps && |steps| - 1 !in palettes[config.colorPalette.value] ==> r == Failure(KeyError))
      && (|steps| <= MaxColorbrewerSteps && |steps| - 1 in palettes[config.colorPalette.value] ==> r.Success?)
  {
    if config.colorPalette.None? then Failure(KeyError)
    else if config.colorPalette.value !in palettes then Failure(ChoroplethError)
    else if |steps| > MaxColorbrewerSteps then Failure(IndexError)
    else if |steps| - 1 !in palettes[config.colorPalette.value] then Failure(KeyError)
    else
      var colors := palettes[config.colorPalette.value][|steps| - 1];
      Success(Header(name) + Pairs(steps, RgbStrings(colors)))
  }

  /** get_fill_color as a value: the exception it raises or the expression it returns. */
  function FillColor(cat: Catalogue, palettes: Palettes, name: string, values: seq<real>): Result<seq<Value>> {
    var config := GetConfig(cat, name);
    var steps :- CalculateSteps(config, values);
    Colorize(config, palettes, name, steps)
  }

  /** get_fill_color raises the error of the step computation, then KeyError
      without a palette, ChoroplethError for an unknown palette, IndexError for
      more than nine steps and KeyError for a missing number of colours, and
      otherwise returns an expression. */
  lemma FillColorOutcome(cat: Catalogue, palettes: Palettes, name: string, values: seq<real>)
    ensures var config := GetConfig(cat, name);
      var steps := CalculateSteps(config, values);
      var r := FillColor(cat, palettes, name, values);
      var known := config.colorPalette.Some? && config.colorPalette.value in palettes;
      && (steps.Failure? ==> r == Failure(steps.error))
      && (steps.Success? && config.colorPalette.None? ==> r == Failure(KeyError))
      && (steps.Success? && config.colorPalette.Some? && !known ==> r == Failure(ChoroplethError))
      && (steps.Success? && known && |steps.value| > MaxColorbrewerSteps ==> r == Failure(IndexError))
      && (steps.Success? && known && |steps.value| <= MaxColorbrewerSteps ==>
            (r == Failure(KeyError) <==> |steps.value| - 1 !in palettes[config.colorPalette.value]))
      && (r.Success? <==> (steps.Success? && known && |steps.value| <= MaxColorbrewerSteps
                            && |steps.value| - 1 in palettes[config.colorPalette.value]))
  {
  }

  /** A fill colour expression is the header followed by one step and its
      colour string per pair of zip(steps, colors), for at most nine steps. */
  lemma ColorizeShape(config: Config, palettes: Palettes, name: string, steps: seq<real>)
    requires Colorize(config, palettes, name, steps).Success?
    ensures var r := Colorize(config, palettes, name, steps).value;
      var colors := RgbStrings(palettes[config.colorPalette.value][|steps| - 1]);
      var n := MinLen(|steps|, |colors|);
      && |steps| <= MaxColorbrewerSteps
      && |r| == 3 + 2 * n
      && r[..3] == Header(name)
      && (forall i :: 0 <= i < n ==> r[3 + 2 * i] == Num(steps[i]) && r[4 + 2 * i] == colors[i])
  {
    ExpressionShape(name, steps, RgbStrings(palettes[config.colorPalette.value][|steps| - 1]));
  }

  /** The header, then the zipped step and colour pairs. */
  lemma ExpressionShape(name: string, steps: seq<real>, colors: seq<Value>)
    ensures var r := Header(name) + Pairs(steps, colors);
      var n := MinLen(|steps|, |colors|);
      && |r| == 3 + 2 * n
      && r[..3] == Header(name)
      && (forall i :: 0 <= i < n ==> r[3 + 2 * i] == Num(steps[i]) && r[4 + 2 * i] == colors[i])
  {
    var tail := Pairs(steps, colors);
    var r := Header(name) + tail;
    var n := MinLen(|steps|, |colors|);
    forall i | 0 <= i < n
      ensures r[3 + 2 * i] == Num(steps[i]) && r[4 + 2 * i] == colors[i]
    {
      assert r[3 + 2 * i] == tail[2 * i] && r[4 + 2 * i] == tail[2 * i + 1];
    }
  }

  /** get_fill_color: the steps, then the palette checks, then the expression. */
  method GetFillColor(cat: Catalogue, palettes: Palettes, name: string, values: seq<real>)
    returns (r: Result<seq<Value>>)
    ensures r == FillColor(cat, palettes, name, values)
  {
    var config := GetConfig(cat, name);
    var calculated := CalculateSteps(config, values);
    if calculated.Failure? {
      return Failure(calculated.error);
    }
    r := ColorizeSteps(config, palettes, name, calculated.value);
  }

  /** The palette checks of get_fill_color and the expression for the given steps. */
  method ColorizeSteps(config: Config, palettes: Palettes, name: string, steps: seq<real>)
    returns (r: Result<seq<Value>>)
    ensures r == Colorize(config, palettes, name, steps)
  {
    if config.colorPalette.None? {
      return Failure(KeyError);
    }
    var palette := config.colorPalette.value;
    if palette !in palettes {
      return Failure(ChoroplethError);
    }
    if |steps| > MaxColorbrewerSteps {
      return Failure(IndexError);
    }
    if |steps| - 1 !in palettes[palette] {
      return Failure(KeyError);
    }
    var colors := palettes[palette][|steps| - 1];
    var fillColor := BuildExpression(name, steps, RgbStrings(colors));
    return Success(fillColor);
  }

  /** The loop of get_fill_color: append one step and one colour string per
      pair of zip(steps, colors); the colour strings come rendered. */
  method BuildExpression(name: string, steps: seq<real>, colors: seq<Value>) returns (fillColor: seq<Value>)
    ensures fillColor == Header(name) + Pairs(steps, colors)
  {
    fillColor := Header(name);
    var n := MinLen(|steps|, |colors|);
    for i := 0 to n
      invariant fillColor == Header(name) + PairsUpTo(steps, colors, i)
    {
      fillColor := fillColor + [Num(steps[i])];
      fillColor := fillColor + [colors[i]];
    }
  }

  // ---------------------------------------------------------------------
  // Static styles

  /** get_static_styles over the first names: entries raising ChoroplethError are skipped,
      any other exception ends the batch. */
  function StaticStyles(cat: Catalogue, palettes: Palettes, names: seq<string>): Result<map<string, seq<Value>>>
    decreases |names|
  {
    if names == [] then Success(map[])
    else
      var previous := StaticStyles(cat, palettes, names[..|names| - 1]);
      if previous.Failure? then previous
      else
        var name := names[|names| - 1];
        var fill := FillColor(cat, palettes, name, []);
        if fill.Success? then Success(previous.value[name := fill.value])
        else if fill.error == ChoroplethError then previous
        else Failure(fill.error)
  }

  /** get_static_styles: static fill colours of every catalogue entry whose static fill colour exists. */
  method GetStaticStyles(cat: Catalogue, palettes: Palettes) returns (r: Result<map<string, seq<Value>>>)
    ensures r == StaticStyles(cat, palettes, cat.order)
  {
    var staticChoropleths := map[];
    for i := 0 to |cat.order|
      invariant StaticStyles(cat, palettes, cat.order[..i]) == Success(staticChoropleths)
    {
      assert cat.order[..i + 1][..i] == cat.order[..i];
      var name := cat.order[i];
      var fill := GetFillColor(cat, palettes, name, []);
      if fill.Success? {
        staticChoropleths := staticChoropleths[name := fill.value];
      } else if fill.error != ChoroplethError {
        assert StaticStyles(cat, palettes, cat.order[..i + 1]) == Failure(fill.error);
        StaticStylesFailureStays(cat, palettes, cat.order, i + 1);
        return Failure(fill.error);
      }
    }
    assert cat.order[..|cat.order|] == cat.order;
    return Success(staticChoropleths);
  }

  /** Once the batch over a prefix has failed, the batch over the whole sequence fails the same way. */
  lemma {:induction false} StaticStylesFailureStays(cat: Catalogue, palettes: Palettes, names: seq<string>, k: nat)
    requires k <= |names| && StaticStyles(cat, palettes, names[..k]).Failure?
    ensures StaticStyles(cat, palettes, names) == StaticStyles(cat, palettes, names[..k])
    decreases |names| - k
  {
    if k < |names| {
      assert names[..k + 1][..k] == names[..k];
      StaticStylesFailureStays(cat, palettes, names, k + 1);
    } else {
      assert names[..k] == names;
    }
  }

  /** The error, if any, that the static fill colour of a name raises and the batch does not swallow. */
  predicate Propagates(cat: Catalogue, palettes: Palettes, name: string) {
    var fill := FillColor(cat, palettes, name, []);
    fill.Failure? && fill.error != ChoroplethError
  }

  /** The batch succeeds exactly when no entry propagates an exception; it then maps exactly the names
      whose static fill colour succeeds to that fill colour. */
  lemma {:induction false} StaticStylesContents(cat: Catalogue, palettes: Palettes, names: seq<string>)
    ensures StaticStyles(cat, palettes, names).Success? <==>
      forall i :: 0 <= i < |names| ==> !Propagates(cat, palettes, names[i])
    ensures StaticStyles(cat, palettes, names).Success? ==>
      var m := StaticStyles(cat, palettes, names).value;
      && (forall n :: n in m <==> n in names && FillColor(cat, palettes, n, []).Success?)
      && (forall n :: n in m ==> m[n] == FillColor(cat, palettes, n, []).value)
    decreases |names|
  {
    if names != [] {
      var init := names[..|names| - 1];
      var last := names[|names| - 1];
      StaticStylesContents(cat, palettes, init);
      assert forall i :: 0 <= i < |init| ==> init[i] == names[i];
      assert forall n :: n in names <==> n in init || n == last;
      var previous := StaticStyles(cat, palettes, init);
      var fill := FillColor(cat, palettes, last, []);
      if previous.Success? {
        if fill.Success? {
          assert StaticStyles(cat, palettes, names) == Success(previous.value[last := fill.value]);
        } else if fill.error == ChoroplethError {
          assert StaticStyles(cat, palettes, names) == previous;
        }
      }
    }
  }

  /** When the batch fails, it fails with the exception of the first entry that propagates one. */
  lemma {:induction false} StaticStylesFirstError(cat: Catalogue, palettes: Palettes, names: seq<string>)
    requires StaticStyles(cat, palettes, names).Failure?
    ensures exists k :: (
      && 0 <= k < |names| && Propagates(cat, palettes, names[k])
      && FillColor(cat, palettes, names[k], []).error == StaticStyles(cat, palettes, names).error
      && forall j :: 0 <= j < k ==> !Propagates(cat, palettes, names[j]))
    decreases |names|
  {
    var init := names[..|names| - 1];
    assert forall i :: 0 <= i < |init| ==> init[i] == names[i];
    if StaticStyles(cat, palettes, init).Failure? {
      StaticStylesFirstError(cat, palettes, init);
      var k :| 0 <= k < |init| && Propagates(cat, palettes, init[k])
        && FillColor(cat, palettes, init[k], []).error == StaticStyles(cat, palettes, init).error
        && forall j :: 0 <= j < k ==> !Propagates(cat, palettes, init[j]);
      assert names[k] == init[k];
    } else {
      StaticStylesContents(cat, palettes, init);
      var k := |names| - 1;
      assert Propagates(cat, palettes, names[k]);
    }
  }

  /** A name missing from the catalogue gets the default configuration, which has no static values:
      its static fill colour raises ChoroplethError, so static styles only hold catalogue names. */
  lemma UnknownNameHasNoStaticStyle(cat: Catalogue, palettes: Palettes, name: string)
    requires name !in cat.configs
    ensures GetConfig(cat, name) == DefaultConfig
    ensures FillColor(cat, palettes, name, []) == Failure(ChoroplethError)
    ensures StaticStyles(cat, palettes, cat.order).Success? ==> name !in StaticStyles(cat, palettes, cat.order).value
  {
    StaticStylesContents(cat, palettes, cat.order);
  }

  /** With a dynamic sample, a name missing from the catalogue is coloured with six YlGnBu bands. */
  lemma UnknownNameDynamic(cat: Catalogue, palettes: Palettes, name: string, values: seq<real>)
    requires name !in cat.configs
    requires |values| > 0 && Min(values) >= 0.0 && Max(values) > 0.0
    ensures CalculateSteps(GetConfig(cat, name), values).Success?
    ensures |CalculateSteps(GetConfig(cat, name), values).value| == 7
    ensures "YlGnBu" !in palettes ==> FillColor(cat, palettes, name, values) == Failure(ChoroplethError)
  {
    DynamicStepsShape(LowerLimit(Min(values)), UpperLimit(Max(values)), 6);
  }

  // ---------------------------------------------------------------------
  // Worked examples

  lemma LimitExamples()
    ensures LowerLimit(347.0) == 300 && UpperLimit(347.0) == 400
    ensures LowerLimit(10.0) == 10 && UpperLimit(310.0) == 400
    ensures LowerLimit(0.73) == 0 && UpperLimit(0.73) == 1
    ensures LowerLimit(0.0) == 0
  {
    assert Digits(3.47) == 0;
    assert Digits(34.7) == 1;
    assert Digits(347.0) == 2;
    assert Digits(3.1) == 0;
    assert Digits(31.0) == 1;
    assert Digits(310.0) == 2;
    assert Digits(1.0) == 0;
    assert Digits(10.0) == 1;
  }

  /** The sample [10, 40, 50, 310] with six colours: limits 10 and 400, steps of 65. */
  lemma DynamicExample()
    ensures CalculateSteps(Config(Some("YlGnBu"), Some(6), None), [10.0, 40.0, 50.0, 310.0])
      == Success([10.0, 75.0, 140.0, 205.0, 270.0, 335.0, 400.0])
  {
    var values := [10.0, 40.0, 50.0, 310.0];
    assert Min(values) == 10.0;
    assert Max(values) == 310.0;
    LimitExamples();
    var s := DynamicSteps(10, 400, 6);
    assert StepSize(10.0, 400.0, 6) == 65.0;
    assert s == [10.0, 75.0, 140.0, 205.0, 270.0, 335.0, 400.0];
  }
}
