/** JavaScript numbers as the budget pages use them: a real value or NaN.
    Arithmetic propagates NaN, `parseFloat` is a parameter of the model and
    `parseFloat(x.toFixed(2))` is `Round2`, rounding half away from zero to
    whole cents. Infinities and binary floating point are not modelled. */
module Numbers {
  import opened Wrappers

  datatype Num = NaN | Val(v: real)

  /** Both projections span twelve months. */
  const MonthCount: nat := 12

  function Add(a: Num, b: Num): Num {
    if a.Val? && b.Val? then Val(a.v + b.v) else NaN
  }

  function Sub(a: Num, b: Num): Num {
    if a.Val? && b.Val? then Val(a.v - b.v) else NaN
  }

  function Mul(a: Num, b: Num): Num {
    if a.Val? && b.Val? then Val(a.v * b.v) else NaN
  }

  /** JavaScript's `a <= b`: false whenever either side is NaN. */
  predicate AtMost(a: Num, b: Num) {
    a.Val? && b.Val? && a.v <= b.v
  }

  /** Division by a non-zero constant, the only division the pages perform. */
  function Div(a: Num, d: real): Num
    requires d != 0.0
  {
    if a.Val? then Val(a.v / d) else NaN
  }

  /** `parseFloat`: text to a number, NaN when no number can be read. */
  type Parser = string -> Num

  /** The two facts about `parseFloat` the pages rely on. */
  ghost predicate ParseFloatBasics(parse: Parser) {
    parse("") == NaN && parse("0") == Val(0.0)
  }

  /** JavaScript's `s || fallback` on strings: only the empty string is falsy. */
  function OrElse(s: string, fallback: string): (r: string)
    ensures s != "" ==> r == s
    ensures s == "" ==> r == fallback
    ensures fallback != "" ==> r != ""
  {
    if s == "" then fallback else s
  }

  /** `localStorage.getItem(key) || "0"`: a missing or empty entry reads as "0". */
  function StoredOrZero(stored: Option<string>): (s: string)
    ensures s != ""
    ensures stored.None? || stored.value == "" ==> s == "0"
    ensures stored.Some? && stored.value != "" ==> s == stored.value
  {
    OrElse(stored.GetOr(""), "0")
  }

  // ---------------------------------------------------------------------
  // Rounding to cents

  /** `x.toFixed(2)` for x >= 0 picks the integer n closest to 100 * x,
      the larger one on a tie. */
  function Cents(x: real): (n: int)
    requires x >= 0.0
    ensures n >= 0
    ensures n as real <= x * 100.0 + 0.5 < n as real + 1.0
  {
    (x * 100.0 + 0.5).Floor
  }

  /** A whole number of cents, as a real. */
  function FromCents(n: int): (r: real)
    ensures r * 100.0 == n as real
    ensures (r * 100.0).Floor == n
  {
    n as real / 100.0
  }

  /** `parseFloat(x.toFixed(2))`: `toFixed` handles the sign separately, so
      negative values round half away from zero as well. */
  function Round2(x: real): (r: real)
    ensures -0.005 <= r - x <= 0.005
    ensures x >= 0.0 ==> r >= 0.0
    ensures x <= 0.0 ==> r <= 0.0
  {
    if x >= 0.0 then FromCents(Cents(x))
    else FromCents(-Cents(-x))
  }

  /** `Round2` lifted to numbers: `NaN.toFixed(2)` is "NaN", which parses back to NaN. */
  function RoundNum(n: Num): (r: Num)
    ensures r.NaN? <==> n.NaN?
  {
    if n.Val? then Val(Round2(n.v)) else NaN
  }

  /** `Round2` always lands on a whole number of cents. */
  lemma Round2IsWholeCents(x: real)
    ensures Round2(x) == FromCents((Round2(x) * 100.0).Floor)
  {
  }

  /** A whole number of cents is left as it is. */
  lemma Round2OfCents(n: int)
    ensures Round2(FromCents(n)) == FromCents(n)
  {
    var x := FromCents(n);
    if n >= 0 {
      assert Cents(x) == n;
    } else {
      assert -x == FromCents(-n);
      assert Cents(-x) == -n;
    }
  }

  /** A whole amount is left as it is. */
  lemma Round2OfWhole(k: int)
    ensures Round2(k as real) == k as real
  {
    assert FromCents(k * 100) == k as real;
    Round2OfCents(k * 100);
  }

  lemma Round2Idempotent(x: real)
    ensures Round2(Round2(x)) == Round2(x)
  {
    Round2IsWholeCents(x);
    Round2OfCents((Round2(x) * 100.0).Floor);
  }

  lemma Round2Monotone(x: real, y: real)
    requires x <= y
    ensures Round2(x) <= Round2(y)
  {
    if 0.0 <= x {
      assert Cents(x) <= Cents(y);
    } else if y < 0.0 {
      assert Cents(-y) <= Cents(-x);
    }
  }

  lemma Round2Odd(x: real)
    ensures Round2(-x) == -Round2(x)
  {
  }

  // ---------------------------------------------------------------------
  // Sums

  /** `ns.reduce((acc, n) => acc + n, 0)`: a left-to-right sum that is NaN
      exactly when some term is. */
  function Sum(ns: seq<Num>): (r: Num)
    ensures r.NaN? <==> exists i :: 0 <= i < |ns| && ns[i].NaN?
  {
    if ns == [] then Val(0.0) else Add(Sum(ns[..|ns| - 1]), ns[|ns| - 1])
  }

  /** The same left-to-right sum over plain reals. */
  function RealSum(xs: seq<real>): real {
    if xs == [] then 0.0 else RealSum(xs[..|xs| - 1]) + xs[|xs| - 1]
  }

  /** Summing a concatenation sums the parts. */
  lemma {:induction false} SumAppend(a: seq<Num>, b: seq<Num>)
    ensures Sum(a + b) == Add(Sum(a), Sum(b))
  {
    if b == [] {
      assert a + b == a;
    } else {
      var b' := b[..|b| - 1];
      assert (a + b)[..|a + b| - 1] == a + b';
      SumAppend(a, b');
    }
  }

  /** A sum of numbers that are all numeric is the sum of their values. */
  lemma {:induction false} SumOfValues(ns: seq<Num>, xs: seq<real>)
    requires |ns| == |xs|
    requires forall i :: 0 <= i < |ns| ==> ns[i] == Val(xs[i])
    ensures Sum(ns) == Val(RealSum(xs))
  {
    if ns != [] {
      SumOfValues(ns[..|ns| - 1], xs[..|xs| - 1]);
    }
  }
}
