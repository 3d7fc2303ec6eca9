/** The arithmetic the displays apply to counts and sums. */
module Numbers {
  import opened StoreRecord

  /** `(part / whole) * 100` as a JavaScript number. The code never checks the denominator:
      with `whole == 0` the result is NaN (or an infinity), shown as "NaN%"; the model gives
      None for it, and Some(p) for a finite percentage. */
  function Percent(part: real, whole: real): (r: Option<real>)
    ensures r.None? <==> whole == 0.0
    ensures r.Some? ==> r.value * whole == part * 100.0
  {
    if whole == 0.0 then None else Some(part / whole * 100.0)
  }

  /** A share of a non-negative whole lies between 0% and 100%. */
  lemma PercentBounds(part: real, whole: real)
    requires 0.0 <= part <= whole && whole > 0.0
    ensures Percent(part, whole).Some?
    ensures 0.0 <= Percent(part, whole).value <= 100.0
  {
    var p := Percent(part, whole).value;
    assert p * whole == part * 100.0;
  }

  function Sum(xs: seq<real>): real
    decreases |xs|
  {
    if |xs| == 0 then 0.0 else xs[0] + Sum(xs[1..])
  }

  /** Each part's share of `whole`, in percent. */
  function Shares(parts: seq<real>, whole: real): (r: seq<real>)
    requires whole != 0.0
    ensures |r| == |parts|
    ensures forall i :: 0 <= i < |parts| ==> Percent(parts[i], whole) == Some(r[i])
  {
    seq(|parts|, i requires 0 <= i < |parts| => parts[i] / whole * 100.0)
  }

  /** Shares of parts that add up to the whole add up to 100%. */
  lemma {:induction false} SharesAddUp(parts: seq<real>, whole: real)
    requires whole != 0.0
    ensures Sum(Shares(parts, whole)) == Sum(parts) / whole * 100.0
    decreases |parts|
  {
    if |parts| > 0 {
      SharesAddUp(parts[1..], whole);
      assert Shares(parts, whole)[1..] == Shares(parts[1..], whole);
      calc {
        Sum(Shares(parts, whole));
        parts[0] / whole * 100.0 + Sum(parts[1..]) / whole * 100.0;
        { DivisionDistributes(parts[0], Sum(parts[1..]), whole); }
        (parts[0] + Sum(parts[1..])) / whole * 100.0;
      }
    }
  }

  /** Shares of parts that make up the whole add up to exactly 100%. */
  lemma SharesOfWholeAddUp(parts: seq<real>, whole: real)
    requires whole != 0.0 && Sum(parts) == whole
    ensures Sum(Shares(parts, whole)) == 100.0
  {
    SharesAddUp(parts, whole);
    assert whole / whole == 1.0;
  }

  lemma DivisionDistributes(a: real, b: real, w: real)
    requires w != 0.0
    ensures a / w * 100.0 + b / w * 100.0 == (a + b) / w * 100.0
  {
  }

  /** The whole number of cents `x.toFixed(2)` shows: `x * 100` rounded to the nearest
      integer, halves away from zero (toFixed rounds the magnitude and then adds the sign). */
  function Cents(x: real): (k: int)
    ensures x * 100.0 - 0.5 <= k as real <= x * 100.0 + 0.5
    ensures x >= 0.0 ==> k >= 0
  {
    if x >= 0.0 then (x * 100.0 + 0.5).Floor else -((-x) * 100.0 + 0.5).Floor
  }

  /** The value of `x.toFixed(2)` read back as a number: a whole number of cents within half
      a cent of `x`. */
  function Round2(x: real): (r: real)
    ensures r * 100.0 == Cents(x) as real
    ensures x - 0.005 <= r <= x + 0.005
  {
    Cents(x) as real / 100.0
  }

  /** Rounding never reverses an order. */
  lemma Round2Monotonic(x: real, y: real)
    requires x <= y
    ensures Round2(x) <= Round2(y)
  {
    if x >= 0.0 {
      assert (x * 100.0 + 0.5).Floor <= (y * 100.0 + 0.5).Floor;
    } else if y < 0.0 {
      assert ((-y) * 100.0 + 0.5).Floor <= ((-x) * 100.0 + 0.5).Floor;
    }
  }
}
