/** Values as the dashboard's JavaScript code sees them, with exact arithmetic
    standing in for IEEE doubles. */
module Js {

  /** An absent field (`undefined` or `null`) versus a present value; a present
      falsy number such as `0` is `Some(0.0)`. */
  datatype Option<+T> = None | Some(value: T)

  /** The result of a JavaScript division: a finite number, or the NaN/Infinity
      that dividing by zero produces (and that every later operation keeps). */
  datatype Num = Finite(value: real) | NonFinite

  /** `a / b` */
  function Div(a: real, b: real): (r: Num)
    ensures r.Finite? <==> b != 0.0
    ensures r.Finite? ==> r.value * b == a
  {
    if b == 0.0 then NonFinite else Finite(a / b)
  }

  /** `value / total * 100`, the share of `value` in `total` in percent. */
  function Percent(value: real, total: real): (r: Num)
    ensures r.Finite? <==> total != 0.0
    ensures r.Finite? ==> r.value * total == value * 100.0
  {
    match Div(value, total)
    case Finite(q) => Finite(q * 100.0)
    case NonFinite => NonFinite
  }

  /** JavaScript `+` on numbers: a non-finite operand makes a non-finite sum. */
  function Add(a: Num, b: Num): Num {
    if a.Finite? && b.Finite? then Finite(a.value + b.value) else NonFinite
  }

  /** `xs.reduce((memo, x) => memo + x, 0)`: a left fold from zero. */
  function Sum(xs: seq<real>): real
    decreases |xs|
  {
    if xs == [] then 0.0 else Sum(xs[..|xs| - 1]) + xs[|xs| - 1]
  }

  lemma SumSnoc(xs: seq<real>, x: real)
    ensures Sum(xs + [x]) == Sum(xs) + x
  {
    assert (xs + [x])[..|xs|] == xs;
  }

  lemma {:induction false} SumAppend(a: seq<real>, b: seq<real>)
    ensures Sum(a + b) == Sum(a) + Sum(b)
    decreases |b|
  {
    if b == [] {
      assert a + b == a;
    } else {
      var b' := b[..|b| - 1];
      assert (a + b)[..|a + b| - 1] == a + b';
      SumAppend(a, b');
    }
  }

  /** A sum of non-negative amounts is at least each of them. */
  lemma {:induction false} SumBoundsElement(xs: seq<real>, i: int)
    requires 0 <= i < |xs|
    requires forall j :: 0 <= j < |xs| ==> xs[j] >= 0.0
    ensures Sum(xs) >= xs[i] && Sum(xs) >= 0.0
    decreases |xs|
  {
    var xs' := xs[..|xs| - 1];
    if i < |xs| - 1 {
      SumBoundsElement(xs', i);
    } else if xs' != [] {
      SumBoundsElement(xs', 0);
    }
  }

  /** The own enumerable entries of a plain object, in insertion order
      (`Object.entries(o)`); the keys of a real object are distinct. */
  type Entries = seq<(string, real)>

  function Keys<V>(m: seq<(string, V)>): (ks: seq<string>)
    ensures |ks| == |m|
    ensures forall i :: 0 <= i < |m| ==> ks[i] == m[i].0
  {
    seq(|m|, i requires 0 <= i < |m| => m[i].0)
  }

  /** `Object.values(o)` */
  function Values(m: Entries): (vs: seq<real>)
    ensures |vs| == |m|
    ensures forall i :: 0 <= i < |m| ==> vs[i] == m[i].1
  {
    seq(|m|, i requires 0 <= i < |m| => m[i].1)
  }

  /** `Object.values(o).reduce((memo, v) => memo + v, 0)` */
  function Total(m: Entries): real {
    Sum(Values(m))
  }

  /** The total of an empty object is zero, and a total of non-negative
      amounts is non-negative and at least each of them. */
  lemma TotalBounds(m: Entries)
    ensures m == [] ==> Total(m) == 0.0
    ensures (forall i :: 0 <= i < |m| ==> m[i].1 >= 0.0) ==> Total(m) >= 0.0 && forall i :: 0 <= i < |m| ==> Total(m) >= m[i].1
  {
    if m != [] && forall i :: 0 <= i < |m| ==> m[i].1 >= 0.0 {
      forall i | 0 <= i < |m| ensures Total(m) >= m[i].1 {
        SumBoundsElement(Values(m), i);
      }
    }
  }

  lemma ValuesPrefix(m: Entries, n: nat)
    requires n <= |m|
    ensures Values(m[..n]) == Values(m)[..n]
  {
  }

  /** `o || {}`: a missing object counts as an empty one. */
  function OrEmpty(o: Option<Entries>): Entries {
    if o.Some? then o.value else []
  }

  /** `x || 0`: a missing number counts as zero. */
  function OrZero(x: Option<real>): real {
    if x.Some? then x.value else 0.0
  }

  /** The JavaScript sum of a sequence of numbers, used to state what the
      category values of a chart point add up to. */
  function NumSum<K>(c: seq<(K, Num)>): Num
    decreases |c|
  {
    if c == [] then Finite(0.0) else Add(NumSum(c[..|c| - 1]), c[|c| - 1].1)
  }
}
