/** The numpy elementwise operations `grab` applies to its frame buffer:
    rounding to the nearest integer (`np.rint`), clipping (`np.clip`), the
    cast to an unsigned integer type (`astype`), and the in-place updates
    `img *= m`, `img += m` and `img += c` over a height x width buffer. */
module ArrayOps {

  /** np.rint: the nearest integer, and on a tie (a fraction of exactly one
      half) the even one of the two neighbours. */
  function Rint(x: real): (n: int)
    ensures x - 0.5 <= n as real <= x + 0.5
    ensures (n as real - x == 0.5 || x - n as real == 0.5) ==> n % 2 == 0
  {
    var f := x.Floor;
    var d := x - f as real;
    if d < 0.5 then f
    else if d > 0.5 then f + 1
    else if f % 2 == 0 then f
    else f + 1
  }

  /** The two properties of Rint determine it: any integer within one half
      of x, and even when exactly one half away, is Rint(x). */
  lemma RintUnique(x: real, m: int)
    requires x - 0.5 <= m as real <= x + 0.5
    requires (m as real - x == 0.5 || x - m as real == 0.5) ==> m % 2 == 0
    ensures Rint(x) == m
  {
  }

  /** np.clip(x, lo, hi), i.e. minimum(maximum(x, lo), hi): x itself when it
      lies in [lo, hi], otherwise the bound it passed. */
  function Clip(x: real, lo: real, hi: real): (r: real)
    ensures lo <= hi ==> lo <= r <= hi
    ensures lo <= x <= hi ==> r == x
    ensures r == x || r == lo || r == hi
    ensures x < lo && lo <= hi ==> r == lo
    ensures x > hi ==> r == hi
  {
    var m := if x < lo then lo else x;
    if m > hi then hi else m
  }

  /** The cast of a float to an integer type: truncation toward zero. */
  function Trunc(x: real): (n: int)
    ensures 0.0 <= x ==> 0 <= n && n as real <= x < n as real + 1.0
    ensures x <= 0.0 ==> n <= 0 && n as real - 1.0 < x <= n as real
  {
    if x >= 0.0 then x.Floor else -((-x).Floor)
  }

  /** The cast leaves a float that holds an integer value unchanged. */
  lemma TruncOfInteger(k: int)
    ensures Trunc(k as real) == k
  {
  }

  /** The last three steps of a pixel: np.rint, np.clip to [0, top] and the
      cast. The result is the rounded value when that lies in [0, top], and
      otherwise the bound it passed. */
  function Quantize(y: real, top: nat): (n: int)
    ensures 0 <= n <= top
    ensures var x := Rint(y);
      (0 <= x <= top ==> n == x) && (x < 0 ==> n == 0) && (x > top ==> n == top)
  {
    var x := Rint(y);
    var c := Clip(x as real, 0.0, top as real);
    TruncOfInteger(x);
    TruncOfInteger(0);
    TruncOfInteger(top);
    assert 0 <= x <= top ==> c == x as real;
    Trunc(c)
  }

  /** `a[...] = f(a)` elementwise, in place. */
  method MapInPlace(a: array2<real>, f: real -> real)
    modifies a
    ensures forall i, j :: 0 <= i < a.Length0 && 0 <= j < a.Length1 ==> a[i, j] == f(old(a[i, j]))
  {
    var i := 0;
    while i < a.Length0
      invariant 0 <= i <= a.Length0
      invariant forall r, c :: 0 <= r < i && 0 <= c < a.Length1 ==> a[r, c] == f(old(a[r, c]))
      invariant forall r, c :: i <= r < a.Length0 && 0 <= c < a.Length1 ==> a[r, c] == old(a[r, c])
    {
      var j := 0;
      while j < a.Length1
        invariant 0 <= j <= a.Length1
        invariant forall r, c :: 0 <= r < i && 0 <= c < a.Length1 ==> a[r, c] == f(old(a[r, c]))
        invariant forall c :: 0 <= c < j ==> a[i, c] == f(old(a[i, c]))
        invariant forall c :: j <= c < a.Length1 ==> a[i, c] == old(a[i, c])
        invariant forall r, c :: i < r < a.Length0 && 0 <= c < a.Length1 ==> a[r, c] == old(a[r, c])
      {
        a[i, j] := f(a[i, j]);
        j := j + 1;
      }
      i := i + 1;
    }
  }

  /** `a[...] = f(a, b)` elementwise, in place, for a second buffer b of the
      same shape. */
  method ZipInPlace(a: array2<real>, b: array2<real>, f: (real, real) -> real)
    requires a != b
    requires b.Length0 == a.Length0 && b.Length1 == a.Length1
    modifies a
    ensures forall i, j :: 0 <= i < a.Length0 && 0 <= j < a.Length1 ==> a[i, j] == f(old(a[i, j]), b[i, j])
  {
    var i := 0;
    while i < a.Length0
      invariant 0 <= i <= a.Length0
      invariant forall r, c :: 0 <= r < i && 0 <= c < a.Length1 ==> a[r, c] == f(old(a[r, c]), b[r, c])
      invariant forall r, c :: i <= r < a.Length0 && 0 <= c < a.Length1 ==> a[r, c] == old(a[r, c])
    {
      var j := 0;
      while j < a.Length1
        invariant 0 <= j <= a.Length1
        invariant forall r, c :: 0 <= r < i && 0 <= c < a.Length1 ==> a[r, c] == f(old(a[r, c]), b[r, c])
        invariant forall c :: 0 <= c < j ==> a[i, c] == f(old(a[i, c]), b[i, c])
        invariant forall c :: j <= c < a.Length1 ==> a[i, c] == old(a[i, c])
        invariant forall r, c :: i < r < a.Length0 && 0 <= c < a.Length1 ==> a[r, c] == old(a[r, c])
      {
        a[i, j] := f(a[i, j], b[i, j]);
        j := j + 1;
      }
      i := i + 1;
    }
  }

  /** The digitisation steps of grab on a whole buffer: np.rint and np.clip
      to [0, top] in place, then the cast to a new integer buffer. Every
      entry of the result is the quantised entry of the input, and the
      buffer is left holding the same values as reals. */
  method Digitize(a: array2<real>, top: nat) returns (img: array2<int>)
    modifies a
    ensures fresh(img) && img.Length0 == a.Length0 && img.Length1 == a.Length1
    ensures forall i, j :: 0 <= i < a.Length0 && 0 <= j < a.Length1 ==>
              img[i, j] == Quantize(old(a[i, j]), top) && a[i, j] == img[i, j] as real
  {
    var hi := top as real;
    MapInPlace(a, x => Rint(x) as real);
    label Rounded:
    MapInPlace(a, x => Clip(x, 0.0, hi));
    img := Truncate(a);
    forall i, j | 0 <= i < a.Length0 && 0 <= j < a.Length1
      ensures img[i, j] == Quantize(old(a[i, j]), top) && a[i, j] == img[i, j] as real
    {
      var x := Rint(old(a[i, j]));
      assert old@Rounded(a[i, j]) == x as real;
      assert a[i, j] == Clip(x as real, 0.0, hi);
      TruncOfInteger(x);
      TruncOfInteger(0);
      TruncOfInteger(top);
    }
  }

  /** `a.astype(int type)`: a new buffer holding every entry truncated. */
  method Truncate(a: array2<real>) returns (b: array2<int>)
    ensures fresh(b)
    ensures b.Length0 == a.Length0 && b.Length1 == a.Length1
    ensures forall i, j :: 0 <= i < a.Length0 && 0 <= j < a.Length1 ==> b[i, j] == Trunc(a[i, j])
  {
    b := new int[a.Length0, a.Length1]((i, j) reads a => if 0 <= i < a.Length0 && 0 <= j < a.Length1 then Trunc(a[i, j]) else 0);
  }
}
