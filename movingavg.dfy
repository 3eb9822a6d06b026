/**
 * math.go: `MovingAvg`, a fixed-capacity window of CPU samples with a
 * circular write cursor, and the mean of its contents.
 *
 * The Go slice `window` is modelled by its backing array `buf` (allocated
 * with capacity `size`) and its length `len`; float64 samples are reals.
 */
module MovingAverage {

  /** A float64 result: NaN (0/0 on an empty window) or an ordinary number. */
  datatype Float = NaN | Real(v: real)

  /** The sum of the samples, accumulated left to right as `Value`'s loop does. */
  function Sum(s: seq<real>): real {
    if s == [] then 0.0 else Sum(s[..|s| - 1]) + s[|s| - 1]
  }

  /** The arithmetic mean; NaN for no samples. */
  function Mean(s: seq<real>): (m: Float)
    ensures m.NaN? <==> s == []
    ensures m.Real? ==> m.v * |s| as real == Sum(s)
  {
    if s == [] then NaN else Real(Sum(s) / |s| as real)
  }

  /** The last `n` elements of `h` (all of `h` when it is shorter), oldest first. */
  function LastN(h: seq<real>, n: nat): (w: seq<real>)
    ensures |w| == if |h| <= n then |h| else n
    ensures w == h[|h| - |w|..]
  {
    if |h| <= n then h else h[|h| - n..]
  }

  // ---------------------------------------------------------------------------
  // Properties of the specification

  lemma {:induction false} SumConcat(a: seq<real>, b: seq<real>)
    ensures Sum(a + b) == Sum(a) + Sum(b)
    decreases |b|
  {
    if b != [] {
      assert (a + b)[..|a + b| - 1] == a + b[..|b| - 1];
      SumConcat(a, b[..|b| - 1]);
    } else {
      assert a + b == a;
    }
  }

  /** The sum of a window does not depend on the order of its samples. */
  lemma {:induction false} SumPermutation(a: seq<real>, b: seq<real>)
    requires multiset(a) == multiset(b)
    ensures Sum(a) == Sum(b)
    decreases |a|
  {
    if a == [] {
      assert |b| == |multiset(b)| == 0;
    } else {
      var x := a[|a| - 1];
      var a' := a[..|a| - 1];
      assert a == a' + [x];
      assert x in multiset(b);
      var k :| 0 <= k < |b| && b[k] == x;
      var b' := b[..k] + b[k + 1..];
      assert b == b[..k] + [x] + b[k + 1..];
      assert multiset(b') == multiset(b) - multiset{x};
      assert multiset(a') == multiset(a) - multiset{x};
      SumPermutation(a', b');
      SumConcat(b[..k] + [x], b[k + 1..]);
      SumConcat(b[..k], [x]);
      SumConcat(b[..k], b[k + 1..]);
      assert Sum([x]) == x by {
        assert [x][..0] == [];
      }
    }
  }

  /** So neither does the mean: in particular it is blind to the ring's rotation. */
  lemma MeanPermutation(a: seq<real>, b: seq<real>)
    requires multiset(a) == multiset(b)
    ensures Mean(a) == Mean(b)
  {
    assert |a| == |multiset(a)| == |b|;
    SumPermutation(a, b);
  }

  lemma MeanRotation(a: seq<real>, b: seq<real>)
    ensures Mean(a + b) == Mean(b + a)
  {
    SumConcat(a, b);
    SumConcat(b, a);
  }

  /** Appending to the history slides the last-n window by one once it is full. */
  lemma LastNAppend(h: seq<real>, x: real, n: nat)
    requires n > 0
    ensures LastN(h + [x], n) == if |h| < n then LastN(h, n) + [x] else LastN(h, n)[1..] + [x]
  {
    if |h| >= n {
      assert (h + [x])[|h| + 1 - n..] == h[|h| - n..][1..] + [x];
    }
  }

  /** The cursor after `idx` in a ring of `size` slots: `(idx + 1) % size`. */
  function Next(idx: nat, size: nat): (n: nat)
    requires idx < size
    ensures n == (idx + 1) % size
  {
    if idx + 1 < size then idx + 1 else 0
  }

  /** The samples of a ring of slots `b` oldest first, given its length and write cursor. */
  function RingOrder(b: seq<real>, len: nat, idx: nat): seq<real>
    requires len <= |b| && idx <= |b|
  {
    if len < |b| then b[..len] else b[idx..] + b[..idx]
  }

  /** One `Append` step on the slots: the oldest-first view gains `f` and, once full, loses its head. */
  lemma RingOrderAppend(b: seq<real>, len: nat, idx: nat, f: real)
    requires 0 <= idx < |b| && len <= |b| && (len < |b| ==> idx == len)
    ensures var len' := if len < |b| then idx + 1 else len;
            RingOrder(b[idx := f], len', Next(idx, |b|))
            == if len < |b| then RingOrder(b, len, idx) + [f] else RingOrder(b, len, idx)[1..] + [f]
  {
    if len < |b| {
      RingGrow(b, idx, f);
    } else if idx + 1 < |b| {
      RingOverwriteInside(b, idx, f);
    } else {
      RingOverwriteLast(b, idx, f);
    }
  }

  /** One `Append` on the slots of a window holding the last `|b|` samples of `h` keeps it so for `h + [f]`. */
  lemma AppendKeepsOrder(b: seq<real>, len: nat, idx: nat, h: seq<real>, f: real)
    requires 0 <= idx < |b| && len <= |b| && (len < |b| ==> idx == len)
    requires RingOrder(b, len, idx) == LastN(h, |b|)
    ensures RingOrder(b[idx := f], if len < |b| then idx + 1 else len, Next(idx, |b|)) == LastN(h + [f], |b|)
  {
    LastNAppend(h, f, |b|);
    RingOrderAppend(b, len, idx, f);
  }

  /** While the window grows, writing the cursor's slot appends to the stored samples. */
  lemma WriteGrows(b: seq<real>, idx: nat, f: real)
    requires idx < |b|
    ensures b[idx := f][..idx + 1] == b[..idx] + [f]
  {
  }

  /** Once full, writing the cursor's slot overwrites the oldest stored sample. */
  lemma WriteFull(b: seq<real>, idx: nat, f: real)
    requires idx < |b|
    ensures b[idx := f][..|b|] == b[..|b|][idx := f]
    ensures RingOrder(b, |b|, idx)[0] == b[..|b|][idx]
  {
    assert b[..|b|] == b;
  }

  lemma RingGrow(b: seq<real>, idx: nat, f: real)
    requires idx < |b|
    ensures RingOrder(b[idx := f], idx + 1, Next(idx, |b|)) == RingOrder(b, idx, idx) + [f]
  {
    var b' := b[idx := f];
    assert b'[..idx + 1] == b[..idx] + [f];
    if idx + 1 == |b| {
      assert b'[0..] + b'[..0] == b'[..idx + 1];
    }
  }

  lemma RingOverwriteInside(b: seq<real>, idx: nat, f: real)
    requires idx + 1 < |b|
    ensures RingOrder(b[idx := f], |b|, idx + 1) == RingOrder(b, |b|, idx)[1..] + [f]
  {
    var b' := b[idx := f];
    assert b'[idx + 1..] == b[idx + 1..];
    assert b'[..idx + 1] == b[..idx] + [f];
    assert (b[idx..] + b[..idx])[1..] == b[idx + 1..] + b[..idx];
  }

  lemma RingOverwriteLast(b: seq<real>, idx: nat, f: real)
    requires idx + 1 == |b|
    ensures RingOrder(b[idx := f], |b|, 0) == RingOrder(b, |b|, idx)[1..] + [f]
  {
    var b' := b[idx := f];
    assert b'[0..] + b'[..0] == b[..idx] + [f];
    assert (b[idx..] + b[..idx])[1..] == b[..idx];
  }

  // ---------------------------------------------------------------------------
  // The test table of math_test.go (capacity 5), checked on the specification.

  const FixtureIn: seq<real> :=
    [0.10, 0.10, 0.10, 0.10, 0.10, 0.10, 0.10, 0.10, 0.20, 0.10, 0.10,
     0.20, 0.20, 0.50, 0.10, 0.10, 0.10, 0.10, 0.10, 0.10, 0.10, 0.10]

  const FixtureOut: seq<real> :=
    [0.10, 0.10, 0.10, 0.10, 0.10, 0.10, 0.10, 0.10, 0.12, 0.12, 0.12,
     0.14, 0.16, 0.22, 0.22, 0.22, 0.20, 0.18, 0.10, 0.10, 0.10, 0.10]

  /** Every sliding mean the test table expects is exactly the mean of the last five samples. */
  lemma FixtureSlidingMeans()
    ensures |FixtureIn| == |FixtureOut| == 22
    ensures forall i :: 1 <= i <= 22 ==> Mean(LastN(FixtureIn[..i], 5)) == Real(FixtureOut[i - 1])
  {
    forall i | 1 <= i <= 22
      ensures Mean(LastN(FixtureIn[..i], 5)) == Real(FixtureOut[i - 1])
    {
      FixtureMeanAt(i);
    }
  }

  /** The expected mean after append number `i`. */
  lemma FixtureMeanAt(i: int)
    requires 1 <= i <= 22
    ensures Mean(LastN(FixtureIn[..i], 5)) == Real(FixtureOut[i - 1])
  {
    var w := LastN(FixtureIn[..i], 5);
    if i < 5 {
      assert w == FixtureIn[..i];
      forall k | 0 <= k < |w|
        ensures w[k] == 0.10
      {
        FixtureHead(k);
      }
      FixtureHead(i - 1);
      MeanOfConstant(w, 0.10);
    } else {
      assert w == FixtureIn[i - 5..i];
      SumOfFive(w);
      FixtureAt(i);
      assert Sum(w) ==
             FixtureIn[i - 5] + FixtureIn[i - 4] + FixtureIn[i - 3] + FixtureIn[i - 2] + FixtureIn[i - 1];
      MeanOfFive(w, FixtureOut[i - 1]);
    }
  }

  /** The first five samples of the table, and the first five means, are all 0.10. */
  lemma FixtureHead(k: int)
    requires 0 <= k < 5
    ensures FixtureIn[k] == 0.10 && FixtureOut[k] == 0.10
  {
    match k
    case 0 => case 1 => case 2 => case 3 => case 4 =>
  }

  lemma MeanOfConstant(s: seq<real>, c: real)
    requires s != [] && forall k :: 0 <= k < |s| ==> s[k] == c
    ensures Mean(s) == Real(c)
  {
    SumOfConstant(s, c);
    var n := |s| as real;
    assert Sum(s) / n == (n * c) / n;
  }

  lemma MeanOfFive(w: seq<real>, m: real)
    requires |w| == 5 && Sum(w) == 5.0 * m
    ensures Mean(w) == Real(m)
  {
  }

  /** The table's expected mean at append number `i` (from the fifth on), by arithmetic. */
  lemma FixtureAt(i: int)
    requires 5 <= i <= 22
    ensures FixtureIn[i - 5] + FixtureIn[i - 4] + FixtureIn[i - 3] + FixtureIn[i - 2] + FixtureIn[i - 1]
            == 5.0 * FixtureOut[i - 1]
  {
    match i
    case 5 => case 6 => case 7 => case 8 => case 9 => case 10 => case 11 =>
    case 12 => case 13 => case 14 => case 15 => case 16 => case 17 => case 18 =>
    case 19 => case 20 => case 21 => case 22 =>
  }

  lemma SumOfFive(w: seq<real>)
    requires |w| == 5
    ensures Sum(w) == w[0] + w[1] + w[2] + w[3] + w[4]
  {
    assert w[..4][..3] == w[..3];
    assert w[..3][..2] == w[..2];
    assert w[..2][..1] == w[..1];
    assert w[..1][..0] == [];
    assert Sum(w[..1]) == w[0];
    assert Sum(w[..2]) == w[0] + w[1];
    assert Sum(w[..3]) == w[0] + w[1] + w[2];
    assert Sum(w[..4]) == w[0] + w[1] + w[2] + w[3];
  }

  lemma {:induction false} SumOfConstant(s: seq<real>, c: real)
    requires forall k :: 0 <= k < |s| ==> s[k] == c
    ensures Sum(s) == |s| as real * c
  {
    if s != [] {
      SumOfConstant(s[..|s| - 1], c);
    }
  }

  // ---------------------------------------------------------------------------
  // The object

  class MovingAvg {
    var size: int
    var idx: int
    var buf: array<real>
    var len: int
    /** Every sample appended since construction or the last reset. */
    ghost var History: seq<real>

    /** `v.window`, as stored: slot order, not age order. */
    ghost function Window(): seq<real>
      reads this, buf
      requires 0 <= len <= buf.Length
    {
      buf[..len]
    }

    /** The stored samples oldest first: the ring read from the write cursor on. */
    ghost function Ordered(): seq<real>
      reads this, buf
      requires 0 <= len <= buf.Length && 0 <= idx <= buf.Length
    {
      RingOrder(buf[..], len, idx)
    }

    /**
     * The window grows to `size` and never beyond; while it grows the cursor
     * is its length; and it holds exactly the last `size` samples appended.
     */
    ghost predicate Valid()
      reads this, buf
    {
      && 0 < size == buf.Length
      && 0 <= len <= size
      && 0 <= idx < size
      && (len < size ==> idx == len)
      && Ordered() == LastN(History, size)
    }

    constructor Init(size: int)
      requires size > 0
      ensures Valid() && fresh(buf)
      ensures this.size == size && Window() == [] && History == []
    {
      this.size := size;
      idx := 0;
      buf := new real[size];
      len := 0;
      History := [];
    }

    /** `Append`: grow while there is room, else overwrite the oldest sample. */
    method Append(f: real)
      requires Valid()
      modifies this, buf
      ensures Valid() && buf == old(buf) && size == old(size)
      ensures History == old(History) + [f]
      ensures idx == (old(idx) + 1) % size
      ensures old(len) < size ==> len == old(len) + 1 && Window() == old(Window()) + [f]
      ensures old(len) == size ==> len == size && Window() == old(Window())[old(idx) := f]
      ensures old(len) == size ==> old(Ordered())[0] == old(Window())[old(idx)]
    {
      ghost var b, oldIdx := buf[..], idx;
      AppendKeepsOrder(b, len, idx, History, f);
      if len < size {
        WriteGrows(b, idx, f);
        len := idx + 1;
      } else {
        WriteFull(b, idx, f);
      }
      buf[idx] := f;
      idx := (idx + 1) % size;
      History := History + [f];
      assert buf[..] == b[oldIdx := f];
    }

    /** `Reset`, which `Observe` calls: the window becomes empty, capacity kept. */
    method Reset()
      requires Valid()
      modifies this
      ensures Valid() && buf == old(buf) && size == old(size)
      ensures Window() == [] && History == []
    {
      len := 0;
      idx := 0;
      History := [];
    }

    /** `Length`, which `Observe` calls: `len(window)`. */
    method Length() returns (n: int)
      requires Valid()
      ensures n == |Window()|
      ensures n == if |History| < size then |History| else size
    {
      n := len;
    }

    /** `Value`: the mean of the stored samples, which are the last `size` appended. */
    method Value() returns (v: Float)
      requires Valid()
      ensures v == Mean(Window())
      ensures v == Mean(LastN(History, size))
    {
      var total := 0.0;
      for i := 0 to len
        invariant total == Sum(buf[..i])
      {
        assert buf[..i + 1][..i] == buf[..i];
        total := total + buf[i];
      }
      assert buf[..len] == Window();
      if len == 0 {
        v := NaN;
      } else {
        v := Real(total / len as real);
      }
      if len == size {
        assert Window() == buf[..idx] + buf[idx..];
        MeanRotation(buf[..idx], buf[idx..]);
      }
    }
  }

  /** `NewMovingAvg`: refuses a capacity below one (the source panics), else an empty window. */
  method NewMovingAvg(size: int) returns (m: MovingAvg?)
    ensures size <= 0 <==> m == null
    ensures m != null ==> fresh(m) && fresh(m.buf) && m.Valid()
    ensures m != null ==> m.size == size && m.Window() == [] && m.History == []
  {
    if size <= 0 {
      return null;
    }
    m := new MovingAvg.Init(size);
  }
}
