/** An image collection seen at one pixel: a sequence of images, each with
    its acquisition time and its band values, together with the date filter,
    the band selection and the temporal reducers (mean, min, max, sum). */
module Series {
  import opened Pixels

  /** One image of a collection at one pixel. `time` is the acquisition
      time in seconds after the day's `time_start`; `band` gives the value
      of every band of the product. */
  datatype Image = Image(time: int, band: string -> real)

  predicate InWindow(x: Image, start: int, end: int) {
    start <= x.time < end
  }

  /** `filterDate(start, end)`: the images whose time lies in the half-open
      window [start, end), in collection order. */
  function FilterDate(c: seq<Image>, start: int, end: int): (r: seq<Image>)
    ensures |r| <= |c|
    ensures forall i :: 0 <= i < |r| ==> InWindow(r[i], start, end)
  {
    if c == [] then []
    else (if InWindow(c[0], start, end) then [c[0]] else []) + FilterDate(c[1..], start, end)
  }

  /** The filter keeps exactly the images of the collection that lie in
      the window. */
  lemma {:induction false} FilterDateMembers(c: seq<Image>, start: int, end: int)
    ensures forall x :: x in FilterDate(c, start, end) <==> x in c && InWindow(x, start, end)
  {
    if c != [] {
      FilterDateMembers(c[1..], start, end);
      assert c == [c[0]] + c[1..];
    }
  }

  /** Filtering a concatenation filters each part. */
  lemma {:induction false} FilterDateAppend(a: seq<Image>, b: seq<Image>, start: int, end: int)
    ensures FilterDate(a + b, start, end) == FilterDate(a, start, end) + FilterDate(b, start, end)
  {
    if a == [] {
      assert a + b == b;
    } else {
      assert (a + b)[1..] == a[1..] + b;
      FilterDateAppend(a[1..], b, start, end);
    }
  }

  /** A collection that lies entirely inside the window passes unchanged. */
  lemma {:induction false} FilterDateAllInside(c: seq<Image>, start: int, end: int)
    requires forall i :: 0 <= i < |c| ==> InWindow(c[i], start, end)
    ensures FilterDate(c, start, end) == c
  {
    if c != [] {
      FilterDateAllInside(c[1..], start, end);
    }
  }

  /** A collection that lies entirely outside the window is dropped. */
  lemma {:induction false} FilterDateAllOutside(c: seq<Image>, start: int, end: int)
    requires forall i :: 0 <= i < |c| ==> !InWindow(c[i], start, end)
    ensures FilterDate(c, start, end) == []
  {
    if c != [] {
      FilterDateAllOutside(c[1..], start, end);
    }
  }

  /** `select(name)`: the values of one band, image by image; the series
      has one value per image, and its i-th value is band `name` of the i-th
      image. */
  function Select(c: seq<Image>, name: string): (r: seq<real>)
    ensures |r| == |c|
    ensures forall i :: 0 <= i < |c| ==> r[i] == c[i].band(name)
  {
    if c == [] then [] else [c[0].band(name)] + Select(c[1..], name)
  }

  /** `sum()`: the total of a series. */
  function Sum(s: seq<real>): real {
    if s == [] then 0.0 else s[0] + Sum(s[1..])
  }

  function MinOf(s: seq<real>): (r: real)
    requires |s| > 0
    ensures r in s
    ensures forall i :: 0 <= i < |s| ==> r <= s[i]
  {
    if |s| == 1 then s[0]
    else var m := MinOf(s[1..]); if s[0] <= m then s[0] else m
  }

  function MaxOf(s: seq<real>): (r: real)
    requires |s| > 0
    ensures r in s
    ensures forall i :: 0 <= i < |s| ==> s[i] <= r
  {
    if |s| == 1 then s[0]
    else var m := MaxOf(s[1..]); if s[0] >= m then s[0] else m
  }

  /** The reducers. The model gives no value for an empty window (Earth
      Engine yields an image without bands there). */
  function Mean(s: seq<real>): (r: Pixel)
    ensures r.Value? <==> |s| > 0
    ensures r.Value? ==> r.v * (|s| as real) == Sum(s)
  {
    if |s| == 0 then NoData else Value(Sum(s) / (|s| as real))
  }

  function Minimum(s: seq<real>): (r: Pixel)
    ensures r.Value? <==> |s| > 0
    ensures r.Value? ==> r.v in s && forall i :: 0 <= i < |s| ==> r.v <= s[i]
  {
    if |s| == 0 then NoData else Value(MinOf(s))
  }

  function Maximum(s: seq<real>): (r: Pixel)
    ensures r.Value? <==> |s| > 0
    ensures r.Value? ==> r.v in s && forall i :: 0 <= i < |s| ==> s[i] <= r.v
  {
    if |s| == 0 then NoData else Value(MaxOf(s))
  }

  function Total(s: seq<real>): (r: Pixel)
    ensures r.Value? <==> |s| > 0
    ensures r.Value? ==> r.v == Sum(s)
  {
    if |s| == 0 then NoData else Value(Sum(s))
  }

  /** A sum of values within [lo, hi] lies within [n*lo, n*hi]. */
  lemma {:induction false} SumBounds(s: seq<real>, lo: real, hi: real)
    requires forall i :: 0 <= i < |s| ==> lo <= s[i] <= hi
    ensures (|s| as real) * lo <= Sum(s) <= (|s| as real) * hi
  {
    if s != [] {
      SumBounds(s[1..], lo, hi);
      assert lo <= s[0] <= hi;
    }
  }

  /** A sum of n copies of c is n*c. */
  lemma {:induction false} SumConstant(s: seq<real>, c: real)
    requires forall i :: 0 <= i < |s| ==> s[i] == c
    ensures Sum(s) == (|s| as real) * c
  {
    if s != [] {
      SumConstant(s[1..], c);
    }
  }

  /** Over a non-empty window the mean lies between the minimum and the
      maximum; over an empty one the model gives none of the three. */
  lemma MeanBetweenMinAndMax(s: seq<real>)
    ensures |s| == 0 <==> Mean(s) == NoData
    ensures |s| == 0 <==> Minimum(s) == NoData
    ensures |s| == 0 <==> Maximum(s) == NoData
    ensures |s| > 0 ==> Minimum(s).v <= Mean(s).v <= Maximum(s).v
  {
    if |s| > 0 {
      MeanWithin(s, MinOf(s), MaxOf(s));
    }
  }

  /** The mean of values within [lo, hi] lies within [lo, hi]. */
  lemma MeanWithin(s: seq<real>, lo: real, hi: real)
    requires |s| > 0
    requires forall i :: 0 <= i < |s| ==> lo <= s[i] <= hi
    ensures Mean(s).Value? && lo <= Mean(s).v <= hi
  {
    SumBounds(s, lo, hi);
    QuotientBounds(Sum(s), |s| as real, lo, hi);
  }

  lemma QuotientBounds(x: real, n: real, lo: real, hi: real)
    requires n > 0.0 && n * lo <= x <= n * hi
    ensures lo <= x / n <= hi
  {
    var q := x / n;
    assert q * n == x;
    assert (q - lo) * n >= 0.0 && (hi - q) * n >= 0.0;
  }

  /** The mean of a band that is constant over the images is that constant. */
  lemma MeanOfConstantBand(c: seq<Image>, name: string, k: real)
    requires |c| > 0
    requires forall x :: x in c ==> x.band(name) == k
    ensures Mean(Select(c, name)) == Value(k)
  {
    ReducersOfConstantBand(c, name, k);
  }

  /** Mean, min and max of a band that is constant over the images return
      that constant, and its sum is n times it. */
  lemma ReducersOfConstantBand(c: seq<Image>, name: string, k: real)
    requires |c| > 0
    requires forall x :: x in c ==> x.band(name) == k
    ensures var s := Select(c, name);
      && Mean(s) == Value(k) && Minimum(s) == Value(k) && Maximum(s) == Value(k)
      && Sum(s) == (|c| as real) * k
  {
    ReducersOfConstant(Select(c, name), k);
    SumOfConstantBand(c, name, k);
  }

  /** The sum of a band that is constant over n images is n times it. */
  lemma SumOfConstantBand(c: seq<Image>, name: string, k: real)
    requires forall x :: x in c ==> x.band(name) == k
    ensures Sum(Select(c, name)) == (|c| as real) * k
  {
    var s := Select(c, name);
    forall i | 0 <= i < |s|
      ensures s[i] == k
    {
      assert c[i] in c;
    }
    SumConstant(s, k);
  }

  /** Every reducer of a constant series returns that constant. */
  lemma ReducersOfConstant(s: seq<real>, c: real)
    requires |s| > 0
    requires forall i :: 0 <= i < |s| ==> s[i] == c
    ensures Mean(s) == Value(c) && Minimum(s) == Value(c) && Maximum(s) == Value(c)
    ensures Total(s) == Value((|s| as real) * c)
  {
    SumConstant(s, c);
    var n := |s| as real;
    assert Sum(s) / n == c by {
      assert (Sum(s) / n) * n == n * c;
      assert (Sum(s) / n - c) * n == 0.0;
    }
    assert MinOf(s) == c by {
      assert MinOf(s) in s;
    }
    assert MaxOf(s) == c by {
      assert MaxOf(s) in s;
    }
  }
}
