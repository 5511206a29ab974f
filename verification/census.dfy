/**
 * Colour censuses of a land-use image: `np.unique` over the pixels with
 * counts and the rank index built from it, the first-occurrence table from
 * colour to the integer band, and the unique-colour count of the colour
 * finder.  The interactive prompts are modelled only by the lookups they
 * perform.
 */
module Census {
  import opened Wrappers
  import opened Grids
  import opened Bands
  import opened Palette

  /** Lexicographic order on `(r, g, b)`, the row order of `np.unique(..., axis=0)`. */
  predicate Below(a: Rgb, b: Rgb)
  {
    a.r < b.r || (a.r == b.r && (a.g < b.g || (a.g == b.g && a.b < b.b)))
  }

  predicate StrictlySorted(s: seq<Rgb>)
  {
    forall i, j :: 0 <= i < j < |s| ==> Below(s[i], s[j])
  }

  /** Adds `c` to a strictly sorted list of colours, keeping it strictly sorted. */
  function Insert(s: seq<Rgb>, c: Rgb): (r: seq<Rgb>)
    requires StrictlySorted(s)
    ensures StrictlySorted(r)
    ensures forall x :: x in r <==> x in s || x == c
  {
    if |s| == 0 then [c]
    else if c == s[0] then s
    else if Below(c, s[0]) then [c] + s
    else
      var rest := Insert(s[1..], c);
      assert forall x :: x in rest ==> Below(s[0], x) by {
        forall x | x in rest
          ensures Below(s[0], x)
        {
          if x != c {
            var k :| 0 <= k < |s[1..]| && s[1..][k] == x;
            assert s[k + 1] == x;
          }
        }
      }
      [s[0]] + rest
  }

  /** `np.unique(pixels, axis=0)`: the distinct colours in lexicographic order. */
  function SortedUnique(s: seq<Rgb>): (u: seq<Rgb>)
    ensures StrictlySorted(u)
    ensures forall x :: x in u <==> x in s
  {
    if |s| == 0 then []
    else
      assert forall x :: x in s <==> x in s[..|s| - 1] || x == s[|s| - 1] by {
        assert s == s[..|s| - 1] + [s[|s| - 1]];
      }
      Insert(SortedUnique(s[..|s| - 1]), s[|s| - 1])
  }

  /** A strictly sorted list has no repeats. */
  lemma {:induction false} SortedIsDistinct(u: seq<Rgb>)
    requires StrictlySorted(u)
    ensures Distinct(u)
  {
    forall i, j | 0 <= i < j < |u|
      ensures u[i] != u[j]
    {
      assert Below(u[i], u[j]);
    }
  }

  /** `return_counts=True`: how often each listed colour occurs among the pixels. */
  function Counts(u: seq<Rgb>, pixels: multiset<Rgb>): (c: seq<nat>)
    ensures |c| == |u| && forall k :: 0 <= k < |u| ==> c[k] == pixels[u[k]]
  {
    seq(|u|, k requires 0 <= k < |u| => pixels[u[k]])
  }

  /** `np.sum` of a list of counts. */
  function Total(c: seq<nat>): (t: nat)
  {
    if |c| == 0 then 0 else Total(c[..|c| - 1]) + c[|c| - 1]
  }

  /** Removing every copy of `c` removes `m[c]` elements. */
  lemma {:induction false} RemoveAll(m: multiset<Rgb>, c: Rgb)
    ensures |m| == |m[c := 0]| + m[c]
    decreases m[c]
  {
    if m[c] > 0 {
      var n := m - multiset{c};
      assert n[c := 0] == m[c := 0];
      RemoveAll(n, c);
    } else {
      assert m[c := 0] == m;
    }
  }

  /** Counting over a repeat-free list that covers every pixel accounts for every pixel once. */
  lemma {:induction false} CountsCover(u: seq<Rgb>, m: multiset<Rgb>)
    requires Distinct(u) && forall x :: x in m ==> x in u
    ensures Total(Counts(u, m)) == |m|
    decreases |u|
  {
    if |u| == 0 {
      assert forall x :: m[x] == 0;
      assert m == multiset{};
    } else {
      var c := u[|u| - 1];
      DropLastCovers(u, m);
      CountsCover(u[..|u| - 1], m[c := 0]);
      RemoveAll(m, c);
    }
  }

  /**
   * Without its last colour `c` the list is still repeat-free, covers every
   * pixel of another colour, and counts those pixels as before.
   */
  lemma {:induction false} DropLastCovers(u: seq<Rgb>, m: multiset<Rgb>)
    requires |u| > 0 && Distinct(u) && forall x :: x in m ==> x in u
    ensures var c, front := u[|u| - 1], u[..|u| - 1];
      && Distinct(front)
      && (forall x :: x in m[c := 0] ==> x in front)
      && Total(Counts(u, m)) == Total(Counts(front, m[c := 0])) + m[c]
  {
    var c, front, rest := u[|u| - 1], u[..|u| - 1], m[u[|u| - 1] := 0];
    forall x | x in rest
      ensures x in front
    {
      assert x != c && x in m;
      var k :| 0 <= k < |u| && u[k] == x;
      assert front[k] == x;
    }
    DropLastCounts(u, m);
  }

  /** The counts of the shorter list over the pixels of other colours are the leading counts of the full list. */
  lemma {:induction false} DropLastCounts(u: seq<Rgb>, m: multiset<Rgb>)
    requires |u| > 0 && Distinct(u)
    ensures Total(Counts(u, m)) == Total(Counts(u[..|u| - 1], m[u[|u| - 1] := 0])) + m[u[|u| - 1]]
  {
    var all, part := Counts(u, m), Counts(u[..|u| - 1], m[u[|u| - 1] := 0]);
    assert part == all[..|u| - 1];
  }

  /** The colour analysis's first assertion: the unique-colour counts add up to the number of pixels. */
  lemma {:induction false} CountsSumToTotal(pixels: seq<Rgb>)
    ensures Total(Counts(SortedUnique(pixels), multiset(pixels))) == |pixels|
  {
    var u := SortedUnique(pixels);
    SortedIsDistinct(u);
    CountsCover(u, multiset(pixels));
  }

  /** `{tuple(color): index for index, color in enumerate(unique_colors)}`. */
  function IndexMap(u: seq<Rgb>): (m: map<Rgb, nat>)
    ensures forall c :: c in m <==> c in u
    ensures forall c :: c in m ==> m[c] < |u| && u[m[c]] == c
  {
    map c | c in u :: IndexOf(u, c)
  }

  /** A list without repeats has as many distinct members as entries. */
  lemma {:induction false} DistinctCardinality(u: seq<Rgb>)
    requires Distinct(u)
    ensures |set c | c in u| == |u|
    decreases |u|
  {
    if |u| > 0 {
      var front := u[..|u| - 1];
      DistinctCardinality(front);
      var last := u[|u| - 1];
      assert (set c | c in u) == (set c | c in front) + {last};
      assert last !in (set c | c in front);
    }
  }

  /**
   * The colour analysis's second assertion and the meaning of its index:
   * the index map has one entry per unique colour, and a colour's index is
   * its rank, every colour below it in lexicographic order coming earlier.
   */
  lemma {:induction false} IndexIsRank(pixels: seq<Rgb>)
    ensures |IndexMap(SortedUnique(pixels)).Keys| == |SortedUnique(pixels)|
    ensures forall c :: c in IndexMap(SortedUnique(pixels)) ==>
      (forall k :: 0 <= k < IndexMap(SortedUnique(pixels))[c] ==> Below(SortedUnique(pixels)[k], c)) &&
      (forall k :: IndexMap(SortedUnique(pixels))[c] < k < |SortedUnique(pixels)| ==> Below(c, SortedUnique(pixels)[k]))
  {
    var u := SortedUnique(pixels);
    SortedIsDistinct(u);
    DistinctCardinality(u);
    assert IndexMap(u).Keys == set c | c in u;
  }

  /**
   * The colour analysis on the pixels of the first three bands: nodata has
   * already become 0 when the bands were read, then each channel is clipped
   * to the byte range before the census.
   */
  function ClippedPixels(pixels: seq<Rgb>): (q: seq<Rgb>)
    ensures |q| == |pixels| && forall i :: 0 <= i < |pixels| ==> q[i] == ClipRgb(pixels[i])
  {
    seq(|pixels|, i requires 0 <= i < |pixels| => ClipRgb(pixels[i]))
  }

  /** The prompt's lookup: the stored value of a colour, or not found. */
  function Lookup<V>(m: map<Rgb, V>, c: Rgb): (r: Option<V>)
    ensures r.Some? <==> c in m
    ensures r.Some? ==> r.value == m[c]
  {
    if c in m then Some(m[c]) else None
  }

  /** Looking up a colour of the image gives its rank; any other colour is not found. */
  lemma {:induction false} LookupFindsRank(pixels: seq<Rgb>, c: Rgb)
    ensures var u := SortedUnique(pixels);
      (c in pixels ==> Lookup(IndexMap(u), c).Some? && u[Lookup(IndexMap(u), c).value] == c) &&
      (c !in pixels ==> Lookup(IndexMap(u), c).None?)
  {
  }

  /**
   * The integer check's table: each colour is paired with the integer band's
   * value at its first row-major occurrence; a colour already present is
   * never overwritten.
   */
  function FirstValues(pixels: seq<Rgb>, values: seq<int>): (m: map<Rgb, int>)
    requires |values| == |pixels|
    ensures forall c :: c in m <==> c in pixels
    ensures forall c :: c in m ==> m[c] == values[IndexOf(pixels, c)]
  {
    if |pixels| == 0 then map[]
    else
      var n := |pixels| - 1;
      var front := FirstValues(pixels[..n], values[..n]);
      var c := pixels[n];
      LastMembership(pixels);
      PrefixIndices(pixels, n);
      if c in front then front
      else
        NewLastIndex(pixels);
        front[c := values[n]]
  }

  /** Every colour of a prefix keeps its first position in the whole list. */
  lemma {:induction false} PrefixIndices(s: seq<Rgb>, n: nat)
    requires n <= |s|
    ensures forall x :: x in s[..n] ==> IndexOf(s, x) == IndexOf(s[..n], x)
  {
    forall x | x in s[..n]
      ensures IndexOf(s, x) == IndexOf(s[..n], x)
    {
      FirstIndexOfPrefix(s, n, x);
    }
  }

  /** A pixel of the list is one of the earlier pixels or the last. */
  lemma {:induction false} LastMembership(s: seq<Rgb>)
    requires |s| > 0
    ensures forall x :: x in s <==> x in s[..|s| - 1] || x == s[|s| - 1]
  {
    assert s == s[..|s| - 1] + [s[|s| - 1]];
  }

  /** A last pixel whose colour is new sits at that colour's first position. */
  lemma {:induction false} NewLastIndex(s: seq<Rgb>)
    requires |s| > 0 && s[|s| - 1] !in s[..|s| - 1]
    ensures IndexOf(s, s[|s| - 1]) == |s| - 1
  {
  }

  /** The first occurrence of a colour inside a prefix is its first occurrence overall. */
  lemma {:induction false} FirstIndexOfPrefix(s: seq<Rgb>, n: nat, x: Rgb)
    requires n <= |s| && x in s[..n]
    ensures IndexOf(s, x) == IndexOf(s[..n], x)
  {
    var k := IndexOf(s[..n], x);
    var k' := IndexOf(s, x);
    assert s[k] == x;
    assert s[..n][k'] == x || k' >= n;
  }

  /** A later pixel of an already seen colour does not change the table. */
  lemma {:induction false} LaterOccurrenceIgnored(pixels: seq<Rgb>, values: seq<int>, c: Rgb, v: int)
    requires |values| == |pixels| && c in pixels
    ensures FirstValues(pixels + [c], values + [v]) == FirstValues(pixels, values)
  {
    var s, t := pixels + [c], values + [v];
    assert s[..|pixels|] == pixels && t[..|pixels|] == values;
  }

  /** Why the integer check stops before building its table. */
  datatype IntegerCheckError =
    | RgbUnreadable(cause: BandError)  // fewer than three bands: the `ValueError` before any read
    | NoIntegerBand                    // exactly three bands: `GetRasterBand(4)` gives `None`, and reading it raises

  /**
   * The integer check from the file's bands: the RGB image of bands 1 to 3,
   * then band 4 read unconditionally and as it is (its nodata is not
   * replaced), then the first-occurrence table of band 4 by colour.
   */
  function IntegerTable(bands: seq<RasterBand>): (r: Result<map<Rgb, int>, IntegerCheckError>)
    requires Aligned(bands)
    ensures r.Failure? <==> |bands| < 4
    ensures |bands| < 3 ==> r == Failure(RgbUnreadable(TooFewBands))
    ensures |bands| == 3 ==> r == Failure(NoIntegerBand)
    ensures r.Success? ==> |Pixels(ReadRgb(bands).value)| == |Flatten(bands[3].data.rows)|
    ensures r.Success? ==> forall c :: c in r.value <==> c in Pixels(ReadRgb(bands).value)
    ensures r.Success? ==> forall c :: c in r.value ==>
      r.value[c] == Flatten(bands[3].data.rows)[IndexOf(Pixels(ReadRgb(bands).value), c)]
  {
    match ReadRgb(bands)
    case Failure(e) => Failure(RgbUnreadable(e))
    case Success(img) =>
      if |bands| < 4 then Failure(NoIntegerBand)
      else
        FlattenLength(img);
        FlattenLength(bands[3].data);
        Success(FirstValues(Pixels(img), Flatten(bands[3].data.rows)))
  }

  /**
   * The colour finder as written: `Counter` runs over the rows of
   * `np.unique(clipped)`, so it reports each distinct colour with count 1.
   */
  function ColourFind(pixels: seq<Rgb>): (m: map<Rgb, nat>)
    ensures forall c :: c in m <==> c in ClippedPixels(pixels)
  {
    var u := SortedUnique(ClippedPixels(pixels));
    map c | c in u :: multiset(u)[c]
  }

  /** Every count the colour finder reports is 1, whatever the image. */
  lemma {:induction false} ColourFindCountsAreOne(pixels: seq<Rgb>)
    ensures forall c :: c in ColourFind(pixels) ==> ColourFind(pixels)[c] == 1
  {
    var u := SortedUnique(ClippedPixels(pixels));
    SortedIsDistinct(u);
    forall c | c in u
      ensures multiset(u)[c] == 1
    {
      DistinctCountOne(u, c);
    }
  }

  /** A colour of a repeat-free list occurs in it once. */
  lemma {:induction false} DistinctCountOne(u: seq<Rgb>, c: Rgb)
    requires Distinct(u) && c in u
    ensures multiset(u)[c] == 1
    decreases |u|
  {
    var front, last := u[..|u| - 1], u[|u| - 1];
    assert u == front + [last];
    if c == last {
      assert c !in front;
    } else {
      DistinctCountOne(front, c);
    }
  }

  /**
   * What the counting evidently means: the number of clipped pixels of each
   * colour.  These counts add up to the number of pixels.
   */
  function ColourFrequencies(pixels: seq<Rgb>): (m: map<Rgb, nat>)
    ensures forall c :: c in m <==> c in ClippedPixels(pixels)
    ensures forall c :: c in m ==> m[c] == multiset(ClippedPixels(pixels))[c] && m[c] >= 1
  {
    var q := ClippedPixels(pixels);
    map c | c in SortedUnique(q) :: multiset(q)[c]
  }

  /** The frequencies, listed in the colour finder's order, account for every pixel. */
  lemma {:induction false} FrequenciesCoverImage(pixels: seq<Rgb>)
    ensures var q := ClippedPixels(pixels); var u := SortedUnique(q);
      |Counts(u, multiset(q))| == |u| &&
      (forall k :: 0 <= k < |u| ==> Counts(u, multiset(q))[k] == ColourFrequencies(pixels)[u[k]]) &&
      Total(Counts(u, multiset(q))) == |pixels|
  {
    CountsSumToTotal(ClippedPixels(pixels));
  }
}
