/**
 * Dense first-occurrence colour ids.  Both the colour counter and the
 * RGB-to-PCT converter walk the pixels in row-major order, give an unseen
 * colour the next free integer and replace every pixel by its colour's
 * integer.  The PCT converter stores those integers in a byte band and
 * builds a colour table from the insertion order of its dictionary.
 */
module Palette {
  import opened Wrappers
  import opened Bands

  /** No colour appears twice. */
  predicate Distinct(s: seq<Rgb>)
  {
    forall i, j :: 0 <= i < j < |s| ==> s[i] != s[j]
  }

  /** The distinct colours of `s` in order of first appearance: the dictionary's key order. */
  function Dedup(s: seq<Rgb>): (d: seq<Rgb>)
    ensures Distinct(d)
    ensures forall x :: x in d <==> x in s
    ensures |d| <= |s|
    ensures |s| > 0 ==> |d| > 0 && d[0] == s[0]
  {
    if |s| == 0 then []
    else
      var front := Dedup(s[..|s| - 1]);
      var last := s[|s| - 1];
      assert forall x :: x in s <==> x in s[..|s| - 1] || x == last by {
        assert s == s[..|s| - 1] + [last];
      }
      assert |s| > 1 ==> s[..|s| - 1][0] == s[0];
      if last in front then front else front + [last]
  }

  /** Colours seen first are listed first: the key order of a prefix is a prefix of the key order. */
  lemma {:induction false} DedupPrefix(s: seq<Rgb>, k: nat)
    requires k <= |s|
    ensures |Dedup(s[..k])| <= |Dedup(s)| && Dedup(s[..k]) == Dedup(s)[..|Dedup(s[..k])|]
    decreases |s| - k
  {
    if k < |s| {
      DedupPrefix(s, k + 1);
      assert s[..k + 1][..k] == s[..k];
    } else {
      assert s[..k] == s;
    }
  }

  /** The first position of `x` in `s`. */
  function IndexOf(s: seq<Rgb>, x: Rgb): (k: nat)
    requires x in s
    ensures k < |s| && s[k] == x
    ensures forall j :: 0 <= j < k ==> s[j] != x
  {
    if s[0] == x then 0 else 1 + IndexOf(s[1..], x)
  }

  /** The id of colour `c`: the number of distinct colours seen before its first occurrence. */
  function Id(pixels: seq<Rgb>, c: Rgb): (id: nat)
    requires c in pixels
    ensures id < |Dedup(pixels)| && Dedup(pixels)[id] == c
  {
    IndexOf(Dedup(pixels), c)
  }

  /**
   * The colour counter's dictionary loop: a colour not yet in the
   * dictionary gets the current counter, which then moves on.  The result
   * holds exactly the colours of the image, and each with its
   * first-occurrence id; the final counter is the number of colours.
   */
  method AssignIds(pixels: seq<Rgb>) returns (ids: map<Rgb, nat>, count: nat)
    ensures forall c :: c in ids <==> c in pixels
    ensures forall c :: c in ids ==> ids[c] == Id(pixels, c)
    ensures count == |Dedup(pixels)|
  {
    ids := map[];
    count := 0;
    ghost var order: seq<Rgb> := [];
    var i := 0;
    while i < |pixels|
      invariant 0 <= i <= |pixels|
      invariant order == Dedup(pixels[..i]) && count == |order|
      invariant forall c :: c in ids <==> c in order
      invariant forall c :: c in ids ==> ids[c] < |order| && order[ids[c]] == c
    {
      var p := pixels[i];
      assert pixels[..i + 1][..i] == pixels[..i] && pixels[..i + 1][i] == p;
      if p !in ids {
        ids := ids[p := count];
        order := order + [p];
        count := count + 1;
      }
      i := i + 1;
    }
    assert pixels[..i] == pixels;
    forall c | c in ids
      ensures ids[c] == Id(pixels, c)
    {
      var k := ids[c];
      assert order[k] == c;
      assert order[Id(pixels, c)] == c;
    }
  }

  /** `integer_image.reshape(-1)[i] = unique_colors[tuple(pixel)]`: every pixel replaced by its id. */
  function IntegerImage(pixels: seq<Rgb>): (img: seq<nat>)
    ensures |img| == |pixels|
    ensures forall i :: 0 <= i < |pixels| ==> img[i] == Id(pixels, pixels[i])
  {
    seq(|pixels|, i requires 0 <= i < |pixels| => Id(pixels, pixels[i]))
  }

  /**
   * The ids are exactly `0 .. k-1` for `k` distinct colours, the first
   * pixel gets 0, equal colours share an id and distinct colours do not.
   */
  lemma {:induction false} IdsDenseAndInjective(pixels: seq<Rgb>)
    ensures forall c :: c in pixels ==> Id(pixels, c) < |Dedup(pixels)|
    ensures forall k :: 0 <= k < |Dedup(pixels)| ==> Dedup(pixels)[k] in pixels && Id(pixels, Dedup(pixels)[k]) == k
    ensures |pixels| > 0 ==> Id(pixels, pixels[0]) == 0
    ensures forall a, b :: a in pixels && b in pixels && Id(pixels, a) == Id(pixels, b) ==> a == b
  {
    var d := Dedup(pixels);
    forall k | 0 <= k < |d|
      ensures d[k] in pixels && Id(pixels, d[k]) == k
    {
      assert d[k] in d;
    }
  }

  /** Looking each id up in the key order gives back the original image. */
  lemma {:induction false} IntegerImageRoundTrip(pixels: seq<Rgb>, i: nat)
    requires i < |pixels|
    ensures Dedup(pixels)[IntegerImage(pixels)[i]] == pixels[i]
  {
  }

  /** `pct_data[i, j] = rgb_to_int[rgb]` into a `uint8` array: the id modulo 256. */
  function PctImage(pixels: seq<Rgb>): (pct: seq<nat>)
    ensures |pct| == |pixels|
    ensures forall i :: 0 <= i < |pixels| ==> pct[i] < 256 && pct[i] == Id(pixels, pixels[i]) % 256
  {
    seq(|pixels|, i requires 0 <= i < |pixels| => Id(pixels, pixels[i]) % 256)
  }

  /** The colour table: entry `i` is the `i`-th key inserted. */
  function ColourTable(pixels: seq<Rgb>): (table: seq<Rgb>)
    ensures Distinct(table) && forall x :: x in table <==> x in pixels
  {
    Dedup(pixels)
  }

  /** With at most 256 colours, table entry `pct[i]` is pixel `i`'s colour. */
  lemma {:induction false} PctRoundTrip(pixels: seq<Rgb>, i: nat)
    requires |Dedup(pixels)| <= 256 && i < |pixels|
    ensures PctImage(pixels)[i] < |ColourTable(pixels)|
    ensures ColourTable(pixels)[PctImage(pixels)[i]] == pixels[i]
  {
    var id := Id(pixels, pixels[i]);
    assert id % 256 == id;
  }

  /**
   * With 257 colours or more the byte band wraps: the pixel whose colour
   * got id 256 is stored as 0 and the table maps 0 to the first colour.
   */
  lemma {:induction false} PctWrapsBeyond256(pixels: seq<Rgb>)
    requires |Dedup(pixels)| > 256
    ensures exists i :: 0 <= i < |pixels| && PctImage(pixels)[i] == 0 && ColourTable(pixels)[0] != pixels[i]
  {
    var d := Dedup(pixels);
    var c := d[256];
    assert c in pixels;
    var i := IndexOf(pixels, c);
    assert Id(pixels, c) == 256;
    assert PctImage(pixels)[i] == 0;
    assert d[0] != d[256];
  }

  /** A palette image: one table index per pixel, and the table. */
  datatype Pct = Pct(indices: seq<nat>, table: seq<Rgb>)

  /** More colours than a byte band can index. */
  datatype PctError = TooManyColours

  /** The converter with the limit a byte band imposes checked up front. */
  function RgbToPct(pixels: seq<Rgb>): (r: Result<Pct, PctError>)
    ensures r.Failure? <==> |Dedup(pixels)| > 256
    ensures r.Success? ==> |r.value.indices| == |pixels| && |r.value.table| <= 256
    ensures r.Success? ==> forall i :: 0 <= i < |pixels| ==>
      r.value.indices[i] < |r.value.table| && r.value.table[r.value.indices[i]] == pixels[i]
  {
    if |Dedup(pixels)| > 256 then Failure(TooManyColours)
    else
      var pct := Pct(PctImage(pixels), ColourTable(pixels));
      assert forall i :: 0 <= i < |pixels| ==> pct.indices[i] < |pct.table| && pct.table[pct.indices[i]] == pixels[i] by {
        forall i | 0 <= i < |pixels|
          ensures pct.indices[i] < |pct.table| && pct.table[pct.indices[i]] == pixels[i]
        {
          PctRoundTrip(pixels, i);
        }
      }
      Success(pct)
  }
}
