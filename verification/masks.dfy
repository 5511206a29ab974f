/**
 * numpy masked assignment.  Each classifier in the scripts is a fill
 * (`np.zeros_like`, `np.full(..., np.nan)`) followed by statements
 * `out[mask] = value` executed in source order.  At one cell that is a
 * sequence of writes, each guarded by the cell's mask bit, and the cell
 * ends up holding the value of the last write whose mask held.
 */
module Masks {

  /** One `out[mask] = value` statement, seen at a single cell. */
  datatype Write<T> = Write(mask: bool, value: T)

  /** True when no write at position `from` or later fires. */
  predicate Silent<T>(ws: seq<Write<T>>, from: nat)
  {
    forall j :: from <= j < |ws| ==> !ws[j].mask
  }

  /**
   * Executes the writes in source order, starting from the fill value.
   * The contract reads the same sequence backwards: the last write decides
   * the cell if its mask holds, and otherwise the cell is whatever the
   * earlier writes left.
   */
  function Overwrite<T>(ws: seq<Write<T>>, fill: T): (r: T)
    ensures |ws| == 0 ==> r == fill
    ensures |ws| > 0 ==> r == (if ws[|ws| - 1].mask then ws[|ws| - 1].value else Overwrite(ws[..|ws| - 1], fill))
  {
    if |ws| == 0 then fill
    else
      var r := Overwrite(ws[1..], if ws[0].mask then ws[0].value else fill);
      if |ws| > 1 then
        assert ws[1..][..|ws| - 2] == ws[..|ws| - 1][1..];
        r
      else r
  }

  /** The write at `k` fired, and no later one did: the cell holds its value. */
  lemma {:induction false} LastFiringWriteWins<T>(ws: seq<Write<T>>, fill: T, k: nat)
    requires k < |ws| && ws[k].mask && Silent(ws, k + 1)
    ensures Overwrite(ws, fill) == ws[k].value
    decreases |ws|
  {
    if k < |ws| - 1 {
      LastFiringWriteWins(ws[..|ws| - 1], fill, k);
    }
  }

  /** When no mask fires the fill survives. */
  lemma {:induction false} SilentKeepsFill<T>(ws: seq<Write<T>>, fill: T)
    requires Silent(ws, 0)
    ensures Overwrite(ws, fill) == fill
    decreases |ws|
  {
    if |ws| > 0 {
      SilentKeepsFill(ws[..|ws| - 1], fill);
    }
  }

  /** Running two statement lists back to back is running the second from where the first left off. */
  lemma {:induction false} OverwriteAppend<T>(a: seq<Write<T>>, b: seq<Write<T>>, fill: T)
    ensures Overwrite(a + b, fill) == Overwrite(b, Overwrite(a, fill))
    decreases |b|
  {
    if |b| == 0 {
      assert a + b == a;
    } else {
      assert (a + b)[..|a + b| - 1] == a + b[..|b| - 1];
      OverwriteAppend(a, b[..|b| - 1], fill);
    }
  }
}
