/** The sum of a measure over a sequence, and how one step changes it. */
module Sums {
  function Total<T>(ws: seq<T>, f: T -> nat): nat {
    if ws == [] then 0 else Total(ws[..|ws| - 1], f) + f(ws[|ws| - 1])
  }

  lemma TotalAppend<T>(ws: seq<T>, w: T, f: T -> nat)
    ensures Total(ws + [w], f) == Total(ws, f) + f(w)
  {
    assert (ws + [w])[..|ws|] == ws;
  }

  lemma {:induction false} TotalUpdate<T>(ws: seq<T>, i: nat, w: T, f: T -> nat)
    requires i < |ws|
    ensures Total(ws[i := w], f) == Total(ws, f) - f(ws[i]) + f(w)
  {
    var n := |ws| - 1;
    if i == n {
      assert ws[i := w][..n] == ws[..n];
    } else {
      assert ws[i := w][..n] == ws[..n][i := w];
      TotalUpdate(ws[..n], i, w, f);
    }
  }
}
