/** The loop that writes the enhanced pages as separate images. */
module EnhanceOutputs {

  /** A page file: where the last step left it, or the output with a number. */
  datatype PagePath = Input(n: nat) | Enhanced(index: nat)

  /** `sameFormat` says that the file has the requested format already. */
  datatype Page = Page(path: PagePath, sameFormat: bool, outputIndex: nat)

  /** What copying and converting the page would do. */
  datatype Write = Write(copies: bool, converts: bool)

  predicate Works(p: Page, index: nat, w: Write, graphicReady: bool) {
    if p.sameFormat then p.path == Enhanced(index) || w.copies
    else if graphicReady then w.converts
    else w.copies
  }

  /** How many of the first `n` pages are written. */
  function Written(pages: seq<Page>, writes: nat -> Write, graphicReady: bool, n: nat): (r: nat)
    requires n <= |pages|
    ensures r <= n
  {
    if n == 0 then 0
    else
      var before := Written(pages, writes, graphicReady, n - 1);
      if Works(pages[n - 1], before + 1, writes(n - 1), graphicReady) then before + 1 else before
  }

  lemma {:induction false} WrittenRises(pages: seq<Page>, writes: nat -> Write, graphicReady: bool, m: nat, n: nat)
    requires m <= n <= |pages|
    ensures Written(pages, writes, graphicReady, m) <= Written(pages, writes, graphicReady, n)
  {
    if m < n { WrittenRises(pages, writes, graphicReady, m, n - 1); }
  }

  /** A page that could be written gets the next number; one that could not keeps its file. */
  function PageAfter(pages: seq<Page>, writes: nat -> Write, graphicReady: bool, i: nat): Page
    requires i < |pages|
  {
    var n := Written(pages, writes, graphicReady, i + 1);
    if n > Written(pages, writes, graphicReady, i) then pages[i].(path := Enhanced(n), outputIndex := n) else pages[i]
  }

  /** The outputs are numbered from 1 without a gap, in page order, one for each page that could be
      written; the other pages stay as they are. */
  method WriteImagePages(pages: seq<Page>, writes: nat -> Write, graphicReady: bool)
    returns (after: seq<Page>, outputs: seq<PagePath>)
    ensures |after| == |pages| && forall i | 0 <= i < |pages| :: after[i] == PageAfter(pages, writes, graphicReady, i)
    ensures |outputs| == Written(pages, writes, graphicReady, |pages|)
    ensures forall k | 0 <= k < |outputs| :: outputs[k] == Enhanced(k + 1)
  {
    after, outputs := pages, [];
    var index := 1;
    for i := 0 to |pages|
      invariant |after| == |pages| && index == |outputs| + 1
      invariant |outputs| == Written(pages, writes, graphicReady, i)
      invariant forall k | 0 <= k < |outputs| :: outputs[k] == Enhanced(k + 1)
      invariant forall k | 0 <= k < i :: after[k] == PageAfter(pages, writes, graphicReady, k)
      invariant forall k | i <= k < |pages| :: after[k] == pages[k]
    {
      var final := Enhanced(index);
      var page := after[i];
      if page.sameFormat {
        if page.path != final && !writes(i).copies { continue; }
      } else if graphicReady {
        if !writes(i).converts { continue; }
      } else if !writes(i).copies {
        continue;
      }
      after := after[i := page.(path := final, outputIndex := index)];
      outputs := outputs + [final];
      index := index + 1;
    }
  }

  /** Pages that were written have different outputs. */
  lemma OutputsAreTold(pages: seq<Page>, writes: nat -> Write, graphicReady: bool, i: nat, k: nat)
    requires i < k < |pages|
    requires Written(pages, writes, graphicReady, i + 1) > Written(pages, writes, graphicReady, i)
    requires Written(pages, writes, graphicReady, k + 1) > Written(pages, writes, graphicReady, k)
    ensures PageAfter(pages, writes, graphicReady, i).outputIndex < PageAfter(pages, writes, graphicReady,
              k).outputIndex
  {
    WrittenRises(pages, writes, graphicReady, i + 1, k);
  }

  /** A page is written iff it has the format and is in its place or can be copied there, or has
      another format and can be converted, or copied where there is no converter.  It is then the
      next output; otherwise it keeps its file and the numbers do not move. */
  lemma WrittenIff(pages: seq<Page>, writes: nat -> Write, graphicReady: bool, i: nat)
    requires i < |pages|
    ensures var next := Written(pages, writes, graphicReady, i) + 1;
            var after := PageAfter(pages, writes, graphicReady, i);
            if || (pages[i].sameFormat && (pages[i].path == Enhanced(next) || writes(i).copies))
               || (!pages[i].sameFormat && graphicReady && writes(i).converts)
               || (!pages[i].sameFormat && !graphicReady && writes(i).copies)
            then after == pages[i].(path := Enhanced(next), outputIndex := next)
                 && Written(pages, writes, graphicReady, i + 1) == next
            else after == pages[i] && Written(pages, writes, graphicReady, i + 1) == next - 1
  {
  }
}
