/** Sequence helpers shared by the paginated walks. */
module Seqs {

  /** The items of all pages, in page order. */
  function Concat<T>(pages: seq<seq<T>>): (r: seq<T>)
    decreases |pages|
  {
    if |pages| == 0 then [] else Concat(pages[..|pages| - 1]) + pages[|pages| - 1]
  }

  /** Walking one more page appends that page's items. */
  lemma ConcatStep<T>(pages: seq<seq<T>>, p: nat)
    requires p < |pages|
    ensures Concat(pages[..p + 1]) == Concat(pages[..p]) + pages[p]
  {
    assert pages[..p + 1][..p] == pages[..p];
  }

  function Min(a: int, b: int): (r: int)
  {
    if a <= b then a else b
  }
}
