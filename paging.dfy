/**
 * Cursor pagination, independent of the record type: the page size, the pages
 * a loop receives from a window of records, and the facts the query loops use.
 */
module Paging {

  /** `config.GraphqlResultsPerPage`, and the local `resultsPerPage` of graphql.go. */
  const PageSize: nat := 100

  /** The first `n` records of `s`, or all of them when there are fewer: what a `first: n` query returns. */
  function Take<R>(s: seq<R>, n: nat): (r: seq<R>)
    ensures |r| == if |s| < n then |s| else n
    ensures r <= s
  {
    if |s| <= n then s else s[..n]
  }

  /**
   * The pages a loop receives when every fetch returns the first `size` records
   * still ahead of its cursor: full pages while records remain, then one short
   * page, which is empty when `size` divides the number of records.
   */
  function Pages<R>(w: seq<R>, size: nat): seq<seq<R>>
    requires size > 0
    decreases |w|
  {
    if |w| < size then [w] else [w[..size]] + Pages(w[size..], size)
  }

  function Flatten<R>(pages: seq<seq<R>>): seq<R> {
    if pages == [] then [] else pages[0] + Flatten(pages[1..])
  }

  /** The pages received so far are a prefix of the pages of the window; receiving the next one extends the prefix. */
  lemma NextPage<R>(w: seq<R>, pages: seq<seq<R>>, page: seq<R>)
    requires |pages| < |Pages(w, PageSize)| && pages == Pages(w, PageSize)[..|pages|]
    requires page == Pages(w, PageSize)[|pages|]
    ensures pages + [page] == Pages(w, PageSize)[..|pages| + 1]
    ensures |pages| + 1 == |Pages(w, PageSize)| ==> pages + [page] == Pages(w, PageSize)
  {
  }

  /** Receiving one more page extends the flattened sequence by that page. */
  lemma {:induction false} FlattenSnoc<R>(pages: seq<seq<R>>, page: seq<R>)
    ensures Flatten(pages + [page]) == Flatten(pages) + page
    decreases |pages|
  {
    if pages == [] {
      assert (pages + [page])[1..] == [];
    } else {
      assert (pages + [page])[1..] == pages[1..] + [page];
      FlattenSnoc(pages[1..], page);
    }
  }

  /** Folding the pages in arrival order visits every record of the window once, in order, whatever the page size. */
  lemma {:induction false} FlattenPages<R>(w: seq<R>, size: nat)
    requires size > 0
    ensures Flatten(Pages(w, size)) == w
    decreases |w|
  {
    if |w| >= size {
      FlattenPages(w[size..], size);
      assert w[..size] + w[size..] == w;
    }
  }

  /**
   * Every page but the last is full and the last is short, so a window of |w|
   * records takes between (|w| / size) * size and one page more: the loop fetches
   * until a fetch comes back short.
   */
  lemma {:induction false} PagesShape<R>(w: seq<R>, size: nat)
    requires size > 0
    ensures (|Pages(w, size)| - 1) * size <= |w| < |Pages(w, size)| * size
    ensures forall k :: 0 <= k < |Pages(w, size)| - 1 ==> |Pages(w, size)[k]| == size
    ensures |Pages(w, size)[|Pages(w, size)| - 1]| < size
    decreases |w|
  {
    if |w| >= size {
      var rest := w[size..];
      PagesShape(rest, size);
      var ps, n := Pages(rest, size), |Pages(rest, size)|;
      assert Pages(w, size) == [w[..size]] + ps;
      assert (n - 1) * size + size == n * size by {
        MulStep(n - 1, size);
      }
      assert n * size + size == (n + 1) * size by {
        MulStep(n, size);
      }
    }
  }

  lemma MulStep(n: int, size: int)
    ensures n * size + size == (n + 1) * size
  {
  }

  /** With the fixed page size, a window of |w| records takes |w| / PageSize + 1 fetches. */
  lemma FetchCount<R>(w: seq<R>)
    ensures |Pages(w, PageSize)| == |w| / PageSize + 1
  {
    PagesShape(w, PageSize);
  }

  /**
   * The k-th page is the first `PageSize` records from position k * PageSize on;
   * it is full exactly when it is not the last page.
   */
  lemma {:induction false} PageAt<R>(w: seq<R>, k: nat)
    requires k < |Pages(w, PageSize)|
    ensures k * PageSize <= |w|
    ensures Pages(w, PageSize)[k] == Take(w[k * PageSize..], PageSize)
    ensures |Pages(w, PageSize)[k]| == PageSize <==> k < |Pages(w, PageSize)| - 1
    decreases k
  {
    PagesShape(w, PageSize);
    if k > 0 {
      var rest := w[PageSize..];
      assert Pages(w, PageSize) == [w[..PageSize]] + Pages(rest, PageSize);
      PageAt(rest, k - 1);
      assert rest[(k - 1) * PageSize..] == w[k * PageSize..];
    }
  }

  /** Two full pages and one of 37 records: 237 records take exactly three fetches. */
  lemma TwoFullPagesThenShort<R>(w: seq<R>)
    requires |w| == 237
    ensures |Pages(w, PageSize)| == 3
    ensures |Pages(w, PageSize)[0]| == 100 && |Pages(w, PageSize)[1]| == 100 && |Pages(w, PageSize)[2]| == 37
  {
    FetchCount(w);
    PageAt(w, 0);
    PageAt(w, 1);
    PageAt(w, 2);
  }
}
