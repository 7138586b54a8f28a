/**
 * Accumulating the items of a paginated track listing.
 *
 * The first page is always requested; while the last page received has a
 * `next` cursor, the following page is requested and its items are appended.
 * The remote service is abstracted as the sequence of pages it would serve
 * one after another.
 */
module Pagination {
  import opened SpotifyApi

  /** Some page of the listing says there is no further page, so fetching ends. */
  predicate HasFinalPage(pages: seq<Page>) {
    exists k :: 0 <= k < |pages| && !pages[k].hasNext
  }

  /** The items of `pages`, page after page, each page's items in their own order. */
  function ItemsOf(pages: seq<Page>): seq<Item> {
    if pages == [] then [] else ItemsOf(pages[..|pages| - 1]) + pages[|pages| - 1].items
  }

  /** How many pages are fetched: up to and including the first page without a `next` cursor. */
  function FetchedCount(pages: seq<Page>): (n: nat)
    requires HasFinalPage(pages)
    ensures 0 < n <= |pages|
    ensures !pages[n - 1].hasNext
    ensures forall j :: 0 <= j < n - 1 ==> pages[j].hasNext
  {
    if !pages[0].hasNext then 1
    else
      assert HasFinalPage(pages[1..]) by {
        var k :| 0 <= k < |pages| && !pages[k].hasNext;
        assert k != 0 && !pages[1..][k - 1].hasNext;
      }
      1 + FetchedCount(pages[1..])
  }

  /** Concatenating the items of two runs of pages is the same as taking the items of the joined run. */
  lemma {:induction false} ItemsOfAppend(a: seq<Page>, b: seq<Page>)
    ensures ItemsOf(a + b) == ItemsOf(a) + ItemsOf(b)
    decreases |b|
  {
    if b == [] {
      assert a + b == a;
    } else {
      var last := |b| - 1;
      assert (a + b)[..|a + b| - 1] == a + b[..last];
      ItemsOfAppend(a, b[..last]);
    }
  }

  /** An item is accumulated exactly when some page holds it. */
  lemma {:induction false} ItemsOfMembership(pages: seq<Page>, x: Item)
    ensures x in ItemsOf(pages) <==> exists k :: 0 <= k < |pages| && x in pages[k].items
  {
    if pages != [] {
      var init := pages[..|pages| - 1];
      ItemsOfMembership(init, x);
      if x in ItemsOf(init) {
        var k :| 0 <= k < |init| && x in init[k].items;
        assert x in pages[k].items;
      }
    }
  }

  /**
   * Requests the first page, then the next one while the current page has a
   * `next` cursor, extending the accumulated item list with each page's items.
   * Returns the accumulated items and how many pages were requested.
   */
  method FetchAll(pages: seq<Page>) returns (tracks: seq<Item>, fetched: nat)
    requires HasFinalPage(pages)
    ensures fetched == FetchedCount(pages)
    ensures tracks == ItemsOf(pages[..fetched])
  {
    var results := pages[0];
    tracks := results.items;
    fetched := 1;
    assert pages[..1] == [pages[0]];
    while results.hasNext
      invariant 0 < fetched <= |pages|
      invariant results == pages[fetched - 1]
      invariant forall j :: 0 <= j < fetched - 1 ==> pages[j].hasNext
      invariant tracks == ItemsOf(pages[..fetched])
      decreases |pages| - fetched
    {
      assert fetched < |pages| by {
        var k :| 0 <= k < |pages| && !pages[k].hasNext;
        assert k >= fetched;
      }
      results := pages[fetched];
      tracks := tracks + results.items;
      fetched := fetched + 1;
      assert pages[..fetched][..fetched - 1] == pages[..fetched - 1];
    }
  }
}
