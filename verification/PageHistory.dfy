/**
 * Numbered pages whose size may change from one restart to the next: page k + 1 of a traversal is
 * fetched with the k-th size of its history, and a checkpoint remembers only the page number.
 */
module PageHistory {
  import opened Arithmetic

  /** Item i of a listing is on this page of this size. */
  predicate OnPage(i: nat, page: int, size: nat) { (page - 1) * size <= i < page * size }

  ghost predicate Fetched(sizes: seq<nat>, i: nat) {
    exists k :: 0 <= k < |sizes| && OnPage(i, k + 1, sizes[k])
  }

  ghost predicate Covers(sizes: seq<nat>, length: nat) {
    forall i: nat | i < length :: Fetched(sizes, i)
  }

  predicate Sized(sizes: seq<nat>) {
    forall k | 0 <= k < |sizes| :: sizes[k] >= 1
  }

  /** When a traversal takes a page for its last: the page is short, or the announced total is reached. */
  datatype EndRule = ShortPage | TotalCount

  predicate Ends(rule: EndRule, page: int, size: nat, length: nat) {
    match rule
    case ShortPage => page * size > length
    case TotalCount => page * size >= length
  }

  predicate Finished(rule: EndRule, sizes: seq<nat>, length: nat) {
    sizes != [] && Ends(rule, |sizes|, sizes[|sizes| - 1], length)
  }

  lemma FetchedAppend(sizes: seq<nat>, size: nat, i: nat)
    ensures Fetched(sizes + [size], i) <==> Fetched(sizes, i) || OnPage(i, |sizes| + 1, size)
  {
    var after := sizes + [size];
    if Fetched(sizes, i) {
      var k :| 0 <= k < |sizes| && OnPage(i, k + 1, sizes[k]);
      assert after[k] == sizes[k];
    }
    if OnPage(i, |sizes| + 1, size) {
      assert after[|sizes|] == size;
    }
  }

  // ---------------------------------------------------------------- the exact condition

  /** Where a page ended, within the listing, some page of the history picks up. */
  ghost predicate Tiles(sizes: seq<nat>, length: nat) {
    && (sizes == [] ==> length == 0)
    && forall k | 0 <= k < |sizes| && EndOf(sizes, k) < length :: Fetched(sizes, EndOf(sizes, k))
  }

  function EndOf(sizes: seq<nat>, k: nat): nat
    requires k < |sizes|
  {
    (k + 1) * sizes[k]
  }

  /** The pages cover a listing exactly when no page ends at an item that no page fetched. */
  lemma CoversIffTiles(sizes: seq<nat>, length: nat)
    requires Sized(sizes)
    ensures Covers(sizes, length) <==> Tiles(sizes, length)
  {
    if Covers(sizes, length) && length > 0 {
      assert Fetched(sizes, 0);
    }
    if Tiles(sizes, length) {
      forall i: nat | i < length ensures Fetched(sizes, i) {
        TiledIsFetched(sizes, length, i);
      }
    }
  }

  lemma {:induction false} TiledIsFetched(sizes: seq<nat>, length: nat, i: nat)
    requires Sized(sizes) && Tiles(sizes, length) && i < length
    ensures Fetched(sizes, i)
  {
    if i == 0 {
      assert OnPage(0, 1, sizes[0]);
    } else {
      TiledIsFetched(sizes, length, i - 1);
      var k :| 0 <= k < |sizes| && OnPage(i - 1, k + 1, sizes[k]);
      if !OnPage(i, k + 1, sizes[k]) {
        assert i == EndOf(sizes, k);
      }
    }
  }

  // ---------------------------------------------------------------- a guard to check before each page

  /** How far the pages reach: the greatest end of any. */
  function Frontier(sizes: seq<nat>): nat {
    if sizes == [] then 0
    else
      var rest, end := Frontier(sizes[..|sizes| - 1]), |sizes| * sizes[|sizes| - 1];
      if rest >= end then rest else end
  }

  /** No page starts beyond what the earlier ones reached, unless those reached the end of the listing. */
  ghost predicate StartsCovered(sizes: seq<nat>, length: nat) {
    forall k | 0 <= k < |sizes| :: PageGuard(sizes, k, length)
  }

  predicate PageGuard(sizes: seq<nat>, k: nat, length: nat)
    requires k < |sizes|
  {
    k * sizes[k] <= Frontier(sizes[..k]) || length <= Frontier(sizes[..k])
  }

  lemma {:induction false} GuardedReaches(sizes: seq<nat>, length: nat, i: nat)
    requires StartsCovered(sizes, length) && i < length && i < Frontier(sizes)
    ensures Fetched(sizes, i)
  {
    var n := |sizes| - 1;
    var rest := sizes[..n];
    assert sizes == rest + [sizes[n]];
    FetchedAppend(rest, sizes[n], i);
    if i < Frontier(rest) {
      forall k | 0 <= k < n ensures PageGuard(rest, k, length) {
        assert PageGuard(sizes, k, length) && rest[..k] == sizes[..k];
      }
      GuardedReaches(rest, length, i);
    } else {
      assert PageGuard(sizes, n, length);
      assert sizes[..n] == rest;
    }
  }

  /** If every page passes the guard, a finished traversal covers the listing. */
  lemma GuardSuffices(rule: EndRule, sizes: seq<nat>, length: nat)
    requires Finished(rule, sizes, length) && StartsCovered(sizes, length)
    ensures Covers(sizes, length)
  {
    forall i: nat | i < length ensures Fetched(sizes, i) {
      GuardedReaches(sizes, length, i);
    }
  }

  predicate NeverGrown(sizes: seq<nat>) {
    forall j, k | 0 <= j < k < |sizes| :: sizes[k] <= sizes[j]
  }

  lemma {:induction false} LastEndIsReached(sizes: seq<nat>, k: nat)
    requires k < |sizes|
    ensures EndOf(sizes, k) <= Frontier(sizes)
  {
    if k < |sizes| - 1 {
      LastEndIsReached(sizes[..|sizes| - 1], k);
    }
  }

  /** Sizes that never grow pass the guard. */
  lemma NeverGrownPasses(sizes: seq<nat>, length: nat)
    requires NeverGrown(sizes)
    ensures StartsCovered(sizes, length)
  {
    forall k | 0 <= k < |sizes| ensures PageGuard(sizes, k, length) {
      if k > 0 {
        LastEndIsReached(sizes[..k], k - 1);
        ProductGrows(sizes[k], sizes[k - 1], k);
      }
    }
  }

  predicate NeverShrunk(sizes: seq<nat>) {
    forall j, k | 0 <= j < k < |sizes| :: sizes[j] <= sizes[k]
  }

  lemma {:induction false} FrontierIsLastEnd(sizes: seq<nat>)
    requires sizes != [] && NeverShrunk(sizes)
    ensures Frontier(sizes) == EndOf(sizes, |sizes| - 1)
  {
    var n := |sizes| - 1;
    if n > 0 {
      FrontierIsLastEnd(sizes[..n]);
      ProductGrows(sizes[n - 1], sizes[n], n);
    }
  }

  /** Item i lies between two successive pages of a history that never shrinks, so no page fetched it. */
  lemma SkippedForGood(sizes: seq<nat>, k: nat, i: nat)
    requires NeverShrunk(sizes) && 0 < k < |sizes| && EndOf(sizes, k - 1) <= i < k * sizes[k]
    ensures !Fetched(sizes, i)
  {
    forall j | 0 <= j < |sizes| ensures !OnPage(i, j + 1, sizes[j]) {
      if j < k {
        assert (j + 1) * sizes[j] <= k * sizes[k - 1] by {
          ProductGrows(sizes[j], sizes[k - 1], j + 1);
          ProductGrows(j + 1, k, sizes[k - 1]);
        }
      } else {
        assert k * sizes[k] <= j * sizes[j] by {
          ProductGrows(sizes[k], sizes[j], k);
          ProductGrows(k, j, sizes[j]);
        }
      }
    }
  }

  /** Unless the size also shrinks again, the guard is exact. */
  lemma GuardIsExactUnlessShrunk(rule: EndRule, sizes: seq<nat>, length: nat)
    requires Finished(rule, sizes, length) && NeverShrunk(sizes)
    ensures Covers(sizes, length) <==> StartsCovered(sizes, length)
  {
    if StartsCovered(sizes, length) {
      GuardSuffices(rule, sizes, length);
    } else {
      var k :| 0 <= k < |sizes| && !PageGuard(sizes, k, length);
      FrontierIsLastEnd(sizes[..k]);
      SkippedForGood(sizes, k, EndOf(sizes, k - 1));
    }
  }

  /** A smaller size can go back for what a larger one skipped, so in general the guard is not necessary. */
  lemma ShrinkingMayRevisit()
    ensures var sizes := [2, 3, 1, 1, 1, 1, 1];
            Finished(ShortPage, sizes, 6) && Covers(sizes, 6) && !StartsCovered(sizes, 6)
  {
    var sizes := [2, 3, 1, 1, 1, 1, 1];
    assert OnPage(0, 1, sizes[0]) && OnPage(1, 1, sizes[0]) && OnPage(2, 3, sizes[2]);
    assert OnPage(3, 2, sizes[1]) && OnPage(4, 2, sizes[1]) && OnPage(5, 2, sizes[1]);
    assert sizes[..1] == [2];
    assert !PageGuard(sizes, 1, 6);
  }
}
