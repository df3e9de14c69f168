/** Pagination: a list cut into consecutive pages of at most `n` items, as the
    `pstart`/`pend` loops of the slide builders do. */
module Pages {

  /** The pages `xs[0..n)`, `xs[n..2n)`, ..., the last one possibly shorter. */
  function Chunks<T>(xs: seq<T>, n: nat): seq<seq<T>>
    requires n > 0
    decreases |xs|
  {
    if |xs| == 0 then []
    else if |xs| <= n then [xs]
    else [xs[..n]] + Chunks(xs[n..], n)
  }

  /** The pages laid end to end. */
  function Flatten<T>(pages: seq<seq<T>>): seq<T> {
    if pages == [] then [] else pages[0] + Flatten(pages[1..])
  }

  lemma {:induction false} FlattenAppend<T>(a: seq<seq<T>>, b: seq<seq<T>>)
    ensures Flatten(a + b) == Flatten(a) + Flatten(b)
    decreases |a|
  {
    if a != [] {
      assert (a + b)[1..] == a[1..] + b;
      FlattenAppend(a[1..], b);
    } else {
      assert a + b == b;
    }
  }

  /** Laid end to end, the pages give back the list, in order. */
  lemma {:induction false} ChunksFlatten<T>(xs: seq<T>, n: nat)
    requires n > 0
    ensures Flatten(Chunks(xs, n)) == xs
    decreases |xs|
  {
    if |xs| > n {
      ChunksFlatten(xs[n..], n);
      assert xs == xs[..n] + xs[n..];
    }
  }

  /** `a / n` is the `q` with `q * n <= a < q * n + n`. */
  lemma DivideBy(a: int, n: int, q: int)
    requires n > 0 && q * n <= a < q * n + n
    ensures a / n == q
  {
    var r := a / n;
    var m := a % n;
    assert a == r * n + m && 0 <= m < n;
    assert (r + 1) * n == r * n + n && (q + 1) * n == q * n + n;
    if r < q {
      MulMonotone(r + 1, q, n);
    } else if r > q {
      MulMonotone(q + 1, r, n);
    }
  }

  lemma MulMonotone(a: int, b: int, n: int)
    requires a <= b && n > 0
    ensures a * n <= b * n
  {
    assert b * n - a * n == (b - a) * n;
  }

  /** There are ceil(|xs| / n) pages. */
  lemma {:induction false} ChunksCount<T>(xs: seq<T>, n: nat)
    requires n > 0
    ensures |Chunks(xs, n)| == (|xs| + n - 1) / n
    decreases |xs|
  {
    var c := |Chunks(xs, n)|;
    if |xs| > n {
      ChunksCount(xs[n..], n);
      var q := (|xs| - n + n - 1) / n;
      assert q * n <= |xs| - 1 < q * n + n;
      DivideBy(|xs| + n - 1, n, q + 1);
    } else if |xs| > 0 {
      DivideBy(|xs| + n - 1, n, 1);
    } else {
      DivideBy(n - 1, n, 0);
    }
  }

  /** Each page holds between 1 and `n` items, and every page but the last holds exactly
      `n`. */
  lemma {:induction false} ChunksSizes<T>(xs: seq<T>, n: nat)
    requires n > 0
    ensures forall i :: 0 <= i < |Chunks(xs, n)| ==> 1 <= |Chunks(xs, n)[i]| <= n
    ensures forall i :: 0 <= i < |Chunks(xs, n)| - 1 ==> |Chunks(xs, n)[i]| == n
    decreases |xs|
  {
    if |xs| > n {
      ChunksSizes(xs[n..], n);
      var rest := Chunks(xs[n..], n);
      assert Chunks(xs, n) == [xs[..n]] + rest;
      forall i | 1 <= i < |Chunks(xs, n)| ensures Chunks(xs, n)[i] == rest[i - 1] {
      }
    }
  }

  /** Page `k` is the slice that starts at `k * n`. */
  lemma ChunkAt<T>(xs: seq<T>, n: nat, k: nat)
    requires n > 0 && k * n < |xs|
    ensures k < |Chunks(xs, n)|
    ensures Chunks(xs, n)[k] == xs[k * n .. if k * n + n < |xs| then k * n + n else |xs|]
  {
    StartIsProduct(n, k);
    ChunkFrom(xs, n, k);
  }

  /** Where page `k` starts: `k` pages of `n` items before it. */
  function PageStart(n: nat, k: nat): nat {
    if k == 0 then 0 else PageStart(n, k - 1) + n
  }

  lemma {:induction false} StartIsProduct(n: nat, k: nat)
    ensures PageStart(n, k) == k * n
  {
    if k > 0 {
      StartIsProduct(n, k - 1);
      assert k * n == (k - 1) * n + n;
    }
  }

  /** `ChunkAt` with the start counted by `PageStart`, so the induction is linear. */
  lemma {:induction false} ChunkFrom<T>(xs: seq<T>, n: nat, k: nat)
    requires n > 0 && PageStart(n, k) < |xs|
    ensures k < |Chunks(xs, n)|
    ensures Chunks(xs, n)[k] == xs[PageStart(n, k) .. if PageStart(n, k) + n < |xs| then PageStart(n, k) + n else |xs|]
    decreases k
  {
    if k > 0 {
      var prev := PageStart(n, k - 1);
      assert PageStart(n, k) == prev + n;
      var ys := xs[n..];
      ChunkFrom(ys, n, k - 1);
      var page := ys[prev .. if prev + n < |ys| then prev + n else |ys|];
      assert Chunks(ys, n)[k - 1] == page;
      ShiftedPage(xs, ys, n, prev);
      LaterChunk(xs, n, k, page);
    } else if |xs| > n {
      FirstChunk(xs, n);
      assert Chunks(xs, n)[0] == xs[..n];
    } else {
      assert Chunks(xs, n) == [xs];
    }
  }

  /** Page `k - 1` of the rest is page `k` of the whole list. */
  lemma LaterChunk<T>(xs: seq<T>, n: nat, k: nat, page: seq<T>)
    requires n > 0 && k > 0 && |xs| > n
    requires k - 1 < |Chunks(xs[n..], n)| && Chunks(xs[n..], n)[k - 1] == page
    ensures k < |Chunks(xs, n)| && Chunks(xs, n)[k] == page
  {
    FirstChunk(xs, n);
  }

  /** A list longer than a page: its first page, then the pages of the rest. */
  lemma FirstChunk<T>(xs: seq<T>, n: nat)
    requires n > 0 && |xs| > n
    ensures Chunks(xs, n) == [xs[..n]] + Chunks(xs[n..], n)
  {
  }

  /** A page of the rest is the page `n` items further on in the whole list. */
  lemma ShiftedPage<T>(xs: seq<T>, ys: seq<T>, n: nat, prev: nat)
    requires n > 0 && |xs| > n && ys == xs[n..] && prev < |ys|
    ensures ys[prev .. if prev + n < |ys| then prev + n else |ys|]
      == xs[prev + n .. if prev + n + n < |xs| then prev + n + n else |xs|]
  {
  }

  /** Once `k` whole pages reach past the end, and `k - 1` did not, all pages are taken. */
  lemma AllPagesTaken<T>(xs: seq<T>, n: nat, k: nat)
    requires n > 0 && k * n >= |xs| && (k == 0 || (k - 1) * n < |xs|)
    ensures k == |Chunks(xs, n)|
  {
    ChunksCount(xs, n);
    if k > 0 {
      assert (k - 1) * n == k * n - n;
    }
    DivideBy(|xs| + n - 1, n, k);
  }

  /** Each page turned into a slide by `mk`. */
  function MapPages<T, S>(mk: seq<T> -> S, pages: seq<seq<T>>): (r: seq<S>)
    ensures |r| == |pages|
    ensures forall i :: 0 <= i < |pages| ==> r[i] == mk(pages[i])
  {
    seq(|pages|, i requires 0 <= i < |pages| => mk(pages[i]))
  }

  /** The `pstart`/`pend` loop: while items remain, the slice `[pstart, min(pend, size))`
      becomes a slide appended to `pres`, and both bounds move on by `limit`. The result
      is one slide per page of `Chunks(items, limit)`, after the slides already there. */
  method Paginate<T, S>(pres: seq<S>, items: seq<T>, limit: nat, mk: seq<T> -> S) returns (out: seq<S>)
    requires limit > 0
    ensures out == pres + MapPages(mk, Chunks(items, limit))
  {
    var size := |items|;
    var pstart := 0;
    var pend := limit;
    out := pres;
    ghost var pages := Chunks(items, limit);
    ghost var k := 0;
    while size > pstart
      invariant pstart == k * limit && pend == pstart + limit
      invariant k == 0 || (k - 1) * limit < size
      invariant k <= |pages|
      invariant out == pres + MapPages(mk, pages[..k])
      decreases size - pstart
    {
      ChunkAt(items, limit, k);
      var slide := mk(items[pstart..if pend < size then pend else size]);
      out := out + [slide];
      assert MapPages(mk, pages[..k + 1]) == MapPages(mk, pages[..k]) + [slide];
      assert (k + 1) * limit == k * limit + limit;
      pstart := pend;
      pend := pend + limit;
      k := k + 1;
    }
    AllPagesTaken(items, limit, k);
    assert pages[..k] == pages;
  }
}
