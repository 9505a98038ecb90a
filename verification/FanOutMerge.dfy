/**
  The imperative merge: a hash map of scores filled by four loops, its entries copied to a vector in an
  arbitrary order, an in-place sort with a tie-break, and a loop that keeps the ids.  It is proved
  against the declarative ranking for every order in which the map may be enumerated.
 */
module FanOutMerge {
  import opened Wrappers
  import opened Ranking

  type Item = (ProductId, int)

  function ScoreIn(score: map<ProductId, int>, id: ProductId): int
  {
    if id in score then score[id] else 0
  }

  /** `out` is `score` with `weight` added once for every element of `vec`. */
  ghost predicate Tallied(score: map<ProductId, int>, vec: seq<ProductId>, weight: int, out: map<ProductId, int>)
  {
    && (forall id: ProductId :: id in out <==> id in score || id in vec)
    && (forall id: ProductId :: ScoreIn(out, id) == ScoreIn(score, id) + weight * Occurrences(vec, id))
  }

  lemma TallyOneMore(
    score: map<ProductId, int>, vec: seq<ProductId>, weight: int, out: map<ProductId, int>, id0: ProductId)
    requires Tallied(score, vec, weight, out)
    ensures Tallied(score, vec + [id0], weight, out[id0 := ScoreIn(out, id0) + weight])
  {
    var out', vec' := out[id0 := ScoreIn(out, id0) + weight], vec + [id0];
    forall id: ProductId ensures ScoreIn(out', id) == ScoreIn(score, id) + weight * Occurrences(vec', id) {
      var n := Occurrences(vec, id);
      if id == id0 {
        assert Occurrences(vec', id) == n + 1;
        assert weight * (n + 1) == weight * n + weight;
      } else {
        assert Occurrences(vec', id) == n;
      }
    }
  }

  /** The source's lambda `add`: one more weight for every element of the list. */
  method AddWeighted(score: map<ProductId, int>, vec: seq<ProductId>, weight: int)
    returns (out: map<ProductId, int>)
    ensures Tallied(score, vec, weight, out)
  {
    out := score;
    for i := 0 to |vec|
      invariant Tallied(score, vec[..i], weight, out)
    {
      TallyOneMore(score, vec[..i], weight, out, vec[i]);
      assert vec[..i + 1] == vec[..i] + [vec[i]];
      out := out[vec[i] := ScoreIn(out, vec[i]) + weight];
    }
    assert vec[..|vec|] == vec;
  }

  /** The comparator handed to the sort: higher score first, then smaller id. */
  predicate ItemBefore(a: Item, b: Item)
  {
    if a.1 != b.1 then a.1 > b.1 else a.0 < b.0
  }

  ghost predicate Sorted(items: seq<Item>)
  {
    forall i, j :: 0 <= i < j < |items| ==> !ItemBefore(items[j], items[i])
  }

  /** Ordered up to and including `i`, except that the item at `j` may still have to move down. */
  ghost predicate SortedExcept(items: seq<Item>, i: nat, j: nat)
    requires i < |items|
  {
    forall p, q :: 0 <= p < q <= i && q != j ==> !ItemBefore(items[q], items[p])
  }

  lemma SwapDown(items: seq<Item>, i: nat, j: nat, swapped: seq<Item>)
    requires 0 < j <= i < |items|
    requires SortedExcept(items, i, j) && ItemBefore(items[j], items[j - 1])
    requires swapped == items[j := items[j - 1]][j - 1 := items[j]]
    ensures SortedExcept(swapped, i, j - 1)
    ensures multiset(swapped) == multiset(items)
  {
    forall p, q | 0 <= p < q <= i && q != j - 1 ensures !ItemBefore(swapped[q], swapped[p]) {
      var back := (k: int) => if k == j then j - 1 else if k == j - 1 then j else k;
      assert swapped[p] == items[back(p)] && swapped[q] == items[back(q)];
    }
  }

  /** The postcondition the library sort promises, established by an in-place insertion sort. */
  method SortItems(a: array<Item>)
    modifies a
    ensures multiset(a[..]) == multiset(old(a[..]))
    ensures Sorted(a[..])
  {
    for i := 0 to a.Length
      invariant multiset(a[..]) == multiset(old(a[..]))
      invariant Sorted(a[..i])
    {
      SiftDown(a, i);
    }
    assert a[..a.Length] == a[..];
  }

  method SiftDown(a: array<Item>, i: nat)
    requires i < a.Length && Sorted(a[..i])
    modifies a
    ensures multiset(a[..]) == multiset(old(a[..]))
    ensures Sorted(a[..i + 1])
  {
    var j: nat := i;
    assert SortedExcept(a[..], i, j) by {
      assert forall k :: 0 <= k < i ==> a[..i][k] == a[..][k];
    }
    while j > 0 && ItemBefore(a[j], a[j - 1])
      invariant j <= i
      invariant multiset(a[..]) == multiset(old(a[..]))
      invariant SortedExcept(a[..], i, j)
    {
      ghost var was := a[..];
      a[j], a[j - 1] := a[j - 1], a[j];
      SwapDown(was, i, j, a[..]);
      j := j - 1;
    }
    SettledIsSorted(a[..], i, j);
  }

  /** Once the moving item is not before its predecessor, the whole prefix is sorted. */
  lemma SettledIsSorted(items: seq<Item>, i: nat, j: nat)
    requires j <= i < |items| && SortedExcept(items, i, j)
    requires j > 0 ==> !ItemBefore(items[j], items[j - 1])
    ensures Sorted(items[..i + 1])
  {
    forall p, q | 0 <= p < q <= i ensures !ItemBefore(items[q], items[p]) {
      if q == j && p < j - 1 {
        assert !ItemBefore(items[j - 1], items[p]);
      }
    }
  }

  /** The entries of the score map: one per key, each with that key's score. */
  ghost predicate ItemsOf(items: seq<Item>, score: map<ProductId, int>)
  {
    && (forall e :: e in items ==> e.0 in score && e.1 == score[e.0])
    && (forall id: ProductId :: id in score ==> (id, score[id]) in items)
    && (forall e: Item :: multiset(items)[e] <= 1)
  }

  lemma ItemsSurviveReordering(items: seq<Item>, sorted: seq<Item>, score: map<ProductId, int>)
    requires ItemsOf(items, score) && multiset(items) == multiset(sorted)
    ensures ItemsOf(sorted, score)
  {
    forall e: Item ensures e in items <==> e in sorted {
      assert e in items <==> e in multiset(items);
      assert e in sorted <==> e in multiset(sorted);
    }
  }

  /** A list in which no value occurs twice has different values at different positions. */
  lemma NoRepeats(items: seq<Item>, i: nat, j: nat)
    requires i < j < |items| && multiset(items)[items[i]] <= 1
    ensures items[i] != items[j]
  {
    assert items == items[..j] + items[j..];
    assert items[i] in items[..j] && items[j] in items[j..];
    assert multiset(items) == multiset(items[..j]) + multiset(items[j..]);
  }

  ghost predicate ScoresOf(score: map<ProductId, int>, src: Sources)
  {
    && (forall id: ProductId :: id in score <==> Mentions(src, id))
    && (forall id: ProductId :: ScoreIn(score, id) == Score(src, id))
  }

  /** Sorted entries of the score map of `src` spell the ranking of `src`. */
  lemma SortedItemsAreRanking(src: Sources, score: map<ProductId, int>, items: seq<Item>, out: seq<ProductId>)
    requires ScoresOf(score, src) && ItemsOf(items, score) && Sorted(items)
    requires |out| == |items| && forall k :: 0 <= k < |out| ==> out[k] == items[k].0
    ensures out == Rank(src)
  {
    forall i, j | 0 <= i < j < |out| ensures Before(src, out[i], out[j]) {
      NoRepeats(items, i, j);
      assert items[i] in items && items[j] in items;
      assert items[i].1 == ScoreIn(score, out[i]) && items[j].1 == ScoreIn(score, out[j]);
    }
    forall id: ProductId ensures id in out <==> Mentions(src, id) {
      if id in score {
        var k :| 0 <= k < |items| && items[k] == (id, score[id]);
        assert out[k] == id;
      }
      if id in out {
        var k :| 0 <= k < |out| && out[k] == id;
        assert items[k] in items;
      }
    }
    RankingIsUnique(src, out);
  }

  /** Copies the map's entries to an array; which key comes next is left open. */
  method CopyItems(score: map<ProductId, int>) returns (items: array<Item>)
    ensures fresh(items)
    ensures ItemsOf(items[..], score)
  {
    items := new Item[|score|](_ => (0, 0));
    var left := score.Keys;
    var n := 0;
    while left != {}
      invariant left <= score.Keys
      invariant n + |left| == items.Length
      invariant forall k :: 0 <= k < n ==> items[k].0 in score && items[k].1 == score[items[k].0]
      invariant forall k :: 0 <= k < n ==> items[k].0 !in left
      invariant forall id: ProductId :: id in score && id !in left ==> (id, score[id]) in items[..n]
      invariant forall e: Item :: multiset(items[..n])[e] <= 1
      decreases left
    {
      var id :| id in left;
      ghost var done := items[..n];
      assert (id, score[id]) !in done;
      items[n] := (id, score[id]);
      left := left - {id};
      n := n + 1;
      assert items[..n] == done + [(id, score[id])];
      assert (id, score[id]) !in multiset(done);
    }
    assert items[..n] == items[..];
  }

  /** `a` outweighs `b`: three for an occurrence in history or similar, two in popular, four in the ranked list. */
  predicate Outweighs(src: Sources, a: ProductId, b: ProductId)
  {
    var h, p, g, s := multiset(src.history), multiset(src.popular), multiset(src.gptRanked), multiset(src.similar);
    var x, y := 3 * h[a] + 2 * p[a] + 4 * g[a] + 3 * s[a], 3 * h[b] + 2 * p[b] + 4 * g[b] + 3 * s[b];
    x > y || (x == y && a < b)
  }

  /** What the ranking is, in numbers. */
  lemma RankingByWeights(src: Sources)
    ensures forall i, j :: 0 <= i < j < |Rank(src)| ==> Outweighs(src, Rank(src)[i], Rank(src)[j])
    ensures forall id: ProductId ::
              id in Rank(src) <==> id in src.history + src.popular + src.gptRanked + src.similar
  {
    forall i, j | 0 <= i < j < |Rank(src)| ensures Outweighs(src, Rank(src)[i], Rank(src)[j]) {
      assert Before(src, Rank(src)[i], Rank(src)[j]);
    }
  }

  method FanOutMerge(src: Sources) returns (out: seq<ProductId>)
    ensures out == Rank(src)
    ensures forall i, j :: 0 <= i < j < |out| ==> Outweighs(src, out[i], out[j])
    ensures forall id: ProductId :: id in out <==> id in src.history + src.popular + src.gptRanked + src.similar
  {
    var score := AddWeighted(map[], src.history, WEIGHT_HISTORY);
    score := AddWeighted(score, src.popular, WEIGHT_POPULAR);
    score := AddWeighted(score, src.gptRanked, WEIGHT_GPT);
    score := AddWeighted(score, src.similar, WEIGHT_SIMILAR);
    assert ScoresOf(score, src);

    var items := CopyItems(score);
    ghost var copied := items[..];
    SortItems(items);
    ItemsSurviveReordering(copied, items[..], score);

    out := [];
    for i := 0 to items.Length
      invariant |out| == i
      invariant forall k :: 0 <= k < i ==> out[k] == items[k].0
    {
      out := out + [items[i].0];
    }
    SortedItemsAreRanking(src, score, items[..], out);
    RankingByWeights(src);
  }
}
