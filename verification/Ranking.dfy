/**
  The weighted merge of the four candidate lists, specified declaratively: a ranking lists the distinct
  ids of the sources in strictly descending order of weighted multiplicity, ties by ascending id.
 */
module Ranking {
  import opened Wrappers

  const WEIGHT_HISTORY := 3
  const WEIGHT_POPULAR := 2
  const WEIGHT_GPT := 4
  const WEIGHT_SIMILAR := 3

  datatype Sources = Sources(
    history: seq<ProductId>,
    popular: seq<ProductId>,
    gptRanked: seq<ProductId>,
    similar: seq<ProductId>)

  function Occurrences(s: seq<ProductId>, id: ProductId): nat
  {
    multiset(s)[id]
  }

  function Score(src: Sources, id: ProductId): nat
  {
    WEIGHT_HISTORY * Occurrences(src.history, id) + WEIGHT_POPULAR * Occurrences(src.popular, id)
    + WEIGHT_GPT * Occurrences(src.gptRanked, id) + WEIGHT_SIMILAR * Occurrences(src.similar, id)
  }

  predicate Mentions(src: Sources, id: ProductId)
  {
    id in src.history || id in src.popular || id in src.gptRanked || id in src.similar
  }

  predicate Before(src: Sources, a: ProductId, b: ProductId)
  {
    Score(src, a) > Score(src, b) || (Score(src, a) == Score(src, b) && a < b)
  }

  ghost predicate InOrder(src: Sources, r: seq<ProductId>)
  {
    forall i, j :: 0 <= i < j < |r| ==> Before(src, r[i], r[j])
  }

  ghost predicate IsRanking(src: Sources, r: seq<ProductId>)
  {
    InOrder(src, r) && forall id: ProductId :: id in r <==> Mentions(src, id)
  }

  // A reference construction: insert every mentioned id into an ordered list.

  lemma HeadStaysFirst(src: Sources, r: seq<ProductId>, id: ProductId, rest: seq<ProductId>)
    requires InOrder(src, r) && r != [] && id != r[0] && !Before(src, id, r[0])
    requires InOrder(src, rest) && forall x: ProductId :: x in rest <==> x in r[1..] || x == id
    ensures InOrder(src, [r[0]] + rest)
    ensures forall x: ProductId :: x in [r[0]] + rest <==> x in r || x == id
  {
    hide Score;
    forall k | 0 <= k < |rest| ensures Before(src, r[0], rest[k]) {
      assert rest[k] in rest;
      if rest[k] != id {
        var m :| 0 <= m < |r[1..]| && r[1..][m] == rest[k];
        assert Before(src, r[0], r[m + 1]);
      }
    }
    assert forall x: ProductId :: x in r <==> x == r[0] || x in r[1..];
  }

  function Insert(src: Sources, r: seq<ProductId>, id: ProductId): (out: seq<ProductId>)
    requires InOrder(src, r)
    ensures InOrder(src, out)
    ensures forall x: ProductId :: x in out <==> x in r || x == id
  {
    if r == [] then [id]
    else if id == r[0] then r
    else if Before(src, id, r[0]) then [id] + r
    else
      var rest := Insert(src, r[1..], id);
      HeadStaysFirst(src, r, id, rest);
      [r[0]] + rest
  }

  function InsertAll(src: Sources, ids: seq<ProductId>): (out: seq<ProductId>)
    ensures InOrder(src, out)
    ensures forall x: ProductId :: x in out <==> x in ids
  {
    if ids == [] then []
    else Insert(src, InsertAll(src, ids[1..]), ids[0])
  }

  function Rank(src: Sources): (r: seq<ProductId>)
    ensures IsRanking(src, r)
  {
    InsertAll(src, src.history + src.popular + src.gptRanked + src.similar)
  }

  /** Two ordered lists of the same ids are the same list. */
  lemma {:induction false} OrderIsUnique(src: Sources, r: seq<ProductId>, q: seq<ProductId>)
    requires InOrder(src, r) && InOrder(src, q)
    requires forall id: ProductId :: id in r <==> id in q
    ensures r == q
  {
    assert (q != [] ==> q[0] in q && q[0] in r) && (r != [] ==> r[0] in r && r[0] in q);
    if r != [] {
      assert r[0] == q[0];
      forall id: ProductId ensures id in r[1..] <==> id in q[1..] {
        assert id in r <==> id == r[0] || id in r[1..];
        assert id in q <==> id == q[0] || id in q[1..];
      }
      OrderIsUnique(src, r[1..], q[1..]);
    }
  }

  /** `IsRanking` determines the ranking, and `Rank` is it. */
  lemma RankingIsUnique(src: Sources, r: seq<ProductId>)
    ensures IsRanking(src, r) <==> r == Rank(src)
  {
    if IsRanking(src, r) {
      OrderIsUnique(src, r, Rank(src));
    }
  }

  /** The order of the ids inside any source list is irrelevant. */
  lemma RankIgnoresListOrder(src: Sources, other: Sources)
    requires multiset(src.history) == multiset(other.history)
    requires multiset(src.popular) == multiset(other.popular)
    requires multiset(src.gptRanked) == multiset(other.gptRanked)
    requires multiset(src.similar) == multiset(other.similar)
    ensures Rank(src) == Rank(other)
  {
    var r := Rank(src);
    forall id: ProductId ensures Mentions(src, id) <==> Mentions(other, id) {
      assert id in src.history <==> id in multiset(src.history);
      assert id in src.popular <==> id in multiset(src.popular);
      assert id in src.gptRanked <==> id in multiset(src.gptRanked);
      assert id in src.similar <==> id in multiset(src.similar);
      assert id in other.history <==> id in multiset(other.history);
      assert id in other.popular <==> id in multiset(other.popular);
      assert id in other.gptRanked <==> id in multiset(other.gptRanked);
      assert id in other.similar <==> id in multiset(other.similar);
    }
    assert forall id: ProductId :: Score(src, id) == Score(other, id);
    RankingIsUnique(other, r);
  }

  /** `more` is `src` with one more occurrence of `id`, at any place in any one of the lists. */
  ghost predicate OneMore(src: Sources, more: Sources, id: ProductId)
  {
    var h, h' := multiset(src.history), multiset(more.history);
    var p, p' := multiset(src.popular), multiset(more.popular);
    var g, g' := multiset(src.gptRanked), multiset(more.gptRanked);
    var s, s' := multiset(src.similar), multiset(more.similar);
    || (h' == h + multiset{id} && p' == p && g' == g && s' == s)
    || (h' == h && p' == p + multiset{id} && g' == g && s' == s)
    || (h' == h && p' == p && g' == g + multiset{id} && s' == s)
    || (h' == h && p' == p && g' == g && s' == s + multiset{id})
  }

  lemma OneMoreEffect(src: Sources, more: Sources, id: ProductId)
    requires OneMore(src, more, id)
    ensures Score(more, id) > Score(src, id)
    ensures forall x: ProductId :: x != id ==> Score(more, x) == Score(src, x)
    ensures forall x: ProductId :: Mentions(more, x) <==> Mentions(src, x) || x == id
  {
    forall x: ProductId ensures Mentions(more, x) <==> Mentions(src, x) || x == id {
      assert x in src.history <==> x in multiset(src.history);
      assert x in src.popular <==> x in multiset(src.popular);
      assert x in src.gptRanked <==> x in multiset(src.gptRanked);
      assert x in src.similar <==> x in multiset(src.similar);
      assert x in more.history <==> x in multiset(more.history);
      assert x in more.popular <==> x in multiset(more.popular);
      assert x in more.gptRanked <==> x in multiset(more.gptRanked);
      assert x in more.similar <==> x in multiset(more.similar);
    }
  }

  function Without(r: seq<ProductId>, at: nat): seq<ProductId>
  {
    if at < |r| then r[..at] + r[at + 1..] else r
  }

  /** Dropping one position of an ordered list drops exactly one id. */
  lemma DropPosition(src: Sources, r: seq<ProductId>, at: nat)
    requires InOrder(src, r) && at < |r|
    ensures forall x: ProductId :: x in Without(r, at) <==> x in r && x != r[at]
  {
    var rest := Without(r, at);
    forall x: ProductId ensures x in rest <==> x in r && x != r[at] {
      if x in r && x != r[at] {
        var i :| 0 <= i < |r| && r[i] == x;
        assert rest[if i < at then i else i - 1] == x;
      }
      if x in rest {
        var i :| 0 <= i < |rest| && rest[i] == x;
        assert r[if i < at then i else i + 1] == x;
        assert Before(src, r[at], x) || Before(src, x, r[at]);
      }
    }
  }

  /** Two source sets that score all ids but `id` alike order them alike. */
  lemma OrderAwayFromOneId(src: Sources, more: Sources, id: ProductId, r: seq<ProductId>)
    requires forall x: ProductId :: x != id ==> Score(more, x) == Score(src, x)
    requires InOrder(more, r) && id !in r
    ensures InOrder(src, r)
  {
    forall i, j | 0 <= i < j < |r| ensures Before(src, r[i], r[j]) {
      assert r[i] in r && r[j] in r;
      assert Before(more, r[i], r[j]);
    }
  }

  lemma OthersKeepTheirOrder(src: Sources, more: Sources, r: seq<ProductId>, r': seq<ProductId>, at: nat, at': nat)
    requires InOrder(src, r) && InOrder(more, r')
    requires at' < |r'| && IsPositionOf(r, r'[at'], at)
    requires forall x: ProductId :: x != r'[at'] ==> Score(more, x) == Score(src, x)
    requires forall x: ProductId :: x in r' <==> x in r || x == r'[at']
    ensures Without(r', at') == Without(r, at)
  {
    DropPosition(more, r', at');
    if at < |r| {
      DropPosition(src, r, at);
      KeepsOrderWithout(src, r, at);
    }
    KeepsOrderWithout(more, r', at');
    OrderAwayFromOneId(src, more, r'[at'], Without(r', at'));
    assert forall x: ProductId :: x in Without(r', at') <==> x in Without(r, at);
    OrderIsUnique(src, Without(r', at'), Without(r, at));
  }

  lemma KeepsOrderWithout(src: Sources, r: seq<ProductId>, at: nat)
    requires InOrder(src, r) && at < |r|
    ensures InOrder(src, Without(r, at))
  {
  }

  /** `at` is where `id` stands in `r`, or the end of `r` when it does not occur. */
  predicate IsPositionOf(r: seq<ProductId>, id: ProductId, at: nat)
  {
    if at < |r| then r[at] == id else at == |r| && id !in r
  }

  /** An id that gains score, while all others keep theirs, keeps their ranking and moves to no later position. */
  lemma RaisedIdIsNotDemoted(src: Sources, more: Sources, at: nat, at': nat)
    requires at' < |Rank(more)|
    requires Score(more, Rank(more)[at']) >= Score(src, Rank(more)[at'])
    requires forall x: ProductId :: x != Rank(more)[at'] ==> Score(more, x) == Score(src, x)
    requires forall x: ProductId :: Mentions(more, x) <==> Mentions(src, x) || x == Rank(more)[at']
    requires IsPositionOf(Rank(src), Rank(more)[at'], at)
    ensures at' <= at
    ensures Without(Rank(more), at') == Without(Rank(src), at)
  {
    var r, r' := Rank(src), Rank(more);
    OthersKeepTheirOrder(src, more, r, r', at, at');
    if at < at' {
      assert r'[at] == Without(r', at')[at] == Without(r, at)[at];
      if at < |r| {
        StillBefore(src, more, r'[at'], r'[at]);
      }
    }
  }

  /** An id that stood before another still stands before it once its score has grown. */
  lemma StillBefore(src: Sources, more: Sources, id: ProductId, y: ProductId)
    requires Score(more, id) >= Score(src, id) && Score(more, y) == Score(src, y)
    requires Before(src, id, y)
    ensures Before(more, id, y) && !Before(more, y, id)
  {
  }

  /**
    Merge monotonicity.  One more occurrence of an id keeps the ranking of all other ids as it is, and
    the id itself does not move to a later position.
   */
  lemma OneMoreOccurrenceNeverDemotes(src: Sources, more: Sources, at: nat, at': nat)
    requires at' < |Rank(more)|
    requires OneMore(src, more, Rank(more)[at'])
    requires IsPositionOf(Rank(src), Rank(more)[at'], at)
    ensures at' <= at
    ensures Without(Rank(more), at') == Without(Rank(src), at)
  {
    hide Rank, Score, Mentions, OneMore;
    OneMoreEffect(src, more, Rank(more)[at']);
    RaisedIdIsNotDemoted(src, more, at, at');
  }

  // Which list an occurrence is in.

  datatype Channel = History | Popular | Gpt | Similar

  function ListOf(src: Sources, c: Channel): seq<ProductId>
  {
    match c
    case History => src.history
    case Popular => src.popular
    case Gpt => src.gptRanked
    case Similar => src.similar
  }

  /** One occurrence of `id` has moved from one list to another; the order inside the lists is free. */
  ghost predicate Moved(src: Sources, other: Sources, id: ProductId, from: Channel, to: Channel)
  {
    && from != to
    && multiset(ListOf(src, from)) == multiset(ListOf(other, from)) + multiset{id}
    && multiset(ListOf(other, to)) == multiset(ListOf(src, to)) + multiset{id}
    && forall c: Channel :: c != from && c != to ==> multiset(ListOf(other, c)) == multiset(ListOf(src, c))
  }

  lemma MovedMentions(src: Sources, other: Sources, id: ProductId, from: Channel, to: Channel)
    requires Moved(src, other, id, from, to)
    ensures forall x: ProductId :: Mentions(other, x) <==> Mentions(src, x)
    ensures Mentions(src, id)
  {
    forall x: ProductId
      ensures Mentions(src, x) <==> exists c: Channel :: x in multiset(ListOf(src, c))
      ensures Mentions(other, x) <==> exists c: Channel :: x in multiset(ListOf(other, c))
    {
      MentionedSomewhere(src, x);
      MentionedSomewhere(other, x);
    }
    assert id in multiset(ListOf(src, from)) && id in multiset(ListOf(other, to));
    forall x: ProductId ensures Mentions(other, x) <==> Mentions(src, x) {
      if x != id {
        assert forall c: Channel :: x in multiset(ListOf(src, c)) <==> x in multiset(ListOf(other, c));
      }
    }
  }

  lemma MentionedSomewhere(src: Sources, x: ProductId)
    ensures Mentions(src, x) <==> exists c: Channel :: x in multiset(ListOf(src, c))
  {
    assert x in multiset(ListOf(src, History)) <==> x in src.history;
    assert x in multiset(ListOf(src, Popular)) <==> x in src.popular;
    assert x in multiset(ListOf(src, Gpt)) <==> x in src.gptRanked;
    assert x in multiset(ListOf(src, Similar)) <==> x in src.similar;
  }

  lemma MovedOccurrences(
    src: Sources, other: Sources, id: ProductId, from: Channel, to: Channel, c: Channel, x: ProductId)
    requires Moved(src, other, id, from, to)
    ensures Occurrences(ListOf(other, c), x) + (if x == id && c == from then 1 else 0) ==
            Occurrences(ListOf(src, c), x) + (if x == id && c == to then 1 else 0)
  {
  }

  lemma MovedScore(src: Sources, other: Sources, id: ProductId, from: Channel, to: Channel, x: ProductId)
    requires Moved(src, other, id, from, to)
    ensures x != id ==> Score(other, x) == Score(src, x)
    ensures from == Popular || to == Gpt ==> Score(other, id) > Score(src, id)
    ensures from in {History, Similar} && to in {History, Similar} ==> Score(other, id) == Score(src, id)
  {
    hide Moved, Occurrences;
    forall c: Channel, y | y == x || y == id
      ensures Occurrences(ListOf(other, c), y) + (if y == id && c == from then 1 else 0) ==
              Occurrences(ListOf(src, c), y) + (if y == id && c == to then 1 else 0)
    {
      MovedOccurrences(src, other, id, from, to, c, y);
    }
    assert from != to by {
      MovedElsewhere(src, other, id, from, to);
    }
    assert src.history == ListOf(src, History) && other.history == ListOf(other, History);
    assert src.popular == ListOf(src, Popular) && other.popular == ListOf(other, Popular);
    assert src.gptRanked == ListOf(src, Gpt) && other.gptRanked == ListOf(other, Gpt);
    assert src.similar == ListOf(src, Similar) && other.similar == ListOf(other, Similar);
  }

  lemma MovedElsewhere(src: Sources, other: Sources, id: ProductId, from: Channel, to: Channel)
    requires Moved(src, other, id, from, to)
    ensures from != to
  {
  }

  lemma MovedScores(src: Sources, other: Sources, id: ProductId, from: Channel, to: Channel)
    requires Moved(src, other, id, from, to)
    ensures forall x: ProductId :: x != id ==> Score(other, x) == Score(src, x)
    ensures from == Popular || to == Gpt ==> Score(other, id) > Score(src, id)
    ensures from in {History, Similar} && to in {History, Similar} ==> Score(other, id) == Score(src, id)
  {
    hide Moved, Score;
    forall x: ProductId ensures x != id ==> Score(other, x) == Score(src, x) {
      MovedScore(src, other, id, from, to, x);
    }
    MovedScore(src, other, id, from, to, id);
  }

  /**
    The exchange law.  An occurrence counts least among the popular ids and most in the ranked list: when it
    moves away from the former or to the latter, its id moves to no later position, and all others keep their order.
   */
  lemma BetterListNeverDemotes(src: Sources, other: Sources, from: Channel, to: Channel, at: nat, at': nat)
    requires at' < |Rank(other)| && Moved(src, other, Rank(other)[at'], from, to)
    requires from == Popular || to == Gpt
    requires IsPositionOf(Rank(src), Rank(other)[at'], at)
    ensures at' <= at
    ensures Without(Rank(other), at') == Without(Rank(src), at)
  {
    hide Rank, Score, Mentions, Moved;
    MovedMentions(src, other, Rank(other)[at'], from, to);
    MovedScores(src, other, Rank(other)[at'], from, to);
    RaisedIdIsNotDemoted(src, other, at, at');
  }

  /** History and similar products count alike: moving an occurrence between them changes nothing. */
  lemma HistoryAndSimilarAreInterchangeable(
    src: Sources, other: Sources, id: ProductId, from: Channel, to: Channel)
    requires Moved(src, other, id, from, to) && from in {History, Similar} && to in {History, Similar}
    ensures Rank(other) == Rank(src)
  {
    hide Score, Mentions, Moved;
    MovedMentions(src, other, id, from, to);
    MovedScores(src, other, id, from, to);
    RankingIsUnique(other, Rank(src));
  }

  /** Cutting to 100 for storage and then to 50 for the answer is cutting the full ranking to 50. */
  lemma TruncatingTwice<T>(ranked: seq<T>, stored: nat, served: nat)
    requires served <= stored
    ensures TakeTop(TakeTop(ranked, stored), served) == TakeTop(ranked, served)
  {
  }

  /** No mentioned id that is left out of a truncated ranking outranks one that is served. */
  lemma OmittedNeverOutranksServed(src: Sources, limit: nat, served: ProductId, omitted: ProductId)
    requires served in TakeTop(Rank(src), limit)
    requires Mentions(src, omitted) && omitted !in TakeTop(Rank(src), limit)
    ensures Before(src, served, omitted)
    ensures |TakeTop(Rank(src), limit)| == limit
  {
    var r := Rank(src);
    assert omitted in r;
    var i :| 0 <= i < |TakeTop(r, limit)| && r[i] == served;
    var j :| 0 <= j < |r| && r[j] == omitted;
    assert forall k :: 0 <= k < |TakeTop(r, limit)| ==> r[k] in TakeTop(r, limit);
  }

  /** With the limits the service passes to its ports, no score leaves the 32-bit range of the source. */
  lemma ScoresFitInt32(src: Sources, id: ProductId)
    requires |src.history| <= 120 && |src.popular| <= 120 && |src.gptRanked| <= 100 && |src.similar| <= 60
    ensures Score(src, id) <= 1180 < 0x8000_0000
  {
    OccurrencesBounded(src.history, id);
    OccurrencesBounded(src.popular, id);
    OccurrencesBounded(src.gptRanked, id);
    OccurrencesBounded(src.similar, id);
  }

  lemma OccurrencesBounded(s: seq<ProductId>, id: ProductId)
    ensures Occurrences(s, id) <= |s|
  {
    assert |multiset(s)| == |s|;
    var all := multiset{id}[id := Occurrences(s, id)];
    assert multiset(s) == (multiset(s) - all) + all;
  }
}
