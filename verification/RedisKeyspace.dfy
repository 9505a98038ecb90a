/**
  The flat key space: six kinds of keys printed into one name space of strings.  The theorems say when
  two keys can print alike, and that the three keys of a user always fall into one hash slot.
 */
module RedisKeyspace {
  import opened Wrappers
  import opened Decimal

  datatype Key =
    | FeedKey(user: string)
    | VisitLastKey(user: string)
    | GptRankKey(user: string)
    | SimilarKey(anchor: ProductId)
    | PopularGlobalKey
    | IdempotencyKey(token: string)

  function Name(k: Key): string
  {
    match k
    case FeedKey(user) => "{rhythm:" + user + "}:feed"
    case VisitLastKey(user) => "{rhythm:" + user + "}:visit_last"
    case GptRankKey(user) => "{rhythm:" + user + "}:gpt_rank"
    case SimilarKey(anchor) => "{rhythm:similar}:" + ToDecimal(anchor)
    case PopularGlobalKey => "{rhythm}:popular_global"
    case IdempotencyKey(token) => "{rhythm:idempotency}:" + token
  }

  /** The names that the unit tests of the key space expect, and a negative anchor. */
  lemma NamesAsTested()
    ensures Name(FeedKey("u1")) == "{rhythm:u1}:feed"
    ensures Name(VisitLastKey("u1")) == "{rhythm:u1}:visit_last"
    ensures Name(GptRankKey("u1")) == "{rhythm:u1}:gpt_rank"
    ensures Name(SimilarKey(7)) == "{rhythm:similar}:7" && Name(SimilarKey(-12)) == "{rhythm:similar}:-12"
    ensures Name(PopularGlobalKey) == "{rhythm}:popular_global"
    ensures Name(IdempotencyKey("tok")) == "{rhythm:idempotency}:tok"
  {
    assert DigitsOf(12) == DigitsOf(1) + [Digit(2)];
  }

  predicate IsUserKey(k: Key)
  {
    k.FeedKey? || k.VisitLastKey? || k.GptRankKey?
  }

  function Suffix(k: Key): string
    requires IsUserKey(k)
  {
    match k
    case FeedKey(_) => "}:feed"
    case VisitLastKey(_) => "}:visit_last"
    case GptRankKey(_) => "}:gpt_rank"
  }

  predicate StartsWith(s: string, prefix: string)
  {
    |prefix| <= |s| && s[..|prefix|] == prefix
  }

  /** The user ids whose keys cannot be mistaken for a reservation. */
  predicate PlainUser(user: string)
  {
    user != "idempotency" && !StartsWith(user, "idempotency}:")
  }

  const USER_PREFIX := "{rhythm:"
  const RESERVATION_PREFIX := "{rhythm:idempotency}:"
  const SIMILAR_PREFIX := "{rhythm:similar}:"

  lemma UserKeyShape(k: Key)
    requires IsUserKey(k)
    ensures Name(k) == USER_PREFIX + k.user + Suffix(k)
    ensures Name(k) == USER_PREFIX + (k.user + Suffix(k))
  {
    Associates(USER_PREFIX, k.user, Suffix(k));
  }

  lemma Associates(a: string, b: string, c: string)
    ensures a + b + c == a + (b + c)
  {
  }

  lemma SameEnd(a: string, b: string, x: string, y: string)
    requires a + x == b + y && |x| == |y|
    ensures a == b && x == y
  {
    assert (a + x)[..|a|] == a && (b + y)[..|b|] == b;
    assert (a + x)[|a|..] == x && (b + y)[|b|..] == y;
  }

  lemma SameStart(a: string, x: string, y: string)
    requires a + x == a + y
    ensures x == y
  {
    assert (a + x)[|a|..] == x && (a + y)[|a|..] == y;
  }

  /** Keys of users: the last character tells the kind, the length of the suffix then gives the user. */
  lemma UserKeysInjective(k: Key, q: Key)
    requires IsUserKey(k) && IsUserKey(q)
    requires Name(k) == Name(q)
    ensures k == q
  {
    var n := Name(k);
    assert k.FeedKey? <==> n[|n| - 1] == 'd';
    assert k.VisitLastKey? <==> n[|n| - 1] == 't';
    assert k.GptRankKey? <==> n[|n| - 1] == 'k';
    assert q.FeedKey? <==> n[|n| - 1] == 'd';
    assert q.VisitLastKey? <==> n[|n| - 1] == 't';
    assert q.GptRankKey? <==> n[|n| - 1] == 'k';
    UserKeyShape(k);
    UserKeyShape(q);
    SameEnd(USER_PREFIX + k.user, USER_PREFIX + q.user, Suffix(k), Suffix(q));
    SameStart(USER_PREFIX, k.user, q.user);
  }

  lemma SimilarKeysInjective(a: ProductId, b: ProductId)
    requires Name(SimilarKey(a)) == Name(SimilarKey(b))
    ensures a == b
  {
    SameStart(SIMILAR_PREFIX, ToDecimal(a), ToDecimal(b));
    IntegerRoundTrip(a);
    IntegerRoundTrip(b);
  }

  /** A user key ends in a letter, a similar key in a digit or a minus sign. */
  lemma UserKeyIsNoSimilarKey(k: Key, anchor: ProductId)
    requires IsUserKey(k)
    ensures Name(k) != Name(SimilarKey(anchor))
  {
    var d := ToDecimal(anchor);
    assert d[|d| - 1] in d;
    UserKeyShape(k);
    var n, s := Name(k), Name(SimilarKey(anchor));
    assert s[|s| - 1] == d[|d| - 1];
    assert n[|n| - 1] == Suffix(k)[|Suffix(k)| - 1];
  }

  const STEM := "idempotency}:"

  lemma ReservationShape(token: string)
    ensures Name(IdempotencyKey(token)) == USER_PREFIX + (STEM + token)
  {
    Associates(USER_PREFIX, STEM, token);
    assert RESERVATION_PREFIX == USER_PREFIX + STEM;
  }

  lemma StemOfRest(user: string, suffix: string)
    requires |suffix| >= 2 && suffix[..2] == "}:" && !PlainUser(user)
    ensures |user + suffix| >= 13 && user + suffix == STEM + (user + suffix)[13..]
  {
    var rest := user + suffix;
    assert rest[..13] == if user == "idempotency" then user + suffix[..2] else user[..13];
    assert rest == rest[..13] + rest[13..];
  }

  lemma PlainRestIsNoStem(user: string, suffix: string, token: string)
    requires |suffix| >= 2 && suffix[0] == '}' && PlainUser(user)
    ensures user + suffix != STEM + token
  {
    var rest, other := user + suffix, STEM + token;
    assert other[..13] == STEM && other[..11] == "idempotency";
    if |user| >= 13 {
      assert rest[..13] == user[..13];
    } else if |user| == 12 {
      assert rest[12] == '}' && other[12] == ':';
    } else if |user| == 11 {
      assert rest[..11] == user;
    } else {
      assert rest[|user|] == '}' && other[|user|] == STEM[|user|];
    }
  }

  lemma SamePrefix(prefix: string, x: string, y: string)
    ensures prefix + x == prefix + y <==> x == y
  {
    if prefix + x == prefix + y {
      SameStart(prefix, x, y);
    }
  }

  lemma PlainUserKeyIsNoReservation(k: Key, token: string)
    requires IsUserKey(k) && PlainUser(k.user)
    ensures Name(k) != Name(IdempotencyKey(token))
  {
    UserKeyShape(k);
    ReservationShape(token);
    PlainRestIsNoStem(k.user, Suffix(k), token);
    SamePrefix(USER_PREFIX, k.user + Suffix(k), STEM + token);
  }

  lemma OtherUserKeyIsReservation(k: Key) returns (token: string)
    requires IsUserKey(k) && !PlainUser(k.user)
    ensures token != "" && Name(k) == Name(IdempotencyKey(token))
  {
    UserKeyShape(k);
    StemOfRest(k.user, Suffix(k));
    token := (k.user + Suffix(k))[13..];
    ReservationShape(token);
  }

  /**
    A user key coincides with the key of some token exactly for the user ids that are `idempotency`, or
    begin with `idempotency}:`.
   */
  lemma UserKeyMeetsReservationIff(k: Key)
    requires IsUserKey(k)
    ensures (exists token :: Name(k) == Name(IdempotencyKey(token))) <==> !PlainUser(k.user)
  {
    if PlainUser(k.user) {
      forall token ensures Name(k) != Name(IdempotencyKey(token)) {
        PlainUserKeyIsNoReservation(k, token);
      }
    } else {
      var token := OtherUserKeyIsReservation(k);
    }
  }

  /** The keys a deployment with plain user ids can use. */
  predicate Usable(k: Key)
  {
    IsUserKey(k) ==> PlainUser(k.user)
  }

  lemma PopularKeyIsAlone(k: Key)
    ensures Name(k) == Name(PopularGlobalKey) <==> k == PopularGlobalKey
  {
    if !k.PopularGlobalKey? {
      assert Name(k)[7] == ':';
      assert Name(PopularGlobalKey)[7] == '}';
    }
  }

  lemma SharedKeysInjective(k: Key, q: Key)
    requires k.SimilarKey? || k.IdempotencyKey?
    requires q.SimilarKey? || q.IdempotencyKey?
    ensures Name(k) == Name(q) ==> k == q
  {
    assert k.SimilarKey? <==> Name(k)[8] == 's';
    assert q.SimilarKey? <==> Name(q)[8] == 's';
    if Name(k) == Name(q) {
      if k.SimilarKey? {
        SimilarKeysInjective(k.anchor, q.anchor);
      } else {
        SameStart(RESERVATION_PREFIX, k.token, q.token);
      }
    }
  }

  /** The token for whose key a user key that is not plain is mistaken. */
  function MistakenToken(k: Key): string
    requires IsUserKey(k) && !PlainUser(k.user)
  {
    StemOfRest(k.user, Suffix(k));
    (k.user + Suffix(k))[|STEM|..]
  }

  predicate IsMistakenFor(k: Key, q: Key)
  {
    IsUserKey(k) && !PlainUser(k.user) && q == IdempotencyKey(MistakenToken(k))
  }

  lemma MistakenNames(k: Key, token: string)
    requires IsUserKey(k)
    ensures Name(k) == Name(IdempotencyKey(token)) <==> IsMistakenFor(k, IdempotencyKey(token))
  {
    hide Name, Suffix;
    if PlainUser(k.user) {
      PlainUserKeyIsNoReservation(k, token);
    } else {
      SuffixShape(k);
      UserKeyShape(k);
      ReservationShape(token);
      StemOfRest(k.user, Suffix(k));
      SamePrefix(USER_PREFIX, k.user + Suffix(k), STEM + token);
      SamePrefix(STEM, MistakenToken(k), token);
    }
  }

  lemma SuffixShape(k: Key)
    requires IsUserKey(k)
    ensures |Suffix(k)| >= 2 && Suffix(k)[..2] == "}:"
    ensures ['}'] + Suffix(k)[1..] == Suffix(k)
  {
  }

  /**
    The whole truth about name clashes: for arbitrary user ids, anchors and tokens two keys print alike
    exactly if they are the same key or one is a user key and the other the one token it is mistaken for.
   */
  lemma NamesCoincideIff(k: Key, q: Key)
    ensures Name(k) == Name(q) <==> k == q || IsMistakenFor(k, q) || IsMistakenFor(q, k)
  {
    hide Name;
    PopularKeyIsAlone(k);
    PopularKeyIsAlone(q);
    if IsUserKey(k) {
      if IsUserKey(q) {
        if Name(k) == Name(q) {
          UserKeysInjective(k, q);
        }
      } else if q.SimilarKey? {
        UserKeyIsNoSimilarKey(k, q.anchor);
      } else if q.IdempotencyKey? {
        MistakenNames(k, q.token);
      }
    } else if IsUserKey(q) {
      if k.SimilarKey? {
        UserKeyIsNoSimilarKey(q, k.anchor);
      } else if k.IdempotencyKey? {
        MistakenNames(q, k.token);
      }
    } else if !k.PopularGlobalKey? && !q.PopularGlobalKey? {
      SharedKeysInjective(k, q);
    }
  }

  /** No two usable keys print alike. */
  lemma UsableKeysInjective(k: Key, q: Key)
    requires Usable(k) && Usable(q)
    ensures Name(k) == Name(q) ==> k == q
  {
    NamesCoincideIff(k, q);
  }

  // Hash tags, after the section "Hash tags" of the Redis Cluster Specification.

  function IndexOf(s: string, c: char): (i: nat)
    ensures i <= |s| && c !in s[..i] && (i < |s| ==> s[i] == c)
  {
    if s == "" || s[0] == c then 0 else 1 + IndexOf(s[1..], c)
  }

  /** The part of a key that is hashed: between the first `{` and the first `}` after it, unless empty. */
  function HashTag(key: string): string
  {
    var open := IndexOf(key, '{');
    if open == |key| then key
    else
      var inner := key[open + 1..];
      var close := IndexOf(inner, '}');
      if close == |inner| || close == 0 then key else inner[..close]
  }

  lemma {:induction false} IndexOfSkips(prefix: string, s: string, c: char)
    requires c !in prefix
    ensures IndexOf(prefix + s, c) == |prefix| + IndexOf(s, c)
  {
    if prefix == "" {
      assert prefix + s == s;
    } else {
      assert (prefix + s)[1..] == prefix[1..] + s;
      IndexOfSkips(prefix[1..], s, c);
    }
  }

  lemma {:induction false} IndexOfClosed(s: string, c: char, rest: string)
    ensures IndexOf(s + [c] + rest, c) == IndexOf(s, c)
  {
    if s != "" && s[0] != c {
      assert (s + [c] + rest)[1..] == s[1..] + [c] + rest;
      IndexOfClosed(s[1..], c, rest);
    }
  }

  lemma TagOfShape(user: string, rest: string)
    ensures HashTag("{" + ("rhythm:" + (user + ['}'] + rest))) == "rhythm:" + user[..IndexOf(user, '}')]
  {
    var tail := user + ['}'] + rest;
    var inner := "rhythm:" + tail;
    var n := "{" + inner;
    assert n[1..] == inner;
    IndexOfSkips("rhythm:", tail, '}');
    IndexOfClosed(user, '}', rest);
    var at := IndexOf(user, '}');
    assert inner[..7 + at] == "rhythm:" + tail[..at];
    assert tail[..at] == user[..at];
  }

  lemma UserKeyBraces(k: Key)
    requires IsUserKey(k)
    ensures Name(k) == "{" + ("rhythm:" + (k.user + ['}'] + Suffix(k)[1..]))
  {
    hide Name, Suffix;
    UserKeyShape(k);
    SuffixShape(k);
    OpenBrace(k.user + Suffix(k));
    Associates(k.user, ['}'], Suffix(k)[1..]);
  }

  lemma OpenBrace(rest: string)
    ensures USER_PREFIX + rest == "{" + ("rhythm:" + rest)
  {
    Associates("{", "rhythm:", rest);
    assert USER_PREFIX == "{" + "rhythm:";
  }

  /** Whatever braces a user id contains, the keys of the user share the tag up to its first `}`. */
  lemma UserKeysShareHashTag(k: Key)
    requires IsUserKey(k)
    ensures HashTag(Name(k)) == "rhythm:" + k.user[..IndexOf(k.user, '}')]
  {
    var rest := Suffix(k)[1..];
    hide Name, Suffix, HashTag, IndexOf;
    UserKeyBraces(k);
    TagOfShape(k.user, rest);
  }
}
