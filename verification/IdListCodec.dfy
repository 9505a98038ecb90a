/**
  Id lists as JSON text (sections 2, 5 and 6 of RFC 8259, without fractions and exponents).  The writer
  produces the compact form; the reader takes arrays of integers with any whitespace.
 */
module IdListCodec {
  import opened Wrappers
  import opened Decimal

  function Texts(ns: seq<int>): (r: seq<string>)
    ensures |r| == |ns|
  {
    if ns == [] then [] else [ToDecimal(ns[0])] + Texts(ns[1..])
  }

  function Join(parts: seq<string>): string
  {
    if parts == [] then "" else if |parts| == 1 then parts[0] else parts[0] + "," + Join(parts[1..])
  }

  function Split(s: string): (r: seq<string>)
    ensures r != []
  {
    if s == "" then [""]
    else
      var rest := Split(s[1..]);
      if s[0] == ',' then [""] + rest else [[s[0]] + rest[0]] + rest[1..]
  }

  function EncodeNumbers(ns: seq<int>): string
  {
    "[" + Join(Texts(ns)) + "]"
  }

  function EncodeIds(ids: seq<ProductId>): string
  {
    EncodeNumbers(ids)
  }

  predicate IsWhitespace(c: char)
  {
    c == ' ' || c == '\t' || c == '\n' || c == '\r'
  }

  function TrimLeft(s: string): string
  {
    if s != "" && IsWhitespace(s[0]) then TrimLeft(s[1..]) else s
  }

  function TrimRight(s: string): string
  {
    if s != "" && IsWhitespace(s[|s| - 1]) then TrimRight(s[..|s| - 1]) else s
  }

  function Trim(s: string): string
  {
    TrimRight(TrimLeft(s))
  }

  /** A JSON number without fraction or exponent: no leading zero unless it is the only digit. */
  function ParseNumber(s: string): Option<int>
  {
    var digits := if s != "" && s[0] == '-' then s[1..] else s;
    if |digits| > 1 && digits[0] == '0' then None else ParseInteger(s)
  }

  function ParseNumbers(parts: seq<string>): Option<seq<int>>
  {
    if parts == [] then Some([])
    else
      var head, tail := ParseNumber(Trim(parts[0])), ParseNumbers(parts[1..]);
      if head.None? || tail.None? then None else Some([head.value] + tail.value)
  }

  /** The JSON library's reading of a text as an array of integers. */
  function ParseArray(raw: string): Option<seq<int>>
  {
    var text := Trim(raw);
    if |text| < 2 || text[0] != '[' || text[|text| - 1] != ']' then None
    else
      var inner := text[1..|text| - 1];
      if Trim(inner) == "" then Some([]) else ParseNumbers(Split(inner))
  }

  /** One element: signed 64-bit as it is, unsigned 64-bit cast to signed, anything else refused. */
  function ElementToId(n: int): Option<ProductId>
  {
    if -INT64_LIMIT <= n < INT64_LIMIT then Some(n)
    else if 0 <= n < 2 * INT64_LIMIT then Some(n - 2 * INT64_LIMIT)
    else None
  }

  function ElementsToIds(ns: seq<int>): Option<seq<ProductId>>
  {
    if ns == [] then Some([])
    else
      var head, tail := ElementToId(ns[0]), ElementsToIds(ns[1..]);
      if head.None? || tail.None? then None else Some([head.value] + tail.value)
  }

  function DecodeIds(raw: string): Option<seq<ProductId>>
  {
    var elements := ParseArray(raw);
    if elements.None? then None else ElementsToIds(elements.value)
  }

  lemma {:induction false} ElementsToIdsAppend(ns: seq<int>, n: int)
    ensures ElementsToIds(ns + [n]) ==
            if ElementsToIds(ns).None? || ElementToId(n).None? then None
            else Some(ElementsToIds(ns).value + [ElementToId(n).value])
  {
    var longer := ns + [n];
    if ns == [] {
      assert longer == [n] && longer[1..] == [];
      assert ElementToId(n).Some? ==> [] + [ElementToId(n).value] == [ElementToId(n).value] + [];
    } else {
      assert longer[0] == ns[0] && longer[1..] == ns[1..] + [n];
      ElementsToIdsAppend(ns[1..], n);
      var head, tail, last := ElementToId(ns[0]), ElementsToIds(ns[1..]), ElementToId(n);
      if head.Some? && tail.Some? && last.Some? {
        assert [head.value] + (tail.value + [last.value]) == ([head.value] + tail.value) + [last.value];
      }
    }
  }

  lemma {:induction false} RefusedPrefix(ns: seq<int>, more: seq<int>)
    requires ElementsToIds(ns).None?
    ensures ElementsToIds(ns + more).None?
  {
    assert (ns + more)[1..] == ns[1..] + more;
    if ElementToId(ns[0]).Some? {
      RefusedPrefix(ns[1..], more);
    }
  }

  method IdsToJson(ids: seq<ProductId>) returns (text: string)
    ensures text == EncodeIds(ids)
  {
    var parts: seq<string> := [];
    for i := 0 to |ids|
      invariant parts + Texts(ids[i..]) == Texts(ids)
    {
      parts := parts + [ToDecimal(ids[i])];
      assert ids[i..][1..] == ids[i + 1..];
    }
    assert Texts(ids[|ids|..]) == [];
    assert parts + [] == parts;
    text := "[" + Join(parts) + "]";
  }

  /** Clears the output, then appends element by element and stops at the first one that is refused. */
  method JsonToIds(raw: string) returns (ok: bool, out: seq<ProductId>)
    ensures ok == DecodeIds(raw).Some?
    ensures ok ==> out == DecodeIds(raw).value
  {
    out := [];
    var elements := ParseArray(raw);
    if elements.None? {
      return false, out;
    }
    var ns := elements.value;
    for i := 0 to |ns|
      invariant ElementsToIds(ns[..i]) == Some(out)
    {
      assert ns[..i + 1] == ns[..i] + [ns[i]];
      assert ns == ns[..i + 1] + ns[i + 1..];
      ElementsToIdsAppend(ns[..i], ns[i]);
      var id := ElementToId(ns[i]);
      if id.None? {
        RefusedPrefix(ns[..i + 1], ns[i + 1..]);
        return false, out;
      }
      out := out + [id.value];
    }
    assert ns[..|ns|] == ns;
    return true, out;
  }

  lemma {:induction false} SplitFirst(head: string, rest: string)
    requires ',' !in head
    ensures Split(head + "," + rest) == [head] + Split(rest)
    ensures Split(head) == [head]
  {
    var s := head + "," + rest;
    if head == "" {
      assert s[1..] == rest;
    } else {
      assert s[1..] == head[1..] + "," + rest;
      SplitFirst(head[1..], rest);
      assert [head[0]] + head[1..] == head;
    }
  }

  lemma {:induction false} SplitJoin(parts: seq<string>)
    requires parts != [] && forall p :: p in parts ==> ',' !in p
    ensures Split(Join(parts)) == parts
  {
    assert parts == [parts[0]] + parts[1..];
    if |parts| == 1 {
      SplitFirst(parts[0], "");
    } else {
      SplitFirst(parts[0], Join(parts[1..]));
      SplitJoin(parts[1..]);
    }
  }

  lemma NumberRoundTrip(n: int)
    ensures ParseNumber(ToDecimal(n)) == Some(n)
  {
    IntegerRoundTrip(n);
    var magnitude := if n < 0 then -n else n;
    NoLeadingZero(magnitude);
    assert DigitsOf(magnitude)[0] in DigitsOf(magnitude);
    if n < 0 {
      assert ToDecimal(n)[1..] == DigitsOf(magnitude);
    }
  }

  /** A printed number begins and ends with ink and contains no comma. */
  lemma NumberText(n: int)
    ensures var s := ToDecimal(n);
      s != "" && !IsWhitespace(s[0]) && !IsWhitespace(s[|s| - 1]) && ',' !in s
  {
    var s := ToDecimal(n);
    assert s[0] in s && s[|s| - 1] in s;
  }

  lemma NothingToTrim(s: string)
    requires s != "" && !IsWhitespace(s[0]) && !IsWhitespace(s[|s| - 1])
    ensures Trim(s) == s
  {
  }

  lemma {:induction false} InkRemains(s: string)
    requires s != "" && !IsWhitespace(s[0])
    ensures TrimRight(s) != ""
  {
    if IsWhitespace(s[|s| - 1]) {
      InkRemains(s[..|s| - 1]);
    }
  }

  lemma TrimmedNumberRoundTrip(n: int)
    ensures ParseNumber(Trim(ToDecimal(n))) == Some(n) && ',' !in ToDecimal(n)
    ensures !IsWhitespace(ToDecimal(n)[0])
  {
    hide ToDecimal, Trim, ParseNumber;
    NumberText(n);
    NothingToTrim(ToDecimal(n));
    NumberRoundTrip(n);
  }

  lemma ParseNumbersStep(parts: seq<string>, ns: seq<int>, n: int)
    requires parts != [] && ParseNumber(Trim(parts[0])) == Some(n) && ParseNumbers(parts[1..]) == Some(ns)
    ensures ParseNumbers(parts) == Some([n] + ns)
  {
  }

  lemma {:induction false} TextsRoundTrip(ns: seq<int>)
    ensures ParseNumbers(Texts(ns)) == Some(ns)
    ensures forall p :: p in Texts(ns) ==> p != "" && !IsWhitespace(p[0]) && ',' !in p
  {
    hide ParseNumber, Trim, ToDecimal;
    if ns != [] {
      TrimmedNumberRoundTrip(ns[0]);
      TextsRoundTrip(ns[1..]);
      assert Texts(ns)[1..] == Texts(ns[1..]);
      ParseNumbersStep(Texts(ns), ns[1..], ns[0]);
      assert [ns[0]] + ns[1..] == ns;
    }
  }

  lemma InkOfJoin(parts: seq<string>)
    requires parts != [] && forall p :: p in parts ==> p != "" && !IsWhitespace(p[0])
    ensures Trim(Join(parts)) != ""
  {
    assert parts[0] in parts;
    InkRemains(Join(parts));
  }

  /** Any list of integers, of whatever size, is read back as an array. */
  lemma ArrayRoundTrip(ns: seq<int>)
    ensures ParseArray(EncodeNumbers(ns)) == Some(ns)
  {
    hide Texts, Join, Split, ParseNumbers, Trim;
    TextsRoundTrip(ns);
    var text := EncodeNumbers(ns);
    NothingToTrim(text);
    assert text[1..|text| - 1] == Join(Texts(ns));
    if ns == [] {
      NoTexts();
    } else {
      SplitJoin(Texts(ns));
      InkOfJoin(Texts(ns));
    }
  }

  lemma NoTexts()
    ensures Texts([]) == [] && Join([]) == "" && Trim("") == ""
  {
  }

  /** The id a number is stored as: signed 64-bit as it is, unsigned 64-bit less two to the 64. */
  predicate IsReadAs(n: int, id: ProductId)
  {
    id == if n < 0x8000_0000_0000_0000 then n else n - 0x1_0000_0000_0000_0000
  }

  lemma {:induction false} ElementsIff(ns: seq<int>)
    ensures ElementsToIds(ns).Some? <==>
            forall k :: 0 <= k < |ns| ==> -0x8000_0000_0000_0000 <= ns[k] < 0x1_0000_0000_0000_0000
    ensures ElementsToIds(ns).Some? ==>
              && |ElementsToIds(ns).value| == |ns|
              && forall k :: 0 <= k < |ns| ==> IsReadAs(ns[k], ElementsToIds(ns).value[k])
  {
    if ns != [] {
      ElementsIff(ns[1..]);
      assert forall k :: 0 < k < |ns| ==> ns[k] == ns[1..][k - 1];
    }
  }

  /** An array of integers is refused exactly if one leaves both 64-bit ranges; unsigned numbers wrap around. */
  lemma ArrayIsReadIff(ns: seq<int>)
    ensures DecodeIds(EncodeNumbers(ns)).Some? <==>
            forall k :: 0 <= k < |ns| ==> -0x8000_0000_0000_0000 <= ns[k] < 0x1_0000_0000_0000_0000
    ensures DecodeIds(EncodeNumbers(ns)).Some? ==>
              && |DecodeIds(EncodeNumbers(ns)).value| == |ns|
              && forall k :: 0 <= k < |ns| ==> IsReadAs(ns[k], DecodeIds(EncodeNumbers(ns)).value[k])
  {
    hide EncodeNumbers, ParseArray, ElementsToIds;
    ArrayRoundTrip(ns);
    ElementsIff(ns);
  }

  /** Whatever list of 64-bit ids is stored, the same list is read back. */
  lemma IdListRoundTrip(ids: seq<ProductId>)
    ensures DecodeIds(EncodeIds(ids)) == Some(ids)
  {
    hide EncodeNumbers, ParseArray, ElementsToIds;
    ArrayIsReadIff(ids);
    assert DecodeIds(EncodeIds(ids)).value == ids;
  }

  lemma {:induction false} OneBadPart(parts: seq<string>, k: nat)
    requires k < |parts| && ParseNumber(Trim(parts[k])) == None
    ensures ParseNumbers(parts) == None
  {
    hide ParseNumber, Trim;
    if k > 0 {
      OneBadPart(parts[1..], k - 1);
    }
  }

  /** A number with a superfluous leading zero spoils the whole array. */
  lemma LeadingZeroIsRefused(parts: seq<string>, k: nat, sign: string, digits: string)
    requires k < |parts| && forall p :: p in parts ==> ',' !in p && p != "" && !IsWhitespace(p[0])
    requires sign in {"", "-"} && digits != "" && forall c :: c in digits ==> IsDigit(c)
    requires parts[k] == sign + ("0" + digits)
    ensures DecodeIds("[" + Join(parts) + "]") == None
  {
    hide Join, Split, ParseNumbers, Trim, ElementsToIds;
    var text := "[" + Join(parts) + "]";
    NothingToTrim(text);
    assert text[1..|text| - 1] == Join(parts);
    SplitJoin(parts);
    InkOfJoin(parts);
    assert digits[|digits| - 1] in digits && parts[k] in parts;
    assert parts[k][|parts[k]| - 1] == digits[|digits| - 1];
    NothingToTrim(parts[k]);
    assert sign == "-" ==> parts[k][1..] == "0" + digits;
    OneBadPart(parts, k);
  }

  // Whitespace.

  predicate IsBlankText(s: string)
  {
    forall c :: c in s ==> c in {' ', '\t', '\n', '\r'}
  }

  lemma {:induction false} TrimLeftPadding(left: string, s: string)
    requires IsBlankText(left) && s != "" && !IsWhitespace(s[0])
    ensures TrimLeft(left + s) == s
  {
    if left == "" {
      assert left + s == s;
    } else {
      assert left[0] in left && forall c :: c in left[1..] ==> c in left;
      assert (left + s)[1..] == left[1..] + s;
      TrimLeftPadding(left[1..], s);
    }
  }

  lemma {:induction false} TrimRightPadding(s: string, right: string)
    requires IsBlankText(right) && s != "" && !IsWhitespace(s[|s| - 1])
    ensures TrimRight(s + right) == s
  {
    if right == "" {
      assert s + right == s;
    } else {
      var shorter := right[..|right| - 1];
      assert right[|right| - 1] in right;
      forall c | c in shorter ensures c in {' ', '\t', '\n', '\r'} {
        assert c in right;
      }
      assert (s + right)[..|s + right| - 1] == s + shorter;
      TrimRightPadding(s, shorter);
    }
  }

  lemma TrimPadding(left: string, s: string, right: string)
    requires IsBlankText(left) && IsBlankText(right)
    requires s != "" && !IsWhitespace(s[0]) && !IsWhitespace(s[|s| - 1])
    ensures Trim(left + (s + right)) == s
  {
    assert (s + right)[0] == s[0];
    TrimLeftPadding(left, s + right);
    TrimRightPadding(s, right);
  }

  /** `part` is the number with whitespace around it. */
  ghost predicate IsPadded(part: string, n: int)
  {
    exists left, right :: IsBlankText(left) && IsBlankText(right) && part == left + (ToDecimal(n) + right)
  }

  lemma PaddedNumber(part: string, n: int)
    requires IsPadded(part, n)
    ensures Trim(part) == ToDecimal(n) && ',' !in part
  {
    hide ToDecimal, Trim;
    var left, right :| IsBlankText(left) && IsBlankText(right) && part == left + (ToDecimal(n) + right);
    NumberText(n);
    TrimPadding(left, ToDecimal(n), right);
  }

  lemma {:induction false} PaddedNumbers(parts: seq<string>, ns: seq<int>)
    requires |parts| == |ns| && forall k :: 0 <= k < |ns| ==> IsPadded(parts[k], ns[k])
    ensures ParseNumbers(parts) == Some(ns)
  {
    hide ParseNumber, Trim, ToDecimal, IsPadded;
    if ns != [] {
      assert IsPadded(parts[0], ns[0]);
      PaddedNumber(parts[0], ns[0]);
      NumberRoundTrip(ns[0]);
      assert forall k :: 0 <= k < |ns| - 1 ==> parts[1..][k] == parts[k + 1] && ns[1..][k] == ns[k + 1];
      PaddedNumbers(parts[1..], ns[1..]);
      ParseNumbersStep(parts, ns[1..], ns[0]);
      assert [ns[0]] + ns[1..] == ns;
    }
  }

  /** Whitespace around the array and around its numbers makes no difference. */
  lemma WhitespaceIsIgnored(before: string, parts: seq<string>, after: string, ns: seq<int>)
    requires IsBlankText(before) && IsBlankText(after) && ns != []
    requires |parts| == |ns| && forall k :: 0 <= k < |ns| ==> IsPadded(parts[k], ns[k])
    ensures DecodeIds(before + (("[" + Join(parts) + "]") + after)) == DecodeIds(EncodeNumbers(ns))
  {
    hide Join, Split, ParseNumbers, Trim, IsPadded, ElementsToIds, EncodeNumbers;
    var text := "[" + Join(parts) + "]";
    TrimPadding(before, text, after);
    assert text[1..|text| - 1] == Join(parts);
    forall p | p in parts ensures ',' !in p && Trim(p) != "" {
      var k :| 0 <= k < |parts| && parts[k] == p;
      PaddedNumber(p, ns[k]);
    }
    SplitJoin(parts);
    PaddedNumbers(parts, ns);
    JoinHasInk(parts);
    ArrayRoundTrip(ns);
  }

  lemma {:induction false} TrimIgnoresTail(s: string, tail: string)
    requires TrimLeft(s) != ""
    ensures TrimLeft(s + tail) == TrimLeft(s) + tail
  {
    if IsWhitespace(s[0]) {
      assert (s + tail)[1..] == s[1..] + tail;
      TrimIgnoresTail(s[1..], tail);
    }
  }

  lemma {:induction false} TrimLeftShape(s: string)
    ensures TrimLeft(s) != "" ==> !IsWhitespace(TrimLeft(s)[0])
  {
    if s != "" && IsWhitespace(s[0]) {
      TrimLeftShape(s[1..]);
    }
  }

  lemma JoinHasInk(parts: seq<string>)
    requires parts != [] && forall p :: p in parts ==> Trim(p) != ""
    ensures Trim(Join(parts)) != ""
  {
    var first := parts[0];
    assert first in parts;
    if |parts| > 1 {
      var tail := "," + Join(parts[1..]);
      assert Join(parts) == first + tail;
      TrimIgnoresTail(first, tail);
      TrimLeftShape(first);
      InkRemains(TrimLeft(first) + tail);
    }
  }
}
