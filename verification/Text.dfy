/** ASCII text as the gateway's protocol code sees it: trimming, splitting into words, searching,
    and decimal numbers, with the laws the protocol proofs rest on, and one fact about sets. */
module Text {

  datatype Option<+T> = None | Some(value: T)

  /** The kinds of character the protocol code tells apart. */
  datatype CharClass = Space | Digit | Numeric | Brace | SpaceOrBrace | Frame | Only(c: char) {
    predicate Has(c: char) {
      match this
      case Space => IsSpace(c)
      case Digit => '0' <= c <= '9'
      case Numeric => '0' <= c <= '9' || c == '-' || c == '+'
      case Brace => c == '{' || c == '}'
      case SpaceOrBrace => IsSpace(c) || c == '{' || c == '}'
      case Frame => c == '<' || c == '>' || c == ' '
      case Only(d) => c == d
    }
  }

  /** ASCII white space. */
  predicate IsSpace(c: char) {
    c == ' ' || '\t' <= c <= '\r'
  }

  /** These six. */
  lemma SpacesAre(c: char)
    ensures IsSpace(c) <==> c as int in [9, 10, 11, 12, 13, 32]
  {
  }

  /** No character of `s` is in `cut`. */
  predicate FreeOf(s: string, cut: CharClass) {
    forall k :: 0 <= k < |s| ==> !cut.Has(s[k])
  }

  /** Every character of `s` is in `cut`. */
  predicate Within(s: string, cut: CharClass) {
    forall k :: 0 <= k < |s| ==> cut.Has(s[k])
  }

  /** Neither end of `s` is in `cut`. */
  predicate BareEnds(s: string, cut: CharClass) {
    s != "" ==> !cut.Has(s[0]) && !cut.Has(s[|s| - 1])
  }

  /** A non-empty run of visible characters. */
  predicate IsWord(w: string) {
    w != "" && FreeOf(w, Space)
  }

  // ---------------------------------------------------------------- trimming

  /** `s` without its leading characters from `cut`. */
  function TrimLeft(s: string, cut: CharClass): (r: string)
    ensures r == "" || !cut.Has(r[0])
    ensures |r| <= |s|
  {
    if s != "" && cut.Has(s[0]) then TrimLeft(s[1..], cut) else s
  }

  lemma {:induction false} TrimLeftSuffix(s: string, cut: CharClass)
    ensures TrimLeft(s, cut) == s[|s| - |TrimLeft(s, cut)|..]
  {
    if s != "" && cut.Has(s[0]) {
      TrimLeftSuffix(s[1..], cut);
    }
  }

  /** `s` without its trailing characters from `cut`. */
  function TrimRight(s: string, cut: CharClass): (r: string)
    ensures |r| <= |s|
    ensures r == "" || (!cut.Has(r[|r| - 1]) && r[0] == s[0])
  {
    if s != "" && cut.Has(s[|s| - 1]) then TrimRight(s[..|s| - 1], cut) else s
  }

  function Trim(s: string, cut: CharClass): (r: string)
    ensures BareEnds(r, cut)
    ensures |r| <= |s|
    ensures !BareEnds(s, cut) ==> |r| < |s|
  {
    TrimRight(TrimLeft(s, cut), cut)
  }

  /** Trimming stops at the first character outside the cut set. */
  lemma {:induction false} TrimLeftStops(pad: string, s: string, cut: CharClass)
    requires Within(pad, cut)
    requires s == "" || !cut.Has(s[0])
    ensures TrimLeft(pad + s, cut) == s
  {
    if pad == "" {
      assert pad + s == s;
    } else {
      assert (pad + s)[1..] == pad[1..] + s;
      TrimLeftStops(pad[1..], s, cut);
    }
  }

  lemma {:induction false} TrimRightStops(s: string, pad: string, cut: CharClass)
    requires Within(pad, cut)
    requires s == "" || !cut.Has(s[|s| - 1])
    ensures TrimRight(s + pad, cut) == s
  {
    if pad == "" {
      assert s + pad == s;
    } else {
      assert (s + pad)[..|s + pad| - 1] == s + pad[..|pad| - 1];
      TrimRightStops(s, pad[..|pad| - 1], cut);
    }
  }

  /** Text with bare ends is left alone, text made of cut characters vanishes. */
  lemma TrimBare(s: string, cut: CharClass)
    requires BareEnds(s, cut)
    ensures Trim(s, cut) == s
  {
  }

  /** Padding on both sides goes, a core with bare ends stays. */
  lemma TrimExact(left: string, core: string, right: string, cut: CharClass)
    requires Within(left, cut) && Within(right, cut) && BareEnds(core, cut) && core != ""
    ensures Trim(left + core + right, cut) == core
  {
    assert left + core + right == left + (core + right);
    assert (core + right)[0] == core[0];
    TrimLeftStops(left, core + right, cut);
    TrimRightStops(core, right, cut);
  }

  /** Trimming the left of `x + y` only touches `x` when `x` holds a character outside `cut`. */
  lemma {:induction false} TrimLeftPrefix(x: string, y: string, cut: CharClass)
    requires !Within(x, cut)
    ensures TrimLeft(x + y, cut) == TrimLeft(x, cut) + y
    ensures TrimLeft(x, cut) != ""
  {
    if cut.Has(x[0]) {
      assert (x + y)[1..] == x[1..] + y;
      TrimLeftPrefix(x[1..], y, cut);
    }
  }

  // ---------------------------------------------------------------- searching

  /** `sub` occurs in `s` at position `at`. */
  predicate OccursAt(s: string, sub: string, at: int) {
    0 <= at && at + |sub| <= |s| && s[at..at + |sub|] == sub
  }

  predicate Occurs(s: string, sub: string) {
    exists at :: 0 <= at <= |s| && OccursAt(s, sub, at)
  }

  /** The first position of `sub` in `s`, or -1. */
  function Index(s: string, sub: string): (r: int)
    ensures -1 <= r <= |s|
    ensures r >= 0 ==> OccursAt(s, sub, r)
    ensures forall at :: 0 <= at < (if r >= 0 then r else |s| + 1) ==> !OccursAt(s, sub, at)
  {
    IndexFrom(s, sub, 0)
  }

  function IndexFrom(s: string, sub: string, from: nat): (r: int)
    requires from <= |s|
    ensures r == -1 || from <= r <= |s|
    ensures r >= 0 ==> OccursAt(s, sub, r)
    ensures forall at :: from <= at < (if r >= 0 then r else |s| + 1) ==> !OccursAt(s, sub, at)
    decreases |s| - from
  {
    if OccursAt(s, sub, from) then from
    else if from == |s| then -1
    else IndexFrom(s, sub, from + 1)
  }

  predicate HasPrefix(s: string, prefix: string) {
    prefix <= s
  }

  predicate HasSuffix(s: string, suffix: string) {
    |suffix| <= |s| && s[|s| - |suffix|..] == suffix
  }

  /** The first position of a character, or -1. */
  function Find(s: string, c: char): (r: int)
    ensures -1 <= r < |s|
    ensures r >= 0 ==> s[r] == c
    ensures forall k :: 0 <= k < (if r >= 0 then r else |s|) ==> s[k] != c
  {
    if s == "" then -1
    else if s[0] == c then 0
    else
      var r := Find(s[1..], c);
      assert forall k :: 0 < k < |s| ==> s[k] == s[1..][k - 1];
      if r == -1 then -1 else r + 1
  }

  lemma FindFirst(before: string, c: char, after: string)
    requires FreeOf(before, Only(c))
    ensures Find(before + [c] + after, c) == |before|
  {
    var s := before + [c] + after;
    assert s[|before|] == c;
    assert forall k :: 0 <= k < |before| ==> s[k] == before[k];
  }

  lemma OccursInMiddle(x: string, y: string, z: string, sub: string, at: nat)
    requires OccursAt(y, sub, at)
    ensures OccursAt(x + y + z, sub, |x| + at)
  {
    assert (x + y + z)[|x| + at..|x| + at + |sub|] == y[at..at + |sub|];
  }

  /** An occurrence of a word does not cover a space. */
  lemma WordAvoidsSpace(s: string, w: string, at: nat, space: nat)
    requires IsWord(w) && OccursAt(s, w, at)
    requires space < |s| && Space.Has(s[space])
    ensures space < at || at + |w| <= space
  {
    forall j | at <= j < at + |w|
      ensures !Space.Has(s[j])
    {
      assert s[j] == w[j - at];
    }
  }

  /** A word is first found where it follows a blank-ended head exactly when the head does not hold it. */
  lemma WordAfterHead(head: string, w: string, tail: string)
    requires IsWord(w) && head != "" && Space.Has(head[|head| - 1])
    ensures var at := Index(head + w + tail, w);
            if Occurs(head, w) then 0 <= at && at + |w| < |head| else at == |head|
  {
    var s := head + w + tail;
    OccursInMiddle(head, w, tail, w, 0);
    if Occurs(head, w) {
      var k :| 0 <= k <= |head| && OccursAt(head, w, k);
      OccursInPrefix(head, w + tail, w, k);
      assert head + (w + tail) == s;
      WordAvoidsSpace(head, w, k, |head| - 1);
    }
    EarlyMeansInHead(s, head, w, Index(s, w));
  }

  lemma OccursInPrefix(s: string, t: string, sub: string, at: nat)
    requires OccursAt(s, sub, at)
    ensures OccursAt(s + t, sub, at)
  {
    assert (s + t)[at..at + |sub|] == s[at..at + |sub|];
  }

  lemma EarlyMeansInHead(s: string, head: string, w: string, at: nat)
    requires IsWord(w) && head != "" && Space.Has(head[|head| - 1]) && head <= s && OccursAt(s, w, at)
    ensures at < |head| ==> at + |w| < |head| && Occurs(head, w)
  {
    WordAvoidsSpace(s, w, at, |head| - 1);
    if at < |head| {
      assert head[at..at + |w|] == s[at..at + |w|];
      assert OccursAt(head, w, at);
    }
  }

  /** An occurrence that lies in one part of a sum is an occurrence in that part. */
  lemma OccursInPart(a: string, b: string, sub: string, at: nat)
    requires OccursAt(a + b, sub, at)
    ensures at + |sub| <= |a| ==> OccursAt(a, sub, at)
    ensures at >= |a| ==> OccursAt(b, sub, at - |a|)
  {
    if at + |sub| <= |a| {
      assert (a + b)[at..at + |sub|] == a[at..at + |sub|];
    }
    if at >= |a| {
      assert (a + b)[at..at + |sub|] == b[at - |a|..at - |a| + |sub|];
    }
  }

  /** A word occurs in `left + " " + right` exactly when it occurs in one of the sides. */
  lemma WordInSides(left: string, right: string, w: string)
    requires IsWord(w)
    ensures Occurs(left + " " + right, w) <==> Occurs(left, w) || Occurs(right, w)
  {
    hide OccursAt;
    var s := left + " " + right;
    assert s == left + (" " + right) && s == "" + left + (" " + right) && s == left + " " + right + "";
    if Occurs(s, w) {
      var k :| 0 <= k <= |s| && OccursAt(s, w, k);
      assert Space.Has(s[|left|]);
      WordAvoidsSpace(s, w, k, |left|);
      OccursInPart(left, " " + right, w, k);
      OccursInPart(left + " ", right, w, k);
    }
    if Occurs(left, w) {
      var k :| 0 <= k <= |left| && OccursAt(left, w, k);
      OccursInMiddle("", left, " " + right, w, k);
    }
    if Occurs(right, w) {
      var k :| 0 <= k <= |right| && OccursAt(right, w, k);
      OccursInMiddle(left + " ", right, "", w, k);
    }
  }

  lemma DropTwice(s: string, t: string, n: nat)
    requires |t| <= |s| && t == s[|s| - |t|..] && n <= |t|
    ensures t[n..] == s[|s| - (|t| - n)..]
  {
  }

  /** An occurrence in a suffix is an occurrence in the whole. */
  lemma OccursInSuffix(s: string, t: string, sub: string, at: int)
    requires |t| <= |s| && t == s[|s| - |t|..] && OccursAt(t, sub, at)
    ensures OccursAt(s, sub, |s| - |t| + at)
  {
    assert t[at..at + |sub|] == s[|s| - |t| + at..|s| - |t| + at + |sub|];
  }

  // ---------------------------------------------------------------- words

  /** The length of the leading run of non-space characters. */
  function WordLength(s: string): (n: nat)
    ensures n <= |s| && FreeOf(s[..n], Space)
    ensures n < |s| ==> Space.Has(s[n])
  {
    if s != "" && !Space.Has(s[0]) then 1 + WordLength(s[1..]) else 0
  }

  /** The maximal runs of non-space characters, in order. */
  function Fields(s: string): seq<string>
    decreases |s|
  {
    var t := TrimLeft(s, Space);
    if t == "" then [] else
      var n := WordLength(t);
      [t[..n]] + Fields(t[n..])
  }

  lemma {:induction false} FieldIsWord(s: string, w: string)
    requires w in Fields(s)
    ensures IsWord(w)
    decreases |s|
  {
    var t := TrimLeft(s, Space);
    var n := WordLength(t);
    if w != t[..n] {
      FieldIsWord(t[n..], w);
    }
  }

  /** Every word of `s` is a substring of `s`, found at position `at`. */
  lemma {:induction false} FieldOccurs(s: string, w: string) returns (at: nat)
    requires w in Fields(s)
    ensures OccursAt(s, w, at)
    decreases |s|
  {
    var t := TrimLeft(s, Space);
    TrimLeftSuffix(s, Space);
    var n := WordLength(t);
    var rest := t[n..];
    assert Fields(s) == [t[..n]] + Fields(rest);
    if w in Fields(rest) {
      var deeper := FieldOccurs(rest, w);
      DropTwice(s, t, n);
      OccursInSuffix(s, rest, w, deeper);
      at := |s| - |rest| + deeper;
    } else {
      OccursInSuffix(s, t, w, 0);
      at := |s| - |t|;
    }
  }

  lemma FieldFound(s: string, w: string)
    requires w in Fields(s)
    ensures Index(s, w) >= 0
  {
    var at := FieldOccurs(s, w);
  }

  lemma {:induction false} WordLengthOfWord(w: string, rest: string)
    requires FreeOf(w, Space)
    requires rest == "" || Space.Has(rest[0])
    ensures WordLength(w + rest) == |w|
  {
    if w == "" {
      assert w + rest == rest;
    } else {
      assert (w + rest)[1..] == w[1..] + rest;
      WordLengthOfWord(w[1..], rest);
    }
  }

  /** A word followed by a space (or by nothing) is the first field. */
  lemma FieldsOfWord(w: string, rest: string)
    requires IsWord(w)
    requires rest == "" || Space.Has(rest[0])
    ensures Fields(w + rest) == [w] + Fields(rest)
  {
    var s := w + rest;
    assert s[0] == w[0];
    assert TrimLeft(s, Space) == s;
    WordLengthOfWord(w, rest);
    assert s[..|w|] == w && s[|w|..] == rest;
  }

  /** Leading spaces do not change the words. */
  lemma FieldsSkipSpace(c: char, s: string)
    requires Space.Has(c)
    ensures Fields([c] + s) == Fields(s)
  {
    assert ([c] + s)[1..] == s;
    assert TrimLeft([c] + s, Space) == TrimLeft(s, Space);
  }

  /** A word, a space, and more: the word comes first. */
  lemma FieldsCons(w: string, rest: string)
    requires IsWord(w)
    ensures Fields(w + " " + rest) == [w] + Fields(rest)
  {
    assert w + " " + rest == w + ([' '] + rest);
    FieldsOfWord(w, [' '] + rest);
    FieldsSkipSpace(' ', rest);
  }

  // ---------------------------------------------------------------- case

  function UpperChar(c: char): char {
    if 'a' <= c <= 'z' then ((c as int) - 32) as char else c
  }

  function LowerChar(c: char): char {
    if 'A' <= c <= 'Z' then ((c as int) + 32) as char else c
  }

  function ToUpper(s: string): string {
    seq(|s|, i requires 0 <= i < |s| => UpperChar(s[i]))
  }

  function ToLower(s: string): string {
    seq(|s|, i requires 0 <= i < |s| => LowerChar(s[i]))
  }

  /** Equality up to ASCII case. */
  predicate EqualFold(a: string, b: string) {
    ToLower(a) == ToLower(b)
  }

  /** One letter in its lower and its upper case. */
  predicate TwoCases(lower: char, upper: char) {
    'a' <= lower <= 'z' && 'A' <= upper <= 'Z' && lower as int - 'a' as int == upper as int - 'A' as int
  }

  /** Equal, but for the case of letters. */
  predicate UpToCase(s: string, t: string) {
    |s| == |t| && forall k :: 0 <= k < |s| ==> SameLetter(s[k], t[k])
  }

  predicate SameLetter(c: char, d: char) {
    c == d || TwoCases(c, d) || TwoCases(d, c)
  }

  predicate StartsUpToCase(s: string, prefix: string) {
    |prefix| <= |s| && UpToCase(s[..|prefix|], prefix)
  }

  predicate OccursUpToCase(s: string, sub: string) {
    exists at :: 0 <= at <= |s| && OccursUpToCaseAt(s, sub, at)
  }

  predicate OccursUpToCaseAt(s: string, sub: string, at: int) {
    0 <= at && at + |sub| <= |s| && UpToCase(s[at..at + |sub|], sub)
  }

  lemma LowerMeans(c: char, d: char)
    ensures LowerChar(c) == LowerChar(d) <==> SameLetter(c, d)
  {
  }

  lemma FoldMeans(a: string, b: string)
    ensures EqualFold(a, b) <==> UpToCase(a, b)
  {
    hide LowerChar, SameLetter;
    if |a| == |b| {
      forall k | 0 <= k < |a|
        ensures ToLower(a)[k] == ToLower(b)[k] <==> SameLetter(a[k], b[k])
      {
        LowerMeans(a[k], b[k]);
      }
      if UpToCase(a, b) {
        assert ToLower(a) == ToLower(b);
      }
    } else {
      assert |ToLower(a)| != |ToLower(b)|;
    }
  }

  lemma LowerOccurs(s: string, sub: string)
    ensures Index(ToLower(s), ToLower(sub)) >= 0 <==> OccursUpToCase(s, sub)
  {
    hide UpToCase, LowerChar;
    var lower, wanted := ToLower(s), ToLower(sub);
    forall at
      ensures OccursAt(lower, wanted, at) <==> OccursUpToCaseAt(s, sub, at)
    {
      if 0 <= at && at + |sub| <= |s| {
        assert lower[at..at + |sub|] == ToLower(s[at..at + |sub|]);
        FoldMeans(s[at..at + |sub|], sub);
      }
    }
  }

  lemma UpperStarts(s: string, prefix: string)
    requires ToUpper(prefix) == prefix
    ensures HasPrefix(ToUpper(s), prefix) <==> StartsUpToCase(s, prefix)
  {
    if |prefix| <= |s| {
      assert forall k :: 0 <= k < |prefix| ==> UpperChar(prefix[k]) == ToUpper(prefix)[k];
      assert forall k :: 0 <= k < |prefix| ==> ToUpper(s)[k] == UpperChar(s[k]);
      assert HasPrefix(ToUpper(s), prefix) <==> ToUpper(s)[..|prefix|] == prefix;
      assert HasPrefix(ToUpper(s), prefix) <==> forall k :: 0 <= k < |prefix| ==> UpperChar(s[k]) == prefix[k];
    }
  }

  // ---------------------------------------------------------------- numbers

  const MAX_INT: int := 0x7FFF_FFFF_FFFF_FFFF
  const MIN_INT: int := -0x8000_0000_0000_0000

  function DigitChar(d: nat): (c: char)
    requires d < 10
    ensures Digit.Has(c)
  {
    ((d + 48) as char)
  }

  function DigitValue(c: char): (d: nat)
    requires Digit.Has(c)
    ensures d < 10 && DigitChar(d) == c
  {
    (c as int) - 48
  }

  function Digits(n: nat): (s: string)
    ensures s != "" && Within(s, Digit)
  {
    if n < 10 then [DigitChar(n)] else Digits(n / 10) + [DigitChar(n % 10)]
  }

  /** The value of a digit string. */
  function DigitsValue(s: string): nat
    requires Within(s, Digit)
  {
    if s == "" then 0 else 10 * DigitsValue(s[..|s| - 1]) + DigitValue(s[|s| - 1])
  }

  function Itoa(i: int): (s: string)
    ensures s != ""
  {
    if i < 0 then "-" + Digits(-i) else Digits(i)
  }

  /** Decimal to a 64-bit integer: an optional sign, at least one digit, and a value in range. */
  function Atoi(s: string): (r: Option<int>)
    ensures r.Some? ==> s != "" && Within(s, Numeric)
  {
    var signed := s != "" && (s[0] == '-' || s[0] == '+');
    var body := if signed then s[1..] else s;
    if body == "" || !Within(body, Digit) then None
    else
      assert forall k :: 0 <= k < |s| ==> Numeric.Has(s[k]) by {
        forall k | 0 <= k < |s| ensures Numeric.Has(s[k]) {
          if signed && k > 0 { assert s[k] == body[k - 1]; }
        }
      }
      var v := if signed && s[0] == '-' then -(DigitsValue(body) as int) else DigitsValue(body);
      if MIN_INT <= v <= MAX_INT then Some(v) else None
  }

  lemma {:induction false} DigitsValueOfDigits(n: nat)
    ensures DigitsValue(Digits(n)) == n
  {
    if n < 10 {
      assert Digits(n)[..0] == "";
    } else {
      DigitsValueOfDigits(n / 10);
      assert Digits(n)[..|Digits(n)| - 1] == Digits(n / 10);
    }
  }

  lemma ItoaChars(i: int)
    ensures Within(Itoa(i), Numeric)
    ensures IsWord(Itoa(i))
  {
    var n := if i < 0 then -i else i;
    forall k | 0 <= k < |Itoa(i)|
      ensures Numeric.Has(Itoa(i)[k])
    {
      if i < 0 && k > 0 {
        assert Itoa(i)[k] == Digits(n)[k - 1];
      }
    }
  }

  /** Printing and reading a 64-bit integer are inverse. */
  lemma AtoiItoa(i: int)
    requires MIN_INT <= i <= MAX_INT
    ensures Atoi(Itoa(i)) == Some(i)
  {
    hide Digits, DigitsValue, Atoi;
    if i < 0 {
      DigitsValueOfDigits(-i);
      AtoiSigned(Digits(-i), '-');
      assert Itoa(i) == ['-'] + Digits(-i);
    } else {
      DigitsValueOfDigits(i);
      AtoiPlain(Digits(i));
    }
  }

  /** Numbers beyond 64 bits are not read, with either sign; and a plus may stand before a number. */
  lemma AtoiBounds(i: int)
    ensures Atoi(Itoa(i)).Some? <==> MIN_INT <= i <= MAX_INT
    ensures 0 <= i <= MAX_INT ==> Atoi("+" + Itoa(i)) == Some(i)
    ensures MIN_INT == -9223372036854775808 && MAX_INT == 9223372036854775807
  {
    hide Digits, DigitsValue, Atoi;
    var n := if i < 0 then -i else i;
    DigitsValueOfDigits(n);
    AtoiSigned(Digits(n), '-');
    AtoiSigned(Digits(n), '+');
    AtoiPlain(Digits(n));
    assert "-" + Digits(n) == ['-'] + Digits(n) && "+" + Digits(n) == ['+'] + Digits(n);
  }

  lemma AtoiSigned(digits: string, sign: char)
    requires digits != "" && Within(digits, Digit) && (sign == '-' || sign == '+')
    ensures var v := if sign == '-' then -(DigitsValue(digits) as int) else DigitsValue(digits);
            Atoi([sign] + digits) == if MIN_INT <= v <= MAX_INT then Some(v) else None
  {
    hide DigitsValue;
    assert ([sign] + digits)[1..] == digits;
  }

  lemma AtoiPlain(digits: string)
    requires digits != "" && Within(digits, Digit)
    ensures Atoi(digits) == if DigitsValue(digits) <= MAX_INT then Some(DigitsValue(digits)) else None
  {
    hide DigitsValue;
    assert Digit.Has(digits[0]);
  }

  /** How integers print: a minus exactly before negative ones, and no needless zero. */
  lemma ItoaShape(i: int)
    ensures Itoa(i)[0] == '-' <==> i < 0
    ensures Itoa(i)[0] == '0' <==> i == 0
    ensures i == 0 ==> Itoa(i) == "0"
    ensures i < 0 ==> Itoa(i)[1..] == Itoa(-i)
  {
    DigitsShape(if i < 0 then -i else i);
  }

  lemma {:induction false} DigitsShape(n: nat)
    ensures Digits(n)[0] == '0' <==> n == 0
    ensures Digits(n)[0] != '-'
  {
    if n >= 10 {
      DigitsShape(n / 10);
      assert Digits(n)[0] == Digits(n / 10)[0];
    }
  }

  /** Distinct integers print differently. */
  lemma ItoaInjective(i: int, j: int)
    requires Itoa(i) == Itoa(j)
    ensures i == j
  {
    ItoaValue(i);
    ItoaValue(j);
  }

  /** Reading back what Itoa printed, whatever its size. */
  function SignedValue(s: string): int {
    if s != "" && s[0] == '-' then
      if Within(s[1..], Digit) then -(DigitsValue(s[1..]) as int) else 0
    else if Within(s, Digit) then DigitsValue(s) else 0
  }

  lemma ItoaValue(i: int)
    ensures SignedValue(Itoa(i)) == i
  {
    hide Digits, DigitsValue;
    if i < 0 {
      DigitsValueOfDigits(-i);
      var d := Digits(-i);
      assert Itoa(i) == "-" + d && ("-" + d)[0] == '-' && ("-" + d)[1..] == d;
    } else {
      DigitsValueOfDigits(i);
      assert Digit.Has(Digits(i)[0]);
    }
  }

  /** A separator outside both heads makes `head + separator + tail` uniquely readable. */
  lemma SplitAtSeparator(a: string, x: string, b: string, y: string, c: char)
    requires FreeOf(a, Only(c)) && FreeOf(b, Only(c))
    requires a + [c] + x == b + [c] + y
    ensures a == b && x == y
  {
    FindFirst(a, c, x);
    FindFirst(b, c, y);
    var s := a + [c] + x;
    assert s[..|a|] == a && s[..|b|] == b;
    assert s[|a| + 1..] == x && (b + [c] + y)[|b| + 1..] == y;
  }

  // ---------------------------------------------------------------- choices and sets

  /** A strictly increasing choice of places from one on. */
  predicate Choice(at: seq<nat>, from: nat, n: nat) {
    (forall k :: 0 <= k < |at| ==> from <= at[k] < n) && forall j, k :: 0 <= j < k < |at| ==> at[j] < at[k]
  }

  /** A set that is not empty has an element to take. */
  lemma Occupied<T>(s: set<T>)
    requires s != {}
    ensures exists x :: x in s
  {
    if forall x :: x !in s {
      assert false;
    }
  }

  lemma OccupiedInts(s: set<int>)
    requires s != {}
    ensures exists x :: x in s
  {
    if forall x :: x !in s {
      assert false;
    }
  }
}
