/** The string operations the template engine relies on. A Go string is a
    sequence of bytes; here it is a `string` with one `char` per byte. */
module Text {

  datatype Option<+T> = None | Some(value: T)

  // ---- searching ----

  ghost predicate OccursAt(s: string, pat: string, i: int) {
    0 <= i && i + |pat| <= |s| && s[i..i + |pat|] == pat
  }

  /** `strings.Index`: the first occurrence of `pat`, or -1. */
  function Index(s: string, pat: string): (i: int)
    ensures -1 <= i && (0 <= i ==> i + |pat| <= |s|)
  {
    if pat <= s then 0
    else if s == "" then -1
    else
      var r := Index(s[1..], pat);
      if r < 0 then -1 else r + 1
  }

  lemma {:induction false} IndexFound(s: string, pat: string)
    requires Index(s, pat) >= 0
    ensures OccursAt(s, pat, Index(s, pat))
  {
    if !(pat <= s) {
      IndexFound(s[1..], pat);
    }
  }

  /** `Index` is exactly the least occurrence. */
  lemma {:induction false} IndexIsFirst(s: string, pat: string, k: int)
    requires OccursAt(s, pat, k)
    ensures 0 <= Index(s, pat) <= k
  {
    if !(pat <= s) {
      assert k > 0 && s[1..][k - 1..k - 1 + |pat|] == pat;
      IndexIsFirst(s[1..], pat, k - 1);
    }
  }

  /** One differing character rules an occurrence out. */
  lemma {:induction false} NotAt(s: string, pat: string, k: nat, j: nat)
    requires j < |pat|
    requires k + j < |s| ==> s[k + j] != pat[j]
    ensures !OccursAt(s, pat, k)
  {
    assert k + |pat| <= |s| ==> s[k..k + |pat|][j] == s[k + j];
  }

  lemma {:induction false} NoneStartsInTail(a: string, rest: string, pat: string)
    requires a != "" && forall k :: 0 <= k < |a| ==> !OccursAt(a + rest, pat, k)
    ensures forall k :: 0 <= k < |a[1..]| ==> !OccursAt(a[1..] + rest, pat, k)
  {
    var s := a + rest;
    assert s[1..] == a[1..] + rest;
    forall k | 0 <= k < |a[1..]|
      ensures !OccursAt(a[1..] + rest, pat, k)
    {
      assert !OccursAt(s, pat, k + 1);
      assert k + 1 + |pat| <= |s| ==> s[k + 1..k + 1 + |pat|] == s[1..][k..k + |pat|];
    }
  }

  /** A prefix in which no occurrence starts can be skipped. */
  lemma {:induction false} IndexSkip(a: string, rest: string, pat: string)
    requires forall k :: 0 <= k < |a| ==> !OccursAt(a + rest, pat, k)
    ensures Index(a + rest, pat) == if Index(rest, pat) < 0 then -1 else |a| + Index(rest, pat)
  {
    if a == "" {
      assert a + rest == rest;
    } else {
      assert (a + rest)[1..] == a[1..] + rest;
      NoneStartsInTail(a, rest, pat);
      assert !OccursAt(a + rest, pat, 0);
      IndexSkip(a[1..], rest, pat);
    }
  }

  // ---- replacing ----

  /** What replacing the empty string does: `with` before every character and at the end. */
  function Interleave(s: string, with: string): string {
    if s == "" then with else with + [s[0]] + Interleave(s[1..], with)
  }

  /** `strings.ReplaceAll`: the leftmost, non-overlapping occurrences. */
  function ReplaceAll(s: string, old_: string, new_: string): string
    decreases |s|
  {
    if old_ == "" then Interleave(s, new_)
    else if s == "" then ""
    else if old_ <= s then new_ + ReplaceAll(s[|old_|..], old_, new_)
    else [s[0]] + ReplaceAll(s[1..], old_, new_)
  }

  lemma {:induction false} InterleaveAvoids(s: string, with: string, c: char)
    requires c !in s && c !in with
    ensures c !in Interleave(s, with)
  {
    if s != "" {
      InterleaveAvoids(s[1..], with, c);
    }
  }

  /** Replacing only ever produces characters of the text and of the replacement. */
  lemma {:induction false} ReplaceAllAvoids(s: string, old_: string, new_: string, c: char)
    requires c !in s && c !in new_
    ensures c !in ReplaceAll(s, old_, new_)
    decreases |s|
  {
    if old_ == "" {
      InterleaveAvoids(s, new_, c);
    } else if s == "" {
    } else if old_ <= s {
      ReplaceAllAvoids(s[|old_|..], old_, new_, c);
    } else {
      ReplaceAllAvoids(s[1..], old_, new_, c);
    }
  }

  lemma {:induction false} ReplaceAllStep(s: string, old_: string, new_: string)
    requires s != "" && old_ != "" && !OccursAt(s, old_, 0)
    ensures ReplaceAll(s, old_, new_) == [s[0]] + ReplaceAll(s[1..], old_, new_)
  {
  }

  lemma {:induction false} Regroup(a: string, b: string)
    requires a != ""
    ensures [a[0]] + (a[1..] + b) == a + b
  {
  }

  /** A prefix in which no occurrence starts is copied unchanged. */
  lemma {:induction false} ReplaceAllSkip(a: string, rest: string, old_: string, new_: string)
    requires old_ != ""
    requires forall k :: 0 <= k < |a| ==> !OccursAt(a + rest, old_, k)
    ensures ReplaceAll(a + rest, old_, new_) == a + ReplaceAll(rest, old_, new_)
  {
    if a == "" {
      assert a + rest == rest;
    } else {
      assert (a + rest)[1..] == a[1..] + rest;
      NoneStartsInTail(a, rest, old_);
      ReplaceAllSkip(a[1..], rest, old_, new_);
      ReplaceAllStep(a + rest, old_, new_);
      Regroup(a, ReplaceAll(rest, old_, new_));
    }
  }

  /** The first occurrence is replaced, and then the rest of the text. */
  lemma {:induction false} ReplaceAllFirst(a: string, old_: string, rest: string, new_: string)
    requires old_ != ""
    requires forall k :: 0 <= k < |a| ==> !OccursAt(a + old_ + rest, old_, k)
    ensures ReplaceAll(a + old_ + rest, old_, new_) == a + new_ + ReplaceAll(rest, old_, new_)
  {
    hide ReplaceAll;
    assert a + old_ + rest == a + (old_ + rest);
    ReplaceAllSkip(a, old_ + rest, old_, new_);
    ReplaceAllHere(old_, rest, new_);
    assert a + (new_ + ReplaceAll(rest, old_, new_)) == a + new_ + ReplaceAll(rest, old_, new_);
  }

  lemma {:induction false} ReplaceAllHere(old_: string, rest: string, new_: string)
    requires old_ != ""
    ensures ReplaceAll(old_ + rest, old_, new_) == new_ + ReplaceAll(rest, old_, new_)
  {
    assert (old_ + rest)[|old_|..] == rest;
  }

  /** A text without an occurrence stays as it is. */
  lemma {:induction false} ReplaceAllNone(s: string, old_: string, new_: string)
    requires old_ != "" && forall k :: 0 <= k < |s| ==> !OccursAt(s, old_, k)
    ensures ReplaceAll(s, old_, new_) == s
  {
    assert s + "" == s;
    ReplaceAllSkip(s, "", old_, new_);
  }

  /** Replacing the empty text puts the new one before every character and at the end. */
  lemma {:induction false} InterleaveMore(s: string, c: char, with: string)
    ensures Interleave("", with) == with
    ensures Interleave(s + [c], with) == Interleave(s, with) + [c] + with
  {
    if s == "" {
      assert ([] + [c])[1..] == "";
    } else {
      assert (s + [c])[1..] == s[1..] + [c];
      InterleaveMore(s[1..], c, with);
    }
  }

  // ---- spaces ----

  predicate IsSpace(c: char) { c == ' ' || '\t' <= c <= '\r' }

  function TrimLeft(s: string): string {
    if s != "" && IsSpace(s[0]) then TrimLeft(s[1..]) else s
  }

  function TrimRight(s: string): string {
    if s != "" && IsSpace(s[|s| - 1]) then TrimRight(s[..|s| - 1]) else s
  }

  /** `strings.TrimSpace`. */
  function TrimSpace(s: string): string { TrimRight(TrimLeft(s)) }

  /** The six white-space characters of ASCII, and no others. */
  lemma {:induction false} SpaceChars(c: char)
    ensures IsSpace(c) <==> c == ' ' || c == '\t' || c == '\n' || c == 11 as char || c == 12 as char || c == '\r'
  {
  }

  ghost predicate AllSpace(s: string) { forall i :: 0 <= i < |s| ==> IsSpace(s[i]) }

  lemma {:induction false} TrimLeftIs(a: string, m: string)
    requires AllSpace(a) && (m != "" ==> !IsSpace(m[0]))
    ensures TrimLeft(a + m) == m
  {
    if a == "" {
      assert a + m == m;
    } else {
      assert (a + m)[1..] == a[1..] + m;
      TrimLeftIs(a[1..], m);
    }
  }

  lemma {:induction false} TrimRightIs(m: string, b: string)
    requires AllSpace(b) && (m != "" ==> !IsSpace(m[|m| - 1]))
    ensures TrimRight(m + b) == m
  {
    if b == "" {
      assert m + b == m;
    } else {
      assert (m + b)[..|m + b| - 1] == m + b[..|b| - 1];
      TrimRightIs(m, b[..|b| - 1]);
    }
  }

  /** Trimming takes off the outer runs of white space, and nothing else. */
  lemma {:induction false} TrimSpaceIs(a: string, m: string, b: string)
    requires AllSpace(a) && AllSpace(b)
    requires m != "" ==> !IsSpace(m[0]) && !IsSpace(m[|m| - 1])
    ensures TrimSpace(a + m + b) == m
  {
    if m == "" {
      assert a + m + b == (a + b) + m;
      TrimLeftIs(a + b, m);
    } else {
      assert a + m + b == a + (m + b);
      TrimLeftIs(a, m + b);
      TrimRightIs(m, b);
    }
  }

  /** What is left by trimming is the text without its outer runs, and neither starts nor
      ends with white space; so the lemma above covers every text. */
  lemma {:induction false} TrimSpaceSplits(s: string) returns (a: string, b: string)
    ensures s == a + TrimSpace(s) + b && AllSpace(a) && AllSpace(b)
    ensures var m := TrimSpace(s); m != "" ==> !IsSpace(m[0]) && !IsSpace(m[|m| - 1])
  {
    a := LeftRun(s);
    b := RightRun(TrimLeft(s));
    assert TrimLeft(s) != "" && TrimSpace(s) != "" ==> TrimSpace(s)[0] == TrimLeft(s)[0];
    assert s == a + TrimSpace(s) + b;
  }

  lemma {:induction false} LeftRun(s: string) returns (a: string)
    ensures s == a + TrimLeft(s) && AllSpace(a) && (TrimLeft(s) != "" ==> !IsSpace(TrimLeft(s)[0]))
  {
    a := "";
    if s != "" && IsSpace(s[0]) {
      var more := LeftRun(s[1..]);
      a := [s[0]] + more;
    }
  }

  lemma {:induction false} RightRun(s: string) returns (b: string)
    ensures s == TrimRight(s) + b && AllSpace(b) && (TrimRight(s) != "" ==> !IsSpace(TrimRight(s)[|TrimRight(s)| - 1]))
  {
    b := "";
    if s != "" && IsSpace(s[|s| - 1]) {
      var more := RightRun(s[..|s| - 1]);
      b := more + [s[|s| - 1]];
    }
  }

  /** A text is blank exactly when it holds nothing but white space. */
  lemma {:induction false} BlankExactly(s: string)
    ensures TrimSpace(s) == "" <==> forall c :: c in s ==> IsSpace(c)
  {
    hide TrimSpace;
    var a, b := TrimSpaceSplits(s);
    var m := TrimSpace(s);
    if m == "" {
      forall c | c in s ensures IsSpace(c) {
        var i :| 0 <= i < |s| && s[i] == c;
        assert i < |a| ==> s[i] == a[i];
        assert i >= |a| ==> s[i] == b[i - |a|];
      }
    } else {
      assert m[0] in s;
    }
  }

  function WordLength(s: string): (n: nat)
    ensures n <= |s|
    ensures s != "" && !IsSpace(s[0]) ==> n > 0
  {
    if s == "" || IsSpace(s[0]) then 0 else 1 + WordLength(s[1..])
  }

  /** `strings.Fields`: the maximal runs of non-space characters. */
  function Fields(s: string): seq<string>
    decreases |s|
  {
    if s == "" then []
    else if IsSpace(s[0]) then Fields(s[1..])
    else var n := WordLength(s); [s[..n]] + Fields(s[n..])
  }

  ghost predicate IsWord(w: string) { w != "" && forall i :: 0 <= i < |w| ==> !IsSpace(w[i]) }

  lemma {:induction false} WordLengthIs(w: string, rest: string)
    requires (forall i :: 0 <= i < |w| ==> !IsSpace(w[i])) && (rest != "" ==> IsSpace(rest[0]))
    ensures WordLength(w + rest) == |w|
  {
    if w != "" {
      assert (w + rest)[1..] == w[1..] + rest;
      WordLengthIs(w[1..], rest);
    } else {
      assert w + rest == rest;
    }
  }

  /** The first field is the first word, and the rest those of the rest; white space in
      front makes no difference; and a text without words has no fields. */
  lemma {:induction false} FieldsAre(w: string, rest: string)
    requires IsWord(w) && (rest != "" ==> IsSpace(rest[0]))
    ensures Fields(w + rest) == [w] + Fields(rest)
  {
    WordLengthIs(w, rest);
    assert (w + rest)[..|w|] == w && (w + rest)[|w|..] == rest;
    assert !IsSpace((w + rest)[0]) by { assert (w + rest)[0] == w[0]; }
  }

  lemma {:induction false} FieldsSkip(a: string, rest: string)
    requires AllSpace(a)
    ensures Fields(a + rest) == Fields(rest)
  {
    if a == "" {
      assert a + rest == rest;
    } else {
      assert (a + rest)[1..] == a[1..] + rest;
      FieldsSkip(a[1..], rest);
    }
  }

  lemma {:induction false} FieldsNone(a: string)
    requires AllSpace(a)
    ensures Fields(a) == []
  {
    FieldsSkip(a, "");
    assert a + "" == a;
  }

  // ---- numbers ----

  predicate IsDigit(c: char) { '0' <= c <= '9' }

  function DigitsValue(s: string): (r: Option<nat>)
    requires s != ""
  {
    if !IsDigit(s[|s| - 1]) then None
    else
      var d := (s[|s| - 1] - '0') as nat;
      if |s| == 1 then Some(d)
      else match DigitsValue(s[..|s| - 1])
        case None => None
        case Some(v) => Some(10 * v + d)
  }

  const MAX_INT64: int := 0x7FFF_FFFF_FFFF_FFFF

  /** `strconv.Atoi`: an optional sign, decimal digits, and a 64-bit range check. */
  function Atoi(s: string): Option<int> {
    var negative := s != "" && s[0] == '-';
    var digits := if s != "" && (s[0] == '-' || s[0] == '+') then s[1..] else s;
    if digits == "" then None
    else match DigitsValue(digits)
      case None => None
      case Some(v) =>
        var n: int := if negative then -(v as int) else v;
        if -MAX_INT64 - 1 <= n <= MAX_INT64 then Some(n) else None
  }

  function NatText(n: nat): (s: string)
    ensures s != "" && forall c :: c in s ==> IsDigit(c)
  {
    var d := '0' + (n % 10) as char;
    if n < 10 then [d] else NatText(n / 10) + [d]
  }

  /** `strconv.FormatInt(n, 10)`. */
  function IntText(n: int): string {
    if n < 0 then "-" + NatText(-n) else NatText(n)
  }

  lemma {:induction false} NatTextValue(n: nat)
    ensures DigitsValue(NatText(n)) == Some(n)
  {
    if n >= 10 {
      NatTextValue(n / 10);
      assert NatText(n)[..|NatText(n)| - 1] == NatText(n / 10);
    }
  }

  /** Formatting an integer and parsing it back is lossless on the 64-bit range. */
  lemma {:induction false} IntTextRoundTrip(n: int)
    requires -MAX_INT64 - 1 <= n <= MAX_INT64
    ensures Atoi(IntText(n)) == Some(n)
  {
    if n < 0 {
      NatTextValue(-n);
      assert IntText(n)[1..] == NatText(-n);
    } else {
      NatTextValue(n);
      assert IsDigit(IntText(n)[0]);
    }
  }

  /** A text is read as a number exactly when it is an optional sign and at least one
      decimal digit, and the number fits into 64 bits. */
  lemma {:induction false} AtoiExactly(s: string, sign: string, digits: string)
    requires s == sign + digits && (sign == "" || sign == "-" || sign == "+")
    requires digits != "" ==> digits[0] != '-' && digits[0] != '+'
    ensures Atoi(s).Some? ==> digits != "" && forall i :: 0 <= i < |digits| ==> IsDigit(digits[i])
    ensures digits != "" && (forall i :: 0 <= i < |digits| ==> IsDigit(digits[i])) ==>
              DigitsValue(digits).Some?
              && var n: int := if sign == "-" then -(DigitsValue(digits).value as int) else DigitsValue(digits).value;
                 Atoi(s) == if -0x8000_0000_0000_0000 <= n < 0x8000_0000_0000_0000 then Some(n) else None
  {
    if digits != "" {
      DigitsExactly(digits);
    }
    assert sign != "" ==> s[1..] == digits;
    assert sign == "" ==> s == digits;
  }

  lemma {:induction false} DigitsExactly(s: string)
    requires s != ""
    ensures DigitsValue(s).Some? <==> forall i :: 0 <= i < |s| ==> IsDigit(s[i])
  {
    if |s| > 1 {
      DigitsExactly(s[..|s| - 1]);
      assert forall i :: 0 <= i < |s| - 1 ==> s[..|s| - 1][i] == s[i];
    }
  }

  /** The digits of a number are ten times those before the last, and the last. */
  lemma {:induction false} DigitsOf(s: string, d: char)
    requires IsDigit(d) && s != "" && forall i :: 0 <= i < |s| ==> IsDigit(s[i])
    ensures DigitsValue(s).Some? && DigitsValue(s + [d]) == Some(10 * DigitsValue(s).value + (d as int - '0' as int))
    ensures DigitsValue([d]) == Some(d as int - '0' as int)
  {
    DigitsExactly(s);
    assert (s + [d])[..|s|] == s;
  }

  // ---- counting a character ----

  function Count(s: string, c: char): nat {
    if s == "" then 0 else (if s[0] == c then 1 else 0) + Count(s[1..], c)
  }

  /** Replacing by a word without `c` never makes another `c`. */
  lemma {:induction false} ReplaceAllCount(s: string, old_: string, new_: string, c: char)
    requires old_ != "" && Count(new_, c) == 0
    ensures Count(ReplaceAll(s, old_, new_), c) <= Count(s, c)
    decreases |s|
  {
    if s != "" {
      if old_ <= s {
        assert s == old_ + s[|old_|..];
        CountConcat(old_, s[|old_|..], c);
        CountConcat(new_, ReplaceAll(s[|old_|..], old_, new_), c);
        ReplaceAllCount(s[|old_|..], old_, new_, c);
      } else {
        ReplaceAllCount(s[1..], old_, new_, c);
      }
    }
  }

  lemma {:induction false} CountConcat(a: string, b: string, c: char)
    ensures Count(a + b, c) == Count(a, c) + Count(b, c)
  {
    if a == "" {
      assert a + b == b;
    } else {
      assert (a + b)[1..] == a[1..] + b;
      CountConcat(a[1..], b, c);
    }
  }

  lemma {:induction false} CountAbsent(s: string, c: char)
    requires c !in s
    ensures Count(s, c) == 0
  {
    if s != "" {
      CountAbsent(s[1..], c);
    }
  }

  lemma {:induction false} CountPresent(s: string, c: char)
    requires c in s
    ensures Count(s, c) > 0
  {
    if s[0] != c {
      CountPresent(s[1..], c);
    }
  }

  /** Trimming keeps a contiguous part of the text. */
  lemma {:induction false} TrimLeftSuffix(s: string)
    ensures |TrimLeft(s)| <= |s| && TrimLeft(s) == s[|s| - |TrimLeft(s)|..]
  {
    if s != "" && IsSpace(s[0]) {
      TrimLeftSuffix(s[1..]);
    }
  }

  lemma {:induction false} TrimRightPrefix(s: string)
    ensures TrimRight(s) <= s
  {
    if s != "" && IsSpace(s[|s| - 1]) {
      TrimRightPrefix(s[..|s| - 1]);
    }
  }

  lemma {:induction false} TrimSpacePart(s: string)
    ensures exists i, j :: 0 <= i <= j <= |s| && TrimSpace(s) == s[i..j]
  {
    TrimLeftSuffix(s);
    TrimRightPrefix(TrimLeft(s));
    var i := |s| - |TrimLeft(s)|;
    assert TrimSpace(s) == s[i..i + |TrimSpace(s)|];
  }

  lemma {:induction false} TrimSpaceCount(s: string, c: char)
    ensures Count(TrimSpace(s), c) <= Count(s, c)
    ensures c !in s ==> c !in TrimSpace(s)
  {
    TrimSpacePart(s);
    var i, j :| 0 <= i <= j <= |s| && TrimSpace(s) == s[i..j];
    assert s == s[..i] + (s[i..j] + s[j..]);
    CountConcat(s[..i], s[i..j] + s[j..], c);
    CountConcat(s[i..j], s[j..], c);
  }

  lemma {:induction false} WordHasNoSpace(s: string)
    ensures forall k :: 0 <= k < WordLength(s) ==> !IsSpace(s[k])
    ensures WordLength(s) < |s| ==> IsSpace(s[WordLength(s)])
  {
    if s != "" && !IsSpace(s[0]) {
      WordHasNoSpace(s[1..]);
      forall k | 0 <= k < WordLength(s) ensures !IsSpace(s[k]) {
        if k > 0 { assert s[k] == s[1..][k - 1]; }
      }
    }
  }

  /** Every field is non-empty, space-free and made of the text's characters. */
  lemma {:induction false} FieldsClean(s: string, f: string)
    requires f in Fields(s)
    ensures f != "" && (forall c :: c in f ==> c in s && !IsSpace(c))
    decreases |s|
  {
    if IsSpace(s[0]) {
      FieldsClean(s[1..], f);
    } else {
      var n := WordLength(s);
      WordHasNoSpace(s);
      if f in Fields(s[n..]) {
        FieldsClean(s[n..], f);
      }
    }
  }
}
