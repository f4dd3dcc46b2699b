/** The rewriting passes of the username template engine. Each pass finds an
    opener, cuts to the next closer, evaluates what stands between, splices the
    value in, and starts again from the front. */
module Passes {
  import opened Text
  import Entropy

  type Tokens = map<string, string>

  // ---- what token values look like ----

  predicate IsPlain(s: string) {
    forall c :: c in s ==> Entropy.IsWordChar(c) || c == '-'
  }

  /** Token values come from `Sanitize`, `RandomString` and a decimal number. */
  predicate PlainTokens(tokens: Tokens) {
    forall k :: k in tokens ==> IsPlain(tokens[k])
  }

  function ResolveArg(value: string, tokens: Tokens): string {
    if value in tokens then tokens[value] else value
  }

  // ---- Sanitize ----

  const FALLBACK := "kryptic"

  function KeepWordChars(s: string): string {
    if s == "" then ""
    else (if Entropy.IsWordChar(s[0]) then [s[0]] else "") + KeepWordChars(s[1..])
  }

  function Sanitized(value: string): string {
    if TrimSpace(value) == "" || KeepWordChars(value) == "" then FALLBACK else KeepWordChars(value)
  }

  method Sanitize(value: string) returns (r: string)
    ensures r == Sanitized(value)
  {
    if TrimSpace(value) == "" {
      return FALLBACK;
    }
    var b := "";
    for i := 0 to |value|
      invariant b + KeepWordChars(value[i..]) == KeepWordChars(value)
    {
      assert value[i..][1..] == value[i + 1..];
      if Entropy.IsWordChar(value[i]) {
        b := b + [value[i]];
      }
    }
    if |b| == 0 {
      return FALLBACK;
    }
    return b;
  }

  lemma {:induction false} KeepWordCharsFacts(s: string)
    ensures forall c :: c in KeepWordChars(s) ==> Entropy.IsWordChar(c)
    ensures (forall c :: c in s ==> Entropy.IsWordChar(c)) ==> KeepWordChars(s) == s
  {
    if s != "" {
      KeepWordCharsFacts(s[1..]);
      assert s == [s[0]] + s[1..];
    }
  }

  /** A sanitized name is never empty, holds word characters only, and is stable. */
  lemma {:induction false} SanitizedIsPlain(value: string)
    ensures Sanitized(value) != ""
    ensures forall c :: c in Sanitized(value) ==> Entropy.IsWordChar(c)
    ensures Sanitized(Sanitized(value)) == Sanitized(value)
  {
    KeepWordCharsFacts(value);
    KeepWordCharsFacts(Sanitized(value));
    var s := Sanitized(value);
    assert s[0] in s && !IsSpace(s[0]);
    assert TrimLeft(s) == s;
    assert s[|s| - 1] in s && !IsSpace(s[|s| - 1]);
  }

  // ---- splitQuoted ----

  predicate IsQuote(c: char) { c == '\'' || c == '"' }

  predicate QuoteFree(s: string) { '\'' !in s && '"' !in s }

  function Flush(current: string): seq<string> {
    if current == "" then [] else [current]
  }

  /** Splitting from a state: inside quotes or not, with a word under way. */
  function SplitFrom(s: string, quoted: bool, current: string): seq<string>
    decreases |s|
  {
    if s == "" then Flush(current)
    else if IsQuote(s[0]) then SplitFrom(s[1..], !quoted, current)
    else if !quoted && IsSpace(s[0]) then Flush(current) + SplitFrom(s[1..], quoted, "")
    else SplitFrom(s[1..], quoted, current + [s[0]])
  }

  method SplitQuoted(input: string) returns (parts: seq<string>)
    ensures parts == SplitFrom(input, false, "")
  {
    parts := [];
    var current := "";
    var quoted := false;
    for i := 0 to |input|
      invariant parts + SplitFrom(input[i..], quoted, current) == SplitFrom(input, false, "")
    {
      var ch := input[i];
      assert input[i..][0] == ch && input[i..][1..] == input[i + 1..];
      if IsQuote(ch) {
        quoted := !quoted;
        continue;
      }
      if !quoted && IsSpace(ch) {
        ghost var rest := SplitFrom(input[i + 1..], quoted, "");
        assert parts + (Flush(current) + rest) == (parts + Flush(current)) + rest;
        if |current| > 0 {
          parts := parts + [current];
          current := "";
        }
        continue;
      }
      current := current + [ch];
    }
    assert input[|input|..] == "";
    if |current| > 0 {
      parts := parts + [current];
    }
  }

  /** No part holds a quote; and without quotes in the text, no part holds a space. */
  lemma {:induction false} SplitParts(s: string, quoted: bool, current: string, part: string)
    requires part in SplitFrom(s, quoted, current)
    ensures forall c :: c in part ==> c in current || (c in s && !IsQuote(c))
    ensures !quoted && QuoteFree(s) ==> forall c :: c in part ==> c in current || !IsSpace(c)
    decreases |s|
  {
    if s != "" {
      assert s == [s[0]] + s[1..];
      if IsQuote(s[0]) {
        SplitParts(s[1..], !quoted, current, part);
      } else if !quoted && IsSpace(s[0]) {
        if part !in Flush(current) {
          SplitParts(s[1..], quoted, "", part);
        }
      } else {
        SplitParts(s[1..], quoted, current + [s[0]], part);
      }
    }
  }

  /** On text without quotes, splitting is splitting into fields. */
  lemma {:induction false} SplitIsFields(s: string, current: string)
    requires QuoteFree(s)
    ensures SplitFrom(s, false, "") == Fields(s)
    ensures current != "" ==>
              SplitFrom(s, false, current) == [current + s[..WordLength(s)]] + Fields(s[WordLength(s)..])
    decreases |s|
  {
    if s != "" {
      if IsSpace(s[0]) {
        SplitIsFields(s[1..], "");
        assert s[..0] == "" && s[0..] == s && current + "" == current;
      } else {
        var n := WordLength(s[1..]);
        SplitIsFields(s[1..], [s[0]]);
        SplitIsFields(s[1..], current + [s[0]]);
        assert WordLength(s) == n + 1;
        assert [s[0]] + s[1..][..n] == s[..n + 1];
        assert s[1..][n..] == s[n + 1..];
        assert (current + [s[0]]) + s[1..][..n] == current + s[..n + 1];
        assert "" + [s[0]] == [s[0]];
      }
    } else {
      assert current + "" == current;
    }
  }

  /** Words in quotes, separated by spaces; each word chooses its own quote character. */
  function Quoted(words: seq<string>, marks: seq<char>): string
    requires |words| == |marks|
  {
    if words == [] then ""
    else [marks[0]] + words[0] + [marks[0]] + (if |words| == 1 then "" else " ") + Quoted(words[1..], marks[1..])
  }

  lemma {:induction false} SplitWord(word: string, rest: string, current: string)
    requires QuoteFree(word)
    ensures SplitFrom(word + rest, true, current) == SplitFrom(rest, true, current + word)
    decreases |word|
  {
    if word == "" {
      assert word + rest == rest && current + word == current;
    } else {
      assert (word + rest)[1..] == word[1..] + rest;
      SplitWord(word[1..], rest, current + [word[0]]);
      assert current + [word[0]] + word[1..] == current + word;
    }
  }

  lemma {:induction false} SplitQuotedWord(mark: char, word: string, rest: string)
    requires IsQuote(mark) && QuoteFree(word)
    ensures SplitFrom([mark] + word + [mark] + rest, false, "") == SplitFrom(rest, false, word)
  {
    var tail := [mark] + rest;
    assert [mark] + word + [mark] + rest == [mark] + (word + tail);
    assert ([mark] + (word + tail))[1..] == word + tail;
    assert tail[1..] == rest;
    SplitWord(word, tail, "");
    assert "" + word == word;
  }

  /** Splitting undoes quoting: any non-empty quote-free words come back, spaces and all. */
  lemma {:induction false} SplitUndoesQuoting(words: seq<string>, marks: seq<char>)
    requires |words| == |marks|
    requires forall i :: 0 <= i < |marks| ==> IsQuote(marks[i])
    requires forall i :: 0 <= i < |words| ==> words[i] != "" && QuoteFree(words[i])
    ensures SplitFrom(Quoted(words, marks), false, "") == words
  {
    if words != [] {
      var sep := if |words| == 1 then "" else " ";
      var rest := sep + Quoted(words[1..], marks[1..]);
      assert Quoted(words, marks) == [marks[0]] + words[0] + [marks[0]] + rest;
      SplitQuotedWord(marks[0], words[0], rest);
      SplitUndoesQuoting(words[1..], marks[1..]);
      if |words| == 1 {
        assert rest == "";
      } else {
        assert rest[1..] == Quoted(words[1..], marks[1..]);
        assert Flush(words[0]) == [words[0]];
      }
      assert words == [words[0]] + words[1..];
    }
  }

  // ---- finding a call ----

  /** `start` is an opener, `end` the closer it is cut at. */
  datatype Call = Call(start: nat, end: nat)

  /** The first opener, and the first closer from there on. */
  function FindCall(s: string, open: string): (r: Option<Call>) {
    var start := Index(s, open);
    if start < 0 then None
    else
      var rel := Index(s[start..], "}}");
      if rel < 0 then None else Some(Call(start, start + rel))
  }

  ghost predicate HasClosedCall(s: string, open: string) {
    exists i, j :: i <= j && OccursAt(s, open, i) && OccursAt(s, "}}", j)
  }

  lemma {:induction false} CallText(s: string, open: string)
    requires FindCall(s, open).Some?
    ensures var Call(start, end) := FindCall(s, open).value;
            start + |open| <= |s| && end + 2 <= |s|
            && s[start..start + |open|] == open && s[end..end + 2] == "}}"
  {
    var Call(start, end) := FindCall(s, open).value;
    IndexFound(s, open);
    IndexFound(s[start..], "}}");
    assert s[start..][end - start..end - start + 2] == s[end..end + 2];
  }

  /** The cut never overlaps the opener, so every slice the passes take is in bounds. */
  lemma {:induction false} CallInBounds(s: string, open: string)
    requires FindCall(s, open).Some? && '}' !in open
    ensures var Call(start, end) := FindCall(s, open).value;
            start + |open| <= end && end + 2 <= |s|
  {
    CallText(s, open);
    var Call(start, end) := FindCall(s, open).value;
    assert forall k :: start <= k < start + |open| ==> s[k] == open[k - start];
    assert s[end] == '}' by {
      assert s[end] == s[end..end + 2][0];
    }
  }

  /** No call is found exactly when no opener has a later closer. */
  lemma {:induction false} FindCallExact(s: string, open: string)
    ensures FindCall(s, open).Some? <==> HasClosedCall(s, open)
  {
    if FindCall(s, open).Some? {
      FoundIsClosed(s, open);
    }
    if HasClosedCall(s, open) {
      ClosedIsFound(s, open);
    }
  }

  lemma {:induction false} FoundIsClosed(s: string, open: string)
    requires FindCall(s, open).Some?
    ensures HasClosedCall(s, open)
  {
    hide Index;
    var Call(start, end) := FindCall(s, open).value;
    IndexFound(s, open);
    IndexFound(s[start..], "}}");
    assert s[end..end + 2] == s[start..][end - start..end - start + 2];
    assert OccursAt(s, open, start) && OccursAt(s, "}}", end);
  }

  lemma {:induction false} ClosedIsFound(s: string, open: string)
    requires HasClosedCall(s, open)
    ensures FindCall(s, open).Some?
  {
    hide Index;
    var i, j :| i <= j && OccursAt(s, open, i) && OccursAt(s, "}}", j);
    IndexIsFirst(s, open, i);
    var start := Index(s, open);
    assert s[start..][j - start..j - start + 2] == s[j..j + 2];
    IndexIsFirst(s[start..], "}}", j - start);
  }

  // ---- the three function passes ----

  datatype LetterCase = UpperCase | LowerCase

  function RecaseChar(casing: LetterCase, c: char): char {
    match casing
    case UpperCase => if 'a' <= c <= 'z' then c - 'a' + 'A' else c
    case LowerCase => if 'A' <= c <= 'Z' then c - 'A' + 'a' else c
  }

  /** `strings.ToUpper` and `strings.ToLower` on ASCII text. */
  function Recase(casing: LetterCase, s: string): string {
    if s == "" then "" else [RecaseChar(casing, s[0])] + Recase(casing, s[1..])
  }

  datatype Pass =
    | Unary(name: string, casing: LetterCase)
    | Truncate
    | Replace

  /** The word a call of this pass starts with, up to and including the space. */
  function Keyword(p: Pass): string {
    match p
    case Unary(name, _) => name + " "
    case Truncate => "truncate "
    case Replace => "replace "
  }

  function Opener(p: Pass): string { "{{" + Keyword(p) }

  function Clamp(n: int, max: nat): (r: nat)
    ensures r <= max
  {
    if n < 0 then 0 else if n > max then max else n
  }

  function TruncateValue(inner: string, tokens: Tokens): string {
    var parts := Fields(TrimSpace(inner));
    var value := if |parts| > 0 then ResolveArg(parts[0], tokens) else "";
    var n := if |parts| > 1 && Atoi(parts[|parts| - 1]).Some? then Atoi(parts[|parts| - 1]).value else |value|;
    value[..Clamp(n, |value|)]
  }

  function Argument(args: seq<string>, i: nat): string {
    if i < |args| then args[i] else ""
  }

  function ReplaceValue(inner: string, tokens: Tokens): string {
    var args := SplitFrom(TrimSpace(inner), false, "");
    var value := if |args| > 0 then ResolveArg(args[0], tokens) else "";
    ReplaceAll(value, Argument(args, 1), Argument(args, 2))
  }

  /** What a call evaluates to, given the text between its opener and its closer. */
  function CallValue(p: Pass, inner: string, tokens: Tokens): string {
    match p
    case Unary(_, casing) => Recase(casing, ResolveArg(TrimSpace(inner), tokens))
    case Truncate => TruncateValue(inner, tokens)
    case Replace => ReplaceValue(inner, tokens)
  }

  function Splice(s: string, start: nat, value: string, end: nat): string
    requires start <= end && end + 2 <= |s|
  {
    s[..start] + value + s[end + 2..]
  }

  predicate ValidPass(p: Pass) {
    p.Unary? ==> '}' !in p.name
  }

  /** One turn of the loop; None when the loop stops. */
  function Step(p: Pass, s: string, tokens: Tokens): Option<string>
    requires ValidPass(p)
  {
    match FindCall(s, Opener(p))
    case None => None
    case Some(Call(start, end)) =>
      CallInBounds(s, Opener(p));
      Some(Splice(s, start, CallValue(p, s[start + |Opener(p)|..end], tokens), end))
  }

  function Quotes(s: string): nat { Count(s, '\'') + Count(s, '"') }

  function Spaces(s: string): nat { Count(s, ' ') }

  /** The whole pass. It stops on every text: a turn of `replace` removes quotes or,
      when there are none to remove, spaces; a turn of the others removes spaces. */
  function RunPass(p: Pass, s: string, tokens: Tokens): string
    requires ValidPass(p) && PlainTokens(tokens)
    decreases if p.Replace? then Quotes(s) else 0, Spaces(s)
  {
    match Step(p, s, tokens)
    case None => s
    case Some(t) =>
      StepShrinks(p, s, tokens);
      RunPass(p, t, tokens)
  }

  // ---- why the passes stop ----

  lemma {:induction false} SpliceCount(s: string, open: string, value: string, c: char)
    requires FindCall(s, open).Some? && '}' !in open
    ensures var Call(start, end) := FindCall(s, open).value;
            start + |open| <= end && end + 2 <= |s|
            && Count(Splice(s, start, value, end), c) + Count(open, c) + Count(s[start + |open|..end], c)
              + Count("}}", c)
               == Count(s, c) + Count(value, c)
  {
    hide FindCall, Index, Count;
    CallInBounds(s, open);
    CallText(s, open);
    var Call(start, end) := FindCall(s, open).value;
    var pre, inner, post := s[..start], s[start + |open|..end], s[end + 2..];
    Decompose(s, start, start + |open|, end);
    CountFour(pre, open, inner, post, c);
    CountConcat(pre + value, post, c);
    CountConcat(pre, value, c);
  }

  lemma {:induction false} Decompose(s: string, a: nat, b: nat, e: nat)
    requires a <= b <= e && e + 2 <= |s|
    ensures s == s[..a] + (s[a..b] + (s[b..e] + (s[e..e + 2] + s[e + 2..])))
  {
  }

  lemma {:induction false} CountFour(pre: string, open: string, inner: string, post: string, c: char)
    ensures Count(pre + (open + (inner + ("}}" + post))), c)
            == Count(pre, c) + Count(open, c) + Count(inner, c) + Count("}}", c) + Count(post, c)
  {
    hide Count;
    CountConcat(pre, open + (inner + ("}}" + post)), c);
    CountConcat(open, inner + ("}}" + post), c);
    CountConcat(inner, "}}" + post, c);
    CountConcat("}}", post, c);
  }

  lemma {:induction false} RecaseCount(casing: LetterCase, s: string, c: char)
    requires !('a' <= c <= 'z') && !('A' <= c <= 'Z')
    ensures Count(Recase(casing, s), c) == Count(s, c)
    ensures c !in s ==> c !in Recase(casing, s)
  {
    if s != "" {
      RecaseCount(casing, s[1..], c);
    }
  }

  lemma {:induction false} ResolvedSpaces(value: string, tokens: Tokens)
    requires PlainTokens(tokens)
    ensures Count(ResolveArg(value, tokens), ' ') <= Count(value, ' ')
  {
    if value in tokens {
      CountAbsent(tokens[value], ' ');
    }
  }

  lemma {:induction false} TruncateValueAvoids(inner: string, tokens: Tokens, c: char)
    requires PlainTokens(tokens) && !Entropy.IsWordChar(c) && c != '-'
    requires IsSpace(c) || c !in inner
    ensures c !in TruncateValue(inner, tokens)
  {
    TrimSpaceCount(inner, c);
    var parts := Fields(TrimSpace(inner));
    if |parts| > 0 {
      FieldsClean(TrimSpace(inner), parts[0]);
    }
  }

  lemma {:induction false} ReplaceValueAvoids(inner: string, tokens: Tokens, c: char)
    requires PlainTokens(tokens) && !Entropy.IsWordChar(c) && c != '-'
    requires IsQuote(c) || c !in inner || (IsSpace(c) && QuoteFree(inner))
    ensures c !in ReplaceValue(inner, tokens)
  {
    var t := TrimSpace(inner);
    TrimSpaceCount(inner, c);
    TrimSpaceCount(inner, '\'');
    TrimSpaceCount(inner, '"');
    var args := SplitFrom(t, false, "");
    forall i | 0 <= i < |args| ensures c !in args[i] {
      SplitParts(t, false, "", args[i]);
    }
    var value := if |args| > 0 then ResolveArg(args[0], tokens) else "";
    ReplaceAllAvoids(value, Argument(args, 1), Argument(args, 2), c);
  }

  lemma {:induction false} QuoteCount(s: string)
    ensures Quotes(s) == 0 <==> QuoteFree(s)
  {
    if QuoteFree(s) {
      CountAbsent(s, '\'');
      CountAbsent(s, '"');
    } else if '\'' in s {
      CountPresent(s, '\'');
    } else {
      CountPresent(s, '"');
    }
  }

  lemma {:induction false} OpenerHasSpace(p: Pass)
    ensures Spaces(Opener(p)) >= 1
    ensures ValidPass(p) ==> '}' !in Opener(p)
  {
    var open := Opener(p);
    assert open[|open| - 1] == ' ';
    CountPresent(open, ' ');
  }

  /** The value of a `replace` call has no quotes, and no more spaces than quotes allow. */
  lemma {:induction false} ReplaceShrinks(inner: string, tokens: Tokens)
    requires PlainTokens(tokens)
    ensures Quotes(ReplaceValue(inner, tokens)) == 0
    ensures QuoteFree(inner) ==> Spaces(ReplaceValue(inner, tokens)) == 0
  {
    var v := ReplaceValue(inner, tokens);
    ReplaceValueAvoids(inner, tokens, '\'');
    ReplaceValueAvoids(inner, tokens, '"');
    QuoteCount(v);
    if QuoteFree(inner) {
      ReplaceValueAvoids(inner, tokens, ' ');
      CountAbsent(v, ' ');
    }
  }

  /** The value of any other call has no more spaces than its arguments. */
  lemma {:induction false} OtherShrinks(p: Pass, inner: string, tokens: Tokens)
    requires PlainTokens(tokens) && !p.Replace?
    ensures Spaces(CallValue(p, inner, tokens)) <= Spaces(inner)
  {
    if p.Unary? {
      var arg := TrimSpace(inner);
      TrimSpaceCount(inner, ' ');
      ResolvedSpaces(arg, tokens);
      RecaseCount(p.casing, ResolveArg(arg, tokens), ' ');
    } else {
      TruncateValueAvoids(inner, tokens, ' ');
      CountAbsent(TruncateValue(inner, tokens), ' ');
    }
  }

  lemma {:induction false} StepShrinks(p: Pass, s: string, tokens: Tokens)
    requires ValidPass(p) && PlainTokens(tokens) && Step(p, s, tokens).Some?
    ensures var t := Step(p, s, tokens).value;
            if p.Replace? then Quotes(t) < Quotes(s) || (Quotes(t) == Quotes(s) && Spaces(t) < Spaces(s))
            else Spaces(t) < Spaces(s)
  {
    hide Opener, Splice, Fields, TrimSpace, ReplaceValue, Recase, TruncateValue;
    var open := Opener(p);
    OpenerHasSpace(p);
    CallInBounds(s, open);
    var Call(start, end) := FindCall(s, open).value;
    var inner := s[start + |open|..end];
    var value := CallValue(p, inner, tokens);
    SpliceCount(s, open, value, ' ');
    SpliceCount(s, open, value, '\'');
    SpliceCount(s, open, value, '"');
    CountAbsent("}}", ' ');
    QuoteCount("}}");
    if p.Replace? {
      assert value == ReplaceValue(inner, tokens);
      ReplaceShrinks(inner, tokens);
      QuoteCount(inner);
    } else {
      OtherShrinks(p, inner, tokens);
    }
  }

  /** A turn of the loop, as the loops below compute it. */
  lemma {:induction false} Turn(p: Pass, s: string, tokens: Tokens, start: int, end: int)
    requires ValidPass(p) && PlainTokens(tokens)
    requires start == Index(s, Opener(p)) >= 0
    requires end - start == Index(s[start..], "}}") >= 0
    ensures start + |Opener(p)| <= end && end + 2 <= |s|
    ensures var t := s[..start] + CallValue(p, s[start + |Opener(p)|..end], tokens) + s[end + 2..];
            RunPass(p, s, tokens) == RunPass(p, t, tokens)
            && (p.Replace? ==> Quotes(t) < Quotes(s) || (Quotes(t) == Quotes(s) && Spaces(t) < Spaces(s)))
            && (!p.Replace? ==> Spaces(t) < Spaces(s))
  {
    hide CallValue, Opener, Quotes, Spaces, Index, Step, FindCall;
    OpenerHasSpace(p);
    StepIs(p, s, tokens, start, end);
    StepShrinks(p, s, tokens);
  }

  lemma {:induction false} RunPassStep(p: Pass, s: string, tokens: Tokens)
    requires ValidPass(p) && PlainTokens(tokens)
    ensures RunPass(p, s, tokens) ==
            match Step(p, s, tokens)
            case None => s
            case Some(t) => RunPass(p, t, tokens)
  {
    hide Step;
  }

  lemma {:induction false} StepIs(p: Pass, s: string, tokens: Tokens, start: int, end: int)
    requires ValidPass(p)
    requires start == Index(s, Opener(p)) >= 0
    requires end - start == Index(s[start..], "}}") >= 0
    ensures start + |Opener(p)| <= end && end + 2 <= |s|
    ensures Step(p, s, tokens) ==
            Some(s[..start] + CallValue(p, s[start + |Opener(p)|..end], tokens) + s[end + 2..])
  {
    hide CallValue, Opener, Index;
    OpenerHasSpace(p);
    CallInBounds(s, Opener(p));
  }

  /** No turn is left: the pass changes nothing. */
  lemma {:induction false} NoTurn(p: Pass, s: string, tokens: Tokens)
    requires ValidPass(p) && PlainTokens(tokens)
    requires Index(s, Opener(p)) < 0 || Index(s[Index(s, Opener(p))..], "}}") < 0
    ensures RunPass(p, s, tokens) == s
  {
    hide CallValue, Opener, Quotes, Spaces, Index;
  }

  // ---- the normal form ----

  /** A pass leaves no call of its own that could still be evaluated. */
  lemma {:induction false} PassNormalForm(p: Pass, s: string, tokens: Tokens)
    requires ValidPass(p) && PlainTokens(tokens)
    ensures !HasClosedCall(RunPass(p, s, tokens), Opener(p))
    decreases if p.Replace? then Quotes(s) else 0, Spaces(s)
  {
    hide CallValue, Opener, Splice;
    match Step(p, s, tokens)
    case None => FindCallExact(s, Opener(p));
    case Some(t) =>
      StepShrinks(p, s, tokens);
      PassNormalForm(p, t, tokens);
  }

  lemma {:induction false} PassIdempotent(p: Pass, s: string, tokens: Tokens)
    requires ValidPass(p) && PlainTokens(tokens)
    ensures RunPass(p, RunPass(p, s, tokens), tokens) == RunPass(p, s, tokens)
  {
    hide CallValue, Opener, Splice;
    PassNormalForm(p, s, tokens);
    FindCallExact(RunPass(p, s, tokens), Opener(p));
  }

  // ---- the loops ----

  method ApplyUnary(source0: string, name: string, casing: LetterCase, tokens: Tokens) returns (source: string)
    requires '}' !in name && PlainTokens(tokens)
    ensures source == RunPass(Unary(name, casing), source0, tokens)
  {
    hide RunPass, Opener, PlainTokens, Quotes, Spaces, Index, TrimSpace, Fields, SplitFrom, ReplaceAll, Recase, Atoi;
    var p := Unary(name, casing);
    var open := Opener(p);
    source := source0;
    while true
      invariant RunPass(p, source, tokens) == RunPass(p, source0, tokens)
      decreases Spaces(source)
    {
      var start := Index(source, open);
      if start < 0 {
        NoTurn(p, source, tokens);
        return;
      }
      var end := Index(source[start..], "}}");
      if end < 0 {
        NoTurn(p, source, tokens);
        return;
      }
      end := end + start;
      Turn(p, source, tokens, start, end);
      var value := ResolveArg(TrimSpace(source[start + |open|..end]), tokens);
      assert Recase(casing, value) == CallValue(p, source[start + |open|..end], tokens);
      source := source[..start] + Recase(casing, value) + source[end + 2..];
    }
  }

  method ApplyTruncate(source0: string, tokens: Tokens) returns (source: string)
    requires PlainTokens(tokens)
    ensures source == RunPass(Truncate, source0, tokens)
  {
    hide RunPass, Opener, PlainTokens, Quotes, Spaces, Index, TrimSpace, Fields, SplitFrom, ReplaceAll, Recase, Atoi;
    var open := Opener(Truncate);
    source := source0;
    while true
      invariant RunPass(Truncate, source, tokens) == RunPass(Truncate, source0, tokens)
      decreases Spaces(source)
    {
      var start := Index(source, open);
      if start < 0 {
        NoTurn(Truncate, source, tokens);
        return;
      }
      var end := Index(source[start..], "}}");
      if end < 0 {
        NoTurn(Truncate, source, tokens);
        return;
      }
      end := end + start;
      Turn(Truncate, source, tokens, start, end);
      var inner := TrimSpace(source[start + |open|..end]);
      var parts := Fields(inner);
      var value := "";
      if |parts| > 0 {
        value := ResolveArg(parts[0], tokens);
      }
      var n: int := |value|;
      if |parts| > 1 {
        var parsed := Atoi(parts[|parts| - 1]);
        if parsed.Some? {
          n := parsed.value;
        }
      }
      if n < 0 {
        n := 0;
      }
      if n > |value| {
        n := |value|;
      }
      assert value[..n] == CallValue(Truncate, source[start + |open|..end], tokens);
      source := source[..start] + value[..n] + source[end + 2..];
    }
  }

  method ApplyReplace(source0: string, tokens: Tokens) returns (source: string)
    requires PlainTokens(tokens)
    ensures source == RunPass(Replace, source0, tokens)
  {
    hide RunPass, Opener, PlainTokens, Quotes, Spaces, Index, TrimSpace, Fields, SplitFrom, ReplaceAll, Recase, Atoi;
    var open := Opener(Replace);
    source := source0;
    while true
      invariant RunPass(Replace, source, tokens) == RunPass(Replace, source0, tokens)
      decreases Quotes(source), Spaces(source)
    {
      var start := Index(source, open);
      if start < 0 {
        NoTurn(Replace, source, tokens);
        return;
      }
      var end := Index(source[start..], "}}");
      if end < 0 {
        NoTurn(Replace, source, tokens);
        return;
      }
      end := end + start;
      Turn(Replace, source, tokens, start, end);
      var args := SplitQuoted(TrimSpace(source[start + |open|..end]));
      var value, from, to := "", "", "";
      if |args| > 0 {
        value := ResolveArg(args[0], tokens);
      }
      if |args| > 1 {
        from := args[1];
      }
      if |args| > 2 {
        to := args[2];
      }
      assert ReplaceAll(value, from, to) == CallValue(Replace, source[start + |open|..end], tokens);
      source := source[..start] + ReplaceAll(value, from, to) + source[end + 2..];
    }
  }
}
