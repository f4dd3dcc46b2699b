/** What each placeholder of a username template renders to, said of the texts themselves.
    `Username.PipelineIsOneShot` says that holes are evaluated one by one; here is what a
    reader of the templates may expect of each. */
module Meanings {
  import opened Text
  import opened Entropy
  import opened Passes
  import opened RandomCalls
  import opened Segments
  import opened Statements
  import opened Username

  /** A value as an argument: a token's name stands for its value. */
  function Argued(w: string, tokens: Tokens): string { if w in tokens then tokens[w] else w }

  /** A single call renders to its value. */
  lemma {:induction false} OneCall(p: Pass, inner: string, tokens: Tokens)
    requires CleanPass(p) && BraceFree(inner) && PlainTokens(tokens)
    ensures RunPass(p, "{{" + Keyword(p) + inner + "}}", tokens) == CallValue(p, inner, tokens)
  {
    hide RunPass, CallValue, PlainTokens;
    var body := Keyword(p) + inner;
    var segs := [Hole(body)];
    assert body[|Keyword(p)|..] == inner;
    assert PassAll(p, segs, tokens) == [Lit(CallValue(p, inner, tokens))];
    FlatOfOne(Hole(body));
    FlatOfOne(Lit(CallValue(p, inner, tokens)));
    assert "{{" + Keyword(p) + inner + "}}" == "{{" + body + "}}";
    assert Segmented(segs) by {
      KeywordIsClean(p);
    }
    PassIsSegmentwise(p, segs, tokens);
  }

  lemma {:induction false} KeywordIsClean(p: Pass)
    requires CleanPass(p)
    ensures BraceFree(Keyword(p))
  {
  }

  lemma {:induction false} FlatOfOne(g: Segment)
    ensures Flat([g]) == SegmentText(g)
  {
    assert [g][1..] == [];
    assert SegmentText(g) + "" == SegmentText(g);
  }

  /** Words have nothing to trim. */
  lemma {:induction false} WordsAreTrim(s: string)
    requires s != "" && !IsSpace(s[0]) && !IsSpace(s[|s| - 1])
    ensures TrimSpace(s) == s
  {
    TrimSpaceIs("", s, "");
    assert "" + s + "" == s;
  }

  // ---- letters ----

  lemma {:induction false} RecasedChars(casing: LetterCase, s: string)
    ensures |Recase(casing, s)| == |s| && forall i :: 0 <= i < |s| ==> Recase(casing, s)[i] == RecaseChar(casing, s[i])
  {
    if s != "" {
      RecasedChars(casing, s[1..]);
    }
  }

  /** The alphabets of the two cases match letter by letter, and nothing else changes. */
  lemma {:induction false} LettersMatch(i: nat, c: char)
    requires i < 26
    ensures RecaseChar(UpperCase, Lower()[i]) == Upper()[i] && RecaseChar(LowerCase, Upper()[i]) == Lower()[i]
    ensures c !in Lower() ==> RecaseChar(UpperCase, c) == c
    ensures c !in Upper() ==> RecaseChar(LowerCase, c) == c
  {
    hide Lower, Upper;
    LowerAt(i);
    UpperAt(i);
    if 'a' <= c <= 'z' {
      LowerAt(c as int - 'a' as int);
      assert Lower()[c as int - 'a' as int] == c;
    }
    if 'A' <= c <= 'Z' {
      UpperAt(c as int - 'A' as int);
      assert Upper()[c as int - 'A' as int] == c;
    }
  }

  /** `{{uppercase w}}`: the value, each lower-case letter as its upper-case one. */
  lemma {:induction false} UpperIs(w: string, tokens: Tokens, i: nat, k: nat)
    requires w != "" && BraceFree(w) && !IsSpace(w[0]) && !IsSpace(w[|w| - 1]) && PlainTokens(tokens)
    requires i < |Argued(w, tokens)| && k < 26
    ensures var v := Argued(w, tokens);
            var r := RunPass(UpperPass(), "{{uppercase " + w + "}}", tokens);
            |r| == |v| && (v[i] == Lower()[k] ==> r[i] == Upper()[k]) && (v[i] !in Lower() ==> r[i] == v[i])
  {
    hide RunPass, Lower, Upper, RecaseChar, PlainTokens, Recase, TrimSpace;
    WordsAreTrim(w);
    OneCall(UpperPass(), w, tokens);
    assert "{{" + Keyword(UpperPass()) + w + "}}" == "{{uppercase " + w + "}}";
    RecasedChars(UpperCase, Argued(w, tokens));
    LettersMatch(k, Argued(w, tokens)[i]);
  }

  /** `{{lowercase w}}`: the other way round. */
  lemma {:induction false} LowerIs(w: string, tokens: Tokens, i: nat, k: nat)
    requires w != "" && BraceFree(w) && !IsSpace(w[0]) && !IsSpace(w[|w| - 1]) && PlainTokens(tokens)
    requires i < |Argued(w, tokens)| && k < 26
    ensures var v := Argued(w, tokens);
            var r := RunPass(LowerPass(), "{{lowercase " + w + "}}", tokens);
            |r| == |v| && (v[i] == Upper()[k] ==> r[i] == Lower()[k]) && (v[i] !in Upper() ==> r[i] == v[i])
  {
    hide RunPass, Lower, Upper, RecaseChar, PlainTokens, Recase, TrimSpace;
    WordsAreTrim(w);
    OneCall(LowerPass(), w, tokens);
    assert "{{" + Keyword(LowerPass()) + w + "}}" == "{{lowercase " + w + "}}";
    RecasedChars(LowerCase, Argued(w, tokens));
    LettersMatch(k, Argued(w, tokens)[i]);
  }

  // ---- truncate ----

  lemma {:induction false} NumberIsWord(n: int)
    ensures IsWord(IntText(n)) && BraceFree(IntText(n))
  {
    var digits := NatText(if n < 0 then -n else n);
    assert forall i :: 0 <= i < |digits| ==> digits[i] in digits && IsDigit(digits[i]);
    assert forall i :: 0 <= i < |IntText(n)| ==> IsDigit(IntText(n)[i]) || IntText(n)[i] == '-';
    assert forall c :: c in IntText(n) ==> IsDigit(c) || c == '-';
  }

  lemma {:induction false} TwoFields(a: string, b: string)
    requires IsWord(a) && IsWord(b)
    ensures TrimSpace(a + " " + b) == a + " " + b && Fields(a + " " + b) == [a, b]
  {
    hide Fields;
    var s := a + " " + b;
    assert s[0] == a[0] && s[|s| - 1] == b[|b| - 1];
    WordsAreTrim(s);
    assert s == a + (" " + b);
    FieldsAre(a, " " + b);
    FieldsSkip(" ", b);
    FieldsAre(b, "");
    FieldsNone("");
    assert b + "" == b;
  }

  lemma {:induction false} OneField(a: string)
    requires IsWord(a)
    ensures TrimSpace(a) == a && Fields(a) == [a]
  {
    hide Fields;
    WordsAreTrim(a);
    FieldsAre(a, "");
    FieldsNone("");
    assert a + "" == a;
  }

  /** `{{truncate w n}}`: the value, cut to its first n characters; all of it if it is no
      longer than that; nothing for a negative number. */
  lemma {:induction false} TruncateIs(w: string, n: int, tokens: Tokens)
    requires IsWord(w) && BraceFree(w) && PlainTokens(tokens)
    requires -0x8000_0000_0000_0000 <= n < 0x8000_0000_0000_0000
    ensures var v := Argued(w, tokens);
            var r := RunPass(Truncate, "{{truncate " + w + " " + IntText(n) + "}}", tokens);
            r <= v && |r| == if n < 0 then 0 else if n < |v| then n else |v|
  {
    hide RunPass, Fields, TrimSpace, PlainTokens, Atoi, IntText;
    NumberIsWord(n);
    TwoFields(w, IntText(n));
    IntTextRoundTrip(n);
    var inner := w + " " + IntText(n);
    OneCall(Truncate, inner, tokens);
    assert "{{" + Keyword(Truncate) + inner + "}}" == "{{truncate " + w + " " + IntText(n) + "}}";
  }

  /** `{{truncate w}}`, and `{{truncate w x}}` where x is no number: all of the value. */
  lemma {:induction false} TruncateAll(w: string, x: string, tokens: Tokens)
    requires IsWord(w) && BraceFree(w) && IsWord(x) && BraceFree(x) && Atoi(x) == None && PlainTokens(tokens)
    ensures RunPass(Truncate, "{{truncate " + w + "}}", tokens) == Argued(w, tokens)
    ensures RunPass(Truncate, "{{truncate " + w + " " + x + "}}", tokens) == Argued(w, tokens)
  {
    hide RunPass, Fields, TrimSpace, PlainTokens, Atoi;
    OneField(w);
    TwoFields(w, x);
    OneCall(Truncate, w, tokens);
    OneCall(Truncate, w + " " + x, tokens);
    assert "{{" + Keyword(Truncate) + w + "}}" == "{{truncate " + w + "}}";
    assert "{{" + Keyword(Truncate) + (w + " " + x) + "}}" == "{{truncate " + w + " " + x + "}}";
  }

  // ---- replace ----

  lemma {:induction false} QuotedEnds(words: seq<string>, marks: seq<char>)
    requires words != [] && |words| == |marks| && forall i :: 0 <= i < |marks| ==> IsQuote(marks[i])
    requires forall i :: 0 <= i < |words| ==> BraceFree(words[i])
    ensures var s := Quoted(words, marks);
            s != "" && s[0] == marks[0] && s[|s| - 1] == marks[|marks| - 1] && BraceFree(s)
  {
    if |words| > 1 {
      QuotedEnds(words[1..], marks[1..]);
    } else {
      assert Quoted(words[1..], marks[1..]) == "";
    }
  }

  /** `{{replace "w" "from" "to"}}`, in quotes of either kind: the value with every occurrence
      of `from` replaced by `to`; without `to` they are left out; without `from` nothing is. */
  lemma {:induction false} ReplaceIs(words: seq<string>, marks: seq<char>, tokens: Tokens)
    requires 1 <= |words| <= 3 && |words| == |marks| && PlainTokens(tokens)
    requires forall i :: 0 <= i < |marks| ==> IsQuote(marks[i])
    requires forall i :: 0 <= i < |words| ==> words[i] != "" && QuoteFree(words[i]) && BraceFree(words[i])
    ensures var v := Argued(words[0], tokens);
            RunPass(Replace, "{{replace " + Quoted(words, marks) + "}}", tokens)
            == if |words| == 1 then v else ReplaceAll(v, words[1], if |words| == 3 then words[2] else "")
  {
    hide RunPass, TrimSpace, PlainTokens, SplitFrom, Quoted, ReplaceAll;
    var inner := Quoted(words, marks);
    QuotedEnds(words, marks);
    WordsAreTrim(inner);
    SplitUndoesQuoting(words, marks);
    OneCall(Replace, inner, tokens);
    assert "{{" + Keyword(Replace) + inner + "}}" == "{{replace " + inner + "}}";
    NothingReplaced(Argued(words[0], tokens));
  }

  lemma {:induction false} NothingReplaced(s: string)
    ensures ReplaceAll(s, "", "") == s
  {
    if s != "" {
      NothingReplaced(s[1..]);
      assert "" + [s[0]] + Interleave(s[1..], "") == s;
    }
  }

  /** So the first occurrence in the value becomes `to`, what stands before it stays, and the
      same goes for the rest. */
  lemma {:induction false} ReplaceOnce(before: string, from: string, to: string, after: string, marks: seq<char>,
                                       w: string,
                                       tokens: Tokens)
    requires |marks| == 3 && PlainTokens(tokens) && forall i :: 0 <= i < |marks| ==> IsQuote(marks[i])
    requires w != "" && QuoteFree(w) && BraceFree(w) && from != "" && QuoteFree(from) && BraceFree(from)
    requires to != "" && QuoteFree(to) && BraceFree(to)
    requires Argued(w, tokens) == before + from + after
    requires forall k :: 0 <= k < |before| ==> !OccursAt(before + from + after, from, k)
    requires forall k :: 0 <= k < |after| ==> !OccursAt(after, from, k)
    ensures RunPass(Replace, "{{replace " + Quoted([w, from, to], marks) + "}}", tokens) == before + to + after
  {
    hide RunPass, Quoted, ReplaceAll, PlainTokens;
    ReplaceIs([w, from, to], marks, tokens);
    ReplaceAllFirst(before, from, after, to);
    ReplaceAllNone(after, from, to);
  }

  // ---- random ----

  /** `{{random n}}`, with or without a space in front and behind: n characters, but at least
      one and at most 64; eight if n is no number, or anything else but one word follows. */
  lemma {:induction false} RandomCountIs(n: int, x: string)
    requires -0x8000_0000_0000_0000 <= n < 0x8000_0000_0000_0000 && IsWord(x) && Atoi(x) == None
    ensures var count := if n < 1 then 1 else if n > 64 then 64 else n;
            RandomCount("random " + IntText(n)) == count && RandomCount(" random " + IntText(n) + " ") == count
    ensures RandomCount("random " + x) == 8 && RandomCount("random ") == 8
  {
    hide Fields, TrimSpace, Atoi, IntText;
    NumberIsWord(n);
    IntTextRoundTrip(n);
    TwoFields("random", IntText(n));
    TwoFields("random", x);
    OneField("random");
    var s := "random" + " " + IntText(n);
    assert s[0] == 'r' && s[|s| - 1] == IntText(n)[|IntText(n)| - 1];
    TrimSpaceIs(" ", s, " ");
    assert " " + s + " " == " random " + IntText(n) + " ";
    assert s == "random " + IntText(n) && "random" + " " + x == "random " + x;
    TrimSpaceIs("", "random", " ");
    assert "" + "random" + " " == "random ";
  }

  // ---- names ----

  /** A letter, a digit or an underscore: a word character is one of the alphabet, or `_`. */
  lemma {:induction false} WordChars(c: char)
    ensures IsWordChar(c) <==> c in Lower() || c in Upper() || c in Digits() || c == '_'
  {
    hide Lower, Upper, Digits;
    if 'a' <= c <= 'z' {
      LowerAt(c as int - 'a' as int);
      assert Lower()[c as int - 'a' as int] in Lower();
    } else if 'A' <= c <= 'Z' {
      UpperAt(c as int - 'A' as int);
      assert Upper()[c as int - 'A' as int] in Upper();
    } else if '0' <= c <= '9' {
      DigitAt(c as int - '0' as int);
      assert Digits()[c as int - '0' as int] in Digits();
    }
    if c in Lower() {
      var i :| 0 <= i < 26 && Lower()[i] == c;
      LowerAt(i);
    }
    if c in Upper() {
      var i :| 0 <= i < 26 && Upper()[i] == c;
      UpperAt(i);
    }
    if c in Digits() {
      var i :| 0 <= i < 10 && Digits()[i] == c;
      DigitAt(i);
    }
  }

  /** A name keeps its word characters, in their order, and loses all others; a name without
      any becomes `kryptic`. */
  lemma {:induction false} NamesKeep(a: string, c: char, b: string)
    ensures KeepWordChars(a + [c] + b) == KeepWordChars(a) + (if IsWordChar(c) then [c] else "") + KeepWordChars(b)
    ensures Sanitized(a) == if forall i :: 0 <= i < |a| ==> !IsWordChar(a[i]) then "kryptic" else KeepWordChars(a)
  {
    KeepJoin(a, [c] + b);
    assert a + [c] + b == a + ([c] + b);
    assert ([c] + b)[1..] == b;
    KeepNone(a);
    BlankExactly(a);
    assert forall x :: IsSpace(x) ==> !IsWordChar(x);
    if TrimSpace(a) == "" {
      forall i | 0 <= i < |a| ensures !IsWordChar(a[i]) {
        assert a[i] in a;
      }
    }
  }

  lemma {:induction false} KeepJoin(a: string, b: string)
    ensures KeepWordChars(a + b) == KeepWordChars(a) + KeepWordChars(b)
  {
    hide IsWordChar;
    if a == "" {
      assert a + b == b;
    } else {
      var kept := if IsWordChar(a[0]) then [a[0]] else "";
      assert (a + b)[1..] == a[1..] + b;
      KeepJoin(a[1..], b);
      assert kept + (KeepWordChars(a[1..]) + KeepWordChars(b)) == kept + KeepWordChars(a[1..]) + KeepWordChars(b);
    }
  }

  lemma {:induction false} KeepNone(a: string)
    ensures KeepWordChars(a) == "" <==> forall i :: 0 <= i < |a| ==> !IsWordChar(a[i])
  {
    if a != "" {
      KeepNone(a[1..]);
      assert forall i :: 0 < i < |a| ==> a[i] == a[1..][i - 1];
      assert forall i :: 0 <= i < |a[1..]| ==> a[1..][i] == a[i + 1];
    }
  }

  // ---- tokens ----

  /** A template that is one placeholder, in either spelling, renders to the value of its
      token, whatever the iteration order. */
  lemma {:induction false} TokenIs(template: string, name: string, order: seq<string>, blocks: seq<Block>,
                                   randomUsername: string, unix: int, identity: string, secretName: string,
                                   secretType: string)
    requires template == "{{" + name + "}}" || template == "{{ " + name + " }}"
    requires IsPlain(randomUsername) && randomUsername != ""
    requires var tokens := TokenMap(randomUsername, unix, identity, secretName, secretType);
             IsOrder(order, tokens) && name in tokens
    ensures var tokens := TokenMap(randomUsername, unix, identity, secretName, secretType);
            PlainTokens(tokens)
            && Render(Username.Source(template), order, tokens, blocks) == Some(Drawn(tokens[name], blocks))
  {
    hide Render, PlainTokens, Simultaneous, DrawAll, Meaning, Flat, TrimSpace, TokenMap, Spelled, NoClash;
    var tokens := TokenMap(randomUsername, unix, identity, secretName, secretType);
    TokensAreClean(randomUsername, unix, identity, secretName, secretType);
    NoneEmpty(randomUsername, unix, identity, secretName, secretType);
    var body := if template == "{{" + name + "}}" then name else Spelled(name);
    BodyIs(template, name, body);
    var segs := [Hole(body)];
    FlatOfOne(segs[0]);
    WordsAreTrim(template);
    SimultaneousIs(tokens, body);
    PipelineIsOneShot(template, segs, order, blocks, randomUsername, unix, identity, secretName, secretType);
    assert Fill(segs, Simultaneous(tokens)) == [Lit(tokens[name])];
    NothingDrawn(tokens[name], blocks);
    LiteralMeaning(tokens[name], tokens);
  }

  lemma {:induction false} BodyIs(template: string, name: string, body: string)
    requires template == "{{" + name + "}}" || template == "{{ " + name + " }}"
    requires body == (if template == "{{" + name + "}}" then name else Spelled(name)) && BraceFree(name)
    ensures template == "{{" + body + "}}" && BraceFree(body)
    ensures template != "" && !IsSpace(template[0]) && !IsSpace(template[|template| - 1])
  {
  }

  lemma {:induction false} NoneEmpty(randomUsername: string, unix: int, identity: string, secretName: string,
                                     secretType: string)
    requires IsPlain(randomUsername) && randomUsername != ""
    ensures var tokens := TokenMap(randomUsername, unix, identity, secretName, secretType);
            forall n :: n in tokens ==> tokens[n] != ""
  {
    FiveTokens(randomUsername, unix, identity, secretName, secretType);
  }

  /** The five tokens and their values; none is empty. */
  lemma {:induction false} FiveTokens(randomUsername: string, unix: int, identity: string, secretName: string,
                                      secretType: string)
    requires IsPlain(randomUsername) && randomUsername != ""
    ensures var tokens := TokenMap(randomUsername, unix, identity, secretName, secretType);
            tokens.Keys == {"randomUsername", "unixTimestamp", "identity.name", "dynamicSecret.name",
                "dynamicSecret.type"}
            && tokens["randomUsername"] == randomUsername && tokens["unixTimestamp"] == IntText(unix)
            && tokens["identity.name"] == Sanitized(identity) && tokens["dynamicSecret.name"] == Sanitized(secretName)
            && tokens["dynamicSecret.type"] == Sanitized(secretType)
            && forall n :: n in tokens ==> tokens[n] != ""
  {
    hide Sanitized, IntText;
    SanitizedIsPlain(identity);
    SanitizedIsPlain(secretName);
    SanitizedIsPlain(secretType);
    IntTextIsPlain(unix);
  }

  lemma {:induction false} NothingDrawn(text: string, blocks: seq<Block>)
    ensures DrawAll([Lit(text)], blocks) == Some(DrawnSegments([Lit(text)], blocks))
  {
    assert First([Lit(text)], "random ") == 1 && First([Lit(text)], " random ") == 1;
  }

  lemma {:induction false} LiteralMeaning(text: string, tokens: Tokens)
    ensures Meaning([Lit(text)], tokens) == text
  {
    assert [Lit(text)][1..] == [];
    assert text + "" == text;
  }

  // ---- holes of other kinds ----

  /** In a rendered template a hole of no known kind stays as it is written, and text outside
      the holes stays, too. */
  lemma {:induction false} OthersStay(g: Segment, tokens: Tokens)
    requires g.Hole? ==>
               !("uppercase " <= g.body) && !("lowercase " <= g.body) && !("truncate " <= g.body)
               && !("replace " <= g.body)
    ensures g.Hole? ==> SegmentMeaning(g, tokens) == "{{" + g.body + "}}"
    ensures g.Lit? ==> SegmentMeaning(g, tokens) == g.text
  {
  }
}
