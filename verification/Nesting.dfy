/** When the random pass evaluates every call it could: on texts without nested openers
    that is told by the text alone; on nested ones the characters drawn decide. */
module Nesting {
  import opened Text
  import opened Entropy
  import opened Passes
  import opened RandomCalls
  import opened Segments

  /** A `{{` or a `}}`. */
  ghost predicate Doubled(s: string, i: int, c: char) {
    0 <= i < |s| - 1 && s[i] == c && s[i + 1] == c
  }

  /** Between any two `{{` there is a `}}`. */
  ghost predicate Unnested(s: string) {
    forall i, k :: 0 <= i < k && Doubled(s, i, '{') && Doubled(s, k, '{') ==>
      exists j :: i < j < k && Doubled(s, j, '}')
  }

  /** Some tight opener is not followed by any `}}`. */
  ghost predicate Dangling(s: string) {
    exists i :: OccursAt(s, Tight(), i) && NoCloserFrom(s, i)
  }

  ghost predicate NoCloserFrom(s: string, i: int) {
    forall j :: i <= j ==> !Doubled(s, j, '}')
  }

  predicate IsOpener(open: string) { |open| >= 2 && open[0] == '{' && open[1] == '{' && '}' !in open }

  lemma {:induction false} Openers()
    ensures IsOpener(Tight()) && IsOpener(Spaced())
  {
  }

  lemma {:induction false} CloserAt(s: string, j: int)
    ensures OccursAt(s, "}}", j) <==> Doubled(s, j, '}')
  {
    if Doubled(s, j, '}') {
      assert s[j..j + 2] == "}}";
    }
    if OccursAt(s, "}}", j) {
      assert s[j..j + 2][0] == '}' && s[j..j + 2][1] == '}';
    }
  }

  lemma {:induction false} OpenerAt(s: string, open: string, i: int)
    requires IsOpener(open) && OccursAt(s, open, i)
    ensures Doubled(s, i, '{')
    ensures forall k :: i <= k < i + |open| ==> s[k] == open[k - i] && s[k] != '}'
  {
    assert s[i..i + |open|] == open;
    forall k | i <= k < i + |open| ensures s[k] == open[k - i] && s[k] != '}' {
      assert s[i..i + |open|][k - i] == open[k - i];
    }
  }

  // ---- one splice ----

  /** A `{{` at `i` and the first `}}` after it. */
  ghost predicate CallAt(s: string, i: int, e: int) {
    Doubled(s, i, '{') && i + 2 <= e && Doubled(s, e, '}') && forall j :: i <= j < e ==> !Doubled(s, j, '}')
  }

  /** The splice of a brace-free word over a call: everything before and after stays. */
  ghost predicate Spliced(s: string, i: int, e: int, n: int, t: string) {
    CallAt(s, i, e) && n > 0 && |t| == i + n + |s| - (e + 2)
    && (forall k :: 0 <= k < i ==> t[k] == s[k])
    && (forall k :: i <= k < i + n ==> t[k] != '{' && t[k] != '}')
    && (forall k :: i + n <= k < |t| ==> t[k] == s[k - n - i + e + 2])
  }

  lemma {:induction false} DoubledInSplice(s: string, i: int, e: int, n: int, t: string, k: int, c: char)
    requires Spliced(s, i, e, n, t) && (c == '{' || c == '}')
    ensures Doubled(t, k, c) ==> (k < i - 1 && Doubled(s, k, c)) || (k >= i + n && Doubled(s, k - n - i + e + 2, c))
    ensures Doubled(s, k, c) && k < i - 1 ==> Doubled(t, k, c)
    ensures Doubled(s, k, c) && k >= e + 2 ==> Doubled(t, k - e - 2 + i + n, c)
  {
  }

  /** The `}}` between an earlier `{{` and the call. */
  lemma {:induction false} CloserBefore(s: string, i: int, e: int, n: int, t: string, p: int) returns (j: int)
    requires Spliced(s, i, e, n, t) && Unnested(s) && 0 <= p < i && Doubled(s, p, '{')
    ensures p < j < i - 1 && Doubled(s, j, '}') && Doubled(t, j, '}')
  {
    j :| p < j < i && Doubled(s, j, '}');
    DoubledInSplice(s, i, e, n, t, j, '}');
  }

  lemma {:induction false} UnnestedStays(s: string, i: int, e: int, n: int, t: string)
    requires Spliced(s, i, e, n, t) && Unnested(s)
    ensures Unnested(t)
  {
    hide Spliced;
    CallCloses(s, i, e, n, t);
    forall a, b | 0 <= a < b && Doubled(t, a, '{') && Doubled(t, b, '{')
      ensures exists j :: a < j < b && Doubled(t, j, '}')
    {
      DoubledInSplice(s, i, e, n, t, a, '{');
      DoubledInSplice(s, i, e, n, t, b, '{');
      if a < i - 1 && Doubled(s, a, '{') {
        if b < i - 1 {
          var j :| a < j < b && Doubled(s, j, '}');
          DoubledInSplice(s, i, e, n, t, j, '}');
        } else {
          var j := CloserBefore(s, i, e, n, t, a);
        }
      } else {
        var d := e + 2 - n - i;
        var j :| a + d < j < b + d && Doubled(s, j, '}');
        DoubledInSplice(s, i, e, n, t, j, '}');
        assert Doubled(t, j - d, '}');
      }
    }
  }

  /** Where an opener stands in the result, it stood in the text; before the call it is closed. */
  lemma {:induction false} OpenerFromSplice(s: string, i: int, e: int, n: int, t: string, open: string, p: int)
    requires Spliced(s, i, e, n, t) && Unnested(s) && IsOpener(open) && OccursAt(t, open, p)
    ensures p < i ==> OccursAt(s, open, p) && exists j :: p < j && Doubled(s, j, '}') && Doubled(t, j, '}')
    ensures p >= i ==> p >= i + n && OccursAt(s, open, p - n - i + e + 2)
  {
    hide Unnested;
    OpenerAt(t, open, p);
    DoubledInSplice(s, i, e, n, t, p, '{');
    if p < i {
      var j := CloserBefore(s, i, e, n, t, p);
      assert p + |open| <= j;
      assert s[p..p + |open|] == t[p..p + |open|];
    } else {
      var q := p - n - i + e + 2;
      assert s[q..q + |open|] == t[p..p + |open|];
    }
  }

  /** Where another opener stands in the text, it stands in the result; before the call it is closed. */
  lemma {:induction false} OpenerToSplice(s: string, i: int, e: int, n: int, t: string, open: string, p: int)
    requires Spliced(s, i, e, n, t) && Unnested(s) && IsOpener(open) && OccursAt(s, open, p) && p != i
    ensures p < i ==> OccursAt(t, open, p) && exists j :: p < j && Doubled(s, j, '}') && Doubled(t, j, '}')
    ensures p > i ==> p >= e + 2 && OccursAt(t, open, p - e - 2 + i + n)
  {
    OpenerAt(s, open, p);
    if p < i {
      var j := CloserBefore(s, i, e, n, t, p);
      assert p + |open| <= j;
      assert s[p..p + |open|] == t[p..p + |open|];
    } else {
      var j :| i < j < p && Doubled(s, j, '}');
      var q := p - e - 2 + i + n;
      assert s[p..p + |open|] == t[q..q + |open|];
    }
  }

  lemma {:induction false} ClosersAfter(s: string, i: int, e: int, n: int, t: string, p: int)
    requires Spliced(s, i, e, n, t) && p >= e + 2
    ensures NoCloserFrom(s, p) <==> NoCloserFrom(t, p - e - 2 + i + n)
  {
    var d := e + 2 - i - n;
    if NoCloserFrom(s, p) {
      forall k | p - d <= k ensures !Doubled(t, k, '}') {
        DoubledInSplice(s, i, e, n, t, k, '}');
      }
    }
    if NoCloserFrom(t, p - d) {
      forall k | p <= k ensures !Doubled(s, k, '}') {
        DoubledInSplice(s, i, e, n, t, k, '}');
        assert !Doubled(t, k - d, '}');
      }
    }
  }

  lemma {:induction false} DanglingStays(s: string, i: int, e: int, n: int, t: string)
    requires Spliced(s, i, e, n, t) && Unnested(s)
    ensures Dangling(s) <==> Dangling(t)
  {
    hide Unnested, Spliced, Tight;
    Openers();
    if Dangling(s) {
      var p :| OccursAt(s, Tight(), p) && NoCloserFrom(s, p);
      CallCloses(s, i, e, n, t);
      OpenerToSplice(s, i, e, n, t, Tight(), p);
      ClosersAfter(s, i, e, n, t, p);
    }
    if Dangling(t) {
      var p :| OccursAt(t, Tight(), p) && NoCloserFrom(t, p);
      OpenerFromSplice(s, i, e, n, t, Tight(), p);
      ClosersAfter(s, i, e, n, t, p - n - i + e + 2);
    }
  }

  lemma {:induction false} CallCloses(s: string, i: int, e: int, n: int, t: string)
    requires Spliced(s, i, e, n, t)
    ensures 0 <= i && i + 2 <= e && Doubled(s, e, '}') && n > 0
  {
  }

  lemma {:induction false} ClosedStays(s: string, i: int, e: int, n: int, t: string, open: string)
    requires Spliced(s, i, e, n, t) && Unnested(s) && IsOpener(open) && !OccursAt(s, open, i)
    ensures HasClosedCall(s, open) <==> HasClosedCall(t, open)
  {
    hide Unnested, Spliced;
    if HasClosedCall(s, open) {
      var p, q :| p <= q && OccursAt(s, open, p) && OccursAt(s, "}}", q);
      CloserAt(s, q);
      OpenerToSplice(s, i, e, n, t, open, p);
      if p < i {
        var j :| p < j && Doubled(s, j, '}') && Doubled(t, j, '}');
        CloserAt(t, j);
      } else {
        DoubledInSplice(s, i, e, n, t, q, '}');
        CloserAt(t, q - e - 2 + i + n);
      }
    }
    if HasClosedCall(t, open) {
      var p, q :| p <= q && OccursAt(t, open, p) && OccursAt(t, "}}", q);
      CloserAt(t, q);
      OpenerFromSplice(s, i, e, n, t, open, p);
      if p < i {
        var j :| p < j && Doubled(s, j, '}') && Doubled(t, j, '}');
        CloserAt(s, j);
      } else {
        DoubledInSplice(s, i, e, n, t, q, '}');
        CloserAt(s, q - n - i + e + 2);
      }
    }
  }

  // ---- the whole pass ----

  lemma {:induction false} FoundCallAt(s: string, open: string)
    requires IsOpener(open) && FindCall(s, open).Some?
    ensures var Call(i, e) := FindCall(s, open).value;
            CallAt(s, i, e) && OccursAt(s, open, i)
  {
    hide Index;
    var Call(i, e) := FindCall(s, open).value;
    CallText(s, open);
    CallInBounds(s, open);
    OpenerAt(s, open, i);
    CloserAt(s, e);
    forall j | i <= j < e ensures !Doubled(s, j, '}') {
      CloserAt(s, j);
      if OccursAt(s, "}}", j) {
        assert s[i..][j - i..j - i + 2] == s[j..j + 2];
        IndexIsFirst(s[i..], "}}", j - i);
        assert false;
      }
    }
  }

  lemma {:induction false} SpliceIsSpliced(s: string, i: nat, e: nat, text: string)
    requires CallAt(s, i, e) && text != "" && '{' !in text && '}' !in text
    ensures Spliced(s, i, e, |text|, Splice(s, i, text, e))
  {
  }

  /** The other form does not stand where this one does. */
  lemma {:induction false} OneForm(s: string, i: int)
    requires OccursAt(s, Tight(), i)
    ensures !OccursAt(s, Spaced(), i)
  {
    assert s[i + 2] == s[i..i + 9][2] == 'r';
    NotAt(s, Spaced(), i, 2);
  }

  /** The loop is stuck on a closed spaced call exactly when a tight opener is left dangling. */
  lemma {:induction false} StuckExactly(s: string)
    requires FindRandom(s) == None
    ensures HasClosedCall(s, Spaced()) ==> Dangling(s)
  {
    hide Tight, Spaced, Index;
    FindCallExact(s, Tight());
    FindCallExact(s, Spaced());
    if HasClosedCall(s, Spaced()) {
      var i := Index(s, Tight());
      IndexFound(s, Tight());
      forall j | i <= j ensures !Doubled(s, j, '}') {
        CloserAt(s, j);
      }
    }
  }

  lemma {:induction false} DanglingOpens(s: string)
    requires Dangling(s)
    ensures Index(s, Tight()) >= 0
  {
    var i :| OccursAt(s, Tight(), i) && NoCloserFrom(s, i);
    IndexIsFirst(s, Tight(), i);
  }

  /** On a text without nested openers, whatever is drawn, the pass leaves a closed spaced
      call exactly when the text has one and ends in a tight opener that is never closed. */
  lemma {:induction false} RandomLeavesExactly(s: string, blocks: seq<Block>)
    requires Unnested(s) && RandomPass(s, blocks).Some?
    ensures !HasClosedCall(RandomPass(s, blocks).value.text, Tight())
    ensures HasClosedCall(RandomPass(s, blocks).value.text, Spaced()) <==> Dangling(s) && HasClosedCall(s, Spaced())
    decreases Spaces(s)
  {
    hide Tight, Spaced, Index, Spaces, Draw, RandomCount, Splice, Unnested, Dangling, FindCall, HasClosedCall;
    RandomNormalForm(s, blocks);
    match FindRandom(s)
    case None =>
      StuckExactly(s);
    case Some(Call(i, e)) =>
      RandomInBounds(s);
      var n := RandomCount(s[i + 2..e]);
      var d := Draw(blocks, n).value;
      DrawnIsPlain(blocks, n);
      RandomShrinks(s, d.text);
      var t := Splice(s, i, d.text, e);
      Openers();
      FoundCallAt(s, if Index(s, Tight()) >= 0 then Tight() else Spaced());
      SpliceIsSpliced(s, i, e, d.text);
      UnnestedStays(s, i, e, |d.text|, t);
      DanglingStays(s, i, e, |d.text|, t);
      if Index(s, Tight()) >= 0 {
        OneForm(s, i);
        ClosedStays(s, i, e, |d.text|, t, Spaced());
      } else if Dangling(s) {
        DanglingOpens(s);
      }
      RandomLeavesExactly(t, d.rest);
  }

  // ---- segmented texts ----

  ghost predicate AllClosed(s: string) {
    forall i :: Doubled(s, i, '{') ==> exists j :: i < j && Doubled(s, j, '}')
  }

  lemma {:induction false} SegmentBraces(g: Segment, rest: string)
    requires CleanSegment(g)
    ensures var s, n := SegmentText(g) + rest, |SegmentText(g)|;
            (forall k :: 0 <= k < n && Doubled(s, k, '{') ==> k == 0 && n >= 4 && Doubled(s, n - 2, '}'))
            && forall k :: n <= k ==> (Doubled(s, k, '{') <==> Doubled(rest, k - n, '{'))
                                      && (Doubled(s, k, '}') <==> Doubled(rest, k - n, '}'))
  {
    var s, n := SegmentText(g) + rest, |SegmentText(g)|;
    match g
    case Lit(t) =>
      assert forall k :: 0 <= k < n ==> s[k] == t[k];
    case Hole(b) =>
      assert forall k :: 2 <= k < n - 2 ==> s[k] == b[k - 2];
      assert s[n - 2] == '}' && s[n - 1] == '}';
  }

  /** In a segmented text nothing is nested and every hole is closed. */
  lemma {:induction false} FlatIsUnnested(segs: seq<Segment>)
    requires Segmented(segs)
    ensures Unnested(Flat(segs)) && AllClosed(Flat(segs))
  {
    hide Doubled, Unnested, AllClosed, SegmentText, CleanSegment;
    if segs == [] {
      EmptyIsUnnested();
    } else {
      FlatIsUnnested(segs[1..]);
      SegmentJoins(segs[0], Flat(segs[1..]));
    }
  }

  lemma {:induction false} EmptyIsUnnested()
    ensures Unnested("") && AllClosed("")
  {
  }

  lemma {:induction false} SegmentJoins(g: Segment, rest: string)
    requires CleanSegment(g) && Unnested(rest) && AllClosed(rest)
    ensures Unnested(SegmentText(g) + rest) && AllClosed(SegmentText(g) + rest)
  {
    hide Doubled, Unnested, AllClosed, SegmentText, CleanSegment;
    SegmentBraces(g, rest);
    UnnestedJoin(SegmentText(g), rest);
  }

  lemma {:induction false} UnnestedJoin(a: string, rest: string)
    requires Unnested(rest) && AllClosed(rest)
    requires forall k :: 0 <= k < |a| && Doubled(a + rest, k, '{') ==>
               k == 0 && |a| >= 4 && Doubled(a + rest, |a| - 2, '}')
    requires forall k :: |a| <= k ==> (Doubled(a + rest, k, '{') <==> Doubled(rest, k - |a|, '{'))
                                      && (Doubled(a + rest, k, '}') <==> Doubled(rest, k - |a|, '}'))
    ensures Unnested(a + rest) && AllClosed(a + rest)
  {
    hide Doubled;
    var s, n := a + rest, |a|;
    forall i, k | 0 <= i < k && Doubled(s, i, '{') && Doubled(s, k, '{')
      ensures exists j :: i < j < k && Doubled(s, j, '}') {
      assert k >= n;
      if i >= n {
        var j :| i - n < j < k - n && Doubled(rest, j, '}');
        assert Doubled(s, j + n, '}');
      } else {
        assert i < n - 2 < k;
      }
    }
    forall i | Doubled(s, i, '{') ensures exists j :: i < j && Doubled(s, j, '}') {
      DoubledIsIn(s, i, '{');
      if i >= n {
        var j :| i - n < j && Doubled(rest, j, '}');
        assert Doubled(s, j + n, '}');
      }
    }
  }

  lemma {:induction false} DoubledIsIn(s: string, i: int, c: char)
    requires Doubled(s, i, c)
    ensures i >= 0
  {
  }

  /** So on a segmented text the pass leaves no closed call of either form. */
  lemma {:induction false} SegmentedNormalForm(segs: seq<Segment>, blocks: seq<Block>)
    requires Segmented(segs) && RandomPass(Flat(segs), blocks).Some?
    ensures var r := RandomPass(Flat(segs), blocks).value.text;
            !HasClosedCall(r, Tight()) && !HasClosedCall(r, Spaced())
  {
    hide Tight, Spaced, Unnested, HasClosedCall, RandomPass;
    var s := Flat(segs);
    FlatIsUnnested(segs);
    RandomNormalForm(s, blocks);
    RandomLeavesExactly(s, blocks);
    if Dangling(s) {
      var i :| OccursAt(s, Tight(), i) && NoCloserFrom(s, i);
      Openers();
      OpenerAt(s, Tight(), i);
    }
  }

  // ---- nested texts ----

  function Nested(): string { "{{ random 4}} {{{{random 6}} " }

  lemma {:induction false} SixAsked()
    ensures RandomCount("random 6") == 6
  {
    var s := "random 6";
    assert TrimSpace(s) == s;
    WordAhead("random", " 6");
    assert s == "random" + " 6" && s[..6] == "random" && s[6..] == " 6";
    assert " 6"[1..] == "6" && "6"[1..] == "" && "6"[..1] == "6";
    assert Fields("") == [];
    assert WordLength("6") == 1 + WordLength("6"[1..]);
    assert Fields("6") == ["6"] + Fields("");
    assert Fields(" 6") == Fields("6");
    assert Fields(s) == ["random"] + Fields(" 6");
    assert DigitsValue("6") == Some(6);
  }

  lemma {:induction false} WordAhead(w: string, rest: string)
    requires rest != "" && IsSpace(rest[0]) && forall c :: c in w ==> !IsSpace(c)
    ensures WordLength(w + rest) == |w|
  {
    if w != "" {
      assert (w + rest)[1..] == w[1..] + rest;
      WordAhead(w[1..], rest);
    }
  }

  lemma {:induction false} IndexIs(s: string, pat: string, k: nat)
    requires OccursAt(s, pat, k) && forall i :: 0 <= i < k ==> !OccursAt(s, pat, i)
    ensures Index(s, pat) == k
  {
    IndexIsFirst(s, pat, k);
    IndexFound(s, pat);
  }

  /** Before the inner call nothing is tight. */
  lemma {:induction false} NestedTight(i: int)
    requires 0 <= i < 16
    ensures !OccursAt(Nested(), Tight(), i)
  {
    NestedChars();
    NotAt(Nested(), Tight(), i, if i == 0 || i == 14 || i == 15 then 2 else if i == 1 then 1 else 0);
  }

  lemma {:induction false} NestedChars()
    ensures var s := Nested();
            |s| == 29 && s[2] == ' ' && s[16] == '{' && s[17] == '{' && (forall i :: 2 <= i < 14 ==> s[i] != '{')
  {
  }

  lemma {:induction false} NestedParts()
    ensures var s := Nested();
            |s| == 29 && s[..16] == "{{ random 4}} {{" && s[28..] == " " && s[18..26] == "random 6"
            && s[16..25] == Tight() && s[26..28] == "}}" && (forall i :: 16 <= i < 26 ==> s[i] != '}')
  {
  }

  /** The call the loop finds in it is the inner one, and it asks for six characters. */
  lemma {:induction false} NestedCall()
    ensures FindRandom(Nested()) == Some(Call(16, 26))
    ensures RandomCount(Nested()[18..26]) == 6
    ensures Nested()[..16] == "{{ random 4}} {{" && Nested()[28..] == " "
  {
    hide Nested, Tight, Spaced, Index, RandomCount;
    NestedParts();
    SixAsked();
    var s := Nested();
    assert |Tight()| == 9 by { assert |s[16..25]| == 9; }
    forall i | 0 <= i < 16 ensures !OccursAt(s, Tight(), i) {
      NestedTight(i);
    }
    IndexIs(s, Tight(), 16);
    var rest := s[16..];
    assert rest[10..12] == s[26..28];
    forall j | 0 <= j < 10 ensures !OccursAt(rest, "}}", j) {
      NotAt(rest, "}}", j, 0);
    }
    IndexIs(rest, "}}", 10);
  }

  /** What was drawn goes in its place; then the loop goes on. */
  lemma {:induction false} NestedTurn(blocks: seq<Block>)
    requires Draw(blocks, 6).Some?
    ensures var d := Draw(blocks, 6).value;
            RandomPass(Nested(), blocks) == RandomPass("{{ random 4}} {{" + d.text + " ", d.rest)
  {
    hide Nested, Tight, Spaced, FindRandom, Draw, RandomCount;
    NestedCall();
    var d := Draw(blocks, 6).value;
    DrawnIsPlain(blocks, 6);
    RandomShrinks(Nested(), d.text);
    assert Splice(Nested(), 16, d.text, 26) == "{{ random 4}} {{" + d.text + " ";
  }

  function Padded(bytes: seq<Byte>): (b: Block)
    requires |bytes| == 6
  {
    bytes + seq(BLOCK - 6, _ => 0)
  }

  /** Six bytes below the alphabet's length draw the letters they stand for. */
  lemma {:induction false} DrawsSix(bytes: seq<Byte>, rest: seq<Block>)
    requires |bytes| == 6 && forall i :: 0 <= i < 6 ==> bytes[i] < 62
    ensures Draw([Padded(bytes)] + rest, 6)
         == Some(Drawn([Letter(bytes[0]), Letter(bytes[1]), Letter(bytes[2]), Letter(bytes[3]), Letter(bytes[4]),
                        Letter(bytes[5])], rest))
  {
    hide Alphabet, Letter;
    var b, zeros := Padded(bytes), seq(BLOCK - 6, _ => 0);
    LettersConcat(bytes, zeros);
    LettersOfSix(bytes);
    assert ([b] + rest)[0] == b && ([b] + rest)[1..] == rest;
    assert Letters(b) == Letters(bytes) + Letters(zeros);
  }

  lemma {:induction false} LettersOfSix(bytes: seq<Byte>)
    requires |bytes| == 6 && forall i :: 0 <= i < 6 ==> bytes[i] < 62
    ensures Letters(bytes)
         == [Letter(bytes[0]), Letter(bytes[1]), Letter(bytes[2]), Letter(bytes[3]), Letter(bytes[4]), Letter(bytes[5])]
  {
    hide Letter;
    assert Letters(bytes[6..]) == "";
    assert Letters(bytes[5..]) == [Letter(bytes[5])] by { assert bytes[5..][1..] == bytes[6..]; }
    assert Letters(bytes[4..]) == [Letter(bytes[4]), Letter(bytes[5])] by { assert bytes[4..][1..] == bytes[5..]; }
    assert Letters(bytes[3..]) == [Letter(bytes[3]), Letter(bytes[4]), Letter(bytes[5])] by {
      assert bytes[3..][1..] == bytes[4..];
    }
    assert Letters(bytes[2..]) == [Letter(bytes[2]), Letter(bytes[3]), Letter(bytes[4]), Letter(bytes[5])] by {
      assert bytes[2..][1..] == bytes[3..];
    }
    assert Letters(bytes[1..]) == [Letter(bytes[1])] + Letters(bytes[2..]) by { assert bytes[1..][1..] == bytes[2..]; }
    assert bytes[0..] == bytes && bytes[0] < LIMIT;
  }

  lemma {:induction false} LowerLetter(i: Byte)
    requires i < 26
    ensures Letter(i) == 'a' + i as char
  {
    hide Lower, Upper, Digits;
    LowerAt(i);
  }

  lemma {:induction false} SpellsRandom()
    ensures [Letter(17), Letter(0), Letter(13), Letter(3), Letter(14), Letter(12)] == "random"
  {
    hide Letter;
    LowerLetter(17);
    LowerLetter(0);
    LowerLetter(13);
    LowerLetter(3);
    LowerLetter(14);
    LowerLetter(12);
  }

  function Through(): string { "{{ random 4}} {{aaaaaa " }

  lemma {:induction false} TextsAfter()
    ensures "{{ random 4}} {{" + "random" + " " == Blocked()
    ensures "{{ random 4}} {{" + "aaaaaa" + " " == Through()
  {
  }

  lemma {:induction false} ThroughChars()
    ensures var s := Through();
            |s| == 23 && s[11] == '}' && s[12] == '}' && s[16] == 'a'
            && (forall i :: 2 <= i < 23 && i != 14 && i != 15 ==> s[i] != '{') && s[2] == ' '
  {
  }

  lemma {:induction false} ThroughIsPlain()
    ensures Unnested(Through()) && !Dangling(Through())
  {
    hide Through;
    ThroughChars();
    var s := Through();
    assert Doubled(s, 11, '}');
    forall i ensures !OccursAt(s, Tight(), i) {
      if 0 <= i {
        NotAt(s, Tight(), i, if i == 0 || i == 14 then 2 else if i == 1 || i == 15 then 1 else 0);
      }
    }
  }

  /** With nested openers no condition on the text alone will do: on this one some draws
      make a tight opener, on which the pass is stuck before a closed call, and others do
      not, so that every call is evaluated. */
  lemma {:induction false} DrawsDecide() returns (stuck: seq<Block>, through: seq<Block>)
    ensures RandomPass(Nested(), stuck).Some? && HasClosedCall(RandomPass(Nested(), stuck).value.text, Spaced())
    ensures RandomPass(Nested(), through).Some?
            && !HasClosedCall(RandomPass(Nested(), through).value.text, Tight())
            && !HasClosedCall(RandomPass(Nested(), through).value.text, Spaced())
  {
    hide RandomPass, Nested, HasClosedCall, Tight, Spaced, Draw, Padded, Letter, Through, Blocked, Unnested, Dangling;
    TextsAfter();
    stuck := [Padded([17, 0, 13, 3, 14, 12])] + [];
    SpellsRandom();
    DrawsSix([17, 0, 13, 3, 14, 12], []);
    NestedTurn(stuck);
    UnclosedBlocksSpaced([]);
    var more := seq(|Through()|, _ => Padded([0, 0, 0, 0, 0, 0]));
    through := [Padded([0, 0, 0, 0, 0, 0])] + more;
    LowerLetter(0);
    DrawsSix([0, 0, 0, 0, 0, 0], more);
    NestedTurn(through);
    ZerosAreAmple(|more|);
    SpacesBounded(Through());
    AmpleLess(more, |more|, Spaces(Through()));
    EnoughEntropy(Through(), more);
    ThroughIsPlain();
    RandomLeavesExactly(Through(), more);
  }

  lemma {:induction false} ZerosAreAmple(n: nat)
    ensures Ample(seq(n, _ => Padded([0, 0, 0, 0, 0, 0])), n)
  {
  }

  lemma {:induction false} SpacesBounded(s: string)
    ensures Spaces(s) <= |s|
  {
    if s != "" {
      SpacesBounded(s[1..]);
    }
  }
}
