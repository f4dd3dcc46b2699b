/** Segmented templates: brace-free literals and `{{body}}` holes with brace-free
    bodies. On these, rewriting the flat text is the same as rewriting each hole. */
module Segments {
  import opened Text
  import opened Entropy
  import opened Passes
  import opened RandomCalls

  datatype Segment = Lit(text: string) | Hole(body: string)

  predicate BraceFree(s: string) { '{' !in s && '}' !in s }

  predicate CleanSegment(g: Segment) {
    match g
    case Lit(t) => BraceFree(t)
    case Hole(b) => BraceFree(b)
  }

  predicate Segmented(segs: seq<Segment>) {
    forall i :: 0 <= i < |segs| ==> CleanSegment(segs[i])
  }

  function SegmentText(g: Segment): string {
    match g
    case Lit(t) => t
    case Hole(b) => "{{" + b + "}}"
  }

  /** The template text the segments stand for. */
  function Flat(segs: seq<Segment>): string {
    if segs == [] then "" else SegmentText(segs[0]) + Flat(segs[1..])
  }

  // ---- where patterns occur ----

  /** The pattern of an opener, or of a whole placeholder. */
  function Pattern(w: string, whole: bool): (p: string)
    ensures |p| >= 2 && p[0] == '{' && p[1] == '{'
  {
    "{{" + w + (if whole then "}}" else "")
  }

  predicate Matches(g: Segment, w: string, whole: bool) {
    g.Hole? && if whole then g.body == w else w <= g.body
  }

  lemma {:induction false} NoneInLit(t: string, rest: string, pat: string)
    requires BraceFree(t) && pat != "" && pat[0] == '{'
    ensures forall k :: 0 <= k < |t| ==> !OccursAt(t + rest, pat, k)
  {
    forall k | 0 <= k < |t| ensures !OccursAt(t + rest, pat, k) {
      NotAt(t + rest, pat, k, 0);
    }
  }

  /** A pattern standing at a hole matches the hole. */
  lemma {:induction false} AtHole(b: string, rest: string, w: string, whole: bool)
    requires BraceFree(b) && BraceFree(w) && !Matches(Hole(b), w, whole)
    ensures !OccursAt("{{" + b + "}}" + rest, Pattern(w, whole), 0)
  {
    var s, pat := "{{" + b + "}}" + rest, Pattern(w, whole);
    assert forall k :: 0 <= k < |w| ==> pat[k + 2] == w[k];
    assert forall k :: 0 <= k < |b| ==> s[k + 2] == b[k];
    assert s[|b| + 2] == '}';
    if |b| < |w| {
      NotAt(s, pat, 0, |b| + 2);
    } else if w <= b {
      NotAt(s, pat, 0, |w| + 2);
    } else {
      var j :| 0 <= j < |w| && w[j] != b[j];
      NotAt(s, pat, 0, j + 2);
    }
  }

  lemma {:induction false} NoneInHole(b: string, rest: string, w: string, whole: bool)
    requires BraceFree(b) && BraceFree(w) && !Matches(Hole(b), w, whole)
    ensures forall k :: 0 <= k < |b| + 4 ==> !OccursAt("{{" + b + "}}" + rest, Pattern(w, whole), k)
  {
    var s, pat := "{{" + b + "}}" + rest, Pattern(w, whole);
    forall k | 0 <= k < |b| + 4 ensures !OccursAt(s, pat, k) {
      assert forall j :: 0 <= j < |b| ==> s[j + 2] == b[j];
      if k == 0 {
        AtHole(b, rest, w, whole);
      } else if k == 1 {
        assert b != "" ==> s[2] == b[0];
        NotAt(s, pat, k, 1);
      } else {
        assert k < |b| + 2 ==> s[k] == b[k - 2];
        NotAt(s, pat, k, 0);
      }
    }
  }

  /** No pattern starts within a segment it does not match. */
  lemma {:induction false} NoneInSegment(g: Segment, rest: string, w: string, whole: bool)
    requires CleanSegment(g) && BraceFree(w) && !Matches(g, w, whole)
    ensures forall k :: 0 <= k < |SegmentText(g)| ==> !OccursAt(SegmentText(g) + rest, Pattern(w, whole), k)
  {
    match g
    case Lit(t) => NoneInLit(t, rest, Pattern(w, whole));
    case Hole(b) => NoneInHole(b, rest, w, whole);
  }

  lemma {:induction false} HoleStarts(b: string, rest: string, w: string, whole: bool)
    requires Matches(Hole(b), w, whole)
    ensures Pattern(w, whole) <= "{{" + b + "}}" + rest
  {
  }

  // ---- the first call of a pass ----

  /** The first hole whose body starts with `w`, or the number of segments. */
  function First(segs: seq<Segment>, w: string): (i: nat)
    ensures i <= |segs|
    ensures i < |segs| ==> Matches(segs[i], w, false)
    ensures forall j :: 0 <= j < i ==> !Matches(segs[j], w, false)
  {
    if segs == [] || Matches(segs[0], w, false) then 0
    else
      var r := First(segs[1..], w);
      assert forall j :: 1 <= j < r + 1 ==> segs[j] == segs[1..][j - 1];
      r + 1
  }

  lemma {:induction false} FlatSplit(segs: seq<Segment>, i: nat)
    requires i < |segs|
    ensures Flat(segs) == Flat(segs[..i]) + (SegmentText(segs[i]) + Flat(segs[i + 1..]))
  {
    hide SegmentText;
    if i == 0 {
      assert segs[..0] == [];
    } else {
      FlatSplit(segs[1..], i - 1);
      assert segs[1..][..i - 1] == segs[..i][1..];
      assert segs[1..][i..] == segs[i + 1..];
      Associate(SegmentText(segs[0]), Flat(segs[..i][1..]), SegmentText(segs[i]) + Flat(segs[i + 1..]));
    }
  }

  lemma {:induction false} Associate(a: string, b: string, c: string)
    ensures a + (b + c) == (a + b) + c
  {
  }

  lemma {:induction false} IndexOfOpener(segs: seq<Segment>, w: string)
    requires Segmented(segs) && BraceFree(w)
    ensures Index(Flat(segs), "{{" + w) ==
            if First(segs, w) == |segs| then -1 else |Flat(segs[..First(segs, w)])|
  {
    hide Matches, SegmentText, Index;
    var pat := Pattern(w, false);
    assert pat == "{{" + w;
    if segs == [] {
      EmptyHasNone(pat);
    } else {
      var g, rest := segs[0], Flat(segs[1..]);
      if Matches(g, w, false) {
        OpenerAtFront(g, rest, w);
        assert segs[..0] == [];
      } else {
        NoneInSegment(g, rest, w, false);
        IndexSkip(SegmentText(g), rest, pat);
        IndexOfOpener(segs[1..], w);
        var r := First(segs[1..], w);
        assert First(segs, w) == r + 1;
        assert segs[..r + 1][1..] == segs[1..][..r];
      }
    }
  }

  lemma {:induction false} EmptyHasNone(pat: string)
    requires pat != ""
    ensures Index("", pat) == -1
  {
  }

  lemma {:induction false} OpenerAtFront(g: Segment, rest: string, w: string)
    requires Matches(g, w, false)
    ensures Index(SegmentText(g) + rest, Pattern(w, false)) == 0
  {
    HoleStarts(g.body, rest, w, false);
  }

  lemma {:induction false} CloserOfHole(b: string, rest: string)
    requires BraceFree(b)
    ensures Index("{{" + b + "}}" + rest, "}}") == |b| + 2
  {
    var a, tail := "{{" + b, "}}" + rest;
    assert "{{" + b + "}}" + rest == a + tail;
    forall k | 0 <= k < |a| ensures !OccursAt(a + tail, "}}", k) {
      NotAt(a + tail, "}}", k, 0);
    }
    IndexSkip(a, tail, "}}");
    assert "}}" <= tail;
  }

  /** The call a pass takes next is the first hole that calls it. */
  lemma {:induction false} FirstCall(segs: seq<Segment>, w: string)
    requires Segmented(segs) && BraceFree(w)
    ensures var i := First(segs, w);
            FindCall(Flat(segs), "{{" + w) ==
            if i == |segs| then None
            else Some(Call(|Flat(segs[..i])|, |Flat(segs[..i])| + |segs[i].body| + 2))
  {
    hide Index;
    IndexOfOpener(segs, w);
    var i := First(segs, w);
    if i < |segs| {
      FlatSplit(segs, i);
      var start := |Flat(segs[..i])|;
      assert CleanSegment(segs[i]);
      CloserOfHole(segs[i].body, Flat(segs[i + 1..]));
      assert Flat(segs)[start..] == SegmentText(segs[i]) + Flat(segs[i + 1..]);
    }
  }

  /** Splicing a value over a hole replaces the segment. */
  lemma {:induction false} SpliceHole(segs: seq<Segment>, i: nat, value: string)
    requires i < |segs| && segs[i].Hole?
    ensures var start, b := |Flat(segs[..i])|, segs[i].body;
            start + |b| + 4 <= |Flat(segs)|
            && Flat(segs)[start + 2..start + |b| + 2] == b
            && Splice(Flat(segs), start, value, start + |b| + 2) == Flat(segs[i := Lit(value)])
  {
    hide Flat;
    var b, next := segs[i].body, segs[i := Lit(value)];
    var pre, post := Flat(segs[..i]), Flat(segs[i + 1..]);
    FlatSplit(segs, i);
    FlatSplit(next, i);
    assert next[..i] == segs[..i] && next[i + 1..] == segs[i + 1..];
    SpliceText(pre, b, post, value);
  }

  lemma {:induction false} SpliceText(pre: string, b: string, post: string, value: string)
    ensures var s := pre + ("{{" + b + "}}" + post);
            s[|pre| + 2..|pre| + |b| + 2] == b
            && s[..|pre|] + value + s[|pre| + |b| + 4..] == pre + (value + post)
  {
    var s := pre + ("{{" + b + "}}" + post);
    assert s[..|pre|] == pre;
    assert s[|pre| + |b| + 4..] == post;
  }

  // ---- token substitution ----

  /** Replaces every hole whose body is a key of `m`. */
  function FillSegment(g: Segment, m: map<string, string>): Segment {
    if g.Hole? && g.body in m then Lit(m[g.body]) else g
  }

  function Fill(segs: seq<Segment>, m: map<string, string>): (r: seq<Segment>)
    ensures |r| == |segs| && forall i :: 0 <= i < |segs| ==> r[i] == FillSegment(segs[i], m)
  {
    if segs == [] then [] else [FillSegment(segs[0], m)] + Fill(segs[1..], m)
  }

  /** Replacing one placeholder in the text fills the holes with that body. */
  lemma {:induction false} ReplaceFills(segs: seq<Segment>, w: string, value: string)
    requires Segmented(segs) && BraceFree(w)
    ensures ReplaceAll(Flat(segs), "{{" + w + "}}", value) == Flat(Fill(segs, map[w := value]))
  {
    hide Matches, ReplaceAll, SegmentText, FillSegment;
    var pat := Pattern(w, true);
    assert pat == "{{" + w + "}}";
    if segs == [] {
      ReplaceNothing(pat, value);
    } else {
      var g, rest := segs[0], Flat(segs[1..]);
      ReplaceFills(segs[1..], w, value);
      ReplaceSegment(g, rest, w, value);
    }
  }

  lemma {:induction false} ReplaceNothing(pat: string, value: string)
    requires pat != ""
    ensures ReplaceAll("", pat, value) == ""
  {
  }

  lemma {:induction false} ReplaceSegment(g: Segment, rest: string, w: string, value: string)
    requires CleanSegment(g) && BraceFree(w)
    ensures ReplaceAll(SegmentText(g) + rest, Pattern(w, true), value)
            == SegmentText(FillSegment(g, map[w := value])) + ReplaceAll(rest, Pattern(w, true), value)
  {
    hide ReplaceAll;
    var pat := Pattern(w, true);
    if Matches(g, w, true) {
      HoleStarts(w, rest, w, true);
      assert SegmentText(g) == pat;
      ReplaceFront(pat, rest, value);
    } else {
      NoneInSegment(g, rest, w, true);
      ReplaceAllSkip(SegmentText(g), rest, pat, value);
    }
  }

  lemma {:induction false} ReplaceFront(pat: string, rest: string, value: string)
    requires pat != ""
    ensures ReplaceAll(pat + rest, pat, value) == value + ReplaceAll(rest, pat, value)
  {
    assert pat <= pat + rest;
    assert (pat + rest)[|pat|..] == rest;
  }

  lemma {:induction false} FillTwice(segs: seq<Segment>, m1: map<string, string>, m2: map<string, string>)
    ensures Fill(Fill(segs, m1), m2) == Fill(segs, m2 + m1)
  {
    forall i | 0 <= i < |segs| ensures Fill(Fill(segs, m1), m2)[i] == Fill(segs, m2 + m1)[i] {
    }
  }

  lemma {:induction false} FillKeepsClean(segs: seq<Segment>, m: map<string, string>)
    requires Segmented(segs) && forall k :: k in m ==> BraceFree(m[k])
    ensures Segmented(Fill(segs, m))
  {
    forall i | 0 <= i < |segs| ensures CleanSegment(Fill(segs, m)[i]) {
      assert CleanSegment(segs[i]);
    }
  }

  // ---- the function passes ----

  function PassSegment(p: Pass, g: Segment, tokens: Tokens): Segment {
    if g.Hole? && Keyword(p) <= g.body then Lit(CallValue(p, g.body[|Keyword(p)|..], tokens)) else g
  }

  function PassAll(p: Pass, segs: seq<Segment>, tokens: Tokens): (r: seq<Segment>)
    ensures |r| == |segs| && forall i :: 0 <= i < |segs| ==> r[i] == PassSegment(p, segs[i], tokens)
  {
    if segs == [] then [] else [PassSegment(p, segs[0], tokens)] + PassAll(p, segs[1..], tokens)
  }

  predicate CleanPass(p: Pass) { p.Unary? ==> BraceFree(p.name) }

  lemma {:induction false} CallValueClean(p: Pass, inner: string, tokens: Tokens)
    requires PlainTokens(tokens) && BraceFree(inner)
    ensures BraceFree(CallValue(p, inner, tokens))
  {
    hide TruncateValue, ReplaceValue, TrimSpace, Recase;
    match p
    case Unary(_, casing) =>
      var arg := TrimSpace(inner);
      TrimSpaceCount(inner, '{');
      TrimSpaceCount(inner, '}');
      RecaseCount(casing, ResolveArg(arg, tokens), '{');
      RecaseCount(casing, ResolveArg(arg, tokens), '}');
    case Truncate =>
      TruncateValueAvoids(inner, tokens, '{');
      TruncateValueAvoids(inner, tokens, '}');
    case Replace =>
      ReplaceValueAvoids(inner, tokens, '{');
      ReplaceValueAvoids(inner, tokens, '}');
  }

  lemma {:induction false} PassKeepsClean(p: Pass, segs: seq<Segment>, tokens: Tokens)
    requires PlainTokens(tokens) && Segmented(segs)
    ensures Segmented(PassAll(p, segs, tokens))
  {
    hide CallValue, Keyword;
    forall i | 0 <= i < |segs| ensures CleanSegment(PassAll(p, segs, tokens)[i]) {
      assert CleanSegment(segs[i]);
      if segs[i].Hole? && Keyword(p) <= segs[i].body {
        CallValueClean(p, segs[i].body[|Keyword(p)|..], tokens);
      }
    }
  }

  /** One turn of a pass on the text rewrites the first segment that calls it. */
  lemma {:induction false} PassStep(p: Pass, segs: seq<Segment>, tokens: Tokens)
    requires CleanPass(p) && Segmented(segs)
    ensures var i := First(segs, Keyword(p));
            Step(p, Flat(segs), tokens) ==
            if i == |segs| then None
            else Some(Flat(segs[i := Lit(CallValue(p, segs[i].body[|Keyword(p)|..], tokens))]))
  {
    hide CallValue, FindCall, Flat;
    var w := Keyword(p);
    assert BraceFree(w);
    FirstCall(segs, w);
    var i := First(segs, w);
    if i < |segs| {
      var b := segs[i].body;
      var start := |Flat(segs[..i])|;
      var value := CallValue(p, b[|w|..], tokens);
      SpliceHole(segs, i, value);
      assert Flat(segs)[start + 2..start + |b| + 2][|w|..] == Flat(segs)[start + 2 + |w|..start + |b| + 2];
    }
  }

  /** A pass on the text is the pass on each segment. */
  lemma {:induction false} PassIsSegmentwise(p: Pass, segs: seq<Segment>, tokens: Tokens)
    requires CleanPass(p) && PlainTokens(tokens) && Segmented(segs)
    ensures RunPass(p, Flat(segs), tokens) == Flat(PassAll(p, segs, tokens))
    decreases |segs| - First(segs, Keyword(p))
  {
    hide CallValue, Step, Flat, Keyword, RunPass, PassAll, First;
    var i := First(segs, Keyword(p));
    PassStep(p, segs, tokens);
    RunPassStep(p, Flat(segs), tokens);
    if i == |segs| {
      PassNone(p, segs, tokens);
    } else {
      assert CleanSegment(segs[i]);
      var value := CallValue(p, segs[i].body[|Keyword(p)|..], tokens);
      CallValueClean(p, segs[i].body[|Keyword(p)|..], tokens);
      var next := segs[i := Lit(value)];
      FirstMovesOn(segs, Keyword(p), value);
      PassIsSegmentwise(p, next, tokens);
      PassOne(p, segs, i, tokens);
    }
  }

  lemma {:induction false} PassNone(p: Pass, segs: seq<Segment>, tokens: Tokens)
    requires First(segs, Keyword(p)) == |segs|
    ensures PassAll(p, segs, tokens) == segs
  {
    forall j | 0 <= j < |segs| ensures PassAll(p, segs, tokens)[j] == segs[j] {
      assert !Matches(segs[j], Keyword(p), false);
    }
  }

  lemma {:induction false} PassOne(p: Pass, segs: seq<Segment>, i: nat, tokens: Tokens)
    requires i < |segs| && Matches(segs[i], Keyword(p), false)
    ensures PassAll(p, segs[i := Lit(CallValue(p, segs[i].body[|Keyword(p)|..], tokens))], tokens)
            == PassAll(p, segs, tokens)
  {
    hide CallValue, Keyword;
  }

  // ---- the random pass ----

  datatype DrawnSegments = DrawnSegments(segs: seq<Segment>, rest: seq<Block>)

  /** Draws for every hole that starts with `w`, from left to right. */
  function DrawHoles(segs: seq<Segment>, w: string, blocks: seq<Block>): Option<DrawnSegments>
    decreases |segs| - First(segs, w)
  {
    var i := First(segs, w);
    if i == |segs| then Some(DrawnSegments(segs, blocks))
    else match Draw(blocks, RandomCount(segs[i].body))
      case None => None
      case Some(d) =>
        FirstMovesOn(segs, w, d.text);
        DrawHoles(segs[i := Lit(d.text)], w, d.rest)
  }

  lemma {:induction false} FirstMovesOn(segs: seq<Segment>, w: string, text: string)
    requires First(segs, w) < |segs|
    ensures First(segs[First(segs, w) := Lit(text)], w) > First(segs, w)
  {
    var i := First(segs, w);
    var next := segs[i := Lit(text)];
    assert forall j :: 0 <= j <= i ==> !Matches(next[j], w, false);
  }

  /** All random holes: the tight ones first, then the spaced ones. */
  function DrawAll(segs: seq<Segment>, blocks: seq<Block>): Option<DrawnSegments> {
    match DrawHoles(segs, "random ", blocks)
    case None => None
    case Some(d) => DrawHoles(d.segs, " random ", d.rest)
  }

  predicate IsRandomHole(g: Segment) {
    Matches(g, "random ", false) || Matches(g, " random ", false)
  }

  /** What drawing for the holes that start with `w` does to one segment. */
  ghost predicate DrawnFor(g: Segment, drawn: Segment, w: string) {
    if Matches(g, w, false) then drawn.Lit? && IsPlain(drawn.text) && |drawn.text| == RandomCount(g.body)
    else drawn == g
  }

  lemma {:induction false} DrawHolesFacts(segs: seq<Segment>, w: string, blocks: seq<Block>)
    requires DrawHoles(segs, w, blocks).Some?
    ensures var r := DrawHoles(segs, w, blocks).value.segs;
            |r| == |segs| && First(r, w) == |r| && forall i :: 0 <= i < |segs| ==> DrawnFor(segs[i], r[i], w)
    decreases |segs| - First(segs, w)
  {
    hide RandomCount, Draw;
    var i := First(segs, w);
    if i < |segs| {
      var d := Draw(blocks, RandomCount(segs[i].body)).value;
      DrawnIsPlain(blocks, RandomCount(segs[i].body));
      FirstMovesOn(segs, w, d.text);
      var next := segs[i := Lit(d.text)];
      DrawHolesFacts(next, w, d.rest);
      var r := DrawHoles(next, w, d.rest).value.segs;
      forall j | 0 <= j < |segs| ensures DrawnFor(segs[j], r[j], w) {
        assert DrawnFor(next[j], r[j], w);
      }
    } else {
      forall j | 0 <= j < |segs| ensures DrawnFor(segs[j], segs[j], w) {
        assert !Matches(segs[j], w, false);
      }
    }
  }

  /** Each random hole becomes a literal of exactly the length it asks for; every
      other segment is left alone. */
  lemma {:induction false} DrawAllFacts(segs: seq<Segment>, blocks: seq<Block>)
    requires DrawAll(segs, blocks).Some?
    ensures var r := DrawAll(segs, blocks).value.segs;
            |r| == |segs| && forall i :: 0 <= i < |segs| ==>
              if IsRandomHole(segs[i]) then r[i].Lit? && IsPlain(r[i].text) && |r[i].text| == RandomCount(segs[i].body)
              else r[i] == segs[i]
  {
    hide RandomCount, DrawHoles;
    var d := DrawHoles(segs, "random ", blocks).value;
    DrawHolesFacts(segs, "random ", blocks);
    DrawHolesFacts(d.segs, " random ", d.rest);
    var r := DrawAll(segs, blocks).value.segs;
    forall i | 0 <= i < |segs| ensures
      if IsRandomHole(segs[i]) then r[i].Lit? && IsPlain(r[i].text) && |r[i].text| == RandomCount(segs[i].body)
      else r[i] == segs[i]
    {
      assert DrawnFor(segs[i], d.segs[i], "random ");
      assert DrawnFor(d.segs[i], r[i], " random ");
    }
  }

  lemma {:induction false} DrawKeepsClean(segs: seq<Segment>, blocks: seq<Block>)
    requires Segmented(segs) && DrawAll(segs, blocks).Some?
    ensures Segmented(DrawAll(segs, blocks).value.segs)
  {
    hide DrawAll;
    DrawAllFacts(segs, blocks);
    var r := DrawAll(segs, blocks).value.segs;
    forall i | 0 <= i < |segs| ensures CleanSegment(r[i]) {
      assert CleanSegment(segs[i]);
    }
  }

  /** The random pass on the text: draw for the tight holes, then for the spaced ones. */
  lemma {:induction false} RandomIsSegmentwise(segs: seq<Segment>, blocks: seq<Block>)
    requires Segmented(segs)
    ensures RandomPass(Flat(segs), blocks) ==
            match DrawAll(segs, blocks)
            case None => None
            case Some(d) => Some(Drawn(Flat(d.segs), d.rest))
    decreases |segs| - First(segs, "random "), |segs| - First(segs, " random ")
  {
    hide Flat, FindCall, RandomCount, Draw, First, Index, DrawHoles;
    var tight, spaced := First(segs, "random "), First(segs, " random ");
    FirstCall(segs, "random ");
    FirstCall(segs, " random ");
    IndexOfOpener(segs, "random ");
    assert Tight() == "{{" + "random " && Spaced() == "{{" + " random ";
    DrawTurn(segs, "random ", blocks);
    DrawTurn(segs, " random ", blocks);
    var w := if tight < |segs| then "random " else " random ";
    var i := First(segs, w);
    if i < |segs| {
      var n := RandomCount(segs[i].body);
      match Draw(blocks, n)
      case None =>
        RandomTurn(segs, i, blocks);
      case Some(d) =>
        RandomTurn(segs, i, blocks);
        DrawnIsPlain(blocks, n);
        var next := segs[i := Lit(d.text)];
        assert Segmented(next);
        FirstMovesOn(segs, w, d.text);
        FirstAfter(segs, i, "random ", d.text);
        RandomIsSegmentwise(next, d.rest);
        DrawTurn(next, "random ", d.rest);
    }
  }

  /** One turn of `DrawHoles`. */
  lemma {:induction false} DrawTurn(segs: seq<Segment>, w: string, blocks: seq<Block>)
    ensures var i := First(segs, w);
            DrawHoles(segs, w, blocks) ==
            if i == |segs| then Some(DrawnSegments(segs, blocks))
            else match Draw(blocks, RandomCount(segs[i].body))
              case None => None
              case Some(d) => DrawHoles(segs[i := Lit(d.text)], w, d.rest)
  {
  }

  /** Filling a later hole does not uncover an earlier one. */
  lemma {:induction false} FirstAfter(segs: seq<Segment>, i: nat, w: string, text: string)
    requires i < |segs|
    ensures First(segs, w) == |segs| ==> First(segs[i := Lit(text)], w) == |segs|
  {
    if First(segs, w) == |segs| {
      var next := segs[i := Lit(text)];
      assert forall j :: 0 <= j < |segs| ==> !Matches(next[j], w, false);
    }
  }

  /** One turn of the random loop on a segmented text. */
  lemma {:induction false} RandomTurn(segs: seq<Segment>, i: nat, blocks: seq<Block>)
    requires i < |segs| && segs[i].Hole?
    requires FindRandom(Flat(segs)) == Some(Call(|Flat(segs[..i])|, |Flat(segs[..i])| + |segs[i].body| + 2))
    ensures RandomPass(Flat(segs), blocks) ==
            match Draw(blocks, RandomCount(segs[i].body))
            case None => None
            case Some(d) => RandomPass(Flat(segs[i := Lit(d.text)]), d.rest)
  {
    hide Flat, FindRandom, RandomCount, Draw, Splice;
    SpliceHole(segs, i, "");
    match Draw(blocks, RandomCount(segs[i].body))
    case None =>
    case Some(d) => SpliceHole(segs, i, d.text);
  }
}
