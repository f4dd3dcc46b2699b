/** Rendering a username template. */
module Username {
  import opened Text
  import opened Entropy
  import opened Passes
  import opened RandomCalls
  import opened Segments
  import opened Statements

  function TokenMap(randomUsername: string, unix: int, identity: string, secretName: string,
                    secretType: string): Tokens {
    map[
      "randomUsername" := randomUsername,
      "unixTimestamp" := IntText(unix),
      "identity.name" := Sanitized(identity),
      "dynamicSecret.name" := Sanitized(secretName),
      "dynamicSecret.type" := Sanitized(secretType)
    ]
  }

  /** The text the passes start from. */
  function Source(template: string): string {
    if TrimSpace(template) == "" then "{{randomUsername}}" else TrimSpace(template)
  }

  function UpperPass(): Pass { Unary("uppercase", UpperCase) }

  function LowerPass(): Pass { Unary("lowercase", LowerCase) }

  function Functions(source: string, tokens: Tokens): string
    requires PlainTokens(tokens)
  {
    RunPass(Replace, RunPass(Truncate, RunPass(LowerPass(), RunPass(UpperPass(), source, tokens), tokens), tokens),
            tokens)
  }

  /** Everything after the random username is drawn, for one iteration order of the tokens. */
  function Render(source: string, order: seq<string>, tokens: Tokens, blocks: seq<Block>): Option<Drawn>
    requires PlainTokens(tokens) && "randomUsername" in tokens
    requires forall n :: n in order ==> n in tokens
  {
    match RandomPass(Fold(source, order, tokens), blocks)
    case None => None
    case Some(d) =>
      var text := Functions(d.text, tokens);
      Some(Drawn(if text == "" then tokens["randomUsername"] else text, d.rest))
  }

  lemma {:induction false} IntTextIsPlain(n: int)
    ensures IsPlain(IntText(n)) && IntText(n) != ""
  {
    var digits := NatText(if n < 0 then -n else n);
    assert forall c :: c in digits ==> IsDigit(c);
  }

  lemma {:induction false} TokensArePlain(randomUsername: string, unix: int, identity: string, secretName: string,
                                          secretType: string)
    requires IsPlain(randomUsername)
    ensures PlainTokens(TokenMap(randomUsername, unix, identity, secretName, secretType))
  {
    hide Sanitized, IntText;
    IntTextIsPlain(unix);
    SanitizedIsPlain(identity);
    SanitizedIsPlain(secretName);
    SanitizedIsPlain(secretType);
  }

  method ApplyFunctions(source: string, tokens: Tokens) returns (r: string)
    requires PlainTokens(tokens)
    ensures r == Functions(source, tokens)
  {
    hide RunPass, PlainTokens;
    r := ApplyUnary(source, "uppercase", UpperCase, tokens);
    r := ApplyUnary(r, "lowercase", LowerCase, tokens);
    r := ApplyTruncate(r, tokens);
    r := ApplyReplace(r, tokens);
  }

  /** What a rendering may be: the random username is drawn first, then the passes
      run with the tokens in some order. None stands for the entropy panic. */
  ghost predicate Rendering(template: string, identity: string, secretName: string, secretType: string,
                            unix: int, blocks: seq<Block>, result: Option<Drawn>) {
    match Draw(blocks, 32)
    case None => result == None
    case Some(first) =>
      var tokens := TokenMap(first.text, unix, identity, secretName, secretType);
      PlainTokens(tokens)
      && exists order :: IsOrder(order, tokens) && result == Render(Source(template), order, tokens, first.rest)
  }

  method RenderUsername(template: string, identityName: string, dynamicSecretName: string, dynamicSecretType: string,
                        unix: int, entropy: Entropy.Source) returns (r: Option<string>)
    modifies entropy
    ensures r == None ==> Rendering(template, identityName, dynamicSecretName, dynamicSecretType, unix,
                                    old(entropy.blocks), None)
    ensures r.Some? ==> Rendering(template, identityName, dynamicSecretName, dynamicSecretType, unix,
                                  old(entropy.blocks), Some(Drawn(r.value, entropy.blocks)))
    ensures r.Some? ==> r.value != ""
  {
    hide Draw, Fold, RandomPass, Functions, Sanitized, IntText, TrimSpace, PlainTokens;
    var source := TrimSpace(template);
    if source == "" {
      source := "{{randomUsername}}";
    }
    assert source == Source(template);
    ghost var before := entropy.blocks;
    var randomUsername := entropy.RandomString(32);
    if randomUsername == None {
      return None;
    }
    DrawnIsPlain(before, 32);
    var unixText := IntText(unix);
    var identity := Sanitize(identityName);
    var secretName := Sanitize(dynamicSecretName);
    var secretType := Sanitize(dynamicSecretType);
    var tokens := map[
      "randomUsername" := randomUsername.value,
      "unixTimestamp" := unixText,
      "identity.name" := identity,
      "dynamicSecret.name" := secretName,
      "dynamicSecret.type" := secretType
    ];
    assert tokens == TokenMap(randomUsername.value, unix, identityName, dynamicSecretName, dynamicSecretType);
    TokensArePlain(randomUsername.value, unix, identityName, dynamicSecretName, dynamicSecretType);
    ghost var between := entropy.blocks;
    var filled := RenderStatements(source, tokens);
    ghost var order :| IsOrder(order, tokens) && filled == Fold(source, order, tokens);
    var drawn := ReplaceRandomN(filled, entropy);
    if drawn == None {
      assert Render(source, order, tokens, between) == None;
      return None;
    }
    var rendered := ApplyFunctions(drawn.value, tokens);
    assert |randomUsername.value| == 32;
    if rendered == "" {
      assert Render(source, order, tokens, between) == Some(Drawn(randomUsername.value, entropy.blocks));
      return randomUsername;
    }
    assert Render(source, order, tokens, between) == Some(Drawn(rendered, entropy.blocks));
    return Some(rendered);
  }

  // ---- a source that lasts ----

  lemma {:induction false} FoldSpaces(source: string, order: seq<string>, vars: Tokens)
    requires PlainTokens(vars) && forall n :: n in order ==> n in vars
    ensures Spaces(Fold(source, order, vars)) <= Spaces(source)
  {
    hide ReplaceAll, Count;
    if order != [] {
      var n := order[|order| - 1];
      var before := Fold(source, order[..|order| - 1], vars);
      FoldSpaces(source, order[..|order| - 1], vars);
      assert ' ' !in vars[n];
      CountAbsent(vars[n], ' ');
      ReplaceAllCount(before, "{{" + n + "}}", vars[n], ' ');
      ReplaceAllCount(ReplaceAll(before, "{{" + n + "}}", vars[n]), "{{ " + n + " }}", vars[n], ' ');
    }
  }

  /** With a draw in reserve for every space of the template, rendering does not panic. */
  lemma {:induction false} RenderingLasts(template: string, identity: string, secretName: string, secretType: string,
                                          unix: int, blocks: seq<Block>)
    requires Ample(blocks, Spaces(Source(template)) + 1)
    ensures !Rendering(template, identity, secretName, secretType, unix, blocks, None)
  {
    hide Draw, Ample, Spaces, Fold, RandomPass, Functions, TokenMap, PlainTokens;
    AmpleDraw(blocks, Spaces(Source(template)) + 1, 32);
    var first := Draw(blocks, 32).value;
    var tokens := TokenMap(first.text, unix, identity, secretName, secretType);
    if PlainTokens(tokens) {
      forall order | IsOrder(order, tokens)
        ensures RandomPass(Fold(Source(template), order, tokens), first.rest).Some? {
        FoldSpaces(Source(template), order, tokens);
        AmpleLess(first.rest, Spaces(Source(template)), Spaces(Fold(Source(template), order, tokens)));
        EnoughEntropy(Fold(Source(template), order, tokens), first.rest);
      }
    }
  }

  // ---- the one-shot meaning of a segmented template ----

  /** What one segment means once tokens are filled in and random holes drawn. */
  function SegmentMeaning(g: Segment, tokens: Tokens): string {
    match g
    case Lit(t) => t
    case Hole(b) =>
      if "uppercase " <= b then Recase(UpperCase, ResolveArg(TrimSpace(b[10..]), tokens))
      else if "lowercase " <= b then Recase(LowerCase, ResolveArg(TrimSpace(b[10..]), tokens))
      else if "truncate " <= b then TruncateValue(b[9..], tokens)
      else if "replace " <= b then ReplaceValue(b[8..], tokens)
      else "{{" + b + "}}"
  }

  function Meaning(segs: seq<Segment>, tokens: Tokens): string {
    if segs == [] then "" else SegmentMeaning(segs[0], tokens) + Meaning(segs[1..], tokens)
  }

  function AllPasses(segs: seq<Segment>, tokens: Tokens): seq<Segment> {
    PassAll(Replace, PassAll(Truncate, PassAll(LowerPass(), PassAll(UpperPass(), segs, tokens), tokens), tokens),
            tokens)
  }

  lemma {:induction false} FourPassesOnSegment(g: Segment, tokens: Tokens)
    ensures SegmentText(PassSegment(Replace, PassSegment(Truncate, PassSegment(LowerPass(),
              PassSegment(UpperPass(), g, tokens), tokens), tokens), tokens))
            == SegmentMeaning(g, tokens)
  {
    hide Recase, TruncateValue, ReplaceValue, TrimSpace;
    assert Keyword(UpperPass()) == "uppercase " && Keyword(LowerPass()) == "lowercase ";
  }

  lemma {:induction false} AllPassesMean(segs: seq<Segment>, tokens: Tokens)
    ensures Flat(AllPasses(segs, tokens)) == Meaning(segs, tokens)
  {
    hide PassSegment, SegmentMeaning, SegmentText;
    if segs != [] {
      FourPassesOnSegment(segs[0], tokens);
      AllPassesMean(segs[1..], tokens);
    }
  }

  lemma {:induction false} FunctionsMean(segs: seq<Segment>, tokens: Tokens)
    requires PlainTokens(tokens) && Segmented(segs)
    ensures Functions(Flat(segs), tokens) == Meaning(segs, tokens)
  {
    hide RunPass, PassAll, Flat, PlainTokens;
    PassIsSegmentwise(UpperPass(), segs, tokens);
    PassKeepsClean(UpperPass(), segs, tokens);
    var s1 := PassAll(UpperPass(), segs, tokens);
    PassIsSegmentwise(LowerPass(), s1, tokens);
    PassKeepsClean(LowerPass(), s1, tokens);
    var s2 := PassAll(LowerPass(), s1, tokens);
    PassIsSegmentwise(Truncate, s2, tokens);
    PassKeepsClean(Truncate, s2, tokens);
    PassIsSegmentwise(Replace, PassAll(Truncate, s2, tokens), tokens);
    AllPassesMean(segs, tokens);
  }

  lemma {:induction false} TokensAreClean(randomUsername: string, unix: int, identity: string, secretName: string,
                                          secretType: string)
    requires IsPlain(randomUsername)
    ensures var tokens := TokenMap(randomUsername, unix, identity, secretName, secretType);
            PlainTokens(tokens) && CleanVars(tokens) && NoClash(tokens)
  {
    hide Sanitized, IntText;
    TokensArePlain(randomUsername, unix, identity, secretName, secretType);
    var tokens := TokenMap(randomUsername, unix, identity, secretName, secretType);
    forall n | n in tokens ensures BraceFree(n) && BraceFree(tokens[n]) && n[0] != ' ' {
      assert IsPlain(tokens[n]);
    }
    assert forall m :: Spelled(m)[0] == ' ';
  }

  /** The main result. On a segmented template the whole pipeline, in whatever order
      the token map is ranged over, is: fill all token holes at once, draw once for
      each random hole, evaluate each remaining hole once, and concatenate. */
  lemma {:induction false} PipelineIsOneShot(template: string, segs: seq<Segment>, order: seq<string>,
                                             blocks: seq<Block>,
                          randomUsername: string, unix: int, identity: string, secretName: string, secretType: string)
    requires Segmented(segs) && Source(template) == Flat(segs)
    requires IsPlain(randomUsername)
    requires IsOrder(order, TokenMap(randomUsername, unix, identity, secretName, secretType))
    ensures var tokens := TokenMap(randomUsername, unix, identity, secretName, secretType);
            PlainTokens(tokens)
            && Render(Source(template), order, tokens, blocks) ==
               match DrawAll(Fill(segs, Simultaneous(tokens)), blocks)
               case None => None
               case Some(d) =>
                 var text := Meaning(d.segs, tokens);
                 Some(Drawn(if text == "" then randomUsername else text, d.rest))
  {
    hide Flat, Fold, RandomPass, Functions, DrawAll, Simultaneous, PlainTokens, Meaning;
    var tokens := TokenMap(randomUsername, unix, identity, secretName, secretType);
    TokensAreClean(randomUsername, unix, identity, secretName, secretType);
    OrderInvisible(segs, tokens, order);
    var filled := Fill(segs, Simultaneous(tokens));
    forall b | b in Simultaneous(tokens) ensures BraceFree(Simultaneous(tokens)[b]) {
      SimultaneousIs(tokens, b);
    }
    FillKeepsClean(segs, Simultaneous(tokens));
    RandomIsSegmentwise(filled, blocks);
    if DrawAll(filled, blocks).Some? {
      DrawKeepsClean(filled, blocks);
      FunctionsMean(DrawAll(filled, blocks).value.segs, tokens);
    }
  }

  // ---- trimming keeps a template segmented ----

  lemma {:induction false} TrimLeftSegments(segs: seq<Segment>) returns (r: seq<Segment>)
    requires Segmented(segs)
    ensures Segmented(r) && Flat(r) == TrimLeft(Flat(segs))
    decreases |segs|, |Flat(segs)|
  {
    if segs == [] {
      return segs;
    }
    assert CleanSegment(segs[0]);
    var text, rest := SegmentText(segs[0]), Flat(segs[1..]);
    if text == "" {
      assert text + rest == rest;
      r := TrimLeftSegments(segs[1..]);
    } else if IsSpace(text[0]) {
      var next := segs[0 := Lit(text[1..])];
      assert (text + rest)[1..] == text[1..] + rest;
      r := TrimLeftSegments(next);
    } else {
      assert (text + rest)[0] == text[0];
      r := segs;
    }
  }

  lemma {:induction false} FlatLast(segs: seq<Segment>)
    requires segs != []
    ensures Flat(segs) == Flat(segs[..|segs| - 1]) + SegmentText(segs[|segs| - 1])
  {
    FlatSplit(segs, |segs| - 1);
    assert SegmentText(segs[|segs| - 1]) + "" == SegmentText(segs[|segs| - 1]);
  }

  lemma {:induction false} LastOf(a: string, b: string)
    requires b != ""
    ensures (a + b)[|a + b| - 1] == b[|b| - 1] && (a + b)[..|a + b| - 1] == a + b[..|b| - 1]
  {
  }

  /** Dropping a final space drops it from the last segment that is not empty. */
  lemma {:induction false} DropFinalSpace(segs: seq<Segment>) returns (r: seq<Segment>)
    requires Segmented(segs) && Flat(segs) != "" && IsSpace(Flat(segs)[|Flat(segs)| - 1])
    ensures Segmented(r) && Flat(r) == Flat(segs)[..|Flat(segs)| - 1]
  {
    var n := |segs| - 1;
    assert CleanSegment(segs[n]);
    var text, rest := SegmentText(segs[n]), Flat(segs[..n]);
    FlatLast(segs);
    hide Flat;
    if text == "" {
      assert rest + text == rest;
      r := DropFinalSpace(segs[..n]);
    } else {
      LastOf(rest, text);
      r := segs[n := Lit(text[..|text| - 1])];
      FlatLast(r);
      assert r[..n] == segs[..n];
    }
  }

  lemma {:induction false} TrimRightSegments(segs: seq<Segment>) returns (r: seq<Segment>)
    requires Segmented(segs)
    ensures Segmented(r) && Flat(r) == TrimRight(Flat(segs))
    decreases |Flat(segs)|
  {
    hide Flat;
    if Flat(segs) != "" && IsSpace(Flat(segs)[|Flat(segs)| - 1]) {
      r := DropFinalSpace(segs);
      r := TrimRightSegments(r);
    } else {
      r := segs;
    }
  }

  /** So the main result covers every segmented template, not only trimmed ones. */
  lemma {:induction false} SourceIsSegmented(segs: seq<Segment>) returns (r: seq<Segment>)
    requires Segmented(segs)
    ensures Segmented(r) && Source(Flat(segs)) == Flat(r)
  {
    if TrimSpace(Flat(segs)) == "" {
      r := [Hole("randomUsername")];
      assert Flat(r) == "{{randomUsername}}" + "";
    } else {
      r := TrimLeftSegments(segs);
      r := TrimRightSegments(r);
    }
  }
}
