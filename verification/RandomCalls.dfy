/** The pass that replaces `{{random N}}` calls, drawing fresh characters for each. */
module RandomCalls {
  import opened Text
  import opened Entropy
  import opened Passes

  function Tight(): string { "{{random " }

  function Spaced(): string { "{{ random " }

  /** The call the loop takes next: the spaced form only when no tight opener is left. */
  function FindRandom(s: string): Option<Call> {
    if Index(s, Tight()) >= 0 then FindCall(s, Tight()) else FindCall(s, Spaced())
  }

  /** How many characters `{{body}}` asks for. */
  function RandomCount(body: string): (n: nat)
    ensures 1 <= n <= 64
  {
    var parts := Fields(TrimSpace(body));
    if |parts| != 2 then 8
    else match Atoi(parts[1])
      case None => 8
      case Some(n) => if n < 1 then 1 else if n > 64 then 64 else n
  }

  /** The whole pass; None when the entropy source fails. Every turn removes a space. */
  function RandomPass(s: string, blocks: seq<Block>): Option<Drawn>
    decreases Spaces(s)
  {
    match FindRandom(s)
    case None => Some(Drawn(s, blocks))
    case Some(Call(start, end)) =>
      RandomInBounds(s);
      match Draw(blocks, RandomCount(s[start + 2..end]))
      case None => None
      case Some(d) =>
        DrawnIsPlain(blocks, RandomCount(s[start + 2..end]));
        RandomShrinks(s, d.text);
        RandomPass(Splice(s, start, d.text, end), d.rest)
  }

  lemma {:induction false} OpenersHaveSpaces()
    ensures '}' !in Tight() && '}' !in Spaced()
    ensures Spaces(Tight()) >= 1 && Spaces(Spaced()) >= 1
  {
    hide Count;
    assert Tight()[8] == ' ' && Spaced()[9] == ' ';
    CountPresent(Tight(), ' ');
    CountPresent(Spaced(), ' ');
  }

  lemma {:induction false} RandomInBounds(s: string)
    requires FindRandom(s).Some?
    ensures FindRandom(s).value.start + 2 <= FindRandom(s).value.end
    ensures FindRandom(s).value.end + 2 <= |s|
  {
    OpenersHaveSpaces();
    CallInBounds(s, if Index(s, Tight()) >= 0 then Tight() else Spaced());
  }

  lemma {:induction false} AlphabetText(text: string)
    requires forall c :: c in text ==> c in Alphabet()
    ensures IsPlain(text)
    ensures Spaces(text) == 0 && '{' !in text && '}' !in text
  {
    hide Alphabet;
    forall c | c in text ensures IsWordChar(c) {
      AlphabetIsWord(c);
    }
    CountAbsent(text, ' ');
  }

  lemma {:induction false} DrawnIsPlain(blocks: seq<Block>, n: nat)
    requires Draw(blocks, n).Some?
    ensures IsPlain(Draw(blocks, n).value.text)
    ensures var t := Draw(blocks, n).value.text; Spaces(t) == 0 && '{' !in t && '}' !in t
  {
    DrawInAlphabet(blocks, n);
    AlphabetText(Draw(blocks, n).value.text);
  }

  lemma {:induction false} RandomShrinks(s: string, text: string)
    requires FindRandom(s).Some?
    ensures FindRandom(s).value.start <= FindRandom(s).value.end
    ensures FindRandom(s).value.end + 2 <= |s|
    ensures Spaces(text) == 0 ==>
              Spaces(Splice(s, FindRandom(s).value.start, text, FindRandom(s).value.end)) < Spaces(s)
  {
    hide Splice, FindCall, Index, Tight, Spaced;
    OpenersHaveSpaces();
    RandomInBounds(s);
    SpliceCount(s, if Index(s, Tight()) >= 0 then Tight() else Spaced(), text, ' ');
  }

  /** With a draw in reserve for every space, the source does not run dry. */
  lemma {:induction false} EnoughEntropy(s: string, blocks: seq<Block>)
    requires Ample(blocks, Spaces(s))
    ensures RandomPass(s, blocks).Some?
    decreases Spaces(s)
  {
    hide Spaces, Splice, Draw, RandomCount, FindRandom, Ample;
    match FindRandom(s)
    case None =>
    case Some(Call(start, end)) =>
      RandomInBounds(s);
      HasSpaces(s);
      var n := RandomCount(s[start + 2..end]);
      AmpleDraw(blocks, Spaces(s), n);
      var d := Draw(blocks, n).value;
      DrawnIsPlain(blocks, n);
      RandomShrinks(s, d.text);
      AmpleLess(d.rest, Spaces(s) - 1, Spaces(Splice(s, start, d.text, end)));
      EnoughEntropy(Splice(s, start, d.text, end), d.rest);
  }

  lemma {:induction false} AmpleLess(blocks: seq<Block>, m: nat, n: nat)
    requires Ample(blocks, m) && n <= m
    ensures Ample(blocks, n)
  {
  }

  lemma {:induction false} HasSpaces(s: string)
    requires FindRandom(s).Some?
    ensures Spaces(s) >= 1
  {
    hide FindRandom, Splice, Count;
    RandomShrinks(s, "");
    CountAbsent("", ' ');
  }

  method ReplaceRandomN(source0: string, entropy: Source) returns (r: Option<string>)
    modifies entropy
    ensures r.Some? <==> RandomPass(source0, old(entropy.blocks)).Some?
    ensures r.Some? ==> RandomPass(source0, old(entropy.blocks)) == Some(Drawn(r.value, entropy.blocks))
  {
    hide Tight, Spaced, Index, Spaces, Fields, TrimSpace, Atoi, Draw;
    var source := source0;
    while true
      invariant RandomPass(source, entropy.blocks) == RandomPass(source0, old(entropy.blocks))
      decreases Spaces(source)
    {
      var start := Index(source, Tight());
      if start < 0 {
        start := Index(source, Spaced());
      }
      if start < 0 {
        return Some(source);
      }
      var end := Index(source[start..], "}}");
      if end < 0 {
        return Some(source);
      }
      end := end + start;
      assert FindRandom(source) == Some(Call(start, end));
      RandomInBounds(source);
      var inner := TrimSpace(source[start + 2..end]);
      var parts := Fields(inner);
      var n := 8;
      if |parts| == 2 {
        var parsed := Atoi(parts[1]);
        if parsed.Some? {
          var m := parsed.value;
          if m < 1 {
            m := 1;
          }
          if m > 64 {
            m := 64;
          }
          n := m;
        }
      }
      assert n == RandomCount(source[start + 2..end]);
      ghost var before := entropy.blocks;
      var drawn := entropy.RandomString(n);
      if drawn == None {
        return None;
      }
      DrawnIsPlain(before, n);
      RandomShrinks(source, drawn.value);
      source := source[..start] + drawn.value + source[end + 2..];
    }
  }

  // ---- the normal form ----

  /** A tight opener no closer follows. */
  ghost predicate Unclosed(s: string) {
    Index(s, Tight()) >= 0 && !HasClosedCall(s, Tight())
  }

  /** The pass never leaves a tight call. It leaves a spaced one only behind an
      unclosed tight opener, which keeps the loop from ever looking for spaced calls. */
  lemma {:induction false} RandomNormalForm(s: string, blocks: seq<Block>)
    requires RandomPass(s, blocks).Some?
    ensures var r := RandomPass(s, blocks).value.text;
            !HasClosedCall(r, Tight()) && (Unclosed(r) || !HasClosedCall(r, Spaced()))
    decreases Spaces(s)
  {
    hide Tight, Spaced, Index, Spaces, Draw, RandomCount, Splice;
    match FindRandom(s)
    case None =>
      FindCallExact(s, Tight());
      FindCallExact(s, Spaced());
      if HasClosedCall(s, Tight()) {
        ClosedHasOpener(s, Tight());
      }
    case Some(Call(start, end)) =>
      RandomInBounds(s);
      var d := Draw(blocks, RandomCount(s[start + 2..end])).value;
      DrawnIsPlain(blocks, RandomCount(s[start + 2..end]));
      RandomShrinks(s, d.text);
      RandomNormalForm(Splice(s, start, d.text, end), d.rest);
  }

  lemma {:induction false} ClosedHasOpener(s: string, open: string)
    requires HasClosedCall(s, open)
    ensures Index(s, open) >= 0
  {
    var i :| OccursAt(s, open, i);
    IndexIsFirst(s, open, i);
  }

  /** Running the pass again, with whatever entropy, changes nothing. */
  lemma {:induction false} RandomIdempotent(s: string, blocks: seq<Block>, more: seq<Block>)
    requires RandomPass(s, blocks).Some?
    ensures var r := RandomPass(s, blocks).value.text; RandomPass(r, more) == Some(Drawn(r, more))
  {
    hide Tight, Spaced, Index, Spaces, Draw, RandomCount, Splice;
    RandomNormalForm(s, blocks);
    var r := RandomPass(s, blocks).value.text;
    FindCallExact(r, Tight());
    FindCallExact(r, Spaced());
  }

  function Blocked(): string { "{{ random 4}} {{random " }

  lemma {:induction false} BlockedOccurrences()
    ensures HasClosedCall(Blocked(), Spaced())
    ensures OccursAt(Blocked(), Tight(), 14)
  {
    assert OccursAt(Blocked(), Spaced(), 0) && OccursAt(Blocked(), "}}", 11);
  }

  lemma {:induction false} BlockedTight(i: int)
    requires OccursAt(Blocked(), Tight(), i)
    ensures i == 14
  {
    var s := Blocked();
    assert s[i] == s[i..i + 9][0] == '{';
    assert s[i + 1] == s[i..i + 9][1] == '{';
    assert s[i + 2] == s[i..i + 9][2] == 'r';
    assert i == 0 || i == 1 || i == 14 || i == 15;
    assert s[1] == '{' && s[2] == ' ' && s[16] == 'r';
  }

  lemma {:induction false} BlockedCloser(j: int)
    requires OccursAt(Blocked(), "}}", j)
    ensures j < 14
  {
    var s := Blocked();
    assert s[j] == s[j..j + 2][0] == '}';
  }

  /** An unclosed tight opener does block a spaced call that could be evaluated. */
  lemma {:induction false} UnclosedBlocksSpaced(blocks: seq<Block>)
    ensures RandomPass(Blocked(), blocks) == Some(Drawn(Blocked(), blocks))
    ensures HasClosedCall(Blocked(), Spaced())
  {
    hide Blocked, Tight, Spaced, Index, FindCall;
    BlockedOccurrences();
    IndexIsFirst(Blocked(), Tight(), 14);
    forall i, j | i <= j && OccursAt(Blocked(), Tight(), i) ensures !OccursAt(Blocked(), "}}", j) {
      BlockedTight(i);
      if OccursAt(Blocked(), "}}", j) {
        BlockedCloser(j);
      }
    }
    FindCallExact(Blocked(), Tight());
  }
}
