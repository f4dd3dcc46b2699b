/** Random strings drawn from the operating system's entropy by rejection sampling. */
module Entropy {
  import opened Text

  type Byte = x: int | 0 <= x < 256

  const BLOCK := 64
  const LIMIT := 248

  function Lower(): (s: string)
    ensures |s| == 26
  {
    "abcdefghijklmnopqrstuvwxyz"
  }

  function Upper(): (s: string)
    ensures |s| == 26
  {
    "ABCDEFGHIJKLMNOPQRSTUVWXYZ"
  }

  function Digits(): (s: string)
    ensures |s| == 10
  {
    "0123456789"
  }

  function Alphabet(): (s: string)
    ensures |s| == 62
  {
    Lower() + Upper() + Digits()
  }

  /** One read of the entropy source. */
  type Block = b: seq<Byte> | |b| == BLOCK witness seq(BLOCK, _ => 0)

  /** The alphabet character of an accepted byte. */
  function Letter(b: Byte): char {
    Alphabet()[b % |Alphabet()|]
  }

  /** The characters of the accepted bytes, in order. */
  function Letters(bytes: seq<Byte>): string {
    if bytes == [] then ""
    else (if bytes[0] < LIMIT then [Letter(bytes[0])] else "") + Letters(bytes[1..])
  }

  function Flatten(blocks: seq<Block>): seq<Byte> {
    if blocks == [] then [] else blocks[0] + Flatten(blocks[1..])
  }

  datatype Drawn = Drawn(text: string, rest: seq<Block>)

  /** `n` characters, reading whole blocks and dropping what is left of the last
      one; None when the source fails first (the program then panics). */
  function Draw(blocks: seq<Block>, n: nat): (r: Option<Drawn>)
    ensures r.Some? ==> |r.value.text| == n
    decreases |blocks|
  {
    if n == 0 then Some(Drawn("", blocks))
    else if blocks == [] then None
    else
      var letters := Letters(blocks[0]);
      if |letters| >= n then Some(Drawn(letters[..n], blocks[1..]))
      else match Draw(blocks[1..], n - |letters|)
        case None => None
        case Some(d) => Some(Drawn(letters + d.text, d.rest))
  }

  /** The length really drawn: at least one character. */
  function DrawLength(length: int): nat {
    if length < 1 then 1 else length
  }

  lemma {:induction false} LettersConcat(a: seq<Byte>, b: seq<Byte>)
    ensures Letters(a + b) == Letters(a) + Letters(b)
  {
    if a == [] {
      assert a + b == b;
    } else {
      assert (a + b)[1..] == a[1..] + b;
      LettersConcat(a[1..], b);
    }
  }

  lemma {:induction false} LettersInAlphabet(bytes: seq<Byte>)
    ensures |Letters(bytes)| <= |bytes|
    ensures forall c :: c in Letters(bytes) ==> c in Alphabet()
  {
    if bytes != [] {
      LettersInAlphabet(bytes[1..]);
    }
  }

  /** The 64-byte buffering is invisible: drawing succeeds exactly when the source
      holds enough accepted bytes, and yields the first `n` of them, mapped. */
  lemma {:induction false} DrawIgnoresBuffering(blocks: seq<Block>, n: nat)
    ensures Draw(blocks, n).Some? <==> |Letters(Flatten(blocks))| >= n
    ensures Draw(blocks, n).Some? ==> Draw(blocks, n).value.text == Letters(Flatten(blocks))[..n]
    decreases |blocks|
  {
    if n != 0 && blocks != [] {
      LettersConcat(blocks[0], Flatten(blocks[1..]));
      var m := |Letters(blocks[0])|;
      if m < n {
        DrawIgnoresBuffering(blocks[1..], n - m);
      }
    }
  }

  lemma {:induction false} DrawInAlphabet(blocks: seq<Block>, n: nat)
    requires Draw(blocks, n).Some?
    ensures forall c :: c in Draw(blocks, n).value.text ==> c in Alphabet()
    decreases |blocks|
  {
    if n != 0 {
      LettersInAlphabet(blocks[0]);
      if |Letters(blocks[0])| < n {
        DrawInAlphabet(blocks[1..], n - |Letters(blocks[0])|);
      }
    }
  }

  // ---- the alphabet, by position ----

  lemma {:induction false} LowerAt(i: int)
    requires 0 <= i < 26
    ensures Lower()[i] == 'a' + i as char
  {
  }

  lemma {:induction false} UpperAt(i: int)
    requires 0 <= i < 26
    ensures Upper()[i] == 'A' + i as char
  {
  }

  lemma {:induction false} DigitAt(i: int)
    requires 0 <= i < 10
    ensures Digits()[i] == '0' + i as char
  {
  }

  /** The place of a character in the alphabet, or -1. */
  function Position(c: char): int {
    if 'a' <= c <= 'z' then (c - 'a') as int
    else if 'A' <= c <= 'Z' then 26 + (c - 'A') as int
    else if '0' <= c <= '9' then 52 + (c - '0') as int
    else -1
  }

  /** The alphabet has 62 distinct characters: each stands at one position only. */
  lemma {:induction false} PositionInvertsAlphabet(i: int, c: char)
    requires 0 <= i < 62
    ensures Alphabet()[i] == c <==> Position(c) == i
  {
    hide Lower, Upper, Digits;
    if i < 26 {
      LowerAt(i);
    } else if i < 52 {
      UpperAt(i - 26);
    } else {
      DigitAt(i - 52);
    }
  }

  predicate IsWordChar(c: char) {
    'a' <= c <= 'z' || 'A' <= c <= 'Z' || '0' <= c <= '9' || c == '_'
  }

  lemma {:induction false} AlphabetIsWord(c: char)
    requires c in Alphabet()
    ensures IsWordChar(c) && 0 <= Position(c) < 62
  {
    var i :| 0 <= i < |Alphabet()| && Alphabet()[i] == c;
    PositionInvertsAlphabet(i, c);
  }

  lemma {:induction false} LetterPosition(b: Byte, c: char)
    ensures Letter(b) == c <==> Position(c) == b % 62
  {
    PositionInvertsAlphabet(b % 62, c);
  }

  // ---- uniformity ----

  predicate AllAccepted(bytes: seq<Byte>) {
    forall i :: 0 <= i < |bytes| ==> bytes[i] < LIMIT
  }

  function Pow(base: nat, e: nat): nat {
    if e == 0 then 1 else base * Pow(base, e - 1)
  }

  /** Every member of `tails` with `b` put in front. */
  ghost function Prepend(b: Byte, tails: set<seq<Byte>>): set<seq<Byte>> {
    set t | t in tails :: [b] + t
  }

  lemma {:induction false} PrependMember(b: Byte, tails: set<seq<Byte>>, bytes: seq<Byte>)
    ensures bytes in Prepend(b, tails) <==> bytes != [] && bytes[0] == b && bytes[1..] in tails
  {
    if bytes != [] {
      assert bytes == [bytes[0]] + bytes[1..];
    }
  }

  lemma {:induction false} PrependSize(b: Byte, tails: set<seq<Byte>>)
    ensures |Prepend(b, tails)| == |tails|
  {
    if tails == {} {
      assert Prepend(b, tails) == {};
    } else {
      var t :| t in tails;
      PrependSize(b, tails - {t});
      assert ([b] + t)[1..] == t;
      PrependMember(b, tails - {t}, [b] + t);
      assert Prepend(b, tails) == Prepend(b, tails - {t}) + {[b] + t};
    }
  }

  /** Every member of `tails` with one of the four bytes for position `p` put in front. */
  ghost function PrependFour(p: nat, tails: set<seq<Byte>>): set<seq<Byte>>
    requires p < 62
  {
    Prepend(p, tails) + Prepend(p + 62, tails) + Prepend(p + 124, tails) + Prepend(p + 186, tails)
  }

  lemma {:induction false} PrependFourMember(p: nat, tails: set<seq<Byte>>, x: seq<Byte>)
    requires p < 62
    ensures x in PrependFour(p, tails) <==> x != [] && x[0] < LIMIT && x[0] % 62 == p && x[1..] in tails
  {
    hide Prepend;
    PrependMember(p, tails, x);
    PrependMember(p + 62, tails, x);
    PrependMember(p + 124, tails, x);
    PrependMember(p + 186, tails, x);
  }

  lemma {:induction false} PrependDisjoint(b: Byte, c: Byte, tails: set<seq<Byte>>)
    requires b != c
    ensures Prepend(b, tails) !! Prepend(c, tails)
  {
    hide Prepend;
    forall x ensures !(x in Prepend(b, tails) && x in Prepend(c, tails)) {
      PrependMember(b, tails, x);
      PrependMember(c, tails, x);
    }
  }

  lemma {:induction false} PrependFourSize(p: nat, tails: set<seq<Byte>>)
    requires p < 62
    ensures |PrependFour(p, tails)| == 4 * |tails|
  {
    hide Prepend;
    PrependSize(p, tails);
    PrependSize(p + 62, tails);
    PrependSize(p + 124, tails);
    PrependSize(p + 186, tails);
    PrependDisjoint(p, p + 62, tails);
    PrependDisjoint(p, p + 124, tails);
    PrependDisjoint(p, p + 186, tails);
    PrependDisjoint(p + 62, p + 124, tails);
    PrependDisjoint(p + 62, p + 186, tails);
    PrependDisjoint(p + 124, p + 186, tails);
  }

  /** The accepted byte sequences yielding `s`: at each place, the four bytes below
      the limit that are congruent to the character's position. */
  ghost function Preimages(s: string): set<seq<Byte>>
    requires forall c :: c in s ==> 0 <= Position(c) < 62
  {
    if s == "" then {[]} else PrependFour(Position(s[0]), Preimages(s[1..]))
  }

  lemma {:induction false} LettersCons(bytes: seq<Byte>)
    requires bytes != []
    ensures AllAccepted(bytes) <==> bytes[0] < LIMIT && AllAccepted(bytes[1..])
    ensures bytes[0] < LIMIT ==> Letters(bytes) == [Letter(bytes[0])] + Letters(bytes[1..])
  {
    assert forall i :: 0 < i < |bytes| ==> bytes[i] == bytes[1..][i - 1];
  }

  /** `Preimages` is what its name says: nothing else yields `s`. */
  lemma {:induction false} PreimagesExact(s: string, bytes: seq<Byte>)
    requires forall c :: c in s ==> 0 <= Position(c) < 62
    ensures bytes in Preimages(s) <==> AllAccepted(bytes) && |bytes| == |s| && Letters(bytes) == s
  {
    hide PrependFour;
    if s != "" {
      PrependFourMember(Position(s[0]), Preimages(s[1..]), bytes);
      if bytes != [] {
        PreimagesExact(s[1..], bytes[1..]);
        LetterPosition(bytes[0], s[0]);
        LettersCons(bytes);
        assert s == [s[0]] + s[1..];
      }
    }
  }

  /** No character string is more likely than another: each of length m has exactly
      4^m accepted byte sequences. */
  lemma {:induction false} Uniform(s: string)
    requires forall c :: c in s ==> c in Alphabet()
    ensures forall c :: c in s ==> 0 <= Position(c) < 62
    ensures |Preimages(s)| == Pow(4, |s|)
  {
    hide PrependFour;
    forall c | c in s ensures 0 <= Position(c) < 62 {
      AlphabetIsWord(c);
    }
    if s != "" {
      Uniform(s[1..]);
      PrependFourSize(Position(s[0]), Preimages(s[1..]));
    }
  }

  /** The accepted byte sequences of length `m`, all of them. */
  ghost function AcceptedOfLength(m: nat): set<seq<Byte>> {
    if m == 0 then {[]} else PrependEach(LIMIT, AcceptedOfLength(m - 1))
  }

  /** Every member of `tails` with every byte below `n` put in front. */
  ghost function PrependEach(n: nat, tails: set<seq<Byte>>): set<seq<Byte>>
    requires n <= 256
  {
    if n == 0 then {} else PrependEach(n - 1, tails) + Prepend(n - 1, tails)
  }

  lemma {:induction false} PrependEachMember(n: nat, tails: set<seq<Byte>>, x: seq<Byte>)
    requires n <= 256
    ensures x in PrependEach(n, tails) <==> x != [] && x[0] < n && x[1..] in tails
  {
    hide Prepend;
    if n > 0 {
      PrependEachMember(n - 1, tails, x);
      PrependMember(n - 1, tails, x);
    }
  }

  lemma {:induction false} PrependEachDisjoint(n: nat, tails: set<seq<Byte>>)
    requires n < 256
    ensures PrependEach(n, tails) !! Prepend(n, tails)
  {
    hide Prepend, PrependEach;
    forall x ensures !(x in PrependEach(n, tails) && x in Prepend(n, tails)) {
      PrependEachMember(n, tails, x);
      PrependMember(n, tails, x);
    }
  }

  lemma {:induction false} OneMore(n: nat, k: nat)
    ensures n * k + k == (n + 1) * k
  {
  }

  lemma {:induction false} PrependEachSize(n: nat, tails: set<seq<Byte>>)
    requires n <= 256
    ensures |PrependEach(n, tails)| == n * |tails|
  {
    hide Prepend;
    if n > 0 {
      PrependEachSize(n - 1, tails);
      PrependSize(n - 1, tails);
      PrependEachDisjoint(n - 1, tails);
      OneMore(n - 1, |tails|);
    }
  }

  lemma {:induction false} AcceptedMember(m: nat, x: seq<Byte>)
    ensures x in AcceptedOfLength(m) <==> AllAccepted(x) && |x| == m
  {
    hide PrependEach;
    if m > 0 {
      PrependEachMember(LIMIT, AcceptedOfLength(m - 1), x);
      if x != [] {
        AcceptedMember(m - 1, x[1..]);
        LettersCons(x);
      }
    }
  }

  /** There are 248^m of them, so a string of length m has probability (4/248)^m = 62^-m. */
  lemma {:induction false} AcceptedCount(m: nat)
    ensures |AcceptedOfLength(m)| == Pow(LIMIT, m)
  {
    hide PrependEach;
    if m > 0 {
      AcceptedCount(m - 1);
      PrependEachSize(LIMIT, AcceptedOfLength(m - 1));
    }
  }

  // ---- the sampler ----

  /** A source that lasts for `m` draws of a block or less, whatever comes before. */
  predicate Ample(blocks: seq<Block>, m: nat) {
    |blocks| >= m && forall k :: |blocks| - m <= k < |blocks| ==> AllAccepted(blocks[k])
  }

  lemma {:induction false} AmpleDraw(blocks: seq<Block>, m: nat, n: nat)
    requires Ample(blocks, m) && m > 0 && n <= BLOCK
    ensures Draw(blocks, n).Some? && Ample(Draw(blocks, n).value.rest, m - 1)
    decreases |blocks|
  {
    hide Letters, AllAccepted;
    if n > 0 {
      if |blocks| == m {
        AllLetters(blocks[0]);
      } else if |Letters(blocks[0])| < n {
        AmpleDraw(blocks[1..], m, n - |Letters(blocks[0])|);
      }
    }
  }

  lemma {:induction false} AllLetters(bytes: seq<Byte>)
    requires AllAccepted(bytes)
    ensures |Letters(bytes)| == |bytes|
  {
    if bytes != [] {
      AllLetters(bytes[1..]);
    }
  }

  /** The entropy the process can still read; a read beyond it fails. */
  class Source {
    var blocks: seq<Block>

    constructor (blocks: seq<Block>)
      ensures this.blocks == blocks
    {
      this.blocks := blocks;
    }

    /** None stands for the panic on a failed read. */
    method RandomString(length: int) returns (r: Option<string>)
      modifies this
      ensures r.Some? <==> Draw(old(blocks), DrawLength(length)).Some?
      ensures r.Some? ==> Draw(old(blocks), DrawLength(length)) == Some(Drawn(r.value, blocks))
      ensures r.Some? ==> |r.value| == if length < 1 then 1 else length
    {
      hide Took, Letter;
      var want := if length < 1 then 1 else length;
      var out := "";
      assert forall t: string :: "" + t == t;
      while |out| < want
        invariant |out| <= want
        invariant Continues(old(blocks), want, out, blocks)
        decreases |blocks|
      {
        if blocks == [] {
          return None;
        }
        ghost var before, left := out, blocks;
        var buf := blocks[0];
        var rest := blocks[1..];
        var i := 0;
        TookNothing(before, buf);
        while i < |buf| && |out| < want
          invariant 0 <= i <= |buf| && |out| <= want && blocks == left
          invariant Took(before, buf, out, i)
        {
          TakeByte(before, buf, out, i);
          if buf[i] < LIMIT {
            out := out + [Letter(buf[i])];
          }
          i := i + 1;
        }
        BlockRead(old(blocks), want, before, blocks, out, i);
        blocks := rest;
      }
      assert out + "" == out;
      return Some(out);
    }
  }

  /** Drawing `want` from `all` comes to: `out`, then what is still needed from `left`. */
  ghost predicate Continues(all: seq<Block>, want: nat, out: string, left: seq<Block>) {
    |out| <= want &&
    match Draw(left, want - |out|)
    case None => Draw(all, want) == None
    case Some(d) => Draw(all, want) == Some(Drawn(out + d.text, d.rest))
  }

  /** `out` is `before` and the characters of the first `i` bytes of `buf`. */
  ghost predicate Took(before: string, buf: seq<Byte>, out: string, i: nat) {
    i <= |buf| && |before| <= |out| && out[..|before|] == before
    && out[|before|..] + Letters(buf[i..]) == Letters(buf)
  }

  lemma {:induction false} TookNothing(before: string, buf: seq<Byte>)
    ensures Took(before, buf, before, 0)
  {
    assert "" + Letters(buf) == Letters(buf) && buf[0..] == buf;
  }

  lemma {:induction false} TakeByte(before: string, buf: seq<Byte>, out: string, i: nat)
    requires i < |buf| && Took(before, buf, out, i)
    ensures Took(before, buf, if buf[i] < LIMIT then out + [Letter(buf[i])] else out, i + 1)
  {
    var more := out[|before|..];
    assert buf[i..][1..] == buf[i + 1..];
    if buf[i] < LIMIT {
      var next := out + [Letter(buf[i])];
      assert next[|before|..] == more + [Letter(buf[i])];
      assert next[|before|..] + Letters(buf[i + 1..]) == more + ([Letter(buf[i])] + Letters(buf[i + 1..]));
    }
  }

  /** Reading one block, stopping after `i` of its bytes, continues the draw. */
  lemma {:induction false} BlockRead(all: seq<Block>, want: nat, before: string, left: seq<Block>, out: string, i: nat)
    requires left != [] && Took(before, left[0], out, i)
    requires |before| < want && Continues(all, want, before, left)
    requires |out| <= want && (i == |left[0]| || |out| == want)
    ensures Continues(all, want, out, left[1..])
  {
    var more, letters := out[|before|..], Letters(left[0]);
    assert out == before + more;
    if |out| == want {
      assert letters[..want - |before|] == more;
      assert out + "" == out;
    } else {
      assert left[0][i..] == [];
      assert more == letters;
      var d := Draw(left[1..], want - |out|);
      if d.Some? {
        assert before + (more + d.value.text) == out + d.value.text;
      }
    }
  }
}
