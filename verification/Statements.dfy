/** Placeholder substitution driven by the iteration order of a Go map. */
module Statements {
  import opened Text
  import opened Passes
  import opened Segments

  /** Both spellings of one placeholder. */
  function ReplaceToken(source: string, name: string, value: string): string {
    ReplaceAll(ReplaceAll(source, "{{" + name + "}}", value), "{{ " + name + " }}", value)
  }

  /** Substituting the variables one after the other, in a given order. */
  function Fold(source: string, order: seq<string>, vars: map<string, string>): string
    requires forall n :: n in order ==> n in vars
  {
    if order == [] then source
    else
      var n := order[|order| - 1];
      ReplaceToken(Fold(source, order[..|order| - 1], vars), n, vars[n])
  }

  /** An iteration order of the map: every key, once. */
  ghost predicate IsOrder(order: seq<string>, vars: map<string, string>) {
    (forall n :: n in order <==> n in vars)
    && forall i, j :: 0 <= i < j < |order| ==> order[i] != order[j]
  }

  /** Go ranges over a map in an unspecified order: any remaining key may come next. */
  method RenderStatements(template: string, vars: map<string, string>) returns (out: string)
    ensures exists order :: IsOrder(order, vars) && out == Fold(template, order, vars)
  {
    hide ReplaceToken;
    out := template;
    var left := vars.Keys;
    ghost var order: seq<string> := [];
    while left != {}
      invariant left <= vars.Keys
      invariant forall n :: n in order <==> n in vars && n !in left
      invariant forall i, j :: 0 <= i < j < |order| ==> order[i] != order[j]
      invariant out == Fold(template, order, vars)
      decreases left
    {
      var key :| key in left;
      ghost var next := order + [key];
      assert next[..|next| - 1] == order;
      out := ReplaceToken(out, key, vars[key]);
      order := next;
      left := left - {key};
    }
    assert IsOrder(order, vars);
  }

  // ---- simultaneous substitution ----

  function Spelled(n: string): string { " " + n + " " }

  /** No name is the spaced spelling of another with a different value: names carry no outer
      spaces, say. */
  ghost predicate NoClash(vars: map<string, string>) {
    forall n, m :: n in vars && m in vars && n == Spelled(m) ==> vars[n] == vars[m]
  }

  ghost predicate CleanVars(vars: map<string, string>) {
    forall n :: n in vars ==> BraceFree(n) && BraceFree(vars[n])
  }

  /** The variable a hole body names, in either spelling. */
  function NameOf(b: string, vars: map<string, string>): string {
    if b in vars || |b| < 2 then b else b[1..|b| - 1]
  }

  /** All hole bodies that name a variable, each with its value. */
  function Simultaneous(vars: map<string, string>): map<string, string> {
    var bodies := vars.Keys + set n | n in vars.Keys :: Spelled(n);
    map b | b in bodies && NameOf(b, vars) in vars :: vars[NameOf(b, vars)]
  }

  lemma {:induction false} SimultaneousIs(vars: map<string, string>, b: string)
    requires NoClash(vars)
    ensures b in Simultaneous(vars) <==> b in vars || exists n :: n in vars && b == Spelled(n)
    ensures b in vars ==> Simultaneous(vars)[b] == vars[b]
    ensures forall n :: n in vars && b == Spelled(n) ==> b in Simultaneous(vars) && Simultaneous(vars)[b] == vars[n]
  {
    forall n | n in vars && b == Spelled(n)
      ensures b in Simultaneous(vars) && Simultaneous(vars)[b] == vars[n]
    {
      assert Spelled(n)[1..|n| + 1] == n;
      assert b in vars ==> vars[b] == vars[n];
      assert NameOf(b, vars) == if b in vars then b else n;
    }
  }

  function Forms(n: string, value: string): map<string, string> {
    map[n := value, Spelled(n) := value]
  }

  /** What one after the other comes to; the earlier substitution wins. */
  ghost function AllForms(order: seq<string>, vars: map<string, string>): map<string, string>
    requires forall n :: n in order ==> n in vars
  {
    if order == [] then map[]
    else
      var n := order[|order| - 1];
      Forms(n, vars[n]) + AllForms(order[..|order| - 1], vars)
  }

  lemma {:induction false} ReplaceTokenFills(segs: seq<Segment>, n: string, value: string)
    requires Segmented(segs) && BraceFree(n) && BraceFree(value)
    ensures ReplaceToken(Flat(segs), n, value) == Flat(Fill(segs, Forms(n, value)))
  {
    hide ReplaceAll, Flat;
    ReplaceFills(segs, n, value);
    FillKeepsClean(segs, map[n := value]);
    assert "{{" + Spelled(n) + "}}" == "{{ " + n + " }}";
    ReplaceFills(Fill(segs, map[n := value]), Spelled(n), value);
    FillTwice(segs, map[n := value], map[Spelled(n) := value]);
    assert map[Spelled(n) := value] + map[n := value] == Forms(n, value);
  }

  lemma {:induction false} FoldFills(segs: seq<Segment>, order: seq<string>, vars: map<string, string>)
    requires Segmented(segs) && CleanVars(vars)
    requires forall n :: n in order ==> n in vars
    ensures Fold(Flat(segs), order, vars) == Flat(Fill(segs, AllForms(order, vars)))
    ensures forall b :: b in AllForms(order, vars) ==> BraceFree(AllForms(order, vars)[b])
  {
    hide ReplaceToken, Flat, BraceFree;
    if order == [] {
      assert Fill(segs, map[]) == segs;
    } else {
      var n, before := order[|order| - 1], order[..|order| - 1];
      FoldFills(segs, before, vars);
      var filled := Fill(segs, AllForms(before, vars));
      FillKeepsClean(segs, AllForms(before, vars));
      ReplaceTokenFills(filled, n, vars[n]);
      FillTwice(segs, AllForms(before, vars), Forms(n, vars[n]));
    }
  }

  lemma {:induction false} AllFormsHas(order: seq<string>, vars: map<string, string>, b: string)
    requires NoClash(vars) && forall n :: n in order ==> n in vars
    ensures b in AllForms(order, vars) <==> exists n :: n in order && (b == n || b == Spelled(n))
    ensures forall n :: n in order && (b == n || b == Spelled(n)) ==>
              b in AllForms(order, vars) && AllForms(order, vars)[b] == vars[n]
  {
    if order != [] {
      var last, before := order[|order| - 1], order[..|order| - 1];
      AllFormsHas(before, vars, b);
      assert order == before + [last];
      forall n, m | n in vars && m in vars && Spelled(n) == Spelled(m) ensures n == m {
        SpelledInjective(n, m);
      }
    }
  }

  lemma {:induction false} SpelledInjective(n: string, m: string)
    requires Spelled(n) == Spelled(m)
    ensures n == m
  {
    assert Spelled(n)[1..|n| + 1] == n && Spelled(m)[1..|m| + 1] == m;
    assert |n| == |m|;
  }

  /** On segmented templates the iteration order is invisible: substituting one
      variable after the other is substituting all of them at once. */
  lemma {:induction false} OrderInvisible(segs: seq<Segment>, vars: map<string, string>, order: seq<string>)
    requires Segmented(segs) && CleanVars(vars) && NoClash(vars) && IsOrder(order, vars)
    ensures Fold(Flat(segs), order, vars) == Flat(Fill(segs, Simultaneous(vars)))
  {
    hide Flat, Fold, Simultaneous, AllForms;
    FoldFills(segs, order, vars);
    forall b
      ensures b in AllForms(order, vars) <==> b in Simultaneous(vars)
      ensures b in AllForms(order, vars) ==> AllForms(order, vars)[b] == Simultaneous(vars)[b]
    {
      AllFormsHas(order, vars, b);
      SimultaneousIs(vars, b);
    }
    assert AllForms(order, vars) == Simultaneous(vars);
  }

  // ---- and only without clashes ----

  /** Of all substitutions that could fill a hole the first one does. */
  lemma {:induction false} FirstWins(order: seq<string>, vars: map<string, string>, b: string)
    requires order != [] && (forall n :: n in order ==> n in vars)
    requires b == order[0] || b == Spelled(order[0])
    ensures b in AllForms(order, vars) && AllForms(order, vars)[b] == vars[order[0]]
  {
    if |order| > 1 {
      FirstWins(order[..|order| - 1], vars, b);
    } else {
      assert order[..0] == [];
    }
  }

  /** Some order begins with these names. */
  lemma {:induction false} OrderExists(vars: map<string, string>, first: seq<string>, left: set<string>)
    returns (order: seq<string>)
    requires forall n :: n in vars <==> n in first || n in left
    requires forall n :: n in left ==> n !in first
    requires forall i, j :: 0 <= i < j < |first| ==> first[i] != first[j]
    ensures IsOrder(order, vars) && first <= order
    decreases left
  {
    if left == {} {
      order := first;
    } else {
      var n :| n in left;
      order := OrderExists(vars, first + [n], left - {n});
      assert first <= first + [n];
    }
  }

  ghost predicate OrderShows(vars: map<string, string>) {
    exists segs, order, order' ::
      Segmented(segs) && IsOrder(order, vars) && IsOrder(order', vars)
      && Fold(Flat(segs), order, vars) != Fold(Flat(segs), order', vars)
  }

  /** What an order that begins with a matching name makes of a hole. */
  lemma {:induction false} HoleFilled(b: string, order: seq<string>, vars: map<string, string>)
    requires CleanVars(vars) && BraceFree(b) && IsOrder(order, vars) && order != []
    requires b == order[0] || b == Spelled(order[0])
    ensures Fold(Flat([Hole(b)]), order, vars) == vars[order[0]]
  {
    hide Fold, AllForms;
    FoldFills([Hole(b)], order, vars);
    FirstWins(order, vars, b);
    assert Fill([Hole(b)], AllForms(order, vars)) == [Lit(vars[order[0]])];
    assert Flat([Lit(vars[order[0]])]) == vars[order[0]] + "";
  }

  /** Two clashing names with different values, among whatever others, make the result
      depend on the order. */
  lemma {:induction false} ClashShowsOrder(vars: map<string, string>)
    requires CleanVars(vars) && !NoClash(vars)
    ensures OrderShows(vars)
  {
    var m, n :| m in vars && n in vars && m == Spelled(n) && vars[m] != vars[n];
    assert m != n;
    var order := OrderExists(vars, [n, m], vars.Keys - {n, m});
    var order' := OrderExists(vars, [m, n], vars.Keys - {n, m});
    assert order[0] == [n, m][0] && order'[0] == [m, n][0];
    HoleFilled(m, order, vars);
    HoleFilled(m, order', vars);
    assert Segmented([Hole(m)]);
  }

  /** So for names and values without braces the iteration order is invisible on all
      segmented templates exactly when no two clashing names have different values. */
  lemma {:induction false} OrderShowsExactly(vars: map<string, string>)
    requires CleanVars(vars)
    ensures OrderShows(vars) <==> !NoClash(vars)
  {
    hide Fold, Flat, CleanVars;
    if !NoClash(vars) {
      ClashShowsOrder(vars);
    } else {
      forall segs, order, order' | Segmented(segs) && IsOrder(order, vars) && IsOrder(order', vars)
        ensures Fold(Flat(segs), order, vars) == Fold(Flat(segs), order', vars)
      {
        OrderInvisible(segs, vars, order);
        OrderInvisible(segs, vars, order');
      }
    }
  }

  // ---- nested placeholders ----

  lemma {:induction false} TwoSteps(source: string, a: string, b: string, vars: map<string, string>)
    requires a in vars && b in vars
    ensures Fold(source, [a, b], vars) == ReplaceToken(ReplaceToken(source, a, vars[a]), b, vars[b])
  {
    hide ReplaceToken;
    assert [a, b][..1] == [a] && [a][..0] == [];
    assert Fold(source, [a], vars) == ReplaceToken(source, a, vars[a]);
  }

  lemma {:induction false} ReplaceAbsent(s: string, pat: string, value: string)
    requires pat != "" && forall k :: !OccursAt(s, pat, k)
    ensures ReplaceAll(s, pat, value) == s
  {
    assert s + "" == s;
    ReplaceAllSkip(s, "", pat, value);
  }

  function Nested(n: string): string { "{{" + ("{{" + n + "}}" + "}}") }

  lemma {:induction false} InnerOccurrence(n: string, w: string, k: int)
    requires BraceFree(n) && BraceFree(w) && n != ""
    ensures OccursAt("{{" + n + "}}" + "}}", "{{" + w + "}}", k) ==> k == 0 && w == n
  {
    var s, pat := "{{" + n + "}}" + "}}", Pattern(w, true);
    assert pat == "{{" + w + "}}";
    if k == 0 {
      if w != n {
        AtHole(n, "}}", w, true);
      }
    } else if 0 < k < |s| {
      assert forall j :: 0 <= j < |n| ==> s[j + 2] == n[j];
      NotAt(s, pat, k, if k == 1 then 1 else 0);
    }
  }

  /** A nested placeholder is only seen in the tight spelling of the inner name. */
  lemma {:induction false} NestedOccurrence(n: string, w: string, k: int)
    requires BraceFree(n) && BraceFree(w) && n != "" && w != ""
    ensures OccursAt(Nested(n), "{{" + w + "}}", k) ==> k == 2 && w == n
  {
    var s, pat, inner := Nested(n), "{{" + w + "}}", "{{" + n + "}}" + "}}";
    if 0 <= k < 2 {
      assert s[k + 2] == '{' && pat[2] == w[0];
      NotAt(s, pat, k, 2);
    } else if k >= 2 {
      InnerOccurrence(n, w, k - 2);
      assert s[2..] == inner;
      assert k + |pat| <= |s| ==> s[k..k + |pat|] == inner[k - 2..k - 2 + |pat|];
    }
  }

  lemma {:induction false} NestedReplaced(n: string, value: string)
    requires BraceFree(n) && n != ""
    ensures ReplaceAll(Nested(n), "{{" + n + "}}", value) == "{{" + (value + "}}")
  {
    hide ReplaceAll;
    var pat := "{{" + n + "}}";
    forall k | 0 <= k < 2 ensures !OccursAt("{{" + (pat + "}}"), pat, k) {
      NestedOccurrence(n, n, k);
    }
    ReplaceAllSkip("{{", pat + "}}", pat, value);
    ReplaceFront(pat, "}}", value);
    forall k ensures !OccursAt("}}", pat, k) {
      if k >= 0 { NotAt("}}", pat, k, 0); }
    }
    ReplaceAbsent("}}", pat, value);
  }

  lemma {:induction false} NestedToken(n: string, w: string, value: string)
    requires BraceFree(n) && BraceFree(w) && n != "" && w != "" && BraceFree(value)
    requires n != Spelled(w) && w != Spelled(w)
    ensures w != n ==> ReplaceToken(Nested(n), w, value) == Nested(n)
    ensures w == n && value != Spelled(n) ==> ReplaceToken(Nested(n), w, value) == Flat([Hole(value)])
  {
    hide ReplaceAll;
    var spaced := "{{ " + w + " }}";
    assert spaced == "{{" + Spelled(w) + "}}";
    if w != n {
      forall k ensures !OccursAt(Nested(n), "{{" + w + "}}", k) && !OccursAt(Nested(n), spaced, k) {
        NestedOccurrence(n, w, k);
        NestedOccurrence(n, Spelled(w), k);
      }
      ReplaceAbsent(Nested(n), "{{" + w + "}}", value);
      ReplaceAbsent(Nested(n), spaced, value);
    } else if value != Spelled(n) {
      NestedReplaced(n, value);
      var segs := [Hole(value)];
      assert Flat(segs) == "{{" + (value + "}}");
      ReplaceFills(segs, Spelled(n), value);
      assert Fill(segs, map[Spelled(n) := value]) == segs;
    }
  }

  /** Without segmentation the order shows: a nested placeholder whose inner value is
      another name is expanded again only if that name comes later. */
  lemma {:induction false} NestedShowsOrder(n: string, m: string, d: string)
    requires BraceFree(n) && BraceFree(m) && BraceFree(d) && n != "" && m != "" && n != m
    requires n != Spelled(m) && m != Spelled(n)
    ensures var vars := map[n := m, m := d];
            Fold(Nested(n), [n, m], vars) == d && Fold(Nested(n), [m, n], vars) == "{{" + m + "}}"
  {
    hide ReplaceToken, Nested;
    var vars := map[n := m, m := d];
    TwoSteps(Nested(n), n, m, vars);
    TwoSteps(Nested(n), m, n, vars);
    assert |Spelled(n)| > |n| && |Spelled(m)| > |m|;
    NestedToken(n, n, m);
    NestedToken(n, m, d);
    var segs := [Hole(m)];
    ReplaceTokenFills(segs, m, d);
    assert Fill(segs, Forms(m, d)) == [Lit(d)];
    assert Flat([Lit(d)]) == d + "" && Flat(segs) == "{{" + m + "}}" + "";
  }
}
