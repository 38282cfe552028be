/**
 * The grammar model of grammar.py: an immutable context-free grammar, the
 * nullable / FIRST / FOLLOW tables that `Grammar.analyze` computes with three
 * monotone `while update` loops, and the sequence helpers built on them.
 *
 * Each table is specified as the LEAST solution of its rule system: the
 * result satisfies every rule, and it is contained in every other solution.
 */
module Grammars {

  type Symbol = string

  /** Reserved symbols (grammar.py:9-11). */
  const EOF: Symbol := "$"
  const EPSILON: Symbol := "ε"
  const START: Symbol := "S0"

  datatype Option<T> = None | Some(value: T)

  /** The four fields the Python constructor stores without validation. */
  datatype Grammar = Grammar(
    terminals: set<Symbol>,
    nonTerminals: set<Symbol>,
    productions: map<Symbol, seq<seq<Symbol>>>,
    startSymbol: Symbol)

  predicate Declared(g: Grammar, x: Symbol) {
    x in g.terminals || x in g.nonTerminals
  }

  /**
   * What the analysis silently relies on: every nonterminal has a
   * productions entry, every body symbol is declared (so `ε`, when used, is
   * a declared terminal), terminals and nonterminals are disjoint, and the
   * reserved start symbol and end-marker are not part of the grammar.
   */
  predicate WellFormed(g: Grammar) {
    && g.terminals !! g.nonTerminals
    && (forall nt :: nt in g.nonTerminals ==> nt in g.productions)
    && (forall nt, rhs, x :: nt in g.nonTerminals && rhs in g.productions[nt] && x in rhs ==> Declared(g, x))
    && START !in g.terminals && START !in g.nonTerminals
    && EOF !in g.terminals && EOF !in g.nonTerminals
  }

  /**
   * No nonterminal lists the same body twice. The LR builders need it for
   * their termination argument: it keeps every item list they build free of
   * repetitions.
   */
  predicate DistinctBodies(g: Grammar)
    requires WellFormed(g)
  {
    forall x, i, j :: x in g.nonTerminals && 0 <= i < j < |g.productions[x]| ==>
      g.productions[x][i] != g.productions[x][j]
  }

  /** The results of `analyze`: `self.nullable`, `self.first`, `self.follow`. */
  datatype Tables = Tables(
    nullable: set<Symbol>,
    first: map<Symbol, set<Symbol>>,
    follow: map<Symbol, set<Symbol>>)

  /** A table entry, empty when the key is absent. */
  function Get(m: map<Symbol, set<Symbol>>, x: Symbol): set<Symbol> {
    if x in m then m[x] else {}
  }

  /** `m` lies pointwise below `f`. */
  ghost predicate Below(m: map<Symbol, set<Symbol>>, f: map<Symbol, set<Symbol>>) {
    forall x :: x in m ==> m[x] <= Get(f, x)
  }

  /** `all(x in s for x in xs)`, the test used throughout grammar.py. */
  function AllIn(xs: seq<Symbol>, s: set<Symbol>): (r: bool)
    ensures r <==> forall i :: 0 <= i < |xs| ==> xs[i] in s
  {
    if xs == [] then true else xs[0] in s && AllIn(xs[1..], s)
  }

  /**
   * FIRST of a sequence with respect to a FIRST map and a nullable set: the
   * union of FIRST(x) for x in xs, up to and including the first x that is
   * not nullable. Missing keys contribute nothing (grammar.py:94).
   */
  function FirstOfSeq(first: map<Symbol, set<Symbol>>, nullable: set<Symbol>, xs: seq<Symbol>): set<Symbol>
  {
    if xs == [] then {}
    else Get(first, xs[0]) + (if xs[0] in nullable then FirstOfSeq(first, nullable, xs[1..]) else {})
  }

  // ---------------------------------------------------------------------
  // The helpers of class Grammar (grammar.py:22-50)
  // ---------------------------------------------------------------------

  predicate IsNullable(t: Tables, x: Symbol) {
    x in t.nullable
  }

  function AllNullable(t: Tables, xs: seq<Symbol>): (r: bool)
    ensures r <==> forall i :: 0 <= i < |xs| ==> IsNullable(t, xs[i])
    ensures xs == [] ==> r
  {
    AllIn(xs, t.nullable)
  }

  function FirstOf(t: Tables, x: Symbol): set<Symbol>
    requires x in t.first
  {
    t.first[x]
  }

  /** The loop with `break` of grammar.py:44-50. */
  method FirstOfAll(t: Tables, xs: seq<Symbol>) returns (res: set<Symbol>)
    requires forall x :: x in xs ==> x in t.first
    ensures res == FirstOfSeq(t.first, t.nullable, xs)
    ensures xs == [] ==> res == {}
    ensures xs != [] && !IsNullable(t, xs[0]) ==> res == FirstOf(t, xs[0])
    ensures forall a :: a in res <==>
              exists k :: 0 <= k < |xs| && AllIn(xs[..k], t.nullable) && a in FirstOf(t, xs[k])
  {
    FirstOfSeqMembers(t.first, t.nullable, xs);
    res := {};
    for i := 0 to |xs|
      invariant res + FirstOfSeq(t.first, t.nullable, xs[i..]) == FirstOfSeq(t.first, t.nullable, xs)
    {
      res := res + FirstOf(t, xs[i]);
      if !IsNullable(t, xs[i]) {
        return;
      }
      assert xs[i..] == [xs[i]] + xs[i + 1..];
    }
  }

  /** `productOf` (grammar.py:26-30): the bodies of a nonterminal, None otherwise. */
  function ProductOf(g: Grammar, sym: Symbol): (r: Option<seq<seq<Symbol>>>)
    requires WellFormed(g)
    ensures r.Some? <==> sym in g.nonTerminals
    ensures r.Some? ==> forall rhs, x :: rhs in r.value && x in rhs ==> Declared(g, x)
  {
    if sym in g.nonTerminals then Some(g.productions[sym]) else None
  }

  /** Every production rule, identified by its head and its index in the head's list. */
  ghost function RuleIds(g: Grammar, heads: set<Symbol>): set<(Symbol, nat)>
  {
    set nt, i: nat | nt in heads && nt in g.productions && i < |g.productions[nt]| :: (nt, i)
  }

  /** `__len__` (grammar.py:23-24): the number of production rules. */
  method Len(g: Grammar) returns (n: nat)
    ensures n == |RuleIds(g, g.productions.Keys)|
  {
    n := 0;
    var todo := g.productions.Keys;
    ghost var done: set<Symbol> := {};
    while todo != {}
      invariant done + todo == g.productions.Keys && done !! todo
      invariant n == |RuleIds(g, done)|
      decreases todo
    {
      var nt :| nt in todo;
      RuleIdsAdd(g, done, nt);
      n := n + |g.productions[nt]|;
      todo := todo - {nt};
      done := done + {nt};
    }
  }

  lemma RuleIdsAdd(g: Grammar, done: set<Symbol>, nt: Symbol)
    requires nt in g.productions && nt !in done
    ensures |RuleIds(g, done + {nt})| == |RuleIds(g, done)| + |g.productions[nt]|
  {
    var row := set i: nat | i < |g.productions[nt]| :: (nt, i);
    assert RuleIds(g, done + {nt}) == RuleIds(g, done) + row;
    assert RuleIds(g, done) !! row;
    RowSize(nt, |g.productions[nt]|);
  }

  lemma {:induction false} RowSize(nt: Symbol, k: nat)
    ensures |set i: nat | i < k :: (nt, i)| == k
  {
    if k > 0 {
      RowSize(nt, k - 1);
      var smaller := set i: nat | i < k - 1 :: (nt, i);
      assert (set i: nat | i < k :: (nt, i)) == smaller + {(nt, k - 1)};
    }
  }

  // ---------------------------------------------------------------------
  // Facts about FIRST of a sequence
  // ---------------------------------------------------------------------

  /** `a` is in FIRST(xs) iff it is in FIRST(xs[k]) for some k whose prefix is all nullable. */
  lemma {:induction false} FirstOfSeqMembers(first: map<Symbol, set<Symbol>>, nullable: set<Symbol>, xs: seq<Symbol>)
    ensures forall a :: a in FirstOfSeq(first, nullable, xs) <==>
              exists k :: 0 <= k < |xs| && AllIn(xs[..k], nullable) && a in Get(first, xs[k])
  {
    if xs != [] {
      FirstOfSeqMembers(first, nullable, xs[1..]);
      forall a
        ensures a in FirstOfSeq(first, nullable, xs) <==>
                exists k :: 0 <= k < |xs| && AllIn(xs[..k], nullable) && a in Get(first, xs[k])
      {
        if a in FirstOfSeq(first, nullable, xs) {
          if a in Get(first, xs[0]) {
            assert AllIn(xs[..0], nullable);
          } else {
            assert xs[0] in nullable && a in FirstOfSeq(first, nullable, xs[1..]);
            var k :| 0 <= k < |xs[1..]| && AllIn(xs[1..][..k], nullable) && a in Get(first, xs[1..][k]);
            assert xs[..k + 1] == [xs[0]] + xs[1..][..k];
            assert AllIn(xs[..k + 1], nullable);
          }
        }
        if exists k :: 0 <= k < |xs| && AllIn(xs[..k], nullable) && a in Get(first, xs[k]) {
          var k :| 0 <= k < |xs| && AllIn(xs[..k], nullable) && a in Get(first, xs[k]);
          if k > 0 {
            assert xs[0] == xs[..k][0];
            assert xs[1..][..k - 1] == xs[1..k];
            assert AllIn(xs[1..][..k - 1], nullable);
          }
        }
      }
    }
  }

  /** FIRST of a sequence is monotone in the FIRST map. */
  lemma {:induction false} FirstOfSeqMonotone(first: map<Symbol, set<Symbol>>, f: map<Symbol, set<Symbol>>,
                                              nullable: set<Symbol>, xs: seq<Symbol>)
    requires Below(first, f)
    ensures FirstOfSeq(first, nullable, xs) <= FirstOfSeq(f, nullable, xs)
  {
    if xs != [] {
      FirstOfSeqMonotone(first, f, nullable, xs[1..]);
    }
  }

  /** FIRST of a sequence takes its members from the map's values. */
  lemma {:induction false} FirstOfSeqBound(first: map<Symbol, set<Symbol>>, nullable: set<Symbol>,
                                           xs: seq<Symbol>, bound: set<Symbol>)
    requires forall x :: x in first ==> first[x] <= bound
    ensures FirstOfSeq(first, nullable, xs) <= bound
  {
    if xs != [] {
      FirstOfSeqBound(first, nullable, xs[1..], bound);
    }
  }

  // ---------------------------------------------------------------------
  // The rule systems whose least solutions `analyze` computes
  // ---------------------------------------------------------------------

  /** Some body of `nt` consists of members of `s` only (an empty body and `[ε]` qualify when ε ∈ s). */
  ghost predicate HasBodyIn(g: Grammar, nt: Symbol, s: set<Symbol>)
    requires nt in g.productions
  {
    exists rhs :: rhs in g.productions[nt] && AllIn(rhs, s)
  }

  /** The nullable rule (grammar.py:72-77): a nonterminal with an all-nullable body is nullable. */
  ghost predicate NullableClosed(g: Grammar, s: set<Symbol>)
    requires WellFormed(g)
  {
    forall nt :: nt in g.nonTerminals && HasBodyIn(g, nt, s) ==> nt in s
  }

  /** The FIRST rule for the bodies of one nonterminal: FIRST(rhs) ⊆ FIRST(nt) for nt → rhs. */
  ghost predicate FirstRulesHold(g: Grammar, nullable: set<Symbol>, f: map<Symbol, set<Symbol>>, nt: Symbol)
    requires nt in g.productions
  {
    forall rhs :: rhs in g.productions[nt] ==> FirstOfSeq(f, nullable, rhs) <= Get(f, nt)
  }

  /** The FIRST rules (grammar.py:81-101): t ∈ FIRST(t), and FIRST(rhs) ⊆ FIRST(nt) for nt → rhs. */
  ghost predicate FirstClosed(g: Grammar, nullable: set<Symbol>, f: map<Symbol, set<Symbol>>)
    requires WellFormed(g)
  {
    && (forall t :: t in g.terminals ==> t in Get(f, t))
    && (forall nt :: nt in g.nonTerminals ==> FirstRulesHold(g, nullable, f, nt))
  }

  /** The two FOLLOW rules at position i of a body of nt (grammar.py:117-127). */
  ghost predicate FollowRuleAt(nullable: set<Symbol>, first: map<Symbol, set<Symbol>>,
                               fo: map<Symbol, set<Symbol>>, nt: Symbol, rhs: seq<Symbol>, i: int)
    requires 0 <= i < |rhs|
  {
    && (AllIn(rhs[i + 1..], nullable) ==> Get(fo, nt) <= Get(fo, rhs[i]))
    && (forall j :: i < j < |rhs| && AllIn(rhs[i + 1..j], nullable) ==> Get(first, rhs[j]) <= Get(fo, rhs[i]))
  }

  ghost predicate FollowBodyHolds(nullable: set<Symbol>, first: map<Symbol, set<Symbol>>,
                                  fo: map<Symbol, set<Symbol>>, nt: Symbol, rhs: seq<Symbol>)
  {
    forall i :: 0 <= i < |rhs| ==> FollowRuleAt(nullable, first, fo, nt, rhs, i)
  }

  ghost predicate FollowRulesHold(g: Grammar, nullable: set<Symbol>, first: map<Symbol, set<Symbol>>,
                                  fo: map<Symbol, set<Symbol>>, nt: Symbol)
    requires nt in g.productions
  {
    forall rhs :: rhs in g.productions[nt] ==> FollowBodyHolds(nullable, first, fo, nt, rhs)
  }

  /** The FOLLOW rules (grammar.py:113-127) at every position of every body. */
  ghost predicate FollowClosed(g: Grammar, nullable: set<Symbol>, first: map<Symbol, set<Symbol>>,
                               fo: map<Symbol, set<Symbol>>)
    requires WellFormed(g)
  {
    forall nt :: nt in g.nonTerminals ==> FollowRulesHold(g, nullable, first, fo, nt)
  }

  /** The (key, terminal) pairs not yet in a table: the termination measure of the FIRST/FOLLOW loops. */
  ghost function Missing(m: map<Symbol, set<Symbol>>, keys: set<Symbol>, universe: set<Symbol>): set<(Symbol, Symbol)>
  {
    set x, a | x in keys && a in universe && a !in Get(m, x) :: (x, a)
  }

  lemma MissingShrinks(m: map<Symbol, set<Symbol>>, m': map<Symbol, set<Symbol>>,
                       keys: set<Symbol>, universe: set<Symbol>, x: Symbol, a: Symbol)
    requires forall y :: Get(m, y) <= Get(m', y)
    requires x in keys && a in universe && a in Get(m', x) && a !in Get(m, x)
    ensures Missing(m', keys, universe) < Missing(m, keys, universe)
  {
    assert (x, a) in Missing(m, keys, universe);
    assert (x, a) !in Missing(m', keys, universe);
  }

  /** Adding a set with a new member to an entry is progress. */
  lemma GrewAdd(m0: map<Symbol, set<Symbol>>, m: map<Symbol, set<Symbol>>, keys: set<Symbol>,
                universe: set<Symbol>, update: bool, x: Symbol, add: set<Symbol>)
    requires Grew(m0, m, keys, universe, update)
    requires x in m && x in keys && add <= universe && !(add <= m[x])
    ensures Grew(m0, m[x := m[x] + add], keys, universe, true)
  {
    var m' := m[x := m[x] + add];
    forall y ensures Get(m0, y) <= Get(m', y) {
      assert Get(m0, y) <= Get(m, y);
    }
    var a :| a in add && a !in m[x];
    MissingShrinks(m0, m', keys, universe, x, a);
  }

  lemma MissingMonotone(m: map<Symbol, set<Symbol>>, m': map<Symbol, set<Symbol>>,
                        keys: set<Symbol>, universe: set<Symbol>)
    requires forall y :: Get(m, y) <= Get(m', y)
    ensures Missing(m', keys, universe) <= Missing(m, keys, universe)
  {
  }

  // ---------------------------------------------------------------------
  // analyze (grammar.py:67-128)
  // ---------------------------------------------------------------------

  /** The whole analysis: the three fixpoints in sequence. */
  method Analyze(g: Grammar) returns (t: Tables)
    requires WellFormed(g)
    ensures EPSILON in t.nullable && t.nullable <= g.nonTerminals + {EPSILON}
    ensures NullableClosed(g, t.nullable)
    ensures forall nt :: nt in t.nullable && nt != EPSILON ==> HasBodyIn(g, nt, t.nullable)
    ensures forall s :: EPSILON in s && NullableClosed(g, s) ==> t.nullable <= s
    ensures t.first.Keys == g.nonTerminals + g.terminals
    ensures forall x :: x in g.terminals ==> t.first[x] == {x}
    ensures forall x :: x in t.first ==> t.first[x] <= g.terminals
    ensures FirstClosed(g, t.nullable, t.first)
    ensures forall f :: FirstClosed(g, t.nullable, f) ==> Below(t.first, f)
    ensures t.follow.Keys == g.nonTerminals + g.terminals
    ensures forall x :: x in t.follow ==> t.follow[x] <= g.terminals && EOF !in t.follow[x]
    ensures FollowClosed(g, t.nullable, t.first, t.follow)
    ensures forall fo :: FollowClosed(g, t.nullable, t.first, fo) ==> Below(t.follow, fo)
  {
    var nullable := ComputeNullable(g);
    var first := ComputeFirst(g, nullable);
    var follow := ComputeFollow(g, nullable, first);
    t := Tables(nullable, first, follow);
  }

  /** The nullable loop (grammar.py:68-78). */
  method ComputeNullable(g: Grammar) returns (nullable: set<Symbol>)
    requires WellFormed(g)
    ensures EPSILON in nullable && nullable <= g.nonTerminals + {EPSILON}
    ensures NullableClosed(g, nullable)
    ensures forall nt :: nt in nullable && nt != EPSILON ==> HasBodyIn(g, nt, nullable)
    ensures forall s :: EPSILON in s && NullableClosed(g, s) ==> nullable <= s
  {
    nullable := {EPSILON};
    var update := true;
    while update
      invariant EPSILON in nullable && nullable <= g.nonTerminals + {EPSILON}
      invariant forall nt :: nt in nullable && nt != EPSILON ==> HasBodyIn(g, nt, nullable)
      invariant forall s :: EPSILON in s && NullableClosed(g, s) ==> nullable <= s
      invariant !update ==> NullableClosed(g, nullable)
      decreases g.nonTerminals - nullable, update
    {
      update := false;
      ghost var before := nullable;
      var todo := g.nonTerminals;
      while todo != {}
        invariant todo <= g.nonTerminals
        invariant EPSILON in nullable && before <= nullable <= g.nonTerminals + {EPSILON}
        invariant forall nt :: nt in nullable && nt != EPSILON ==> HasBodyIn(g, nt, nullable)
        invariant forall s :: EPSILON in s && NullableClosed(g, s) ==> nullable <= s
        invariant !update ==> nullable == before
        invariant update ==> g.nonTerminals - nullable < g.nonTerminals - before
        invariant !update ==> forall nt :: nt in g.nonTerminals - todo && HasBodyIn(g, nt, nullable) ==> nt in nullable
        decreases todo
      {
        var nt :| nt in todo;
        ghost var todo0, update0 := todo, update;
        todo := todo - {nt};
        if nt !in nullable {
          var rhss := g.productions[nt];
          for k := 0 to |rhss|
            invariant EPSILON in nullable && before <= nullable <= g.nonTerminals + {EPSILON}
            invariant forall nt :: nt in nullable && nt != EPSILON ==> HasBodyIn(g, nt, nullable)
            invariant forall s :: EPSILON in s && NullableClosed(g, s) ==> nullable <= s
            invariant !update ==> nullable == before
            invariant update ==> g.nonTerminals - nullable < g.nonTerminals - before
            invariant update0 ==> update
            invariant !update ==> forall k' :: 0 <= k' < k ==> !AllIn(rhss[k'], nullable)
          {
            if AllIn(rhss[k], nullable) {
              assert rhss[k] in g.productions[nt];
              forall s | EPSILON in s && NullableClosed(g, s) ensures nt in s {
                assert AllIn(rhss[k], s);
              }
              assert nt in g.nonTerminals - before;
              update := true;
              nullable := nullable + {nt};
              assert nt !in g.nonTerminals - nullable;
            }
          }
          if !update {
            forall rhs | rhs in g.productions[nt] ensures !AllIn(rhs, nullable) {
              var k' :| 0 <= k' < |rhss| && rhss[k'] == rhs;
            }
            assert !HasBodyIn(g, nt, nullable);
          }
        }
        if !update {
          forall x | x in g.nonTerminals - todo && HasBodyIn(g, x, nullable) ensures x in nullable {
            if x != nt {
              assert x in g.nonTerminals - todo0;
            }
          }
        }
      }
    }
  }

  /** What holds of the FIRST map throughout the loop. */
  ghost predicate FirstInv(g: Grammar, nullable: set<Symbol>, first: map<Symbol, set<Symbol>>)
    requires WellFormed(g)
  {
    && first.Keys == g.nonTerminals + g.terminals
    && (forall x :: x in g.terminals ==> first[x] == {x})
    && (forall x :: x in first ==> first[x] <= g.terminals)
    && (forall f :: FirstClosed(g, nullable, f) ==> Below(first, f))
  }

  /** Progress since `m0`: entries only grow; no change, or a strictly smaller measure. */
  ghost predicate Grew(m0: map<Symbol, set<Symbol>>, m: map<Symbol, set<Symbol>>, keys: set<Symbol>,
                       universe: set<Symbol>, update: bool)
  {
    && (forall y :: Get(m0, y) <= Get(m, y))
    && (!update ==> m == m0)
    && (update ==> Missing(m, keys, universe) < Missing(m0, keys, universe))
  }

  /** The FIRST loop (grammar.py:80-106). */
  method ComputeFirst(g: Grammar, nullable: set<Symbol>) returns (first: map<Symbol, set<Symbol>>)
    requires WellFormed(g)
    ensures first.Keys == g.nonTerminals + g.terminals
    ensures forall x :: x in g.terminals ==> first[x] == {x}
    ensures forall x :: x in first ==> first[x] <= g.terminals
    ensures FirstClosed(g, nullable, first)
    ensures forall f :: FirstClosed(g, nullable, f) ==> Below(first, f)
  {
    first := map x | x in g.nonTerminals + g.terminals :: if x in g.terminals then {x} else {};
    var update := true;
    while update
      invariant FirstInv(g, nullable, first)
      invariant !update ==> FirstClosed(g, nullable, first)
      decreases Missing(first, g.nonTerminals, g.terminals), update
    {
      first, update := FirstPass(g, nullable, first);
    }
    // grammar.py:103-105 adds an empty entry for a nonterminal without one; every
    // nonterminal already has one, so that loop leaves `first` unchanged.
  }

  /** One pass of the FIRST loop: every body of every nonterminal once (grammar.py:85-101). */
  method FirstPass(g: Grammar, nullable: set<Symbol>, first: map<Symbol, set<Symbol>>)
    returns (next: map<Symbol, set<Symbol>>, update: bool)
    requires WellFormed(g) && FirstInv(g, nullable, first)
    ensures FirstInv(g, nullable, next)
    ensures Grew(first, next, g.nonTerminals, g.terminals, update)
    ensures !update ==> FirstClosed(g, nullable, next)
  {
    next, update := first, false;
    var todo := g.nonTerminals;
    while todo != {}
      invariant todo <= g.nonTerminals
      invariant FirstInv(g, nullable, next)
      invariant Grew(first, next, g.nonTerminals, g.terminals, update)
      invariant !update ==> forall x :: x in g.nonTerminals - todo ==> FirstRulesHold(g, nullable, next, x)
      decreases todo
    {
      var nt :| nt in todo;
      todo := todo - {nt};
      var rhss := g.productions[nt];
      for k := 0 to |rhss|
        invariant FirstInv(g, nullable, next)
        invariant Grew(first, next, g.nonTerminals, g.terminals, update)
        invariant !update ==> forall x :: x in g.nonTerminals - todo - {nt} ==> FirstRulesHold(g, nullable, next, x)
        invariant !update ==> forall k' :: 0 <= k' < k ==> FirstOfSeq(next, nullable, rhss[k']) <= Get(next, nt)
      {
        var temp := FirstOfBody(next, nullable, rhss[k]);
        if nt in next {
          if !(temp <= next[nt]) {
            assert rhss[k] in g.productions[nt];
            FirstAddPreserves(g, nullable, first, next, nt, rhss[k], update);
            update := true;
            next := next[nt := next[nt] + temp];
          }
        }
      }
      if !update {
        forall rhs | rhs in g.productions[nt] ensures FirstOfSeq(next, nullable, rhs) <= Get(next, nt) {
          var k' :| 0 <= k' < |rhss| && rhss[k'] == rhs;
        }
      }
    }
  }

  /** The `cascade` loop of grammar.py:88-96: FIRST of one body under the current tables. */
  method FirstOfBody(first: map<Symbol, set<Symbol>>, nullable: set<Symbol>, rhs: seq<Symbol>)
    returns (temp: set<Symbol>)
    ensures temp == FirstOfSeq(first, nullable, rhs)
  {
    var cascade := true;
    temp := {};
    var i := 0;
    while i < |rhs| && cascade
      invariant 0 <= i <= |rhs|
      invariant temp + (if cascade then FirstOfSeq(first, nullable, rhs[i..]) else {}) == FirstOfSeq(first, nullable, rhs)
    {
      assert rhs[i..] == [rhs[i]] + rhs[i + 1..];
      if rhs[i] !in nullable {
        cascade := false;
      }
      if rhs[i] in first {
        temp := temp + first[rhs[i]];
      }
      i := i + 1;
    }
  }

  lemma FirstAddPreserves(g: Grammar, nullable: set<Symbol>, first0: map<Symbol, set<Symbol>>,
                          first: map<Symbol, set<Symbol>>, nt: Symbol, rhs: seq<Symbol>, update: bool)
    requires WellFormed(g) && FirstInv(g, nullable, first)
    requires Grew(first0, first, g.nonTerminals, g.terminals, update)
    requires nt in g.nonTerminals && rhs in g.productions[nt]
    requires !(FirstOfSeq(first, nullable, rhs) <= first[nt])
    ensures FirstInv(g, nullable, first[nt := first[nt] + FirstOfSeq(first, nullable, rhs)])
    ensures Grew(first0, first[nt := first[nt] + FirstOfSeq(first, nullable, rhs)], g.nonTerminals, g.terminals, true)
  {
    var temp := FirstOfSeq(first, nullable, rhs);
    var first' := first[nt := first[nt] + temp];
    FirstOfSeqBound(first, nullable, rhs, g.terminals);
    forall f | FirstClosed(g, nullable, f) ensures Below(first', f) {
      FirstOfSeqMonotone(first, f, nullable, rhs);
      assert FirstRulesHold(g, nullable, f, nt);
    }
    GrewAdd(first0, first, g.nonTerminals, g.terminals, update, nt, temp);
  }

  /** What holds of the FOLLOW map throughout the loop. */
  ghost predicate FollowInv(g: Grammar, nullable: set<Symbol>, first: map<Symbol, set<Symbol>>,
                            follow: map<Symbol, set<Symbol>>)
    requires WellFormed(g)
  {
    && follow.Keys == g.nonTerminals + g.terminals
    && (forall x :: x in follow ==> follow[x] <= g.terminals)
    && (forall fo :: FollowClosed(g, nullable, first, fo) ==> Below(follow, fo))
  }

  /** Adding to FOLLOW(sym) a set that every solution puts there keeps the invariant and makes progress. */
  lemma FollowAddPreserves(g: Grammar, nullable: set<Symbol>, first: map<Symbol, set<Symbol>>,
                           follow0: map<Symbol, set<Symbol>>, follow: map<Symbol, set<Symbol>>,
                           sym: Symbol, add: set<Symbol>, update: bool)
    requires WellFormed(g) && FollowInv(g, nullable, first, follow)
    requires Grew(follow0, follow, g.nonTerminals + g.terminals, g.terminals, update)
    requires sym in follow && add <= g.terminals && !(add <= follow[sym])
    requires forall fo :: FollowClosed(g, nullable, first, fo) ==> add <= Get(fo, sym)
    ensures FollowInv(g, nullable, first, follow[sym := follow[sym] + add])
    ensures Grew(follow0, follow[sym := follow[sym] + add], g.nonTerminals + g.terminals, g.terminals, true)
  {
    var follow' := follow[sym := follow[sym] + add];
    forall fo | FollowClosed(g, nullable, first, fo) ensures Below(follow', fo) {
      assert Below(follow, fo);
      forall x | x in follow' ensures follow'[x] <= Get(fo, x) {
        if x != sym {
          assert follow'[x] == follow[x];
        }
      }
    }
    GrewAdd(follow0, follow, g.nonTerminals + g.terminals, g.terminals, update, sym, add);
  }

  /** The FOLLOW loop (grammar.py:108-128). */
  method ComputeFollow(g: Grammar, nullable: set<Symbol>, first: map<Symbol, set<Symbol>>)
    returns (follow: map<Symbol, set<Symbol>>)
    requires WellFormed(g)
    requires first.Keys == g.nonTerminals + g.terminals
    requires forall x :: x in first ==> first[x] <= g.terminals
    ensures follow.Keys == g.nonTerminals + g.terminals
    ensures forall x :: x in follow ==> follow[x] <= g.terminals
    ensures FollowClosed(g, nullable, first, follow)
    ensures forall fo :: FollowClosed(g, nullable, first, fo) ==> Below(follow, fo)
  {
    follow := map x | x in g.nonTerminals + g.terminals :: {};
    var update := true;
    while update
      invariant FollowInv(g, nullable, first, follow)
      invariant !update ==> FollowClosed(g, nullable, first, follow)
      decreases Missing(follow, g.nonTerminals + g.terminals, g.terminals), update
    {
      follow, update := FollowPass(g, nullable, first, follow);
    }
  }

  /** One pass of the FOLLOW loop: every body of every nonterminal once (grammar.py:113-127). */
  method FollowPass(g: Grammar, nullable: set<Symbol>, first: map<Symbol, set<Symbol>>,
                    follow: map<Symbol, set<Symbol>>)
    returns (next: map<Symbol, set<Symbol>>, update: bool)
    requires WellFormed(g)
    requires first.Keys == g.nonTerminals + g.terminals
    requires forall x :: x in first ==> first[x] <= g.terminals
    requires FollowInv(g, nullable, first, follow)
    ensures FollowInv(g, nullable, first, next)
    ensures Grew(follow, next, g.nonTerminals + g.terminals, g.terminals, update)
    ensures !update ==> FollowClosed(g, nullable, first, next)
  {
    next, update := follow, false;
    var todo := g.nonTerminals;
    while todo != {}
      invariant todo <= g.nonTerminals
      invariant FollowInv(g, nullable, first, next)
      invariant Grew(follow, next, g.nonTerminals + g.terminals, g.terminals, update)
      invariant !update ==> forall x :: x in g.nonTerminals - todo ==> FollowRulesHold(g, nullable, first, next, x)
      decreases todo
    {
      var nt :| nt in todo;
      todo := todo - {nt};
      next, update := FollowNonterminal(g, nullable, first, follow, next, update, nt);
    }
  }

  /** The loop over the bodies of one nonterminal nt (grammar.py:116-127). */
  method FollowNonterminal(g: Grammar, nullable: set<Symbol>, first: map<Symbol, set<Symbol>>,
                           follow0: map<Symbol, set<Symbol>>, follow: map<Symbol, set<Symbol>>, update: bool,
                           nt: Symbol)
    returns (next: map<Symbol, set<Symbol>>, update': bool)
    requires WellFormed(g)
    requires first.Keys == g.nonTerminals + g.terminals
    requires forall x :: x in first ==> first[x] <= g.terminals
    requires FollowInv(g, nullable, first, follow)
    requires Grew(follow0, follow, g.nonTerminals + g.terminals, g.terminals, update)
    requires nt in g.nonTerminals
    ensures FollowInv(g, nullable, first, next)
    ensures Grew(follow0, next, g.nonTerminals + g.terminals, g.terminals, update')
    ensures !update' ==> !update && next == follow && FollowRulesHold(g, nullable, first, next, nt)
  {
    next, update' := follow, update;
    var rhss := g.productions[nt];
    for k := 0 to |rhss|
      invariant FollowInv(g, nullable, first, next)
      invariant Grew(follow0, next, g.nonTerminals + g.terminals, g.terminals, update')
      invariant !update' ==> !update && next == follow
      invariant !update' ==> forall k' :: 0 <= k' < k ==> FollowBodyHolds(nullable, first, next, nt, rhss[k'])
    {
      assert rhss[k] in g.productions[nt];
      next, update' := FollowBody(g, nullable, first, follow0, next, update', nt, rhss[k]);
    }
    if !update' {
      forall rhs | rhs in g.productions[nt] ensures FollowBodyHolds(nullable, first, next, nt, rhs) {
        var k' :| 0 <= k' < |rhss| && rhss[k'] == rhs;
      }
    }
  }

  /** The loop over the positions i of one body nt → rhs (grammar.py:117-127). */
  method FollowBody(g: Grammar, nullable: set<Symbol>, first: map<Symbol, set<Symbol>>,
                    follow0: map<Symbol, set<Symbol>>, follow: map<Symbol, set<Symbol>>, update: bool,
                    nt: Symbol, rhs: seq<Symbol>)
    returns (next: map<Symbol, set<Symbol>>, update': bool)
    requires WellFormed(g)
    requires first.Keys == g.nonTerminals + g.terminals
    requires forall x :: x in first ==> first[x] <= g.terminals
    requires FollowInv(g, nullable, first, follow)
    requires Grew(follow0, follow, g.nonTerminals + g.terminals, g.terminals, update)
    requires nt in g.nonTerminals && rhs in g.productions[nt]
    ensures FollowInv(g, nullable, first, next)
    ensures Grew(follow0, next, g.nonTerminals + g.terminals, g.terminals, update')
    ensures !update' ==> !update && next == follow && FollowBodyHolds(nullable, first, next, nt, rhs)
  {
    next, update' := follow, update;
    for i := 0 to |rhs|
      invariant FollowInv(g, nullable, first, next)
      invariant Grew(follow0, next, g.nonTerminals + g.terminals, g.terminals, update')
      invariant !update' ==> !update && next == follow
      invariant !update' ==> forall i' :: 0 <= i' < i ==> FollowRuleAt(nullable, first, next, nt, rhs, i')
    {
      next, update' := FollowPosition(g, nullable, first, follow0, next, update', nt, rhs, i);
    }
  }

  /** Both FOLLOW rules at position i of one body nt → rhs (grammar.py:118-127). */
  method FollowPosition(g: Grammar, nullable: set<Symbol>, first: map<Symbol, set<Symbol>>,
                        follow0: map<Symbol, set<Symbol>>, follow: map<Symbol, set<Symbol>>, update: bool,
                        nt: Symbol, rhs: seq<Symbol>, i: nat)
    returns (next: map<Symbol, set<Symbol>>, update': bool)
    requires WellFormed(g)
    requires first.Keys == g.nonTerminals + g.terminals
    requires forall x :: x in first ==> first[x] <= g.terminals
    requires FollowInv(g, nullable, first, follow)
    requires Grew(follow0, follow, g.nonTerminals + g.terminals, g.terminals, update)
    requires nt in g.nonTerminals && rhs in g.productions[nt] && i < |rhs|
    ensures FollowInv(g, nullable, first, next)
    ensures Grew(follow0, next, g.nonTerminals + g.terminals, g.terminals, update')
    ensures !update' ==> !update && next == follow && FollowRuleAt(nullable, first, next, nt, rhs, i)
  {
    next, update' := FollowTail(g, nullable, first, follow0, follow, update, nt, rhs, i);
    next, update' := FollowFirsts(g, nullable, first, follow0, next, update', nt, rhs, i);
    if !update' {
      assert next == follow;
    }
  }

  /** FOLLOW(nt) goes into FOLLOW(rhs[i]) when the rest of the body is nullable (grammar.py:119-122). */
  method FollowTail(g: Grammar, nullable: set<Symbol>, first: map<Symbol, set<Symbol>>,
                    follow0: map<Symbol, set<Symbol>>, follow: map<Symbol, set<Symbol>>, update: bool,
                    nt: Symbol, rhs: seq<Symbol>, i: nat)
    returns (next: map<Symbol, set<Symbol>>, update': bool)
    requires WellFormed(g)
    requires first.Keys == g.nonTerminals + g.terminals
    requires forall x :: x in first ==> first[x] <= g.terminals
    requires FollowInv(g, nullable, first, follow)
    requires Grew(follow0, follow, g.nonTerminals + g.terminals, g.terminals, update)
    requires nt in g.nonTerminals && rhs in g.productions[nt] && i < |rhs|
    ensures FollowInv(g, nullable, first, next)
    ensures Grew(follow0, next, g.nonTerminals + g.terminals, g.terminals, update')
    ensures !update' ==> !update && next == follow
    ensures !update' ==> (AllIn(rhs[i + 1..], nullable) ==> Get(next, nt) <= Get(next, rhs[i]))
  {
    next, update' := follow, update;
    var sym := rhs[i];
    assert Declared(g, sym);
    if AllIn(rhs[i + 1..], nullable) {
      if !(next[nt] <= next[sym]) {
        forall fo | FollowClosed(g, nullable, first, fo) ensures next[nt] <= Get(fo, sym) {
          TailRule(g, nullable, first, fo, nt, rhs, i);
          assert Below(next, fo);
        }
        FollowAddPreserves(g, nullable, first, follow0, next, sym, next[nt], update');
        update' := true;
        next := next[sym := next[sym] + next[nt]];
      }
    }
  }

  /** FIRST(rhs[j]) goes into FOLLOW(rhs[i]) for each j reached through nullable symbols (grammar.py:123-127). */
  method FollowFirsts(g: Grammar, nullable: set<Symbol>, first: map<Symbol, set<Symbol>>,
                       follow0: map<Symbol, set<Symbol>>, follow: map<Symbol, set<Symbol>>, update: bool,
                       nt: Symbol, rhs: seq<Symbol>, i: nat)
    returns (next: map<Symbol, set<Symbol>>, update': bool)
    requires WellFormed(g)
    requires first.Keys == g.nonTerminals + g.terminals
    requires forall x :: x in first ==> first[x] <= g.terminals
    requires FollowInv(g, nullable, first, follow)
    requires Grew(follow0, follow, g.nonTerminals + g.terminals, g.terminals, update)
    requires nt in g.nonTerminals && rhs in g.productions[nt] && i < |rhs|
    ensures FollowInv(g, nullable, first, next)
    ensures Grew(follow0, next, g.nonTerminals + g.terminals, g.terminals, update')
    ensures !update' ==> !update && next == follow
    ensures !update' ==> forall j :: i < j < |rhs| && AllIn(rhs[i + 1..j], nullable) ==>
              Get(first, rhs[j]) <= Get(next, rhs[i])
  {
    next, update' := follow, update;
    var sym := rhs[i];
    assert Declared(g, sym);
    for j := i + 1 to |rhs|
      invariant FollowInv(g, nullable, first, next)
      invariant Grew(follow0, next, g.nonTerminals + g.terminals, g.terminals, update')
      invariant !update' ==> !update && next == follow
      invariant !update' ==> forall j' :: i < j' < j && AllIn(rhs[i + 1..j'], nullable) ==>
                  Get(first, rhs[j']) <= Get(next, sym)
    {
      if AllIn(rhs[i + 1..j], nullable) {
        assert Declared(g, rhs[j]);
        if !(first[rhs[j]] <= next[sym]) {
          forall fo | FollowClosed(g, nullable, first, fo) ensures first[rhs[j]] <= Get(fo, sym) {
            FirstRule(g, nullable, first, fo, nt, rhs, i, j);
          }
          FollowAddPreserves(g, nullable, first, follow0, next, sym, first[rhs[j]], update');
          update' := true;
          next := next[sym := next[sym] + first[rhs[j]]];
        }
      }
    }
  }

  /** In a solution, FOLLOW(nt) is in FOLLOW(rhs[i]) when the rest of the body is nullable. */
  lemma TailRule(g: Grammar, nullable: set<Symbol>, first: map<Symbol, set<Symbol>>,
                 fo: map<Symbol, set<Symbol>>, nt: Symbol, rhs: seq<Symbol>, i: nat)
    requires WellFormed(g) && FollowClosed(g, nullable, first, fo)
    requires nt in g.nonTerminals && rhs in g.productions[nt] && i < |rhs| && AllIn(rhs[i + 1..], nullable)
    ensures Get(fo, nt) <= Get(fo, rhs[i])
  {
    assert FollowRulesHold(g, nullable, first, fo, nt);
    assert FollowBodyHolds(nullable, first, fo, nt, rhs);
    assert FollowRuleAt(nullable, first, fo, nt, rhs, i);
  }

  /** In a solution, FIRST(rhs[j]) is in FOLLOW(rhs[i]) when the symbols between are nullable. */
  lemma FirstRule(g: Grammar, nullable: set<Symbol>, first: map<Symbol, set<Symbol>>,
                  fo: map<Symbol, set<Symbol>>, nt: Symbol, rhs: seq<Symbol>, i: nat, j: nat)
    requires WellFormed(g) && FollowClosed(g, nullable, first, fo)
    requires nt in g.nonTerminals && rhs in g.productions[nt] && i < j < |rhs| && AllIn(rhs[i + 1..j], nullable)
    ensures Get(first, rhs[j]) <= Get(fo, rhs[i])
  {
    assert FollowRulesHold(g, nullable, first, fo, nt);
    assert FollowBodyHolds(nullable, first, fo, nt, rhs);
    assert FollowRuleAt(nullable, first, fo, nt, rhs, i);
  }
}
