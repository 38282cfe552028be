/**
 * The LR(1) automaton and parser of parser.py: LR1Item, LR1.closureOf with
 * its lookahead rule, the canonical collection and list-valued table built
 * by LR1.__init__, and the stack machine LR1.parse with its shift-preferring
 * conflict policy.
 */
module Lr1 {
  import opened Grammars
  import opened Finite
  import opened Registry
  import opened Outcomes

  /** LR1Item (parser.py:206-214): an LR(0) item with its lookahead set. */
  datatype Item = Item(head: Symbol, body: seq<Symbol>, pos: nat, laset: set<Symbol>)

  /** The start item S0 → . startSymbol with lookahead {EOF} (parser.py:228). */
  function StartItem(g: Grammar): Item {
    Item(START, [g.startSymbol], 0, {EOF})
  }

  // ---------------------------------------------------------------------
  // closureOf (parser.py:273-306)
  // ---------------------------------------------------------------------

  /** The nonterminal after the dot that closureOf expands at, if any (parser.py:286-289). */
  function Trigger(g: Grammar, it: Item): Option<Symbol> {
    if it.pos < |it.body| && it.body[it.pos] != "" && it.body[it.pos] in g.nonTerminals
    then Some(it.body[it.pos])
    else None
  }

  /** The symbols after the one following the dot: `item.body[item.pos+1:]`. */
  function Rest(it: Item): seq<Symbol>
    requires it.pos < |it.body|
  {
    it.body[it.pos + 1..]
  }

  /**
   * The lookahead of the items a trigger brings in (parser.py:293-298):
   * FIRST of the rest without ε, plus the trigger's own lookahead when the
   * rest is nullable.
   */
  function Lookahead(t: Tables, it: Item): set<Symbol>
    requires it.pos < |it.body|
  {
    (FirstOfSeq(t.first, t.nullable, Rest(it)) - {EPSILON})
    + (if AllIn(Rest(it), t.nullable) then it.laset else {})
  }

  /** A body [ε] becomes the empty body (parser.py:300-302). */
  function Collapse(rhs: seq<Symbol>): seq<Symbol> {
    if rhs == [EPSILON] then [] else rhs
  }

  /** The items appended for the bodies `rhss` of x, all with lookahead la. */
  function ExpandBodies(x: Symbol, rhss: seq<seq<Symbol>>, la: set<Symbol>): seq<Item> {
    if rhss == [] then []
    else ExpandBodies(x, rhss[..|rhss| - 1], la) + [Item(x, Collapse(rhss[|rhss| - 1]), 0, la)]
  }

  /** The items a triggering item brings in. */
  function ExpandFor(g: Grammar, t: Tables, it: Item): seq<Item> {
    match Trigger(g, it)
    case Some(x) =>
      if x in g.productions then ExpandBodies(x, g.productions[x], Lookahead(t, it)) else []
    case None => []
  }

  /** The nonterminals that the items `trig` trigger. */
  function Visited(g: Grammar, trig: seq<Item>): set<Symbol> {
    if trig == [] then {}
    else
      Visited(g, trig[..|trig| - 1])
      + (match Trigger(g, trig[|trig| - 1]) case Some(x) => {x} case None => {})
  }

  /** The items of a left-to-right scan of c that expand: the first item with each trigger. */
  function Triggers(g: Grammar, c: seq<Item>): seq<Item> {
    if c == [] then []
    else
      var e := Triggers(g, c[..|c| - 1]);
      var it := c[|c| - 1];
      if Trigger(g, it).Some? && Trigger(g, it).value !in Visited(g, e) then e + [it] else e
  }

  /** The expansions of the triggering items `trig`, one after the other. */
  function ExpandAll(g: Grammar, t: Tables, trig: seq<Item>): seq<Item> {
    if trig == [] then []
    else ExpandAll(g, t, trig[..|trig| - 1]) + ExpandFor(g, t, trig[|trig| - 1])
  }

  /**
   * The scan of closureOf from index i, `visited` holding the nonterminals
   * already expanded: every item is looked at once, in order, and a trigger
   * not yet visited appends its bodies with the lookahead this item gives.
   */
  function Close(g: Grammar, t: Tables, c: seq<Item>, i: nat, visited: set<Symbol>): seq<Item>
    requires i <= |c|
    decreases g.nonTerminals - visited, |c| - i
  {
    if i == |c| then c
    else match Trigger(g, c[i])
      case Some(x) =>
        if x !in visited then Close(g, t, c + ExpandFor(g, t, c[i]), i + 1, visited + {x})
        else Close(g, t, c, i + 1, visited)
      case None => Close(g, t, c, i + 1, visited)
  }

  /** The closure of a list of items, as closureOf returns it. */
  function Closure(g: Grammar, t: Tables, items: seq<Item>): seq<Item> {
    Close(g, t, items, 0, {})
  }

  /** The symbols closureOf may look up in FIRST for this item are all there. */
  predicate Known(t: Tables, it: Item) {
    forall k :: it.pos < k < |it.body| ==> it.body[k] in t.first
  }

  ghost predicate AllKnown(t: Tables, items: seq<Item>) {
    forall i :: 0 <= i < |items| ==> Known(t, items[i])
  }

  /** The tables have an entry for every declared symbol, as `analyze` leaves them. */
  predicate Covers(g: Grammar, t: Tables) {
    g.nonTerminals + g.terminals <= t.first.Keys
  }

  /** closureOf, with its `while update` passes over the unscanned tail and its `visited` set. */
  method ClosureOf(g: Grammar, t: Tables, items: seq<Item>) returns (closure: seq<Item>)
    requires WellFormed(g) && Covers(g, t)
    requires AllKnown(t, items)
    ensures closure == Closure(g, t, items)
    ensures closure == items + ExpandAll(g, t, Triggers(g, closure))
    ensures AllKnown(t, closure)
  {
    closure := items;
    var update := true;
    var begin: nat := 0;
    var visited: set<Symbol> := {};
    while update
      invariant begin <= |closure| && visited <= g.nonTerminals
      invariant Close(g, t, closure, begin, visited) == Closure(g, t, items)
      invariant AllKnown(t, closure)
      invariant !update ==> begin == |closure|
      decreases g.nonTerminals - visited, update
    {
      var n := |closure|;
      closure, visited, update := ScanPass(g, t, closure, begin, visited);
      begin := n;
    }
    ClosureShape(g, t, items);
  }

  /** One pass of `while update` (parser.py:283-305): the items from `begin` to the current end, in order. */
  method ScanPass(g: Grammar, t: Tables, closure: seq<Item>, begin: nat, visited: set<Symbol>)
    returns (closure': seq<Item>, visited': set<Symbol>, update: bool)
    requires WellFormed(g) && Covers(g, t) && begin <= |closure| && visited <= g.nonTerminals
    requires AllKnown(t, closure)
    ensures |closure| <= |closure'| && visited <= visited' <= g.nonTerminals
    ensures Close(g, t, closure', |closure|, visited') == Close(g, t, closure, begin, visited)
    ensures AllKnown(t, closure')
    ensures update ==> g.nonTerminals - visited' < g.nonTerminals - visited
    ensures !update ==> |closure'| == |closure|
  {
    update := false;
    closure', visited' := closure, visited;
    var n := |closure|;
    for i := begin to n
      invariant n <= |closure'|
      invariant visited <= visited' <= g.nonTerminals
      invariant Close(g, t, closure', i, visited') == Close(g, t, closure, begin, visited)
      invariant AllKnown(t, closure')
      invariant update ==> g.nonTerminals - visited' < g.nonTerminals - visited
      invariant !update ==> |closure'| == n
    {
      var grew;
      closure', visited', grew := VisitItem(g, t, closure', i, visited');
      update := update || grew;
    }
  }

  /**
   * One step of the scan in closureOf (parser.py:285-304): an item whose dot
   * is before a nonterminal not yet visited appends the bodies of that
   * nonterminal, with the lookahead the item gives them.
   */
  method VisitItem(g: Grammar, t: Tables, closure: seq<Item>, i: nat, visited: set<Symbol>)
    returns (closure': seq<Item>, visited': set<Symbol>, grew: bool)
    requires WellFormed(g) && Covers(g, t) && i < |closure| && visited <= g.nonTerminals
    requires AllKnown(t, closure)
    ensures |closure| <= |closure'| && visited <= visited' <= g.nonTerminals && AllKnown(t, closure')
    ensures Close(g, t, closure', i + 1, visited') == Close(g, t, closure, i, visited)
    ensures grew ==> g.nonTerminals - visited' < g.nonTerminals - visited
    ensures !grew ==> closure' == closure && visited' == visited
  {
    closure', visited', grew := closure, visited, false;
    var item := closure[i];
    var sz := |item.body|;
    var nxt := if item.pos >= sz then None else Some(item.body[item.pos]);
    if nxt.Some? && nxt.value != "" && nxt.value in g.nonTerminals && nxt.value !in visited {
      var x := nxt.value;
      visited' := visited + {x};
      grew := true;
      var rest := item.body[item.pos + 1..];
      var newla := FirstOfAll(t, rest);
      newla := newla - {EPSILON};
      if AllNullable(t, rest) {
        newla := newla + item.laset;
      }
      assert newla == Lookahead(t, item);
      closure' := AppendExpansion(g, t, closure, x, newla);
    }
  }

  /** The inner loop of closureOf over the bodies of x (parser.py:299-304). */
  method AppendExpansion(g: Grammar, t: Tables, closure: seq<Item>, x: Symbol, newla: set<Symbol>)
    returns (closure': seq<Item>)
    requires WellFormed(g) && Covers(g, t) && x in g.nonTerminals
    requires AllKnown(t, closure)
    ensures closure' == closure + ExpandBodies(x, g.productions[x], newla)
    ensures AllKnown(t, closure')
  {
    closure' := closure;
    var rhss := g.productions[x];
    for k := 0 to |rhss|
      invariant closure' == closure + ExpandBodies(x, rhss[..k], newla)
      invariant AllKnown(t, closure')
    {
      var rhs := rhss[k];
      if rhs == [EPSILON] {
        rhs := [];
      }
      assert rhs == Collapse(rhss[k]);
      assert Known(t, Item(x, rhs, 0, newla)) by {
        forall j | 0 < j < |rhs| ensures rhs[j] in t.first {
          assert rhss[k] in g.productions[x] && rhs[j] in rhss[k];
          assert Declared(g, rhs[j]);
        }
      }
      closure' := closure' + [Item(x, rhs, 0, newla)];
      assert rhss[..k + 1][..k] == rhss[..k];
    }
    assert rhss[..|rhss|] == rhss;
  }

  /** One more item of a scan: Triggers grows by that item when its trigger is new. */
  lemma TriggersSnoc(g: Grammar, c: seq<Item>, i: nat)
    requires i < |c|
    ensures Triggers(g, c[..i + 1]) ==
      if Trigger(g, c[i]).Some? && Trigger(g, c[i]).value !in Visited(g, Triggers(g, c[..i]))
      then Triggers(g, c[..i]) + [c[i]] else Triggers(g, c[..i])
  {
    assert c[..i + 1][..i] == c[..i];
  }

  lemma VisitedSnoc(g: Grammar, trig: seq<Item>, it: Item, x: Symbol)
    requires Trigger(g, it) == Some(x)
    ensures Visited(g, trig + [it]) == Visited(g, trig) + {x}
  {
    assert (trig + [it])[..|trig|] == trig;
  }

  lemma ExpandAllSnoc(g: Grammar, t: Tables, trig: seq<Item>, it: Item)
    ensures ExpandAll(g, t, trig + [it]) == ExpandAll(g, t, trig) + ExpandFor(g, t, it)
  {
    assert (trig + [it])[..|trig|] == trig;
  }

  lemma {:induction false} CloseShape(g: Grammar, t: Tables, items: seq<Item>, c: seq<Item>, i: nat, visited: set<Symbol>)
    requires i <= |c|
    requires c == items + ExpandAll(g, t, Triggers(g, c[..i]))
    requires visited == Visited(g, Triggers(g, c[..i]))
    ensures Close(g, t, c, i, visited) == items + ExpandAll(g, t, Triggers(g, Close(g, t, c, i, visited)))
    decreases g.nonTerminals - visited, |c| - i, 1
  {
    if i == |c| {
      assert c[..i] == c;
    } else if Trigger(g, c[i]).Some? && Trigger(g, c[i]).value !in visited {
      CloseShapeExpand(g, t, items, c, i, visited, Trigger(g, c[i]).value);
    } else {
      CloseShapeSkip(g, t, items, c, i, visited);
    }
  }

  lemma {:induction false} CloseShapeExpand(g: Grammar, t: Tables, items: seq<Item>, c: seq<Item>, i: nat,
                                            visited: set<Symbol>, x: Symbol)
    requires i < |c| && Trigger(g, c[i]) == Some(x) && x !in visited
    requires c == items + ExpandAll(g, t, Triggers(g, c[..i]))
    requires visited == Visited(g, Triggers(g, c[..i]))
    ensures Close(g, t, c, i, visited) == items + ExpandAll(g, t, Triggers(g, Close(g, t, c, i, visited)))
    decreases g.nonTerminals - visited, |c| - i, 0
  {
    var c' := c + ExpandFor(g, t, c[i]);
    ScanExpands(g, t, items, c, i, visited, x);
    CloseExpands(g, t, c, i, visited, x);
    CloseShape(g, t, items, c', i + 1, visited + {x});
  }

  lemma {:induction false} CloseShapeSkip(g: Grammar, t: Tables, items: seq<Item>, c: seq<Item>, i: nat,
                                          visited: set<Symbol>)
    requires i < |c| && !(Trigger(g, c[i]).Some? && Trigger(g, c[i]).value !in visited)
    requires c == items + ExpandAll(g, t, Triggers(g, c[..i]))
    requires visited == Visited(g, Triggers(g, c[..i]))
    ensures Close(g, t, c, i, visited) == items + ExpandAll(g, t, Triggers(g, Close(g, t, c, i, visited)))
    decreases g.nonTerminals - visited, |c| - i, 0
  {
    ScanSkips(g, t, items, c, i, visited);
    CloseSkips(g, t, c, i, visited);
    CloseShape(g, t, items, c, i + 1, visited);
  }

  /** One step of Close at an item whose trigger is new. */
  lemma CloseExpands(g: Grammar, t: Tables, c: seq<Item>, i: nat, visited: set<Symbol>, x: Symbol)
    requires i < |c| && Trigger(g, c[i]) == Some(x) && x !in visited
    ensures Close(g, t, c, i, visited) == Close(g, t, c + ExpandFor(g, t, c[i]), i + 1, visited + {x})
  {
  }

  /** One step of Close at an item with no trigger or one already visited. */
  lemma CloseSkips(g: Grammar, t: Tables, c: seq<Item>, i: nat, visited: set<Symbol>)
    requires i < |c| && !(Trigger(g, c[i]).Some? && Trigger(g, c[i]).value !in visited)
    ensures Close(g, t, c, i, visited) == Close(g, t, c, i + 1, visited)
  {
  }

  /** Scanning an item that does not expand keeps the shape. */
  lemma ScanSkips(g: Grammar, t: Tables, items: seq<Item>, c: seq<Item>, i: nat, visited: set<Symbol>)
    requires i < |c| && !(Trigger(g, c[i]).Some? && Trigger(g, c[i]).value !in visited)
    requires c == items + ExpandAll(g, t, Triggers(g, c[..i]))
    requires visited == Visited(g, Triggers(g, c[..i]))
    ensures c == items + ExpandAll(g, t, Triggers(g, c[..i + 1]))
    ensures visited == Visited(g, Triggers(g, c[..i + 1]))
  {
    TriggersSnoc(g, c, i);
  }

  /** Scanning an item whose trigger is new appends its expansion and records it. */
  lemma ScanExpands(g: Grammar, t: Tables, items: seq<Item>, c: seq<Item>, i: nat, visited: set<Symbol>, x: Symbol)
    requires i < |c| && Trigger(g, c[i]) == Some(x) && x !in visited
    requires c == items + ExpandAll(g, t, Triggers(g, c[..i]))
    requires visited == Visited(g, Triggers(g, c[..i]))
    ensures c + ExpandFor(g, t, c[i]) == items + ExpandAll(g, t, Triggers(g, (c + ExpandFor(g, t, c[i]))[..i + 1]))
    ensures visited + {x} == Visited(g, Triggers(g, (c + ExpandFor(g, t, c[i]))[..i + 1]))
  {
    var e := Triggers(g, c[..i]);
    var f := ExpandFor(g, t, c[i]);
    var c' := c + f;
    NewTrigger(g, c, c', i, x);
    ExpandAllSnoc(g, t, e, c[i]);
    Regroup(items, ExpandAll(g, t, e), f, c, ExpandAll(g, t, Triggers(g, c'[..i + 1])));
    VisitedSnoc(g, e, c[i], x);
  }

  lemma Regroup(items: seq<Item>, a: seq<Item>, f: seq<Item>, c: seq<Item>, a': seq<Item>)
    requires c == items + a && a' == a + f
    ensures c + f == items + a'
  {
  }

  /** A scan that meets a new trigger records it, whatever follows the scanned prefix. */
  lemma NewTrigger(g: Grammar, c: seq<Item>, c': seq<Item>, i: nat, x: Symbol)
    requires i < |c| <= |c'| && c'[..|c|] == c && Trigger(g, c[i]) == Some(x)
    requires x !in Visited(g, Triggers(g, c[..i]))
    ensures Triggers(g, c'[..i + 1]) == Triggers(g, c[..i]) + [c[i]]
  {
    assert c'[..i + 1] == c[..i + 1];
    TriggersSnoc(g, c, i);
  }

  /** The closure is its input followed by the expansions of the items of a scan of it that expand. */
  lemma ClosureShape(g: Grammar, t: Tables, items: seq<Item>)
    ensures Closure(g, t, items) == items + ExpandAll(g, t, Triggers(g, Closure(g, t, items)))
  {
    assert items[..0] == [];
    CloseShape(g, t, items, items, 0, {});
  }

  /** The nonterminals in `Visited` are exactly the triggers of the items. */
  lemma {:induction false} VisitedMembers(g: Grammar, trig: seq<Item>)
    ensures forall x :: x in Visited(g, trig) <==> exists k :: 0 <= k < |trig| && Trigger(g, trig[k]) == Some(x)
  {
    if trig != [] {
      var init := trig[..|trig| - 1];
      VisitedMembers(g, init);
      assert trig == init + [trig[|trig| - 1]];
      forall x | x in Visited(g, trig) ensures exists k :: 0 <= k < |trig| && Trigger(g, trig[k]) == Some(x) {
        if x in Visited(g, init) {
          var k :| 0 <= k < |init| && Trigger(g, init[k]) == Some(x);
          assert trig[k] == init[k];
        }
      }
      forall x | exists k :: 0 <= k < |trig| && Trigger(g, trig[k]) == Some(x) ensures x in Visited(g, trig) {
        var k :| 0 <= k < |trig| && Trigger(g, trig[k]) == Some(x);
        if k < |init| {
          assert init[k] == trig[k];
        }
      }
    }
  }

  /** The triggering items of a scan, as closureOf meets them. */
  ghost predicate FirstTriggers(g: Grammar, c: seq<Item>, tr: seq<Item>) {
    && (forall k :: 0 <= k < |tr| ==> tr[k] in c && Trigger(g, tr[k]).Some?)
    && (forall k, l :: 0 <= k < l < |tr| ==> Trigger(g, tr[k]) != Trigger(g, tr[l]))
    && (forall j :: 0 <= j < |c| && Trigger(g, c[j]).Some? ==> CoveredAt(g, c, tr, j))
  }

  /**
   * Each nonterminal triggers once: the items that expand have distinct
   * triggers, and for every item with a trigger the one that expanded it
   * occurs at or before it.
   */
  lemma TriggersFirst(g: Grammar, c: seq<Item>)
    ensures FirstTriggers(g, c, Triggers(g, c))
  {
    TriggersIn(g, c);
    TriggersDistinct(g, c);
    TriggersCover(g, c);
  }

  lemma {:induction false} TriggersIn(g: Grammar, c: seq<Item>)
    ensures forall k :: 0 <= k < |Triggers(g, c)| ==> Triggers(g, c)[k] in c && Trigger(g, Triggers(g, c)[k]).Some?
  {
    if c != [] {
      var init := c[..|c| - 1];
      TriggersIn(g, init);
      assert c == init + [c[|c| - 1]];
    }
  }

  lemma {:induction false} TriggersDistinct(g: Grammar, c: seq<Item>)
    ensures forall k, l :: 0 <= k < l < |Triggers(g, c)| ==> Trigger(g, Triggers(g, c)[k]) != Trigger(g, Triggers(g, c)[l])
  {
    if c != [] {
      var init := c[..|c| - 1];
      var it := c[|c| - 1];
      var e := Triggers(g, init);
      TriggersDistinct(g, init);
      if Trigger(g, it).Some? && Trigger(g, it).value !in Visited(g, e) {
        VisitedMembers(g, e);
        var tr := e + [it];
        forall k, l | 0 <= k < l < |tr| ensures Trigger(g, tr[k]) != Trigger(g, tr[l]) {
          if l == |e| {
            assert tr[k] == e[k];
          }
        }
      }
    }
  }

  /** Some item at or before c[j] with the same trigger is in tr. */
  ghost predicate CoveredAt(g: Grammar, c: seq<Item>, tr: seq<Item>, j: nat)
    requires j < |c|
  {
    exists l :: 0 <= l <= j && c[l] in tr && Trigger(g, c[l]) == Trigger(g, c[j])
  }

  lemma {:induction false} TriggersCover(g: Grammar, c: seq<Item>)
    ensures forall j :: 0 <= j < |c| && Trigger(g, c[j]).Some? ==> CoveredAt(g, c, Triggers(g, c), j)
  {
    if c != [] {
      var init := c[..|c| - 1];
      TriggersCover(g, init);
      forall j | 0 <= j < |c| && Trigger(g, c[j]).Some? ensures CoveredAt(g, c, Triggers(g, c), j) {
        CoverStep(g, c, j);
      }
    }
  }

  lemma CoverStep(g: Grammar, c: seq<Item>, j: nat)
    requires j < |c| && Trigger(g, c[j]).Some?
    requires forall j :: 0 <= j < |c| - 1 && Trigger(g, c[j]).Some? ==> CoveredAt(g, c[..|c| - 1], Triggers(g, c[..|c| - 1]), j)
    ensures CoveredAt(g, c, Triggers(g, c), j)
  {
    if j < |c| - 1 {
      CoverEarlier(g, c, j);
    } else {
      CoverLast(g, c);
    }
  }

  /** An item before the last keeps the cover it had in the shorter scan. */
  lemma CoverEarlier(g: Grammar, c: seq<Item>, j: nat)
    requires j < |c| - 1 && CoveredAt(g, c[..|c| - 1], Triggers(g, c[..|c| - 1]), j)
    ensures CoveredAt(g, c, Triggers(g, c), j)
  {
    var init := c[..|c| - 1];
    var e := Triggers(g, init);
    TriggersGrow(g, c);
    var l :| 0 <= l <= j && init[l] in e && Trigger(g, init[l]) == Trigger(g, init[j]);
    assert c[l] == init[l] && c[j] == init[j];
    CoveredBy(g, c, Triggers(g, c), j, l);
  }

  /** The last item is covered by itself when its trigger is new, else by the earlier item that expanded. */
  lemma CoverLast(g: Grammar, c: seq<Item>)
    requires c != [] && Trigger(g, c[|c| - 1]).Some?
    ensures CoveredAt(g, c, Triggers(g, c), |c| - 1)
  {
    var init := c[..|c| - 1];
    var it := c[|c| - 1];
    var e := Triggers(g, init);
    var tr := Triggers(g, c);
    TriggersGrow(g, c);
    if Trigger(g, it).value in Visited(g, e) {
      SeenBefore(g, init, it);
      var l :| 0 <= l < |init| && init[l] in e && Trigger(g, init[l]) == Trigger(g, it);
      assert c[l] == init[l];
      CoveredBy(g, c, tr, |c| - 1, l);
    } else {
      assert tr == e + [it];
      CoveredBy(g, c, tr, |c| - 1, |c| - 1);
    }
  }

  /** The scan of c extends the scan of c without its last item. */
  lemma TriggersGrow(g: Grammar, c: seq<Item>)
    requires c != []
    ensures Triggers(g, c[..|c| - 1]) <= Triggers(g, c)
  {
  }

  lemma CoveredBy(g: Grammar, c: seq<Item>, tr: seq<Item>, j: nat, l: nat)
    requires l <= j < |c| && c[l] in tr && Trigger(g, c[l]) == Trigger(g, c[j])
    ensures CoveredAt(g, c, tr, j)
  {
  }

  /** A trigger already visited was visited by an earlier item that expanded. */
  lemma SeenBefore(g: Grammar, init: seq<Item>, it: Item)
    requires Trigger(g, it).Some? && Trigger(g, it).value in Visited(g, Triggers(g, init))
    ensures exists l :: 0 <= l < |init| && init[l] in Triggers(g, init) && Trigger(g, init[l]) == Trigger(g, it)
  {
    var e := Triggers(g, init);
    VisitedMembers(g, e);
    TriggersIn(g, init);
    var k :| 0 <= k < |e| && Trigger(g, e[k]) == Trigger(g, it);
    assert e[k] in init;
    var l :| 0 <= l < |init| && init[l] == e[k];
  }

  /** `it` is one of the items the triggering item e brings in: (x, rhs, 0) for a body rhs of x, with e's lookahead. */
  ghost predicate Brings(g: Grammar, t: Tables, e: Item, it: Item) {
    && Trigger(g, e).Some? && it.head == Trigger(g, e).value && it.head in g.productions
    && it.pos == 0 && it.laset == Lookahead(t, e)
    && exists rhs :: rhs in g.productions[it.head] && it.body == Collapse(rhs)
  }

  lemma {:induction false} ExpandBodiesItems(x: Symbol, rhss: seq<seq<Symbol>>, la: set<Symbol>)
    ensures forall it :: it in ExpandBodies(x, rhss, la) <==>
              it.head == x && it.pos == 0 && it.laset == la && exists rhs :: rhs in rhss && it.body == Collapse(rhs)
  {
    if rhss != [] {
      var init := rhss[..|rhss| - 1];
      ExpandBodiesItems(x, init, la);
      assert rhss == init + [rhss[|rhss| - 1]];
    }
  }

  lemma ExpandForItems(g: Grammar, t: Tables, e: Item)
    ensures forall it :: it in ExpandFor(g, t, e) <==> Brings(g, t, e, it)
  {
    if Trigger(g, e).Some? && Trigger(g, e).value in g.productions {
      var x := Trigger(g, e).value;
      ExpandBodiesItems(x, g.productions[x], Lookahead(t, e));
    }
  }

  lemma {:induction false} ExpandAllItems(g: Grammar, t: Tables, trig: seq<Item>)
    ensures forall it :: it in ExpandAll(g, t, trig) <==> exists k :: 0 <= k < |trig| && it in ExpandFor(g, t, trig[k])
  {
    if trig != [] {
      var init := trig[..|trig| - 1];
      ExpandAllItems(g, t, init);
      assert trig == init + [trig[|trig| - 1]];
      forall it | it in ExpandAll(g, t, trig) ensures exists k :: 0 <= k < |trig| && it in ExpandFor(g, t, trig[k]) {
        if it in ExpandAll(g, t, init) {
          var k :| 0 <= k < |init| && it in ExpandFor(g, t, init[k]);
          assert trig[k] == init[k];
        }
      }
      forall it | exists k :: 0 <= k < |trig| && it in ExpandFor(g, t, trig[k]) ensures it in ExpandAll(g, t, trig) {
        var k :| 0 <= k < |trig| && it in ExpandFor(g, t, trig[k]);
        if k < |init| {
          assert init[k] == trig[k];
        }
      }
    }
  }

  /**
   * What closureOf promises (parser.py:273-306): the input is a prefix; each
   * nonterminal after a dot is expanded once, by the first item that has it
   * there; every added item is (x, rhs, 0) for a body rhs of x, with [ε]
   * collapsed to [], whose lookahead is FIRST of what follows x in that
   * first item, plus that item's lookahead when the rest is nullable; and
   * every body of every expanded nonterminal is added with it.  A later
   * item with the same nonterminal after its dot contributes no lookahead.
   */
  lemma ClosureProperties(g: Grammar, t: Tables, items: seq<Item>)
    requires WellFormed(g)
    ensures var c := Closure(g, t, items); var tr := Triggers(g, c);
      && items <= c
      && FirstTriggers(g, c, tr)
      && (forall j :: |items| <= j < |c| ==> exists k :: 0 <= k < |tr| && Brings(g, t, tr[k], c[j]))
      && (forall k, rhs :: 0 <= k < |tr| && rhs in g.productions[Trigger(g, tr[k]).value] ==>
            Item(Trigger(g, tr[k]).value, Collapse(rhs), 0, Lookahead(t, tr[k])) in c[|items|..])
  {
    var c := Closure(g, t, items);
    ClosureShape(g, t, items);
    TriggersFirst(g, c);
    AddedSound(g, t, items, c, Triggers(g, c));
    AddedComplete(g, t, items, c, Triggers(g, c));
  }

  lemma AddedSound(g: Grammar, t: Tables, items: seq<Item>, c: seq<Item>, tr: seq<Item>)
    requires c == items + ExpandAll(g, t, tr)
    ensures forall j :: |items| <= j < |c| ==> exists k :: 0 <= k < |tr| && Brings(g, t, tr[k], c[j])
  {
    ExpandAllItems(g, t, tr);
    forall j | |items| <= j < |c| ensures exists k :: 0 <= k < |tr| && Brings(g, t, tr[k], c[j]) {
      assert c[j] in ExpandAll(g, t, tr) by {
        assert c[j] == ExpandAll(g, t, tr)[j - |items|];
      }
      var k :| 0 <= k < |tr| && c[j] in ExpandFor(g, t, tr[k]);
      ExpandForItems(g, t, tr[k]);
    }
  }

  lemma AddedComplete(g: Grammar, t: Tables, items: seq<Item>, c: seq<Item>, tr: seq<Item>)
    requires WellFormed(g)
    requires c == items + ExpandAll(g, t, tr)
    requires forall k :: 0 <= k < |tr| ==> Trigger(g, tr[k]).Some?
    ensures forall k, rhs :: 0 <= k < |tr| && rhs in g.productions[Trigger(g, tr[k]).value] ==>
              Item(Trigger(g, tr[k]).value, Collapse(rhs), 0, Lookahead(t, tr[k])) in c[|items|..]
  {
    ExpandAllItems(g, t, tr);
    assert c[|items|..] == ExpandAll(g, t, tr);
    forall k, rhs | 0 <= k < |tr| && rhs in g.productions[Trigger(g, tr[k]).value]
      ensures Item(Trigger(g, tr[k]).value, Collapse(rhs), 0, Lookahead(t, tr[k])) in c[|items|..]
    {
      ExpandForItems(g, t, tr[k]);
      assert Brings(g, t, tr[k], Item(Trigger(g, tr[k]).value, Collapse(rhs), 0, Lookahead(t, tr[k])));
    }
  }

  // ---------------------------------------------------------------------
  // The row of one state (parser.py:238-251)
  // ---------------------------------------------------------------------

  /** `("reduce", (head, body))` or `("shift", stnum)`. */
  datatype Entry = Reduce(head: Symbol, body: seq<Symbol>) | Shift(target: nat)

  /** `self.table[st]`: a defaultdict(list) from symbols to entry lists. */
  type Row = map<Symbol, seq<Entry>>

  /** `self.table[st][a]`: the entries of a cell, empty when the key is absent. */
  function Cell(row: Row, a: Symbol): seq<Entry> {
    if a in row then row[a] else []
  }

  /** The dot is at (or past) the end of the body: a reduce item. */
  predicate Complete(it: Item) {
    it.pos >= |it.body|
  }

  /** The item with the dot moved over one more symbol, lookahead kept. */
  function Advance(it: Item): Item {
    Item(it.head, it.body, it.pos + 1, it.laset)
  }

  /** The reduce entries the complete items of `items` put in column a, in item order. */
  function Reduces(items: seq<Item>, a: Symbol): seq<Entry> {
    if items == [] then []
    else
      var it := items[|items| - 1];
      Reduces(items[..|items| - 1], a) + (if Complete(it) && a in it.laset then [Reduce(it.head, it.body)] else [])
  }

  /** The symbols right after a dot inside a body, each once, in order of first occurrence. */
  function NextSymbols(items: seq<Item>): seq<Symbol> {
    if items == [] then []
    else
      var e := NextSymbols(items[..|items| - 1]);
      var it := items[|items| - 1];
      if it.pos < |it.body| && it.body[it.pos] !in e then e + [it.body[it.pos]] else e
  }

  /** The items with x right after the dot, each advanced over x, in order. */
  function Advanced(items: seq<Item>, x: Symbol): seq<Item> {
    if items == [] then []
    else
      var e := Advanced(items[..|items| - 1], x);
      var it := items[|items| - 1];
      if it.pos < |it.body| && it.body[it.pos] == x then e + [Advance(it)] else e
  }

  /** What the scan of one state has built after looking at the items `seen`. */
  ghost predicate Scanned(seen: seq<Item>, row: Row, keys: seq<Symbol>, gotos: map<Symbol, seq<Item>>) {
    && (forall a :: Cell(row, a) == Reduces(seen, a))
    && keys == NextSymbols(seen) && gotos.Keys == SetOf(keys)
    && (forall x :: x in gotos ==> gotos[x] == Advanced(seen, x))
  }

  /**
   * The scan of one state in __init__ (parser.py:241-251): every complete
   * item puts a reduce entry in the column of each of its lookaheads, every
   * other item goes to the kernel of the symbol after its dot; `keys` keeps
   * the insertion order of the `gotos` dict.
   */
  method ScanState(items: seq<Item>) returns (row: Row, keys: seq<Symbol>, gotos: map<Symbol, seq<Item>>)
    ensures forall a :: Cell(row, a) == Reduces(items, a)
    ensures keys == NextSymbols(items) && gotos.Keys == SetOf(keys)
    ensures forall x :: x in gotos ==> gotos[x] == Advanced(items, x)
  {
    row, keys, gotos := map[], [], map[];
    for i := 0 to |items|
      invariant Scanned(items[..i], row, keys, gotos)
    {
      assert items[..i + 1] == items[..i] + [items[i]];
      row, keys, gotos := ScanItem(items[..i], items[i], row, keys, gotos);
    }
    assert items[..|items|] == items;
  }

  /** One iteration of the scan (parser.py:242-251). */
  method ScanItem(ghost seen: seq<Item>, item: Item, row: Row, keys: seq<Symbol>, gotos: map<Symbol, seq<Item>>)
    returns (row': Row, keys': seq<Symbol>, gotos': map<Symbol, seq<Item>>)
    requires Scanned(seen, row, keys, gotos)
    ensures Scanned(seen + [item], row', keys', gotos')
  {
    ReducesSnoc(seen, item);
    NextSymbolsSnoc(seen, item);
    AdvancedSnoc(seen, item);
    row', keys', gotos' := row, keys, gotos;
    var head, body, pos, laset := item.head, item.body, item.pos, item.laset;
    if pos >= |body| {
      row' := AddReduces(row, laset, Reduce(head, body));
    } else {
      var nxt := body[pos];
      var temp := Item(head, body, pos + 1, laset);
      assert temp == Advance(item);
      if nxt in gotos {
        gotos' := gotos[nxt := gotos[nxt] + [temp]];
      } else {
        AdvancedOnlyNext(seen, nxt);
        gotos' := gotos[nxt := [temp]];
        SetOfSnoc(keys, nxt);
        keys' := keys + [nxt];
      }
    }
  }

  lemma ReducesSnoc(seen: seq<Item>, item: Item)
    ensures forall a ::
              Reduces(seen + [item], a) ==
              Reduces(seen, a) + (if Complete(item) && a in item.laset then [Reduce(item.head, item.body)] else [])
  {
    assert (seen + [item])[..|seen|] == seen;
  }

  lemma NextSymbolsSnoc(seen: seq<Item>, item: Item)
    ensures NextSymbols(seen + [item]) ==
      if item.pos < |item.body| && item.body[item.pos] !in NextSymbols(seen)
      then NextSymbols(seen) + [item.body[item.pos]] else NextSymbols(seen)
  {
    assert (seen + [item])[..|seen|] == seen;
  }

  lemma AdvancedSnoc(seen: seq<Item>, item: Item)
    ensures forall x ::
              Advanced(seen + [item], x) ==
              Advanced(seen, x) + (if item.pos < |item.body| && item.body[item.pos] == x then [Advance(item)] else [])
  {
    assert (seen + [item])[..|seen|] == seen;
  }

  /** `for a in laset: self.table[st][a].append(e)`; the order of the set does not matter. */
  method AddReduces(row: Row, laset: set<Symbol>, e: Entry) returns (row': Row)
    ensures forall a :: Cell(row', a) == Cell(row, a) + (if a in laset then [e] else [])
  {
    row' := row;
    var todo := laset;
    while todo != {}
      invariant todo <= laset
      invariant forall a :: Cell(row', a) == Cell(row, a) + (if a in laset - todo then [e] else [])
      decreases todo
    {
      var a :| a in todo;
      row' := row'[a := Cell(row', a) + [e]];
      todo := todo - {a};
    }
  }

  /** Only a symbol after some dot has a non-empty kernel. */
  lemma {:induction false} AdvancedOnlyNext(items: seq<Item>, x: Symbol)
    requires x !in NextSymbols(items)
    ensures Advanced(items, x) == []
  {
    if items != [] {
      AdvancedOnlyNext(items[..|items| - 1], x);
    }
  }

  lemma {:induction false} NextSymbolsDupFree(items: seq<Item>)
    ensures DupFree(NextSymbols(items))
  {
    if items != [] {
      NextSymbolsDupFree(items[..|items| - 1]);
    }
  }

  // ---------------------------------------------------------------------
  // Finitely many states: the termination argument of __init__
  // ---------------------------------------------------------------------

  /** The symbols a lookahead set can hold: the terminals other than ε, and the end-marker. */
  function Terms(g: Grammar): set<Symbol> {
    (g.terminals - {EPSILON}) + {EOF}
  }

  /** FIRST sets hold terminals only, as `analyze` leaves them. */
  ghost predicate FirstBounded(g: Grammar, t: Tables) {
    forall x :: x in t.first ==> t.first[x] <= g.terminals
  }

  /** Python's `not ([] in bodies and [ε] in bodies)`: the two spellings of an empty body are not both used. */
  ghost predicate SingleEmpty(g: Grammar)
    requires WellFormed(g)
  {
    forall x :: x in g.nonTerminals ==> !([] in g.productions[x] && [EPSILON] in g.productions[x])
  }

  /** Lookaheads computed from a bounded item are bounded. */
  lemma LookaheadBounded(g: Grammar, t: Tables, it: Item)
    requires FirstBounded(g, t) && it.pos < |it.body| && it.laset <= Terms(g)
    ensures Lookahead(t, it) <= Terms(g)
  {
    FirstOfSeqBound(t.first, t.nullable, Rest(it), g.terminals);
  }

  /**
   * An item the builder can create: the start item with lookahead {EOF}, or
   * (x, rhs, p) with [ε] collapsed, for a body rhs of a nonterminal x, with
   * a lookahead set of terminals and the end-marker.
   */
  ghost predicate Possible(g: Grammar, it: Item)
    requires WellFormed(g)
  {
    || (it.head == START && it.body == [g.startSymbol] && it.pos <= 1 && it.laset == {EOF})
    || (&& it.head in g.nonTerminals && it.pos <= |it.body| && it.laset <= Terms(g)
        && exists rhs :: rhs in g.productions[it.head] && it.body == Collapse(rhs))
  }

  /** All possible items, as a finite set. */
  ghost function Universe(g: Grammar): set<Item>
    requires WellFormed(g)
  {
    (set p: nat | p <= 1 :: Item(START, [g.startSymbol], p, {EOF}))
    + (set x, rhs, p: nat, la | x in g.nonTerminals && rhs in g.productions[x] && p <= |Collapse(rhs)|
                                && la in Subsets(Terms(g)) :: Item(x, Collapse(rhs), p, la))
  }

  lemma UniverseHolds(g: Grammar, items: seq<Item>)
    requires WellFormed(g) && forall i :: 0 <= i < |items| ==> Possible(g, items[i])
    ensures Over(items, Universe(g))
  {
    forall i | 0 <= i < |items| ensures items[i] in Universe(g) {
      var it := items[i];
      if it.head == START && it.body == [g.startSymbol] && it.laset == {EOF} && it.pos <= 1 {
        assert it == Item(START, [g.startSymbol], it.pos, {EOF});
      } else {
        var rhs :| rhs in g.productions[it.head] && it.body == Collapse(rhs);
        SubsetsComplete(Terms(g), it.laset);
        assert it == Item(it.head, Collapse(rhs), it.pos, it.laset);
      }
    }
  }

  /** An item list the builder can create: no repetition, possible items only. */
  ghost predicate Good(g: Grammar, items: seq<Item>)
    requires WellFormed(g)
  {
    DupFree(items) && forall i :: 0 <= i < |items| ==> Possible(g, items[i])
  }

  lemma {:induction false} AdvancedFrom(items: seq<Item>, x: Symbol)
    ensures forall it :: it in Advanced(items, x) ==>
              exists j :: 0 <= j < |items| && items[j].pos < |items[j].body| && items[j].body[items[j].pos] == x
                          && it == Advance(items[j])
  {
    if items != [] {
      var init := items[..|items| - 1];
      AdvancedFrom(init, x);
      forall it | it in Advanced(items, x)
        ensures exists j :: 0 <= j < |items| && items[j].pos < |items[j].body| && items[j].body[items[j].pos] == x
                            && it == Advance(items[j])
      {
        if it in Advanced(init, x) {
          var j :| 0 <= j < |init| && init[j].pos < |init[j].body| && init[j].body[init[j].pos] == x
                   && it == Advance(init[j]);
          assert items[j] == init[j];
        } else {
          assert it == Advance(items[|items| - 1]);
        }
      }
    }
  }

  /** The kernel for x of a good state is good, and its dots are past the first symbol. */
  lemma {:induction false} AdvancedGood(g: Grammar, items: seq<Item>, x: Symbol)
    requires WellFormed(g) && Good(g, items)
    ensures Good(g, Advanced(items, x))
    ensures forall it :: it in Advanced(items, x) ==> it.pos > 0
  {
    if items != [] {
      var init := items[..|items| - 1];
      var last := items[|items| - 1];
      assert Good(g, init) by {
        forall i | 0 <= i < |init| ensures Possible(g, init[i]) {
          assert init[i] == items[i];
        }
      }
      AdvancedGood(g, init, x);
      var a := Advanced(init, x);
      if last.pos < |last.body| && last.body[last.pos] == x {
        AdvancedFrom(init, x);
        assert Advance(last) !in a by {
          forall j | 0 <= j < |init| ensures Advance(last) != Advance(init[j]) {
            assert init[j] == items[j];
          }
        }
        assert Advanced(items, x) == a + [Advance(last)];
        assert Possible(g, last);
        if last.head != START || last.body != [g.startSymbol] || last.laset != {EOF} {
          var rhs :| rhs in g.productions[last.head] && last.body == Collapse(rhs);
          assert Advance(last).body == Collapse(rhs);
        }
        assert Possible(g, Advance(last));
      }
    }
  }

  /** Possible items have their FIRST lookups in the tables. */
  lemma GoodKnown(g: Grammar, t: Tables, items: seq<Item>)
    requires WellFormed(g) && Covers(g, t) && Good(g, items)
    ensures AllKnown(t, items)
  {
    forall i | 0 <= i < |items| ensures Known(t, items[i]) {
      var it := items[i];
      assert Possible(g, it);
      if it.head != START || it.body != [g.startSymbol] || it.laset != {EOF} || it.pos > 1 {
        var rhs :| rhs in g.productions[it.head] && it.body == Collapse(rhs);
        forall k | it.pos < k < |it.body| ensures it.body[k] in t.first {
          assert it.body[k] in rhs;
          assert Declared(g, it.body[k]);
        }
      }
    }
  }

  lemma {:induction false} ExpandBodiesDupFree(x: Symbol, rhss: seq<seq<Symbol>>, la: set<Symbol>)
    requires DupFree(rhss) && !([] in rhss && [EPSILON] in rhss)
    ensures DupFree(ExpandBodies(x, rhss, la))
  {
    if rhss != [] {
      var init := rhss[..|rhss| - 1];
      var last := rhss[|rhss| - 1];
      assert rhss == init + [last];
      assert DupFree(init) by {
        forall i, j | 0 <= i < j < |init| ensures init[i] != init[j] {
          assert init[i] == rhss[i] && init[j] == rhss[j];
        }
      }
      ExpandBodiesDupFree(x, init, la);
      ExpandBodiesItems(x, init, la);
      var it := Item(x, Collapse(last), 0, la);
      assert it !in ExpandBodies(x, init, la) by {
        forall rhs | rhs in init ensures Collapse(rhs) != Collapse(last) {
          var i :| 0 <= i < |init| && init[i] == rhs;
          assert rhss[i] == rhs && rhss[|rhss| - 1] == last;
        }
      }
      DupFreeConcat(ExpandBodies(x, init, la), [it]);
    }
  }

  /** The expansions of triggers with distinct nonterminals repeat no item. */
  lemma {:induction false} ExpandAllDupFree(g: Grammar, t: Tables, tr: seq<Item>)
    requires WellFormed(g) && DistinctBodies(g) && SingleEmpty(g)
    requires forall k, l :: 0 <= k < l < |tr| ==> Trigger(g, tr[k]) != Trigger(g, tr[l])
    ensures DupFree(ExpandAll(g, t, tr))
  {
    if tr != [] {
      var init := tr[..|tr| - 1];
      var last := tr[|tr| - 1];
      assert forall k, l :: 0 <= k < l < |init| ==> Trigger(g, init[k]) != Trigger(g, init[l]) by {
        forall k, l | 0 <= k < l < |init| ensures Trigger(g, init[k]) != Trigger(g, init[l]) {
          assert init[k] == tr[k] && init[l] == tr[l];
        }
      }
      ExpandAllDupFree(g, t, init);
      var e := ExpandFor(g, t, last);
      if Trigger(g, last).Some? && Trigger(g, last).value in g.productions {
        var x := Trigger(g, last).value;
        assert DupFree(g.productions[x]);
        ExpandBodiesDupFree(x, g.productions[x], Lookahead(t, last));
      }
      ExpandAllItems(g, t, init);
      ExpandForItems(g, t, last);
      forall i, j | 0 <= i < |ExpandAll(g, t, init)| && 0 <= j < |e| ensures ExpandAll(g, t, init)[i] != e[j] {
        var it := ExpandAll(g, t, init)[i];
        assert it in ExpandAll(g, t, init);
        var k :| 0 <= k < |init| && it in ExpandFor(g, t, init[k]);
        ExpandForItems(g, t, init[k]);
        assert e[j] in e;
        assert init[k] == tr[k];
      }
      DupFreeConcat(ExpandAll(g, t, init), e);
    }
  }

  /** Every item of c has a bounded lookahead set. */
  ghost predicate LaBounded(g: Grammar, c: seq<Item>) {
    forall j :: 0 <= j < |c| ==> c[j].laset <= Terms(g)
  }

  lemma {:induction false} CloseLaBounded(g: Grammar, t: Tables, c: seq<Item>, i: nat, visited: set<Symbol>)
    requires i <= |c| && FirstBounded(g, t) && LaBounded(g, c)
    ensures LaBounded(g, Close(g, t, c, i, visited))
    decreases g.nonTerminals - visited, |c| - i
  {
    if i < |c| {
      var tr := Trigger(g, c[i]);
      if tr.Some? && tr.value !in visited {
        var e := ExpandFor(g, t, c[i]);
        LookaheadBounded(g, t, c[i]);
        ExpandForItems(g, t, c[i]);
        assert LaBounded(g, c + e) by {
          forall j | 0 <= j < |c + e| ensures (c + e)[j].laset <= Terms(g) {
            if j >= |c| {
              assert (c + e)[j] == e[j - |c|];
              assert e[j - |c|] in e;
            }
          }
        }
        CloseLaBounded(g, t, c + e, i + 1, visited + {tr.value});
      } else {
        CloseLaBounded(g, t, c, i + 1, visited);
      }
    }
  }

  /** The closure of a good kernel whose items are not fresh expansions is good. */
  lemma ClosureGood(g: Grammar, t: Tables, kernel: seq<Item>)
    requires WellFormed(g) && DistinctBodies(g) && SingleEmpty(g) && FirstBounded(g, t) && Good(g, kernel)
    requires forall it :: it in kernel ==> it.pos > 0 || it.head !in g.nonTerminals
    ensures Good(g, Closure(g, t, kernel))
  {
    var c := Closure(g, t, kernel);
    ClosureShape(g, t, kernel);
    var tr := Triggers(g, c);
    TriggersDistinct(g, c);
    assert LaBounded(g, kernel) by {
      forall j | 0 <= j < |kernel| ensures kernel[j].laset <= Terms(g) {
        assert Possible(g, kernel[j]);
      }
    }
    CloseLaBounded(g, t, kernel, 0, {});
    var e := ExpandAll(g, t, tr);
    ExpandAllDupFree(g, t, tr);
    AddedSound(g, t, kernel, c, tr);
    forall i, j | 0 <= i < |kernel| && 0 <= j < |e| ensures kernel[i] != e[j] {
      assert e[j] == c[|kernel| + j];
      var k :| 0 <= k < |tr| && Brings(g, t, tr[k], c[|kernel| + j]);
      assert kernel[i] in kernel;
    }
    DupFreeConcat(kernel, e);
    forall i | 0 <= i < |c| ensures Possible(g, c[i]) {
      if i >= |kernel| {
        var k :| 0 <= k < |tr| && Brings(g, t, tr[k], c[i]);
      } else {
        assert c[i] == kernel[i];
      }
    }
  }

  // ---------------------------------------------------------------------
  // The canonical collection and its table (parser.py:216-271)
  // ---------------------------------------------------------------------

  /**
   * Column a of the row __init__ records for state st: the reduce entries of
   * the complete items with a in their lookahead, in item order, followed by
   * one shift to the closure of the kernel of a when a follows some dot.
   */
  ghost predicate CellOf(g: Grammar, t: Tables, states: seq<seq<Item>>, st: nat, row: Row, a: Symbol)
    requires st < |states|
  {
    var s := states[st];
    if a in NextSymbols(s) then
      exists id: nat :: id < |states| && states[id] == Closure(g, t, Advanced(s, a))
                        && Cell(row, a) == Reduces(s, a) + [Shift(id)]
    else Cell(row, a) == Reduces(s, a)
  }

  ghost predicate RowOf(g: Grammar, t: Tables, states: seq<seq<Item>>, st: nat, row: Row)
    requires st < |states|
  {
    forall a :: CellOf(g, t, states, st, row, a)
  }

  /** States 0 .. n-1, and no others, have their rows. */
  ghost predicate Tabled(g: Grammar, t: Tables, states: seq<seq<Item>>, table: map<nat, Row>, n: nat)
    requires n <= |states|
  {
    && (forall i :: i in table ==> i < n)
    && (forall i: nat :: i < n ==> i in table && RowOf(g, t, states, i, table[i]))
  }

  ghost predicate AllGood(g: Grammar, states: seq<seq<Item>>)
    requires WellFormed(g)
  {
    forall i :: 0 <= i < |states| ==> Good(g, states[i])
  }

  /** The fields of a finished LR1 object. */
  ghost predicate Automaton(g: Grammar, t: Tables, states: seq<seq<Item>>, st2id: map<seq<Item>, nat>,
                            table: map<nat, Row>)
    requires WellFormed(g)
  {
    && |states| > 0 && states[0] == Closure(g, t, [StartItem(g)])
    && Indexed(states, st2id)
    && Tabled(g, t, states, table, |states|)
    && AllGood(g, states)
  }

  /** A row stays correct when states are appended. */
  lemma RowOfExtends(g: Grammar, t: Tables, states: seq<seq<Item>>, states': seq<seq<Item>>, st: nat, row: Row)
    requires st < |states| <= |states'| && states'[..|states|] == states
    requires RowOf(g, t, states, st, row)
    ensures RowOf(g, t, states', st, row)
  {
    assert states'[st] == states[st];
    forall a ensures CellOf(g, t, states', st, row, a) {
      assert CellOf(g, t, states, st, row, a);
      if a in NextSymbols(states[st]) {
        var id: nat :| id < |states| && states[id] == Closure(g, t, Advanced(states[st], a))
                       && Cell(row, a) == Reduces(states[st], a) + [Shift(id)];
        assert states'[id] == states[id];
      }
    }
  }

  /** Giving state n its row, with more states appended. */
  lemma TabledExtend(g: Grammar, t: Tables, states: seq<seq<Item>>, states': seq<seq<Item>>,
                     table: map<nat, Row>, n: nat, row: Row)
    requires n < |states| <= |states'| && states'[..|states|] == states
    requires Tabled(g, t, states, table, n) && RowOf(g, t, states', n, row)
    ensures Tabled(g, t, states', table[n := row], n + 1)
  {
    var table' := table[n := row];
    forall i: nat | i < n + 1 ensures i in table' && RowOf(g, t, states', i, table'[i]) {
      if i < n {
        RowOfExtends(g, t, states, states', i, table[i]);
      }
    }
  }

  /** s is the closure of the kernel of one of keys. */
  ghost predicate FromKeys(g: Grammar, t: Tables, keys: seq<Symbol>, gotos: map<Symbol, seq<Item>>, s: seq<Item>) {
    exists x :: x in keys && x in gotos && s == Closure(g, t, gotos[x])
  }

  /** The row gained one shift, to transition[a], in the column of each key a of transition. */
  ghost predicate ShiftsAdded(row: Row, row': Row, transition: map<Symbol, nat>) {
    forall a :: Cell(row', a) == Cell(row, a) + (if a in transition then [Shift(transition[a])] else [])
  }

  /**
   * The loop over `gotos.items()` (parser.py:253-262): the closure of each
   * kernel is looked up by its ordered item list, added as a new state when
   * absent, and a shift to it is appended to the column of its symbol.
   * Every kernel is non-empty, so the `go != []` test always passes.
   */
  method AddTargets(g: Grammar, t: Tables, states: seq<seq<Item>>, st2id: map<seq<Item>, nat>, newstates: seq<nat>,
                    keys: seq<Symbol>, gotos: map<Symbol, seq<Item>>, row: Row)
    returns (states': seq<seq<Item>>, st2id': map<seq<Item>, nat>, newstates': seq<nat>, row': Row,
             ghost transition: map<Symbol, nat>)
    requires WellFormed(g) && Covers(g, t) && Indexed(states, st2id) && DupFree(keys)
    requires forall x :: x in keys ==> x in gotos && AllKnown(t, gotos[x])
    ensures Indexed(states', st2id')
    ensures |states| <= |states'| && states'[..|states|] == states
    ensures newstates' == newstates + Range(|states|, |states'|)
    ensures |states'| == |states| ==> st2id' == st2id
    ensures |states'| > |states| ==> st2id.Keys < st2id'.Keys
    ensures transition.Keys == SetOf(keys)
    ensures forall x :: x in transition ==>
              transition[x] < |states'| && states'[transition[x]] == Closure(g, t, gotos[x])
    ensures ShiftsAdded(row, row', transition)
    ensures forall j :: |states| <= j < |states'| ==> FromKeys(g, t, keys, gotos, states'[j])
  {
    states', st2id', newstates', row', transition := states, st2id, newstates, row, map[];
    for k := 0 to |keys|
      invariant Indexed(states', st2id')
      invariant TargetsSoFar(g, t, states, newstates, keys, gotos, states', newstates', transition)
      invariant transition.Keys == SetOf(keys[..k])
      invariant ShiftsAdded(row, row', transition)
    {
      var nxt := keys[k];
      NextKey(keys, k, transition.Keys);
      var closure := ClosureOf(g, t, gotos[nxt]);
      ghost var before, beforeNew := states', newstates';
      var id;
      states', st2id', newstates', id := AddTarget(states', st2id', newstates', closure);
      TargetsStep(g, t, states, newstates, keys, gotos, before, beforeNew, transition, states', newstates', id, nxt);
      ShiftStep(row, row', transition, nxt, id);
      row' := row'[nxt := Cell(row', nxt) + [Shift(id)]];
      transition := transition[nxt := id];
    }
    assert keys[..|keys|] == keys;
    IndexedGrow(states, st2id, states', st2id');
  }

  /** The k-th key of a duplicate-free list is not among the earlier ones. */
  lemma NextKey(keys: seq<Symbol>, k: nat, done: set<Symbol>)
    requires DupFree(keys) && k < |keys| && done == SetOf(keys[..k])
    ensures keys[k] !in done && SetOf(keys[..k + 1]) == done + {keys[k]}
  {
    assert keys[..k + 1] == keys[..k] + [keys[k]];
    SetOfSnoc(keys[..k], keys[k]);
    forall i | 0 <= i < k ensures keys[..k][i] != keys[k] {
      assert keys[..k][i] == keys[i];
    }
  }

  lemma ShiftStep(row: Row, row': Row, transition: map<Symbol, nat>, nxt: Symbol, id: nat)
    requires ShiftsAdded(row, row', transition) && nxt !in transition
    ensures ShiftsAdded(row, row'[nxt := Cell(row', nxt) + [Shift(id)]], transition[nxt := id])
  {
  }

  /** What the loop over `gotos.items()` has built so far on top of `states` and `newstates`. */
  ghost predicate TargetsSoFar(g: Grammar, t: Tables, states: seq<seq<Item>>, newstates: seq<nat>, keys: seq<Symbol>,
                               gotos: map<Symbol, seq<Item>>, states': seq<seq<Item>>, newstates': seq<nat>,
                               transition: map<Symbol, nat>)
  {
    && |states| <= |states'| && states'[..|states|] == states
    && newstates' == newstates + Range(|states|, |states'|)
    && (forall x :: x in transition ==>
          x in gotos && transition[x] < |states'| && states'[transition[x]] == Closure(g, t, gotos[x]))
    && (forall j :: |states| <= j < |states'| ==> FromKeys(g, t, keys, gotos, states'[j]))
  }

  lemma TargetsStep(g: Grammar, t: Tables, states: seq<seq<Item>>, newstates: seq<nat>, keys: seq<Symbol>,
                    gotos: map<Symbol, seq<Item>>, before: seq<seq<Item>>, beforeNew: seq<nat>,
                    transition: map<Symbol, nat>, after: seq<seq<Item>>, afterNew: seq<nat>, id: nat, nxt: Symbol)
    requires TargetsSoFar(g, t, states, newstates, keys, gotos, before, beforeNew, transition)
    requires nxt in keys && nxt in gotos
    requires || (after == before && afterNew == beforeNew)
             || (after == before + [Closure(g, t, gotos[nxt])] && afterNew == beforeNew + [|before|])
    requires id < |after| && after[id] == Closure(g, t, gotos[nxt])
    ensures TargetsSoFar(g, t, states, newstates, keys, gotos, after, afterNew, transition[nxt := id])
  {
    if after != before {
      assert FromKeys(g, t, keys, gotos, after[|before|]);
      RangeSnoc(newstates, beforeNew, |states|, |before|);
      assert forall j :: 0 <= j < |before| ==> after[j] == before[j];
      assert after[..|states|] == before[..|states|];
    }
  }

  /** What the builder needs of the analysis tables. */
  ghost predicate Analyzed(g: Grammar, t: Tables) {
    Covers(g, t) && FirstBounded(g, t)
  }

  class LR1 {
    const grammar: Grammar
    /** The nullable and FIRST tables the grammar object carries from `analyze`. */
    const tables: Tables
    const states: seq<seq<Item>>
    const st2id: map<seq<Item>, nat>
    const table: map<nat, Row>

    ghost predicate Valid() {
      && WellFormed(grammar) && DistinctBodies(grammar) && SingleEmpty(grammar)
      && Analyzed(grammar, tables)
      && Automaton(grammar, tables, states, st2id, table)
    }

    /**
     * __init__: the breadth-first construction of the canonical LR(1)
     * collection and of its list-valued table, over the tables `analyze`
     * computes for the grammar.
     */
    constructor (g: Grammar)
      requires WellFormed(g) && DistinctBodies(g) && SingleEmpty(g)
      ensures grammar == g && Valid()
      ensures NullableClosed(g, tables.nullable) && FirstClosed(g, tables.nullable, tables.first)
      ensures forall s :: EPSILON in s && NullableClosed(g, s) ==> tables.nullable <= s
      ensures forall f :: FirstClosed(g, tables.nullable, f) ==> Below(tables.first, f)
    {
      var t := Analyze(g);
      var sts, ids, tbl := Build(g, t);
      grammar := g;
      tables := t;
      states := sts;
      st2id := ids;
      table := tbl;
    }

    /**
     * parse: the loop over `tokens` followed by EOF, one lookahead read
     * ahead.  The model bounds the number of rounds by `fuel`, as `while
     * True` need not end.
     */
    method Parse(tokens: seq<Symbol>, fuel: nat) returns (result: Outcome)
      ensures result == Run(table, Initial(tokens), fuel).outcome
    {
      var input := tokens + [EOF];
      var st: nat := 0;
      var ststack: seq<nat> := [0];
      var symstack: seq<Symbol> := [];
      var ahead: Option<Symbol> := Some(input[0]);
      var rest := input[1..];
      var left := fuel;
      ghost var start := Config(st, ststack, symstack, ahead, rest);
      assert start == Initial(tokens);
      while true
        invariant Run(table, Config(st, ststack, symstack, ahead, rest), left) == Run(table, start, fuel)
        decreases left
      {
        if left == 0 {
          return OutOfFuel;
        }
        ghost var c := Config(st, ststack, symstack, ahead, rest);
        var next := Round(st, ststack, symstack, ahead, rest);
        RunUnfold(table, c, left);
        match next {
          case Stop(outcome) =>
            return outcome;
          case Continue(c') =>
            RunContinue(table, c, c', left);
            st, ststack, symstack, ahead, rest := c'.st, c'.ststack, c'.symstack, c'.ahead, c'.rest;
            assert c' == Config(st, ststack, symstack, ahead, rest);
            left := left - 1;
        }
      }
    }

    /** The body of the parse loop: one look at the table in the current configuration. */
    method Round(st: nat, ststack: seq<nat>, symstack: seq<Symbol>, ahead: Option<Symbol>, rest: seq<Symbol>)
      returns (next: Next)
      ensures next == Step(table, Config(st, ststack, symstack, ahead, rest))
    {
      if st !in table {
        return Stop(Crash(KeyError));
      }
      var choices := if ahead.None? then [] else Cell(table[st], ahead.value);
      if choices == [] {
        return Stop(Reject);
      }
      var choice: Entry;
      if |choices| >= 2 {
        if |choices| == 2 && choices[0].Shift? != choices[1].Shift? {
          choice := if choices[0].Shift? then choices[0] else choices[1];
        } else {
          return Stop(Conflict);
        }
      } else {
        choice := choices[0];
      }
      assert Choose(choices) == Some(choice);
      match choice {
        case Reduce(head, body) =>
          next := ReduceBy(Config(st, ststack, symstack, ahead, rest), head, body);
        case Shift(target) =>
          if ahead == Some("") {
            return Stop(Reject);
          }
          var ahead', rest' := if rest == [] then None else Some(rest[0]), if rest == [] then [] else rest[1..];
          next := Continue(Config(target, ststack + [target], symstack + [ahead.value], ahead', rest'));
      }
    }

    /** The reduce branch of a round: pop the body, push the head, follow the goto. */
    method ReduceBy(c: Config, head: Symbol, body: seq<Symbol>) returns (next: Next)
      ensures next == Reduction(table, c, head, body)
    {
      if head == START {
        return Stop(Accept);
      }
      if |c.ststack| < |body| || |c.symstack| < |body| {
        return Stop(Crash(IndexError));
      }
      var ststack := c.ststack[..|c.ststack| - |body|];
      var symstack := c.symstack[..|c.symstack| - |body|];
      if ststack == [] {
        return Stop(Inconsistent);
      }
      symstack := symstack + [head];
      var top := ststack[|ststack| - 1];
      if top !in table {
        return Stop(Crash(KeyError));
      }
      var go := Cell(table[top], head);
      if |go| != 1 {
        return Stop(Inconsistent);
      }
      match go[0] {
        case Reduce(_, _) =>
          // `st` becomes the tuple (head, body), which the next round cannot hash.
          return Stop(Crash(TypeError));
        case Shift(target) =>
          next := Continue(Config(target, ststack + [target], symstack, c.ahead, c.rest));
      }
    }
  }

  /**
   * The loop invariant of __init__: the states so far, with rows for all but
   * the queued ones, which are the most recently added.
   */
  ghost predicate Building(g: Grammar, t: Tables, sts: seq<seq<Item>>, ids: map<seq<Item>, nat>,
                           tbl: map<nat, Row>, newstates: seq<nat>)
    requires WellFormed(g)
  {
    && 1 <= |sts| && sts[0] == Closure(g, t, [StartItem(g)])
    && Indexed(sts, ids)
    && |newstates| <= |sts| && newstates == Range(|sts| - |newstates|, |sts|)
    && Tabled(g, t, sts, tbl, |sts| - |newstates|)
    && AllGood(g, sts)
  }

  /**
   * The construction proper of __init__ (parser.py:226-262): the closure of
   * the start item is state 0, and the `while newstates` loop visits every
   * queued state until none is left.
   */
  method Build(g: Grammar, t: Tables) returns (sts: seq<seq<Item>>, ids: map<seq<Item>, nat>, tbl: map<nat, Row>)
    requires WellFormed(g) && DistinctBodies(g) && SingleEmpty(g) && Analyzed(g, t)
    ensures Automaton(g, t, sts, ids, tbl)
  {
    var closure := StartState(g, t);
    sts := [closure];
    ids := map[closure := 0];
    tbl := map[];
    var newstates: seq<nat> := [0];
    BuildingStart(g, t, closure);
    while newstates != []
      invariant Building(g, t, sts, ids, tbl, newstates)
      invariant ids.Keys <= Arrangements(Universe(g))
      decreases Arrangements(Universe(g)) - ids.Keys, |newstates|
    {
      sts, ids, tbl, newstates := Visit(g, t, sts, ids, tbl, newstates);
      KeysBounded(g, sts, ids);
    }
  }

  /** State 0: the closure of the start item (parser.py:228-231). */
  method StartState(g: Grammar, t: Tables) returns (closure: seq<Item>)
    requires WellFormed(g) && DistinctBodies(g) && SingleEmpty(g) && Analyzed(g, t)
    ensures closure == Closure(g, t, [StartItem(g)]) && Good(g, closure)
    ensures closure in Arrangements(Universe(g))
  {
    var start := StartItem(g);
    assert Good(g, [start]);
    GoodKnown(g, t, [start]);
    closure := ClosureOf(g, t, [start]);
    ClosureGood(g, t, [start]);
    UniverseHolds(g, closure);
    ArrangementsComplete(Universe(g), closure);
  }

  lemma BuildingStart(g: Grammar, t: Tables, closure: seq<Item>)
    requires WellFormed(g) && closure == Closure(g, t, [StartItem(g)]) && Good(g, closure)
    ensures Building(g, t, [closure], map[closure := 0], map[], [0])
  {
    assert Range(0, 1) == [0];
  }

  /**
   * One round of the `while newstates` loop (parser.py:236-262): the first
   * queued state gets its row, and its new targets are queued.  Either a
   * state is added or the queue gets shorter.
   */
  method Visit(g: Grammar, t: Tables, sts: seq<seq<Item>>, ids: map<seq<Item>, nat>,
               tbl: map<nat, Row>, newstates: seq<nat>)
    returns (sts': seq<seq<Item>>, ids': map<seq<Item>, nat>, tbl': map<nat, Row>, newstates': seq<nat>)
    requires WellFormed(g) && DistinctBodies(g) && SingleEmpty(g) && Analyzed(g, t)
    requires Building(g, t, sts, ids, tbl, newstates) && newstates != []
    ensures Building(g, t, sts', ids', tbl', newstates')
    ensures ids.Keys < ids'.Keys || (ids' == ids && |newstates'| < |newstates|)
  {
    var st := newstates[0];
    var row, keys, gotos := ScanState(sts[st]);
    NextSymbolsDupFree(sts[st]);
    forall x | x in keys ensures x in gotos && AllKnown(t, gotos[x]) {
      assert x in SetOf(keys);
      AdvancedGood(g, sts[st], x);
      GoodKnown(g, t, gotos[x]);
    }
    var row';
    ghost var transition;
    sts', ids', newstates', row', transition := AddTargets(g, t, sts, ids, newstates[1..], keys, gotos, row);
    GrowGood(g, t, sts, sts', st, keys, gotos);
    GrowRow(g, t, sts, sts', st, keys, gotos, row, row', transition);
    VisitStep(g, t, sts, sts', ids, ids', tbl, newstates, newstates', row');
    tbl' := tbl[st := row'];
  }

  /** The invariant of __init__ after the first queued state gets its row. */
  lemma VisitStep(g: Grammar, t: Tables, sts: seq<seq<Item>>, sts': seq<seq<Item>>, ids: map<seq<Item>, nat>,
                  ids': map<seq<Item>, nat>, tbl: map<nat, Row>, newstates: seq<nat>,
                  newstates': seq<nat>, row: Row)
    requires WellFormed(g) && Building(g, t, sts, ids, tbl, newstates) && newstates != []
    requires |sts| <= |sts'| && sts'[..|sts|] == sts && Indexed(sts', ids')
    requires newstates' == newstates[1..] + Range(|sts|, |sts'|)
    requires AllGood(g, sts')
    requires RowOf(g, t, sts', newstates[0], row)
    ensures Building(g, t, sts', ids', tbl[newstates[0] := row], newstates')
  {
    var st := newstates[0];
    assert st == |sts| - |newstates|;
    assert sts'[0] == sts[0];
    RangeRequeue(newstates, |sts|, |sts'|);
    TabledExtend(g, t, sts, sts', tbl, st, row);
  }

  /** The states, being good, are among the finitely many arrangements of possible items. */
  lemma KeysBounded(g: Grammar, sts: seq<seq<Item>>, ids: map<seq<Item>, nat>)
    requires WellFormed(g) && Indexed(sts, ids) && AllGood(g, sts)
    ensures ids.Keys <= Arrangements(Universe(g))
  {
    forall k | k in ids ensures k in Arrangements(Universe(g)) {
      assert Good(g, sts[ids[k]]);
      UniverseHolds(g, k);
      ArrangementsComplete(Universe(g), k);
    }
  }

  /** The states added for the targets of a good state are good. */
  lemma GrowGood(g: Grammar, t: Tables, sts: seq<seq<Item>>, sts': seq<seq<Item>>, st: nat, keys: seq<Symbol>,
                 gotos: map<Symbol, seq<Item>>)
    requires WellFormed(g) && DistinctBodies(g) && SingleEmpty(g) && FirstBounded(g, t)
    requires st < |sts| <= |sts'| && sts'[..|sts|] == sts
    requires AllGood(g, sts)
    requires forall x :: x in gotos ==> gotos[x] == Advanced(sts[st], x)
    requires forall j :: |sts| <= j < |sts'| ==> FromKeys(g, t, keys, gotos, sts'[j])
    ensures AllGood(g, sts')
  {
    forall i | 0 <= i < |sts'| ensures Good(g, sts'[i]) {
      if i < |sts| {
        assert sts'[i] == sts[i];
      } else {
        assert FromKeys(g, t, keys, gotos, sts'[i]);
        var x :| x in keys && x in gotos && sts'[i] == Closure(g, t, gotos[x]);
        AdvancedGood(g, sts[st], x);
        ClosureGood(g, t, gotos[x]);
      }
    }
  }

  /** After the targets of state st are added, its row is right. */
  lemma GrowRow(g: Grammar, t: Tables, sts: seq<seq<Item>>, sts': seq<seq<Item>>, st: nat, keys: seq<Symbol>,
                gotos: map<Symbol, seq<Item>>, row: Row, row': Row, transition: map<Symbol, nat>)
    requires st < |sts| <= |sts'| && sts'[..|sts|] == sts
    requires forall a :: Cell(row, a) == Reduces(sts[st], a)
    requires keys == NextSymbols(sts[st]) && gotos.Keys == SetOf(keys)
    requires forall x :: x in gotos ==> gotos[x] == Advanced(sts[st], x)
    requires transition.Keys == SetOf(keys)
    requires forall x :: x in transition ==>
               transition[x] < |sts'| && sts'[transition[x]] == Closure(g, t, gotos[x])
    requires ShiftsAdded(row, row', transition)
    ensures RowOf(g, t, sts', st, row')
  {
    assert sts'[st] == sts[st];
    forall a ensures CellOf(g, t, sts', st, row', a) {
      assert Cell(row', a) == Cell(row, a) + (if a in transition then [Shift(transition[a])] else []);
      if a in NextSymbols(sts[st]) {
        assert a in SetOf(keys);
        var id := transition[a];
        assert sts'[id] == Closure(g, t, Advanced(sts'[st], a));
      } else {
        assert a !in SetOf(keys);
      }
    }
  }

  // ---------------------------------------------------------------------
  // parse (parser.py:308-371)
  // ---------------------------------------------------------------------

  /**
   * The variables of `parse` at the top of `while True`: `ahead` is the
   * lookahead read last (None once the iterator is exhausted) and `rest` what
   * the iterator has left.
   */
  datatype Config = Config(st: nat, ststack: seq<nat>, symstack: seq<Symbol>, ahead: Option<Symbol>, rest: seq<Symbol>)

  /** One round of `while True` either goes on in a new configuration or leaves `parse`. */
  datatype Next = Continue(next: Config) | Stop(outcome: Outcome)

  /** How a run ends, with the configuration of its last round. */
  datatype Halt = Halt(outcome: Outcome, last: Config)

  /** The configuration before the first round: EOF appended and read as the first lookahead. */
  function Initial(tokens: seq<Symbol>): Config {
    var input := tokens + [EOF];
    Config(0, [0], [], Some(input[0]), input[1..])
  }

  /** The two stacks move together: one more state than symbols, and the top state is `st`. */
  predicate Stacks(c: Config) {
    |c.ststack| == |c.symstack| + 1 && c.ststack[|c.ststack| - 1] == c.st
  }

  /**
   * The policy of parser.py:322-334 for a non-empty cell: a single entry is
   * taken; two entries of different kinds are resolved as the shift; any
   * other cell is left unresolved.
   */
  function Choose(choices: seq<Entry>): (r: Option<Entry>)
    requires choices != []
    ensures r.Some? ==> r.value in choices
    ensures |choices| == 1 ==> r == Some(choices[0])
    ensures |choices| >= 2 ==>
              && (r.Some? <==> |choices| == 2 && (exists e :: e in choices && e.Shift?) && (exists e :: e in choices && e.Reduce?))
              && (r.Some? ==> r.value.Shift?)
  {
    if |choices| == 1 then Some(choices[0])
    else if |choices| == 2 && choices[0].Shift? != choices[1].Shift? then
      Some(if choices[0].Shift? then choices[0] else choices[1])
    else None
  }

  /** The iterator yields its next element, or None once it is exhausted. */
  function Read(rest: seq<Symbol>): (Option<Symbol>, seq<Symbol>) {
    if rest == [] then (None, []) else (Some(rest[0]), rest[1..])
  }

  /**
   * A reduction by head -> body that is not the accepting one: pop |body|
   * states and symbols, push head, and take the goto of the uncovered state.
   */
  function Reduction(table: map<nat, Row>, c: Config, head: Symbol, body: seq<Symbol>): Next {
    if head == START then Stop(Accept)
    else if |c.ststack| < |body| || |c.symstack| < |body| then Stop(Crash(IndexError))
    else
      var ststack := c.ststack[..|c.ststack| - |body|];
      if ststack == [] then Stop(Inconsistent)
      else
        var symstack := c.symstack[..|c.symstack| - |body|] + [head];
        var top := ststack[|ststack| - 1];
        if top !in table then Stop(Crash(KeyError))
        else
          var go := Cell(table[top], head);
          if |go| != 1 then Stop(Inconsistent)
          else
            match go[0]
            case Reduce(_, _) => Stop(Crash(TypeError))
            case Shift(target) => Continue(Config(target, ststack + [target], symstack, c.ahead, c.rest))
  }

  /**
   * One round of the loop.  The lookahead moves only on a shift, which
   * pushes it; a reduction keeps it; stacks that move together stay so.
   */
  function Step(table: map<nat, Row>, c: Config): (r: Next)
    ensures Stacks(c) && r.Continue? ==> Stacks(r.next)
    ensures r.Continue? ==>
              || (r.next.ahead == c.ahead && r.next.rest == c.rest)
              || (c.ahead.Some? && r.next.symstack == c.symstack + [c.ahead.value]
                  && (r.next.ahead, r.next.rest) == Read(c.rest))
    ensures r == Stop(Accept) ==>
              c.st in table && c.ahead.Some? && exists e :: e in Cell(table[c.st], c.ahead.value) && e.Reduce? && e.head == START
  {
    if c.st !in table then Stop(Crash(KeyError))
    else
      var choices := if c.ahead.None? then [] else Cell(table[c.st], c.ahead.value);
      if choices == [] then Stop(Reject)
      else match Choose(choices)
        case None => Stop(Conflict)
        case Some(Reduce(head, body)) => Reduction(table, c, head, body)
        case Some(Shift(target)) =>
          if c.ahead == Some("") then Stop(Reject)
          else
            var (ahead, rest) := Read(c.rest);
            Continue(Config(target, c.ststack + [target], c.symstack + [c.ahead.value], ahead, rest))
  }

  lemma RunUnfold(table: map<nat, Row>, c: Config, fuel: nat)
    requires fuel > 0
    ensures Step(table, c).Stop? ==> Run(table, c, fuel).outcome == Step(table, c).outcome
  {
  }

  lemma RunContinue(table: map<nat, Row>, c: Config, c': Config, fuel: nat)
    requires fuel > 0 && Step(table, c) == Continue(c')
    ensures Run(table, c, fuel) == Run(table, c', fuel - 1)
  {
  }

  /** At most `fuel` rounds of the loop from c. */
  function Run(table: map<nat, Row>, c: Config, fuel: nat): Halt
    decreases fuel
  {
    if fuel == 0 then Halt(OutOfFuel, c)
    else match Step(table, c)
      case Stop(o) => Halt(o, c)
      case Continue(c') => Run(table, c', fuel - 1)
  }

  /** A run that stops does so at a round whose step leaves the loop; stacks that move together stay so. */
  lemma {:induction false} RunLast(table: map<nat, Row>, c: Config, fuel: nat)
    ensures Stacks(c) ==> Stacks(Run(table, c, fuel).last)
    ensures Run(table, c, fuel).outcome != OutOfFuel ==> Step(table, Run(table, c, fuel).last) == Stop(Run(table, c, fuel).outcome)
    decreases fuel
  {
    if fuel > 0 && Step(table, c).Continue? {
      RunLast(table, Step(table, c).next, fuel - 1);
    }
  }
}

