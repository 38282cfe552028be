/**
 * The LR(0) automaton and parser of parser.py: LR0Item, LR0.closureOf, the
 * canonical collection and single-action table built by LR0.__init__, and
 * the stack machine LR0.parse.
 */
module Lr0 {
  import opened Grammars
  import opened Finite
  import opened Registry
  import opened Outcomes

  /** LR0Item (parser.py:14-21): the production head → body with the dot before body[pos]. */
  datatype Item = Item(head: Symbol, body: seq<Symbol>, pos: nat)

  /** The augmented start item S0 → . startSymbol $ (parser.py:31). */
  function StartItem(g: Grammar): Item {
    Item(START, [g.startSymbol, EOF], 0)
  }

  // ---------------------------------------------------------------------
  // closureOf (parser.py:88-115)
  // ---------------------------------------------------------------------

  /**
   * The nonterminal an item makes closureOf expand: the symbol right after a
   * dot that lies inside the body, when it is a non-empty nonterminal name.
   */
  function Trigger(g: Grammar, it: Item): Option<Symbol> {
    if it.pos < |it.body| && it.body[it.pos] != "" && it.body[it.pos] in g.nonTerminals
    then Some(it.body[it.pos])
    else None
  }

  /** The items appended for the bodies `rhss` of x: (x, rhs, 0) for each body other than [ε]. */
  function ExpandBodies(x: Symbol, rhss: seq<seq<Symbol>>): seq<Item> {
    if rhss == [] then []
    else ExpandBodies(x, rhss[..|rhss| - 1])
         + (if rhss[|rhss| - 1] == [EPSILON] then [] else [Item(x, rhss[|rhss| - 1], 0)])
  }

  function Expand(g: Grammar, x: Symbol): seq<Item> {
    if x in g.productions then ExpandBodies(x, g.productions[x]) else []
  }

  /** The expansions of the nonterminals of `order`, one after the other. */
  function ExpandAll(g: Grammar, order: seq<Symbol>): seq<Item> {
    if order == [] then []
    else ExpandAll(g, order[..|order| - 1]) + Expand(g, order[|order| - 1])
  }

  /** The nonterminals a left-to-right scan of `c` expands: each trigger, the first time it occurs. */
  function Expanded(g: Grammar, c: seq<Item>): seq<Symbol> {
    if c == [] then []
    else
      var e := Expanded(g, c[..|c| - 1]);
      match Trigger(g, c[|c| - 1])
      case Some(x) => if x in e then e else e + [x]
      case None => e
  }

  /**
   * The scan of closureOf from index i, `visited` holding the nonterminals
   * already expanded: every item is looked at once, in order, and a trigger
   * not yet visited appends its expansion at the end.
   */
  function Close(g: Grammar, c: seq<Item>, i: nat, visited: set<Symbol>): seq<Item>
    requires i <= |c|
    decreases g.nonTerminals - visited, |c| - i
  {
    if i == |c| then c
    else match Trigger(g, c[i])
      case Some(x) =>
        if x !in visited then Close(g, c + Expand(g, x), i + 1, visited + {x})
        else Close(g, c, i + 1, visited)
      case None => Close(g, c, i + 1, visited)
  }

  /** The closure of a list of items, as closureOf returns it. */
  function Closure(g: Grammar, items: seq<Item>): seq<Item> {
    Close(g, items, 0, {})
  }

  /** closureOf, with its `while update` passes over the unscanned tail and its `visited` set. */
  method ClosureOf(g: Grammar, items: seq<Item>) returns (closure: seq<Item>)
    requires WellFormed(g)
    ensures closure == Closure(g, items)
    ensures items <= closure
    ensures closure == items + ExpandAll(g, Expanded(g, closure))
  {
    closure := items;
    var update := true;
    var begin := 0;
    var visited: set<Symbol> := {};
    while update
      invariant begin <= |closure| && visited <= g.nonTerminals
      invariant Close(g, closure, begin, visited) == Closure(g, items)
      invariant !update ==> begin == |closure|
      decreases g.nonTerminals - visited, update
    {
      update := false;
      ghost var visited0 := visited;
      var n := |closure|;
      for i := begin to n
        invariant begin == i && n <= |closure|
        invariant visited0 <= visited <= g.nonTerminals
        invariant Close(g, closure, begin, visited) == Closure(g, items)
        invariant update ==> g.nonTerminals - visited < g.nonTerminals - visited0
        invariant !update ==> |closure| == n
      {
        var item := closure[i];
        begin := begin + 1;
        var sz := |item.body|;
        // A position outside the body is only logged (parser.py:100-101).
        if item.pos <= sz {
          var nxt := if item.pos == sz then None else Some(item.body[item.pos]);
          if nxt.Some? && nxt.value != "" && nxt.value in g.nonTerminals && nxt.value !in visited {
            var x := nxt.value;
            visited := visited + {x};
            var touched;
            closure, touched := AppendExpansion(g, closure, x);
            if touched {
              update := true;
            }
          }
        }
      }
    }
    ClosureShape(g, items);
  }

  /** One more item of a scan: Expanded grows by that item's trigger when it is new. */
  lemma ExpandedSnoc(g: Grammar, c: seq<Item>, i: nat)
    requires i < |c|
    ensures Expanded(g, c[..i + 1]) == match Trigger(g, c[i])
      case Some(x) => if x in Expanded(g, c[..i]) then Expanded(g, c[..i]) else Expanded(g, c[..i]) + [x]
      case None => Expanded(g, c[..i])
  {
    assert c[..i + 1][..i] == c[..i];
  }

  /** The inner loop of closureOf over the bodies of x; `touched` is whether it ran at all (parser.py:107-113). */
  method AppendExpansion(g: Grammar, closure: seq<Item>, x: Symbol) returns (closure': seq<Item>, touched: bool)
    requires WellFormed(g) && x in g.nonTerminals
    ensures closure' == closure + Expand(g, x)
    ensures touched <==> g.productions[x] != []
  {
    closure', touched := closure, false;
    var rhss := g.productions[x];
    for k := 0 to |rhss|
      invariant closure' == closure + ExpandBodies(x, rhss[..k])
      invariant touched <==> k > 0
    {
      touched := true;
      // A body [ε] is only logged (parser.py:109-110).
      if rhss[k] != [EPSILON] {
        closure' := closure' + [Item(x, rhss[k], 0)];
      }
      assert rhss[..k + 1][..k] == rhss[..k];
    }
    assert rhss[..|rhss|] == rhss;
  }

  lemma {:induction false} CloseShape(g: Grammar, items: seq<Item>, c: seq<Item>, i: nat, visited: set<Symbol>)
    requires i <= |c|
    requires c == items + ExpandAll(g, Expanded(g, c[..i]))
    requires visited == SetOf(Expanded(g, c[..i]))
    ensures Close(g, c, i, visited) == items + ExpandAll(g, Expanded(g, Close(g, c, i, visited)))
    decreases g.nonTerminals - visited, |c| - i, 1
  {
    if i == |c| {
      assert c[..i] == c;
    } else if Trigger(g, c[i]).Some? && Trigger(g, c[i]).value !in visited {
      CloseShapeExpand(g, items, c, i, visited, Trigger(g, c[i]).value);
    } else {
      CloseShapeSkip(g, items, c, i, visited);
    }
  }

  lemma {:induction false} CloseShapeExpand(g: Grammar, items: seq<Item>, c: seq<Item>, i: nat,
                                            visited: set<Symbol>, x: Symbol)
    requires i < |c| && Trigger(g, c[i]) == Some(x) && x !in visited
    requires c == items + ExpandAll(g, Expanded(g, c[..i]))
    requires visited == SetOf(Expanded(g, c[..i]))
    ensures Close(g, c, i, visited) == items + ExpandAll(g, Expanded(g, Close(g, c, i, visited)))
    decreases g.nonTerminals - visited, |c| - i, 0
  {
    ScanExpands(g, items, c, i, visited, x);
    assert Close(g, c, i, visited) == Close(g, c + Expand(g, x), i + 1, visited + {x});
    CloseShape(g, items, c + Expand(g, x), i + 1, visited + {x});
  }

  lemma {:induction false} CloseShapeSkip(g: Grammar, items: seq<Item>, c: seq<Item>, i: nat, visited: set<Symbol>)
    requires i < |c| && !(Trigger(g, c[i]).Some? && Trigger(g, c[i]).value !in visited)
    requires c == items + ExpandAll(g, Expanded(g, c[..i]))
    requires visited == SetOf(Expanded(g, c[..i]))
    ensures Close(g, c, i, visited) == items + ExpandAll(g, Expanded(g, Close(g, c, i, visited)))
    decreases g.nonTerminals - visited, |c| - i, 0
  {
    ScanSkips(g, items, c, i, visited);
    assert Close(g, c, i, visited) == Close(g, c, i + 1, visited);
    CloseShape(g, items, c, i + 1, visited);
  }

  /** Scanning an item whose trigger is new appends its expansion and records it. */
  lemma ScanExpands(g: Grammar, items: seq<Item>, c: seq<Item>, i: nat, visited: set<Symbol>, x: Symbol)
    requires i < |c| && Trigger(g, c[i]) == Some(x) && x !in visited
    requires c == items + ExpandAll(g, Expanded(g, c[..i]))
    requires visited == SetOf(Expanded(g, c[..i]))
    ensures c + Expand(g, x) == items + ExpandAll(g, Expanded(g, (c + Expand(g, x))[..i + 1]))
    ensures visited + {x} == SetOf(Expanded(g, (c + Expand(g, x))[..i + 1]))
  {
    var e := Expanded(g, c[..i]);
    var c' := c + Expand(g, x);
    assert c'[..i + 1] == c[..i + 1];
    ExpandedNew(g, c, i, x);
    ExpandAllSnoc(g, e, x);
    Regroup(items, ExpandAll(g, e), Expand(g, x), c, ExpandAll(g, Expanded(g, c'[..i + 1])));
    SetOfSnoc(e, x);
  }

  lemma Regroup(items: seq<Item>, a: seq<Item>, f: seq<Item>, c: seq<Item>, a': seq<Item>)
    requires c == items + a && a' == a + f
    ensures c + f == items + a'
  {
  }

  lemma ExpandedNew(g: Grammar, c: seq<Item>, i: nat, x: Symbol)
    requires i < |c| && Trigger(g, c[i]) == Some(x) && x !in Expanded(g, c[..i])
    ensures Expanded(g, c[..i + 1]) == Expanded(g, c[..i]) + [x]
  {
    assert c[..i + 1][..i] == c[..i];
  }

  lemma ExpandAllSnoc(g: Grammar, order: seq<Symbol>, x: Symbol)
    ensures ExpandAll(g, order + [x]) == ExpandAll(g, order) + Expand(g, x)
  {
    assert (order + [x])[..|order + [x]| - 1] == order;
  }

  /** Scanning an item without a new trigger changes nothing. */
  lemma ScanSkips(g: Grammar, items: seq<Item>, c: seq<Item>, i: nat, visited: set<Symbol>)
    requires i < |c|
    requires Trigger(g, c[i]).None? || Trigger(g, c[i]).value in visited
    requires c == items + ExpandAll(g, Expanded(g, c[..i]))
    requires visited == SetOf(Expanded(g, c[..i]))
    ensures c == items + ExpandAll(g, Expanded(g, c[..i + 1]))
    ensures visited == SetOf(Expanded(g, c[..i + 1]))
  {
    ExpandedSnoc(g, c, i);
  }

  /** The closure is its input followed by the expansions of the nonterminals a scan of it meets. */
  lemma ClosureShape(g: Grammar, items: seq<Item>)
    ensures Closure(g, items) == items + ExpandAll(g, Expanded(g, Closure(g, items)))
  {
    assert items[..0] == [];
    CloseShape(g, items, items, 0, {});
  }

  /** Each nonterminal is expanded at most once: the scan order has no repetition. */
  lemma {:induction false} ExpandedDupFree(g: Grammar, c: seq<Item>)
    ensures DupFree(Expanded(g, c))
  {
    if c != [] {
      ExpandedDupFree(g, c[..|c| - 1]);
    }
  }

  /** The nonterminals expanded are exactly the triggers of the scanned items. */
  lemma {:induction false} ExpandedTriggers(g: Grammar, c: seq<Item>)
    ensures forall x :: x in Expanded(g, c) <==> exists j :: 0 <= j < |c| && Trigger(g, c[j]) == Some(x)
  {
    if c != [] {
      var c0 := c[..|c| - 1];
      ExpandedTriggers(g, c0);
      forall x ensures x in Expanded(g, c) <==> exists j :: 0 <= j < |c| && Trigger(g, c[j]) == Some(x) {
        if exists j :: 0 <= j < |c| && Trigger(g, c[j]) == Some(x) {
          var j :| 0 <= j < |c| && Trigger(g, c[j]) == Some(x);
          if j < |c| - 1 {
            assert c0[j] == c[j];
          }
        }
        if x in Expanded(g, c0) {
          var j :| 0 <= j < |c0| && Trigger(g, c0[j]) == Some(x);
          assert c[j] == c0[j];
        }
      }
    }
  }

  /** The items of an expansion: (x, rhs, 0) for exactly the bodies rhs of x other than [ε]. */
  lemma {:induction false} ExpandBodiesItems(x: Symbol, rhss: seq<seq<Symbol>>)
    ensures forall it :: it in ExpandBodies(x, rhss) <==>
              it.head == x && it.pos == 0 && it.body in rhss && it.body != [EPSILON]
  {
    if rhss != [] {
      var init := rhss[..|rhss| - 1];
      ExpandBodiesItems(x, init);
      assert rhss == init + [rhss[|rhss| - 1]];
    }
  }

  lemma {:induction false} ExpandAllItems(g: Grammar, order: seq<Symbol>)
    ensures forall it :: it in ExpandAll(g, order) <==>
              && it.head in order && it.head in g.productions && it.pos == 0
              && it.body in g.productions[it.head] && it.body != [EPSILON]
  {
    if order != [] {
      var init := order[..|order| - 1];
      var x := order[|order| - 1];
      ExpandAllItems(g, init);
      assert order == init + [x];
      if x in g.productions {
        ExpandBodiesItems(x, g.productions[x]);
      }
    }
  }

  /**
   * What closureOf promises: the input is a prefix; every added item is
   * (x, rhs, 0) for a body rhs ≠ [ε] of a nonterminal x; the result is closed
   * (a trigger x of any item brings in every such item of x); and each
   * nonterminal is expanded once, in the order its first trigger occurs.
   */
  lemma ClosureProperties(g: Grammar, items: seq<Item>)
    requires WellFormed(g)
    ensures var c := Closure(g, items);
      && items <= c
      && (forall j :: |items| <= j < |c| ==>
            && c[j].pos == 0 && c[j].head in g.nonTerminals
            && c[j].body in g.productions[c[j].head] && c[j].body != [EPSILON])
      && (forall j, rhs ::
            (0 <= j < |c| && Trigger(g, c[j]).Some? &&
             rhs in g.productions[Trigger(g, c[j]).value] && rhs != [EPSILON]) ==>
            Item(Trigger(g, c[j]).value, rhs, 0) in c[|items|..])
      && DupFree(Expanded(g, c))
  {
    var c := Closure(g, items);
    ExpandedDupFree(g, c);
    AddedSound(g, items);
    AddedComplete(g, items);
  }

  lemma AddedSound(g: Grammar, items: seq<Item>)
    requires WellFormed(g)
    ensures var c := Closure(g, items);
      && items <= c
      && (forall j :: |items| <= j < |c| ==>
            && c[j].pos == 0 && c[j].head in g.nonTerminals
            && c[j].body in g.productions[c[j].head] && c[j].body != [EPSILON])
  {
    var c := Closure(g, items);
    ClosureShape(g, items);
    var order := Expanded(g, c);
    ExpandedTriggers(g, c);
    ExpandAllItems(g, order);
    assert c[|items|..] == ExpandAll(g, order);
    forall j | |items| <= j < |c|
      ensures c[j].pos == 0 && c[j].head in g.nonTerminals
      ensures c[j].body in g.productions[c[j].head] && c[j].body != [EPSILON]
    {
      assert c[j] == c[|items|..][j - |items|];
      assert c[j].head in order;
      var k :| 0 <= k < |c| && Trigger(g, c[k]) == Some(c[j].head);
    }
  }

  lemma AddedComplete(g: Grammar, items: seq<Item>)
    requires WellFormed(g)
    ensures var c := Closure(g, items);
      items <= c &&
      forall j, rhs ::
        (0 <= j < |c| && Trigger(g, c[j]).Some? &&
         rhs in g.productions[Trigger(g, c[j]).value] && rhs != [EPSILON]) ==>
        Item(Trigger(g, c[j]).value, rhs, 0) in c[|items|..]
  {
    var c := Closure(g, items);
    ClosureShape(g, items);
    var order := Expanded(g, c);
    ExpandedTriggers(g, c);
    ExpandAllItems(g, order);
    assert c[|items|..] == ExpandAll(g, order);
  }

  // ---------------------------------------------------------------------
  // The action of one state (parser.py:43-67)
  // ---------------------------------------------------------------------

  /** The dot is at (or past) the end of the body. */
  predicate Complete(it: Item) {
    it.pos >= |it.body|
  }

  /** The item with the dot moved over one more symbol. */
  function Advance(it: Item): Item {
    Item(it.head, it.body, it.pos + 1)
  }

  /** The first item whose body is not empty. */
  function FirstNonEmpty(items: seq<Item>): Option<Item> {
    if items == [] then None
    else
      var f := FirstNonEmpty(items[..|items| - 1]);
      if f.Some? then f
      else if items[|items| - 1].body != [] then Some(items[|items| - 1])
      else None
  }

  /** The reduce handle of a state: head and body of the first non-empty item, when that item is complete. */
  function Handle(items: seq<Item>): Option<(Symbol, seq<Symbol>)> {
    match FirstNonEmpty(items)
    case Some(it) => if Complete(it) then Some((it.head, it.body)) else None
    case None => None
  }

  /** The symbols right after a dot inside a body, each once, in order of first occurrence. */
  function NextSymbols(items: seq<Item>): seq<Symbol> {
    if items == [] then []
    else
      var e := NextSymbols(items[..|items| - 1]);
      var it := items[|items| - 1];
      if it.pos < |it.body| && it.body[it.pos] !in e then e + [it.body[it.pos]] else e
  }

  /** The items with x right after the dot, each advanced over x, in order. */
  function Advanced(items: seq<Item>, x: Symbol): seq<Item> {
    if items == [] then []
    else
      var e := Advanced(items[..|items| - 1], x);
      var it := items[|items| - 1];
      if it.pos < |it.body| && it.body[it.pos] == x then e + [Advance(it)] else e
  }

  /** What the scan has built after looking at the items `seen`. */
  ghost predicate Scanned(seen: seq<Item>, handle: Option<(Symbol, seq<Symbol>)>, keys: seq<Symbol>,
                          gotos: map<Symbol, seq<Item>>)
  {
    && handle == Handle(seen)
    && (handle.Some? ==> keys == [] && gotos == map[])
    && (handle.None? ==> keys == NextSymbols(seen) && gotos.Keys == SetOf(keys))
    && (handle.None? ==> forall x :: x in gotos ==> gotos[x] == Advanced(seen, x))
    && (handle.None? ==> (FirstNonEmpty(seen).Some? <==> keys != []))
  }

  /**
   * The scan of one state in __init__: the first complete item with a
   * non-empty body becomes the handle unless a shift item came first;
   * otherwise every incomplete item goes to the kernel of the symbol after
   * its dot, and `keys` keeps the insertion order of the `gotos` dict.
   * Conflicting items are only logged.
   */
  method ScanState(items: seq<Item>) returns (handle: Option<(Symbol, seq<Symbol>)>, keys: seq<Symbol>,
                                              gotos: map<Symbol, seq<Item>>)
    ensures handle == Handle(items)
    ensures handle.Some? ==> keys == [] && gotos == map[]
    ensures handle.None? ==> keys == NextSymbols(items) && gotos.Keys == SetOf(keys)
    ensures handle.None? ==> forall x :: x in gotos ==> gotos[x] == Advanced(items, x)
  {
    handle, keys, gotos := None, [], map[];
    for i := 0 to |items|
      invariant Scanned(items[..i], handle, keys, gotos)
    {
      assert items[..i + 1] == items[..i] + [items[i]];
      handle, keys, gotos := ScanItem(items[..i], items[i], handle, keys, gotos);
    }
    assert items[..|items|] == items;
  }

  /** One iteration of the scan (parser.py:46-66). */
  method ScanItem(ghost seen: seq<Item>, item: Item, handle: Option<(Symbol, seq<Symbol>)>, keys: seq<Symbol>,
                  gotos: map<Symbol, seq<Item>>)
    returns (handle': Option<(Symbol, seq<Symbol>)>, keys': seq<Symbol>, gotos': map<Symbol, seq<Item>>)
    requires Scanned(seen, handle, keys, gotos)
    ensures Scanned(seen + [item], handle', keys', gotos')
  {
    var seen' := seen + [item];
    assert seen'[..|seen'| - 1] == seen;
    handle', keys', gotos' := handle, keys, gotos;
    if handle.None? && keys != [] {
      assert keys[0] in gotos;
    }
    var l, r, p := item.head, item.body, item.pos;
    // An empty body is only logged (parser.py:47-48).
    if r != [] {
      if p >= |r| {
        // A complete item after a shift item, or after the handle, is a logged conflict.
        if gotos == map[] && handle.None? {
          handle' := Some((l, r));
        }
      } else if handle.None? {
        // A shift item after the handle is a logged conflict.
        var nxt := r[p];
        var newitem := Item(l, r, p + 1);
        if nxt in gotos {
          gotos' := gotos[nxt := gotos[nxt] + [newitem]];
        } else {
          AdvancedOnlyNext(seen, nxt);
          gotos' := gotos[nxt := [newitem]];
          SetOfSnoc(keys, nxt);
          keys' := keys + [nxt];
        }
      }
    }
  }

  /** Only a symbol after some dot has a non-empty kernel. */
  lemma {:induction false} AdvancedOnlyNext(items: seq<Item>, x: Symbol)
    requires x !in NextSymbols(items)
    ensures Advanced(items, x) == []
  {
    if items != [] {
      AdvancedOnlyNext(items[..|items| - 1], x);
    }
  }

  // ---------------------------------------------------------------------
  // Finitely many states: the termination argument of __init__
  // ---------------------------------------------------------------------

  /** An item the builder can create: the start item, or (x, rhs, p) for a body rhs of a nonterminal x. */
  predicate Possible(g: Grammar, it: Item)
    requires WellFormed(g)
  {
    || (it.head == START && it.body == [g.startSymbol, EOF] && it.pos <= 2)
    || (it.head in g.nonTerminals && it.body in g.productions[it.head] && it.pos <= |it.body|)
  }

  /** All possible items, as a finite set. */
  ghost function Universe(g: Grammar): set<Item>
    requires WellFormed(g)
  {
    (set p: nat | p <= 2 :: Item(START, [g.startSymbol, EOF], p))
    + (set x, rhs, p: nat | x in g.nonTerminals && rhs in g.productions[x] && p <= |rhs| :: Item(x, rhs, p))
  }

  lemma UniverseHolds(g: Grammar, items: seq<Item>)
    requires WellFormed(g) && forall i :: 0 <= i < |items| ==> Possible(g, items[i])
    ensures Over(items, Universe(g))
  {
    forall i | 0 <= i < |items| ensures items[i] in Universe(g) {
      var it := items[i];
      if it.head == START && it.body == [g.startSymbol, EOF] {
        assert it == Item(START, [g.startSymbol, EOF], it.pos);
      } else {
        assert it == Item(it.head, it.body, it.pos);
      }
    }
  }

  /** An item list the builder can create: no repetition, possible items only. */
  ghost predicate Good(g: Grammar, items: seq<Item>)
    requires WellFormed(g)
  {
    DupFree(items) && forall i :: 0 <= i < |items| ==> Possible(g, items[i])
  }

  lemma {:induction false} AdvancedFrom(items: seq<Item>, x: Symbol)
    ensures forall it :: it in Advanced(items, x) ==>
              exists j :: 0 <= j < |items| && items[j].pos < |items[j].body| && it == Advance(items[j])
  {
    if items != [] {
      var init := items[..|items| - 1];
      AdvancedFrom(init, x);
      forall it | it in Advanced(items, x)
        ensures exists j :: 0 <= j < |items| && items[j].pos < |items[j].body| && it == Advance(items[j])
      {
        if it in Advanced(init, x) {
          var j :| 0 <= j < |init| && init[j].pos < |init[j].body| && it == Advance(init[j]);
          assert items[j] == init[j];
        } else {
          assert it == Advance(items[|items| - 1]);
        }
      }
    }
  }

  /** The kernel for x of a good state is good, and its dots are past the first symbol. */
  lemma {:induction false} AdvancedGood(g: Grammar, items: seq<Item>, x: Symbol)
    requires WellFormed(g) && Good(g, items)
    ensures Good(g, Advanced(items, x))
    ensures forall it :: it in Advanced(items, x) ==> it.pos > 0
  {
    if items != [] {
      var init := items[..|items| - 1];
      var last := items[|items| - 1];
      assert Good(g, init) by {
        forall i | 0 <= i < |init| ensures Possible(g, init[i]) {
          assert init[i] == items[i];
        }
      }
      AdvancedGood(g, init, x);
      var a := Advanced(init, x);
      if last.pos < |last.body| && last.body[last.pos] == x {
        AdvancedFrom(init, x);
        assert Advance(last) !in a by {
          forall j | 0 <= j < |init| ensures Advance(last) != Advance(init[j]) {
            assert init[j] == items[j];
          }
        }
        assert Advanced(items, x) == a + [Advance(last)];
        assert Possible(g, Advance(last));
      }
    }
  }

  lemma {:induction false} ExpandBodiesDupFree(x: Symbol, rhss: seq<seq<Symbol>>)
    requires DupFree(rhss)
    ensures DupFree(ExpandBodies(x, rhss))
  {
    if rhss != [] {
      var init := rhss[..|rhss| - 1];
      var last := rhss[|rhss| - 1];
      ExpandBodiesDupFree(x, init);
      ExpandBodiesItems(x, init);
      assert last !in init;
    }
  }

  lemma {:induction false} ExpandAllDupFree(g: Grammar, order: seq<Symbol>)
    requires WellFormed(g) && DistinctBodies(g)
    requires DupFree(order) && forall i :: 0 <= i < |order| ==> order[i] in g.nonTerminals
    ensures DupFree(ExpandAll(g, order))
  {
    if order != [] {
      var init := order[..|order| - 1];
      var x := order[|order| - 1];
      ExpandAllDupFree(g, init);
      ExpandAllItems(g, init);
      ExpandBodiesDupFree(x, g.productions[x]);
      ExpandBodiesItems(x, g.productions[x]);
      assert x !in init;
      DupFreeConcat(ExpandAll(g, init), Expand(g, x));
    }
  }

  /** The closure of a good kernel whose items are not fresh expansions is good. */
  lemma ClosureGood(g: Grammar, kernel: seq<Item>)
    requires WellFormed(g) && DistinctBodies(g) && Good(g, kernel)
    requires forall it :: it in kernel ==> it.pos > 0 || it.head !in g.nonTerminals
    ensures Good(g, Closure(g, kernel))
  {
    var c := Closure(g, kernel);
    ClosureShape(g, kernel);
    var order := Expanded(g, c);
    ExpandedDupFree(g, c);
    ExpandedTriggers(g, c);
    forall i | 0 <= i < |order| ensures order[i] in g.nonTerminals {
      assert order[i] in order;
    }
    ExpandAllDupFree(g, order);
    ExpandAllItems(g, order);
    var e := ExpandAll(g, order);
    forall i, j | 0 <= i < |kernel| && 0 <= j < |e| ensures kernel[i] != e[j] {
      assert e[j] in e;
      assert kernel[i] in kernel;
    }
    DupFreeConcat(kernel, e);
    forall i | 0 <= i < |c| ensures Possible(g, c[i]) {
      if i >= |kernel| {
        assert c[i] == e[i - |kernel|];
        assert c[i] in e;
      }
    }
  }

  // ---------------------------------------------------------------------
  // The canonical collection and its actions (parser.py:23-86)
  // ---------------------------------------------------------------------

  /** `("reduce", (head, body))` or `("shift", transition)`. */
  datatype Action = Reduce(head: Symbol, body: seq<Symbol>) | Shift(transition: map<Symbol, nat>)

  /**
   * The action __init__ records for state st: the handle when there is one;
   * otherwise a transition for exactly the symbols after a dot, each to the
   * state that is the closure of that symbol's kernel.
   */
  ghost predicate ActionOf(g: Grammar, states: seq<seq<Item>>, st: nat, a: Action)
    requires st < |states|
  {
    match Handle(states[st])
    case Some(h) => a == Reduce(h.0, h.1)
    case None =>
      && a.Shift?
      && a.transition.Keys == SetOf(NextSymbols(states[st]))
      && forall x :: x in a.transition ==>
           a.transition[x] < |states| && states[a.transition[x]] == Closure(g, Advanced(states[st], x))
  }

  /** The fields of a finished LR0 object. */
  ghost predicate Automaton(g: Grammar, states: seq<seq<Item>>, st2id: map<seq<Item>, nat>, actions: map<nat, Action>)
    requires WellFormed(g)
  {
    && |states| > 0 && states[0] == Closure(g, [StartItem(g)])
    && Indexed(states, st2id)
    && Acted(g, states, actions, |states|)
    && AllGood(g, states)
  }

  ghost predicate AllGood(g: Grammar, states: seq<seq<Item>>)
    requires WellFormed(g)
  {
    forall i :: 0 <= i < |states| ==> Good(g, states[i])
  }

  /** States 0 .. n-1, and no others, have their actions. */
  ghost predicate Acted(g: Grammar, states: seq<seq<Item>>, actions: map<nat, Action>, n: nat)
    requires n <= |states|
  {
    && (forall i :: i in actions ==> i < n)
    && (forall i: nat :: i < n ==> i in actions && ActionOf(g, states, i, actions[i]))
  }

  /** Giving state n its action, with more states appended. */
  lemma ActedExtend(g: Grammar, states: seq<seq<Item>>, states': seq<seq<Item>>, actions: map<nat, Action>,
                    n: nat, a: Action)
    requires n < |states| <= |states'| && states'[..|states|] == states
    requires Acted(g, states, actions, n) && ActionOf(g, states', n, a)
    ensures Acted(g, states', actions[n := a], n + 1)
  {
    var actions' := actions[n := a];
    forall i: nat | i < n + 1 ensures i in actions' && ActionOf(g, states', i, actions'[i]) {
      if i < n {
        ActionOfExtends(g, states, states', i, actions[i]);
      }
    }
  }

  /** An action stays correct when states are appended. */
  lemma ActionOfExtends(g: Grammar, states: seq<seq<Item>>, states': seq<seq<Item>>, st: nat, a: Action)
    requires st < |states| <= |states'| && states'[..|states|] == states
    requires ActionOf(g, states, st, a)
    ensures ActionOf(g, states', st, a)
  {
    assert states'[st] == states[st];
    if Handle(states[st]).None? {
      forall x | x in a.transition ensures states'[a.transition[x]] == states[a.transition[x]] {
        assert states'[..|states|][a.transition[x]] == states[a.transition[x]];
      }
    }
  }

  /** s is the closure of the kernel of one of keys. */
  ghost predicate FromKeys(g: Grammar, keys: seq<Symbol>, gotos: map<Symbol, seq<Item>>, s: seq<Item>)
    requires WellFormed(g)
  {
    exists x :: x in keys && x in gotos && s == Closure(g, gotos[x])
  }

  /**
   * The loop over `gotos.items()` (parser.py:71-83): the closure of each
   * kernel is looked up by its ordered item list and added as a new state
   * when absent.
   */
  method AddTargets(g: Grammar, states: seq<seq<Item>>, st2id: map<seq<Item>, nat>, newstates: seq<nat>,
                    keys: seq<Symbol>, gotos: map<Symbol, seq<Item>>)
    returns (states': seq<seq<Item>>, st2id': map<seq<Item>, nat>, newstates': seq<nat>, transition: map<Symbol, nat>)
    requires WellFormed(g) && Indexed(states, st2id)
    requires forall x :: x in keys ==> x in gotos
    ensures Indexed(states', st2id')
    ensures |states| <= |states'| && states'[..|states|] == states
    ensures newstates' == newstates + Range(|states|, |states'|)
    ensures |states'| == |states| ==> st2id' == st2id
    ensures |states'| > |states| ==> st2id.Keys < st2id'.Keys
    ensures transition.Keys == SetOf(keys)
    ensures forall x :: x in transition ==>
              transition[x] < |states'| && states'[transition[x]] == Closure(g, gotos[x])
    ensures forall j :: |states| <= j < |states'| ==>
              FromKeys(g, keys, gotos, states'[j])
  {
    states', st2id', newstates', transition := states, st2id, newstates, map[];
    for k := 0 to |keys|
      invariant Indexed(states', st2id')
      invariant TargetsSoFar(g, states, newstates, keys, gotos, states', newstates', transition)
      invariant transition.Keys == SetOf(keys[..k])
    {
      var nxt := keys[k];
      assert keys[..k + 1] == keys[..k] + [nxt];
      SetOfSnoc(keys[..k], nxt);
      var closure := ClosureOf(g, gotos[nxt]);
      ghost var before, beforeNew := states', newstates';
      var id;
      states', st2id', newstates', id := AddTarget(states', st2id', newstates', closure);
      TargetsStep(g, states, newstates, keys, gotos, before, beforeNew, transition, states', newstates', id, nxt);
      transition := transition[nxt := id];
    }
    assert keys[..|keys|] == keys;
    IndexedGrow(states, st2id, states', st2id');
  }

  /** What the loop over `gotos.items()` has built so far on top of `states` and `newstates`. */
  ghost predicate TargetsSoFar(g: Grammar, states: seq<seq<Item>>, newstates: seq<nat>, keys: seq<Symbol>,
                               gotos: map<Symbol, seq<Item>>, states': seq<seq<Item>>, newstates': seq<nat>,
                               transition: map<Symbol, nat>)
    requires WellFormed(g)
  {
    && |states| <= |states'| && states'[..|states|] == states
    && newstates' == newstates + Range(|states|, |states'|)
    && (forall x :: x in transition ==>
          x in gotos && transition[x] < |states'| && states'[transition[x]] == Closure(g, gotos[x]))
    && (forall j :: |states| <= j < |states'| ==> FromKeys(g, keys, gotos, states'[j]))
  }

  lemma TargetsStep(g: Grammar, states: seq<seq<Item>>, newstates: seq<nat>, keys: seq<Symbol>,
                    gotos: map<Symbol, seq<Item>>, before: seq<seq<Item>>, beforeNew: seq<nat>,
                    transition: map<Symbol, nat>, after: seq<seq<Item>>, afterNew: seq<nat>, id: nat, nxt: Symbol)
    requires WellFormed(g) && TargetsSoFar(g, states, newstates, keys, gotos, before, beforeNew, transition)
    requires nxt in keys && nxt in gotos
    requires || (after == before && afterNew == beforeNew)
             || (after == before + [Closure(g, gotos[nxt])] && afterNew == beforeNew + [|before|])
    requires id < |after| && after[id] == Closure(g, gotos[nxt])
    ensures TargetsSoFar(g, states, newstates, keys, gotos, after, afterNew, transition[nxt := id])
  {
    if after != before {
      assert FromKeys(g, keys, gotos, after[|before|]);
      RangeSnoc(newstates, beforeNew, |states|, |before|);
      assert forall j :: 0 <= j < |before| ==> after[j] == before[j];
      assert after[..|states|] == before[..|states|];
    }
  }

  class LR0 {
    const grammar: Grammar
    const states: seq<seq<Item>>
    const st2id: map<seq<Item>, nat>
    const actions: map<nat, Action>

    ghost predicate Valid() {
      WellFormed(grammar) && Automaton(grammar, states, st2id, actions)
    }

    /** __init__: the breadth-first construction of the canonical LR(0) collection. */
    constructor (g: Grammar)
      requires WellFormed(g) && DistinctBodies(g)
      ensures grammar == g && Valid()
    {
      var start := StartItem(g);
      var closure := ClosureOf(g, [start]);
      assert Good(g, [start]);
      ClosureGood(g, [start]);
      UniverseHolds(g, closure);
      ArrangementsComplete(Universe(g), closure);
      var sts := [closure];
      var ids := map[closure := 0];
      var acts: map<nat, Action> := map[];
      var newstates: seq<nat> := [0];
      while newstates != []
        invariant Building(g, sts, ids, acts, newstates)
        invariant ids.Keys <= Arrangements(Universe(g))
        decreases Arrangements(Universe(g)) - ids.Keys, |newstates|
      {
        sts, ids, acts, newstates := Visit(g, sts, ids, acts, newstates);
        KeysBounded(g, sts, ids);
      }
      grammar := g;
      states := sts;
      st2id := ids;
      actions := acts;
    }

    /**
     * parse: the shift-reduce loop over `tokens` followed by EOF.  The model
     * bounds the number of rounds by `fuel`, as `while True` need not end.
     */
    method Parse(tokens: seq<Symbol>, fuel: nat) returns (result: Outcome)
      ensures result == Run(actions, Initial(tokens), fuel).outcome
    {
      var c := Initial(tokens);
      var left := fuel;
      while true
        invariant Run(actions, c, left) == Run(actions, Initial(tokens), fuel)
        decreases left
      {
        if left == 0 {
          return OutOfFuel;
        }
        var next := Round(c);
        RunUnfold(actions, c, left);
        match next {
          case Stop(outcome) =>
            return outcome;
          case Continue(c') =>
            RunContinue(actions, c, c', left);
            c, left := c', left - 1;
        }
      }
    }

    /** The body of the parse loop: the action of the current state, applied once. */
    method Round(c: Config) returns (next: Next)
      ensures next == Step(actions, c)
    {
      if c.st !in actions {
        return Stop(Crash(KeyError));
      }
      match actions[c.st]
      case Reduce(head, body) =>
        if PyTail(c.symstack, |body|) != body {
          return Stop(Inconsistent);
        }
        if head == START {
          return Stop(Accept);
        }
        if |c.ststack| < |body| {
          return Stop(Crash(IndexError));
        }
        var ststack := c.ststack[..|c.ststack| - |body|];
        var symstack := c.symstack[..|c.symstack| - |body|];
        if ststack == [] {
          return Stop(Inconsistent);
        }
        symstack := symstack + [head];
        var top := ststack[|ststack| - 1];
        if top !in actions {
          return Stop(Crash(KeyError));
        }
        match actions[top] {
          case Reduce(_, _) =>
            // `st` becomes the tuple (head, body), which the next round cannot hash.
            return Stop(Crash(TypeError));
          case Shift(tr) =>
            if head !in tr {
              return Stop(Crash(KeyError));
            }
            next := Continue(Config(tr[head], ststack + [tr[head]], symstack, c.input));
        }
      case Shift(tr) =>
        if c.input == [] || c.input[0] == "" {
          return Stop(Crash(NameError));
        }
        var ahead := c.input[0];
        if ahead !in tr {
          return Stop(Reject);
        }
        next := Continue(Config(tr[ahead], c.ststack + [tr[ahead]], c.symstack + [ahead], c.input[1..]));
    }
  }

  /**
   * The loop invariant of __init__: the states so far, with actions for all
   * but the queued ones, which are the most recently added.
   */
  ghost predicate Building(g: Grammar, sts: seq<seq<Item>>, ids: map<seq<Item>, nat>,
                           acts: map<nat, Action>, newstates: seq<nat>)
    requires WellFormed(g)
  {
    && 1 <= |sts| && sts[0] == Closure(g, [StartItem(g)])
    && Indexed(sts, ids)
    && |newstates| <= |sts| && newstates == Range(|sts| - |newstates|, |sts|)
    && Acted(g, sts, acts, |sts| - |newstates|)
    && AllGood(g, sts)
  }

  /**
   * One round of the `while newstates` loop (parser.py:59-86): the first queued
   * state gets its action, and its new targets are queued.  Either a state is
   * added or the queue gets shorter.
   */
  method Visit(g: Grammar, sts: seq<seq<Item>>, ids: map<seq<Item>, nat>,
               acts: map<nat, Action>, newstates: seq<nat>)
    returns (sts': seq<seq<Item>>, ids': map<seq<Item>, nat>, acts': map<nat, Action>, newstates': seq<nat>)
    requires WellFormed(g) && DistinctBodies(g)
    requires Building(g, sts, ids, acts, newstates) && newstates != []
    ensures Building(g, sts', ids', acts', newstates')
    ensures ids.Keys < ids'.Keys || (ids' == ids && |newstates'| < |newstates|)
  {
    var st := newstates[0];
    var handle, keys, gotos := ScanState(sts[st]);
    if handle.Some? {
      var a := Reduce(handle.value.0, handle.value.1);
      VisitStep(g, sts, sts, ids, ids, acts, newstates, newstates[1..], a);
      sts', ids', acts', newstates' := sts, ids, acts[st := a], newstates[1..];
    } else {
      var transition;
      sts', ids', newstates', transition := AddTargets(g, sts, ids, newstates[1..], keys, gotos);
      Grow(g, sts, sts', st, keys, gotos, transition);
      VisitStep(g, sts, sts', ids, ids', acts, newstates, newstates', Shift(transition));
      acts' := acts[st := Shift(transition)];
    }
  }

  /** The invariant of __init__ after the first queued state gets action a. */
  lemma VisitStep(g: Grammar, sts: seq<seq<Item>>, sts': seq<seq<Item>>, ids: map<seq<Item>, nat>,
                  ids': map<seq<Item>, nat>, acts: map<nat, Action>, newstates: seq<nat>,
                  newstates': seq<nat>, a: Action)
    requires WellFormed(g) && Building(g, sts, ids, acts, newstates) && newstates != []
    requires |sts| <= |sts'| && sts'[..|sts|] == sts && Indexed(sts', ids')
    requires newstates' == newstates[1..] + Range(|sts|, |sts'|)
    requires AllGood(g, sts')
    requires ActionOf(g, sts', newstates[0], a)
    ensures Building(g, sts', ids', acts[newstates[0] := a], newstates')
  {
    var st := newstates[0];
    assert st == |sts| - |newstates|;
    assert sts'[0] == sts[0];
    RangeRequeue(newstates, |sts|, |sts'|);
    ActedExtend(g, sts, sts', acts, st, a);
  }

  /** The states, being good, are among the finitely many arrangements of possible items. */
  lemma KeysBounded(g: Grammar, sts: seq<seq<Item>>, ids: map<seq<Item>, nat>)
    requires WellFormed(g) && Indexed(sts, ids) && AllGood(g, sts)
    ensures ids.Keys <= Arrangements(Universe(g))
  {
    forall k | k in ids ensures k in Arrangements(Universe(g)) {
      assert Good(g, sts[ids[k]]);
      UniverseHolds(g, k);
      ArrangementsComplete(Universe(g), k);
    }
  }

  /** After the targets of state st are added: its action is right and the new states are good. */
  lemma Grow(g: Grammar, sts: seq<seq<Item>>, sts': seq<seq<Item>>, st: nat, keys: seq<Symbol>, gotos: map<Symbol, seq<Item>>,
             transition: map<Symbol, nat>)
    requires WellFormed(g) && DistinctBodies(g)
    requires st < |sts| <= |sts'| && sts'[..|sts|] == sts
    requires AllGood(g, sts)
    requires Handle(sts[st]).None? && keys == NextSymbols(sts[st]) && gotos.Keys == SetOf(keys)
    requires forall x :: x in gotos ==> gotos[x] == Advanced(sts[st], x)
    requires transition.Keys == SetOf(keys)
    requires forall x :: x in transition ==> transition[x] < |sts'| && sts'[transition[x]] == Closure(g, gotos[x])
    requires forall j :: |sts| <= j < |sts'| ==> FromKeys(g, keys, gotos, sts'[j])
    ensures ActionOf(g, sts', st, Shift(transition))
    ensures AllGood(g, sts')
  {
    assert sts'[st] == sts[st];
    forall i | 0 <= i < |sts'| ensures Good(g, sts'[i]) {
      if i < |sts| {
        assert sts'[i] == sts[i];
      } else {
        assert FromKeys(g, keys, gotos, sts'[i]);
        var x :| x in keys && x in gotos && sts'[i] == Closure(g, gotos[x]);
        AdvancedGood(g, sts[st], x);
        ClosureGood(g, gotos[x]);
      }
    }
  }

  // ---------------------------------------------------------------------
  // parse (parser.py:117-168)
  // ---------------------------------------------------------------------

  /** The variables of `parse` at the top of `while True`; `input` is what the iterator `it` has left. */
  datatype Config = Config(st: nat, ststack: seq<nat>, symstack: seq<Symbol>, input: seq<Symbol>)

  /** One round of `while True` either goes on in a new configuration or leaves `parse`. */
  datatype Next = Continue(next: Config) | Stop(outcome: Outcome)

  /** How a run ends, with the configuration of its last round. */
  datatype Halt = Halt(outcome: Outcome, last: Config)

  /** The configuration before the first round: EOF appended, state 0 on the stack. */
  function Initial(tokens: seq<Symbol>): Config {
    Config(0, [0], [], tokens + [EOF])
  }

  /** The two stacks move together: one more state than symbols, and the top state is `st`. */
  predicate Stacks(c: Config) {
    |c.ststack| == |c.symstack| + 1 && c.ststack[|c.ststack| - 1] == c.st
  }

  /**
   * One round of the loop.  While the stacks move together the pops never
   * fail, and the only inconsistency left is a handle that does not match the
   * top of the symbol stack.
   */
  function Step(actions: map<nat, Action>, c: Config): (r: Next)
    ensures Stacks(c) && r.Continue? ==> Stacks(r.next)
    ensures Stacks(c) ==> r != Stop(Crash(IndexError))
    ensures Stacks(c) && r == Stop(Inconsistent) ==>
              c.st in actions && actions[c.st].Reduce?
              && PyTail(c.symstack, |actions[c.st].body|) != actions[c.st].body
  {
    if c.st !in actions then Stop(Crash(KeyError))
    else match actions[c.st]
      case Reduce(head, body) =>
        if PyTail(c.symstack, |body|) != body then Stop(Inconsistent)
        else if head == START then Stop(Accept)
        else if |c.ststack| < |body| then Stop(Crash(IndexError))
        else
          var ststack := c.ststack[..|c.ststack| - |body|];
          if ststack == [] then Stop(Inconsistent)
          else
            var symstack := c.symstack[..|c.symstack| - |body|] + [head];
            var top := ststack[|ststack| - 1];
            if top !in actions then Stop(Crash(KeyError))
            else
              (match actions[top]
               case Reduce(_, _) => Stop(Crash(TypeError))
               case Shift(tr) =>
                 if head !in tr then Stop(Crash(KeyError))
                 else Continue(Config(tr[head], ststack + [tr[head]], symstack, c.input)))
      case Shift(tr) =>
        if c.input == [] || c.input[0] == "" then Stop(Crash(NameError))
        else if c.input[0] !in tr then Stop(Reject)
        else
          var ahead := c.input[0];
          Continue(Config(tr[ahead], c.ststack + [tr[ahead]], c.symstack + [ahead], c.input[1..]))
  }

  lemma RunUnfold(actions: map<nat, Action>, c: Config, fuel: nat)
    requires fuel > 0
    ensures Step(actions, c).Stop? ==> Run(actions, c, fuel).outcome == Step(actions, c).outcome
  {
  }

  lemma RunContinue(actions: map<nat, Action>, c: Config, c': Config, fuel: nat)
    requires fuel > 0 && Step(actions, c) == Continue(c')
    ensures Run(actions, c, fuel) == Run(actions, c', fuel - 1)
  {
  }

  /** At most `fuel` rounds from c; a run that stops does so at a round whose step leaves the loop. */
  function Run(actions: map<nat, Action>, c: Config, fuel: nat): (h: Halt)
    ensures Stacks(c) ==> Stacks(h.last)
    ensures h.outcome != OutOfFuel ==> Step(actions, h.last) == Stop(h.outcome)
    decreases fuel
  {
    if fuel == 0 then Halt(OutOfFuel, c)
    else match Step(actions, c)
      case Stop(o) => Halt(o, c)
      case Continue(c') => Run(actions, c', fuel - 1)
  }

  /** A reduce action of the automaton names an item of its state: START only with the body [startSymbol, EOF], never EOF. */
  lemma ReduceHeads(p: LR0, i: nat)
    requires p.Valid() && i in p.actions && p.actions[i].Reduce?
    ensures p.actions[i].head != EOF
    ensures p.actions[i].head == START ==> p.actions[i].body == [p.grammar.startSymbol, EOF]
  {
    var g, items := p.grammar, p.states[i];
    assert ActionOf(g, p.states, i, p.actions[i]);
    HandleItem(items);
    var k :| 0 <= k < |items| && items[k].head == p.actions[i].head && items[k].body == p.actions[i].body;
    assert Good(g, items);
    assert Possible(g, items[k]);
  }

  lemma {:induction false} HandleItem(items: seq<Item>)
    ensures Handle(items).Some? ==>
              exists k :: 0 <= k < |items| && items[k].head == Handle(items).value.0
                          && items[k].body == Handle(items).value.1
  {
    if items != [] {
      var init := items[..|items| - 1];
      HandleItem(init);
      if FirstNonEmpty(init).Some? {
        if Handle(items).Some? {
          var k :| 0 <= k < |init| && init[k].head == Handle(init).value.0 && init[k].body == Handle(init).value.1;
          assert items[k] == init[k];
        }
      } else {
        assert Handle(items).Some? ==> items[|items| - 1].head == Handle(items).value.0;
      }
    }
  }

  /** Every state on the stacks, and the current one, is a state of the automaton. */
  predicate InStates(c: Config, n: nat) {
    c.st < n && forall i :: 0 <= i < |c.ststack| ==> c.ststack[i] < n
  }

  /** EOF is on the symbol stack only once the input is used up, and occurs in the input only last. */
  predicate EndOrder(c: Config) {
    && (EOF in c.symstack ==> c.input == [])
    && forall i :: 0 <= i < |c.input| - 1 ==> c.input[i] != EOF
  }

  /** The action table of n states: exactly the ids below n, transitions into them, no reduction to EOF. */
  predicate Table(actions: map<nat, Action>, n: nat) {
    && (forall i :: i in actions ==> i < n)
    && (forall i: nat :: i < n ==> i in actions)
    && (forall i, x :: i in actions && actions[i].Shift? && x in actions[i].transition ==>
          actions[i].transition[x] < n)
    && (forall i :: i in actions && actions[i].Reduce? ==> actions[i].head != EOF)
  }

  lemma ValidTable(p: LR0)
    requires p.Valid()
    ensures Table(p.actions, |p.states|)
  {
    forall i, x | i in p.actions && p.actions[i].Shift? && x in p.actions[i].transition
      ensures p.actions[i].transition[x] < |p.states|
    {
      assert ActionOf(p.grammar, p.states, i, p.actions[i]);
    }
    forall i | i in p.actions && p.actions[i].Reduce? ensures p.actions[i].head != EOF {
      ReduceHeads(p, i);
    }
  }

  lemma StepInStates(actions: map<nat, Action>, n: nat, c: Config)
    requires Table(actions, n) && InStates(c, n)
    ensures Step(actions, c).Continue? ==> InStates(Step(actions, c).next, n)
  {
    var r := Step(actions, c);
    if r.Continue? {
      var c' := r.next;
      forall i | 0 <= i < |c'.ststack| ensures c'.ststack[i] < n {
        if i < |c'.ststack| - 1 {
          assert c'.ststack[i] == c.ststack[i];
        }
      }
    }
  }

  lemma StepEndOrder(actions: map<nat, Action>, n: nat, c: Config)
    requires Table(actions, n) && EndOrder(c)
    ensures Step(actions, c).Continue? ==> EndOrder(Step(actions, c).next)
  {
    var r := Step(actions, c);
    if r.Continue? {
      var c' := r.next;
      match actions[c.st]
      case Reduce(head, body) =>
        assert c'.symstack == c.symstack[..|c.symstack| - |body|] + [head];
        assert EOF in c'.symstack ==> EOF in c.symstack;
      case Shift(tr) =>
        assert c'.symstack == c.symstack + [c.input[0]];
        forall i | 0 <= i < |c'.input| - 1 ensures c'.input[i] != EOF {
          assert c'.input[i] == c.input[i + 1];
        }
    }
  }

  lemma {:induction false} RunInStates(actions: map<nat, Action>, n: nat, c: Config, fuel: nat)
    requires Table(actions, n) && InStates(c, n)
    ensures InStates(Run(actions, c, fuel).last, n)
    decreases fuel
  {
    var r := Step(actions, c);
    if fuel > 0 && r.Continue? {
      StepInStates(actions, n, c);
      RunInStates(actions, n, r.next, fuel - 1);
    }
  }

  lemma {:induction false} RunEndOrder(actions: map<nat, Action>, n: nat, c: Config, fuel: nat)
    requires Table(actions, n) && EndOrder(c)
    ensures EndOrder(Run(actions, c, fuel).last)
    decreases fuel
  {
    var r := Step(actions, c);
    if fuel > 0 && r.Continue? {
      StepEndOrder(actions, n, c);
      RunEndOrder(actions, n, r.next, fuel - 1);
    }
  }

  /**
   * What a run of `parse` on a built automaton can end in: the current state
   * always has an action, so a KeyError can only come from the goto after a
   * reduction; the pops never fail; the only inconsistency is a handle that
   * does not match the symbol stack; accepting needs [startSymbol, EOF] on top
   * of the symbol stack and, when the tokens do not contain EOF themselves,
   * the whole input shifted.
   */
  lemma ParseOutcomes(p: LR0, tokens: seq<Symbol>, fuel: nat)
    requires p.Valid()
    ensures var h := Run(p.actions, Initial(tokens), fuel);
      && h.last.st in p.actions
      && (h.outcome == Crash(KeyError) ==> p.actions[h.last.st].Reduce?)
      && h.outcome != Crash(IndexError)
      && (h.outcome == Inconsistent ==>
            p.actions[h.last.st].Reduce?
            && PyTail(h.last.symstack, |p.actions[h.last.st].body|) != p.actions[h.last.st].body)
      && (h.outcome == Accept ==>
            && |h.last.symstack| >= 2
            && h.last.symstack[|h.last.symstack| - 2..] == [p.grammar.startSymbol, EOF]
            && (EOF !in tokens ==> h.last.input == []))
  {
    var c := Initial(tokens);
    assert Stacks(c) && InStates(c, |p.states|);
    var h := Run(p.actions, c, fuel);
    ValidTable(p);
    RunInStates(p.actions, |p.states|, c, fuel);
    var last := h.last;
    assert last.st in p.actions;
    if h.outcome == Accept {
      ReduceHeads(p, last.st);
      var body := p.actions[last.st].body;
      assert PyTail(last.symstack, 2) == body;
      if EOF !in tokens {
        assert EndOrder(c) by {
          forall i | 0 <= i < |c.input| - 1 ensures c.input[i] != EOF {
            assert c.input[i] == tokens[i];
          }
        }
        RunEndOrder(p.actions, |p.states|, c, fuel);
        assert last.symstack[|last.symstack| - 1] == EOF;
      }
    }
  }
}
