/**
 * What a run of LR1.parse can end in on a table built by LR1.__init__
 * (parser.py:216-271, 308-371): the stacks always describe a viable
 * prefix of the grammar, so neither the pops nor the goto lookups fail,
 * and an accepting run has reduced the whole input to the start symbol.
 */
module Lr1Run {
  import opened Grammars
  import opened Outcomes
  import opened Lr1

  // ---------------------------------------------------------------------
  // The table of one state
  // ---------------------------------------------------------------------

  /** The reduce entries of a column are those of the complete items that have it in their lookahead. */
  lemma {:induction false} ReducesItems(items: seq<Item>, a: Symbol)
    ensures forall e :: e in Reduces(items, a) <==>
              exists it :: it in items && Complete(it) && a in it.laset && e == Reduce(it.head, it.body)
  {
    if items != [] {
      var init := items[..|items| - 1];
      var last := items[|items| - 1];
      ReducesItems(init, a);
      assert items == init + [last];
      forall e | exists it :: it in items && Complete(it) && a in it.laset && e == Reduce(it.head, it.body)
        ensures e in Reduces(items, a)
      {
        var it :| it in items && Complete(it) && a in it.laset && e == Reduce(it.head, it.body);
        if it != last {
          assert it in init;
        }
      }
    }
  }

  /** A symbol is a key of the kernels exactly when it follows the dot of some item. */
  lemma {:induction false} NextSymbolsItems(items: seq<Item>)
    ensures forall x :: x in NextSymbols(items) <==> exists it :: it in items && it.pos < |it.body| && it.body[it.pos] == x
  {
    if items != [] {
      var init := items[..|items| - 1];
      var last := items[|items| - 1];
      NextSymbolsItems(init);
      assert items == init + [last];
      forall x | exists it :: it in items && it.pos < |it.body| && it.body[it.pos] == x
        ensures x in NextSymbols(items)
      {
        var it :| it in items && it.pos < |it.body| && it.body[it.pos] == x;
        if it != last {
          assert it in init;
        }
      }
    }
  }

  /** Every item of a built state has its lookahead among the terminals and the end-marker. */
  lemma StateBounded(p: LR1, st: nat)
    requires p.Valid() && st < |p.states|
    ensures forall it :: it in p.states[st] ==> it.laset <= Terms(p.grammar)
  {
    assert Good(p.grammar, p.states[st]);
    forall it | it in p.states[st] ensures it.laset <= Terms(p.grammar) {
      var j :| 0 <= j < |p.states[st]| && p.states[st][j] == it;
      assert Possible(p.grammar, p.states[st][j]);
    }
  }

  /**
   * Where the entries of a cell come from: a reduce entry from a complete
   * item whose lookahead holds the column, a shift to the closure of the
   * kernel of the column, which follows some dot.
   */
  lemma CellEntries(p: LR1, st: nat, a: Symbol)
    requires p.Valid() && st < |p.states|
    ensures st in p.table
    ensures forall e :: e in Cell(p.table[st], a) && e.Reduce? ==>
              exists it :: it in p.states[st] && Complete(it) && a in it.laset && e == Reduce(it.head, it.body)
    ensures forall e :: e in Cell(p.table[st], a) && e.Shift? ==>
              && a in NextSymbols(p.states[st]) && e.target < |p.states|
              && p.states[e.target] == Closure(p.grammar, p.tables, Advanced(p.states[st], a))
    ensures forall i, j :: 0 <= i < j < |Cell(p.table[st], a)| ==>
              !(Cell(p.table[st], a)[i].Shift? && Cell(p.table[st], a)[j].Shift?)
  {
    var g, t, s := p.grammar, p.tables, p.states[st];
    assert RowOf(g, t, p.states, st, p.table[st]);
    assert CellOf(g, t, p.states, st, p.table[st], a);
    var cell := Cell(p.table[st], a);
    var r := Reduces(s, a);
    ReducesItems(s, a);
    assert forall e :: e in r ==> e.Reduce?;
    if a in NextSymbols(s) {
      var id: nat :| id < |p.states| && p.states[id] == Closure(g, t, Advanced(s, a)) && cell == r + [Shift(id)];
      forall e | e in cell && e.Shift? ensures e == Shift(id) {
        assert e in r || e == Shift(id);
      }
      forall i, j | 0 <= i < j < |cell| ensures !(cell[i].Shift? && cell[j].Shift?) {
        assert cell[i] in r;
      }
    } else {
      forall i, j | 0 <= i < j < |cell| ensures !(cell[i].Shift? && cell[j].Shift?) {
        assert cell[i] in r;
      }
    }
  }

  /**
   * The shape of the LR(1) table (parser.py:241-262): reduce entries sit
   * only in columns of terminals or the end-marker, each cell holds at most
   * one shift, and the column of a nonterminal holds shifts only, so at
   * most one entry.
   */
  lemma TableShape(p: LR1, st: nat, a: Symbol)
    requires p.Valid() && st in p.table
    ensures forall e :: e in Cell(p.table[st], a) && e.Reduce? ==> a in Terms(p.grammar) && a != EPSILON
    ensures forall i, j :: 0 <= i < j < |Cell(p.table[st], a)| ==>
              !(Cell(p.table[st], a)[i].Shift? && Cell(p.table[st], a)[j].Shift?)
    ensures a in p.grammar.nonTerminals ==> forall e :: e in Cell(p.table[st], a) ==> e.Shift?
  {
    assert Tabled(p.grammar, p.tables, p.states, p.table, |p.states|);
    CellEntries(p, st, a);
    StateBounded(p, st);
    forall e | e in Cell(p.table[st], a) && e.Reduce? ensures a in Terms(p.grammar) && a != EPSILON {
      var it :| it in p.states[st] && Complete(it) && a in it.laset && e == Reduce(it.head, it.body);
    }
  }

  // ---------------------------------------------------------------------
  // Viable stacks
  // ---------------------------------------------------------------------

  /** Every fresh item of a state (dot at the start, not the start item) was brought in by an item with its head after the dot. */
  ghost predicate Rooted(s: seq<Item>) {
    forall it :: it in s && it.pos == 0 && it.head != START ==> it.head in NextSymbols(s)
  }

  /** The start item with the dot at the start is not in s. */
  predicate NoStart(s: seq<Item>) {
    forall it :: it in s ==> !(it.head == START && it.pos == 0)
  }

  /**
   * Item `it` of the state at stack position i matches the stacks: the
   * symbols before its dot are the top of the symbol stack below i, and the
   * state where they start holds the item with the dot at the start.
   */
  ghost predicate Fits(states: seq<seq<Item>>, ststack: seq<nat>, symstack: seq<Symbol>, i: nat, it: Item)
    requires i < |ststack| && |ststack| == |symstack| + 1
  {
    && it.pos <= |it.body| && it.pos <= i
    && symstack[i - it.pos..i] == it.body[..it.pos]
    && ststack[i - it.pos] < |states|
    && Item(it.head, it.body, 0, it.laset) in states[ststack[i - it.pos]]
  }

  /** Position i of the stacks holds a state all of whose items fit. */
  ghost predicate Slot(states: seq<seq<Item>>, ststack: seq<nat>, symstack: seq<Symbol>, i: nat)
    requires i < |ststack| && |ststack| == |symstack| + 1
  {
    && ststack[i] < |states|
    && Rooted(states[ststack[i]])
    && (i > 0 ==> NoStart(states[ststack[i]]))
    && forall it :: it in states[ststack[i]] ==> Fits(states, ststack, symstack, i, it)
  }

  /** Every position of the stacks fits. */
  ghost predicate Prefix(states: seq<seq<Item>>, ststack: seq<nat>, symstack: seq<Symbol>) {
    |ststack| == |symstack| + 1 && forall i :: 0 <= i < |ststack| ==> Slot(states, ststack, symstack, i)
  }

  /** The stacks of a configuration describe a viable prefix of the automaton. */
  ghost predicate Viable(states: seq<seq<Item>>, c: Config) {
    Stacks(c) && Prefix(states, c.ststack, c.symstack)
  }

  /** A position of the stacks keeps fitting when only what lies above it changes. */
  lemma SlotKeep(states: seq<seq<Item>>, ststack: seq<nat>, symstack: seq<Symbol>,
                 ststack': seq<nat>, symstack': seq<Symbol>, i: nat)
    requires |ststack| == |symstack| + 1 && |ststack'| == |symstack'| + 1
    requires i < |ststack| && i < |ststack'|
    requires ststack[..i + 1] == ststack'[..i + 1] && symstack[..i] == symstack'[..i]
    requires Slot(states, ststack, symstack, i)
    ensures Slot(states, ststack', symstack', i)
  {
    assert ststack'[i] == ststack[i];
    forall it | it in states[ststack[i]] ensures Fits(states, ststack', symstack', i, it) {
      assert Fits(states, ststack, symstack, i, it);
      var j := i - it.pos;
      assert ststack'[j] == ststack[j];
      assert symstack'[j..i] == symstack[..i][j..] == symstack[j..i];
    }
  }

  /** The items closureOf adds to a kernel bring in fresh items only, for nonterminals after some dot. */
  lemma ClosureFresh(g: Grammar, t: Tables, kernel: seq<Item>)
    requires WellFormed(g)
    ensures forall it :: it in Closure(g, t, kernel) && it !in kernel ==>
              it.pos == 0 && it.head in g.nonTerminals && it.head in NextSymbols(Closure(g, t, kernel))
  {
    var c := Closure(g, t, kernel);
    var tr := Triggers(g, c);
    ClosureShape(g, t, kernel);
    TriggersIn(g, c);
    NextSymbolsItems(c);
    forall it | it in c && it !in kernel ensures it.pos == 0 && it.head in g.nonTerminals && it.head in NextSymbols(c) {
      FreshItem(g, t, kernel, c, tr, it);
    }
  }

  /** One added item: it starts a body of a nonterminal that follows the dot of an item of the closure. */
  lemma FreshItem(g: Grammar, t: Tables, kernel: seq<Item>, c: seq<Item>, tr: seq<Item>, it: Item)
    requires c == kernel + ExpandAll(g, t, tr)
    requires forall k :: 0 <= k < |tr| ==> tr[k] in c
    requires it in c && it !in kernel
    ensures it.pos == 0 && it.head in g.nonTerminals
    ensures exists e :: e in c && e.pos < |e.body| && e.body[e.pos] == it.head
  {
    AddedSound(g, t, kernel, c, tr);
    var added := c[|kernel|..];
    assert c == kernel + added;
    var m :| 0 <= m < |added| && added[m] == it;
    var j := |kernel| + m;
    assert c[j] == it;
    var k :| 0 <= k < |tr| && Brings(g, t, tr[k], c[j]);
    assert tr[k] in c;
  }

  /**
   * A shift or a goto over x pushes the closure of the kernel of x of the
   * state on top; the new top fits on the stacks.
   */
  lemma PushSlot(g: Grammar, t: Tables, states: seq<seq<Item>>, ststack: seq<nat>, symstack: seq<Symbol>,
                 x: Symbol, target: nat)
    requires WellFormed(g)
    requires |ststack| == |symstack| + 1 && Slot(states, ststack, symstack, |ststack| - 1)
    requires target < |states| && states[target] == Closure(g, t, Advanced(states[ststack[|ststack| - 1]], x))
    ensures Slot(states, ststack + [target], symstack + [x], |ststack|)
  {
    var n := |ststack|;
    var s := states[ststack[n - 1]];
    var kernel := Advanced(s, x);
    var c := states[target];
    var ststack', symstack' := ststack + [target], symstack + [x];
    ClosureFresh(g, t, kernel);
    AdvancedFrom(s, x);
    assert START !in g.nonTerminals;
    forall it | it in kernel ensures it.pos > 0 {
      var it0 :| it0 in s && it0.pos < |it0.body| && it0.body[it0.pos] == x && it == Advance(it0);
    }
    forall it | it in c ensures Fits(states, ststack', symstack', n, it) {
      if it in kernel {
        var it0 :| it0 in s && it0.pos < |it0.body| && it0.body[it0.pos] == x && it == Advance(it0);
        assert Fits(states, ststack, symstack, n - 1, it0);
        KernelFits(states, ststack, symstack, target, x, it0);
      } else {
        FreshFits(states, ststack', symstack', n, it);
      }
    }
  }

  /** An item advanced over the pushed symbol fits one position higher. */
  lemma KernelFits(states: seq<seq<Item>>, ststack: seq<nat>, symstack: seq<Symbol>, target: nat, x: Symbol, it: Item)
    requires |ststack| == |symstack| + 1 && Fits(states, ststack, symstack, |ststack| - 1, it)
    requires it.pos < |it.body| && it.body[it.pos] == x
    ensures Fits(states, ststack + [target], symstack + [x], |ststack|, Advance(it))
  {
    var n := |ststack|;
    var j := n - 1 - it.pos;
    assert (ststack + [target])[j] == ststack[j];
    calc {
      (symstack + [x])[j..n];
      symstack[j..n - 1] + [x];
      it.body[..it.pos] + [it.body[it.pos]];
      it.body[..it.pos + 1];
    }
  }

  /** An item with the dot at the start fits wherever its state is. */
  lemma FreshFits(states: seq<seq<Item>>, ststack: seq<nat>, symstack: seq<Symbol>, i: nat, it: Item)
    requires |ststack| == |symstack| + 1 && i < |ststack| && ststack[i] < |states|
    requires it.pos == 0 && it in states[ststack[i]]
    ensures Fits(states, ststack, symstack, i, it)
  {
    assert Item(it.head, it.body, 0, it.laset) == it;
  }

  /** Popping keeps the rest of the stacks fitting. */
  lemma PopPrefix(states: seq<seq<Item>>, ststack: seq<nat>, symstack: seq<Symbol>, k: nat)
    requires Prefix(states, ststack, symstack) && 1 <= k <= |ststack|
    ensures Prefix(states, ststack[..k], symstack[..k - 1])
  {
    var ststack', symstack' := ststack[..k], symstack[..k - 1];
    forall i | 0 <= i < k ensures Slot(states, ststack', symstack', i) {
      assert Slot(states, ststack, symstack, i);
      assert ststack'[..i + 1] == ststack[..i + 1];
      assert symstack'[..i] == symstack[..i];
      SlotKeep(states, ststack, symstack, ststack', symstack', i);
    }
  }

  /** Pushing the closure of the kernel of x of the top state keeps the stacks fitting. */
  lemma PushPrefix(g: Grammar, t: Tables, states: seq<seq<Item>>, ststack: seq<nat>, symstack: seq<Symbol>,
                   x: Symbol, target: nat)
    requires WellFormed(g) && Prefix(states, ststack, symstack) && ststack != [] && ststack[|ststack| - 1] < |states|
    requires target < |states| && states[target] == Closure(g, t, Advanced(states[ststack[|ststack| - 1]], x))
    ensures Prefix(states, ststack + [target], symstack + [x])
  {
    var n := |ststack|;
    forall i | 0 <= i < n + 1 ensures Slot(states, ststack + [target], symstack + [x], i) {
      if i < n {
        assert (ststack + [target])[..i + 1] == ststack[..i + 1];
        assert (symstack + [x])[..i] == symstack[..i];
        SlotKeep(states, ststack, symstack, ststack + [target], symstack + [x], i);
      } else {
        PushSlot(g, t, states, ststack, symstack, x, target);
      }
    }
  }

  /** No complete item of a built state has x in its lookahead: its column has no reduce entries. */
  lemma {:induction false} ReducesNone(items: seq<Item>, x: Symbol)
    requires forall it :: it in items ==> x !in it.laset
    ensures Reduces(items, x) == []
  {
    if items != [] {
      ReducesNone(items[..|items| - 1], x);
    }
  }

  /**
   * The facts about a cell that a run relies on: reduce entries come from
   * complete items with the column in their lookahead, shifts go to the
   * closure of the kernel of the column, and the column of a nonterminal
   * after some dot is a single shift.
   */
  ghost predicate Entries(g: Grammar, t: Tables, states: seq<seq<Item>>, table: map<nat, Row>, st: nat, a: Symbol)
    requires st < |states| && st in table
  {
    && (forall e :: e in Cell(table[st], a) && e.Reduce? ==>
          exists it :: it in states[st] && Complete(it) && a in it.laset && e == Reduce(it.head, it.body))
    && (forall e :: e in Cell(table[st], a) && e.Shift? ==>
          e.target < |states| && states[e.target] == Closure(g, t, Advanced(states[st], a)))
    && (a in g.nonTerminals && a in NextSymbols(states[st]) ==>
          exists id: nat :: id < |states| && states[id] == Closure(g, t, Advanced(states[st], a))
                            && Cell(table[st], a) == [Shift(id)])
  }

  /** What a run needs of a built automaton: a row for every state, cells as above, possible items only. */
  ghost predicate Sound(g: Grammar, t: Tables, states: seq<seq<Item>>, table: map<nat, Row>) {
    && WellFormed(g)
    && (forall st: nat :: st < |states| ==> st in table)
    && (forall st: nat, a :: st < |states| && st in table ==> Entries(g, t, states, table, st, a))
    && (forall st: nat, it :: st < |states| && it in states[st] ==> Possible(g, it))
  }

  lemma ValidSound(p: LR1)
    requires p.Valid()
    ensures Sound(p.grammar, p.tables, p.states, p.table)
  {
    var g, t, states, table := p.grammar, p.tables, p.states, p.table;
    forall st: nat, a | st < |states| && st in table ensures Entries(g, t, states, table, st, a) {
      CellEntries(p, st, a);
      if a in g.nonTerminals && a in NextSymbols(states[st]) {
        StateBounded(p, st);
        ReducesNone(states[st], a);
        assert RowOf(g, t, states, st, table[st]);
        assert CellOf(g, t, states, st, table[st], a);
      }
    }
    forall st: nat, it | st < |states| && it in states[st] ensures Possible(g, it) {
      assert Good(g, states[st]);
      var k :| 0 <= k < |states[st]| && states[st][k] == it;
      assert Possible(g, states[st][k]);
    }
  }

  /** A shift of a viable configuration keeps it viable. */
  lemma ShiftViable(g: Grammar, t: Tables, states: seq<seq<Item>>, table: map<nat, Row>, c: Config, a: Symbol, target: nat)
    requires Sound(g, t, states, table) && Viable(states, c) && c.st in table
    requires Shift(target) in Cell(table[c.st], a)
    ensures Prefix(states, c.ststack + [target], c.symstack + [a])
  {
    assert Slot(states, c.ststack, c.symstack, |c.ststack| - 1);
    assert Entries(g, t, states, table, c.st, a);
    PushPrefix(g, t, states, c.ststack, c.symstack, a, target);
  }

  /**
   * A reduction that a viable configuration's table offers succeeds: the
   * body is on the stacks, and the uncovered state has a single shift in
   * the column of the head.
   */
  lemma ReduceViable(g: Grammar, t: Tables, states: seq<seq<Item>>, table: map<nat, Row>,
                     c: Config, a: Symbol, head: Symbol, body: seq<Symbol>)
    requires Sound(g, t, states, table) && Viable(states, c) && c.st in table
    requires Reduce(head, body) in Cell(table[c.st], a) && head != START
    ensures Reduction(table, c, head, body).Continue?
    ensures Viable(states, Reduction(table, c, head, body).next)
  {
    ReduceGoto(g, t, states, table, c, a, head, body);
    var j := |c.ststack| - 1 - |body|;
    var top := c.ststack[j];
    var id: nat :| id < |states| && states[id] == Closure(g, t, Advanced(states[top], head)) && Cell(table[top], head) == [Shift(id)];
    var ststack := c.ststack[..j + 1];
    var symstack := c.symstack[..j];
    ReductionGoto(table, c, head, body, id);
    assert ststack[|ststack| - 1] == top;
    PopPrefix(states, c.ststack, c.symstack, j + 1);
    PushPrefix(g, t, states, ststack, symstack, head, id);
    var next := Config(id, ststack + [id], symstack + [head], c.ahead, c.rest);
    assert Stacks(next);
  }

  /**
   * The body of an offered reduction is on the stacks, and the state it
   * uncovers has the head after a dot, so a single shift in its column.
   */
  lemma ReduceGoto(g: Grammar, t: Tables, states: seq<seq<Item>>, table: map<nat, Row>,
                   c: Config, a: Symbol, head: Symbol, body: seq<Symbol>)
    requires Sound(g, t, states, table) && Viable(states, c) && c.st in table
    requires Reduce(head, body) in Cell(table[c.st], a) && head != START
    ensures |body| < |c.ststack|
    ensures var top := c.ststack[|c.ststack| - 1 - |body|];
      && top < |states| && top in table
      && exists id: nat :: id < |states| && states[id] == Closure(g, t, Advanced(states[top], head))
                           && Cell(table[top], head) == [Shift(id)]
  {
    var start := ReduceUncovers(g, t, states, table, c, a, head, body);
    var top := c.ststack[|c.ststack| - 1 - |body|];
    GotoOf(g, t, states, table, top, start);
  }

  /** The reduced item fits: its body is on the stacks, above a state holding its start item. */
  lemma ReduceUncovers(g: Grammar, t: Tables, states: seq<seq<Item>>, table: map<nat, Row>,
                       c: Config, a: Symbol, head: Symbol, body: seq<Symbol>) returns (start: Item)
    requires Sound(g, t, states, table) && Viable(states, c) && c.st in table
    requires Reduce(head, body) in Cell(table[c.st], a)
    ensures |body| < |c.ststack|
    ensures var j := |c.ststack| - 1 - |body|;
      && Slot(states, c.ststack, c.symstack, j)
      && start in states[c.ststack[j]] && start.head == head && start.pos == 0
  {
    var n := |c.ststack|;
    assert Slot(states, c.ststack, c.symstack, n - 1);
    assert Entries(g, t, states, table, c.st, a);
    var it :| it in states[c.st] && Complete(it) && a in it.laset && Reduce(head, body) == Reduce(it.head, it.body);
    assert Fits(states, c.ststack, c.symstack, n - 1, it);
    var j := n - 1 - |body|;
    assert Slot(states, c.ststack, c.symstack, j);
    start := Item(head, body, 0, it.laset);
  }

  /** A start item of a nonterminal in a rooted state gives that state a single goto over it. */
  lemma GotoOf(g: Grammar, t: Tables, states: seq<seq<Item>>, table: map<nat, Row>, top: nat, start: Item)
    requires Sound(g, t, states, table) && top < |states| && Rooted(states[top])
    requires start in states[top] && start.pos == 0 && start.head != START
    ensures top in table
    ensures exists id: nat :: id < |states| && states[id] == Closure(g, t, Advanced(states[top], start.head))
                             && Cell(table[top], start.head) == [Shift(id)]
  {
    assert start.head in NextSymbols(states[top]);
    assert Possible(g, start);
    assert START !in g.nonTerminals;
    assert start.head in g.nonTerminals;
    assert Entries(g, t, states, table, top, start.head);
  }

  /** A reduction whose body fits on the stacks follows the single goto of the uncovered state. */
  lemma ReductionGoto(table: map<nat, Row>, c: Config, head: Symbol, body: seq<Symbol>, id: nat)
    requires |c.ststack| == |c.symstack| + 1 && |body| < |c.ststack| && head != START
    requires c.ststack[|c.ststack| - 1 - |body|] in table
    requires Cell(table[c.ststack[|c.ststack| - 1 - |body|]], head) == [Shift(id)]
    ensures var j := |c.ststack| - 1 - |body|;
      Reduction(table, c, head, body) == Continue(Config(id, c.ststack[..j + 1] + [id], c.symstack[..j] + [head], c.ahead, c.rest))
  {
  }

  /** The accepting reduction is offered only with [startSymbol] on the symbol stack, in the column of EOF. */
  lemma AcceptViable(g: Grammar, t: Tables, states: seq<seq<Item>>, table: map<nat, Row>, c: Config, a: Symbol, body: seq<Symbol>)
    requires Sound(g, t, states, table) && Viable(states, c) && c.st in table
    requires Reduce(START, body) in Cell(table[c.st], a)
    ensures c.symstack == [g.startSymbol] && a == EOF
  {
    assert Slot(states, c.ststack, c.symstack, |c.ststack| - 1);
    var it := AcceptItem(g, t, states, table, c.st, a, body);
    StartOnly(states, c.ststack, c.symstack, it);
  }

  /** The item behind an accepting entry is S0 → startSymbol . with lookahead {EOF}, in the EOF column. */
  lemma AcceptItem(g: Grammar, t: Tables, states: seq<seq<Item>>, table: map<nat, Row>, st: nat, a: Symbol,
                   body: seq<Symbol>) returns (it: Item)
    requires Sound(g, t, states, table) && st < |states| && st in table
    requires Reduce(START, body) in Cell(table[st], a)
    ensures it in states[st] && it.head == START && it.body == [g.startSymbol] && it.pos == 1 && a == EOF
  {
    assert Entries(g, t, states, table, st, a);
    it :| it in states[st] && Complete(it) && a in it.laset && Reduce(START, body) == Reduce(it.head, it.body);
    assert Possible(g, it);
    assert START !in g.nonTerminals;
    assert it.body == [g.startSymbol] && it.pos == 1 && it.laset == {EOF};
  }

  /** A state on top holding S0 → startSymbol . sits right above the bottom: the symbol stack is [startSymbol]. */
  lemma StartOnly(states: seq<seq<Item>>, ststack: seq<nat>, symstack: seq<Symbol>, it: Item)
    requires Prefix(states, ststack, symstack)
    requires Slot(states, ststack, symstack, |ststack| - 1)
    requires it in states[ststack[|ststack| - 1]] && it.head == START && |it.body| == 1 && it.pos == 1
    ensures symstack == it.body
  {
    var n := |ststack|;
    assert Fits(states, ststack, symstack, n - 1, it);
    assert Slot(states, ststack, symstack, n - 2);
    assert n == 2;
    OnlySymbol(symstack, it.body);
  }

  lemma OnlySymbol(xs: seq<Symbol>, body: seq<Symbol>)
    requires |xs| == 1 && |body| == 1 && xs[0..1] == body[..1]
    ensures xs == body
  {
    assert xs == xs[0..1] && body == body[..1];
  }

  /**
   * One round from a viable configuration: it stays viable, it never
   * crashes nor finds the table inconsistent, and it accepts only with the
   * start symbol alone on the symbol stack and EOF as the lookahead.
   */
  lemma StepViable(g: Grammar, t: Tables, states: seq<seq<Item>>, table: map<nat, Row>, c: Config)
    requires Sound(g, t, states, table) && Viable(states, c)
    ensures Step(table, c).Continue? ==> Viable(states, Step(table, c).next)
    ensures Step(table, c).Stop? ==> Step(table, c).outcome in {Accept, Reject, Conflict}
    ensures Step(table, c) == Stop(Accept) ==> c.symstack == [g.startSymbol] && c.ahead == Some(EOF)
  {
    assert Slot(states, c.ststack, c.symstack, |c.ststack| - 1);
    assert c.st in table;
    StepStops(table, c);
    if c.ahead.Some? && Cell(table[c.st], c.ahead.value) != [] {
      var a := c.ahead.value;
      match Choose(Cell(table[c.st], a))
      case None =>
      case Some(Shift(target)) =>
        StepShifts(table, c, target);
        if a != "" {
          ShiftViable(g, t, states, table, c, a, target);
        }
      case Some(Reduce(head, body)) =>
        StepReduces(table, c, head, body);
        if head == START {
          AcceptViable(g, t, states, table, c, a, body);
        } else {
          ReduceViable(g, t, states, table, c, a, head, body);
        }
    }
  }

  /** The rounds that leave the loop before acting: no lookahead or an empty cell, and an unresolved cell. */
  lemma StepStops(table: map<nat, Row>, c: Config)
    requires c.st in table
    ensures c.ahead.None? || Cell(table[c.st], c.ahead.value) == [] ==> Step(table, c) == Stop(Reject)
    ensures c.ahead.Some? && Cell(table[c.st], c.ahead.value) != [] && Choose(Cell(table[c.st], c.ahead.value)).None? ==>
              Step(table, c) == Stop(Conflict)
  {
  }

  /** A round that takes a shift pushes the target and the lookahead and reads the next one, unless the lookahead is the empty string. */
  lemma StepShifts(table: map<nat, Row>, c: Config, target: nat)
    requires c.st in table && c.ahead.Some? && Cell(table[c.st], c.ahead.value) != []
    requires Choose(Cell(table[c.st], c.ahead.value)) == Some(Shift(target))
    ensures c.ahead == Some("") ==> Step(table, c) == Stop(Reject)
    ensures c.ahead != Some("") ==>
              Step(table, c) == Continue(Config(target, c.ststack + [target], c.symstack + [c.ahead.value],
                                                Read(c.rest).0, Read(c.rest).1))
  {
  }

  /** A round that takes a reduction accepts on START and otherwise reduces. */
  lemma StepReduces(table: map<nat, Row>, c: Config, head: Symbol, body: seq<Symbol>)
    requires c.st in table && c.ahead.Some? && Cell(table[c.st], c.ahead.value) != []
    requires Choose(Cell(table[c.st], c.ahead.value)) == Some(Reduce(head, body))
    ensures Step(table, c) == if head == START then Stop(Accept) else Reduction(table, c, head, body)
  {
  }

  /** Runs from a viable configuration end in a viable one. */
  lemma {:induction false} RunViable(g: Grammar, t: Tables, states: seq<seq<Item>>, table: map<nat, Row>, c: Config, fuel: nat)
    requires Sound(g, t, states, table) && Viable(states, c)
    ensures Viable(states, Run(table, c, fuel).last)
    decreases fuel
  {
    if fuel > 0 && Step(table, c).Continue? {
      StepViable(g, t, states, table, c);
      RunViable(g, t, states, table, Step(table, c).next, fuel - 1);
    }
  }

  // ---------------------------------------------------------------------
  // Reading the input
  // ---------------------------------------------------------------------

  /** EOF is read last: it is not in the unread input before its end, and once it is the lookahead nothing is left. */
  predicate ReadOrder(c: Config) {
    && (c.rest != [] ==> EOF !in c.rest[..|c.rest| - 1])
    && (c.ahead == Some(EOF) ==> c.rest == [])
  }

  lemma StepOrder(table: map<nat, Row>, c: Config)
    requires ReadOrder(c)
    ensures Step(table, c).Continue? ==> ReadOrder(Step(table, c).next)
  {
    var r := Step(table, c);
    if r.Continue? && r.next.rest != c.rest && c.rest != [] {
      assert r.next.rest == c.rest[1..];
      assert r.next.ahead == Some(c.rest[0]);
      if r.next.rest != [] {
        assert r.next.rest[..|r.next.rest| - 1] == c.rest[..|c.rest| - 1][1..];
      }
      assert |c.rest| > 1 ==> c.rest[0] in c.rest[..|c.rest| - 1];
    }
  }

  lemma {:induction false} RunOrder(table: map<nat, Row>, c: Config, fuel: nat)
    requires ReadOrder(c)
    ensures ReadOrder(Run(table, c, fuel).last)
    decreases fuel
  {
    if fuel > 0 && Step(table, c).Continue? {
      StepOrder(table, c);
      RunOrder(table, Step(table, c).next, fuel - 1);
    }
  }

  /** The input with EOF appended is read in order when the tokens do not contain EOF themselves. */
  lemma InitialOrder(tokens: seq<Symbol>)
    requires EOF !in tokens
    ensures ReadOrder(Initial(tokens))
  {
    var input := tokens + [EOF];
    var c := Initial(tokens);
    if c.rest != [] {
      assert c.rest[..|c.rest| - 1] == tokens[1..];
    }
    if tokens != [] {
      assert input[0] == tokens[0];
    }
  }

  /**
   * What a run of parse on a table built by __init__ ends in: never a
   * KeyError, TypeError or IndexError and never an inconsistent goto, so
   * only acceptance, rejection, an unresolved conflict or the end of the
   * fuel; an accepting run has the start symbol alone on the symbol stack
   * and EOF as the lookahead, and when the tokens do not contain EOF
   * themselves it has read the whole input.
   */
  lemma ParseOutcomes(p: LR1, tokens: seq<Symbol>, fuel: nat)
    requires p.Valid()
    ensures var h := Run(p.table, Initial(tokens), fuel);
      && h.outcome in {Accept, Reject, Conflict, OutOfFuel}
      && (h.outcome == Accept ==>
            && h.last.symstack == [p.grammar.startSymbol] && h.last.ahead == Some(EOF)
            && (EOF !in tokens ==> h.last.rest == []))
  {
    var c := Initial(tokens);
    var h := Run(p.table, c, fuel);
    InitialViable(p, tokens);
    ValidSound(p);
    RunViable(p.grammar, p.tables, p.states, p.table, c, fuel);
    RunLast(p.table, c, fuel);
    StepViable(p.grammar, p.tables, p.states, p.table, h.last);
    if EOF !in tokens {
      InitialOrder(tokens);
      RunOrder(p.table, c, fuel);
    }
  }

  /** The configuration before the first round is viable. */
  lemma InitialViable(p: LR1, tokens: seq<Symbol>)
    requires p.Valid()
    ensures Viable(p.states, Initial(tokens))
  {
    var c := Initial(tokens);
    var s := p.states[0];
    ClosureFresh(p.grammar, p.tables, [StartItem(p.grammar)]);
    forall it | it in s ensures Fits(p.states, c.ststack, c.symstack, 0, it) {
      if it != StartItem(p.grammar) {
        assert Item(it.head, it.body, 0, it.laset) == it;
      }
    }
    assert Slot(p.states, c.ststack, c.symstack, 0);
  }
}
