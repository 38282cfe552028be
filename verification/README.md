# An LR parser generator, modelled in Dafny

This project models a small Python parser generator: `grammar.py` and `parser.py`.

- **Grammar analysis.** `Grammar.analyze` computes the nullable symbols and the FIRST and FOLLOW sets of a context-free grammar. It uses three monotone `while update` loops.
- **LR(0).** `LR0.closureOf` closes an item list. `LR0.__init__` builds the canonical collection breadth-first, with one action per state: a reduce handle or a shift map. `LR0.parse` runs the shift-reduce machine.
- **LR(1).** `LR1.closureOf` adds lookaheads. `LR1.__init__` builds a table whose cells are lists of entries. `LR1.parse` resolves a two-entry shift/reduce cell as the shift.

The files:

- `grammar.dfy` (module `Grammars`) holds the grammar datatype, the helpers and the three fixpoint loops.
  - Each fixpoint is a method whose loop is proved against a rule system: nullable, FIRST or FOLLOW.
  - Each result satisfies every rule of its system (it is closed), and it lies below every other solution (it is the least one).
  - Termination is measured by the nonterminals not yet nullable, and by the (symbol, terminal) pairs still missing from FIRST or FOLLOW.
- `lr0.dfy` (module `Lr0`) holds the LR(0) model.
  - Items are a datatype.
  - `closureOf` is proved against a reference function `Closure`, which scans the item list once, in order.
  - The class `LR0` has the fields `__init__` fills: `states`, `st2id` and `actions`. Its constructor runs the `newstates` worklist.
  - `Parse` runs the loop. Its rounds are specified by a function `Step`.
- `lr1.dfy` (module `Lr1`) holds the LR(1) counterparts. The class `LR1` has the fields `states`, `st2id` and `table`.
- `lr1_run.dfy` (module `Lr1Run`) proves what a run of `LR1.parse` on a built table can end in.
  - The stacks always spell a viable prefix of the automaton.
  - So the pops and the goto lookups never fail.
  - An accepting run has reduced the input to the start symbol alone.
- `outcome.dfy` (module `Outcomes`) lists how a parse ends.
  - `Accept` returns 0.
  - `Reject`, `Inconsistent` and `Conflict` all return 1; `ReturnCode` maps each outcome to the value `parse` returns.
  - `Crash` means a Python exception escapes `parse`.
- `registry.dfy` (module `Registry`) holds what both builders share: the list of states, the `st2id` index and the `newstates` queue.
- `finite.dfy` (module `Finite`) holds the finiteness facts behind the termination of both worklists.
  - A state is a duplicate-free list of possible items.
  - Only finitely many such lists exist, and `st2id` gains a new one on every round that adds a state.

State identity follows the source. States are deduplicated by their rendered, ordered item list, so two states are the same when their item sequences are equal: order counts, and so does the lookahead set in LR(1).

Both closures expand each nonterminal at most once per call.
- LR(0) drops a `[ε]` body.
- LR(1) turns it into `[]`, and a later item with the same nonterminal after its dot contributes no lookahead.

## Model

| member | source | states |
|---|---|---|
| Grammars.AllIn | grammar.py:75 | `all(sym in s for sym in xs)` holds exactly when every element of xs is in s |
| Grammars.AllNullable | grammar.py:38-39 | allNullable(xs) holds iff every element is nullable; it holds for the empty sequence |
| Grammars.FirstOfAll | grammar.py:44-50 | the loop with `break` returns FIRST of the sequence: the union of FIRST(xs[k]) over the positions k whose prefix is all nullable; {} for [], exactly FIRST(xs[0]) when the head is not nullable |
| Grammars.ProductOf | grammar.py:26-30 | productOf returns bodies exactly for a nonterminal and None otherwise; every symbol of a returned body is declared |
| Grammars.Len | grammar.py:23-24 | `__len__` counts the production rules, one per (nonterminal, body index) pair |
| Grammars.FirstOfSeqMembers | grammar.py:88-96 | a terminal is in FIRST of a sequence iff it is in FIRST of some element reached through nullable symbols only |
| Grammars.FirstOfSeqMonotone | grammar.py:88-101 | FIRST of a body can only grow when the FIRST map grows, which keeps every pass of the loop below the least solution |
| Grammars.Analyze | grammar.py:67-128 | after `analyze`: ε is nullable and nullable ⊆ nonterminals ∪ {ε}; FIRST(t) = {t} for each terminal; FIRST and FOLLOW hold only terminals and never `$`; each table satisfies its rules and is the least table that does |
| Grammars.ComputeNullable | grammar.py:68-78 | the nullable set contains ε, is closed under "some body is all nullable", holds only nonterminals that have such a body, and lies inside every closed set containing ε |
| Grammars.ComputeFirst | grammar.py:80-106 | FIRST has an entry for every declared symbol, FIRST(t) = {t} for terminals, only terminals are in it, FIRST(rhs) ⊆ FIRST(nt) for every production, and it is the least such map |
| Grammars.FirstPass | grammar.py:84-101 | one pass keeps FIRST below every solution and strictly adds a missing pair when it reports an update; a pass without update leaves FIRST closed |
| Grammars.FirstOfBody | grammar.py:88-96 | the `cascade` loop computes FIRST of the body under the current tables |
| Grammars.FirstAddPreserves | grammar.py:98-101 | adding FIRST(rhs) to FIRST(nt) keeps the map below every solution and counts as progress |
| Grammars.ComputeFollow | grammar.py:108-128 | FOLLOW has an entry for every declared symbol, holds only terminals, satisfies both FOLLOW rules at every position of every body, and is the least such map |
| Grammars.FollowPass | grammar.py:112-127 | one pass keeps FOLLOW below every solution and makes progress when it reports an update; a pass without update leaves FOLLOW closed |
| Grammars.FollowNonterminal | grammar.py:115-127 | the loop over the bodies of one nonterminal: without an update, both FOLLOW rules hold for all its bodies |
| Grammars.FollowBody | grammar.py:116-127 | the loop over the positions of one body: without an update, both FOLLOW rules hold at each position |
| Grammars.FollowPosition | grammar.py:117-127 | without an update, both FOLLOW rules hold at position i |
| Grammars.FollowTail | grammar.py:119-122 | without an update, FOLLOW(nt) ⊆ FOLLOW(rhs[i]) when rhs[i+1:] is all nullable |
| Grammars.FollowFirsts | grammar.py:123-127 | without an update, FIRST(rhs[j]) ⊆ FOLLOW(rhs[i]) for every j > i with rhs[i+1:j] all nullable |
| Grammars.FollowAddPreserves | grammar.py:119-127 | adding to FOLLOW(sym) a set that every solution puts there keeps the map below every solution and counts as progress |
| Grammars.TailRule | grammar.py:119-122 | in every FOLLOW solution, FOLLOW(nt) ⊆ FOLLOW(rhs[i]) when the rest of the body is nullable |
| Grammars.FirstRule | grammar.py:123-127 | in every FOLLOW solution, FIRST(rhs[j]) ⊆ FOLLOW(rhs[i]) when the symbols between are nullable |
| Registry.AddTarget | parser.py:73-82 | a closure already in `st2id` reuses its id and changes nothing; otherwise it becomes the next state, gets the next id and is queued (the same steps as parser.py:253-260 for LR(1)) |
| Registry.IndexedGrow | parser.py:75-81 | appending states to the registry only adds keys to `st2id`: none when no state is added, some otherwise, which is the progress of the worklist |
| Lr0.ClosureOf | parser.py:88-115 | closureOf returns the reference closure: its input followed by the expansions of the nonterminals its scan meets |
| Lr0.AppendExpansion | parser.py:107-113 | the loop over the bodies of x appends (x, rhs, 0) for each body other than [ε], and sets `update` iff x has a body |
| Lr0.ClosureShape | parser.py:88-115 | the closure is the input followed by the expansions, in scan order, of the nonterminals found after a dot |
| Lr0.ClosureProperties | parser.py:88-115 | the input is a prefix; every added item is (X, rhs, 0) with rhs a body of X other than [ε]; every such item of every trigger is added; each nonterminal is expanded once |
| Lr0.AddedSound | parser.py:107-113 | every item after the input is (X, rhs, 0) for a nonterminal X and a body rhs ≠ [ε] of X |
| Lr0.AddedComplete | parser.py:104-113 | every body other than [ε] of every nonterminal after a dot is added with the dot at the start |
| Lr0.ExpandedDupFree | parser.py:105-106 | `visited` makes each nonterminal expand at most once per call |
| Lr0.ExpandedTriggers | parser.py:104-106 | the nonterminals expanded are exactly those after a dot somewhere in the closure |
| Lr0.ExpandAllItems | parser.py:107-113 | the expansion items are exactly (X, rhs, 0) for the expanded X and their bodies other than [ε] |
| Lr0.ScanState | parser.py:43-66 | a state's handle is the first non-empty item's (head, body) when that item is complete; otherwise there is one kernel per symbol after a dot, in order of first occurrence; with a handle the shift map is empty |
| Lr0.ScanItem | parser.py:45-66 | one item of the scan extends what the scan has built by exactly that item |
| Lr0.AdvancedOnlyNext | parser.py:57-66 | only a symbol after some dot has a non-empty kernel |
| Lr0.AdvancedGood | parser.py:61-66 | the kernel of a state of possible, distinct items is again such a list, with every dot past the start |
| Lr0.ClosureGood | parser.py:73 | closing such a kernel gives a list of possible items without repetition |
| Lr0.AddTargets | parser.py:71-83 | the transition map has one entry per kernel symbol, each pointing to the state equal to that kernel's closure; new states are appended in order and queued |
| Lr0.Visit | parser.py:41-83 | one round of `while newstates` gives the first queued state its action and queues the new states; either `st2id` gains a key or the queue shrinks |
| Lr0.Grow | parser.py:68-83 | after its targets are added, the visited state's shift action is right and all states remain good |
| Lr0.KeysBounded | parser.py:74-82 | the keys of `st2id` are among the finitely many duplicate-free lists of possible items |
| Lr0.LR0.constructor | parser.py:23-86 | `__init__` ends with state 0 the closure of the start item; `st2id` indexes exactly the states; ids 0..n-1 have actions and no other does; each action is the handle or the shift map to the closures of the kernels |
| Lr0.LR0.Parse | parser.py:117-168 | parse returns the outcome of running the step function from the initial configuration |
| Lr0.LR0.Round | parser.py:126-166 | one round of `while True` does exactly what the step function prescribes |
| Lr0.Step | parser.py:126-166 | a round keeps \|ststack\| = \|symstack\| + 1 with `st` on top; it never raises IndexError then; its only inconsistency is a handle that does not match the symbol stack |
| Lr0.Run | parser.py:126-167 | a run keeps the stacks in step, and a run that stops does so at a round that leaves the loop with that outcome |
| Lr0.ReduceHeads | parser.py:68-69 | a reduce action never has head `$`, and a START handle is START → startSymbol $ |
| Lr0.ValidTable | parser.py:35-83 | the actions are defined for exactly the ids below the number of states, and every transition targets one of them |
| Lr0.StepInStates | parser.py:142-165 | a round pushes only valid state ids |
| Lr0.StepEndOrder | parser.py:152-165 | `$` reaches the symbol stack only as the last input symbol |
| Lr0.RunInStates | parser.py:126-167 | the stacks of a run hold valid state ids only |
| Lr0.RunEndOrder | parser.py:126-167 | throughout a run, `$` is on the symbol stack only once the input is used up |
| Lr0.ParseOutcomes | parser.py:117-168 | the current state always has an action, so a KeyError comes only from a goto; IndexError never happens; the only inconsistency is a non-matching handle; acceptance needs startSymbol $ on top of the symbol stack and, when the tokens hold no `$`, the whole input shifted |
| Lr1.ClosureOf | parser.py:273-306 | closureOf returns the reference closure: its input followed by the expansions of the items of its scan that expand |
| Lr1.ScanPass | parser.py:280-305 | one pass over the unscanned tail continues the reference scan; a pass that updates visits a new nonterminal, and one that does not leaves the list as it was |
| Lr1.VisitItem | parser.py:283-304 | scanning one item continues the reference scan; an item that expands visits a new nonterminal |
| Lr1.AppendExpansion | parser.py:299-304 | the loop over the bodies of x appends (x, rhs, 0, la) for every body, [ε] written as [] |
| Lr1.ClosureShape | parser.py:273-306 | the closure is the input followed by the expansions of the first item for each nonterminal found after a dot |
| Lr1.TriggersFirst | parser.py:288-290 | each nonterminal is expanded once, by the first item that has it after the dot |
| Lr1.TriggersDistinct | parser.py:288-290 | the expanding items have pairwise distinct nonterminals after their dots |
| Lr1.VisitedMembers | parser.py:288-290 | `visited` holds exactly the nonterminals after the dot of the expanding items |
| Lr1.ExpandForItems | parser.py:292-304 | an item expands into (X, rhs', 0, la) for the bodies of X, where la is FIRST of the rest minus ε, plus its own lookahead when the rest is nullable |
| Lr1.ClosureProperties | parser.py:273-306 | the input is a prefix; each nonterminal is expanded by its first triggering item; every added item starts a body of X ([ε] collapsed to []) with that item's lookahead; every body of every expanded X is added |
| Lr1.AddedSound | parser.py:299-304 | every item after the input was brought in by one of the expanding items |
| Lr1.AddedComplete | parser.py:299-304 | every body of every expanded nonterminal is added, with the lookahead its expanding item gives |
| Lr1.ScanState | parser.py:239-249 | each cell of a row gets a reduce entry for every complete item holding that column in its lookahead; every other item goes to the kernel of the symbol after its dot |
| Lr1.ScanItem | parser.py:241-249 | one item of the scan extends what the scan has built by exactly that item |
| Lr1.AddReduces | parser.py:244-245 | the reduce entry is appended to the cell of every lookahead symbol and to no other cell |
| Lr1.LookaheadBounded | parser.py:293-298 | the lookahead of an expansion stays within the terminals and `$` |
| Lr1.AdvancedGood | parser.py:246-249 | the kernel of a state of possible, distinct items is again such a list, with every dot past the start |
| Lr1.ClosureGood | parser.py:253 | closing such a kernel gives a list of possible items without repetition |
| Lr1.AddTargets | parser.py:251-262 | one shift per kernel symbol is appended to that symbol's cell, pointing to the state equal to the kernel's closure; new states are appended in order and queued |
| Lr1.Build | parser.py:226-263 | the worklist ends with state 0 the closure of the start item, `st2id` indexing exactly the states, and every state's row holding its reduce and shift entries |
| Lr1.StartState | parser.py:227-233 | state 0 is the closure of S0 → . startSymbol with lookahead {$}, and is a list of possible, distinct items |
| Lr1.Visit | parser.py:237-262 | one round of `while newstates` gives the first queued state its row and queues the new states; either `st2id` gains a key or the queue shrinks |
| Lr1.GrowRow | parser.py:240-262 | after its targets are added, the visited state's row holds exactly its reduce entries and one shift per kernel symbol |
| Lr1.GrowGood | parser.py:251-262 | the states added for the targets of a good state are good |
| Lr1.KeysBounded | parser.py:254-260 | the keys of `st2id` are among the finitely many duplicate-free lists of possible items |
| Lr1.LR1.constructor | parser.py:216-271 | `__init__` builds the automaton over the least nullable and FIRST tables of the grammar |
| Lr1.LR1.Parse | parser.py:308-371 | parse returns the outcome of running the step function from the initial configuration |
| Lr1.LR1.Round | parser.py:319-368 | one round of `while True` does exactly what the step function prescribes |
| Lr1.LR1.ReduceBy | parser.py:338-358 | the reduce branch pops the body, pushes the head and follows the goto, as the reduction function prescribes |
| Lr1.Choose | parser.py:322-336 | a single entry is taken; two entries of different kinds resolve to the shift; every other non-empty cell is unresolved |
| Lr1.Step | parser.py:319-368 | the lookahead advances only on a shift, which pushes it; stacks in step stay in step; Accept only on a START reduce entry in the lookahead's column |
| Lr1.RunLast | parser.py:319-370 | a run keeps the stacks in step, and a run that stops does so at a round that leaves the loop with that outcome |
| Lr1Run.ReducesItems | parser.py:243-245 | the reduce entries of a column are exactly those of the complete items with that column in their lookahead |
| Lr1Run.NextSymbolsItems | parser.py:246-249 | a symbol has a kernel exactly when it follows the dot of some item |
| Lr1Run.StateBounded | parser.py:228 | every lookahead in a built state is within the terminals and `$` |
| Lr1Run.CellEntries | parser.py:241-262 | a reduce entry comes from a complete item with the column in its lookahead; a shift goes to the closure of the column's kernel; a cell holds at most one shift |
| Lr1Run.TableShape | parser.py:241-262 | reduce entries sit only in the columns of terminals or `$`, never ε; a cell holds at most one shift; a nonterminal column holds only shifts |
| Lr1Run.ClosureFresh | parser.py:288-304 | every item the closure adds starts a body of a nonterminal that follows some dot in the closure |
| Lr1Run.ValidSound | parser.py:216-271 | a built automaton has a row per state, cells as above, and possible items only |
| Lr1Run.ShiftViable | parser.py:359-367 | a shift offered in a viable configuration keeps the stacks a viable prefix |
| Lr1Run.ReduceViable | parser.py:338-358 | a reduction offered in a viable configuration never fails: the body is on the stacks, the goto cell is a single shift, and the result is viable |
| Lr1Run.ReduceGoto | parser.py:346-357 | the pops leave a state whose column for the head is exactly one shift |
| Lr1Run.AcceptViable | parser.py:338-343 | the accepting reduction is offered only in the `$` column with the start symbol alone on the symbol stack |
| Lr1Run.StepViable | parser.py:319-368 | from a viable configuration a round stays viable and ends only in Accept, Reject or Conflict, accepting only with [startSymbol] and lookahead `$` |
| Lr1Run.StepStops | parser.py:322-334 | an empty cell rejects and an unresolved cell stops with Conflict |
| Lr1Run.StepShifts | parser.py:359-368 | a chosen shift pushes target and lookahead and reads the next token, unless the lookahead is the empty string, which rejects |
| Lr1Run.StepReduces | parser.py:337-358 | a chosen reduction accepts on START and otherwise reduces |
| Lr1Run.RunViable | parser.py:319-370 | a run from a viable configuration ends in a viable one |
| Lr1Run.InitialOrder | parser.py:311-318 | when the tokens hold no `$`, the input is read with `$` last |
| Lr1Run.RunOrder | parser.py:319-370 | a run keeps `$` as the last thing read |
| Lr1Run.InitialViable | parser.py:311-318 | the first configuration is viable |
| Lr1Run.ParseOutcomes | parser.py:308-371 | on a built table, parse never raises and never meets an inconsistent goto: it accepts, rejects, stops on a conflict or runs out of fuel; acceptance has [startSymbol] on the symbol stack and `$` as lookahead, with all input read when the tokens hold no `$` |
| Finite.ArrangementsComplete | parser.py:41 | every duplicate-free list over a finite set is among its finitely many arrangements, which bounds the number of states |

## Left out

- Lr0.LR0.Parse, Lr1.LR1.Parse: `while True` is bounded by a `fuel` parameter, and `OutOfFuel` stands for "still running". A unit cycle such as A → A makes the source loop forever.
- Lr0.LR0.constructor: requires that no nonterminal lists the same body twice. The source does not demand this; the termination argument for the worklist uses it.
- Lr1.LR1.constructor: requires the same, and also that no nonterminal has both `[]` and `[ε]` as bodies. These keep every state free of repeated items.
- Lr1.LR1.constructor: the source augments a deep copy of the grammar, adding `$` to the terminals and setting the start symbol to S0. The model keeps the original grammar in `grammar`. The tables `analyze` computed are kept in `tables`. The augmentation shows up only in the start item and in the bound on lookaheads: terminals plus `$`.
- Lr1.ClosureOf: requires a FIRST entry for every symbol after a dot. The source would raise KeyError in `firstOfAll`; `__init__` only passes items over declared symbols.
- Lr0.ClosureOf: an item whose `pos` exceeds its body length is skipped. In the source, the log call at parser.py:101 names an undefined `pos` and raises NameError. No item `__init__` builds has such a position.
- Lr1.Step: the log call at parser.py:328 reads `t` before any assignment when the very first round meets a multi-entry cell. That would raise UnboundLocalError; the model treats the log call as a no-op, as it is in every later round.
- Lr1.Step: a goto cell holding a reduce entry makes `st` a tuple, which fails to hash on the next round's table lookup. The model raises that TypeError at once. On a built table the case cannot arise: nonterminal columns hold only shifts.
- Lr1.Step: the shift branch's test `ahead not in self.table[st]` is always false. The lookup at parser.py:322 has just inserted the key into the `defaultdict`, so only the empty-string lookahead rejects there.
- The conflict report at parser.py:265-270 indexes `st` instead of `i` and only logs. It is left out.
- Lr0.LR0.Parse: the NameError of the log call at parser.py:155 (`stack` is undefined) is modelled as `Crash(NameError)`, since it escapes `parse`.
- Logging, `dump`, `dumpStates`, `dumpTable`, `tabulate`, `__str__` and `showItemList` are left out.
  - Deduplication by the rendered string is modelled as equality of item sequences. The rendering is taken to be injective.
- `deepcopy` and the append of `$` to the caller's `tokens` list are left out. Dafny values are immutable, so `parse` appends to a local copy.
- `followOfAll` (grammar.py:55-63) is not part of this model. It prints, walks the list reversed, and neither builder calls it.
- `isNullable` and `firstOf` are the plain lookups `IsNullable` and `FirstOf`; their properties are stated through `AllNullable` and `FirstOfAll`.
- The FIRST loop's test `if nt in first` (grammar.py:98) always holds, and the fill-in loop at grammar.py:103-105 never adds anything. Both are folded into the map having every declared symbol as a key.
- The `__main__` demos of both files are not part of this model.
