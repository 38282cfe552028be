/**
 * The state registry both builders of parser.py keep: the list `states`,
 * the index `st2id` from a state to its id, and the `newstates` queue of
 * ids still to visit (parser.py:26-39, 71-83 for LR0; 218-236, 251-262 for
 * LR1).  A state is any value compared by equality; the builders use their
 * ordered item lists.
 */
module Registry {
  import opened Finite

  /** Each state is the key of its own index in `st2id`, and `st2id` holds nothing else. */
  ghost predicate Indexed<S>(states: seq<S>, st2id: map<S, nat>) {
    && (forall i :: 0 <= i < |states| ==> states[i] in st2id && st2id[states[i]] == i)
    && (forall k :: k in st2id ==> st2id[k] < |states| && states[st2id[k]] == k)
  }

  /**
   * One kernel closure of the loop over `gotos.items()`: looked up in
   * `st2id`, and added as the next state and queued when absent.
   */
  method AddTarget<S>(states: seq<S>, st2id: map<S, nat>, newstates: seq<nat>, closure: S)
    returns (states': seq<S>, st2id': map<S, nat>, newstates': seq<nat>, id: nat)
    requires Indexed(states, st2id)
    ensures Indexed(states', st2id')
    ensures id < |states'| && states'[id] == closure
    ensures closure in st2id ==> states' == states && st2id' == st2id && newstates' == newstates
    ensures closure !in st2id ==> states' == states + [closure] && newstates' == newstates + [|states|]
  {
    if closure in st2id {
      states', st2id', newstates', id := states, st2id, newstates, st2id[closure];
    } else {
      var stnum := |states|;
      states' := states + [closure];
      st2id' := st2id[closure := stnum];
      id := stnum;
      newstates' := newstates + [stnum];
    }
  }

  /** Appending states to an index only adds keys: none when nothing is appended, some otherwise. */
  lemma IndexedGrow<S>(states: seq<S>, st2id: map<S, nat>, states': seq<S>, st2id': map<S, nat>)
    requires Indexed(states, st2id) && Indexed(states', st2id')
    requires |states| <= |states'| && states'[..|states|] == states
    ensures |states'| == |states| ==> st2id' == st2id
    ensures |states'| > |states| ==> st2id.Keys < st2id'.Keys
  {
    forall k | k in st2id ensures k in st2id' && st2id'[k] == st2id[k] {
      assert states'[st2id[k]] == states[st2id[k]];
    }
    if |states'| == |states| {
      assert states' == states;
    } else {
      var k := states'[|states|];
      assert k in st2id' && k !in st2id;
    }
  }

  /** Queueing the next id extends the queue's range by one. */
  lemma RangeSnoc(pre: seq<nat>, s: seq<nat>, lo: nat, hi: nat)
    requires lo <= hi && s == pre + Range(lo, hi)
    ensures s + [hi] == pre + Range(lo, hi + 1)
  {
    assert Range(lo, hi) + [hi] == Range(lo, hi + 1);
  }

  /** `newstates.pop(0)` followed by appending the new ids keeps the queue a range of ids. */
  lemma RangeRequeue(newstates: seq<nat>, n: nat, n': nat)
    requires |newstates| <= n <= n' && newstates != [] && newstates == Range(n - |newstates|, n)
    ensures newstates[1..] + Range(n, n') == Range(n - |newstates| + 1, n')
  {
  }
}
