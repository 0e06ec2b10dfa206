/** The allocation table's free slots.

    Both allocators name an allocation by its slot in a table and thread the
    slots not in use into a chain: `head` is the first, each holds the next where
    a live one holds its offset, and slot 0, never used, ends the chain. */
module EntryTable {

  function First(chain: seq<nat>): nat {
    if chain == [] then 0 else chain[0]
  }

  /** Each slot of the chain is out of use and names the next. */
  ghost predicate Linked<T>(table: seq<T>, next: T -> nat, live: T -> bool, chain: seq<nat>) {
    forall k :: 0 <= k < |chain| ==>
      0 < chain[k] < |table| && !live(table[chain[k]]) && next(table[chain[k]]) == First(chain[k + 1..])
  }

  ghost predicate Distinct(chain: seq<nat>) {
    forall j, k :: 0 <= j < k < |chain| ==> chain[j] != chain[k]
  }

  /** `chain` is that list: exactly the slots that are not live, each once. */
  ghost predicate Threaded<T>(table: seq<T>, next: T -> nat, live: T -> bool, head: nat, chain: seq<nat>) {
    && |table| > 0 && !live(table[0])
    && head == First(chain)
    && Linked(table, next, live, chain)
    && Distinct(chain)
    && (forall id :: 0 < id < |table| && !live(table[id]) ==> id in chain)
  }

  lemma ConsLinked<T>(table: seq<T>, next: T -> nat, live: T -> bool, first: nat, rest: seq<nat>)
    ensures Linked(table, next, live, [first] + rest) <==>
            && Linked(table, next, live, rest)
            && 0 < first < |table| && !live(table[first]) && next(table[first]) == First(rest)
  {
    var chain := [first] + rest;
    assert chain[1..] == rest;
    assert forall k :: 0 <= k < |rest| ==> chain[k + 1] == rest[k] && chain[k + 2..] == rest[k + 1..];
    if Linked(table, next, live, chain) {
      assert chain[0] == first && chain[0 + 1..] == rest;
      forall k | 0 <= k < |rest|
        ensures 0 < rest[k] < |table| && !live(table[rest[k]]) && next(table[rest[k]]) == First(rest[k + 1..])
      {
        var i := k + 1;
        assert rest[k] == chain[i] && chain[i + 1..] == rest[k + 1..];
      }
    }
    if Linked(table, next, live, rest) && 0 < first < |table| && !live(table[first]) && next(table[first]) == First(rest) {
      forall k | 0 <= k < |chain|
        ensures 0 < chain[k] < |table| && !live(table[chain[k]]) && next(table[chain[k]]) == First(chain[k + 1..])
      {
        if k > 0 {
          var i := k - 1;
          assert chain[k] == rest[i] && chain[k + 1..] == rest[i + 1..];
        }
      }
    }
  }

  lemma ConsDistinct(first: nat, rest: seq<nat>)
    ensures Distinct([first] + rest) <==> Distinct(rest) && first !in rest
  {
    var chain := [first] + rest;
    assert forall k :: 0 <= k < |rest| ==> chain[k + 1] == rest[k];
    if Distinct(chain) {
      forall j, k | 0 <= j < k < |rest| ensures rest[j] != rest[k] {
        assert chain[j + 1] != chain[k + 1];
      }
      forall k | 0 <= k < |rest| ensures rest[k] != first {
        assert chain[0] != chain[k + 1];
      }
    }
    if Distinct(rest) && first !in rest {
      forall j, k | 0 <= j < k < |chain| ensures chain[j] != chain[k] {
        assert chain[k] == rest[k - 1];
      }
    }
  }

  /** Slots outside the chain may be rewritten without breaking its links. */
  lemma LinkedElsewhere<T>(table: seq<T>, next: T -> nat, live: T -> bool, chain: seq<nat>, id: nat, entry: T)
    requires Linked(table, next, live, chain) && id < |table| && id !in chain
    ensures Linked(table[id := entry], next, live, chain)
  {
    forall k | 0 <= k < |chain| ensures table[id := entry][chain[k]] == table[chain[k]] {
      assert chain[k] in chain;
    }
  }

  /** Taking the head of the chain into use. */
  lemma PopKeeps<T>(table: seq<T>, next: T -> nat, live: T -> bool, head: nat, chain: seq<nat>, entry: T)
    requires Threaded(table, next, live, head, chain) && head != 0 && live(entry)
    ensures head < |table| && !live(table[head])
    ensures Threaded(table[head := entry], next, live, next(table[head]), chain[1..])
  {
    var rest := chain[1..];
    assert chain == [head] + rest;
    ConsLinked(table, next, live, head, rest);
    ConsDistinct(head, rest);
    LinkedElsewhere(table, next, live, rest, head, entry);
    forall id | 0 < id < |table| && !live(table[head := entry][id]) ensures id in rest {
      assert id in [head] + rest;
    }
  }

  /** Adding a live slot at the end. */
  lemma AppendKeeps<T>(table: seq<T>, next: T -> nat, live: T -> bool, head: nat, chain: seq<nat>, entry: T)
    requires Threaded(table, next, live, head, chain) && live(entry)
    ensures Threaded(table + [entry], next, live, head, chain)
  {
  }

  /** Putting a live slot at the front of the chain. */
  lemma PushKeeps<T>(table: seq<T>, next: T -> nat, live: T -> bool, head: nat, chain: seq<nat>, id: nat, entry: T)
    requires Threaded(table, next, live, head, chain)
    requires id < |table| && live(table[id]) && !live(entry) && next(entry) == head
    ensures Threaded(table[id := entry], next, live, id, [id] + chain)
  {
    LinkedElsewhere(table, next, live, chain, id, entry);
    ConsLinked(table[id := entry], next, live, id, chain);
    ConsDistinct(id, chain);
  }

  /** Rewriting a live slot. */
  lemma UpdateKeeps<T>(table: seq<T>, next: T -> nat, live: T -> bool, head: nat, chain: seq<nat>, id: nat, entry: T)
    requires Threaded(table, next, live, head, chain)
    requires id < |table| && live(table[id]) && live(entry)
    ensures Threaded(table[id := entry], next, live, head, chain)
  {
    LinkedElsewhere(table, next, live, chain, id, entry);
  }
}
