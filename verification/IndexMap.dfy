/** The index map: an array with a movable base.

    Key i lives in slot i - base. A key below the base moves the base down, to
    the key itself while fewer than `limit` slots are in use and to zero after
    that, and every stored slot moves up by as much. Keys, values and the
    container's own size are 32-bit. */
module IndexMap {
  import opened Wrappers

  const WORD := 0x1_0000_0000
  const NULL := 0xFFFF_FFFF

  type Key = k: nat | k < WORD

  function Nulls(n: nat): seq<Key> {
    seq(n, _ => NULL)
  }

  // ---- What a map means ----

  datatype Slots = Slots(indices: seq<Key>, base: Key) {
    /** Nothing stored leaves the base at null; the slots stay inside the key
        space and their number inside a word. */
    predicate Valid() {
      && (indices == [] ==> base == NULL)
      && base + |indices| <= WORD
      && |indices| < WORD
    }

    predicate Holds(key: Key) {
      base <= key < base + |indices|
    }

    function ValueAt(key: Key): Key {
      if Holds(key) then indices[key - base] else NULL
    }

    /** Where the base goes to make room for the key. */
    function NewBase(limit: nat, key: Key): Key {
      if key >= base then base
      else if indices == [] || |indices| < limit then key
      else 0
    }

    /** The slots needed from the new base to the last one in use. */
    function Span(limit: nat, key: Key): int {
      var top := if indices != [] && base + |indices| > key + 1 then base + |indices| else key + 1;
      top - NewBase(limit, key)
    }

    /** Make room for the key: shift up to the new base, then grow. Nothing if
        the slots would not fit in a word. */
    function Room(limit: nat, key: Key): Option<Slots> {
      var base' := NewBase(limit, key);
      var shifted := if indices == [] then [] else Nulls(base - base') + indices;
      var slot := key - base';
      if Span(limit, key) >= WORD then None
      else if slot < |shifted| then Some(Slots(shifted, base'))
      else Some(Slots(shifted + Nulls(slot + 1 - |shifted|), base'))
    }

    function Write(limit: nat, key: Key, value: Key): Option<Slots> {
      match Room(limit, key)
      case None => None
      case Some(m) => if m.Holds(key) then Some(m.(indices := m.indices[key - m.base := value])) else None
    }
  }

  const EMPTY := Slots([], NULL)

  /** The write moves the base to zero: the key is zero, or is below the base when the
      limit has been reached. */
  predicate DropsBase(m: Slots, limit: nat, key: Key) {
    key < m.base && (key == 0 || (m.indices != [] && |m.indices| >= limit))
  }

  /** Where the slots begin and end once there is room for the key. A key at or above
      the base leaves it alone; one below it becomes the base while fewer slots than the
      limit are in use, and moves it to zero after that. The slots reach to the last one
      in use, or to the key. */
  predicate Reshaped(before: Slots, limit: nat, key: Key, after: Slots) {
    && (key >= before.base ==> after.base == before.base)
    && (key < before.base && (before.indices == [] || |before.indices| < limit) ==> after.base == key)
    && (key < before.base && before.indices != [] && |before.indices| >= limit ==> after.base == 0)
    && after.base + |after.indices| ==
       if before.indices != [] && before.base + |before.indices| > key + 1 then before.base + |before.indices|
       else key + 1
  }

  /** So many slots would be needed that their number wraps: they would begin at zero,
      and the last key there is, the null key, is asked for or already held. */
  predicate Overflows(m: Slots, limit: nat, key: Key) {
    (m.base == 0 || DropsBase(m, limit, key)) && (key == NULL || m.Holds(NULL))
  }

  /** Making room keeps every value and holds the new key and every old one. */
  lemma RoomKeeps(m: Slots, limit: nat, key: Key)
    requires m.Valid()
    ensures m.Room(limit, key).None? <==> Overflows(m, limit, key)
    ensures m.Room(limit, key).Some? ==>
              var r := m.Room(limit, key).value;
              && r.Valid() && r.Holds(key) && r.base <= m.base && Reshaped(m, limit, key, r)
              && (forall k: Key :: m.Holds(k) ==> r.Holds(k))
              && (forall k: Key :: r.ValueAt(k) == m.ValueAt(k))
  {
  }

  /** A write is a plain map update: the key reads the value, no other key changes. */
  lemma WriteUpdates(m: Slots, limit: nat, key: Key, value: Key)
    requires m.Valid()
    ensures m.Write(limit, key, value).None? <==> Overflows(m, limit, key)
    ensures m.Write(limit, key, value).Some? ==>
              var r := m.Write(limit, key, value).value;
              && r.Valid() && r.Holds(key) && Reshaped(m, limit, key, r)
              && (forall k: Key :: m.Holds(k) ==> r.Holds(k))
              && (forall k: Key :: r.ValueAt(k) == if k == key then value else m.ValueAt(k))
  {
    RoomKeeps(m, limit, key);
    if m.Room(limit, key).Some? {
      var room := m.Room(limit, key).value;
      var r := m.Write(limit, key, value).value;
      forall k: Key ensures r.ValueAt(k) == if k == key then value else m.ValueAt(k) {
        assert room.ValueAt(k) == m.ValueAt(k);
      }
      forall k: Key | m.Holds(k) ensures r.Holds(k) {
        assert room.Holds(k);
      }
    }
  }

  /** The slots run out exactly when the base is (or goes to) zero and the last
      key there is, the null key, is asked for or already held. */
  lemma SpanOverflows(m: Slots, limit: nat, key: Key)
    requires m.Valid()
    ensures m.Span(limit, key) >= WORD <==> Overflows(m, limit, key)
  {
  }

  /** Unsigned wrap-around does the range check of `find` and `contains`: the
      difference key - base, taken modulo a word, is below the size exactly for
      the keys held. */
  lemma WrappedDifference(m: Slots, key: Key)
    requires m.Valid()
    ensures (key - m.base) % WORD < |m.indices| <==> m.Holds(key)
    ensures m.Holds(key) ==> (key - m.base) % WORD == key - m.base
  {
    if key < m.base {
      assert (key - m.base) % WORD == key - m.base + WORD;
    }
  }

  // ---- Runs ----

  datatype Entry = Entry(key: Key, value: Key)

  function Run(limit: nat, writes: seq<Entry>): Option<Slots> {
    if writes == [] then Some(EMPTY)
    else
      var last := writes[|writes| - 1];
      match Run(limit, writes[..|writes| - 1])
      case None => None
      case Some(m) => m.Write(limit, last.key, last.value)
  }

  /** The same writes into a plain finite map. */
  function Plain(writes: seq<Entry>): map<Key, Key> {
    if writes == [] then map[]
    else Plain(writes[..|writes| - 1])[writes[|writes| - 1].key := writes[|writes| - 1].value]
  }

  /** Any run of writes reads back as the plain map does, with null for the keys
      never written, and the slots bracket every key written. It cannot fail
      unless the null key is written. */
  lemma {:induction false} RunRefinesPlainMap(limit: nat, writes: seq<Entry>)
    ensures Run(limit, writes).Some? ==>
              var m := Run(limit, writes).value;
              && m.Valid()
              && (forall k: Key :: k in Plain(writes) ==> m.Holds(k) && m.ValueAt(k) == Plain(writes)[k])
              && (forall k: Key :: k !in Plain(writes) ==> m.ValueAt(k) == NULL)
    ensures NULL !in Plain(writes) ==> Run(limit, writes).Some? && !Run(limit, writes).value.Holds(NULL)
  {
    if writes != [] {
      var init, last := writes[..|writes| - 1], writes[|writes| - 1];
      RunRefinesPlainMap(limit, init);
      if Run(limit, init).Some? {
        var m := Run(limit, init).value;
        WriteUpdates(m, limit, last.key, last.value);
        SpanOverflows(m, limit, last.key);
        if NULL !in Plain(writes) {
          NullStaysOut(m, limit, last.key, last.value);
        }
      }
    }
  }

  lemma NullStaysOut(m: Slots, limit: nat, key: Key, value: Key)
    requires m.Valid() && !m.Holds(NULL) && key != NULL
    ensures m.Write(limit, key, value).Some? && !m.Write(limit, key, value).value.Holds(NULL)
  {
  }

  /** The failure is real: with the base at zero, asking for the null key wraps
      the slot count to zero. */
  lemma NullKeyFails()
    ensures Run(1, [Entry(0, 7)]).Some?
    ensures Run(1, [Entry(0, 7), Entry(NULL, 7)]) == None
  {
    var writes := [Entry(0, 7), Entry(NULL, 7)];
    assert writes[..1] == [Entry(0, 7)];
    assert [Entry(0, 7)][..0] == [];
    assert EMPTY.Room(1, 0) == Some(Slots([] + Nulls(1), 0));
    assert ([] + Nulls(1))[0 := 7] == [7];
    assert Run(1, [Entry(0, 7)]) == EMPTY.Write(1, 0, 7) == Some(Slots([7], 0));
  }

  // ---- Growing down to zero ----

  /** Which writes leave the base at zero. */
  lemma BaseAtZero(m: Slots, limit: nat, key: Key, value: Key)
    requires m.Valid() && m.Write(limit, key, value).Some?
    ensures var r := m.Write(limit, key, value).value;
            r.base == 0 <==> m.base == 0 || DropsBase(m, limit, key)
  {
  }

  /** What the class comment promises: once the limit is reached, the list starts at
      zero. */
  predicate FullyGrown(m: Slots, limit: nat) {
    |m.indices| >= limit ==> m.base == 0
  }

  /** The slots that a write leaves when it does not move the base to zero. */
  function SlotsAfter(m: Slots, key: Key): nat {
    var end := if m.indices != [] && m.base + |m.indices| > key + 1 then m.base + |m.indices| else key + 1;
    var start := if key < m.base then key else m.base;
    end - start
  }

  /** A write keeps that promise exactly when it leaves fewer slots than the limit, the
      base was at zero, or the write moves it there; reaching the limit does not. */
  lemma GrownExactly(m: Slots, limit: nat, key: Key, value: Key)
    requires m.Valid() && m.Write(limit, key, value).Some?
    ensures FullyGrown(m.Write(limit, key, value).value, limit) <==>
            SlotsAfter(m, key) < limit || m.base == 0 || DropsBase(m, limit, key)
  {
    BaseAtZero(m, limit, key, value);
  }

  /** The i-th write of the run moves the base to zero. */
  predicate Drops(limit: nat, writes: seq<Entry>, i: nat) {
    && i < |writes| && Run(limit, writes[..i]).Some?
    && DropsBase(Run(limit, writes[..i]).value, limit, writes[i].key)
  }

  lemma DropsInit(limit: nat, writes: seq<Entry>, i: nat)
    requires i < |writes| - 1
    ensures Drops(limit, writes[..|writes| - 1], i) == Drops(limit, writes, i)
  {
    assert writes[..|writes| - 1][..i] == writes[..i];
  }

  /** After a run the base is at zero exactly if some write of the run moved it there. */
  lemma {:induction false} RunBaseAtZero(limit: nat, writes: seq<Entry>)
    requires Run(limit, writes).Some?
    ensures Run(limit, writes).value.base == 0 <==> exists i: nat :: Drops(limit, writes, i)
  {
    if writes != [] {
      var last := |writes| - 1;
      var init := writes[..last];
      RunRefinesPlainMap(limit, init);
      RunBaseAtZero(limit, init);
      BaseAtZero(Run(limit, init).value, limit, writes[last].key, writes[last].value);
      LastDrops(limit, writes, init);
    }
  }

  lemma LastDrops(limit: nat, writes: seq<Entry>, init: seq<Entry>)
    requires writes != [] && init == writes[..|writes| - 1] && Run(limit, init).Some?
    ensures (exists i: nat :: Drops(limit, writes, i)) <==>
            (exists i: nat :: Drops(limit, init, i))
            || DropsBase(Run(limit, init).value, limit, writes[|writes| - 1].key)
  {
    hide Run, DropsBase;
    var last := |writes| - 1;
    if i: nat :| Drops(limit, init, i) {
      DropsInit(limit, writes, i);
    }
    if i: nat :| Drops(limit, writes, i) {
      if i < last {
        DropsInit(limit, writes, i);
      }
    }
    assert Drops(limit, writes, last) <==> DropsBase(Run(limit, init).value, limit, writes[last].key);
  }

  /** With a limit of one, a single write of key 24 reaches the limit, and the list
      starts at 24. */
  lemma LimitReachedAboveZero()
    ensures Run(1, [Entry(24, 7)]) == Some(Slots([7], 24))
    ensures !FullyGrown(Slots([7], 24), 1)
  {
    assert [Entry(24, 7)][..0] == [];
    assert EMPTY.Room(1, 24) == Some(Slots([] + Nulls(1), 24));
    assert ([] + Nulls(1))[0 := 7] == [7];
  }

  // ---- The class ----

  class Map {
    const limit: nat
    var indices: seq<Key>
    var minOffset: Key

    ghost function Value(): Slots
      reads this
    {
      Slots(indices, minOffset)
    }

    constructor (limit: nat)
      requires limit > 0
      ensures this.limit == limit && Value() == EMPTY && Value().Valid()
    {
      this.limit := limit;
      indices := [];
      minOffset := NULL;
    }

    /** Move the base down to `offset` and every stored slot up by as much. The
        ranges overlap, so the slots are moved from the last one back. */
    method Shift(offset: Key)
      requires offset <= minOffset && indices != []
      modifies this`indices
      ensures indices == Nulls(minOffset - offset) + old(indices)
    {
      var amount, size := minOffset - offset, |indices|;
      indices := indices + Nulls(amount);
      var j := size;
      while j > 0
        invariant 0 <= j <= size && |indices| == size + amount
        invariant forall k :: 0 <= k < j ==> indices[k] == old(indices[k])
        invariant forall k :: j <= k < size ==> indices[k + amount] == old(indices[k])
      {
        j := j - 1;
        indices := indices[j + amount := indices[j]];
      }
      for i := 0 to amount
        invariant |indices| == size + amount
        invariant forall k :: 0 <= k < i ==> indices[k] == NULL
        invariant forall k :: 0 <= k < size ==> indices[k + amount] == old(indices[k])
      {
        indices := indices[i := NULL];
      }
      assert forall k :: amount <= k < size + amount ==> indices[k] == indices[(k - amount) + amount];
    }

    /** The subscript operator: the slot of the key, after making room for it, or
        nothing where the program would index past its slots. */
    method At(key: Key) returns (slot: Option<nat>)
      requires limit > 0 && Value().Valid()
      modifies this
      ensures slot.None? <==> Overflows(old(Value()), limit, key)
      ensures slot.Some? ==> old(Value().Room(limit, key)) == Some(Value())
      ensures slot.Some? ==> Value().Valid() && slot.value == key - minOffset < |indices|
      ensures slot.Some? ==> Reshaped(old(Value()), limit, key, Value())
      ensures slot.Some? ==> forall k: Key :: Value().ValueAt(k) == old(Value()).ValueAt(k)
    {
      ghost var before := Value();
      RoomKeeps(before, limit, key);
      SpanOverflows(before, limit, key);
      assert Nulls(0) + before.indices == before.indices;
      if minOffset > key {
        if indices == [] {
          minOffset := key;
        } else {
          var toMinOffset: Key := 0;
          if |indices| < limit {
            toMinOffset := key;
          }
          if |indices| + (minOffset - toMinOffset) >= WORD {
            return None;
          }
          Shift(toMinOffset);
          minOffset := toMinOffset;
        }
      }
      var at := key - minOffset;
      if at >= |indices| {
        if at + 1 >= WORD {
          return None;
        }
        indices := indices + Nulls(at + 1 - |indices|);
      }
      slot := Some(at);
    }

    /** map[key] = value */
    method Set(key: Key, value: Key) returns (ok: bool)
      requires limit > 0 && Value().Valid()
      modifies this
      ensures ok <==> !Overflows(old(Value()), limit, key)
      ensures ok ==> old(Value().Write(limit, key, value)) == Some(Value()) && Value().Valid()
      ensures ok ==> Reshaped(old(Value()), limit, key, Value())
      ensures ok ==> forall k: Key :: Value().ValueAt(k) == if k == key then value else old(Value()).ValueAt(k)
    {
      WriteUpdates(Value(), limit, key, value);
      var slot := At(key);
      ok := slot.Some?;
      if ok {
        indices := indices[slot.value := value];
      }
    }

    method Find(key: Key) returns (value: Key)
      requires Value().Valid()
      ensures value == Value().ValueAt(key)
    {
      var at := (key - minOffset) % WORD;
      WrappedDifference(Value(), key);
      value := if at < |indices| then indices[at] else NULL;
    }

    method Contains(key: Key) returns (held: bool)
      requires Value().Valid()
      ensures held <==> Value().Holds(key)
    {
      WrappedDifference(Value(), key);
      held := (key - minOffset) % WORD < |indices|;
    }

    method Clear()
      modifies this
      ensures Value() == EMPTY
    {
      minOffset := NULL;
      indices := [];
    }
  }
}
