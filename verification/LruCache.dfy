/**
 The size-bounded recency list inside the asynchronous cache, and the four lock-protected
 sections that change it.  An entry is either a value, with the size it had when it was stored, or
 a marker that some request is still producing the value.

 The list runs from least to most recently used, one slot per key.
 */
module LruCache {
  import opened Common

  datatype Entry<V> = Ready(value: V, size: nat) | Waiting(request: nat)

  datatype Slot<K, V> = Slot(key: K, entry: Entry<V>)

  datatype Cache<K, V> = Cache(slots: seq<Slot<K, V>>, currentSize: int, maxSize: nat)

  /** What a generator made of one key: a value, with its size at this moment, or an error. */
  datatype Made<V> = Value(value: V, size: nat) | Failure

  function EntrySize<V>(e: Entry<V>): nat {
    if e.Ready? then e.size else 0
  }

  function Total<K, V>(slots: seq<Slot<K, V>>): nat {
    if slots == [] then 0 else EntrySize(slots[0].entry) + Total(slots[1..])
  }

  function Find<K(==), V>(slots: seq<Slot<K, V>>, k: K): Option<Entry<V>> {
    if slots == [] then None
    else if slots[0].key == k then Some(slots[0].entry)
    else Find(slots[1..], k)
  }

  function Without<K(==), V>(slots: seq<Slot<K, V>>, k: K): seq<Slot<K, V>> {
    if slots == [] then []
    else if slots[0].key == k then slots[1..]
    else [slots[0]] + Without(slots[1..], k)
  }

  function SizeAt<K(==), V>(slots: seq<Slot<K, V>>, k: K): nat {
    match Find(slots, k)
    case Some(e) => EntrySize(e)
    case None => 0
  }

  ghost predicate OneSlotPerKey<K, V>(slots: seq<Slot<K, V>>) {
    forall i, j :: 0 <= i < j < |slots| ==> slots[i].key != slots[j].key
  }

  // ------------------------------------------------------------------ facts about the list

  lemma {:induction false} FindIsMember<K, V>(slots: seq<Slot<K, V>>, k: K)
    ensures Find(slots, k).Some? ==> Slot(k, Find(slots, k).value) in slots
    ensures Find(slots, k).None? ==> forall s :: s in slots ==> s.key != k
  {
    if slots != [] {
      FindIsMember(slots[1..], k);
      assert forall s :: s in slots <==> s == slots[0] || s in slots[1..];
    }
  }

  lemma {:induction false} FindMember<K, V>(slots: seq<Slot<K, V>>, i: nat)
    requires OneSlotPerKey(slots) && i < |slots|
    ensures Find(slots, slots[i].key) == Some(slots[i].entry)
  {
    if i > 0 {
      FindMember(slots[1..], i - 1);
    }
  }

  lemma ConsOneSlot<K, V>(s: Slot<K, V>, rest: seq<Slot<K, V>>)
    requires OneSlotPerKey(rest) && forall x :: x in rest ==> x.key != s.key
    ensures OneSlotPerKey([s] + rest)
  {
  }

  /** Removing a key keeps exactly the other slots. */
  lemma {:induction false} WithoutKeepsOthers<K, V>(slots: seq<Slot<K, V>>, k: K)
    requires OneSlotPerKey(slots)
    ensures forall s :: s in Without(slots, k) ==> s in slots && s.key != k
    ensures forall s :: s in slots && s.key != k ==> s in Without(slots, k)
    ensures OneSlotPerKey(Without(slots, k))
    ensures |Without(slots, k)| <= |slots|
  {
    if slots != [] {
      var tail := slots[1..];
      WithoutKeepsOthers(tail, k);
      assert forall s :: s in slots <==> s == slots[0] || s in tail;
      if slots[0].key != k {
        assert forall s :: s in Without(slots, k) <==> s == slots[0] || s in Without(tail, k);
        ConsOneSlot(slots[0], Without(tail, k));
      } else {
        assert forall s :: s in tail ==> s.key != k;
      }
    }
  }

  lemma {:induction false} TotalWithout<K, V>(slots: seq<Slot<K, V>>, k: K)
    ensures Total(slots) == Total(Without(slots, k)) + SizeAt(slots, k)
  {
    if slots != [] && slots[0].key != k {
      TotalWithout(slots[1..], k);
      assert Without(slots, k)[1..] == Without(slots[1..], k);
    }
  }

  lemma {:induction false} TotalSnoc<K, V>(slots: seq<Slot<K, V>>, s: Slot<K, V>)
    ensures Total(slots + [s]) == Total(slots) + EntrySize(s.entry)
  {
    if slots == [] {
      assert slots + [s] == [s];
    } else {
      TotalSnoc(slots[1..], s);
      assert (slots + [s])[1..] == slots[1..] + [s];
    }
  }

  /** Suffixes of the list only get smaller. */
  lemma {:induction false} TotalSuffix<K, V>(slots: seq<Slot<K, V>>, i: nat)
    requires i <= |slots|
    ensures Total(slots[i..]) <= Total(slots)
  {
    if i > 0 {
      TotalSuffix(slots[1..], i - 1);
      assert slots[i..] == slots[1..][i - 1..];
    }
  }

  // ------------------------------------------------------------------ recency

  /** The slot of key `k` has moved behind all others, which keep their order. */
  ghost predicate MovedLast<K, V>(before: seq<Slot<K, V>>, after: seq<Slot<K, V>>, k: K) {
    exists p :: 0 <= p < |before| && before[p].key == k && after == before[..p] + before[p + 1..] + [before[p]]
  }

  lemma {:induction false} WithoutAbsent<K, V>(slots: seq<Slot<K, V>>, k: K)
    requires forall x :: x in slots ==> x.key != k
    ensures Without(slots, k) == slots
  {
    if slots != [] {
      assert forall x :: x in slots[1..] ==> x in slots;
      WithoutAbsent(slots[1..], k);
      assert slots[0] in slots;
    }
  }

  lemma {:induction false} WithoutAt<K, V>(slots: seq<Slot<K, V>>, p: nat)
    requires OneSlotPerKey(slots) && p < |slots|
    ensures Without(slots, slots[p].key) == slots[..p] + slots[p + 1..]
  {
    if p == 0 {
      assert slots[..0] + slots[1..] == slots[1..];
    } else {
      WithoutAt(slots[1..], p - 1);
      ConsSplit(slots, p);
    }
  }

  lemma ConsSplit<K, V>(slots: seq<Slot<K, V>>, p: nat)
    requires 0 < p < |slots|
    ensures [slots[0]] + (slots[1..][..p - 1] + slots[1..][p..]) == slots[..p] + slots[p + 1..]
  {
  }

  lemma PutAgain<K, V>(slots: seq<Slot<K, V>>, k: K)
    requires OneSlotPerKey(slots) && Find(slots, k).Some?
    ensures MovedLast(slots, PutSlots(slots, k, Find(slots, k).value), k)
  {
    FindIsMember(slots, k);
    var p :| 0 <= p < |slots| && slots[p] == Slot(k, Find(slots, k).value);
    WithoutAt(slots, p);
    assert PutSlots(slots, k, Find(slots, k).value) == slots[..p] + slots[p + 1..] + [slots[p]];
  }

  lemma PutNew<K, V>(slots: seq<Slot<K, V>>, k: K, e: Entry<V>)
    requires Find(slots, k).None?
    ensures PutSlots(slots, k, e) == slots + [Slot(k, e)]
  {
    FindIsMember(slots, k);
    WithoutAbsent(slots, k);
  }

  /** Key `a` has a slot somewhere before key `b`. */
  ghost predicate Ahead<K, V>(slots: seq<Slot<K, V>>, a: K, b: K) {
    exists i, j :: 0 <= i < j < |slots| && slots[i].key == a && slots[j].key == b
  }

  /** Removing a key leaves the others in order. */
  lemma {:induction false} WithoutOrder<K, V>(slots: seq<Slot<K, V>>, k: K, i: nat, j: nat)
    requires i < j < |Without(slots, k)|
    ensures Ahead(slots, Without(slots, k)[i].key, Without(slots, k)[j].key)
  {
    var rest := Without(slots, k);
    if slots[0].key == k {
      assert slots[i + 1].key == rest[i].key && slots[j + 1].key == rest[j].key;
    } else if i == 0 {
      var x := rest[j];
      assert x in Without(slots[1..], k);
      WithoutMembers(slots[1..], k);
      var m :| 0 <= m < |slots[1..]| && slots[1..][m] == x;
      assert slots[0].key == rest[0].key && slots[m + 1].key == rest[j].key;
    } else {
      WithoutOrder(slots[1..], k, i - 1, j - 1);
      var a, b :| 0 <= a < b < |slots[1..]| && slots[1..][a].key == rest[i].key && slots[1..][b].key == rest[j].key;
      assert slots[a + 1].key == rest[i].key && slots[b + 1].key == rest[j].key;
    }
  }

  lemma {:induction false} WithoutMembers<K, V>(slots: seq<Slot<K, V>>, k: K)
    ensures forall x :: x in Without(slots, k) ==> x in slots
  {
    if slots != [] {
      WithoutMembers(slots[1..], k);
      assert slots == [slots[0]] + slots[1..];
    }
  }

  // ------------------------------------------------------------------ the accounting

  /** Size that is counted but belongs to no entry. */
  function Leak<K, V>(c: Cache<K, V>): int {
    c.currentSize - Total(c.slots)
  }

  /** What holds at every lock release. */
  ghost predicate Valid<K, V>(c: Cache<K, V>) {
    OneSlotPerKey(c.slots) && 0 <= Leak(c) && c.currentSize <= c.maxSize
  }

  function PutSlots<K(==), V>(slots: seq<Slot<K, V>>, k: K, e: Entry<V>): seq<Slot<K, V>> {
    Without(slots, k) + [Slot(k, e)]
  }

  lemma PutFacts<K, V>(slots: seq<Slot<K, V>>, k: K, e: Entry<V>)
    requires OneSlotPerKey(slots)
    ensures OneSlotPerKey(PutSlots(slots, k, e))
    ensures forall s :: s in PutSlots(slots, k, e) ==> s == Slot(k, e) || (s in slots && s.key != k)
    ensures Slot(k, e) in PutSlots(slots, k, e)
    ensures forall s :: s in slots && s.key != k ==> s in PutSlots(slots, k, e)
    ensures Total(PutSlots(slots, k, e)) == Total(slots) - SizeAt(slots, k) + EntrySize(e)
  {
    WithoutKeepsOthers(slots, k);
    TotalWithout(slots, k);
    TotalSnoc(Without(slots, k), Slot(k, e));
    var rest := Without(slots, k);
    forall i | 0 <= i < |rest| ensures rest[i].key != k {
      var x := rest[i];
      assert x in rest;
    }
  }

  /** A read makes the key the most recently used one. */
  function Touch<K(==), V>(c: Cache<K, V>, k: K): Cache<K, V> {
    match Find(c.slots, k)
    case Some(e) => c.(slots := PutSlots(c.slots, k, e))
    case None => c
  }

  function AddWaiting<K(==), V>(c: Cache<K, V>, k: K, request: nat): Cache<K, V> {
    c.(slots := PutSlots(c.slots, k, Waiting(request)))
  }

  function DropWaiting<K(==), V>(c: Cache<K, V>, k: K): Cache<K, V> {
    if Find(c.slots, k).Some? && Find(c.slots, k).value.Waiting? then c.(slots := Without(c.slots, k)) else c
  }

  /** The error arm removes the entry and leaves the size alone. */
  function Forget<K(==), V>(c: Cache<K, V>, k: K): Cache<K, V> {
    c.(slots := Without(c.slots, k))
  }

  /** The value arm before eviction. */
  function Stored<K(==), V>(c: Cache<K, V>, k: K, value: V, size: nat): Cache<K, V> {
    Cache(PutSlots(c.slots, k, Ready(value, size)), c.currentSize + size - SizeAt(c.slots, k), c.maxSize)
  }

  /** How many of the oldest slots go before the rest fits beside the leak. */
  function Evictions<K, V>(slots: seq<Slot<K, V>>, leak: int, maxSize: nat): (n: nat)
    ensures n <= |slots|
    ensures leak <= maxSize ==> leak + Total(slots[n..]) <= maxSize
    ensures forall i :: 0 <= i < n ==> leak + Total(slots[i..]) > maxSize
  {
    if slots == [] || leak + Total(slots) <= maxSize then
      assert slots[0..] == slots;
      0
    else
      var n := Evictions(slots[1..], leak, maxSize);
      assert forall i :: 0 < i <= |slots| ==> slots[i..] == slots[1..][i - 1..];
      assert slots[0..] == slots;
      n + 1
  }

  function Trimmed<K, V>(c: Cache<K, V>): Cache<K, V> {
    var kept := c.slots[Evictions(c.slots, Leak(c), c.maxSize)..];
    Cache(kept, Leak(c) + Total(kept), c.maxSize)
  }

  lemma StoredFacts<K, V>(c: Cache<K, V>, k: K, value: V, size: nat)
    requires Valid(c)
    ensures
      var s := Stored(c, k, value, size);
      OneSlotPerKey(s.slots) && Leak(s) == Leak(c) && 0 <= Leak(s) <= s.maxSize
  {
    PutFacts(c.slots, k, Ready(value, size));
  }

  function Update<K(==), V>(c: Cache<K, V>, k: K, made: Made<V>): Cache<K, V> {
    match made
    case Value(v, size) => Trimmed(Stored(c, k, v, size))
    case Failure => Forget(c, k)
  }

  /** The size an update leaks: that of a stored value thrown away by an error. */
  function Leaked<K(==), V>(c: Cache<K, V>, k: K, made: Made<V>): nat {
    if made.Failure? then SizeAt(c.slots, k) else 0
  }

  lemma TrimmedFacts<K, V>(c: Cache<K, V>)
    requires OneSlotPerKey(c.slots) && 0 <= Leak(c) <= c.maxSize
    ensures
      var after := Trimmed(c);
      && Valid(after) && after.maxSize == c.maxSize && Leak(after) == Leak(c)
      && forall s :: s in after.slots ==> s in c.slots
  {
  }

  lemma DropOne<K, V>(slots: seq<Slot<K, V>>, i: nat)
    requires i < |slots|
    ensures slots[i..][1..] == slots[i + 1..] && slots[i..][0] == slots[i]
  {
  }

  lemma EvictOne<K, V>(slots: seq<Slot<K, V>>, leak: nat, maxSize: nat)
    requires leak <= maxSize < leak + Total(slots)
    ensures slots != [] && Total(slots) == EntrySize(slots[0].entry) + Total(slots[1..])
    ensures Evictions(slots, leak, maxSize) == 1 + Evictions(slots[1..], leak, maxSize)
  {
  }

  lemma StoreKeepsAccounts<K, V>(c: Cache<K, V>, k: K, v: V, size: nat)
    requires Valid(c)
    ensures
      var after := Update(c, k, Value(v, size));
      && Valid(after) && after.maxSize == c.maxSize && Leak(after) == Leak(c)
      && forall s :: s in after.slots ==> (s in c.slots && s.key != k) || s == Slot(k, Ready(v, size))
  {
    StoredFacts(c, k, v, size);
    PutFacts(c.slots, k, Ready(v, size));
    TrimmedFacts(Stored(c, k, v, size));
  }

  lemma FailureKeepsAccounts<K, V>(c: Cache<K, V>, k: K)
    requires Valid(c)
    ensures
      var after := Update(c, k, Failure);
      && Valid(after) && after.maxSize == c.maxSize && Leak(after) == Leak(c) + Leaked(c, k, Failure)
      && forall s :: s in after.slots ==> s in c.slots && s.key != k
  {
    WithoutKeepsOthers(c.slots, k);
    TotalWithout(c.slots, k);
    forall s | s in Update(c, k, Failure).slots ensures s in c.slots && s.key != k {
      assert s in Without(c.slots, k);
    }
  }

  /**
   Every update keeps the accounting: the leak grows by exactly what an error throws away, the
   counted size stays within the limit, and slots of other keys only ever disappear.
   */
  lemma UpdateKeepsAccounts<K, V>(c: Cache<K, V>, k: K, made: Made<V>)
    requires Valid(c)
    ensures Valid(Update(c, k, made)) && Update(c, k, made).maxSize == c.maxSize
    ensures Leak(Update(c, k, made)) == Leak(c) + Leaked(c, k, made)
    ensures forall s :: s in Update(c, k, made).slots ==>
      (s in c.slots && s.key != k) || (made.Value? && s == Slot(k, Ready(made.value, made.size)))
  {
    match made
    case Value(v, size) => StoreKeepsAccounts(c, k, v, size);
    case Failure => FailureKeepsAccounts(c, k);
  }

  /** The newest slot survives exactly when it fits beside the leak by itself. */
  lemma NewestSurvives<K, V>(slots: seq<Slot<K, V>>, leak: nat, maxSize: nat)
    requires slots != [] && leak <= maxSize
    ensures Evictions(slots, leak, maxSize) < |slots|
       <==> leak + EntrySize(slots[|slots| - 1].entry) <= maxSize
  {
  }

  /**
   After a value is stored, the survivors are the most recently used suffix that fits beside the
   leak and no shorter one; the new value survives exactly when it fits beside the leak by itself,
   and otherwise the whole cache, markers included, is emptied.
   */
  lemma EvictsJustEnough<K, V>(c: Cache<K, V>, k: K, v: V, size: nat)
    requires Valid(c)
    ensures
      var after, stored := Update(c, k, Value(v, size)), Stored(c, k, v, size).slots;
      var n := |stored| - |after.slots|;
      && 0 <= n && after.slots == stored[n..]
      && Leak(c) + Total(stored[n..]) <= c.maxSize
      && (forall i :: 0 <= i < n ==> Leak(c) + Total(stored[i..]) > c.maxSize)
      && (Slot(k, Ready(v, size)) in after.slots <==> Leak(c) + size <= c.maxSize)
      && (Leak(c) + size > c.maxSize ==> after.slots == [])
  {
    StoredFacts(c, k, v, size);
    PutFacts(c.slots, k, Ready(v, size));
    var stored := Stored(c, k, v, size).slots;
    var n := Evictions(stored, Leak(c), c.maxSize);
    NewestSurvives(stored, Leak(c), c.maxSize);
    assert Update(c, k, Value(v, size)).slots == stored[n..];
    if n < |stored| {
      assert stored[n..][|stored| - 1 - n] == Slot(k, Ready(v, size));
    }
  }

  /** Removing a key leaves the slots from another key's slot on as a suffix. */
  lemma {:induction false} WithoutFrom<K, V>(slots: seq<Slot<K, V>>, k: K, i: nat) returns (j: nat)
    requires i < |slots| && slots[i].key != k
    ensures j < |Without(slots, k)| && Without(slots, k)[j] == slots[i]
    ensures OneSlotPerKey(slots) ==> Without(slots, k)[j..] == Without(slots[i..], k)
  {
    if i == 0 {
      j := 0;
      assert slots[0..] == slots && Without(slots, k)[0..] == Without(slots, k);
    } else if slots[0].key == k {
      j := i - 1;
      assert Without(slots, k)[j..] == slots[i..];
      if OneSlotPerKey(slots) {
        Unaffected(slots[i..], k);
      }
    } else {
      j := WithoutFrom(slots[1..], k, i - 1);
      j := j + 1;
      assert Without(slots, k)[j..] == Without(slots[1..], k)[j - 1..];
      assert slots[i..] == slots[1..][i - 1..];
    }
  }

  lemma {:induction false} Unaffected<K, V>(slots: seq<Slot<K, V>>, k: K)
    requires forall i :: 0 <= i < |slots| ==> slots[i].key != k
    ensures Without(slots, k) == slots
  {
    if slots != [] {
      Unaffected(slots[1..], k);
    }
  }

  /** What a slot of another key needs to survive a store: everything from it on fits beside the leak. */
  predicate FitsFrom<K(==), V>(c: Cache<K, V>, i: nat, k: K, size: nat)
    requires i <= |c.slots|
  {
    Leak(c) + Total(Without(c.slots[i..], k)) + size <= c.maxSize
  }

  lemma InSuffix<K, V>(slots: seq<Slot<K, V>>, n: nat, j: nat)
    requires OneSlotPerKey(slots) && n <= |slots| && j < |slots|
    ensures slots[j] in slots[n..] <==> n <= j
  {
    if n <= j {
      assert slots[n..][j - n] == slots[j];
    }
  }

  lemma EvictedIff<K, V>(slots: seq<Slot<K, V>>, leak: int, maxSize: nat, j: nat)
    requires leak <= maxSize && j < |slots|
    ensures Evictions(slots, leak, maxSize) <= j <==> leak + Total(slots[j..]) <= maxSize
  {
    var n := Evictions(slots, leak, maxSize);
    if n <= j {
      TotalSuffix(slots[n..], j - n);
      assert slots[n..][j - n..] == slots[j..];
    }
  }

  /** A slot of another key survives a store exactly when it fits, a test on the cache before. */
  lemma SlotSurvivesIff<K, V>(c: Cache<K, V>, i: nat, k: K, v: V, size: nat)
    requires Valid(c) && i < |c.slots| && c.slots[i].key != k
    ensures c.slots[i] in Update(c, k, Value(v, size)).slots <==> FitsFrom(c, i, k, size)
  {
    var stored := Stored(c, k, v, size);
    var j := WithoutFrom(c.slots, k, i);
    StoredFacts(c, k, v, size);
    assert stored.slots[j..] == Without(c.slots[i..], k) + [Slot(k, Ready(v, size))];
    TotalSnoc(Without(c.slots[i..], k), Slot(k, Ready(v, size)));
    EvictedIff(stored.slots, Leak(stored), c.maxSize, j);
    InSuffix(stored.slots, Evictions(stored.slots, Leak(stored), c.maxSize), j);
  }

  /** With the whole limit leaked, a value of positive size empties the cache instead of being kept. */
  lemma LeakedOut<K, V>(c: Cache<K, V>, k: K, v: V, size: nat)
    requires Valid(c) && Leak(c) == c.maxSize && size > 0
    ensures Update(c, k, Value(v, size)).slots == []
    ensures Leak(Update(c, k, Value(v, size))) == c.maxSize
  {
    EvictsJustEnough(c, k, v, size);
    UpdateKeepsAccounts(c, k, Value(v, size));
  }

  lemma TouchKeepsAccounts<K, V>(c: Cache<K, V>, k: K)
    requires Valid(c)
    ensures Valid(Touch(c, k)) && Touch(c, k).maxSize == c.maxSize && Leak(Touch(c, k)) == Leak(c)
    ensures forall s :: s in Touch(c, k).slots ==> s in c.slots
    ensures forall s :: s in c.slots ==> s in Touch(c, k).slots
  {
    FindIsMember(c.slots, k);
    if Find(c.slots, k).Some? {
      PutFacts(c.slots, k, Find(c.slots, k).value);
      forall s | s in c.slots ensures s.key == k ==> s == Slot(k, Find(c.slots, k).value) {
        var i :| 0 <= i < |c.slots| && c.slots[i] == s;
        FindMember(c.slots, i);
      }
    }
  }

  lemma AddWaitingKeepsAccounts<K, V>(c: Cache<K, V>, k: K, request: nat)
    requires Valid(c) && Find(c.slots, k).None?
    ensures Valid(AddWaiting(c, k, request)) && Leak(AddWaiting(c, k, request)) == Leak(c)
    ensures forall s :: s in AddWaiting(c, k, request).slots ==> s == Slot(k, Waiting(request)) || s in c.slots
    ensures Slot(k, Waiting(request)) in AddWaiting(c, k, request).slots
    ensures forall s :: s in c.slots ==> s in AddWaiting(c, k, request).slots
  {
    FindIsMember(c.slots, k);
    PutFacts(c.slots, k, Waiting(request));
  }

  lemma DropWaitingKeepsAccounts<K, V>(c: Cache<K, V>, k: K)
    requires Valid(c)
    ensures Valid(DropWaiting(c, k)) && Leak(DropWaiting(c, k)) == Leak(c)
    ensures forall s :: s in DropWaiting(c, k).slots ==> s in c.slots && !(s.key == k && s.entry.Waiting?)
    ensures forall s :: s in c.slots && !(s.key == k && s.entry.Waiting?) ==> s in DropWaiting(c, k).slots
  {
    WithoutKeepsOthers(c.slots, k);
    TotalWithout(c.slots, k);
    FindIsMember(c.slots, k);
    forall s | s in c.slots && s.key == k ensures Find(c.slots, k) == Some(s.entry) {
      var i :| 0 <= i < |c.slots| && c.slots[i] == s;
      FindMember(c.slots, i);
    }
  }

  // ------------------------------------------------------------------ the object under the lock

  class Inner<K(==), V> {
    var slots: seq<Slot<K, V>>
    var currentSize: nat
    const maxSize: nat

    ghost function Model(): Cache<K, V>
      reads this
    {
      Cache(slots, currentSize, maxSize)
    }

    constructor (maxSize: nat)
      ensures Model() == Cache([], 0, maxSize) && Valid(Model())
    {
      this.maxSize := maxSize;
      slots := [];
      currentSize := 0;
    }

    /** Evicts from the old end; the loop never runs out of entries. */
    method TrimToSize()
      requires 0 <= Leak(Model()) <= maxSize
      modifies this
      ensures Model() == Trimmed(old(Model()))
    {
      ghost var gone := 0;
      ghost var before := slots;
      ghost var leak: nat := Leak(Model());
      while currentSize > maxSize
        invariant gone <= |before| && slots == before[gone..]
        invariant currentSize == leak + Total(slots)
        invariant Evictions(before, leak, maxSize) == gone + Evictions(slots, leak, maxSize)
        decreases |slots|
      {
        EvictOne(slots, leak, maxSize);
        DropOne(before, gone);
        var evicted := slots[0];
        slots := slots[1..];
        currentSize := currentSize - EntrySize(evicted.entry);
        gone := gone + 1;
      }
    }

    method UpdateValue(k: K, made: Made<V>)
      requires Valid(Model())
      modifies this
      ensures Model() == Update(old(Model()), k, made) && Valid(Model())
    {
      UpdateKeepsAccounts(Model(), k, made);
      match made {
        case Value(v, size) =>
          StoredFacts(Model(), k, v, size);
          TotalWithout(slots, k);
          ghost var stored := Stored(Model(), k, v, size);
          var replaced := Find(slots, k);
          currentSize := currentSize + size;
          slots := PutSlots(slots, k, Ready(v, size));
          if replaced.Some? {
            currentSize := currentSize - EntrySize(replaced.value);
          }
          assert Model() == stored;
          TrimToSize();
        case Failure =>
          slots := Without(slots, k);
      }
    }

    method DropWaitingEntry(k: K)
      requires Valid(Model())
      modifies this
      ensures Model() == DropWaiting(old(Model()), k) && Valid(Model())
    {
      DropWaitingKeepsAccounts(Model(), k);
      var found := Find(slots, k);
      if found.Some? && found.value.Waiting? {
        slots := Without(slots, k);
      }
    }
  }
}
