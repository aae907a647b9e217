/**
 A multipart upload: parts are numbered as they come in, finish in any order, and are put back in
 order when the upload completes.
 */
module MultipartUpload {
  import opened Common

  const MAX_PART_NUMBER: nat := 10000

  datatype Part<T> = Part(number: nat, data: T)

  function Numbered<T>(first: nat, chunks: seq<T>): (parts: seq<Part<T>>)
    ensures |parts| == |chunks| && forall i :: 0 <= i < |chunks| ==> parts[i] == Part(first + i, chunks[i])
  {
    seq(|chunks|, i requires 0 <= i < |chunks| => Part(first + i, chunks[i]))
  }

  predicate InOrder<T>(parts: seq<Part<T>>) {
    forall i, j :: 0 <= i < j < |parts| ==> parts[i].number <= parts[j].number
  }

  function Insert<T>(p: Part<T>, parts: seq<Part<T>>): seq<Part<T>> {
    if parts == [] || p.number < parts[0].number then [p] + parts else [parts[0]] + Insert(p, parts[1..])
  }

  /** A stable sort by part number. */
  function Sorted<T>(parts: seq<Part<T>>): seq<Part<T>> {
    if parts == [] then [] else Insert(parts[|parts| - 1], Sorted(parts[..|parts| - 1]))
  }

  lemma {:induction false} InsertBag<T>(p: Part<T>, parts: seq<Part<T>>)
    ensures multiset(Insert(p, parts)) == multiset(parts) + multiset{p}
  {
    if parts != [] {
      assert parts == [parts[0]] + parts[1..];
      InsertBag(p, parts[1..]);
    }
  }

  lemma {:induction false} InsertOrders<T>(p: Part<T>, parts: seq<Part<T>>)
    requires InOrder(parts)
    ensures InOrder(Insert(p, parts)) && Insert(p, parts) != []
    ensures Insert(p, parts)[0] == p || (parts != [] && Insert(p, parts)[0] == parts[0])
  {
    if parts != [] && p.number >= parts[0].number {
      InsertOrders(p, parts[1..]);
      var rest := Insert(p, parts[1..]);
      assert forall j :: 0 <= j < |rest| ==> rest[0].number <= rest[j].number;
    }
  }

  lemma {:induction false} SortedKeeps<T>(parts: seq<Part<T>>)
    ensures InOrder(Sorted(parts)) && multiset(Sorted(parts)) == multiset(parts)
  {
    if parts != [] {
      var n := |parts| - 1;
      SortedKeeps(parts[..n]);
      InsertBag(parts[n], Sorted(parts[..n]));
      InsertOrders(parts[n], Sorted(parts[..n]));
      assert parts == parts[..n] + [parts[n]];
    }
  }

  lemma TailBags<T>(a: seq<Part<T>>, b: seq<Part<T>>)
    requires a != [] && b != [] && a[0] == b[0] && multiset(a) == multiset(b)
    ensures multiset(a[1..]) == multiset(b[1..])
  {
    assert a == [a[0]] + a[1..] && b == [b[0]] + b[1..];
    assert multiset(a[1..]) == multiset(a) - multiset{a[0]};
  }

  lemma SameLength<T>(a: seq<Part<T>>, b: seq<Part<T>>)
    requires multiset(a) == multiset(b)
    ensures |a| == |b|
  {
    assert |multiset(a)| == |a| && |multiset(b)| == |b|;
  }

  /** The parts recorded, in the order they were written. */
  predicate Increasing<T>(log: seq<Part<T>>) {
    forall i, j :: 0 <= i < j < |log| ==> log[i].number < log[j].number
  }

  /** Different numbers leave one order only. */
  lemma {:induction false} OrderUnique<T>(a: seq<Part<T>>, log: seq<Part<T>>)
    requires InOrder(a) && Increasing(log) && multiset(a) == multiset(log)
    ensures a == log
    decreases |log|
  {
    SameLength(a, log);
    if log != [] {
      FirstPart(a, log);
      TailBags(a, log);
      OrderUnique(a[1..], log[1..]);
      assert a == [a[0]] + a[1..];
    }
  }

  lemma FirstPart<T>(a: seq<Part<T>>, log: seq<Part<T>>)
    requires a != [] && log != [] && InOrder(a) && Increasing(log) && multiset(a) == multiset(log)
    ensures a[0] == log[0]
  {
    assert log[0] in multiset(a) && a[0] in multiset(log);
    var i :| 0 <= i < |a| && a[i] == log[0];
    var j :| 0 <= j < |log| && log[j] == a[0];
    assert a[0].number <= a[i].number;
  }

  predicate Used<T>(log: seq<Part<T>>, number: nat) {
    exists i :: 0 <= i < |log| && log[i].number == number
  }

  /** Numbers between one and `next` have no gap exactly when there are `next - 1` of them. */
  lemma {:induction false} GapFreeIffFull<T>(log: seq<Part<T>>, next: nat)
    requires Increasing(log) && next > 0 && forall i :: 0 <= i < |log| ==> 1 <= log[i].number < next
    ensures |log| < next
    ensures next == |log| + 1 <==> forall k :: 1 <= k < next ==> Used(log, k)
    ensures next == |log| + 1 ==> forall i :: 0 <= i < |log| ==> log[i].number == i + 1
    decreases |log|
  {
    if log == [] {
      assert next > 1 ==> !Used(log, 1);
    } else {
      var n := |log| - 1;
      var last := log[n].number;
      GapFreeIffFull(log[..n], last);
      assert forall k :: Used(log, k) <==> Used(log[..n], k) || k == last by {
        forall k ensures Used(log, k) <==> Used(log[..n], k) || k == last {
          if Used(log[..n], k) {
            var i :| 0 <= i < n && log[..n][i].number == k;
            assert log[i].number == k;
          }
        }
      }
      assert last + 1 < next ==> !Used(log, last + 1);
    }
  }

  /** Numbers given out in sequence go on increasing. */
  lemma NumberedFollows<T>(log: seq<Part<T>>, next: nat, data: seq<T>)
    requires Increasing(log) && next > 0 && forall i :: 0 <= i < |log| ==> 1 <= log[i].number < next
    ensures
      var more := log + Numbered(next, data);
      Increasing(more) && forall i :: 0 <= i < |more| ==> 1 <= more[i].number < next + |data|
  {
  }

  class Upload<T> {
    var next: nat
    var uploaded: seq<Part<T>>

    ghost predicate Valid(log: seq<Part<T>>)
      reads this
    {
      && 1 <= next <= MAX_PART_NUMBER && multiset(uploaded) == multiset(log)
      && Increasing(log) && forall i :: 0 <= i < |log| ==> 1 <= log[i].number < next
    }

    constructor ()
      ensures Valid([]) && next == 1
    {
      next, uploaded := 1, [];
    }

    /** The successor is checked before the number is given out, so the last number is never used. */
    method NextPartNumber() returns (number: Option<nat>)
      requires 1 <= next <= MAX_PART_NUMBER
      modifies this`next
      ensures 1 <= next <= MAX_PART_NUMBER
      ensures number == if old(next) < 10000 then Some(old(next)) else None
      ensures next == if old(next) < MAX_PART_NUMBER then old(next) + 1 else old(next)
    {
      if next + 1 > MAX_PART_NUMBER {
        return None;
      }
      number := Some(next);
      next := next + 1;
    }

    /**
     Uploads that finish in the order `finish`, or of which one fails when `started` of them have begun.
     Parts are recorded only if all were uploaded; the numbers of the others are used up.
     */
    method WriteParallel(data: seq<T>, finish: Option<seq<Part<T>>>, started: nat, ghost log: seq<Part<T>>)
      returns (ok: bool)
      requires Valid(log) && started <= |data|
      requires finish.Some? ==> started == |data| && multiset(finish.value) == multiset(Numbered(next, data))
      modifies this
      ensures ok <==> finish.Some? && old(next) + |data| <= MAX_PART_NUMBER
      ensures Valid(if ok then log + Numbered(old(next), data) else log)
      ensures !ok ==> uploaded == old(uploaded)
      ensures next == if old(next) + started <= MAX_PART_NUMBER then old(next) + started else MAX_PART_NUMBER
    {
      for i := 0 to started
        invariant uploaded == old(uploaded) && next == old(next) + i <= MAX_PART_NUMBER
      {
        var number := NextPartNumber();
        if number.None? {
          return false;
        }
      }
      if finish.None? {
        return false;
      }
      NumberedFollows(log, old(next), data);
      uploaded := uploaded + finish.value;
      ok := true;
    }

    /** One chunk at a time; a failed upload uses up its number. */
    method Write(data: T, sent: bool, ghost log: seq<Part<T>>) returns (ok: bool)
      requires Valid(log)
      modifies this
      ensures ok <==> sent && old(next) < MAX_PART_NUMBER
      ensures Valid(if ok then log + [Part(old(next), data)] else log)
      ensures !ok ==> uploaded == old(uploaded)
      ensures next == if old(next) < MAX_PART_NUMBER then old(next) + 1 else MAX_PART_NUMBER
    {
      var number := NextPartNumber();
      if number.None? || !sent {
        return false;
      }
      uploaded := uploaded + [Part(number.value, data)];
      ok := true;
    }

    /** Completing puts the object together as it was written; its numbers have a gap exactly where writes failed. */
    method Complete(ghost log: seq<Part<T>>) returns (parts: seq<Part<T>>)
      requires Valid(log)
      ensures parts == log
      ensures next == |parts| + 1 <==> forall k :: 1 <= k < next ==> Used(parts, k)
      ensures next == |parts| + 1 ==> forall i :: 0 <= i < |parts| ==> parts[i].number == i + 1
    {
      parts := Sorted(uploaded);
      SortedKeeps(uploaded);
      OrderUnique(parts, log);
      GapFreeIffFull(log, next);
    }
  }
}
