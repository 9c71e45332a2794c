/**
 The raft log in a bbolt bucket (pkg/reef/raft/types.go:256-295).

 bbolt keeps keys in byte order.  The keys are the decimal indices padded to twenty
 digits, so byte order is index order and a cursor can stop at the first larger index.
 */
module LogStore {
  import opened Tasks
  import opened Words
  import Strings

  datatype RaftEntry = RaftEntry(index: uint64, payload: string)

  function Zeros(n: nat): string {
    seq(n, i => '0')
  }

  /** The numeral padded with zeros on the left, as %020d prints it. */
  function Padded(n: nat, width: nat): string {
    var d := Strings.Decimal(n);
    if |d| >= width then d else Zeros(width - |d|) + d
  }

  function EntryKey(i: uint64): string {
    "entry_" + Padded(i, 20)
  }

  function Pow10(w: nat): nat {
    if w == 0 then 1 else 10 * Pow10(w - 1)
  }

  lemma {:induction false} DecimalFits(n: nat, w: nat)
    requires n < Pow10(w) && w > 0
    ensures |Strings.Decimal(n)| <= w
  {
    if n >= 10 {
      DecimalFits(n / 10, w - 1);
    }
  }

  /** A fixed-width numeral ends in the last digit, after the numeral of the other digits. */
  lemma PaddedSnoc(n: nat, w: nat)
    requires n < Pow10(w + 1) && w > 0
    ensures |Padded(n, w + 1)| == w + 1
    ensures n / 10 < Pow10(w) && |Padded(n / 10, w)| == w
    ensures Padded(n, w + 1) == Padded(n / 10, w) + [Strings.Digit(n % 10)]
  {
    DecimalFits(n, w + 1);
    DecimalFits(n / 10, w);
    if n < 10 {
      assert Padded(0, w) == Zeros(w - 1) + ['0'];
      assert Zeros(w) == Zeros(w - 1) + ['0'];
    } else {
      assert Padded(n, w + 1) == Zeros(w - |Strings.Decimal(n / 10)|) + Strings.Decimal(n / 10) + [Strings.Digit(n % 10)];
    }
  }

  /** Appending one character to strings of the same length refines their order. */
  lemma {:induction false} LessSnoc(a: string, b: string, c: char, d: char)
    requires |a| == |b|
    ensures Strings.Less(a + [c], b + [d]) <==> Strings.Less(a, b) || (a == b && c < d)
  {
    if a == [] {
      assert a + [c] == [c] && b + [d] == [d];
      assert !Strings.Less([c][1..], [d][1..]);
    } else {
      LessSnoc(a[1..], b[1..], c, d);
      assert (a + [c])[1..] == a[1..] + [c] && (b + [d])[1..] == b[1..] + [d];
      assert a == b <==> a[0] == b[0] && a[1..] == b[1..] by {
        assert a == [a[0]] + a[1..] && b == [b[0]] + b[1..];
      }
    }
  }

  lemma {:induction false} PaddedOrder(m: nat, n: nat, w: nat)
    requires m < Pow10(w) && n < Pow10(w) && w > 0
    ensures |Padded(m, w)| == |Padded(n, w)| == w
    ensures Strings.Less(Padded(m, w), Padded(n, w)) <==> m < n
    ensures Padded(m, w) == Padded(n, w) ==> m == n
  {
    if w == 1 {
      assert Strings.Less([Strings.Digit(m)], [Strings.Digit(n)]) <==> m < n;
    } else {
      PaddedSnoc(m, w - 1);
      PaddedSnoc(n, w - 1);
      PaddedOrder(m / 10, n / 10, w - 1);
      LessSnoc(Padded(m / 10, w - 1), Padded(n / 10, w - 1), Strings.Digit(m % 10), Strings.Digit(n % 10));
      LastDigits(Padded(m, w), Padded(n, w), w - 1);
    }
  }

  lemma LastDigits(a: string, b: string, k: nat)
    requires |a| == |b| == k + 1
    ensures a == b ==> a[..k] == b[..k] && a[k] == b[k]
  {
  }

  lemma TwentyDigits()
    ensures Pow10(20) == 100_000_000_000_000_000_000 > UINT64
  {
    assert Pow10(5) == 100_000;
    assert Pow10(10) == 10_000_000_000;
    assert Pow10(15) == 1_000_000_000_000_000;
  }

  lemma {:induction false} CommonPrefix(p: string, a: string, b: string)
    ensures Strings.Less(p + a, p + b) <==> Strings.Less(a, b)
  {
    if p == [] {
      assert p + a == a && p + b == b;
    } else {
      CommonPrefix(p[1..], a, b);
      assert (p + a)[1..] == p[1..] + a && (p + b)[1..] == p[1..] + b;
    }
  }

  /** Byte order of the keys is numerical order of the indices. */
  lemma KeysSortAsIndices(i: uint64, j: uint64)
    ensures Strings.Less(EntryKey(i), EntryKey(j)) <==> i < j
    ensures EntryKey(i) == EntryKey(j) <==> i == j
    ensures |EntryKey(i)| == 26 && EntryKey(i)[..6] == "entry_"
  {
    TwentyDigits();
    PaddedOrder(i, j, 20);
    CommonPrefix("entry_", Padded(i, 20), Padded(j, 20));
    assert EntryKey(i)[|"entry_"|..] == Padded(i, 20) && EntryKey(j)[|"entry_"|..] == Padded(j, 20);
  }

  // ----- The bucket -----

  /** k is not before `from`. */
  predicate AtOrAfter(k: string, from: string) {
    k == from || Strings.Less(from, k)
  }

  /** bbolt's promise for Seek and Next: the first key that is admitted. */
  ghost predicate IsFirst(keys: set<string>, r: Option<string>, admitted: string -> bool) {
    match r
    case None => forall k :: k in keys ==> !admitted(k)
    case Some(f) => f in keys && admitted(f) && forall k :: k in keys && admitted(k) ==> AtOrAfter(k, f)
  }

  class BoltStore {
    var bucket: map<string, RaftEntry>
    ghost var log: map<uint64, RaftEntry>

    constructor ()
      ensures Valid() && log == map[]
    {
      bucket, log := map[], map[];
    }

    /** The bucket holds, under its key, the entry last written for each index. */
    ghost predicate Valid()
      reads this
    {
      && (forall i :: i in log ==> log[i].index == i && EntryKey(i) in bucket && bucket[EntryKey(i)] == log[i])
      && (forall k :: k in bucket ==> bucket[k].index in log && k == EntryKey(bucket[k].index))
    }

    method Put(e: RaftEntry)
      requires Valid()
      modifies this
      ensures Valid() && log == old(log)[e.index := e]
    {
      forall i | i in log && EntryKey(i) == EntryKey(e.index) ensures i == e.index {
        KeysSortAsIndices(i, e.index);
      }
      bucket := bucket[EntryKey(e.index) := e];
      log := log[e.index := e];
    }

    /** SaveEntries: a later entry for the same index replaces the earlier one. */
    method SaveEntries(entries: seq<RaftEntry>)
      requires Valid()
      modifies this
      ensures Valid() && log == Overwritten(old(log), entries)
      ensures forall k :: 0 <= k < |entries| && (forall j :: k < j < |entries| ==> entries[j].index != entries[k].index) ==>
        entries[k].index in log && log[entries[k].index] == entries[k]
      ensures forall i :: (forall k :: 0 <= k < |entries| ==> entries[k].index != i) ==>
        (i in log <==> i in old(log)) && (i in log ==> log[i] == old(log)[i])
    {
      for n := 0 to |entries|
        invariant Valid() && log == Overwritten(old(log), entries[..n])
      {
        assert entries[..n + 1][..n] == entries[..n];
        Put(entries[n]);
      }
      assert entries[..|entries|] == entries;
      forall k | 0 <= k < |entries| && (forall j :: k < j < |entries| ==> entries[j].index != entries[k].index)
        ensures entries[k].index in log && log[entries[k].index] == entries[k]
      {
        LastWriteWins(old(log), entries, k);
      }
      forall i: uint64 | (forall k :: 0 <= k < |entries| ==> entries[k].index != i)
        ensures (i in log <==> i in old(log)) && (i in log ==> log[i] == old(log)[i])
      {
        OthersAreKept(old(log), entries, i);
      }
    }

    /** The least key of the bucket that is not before `from`, or after it if `strictly`. */
    method First(from: string, strictly: bool) returns (r: Option<string>)
      ensures IsFirst(bucket.Keys, r, k => if strictly then Strings.Less(from, k) else AtOrAfter(k, from))
    {
      r := None;
      var todo := bucket.Keys;
      while todo != {}
        invariant todo <= bucket.Keys
        invariant IsFirst(bucket.Keys - todo, r, k => if strictly then Strings.Less(from, k) else AtOrAfter(k, from))
        decreases todo
      {
        var k :| k in todo;
        todo := todo - {k};
        var admitted := if strictly then Strings.Less(from, k) else AtOrAfter(k, from);
        if admitted && (r.None? || Strings.Less(k, r.value)) {
          if r.Some? {
            Earlier(bucket.Keys - todo, k, r.value);
          }
          r := Some(k);
        } else if admitted {
          Strings.LessIsTotal(k, r.value);
        }
      }
      assert bucket.Keys - {} == bucket.Keys;
    }

    lemma Earlier(keys: set<string>, k: string, r: string)
      requires Strings.Less(k, r)
      ensures forall j :: j in keys && AtOrAfter(j, r) ==> AtOrAfter(j, k)
    {
      forall j | j in keys && AtOrAfter(j, r) ensures AtOrAfter(j, k) {
        if j != r {
          Strings.LessIsTransitive(k, r, j);
        }
      }
    }

    /** The first stored index that is admitted, behind the key that a cursor found. */
    lemma FoundIndex(from: uint64, strictly: bool, r: Option<string>)
      requires Valid() && IsFirst(bucket.Keys, r, k => if strictly then Strings.Less(EntryKey(from), k) else AtOrAfter(k, EntryKey(from)))
      ensures r.None? ==> forall i :: i in log ==> i < from || (strictly && i == from)
      ensures r.Some? ==>
        && r.value in bucket && bucket[r.value].index in log && bucket[r.value] == log[bucket[r.value].index]
        && (if strictly then from < bucket[r.value].index else from <= bucket[r.value].index)
        && forall i :: i in log && (if strictly then from < i else from <= i) ==> bucket[r.value].index <= i
    {
      forall i | i in log ensures Strings.Less(EntryKey(from), EntryKey(i)) <==> from < i ensures EntryKey(from) == EntryKey(i) <==> from == i {
        KeysSortAsIndices(from, i);
      }
      if r.Some? {
        var f := bucket[r.value].index;
        forall i | i in log && AtOrAfter(EntryKey(i), EntryKey(f)) ensures f <= i {
          KeysSortAsIndices(f, i);
        }
      }
    }

    /** LoadEntries: seeks the first key and stops at the first larger index. */
    method LoadEntries(lo: uint64, hi: uint64) returns (entries: seq<RaftEntry>)
      requires Valid()
      ensures entries == Between(log, lo, hi)
    {
      hide Valid, EntryKey, IsFirst, Between, AtOrAfter;
      entries := [];
      var k := First(EntryKey(lo), false);
      FoundIndex(lo, false, k);
      ghost var next: int := lo;
      while k.Some?
        invariant lo <= next <= UINT64
        invariant entries + Between(log, next, hi) == Between(log, lo, hi)
        invariant k.Some? ==> k.value in bucket && bucket[k.value].index in log && bucket[k.value] == log[bucket[k.value].index]
        invariant k.Some? ==> next <= bucket[k.value].index && forall i :: i in log && next <= i ==> bucket[k.value].index <= i
        invariant k.None? ==> forall i :: i in log ==> i < next
        decreases UINT64 - next, k.Some?
      {
        var e := bucket[k.value];
        NothingBetween(log, next, hi, e.index);
        if e.index > hi {
          Beyond(log, e.index, hi);
          assert entries + [] == entries;
          return;
        }
        Within(log, e.index, hi);
        entries := entries + [e];
        next := e.index + 1;
        k := First(EntryKey(e.index), true);
        FoundIndex(e.index, true, k);
      }
      NothingBetween(log, next, hi, if next <= hi then hi + 1 else next);
      Beyond(log, if next <= hi then hi + 1 else next, hi);
      assert entries + [] == entries;
    }
  }

  function Overwritten(log: map<uint64, RaftEntry>, entries: seq<RaftEntry>): map<uint64, RaftEntry> {
    if entries == [] then log
    else Overwritten(log, entries[..|entries| - 1])[entries[|entries| - 1].index := entries[|entries| - 1]]
  }

  /** The last entry written for an index is the one kept. */
  lemma {:induction false} LastWriteWins(log: map<uint64, RaftEntry>, entries: seq<RaftEntry>, k: nat)
    requires k < |entries| && forall j :: k < j < |entries| ==> entries[j].index != entries[k].index
    ensures entries[k].index in Overwritten(log, entries) && Overwritten(log, entries)[entries[k].index] == entries[k]
  {
    var front, last := entries[..|entries| - 1], |entries| - 1;
    if k < last {
      assert entries[last].index != entries[k].index;
      LastWriteWins(log, front, k);
    }
  }

  /** An index that is not written keeps its entry. */
  lemma {:induction false} OthersAreKept(log: map<uint64, RaftEntry>, entries: seq<RaftEntry>, i: uint64)
    requires forall k :: 0 <= k < |entries| ==> entries[k].index != i
    ensures i in Overwritten(log, entries) <==> i in log
    ensures i in log ==> Overwritten(log, entries)[i] == log[i]
  {
    if entries != [] {
      assert entries[|entries| - 1].index != i;
      OthersAreKept(log, entries[..|entries| - 1], i);
    }
  }

  /** The entries with lo <= index <= hi, in index order. */
  function Between(log: map<uint64, RaftEntry>, lo: int, hi: int): seq<RaftEntry>
    requires lo >= 0 && hi < UINT64
    decreases hi - lo
  {
    if lo > hi then [] else (if lo in log then [log[lo]] else []) + Between(log, lo + 1, hi)
  }

  /** What LoadEntries returns: exactly the stored entries with lo <= index <= hi, in index order. */
  lemma {:induction false} BetweenIsExact(log: map<uint64, RaftEntry>, lo: int, hi: int)
    requires lo >= 0 && hi < UINT64 && forall i :: i in log ==> log[i].index == i
    ensures forall e :: e in Between(log, lo, hi) <==> lo <= e.index <= hi && e.index in log && log[e.index] == e
    ensures forall j, k :: 0 <= j < k < |Between(log, lo, hi)| ==> Between(log, lo, hi)[j].index < Between(log, lo, hi)[k].index
    decreases hi - lo
  {
    if lo <= hi {
      BetweenIsExact(log, lo + 1, hi);
      var rest := Between(log, lo + 1, hi);
      forall k | 0 <= k < |rest| ensures lo < rest[k].index {
        assert rest[k] in rest;
      }
    }
  }

  lemma Beyond(log: map<uint64, RaftEntry>, lo: int, hi: int)
    requires 0 <= lo && hi < UINT64 && lo > hi
    ensures Between(log, lo, hi) == []
  {
  }

  lemma Within(log: map<uint64, RaftEntry>, lo: uint64, hi: uint64)
    requires lo in log && lo <= hi
    ensures Between(log, lo, hi) == [log[lo]] + Between(log, lo + 1, hi)
  {
  }

  lemma {:induction false} NothingBetween(log: map<uint64, RaftEntry>, lo: int, hi: int, next: int)
    requires 0 <= lo <= next && hi < UINT64 && forall i :: i in log && lo <= i <= hi ==> next <= i
    ensures lo <= hi && next > hi ==> Between(log, lo, hi) == []
    ensures Between(log, lo, hi) == Between(log, next, hi)
    decreases next - lo
  {
    if lo < next {
      NothingBetween(log, lo + 1, hi, next);
    }
  }
}
