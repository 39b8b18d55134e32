/** The ring buffer of finished runs, against an unbounded log. */
module History {

  datatype Entry = Entry(
    repo: string, reason: string, executor: string, result: string, error: string, start: nat, duration: string)

  /** The last entries of the log, at most size of them, newest first. */
  function NewestFirst(log: seq<Entry>, size: nat): (r: seq<Entry>)
    ensures |r| == if |log| < size then |log| else size
    ensures forall i :: 0 <= i < |r| ==> r[i] == log[|log| - 1 - i]
  {
    if log == [] || size == 0 then []
    else [log[|log| - 1]] + NewestFirst(log[..|log| - 1], size - 1)
  }

  class History {
    var entries: array<Entry>
    var idx: nat  // the slot that Record fills next
    var filled: bool
    ghost var log: seq<Entry>  // everything ever recorded

    /** Slots below idx hold the newest entries; once filled, the slots from idx
        on hold the ones before them. */
    ghost predicate Valid()
      reads this, entries
    {
      && 0 < entries.Length && idx < entries.Length
      && (if filled then entries.Length <= |log| else |log| == idx)
      && (forall j :: 0 <= j < idx ==> entries[j] == log[|log| - idx + j])
      && (filled ==> forall j :: idx <= j < entries.Length ==> entries[j] == log[|log| - idx - entries.Length + j])
    }

    constructor (size: int)
      ensures Valid() && fresh(entries) && log == []
      ensures entries.Length == if size <= 0 then 100 else size
    {
      var n := if size <= 0 then 100 else size;
      entries := new Entry[n];
      idx, filled, log := 0, false, [];
    }

    method Record(e: Entry)
      requires Valid()
      modifies this, entries
      ensures Valid() && entries == old(entries)
      ensures log == old(log) + [e]
    {
      entries[idx] := e;
      idx := idx + 1;
      log := log + [e];
      if idx == entries.Length {
        idx := 0;
        filled := true;
      }
    }

    /** Walks backwards round the buffer from the newest entry. */
    method Entries() returns (out: seq<Entry>)
      requires Valid()
      ensures out == NewestFirst(log, entries.Length)
    {
      var n := if filled then entries.Length else idx;
      out := [];
      for i := 1 to n + 1
        invariant |out| == i - 1
        invariant forall j :: 0 <= j < i - 1 ==> out[j] == log[|log| - 1 - j]
      {
        var at := Slot(idx, i, entries.Length);
        assert entries[at] == log[|log| - i];
        out := out + [entries[at]];
      }
    }
  }

  /** The slot i places before idx, counting round the buffer. */
  function Slot(idx: nat, i: nat, n: nat): (at: nat)
    requires idx < n && 1 <= i <= n
    ensures at == if i <= idx then idx - i else idx - i + n
  {
    var x := idx - i + n;
    Wrap(x, n);
    x % n
  }

  lemma Wrap(x: nat, n: nat)
    requires x < n + n && n > 0
    ensures x % n == if x < n then x else x - n
  {
    var q := x / n;
    assert x == q * n + x % n;
    assert q >= 2 ==> q * n >= 2 * n;
  }

  /** Any sequence of records, from a fresh buffer of any size. */
  method RecordAll(size: int, es: seq<Entry>) returns (out: seq<Entry>)
    ensures out == NewestFirst(es, if size <= 0 then 100 else size)
  {
    var h := new History(size);
    ghost var n := h.entries.Length;
    for i := 0 to |es|
      invariant h.Valid() && fresh(h) && fresh(h.entries)
      invariant h.entries.Length == n && h.log == es[..i]
    {
      h.Record(es[i]);
    }
    assert es[..|es|] == es;
    out := h.Entries();
  }
}
