/** The HPACK dynamic table: sizes and eviction, sections 4.1 to 4.4 of RFC 7541. */
module DynamicTable {
  import opened Common
  import opened StaticTable

  const ENTRY_OVERHEAD: nat := 32

  function EntrySize(f: Field): (n: nat)
    ensures n >= ENTRY_OVERHEAD
  {
    |f.name| + |f.value| + ENTRY_OVERHEAD
  }

  function TableSize(entries: seq<Field>): (n: nat) {
    if entries == [] then 0 else TableSize(entries[..|entries| - 1]) + EntrySize(entries[|entries| - 1])
  }

  /** Newest entry first; `limit` is the current size limit, `ceiling` what we advertised. */
  datatype Table = Table(entries: seq<Field>, limit: nat, ceiling: nat) {
    ghost predicate Valid() {
      TableSize(entries) <= limit <= ceiling
    }
  }

  /** Drop entries from the end until the rest fits. */
  function Evict(entries: seq<Field>, limit: nat): (kept: seq<Field>)
    decreases |entries|
  {
    if TableSize(entries) <= limit || entries == [] then entries else Evict(entries[..|entries| - 1], limit)
  }

  function Inserted(t: Table, f: Field): (t': Table) {
    if EntrySize(f) <= t.limit then t.(entries := [f] + Evict(t.entries, t.limit - EntrySize(f)))
    else t.(entries := [])
  }

  function Resized(t: Table, limit: nat): (t': Table) {
    t.(entries := Evict(t.entries, limit), limit := limit)
  }

  // --- what the RFC asks for, without saying how ---

  /** `kept` is the longest run of newest entries of `entries` that fits. */
  ghost predicate LongestFit(kept: seq<Field>, entries: seq<Field>, limit: nat) {
    && kept <= entries && TableSize(kept) <= limit
    && forall n :: |kept| < n <= |entries| ==> TableSize(entries[..n]) > limit
  }

  lemma {:induction false} SizeCons(f: Field, entries: seq<Field>)
    ensures TableSize([f] + entries) == EntrySize(f) + TableSize(entries)
  {
    var all := [f] + entries;
    if entries == [] {
      assert all == [f];
      assert all[..0] == [];
    } else {
      assert all[..|all| - 1] == [f] + entries[..|entries| - 1];
      SizeCons(f, entries[..|entries| - 1]);
    }
  }

  lemma {:induction false} SizeMono(entries: seq<Field>, n: nat)
    requires n <= |entries|
    ensures TableSize(entries[..n]) <= TableSize(entries)
  {
    if n < |entries| {
      var shorter := entries[..|entries| - 1];
      assert entries[..n] == shorter[..n];
      SizeMono(shorter, n);
    } else {
      assert entries[..n] == entries;
    }
  }

  lemma {:induction false} EvictLongest(entries: seq<Field>, limit: nat)
    ensures LongestFit(Evict(entries, limit), entries, limit)
    decreases |entries|
  {
    if TableSize(entries) > limit {
      var shorter := entries[..|entries| - 1];
      EvictLongest(shorter, limit);
      forall n | |Evict(shorter, limit)| < n <= |entries|
        ensures TableSize(entries[..n]) > limit
      {
        if n < |entries| {
          assert entries[..n] == shorter[..n];
        } else {
          assert entries[..n] == entries;
        }
      }
    }
  }

  /**
   * Insertion keeps the longest fitting run of the new entry and the old ones: all of it
   * gone when the new entry alone is too large. The size bound is kept.
   */
  lemma InsertLongest(t: Table, f: Field)
    ensures LongestFit(Inserted(t, f).entries, [f] + t.entries, t.limit)
    ensures t.Valid() ==> Inserted(t, f).Valid()
  {
    var all := [f] + t.entries;
    var kept := Inserted(t, f).entries;
    assert TableSize([]) == 0;
    if EntrySize(f) <= t.limit {
      var room := t.limit - EntrySize(f);
      EvictLongest(t.entries, room);
      SizeCons(f, Evict(t.entries, room));
      forall n | |kept| < n <= |all|
        ensures TableSize(all[..n]) > t.limit
      {
        assert all[..n] == [f] + t.entries[..n - 1];
        SizeCons(f, t.entries[..n - 1]);
      }
    } else {
      forall n | 0 < n <= |all|
        ensures TableSize(all[..n]) > t.limit
      {
        assert all[..n] == [f] + t.entries[..n - 1];
        SizeCons(f, t.entries[..n - 1]);
      }
    }
  }

  lemma ResizeLongest(t: Table, limit: nat)
    ensures LongestFit(Resized(t, limit).entries, t.entries, limit)
    ensures limit <= t.ceiling ==> Resized(t, limit).Valid()
  {
    EvictLongest(t.entries, limit);
  }

  /** A longest fit is unique, so the two lemmas above leave no freedom. */
  lemma LongestFitUnique(a: seq<Field>, b: seq<Field>, entries: seq<Field>, limit: nat)
    requires LongestFit(a, entries, limit) && LongestFit(b, entries, limit)
    ensures a == b
  {
    assert a == entries[..|a|] && b == entries[..|b|];
  }
}
