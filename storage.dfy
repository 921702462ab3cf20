/**
 * The in-memory storage backend (talisik/core/storage.py, MemoryStorage): a
 * dictionary from short code to record that its methods update in place.
 */
module Storage {
  import opened Wrappers
  import opened Models
  import opened Table
  import opened Listing

  /** The aggregate counts `get_stats` reports. */
  datatype Stats = Stats(totalUrls: nat, activeUrls: nat, totalClicks: nat)

  /** The statistics of a table: its size, its active records and the sum of all clicks. */
  function StatsOf(t: seq<ShortURL>): (s: Stats)
    ensures s.activeUrls <= s.totalUrls == |t|
    ensures s.totalClicks == TotalClicks(t)
  {
    Stats(|t|, ActiveCount(t), TotalClicks(t))
  }

  /** With one record per code, the statistics count distinct codes and distinct active codes. */
  lemma StatsCountCodes(t: seq<ShortURL>)
    requires UniqueCodes(t)
    ensures StatsOf(t).totalUrls == |Codes(t)| && StatsOf(t).activeUrls == |ActiveCodes(t)|
  {
    SizeIsKeyCount(t);
  }

  class MemoryStorage {
    /** `self._urls`, in insertion order. */
    var entries: seq<ShortURL>

    /** Every record sits under its own code, and under no other. */
    ghost predicate Valid()
      reads this
    {
      UniqueCodes(entries)
    }

    constructor ()
      ensures Valid() && entries == []
    {
      entries := [];
    }

    /** The record stored under `code`, or None; it is always a stored record with that code. */
    function Get(code: string): (r: Option<ShortURL>)
      reads this
      ensures r.Some? <==> code in Codes(entries)
      ensures r.Some? ==> r.value in entries && r.value.shortCode == code
    {
      Lookup(entries, code)
    }

    /** Key membership. */
    function Exists(code: string): (b: bool)
      reads this
      ensures b <==> code in Codes(entries)
      ensures b <==> Get(code).Some?
    {
      Lookup(entries, code).Some?
    }

    /** Inserts or overwrites the record under its own code; every other key keeps its record. */
    method Set(r: ShortURL)
      requires Valid()
      modifies this
      ensures Valid()
      ensures entries == Put(old(entries), r)
      ensures Get(r.shortCode) == Some(r)
      ensures forall k :: k != r.shortCode ==> Get(k) == old(Get(k))
      ensures |entries| == if old(Exists(r.shortCode)) then old(|entries|) else old(|entries|) + 1
    {
      entries := Put(entries, r);
    }

    /** Removes the record under `code`; the answer says whether there was one. */
    method Delete(code: string) returns (deleted: bool)
      requires Valid()
      modifies this
      ensures Valid()
      ensures deleted == old(Exists(code))
      ensures entries == Remove(old(entries), code)
      ensures Get(code) == None
      ensures forall k :: k != code ==> Get(k) == old(Get(k))
    {
      if Exists(code) {
        entries := Remove(entries, code);
        deleted := true;
      } else {
        deleted := false;
      }
    }

    /** Adds one click to the record under `code` and returns the new count, or None when absent. */
    method UpdateClickCount(code: string) returns (count: Option<int>)
      requires Valid()
      modifies this
      ensures Valid()
      ensures entries == IncrementClicks(old(entries), code)
      ensures old(Get(code)).None? ==> count == None && entries == old(entries)
      ensures old(Get(code)).Some? ==>
        var before := old(Get(code)).value;
        && count == Some(before.clickCount + 1)
        && Get(code) == Some(before.(clickCount := before.clickCount + 1))
      ensures forall k :: k != code ==> Get(k) == old(Get(k))
    {
      if Exists(code) {
        entries := IncrementClicks(entries, code);
        count := Some(Get(code).value.clickCount);
      } else {
        count := None;
      }
    }

    /** Number of keys, number of active records, and the sum of the click counts. */
    function GetStats(): (s: Stats)
      reads this
      requires Valid()
      ensures s.totalUrls == |Codes(entries)|
      ensures s.activeUrls == |ActiveCodes(entries)| && s.activeUrls <= s.totalUrls
      ensures s.totalClicks == TotalClicks(entries)
    {
      StatsCountCodes(entries);
      StatsOf(entries)
    }

    /**
     * One row per stored record, newest first. The rows are built in dictionary
     * order and then sorted.
     */
    method GetAllUrls() returns (rows: seq<UrlRow>)
      requires Valid()
      ensures |rows| == |entries|
      ensures NewestFirst(rows)
      ensures multiset(rows) == multiset(RowsOf(entries))
      ensures forall i :: 0 <= i < |entries| ==> RowOf(entries[i]) in rows
      ensures forall row :: row in rows ==> Get(row.shortCode).Some? && RowOf(Get(row.shortCode).value) == row
    {
      var urls: seq<UrlRow> := [];
      for i := 0 to |entries|
        invariant |urls| == i
        invariant forall j :: 0 <= j < i ==> urls[j] == RowOf(entries[j])
      {
        urls := urls + [RowOf(entries[i])];
      }
      assert urls == RowsOf(entries);
      rows := SortNewestFirst(urls);
      forall i | 0 <= i < |entries| ensures RowOf(entries[i]) in rows {
        assert urls[i] in multiset(urls);
      }
      forall row | row in rows
        ensures Get(row.shortCode).Some? && RowOf(Get(row.shortCode).value) == row
      {
        assert row in multiset(rows);
        var j :| 0 <= j < |urls| && urls[j] == row;
        assert entries[j] in entries;
      }
    }
  }
}
