/**
 * The contents of the in-memory store (talisik/core/storage.py, MemoryStorage)
 * as a value: the records in the order their codes were first inserted, which
 * is the iteration order of the Python dictionary that holds them. A record is
 * found by its short code; storing a record under a code already present
 * replaces it in place, so a code occurs at most once.
 */
module Table {
  import opened Wrappers
  import opened Models

  /** The keys of the table. */
  ghost function Codes(t: seq<ShortURL>): set<string> {
    if |t| == 0 then {} else {t[0].shortCode} + Codes(t[1..])
  }

  /** No short code is held by two records: the table is a dictionary keyed by code. */
  ghost predicate UniqueCodes(t: seq<ShortURL>) {
    |t| == 0 || (t[0].shortCode !in Codes(t[1..]) && UniqueCodes(t[1..]))
  }

  /** `dict.get`: the record stored under `code`, or None. */
  function Lookup(t: seq<ShortURL>, code: string): (r: Option<ShortURL>)
    ensures r.Some? <==> code in Codes(t)
    ensures r.Some? ==> r.value.shortCode == code && r.value in t
    ensures UniqueCodes(t) ==> forall x :: x in t && x.shortCode == code ==> r == Some(x)
  {
    if |t| == 0 then None
    else if t[0].shortCode == code then
      assert UniqueCodes(t) ==> forall x :: x in t[1..] ==> x.shortCode != code by {
        if UniqueCodes(t) {
          forall x | x in t[1..] ensures x.shortCode != code { CodeOfMember(t[1..], x); }
        }
      }
      Some(t[0])
    else
      var r := Lookup(t[1..], code);
      assert forall x :: x in t && x != t[0] ==> x in t[1..];
      r
  }

  /** A member's code is a key. */
  lemma {:induction false} CodeOfMember(t: seq<ShortURL>, x: ShortURL)
    requires x in t
    ensures x.shortCode in Codes(t)
  {
    if t[0] != x {
      assert x in t[1..];
      CodeOfMember(t[1..], x);
    }
  }

  /**
   * `d[r.short_code] = r`: the record replaces the one under the same code where
   * there is one, keeping its position, and is appended otherwise.
   */
  function Put(t: seq<ShortURL>, r: ShortURL): (t': seq<ShortURL>)
    ensures Lookup(t', r.shortCode) == Some(r)
    ensures forall k :: k != r.shortCode ==> Lookup(t', k) == Lookup(t, k)
    ensures Codes(t') == Codes(t) + {r.shortCode}
    ensures |t'| == if r.shortCode in Codes(t) then |t| else |t| + 1
    ensures UniqueCodes(t) ==> UniqueCodes(t')
  {
    if |t| == 0 then
      assert [r][1..] == [];
      [r]
    else if t[0].shortCode == r.shortCode then
      assert ([r] + t[1..])[1..] == t[1..];
      [r] + t[1..]
    else
      var rest := Put(t[1..], r);
      assert ([t[0]] + rest)[1..] == rest;
      [t[0]] + rest
  }

  /** `del d[code]` when the code is present; the table is left as it is otherwise. */
  function Remove(t: seq<ShortURL>, code: string): (t': seq<ShortURL>)
    ensures forall k :: k != code ==> Lookup(t', k) == Lookup(t, k)
    ensures UniqueCodes(t) ==> Lookup(t', code) == None && Codes(t') == Codes(t) - {code}
    ensures Codes(t') <= Codes(t)
    ensures |t'| == if code in Codes(t) then |t| - 1 else |t|
    ensures code !in Codes(t) ==> t' == t
    ensures UniqueCodes(t) ==> UniqueCodes(t')
  {
    if |t| == 0 then t
    else if t[0].shortCode == code then t[1..]
    else
      var rest := Remove(t[1..], code);
      assert ([t[0]] + rest)[1..] == rest;
      [t[0]] + rest
  }

  /** `d[code].click_count += 1` when the code is present; the table is left as it is otherwise. */
  function IncrementClicks(t: seq<ShortURL>, code: string): (t': seq<ShortURL>)
    ensures Lookup(t, code).None? ==> t' == t
    ensures Lookup(t, code).Some? ==>
      Lookup(t', code) == Some(Lookup(t, code).value.(clickCount := Lookup(t, code).value.clickCount + 1))
    ensures forall k :: k != code ==> Lookup(t', k) == Lookup(t, k)
    ensures |t'| == |t| && Codes(t') == Codes(t)
    ensures UniqueCodes(t) ==> UniqueCodes(t')
  {
    match Lookup(t, code)
    case None => t
    case Some(u) => Put(t, u.(clickCount := u.clickCount + 1))
  }

  // ---------------------------------------------------------------------------
  // Aggregates for `get_stats`

  function Indicator(b: bool): nat { if b then 1 else 0 }

  /** Number of records with `is_active` set. */
  function ActiveCount(t: seq<ShortURL>): (n: nat)
    ensures n <= |t|
  {
    if |t| == 0 then 0 else Indicator(t[0].isActive) + ActiveCount(t[1..])
  }

  /** Sum of the click counts of all records. */
  function TotalClicks(t: seq<ShortURL>): (n: nat)
    ensures forall k :: 0 <= k < |t| ==> t[k].clickCount <= n
  {
    if |t| == 0 then 0 else t[0].clickCount + TotalClicks(t[1..])
  }

  /** The keys of the active records. */
  ghost function ActiveCodes(t: seq<ShortURL>): (s: set<string>)
    ensures s <= Codes(t)
  {
    CodesOfMembers(t);
    set x | x in t && x.isActive :: x.shortCode
  }

  /** Every member's code is a key. */
  lemma CodesOfMembers(t: seq<ShortURL>)
    ensures forall x :: x in t ==> x.shortCode in Codes(t)
  {
    forall x | x in t ensures x.shortCode in Codes(t) { CodeOfMember(t, x); }
  }

  /** The active keys are the first record's code when it is active, and the active keys of the rest. */
  lemma ActiveCodesSplit(t: seq<ShortURL>)
    requires |t| > 0
    ensures ActiveCodes(t) == (if t[0].isActive then {t[0].shortCode} else {}) + ActiveCodes(t[1..])
  {
    assert forall x :: x in t <==> x == t[0] || x in t[1..];
  }

  /** How the aggregates change when one record is stored. */
  lemma {:induction false} AggregatesAfterPut(t: seq<ShortURL>, r: ShortURL)
    ensures Lookup(t, r.shortCode).None? ==>
      && ActiveCount(Put(t, r)) == ActiveCount(t) + Indicator(r.isActive)
      && TotalClicks(Put(t, r)) == TotalClicks(t) + r.clickCount
    ensures Lookup(t, r.shortCode).Some? ==>
      var replaced := Lookup(t, r.shortCode).value;
      && ActiveCount(Put(t, r)) + Indicator(replaced.isActive) == ActiveCount(t) + Indicator(r.isActive)
      && TotalClicks(Put(t, r)) + replaced.clickCount == TotalClicks(t) + r.clickCount
  {
    if |t| == 0 {
      assert Put(t, r) == [r];
      assert [r][1..] == [];
    } else if t[0].shortCode == r.shortCode {
      assert Put(t, r)[1..] == t[1..];
    } else {
      AggregatesAfterPut(t[1..], r);
      assert Put(t, r)[1..] == Put(t[1..], r);
    }
  }

  /** How the aggregates change when one record is removed. */
  lemma {:induction false} AggregatesAfterRemove(t: seq<ShortURL>, code: string)
    ensures Lookup(t, code).Some? ==>
      var gone := Lookup(t, code).value;
      && ActiveCount(Remove(t, code)) + Indicator(gone.isActive) == ActiveCount(t)
      && TotalClicks(Remove(t, code)) + gone.clickCount == TotalClicks(t)
  {
    if |t| > 0 && t[0].shortCode != code {
      AggregatesAfterRemove(t[1..], code);
      assert Remove(t, code)[1..] == Remove(t[1..], code);
    }
  }

  /** With unique codes the number of records is the number of keys, and likewise for the active ones. */
  lemma {:induction false} SizeIsKeyCount(t: seq<ShortURL>)
    ensures UniqueCodes(t) ==> |Codes(t)| == |t|
    ensures UniqueCodes(t) ==> ActiveCount(t) == |ActiveCodes(t)|
  {
    if |t| > 0 && UniqueCodes(t) {
      SizeIsKeyCount(t[1..]);
      ActiveCodesSplit(t);
      assert t[0].shortCode !in ActiveCodes(t[1..]);
    }
  }
}
