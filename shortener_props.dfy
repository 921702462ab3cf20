/**
 * Properties that relate several operations of the shortening engine
 * (talisik/core/shortener.py) and its in-memory storage.
 */
module ShortenerProps {
  import opened Wrappers
  import opened Models
  import opened Table
  import opened Storage
  import opened Urls
  import opened Shortener

  /**
   * Round trip: the code a successful shorten returns expands to the URL given,
   * at any moment up to and including the expiry.
   */
  lemma ShortenThenExpand(t: seq<ShortURL>, baseUrl: string, defaultCodeLength: int,
                          request: ShortenRequest, now: int, id: string, draw: nat -> nat, later: int)
    requires ShortenOn(t, baseUrl, defaultCodeLength, request, now, id, draw).result.Success?
    requires ExpiryFor(request.expiresHours, now).Some? ==> later <= ExpiryFor(request.expiresHours, now).value
    ensures var s := ShortenOn(t, baseUrl, defaultCodeLength, request, now, id, draw);
      ExpandOn(s.table, s.result.shortCode, later).result == Some(request.url)
  {
  }

  /** Right after shortening, expansion succeeds unless the requested hours are negative. */
  lemma ShortenThenExpandAtOnce(t: seq<ShortURL>, baseUrl: string, defaultCodeLength: int,
                                request: ShortenRequest, now: int, id: string, draw: nat -> nat)
    requires ShortenOn(t, baseUrl, defaultCodeLength, request, now, id, draw).result.Success?
    requires request.expiresHours.Some? ==> request.expiresHours.value >= 0
    ensures var s := ShortenOn(t, baseUrl, defaultCodeLength, request, now, id, draw);
      ExpandOn(s.table, s.result.shortCode, now).result == Some(request.url)
  {
    ShortenThenExpand(t, baseUrl, defaultCodeLength, request, now, id, draw, now);
  }

  /**
   * A negative number of hours is accepted and gives a record that has expired
   * already: it does not expand and is reported as expired.
   */
  lemma NegativeHoursExpireAtOnce(t: seq<ShortURL>, baseUrl: string, defaultCodeLength: int,
                                  request: ShortenRequest, now: int, id: string, draw: nat -> nat)
    requires ShortenOn(t, baseUrl, defaultCodeLength, request, now, id, draw).result.Success?
    requires request.expiresHours.Some? && request.expiresHours.value < 0
    ensures var s := ShortenOn(t, baseUrl, defaultCodeLength, request, now, id, draw);
      && ExpandOn(s.table, s.result.shortCode, now).result == None
      && InfoOn(s.table, s.result.shortCode, now).value.isExpired
  {
  }

  /**
   * The expiry is strict: a record created for h hours still expands exactly h
   * hours later and stops one second after that.
   */
  lemma ExpiryBoundary(t: seq<ShortURL>, baseUrl: string, defaultCodeLength: int,
                       request: ShortenRequest, now: int, id: string, draw: nat -> nat)
    requires ShortenOn(t, baseUrl, defaultCodeLength, request, now, id, draw).result.Success?
    requires request.expiresHours.Some? && request.expiresHours.value != 0
    ensures var s := ShortenOn(t, baseUrl, defaultCodeLength, request, now, id, draw);
      var h := request.expiresHours.value;
      && s.result.expiresAt == Some(now + h * SecondsPerHour)
      && ExpandOn(s.table, s.result.shortCode, now + h * SecondsPerHour).result == Some(request.url)
      && ExpandOn(s.table, s.result.shortCode, now + h * SecondsPerHour + 1).result == None
  {
    var expiry := now + request.expiresHours.value * SecondsPerHour;
    assert ExpiryFor(request.expiresHours, now) == Some(expiry);
    ShortenThenExpand(t, baseUrl, defaultCodeLength, request, now, id, draw, expiry);
    ShortenThenExpired(t, baseUrl, defaultCodeLength, request, now, id, draw, expiry + 1);
  }

  /** Once the expiry has passed, the code of a successful shorten no longer expands. */
  lemma ShortenThenExpired(t: seq<ShortURL>, baseUrl: string, defaultCodeLength: int,
                           request: ShortenRequest, now: int, id: string, draw: nat -> nat, later: int)
    requires ShortenOn(t, baseUrl, defaultCodeLength, request, now, id, draw).result.Success?
    requires ExpiryFor(request.expiresHours, now).Some? && later > ExpiryFor(request.expiresHours, now).value
    ensures var s := ShortenOn(t, baseUrl, defaultCodeLength, request, now, id, draw);
      ExpandOn(s.table, s.result.shortCode, later).result == None
  {
  }

  /**
   * Expiry is permanent: once the clock is strictly past a record's expiry, the
   * code does not expand and changes nothing at any later time, and `get_info`
   * keeps reporting it as expired.
   */
  lemma ExpiredStaysExpired(t: seq<ShortURL>, code: string, now: int, later: int)
    requires Lookup(t, code).Some? && IsExpired(Lookup(t, code).value, now)
    requires later >= now
    ensures ExpandOn(t, code, later) == Step(None, t)
    ensures InfoOn(t, code, later).Some? && InfoOn(t, code, later).value.isExpired
  {
  }

  /** A given custom code is used verbatim and the short URL is the base URL, '/', and the code. */
  lemma CustomCodeVerbatim(t: seq<ShortURL>, baseUrl: string, defaultCodeLength: int,
                           request: ShortenRequest, now: int, id: string, draw: nat -> nat)
    requires request.customCode.Some? && request.customCode.value != ""
    requires ShortenOn(t, baseUrl, defaultCodeLength, request, now, id, draw).result.Success?
    ensures var r := ShortenOn(t, baseUrl, defaultCodeLength, request, now, id, draw).result;
      r.shortCode == request.customCode.value && r.shortUrl == baseUrl + "/" + request.customCode.value
  {
  }

  /** Without a custom code the code is generated: of the configured length, letters and digits only. */
  lemma GeneratedCodeShape(t: seq<ShortURL>, baseUrl: string, defaultCodeLength: int,
                           request: ShortenRequest, now: int, id: string, draw: nat -> nat)
    requires request.customCode == None || request.customCode == Some("")
    requires 1 <= defaultCodeLength
    requires ShortenOn(t, baseUrl, defaultCodeLength, request, now, id, draw).result.Success?
    ensures var r := ShortenOn(t, baseUrl, defaultCodeLength, request, now, id, draw).result;
      && |r.shortCode| == defaultCodeLength
      && forall k :: 0 <= k < |r.shortCode| ==> IsAlphanumeric(r.shortCode[k])
  {
  }

  /**
   * Shortening twice with the same custom code: the second call fails with the
   * conflict message and the record of the first call stays as it was.
   */
  lemma DuplicateCustomCodeFails(t: seq<ShortURL>, baseUrl: string, defaultCodeLength: int,
                                 first: ShortenRequest, second: ShortenRequest,
                                 now: int, later: int, id: string, id2: string, draw: nat -> nat, draw2: nat -> nat)
    requires first.customCode.Some? && first.customCode.value != "" && second.customCode == first.customCode
    requires IsValidUrl(second.url)
    requires ShortenOn(t, baseUrl, defaultCodeLength, first, now, id, draw).result.Success?
    ensures var s1 := ShortenOn(t, baseUrl, defaultCodeLength, first, now, id, draw);
      var s2 := ShortenOn(s1.table, baseUrl, defaultCodeLength, second, later, id2, draw2);
      && s2.result == Error(ConflictMessage(first.customCode.value), second.url)
      && s2.table == s1.table
      && Lookup(s2.table, first.customCode.value).value.originalUrl == first.url
  {
  }

  /** An active, unexpired record's code expands, and its record gains one click. */
  lemma ExpandOnce(t: seq<ShortURL>, code: string, now: int, u: ShortURL)
    requires Lookup(t, code) == Some(u)
    requires !IsExpired(u, now) && u.isActive
    ensures ExpandOn(t, code, now).result == Some(u.originalUrl)
    ensures Lookup(ExpandOn(t, code, now).table, code) == Some(u.(clickCount := u.clickCount + 1))
  {
  }

  /** An expansion changes the statistics only by one click when it succeeds. */
  lemma ExpandStats(t: seq<ShortURL>, code: string, now: int)
    ensures var s := ExpandOn(t, code, now);
      StatsOf(s.table) == StatsOf(t).(totalClicks := StatsOf(t).totalClicks + Indicator(s.result.Some?))
  {
    var s := ExpandOn(t, code, now);
    if s.result.Some? {
      var u := Lookup(t, code).value;
      var v := u.(clickCount := u.clickCount + 1);
      assert s.table == Put(t, v);
      AggregatesAfterPut(t, v);
      assert ActiveCount(s.table) == ActiveCount(t) && TotalClicks(s.table) == TotalClicks(t) + 1;
    }
  }

  /** A successful shorten adds one URL, one active URL, and no clicks. */
  lemma ShortenStats(t: seq<ShortURL>, baseUrl: string, defaultCodeLength: int,
                     request: ShortenRequest, now: int, id: string, draw: nat -> nat)
    requires ShortenOn(t, baseUrl, defaultCodeLength, request, now, id, draw).result.Success?
    ensures var s := ShortenOn(t, baseUrl, defaultCodeLength, request, now, id, draw);
      StatsOf(s.table) == Stats(StatsOf(t).totalUrls + 1, StatsOf(t).activeUrls + 1, StatsOf(t).totalClicks)
  {
    var s := ShortenOn(t, baseUrl, defaultCodeLength, request, now, id, draw);
    var code := s.result.shortCode;
    AggregatesAfterPut(t, NewShortURL(id, request.url, code, now, ExpiryFor(request.expiresHours, now)));
  }

  /**
   * After deactivation the code no longer expands, yet `get_info` still finds
   * the record, now inactive.
   */
  lemma DeactivateThenExpand(t: seq<ShortURL>, code: string, now: int)
    requires code in Codes(t)
    ensures var d := DeactivateOn(t, code);
      && ExpandOn(d.table, code, now).result == None
      && InfoOn(d.table, code, now).Some?
      && !InfoOn(d.table, code, now).value.isActive
  {
  }

  /** Deactivation keeps every URL and click and removes one active URL if it was active. */
  lemma DeactivateStats(t: seq<ShortURL>, code: string)
    requires code in Codes(t)
    ensures var d := DeactivateOn(t, code);
      && StatsOf(d.table).totalUrls == StatsOf(t).totalUrls
      && StatsOf(d.table).totalClicks == StatsOf(t).totalClicks
      && StatsOf(d.table).activeUrls + Indicator(Lookup(t, code).value.isActive) == StatsOf(t).activeUrls
  {
    var u := Lookup(t, code).value;
    AggregatesAfterPut(t, u.(isActive := false));
  }

  /** After a hard delete the code neither expands nor has info, and the totals lose the record. */
  lemma DeleteThenExpand(t: seq<ShortURL>, code: string, now: int)
    requires UniqueCodes(t)
    requires code in Codes(t)
    ensures var d := DeleteOn(t, code);
      && ExpandOn(d.table, code, now).result == None
      && InfoOn(d.table, code, now) == None
      && StatsOf(d.table).totalUrls + 1 == StatsOf(t).totalUrls
      && StatsOf(d.table).totalClicks + Lookup(t, code).value.clickCount == StatsOf(t).totalClicks
  {
    AggregatesAfterRemove(t, code);
  }

  /**
   * Three successful shortens into an empty store: three URLs, all active, no
   * clicks, and the first record as it was created.
   */
  lemma ThreeShortens(requests: seq<ShortenRequest>, baseUrl: string, defaultCodeLength: int,
                      now: int, draw1: nat -> nat, draw2: nat -> nat, draw3: nat -> nat)
    requires |requests| == 3
    requires ShortenOn([], baseUrl, defaultCodeLength, requests[0], now, "1", draw1).result.Success?
    requires var s1 := ShortenOn([], baseUrl, defaultCodeLength, requests[0], now, "1", draw1);
      ShortenOn(s1.table, baseUrl, defaultCodeLength, requests[1], now, "2", draw2).result.Success?
    requires var s1 := ShortenOn([], baseUrl, defaultCodeLength, requests[0], now, "1", draw1);
      var s2 := ShortenOn(s1.table, baseUrl, defaultCodeLength, requests[1], now, "2", draw2);
      ShortenOn(s2.table, baseUrl, defaultCodeLength, requests[2], now, "3", draw3).result.Success?
    ensures var s1 := ShortenOn([], baseUrl, defaultCodeLength, requests[0], now, "1", draw1);
      var s2 := ShortenOn(s1.table, baseUrl, defaultCodeLength, requests[1], now, "2", draw2);
      var s3 := ShortenOn(s2.table, baseUrl, defaultCodeLength, requests[2], now, "3", draw3);
      var code := s1.result.shortCode;
      && StatsOf(s3.table) == Stats(3, 3, 0)
      && Lookup(s3.table, code) == Some(ShortURL("1", requests[0].url, code, now, ExpiryFor(requests[0].expiresHours, now), 0, true))
      && s2.result.shortCode != code
      && s3.result.shortCode !in {code, s2.result.shortCode}
      && Lookup(s3.table, s2.result.shortCode).Some? && Lookup(s3.table, s2.result.shortCode).value.isActive
  {
    var s1 := ShortenOn([], baseUrl, defaultCodeLength, requests[0], now, "1", draw1);
    var s2 := ShortenOn(s1.table, baseUrl, defaultCodeLength, requests[1], now, "2", draw2);
    var s3 := ShortenOn(s2.table, baseUrl, defaultCodeLength, requests[2], now, "3", draw3);
    ShortenStats([], baseUrl, defaultCodeLength, requests[0], now, "1", draw1);
    ShortenStats(s1.table, baseUrl, defaultCodeLength, requests[1], now, "2", draw2);
    ShortenStats(s2.table, baseUrl, defaultCodeLength, requests[2], now, "3", draw3);
    assert StatsOf([]) == Stats(0, 0, 0);
    var code := s1.result.shortCode;
    var u := ShortURL("1", requests[0].url, code, now, ExpiryFor(requests[0].expiresHours, now), 0, true);
    assert Lookup(s1.table, code) == Some(u);
    assert code in Codes(s1.table) && s2.result.shortCode !in Codes(s1.table);
    assert Lookup(s2.table, code) == Some(u);
    assert code in Codes(s2.table) && s3.result.shortCode !in Codes(s2.table);
    assert s2.result.shortCode in Codes(s2.table);
  }

  /**
   * Three URLs shortened into an empty store and the first one expanded twice:
   * both expansions give the first URL, and the store holds three URLs, all
   * active, with two clicks. Deactivating the second then leaves two active.
   */
  lemma StatsScenario(requests: seq<ShortenRequest>, baseUrl: string, defaultCodeLength: int,
                      now: int, draw1: nat -> nat, draw2: nat -> nat, draw3: nat -> nat)
    requires |requests| == 3
    requires ShortenOn([], baseUrl, defaultCodeLength, requests[0], now, "1", draw1).result.Success?
    requires var s1 := ShortenOn([], baseUrl, defaultCodeLength, requests[0], now, "1", draw1);
      ShortenOn(s1.table, baseUrl, defaultCodeLength, requests[1], now, "2", draw2).result.Success?
    requires var s1 := ShortenOn([], baseUrl, defaultCodeLength, requests[0], now, "1", draw1);
      var s2 := ShortenOn(s1.table, baseUrl, defaultCodeLength, requests[1], now, "2", draw2);
      ShortenOn(s2.table, baseUrl, defaultCodeLength, requests[2], now, "3", draw3).result.Success?
    requires requests[0].expiresHours.Some? ==> requests[0].expiresHours.value >= 0
    ensures var s1 := ShortenOn([], baseUrl, defaultCodeLength, requests[0], now, "1", draw1);
      var s2 := ShortenOn(s1.table, baseUrl, defaultCodeLength, requests[1], now, "2", draw2);
      var s3 := ShortenOn(s2.table, baseUrl, defaultCodeLength, requests[2], now, "3", draw3);
      var e1 := ExpandOn(s3.table, s1.result.shortCode, now);
      var e2 := ExpandOn(e1.table, s1.result.shortCode, now);
      && e1.result == Some(requests[0].url) && e2.result == Some(requests[0].url)
      && StatsOf(e2.table) == Stats(3, 3, 2)
      && StatsOf(DeactivateOn(e2.table, s2.result.shortCode).table) == Stats(3, 2, 2)
  {
    var s1 := ShortenOn([], baseUrl, defaultCodeLength, requests[0], now, "1", draw1);
    var s2 := ShortenOn(s1.table, baseUrl, defaultCodeLength, requests[1], now, "2", draw2);
    var s3 := ShortenOn(s2.table, baseUrl, defaultCodeLength, requests[2], now, "3", draw3);
    ThreeShortens(requests, baseUrl, defaultCodeLength, now, draw1, draw2, draw3);
    var u := ShortURL("1", requests[0].url, s1.result.shortCode, now, ExpiryFor(requests[0].expiresHours, now), 0, true);
    TwoClicksThenDeactivate(s3.table, s1.result.shortCode, s2.result.shortCode, now, u);
  }

  /**
   * On a store with three URLs, all active and unclicked, two expansions of a
   * usable code give its URL and two clicks; deactivating another active code
   * then leaves two active URLs.
   */
  lemma TwoClicksThenDeactivate(t: seq<ShortURL>, code: string, second: string, now: int, u: ShortURL)
    requires StatsOf(t) == Stats(3, 3, 0)
    requires Lookup(t, code) == Some(u) && !IsExpired(u, now) && u.isActive
    requires second != code && Lookup(t, second).Some? && Lookup(t, second).value.isActive
    ensures var e1 := ExpandOn(t, code, now);
      var e2 := ExpandOn(e1.table, code, now);
      && e1.result == Some(u.originalUrl) && e2.result == Some(u.originalUrl)
      && StatsOf(e2.table) == Stats(3, 3, 2)
      && StatsOf(DeactivateOn(e2.table, second).table) == Stats(3, 2, 2)
  {
    var e1 := ExpandOn(t, code, now);
    ExpandOnce(t, code, now, u);
    ExpandOnce(e1.table, code, now, u.(clickCount := u.clickCount + 1));
    ExpandStats(t, code, now);
    ExpandStats(e1.table, code, now);
    var e2 := ExpandOn(e1.table, code, now);
    assert Lookup(e2.table, second) == Lookup(t, second);
    DeactivateStats(e2.table, second);
  }
}
