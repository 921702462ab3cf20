/**
 * The shortening engine (talisik/core/shortener.py, URLShortener): shorten,
 * expand, inspect, deactivate and delete short URLs on top of a storage
 * backend. Each operation is given first as a function from the stored table
 * (and the clock reading `now`, in seconds) to its result and the new table;
 * the class then performs the same steps through the storage object.
 */
module Shortener {
  import opened Wrappers
  import opened Models
  import opened Config
  import opened Table
  import opened Storage
  import opened Urls

  const SecondsPerHour: int := 3600

  /** `(base_url or config.base_url).rstrip('/')`: an empty base URL counts as absent. */
  function EffectiveBaseUrl(baseUrl: Option<string>, config: TalisikConfig): (b: string)
    ensures var chosen := if baseUrl.Some? && baseUrl.value != "" then baseUrl.value else config.baseUrl;
      && |b| <= |chosen| && b == chosen[..|b|]
      && (forall k :: |b| <= k < |chosen| ==> chosen[k] == '/')
      && (|b| == 0 || b[|b| - 1] != '/')
  {
    StripTrailingSlashes(if baseUrl.Some? && baseUrl.value != "" then baseUrl.value else config.baseUrl)
  }

  /** `request.custom_code or self._generate_code()`: an empty custom code counts as absent. */
  function ChooseCode(customCode: Option<string>, defaultCodeLength: int, draw: nat -> nat): (code: string)
    ensures customCode.Some? && customCode.value != "" ==> code == customCode.value
    ensures customCode.None? || customCode.value == "" ==>
      && |code| == NonNegative(defaultCodeLength)
      && forall k :: 0 <= k < |code| ==> IsAlphanumeric(code[k])
  {
    if customCode.Some? && customCode.value != "" then customCode.value
    else GenerateCode(None, defaultCodeLength, draw)
  }

  /** `if request.expires_hours:` a zero or absent number of hours means no expiry. */
  function ExpiryFor(expiresHours: Option<int>, now: int): (e: Option<int>)
    ensures e.None? <==> expiresHours.None? || expiresHours.value == 0
    ensures e.Some? ==> e.value - now == expiresHours.value * SecondsPerHour
  {
    if expiresHours.Some? && expiresHours.value != 0 then Some(now + expiresHours.value * SecondsPerHour)
    else None
  }

  // ---------------------------------------------------------------------------
  // The range of Python's `datetime` and `timedelta`

  /** 0001-01-01T00:00:00 and 9999-12-31T23:59:59, in seconds since the epoch. */
  const MinTimestamp: int := -62135596800
  const MaxTimestamp: int := 253402300799

  /** `timedelta` keeps at most this many days either way. */
  const MaxDeltaDays: int := 999999999

  /** The C `int` that CPython's `timedelta` converts its day count to. */
  const MinCInt: int := -0x8000_0000
  const MaxCInt: int := 0x7fff_ffff

  /** The number a string of decimal digits denotes. */
  function DigitsValue(s: string): int {
    if |s| == 0 then 0 else 10 * DigitsValue(s[..|s| - 1]) + (s[|s| - 1] as int - '0' as int)
  }

  /** `s` is the decimal notation of `n`: digits only, no leading zero, denoting `n`. */
  predicate IsDecimal(s: string, n: nat) {
    && |s| > 0
    && (forall k :: 0 <= k < |s| ==> IsAsciiDigit(s[k]))
    && (s[0] == '0' ==> s == "0")
    && DigitsValue(s) == n
  }

  /** `str(d)` for an integer: its decimal digits, after a '-' when negative. */
  function DecimalString(d: int): (r: string)
    ensures |r| > 0
    ensures (r[0] == '-') <==> d < 0
    ensures d >= 0 ==> IsDecimal(r, d)
    ensures d < 0 ==> IsDecimal(r[1..], -d)
    decreases if d < 0 then 1 - d else d
  {
    if d < 0 then
      var r := DecimalString(-d);
      assert ("-" + r)[1..] == r;
      "-" + r
    else if d < 10 then [('0' as int + d) as char]
    else
      var prefix := DecimalString(d / 10);
      var r := prefix + [('0' as int + d % 10) as char];
      assert r[..|r| - 1] == prefix;
      assert forall k :: 0 <= k < |r| ==> IsAsciiDigit(r[k]) by {
        forall k | 0 <= k < |r| ensures IsAsciiDigit(r[k]) {
          if k < |prefix| { assert r[k] == prefix[k]; }
        }
      }
      r
  }

  /**
   * The OverflowError that `datetime.now(UTC) + timedelta(hours=h)` raises, or
   * None when the expiry is representable (or none is computed). `timedelta`
   * keeps `h // 24` days: converting that count to a C `int` fails first, then
   * the magnitude check; finally the sum must stay within `datetime`'s range.
   */
  function ExpiryError(expiresHours: Option<int>, now: int): (e: Option<string>)
    ensures e.None? <==>
      || expiresHours.None? || expiresHours.value == 0
      || (&& -MaxDeltaDays <= expiresHours.value / 24 <= MaxDeltaDays
          && MinTimestamp <= now + expiresHours.value * SecondsPerHour <= MaxTimestamp)
  {
    if expiresHours.None? || expiresHours.value == 0 then None
    else
      var days := expiresHours.value / 24;
      if days < MinCInt || days > MaxCInt then Some("Python int too large to convert to C int")
      else if days < -MaxDeltaDays || days > MaxDeltaDays then
        Some("days=" + DecimalString(days) + "; must have magnitude <= 999999999")
      else if now + expiresHours.value * SecondsPerHour < MinTimestamp
           || now + expiresHours.value * SecondsPerHour > MaxTimestamp then
        Some("date value out of range")
      else None
  }

  /** Expired: an expiry is set and the clock is strictly past it. */
  predicate IsExpired(u: ShortURL, now: int) {
    u.expiresAt.Some? && now > u.expiresAt.value
  }

  function ConflictMessage(code: string): string {
    "Short code '" + code + "' already exists"
  }

  const InvalidUrlMessage: string := "Invalid URL provided"

  /** The handler's message: this prefix, then the text of the exception caught. */
  const StoreFailurePrefix: string := "Failed to store shortened URL: "

  /** A result together with the table after the operation. */
  datatype Step<R> = Step(result: R, table: seq<ShortURL>)

  /**
   * `shorten`: validate the URL, choose the code, refuse a code already in use,
   * compute the expiry, then store a fresh record and describe it. An expiry
   * that `datetime` cannot represent raises before anything is stored, and the
   * handler turns that into an error response.
   */
  function ShortenOn(t: seq<ShortURL>, baseUrl: string, defaultCodeLength: int,
                     request: ShortenRequest, now: int, id: string, draw: nat -> nat): (s: Step<ShortenResponse>)
    ensures s.result.originalUrl == request.url
    ensures !IsValidUrl(request.url) ==> s == Step(Error(InvalidUrlMessage, request.url), t)
    ensures var code := ChooseCode(request.customCode, defaultCodeLength, draw);
      IsValidUrl(request.url) && code in Codes(t) ==>
        s == Step(Error(ConflictMessage(code), request.url), t)
    ensures var code := ChooseCode(request.customCode, defaultCodeLength, draw);
      IsValidUrl(request.url) && code !in Codes(t) && ExpiryError(request.expiresHours, now).Some? ==>
        s == Step(Error(StoreFailurePrefix + ExpiryError(request.expiresHours, now).value, request.url), t)
    ensures s.result.Success? <==>
      && IsValidUrl(request.url)
      && ChooseCode(request.customCode, defaultCodeLength, draw) !in Codes(t)
      && ExpiryError(request.expiresHours, now).None?
    ensures s.result.Error? ==> s.table == t
    ensures s.result.Success? ==>
      var code := s.result.shortCode;
      && code == ChooseCode(request.customCode, defaultCodeLength, draw)
      && s.result.shortUrl == baseUrl + "/" + code
      && s.result.expiresAt == ExpiryFor(request.expiresHours, now)
      && (s.result.expiresAt.Some? ==> MinTimestamp <= s.result.expiresAt.value <= MaxTimestamp)
      && Lookup(s.table, code) == Some(ShortURL(id, request.url, code, now, ExpiryFor(request.expiresHours, now), 0, true))
      && (forall k :: k != code ==> Lookup(s.table, k) == Lookup(t, k))
      && Codes(s.table) == Codes(t) + {code}
      && |s.table| == |t| + 1
    ensures UniqueCodes(t) ==> UniqueCodes(s.table)
  {
    if !IsValidUrl(request.url) then
      Step(Error(InvalidUrlMessage, request.url), t)
    else
      var code := ChooseCode(request.customCode, defaultCodeLength, draw);
      if Lookup(t, code).Some? then
        Step(Error(ConflictMessage(code), request.url), t)
      else if ExpiryError(request.expiresHours, now).Some? then
        Step(Error(StoreFailurePrefix + ExpiryError(request.expiresHours, now).value, request.url), t)
      else
        var expiresAt := ExpiryFor(request.expiresHours, now);
        var record := NewShortURL(id, request.url, code, now, expiresAt);
        Step(Success(baseUrl + "/" + code, request.url, code, expiresAt), Put(t, record))
  }

  /**
   * `expand`: an absent, expired or inactive code yields None and changes
   * nothing; otherwise the record gains one click and its URL is returned.
   */
  function ExpandOn(t: seq<ShortURL>, code: string, now: int): (s: Step<Option<string>>)
    ensures s.result.Some? <==>
      Lookup(t, code).Some? && !IsExpired(Lookup(t, code).value, now) && Lookup(t, code).value.isActive
    ensures s.result.None? ==> s.table == t
    ensures s.result.Some? ==>
      var u := Lookup(t, code).value;
      && s.result.value == u.originalUrl
      && Lookup(s.table, code) == Some(u.(clickCount := u.clickCount + 1))
    ensures forall k :: k != code ==> Lookup(s.table, k) == Lookup(t, k)
    ensures |s.table| == |t| && Codes(s.table) == Codes(t)
    ensures UniqueCodes(t) ==> UniqueCodes(s.table)
  {
    match Lookup(t, code)
    case None => Step(None, t)
    case Some(u) =>
      if IsExpired(u, now) then Step(None, t)
      else if !u.isActive then Step(None, t)
      else Step(Some(u.originalUrl), IncrementClicks(t, code))
  }

  /** What `get_info` reports about one record. */
  datatype UrlInfo = UrlInfo(
    shortCode: string,
    originalUrl: string,
    createdAt: int,
    expiresAt: Option<int>,
    clickCount: nat,
    isActive: bool,
    isExpired: bool)

  /** `get_info`: the record's fields and whether it has expired, or None for an absent code. */
  function InfoOn(t: seq<ShortURL>, code: string, now: int): (r: Option<UrlInfo>)
    ensures r.None? <==> code !in Codes(t)
    ensures r.Some? ==>
      var u := Lookup(t, code).value;
      && r.value.shortCode == code == u.shortCode
      && r.value.originalUrl == u.originalUrl && r.value.createdAt == u.createdAt
      && r.value.expiresAt == u.expiresAt && r.value.clickCount == u.clickCount
      && r.value.isActive == u.isActive
      && (r.value.isExpired <==> u.expiresAt.Some? && now > u.expiresAt.value)
  {
    match Lookup(t, code)
    case None => None
    case Some(u) =>
      Some(UrlInfo(code, u.originalUrl, u.createdAt, u.expiresAt, u.clickCount, u.isActive, IsExpired(u, now)))
  }

  /** `deactivate`: clears `is_active` on the record and stores it back; false for an absent code. */
  function DeactivateOn(t: seq<ShortURL>, code: string): (s: Step<bool>)
    ensures s.result <==> code in Codes(t)
    ensures !s.result ==> s.table == t
    ensures s.result ==> Lookup(s.table, code) == Some(Lookup(t, code).value.(isActive := false))
    ensures forall k :: k != code ==> Lookup(s.table, k) == Lookup(t, k)
    ensures |s.table| == |t| && Codes(s.table) == Codes(t)
    ensures UniqueCodes(t) ==> UniqueCodes(s.table)
  {
    match Lookup(t, code)
    case None => Step(false, t)
    case Some(u) => Step(true, Put(t, u.(isActive := false)))
  }

  /** `delete`: removes the record; the answer says whether there was one. */
  function DeleteOn(t: seq<ShortURL>, code: string): (s: Step<bool>)
    ensures s.result <==> code in Codes(t)
    ensures !s.result ==> s.table == t
    ensures UniqueCodes(t) ==> Lookup(s.table, code) == None && Codes(s.table) == Codes(t) - {code}
    ensures forall k :: k != code ==> Lookup(s.table, k) == Lookup(t, k)
    ensures s.result ==> |s.table| == |t| - 1
    ensures UniqueCodes(t) ==> UniqueCodes(s.table)
  {
    Step(Lookup(t, code).Some?, Remove(t, code))
  }

  class URLShortener {
    const config: TalisikConfig
    /** The base URL without trailing slashes. */
    const baseUrl: string
    const storage: MemoryStorage

    ghost predicate Valid()
      reads storage
    {
      storage.Valid()
    }

    /** The explicit base URL wins over the configured one unless it is empty; trailing slashes go. */
    constructor (baseUrl: Option<string>, config: TalisikConfig, storage: MemoryStorage)
      requires storage.Valid()
      ensures Valid()
      ensures this.config == config && this.storage == storage
      ensures this.baseUrl == EffectiveBaseUrl(baseUrl, config)
      ensures |this.baseUrl| == 0 || this.baseUrl[|this.baseUrl| - 1] != '/'
    {
      this.config := config;
      this.baseUrl := EffectiveBaseUrl(baseUrl, config);
      this.storage := storage;
    }

    method Shorten(request: ShortenRequest, now: int, id: string, draw: nat -> nat)
      returns (response: ShortenResponse)
      requires Valid()
      modifies storage
      ensures Valid()
      ensures var s := ShortenOn(old(storage.entries), baseUrl, config.defaultCodeLength, request, now, id, draw);
        response == s.result && storage.entries == s.table
    {
      if !IsValidUrl(request.url) {
        return Error(InvalidUrlMessage, request.url);
      }
      var code := ChooseCode(request.customCode, config.defaultCodeLength, draw);
      if storage.Exists(code) {
        return Error(ConflictMessage(code), request.url);
      }
      var overflow := ExpiryError(request.expiresHours, now);
      if overflow.Some? {
        return Error(StoreFailurePrefix + overflow.value, request.url);
      }
      var expiresAt := ExpiryFor(request.expiresHours, now);
      var record := NewShortURL(id, request.url, code, now, expiresAt);
      storage.Set(record);
      response := Success(baseUrl + "/" + code, request.url, code, expiresAt);
    }

    method Expand(code: string, now: int) returns (url: Option<string>)
      requires Valid()
      modifies storage
      ensures Valid()
      ensures var s := ExpandOn(old(storage.entries), code, now);
        url == s.result && storage.entries == s.table
    {
      var found := storage.Get(code);
      if found.None? {
        return None;
      }
      var record := found.value;
      if record.expiresAt.Some? && now > record.expiresAt.value {
        return None;
      }
      if !record.isActive {
        return None;
      }
      var newCount := storage.UpdateClickCount(code);
      url := Some(record.originalUrl);
    }

    /** Reads the record without touching the click count. */
    function GetInfo(code: string, now: int): (info: Option<UrlInfo>)
      reads storage
      ensures info.None? <==> !storage.Exists(code)
      ensures info.Some? ==> info.value.clickCount == storage.Get(code).value.clickCount
      ensures info == InfoOn(storage.entries, code, now)
    {
      InfoOn(storage.entries, code, now)
    }

    /** `stats` and `get_stats`: the storage's aggregate counts. */
    function Stats(): (s: Stats)
      reads storage
      requires Valid()
      ensures s.activeUrls <= s.totalUrls == |Codes(storage.entries)|
      ensures s == StatsOf(storage.entries)
    {
      storage.GetStats()
    }

    method Delete(code: string) returns (deleted: bool)
      requires Valid()
      modifies storage
      ensures Valid()
      ensures var s := DeleteOn(old(storage.entries), code);
        deleted == s.result && storage.entries == s.table
    {
      deleted := storage.Delete(code);
    }

    method Deactivate(code: string) returns (done: bool)
      requires Valid()
      modifies storage
      ensures Valid()
      ensures var s := DeactivateOn(old(storage.entries), code);
        done == s.result && storage.entries == s.table
    {
      var found := storage.Get(code);
      if found.None? {
        return false;
      }
      var record := found.value.(isActive := false);
      storage.Set(record);
      done := true;
    }
  }
}
