/**
 * `URLShortener.shorten` as written (talisik/core/shortener.py, lines 40-86).
 * Every path ends in a call to `ShortenResponse.error_response` or
 * `ShortenResponse.success_response`, but the `ShortenResponse` dataclass of
 * talisik/core/models.py defines neither. The first such call raises
 * AttributeError. The `except Exception` handler catches it and calls
 * `error_response` again, and that AttributeError escapes. So no call returns
 * a response, yet for a fresh code with a representable expiry the record
 * is already stored.
 * `Shortener.ShortenOn` is the intended behaviour that the rest of the model
 * uses.
 */
module Findings {
  import opened Wrappers
  import opened Models
  import opened Table
  import opened Urls
  import opened Config
  import opened Shortener

  /** How a Python call ends: with a value, or with AttributeError on a missing class attribute. */
  datatype Outcome = Returned(response: ShortenResponse) | Raised(missingAttribute: string)

  /** The missing factory that the exception handler calls last. */
  const ErrorFactory: string := "error_response"

  /** `shorten` as the code stands, with the missing factories. */
  function ShortenAsWritten(t: seq<ShortURL>, baseUrl: string, defaultCodeLength: int,
                            request: ShortenRequest, now: int, id: string, draw: nat -> nat): (s: Step<Outcome>)
    ensures s.result == Raised(ErrorFactory)
    ensures s.table == t <==>
      || !IsValidUrl(request.url)
      || ChooseCode(request.customCode, defaultCodeLength, draw) in Codes(t)
      || ExpiryError(request.expiresHours, now).Some?
  {
    if !IsValidUrl(request.url) then
      // error_response raises; the handler calls error_response again
      Step(Raised(ErrorFactory), t)
    else
      var code := ChooseCode(request.customCode, defaultCodeLength, draw);
      if Lookup(t, code).Some? then
        Step(Raised(ErrorFactory), t)
      else if ExpiryError(request.expiresHours, now).Some? then
        // the OverflowError comes before set(); the handler's error_response raises
        Step(Raised(ErrorFactory), t)
      else
        // set() has run; success_response raises; the handler's error_response raises
        var stored := Put(t, NewShortURL(id, request.url, code, now, ExpiryFor(request.expiresHours, now)));
        assert |stored| == |t| + 1;
        Step(Raised(ErrorFactory), stored)
  }

  /**
   * As written, the store changes exactly as the intended `shorten` would change
   * it, but the caller gets an exception instead of the response.
   */
  lemma AsWrittenStoresButRaises(t: seq<ShortURL>, baseUrl: string, defaultCodeLength: int,
                                 request: ShortenRequest, now: int, id: string, draw: nat -> nat)
    ensures var w := ShortenAsWritten(t, baseUrl, defaultCodeLength, request, now, id, draw);
      var s := ShortenOn(t, baseUrl, defaultCodeLength, request, now, id, draw);
      && w.table == s.table
      && w.result != Returned(s.result)
  {
  }

  /**
   * The unit tests' first example: a well-formed URL on an empty store. The
   * intended `shorten` succeeds and the code expands; as written the call
   * raises after storing the record.
   */
  lemma AsWrittenCounterexample(now: int, draw: nat -> nat)
    ensures var request := NewShortenRequest("https://example.com");
      var w := ShortenAsWritten([], DefaultBaseUrl, DefaultCodeLength, request, now, "id", draw);
      var s := ShortenOn([], DefaultBaseUrl, DefaultCodeLength, request, now, "id", draw);
      && w.result == Raised("error_response")
      && |w.table| == 1
      && s.result.Success?
      && ExpandOn(s.table, s.result.shortCode, now).result == Some("https://example.com")
  {
    ExampleUrlIsValid();
  }
}
