/**
 * The record, request and response shapes of the shortener
 * (talisik/core/models.py). Timestamps are whole seconds since an epoch.
 */
module Models {
  import opened Wrappers

  /** One shortened URL with its metadata. */
  datatype ShortURL = ShortURL(
    id: string,
    originalUrl: string,
    shortCode: string,
    createdAt: int,
    expiresAt: Option<int>,
    clickCount: nat,
    isActive: bool)

  /** A call to shorten a URL; both options default to absent. */
  datatype ShortenRequest = ShortenRequest(
    url: string,
    customCode: Option<string>,
    expiresHours: Option<int>)

  /**
   * The answer to a shorten request. A success always carries the short URL,
   * the original URL and the code; the expiry is optional. A failure carries
   * a message and the URL that was asked for.
   */
  datatype ShortenResponse =
    | Success(shortUrl: string, originalUrl: string, shortCode: string, expiresAt: Option<int>)
    | Error(message: string, originalUrl: string)

  /** A freshly constructed record: no clicks yet, active, and by default no expiry. */
  function NewShortURL(id: string, originalUrl: string, shortCode: string, createdAt: int,
                       expiresAt: Option<int> := None): (r: ShortURL)
    ensures r.id == id && r.originalUrl == originalUrl && r.shortCode == shortCode
    ensures r.createdAt == createdAt && r.expiresAt == expiresAt
    ensures r.clickCount == 0 && r.isActive
  {
    ShortURL(id, originalUrl, shortCode, createdAt, expiresAt, 0, true)
  }

  /** A request with no custom code and no expiry unless they are given. */
  function NewShortenRequest(url: string, customCode: Option<string> := None,
                             expiresHours: Option<int> := None): (r: ShortenRequest)
    ensures r.url == url && r.customCode == customCode && r.expiresHours == expiresHours
  {
    ShortenRequest(url, customCode, expiresHours)
  }

  /** The defaults of the constructors above. */
  lemma ConstructorDefaults(id: string, url: string, code: string, createdAt: int)
    ensures NewShortURL(id, url, code, createdAt).expiresAt == None
    ensures NewShortURL(id, url, code, createdAt).clickCount == 0
    ensures NewShortURL(id, url, code, createdAt).isActive
    ensures NewShortenRequest(url).customCode == None
    ensures NewShortenRequest(url).expiresHours == None
  {
  }
}
