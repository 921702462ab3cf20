# Talisik short URL core in Dafny

This project models the core of the Talisik URL shortener:

- the in-memory storage backend: `MemoryStorage`, a dictionary from short code to record that its methods update in place;
- the engine on top of it: `URLShortener`, which shortens, expands, inspects, deactivates and deletes short URLs and reports statistics;
- the record and request shapes of `talisik/core/models.py`;
- the configuration defaults and their validation from `talisik/core/config.py`.

The files follow the program's structure:

- `models.dfy`: `ShortURL`, `ShortenRequest` and `ShortenResponse`.
- `config.dfy`: `TalisikConfig`, its defaults, `validate`, and the backend choice of `create_storage`.
- `table.dfy`: the storage dictionary.
  - It is a sequence of records in insertion order, which is Python's dict order.
  - Reading is `Lookup`; writing is `Put`, `Remove` and `IncrementClicks`.
  - The invariant `UniqueCodes` says each key appears once.
  - It also holds the aggregates that `get_stats` sums.
- `listing.dfy`: the rows of `get_all_urls` and their newest-first sort.
- `storage.dfy`: the `MemoryStorage` class, with its `entries` field and methods that change it.
- `urls.dfy`: `_is_valid_url`, `_generate_code` and the base-URL trimming, as pure functions.
- `shortener.dfy`: each engine operation as a step function from the stored table to its result plus the new table. The `URLShortener` class then performs the same steps through its `MemoryStorage`, and each method is proved equal to its step function.
- `shortener_props.dfy`: properties that relate several operations:
  - the shorten/expand round trip;
  - the strict expiry boundary;
  - custom-code conflicts;
  - deactivation versus deletion;
  - how each operation changes the statistics.
- `findings.dfy`: `shorten` exactly as the code stands (see Findings).

Time is seconds since an epoch, given as a parameter `now`. The random choices of `secrets.choice` are a parameter `draw`, where `draw(k)` is the k-th choice. The record id from `secrets.token_urlsafe` is a parameter `id`.

The model follows the code as it stands, including these behaviours of it:

- The code never validates custom codes. Any string is accepted, including one with spaces or longer than `max_custom_code_length`.
- `_is_valid_url` accepts any scheme that has a network location, for example `ftp://x`.
- A negative `expires_hours` is accepted and gives a record that has already expired. Zero hours means no expiry.
- The code does not retry when a generated code collides. The collision is reported as the same conflict as a duplicate custom code.
- `exists` counts a code as taken whenever its key is present, even if its record is expired or inactive.
- `get_stats` makes `active_urls` count records whose `is_active` flag is set, expired ones included.

## Model

| member | source | states |
|---|---|---|
| Models.NewShortURL | talisik/core/models.py:8-17 | a new record carries the given fields, no clicks, is active, and has no expiry unless one is given |
| Models.NewShortenRequest | talisik/core/models.py:20-25 | a request carries its URL, and its custom code and expiry hours default to absent |
| Models.ConstructorDefaults | talisik/core/models.py:15-25 | the defaults: no expiry, zero clicks, active, no custom code, no expiry hours |
| Config.Default | talisik/core/config.py:12-32 | the configuration defaults: base URL `http://localhost:8000`, memory backend, code length 7, custom-code limit 50, analytics and expiration on, debug off, level INFO |
| Config.Validate | talisik/core/config.py:58-67 | passes exactly when the code length is in 1..50, the custom-code limit in 1..100 and the backend is memory or xata; otherwise it fails with the message of the first failed check |
| Config.DefaultIsValid | talisik/core/config.py:21-24 | the default configuration passes validation |
| Config.BackendFor | talisik/core/storage.py:338-345 | `create_storage` picks Memory exactly for "memory", Xata exactly for "xata", and raises for every other name |
| Config.ValidConfigHasBackend | talisik/core/config.py:66-67 | a validated configuration names a backend that `create_storage` accepts |
| Table.Lookup | talisik/core/storage.py:61-62 | finds a record exactly when the code is a key; the record found is stored under that code; with unique keys it is the record with that code |
| Table.Put | talisik/core/storage.py:64-65 | after `_urls[code] = r` the code maps to r, every other key keeps its record, the keys gain r's code, the size grows only for a new key, and keys stay unique |
| Table.Remove | talisik/core/storage.py:68-73 | after `del _urls[code]` the code is gone, every other key keeps its record, the size shrinks only when the code was present, and keys stay unique |
| Table.IncrementClicks | talisik/core/storage.py:78-84 | a present record gains exactly one click with all other fields unchanged, other keys keep their records, and an absent code leaves the table unchanged |
| Table.ActiveCount | talisik/core/storage.py:86-91 | the number of active records is at most the number of records |
| Table.TotalClicks | talisik/core/storage.py:90 | the click sum is at least the click count of every record |
| Table.ActiveCodes | talisik/core/storage.py:86-91 | the active keys are among the keys |
| Table.AggregatesAfterPut | talisik/core/storage.py:64-65 | storing a record changes the active count and the click sum by exactly the difference between the new record and the one it replaces, or by the new record alone |
| Table.AggregatesAfterRemove | talisik/core/storage.py:68-73 | removing a record lowers the active count and the click sum by exactly that record's share |
| Table.SizeIsKeyCount | talisik/core/storage.py:86-91 | with unique keys, `len(_urls)` is the number of distinct codes and the active count is the number of distinct active codes |
| Listing.RowOf | talisik/core/storage.py:97-104 | a row copies the record's URL, code, expiry, clicks, flag and creation time |
| Listing.RowsOf | talisik/core/storage.py:95-104 | one row per record, in dictionary order |
| Listing.Insert | talisik/core/storage.py:106 | inserting into a newest-first list keeps it newest first, and the result holds the old rows plus the new one |
| Listing.SortNewestFirst | talisik/core/storage.py:106 | `sorted(..., key=created_at, reverse=True)` gives a newest-first permutation of its input |
| Storage.StatsOf | talisik/core/storage.py:86-91 | total is the number of records, active is at most total, and the clicks are the sum of all click counts |
| Storage.StatsCountCodes | talisik/core/storage.py:86-91 | with unique keys, total and active count distinct codes and distinct active codes |
| Storage.MemoryStorage.constructor | talisik/core/storage.py:56-58 | the store starts empty, which satisfies its invariant |
| Storage.MemoryStorage.Get | talisik/core/storage.py:61-62 | `get` returns a record exactly for a present key, and it is the stored record with that code |
| Storage.MemoryStorage.Exists | talisik/core/storage.py:75-76 | `exists` holds exactly for present keys, in agreement with `get` |
| Storage.MemoryStorage.Set | talisik/core/storage.py:64-66 | the record is stored under its own code, every other key is unchanged, the size grows only for a new code, and the invariant is kept |
| Storage.MemoryStorage.Delete | talisik/core/storage.py:68-73 | returns whether the key was present; afterwards it is absent and every other key is unchanged |
| Storage.MemoryStorage.UpdateClickCount | talisik/core/storage.py:78-84 | a present record gains exactly one click and the new count is returned; an absent code returns None and changes nothing; other keys are unchanged |
| Storage.MemoryStorage.GetStats | talisik/core/storage.py:86-91 | total is the number of keys, active is the number of active keys, and clicks are the sum of the click counts |
| Storage.MemoryStorage.GetAllUrls | talisik/core/storage.py:93-106 | the append loop plus the sort give exactly one row per stored record, as a permutation of the rows in dictionary order, newest first, each row matching the record stored under its code |
| Urls.SplitScheme | talisik/core/shortener.py:203 | a scheme is split off exactly when the text before the first ':' is a non-empty scheme name; then the URL is the scheme, ':' and the rest; otherwise the rest is the whole URL |
| Urls.Netloc | talisik/core/shortener.py:203-204 | the network location is non-empty exactly when the rest after the scheme starts with "//" and a character other than '/', '?' or '#'; it then runs from there to the end or to the first such delimiter, and holds none of them |
| Urls.IsValidUrl | talisik/core/shortener.py:201-207 | a valid URL starts with a scheme name, "://" and a non-empty network location |
| Urls.Find | talisik/core/shortener.py:201-205 | the first position of a character, or -1 when the string does not contain it |
| Urls.UntilDelim | talisik/core/shortener.py:201-205 | the network location is the longest prefix containing no '/', '?' or '#' |
| Urls.ShapeIsValid | talisik/core/shortener.py:201-205 | a URL of the shape scheme, "://", then a host character, is valid |
| Urls.ValidHasShape | talisik/core/shortener.py:201-205 | a valid URL has that shape, with the scheme ending at its first ':' |
| Urls.ValidUrlShape | talisik/core/shortener.py:201-207 | in this simplified reading of urlparse (see Left out), `_is_valid_url` holds exactly for URLs that start with a scheme name, "://" and a character that does not end the host |
| Urls.ExampleUrlIsValid | tests/unit/test_shortener.py:17-25 | "https://example.com" is valid |
| Urls.NotAUrlIsInvalid | tests/unit/test_shortener.py:27-32 | "not-a-url" is invalid |
| Urls.AlphabetIndex | talisik/core/shortener.py:197-198 | every ASCII letter or digit has a position in `ascii_letters + digits` |
| Urls.AlphabetIsAlphanumerics | talisik/core/shortener.py:197-198 | the alphabet has 62 distinct characters, and they are exactly the ASCII letters and digits |
| Urls.CodeLength | talisik/core/shortener.py:197 | `length or default_code_length`: a given non-zero length is used, and an absent or zero one falls back to the default |
| Urls.GenerateCode | talisik/core/shortener.py:195-199 | the code has `length or default_code_length` characters (none when that is not positive), all letters or digits |
| Urls.EveryCodeCanBeGenerated | talisik/core/shortener.py:195-199 | every string of letters and digits is the code for some run of random choices |
| Urls.StripTrailingSlashes | talisik/core/shortener.py:33 | `rstrip('/')` leaves a prefix that does not end in '/', and removes only slashes |
| Urls.StripIdempotent | talisik/core/shortener.py:33 | stripping twice equals stripping once, and a URL without a trailing slash is kept |
| Shortener.EffectiveBaseUrl | talisik/core/shortener.py:33 | the explicit base URL unless it is absent or empty, else the configured one, with its trailing slashes removed and nothing else |
| Shortener.ChooseCode | talisik/core/shortener.py:52 | a non-empty custom code is used as given; otherwise the code is generated, with the configured length and only letters and digits |
| Shortener.ExpiryFor | talisik/core/shortener.py:59-61 | no expiry exactly when the hours are absent or zero; otherwise the expiry lies that many hours after `now` |
| Shortener.DecimalString | talisik/core/shortener.py:61 | the `%d` in the OverflowError message of `timedelta`: a '-' exactly for a negative number, then its decimal digits without leading zeros, denoting its magnitude |
| Shortener.ExpiryError | talisik/core/shortener.py:59-61 | `datetime.now(UTC) + timedelta(hours=h)` fails exactly when an expiry is computed and either its day count is beyond `timedelta`'s 999999999 days or the sum falls outside years 1 to 9999 |
| Shortener.ShortenOn | talisik/core/shortener.py:40-86 | an invalid URL gives "Invalid URL provided"; a code already present gives the conflict message; an expiry outside `datetime`'s range gives "Failed to store shortened URL: " and the exception text; every error leaves the store unchanged; otherwise exactly one record {id, url, code, now, expiry, 0 clicks, active} is added under the chosen code, no other key changes, the short URL is base + "/" + code, and the keys stay unique |
| Shortener.ExpandOn | talisik/core/shortener.py:88-119 | returns the URL exactly when the code is present, not past its expiry and active; then the record gains exactly one click and nothing else changes; otherwise nothing changes |
| Shortener.InfoOn | talisik/core/shortener.py:121-144 | absent exactly for a missing code; otherwise it reports the record's fields and whether the clock is strictly past its expiry |
| Shortener.DeactivateOn | talisik/core/shortener.py:175-193 | true exactly for a present code, whose record then has `is_active` false and is otherwise unchanged; other keys unchanged; absent code changes nothing |
| Shortener.DeleteOn | talisik/core/shortener.py:158-173 | true exactly for a present code, which is then gone; other keys unchanged |
| Shortener.URLShortener.constructor | talisik/core/shortener.py:20-36 | given a store that satisfies its invariant, the engine satisfies its own; the base URL is the explicit one unless empty or absent, else the configured one, without trailing slashes |
| Shortener.URLShortener.Shorten | talisik/core/shortener.py:40-86 | the method's response and the new store are those of `ShortenOn`, and the storage invariant is kept |
| Shortener.URLShortener.Expand | talisik/core/shortener.py:88-119 | the method's answer and the new store are those of `ExpandOn` |
| Shortener.URLShortener.GetInfo | talisik/core/shortener.py:121-144 | no info exactly for a missing code; the click count reported is the stored one |
| Shortener.URLShortener.Stats | talisik/core/shortener.py:146-156 | the storage's statistics; active never exceeds total |
| Shortener.URLShortener.Delete | talisik/core/shortener.py:158-173 | the answer and the new store are those of `DeleteOn` |
| Shortener.URLShortener.Deactivate | talisik/core/shortener.py:175-193 | the answer and the new store are those of `DeactivateOn` |
| ShortenerProps.ShortenThenExpand | talisik/core/shortener.py:64-115 | the code of a successful shorten expands to the given URL at any time up to and including its expiry |
| ShortenerProps.ShortenThenExpandAtOnce | tests/unit/test_shortener.py:34-42 | right after shortening, the code expands to the URL unless negative hours were asked for |
| ShortenerProps.NegativeHoursExpireAtOnce | talisik/core/shortener.py:59-61 | negative hours give a record that does not expand and is reported expired |
| ShortenerProps.ExpiryBoundary | talisik/core/shortener.py:59-61 | a record for h hours expands exactly h hours after creation and not one second later |
| ShortenerProps.ShortenThenExpired | talisik/core/shortener.py:100-103 | after the expiry has passed, the code no longer expands |
| ShortenerProps.ExpiredStaysExpired | talisik/core/shortener.py:100-103 | once the clock is strictly past a record's expiry, the code does not expand and changes nothing at every later time, and `get_info` reports it as expired |
| ShortenerProps.CustomCodeVerbatim | tests/unit/test_shortener.py:49-55 | a non-empty custom code is used verbatim, and the short URL is base + "/" + code |
| ShortenerProps.GeneratedCodeShape | talisik/core/shortener.py:52 | without a custom code, the code has the configured length and only letters and digits |
| ShortenerProps.DuplicateCustomCodeFails | tests/unit/test_shortener.py:57-67 | a second shorten with the same custom code fails with the conflict message, and the first record stays as it was |
| ShortenerProps.ExpandOnce | talisik/core/shortener.py:110-115 | an active, unexpired record expands to its URL and gains one click |
| ShortenerProps.ExpandStats | talisik/core/shortener.py:88-119 | an expansion changes the statistics by one click when it succeeds and not at all otherwise |
| ShortenerProps.ShortenStats | talisik/core/shortener.py:40-86 | a successful shorten adds one URL, one active URL and no clicks |
| ShortenerProps.DeactivateThenExpand | talisik/core/shortener.py:175-193 | after deactivation the code no longer expands, while `get_info` still reports the record as inactive |
| ShortenerProps.DeactivateStats | talisik/core/shortener.py:175-193 | deactivation keeps total URLs and clicks and removes one active URL if the record was active |
| ShortenerProps.DeleteThenExpand | talisik/core/shortener.py:158-173 | after deletion the code neither expands nor has info, and total URLs and clicks lose the record |
| ShortenerProps.ThreeShortens | tests/unit/test_shortener.py:137-142 | three successful shortens into an empty store, each with its own random draws, give three URLs, all active, no clicks, with distinct codes |
| ShortenerProps.StatsScenario | tests/unit/test_shortener.py:137-153 | three shortens with their own random draws and two expansions of the first code: both return its URL and the statistics are 3 URLs, 3 active, 2 clicks; deactivating the second code then leaves 2 active |
| Findings.ShortenAsWritten | talisik/core/shortener.py:40-86 | as written, every call raises AttributeError for `error_response`, and the store is unchanged exactly on the invalid-URL, conflict and expiry-overflow paths |
| Findings.AsWrittenStoresButRaises | talisik/core/shortener.py:64-86 | as written, the store changes just as the intended `shorten` changes it, but no response reaches the caller |
| Findings.AsWrittenCounterexample | tests/unit/test_shortener.py:17-25 | for "https://example.com" on an empty store, the intended shorten succeeds and the code expands; as written the call raises after storing the record |

## Left out

- `AbstractStorage` as an interface, and `XataStorage`: the Xata backend talks to a remote database over the network. The engine is bound to `MemoryStorage`. `create_storage` is modelled only as the backend choice `Config.BackendFor`.
- `URLShortener.__init__` creating its own configuration and storage when none are given: this reads the environment. The model's constructor takes both.
- `TalisikConfig.from_env`, `get_config` and `set_config`: they read environment variables and keep global state.
- Randomness (`secrets.choice`, `secrets.token_urlsafe`): these become the parameters `draw` and `id`.
- Clock reads: `datetime.now(UTC)` is the parameter `now`, in whole seconds. `shorten` reads the clock twice, and the model uses one reading for both.
- `isoformat` strings: the listing sorts integer creation times, not ISO strings.
- Logging, and the `try`/`except` wrappers of `expand`, `get_info`, `stats`, `delete` and `deactivate`: with the memory backend nothing in those blocks raises. In `shorten` the only exception modelled is the `OverflowError` of the expiry computation; the others come from the Xata backend.
- Parts of `urlparse` that the model leaves out:
  - stripping of leading whitespace and control characters;
  - the `ValueError` for malformed IPv6 brackets;
  - lowercasing the scheme;
  - removal of every '\t', '\r' and '\n' anywhere in the URL, so `"http://\t"` is valid in the model and invalid in Python;
  - the `ValueError` for a non-ASCII network location whose NFKC normalisation contains '/', '?', '#', '@' or ':', which `_is_valid_url` turns into False.
- Shared mutable records: records are values. When `deactivate` mutates the object it got from `get`, that is modelled as storing the updated copy, which is what the following `set` does.
- Concurrency: all calls are sequential.
- `URLShortener.get_stats`: it is the same delegation as `stats` and is covered by `Shortener.URLShortener.Stats`.
- `Listing.SortNewestFirst`: its contract does not state stability. The insertion sort does keep equal timestamps in input order, as Python's stable sort does, but no lemma proves it.
- `Shortener.URLShortener.Shorten` and the other engine methods require the storage invariant (one record per key). A Python dict always satisfies it.
- The web API, the command-line and demo scripts, and the integration tests: they are outside the core.

## Findings

| source | as written | input that shows it | evidently intended | confidence | as-written member | corrected member |
|---|---|---|---|---|---|---|
| talisik/core/shortener.py:49, 56, 76, 86 and talisik/core/models.py:28-34 | `shorten` returns `ShortenResponse.error_response(...)` or `ShortenResponse.success_response(...)`. The dataclass defines no such class methods, so each call raises AttributeError. The handler calls `error_response` again, and that AttributeError escapes. On the fresh-code path the record is already stored. | `shorten(ShortenRequest(url="https://example.com"))` on an empty store raises and leaves one record stored | return a success response with the short URL, original URL, code and expiry, or an error response with a message and the original URL, and store the record only on success | not executed | Findings.ShortenAsWritten, Findings.AsWrittenCounterexample | Shortener.ShortenOn |
