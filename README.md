# Bulk scrapers of NFT events and wallet transactions, modelled in Dafny

The repository collects data for an NFT market study with small HTTP scrapers. This
project models their core:

- **`nft_event_offer.py`** is the OpenSea event scraper. An `EventScraper` pages through the
  `offer` events of each token with a `next` cursor. A request is tried at most three times
  when transport fails. A 401 rotates the API key pool and retries. A 429 waits its
  `Retry-After` and retries. Any other non-200 status gives the token up. A 200 adds its
  `asset_events`, and pagination stops on an empty page or a missing cursor. The events are
  written atomically to `NFT_<sanitised name>_<token id>.json`. The token is then marked
  processed, and the progress file is rewritten.
- **`Etherscan_User.py`** is the Etherscan address scraper. An `EtherscanScraper` pages
  through the `txlist` of each address by page number, 100 records a page. A page is tried at
  most three times, failing on an HTTP error or a status other than `"1"`. Pagination stops on a
  short page or a result that is not a list. The address file is written atomically and the
  address is marked processed. An existing file or an earlier run skips the address.
- **`etherscan_fix.py`** is the re-fetch script. `get_txlist` draws one key per page from a
  fresh cycle over the key list. A success needs status `"1"` and a list result; anything
  else is a failed attempt. `save_json` writes the same address file.
- **`rename_address.py`** renames `buyer_<address>.json` to `<address>.json`.

The network is a finite sequence of replies, one per request or attempt. Each pagination is a
function of those replies (`OpenSeaPagination.Paginate`, `EtherscanUser.UserPages`,
`EtherscanFix.FixPages`). It returns the records gathered, the requests sent (cursor or page,
and key), the key rotations, the rate-limit waits and how pagination ended. The methods that
run the nested retry loops are proved equal to these functions. The lemmas state what the
scrapers promise about them. The output directory is a map from file name to payload, and an
atomic write is modelled as writing the temporary file and then replacing the target with it.

Modules: `Common` (JSON values, options, atomic write), `KeyRotation` (the deque rotation),
`NftNames` (the file-name sanitiser and the NFT file), `OpenSeaPagination` and
`EventScraperModel` (the OpenSea scraper), `EtherscanApi`, `EtherscanUser` and `EtherscanFix`
(the two Etherscan scrapers), and `RenameAddress`.

The code behaves as follows where a reader might expect otherwise:

- Only a 401 rotates the OpenSea key. A 429 waits and retries with the same key.
- OpenSea pagination has no short-page signal. It ends only on an empty `asset_events` list
  or a missing or empty `next` cursor.
- `Etherscan_User.py` never records a failed address. `get_all_txlist_for_address` always
  returns a list, so `failed_addresses` stays empty. An address whose page gave up is saved
  with the records gathered so far and marked processed.
- A failed save is not reported as a failed identifier. The save exception is only printed.
- The two Etherscan scripts differ on a status-`"1"` reply without `result`.
  `Etherscan_User.py` reads it as an empty last page. `etherscan_fix.py` retries it as a
  failed attempt.
- The docstring of `get_txlist` in `etherscan_fix.py` says it rotates keys on API errors, but
  it does not. The key is drawn once per page, before the attempts, and every retry sends the
  same parameters. The key changes only after a successful full page. `EtherscanFix.RequestKeys`
  proves that every attempt on a page uses that page's key, and
  `EtherscanFix.ApiErrorKeepsKey` shows an API error retried with the same key.

## Model

| member | source | states |
|---|---|---|
| Common.AtomicWrite | Data/Collection/nft_transaction_data/nft_event_offer.py:84-87 | After an atomic write the target holds the new content, the temporary file is gone, every other file is kept and no other file appears |
| KeyRotation.RotateLeft | Data/Collection/nft_transaction_data/nft_event_offer.py:64 | `rotate(-1)`: the front key moves to the back and the pool keeps its length; `RotatedFront` shows it keeps its keys |
| KeyRotation.RotatedFront | Data/Collection/nft_transaction_data/nft_event_offer.py:61-65 | After m rotations the pool holds the same keys (same length, same multiset) and its front, the current key, is key m mod n of the original |
| KeyRotation.RotatedSplit | Data/Collection/nft_transaction_data/nft_event_offer.py:64 | m rotations of a pool of n keys split it at m mod n: the keys from there on, then the keys before |
| KeyRotation.RotatedPrefix | Data/Collection/nft_transaction_data/nft_event_offer.py:64 | Up to a full cycle, k rotations move the first k keys to the back in order |
| KeyRotation.RotatedCompose | Data/Collection/nft_transaction_data/nft_event_offer.py:64 | a rotations followed by b rotations are a + b rotations |
| KeyRotation.RotatedFullCycle | Data/Collection/nft_transaction_data/nft_event_offer.py:64 | As many rotations as keys give back the original pool |
| KeyRotation.RotatedShift | Data/Collection/nft_transaction_data/nft_event_offer.py:64 | Rotating once and then m times is m + 1 rotations |
| NftNames.Sanitize | Data/Collection/nft_transaction_data/nft_event_offer.py:70 | The safe name: each character other than an ASCII letter or digit, space, `-` or `_` becomes `_`, edge spaces are stripped, and inner spaces become `_`; its safety, length bound, fixed points and idempotence are the lemmas below |
| NftNames.TrimStartSpec | Data/Collection/nft_transaction_data/nft_event_offer.py:70 | Trimming the front leaves a suffix, removes only spaces, and what is left does not start with a space |
| NftNames.TrimEndSpec | Data/Collection/nft_transaction_data/nft_event_offer.py:70 | Trimming the end leaves a prefix, removes only spaces, and what is left does not end with a space |
| NftNames.StripIsSlice | Data/Collection/nft_transaction_data/nft_event_offer.py:70 | `strip()` keeps one contiguous part of the name |
| NftNames.StripUnchanged | Data/Collection/nft_transaction_data/nft_event_offer.py:70 | A name without leading or trailing spaces is not changed by `strip()` |
| NftNames.SanitizeSafe | Data/Collection/nft_transaction_data/nft_event_offer.py:70 | A sanitised name holds only alphanumerics, `-` and `_`, and is never longer than the name |
| NftNames.SanitizeKeepsSafe | Data/Collection/nft_transaction_data/nft_event_offer.py:70 | A name made only of alphanumerics, `-` and `_` is kept as it is |
| NftNames.SanitizeFixedPoints | Data/Collection/nft_transaction_data/nft_event_offer.py:70 | Sanitising returns its input if and only if the input is already safe |
| NftNames.SanitizeIdempotent | Data/Collection/nft_transaction_data/nft_event_offer.py:70 | Sanitising a sanitised name changes nothing |
| NftNames.SanitizePointwise | Data/Collection/nft_transaction_data/nft_event_offer.py:70 | For a name without leading or trailing spaces, each character stays if safe and becomes `_` otherwise (spaces included), so the length is kept |
| NftNames.SanitizeBlank | Data/Collection/nft_transaction_data/nft_event_offer.py:70 | A name of spaces only sanitises to the empty name |
| NftNames.NftFileName | Data/Collection/nft_transaction_data/nft_event_offer.py:71 | The file name `NFT_<safe name>_<token id>.json`; `ParseNftFileNameRoundTrip` reads both parts back and `NftFileNameInjective` shows distinct tokens get distinct files |
| NftNames.LastUnderscore | Data/Collection/nft_transaction_data/nft_event_offer.py:71 | The result is the position of the last `_`, or none when there is no `_` |
| NftNames.ParseNftFileNameRoundTrip | Data/Collection/nft_transaction_data/nft_event_offer.py:71 | The sanitised name and a token id without `_` are read back from `NFT_<name>_<id>.json` |
| NftNames.NftFileNameInjective | Data/Collection/nft_transaction_data/nft_event_offer.py:71 | For token ids without `_`, two tokens write the same file only when their ids and sanitised names are equal |
| NftNames.NftFileOf | Data/Collection/nft_transaction_data/nft_event_offer.py:74-82 | The saved `event_count` is the number of events saved, and the events, the id and the name are those given |
| OpenSeaPagination.Paginate | Data/Collection/nft_transaction_data/nft_event_offer.py:97-168 | Each request sent gets one reply, so requests never outnumber replies, and a token sends at least one request when any reply is available |
| OpenSeaPagination.EventsAreOkPages | Data/Collection/nft_transaction_data/nft_event_offer.py:147-149 | The events returned are the `asset_events` of the 200 responses received, concatenated in order; 401, 429, other statuses and transport failures add none |
| OpenSeaPagination.NextKeysRotated | Data/Collection/nft_transaction_data/nft_event_offer.py:131-133 | Only a 401 rotates the pool, once |
| OpenSeaPagination.RotationsAndWaits | Data/Collection/nft_transaction_data/nft_event_offer.py:131-139 | The key rotations are the 401 responses received, and the waits are the Retry-After values of the 429s (30 when absent), in order |
| OpenSeaPagination.RequestCursors | Data/Collection/nft_transaction_data/nft_event_offer.py:102-104 | Every request is for the token, and request j carries the `next` of the latest 200 page before it |
| OpenSeaPagination.RequestKeys | Data/Collection/nft_transaction_data/nft_event_offer.py:114 | Request j is sent with the front key of the pool rotated once per 401 received before it |
| OpenSeaPagination.NoEarlierEnd | Data/Collection/nft_transaction_data/nft_event_offer.py:107-129 | Every request is sent with fewer than three transport failures counted, and no reply before the last one used ends pagination |
| OpenSeaPagination.OutcomeOfLastReply | Data/Collection/nft_transaction_data/nft_event_offer.py:125-162 | Pagination is unfinished exactly when every reply was used without an end; otherwise its last reply ended it, Complete after a 200 page and Failed otherwise |
| OpenSeaPagination.StopsAtFirstEnd | Data/Collection/nft_transaction_data/nft_event_offer.py:100-168 | Pagination stops at the first reply that ends it and at no earlier one, with the outcome that reply gives |
| OpenSeaPagination.AtMostThreeTransportAttempts | Data/Collection/nft_transaction_data/nft_event_offer.py:107-129 | No request is sent after three transport failures in a row |
| OpenSeaPagination.StreakSnoc | Data/Collection/nft_transaction_data/nft_event_offer.py:108-120 | The failure count grows by one on a transport failure and restarts at zero on a response |
| OpenSeaPagination.FirstRequestHasNoCursor | Data/Collection/nft_transaction_data/nft_event_offer.py:97-104 | A token's first request has no cursor and uses the current key |
| OpenSeaPagination.AuthRejectionThenPage | Data/Collection/nft_transaction_data/nft_event_offer.py:131-133 | A 401 then a last page of events: the key rotates once, the retry uses the next key, and the token completes with that page's events |
| OpenSeaPagination.AlwaysTimingOut | Data/Collection/nft_transaction_data/nft_event_offer.py:107-129 | Three transport failures: exactly three requests, no events, and the token fails |
| EventScraperModel.NftNameOf | Data/Collection/nft_transaction_data/nft_event_offer.py:175 | The token's name when it has one, and its id otherwise, as `token.get("name", token_id)` gives |
| EventScraperModel.SendRequest | Data/Collection/nft_transaction_data/nft_event_offer.py:107-129 | The retry loop stops at the first response, at the third transport failure or when the replies run out; its requests are the first ones of the pagination, and three failures fail it |
| EventScraperModel.EventScraper.constructor | Data/Collection/nft_transaction_data/nft_event_offer.py:32-35 | The current key is the front of the pool, no token has failed, and the processed set is the one loaded |
| EventScraperModel.EventScraper.RotateKey | Data/Collection/nft_transaction_data/nft_event_offer.py:61-65 | The pool is rotated left once, keeps its keys, and the current key is its new front |
| EventScraperModel.EventScraper.FetchPage | Data/Collection/nft_transaction_data/nft_event_offer.py:100-164 | One pass of the outer loop sends, gathers and waits what the first page of the pagination does; it stops where pagination ends, records a failed token and otherwise leaves the next state |
| EventScraperModel.EventScraper.HandlePagination | Data/Collection/nft_transaction_data/nft_event_offer.py:92-168 | The events, requests, waits and outcome are those of the pagination; the key pool is rotated once per 401, and the token is recorded as failed exactly when pagination fails |
| EventScraperModel.EventScraper.ApplyResponse | Data/Collection/nft_transaction_data/nft_event_offer.py:131-164 | 401 rotates, 429 waits its Retry-After, another non-200 fails the token, and a 200 adds its events and stops on an empty page or no cursor |
| EventScraperModel.EventScraper.SaveNftFile | Data/Collection/nft_transaction_data/nft_event_offer.py:68-90 | The token's file, under its sanitised name, is atomically replaced by its metadata and events |
| EventScraperModel.EventScraper.SaveProgress | Data/Collection/nft_transaction_data/nft_event_offer.py:49-59 | The progress file holds the processed set |
| EventScraperModel.EventScraper.ProcessToken | Data/Collection/nft_transaction_data/nft_event_offer.py:170-187 | A processed token is skipped without a request. Any other is paginated; once pagination has returned, the token is saved with its events and marked processed even when it failed, and the progress is saved |
| EventScraperModel.FailedTokenIsStillProcessed | Data/Collection/nft_transaction_data/nft_event_offer.py:125-129 | A token whose requests all fail is both processed and failed, and its file is written with no events |
| EtherscanApi.AddressFileName | Data/Collection/user_address_data/Etherscan_User.py:70 | The file of an address is `<address>.json`; `AddressFileNameRoundTrip` reads the address back from it |
| EtherscanApi.AddressFileNameRoundTrip | Data/Collection/user_address_data/Etherscan_User.py:70 | The address is read back from its file name, so distinct addresses never share a file |
| EtherscanApi.TempIsNoAddressFile | Data/Collection/user_address_data/Etherscan_User.py:70-71 | The temporary file of a write is never an address file |
| EtherscanApi.AddressFileOf | Data/Collection/user_address_data/Etherscan_User.py:72-77 | The saved `transaction_count` is the number of records saved, and the address and records are those given |
| EtherscanUser.ResultList | Data/Collection/user_address_data/Etherscan_User.py:130-131 | `data.get("result", [])` when it is a list: a missing result is the empty list, a list its items, and anything else (or a body that is not an object) no list |
| EtherscanUser.UserPages | Data/Collection/user_address_data/Etherscan_User.py:92-143 | Each attempt sent gets one reply, so attempts never outnumber replies, and an address sends at least one request when any reply is available |
| EtherscanUser.TxsAreOkPages | Data/Collection/user_address_data/Etherscan_User.py:130-135 | The records returned are the result lists of the successful replies, in order; failed attempts and non-list results add none |
| EtherscanUser.RequestPages | Data/Collection/user_address_data/Etherscan_User.py:99-112 | Every request is for the address with the current key; the first asks for page 1, and each later one asks for the next page after a success and the same page otherwise |
| EtherscanUser.EarlierPagesFull | Data/Collection/user_address_data/Etherscan_User.py:126-140 | Every reply before the last one used was a failed attempt or a full page of at least 100 records |
| EtherscanUser.StopOfLastReply | Data/Collection/user_address_data/Etherscan_User.py:126-138 | Pagination ends at its last reply as that reply says: raised for a non-object body, given up after a failure, stopped on a non-list result, or a short last page |
| EtherscanUser.GaveUpAfterFailures | Data/Collection/user_address_data/Etherscan_User.py:99-128 | Giving up follows only failed attempts: all the attempts the page had left, or the last three replies used |
| EtherscanUser.GaveUpAfterThreeFailures | Data/Collection/user_address_data/Etherscan_User.py:99-128 | From a fresh page, giving up means the last three attempts all failed |
| EtherscanUser.NoRequestAfterThreeFailures | Data/Collection/user_address_data/Etherscan_User.py:99-128 | No request follows three failed attempts in a row, and with `attempts` failures already counted on a page, no request follows the attempts it has left when all of them fail |
| EtherscanUser.AtMostThreeAttempts | Data/Collection/user_address_data/Etherscan_User.py:99-128 | From a fresh page, no request follows three failed attempts in a row: three failures stop the requests |
| EtherscanUser.MissingResultIsLastPage | Data/Collection/user_address_data/Etherscan_User.py:130 | A successful reply with no `result` is an empty last page after one request |
| EtherscanUser.FullThenShortPage | Data/Collection/user_address_data/Etherscan_User.py:135-140 | A full page then a short one: requests for pages 1 and 2, and both pages' records |
| EtherscanUser.AttemptPage | Data/Collection/user_address_data/Etherscan_User.py:99-124 | The retry loop stops at the first reply that does not fail, after three failures or when the replies run out; its requests are the first ones of the pagination, and three failures give up |
| EtherscanUser.EtherscanScraper.constructor | Data/Collection/user_address_data/Etherscan_User.py:32-36 | The current key is the front of the pool, no address has failed, and the processed set is the one loaded |
| EtherscanUser.EtherscanScraper.RotateKey | Data/Collection/user_address_data/Etherscan_User.py:61-65 | The pool is rotated left once, keeps its keys, and the current key is its new front |
| EtherscanUser.EtherscanScraper.GetAllTxlist | Data/Collection/user_address_data/Etherscan_User.py:86-143 | The requests and how it ended are those of the pagination from page 1 with the current key; whenever the call returns it returns a list, the records of that pagination |
| EtherscanUser.EtherscanScraper.SaveAddressFile | Data/Collection/user_address_data/Etherscan_User.py:68-84 | `<address>.json` is atomically replaced by the address, its record count and its records |
| EtherscanUser.EtherscanScraper.SaveProgress | Data/Collection/user_address_data/Etherscan_User.py:49-59 | The progress file holds the processed set |
| EtherscanUser.EtherscanScraper.ProcessAddress | Data/Collection/user_address_data/Etherscan_User.py:145-175 | An existing file marks the address processed without a request, and an address already processed is skipped. Otherwise the address is paginated, saved and marked processed unless pagination raised or has not returned. The `is not None` test always passes, so the failed list never grows, and the keys never change |
| EtherscanFix.PageKey | Data/Collection/user_address_data/etherscan_fix.py:30-33 | The key page p is sent with: key (p - 1) mod n of the list, as the p-th `next` of a cycle over it yields |
| EtherscanFix.FixPages | Data/Collection/user_address_data/etherscan_fix.py:28-71 | Each attempt sent gets one reply, so attempts never outnumber replies, and an address sends at least one request when any reply is available |
| EtherscanFix.TxList | Data/Collection/user_address_data/etherscan_fix.py:26-33 | `get_txlist`: with no keys the first `next` raises before any request; otherwise the pagination from page 1 |
| EtherscanFix.TxsAreOkPages | Data/Collection/user_address_data/etherscan_fix.py:50-54 | The records returned are the result lists of the successful attempts, in order, each page once |
| EtherscanFix.RequestPages | Data/Collection/user_address_data/etherscan_fix.py:36-68 | The first request asks for page 1, and each later one asks for the next page after a success and the same page otherwise |
| EtherscanFix.RequestKeys | Data/Collection/user_address_data/etherscan_fix.py:30-33 | Every request is for the address with the key of its page, key (p - 1) mod n for page p, shared by all attempts on the page |
| EtherscanFix.EarlierPagesFull | Data/Collection/user_address_data/etherscan_fix.py:65-68 | Every successful attempt before the last one used brought at least 100 records |
| EtherscanFix.StopOfLastReply | Data/Collection/user_address_data/etherscan_fix.py:61-68 | Pagination never raises once it has keys; it ends on a short successful page or after a failed attempt, and is unfinished only when every reply was used |
| EtherscanFix.GaveUpAfterFailures | Data/Collection/user_address_data/etherscan_fix.py:45-63 | Giving up follows only failed attempts: all the attempts the page had left, or the last three replies used |
| EtherscanFix.GaveUpAfterThreeFailures | Data/Collection/user_address_data/etherscan_fix.py:45-63 | From a fresh page, giving up means the last three attempts all failed |
| EtherscanFix.NoRequestAfterThreeFailures | Data/Collection/user_address_data/etherscan_fix.py:45-63 | No request follows three failed attempts in a row, and with `attempts` failures already counted on a page, no request follows the attempts it has left when all of them fail |
| EtherscanFix.AtMostThreeAttempts | Data/Collection/user_address_data/etherscan_fix.py:45-63 | From a fresh page, no request follows three failed attempts in a row: the `for`/`else` ends the run after the third |
| EtherscanFix.MissingResultIsRetried | Data/Collection/user_address_data/etherscan_fix.py:50 | Status "1" without a result is retried: three of them give up with no records, all on page 1 with the first key |
| EtherscanFix.ApiErrorKeepsKey | Data/Collection/user_address_data/etherscan_fix.py:30-63 | An API error and then a short successful page: both attempts ask for page 1 with the first key, and the key is not rotated on the error |
| EtherscanFix.CycleIsRotation | Data/Collection/user_address_data/etherscan_fix.py:30-33 | The key of page p is the front of the pool after p - 1 rotations |
| EtherscanFix.AttemptPage | Data/Collection/user_address_data/etherscan_fix.py:45-63 | The `for`/`else` loop stops at the first success, after three failures or when the replies run out; its requests are the first ones of the pagination, and three failures give up |
| EtherscanFix.NextKey | Data/Collection/user_address_data/etherscan_fix.py:33 | Drawing from the cycle yields the key of the current page and moves to the next page's position |
| EtherscanFix.GetTxList | Data/Collection/user_address_data/etherscan_fix.py:26-71 | The records, the requests and how it ended are those of the pagination from page 1; with no keys it raises before any request |
| EtherscanFix.SaveJson | Data/Collection/user_address_data/etherscan_fix.py:73-87 | `<address>.json` holds the payload with a count equal to its records, the temporary file is gone and no other file changes |
| EtherscanFix.SaveJsonKeepsOtherAddresses | Data/Collection/user_address_data/etherscan_fix.py:82-86 | Saving one address leaves every other address's file as it was |
| RenameAddress.FindFirst | Data/Collection/user_address_data/rename_address.py:11 | The result is the first position where the pattern occurs, or none when it does not occur |
| RenameAddress.ReplaceFirst | Data/Collection/user_address_data/rename_address.py:11 | `replace(pat, repl, 1)`: the first occurrence of the pattern, if any, is replaced, and the string is unchanged otherwise |
| RenameAddress.NewName | Data/Collection/user_address_data/rename_address.py:9-11 | The new name of a file: none unless it starts with `buyer_` and ends with `.json`, and otherwise the name with its first `buyer_` removed; its properties are the lemmas below |
| RenameAddress.NewNameDropsPrefix | Data/Collection/user_address_data/rename_address.py:9-11 | A file is renamed if and only if its name starts with `buyer_` and ends with `.json`; the new name drops that leading `buyer_` and still ends with `.json` |
| RenameAddress.RenameNotIdempotent | Data/Collection/user_address_data/rename_address.py:11 | Only the first `buyer_` is removed, so a renamed file can be renamed again |
| RenameAddress.RenameGivesAddressFile | Data/Collection/user_address_data/rename_address.py:9-11 | A prefixed address file is renamed to the file name the scrapers use for that address |

## Left out

- The network, the clock and the file system are not modelled as I/O. Replies are a finite
  sequence given as a parameter, and sleeps are not modelled. The OpenSea model records the
  Retry-After waits, and it leaves out the 5-second and 1-second back-offs and the rate
  throttle.
- A pagination that uses up every reply before it ends has the outcome `Pending`. This bound
  stands in for an endless server, so a run that never ends, such as endless 401s, is not
  described beyond its prefix. A `Pending` pagination has not returned: `ProcessToken` and
  `ProcessAddress` then save nothing and mark nothing processed.
- The thread pool, the lock and the shared `API_KEYS` deque under concurrency are left out.
  Each model runs one worker at a time, and the key pool is a field of the scraper.
- `str.isalnum` is modelled on ASCII letters and digits only. Unicode categories are left out.
- `str.strip()` removes all whitespace. After the keep-or-underscore pass, a space is the only
  whitespace left in the ASCII model, so stripping spaces is enough.
- A non-numeric `Retry-After` header makes `int()` raise, and a negative one makes
  `time.sleep` raise `ValueError`, which leaves `process_token` with nothing saved. The model
  takes the header as a count of seconds (a `nat`) when present, so neither case is
  represented.
- OpenSea bodies are taken as decoded objects. A body that fails to decode, a non-list
  `asset_events` and a `null` token name are left out.
- Exceptions during a save, whether printed or escaping, are left out. Every save succeeds.
- The timestamp written in each file is left out of the payloads.
- `_load_progress` is a constructor parameter (the set read, or empty). `main`,
  `finalize_operation` / `finalize`, the CSV loading and the final summaries are not modelled.
- The loop of `rename_address.py` over the directory listing and `os.rename` are not modelled,
  and neither is a collision with an existing target. Only the rename rule is.
- `EtherscanUser.EtherscanScraper.RotateKey`: nothing in `Etherscan_User.py` calls
  `_rotate_key`, so it is modelled but no operation uses it.
- `EtherscanUser` reads a `JSONDecodeError` from `response.json()` as a caught
  `RequestException`, as recent versions of `requests` raise it.
