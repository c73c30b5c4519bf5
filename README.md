# bing_scraper in Dafny

A model of the decision-making core of a Bing Shopping scraper, with proofs.

For each search term the scraper fetches the shopping results page. Through Tor, it rotates its identity before every retry. It classifies an empty page as blocked by searching the last body for block indicators. It extracts product listings from the page's cards and returns, and possibly saves, a result record. A batch runner loads the terms from a file and processes them five at a time.

The modules follow the program:

- `Wrappers` (wrappers.dfy): `Option`, `Result`, and `At`, which reads a script at a cursor with a default past its end.
- `Text` (text.dfy): `str.strip`, `str.isspace`, the lower-casing that the block search and the "from " test rely on, substring search, and `str.isalnum`.
- `Http` (http.dfy): responses and their truth value. It also covers the three ways a request can end, what each fetcher's `get` hands back and records for each, the browser header set, and header merging.
- `Urls` (urls.dfy): `quote_plus`, `build_url`, and link absolutization against `https://www.bing.com`.
- `Extraction` (extraction.dfy), the listing extraction of `extract_product_info_from_page`:
  - candidate cards in selector order, then de-duplication by markup in first-seen order;
  - the title, price, link and store fallback chains;
  - the "from " stripping, link absolutization and the retention test.
- `Scraper` (scraper.dfy):
  - the fetcher contract as a class `Fetcher`;
  - `BingShopScraper` as a class whose `Scrape` runs the retry loop;
  - the specification `RunFrom` of the loop's course, with lemmas about it.
- `Tor` (tor.dfy): `TorIPChanger` as a class. It covers the IP check, `get`, and the identity rotation with its polling wait loop. The loop is specified by `WaitLoop` and the rotation by `Rotate`.
- `Runner` (runner.dfy), `main.py`:
  - term loading;
  - `process_search_term`;
  - the classification of each result for the report;
  - the batch loop, with its batch numbering and pause rule.

Everything outside the program is a parameter of the model:

- What the network, the IP echo service and the Tor control port answer is a script read in order through a cursor. `FetchOutcome`, `IpReply` and `ControlReply` sequences stand for these, and past the end of a script the service fails.
- The HTML parser is a function `parse: string -> Document`. A `Document` gives, for each selector, the cards it matches.
- The time stamp of a scrape is a string parameter.
- Sleeps are recorded in ghost logs.

Where the code and its documentation disagree, the model follows the code:

- **The 404 test is dead.** A `requests` response is falsy for every status from 400 to 599. So `if not response` already returns nothing for a 404 page, and for every other error page too; no error page is parsed (`Extraction.ErrorStatusYieldsNothing`).
- **The default link is absolutized.** The default link "N/A" does not start with `http`, so it is joined to the site origin, and almost every card passes the title-or-link retention test. The one exception is a card whose href is the empty string and whose title is missing or blank: an empty link is falsy, so it is neither joined nor counted. `Extraction.KeepIff` states the exact condition.
- **The fallback's first disjunct is redundant.** The fallback verdict of `change_tor_identity` drops the comparison with the IP before the rotation: it accepts an unchanged IP (`Tor.FallbackAsWritten`, `Tor.FallbackAcceptsUnchangedIp`).
- **Dedup is by markup.** `dict.fromkeys` de-duplicates bs4 tags by their markup, not by node identity, so two identical cards in different places of the page count as one (`Extraction.Dedup`).

`Scraper.Fetcher` and `Tor.TorIPChanger` are two views of the Tor fetcher, related as follows:

- `Scraper.Fetcher` is what the scraper sees: a scripted rotation result and the body left after it, per rotation.
- `Tor.TorIPChanger.ChangeTorIdentity` proves where those come from:
  - a rotation's verdict is `Tor.Rotate(...).ok`;
  - the body it leaves is that of its last IP check (`Tor.TorIPChanger.LastCheckRecorded`);
  - so `rotationResults[k]` stands for the verdict of the k-th rotation, and `rotationBodies[k]` for `IpContent` of its last IP reply.

## Model

| member | source | states |
|---|---|---|
| Text.Strip | scraper_classes.py:60 | `str.strip()`: the result neither starts nor ends with whitespace, is no longer than the input, and is empty exactly when the input is blank |
| Text.StripIsMiddle | scraper_classes.py:60 | the result of `str.strip()` is the slice of the input between a blank prefix and a blank suffix |
| Text.TrimStartDropsBlank | scraper_classes.py:60 | what is removed from the front is whitespace |
| Text.TrimEndDropsBlank | scraper_classes.py:60 | what is removed from the back is whitespace |
| Text.StripIdempotent | main.py:26 | stripping an already stripped term changes nothing, so a loaded term is its own stripped form |
| Text.TrimStartBlank | main.py:26 | removing leading whitespace leaves nothing exactly when the line is blank |
| Text.TrimEndBlank | main.py:26 | removing trailing whitespace leaves nothing exactly when the line is blank |
| Text.Contains | scraper_classes.py:211-215 | `sub in s` holds exactly when `sub` occurs at some index of `s` |
| Text.LowerIdempotent | scraper_classes.py:212-215 | lower-casing lower-cased text changes nothing |
| Text.LowerKeepsLowerCase | scraper_classes.py:212-215 | text without upper-case ASCII letters and without the Kelvin sign is its own lower-cased form |
| Text.LowerSlice | scraper_classes.py:174 | lower-casing a prefix equals taking the prefix of the lower-cased text |
| Http.Deliver | scraper_classes.py:43-56 | the body is recorded exactly when the request completed. A response is handed back unless the request failed without one, or raised one that the direct fetcher drops; a handed-back response is the one the server sent |
| Http.IsTruthy | scraper_classes.py:84 | a response is falsy exactly for a status from 400 to 599; `Extraction.ErrorStatusYieldsNothing` uses this |
| Http.MergeHeaders | tor.py:91-93 | `headers.copy()` updated with the custom headers when there are any; its meaning is stated by `Http.MergeHeadersOverrides` |
| Http.MergeHeadersOverrides | tor.py:34-36 | merged headers have the keys of both sets, the custom values win, every other base entry is kept, and without custom headers the base set comes back unchanged |
| Urls.QuotePlus | scraper_classes.py:71 | every output character is a safe character, `+`, `%` or a hex digit, and a term of safe characters is left as it is |
| Urls.PercentEncode | scraper_classes.py:71 | three characters per byte, each `%` or an upper-case hex digit |
| Urls.ShopUrl | scraper_classes.py:70-71 | the URL starts with `https://www.bing.com/shop?q=` and ends with `&cc=us&first=1` |
| Urls.ShopUrlHasFixedParameters | scraper_classes.py:70-71 | whatever the term, the URL's only `?` ends the path and its only two `&` are those of the fixed tail, so it has exactly three query parameters |
| Urls.JoinToBase | scraper_classes.py:180 | an empty reference gives the origin, a reference with a scheme stands as it is, and every other reference becomes an http(s) URL |
| Urls.Absolutize | scraper_classes.py:179-180 | an http(s) link is unchanged; the result is empty exactly when the link is; a non-empty link ends up with a scheme; the result is never "N/A" |
| Urls.AbsolutizeIdempotent | scraper_classes.py:179-180 | absolutizing twice equals absolutizing once |
| Urls.DefaultLinkIsAbsolutized | scraper_classes.py:179-180 | the default link "N/A" becomes `https://www.bing.com/N/A` |
| Extraction.Concat | scraper_classes.py:105-106 | a card is in the concatenation exactly when it is in one of the groups |
| Extraction.Candidates | scraper_classes.py:96-106 | a card is a candidate exactly when one of the ten selectors matches it |
| Extraction.CollectCandidates | scraper_classes.py:102-106 | the loop that extends the list by each selector's non-empty matches yields the candidates in selector order, then match order |
| Extraction.Dedup | scraper_classes.py:108 | no markup is kept twice, every kept card is from the list, every markup of the list is kept, and the list does not grow |
| Extraction.FirstIndex | scraper_classes.py:108 | the first position of an element: it is there and not earlier |
| Extraction.DedupKeepsFirst | scraper_classes.py:108 | each kept card is the first card of the list with its markup |
| Extraction.DedupFirstSeenOrder | scraper_classes.py:108 | kept cards are in the order in which their markups first occur |
| Extraction.UniqueCards | scraper_classes.py:108 | the loop with a set of seen markups computes the de-duplicated list: no duplicate markups, nothing added, no markup lost |
| Extraction.Title | scraper_classes.py:121-127 | the titled span's text, else the title container's text, else "N/A" when there is no container |
| Extraction.Price | scraper_classes.py:129-135 | the one-line price text, else the price container's text, else "N/A" when there is no container |
| Extraction.RawLink | scraper_classes.py:137-149 | an anchor card's own href; else the anchor enclosing the title container; else the one enclosing the first heading; else the first anchor in the card; else "N/A" |
| Extraction.SellerStore | scraper_classes.py:157-162 | the seller div's text, or "N/A"; `Extraction.Store` states where it is used |
| Extraction.FromLabelStore | scraper_classes.py:169-177 | the "from" label's span text, else its own text, with a leading "from " removed; `Extraction.FromPrefixAnyCase` and `Extraction.StripFromPrefix` state its meaning |
| Extraction.StripFromPrefix | scraper_classes.py:174-177 | the text only changes when its lower-cased form starts with "from ", and never grows |
| Extraction.FromPrefixAnyCase | scraper_classes.py:174-175 | a "from " prefix in any letter case is removed and the rest stripped |
| Extraction.Store | scraper_classes.py:157-177 | the seller div wins. The merchant element is used only when the seller left "N/A", and the "from" label only when the store is still "N/A" |
| Extraction.BareCardDefaults | scraper_classes.py:116-119 | a card in which nothing is found keeps "N/A" in title, price and store, and gets the absolutized default link |
| Extraction.CardToProduct | scraper_classes.py:114-180 | a card's listing: its title, price, absolutized link and store; `Extraction.BareCardDefaults`, `Extraction.KeepIff` and `Extraction.LinklessCardIsKept` state what it yields |
| Extraction.Keep | scraper_classes.py:186-188 | the retention test: the title or the link is neither "N/A" nor blank; `Extraction.KeepIff` states it per card |
| Extraction.KeptProducts | scraper_classes.py:186-188 | every listing kept passes the retention test and comes from a card; every card whose listing passes is kept. Order and multiplicity are stated by `Extraction.KeptProductsSingle` and `Extraction.KeptProductsAppend` |
| Extraction.KeptProductsSingle | scraper_classes.py:114-188 | one card yields its listing when that listing is retained, and nothing otherwise |
| Extraction.KeptProductsAppend | scraper_classes.py:114-188 | the listings of two runs of cards are those of the first followed by those of the second, so they follow card order and each card yields at most one |
| Extraction.BuildProducts | scraper_classes.py:114-188 | the loop that fills each record field by field, absolutizes its link and appends it when retained yields the kept listings, all of which pass the retention test |
| Extraction.KeepIff | scraper_classes.py:179-188 | a card is retained exactly when its title is meaningful or its raw link is not the empty string |
| Extraction.AbsolutizedLinkIsNotBlank | scraper_classes.py:179-188 | a non-empty link, once absolutized, is neither "N/A" nor blank |
| Extraction.LinklessCardIsKept | scraper_classes.py:137-188 | a card with no title and no anchor at all is still retained, with link `https://www.bing.com/N/A` |
| Extraction.PageProducts | scraper_classes.py:84-89 | no response, a falsy (400-599) response or an empty body yields no listings |
| Extraction.PageListingsKeptAndAbsolutized | scraper_classes.py:179-188 | every listing a page yields passes the retention test and its link is a fixed point of the absolutizing step: an absolute link, or the empty one when the card's href is empty |
| Extraction.ErrorStatusYieldsNothing | scraper_classes.py:84-92 | every status 400-599, 404 included, yields no listings: the 404 test is never reached |
| Extraction.ExtractFromResponse | scraper_classes.py:84-112 | the early returns and the extraction pipeline compute the page's listings |
| Scraper.Fetcher.constructor | scraper_classes.py:25-29 | a fetcher starts with no recorded body and nothing fetched or rotated |
| Scraper.Fetcher.Get | scraper_classes.py:43-56 | `get` hands back and records what the next scripted outcome delivers, and counts one fetch |
| Scraper.Fetcher.ChangeTorIdentity | scraper_classes.py:31-32 | the direct fetcher answers True and changes nothing. The Tor fetcher answers its next scripted rotation result, counts one rotation, and records that rotation's body |
| Scraper.LooksBlocked | scraper_classes.py:210-215 | the recorded body is a non-empty string holding one of the four indicators once lower-cased; `Scraper.LooksBlockedIff` states it |
| Scraper.LooksBlockedIff | scraper_classes.py:210-215 | a body looks blocked exactly when one of the four indicators occurs in its lower-cased form |
| Scraper.IndicatorInAnyCase | scraper_classes.py:210-215 | an indicator written in any mix of letter case marks the body as blocked |
| Scraper.RetryPause | scraper_classes.py:203 | the back-off before a retry is positive |
| Scraper.Backoffs | scraper_classes.py:197-203 | one back-off before every fetch but the first |
| Scraper.BackoffsStep | scraper_classes.py:197-203 | a retry's fetch adds one back-off; the first fetch adds none |
| Scraper.BackoffsAreRetryPauses | scraper_classes.py:203 | every back-off is 7 seconds through Tor and 3 otherwise |
| Scraper.Observe | scraper_classes.py:205-215 | a request that raised without a response shows no listings and no block |
| Scraper.Observations | scraper_classes.py:205 | one observation per scripted outcome |
| Scraper.ObservationsAt | scraper_classes.py:205-215 | attempt `k` observes what the script delivers at `k`, or nothing past its end |
| Scraper.RunFrom | scraper_classes.py:196-225 | the course of the retry loop from attempt `a`: stop when the budget is used, when a rotation before a retry fails, when listings are found, or when a direct fetcher sees a block page, else go on with the next attempt; its lemmas follow |
| Scraper.RunFetchBounds | scraper_classes.py:196 | a scrape fetches at most `page_retry_attempts + 1` times |
| Scraper.RunProducts | scraper_classes.py:205-208 | listings come back exactly when the scrape stopped on found listings; they are the last attempt's, and every earlier attempt found none |
| Scraper.RunRotations | scraper_classes.py:197-202 | the direct fetcher never rotates. The Tor fetcher rotates once before each retry and never before the first attempt, so once fewer than it fetches, or as often when the last rotation failed |
| Scraper.RunStops | scraper_classes.py:199-225 | a direct-fetcher stop follows a block page and no earlier one; a rotation stop follows a failed rotation; exhaustion means every attempt was used |
| Scraper.DirectFetcherStopsOnBlock | scraper_classes.py:210-219 | without Tor, an empty blocked first page ends the scrape after one fetch |
| Scraper.TorRotationFailureOnFirstRetry | scraper_classes.py:199-202 | through Tor, a failed rotation before the first retry ends the scrape after exactly one fetch |
| Scraper.TorRetriesBlockedPage | scraper_classes.py:210-222 | through Tor, a blocked empty attempt that is not the last is retried |
| Scraper.FilenamePrefix | scraper_classes.py:228 | the prefix has the term's length, keeps every alphanumeric character and turns every other one into `_` |
| Scraper.FilenamePrefixIdempotent | scraper_classes.py:228 | sanitizing a prefix again changes nothing |
| Scraper.OutputFileName | scraper_classes.py:227-229 | `out/<prefix>_<timestamp>.json`: it starts with `out/`, ends with `.json`, and is ten characters longer than the term and the time stamp together |
| Scraper.BingShopScraper.constructor | scraper_classes.py:59-65 | the term is stripped and the scraper knows whether its fetcher is a Tor fetcher |
| Scraper.BingShopScraper.BuildUrl | scraper_classes.py:70-71 | the URL starts with the shop URL and `?q=`, and ends with `&cc=us&first=1` |
| Scraper.BingShopScraper.AttemptIpChangeIfTor | scraper_classes.py:73-76 | without Tor, True and nothing changes; with Tor, the fetcher's rotation verdict |
| Scraper.BingShopScraper.ExtractProductInfoFromPage | scraper_classes.py:78-190 | one fetch; the recorded body is the one the scripted outcome delivers; the listings are those of the delivered response; with the block verdict on that body they are the attempt's observation |
| Scraper.BingShopScraper.Attempt | scraper_classes.py:197-222 | one pass of the retry loop either ends the scrape as `RunFrom` does, or finds nothing and leaves the same course to the next attempt, after one back-off per retry |
| Scraper.BingShopScraper.Scrape | scraper_classes.py:192-241 | the listings, fetches and rotations are those of `RunFrom`, the count is the number of listings, the file is written exactly when there are listings, and a 7- or 3-second back-off precedes every fetch but the first |
| Tor.IpOf | tor.py:80-87 | the IP reported is never empty; a real IP comes only from a successful JSON answer holding it, and such an answer's non-empty IP is reported |
| Tor.IpContent | tor.py:78-83 | the body is recorded exactly when the status check passed |
| Tor.Credential | tor.py:46-49 | a password is offered exactly when it is set and non-empty |
| Tor.ControlSucceeds | tor.py:45-50 | the control session connects, accepts the offered credential and takes the NEWNYM signal; any failure is the exception path of `Tor.Rotate` |
| Tor.IsNewIp | tor.py:63 | an IP counts as new when it was found and differs from the one before the rotation; `Tor.NewIpFlagAt` and `Tor.RotationEarlyIff` use it |
| Tor.Iterations | tor.py:54 | at least one round |
| Tor.NewIpFlagAt | tor.py:62-63 | the flag of a check is whether the IP it reports is new |
| Tor.WaitLoop | tor.py:52-66 | the wait loop from one round on: stop with no rounds or no budget left, sleep `min(3, w - slept)`, check the IP, return early on a new IP, stop once the budget is slept; `Tor.WaitCount`, `Tor.WaitBounds` and `Tor.WaitEarlyIff` state its meaning |
| Tor.WaitCount | tor.py:56-62 | every round sleeps once and checks the IP once |
| Tor.WaitShift | tor.py:52-66 | the sleeps made before the loop only come in front of its own |
| Tor.WaitBounds | tor.py:54-66 | at most `max(1, w // 3)` rounds, each sleep in (0, 3], the total within the budget, no sleep with no budget left, and an early return only after a sleep |
| Tor.WaitEarlyLast | tor.py:62-65 | an early return comes right after a check that saw a new IP |
| Tor.WaitEarlyIff | tor.py:56-66 | the loop returns early exactly on its first check that sees a new IP; no earlier check saw one |
| Tor.DefaultWaitWithoutChange | tor.py:54-66 | with the default 15-second budget and no new IP, the loop sleeps 3 seconds five times |
| Tor.FallbackAsWritten | tor.py:68-71 | the fallback succeeds exactly when the final IP is non-empty and not "IP Not Found", whatever the IP before the rotation |
| Tor.FallbackAcceptsUnchangedIp | tor.py:70-71 | the fallback accepts the IP from before the rotation |
| Tor.UnknownBeforeAcceptsAnyIp | tor.py:62-63 | when the IP before the rotation is unknown, every found IP counts as new |
| Tor.Rotate | tor.py:42-75 | every rotation checks the IP at least once; a control-port failure answers False after that one check, without sleeping |
| Tor.RotationBounds | tor.py:42-75 | a rotation checks the IP at most `max(1, w // 3) + 2` times and sleeps at most `max(1, w // 3)` times, each in (0, 3], within the budget |
| Tor.RotationEarlyIff | tor.py:52-66 | the wait loop returns early exactly when one of its checks saw an IP other than the one before the rotation |
| Tor.EarlyWaitSawNewIp | tor.py:62-65 | an early return's last check saw a new IP |
| Tor.RotationOkIff | tor.py:42-75 | a rotation succeeds exactly when the control port took the signal and its last IP check found an IP |
| Tor.TorIPChanger.constructor | tor.py:26-40 | the headers are a copy of the browser set updated with the custom ones; the ports, password and wait time are kept; nothing is recorded yet |
| Tor.TorIPChanger.GetCurrentIp | tor.py:77-87 | one IP check with the instance headers and a 15-second timeout; the answer's IP or "IP Not Found"; the body is recorded only when the status check passed |
| Tor.TorIPChanger.Get | tor.py:89-103 | the request carries the instance headers updated with the custom ones; the body is recorded once the request returns; the response, also an error one, is handed back, else None |
| Tor.TorIPChanger.SleepAndCheck | tor.py:57-65 | one round: one sleep, one IP check, and whether it saw a new IP |
| Tor.TorIPChanger.WaitForNewIp | tor.py:52-66 | the loop's verdict, IP checks and sleeps are `WaitLoop`'s |
| Tor.TorIPChanger.ChangeTorIdentity | tor.py:42-75 | the verdict, IP checks and sleeps are `Rotate`'s; one control session is used; the last IP check's body and request are left recorded |
| Runner.NonBlankLines | main.py:26 | no more terms than lines |
| Runner.NonBlankLinesAppend | main.py:26 | the filter works piece by piece, keeping file order |
| Runner.NonBlankLinesMembers | main.py:26 | a term is loaded exactly when it is the stripped form of some non-blank line |
| Runner.NonBlankLinesEmpty | main.py:26-28 | no term is loaded exactly when every line is blank |
| Runner.LoadSearchTerms | main.py:22-29 | a missing file gives FileNotFoundError and an all-blank file ValueError; otherwise the non-empty list of stripped non-blank lines |
| Runner.TotalBatches | main.py:84 | `(n + 5 - 1) // 5`; `Runner.TotalBatchesIsCeiling` states its meaning |
| Runner.TotalBatchesIsCeiling | main.py:84 | the batch count is the ceiling of n / 5 |
| Runner.BatchAt | main.py:81-83 | the batch at position `i`: `terms[i:i+5]`, numbered `i // 5 + 1`; `Runner.BatchShape` states its shape |
| Runner.BatchShape | main.py:81-108 | batch `b` holds one to five terms, is numbered b + 1 of the total, and is followed by a pause exactly when it is not the last |
| Runner.TwelveTerms | main.py:81-108 | twelve terms make batches of 5, 5 and 2, with pauses after the first two only |
| Runner.ProcessSearchTerm | main.py:31-54 | a fresh fetcher of the configured kind and a scraper with the configured retries; the result is the scrape's; one to `retries + 1` fetches |
| Runner.MainSettingsFetches | main.py:38-52 | with the runner's settings a term costs one to sixteen fetches |
| Runner.Classify | main.py:95-101 | "Found" exactly when the result has listings, with their number; the "issue" report only for a result with no listings and a non-zero count |
| Runner.ReportOfScrape | main.py:95-101 | the "issue" report never comes up for a scrape, and a "Found" report names the file the scraper saved |
| Runner.ProcessBatch | main.py:88-103 | each term of the batch is scraped and reported once |
| Runner.PlanSlice | main.py:81-103 | reports of the terms from position `i` on are the slice of the plan of all reports starting at `i` |
| Runner.PlanGrows | main.py:81-82 | adding the next slice keeps the batches as planned and their concatenation a prefix of the terms |
| Runner.RunBatch | main.py:81-103 | one round: the slice at `i`, numbered and counted, and the reports of positions i, i + 1, ... |
| Runner.BatchesUpToGrows | main.py:81-84 | adding the batch at the next position keeps the batches those of positions 0, 5, 10, ..., and all of them once the list is covered |
| Runner.RunNextBatch | main.py:81-103 | one pass of the batch loop adds the batch at the next position, and the reports run so far stay a prefix of the plan |
| Runner.RunBatches | main.py:81-108 | the batches are the slices at 0, 5, 10, ... and together they are the terms; every term is scraped and reported once, in list order |
| Runner.ScrapeAll | main.py:66-108 | a load error ends the run with that error; otherwise the loaded terms are batched as planned and all reported |

## Left out

- HTTP transport: sessions, SOCKS proxies, connection pooling, timeouts as behaviour, and the echo services. Each request's outcome is a script entry instead.
- The Tor control protocol (`stem`'s `Controller`, `authenticate`, `Signal.NEWNYM`). Each control session is a `ControlReply` script entry, and any failure in it is the exception path answering False.
- HTML parsing and CSS selector semantics (BeautifulSoup, lxml, `select`, `find`, `find_parent`, the class lambdas and the `merchant` regex). A page is a `Document` produced by the `parse` parameter, and a card records what each look-up finds.
- Urls.JoinToBase: a simplified `urljoin` for a base without a path. Dot segments are not removed, and a reference with a scheme is kept as written, including `https:foo` (which `urljoin` resolves against the base) and a reference whose scheme is `https` in upper or mixed case (which `urljoin` lower-cases). The rest of section 5.2 of RFC 3986 is not modelled either.
- Urls.QuotePlus: Python strings holding lone surrogates, which `quote_plus` rejects, are not modelled. Dafny characters are Unicode scalar values.
- Text.IsAlnum: only ASCII letters and digits. Python's `str.isalnum` also accepts other Unicode letters and digits.
- Scraper.FilenamePrefix: keeps only ASCII letters and digits, because it is built on Text.IsAlnum. Python keeps every Unicode alphanumeric character.
- Text.Lower: only the lower-case mappings that can matter to a search for the ASCII needles "captcha", "access denied", "blocked", "unable to process request" and "from ". Other characters are kept as they are.
- Tor.IpOf: an echo-service body is either not JSON, which counts as a failure because `requests` 2.27 and later raise a `RequestException` for it, or a JSON object with or without a usable string `ip`. A JSON array or scalar is not modelled; on one, `.get` raises an AttributeError, which escapes the IP check before the rotation (tor.py:43, outside the `try`). A non-string `ip` value is not modelled either.
- Tor.TorIPChanger.constructor: `new_ip_wait_time` is an integer; a float budget is not modelled.
- Scraper.BingShopScraper.constructor: the fetcher is always passed in. The `fetcher_instance=None` default, which builds a direct fetcher, is the caller's `new Fetcher(false, ...)`.
- Scraper.Fetcher.Get: the direct fetcher's session headers and its 20-second timeout are not recorded. The Tor fetcher's request is recorded (Tor.TorIPChanger.Get).
- The Tor fetcher's rotation verdicts and left-over bodies are scripts in `Scraper.Fetcher`. They are not computed by Tor.TorIPChanger.ChangeTorIdentity within one model; the link is stated above.
- `RequestsFetcher.get_current_ip`: the scraper never calls it.
- `os.makedirs("out")`, opening and reading the terms file, and `json.dump`. The file a result is saved to is the `savedAs` out-parameter of Scraper.BingShopScraper.Scrape.
- `time.sleep`: sleeps are recorded in ghost logs (`sleeps` of Scrape, `sleepLog` of the Tor fetcher). The pause between batches is the `pauseAfter` flag of a batch.
- `time.strftime`: the time stamp is a parameter.
- Concurrency: the thread pool, its worker count and the completion order of `as_completed`. Reports follow the order of the batch.
- Exceptions escaping a worker, reported at main.py:102-103. Three sources are not modelled:
  - `os.makedirs("out")` (scraper_classes.py:67-68) raises FileExistsError when two workers both pass the unguarded `exists` test; this falls under the file-system and concurrency lines above.
  - `open` and `json.dump` (scraper_classes.py:239-240) have no `try`, so a write failure escapes; this falls under the file-system line above.
  - An IP check whose JSON body is not an object raises an AttributeError (tor.py:43); see the Tor.IpOf line.
- The `stem` import check at the start of `main` (main.py:57-64), the unused `MAX_PAGES_PER_CATEGORY`, and all console output (colorama).
- `TorIPChanger.post` and the smoke test at the end of tor.py.
- The fetcher kind and the retry budget are parameters of the batch loop (`Runner.Settings`). `main.py` fixes them to the Tor fetcher and 15 retries (`Runner.MainSettings`).
