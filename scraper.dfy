/**
 * The per-term controller (`BingShopScraper`): it builds the query URL,
 * fetches and extracts up to `page_retry_attempts + 1` times, rotates the
 * Tor identity before every retry, classifies an empty page as blocked by
 * searching the last body for block indicators, and emits the result record.
 *
 * The fetcher is seen through its contract: an `is_tor_fetcher` flag, the
 * `last_response_content` field, `get` and `change_tor_identity`. What the
 * network answers and what each identity rotation returns are scripted.
 */
module Scraper {
  import opened Wrappers
  import opened Text
  import opened Http
  import opened Urls
  import opened Extraction

  /**
   * A fetcher: the direct `RequestsFetcher` (isTor false) or the Tor fetcher
   * (isTor true). What its requests will yield is scripted in `outcomes`; what
   * each identity rotation answers in `rotationResults`, and the body it leaves
   * recorded (that of the rotation's last IP check) in `rotationBodies`.
   * `fetches` and `rotations` count how many of each it has made. A request past
   * the end of the script fails without a response; a rotation past the end
   * fails and leaves no body.
   */
  class Fetcher {
    const isTor: bool
    const outcomes: seq<FetchOutcome>
    const rotationResults: seq<bool>
    const rotationBodies: seq<Option<string>>
    var lastResponseContent: Option<string>
    var fetches: nat
    var rotations: nat

    constructor (isTor: bool, outcomes: seq<FetchOutcome>, rotationResults: seq<bool>, rotationBodies: seq<Option<string>>)
      ensures this.isTor == isTor && this.outcomes == outcomes && this.rotationResults == rotationResults
      ensures this.rotationBodies == rotationBodies
      ensures lastResponseContent == None && fetches == 0 && rotations == 0
    {
      this.isTor := isTor;
      this.outcomes := outcomes;
      this.rotationResults := rotationResults;
      this.rotationBodies := rotationBodies;
      lastResponseContent := None;
      fetches := 0;
      rotations := 0;
    }

    /** `get(url)`: clear the recorded body, make the request, record and return what it yields. */
    method Get(url: string) returns (resp: Option<Response>)
      modifies this
      ensures var d := Deliver(At(outcomes, old(fetches), RaisedWithoutResponse), isTor);
        resp == d.response && lastResponseContent == d.content
      ensures fetches == old(fetches) + 1 && rotations == old(rotations)
    {
      lastResponseContent := None;
      var outcome := At(outcomes, fetches, RaisedWithoutResponse);
      fetches := fetches + 1;
      var d := Deliver(outcome, isTor);
      lastResponseContent := d.content;
      resp := d.response;
    }

    /**
     * `change_tor_identity()`: the direct fetcher answers True and changes
     * nothing; the Tor fetcher answers with its next scripted rotation result
     * and is left holding the body of that rotation's last IP check.
     */
    method ChangeTorIdentity() returns (ok: bool)
      modifies this
      ensures !isTor ==> ok && unchanged(this)
      ensures isTor ==> ok == At(rotationResults, old(rotations), false) && rotations == old(rotations) + 1
      ensures isTor ==> fetches == old(fetches)
      ensures isTor ==> lastResponseContent == At(rotationBodies, old(rotations), None)
    {
      if !isTor {
        return true;
      }
      ok := At(rotationResults, rotations, false);
      lastResponseContent := At(rotationBodies, rotations, None);
      rotations := rotations + 1;
    }
  }

  /** The texts whose presence (in any letter case) marks a page as a block or CAPTCHA page. */
  const BlockIndicators: seq<string> := ["captcha", "access denied", "blocked", "unable to process request"]

  /** The last body is a non-empty string containing a block indicator, case-insensitively. */
  predicate LooksBlocked(content: Option<string>) {
    content.Some? && content.value != "" &&
    var low := Lower(content.value);
    Contains(low, "captcha") || Contains(low, "access denied") ||
    Contains(low, "blocked") || Contains(low, "unable to process request")
  }

  /** A body is blocked exactly when some indicator occurs in it in some letter case. */
  lemma LooksBlockedIff(body: string)
    ensures LooksBlocked(Some(body)) <==>
      exists k, i :: 0 <= k < |BlockIndicators| && OccursAt(Lower(body), BlockIndicators[k], i)
  {
    var low := Lower(body);
    if LooksBlocked(Some(body)) {
      if Contains(low, "captcha") {
        var i :| OccursAt(low, "captcha", i);
        assert OccursAt(low, BlockIndicators[0], i);
      } else if Contains(low, "access denied") {
        var i :| OccursAt(low, "access denied", i);
        assert OccursAt(low, BlockIndicators[1], i);
      } else if Contains(low, "blocked") {
        var i :| OccursAt(low, "blocked", i);
        assert OccursAt(low, BlockIndicators[2], i);
      } else {
        var i :| OccursAt(low, "unable to process request", i);
        assert OccursAt(low, BlockIndicators[3], i);
      }
    }
    if exists k, i :: 0 <= k < |BlockIndicators| && OccursAt(low, BlockIndicators[k], i) {
      var k, i :| 0 <= k < |BlockIndicators| && OccursAt(low, BlockIndicators[k], i);
      assert body != "";
      assert OccursAt(low, "captcha", i) || OccursAt(low, "access denied", i) ||
        OccursAt(low, "blocked", i) || OccursAt(low, "unable to process request", i);
    }
  }

  /** An indicator written in any mix of upper and lower case marks the body as blocked. */
  lemma IndicatorInAnyCase(body: string, k: nat, i: nat)
    requires k < |BlockIndicators| && i + |BlockIndicators[k]| <= |body|
    requires Lower(body[i..i + |BlockIndicators[k]|]) == BlockIndicators[k]
    ensures LooksBlocked(Some(body))
  {
    LowerSlice(body, i, i + |BlockIndicators[k]|);
    assert OccursAt(Lower(body), BlockIndicators[k], i);
    LooksBlockedIff(body);
  }

  /** The back-off before a retry, in seconds: longer through Tor, to let the new circuit settle. */
  function RetryPause(isTor: bool): (seconds: int)
    ensures seconds > 0
  {
    if isTor then 7 else 3
  }

  /** The back-offs taken in a scrape of `fetches` fetches: one before every fetch but the first. */
  function Backoffs(isTor: bool, fetches: nat): (pauses: seq<int>)
    ensures |pauses| == (if fetches == 0 then 0 else fetches - 1)
  {
    if fetches <= 1 then [] else Backoffs(isTor, fetches - 1) + [RetryPause(isTor)]
  }

  /** A fetch after a retry adds one back-off; the first fetch, or none, adds nothing. */
  lemma BackoffsStep(isTor: bool, before: nat, fetches: nat)
    requires before <= fetches <= before + 1
    ensures Backoffs(isTor, fetches) ==
      Backoffs(isTor, before) + (if before > 0 && fetches > before then [RetryPause(isTor)] else [])
  {
  }

  /** Every back-off is RetryPause seconds: 7 through Tor, 3 otherwise. */
  lemma {:induction false} BackoffsAreRetryPauses(isTor: bool, fetches: nat, i: nat)
    requires i + 1 < fetches
    ensures Backoffs(isTor, fetches)[i] == (if isTor then 7 else 3)
  {
    if i + 2 < fetches {
      BackoffsAreRetryPauses(isTor, fetches - 1, i);
    }
  }

  /** Why the attempts for a term stopped. */
  datatype StopReason =
    | Found           // an attempt yielded listings
    | BlockedDirect   // the direct fetcher saw a block page
    | RotationFailed  // the Tor fetcher could not rotate its identity before a retry
    | Exhausted       // every attempt came back empty

  /** The course of one scrape: the listings, the number of fetches and of rotations, and why it stopped. */
  datatype Run = Run(products: seq<Product>, fetches: nat, rotations: nat, stop: StopReason)

  /** What one attempt shows the retry loop: the listings extracted and whether the body looks blocked. */
  datatype Observation = Observation(listings: seq<Product>, blocked: bool)

  /** What a request that raised without a response shows: no listings, no body. */
  const NoObservation := Observation([], false)

  /** What the retry loop observes from one request outcome, with `parse` as the HTML parser. */
  function Observe(outcome: FetchOutcome, isTor: bool, parse: string -> Document): (o: Observation)
    ensures outcome.RaisedWithoutResponse? ==> o == NoObservation
  {
    var d := Deliver(outcome, isTor);
    Observation(PageProducts(d.response, parse), LooksBlocked(d.content))
  }

  /** The observations of a whole script of request outcomes, attempt by attempt. */
  function Observations(outcomes: seq<FetchOutcome>, isTor: bool, parse: string -> Document): (obs: seq<Observation>)
    ensures |obs| == |outcomes|
  {
    if outcomes == [] then [] else [Observe(outcomes[0], isTor, parse)] + Observations(outcomes[1..], isTor, parse)
  }

  /**
   * Attempt `k` observes what the script delivers at `k`; past the end of
   * the script, the request raises and nothing is observed.
   */
  lemma {:induction false} ObservationsAt(outcomes: seq<FetchOutcome>, isTor: bool, parse: string -> Document, k: nat)
    ensures At(Observations(outcomes, isTor, parse), k, NoObservation) ==
            Observe(At(outcomes, k, RaisedWithoutResponse), isTor, parse)
    decreases outcomes
  {
    if outcomes != [] && k > 0 {
      ObservationsAt(outcomes[1..], isTor, parse, k - 1);
    }
  }

  /** The listings of attempt `k`. */
  function Listings(obs: seq<Observation>, k: nat): seq<Product> {
    At(obs, k, NoObservation).listings
  }

  /** Whether the body of attempt `k` looks blocked. */
  function Blocked(obs: seq<Observation>, k: nat): bool {
    At(obs, k, NoObservation).blocked
  }

  /** Rotations made before attempt `a` starts: one before each retry, by the Tor fetcher only. */
  function RotationsBefore(a: nat, isTor: bool): nat {
    if isTor && a > 0 then a - 1 else 0
  }

  /**
   * The scrape from attempt `a` on, attempts numbered 0 to `retries`, given
   * what each attempt observes and what each rotation returns.
   */
  function RunFrom(a: nat, retries: int, isTor: bool, obs: seq<Observation>, rotations: seq<bool>): Run
    decreases retries - a
  {
    if a > retries then Run([], a, RotationsBefore(a, isTor), Exhausted)
    else if a > 0 && isTor && !At(rotations, a - 1, false) then Run([], a, a, RotationFailed)
    else if Listings(obs, a) != [] then Run(Listings(obs, a), a + 1, RotationsBefore(a + 1, isTor), Found)
    else if Blocked(obs, a) && !isTor then Run([], a + 1, 0, BlockedDirect)
    else if a == retries then Run([], a + 1, RotationsBefore(a + 1, isTor), Exhausted)
    else RunFrom(a + 1, retries, isTor, obs, rotations)
  }

  /** Attempt `a` neither stops the scrape nor is the last one. */
  predicate Continues(a: nat, retries: int, isTor: bool, obs: seq<Observation>, rotations: seq<bool>) {
    a < retries && !(a > 0 && isTor && !At(rotations, a - 1, false)) &&
    Listings(obs, a) == [] && !(Blocked(obs, a) && !isTor)
  }

  /** At most `retries + 1` fetches in all, and at least the `a` made before attempt `a`. */
  lemma {:induction false} RunFetchBounds(a: nat, retries: int, isTor: bool, obs: seq<Observation>, rotations: seq<bool>)
    requires a <= retries + 1
    ensures var r := RunFrom(a, retries, isTor, obs, rotations);
      a <= r.fetches <= (if retries < 0 then 0 else retries + 1)
    decreases retries - a
  {
    if Continues(a, retries, isTor, obs, rotations) {
      RunFetchBounds(a + 1, retries, isTor, obs, rotations);
    }
  }

  /**
   * Listings come back exactly when some attempt found listings; they are the
   * last attempt's, and every earlier attempt from `a` on found none.
   */
  lemma {:induction false} RunProducts(a: nat, retries: int, isTor: bool, obs: seq<Observation>, rotations: seq<bool>)
    ensures var r := RunFrom(a, retries, isTor, obs, rotations);
      && (r.products != [] <==> r.stop == Found)
      && (r.stop == Found ==> r.fetches >= 1 && r.products == Listings(obs, r.fetches - 1))
      && (forall k :: a <= k < r.fetches && (r.stop != Found || k < r.fetches - 1) ==> Listings(obs, k) == [])
    decreases retries - a
  {
    if Continues(a, retries, isTor, obs, rotations) {
      RunProducts(a + 1, retries, isTor, obs, rotations);
    }
  }

  /**
   * The direct fetcher never rotates; the Tor fetcher rotates once before every
   * retry, so once fewer than it fetches, or as often when the last rotation failed.
   */
  lemma {:induction false} RunRotations(a: nat, retries: int, isTor: bool, obs: seq<Observation>, rotations: seq<bool>)
    requires a <= retries + 1
    ensures var r := RunFrom(a, retries, isTor, obs, rotations);
      && (!isTor ==> r.rotations == 0)
      && (isTor && retries >= 0 ==> r.rotations == if r.stop == RotationFailed then r.fetches else r.fetches - 1)
    decreases retries - a
  {
    if Continues(a, retries, isTor, obs, rotations) {
      RunRotations(a + 1, retries, isTor, obs, rotations);
    }
  }

  /**
   * Each stop reason holds of the last attempt: a block page seen by the
   * direct fetcher (and none before it), a failed rotation by the Tor fetcher,
   * or every attempt used up.
   */
  lemma {:induction false} RunStops(a: nat, retries: int, isTor: bool, obs: seq<Observation>, rotations: seq<bool>)
    requires a <= retries + 1
    ensures var r := RunFrom(a, retries, isTor, obs, rotations);
      && (r.stop == BlockedDirect ==> !isTor && r.fetches >= 1 && Blocked(obs, r.fetches - 1))
      && (!isTor ==> forall k :: a <= k < r.fetches - 1 ==> !Blocked(obs, k))
      && (r.stop == RotationFailed ==> isTor && r.fetches >= 1 && !At(rotations, r.fetches - 1, false))
      && (r.stop == Exhausted && retries >= 0 ==> r.fetches == retries + 1)
    decreases retries - a
  {
    if Continues(a, retries, isTor, obs, rotations) {
      RunStops(a + 1, retries, isTor, obs, rotations);
    }
  }

  /** With a direct fetcher, a first page that is empty and looks blocked ends the scrape after one fetch. */
  lemma DirectFetcherStopsOnBlock(retries: int, obs: seq<Observation>, rotations: seq<bool>)
    requires retries >= 0
    requires Listings(obs, 0) == [] && Blocked(obs, 0)
    ensures var r := RunFrom(0, retries, false, obs, rotations);
      r.fetches == 1 && r.products == [] && r.stop == BlockedDirect
  {
  }

  /**
   * With a Tor fetcher whose rotation before the first retry fails, the scrape
   * ends after exactly one fetch: the failed rotation comes before the second.
   */
  lemma TorRotationFailureOnFirstRetry(retries: int, obs: seq<Observation>, rotations: seq<bool>)
    requires retries >= 1
    requires Listings(obs, 0) == [] && !At(rotations, 0, false)
    ensures var r := RunFrom(0, retries, true, obs, rotations);
      r.fetches == 1 && r.rotations == 1 && r.products == [] && r.stop == RotationFailed
  {
  }

  /** The Tor fetcher never gives up on a block page: a blocked empty attempt that is not the last is retried. */
  lemma TorRetriesBlockedPage(a: nat, retries: int, obs: seq<Observation>, rotations: seq<bool>)
    requires a < retries && (a == 0 || At(rotations, a - 1, false))
    requires Listings(obs, a) == [] && Blocked(obs, a)
    ensures RunFrom(a, retries, true, obs, rotations) == RunFrom(a + 1, retries, true, obs, rotations)
  {
  }

  /** The per-term record the scraper returns (and writes to a file when it has listings). */
  datatype ScrapeResult = ScrapeResult(searchTermInput: string, timestamp: string, productCount: int,
                                       products: seq<Product>)

  /**
   * The file-name prefix for a term: the term with every character that is not
   * alphanumeric replaced by '_'.
   */
  function FilenamePrefix(term: string): (r: string)
    ensures |r| == |term|
    ensures forall i :: 0 <= i < |r| ==> IsAlnum(r[i]) || r[i] == '_'
    ensures forall i :: 0 <= i < |term| && IsAlnum(term[i]) ==> r[i] == term[i]
    ensures forall i :: 0 <= i < |term| && !IsAlnum(term[i]) ==> r[i] == '_'
  {
    seq(|term|, i requires 0 <= i < |term| => if IsAlnum(term[i]) then term[i] else '_')
  }

  /** Sanitizing a prefix again changes nothing. */
  lemma FilenamePrefixIdempotent(term: string)
    ensures FilenamePrefix(FilenamePrefix(term)) == FilenamePrefix(term)
  {
  }

  /** `out/<prefix>_<timestamp>.json`. */
  function OutputFileName(term: string, timestamp: string): (name: string)
    ensures |name| == |term| + |timestamp| + 10
    ensures StartsWith(name, "out/") && name[|name| - 5..] == ".json"
  {
    "out/" + FilenamePrefix(term) + "_" + timestamp + ".json"
  }

  /** The scraper for one search term. */
  class BingShopScraper {
    const searchTerm: string
    const fetcher: Fetcher
    const pageRetryAttempts: int
    const parse: string -> Document
    const isUsingTorFetcher: bool
    /** What each attempt's fetch and extraction will show, attempt by attempt. */
    ghost const observations: seq<Observation>

    /** The term is stripped; `parse` stands for the HTML parser. */
    constructor (searchTerm: string, fetcher: Fetcher, parse: string -> Document, pageRetryAttempts: int := 3)
      ensures this.searchTerm == Strip(searchTerm) && this.fetcher == fetcher
      ensures this.pageRetryAttempts == pageRetryAttempts && this.parse == parse
      ensures isUsingTorFetcher == fetcher.isTor
      ensures observations == Observations(fetcher.outcomes, fetcher.isTor, parse)
      ensures Valid()
    {
      this.searchTerm := Strip(searchTerm);
      this.fetcher := fetcher;
      this.pageRetryAttempts := pageRetryAttempts;
      this.parse := parse;
      this.isUsingTorFetcher := fetcher.isTor;
      this.observations := Observations(fetcher.outcomes, fetcher.isTor, parse);
      new;
      forall k: nat
        ensures At(observations, k, NoObservation) ==
          Observe(At(fetcher.outcomes, k, RaisedWithoutResponse), fetcher.isTor, parse)
      {
        ObservationsAt(fetcher.outcomes, fetcher.isTor, parse, k);
      }
    }

    /**
     * The scraper's view of its fetcher's kind agrees with the fetcher, and
     * attempt `k` observes what the fetcher's script delivers at `k`.
     */
    ghost predicate Valid() {
      && isUsingTorFetcher == fetcher.isTor
      && forall k: nat {:trigger Observe(At(fetcher.outcomes, k, RaisedWithoutResponse), fetcher.isTor, parse)} ::
           At(observations, k, NoObservation) ==
           Observe(At(fetcher.outcomes, k, RaisedWithoutResponse), fetcher.isTor, parse)
    }

    /** `build_url()`. */
    function BuildUrl(): (url: string)
      ensures StartsWith(url, ShopUrlBase + "?q=") && url[|url| - |QueryTail|..] == QueryTail
    {
      ShopUrl(searchTerm)
    }

    /** Rotate the identity when the fetcher is a Tor fetcher; otherwise succeed without doing anything. */
    method AttemptIpChangeIfTor() returns (ok: bool)
      requires Valid()
      modifies fetcher
      ensures !isUsingTorFetcher ==> ok && unchanged(fetcher)
      ensures isUsingTorFetcher ==> ok == At(fetcher.rotationResults, old(fetcher.rotations), false)
      ensures isUsingTorFetcher ==> fetcher.rotations == old(fetcher.rotations) + 1
      ensures isUsingTorFetcher ==> fetcher.fetches == old(fetcher.fetches)
      ensures isUsingTorFetcher ==> fetcher.lastResponseContent == At(fetcher.rotationBodies, old(fetcher.rotations), None)
    {
      if !isUsingTorFetcher {
        return true;
      }
      ok := fetcher.ChangeTorIdentity();
    }

    /** `extract_product_info_from_page()`: one fetch of the query URL and the extraction of its listings. */
    method ExtractProductInfoFromPage() returns (products: seq<Product>)
      requires Valid()
      modifies fetcher
      ensures Observation(products, LooksBlocked(fetcher.lastResponseContent)) ==
        At(observations, old(fetcher.fetches), NoObservation)
      ensures var d := Deliver(At(fetcher.outcomes, old(fetcher.fetches), RaisedWithoutResponse), fetcher.isTor);
        fetcher.lastResponseContent == d.content && products == PageProducts(d.response, parse)
      ensures fetcher.fetches == old(fetcher.fetches) + 1 && fetcher.rotations == old(fetcher.rotations)
    {
      var targetUrl := BuildUrl();
      var response := fetcher.Get(targetUrl);
      products := ExtractFromResponse(response, parse);
      assert Observation(products, LooksBlocked(fetcher.lastResponseContent)) ==
        Observe(At(fetcher.outcomes, old(fetcher.fetches), RaisedWithoutResponse), fetcher.isTor, parse);
    }

    /**
     * One pass of `scrape()`'s retry loop: before a retry, rotate the identity
     * through Tor (giving up when that fails) and back off; then fetch and
     * extract. Either the scrape stops here with the listings, fetches and
     * rotations of RunFrom(attempt, ...), or nothing was found and the next
     * attempt continues the same course. The back-off taken is returned.
     */
    method Attempt(attempt: nat) returns (pageData: seq<Product>, stop: bool, ghost pause: seq<int>)
      requires Valid() && attempt <= pageRetryAttempts
      requires fetcher.fetches == attempt && fetcher.rotations == RotationsBefore(attempt, fetcher.isTor)
      modifies fetcher
      ensures var run := RunFrom(attempt, pageRetryAttempts, fetcher.isTor,
                                 observations, fetcher.rotationResults);
        if stop then
          run.products == pageData && run.fetches == fetcher.fetches && run.rotations == fetcher.rotations
        else
          (pageData == [] && attempt < pageRetryAttempts && fetcher.fetches == attempt + 1
           && fetcher.rotations == RotationsBefore(attempt + 1, fetcher.isTor)
           && RunFrom(attempt + 1, pageRetryAttempts, fetcher.isTor,
                      observations, fetcher.rotationResults) == run)
      ensures attempt <= fetcher.fetches <= attempt + 1
      ensures pause == (if attempt > 0 && fetcher.fetches > attempt then [RetryPause(fetcher.isTor)] else [])
    {
      ghost var isTor := fetcher.isTor;
      pause := [];
      if attempt > 0 {
        if isUsingTorFetcher {
          var changed := AttemptIpChangeIfTor();
          if !changed {
            return [], true, [];
          }
        }
        pause := [RetryPause(isUsingTorFetcher)];
      }
      pageData := ExtractProductInfoFromPage();
      var lastContent := fetcher.lastResponseContent;
      assert At(observations, attempt, NoObservation) == Observation(pageData, LooksBlocked(lastContent));
      if pageData != [] {
        return pageData, true, pause;
      }
      if LooksBlocked(lastContent) {
        if !isUsingTorFetcher {
          return [], true, pause;
        }
      }
      stop := attempt == pageRetryAttempts;
    }

    /**
     * `scrape()`: the retry loop. The result's listings, the fetches and the
     * rotations are those of RunFrom(0, ...) over the fetcher's scripts; a
     * back-off of RetryPause seconds precedes every fetch but the first; the
     * count equals the number of listings, and the result is saved exactly
     * when there are listings.
     */
    method Scrape(timestamp: string) returns (result: ScrapeResult, savedAs: Option<string>, ghost sleeps: seq<int>)
      requires Valid() && fetcher.fetches == 0 && fetcher.rotations == 0
      modifies fetcher
      ensures var run := RunFrom(0, pageRetryAttempts, fetcher.isTor,
                                 observations, fetcher.rotationResults);
        && result == ScrapeResult(searchTerm, timestamp, |run.products|, run.products)
        && savedAs == (if run.products != [] then Some(OutputFileName(searchTerm, timestamp)) else None)
        && fetcher.fetches == run.fetches && fetcher.rotations == run.rotations
        && sleeps == Backoffs(fetcher.isTor, run.fetches)
      ensures result.productCount == |result.products|
    {
      ghost var isTor := fetcher.isTor;
      ghost var run := RunFrom(0, pageRetryAttempts, isTor, observations, fetcher.rotationResults);
      var allProducts: seq<Product> := [];
      sleeps := [];
      var attempt := 0;
      while attempt <= pageRetryAttempts
        invariant attempt == 0 || attempt <= pageRetryAttempts
        invariant RunFrom(attempt, pageRetryAttempts, isTor, observations, fetcher.rotationResults) == run
        invariant allProducts == []
        invariant fetcher.fetches == attempt && fetcher.rotations == RotationsBefore(attempt, isTor)
        invariant sleeps == Backoffs(isTor, attempt)
        decreases pageRetryAttempts - attempt
      {
        var pageData, stop, pause := Attempt(attempt);
        BackoffsStep(isTor, attempt, fetcher.fetches);
        sleeps := sleeps + pause;
        if stop {
          allProducts := allProducts + pageData;
          break;
        }
        attempt := attempt + 1;
      }
      var filename := OutputFileName(searchTerm, timestamp);
      result := ScrapeResult(searchTerm, timestamp, |allProducts|, allProducts);
      if allProducts != [] {
        savedAs := Some(filename);
      } else {
        savedAs := None;
      }
    }
  }
}
