/**
 * The batch runner (`main.py`): it loads the search terms from the terms
 * file, cuts them into batches of five, scrapes every term of a batch with a
 * fresh fetcher, reports each result, and pauses ten seconds between batches.
 *
 * The terms file is given as its lines (`None` when it does not exist). What
 * the network answers for the term at each position of the list, and the
 * time stamp its scrape starts at, are scripted in a `TermWorld` per position.
 */
module Runner {
  import opened Wrappers
  import opened Text
  import opened Http
  import opened Extraction
  import opened Scraper

  /** The runner's configuration. */
  const UseTor := true
  const TorControlPassword: Option<string> := None
  const MaxConcurrentWorkers := 3
  const BatchSize := 5
  const TorSocksPort := 9050
  const TorControlPort := 9051
  /** The retry budget every term's scraper is given. */
  const PageRetryAttempts := 15

  /**
   * What a term's scrape is set up with: the fetcher kind (USE_TOR) and the
   * scraper's retry budget. The batch loop is stated for any settings; the
   * runner itself uses MainSettings.
   */
  datatype Settings = Settings(useTor: bool, pageRetryAttempts: nat)

  /** The settings of `main.py`: the Tor fetcher and 15 retries. */
  const MainSettings := Settings(UseTor, PageRetryAttempts)
  /** The pause between two batches, in seconds. */
  const BatchPause := 10

  /** Why the terms could not be loaded: `FileNotFoundError` or `ValueError`. */
  datatype LoadError = FileNotFound | EmptyFile

  /** The lines of the file, stripped, with the blank ones left out, in file order. */
  function NonBlankLines(lines: seq<string>): (terms: seq<string>)
    ensures |terms| <= |lines|
  {
    if lines == [] then []
    else
      var t := Strip(lines[0]);
      if t == "" then NonBlankLines(lines[1..]) else [t] + NonBlankLines(lines[1..])
  }

  /** Keeping the non-blank lines of two pieces of a file keeps each piece's, in order. */
  lemma {:induction false} NonBlankLinesAppend(a: seq<string>, b: seq<string>)
    ensures NonBlankLines(a + b) == NonBlankLines(a) + NonBlankLines(b)
  {
    if a != [] {
      assert (a + b)[1..] == a[1..] + b;
      NonBlankLinesAppend(a[1..], b);
    } else {
      assert a + b == b;
    }
  }

  /** A term is loaded exactly when it is the stripped form of some non-blank line. */
  lemma {:induction false} NonBlankLinesMembers(lines: seq<string>, t: string)
    ensures t in NonBlankLines(lines) <==> t != "" && exists i :: 0 <= i < |lines| && Strip(lines[i]) == t
  {
    if lines != [] {
      var rest := lines[1..];
      NonBlankLinesMembers(rest, t);
      if exists i :: 0 <= i < |lines| && Strip(lines[i]) == t {
        var i :| 0 <= i < |lines| && Strip(lines[i]) == t;
        if i > 0 {
          assert rest[i - 1] == lines[i];
        }
      }
      if exists j :: 0 <= j < |rest| && Strip(rest[j]) == t {
        var j :| 0 <= j < |rest| && Strip(rest[j]) == t;
        assert lines[j + 1] == rest[j];
      }
    }
  }

  /** No term is loaded exactly when every line is blank. */
  lemma {:induction false} NonBlankLinesEmpty(lines: seq<string>)
    ensures NonBlankLines(lines) == [] <==> forall i :: 0 <= i < |lines| ==> IsBlank(lines[i])
  {
    if lines != [] {
      NonBlankLinesEmpty(lines[1..]);
      if forall i :: 1 <= i < |lines| ==> IsBlank(lines[i]) {
        assert forall i :: 0 <= i < |lines[1..]| ==> IsBlank(lines[1..][i]);
      }
      if forall i :: 0 <= i < |lines[1..]| ==> IsBlank(lines[1..][i]) {
        assert forall i :: 1 <= i < |lines| ==> lines[1..][i - 1] == lines[i];
      }
    }
  }

  /**
   * `load_search_terms(file_path)`: a missing file raises FileNotFoundError,
   * a file with no non-blank line raises ValueError, and otherwise the
   * stripped non-blank lines come back in file order.
   */
  function LoadSearchTerms(file: Option<seq<string>>): (r: Result<seq<string>, LoadError>)
    ensures r == Err(FileNotFound) <==> file.None?
    ensures r == Err(EmptyFile) <==> file.Some? && forall i :: 0 <= i < |file.value| ==> IsBlank(file.value[i])
    ensures r.Ok? ==> r.value != [] && r.value == NonBlankLines(file.value)
  {
    if file.None? then Err(FileNotFound)
    else
      var terms := NonBlankLines(file.value);
      NonBlankLinesEmpty(file.value);
      if terms == [] then Err(EmptyFile) else Ok(terms)
  }

  /** `(total_terms + BATCH_SIZE - 1) // BATCH_SIZE`. */
  function TotalBatches(n: nat): nat {
    (n + BatchSize - 1) / BatchSize
  }

  /** The number of batches is the ceiling of n / 5: enough for every term, and none of them empty. */
  lemma TotalBatchesIsCeiling(n: nat)
    ensures var t := TotalBatches(n);
      && 5 * t >= n
      && (t > 0 ==> 5 * (t - 1) < n)
      && (t == 0 <==> n == 0)
  {
    var t := TotalBatches(n);
    assert t == (n + 4) / 5;
    assert 5 * t <= n + 4 < 5 * t + 5;
  }

  /** A numbered batch, its count, its terms, and whether the runner pauses after it. */
  datatype Batch = Batch(number: nat, total: nat, terms: seq<string>, pauseAfter: bool)

  /**
   * The batch starting at position `i`: `terms[i:i+5]`, numbered `i // 5 + 1`
   * of TotalBatches, followed by a pause when terms remain after it.
   */
  function BatchAt(terms: seq<string>, i: nat): Batch
    requires i < |terms|
  {
    var end := if i + BatchSize < |terms| then i + BatchSize else |terms|;
    Batch(i / BatchSize + 1, TotalBatches(|terms|), terms[i..end], i + BatchSize < |terms|)
  }

  /**
   * The `b`-th batch (from 0) holds one to five terms, is numbered b + 1 of
   * TotalBatches, and is followed by a pause exactly when it is not the last.
   */
  lemma BatchShape(terms: seq<string>, b: nat)
    requires b < TotalBatches(|terms|)
    ensures 5 * b < |terms|
    ensures var batch := BatchAt(terms, 5 * b);
      && batch.number == b + 1 && batch.total == TotalBatches(|terms|)
      && 1 <= |batch.terms| <= 5
      && (batch.pauseAfter <==> b + 1 < TotalBatches(|terms|))
  {
    TotalBatchesIsCeiling(|terms|);
    assert (5 * b) / 5 == b;
    TotalBatchesIsCeiling(|terms|);
    if 5 * b + 5 < |terms| {
      assert 5 * (b + 1) < |terms|;
    }
  }

  /** The terms of a list of batches, one batch after the other. */
  function Joined(batches: seq<Batch>): seq<string> {
    if batches == [] then [] else Joined(batches[..|batches| - 1]) + batches[|batches| - 1].terms
  }

  /** The batches are those of positions 0, 5, 10, ... and together they are the terms, in order. */
  predicate BatchedAsPlanned(terms: seq<string>, batches: seq<Batch>) {
    && |batches| == TotalBatches(|terms|)
    && (forall b :: 0 <= b < |batches| ==> 5 * b < |terms| && batches[b] == BatchAt(terms, 5 * b))
    && Joined(batches) == terms
  }

  /** Twelve terms make batches of 5, 5 and 2, with a pause after the first two only. */
  lemma TwelveTerms(terms: seq<string>, batches: seq<Batch>)
    requires |terms| == 12 && BatchedAsPlanned(terms, batches)
    ensures |batches| == 3
    ensures |batches[0].terms| == 5 && |batches[1].terms| == 5 && |batches[2].terms| == 2
    ensures batches[0].pauseAfter && batches[1].pauseAfter && !batches[2].pauseAfter
  {
    assert TotalBatches(12) == 3;
    assert batches[0] == BatchAt(terms, 0);
    assert batches[1] == BatchAt(terms, 5);
    assert batches[2] == BatchAt(terms, 10);
  }

  /** What the network answers for one term's scrape, and the time stamp it starts at. */
  datatype TermWorld = TermWorld(outcomes: seq<FetchOutcome>, rotationResults: seq<bool>,
                                 rotationBodies: seq<Option<string>>, timestamp: string)

  /** The scrape of a term with the given fetcher kind and retry budget. */
  function ScrapeRun(s: Settings, world: TermWorld, parse: string -> Document): Run {
    RunFrom(0, s.pageRetryAttempts, s.useTor, Observations(world.outcomes, s.useTor, parse), world.rotationResults)
  }

  /** The record a term's scrape returns. */
  function ScrapeResultOf(s: Settings, term: string, world: TermWorld, parse: string -> Document): ScrapeResult {
    var run := ScrapeRun(s, world, parse);
    ScrapeResult(Strip(term), world.timestamp, |run.products|, run.products)
  }

  /**
   * `process_search_term(term)`: a fresh fetcher of the configured kind (the
   * Tor fetcher when USE_TOR is set, the direct one otherwise) and a scraper
   * with the configured retries; its result is the scrape's. At least one
   * page is fetched, and at most one more than the retry budget.
   */
  method ProcessSearchTerm(s: Settings, term: string, world: TermWorld, parse: string -> Document)
    returns (result: ScrapeResult, fetches: nat)
    ensures result == ScrapeResultOf(s, term, world, parse)
    ensures fetches == ScrapeRun(s, world, parse).fetches
    ensures 1 <= fetches <= s.pageRetryAttempts + 1
  {
    var fetcher := new Fetcher(s.useTor, world.outcomes, world.rotationResults, world.rotationBodies);
    var scraper := new BingShopScraper(term, fetcher, parse, s.pageRetryAttempts);
    var savedAs: Option<string>;
    ghost var sleeps: seq<int>;
    result, savedAs, sleeps := scraper.Scrape(world.timestamp);
    fetches := fetcher.fetches;
    var obs := Observations(world.outcomes, s.useTor, parse);
    RunFetchBounds(1, s.pageRetryAttempts, s.useTor, obs, world.rotationResults);
  }

  /** With main.py's settings a term costs at least one and at most sixteen page fetches. */
  lemma MainSettingsFetches(world: TermWorld, parse: string -> Document)
    ensures 1 <= ScrapeRun(MainSettings, world, parse).fetches <= 16
  {
    RunFetchBounds(1, PageRetryAttempts, UseTor, Observations(world.outcomes, UseTor, parse), world.rotationResults);
  }

  /** How the runner reports a term's result. */
  datatype Report = ItemsFound(count: nat, savedTo: string) | NoItemsFound | NoItemsOrIssue

  /**
   * The report of a result: "Found n items. Saved to out/<prefix>_<timestamp>.json"
   * when it has listings, "No items found." when its count is 0, and
   * "No items found or issue occurred." otherwise.
   */
  function Classify(term: string, result: ScrapeResult): (r: Report)
    ensures r.ItemsFound? <==> result.products != []
    ensures r.ItemsFound? ==> r.count == |result.products|
    ensures r == NoItemsOrIssue ==> result.products == [] && result.productCount != 0
  {
    if result.products != [] then ItemsFound(|result.products|, OutputFileName(term, result.timestamp))
    else if result.productCount == 0 then NoItemsFound
    else NoItemsOrIssue
  }

  /**
   * A scrape's count is its number of listings, so the "issue" report never
   * comes up; and for a loaded term, which is a stripped line, the file named
   * in a "Found" report is the one the scraper saved the result to.
   */
  lemma ReportOfScrape(s: Settings, line: string, world: TermWorld, parse: string -> Document)
    ensures var term := Strip(line);
      var result := ScrapeResultOf(s, term, world, parse);
      && Classify(term, result) != NoItemsOrIssue
      && (Classify(term, result).ItemsFound? ==>
            (result.searchTermInput == term &&
             Classify(term, result).savedTo == OutputFileName(result.searchTermInput, result.timestamp)))
  {
    StripIdempotent(line);
  }

  /** The line reported for one term: the term and the report of its scrape. */
  datatype TermReport = TermReport(term: string, report: Report)

  /** The report for a term scraped in the given world. */
  function ReportOf(s: Settings, term: string, world: TermWorld, parse: string -> Document): TermReport {
    TermReport(term, Classify(term, ScrapeResultOf(s, term, world, parse)))
  }

  /** The report for the term at position `j`. */
  function ReportAt(s: Settings, terms: seq<string>, worlds: nat -> TermWorld, parse: string -> Document, j: nat): TermReport
    requires j < |terms|
  {
    ReportOf(s, terms[j], worlds(j), parse)
  }

  /** Every term is scraped once and reported once, in list order. */
  predicate ReportedAsScraped(s: Settings, terms: seq<string>, worlds: nat -> TermWorld, parse: string -> Document,
                              reports: seq<TermReport>) {
    && |reports| == |terms|
    && forall j {:trigger reports[j]} :: 0 <= j < |terms| ==> reports[j] == ReportAt(s, terms, worlds, parse, j)
  }

  /** The reports of all terms, in list order. */
  ghost function Plan(s: Settings, terms: seq<string>, worlds: nat -> TermWorld, parse: string -> Document): (plan: seq<TermReport>)
    ensures |plan| == |terms|
  {
    seq(|terms|, j requires 0 <= j < |terms| => ReportAt(s, terms, worlds, parse, j))
  }

  /** The plan reports every term once, in list order. */
  lemma PlanReportsEachTerm(s: Settings, terms: seq<string>, worlds: nat -> TermWorld, parse: string -> Document)
    ensures ReportedAsScraped(s, terms, worlds, parse, Plan(s, terms, worlds, parse))
  {
  }

  /** Reports that are those of the terms from position `i` on form a slice of the plan. */
  lemma PlanSlice(s: Settings, terms: seq<string>, worlds: nat -> TermWorld, parse: string -> Document,
                  i: nat, rs: seq<TermReport>)
    requires i + |rs| <= |terms|
    requires forall k {:trigger rs[k]} :: 0 <= k < |rs| ==> rs[k] == ReportAt(s, terms, worlds, parse, i + k)
    ensures rs == Plan(s, terms, worlds, parse)[i..i + |rs|]
  {
    var plan := Plan(s, terms, worlds, parse);
    forall k | 0 <= k < |rs|
      ensures rs[k] == plan[i..i + |rs|][k]
    {
      assert plan[i..i + |rs|][k] == plan[i + k];
    }
  }

  /**
   * One batch: each term is submitted once to the worker pool, and each
   * result is collected and reported. The pool's completion order is not
   * modelled: the reports follow the batch's order.
   */
  method ProcessBatch(s: Settings, batchTerms: seq<string>, worlds: nat -> TermWorld, offset: nat,
                      parse: string -> Document)
    returns (reports: seq<TermReport>)
    ensures |reports| == |batchTerms|
    ensures forall k {:trigger reports[k]} :: 0 <= k < |batchTerms| ==>
      reports[k] == ReportOf(s, batchTerms[k], worlds(offset + k), parse)
  {
    reports := [];
    var k := 0;
    while k < |batchTerms|
      invariant 0 <= k <= |batchTerms| && |reports| == k
      invariant forall j {:trigger reports[j]} :: 0 <= j < k ==> reports[j] == ReportOf(s, batchTerms[j], worlds(offset + j), parse)
    {
      var term := batchTerms[k];
      var result, fetches := ProcessSearchTerm(s, term, worlds(offset + k), parse);
      reports := reports + [TermReport(term, Classify(term, result))];
      k := k + 1;
    }
  }

  /** Adding the batch at position 5 * |batches| keeps the batches as planned, one batch further. */
  lemma {:induction false} PlanGrows(terms: seq<string>, batches: seq<Batch>)
    requires 5 * |batches| < |terms|
    requires forall b :: 0 <= b < |batches| ==> 5 * b < |terms| && batches[b] == BatchAt(terms, 5 * b)
    requires Joined(batches) == terms[..5 * |batches|]
    ensures var next := batches + [BatchAt(terms, 5 * |batches|)];
      && (forall b :: 0 <= b < |next| ==> 5 * b < |terms| && next[b] == BatchAt(terms, 5 * b))
      && Joined(next) == terms[..5 * |batches| + |BatchAt(terms, 5 * |batches|).terms|]
  {
    var i := 5 * |batches|;
    var batch := BatchAt(terms, i);
    var next := batches + [batch];
    assert next[..|next| - 1] == batches;
    assert Joined(next) == Joined(batches) + batch.terms;
    assert terms[..i + |batch.terms|] == terms[..i] + terms[i..i + |batch.terms|];
  }

  /**
   * One round of the batch loop: the batch at position `i`, and the reports
   * of its terms, which are those of positions i, i + 1, ... of the list.
   */
  method RunBatch(s: Settings, terms: seq<string>, worlds: nat -> TermWorld, parse: string -> Document, i: nat)
    returns (batch: Batch, reports: seq<TermReport>)
    requires i < |terms|
    ensures batch == BatchAt(terms, i)
    ensures |reports| == |batch.terms| && i + |reports| <= |terms|
    ensures forall k {:trigger reports[k]} :: 0 <= k < |reports| ==> reports[k] == ReportAt(s, terms, worlds, parse, i + k)
    ensures reports == Plan(s, terms, worlds, parse)[i..i + |reports|]
  {
    var total := |terms|;
    var end := if i + BatchSize < total then i + BatchSize else total;
    var batchTerms := terms[i..end];
    var currentBatchNum := i / BatchSize + 1;
    var totalBatches := (total + BatchSize - 1) / BatchSize;
    reports := ProcessBatch(s, batchTerms, worlds, i, parse);
    batch := Batch(currentBatchNum, totalBatches, batchTerms, i + BatchSize < total);
    assert forall k :: 0 <= k < |batchTerms| ==> batchTerms[k] == terms[i + k];
    PlanSlice(s, terms, worlds, parse, i, reports);
  }

  /**
   * The batches run so far, covering the first `n` terms: those of positions
   * 0, 5, 10, ..., and all of them once the positions pass the end of the list.
   */
  predicate BatchesUpTo(terms: seq<string>, batches: seq<Batch>, n: nat) {
    && n == (if 5 * |batches| < |terms| then 5 * |batches| else |terms|)
    && (5 * |batches| >= |terms| ==> |batches| == TotalBatches(|terms|))
    && (forall b :: 0 <= b < |batches| ==> 5 * b < |terms| && batches[b] == BatchAt(terms, 5 * b))
    && Joined(batches) == terms[..n]
  }

  /** Adding the batch at the next position keeps the batches as planned, one batch further. */
  lemma BatchesUpToGrows(terms: seq<string>, batches: seq<Batch>)
    requires 5 * |batches| < |terms| && BatchesUpTo(terms, batches, 5 * |batches|)
    ensures BatchesUpTo(terms, batches + [BatchAt(terms, 5 * |batches|)],
                        5 * |batches| + |BatchAt(terms, 5 * |batches|).terms|)
  {
    PlanGrows(terms, batches);
    TotalBatchesIsCeiling(|terms|);
  }

  /** A prefix of a sequence followed by the slice after it is the longer prefix. */
  lemma PrefixGrows<T>(whole: seq<T>, prefix: seq<T>, more: seq<T>)
    requires |prefix| + |more| <= |whole|
    requires prefix == whole[..|prefix|] && more == whole[|prefix|..|prefix| + |more|]
    ensures prefix + more == whole[..|prefix| + |more|]
  {
    assert whole[..|prefix| + |more|] == whole[..|prefix|] + whole[|prefix|..|prefix| + |more|];
  }

  /** One pass of the batch loop: run the batch at the next position and add it and its reports. */
  method RunNextBatch(s: Settings, terms: seq<string>, worlds: nat -> TermWorld, parse: string -> Document,
                      batches: seq<Batch>, reports: seq<TermReport>)
    returns (batches': seq<Batch>, reports': seq<TermReport>)
    requires 5 * |batches| < |terms| && BatchesUpTo(terms, batches, |reports|)
    requires reports == Plan(s, terms, worlds, parse)[..|reports|]
    ensures batches' == batches + [BatchAt(terms, 5 * |batches|)] && |reports'| > |reports|
    ensures BatchesUpTo(terms, batches', |reports'|)
    ensures reports' == Plan(s, terms, worlds, parse)[..|reports'|]
  {
    var batch, batchReports := RunBatch(s, terms, worlds, parse, 5 * |batches|);
    BatchesUpToGrows(terms, batches);
    PrefixGrows(Plan(s, terms, worlds, parse), reports, batchReports);
    batches' := batches + [batch];
    reports' := reports + batchReports;
  }

  /**
   * The batch loop of `main()`: for i = 0, 5, 10, ... take `terms[i:i+5]`,
   * scrape and report each of its terms, and pause after it unless it is the last.
   */
  method RunBatches(s: Settings, terms: seq<string>, worlds: nat -> TermWorld, parse: string -> Document)
    returns (batches: seq<Batch>, reports: seq<TermReport>)
    ensures BatchedAsPlanned(terms, batches)
    ensures ReportedAsScraped(s, terms, worlds, parse, reports)
  {
    var total := |terms|;
    batches := [];
    reports := [];
    var i := 0;
    while i < total
      invariant i == 5 * |batches|
      invariant BatchesUpTo(terms, batches, |reports|)
      invariant reports == Plan(s, terms, worlds, parse)[..|reports|]
      decreases total - i
    {
      batches, reports := RunNextBatch(s, terms, worlds, parse, batches, reports);
      i := i + BatchSize;
    }
    assert terms[..total] == terms;
    assert reports == Plan(s, terms, worlds, parse);
    PlanReportsEachTerm(s, terms, worlds, parse);
  }

  /** What `main()` ends with: the terms could not be loaded, or every batch was run. */
  datatype Outcome = LoadFailed(error: LoadError) | Processed(terms: seq<string>, batches: seq<Batch>, reports: seq<TermReport>)

  /**
   * `main()`: load the terms; on a load error report it and stop, otherwise
   * run the batches over the loaded terms.
   */
  method ScrapeAll(file: Option<seq<string>>, worlds: nat -> TermWorld, parse: string -> Document) returns (outcome: Outcome)
    ensures LoadSearchTerms(file).Err? <==> outcome.LoadFailed?
    ensures outcome.LoadFailed? ==> outcome.error == LoadSearchTerms(file).error
    ensures outcome.Processed? ==> && outcome.terms == LoadSearchTerms(file).value
                                   && BatchedAsPlanned(outcome.terms, outcome.batches)
                                   && ReportedAsScraped(MainSettings, outcome.terms, worlds, parse, outcome.reports)
  {
    var loaded := LoadSearchTerms(file);
    if loaded.Err? {
      return LoadFailed(loaded.error);
    }
    var batches, reports := RunBatches(MainSettings, loaded.value, worlds, parse);
    outcome := Processed(loaded.value, batches, reports);
  }
}
