/**
 * The checker object. Its fields are those of the source's struct, with
 * the WaitGroup as an integer counter, the result channel as the sequence
 * of results sent so far plus a closed flag, and the goroutines not yet
 * started as a worklist. Every method is proved to change the state exactly
 * as the functions of module CrawlSpec say.
 */
module Checker {
  import opened LinkRules
  import opened CrawlSpec

  /** The functional options accepted by `New`. */
  datatype Opt = WithJSONOutput | WithVerboseOutput

  class LinkChecker {
    var Domain: string
    var CheckedLinks: seq<string>
    var CheckCurrent: int
    var CheckLimit: int
    var Workers: int
    var pending: seq<string>
    var stream: seq<Result>
    var closed: bool
    var jsonMode: bool
    var verboseMode: bool

    /** Between units of work, the counter counts exactly the scheduled units. */
    ghost predicate Valid()
      reads this
    {
      Workers == |pending|
    }

    /** The state as a snapshot. */
    ghost function State(): Session
      reads this
    {
      Session(Domain, CheckedLinks, CheckCurrent, CheckLimit, verboseMode, Workers, pending, stream, closed)
    }

    /** `New`: an empty ledger, no fetches yet, a limit of 4, and each option applied in turn. */
    constructor (options: seq<Opt>)
      ensures Valid() && Consistent(State())
      ensures Domain == "" && CheckedLinks == [] && CheckCurrent == 0 && CheckLimit == DefaultCheckLimit
      ensures Workers == 0 && pending == [] && stream == [] && !closed
      ensures jsonMode == (WithJSONOutput in options)
      ensures verboseMode == (WithVerboseOutput in options)
    {
      var json, verbose := false, false;
      for i := 0 to |options|
        invariant json == (WithJSONOutput in options[..i])
        invariant verbose == (WithVerboseOutput in options[..i])
      {
        assert options[..i + 1] == options[..i] + [options[i]];
        match options[i]
        case WithJSONOutput => json := true;
        case WithVerboseOutput => verbose := true;
      }
      assert options[..|options|] == options;
      Domain := "";
      CheckedLinks := [];
      CheckCurrent := 0;
      CheckLimit := DefaultCheckLimit;
      Workers := 0;
      pending := [];
      stream := [];
      closed := false;
      jsonMode := json;
      verboseMode := verbose;
    }

    /** `isChecked`: a linear search of the ledger. */
    method IsChecked(url: string) returns (found: bool)
      ensures found <==> url in CheckedLinks
    {
      var i := 0;
      while i < |CheckedLinks|
        invariant 0 <= i <= |CheckedLinks|
        invariant url !in CheckedLinks[..i]
      {
        if CheckedLinks[i] == url {
          return true;
        }
        assert CheckedLinks[..i + 1] == CheckedLinks[..i] + [CheckedLinks[i]];
        i := i + 1;
      }
      assert CheckedLinks[..i] == CheckedLinks;
      return false;
    }

    /**
     * `CheckLinks`: one unit of work, which must already be counted. The
     * deferred `Done` is the decrement on each way out; on the full path it
     * comes after the children are counted, so the counter cannot reach zero
     * while work is still scheduled.
     */
    method CheckLinks(link: string, web: Web) returns (err: Option<CrawlError>)
      requires Workers > 0
      modifies this
      ensures (State(), err) == Step(old(State()), link, web)
      ensures jsonMode == old(jsonMode)
    {
      var c := CanonicaliseLink(Domain, link);
      if web.parse(c).None? {
        Workers := Workers - 1;
        return None;
      }
      if CheckCurrent >= CheckLimit {
        Workers := Workers - 1;
        return None;
      }
      var seen := IsChecked(c);
      if seen {
        Workers := Workers - 1;
        return None;
      }
      err := Visit(c, web);
    }

    /** A unit past its guards: claim, fetch, and what follows a fetch. */
    method Visit(c: string, web: Web) returns (err: Option<CrawlError>)
      requires Workers > 0
      modifies this
      ensures (State(), err) == CrawlSpec.Visit(old(State()), c, web)
      ensures jsonMode == old(jsonMode)
    {
      CheckedLinks := CheckedLinks + [c];
      var status := web.status(c);
      if status.None? {
        Workers := Workers - 1;
        return Some(FetchError(c));
      }
      err := Report(c, status.value, web);
    }

    /** Send the result if it is to be shown, record the link again, and expand an internal page. */
    method Report(c: string, code: int, web: Web) returns (err: Option<CrawlError>)
      requires Workers > 0
      modifies this
      ensures (State(), err) == CrawlSpec.Report(old(State()), c, code, web)
      ensures jsonMode == old(jsonMode)
    {
      var result := Result(MapHTTPToLink(code), code, c);
      if verboseMode || result.linkStatus != OK {
        stream := stream + [result];
      }
      CheckedLinks := CheckedLinks + [c];
      if IsExternal(Domain, c) {
        Workers := Workers - 1;
        return None;
      }
      var grabbed := web.pageLinks(c);
      if grabbed.None? {
        Workers := Workers - 1;
        return Some(GrabError(c));
      }
      var pageLinks := grabbed.value;
      for i := 0 to |pageLinks|
        invariant pending == old(pending) + pageLinks[..i]
        invariant Workers == old(Workers) + i
        invariant CheckedLinks == old(CheckedLinks) + [c]
        invariant stream == old(stream) + (if verboseMode || result.linkStatus != OK then [result] else [])
        invariant Domain == old(Domain) && CheckCurrent == old(CheckCurrent) && CheckLimit == old(CheckLimit)
        invariant verboseMode == old(verboseMode) && closed == old(closed) && jsonMode == old(jsonMode)
      {
        Workers := Workers + 1;
        pending := pending + [pageLinks[i]];
      }
      assert pageLinks[..|pageLinks|] == pageLinks;
      CheckCurrent := CheckCurrent + 1;
      Workers := Workers - 1;
      return None;
    }

    /**
     * `Check`: parse the seed and take its host as the domain, count the
     * seed, run it, and leave the scheduled units and the waiter to `Wait`.
     * The stream must still be open: a second crawl on one checker would
     * send on, or close, a closed channel.
     */
    method Check(link: string, web: Web) returns (err: Option<CrawlError>)
      requires Valid() && !closed
      modifies this
      ensures Valid()
      ensures (State(), err) == Crawl(old(State()), link, web)
      ensures jsonMode == old(jsonMode)
    {
      var parsed := web.parse(link);
      if parsed.None? {
        return Some(ParseError(link));
      }
      Domain := parsed.value;
      Workers := Workers + 1;
      err := CheckLinks(link, web);
      Wait(web);
    }

    /**
     * The scheduled units, run one at a time in the order they were
     * scheduled, and the waiter, which closes the stream once the counter is
     * back at zero. Each unit's error is dropped.
     */
    method Wait(web: Web)
      requires Valid()
      modifies this
      ensures Valid()
      ensures State() == Run(old(State()), web)
      ensures jsonMode == old(jsonMode)
    {
      ghost var start := State();
      while pending != []
        invariant Valid()
        invariant Run(State(), web) == Run(start, web)
        invariant jsonMode == old(jsonMode)
        decreases Budget(State()), |pending|
      {
        RunFirst(web);
      }
      closed := true;
    }

    /**
     * The first scheduled unit starts and runs to its end; its error is
     * dropped. What is left to run ends where the whole run would have.
     */
    method RunFirst(web: Web)
      requires Valid() && pending != []
      modifies this
      ensures Valid() && Run(State(), web) == Run(old(State()), web)
      ensures Budget(State()) < Budget(old(State())) ||
        (Budget(State()) == Budget(old(State())) && |pending| < |old(pending)|)
      ensures jsonMode == old(jsonMode)
    {
      ghost var before := State();
      var next := pending[0];
      pending := pending[1..];
      var _ := CheckLinks(next, web);
      RunAfterStep(before, next, State(), web);
    }
  }
}
