/**
 * The crawl, made sequential. One unit of work is one call of the crawl
 * step on one raw link; the goroutines that run units side by side become a
 * worklist that is drained one unit at a time, the buffered result channel
 * becomes the sequence of results sent so far, and the WaitGroup becomes an
 * integer counter. The functions here describe what each unit and the whole
 * crawl do to a snapshot of the checker's state; the class in module
 * Checker is proved to do exactly that.
 */
module CrawlSpec {
  import opened LinkRules

  datatype Option<T> = None | Some(value: T)

  /** The fetch limit a new checker starts with. */
  const DefaultCheckLimit: int := 4

  /** Why a unit of work returned an error. */
  datatype CrawlError =
    | ParseError(link: string)  // the seed was rejected by the URL parser
    | FetchError(link: string)  // the status request failed
    | GrabError(link: string)   // the page request or its parse failed

  /**
   * The collaborators the crawl cannot see into, as fixed functions:
   * the URL parser (the host on success), the status request (None on a
   * transport failure) and the page request followed by href extraction
   * (the hrefs in document order, None on failure).
   */
  datatype Web = Web(
    parse: string -> Option<string>,
    status: string -> Option<int>,
    pageLinks: string -> Option<seq<string>>)

  /**
   * A snapshot of one checker: the domain, the ledger of checked links, the
   * fetch counter and its limit, verbose mode, the worker counter, the units
   * scheduled but not started, the results sent on the stream, and whether
   * the stream is closed.
   */
  datatype Session = Session(
    domain: string,
    checked: seq<string>,
    current: int,
    limit: int,
    verbose: bool,
    workers: int,
    pending: seq<string>,
    stream: seq<Result>,
    closed: bool)

  /** No unit is in progress: the worker counter counts exactly the scheduled units. */
  predicate Idle(s: Session) {
    s.workers == |s.pending|
  }

  /** How many more pages may be expanded before the limit is reached. */
  function Budget(s: Session): nat {
    if s.current < s.limit then s.limit - s.current else 0
  }

  /**
   * The unit for `link` gets past its three guards: its canonical form
   * parses, the limit is not reached, and it is not in the ledger yet.
   */
  predicate Claims(s: Session, link: string, web: Web) {
    var c := CanonicaliseLink(s.domain, link);
    web.parse(c).Some? && s.current < s.limit && c !in s.checked
  }

  /**
   * One unit of work on `link`, from its start to its deferred `Done`. The
   * unit must already be counted by the worker counter.
   */
  function Step(s: Session, link: string, web: Web): (r: (Session, Option<CrawlError>))
    requires s.workers > 0
    // the domain, the limit, the mode and the stream's state are never touched
    ensures r.0.domain == s.domain && r.0.limit == s.limit && r.0.verbose == s.verbose && r.0.closed == s.closed
    // exactly one Done, after one Add per scheduled child
    ensures s.pending <= r.0.pending && r.0.workers == s.workers - 1 + (|r.0.pending| - |s.pending|)
    // the ledger and the stream only grow
    ensures s.checked <= r.0.checked && s.stream <= r.0.stream
    // the fetch counter goes up by at most one, and never past the limit, and only with new work
    ensures r.0.current == s.current || (s.current < s.limit && r.0.current == s.current + 1)
    ensures r.0.current == s.current ==> r.0.pending == s.pending
  {
    var done := s.(workers := s.workers - 1);
    var c := CanonicaliseLink(s.domain, link);
    if web.parse(c).None? then (done, None)
    else if s.current >= s.limit then (done, None)
    else if c in s.checked then (done, None)
    else Visit(s, c, web)
  }

  /**
   * The rest of a unit that got past its guards: record `c` in the ledger,
   * fetch its status, send the result if it is to be shown, record `c`
   * again, and for an internal link read the page and schedule its links.
   */
  function Visit(s: Session, c: string, web: Web): (r: (Session, Option<CrawlError>))
    requires s.workers > 0
    ensures r.0.domain == s.domain && r.0.limit == s.limit && r.0.verbose == s.verbose && r.0.closed == s.closed
    ensures s.pending <= r.0.pending && r.0.workers == s.workers - 1 + (|r.0.pending| - |s.pending|)
    ensures s.checked <= r.0.checked && s.stream <= r.0.stream
    ensures r.0.current == s.current || r.0.current == s.current + 1
    ensures r.0.current == s.current ==> r.0.pending == s.pending
  {
    var claimed := s.(checked := s.checked + [c], workers := s.workers - 1);
    match web.status(c)
    case None => (claimed, Some(FetchError(c)))
    case Some(code) => Report(s.(checked := s.checked + [c]), c, code, web)
  }

  /** After a status came back: send, record again, and expand an internal page. */
  function Report(s: Session, c: string, code: int, web: Web): (r: (Session, Option<CrawlError>))
    requires s.workers > 0
    ensures r.0.domain == s.domain && r.0.limit == s.limit && r.0.verbose == s.verbose && r.0.closed == s.closed
    ensures s.pending <= r.0.pending && r.0.workers == s.workers - 1 + (|r.0.pending| - |s.pending|)
    ensures s.checked <= r.0.checked && s.stream <= r.0.stream
    ensures r.0.current == s.current || r.0.current == s.current + 1
    ensures r.0.current == s.current ==> r.0.pending == s.pending
  {
    var result := Result(MapHTTPToLink(code), code, c);
    var sent := if s.verbose || result.linkStatus != OK then s.stream + [result] else s.stream;
    var recorded := s.(stream := sent, checked := s.checked + [c], workers := s.workers - 1);
    if IsExternal(s.domain, c) then (recorded, None)
    else
      match web.pageLinks(c)
      case None => (recorded, Some(GrabError(c)))
      case Some(links) =>
        (recorded.(pending := s.pending + links,
                   workers := s.workers + |links| - 1,
                   current := s.current + 1), None)
  }

  /**
   * The counter balances: with the running unit counted on top of the
   * scheduled ones, the checker is idle again once the unit is done.
   */
  lemma StepBalances(s: Session, link: string, web: Web)
    requires s.workers == |s.pending| + 1
    ensures Idle(Step(s, link, web).0)
  {
  }

  /** A unit that fails a guard does nothing beyond its `Done`. */
  lemma StepGuardsStop(s: Session, link: string, web: Web)
    requires s.workers > 0 && !Claims(s, link, web)
    ensures Step(s, link, web) == (s.(workers := s.workers - 1), None)
  {
  }

  /**
   * A claimed link is in the ledger before its status is asked for, and is
   * recorded a second time once the status is known.
   */
  lemma StepRecordsClaim(s: Session, link: string, web: Web)
    requires s.workers > 0 && Claims(s, link, web)
    ensures var c := CanonicaliseLink(s.domain, link);
      Step(s, link, web).0.checked == s.checked + (if web.status(c).Some? then [c, c] else [c])
  {
  }

  /**
   * At most one result is sent, and exactly when the link was claimed, its
   * status came back, and the mode is verbose or the status is not OK; it
   * carries the canonical link, the status and its classification.
   */
  lemma StepSendsResult(s: Session, link: string, web: Web)
    requires s.workers > 0
    ensures var c := CanonicaliseLink(s.domain, link);
      var r := Step(s, link, web).0;
      (r.stream != s.stream <==>
         Claims(s, link, web) && web.status(c).Some? &&
         (s.verbose || MapHTTPToLink(web.status(c).value) != OK)) &&
      (r.stream != s.stream ==>
         r.stream == s.stream + [Result(MapHTTPToLink(web.status(c).value), web.status(c).value, c)])
  {
  }

  /**
   * A page is expanded, and the fetch counter bumped, exactly when its link
   * was claimed and fetched, is internal, and its links could be read;
   * every one of those links is then scheduled, in page order.
   */
  lemma StepExpands(s: Session, link: string, web: Web)
    requires s.workers > 0
    ensures var c := CanonicaliseLink(s.domain, link);
      var r := Step(s, link, web).0;
      (r.current != s.current <==>
         Claims(s, link, web) && web.status(c).Some? && !IsExternal(s.domain, c) && web.pageLinks(c).Some?) &&
      (r.current != s.current ==> r.pending == s.pending + web.pageLinks(c).value)
  {
  }

  /** External links are fetched but never expanded. */
  lemma StepNeverExpandsExternal(s: Session, link: string, web: Web)
    requires s.workers > 0 && IsExternal(s.domain, CanonicaliseLink(s.domain, link))
    ensures Step(s, link, web).0.current == s.current && Step(s, link, web).0.pending == s.pending
  {
  }

  /**
   * A page that cannot be read is reported after its result was sent: the
   * unit returns the page error, the result went out as for any fetched
   * link, and nothing is scheduled.
   */
  lemma GrabErrorAfterSend(s: Session, link: string, web: Web)
    requires s.workers > 0 && Claims(s, link, web)
    requires var c := CanonicaliseLink(s.domain, link);
      web.status(c).Some? && !IsExternal(s.domain, c) && web.pageLinks(c).None?
    ensures var c := CanonicaliseLink(s.domain, link);
      var result := Result(MapHTTPToLink(web.status(c).value), web.status(c).value, c);
      var r := Step(s, link, web);
      r.1 == Some(GrabError(c)) &&
      r.0.stream == (if s.verbose || result.linkStatus != OK then s.stream + [result] else s.stream) &&
      r.0.pending == s.pending && r.0.current == s.current
  {
  }

  /** The only errors: a failed status request, and a failed page request of an internal page. */
  lemma StepErrors(s: Session, link: string, web: Web)
    requires s.workers > 0
    ensures var c := CanonicaliseLink(s.domain, link);
      Step(s, link, web).1 ==
        (if !Claims(s, link, web) then None
         else if web.status(c).None? then Some(FetchError(c))
         else if !IsExternal(s.domain, c) && web.pageLinks(c).None? then Some(GrabError(c))
         else None)
  {
  }

  /**
   * Runs the scheduled units one at a time, first scheduled first, until
   * none is left; the waiter then finds the counter at zero and closes the
   * stream. The errors of these units are dropped, as the goroutines drop them.
   */
  function Run(s: Session, web: Web): (r: Session)
    requires Idle(s)
    ensures r.pending == [] && r.workers == 0 && r.closed
    ensures r.domain == s.domain && r.limit == s.limit && r.verbose == s.verbose
    ensures s.checked <= r.checked && s.stream <= r.stream
    // the limit bounds the number of expanded pages
    ensures s.current <= r.current <= s.current + Budget(s)
    decreases Budget(s), |s.pending|
  {
    if s.pending == [] then s.(closed := true)
    else
      var after := Step(s.(pending := s.pending[1..]), s.pending[0], web).0;
      Run(after, web)
  }

  /**
   * One round of `Run`: the first scheduled unit runs, then the rest; the
   * unit leaves the checker idle again, with less budget or less work.
   */
  lemma RunUnfolds(s: Session, web: Web)
    requires Idle(s) && s.pending != []
    ensures var n := Step(s.(pending := s.pending[1..]), s.pending[0], web).0;
      Idle(n) && Run(s, web) == Run(n, web) &&
      (Budget(n) < Budget(s) || (Budget(n) == Budget(s) && |n.pending| < |s.pending|))
  {
  }

  /**
   * What the waiting loop needs of one round: if `after` is what the first
   * scheduled unit leaves, the checker is idle again, the run from `after`
   * is the run from `before`, and the measure went down.
   */
  lemma RunAfterStep(before: Session, next: string, after: Session, web: Web)
    requires Idle(before) && before.pending != [] && next == before.pending[0]
    requires after == Step(before.(pending := before.pending[1..]), next, web).0
    ensures Idle(after) && Run(after, web) == Run(before, web)
    ensures Budget(after) < Budget(before) || (Budget(after) == Budget(before) && |after.pending| < |before.pending|)
  {
    RunUnfolds(before, web);
  }

  /**
   * `Check`: parse the seed, take its host as the domain, count the seed as
   * the first unit, run it, then let the scheduled units and the waiter run
   * to the end. Only the seed's own error is returned.
   */
  function Crawl(s: Session, seed: string, web: Web): (r: (Session, Option<CrawlError>))
    requires Idle(s)
    // a seed the parser rejects changes nothing; in particular the stream is never closed
    ensures web.parse(seed).None? ==> r == (s, Some(ParseError(seed)))
    ensures web.parse(seed).Some? ==>
      r.0.domain == web.parse(seed).value && r.0.closed && r.0.workers == 0 && r.0.pending == [] &&
      s.checked <= r.0.checked && s.stream <= r.0.stream
    ensures web.parse(seed).Some? ==>
      r.1 == Step(s.(domain := web.parse(seed).value, workers := s.workers + 1), seed, web).1
  {
    match web.parse(seed)
    case None => (s, Some(ParseError(seed)))
    case Some(host) =>
      var seeded := s.(domain := host, workers := s.workers + 1);
      var step := Step(seeded, seed, web);
      (Run(step.0, web), step.1)
  }

  /**
   * What the stream holds is what the source promises of it: every result
   * carries the classification of its own status, names a link in the
   * ledger, and is an OK result only in verbose mode; and no link is
   * reported twice (in this one-unit-at-a-time schedule).
   */
  ghost predicate Consistent(s: Session) {
    (forall i :: 0 <= i < |s.stream| ==>
       s.stream[i].linkStatus == MapHTTPToLink(s.stream[i].httpStatus) &&
       s.stream[i].link in s.checked &&
       (s.verbose || s.stream[i].linkStatus != OK)) &&
    (forall i, j :: 0 <= i < j < |s.stream| ==> s.stream[i].link != s.stream[j].link)
  }

  lemma StepPreservesConsistent(s: Session, link: string, web: Web)
    requires s.workers > 0 && Consistent(s)
    ensures Consistent(Step(s, link, web).0)
  {
    var r := Step(s, link, web).0;
    var c := CanonicaliseLink(s.domain, link);
    StepSendsResult(s, link, web);
    forall i | 0 <= i < |s.stream|
      ensures r.stream[i] == s.stream[i] && s.stream[i].link in r.checked
    {
      assert s.stream[i].link in s.checked;
    }
    if r.stream != s.stream {
      assert c !in s.checked;
      assert r.stream[|s.stream|].link == c;
    }
  }

  lemma {:induction false} RunPreservesConsistent(s: Session, web: Web)
    requires Idle(s) && Consistent(s)
    ensures Consistent(Run(s, web))
    decreases Budget(s), |s.pending|
  {
    if s.pending != [] {
      var popped := s.(pending := s.pending[1..]);
      StepPreservesConsistent(popped, s.pending[0], web);
      RunPreservesConsistent(Step(popped, s.pending[0], web).0, web);
    }
  }

  /** A whole crawl from a consistent snapshot leaves a consistent stream. */
  lemma CrawlPreservesConsistent(s: Session, seed: string, web: Web)
    requires Idle(s) && Consistent(s)
    ensures Consistent(Crawl(s, seed, web).0)
  {
    if web.parse(seed).Some? {
      var seeded := s.(domain := web.parse(seed).value, workers := s.workers + 1);
      StepPreservesConsistent(seeded, seed, web);
      RunPreservesConsistent(Step(seeded, seed, web).0, web);
    }
  }
}
