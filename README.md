# linkchecker, modelled in Dafny

`linkchecker` crawls a web site from a seed URL. Each unit of work follows these steps:

1. Canonicalise the raw href into an absolute URL.
2. Skip it if the fetch limit is reached or the URL is already in the ledger of checked links.
3. Record it in the ledger and fetch its HTTP status.
4. Classify the status as OK, Warning or Critical.
5. Send the result on a stream when the checker is verbose or the link is not OK.
6. For an internal link, read the page and schedule one new unit per href.

A WaitGroup counts the outstanding units. A waiter goroutine closes the stream when the count drops to zero.

The project has four modules:

- `LinkRules` (`link_rules.dfy`) holds the pure rules:
  - `MapHTTPToLink` classifies statuses;
  - `IsExternal` decides scope;
  - `CanonicaliseLink` canonicalises links.

  Each is a function whose contract pins down its result. Lemmas cover the fixed points, the lack of idempotence, settling after two rounds, and the examples the tests assert.
- `CrawlSpec` (`crawl.dfy`) describes the crawl, made sequential, on a snapshot `Session` of the checker:
  - `Step` is one unit of work.
  - `Run` drains the worklist of scheduled units one at a time and then closes the stream.
  - `Crawl` is the whole of `Check`.

  The goroutines become a worklist, the WaitGroup an integer, and the channel a sequence of sent results plus a closed flag. The URL parser, the status request and the page request followed by href extraction are collaborators the crawler cannot see into. They are fixed functions of a `Web` value passed in.
- `Checker` (`checker.dfy`) holds the class `LinkChecker`. Its fields are those of the source struct. Its methods update them step by step. Each method is proved to change the state exactly as the matching `CrawlSpec` function says, and `IsChecked` is a proved linear search.
- `CrawlScenarios` (`scenarios.dfy`) works out two crawls of a four-page site to their final state, in default and in verbose mode. They mirror the two streaming crawl tests. The seed page `links.html` links `whatever.html` and `you.html`, which are the two hrefs the link-extraction tests expect of it (linkchecker_test.go:57-98). The missing page `me.html` is linked from one of those two, and both choices are proved.

The model keeps the code's behaviour where it is surprising:

- Only exactly 200 is OK. Other 2xx statuses such as 201 or 204 are Critical (linkchecker.go:271-277).
- The fetch limit is tested before the ledger, so a link is never claimed once the limit is reached (linkchecker.go:141-149).
- Every link whose status comes back is appended to the ledger twice, before and after the status is known (linkchecker.go:150, 165). A link whose status request fails is appended once.
- A failed status request returns an error and sends nothing (linkchecker.go:151-154).
- A failed page request returns an error after the link's result was already sent (linkchecker.go:162-164, 169-172).
- Canonicalisation prepends without looking at what is already there. With domain `example.com`:
  - `http://example.com/x` becomes `https://example.com/http://example.com/x`;
  - `https://bogus.com/` becomes `example.com/https://bogus.com/`, which is neither absolute nor a fixed point, so canonicalisation is not idempotent (linkchecker.go:202-208).
- The scope test looks only at the start of the string, so `https://example.com.evil.com/x` is internal (linkchecker.go:195-197).
- A seed that does not parse returns before the counter is raised and before the waiter starts, so the stream is never closed.
- The errors of scheduled units are dropped. `Check` returns only the seed unit's error.

## Model

| member | source | states |
|---|---|---|
| `LinkRules.MapHTTPToLink` | linkchecker.go:270-279 | OK exactly for 200, Warning exactly for 500, Critical for every other integer |
| `LinkRules.MapHTTPToLinkExamples` | linkchecker_test.go:383-413 | 200 is OK, 404 Critical, 500 Warning; 201 and 0 are Critical |
| `LinkRules.HasPrefixIff` | linkchecker.go:195-196 | the prefix test holds exactly when prefix plus some rest is the whole string |
| `LinkRules.IsExternal` | linkchecker.go:194-198 | a link is internal iff it is `https://` + domain + something or `http://` + domain + something |
| `LinkRules.DomainPrefixedIsInternal` | linkchecker.go:194-198 | scheme + domain + any rest is internal, for both schemes |
| `LinkRules.IsExternalExamples` | linkchecker_test.go:262-282 | other hosts are external even when the query mentions the domain, for both schemes |
| `LinkRules.IsExternalBarExample` | linkchecker_test.go:272 | `https://bogus3.com/bar.html` is external to `example.com` |
| `LinkRules.IsInternalExamples` | linkchecker_test.go:284-303 | `https://example.com/foo.html`, `https://example.com/` and `http://example.com` are internal to `example.com` |
| `LinkRules.IsInternalBarExample` | linkchecker_test.go:294 | `https://example.com/bar.html` is internal to `example.com` |
| `LinkRules.LookalikeHostIsInternal` | linkchecker.go:194-198 | `https://example.com.evil.com/x` passes as internal to `example.com` (prefix, not host comparison) |
| `LinkRules.CanonicaliseLink` | linkchecker.go:200-209 | the result ends with the link; `https://` is put in front exactly when the link lacks it; `domain/` is put in front exactly when the link starts with neither the domain nor `https://` + domain; the length is that of the link plus whatever was put in front |
| `LinkRules.PrefixOfConcat` | linkchecker.go:205 | a string starting with `a + b` starts with `a` |
| `LinkRules.CanonicaliseUnchangedIff` | linkchecker.go:200-209 | a link is its own canonical form iff it starts with `https://` and with the domain or `https://` + domain |
| `LinkRules.CanonicaliseFixedPoint` | linkchecker.go:202-208 | a link starting with `https://` + domain is returned unchanged |
| `LinkRules.CanonicalisedSchemelessIsInternal` | linkchecker.go:200-209 | any link without `https://` canonicalises to `https://` + domain + ..., hence internal |
| `LinkRules.CanonicaliseForeignSecureSettles` | linkchecker.go:200-209 | an `https://` link to another host reaches a fixed point after two rounds |
| `LinkRules.CanonicaliseSettles` | linkchecker.go:200-209 | for every domain and link, canonicalising twice gives a fixed point |
| `LinkRules.CanonicaliseRelativeExample` | linkchecker_test.go:305-324 | `foo.html` becomes `https://example.com/foo.html` |
| `LinkRules.CanonicaliseBareDomainExample` | linkchecker_test.go:305-324 | `example.com/foo.html` becomes `https://example.com/foo.html` |
| `LinkRules.CanonicaliseFullLinkExample` | linkchecker_test.go:305-324 | `https://example.com/foo.html` is unchanged |
| `LinkRules.CanonicaliseEmptyDomainExample` | linkchecker_test.go:326-338 | with the empty domain of a fresh checker, `https://bogus.com/` is unchanged |
| `LinkRules.CanonicalisePlainSchemeExample` | linkchecker.go:202-208 | `http://example.com/x` becomes `https://example.com/http://example.com/x` |
| `LinkRules.CanonicaliseForeignSecureExample` | linkchecker.go:202-208 | with domain `example.com`, `https://bogus.com/` becomes `example.com/https://bogus.com/` |
| `LinkRules.CanonicaliseNotIdempotentExample` | linkchecker.go:200-209 | canonicalising `https://bogus.com/` a second time changes it again |
| `CrawlSpec.Step` | linkchecker.go:132-183 | one unit: it leaves domain, limit, mode and closed flag unchanged; it calls Done once, after one Add per scheduled child; the ledger and stream only grow; the fetch counter rises by at most one and never past the limit, and no work is scheduled unless it rises |
| `CrawlSpec.Visit` | linkchecker.go:150-154 | the claimed part of a unit keeps the same frame and counter balance as `Step` |
| `CrawlSpec.Report` | linkchecker.go:156-183 | the part after a status keeps the same frame and counter balance as `Step` |
| `CrawlSpec.StepBalances` | linkchecker.go:173-178 | with the running unit counted on top of the scheduled ones, the checker is idle again when it is done |
| `CrawlSpec.StepGuardsStop` | linkchecker.go:134-149 | an unparseable canonical link, a reached limit or a link already in the ledger leaves everything but one Done unchanged, with no error |
| `CrawlSpec.StepRecordsClaim` | linkchecker.go:146-165 | a claimed link is appended to the ledger once before its fetch, and again once its status is known |
| `CrawlSpec.StepSendsResult` | linkchecker.go:156-164 | a result is sent iff the link was claimed, its status came back, and the mode is verbose or the status is not OK; it carries the canonical link, the status and `MapHTTPToLink` of it |
| `CrawlSpec.StepExpands` | linkchecker.go:166-181 | the counter rises iff the link was claimed and fetched, is internal, and its page was read; then exactly its hrefs are scheduled, in page order |
| `CrawlSpec.StepNeverExpandsExternal` | linkchecker.go:166-168 | an external canonical link schedules nothing and leaves the counter alone |
| `CrawlSpec.GrabErrorAfterSend` | linkchecker.go:162-172 | when the page of a claimed, fetched, internal link cannot be read, the unit returns a page error, the result is still sent as usual, and nothing is scheduled |
| `CrawlSpec.StepErrors` | linkchecker.go:151-172 | the unit's error is a fetch error, a page error for an internal link, or none, exactly as the guards and oracles decide |
| `CrawlSpec.Run` | linkchecker.go:124-128 | draining the scheduled units ends idle, with counter 0 and the stream closed; the ledger and stream only grow; at most the remaining budget of pages is expanded |
| `CrawlSpec.RunUnfolds` | linkchecker.go:173-178 | running the first scheduled unit leaves the checker idle, with less budget or less work, and the rest of the run is unchanged |
| `CrawlSpec.RunAfterStep` | linkchecker.go:173-178 | after the first scheduled unit runs, the checker is idle again, the rest of the run ends where the whole run would, and the measure went down |
| `CrawlSpec.Crawl` | linkchecker.go:116-130 | an unparseable seed changes nothing and returns a parse error, leaving the stream open; otherwise the domain is the seed's host, the run ends idle and closed, and the error is the seed unit's own |
| `CrawlSpec.StepPreservesConsistent` | linkchecker.go:156-165 | every sent result carries the classification of its status, names a link in the ledger, is OK only in verbose mode, and no link is sent twice; one unit preserves this |
| `CrawlSpec.RunPreservesConsistent` | linkchecker.go:173-178 | draining the worklist preserves that consistency |
| `CrawlSpec.CrawlPreservesConsistent` | linkchecker.go:116-183 | a whole crawl from a consistent state leaves a consistent stream |
| `Checker.LinkChecker.constructor` | linkchecker.go:70-105 | `New`: empty ledger, counter 0, limit 4, empty stream; JSON and verbose mode are set exactly when their option was given |
| `Checker.LinkChecker.IsChecked` | linkchecker.go:185-192 | true iff the URL occurs in the ledger |
| `Checker.LinkChecker.CheckLinks` | linkchecker.go:132-183 | the new state and error are exactly `Step` of the old state |
| `Checker.LinkChecker.Visit` | linkchecker.go:150-154 | the new state and error are exactly `CrawlSpec.Visit` of the old state |
| `Checker.LinkChecker.Report` | linkchecker.go:156-183 | the new state and error are exactly `CrawlSpec.Report`; the loop schedules the page's hrefs in order, one Add each |
| `Checker.LinkChecker.Check` | linkchecker.go:116-130 | the new state and error are exactly `Crawl` of the old state, and the counter balances at the end |
| `Checker.LinkChecker.RunFirst` | linkchecker.go:175-177 | the first scheduled unit runs with its error dropped; the counter still counts the scheduled units, and the run from the new state is the run from the old one |
| `Checker.LinkChecker.Wait` | linkchecker.go:124-128 | the new state is exactly `Run` of the old, so the stream is closed with the counter at zero |
| `CrawlScenarios.DefaultModeReportsOnlyBrokenPage` | linkchecker_test.go:100-132 | whichever of the seed's two linked pages links `me.html`, a default crawl of the test site sends exactly the 404 result for `me.html`, closes the stream and returns no error |
| `CrawlScenarios.VerboseModeReportsEveryPage` | linkchecker_test.go:134-181 | whichever of the seed's two linked pages links `me.html`, a verbose crawl sends the four results (seed, `whatever.html`, `you.html`, `me.html`) in the order the units ran; it closes the stream and returns no error |
| `CrawlScenarios.LinkedPagesRun` | linkchecker.go:173-178 | after the seed, its two links run in page order, then `me.html`, which one of them scheduled; then the waiter closes the stream |

## Left out

- Goroutines, blocking in the WaitGroup and the 10-slot channel buffer are not modelled. Units run one at a time, first scheduled first, and a send never blocks.
- The unguarded shared reads and writes of the ledger and the fetch counter are a data race in the code. Under concurrency one link can be claimed twice and the limit overshot. The dedup and the distinct-results part of `Consistent` are proved only for the sequential schedule.
- `GetHTTPStatus`, `GrabLinksFromServer` with `GrabLinks`, and the 10-second client timeout are oracles. They are the `status` and `pageLinks` functions of `Web`. HTML parsing is not modelled.
- `url.Parse` is the `parse` oracle of `Web`. Its result is only the host, and only whether it succeeds matters for canonical links.
- The test site's `testdata` pages are not part of this model. Their hrefs are known only from the tests. `links.html` yields `whatever.html` and `you.html` (linkchecker_test.go:57-98). The crawl tests expect `me.html` to be reached, so one of those two pages links it, but which one is not known.
- DefaultModeReportsOnlyBrokenPage: the test site is modelled with `me.html` linked from `whatever.html` or from `you.html`, both proved, and with no other hrefs on `whatever.html`, `you.html` or `me.html`. Further hrefs on those pages are not covered.
- VerboseModeReportsEveryPage: it rests on the same model of the test site. It also proves the order of the results in the sequential schedule, where the tests compare them sorted by link.
- `Result.String`, `Result.ToJSON`, the colour codes, `debug` and the `Debug` field are output only. JSON mode is kept as a field but changes nothing in the crawl.
- `HTTPClient` is replaced by the `Web` oracles.
- `StreamResults` and `AllResults` only read the channel until it closes. In the model the stream is the sequence `stream` once `closed` holds.
- `format.go`, `cli.go`, `cmd/main.go` and `magefile.go` are output, command-line and build code, and are not part of this model.
- Only the two options the package provides, `WithJSONOutput` and `WithVerboseOutput` (linkchecker.go:93-105), are modelled. Both always succeed. A caller can pass any function of the `option` type (linkchecker.go:68), and one that fails makes `New` return `nil` and its error (linkchecker.go:84-88). That error path is left out, so `New` is the constructor with no error result.
- Checker.LinkChecker.Check requires an open stream. A second `Check` on one checker is left out. In the code it panics: the seed's result is sent on a closed channel (linkchecker.go:163), or the second waiter closes the channel again (linkchecker.go:127).
- Checker.LinkChecker.CheckLinks requires a counted unit (`Workers > 0`), as does `CrawlSpec.Step`. Every call inside the package meets this (linkchecker.go:124, 174). A direct outside call with nothing counted makes the deferred `Done` (linkchecker.go:134) panic on a negative WaitGroup counter, and that call is left out.
- In the code, `Check` returns while the units still run and the waiter closes the stream later. In the model, `Check` runs the whole crawl before returning, so the stream is complete and closed on return.
- Completion is not claimed: "every reachable page is reported" is false here. The fetch limit of 4 stops expansion, and links already in the ledger are skipped silently.
