# value-scraper core, modelled in Dafny

This project models the sequential logic of the value-scraper Go service. It
covers three parts:

- **Page extraction** (`ScrapeData`, scraper.go). One visit of a URL fills a
  `ScrapedData` record. The `title` callback overwrites the title and the
  `meta[name=description]` callback overwrites the description. A per-element
  callback collects text from the content elements. Each text is trimmed and
  kept only if it is non-empty, not seen before, free of `"iframe"`, and not
  matched by the "JSON-like" regular expression `\{.*\}|\[.*\]`. A kept text
  goes into the `uniqueText` set. It is appended to the `allText` builder only
  if it is not already a substring of it. The harvested text is then handed to
  a summariser.
- **Snapshot protocol** (`FetchCompanyInfo` and `FetchSnapshotStatus`,
  main.go), plus the top-result loop of `main`. A trigger request returns a
  snapshot id. The status of that id is polled recursively while it says
  `"running"`, with a wait before every poll. Once the poll succeeds, the
  snapshot array is fetched from the same URL.
- **Summarisation** (`ScrapedDataAI.Summarize`, ai.go). A `CompanyInfo` is
  formatted as prompt text and sent as a two-message chat request. The first
  choice of the reply becomes the receiver's `Summary`.

Layout: `wrappers.dfy` (Option, Result, Go's `error`), `strings.dfy`
(`strings.TrimSpace`, `strings.Contains`), `jsonpattern.dfy` (the regular
expression), `scraper.dfy`, `fetcher.dfy` (main.go) and `summarizer.dfy`
(ai.go).

How outside systems are represented:

- **HTML library.** The page is given as the sequence of texts each callback
  receives, in visit order. Colly runs the callbacks in registration order, so
  all titles come first, then all descriptions, then the content fragments.
- **HTTP and JSON.** A `Network` object stands for the HTTP client. It logs
  every request attempt, counts `time.Sleep` calls, and answers from a script
  of replies. An attempt whose reply is a failure at request creation is
  logged and consumes a reply, although in the code `http.NewRequest` fails
  before anything is sent; request counts in the lemmas are counts of
  attempts. A reply is either a failure at request creation, sending or reading,
  or a body given as an already decoded JSON value. Decoding that value into
  the Go type the caller expects can still fail. For example, an array does
  not decode into a `SnapshotStatus`, just as with `encoding/json`. When the
  script runs out, a request fails with a send error.
- **Environment.** `BRIGHT_TOKEN` is an `Option<string>`. As with `os.Getenv`,
  an unset variable reads as `""`.
- **Chat endpoint.** It is a function from the request sent to the reply
  received, so the model can state which request is sent.

Notable behaviours of the code, modelled as written and stated by lemmas:

- `FetchSnapshotStatus` discards the result and the error of its nested call.
  Once its own request decodes as a status, it returns
  `{Status: "complete", SnapShotID: id}` whatever the service reported
  (`PollSuccessIsComplete`, `PollCount`). As a result, the
  `"No company information found."` exit of `FetchCompanyInfo` is never taken
  (`NoCompanyInfoUnreachable`).
- When the poll fails, `FetchCompanyInfo` wraps `err`, which is nil at that
  point, rather than `snapshotErr`. The message is therefore
  `"error getting snapshot status: <nil>"` (`FetchOnlyWhenComplete`).
- A snapshot that is already finished at the first poll answers with its
  array. That array does not decode as a status, so the whole call fails
  (`ReadyAtFirstPollFails`). When the job is still running at the first poll,
  the poll succeeds; the call then returns the records if the reply to the
  final fetch decodes as an array (`OneRecordScenario`).
- `allText` joins kept fragments with no separator. Each appended piece passes
  the filter on its own, but the joined text is not re-checked
  (`PiecesAdmissible`).

- The poll has no retry cap, no "not ready" error and no branch for a failed
  status (main.go:298-303). On a failed visit `ScrapeData` returns only the
  error, with no record (scraper.go:66-69).

## Model

| member | source | states |
|---|---|---|
| GoStrings.TrimSpaceTrims | scraper.go:50 | the trimmed text is the original with only white space removed from its two ends (it sits at the offset of the first non-space, framed by white space), neither starts nor ends with white space, and is empty exactly when the original is all white space |
| GoStrings.TrimSpaceUnique | scraper.go:50 | any text that is the original framed by white space and has no white space at either end is the trimmed text, so the properties above pin `TrimSpace` down |
| GoStrings.TrimSpaceIdempotent | scraper.go:50 | trimming an already trimmed text changes nothing |
| GoStrings.ContainsExtend | scraper.go:53-54 | appending to `allText` keeps every substring it already had |
| GoStrings.ContainsAppended | scraper.go:54 | a piece just written to the builder is a substring of it |
| JsonPattern.ScanPairCorrect | scraper.go:45 | the one-pass scan accepts exactly the strings with an opening bracket followed, on the same line, by its closing bracket (plus a pending opener when armed) |
| JsonPattern.MatchesJsonLikeMeaning | scraper.go:45 | `MatchString` of the JSON-like pattern holds iff a `{` is later followed by `}`, or a `[` by `]`, with no newline in between |
| JsonPattern.LiteralsLookLikeJson | scraper.go:45 | the texts `{"a":1}` and `[1,2,3]` match the pattern |
| JsonPattern.NewlineSeparatesBrackets | scraper.go:45 | the example text `"{\n}"` is not matched, because `.` does not match a newline (the general fact is `MatchesJsonLikeMeaning`) |
| Scraper.CollectStepInv | scraper.go:50-55 | one callback keeps the invariant: every member of `uniqueText` passed the filter and is a substring of `allText` |
| Scraper.CollectRunInv | scraper.go:48-56 | that invariant holds after any sequence of elements |
| Scraper.CollectRunGrows | scraper.go:51-55 | the set only grows, and the old `allText` is a prefix of the new one |
| Scraper.CollectRunSeen | scraper.go:50-52 | a text is in `uniqueText` after the fold iff it was there before, or it is the trimmed text of some visited element and passes all filter tests |
| Scraper.CollectRunText | scraper.go:53-55 | `allText` grows by exactly the appended pieces, in order, with no separator |
| Scraper.PiecesAdmissible | scraper.go:51-54 | each appended piece is non-empty, free of `iframe`, not JSON-like, and was not yet in the set |
| Scraper.PiecesDistinct | scraper.go:51-55 | no fragment is appended twice |
| Scraper.CollectStepAppends | scraper.go:51-55 | a new admissible text that is not yet a substring is added to the set and appended |
| Scraper.CollectStepStable | scraper.go:51 | an element whose trimmed text was already seen, or fails the filter, changes nothing |
| Scraper.CollectRunRepeat | scraper.go:51-52 | visiting the same elements a second time changes neither the set nor the text |
| Scraper.TwoFragments | scraper.go:48-56 | two admissible texts, the second not inside the first, give their concatenation; a repeat of the first adds nothing |
| Scraper.Scrape.constructor | scraper.go:23-28 | the record starts as `{URL: url}` with empty title, description and summary; the set and the builder start empty |
| Scraper.Scrape.OnTitle | scraper.go:31-33 | the title is overwritten by the element text and nothing else changes |
| Scraper.Scrape.OnDescription | scraper.go:35-37 | the description is overwritten by the `content` attribute and nothing else changes |
| Scraper.Scrape.OnContentElement | scraper.go:49-56 | the per-element callback: the new set and text are one fold step of the old ones; the invariant holds; set and text only grow |
| Scraper.Scrape.OnContentElements | scraper.go:48-58 | visiting the elements in order leaves the set and text equal to the fold over them |
| Scraper.ScrapeData | scraper.go:22-87 | a visit error is returned as is; a summariser error is returned; otherwise URL is the input, title and description are the last matches (or `""` when none), and the summary is the summariser's output on the fold of a fresh harvest over the fragments |
| Fetcher.TopSearch | main.go:86-93 | at most one payload; empty iff there are no results; otherwise its URL is the first result's link |
| Fetcher.SnapshotURL | main.go:260 | the URL is the fixed prefix, then the id, then `?format=json` |
| Fetcher.SnapshotURLInjective | main.go:209 | different snapshot ids give different URLs |
| Fetcher.Network.Sleep | main.go:257 | each wait is counted once |
| Fetcher.Network.Do | main.go:278-289 | a request is logged and gets the next scripted reply |
| Fetcher.FetchSnapshotStatus | main.go:256-305 | the returned status and error, the request log, the waits and the unread replies are those of the recursive poll over the script |
| Fetcher.PollWithoutToken | main.go:257-266 | without a token: one wait, no request, an error and an empty status |
| Fetcher.PollCount | main.go:257-303 | k "running" replies, then any other reply, take exactly k+1 requests and k+1 waits; with k > 0 the outcome is complete, with no error, whatever the last reply was |
| Fetcher.PollSuccessIsComplete | main.go:292-303 | the poll succeeds iff there is a token and its own reply decodes as a status; success always returns `{complete, id}` and failure an empty status |
| Fetcher.FetchOutcome | main.go:158-253 | every error exit returns an empty company list |
| Fetcher.FetchCompanyInfo | main.go:158-253 | the companies, error, request log, waits and unread replies are those of the trigger, poll and fetch sequence over the script |
| Fetcher.FetchUsesTriggerId | main.go:177-209 | the first request is the trigger POST with the payload; every later request is a GET of the snapshot URL of the id decoded from the trigger reply |
| Fetcher.FetchOnlyWhenComplete | main.go:195-251 | a trigger failure stops after one request; a poll failure gives the nil-wrapping error and no fetch; after a successful poll exactly one fetch follows, and the result is exactly the decoded array when it decodes |
| Fetcher.NoCompanyInfoUnreachable | main.go:207-251 | the "No company information found." error is never returned |
| Fetcher.OneRecordScenario | main.go:158-305 | a job running at the trigger and the first poll yields the one record of its snapshot, after two waits, with the trigger, two polls and the fetch |
| Fetcher.ReadyAtFirstPollFails | main.go:200-203 | a snapshot already finished at the first poll makes the whole call fail with no companies |
| Summarizer.ConcatMapSnoc | ai.go:64-66 | appending a product appends its entry, which is the order the `+=` loop builds |
| Summarizer.ProductListed | ai.go:62-67 | every product's `Product Name: …\nDescription: …\n` entry occurs in the prompt text |
| Summarizer.FormatWithoutProducts | ai.go:62-67 | with no products the text is the description line followed by the employee line |
| Summarizer.FormatText | ai.go:62-67 | the loop builds the description line, then one entry per product in order, then the employee line |
| Summarizer.ChatRequest | ai.go:71-83 | model `gpt-4o`; exactly two messages, both from `user`; the first is the fixed instruction and the second is the formatted text |
| Summarizer.ScrapedDataAI.Summarize | ai.go:60-119 | the request sent is built from the formatted text; with at least one choice, `Summary` becomes the first choice's content and is returned; on every error (send, decode, no choices) the prior `Summary` is kept and returned |

## Left out

- HTTP transport: `http.Client`, headers other than `Authorization`, the
  proxy and its `InsecureSkipVerify` setting, and `io.ReadAll`. These are
  foreign I/O. They appear only as scripted replies and failure stages.
- `GetSERPData` (main.go:111-155): a proxied HTTP call. Its result is the
  input of `TopSearch`.
- The orchestration and printing of `main` (main.go:56-109), including
  `godotenv` loading. This is configuration and I/O. The crash when
  `GetSERPData` fails and a nil result is ranged over (main.go:79-87) is not
  modelled, because `TopSearch` takes a value.
- `encoding/json`: bodies are already decoded values, and a failed decode is
  an abstract cause. `json.Marshal` of the trigger payload and of the chat
  request cannot fail for these types, so the model has no such exit. The
  final `json.Marshal` of the record in `ScrapeData` is not modelled: the
  method returns the record itself.
- `http.NewRequest` in ai.go (ai.go:91-94): its URL is a constant, so the
  request is always created. The `OPENAI_API_KEY` header is not modelled.
- Colly and CSS selector matching (scraper.go:26, 31, 35, 48-49, 61-63): the
  HTML library is not visible here. `OnError` only logs.
- The summariser call in `ScrapeData` (scraper.go:76-84) passes a string to
  `Summarize`, whose signature takes a `CompanyInfo` (ai.go:60). That call is
  modelled as an abstract summariser function from the harvested text to a
  summary or an error.
- Unbounded polling: every script is finite, so the model expresses only
  finite runs. When a job keeps answering `"running"`, `FetchSnapshotStatus`
  recurses without end (main.go:298-301); in the model the script runs out,
  the deepest poll gets a send failure, that error is discarded, and the poll
  reports `"complete"`. The source's endless polling on a stuck job is not
  represented.
- `time.Sleep`: only the number of waits is kept, not the 3-second duration.
- Logging (`log.Println`, `fmt.Println`).
- Go strings are byte sequences. The model treats them as sequences of code
  points, which assumes valid UTF-8. `TrimSpace` follows `unicode.IsSpace`.
- Response fields the code never reads (`Usage`, `Logprobs`, `Object`,
  `Created`, `SystemFingerprint`, `DisplayLink`, ranks) are dropped from the
  datatypes or carried unused.
