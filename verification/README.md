# Social-post window analysis: a Dafny model

This project models the core of a small Go service that reports a metric over a
live Server-Sent Events feed of social-media posts. The caller gives a time window
and a dimension ("likes", "comments", "favorites" or "retweets"). The service reads
the feed for that window and reports four things:

- the number of posts;
- the timestamp of the first post (reported as the "minimum");
- the timestamp of the last post (reported as the "maximum");
- the mean of the chosen counter.

The model is a pure pipeline: body lines → posts → statistics.

- `dimensions.dfy` (`Dimensions`): the four dimension tags and `IsValidDimension`.
- `sse_client.dfy` (`SseClient`): the `SocialPost` and `Post` records, `GetValue`,
  and the line protocol.
  - `ScanResponse` keeps only lines starting with exactly `data: ` and strips that
    prefix.
  - `ProcessDataLine` decodes the payload and emits one post per key of the decoded
    map.
  - `ReadStream` turns a failed request or connection into an empty sequence.

  Only the data-line rule of the Server-Sent Events format is modelled (WHATWG HTML
  Living Standard, section 9.2.6 "Interpreting an event stream"), reduced to an exact
  `"data: "` prefix. Each data line is decoded on its own: the standard joins
  consecutive `data:` lines into one event at a blank line, and the code
  (internal/sseclient/sse_client.go:89-94) does not.
- `aggregator.dfy` (`Aggregator`): `AnalysisResult` and `AggregateData`.
  - `Fold` is the loop as a recursive function.
  - `AggregateLoop` is the loop with mutable locals.
  - `Analyze` is the whole call: read the stream, then fold it.
  - Both versions are proved equal to an independent description: the count, the
    first and last timestamps, and `Sum` divided by the count.
- `pipeline.dfy` (`Pipeline`): theorems about the two stages together.
- `wrappers.dfy` (`Wrappers`): the `Option` type used for decoding results.

Abstractions:

- JSON decoding is a parameter `decode: string -> Option<map<string, SocialPost>>`.
  `None` stands for a decoding error.
- Go's map iteration order is random. `ProcessDataLine` therefore picks the next key
  with a nondeterministic choice. Its contract fixes only the multiset of the emitted
  posts: one post per key, no key twice, exactly `|m|` posts.
- The whole scan is described by the ghost predicate `ScanOutput`. It states that the
  posts are the per-line outputs (`chunks`) concatenated in line order.
- The HTTP connection is a `Connection` value: `RequestFailed`, `ConnectFailed`, or
  `Opened(body)`. Here `body` holds the lines the scanner produced before one of
  three things happened: the body ended, the far end closed, or the deadline fired.
  When the read stops in the middle of a line, the scanner still returns the received
  fragment as a last line, so `body` may end in a truncated line. `ScanPrefix` states
  what a cut at a line boundary keeps.
- Integers are unbounded, and the mean is an exact `real` quotient.

A data line with several keys emits its posts in Go's map iteration order
(internal/sseclient/sse_client.go:109), which is random. The model follows this, so
only the count and the mean are order-independent (`CountAndMeanIndependentOfKeyOrder`).
When every line holds a single key, the whole result is determined
(`SingleKeyScanDeterministic`).

## Model

| member | source | states |
|---|---|---|
| Dimensions.IsValidDimension | internal/types/dimensions.go:16-22 | true exactly for members of the four-tag set; every valid tag is a non-empty lower-case word, so comparison is exact and case-sensitive |
| Dimensions.DimensionsDistinct | internal/types/dimensions.go:8-13 | the four constants are pairwise distinct, so the valid set has exactly four elements |
| Dimensions.UpperCaseInvalid | internal/types/dimensions.go:17-21 | any tag containing an upper-case ASCII letter (e.g. "Likes") is rejected |
| Dimensions.ValidityExamples | internal/handler/handler_test.go:35-38 | the four constants are valid; "invalid", "Likes" and "" are not |
| SseClient.GetValue | internal/sseclient/sse_client.go:35-48 | each constant selects its own counter; any tag outside the valid set yields 0 |
| SseClient.GetValueReadsOneCounter | internal/sseclient/sse_client.go:35-48 | for a valid tag the value depends only on the selected counter, not on the timestamp or other counters |
| SseClient.HasPrefix | internal/sseclient/sse_client.go:91 | prefix test holds iff the prefix fits and matches the line character by character |
| SseClient.TrimPrefix | internal/sseclient/sse_client.go:92 | with the prefix present, prefix + result is the original line (exactly one prefix removed); otherwise the line is unchanged |
| SseClient.NonDataLines | internal/sseclient/sse_client.go:91 | blank lines, "data:" without the space, and lines not starting with 'd' are not data lines |
| SseClient.ProcessDataLine | internal/sseclient/sse_client.go:104-112 | a payload that fails to decode emits nothing; otherwise one post per key with that key's payload, no key twice, exactly as many posts as keys, order unspecified |
| SseClient.ScanResponse | internal/sseclient/sse_client.go:87-101 | the output is the in-order concatenation of per-line outputs (non-data lines yield nothing, data lines yield ProcessDataLine's output for the stripped payload); its length is the body's DecodedCount |
| SseClient.ReadStream | internal/sseclient/sse_client.go:62-84 | a request-construction or connection failure yields an empty post sequence; an opened body is scanned |
| SseClient.LineOutputCount | internal/sseclient/sse_client.go:104-112 | a line yields exactly as many posts as its decoded map has keys, or none |
| SseClient.ScanOutputCount | internal/sseclient/sse_client.go:87-101 | the number of posts a scan yields is fixed by the lines alone (DecodedCount), whatever the key order |
| SseClient.ScanPrefix | internal/sseclient/sse_client.go:87-100 | cutting the body at a line boundary, after its first k lines, yields a valid scan of those lines whose posts are a prefix of the full scan's posts |
| SseClient.ChunkPlacement | internal/sseclient/sse_client.go:89-94 | the posts of line i sit after all posts of earlier lines and before all posts of later lines |
| SseClient.ScanExamples | internal/sseclient/sse_client_test.go:131-152 | the body "data: {post…}" then a blank line yields exactly the one post; the body "invalid data" yields none |
| Aggregator.Fold | internal/aggregator/aggregator.go:55-62 | the loop state after consuming the posts has counted every post |
| Aggregator.FoldMeaning | internal/aggregator/aggregator.go:55-62 | the loop ends with count = length, minimum = first post's timestamp, maximum = last post's timestamp, total = Sum of the dimension |
| Aggregator.AggregateData | internal/aggregator/aggregator.go:50-72 | totalPosts is the number of posts; no posts gives all zeros; otherwise first/last timestamps (arrival order) and mean = Sum / count |
| Aggregator.AggregateLoop | internal/aggregator/aggregator.go:51-69 | the imperative loop over mutable locals computes the same result as AggregateData and its reference description |
| Aggregator.Analyze | internal/aggregator/aggregator.go:50-72 | a failed connection gives no posts and the all-zero result, never an error; otherwise the posts are a possible scan of the body, the result is AggregateData of those posts, and totalPosts is the number of decoded entries in the body |
| Aggregator.TypeLabelsIgnored | internal/aggregator/aggregator.go:55-62 | sequences that differ only in event-type labels aggregate identically |
| Aggregator.ZeroDimensionAverage | internal/aggregator/aggregator_test.go:34-50 | if the dimension is 0 in every post, the mean is 0 but posts are still counted and timestamps still set |
| Aggregator.InvalidDimensionAverage | internal/aggregator/aggregator.go:60-68 | a dimension outside the valid set gives mean 0 |
| Aggregator.Appending | internal/aggregator/aggregator.go:56-59 | appending posts never changes the minimum; the maximum becomes the last appended post's timestamp; counts add |
| Aggregator.ReorderingKeepsCountAndMean | internal/aggregator/aggregator.go:60-66 | any reordering of the same posts gives the same count and mean |
| Aggregator.AggregateExamples | internal/aggregator/aggregator_test.go:24-95 | the four test cases: no posts gives zeros; likes 10 gives mean 10 for likes and 0 for comments; comments 5 then 10 gives mean 7.5 with first/last timestamps |
| Pipeline.EnumerationsPermute | internal/sseclient/sse_client.go:109-111 | two emission orders of the same decoded map hold the same multiset of posts |
| Pipeline.SingleKeyEnumerationUnique | internal/sseclient/sse_client.go:109-111 | a map with at most one key has only one emission order |
| Pipeline.ScansPermute | internal/sseclient/sse_client.go:87-112 | two possible scans of the same body hold the same multiset of posts |
| Pipeline.CountAndMeanIndependentOfKeyOrder | internal/aggregator/aggregator.go:55-66 | any two possible scans of a body aggregate to the same count (the body's DecodedCount) and the same mean |
| Pipeline.SingleKeyScanDeterministic | internal/sseclient/sse_client.go:104-112 | when every data line holds at most one entry, the scan output and the whole result, timestamps included, are determined by the body |
| Pipeline.IgnoredLineChangesNothing | internal/sseclient/sse_client.go:104-108 | a non-data or undecodable line between others changes neither the posts nor their count |

## Left out

- Goroutines, channels, `context.WithTimeout` and the deadline timer. The stream is
  the finite sequence of lines that arrived. Timing, blocking and closing the channel
  exactly once are concurrency matters. `ScanPrefix` covers the effect of stopping
  early at a line boundary.
- HTTP plumbing: building the request, `http.DefaultClient.Do`, and closing the
  response body. Only their failure is modelled, as `Connection.RequestFailed` and
  `Connection.ConnectFailed`.
- The handler, the server and the main program. They handle query parsing, HTTP
  status codes and one-route dispatch.
- JSON decoding, including `omitempty` and zero defaults. It is a foreign library, so
  the model takes it as the `decode` parameter. Absent counters are assumed to decode
  as 0.
- `bufio.Scanner` line splitting, `\r` handling and its token-size limit. A scanner
  error ends the body like end of input, and its `log.Printf` message is not
  modelled.
- The `SSEClient` and `Aggregator` constructors (`New`) and the `resultChan` send.
  These only store a URL or client, or deliver the value.
- SseClient.ScanPrefix: covers only a cut at a line boundary. When the deadline or
  the far end stops the read mid-line, the scanner passes the received fragment on
  as a final line, which may still decode and emit posts. That case is expressed
  only as a `body` ending in the fragment, not by this lemma.
- Aggregator.AggregateData: computes the mean as an exact `real`, not with `float64`
  rounding.
- Aggregator.AggregateLoop: does not model Go's 64-bit wrap-around of `totalValue`,
  the counters or the `int64` timestamps, because integers are unbounded here. This
  assumes no sum overflows.
