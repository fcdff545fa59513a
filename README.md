# News app fetch-and-parse pipeline, modelled in Dafny

This project models the core of a single-screen news client that asks the
Guardian search API for stories and turns the JSON answer into `Story`
records:

- `Story` (Story.java): an immutable record of five strings. It is
  `StoryRecord.Story`, a datatype whose destructors are the getters.
- The response parser `QueryUtils.extractFeatureFromJson`. It walks
  `response` → `results` → each story and builds one record per story:
  - the four plain fields take the field's value, or `""` when the field is missing;
  - the author is `"N/A"` unless its guard chain passes. The guard tests
    whether the *story* has a `webTitle`, then reads the *first tag's* `webTitle`;
  - an org.json `JSONException` ends the walk. The stories built before it are
    still returned;
  - null or empty text gives no list (`None`, Java's `null`). Text that does
    not reach a `results` array gives an empty list.
- The HTTP decision of `makeHttpRequest`, the line reader `readFromStream`
  and their composition `fetchStoryData`. The body is the stream's lines
  joined with nothing in between, and only for status 200 with the stream
  fully read. A bad URL, a transport error, another status or a read error
  give `""`. A failing close of the stream escapes `makeHttpRequest` as an
  IOException (QueryUtils.java:122), which `fetchStoryData` catches. Either
  way the extractor then returns no list.
- `StoryAdapter.formatDate`: turns `yyyy-mm-ddThh:mm:ssZ` into
  `yyyy-mm-dd  hh:mm:ss`.

The org.json calls the parser makes are modelled in `JsonTree` over a JSON
tree, as Android's org.json behaves:
- `has` tests only whether the key is present, even when its value is JSON null.
- `optString` and `getString` turn a present non-string value into text;
  JSON null becomes `"null"`.
- `getString` raises only for a missing key.
- `isNull(i)` is true for an index out of range.

Turning text into a tree is not modelled. It is a parameter
`parse: string -> Option<Json>`. What the network did is also a parameter:
an `Exchange`, which is a malformed URL, a transport failure, or a status code
with the response stream.

A JSONException at element k of `results` keeps the stories of elements
0..k-1: the exception is caught after the loop (QueryUtils.java:207-212),
and `return stories` (QueryUtils.java:215) hands back the stories already
appended (`FailureKeepsEarlierStories`).

A story without `webPublicationDate` gets the date `""`, and `formatDate`
would then throw in `substring`, since it needs at least 19 characters
(`MissingDateCannotBeFormatted`).

## Model

| member | source | states |
|---|---|---|
| StoryRecord.GettersReturnArguments | app/src/main/java/pl/lukaszpelczar/p8_udacity_newsapp/Story.java:11-37 | each getter returns the argument at its own constructor position (date, title, section, url, author), stored unchanged, with no validation or defaulting |
| StoryRecord.StoryIsItsFields | app/src/main/java/pl/lukaszpelczar/p8_udacity_newsapp/Story.java:5-17 | in the model a story is a value made of its five fields: two stories are equal exactly when all five getters agree (Java reference identity is not modelled, see Left out) |
| JsonTree.Text | app/src/main/java/pl/lukaszpelczar/p8_udacity_newsapp/QueryUtils.java:177-183 | the string form org.json gives a present value: a string as it is, JSON null as "null", a boolean as "true" or "false", a number as its Java text |
| JsonTree.NewJsonObject | app/src/main/java/pl/lukaszpelczar/p8_udacity_newsapp/QueryUtils.java:165 | `new JSONObject(text)` succeeds exactly when the tokenizer yields an object, and returns that object |
| JsonTree.OptString | app/src/main/java/pl/lukaszpelczar/p8_udacity_newsapp/QueryUtils.java:177-183 | `optString` never raises: "" for an absent key, the string itself for a string value, and the value's string form (JSON null as "null") for any other present value |
| JsonTree.GetString | app/src/main/java/pl/lukaszpelczar/p8_udacity_newsapp/QueryUtils.java:195 | `getString` succeeds exactly when the key is present, with the value's string form; otherwise "No value" |
| JsonTree.GetJsonObject | app/src/main/java/pl/lukaszpelczar/p8_udacity_newsapp/QueryUtils.java:167 | `getJSONObject(name)` succeeds exactly when the value is present and an object, and returns it |
| JsonTree.GetJsonArray | app/src/main/java/pl/lukaszpelczar/p8_udacity_newsapp/QueryUtils.java:169 | `getJSONArray(name)` succeeds exactly when the value is present and an array, and returns it |
| JsonTree.GetJsonObjectAt | app/src/main/java/pl/lukaszpelczar/p8_udacity_newsapp/QueryUtils.java:175 | `getJSONObject(i)` succeeds exactly when i is in range and the element is an object; out of range raises an index error |
| QueryUtils.AuthorOf | app/src/main/java/pl/lukaszpelczar/p8_udacity_newsapp/QueryUtils.java:185-198 | the author path raises exactly when `tags` is present but not an array, or its first element is non-null and not an object, or that element has no `webTitle` while the story has one. Otherwise it is "N/A" when there is no `tags`, when the first tag is missing or null, or when the story has no `webTitle`, and else the first tag's `webTitle` |
| QueryUtils.StoryOf | app/src/main/java/pl/lukaszpelczar/p8_udacity_newsapp/QueryUtils.java:175-204 | one element builds a story exactly when it is an object whose author path does not raise. Date, title, section and url are the field's value or "" |
| QueryUtils.Recorded | app/src/main/java/pl/lukaszpelczar/p8_udacity_newsapp/QueryUtils.java:172-215 | the recorded stories are the longest prefix of `results` whose elements all build, story j from element j, stopping at the first element that raises |
| QueryUtils.ResultsOf | app/src/main/java/pl/lukaszpelczar/p8_udacity_newsapp/QueryUtils.java:165-169 | the `results` array is reached exactly when the document is an object whose `response` is an object whose `results` is an array |
| QueryUtils.StoriesFromJson | app/src/main/java/pl/lukaszpelczar/p8_udacity_newsapp/QueryUtils.java:150-154 | no list (null) exactly when the text is null or empty |
| QueryUtils.ReadStory | app/src/main/java/pl/lukaszpelczar/p8_udacity_newsapp/QueryUtils.java:175-204 | the loop body, run with its reassigned author and early exits on an exception, builds exactly StoryOf of the element |
| QueryUtils.ExtractFeatureFromJson | app/src/main/java/pl/lukaszpelczar/p8_udacity_newsapp/QueryUtils.java:150-216 | the indexed loop that appends stories and stops at an exception returns exactly StoriesFromJson of the text |
| QueryUtils.RecordedIsTheCleanPrefix | app/src/main/java/pl/lukaszpelczar/p8_udacity_newsapp/QueryUtils.java:172-215 | any list built in order from a prefix of `results` that ends at the first raising element or at the end is the recorded list |
| QueryUtils.UnusableDocumentGivesEmptyList | app/src/main/java/pl/lukaszpelczar/p8_udacity_newsapp/QueryUtils.java:157-215 | non-empty text that fails to parse, or lacks `response` or `results` of the right type, gives an empty list, not null |
| QueryUtils.CleanResultsGiveOneStoryEach | app/src/main/java/pl/lukaszpelczar/p8_udacity_newsapp/QueryUtils.java:172-205 | when no element raises, there are exactly `results.length` stories, in order, story i built from `results[i]` |
| QueryUtils.RecordedUpToFailure | app/src/main/java/pl/lukaszpelczar/p8_udacity_newsapp/QueryUtils.java:172-215 | with the first raising element at k, the recorded stories are those the first k elements give, k of them |
| QueryUtils.FailureKeepsEarlierStories | app/src/main/java/pl/lukaszpelczar/p8_udacity_newsapp/QueryUtils.java:172-215 | an error at element k yields exactly the stories of elements 0..k-1: earlier ones kept, later ones absent |
| QueryUtils.AuthorGuardAsymmetry | app/src/main/java/pl/lukaszpelczar/p8_udacity_newsapp/QueryUtils.java:187-196 | the guard checks the story's `webTitle` but reads the tag's. The byline, not the headline, becomes the author. Without a story headline the byline is ignored, and a tag with no byline raises. An empty or null first tag gives "N/A" |
| QueryUtils.SingleStoryDocument | app/src/main/java/pl/lukaszpelczar/p8_udacity_newsapp/QueryUtils.java:165-204 | a document holding one complete story gives one record with every field copied verbatim and the first tag's title as author |
| QueryUtils.ConcatAppend | app/src/main/java/pl/lukaszpelczar/p8_udacity_newsapp/QueryUtils.java:137-141 | joining lines adds nothing at the seams: the join of two runs is the concatenation of their joins |
| QueryUtils.ConcatLength | app/src/main/java/pl/lukaszpelczar/p8_udacity_newsapp/QueryUtils.java:137-143 | the body's length is the total length of the lines: no separator is inserted |
| QueryUtils.ConcatHasNoLineBreaks | app/src/main/java/pl/lukaszpelczar/p8_udacity_newsapp/QueryUtils.java:136-141 | lines from a line reader hold no line breaks, so the body has none either: the payload's newlines are dropped |
| QueryUtils.ReadFromStream | app/src/main/java/pl/lukaszpelczar/p8_udacity_newsapp/QueryUtils.java:132-144 | the while loop returns the lines appended in order with no separators, or raises when a read fails |
| QueryUtils.MakeHttpRequest | app/src/main/java/pl/lukaszpelczar/p8_udacity_newsapp/QueryUtils.java:87-126 | the body is the stream's text only for status exactly 200 with the stream fully read; it is "" for a bad URL, a transport error, another status or a read error; only a failing close escapes as an IOException |
| QueryUtils.FetchStoryData | app/src/main/java/pl/lukaszpelczar/p8_udacity_newsapp/QueryUtils.java:52-69 | a delivered body goes to the extractor as it is; any failure of the request (body "" or an escaped IOException) ends in no list |
| QueryUtils.DeliveredEmptyResultsGiveEmptyList | app/src/main/java/pl/lukaszpelczar/p8_udacity_newsapp/QueryUtils.java:106-108 | a 200 answer whose `results` array is empty gives an empty list, distinct from the null of a failed request |
| StoryAdapter.FormatDate | app/src/main/java/pl/lukaszpelczar/p8_udacity_newsapp/StoryAdapter.java:77-82 | for input of length at least 19, the output has length 20: characters 0-9 of the input, two spaces at positions 10 and 11, then input characters 11-18 |
| StoryAdapter.FormatDateKeepsOnlyDateAndTime | app/src/main/java/pl/lukaszpelczar/p8_udacity_newsapp/StoryAdapter.java:79-81 | two timestamps format alike exactly when they agree on characters 0-9 and 11-18: the `T` at index 10 and everything from index 19 on are dropped |
| StoryAdapter.FormatDateIgnoresSuffix | app/src/main/java/pl/lukaszpelczar/p8_udacity_newsapp/StoryAdapter.java:79-80 | the output depends only on the first 19 characters |
| StoryAdapter.MissingDateCannotBeFormatted | app/src/main/java/pl/lukaszpelczar/p8_udacity_newsapp/StoryAdapter.java:79-80 | a story element with no fields builds with date "", title, section and url "" and author "N/A"; that date is shorter than the 19 characters `formatDate`'s `substring` calls need |

## Left out

- The real HTTP exchange: the `HttpURLConnection`, its 10000 ms read and 15000 ms connect timeouts, the GET method, `connect`, and `disconnect` in `finally`. This is network I/O. An `Exchange` value says what happened instead.
- `java.net.URL` construction (`createUrl`): a call into the Java library. A malformed or null URL is the `MalformedUrl` outcome.
- The org.json tokenizer behind `new JSONObject(text)`: library code that is not part of this model. It is the parameter `parse`.
- JsonTree.Text: for an array or object value, org.json's `optString`/`getString` return that value's serialized JSON text. The model gives "" for those, because serializing the tree is part of the library and not modelled. A number's Java text is carried in the tree (`JNum`) rather than computed.
- UTF-8 decoding and line splitting by `InputStreamReader`/`BufferedReader`: library code. The stream is the sequence of lines `readLine` delivers. A failure of `getInputStream` is the `TransportFailure` outcome, since its effect is the same: body "".
- `Log.e` calls: logging only.
- StoryLoader.java: a wrapper over Android's `AsyncTaskLoader`. Its only logic passes a null URL to null and otherwise calls `fetchStoryData`. Loading at most once and delivering on the UI thread belong to the framework and to concurrency.
- StoryActivity.java and `StoryAdapter.getView`: Android UI and lifecycle code (connectivity check, views, adapter refresh, browser intent).
- Immutability and side-effect-free getters of `Story` are not stated as lemmas, because Dafny datatype values cannot change and destructors have no effects.
- Java object identity of `Story`: Story.java defines no `equals`, so two Java stories built from the same strings are distinct objects. The model treats a story as a value, because nothing in the core compares stories.
- StoryAdapter.FormatDate: Java's `length` and `substring` count UTF-16 code units, while a Dafny string is a sequence of Unicode scalar values. The length requirement and the slice positions therefore differ for a timestamp holding a character outside the Basic Multilingual Plane. This does not matter for the ASCII timestamps the API sends.
