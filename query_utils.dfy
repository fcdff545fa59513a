/**
 * The fetch-and-parse pipeline of QueryUtils.java: the decision on the HTTP
 * outcome (makeHttpRequest), the line reader (readFromStream), the JSON
 * extractor (extractFeatureFromJson) and their composition (fetchStoryData).
 *
 * The network, URL construction and the JSON tokenizer are not modelled: an
 * `Exchange` value says what the network did, and the tokenizer is a partial
 * function `parse` from text to tree.
 */
module QueryUtils {
  import opened Wrappers
  import opened JsonTree
  import opened StoryRecord

  const SuccessCode := 200

  const Response := "response"
  const Results := "results"
  const WebPublicationDate := "webPublicationDate"
  const WebTitle := "webTitle"
  const SectionName := "sectionName"
  const WebUrl := "webUrl"
  const Tags := "tags"
  const NoAvailable := "N/A"
  const TagsIndex := 0

  // ---------------------------------------------------------------------------
  // Specification of the extractor

  /** Building the author of `story` raises a JSONException: `tags` is present but
      not an array, or its first element is present, non-null and not an object, or
      that element has no `webTitle` although the story itself has one. */
  predicate AuthorRaises(story: JsonObject)
  {
    && Tags in story
    && (|| !story[Tags].JArr?
        || (var tags := story[Tags].items;
            && |tags| > 0 && !tags[0].JNull?
            && (!tags[0].JObj? || (WebTitle in story && WebTitle !in tags[0].fields))))
  }

  /** No byline is taken from the tags: the story has no `tags` key, the first tag
      is missing (an empty array) or JSON null, or the story itself has no `webTitle`. */
  predicate AuthorUnavailable(story: JsonObject)
  {
    || Tags !in story
    || (story[Tags].JArr? && IsNullAt(story[Tags].items, TagsIndex))
    || WebTitle !in story
  }

  /** The author of a story object, or None when the author path raises.
      The guard asks whether the STORY has a `webTitle`, but the value is read
      from the first TAG's `webTitle`: the source does exactly this. */
  function AuthorOf(story: JsonObject): (r: Option<string>)
    ensures r.None? <==> AuthorRaises(story)
    ensures r.Some? && AuthorUnavailable(story) ==> r.value == NoAvailable
    ensures r.Some? && !AuthorUnavailable(story) ==>
      && Tags in story && story[Tags].JArr? && |story[Tags].items| > 0
      && story[Tags].items[0].JObj? && WebTitle in story[Tags].items[0].fields
      && r.value == Text(story[Tags].items[0].fields[WebTitle])
  {
    if Tags !in story then Some(NoAvailable)
    else match story[Tags]
      case JArr(tags) =>
        if |tags| == 0 || tags[0].JNull? then Some(NoAvailable)
        else (match tags[0]
          case JObj(tag) =>
            if WebTitle !in story then Some(NoAvailable)
            else if WebTitle in tag then Some(Text(tag[WebTitle]))
            else None
          case _ => None)
      case _ => None
  }

  /** The story built from one element of `results`, or None when building it raises
      (the element is not an object, or the author path raises). The four plain
      fields never raise. */
  function StoryOf(item: Json): (r: Option<Story>)
    ensures r.Some? <==> item.JObj? && !AuthorRaises(item.fields)
    ensures r.Some? ==>
      && r.value.date == OptString(item.fields, WebPublicationDate)
      && r.value.title == OptString(item.fields, WebTitle)
      && r.value.section == OptString(item.fields, SectionName)
      && r.value.url == OptString(item.fields, WebUrl)
      && Some(r.value.author) == AuthorOf(item.fields)
  {
    match item
    case JObj(f) =>
      (match AuthorOf(f)
       case Some(author) =>
         Some(Story(OptString(f, WebPublicationDate), OptString(f, WebTitle),
                    OptString(f, SectionName), OptString(f, WebUrl), author))
       case None => None)
    case _ => None
  }

  /** The stories recorded from `items` before the first element that raises: the
      longest prefix of `items` whose elements all build, each built in order. */
  function Recorded(items: seq<Json>): (r: seq<Story>)
    ensures |r| <= |items|
    ensures forall j :: 0 <= j < |r| ==> StoryOf(items[j]) == Some(r[j])
    ensures |r| < |items| ==> StoryOf(items[|r|]).None?
  {
    if items == [] then []
    else match StoryOf(items[0])
      case Some(s) =>
        var rest := Recorded(items[1..]);
        assert forall j :: 0 <= j < |rest| ==> items[1..][j] == items[j + 1];
        [s] + rest
      case None => []
  }

  /** `doc` is a document of the shape {"response": {"results": items, ...}, ...}. */
  predicate ResultsAre(doc: Option<Json>, items: seq<Json>)
  {
    && doc.Some? && doc.value.JObj?
    && Response in doc.value.fields && doc.value.fields[Response].JObj?
    && Results in doc.value.fields[Response].fields
    && doc.value.fields[Response].fields[Results] == JArr(items)
  }

  /** The `results` array of a parsed document, or None when reaching it raises. */
  function ResultsOf(doc: Option<Json>): (r: Option<seq<Json>>)
    ensures r.Some? ==> ResultsAre(doc, r.value)
    ensures r.None? ==> forall items :: !ResultsAre(doc, items)
  {
    match doc
    case Some(JObj(base)) =>
      if Response in base && base[Response].JObj?
         && Results in base[Response].fields && base[Response].fields[Results].JArr?
      then Some(base[Response].fields[Results].items)
      else None
    case _ => None
  }

  /** What extractFeatureFromJson returns for the text `storyJson` (None is Java's
      null): no list for null or empty text, an empty list when the text does not
      reach a `results` array, and otherwise the stories recorded before the first
      element that raises. */
  function StoriesFromJson(storyJson: Option<string>, parse: string -> Option<Json>): (r: Option<seq<Story>>)
    ensures r.None? <==> storyJson.None? || storyJson.value == ""
  {
    if storyJson.None? || storyJson.value == "" then None
    else match ResultsOf(parse(storyJson.value))
      case None => Some([])
      case Some(items) => Some(Recorded(items))
  }

  // ---------------------------------------------------------------------------
  // The extractor

  /** The body of extractFeatureFromJson's loop for element `i` of `storyArray`: the
      four plain fields, then the author, which starts as "N/A" and is replaced only
      when every guard passes. None: a JSONException was raised. */
  method ReadStory(storyArray: seq<Json>, i: nat) returns (r: Option<Story>)
    requires i < |storyArray|
    ensures r == StoryOf(storyArray[i])
  {
    var currentStory := GetJsonObjectAt(storyArray, i);
    if currentStory.Err? {
      return None;
    }
    var story := currentStory.value;
    var date := OptString(story, WebPublicationDate);
    var title := OptString(story, WebTitle);
    var section := OptString(story, SectionName);
    var url := OptString(story, WebUrl);
    var author := NoAvailable;
    if Has(story, Tags) {
      var tagsArray := GetJsonArray(story, Tags);
      if tagsArray.Err? {
        return None;
      }
      if !IsNullAt(tagsArray.value, TagsIndex) {
        var currentStoryTags := GetJsonObjectAt(tagsArray.value, TagsIndex);
        if currentStoryTags.Err? {
          return None;
        }
        if Has(story, WebTitle) {
          var byline := GetString(currentStoryTags.value, WebTitle);
          if byline.Err? {
            return None;
          }
          author := byline.value;
        }
      }
    }
    return Some(Story(date, title, section, url, author));
  }

  /** extractFeatureFromJson: walks `response.results` and appends one story per
      element; a JSONException ends the walk, and the stories appended so far are
      returned. */
  method ExtractFeatureFromJson(storyJson: Option<string>, parse: string -> Option<Json>)
    returns (stories: Option<seq<Story>>)
    ensures stories == StoriesFromJson(storyJson, parse)
  {
    if storyJson.None? || storyJson.value == "" {
      return None;
    }
    var list: seq<Story> := [];
    var baseJsonResponse := NewJsonObject(parse, storyJson.value);
    if baseJsonResponse.Err? {
      return Some(list);
    }
    var response := GetJsonObject(baseJsonResponse.value, Response);
    if response.Err? {
      return Some(list);
    }
    var storyArray := GetJsonArray(response.value, Results);
    if storyArray.Err? {
      return Some(list);
    }
    var items := storyArray.value;
    assert ResultsOf(parse(storyJson.value)) == Some(items);
    var i := 0;
    while i < |items|
      invariant 0 <= i <= |items| && |list| == i
      invariant forall j :: 0 <= j < i ==> StoryOf(items[j]) == Some(list[j])
    {
      var story := ReadStory(items, i);
      if story.None? {
        break;
      }
      list := list + [story.value];
      i := i + 1;
    }
    RecordedIsTheCleanPrefix(items, list);
    return Some(list);
  }

  // ---------------------------------------------------------------------------
  // Properties of the extractor

  /** The contract of Recorded determines it: any list of stories built in order
      from a prefix of `items` that stops only at an element that raises, or at the
      end, is Recorded(items). */
  lemma {:induction false} RecordedIsTheCleanPrefix(items: seq<Json>, r: seq<Story>)
    requires |r| <= |items|
    requires forall j :: 0 <= j < |r| ==> StoryOf(items[j]) == Some(r[j])
    requires |r| < |items| ==> StoryOf(items[|r|]).None?
    ensures r == Recorded(items)
  {
    var q := Recorded(items);
    assert |q| == |r|;
    assert forall j :: 0 <= j < |r| ==> Some(r[j]) == Some(q[j]);
  }

  /** Text that does not reach a `results` array (unparseable, not an object, or
      `response` or `results` missing or of the wrong type) gives an empty list,
      not null. */
  lemma UnusableDocumentGivesEmptyList(text: string, parse: string -> Option<Json>)
    requires text != ""
    requires forall items :: !ResultsAre(parse(text), items)
    ensures StoriesFromJson(Some(text), parse) == Some([])
  {
  }

  /** When no element raises, there is exactly one story per element of `results`,
      in order, story j built from element j. */
  lemma CleanResultsGiveOneStoryEach(text: string, parse: string -> Option<Json>, items: seq<Json>)
    requires text != "" && ResultsAre(parse(text), items)
    requires forall j :: 0 <= j < |items| ==> StoryOf(items[j]).Some?
    ensures var r := StoriesFromJson(Some(text), parse);
      && r.Some? && |r.value| == |items|
      && forall j :: 0 <= j < |items| ==> StoryOf(items[j]) == Some(r.value[j])
  {
  }

  /** Recorded stops at the first element that raises: what it records from the
      whole array is what it records from the elements before that one. */
  lemma RecordedUpToFailure(items: seq<Json>, k: nat)
    requires k < |items| && StoryOf(items[k]).None?
    requires forall j :: 0 <= j < k ==> StoryOf(items[j]).Some?
    ensures Recorded(items) == Recorded(items[..k])
    ensures |Recorded(items)| == k
  {
  }

  /** If element k raises, the result is exactly the stories of elements 0..k-1:
      the earlier ones are kept and no later one is present. */
  lemma FailureKeepsEarlierStories(text: string, parse: string -> Option<Json>, items: seq<Json>, k: nat)
    requires text != "" && ResultsAre(parse(text), items)
    requires k < |items| && StoryOf(items[k]).None?
    requires forall j :: 0 <= j < k ==> StoryOf(items[j]).Some?
    ensures var r := StoriesFromJson(Some(text), parse);
      && r == Some(Recorded(items[..k]))
      && |r.value| == k
      && forall j :: 0 <= j < k ==> StoryOf(items[j]) == Some(r.value[j])
  {
    RecordedUpToFailure(items, k);
  }

  /** The guard reads the story's `webTitle` but the value comes from the tag's:
      the headline never becomes the author, the tag's byline does; without a story
      headline the byline is ignored; without a tag byline the story raises. */
  lemma AuthorGuardAsymmetry(headline: string, byline: string)
    ensures AuthorOf(map[WebTitle := JStr(headline), Tags := JArr([JObj(map[WebTitle := JStr(byline)])])])
            == Some(byline)
    ensures AuthorOf(map[Tags := JArr([JObj(map[WebTitle := JStr(byline)])])]) == Some(NoAvailable)
    ensures AuthorOf(map[WebTitle := JStr(headline), Tags := JArr([JObj(map[])])]) == None
    ensures AuthorOf(map[WebTitle := JStr(headline), Tags := JArr([])]) == Some(NoAvailable)
    ensures AuthorOf(map[WebTitle := JStr(headline), Tags := JArr([JNull])]) == Some(NoAvailable)
  {
  }

  /** The document of a single complete story: every field is copied verbatim,
      and the author comes from the first tag. */
  lemma SingleStoryDocument(text: string, parse: string -> Option<Json>)
    requires text != ""
    requires parse(text) == Some(JObj(map[Response := JObj(map[Results := JArr([JObj(map[
      WebPublicationDate := JStr("2020-01-01T10:00:00Z"), WebTitle := JStr("T"),
      SectionName := JStr("S"), WebUrl := JStr("http://x"),
      Tags := JArr([JObj(map[WebTitle := JStr("A")])])])])])]))
    ensures StoriesFromJson(Some(text), parse)
      == Some([Story("2020-01-01T10:00:00Z", "T", "S", "http://x", "A")])
  {
    var tag := map[WebTitle := JStr("A")];
    var story := map[WebPublicationDate := JStr("2020-01-01T10:00:00Z"), WebTitle := JStr("T"),
      SectionName := JStr("S"), WebUrl := JStr("http://x"), Tags := JArr([JObj(tag)])];
    assert ResultsOf(parse(text)) == Some([JObj(story)]);
    assert AuthorOf(story) == Some("A");
    assert StoryOf(JObj(story)) == Some(Story("2020-01-01T10:00:00Z", "T", "S", "http://x", "A"));
    assert [JObj(story)][1..] == [];
    assert Recorded([JObj(story)]) == [Story("2020-01-01T10:00:00Z", "T", "S", "http://x", "A")];
  }

  // ---------------------------------------------------------------------------
  // Reading the response body

  /** The response body: the lines joined with nothing in between. */
  function Concat(lines: seq<string>): (r: string)
  {
    if lines == [] then "" else lines[0] + Concat(lines[1..])
  }

  /** Joining two runs of lines is joining their joins: no separator is added at
      the seam. */
  lemma {:induction false} ConcatAppend(a: seq<string>, b: seq<string>)
    ensures Concat(a + b) == Concat(a) + Concat(b)
  {
    if a == [] {
      assert a + b == b;
    } else {
      assert (a + b)[1..] == a[1..] + b;
      ConcatAppend(a[1..], b);
    }
  }

  /** The total number of characters in `lines`. */
  function TotalLength(lines: seq<string>): (r: nat)
  {
    if lines == [] then 0 else |lines[0]| + TotalLength(lines[1..])
  }

  /** The body holds the characters of the lines and nothing else. */
  lemma {:induction false} ConcatLength(lines: seq<string>)
    ensures |Concat(lines)| == TotalLength(lines)
  {
    if lines != [] {
      ConcatLength(lines[1..]);
    }
  }

  /** Lines as a reader delivers them hold no line breaks, and neither does their
      join: the payload's newlines are dropped. */
  lemma {:induction false} ConcatHasNoLineBreaks(lines: seq<string>)
    requires forall i :: 0 <= i < |lines| ==> '\n' !in lines[i] && '\r' !in lines[i]
    ensures '\n' !in Concat(lines) && '\r' !in Concat(lines)
  {
    if lines != [] {
      ConcatHasNoLineBreaks(lines[1..]);
    }
  }

  /** An I/O failure while reading or closing the response stream. */
  datatype IOException = IOException

  /** The response stream: the lines `readLine` delivers in order; `broken` when
      the read after the last of them raises instead of signalling the end;
      `closeFails` when closing the stream raises. */
  datatype Stream = Stream(lines: seq<string>, broken: bool, closeFails: bool)

  /** What the network did with the request: the URL did not parse (a null URL
      included), the exchange failed before a readable stream was obtained, or the
      server answered with a status code. */
  datatype Exchange =
    | MalformedUrl
    | TransportFailure
    | Answered(code: int, stream: Stream)

  /** readFromStream: appends every line to the output, in order, with no separator. */
  method ReadFromStream(stream: Stream) returns (r: Result<string, IOException>)
    ensures stream.broken ==> r == Err(IOException)
    ensures !stream.broken ==> r == Ok(Concat(stream.lines))
  {
    var output := "";
    var i := 0;
    while i < |stream.lines|
      invariant 0 <= i <= |stream.lines|
      invariant output == Concat(stream.lines[..i])
    {
      ConcatAppend(stream.lines[..i], [stream.lines[i]]);
      assert stream.lines[..i + 1] == stream.lines[..i] + [stream.lines[i]];
      assert Concat([stream.lines[i]]) == stream.lines[i] + Concat([]);
      output := output + stream.lines[i];
      i := i + 1;
    }
    if stream.broken {
      return Err(IOException);
    }
    assert stream.lines[..i] == stream.lines;
    return Ok(output);
  }

  // ---------------------------------------------------------------------------
  // The request and the whole pipeline

  /** The server answered 200 and the whole body was read and the stream closed. */
  predicate Delivered(exchange: Exchange)
  {
    exchange.Answered? && exchange.code == SuccessCode
    && !exchange.stream.broken && !exchange.stream.closeFails
  }

  /** makeHttpRequest: the body is the stream's text only for status 200; a bad
      URL, a transport error, another status or a read error leave it "". Only a
      failure to close the stream escapes, as an IOException. */
  method MakeHttpRequest(exchange: Exchange) returns (r: Result<string, IOException>)
    ensures r.Err? <==> exchange.Answered? && exchange.code == SuccessCode && exchange.stream.closeFails
    ensures Delivered(exchange) ==> r == Ok(Concat(exchange.stream.lines))
    ensures !Delivered(exchange) && r.Ok? ==> r.value == ""
  {
    var jsonResponse := "";
    if exchange.MalformedUrl? {
      return Ok(jsonResponse);
    }
    if exchange.TransportFailure? {
      return Ok(jsonResponse);
    }
    if exchange.code == SuccessCode {
      var read := ReadFromStream(exchange.stream);
      if read.Ok? {
        jsonResponse := read.value;
      }
      if exchange.stream.closeFails {
        return Err(IOException);
      }
    }
    return Ok(jsonResponse);
  }

  /** fetchStoryData: request, then extract. Any failure of the request ends in no
      list (null); a delivered body is handed to the extractor as it is. */
  method FetchStoryData(exchange: Exchange, parse: string -> Option<Json>)
    returns (stories: Option<seq<Story>>)
    ensures Delivered(exchange) ==> stories == StoriesFromJson(Some(Concat(exchange.stream.lines)), parse)
    ensures !Delivered(exchange) ==> stories.None?
  {
    var jsonResponse: Option<string> := None;
    var body := MakeHttpRequest(exchange);
    if body.Ok? {
      jsonResponse := Some(body.value);
    }
    stories := ExtractFeatureFromJson(jsonResponse, parse);
  }

  /** A delivered body whose `results` array is empty gives an empty list, which
      is not the null of a failed request. */
  lemma DeliveredEmptyResultsGiveEmptyList(exchange: Exchange, parse: string -> Option<Json>)
    requires Delivered(exchange) && Concat(exchange.stream.lines) != ""
    requires ResultsAre(parse(Concat(exchange.stream.lines)), [])
    ensures StoriesFromJson(Some(Concat(exchange.stream.lines)), parse) == Some([])
  {
  }
}
