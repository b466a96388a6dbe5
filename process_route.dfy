/** The event-extraction endpoint `POST /api/process` (app/api/process/route.ts).

    The handler reads a URL and/or an image from a multipart form, turns either into text (the page's
    labelled text, or the text an OCR service detects in the image), sends that text to a chat model
    with a fixed instruction, sniffs and parses the reply as JSON and answers with an event record
    whose fields are defaulted. Everything outside the handler (network fetch, HTML parsing, OCR, the
    chat model, `JSON.parse`, `Date`) is an oracle in `World`; the handler's own branching, defaults
    and error mapping are modelled exactly.

    `Respond` and `CallsMade` specify the handler stage by stage; `Post` is the handler as written,
    reassigning the extracted text and returning early, and is proved to agree with them. */
module ProcessRoute {
  import opened Wrappers
  import opened Js

  // ---------------------------------------------------------------------------
  // The outside world
  // ---------------------------------------------------------------------------

  /** How a JavaScript computation ends: with a value, or with a thrown error. */
  datatype Outcome<+T> = Returned(value: T) | Threw

  /** The text cheerio reads from a fetched page once its script and style elements are removed. */
  datatype Page = Page(
    title: string,                   // $('title').text()
    metaDescription: Option<string>, // $('meta[name="description"]').attr('content')
    heading: string,                 // $('h1').text()
    mainText: string,                // $('main').text()
    articleText: string,             // $('article').text()
    bodyText: string)                // $('body').text()

  /** The OCR service's first result: `textAnnotations` may be absent. */
  datatype OcrResult = OcrResult(textAnnotations: Option<seq<TextAnnotation>>)
  datatype TextAnnotation = TextAnnotation(description: Option<string>)

  /** The chat completion's reply: a list of choices, each perhaps with a message and content. */
  datatype ChatReply = ChatReply(choices: seq<Choice>)
  datatype Choice = Choice(message: Option<ChatMessage>)
  datatype ChatMessage = ChatMessage(content: Option<string>)

  datatype ImageFile = ImageFile(name: string, bytes: seq<bv8>)

  /** The request as `req.formData()` sees it: a body that is not a form makes it throw. */
  datatype Request =
    | Unreadable
    | Form(url: Option<string>, image: Option<ImageFile>)

  /** The collaborators the handler calls, as total functions of what it passes them. */
  datatype World = World(
    fetchPage: string -> Outcome<Page>,          // fetch(url), response.text() and the cheerio queries
    detectText: seq<bv8> -> Outcome<OcrResult>,  // visionClient.textDetection(buffer)
    complete: ChatRequest -> Outcome<ChatReply>, // openai.chat.completions.create
    parseJson: string -> Option<JsonValue>,      // JSON.parse; None when it throws
    toDate: JsonValue -> Option<string>)         // new Date(v).toISOString(); None when the date is invalid

  /** The chat completion request: a fixed model, the fixed system instruction, the extracted text as
      the user message, and a cap of 500 output tokens. */
  datatype ChatRequest = ChatRequest(model: string, systemPrompt: string, userText: string, maxTokens: nat)

  const SystemPrompt: string :=
    "Extract the event details from the text in JSON format with these fields:\n"
    + "    - title (string)\n"
    + "    - datetime (string in ISO format if possible, otherwise a readable date)\n"
    + "    - location (an object with name and optional address)\n"
    + "    - description (string)\n"
    + "    - type (either \"social\", \"business\", or \"entertainment\")"

  /** The request sent for an extracted text: the text itself is the user message, alongside the fixed
      model, instruction and token cap. */
  function ChatRequestFor(text: string): (r: ChatRequest)
    ensures r.userText == text
    ensures r.model == "gpt-3.5-turbo" && r.systemPrompt == SystemPrompt && r.maxTokens == 500
  {
    ChatRequest("gpt-3.5-turbo", SystemPrompt, text, 500)
  }

  /** One outbound call the handler makes, in the order it makes them. */
  datatype Call = FetchCall(url: string) | OcrCall(image: seq<bv8>) | ChatCall(request: ChatRequest)

  // ---------------------------------------------------------------------------
  // Responses
  // ---------------------------------------------------------------------------

  /** The formatted event: `title`, `location`, `description` and `type` are the parsed values or their
      defaults; `datetime` is an ISO string or null. */
  datatype Record = Record(
    title: JsonValue,
    datetime: Option<string>,
    location: JsonValue,
    description: JsonValue,
    kind: JsonValue)

  datatype Body = ErrorBody(error: string) | EventBody(event: Record)

  datatype Response = Response(status: int, body: Body)

  const NoTextExtracted := Response(400, ErrorBody("No text extracted"))
  const ReplyNotParsed := Response(500, ErrorBody("Error parsing response from OpenAI"))
  const RequestFailed := Response(500, ErrorBody("Failed to process request"))

  const UnnamedEvent := JString("Unnamed Event")
  const UnknownLocation := JObject(map["name" := JString("Unknown Location")])
  const NoDescription := JString("")
  const SocialType := JString("social")

  /** The record a reply with none of the five fields yields. */
  const DefaultRecord := Record(UnnamedEvent, None, UnknownLocation, NoDescription, SocialType)

  // ---------------------------------------------------------------------------
  // Content extraction
  // ---------------------------------------------------------------------------

  /** `if (url)`: a form field counts only when it is present and non-empty. */
  function Given(url: Option<string>): (b: bool)
    ensures b <==> Truthy(if url.Some? then Some(JString(url.value)) else None)
  {
    url.Some? && url.value != ""
  }

  /** `$('main').text() || $('article').text() || $('body').text()`. */
  function PrimaryText(p: Page): (r: string)
    ensures r == p.mainText || r == p.articleText || r == p.bodyText
    ensures p.mainText != "" ==> r == p.mainText
    ensures p.mainText == "" && p.articleText != "" ==> r == p.articleText
    ensures r == "" <==> p.mainText == "" && p.articleText == "" && p.bodyText == ""
  {
    if p.mainText != "" then p.mainText
    else if p.articleText != "" then p.articleText
    else p.bodyText
  }

  /** The content part of the page text: the primary text cut to its first 1000 characters. */
  function Content(p: Page): (r: string)
    ensures |r| <= 1000 && |r| <= |PrimaryText(p)|
    ensures r == PrimaryText(p)[..|r|]
    ensures |PrimaryText(p)| <= 1000 ==> r == PrimaryText(p)
    ensures |PrimaryText(p)| >= 1000 ==> |r| == 1000
  {
    Prefix(PrimaryText(p), 1000)
  }

  /** The template literal `fetchUrlContent` fills in, before trimming. */
  function Template(title: string, meta: string, heading: string, content: string): (r: string)
    ensures |r| == |title| + |meta| + |heading| + |content| + 95
    ensures r[0] == '\n' && r[|r| - 1] == ' '
  {
    "\n      Title: " + title
    + "\n      Description: " + meta
    + "\n      Heading: " + heading
    + "\n      Content: " + content + " // Limit content length\n    "
  }

  /** The labelled text `fetchUrlContent` returns for a fetched page: the four labelled lines in
      order, with the meta description falling back to "" and the content cut to the primary text's
      first 1000 characters. `PageTextIsTrimmedTemplate` proves it is the filled-in template with
      its surrounding white space trimmed, which is how the source computes it. */
  function PageText(p: Page): (r: string)
    ensures |r| + 12 == |Template(p.title, p.metaDescription.GetOr(""), p.heading, Content(p))|
    ensures r != "" && !IsWhitespace(r[0]) && !IsWhitespace(r[|r| - 1])
  {
    Labelled(p.title, p.metaDescription.GetOr(""), p.heading, Content(p))
  }

  /** The four labelled lines of the template, without its leading and trailing newline and
      indentation: 12 characters shorter, starting with the "T" of "Title" and ending with the "h"
      of "length". */
  function Labelled(title: string, meta: string, heading: string, content: string): (r: string)
    ensures |r| + 12 == |Template(title, meta, heading, content)|
    ensures r != "" && r[0] == 'T' && r[|r| - 1] == 'h'
  {
    "Title: " + title
    + "\n      Description: " + meta
    + "\n      Heading: " + heading
    + "\n      Content: " + content + " // Limit content length"
  }

  /** `fetchUrlContent` trims the filled-in template; the result is exactly `PageText`. */
  lemma PageTextIsTrimmedTemplate(p: Page)
    ensures PageText(p) == Trim(Template(p.title, p.metaDescription.GetOr(""), p.heading, Content(p)))
  {
    TemplateTrimmed(p.title, p.metaDescription.GetOr(""), p.heading, Content(p));
  }

  /** The template's first and last lines are not white space, so trimming removes exactly its
      leading newline and indentation and its trailing newline and indentation: what is left starts
      with "Title: ", has the four labels in order, and ends with the " // Limit content length"
      that sits inside the template. */
  lemma TemplateTrimmed(title: string, meta: string, heading: string, content: string)
    ensures Trim(Template(title, meta, heading, content)) == Labelled(title, meta, heading, content)
  {
    var lead, trail := "\n      ", "\n    ";
    TemplateIsPaddedLabelled(title, meta, heading, content);
    assert AllWhitespace(lead) && AllWhitespace(trail);
    TrimPadded(lead, Labelled(title, meta, heading, content), trail);
  }

  /** The template is the labelled lines between a leading newline with six spaces of indentation
      and a trailing newline with four. */
  lemma TemplateIsPaddedLabelled(title: string, meta: string, heading: string, content: string)
    ensures Template(title, meta, heading, content) == "\n      " + Labelled(title, meta, heading, content) + "\n    "
  {
    assert "\n      Title: " == "\n      " + "Title: ";
    assert " // Limit content length\n    " == " // Limit content length" + "\n    ";
  }

  /** The text of the URL, when one was given: fetching throws on any failure (which
      `fetchUrlContent` rethrows as "Failed to fetch URL content"). */
  function UrlText(url: Option<string>, w: World): (r: Outcome<string>)
    ensures !Given(url) ==> r == Returned("")
    ensures r.Threw? <==> FetchFails(url, w)
    ensures Given(url) && w.fetchPage(url.value).Returned? ==> r == Returned(PageText(w.fetchPage(url.value).value))
  {
    if !Given(url) then Returned("")
    else match w.fetchPage(url.value)
      case Threw => Threw
      case Returned(page) => Returned(PageText(page))
  }

  /** A URL was given and fetching it threw. */
  predicate FetchFails(url: Option<string>, w: World) {
    Given(url) && w.fetchPage(url.value).Threw?
  }

  /** `detections && detections[0].description ? detections[0].description : ''`: reading index 0 of
      an empty annotation list gives `undefined`, whose `description` throws. */
  function OcrText(o: OcrResult): (r: Outcome<string>)
    ensures r.Threw? <==> o.textAnnotations == Some([])
    ensures o.textAnnotations.None? ==> r == Returned("")
    ensures o.textAnnotations.Some? && |o.textAnnotations.value| > 0 ==>
              r == Returned(o.textAnnotations.value[0].description.GetOr(""))
  {
    match o.textAnnotations
    case None => Returned("")
    case Some(detections) =>
      if |detections| == 0 then Threw
      else Returned(detections[0].description.GetOr(""))
  }

  /** The extracted text: the URL is fetched first, then, when an image is given, its OCR text
      replaces whatever the URL gave. */
  function Extract(url: Option<string>, image: Option<ImageFile>, w: World): (r: Outcome<string>)
    ensures image.None? ==> r == UrlText(url, w)
    ensures image.Some? && !FetchFails(url, w) && w.detectText(image.value.bytes).Returned? ==>
              r == OcrText(w.detectText(image.value.bytes).value)
    ensures r.Threw? <==> FetchFails(url, w)
                          || (image.Some? && (w.detectText(image.value.bytes).Threw?
                                              || w.detectText(image.value.bytes).value.textAnnotations == Some([])))
  {
    match UrlText(url, w)
    case Threw => Threw
    case Returned(fromUrl) =>
      if image.None? then Returned(fromUrl)
      else match w.detectText(image.value.bytes)
        case Threw => Threw
        case Returned(result) => OcrText(result)
  }

  // ---------------------------------------------------------------------------
  // Normalisation of the model's reply
  // ---------------------------------------------------------------------------

  /** `response.choices[0]?.message?.content || '{}'`. */
  function ReplyText(c: ChatReply): (r: string)
    ensures r != ""
    ensures r == "{}" <==> (|c.choices| == 0 || c.choices[0].message.None?
                            || c.choices[0].message.value.content.GetOr("") in {"", "{}"})
    ensures r != "{}" ==> |c.choices| > 0 && c.choices[0].message.Some?
                          && c.choices[0].message.value.content == Some(r)
  {
    if |c.choices| == 0 || c.choices[0].message.None? then "{}"
    else
      var content := c.choices[0].message.value.content.GetOr("");
      if content == "" then "{}" else content
  }

  /** The check made before parsing: the trimmed reply starts with `{` or `[`. */
  function LooksLikeJson(reply: string): (b: bool)
    ensures b <==> Trim(reply) != "" && (Trim(reply)[0] == '{' || Trim(reply)[0] == '[')
  {
    StartsWith(Trim(reply), "{") || StartsWith(Trim(reply), "[")
  }

  /** `parseDateTimeString`: null for a falsy value, otherwise the ISO form of the date, or null
      when it is not a valid date. It never throws. */
  function ParseDateTime(v: Option<JsonValue>, toDate: JsonValue -> Option<string>): (r: Option<string>)
    ensures !Truthy(v) ==> r == None
    ensures Truthy(v) ==> r == toDate(v.value)
  {
    if !Truthy(v) then None else toDate(v.value)
  }

  /** The `formattedData` literal for a parsed reply that is not null. Title, location and type are
      always truthy; the description is truthy or the empty string; a truthy parsed field is kept
      unchanged and a falsy one is replaced by its default. */
  function FormatEvent(data: JsonValue, toDate: JsonValue -> Option<string>): (r: Record)
    requires data != JNull
    ensures Truthy(Some(r.title)) && Truthy(Some(r.location)) && Truthy(Some(r.kind))
    ensures Truthy(Some(r.description)) || r.description == NoDescription
    ensures Truthy(Property(data, "title")) ==> r.title == data.fields["title"]
    ensures Truthy(Property(data, "location")) ==> r.location == data.fields["location"]
    ensures Truthy(Property(data, "description")) ==> r.description == data.fields["description"]
    ensures Truthy(Property(data, "type")) ==> r.kind == data.fields["type"]
    ensures !Truthy(Property(data, "title")) ==> r.title == UnnamedEvent
    ensures !Truthy(Property(data, "location")) ==> r.location == UnknownLocation
    ensures !Truthy(Property(data, "description")) ==> r.description == NoDescription
    ensures !Truthy(Property(data, "type")) ==> r.kind == SocialType
    ensures r.datetime == ParseDateTime(Property(data, "datetime"), toDate)
  {
    Record(
      Or(Property(data, "title"), UnnamedEvent),
      ParseDateTime(Property(data, "datetime"), toDate),
      Or(Property(data, "location"), UnknownLocation),
      Or(Property(data, "description"), NoDescription),
      Or(Property(data, "type"), SocialType))
  }

  /** What the handler answers once the model has replied with `reply`: the two ways the reply can
      fail to be JSON give the same 500; reading fields of a parsed `null` throws and gives the
      generic 500; anything else gives the formatted record. */
  function Normalize(reply: string, w: World): (r: Response)
    ensures r.status in {200, 500}
    ensures r.status == 200 <==> r.body.EventBody?
    ensures r == ReplyNotParsed <==> !LooksLikeJson(reply) || w.parseJson(reply).None?
    ensures r.status == 200 <==> LooksLikeJson(reply) && w.parseJson(reply).Some? && w.parseJson(reply).value != JNull
    ensures r.status == 200 ==> r.body.event == FormatEvent(w.parseJson(reply).value, w.toDate)
    ensures LooksLikeJson(reply) && w.parseJson(reply) == Some(JNull) ==> r == RequestFailed
  {
    if !LooksLikeJson(reply) then ReplyNotParsed
    else match w.parseJson(reply)
      case None => ReplyNotParsed
      case Some(data) =>
        if data == JNull then RequestFailed
        else Response(200, EventBody(FormatEvent(data, w.toDate)))
  }

  // ---------------------------------------------------------------------------
  // The handler
  // ---------------------------------------------------------------------------

  /** The response to a request. Every thrown error (an unreadable form, a failed fetch, a failed or
      empty OCR, a failed chat call) is the generic 500; no extracted text is the 400. */
  function Respond(req: Request, w: World): (r: Response)
    ensures r.status in {200, 400, 500}
    ensures r.status == 200 <==> r.body.EventBody?
    ensures r.status == 400 <==> r == NoTextExtracted
    ensures r.status == 500 ==> r == ReplyNotParsed || r == RequestFailed
  {
    match req
    case Unreadable => RequestFailed
    case Form(url, image) =>
      match Extract(url, image, w)
      case Threw => RequestFailed
      case Returned(text) =>
        if text == "" then NoTextExtracted
        else match w.complete(ChatRequestFor(text))
          case Threw => RequestFailed
          case Returned(reply) => Normalize(ReplyText(reply), w)
  }

  /** The calls made while extracting text: a fetch when a URL is given, then an OCR call when an
      image is given and the fetch did not throw. */
  function ExtractionCalls(url: Option<string>, image: Option<ImageFile>, w: World): (r: seq<Call>)
    ensures |r| == (if Given(url) then 1 else 0) + (if image.Some? && !FetchFails(url, w) then 1 else 0)
    ensures Given(url) ==> |r| > 0 && r[0] == FetchCall(url.value)
    ensures image.Some? && !FetchFails(url, w) ==> |r| > 0 && r[|r| - 1] == OcrCall(image.value.bytes)
    ensures forall i :: 0 <= i < |r| ==> !r[i].ChatCall?
  {
    var fetch := if Given(url) then [FetchCall(url.value)] else [];
    if image.Some? && !FetchFails(url, w) then fetch + [OcrCall(image.value.bytes)] else fetch
  }

  /** The outbound calls the handler makes: those of extraction, then one chat call exactly when some
      text was extracted. */
  function CallsMade(req: Request, w: World): (r: seq<Call>)
    ensures |r| <= 3
    ensures req.Unreadable? ==> r == []
    ensures req.Form? ==> var ec := ExtractionCalls(req.url, req.image, w);
                          |ec| <= |r| <= |ec| + 1 && r[..|ec|] == ec
    ensures req.Form? ==> |r| == |ExtractionCalls(req.url, req.image, w)|
                                 + (if Extract(req.url, req.image, w).Returned?
                                       && Extract(req.url, req.image, w).value != "" then 1 else 0)
    ensures req.Form? ==> forall i :: 0 <= i < |r| && r[i].ChatCall? ==>
                            i == |r| - 1 && Extract(req.url, req.image, w).Returned?
                            && r[i] == ChatCall(ChatRequestFor(Extract(req.url, req.image, w).value))
  {
    match req
    case Unreadable => []
    case Form(url, image) =>
      match Extract(url, image, w)
      case Returned(text) =>
        if text != "" then ExtractionCalls(url, image, w) + [ChatCall(ChatRequestFor(text))] else ExtractionCalls(url, image, w)
      case Threw => ExtractionCalls(url, image, w)
  }

  /** Lines 74-87 of the handler: `extractedText` starts empty, is set from the URL, then overwritten
      from the image; a throw ends extraction at once. */
  method ExtractText(url: Option<string>, file: Option<ImageFile>, w: World)
    returns (outcome: Outcome<string>, calls: seq<Call>)
    ensures outcome == Extract(url, file, w)
    ensures calls == ExtractionCalls(url, file, w)
  {
    calls := [];
    var extractedText := "";
    if Given(url) {
      calls := calls + [FetchCall(url.value)];
      var fetched := w.fetchPage(url.value);
      if fetched.Threw? {
        return Threw, calls;
      }
      extractedText := PageText(fetched.value);
    }
    if file.Some? {
      calls := calls + [OcrCall(file.value.bytes)];
      var detected := w.detectText(file.value.bytes);
      if detected.Threw? {
        return Threw, calls;
      }
      var detections := detected.value.textAnnotations;
      if detections == Some([]) {
        return Threw, calls;
      }
      extractedText := if detections.Some? then detections.value[0].description.GetOr("") else "";
    }
    outcome := Returned(extractedText);
  }

  /** The handler as written: each failure returns at once, every thrown error ending in the generic
      500 of its outer `catch`. */
  method Post(req: Request, w: World) returns (response: Response, calls: seq<Call>)
    ensures response == Respond(req, w)
    ensures calls == CallsMade(req, w)
  {
    if req.Unreadable? {
      return RequestFailed, [];
    }
    var extracted;
    extracted, calls := ExtractText(req.url, req.image, w);
    if extracted.Threw? {
      return RequestFailed, calls;
    }
    var extractedText := extracted.value;
    if extractedText == "" {
      return NoTextExtracted, calls;
    }
    var request := ChatRequestFor(extractedText);
    calls := calls + [ChatCall(request)];
    var completion := w.complete(request);
    if completion.Threw? {
      return RequestFailed, calls;
    }
    var gptContent := ReplyText(completion.value);
    if !LooksLikeJson(gptContent) {
      return ReplyNotParsed, calls;
    }
    var parsed := w.parseJson(gptContent);
    if parsed.None? {
      return ReplyNotParsed, calls;
    }
    var eventData := parsed.value;
    if eventData == JNull {
      return RequestFailed, calls;
    }
    var formattedData := FormatEvent(eventData, w.toDate);
    response := Response(200, EventBody(formattedData));
  }

  // ---------------------------------------------------------------------------
  // Properties of the handler
  // ---------------------------------------------------------------------------

  /** With neither a URL nor an image the answer is the 400, and nothing is called. */
  lemma NothingSubmitted(url: Option<string>, w: World)
    requires !Given(url)
    ensures Respond(Form(url, None), w) == NoTextExtracted
    ensures CallsMade(Form(url, None), w) == []
    ensures !ModelCalled(CallsMade(Form(url, None), w))
  {
  }

  /** The 400 is returned exactly when the form was read, nothing threw, and the extracted text is
      empty; the model is called exactly when the extracted text is not. */
  lemma NoTextIff(req: Request, w: World)
    ensures Respond(req, w) == NoTextExtracted
            <==> req.Form? && Extract(req.url, req.image, w) == Returned("")
    ensures ModelCalled(CallsMade(req, w))
            <==> req.Form? && Extract(req.url, req.image, w).Returned?
                 && Extract(req.url, req.image, w).value != ""
  {
    if req.Form? {
      var url, image := req.url, req.image;
      var calls := CallsMade(req, w);
      match Extract(url, image, w)
      case Threw =>
      case Returned(text) =>
        if text != "" {
          assert calls[|calls| - 1] == ChatCall(ChatRequestFor(text));
        } else {
          assert calls == ExtractionCalls(url, image, w);
        }
    }
  }

  /** Whether a trace holds a call to the chat model. */
  predicate ModelCalled(calls: seq<Call>) {
    exists i :: 0 <= i < |calls| && calls[i].ChatCall?
  }

  /** An image's OCR text replaces the URL's text, whatever the URL gave. */
  lemma ImageOverridesUrl(url: Option<string>, image: ImageFile, w: World, detections: seq<TextAnnotation>)
    requires !FetchFails(url, w)
    requires w.detectText(image.bytes) == Returned(OcrResult(Some(detections)))
    requires |detections| > 0
    ensures Extract(url, Some(image), w) == Returned(detections[0].description.GetOr(""))
  {
  }

  /** An image whose first annotation has no description gives the 400 even when the page fetched from
      the URL had text; the model is not called. */
  lemma BlankImageHidesUrlText(url: string, image: ImageFile, w: World, page: Page, detections: seq<TextAnnotation>)
    requires url != ""
    requires w.fetchPage(url) == Returned(page)
    requires w.detectText(image.bytes) == Returned(OcrResult(Some(detections)))
    requires |detections| > 0 && detections[0].description.GetOr("") == ""
    ensures PageText(page) != ""
    ensures Respond(Form(Some(url), Some(image)), w) == NoTextExtracted
    ensures CallsMade(Form(Some(url), Some(image)), w) == [FetchCall(url), OcrCall(image.bytes)]
  {
    assert PageText(page)[0] == 'T';
    assert Extract(Some(url), Some(image), w) == Returned("");
    assert [FetchCall(url)] + [OcrCall(image.bytes)] == [FetchCall(url), OcrCall(image.bytes)];
  }

  /** OCR with an empty annotation list throws on `detections[0].description` and gives the generic 500,
      even when the URL gave text. */
  lemma EmptyAnnotationsFail(url: Option<string>, image: ImageFile, w: World)
    requires !FetchFails(url, w)
    requires w.detectText(image.bytes) == Returned(OcrResult(Some([])))
    ensures Respond(Form(url, Some(image)), w) == RequestFailed
  {
  }

  /** A failed fetch is the generic 500 even when an image was also sent, and the OCR is never called. */
  lemma FetchFailureFails(url: string, image: Option<ImageFile>, w: World)
    requires url != "" && w.fetchPage(url).Threw?
    ensures Respond(Form(Some(url), image), w) == RequestFailed
    ensures CallsMade(Form(Some(url), image), w) == [FetchCall(url)]
  {
  }

  /** A reply that, after any leading white space, starts with `{` or `[` passes the sniff. */
  lemma OpeningBracketLooksLikeJson(pad: string, body: string)
    requires AllWhitespace(pad)
    requires body != [] && (body[0] == '{' || body[0] == '[')
    ensures LooksLikeJson(pad + body)
  {
    TrimStartPadded(pad, body);
    var t := Trim(pad + body);
    assert t == TrimEnd(body);
    assert t != [];
    assert t[0] == body[0];
  }

  /** A missing or empty model reply becomes `'{}'`, which (as `JSON.parse` reads it: an object with no
      fields) yields the all-defaults record with a null datetime. */
  lemma MissingReplyGivesDefaults(req: Request, w: World, text: string, reply: ChatReply)
    requires req.Form? && Extract(req.url, req.image, w) == Returned(text) && text != ""
    requires w.complete(ChatRequestFor(text)) == Returned(reply)
    requires |reply.choices| == 0 || reply.choices[0].message.None?
             || reply.choices[0].message.value.content.GetOr("") == ""
    requires w.parseJson("{}") == Some(JObject(map[]))
    ensures Respond(req, w) == Response(200, EventBody(DefaultRecord))
  {
    assert Respond(req, w) == Normalize(ReplyText(reply), w);
    assert ReplyText(reply) == "{}";
    EmptyObjectGivesDefaults(w);
  }

  /** The `'{}'` fallback, parsed as an object with no fields, yields the all-defaults record. */
  lemma EmptyObjectGivesDefaults(w: World)
    requires w.parseJson("{}") == Some(JObject(map[]))
    ensures Normalize("{}", w) == Response(200, EventBody(DefaultRecord))
  {
    EmptyObjectLooksLikeJson();
    ArrayOrObjectWithoutFields("{}", w, JObject(map[]));
  }

  /** The `'{}'` fallback passes the sniff. */
  lemma EmptyObjectLooksLikeJson()
    ensures LooksLikeJson("{}")
  {
    var none: string := [];
    assert AllWhitespace(none) && none + "{}" == "{}";
    OpeningBracketLooksLikeJson(none, "{}");
  }

  /** A reply that passes the sniff and parses to a non-null value none of whose five fields is truthy
      is answered with the all-defaults record. */
  lemma ArrayOrObjectWithoutFields(reply: string, w: World, data: JsonValue)
    requires LooksLikeJson(reply) && w.parseJson(reply) == Some(data) && data != JNull
    requires forall key :: key in FieldNames ==> !Truthy(Property(data, key))
    ensures Normalize(reply, w) == Response(200, EventBody(DefaultRecord))
  {
    NoFieldsGivesDefaults(data, w.toDate);
  }

  /** A parsed value none of whose five fields is truthy (an empty object, an array, a string...)
      yields exactly the all-defaults record. */
  lemma NoFieldsGivesDefaults(data: JsonValue, toDate: JsonValue -> Option<string>)
    requires data != JNull
    requires forall key :: key in FieldNames ==> !Truthy(Property(data, key))
    ensures FormatEvent(data, toDate) == DefaultRecord
  {
    assert "title" in FieldNames && "datetime" in FieldNames && "location" in FieldNames;
    assert "description" in FieldNames && "type" in FieldNames;
  }


  /** A reply that parses to an array has none of the fields, so every field takes its default. */
  lemma ArrayReplyGivesDefaults(reply: string, w: World, items: seq<JsonValue>)
    requires LooksLikeJson(reply)
    requires w.parseJson(reply) == Some(JArray(items))
    ensures Normalize(reply, w) == Response(200, EventBody(DefaultRecord))
  {
    ArrayOrObjectWithoutFields(reply, w, JArray(items));
  }

  /** "Error parsing response from OpenAI" is returned exactly when the model replied and its reply
      either fails the sniff or fails to parse: two causes, one response. */
  lemma ReplyNotParsedIff(req: Request, w: World)
    ensures Respond(req, w) == ReplyNotParsed
            <==> req.Form?
                 && Extract(req.url, req.image, w).Returned?
                 && Extract(req.url, req.image, w).value != ""
                 && w.complete(ChatRequestFor(Extract(req.url, req.image, w).value)).Returned?
                 && var reply := ReplyText(w.complete(ChatRequestFor(Extract(req.url, req.image, w).value)).value);
                    !LooksLikeJson(reply) || w.parseJson(reply).None?
  {
  }

  /** The 200 answer is given exactly when text was extracted, the model replied, and its reply passes
      the sniff and parses to something other than `null`; its body is then that parsed reply with
      each field kept or defaulted. */
  lemma EventAnswerIff(req: Request, w: World)
    ensures Respond(req, w).status == 200
            <==> req.Form?
                 && Extract(req.url, req.image, w).Returned?
                 && Extract(req.url, req.image, w).value != ""
                 && w.complete(ChatRequestFor(Extract(req.url, req.image, w).value)).Returned?
                 && var reply := ReplyText(w.complete(ChatRequestFor(Extract(req.url, req.image, w).value)).value);
                    LooksLikeJson(reply) && w.parseJson(reply).Some? && w.parseJson(reply).value != JNull
    ensures Respond(req, w).status == 200 ==>
              var reply := ReplyText(w.complete(ChatRequestFor(Extract(req.url, req.image, w).value)).value);
              Respond(req, w).body.event == FormatEvent(w.parseJson(reply).value, w.toDate)
  {
  }

  /** "Failed to process request" is returned exactly when something threw: reading the form, fetching
      the URL, the OCR call or reading its first annotation, the chat call, or reading the fields of a
      parsed `null`. */
  lemma RequestFailedIff(req: Request, w: World)
    ensures Respond(req, w) == RequestFailed
            <==> req.Unreadable?
                 || Extract(req.url, req.image, w).Threw?
                 || (Extract(req.url, req.image, w).value != ""
                     && (w.complete(ChatRequestFor(Extract(req.url, req.image, w).value)).Threw?
                         || var reply := ReplyText(w.complete(ChatRequestFor(Extract(req.url, req.image, w).value)).value);
                            LooksLikeJson(reply) && w.parseJson(reply) == Some(JNull)))
  {
  }

  /** A date that does not parse never aborts the request: replacing the date oracle changes at most
      the `datetime` field of the answer. */
  lemma DateNeverAborts(req: Request, w: World, toDate: JsonValue -> Option<string>)
    ensures Respond(req, w).status == Respond(req, w.(toDate := toDate)).status
    ensures Respond(req, w).body.ErrorBody? ==> Respond(req, w) == Respond(req, w.(toDate := toDate))
    ensures Respond(req, w).body.EventBody? ==>
              Respond(req, w).body.event.(datetime := None)
              == Respond(req, w.(toDate := toDate)).body.event.(datetime := None)
  {
    var w' := w.(toDate := toDate);
    assert forall u, i :: Extract(u, i, w) == Extract(u, i, w') by {
      forall u, i ensures Extract(u, i, w) == Extract(u, i, w') {
        assert UrlText(u, w) == UrlText(u, w');
      }
    }
  }

  /** The worked example of a well-formed reply: every field passes through and the date is
      converted to its ISO instant. */
  lemma VolleyballExample(reply: string, w: World)
    requires reply != [] && reply[0] == '{'
    requires w.parseJson(reply) == Some(VolleyballJson)
    requires w.toDate(JString("2024-06-05T15:00:00-07:00")) == Some("2024-06-05T22:00:00.000Z")
    ensures Normalize(reply, w) == Response(200, EventBody(VolleyballRecord))
  {
    var none: string := [];
    assert AllWhitespace(none) && none + reply == reply;
    OpeningBracketLooksLikeJson(none, reply);
    VolleyballFields(w.toDate);
  }

  lemma VolleyballFields(toDate: JsonValue -> Option<string>)
    requires toDate(JString("2024-06-05T15:00:00-07:00")) == Some("2024-06-05T22:00:00.000Z")
    ensures FormatEvent(VolleyballJson, toDate) == VolleyballRecord
  {
    var data := VolleyballJson;
    assert Property(data, "title") == Some(JString("Beach Volleyball Tournament"));
    assert Property(data, "datetime") == Some(JString("2024-06-05T15:00:00-07:00"));
    assert Property(data, "location") == Some(JObject(map["name" := JString("Venice Beach")]));
    assert Property(data, "description") == Some(JString(""));
    assert Property(data, "type") == Some(JString("social"));
  }

  const VolleyballRecord := Record(
    JString("Beach Volleyball Tournament"),
    Some("2024-06-05T22:00:00.000Z"),
    JObject(map["name" := JString("Venice Beach")]),
    JString(""),
    JString("social"))

  /** The parsed form of the reply
      `{"title":"Beach Volleyball Tournament","datetime":"2024-06-05T15:00:00-07:00",
        "location":{"name":"Venice Beach"},"description":"","type":"social"}`. */
  const VolleyballJson: JsonValue := JObject(map[
    "title" := JString("Beach Volleyball Tournament"),
    "datetime" := JString("2024-06-05T15:00:00-07:00"),
    "location" := JObject(map["name" := JString("Venice Beach")]),
    "description" := JString(""),
    "type" := JString("social")])
}
