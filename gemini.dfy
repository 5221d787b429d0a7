/** The request/response contract of the Gemini `generateContent` endpoint as
    the simulator uses it (App.js:14-39 and the response reads at
    App.js:94-96 and 102-104). The transport itself (URL, `fetch`, JSON) is
    replaced by `HttpResult`, the outcome of one exchange. */
module Gemini {
  import opened Wrappers
  import Decimal

  /** A value read from `parts[0].text`: a string, or JavaScript's `undefined`
      when the part has no `text` field. Reading it never throws. */
  datatype JsText = Str(s: string) | Undefined

  /** How a template literal prints the value (`${text}`). */
  function Render(t: JsText): string {
    match t
    case Str(s) => s
    case Undefined => "undefined"
  }

  datatype Part = Part(text: JsText)

  /** One turn of a conversation: `{role, parts}`. */
  datatype Content = Content(role: string, parts: seq<Part>)

  /** A turn the simulator writes itself: `{role: "user", parts: [{text}]}`. */
  function UserTurn(text: JsText): Content {
    Content("user", [Part(text)])
  }

  /** `candidates[i].content` may be missing (for instance when generation was blocked). */
  datatype Candidate = Candidate(content: Option<Content>)

  /** The parsed body of a successful reply; its `candidates` array may be
      missing. */
  datatype ResponseData = ResponseData(candidates: Option<seq<Candidate>>)

  datatype SafetySetting = SafetySetting(category: string, threshold: string)

  /** The four categories, each at the most permissive threshold (App.js:60-77). */
  const SafetySettings: seq<SafetySetting> := [
    SafetySetting("HARM_CATEGORY_DANGEROUS_CONTENT", "BLOCK_NONE"),
    SafetySetting("HARM_CATEGORY_HATE_SPEECH", "BLOCK_NONE"),
    SafetySetting("HARM_CATEGORY_HARASSMENT", "BLOCK_NONE"),
    SafetySetting("HARM_CATEGORY_SEXUALLY_EXPLICIT", "BLOCK_NONE")
  ]

  /** What one request carries: the system instruction, the whole history so
      far and the safety settings. */
  datatype RequestBody = RequestBody(systemInstruction: string, contents: seq<Content>,
                                     safetySettings: seq<SafetySetting>)

  /** One call of `generateContent`: the model and key go into the URL. */
  datatype Call = Call(model: string, apiKey: string, body: RequestBody)

  /** What one HTTP exchange yields: `fetch` (or reading the body) rejected with
      a message, or a reply with its status, its body as text and its body as JSON. */
  datatype HttpResult =
    | Rejected(reason: string)
    | Reply(status: nat, text: string, data: ResponseData)

  /** What the simulation can catch. */
  datatype Error =
    | Thrown(message: string)            // rethrown unchanged by generateContent
    | ApiError(status: nat, body: string) // the `throw new Error(...)` for a reply that is not ok
    | Unreadable(property: string)        // a TypeError from reading a field of `undefined`

  /** `Response.ok`: a status in the range 200-299. */
  predicate IsOk(status: nat) {
    200 <= status <= 299
  }

  /** `err.message` of each kind of error. The wording of a TypeError is the
      JavaScript engine's; this is V8's. */
  function Message(e: Error): string {
    match e
    case Thrown(m) => m
    case ApiError(status, body) => "API error: " + Decimal.Digits(status) + " - " + body
    case Unreadable(p) => "Cannot read properties of undefined (reading '" + p + "')"
  }

  /** `generateContent`: the parsed body of an ok reply; an error carrying the
      status and the body text for any other reply; a rejection passes through. */
  function GenerateContent(reply: HttpResult): (r: Result<ResponseData, Error>)
    ensures r.Success? <==> reply.Reply? && IsOk(reply.status)
    ensures r.Success? ==> r.value == reply.data
    ensures reply.Reply? && !IsOk(reply.status) ==> r == Failure(ApiError(reply.status, reply.text))
    ensures reply.Rejected? ==> r == Failure(Thrown(reply.reason))
  {
    match reply
    case Rejected(reason) => Failure(Thrown(reason))
    case Reply(status, text, data) =>
      if !IsOk(status) then Failure(ApiError(status, text)) else Success(data)
  }

  /** The message of an API error determines its status and body: the error
      shown to the user is enough to tell which reply caused it. */
  lemma ApiErrorMessageDetermines(s1: nat, b1: string, s2: nat, b2: string)
    requires Message(ApiError(s1, b1)) == Message(ApiError(s2, b2))
    ensures s1 == s2 && b1 == b2
  {
    var p := "API error: ";
    var d1, d2 := Decimal.Digits(s1), Decimal.Digits(s2);
    var m := Message(ApiError(s1, b1));
    assert m == p + d1 + " - " + b1;
    assert m == p + d2 + " - " + b2;
    Decimal.LeadingDigitsOf(d1, " - " + b1);
    Decimal.LeadingDigitsOf(d2, " - " + b2);
    assert m[|p|..] == d1 + (" - " + b1) == d2 + (" - " + b2);
    assert d1 == m[|p|..|p| + |d1|] == d2;
    Decimal.DigitsInjective(s1, s2);
    assert b1 == m[|p| + |d1| + 3..] == b2;
  }

  /** `resp.candidates[0].content` and its `parts[0].text` (App.js:95-96,
      103-104): reading through an `undefined` throws a TypeError naming the
      property read; a part without text yields `undefined` without throwing. */
  function ReadReply(data: ResponseData): (r: Result<(Content, JsText), Error>)
    ensures r.Success? <==>
      data.candidates.Some? && |data.candidates.value| > 0 &&
      data.candidates.value[0].content.Some? && |data.candidates.value[0].content.value.parts| > 0
    ensures r.Success? ==>
      r.value.0 == data.candidates.value[0].content.value && r.value.1 == r.value.0.parts[0].text
    ensures data.candidates.None? ==> r == Failure(Unreadable("0"))
    ensures data.candidates.Some? && |data.candidates.value| == 0 ==> r == Failure(Unreadable("content"))
    ensures r.Failure? ==> r.error.Unreadable?
  {
    match data.candidates
    case None => Failure(Unreadable("0"))
    case Some(candidates) =>
      if |candidates| == 0 then Failure(Unreadable("content"))
      else match candidates[0].content
        case None => Failure(Unreadable("parts"))
        case Some(content) =>
          if |content.parts| == 0 then Failure(Unreadable("text"))
          else Success((content, content.parts[0].text))
  }

  /** A request object whose `contents` array the simulation pushes onto. The
      system instruction and safety settings are fixed when it is built. */
  class Request {
    const systemInstruction: string
    const safetySettings: seq<SafetySetting>
    var contents: seq<Content>

    constructor (systemInstruction: string, contents: seq<Content>, safetySettings: seq<SafetySetting>)
      ensures this.systemInstruction == systemInstruction
      ensures this.contents == contents && this.safetySettings == safetySettings
    {
      this.systemInstruction := systemInstruction;
      this.contents := contents;
      this.safetySettings := safetySettings;
    }

    /** What `JSON.stringify(request)` sends now. */
    function Body(): RequestBody
      reads this
    {
      RequestBody(systemInstruction, contents, safetySettings)
    }

    /** `contents.push(c)`. */
    method Push(c: Content)
      modifies this
      ensures contents == old(contents) + [c]
    {
      contents := contents + [c];
    }
  }
}
