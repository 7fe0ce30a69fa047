/**
 * `generateContent(content, type)` of src/services/aiService.js: three input
 * checks, one request to the generation service, and the classification of
 * its answer. The answer is a parameter: the response, or the message of the
 * error `fetch` throws. The prompt text is not modelled; a request is the
 * content type and the content.
 */
module AiService {
  import opened Wrappers
  import opened Docs
  import opened Http

  const MaxContentLength := 100000

  const ContentRequired := "Content is required"
  const ContentTooLong := "Content is too long. Please upload a shorter document"
  const InvalidKeyMessage := "Invalid API key. Please check your Cohere API key configuration."
  const FailedMessage := "Failed to generate content"
  const NoContentMessage := "No content generated"
  const NotAFunctionMessage := "generatePrompts[type] is not a function"

  /** The engine's message when an accessor-defining method is given no callable accessor. */
  function AccessorNotCallable(kind: string): string {
    "Object.prototype." + kind + ": Expecting function"
  }

  function InvalidType(kind: string): string {
    "Invalid content type: " + kind
  }

  /** The own keys of the prompt table. */
  const PromptTypes := {"twitter", "tiktok", "youtube"}

  /**
   * The methods every plain object inherits from `Object.prototype` that
   * return normally when called with the content as their only argument.
   */
  const InheritedMethods := {
    "constructor", "hasOwnProperty", "isPrototypeOf", "propertyIsEnumerable", "toString", "valueOf",
    "toLocaleString", "__lookupGetter__", "__lookupSetter__"}

  /** The inherited accessor whose value is the prototype object itself, which is not callable. */
  const ProtoKey := "__proto__"

  /**
   * The inherited methods that define an accessor: called with one argument,
   * their accessor is `undefined`, which is not callable, so they throw.
   */
  const AccessorDefiners := {"__defineGetter__", "__defineSetter__"}

  /** The inherited names that pass the type check and then throw when called. */
  const ThrowingNames := AccessorDefiners + {ProtoKey}

  /** A request sent to the generation service. */
  datatype Request = Request(kind: string, content: string)

  /** `{ content: generations[0].text, generatedAt }`; the text is `undefined` (`None`) when absent. */
  datatype Generated = Generated(content: Option<Value>, generatedAt: int)

  /** What one call does: the request it sends, if any, and its value or the message it throws. */
  datatype Call = Call(sent: Option<Request>, result: Result<Generated, string>)

  /** `data.generations[0]`: index 0 of an array (an object keyed `"0"`) or the first character of a string. */
  function FirstGeneration(data: Value): (r: Option<Value>)
    ensures data.Obj? && Field(data.fields, "generations").Some? && Field(data.fields, "generations").value.Obj? ==>
      r == Field(Field(data.fields, "generations").value.fields, "0")
    ensures !Truthy(LookupIn(Some(data), ["generations"])) ==> r.None?
  {
    match LookupIn(Some(data), ["generations"])
    case Some(Obj(g)) => Field(g, "0")
    case Some(Str(s)) => if |s| > 0 then Some(Str([s[0]])) else None
    case _ => None
  }

  /**
   * The answer's classification: a non-2xx status throws (the key message for
   * 401, the generic one otherwise); a missing first generation throws; else
   * the first generation's `text`.
   */
  function Classify(resp: Response, now: int): (r: Result<Generated, string>)
    ensures !(200 <= resp.status < 300) ==> r == Failure(if resp.status == 401 then InvalidKeyMessage else FailedMessage)
    ensures 200 <= resp.status < 300 && !Truthy(FirstGeneration(resp.body)) ==> r == Failure(NoContentMessage)
    ensures r.Success? <==> 200 <= resp.status < 300 && Truthy(FirstGeneration(resp.body))
    ensures r.Success? ==> r.value == Generated(LookupIn(FirstGeneration(resp.body), ["text"]), now)
  {
    if !(200 <= resp.status < 300) then
      if resp.status == 401 then Failure(InvalidKeyMessage) else Failure(FailedMessage)
    else if !Truthy(FirstGeneration(resp.body)) then Failure(NoContentMessage)
    else Success(Generated(LookupIn(FirstGeneration(resp.body), ["text"]), now))
  }

  /**
   * The body the generation service answers with: `{ generations: [...] }`
   * whose first element, when there is one, is `{ text }`. An array is the
   * object of its index keys.
   */
  function GenerationsBody(first: Option<string>): Value {
    Obj(map["generations" := Obj(if first.Some? then map["0" := Obj(map["text" := Str(first.value)])] else map[])])
  }

  /**
   * Reading the service's answer back: a 2xx answer yields exactly the first
   * generated text, an empty generation list fails with "No content
   * generated", and any other status fails whatever the body holds.
   */
  lemma ClassifyServiceAnswer(status: int, first: Option<string>, now: int)
    ensures var r := Classify(Response(status, GenerationsBody(first)), now);
      && (200 <= status < 300 && first.Some? ==> r == Success(Generated(Some(Str(first.value)), now)))
      && (200 <= status < 300 && first.None? ==> r == Failure(NoContentMessage))
      && (!(200 <= status < 300) ==> r.Failure? && r.error != NoContentMessage)
  {
    var body := GenerationsBody(first);
    if first.Some? {
      assert FirstGeneration(body) == Some(Obj(map["text" := Str(first.value)]));
    } else {
      assert FirstGeneration(body) == None;
    }
  }

  /** After the checks: send the request, then classify the answer (or pass on what `fetch` threw). */
  function Send(content: string, kind: string, answer: Result<Response, string>, now: int): (c: Call)
    ensures c.sent == Some(Request(kind, content))
    ensures answer.Failure? ==> c.result == Failure(answer.error)
    ensures answer.Success? ==> c.result == Classify(answer.value, now)
  {
    Call(Some(Request(kind, content)), match answer
      case Failure(e) => Failure(e)
      case Success(resp) => Classify(resp, now))
  }

  /**
   * `generateContent` as written: `!generatePrompts[type]` looks the type up
   * through the prototype chain, so an inherited method name passes the
   * check and its method is called in place of a prompt builder. Three such
   * names throw when called, before any request: `__proto__` (not a
   * function) and the two accessor-defining methods (no accessor given).
   */
  function GenerateContent(content: string, kind: string, answer: Result<Response, string>, now: int): (c: Call)
    ensures content == "" ==> c == Call(None, Failure(ContentRequired))
    ensures content != "" && |content| > MaxContentLength ==> c == Call(None, Failure(ContentTooLong))
    ensures content != "" && |content| <= MaxContentLength && kind !in PromptTypes + InheritedMethods + ThrowingNames ==>
      c == Call(None, Failure(InvalidType(kind)))
    ensures content != "" && |content| <= MaxContentLength && kind in ThrowingNames ==> c.sent.None? && c.result.Failure?
    ensures c.sent.Some? <==>
      content != "" && |content| <= MaxContentLength && (kind in PromptTypes || kind in InheritedMethods)
    ensures c.sent.Some? ==> c == Send(content, kind, answer, now)
  {
    if content == "" then Call(None, Failure(ContentRequired))
    else if |content| > MaxContentLength then Call(None, Failure(ContentTooLong))
    else if kind !in PromptTypes && kind !in InheritedMethods && kind !in ThrowingNames then Call(None, Failure(InvalidType(kind)))
    else if kind == ProtoKey then Call(None, Failure(NotAFunctionMessage))
    else if kind in AccessorDefiners then Call(None, Failure(AccessorNotCallable(kind)))
    else Send(content, kind, answer, now)
  }

  /** The evidently intended check: only the table's own keys name a content type. */
  function GenerateContentCorrected(content: string, kind: string, answer: Result<Response, string>, now: int): (c: Call)
    ensures content == "" ==> c == Call(None, Failure(ContentRequired))
    ensures content != "" && |content| > MaxContentLength ==> c == Call(None, Failure(ContentTooLong))
    ensures content != "" && |content| <= MaxContentLength && kind !in PromptTypes ==> c == Call(None, Failure(InvalidType(kind)))
    ensures c.sent.Some? <==> content != "" && |content| <= MaxContentLength && kind in PromptTypes
    ensures c.sent.Some? ==> c == Send(content, kind, answer, now)
  {
    if content == "" then Call(None, Failure(ContentRequired))
    else if |content| > MaxContentLength then Call(None, Failure(ContentTooLong))
    else if kind !in PromptTypes then Call(None, Failure(InvalidType(kind)))
    else Send(content, kind, answer, now)
  }

  /** For the three content types, and for every rejected input, both versions agree. */
  lemma CorrectedAgreesOnPromptTypes(content: string, kind: string, answer: Result<Response, string>, now: int)
    requires kind in PromptTypes || content == "" || |content| > MaxContentLength
    ensures GenerateContent(content, kind, answer, now) == GenerateContentCorrected(content, kind, answer, now)
  {
  }

  /**
   * As written, the type `"toString"` passes the type check and a request is
   * sent to the service; the corrected check rejects it before any request.
   * The type `"__defineGetter__"` passes the check too, but throws before
   * the request.
   */
  lemma InheritedNameSendsRequest(answer: Result<Response, string>, now: int)
    ensures GenerateContent("notes", "toString", answer, now).sent == Some(Request("toString", "notes"))
    ensures GenerateContentCorrected("notes", "toString", answer, now) == Call(None, Failure(InvalidType("toString")))
    ensures GenerateContent("notes", "__defineGetter__", answer, now) == Call(None, Failure(AccessorNotCallable("__defineGetter__")))
  {
  }

  /** A request is sent only after all three checks pass, so a rejected input never depends on the answer. */
  lemma RejectedInputIgnoresAnswer(content: string, kind: string, a: Result<Response, string>, b: Result<Response, string>, now: int)
    requires GenerateContentCorrected(content, kind, a, now).sent.None?
    ensures GenerateContentCorrected(content, kind, a, now) == GenerateContentCorrected(content, kind, b, now)
    ensures GenerateContent(content, kind, a, now).sent.None? ==>
      GenerateContent(content, kind, a, now) == GenerateContent(content, kind, b, now)
  {
  }

  /** Exactly 100 000 characters are accepted; one more is refused before the type is looked at. */
  lemma LengthBoundary(content: string, kind: string, answer: Result<Response, string>, now: int)
    requires kind in PromptTypes
    ensures |content| == MaxContentLength ==> GenerateContentCorrected(content, kind, answer, now).sent.Some?
    ensures |content| == MaxContentLength + 1 ==>
      GenerateContent(content, "unknown", answer, now).result == Failure(ContentTooLong)
  {
  }
}
