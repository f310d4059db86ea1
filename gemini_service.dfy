/** The completion service (src/services/geminiService.ts): the request body it
    posts and the way it turns whatever the HTTP exchange produced into a reply.
    The fetch itself is not modelled; its outcome is an input. */
module GeminiService {
  import opened Types

  /** A parsed JSON value. Numbers are modelled as integers. */
  datatype Json =
    | JNull
    | JBool(b: bool)
    | JNum(n: int)
    | JStr(s: string)
    | JArr(items: seq<Json>)
    | JObj(fields: map<string, Json>)

  /** What the HTTP exchange produced: `fetch` rejected, or a response arrived
      with a status code and a body that either parses as JSON or does not. */
  datatype Body = Malformed | Parsed(data: Json)
  datatype FetchOutcome = NetworkError | Response(status: int, body: Body)

  /** The service's result type `{ text }`; `text` is whatever value the
      extraction produced, as JavaScript does not check it is a string. */
  datatype GeminiResponse = GeminiResponse(text: Json)

  const NoResponseText: string := "Sorry, I couldn't generate a response."
  const TroubleText: string :=
    "I'm having trouble connecting to my brain right now. Please try again in a moment."

  /** `response.ok`: a status in the range 200-299. */
  predicate IsOk(status: int) {
    200 <= status <= 299
  }

  /** JavaScript truthiness of a value that may be `undefined` (None). */
  predicate Truthy(v: Option<Json>)
    ensures !Truthy(v) <==>
      v == None || v == Some(JNull) || v == Some(JBool(false)) || v == Some(JNum(0)) || v == Some(JStr(""))
  {
    match v
    case None => false
    case Some(j) =>
      match j
      case JNull => false
      case JBool(b) => b
      case JNum(n) => n != 0
      case JStr(s) => s != ""
      case JArr(_) => true
      case JObj(_) => true
  }

  /** One link of a member-access chain: a named property or the index `[0]`. */
  datatype Access = Key(name: string) | First

  /** Member access on a value that is neither null nor undefined. Arrays and
      strings have no property of the names used here; `[0]` on an object reads
      the property "0" and on a string gives its first character. */
  function Get(v: Json, a: Access): (r: Option<Json>)
    requires !v.JNull?
    ensures r.Some? ==> v.JObj? || v.JArr? || v.JStr?
    ensures a.Key? ==> (r.Some? <==> v.JObj? && a.name in v.fields)
    ensures a.Key? && r.Some? ==> r.value == v.fields[a.name]
    ensures a.First? && v.JArr? ==> (r.Some? <==> v.items != []) && (r.Some? ==> r.value == v.items[0])
  {
    match a
    case Key(k) =>
      if v.JObj? && k in v.fields then Some(v.fields[k]) else None
    case First =>
      match v
      case JArr(xs) => if xs != [] then Some(xs[0]) else None
      case JStr(s) => if s != "" then Some(JStr([s[0]])) else None
      case JObj(m) => if "0" in m then Some(m["0"]) else None
      case _ => None
  }

  /** `v?.a1?.a2...`: every link short-circuits to undefined on null or undefined. */
  function OptionalChain(v: Option<Json>, path: seq<Access>): (r: Option<Json>)
    ensures path == [] ==> r == v
    ensures path != [] && (v == None || v == Some(JNull)) ==> r == None
    ensures r.Some? ==> v.Some?
    decreases |path|
  {
    if path == [] then v
    else match v
      case None => None
      case Some(j) => if j.JNull? then None else OptionalChain(Get(j, path[0]), path[1..])
  }

  /** Chaining composes: `(v?.a)?.b` reads the same as `v?.a?.b`. */
  lemma {:induction false} OptionalChainAppend(v: Option<Json>, a: seq<Access>, b: seq<Access>)
    ensures OptionalChain(v, a + b) == OptionalChain(OptionalChain(v, a), b)
    decreases |a|
  {
    if a != [] && v.Some? && !v.value.JNull? {
      assert (a + b)[0] == a[0] && (a + b)[1..] == a[1..] + b;
      OptionalChainAppend(Get(v.value, a[0]), a[1..], b);
    } else if a == [] {
      assert a + b == b;
    }
  }

  /** The links after `data.candidates`: `?.[0]?.content?.parts?.[0]?.text`. */
  const TextPath: seq<Access> := [First, Key("content"), Key("parts"), First, Key("text")]

  /** `data.candidates?.[0]?.content?.parts?.[0]?.text` on data that is not null. */
  function ExtractedText(data: Json): (r: Option<Json>)
    requires !data.JNull?
    ensures r.Some? ==> data.JObj? && "candidates" in data.fields
    ensures r.Some? ==> !data.fields["candidates"].JNull?
  {
    OptionalChain(Get(data, Key("candidates")), TextPath)
  }

  /** How the try block ends: it returns `{ text }` or something in it throws. */
  datatype Attempt = Returned(text: Json) | Threw

  /** The try block: a rejected fetch, a non-OK status (thrown explicitly), a
      body that is not JSON and `data.candidates` on a JSON null all throw;
      otherwise the extracted text, or the fallback when it is falsy. */
  function TryBlock(o: FetchOutcome): (r: Attempt)
    ensures r.Returned? ==> o.Response? && IsOk(o.status) && o.body.Parsed? && !o.body.data.JNull?
    ensures r.Returned? ==> Truthy(Some(r.text))
  {
    match o
    case NetworkError => Threw
    case Response(status, body) =>
      if !IsOk(status) then Threw
      else match body
        case Malformed => Threw
        case Parsed(data) =>
          if data.JNull? then Threw
          else
            var text := ExtractedText(data);
            Returned(if Truthy(text) then text.value else JStr(NoResponseText))
  }

  /** `fetchGeminiResponse`: whatever happened, a response is returned (the
      catch turns every throw into the trouble text) and its text is truthy. */
  function FetchGeminiResponse(o: FetchOutcome): (r: GeminiResponse)
    ensures Truthy(Some(r.text))
    ensures r.text.JStr? ==> r.text.s != ""
    ensures TryBlock(o).Threw? ==> r.text == JStr(TroubleText)
  {
    match TryBlock(o)
    case Returned(t) => GeminiResponse(t)
    case Threw => GeminiResponse(JStr(TroubleText))
  }

  /** Exactly these outcomes take the catch path. */
  lemma ThrowsExactly(o: FetchOutcome)
    ensures TryBlock(o).Threw? <==>
      || o.NetworkError?
      || !IsOk(o.status)
      || o.body.Malformed?
      || o.body.data.JNull?
  {
  }

  /** A status outside 200-299 yields the trouble text, never an error. */
  lemma NonOkStatusYieldsTrouble(status: int, body: Body)
    requires !IsOk(status)
    ensures FetchGeminiResponse(Response(status, body)).text == JStr(TroubleText)
  {
  }

  /** A present, non-empty `candidates[0].content.parts[0].text` string is
      returned unchanged. */
  lemma CandidateTextReturned(status: int, data: Json, s: string)
    requires IsOk(status) && !data.JNull? && s != ""
    requires ExtractedText(data) == Some(JStr(s))
    ensures FetchGeminiResponse(Response(status, Parsed(data))).text == JStr(s)
  {
  }

  /** A missing link anywhere on the path, or an empty text, yields the
      "couldn't generate" fallback. */
  lemma MissingTextYieldsFallback(status: int, data: Json)
    requires IsOk(status) && !data.JNull?
    requires ExtractedText(data) in {None, Some(JNull), Some(JStr(""))}
    ensures FetchGeminiResponse(Response(status, Parsed(data))).text == JStr(NoResponseText)
  {
  }

  /** The reply is a string unless the extracted value is truthy and not a
      string (a number, `true`, an array or an object), which is passed on as it
      is: nothing checks that `text` holds a string. */
  lemma ReplyIsStringUnlessOtherValue(status: int, data: Json)
    requires IsOk(status) && !data.JNull?
    ensures FetchGeminiResponse(Response(status, Parsed(data))).text.JStr? <==>
      !Truthy(ExtractedText(data)) || ExtractedText(data).value.JStr?
  {
  }

  /** A part `{ text }` and a candidate `{ content: { parts } }` as the API sends them. */
  function PartJson(text: string): Json {
    JObj(map["text" := JStr(text)])
  }

  function PartsJson(parts: seq<string>): (r: seq<Json>)
    ensures |r| == |parts|
    ensures forall i :: 0 <= i < |parts| ==> r[i] == PartJson(parts[i])
  {
    if parts == [] then [] else [PartJson(parts[0])] + PartsJson(parts[1..])
  }

  function CandidateJson(parts: seq<string>): Json {
    JObj(map["content" := JObj(map["parts" := JArr(PartsJson(parts))])])
  }

  function CandidatesJson(cands: seq<seq<string>>): (r: seq<Json>)
    ensures |r| == |cands|
    ensures forall i :: 0 <= i < |cands| ==> r[i] == CandidateJson(cands[i])
  {
    if cands == [] then [] else [CandidateJson(cands[0])] + CandidatesJson(cands[1..])
  }

  /** A well-formed API answer: candidates, each listing the texts of its parts. */
  function ReplyJson(cands: seq<seq<string>>): Json {
    JObj(map["candidates" := JArr(CandidatesJson(cands))])
  }

  /** On a well-formed answer the reply is the first part of the first
      candidate when that text is non-empty and the fallback otherwise; every
      later candidate and every later part is ignored. */
  lemma WellFormedReplyDecoding(status: int, cands: seq<seq<string>>)
    requires IsOk(status)
    ensures FetchGeminiResponse(Response(status, Parsed(ReplyJson(cands)))).text ==
      if cands != [] && cands[0] != [] && cands[0][0] != "" then JStr(cands[0][0])
      else JStr(NoResponseText)
  {
    var data := ReplyJson(cands);
    var cs := CandidatesJson(cands);
    assert Get(data, Key("candidates")) == Some(JArr(cs));
    var text := ExtractedText(data);
    assert text == OptionalChain(Some(JArr(cs)), TextPath);
    if cands == [] {
      assert text == OptionalChain(None, TextPath[1..]);
    } else {
      var c := CandidateJson(cands[0]);
      var content := JObj(map["parts" := JArr(PartsJson(cands[0]))]);
      assert text == OptionalChain(Some(c), TextPath[1..]);
      assert text == OptionalChain(Some(content), TextPath[2..]);
      assert text == OptionalChain(Some(JArr(PartsJson(cands[0]))), TextPath[3..]);
      if cands[0] == [] {
        assert text == OptionalChain(None, TextPath[4..]);
      } else {
        assert text == OptionalChain(Some(PartJson(cands[0][0])), TextPath[4..]);
        assert text == Some(JStr(cands[0][0]));
      }
    }
  }

  /** The POST body `{ contents: [ { parts: [ { text: message } ] } ] }`. */
  function RequestBody(message: string): (r: Json)
    ensures OptionalChain(Some(r), [Key("contents"), First, Key("parts"), First, Key("text")])
      == Some(JStr(message))
  {
    var part := PartJson(message);
    var content := JObj(map["parts" := JArr([part])]);
    var r := JObj(map["contents" := JArr([content])]);
    var path := [Key("contents"), First, Key("parts"), First, Key("text")];
    assert OptionalChain(Some(r), path) == OptionalChain(Some(content), path[2..]);
    assert OptionalChain(Some(content), path[2..]) == OptionalChain(Some(part), path[4..]);
    r
  }

  /** Reads a request body back, accepting only the shape where the message is
      the only text of the only part of the only content entry. */
  function RequestMessage(body: Json): Option<string> {
    if body.JObj? && body.fields.Keys == {"contents"}
      && body.fields["contents"].JArr? && |body.fields["contents"].items| == 1
    then
      var content := body.fields["contents"].items[0];
      if content.JObj? && content.fields.Keys == {"parts"}
        && content.fields["parts"].JArr? && |content.fields["parts"].items| == 1
      then
        var part := content.fields["parts"].items[0];
        if part.JObj? && part.fields.Keys == {"text"} && part.fields["text"].JStr?
        then Some(part.fields["text"].s)
        else None
      else None
    else None
  }

  /** The body carries the message and nothing else: reading it back gives the
      message, so distinct messages give distinct bodies. */
  lemma RequestBodyRoundTrip(message: string)
    ensures RequestMessage(RequestBody(message)) == Some(message)
  {
    var part := PartJson(message);
    assert part.fields.Keys == {"text"};
    var content := JObj(map["parts" := JArr([part])]);
    assert content.fields.Keys == {"parts"};
    assert RequestBody(message).fields.Keys == {"contents"};
  }
}
