/** The reply handling of `analyze_tooth_image`: from the HTTP status, the response
    body and the model's reply text to either the decoded analysis or one of three
    error records. The request itself is not modelled; its outcome is the input. */
module Analysis {
  import opened Wrappers
  import opened Json
  import opened Text

  const NoJsonMessage: string := "No valid JSON found in response"
  const ParseErrorMessage: string := "Failed to parse JSON response"
  const StatusPrefix: string := "API request failed with status "

  /** Which way the reply went. */
  datatype Reply =
    | Decoded(obj: Object)                   // the JSON slice decoded
    | NoJsonFound(raw: string)               // no `{` or no `}` in the reply text
    | ParseFailed(raw: string)               // the slice did not decode
    | StatusFailed(status: int, details: string)  // the status was not 200

  /** The error message for a failed status: the status code in decimal after a fixed prefix. */
  function StatusMessage(status: int): (m: string)
    ensures |StatusPrefix| < |m| && m[..|StatusPrefix|] == StatusPrefix
  {
    StatusPrefix + IntToString(status)
  }

  /** The candidate JSON text: from the first `{` through the last `}`, with Python's
      slice semantics (empty when the last `}` comes before the first `{`);
      `None` when either character is missing. */
  function JsonSlice(content: string): (r: Option<string>)
    ensures r.None? <==> '{' !in content || '}' !in content
    ensures forall i, j :: r.Some? && FirstAt(content, '{', i) && LastAt(content, '}', j) ==>
              r.value == if i <= j then content[i..j + 1] else []
  {
    var start := Find(content, '{');
    var end := RFind(content, '}') + 1;
    if start != -1 && end != 0 then
      assert forall i, j :: FirstAt(content, '{', i) && LastAt(content, '}', j) ==>
               PySlice(content, start, end) == if i <= j then content[i..j + 1] else [] by {
        forall i, j | FirstAt(content, '{', i) && LastAt(content, '}', j)
          ensures PySlice(content, start, end) == if i <= j then content[i..j + 1] else []
        {
          FirstAtUnique(content, '{', i, start);
          LastAtUnique(content, '}', j, end - 1);
        }
      }
      Some(PySlice(content, start, end))
    else
      None
  }

  /** The outcome of the reply handling. Only status 200 is a success; then the
      slice is decoded, and a missing brace or a decoding failure keeps the reply text. */
  function AnalyzeReply(status: int, body: string, content: string, decode: Decoder): (r: Reply)
    ensures status != 200 ==> r == StatusFailed(status, body)
    ensures status == 200 && ('{' !in content || '}' !in content) ==> r == NoJsonFound(content)
    ensures status == 200 && '{' in content && '}' in content ==>
              forall i, j :: FirstAt(content, '{', i) && LastAt(content, '}', j) ==>
                var slice := if i <= j then content[i..j + 1] else [];
                r == match decode(slice)
                     case Some(obj) => Decoded(obj)
                     case None => ParseFailed(content)
  {
    if status == 200 then
      match JsonSlice(content)
      case None => NoJsonFound(content)
      case Some(slice) =>
        match decode(slice)
        case Some(obj) => Decoded(obj)
        case None => ParseFailed(content)
    else
      StatusFailed(status, body)
  }

  /** The dictionary `analyze_tooth_image` returns for a reply. */
  function Record(r: Reply): (a: Object)
    ensures r.Decoded? ==> a == r.obj
    ensures !r.Decoded? ==> "error" in a && a["error"].Str?
    ensures r.NoJsonFound? || r.ParseFailed? ==> "raw_response" in a && a["raw_response"] == Str(r.raw)
    ensures r.StatusFailed? ==> "details" in a && a["details"] == Str(r.details) && "raw_response" !in a
    ensures r.NoJsonFound? ==> a == map["error" := Str(NoJsonMessage), "raw_response" := Str(r.raw)]
    ensures r.ParseFailed? ==> a == map["error" := Str(ParseErrorMessage), "raw_response" := Str(r.raw)]
    ensures r.StatusFailed? ==> a == map["error" := Str(StatusMessage(r.status)), "details" := Str(r.details)]
  {
    match r
    case Decoded(obj) => obj
    case NoJsonFound(raw) => map["error" := Str(NoJsonMessage), "raw_response" := Str(raw)]
    case ParseFailed(raw) => map["error" := Str(ParseErrorMessage), "raw_response" := Str(raw)]
    case StatusFailed(status, details) => map["error" := Str(StatusMessage(status)), "details" := Str(details)]
  }

  /** `analyze_tooth_image` after the request: the dictionary for the reply. */
  function AnalyzeToothImage(status: int, body: string, content: string, decode: Decoder): (a: Object)
    ensures status != 200 ==> "error" in a && "details" in a && a["details"] == Str(body)
    ensures status == 200 && ('{' !in content || '}' !in content) ==>
              a == map["error" := Str(NoJsonMessage), "raw_response" := Str(content)]
  {
    Record(AnalyzeReply(status, body, content, decode))
  }

  /** Downstream code treats any dictionary with an `"error"` key as a failure. */
  predicate IsFailure(a: Object) {
    "error" in a
  }

  // ---------------------------------------------------------------------------
  // Properties
  // ---------------------------------------------------------------------------

  /** A failure downstream is exactly an error record, or a decoded reply that itself
      carries an `"error"` key. */
  lemma FailureDispatch(r: Reply)
    ensures IsFailure(Record(r)) <==> !r.Decoded? || "error" in r.obj
  {
  }

  /** A non-empty slice starts at the first `{` and ends at the last `}` of the reply
      text; nothing of the text between them is dropped. */
  lemma SliceShape(content: string)
    requires JsonSlice(content).Some? && JsonSlice(content).value != []
    ensures var slice := JsonSlice(content).value;
            && slice[0] == '{' && slice[|slice| - 1] == '}'
            && OccursAt(content, slice, Find(content, '{'))
            && '{' !in content[..Find(content, '{')]
            && '}' !in content[Find(content, '{') + |slice|..]
  {
    var i := Find(content, '{');
    var j := RFind(content, '}');
    var slice := JsonSlice(content).value;
    assert slice == if i <= j then content[i..j + 1] else [];
  }

  /** When the last `}` comes before the first `{` the slice is empty, and a decoder
      that rejects the empty text makes it a parse failure carrying the reply text,
      never a success. */
  lemma ReversedBracesFail(status: int, body: string, content: string, decode: Decoder, i: int, j: int)
    requires status == 200
    requires FirstAt(content, '{', i) && LastAt(content, '}', j) && j < i
    requires RejectsEmpty(decode)
    ensures JsonSlice(content) == Some([])
    ensures AnalyzeReply(status, body, content, decode) == ParseFailed(content)
    ensures AnalyzeToothImage(status, body, content, decode) ==
            map["error" := Str(ParseErrorMessage), "raw_response" := Str(content)]
  {
    assert '{' in content && '}' in content by {
      assert content[i] == '{' && content[j] == '}';
    }
  }

  /** A slice the decoder rejects, braces in order or not, gives the parse-failure record
      carrying the whole reply text. */
  lemma UndecodableSliceFails(body: string, content: string, decode: Decoder)
    requires JsonSlice(content).Some? && decode(JsonSlice(content).value) == None
    ensures AnalyzeToothImage(200, body, content, decode) ==
            map["error" := Str(ParseErrorMessage), "raw_response" := Str(content)]
  {
  }

  /** A status other than 200 gives an error whose message ends in the decimal status
      code, which reads back as that code, and whose details are the response body. */
  lemma StatusFailureCarriesCode(status: int, body: string, content: string, decode: Decoder)
    requires status != 200
    ensures var a := AnalyzeToothImage(status, body, content, decode);
            && a == map["error" := Str(StatusMessage(status)), "details" := Str(body)]
            && var code := a["error"].s[|StatusPrefix|..];
               && |code| > 0
               && (code[0] == '-' ==> IsDigits(code[1..]))
               && (code[0] != '-' ==> IsDigits(code))
               && ParseInt(code) == status
  {
    var m := StatusMessage(status);
    assert m[|StatusPrefix|..] == IntToString(status);
    ParseIntToString(status);
  }

  /** A successful decode is passed on unchanged: no key is added, removed or altered. */
  lemma DecodedVerbatim(body: string, content: string, decode: Decoder, obj: Object)
    requires JsonSlice(content).Some? && decode(JsonSlice(content).value) == Some(obj)
    ensures AnalyzeToothImage(200, body, content, decode) == obj
  {
  }

  /** A reply that is exactly one JSON object is decoded whole. */
  lemma WholeReplyDecoded(content: string)
    requires |content| >= 2 && content[0] == '{' && content[|content| - 1] == '}'
    ensures JsonSlice(content) == Some(content)
  {
    assert FirstAt(content, '{', 0);
    assert LastAt(content, '}', |content| - 1);
    assert content[0..|content|] == content;
  }

  /** Prose around the object is ignored: only the braces and what lies between them are decoded. */
  lemma ProseIgnored(before: string, json: string, after: string)
    requires '{' !in before && '}' !in after
    requires |json| >= 2 && json[0] == '{' && json[|json| - 1] == '}'
    ensures JsonSlice(before + json + after) == Some(json)
  {
    var s := before + json + after;
    var i := |before|;
    var j := |before| + |json| - 1;
    assert s[..i] == before;
    assert s[j + 1..] == after;
    assert s[i] == '{' && s[j] == '}';
    assert FirstAt(s, '{', i) && LastAt(s, '}', j);
    assert s[i..j + 1] == json;
  }
}
