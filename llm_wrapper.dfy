/** The reply parser of the language-model wrapper: a reply is newline-delimited
    JSON, one sentence object per line, possibly wrapped in a Markdown code
    fence. The model call and the JSON decoder are parameters. */
module LlmWrapper {
  import opened Wrappers
  import opened PyStr
  import opened Json
  import opened Turns

  /** The keys every sentence object must have to be kept. */
  const RequiredKeys: seq<string> :=
    ["user_emo", "text_spoken", "text_display", "emo", "act", "intensity"]

  const Fence: string := "```"

  /** `json.loads`: `None` stands for a `JSONDecodeError`. */
  type Decoder = string -> Option<Json>

  /** A line after stripping, with a code fence's backticks removed, or `None`
      when the line is skipped before decoding (blank, or a bare fence or
      ```` ```json ```` line). */
  function CleanLine(line: string): (r: Option<string>)
    ensures r.Some? ==> r.value != ""
    ensures Strip(line) == "" ==> r.None?
  {
    var l := Strip(line);
    if l == "" then None
    else if StartsWith(l, Fence) || EndsWith(l, Fence) then
      var t := Strip(StripChars(l, {'`'}));
      if t == "" || t == "json" then None else Some(t)
    else Some(l)
  }

  /** A stripped line that is not fenced reaches the decoder unchanged. */
  lemma CleanLinePlain(line: string)
    requires Strip(line) != "" && !StartsWith(Strip(line), Fence) && !EndsWith(Strip(line), Fence)
    ensures CleanLine(line) == Some(Strip(line))
  {
  }

  /** Stripping backticks and then the characters `ws` leaves a piece of the
      line that neither begins nor ends with one of `ws`, with only backticks
      and characters of `ws` cut off around it. */
  lemma FencedPiece(l: string, ws: set<char>)
    ensures var t := StripChars(StripChars(l, {'`'}), ws);
      (t != [] ==> t[0] !in ws && t[|t| - 1] !in ws) && Trimmed(l, t, {'`'} + ws)
  {
    StripCharsTwice(l, {'`'}, ws);
    StripCharsCharacterised(StripChars(l, {'`'}), ws);
  }

  /** A fenced line gives what is left between the fence characters: a
      contiguous piece of the stripped line, with only backticks and whitespace
      cut off around it, not beginning or ending with whitespace, and never the
      bare language tag `json`. */
  lemma CleanLineFenced(line: string)
    requires StartsWith(Strip(line), Fence) || EndsWith(Strip(line), Fence)
    ensures CleanLine(line).Some? ==>
      var l, t := Strip(line), CleanLine(line).value;
      t != "json" && t[0] !in Whitespace && t[|t| - 1] !in Whitespace
      && Trimmed(l, t, {'`'} + Whitespace)
  {
    var l := Strip(line);
    if CleanLine(line).Some? {
      var t := StripChars(StripChars(l, {'`'}), Whitespace);
      assert CleanLine(line) == Some(t);
      FencedPiece(l, Whitespace);
      assert t[0] !in Whitespace && t[|t| - 1] !in Whitespace;
    }
  }

  /** What the parser decodes a reply line to: nothing for a skipped line or a
      decode error, else the decoded value. */
  function DecodeLine(line: string, decode: Decoder): (r: Option<Json>)
    ensures CleanLine(line).None? ==> r.None?
    ensures CleanLine(line).Some? ==> r == decode(CleanLine(line).value)
  {
    var c := CleanLine(line);
    if c.None? then None else decode(c.value)
  }

  /** `DecodeLine` with the JSON decoder fixed, as a line decoder on its own. */
  function LineDecoder(decode: Decoder): Decoder {
    line => DecodeLine(line, decode)
  }

  predicate HasRequiredKeys(obj: JsonObject) {
    forall i | 0 <= i < |RequiredKeys| :: RequiredKeys[i] in obj
  }

  /** The sentence a decoded line contributes: an object with every required key. */
  function Sentence(value: Option<Json>): (r: Option<JsonObject>)
    ensures r.Some? <==> value.Some? && value.value.JObject? && HasRequiredKeys(value.value.fields)
    ensures r.Some? ==> value == Some(JObject(r.value))
  {
    match value
    case Some(JObject(fields)) => if HasRequiredKeys(fields) then Some(fields) else None
    case _ => None
  }

  /** The loop of `parse_ndjson_response` over lines decoded by `lineDecode`,
      as a fold from the end. */
  function ParseLines(lines: seq<string>, lineDecode: Decoder): (r: seq<JsonObject>)
    ensures |r| <= |lines|
    ensures forall i | 0 <= i < |r| :: HasRequiredKeys(r[i])
  {
    if lines == [] then []
    else
      var last := Sentence(lineDecode(lines[|lines| - 1]));
      ParseLines(lines[..|lines| - 1], lineDecode) + (if last.Some? then [last.value] else [])
  }

  /** `LLMWrapper.parse_ndjson_response`, with non-object lines skipped like
      undecodable ones. */
  function ParseNdjsonResponse(response: string, decode: Decoder): (r: seq<JsonObject>)
    ensures |r| <= |Split(Strip(response), '\n')|
  {
    ParseLines(Split(Strip(response), '\n'), LineDecoder(decode))
  }

  /** The positions of the lines that contribute a sentence, in order. */
  function KeptIndices(lines: seq<string>, lineDecode: Decoder): (r: seq<nat>)
    ensures |r| <= |lines|
    ensures forall i | 0 <= i < |r| :: r[i] < |lines|
  {
    if lines == [] then []
    else
      var rest := KeptIndices(lines[..|lines| - 1], lineDecode);
      if Sentence(lineDecode(lines[|lines| - 1])).Some? then rest + [|lines| - 1] else rest
  }

  /** The parsed sentences are exactly the kept lines' objects, in line order:
      the output is the subsequence of the lines whose decoded value is a
      sentence object. */
  lemma {:induction false} ParseLinesSelects(lines: seq<string>, lineDecode: Decoder)
    ensures var r := ParseLines(lines, lineDecode);
            var idx := KeptIndices(lines, lineDecode);
            |r| == |idx|
            && (forall i, j | 0 <= i < j < |idx| :: idx[i] < idx[j])
            && (forall i | 0 <= i < |idx| :: Sentence(lineDecode(lines[idx[i]])) == Some(r[i]))
            && (forall j | 0 <= j < |lines| :: j in idx <==> Sentence(lineDecode(lines[j])).Some?)
  {
    if lines != [] {
      var init := lines[..|lines| - 1];
      ParseLinesSelects(init, lineDecode);
      var idx0 := KeptIndices(init, lineDecode);
      forall i | 0 <= i < |idx0| ensures lines[idx0[i]] == init[idx0[i]] { }
      forall j | 0 <= j < |init| ensures lines[j] == init[j] { }
    }
  }

  /** Parsing distributes over a split of the line sequence. */
  lemma {:induction false} ParseLinesConcat(a: seq<string>, b: seq<string>, lineDecode: Decoder)
    ensures ParseLines(a + b, lineDecode) == ParseLines(a, lineDecode) + ParseLines(b, lineDecode)
  {
    if b != [] {
      var b0 := b[..|b| - 1];
      ParseLinesConcat(a, b0, lineDecode);
      assert (a + b)[..|a + b| - 1] == a + b0;
      assert (a + b)[|a + b| - 1] == b[|b| - 1];
    } else {
      assert a + b == a;
    }
  }

  /** `LLMWrapper.generate_and_parse`: the model's reply, parsed; a failing
      model call is passed on to the caller. */
  function GenerateAndParse(messages: seq<ChatMessage>, generate: seq<ChatMessage> -> Result<string>,
                            decode: Decoder): (r: Result<seq<JsonObject>>)
    ensures r.Failure? <==> generate(messages).Failure?
    ensures r.Success? ==> r.value == ParseNdjsonResponse(generate(messages).value, decode)
  {
    var reply := generate(messages);
    if reply.Failure? then Failure(reply.error) else Success(ParseNdjsonResponse(reply.value, decode))
  }

  // ----- The parser as written -----

  /** Python's `key in value` for a decoded JSON value: key lookup in an object,
      element equality in an array, substring search in a string, and a
      `TypeError` for a number, a boolean or `null`. */
  function KeyInAsWritten(key: string, value: Json): (r: Result<bool>)
    ensures r.Failure? <==> value.JNum? || value.JBool? || value.JNull?
    ensures value.JObject? ==> r == Success(key in value.fields)
  {
    match value
    case JObject(fields) => Success(key in fields)
    case JArray(items) => Success(JStr(key) in items)
    case JStr(s) => Success(Contains(s, key))
    case _ => Failure("TypeError")
  }

  /** `all(key in sentence for key in required_keys)`. */
  function AllKeysInAsWritten(keys: seq<string>, value: Json): (r: Result<bool>)
  {
    if keys == [] then Success(true)
    else
      var first := KeyInAsWritten(keys[0], value);
      if first.Failure? then first
      else if !first.value then Success(false)
      else AllKeysInAsWritten(keys[1..], value)
  }

  /** One decoded line as the source handles it: only a decode error is caught. */
  function SentenceAsWritten(value: Option<Json>): (r: Result<Option<Json>>)
  {
    match value
    case None => Success(None)
    case Some(v) =>
      var ok := AllKeysInAsWritten(RequiredKeys, v);
      if ok.Failure? then Failure(ok.error)
      else if ok.value then Success(Some(v))
      else Success(None)
  }

  function ParseLinesAsWritten(lines: seq<string>, lineDecode: Decoder): (r: Result<seq<Json>>)
  {
    if lines == [] then Success([])
    else
      var init := ParseLinesAsWritten(lines[..|lines| - 1], lineDecode);
      var last := SentenceAsWritten(lineDecode(lines[|lines| - 1]));
      if init.Failure? then init
      else if last.Failure? then Failure(last.error)
      else Success(init.value + (if last.value.Some? then [last.value.value] else []))
  }

  /** `parse_ndjson_response` exactly as written. */
  function ParseNdjsonAsWritten(response: string, decode: Decoder): (r: Result<seq<Json>>)
  {
    ParseLinesAsWritten(Split(Strip(response), '\n'), LineDecoder(decode))
  }

  /** `all(...)` on an object is the required-keys check. */
  lemma {:induction false} AllKeysInObject(keys: seq<string>, fields: JsonObject)
    ensures AllKeysInAsWritten(keys, JObject(fields))
         == Success(forall i | 0 <= i < |keys| :: keys[i] in fields)
  {
    if keys != [] {
      AllKeysInObject(keys[1..], fields);
      assert forall i | 1 <= i < |keys| :: keys[i] == keys[1..][i - 1];
    }
  }

  /** Where every line decodes to an object or not at all, the code as written
      keeps the same sentences as the corrected parser. */
  lemma {:induction false} AsWrittenAgreesOnObjects(lines: seq<string>, lineDecode: Decoder)
    requires forall i | 0 <= i < |lines| :: lineDecode(lines[i]).None? || lineDecode(lines[i]).value.JObject?
    ensures var w := ParseLinesAsWritten(lines, lineDecode);
            var r := ParseLines(lines, lineDecode);
            w.Success? && |w.value| == |r| && forall i | 0 <= i < |r| :: w.value[i] == JObject(r[i])
  {
    if lines != [] {
      var init := lines[..|lines| - 1];
      var v := lineDecode(lines[|lines| - 1]);
      assert forall i | 0 <= i < |init| :: init[i] == lines[i];
      AsWrittenAgreesOnObjects(init, lineDecode);
      if v.Some? {
        AllKeysInObject(RequiredKeys, v.value.fields);
      }
    }
  }

  /** Asking for a key in a number, a boolean or `null` raises. */
  lemma AllKeysInScalar(keys: seq<string>, value: Json)
    requires keys != []
    requires value.JNum? || value.JBool? || value.JNull?
    ensures AllKeysInAsWritten(keys, value).Failure?
  {
    assert KeyInAsWritten(keys[0], value).Failure?;
  }

  /** `str.strip` leaves `"42"` alone, and it is a single unfenced line. */
  lemma StripFortyTwo()
    ensures Split(Strip("42"), '\n') == ["42"]
    ensures CleanLine("42") == Some("42")
  {
    assert '4' !in Whitespace && '2' !in Whitespace;
    assert StripLeft("42", Whitespace) == "42";
    assert StripRight("42", Whitespace) == "42";
    SplitNoSeparator("42", '\n');
    assert !StartsWith("42", Fence) && !EndsWith("42", Fence);
  }

  /** A reply line holding a bare JSON number makes the code as written raise a
      `TypeError` (for any decoder that decodes it as a number), where skipping
      it was evidently intended. */
  lemma AsWrittenRaisesOnNumber(decode: Decoder)
    requires decode("42") == Some(JNum(42.0))
    ensures ParseNdjsonAsWritten("42", decode).Failure?
    ensures ParseNdjsonResponse("42", decode) == []
  {
    StripFortyTwo();
    var ld := LineDecoder(decode);
    assert ld("42") == Some(JNum(42.0));
    AllKeysInScalar(RequiredKeys, JNum(42.0));
    assert ["42"][..0] == [];
    assert ParseLinesAsWritten(["42"], ld).Failure?;
    assert ParseLines(["42"], ld) == [];
  }
}
