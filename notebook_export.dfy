/** The response-size control of the notebook export tool: exported content
    longer than 1000 characters is replaced by its first 1000 characters and
    a marker giving the original length. */
module NotebookExport {
  import opened Json
  import opened Decimal

  const Limit: nat := 1000
  const MarkerHead: string := "... [content truncated, total length: "
  const MarkerTail: string := " characters]"

  /** The marker that follows the kept prefix, naming the original length. */
  function Marker(n: nat): string
  {
    MarkerHead + NatToString(n) + MarkerTail
  }

  /** The replacement for a string longer than the limit. */
  function Summary(content: string): string
    requires |content| > Limit
  {
    content[..Limit] + Marker(|content|)
  }

  /** `str(e)` of the KeyError raised by `content[:1000]` on a dict
      (Python 3.12 and later, where slices are hashable). */
  const SliceKeyErrorMessage: string := "slice(None, 1000, None)"

  /** `str(e)` of the AttributeError raised by `result.get` on a non-dict. */
  function NoGetMessage(v: JsonValue): string
  {
    "'" + TypeName(v) + "' object has no attribute 'get'"
  }

  /** The export result after the truncation step, or the message of the
      exception that step raises. `pyStr` is Python's `str()` of a value,
      which the f-string applies to a list prefix; it is not modelled. */
  function Truncated(result: JsonValue, pyStr: JsonValue -> string): Result
  {
    if !result.Object? then Err(NoGetMessage(result))
    else
      var content := if "content" in result.fields then result.fields["content"] else Str("");
      match Len(content)
      case None => Err(NoLenMessage(content))
      case Some(n) =>
        if n <= Limit then Ok(result)
        else if content.Str? then Ok(Object(result.fields["content" := Str(Summary(content.s))]))
        else if content.List? then Ok(Object(result.fields["content" := Str(pyStr(List(content.items[..Limit])) + Marker(n))]))
        else Err(SliceKeyErrorMessage)
  }

  /** The step itself, rewriting the result's `content` entry in place. */
  method TruncateContent(result: JsonValue, pyStr: JsonValue -> string) returns (r: Result)
    ensures r == Truncated(result, pyStr)
  {
    if !result.Object? {
      return Err(NoGetMessage(result));
    }
    var fields := result.fields;
    var content := if "content" in fields then fields["content"] else Str("");
    var len := Len(content);
    if len.None? {
      return Err(NoLenMessage(content));
    }
    if len.value > Limit {
      var summary;
      if content.Str? {
        summary := Summary(content.s);
      } else if content.List? {
        summary := pyStr(List(content.items[..Limit])) + Marker(len.value);
      } else {
        return Err(SliceKeyErrorMessage);
      }
      fields := fields["content" := Str(summary)];
    }
    r := Ok(Object(fields));
  }

  // ---- What the step promises ----

  /** A result without a `content` entry passes unchanged (the default ""
      has length 0), and no `content` entry is added. */
  lemma TruncatedWithoutContent(result: JsonValue, pyStr: JsonValue -> string)
    requires result.Object? && "content" !in result.fields
    ensures Truncated(result, pyStr) == Ok(result)
    ensures "content" !in Truncated(result, pyStr).value.fields
  {
  }

  /** Content whose length is at most 1000, 1000 included, passes
      unchanged: a string of at most 1000 characters, or a list or dict of at
      most 1000 entries. */
  lemma TruncatedShortContent(result: JsonValue, pyStr: JsonValue -> string)
    requires result.Object? && "content" in result.fields
    requires Len(result.fields["content"]).Some? && Len(result.fields["content"]).value <= Limit
    ensures Truncated(result, pyStr) == Ok(result)
  {
  }

  /** Longer content becomes its first 1000 characters followed by the
      marker with the original length in decimal; every other entry keeps
      its value and no entry is added or removed. */
  lemma TruncatedLongContent(result: JsonValue, pyStr: JsonValue -> string)
    requires result.Object? && "content" in result.fields
    requires result.fields["content"].Str? && |result.fields["content"].s| > Limit
    ensures var s := result.fields["content"].s;
            var r := Truncated(result, pyStr);
            && r.Ok? && r.value.Object?
            && r.value.fields.Keys == result.fields.Keys
            && r.value.fields["content"]
               == Str(s[..1000] + "... [content truncated, total length: " + NatToString(|s|) + " characters]")
            && forall k :: k in result.fields && k != "content" ==> r.value.fields[k] == result.fields[k]
  {
  }

  /** A content entry Python cannot take the length of (None, a bool, a
      number) raises a TypeError, which the tool reports as an error. */
  lemma TruncatedContentWithoutLength(result: JsonValue, pyStr: JsonValue -> string)
    requires result.Object? && "content" in result.fields
    requires var c := result.fields["content"]; c.Null? || c.Bool? || c.Int?
    ensures Truncated(result, pyStr).Err?
  {
  }

  /** The truncated text is exactly 1050 characters plus the digits of the
      original length: 1000 kept, 38 of marker head, 12 of marker tail. */
  lemma SummaryLength(content: string)
    requires |content| > Limit
    ensures |Summary(content)| == 1050 + NumDigits(|content|)
  {
    NatToStringShape(|content|);
  }

  /** The kept prefix is the original's first 1000 characters. */
  lemma SummaryKeepsPrefix(content: string)
    requires |content| > Limit
    ensures |Summary(content)| > Limit && Summary(content)[..Limit] == content[..Limit]
  {
  }

  /** A 1500-character export becomes 1054 characters, with "1500" in its marker. */
  lemma SummaryOf1500(content: string)
    requires |content| == 1500
    ensures |Summary(content)| == 1054
    ensures Summary(content)[1038..1042] == "1500"
  {
  }

  /** The original length as written in a truncated text's marker, if the
      text has the marker's shape after its first 1000 characters. */
  function RecoverLength(text: string): Option<nat>
  {
    var head, tail := Limit + |MarkerHead|, |text| - |MarkerTail|;
    if |text| >= head + |MarkerTail|
       && text[Limit..head] == MarkerHead
       && text[tail..] == MarkerTail
       && AllDigits(text[head..tail])
    then Some(ParseNat(text[head..tail]))
    else None
  }

  /** The marker is faithful: the original length can be read back from
      the truncated text. */
  lemma SummaryRecoversLength(content: string)
    requires |content| > Limit
    ensures RecoverLength(Summary(content)) == Some(|content|)
  {
    var digits := NatToString(|content|);
    var text := Summary(content);
    ParseNatToString(|content|);
    var head, tail := Limit + |MarkerHead|, |text| - |MarkerTail|;
    assert text == content[..Limit] + MarkerHead + digits + MarkerTail;
    assert text[Limit..head] == MarkerHead;
    assert text[head..tail] == digits;
    assert text[tail..] == MarkerTail;
  }
}
