/** The configuration document as the loader sees it: an abstract JSON value
    rather than bytes. The on-demand parser the program uses discovers some
    errors only when a value is inspected; a value whose type cannot be read
    (or whose object key cannot be unescaped) is `JMalformed`. A scalar
    whose type reads but whose contents do not has no counterpart here. A
    document the parser rejects outright is `Unparsable`.

    Each value remembers where its raw token starts and the raw token text,
    from which the span an error points at is computed. */
module Json {
  import opened Lex

  /** Whitespace as section 2 of RFC 8259 defines it: tab, line feed,
      carriage return and space. */
  predicate IsJsonWhitespace(ch: char)
  {
    ch == '\t' || ch == '\n' || ch == '\r' || ch == ' '
  }

  /** Some character of `s` is not whitespace. */
  predicate HasNonWhitespace(s: string)
    decreases |s|
  {
    |s| > 0 && (!IsJsonWhitespace(s[|s| - 1]) || HasNonWhitespace(s[..|s| - 1]))
  }

  /** `HasNonWhitespace` holds exactly when some character is not
      whitespace. */
  lemma {:induction false} HasNonWhitespaceIff(s: string)
    ensures HasNonWhitespace(s) <==> exists i :: 0 <= i < |s| && !IsJsonWhitespace(s[i])
    decreases |s|
  {
    if |s| > 0 {
      var init := s[..|s| - 1];
      HasNonWhitespaceIff(init);
      assert forall i :: 0 <= i < |init| ==> init[i] == s[i];
      if IsJsonWhitespace(s[|s| - 1]) && exists i :: 0 <= i < |s| && !IsJsonWhitespace(s[i]) {
        var i :| 0 <= i < |s| && !IsJsonWhitespace(s[i]);
        assert init[i] == s[i];
      }
    }
  }

  /** A value's raw token always starts at the value itself, so it holds at
      least one character that is not whitespace. */
  type RawToken = s: string | HasNonWhitespace(s) witness "0"

  datatype JsonValue = JsonValue(at: nat, raw: RawToken, data: JsonData)

  datatype JsonData =
    | JNull
    | JBool(b: bool)
    | JNumber
    | JString(s: string)
    | JArray(items: seq<JsonValue>)
    | JObject(fields: seq<JsonField>)
    | JMalformed

  datatype JsonField = JsonField(key: string, value: JsonValue)

  /** The outcome of looking a key up in an object. */
  datatype JsonLookup = Missing | Present(value: JsonValue)

  datatype JsonDocument = Unparsable | Document(root: JsonValue)

  /** Looks `key` up among an object's fields; the first field with that
      key wins. */
  function FindField(fields: seq<JsonField>, key: string): (r: JsonLookup)
    ensures r.Missing? <==> forall i :: 0 <= i < |fields| ==> fields[i].key != key
  {
    if |fields| == 0 then Missing
    else if fields[0].key == key then Present(fields[0].value)
    else
      assert forall i :: 1 <= i < |fields| ==> fields[i] == fields[1..][i - 1];
      FindField(fields[1..], key)
  }

  /** What `FindField` finds is the value of the first field with the key. */
  lemma {:induction false} FindFieldFindsFirst(fields: seq<JsonField>, key: string)
    requires FindField(fields, key).Present?
    ensures exists i :: 0 <= i < |fields| && fields[i] == JsonField(key, FindField(fields, key).value)
                        && forall j :: 0 <= j < i ==> fields[j].key != key
  {
    if fields[0].key != key {
      FindFieldFindsFirst(fields[1..], key);
      var k :| 0 <= k < |fields[1..]| && fields[1..][k] == JsonField(key, FindField(fields, key).value)
               && forall j :: 0 <= j < k ==> fields[1..][j].key != key;
      assert fields[k + 1] == fields[1..][k];
      forall j | 0 <= j < k + 1
        ensures fields[j].key != key
      {
        if j > 0 {
          assert fields[j] == fields[1..][j - 1];
        }
      }
    }
  }

  /** Drops the trailing whitespace of `sv`. What is kept is a prefix that
      ends in a character that is not whitespace, and everything dropped is
      whitespace. */
  function RemoveTrailingJsonWhitespace(sv: string): (r: string)
    requires HasNonWhitespace(sv)
    ensures 0 < |r| <= |sv|
    ensures r == sv[..|r|]
    ensures !IsJsonWhitespace(r[|r| - 1])
    ensures forall i :: |r| <= i < |sv| ==> IsJsonWhitespace(sv[i])
    decreases |sv|
  {
    if IsJsonWhitespace(sv[|sv| - 1]) then
      var shorter := sv[..|sv| - 1];
      var r := RemoveTrailingJsonWhitespace(shorter);
      assert r == sv[..|r|] by {
        assert shorter[..|r|] == sv[..|r|];
      }
      assert forall i :: |r| <= i < |sv| - 1 ==> sv[i] == shorter[i];
      r
    else
      sv
  }

  /** The span an error about `v` points at: its raw token without the
      trailing whitespace. It starts at the value, is never empty, ends on a
      character that is not whitespace, and only whitespace follows it in the
      raw token. */
  function SpanOfJsonValue(v: JsonValue): (r: SourceSpan)
    ensures r.begin == v.at
    ensures v.at < r.end <= v.at + |v.raw|
    ensures !IsJsonWhitespace(v.raw[r.end - v.at - 1])
    ensures forall i :: r.end - v.at <= i < |v.raw| ==> IsJsonWhitespace(v.raw[i])
  {
    var trimmed := RemoveTrailingJsonWhitespace(v.raw);
    assert v.raw[|trimmed| - 1] == trimmed[|trimmed| - 1];
    SourceSpan(v.at, v.at + |trimmed|)
  }

  /** Trimming twice is trimming once. */
  lemma RemoveTrailingJsonWhitespaceIdempotent(sv: string)
    requires HasNonWhitespace(sv)
    ensures HasNonWhitespace(RemoveTrailingJsonWhitespace(sv))
    ensures RemoveTrailingJsonWhitespace(RemoveTrailingJsonWhitespace(sv)) == RemoveTrailingJsonWhitespace(sv)
  {
    var r := RemoveTrailingJsonWhitespace(sv);
    assert !IsJsonWhitespace(r[|r| - 1]);
  }
}
