/**
 * `extractClassification`: splits an assistant reply at the first
 * "[CLASSIFICATION]" marker into the visible reply and a JSON payload whose
 * `leverage` and `object` members are read, and never throws.
 */
module Classification {
  import opened Wrappers
  import opened Text
  import opened Json

  const Marker: string := "[CLASSIFICATION]"

  /** The extractor's result: the reply shown to the user and the `leverage` and `object` fields (`None` is `null`; `object` is a Dafny keyword, hence `obj`). */
  datatype Classified = Classified(cleanReply: string, leverage: Option<Json>, obj: Option<Json>)

  /**
   * The `try` block over the payload: parse it and read `leverage` and
   * `object`, each `|| null`. Both fall back to `null` when `JSON.parse`
   * throws, and when it yields `null`, whose member access throws.
   */
  function ReadFields(jsonText: string, parse: Parser): (r: (Option<Json>, Option<Json>))
    ensures r.0.Some? <==> parse(jsonText).Some? && parse(jsonText).value.JObject?
                           && "leverage" in parse(jsonText).value.fields
                           && Truthy(parse(jsonText).value.fields["leverage"])
    ensures r.0.Some? ==> r.0.value == parse(jsonText).value.fields["leverage"]
    ensures r.1.Some? <==> parse(jsonText).Some? && parse(jsonText).value.JObject?
                           && "object" in parse(jsonText).value.fields
                           && Truthy(parse(jsonText).value.fields["object"])
    ensures r.1.Some? ==> r.1.value == parse(jsonText).value.fields["object"]
  {
    match parse(jsonText)
    case None => (None, None)
    case Some(parsed) =>
      if parsed.JNull? then (None, None)
      else (OrNull(Member(parsed, "leverage")), OrNull(Member(parsed, "object")))
  }

  /** `extractClassification(reply)`. */
  function ExtractClassification(reply: string, parse: Parser): (c: Classified)
    ensures !Contains(c.cleanReply, Marker)
    ensures !Contains(reply, Marker) ==> c == Classified(reply, None, None)
    ensures Contains(reply, Marker) ==>
      exists i: nat :: IsFirstOccurrence(reply, Marker, i)
        && c.cleanReply == Trim(reply[..i])
        && (c.leverage, c.obj) == ReadFields(Trim(reply[i + |Marker|..]), parse)
    ensures c.leverage.Some? ==> Truthy(c.leverage.value)
    ensures c.obj.Some? ==> Truthy(c.obj.value)
  {
    match IndexOf(reply, Marker)
    case None => Classified(reply, None, None)
    case Some(idx) =>
      var cleanReply := Trim(reply[..idx]);
      var jsonText := Trim(reply[idx + |Marker|..]);
      PrefixBeforeFirst(reply, Marker, idx);
      TrimKeepsAbsence(reply[..idx], Marker);
      var fields := ReadFields(jsonText, parse);
      Classified(cleanReply, fields.0, fields.1)
  }

  /**
   * The marker has no proper border (its first character, '[', occurs nowhere
   * else in it), so in `p + Marker + q` with `p` free of the marker the first
   * occurrence starts right after `p`.
   */
  lemma {:induction false} MarkerFirstAfter(p: string, q: string)
    requires !Contains(p, Marker)
    ensures IsFirstOccurrence(p + Marker + q, Marker, |p|)
  {
    var s := p + Marker + q;
    assert s[|p|..|p| + |Marker|] == Marker;
    assert s[|p|] == Marker[0] == '[';
    forall j: nat | j < |p| ensures !OccursAt(s, Marker, j) {
      if j + |Marker| <= |p| {
        assert !OccursAt(p, Marker, j);
        assert s[j..j + |Marker|] == p[j..j + |Marker|];
      } else if j + |Marker| <= |s| {
        // an occurrence at j would overlap the one at |p| and hold its '[' at k
        var k := |p| - j;
        assert s[j..j + |Marker|][k] == s[j + k] == '[';
        assert Marker[k] != '[';
      }
    }
  }

  /**
   * A reply "prefix [CLASSIFICATION] payload" whose prefix holds no marker
   * yields the trimmed prefix and the fields read from the trimmed payload.
   */
  lemma {:induction false} ExtractSplitsAtMarker(p: string, q: string, parse: Parser)
    requires !Contains(p, Marker)
    ensures var c := ExtractClassification(p + Marker + q, parse);
      c.cleanReply == Trim(p) && (c.leverage, c.obj) == ReadFields(Trim(q), parse)
  {
    var s := p + Marker + q;
    MarkerFirstAfter(p, q);
    assert s[..|p|] == p;
    assert s[|p| + |Marker|..] == q;
  }

  /**
   * A payload that does not parse, or parses to something other than an
   * object, leaves both fields `null`; the trimmed prefix is still returned.
   */
  lemma {:induction false} UnreadablePayloadFallsBack(p: string, q: string, parse: Parser)
    requires !Contains(p, Marker)
    requires parse(Trim(q)).None? || !parse(Trim(q)).value.JObject?
    ensures ExtractClassification(p + Marker + q, parse) == Classified(Trim(p), None, None)
  {
    ExtractSplitsAtMarker(p, q, parse);
  }

  /**
   * "Hello![CLASSIFICATION]{"leverage":"rapport","object":"greeting"}" gives
   * the reply "Hello!" and both fields, when the payload parses as that object.
   */
  lemma GreetingClassified(greeting: string, payload: string, parse: Parser)
    requires greeting == "Hello!"
    requires payload == "{\"leverage\":\"rapport\",\"object\":\"greeting\"}"
    requires parse(payload) == Some(JObject(map["leverage" := JString("rapport"), "object" := JString("greeting")]))
    ensures ExtractClassification(greeting + Marker + payload, parse)
      == Classified(greeting, Some(JString("rapport")), Some(JString("greeting")))
  {
    ShorterNotContains(greeting, Marker);
    assert greeting[0] == 'H' && greeting[|greeting| - 1] == '!';
    TrimOfTrimmed(greeting);
    assert payload[0] == '{' && payload[|payload| - 1] == '}';
    TrimOfTrimmed(payload);
    var m := map["leverage" := JString("rapport"), "object" := JString("greeting")];
    assert "leverage" in m && m["leverage"] == JString("rapport");
    assert "object" in m && m["object"] == JString("greeting");
    assert ReadFields(payload, parse) == (Some(JString("rapport")), Some(JString("greeting")));
    ExtractSplitsAtMarker(greeting, payload, parse);
  }
}
