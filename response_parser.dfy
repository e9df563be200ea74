/**
 * The response normaliser `_parse_bedrock_response` of scripts/bedrock_utils.py.
 *
 * `json.loads(resp_text)` is a parameter: `None` when the text is not JSON,
 * `Some(v)` for the value it parses to. The result is the Python value the
 * function returns, usually but not always a string, or the text of the
 * exception it raises when `.get` is called on a first choice or a first
 * output that is not a dict.
 */
module ResponseParser {
  import opened Wrappers
  import opened Strings
  import opened Json

  /** `str(e)` for the `AttributeError` that `x.get(...)` raises when `x` is not a dict. */
  function NoGetError(j: Json): string {
    "'" + TypeName(j) + "' object has no attribute 'get'"
  }

  /** A content item that the loop over `outputs[0].content` takes its answer from. */
  predicate HasText(c: Json) {
    c.Obj? && Has(c.fields, "text")
  }

  /**
   * The loop over `content`: the first item that is a dict with a "text" key
   * gives its text value. The loop's second test, a dict with a "type" key and
   * a truthy "text", is kept as written; it never decides the result.
   */
  function FindText(content: seq<Json>): (r: Option<Json>)
    ensures r.None? <==> forall k :: 0 <= k < |content| ==> !HasText(content[k])
    ensures forall k :: 0 <= k < |content| && HasText(content[k]) &&
                        (forall m :: 0 <= m < k ==> !HasText(content[m])) ==>
      r == Some(Get(content[k].fields, "text"))
  {
    if |content| == 0 then None
    else
      var rest := FindText(content[1..]);
      assert forall k :: 1 <= k < |content| ==> content[1..][k - 1] == content[k];
      match content[0]
      case Obj(f) =>
        if Has(f, "text") then Some(Lookup(f, "text").value)
        else if Has(f, "type") && Truthy(Get(f, "text")) then Some(Get(f, "text"))
        else rest
      case _ => rest
  }

  /** The second test of the content loop only passes items the first test already takes. */
  lemma TypedTextTestSubsumed(c: Json)
    requires c.Obj? && Has(c.fields, "type") && Truthy(Get(c.fields, "text"))
    ensures HasText(c)
  {
  }

  /** `parsed[key]` is present, a list, and not empty. */
  predicate NonEmptyList(fields: seq<Field>, key: string) {
    var v := Lookup(fields, key);
    v.Some? && v.value.Arr? && |v.value.items| > 0
  }

  /**
   * The choices shape gives nothing: "choices" is missing, not a list or
   * empty, or the first choice is a dict whose message is neither a dict nor
   * a string.
   */
  predicate ChoicesGiveNothing(fields: seq<Field>) {
    || !NonEmptyList(fields, "choices")
    || (var first := Lookup(fields, "choices").value.items[0];
        first.Obj? && !ChoiceMessage(first.fields).Obj? && !ChoiceMessage(first.fields).Str?)
  }

  /**
   * The outputs shape gives nothing: "outputs" is missing, not a list or
   * empty, or the first output is a dict whose "content" is not a non-empty list.
   */
  predicate OutputsGiveNothing(fields: seq<Field>) {
    || !NonEmptyList(fields, "outputs")
    || (var out0 := Lookup(fields, "outputs").value.items[0];
        out0.Obj? && !(Get(out0.fields, "content").Arr? && |Get(out0.fields, "content").items| > 0))
  }

  /**
   * Shape 1, `{"choices": [first, ...]}`: `Success(Some(v))` returns `v`,
   * `Success(None)` goes on to the next shape, `Failure(e)` raises. The shape
   * gives nothing exactly when "choices" is missing, not a list or empty, or
   * when the first choice's message is neither a dict nor a string; it raises
   * exactly when the first choice is not a dict.
   */
  function FromChoices(fields: seq<Field>): (r: Result<Option<Json>, string>)
    ensures r == Success(None) <==> ChoicesGiveNothing(fields)
    ensures !NonEmptyList(fields, "choices") ==> r == Success(None)
    ensures NonEmptyList(fields, "choices") ==>
      var first := Lookup(fields, "choices").value.items[0];
      && (!first.Obj? ==> r == Failure(NoGetError(first)))
      && (first.Obj? ==>
            var msg := ChoiceMessage(first.fields);
            && r.Success?
            && (r.value.None? <==> !msg.Obj? && !msg.Str?)
            && (msg.Str? ==> r.value == Some(msg)))
  {
    var choices := Lookup(fields, "choices");
    if !(choices.Some? && choices.value.Arr? && |choices.value.items| > 0) then Success(None)
    else
      match choices.value.items[0]
      case Obj(first) =>
        var msg := ChoiceMessage(first);
        (match msg
         case Obj(m) => Success(Some(Or(Or(Get(m, "content"), Get(m, "text")), Str(PyStr(msg)))))
         case Str(_) => Success(Some(msg))
         case _ => Success(None))
      case other => Failure(NoGetError(other))
  }

  /**
   * Shape 2, `{"outputs": [{"content": [item, ...]}, ...]}`, with the same
   * reading of the result. The shape gives nothing exactly when "outputs" is
   * missing, not a list or empty, or when the first output's "content" is not
   * a non-empty list; it raises exactly when the first output is not a dict.
   */
  function FromOutputs(fields: seq<Field>): (r: Result<Option<Json>, string>)
    ensures r == Success(None) <==> OutputsGiveNothing(fields)
    ensures !NonEmptyList(fields, "outputs") ==> r == Success(None)
    ensures NonEmptyList(fields, "outputs") ==>
      var out0 := Lookup(fields, "outputs").value.items[0];
      && (!out0.Obj? ==> r == Failure(NoGetError(out0)))
      && (out0.Obj? ==>
            var content := Get(out0.fields, "content");
            r.Success? && (r.value.None? <==> !(content.Arr? && |content.items| > 0)))
  {
    var outputs := Lookup(fields, "outputs");
    if !(outputs.Some? && outputs.value.Arr? && |outputs.value.items| > 0) then Success(None)
    else
      match outputs.value.items[0]
      case Obj(out0) =>
        var content := Get(out0, "content");
        if !(content.Arr? && |content.items| > 0) then Success(None)
        else
          (match FindText(content.items)
           case Some(v) => Success(Some(v))
           case None =>
             Success(Some(Str(Join(" ", seq(|content.items|, i requires 0 <= i < |content.items| =>
                                                PyStr(content.items[i])))))))
      case other => Failure(NoGetError(other))
  }

  /**
   * Shape 3: the first of the keys "generated_text", "output", "text" that is
   * present. It gives nothing exactly when none of them is present, and what
   * it gives is the value of one of them.
   */
  function FromTopLevel(fields: seq<Field>): (r: Option<Json>)
    ensures r.None? <==> !Has(fields, "generated_text") && !Has(fields, "output") && !Has(fields, "text")
    ensures r.Some? ==> exists k :: 0 <= k < |fields| && fields[k].value == r.value &&
                                    (fields[k].key == "generated_text" || fields[k].key == "output" ||
                                     fields[k].key == "text")
  {
    if Has(fields, "generated_text") then Lookup(fields, "generated_text")
    else if Has(fields, "output") then Lookup(fields, "output")
    else if Has(fields, "text") then Lookup(fields, "text")
    else None
  }

  /** `_parse_bedrock_response(resp_text)` where `json.loads(resp_text)` gave `parsed`. */
  function ParseBedrockResponse(respText: string, parsed: Option<Json>): (r: Result<Json, string>)
    ensures parsed.None? ==> r == Success(Str(respText))
    ensures parsed.Some? && !parsed.value.Obj? ==> r == Success(Str(Dumps(parsed.value)))
    ensures r.Failure? ==> parsed.Some? && parsed.value.Obj?
  {
    match parsed
    case None => Success(Str(respText))
    case Some(p) =>
      if !p.Obj? then Success(Str(Dumps(p)))
      else
        var choice := FromChoices(p.fields);
        if choice.Failure? then Failure(choice.error)
        else if choice.value.Some? then Success(choice.value.value)
        else
          var output := FromOutputs(p.fields);
          if output.Failure? then Failure(output.error)
          else if output.value.Some? then Success(output.value.value)
          else
            var top := FromTopLevel(p.fields);
            if top.Some? then Success(top.value) else Success(Str(Dumps(p)))
  }

  /** The message a first choice offers: `first.get("message") or first.get("content") or first.get("text")`. */
  function ChoiceMessage(first: seq<Field>): Json {
    Or(Or(Get(first, "message"), Get(first, "content")), Get(first, "text"))
  }

  /** Text that is not JSON comes back unchanged. */
  lemma NotJsonUnchanged(respText: string)
    ensures ParseBedrockResponse(respText, None) == Success(Str(respText))
  {
  }

  /** A value from the choices shape is the answer. */
  lemma ChoicesDecide(respText: string, fields: seq<Field>, v: Json)
    requires FromChoices(fields) == Success(Some(v))
    ensures ParseBedrockResponse(respText, Some(Obj(fields))) == Success(v)
  {
  }

  /**
   * A first choice whose message is a string decides the answer, whatever
   * other shapes the payload also has.
   */
  lemma ChoiceStringWins(respText: string, fields: seq<Field>, choices: seq<Json>, first: seq<Field>, s: string)
    requires Lookup(fields, "choices") == Some(Arr(choices)) && |choices| > 0 && choices[0] == Obj(first)
    requires ChoiceMessage(first) == Str(s)
    ensures ParseBedrockResponse(respText, Some(Obj(fields))) == Success(Str(s))
  {
    assert FromChoices(fields) == Success(Some(Str(s)));
    ChoicesDecide(respText, fields, Str(s));
  }

  /**
   * A first choice whose message is a dict gives that dict's truthy "content",
   * else its truthy "text", else `str` of the dict.
   */
  lemma ChoiceObjectAnswer(respText: string, fields: seq<Field>, choices: seq<Json>, first: seq<Field>, m: seq<Field>)
    requires Lookup(fields, "choices") == Some(Arr(choices)) && |choices| > 0 && choices[0] == Obj(first)
    requires ChoiceMessage(first) == Obj(m)
    ensures var r := ParseBedrockResponse(respText, Some(Obj(fields)));
      && (Truthy(Get(m, "content")) ==> r == Success(Get(m, "content")))
      && (!Truthy(Get(m, "content")) && Truthy(Get(m, "text")) ==> r == Success(Get(m, "text")))
      && (!Truthy(Get(m, "content")) && !Truthy(Get(m, "text")) ==> r == Success(Str(Repr(Obj(m)))))
  {
    var v := Or(Or(Get(m, "content"), Get(m, "text")), Str(PyStr(Obj(m))));
    assert FromChoices(fields) == Success(Some(v));
    ChoicesDecide(respText, fields, v);
  }

  /** When the choices shape gives nothing and the outputs shape gives a value, that value is the answer. */
  lemma OutputsDecide(respText: string, fields: seq<Field>, v: Json)
    requires ChoicesGiveNothing(fields) && FromOutputs(fields) == Success(Some(v))
    ensures ParseBedrockResponse(respText, Some(Obj(fields))) == Success(v)
  {
  }

  /** The outputs shape answers with what the content loop finds in `outputs[0].content`. */
  lemma OutputsFound(fields: seq<Field>, outputs: seq<Json>, out0: seq<Field>, content: seq<Json>, v: Json)
    requires Lookup(fields, "outputs") == Some(Arr(outputs)) && |outputs| > 0 && outputs[0] == Obj(out0)
    requires Get(out0, "content") == Arr(content) && |content| > 0
    requires FindText(content) == Some(v)
    ensures FromOutputs(fields) == Success(Some(v))
  {
  }

  /**
   * When the choices shape gives nothing, the first dict item of
   * `outputs[0].content` that has a "text" key gives the answer.
   */
  lemma OutputTextAnswer(respText: string, fields: seq<Field>, outputs: seq<Json>, out0: seq<Field>,
                         content: seq<Json>, k: nat)
    requires ChoicesGiveNothing(fields)
    requires Lookup(fields, "outputs") == Some(Arr(outputs)) && |outputs| > 0 && outputs[0] == Obj(out0)
    requires Get(out0, "content") == Arr(content)
    requires k < |content| && HasText(content[k]) && forall m :: 0 <= m < k ==> !HasText(content[m])
    ensures ParseBedrockResponse(respText, Some(Obj(fields))) == Success(Get(content[k].fields, "text"))
  {
    var v := Get(content[k].fields, "text");
    assert FindText(content) == Some(v);
    OutputsFound(fields, outputs, out0, content, v);
    OutputsDecide(respText, fields, v);
  }

  /** Without such an item, the space-joined `str` of every item is the answer. */
  lemma OutputJoinedAnswer(respText: string, fields: seq<Field>, outputs: seq<Json>, out0: seq<Field>,
                           content: seq<Json>)
    requires ChoicesGiveNothing(fields)
    requires Lookup(fields, "outputs") == Some(Arr(outputs)) && |outputs| > 0 && outputs[0] == Obj(out0)
    requires Get(out0, "content") == Arr(content) && |content| > 0
    requires forall m :: 0 <= m < |content| ==> !HasText(content[m])
    ensures ParseBedrockResponse(respText, Some(Obj(fields))) ==
      Success(Str(Join(" ", seq(|content|, i requires 0 <= i < |content| => PyStr(content[i])))))
  {
    var joined := Str(Join(" ", seq(|content|, i requires 0 <= i < |content| => PyStr(content[i]))));
    assert FindText(content) == None;
    assert FromOutputs(fields) == Success(Some(joined));
    OutputsDecide(respText, fields, joined);
  }

  /**
   * When neither list shape gives anything, "generated_text", "output" and
   * "text" are tried in that order, and the first present one is returned
   * whatever its value; without any of them the answer is `json.dumps` of the
   * payload.
   */
  lemma TopLevelOrder(respText: string, fields: seq<Field>)
    requires ChoicesGiveNothing(fields) && OutputsGiveNothing(fields)
    ensures var r := ParseBedrockResponse(respText, Some(Obj(fields)));
      && (Has(fields, "generated_text") ==> r == Success(Get(fields, "generated_text")))
      && (!Has(fields, "generated_text") && Has(fields, "output") ==> r == Success(Get(fields, "output")))
      && (!Has(fields, "generated_text") && !Has(fields, "output") && Has(fields, "text") ==>
            r == Success(Get(fields, "text")))
      && (!Has(fields, "generated_text") && !Has(fields, "output") && !Has(fields, "text") ==>
            r == Success(Str(Dumps(Obj(fields)))))
  {
  }

  /**
   * The parser raises exactly when it calls `.get` on a first choice, or (the
   * choices shape giving nothing) on a first output, that is not a dict.
   */
  lemma RaisesOnlyOnNonDictHead(respText: string, fields: seq<Field>)
    ensures var r := ParseBedrockResponse(respText, Some(Obj(fields)));
      r.Failure? <==> FromChoices(fields).Failure? || (ChoicesGiveNothing(fields) && FromOutputs(fields).Failure?)
    ensures var choices := Lookup(fields, "choices");
      choices.Some? && choices.value.Arr? && |choices.value.items| > 0 && !choices.value.items[0].Obj? ==>
        ParseBedrockResponse(respText, Some(Obj(fields))) == Failure(NoGetError(choices.value.items[0]))
    ensures var outputs := Lookup(fields, "outputs");
      ChoicesGiveNothing(fields) &&
      outputs.Some? && outputs.value.Arr? && |outputs.value.items| > 0 && !outputs.value.items[0].Obj? ==>
        ParseBedrockResponse(respText, Some(Obj(fields))) == Failure(NoGetError(outputs.value.items[0]))
  {
  }

  /** A first choice `{"message": d}` with a non-empty dict `d` offers `d`. */
  lemma MessageOfDict(m: seq<Field>)
    requires |m| > 0
    ensures ChoiceMessage([Field("message", Obj(m))]) == Obj(m)
  {
    assert Get([Field("message", Obj(m))], "message") == Obj(m);
  }

  /** The answer for `{"choices":[{"message":{"content": answer}}]}` is a non-empty `answer`. */
  lemma ChoicesExample(respText: string, answer: string)
    requires |answer| > 0
    ensures ParseBedrockResponse(respText, Some(Obj([Field("choices",
              Arr([Obj([Field("message", Obj([Field("content", Str(answer))]))])]))]))) == Success(Str(answer))
  {
    var m := [Field("content", Str(answer))];
    var first := [Field("message", Obj(m))];
    var fields := [Field("choices", Arr([Obj(first)]))];
    MessageOfDict(m);
    assert Get(m, "content") == Str(answer);
    ChoiceObjectAnswer(respText, fields, [Obj(first)], first, m);
  }

  /** The answer for `{"outputs":[{"content":[{"text": answer}]}]}` is `answer`. */
  lemma OutputsExample(respText: string, answer: string)
    ensures ParseBedrockResponse(respText, Some(Obj([Field("outputs",
              Arr([Obj([Field("content", Arr([Obj([Field("text", Str(answer))])]))])]))]))) == Success(Str(answer))
  {
    var content := [Obj([Field("text", Str(answer))])];
    var out0 := [Field("content", Arr(content))];
    var outputs := [Obj(out0)];
    var fields := [Field("outputs", Arr(outputs))];
    assert "outputs"[0] != "choices"[0];
    assert ChoicesGiveNothing(fields);
    OutputTextAnswer(respText, fields, outputs, out0, content, 0);
  }

  /** The empty payload `{}` falls through every shape to the non-empty text "{}". */
  lemma EmptyObjectExample(respText: string)
    ensures ParseBedrockResponse(respText, Some(Obj([]))) == Success(Str("{}"))
  {
    assert Dumps(Obj([])) == "{" + Join(", ", []) + "}" == "{}";
    assert ChoicesGiveNothing([]) && OutputsGiveNothing([]);
  }

  /** The answer need not be a string: `{"text": 5}` gives the integer 5. */
  lemma NonStringAnswer(respText: string)
    ensures ParseBedrockResponse(respText, Some(Obj([Field("text", Int(5))]))) == Success(Int(5))
  {
  }

  /** `[1, 2]` is not a dict, so the answer is its `json.dumps`. */
  lemma ListPayloadDumped(respText: string)
    ensures ParseBedrockResponse(respText, Some(Arr([Int(1), Int(2)]))) == Success(Str("[1, 2]"))
  {
    var items := [Int(1), Int(2)];
    var parts := seq(|items|, i requires 0 <= i < |items| => Dumps(items[i]));
    assert parts == ["1", "2"];
    assert Join(", ", parts) == "1, 2" by {
      assert parts[1..] == ["2"];
    }
    assert Dumps(Arr(items)) == "[" + Join(", ", parts) + "]";
    assert "[" + "1, 2" + "]" == "[1, 2]";
  }
}
