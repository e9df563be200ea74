/**
 * The local part of `generate_response` and `query_knowledge_base` in
 * scripts/bedrock_utils.py: the denial short-circuit, the knowledge-base
 * context, the two request payloads and the primary/fallback retry policy.
 *
 * The retrieval service is the parameter `retrieve` (the hits for a
 * knowledge-base id and a query, before truncation), the model service is
 * `invoke` (the outcome of sending a payload to a model id: the request body
 * `json.dumps(payload)` and the service call behind it), and
 * `json.loads` is `loads`. The method also returns the calls it made, in order.
 */
module Generation {
  import opened Wrappers
  import opened Strings
  import opened Json
  import opened PromptGuard
  import opened ResponseParser

  const KbId := "4GDLZVMOTV"
  const LocalFilePath := "/mnt/data/machine_files.pdf"
  const NoKbContext := "No KB context found."
  /** `generate_response` asks the knowledge base for at most three results. */
  const MaxResults := 3
  const AnswerInstruction := "Answer ONLY from the knowledge base documents. Cite the document file name when possible."
  const FileText := "Local document path (for reference): " + LocalFilePath

  /** What a call to a model returned: the raised exception's text, or the decoded body. */
  datatype Outcome = Raised(error: string) | Responded(body: string)

  /** A call to an external service. */
  datatype Call = QueryKb(kbId: string, query: string, maxResults: int) | InvokeModel(modelId: string, payload: Json)

  /** `results[:max_results]`, where a negative bound counts from the end as Python's slicing does. */
  function QueryKnowledgeBase(results: seq<seq<Field>>, maxResults: int): (r: seq<seq<Field>>)
    ensures |r| <= |results| && r == results[..|r|]
    ensures 0 <= maxResults ==> |r| == if maxResults < |results| then maxResults else |results|
    ensures maxResults < 0 ==> |r| == if |results| + maxResults > 0 then |results| + maxResults else 0
  {
    var stop := if maxResults >= 0 then maxResults else |results| + maxResults;
    results[..if stop < 0 then 0 else if stop < |results| then stop else |results|]
  }

  /**
   * `f"Source: {title}\n{content}"` for one result: the title line, with
   * "Source" for a missing title, then the content, empty when it is missing.
   */
  function SourceBlock(result: seq<Field>): (r: string)
    ensures var title := Lookup(result, "title");
      && (title.None? ==> IsPrefix("Source: Source\n", r))
      && (title.Some? && title.value.Str? ==> IsPrefix("Source: " + title.value.s + "\n", r))
    ensures var content := Lookup(result, "content");
      && (content.None? ==> IsSuffix("\n", r))
      && (content.Some? && content.value.Str? ==> IsSuffix("\n" + content.value.s, r))
  {
    var content := Lookup(result, "content").GetOr(Str(""));
    var title := Lookup(result, "title").GetOr(Str("Source"));
    var head := "Source: " + PyStr(title) + "\n";
    assert (head + PyStr(content))[..|head|] == head;
    assert ("Source: " + PyStr(title) + "\n")[|"Source: " + PyStr(title)|..] == "\n";
    head + PyStr(content)
  }

  function Blocks(results: seq<seq<Field>>): seq<string> {
    seq(|results|, i requires 0 <= i < |results| => SourceBlock(results[i]))
  }

  /**
   * `kb_context`: the source blocks joined by blank lines, first block first,
   * or the no-context notice, which stands for the context exactly when there
   * are no results.
   */
  function KbContext(results: seq<seq<Field>>): (r: string)
    ensures r == NoKbContext <==> |results| == 0
    ensures |results| > 0 ==> IsPrefix(SourceBlock(results[0]), r)
  {
    if |results| == 0 then NoKbContext
    else
      var r := Join("\n\n", Blocks(results));
      assert r[0] == SourceBlock(results[0])[0] == 'S';
      r
  }

  /** Every result's source block appears in the context. */
  lemma KbContextListsEverySource(results: seq<seq<Field>>, k: nat)
    requires k < |results|
    ensures Contains(KbContext(results), SourceBlock(results[k]))
  {
    JoinContainsPart("\n\n", Blocks(results), k);
  }

  /** Taking one more result adds its block at the end. */
  lemma BlocksSnoc(results: seq<seq<Field>>, i: nat)
    requires i < |results|
    ensures Blocks(results[..i + 1]) == Blocks(results[..i]) + [SourceBlock(results[i])]
  {
    var head, last := results[..i], results[i];
    assert results[..i + 1] == head + [last];
    var xs, ys := Blocks(head + [last]), Blocks(head) + [SourceBlock(last)];
    assert |xs| == |ys| == i + 1;
    forall k | 0 <= k < i + 1 ensures xs[k] == ys[k] {
      if k < i {
        assert (head + [last])[k] == head[k];
      }
    }
  }

  /** The loop of lines 202-207: collect the source blocks, then join them. */
  method BuildKbContext(kbResults: seq<seq<Field>>) returns (kbContext: string)
    ensures kbContext == KbContext(kbResults)
  {
    var contextParts: seq<string> := [];
    var i := 0;
    while i < |kbResults|
      invariant 0 <= i <= |kbResults|
      invariant contextParts == Blocks(kbResults[..i])
    {
      var r := kbResults[i];
      var content := Lookup(r, "content").GetOr(Str(""));
      var title := Lookup(r, "title").GetOr(Str("Source"));
      BlocksSnoc(kbResults, i);
      contextParts := contextParts + ["Source: " + PyStr(title) + "\n" + PyStr(content)];
      i := i + 1;
    }
    assert kbResults[..i] == kbResults;
    kbContext := if |contextParts| > 0 then Join("\n\n", contextParts) else NoKbContext;
  }

  /** The first text object: instructions, question and the answering rule. */
  function FirstText(systemPrompt: string, userPrompt: string): string {
    systemPrompt + "\n\nUser question: " + userPrompt + "\n\n" + AnswerInstruction
  }

  function KbText(kbContext: string): string {
    "Knowledge Base context:\n" + kbContext
  }

  function TextObject(text: string): Json {
    Obj([Field("text", Str(text))])
  }

  /** The one user message of a payload, `payload["messages"][0]`. */
  predicate IsUserMessages(payload: Json) {
    && payload.Obj?
    && Get(payload.fields, "messages").Arr?
    && |Get(payload.fields, "messages").items| == 1
    && Get(payload.fields, "messages").items[0].Obj?
    && Get(Get(payload.fields, "messages").items[0].fields, "role") == Str("user")
  }

  /** `payload["messages"][0]["content"]`. */
  function MessageContent(payload: Json): Json
    requires IsUserMessages(payload)
  {
    Get(Get(payload.fields, "messages").items[0].fields, "content")
  }

  /** `{"messages": [{"role": "user", "content": content}]}`. */
  function UserMessages(content: Json): (r: Json)
    ensures IsUserMessages(r) && MessageContent(r) == content
  {
    var message := Obj([Field("role", Str("user")), Field("content", content)]);
    assert "role"[0] != "content"[0];
    assert Lookup(message.fields, "content") == Some(content);
    Obj([Field("messages", Arr([message]))])
  }

  /**
   * The primary payload: the user message's content is a list of three
   * dicts whose only key is "text", holding the instructions with the
   * question, the knowledge-base context and the file reference, in that order.
   */
  function PrimaryPayload(systemPrompt: string, userPrompt: string, kbContext: string): (r: Json)
    ensures IsUserMessages(r)
    ensures var content := MessageContent(r);
      && content.Arr? && |content.items| == 3
      && (forall k :: 0 <= k < 3 ==> content.items[k].Obj? && |content.items[k].fields| == 1 &&
                                     content.items[k].fields[0].key == "text")
      && content.items[0].fields[0].value == Str(FirstText(systemPrompt, userPrompt))
      && content.items[1].fields[0].value == Str(KbText(kbContext))
      && content.items[2].fields[0].value == Str(FileText)
  {
    UserMessages(Arr([TextObject(FirstText(systemPrompt, userPrompt)), TextObject(KbText(kbContext)), TextObject(FileText)]))
  }

  /**
   * The single string the fallback payload sends instead: like the first text
   * object, it opens with the system prompt and closes with the answering rule.
   */
  function FallbackMessage(systemPrompt: string, userPrompt: string, kbContext: string): (r: string)
    ensures IsPrefix(systemPrompt, r)
    ensures IsSuffix(AnswerInstruction, r)
    ensures IsPrefix(systemPrompt, FirstText(systemPrompt, userPrompt)) &&
            IsSuffix(AnswerInstruction, FirstText(systemPrompt, userPrompt))
  {
    var front := systemPrompt + "\n\nUser question: " + userPrompt + "\n\n" +
                 KbText(kbContext) + "\n\n" + FileText + "\n\n";
    var firstFront := systemPrompt + "\n\nUser question: " + userPrompt + "\n\n";
    assert (front + AnswerInstruction)[..|systemPrompt|] == systemPrompt;
    assert (front + AnswerInstruction)[|front|..] == AnswerInstruction;
    assert (firstFront + AnswerInstruction)[..|systemPrompt|] == systemPrompt;
    assert (firstFront + AnswerInstruction)[|firstFront|..] == AnswerInstruction;
    front + AnswerInstruction
  }

  /** The fallback payload: the user message's content is the fallback string itself. */
  function FallbackPayload(systemPrompt: string, userPrompt: string, kbContext: string): (r: Json)
    ensures IsUserMessages(r) && MessageContent(r) == Str(FallbackMessage(systemPrompt, userPrompt, kbContext))
  {
    UserMessages(Str(FallbackMessage(systemPrompt, userPrompt, kbContext)))
  }

  /** The fallback message carries the question, the context and the file reference of the primary one. */
  lemma FallbackCarriesPrimaryTexts(systemPrompt: string, userPrompt: string, kbContext: string)
    ensures var m := FallbackMessage(systemPrompt, userPrompt, kbContext);
      Contains(m, userPrompt) && Contains(m, KbText(kbContext)) && Contains(m, FileText)
  {
    var s0 := systemPrompt + "\n\nUser question: ";
    ContainsEnd(s0, userPrompt);
    var s1 := s0 + userPrompt;
    ContainsExtend(s1, "\n\n", userPrompt);
    var s2 := s1 + "\n\n";
    ContainsEnd(s2, KbText(kbContext));
    ContainsExtend(s2, KbText(kbContext), userPrompt);
    var s3 := s2 + KbText(kbContext);
    ContainsExtend(s3, "\n\n", userPrompt);
    ContainsExtend(s3, "\n\n", KbText(kbContext));
    var s4 := s3 + "\n\n";
    ContainsEnd(s4, FileText);
    ContainsExtend(s4, FileText, userPrompt);
    ContainsExtend(s4, FileText, KbText(kbContext));
    var s5 := s4 + FileText;
    ContainsExtend(s5, "\n\n", userPrompt);
    ContainsExtend(s5, "\n\n", KbText(kbContext));
    ContainsExtend(s5, "\n\n", FileText);
    var s6 := s5 + "\n\n";
    ContainsExtend(s6, AnswerInstruction, userPrompt);
    ContainsExtend(s6, AnswerInstruction, KbText(kbContext));
    ContainsExtend(s6, AnswerInstruction, FileText);
  }

  /** One attempt: the model call and, inside the same `try`, parsing what it returned. */
  function Attempt(outcome: Outcome, loads: string -> Option<Json>): (r: Result<Json, string>)
    ensures outcome.Raised? ==> r == Failure(outcome.error)
    ensures outcome.Responded? && loads(outcome.body).None? ==> r == Success(Str(outcome.body))
    ensures r.Failure? && outcome.Responded? ==>
      loads(outcome.body).Some? && loads(outcome.body).value.Obj?
  {
    match outcome
    case Raised(e) => Failure(e)
    case Responded(raw) => ParseBedrockResponse(raw, loads(raw))
  }

  function DeniedReply(reason: string): string {
    "Request denied: " + reason
  }

  function BothFailedReply(primaryError: string, fallbackError: string): string {
    "[ERROR] primary attempt failed: " + primaryError + " -- fallback attempt failed: " + fallbackError
  }

  /** The combined error names both causes, the primary one first. */
  lemma BothFailedNamesBothErrors(primaryError: string, fallbackError: string)
    ensures Contains(BothFailedReply(primaryError, fallbackError), primaryError)
    ensures Contains(BothFailedReply(primaryError, fallbackError), fallbackError)
    ensures IsPrefix("[ERROR] primary attempt failed: " + primaryError, BothFailedReply(primaryError, fallbackError))
  {
    var s0 := "[ERROR] primary attempt failed: ";
    ContainsEnd(s0, primaryError);
    var s1 := s0 + primaryError;
    ContainsExtend(s1, " -- fallback attempt failed: ", primaryError);
    var s2 := s1 + " -- fallback attempt failed: ";
    ContainsEnd(s2, fallbackError);
    ContainsExtend(s2, fallbackError, primaryError);
  }

  /**
   * Lines 250-272: send the primary payload; only if that attempt raises, send
   * the fallback payload; if that raises too, reply with both errors.
   */
  method PrimaryThenFallback(modelId: string, primaryPayload: Json, fallbackPayload: Json,
                             invoke: (string, Json) -> Outcome,
                             loads: string -> Option<Json>)
    returns (reply: Json, calls: seq<Call>)
    ensures var primary := Attempt(invoke(modelId, primaryPayload), loads);
      var fallback := Attempt(invoke(modelId, fallbackPayload), loads);
      && (primary.Success? ==> calls == [InvokeModel(modelId, primaryPayload)] && reply == primary.value)
      && (primary.Failure? ==>
            calls == [InvokeModel(modelId, primaryPayload), InvokeModel(modelId, fallbackPayload)] &&
            reply == (if fallback.Success? then fallback.value
                      else Str(BothFailedReply(primary.error, fallback.error))))
  {
    calls := [InvokeModel(modelId, primaryPayload)];
    var primary := Attempt(invoke(modelId, primaryPayload), loads);
    if primary.Success? {
      return primary.value, calls;
    }
    calls := calls + [InvokeModel(modelId, fallbackPayload)];
    var fallback := Attempt(invoke(modelId, fallbackPayload), loads);
    if fallback.Success? {
      reply := fallback.value;
    } else {
      reply := Str(BothFailedReply(primary.error, fallback.error));
    }
  }

  /**
   * The part of `generate_response` after an admitted prompt: the knowledge
   * base is queried once for three results, and the primary and fallback
   * attempts follow as in `PrimaryThenFallback`, with the bodies built from the
   * question and the context of the hits.
   */
  method AnswerAdmitted(systemPrompt: string, userPrompt: string, modelId: string,
                        retrieve: (string, string) -> seq<seq<Field>>,
                        invoke: (string, Json) -> Outcome,
                        loads: string -> Option<Json>)
    returns (reply: Json, calls: seq<Call>)
    ensures var kbContext := KbContext(QueryKnowledgeBase(retrieve(KbId, userPrompt), MaxResults));
      var primaryPayload := PrimaryPayload(systemPrompt, userPrompt, kbContext);
      var fallbackPayload := FallbackPayload(systemPrompt, userPrompt, kbContext);
      var primary := Attempt(invoke(modelId, primaryPayload), loads);
      var fallback := Attempt(invoke(modelId, fallbackPayload), loads);
      && (primary.Success? ==>
            calls == [QueryKb(KbId, userPrompt, MaxResults), InvokeModel(modelId, primaryPayload)] &&
            reply == primary.value)
      && (primary.Failure? ==>
            calls == [QueryKb(KbId, userPrompt, MaxResults), InvokeModel(modelId, primaryPayload),
                      InvokeModel(modelId, fallbackPayload)] &&
            reply == (if fallback.Success? then fallback.value
                      else Str(BothFailedReply(primary.error, fallback.error))))
  {
    var kbResults := QueryKnowledgeBase(retrieve(KbId, userPrompt), MaxResults);
    var kbContext := BuildKbContext(kbResults);
    var primaryPayload := PrimaryPayload(systemPrompt, userPrompt, kbContext);
    var fallbackPayload := FallbackPayload(systemPrompt, userPrompt, kbContext);
    var modelCalls;
    reply, modelCalls := PrimaryThenFallback(modelId, primaryPayload, fallbackPayload, invoke, loads);
    calls := [QueryKb(KbId, userPrompt, MaxResults)] + modelCalls;
  }

  /**
   * `generate_response(system_prompt, user_prompt, model_id)`. A refused prompt
   * is answered at once and nothing is called; an admitted one is answered as
   * in `AnswerAdmitted`, so a model call always follows the one knowledge-base
   * query, and a second model call only a failed first one.
   */
  method GenerateResponse(systemPrompt: string, userPrompt: string, modelId: string,
                          retrieve: (string, string) -> seq<seq<Field>>,
                          invoke: (string, Json) -> Outcome,
                          loads: string -> Option<Json>)
    returns (reply: Json, calls: seq<Call>)
    ensures var v := ValidPrompt(userPrompt);
      !v.ok ==> reply == Str(DeniedReply(v.reason)) && calls == []
    ensures ValidPrompt(userPrompt).ok ==>
      var kbContext := KbContext(QueryKnowledgeBase(retrieve(KbId, userPrompt), MaxResults));
      var primaryPayload := PrimaryPayload(systemPrompt, userPrompt, kbContext);
      var fallbackPayload := FallbackPayload(systemPrompt, userPrompt, kbContext);
      var primary := Attempt(invoke(modelId, primaryPayload), loads);
      var fallback := Attempt(invoke(modelId, fallbackPayload), loads);
      && (primary.Success? ==>
            calls == [QueryKb(KbId, userPrompt, MaxResults), InvokeModel(modelId, primaryPayload)] &&
            reply == primary.value)
      && (primary.Failure? ==>
            calls == [QueryKb(KbId, userPrompt, MaxResults), InvokeModel(modelId, primaryPayload),
                      InvokeModel(modelId, fallbackPayload)] &&
            reply == (if fallback.Success? then fallback.value
                      else Str(BothFailedReply(primary.error, fallback.error))))
  {
    var verdict := ValidPrompt(userPrompt);
    if !verdict.ok {
      return Str(DeniedReply(verdict.reason)), [];
    }
    reply, calls := AnswerAdmitted(systemPrompt, userPrompt, modelId, retrieve, invoke, loads);
  }
}
