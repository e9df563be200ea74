# A verified model of the Bedrock prompt helper

`scripts/bedrock_utils.py` answers questions about a set of uploaded machine documents through a
hosted language model. It does so in four steps:

1. `valid_prompt` screens the user's question with four lexical rules.
2. `query_knowledge_base` returns at most `max_results` knowledge-base hits.
3. `generate_response` builds two request payloads from the question, the hits and a local file path.
   It sends the primary payload and, only if that attempt raises, the fallback payload.
4. `_parse_bedrock_response` turns the model's reply body into an answer. It tries three reply shapes.

The model has six modules:

- `Wrappers`: `Option` and `Result`.
- `Strings`:
  - `str.lower` and `str.strip` on ASCII;
  - the substring test `in`;
  - `str.join`;
  - decimal and hexadecimal digits.
- `Json`: Python's JSON values as a datatype, with `dict.get`, truthiness, `or`, `str()` and `json.dumps`.
  The default separators `", "` and `": "` are modelled, and so is ASCII escaping.
- `PromptGuard`: `valid_prompt`. The three regular expressions are written as predicates.
- `ResponseParser`: `_parse_bedrock_response`.
- `Generation`:
  - `query_knowledge_base`'s truncation;
  - the context loop;
  - the payloads;
  - `generate_response` as a method that also returns the calls it made to the two external services.

The external services are parameters:

- the knowledge-base retrieval, `retrieve`;
- the model invocation, `invoke`, whose result is either the raised exception's text or the decoded reply body;
- `json.loads`, `loads`, which yields `None` for text that is not JSON.

Points where the code's behaviour is easy to misread, and what the model does:

- The choices shape (lines 154-161) has only two answering branches: a message that is a dict or a string.
  A first choice whose message is a list gives nothing from the choices shape, and the parser goes on to the outputs shape.
- The address keywords have their own refusal reason (line 91), separate from the personal-information patterns (line 88).
- A present "text" in a content item (line 171), or a present top-level "generated_text", "output" or "text" (line 180),
  is returned even when it is empty or not a string (see `ResponseParser.NonStringAnswer`).
- Line 182's comment says pretty-print, but line 184 calls plain `json.dumps`, with its default separators and no indentation.
- An exception raised inside the parser is raised inside `generate_response`'s `try`. So a first choice or a first
  output that is not a dict makes the primary attempt fail, and the fallback payload is sent.
  `Generation.Attempt` models this.

## Model

| member | source | states |
|---|---|---|
| PromptGuard.ValidPrompt | scripts/bedrock_utils.py:74-102 | The prompt is admitted, with reason "OK", exactly when none of the four rules matches the lowercased, stripped text. Otherwise the verdict is the refusal of the first rule that matches: personal-information patterns, then address keywords, then investment keywords, then harm keywords. Each reason is given exactly when its rule is the first to match. |
| PromptGuard.Normalize | scripts/bedrock_utils.py:79 | `user_input.lower().strip()` is no longer than the input, has no capital letters, and neither starts nor ends with whitespace. |
| PromptGuard.PhoneMatch | scripts/bedrock_utils.py:82 | A phone-number match (three digits, an optional space or hyphen, four digits) needs a text of at least seven characters. |
| PromptGuard.EmailMatch | scripts/bedrock_utils.py:83 | An e-mail match needs at least five characters, an `@` and a `.`; so a text without `@` holds no e-mail address. |
| PromptGuard.SsnMatch | scripts/bedrock_utils.py:84 | An SSN match needs at least eleven characters and a hyphen. |
| PromptGuard.NormalizeIdempotent | scripts/bedrock_utils.py:79 | Lowercasing and stripping an already normalised text changes nothing. |
| PromptGuard.ValidPromptOfNormalized | scripts/bedrock_utils.py:79 | The verdict for a prompt equals the verdict for its normalised text. |
| PromptGuard.NormalizeKeeps | scripts/bedrock_utils.py:79 | Stripping removes only surrounding whitespace. A stretch of the input that starts and ends with a non-space survives, lowercased, in the normalised text. |
| PromptGuard.PiiRejects | scripts/bedrock_utils.py:87-88 | If a phone, e-mail or SSN pattern is found in the normalised text, the refusal is the personal-information one. |
| PromptGuard.PhoneRejected | scripts/bedrock_utils.py:82-88 | An input holding three digits, an optional space or hyphen, then four digits anywhere in the raw text is refused for personal information. |
| PromptGuard.EmailRejected | scripts/bedrock_utils.py:83-88 | An input holding an e-mail-shaped stretch, in any letter case, is refused for personal information. |
| PromptGuard.SsnRejected | scripts/bedrock_utils.py:84-88 | An input holding an SSN-shaped stretch between word boundaries is refused for personal information. |
| PromptGuard.KeywordFound | scripts/bedrock_utils.py:79-90 | A keyword with no space at either end, found in the lowercased input, is still found after stripping. |
| PromptGuard.KeywordsTrimmed | scripts/bedrock_utils.py:85-98 | None of the fifteen keywords is empty or has a space at either end. |
| PromptGuard.AddressKeywordRejected | scripts/bedrock_utils.py:85-91 | An input holding an address keyword in any letter case is refused. The reason is the address one unless a personal-information pattern matched first. |
| PromptGuard.InvestmentKeywordRejected | scripts/bedrock_utils.py:94-95 | An input holding an investment keyword is refused. The reason is the investment one unless an earlier rule matched. |
| PromptGuard.HarmKeywordRejected | scripts/bedrock_utils.py:98-99 | An input holding a harm keyword is refused. The reason is the harm one unless an earlier rule matched. |
| PromptGuard.AnyOfFive | scripts/bedrock_utils.py:90-98 | `any(kw in text ...)` over a five-keyword list is the disjunction of the five substring tests. |
| PromptGuard.AnyKeywordCons | scripts/bedrock_utils.py:90-98 | `any` over a list tests its head, then its tail. |
| PromptGuard.Subsumes | scripts/bedrock_utils.py:90-94 | A text holding a keyword also holds every keyword contained in it. |
| PromptGuard.RedundantKeywords | scripts/bedrock_utils.py:85-94 | "home address" and "which stock" never change a verdict. Each list tests the same as the list without them. |
| PromptGuard.FewDigits | scripts/bedrock_utils.py:82-84 | A text whose digits all lie within six consecutive places holds no phone number and no SSN. |
| PromptGuard.AbsentByChars | scripts/bedrock_utils.py:90-98 | No keyword of a list occurs in a text that lacks one character of each keyword. |
| PromptGuard.RatedPowerQuestionAdmitted | scripts/bedrock_utils.py:74-102 | "What is the rated power of the XR-220?" is admitted with reason "OK". |
| PromptGuard.StockQuestionRefused | scripts/bedrock_utils.py:94-95 | "What stock should I buy?" is refused as investment advice. |
| Strings.StripIsSlice | scripts/bedrock_utils.py:79 | `strip()` returns a slice of its input. Only whitespace lies outside the slice, and the result has no whitespace at either end. |
| Strings.Lower | scripts/bedrock_utils.py:79 | `str.lower` keeps the length and leaves no ASCII capital letter. |
| Strings.Strip | scripts/bedrock_utils.py:79 | `str.strip` is no longer than its input, neither starts nor ends with whitespace, and adds no capital letter. |
| Strings.ContainsIff | scripts/bedrock_utils.py:90 | `kw in text` holds exactly when `kw` occurs at some offset of `text`. |
| Strings.JoinContainsPart | scripts/bedrock_utils.py:207 | Every part of a `str.join` is contained in the joined string. |
| Json.Lookup | scripts/bedrock_utils.py:154-180 | A key lookup in a dict finds a value exactly when some entry has the key, and the value found is that of an entry with the key. |
| Json.Or | scripts/bedrock_utils.py:157-159 | Python's `a or b` is one of its operands. It is truthy exactly when either operand is, and it is `a` when `a` is truthy. |
| Json.Repr | scripts/bedrock_utils.py:159 | `repr` is never empty. A dict is shown between braces, a list between brackets, and a string between quotes; no other value starts with one of these. |
| Json.PyStr | scripts/bedrock_utils.py:159 | `str(x)` of a string is the string itself. Of any other value it is its non-empty `repr`, which starts with `{` exactly for a dict. |
| Json.ReprPlain | scripts/bedrock_utils.py:159 | `repr` of a string of printable ASCII without a quote or backslash is that string between single quotes. |
| Json.StrOfOneEntryDict | scripts/bedrock_utils.py:159 | `str({key: text})` for plain key and text is `{'key': 'text'}`. |
| Json.Dumps | scripts/bedrock_utils.py:184 | `json.dumps` is never empty. An object is written between braces, an array between brackets and a string between double quotes; no other value starts with one of these. |
| Json.DumpsAscii | scripts/bedrock_utils.py:184 | `json.dumps` output, with ASCII escaping, is printable ASCII for every modelled value. |
| ResponseParser.FindText | scripts/bedrock_utils.py:169-173 | The content loop finds nothing exactly when no item is a dict with a "text" key. Otherwise it returns the "text" value of the first such item. |
| ResponseParser.FromChoices | scripts/bedrock_utils.py:154-161 | The choices shape gives nothing exactly when "choices" is missing, not a list or empty, or the first choice's message is neither a dict nor a string. It raises, with the `AttributeError` text, exactly when the first choice is not a dict; a string message is the answer. |
| ResponseParser.FromOutputs | scripts/bedrock_utils.py:164-175 | The outputs shape gives nothing exactly when "outputs" is missing, not a list or empty, or the first output's "content" is not a non-empty list. It raises exactly when the first output is not a dict. |
| ResponseParser.FromTopLevel | scripts/bedrock_utils.py:178-180 | The top-level keys give nothing exactly when none of "generated_text", "output" and "text" is present; otherwise the answer is the value of one of those keys. |
| ResponseParser.TypedTextTestSubsumed | scripts/bedrock_utils.py:170-173 | Any item passing the loop's second test ("type" present, "text" truthy) already passes the first test, so lines 172-173 never decide the result. |
| ResponseParser.ParseBedrockResponse | scripts/bedrock_utils.py:141-186 | Text that is not JSON is returned unchanged. JSON that is not a dict is returned as its `json.dumps`. The parser raises only on a dict payload. |
| ResponseParser.NotJsonUnchanged | scripts/bedrock_utils.py:145-149 | Any text that `json.loads` rejects is itself the answer. |
| ResponseParser.ChoiceStringWins | scripts/bedrock_utils.py:154-161 | A first choice whose message (`message or content or text`) is a string gives that string, whatever else the payload holds. |
| ResponseParser.ChoiceObjectAnswer | scripts/bedrock_utils.py:157-159 | A first choice whose message is a dict gives the dict's truthy "content", else its truthy "text", else `str()` of the dict. |
| ResponseParser.OutputTextAnswer | scripts/bedrock_utils.py:164-171 | When the choices shape gives nothing, the first dict item with a "text" key in `outputs[0].content` gives the answer. |
| ResponseParser.OutputJoinedAnswer | scripts/bedrock_utils.py:167-175 | Without such an item, the answer is the `str()` of every content item, joined by spaces. |
| ResponseParser.TopLevelOrder | scripts/bedrock_utils.py:177-184 | When neither list shape answers, the first present key among "generated_text", "output" and "text" is returned, whatever its value. If none is present, the answer is `json.dumps` of the payload. |
| ResponseParser.RaisesOnlyOnNonDictHead | scripts/bedrock_utils.py:155-166 | The parser raises exactly when it calls `.get` on a first choice, or on a first output, that is not a dict (the latter only once the choices shape gave nothing). The error is `AttributeError`'s text naming the type. |
| ResponseParser.ChoicesExample | scripts/bedrock_utils.py:152-159 | `{"choices":[{"message":{"content": s}}]}` gives `s` for every non-empty string `s`. |
| ResponseParser.OutputsExample | scripts/bedrock_utils.py:163-171 | `{"outputs":[{"content":[{"text": s}]}]}` gives `s` for every string `s`, the empty one included. |
| ResponseParser.EmptyObjectExample | scripts/bedrock_utils.py:182-184 | `{}` falls through every shape and gives "{}". |
| ResponseParser.NonStringAnswer | scripts/bedrock_utils.py:178-180 | `{"text": 5}` gives the integer 5, not a string. |
| ResponseParser.ListPayloadDumped | scripts/bedrock_utils.py:153-184 | The list `[1, 2]` is not a dict and gives "[1, 2]". |
| Generation.QueryKnowledgeBase | scripts/bedrock_utils.py:106-137 | `results[:max_results]` is a prefix of the results. Its length is `min(n, len)` for `n >= 0`; a negative `n` drops that many results from the end. |
| Generation.BuildKbContext | scripts/bedrock_utils.py:202-207 | The loop's context is the "Source: title\ncontent" blocks of the hits joined by blank lines, with the defaults "Source" and "". With no hits it is the no-context notice. |
| Generation.KbContext | scripts/bedrock_utils.py:207 | The context is the notice "No KB context found." exactly when there are no hits; otherwise it starts with the first hit's source block. |
| Generation.SourceBlock | scripts/bedrock_utils.py:204-206 | A hit's block starts with "Source: " and its string title (or "Source" when the title is missing) and a line break, and ends with its string content (nothing after the line break when the content is missing). |
| Generation.PrimaryPayload | scripts/bedrock_utils.py:214-234 | The primary payload holds one user message whose content is a list of three objects. The only key of each is "text", and they hold, in order, the instructions with the question, the knowledge-base context and the file reference. |
| Generation.FallbackMessage | scripts/bedrock_utils.py:237-242 | The fallback string, like the first text object, opens with the system prompt and closes with the answering rule. |
| Generation.FallbackPayload | scripts/bedrock_utils.py:243-247 | The fallback payload holds one user message whose content is the fallback string. |
| Generation.Attempt | scripts/bedrock_utils.py:250-258 | An attempt fails with the exception's text when the call raises. A reply body that is not JSON is the answer as it is. A parsed reply fails only when the parser raised on a dict payload. |
| Generation.KbContextListsEverySource | scripts/bedrock_utils.py:203-207 | Every hit's source block appears in the context. |
| Generation.FallbackCarriesPrimaryTexts | scripts/bedrock_utils.py:237-247 | The fallback message contains the user question, the knowledge-base text and the file reference. |
| Generation.BothFailedNamesBothErrors | scripts/bedrock_utils.py:270-272 | The combined error reply begins with the primary error and also contains the fallback error. |
| Generation.PrimaryThenFallback | scripts/bedrock_utils.py:250-272 | If the primary attempt succeeds, its answer is returned after that one model call. If it raises, either in the call or while parsing the reply, the fallback body is sent as a second and last call. The reply is then the fallback answer, or the combined error naming both failures. |
| Generation.AnswerAdmitted | scripts/bedrock_utils.py:200-272 | After an admitted prompt, the knowledge base is queried once for three results. The two payloads are built from the question and that context, and the calls and reply are those of `PrimaryThenFallback`, following the query. |
| Generation.GenerateResponse | scripts/bedrock_utils.py:189-272 | A refused prompt gets "Request denied: " + reason, and no service is called. An admitted prompt queries the knowledge base once, for three results. The primary and fallback payloads are then built from its context, and the calls and reply are those of `PrimaryThenFallback`, following the query. |

## Left out

- The model service, the knowledge-base retrieval and `json.loads` are parameters.
  - The model covers what the code does with their results, not their behaviour.
  - The HTTP headers `contentType` and `accept` (lines 253-254, 264-265) and `response["body"].read().decode("utf-8")` (lines 257, 268) are folded into `Outcome`.
  - A failure in reading or decoding the body is a `Raised` outcome.
- The placeholder hit list and the debug `print` of `query_knowledge_base` (lines 116-134) are left out. The real retrieval is `retrieve`.
- The `SYSTEM_PROMPT` text, the boto3 client set-up, the `__main__` example, `extract_text_from_response` and `scripts/upload_to_s3.py` are not part of this model.
- Strings are ASCII only. Non-ASCII lowercasing and Unicode whitespace are not modelled. Nor are `\s` and `\w` beyond ASCII, or the escapes `repr()` uses for non-printable characters.
- `json.dumps`'s `except` branch (lines 185-186) is never taken in the model, since every modelled value serialises (`Json.DumpsAscii`). Floats are not among the modelled JSON values.
- `str()` of an exception is the exception's text in `Outcome`. Only the `AttributeError` raised by `.get` on a non-dict is spelled out, in `ResponseParser`.
- ResponseParser.ParseBedrockResponse: the answer for a dict payload is stated by the lemmas around it (`ChoiceStringWins`, `OutputTextAnswer`, `TopLevelOrder` and others), not by the function's own contract.
- A dict that `json.loads` returns has distinct keys. `Json.Lookup` takes the first entry with a key, which agrees with Python only because `loads` keeps one entry per key (the last one, for a repeated key in the text).
- `json.dumps` of the request payloads (lines 255, 266) is part of the `invoke` parameter, which takes the payload itself.
- The default `model_id=MODEL_ID` of `generate_response` (line 189) is left to the caller; the model takes the model id as a parameter.
