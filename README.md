# Foundation-model playground backend, modelled in Dafny

The playground backend relays requests from a web front end to a managed
foundation-model service. This project models its core:

- the story service, which composes a prompt, sends it as a Messages request
  and splits the answer into a title and a story;
- the per-model adapters, which build a request body and read one field back:
  Jurassic-2, the text-playground Claude adapter, the chat service and the
  image service;
- the text route, which dispatches on the model id and classifies errors, and
  the foundation-model routes, which share that classification;
- the health service, which builds a connectivity report and a model
  validation report;
- the health routes, which pick the region and choose the HTTP status.

Modelling choices:

- Python values on the wire are the datatype `Values.Value`. Subscripts, `.get`
  and `.startswith` follow Python: a missing key, an empty list or a value of
  the wrong type raises the exception Python would raise.
- Every call to the model service is a `Bedrock.Runtime`, a function from the
  request sent to what came back or was raised. "No other call is made" is
  stated as: two runtimes that agree on that one request give the same result.
- `random.choice` is a `draw: nat` parameter. Lemmas state only membership in
  the list, and that every member can be drawn.
- The health services take what the client creation and the listing or lookup
  returned or raised as parameters. They build their report step by step, as
  the source does.
- Temperatures are `real` and are only passed through.
- `RouteErrors.Classify` maps `ResourceNotFoundException` to 500
  "ResourceNotFoundException: message", as the text and foundation-model
  routes do (`RouteErrors.NotFoundIsInternal`). Only the health validation
  route answers 404.

Module layout: `Values` and `PyStr` hold the Python semantics. `Messages` holds
the shared Messages request body and `Bedrock` the service call. Then there is
one module per core file: `StoryServices`, `Jurassic2`, `Claude`,
`ChatServices`, `ImageServices`, `TextRoutes`, `FoundationModelsRoutes`,
`HealthService` and `HealthRoutes`. `RouteErrors` holds the error policy the
text and foundation-model routes share.

## Model

| member | source | states |
|---|---|---|
| Values.Item | backend/text_playground/claude.py:29 | `v[key]` succeeds exactly on a dictionary holding the key and gives its entry; a dictionary without it raises KeyError. |
| Values.Get | backend/story_playground/services.py:74 | `v.get(key)` succeeds exactly on dictionaries and gives None for an absent key. |
| Values.First | backend/text_playground/claude.py:29 | `v[0]`: the first item of a non-empty list (IndexError on an empty one), the first character of a string, KeyError 0 on a dictionary, TypeError on anything else. |
| Values.FailureTypeName | backend/text_playground/routes.py:63 | `type(e).__name__` of the credential errors (botocore's class names) and of any other exception (its recorded name). For a provider error it is the literal kind "ClientError" that the health service writes; the code-named subclass botocore raises is only logged. |
| Values.FailureText | backend/text_playground/routes.py:64 | `str(e)` of an exception that is not a provider error; botocore's fixed text for missing credentials. |
| Values.Len | backend/image_playground/services.py:60-64 | `len(v)` succeeds exactly on strings, lists and dictionaries and gives their size; any other value raises TypeError. |
| Values.MessageOrDefault | backend/text_playground/routes.py:38 | A missing provider message reads as "Unknown error"; a present one is kept. |
| Values.FieldFirstFieldOk | backend/text_playground/claude.py:29 | `v[k1][0][k2]` succeeds exactly when `k1` holds a non-empty list whose first item is a dictionary with `k2`, and then gives that entry. |
| PyStr.StartsWith | backend/story_playground/services.py:78 | `s.startswith(p)`: `p` is the first `|p|` characters of `s`. |
| PyStr.Join | backend/story_playground/services.py:80 | `'\n'.join(parts)`: the parts with one newline between neighbours. |
| PyStr.IntToString | backend/story_playground/services.py:40 | `str(n)` ends in a digit and starts with '-' exactly for negative numbers. It has no leading zero: only `str(0)` starts with '0'. |
| PyStr.NatToStringValue | backend/story_playground/services.py:40 | The digits `str(n)` writes denote `n`. |
| PyStr.IntToStringInjective | backend/story_playground/services.py:40 | Different character counts give different texts. |
| PyStr.LineEnd | backend/story_playground/services.py:77 | The first newline's index, or the length when there is none: no newline lies before it. |
| PyStr.Split | backend/story_playground/services.py:77 | `split('\n')` is never empty and no part holds a newline. |
| PyStr.JoinSplit | backend/story_playground/services.py:80 | `'\n'.join(s.split('\n')) == s`. |
| PyStr.FirstLineAndRest | backend/story_playground/services.py:77-80 | The first part is the text up to the first newline; the other parts rejoined are the text after it, or "" when there is no newline. |
| PyStr.FirstLineStartsWith | backend/story_playground/services.py:77-78 | For a prefix without a newline, the first line starts with it exactly when the whole text does. |
| PyStr.FirstLineOf | backend/story_playground/services.py:77-80 | In prefix + line + "\n" + rest the first line is prefix + line, and rest is what follows the newline. |
| PyStr.RemoveAll | backend/story_playground/services.py:79 | `replace(p, '')` never lengthens the text. |
| PyStr.RemoveAllAbsent | backend/story_playground/services.py:79 | Without an occurrence of `p`, `replace(p, '')` changes nothing. |
| PyStr.Strip | backend/story_playground/services.py:79-80 | `strip()` cuts only whitespace, from both ends, and leaves no whitespace at either end. |
| PyStr.StripUnchanged | backend/story_playground/services.py:79-80 | A text with no whitespace at its ends is its own strip. |
| PyStr.StripIdempotent | backend/story_playground/services.py:79-80 | Stripping twice is stripping once. |
| Messages.Encode | backend/text_playground/claude.py:10-20 | The body has exactly the version, limits and messages keys, plus "system" exactly when a system prompt is given. |
| Messages.DecodeEncode | backend/text_playground/claude.py:10-20 | The body reads back as the request it was built from: version "bedrock-2023-05-31", both limits, one user message with the prompt. |
| Messages.EncodeInjective | backend/chat_playground/services.py:18-29 | Different requests give different bodies. |
| Messages.ContentText | backend/text_playground/claude.py:29 | `content[0].text` succeeds exactly when that path exists, and gives its value. |
| Messages.EmptyContentFails | backend/text_playground/claude.py:29 | An empty `content` list raises IndexError. |
| Claude.Request | backend/text_playground/claude.py:10-25 | The request goes to "anthropic.claude-3-5-sonnet-20241022-v2:0" and has the prompt, both limits as given, and no `system` field. |
| Claude.Invoke | backend/text_playground/claude.py:22-29 | On success the result is the answer's `content[0].text`; a raised call is re-raised as it is. |
| Claude.OnlyOneCall | backend/text_playground/claude.py:22-29 | The result depends on nothing but the answer to that one request. |
| ChatServices.Request | backend/chat_playground/services.py:11-34 | Every request has max_tokens 1024, temperature 0.8 and the fixed system prompt, goes to the fixed model id, and carries the prompt as its one user message. |
| ChatServices.RequestDependsOnlyOnPrompt | backend/chat_playground/services.py:18-29 | Two requests are equal exactly when their prompts are; the limits and the system prompt never vary. |
| ChatServices.Invoke | backend/chat_playground/services.py:31-38 | The result is the answer's `content[0].text`, or what the call raised. |
| Jurassic2.Encode | backend/text_playground/jurassic2.py:18-22 | The body has exactly the fields prompt, maxTokens and temperature. |
| Jurassic2.DecodeEncode | backend/text_playground/jurassic2.py:18-22 | Each field of the body equals its argument. |
| Jurassic2.Request | backend/text_playground/jurassic2.py:15-32 | The request always goes to "ai21.j2-mid-v1" and carries the three arguments. |
| Jurassic2.DropLeadingNewline | backend/text_playground/jurassic2.py:40-41 | The input is one optional leading newline followed by the result; the length drops by one exactly when that newline is there. |
| Jurassic2.NoLeadingNewlineUnchanged | backend/text_playground/jurassic2.py:40 | Text that does not start with a newline is returned unchanged. |
| Jurassic2.DropUndoesNewline | backend/text_playground/jurassic2.py:40-41 | One prepended newline is removed exactly. |
| Jurassic2.NotIdempotent | backend/text_playground/jurassic2.py:40-41 | "\n\nX" becomes "\nX", and a second pass gives "X". |
| Jurassic2.ParseCompletion | backend/text_playground/jurassic2.py:39-41 | Success exactly when `completions[0].data.text` exists and is a string; the result is that text after the newline rule. |
| Jurassic2.Invoke | backend/text_playground/jurassic2.py:13-61 | A raised call is re-raised unchanged; otherwise the result is the parsed completion. |
| Jurassic2.ParsesHello | backend/text_playground/jurassic2.py:39-41 | An answer whose text is "\nHello" gives "Hello". |
| ImageServices.ImagePayloadUnique | backend/image_playground/services.py:38-45 | Only one body fits a prompt and a requested style. |
| ImageServices.BuildPayload | backend/image_playground/services.py:38-48 | The body holds text_prompts [{text: prompt}], cfg_scale 20 and steps 100, and has style_preset, equal to the request, exactly when the style is one of the 17 allowed names; an unknown style is dropped, not an error. |
| ImageServices.ParseImage | backend/image_playground/services.py:62 | Success exactly when `artifacts[0].base64` exists, and the result is that value. |
| ImageServices.NoArtifactsFails | backend/image_playground/services.py:62 | A missing or empty artifacts list raises. |
| ImageServices.ReadImage | backend/image_playground/services.py:59-66 | The answer yields the first artifact's data exactly when `artifacts[0].base64` exists and has a length. A body that is not a dictionary raises AttributeError at the `.get`. An artifacts value or a data value without a length raises TypeError "object of type 'T' has no len()". |
| ImageServices.UnsizedDataRaises | backend/image_playground/services.py:62-64 | Integer data is read by the subscripts and then raises TypeError when its length is logged. |
| ImageServices.Invoke | backend/image_playground/services.py:34-81 | The request goes to the model id given, with that body; a raised call is re-raised as it is; otherwise the result is what `ReadImage` makes of the answer. |
| ImageServices.StyleExamples | backend/image_playground/services.py:44-48 | "anime" is kept as style_preset; "not-a-style" is left out. |
| RouteErrors.Classify | backend/text_playground/routes.py:36-78 | Access denied gives 403 with the provider message. Any other provider code gives 500 "code: message". Any other exception gives 500 "Type: message". |
| RouteErrors.DiagnosticPreserved | backend/text_playground/routes.py:55-58 | The detail always ends with the provider's or the exception's own message. |
| RouteErrors.NotFoundIsInternal | backend/foundation_models/routes.py:35-36 | A not-found provider error is 500 "ResourceNotFoundException: message". |
| TextRoutes.Supported | backend/text_playground/routes.py:24-30 | The two route ids, "us.anthropic.claude-3-5-sonnet-20241022-v2:0" and "ai21.j2-mid-v1", and no others, select an adapter. |
| TextRoutes.RunAdapter | backend/text_playground/routes.py:24-35 | The Jurassic id gives the Jurassic adapter's result. The Claude id gives the Claude adapter's result when it is a string. A non-string completion fails the response-model check, and a raised call is re-raised. |
| TextRoutes.Invoke | backend/text_playground/routes.py:14-78 | An unsupported id gives 400 "Unsupported model: id". A supported one gives 200 with the adapter's completion, or the classified error (403 or 500, never a 400). |
| TextRoutes.UnsupportedMakesNoCall | backend/text_playground/routes.py:28-30 | For an unsupported id the answer is the same 400 whatever the service would do. |
| TextRoutes.ClaudeMakesOneCall | backend/text_playground/routes.py:24-25 | The Claude id reaches the service only with the Claude adapter's request. |
| TextRoutes.JurassicMakesOneCall | backend/text_playground/routes.py:26-27 | The Jurassic id reaches the service only with the Jurassic adapter's request. |
| TextRoutes.CompletionIsAdapterOutput | backend/text_playground/routes.py:33-35 | A 200 carries exactly what the selected adapter returned. |
| TextRoutes.ClaudeIdRewritten | backend/text_playground/routes.py:24 | The route matches "us." + the id that the adapter sends, never that id itself. |
| FoundationModelsRoutes.ListFoundationModels | backend/foundation_models/routes.py:11-49 | 200 exactly when the service returned, with its result unchanged; otherwise the error with the status and detail of `RouteErrors.Classify`. |
| FoundationModelsRoutes.GetFoundationModelDetails | backend/foundation_models/routes.py:52-92 | 200 exactly when the lookup returned, with its result unchanged; otherwise the error with the status and detail of `RouteErrors.Classify`. |
| FoundationModelsRoutes.SameClassification | backend/foundation_models/routes.py:18-49 | Both handlers answer every failure with the same status and detail. |
| FoundationModelsRoutes.ProviderCodes | backend/foundation_models/routes.py:75-78 | Access denied is 403 with the message; not-found is 500 "ResourceNotFoundException: message". |
| StoryServices.Given | backend/story_playground/services.py:26-29 | `theme if theme else ...`: a value counts as given when it is present and not empty. |
| StoryServices.Choose | backend/story_playground/services.py:26-29 | A non-empty given value is used verbatim; otherwise the result is a member of the list. |
| StoryServices.EveryCandidateReachable | backend/story_playground/services.py:26-29 | Every list member can be drawn when no value is given. |
| StoryServices.LengthClause | backend/story_playground/services.py:32-37 | "short" and "long" each get their own clause, and every other value gets the medium one. Each direction of these facts is proved. |
| StoryServices.CharacterClause | backend/story_playground/services.py:40 | The clause is "featuring N main character", followed by "s" exactly when N > 1. |
| StoryServices.CharacterClauseSays | backend/story_playground/services.py:40 | The clause contains "N main character", and "N main characters" when N > 1. |
| StoryServices.GenerateRandomPrompt | backend/story_playground/services.py:22-45 | The prompt is the template filled with the length clause, the chosen genre and theme, the character clause and the title instruction. |
| StoryServices.PromptFrame | backend/story_playground/services.py:43 | A prompt starts with "Write " + the length clause and ends with the instruction. |
| StoryServices.PromptHasGenre | backend/story_playground/services.py:43 | A prompt contains its genre. |
| StoryServices.PromptHasTheme | backend/story_playground/services.py:43 | A prompt contains its theme. |
| StoryServices.PromptHasCharacters | backend/story_playground/services.py:43 | A prompt contains its character clause. |
| StoryServices.PromptMentions | backend/story_playground/services.py:22-45 | The generated prompt opens with the length clause and names the chosen genre and theme. It says "N main character" ("N main characters" when N > 1) and closes with the title instruction. |
| StoryServices.DefaultPromptExample | backend/story_playground/test_services.py:9-12 | With the defaults the prompt asks for the medium-length story and says "1 main character". |
| StoryServices.ChosenPromptExample | backend/story_playground/test_services.py:15-25 | With "mystery", "thriller", 3 and "short" the prompt asks for a short story, names both words and says "3 main characters". |
| StoryServices.StoryRequest | backend/story_playground/services.py:54-70 | The request goes to "anthropic.claude-3-5-sonnet-20240620-v1:0" without a system prompt; it has the limits given and the prompt as its one user message. |
| StoryServices.ExtractTitleAndStory | backend/story_playground/services.py:77-84 | A first line starting with "Title:" gives that line with "Title:" removed and stripped, and the stripped text after the first newline ("" without one); neither part then has whitespace at its ends. Otherwise the result is "Untitled Story" and the text unchanged. |
| StoryServices.TitledSplit | backend/story_playground/services.py:77-80 | "Title:" + line + "\n" + rest splits into the stripped line without "Title:" and the stripped rest. |
| StoryServices.UntitledKeepsText | backend/story_playground/services.py:81-84 | A text not starting with "Title:" keeps the placeholder title and becomes the story as it is, whitespace included. |
| StoryServices.UntitledExample | backend/story_playground/services.py:81-84 | "  Once upon a time.\n" is kept untouched as the story. |
| StoryServices.TitleExample | backend/story_playground/test_services.py:37-45 | "Title: Test Story\n\nThis is a test story." gives "Test Story" and "This is a test story.". |
| StoryServices.SplitStoryText | backend/story_playground/services.py:77 | The split succeeds exactly on a string, giving its title and story; anything else raises AttributeError "'T' object has no attribute 'split'". |
| StoryServices.StoryText | backend/story_playground/services.py:74 | Success exactly when `content[0].text` exists, and then the result is that value. A missing "content" raises TypeError on None. |
| StoryServices.GenerateStory | backend/story_playground/services.py:47-86 | One request, the story request of the generated prompt, is sent. A raised call is re-raised; otherwise the answer's text is split. |
| StoryServices.GenerateStoryExample | backend/story_playground/test_services.py:34-45 | With the pinned answer and the defaults, the result is ("Test Story", "This is a test story.") whatever was drawn. |
| HealthService.FailureEntry | backend/health/service.py:54-104 | Each failure kind gives one entry with its type name. ClientError records the code and the message, with "Unknown error" for a missing message. The credential errors record their fixed messages and details. |
| HealthService.Summaries | backend/health/service.py:39 | `response.get('modelSummaries', [])`: the summaries, or none when the key is absent. |
| HealthService.ProjectSummary | backend/health/service.py:44-50 | The names are copied as found (None when absent), and absent modalities become []. |
| HealthService.CheckBedrockHealth | backend/health/service.py:9-106 | The region is echoed. The client is initialized exactly when its creation did not raise. "healthy" holds exactly when nothing raised, and exactly when the error list is empty. Each failure adds exactly one entry. On success model_count is the number of summaries, with one projected entry per summary, in order. |
| HealthService.ProjectDetails | backend/health/service.py:141-153 | Present fields are copied and absent lists become []; a missing `modelDetails` reads as `{}`. |
| HealthService.AttemptFailure | backend/health/service.py:128-139 | The attempt fails exactly when the client creation or the lookup raised. The client creation's failure comes first; otherwise the lookup's own failure is the one recorded. |
| HealthService.NotFoundGuidance | backend/health/service.py:191-195 | The not-found guidance text, naming the model and the region. |
| HealthService.AccessDeniedGuidance | backend/health/service.py:196-200 | The access-denied guidance text, naming the model. |
| HealthService.GuidanceFor | backend/health/service.py:190-200 | The not-found code gets exactly the not-found guidance and the access-denied code exactly the access-denied guidance, each as one Guidance entry without a code; any other code gets none. |
| HealthService.ValidateModel | backend/health/service.py:109-218 | Accessible exactly when nothing raised, and then there are no errors and the details are set. Otherwise there are no details, and the errors are one failure entry plus the guidance for the provider code. |
| HealthService.GuidanceNamesModel | backend/health/service.py:190-200 | The guidance texts name the model id, and the not-found text also names the region. |
| HealthRoutes.TargetRegion | backend/health/routes.py:29 | An absent or empty region becomes "us-east-1"; any other region is kept. |
| HealthRoutes.HealthCheckResponse | backend/health/routes.py:33-53 | A returned report is 200, unchanged. Only an exception gives 500 "Health check failed with unexpected error: ...". |
| HealthRoutes.UnhealthyIsStillOk | backend/health/routes.py:37-41 | An unhealthy report is still answered with 200. |
| HealthRoutes.AnyCode | backend/health/routes.py:88-94 | `any(error.get("code") == code for error in errors)`: some entry carries that code. |
| HealthRoutes.NotFoundDetail | backend/health/routes.py:89-92 | The 404 detail, naming the model and the target region. |
| HealthRoutes.AccessDeniedDetail | backend/health/routes.py:95-98 | The 403 detail, naming the model. |
| HealthRoutes.ValidateModelResponse | backend/health/routes.py:82-114 | An accessible report is 200 unchanged. An inaccessible one is 404 exactly when some error has the not-found code; failing that, 403 exactly when one has the access-denied code; otherwise 200. An exception is 500. |
| HealthRoutes.NotFoundBeforeAccessDenied | backend/health/routes.py:88-98 | With both codes present the answer is 404. |
| HealthRoutes.HealthCheck | backend/health/routes.py:10-53 | End to end the answer is always 200 with the service's report, unchanged. The report is well formed and is for the target region. It is healthy exactly when nothing raised. The client is initialized exactly when its creation did not raise. Each failure gives its one entry. A healthy report lists one projected entry per summary, in order. |
| HealthRoutes.ValidateModelEndpoint | backend/health/routes.py:56-114 | End to end the answer is 404 exactly for a provider not-found and 403 exactly for a provider access-denied; every other outcome is 200 with the report. That report is well formed, is for the model and the target region, and is accessible exactly when nothing raised. An accessible report has the projected details. A failed one has the failure entry first, followed by the guidance for its code. |
| HealthRoutes.CodesOfReport | backend/health/routes.py:88-98 | In a failed validation report only the failure entry has a code: a code is found exactly when it is the provider's. |

## Left out

- Network calls and client construction are not modelled. This covers
  `boto3.client`, `invoke_model`, `list_foundation_models`,
  `get_foundation_model` and the module-level clients. Each call is a
  parameter: what it returned, or the failure it raised.
- JSON encoding and decoding (`json.dumps`, `json.loads`, `body.read()`) are
  not modelled. Bodies are `Values.Value` trees.
- Logging and stack traces are not modelled. The exceptions are the two
  `len(...)` arguments of the image service's log messages
  (backend/image_playground/services.py:60 and 64): they are evaluated eagerly
  and can raise, so `ImageServices.ReadImage` models them. No other log
  argument in the core can raise on the values it receives.
- backend/test_bedrock_access.py is not part of this model: it is an
  interactive console diagnostic that only prints and writes a file.
- backend/foundation_models/service.py is not part of this model: it passes
  one response field through. The foundation-model routes take its result as
  a parameter.
- backend/main.py, a set of router registrations, is not part of this model.
- The chat, image and story route files are not part of this model. They are
  single try/except wrappers with the same 403/500 status split as
  `RouteErrors.Classify`; their detail texts differ.
- Floating-point temperatures are `real` values that are only passed through.
  No float arithmetic or JSON rendering of them is modelled.
- `random.choice` is a `draw` parameter: the distribution is not modelled.
- HealthService.CheckBedrockHealth and HealthService.ValidateModel: the
  listing and lookup answers are typed records (`ModelSummary`,
  `ModelDetailsIn`) with optional fields, following the provider's response
  shapes. The projections at backend/health/service.py:40-50 and 141-153
  therefore cannot raise part-way. A malformed answer that made the source
  raise there is not modelled: it would leave `model_count` set with a partial
  model list, or `accessible` true with no `model_details`.
- PyStr.Strip: `str.strip()` is modelled on the ASCII characters it removes
  (space, tab, newline, carriage return, vertical tab, form feed and the
  separators U+001C to U+001F). Python also strips non-ASCII whitespace such
  as U+0085, U+00A0 and U+2028.
- StoryServices.GenerateRandomPrompt: `characters` is an `int`. The request
  model allows `None`, which the source would render as "None" and then fail
  to compare with `> 1`; that path is not modelled.
- TextRoutes.Invoke: a Claude completion that is not a string is reported as
  a 500 "ValidationError: ..." with a fixed text. No response-model
  validation message is modelled. backend/text_playground/models.py is not
  part of this model, so it is an assumption that `TextResponse.completion` is
  a `str` field that rejects a non-string instead of coercing it.
- Python's exception texts are modelled for the cases the adapters hit. These
  are KeyError, IndexError, TypeError and AttributeError on JSON-shaped
  values. `str(e)` of a provider error is not modelled because the routes use
  its code and message instead.
- HealthRoutes.ValidateModelEndpoint and HealthRoutes.HealthCheck: the service
  methods as modelled never raise, so the routes' 500 path is reachable only
  through `HealthCheckResponse` and `ValidateModelResponse`, which take the
  service outcome as a parameter.

