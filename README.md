# Kevin AI SOP automation pipeline — a verified Dafny model

Kevin AI reads a standard operating procedure (a PDF or DOCX file), an
optional process diagram and a business domain. It runs eight LLM-backed
agents, one after another, over a shared `AgentState` record:

1. SOP analysis
2. process mapping
3. gap identification
4. automation opportunities
5. future-state design
6. test-case generation
7. code generation
8. KPI/SLA calculation

It then turns the result into PDF and PowerPoint reports. A FastAPI layer
authenticates its clients with Azure AD, and a development-only
username/password endpoint also exists.

This project models the deterministic core of that system and proves what it
promises. The models are:

- **`Agents`** (agents.dfy): the `AgentState` record as a class. Each of the
  eight stages is a method that updates it in place, and each is specified by
  a pure stage function on a `Snapshot` of the fields.
  `MasterOrchestratorAgent.process` builds the initial state and runs the
  stages in graph order. The lemmas cover a whole run: when it raises, the
  one log line per stage, the errors that accumulate, and what ends up in
  every field.
- **`Fences`** (fences.dfy): how a stage pulls a ```` ```json ```` or
  ```` ```mermaid ```` block out of a free-text reply with `str.split`, and
  the future-state map's fallback to the current-state map.
- **`StructureParser`** (structure.dfy): `DocumentProcessor.parse_structure`.
  It is a loop over the stripped lines that records upper-case headings and
  numbered steps.
- **`LlmFactory`** (llm.dfy): `Settings` and `get_llm`, which choose the chat
  client for the configured provider.
- **`Export`** (export.dfy): the data that `create_pdf_report`,
  `create_pptx_report` and `mermaid_to_image` hand to their rendering
  libraries. This covers:
  - the mermaid.ink URL;
  - the truncated maps;
  - the executive summary;
  - the opportunity and test-case tables;
  - the per-type counts;
  - the detailed examples;
  - the empty-list placeholders;
  - the slides.
- **`AzureAuth`** (azure_auth.dfy): the decision logic of `AzureADAuth`:
  - how the result of client-credentials acquisition is mapped;
  - signing-key selection and the error mapping of `verify_token`;
  - the user's claims;
  - the scope check.
- **`AuthEndpoints`** (auth_endpoints.dfy): the `/token` and `/token/legacy`
  endpoints of Update_auth.py.

These supporting modules state the Python built-ins and standards the core
relies on:

- `PyStrings`: `find`, `split`, `strip`, `split()`, `isupper`, `[:n]`, and
  `:02d` and `:,.0f` formatting.
- `JsonValues`: decoded JSON, `dict.get`, truth values and `str()`.
- `Histograms`: an insertion-ordered counting dict.
- `Utf8`: UTF-8 as in RFC 3629.
- `Base64`: section 4 of RFC 4648.
- `Wrappers`: `Option` and `Result`.

Everything outside the program is an input to the model:

- the text the document extractor returns;
- each stage's LLM reply;
- `json.loads`, as a partial function;
- the clock readings;
- MSAL's token answer;
- the JWKS key set and the token header;
- `jwt.decode`;
- the legacy token minter.

## Model

| member | source | states |
|---|---|---|
| Agents.InitialState | kevin_agents.py:835-856 | The initial state keeps the paths, domain, session id and timestamp given. Every output field is at its empty default (`""`, `[]`, `{}`, `None`), and the logs and errors are empty. |
| Agents.AgentState.constructor | kevin_agents.py:835-856 | The new state object's fields are exactly `InitialState`. |
| Agents.AnalyzeStageSpec | kevin_agents.py:247-298 | The SOP stage fails exactly when the path ends in neither `.pdf` nor `.docx`, with the `ValueError` text. Otherwise it sets `sop_text` and the parsed structure. `detailed_analysis` is present exactly when the reply parses, and one error is appended exactly when it does not. It logs one line and changes nothing else. |
| Agents.Analyze | kevin_agents.py:247-298 | On an unsupported file type, the method returns the error and leaves the state untouched. Otherwise the new state is the SOP stage applied to the old one. |
| Agents.RecordAnalysis | kevin_agents.py:260-297 | Once the file type is accepted, the state becomes the SOP stage's success state `Analyzed` for the parsed structure and reply. |
| Agents.MapProcess | kevin_agents.py:310-360 | The new state is the old one with the extracted current-state map and one log line. |
| Agents.GapStageSpec | kevin_agents.py:372-416 | With no diagram path (`None` or `""`), `gap_analysis` becomes `None`, the skip line is logged, and nothing else changes. With a diagram path, the reply is stored with its timestamp, an image path sets the placeholder diagram content, and one completion line is logged. |
| Agents.IdentifyGaps | kevin_agents.py:372-416 | The new state is the gap stage applied to the old one. |
| Agents.ParsingStagesSpec | kevin_agents.py:428-481 | In the opportunity, test-case and KPI stages, the field is the parsed value when the reply parses, and `[]`, `[]` or `{}` when it does not. Exactly one error is appended exactly when parsing fails. One log line is added and nothing else changes. |
| Agents.IdentifyOpportunities | kevin_agents.py:428-481 | The new state is the opportunity stage applied to the old one. |
| Agents.DesignFutureState | kevin_agents.py:493-552 | The new state holds the future-state map (the reply's ```` ```mermaid ```` block, else the current map), the stamped reply and one log line. |
| Agents.GenerateTestCases | kevin_agents.py:564-620 | The new state is the test-case stage applied to the old one. |
| Agents.GenerateCode | kevin_agents.py:632-705 | The new state holds the stamped reply and one log line. |
| Agents.CalculateKpis | kevin_agents.py:717-780 | The new state is the KPI stage applied to the old one. |
| Agents.Process | kevin_agents.py:832-860 | The run fails with the SOP stage's error, or returns a fresh state equal to the whole pipeline applied to the initial state. |
| Agents.PipelineFails | kevin_agents.py:820-828 | A run raises exactly on an unsupported SOP file type, and then with its message. |
| Agents.PipelineLogs | kevin_agents.py:820-828 | A successful run appends exactly the eight lines of `StageLogs` after the existing ones, one per stage in graph order. Line i begins with the name of the i-th stage. |
| Agents.StageLineNamesStage | kevin_agents.py:378 | The gap stage's log line names the stage, whether it ran or was skipped, and so does every other stage's line. |
| Agents.PipelineErrors | kevin_agents.py:820-828 | The errors only accumulate: one per JSON stage whose reply does not parse, in stage order, so at most four per run. |
| Agents.PipelineOutputs | kevin_agents.py:820-828 | This lemma states every field a successful run leaves: the document text and its structure, both maps, each parsed value or its default, the stamped free-text results, and the untouched inputs and identifiers. |
| Agents.FutureMapFallsBack | kevin_agents.py:538-541 | In a run, the future-state map is the design reply's mermaid block when there is one. Otherwise it is the map the process-mapping stage extracted. |
| Fences.PreferredBlock | kevin_agents.py:349-356 | When the reply has a ```` ``` ````, the extracted block has none. A reply without one is returned whole. |
| Fences.ExtractJsonCases | kevin_agents.py:284-289 | The JSON text is a slice of the reply. With ```` ```json ````, it starts right after the first ```` ```json ```` and ends at the end of the reply or where a ```` ``` ```` begins, which need not be the first one after the opener. Otherwise it is the text between the first two ```` ``` ````, or the whole reply. |
| Fences.ExtractJsonHasNoFence | kevin_agents.py:284-289 | The extracted JSON text never contains ```` ``` ````. |
| Fences.ExtractJsonKeepsBackticksBeforeNextOpener | kevin_agents.py:285 | Splitting on ```` ```json ```` first can leave stray backquotes. For the reply ```` ```jsonA`````json ```` the extracted text is ``A`` followed by two backquotes, not `A`. |
| Fences.PlainFenceBetweenFirstTwo | kevin_agents.py:286-287 | Without a ```` ```json ```` fence, the text runs from the first ```` ``` ```` to the second one or to the end. |
| Fences.FencedBodyLocated | kevin_agents.py:350-351 | The body of the first opener block starts right after that opener and stops at the next ```` ``` ```` or at the end. |
| Fences.CurrentStateMapShape | kevin_agents.py:349-356 | The current-state map is a slice of the reply and holds no ```` ``` ```` when the reply has one. |
| Fences.PreferredBlockIsSlice | kevin_agents.py:349-356 | Whichever branch is taken, the stripped block is a slice of the reply. |
| Fences.FutureStateMapFallback | kevin_agents.py:538-541 | With a ```` ```mermaid ```` fence, the future map equals the current-state extractor's result. Without one, it is the current map unchanged. |
| StructureParser.ParseStructure | kevin_agents.py:200-234 | The loop computes `StructureOf(text)`. Actors, systems and decision points are empty. |
| StructureParser.CurrentIsLatestSection | kevin_agents.py:219-221 | The current section is the latest heading read, or "Introduction" when there is none. |
| StructureParser.SectionsAreHeadingLines | kevin_agents.py:219-220 | Every stripped line that is upper-case and longer than 5 characters is a section, and every section is such a line. |
| StructureParser.SectionsInDocumentOrder | kevin_agents.py:213-220 | The sections follow the document: the k-th section is the line at the k-th heading index, and the indices strictly increase. |
| StructureParser.EveryHeadingListed | kevin_agents.py:213-220 | Every heading line's index is among the heading indices, so a repeated heading is listed once per occurrence. |
| StructureParser.StepsWellFormed | kevin_agents.py:224-230 | Every step is a step line. It records its own 1-based line number, the stripped line, the section current at that line and the type `manual`. Step numbers strictly increase. |
| StructureParser.StepIffStepLine | kevin_agents.py:224 | A line number is recorded as a step exactly when its stripped line starts with a digit and has `.` or `)` in its first 4 characters. |
| StructureParser.HeadingStepIsOwnSection | kevin_agents.py:219-227 | A line that is both a heading and a step has itself as its section. |
| StructureParser.NoHeadingMeansIntroduction | kevin_agents.py:206 | In a document without headings, every step is under "Introduction". |
| StructureParser.SectionsPrefix | kevin_agents.py:220 | Reading more lines only appends sections. |
| LlmFactory.GetLlm | kevin_agents.py:114-143 | `get_llm` raises exactly for a provider other than azure, openai or anthropic, with the `ValueError` text. Otherwise the client has the provider's kind, the given temperature or the configured one, and the configured token limit. Its API key is that provider's key, and an Azure client also carries the configured endpoint and API version. |
| LlmFactory.ModelChoice | kevin_agents.py:124 | A non-empty model name overrides the provider's default model, and `None` or `""` falls back to it. |
| LlmFactory.DefaultAgentClients | kevin_agents.py:244 | Under the default settings, each agent gets the Azure `gpt-4o` deployment with API version `2024-02-15-preview`, 4000 tokens and its own temperature. |
| Export.MermaidUrlSegment | export_utils.py:40-48 | The URL is the mermaid.ink prefix, a segment without `?`, and the type query. Base64-decoding the segment and then UTF-8-decoding it gives back the diagram text. |
| Export.MermaidUrlType | export_utils.py:45-48 | The URL ends in `?type=jpeg` exactly when the lower-cased format is `jpg` or `jpeg`, and in `?type=png` otherwise. |
| Export.Truncated | export_utils.py:150 | A map of at most 2000 characters is unchanged. A longer one becomes its first 2000 characters plus `...`, 2003 characters in all. |
| Export.MapSection | export_utils.py:145-164 | An empty map gives the heading and the placeholder. Otherwise it gives three blocks, the last being the truncated map in `<pre>`. |
| Export.SummaryRows | export_utils.py:114-126 | The summary table has five rows: the header, the two counts, the savings cell, and the processing time. It needs every savings figure to be a number, as `sum` does. For a non-negative total, the savings digits read back as `float` of the sum, which is the sum itself up to 2^53. |
| Export.Dollars | export_utils.py:182 | `${n:,.0f}` starts with `$`, then `-` for a negative `n`. Its digits without the commas read back as `float(|n|)`, and as `|n|` itself when `|n| <= 2^53`. |
| Export.RowId | export_utils.py:177 | An ID is the prefix followed by at least two digits that read back as the index. |
| Export.RowIdsDistinct | export_utils.py:177 | Rows at different positions get different IDs. |
| Export.OpportunityRowCells | export_utils.py:176-184 | An opportunity row has one cell per column: the `AO-` ID, stage and type cut to 15 characters, and the activity cut to 40 characters plus `...`. Missing fields give `N/A`, `N/A...` and `P2`. |
| Export.ImpactCell | export_utils.py:181 | The impact cell ends in `%`. A string of hours is repeated twice before it, as Python's `str * 2` does. |
| Export.OpportunityRowSavings | export_utils.py:182 | The savings cell starts with `$`. For a non-negative figure, its digits read back as `float` of the figure, which is the figure itself up to 2^53. |
| Export.OpportunityTable | export_utils.py:171-184 | The loop builds the header followed by one enumerated row per opportunity. |
| Export.OpportunityTableShape | export_utils.py:171-184 | The table is the header plus one row per opportunity in order. Row k describes opportunity k. |
| Export.OpportunityTableIdsDistinct | export_utils.py:177 | No two data rows of the table share an ID. |
| Export.TypeLines | export_utils.py:203-211 | The counting loop and the line loop produce the per-type lines of the histogram. |
| Export.TypeLinesCount | export_utils.py:205-211 | There is one line per distinct type (a missing type counts as "Unknown"), in order of first occurrence. Each line gives the number of items of that type, and the counts add up to the number of items. |
| Export.BuildOpportunitySection | export_utils.py:168-214 | The section's appends produce `OpportunitySection`. |
| Export.OpportunitySectionPlaceholder | export_utils.py:213-214 | The section has a table exactly when there are opportunities. With none, it is the heading and "No automation opportunities identified." |
| Export.Status | export_utils.py:231 | The status is "Manual" exactly when `automated` is present and falsy, and "Auto-Ready" otherwise. |
| Export.TestCaseRowCells | export_utils.py:226-232 | A test row has the `TC-` ID and the name cut to 50 characters. It defaults to `Functional` and `Medium`, and its last cell is the status. |
| Export.TestCaseTable | export_utils.py:221-232 | The loop builds the header and one row for each of the first 20 test cases. |
| Export.TestCaseTableShape | export_utils.py:221-232 | The test table has at most 20 data rows, from the first test cases in order, with distinct IDs. |
| Export.ExamplesOnlyFirstThree | export_utils.py:255 | The detailed examples depend only on the first three test cases. |
| Export.TestSectionPlaceholder | export_utils.py:293-294 | With no test cases, the section is the heading and "No test cases generated." Otherwise it holds a table. |
| Export.TopOpportunities | export_utils.py:355-364 | `tf.clear()` leaves one empty paragraph, and the slide loop appends the paragraphs of the first five opportunities after it. |
| Export.TopOpportunitiesShape | export_utils.py:355-364 | The slide's text frame holds the empty paragraph `tf.clear()` leaves, then a headline and a detail for each of the first five opportunities, in order: 1 + 2·min(n, 5) paragraphs, at most eleven. With no opportunities only the empty paragraph remains. |
| Export.TopOpportunitiesLevels | export_utils.py:359-364 | After the empty paragraph, headlines sit at level 0 and details at level 1, alternating. |
| Export.CoverageShape | export_utils.py:373-385 | The coverage slide opens with the total at level 0. Then comes one level-1 line per distinct type, in order of first occurrence, with the number of tests of that type. |
| Export.SummarySlideMatchesTable | export_utils.py:333-345 | The summary slide shows, at level 0, each label and value of the PDF summary table. |
| Histograms.Count | export_utils.py:205-208 | The loop `d[x] = d.get(x, 0) + 1` builds `Tally(xs)`. |
| Histograms.TallyKeys | export_utils.py:205-208 | The dict's keys are exactly the values seen, each once, and exactly the keys of the counts. |
| Histograms.TallyCounts | export_utils.py:205-208 | Each count is the number of items with that value. |
| Histograms.TallyTotal | export_utils.py:205-208 | The counts add up to the number of items. |
| Histograms.TallyOrder | export_utils.py:210 | Keys are in order of first occurrence. |
| Utf8.DecodeEncode | export_utils.py:40 | Decoding the UTF-8 encoding of any text gives the text back. |
| Base64.Encode | export_utils.py:41 | The encoding has 4 characters for every started group of 3 bytes. |
| Base64.DecodeEncode | export_utils.py:41 | Decoding the base64 encoding of any bytes gives the bytes back. |
| AzureAuth.TokenForClientOutcome | Azure_auth.py:57-81 | Client-credentials acquisition succeeds exactly when MSAL returned both `access_token` and `expires_in`. It then copies them with `token_type` `Bearer`. Every failure is 500 "Authentication service error", including the inner 401 for a missing `access_token`. |
| AzureAuth.RsaKey | Azure_auth.py:104-111 | A key is built exactly when `kty`, `kid`, `use`, `n` and `e` are all present, and it holds just those five fields in that order. |
| AzureAuth.SelectKey | Azure_auth.py:99-112 | The key loop with its `break` computes `FindKey`. |
| AzureAuth.FindKeyFirstMatch | Azure_auth.py:102-112 | The chosen key is the first whose `kid` equals the header's. Every earlier key has a different `kid`. |
| AzureAuth.FindKeyNotFound | Azure_auth.py:102-118 | No key is chosen and nothing is raised exactly when every key is a dict whose `kid` differs from the header's. |
| AzureAuth.VerifyTokenRejections | Azure_auth.py:83-144 | Every rejection is 401. Only a `JWTError` carries `WWW-Authenticate: Bearer`, and the "Unable to find signing key" detail never reaches the caller. |
| AzureAuth.VerifyTokenAccepts | Azure_auth.py:99-130 | A token is accepted exactly when a key is chosen and `jwt.decode` returns a payload with it. That payload is returned. |
| AzureAuth.NoMatchingKey | Azure_auth.py:114-118 | With no matching key, the body raises 401 "Unable to find signing key". The caller sees 401 "Authentication failed". |
| AzureAuth.DecodeRejected | Azure_auth.py:132-138 | A `JWTError` gives 401 "Could not validate credentials" with the bearer challenge. |
| AzureAuth.CurrentUser | Azure_auth.py:162-167 | The claims map to a user exactly when `scp` is falsy or a string. |
| AzureAuth.CurrentUserClaims | Azure_auth.py:162-167 | `client_id` is `azp` when truthy, else `appid`. Roles default to `[]`. Scopes are the whitespace-separated words of `scp`, or `[]` when `scp` is falsy. |
| AzureAuth.RequireScope | Azure_auth.py:176-190 | The check passes exactly when the required scope is one of the user's scopes. Otherwise it is 403 with the required scope in the detail. |
| AzureAuth.RequireScopeOfToken | Azure_auth.py:162-190 | The check passes exactly when the required scope is a word of `scp`. An empty scope or one with whitespace never passes. |
| AuthEndpoints.GrantTypeGuard | Update_auth.py:66-70 | Any grant type other than `client_credentials` gets 400, whatever MSAL would answer. |
| AuthEndpoints.RequestedScopeIgnored | Update_auth.py:73-81 | The outcome depends only on MSAL's answer for the configured scope list `api://{client id}/.default`, never on the requested scope. |
| AuthEndpoints.TokenScopes | Update_auth.py:73 | One scope is sent to Azure AD: `api://`, then the configured client id, then `/.default`. |
| AuthEndpoints.GetTokenOutcomes | Update_auth.py:75-92 | `/token` answers 400, 500 or a token, never 401. A token is `Bearer` with MSAL's access token and lifetime. A missing `access_token` gives 500 "Authentication service error". |
| AuthEndpoints.LegacyOutcomes | Update_auth.py:102-113 | In production, the legacy endpoint refuses with 403 whatever the credentials. Elsewhere, it issues a token exactly for `mendix_client`/`secret` and answers 401 otherwise. |
| AuthEndpoints.LegacyToken | Update_auth.py:115-127 | A legacy token is minted for the user with a 30-minute lifetime and typed `bearer`. Its `expires_in` is 1800, that lifetime in seconds. |
| PyStrings.WordsSpec | Azure_auth.py:166 | `str.split()` yields non-empty words without whitespace that, concatenated, are the text without its whitespace. |
| PyStrings.SplitJoin | kevin_agents.py:285 | Joining the pieces of `split(sep)` with `sep` gives the text back. |
| PyStrings.StripIsSlice | kevin_agents.py:214 | `strip()` removes exactly the leading and trailing whitespace. |
| PyStrings.Pad2Value | export_utils.py:177 | `{i:02d}` has at least two digits that read back as `i`. |
| PyStrings.GroupedValue | export_utils.py:182 | For the integer value `n` of a double, the comma-grouped digits `{:,.0f}` prints read back as `n`. |
| PyStrings.ToDoubleNearest | export_utils.py:182 | `float(n)` keeps a significand of at most 53 bits times the gap between doubles at `n`. It is at most half that gap from `n`, and equals `n` for every `n` up to 2^53. |
| PyStrings.RoundBitsNearest | export_utils.py:182 | Rounding an integer plus a dropped fraction to 53 significant bits moves it by at most half the gap. |
| PyStrings.RoundBitsSignificand | export_utils.py:182 | The rounded value is a significand of at most 2^53 times the gap. |
| PyStrings.UlpSpec | export_utils.py:182 | The gap is a power of two and leaves a quotient of at most 53 bits, and of exactly 53 bits above 2^53. |
| PyStrings.ToDoubleRoundsPast2To53 | export_utils.py:182 | `float(2^53 + 1)` is 2^53, so `{:,.0f}` prints 9,007,199,254,740,992 for it. |

## Left out

- The LLM calls and their prompts are left out. Each reply is an arbitrary string input, and `json.loads` is a partial function input.
- LangGraph's `StateGraph` execution and the `operator.add` reducers on `agent_logs` and `errors` are left out. The stages are modelled as sequential in-place updates of one state object, in the order the graph's edges give.
- Document extraction is left out: PyMuPDF, python-docx, OCR and the under-50-characters OCR heuristic. The extracted text is an input.
- Clock readings (`datetime.now()`, the session id and timestamps) are inputs, not computed.
- Floating point is not modelled beyond the `int` to `float` conversion of `:,.0f`. Temperatures are reals. A savings or hours figure that is itself a JSON float is not modelled: JSON numbers are integers here.
- Export.Dollars, PyStrings.Money: the conversion keeps rounding past the largest double; Python raises `OverflowError` from about 1.8e308 (2^1024 - 2^970) upwards, and the model prints the rounded value instead.
- Export.OpportunityTable, Export.BuildOpportunitySection, Export.SummaryRows, Export.SummarySlide, Export.SummarySlideMatchesTable and Export.TopOpportunities require every savings figure to be a number (a boolean counts as 0 or 1) or missing, because Python's `sum` and `:,.0f` raise `TypeError` or `ValueError` for a string, `None`, a list or a dict. The table also requires hours that `* 2` accepts: a number, a string or a list (repeated twice), or missing; Python raises for `None` and for a dict.
- Export inputs are lists of JSON objects (`seq<Record>`). The pipeline stores whatever `json.loads` returns, and a top-level object, a string or non-object items make the Python export raise `AttributeError` at `opp.get` and `test.get` (export_utils.py:176-182, 207, 226-229, 359, 379) or iterate over an object's keys. The model does not follow those paths.
- Histograms.Count, Export.TypeLines and Export.TypeLinesCount count any JSON value as a type. In Python an unhashable `automation_type` or `test_type` (a list or an object) raises `TypeError` as a dict key (export_utils.py:208, 288, 380); the model does not raise.
- Rendering is left out: reportlab and python-pptx layout, the PDF and slide header lines built from `datetime.now().strftime` and `capitalize()`, the static "Recommended Next Steps" slide, the `requests.get` to mermaid.ink and the PIL placeholder image. Only the data handed to them is modelled. The test-case details pass `description` and `expected_result` to reportlab's `Paragraph` without `str()` (export_utils.py:263, 279); a non-string value fails inside reportlab, while the model shows its `str()`.
- MSAL, the JWKS fetch, `jwt.get_unverified_header`, `jwt.decode` with its signature, audience and issuer checks, and `create_access_token` are inputs to the model: an `Acquirer`, an optional key set, an optional header, a `Decoder` and a `Minter`.
- Logging (structlog calls), `async` and FastAPI's dependency injection are left out.
- `str.isupper`, `str.isdigit` and `str.lower` are modelled on ASCII letters and digits only. `str()` and `repr()` of JSON values do not escape characters.
- Python dict-key equality (such as `1 == True`) is not modelled. JSON values compare structurally, so an object `kid` must match pair for pair and in order.
- A JSON object may repeat a key, which no dict from `json.loads` can: Python keeps one entry, at the first key's position with the last value. `Lookup` follows that, but `Str` prints a repeated key and `Items` iterates it once per occurrence.
- Pydantic's lax coercions in `TokenResponse(**result)`, such as a numeric string accepted for `expires_in`, are not modelled: only exact string and integer fields are accepted.
- The Streamlit and Gradio UI files, kevin_api.py, backend_connector.py, prompts.py and the prompt integration test are not part of this model.
- `DocumentProcessor.extract_*` and `get_embeddings` are foreign calls and are not part of this model.
