# RoadVLM response parsing, modelled in Dafny

RoadVLM asks a vision-language model about a driving scene. This project models the code that turns the model's reply into typed records, and proves properties of it. Two reply formats are covered:

- **Four-line prediction reply.** `Model._parse_response` reads a reply of four text lines (`Action: <TOKEN>, Confidence: <NUM>`, `Weather:`, `Time:`, `Road:`). It returns a `Prediction` and a `SceneContext`, or raises `ResponseParsingError`. `Model.predict` turns every failure into a `ModelError`.
- **JSON scene analysis.** `SceneAnalyzer.analyze` reads a JSON reply, in these steps:
  - shape checks: `objects` defaults to empty and `context` is required;
  - a geometric validator for normalized bounding boxes;
  - an object-list builder that skips malformed entries and converts coordinates to an integer 0–1000 "millirange";
  - a context parser;
  - an in-place rescale of every box to pixels.
- **Value types.** Both parsers build the records and enums of `src/utils/data_types.py`.

Modules:

| file | module | contents |
|---|---|---|
| `wrappers.dfy` | `Wrappers` | `Option` and `Result` |
| `text.dfy` | `Text` | the Python string operations both parsers use: `strip`, `split("\n")`, `"\n".join`, `lower`, and the `\s`, `\w`, `\d` character classes |
| `json_value.dfy` | `JsonValue` | a decoded JSON value, as `json.loads` hands it over |
| `data_types.dfy` | `DataTypes` | the enums, `BoundingBox`, and the records with their field constraints |
| `model.dfy` | `Model` | the four-line grammar, the record building, and the error mapping of `predict` |
| `scene_analyzer.dfy` | `SceneAnalyzer` | the JSON pipeline |

How the model is shaped:

- **Regular expressions.** Each of the four line patterns is written twice:
  - a scanner that behaves like the greedy regex engine;
  - a ghost predicate that states the pattern's language.
  
  Lemmas prove that the two agree. The whole parser is then characterised declaratively by `ParseContentSpec`.
- **Dynamic typing in the JSON pipeline.** It is modelled explicitly, because it decides the outcome. Subscripting, iterating, `len`, comparisons, `.lower()`, `.strip()` and `float()` on the wrong kind of JSON value raise the exception Python would raise. Whether that exception is a `KeyError`/`ValueError` or something else decides whether `_parse_objects` skips the entry or the whole analysis fails.
- **Imperative parts** are `method`s proved against the specification functions:
  - the object loop, `ParseObjects`;
  - the in-place box rescale over an `array`, `RescaleBoxes`;
  - the dictionary update of `_parse_response`, `ParseResponse`;
  - `Analyze`.

Behaviours of the code that the model keeps:

- The confidence pattern `0?\.\d+|1\.0|1` rejects `"0"` but accepts `"0.0"`, `".5"` and `"1"`. `RejectedConfidenceTokens` shows this.
- `_parse_context` accepts a road description that strips to `""`. `BlankRoadAccepted` shows this.
- `BoundingBox` imposes no ordering or sign on its coordinates. `BoundingBoxViews` shows this.
- The object loop drops an entry when `_validate_bbox` rejects its box (a `continue`, no exception), or when it raises `KeyError` or `ValueError`; pydantic's `ValidationError` is a `ValueError`. Any other exception fails the whole analysis. This follows from `ParseEntry`, `MalformedEntriesAreTolerated` and `ParsedObjects`. The entries that raise `TypeError` are:
  - an entry that is not a dictionary;
  - a `bbox` that is a number, a bool or null;
  - a `bbox` that is a string or a dictionary of length 4;
  - a `bbox` list of four whose first coordinate outside [0,1] is not a number;
  - a `confidence` that is neither a number nor a string, when the box passed and the type is a member's value.
  
  A string or dictionary `bbox` of any other length fails the box test, and the entry is dropped. An unknown type raises `ValueError` before the confidence is read, so that entry is dropped too.
- Errors keep the source's two exception types, `ModelError` and `SceneAnalysisError`, not a finer error taxonomy. In the model each carries the underlying cause.

## Model

| member | source | states |
|---|---|---|
| DataTypes.ActionFromValue | src/utils/data_types.py:9-16 | a value that names an action is written in capitals and underscores only, so the lookup is case-sensitive |
| DataTypes.ObjectFromValue | src/utils/data_types.py:19-27 | a value that names an object type is written in small letters and underscores only |
| DataTypes.LightFromValue | src/utils/data_types.py:30-35 | a value that names a light state is written in small letters and underscores only |
| DataTypes.WeatherFromValue | src/utils/data_types.py:38-45 | a value that names a weather condition is written in small letters and underscores only, so a lower-cased token is the only form that can match |
| DataTypes.ActionValue | src/utils/data_types.py:9-16 | looking an action up by its own value gives back that action |
| DataTypes.ActionLookupExact | src/utils/data_types.py:9-16 | `ActionType(s)` succeeds exactly when s is some member's value, matched case-sensitively, and then returns that member |
| DataTypes.ObjectValue | src/utils/data_types.py:19-27 | looking an object type up by its own value gives back that type |
| DataTypes.ObjectLookupExact | src/utils/data_types.py:19-27 | `ObjectType(s)` succeeds exactly on a member's value, and then returns that member |
| DataTypes.LightValue | src/utils/data_types.py:30-35 | looking a light state up by its own value gives back that state |
| DataTypes.LightLookupExact | src/utils/data_types.py:30-35 | `TrafficLightState(s)` succeeds exactly on a member's value, and then returns that member |
| DataTypes.WeatherValue | src/utils/data_types.py:38-45 | looking a weather condition up by its own value gives back that condition |
| DataTypes.WeatherLookupExact | src/utils/data_types.py:38-45 | `WeatherCondition(s)` succeeds exactly on a member's value, and then returns that member |
| DataTypes.EnumValuesDistinct | src/utils/data_types.py:9-45 | within each enum, two members with the same value string are the same member |
| DataTypes.BoundingBoxViews | src/utils/data_types.py:48-69 | the tuple view determines the box; width and height are the differences of the tuple's coordinates; a box with swapped corners is accepted and has negative width |
| DataTypes.ValidateDetectedObject | src/utils/data_types.py:72-83 | construction succeeds exactly when confidence is in [0,1], and then returns the record unchanged; otherwise it reports the `confidence` field |
| DataTypes.ValidatePrediction | src/utils/data_types.py:86-91 | construction succeeds exactly when confidence is in [0,1], and then returns the record unchanged; otherwise it reports the `confidence` field |
| DataTypes.ValidateSceneContext | src/utils/data_types.py:94-102 | construction succeeds exactly when `time_of_day` is day, night, dawn or dusk; otherwise it reports `time_of_day`; the road text is unconstrained |
| DataTypes.OutputDefaults | src/utils/data_types.py:105-116 | omitting the optional fields gives no prediction, no objects, no image id and no processing time; such an output is valid exactly when its scene context is |
| Text.Strip | src/core/model.py:57 | the result is the input with a run of whitespace cut from each end: a contiguous slice whose dropped prefix and suffix are all whitespace, with no whitespace left at either end; it is empty exactly when the input is all whitespace |
| Text.Lower | src/core/scene_analyzer.py:165-166 | `lower()` keeps the length, maps each capital to its small letter, keeps every other character, and leaves no capital |
| Text.Split | src/core/model.py:63 | `split("\n")` gives at least one piece and no piece holds a newline |
| Text.Join | src/core/model.py:63 | `"\n".join` starts with the first line and puts a newline right after it when there are more |
| Text.JoinSplit | src/core/model.py:63 | joining the pieces of a split with newlines gives back the text |
| Text.SplitJoin | src/core/model.py:63 | splitting newline-free lines joined by newlines gives back exactly those lines |
| Text.NonBlankLines | src/core/model.py:63 | the kept lines are non-empty, stripped and newline-free, and there are at most as many as the pieces |
| Text.NonBlankIndices | src/core/model.py:63 | the non-blank positions are in range, strictly increasing, hold non-blank pieces, and include every piece that is not all whitespace |
| Text.NonBlankLinesSelect | src/core/model.py:63 | the kept lines are exactly the stripped pieces at the non-blank positions, in order |
| Model.FractionValue | src/core/model.py:112-115 | a decimal fraction `0.d…d` has a value in [0,1) |
| Model.ConfidenceValue | src/core/model.py:112-115 | every accepted confidence token has a value in [0,1], and the value is 1 exactly for `1` and `1.0` |
| Model.RejectedConfidenceTokens | src/core/model.py:72 | `0`, `1.5`, `1.00`, `-0.1`, `abc`, the empty string and `.` are rejected; `.5` reads 0.5, `0.25` reads 0.25 and `0.0` reads 0 |
| Model.MatchActionLine | src/core/model.py:71-78 | a matching action line starts with `Action:`, its action group is a non-empty run of word characters, and its confidence group is an accepted token |
| Model.MatchActionLineSound | src/core/model.py:71-78 | what the scanner returns is a decomposition the action pattern accepts |
| Model.MatchActionLineComplete | src/core/model.py:71-78 | every decomposition the action pattern accepts is found by the scanner with those groups, so no blank may come between the action word and the comma |
| Model.MatchActionLineSpec | src/core/model.py:71-78 | the scanner returns (action, confidence) if and only if the line is in the action pattern's language with those groups |
| Model.MatchKeywordLine | src/core/model.py:81-94 | a matching line starts with its keyword and its group is a non-empty word |
| Model.MatchKeywordLineSpec | src/core/model.py:81-94 | the weather and time scanners return a token if and only if the line is the keyword, whitespace, then exactly that word |
| Model.MatchRoadLine | src/core/model.py:97-99 | a matching line starts with `Road:` and its group is non-empty |
| Model.MatchRoadLineSound | src/core/model.py:97-99 | what the road scanner returns is a decomposition the road pattern accepts |
| Model.MatchRoadLineComplete | src/core/model.py:97-99 | the road scanner finds the group of the match the regex engine picks |
| Model.MatchRoadLineSpec | src/core/model.py:97-99 | the road scanner returns a group if and only if the line is `Road:`, whitespace, then the group, where the group starts with a non-blank unless it is the single character the lazy group must keep |
| Model.RoadGroupOfStrippedLine | src/core/model.py:97-120 | on a stripped line the road group is already stripped, so `road_type` is never empty |
| Model.MatchLines | src/core/model.py:71-99 | the four patterns are tried in order on lines 0–3: a failing action line is reported as such; otherwise a failing weather line; otherwise a failing time line; otherwise a failing road line, each with the line itself; a success holds each scanner's groups |
| Model.MatchLinesSpec | src/core/model.py:71-99 | the four lines match with given groups if and only if each line is in its own pattern's language with those groups |
| Model.BuildRecords | src/core/model.py:102-121 | fails with an invalid-enum error exactly when the action token is not a member's value, the lower-cased weather is unknown, or the lower-cased time is not one of the four; otherwise it builds two valid records from the groups |
| Model.BuildRecordsSpec | src/core/model.py:102-121 | record building returns (p, c) if and only if p's action value is the action token, p's confidence is the token's value, c's weather value and time are the lower-cased tokens, and c's road is the stripped road group |
| Model.ParseLines | src/core/model.py:70-128 | every failure on four lines is a ResponseParsingError |
| Model.ContentLines | src/core/model.py:57-63 | the lines the parser sees are non-empty, stripped and newline-free, and they are exactly the stripped forms of the non-blank pieces of the stripped reply split at newlines, in order, with no non-blank piece left out |
| Model.ParseContent | src/core/model.py:55-128 | any count of non-blank lines other than four fails with that count, whatever the lines say; every failure is a ResponseParsingError; a success is a valid prediction and context whose road description is non-empty |
| Model.ParseLinesSpec | src/core/model.py:70-128 | parsing four lines returns (p, c) if and only if some groups match the four patterns and describe p and c |
| Model.ParseContentSpec | src/core/model.py:55-128 | the parser returns (p, c) if and only if the reply has exactly four non-blank lines, in the order action, weather, time, road, each in its pattern's language, and describing p and c |
| Model.MatchedLinesStartWithKeywords | src/core/model.py:71-99 | if four lines match, they start with A, W, T and R in that order |
| Model.OrderOfMatchedShuffle | src/core/model.py:71-99 | a rearrangement of four well-formed lines matches only if it is the identity arrangement |
| Model.FixedLineOrder | src/core/model.py:71-99 | if four lines parse in order, the same lines joined in any other order fail |
| Model.JoinLinesRoundTrip | src/core/model.py:57-63 | joining stripped, non-blank, newline-free lines with newlines gives the parser exactly those lines |
| Model.RenderedResponseParses | src/core/model.py:55-128 | a reply written in the expected format parses to the records it names; weather and time match in any letter case |
| Model.Predict | src/core/model.py:130-159 | succeeds exactly when the model call succeeded and its reply parsed; the output carries both records, no objects, the caller's image id and no timing, and it is valid; a failed call becomes a ModelError with its message; a parse failure becomes a ModelError keeping the parser's reason; the ValidationError handler is never reached |
| SceneAnalyzer.Subscript | src/core/scene_analyzer.py:136-150 | `value[key]` succeeds exactly on a dictionary holding the key; otherwise it raises KeyError on a dictionary and TypeError on anything else |
| SceneAnalyzer.LowerOf | src/core/scene_analyzer.py:165-166 | `.lower()` succeeds exactly on a string and gives its lower-cased form; otherwise AttributeError |
| SceneAnalyzer.StripOf | src/core/scene_analyzer.py:167 | `.strip()` succeeds exactly on a string and gives its stripped form; otherwise AttributeError |
| SceneAnalyzer.FloatOf | src/core/scene_analyzer.py:150 | numbers and booleans convert exactly; a string converts to what the float syntax reads; the call fails exactly on a string the float syntax rejects (ValueError) and on null, a list or a dictionary (TypeError) |
| SceneAnalyzer.Trunc | src/core/scene_analyzer.py:144-149 | `int()` rounds toward zero: a non-negative real goes to its floor, a negative one to the integer at or just above it |
| SceneAnalyzer.ParsedResponse | src/core/scene_analyzer.py:77-103 | undecodable content fails; a dictionary passes exactly when it has `context`, gaining `objects` with every other key kept, and fails with the missing-context error otherwise; a list passes exactly when it holds both strings `"objects"` and `"context"`, a string exactly when it contains both words, and either comes back unchanged; a list or string without `objects` raises TypeError (it cannot take the assignment), one with `objects` but not `context` fails with the missing-context error; a number, bool or null raises TypeError |
| SceneAnalyzer.ParseResponse | src/core/scene_analyzer.py:89-100 | the in-place default of `objects` followed by the `context` check computes exactly the specification above |
| SceneAnalyzer.MissingObjectsDefaultsToEmpty | src/core/scene_analyzer.py:91-92 | a dictionary without `objects` gets an empty list there and keeps its context |
| SceneAnalyzer.AllInUnitRange | src/core/scene_analyzer.py:111 | returns true exactly when every coordinate is a number in [0,1]; the only exception is TypeError |
| SceneAnalyzer.FirstOutOfRange | src/core/scene_analyzer.py:111 | the position of the first coordinate that is not a number in [0,1]: every earlier one is, and the one there is not |
| SceneAnalyzer.AllInUnitRangeStops | src/core/scene_analyzer.py:111 | the scan is decided by the first coordinate that is not a number in [0,1]: with none it answers true, a non-number there raises TypeError, and a number out of range there gives false, whatever follows |
| SceneAnalyzer.ValidateBbox | src/core/scene_analyzer.py:105-124 | returns true exactly for a list of four numbers within [0,1] with x0 < x2, y1 < y3 and width and height between 0.01 and 0.9; the only exception it raises is TypeError |
| SceneAnalyzer.RejectedBoxes | src/core/scene_analyzer.py:105-124 | `[0.1,0.1,0.105,0.5]` (too narrow) and `[0,0,1,1]` (the whole image) are rejected; `[0.1,0.1,0.5,0.5]` is accepted |
| SceneAnalyzer.MillirangeBox | src/core/scene_analyzer.py:144-149 | each non-negative coordinate becomes the floor of itself times 1000, so coordinates in [0,1] land in [0,1000] |
| SceneAnalyzer.MillirangeBoxBounds | src/core/scene_analyzer.py:144-149 | an accepted box scaled by 1000 and truncated lies in [0,1000] with strictly ordered corners and 10 to 900 units on each side |
| SceneAnalyzer.ObjectTypeOf | src/core/scene_analyzer.py:143 | the type lookup succeeds exactly on a string that is a member's value |
| SceneAnalyzer.ParseEntry | src/core/scene_analyzer.py:130-158 | a non-dictionary entry raises TypeError and a missing `bbox` raises KeyError; the entry is skipped as a bad box exactly when the validator answers false, and raises TypeError when the validator does; a kept object comes from a dictionary whose bbox passed the validator, with that box in millirange, the entry's type, the entry's confidence, confidence in [0,1] and no state or metadata |
| SceneAnalyzer.WellFormedEntryKept | src/core/scene_analyzer.py:136-152 | a dictionary whose box passes, whose type is a member's value and whose confidence converts to a number in [0,1] is kept as exactly that object, its box in millirange |
| SceneAnalyzer.MalformedEntriesAreTolerated | src/core/scene_analyzer.py:136-158 | with a good box, a missing or unknown type, a missing confidence or an out-of-range confidence is skipped; the entry stops the loop exactly when its type is a member's value and its confidence is present with a kind `float()` cannot take |
| SceneAnalyzer.KeptBoxInMillirange | src/core/scene_analyzer.py:144-149 | a kept box is the floor of each normalized coordinate times 1000, in [0,1000], strictly ordered, 10 to 900 units each way |
| SceneAnalyzer.Outcomes | src/core/scene_analyzer.py:130-158 | one loop-body outcome per entry, in order |
| SceneAnalyzer.Collect | src/core/scene_analyzer.py:128-160 | the loop succeeds exactly when no entry raises an exception the loop does not catch, and then returns the kept objects in order |
| SceneAnalyzer.KeptIndices | src/core/scene_analyzer.py:128-153 | the kept positions are in range, strictly increasing, and include every entry that produced an object |
| SceneAnalyzer.KeptObjectsSubsequence | src/core/scene_analyzer.py:128-153 | there are as many kept objects as kept positions, at most as many as entries, and the k-th kept object is what the entry at the k-th kept position produced |
| SceneAnalyzer.CollectFailure | src/core/scene_analyzer.py:155-160 | a failing loop raises the error of the first entry whose exception is neither KeyError nor ValueError |
| SceneAnalyzer.FailedPrefixDecides | src/core/scene_analyzer.py:128-160 | once a prefix of the entries has failed, later entries do not change the outcome |
| SceneAnalyzer.ParsedObjects | src/core/scene_analyzer.py:126-160 | `_parse_objects` succeeds exactly when no entry raises an uncaught exception, and every object it returns is valid |
| SceneAnalyzer.ParseObjects | src/core/scene_analyzer.py:126-160 | the loop that appends kept objects and returns early on an uncaught exception computes exactly `ParsedObjects` |
| SceneAnalyzer.ParsedObjectsSubsequence | src/core/scene_analyzer.py:128-160 | the result of `_parse_objects` is an order-preserving subsequence of what the entries produced, no longer than the input, leaving out no entry that produced an object |
| SceneAnalyzer.Entries | src/core/scene_analyzer.py:130 | a list yields its elements; an empty dictionary or string yields none, a non-empty one fails; null, a bool or a number cannot be iterated; every failure is a TypeError |
| SceneAnalyzer.ParseContext | src/core/scene_analyzer.py:162-168 | a parsed context is valid and carries no metadata |
| SceneAnalyzer.ParseContextSpec | src/core/scene_analyzer.py:162-168 | `_parse_context` returns c if and only if the context is a dictionary whose weather, time and road are strings, c's weather value is the lower-cased weather, c's time is the lower-cased time and one of the four, and c's road is the stripped road |
| SceneAnalyzer.ParseContextErrors | src/core/scene_analyzer.py:165 | a missing weather raises KeyError, an unknown weather raises ValueError, a non-string weather raises AttributeError |
| SceneAnalyzer.BlankRoadAccepted | src/core/scene_analyzer.py:162-168 | a context with a known weather and a valid time whose road is all blanks is accepted, with the empty road description `""` |
| SceneAnalyzer.ScaleCoord | src/core/scene_analyzer.py:205-208 | the rescaled coordinate is `c * dim / 1000` rounded toward zero: for a non-negative product, the largest r with r·1000 at most the product; for a negative one, the smallest r with r·1000 at least it |
| SceneAnalyzer.ScaleBox | src/core/scene_analyzer.py:204-209 | at 1000 × 1000 a box is unchanged; a box with ordered non-negative corners keeps that under non-negative dimensions |
| SceneAnalyzer.ScaleCoordMonotone | src/core/scene_analyzer.py:204-209 | rescaling keeps the order of two non-negative coordinates, and keeps them non-negative |
| SceneAnalyzer.TruncDiv | src/core/scene_analyzer.py:204-209 | `int(a / b)` of a non-negative numerator is integer division |
| SceneAnalyzer.ScaleObject | src/core/scene_analyzer.py:206-209 | reassigning the box keeps the type, confidence, state and metadata |
| SceneAnalyzer.ScaleObjects | src/core/scene_analyzer.py:202-209 | rescaling keeps the number and order of the objects and rescales each one |
| SceneAnalyzer.RescaleBoxes | src/core/scene_analyzer.py:202-209 | the in-place loop leaves the array holding exactly the rescaled objects |
| SceneAnalyzer.ScaleCoordBounds | src/core/scene_analyzer.py:204-209 | a millirange coordinate lands in [0, dim] for a non-negative dimension, and rescaling keeps the order of two coordinates |
| SceneAnalyzer.ScaledBoxWithinImage | src/core/scene_analyzer.py:204-209 | a box in millirange with ordered corners lies within the image after rescaling, with its corners still in non-strict order |
| SceneAnalyzer.ScaleBoxExample | src/core/scene_analyzer.py:204-209 | (100,100,500,500) at 640×480 becomes (64,48,320,240) |
| SceneAnalyzer.ObjectsOf | src/core/scene_analyzer.py:196 | a list under `objects` goes to the object parser; a missing key is a KeyError and a non-dictionary a TypeError; every object returned is valid |
| SceneAnalyzer.ContextOf | src/core/scene_analyzer.py:197 | the value under `context` goes to the context parser; a missing key is a KeyError and a non-dictionary a TypeError; a context returned is valid |
| SceneAnalyzer.AnalysisOutcome | src/core/scene_analyzer.py:170-219 | the analysis succeeds exactly when the response check, the object parser and the context parser all succeed; a failure names the first stage that failed, in that order, with that stage's exception; a success returns the context `_parse_context` built, which is valid, and as many objects as the object parser returned |
| SceneAnalyzer.Analyze | src/core/scene_analyzer.py:195-211 | parsing, building the objects, parsing the context and rescaling in place compute exactly `AnalysisOutcome` |
| SceneAnalyzer.AnalysisObjects | src/core/scene_analyzer.py:199-211 | with no image size the objects come back exactly as the builder made them; with one, count, order, type and confidence are kept and each box is rescaled |
| SceneAnalyzer.MissingContextFails | src/core/scene_analyzer.py:89-103 | a reply without `context`, or one that did not decode, fails at the response stage |
| SceneAnalyzer.MissingObjectsYieldNoObjects | src/core/scene_analyzer.py:91-197 | a reply without `objects` yields no objects, together with its context, or fails with the context's error |
| SceneAnalyzer.DocumentedExample | src/core/scene_analyzer.py:126-168 | the one-vehicle reply yields the object (vehicle, (100,100,500,500), 0.9) and the context (clear, day, highway) |
| SceneAnalyzer.RejectedBoxesDropped | src/core/scene_analyzer.py:136-139 | adding entries with a too-narrow box and a whole-image box around that entry changes nothing: they are dropped without failing the reply |

## Left out

- The `ollama.chat` calls, and fetching `response["message"]["content"]`, are not modelled: they call an external model service. In `Model.Predict` the outcome of the call is the `reply` parameter. In the scene pipeline the analysis starts from the decoded reply.
- `json.loads` is not modelled, because JSON parsing is out of scope. The pipeline takes the decoded value, or None if decoding raised.
- `SceneAnalyzer.visualize` is left out: it draws with PIL and writes files.
- `src/preprocessing/image_processor.py` is not part of this model: it is file and image I/O.
- `src/utils/prompts.py` is not part of this model: its prompt texts are constants sent to the model service. `RenderResponse` writes replies in the four-line layout the parser's patterns accept; that layout is not taken from any prompt.
- `examples/basic_prediction.py` is not part of this model: it is a driver that does timing and printing.
- Debug `print`s and the `debug` flag are left out: they have no effect on results.
- FloatOf: `float()` of a string is a parameter (`parseFloat`), because Python's float syntax is not modelled. Infinities and NaN are not modelled either.
- Coordinates and confidences are exact reals, not IEEE-754 doubles. So `int(c*1000)` is the exact floor, and the 0.01 width threshold is compared exactly. With doubles, for example, `0.11 - 0.1` comes out just below 0.01. Likewise a JSON integer confidence too large for a double makes `float()` raise `OverflowError`, which the object loop does not catch, so the analysis fails; in the model the exact number fails only the [0,1] range check and the entry is skipped.
- Text.Lower: `str.lower()` is modelled on ASCII letters only. `\w` and `\d` are ASCII-only as well. `\s` and `strip()` do use Python's full whitespace set.
- The wrapping message texts of ModelError and SceneAnalysisError are left out (descriptive strings). The model keeps the reason instead: the parse failure, the stage and the exception kind.
- `_parse_response`'s `except (AttributeError, IndexError)` and `Model.Predict`'s `except ValidationError` are never reached. This is proved by `Model.ParseContent` and `Model.Predict`.
- No code in the source implements single-object action JSON parsing, or direction or angle parsing, so there is nothing of them to model.
- Aliasing between the detected objects and other references is not modelled. `RescaleBoxes` updates an array of object values in place.
