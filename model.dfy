/**
 * The line-based response parser of src/core/model.py (`Model._parse_response`)
 * and the error mapping of `Model.predict`.
 *
 * Each of the four regular expressions appears twice: once as the scanner the
 * parser runs (Match* functions, which follow the greedy regex engine) and once
 * as the language the pattern denotes (the *Matches ghost predicates, which
 * say which decompositions of the line the pattern accepts and what the groups
 * capture). Lemmas prove the two readings agree, and the parser is then
 * characterised entirely in terms of the declarative one.
 */
module Model {
  import opened Wrappers
  import opened Text
  import opened DataTypes

  datatype EnumField = ActionField | WeatherField | TimeField

  /** The reason a ResponseParsingError carries. */
  datatype ParseFailure =
    | WrongLineCount(got: nat, content: string)
    | BadActionLine(line: string)
    | BadWeatherLine(line: string)
    | BadTimeLine(line: string)
    | BadRoadLine(line: string)
    | InvalidEnumValue(field: EnumField, value: string)

  /** What `_parse_response` can raise: its own error, or pydantic's while building the records. */
  datatype ParserError =
    | ResponseParsingError(failure: ParseFailure)
    | RecordInvalid(error: ValidationError)

  // ---------------------------------------------------------------------------
  // The confidence group `(0?\.\d+|1\.0|1)`, anchored by the `$` after it.
  // ---------------------------------------------------------------------------

  predicate ConfidenceToken(t: string) {
    || t == "1"
    || t == "1.0"
    || (|t| >= 2 && t[0] == '.' && AllDigits(t[1..]))
    || (|t| >= 3 && t[0] == '0' && t[1] == '.' && AllDigits(t[2..]))
  }

  function DigitValue(c: char): int
    requires IsDigit(c)
  {
    c as int - '0' as int
  }

  /** The value of the decimal fraction `0.d1d2...dn`: always below one. */
  function FractionValue(ds: string): (r: real)
    requires AllDigits(ds)
    ensures 0.0 <= r < 1.0
  {
    if ds == [] then 0.0
    else (DigitValue(ds[0]) as real + FractionValue(ds[1..])) / 10.0
  }

  /** `float(token)` for an accepted token: it lies in [0,1], and is 1 only for `1` and `1.0`. */
  function ConfidenceValue(t: string): (r: real)
    requires ConfidenceToken(t)
    ensures 0.0 <= r <= 1.0
    ensures r == 1.0 <==> (t == "1" || t == "1.0")
  {
    if t == "1" || t == "1.0" then 1.0
    else if t[0] == '.' then FractionValue(t[1..])
    else FractionValue(t[2..])
  }

  /** Tokens the pattern turns away, including the "0" a reader might expect it to take, and some it takes. */
  lemma RejectedConfidenceTokens()
    ensures !ConfidenceToken("0") && !ConfidenceToken("1.5") && !ConfidenceToken("1.00")
    ensures !ConfidenceToken("-0.1") && !ConfidenceToken("abc") && !ConfidenceToken("") && !ConfidenceToken(".")
    ensures ConfidenceToken(".5") && ConfidenceValue(".5") == 0.5
    ensures ConfidenceToken("0.25") && ConfidenceValue("0.25") == 0.25
    ensures ConfidenceToken("0.0") && ConfidenceValue("0.0") == 0.0
  {
    assert "0.0"[2..] == "0";
    assert "0"[1..] == [];
    assert "0.25"[2..] == "25";
    assert "25"[1..] == "5";
    assert ".5"[1..] == "5";
    assert "5"[1..] == [];
  }

  // ---------------------------------------------------------------------------
  // `^Action:\s*(\w+),\s*Confidence:\s*(0?\.\d+|1\.0|1)$`
  // Every matcher reads a line without '\n', which is all `split("\n")` yields;
  // on such lines `$` means the end of the line.
  // ---------------------------------------------------------------------------

  /** A literal keyword followed by a greedy `\s*`: what is left of `s` after both, if `s` starts with `key`. */
  function AfterKeyword(key: string, s: string): (r: Option<string>)
    ensures r.Some? ==> r.value == [] || !IsSpace(r.value[0])
  {
    if StartsWith(s, key) then Some(SkipSpace(s[|key|..])) else None
  }

  lemma AfterKeywordSplit(key: string, s: string) returns (ws: string)
    requires AfterKeyword(key, s).Some?
    ensures AllSpace(ws) && s == key + (ws + AfterKeyword(key, s).value)
  {
    PrefixSplit(s, key);
    var rest;
    ws, rest := SkipSpaceSplit(s[|key|..]);
  }

  lemma AfterKeywordOf(key: string, ws: string, t: string)
    requires AllSpace(ws) && (t == [] || !IsSpace(t[0]))
    ensures AfterKeyword(key, key + (ws + t)) == Some(t)
  {
    PrefixDrop(key, ws + t);
    SkipSpaceOfConcat(ws, t);
  }

  function MatchActionLine(line: string): (r: Option<(string, string)>)
    ensures r.Some? ==> StartsWith(line, "Action:")
    ensures r.Some? ==> r.value.0 != [] && AllWord(r.value.0) && ConfidenceToken(r.value.1)
  {
    match AfterKeyword("Action:", line)
    case None => None
    case Some(a) =>
      var k := WordSpan(a);
      if k == 0 || k == |a| || a[k] != ',' then None
      else
        match AfterKeyword("Confidence:", SkipSpace(a[k + 1..]))
        case None => None
        case Some(d) => if ConfidenceToken(d) then Some((a[..k], d)) else None
  }

  /** The text of a line with the given groups and whitespace runs, nested to the right. */
  function ActionLineText(ws1: string, act: string, ws2: string, ws3: string, conf: string): string {
    "Action:" + (ws1 + (act + ("," + (ws2 + ("Confidence:" + (ws3 + conf))))))
  }

  /** The pattern's language: `line` is the keyword text around the two groups, with whitespace runs between. */
  ghost predicate ActionLineMatches(line: string, act: string, conf: string) {
    && act != [] && AllWord(act) && ConfidenceToken(conf)
    && exists ws1, ws2, ws3 ::
         AllSpace(ws1) && AllSpace(ws2) && AllSpace(ws3) && line == ActionLineText(ws1, act, ws2, ws3, conf)
  }

  lemma MatchActionLineSound(line: string)
    requires MatchActionLine(line).Some?
    ensures ActionLineMatches(line, MatchActionLine(line).value.0, MatchActionLine(line).value.1)
  {
    var ws1 := AfterKeywordSplit("Action:", line);
    var a := AfterKeyword("Action:", line).value;
    var k := WordSpan(a);
    var act, b := a[..k], a[k + 1..];
    CharSplit(a, k, ',');
    var ws2, c := SkipSpaceSplit(b);
    var ws3 := AfterKeywordSplit("Confidence:", c);
    var conf := AfterKeyword("Confidence:", c).value;
    assert line == ActionLineText(ws1, act, ws2, ws3, conf);
  }

  lemma MatchActionLineComplete(line: string, act: string, conf: string, ws1: string, ws2: string, ws3: string)
    requires act != [] && AllWord(act) && ConfidenceToken(conf)
    requires AllSpace(ws1) && AllSpace(ws2) && AllSpace(ws3)
    requires line == ActionLineText(ws1, act, ws2, ws3, conf)
    ensures MatchActionLine(line) == Some((act, conf))
  {
    var c := "Confidence:" + (ws3 + conf);
    var tail := act + ([','] + (ws2 + c));
    assert tail[0] == act[0];
    AfterKeywordOf("Action:", ws1, tail);
    WordSpanOfConcat(act, [','] + (ws2 + c));
    CharDrop(act, ',', ws2 + c);
    assert c[0] == 'C';
    SkipSpaceOfConcat(ws2, c);
    ConfidenceTokenShape(conf);
    AfterKeywordOf("Confidence:", ws3, conf);
  }

  /** The scanner returns exactly the groups of the pattern's unique match. */
  lemma MatchActionLineSpec(line: string, act: string, conf: string)
    ensures MatchActionLine(line) == Some((act, conf)) <==> ActionLineMatches(line, act, conf)
  {
    if MatchActionLine(line) == Some((act, conf)) {
      MatchActionLineSound(line);
    }
    if ActionLineMatches(line, act, conf) {
      var ws1, ws2, ws3 :| AllSpace(ws1) && AllSpace(ws2) && AllSpace(ws3)
                          && line == ActionLineText(ws1, act, ws2, ws3, conf);
      MatchActionLineComplete(line, act, conf, ws1, ws2, ws3);
    }
  }

  // ---------------------------------------------------------------------------
  // `^Weather:\s*(\w+)$` and `^Time:\s*(\w+)$`: a keyword, whitespace, one word.
  // ---------------------------------------------------------------------------

  function MatchKeywordLine(key: string, line: string): (r: Option<string>)
    ensures r.Some? ==> StartsWith(line, key)
    ensures r.Some? ==> r.value != [] && AllWord(r.value)
  {
    match AfterKeyword(key, line)
    case None => None
    case Some(w) => if w != [] && AllWord(w) then Some(w) else None
  }

  ghost predicate KeywordLineMatches(key: string, line: string, token: string) {
    && token != [] && AllWord(token)
    && exists ws :: AllSpace(ws) && line == key + (ws + token)
  }

  lemma MatchKeywordLineSpec(key: string, line: string, token: string)
    ensures MatchKeywordLine(key, line) == Some(token) <==> KeywordLineMatches(key, line, token)
  {
    if MatchKeywordLine(key, line) == Some(token) {
      var ws := AfterKeywordSplit(key, line);
    }
    if KeywordLineMatches(key, line, token) {
      var ws :| AllSpace(ws) && line == key + (ws + token);
      AfterKeywordOf(key, ws, token);
    }
  }

  // ---------------------------------------------------------------------------
  // `^Road:\s*(.+?)$`: the greedy `\s*` takes every leading blank unless that
  // would leave the group empty, in which case it gives the last one back.
  // ---------------------------------------------------------------------------

  function MatchRoadLine(line: string): (r: Option<string>)
    ensures r.Some? ==> StartsWith(line, "Road:")
    ensures r.Some? ==> r.value != []
  {
    if !StartsWith(line, "Road:") then None
    else
      var rest := line[5..];
      var k := SpaceSpan(rest);
      if rest == [] then None
      else if k == |rest| then Some(rest[k - 1..])
      else Some(rest[k..])
  }

  /** The match the regex engine picks: no longer whitespace run leaves a non-empty group. */
  ghost predicate RoadLineMatches(line: string, group: string) {
    && group != [] && (|group| == 1 || !IsSpace(group[0]))
    && exists ws :: AllSpace(ws) && line == "Road:" + (ws + group)
  }

  lemma MatchRoadLineSound(line: string)
    requires MatchRoadLine(line).Some?
    ensures RoadLineMatches(line, MatchRoadLine(line).value)
  {
    PrefixSplit(line, "Road:");
    var rest := line[5..];
    var k := SpaceSpan(rest);
    if k == |rest| {
      var ws := rest[..k - 1];
      assert rest == ws + rest[k - 1..];
      assert ws == rest[..k][..k - 1];
      assert AllSpace(ws) && line == "Road:" + (ws + MatchRoadLine(line).value);
    } else {
      var ws, g := SkipSpaceSplit(rest);
      assert AllSpace(ws) && line == "Road:" + (ws + MatchRoadLine(line).value);
    }
  }

  lemma MatchRoadLineComplete(line: string, ws: string, group: string)
    requires group != [] && (|group| == 1 || !IsSpace(group[0]))
    requires AllSpace(ws) && line == "Road:" + (ws + group)
    ensures MatchRoadLine(line) == Some(group)
  {
    var rest := ws + group;
    PrefixDrop("Road:", rest);
    if IsSpace(group[0]) {
      assert AllSpace(rest);
      SpaceSpanOfConcat(rest, []);
      assert rest + [] == rest;
      assert rest[|rest| - 1..] == group;
    } else {
      SpaceSpanOfConcat(ws, group);
      assert rest[|ws|..] == group;
    }
  }

  lemma MatchRoadLineSpec(line: string, group: string)
    ensures MatchRoadLine(line) == Some(group) <==> RoadLineMatches(line, group)
  {
    if MatchRoadLine(line) == Some(group) {
      MatchRoadLineSound(line);
    }
    if RoadLineMatches(line, group) {
      var ws :| AllSpace(ws) && line == "Road:" + (ws + group);
      MatchRoadLineComplete(line, ws, group);
    }
  }

  /** On a stripped line the group is stripped too, so `road_type` is never empty. */
  lemma RoadGroupOfStrippedLine(line: string)
    requires IsStripped(line) && MatchRoadLine(line).Some?
    ensures Strip(MatchRoadLine(line).value) == MatchRoadLine(line).value
  {
    var rest := line[5..];
    assert rest[|rest| - 1] == line[|line| - 1];
    SpaceSpanAtMost(rest, |rest| - 1);
    var g := rest[SpaceSpan(rest)..];
    assert g[|g| - 1] == rest[|rest| - 1];
    StripOfStripped(g);
  }

  // ---------------------------------------------------------------------------
  // The parser.
  // ---------------------------------------------------------------------------

  /** The five captured groups: action and confidence, weather, time, road. */
  datatype Groups = Groups(action: string, confidence: string, weather: string, time: string, road: string)

  predicate WellFormedGroups(g: Groups) {
    && g.action != [] && AllWord(g.action) && ConfidenceToken(g.confidence)
    && g.weather != [] && AllWord(g.weather)
    && g.time != [] && AllWord(g.time)
    && g.road != []
  }

  /** The four patterns tried on the four lines in order; the first line that fails is reported. */
  function MatchLines(lines: seq<string>): (r: Result<Groups, ParseFailure>)
    requires |lines| == 4
    ensures r.Success? ==> WellFormedGroups(r.value)
    ensures r.Failure? ==> (r.error.BadActionLine? || r.error.BadWeatherLine? || r.error.BadTimeLine? || r.error.BadRoadLine?)
    ensures MatchActionLine(lines[0]).None? ==> r == Failure(BadActionLine(lines[0]))
    ensures MatchActionLine(lines[0]).Some? && MatchKeywordLine("Weather:", lines[1]).None? ==>
              r == Failure(BadWeatherLine(lines[1]))
    ensures MatchActionLine(lines[0]).Some? && MatchKeywordLine("Weather:", lines[1]).Some? &&
            MatchKeywordLine("Time:", lines[2]).None? ==>
              r == Failure(BadTimeLine(lines[2]))
    ensures MatchActionLine(lines[0]).Some? && MatchKeywordLine("Weather:", lines[1]).Some? &&
            MatchKeywordLine("Time:", lines[2]).Some? && MatchRoadLine(lines[3]).None? ==>
              r == Failure(BadRoadLine(lines[3]))
    ensures r.Success? ==>
              && MatchActionLine(lines[0]) == Some((r.value.action, r.value.confidence))
              && MatchKeywordLine("Weather:", lines[1]) == Some(r.value.weather)
              && MatchKeywordLine("Time:", lines[2]) == Some(r.value.time)
              && MatchRoadLine(lines[3]) == Some(r.value.road)
  {
    match MatchActionLine(lines[0])
    case None => Failure(BadActionLine(lines[0]))
    case Some((action, confidence)) =>
      match MatchKeywordLine("Weather:", lines[1])
      case None => Failure(BadWeatherLine(lines[1]))
      case Some(weather) =>
        match MatchKeywordLine("Time:", lines[2])
        case None => Failure(BadTimeLine(lines[2]))
        case Some(time) =>
          match MatchRoadLine(lines[3])
          case None => Failure(BadRoadLine(lines[3]))
          case Some(road) => Success(Groups(action, confidence, weather, time, road))
  }

  /** Each line in its own pattern's language, with these groups. */
  ghost predicate LinesMatch(lines: seq<string>, g: Groups)
    requires |lines| == 4
  {
    && ActionLineMatches(lines[0], g.action, g.confidence)
    && KeywordLineMatches("Weather:", lines[1], g.weather)
    && KeywordLineMatches("Time:", lines[2], g.time)
    && RoadLineMatches(lines[3], g.road)
  }

  lemma MatchLinesSpec(lines: seq<string>, g: Groups)
    requires |lines| == 4
    ensures MatchLines(lines) == Success(g) <==> LinesMatch(lines, g)
  {
    MatchActionLineSpec(lines[0], g.action, g.confidence);
    MatchKeywordLineSpec("Weather:", lines[1], g.weather);
    MatchKeywordLineSpec("Time:", lines[2], g.time);
    MatchRoadLineSpec(lines[3], g.road);
  }

  /**
   * The enum lookups, then the two records. The action token must be a
   * member's value as written; weather and time are lower-cased first. The
   * pydantic constructors never reject what gets this far.
   */
  function BuildRecords(g: Groups): (r: Result<(Prediction, SceneContext), ParserError>)
    requires WellFormedGroups(g)
    ensures r.Failure? ==> r.error.ResponseParsingError? && r.error.failure.InvalidEnumValue?
    ensures r.Success? <==>
              ActionFromValue(g.action).Some? && WeatherFromValue(Lower(g.weather)).Some? && ValidTimeOfDay(Lower(g.time))
    ensures r.Success? ==> ValidPrediction(r.value.0) && ValidSceneContext(r.value.1)
    ensures r.Success? ==> GroupsDescribe(g, r.value.0, r.value.1)
  {
    ActionLookupExact(g.action);
    WeatherLookupExact(Lower(g.weather));
    var action := ActionFromValue(g.action);
    if action.None? then Failure(ResponseParsingError(InvalidEnumValue(ActionField, g.action)))
    else
      var weatherToken := Lower(g.weather);
      var weather := WeatherFromValue(weatherToken);
      if weather.None? then Failure(ResponseParsingError(InvalidEnumValue(WeatherField, weatherToken)))
      else
        var time := Lower(g.time);
        if !ValidTimeOfDay(time) then Failure(ResponseParsingError(InvalidEnumValue(TimeField, time)))
        else
          match ValidatePrediction(Prediction(action.value, ConfidenceValue(g.confidence)))
          case Failure(e) => Failure(RecordInvalid(e))
          case Success(prediction) =>
            match ValidateSceneContext(SceneContext(weather.value, time, Strip(g.road)))
            case Failure(e) => Failure(RecordInvalid(e))
            case Success(context) => Success((prediction, context))
  }

  /** The records a set of groups denotes. */
  predicate GroupsDescribe(g: Groups, p: Prediction, c: SceneContext)
    requires WellFormedGroups(g)
  {
    && ActionValue(p.action) == g.action
    && p.confidence == ConfidenceValue(g.confidence)
    && WeatherValue(c.weather) == Lower(g.weather)
    && c.timeOfDay == Lower(g.time) && ValidTimeOfDay(c.timeOfDay)
    && c.roadType == Strip(g.road)
    && p.metadata.None? && c.metadata.None?
  }

  lemma BuildRecordsSpec(g: Groups, p: Prediction, c: SceneContext)
    requires WellFormedGroups(g)
    ensures BuildRecords(g) == Success((p, c)) <==> GroupsDescribe(g, p, c)
  {
    ActionLookupExact(g.action);
    WeatherLookupExact(Lower(g.weather));
    if GroupsDescribe(g, p, c) {
      assert p == Prediction(p.action, p.confidence);
      assert c == SceneContext(c.weather, c.timeOfDay, c.roadType);
    }
  }

  /** The four non-blank lines: every pattern first, then the enum values. */
  function ParseLines(lines: seq<string>): (r: Result<(Prediction, SceneContext), ParserError>)
    requires |lines| == 4
    ensures r.Failure? ==> r.error.ResponseParsingError?
  {
    var g :- MatchLines(lines).MapFailure(f => ResponseParsingError(f));
    BuildRecords(g)
  }

  /** The lines the parser sees: the stripped reply split at newlines, each stripped, blank ones dropped. */
  function ContentLines(content: string): (r: seq<string>)
    ensures forall i :: 0 <= i < |r| ==> r[i] != [] && IsStripped(r[i]) && '\n' !in r[i]
    ensures var pieces := Split(Strip(content));
            var idx := NonBlankIndices(pieces);
            && |r| == |idx|
            && (forall k :: 0 <= k < |r| ==> r[k] == Strip(pieces[idx[k]]))
            && (forall j :: 0 <= j < |pieces| && !AllSpace(pieces[j]) ==> j in idx)
  {
    NonBlankLinesSelect(Split(Strip(content)));
    NonBlankLines(Split(Strip(content)))
  }

  /**
   * `Model._parse_response` on the reply text. Any count of non-blank lines
   * other than four is rejected with that count; every failure is a
   * ResponseParsingError (the pydantic constructors cannot fail here); a
   * success is two valid records with a non-empty road description.
   */
  function ParseContent(content: string): (r: Result<(Prediction, SceneContext), ParserError>)
    ensures |ContentLines(content)| != 4 ==>
              r == Failure(ResponseParsingError(WrongLineCount(|ContentLines(content)|, Strip(content))))
    ensures r.Failure? ==> r.error.ResponseParsingError?
    ensures r.Success? ==> ValidPrediction(r.value.0) && ValidSceneContext(r.value.1)
    ensures r.Success? ==> r.value.1.roadType != []
  {
    var text := Strip(content);
    var lines := NonBlankLines(Split(text));
    if |lines| != 4 then Failure(ResponseParsingError(WrongLineCount(|lines|, text)))
    else
      var r := ParseLines(lines);
      assert r.Success? ==> r.value.1.roadType != [] by {
        if MatchLines(lines).Success? {
          var g := MatchLines(lines).value;
          RoadGroupOfStrippedLine(lines[3]);
          assert ParseLines(lines) == BuildRecords(g);
        }
      }
      r
  }

  /** The declarative meaning of four lines: the groups of the four patterns, read as records. */
  ghost predicate LinesDescribe(lines: seq<string>, p: Prediction, c: SceneContext)
    requires |lines| == 4
  {
    exists g :: WellFormedGroups(g) && LinesMatch(lines, g) && GroupsDescribe(g, p, c)
  }

  ghost predicate ResponseDescribes(content: string, p: Prediction, c: SceneContext) {
    var lines := ContentLines(content);
    |lines| == 4 && LinesDescribe(lines, p, c)
  }

  lemma ParseLinesSpec(lines: seq<string>, p: Prediction, c: SceneContext)
    requires |lines| == 4
    ensures ParseLines(lines) == Success((p, c)) <==> LinesDescribe(lines, p, c)
  {
    if ParseLines(lines) == Success((p, c)) {
      var g := MatchLines(lines).value;
      MatchLinesSpec(lines, g);
      BuildRecordsSpec(g, p, c);
    }
    if LinesDescribe(lines, p, c) {
      var g :| WellFormedGroups(g) && LinesMatch(lines, g) && GroupsDescribe(g, p, c);
      MatchLinesSpec(lines, g);
      BuildRecordsSpec(g, p, c);
    }
  }

  /**
   * The parser is exactly the declarative reading: it returns (p, c) if and
   * only if the reply has four non-blank lines in the order action, weather,
   * time, road, each in its pattern's language, with the action token equal to
   * p's value (case-sensitively), the lower-cased weather token equal to c's
   * value, the lower-cased time token one of the four times, and the road
   * group, stripped, as the road description.
   */
  lemma ParseContentSpec(content: string, p: Prediction, c: SceneContext)
    ensures ParseContent(content) == Success((p, c)) <==> ResponseDescribes(content, p, c)
  {
    var lines := ContentLines(content);
    if |lines| == 4 {
      ParseLinesSpec(lines, p, c);
    }
  }

  // ---------------------------------------------------------------------------
  // The line order is fixed.
  // ---------------------------------------------------------------------------

  /** The first letter of the i-th line's keyword. */
  function LineLetter(i: nat): char
    requires i < 4
  {
    if i == 0 then 'A' else if i == 1 then 'W' else if i == 2 then 'T' else 'R'
  }

  lemma LineLetterInjective(i: nat, j: nat)
    requires i < 4 && j < 4
    ensures LineLetter(i) == LineLetter(j) ==> i == j
  {
  }

  lemma KeywordInitial(key: string, s: string)
    requires key != [] && StartsWith(s, key)
    ensures s != [] && s[0] == key[0]
  {
    assert s[..|key|][0] == s[0];
  }

  /** Matching needs each line to start with its keyword's first letter. */
  lemma MatchedLinesStartWithKeywords(lines: seq<string>)
    requires |lines| == 4 && MatchLines(lines).Success?
    ensures forall i :: 0 <= i < 4 ==> lines[i] != [] && lines[i][0] == LineLetter(i)
  {
    LineInitials(lines);
    InitialsInOrder(lines);
  }

  lemma InitialsInOrder(lines: seq<string>)
    requires |lines| == 4
    requires lines[0] != [] && lines[0][0] == 'A'
    requires lines[1] != [] && lines[1][0] == 'W'
    requires lines[2] != [] && lines[2][0] == 'T'
    requires lines[3] != [] && lines[3][0] == 'R'
    ensures forall i :: 0 <= i < 4 ==> lines[i] != [] && lines[i][0] == LineLetter(i)
  {
    forall i | 0 <= i < 4
      ensures lines[i] != [] && lines[i][0] == LineLetter(i)
    {
      if i == 0 {
      } else if i == 1 {
      } else if i == 2 {
      } else {
      }
    }
  }

  lemma LineInitials(lines: seq<string>)
    requires |lines| == 4 && MatchLines(lines).Success?
    ensures lines[0] != [] && lines[0][0] == 'A'
    ensures lines[1] != [] && lines[1][0] == 'W'
    ensures lines[2] != [] && lines[2][0] == 'T'
    ensures lines[3] != [] && lines[3][0] == 'R'
  {
    KeywordInitial("Action:", lines[0]);
    KeywordInitial("Weather:", lines[1]);
    KeywordInitial("Time:", lines[2]);
    KeywordInitial("Road:", lines[3]);
  }

  lemma ParsedContentMatched(content: string)
    ensures ParseContent(content).Success? ==>
              |ContentLines(content)| == 4 && MatchLines(ContentLines(content)).Success?
  {
  }

  lemma ParsedLinesMatched(content: string, lines: seq<string>)
    requires ContentLines(content) == lines
    ensures ParseContent(content).Success? ==> |lines| == 4 && MatchLines(lines).Success?
  {
    ParsedContentMatched(content);
  }

  /** A reply made of well-formed lines parses only if those very lines match. */
  lemma JoinedLinesMatched(lines: seq<string>)
    requires |lines| >= 1
    requires forall i :: 0 <= i < |lines| ==> lines[i] != [] && IsStripped(lines[i]) && '\n' !in lines[i]
    ensures ParseContent(Join(lines)).Success? ==> |lines| == 4 && MatchLines(lines).Success?
  {
    JoinLinesRoundTrip(lines);
    ParsedLinesMatched(Join(lines), lines);
  }

  lemma OrderOfMatchedShuffle(lines: seq<string>, shuffled: seq<string>, order: seq<nat>)
    requires |lines| == 4 && |shuffled| == 4 && |order| == 4
    requires forall i :: 0 <= i < 4 ==> order[i] < 4 && shuffled[i] == lines[order[i]]
    requires forall i :: 0 <= i < 4 ==> lines[i] != [] && lines[i][0] == LineLetter(i)
    ensures MatchLines(shuffled).Success? ==> order == [0, 1, 2, 3]
  {
    if MatchLines(shuffled).Success? {
      MatchedLinesStartWithKeywords(shuffled);
      OrderOfInitials(lines, shuffled, order);
    }
  }

  /** Two arrangements of the four lines with the same initials are the same arrangement. */
  lemma OrderOfInitials(lines: seq<string>, shuffled: seq<string>, order: seq<nat>)
    requires |lines| == 4 && |shuffled| == 4 && |order| == 4
    requires forall i :: 0 <= i < 4 ==> order[i] < 4 && shuffled[i] == lines[order[i]]
    requires forall i :: 0 <= i < 4 ==> lines[i] != [] && lines[i][0] == LineLetter(i)
    requires forall i :: 0 <= i < 4 ==> shuffled[i] != [] && shuffled[i][0] == LineLetter(i)
    ensures order == [0, 1, 2, 3]
  {
    forall i | 0 <= i < 4
      ensures order[i] == i
    {
      assert LineLetter(order[i]) == LineLetter(i);
      LineLetterInjective(order[i], i);
    }
    assert order == [order[0], order[1], order[2], order[3]];
  }

  /**
   * Four lines that parse in the order action, weather, time, road do not
   * parse when joined in any other order.
   */
  lemma FixedLineOrder(lines: seq<string>, order: seq<nat>, shuffled: seq<string>)
    requires |lines| == 4
    requires forall i :: 0 <= i < 4 ==> lines[i] != [] && IsStripped(lines[i]) && '\n' !in lines[i]
    requires ParseContent(Join(lines)).Success?
    requires |order| == 4 && (forall i :: 0 <= i < 4 ==> order[i] < 4)
    requires |shuffled| == 4 && forall i :: 0 <= i < 4 ==> shuffled[i] == lines[order[i]]
    requires order != [0, 1, 2, 3]
    ensures ParseContent(Join(shuffled)).Failure?
  {
    JoinedLinesMatched(lines);
    MatchedLinesStartWithKeywords(lines);
    assert forall i :: 0 <= i < 4 ==> shuffled[i] != [] && IsStripped(shuffled[i]) && '\n' !in shuffled[i];
    JoinedLinesMatched(shuffled);
    OrderOfMatchedShuffle(lines, shuffled, order);
  }

  /** Joining stripped, non-blank lines and parsing hands the parser those same lines. */
  lemma JoinLinesRoundTrip(lines: seq<string>)
    requires |lines| >= 1
    requires forall i :: 0 <= i < |lines| ==> lines[i] != [] && IsStripped(lines[i]) && '\n' !in lines[i]
    ensures ContentLines(Join(lines)) == lines
  {
    JoinStripped(lines);
    StripOfStripped(Join(lines));
    SplitJoin(lines);
    NonBlankLinesOfStripped(lines);
  }

  // ---------------------------------------------------------------------------
  // Rendering a response in the expected format and parsing it back.
  // ---------------------------------------------------------------------------

  /**
   * A reply in the four-line layout the parser's patterns accept, with one
   * blank after each colon and after the comma.
   */
  function RenderResponse(action: string, confidence: string, weather: string, time: string, road: string): string {
    Join([ActionLineText(" ", action, " ", " ", confidence),
          "Weather:" + (" " + weather),
          "Time:" + (" " + time),
          "Road:" + (" " + road)])
  }

  lemma WordHasNoBreak(s: string)
    requires AllWord(s)
    ensures '\n' !in s
  {
  }

  lemma ActionValueIsWord(a: ActionType)
    ensures ActionValue(a) != [] && AllWord(ActionValue(a))
  {
  }

  /** An accepted confidence token is a dot and digits: no whitespace, no line break. */
  lemma ConfidenceTokenShape(t: string)
    requires ConfidenceToken(t)
    ensures t != [] && !IsSpace(t[0]) && !IsSpace(t[|t| - 1]) && '\n' !in t
  {
    forall i | 0 <= i < |t|
      ensures t[i] == '.' || IsDigit(t[i])
    {
      if |t| >= 2 && t[0] == '.' && AllDigits(t[1..]) {
        if i > 0 {
          assert t[i] == t[1..][i - 1];
        }
      } else if |t| >= 3 && t[0] == '0' && t[1] == '.' && AllDigits(t[2..]) {
        if i > 1 {
          assert t[i] == t[2..][i - 2];
        }
      }
    }
  }

  /**
   * Round trip: a reply written in the expected format parses to the records
   * it names. Weather and time tokens may be in any letter case; the action
   * token is the member's exact value.
   */
  lemma RenderedResponseParses(a: ActionType, conf: string, weatherToken: string, timeToken: string, road: string)
    requires ConfidenceToken(conf)
    requires weatherToken != [] && AllWord(weatherToken) && WeatherFromValue(Lower(weatherToken)).Some?
    requires timeToken != [] && AllWord(timeToken) && ValidTimeOfDay(Lower(timeToken))
    requires road != [] && IsStripped(road) && '\n' !in road
    ensures ParseContent(RenderResponse(ActionValue(a), conf, weatherToken, timeToken, road))
         == Success((Prediction(a, ConfidenceValue(conf)),
                     SceneContext(WeatherFromValue(Lower(weatherToken)).value, Lower(timeToken), road)))
  {
    var act := ActionValue(a);
    ActionValueIsWord(a);
    var lines := RenderedLines(act, conf, weatherToken, timeToken, road);
    JoinLinesRoundTrip(lines);
    var g := Groups(act, conf, weatherToken, timeToken, road);
    RenderedLinesMatch(act, conf, weatherToken, timeToken, road);
    ParseOfMatchedLines(RenderResponse(act, conf, weatherToken, timeToken, road), g);
    RecordsOfRendered(a, g);
  }

  /** The four lines a rendered reply consists of. */
  lemma RenderedLines(act: string, conf: string, weatherToken: string, timeToken: string, road: string)
    returns (lines: seq<string>)
    requires act != [] && AllWord(act) && ConfidenceToken(conf)
    requires weatherToken != [] && AllWord(weatherToken) && timeToken != [] && AllWord(timeToken)
    requires road != [] && IsStripped(road) && '\n' !in road
    ensures |lines| == 4 && Join(lines) == RenderResponse(act, conf, weatherToken, timeToken, road)
    ensures forall i :: 0 <= i < |lines| ==> lines[i] != [] && IsStripped(lines[i]) && '\n' !in lines[i]
    ensures lines[0] == ActionLineText(" ", act, " ", " ", conf)
    ensures lines[1] == "Weather:" + (" " + weatherToken) && lines[2] == "Time:" + (" " + timeToken)
    ensures lines[3] == "Road:" + (" " + road)
  {
    WordHasNoBreak(act);
    WordHasNoBreak(weatherToken);
    WordHasNoBreak(timeToken);
    ConfidenceTokenShape(conf);
    lines := [ActionLineText(" ", act, " ", " ", conf),
              "Weather:" + (" " + weatherToken),
              "Time:" + (" " + timeToken),
              "Road:" + (" " + road)];
    ActionLineTextShape(" ", act, " ", " ", conf);
    KeywordLineShape("Weather:", weatherToken);
    KeywordLineShape("Time:", timeToken);
    KeywordLineShape("Road:", road);
  }

  lemma RenderedLinesMatch(act: string, conf: string, weatherToken: string, timeToken: string, road: string)
    requires act != [] && AllWord(act) && ConfidenceToken(conf)
    requires weatherToken != [] && AllWord(weatherToken) && timeToken != [] && AllWord(timeToken)
    requires road != [] && IsStripped(road) && '\n' !in road
    ensures var lines := [ActionLineText(" ", act, " ", " ", conf), "Weather:" + (" " + weatherToken),
                          "Time:" + (" " + timeToken), "Road:" + (" " + road)];
            MatchLines(lines) == Success(Groups(act, conf, weatherToken, timeToken, road))
  {
    assert AllSpace(" ");
    MatchActionLineComplete(ActionLineText(" ", act, " ", " ", conf), act, conf, " ", " ", " ");
    KeywordLineOf("Weather:", weatherToken);
    KeywordLineOf("Time:", timeToken);
    RoadLineOf(road);
    MatchLinesOf([ActionLineText(" ", act, " ", " ", conf), "Weather:" + (" " + weatherToken),
                  "Time:" + (" " + timeToken), "Road:" + (" " + road)],
                 Groups(act, conf, weatherToken, timeToken, road));
  }

  lemma MatchLinesOf(lines: seq<string>, g: Groups)
    requires |lines| == 4
    requires MatchActionLine(lines[0]) == Some((g.action, g.confidence))
    requires MatchKeywordLine("Weather:", lines[1]) == Some(g.weather)
    requires MatchKeywordLine("Time:", lines[2]) == Some(g.time)
    requires MatchRoadLine(lines[3]) == Some(g.road)
    ensures MatchLines(lines) == Success(g)
  {
  }

  lemma RoadLineOf(road: string)
    requires road != [] && IsStripped(road)
    ensures MatchRoadLine("Road:" + (" " + road)) == Some(road)
  {
    assert AllSpace(" ");
    assert RoadLineMatches("Road:" + (" " + road), road);
    MatchRoadLineSpec("Road:" + (" " + road), road);
  }

  lemma ParseOfMatchedLines(content: string, g: Groups)
    requires |ContentLines(content)| == 4 && MatchLines(ContentLines(content)) == Success(g)
    ensures ParseContent(content) == BuildRecords(g)
  {
  }

  lemma RecordsOfRendered(a: ActionType, g: Groups)
    requires WellFormedGroups(g) && g.action == ActionValue(a)
    requires WeatherFromValue(Lower(g.weather)).Some? && ValidTimeOfDay(Lower(g.time))
    requires IsStripped(g.road)
    ensures BuildRecords(g) ==
              Success((Prediction(a, ConfidenceValue(g.confidence)),
                       SceneContext(WeatherFromValue(Lower(g.weather)).value, Lower(g.time), g.road)))
  {
    StripOfStripped(g.road);
  }

  lemma KeywordLineOf(key: string, token: string)
    requires token != [] && AllWord(token)
    ensures MatchKeywordLine(key, key + (" " + token)) == Some(token)
  {
    assert AllSpace(" ");
    AfterKeywordOf(key, " ", token);
  }

  /** A rendered line starts with its keyword's letter and ends where its last group ends. */
  lemma KeywordLineShape(key: string, t: string)
    requires key != [] && !IsSpace(key[0]) && t != [] && !IsSpace(t[|t| - 1]) && '\n' !in key && '\n' !in t
    ensures key + (" " + t) != [] && IsStripped(key + (" " + t)) && '\n' !in key + (" " + t)
  {
    var s := key + (" " + t);
    assert s[0] == key[0];
    assert s[|s| - 1] == t[|t| - 1];
  }

  lemma ActionLineTextShape(ws1: string, act: string, ws2: string, ws3: string, conf: string)
    requires '\n' !in ws1 + act + ws2 + ws3 + conf
    requires conf != [] && !IsSpace(conf[|conf| - 1])
    ensures var s := ActionLineText(ws1, act, ws2, ws3, conf); s != [] && IsStripped(s) && '\n' !in s
  {
    var c := "Confidence:" + (ws3 + conf);
    KeywordLineShape("Confidence:", ws3 + conf);
  }

  // ---------------------------------------------------------------------------
  // `Model.predict`: the error mapping around the parser.
  // ---------------------------------------------------------------------------

  /** What `predict` raises: always a ModelError, keeping the parser's reason. */
  datatype ModelError =
    | OutputInvalid(error: ValidationError)    // `except ValidationError`
    | ParsingFailed(failure: ParseFailure)     // `except ResponseParsingError`
    | PredictionFailed(cause: string)          // `except Exception`, e.g. the model call failing

  /**
   * `predict` given the model call's outcome (the reply text, or the message
   * of whatever the call raised). A success carries both parsed records, no
   * objects and the caller's image id; a parse failure keeps its reason; the
   * ValidationError handler is never reached.
   */
  function Predict(reply: Result<string, string>, imageId: Option<string>): (r: Result<RoadVLMOutput, ModelError>)
    ensures r.Success? <==> reply.Success? && ParseContent(reply.value).Success?
    ensures r.Success? ==>
              && ValidOutput(r.value)
              && r.value.prediction == Some(ParseContent(reply.value).value.0)
              && r.value.sceneContext == ParseContent(reply.value).value.1
              && r.value.objects == [] && r.value.imageId == imageId && r.value.processingTime.None?
    ensures r.Failure? ==> !r.error.OutputInvalid?
    ensures reply.Failure? ==> r == Failure(PredictionFailed(reply.error))
    ensures reply.Success? && r.Failure? ==> r.error == ParsingFailed(ParseContent(reply.value).error.failure)
  {
    match reply
    case Failure(message) => Failure(PredictionFailed(message))
    case Success(content) =>
      match ParseContent(content)
      case Success((prediction, context)) =>
        Success(RoadVLMOutput(context, prediction := Some(prediction), imageId := imageId))
      case Failure(ResponseParsingError(f)) => Failure(ParsingFailed(f))
      case Failure(RecordInvalid(e)) => Failure(OutputInvalid(e))
  }
}
