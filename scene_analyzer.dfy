/**
 * The JSON scene-analysis path of src/core/scene_analyzer.py: the shape checks
 * of `_parse_response`, `_validate_bbox`, the tolerant object-list builder
 * `_parse_objects`, `_parse_context`, and the pixel rescale inside `analyze`.
 *
 * The input is the value `json.loads` produced (or None when it raised).
 * Python's dynamic typing is kept: subscripting or iterating a value of the
 * wrong JSON kind raises, and which exception it raises decides whether
 * `_parse_objects` skips the entry or fails.
 */
module SceneAnalyzer {
  import opened Wrappers
  import opened Text
  import opened JsonValue
  import opened DataTypes

  /** The exceptions the pipeline can raise, by class. */
  datatype ErrorKind =
    | KeyError           // a missing dictionary key
    | ValueError         // an unknown enum value, or `float()` of a malformed string
    | TypeError          // an operation applied to the wrong kind of value
    | AttributeError     // `.lower()` / `.strip()` on a value that is not a string
    | ValidationFailed   // pydantic's ValidationError, a subclass of ValueError
    | JsonDecodeError    // `json.loads` rejected the content
    | ContextMissing     // the explicit "Missing required 'context' field" error

  /** Where in `analyze` the failure arose. */
  datatype Stage = ResponseStage | ObjectsStage | ContextStage

  /** `SceneAnalysisError`: every failure of `analyze` is one, keeping the underlying cause. */
  datatype SceneAnalysisError = SceneAnalysisError(stage: Stage, cause: ErrorKind)

  // ---------------------------------------------------------------------------
  // Python operations on JSON values.
  // ---------------------------------------------------------------------------

  /** `value[key]` with a string key: only a dictionary has one, and it may lack it. */
  function Subscript(value: Json, key: string): (r: Result<Json, ErrorKind>)
    ensures r.Success? <==> value.JObject? && key in value.fields
    ensures r.Success? ==> r.value == value.fields[key]
    ensures r.Failure? ==> (if value.JObject? then r.error == KeyError else r.error == TypeError)
  {
    match value
    case JObject(fields) => if key in fields then Success(fields[key]) else Failure(KeyError)
    case _ => Failure(TypeError)
  }

  /** `value.lower()`. */
  function LowerOf(value: Json): (r: Result<string, ErrorKind>)
    ensures r.Success? <==> value.JString?
    ensures r.Success? ==> r.value == Lower(value.str)
    ensures r.Failure? ==> r.error == AttributeError
  {
    if value.JString? then Success(Lower(value.str)) else Failure(AttributeError)
  }

  /** `value.strip()`. */
  function StripOf(value: Json): (r: Result<string, ErrorKind>)
    ensures r.Success? <==> value.JString?
    ensures r.Success? ==> r.value == Strip(value.str) && IsStripped(r.value)
    ensures r.Failure? ==> r.error == AttributeError
  {
    if value.JString? then Success(Strip(value.str)) else Failure(AttributeError)
  }

  /**
   * `float(value)`: a number (or a bool, which is an int) converts exactly; a
   * string goes through `parseFloat`, which stands for Python's float syntax
   * and returns None where `float()` raises ValueError; anything else is a
   * TypeError.
   */
  function FloatOf(value: Json, parseFloat: string -> Option<real>): (r: Result<real, ErrorKind>)
    ensures IsNumeric(value) ==> r == Success(NumValue(value))
    ensures value.JString? && parseFloat(value.str).Some? ==> r == Success(parseFloat(value.str).value)
    ensures r.Failure? <==> !IsNumeric(value) && !(value.JString? && parseFloat(value.str).Some?)
    ensures r.Failure? ==> (if value.JString? then r.error == ValueError else r.error == TypeError)
  {
    match value
    case JNumber(x) => Success(x)
    case JBool(b) => Success(if b then 1.0 else 0.0)
    case JString(s) => if parseFloat(s).Some? then Success(parseFloat(s).value) else Failure(ValueError)
    case _ => Failure(TypeError)
  }

  /** `int(x)`: truncation toward zero. */
  function Trunc(x: real): (n: int)
    ensures 0.0 <= x ==> n == x.Floor
    ensures 0.0 <= x ==> n as real <= x < n as real + 1.0
    ensures x < 0.0 ==> n as real - 1.0 < x <= n as real && n <= 0
  {
    if 0.0 <= x then x.Floor else -((-x).Floor)
  }

  // ---------------------------------------------------------------------------
  // `_parse_response`: the JSON shape checks.
  // ---------------------------------------------------------------------------

  /** The dictionary `_parse_response` hands back: "objects" defaulted to an empty list. */
  function WithDefaultObjects(fields: map<string, Json>): map<string, Json> {
    if "objects" in fields then fields else fields["objects" := JArray([])]
  }

  /**
   * `_parse_response` after `json.loads`. The `in` tests and the assignment
   * behave as Python's do on each kind of value: on a dictionary they test
   * keys, on a list membership, on a string substrings; a list or a string
   * cannot take `data["objects"] = []`, and a number, a bool or None cannot
   * take `in` at all.
   */
  function ParsedResponse(decoded: Option<Json>): (r: Result<Json, ErrorKind>)
    ensures decoded.None? ==> r == Failure(JsonDecodeError)
    ensures decoded.Some? && decoded.value.JObject? ==>
              (r.Success? <==> "context" in decoded.value.fields)
    ensures decoded.Some? && decoded.value.JObject? && r.Success? ==>
              && r.value == JObject(WithDefaultObjects(decoded.value.fields))
              && r.value.fields.Keys == decoded.value.fields.Keys + {"objects"}
              && (forall k :: k in decoded.value.fields ==> r.value.fields[k] == decoded.value.fields[k])
    ensures decoded.Some? && decoded.value.JObject? && "context" !in decoded.value.fields ==>
              r == Failure(ContextMissing)
    ensures decoded.Some? && decoded.value.JArray? ==>
              var elems := decoded.value.elems;
              && (r.Success? <==> JString("objects") in elems && JString("context") in elems)
              && (JString("objects") !in elems ==> r == Failure(TypeError))
              && (JString("objects") in elems && JString("context") !in elems ==> r == Failure(ContextMissing))
    ensures decoded.Some? && decoded.value.JString? ==>
              var text := decoded.value.str;
              && (r.Success? <==> Contains(text, "objects") && Contains(text, "context"))
              && (!Contains(text, "objects") ==> r == Failure(TypeError))
              && (Contains(text, "objects") && !Contains(text, "context") ==> r == Failure(ContextMissing))
    ensures decoded.Some? && !(decoded.value.JObject? || decoded.value.JArray? || decoded.value.JString?) ==>
              r == Failure(TypeError)
    ensures r.Success? ==> decoded.Some? && (r.value.JObject? || r.value.JArray? || r.value.JString?)
    ensures r.Success? && !decoded.value.JObject? ==> r.value == decoded.value
  {
    match decoded
    case None => Failure(JsonDecodeError)
    case Some(data) =>
      match data
      case JObject(fields) =>
        var withObjects := WithDefaultObjects(fields);
        if "context" !in withObjects then Failure(ContextMissing) else Success(JObject(withObjects))
      case JArray(elems) =>
        if JString("objects") !in elems then Failure(TypeError)
        else if JString("context") !in elems then Failure(ContextMissing)
        else Success(data)
      case JString(s) =>
        if !Contains(s, "objects") then Failure(TypeError)
        else if !Contains(s, "context") then Failure(ContextMissing)
        else Success(data)
      case _ => Failure(TypeError)
  }

  /** `_parse_response`, filling in the default in place on the decoded dictionary. */
  method ParseResponse(decoded: Option<Json>) returns (r: Result<Json, ErrorKind>)
    ensures r == ParsedResponse(decoded)
  {
    if decoded.None? {
      return Failure(JsonDecodeError);
    }
    var data := decoded.value;
    if data.JObject? {
      var fields := data.fields;
      if "objects" !in fields {
        fields := fields["objects" := JArray([])];
      }
      if "context" !in fields {
        return Failure(ContextMissing);
      }
      return Success(JObject(fields));
    }
    // A list or a string answers `in` but refuses `data["objects"] = []`.
    var hasObjects, hasContext;
    match data {
      case JArray(elems) =>
        hasObjects, hasContext := JString("objects") in elems, JString("context") in elems;
      case JString(text) =>
        hasObjects, hasContext := Contains(text, "objects"), Contains(text, "context");
      case _ =>
        return Failure(TypeError);
    }
    if !hasObjects {
      return Failure(TypeError);
    }
    if !hasContext {
      return Failure(ContextMissing);
    }
    return Success(data);
  }

  /** A dictionary without "objects" gets an empty list under that key and keeps everything else. */
  lemma MissingObjectsDefaultsToEmpty(fields: map<string, Json>)
    requires "objects" !in fields && "context" in fields
    ensures ParsedResponse(Some(JObject(fields))).Success?
    ensures ParsedResponse(Some(JObject(fields))).value.fields["objects"] == JArray([])
    ensures ParsedResponse(Some(JObject(fields))).value.fields["context"] == fields["context"]
  {
  }

  // ---------------------------------------------------------------------------
  // `_validate_bbox`.
  // ---------------------------------------------------------------------------

  predicate InUnitRange(x: Json) {
    IsNumeric(x) && 0.0 <= NumValue(x) <= 1.0
  }

  /** `all(0 <= x <= 1 for x in xs)`, stopping at the first coordinate out of range; a non-number raises TypeError. */
  function AllInUnitRange(xs: seq<Json>): (r: Result<bool, ErrorKind>)
    ensures r == Success(true) <==> forall i :: 0 <= i < |xs| ==> InUnitRange(xs[i])
    ensures r.Failure? ==> r.error == TypeError
  {
    if xs == [] then Success(true)
    else if !IsNumeric(xs[0]) then Failure(TypeError)
    else if !(0.0 <= NumValue(xs[0]) <= 1.0) then Success(false)
    else
      var rest := AllInUnitRange(xs[1..]);
      assert rest == Success(true) <==> forall i :: 0 <= i < |xs| ==> InUnitRange(xs[i]) by {
        assert forall i :: 1 <= i < |xs| ==> xs[i] == xs[1..][i - 1];
      }
      rest
  }

  /** The position of the first coordinate that is not a number in [0,1], or the length if there is none. */
  function FirstOutOfRange(xs: seq<Json>): (i: nat)
    ensures i <= |xs|
    ensures forall k :: 0 <= k < i ==> InUnitRange(xs[k])
    ensures i < |xs| ==> !InUnitRange(xs[i])
  {
    if xs == [] || !InUnitRange(xs[0]) then 0
    else
      assert forall k :: 1 <= k < |xs| ==> xs[k] == xs[1..][k - 1];
      FirstOutOfRange(xs[1..]) + 1
  }

  /**
   * The scan stops at the first coordinate outside [0, 1]: it raises TypeError
   * exactly when that coordinate is not a number, and answers false exactly when
   * it is a number out of range. A bad coordinate after it is never looked at.
   */
  lemma {:induction false} AllInUnitRangeStops(xs: seq<Json>)
    ensures var i := FirstOutOfRange(xs);
            AllInUnitRange(xs) ==
              if i == |xs| then Success(true)
              else if !IsNumeric(xs[i]) then Failure(TypeError)
              else Success(false)
  {
    if xs != [] && InUnitRange(xs[0]) {
      AllInUnitRangeStops(xs[1..]);
      assert forall k :: 1 <= k < |xs| ==> xs[k] == xs[1..][k - 1];
    }
  }

  /** The geometric test on four normalized coordinates. */
  predicate AcceptableBox(v: seq<real>)
    requires |v| == 4
  {
    var width := v[2] - v[0];
    var height := v[3] - v[1];
    && (forall i :: 0 <= i < 4 ==> 0.0 <= v[i] <= 1.0)
    && v[0] < v[2] && v[1] < v[3]
    && 0.01 <= width <= 0.9 && 0.01 <= height <= 0.9
  }

  /**
   * `_validate_bbox` on whatever the entry holds under "bbox". It answers true
   * exactly for a list of four numbers that pass the geometric test; it raises
   * only TypeError (`len` of a number, or comparing a string with 0).
   */
  function ValidateBbox(bbox: Json): (r: Result<bool, ErrorKind>)
    ensures r == Success(true) <==>
              bbox.JArray? && |bbox.elems| == 4 && AllNumeric(bbox.elems) && AcceptableBox(Numbers(bbox.elems))
    ensures r.Failure? ==> r.error == TypeError
  {
    match bbox
    case JArray(xs) =>
      if |xs| != 4 then Success(false)
      else
        match AllInUnitRange(xs) {
          case Failure(e) => Failure(e)
          case Success(inRange) =>
            if !inRange then Success(false)
            else
              var v := Numbers(xs);
              if !(v[0] < v[2] && v[1] < v[3]) then Success(false)
              else if v[2] - v[0] < 0.01 || v[3] - v[1] < 0.01 then Success(false)
              else if v[2] - v[0] > 0.9 || v[3] - v[1] > 0.9 then Success(false)
              else Success(true)
        }
    case JString(s) => if |s| != 4 then Success(false) else Failure(TypeError)
    case JObject(fields) => if |fields| != 4 then Success(false) else Failure(TypeError)
    case _ => Failure(TypeError)
  }

  function JNumbers(v: seq<real>): (xs: seq<Json>)
    ensures |xs| == |v| && AllNumeric(xs) && Numbers(xs) == v
  {
    seq(|v|, i requires 0 <= i < |v| => JNumber(v[i]))
  }

  /** Two boxes the validator turns away: too narrow, and the whole image. */
  lemma RejectedBoxes()
    ensures ValidateBbox(JArray(JNumbers([0.1, 0.1, 0.105, 0.5])))== Success(false)
    ensures ValidateBbox(JArray(JNumbers([0.0, 0.0, 1.0, 1.0]))) == Success(false)
    ensures ValidateBbox(JArray(JNumbers([0.1, 0.1, 0.5, 0.5]))) == Success(true)
  {
    var narrow := JNumbers([0.1, 0.1, 0.105, 0.5]);
    var whole := JNumbers([0.0, 0.0, 1.0, 1.0]);
    var fine := JNumbers([0.1, 0.1, 0.5, 0.5]);
    assert Numbers(narrow)[2] - Numbers(narrow)[0] < 0.01;
    assert Numbers(whole)[2] - Numbers(whole)[0] > 0.9;
    assert AcceptableBox(Numbers(fine));
  }

  // ---------------------------------------------------------------------------
  // `_parse_objects`.
  // ---------------------------------------------------------------------------

  /**
   * `int(c * 1000)` on each coordinate: a non-negative coordinate scaled and
   * floored, so coordinates in [0,1] land in [0,1000].
   */
  function MillirangeBox(v: seq<real>): (b: BoundingBox)
    requires |v| == 4
    ensures 0.0 <= v[0] ==> b.xMin == (v[0] * 1000.0).Floor
    ensures 0.0 <= v[1] ==> b.yMin == (v[1] * 1000.0).Floor
    ensures 0.0 <= v[2] ==> b.xMax == (v[2] * 1000.0).Floor
    ensures 0.0 <= v[3] ==> b.yMax == (v[3] * 1000.0).Floor
    ensures (forall i :: 0 <= i < 4 ==> 0.0 <= v[i] <= 1.0) ==>
              0 <= b.xMin <= 1000 && 0 <= b.yMin <= 1000 && 0 <= b.xMax <= 1000 && 0 <= b.yMax <= 1000
  {
    BoundingBox(Trunc(v[0] * 1000.0), Trunc(v[1] * 1000.0), Trunc(v[2] * 1000.0), Trunc(v[3] * 1000.0))
  }

  /**
   * A box that passed the validator lands in the millirange with its corners
   * in order, and is between 10 and 900 units wide and high.
   */
  lemma MillirangeBoxBounds(v: seq<real>)
    requires |v| == 4 && AcceptableBox(v)
    ensures var b := MillirangeBox(v);
            && 0 <= b.xMin <= 1000 && 0 <= b.yMin <= 1000 && 0 <= b.xMax <= 1000 && 0 <= b.yMax <= 1000
            && b.xMin < b.xMax && b.yMin < b.yMax
            && 10 <= b.Width() <= 900 && 10 <= b.Height() <= 900
  {
    assert 0.0 <= v[0] <= 1.0 && 0.0 <= v[1] <= 1.0 && 0.0 <= v[2] <= 1.0 && 0.0 <= v[3] <= 1.0;
    TruncSpan(v[0] * 1000.0, v[2] * 1000.0);
    TruncSpan(v[1] * 1000.0, v[3] * 1000.0);
  }

  lemma TruncSpan(a: real, c: real)
    requires 0.0 <= a <= 1000.0 && 0.0 <= c <= 1000.0 && 10.0 <= c - a <= 900.0
    ensures 0 <= Trunc(a) <= 1000 && 0 <= Trunc(c) <= 1000 && 10 <= Trunc(c) - Trunc(a) <= 900
  {
  }

  /** What one iteration of the loop does with an entry. */
  datatype EntryOutcome =
    | Kept(obj: DetectedObject)    // appended to the result
    | BoxRejected                  // `_validate_bbox` said no: `continue`
    | Raised(error: ErrorKind)     // an exception left the loop body

  /** The exceptions the loop's `except (KeyError, ValueError)` catches; pydantic's ValidationError is a ValueError. */
  predicate Tolerated(e: ErrorKind) {
    e == KeyError || e == ValueError || e == ValidationFailed
  }

  predicate Fatal(outcome: EntryOutcome) {
    outcome.Raised? && !Tolerated(outcome.error)
  }

  /** `ObjectType(value)`: any value other than a member's exact string raises ValueError. */
  function ObjectTypeOf(value: Json): (r: Option<ObjectType>)
    ensures r.Some? <==> value.JString? && ObjectFromValue(value.str).Some?
    ensures r.Some? ==> value == JString(ObjectValue(r.value))
  {
    if value.JString? then
      ObjectLookupExact(value.str);
      ObjectFromValue(value.str)
    else None
  }

  /**
   * The body of the loop of `_parse_objects` for one entry, in its evaluation
   * order: `obj["bbox"]`, the validator, `ObjectType(obj["type"])`, the four
   * `int(c*1000)`, `float(obj["confidence"])`, then pydantic's range check.
   * A kept object comes from a dictionary whose box passed the validator, has
   * that box in millirange, the entry's type, and a confidence in [0,1].
   */
  function ParseEntry(entry: Json, parseFloat: string -> Option<real>): (r: EntryOutcome)
    ensures !entry.JObject? ==> r == Raised(TypeError)
    ensures entry.JObject? && "bbox" !in entry.fields ==> r == Raised(KeyError)
    ensures r.Kept? ==>
              && entry.JObject? && "bbox" in entry.fields && "type" in entry.fields && "confidence" in entry.fields
              && ValidateBbox(entry.fields["bbox"]) == Success(true)
              && r.obj.bbox == MillirangeBox(Numbers(entry.fields["bbox"].elems))
              && entry.fields["type"] == JString(ObjectValue(r.obj.objectType))
              && FloatOf(entry.fields["confidence"], parseFloat) == Success(r.obj.confidence)
              && ValidDetectedObject(r.obj) && r.obj.state.None? && r.obj.metadata.None?
    ensures r == BoxRejected <==>
              entry.JObject? && "bbox" in entry.fields && ValidateBbox(entry.fields["bbox"]) == Success(false)
    ensures entry.JObject? && "bbox" in entry.fields && ValidateBbox(entry.fields["bbox"]).Failure? ==>
              r == Raised(TypeError)
  {
    match Subscript(entry, "bbox")
    case Failure(e) => Raised(e)
    case Success(bbox) =>
      match ValidateBbox(bbox)
      case Failure(e) => Raised(e)
      case Success(accepted) =>
        if !accepted then BoxRejected
        else
          match Subscript(entry, "type")
          case Failure(e) => Raised(e)
          case Success(typeValue) =>
            match ObjectTypeOf(typeValue)
            case None => Raised(ValueError)
            case Some(objectType) =>
              var box := MillirangeBox(Numbers(bbox.elems));
              match Subscript(entry, "confidence")
              case Failure(e) => Raised(e)
              case Success(confidenceValue) =>
                match FloatOf(confidenceValue, parseFloat)
                case Failure(e) => Raised(e)
                case Success(confidence) =>
                  match ValidateDetectedObject(DetectedObject(objectType, box, confidence))
                  case Failure(_) => Raised(ValidationFailed)
                  case Success(obj) => Kept(obj)
  }

  /** Entries with a good box but a missing or unknown type, or a missing or out-of-range confidence, are skipped. */
  lemma MalformedEntriesAreTolerated(fields: map<string, Json>, parseFloat: string -> Option<real>)
    requires "bbox" in fields && ValidateBbox(fields["bbox"]) == Success(true)
    ensures "type" !in fields ==> ParseEntry(JObject(fields), parseFloat) == Raised(KeyError)
    ensures "type" in fields && ObjectTypeOf(fields["type"]).None? ==>
              ParseEntry(JObject(fields), parseFloat) == Raised(ValueError)
    ensures "type" in fields && ObjectTypeOf(fields["type"]).Some? && "confidence" !in fields ==>
              ParseEntry(JObject(fields), parseFloat) == Raised(KeyError)
    ensures "type" in fields && ObjectTypeOf(fields["type"]).Some? && "confidence" in fields &&
            IsNumeric(fields["confidence"]) && !(0.0 <= NumValue(fields["confidence"]) <= 1.0) ==>
              ParseEntry(JObject(fields), parseFloat) == Raised(ValidationFailed)
    ensures !Fatal(ParseEntry(JObject(fields), parseFloat)) <==>
              !("type" in fields && ObjectTypeOf(fields["type"]).Some? && "confidence" in fields &&
                FloatOf(fields["confidence"], parseFloat) == Failure(TypeError))
  {
  }

  /**
   * The converse of what a kept object says: a dictionary whose box passes the
   * validator, whose type is a member's value and whose confidence converts to
   * a number in [0,1] is kept, as exactly that object.
   */
  lemma WellFormedEntryKept(fields: map<string, Json>, t: ObjectType, c: real, parseFloat: string -> Option<real>)
    requires "bbox" in fields && ValidateBbox(fields["bbox"]) == Success(true)
    requires "type" in fields && fields["type"] == JString(ObjectValue(t))
    requires "confidence" in fields && FloatOf(fields["confidence"], parseFloat) == Success(c)
    requires 0.0 <= c <= 1.0
    ensures ParseEntry(JObject(fields), parseFloat) ==
              Kept(DetectedObject(t, MillirangeBox(Numbers(fields["bbox"].elems)), c, None, None))
  {
    ObjectLookupExact(ObjectValue(t));
  }

  /**
   * A kept object's box is its entry's normalized box scaled by 1000 and
   * floored: within [0,1000], strictly ordered, 10 to 900 units on each side.
   */
  lemma KeptBoxInMillirange(entry: Json, parseFloat: string -> Option<real>)
    requires ParseEntry(entry, parseFloat).Kept?
    ensures var v := Numbers(entry.fields["bbox"].elems);
            var b := ParseEntry(entry, parseFloat).obj.bbox;
            && b == BoundingBox((v[0] * 1000.0).Floor, (v[1] * 1000.0).Floor, (v[2] * 1000.0).Floor, (v[3] * 1000.0).Floor)
            && 0 <= b.xMin < b.xMax <= 1000 && 0 <= b.yMin < b.yMax <= 1000
            && 10 <= b.Width() <= 900 && 10 <= b.Height() <= 900
  {
    var v := Numbers(entry.fields["bbox"].elems);
    MillirangeBoxBounds(v);
    assert 0.0 <= v[0] && 0.0 <= v[1] && 0.0 <= v[2] && 0.0 <= v[3];
  }

  /** What the loop body does with each entry, in order. */
  function Outcomes(entries: seq<Json>, parseFloat: string -> Option<real>): (r: seq<EntryOutcome>)
    ensures |r| == |entries|
    ensures forall j :: 0 <= j < |entries| ==> r[j] == ParseEntry(entries[j], parseFloat)
  {
    seq(|entries|, j requires 0 <= j < |entries| => ParseEntry(entries[j], parseFloat))
  }

  /**
   * The loop's effect, prefix by prefix as it appends: the first outcome that
   * is an exception the loop does not catch decides the failure; otherwise
   * the kept objects in order.
   */
  function Collect(outcomes: seq<EntryOutcome>): (r: Result<seq<DetectedObject>, ErrorKind>)
    ensures r.Success? <==> forall j :: 0 <= j < |outcomes| ==> !Fatal(outcomes[j])
    ensures r.Success? ==> r.value == KeptObjects(outcomes)
  {
    if outcomes == [] then Success([])
    else
      var init := outcomes[..|outcomes| - 1];
      var before := Collect(init);
      assert forall j :: 0 <= j < |init| ==> init[j] == outcomes[j];
      match before
      case Failure(e) => Failure(e)
      case Success(objects) =>
        match outcomes[|outcomes| - 1]
        case Kept(obj) => Success(objects + [obj])
        case BoxRejected => Success(objects)
        case Raised(e) => if Tolerated(e) then Success(objects) else Failure(e)
  }

  /** The kept objects alone, ignoring failures. */
  function KeptObjects(outcomes: seq<EntryOutcome>): seq<DetectedObject> {
    if outcomes == [] then []
    else
      var last := outcomes[|outcomes| - 1];
      KeptObjects(outcomes[..|outcomes| - 1]) + (if last.Kept? then [last.obj] else [])
  }

  /** The positions of the kept outcomes: increasing, and all of them. */
  function KeptIndices(outcomes: seq<EntryOutcome>): (r: seq<nat>)
    ensures forall k :: 0 <= k < |r| ==> r[k] < |outcomes| && outcomes[r[k]].Kept?
    ensures forall k, l :: 0 <= k < l < |r| ==> r[k] < r[l]
    ensures forall j :: 0 <= j < |outcomes| && outcomes[j].Kept? ==> j in r
  {
    if outcomes == [] then []
    else
      var init := outcomes[..|outcomes| - 1];
      var before := KeptIndices(init);
      assert forall j :: 0 <= j < |init| ==> init[j] == outcomes[j];
      before + (if outcomes[|outcomes| - 1].Kept? then [|outcomes| - 1] else [])
  }

  /**
   * The kept objects form an order-preserving subsequence of the outcomes:
   * the k-th kept object is the one at the k-th kept position.
   */
  lemma {:induction false} KeptObjectsSubsequence(outcomes: seq<EntryOutcome>)
    ensures |KeptObjects(outcomes)| == |KeptIndices(outcomes)| <= |outcomes|
    ensures forall k :: 0 <= k < |KeptIndices(outcomes)| ==>
              outcomes[KeptIndices(outcomes)[k]] == Kept(KeptObjects(outcomes)[k])
  {
    if outcomes != [] {
      var init := outcomes[..|outcomes| - 1];
      var last := outcomes[|outcomes| - 1];
      KeptObjectsSubsequence(init);
      var objects, indices := KeptObjects(init), KeptIndices(init);
      var newObjects := if last.Kept? then [last.obj] else [];
      var newIndices := if last.Kept? then [|outcomes| - 1] else [];
      assert KeptObjects(outcomes) == objects + newObjects;
      assert KeptIndices(outcomes) == indices + newIndices;
      forall k | 0 <= k < |indices| + |newIndices|
        ensures outcomes[(indices + newIndices)[k]] == Kept((objects + newObjects)[k])
      {
        if k < |indices| {
          assert outcomes[indices[k]] == init[indices[k]];
        }
      }
    }
  }

  /** The first uncaught exception is the one the loop raises. */
  lemma {:induction false} CollectFailure(outcomes: seq<EntryOutcome>)
    requires Collect(outcomes).Failure?
    ensures exists j :: 0 <= j < |outcomes| && outcomes[j] == Raised(Collect(outcomes).error)
              && Fatal(outcomes[j]) && forall k :: 0 <= k < j ==> !Fatal(outcomes[k])
  {
    var init := outcomes[..|outcomes| - 1];
    assert forall j :: 0 <= j < |init| ==> init[j] == outcomes[j];
    if Collect(init).Failure? {
      CollectFailure(init);
      var j :| 0 <= j < |init| && init[j] == Raised(Collect(init).error)
                && Fatal(init[j]) && forall k :: 0 <= k < j ==> !Fatal(init[k]);
      assert outcomes[j] == Raised(Collect(outcomes).error);
    } else {
      var j := |outcomes| - 1;
      assert outcomes[j] == Raised(Collect(outcomes).error);
    }
  }

  lemma {:induction false} FailedPrefixDecides(outcomes: seq<EntryOutcome>, i: nat)
    requires i <= |outcomes| && Collect(outcomes[..i]).Failure?
    ensures Collect(outcomes) == Collect(outcomes[..i])
    decreases |outcomes| - i
  {
    if i < |outcomes| {
      assert outcomes[..i + 1][..i] == outcomes[..i];
      FailedPrefixDecides(outcomes, i + 1);
    } else {
      assert outcomes[..i] == outcomes;
    }
  }

  /** `_parse_objects(entries)`. */
  function ParsedObjects(entries: seq<Json>, parseFloat: string -> Option<real>): (r: Result<seq<DetectedObject>, ErrorKind>)
    ensures r.Success? <==> forall j :: 0 <= j < |entries| ==> !Fatal(ParseEntry(entries[j], parseFloat))
    ensures r.Success? ==> forall k :: 0 <= k < |r.value| ==> ValidDetectedObject(r.value[k])
  {
    var outcomes := Outcomes(entries, parseFloat);
    var r := Collect(outcomes);
    assert r.Success? <==> forall j :: 0 <= j < |entries| ==> !Fatal(outcomes[j]);
    if r.Success? then
      KeptObjectsSubsequence(outcomes);
      r
    else r
  }

  /** `_parse_objects`: the loop over the entries, appending the kept objects. */
  method ParseObjects(entries: seq<Json>, parseFloat: string -> Option<real>) returns (r: Result<seq<DetectedObject>, ErrorKind>)
    ensures r == ParsedObjects(entries, parseFloat)
  {
    ghost var outcomes := Outcomes(entries, parseFloat);
    var detected: seq<DetectedObject> := [];
    var i := 0;
    while i < |entries|
      invariant 0 <= i <= |entries|
      invariant Collect(outcomes[..i]) == Success(detected)
    {
      var outcome := ParseEntry(entries[i], parseFloat);
      assert outcomes[..i + 1][..i] == outcomes[..i];
      assert outcomes[..i + 1][i] == outcome;
      match outcome {
        case Kept(obj) =>
          detected := detected + [obj];
        case BoxRejected =>
        case Raised(e) =>
          if !Tolerated(e) {
            FailedPrefixDecides(outcomes, i + 1);
            return Failure(e);
          }
      }
      i := i + 1;
    }
    assert outcomes[..i] == outcomes;
    return Success(detected);
  }

  /** `for obj in value`: a list yields its elements; an empty dict or string yields nothing. */
  function Entries(value: Json): (r: Result<seq<Json>, ErrorKind>)
    ensures value.JArray? ==> r == Success(value.elems)
    ensures !value.JArray? && !value.JObject? && !value.JString? ==> r == Failure(TypeError)
    ensures value.JObject? ==> (r.Success? <==> |value.fields| == 0)
    ensures value.JString? ==> (r.Success? <==> value.str == [])
    ensures r.Success? && !value.JArray? ==> r.value == []
    ensures r.Failure? ==> r.error == TypeError
  {
    match value
    case JArray(elems) => Success(elems)
    // Iterating a dict yields its keys and a string its characters; the first
    // of those, a string, then fails `obj["bbox"]` with TypeError.
    case JObject(fields) => if |fields| == 0 then Success([]) else Failure(TypeError)
    case JString(s) => if s == [] then Success([]) else Failure(TypeError)
    case _ => Failure(TypeError)
  }

  // ---------------------------------------------------------------------------
  // `_parse_context`.
  // ---------------------------------------------------------------------------

  /** `_parse_context`: weather, then time, then road, then pydantic's pattern check on the time. */
  function ParseContext(context: Json): (r: Result<SceneContext, ErrorKind>)
    ensures r.Success? ==> ValidSceneContext(r.value) && r.value.metadata.None?
  {
    match Subscript(context, "weather")
    case Failure(e) => Failure(e)
    case Success(weatherValue) =>
      match LowerOf(weatherValue)
      case Failure(e) => Failure(e)
      case Success(weatherToken) =>
        match WeatherFromValue(weatherToken)
        case None => Failure(ValueError)
        case Some(weather) =>
          match Subscript(context, "time")
          case Failure(e) => Failure(e)
          case Success(timeValue) =>
            match LowerOf(timeValue)
            case Failure(e) => Failure(e)
            case Success(time) =>
              match Subscript(context, "road")
              case Failure(e) => Failure(e)
              case Success(roadValue) =>
                match StripOf(roadValue)
                case Failure(e) => Failure(e)
                case Success(road) =>
                  match ValidateSceneContext(SceneContext(weather, time, road))
                  case Failure(_) => Failure(ValidationFailed)
                  case Success(c) => Success(c)
  }

  /** The context a dictionary of three strings denotes. */
  predicate ContextDescribes(fields: map<string, Json>, c: SceneContext) {
    && "weather" in fields && fields["weather"].JString?
    && "time" in fields && fields["time"].JString?
    && "road" in fields && fields["road"].JString?
    && WeatherValue(c.weather) == Lower(fields["weather"].str)
    && c.timeOfDay == Lower(fields["time"].str) && ValidTimeOfDay(c.timeOfDay)
    && c.roadType == Strip(fields["road"].str)
    && c.metadata.None?
  }

  /**
   * `_parse_context` succeeds with c exactly when the context is a dictionary
   * whose "weather", "time" and "road" are strings, the lower-cased weather is
   * c's value, the lower-cased time is one of the four times and is c's, and
   * c's road is the stripped road text (which may be empty).
   */
  lemma ParseContextSpec(context: Json, c: SceneContext)
    ensures ParseContext(context) == Success(c) <==> context.JObject? && ContextDescribes(context.fields, c)
  {
    if context.JObject? && "weather" in context.fields && context.fields["weather"].JString? {
      WeatherLookupExact(Lower(context.fields["weather"].str));
    }
    if context.JObject? && ContextDescribes(context.fields, c) {
      assert c == SceneContext(c.weather, c.timeOfDay, c.roadType);
    }
  }

  /** Errors of `_parse_context`: a missing weather is a KeyError, an unknown one a ValueError, a non-string one an AttributeError. */
  lemma ParseContextErrors(fields: map<string, Json>)
    ensures !("weather" in fields) ==> ParseContext(JObject(fields)) == Failure(KeyError)
    ensures "weather" in fields && fields["weather"].JString? && WeatherFromValue(Lower(fields["weather"].str)).None? ==>
              ParseContext(JObject(fields)) == Failure(ValueError)
    ensures "weather" in fields && !fields["weather"].JString? ==> ParseContext(JObject(fields)) == Failure(AttributeError)
  {
  }

  /** A road of blanks is accepted, as the empty description. */
  lemma BlankRoadAccepted(fields: map<string, Json>)
    requires "weather" in fields && fields["weather"].JString? && WeatherFromValue(Lower(fields["weather"].str)).Some?
    requires "time" in fields && fields["time"].JString? && ValidTimeOfDay(Lower(fields["time"].str))
    requires "road" in fields && fields["road"].JString? && AllSpace(fields["road"].str)
    ensures ParseContext(JObject(fields)).Success? && ParseContext(JObject(fields)).value.roadType == ""
  {
    var weather := WeatherFromValue(Lower(fields["weather"].str)).value;
    WeatherLookupExact(Lower(fields["weather"].str));
    var c := SceneContext(weather, Lower(fields["time"].str), "");
    assert ContextDescribes(fields, c);
    ParseContextSpec(JObject(fields), c);
  }

  lemma LowerOfLowercase(s: string)
    requires forall i :: 0 <= i < |s| ==> !('A' <= s[i] <= 'Z')
    ensures Lower(s) == s
  {
  }

  // ---------------------------------------------------------------------------
  // The rescale inside `analyze`.
  // ---------------------------------------------------------------------------

  /** `int(a / b)` for a positive b: true division, then truncation toward zero. */
  function TruncDiv(a: int, b: int): (q: int)
    requires b > 0
    ensures 0 <= a ==> q == a / b
  {
    if 0 <= a then a / b else -((-a) / b)
  }

  /** `int(c * dim / 1000)`: the exact quotient `c * dim / 1000`, rounded toward zero. */
  function ScaleCoord(c: int, dim: int): (r: int)
    ensures 0 <= c * dim ==> 0 <= r && r * 1000 <= c * dim < r * 1000 + 1000
    ensures c * dim < 0 ==> r <= 0 && r * 1000 - 1000 < c * dim <= r * 1000
  {
    var p := c * dim;
    var r := TruncDiv(p, 1000);
    assert p < 0 ==> r == -((-p) / 1000);
    r
  }

  /**
   * The rescaled box. A millirange box is its own image at 1000 x 1000, and a
   * box with ordered non-negative corners stays so under non-negative dimensions.
   */
  function ScaleBox(b: BoundingBox, width: int, height: int): (r: BoundingBox)
    ensures width == 1000 && height == 1000 ==> r == b
    ensures 0 <= b.xMin <= b.xMax && 0 <= b.yMin <= b.yMax && 0 <= width && 0 <= height ==>
              0 <= r.xMin <= r.xMax && 0 <= r.yMin <= r.yMax
  {
    ScaleCoordMonotone(b.xMin, b.xMax, width);
    ScaleCoordMonotone(b.yMin, b.yMax, height);
    BoundingBox(ScaleCoord(b.xMin, width), ScaleCoord(b.yMin, height), ScaleCoord(b.xMax, width), ScaleCoord(b.yMax, height))
  }

  /** Rescaling keeps the order of two non-negative coordinates. */
  lemma ScaleCoordMonotone(c1: int, c2: int, dim: int)
    ensures 0 <= c1 <= c2 && 0 <= dim ==> 0 <= ScaleCoord(c1, dim) <= ScaleCoord(c2, dim)
  {
    if 0 <= c1 <= c2 && 0 <= dim {
      MulMonotone(0, c1, dim);
      MulMonotone(c1, c2, dim);
      DivMonotone(c1 * dim, c2 * dim);
    }
  }

  /** `obj.bbox = BoundingBox(...)`: only the box changes. */
  function ScaleObject(o: DetectedObject, width: int, height: int): (r: DetectedObject)
    ensures r.objectType == o.objectType && r.confidence == o.confidence
    ensures r.state == o.state && r.metadata == o.metadata
  {
    o.(bbox := ScaleBox(o.bbox, width, height))
  }

  function ScaleObjects(objects: seq<DetectedObject>, width: int, height: int): (r: seq<DetectedObject>)
    ensures |r| == |objects|
    ensures forall i :: 0 <= i < |objects| ==> r[i] == ScaleObject(objects[i], width, height)
  {
    seq(|objects|, i requires 0 <= i < |objects| => ScaleObject(objects[i], width, height))
  }

  /** The loop over `objects`, replacing each object's box in place. */
  method RescaleBoxes(objects: array<DetectedObject>, width: int, height: int)
    modifies objects
    ensures objects[..] == ScaleObjects(old(objects[..]), width, height)
  {
    var i := 0;
    while i < objects.Length
      invariant 0 <= i <= objects.Length
      invariant forall k :: 0 <= k < i ==> objects[k] == ScaleObject(old(objects[k]), width, height)
      invariant forall k :: i <= k < objects.Length ==> objects[k] == old(objects[k])
    {
      var bbox := objects[i].bbox;
      objects[i] := objects[i].(bbox := ScaleBox(bbox, width, height));
      i := i + 1;
    }
  }

  lemma MulMonotone(a: int, b: int, d: int)
    requires a <= b && 0 <= d
    ensures a * d <= b * d
  {
    assert (b - a) * d >= 0;
  }

  /** A millirange coordinate lands in [0, dim] for a non-negative dimension, and the order of two is kept. */
  lemma ScaleCoordBounds(c1: int, c2: int, dim: int)
    requires 0 <= c1 <= c2 <= 1000 && 0 <= dim
    ensures 0 <= ScaleCoord(c1, dim) <= ScaleCoord(c2, dim) <= dim
  {
    ScaleCoordMonotone(c1, c2, dim);
    MulMonotone(c2, 1000, dim);
    DivMonotone(c2 * dim, 1000 * dim);
  }

  lemma DivMonotone(a: int, b: int)
    requires 0 <= a <= b
    ensures a / 1000 <= b / 1000
  {
  }

  /**
   * After rescaling, a box whose corners were ordered within the millirange
   * lies within the image and keeps its (non-strict) order.
   */
  lemma ScaledBoxWithinImage(b: BoundingBox, width: int, height: int)
    requires 0 <= b.xMin <= b.xMax <= 1000 && 0 <= b.yMin <= b.yMax <= 1000
    requires 0 <= width && 0 <= height
    ensures var s := ScaleBox(b, width, height);
            0 <= s.xMin <= s.xMax <= width && 0 <= s.yMin <= s.yMax <= height
  {
    ScaleCoordBounds(b.xMin, b.xMax, width);
    ScaleCoordBounds(b.yMin, b.yMax, height);
  }

  lemma ScaleBoxExample()
    ensures ScaleBox(BoundingBox(100, 100, 500, 500), 640, 480) == BoundingBox(64, 48, 320, 240)
  {
  }

  // ---------------------------------------------------------------------------
  // `analyze`.
  // ---------------------------------------------------------------------------

  /**
   * `_parse_objects(data["objects"])`: a list under "objects" is parsed entry by
   * entry; a missing key is a KeyError; anything but a dictionary is a TypeError.
   */
  function ObjectsOf(data: Json, parseFloat: string -> Option<real>): (r: Result<seq<DetectedObject>, ErrorKind>)
    ensures data.JObject? && "objects" in data.fields && data.fields["objects"].JArray? ==>
              r == ParsedObjects(data.fields["objects"].elems, parseFloat)
    ensures data.JObject? && "objects" !in data.fields ==> r == Failure(KeyError)
    ensures !data.JObject? ==> r == Failure(TypeError)
    ensures r.Success? ==> forall k :: 0 <= k < |r.value| ==> ValidDetectedObject(r.value[k])
  {
    match Subscript(data, "objects")
    case Failure(e) => Failure(e)
    case Success(value) =>
      match Entries(value)
      case Failure(e) => Failure(e)
      case Success(entries) => ParsedObjects(entries, parseFloat)
  }

  /**
   * `_parse_context(data["context"])`: the context parser on the value under
   * "context"; a missing key is a KeyError; anything but a dictionary is a TypeError.
   */
  function ContextOf(data: Json): (r: Result<SceneContext, ErrorKind>)
    ensures data.JObject? && "context" in data.fields ==> r == ParseContext(data.fields["context"])
    ensures data.JObject? && "context" !in data.fields ==> r == Failure(KeyError)
    ensures !data.JObject? ==> r == Failure(TypeError)
    ensures r.Success? ==> ValidSceneContext(r.value)
  {
    match Subscript(data, "context")
    case Failure(e) => Failure(e)
    case Success(value) => ParseContext(value)
  }

  /**
   * What `analyze` returns for a decoded reply: the objects (rescaled when an
   * image size is given) and the context, or a SceneAnalysisError naming the
   * stage that failed and the exception behind it.
   */
  function AnalysisOutcome(decoded: Option<Json>, imageSize: Option<(int, int)>, parseFloat: string -> Option<real>)
    : (r: Result<(seq<DetectedObject>, SceneContext), SceneAnalysisError>)
    ensures r.Success? ==> ValidSceneContext(r.value.1)
    ensures ParsedResponse(decoded).Failure? ==>
              r == Failure(SceneAnalysisError(ResponseStage, ParsedResponse(decoded).error))
    ensures ParsedResponse(decoded).Success? && ObjectsOf(ParsedResponse(decoded).value, parseFloat).Failure? ==>
              r == Failure(SceneAnalysisError(ObjectsStage, ObjectsOf(ParsedResponse(decoded).value, parseFloat).error))
    ensures ParsedResponse(decoded).Success? && ObjectsOf(ParsedResponse(decoded).value, parseFloat).Success? &&
            ContextOf(ParsedResponse(decoded).value).Failure? ==>
              r == Failure(SceneAnalysisError(ContextStage, ContextOf(ParsedResponse(decoded).value).error))
    ensures r.Success? <==>
              && ParsedResponse(decoded).Success?
              && ObjectsOf(ParsedResponse(decoded).value, parseFloat).Success?
              && ContextOf(ParsedResponse(decoded).value).Success?
    ensures r.Success? ==>
              && r.value.1 == ContextOf(ParsedResponse(decoded).value).value
              && |r.value.0| == |ObjectsOf(ParsedResponse(decoded).value, parseFloat).value|
  {
    match ParsedResponse(decoded)
    case Failure(e) => Failure(SceneAnalysisError(ResponseStage, e))
    case Success(data) =>
      match ObjectsOf(data, parseFloat)
      case Failure(e) => Failure(SceneAnalysisError(ObjectsStage, e))
      case Success(objects) =>
        match ContextOf(data)
        case Failure(e) => Failure(SceneAnalysisError(ContextStage, e))
        case Success(context) =>
          var scaled := if imageSize.Some? then ScaleObjects(objects, imageSize.value.0, imageSize.value.1) else objects;
          Success((scaled, context))
  }

  /** `analyze` after the model call: parse, build the objects, parse the context, rescale in place. */
  method Analyze(decoded: Option<Json>, imageSize: Option<(int, int)>, parseFloat: string -> Option<real>)
    returns (r: Result<(seq<DetectedObject>, SceneContext), SceneAnalysisError>)
    ensures r == AnalysisOutcome(decoded, imageSize, parseFloat)
  {
    var parsed := ParseResponse(decoded);
    if parsed.Failure? {
      return Failure(SceneAnalysisError(ResponseStage, parsed.error));
    }
    var data := parsed.value;
    var objectsValue := Subscript(data, "objects");
    if objectsValue.Failure? {
      return Failure(SceneAnalysisError(ObjectsStage, objectsValue.error));
    }
    var entries := Entries(objectsValue.value);
    if entries.Failure? {
      return Failure(SceneAnalysisError(ObjectsStage, entries.error));
    }
    var objects := ParseObjects(entries.value, parseFloat);
    if objects.Failure? {
      return Failure(SceneAnalysisError(ObjectsStage, objects.error));
    }
    var context := ContextOf(data);
    if context.Failure? {
      return Failure(SceneAnalysisError(ContextStage, context.error));
    }
    var detected := objects.value;
    if imageSize.Some? {
      var boxes := new DetectedObject[|detected|](i requires 0 <= i < |detected| => detected[i]);
      assert boxes[..] == detected;
      RescaleBoxes(boxes, imageSize.value.0, imageSize.value.1);
      detected := boxes[..];
    }
    return Success((detected, context.value));
  }

  /**
   * Without an image size the objects stay in millirange exactly as the
   * builder produced them; with one, the count, order, types and confidences
   * are kept and only each box is rescaled.
   */
  lemma AnalysisObjects(decoded: Option<Json>, imageSize: Option<(int, int)>, parseFloat: string -> Option<real>)
    requires AnalysisOutcome(decoded, imageSize, parseFloat).Success?
    ensures var data := ParsedResponse(decoded).value;
            var objects := ObjectsOf(data, parseFloat);
            && objects.Success?
            && (imageSize.None? ==> AnalysisOutcome(decoded, imageSize, parseFloat).value.0 == objects.value)
            && (imageSize.Some? ==>
                  var scaled := AnalysisOutcome(decoded, imageSize, parseFloat).value.0;
                  && |scaled| == |objects.value|
                  && forall i :: 0 <= i < |scaled| ==>
                       && scaled[i].objectType == objects.value[i].objectType
                       && scaled[i].confidence == objects.value[i].confidence
                       && scaled[i].bbox == ScaleBox(objects.value[i].bbox, imageSize.value.0, imageSize.value.1))
  {
  }

  /** A missing "context" fails at the response stage, as does content `json.loads` rejected. */
  lemma MissingContextFails(fields: map<string, Json>, imageSize: Option<(int, int)>, parseFloat: string -> Option<real>)
    requires "context" !in fields
    ensures AnalysisOutcome(Some(JObject(fields)), imageSize, parseFloat) == Failure(SceneAnalysisError(ResponseStage, ContextMissing))
    ensures AnalysisOutcome(None, imageSize, parseFloat) == Failure(SceneAnalysisError(ResponseStage, JsonDecodeError))
  {
  }

  /** A reply without "objects" yields no objects and whatever its context gives. */
  lemma MissingObjectsYieldNoObjects(fields: map<string, Json>, imageSize: Option<(int, int)>, parseFloat: string -> Option<real>)
    requires "objects" !in fields && "context" in fields
    ensures ParseContext(fields["context"]).Success? ==>
              AnalysisOutcome(Some(JObject(fields)), imageSize, parseFloat) == Success(([], ParseContext(fields["context"]).value))
    ensures ParseContext(fields["context"]).Failure? ==>
              AnalysisOutcome(Some(JObject(fields)), imageSize, parseFloat)
                == Failure(SceneAnalysisError(ContextStage, ParseContext(fields["context"]).error))
  {
    var data := JObject(WithDefaultObjects(fields));
    assert ParsedResponse(Some(JObject(fields))) == Success(data);
    assert ObjectsOf(data, parseFloat) == Success([]);
  }

  /** The kept objects of `_parse_objects` are, in order, what the kept entries produced. */
  lemma ParsedObjectsSubsequence(entries: seq<Json>, parseFloat: string -> Option<real>)
    requires ParsedObjects(entries, parseFloat).Success?
    ensures var objects := ParsedObjects(entries, parseFloat).value;
            var indices := KeptIndices(Outcomes(entries, parseFloat));
            && |objects| == |indices| <= |entries|
            && (forall k :: 0 <= k < |indices| ==>
                  indices[k] < |entries| && ParseEntry(entries[indices[k]], parseFloat) == Kept(objects[k]))
            && (forall k, l :: 0 <= k < l < |indices| ==> indices[k] < indices[l])
            && (forall j :: 0 <= j < |entries| && ParseEntry(entries[j], parseFloat).Kept? ==> j in indices)
  {
    KeptObjectsSubsequence(Outcomes(entries, parseFloat));
  }

  /** The entry of the documented example, with a box of the given coordinates. */
  function ExampleEntry(box: seq<real>): Json {
    JObject(map["type" := JString("vehicle"), "bbox" := JArray(JNumbers(box)), "confidence" := JNumber(0.9)])
  }

  function ExampleContext(): Json {
    JObject(map["weather" := JString("clear"), "time" := JString("day"), "road" := JString("highway")])
  }

  /** The example's confidences are numbers, so `float()` of a string is never reached. */
  function NoStringFloats(s: string): Option<real> {
    None
  }

  function ExampleObject(): DetectedObject {
    DetectedObject(Vehicle, BoundingBox(100, 100, 500, 500), 0.9)
  }

  lemma ExampleContextParses()
    ensures ParseContext(ExampleContext()) == Success(SceneContext(Clear, "day", "highway"))
  {
    var fields := ExampleContext().fields;
    assert fields["weather"] == JString("clear") && fields["time"] == JString("day") && fields["road"] == JString("highway");
    LowerOfLowercase("clear");
    LowerOfLowercase("day");
    StripOfStripped("highway");
    assert WeatherFromValue("clear") == Some(Clear);
    assert ValidateSceneContext(SceneContext(Clear, "day", "highway")) == Success(SceneContext(Clear, "day", "highway"));
  }

  lemma ExampleEntryKept()
    ensures ParseEntry(ExampleEntry([0.1, 0.1, 0.5, 0.5]), NoStringFloats) == Kept(ExampleObject())
  {
    RejectedBoxes();
  }

  lemma ExampleEntriesRejected()
    ensures ParseEntry(ExampleEntry([0.1, 0.1, 0.105, 0.5]), NoStringFloats) == BoxRejected
    ensures ParseEntry(ExampleEntry([0.0, 0.0, 1.0, 1.0]), NoStringFloats) == BoxRejected
  {
    RejectedBoxes();
  }

  /** Rejected boxes around a kept one leave just the kept object. */
  lemma RejectedOutcomesDropped(obj: DetectedObject)
    ensures Collect([Kept(obj)]) == Success([obj])
    ensures Collect([BoxRejected, Kept(obj), BoxRejected]) == Success([obj])
  {
    var three := [BoxRejected, Kept(obj), BoxRejected];
    assert three[..2] == [BoxRejected, Kept(obj)];
    assert three[..2][..1] == [BoxRejected];
    assert [Kept(obj)][..0] == [];
    assert Collect([Kept(obj)][..0]) == Success([]);
    assert [] + [obj] == [obj];
  }

  /** A reply with the example context whose entries yield exactly the example object. */
  lemma ExampleReply(entries: seq<Json>)
    requires ParsedObjects(entries, NoStringFloats) == Success([ExampleObject()])
    ensures AnalysisOutcome(Some(JObject(map["objects" := JArray(entries), "context" := ExampleContext()])), None, NoStringFloats)
              == Success(([ExampleObject()], SceneContext(Clear, "day", "highway")))
  {
    var fields := map["objects" := JArray(entries), "context" := ExampleContext()];
    assert WithDefaultObjects(fields) == fields;
    ExampleContextParses();
  }

  lemma ExampleObjectsParsed()
    ensures ParsedObjects([ExampleEntry([0.1, 0.1, 0.5, 0.5])], NoStringFloats) == Success([ExampleObject()])
  {
    var kept := ExampleEntry([0.1, 0.1, 0.5, 0.5]);
    ExampleEntryKept();
    RejectedOutcomesDropped(ExampleObject());
    assert Outcomes([kept], NoStringFloats) == [Kept(ExampleObject())];
  }

  lemma RejectedObjectsParsed()
    ensures ParsedObjects([ExampleEntry([0.1, 0.1, 0.105, 0.5]), ExampleEntry([0.1, 0.1, 0.5, 0.5]),
                           ExampleEntry([0.0, 0.0, 1.0, 1.0])], NoStringFloats) == Success([ExampleObject()])
  {
    var kept := ExampleEntry([0.1, 0.1, 0.5, 0.5]);
    var narrow := ExampleEntry([0.1, 0.1, 0.105, 0.5]);
    var whole := ExampleEntry([0.0, 0.0, 1.0, 1.0]);
    ExampleEntryKept();
    ExampleEntriesRejected();
    RejectedOutcomesDropped(ExampleObject());
    assert Outcomes([narrow, kept, whole], NoStringFloats) == [BoxRejected, Kept(ExampleObject()), BoxRejected];
  }

  /**
   * The documented reply yields its one object and its context, here in
   * millirange since no image size is given.
   */
  lemma DocumentedExample()
    ensures AnalysisOutcome(Some(JObject(map["objects" := JArray([ExampleEntry([0.1, 0.1, 0.5, 0.5])]),
                                           "context" := ExampleContext()])), None, NoStringFloats)
              == Success(([ExampleObject()], SceneContext(Clear, "day", "highway")))
  {
    ExampleObjectsParsed();
    ExampleReply([ExampleEntry([0.1, 0.1, 0.5, 0.5])]);
  }

  /** Adding entries whose boxes are too narrow or cover the whole image drops them and changes nothing else. */
  lemma RejectedBoxesDropped()
    ensures AnalysisOutcome(Some(JObject(map["objects" := JArray([ExampleEntry([0.1, 0.1, 0.105, 0.5]),
                                                                   ExampleEntry([0.1, 0.1, 0.5, 0.5]),
                                                                   ExampleEntry([0.0, 0.0, 1.0, 1.0])]),
                                           "context" := ExampleContext()])), None, NoStringFloats)
              == Success(([ExampleObject()], SceneContext(Clear, "day", "highway")))
  {
    RejectedObjectsParsed();
    ExampleReply([ExampleEntry([0.1, 0.1, 0.105, 0.5]), ExampleEntry([0.1, 0.1, 0.5, 0.5]), ExampleEntry([0.0, 0.0, 1.0, 1.0])]);
  }
}
