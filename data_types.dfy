/**
 * The value types of src/utils/data_types.py: four closed string enums, the
 * integer bounding box, and the pydantic records with their field constraints.
 * pydantic's validating constructor is modelled as the plain datatype
 * constructor followed by a Validate* function that either hands the record
 * back or fails with a ValidationError.
 */
module DataTypes {
  import opened Wrappers
  import opened JsonValue

  // ---------------------------------------------------------------------------
  // Enums: each `str` Enum is a datatype, its value string, and the lookup
  // `Enum(value)`, which raises ValueError (here: None) for an unknown value.
  // ---------------------------------------------------------------------------

  /** Capital letters and underscores only, as the action values are written. */
  predicate UpperSnake(s: string) {
    s != [] && forall i :: 0 <= i < |s| ==> 'A' <= s[i] <= 'Z' || s[i] == '_'
  }

  /** Small letters and underscores only, as the other enums' values are written. */
  predicate LowerSnake(s: string) {
    s != [] && forall i :: 0 <= i < |s| ==> 'a' <= s[i] <= 'z' || s[i] == '_'
  }

  datatype ActionType = Stop | Continue | TurnLeft | TurnRight | SlowDown

  /** `ActionType(s)`: only an upper-case value can name a member. */
  function ActionFromValue(s: string): (r: Option<ActionType>)
    ensures r.Some? ==> UpperSnake(s)
  {
    if s == "STOP" then Some(Stop)
    else if s == "CONTINUE" then Some(Continue)
    else if s == "TURN_LEFT" then Some(TurnLeft)
    else if s == "TURN_RIGHT" then Some(TurnRight)
    else if s == "SLOW_DOWN" then Some(SlowDown)
    else None
  }

  /** The member's value; looking it up again gives back the member. */
  function ActionValue(a: ActionType): (s: string)
    ensures ActionFromValue(s) == Some(a)
  {
    match a
    case Stop => "STOP"
    case Continue => "CONTINUE"
    case TurnLeft => "TURN_LEFT"
    case TurnRight => "TURN_RIGHT"
    case SlowDown => "SLOW_DOWN"
  }

  /** A lookup succeeds only on a member's own value, matched case-sensitively. */
  lemma ActionLookupExact(s: string)
    ensures ActionFromValue(s).Some? <==> exists a :: ActionValue(a) == s
    ensures ActionFromValue(s).Some? ==> ActionValue(ActionFromValue(s).value) == s
  {
    if ActionFromValue(s).Some? {
      assert ActionValue(ActionFromValue(s).value) == s;
    }
  }

  datatype ObjectType = Vehicle | Pedestrian | TrafficLight | TrafficSign | Bus | Car

  /** `ObjectType(s)`: only a lower-case value can name a member, so the lookup is case-sensitive. */
  function ObjectFromValue(s: string): (r: Option<ObjectType>)
    ensures r.Some? ==> LowerSnake(s)
  {
    if s == "vehicle" then Some(Vehicle)
    else if s == "pedestrian" then Some(Pedestrian)
    else if s == "traffic_light" then Some(TrafficLight)
    else if s == "traffic_sign" then Some(TrafficSign)
    else if s == "bus" then Some(Bus)
    else if s == "car" then Some(Car)
    else None
  }

  function ObjectValue(t: ObjectType): (s: string)
    ensures ObjectFromValue(s) == Some(t)
  {
    match t
    case Vehicle => "vehicle"
    case Pedestrian => "pedestrian"
    case TrafficLight => "traffic_light"
    case TrafficSign => "traffic_sign"
    case Bus => "bus"
    case Car => "car"
  }

  lemma ObjectLookupExact(s: string)
    ensures ObjectFromValue(s).Some? <==> exists t :: ObjectValue(t) == s
    ensures ObjectFromValue(s).Some? ==> ObjectValue(ObjectFromValue(s).value) == s
  {
    if ObjectFromValue(s).Some? {
      assert ObjectValue(ObjectFromValue(s).value) == s;
    }
  }

  datatype TrafficLightState = Red | Yellow | Green

  /** `TrafficLightState(s)`: only a lower-case value can name a member. */
  function LightFromValue(s: string): (r: Option<TrafficLightState>)
    ensures r.Some? ==> LowerSnake(s)
  {
    if s == "red" then Some(Red)
    else if s == "yellow" then Some(Yellow)
    else if s == "green" then Some(Green)
    else None
  }

  function LightValue(l: TrafficLightState): (s: string)
    ensures LightFromValue(s) == Some(l)
  {
    match l
    case Red => "red"
    case Yellow => "yellow"
    case Green => "green"
  }

  lemma LightLookupExact(s: string)
    ensures LightFromValue(s).Some? <==> exists l :: LightValue(l) == s
    ensures LightFromValue(s).Some? ==> LightValue(LightFromValue(s).value) == s
  {
    if LightFromValue(s).Some? {
      assert LightValue(LightFromValue(s).value) == s;
    }
  }

  datatype WeatherCondition = Clear | Rainy | Snowy | Foggy | Cloudy

  /** `WeatherCondition(s)`: only a lower-case value can name a member. */
  function WeatherFromValue(s: string): (r: Option<WeatherCondition>)
    ensures r.Some? ==> LowerSnake(s)
  {
    if s == "clear" then Some(Clear)
    else if s == "rainy" then Some(Rainy)
    else if s == "snowy" then Some(Snowy)
    else if s == "foggy" then Some(Foggy)
    else if s == "cloudy" then Some(Cloudy)
    else None
  }

  function WeatherValue(w: WeatherCondition): (s: string)
    ensures WeatherFromValue(s) == Some(w)
  {
    match w
    case Clear => "clear"
    case Rainy => "rainy"
    case Snowy => "snowy"
    case Foggy => "foggy"
    case Cloudy => "cloudy"
  }

  lemma WeatherLookupExact(s: string)
    ensures WeatherFromValue(s).Some? <==> exists w :: WeatherValue(w) == s
    ensures WeatherFromValue(s).Some? ==> WeatherValue(WeatherFromValue(s).value) == s
  {
    if WeatherFromValue(s).Some? {
      assert WeatherValue(WeatherFromValue(s).value) == s;
    }
  }

  /** Every enum's value strings are pairwise distinct. */
  lemma EnumValuesDistinct(a1: ActionType, a2: ActionType, t1: ObjectType, t2: ObjectType,
                           l1: TrafficLightState, l2: TrafficLightState,
                           w1: WeatherCondition, w2: WeatherCondition)
    ensures ActionValue(a1) == ActionValue(a2) ==> a1 == a2
    ensures ObjectValue(t1) == ObjectValue(t2) ==> t1 == t2
    ensures LightValue(l1) == LightValue(l2) ==> l1 == l2
    ensures WeatherValue(w1) == WeatherValue(w2) ==> w1 == w2
  {
    assert ActionFromValue(ActionValue(a1)) == Some(a1) && ActionFromValue(ActionValue(a2)) == Some(a2);
    assert ObjectFromValue(ObjectValue(t1)) == Some(t1) && ObjectFromValue(ObjectValue(t2)) == Some(t2);
    assert LightFromValue(LightValue(l1)) == Some(l1) && LightFromValue(LightValue(l2)) == Some(l2);
    assert WeatherFromValue(WeatherValue(w1)) == Some(w1) && WeatherFromValue(WeatherValue(w2)) == Some(w2);
  }

  // ---------------------------------------------------------------------------
  // Records.
  // ---------------------------------------------------------------------------

  /** Four integer coordinates; the record itself imposes no order and no sign. */
  datatype BoundingBox = BoundingBox(xMin: int, yMin: int, xMax: int, yMax: int) {
    function Width(): int {
      xMax - xMin
    }

    function Height(): int {
      yMax - yMin
    }

    function AsTuple(): (int, int, int, int) {
      (xMin, yMin, xMax, yMax)
    }
  }

  /** The tuple view loses nothing, and no box is rejected for its extent. */
  lemma BoundingBoxViews(b: BoundingBox, c: BoundingBox)
    ensures b.AsTuple() == c.AsTuple() ==> b == c
    ensures b.Width() == b.AsTuple().2 - b.AsTuple().0 && b.Height() == b.AsTuple().3 - b.AsTuple().1
    ensures BoundingBox(b.xMax, b.yMax, b.xMin, b.yMin).Width() == -b.Width()
  {
  }

  /** `Optional[Dict]` metadata: a JSON object. */
  type Metadata = map<string, Json>

  /** pydantic's error, naming the field whose constraint failed. */
  datatype ValidationError = ValidationError(field: string)

  /** `Field(..., ge=0.0, le=1.0)`. */
  predicate ValidConfidence(c: real) {
    0.0 <= c <= 1.0
  }

  datatype DetectedObject = DetectedObject(
    objectType: ObjectType,
    bbox: BoundingBox,
    confidence: real,
    state: Option<TrafficLightState> := None,
    metadata: Option<Metadata> := None)

  predicate ValidDetectedObject(o: DetectedObject) {
    ValidConfidence(o.confidence)
  }

  /** `DetectedObject(...)`: construction fails exactly when the confidence is outside [0,1]. */
  function ValidateDetectedObject(o: DetectedObject): (r: Result<DetectedObject, ValidationError>)
    ensures r.Success? <==> 0.0 <= o.confidence <= 1.0
    ensures r.Success? ==> r.value == o
    ensures r.Failure? ==> r.error.field == "confidence"
  {
    if ValidDetectedObject(o) then Success(o) else Failure(ValidationError("confidence"))
  }

  datatype Prediction = Prediction(
    action: ActionType,
    confidence: real,
    metadata: Option<Metadata> := None)

  predicate ValidPrediction(p: Prediction) {
    ValidConfidence(p.confidence)
  }

  /** `Prediction(...)`: construction fails exactly when the confidence is outside [0,1]. */
  function ValidatePrediction(p: Prediction): (r: Result<Prediction, ValidationError>)
    ensures r.Success? <==> 0.0 <= p.confidence <= 1.0
    ensures r.Success? ==> r.value == p
    ensures r.Failure? ==> r.error.field == "confidence"
  {
    if ValidPrediction(p) then Success(p) else Failure(ValidationError("confidence"))
  }

  /** `pattern="^(day|night|dawn|dusk)$"`, anchored at both ends as pydantic's regex engine anchors it. */
  predicate ValidTimeOfDay(t: string) {
    t == "day" || t == "night" || t == "dawn" || t == "dusk"
  }

  /** `road_type` is an unconstrained string, so it may be empty. */
  datatype SceneContext = SceneContext(
    weather: WeatherCondition,
    timeOfDay: string,
    roadType: string,
    metadata: Option<Metadata> := None)

  predicate ValidSceneContext(c: SceneContext) {
    ValidTimeOfDay(c.timeOfDay)
  }

  /** `SceneContext(...)`: construction fails exactly when `time_of_day` is not one of the four words. */
  function ValidateSceneContext(c: SceneContext): (r: Result<SceneContext, ValidationError>)
    ensures r.Success? <==> c.timeOfDay in {"day", "night", "dawn", "dusk"}
    ensures r.Success? ==> r.value == c
    ensures r.Failure? ==> r.error.field == "time_of_day"
  {
    if ValidSceneContext(c) then Success(c) else Failure(ValidationError("time_of_day"))
  }

  /** The aggregate result: only the scene context is required. */
  datatype RoadVLMOutput = RoadVLMOutput(
    sceneContext: SceneContext,
    prediction: Option<Prediction> := None,
    objects: seq<DetectedObject> := [],
    imageId: Option<string> := None,
    processingTime: Option<real> := None)

  predicate ValidOutput(out: RoadVLMOutput) {
    && ValidSceneContext(out.sceneContext)
    && (out.prediction.Some? ==> ValidPrediction(out.prediction.value))
    && (forall i :: 0 <= i < |out.objects| ==> ValidDetectedObject(out.objects[i]))
  }

  /** Leaving out every optional field gives no prediction, no objects, no id and no timing. */
  lemma OutputDefaults(c: SceneContext)
    ensures RoadVLMOutput(c) == RoadVLMOutput(c, None, [], None, None)
    ensures ValidSceneContext(c) <==> ValidOutput(RoadVLMOutput(c))
  {
  }
}
