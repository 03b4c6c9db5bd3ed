/** The application state and its actions (src/lib/store/gaussianProcessStore.ts).
    The store is a record; every action is a function from the current record
    to the next one, which is what the program's `set` calls amount to. */
module Store {
  import opened Numeric
  import opened Mat

  datatype Point = Point(x: real, y: real)

  /** The target functions a new point's y can be read from. */
  datatype FunctionType = NoFunction | Sine | Quadratic | Linear

  /** The `functions` table: 0, sin x, x^2 / 100 and x / 10. */
  function Functions(t: Transcendentals, f: FunctionType, x: real): (y: real)
    ensures f == NoFunction ==> y == 0.0
    ensures f == Sine ==> y == t.sin(x)
    ensures f == Quadratic ==> 0.0 <= y && 100.0 * y == x * x
    ensures f == Linear ==> 10.0 * y == x
  {
    match f
    case NoFunction => 0.0
    case Sine => t.sin(x)
    case Quadratic => SquareIsNonNegative(x); (x * x) / 100.0
    case Linear => x / 10.0
  }

  /** What the message slot shows: a fixed text, or the notice that a point
      was added (the program formats its coordinates with two decimals). */
  datatype Notice = Text(text: string) | AddedPoint(x: real, y: real)

  const InvalidXMessage: string := "Please enter a valid number for X coordinate"
  const XOutOfRangeMessage: string := "X value must be between 0 and 10"
  const InvalidYMessage: string := "Please enter a valid number for Y coordinate"

  /** The smallest and largest x a typed-in point may have. */
  const MinX: real := 0.0
  const MaxX: real := 10.0

  datatype State = State(
    width: real,
    height: real,
    points: seq<Point>,
    lengthscale: real,
    variance: real,
    noiseScale: real,
    sampleCount: real,
    animating: bool,
    animationSpeed: real,
    samples: Option<Matrix>,
    errorMessage: Option<Notice>,
    manualX: string,
    manualY: string,
    selectedFunction: FunctionType,
    useFunctionForY: bool)

  const Initial: State := State(
    800.0, 400.0, [], 1.0, 1.0, 0.1, 5.0, false, 0.5, None, None,
    "5.0", "0.0", NoFunction, false)

  /** The store starts idle: no points, samples or message, no animation,
      positive hyper-parameters, and y typed in rather than read from a
      function; the default x text names the middle of the allowed range. */
  lemma InitialStateIsIdle()
    ensures Initial.points == [] && Initial.samples.None? && Initial.errorMessage.None?
    ensures !Initial.animating && !Initial.useFunctionForY && Initial.selectedFunction == NoFunction
    ensures 0.0 < Initial.lengthscale && 0.0 < Initial.variance && 0.0 < Initial.noiseScale
    ensures Initial.width == 800.0 && Initial.height == 400.0 && Initial.sampleCount == 5.0
    ensures Initial.animationSpeed == 0.5 && Initial.noiseScale == 0.1
    ensures Initial.manualX == "5.0" && Initial.manualY == "0.0"
  {
  }

  /** `addPoint`: the point goes at the end. */
  function AddPoint(points: seq<Point>, p: Point): (r: seq<Point>)
    ensures |r| == |points| + 1
    ensures r[..|points|] == points && r[|points|] == p
  {
    points + [p]
  }

  /** `updatePoint`: assigning to `newPoints[index]`. An index inside the list
      replaces that point, the index just past the end appends, and a negative
      index names no element, so the list is unchanged. An index further past
      the end would leave holes in the array and is excluded. */
  function UpdatePoint(points: seq<Point>, index: int, p: Point): (r: seq<Point>)
    requires index <= |points|
    ensures 0 <= index < |points| ==> |r| == |points| && r[index] == p
    ensures 0 <= index < |points| ==> forall i :: 0 <= i < |points| && i != index ==> r[i] == points[i]
    ensures index == |points| ==> r == AddPoint(points, p)
    ensures index < 0 ==> r == points
  {
    if index < 0 then points
    else if index == |points| then points + [p]
    else points[index := p]
  }

  /** Where `splice(index, 1)` starts: a negative index counts from the end
      and stops at 0; a large one stops at the end. */
  function SpliceStart(n: nat, index: int): (start: nat)
    ensures start <= n
    ensures 0 <= index ==> start == if index < n then index else n
    ensures index < 0 && -index <= n ==> start == n + index
    ensures index < 0 && -index > n ==> start == 0
  {
    if index < 0 then (if n + index < 0 then 0 else n + index)
    else if index < n then index else n
  }

  /** `r` is `points` without the element at k, the others in order. */
  predicate RemovedAt(points: seq<Point>, r: seq<Point>, k: nat)
    requires k < |points|
  {
    && |r| == |points| - 1
    && (forall i :: 0 <= i < k ==> r[i] == points[i])
    && (forall i :: k <= i < |r| ==> r[i] == points[i + 1])
  }

  /** `removePoint`: `splice(index, 1)` on a copy. An index within the list
      removes that point; a negative one removes the point that many places
      from the end, or the first point when it reaches past the start; an
      index at or past the end removes nothing. */
  function RemovePoint(points: seq<Point>, index: int): (r: seq<Point>)
    ensures 0 <= index < |points| ==> RemovedAt(points, r, index)
    ensures index >= |points| ==> r == points
    ensures index < 0 && |points| > 0 ==> RemovedAt(points, r, SpliceStart(|points|, index))
    ensures |points| == 0 ==> r == []
  {
    var start := SpliceStart(|points|, index);
    if start == |points| then points
    else points[..start] + points[start + 1..]
  }

  /** Putting the removed point back where it was restores the list. */
  lemma RemoveThenInsertRestores(points: seq<Point>, index: nat)
    requires index < |points|
    ensures var r := RemovePoint(points, index); r[..index] + [points[index]] + r[index..] == points
  {
    var r := RemovePoint(points, index);
    var back := r[..index] + [points[index]] + r[index..];
    assert |back| == |points|;
    forall i | 0 <= i < |points|
      ensures back[i] == points[i]
    {
      if i > index {
        assert back[i] == r[i - 1];
      }
    }
  }

  /** Adding a point and then removing the last one gives the list back, and
      writing a point's own value over it changes nothing. */
  lemma AddThenRemoveLast(points: seq<Point>, p: Point)
    ensures RemovePoint(AddPoint(points, p), |points|) == points
    ensures RemovePoint(AddPoint(points, p), -1) == points
  {
  }

  lemma UpdateWithSameValueIsIdentity(points: seq<Point>, index: nat)
    requires index < |points|
    ensures UpdatePoint(points, index, points[index]) == points
  {
  }

  /** Every field of the state, for saying which one an action changes. */
  datatype Field =
    | WidthField | HeightField | PointsField | LengthscaleField | VarianceField
    | NoiseScaleField | SampleCountField | AnimatingField | AnimationSpeedField
    | SamplesField | ErrorMessageField | ManualXField | ManualYField
    | SelectedFunctionField | UseFunctionForYField

  /** Every field other than f holds the same value in both states. */
  predicate OnlyChanges(s: State, s': State, f: Field)
  {
    && (f == WidthField || s.width == s'.width)
    && (f == HeightField || s.height == s'.height)
    && (f == PointsField || s.points == s'.points)
    && (f == LengthscaleField || s.lengthscale == s'.lengthscale)
    && (f == VarianceField || s.variance == s'.variance)
    && (f == NoiseScaleField || s.noiseScale == s'.noiseScale)
    && (f == SampleCountField || s.sampleCount == s'.sampleCount)
    && (f == AnimatingField || s.animating == s'.animating)
    && (f == AnimationSpeedField || s.animationSpeed == s'.animationSpeed)
    && (f == SamplesField || s.samples == s'.samples)
    && (f == ErrorMessageField || s.errorMessage == s'.errorMessage)
    && (f == ManualXField || s.manualX == s'.manualX)
    && (f == ManualYField || s.manualY == s'.manualY)
    && (f == SelectedFunctionField || s.selectedFunction == s'.selectedFunction)
    && (f == UseFunctionForYField || s.useFunctionForY == s'.useFunctionForY)
  }

  /** The store's actions other than the point-adding helper. */
  datatype Action =
    | SetWidth(width: real)
    | SetHeight(height: real)
    | SetPoints(points: seq<Point>)
    | AddPointAction(point: Point)
    | UpdatePointAction(index: int, point: Point)
    | RemovePointAction(index: int)
    | ClearPoints
    | SetLengthscale(lengthscale: real)
    | SetVariance(variance: real)
    | SetNoiseScale(noiseScale: real)
    | SetSampleCount(sampleCount: real)
    | SetAnimating(animating: bool)
    | ToggleAnimating
    | SetAnimationSpeed(animationSpeed: real)
    | SetSamples(samples: Option<Matrix>)
    | SetErrorMessage(message: Option<Notice>)
    | SetManualX(manualX: string)
    | SetManualY(manualY: string)
    | SetSelectedFunction(functionType: FunctionType)
    | SetUseFunctionForY(useFunctionForY: bool)

  /** The one field an action writes. */
  function Target(a: Action): Field
  {
    match a
    case SetWidth(_) => WidthField
    case SetHeight(_) => HeightField
    case SetPoints(_) | AddPointAction(_) | UpdatePointAction(_, _) | RemovePointAction(_) | ClearPoints => PointsField
    case SetLengthscale(_) => LengthscaleField
    case SetVariance(_) => VarianceField
    case SetNoiseScale(_) => NoiseScaleField
    case SetSampleCount(_) => SampleCountField
    case SetAnimating(_) | ToggleAnimating => AnimatingField
    case SetAnimationSpeed(_) => AnimationSpeedField
    case SetSamples(_) => SamplesField
    case SetErrorMessage(_) => ErrorMessageField
    case SetManualX(_) => ManualXField
    case SetManualY(_) => ManualYField
    case SetSelectedFunction(_) => SelectedFunctionField
    case SetUseFunctionForY(_) => UseFunctionForYField
  }

  /** The update an action applies. Each action writes its own field and
      leaves every other field as it was; a setter stores its argument. */
  function Apply(s: State, a: Action): (r: State)
    requires a.UpdatePointAction? ==> a.index <= |s.points|
    ensures OnlyChanges(s, r, Target(a))
    ensures a.ToggleAnimating? ==> r.animating != s.animating
    ensures a.SetErrorMessage? ==> r.errorMessage == a.message
  {
    match a
    case SetWidth(width) => s.(width := width)
    case SetHeight(height) => s.(height := height)
    case SetPoints(points) => s.(points := points)
    case AddPointAction(point) => s.(points := AddPoint(s.points, point))
    case UpdatePointAction(index, point) => s.(points := UpdatePoint(s.points, index, point))
    case RemovePointAction(index) => s.(points := RemovePoint(s.points, index))
    case ClearPoints => s.(points := [])
    case SetLengthscale(lengthscale) => s.(lengthscale := lengthscale)
    case SetVariance(variance) => s.(variance := variance)
    case SetNoiseScale(noiseScale) => s.(noiseScale := noiseScale)
    case SetSampleCount(sampleCount) => s.(sampleCount := sampleCount)
    case SetAnimating(animating) => s.(animating := animating)
    case ToggleAnimating => s.(animating := !s.animating)
    case SetAnimationSpeed(animationSpeed) => s.(animationSpeed := animationSpeed)
    case SetSamples(samples) => s.(samples := samples)
    case SetErrorMessage(message) => s.(errorMessage := message)
    case SetManualX(manualX) => s.(manualX := manualX)
    case SetManualY(manualY) => s.(manualY := manualY)
    case SetSelectedFunction(functionType) => s.(selectedFunction := functionType)
    case SetUseFunctionForY(useFunctionForY) => s.(useFunctionForY := useFunctionForY)
  }

  /** The point actions: setting stores the list, clearing empties it, and
      the other three do to the list what `AddPoint`, `UpdatePoint` and
      `RemovePoint` do. */
  lemma ApplyEditsPoints(s: State, a: Action)
    requires a.UpdatePointAction? ==> a.index <= |s.points|
    ensures a.SetPoints? ==> Apply(s, a).points == a.points
    ensures a.ClearPoints? ==> Apply(s, a).points == []
    ensures a.AddPointAction? ==> Apply(s, a).points == AddPoint(s.points, a.point)
    ensures a.UpdatePointAction? ==> Apply(s, a).points == UpdatePoint(s.points, a.index, a.point)
    ensures a.RemovePointAction? ==> Apply(s, a).points == RemovePoint(s.points, a.index)
  {
  }

  /** Every setter leaves its argument in the field it writes. */
  lemma ApplyStoresItsArgument(s: State, a: Action)
    ensures a.SetWidth? ==> Apply(s, a).width == a.width
    ensures a.SetHeight? ==> Apply(s, a).height == a.height
    ensures a.SetLengthscale? ==> Apply(s, a).lengthscale == a.lengthscale
    ensures a.SetVariance? ==> Apply(s, a).variance == a.variance
    ensures a.SetNoiseScale? ==> Apply(s, a).noiseScale == a.noiseScale
    ensures a.SetSampleCount? ==> Apply(s, a).sampleCount == a.sampleCount
    ensures a.SetAnimating? ==> Apply(s, a).animating == a.animating
    ensures a.SetAnimationSpeed? ==> Apply(s, a).animationSpeed == a.animationSpeed
    ensures a.SetSamples? ==> Apply(s, a).samples == a.samples
    ensures a.SetManualX? ==> Apply(s, a).manualX == a.manualX
    ensures a.SetManualY? ==> Apply(s, a).manualY == a.manualY
    ensures a.SetSelectedFunction? ==> Apply(s, a).selectedFunction == a.functionType
    ensures a.SetUseFunctionForY? ==> Apply(s, a).useFunctionForY == a.useFunctionForY
  {
  }

  /** Toggling twice restores the animation flag, and with it the whole state. */
  lemma ToggleTwiceIsIdentity(s: State)
    ensures Apply(Apply(s, ToggleAnimating), ToggleAnimating) == s
  {
  }

  /** `getYValueFromFunction`: the selected target function at x. */
  function YFromFunction(t: Transcendentals, s: State, x: real): (y: real)
    ensures y == Functions(t, s.selectedFunction, x)
    ensures s.selectedFunction == NoFunction ==> y == 0.0
    ensures s.selectedFunction == Quadratic ==> 0.0 <= y
  {
    Functions(t, s.selectedFunction, x)
  }

  /** Whether the y of a new point comes from the selected function rather
      than from the typed-in text. */
  predicate UsesFunction(s: State)
  {
    s.useFunctionForY && s.selectedFunction != NoFunction
  }

  /** `addPointWithFunction`, with `parse` standing for `parseFloat` (`None`
      where it gives NaN). The x text must parse and lie in [0, 10]; y is the
      selected function at x when one is in use, otherwise the y text, which
      must parse. Any failure only sets the matching message; success appends
      exactly the point (x, y) and announces it. */
  function AddPointWithFunction(s: State, parse: string -> Option<real>, t: Transcendentals): (r: State)
    ensures parse(s.manualX).None? ==> r == s.(errorMessage := Some(Text(InvalidXMessage)))
    ensures parse(s.manualX).Some? && !(MinX <= parse(s.manualX).value <= MaxX) ==>
      r == s.(errorMessage := Some(Text(XOutOfRangeMessage)))
    ensures parse(s.manualX).Some? && MinX <= parse(s.manualX).value <= MaxX && !UsesFunction(s) && parse(s.manualY).None? ==>
      r == s.(errorMessage := Some(Text(InvalidYMessage)))
    ensures parse(s.manualX).Some? && MinX <= parse(s.manualX).value <= MaxX && (UsesFunction(s) || parse(s.manualY).Some?) ==>
      var x := parse(s.manualX).value;
      var y := if UsesFunction(s) then Functions(t, s.selectedFunction, x) else parse(s.manualY).value;
      r.points == s.points + [Point(x, y)] && r.errorMessage == Some(AddedPoint(x, y))
    ensures r.points != s.points ==>
      && parse(s.manualX).Some? && MinX <= parse(s.manualX).value <= MaxX
      && var x := parse(s.manualX).value;
         exists y :: r.points == s.points + [Point(x, y)] && r.errorMessage == Some(AddedPoint(x, y))
           && (UsesFunction(s) ==> y == Functions(t, s.selectedFunction, x))
           && (!UsesFunction(s) ==> parse(s.manualY) == Some(y))
    ensures OnlyChanges(s.(points := r.points), r, ErrorMessageField)
  {
    match parse(s.manualX)
    case None => s.(errorMessage := Some(Text(InvalidXMessage)))
    case Some(x) =>
      if x < MinX || x > MaxX then s.(errorMessage := Some(Text(XOutOfRangeMessage)))
      else
        var y := if UsesFunction(s) then Some(YFromFunction(t, s, x)) else parse(s.manualY);
        match y
        case None => s.(errorMessage := Some(Text(InvalidYMessage)))
        case Some(y) =>
          var added := Apply(s, AddPointAction(Point(x, y)));
          Apply(added, SetErrorMessage(Some(AddedPoint(x, y))))
  }

  /** Every point the helper adds has its x in [0, 10]. */
  lemma AddedPointsStayInRange(s: State, parse: string -> Option<real>, t: Transcendentals)
    requires forall p :: p in s.points ==> MinX <= p.x <= MaxX
    ensures forall p :: p in AddPointWithFunction(s, parse, t).points ==> MinX <= p.x <= MaxX
  {
    var r := AddPointWithFunction(s, parse, t);
    if r.points != s.points {
      var x := parse(s.manualX).value;
      var y :| r.points == s.points + [Point(x, y)];
      forall p | p in r.points
        ensures MinX <= p.x <= MaxX
      {
        if p !in s.points {
          assert p == Point(x, y);
        }
      }
    }
  }

  /** From the initial state, with the default texts "5.0" and "0.0" read as
      5 and 0 and no function selected, the helper adds the point (5, 0). */
  lemma FirstPointFromDefaults(parse: string -> Option<real>, t: Transcendentals)
    requires parse("5.0") == Some(5.0) && parse("0.0") == Some(0.0)
    ensures AddPointWithFunction(Initial, parse, t).points == [Point(5.0, 0.0)]
    ensures AddPointWithFunction(Initial, parse, t).errorMessage == Some(AddedPoint(5.0, 0.0))
  {
  }
}
