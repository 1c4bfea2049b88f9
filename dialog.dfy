/** The seven line shapes of a glider's surface dialog that the scanner recognises, and
    the first-match-wins classification of one stripped line. */
module Dialog {
  import opened Wrappers
  import opened Lexing

  /** `Vehicle Name:\s(\w+)` */
  const VehicleNamePattern: seq<Piece> :=
    [Skip(Lit("Vehicle Name:")), Skip(One(Space)), Group([Many(WordChar)])]

  /** `Curr Time:\s+\w+\s+(\w+\s+\d+\s+\d+:\d+:\d+\s+\d+)\s+MT:\s+\d+` */
  const CurrTimePattern: seq<Piece> :=
    [Skip(Lit("Curr Time:")), Skip(Many(Space)), Skip(Many(WordChar)), Skip(Many(Space)),
     Group([Many(WordChar), Many(Space), Many(Digit), Many(Space), Many(Digit), Lit(":"),
            Many(Digit), Lit(":"), Many(Digit), Many(Space), Many(Digit)]),
     Skip(Many(Space)), Skip(Lit("MT:")), Skip(Many(Space)), Skip(Many(Digit))]

  /** `GPS Location:\s+([+-]?\d+[.]\d+)\s+[NS]\s+([+-]?\d+[.]\d+)\s+[EW]\s+measured\s+(\d+[.]\d+)\s+secs ago` */
  const GpsPattern: seq<Piece> :=
    [Skip(Lit("GPS Location:")), Skip(Many(Space)), Decimal(true), Skip(Many(Space)),
     Skip(OneOf("NS")), Skip(Many(Space)), Decimal(true), Skip(Many(Space)),
     Skip(OneOf("EW")), Skip(Many(Space)), Skip(Lit("measured")), Skip(Many(Space)),
     Decimal(false), Skip(Many(Space)), Skip(Lit("secs ago"))]

  /** `sensor:m_final_water_vx[(]m/s[)]=([+-]?\d+[.]\d+)\s+(\d+[.]\d+)\s+secs ago` */
  const WaterVXPattern: seq<Piece> :=
    [Skip(Lit("sensor:m_final_water_vx(m/s)=")), Decimal(true), Skip(Many(Space)),
     Decimal(false), Skip(Many(Space)), Skip(Lit("secs ago"))]

  /** `sensor:m_final_water_vy[(]m/s[)]=([+-]?\d+[.]\d+)\s+(\d+[.]\d+)\s+secs ago` */
  const WaterVYPattern: seq<Piece> :=
    [Skip(Lit("sensor:m_final_water_vy(m/s)=")), Decimal(true), Skip(Many(Space)),
     Decimal(false), Skip(Many(Space)), Skip(Lit("secs ago"))]

  /** `m_avg_speed[(]m/s[)]\s+([+-]?\d+[.]\d+)` */
  const AvgSpeedPattern: seq<Piece> :=
    [Skip(Lit("m_avg_speed(m/s)")), Skip(Many(Space)), Decimal(true)]

  const CompleteLine: string := "Water Velocity Calculations COMPLETE"

  /** `Water Velocity Calculations COMPLETE` */
  const CompletePattern: seq<Piece> := [Skip(Lit(CompleteLine))]

  /** What one dialog line says, with every captured decimal already converted. */
  datatype Token =
    | VehicleName(name: string)
    | CurrTime(date: string)
    | Gps(lat: real, lon: real, age: real)
    | WaterVX(vx: real, age: real)
    | WaterVY(vy: real, age: real)
    | AvgSpeed(speed: real)
    | Complete
    | NoMatch

  // What each pattern captures, in order.

  lemma VehicleNameKinds() ensures Kinds(VehicleNamePattern) == [TextKind] {}

  lemma CurrTimeKinds() ensures Kinds(CurrTimePattern) == [TextKind] {}

  lemma GpsKinds() ensures Kinds(GpsPattern) == [SignedKind, SignedKind, UnsignedKind]
  {
    assert |GpsPattern| == 15;
    assert Kinds(GpsPattern[14..]) == [];
  }

  lemma WaterVXKinds() ensures Kinds(WaterVXPattern) == [SignedKind, UnsignedKind] {}

  lemma WaterVYKinds() ensures Kinds(WaterVYPattern) == [SignedKind, UnsignedKind] {}

  lemma AvgSpeedKinds() ensures Kinds(AvgSpeedPattern) == [SignedKind] {}

  lemma FitsThree(c: seq<Capture>, k0: Kind, k1: Kind, k2: Kind)
    requires Fits(c, [k0, k1, k2])
    ensures |c| == 3 && FitsKind(c[0], k0) && FitsKind(c[1], k1) && FitsKind(c[2], k2)
  {
  }

  /** The seven line shapes, one per pattern. */
  datatype Shape =
    | VehicleNameShape | CurrTimeShape | GpsShape | WaterVXShape | WaterVYShape
    | AvgSpeedShape | CompleteShape

  /** The pattern of each shape. */
  function PatternOf(shape: Shape): seq<Piece>
  {
    match shape
    case VehicleNameShape => VehicleNamePattern
    case CurrTimeShape => CurrTimePattern
    case GpsShape => GpsPattern
    case WaterVXShape => WaterVXPattern
    case WaterVYShape => WaterVYPattern
    case AvgSpeedShape => AvgSpeedPattern
    case CompleteShape => CompletePattern
  }

  /** What the pattern of each shape captures, in order. */
  function ShapeKinds(shape: Shape): seq<Kind>
  {
    match shape
    case VehicleNameShape => [TextKind]
    case CurrTimeShape => [TextKind]
    case GpsShape => [SignedKind, SignedKind, UnsignedKind]
    case WaterVXShape => [SignedKind, UnsignedKind]
    case WaterVYShape => [SignedKind, UnsignedKind]
    case AvgSpeedShape => [SignedKind]
    case CompleteShape => []
  }

  lemma PatternKinds(shape: Shape)
    ensures Kinds(PatternOf(shape)) == ShapeKinds(shape)
  {
    match shape
    case VehicleNameShape => VehicleNameKinds();
    case CurrTimeShape => CurrTimeKinds();
    case GpsShape => GpsKinds();
    case WaterVXShape => WaterVXKinds();
    case WaterVYShape => WaterVYKinds();
    case AvgSpeedShape => AvgSpeedKinds();
    case CompleteShape =>
  }

  /** The token a line of shape `shape` carries, given the pattern's captures: the text
      groups as they are, the numeric groups through float(). */
  function TokenOf(shape: Shape, c: seq<Capture>): (t: Token)
    requires Fits(c, ShapeKinds(shape))
    ensures t != NoMatch
    ensures t.Complete? ==> shape == CompleteShape
    ensures (t.Gps? || t.WaterVX? || t.WaterVY?) ==> t.age >= 0.0
  {
    match shape
    case VehicleNameShape => VehicleName(c[0].text)
    case CurrTimeShape => CurrTime(c[0].text)
    case GpsShape =>
      FitsThree(c, SignedKind, SignedKind, UnsignedKind);
      Gps(c[0].value, c[1].value, c[2].value)
    case WaterVXShape => WaterVX(c[0].value, c[1].value)
    case WaterVYShape => WaterVY(c[0].value, c[1].value)
    case AvgSpeedShape => AvgSpeed(c[0].value)
    case CompleteShape => Complete
  }

  /** `fullmatch` of the shape's pattern against the line, and the token it yields. */
  function Recognise(shape: Shape, line: string): (r: Option<Token>)
    ensures r.Some? ==> r.value != NoMatch
    ensures r.Some? && r.value.Complete? ==> shape == CompleteShape
    ensures r.Some? && (r.value.Gps? || r.value.WaterVX? || r.value.WaterVY?) ==>
              r.value.age >= 0.0
  {
    MatchKinds(PatternOf(shape), line, 0);
    match FullMatch(PatternOf(shape), line)
    case Some(c) => PatternKinds(shape); Some(TokenOf(shape, c))
    case None => None
  }

  /** The order in which the scanner tries the patterns. */
  const ScanOrder: seq<Shape> :=
    [VehicleNameShape, CurrTimeShape, GpsShape, WaterVXShape, WaterVYShape, AvgSpeedShape,
     CompleteShape]

  /** The token of the first shape in `shapes` that the line has, or NoMatch. */
  function FirstMatch(shapes: seq<Shape>, line: string): (t: Token)
    ensures (t.Gps? || t.WaterVX? || t.WaterVY?) ==> t.age >= 0.0
    ensures t == NoMatch <==> forall k :: 0 <= k < |shapes| ==> Recognise(shapes[k], line).None?
    ensures t != NoMatch ==> exists k :: 0 <= k < |shapes| && Recognise(shapes[k], line) == Some(t)
  {
    if shapes == [] then NoMatch
    else
      match Recognise(shapes[0], line)
      case Some(t) => t
      case None =>
        assert forall k :: 1 <= k < |shapes| ==> shapes[k] == shapes[1..][k - 1];
        var t := FirstMatch(shapes[1..], line);
        assert t != NoMatch ==> exists k :: 1 <= k < |shapes| && Recognise(shapes[k], line) == Some(t);
        t
  }

  /** First match wins: when shape `k` is the first of `shapes` the line has, the line's
      token is the one shape `k` gives. */
  lemma {:induction false} FirstMatchAt(shapes: seq<Shape>, line: string, k: nat)
    requires k < |shapes| && Recognise(shapes[k], line).Some?
    requires forall i :: 0 <= i < k ==> Recognise(shapes[i], line).None?
    ensures FirstMatch(shapes, line) == Recognise(shapes[k], line).value
  {
    if k > 0 {
      assert shapes[1..][k - 1] == shapes[k];
      assert forall i :: 0 <= i < k - 1 ==> shapes[1..][i] == shapes[i + 1];
      FirstMatchAt(shapes[1..], line, k - 1);
    }
  }

  /** What one stripped line says: the first pattern, in scan order, that matches the whole
      line decides. */
  function Classify(line: string): (t: Token)
    ensures (t.Gps? || t.WaterVX? || t.WaterVY?) ==> t.age >= 0.0
  {
    FirstMatch(ScanOrder, line)
  }

  /** A line is the completion marker exactly when it is the literal completion text. */
  lemma CompleteIff(line: string)
    ensures Classify(line) == Complete <==> line == CompleteLine
  {
    if line == CompleteLine {
      CompleteLineIsComplete();
    }
    if Classify(line) == Complete {
      CompleteIsCompleteLine(line);
    }
  }

  /** A line that differs from a shape's leading literal at position `k` is not of that
      shape. */
  lemma NotShapeByLead(shape: Shape, line: string, t: string, k: nat)
    requires PatternOf(shape) != [] && PatternOf(shape)[0] == Skip(Lit(t))
    requires k < |t| && (k >= |line| || line[k] != t[k])
    ensures Recognise(shape, line) == None
  {
    LeadingLitMismatch(PatternOf(shape), line, t, k);
  }

  lemma CompleteLineIsComplete()
    ensures Classify(CompleteLine) == Complete
  {
    CompleteLineMissesEarlier();
    SingleLitMatch(CompleteLine, CompleteLine);
    assert Recognise(CompleteShape, CompleteLine) == Some(Complete);
    FirstMatchAt(ScanOrder, CompleteLine, 6);
  }

  lemma CompleteLineMissesEarlier()
    ensures forall i :: 0 <= i < 6 ==> Recognise(ScanOrder[i], CompleteLine).None?
  {
    NotShapeByLead(VehicleNameShape, CompleteLine, "Vehicle Name:", 0);
    NotShapeByLead(CurrTimeShape, CompleteLine, "Curr Time:", 0);
    NotShapeByLead(GpsShape, CompleteLine, "GPS Location:", 0);
    NotShapeByLead(WaterVXShape, CompleteLine, "sensor:m_final_water_vx(m/s)=", 0);
    NotShapeByLead(WaterVYShape, CompleteLine, "sensor:m_final_water_vy(m/s)=", 0);
    NotShapeByLead(AvgSpeedShape, CompleteLine, "m_avg_speed(m/s)", 0);
    EarlierShapes(CompleteLine);
  }

  /** The first six shapes of the scan order all miss a line that each of them misses. */
  lemma EarlierShapes(line: string)
    requires Recognise(VehicleNameShape, line).None? && Recognise(CurrTimeShape, line).None?
    requires Recognise(GpsShape, line).None? && Recognise(WaterVXShape, line).None?
    requires Recognise(WaterVYShape, line).None? && Recognise(AvgSpeedShape, line).None?
    ensures forall i :: 0 <= i < 6 ==> Recognise(ScanOrder[i], line).None?
  {
    forall i | 0 <= i < 6 ensures Recognise(ScanOrder[i], line).None? {
      var shape := ScanOrder[i];
      assert shape != CompleteShape;
    }
  }

  lemma CompleteIsCompleteLine(line: string)
    requires Classify(line) == Complete
    ensures line == CompleteLine
  {
    var k :| 0 <= k < |ScanOrder| && Recognise(ScanOrder[k], line) == Some(Complete);
    assert FullMatch(CompletePattern, line).Some?;
    SingleLitMatch(line, CompleteLine);
  }
}
