/** Lines as the glider writes them, with a single blank wherever a pattern allows a run of
    whitespace, are recognised with the values they spell out: for each shape, a line built
    from its parts is classified as that shape and the token carries exactly those parts. */
module Recognition {
  import opened Wrappers
  import opened Lexing
  import opened Dialog

  // ---------------------------------------------------------------------------------------
  // Vehicle Name:\s(\w+)
  // ---------------------------------------------------------------------------------------

  lemma VehicleNameMatch(w: string)
    requires w != [] && AllWordChars(w)
    ensures FullMatch(VehicleNamePattern, "Vehicle Name: " + w) == Some([Text(w)])
  {
    var line := "Vehicle Name: " + w;
    var ps := VehicleNamePattern;
    assert line[0..] == line;
    LitThen(ps, line, 0, "Vehicle Name:", " " + w);
    NameTail(ps[1..], line, 13, w);
  }

  /** `\s(\w+)` at the end of a line. */
  lemma NameTail(ps: seq<Piece>, s: string, i: nat, w: string)
    requires ps == [Skip(One(Space)), Group([Many(WordChar)])]
    requires w != [] && AllWordChars(w) && i <= |s| && s[i..] == " " + w
    ensures MatchFrom(ps, s, i) == Some([Text(w)])
  {
    assert s[i] == ' ' && s[i + 1] == w[0] && s[i + 1..] == w;
    ScanSpaceAt(s, i);
    assert s[i + 1..i + 1 + |w|] == w;
    ScanWordAt(s, i + 1, w);
    var word := Group([Many(WordChar)]);
    assert ps[1..] == [word] && [word][1..] == [];
    assert MatchFrom([], s, i + 1 + |w|) == Some([]);
    MatchStep([word], s, i + 1, i + 1 + |w|, [Text(w)], []);
    assert [Text(w)] + [] == [Text(w)] == [] + [Text(w)];
    MatchStep(ps, s, i, i + 1, [], [Text(w)]);
  }

  /** `Vehicle Name: <word>` names the vehicle. */
  lemma ClassifyVehicleName(w: string)
    requires w != [] && AllWordChars(w)
    ensures Classify("Vehicle Name: " + w) == VehicleName(w)
  {
    VehicleNameMatch(w);
    assert Recognise(VehicleNameShape, "Vehicle Name: " + w) == Some(VehicleName(w));
    FirstMatchAt(ScanOrder, "Vehicle Name: " + w, 0);
  }

  // ---------------------------------------------------------------------------------------
  // m_avg_speed[(]m/s[)]\s+([+-]?\d+[.]\d+)
  // ---------------------------------------------------------------------------------------

  /** `\s+([+-]?\d+[.]\d+)` at the end of a line. */
  lemma SignedTail(ps: seq<Piece>, s: string, i: nat, n: Numeral)
    requires ps == [Skip(Many(Space)), Decimal(true)] && n.Valid()
    requires i <= |s| && s[i..] == " " + n.Text()
    ensures MatchFrom(ps, s, i) == Some([Number(n.Value())])
  {
    NumeralEdges(n);
    SpaceThen(ps, s, i, n.Text());
    assert n.Text() + [] == n.Text();
    NumberAt(ps[1], s, i + 1, n, []);
    assert ps[1..][1..] == [];
    EndThen(s);
    MatchStep(ps[1..], s, i + 1, |s|, [Number(n.Value())], []);
    assert [Number(n.Value())] + [] == [Number(n.Value())];
  }

  lemma AvgSpeedMatch(n: Numeral)
    requires n.Valid()
    ensures FullMatch(AvgSpeedPattern, "m_avg_speed(m/s) " + n.Text()) ==
              Some([Number(n.Value())])
  {
    var line := "m_avg_speed(m/s) " + n.Text();
    assert line == "m_avg_speed(m/s)" + (" " + n.Text());
    LitThen(AvgSpeedPattern, line, 0, "m_avg_speed(m/s)", " " + n.Text());
    SignedTail(AvgSpeedPattern[1..], line, 16, n);
  }

  /** `m_avg_speed(m/s) <numeral>` reports the average speed the numeral spells. */
  lemma ClassifyAvgSpeed(n: Numeral)
    requires n.Valid()
    ensures Classify("m_avg_speed(m/s) " + n.Text()) == AvgSpeed(n.Value())
  {
    var line := "m_avg_speed(m/s) " + n.Text();
    AvgSpeedMatch(n);
    assert Recognise(AvgSpeedShape, line) == Some(AvgSpeed(n.Value()));
    MissesBeforeAvgSpeed(line);
    FirstMatchAt(ScanOrder, line, 5);
  }

  lemma MissesBeforeAvgSpeed(line: string)
    requires |line| > 0 && line[0] == 'm'
    ensures forall i :: 0 <= i < 5 ==> Recognise(ScanOrder[i], line).None?
  {
    NotShapeByLead(VehicleNameShape, line, "Vehicle Name:", 0);
    NotShapeByLead(CurrTimeShape, line, "Curr Time:", 0);
    NotShapeByLead(GpsShape, line, "GPS Location:", 0);
    NotShapeByLead(WaterVXShape, line, "sensor:m_final_water_vx(m/s)=", 0);
    NotShapeByLead(WaterVYShape, line, "sensor:m_final_water_vy(m/s)=", 0);
    forall i | 0 <= i < 5 ensures Recognise(ScanOrder[i], line).None? {
      var shape := ScanOrder[i];
      assert shape != AvgSpeedShape && shape != CompleteShape;
    }
  }

  // ---------------------------------------------------------------------------------------
  // sensor:m_final_water_v{x,y}[(]m/s[)]=([+-]?\d+[.]\d+)\s+(\d+[.]\d+)\s+secs ago
  // ---------------------------------------------------------------------------------------

  /** `\s+secs ago` at the end of a line. */
  lemma SecsAgoTail(ps: seq<Piece>, s: string, i: nat)
    requires ps == [Skip(Many(Space)), Skip(Lit("secs ago"))]
    requires i <= |s| && s[i..] == " secs ago"
    ensures MatchFrom(ps, s, i) == Some([])
  {
    assert "secs ago" == "secs ago" + [];
    SpaceThen(ps, s, i, "secs ago");
    LitThen(ps[1..], s, i + 1, "secs ago", []);
    assert ps[1..][1..] == [];
    EndThen(s);
  }

  /** `(\d+[.]\d+)\s+secs ago` at the end of a line, where the decimal captures `age`. */
  lemma AgeChain(ps: seq<Piece>, s: string, i: nat, j: nat, age: real)
    requires ps == [Decimal(false), Skip(Many(Space)), Skip(Lit("secs ago"))]
    requires i <= j <= |s| && ScanPiece(Decimal(false), s, i) == Some((j, [Number(age)]))
    requires s[j..] == " secs ago"
    ensures MatchFrom(ps, s, i) == Some([Number(age)])
  {
    SecsAgoTail(ps[1..], s, j);
    MatchStep(ps, s, i, j, [Number(age)], []);
    assert [Number(age)] + [] == [Number(age)];
  }

  /** The pieces of `([+-]?\d+[.]\d+)\s+(\d+[.]\d+)\s+secs ago`. */
  const VelocityTailPattern: seq<Piece> :=
    [Decimal(true), Skip(Many(Space)), Decimal(false), Skip(Many(Space)), Skip(Lit("secs ago"))]

  /** The velocity pattern matches at the end of a line, where its decimals capture `v` and
      `age`. */
  lemma VelocityChain(ps: seq<Piece>, s: string, i: nat, j: nat, k: nat, v: real, age: real)
    requires ps == VelocityTailPattern
    requires i <= j < k <= |s|
    requires ScanPiece(ps[0], s, i) == Some((j, [Number(v)]))
    requires ScanPiece(ps[1], s, j) == Some((j + 1, []))
    requires ScanPiece(ps[2], s, j + 1) == Some((k, [Number(age)]))
    requires s[k..] == " secs ago"
    ensures MatchFrom(ps, s, i) == Some([Number(v), Number(age)])
  {
    AgeChain(ps[1..][1..], s, j + 1, k, age);
    MatchStep(ps[1..], s, j, j + 1, [], [Number(age)]);
    assert [] + [Number(age)] == [Number(age)];
    MatchStep(ps, s, i, j, [Number(v)], [Number(age)]);
    assert [Number(v)] + [Number(age)] == [Number(v), Number(age)];
  }

  /** Where a signed decimal and the blank after it end, in `<v> <rest>`. */
  lemma SignedThenBlank(ps: seq<Piece>, s: string, i: nat, v: Numeral, y: string)
    returns (j: nat)
    requires |ps| >= 2 && ps[0] == Decimal(true) && ps[1] == Skip(Many(Space)) && v.Valid()
    requires i <= |s| && s[i..] == v.Text() + (" " + y) && y != [] && !IsSpace(y[0])
    ensures i <= j && j + 1 <= |s| && s[j + 1..] == y
    ensures ScanPiece(ps[0], s, i) == Some((j, [Number(v.Value())]))
    ensures ScanPiece(ps[1], s, j) == Some((j + 1, []))
  {
    j := i + |v.Text()|;
    NumberAt(ps[0], s, i, v, " " + y);
    assert ScanPiece(ps[0], s, i) == Some((j, [Number(v.Value())]));
    SuffixSplit(s, j, " ", y);
    assert s[j] == ' ' && s[j + 1] == y[0];
    ScanSpaceAt(s, j);
  }

  /** Where the unsigned age decimal ends, in `<age> secs ago`. */
  lemma AgePiece(p: Piece, s: string, i: nat, a: Numeral) returns (k: nat)
    requires p == Decimal(false) && a.Valid() && a.sign == ""
    requires i <= |s| && s[i..] == a.Text() + " secs ago"
    ensures i < k <= |s| && s[k..] == " secs ago"
    ensures ScanPiece(p, s, i) == Some((k, [Number(a.Value())]))
  {
    k := i + |a.Text()|;
    NumberAt(p, s, i, a, " secs ago");
  }

  /** `([+-]?\d+[.]\d+)\s+(\d+[.]\d+)\s+secs ago` at the end of a line: a velocity and the
      age of its reading. */
  lemma VelocityTail(ps: seq<Piece>, s: string, i: nat, v: Numeral, a: Numeral)
    requires ps == VelocityTailPattern
    requires v.Valid() && a.Valid() && a.sign == ""
    requires i <= |s| && s[i..] == v.Text() + (" " + (a.Text() + " secs ago"))
    ensures MatchFrom(ps, s, i) == Some([Number(v.Value()), Number(a.Value())])
  {
    NumeralEdges(a);
    assert (a.Text() + " secs ago")[0] == a.Text()[0];
    var j := SignedThenBlank(ps, s, i, v, a.Text() + " secs ago");
    var k := AgePiece(ps[2], s, j + 1, a);
    VelocityChain(ps, s, i, j, k, v.Value(), a.Value());
  }

  /** The line a water-velocity pattern with leading literal `p` matches. */
  function VelocityLine(p: string, v: Numeral, a: Numeral): string
  {
    p + v.Text() + " " + a.Text() + " secs ago"
  }

  lemma VelocityMatch(ps: seq<Piece>, p: string, v: Numeral, a: Numeral)
    requires ps == [Skip(Lit(p)), Decimal(true), Skip(Many(Space)), Decimal(false),
                    Skip(Many(Space)), Skip(Lit("secs ago"))]
    requires v.Valid() && a.Valid() && a.sign == ""
    ensures FullMatch(ps, VelocityLine(p, v, a)) ==
              Some([Number(v.Value()), Number(a.Value())])
  {
    var line := VelocityLine(p, v, a);
    var y := v.Text() + (" " + (a.Text() + " secs ago"));
    assert line == p + y;
    LitThen(ps, line, 0, p, y);
    VelocityTail(ps[1..], line, |p|, v, a);
  }

  /** The lines that are not of a water-velocity shape because they do not start with
      `V`, `C` or `G`. */
  lemma MissesFirstThree(line: string)
    requires |line| > 0 && line[0] != 'V' && line[0] != 'C' && line[0] != 'G'
    ensures Recognise(VehicleNameShape, line).None? && Recognise(CurrTimeShape, line).None?
    ensures Recognise(GpsShape, line).None?
  {
    NotShapeByLead(VehicleNameShape, line, "Vehicle Name:", 0);
    NotShapeByLead(CurrTimeShape, line, "Curr Time:", 0);
    NotShapeByLead(GpsShape, line, "GPS Location:", 0);
  }

  const WaterVXLead: string := "sensor:m_final_water_vx(m/s)="
  const WaterVYLead: string := "sensor:m_final_water_vy(m/s)="

  /** `sensor:m_final_water_vx(m/s)=<numeral> <age> secs ago` reports the eastward water
      velocity and the age of its reading. */
  lemma ClassifyWaterVX(v: Numeral, a: Numeral)
    requires v.Valid() && a.Valid() && a.sign == ""
    ensures Classify(VelocityLine(WaterVXLead, v, a)) == WaterVX(v.Value(), a.Value())
  {
    var line := VelocityLine(WaterVXLead, v, a);
    VelocityMatch(WaterVXPattern, WaterVXLead, v, a);
    assert Recognise(WaterVXShape, line) == Some(WaterVX(v.Value(), a.Value()));
    assert line[0] == 's';
    MissesBeforeWaterVX(line);
    FirstMatchAt(ScanOrder, line, 3);
  }

  /** A line that starts with `s` is of none of the three shapes tried before the eastward
      velocity. */
  lemma MissesBeforeWaterVX(line: string)
    requires |line| > 0 && line[0] == 's'
    ensures forall i :: 0 <= i < 3 ==> Recognise(ScanOrder[i], line).None?
  {
    MissesFirstThree(line);
    forall i | 0 <= i < 3 ensures Recognise(ScanOrder[i], line).None? {
      var shape := ScanOrder[i];
      assert shape != WaterVXShape && shape != WaterVYShape && shape != AvgSpeedShape;
      assert shape != CompleteShape;
    }
  }

  /** `sensor:m_final_water_vy(m/s)=<numeral> <age> secs ago` reports the northward water
      velocity and the age of its reading. */
  lemma ClassifyWaterVY(v: Numeral, a: Numeral)
    requires v.Valid() && a.Valid() && a.sign == ""
    ensures Classify(VelocityLine(WaterVYLead, v, a)) == WaterVY(v.Value(), a.Value())
  {
    var line := VelocityLine(WaterVYLead, v, a);
    VelocityMatch(WaterVYPattern, WaterVYLead, v, a);
    assert Recognise(WaterVYShape, line) == Some(WaterVY(v.Value(), a.Value()));
    assert line[..|WaterVYLead|] == WaterVYLead;
    MissesBeforeWaterVY(line);
    FirstMatchAt(ScanOrder, line, 4);
  }

  /** A line that starts with the northward lead is of none of the four shapes tried
      before it. */
  lemma MissesBeforeWaterVY(line: string)
    requires |line| > |WaterVYLead| && line[..|WaterVYLead|] == WaterVYLead
    ensures forall i :: 0 <= i < 4 ==> Recognise(ScanOrder[i], line).None?
  {
    assert line[0] == line[..|WaterVYLead|][0] == 's';
    assert line[22] == line[..|WaterVYLead|][22] == 'y';
    MissesFirstThree(line);
    NotShapeByLead(WaterVXShape, line, WaterVXLead, 22);
    forall i | 0 <= i < 4 ensures Recognise(ScanOrder[i], line).None? {
      var shape := ScanOrder[i];
      assert shape != WaterVYShape && shape != AvgSpeedShape && shape != CompleteShape;
    }
  }

  // ---------------------------------------------------------------------------------------
  // GPS Location:\s+([+-]?\d+[.]\d+)\s+[NS]\s+([+-]?\d+[.]\d+)\s+[EW]\s+measured\s+(\d+[.]\d+)\s+secs ago
  // ---------------------------------------------------------------------------------------

  /** `(\d+[.]\d+)\s+secs ago` at the end of a line: the age of the reading. */
  lemma AgeTail(ps: seq<Piece>, s: string, i: nat, a: Numeral)
    requires ps == [Decimal(false), Skip(Many(Space)), Skip(Lit("secs ago"))]
    requires a.Valid() && a.sign == ""
    requires i <= |s| && s[i..] == a.Text() + " secs ago"
    ensures MatchFrom(ps, s, i) == Some([Number(a.Value())])
  {
    var k := AgePiece(ps[0], s, i, a);
    AgeChain(ps, s, i, k, a.Value());
  }

  /** The line the GPS pattern matches: `GPS Location: <lat> <N|S> <lon> <E|W> measured
      <age> secs ago`. */
  function GpsLine(lat: Numeral, ns: char, lon: Numeral, ew: char, age: Numeral): string
  {
    "GPS Location:" + (" " + (lat.Text() + (" " + ([ns] + (" " + GpsLonPart(lon, ew, age))))))
  }

  /** The pieces of `measured\s+(\d+[.]\d+)\s+secs ago`. */
  const MeasuredPattern: seq<Piece> :=
    [Skip(Lit("measured")), Skip(Many(Space)), Decimal(false), Skip(Many(Space)),
     Skip(Lit("secs ago"))]

  /** `measured <age> secs ago` at the end of a line. */
  lemma MeasuredTail(ps: seq<Piece>, s: string, i: nat, age: Numeral)
    requires ps == MeasuredPattern && age.Valid() && age.sign == ""
    requires i <= |s| && s[i..] == "measured" + (" " + (age.Text() + " secs ago"))
    ensures MatchFrom(ps, s, i) == Some([Number(age.Value())])
  {
    var tAge := age.Text() + " secs ago";
    NumeralEdges(age);
    assert tAge[0] == age.Text()[0];
    LitThen(ps, s, i, "measured", " " + tAge);
    SpaceThen(ps[1..], s, i + 8, tAge);
    assert ps[1..][1..] == [Decimal(false), Skip(Many(Space)), Skip(Lit("secs ago"))];
    AgeTail(ps[1..][1..], s, i + 9, age);
  }

  /** The pieces of `[EW]\s+measured\s+(\d+[.]\d+)\s+secs ago`. */
  const EastWestPattern: seq<Piece> := [Skip(OneOf("EW")), Skip(Many(Space))] + MeasuredPattern

  /** `<E|W> measured <age> secs ago` at the end of a line. */
  lemma EastWestTail(ps: seq<Piece>, s: string, i: nat, ew: char, age: Numeral)
    requires ps == EastWestPattern && age.Valid() && age.sign == "" && (ew == 'E' || ew == 'W')
    requires i <= |s| && s[i..] == [ew] + (" " + ("measured" + (" " + (age.Text() + " secs ago"))))
    ensures MatchFrom(ps, s, i) == Some([Number(age.Value())])
  {
    var tMeasured := "measured" + (" " + (age.Text() + " secs ago"));
    assert tMeasured[0] == 'm';
    assert ew in "EW";
    OneOfThen(ps, s, i, ew, "EW", " " + tMeasured);
    SpaceThen(ps[1..], s, i + 1, tMeasured);
    assert ps[1..][1..] == MeasuredPattern;
    MeasuredTail(ps[1..][1..], s, i + 2, age);
  }

  /** The part of a GPS line from the longitude on. */
  function GpsLonPart(lon: Numeral, ew: char, age: Numeral): string
  {
    lon.Text() + (" " + ([ew] + (" " + ("measured" + (" " + (age.Text() + " secs ago"))))))
  }

  /** The pieces of the GPS pattern from the longitude on. */
  const LongitudePattern: seq<Piece> := [Decimal(true), Skip(Many(Space))] + EastWestPattern

  /** `<lon> <E|W> measured <age> secs ago` at the end of a line. */
  lemma LongitudeTail(ps: seq<Piece>, s: string, i: nat, lon: Numeral, ew: char, age: Numeral)
    requires ps == LongitudePattern
    requires lon.Valid() && age.Valid() && age.sign == "" && (ew == 'E' || ew == 'W')
    requires i <= |s| && s[i..] == GpsLonPart(lon, ew, age)
    ensures MatchFrom(ps, s, i) == Some([Number(lon.Value()), Number(age.Value())])
  {
    var tEW := [ew] + (" " + ("measured" + (" " + (age.Text() + " secs ago"))));
    assert tEW[0] == ew;
    var j := SignedThenBlank(ps, s, i, lon, tEW);
    AfterLongitude(ps, s, i, j, lon.Value(), ew, age);
  }

  /** The rest of `LongitudeTail`, once the longitude and the blank after it are scanned. */
  lemma AfterLongitude(ps: seq<Piece>, s: string, i: nat, j: nat, lon: real, ew: char, age: Numeral)
    requires ps == LongitudePattern && age.Valid() && age.sign == "" && (ew == 'E' || ew == 'W')
    requires i <= j && j + 1 <= |s|
    requires ScanPiece(ps[0], s, i) == Some((j, [Number(lon)]))
    requires ScanPiece(ps[1], s, j) == Some((j + 1, []))
    requires s[j + 1..] == [ew] + (" " + ("measured" + (" " + (age.Text() + " secs ago"))))
    ensures MatchFrom(ps, s, i) == Some([Number(lon), Number(age.Value())])
  {
    assert ps[2..] == EastWestPattern;
    EastWestTail(ps[2..], s, j + 1, ew, age);
    TwoSteps(ps, s, i, j, [Number(lon)], [Number(age.Value())]);
    assert [Number(lon)] + [Number(age.Value())] == [Number(lon), Number(age.Value())];
  }

  /** The pieces of the GPS pattern from `[NS]` on. */
  const NorthSouthPattern: seq<Piece> := [Skip(OneOf("NS")), Skip(Many(Space))] + LongitudePattern

  /** `<N|S> <lon> <E|W> measured <age> secs ago` at the end of a line. */
  lemma NorthSouthTail(ps: seq<Piece>, s: string, i: nat, ns: char, lon: Numeral, ew: char,
                       age: Numeral)
    requires ps == NorthSouthPattern
    requires lon.Valid() && age.Valid() && age.sign == ""
    requires (ns == 'N' || ns == 'S') && (ew == 'E' || ew == 'W')
    requires i <= |s| && s[i..] == [ns] + (" " + GpsLonPart(lon, ew, age))
    ensures MatchFrom(ps, s, i) == Some([Number(lon.Value()), Number(age.Value())])
  {
    var tLon := GpsLonPart(lon, ew, age);
    NumeralEdges(lon);
    assert tLon[0] == lon.Text()[0];
    assert ns in "NS";
    OneOfThen(ps, s, i, ns, "NS", " " + tLon);
    SpaceThen(ps[1..], s, i + 1, tLon);
    assert ps[1..][1..] == LongitudePattern;
    LongitudeTail(ps[1..][1..], s, i + 2, lon, ew, age);
  }

  /** The pieces of the GPS pattern from the latitude on. */
  const LatitudePattern: seq<Piece> := [Decimal(true), Skip(Many(Space))] + NorthSouthPattern

  /** The GPS pattern from the latitude on, at the end of a line. */
  lemma LatitudeTail(ps: seq<Piece>, s: string, i: nat, lat: Numeral, ns: char, lon: Numeral,
                     ew: char, age: Numeral)
    requires ps == LatitudePattern
    requires lat.Valid() && lon.Valid() && age.Valid() && age.sign == ""
    requires (ns == 'N' || ns == 'S') && (ew == 'E' || ew == 'W')
    requires i <= |s| && s[i..] == lat.Text() + (" " + ([ns] + (" " + GpsLonPart(lon, ew, age))))
    ensures MatchFrom(ps, s, i) ==
              Some([Number(lat.Value()), Number(lon.Value()), Number(age.Value())])
  {
    var tNS := [ns] + (" " + GpsLonPart(lon, ew, age));
    assert tNS[0] == ns;
    var j := SignedThenBlank(ps, s, i, lat, tNS);
    AfterLatitude(ps, s, i, j, lat.Value(), ns, lon, ew, age);
  }

  /** The rest of `LatitudeTail`, once the latitude and the blank after it are scanned. */
  lemma AfterLatitude(ps: seq<Piece>, s: string, i: nat, j: nat, lat: real, ns: char,
                      lon: Numeral, ew: char, age: Numeral)
    requires ps == LatitudePattern && lon.Valid() && age.Valid() && age.sign == ""
    requires (ns == 'N' || ns == 'S') && (ew == 'E' || ew == 'W')
    requires i <= j && j + 1 <= |s|
    requires ScanPiece(ps[0], s, i) == Some((j, [Number(lat)]))
    requires ScanPiece(ps[1], s, j) == Some((j + 1, []))
    requires s[j + 1..] == [ns] + (" " + GpsLonPart(lon, ew, age))
    ensures MatchFrom(ps, s, i) == Some([Number(lat), Number(lon.Value()), Number(age.Value())])
  {
    var tail := [Number(lon.Value()), Number(age.Value())];
    assert ps[2..] == NorthSouthPattern;
    NorthSouthTail(ps[2..], s, j + 1, ns, lon, ew, age);
    TwoSteps(ps, s, i, j, [Number(lat)], tail);
    assert [Number(lat)] + tail == [Number(lat), Number(lon.Value()), Number(age.Value())];
  }

  /** Two pieces matched one after the other, then the rest of the pattern. */
  lemma TwoSteps(ps: seq<Piece>, s: string, i: nat, j: nat, c: seq<Capture>, rest: seq<Capture>)
    requires |ps| >= 2 && i <= j && j + 1 <= |s|
    requires ScanPiece(ps[0], s, i) == Some((j, c))
    requires ScanPiece(ps[1], s, j) == Some((j + 1, []))
    requires MatchFrom(ps[2..], s, j + 1) == Some(rest)
    ensures MatchFrom(ps, s, i) == Some(c + rest)
  {
    assert ps[1..][1..] == ps[2..];
    MatchStep(ps[1..], s, j, j + 1, [], rest);
    assert [] + rest == rest;
    MatchStep(ps, s, i, j, c, rest);
  }

  /** The GPS pattern is its lead, a blank and the part from the latitude on. */
  lemma GpsPatternSplit()
    ensures GpsPattern == [Skip(Lit("GPS Location:")), Skip(Many(Space))] + LatitudePattern
  {
  }

  /** The GPS pattern, written as its lead and the part from the latitude on, against a
      line that is the lead, one blank and the text `y` from the latitude on. */
  lemma GpsHead(ps: seq<Piece>, s: string, y: string, lat: Numeral, ns: char, lon: Numeral,
                ew: char, age: Numeral)
    requires ps == [Skip(Lit("GPS Location:")), Skip(Many(Space))] + LatitudePattern
    requires lat.Valid() && lon.Valid() && age.Valid() && age.sign == ""
    requires (ns == 'N' || ns == 'S') && (ew == 'E' || ew == 'W')
    requires y == lat.Text() + (" " + ([ns] + (" " + GpsLonPart(lon, ew, age))))
    requires s == "GPS Location:" + (" " + y)
    ensures MatchFrom(ps, s, 0) ==
              Some([Number(lat.Value()), Number(lon.Value()), Number(age.Value())])
  {
    NumeralEdges(lat);
    assert y[0] == lat.Text()[0];
    LeadThen(ps, s, "GPS Location:", y);
    assert ps[2..] == LatitudePattern;
    LatitudeTail(ps[2..], s, 14, lat, ns, lon, ew, age);
  }

  /** A literal and one blank, before text that does not start with a blank. */
  lemma LeadThen(ps: seq<Piece>, s: string, t: string, y: string)
    requires |ps| >= 2 && ps[0] == Skip(Lit(t)) && ps[1] == Skip(Many(Space))
    requires y != [] && !IsSpace(y[0]) && s == t + (" " + y)
    ensures |s| == |t| + 1 + |y| && s[|t| + 1..] == y
    ensures MatchFrom(ps, s, 0) == MatchFrom(ps[2..], s, |t| + 1)
  {
    assert s[0..] == s;
    LitThen(ps, s, 0, t, " " + y);
    SpaceThen(ps[1..], s, |t|, y);
    assert ps[1..][1..] == ps[2..];
  }

  lemma GpsMatch(lat: Numeral, ns: char, lon: Numeral, ew: char, age: Numeral)
    requires lat.Valid() && lon.Valid() && age.Valid() && age.sign == ""
    requires (ns == 'N' || ns == 'S') && (ew == 'E' || ew == 'W')
    ensures FullMatch(GpsPattern, GpsLine(lat, ns, lon, ew, age)) ==
              Some([Number(lat.Value()), Number(lon.Value()), Number(age.Value())])
  {
    var y := lat.Text() + (" " + ([ns] + (" " + GpsLonPart(lon, ew, age))));
    GpsPatternSplit();
    GpsHead(GpsPattern, GpsLine(lat, ns, lon, ew, age), y, lat, ns, lon, ew, age);
  }

  /** A full GPS match capturing three numbers is recognised as that position and age. */
  lemma RecogniseGps(line: string, lat: real, lon: real, age: real)
    requires FullMatch(GpsPattern, line) == Some([Number(lat), Number(lon), Number(age)])
    ensures Recognise(GpsShape, line) == Some(Gps(lat, lon, age))
  {
  }

  /** A line that starts with `G` is neither a vehicle-name nor a clock line. */
  lemma MissesBeforeGps(line: string)
    requires |line| > 0 && line[0] == 'G'
    ensures forall i :: 0 <= i < 2 ==> Recognise(ScanOrder[i], line).None?
  {
    NotShapeByLead(VehicleNameShape, line, "Vehicle Name:", 0);
    NotShapeByLead(CurrTimeShape, line, "Curr Time:", 0);
    forall i | 0 <= i < 2 ensures Recognise(ScanOrder[i], line).None? {
      assert ScanOrder[i] == VehicleNameShape || ScanOrder[i] == CurrTimeShape;
    }
  }

  /** `GPS Location: <lat> <N|S> <lon> <E|W> measured <age> secs ago` reports the position
      the two numerals spell and the age of the fix. */
  lemma ClassifyGps(lat: Numeral, ns: char, lon: Numeral, ew: char, age: Numeral)
    requires lat.Valid() && lon.Valid() && age.Valid() && age.sign == ""
    requires (ns == 'N' || ns == 'S') && (ew == 'E' || ew == 'W')
    ensures Classify(GpsLine(lat, ns, lon, ew, age)) == Gps(lat.Value(), lon.Value(), age.Value())
  {
    var line := GpsLine(lat, ns, lon, ew, age);
    GpsMatch(lat, ns, lon, ew, age);
    RecogniseGps(line, lat.Value(), lon.Value(), age.Value());
    assert line[0] == 'G';
    MissesBeforeGps(line);
    FirstMatchAt(ScanOrder, line, 2);
  }
}
