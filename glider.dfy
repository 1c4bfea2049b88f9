/** The dialog scanner's state machine: a glider object that reads a surface-dialog
    transcript one line at a time and keeps the vehicle name, the session clock, the last
    position, the two water velocities and the average speed, each with the time it refers
    to.

    Times are seconds on one real axis. The dialog's `Curr Time` text is turned into such a
    time by the date parser the scanner is given (strptime with "%b %d %H:%M:%S %Y"), and the
    local clock reading stored in `timestamp` is passed in with each line. */
module Gliders {
  import opened Wrappers
  import opened Lexing
  import opened Dialog

  type Time = real

  /** strptime: the time a date text denotes, or None where strptime raises ValueError. */
  type DateParser = string -> Option<Time>

  /** Why `parse` raised. */
  datatype ParseError =
    | BadDate(text: string)   // strptime rejected the captured date text
    | NoReferenceTime         // `self.t - timedelta(...)` while `t` is still None

  datatype Outcome = Returned | Raised(error: ParseError)

  /** The fields of a glider object, as one value. */
  datatype Session = Session(
    glider: Option<string>,
    t: Option<Time>,
    timestamp: Option<Time>,
    lat: Option<real>,
    lon: Option<real>,
    tLatLon: Option<Time>,
    speed: Option<real>,
    vx: Option<real>,
    vy: Option<real>,
    tVX: Option<Time>,
    tVY: Option<Time>,
    qComplete: bool)

  /** A fresh object: nothing known yet, and marked complete. */
  const Initial: Session :=
    Session(None, None, None, None, None, None, None, None, None, None, None, true)

  datatype StepResult = StepResult(after: Session, outcome: Outcome)

  /** The groups of fields that one line may change. */
  datatype FieldGroup =
    | NameGroup       // glider
    | ClockGroup      // t
    | PositionGroup   // lat, lon, tLatLon
    | VXGroup         // vx, tVX
    | VYGroup         // vy, tVY
    | SpeedGroup      // speed
    | NoGroup

  function GroupOf(tok: Token): FieldGroup
  {
    match tok
    case VehicleName(_) => NameGroup
    case CurrTime(_) => ClockGroup
    case Gps(_, _, _) => PositionGroup
    case WaterVX(_, _) => VXGroup
    case WaterVY(_, _) => VYGroup
    case AvgSpeed(_) => SpeedGroup
    case Complete => NoGroup
    case NoMatch => NoGroup
  }

  /** Every field outside group `g` is the same in `s` and `s'` (the refreshed `timestamp`
      and `qComplete` aside). */
  predicate SameOutside(s: Session, s': Session, g: FieldGroup)
  {
    && (g != NameGroup ==> s'.glider == s.glider)
    && (g != ClockGroup ==> s'.t == s.t)
    && (g != PositionGroup ==> s'.lat == s.lat && s'.lon == s.lon && s'.tLatLon == s.tLatLon)
    && (g != VXGroup ==> s'.vx == s.vx && s'.tVX == s.tVX)
    && (g != VYGroup ==> s'.vy == s.vy && s'.tVY == s.tVY)
    && (g != SpeedGroup ==> s'.speed == s.speed)
  }

  /** Lines whose time is the session clock minus a reported age. */
  predicate NeedsClock(tok: Token)
  {
    tok.Gps? || tok.WaterVX? || tok.WaterVY?
  }

  /** The corrected time a clock-needing line sets: `tLatLon`, `tVX` or `tVY`. */
  function CorrectedTime(s: Session, tok: Token): Option<Time>
  {
    match tok
    case Gps(_, _, _) => s.tLatLon
    case WaterVX(_, _) => s.tVX
    case WaterVY(_, _) => s.tVY
    case _ => None
  }

  /** What `parse` does once the line is known to be `tok`, on an object in state `s` and
      with the local clock reading `now`: the new state and whether the call returned or
      raised. */
  function Dispatch(s: Session, tok: Token, now: Time, strptime: DateParser): (r: StepResult)
    ensures r.after.timestamp == Some(now)
    ensures r.after.qComplete <==> tok == Complete
    ensures SameOutside(s, r.after, GroupOf(tok))
    ensures r.outcome ==
              if NeedsClock(tok) && s.t.None? then Raised(NoReferenceTime)
              else if tok.CurrTime? && strptime(tok.date).None? then Raised(BadDate(tok.date))
              else Returned
    ensures tok.CurrTime? && r.outcome == Returned ==> r.after.t == strptime(tok.date)
    ensures NeedsClock(tok) && r.outcome == Returned ==>
              r.after.t == s.t && CorrectedTime(r.after, tok) == Some(s.t.value - tok.age)
    ensures r.outcome.Raised? ==> r.after.t == s.t && CorrectedTime(r.after, tok) == CorrectedTime(s, tok)
    ensures tok.VehicleName? ==> r.after.glider == Some(tok.name)
    ensures tok.Gps? ==> r.after.lat == Some(tok.lat) && r.after.lon == Some(tok.lon)
    ensures tok.WaterVX? ==> r.after.vx == Some(tok.vx)
    ensures tok.WaterVY? ==> r.after.vy == Some(tok.vy)
    ensures tok.AvgSpeed? ==> r.after.speed == Some(tok.speed)
  {
    var s0 := s.(timestamp := Some(now), qComplete := false);
    match tok
    case VehicleName(w) => StepResult(s0.(glider := Some(w)), Returned)
    case CurrTime(d) =>
      (match strptime(d)
       case None => StepResult(s0, Raised(BadDate(d)))
       case Some(clock) => StepResult(s0.(t := Some(clock)), Returned))
    case Gps(la, lo, age) =>
      var s1 := s0.(lat := Some(la), lon := Some(lo));
      if s.t.None? then StepResult(s1, Raised(NoReferenceTime))
      else StepResult(s1.(tLatLon := Some(s.t.value - age)), Returned)
    case WaterVX(v, age) =>
      var s1 := s0.(vx := Some(v));
      if s.t.None? then StepResult(s1, Raised(NoReferenceTime))
      else StepResult(s1.(tVX := Some(s.t.value - age)), Returned)
    case WaterVY(v, age) =>
      var s1 := s0.(vy := Some(v));
      if s.t.None? then StepResult(s1, Raised(NoReferenceTime))
      else StepResult(s1.(tVY := Some(s.t.value - age)), Returned)
    case AvgSpeed(v) => StepResult(s0.(speed := Some(v)), Returned)
    case Complete => StepResult(s0.(qComplete := true), Returned)
    case NoMatch => StepResult(s0, Returned)
  }

  /** What a raw dialog line says once stripped. */
  function LineToken(line: string): Token
  {
    Classify(Strip(line))
  }

  /** One call of `parse(line)`: strip the line, classify it, dispatch. */
  function Step(s: Session, line: string, now: Time, strptime: DateParser): (r: StepResult)
    ensures r.after.qComplete <==> Strip(line) == CompleteLine
    ensures NeedsClock(LineToken(line)) && r.outcome == Returned ==>
              r.after.t.Some? && CorrectedTime(r.after, LineToken(line)).Some? &&
              CorrectedTime(r.after, LineToken(line)).value <= r.after.t.value
  {
    var tok := LineToken(line);
    CompleteIff(Strip(line));
    assert NeedsClock(tok) ==> tok.age >= 0.0;
    Dispatch(s, tok, now, strptime)
  }

  /** The tokens of a transcript, line by line. */
  function Tokens(lines: seq<string>): (toks: seq<Token>)
    ensures |toks| == |lines|
  {
    seq(|lines|, k requires 0 <= k < |lines| => LineToken(lines[k]))
  }

  /** Feeding lines whose tokens are `toks` to an object in state `s`, one `parse` call per
      line with the clock readings `clock`, stopping at the first call that raises. */
  function Replay(s: Session, toks: seq<Token>, clock: seq<Time>, strptime: DateParser): StepResult
    requires |clock| == |toks|
    decreases |toks|
  {
    if toks == [] then StepResult(s, Returned)
    else
      var n := |toks| - 1;
      var prev := Replay(s, toks[..n], clock[..n], strptime);
      if prev.outcome.Raised? then prev else Dispatch(prev.after, toks[n], clock[n], strptime)
  }

  lemma ReplayAppend(s: Session, toks: seq<Token>, clock: seq<Time>, strptime: DateParser, i: nat)
    requires |clock| == |toks| && i < |toks|
    requires Replay(s, toks[..i], clock[..i], strptime).outcome == Returned
    ensures Replay(s, toks[..i + 1], clock[..i + 1], strptime) ==
            Dispatch(Replay(s, toks[..i], clock[..i], strptime).after, toks[i], clock[i], strptime)
  {
    assert toks[..i + 1][..i] == toks[..i] && clock[..i + 1][..i] == clock[..i];
  }

  /** Once a call has raised, the later lines change nothing. */
  lemma {:induction false} ReplayStopsAtRaise(s: Session, toks: seq<Token>, clock: seq<Time>,
                                              strptime: DateParser, i: nat)
    requires |clock| == |toks| && i <= |toks|
    requires Replay(s, toks[..i], clock[..i], strptime).outcome.Raised?
    ensures Replay(s, toks, clock, strptime) == Replay(s, toks[..i], clock[..i], strptime)
    decreases |toks| - i
  {
    if i < |toks| {
      var n := |toks| - 1;
      assert toks[..n][..i] == toks[..i] && clock[..n][..i] == clock[..i];
      ReplayStopsAtRaise(s, toks[..n], clock[..n], strptime, i);
    } else {
      assert toks[..i] == toks && clock[..i] == clock;
    }
  }

  /** After a replay that returned, `t` is the time of the last `Curr Time` line. */
  lemma {:induction false} ClockIsLatest(s: Session, toks: seq<Token>, clock: seq<Time>,
                                         strptime: DateParser, j: nat, T: Time)
    requires |clock| == |toks| && j < |toks|
    requires Replay(s, toks, clock, strptime).outcome == Returned
    requires toks[j].CurrTime? && strptime(toks[j].date) == Some(T)
    requires forall k :: j < k < |toks| ==> !toks[k].CurrTime?
    ensures Replay(s, toks, clock, strptime).after.t == Some(T)
    decreases |toks|
  {
    var n := |toks| - 1;
    if j < n {
      assert forall k :: j < k < n ==> toks[..n][k] == toks[k];
      ClockIsLatest(s, toks[..n], clock[..n], strptime, j, T);
    }
  }

  /** Order matters: a line that needs the clock is timed against the `Curr Time` line
      closest before it, whatever earlier `Curr Time` lines said. */
  lemma AgeAgainstLatestClock(s: Session, toks: seq<Token>, clock: seq<Time>,
                              strptime: DateParser, j: nat, T: Time, tok: Token, now: Time)
    requires |clock| == |toks| && j < |toks|
    requires Replay(s, toks, clock, strptime).outcome == Returned
    requires toks[j].CurrTime? && strptime(toks[j].date) == Some(T)
    requires forall k :: j < k < |toks| ==> !toks[k].CurrTime?
    requires NeedsClock(tok)
    ensures Replay(s, toks + [tok], clock + [now], strptime).outcome == Returned
    ensures CorrectedTime(Replay(s, toks + [tok], clock + [now], strptime).after, tok)
            == Some(T - tok.age)
  {
    ClockIsLatest(s, toks, clock, strptime, j, T);
    assert (toks + [tok])[..|toks|] == toks && (clock + [now])[..|toks|] == clock;
  }

  /** Before any `Curr Time` line, a replay from a state without a clock either has returned
      with `t` still None or has raised for want of it. */
  lemma {:induction false} NoClockYet(s: Session, toks: seq<Token>, clock: seq<Time>,
                                      strptime: DateParser)
    requires |clock| == |toks| && s.t.None?
    requires forall k :: 0 <= k < |toks| ==> !toks[k].CurrTime?
    ensures var r := Replay(s, toks, clock, strptime);
            (r.outcome == Returned && r.after.t.None?) || r.outcome == Raised(NoReferenceTime)
    decreases |toks|
  {
    if toks != [] {
      var n := |toks| - 1;
      assert forall k :: 0 <= k < n ==> toks[..n][k] == toks[k];
      NoClockYet(s, toks[..n], clock[..n], strptime);
    }
  }

  /** A position or velocity line seen before any `Curr Time` line makes the replay raise:
      its time cannot be computed. */
  lemma NoClockRaises(s: Session, toks: seq<Token>, clock: seq<Time>, strptime: DateParser,
                      j: nat)
    requires |clock| == |toks| && j < |toks| && s.t.None?
    requires NeedsClock(toks[j])
    requires forall k :: 0 <= k < j ==> !toks[k].CurrTime?
    ensures Replay(s, toks, clock, strptime).outcome == Raised(NoReferenceTime)
  {
    assert forall k :: 0 <= k < j ==> toks[..j][k] == toks[k];
    NoClockYet(s, toks[..j], clock[..j], strptime);
    assert toks[..j + 1][..j] == toks[..j] && clock[..j + 1][..j] == clock[..j];
    ReplayStopsAtRaise(s, toks, clock, strptime, j + 1);
  }

  /** After a replay that returned, the object is complete exactly when the last line was
      the completion marker. */
  lemma ReplayComplete(s: Session, toks: seq<Token>, clock: seq<Time>, strptime: DateParser)
    requires |clock| == |toks| && toks != []
    requires Replay(s, toks, clock, strptime).outcome == Returned
    ensures Replay(s, toks, clock, strptime).after.qComplete <==> toks[|toks| - 1] == Complete
  {
  }

  /** The same, in terms of the transcript's text. */
  lemma FeedComplete(s: Session, lines: seq<string>, clock: seq<Time>, strptime: DateParser)
    requires |clock| == |lines| && lines != []
    requires Replay(s, Tokens(lines), clock, strptime).outcome == Returned
    ensures Replay(s, Tokens(lines), clock, strptime).after.qComplete <==>
            Strip(lines[|lines| - 1]) == CompleteLine
  {
    ReplayComplete(s, Tokens(lines), clock, strptime);
    CompleteIff(Strip(lines[|lines| - 1]));
  }

  /** Lines no pattern recognises change nothing but `timestamp` and `qComplete`, and never
      make a call raise. */
  lemma {:induction false} UnknownLinesIgnored(s: Session, lines: seq<string>, clock: seq<Time>,
                                               strptime: DateParser)
    requires |clock| == |lines|
    requires forall k :: 0 <= k < |lines| ==> LineToken(lines[k]) == NoMatch
    ensures var r := Replay(s, Tokens(lines), clock, strptime);
            r.outcome == Returned && SameOutside(s, r.after, NoGroup)
    decreases |lines|
  {
    if lines != [] {
      var n := |lines| - 1;
      var toks := Tokens(lines);
      assert toks[..n] == Tokens(lines[..n]);
      assert forall k :: 0 <= k < n ==> lines[..n][k] == lines[k];
      UnknownLinesIgnored(s, lines[..n], clock[..n], strptime);
      var prev := Replay(s, toks[..n], clock[..n], strptime);
      assert toks[n] == NoMatch;
      var r := Dispatch(prev.after, NoMatch, clock[n], strptime);
      assert Replay(s, toks, clock, strptime) == r;
      assert SameOutside(prev.after, r.after, NoGroup);
    }
  }

  /** A transcript naming the vehicle, giving the clock, a position measured 30 seconds
      earlier and the completion marker leaves the vehicle named, the clock set, the
      position timed 30 seconds before the clock, and the object complete. */
  lemma NameClockPositionComplete(name: string, date: string, T: Time, lat: real, lon: real,
                                  clock: seq<Time>, strptime: DateParser)
    requires |clock| == 4 && strptime(date) == Some(T)
    ensures var r := Replay(Initial, [VehicleName(name), CurrTime(date), Gps(lat, lon, 30.0), Complete],
                            clock, strptime);
            && r.outcome == Returned
            && r.after.glider == Some(name) && r.after.t == Some(T)
            && r.after.lat == Some(lat) && r.after.lon == Some(lon)
            && r.after.tLatLon == Some(T - 30.0)
            && r.after.qComplete
  {
    var toks := [VehicleName(name), CurrTime(date), Gps(lat, lon, 30.0), Complete];
    assert toks[..0] == [] && clock[..0] == [];
    ReplayAppend(Initial, toks, clock, strptime, 0);
    ReplayAppend(Initial, toks, clock, strptime, 1);
    ReplayAppend(Initial, toks, clock, strptime, 2);
    ReplayAppend(Initial, toks, clock, strptime, 3);
    assert toks[..4] == toks && clock[..4] == clock;
  }

  class Glider {
    var qComplete: bool
    var glider: Option<string>
    var t: Option<Time>
    var timestamp: Option<Time>
    var lat: Option<real>
    var lon: Option<real>
    var tLatLon: Option<Time>
    var speed: Option<real>
    var vx: Option<real>
    var vy: Option<real>
    var tVX: Option<Time>
    var tVY: Option<Time>

    function State(): Session
      reads this
    {
      Session(glider, t, timestamp, lat, lon, tLatLon, speed, vx, vy, tVX, tVY, qComplete)
    }

    constructor()
      ensures State() == Initial
    {
      qComplete := true;
      glider := None;
      t := None;
      timestamp := None;
      lat := None;
      lon := None;
      tLatLon := None;
      speed := None;
      vx := None;
      vy := None;
      tVX := None;
      tVY := None;
    }

    /** Reads one dialog line: the first of the seven patterns that matches the stripped
        line decides which fields change. */
    method Parse(line: string, now: Time, strptime: DateParser) returns (outcome: Outcome)
      modifies this
      ensures StepResult(State(), outcome) == Step(old(State()), line, now, strptime)
    {
      var tok := Classify(Strip(line));
      outcome := Apply(tok, now, strptime);
    }

    /** The body of `parse` once the line is classified: refresh `timestamp`, clear
        `qComplete`, then update the fields of the line's own group. */
    method Apply(tok: Token, now: Time, strptime: DateParser) returns (outcome: Outcome)
      modifies this
      ensures StepResult(State(), outcome) == Dispatch(old(State()), tok, now, strptime)
    {
      timestamp := Some(now);
      qComplete := false;
      match tok
      case VehicleName(w) =>
        glider := Some(w);
        return Returned;
      case CurrTime(d) =>
        var parsed := strptime(d);
        if parsed.None? {
          return Raised(BadDate(d));
        }
        t := Some(parsed.value);
        return Returned;
      case Gps(la, lo, age) =>
        lat := Some(la);
        lon := Some(lo);
        if t.None? {
          return Raised(NoReferenceTime);
        }
        tLatLon := Some(t.value - age);
        return Returned;
      case WaterVX(v, age) =>
        vx := Some(v);
        if t.None? {
          return Raised(NoReferenceTime);
        }
        tVX := Some(t.value - age);
        return Returned;
      case WaterVY(v, age) =>
        vy := Some(v);
        if t.None? {
          return Raised(NoReferenceTime);
        }
        tVY := Some(t.value - age);
        return Returned;
      case AvgSpeed(v) =>
        speed := Some(v);
        return Returned;
      case Complete =>
        qComplete := true;
        return Returned;
      case NoMatch =>
        return Returned;
    }

    /** The driver loop: every line of a dialog in order, with one clock reading per line;
        a call that raises ends the loop and its error is returned. */
    method Feed(lines: seq<string>, clock: seq<Time>, strptime: DateParser) returns (outcome: Outcome)
      requires |clock| == |lines|
      modifies this
      ensures StepResult(State(), outcome) == Replay(old(State()), Tokens(lines), clock, strptime)
    {
      outcome := Returned;
      var i := 0;
      while i < |lines|
        invariant 0 <= i <= |lines|
        invariant outcome == Returned
        invariant StepResult(State(), outcome) ==
                  Replay(old(State()), Tokens(lines)[..i], clock[..i], strptime)
      {
        ghost var toks := Tokens(lines);
        ghost var before := State();
        outcome := Parse(lines[i], clock[i], strptime);
        assert StepResult(State(), outcome) == Dispatch(before, toks[i], clock[i], strptime);
        ReplayAppend(old(State()), toks, clock, strptime, i);
        i := i + 1;
        if outcome.Raised? {
          ReplayStopsAtRaise(old(State()), toks, clock, strptime, i);
          return;
        }
      }
      assert Tokens(lines)[..i] == Tokens(lines) && clock[..i] == clock;
    }
  }
}
