# DrifterWaypoints: glider dialog scanner and polygon pattern loader, in Dafny

This project models two parts of DrifterWaypoints.

**The dialog scanner (`Glider.py`).** A `Glider` object reads a glider's surface-dialog
transcript one line at a time. Each line is stripped of surrounding whitespace. It is then
tried against seven regular expressions, in a fixed order. The first one that matches the
whole line decides what happens:

- `Vehicle Name:` stores the vehicle name.
- `Curr Time:` sets the session clock `t` through strptime.
- `GPS Location:` stores latitude and longitude. Their time is the clock minus the
  reported age ("secs ago").
- `m_final_water_vx` stores the eastward water velocity, timed the same way.
- `m_final_water_vy` stores the northward water velocity, timed the same way.
- `m_avg_speed` stores the average speed.
- `Water Velocity Calculations COMPLETE` marks the object complete.

Every call refreshes `timestamp` with the local clock and clears `qComplete` first. The
driver at the bottom of the file feeds each line of a transcript to one fresh object.

**The pattern loader (`Pattern.py`).** A YAML document gives a polygon of two to seven
vertices, an optional normalization and an optional rotation angle in degrees. The loader
checks the document in a fixed order. It then scales every vertex by the normalization and
rotates it by the angle. It keeps the result with the document's `qRotate` flag, which is
False when the key is absent. Any exception is caught, so a rejected document leaves
`vertices` as None.

Modules:

- `Wrappers`: `Option` and `Result`.
- `Lexing`: the character classes, `str.strip()`, decimal numerals and what `float()`
  gives for them, and a small greedy matcher. Each regular expression is a sequence of
  pieces. For these seven patterns, greedy matching is exactly `re.fullmatch`, because
  every repeated class is followed by the end of the pattern or by a character outside
  the class.
- `Dialog`: the seven patterns, the `Token` a line carries, and the first-match-wins
  classification.
- `Recognition`: worked lines of five shapes, classified from their text.
- `Gliders`:
  - the object's fields as a `Session` value;
  - `Dispatch` and `Step`, which say what one `parse` call does;
  - `Replay`, which says what a whole transcript does;
  - the class `Glider`, whose `Parse` and `Feed` methods update its fields in place.
- `Patterns`: a YAML value type, the checks, the vertex loop `PlaceAll` with its
  imperative counterpart `PlaceVertices`, and the class `Pattern`.

A position or velocity line seen before any `Curr Time` line is not skipped. Glider.py:63,
68 and 73 compute `self.t - timedelta(...)` with `t` still None, which raises `TypeError`.
Latitude and longitude, or the velocity, have already been stored by then, and the raise
ends the driver loop. The model has `parse` raise `NoReferenceTime` in that case and keeps
that partial update (`Gliders.NoClockRaises`).

## Model

| member | source | states |
|---|---|---|
| Lexing.Strip | Glider.py:50 | the stripped line neither starts nor ends with whitespace and is no longer than the line |
| Lexing.StripExact | Glider.py:50 | strip removes exactly the surrounding whitespace: for any split of a line into whitespace, a part not starting or ending with whitespace, and whitespace, it returns that part |
| Lexing.StripIdempotent | Glider.py:50 | stripping a stripped line changes nothing |
| Lexing.MatchKinds | Glider.py:24-33 | a successful match captures one text per group and one number per decimal group, in pattern order, and an unsigned decimal's number is never negative |
| Lexing.ScanNumeral | Glider.py:61-62 | a numeral `[+-]?\d+[.]\d+` written at a position and not followed by a digit is scanned to its end, with the value `float()` gives for its text |
| Lexing.ScanDecimal | Glider.py:61-62 | a decimal group `[+-]?\d+[.]\d+` (or `\d+[.]\d+` when unsigned) that matches consumes at least one character and stays within the line, and an unsigned one never gives a negative value; `Lexing.ScanNumeral` states that a written numeral is scanned to its end with the value `float()` gives |
| Lexing.MatchFrom | Glider.py:51-82 | with no pieces left, a match succeeds only at the end of the line, so a successful match consumes the whole line; `Lexing.MatchStep` states how one matched piece and the rest join |
| Lexing.FullMatch | Glider.py:51-82 | no contract of its own: `re.fullmatch`, the pieces matched from the start of the line to its end; `Lexing.MatchKinds` states what it captures, and `Recognition.VehicleNameMatch`, `Recognition.GpsMatch`, `Recognition.VelocityMatch` and `Recognition.AvgSpeedMatch` state its result on worked lines |
| Dialog.PatternOf | Glider.py:24-33 | no contract of its own: the seven constants `VehicleNamePattern` … `CompletePattern` write the seven compiled expressions as pieces, and `Dialog.PatternKinds` states what each captures |
| Dialog.PatternKinds | Glider.py:24-33 | the vehicle-name and clock patterns capture one text, the position pattern two signed numbers and an unsigned age, each velocity pattern a signed number and an unsigned age, the speed pattern one signed number, and the completion pattern nothing |
| Dialog.TokenOf | Glider.py:53-77 | the captures of a shape's pattern give a token other than NoMatch, Complete only for the completion shape, and an age never below zero |
| Dialog.Recognise | Glider.py:24-33 | a pattern that matches the whole line yields a token that is not NoMatch; only the completion pattern yields Complete; every age it reports is at least zero |
| Dialog.FirstMatch | Glider.py:51-82 | the result is NoMatch exactly when no pattern in the list matches the whole line; otherwise it is the token of some pattern that matches |
| Dialog.FirstMatchAt | Glider.py:51-82 | the first pattern in scan order that matches decides the token, whatever later patterns would give |
| Dialog.Classify | Glider.py:50-82 | a stripped line is classified by the seven patterns in the code's order; every age it reports is at least zero (and `Dialog.FirstMatch`, `Dialog.FirstMatchAt` state which pattern decides) |
| Dialog.CompleteIff | Glider.py:79-82 | a stripped line is classified as the completion marker exactly when it is the literal text `Water Velocity Calculations COMPLETE` |
| Recognition.ClassifyVehicleName | Glider.py:24 | `Vehicle Name: ` followed by one word is classified as naming that vehicle |
| Recognition.ClassifyGps | Glider.py:26-27 | `GPS Location: ` with a signed latitude, `N` or `S`, a signed longitude, `E` or `W`, and `measured <age> secs ago` is classified as that position and that age; the name and clock patterns tried before it do not match |
| Recognition.ClassifyWaterVX | Glider.py:28-29 | a `sensor:m_final_water_vx(m/s)=` line with a signed numeral and an unsigned age is classified as that eastward velocity and that age |
| Recognition.ClassifyWaterVY | Glider.py:30-31 | the same for `sensor:m_final_water_vy(m/s)=` and the northward velocity; the `vx` pattern tried before it does not match |
| Recognition.ClassifyAvgSpeed | Glider.py:32 | `m_avg_speed(m/s) ` and a signed numeral is classified as that average speed |
| Gliders.Dispatch | Glider.py:47-82 | one call refreshes `timestamp` and leaves `qComplete` set only for the completion marker. It changes only the fields of the line's own group and stores the captured values. A `Curr Time` line sets `t` to strptime's result, or raises BadDate and leaves `t` as it was. A position or velocity line sets its time to `t` minus the age, or raises NoReferenceTime when `t` is None, with that time unchanged |
| Gliders.Step | Glider.py:47-82 | after `parse(line)`, `qComplete` holds exactly when the stripped line is the completion text, and a corrected time that was set is never later than the clock |
| Gliders.LineToken | Glider.py:50-82 | no contract of its own: the line stripped as `line.strip()` does, then classified by the seven patterns in order; `Lexing.StripExact`, `Dialog.FirstMatchAt` and `Gliders.Step` state its properties |
| Gliders.Replay | Glider.py:87-91 | no contract of its own: one `parse` call per line on one object, stopping at the first raise; `Gliders.ReplayStopsAtRaise`, `Gliders.ClockIsLatest`, `Gliders.AgeAgainstLatestClock`, `Gliders.ReplayComplete` and `Gliders.UnknownLinesIgnored` state its properties |
| Gliders.ReplayStopsAtRaise | Glider.py:87-91 | once a call raises, the lines after it change nothing, because the driver stops |
| Gliders.ClockIsLatest | Glider.py:55-58 | after a transcript, `t` is the time of the last `Curr Time` line in it |
| Gliders.AgeAgainstLatestClock | Glider.py:59-74 | a position or velocity line is timed against the closest `Curr Time` line before it: its time is that clock minus its age |
| Gliders.NoClockYet | Glider.py:63 | before any `Curr Time` line, an object without a clock has either returned with `t` still None or raised for want of it |
| Gliders.NoClockRaises | Glider.py:63 | a position or velocity line that comes before every `Curr Time` line makes the run raise NoReferenceTime |
| Gliders.ReplayComplete | Glider.py:79-82 | after a run that returned, the object is complete exactly when the last line was the completion marker |
| Gliders.FeedComplete | Glider.py:79-82 | the same, in terms of the transcript's text: the last stripped line is the completion text |
| Gliders.UnknownLinesIgnored | Glider.py:47-82 | lines that no pattern matches never raise and leave every field except `timestamp` and `qComplete` as it was |
| Gliders.NameClockPositionComplete | Glider.py:47-82 | a name line, a clock line, a position 30 seconds old and the marker leave the vehicle named, the clock set, the position stored and timed 30 seconds before the clock, and the object complete |
| Gliders.Glider.constructor | Glider.py:11-23 | a new object has every field None and is marked complete |
| Gliders.Glider.Parse | Glider.py:47-82 | the object's new fields and the call's outcome are those `Step` gives for the old fields |
| Gliders.Glider.Apply | Glider.py:48-82 | the in-place field updates of one classified line are those `Dispatch` gives |
| Gliders.Glider.Feed | Glider.py:87-91 | feeding a transcript line by line leaves the object in the state `Replay` gives, and stops at the first call that raises |
| Patterns.NumberValue | Pattern.py:75-78 | a value passes `isinstance(v, (int, float))` exactly when it is a bool, an int or a float |
| Patterns.OrDefault | Pattern.py:52-56 | an absent or null key gives the default; any other value is kept |
| Patterns.SetupOf | Pattern.py:34-63 | a document passes the checks before the loop exactly when its polygon is a list of two to seven entries, its normalization is a non-zero number and its rotation a number, 1 and 0 when absent or null; the setup then holds those values |
| Patterns.PointOf | Pattern.py:68-80 | a vertex passes exactly when it is a two-element list of numbers, and then its coordinates are those numbers |
| Patterns.Place | Pattern.py:81-89 | no contract of its own: scaling by `norm` when it is not 1, then rotation when the angle is not 0; `Patterns.PlaceUnrotated` and `Patterns.PlaceKeepsRadius` state its properties |
| Patterns.PlaceAll | Pattern.py:67-89 | no contract of its own: the vertex loop, stopping at the first vertex that fails; `Patterns.PlaceAllOk`, `Patterns.PlaceAllStopsAtError`, `Patterns.PlaceAllFirstError` and `Patterns.PlaceAllUnrotated` state its properties |
| Patterns.PlaceUnrotated | Pattern.py:81-89 | with no rotation a vertex is only scaled, and with scale 1 it is left as it is |
| Patterns.PlaceKeepsRadius | Pattern.py:81-87 | rotating by an angle whose sine and cosine satisfy sin² + cos² = 1 keeps a vertex's distance from the origin; scaling multiplies the squared distance by the scale squared |
| Patterns.PlaceAllStopsAtError | Pattern.py:67-80 | once a vertex fails its checks, the whole loop fails with that error |
| Patterns.PlaceAllOk | Pattern.py:67-89 | the loop succeeds exactly when every vertex passes its checks, and then yields one placed vertex per input vertex, in order |
| Patterns.PlaceAllFirstError | Pattern.py:67-80 | a failing loop reports the error of the first vertex that fails, every vertex before it having passed |
| Patterns.PlaceAllUnrotated | Pattern.py:81-89 | with no rotation, every output vertex is the input vertex times the scale |
| Patterns.PlaceVertices | Pattern.py:61-89 | the loop that appends one placed vertex at a time returns what `PlaceAll` specifies |
| Patterns.QRotateOf | Pattern.py:26 | `qRotate` is the document's value, and False when the key is absent |
| Patterns.MakePattern | Pattern.py:31-91 | no contract of its own: the checks, then the vertex loop; the `Patterns.MakePattern…` lemmas below state its properties |
| Patterns.MakePatternShape | Pattern.py:31-91 | a loaded pattern has as many vertices as the polygon, two to seven, each the corresponding input vertex scaled and rotated |
| Patterns.MakePatternOk | Pattern.py:31-91 | the transform succeeds exactly when the document passes the checks before the loop and every vertex passes its own |
| Patterns.MakePatternAccepts | Pattern.py:31-91 | a polygon list of two to seven two-element lists of numbers, with a nonzero numeric normalization and a numeric angle (each defaulted when absent or null), is transformed without error |
| Patterns.MakePatternRejectsPolygon | Pattern.py:34-49 | a missing polygon, a polygon that is not a list, and one of fewer than two or more than seven vertices are rejected, each with its own error |
| Patterns.MakePatternNormalization | Pattern.py:52-59 | a zero normalization is rejected; an absent or null normalization is 1, and an absent or null rotation is 0 |
| Patterns.MakePatternUnrotated | Pattern.py:81-89 | without a rotation, every output vertex is the input vertex times the normalization |
| Patterns.MakePatternVerbatim | Pattern.py:52-89 | with neither rotation nor normalization, the output vertices are the input vertices |
| Patterns.Pattern.constructor | Pattern.py:11-16 | a new pattern holds the document's `qRotate` (False when absent or when the file could not be read), and vertices only when the whole transform succeeded |
| Patterns.Pattern.LoadPattern | Pattern.py:21-29 | `qRotate` is read before the transform, and a rejected document leaves `vertices` as it was |
| Patterns.Pattern.MkPattern | Pattern.py:31-91 | the result is what `MakePattern` gives, and `vertices` is replaced only on success |

## Left out

- `datetime.now()`: the local clock reading is a parameter of `Parse`, and `Feed` takes one reading per line.
- `datetime.strptime`: the date format is a function parameter (`DateParser`). Month names and calendar rules are not modelled; a None result stands for `ValueError`.
- Times are real seconds on one axis. `timedelta` is subtraction, with no microsecond rounding and no date range limits.
- `float()` gives the exact decimal value of the captured text. Binary floating-point rounding is not modelled.
- `math.sin`, `math.cos` and `math.radians` are one function parameter (`Trig`) from degrees to sine and cosine. The loader's `theta != 0` test is made on the angle in degrees. Mathematically this equals the code's test on radians, but floating-point underflow of a tiny angle is not modelled.
- `\d` and `\w` are limited to ASCII. Python's `str` patterns also accept other Unicode digits and letters. `\s` and `strip()` use the full `str.isspace` set.
- The model is not a general regular-expression engine. It matches greedily without backtracking, which is exact only for the seven patterns of `Glider.py`.
- Recognition: no lemma classifies a worked `Curr Time:` line. Such lines are covered only by the general contracts of `Dialog.Classify`, `Dialog.Recognise` and `Dialog.FirstMatch`.
- Opening files, `yaml.load`, `print(info)` and `logger.exception` are not modelled, nor is the `__main__` block of `Pattern.py`. In `Glider.py`'s `__main__` block, the loop over a file's lines is modelled by `Glider.Feed`; reading the command line, opening the files and printing the object are not. The loaded document is a parameter. None stands for a file that cannot be opened or a document that is not a mapping. Both leave `qRotate` False and `vertices` None, as the code's catch-all handler does.
- Patterns.SetupOf: a normalization that is not a number is rejected before the vertex loop, as NormalizationNotNumber. The code only fails inside the loop, at `x *= norm`, `y *= norm` or the rotation (Pattern.py:82-86). So the code may report a vertex error first, but the outcome is the same: `vertices` stays None. The exception is a string or list normalization with integer coordinates and no rotation. There Python's sequence repetition succeeds and stores non-numeric vertices; the model rejects that document.
- Python's `bool` is a number (`isinstance(True, int)`), with True as 1 and False as 0. NaN and infinities are not modelled.
- `__repr__` of both classes is left out: it only formats output.
- Persistence of records, waypoint fields and degrees-and-minutes coordinate decoding are not part of this code, so they are not modelled. Coordinates are stored as captured.
