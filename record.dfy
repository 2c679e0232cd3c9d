/** The per-trial row: a dictionary from column names to values that the
    trial code fills in key by key, and the movement update that tracks the
    current, nearest and farthest normalised distance. */
module Record {
  import opened PyRound

  datatype Option<T> = None | Some(value: T)

  /** The values the row holds: integers, floats and strings. */
  datatype Value = Int(i: int) | Real(x: real) | Text(s: string)

  /** The exceptions a dictionary access or a comparison can raise. */
  datatype PyError = KeyError(key: Column) | TypeError(key: Column)

  /** The columns the trial code names, and any other column a caller adds
      under a key that none of the named columns uses. */
  datatype Column =
    | StartTime | CurrentTime | CurrentDistance | DistanceMax | DistanceMin
    | DistanceAtStart | ScenarioIndex | DoorOpened | DoorStatus | DidWin
    | DoorOutcome | TotalCoins | DoorActionRT | DoorAnticipationTime
    | Other(name: string)

  /** The dictionary key each column stands for. */
  function ColumnName(c: Column): string {
    match c
    case StartTime => "StartTime"
    case CurrentTime => "CurrentTime"
    case CurrentDistance => "CurrentDistance"
    case DistanceMax => "Distance_max"
    case DistanceMin => "Distance_min"
    case DistanceAtStart => "DistanceAtStart"
    case ScenarioIndex => "ScenarioIndex"
    case DoorOpened => "Door_opened"
    case DoorStatus => "DoorStatus"
    case DidWin => "DidWin"
    case DoorOutcome => "Door_outcome"
    case TotalCoins => "Total_coins"
    case DoorActionRT => "DoorAction_RT"
    case DoorAnticipationTime => "Door_anticipation_time"
    case Other(name) => name
  }

  /** The trial row. Python keys are the ColumnName of the columns. */
  type Row = map<Column, Value>

  /** The keys the movement update writes. */
  const MovementKeys: set<Column> := {CurrentTime, CurrentDistance, DistanceMax, DistanceMin}

  /** A value used in arithmetic or in a comparison with a number; a string
      there raises TypeError. */
  function AsNumber(v: Value): (r: Option<real>)
    ensures r.None? <==> v.Text?
    ensures v.Int? ==> r == Some(v.i as real)
    ensures v.Real? ==> r == Some(v.x)
  {
    match v
    case Int(i) => Some(i as real)
    case Real(x) => Some(x)
    case Text(_) => None
  }

  /** `row.get(key, default)` compared with a number. */
  function GetNumber(row: Row, key: Column, default: real): (r: Option<real>)
    ensures key !in row ==> r == Some(default)
    ensures r.None? <==> key in row && row[key].Text?
    ensures key in row ==> r == AsNumber(row[key])
  {
    if key in row then AsNumber(row[key]) else Some(default)
  }

  /** The farthest distance so far, with the implicit default 0. */
  function EffectiveMax(row: Row): Option<real> {
    GetNumber(row, DistanceMax, 0.0)
  }

  /** The nearest distance so far, with the implicit default 100. */
  function EffectiveMin(row: Row): Option<real> {
    GetNumber(row, DistanceMin, 100.0)
  }

  /** The start time as a number, if the row has a numeric one. */
  function StartTimeOf(row: Row): Option<real> {
    if StartTime in row then AsNumber(row[StartTime]) else None
  }

  /** Key k holds the same thing, or nothing, in both rows. */
  predicate Same(a: Row, b: Row, k: Column) {
    (k in a <==> k in b) && (k in a ==> a[k] == b[k])
  }

  /** The row after a call, and the exception it raised, if any. Python
      writes keys one at a time, so a call that raises keeps what it had
      written before the raise. */
  datatype Update = Update(row: Row, error: Option<PyError>)

  /** `update_movement_in_dict` with the clock reading `now`. */
  function MovementUpdate(row: Row, now: real, d: int): (u: Update)
    ensures forall k :: k !in MovementKeys ==> Same(row, u.row, k)
    ensures u.error.None? ==> StartTimeOf(row).Some? && StartTimeOf(u.row) == StartTimeOf(row)
  {
    if StartTime !in row then Update(row, Some(KeyError(StartTime)))
    else
      match AsNumber(row[StartTime])
      case None => Update(row, Some(TypeError(StartTime)))
      case Some(start) =>
        var r1 := row[CurrentTime := Real(RoundTo2(now - start))][CurrentDistance := Int(d)];
        match GetNumber(r1, DistanceMax, 0.0)
        case None => Update(r1, Some(TypeError(DistanceMax)))
        case Some(mx) =>
          var r2 := if d as real > mx then r1[DistanceMax := Int(d)] else r1;
          match GetNumber(r2, DistanceMin, 100.0)
          case None => Update(r2, Some(TypeError(DistanceMin)))
          case Some(mn) =>
            var r3 := if d as real < mn then r2[DistanceMin := Int(d)] else r2;
            Update(r3, None)
  }

  function Max(a: real, b: real): real { if a < b then b else a }
  function Min(a: real, b: real): real { if a < b then a else b }

  /** The update succeeds exactly when the row has a numeric StartTime and no
      string under Distance_max or Distance_min; StartTime problems raise
      before anything is written. */
  lemma MovementUpdateRaises(row: Row, now: real, d: int)
    ensures MovementUpdate(row, now, d).error.None? <==>
      StartTimeOf(row).Some? && EffectiveMax(row).Some? && EffectiveMin(row).Some?
    ensures StartTimeOf(row).None? ==> MovementUpdate(row, now, d).row == row
  {
  }

  /** After a successful update: CurrentDistance is the argument, CurrentTime
      is the elapsed time to two decimals, the farthest distance is the
      larger of the old one and the argument, and the nearest the smaller;
      each is written only when the argument passes it. Hence
      min <= current <= max, max never drops and min never rises. */
  lemma MovementUpdateTracks(row: Row, now: real, d: int)
    requires MovementUpdate(row, now, d).error.None?
    ensures var u := MovementUpdate(row, now, d).row;
      && StartTimeOf(row).Some?
      && CurrentDistance in u && u[CurrentDistance] == Int(d)
      && CurrentTime in u && u[CurrentTime] == Real(RoundTo2(now - StartTimeOf(row).value))
      && EffectiveMax(row).Some? && EffectiveMax(u) == Some(Max(EffectiveMax(row).value, d as real))
      && EffectiveMin(row).Some? && EffectiveMin(u) == Some(Min(EffectiveMin(row).value, d as real))
      && (d as real > EffectiveMax(row).value ==> DistanceMax in u && u[DistanceMax] == Int(d))
      && (d as real <= EffectiveMax(row).value ==> Same(row, u, DistanceMax))
      && (d as real < EffectiveMin(row).value ==> DistanceMin in u && u[DistanceMin] == Int(d))
      && (d as real >= EffectiveMin(row).value ==> Same(row, u, DistanceMin))
  {
  }

  /** With no farthest distance recorded yet, a distance that is not
      positive leaves Distance_max absent (its implicit 0 already covers
      it); likewise a distance of at least 100 leaves Distance_min absent. */
  lemma MovementUpdateKeepsDefaults(row: Row, now: real, d: int)
    ensures DistanceMax !in row && d <= 0 ==> DistanceMax !in MovementUpdate(row, now, d).row
    ensures DistanceMin !in row && d >= 100 ==> DistanceMin !in MovementUpdate(row, now, d).row
  {
  }

  /** One call of the movement update: a clock reading and a distance. */
  datatype Move = Move(now: real, distance: int)

  /** A run of movement updates on one row, stopping at the first raise. */
  function Replay(row: Row, moves: seq<Move>): (u: Update)
    ensures forall k :: k !in MovementKeys ==> Same(row, u.row, k)
    decreases |moves|
  {
    if moves == [] then Update(row, None)
    else
      var u := MovementUpdate(row, moves[0].now, moves[0].distance);
      if u.error.Some? then u else Replay(u.row, moves[1..])
  }

  /** The largest and smallest distance in a run, starting from acc. */
  function MaxDistance(acc: real, moves: seq<Move>): real
    decreases |moves|
  {
    if moves == [] then acc else MaxDistance(Max(acc, moves[0].distance as real), moves[1..])
  }

  function MinDistance(acc: real, moves: seq<Move>): real
    decreases |moves|
  {
    if moves == [] then acc else MinDistance(Min(acc, moves[0].distance as real), moves[1..])
  }

  /** After any run of successful updates, the farthest and nearest distances
      are the extremes of the starting values and every distance of the run,
      and the last distance lies between them. */
  lemma {:induction false} ReplayTracksExtremes(row: Row, moves: seq<Move>)
    requires moves != []
    requires Replay(row, moves).error.None?
    ensures var r := Replay(row, moves).row;
      && EffectiveMax(row).Some? && EffectiveMin(row).Some?
      && EffectiveMax(r) == Some(MaxDistance(EffectiveMax(row).value, moves))
      && EffectiveMin(r) == Some(MinDistance(EffectiveMin(row).value, moves))
      && CurrentDistance in r && r[CurrentDistance] == Int(moves[|moves| - 1].distance)
      && EffectiveMin(r).value <= moves[|moves| - 1].distance as real <= EffectiveMax(r).value
    decreases |moves|
  {
    var u := MovementUpdate(row, moves[0].now, moves[0].distance);
    MovementUpdateTracks(row, moves[0].now, moves[0].distance);
    if |moves| == 1 {
      assert Replay(u.row, moves[1..]) == Update(u.row, None);
    } else {
      ReplayTracksExtremes(u.row, moves[1..]);
      MaxDistanceBounds(EffectiveMax(u.row).value, moves[1..]);
      MinDistanceBounds(EffectiveMin(u.row).value, moves[1..]);
    }
  }

  /** The running maximum is at least the last distance; the running minimum
      at most. */
  lemma {:induction false} MaxDistanceBounds(acc: real, moves: seq<Move>)
    requires moves != []
    ensures MaxDistance(acc, moves) >= moves[|moves| - 1].distance as real
    ensures MaxDistance(acc, moves) >= acc
    decreases |moves|
  {
    if |moves| > 1 {
      MaxDistanceBounds(Max(acc, moves[0].distance as real), moves[1..]);
    }
  }

  lemma {:induction false} MinDistanceBounds(acc: real, moves: seq<Move>)
    requires moves != []
    ensures MinDistance(acc, moves) <= moves[|moves| - 1].distance as real
    ensures MinDistance(acc, moves) <= acc
    decreases |moves|
  {
    if |moves| > 1 {
      MinDistanceBounds(Min(acc, moves[0].distance as real), moves[1..]);
    }
  }
}
