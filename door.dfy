/** One door trial: the participant may press forward or backward once, the
    door then opens or stays locked, and an opened door pays a reward or takes
    a punishment. Random draws and clock readings are inputs. */
module Door {
  import opened PyRound
  import opened Location
  import opened Record

  /** How a trial ends. */
  datatype Outcome = Locked | Rewarded | Punished

  /** The three `random.random()` draws of a trial, each in [0, 1): whether
      the door opens, whether an opened door rewards, and the extra
      anticipation wait. */
  datatype Draws = Draws(open: real, reward: real, anticipation: real)

  /** The `time.time()` readings of a trial: when movement is taken, when the
      movement update runs, when the outcome is stored, when the reaction time
      is taken. */
  datatype Clock = Clock(start: real, onMove: real, onOutcome: real, onReaction: real)

  /** What the participant and the environment supply to one trial: the
      starting location drawn by the door setup, the two buttons, the draws
      and the clock. */
  datatype Interaction = Interaction(startLocation: real, forward: bool, backward: bool, draws: Draws, clock: Clock)

  /** A finished trial gives the new row, the coin total and the picture
      scale; a trial that raised keeps what it had written. */
  datatype TrialResult =
    | Finished(row: Row, total: int, scale: real)
    | Raised(row: Row, error: PyError)

  /** The steps the door takes. */
  const ForwardUnits: int := 10
  const BackwardUnits: int := -10

  /** The keys a trial may write. */
  const TrialKeys: set<Column> := MovementKeys + {
    DistanceAtStart, ScenarioIndex, DoorOpened, DoorStatus, DidWin,
    DoorOutcome, TotalCoins, DoorActionRT, DoorAnticipationTime}

  /** The keys the outcome step writes. */
  const OutcomeKeys: set<Column> := {DoorOpened, DoorStatus, DidWin, DoorOutcome, ScenarioIndex}

  /** The keys written from the door test on. */
  const ConcludeKeys: set<Column> := OutcomeKeys + {TotalCoins, CurrentTime, DoorActionRT, DoorAnticipationTime}

  /** The door opens when the first draw is at most location / 100; an opened
      door rewards when the second draw is at least one half. */
  function ResolveOutcome(location: real, openDraw: real, rewardDraw: real): (o: Outcome)
    ensures o.Locked? <==> openDraw > location / 100.0
    ensures o.Rewarded? <==> openDraw <= location / 100.0 && rewardDraw >= 0.5
    ensures o.Punished? <==> openDraw <= location / 100.0 && rewardDraw < 0.5
  {
    if openDraw <= location / 100.0 then
      if rewardDraw >= 0.5 then Rewarded else Punished
    else Locked
  }

  /** The coins an outcome adds to the total: nothing for a locked door, the
      reward, or the punishment taken away. With stakes that are not negative
      a reward never lowers the total and a punishment never raises it. */
  function CoinDelta(o: Outcome, reward: int, punishment: int): (c: int)
    ensures o.Locked? ==> c == 0
    ensures o.Rewarded? ==> c == reward
    ensures o.Punished? ==> c + punishment == 0
    ensures reward >= 0 && punishment >= 0 ==> (o.Rewarded? ==> c >= 0) && (o.Punished? ==> c <= 0)
  {
    match o
    case Locked => 0
    case Rewarded => reward
    case Punished => -1 * punishment
  }

  /** The location the door test sees: a pressed button replaces the raw
      location by the normalised distance `move_screen` returns. */
  function MovedLocation(location: real, forward: bool, backward: bool): (m: real)
    ensures !forward && !backward ==> m == location
    ensures forward || backward ==> 0.0 <= m <= 100.0 && m.Floor as real == m
    ensures forward ==> m >= NormalizeLocation(location) as real
    ensures !forward && backward ==> m <= NormalizeLocation(location) as real
  {
    MoveScreenDirection(location, ForwardUnits);
    MoveScreenDirection(location, BackwardUnits);
    if forward then MoveScreen(location, ForwardUnits) as real
    else if backward then MoveScreen(location, BackwardUnits) as real
    else location
  }

  /** The picture scale after the presses, starting from 1.0: one step up
      for forward (which wins when both are pressed), one step down for
      backward. */
  function PressScale(forward: bool, backward: bool): (s: real)
    ensures MinScale <= s <= MaxScale
    ensures s == if forward then 1.1 else if backward then 0.9 else 1.0
  {
    if forward then StepScale(1.0, ScaleStep)
    else if backward then StepScale(1.0, -ScaleStep)
    else 1.0
  }

  /** The extremes the trial starts from: `round(normalize_location(location))`,
      which is the normalised distance itself. */
  function StartDistance(location: real): (n: int)
    ensures n == NormalizeLocation(location)
    ensures 0 <= n <= 100
  {
    RoundHalfEvenOfInt(NormalizeLocation(location));
    RoundHalfEven(NormalizeLocation(location) as real)
  }

  /** The columns written before any movement: the start distance, both
      extremes at the normalised start location n, and the scenario index. */
  function InitTracking(row: Row, location: real, n: int, scenarioIndex: int): (r: Row)
    ensures EffectiveMax(r) == Some(n as real) && EffectiveMin(r) == Some(n as real)
    ensures DistanceMax in r && r[DistanceMax] == Int(n) && DistanceMin in r && r[DistanceMin] == Int(n)
    ensures StartTimeOf(r) == StartTimeOf(row)
    ensures forall k :: k !in TrialKeys ==> Same(row, r, k)
    ensures Same(row, r, DidWin) && Same(row, r, DoorOutcome)
    ensures DistanceAtStart in r && r[DistanceAtStart] == Real(location * 100.0)
    ensures ScenarioIndex in r && r[ScenarioIndex] == Int(scenarioIndex)
  {
    row[DistanceAtStart := Real(location * 100.0)]
       [DistanceMax := Int(n)]
       [DistanceMin := Int(n)]
       [ScenarioIndex := Int(scenarioIndex)]
  }

  /** The outcome columns, in the order the trial writes them. Door_opened
      and DoorStatus agree on whether the door opened; an opened door sets
      DidWin to 1 exactly on a reward; a locked door keeps DidWin and
      Door_outcome; each outcome moves the scenario index by its own offset. */
  function RecordOutcome(row: Row, o: Outcome, scenarioIndex: int): (r: Row)
    ensures DoorOpened in r && DoorStatus in r && ScenarioIndex in r
    ensures (r[DoorOpened] == Int(1) <==> !o.Locked?) && (r[DoorStatus] == Text("opened") <==> !o.Locked?)
    ensures o.Locked? ==> Same(row, r, DidWin) && Same(row, r, DoorOutcome)
    ensures !o.Locked? ==> DidWin in r && (r[DidWin] == Int(1) <==> o.Rewarded?)
    ensures r[ScenarioIndex] == Int(scenarioIndex + (if o.Rewarded? then 100 else if o.Punished? then 200 else 50))
  {
    var withStatus := row[DoorOpened := Int(if o.Locked? then 0 else 1)]
                         [DoorStatus := Text(if o.Locked? then "closed" else "opened")];
    match o
    case Rewarded =>
      withStatus[DidWin := Int(1)][DoorOutcome := Text("reward")][ScenarioIndex := Int(scenarioIndex + 100)]
    case Punished =>
      withStatus[DidWin := Int(0)][DoorOutcome := Text("punishment")][ScenarioIndex := Int(scenarioIndex + 200)]
    case Locked =>
      withStatus[ScenarioIndex := Int(scenarioIndex + 50)]
  }

  /** The row and total after the outcome is resolved and recorded. */
  datatype Concluded = Concluded(row: Row, total: int)

  /** The trial from the door test on, for the location the door test sees
      and the numeric start time of the row. */
  function Conclude(row: Row, start: real, location: real, reward: int, punishment: int, totalCoins: int,
                    scenarioIndex: int, draws: Draws, clock: Clock): (c: Concluded)
    ensures TotalCoins in c.row && c.row[TotalCoins] == Int(c.total)
    ensures c.total == totalCoins || c.total == totalCoins + reward || c.total == totalCoins - punishment
    ensures CurrentTime in c.row && c.row[CurrentTime].Real?
    ensures clock.onOutcome - start - 0.005 <= c.row[CurrentTime].x <= clock.onOutcome - start + 0.005
  {
    var o := ResolveOutcome(location, draws.open, draws.reward);
    var total := totalCoins + CoinDelta(o, reward, punishment);
    var r := RecordOutcome(row, o, scenarioIndex)
               [TotalCoins := Int(total)]
               [CurrentTime := Real(RoundTo2(clock.onOutcome - start))]
               [DoorActionRT := Real(RoundTo2((clock.onReaction - clock.start) * 1000.0))]
               [DoorAnticipationTime := Real((3.0 + draws.anticipation) * 1000.0)];
    Concluded(r, total)
  }

  /** The trial from the movement update on, for the location the door test
      sees and its normalised distance d. */
  function Settle(row: Row, location: real, d: int, reward: int, punishment: int, totalCoins: int,
                  scenarioIndex: int, draws: Draws, clock: Clock, scale: real): (t: TrialResult)
    ensures t.Raised? <==> MovementUpdate(row, clock.onMove, d).error.Some?
    ensures t.Finished? ==> t.scale == scale && StartTimeOf(t.row) == StartTimeOf(row)
  {
    var u := MovementUpdate(row, clock.onMove, d);
    match u.error
    case Some(e) => Raised(u.row, e)
    case None =>
      var start := StartTimeOf(u.row).value;
      var c := Conclude(u.row, start, location, reward, punishment, totalCoins, scenarioIndex, draws, clock);
      Finished(c.row, c.total, scale)
  }

  /** The deterministic part of `start_door`, up to the anticipation wait.
      The location after a press is already normalised and is normalised
      once more for the movement update, as the trial code does. */
  function DoorTrial(row: Row, reward: int, punishment: int, totalCoins: int, scenarioIndex: int,
                     env: Interaction): (t: TrialResult)
    ensures t.Raised? <==> StartTimeOf(row).None?
    ensures t.Raised? ==> t.error == if StartTime in row then TypeError(StartTime) else KeyError(StartTime)
    ensures t.Finished? ==> MinScale <= t.scale <= MaxScale
  {
    var location := MovedLocation(env.startLocation, env.forward, env.backward);
    var r1 := InitTracking(row, env.startLocation, StartDistance(env.startLocation), scenarioIndex);
    MovementUpdateRaises(r1, env.clock.onMove, NormalizeLocation(location));
    Settle(r1, location, NormalizeLocation(location), reward, punishment, totalCoins, scenarioIndex,
           env.draws, env.clock, PressScale(env.forward, env.backward))
  }

  /** Settle raises only in the movement update, and on a row whose
      extremes are numbers only for want of a numeric StartTime. */
  lemma SettleRaises(row: Row, location: real, d: int, reward: int, punishment: int, totalCoins: int,
                     scenarioIndex: int, draws: Draws, clock: Clock, scale: real)
    requires EffectiveMax(row).Some? && EffectiveMin(row).Some?
    ensures var t := Settle(row, location, d, reward, punishment, totalCoins, scenarioIndex, draws, clock, scale);
      && (t.Raised? <==> StartTimeOf(row).None?)
      && (t.Raised? ==> t.row == row)
      && (t.Finished? ==> t.scale == scale)
  {
    MovementUpdateRaises(row, clock.onMove, d);
  }

  /** Settle records its outcome as OutcomeRecorded describes. */
  lemma SettleOutcome(row: Row, location: real, d: int, reward: int, punishment: int, totalCoins: int,
                      scenarioIndex: int, draws: Draws, clock: Clock, scale: real)
    requires StartTimeOf(row).Some? && EffectiveMax(row).Some? && EffectiveMin(row).Some?
    ensures var t := Settle(row, location, d, reward, punishment, totalCoins, scenarioIndex, draws, clock, scale);
      OutcomeRecorded(row, t, location, draws, reward, punishment, totalCoins, scenarioIndex)
  {
    var u := MovementUpdate(row, clock.onMove, d);
    MovementUpdateRaises(row, clock.onMove, d);
    assert StartTimeOf(u.row) == StartTimeOf(row);
    assert Same(row, u.row, DidWin) && Same(row, u.row, DoorOutcome);
  }

  /** Settle tracks the distance d as the movement update does. */
  lemma SettleDistances(row: Row, location: real, d: int, reward: int, punishment: int, totalCoins: int,
                        scenarioIndex: int, draws: Draws, clock: Clock, scale: real)
    requires StartTimeOf(row).Some? && EffectiveMax(row).Some? && EffectiveMin(row).Some?
    ensures var t := Settle(row, location, d, reward, punishment, totalCoins, scenarioIndex, draws, clock, scale);
      && t.Finished?
      && CurrentDistance in t.row && t.row[CurrentDistance] == Int(d)
      && (d as real > EffectiveMax(row).value ==> DistanceMax in t.row && t.row[DistanceMax] == Int(d))
      && (d as real <= EffectiveMax(row).value ==> Same(row, t.row, DistanceMax))
      && (d as real < EffectiveMin(row).value ==> DistanceMin in t.row && t.row[DistanceMin] == Int(d))
      && (d as real >= EffectiveMin(row).value ==> Same(row, t.row, DistanceMin))
  {
    var u := MovementUpdate(row, clock.onMove, d);
    MovementUpdateRaises(row, clock.onMove, d);
    MovementUpdateTracks(row, clock.onMove, d);
    assert StartTimeOf(u.row) == StartTimeOf(row);
  }

  /** Settle writes no column outside TrialKeys. */
  lemma SettleFrame(row: Row, location: real, d: int, reward: int, punishment: int, totalCoins: int,
                    scenarioIndex: int, draws: Draws, clock: Clock, scale: real, k: Column)
    requires k !in TrialKeys
    ensures Same(row, Settle(row, location, d, reward, punishment, totalCoins, scenarioIndex, draws, clock, scale).row, k)
  {
    var u := MovementUpdate(row, clock.onMove, d);
    assert Same(row, u.row, k);
  }

  /** The timing columns of a finished trial: CurrentTime is the time
      elapsed since the start time at the outcome, DoorAction_RT the
      reaction time in milliseconds, both to two decimals, and
      Door_anticipation_time the anticipation wait in milliseconds. */
  predicate TimesRecorded(t: TrialResult, start: real, draws: Draws, clock: Clock) {
    && t.Finished?
    && CurrentTime in t.row && t.row[CurrentTime] == Real(RoundTo2(clock.onOutcome - start))
    && DoorActionRT in t.row && t.row[DoorActionRT] == Real(RoundTo2((clock.onReaction - clock.start) * 1000.0))
    && DoorAnticipationTime in t.row && t.row[DoorAnticipationTime] == Real((3.0 + draws.anticipation) * 1000.0)
  }

  /** Settle writes the timing columns from the start time of the row and
      leaves DistanceAtStart alone. */
  lemma SettleTimes(row: Row, location: real, d: int, reward: int, punishment: int, totalCoins: int,
                    scenarioIndex: int, draws: Draws, clock: Clock, scale: real)
    requires StartTimeOf(row).Some? && EffectiveMax(row).Some? && EffectiveMin(row).Some?
    ensures var t := Settle(row, location, d, reward, punishment, totalCoins, scenarioIndex, draws, clock, scale);
      && TimesRecorded(t, StartTimeOf(row).value, draws, clock)
      && StartTimeOf(t.row) == StartTimeOf(row)
      && Same(row, t.row, DistanceAtStart)
  {
    var u := MovementUpdate(row, clock.onMove, d);
    MovementUpdateRaises(row, clock.onMove, d);
    assert StartTimeOf(u.row) == StartTimeOf(row);
    assert Same(row, u.row, DistanceAtStart);
  }

  /** What a finished trial records about its outcome, for the location the
      door test sees. The door opens exactly when the first draw is at most
      location / 100. An opened door with a second draw of at least one half
      adds the reward, sets DidWin to 1 and moves the scenario index up by
      100; below one half it takes the punishment, sets DidWin to 0 and moves
      the index up by 200. A locked door keeps the total and the old DidWin
      and Door_outcome, and moves the index up by 50. Total_coins always
      holds the returned total. */
  predicate OutcomeRecorded(row: Row, t: TrialResult, location: real, draws: Draws,
                            reward: int, punishment: int, totalCoins: int, scenarioIndex: int)
  {
    var opens := draws.open <= location / 100.0;
    && t.Finished?
    && TotalCoins in t.row && t.row[TotalCoins] == Int(t.total)
    && DoorOpened in t.row && t.row[DoorOpened] == Int(if opens then 1 else 0)
    && DoorStatus in t.row && t.row[DoorStatus] == Text(if opens then "opened" else "closed")
    && ScenarioIndex in t.row
    && (opens && draws.reward >= 0.5 ==>
          && t.total == totalCoins + reward
          && DidWin in t.row && t.row[DidWin] == Int(1)
          && DoorOutcome in t.row && t.row[DoorOutcome] == Text("reward")
          && t.row[ScenarioIndex] == Int(scenarioIndex + 100))
    && (opens && draws.reward < 0.5 ==>
          && t.total == totalCoins - punishment
          && DidWin in t.row && t.row[DidWin] == Int(0)
          && DoorOutcome in t.row && t.row[DoorOutcome] == Text("punishment")
          && t.row[ScenarioIndex] == Int(scenarioIndex + 200))
    && (!opens ==>
          && t.total == totalCoins
          && Same(row, t.row, DidWin) && Same(row, t.row, DoorOutcome)
          && t.row[ScenarioIndex] == Int(scenarioIndex + 50))
  }

  /** A trial raises exactly when the row has no numeric StartTime, and then
      only the start columns have been written. */
  lemma DoorTrialRaises(row: Row, reward: int, punishment: int, totalCoins: int, scenarioIndex: int,
                        env: Interaction)
    ensures DoorTrial(row, reward, punishment, totalCoins, scenarioIndex, env).Raised? <==> StartTimeOf(row).None?
    ensures StartTimeOf(row).None? ==>
      DoorTrial(row, reward, punishment, totalCoins, scenarioIndex, env).row
        == InitTracking(row, env.startLocation, StartDistance(env.startLocation), scenarioIndex)
  {
    var location := MovedLocation(env.startLocation, env.forward, env.backward);
    var r1 := InitTracking(row, env.startLocation, StartDistance(env.startLocation), scenarioIndex);
    SettleRaises(r1, location, NormalizeLocation(location), reward, punishment, totalCoins, scenarioIndex,
                 env.draws, env.clock, PressScale(env.forward, env.backward));
  }

  /** The outcome columns and the total of a finished trial, for the location
      after the presses. */
  lemma DoorTrialOutcome(row: Row, reward: int, punishment: int, totalCoins: int, scenarioIndex: int,
                         env: Interaction)
    requires StartTimeOf(row).Some?
    ensures OutcomeRecorded(row, DoorTrial(row, reward, punishment, totalCoins, scenarioIndex, env),
                            MovedLocation(env.startLocation, env.forward, env.backward), env.draws,
                            reward, punishment, totalCoins, scenarioIndex)
  {
    var location := MovedLocation(env.startLocation, env.forward, env.backward);
    var r1 := InitTracking(row, env.startLocation, StartDistance(env.startLocation), scenarioIndex);
    SettleOutcome(r1, location, NormalizeLocation(location), reward, punishment, totalCoins, scenarioIndex,
                  env.draws, env.clock, PressScale(env.forward, env.backward));
  }

  /** After a finished trial the current distance is the normalised moved
      location, the farthest is the larger and the nearest the smaller of the
      start and current distances, all in [0, 100], so
      Distance_min <= CurrentDistance <= Distance_max. */
  lemma DoorTrialDistances(row: Row, reward: int, punishment: int, totalCoins: int, scenarioIndex: int,
                           env: Interaction)
    requires StartTimeOf(row).Some?
    ensures var t := DoorTrial(row, reward, punishment, totalCoins, scenarioIndex, env);
      var n0 := NormalizeLocation(env.startLocation);
      var d := NormalizeLocation(MovedLocation(env.startLocation, env.forward, env.backward));
      && t.Finished?
      && CurrentDistance in t.row && t.row[CurrentDistance] == Int(d)
      && DistanceMax in t.row && t.row[DistanceMax] == Int(if n0 < d then d else n0)
      && DistanceMin in t.row && t.row[DistanceMin] == Int(if d < n0 then d else n0)
      && 0 <= (if d < n0 then d else n0) <= d <= (if n0 < d then d else n0) <= 100
  {
    var location := MovedLocation(env.startLocation, env.forward, env.backward);
    var n0 := NormalizeLocation(env.startLocation);
    RoundHalfEvenOfInt(n0);
    var r1 := InitTracking(row, env.startLocation, StartDistance(env.startLocation), scenarioIndex);
    SettleDistances(r1, location, NormalizeLocation(location), reward, punishment, totalCoins, scenarioIndex,
                    env.draws, env.clock, PressScale(env.forward, env.backward));
  }

  /** A trial writes no column outside TrialKeys. */
  lemma DoorTrialFrame(row: Row, reward: int, punishment: int, totalCoins: int, scenarioIndex: int,
                       env: Interaction, k: Column)
    requires k !in TrialKeys
    ensures Same(row, DoorTrial(row, reward, punishment, totalCoins, scenarioIndex, env).row, k)
  {
    var location := MovedLocation(env.startLocation, env.forward, env.backward);
    var r1 := InitTracking(row, env.startLocation, StartDistance(env.startLocation), scenarioIndex);
    SettleFrame(r1, location, NormalizeLocation(location), reward, punishment, totalCoins, scenarioIndex,
                env.draws, env.clock, PressScale(env.forward, env.backward), k);
  }

  /** What a finished trial writes about its timing: StartTime is kept,
      DistanceAtStart is the start location times 100, CurrentTime is the
      elapsed time since StartTime at the outcome (it replaces the one the
      movement update wrote), DoorAction_RT is the reaction time in
      milliseconds to two decimals, and Door_anticipation_time is the
      anticipation wait in milliseconds. */
  lemma DoorTrialTimes(row: Row, reward: int, punishment: int, totalCoins: int, scenarioIndex: int,
                       env: Interaction)
    requires StartTimeOf(row).Some?
    ensures var t := DoorTrial(row, reward, punishment, totalCoins, scenarioIndex, env);
      && TimesRecorded(t, StartTimeOf(row).value, env.draws, env.clock)
      && StartTimeOf(t.row) == StartTimeOf(row)
      && DistanceAtStart in t.row && t.row[DistanceAtStart] == Real(env.startLocation * 100.0)
  {
    var location := MovedLocation(env.startLocation, env.forward, env.backward);
    var r1 := InitTracking(row, env.startLocation, StartDistance(env.startLocation), scenarioIndex);
    SettleTimes(r1, location, NormalizeLocation(location), reward, punishment, totalCoins, scenarioIndex,
                env.draws, env.clock, PressScale(env.forward, env.backward));
    assert StartTimeOf(r1) == StartTimeOf(row);
  }

  /** The picture scale is 1.1 after a forward press, 0.9 after a backward
      press (forward wins when both are pressed), 1.0 otherwise, and always
      within [MinScale, MaxScale]. */
  lemma DoorTrialScale(row: Row, reward: int, punishment: int, totalCoins: int, scenarioIndex: int,
                       env: Interaction)
    requires StartTimeOf(row).Some?
    ensures var t := DoorTrial(row, reward, punishment, totalCoins, scenarioIndex, env);
      && t.Finished?
      && MinScale <= t.scale <= MaxScale
      && t.scale == (if env.forward then 1.1 else if env.backward then 0.9 else 1.0)
  {
    var location := MovedLocation(env.startLocation, env.forward, env.backward);
    var r1 := InitTracking(row, env.startLocation, StartDistance(env.startLocation), scenarioIndex);
    SettleRaises(r1, location, NormalizeLocation(location), reward, punishment, totalCoins, scenarioIndex,
                 env.draws, env.clock, PressScale(env.forward, env.backward));
  }

  /** Without a press the door test compares the draw with a raw location,
      so a door only opens for a draw of at most MaxLocation / 100 = 0.0185.
      After a press the location is a normalised distance in [0, 100] and the
      draw is compared with that distance / 100. */
  lemma DoorOpenThreshold(location: real, forward: bool, backward: bool, openDraw: real, rewardDraw: real)
    ensures (!forward && !backward && location <= MaxLocation &&
             ResolveOutcome(MovedLocation(location, forward, backward), openDraw, rewardDraw) != Locked)
            ==> openDraw <= 0.0185
    ensures forward || backward ==>
      var d := MovedLocation(location, forward, backward);
      0.0 <= d <= 100.0 && d.Floor as real == d
  {
  }

  /** A press makes the distance recorded for the trial the normalisation of
      an already normalised distance: it is always 50, 77 or 100. */
  lemma PressedDistanceRenormalized(row: Row, reward: int, punishment: int, totalCoins: int,
                                    scenarioIndex: int, env: Interaction)
    requires StartTimeOf(row).Some?
    requires env.forward || env.backward
    ensures var t := DoorTrial(row, reward, punishment, totalCoins, scenarioIndex, env);
      && t.Finished? && CurrentDistance in t.row
      && t.row[CurrentDistance] in {Int(50), Int(77), Int(100)}
  {
    DoorTrialDistances(row, reward, punishment, totalCoins, scenarioIndex, env);
    var moved := if env.forward then MoveScreen(env.startLocation, ForwardUnits)
                 else MoveScreen(env.startLocation, BackwardUnits);
    NormalizeOfDistance(moved);
  }

  /** The trial row, changed in place by the trial code. */
  class TrialRecord {
    var row: Row

    constructor (initial: Row)
      ensures row == initial
    {
      row := initial;
    }

    /** `update_movement_in_dict`, writing the row key by key. */
    method UpdateMovement(now: real, d: int) returns (error: Option<PyError>)
      modifies this
      ensures row == MovementUpdate(old(row), now, d).row
      ensures error == MovementUpdate(old(row), now, d).error
    {
      if StartTime !in row {
        return Some(KeyError(StartTime));
      }
      var start := AsNumber(row[StartTime]);
      if start.None? {
        return Some(TypeError(StartTime));
      }
      row := row[CurrentTime := Real(RoundTo2(now - start.value))];
      row := row[CurrentDistance := Int(d)];
      var mx := GetNumber(row, DistanceMax, 0.0);
      if mx.None? {
        return Some(TypeError(DistanceMax));
      }
      if d as real > mx.value {
        row := row[DistanceMax := Int(d)];
      }
      var mn := GetNumber(row, DistanceMin, 100.0);
      if mn.None? {
        return Some(TypeError(DistanceMin));
      }
      if d as real < mn.value {
        row := row[DistanceMin := Int(d)];
      }
      error := None;
    }

    /** The door test of `start_door` and the columns written after it, up
        to the anticipation wait. */
    method ResolveDoor(start: real, location: real, reward: int, punishment: int, totalCoins: int,
                       scenarioIndex: int, draws: Draws, clock: Clock)
      returns (total: int)
      modifies this
      ensures Concluded(row, total)
        == Conclude(old(row), start, location, reward, punishment, totalCoins, scenarioIndex, draws, clock)
    {
      total := totalCoins;
      var isDoorOpening := draws.open <= location / 100.0;
      row := row[DoorOpened := Int(if isDoorOpening then 1 else 0)];
      row := row[DoorStatus := Text(if isDoorOpening then "opened" else "closed")];
      if isDoorOpening {
        var coins: int;
        if draws.reward >= 0.5 {
          coins := reward;
          row := row[DidWin := Int(1)];
          row := row[DoorOutcome := Text("reward")];
          row := row[ScenarioIndex := Int(scenarioIndex + 100)];
        } else {
          coins := -1 * punishment;
          row := row[DidWin := Int(0)];
          row := row[DoorOutcome := Text("punishment")];
          row := row[ScenarioIndex := Int(scenarioIndex + 200)];
        }
        total := total + coins;
      } else {
        row := row[ScenarioIndex := Int(scenarioIndex + 50)];
      }
      ghost var o := ResolveOutcome(location, draws.open, draws.reward);
      assert row == RecordOutcome(old(row), o, scenarioIndex);
      assert total == totalCoins + CoinDelta(o, reward, punishment);

      row := row[TotalCoins := Int(total)];
      row := row[CurrentTime := Real(RoundTo2(clock.onOutcome - start))];
      var totalTime := clock.onReaction - clock.start;
      row := row[DoorActionRT := Real(RoundTo2(totalTime * 1000.0))];
      var doorWaitTime := 3.0 + draws.anticipation;
      row := row[DoorAnticipationTime := Real(doorWaitTime * 1000.0)];
      ghost var c := Conclude(old(row), start, location, reward, punishment, totalCoins, scenarioIndex, draws, clock);
      assert c.total == total;
      assert c.row == row;
    }

    /** `start_door` from the starting location to the anticipation wait. On
        a raise the total is the one passed in and the scale is meaningless. */
    method StartDoor(reward: int, punishment: int, totalCoins: int, scenarioIndex: int, env: Interaction)
      returns (total: int, scale: real, error: Option<PyError>)
      modifies this
      ensures match DoorTrial(old(row), reward, punishment, totalCoins, scenarioIndex, env)
        case Finished(r, t, s) => row == r && total == t && scale == s && error.None?
        case Raised(r, e) => row == r && total == totalCoins && error == Some(e)
    {
      scale := 1.0;
      var location := env.startLocation;
      row := row[DistanceAtStart := Real(location * 100.0)];
      var startDistance := StartDistance(location);
      row := row[DistanceMax := Int(startDistance)];
      row := row[DistanceMin := Int(startDistance)];
      row := row[ScenarioIndex := Int(scenarioIndex)];
      assert row == InitTracking(old(row), env.startLocation, StartDistance(env.startLocation), scenarioIndex);
      ghost var tracked := row;

      if env.forward {
        location := MoveScreen(location, ForwardUnits) as real;
        scale := StepScale(scale, ScaleStep);
      } else if env.backward {
        location := MoveScreen(location, BackwardUnits) as real;
        scale := StepScale(scale, -ScaleStep);
      }

      assert location == MovedLocation(env.startLocation, env.forward, env.backward);
      assert scale == PressScale(env.forward, env.backward);
      var locationNormalized := NormalizeLocation(location);
      ghost var settled := Settle(tracked, location, locationNormalized, reward, punishment, totalCoins,
                                  scenarioIndex, env.draws, env.clock, scale);
      assert settled == DoorTrial(old(row), reward, punishment, totalCoins, scenarioIndex, env);
      total := totalCoins;
      error := UpdateMovement(env.clock.onMove, locationNormalized);
      if error.Some? {
        return;
      }
      var start := StartTimeOf(row).value;
      total := ResolveDoor(start, location, reward, punishment, totalCoins, scenarioIndex,
                           env.draws, env.clock);
      assert settled == Finished(row, total, scale);
    }
  }
}
