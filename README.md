# Door task trial logic, in Dafny

This project models the per-trial arithmetic of the door approach/avoidance task in
`DoorPlayInfra.py`. A participant stands in front of a door that carries a reward and
a punishment. They may press "Move Forward" or "Move Backward" once. The door then opens
or stays locked by a random draw. An opened door pays the reward or takes the punishment,
by a second draw. Every step is written into the trial row, a dictionary of columns.

The model has four modules:

- `PyRound` (`rounding.dfy`): Python's `round(x)` and `round(x, 2)` over exact reals.
  Both round half to even.
- `Location` (`location.dfy`): `normalize_location` and `move_screen`. It also has the
  picture-scale clamp of `start_door`.
  - The clamp range for a raw location is [-1.1, 1.85].
  - The normalised distance is an integer in [0, 100], with 50 at the origin.
- `Record` (`record.dfy`): the trial row and `update_movement_in_dict`.
  - Each column is a `Column` constructor. A column a caller adds is `Other(name)`.
    `ColumnName` gives each column's Python key; a caller's `Other(name)` never uses
    one of those keys.
  - The dictionary exceptions are modelled. A missing `StartTime` raises `KeyError`.
    A string where a number is compared raises `TypeError`. Python writes keys one at a
    time, so a call that raises keeps the keys it wrote before the raise.
  - `Replay` runs any number of movement updates in a row.
- `Door` (`door.dfy`): the deterministic part of `start_door`, lines 130-196.
  - The class `TrialRecord` holds the row and changes it in place.
  - `UpdateMovement`, `ResolveDoor` and `StartDoor` write the row key by key, in the
    source's order. Each is proved equal to a specification function:
    `MovementUpdate`, `Conclude` and `DoorTrial`.
  - The lemmas about those functions state the outcome, distance, scale, error and
    frame properties.

Randomness and the clock are inputs:

- `Draws` holds the three `random.random()` results of a trial.
- `Clock` holds the `time.time()` readings.
- `Interaction.startLocation` is the location that `setup_door` draws.

## Behaviour as written

The model follows the code in four places where the result may surprise a reader:

- **Both roundings are half to even.** `normalize_location(0.1)` is 52, not 53:
  10/1.85 rounds to 5, and 52.5 then rounds to 52. `normalize_location(-0.1)` is 46,
  not 45: the tie 45.5 rounds to the even 46. These values are proved in
  `Location.NormalizeExamples`.
- **A pressed location is normalised twice.** After a press, `location` is the value
  `move_screen` returns, which is already a normalised distance in [0, 100]. Line 152
  normalises it once more. So the recorded `CurrentDistance` is always 50, 77 or 100,
  as `Door.PressedDistanceRenormalized` proves.
- **The door test divides by 100.** The test at line 159 compares the first draw with
  `location / 100`.
  - Without a press, `location` is a raw location of at most 1.85, so the door opens
    only for a draw of at most 0.0185.
  - After a press, `location` is the normalised distance, so the threshold is that
    distance / 100.
- **A locked door leaves `DidWin` and `Door_outcome` alone.** Whatever the row held
  before stays in those columns.

## Model

| member | source | states |
|---|---|---|
| `PyRound.RoundHalfEven` | DoorPlayInfra.py:38-42 | the result is within one half of the argument, and is even when the argument lies exactly halfway |
| `PyRound.RoundHalfEvenUnique` | DoorPlayInfra.py:38-42 | any integer within one half of x, and even on a tie, is `round(x)`: the two properties fix the rounding |
| `PyRound.RoundHalfEvenOfInt` | DoorPlayInfra.py:135-136 | rounding an integer returns it, so `round(normalize_location(location))` is the normalised value |
| `PyRound.RoundHalfEvenMonotone` | DoorPlayInfra.py:38-42 | rounding preserves order |
| `PyRound.RoundTo2` | DoorPlayInfra.py:45 | `round(x, 2)` is within 0.005 of x, is a whole number of hundredths, and on a tie is the even hundredth |
| `PyRound.RoundTo2Tie` | DoorPlayInfra.py:45 | `round(0.125, 2)` is 0.12: a tie at the second decimal goes to the even hundredth |
| `Location.Clamp` | DoorPlayInfra.py:32-35 | the result is in [-1.1, 1.85]; a location inside the range is unchanged; one past a bound becomes that bound |
| `Location.SignedPercent` | DoorPlayInfra.py:37-40 | the signed percentage of a clamped location is in [-100, 100], with the sign of the location |
| `Location.NormalizeLocation` | DoorPlayInfra.py:31-42 | for every input the normalised distance is an integer in [0, 100] |
| `Location.NormalizeOrigin` | DoorPlayInfra.py:37-42 | `normalize_location(0) == 50` |
| `Location.NormalizeSaturates` | DoorPlayInfra.py:31-42 | every input >= 1.85 gives 100 and every input <= -1.1 gives 0, so the function is constant outside the clamp range |
| `Location.SignedPercentMonotone` | DoorPlayInfra.py:37-40 | the signed percentage preserves order, including across the change of scale at 0 |
| `Location.NormalizeMonotone` | DoorPlayInfra.py:31-42 | `normalize_location` is monotone non-decreasing |
| `Location.NormalizeExamples` | DoorPlayInfra.py:38-42 | 0.1 gives 52, -0.1 gives 46 and 0.13 gives 54, by the two half-to-even roundings |
| `Location.NormalizeOfDistance` | DoorPlayInfra.py:152 | normalising a normalised distance d gives 50 for d = 0, 77 for d = 1 and 100 for every d >= 2 |
| `Location.MoveScreen` | DoorPlayInfra.py:68-71 | `move_screen` returns a normalised distance in [0, 100] |
| `Location.MoveScreenDirection` | DoorPlayInfra.py:68-71 | a forward step never lowers the normalised distance of the starting location; a backward step never raises it |
| `Location.StepScale` | DoorPlayInfra.py:147-150 | the scale after a press is in [0.5, 2.0]; it is the stepped scale when that is in range, and the nearer bound otherwise |
| `Record.AsNumber` | DoorPlayInfra.py:45-49 | a value is usable as a number exactly when it is not a string, and then it is its integer or float value |
| `Record.GetNumber` | DoorPlayInfra.py:47-49 | `row.get(key, default)` is the default for a missing key, and raises exactly when the key holds a string |
| `Record.MovementUpdate` | DoorPlayInfra.py:44-52 | only `CurrentTime`, `CurrentDistance`, `Distance_max` and `Distance_min` change; success implies a numeric `StartTime`, which is kept |
| `Record.MovementUpdateRaises` | DoorPlayInfra.py:44-50 | the update succeeds iff `StartTime` is numeric and neither extreme holds a string; a bad `StartTime` raises before anything is written |
| `Record.MovementUpdateTracks` | DoorPlayInfra.py:45-50 | after success: `CurrentDistance` is the argument; `CurrentTime` is `round(now - StartTime, 2)`; the effective max (default 0) is the larger and the effective min (default 100) the smaller of the old value and the argument; each extreme is written only when the argument passes it |
| `Record.MovementUpdateKeepsDefaults` | DoorPlayInfra.py:47-50 | with no `Distance_max`, a value <= 0 leaves it absent; with no `Distance_min`, a value >= 100 leaves it absent |
| `Record.Replay` | DoorPlayInfra.py:44-52 | any run of movement updates changes no column other than `CurrentTime`, `CurrentDistance`, `Distance_max` and `Distance_min` |
| `Record.ReplayTracksExtremes` | DoorPlayInfra.py:44-52 | after any run of successful updates, the effective max and min are the extremes of their start values and all distances of the run, and `Distance_min <= CurrentDistance <= Distance_max` |
| `Door.StartDistance` | DoorPlayInfra.py:135-136 | `round(normalize_location(location))` is the normalised distance itself, in [0, 100] |
| `Door.InitTracking` | DoorPlayInfra.py:132-137 | `DistanceAtStart` is the start location times 100; both extremes start at the normalised start location; `ScenarioIndex` is the scenario index passed in; `StartTime`, `DidWin`, `Door_outcome` and all columns the trial does not write are kept |
| `Door.MovedLocation` | DoorPlayInfra.py:145-149 | with no press the location is unchanged; after a press it is a whole number in [0, 100], not below the start's normalised distance after forward and not above it after backward |
| `Door.PressScale` | DoorPlayInfra.py:145-150 | the scale is 1.1 after forward (forward wins over backward), 0.9 after backward, 1.0 with no press, always in [0.5, 2.0] |
| `Door.ResolveOutcome` | DoorPlayInfra.py:158-167 | the door stays locked iff draw1 > location/100; it rewards iff it opens and draw2 >= 0.5, and punishes iff it opens and draw2 < 0.5 |
| `Door.CoinDelta` | DoorPlayInfra.py:165-181 | a locked door adds nothing, a reward adds the reward, a punishment takes the punishment away; with stakes that are not negative a reward never lowers the total and a punishment never raises it |
| `Door.RecordOutcome` | DoorPlayInfra.py:160-185 | `Door_opened` is 1 and `DoorStatus` is "opened" iff the door opened; an opened door sets `DidWin` to 1 exactly on a reward; a locked door keeps `DidWin` and `Door_outcome`; `ScenarioIndex` is the index plus 100, 200 or 50 by outcome |
| `Door.Conclude` | DoorPlayInfra.py:157-196 | `Total_coins` holds the returned total, which is the old total, plus the reward, or minus the punishment; `CurrentTime` is within 0.005 of the time elapsed since `StartTime` at the outcome |
| `Door.Settle` | DoorPlayInfra.py:152-196 | the rest of the trial raises exactly when its movement update raises; a finished one keeps the scale and `StartTime` |
| `Door.DoorTrial` | DoorPlayInfra.py:129-196 | a trial raises exactly when the row has no numeric `StartTime`: `KeyError` when it is missing, `TypeError` when it is a string; a finished trial's scale is in [0.5, 2.0] |
| `Door.DoorTrialRaises` | DoorPlayInfra.py:131-153 | a trial raises iff the row has no numeric `StartTime`, and then only the start columns have been written |
| `Door.DoorTrialOutcome` | DoorPlayInfra.py:158-187 | the door opens iff draw1 <= location/100. Open and draw2 >= 0.5: +reward, `DidWin` 1, index +100. Open and draw2 < 0.5: -punishment, `DidWin` 0, index +200. Locked: total unchanged, `Door_opened` 0, index +50, old `DidWin`/`Door_outcome` kept. `Total_coins` is the returned total |
| `Door.DoorTrialDistances` | DoorPlayInfra.py:135-153 | `CurrentDistance` is the normalised moved location; `Distance_max`/`Distance_min` are the larger/smaller of the start and current distances; `0 <= Distance_min <= CurrentDistance <= Distance_max <= 100` |
| `Door.DoorTrialTimes` | DoorPlayInfra.py:132-196 | a finished trial keeps `StartTime`; `DistanceAtStart` is the start location times 100; the final `CurrentTime` is `round(outcome time - StartTime, 2)`, replacing the movement update's; `DoorAction_RT` is `round(reaction time * 1000, 2)`; `Door_anticipation_time` is `(3 + draw3) * 1000` |
| `Door.DoorTrialFrame` | DoorPlayInfra.py:129-196 | a trial changes no column outside the ones it names |
| `Door.DoorTrialScale` | DoorPlayInfra.py:145-150 | the scale is 1.1 after forward (forward wins over backward), 0.9 after backward, 1.0 with no press, and always in [0.5, 2.0] |
| `Door.DoorOpenThreshold` | DoorPlayInfra.py:158-159 | without a press the door opens only for draw1 <= 0.0185; after a press the compared location is a whole number in [0, 100] |
| `Door.PressedDistanceRenormalized` | DoorPlayInfra.py:145-153 | after a press the recorded `CurrentDistance` is 50, 77 or 100 |
| `Door.TrialRecord.UpdateMovement` | DoorPlayInfra.py:44-52 | the in-place update leaves the row and the raised error exactly as `MovementUpdate` describes |
| `Door.TrialRecord.ResolveDoor` | DoorPlayInfra.py:157-196 | the in-place outcome step leaves the row and total exactly as `Conclude` describes |
| `Door.TrialRecord.StartDoor` | DoorPlayInfra.py:129-196 | the in-place trial leaves the row, total, scale and raised error exactly as `DoorTrial` describes |

## Left out

- All rendering is left out because it is user-interface output only. This covers
  `st.image`, `st.audio`, `st.video`, `st.button` as display, `st.progress`,
  `st.write`, `st.success`, `st.error` and `st.warning`. It also covers the screen and
  summary functions (`display_message`, `prompt_user_ready`, `show_screen_pre_match`,
  `show_screen_post_simulation`, `show_wheel`, `show_screen_post_match`,
  `final_summary`) and the fixed `MESSAGES` and `SOUNDS` tables.
- `play_sound` and its file-existence check are left out: they are file-system probes
  and audio playback.
- `inter_trial_interval` and `time.sleep` are left out: they are blocking waits.
- `setup_door` is left out because it is only a random draw and a picture.
  - Its starting location is the input `Interaction.startLocation`.
  - Its second call at line 155 re-seeds and draws a location that is thrown away, so
    it has no effect on the row.
- The random generator is not modelled. Its draws are the inputs `Draws`.
- The draws are not required to lie in [0, 1). Every lemma holds for any real draws.
- `time.time()` is not modelled. Its readings are the inputs `Clock`.
- `highValue` only writes a message, so it is left out.
- `miniDf` and `summary_df` pass through untouched, so they are left out.
- The `KeyError` on `params['ITIDurationMin']` and `params['ITIDurationMax']` at line 200
  is left out, because the `params` dictionary is not modelled.
- Arithmetic is over exact reals, not IEEE-754 doubles.
  - `round(x, 2)` is modelled as decimal half-to-even rounding of the exact value.
  - Float rounding error near ties is not captured.
- Row values are integers, floats or strings. Python `None`, booleans and other types
  are not modelled.
- A caller column `Other(name)` is taken never to reuse one of the trial's own key
  names. A row where it did would hold two values under one Python key; such rows
  are not modelled.
- `DistanceAtStart` is always stored as a float. When the fixed starting setting gives
  the integer location 0, Python stores the integer 0; the two compare equal.
- `Door.TrialRecord.StartDoor`: on a raise it returns the total it was given. Python
  returns nothing, because the exception propagates.
- `Door.TrialRecord.constructor`: the row's initial contents come from a caller that is
  not part of this model.
