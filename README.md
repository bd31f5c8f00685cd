# Cinema post-processing: trigger logic, noise grid and dispatch

This project models the host-side control logic of the Cinema
post-processing package for Unity's HDRP (`mj.gist.cinema.post-processing`),
as found in `Assets/mj.gist.cinema.post-processing/Scripts/`. It covers three parts:

- **The effects' trigger/transition state machines.** These are Negative,
  EdgeDetection, Distortion, RandomInvert, Mosaic, RadiationBlur, RGBShift and
  RectBlockGlitch.
  - Each `Execute` starts a coroutine. Some coroutines first flip a persistent
    phase flag, which chooses the (start, end) pair of the run.
  - Every coroutine then runs the same countdown:
    `duration = Mathf.Max(duration - Time.deltaTime, 0)`, writing
    `Easing.Ease(QuadOut, start, end, progress)` into one parameter on each
    frame.
  - Each effect also has an `IsActive` test and a `Reset` that writes specific
    fields.
- **The block-glitch noise grid.** RectBlockGlitch's `UpdateNoiseTexture` may
  resize the texture. It then paints every cell in row-major order, carrying
  one current colour through the whole scan and replacing it with a fresh
  random colour when a cell's draw exceeds `noiseColorChange`. `Render` only
  repaints when its own draw exceeds `noiseSpeed`.
- **The dispatch registry.** `PostProcessController` registers a fixed map
  from trigger type to component type. It resolves each key binding (a
  wrapper) to the first profile component of that type and resets it. Each
  frame, it calls `Execute` on the valid wrappers whose key went down.
  `OnDestroy` resets every wrapper again.

How the source is represented:

- **Effects** are classes whose fields are the component's parameters.
  - A `ClampedFloatParameter` stores `Mathf.Clamp` of what is written, so
    writes go through `UnityMath.Clamp` with the declared range.
  - "The material exists" is the field `hasMaterial`.
- **Coroutine loops** are methods with the source's `while (duration > 0)`
  loop.
  - The loop runs over `dts`, the `Time.deltaTime` values of the frames in
    which the body runs. It stops when `duration` reaches 0 or the frames run
    out (the coroutine is then still suspended).
  - Each such method is proved against `Transition.Countdown`, the sequence of
    values `duration` takes, and `Transition.LastProgress`, the progress of the
    last write.
  - The facts about those functions are proved once as lemmas in
    `Transition`: bounds, strict decrease, termination, and last progress
    exactly 1.
- **`Easing.Ease`** is a parameter `ease` of function type. Nothing is assumed
  about it, and every statement about a written value is "the value is
  `ease(...)` at this progress".
- **`Random.value`** is a stream `draws: nat -> real` with a cursor. The noise
  texture is an `array2<Color>` indexed `[x, y]`.
- **The controller** keeps its wrappers as a sequence of values (Unity
  serialises a `[Serializable]` class inline). Components are indices into the
  profile's component list.
  - `Update` and `OnDestroy` return the calls they make.
  - `Start` returns how it ended: started, no profile, a duplicate `mapper`
    key, or a `Reset` on a wrapper without a component.

Where the behaviour a reader might expect and the code disagree, the model
follows the code:

- When `effectTime` (or `transitionT`) is not positive, the loop body never
  runs and nothing is written. The end value is not applied.
- A new trigger does not stop a run already in progress. Runs overlap.
- RectBlockGlitch has no phase: every run decays `intensity` from
  `maxIntensity` to 0.
- The noise texture is sized `Screen.width / glitchScale` by
  `Screen.height / glitchScale` with no 1 x 1 minimum.
  - A zero `glitchScale` with a stale cache throws before anything changes.
- A wrapper whose type has no component in the profile is not inert.
  - `Reset` on it throws in `Start`, which leaves the later wrappers
    unresolved.
  - In `OnDestroy` it throws as well, and no later wrapper is reset.
- Mosaic's `Reset` clears only `isCircle`. It leaves `scale`, and so the
  effect's activity, unchanged.

## Model

All source paths are under `Assets/mj.gist.cinema.post-processing/Scripts/`, written in full below.

| member | source | states |
|---|---|---|
| UnityMath.Max | Assets/mj.gist.cinema.post-processing/Scripts/Negative.cs:66 | Mathf.Max is an upper bound of both arguments and equals one of them |
| UnityMath.Clamp | Assets/mj.gist.cinema.post-processing/Scripts/Negative.cs:12 | a clamped parameter's stored value lies in its range, equals the written value when that is in range, and is otherwise the nearer bound |
| UnityMath.Quot | Assets/mj.gist.cinema.post-processing/Scripts/RectBlockGlitch.cs:80-81 | C# integer division of a size: for a positive divisor the floor bracketed by consecutive multiples; for a negative one a non-positive quotient truncated toward zero |
| UnityMath.QuotAtMost | Assets/mj.gist.cinema.post-processing/Scripts/EdgeDetection.cs:80 | dividing a size by a positive factor gives a size between 0 and the original, and a factor of 1 keeps it |
| UnityMath.IsZero | Assets/mj.gist.cinema.post-processing/Scripts/Distortion.cs:40 | Unity's approximate `== Vector2.zero`: the exact zero vector compares equal |
| UnityMath.ZeroWithinEpsilon | Assets/mj.gist.cinema.post-processing/Scripts/Distortion.cs:40 | a vector that compares equal to Vector2.zero has both components within kEpsilon of 0 |
| UnityMath.DiagonalAwayFromZero | Assets/mj.gist.cinema.post-processing/Scripts/Distortion.cs:116-117 | a barrel vector (p, p) with \|p\| at least kEpsilon compares unequal to Vector2.zero (used by Distortion.BarrelRunShows) |
| Transition.Step | Assets/mj.gist.cinema.post-processing/Scripts/Negative.cs:66 | one frame of the countdown never goes below 0 or above the previous value, strictly decreases for a positive frame, and reaches 0 exactly when the frame is at least the remaining time |
| Transition.Elapsed | Assets/mj.gist.cinema.post-processing/Scripts/Negative.cs:67 | the progress `1 - duration / total` lies in [0, 1], is 1 exactly when duration is 0 and 0 exactly when nothing has elapsed |
| Transition.Left | Assets/mj.gist.cinema.post-processing/Scripts/RandomInvert.cs:77 | RandomInvert's progress `duration / transitionT` is the complement of the elapsed progress, lies in [0, 1] and is 0 exactly when duration is 0 |
| Transition.Countdown | Assets/mj.gist.cinema.post-processing/Scripts/Negative.cs:64-69 | the loop body runs at most once per frame, and runs at all exactly when the duration is positive and a frame comes |
| Transition.CountdownStep | Assets/mj.gist.cinema.post-processing/Scripts/Negative.cs:64-69 | from any frame on, one turn of the loop is one Step followed by the rest of the countdown |
| Transition.CountdownBounds | Assets/mj.gist.cinema.post-processing/Scripts/Negative.cs:64-69 | duration stays in [0, total] on every iteration; with positive frames it is below total and strictly decreasing |
| Transition.CountdownExitsAtZero | Assets/mj.gist.cinema.post-processing/Scripts/Negative.cs:64-69 | when the loop leaves before the frames run out, its last write was made at duration 0 |
| Transition.CountingStep | Assets/mj.gist.cinema.post-processing/Scripts/Negative.cs:64-69 | one iteration of the body keeps the loop's state aligned with the countdown, and keeps duration within [0, total] |
| Transition.CountingStops | Assets/mj.gist.cinema.post-processing/Scripts/Negative.cs:64-69 | when the loop test fails, the loop has made exactly the countdown's writes and duration is where it stopped |
| Transition.CountdownLast | Assets/mj.gist.cinema.post-processing/Scripts/Negative.cs:64-69 | the final duration is max(total - elapsed time, 0) however the time is split into frames |
| Transition.CountdownFinishes | Assets/mj.gist.cinema.post-processing/Scripts/Negative.cs:64-69 | frames adding up to at least the duration make the loop end at duration 0 |
| Transition.FinishesWithin | Assets/mj.gist.cinema.post-processing/Scripts/Negative.cs:64-69 | termination: frames of at least delta > 0 end the loop at duration 0 within total / delta frames |
| Transition.LastDuration | Assets/mj.gist.cinema.post-processing/Scripts/Negative.cs:64-69 | the duration after the last iteration lies in [0, total] with total positive |
| Transition.LastProgress | Assets/mj.gist.cinema.post-processing/Scripts/Negative.cs:67 | the last write's progress lies in [0, 1] and is exactly 1 once the frames cover the duration |
| Transition.LastDurationFinishes | Assets/mj.gist.cinema.post-processing/Scripts/Negative.cs:64-69 | once the frames add up to the duration, the value the loop leaves in `duration` is 0 |
| Transition.LastLeft | Assets/mj.gist.cinema.post-processing/Scripts/RandomInvert.cs:74-79 | RandomInvert's last progress is the complement of the elapsed one, and exactly 0 once the frames cover the duration |
| Transition.PhaseAfterParity | Assets/mj.gist.cinema.post-processing/Scripts/Negative.cs:63 | a phase flag flipped once per run is restored by an even number of runs and inverted by an odd one |
| Transition.PhaseEnds | Assets/mj.gist.cinema.post-processing/Scripts/Negative.cs:61-62 | a run's (start, end) pair adds up to the maximum and starts at 0 or at the maximum |
| Transition.PhaseEndsAlternate | Assets/mj.gist.cinema.post-processing/Scripts/Negative.cs:61-63 | runs alternate direction: after an even number of runs the pair is the first run's, after an odd number it is swapped |
| NegativeEffect.RunDirection | Assets/mj.gist.cinema.post-processing/Scripts/Negative.cs:61-63 | a fresh Negative's run after n earlier runs animates 0 to 1 when n is even and 1 to 0 when odd |
| NegativeEffect.Negative.constructor | Assets/mj.gist.cinema.post-processing/Scripts/Negative.cs:12-15 | the declared defaults: ratio 0, effectTime 0.25, phase unset, inactive |
| NegativeEffect.Negative.IsActive | Assets/mj.gist.cinema.post-processing/Scripts/Negative.cs:24 | definition, restated as its contract: never active without the material; with it, active exactly when ratio is positive |
| NegativeEffect.Negative.Reset | Assets/mj.gist.cinema.post-processing/Scripts/Negative.cs:53-56 | ratio becomes 0 and the effect inactive; the phase flag is not in the frame and is kept |
| NegativeEffect.Negative.Execute | Assets/mj.gist.cinema.post-processing/Scripts/Negative.cs:48-51 | whatever the trigger type, runs ApplyNegative |
| NegativeEffect.Negative.ApplyNegative | Assets/mj.gist.cinema.post-processing/Scripts/Negative.cs:57-70 | flips the phase; ratio is unchanged when the loop does not run, else the clamped eased value between the old phase's pair at the last progress; duration ends where the countdown stops |
| EdgeDetectionEffect.EdgeTextureSize | Assets/mj.gist.cinema.post-processing/Scripts/EdgeDetection.cs:75-80 | the edge buffer is the source size over downSampling: undefined (division by zero) exactly for 0, the source size for 1, floor quotients no larger than the source for positive factors, non-positive sizes for negative ones |
| EdgeDetectionEffect.RunDirection | Assets/mj.gist.cinema.post-processing/Scripts/EdgeDetection.cs:125-127 | a fresh EdgeDetection's run after n earlier runs animates blend 1 to 0 when n is even and 0 to 1 when odd |
| EdgeDetectionEffect.EdgeDetection.constructor | Assets/mj.gist.cinema.post-processing/Scripts/EdgeDetection.cs:12-23 | the declared defaults; active exactly when the material exists |
| EdgeDetectionEffect.EdgeDetection.IsActive | Assets/mj.gist.cinema.post-processing/Scripts/EdgeDetection.cs:59 | definition, restated as its contract: never active without the material; with it, active exactly when power is positive |
| EdgeDetectionEffect.EdgeDetection.Reset | Assets/mj.gist.cinema.post-processing/Scripts/EdgeDetection.cs:118-121 | blend becomes 1; activity (which depends on power) and the switcher are kept |
| EdgeDetectionEffect.EdgeDetection.Execute | Assets/mj.gist.cinema.post-processing/Scripts/EdgeDetection.cs:113-116 | whatever the trigger type, runs ApplyEdgeDetection; activity is unchanged |
| EdgeDetectionEffect.EdgeDetection.ApplyEdgeDetection | Assets/mj.gist.cinema.post-processing/Scripts/EdgeDetection.cs:122-134 | flips the switcher; blend is unchanged when the loop does not run, else the clamped eased value between (switcher ? (0, 1) : (1, 0)) at the last progress |
| DistortionEffect.BarrelRunDirection | Assets/mj.gist.cinema.post-processing/Scripts/Distortion.cs:109-111 | a fresh Distortion's barrel run after n earlier barrel runs goes 0 to max when n is even and max to 0 when odd |
| DistortionEffect.Distortion.constructor | Assets/mj.gist.cinema.post-processing/Scripts/Distortion.cs:12-24 | the declared defaults; inactive |
| DistortionEffect.Distortion.IsActive | Assets/mj.gist.cinema.post-processing/Scripts/Distortion.cs:38-41 | definition, restated as its contract: never active without the material; with it, active when the noise power and scale are both positive or the barrel vector is not approximately zero, and an active component either has the noise on or draws pass 1 |
| DistortionEffect.Distortion.Pass | Assets/mj.gist.cinema.post-processing/Scripts/Distortion.cs:67-69 | the shader pass is 1 exactly when the barrel vector is not zero, else 0; the noise settings never change it |
| DistortionEffect.Distortion.Reset | Assets/mj.gist.cinema.post-processing/Scripts/Distortion.cs:89-93 | both powers become zero, the effect inactive and the pass 0; the switcher is kept |
| DistortionEffect.Distortion.Execute | Assets/mj.gist.cinema.post-processing/Scripts/Distortion.cs:81-87 | NoiseDistortion runs only the noise decay, BarrelDistortion only the barrel run, any other type changes nothing |
| DistortionEffect.Distortion.ApplyNoiseDistortion | Assets/mj.gist.cinema.post-processing/Scripts/Distortion.cs:95-104 | the noise power is unchanged when the loop does not run, else the clamped eased value from the maximum to 0 at the last progress, with no phase |
| DistortionEffect.Distortion.ApplyBarrelDistortion | Assets/mj.gist.cinema.post-processing/Scripts/Distortion.cs:106-120 | flips the switcher; the barrel vector is unchanged when the loop does not run, else (p, p) with p the eased value between the old switcher's pair at the last progress |
| DistortionEffect.Distortion.BarrelLoop | Assets/mj.gist.cinema.post-processing/Scripts/Distortion.cs:113-119 | the loop leaves the barrel vector unchanged when its body does not run, else (p, p) with p the eased value between start and end at the last progress; nothing else changes |
| DistortionEffect.Distortion.BarrelRunShows | Assets/mj.gist.cinema.post-processing/Scripts/Distortion.cs:106-119 | a barrel run whose last eased value is at least kEpsilon from 0 leaves Render drawing pass 1, and the component active while it has its material |
| RandomInvertEffect.RandomInvert.constructor | Assets/mj.gist.cinema.post-processing/Scripts/RandomInvert.cs:12-19 | the declared defaults, including the unused QuintOut curve; active exactly when the material exists |
| RandomInvertEffect.RandomInvert.IsActive | Assets/mj.gist.cinema.post-processing/Scripts/RandomInvert.cs:31 | definition, restated as its contract: never active without the material; with it, active exactly when fadeTime is positive |
| RandomInvertEffect.RandomInvert.Reset | Assets/mj.gist.cinema.post-processing/Scripts/RandomInvert.cs:81-84 | clears isInvert only; activity (which depends on fadeTime) is kept |
| RandomInvertEffect.RandomInvert.Execute | Assets/mj.gist.cinema.post-processing/Scripts/RandomInvert.cs:63-66 | whatever the trigger type, runs ApplyRandomInvert; activity is unchanged |
| RandomInvertEffect.RandomInvert.ApplyRandomInvert | Assets/mj.gist.cinema.post-processing/Scripts/RandomInvert.cs:68-80 | records the time, flips isInvert; threshold is unchanged when the loop does not run, else QuadOut-eased from 1 to 0 at the remaining fraction where the countdown stopped (0 once the frames cover transitionT) |
| MosaicEffect.Mosaic.constructor | Assets/mj.gist.cinema.post-processing/Scripts/Mosaic.cs:12-14 | the declared defaults; inactive |
| MosaicEffect.Mosaic.IsActive | Assets/mj.gist.cinema.post-processing/Scripts/Mosaic.cs:25 | definition, restated as its contract: never active without the material; with it, active exactly when scale is positive |
| MosaicEffect.Mosaic.Reset | Assets/mj.gist.cinema.post-processing/Scripts/Mosaic.cs:61-64 | clears isCircle only; scale and activity are kept |
| MosaicEffect.Mosaic.Execute | Assets/mj.gist.cinema.post-processing/Scripts/Mosaic.cs:56-59 | whatever the trigger type, runs ApplyMosaic |
| MosaicEffect.Mosaic.ApplyMosaic | Assets/mj.gist.cinema.post-processing/Scripts/Mosaic.cs:66-75 | scale is unchanged when the loop does not run, else the eased value from maxScale to 1 at the last progress, clamped into [0, 100] |
| RadiationBlurEffect.RadiationBlur.constructor | Assets/mj.gist.cinema.post-processing/Scripts/RadiationBlur.cs:12-15 | the declared defaults; inactive |
| RadiationBlurEffect.RadiationBlur.IsActive | Assets/mj.gist.cinema.post-processing/Scripts/RadiationBlur.cs:26 | definition, restated as its contract: never active without the material; with it, active exactly when power is positive |
| RadiationBlurEffect.RadiationBlur.Reset | Assets/mj.gist.cinema.post-processing/Scripts/RadiationBlur.cs:62-65 | power becomes 0 and the effect inactive; nothing else changes |
| RadiationBlurEffect.RadiationBlur.Execute | Assets/mj.gist.cinema.post-processing/Scripts/RadiationBlur.cs:57-60 | whatever the trigger type, runs ApplyRadiationBlur |
| RadiationBlurEffect.RadiationBlur.ApplyRadiationBlur | Assets/mj.gist.cinema.post-processing/Scripts/RadiationBlur.cs:67-76 | power is unchanged when the loop does not run, else the eased value from maxPower to 1 at the last progress, clamped into [0, 100] |
| RGBShiftEffect.RGBShift.constructor | Assets/mj.gist.cinema.post-processing/Scripts/RGBShift.cs:12-14 | the declared defaults; inactive |
| RGBShiftEffect.RGBShift.IsActive | Assets/mj.gist.cinema.post-processing/Scripts/RGBShift.cs:24 | definition, restated as its contract: never active without the material; with it, active exactly when power is positive |
| RGBShiftEffect.RGBShift.Reset | Assets/mj.gist.cinema.post-processing/Scripts/RGBShift.cs:63-66 | power becomes 0 and the effect inactive; nothing else changes |
| RGBShiftEffect.RGBShift.Execute | Assets/mj.gist.cinema.post-processing/Scripts/RGBShift.cs:58-61 | whatever the trigger type, runs ApplyRGBShift |
| RGBShiftEffect.RGBShift.ApplyRGBShift | Assets/mj.gist.cinema.post-processing/Scripts/RGBShift.cs:68-77 | power is unchanged when the loop does not run, else the eased value from maxPower to 0 at the last progress, clamped into [0, 100] |
| NoiseGrid.RandomColor | Assets/mj.gist.cinema.post-processing/Scripts/RectBlockGlitch.cs:107-110 | a fresh colour takes four consecutive draws in channel order, so its channels lie in [0, 1] |
| NoiseGrid.Seed | Assets/mj.gist.cinema.post-processing/Scripts/RectBlockGlitch.cs:85 | the colour before the scan takes four draws and lies in the unit cube |
| NoiseGrid.Paint | Assets/mj.gist.cinema.post-processing/Scripts/RectBlockGlitch.cs:92 | a cell takes five draws exactly when its draw exceeds noiseColorChange and one otherwise, and the colour can only change in the first case |
| NoiseGrid.CursorAdvance | Assets/mj.gist.cinema.post-processing/Scripts/RectBlockGlitch.cs:87-95 | n cells consume between n and 5n draws |
| NoiseGrid.ColorsInUnit | Assets/mj.gist.cinema.post-processing/Scripts/RectBlockGlitch.cs:87-95 | every colour the scan writes has its channels in [0, 1] |
| NoiseGrid.ChangeOneKeepsSeed | Assets/mj.gist.cinema.post-processing/Scripts/RectBlockGlitch.cs:87-95 | with noiseColorChange at 1 every cell keeps the seed colour and takes one draw |
| NoiseGrid.AllFresh | Assets/mj.gist.cinema.post-processing/Scripts/RectBlockGlitch.cs:87-95 | when every draw exceeds noiseColorChange every cell gets the fresh colour made of the four draws after its own |
| NoiseGrid.RowStartCarriesOver | Assets/mj.gist.cinema.post-processing/Scripts/RectBlockGlitch.cs:87-95 | the current colour carries across row ends: the first cell of a row repeats the last cell of the row above unless its own draw exceeds noiseColorChange |
| RectBlockGlitchEffect.PaintNoise | Assets/mj.gist.cinema.post-processing/Scripts/RectBlockGlitch.cs:85-95 | every cell of the texture holds the colour the row-major scan gives it, and the draws used are those the scan takes |
| RectBlockGlitchEffect.PaintRow | Assets/mj.gist.cinema.post-processing/Scripts/RectBlockGlitch.cs:89-94 | one row holds the scan's colours for its cells, the other rows are untouched, and the colour and draw position carry into the next row |
| RectBlockGlitchEffect.PaintCell | Assets/mj.gist.cinema.post-processing/Scripts/RectBlockGlitch.cs:92-93 | one cell takes the scan's next colour, and every other cell is untouched |
| RectBlockGlitchEffect.RectBlockGlitch.constructor | Assets/mj.gist.cinema.post-processing/Scripts/RectBlockGlitch.cs:12-20 | the declared defaults and a fresh, unpainted texture of the given size, with the cache still 0 (Setup's first repaint is UpdateNoiseTexture); inactive |
| RectBlockGlitchEffect.RectBlockGlitch.IsActive | Assets/mj.gist.cinema.post-processing/Scripts/RectBlockGlitch.cs:30 | definition, restated as its contract: never active without the material; with it, active exactly when intensity is positive |
| RectBlockGlitchEffect.RectBlockGlitch.Reset | Assets/mj.gist.cinema.post-processing/Scripts/RectBlockGlitch.cs:122-125 | intensity becomes 0 and the effect inactive; nothing else changes |
| RectBlockGlitchEffect.RectBlockGlitch.UpdateNoiseTexture | Assets/mj.gist.cinema.post-processing/Scripts/RectBlockGlitch.cs:76-99 | resizes to (Screen.width / glitchScale, Screen.height / glitchScale) and caches the scale only when the cache differs (throwing, with nothing changed, for scale 0); then every cell holds the scan's colour |
| RectBlockGlitchEffect.RectBlockGlitch.RenderNoise | Assets/mj.gist.cinema.post-processing/Scripts/RectBlockGlitch.cs:43-48 | without a material nothing happens; otherwise one draw is taken and the texture is repainted exactly when it exceeds noiseSpeed |
| RectBlockGlitchEffect.RectBlockGlitch.Execute | Assets/mj.gist.cinema.post-processing/Scripts/RectBlockGlitch.cs:117-120 | whatever the trigger type, runs the glitch decay |
| RectBlockGlitchEffect.RectBlockGlitch.ApplyGlitch | Assets/mj.gist.cinema.post-processing/Scripts/RectBlockGlitch.cs:127-136 | intensity is unchanged when the loop does not run, else the eased value from maxIntensity to 0 at the last progress, clamped into [0, 1] |
| Controller.MappedType | Assets/mj.gist.cinema.post-processing/Scripts/PostProcessController.cs:27-35 | no trigger type maps to a Negative or EdgeDetection component, so neither can be dispatched |
| Controller.PostProcessWraper.IsValid | Assets/mj.gist.cinema.post-processing/Scripts/PostProcessController.cs:83 | definition, restated as its contract: a wrapper is valid exactly when it holds a component; Update relies on it before dispatching |
| Controller.NineEntries | Assets/mj.gist.cinema.post-processing/Scripts/PostProcessController.cs:27-35 | a map holding the nine registered entries covers all nine trigger types, both reflections mapping to Reflection and both distortions to Distortion |
| Controller.FirstMatch | Assets/mj.gist.cinema.post-processing/Scripts/PostProcessController.cs:39 | the resolved component is the first profile component of the mapped type, and null exactly when there is none |
| Controller.FirstMatchFrom | Assets/mj.gist.cinema.post-processing/Scripts/PostProcessController.cs:39 | the first match at or after a position, and none exactly when no later component has the type |
| Controller.PostProcessController.constructor | Assets/mj.gist.cinema.post-processing/Scripts/PostProcessController.cs:12-16 | the serialised bindings with no component resolved, and an empty mapper |
| Controller.DictionaryAdd | Assets/mj.gist.cinema.post-processing/Scripts/PostProcessController.cs:27 | definition, restated as its contract: Dictionary.Add fails exactly when the key is already present, and otherwise adds that one entry to the map; Register relies on it |
| Controller.PostProcessController.Register | Assets/mj.gist.cinema.post-processing/Scripts/PostProcessController.cs:27-35 | on an empty mapper all nine entries are registered; on a registered one the first Add fails on ReflectionHorizontal and nothing changes |
| Controller.PostProcessController.Start | Assets/mj.gist.cinema.post-processing/Scripts/PostProcessController.cs:18-43 | with no profile nothing is touched; otherwise each wrapper in turn gets its first matching component and is reset, stopping at the first wrapper left without one; kinds and keys are kept |
| Controller.PostProcessController.ResolveWrapers | Assets/mj.gist.cinema.post-processing/Scripts/PostProcessController.cs:37-42 | wrappers before the failing one are resolved to their first match and reset in order; the failing one has no component of its type in the profile; later ones are untouched |
| Controller.PostProcessController.Update | Assets/mj.gist.cinema.post-processing/Scripts/PostProcessController.cs:45-54 | the calls are those of the loop specification Dispatches: Execute is called, in list order, on exactly the valid wrappers whose key went down, each forwarding its own type; resolved components are never Negative or EdgeDetection |
| Controller.DispatchesSound | Assets/mj.gist.cinema.post-processing/Scripts/PostProcessController.cs:46-52 | every call of Update's loop goes to a valid wrapper whose key went down, with that wrapper's component and type |
| Controller.DispatchesOrdered | Assets/mj.gist.cinema.post-processing/Scripts/PostProcessController.cs:46-52 | the loop's calls follow the wrapper list order, each wrapper at most once |
| Controller.DispatchesComplete | Assets/mj.gist.cinema.post-processing/Scripts/PostProcessController.cs:46-52 | no valid wrapper whose key went down is skipped: its call is among the loop's calls |
| Controller.PostProcessController.OnDestroy | Assets/mj.gist.cinema.post-processing/Scripts/PostProcessController.cs:56-60 | every wrapper's component is reset in order; the first wrapper without one throws, and none after it is reset |

## Left out

- Render, Setup and Cleanup bodies: material setters, Blit and DrawFullScreen are GPU command glue. Only `hasMaterial`, the RectBlockGlitch noise gate, the Distortion pass and the EdgeDetection buffer size are modelled.
- `Easing.Ease` (KMath) is not part of this model. It is an unconstrained parameter, so no boundary or monotonicity fact about eased values is claimed.
- Coroutine scheduling: each `Execute` is modelled as one run on its own. Overlapping runs writing the same field each frame, and inspector edits to `effectTime`/`transitionT`/maxima during a run, are not modelled.
- NegativeEffect.Negative.ApplyNegative: the initial `yield return null` frame is not modelled, because nothing is written in it. Only overlapping runs could observe it.
- RandomInvertEffect.RandomInvert.ApplyRandomInvert: the initial `yield return null` frame is not modelled, for the same reason. `Time.time` after that frame is the parameter `time`.
- `transitionT` (read by Mosaic, RandomInvert and RectBlockGlitch) is declared neither in these classes nor in `PostProcessComponent.cs`. Its declared default and clamp range are not modelled, so it is a constructor field that may be any real.
- `ResizeTexture`/`Graphics.ConvertTexture` and `Texture2D.Apply` are foreign graphics calls. A resize is a fresh texture of the new size, whose carried-over contents are irrelevant because every cell is repainted.
- A zero-width or zero-height noise texture, and a non-positive edge buffer from a negative `downSampling`, are sizes Unity rejects when it allocates the texture. The model computes the size and does not model the allocation failure.
- The RGBShift shift vector (Perlin noise, sine, cosine) is floating-point trigonometry in Render.
- Floating point: parameters are unbounded reals. Single-precision rounding of `duration` and the progress is not modelled.
- Every scalar and `Vector2` volume parameter is kept with its declared default and clamp range, including those only Render reads (the blur centre, the noise time scale, RandomInvert's noise scale, EdgeDetection's thresholds). The colour, edge-mode and `Vector3` parameters that only Render reads (`backColor`, `edgeColor`, `filterMode`, `noiseDistortionPosition`) are omitted.
- The older `Runtime/` copies of the effects and `Reflection` are not part of this model: they hold render glue only. `PostProcessComponent.cs` is only the abstract shape the effects share.
- `Input.GetKeyDown` is the set `pressed` of keys that went down this frame. `Time.deltaTime` is the sequence `dts`. `Random.value` is the stream `draws`.
