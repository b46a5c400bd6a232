# CoffeeTech Decoded — a verified model of the equipment scene

CoffeeTech Decoded is an interactive 3D explainer of six pieces of coffee
equipment: a moka pot, an espresso machine, a burr grinder, a hand grinder,
a French press and an AeroPress. The scene lets a visitor pick the equipment,
explode it into its parts, click a part to read about it, and start a brew
or grind run. During a run the component steps through its phases on a chain
of timers, plays procedural sounds, reports a status line to the scene, and
reports completion at the end. An animation callback runs every frame and
eases the parts towards the targets of the current phase.

This project models that core in Dafny:

- `Sequencer` is the phase engine every component uses, written as data and
  pure functions. A component's effect, which is keyed on its brewing flag,
  becomes a `Script`: a start block, a chain of timers each with its own
  actions, and the sound tags its cleanup stops. `Start`, `Fire`, `Cleanup`
  and `Rerun` give the meaning of the effect body, of one timer elapsing, of
  the cleanup function, and of React re-running the effect when the flag
  changes. Lemmas proved once for every script cover the rest: completion is
  reported exactly once at the end, nothing survives a cleanup, and the
  total duration is the sum of the delays.
- `Sound` is the sound hook. Its registry of active audio graphs is a class
  whose `Play` and `Stop` keep one well-formed graph per tag, with the main
  gain first and the tag's gain envelope scheduled on it.
- There is one module per piece of equipment: `MokaPot`, `EspressoMachine`,
  `Grinder`, `HandGrinder`, `FrenchPress` and `Aeropress`. Each holds:
  - a class (`BrewSequence` / `GrindSequence`) with one method per timer
    callback, each proved to implement the engine's function on the
    component's script;
  - lemmas that walk a run through its schedule of phases, statuses, elapsed
    milliseconds and sounds;
  - the targets its animation frame eases towards;
  - the objects that frame mutates in place (beans, grounds, particles, the
    pour stream), as classes;
  - its selection highlight.
- `Interpolator` models the easing step used by every animation frame
  (`MathUtils.lerp`) and the behaviour of repeated frames.
- `Materials` models the selection, hover and heat highlight the components
  share.
- `Scene` holds the scene's state and its handlers, as a class. It also holds
  the lookup tables behind the equipment names, the radar chart and its
  glossary, and the part information panel.

Time is abstract. The timers of one chain are never pending together, so a
state records which timer is pending, and one step means "that timer
elapses". The clock, `Math.random` and the trigonometric values a frame
draws from the clock become parameters.

## Model

| member | source | states |
|---|---|---|
| Sequencer.Apply | frontend/src/components/FrenchPress.tsx:42-79 | One action changes only the phase, the sounding tags, the status list or the completion count. It never touches the pending timer, the elapsed time or the presence of audio. Playing without audio does nothing. |
| Sequencer.ApplyAll | frontend/src/components/FrenchPress.tsx:42-79 | A block of actions, performed in order, never reschedules anything. |
| Sequencer.ApplyAllAppend | frontend/src/components/FrenchPress.tsx:42-79 | Performing two blocks in turn equals performing their concatenation. |
| Sequencer.ApplyAllFields | frontend/src/components/FrenchPress.tsx:42-79 | A block's effect, field by field, equals the reference definitions: the last phase set, the tags sounding, the statuses emitted appended in order, and the completions added. |
| Sequencer.ApplyAllSteps | frontend/src/components/FrenchPress.tsx:42-79 | A block of one to four actions is those actions applied one after another. |
| Sequencer.ApplyAllReschedule | frontend/src/components/FrenchPress.tsx:42-79 | Rescheduling a state before or after a block gives the same result. |
| Sequencer.RunFromStart | frontend/src/components/FrenchPress.tsx:35-90 | After its start and k timers, a chain is in the state its first k+1 blocks produce. The next timer is pending and the first k delays have elapsed. |
| Sequencer.RunPastEnd | frontend/src/components/FrenchPress.tsx:35-90 | Once every timer of a started chain has fired, further steps change nothing and nothing is pending. |
| Sequencer.NoEffectAfterCleanup | frontend/src/components/FrenchPress.tsx:81-89 | After the cleanup clears the timers, no later step changes the phase, the sounds, the statuses or the completions. |
| Sequencer.CompletionsByStep | frontend/src/components/FrenchPress.tsx:70-74 | For a script that completes once at its end, the blocks up to timer k report no completion until the last timer, then exactly one. |
| Sequencer.CompletionsAppend | frontend/src/components/FrenchPress.tsx:70-74 | The completions of two concatenated blocks add up. |
| Sequencer.NoCompletion | frontend/src/components/FrenchPress.tsx:42-67 | A block without a completion callback reports none. |
| Sequencer.ExactlyOnce | frontend/src/components/FrenchPress.tsx:35-90 | A started chain reports completion exactly once, when its last timer fires, however long it runs. |
| Sequencer.InterruptedNeverCompletes | frontend/src/components/FrenchPress.tsx:81-89 | A chain torn down before its last timer never reports completion. |
| Sequencer.TotalDuration | frontend/src/components/FrenchPress.tsx:35-90 | A started chain has fired all its timers after exactly the sum of their delays, and then nothing is pending. |
| Sound.Recipe | frontend/src/useSoundEffects.ts:43-190 | Each tag's graph has at least three nodes, with the main gain first. |
| Sound.EnvelopeOf | frontend/src/useSoundEffects.ts:48-190 | Every tag except 'slide' ramps its main gain up to a level in (0, 1] within 0.1 to 0.5 s. 'slide' swells to a peak, falls silent, and then stops, in that order. |
| Sound.BuildGraph | frontend/src/useSoundEffects.ts:43-190 | The nodes playSound pushes have exactly the tag's recipe of kinds, in push order, and fresh ids. |
| Sound.RecordGraph | frontend/src/useSoundEffects.ts:193 | Recording a well-formed graph under its tag keeps the registry well formed. |
| Sound.Registry.constructor | frontend/src/useSoundEffects.ts:5-19 | A mounted hook has an empty registry with no envelopes, and a context exactly when the browser provides one. |
| Sound.Registry.Stop | frontend/src/useSoundEffects.ts:197-229 | An absent tag changes nothing. Otherwise all of the tag's nodes are handed over for fade-out and release, and only that tag's graph and envelope are deleted. |
| Sound.Registry.Play | frontend/src/useSoundEffects.ts:31-195 | Without a context nothing changes. Otherwise the tag's previous graph is released first. Then a fresh well-formed graph, main gain first, is recorded under the tag alone, and the tag's envelope (EnvelopeOf) is scheduled on it. Every active graph carries its own tag's envelope. |
| Materials.Highlight | frontend/src/components/EspressoMachine.tsx:80-92 | The colour prefers selected over hovered over the base colour. The part glows hot while heating, whatever its selection. Otherwise it glows faintly exactly while selected. |
| Interpolator.Lerp | frontend/src/components/HandGrinder.tsx:164 | The remaining distance to the target after a step is (1 - t) times the distance before it. |
| Interpolator.NoOvershoot | frontend/src/components/MokaPot.tsx:74-84 | A step with 0 <= t <= 1 lands between the current value and the target, and no further from the target. |
| Interpolator.Overshoot | frontend/src/components/MokaPot.tsx:74-84 | A step with 1 < t < 2, which is a frame longer than 250 ms, jumps past the target to its other side, though it still ends closer. |
| Interpolator.EaseRemaining | frontend/src/components/MokaPot.tsx:74-84 | After n equal frames, a fraction (1 - t)^n of the distance remains. |
| Interpolator.EaseApproaches | frontend/src/components/MokaPot.tsx:74-84 | With 0 < t <= 1, repeated frames never increase the distance to the target, and shrink it strictly while it is not zero. |
| Interpolator.FrameSpeed | frontend/src/components/MokaPot.tsx:72-84 | A frame of at most 250 ms, eased with factor 4 * delta, lands between the part and its target. A frame of 250 to 500 ms carries the part past its target. Either way the part ends no further from the target. |
| FrenchPress.BrewSequence.constructor | frontend/src/components/FrenchPress.tsx:18-28 | A mounted press is idle, with nothing scheduled, nothing sounding and nothing reported. |
| FrenchPress.BrewSequence.Start | frontend/src/components/FrenchPress.tsx:42-47 | The effect body sets 'grounds', reports "Adding Grounds" and schedules the first timer, as the engine's Start prescribes. |
| FrenchPress.BrewSequence.Fire | frontend/src/components/FrenchPress.tsx:47-79 | The pending timer's callback runs, as the engine's Fire prescribes. |
| FrenchPress.BrewSequence.PourWater | frontend/src/components/FrenchPress.tsx:47-51 | The first callback enters 'water', plays 'pour', reports "Pouring Hot Water" and schedules the second timer, as the engine's Fire prescribes. |
| FrenchPress.BrewSequence.BeginSteeping | frontend/src/components/FrenchPress.tsx:53-57 | The second callback stops 'pour', enters 'steeping' and reports "Steeping", as the engine's Fire prescribes. |
| FrenchPress.BrewSequence.PressPlunger | frontend/src/components/FrenchPress.tsx:59-63 | The third callback enters 'pressing', plays 'brew' and reports "Pressing Plunger", as the engine's Fire prescribes. |
| FrenchPress.BrewSequence.FinishPress | frontend/src/components/FrenchPress.tsx:65-67 | The fourth callback stops 'brew' and enters 'finished' without a status, as the engine's Fire prescribes. |
| FrenchPress.BrewSequence.ReturnToIdle | frontend/src/components/FrenchPress.tsx:70-74 | The last callback returns to 'idle', reports "Ready" and completes, as the engine's Fire prescribes. |
| FrenchPress.BrewSequence.Cleanup | frontend/src/components/FrenchPress.tsx:81-89 | The cleanup stops 'pour' and 'brew' and clears every timer, as the engine's Cleanup prescribes. |
| FrenchPress.BrewSequence.Rerun | frontend/src/components/FrenchPress.tsx:35-90 | A change of the brewing flag runs the previous cleanup, then the body, as the engine's Rerun prescribes. |
| FrenchPress.ScriptShape | frontend/src/components/FrenchPress.tsx:35-90 | The script completes once, in its last timer, and its delays sum to 9500 ms. |
| FrenchPress.StepProgress | frontend/src/components/FrenchPress.tsx:47-79 | Each timer moves a run to the next phase of grounds, water, steeping, pressing, finished, idle, at 0/1000/2500/4500/7500/9500 ms, with the statuses reported so far. |
| FrenchPress.StepSounds | frontend/src/components/FrenchPress.tsx:47-79 | Each timer keeps 'pour' sounding exactly in the water phase and 'brew' exactly while pressing, when there is audio, and touches no other tag. |
| FrenchPress.Walkthrough | frontend/src/components/FrenchPress.tsx:35-90 | A run started or restarted from any state follows that schedule, sounds included. |
| FrenchPress.RunToEnd | frontend/src/components/FrenchPress.tsx:70-74 | Once the last timer has fired, the press stays idle with all five statuses reported, one completion and no sound. |
| FrenchPress.Interrupted | frontend/src/components/FrenchPress.tsx:81-89 | A run stopped before its end keeps its phase, stays silent and never completes, however many timers were due. |
| FrenchPress.PlungerTarget | frontend/src/components/FrenchPress.tsx:111-131 | The plunger targets 3.5 when exploded. Otherwise it targets 2.5 exactly in grounds/water/steeping, and 0 exactly in idle/pressing/finished. |
| FrenchPress.PlungerRate | frontend/src/components/FrenchPress.tsx:121-131 | The plunger eases at 0.5 per second exactly while pressing outside the exploded view, and at 4 otherwise. |
| FrenchPress.GroundsTarget | frontend/src/components/FrenchPress.tsx:134-137 | The grounds are present in every phase but idle. |
| FrenchPress.LiquidTarget | frontend/src/components/FrenchPress.tsx:140-152 | The liquid targets 0.5 for water, 0.8 from steeping to finished, and a 0.01 sliver otherwise. It is always positive. |
| FrenchPress.LiquidColor | frontend/src/components/FrenchPress.tsx:142-149 | The liquid is coffee-coloured exactly from steeping to finished, and water-coloured otherwise. |
| FrenchPress.Frame | frontend/src/components/FrenchPress.tsx:104-157 | A frame always eases the plunger. It skips the grounds and the liquid exactly while pressing outside the exploded view. |
| FrenchPress.PressingKeepsTargets | frontend/src/components/FrenchPress.tsx:121-130 | Pressing is entered only from steeping, and its grounds, liquid-height and liquid-colour targets equal steeping's. So the frames the early return skips would only have continued the same easing. Skipping them delays convergence and never sends a part towards a different target. |
| FrenchPress.MaterialProps | frontend/src/components/FrenchPress.tsx:92-101 | The shared highlight on the '#d0d0d0' base. It is never heated, and glows exactly while selected. |
| Aeropress.BrewSequence.constructor | frontend/src/components/Aeropress.tsx:18-29 | A mounted AeroPress is idle, with nothing scheduled, nothing sounding and nothing reported. |
| Aeropress.BrewSequence.Start | frontend/src/components/Aeropress.tsx:43-48 | The effect body sets 'grounds', reports "Adding Grounds" and schedules the first timer, as the engine's Start prescribes. |
| Aeropress.BrewSequence.Fire | frontend/src/components/Aeropress.tsx:48-80 | The pending timer's callback runs, as the engine's Fire prescribes. |
| Aeropress.BrewSequence.AddWater | frontend/src/components/Aeropress.tsx:48-52 | The first callback enters 'water', plays 'pour' and reports "Adding Hot Water", as the engine's Fire prescribes. |
| Aeropress.BrewSequence.BeginSteeping | frontend/src/components/Aeropress.tsx:54-58 | The second callback stops 'pour', enters 'steeping' and reports "Steeping", as the engine's Fire prescribes. |
| Aeropress.BrewSequence.PressPlunger | frontend/src/components/Aeropress.tsx:60-64 | The third callback enters 'pressing', plays 'brew' and reports "Pressing Plunger", as the engine's Fire prescribes. |
| Aeropress.BrewSequence.FinishPress | frontend/src/components/Aeropress.tsx:66-68 | The fourth callback stops 'brew' and enters 'finished', as the engine's Fire prescribes. |
| Aeropress.BrewSequence.ReturnToIdle | frontend/src/components/Aeropress.tsx:71-75 | The last callback returns to 'idle', reports "Ready" and completes, as the engine's Fire prescribes. |
| Aeropress.BrewSequence.Cleanup | frontend/src/components/Aeropress.tsx:82-90 | The cleanup stops 'pour' and 'brew' and clears every timer, as the engine's Cleanup prescribes. |
| Aeropress.BrewSequence.Rerun | frontend/src/components/Aeropress.tsx:36-91 | A change of the brewing flag runs the previous cleanup, then the body, as the engine's Rerun prescribes. |
| Aeropress.ScriptShape | frontend/src/components/Aeropress.tsx:36-91 | The script completes once, in its last timer, and its delays sum to 9500 ms. |
| Aeropress.StepProgress | frontend/src/components/Aeropress.tsx:48-80 | Each timer moves a run to the next phase of grounds, water, steeping, pressing, finished, idle, at 0/1000/2500/4500/7500/9500 ms, with the statuses reported so far. |
| Aeropress.StepSounds | frontend/src/components/Aeropress.tsx:48-80 | Each timer keeps 'pour' sounding exactly in the water phase and 'brew' exactly while pressing, when there is audio, and touches no other tag. |
| Aeropress.Walkthrough | frontend/src/components/Aeropress.tsx:36-91 | A run started or restarted from any state follows that schedule, sounds included. |
| Aeropress.RunToEnd | frontend/src/components/Aeropress.tsx:71-75 | Once the last timer has fired, the AeroPress stays idle with all five statuses reported, one completion and no sound. |
| Aeropress.Interrupted | frontend/src/components/Aeropress.tsx:82-90 | A run stopped before its end keeps its phase, stays silent and never completes, however many timers were due. |
| Aeropress.PlungerTarget | frontend/src/components/Aeropress.tsx:115-131 | The plunger targets 3.0 when exploded. Otherwise it targets 0.5 exactly in idle, 2.5 exactly while filling, and -0.8 exactly from pressing on. |
| Aeropress.PlungerRate | frontend/src/components/Aeropress.tsx:122-131 | The plunger eases at 0.5 per second exactly while pressing outside the exploded view, and at 4 otherwise. |
| Aeropress.CapTarget | frontend/src/components/Aeropress.tsx:134-137 | The cap drops from -1.0 to -1.5 in the exploded view. |
| Aeropress.FilterTarget | frontend/src/components/Aeropress.tsx:139-142 | The filter sits at -0.95, or -1.2 when exploded, always just above the cap. |
| Aeropress.GroundsTarget | frontend/src/components/Aeropress.tsx:145-148 | The grounds are present exactly from grounds to pressing. |
| Aeropress.ChamberTarget | frontend/src/components/Aeropress.tsx:151-169 | The chamber liquid is full exactly in water and steeping, at 0.1 while pressing, and a sliver otherwise. It is coffee-coloured exactly in steeping and pressing. |
| Aeropress.MugTarget | frontend/src/components/Aeropress.tsx:172-178 | The mug fills to 0.8 exactly from pressing on, and keeps a 0.01 sliver otherwise. |
| Aeropress.FrameAsWritten | frontend/src/components/Aeropress.tsx:107-180 | As written, while pressing outside the exploded view a frame moves only the plunger. Cap, filter, grounds, chamber and mug are all skipped. In every other case it equals the corrected frame. |
| Aeropress.Frame | frontend/src/components/Aeropress.tsx:107-180 | Corrected, every frame eases every part towards its target. |
| Aeropress.PressedCoffeeSkipped | frontend/src/components/Aeropress.tsx:122-126 | As written, outside the exploded view the chamber is never driven to 0.1, and the mug is driven to 0.8 only once finished. |
| Aeropress.PressedCoffeeFlows | frontend/src/components/Aeropress.tsx:151-178 | Corrected, the chamber drains and the mug fills while the plunger goes down. |
| Aeropress.MaterialProps | frontend/src/components/Aeropress.tsx:93-104 | The shared highlight on dark plastic (roughness 0.4, metalness 0.1). It is never heated. |
| HandGrinder.GrindSequence.constructor | frontend/src/components/HandGrinder.tsx:17-19 | A mounted grinder is idle, with nothing scheduled, nothing sounding and nothing reported. |
| HandGrinder.GrindSequence.Start | frontend/src/components/HandGrinder.tsx:38-44 | The effect body sets 'opening', reports "Opening Lid" and schedules the first timer, as the engine's Start prescribes. |
| HandGrinder.GrindSequence.Fire | frontend/src/components/HandGrinder.tsx:44-78 | The pending timer's callback runs, as the engine's Fire prescribes. |
| HandGrinder.GrindSequence.PourBeans | frontend/src/components/HandGrinder.tsx:44-48 | The first callback enters 'pouring', plays 'pour' and reports "Pouring Beans", as the engine's Fire prescribes. |
| HandGrinder.GrindSequence.CloseLid | frontend/src/components/HandGrinder.tsx:50-54 | The second callback stops 'pour', enters 'closing' and reports "Closing Lid", as the engine's Fire prescribes. |
| HandGrinder.GrindSequence.Grind | frontend/src/components/HandGrinder.tsx:56-60 | The third callback enters 'grinding', plays 'grind' and reports "Grinding Beans", as the engine's Fire prescribes. |
| HandGrinder.GrindSequence.ShowGrounds | frontend/src/components/HandGrinder.tsx:62-67 | The fourth callback stops 'grind', enters 'finished', plays 'slide' and reports "Grounds Ready", as the engine's Fire prescribes. |
| HandGrinder.GrindSequence.ReturnToIdle | frontend/src/components/HandGrinder.tsx:69-73 | The last callback returns to 'idle', reports "Ready" and completes, as the engine's Fire prescribes. |
| HandGrinder.GrindSequence.Cleanup | frontend/src/components/HandGrinder.tsx:80-88 | The cleanup stops 'pour' and 'grind' (not 'slide') and clears every timer, as the engine's Cleanup prescribes. |
| HandGrinder.GrindSequence.Rerun | frontend/src/components/HandGrinder.tsx:32-89 | A change of the grinding flag runs the previous cleanup, then the body, as the engine's Rerun prescribes. |
| HandGrinder.ScriptShape | frontend/src/components/HandGrinder.tsx:32-89 | The script completes once, in its last timer, and its delays sum to 9000 ms. |
| HandGrinder.StepProgress | frontend/src/components/HandGrinder.tsx:44-78 | Each timer moves a run to the next phase of opening, pouring, closing, grinding, finished, idle, at 0/1000/2000/3000/7000/9000 ms, with the statuses reported so far. |
| HandGrinder.StepSounds | frontend/src/components/HandGrinder.tsx:44-78 | 'pour' sounds exactly while pouring and 'grind' exactly while grinding. 'slide' is added when the grounds are shown and never removed. |
| HandGrinder.Walkthrough | frontend/src/components/HandGrinder.tsx:32-89 | A run started or restarted from any state follows that schedule, sounds included. |
| HandGrinder.RunToEnd | frontend/src/components/HandGrinder.tsx:69-73 | Once the last timer has fired, the grinder stays idle with all six statuses reported and one completion. 'pour' and 'grind' are silent, and 'slide' stays registered when there is audio. |
| HandGrinder.Interrupted | frontend/src/components/HandGrinder.tsx:80-88 | A run stopped before its end keeps its phase, silences 'pour' and 'grind', and never completes. |
| HandGrinder.LidTarget | frontend/src/components/HandGrinder.tsx:118-132 | The lid is swung open (1.6 high, 0.5 aside, tilted a quarter pi back) exactly while opening or pouring. Otherwise it is closed at 1.2, or 1.8 when exploded. |
| HandGrinder.OpenLidBetweenClosed | frontend/src/components/HandGrinder.tsx:119-127 | The open lid sits between the closed lid's assembled and exploded heights, whatever the view. |
| HandGrinder.HandleFrame | frontend/src/components/HandGrinder.tsx:135-141 | The crank spins clockwise at exactly 10 rad/s while grinding, and only then. Otherwise it eases to 2.5 when exploded, or 1.5. |
| HandGrinder.CupTarget | frontend/src/components/HandGrinder.tsx:144-158 | The cup is lowered to -2.2, moved 0.5 aside and tipped 0.4 rad exactly when finished. Otherwise it rests upright at -0.8, or -1.5 when exploded. Its tilt stays under 0.5 rad and it is never higher than -0.8. |
| HandGrinder.TippedCupLowest | frontend/src/components/HandGrinder.tsx:145-153 | The tipped cup sits below both resting heights. |
| HandGrinder.Beans.constructor | frontend/src/components/HandGrinder.tsx:253 | The beans start hidden, at scale 0.1 and height 0.8. |
| HandGrinder.Beans.Frame | frontend/src/components/HandGrinder.tsx:161-176 | While pouring the beans appear and ease uniformly towards full size. While grinding they shrink and sink while any height is left. They reset in idle once the grinding flag is down. With frames of at most 250 ms their scale stays within bounds. |
| HandGrinder.Grounds.constructor | frontend/src/components/HandGrinder.tsx:305 | The grounds start hidden, at y scale 0.1 and height -0.4. |
| HandGrinder.Grounds.Frame | frontend/src/components/HandGrinder.tsx:179-192 | While grinding the grounds appear and build up while below full height. They reset in idle once the flag is down, and are otherwise unchanged. The scale stays below 1.0625. |
| HandGrinder.MaterialProps | frontend/src/components/HandGrinder.tsx:95-106 | The shared highlight on brushed steel. It is never heated. |
| Grinder.GrindSequence.constructor | frontend/src/components/Grinder.tsx:31-34 | A mounted grinder is idle, with nothing scheduled, nothing sounding and nothing reported. |
| Grinder.GrindSequence.Start | frontend/src/components/Grinder.tsx:39-45 | The effect body sets 'grinding', plays 'grind', reports "Grinding Beans" and schedules the timer, as the engine's Start prescribes. |
| Grinder.GrindSequence.Fire | frontend/src/components/Grinder.tsx:45-50 | The pending timer's callback runs, as the engine's Fire prescribes. |
| Grinder.GrindSequence.FinishGrinding | frontend/src/components/Grinder.tsx:45-50 | The only callback stops 'grind', returns to 'idle', reports "Ready" and completes, as the engine's Fire prescribes. |
| Grinder.GrindSequence.Cleanup | frontend/src/components/Grinder.tsx:53-56 | The cleanup stops 'grind' and clears the timer, as the engine's Cleanup prescribes. |
| Grinder.GrindSequence.Rerun | frontend/src/components/Grinder.tsx:36-57 | A change of the grinding flag runs the previous cleanup, then the body, as the engine's Rerun prescribes. |
| Grinder.ScriptShape | frontend/src/components/Grinder.tsx:36-57 | The script completes once, in its only timer, after 4000 ms. |
| Grinder.StepProgress | frontend/src/components/Grinder.tsx:45-50 | The timer moves a run from grinding at 0 ms to idle at 4000 ms, with "Ready" reported. |
| Grinder.StepSounds | frontend/src/components/Grinder.tsx:45-50 | 'grind' sounds exactly while grinding, when there is audio. No other tag is touched. |
| Grinder.Walkthrough | frontend/src/components/Grinder.tsx:36-57 | A run started or restarted from any state follows that schedule, sounds included. |
| Grinder.RunToEnd | frontend/src/components/Grinder.tsx:45-50 | Once the timer has fired, the grinder stays idle with both statuses reported, one completion and no sound. |
| Grinder.Interrupted | frontend/src/components/Grinder.tsx:53-56 | A run stopped before its end keeps its phase, is silent and never completes. |
| Grinder.LayoutTarget | frontend/src/components/Grinder.tsx:159-175 | The eased-towards layout, assembled or exploded, keeps the hopper above the collar above the chute above the base. |
| Grinder.ExplodedApart | frontend/src/components/Grinder.tsx:160-175 | Exploding moves every part away from the body and widens every vertical gap between neighbours. |
| Grinder.Beans.constructor | frontend/src/components/Grinder.tsx:203 | The beans start full, centred, at height -0.2. |
| Grinder.Beans.Frame | frontend/src/components/Grinder.tsx:93-109 | While grinding the level drops while above 0.1, and the mass turns and jiggles by up to 0.02. In idle, once the flag is down, the beans refill and recentre. The level never falls below 0.05 with frames of at most 250 ms. |
| Grinder.Grounds.constructor | frontend/src/components/Grinder.tsx:288 | The grounds start hidden, at y scale 0.1 and height -0.4. |
| Grinder.Grounds.Frame | frontend/src/components/Grinder.tsx:112-125 | While grinding the grounds appear and build up while below full height. They reset whenever the flag is down outside grinding. The scale stays below 1.0625. |
| Grinder.Stream.constructor | frontend/src/components/Grinder.tsx:253 | The stream starts hidden. |
| Grinder.Stream.Frame | frontend/src/components/Grinder.tsx:128-137 | The stream is visible exactly while grinding. Its width then varies by at most a fifth. |
| Grinder.Scatter | frontend/src/components/Grinder.tsx:260-268 | A particle's first placement lies in the falling column, at or below 0.2. |
| Grinder.Respawn | frontend/src/components/Grinder.tsx:148-152 | A particle that respawns reappears in the column, just below the chute (at or above 0.2). |
| Grinder.Fall | frontend/src/components/Grinder.tsx:143-153 | A particle falls 3 units a second. Once below -0.8 it is placed afresh by Respawn from that frame's draws. It never leaves the column. |
| Grinder.Particles.constructor | frontend/src/components/Grinder.tsx:259-268 | Fifteen hidden particles, each placed by its own draws, all in the column. |
| Grinder.Particles.Frame | frontend/src/components/Grinder.tsx:140-157 | While grinding every particle falls or respawns in place and the particles are shown. Otherwise they are hidden and unmoved. All stay in the column. |
| Grinder.MaterialProps | frontend/src/components/Grinder.tsx:63-74 | The shared highlight on brushed steel. It is never heated. |
| EspressoMachine.BrewSequence.constructor | frontend/src/components/EspressoMachine.tsx:29-32 | A mounted machine is idle, with nothing scheduled, nothing sounding and nothing reported. |
| EspressoMachine.BrewSequence.Start | frontend/src/components/EspressoMachine.tsx:39-45 | The effect body sets 'heating', plays 'brew', reports "Heating Boiler" and schedules the first timer, as the engine's Start prescribes. |
| EspressoMachine.BrewSequence.Fire | frontend/src/components/EspressoMachine.tsx:45-64 | The pending timer's callback runs, as the engine's Fire prescribes. |
| EspressoMachine.BrewSequence.Extract | frontend/src/components/EspressoMachine.tsx:45-48 | The first callback enters 'brewing' and reports "Extracting Espresso", as the engine's Fire prescribes. |
| EspressoMachine.BrewSequence.SteamMilk | frontend/src/components/EspressoMachine.tsx:50-55 | The second callback stops 'brew', enters 'steaming', plays 'steam' and reports "Steaming Milk", as the engine's Fire prescribes. |
| EspressoMachine.BrewSequence.ReturnToIdle | frontend/src/components/EspressoMachine.tsx:57-62 | The last callback stops 'steam', returns to 'idle', reports "Ready" and completes, as the engine's Fire prescribes. |
| EspressoMachine.BrewSequence.Cleanup | frontend/src/components/EspressoMachine.tsx:67-73 | The cleanup stops 'brew' and 'steam' and clears every timer, as the engine's Cleanup prescribes. |
| EspressoMachine.BrewSequence.Rerun | frontend/src/components/EspressoMachine.tsx:34-74 | A change of the brewing flag runs the previous cleanup, then the body, as the engine's Rerun prescribes. |
| EspressoMachine.ScriptShape | frontend/src/components/EspressoMachine.tsx:34-74 | The script completes once, in its last timer, and its delays sum to 8000 ms. |
| EspressoMachine.StepProgress | frontend/src/components/EspressoMachine.tsx:45-64 | Each timer moves a run to the next phase of heating, brewing, steaming, idle, at 0/2000/5000/8000 ms, with the statuses reported so far. |
| EspressoMachine.StepSounds | frontend/src/components/EspressoMachine.tsx:45-64 | 'brew' sounds exactly while heating or brewing and 'steam' exactly while steaming, when there is audio. |
| EspressoMachine.Walkthrough | frontend/src/components/EspressoMachine.tsx:34-74 | A run started or restarted from any state follows that schedule, sounds included. |
| EspressoMachine.RunToEnd | frontend/src/components/EspressoMachine.tsx:57-62 | Once the last timer has fired, the machine stays idle with all four statuses reported, one completion and no sound. |
| EspressoMachine.Interrupted | frontend/src/components/EspressoMachine.tsx:67-73 | A run stopped before its end keeps its phase, is silent and never completes. |
| EspressoMachine.TurnRate | frontend/src/components/EspressoMachine.tsx:100-107 | The turntable always turns, at 0.002 rad per frame exactly in idle and slower during a run. |
| EspressoMachine.StreamVisible | frontend/src/components/EspressoMachine.tsx:110-117 | The espresso stream shows exactly while brewing. |
| EspressoMachine.SteamVisible | frontend/src/components/EspressoMachine.tsx:119-130 | The steam cloud shows exactly while steaming. |
| EspressoMachine.SeenAsHeard | frontend/src/components/EspressoMachine.tsx:110-130 | At every point of a run the stream and the cloud never show together. The stream shows only with the brew sound. The cloud shows exactly with the steam sound. The two sounds never overlap. |
| EspressoMachine.LayoutTarget | frontend/src/components/EspressoMachine.tsx:133-148 | The eased-towards layout keeps the group head above the portafilter above the drip tray. |
| EspressoMachine.ExplodedApart | frontend/src/components/EspressoMachine.tsx:133-148 | Exploding moves every part away from the body and opens the gap under the group head. |
| EspressoMachine.MaterialProps | frontend/src/components/EspressoMachine.tsx:80-92 | The shared highlight on brushed steel. The group head glows hot exactly while heating. |
| MokaPot.BrewSequence.constructor | frontend/src/components/MokaPot.tsx:22-25 | A mounted pot is idle, with nothing scheduled, nothing sounding and nothing reported. |
| MokaPot.BrewSequence.Start | frontend/src/components/MokaPot.tsx:32-37 | The effect body sets 'heating', plays 'brew', reports "Heating Water" and schedules the first timer, as the engine's Start prescribes. |
| MokaPot.BrewSequence.Fire | frontend/src/components/MokaPot.tsx:37-51 | The pending timer's callback runs, as the engine's Fire prescribes. |
| MokaPot.BrewSequence.Pour | frontend/src/components/MokaPot.tsx:37-42 | The first callback stops 'brew', enters 'pouring', plays 'pour' and reports "Pressurized Extraction", as the engine's Fire prescribes. |
| MokaPot.BrewSequence.ReturnToIdle | frontend/src/components/MokaPot.tsx:44-49 | The last callback stops 'pour', returns to 'idle', reports "Ready" and completes, as the engine's Fire prescribes. |
| MokaPot.BrewSequence.Cleanup | frontend/src/components/MokaPot.tsx:53-58 | The cleanup stops 'brew' and 'pour' and clears every timer, as the engine's Cleanup prescribes. |
| MokaPot.BrewSequence.Rerun | frontend/src/components/MokaPot.tsx:27-59 | A change of the brewing flag runs the previous cleanup, then the body, as the engine's Rerun prescribes. |
| MokaPot.ScriptShape | frontend/src/components/MokaPot.tsx:27-59 | The script completes once, in its last timer, and its delays sum to 5000 ms. |
| MokaPot.StepProgress | frontend/src/components/MokaPot.tsx:37-51 | Each timer moves a run to the next phase of heating, pouring, idle, at 0/2000/5000 ms, with the statuses reported so far. |
| MokaPot.StepSounds | frontend/src/components/MokaPot.tsx:37-51 | 'brew' sounds exactly while heating and 'pour' exactly while pouring, when there is audio. |
| MokaPot.Walkthrough | frontend/src/components/MokaPot.tsx:27-59 | A run started or restarted from any state follows that schedule, sounds included. |
| MokaPot.RunToEnd | frontend/src/components/MokaPot.tsx:44-49 | Once the last timer has fired, the pot stays idle with all three statuses reported, one completion and no sound. |
| MokaPot.Interrupted | frontend/src/components/MokaPot.tsx:53-58 | A run stopped before its end keeps its phase, is silent and never completes. |
| MokaPot.TargetPositions | frontend/src/components/MokaPot.tsx:66-70 | Filter, chamber and lid stay stacked in that order, assembled or exploded. |
| MokaPot.ExplodedApart | frontend/src/components/MokaPot.tsx:66-70 | Exploding lifts every part and opens the gap under the chamber. The lid keeps the same height above the chamber. |
| MokaPot.TiltTarget | frontend/src/components/MokaPot.tsx:87-117 | The pot tips 0.4 pi exactly while pouring, and is eased upright otherwise. |
| MokaPot.StreamTilt | frontend/src/components/MokaPot.tsx:109 | The stream's counter-tilt cancels the pot's and the spout's tilts, so the stream falls straight down. |
| MokaPot.ProfileTurn | frontend/src/components/MokaPot.tsx:95-97 | While pouring the pot turns to the nearest whole turn, rounding halves up. |
| MokaPot.NextVisibleAsWritten | frontend/src/components/MokaPot.tsx:87-117 | As written, a frame shows the stream while pouring, hides it while heating, and leaves it alone in idle. |
| MokaPot.NextVisible | frontend/src/components/MokaPot.tsx:87-117 | Corrected, the stream shows exactly while pouring. |
| MokaPot.StreamLingers | frontend/src/components/MokaPot.tsx:89-92 | As written, after one pouring frame the stream stays visible through any number of idle frames. |
| MokaPot.StaysThroughIdle | frontend/src/components/MokaPot.tsx:89-92 | As written, idle frames leave the stream as they found it. |
| MokaPot.StreamFollowsPhase | frontend/src/components/MokaPot.tsx:102-116 | Corrected, the stream is visible exactly when the latest frame was drawn while pouring. |
| MokaPot.StreamAfterBrew | frontend/src/components/MokaPot.tsx:37-49 | After a full brew with one frame per phase, the stream as written shows over the idle pot. Corrected, it is hidden. |
| MokaPot.PourStream.constructor | frontend/src/components/MokaPot.tsx:201 | The stream starts hidden and untilted. |
| MokaPot.PourStream.FrameAsWritten | frontend/src/components/MokaPot.tsx:103-116 | The stream's visibility follows the as-written rule, and its counter-tilt is set only while pouring. |
| MokaPot.PourStream.Frame | frontend/src/components/MokaPot.tsx:103-116 | The stream's visibility follows the corrected rule, and its counter-tilt is set only while pouring. |
| MokaPot.SeenAsHeard | frontend/src/components/MokaPot.tsx:37-49 | At every point of a run the pour sound is on exactly while the corrected stream shows, when there is audio. The brew and pour sounds never overlap. |
| MokaPot.MaterialProps | frontend/src/components/MokaPot.tsx:121-133 | The shared highlight on steel (metalness 0.8). The boiler glows hot exactly while heating. |
| Scene.EquipmentName | frontend/src/components/Scene.tsx:38-47 | Every piece of equipment has a non-empty dropdown label. |
| Scene.NamesDistinct | frontend/src/components/Scene.tsx:38-47 | No two pieces of equipment share a label. |
| Scene.PerformanceData | frontend/src/components/Scene.tsx:101-146 | Five ratings per piece of equipment, each between 0 and its full mark of 100. Grinders are rated on the grinder axes, everything else on the flavour axes. |
| Scene.Glossary | frontend/src/components/Scene.tsx:148-166 | Five defined terms: the grinder terms for both grinders, the flavour terms otherwise. |
| Scene.ChartMatchesGlossary | frontend/src/components/Scene.tsx:101-166 | For every piece of equipment, each chart axis is explained by the glossary entry in the same position. |
| Scene.PartDescription | frontend/src/components/Scene.tsx:552-648 | 'Lid' and 'Handle' get the moka pot's or the French press's own text, and the generic text for any other equipment. Other known parts get their entry. An unknown name gets "Select a part to learn more." |
| Scene.OnlySharedNamesVary | frontend/src/components/Scene.tsx:555-568 | Only 'Lid' and 'Handle' are described differently for different equipment, and the moka pot's and French press's texts for them differ. |
| Scene.EveryPartDescribed | frontend/src/components/Scene.tsx:552-648 | Every part a visitor can click has a case of its own. A shared name is only clicked on equipment with its own text for it. |
| Scene.StartDisabled | frontend/src/components/Scene.tsx:494 | The start button is disabled exactly while a run is on, since all six pieces of equipment pass the allow-list. |
| Scene.StatusOverlayShown | frontend/src/components/Scene.tsx:506 | The status overlay shows exactly while a run is on and the message is non-empty. |
| Scene.InfoPanelShown | frontend/src/components/Scene.tsx:438 | The information panel shows exactly while a non-empty part name is selected and the panel has not been closed. |
| Scene.SceneState.constructor | frontend/src/components/Scene.tsx:17-24 | The first render shows the assembled moka pot, with nothing selected, no run, dark mode, no message, and neither overlay nor panel. |
| Scene.SceneState.BrewComplete | frontend/src/components/Scene.tsx:26-29 | Completion ends the run and sets the message to "Ready", so the overlay is hidden. Nothing else changes. |
| Scene.SceneState.SetStatus | frontend/src/components/Scene.tsx:189 | A status report replaces the message. Nothing else changes. |
| Scene.SceneState.ChangeEquipment | frontend/src/components/Scene.tsx:31-36 | Switching equipment clears the selection, collapses the view and closes the dropdown. A run in progress is left on. |
| Scene.SceneState.PressStart | frontend/src/components/Scene.tsx:493-494 | Pressing start begins a run exactly when the button is enabled, and is a no-op otherwise. |
| Scene.SceneState.SelectPart | frontend/src/components/Scene.tsx:185 | Clicking a part selects it and re-allows the panel, which then shows. |
| Scene.SceneState.ResetSelection | frontend/src/components/Scene.tsx:482 | Reset clears the selection and hides the panel. |
| Scene.SceneState.CloseInfo | frontend/src/components/Scene.tsx:447 | Closing the panel hides it and keeps the selection. |
| Scene.SceneState.ToggleExplode | frontend/src/components/Scene.tsx:471 | The explode button flips the view. Nothing else changes. |
| Scene.SceneState.ToggleDropdown | frontend/src/components/Scene.tsx:269 | The equipment button opens or closes the dropdown. Nothing else changes. |
| Scene.SceneState.ToggleTheme | frontend/src/components/Scene.tsx:529 | The theme button flips dark mode. Nothing else changes. |

## Left out

- JSX scene graphs, geometry, hover handlers and the cursor style: these are presentation through three.js and React.
- Positions of the eased parts. The model states each frame's targets and proves how the easing step behaves (`Interpolator`). It does not track every mesh's position across frames, except the objects kept as classes.
- The liquid colour transition (`Color.lerp`): only its target colour is modelled.
- Continuous turntable rotation and the burr grinder's vibration. The exceptions are the espresso machine's rate and the moka pot's tilt and profile turn, which are modelled.
- The espresso stream pulse and the steam cloud jitter, which are clock-driven presentation.
- The clock and `Math.random`. Sines and cosines of the clock are parameters, and so are the random draws (one triple per particle). Particle and bean rotations drawn at render time are not modelled.
- `setTimeout` wall-clock time. Only the order in which timers fire and the sum of their delays are kept.
- Web Audio detail: oscillator frequencies, filter settings, noise buffers and resuming a suspended context. The 100 ms fade and the 150 ms stop-and-disconnect are collapsed into one hand-over of the nodes for release. Closing the context on unmount is not modelled.
- Per-mesh colour, roughness and opacity overrides written after the shared highlight in the JSX.
- `getEquipmentDescription` and `getTechSpecs` in frontend/src/components/Scene.tsx: static text with no behaviour to prove. They are not part of this model.
- frontend/src/components/PerformanceRadar.tsx (SVG layout by trigonometry) and backend/src/server.ts are not part of this model.
- Interpolator.Lerp: computed over exact reals, not IEEE doubles, so rounding is not modelled.
- Scene.PartDescription: states that an unknown name gets the default text, but not the converse. It does not state that no entry's text equals the default, because comparing the long literal texts is beyond the solver's budget. Entries are keyed through a `Part` datatype for the same reason.
- Scene.EveryPartDescribed: states that every clickable name has its own case, not what that case's text is.
- FrenchPress.Frame: models which parts a frame skips, not the skipped easing itself. While pressing outside the exploded view, the grounds, the liquid height and the liquid colour stop easing for the whole 3000 ms. Any part not yet at its steeping target stays short of it until 'finished'.
- HandGrinder.Beans.Frame: the x and z scale are kept as one value, since the source always sets them together.

## Findings

| source | as written | input that shows it | evidently intended | confidence | as-written member | corrected member |
|---|---|---|---|---|---|---|
| frontend/src/components/Aeropress.tsx:122-126 | While pressing outside the exploded view, the frame returns right after moving the plunger. The chamber's "pressed out" height of 0.1 and the mug's fill of 0.8, set for that phase further down, never run. | brewStep = 'pressing', exploded = false: the mug stays empty until 'finished', and the chamber is never driven to 0.1. | The coffee leaves the chamber and fills the mug while the plunger goes down. | not executed; high | Aeropress.FrameAsWritten, Aeropress.PressedCoffeeSkipped | Aeropress.Frame, Aeropress.PressedCoffeeFlows |
| frontend/src/components/MokaPot.tsx:89-92 | The idle branch of the frame never hides the pour stream. Only the heating branch does. | A full brew, with frames in heating, pouring and then idle: the stream shown while pouring stays visible over the idle pot. | The stream shows only while pouring, as the initial `visible={false}` and the heating branch indicate. | not executed; high | MokaPot.PourStream.FrameAsWritten, MokaPot.StreamLingers, MokaPot.StreamAfterBrew | MokaPot.PourStream.Frame, MokaPot.StreamFollowsPhase |
