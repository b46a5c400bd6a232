/**
 * The moka pot component: its brew sequence (an effect keyed on the brewing
 * flag that chains two timers), its explode targets, the boiler's heating
 * glow and the pour stream's visibility.
 */
module MokaPot {
  import opened Wrappers
  import Sound
  import Sequencer
  import Materials

  datatype BrewStep = Idle | Heating | Pouring

  /** The brew effect as data: start block, the chained timers, the tags its cleanup stops. */
  const BrewScript: Sequencer.Script<BrewStep> := Sequencer.Script(
    [Sequencer.SetPhase(Heating), Sequencer.Play(Sound.Brew), Sequencer.Emit("Heating Water")],
    [ Sequencer.Timer(2000, [Sequencer.Stop(Sound.Brew), Sequencer.SetPhase(Pouring), Sequencer.Play(Sound.Pour), Sequencer.Emit("Pressurized Extraction")]),
      Sequencer.Timer(3000, [Sequencer.Stop(Sound.Pour), Sequencer.SetPhase(Idle), Sequencer.Emit("Ready"), Sequencer.Complete]) ],
    {Sound.Brew, Sound.Pour})

  /** The phase after the start block and after each timer. */
  const Schedule: seq<BrewStep> := [Heating, Pouring, Idle]
  /** Milliseconds after the start at which each of those phases is entered. */
  const Times: seq<nat> := [0, 2000, 5000]
  /** Every status a run reports, in order. */
  const Statuses: seq<string> := ["Heating Water", "Pressurized Extraction", "Ready"]
  /** How many of those have been reported after the start block and after each timer. */
  const Reported: seq<nat> := [1, 2, 3]

  /**
   * The brew effect of one mounted moka pot: its phase, the pending timer, its
   * own sound registry, the statuses and completions it has reported to the
   * scene, and (for the proofs) the delays that have elapsed.
   */
  class BrewSequence {
    var brewStep: BrewStep
    var pending: Option<nat>
    const audio: Sound.Registry
    var statuses: seq<string>
    var completions: nat
    ghost var elapsed: nat

    ghost predicate Valid()
      reads this, audio
    {
      audio.Valid()
    }

    /** The sequencer state this component is in. */
    ghost function Abstract(): Sequencer.State<BrewStep>
      reads this, audio
    {
      Sequencer.State(brewStep, pending, audio.active.Keys, audio.hasContext, statuses, completions, elapsed)
    }

    /** Mounting: idle, nothing scheduled, nothing sounding, nothing reported. */
    constructor (hasAudio: bool)
      ensures Valid() && fresh(audio)
      ensures Abstract() == Sequencer.State(Idle, None, {}, hasAudio, [], 0, 0)
    {
      brewStep := Idle;
      pending := None;
      audio := new Sound.Registry(hasAudio);
      statuses := [];
      completions := 0;
      elapsed := 0;
    }

    /** The effect body with the brewing flag set: its first block, then the first timer is scheduled. */
    method Start()
      requires Valid()
      modifies this, audio
      ensures Valid()
      ensures Abstract() == Sequencer.Start(BrewScript, old(Abstract()))
    {
      ghost var s := Abstract();
      Sequencer.ApplyAllSteps(s, BrewScript.start);
      brewStep := Heating;
      audio.Play(Sound.Brew);
      statuses := statuses + ["Heating Water"];
      pending := Some(0);
    }

    /** The pending timer elapses: its callback runs. */
    method Fire()
      requires Valid()
      modifies this, audio
      ensures Valid()
      ensures Abstract() == Sequencer.Fire(BrewScript, old(Abstract()))
    {
      if pending.None? {
        return;
      }
      var k := pending.value;
      if k == 0 {
        Pour();
      } else if k == 1 {
        ReturnToIdle();
      } else {
        pending := None;
      }
    }

    /** The first timer's callback: heating ends and the coffee pours. */
    method Pour()
      requires Valid() && pending == Some(0)
      modifies this, audio
      ensures Valid()
      ensures Abstract() == Sequencer.Fire(BrewScript, old(Abstract()))
    {
      ghost var s := Abstract();
      Sequencer.ApplyAllSteps(s, BrewScript.timers[0].actions);
      ghost var t := s;
      audio.Stop(Sound.Brew);
      t := Sequencer.Apply(t, Sequencer.Stop(Sound.Brew));
      assert Abstract() == t;
      brewStep := Pouring;
      t := Sequencer.Apply(t, Sequencer.SetPhase(Pouring));
      assert Abstract() == t;
      audio.Play(Sound.Pour);
      t := Sequencer.Apply(t, Sequencer.Play(Sound.Pour));
      assert Abstract() == t;
      statuses := statuses + ["Pressurized Extraction"];
      t := Sequencer.Apply(t, Sequencer.Emit("Pressurized Extraction"));
      assert Abstract() == t;
      elapsed := elapsed + BrewScript.timers[0].delay;
      pending := Some(1);
    }

    /** The second timer's callback: pouring ends, "Ready", and completion. */
    method ReturnToIdle()
      requires Valid() && pending == Some(1)
      modifies this, audio
      ensures Valid()
      ensures Abstract() == Sequencer.Fire(BrewScript, old(Abstract()))
    {
      ghost var s := Abstract();
      Sequencer.ApplyAllSteps(s, BrewScript.timers[1].actions);
      ghost var t := s;
      audio.Stop(Sound.Pour);
      t := Sequencer.Apply(t, Sequencer.Stop(Sound.Pour));
      assert Abstract() == t;
      brewStep := Idle;
      t := Sequencer.Apply(t, Sequencer.SetPhase(Idle));
      assert Abstract() == t;
      statuses := statuses + ["Ready"];
      t := Sequencer.Apply(t, Sequencer.Emit("Ready"));
      assert Abstract() == t;
      completions := completions + 1;
      t := Sequencer.Apply(t, Sequencer.Complete);
      assert Abstract() == t;
      elapsed := elapsed + BrewScript.timers[1].delay;
      pending := None;
    }

    /** The effect's cleanup function: stop its sounds, clear every timer. */
    method Cleanup()
      requires Valid()
      modifies this, audio
      ensures Valid()
      ensures Abstract() == Sequencer.Cleanup(BrewScript, old(Abstract()))
    {
      audio.Stop(Sound.Brew);
      audio.Stop(Sound.Pour);
      pending := None;
    }

    /** The brewing flag changed: React runs the previous cleanup, then the body. */
    method Rerun(brewing: bool)
      requires Valid()
      modifies this, audio
      ensures Valid()
      ensures Abstract() == Sequencer.Rerun(BrewScript, old(Abstract()), brewing)
    {
      Cleanup();
      if brewing {
        Start();
      }
    }
  }

  /** The script reports completion once, in its last timer, and its delays sum to 5000 ms. */
  lemma ScriptShape()
    ensures Sequencer.CompletesOnceAtEnd(BrewScript)
    ensures Sequencer.Elapsed(BrewScript, |BrewScript.timers|) == 5000
  {
    var ts := BrewScript.timers;
    Sequencer.NoCompletion(BrewScript.start);
    forall i | 0 <= i < |ts| - 1
      ensures Sequencer.Completions(ts[i].actions) == 0
    {
      Sequencer.NoCompletion(ts[i].actions);
    }
    assert Sequencer.Elapsed(BrewScript, 1) == 2000;
    assert Sequencer.Elapsed(BrewScript, 2) == 5000;
    var last := ts[|ts| - 1].actions;
    Sequencer.NoCompletion(last[..|last| - 1]);
  }

  /**
   * Where a run started (or restarted) from `s` stands after its start block
   * and `k` timers: in phase Schedule[k], Times[k] ms later, having reported
   * the first Reported[k] statuses, and completed only at the end.
   */
  ghost predicate Progress(s: Sequencer.State<BrewStep>, r: Sequencer.State<BrewStep>, k: nat)
    requires k < |Schedule|
  {
    && r.phase == Schedule[k]
    && r.pending == (if k < 2 then Some(k) else None)
    && r.elapsed == s.elapsed + Times[k]
    && r.statuses == s.statuses + Statuses[..Reported[k]]
    && r.completions == s.completions + (if k == 2 then 1 else 0)
    && r.audible == s.audible
  }

  /**
   * What sounds at that point: 'brew' exactly while heating and 'pour'
   * exactly while pouring (when there is audio at all); no other tag has
   * been touched.
   */
  ghost predicate Sounds(s: Sequencer.State<BrewStep>, r: Sequencer.State<BrewStep>, k: nat)
  {
    && (Sound.Brew in r.playing <==> s.audible && r.phase == Heating)
    && (Sound.Pour in r.playing <==> s.audible && r.phase == Pouring)
    && r.playing - {Sound.Brew, Sound.Pour} == s.playing - {Sound.Brew, Sound.Pour}
  }

  /** Each timer moves a run from one row of the schedule to the next. */
  lemma StepProgress(s: Sequencer.State<BrewStep>, r: Sequencer.State<BrewStep>, k: nat)
    requires 1 <= k < |Schedule| && Progress(s, r, k - 1)
    ensures Progress(s, Sequencer.Fire(BrewScript, r), k)
  {
    Sequencer.ApplyAllSteps(r, BrewScript.timers[k - 1].actions);
    if k == 1 {
      assert Statuses[..2] == Statuses[..1] + [Statuses[1]];
    } else if k == 2 {
      assert Statuses[..3] == Statuses[..2] + [Statuses[2]];
    }
  }

  /** Each timer starts and stops the sounds of the phase it enters. */
  lemma StepSounds(s: Sequencer.State<BrewStep>, r: Sequencer.State<BrewStep>, k: nat)
    requires 1 <= k < |Schedule| && Progress(s, r, k - 1) && Sounds(s, r, k - 1)
    ensures Sounds(s, Sequencer.Fire(BrewScript, r), k)
  {
    StepProgress(s, r, k);
    if k == 1 {
      Sequencer.ApplyAllSteps(r, BrewScript.timers[0].actions);
    } else if k == 2 {
      Sequencer.ApplyAllSteps(r, BrewScript.timers[1].actions);
    }
  }

  /** A run started (or restarted) from any state follows the schedule, sounds included. */
  lemma {:induction false} Walkthrough(s: Sequencer.State<BrewStep>, k: nat)
    requires k < |Schedule|
    ensures var r := Sequencer.Run(BrewScript, Sequencer.Rerun(BrewScript, s, true), k);
      Progress(s, r, k) && Sounds(s, r, k)
  {
    var c := Sequencer.Cleanup(BrewScript, s);
    if k == 0 {
      Sequencer.ApplyAllSteps(c, BrewScript.start);
    } else {
      Walkthrough(s, k - 1);
      var prev := Sequencer.Run(BrewScript, Sequencer.Start(BrewScript, c), k - 1);
      StepProgress(s, prev, k);
      StepSounds(s, prev, k);
    }
  }

  /** Once the last timer has fired the run stays finished: idle, "Ready" last, one completion, silent. */
  lemma RunToEnd(s: Sequencer.State<BrewStep>, n: nat)
    requires n >= |Schedule| - 1
    ensures var r := Sequencer.Run(BrewScript, Sequencer.Rerun(BrewScript, s, true), n);
      && r.phase == Idle && r.pending == None
      && r.statuses == s.statuses + Statuses
      && r.completions == s.completions + 1
      && Sound.Brew !in r.playing && Sound.Pour !in r.playing
  {
    if n == |Schedule| - 1 {
      Walkthrough(s, n);
    } else {
      var c := Sequencer.Cleanup(BrewScript, s);
      Sequencer.RunPastEnd(BrewScript, c, n);
      Sequencer.RunPastEnd(BrewScript, c, |Schedule| - 1);
      Walkthrough(s, |Schedule| - 1);
    }
  }

  /**
   * The brewing flag switched off after the start block and `k` < 2 timers:
   * the cleanup silences brew and pour, and however many timers would later
   * have been due, no phase, sound, status or completion follows.
   */
  lemma Interrupted(s: Sequencer.State<BrewStep>, k: nat, n: nat)
    requires k < |Schedule| - 1
    ensures var t := Sequencer.Rerun(BrewScript, Sequencer.Run(BrewScript, Sequencer.Rerun(BrewScript, s, true), k), false);
      && Sequencer.Run(BrewScript, t, n) == t
      && t.pending == None && t.phase == Schedule[k]
      && t.completions == s.completions
      && Sound.Brew !in t.playing && Sound.Pour !in t.playing
  {
    var r := Sequencer.Run(BrewScript, Sequencer.Rerun(BrewScript, s, true), k);
    Walkthrough(s, k);
    Sequencer.NoEffectAfterCleanup(BrewScript, r, n);
  }

  // -----------------------------------------------------------------------
  // Animation frame.

  /** The heights the frame eases the stacked parts towards. */
  datatype Stack = Stack(filterY: real, chamberY: real, lidY: real)

  /** The eased-towards heights, assembled or exploded; the filter, chamber and lid stay stacked in that order. */
  function TargetPositions(exploded: bool): (p: Stack)
    ensures p.filterY < p.chamberY < p.lidY
    ensures exploded ==> p == Stack(1.2, 2.5, 3.5)
    ensures !exploded ==> p == Stack(0.8, 1.6, 2.6)
  {
    Stack(if exploded then 1.2 else 0.8, if exploded then 2.5 else 1.6, if exploded then 3.5 else 2.6)
  }

  /** Exploding lifts every part, opens the gap under the chamber and keeps the lid a fixed height above the chamber. */
  lemma ExplodedApart()
    ensures var e, a := TargetPositions(true), TargetPositions(false);
      && e.filterY > a.filterY && e.chamberY > a.chamberY && e.lidY > a.lidY
      && e.chamberY - e.filterY > a.chamberY - a.filterY
      && e.lidY - e.chamberY == a.lidY - a.chamberY
  {
  }

  /** The pot's tilt target, in multiples of pi radians: tipped 0.4 pi (spout down) to pour, upright otherwise. */
  function TiltTarget(step: BrewStep): (z: real)
    ensures z != 0.0 <==> step == Pouring
    ensures step == Pouring ==> z == 0.4
  {
    if step == Pouring then 0.4 else 0.0
  }

  /** The spout's own tilt within the pot, in multiples of pi radians. */
  const SpoutTilt: real := -0.25

  /** The stream's counter-tilt for a pot tilted by `potTilt`: the three tilts cancel, so the stream falls straight down. */
  function StreamTilt(potTilt: real): (z: real)
    ensures potTilt + SpoutTilt + z == 0.0
  {
    -(potTilt + SpoutTilt)
  }

  /**
   * While pouring, the pot's turn about its axis eases to the nearest whole
   * turn (angles here in turns): JavaScript's Math.round, which rounds halves up.
   */
  function ProfileTurn(turns: real): (t: int)
    ensures turns - 0.5 < t as real <= turns + 0.5
  {
    (turns + 0.5).Floor
  }

  /** The pour stream's visibility after one frame, as the callback is written: shown while pouring, hidden while heating, untouched in idle. */
  function NextVisibleAsWritten(visible: bool, step: BrewStep): (v: bool)
    ensures step == Pouring ==> v
    ensures step == Heating ==> !v
    ensures step == Idle ==> v == visible
  {
    match step
    case Pouring => true
    case Heating => false
    case Idle => visible
  }

  /** The pour stream's visibility after one frame, corrected: shown exactly while pouring, whatever it was before. */
  function NextVisible(step: BrewStep): (v: bool)
    ensures v <==> step == Pouring
  {
    step == Pouring
  }

  /** Visibility after frames in each of the phases `steps`, as written. */
  function VisibleAfterAsWritten(visible: bool, steps: seq<BrewStep>): bool
    decreases |steps|
  {
    if steps == [] then visible else VisibleAfterAsWritten(NextVisibleAsWritten(visible, steps[0]), steps[1..])
  }

  /** Visibility after frames in each of the phases `steps`, corrected. */
  function VisibleAfter(visible: bool, steps: seq<BrewStep>): bool
    decreases |steps|
  {
    if steps == [] then visible else VisibleAfter(NextVisible(steps[0]), steps[1..])
  }

  /** As written, once a frame has been drawn while pouring, the stream stays up through any number of idle frames. */
  lemma {:induction false} StreamLingers(visible: bool, before: seq<BrewStep>, idle: seq<BrewStep>)
    requires forall i | 0 <= i < |idle| :: idle[i] == Idle
    ensures VisibleAfterAsWritten(visible, before + [Pouring] + idle)
    decreases |before| + |idle|
  {
    if before != [] {
      assert (before + [Pouring] + idle)[1..] == before[1..] + [Pouring] + idle;
      StreamLingers(NextVisibleAsWritten(visible, before[0]), before[1..], idle);
    } else if idle != [] {
      assert ([Pouring] + idle)[1..] == idle;
      StaysThroughIdle(true, idle);
    } else {
      assert ([Pouring] + idle)[1..] == [];
    }
  }

  /** Idle frames leave the stream as written exactly as they found it. */
  lemma {:induction false} StaysThroughIdle(visible: bool, idle: seq<BrewStep>)
    requires forall i | 0 <= i < |idle| :: idle[i] == Idle
    ensures VisibleAfterAsWritten(visible, idle) == visible
    decreases |idle|
  {
    if idle != [] {
      StaysThroughIdle(visible, idle[1..]);
    }
  }

  /** Corrected, the stream shows exactly when the latest frame was drawn while pouring. */
  lemma {:induction false} StreamFollowsPhase(visible: bool, steps: seq<BrewStep>)
    requires steps != []
    ensures VisibleAfter(visible, steps) <==> steps[|steps| - 1] == Pouring
    decreases |steps|
  {
    if |steps| > 1 {
      StreamFollowsPhase(NextVisible(steps[0]), steps[1..]);
    }
  }

  /**
   * One frame in each phase of a brew (heating, pouring, then idle) leaves
   * the stream as written showing over the idle pot; corrected, it is hidden.
   */
  lemma StreamAfterBrew()
    ensures VisibleAfterAsWritten(false, Schedule)
    ensures !VisibleAfter(false, Schedule)
    ensures Schedule[|Schedule| - 1] == Idle
  {
    assert Schedule == [Heating] + [Pouring] + [Idle];
    StreamLingers(false, [Heating], [Idle]);
    StreamFollowsPhase(false, Schedule);
  }

  /** The pour stream group: its visibility and its counter-tilt, both set in place by the frame callback. */
  class PourStream {
    var visible: bool
    var tilt: real

    /** The stream as first rendered: hidden and untilted. */
    constructor ()
      ensures !visible && tilt == 0.0
    {
      visible, tilt := false, 0.0;
    }

    /**
     * The stream's part of a frame as written, `potTilt` being the pot's
     * tilt after this frame's easing: shown and counter-tilted while
     * pouring, hidden while heating, left alone in idle.
     */
    method FrameAsWritten(step: BrewStep, potTilt: real)
      modifies this
      ensures visible == NextVisibleAsWritten(old(visible), step)
      ensures step == Pouring ==> tilt == StreamTilt(potTilt)
      ensures step != Pouring ==> tilt == old(tilt)
    {
      if step == Pouring {
        visible := true;
        tilt := StreamTilt(potTilt);
      } else if step == Heating {
        visible := false;
      }
    }

    /** The stream's part of a frame, corrected so that idle frames hide it as heating frames do. */
    method Frame(step: BrewStep, potTilt: real)
      modifies this
      ensures visible == NextVisible(step)
      ensures step == Pouring ==> tilt == StreamTilt(potTilt)
      ensures step != Pouring ==> tilt == old(tilt)
    {
      if step == Pouring {
        visible := true;
        tilt := StreamTilt(potTilt);
      } else {
        visible := false;
      }
    }
  }

  /**
   * At every point of a run the pour sound is on exactly while the
   * (corrected) stream shows, when there is audio, and the brew and pour
   * sounds never overlap.
   */
  lemma SeenAsHeard(s: Sequencer.State<BrewStep>, k: nat)
    requires k < |Schedule|
    ensures var r := Sequencer.Run(BrewScript, Sequencer.Rerun(BrewScript, s, true), k);
      && (Sound.Pour in r.playing <==> s.audible && NextVisible(r.phase))
      && !(Sound.Brew in r.playing && Sound.Pour in r.playing)
  {
    Walkthrough(s, k);
  }

  /**
   * getMaterialProps: steel parts with the usual selection and hover
   * highlight; the boiler glows while heating, over any selection glow.
   */
  function MaterialProps(part: string, selected: Option<string>, hovered: Option<string>, step: BrewStep): (m: Materials.Material)
    ensures m == Materials.Highlight(part, selected, hovered, "#d0d0d0", Some(Materials.Finish(0.2, 0.8)), step == Heating && part == "Boiler")
    ensures m.emissive == Materials.HeatGlow <==> step == Heating && part == "Boiler"
    ensures m.emissiveIntensity > 0.0 <==> (step == Heating && part == "Boiler") || selected == Some(part)
  {
    Materials.Highlight(part, selected, hovered, "#d0d0d0", Some(Materials.Finish(0.2, 0.8)), step == Heating && part == "Boiler")
  }
}
