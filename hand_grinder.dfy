/**
 * The hand grinder component: its grind sequence (an effect keyed on the
 * grinding flag that chains five timers), the lid, handle and catch-cup
 * targets of its animation frame, its in-place bean and grounds updates, and
 * its part highlight.
 */
module HandGrinder {
  import opened Wrappers
  import Sound
  import Sequencer
  import Materials
  import Interpolator

  datatype GrindStep = Idle | Opening | Pouring | Closing | Grinding | Finished

  /** The grind effect as data: start block, the chained timers, the tags its cleanup stops. */
  const GrindScript: Sequencer.Script<GrindStep> := Sequencer.Script(
    [Sequencer.SetPhase(Opening), Sequencer.Emit("Opening Lid")],
    [ Sequencer.Timer(1000, [Sequencer.SetPhase(Pouring), Sequencer.Play(Sound.Pour), Sequencer.Emit("Pouring Beans")]),
      Sequencer.Timer(1000, [Sequencer.Stop(Sound.Pour), Sequencer.SetPhase(Closing), Sequencer.Emit("Closing Lid")]),
      Sequencer.Timer(1000, [Sequencer.SetPhase(Grinding), Sequencer.Play(Sound.Grind), Sequencer.Emit("Grinding Beans")]),
      Sequencer.Timer(4000, [Sequencer.Stop(Sound.Grind), Sequencer.SetPhase(Finished), Sequencer.Play(Sound.Slide), Sequencer.Emit("Grounds Ready")]),
      Sequencer.Timer(2000, [Sequencer.SetPhase(Idle), Sequencer.Emit("Ready"), Sequencer.Complete]) ],
    {Sound.Pour, Sound.Grind})

  /** The phase after the start block and after each timer. */
  const Schedule: seq<GrindStep> := [Opening, Pouring, Closing, Grinding, Finished, Idle]
  /** Milliseconds after the start at which each of those phases is entered. */
  const Times: seq<nat> := [0, 1000, 2000, 3000, 7000, 9000]
  /** Every status a run reports, in order. */
  const Statuses: seq<string> := ["Opening Lid", "Pouring Beans", "Closing Lid", "Grinding Beans", "Grounds Ready", "Ready"]
  /** How many of those have been reported after the start block and after each timer. */
  const Reported: seq<nat> := [1, 2, 3, 4, 5, 6]

  /**
   * The grind effect of one mounted hand grinder: its phase, the pending timer, its
   * own sound registry, the statuses and completions it has reported to the
   * scene, and (for the proofs) the delays that have elapsed.
   */
  class GrindSequence {
    var grindStep: GrindStep
    var pending: Option<nat>
    const audio: Sound.Registry
    var statuses: seq<string>
    var completions: nat
    ghost var elapsed: nat

    ghost predicate Valid()
      reads this, audio
    {
      audio.Valid()
    }

    /** The sequencer state this component is in. */
    ghost function Abstract(): Sequencer.State<GrindStep>
      reads this, audio
    {
      Sequencer.State(grindStep, pending, audio.active.Keys, audio.hasContext, statuses, completions, elapsed)
    }

    /** Mounting: idle, nothing scheduled, nothing sounding, nothing reported. */
    constructor (hasAudio: bool)
      ensures Valid() && fresh(audio)
      ensures Abstract() == Sequencer.State(Idle, None, {}, hasAudio, [], 0, 0)
    {
      grindStep := Idle;
      pending := None;
      audio := new Sound.Registry(hasAudio);
      statuses := [];
      completions := 0;
      elapsed := 0;
    }

    /** The effect body with the grinding flag set: its first block, then the first timer is scheduled. */
    method Start()
      requires Valid()
      modifies this, audio
      ensures Valid()
      ensures Abstract() == Sequencer.Start(GrindScript, old(Abstract()))
    {
      ghost var s := Abstract();
      Sequencer.ApplyAllSteps(s, GrindScript.start);
      grindStep := Opening;
      statuses := statuses + ["Opening Lid"];
      pending := Some(0);
    }

    /** The pending timer elapses: its callback runs. */
    method Fire()
      requires Valid()
      modifies this, audio
      ensures Valid()
      ensures Abstract() == Sequencer.Fire(GrindScript, old(Abstract()))
    {
      if pending.None? {
        return;
      }
      var k := pending.value;
      if k == 0 {
        PourBeans();
      } else if k == 1 {
        CloseLid();
      } else if k == 2 {
        Grind();
      } else if k == 3 {
        ShowGrounds();
      } else if k == 4 {
        ReturnToIdle();
      } else {
        pending := None;
      }
    }

    /** The first timer's callback: beans pour in. */
    method PourBeans()
      requires Valid() && pending == Some(0)
      modifies this, audio
      ensures Valid()
      ensures Abstract() == Sequencer.Fire(GrindScript, old(Abstract()))
    {
      ghost var s := Abstract();
      Sequencer.ApplyAllSteps(s, GrindScript.timers[0].actions);
      ghost var t := s;
      grindStep := Pouring;
      t := Sequencer.Apply(t, Sequencer.SetPhase(Pouring));
      assert Abstract() == t;
      audio.Play(Sound.Pour);
      t := Sequencer.Apply(t, Sequencer.Play(Sound.Pour));
      assert Abstract() == t;
      statuses := statuses + ["Pouring Beans"];
      t := Sequencer.Apply(t, Sequencer.Emit("Pouring Beans"));
      assert Abstract() == t;
      elapsed := elapsed + GrindScript.timers[0].delay;
      pending := Some(1);
    }

    /** The second timer's callback: the pour ends and the lid closes. */
    method CloseLid()
      requires Valid() && pending == Some(1)
      modifies this, audio
      ensures Valid()
      ensures Abstract() == Sequencer.Fire(GrindScript, old(Abstract()))
    {
      ghost var s := Abstract();
      Sequencer.ApplyAllSteps(s, GrindScript.timers[1].actions);
      ghost var t := s;
      audio.Stop(Sound.Pour);
      t := Sequencer.Apply(t, Sequencer.Stop(Sound.Pour));
      assert Abstract() == t;
      grindStep := Closing;
      t := Sequencer.Apply(t, Sequencer.SetPhase(Closing));
      assert Abstract() == t;
      statuses := statuses + ["Closing Lid"];
      t := Sequencer.Apply(t, Sequencer.Emit("Closing Lid"));
      assert Abstract() == t;
      elapsed := elapsed + GrindScript.timers[1].delay;
      pending := Some(2);
    }

    /** The third timer's callback: the handle turns. */
    method Grind()
      requires Valid() && pending == Some(2)
      modifies this, audio
      ensures Valid()
      ensures Abstract() == Sequencer.Fire(GrindScript, old(Abstract()))
    {
      ghost var s := Abstract();
      Sequencer.ApplyAllSteps(s, GrindScript.timers[2].actions);
      ghost var t := s;
      grindStep := Grinding;
      t := Sequencer.Apply(t, Sequencer.SetPhase(Grinding));
      assert Abstract() == t;
      audio.Play(Sound.Grind);
      t := Sequencer.Apply(t, Sequencer.Play(Sound.Grind));
      assert Abstract() == t;
      statuses := statuses + ["Grinding Beans"];
      t := Sequencer.Apply(t, Sequencer.Emit("Grinding Beans"));
      assert Abstract() == t;
      elapsed := elapsed + GrindScript.timers[2].delay;
      pending := Some(3);
    }

    /** The fourth timer's callback: grinding ends and the catch cup slides out. */
    method ShowGrounds()
      requires Valid() && pending == Some(3)
      modifies this, audio
      ensures Valid()
      ensures Abstract() == Sequencer.Fire(GrindScript, old(Abstract()))
    {
      ghost var s := Abstract();
      Sequencer.ApplyAllSteps(s, GrindScript.timers[3].actions);
      ghost var t := s;
      audio.Stop(Sound.Grind);
      t := Sequencer.Apply(t, Sequencer.Stop(Sound.Grind));
      assert Abstract() == t;
      grindStep := Finished;
      t := Sequencer.Apply(t, Sequencer.SetPhase(Finished));
      assert Abstract() == t;
      audio.Play(Sound.Slide);
      t := Sequencer.Apply(t, Sequencer.Play(Sound.Slide));
      assert Abstract() == t;
      statuses := statuses + ["Grounds Ready"];
      t := Sequencer.Apply(t, Sequencer.Emit("Grounds Ready"));
      assert Abstract() == t;
      elapsed := elapsed + GrindScript.timers[3].delay;
      pending := Some(4);
    }

    /** The fifth timer's callback: back to idle, "Ready", and completion. */
    method ReturnToIdle()
      requires Valid() && pending == Some(4)
      modifies this
      ensures Valid()
      ensures Abstract() == Sequencer.Fire(GrindScript, old(Abstract()))
    {
      ghost var s := Abstract();
      Sequencer.ApplyAllSteps(s, GrindScript.timers[4].actions);
      ghost var t := s;
      grindStep := Idle;
      t := Sequencer.Apply(t, Sequencer.SetPhase(Idle));
      assert Abstract() == t;
      statuses := statuses + ["Ready"];
      t := Sequencer.Apply(t, Sequencer.Emit("Ready"));
      assert Abstract() == t;
      completions := completions + 1;
      t := Sequencer.Apply(t, Sequencer.Complete);
      assert Abstract() == t;
      elapsed := elapsed + GrindScript.timers[4].delay;
      pending := None;
    }

    /** The effect's cleanup function: stop its sounds, clear every timer. */
    method Cleanup()
      requires Valid()
      modifies this, audio
      ensures Valid()
      ensures Abstract() == Sequencer.Cleanup(GrindScript, old(Abstract()))
    {
      audio.Stop(Sound.Pour);
      audio.Stop(Sound.Grind);
      pending := None;
    }

    /** The grinding flag changed: React runs the previous cleanup, then the body. */
    method Rerun(grinding: bool)
      requires Valid()
      modifies this, audio
      ensures Valid()
      ensures Abstract() == Sequencer.Rerun(GrindScript, old(Abstract()), grinding)
    {
      Cleanup();
      if grinding {
        Start();
      }
    }
  }

  /** The script reports completion once, in its last timer, and its delays sum to 9000 ms. */
  lemma ScriptShape()
    ensures Sequencer.CompletesOnceAtEnd(GrindScript)
    ensures Sequencer.Elapsed(GrindScript, |GrindScript.timers|) == 9000
  {
    var ts := GrindScript.timers;
    Sequencer.NoCompletion(GrindScript.start);
    forall i | 0 <= i < |ts| - 1
      ensures Sequencer.Completions(ts[i].actions) == 0
    {
      Sequencer.NoCompletion(ts[i].actions);
    }
    assert Sequencer.Elapsed(GrindScript, 1) == 1000;
    assert Sequencer.Elapsed(GrindScript, 2) == 2000;
    assert Sequencer.Elapsed(GrindScript, 3) == 3000;
    assert Sequencer.Elapsed(GrindScript, 4) == 7000;
    assert Sequencer.Elapsed(GrindScript, 5) == 9000;
    var last := ts[|ts| - 1].actions;
    Sequencer.NoCompletion(last[..|last| - 1]);
  }

  /**
   * Where a run started (or restarted) from `s` stands after its start block
   * and `k` timers: in phase Schedule[k], Times[k] ms later, having reported
   * the first Reported[k] statuses, and completed only at the end.
   */
  ghost predicate Progress(s: Sequencer.State<GrindStep>, r: Sequencer.State<GrindStep>, k: nat)
    requires k < |Schedule|
  {
    && r.phase == Schedule[k]
    && r.pending == (if k < 5 then Some(k) else None)
    && r.elapsed == s.elapsed + Times[k]
    && r.statuses == s.statuses + Statuses[..Reported[k]]
    && r.completions == s.completions + (if k == 5 then 1 else 0)
    && r.audible == s.audible
  }

  /**
   * What sounds at that point: 'pour' exactly while pouring and 'grind'
   * exactly while grinding (when there is audio at all); 'slide', which
   * nothing stops, is recorded from the fourth timer on and otherwise
   * keeps whatever entry it had; no other tag has been touched.
   */
  ghost predicate Sounds(s: Sequencer.State<GrindStep>, r: Sequencer.State<GrindStep>, k: nat)
  {
    && (Sound.Pour in r.playing <==> s.audible && r.phase == Pouring)
    && (Sound.Grind in r.playing <==> s.audible && r.phase == Grinding)
    && (Sound.Slide in r.playing <==> Sound.Slide in s.playing || (s.audible && k >= 4))
    && r.playing - {Sound.Pour, Sound.Grind, Sound.Slide} == s.playing - {Sound.Pour, Sound.Grind, Sound.Slide}
  }

  /** Each timer moves a run from one row of the schedule to the next. */
  lemma StepProgress(s: Sequencer.State<GrindStep>, r: Sequencer.State<GrindStep>, k: nat)
    requires 1 <= k < |Schedule| && Progress(s, r, k - 1)
    ensures Progress(s, Sequencer.Fire(GrindScript, r), k)
  {
    Sequencer.ApplyAllSteps(r, GrindScript.timers[k - 1].actions);
    if k == 1 {
      assert Statuses[..2] == Statuses[..1] + [Statuses[1]];
    } else if k == 2 {
      assert Statuses[..3] == Statuses[..2] + [Statuses[2]];
    } else if k == 3 {
      assert Statuses[..4] == Statuses[..3] + [Statuses[3]];
    } else if k == 4 {
      assert Statuses[..5] == Statuses[..4] + [Statuses[4]];
    } else if k == 5 {
      assert Statuses[..6] == Statuses[..5] + [Statuses[5]];
    }
  }

  /** Each timer starts and stops the sounds of the phase it enters. */
  lemma StepSounds(s: Sequencer.State<GrindStep>, r: Sequencer.State<GrindStep>, k: nat)
    requires 1 <= k < |Schedule| && Progress(s, r, k - 1) && Sounds(s, r, k - 1)
    ensures Sounds(s, Sequencer.Fire(GrindScript, r), k)
  {
    StepProgress(s, r, k);
    if k == 1 {
      Sequencer.ApplyAllSteps(r, GrindScript.timers[0].actions);
    } else if k == 2 {
      Sequencer.ApplyAllSteps(r, GrindScript.timers[1].actions);
    } else if k == 3 {
      Sequencer.ApplyAllSteps(r, GrindScript.timers[2].actions);
    } else if k == 4 {
      Sequencer.ApplyAllSteps(r, GrindScript.timers[3].actions);
    } else if k == 5 {
      Sequencer.ApplyAllSteps(r, GrindScript.timers[4].actions);
    }
  }

  /** A run started (or restarted) from any state follows the schedule, sounds included. */
  lemma {:induction false} Walkthrough(s: Sequencer.State<GrindStep>, k: nat)
    requires k < |Schedule|
    ensures var r := Sequencer.Run(GrindScript, Sequencer.Rerun(GrindScript, s, true), k);
      Progress(s, r, k) && Sounds(s, r, k)
  {
    var c := Sequencer.Cleanup(GrindScript, s);
    if k == 0 {
      Sequencer.ApplyAllSteps(c, GrindScript.start);
    } else {
      Walkthrough(s, k - 1);
      var prev := Sequencer.Run(GrindScript, Sequencer.Start(GrindScript, c), k - 1);
      StepProgress(s, prev, k);
      StepSounds(s, prev, k);
    }
  }

  /** Once the last timer has fired the run stays finished: idle, "Ready" last, one completion, pour and grind silent, the slide entry left behind. */
  lemma RunToEnd(s: Sequencer.State<GrindStep>, n: nat)
    requires n >= |Schedule| - 1
    ensures var r := Sequencer.Run(GrindScript, Sequencer.Rerun(GrindScript, s, true), n);
      && r.phase == Idle && r.pending == None
      && r.statuses == s.statuses + Statuses
      && r.completions == s.completions + 1
      && Sound.Pour !in r.playing && Sound.Grind !in r.playing
      && (Sound.Slide in r.playing <==> Sound.Slide in s.playing || s.audible)
  {
    if n == |Schedule| - 1 {
      Walkthrough(s, n);
    } else {
      var c := Sequencer.Cleanup(GrindScript, s);
      Sequencer.RunPastEnd(GrindScript, c, n);
      Sequencer.RunPastEnd(GrindScript, c, |Schedule| - 1);
      Walkthrough(s, |Schedule| - 1);
    }
  }

  /**
   * The grinding flag switched off after the start block and `k` < 5 timers:
   * the cleanup silences pour and grind, and however many timers would later
   * have been due, no phase, sound, status or completion follows.
   */
  lemma Interrupted(s: Sequencer.State<GrindStep>, k: nat, n: nat)
    requires k < |Schedule| - 1
    ensures var t := Sequencer.Rerun(GrindScript, Sequencer.Run(GrindScript, Sequencer.Rerun(GrindScript, s, true), k), false);
      && Sequencer.Run(GrindScript, t, n) == t
      && t.pending == None && t.phase == Schedule[k]
      && t.completions == s.completions
      && Sound.Pour !in t.playing && Sound.Grind !in t.playing
  {
    var r := Sequencer.Run(GrindScript, Sequencer.Rerun(GrindScript, s, true), k);
    Walkthrough(s, k);
    Sequencer.NoEffectAfterCleanup(GrindScript, r, n);
  }

  // -----------------------------------------------------------------------
  // Animation targets.

  /** A pose of the lid: height, sideways offset and tilt (in multiples of pi radians). */
  datatype Pose = Pose(y: real, x: real, tiltInPi: real)

  /** The lid's target: swung open (raised, moved aside, tilted a quarter turn back) while beans go in, closed otherwise. */
  function LidTarget(exploded: bool, step: GrindStep): (p: Pose)
    ensures p.tiltInPi != 0.0 <==> step in {Opening, Pouring}
    ensures p.x != 0.0 <==> step in {Opening, Pouring}
    ensures step in {Opening, Pouring} ==> p == Pose(1.6, 0.5, -0.25)
    ensures step !in {Opening, Pouring} ==> p.y == (if exploded then 1.8 else 1.2)
  {
    match step {
      case Opening | Pouring => Pose(1.6, 0.5, -0.25)
      case Idle | Closing | Grinding | Finished => Pose(if exploded then 1.8 else 1.2, 0.0, 0.0)
    }
  }

  /** The open lid sits between the closed lid's collapsed and exploded heights. */
  lemma OpenLidBetweenClosed(open: GrindStep, closed: GrindStep)
    requires open in {Opening, Pouring} && closed !in {Opening, Pouring}
    ensures LidTarget(false, closed).y < LidTarget(false, open).y < LidTarget(true, closed).y
    ensures LidTarget(false, open) == LidTarget(true, open)
  {
  }

  /** What a frame does to the crank handle: spin it, or ease its height. */
  datatype HandleMotion = Spin(radiansPerSecond: real) | Rise(target: real)

  /** The handle turns clockwise at 10 rad/s while grinding and otherwise eases to 2.5 (exploded) or 1.5. */
  function HandleFrame(exploded: bool, step: GrindStep): (m: HandleMotion)
    ensures m.Spin? <==> step == Grinding
    ensures m.Spin? ==> m.radiansPerSecond == -10.0
    ensures m.Rise? ==> (m.target == 2.5 <==> exploded) && (m.target != 2.5 ==> m.target == 1.5)
  {
    if step == Grinding then Spin(-10.0) else Rise(if exploded then 2.5 else 1.5)
  }

  /**
   * A pose of the catch cup: height, sideways offset and tilt. Unlike the
   * lid's, the cup's tilt is a plain number of radians.
   */
  datatype CupPose = CupPose(y: real, x: real, tiltRadians: real)

  /**
   * The catch cup's target: lowered, moved aside and tipped 0.4 rad (under
   * 30 degrees, since 0.4 < 0.5 < pi / 6) once the grounds are ready.
   */
  function CupTarget(exploded: bool, step: GrindStep): (p: CupPose)
    ensures step == Finished ==> p == CupPose(-2.2, 0.5, 0.4)
    ensures step != Finished ==> p.x == 0.0 && p.tiltRadians == 0.0 && (p.y == -1.5 <==> exploded) && (p.y != -1.5 ==> p.y == -0.8)
    ensures 0.0 <= p.tiltRadians < 0.5
    ensures p.y <= -0.8
  {
    if step == Finished then CupPose(-2.2, 0.5, 0.4) else CupPose(if exploded then -1.5 else -0.8, 0.0, 0.0)
  }

  /** The tipped cup of the finished phase sits below both of its resting heights. */
  lemma TippedCupLowest(exploded: bool, step: GrindStep)
    requires step != Finished
    ensures CupTarget(exploded, Finished).y < CupTarget(exploded, step).y
  {
  }

  // -----------------------------------------------------------------------
  // Beans and grounds, updated in place every frame.

  /**
   * The beans in the hopper as the frame callback mutates them. Their scale
   * is kept as its x component (shared with z) and its y component, since
   * grinding shrinks only y.
   */
  class Beans {
    var visible: bool
    var scaleX: real
    var scaleY: real
    var y: real

    /** The bounds the scale keeps while no frame lasts longer than 250 ms. */
    ghost predicate InRange()
      reads this
    {
      0.1 <= scaleX <= 1.0 && -0.0625 < scaleY <= 1.0
    }

    /** The beans as first rendered: hidden, at scale 0.1 and height 0.8. */
    constructor ()
      ensures !visible && scaleX == 0.1 && scaleY == 0.1 && y == 0.8
      ensures InRange()
    {
      visible, scaleX, scaleY, y := false, 0.1, 0.1, 0.8;
    }

    /**
     * The beans' part of a frame lasting `delta` seconds: they appear and
     * grow uniformly towards full size while pouring, sink and shrink while
     * grinding (only while any height is left), and are hidden and reset in
     * idle once the grinding flag is down; otherwise they stay as they are.
     */
    method Frame(delta: real, step: GrindStep, isGrinding: bool)
      modifies this
      ensures step == Pouring ==>
        visible && scaleX == scaleY == Interpolator.Lerp(old(scaleX), 1.0, 4.0 * delta) && y == old(y)
      ensures step == Grinding && old(scaleY) > 0.0 ==>
        visible == old(visible) && scaleX == old(scaleX) && scaleY == old(scaleY) - 0.25 * delta && y == old(y) - 0.1 * delta
      ensures step == Idle && !isGrinding ==> !visible && scaleX == scaleY == 0.1 && y == 0.0
      ensures (step == Grinding && old(scaleY) <= 0.0) || step in {Opening, Closing, Finished} || (step == Idle && isGrinding) ==>
        visible == old(visible) && scaleX == old(scaleX) && scaleY == old(scaleY) && y == old(y)
      ensures 0.0 <= delta <= 0.25 && old(InRange()) ==> InRange()
    {
      if step == Pouring {
        visible := true;
        var s := Interpolator.Lerp(scaleX, 1.0, 4.0 * delta);
        if 0.0 <= delta <= 0.25 {
          Interpolator.NoOvershoot(scaleX, 1.0, 4.0 * delta);
        }
        scaleX, scaleY := s, s;
      } else if step == Grinding {
        if scaleY > 0.0 {
          scaleY := scaleY - 0.25 * delta;
          y := y - 0.1 * delta;
        }
      } else if step == Idle && !isGrinding {
        visible := false;
        scaleX, scaleY := 0.1, 0.1;
        y := 0.0;
      }
    }
  }

  /** The grounds in the catch cup as the frame callback mutates them (their y scale only). */
  class Grounds {
    var visible: bool
    var scaleY: real
    var y: real

    /** The bound the scale keeps while no frame lasts longer than 250 ms: at most one frame's growth past full. */
    ghost predicate InRange()
      reads this
    {
      0.1 <= scaleY < 1.0625
    }

    /** The grounds as first rendered: hidden, at y scale 0.1 and height -0.4. */
    constructor ()
      ensures !visible && scaleY == 0.1 && y == -0.4
      ensures InRange()
    {
      visible, scaleY, y := false, 0.1, -0.4;
    }

    /**
     * The grounds' part of a frame: they appear and build up while
     * grinding (only while below full height), and are hidden and reset in
     * idle once the grinding flag is down; otherwise they stay as they are.
     */
    method Frame(delta: real, step: GrindStep, isGrinding: bool)
      modifies this
      ensures step == Grinding ==> visible
      ensures step == Grinding && old(scaleY) < 1.0 ==> scaleY == old(scaleY) + 0.25 * delta && y == old(y) + 0.1 * delta
      ensures step == Grinding && old(scaleY) >= 1.0 ==> scaleY == old(scaleY) && y == old(y)
      ensures step == Idle && !isGrinding ==> !visible && scaleY == 0.1 && y == -0.4
      ensures step in {Opening, Pouring, Closing, Finished} || (step == Idle && isGrinding) ==>
        visible == old(visible) && scaleY == old(scaleY) && y == old(y)
      ensures 0.0 <= delta <= 0.25 && old(InRange()) ==> InRange()
    {
      if step == Grinding {
        visible := true;
        if scaleY < 1.0 {
          scaleY := scaleY + 0.25 * delta;
          y := y + 0.1 * delta;
        }
      } else if step == Idle && !isGrinding {
        visible := false;
        scaleY := 0.1;
        y := -0.4;
      }
    }
  }

  /** getMaterialProps: brushed steel with the usual selection and hover highlight, never heated. */
  function MaterialProps(part: string, selected: Option<string>, hovered: Option<string>): (m: Materials.Material)
    ensures m == Materials.Highlight(part, selected, hovered, "#d0d0d0", Some(Materials.Finish(0.2, 0.7)), false)
    ensures m.emissiveIntensity > 0.0 <==> selected == Some(part)
  {
    Materials.Highlight(part, selected, hovered, "#d0d0d0", Some(Materials.Finish(0.2, 0.7)), false)
  }
}
