/**
 * The AeroPress component: its brew sequence (an effect keyed on the brewing
 * flag that chains five timers), the targets its animation frame eases the
 * plunger, cap, filter, grounds and liquids towards, and its part highlight.
 */
module Aeropress {
  import opened Wrappers
  import Sound
  import Sequencer
  import Materials

  datatype BrewStep = Idle | Grounds | Water | Steeping | Pressing | Finished

  /** The brew effect as data: start block, the chained timers, the tags its cleanup stops. */
  const BrewScript: Sequencer.Script<BrewStep> := Sequencer.Script(
    [Sequencer.SetPhase(Grounds), Sequencer.Emit("Adding Grounds")],
    [ Sequencer.Timer(1000, [Sequencer.SetPhase(Water), Sequencer.Play(Sound.Pour), Sequencer.Emit("Adding Hot Water")]),
      Sequencer.Timer(1500, [Sequencer.Stop(Sound.Pour), Sequencer.SetPhase(Steeping), Sequencer.Emit("Steeping")]),
      Sequencer.Timer(2000, [Sequencer.SetPhase(Pressing), Sequencer.Play(Sound.Brew), Sequencer.Emit("Pressing Plunger")]),
      Sequencer.Timer(3000, [Sequencer.Stop(Sound.Brew), Sequencer.SetPhase(Finished)]),
      Sequencer.Timer(2000, [Sequencer.SetPhase(Idle), Sequencer.Emit("Ready"), Sequencer.Complete]) ],
    {Sound.Pour, Sound.Brew})

  /** The phase after the start block and after each timer. */
  const Schedule: seq<BrewStep> := [Grounds, Water, Steeping, Pressing, Finished, Idle]
  /** Milliseconds after the start at which each of those phases is entered. */
  const Times: seq<nat> := [0, 1000, 2500, 4500, 7500, 9500]
  /** Every status a run reports, in order. */
  const Statuses: seq<string> := ["Adding Grounds", "Adding Hot Water", "Steeping", "Pressing Plunger", "Ready"]
  /** How many of those have been reported after the start block and after each timer. */
  const Reported: seq<nat> := [1, 2, 3, 4, 4, 5]

  /**
   * The brew effect of one mounted AeroPress: its phase, the pending timer, its
   * own sound registry, the statuses and completions it has reported to the
   * scene, and (for the proofs) the delays that have elapsed.
   */
  class BrewSequence {
    var brewStep: BrewStep
    var pending: Option<nat>
    const audio: Sound.Registry
    var statuses: seq<string>
    var completions: nat
    ghost var elapsed: nat

    ghost predicate Valid()
      reads this, audio
    {
      audio.Valid()
    }

    /** The sequencer state this component is in. */
    ghost function Abstract(): Sequencer.State<BrewStep>
      reads this, audio
    {
      Sequencer.State(brewStep, pending, audio.active.Keys, audio.hasContext, statuses, completions, elapsed)
    }

    /** Mounting: idle, nothing scheduled, nothing sounding, nothing reported. */
    constructor (hasAudio: bool)
      ensures Valid() && fresh(audio)
      ensures Abstract() == Sequencer.State(Idle, None, {}, hasAudio, [], 0, 0)
    {
      brewStep := Idle;
      pending := None;
      audio := new Sound.Registry(hasAudio);
      statuses := [];
      completions := 0;
      elapsed := 0;
    }

    /** The effect body with the brewing flag set: its first block, then the first timer is scheduled. */
    method Start()
      requires Valid()
      modifies this, audio
      ensures Valid()
      ensures Abstract() == Sequencer.Start(BrewScript, old(Abstract()))
    {
      ghost var s := Abstract();
      Sequencer.ApplyAllSteps(s, BrewScript.start);
      brewStep := Grounds;
      statuses := statuses + ["Adding Grounds"];
      pending := Some(0);
    }

    /** The pending timer elapses: its callback runs. */
    method Fire()
      requires Valid()
      modifies this, audio
      ensures Valid()
      ensures Abstract() == Sequencer.Fire(BrewScript, old(Abstract()))
    {
      if pending.None? {
        return;
      }
      var k := pending.value;
      if k == 0 {
        AddWater();
      } else if k == 1 {
        BeginSteeping();
      } else if k == 2 {
        PressPlunger();
      } else if k == 3 {
        FinishPress();
      } else if k == 4 {
        ReturnToIdle();
      } else {
        pending := None;
      }
    }

    /** The first timer's callback: hot water goes in. */
    method AddWater()
      requires Valid() && pending == Some(0)
      modifies this, audio
      ensures Valid()
      ensures Abstract() == Sequencer.Fire(BrewScript, old(Abstract()))
    {
      ghost var s := Abstract();
      Sequencer.ApplyAllSteps(s, BrewScript.timers[0].actions);
      ghost var t := s;
      brewStep := Water;
      t := Sequencer.Apply(t, Sequencer.SetPhase(Water));
      assert Abstract() == t;
      audio.Play(Sound.Pour);
      t := Sequencer.Apply(t, Sequencer.Play(Sound.Pour));
      assert Abstract() == t;
      statuses := statuses + ["Adding Hot Water"];
      t := Sequencer.Apply(t, Sequencer.Emit("Adding Hot Water"));
      assert Abstract() == t;
      elapsed := elapsed + BrewScript.timers[0].delay;
      pending := Some(1);
    }

    /** The second timer's callback: the pour ends and the coffee steeps. */
    method BeginSteeping()
      requires Valid() && pending == Some(1)
      modifies this, audio
      ensures Valid()
      ensures Abstract() == Sequencer.Fire(BrewScript, old(Abstract()))
    {
      ghost var s := Abstract();
      Sequencer.ApplyAllSteps(s, BrewScript.timers[1].actions);
      ghost var t := s;
      audio.Stop(Sound.Pour);
      t := Sequencer.Apply(t, Sequencer.Stop(Sound.Pour));
      assert Abstract() == t;
      brewStep := Steeping;
      t := Sequencer.Apply(t, Sequencer.SetPhase(Steeping));
      assert Abstract() == t;
      statuses := statuses + ["Steeping"];
      t := Sequencer.Apply(t, Sequencer.Emit("Steeping"));
      assert Abstract() == t;
      elapsed := elapsed + BrewScript.timers[1].delay;
      pending := Some(2);
    }

    /** The third timer's callback: the plunger goes down. */
    method PressPlunger()
      requires Valid() && pending == Some(2)
      modifies this, audio
      ensures Valid()
      ensures Abstract() == Sequencer.Fire(BrewScript, old(Abstract()))
    {
      ghost var s := Abstract();
      Sequencer.ApplyAllSteps(s, BrewScript.timers[2].actions);
      ghost var t := s;
      brewStep := Pressing;
      t := Sequencer.Apply(t, Sequencer.SetPhase(Pressing));
      assert Abstract() == t;
      audio.Play(Sound.Brew);
      t := Sequencer.Apply(t, Sequencer.Play(Sound.Brew));
      assert Abstract() == t;
      statuses := statuses + ["Pressing Plunger"];
      t := Sequencer.Apply(t, Sequencer.Emit("Pressing Plunger"));
      assert Abstract() == t;
      elapsed := elapsed + BrewScript.timers[2].delay;
      pending := Some(3);
    }

    /** The fourth timer's callback: pressing ends, without a status. */
    method FinishPress()
      requires Valid() && pending == Some(3)
      modifies this, audio
      ensures Valid()
      ensures Abstract() == Sequencer.Fire(BrewScript, old(Abstract()))
    {
      ghost var s := Abstract();
      Sequencer.ApplyAllSteps(s, BrewScript.timers[3].actions);
      ghost var t := s;
      audio.Stop(Sound.Brew);
      t := Sequencer.Apply(t, Sequencer.Stop(Sound.Brew));
      assert Abstract() == t;
      brewStep := Finished;
      t := Sequencer.Apply(t, Sequencer.SetPhase(Finished));
      assert Abstract() == t;
      elapsed := elapsed + BrewScript.timers[3].delay;
      pending := Some(4);
    }

    /** The fifth timer's callback: back to idle, "Ready", and completion. */
    method ReturnToIdle()
      requires Valid() && pending == Some(4)
      modifies this
      ensures Valid()
      ensures Abstract() == Sequencer.Fire(BrewScript, old(Abstract()))
    {
      ghost var s := Abstract();
      Sequencer.ApplyAllSteps(s, BrewScript.timers[4].actions);
      ghost var t := s;
      brewStep := Idle;
      t := Sequencer.Apply(t, Sequencer.SetPhase(Idle));
      assert Abstract() == t;
      statuses := statuses + ["Ready"];
      t := Sequencer.Apply(t, Sequencer.Emit("Ready"));
      assert Abstract() == t;
      completions := completions + 1;
      t := Sequencer.Apply(t, Sequencer.Complete);
      assert Abstract() == t;
      elapsed := elapsed + BrewScript.timers[4].delay;
      pending := None;
    }

    /** The effect's cleanup function: stop its sounds, clear every timer. */
    method Cleanup()
      requires Valid()
      modifies this, audio
      ensures Valid()
      ensures Abstract() == Sequencer.Cleanup(BrewScript, old(Abstract()))
    {
      audio.Stop(Sound.Pour);
      audio.Stop(Sound.Brew);
      pending := None;
    }

    /** The brewing flag changed: React runs the previous cleanup, then the body. */
    method Rerun(brewing: bool)
      requires Valid()
      modifies this, audio
      ensures Valid()
      ensures Abstract() == Sequencer.Rerun(BrewScript, old(Abstract()), brewing)
    {
      Cleanup();
      if brewing {
        Start();
      }
    }
  }

  /** The script reports completion once, in its last timer, and its delays sum to 9500 ms. */
  lemma ScriptShape()
    ensures Sequencer.CompletesOnceAtEnd(BrewScript)
    ensures Sequencer.Elapsed(BrewScript, |BrewScript.timers|) == 9500
  {
    var ts := BrewScript.timers;
    Sequencer.NoCompletion(BrewScript.start);
    forall i | 0 <= i < |ts| - 1
      ensures Sequencer.Completions(ts[i].actions) == 0
    {
      Sequencer.NoCompletion(ts[i].actions);
    }
    assert Sequencer.Elapsed(BrewScript, 1) == 1000;
    assert Sequencer.Elapsed(BrewScript, 2) == 2500;
    assert Sequencer.Elapsed(BrewScript, 3) == 4500;
    assert Sequencer.Elapsed(BrewScript, 4) == 7500;
    assert Sequencer.Elapsed(BrewScript, 5) == 9500;
    var last := ts[|ts| - 1].actions;
    Sequencer.NoCompletion(last[..|last| - 1]);
  }

  /**
   * Where a run started (or restarted) from `s` stands after its start block
   * and `k` timers: in phase Schedule[k], Times[k] ms later, having reported
   * the first Reported[k] statuses, and completed only at the end.
   */
  ghost predicate Progress(s: Sequencer.State<BrewStep>, r: Sequencer.State<BrewStep>, k: nat)
    requires k < |Schedule|
  {
    && r.phase == Schedule[k]
    && r.pending == (if k < 5 then Some(k) else None)
    && r.elapsed == s.elapsed + Times[k]
    && r.statuses == s.statuses + Statuses[..Reported[k]]
    && r.completions == s.completions + (if k == 5 then 1 else 0)
    && r.audible == s.audible
  }

  /**
   * What sounds at that point: 'pour' exactly in the water phase and
   * 'brew' exactly while pressing (when there is audio at all); no other
   * tag has been touched.
   */
  ghost predicate Sounds(s: Sequencer.State<BrewStep>, r: Sequencer.State<BrewStep>, k: nat)
  {
    && (Sound.Pour in r.playing <==> s.audible && r.phase == Water)
    && (Sound.Brew in r.playing <==> s.audible && r.phase == Pressing)
    && r.playing - {Sound.Pour, Sound.Brew} == s.playing - {Sound.Pour, Sound.Brew}
  }

  /** Each timer moves a run from one row of the schedule to the next. */
  lemma StepProgress(s: Sequencer.State<BrewStep>, r: Sequencer.State<BrewStep>, k: nat)
    requires 1 <= k < |Schedule| && Progress(s, r, k - 1)
    ensures Progress(s, Sequencer.Fire(BrewScript, r), k)
  {
    Sequencer.ApplyAllSteps(r, BrewScript.timers[k - 1].actions);
    if k == 1 {
      assert Statuses[..2] == Statuses[..1] + [Statuses[1]];
    } else if k == 2 {
      assert Statuses[..3] == Statuses[..2] + [Statuses[2]];
    } else if k == 3 {
      assert Statuses[..4] == Statuses[..3] + [Statuses[3]];
    } else if k == 5 {
      assert Statuses[..5] == Statuses[..4] + [Statuses[4]];
    }
  }

  /** Each timer starts and stops the sounds of the phase it enters. */
  lemma StepSounds(s: Sequencer.State<BrewStep>, r: Sequencer.State<BrewStep>, k: nat)
    requires 1 <= k < |Schedule| && Progress(s, r, k - 1) && Sounds(s, r, k - 1)
    ensures Sounds(s, Sequencer.Fire(BrewScript, r), k)
  {
    StepProgress(s, r, k);
    if k == 1 {
      Sequencer.ApplyAllSteps(r, BrewScript.timers[0].actions);
    } else if k == 2 {
      Sequencer.ApplyAllSteps(r, BrewScript.timers[1].actions);
    } else if k == 3 {
      Sequencer.ApplyAllSteps(r, BrewScript.timers[2].actions);
    } else if k == 4 {
      Sequencer.ApplyAllSteps(r, BrewScript.timers[3].actions);
    } else if k == 5 {
      Sequencer.ApplyAllSteps(r, BrewScript.timers[4].actions);
    }
  }

  /** A run started (or restarted) from any state follows the schedule, sounds included. */
  lemma {:induction false} Walkthrough(s: Sequencer.State<BrewStep>, k: nat)
    requires k < |Schedule|
    ensures var r := Sequencer.Run(BrewScript, Sequencer.Rerun(BrewScript, s, true), k);
      Progress(s, r, k) && Sounds(s, r, k)
  {
    var c := Sequencer.Cleanup(BrewScript, s);
    if k == 0 {
      Sequencer.ApplyAllSteps(c, BrewScript.start);
    } else {
      Walkthrough(s, k - 1);
      var prev := Sequencer.Run(BrewScript, Sequencer.Start(BrewScript, c), k - 1);
      StepProgress(s, prev, k);
      StepSounds(s, prev, k);
    }
  }

  /** Once the last timer has fired the run stays finished: idle, "Ready" last, one completion, silent. */
  lemma RunToEnd(s: Sequencer.State<BrewStep>, n: nat)
    requires n >= |Schedule| - 1
    ensures var r := Sequencer.Run(BrewScript, Sequencer.Rerun(BrewScript, s, true), n);
      && r.phase == Idle && r.pending == None
      && r.statuses == s.statuses + Statuses
      && r.completions == s.completions + 1
      && Sound.Pour !in r.playing && Sound.Brew !in r.playing
  {
    if n == |Schedule| - 1 {
      Walkthrough(s, n);
    } else {
      var c := Sequencer.Cleanup(BrewScript, s);
      Sequencer.RunPastEnd(BrewScript, c, n);
      Sequencer.RunPastEnd(BrewScript, c, |Schedule| - 1);
      Walkthrough(s, |Schedule| - 1);
    }
  }

  /**
   * The brewing flag switched off after the start block and `k` < 5 timers:
   * the cleanup silences pour and brew, and however many timers would later
   * have been due, no phase, sound, status or completion follows.
   */
  lemma Interrupted(s: Sequencer.State<BrewStep>, k: nat, n: nat)
    requires k < |Schedule| - 1
    ensures var t := Sequencer.Rerun(BrewScript, Sequencer.Run(BrewScript, Sequencer.Rerun(BrewScript, s, true), k), false);
      && Sequencer.Run(BrewScript, t, n) == t
      && t.pending == None && t.phase == Schedule[k]
      && t.completions == s.completions
      && Sound.Pour !in t.playing && Sound.Brew !in t.playing
  {
    var r := Sequencer.Run(BrewScript, Sequencer.Rerun(BrewScript, s, true), k);
    Walkthrough(s, k);
    Sequencer.NoEffectAfterCleanup(BrewScript, r, n);
  }

  // -----------------------------------------------------------------------
  // Animation targets.

  /** The height the plunger eases towards: pulled out while filling, pushed through from pressing on. */
  function PlungerTarget(exploded: bool, step: BrewStep): (y: real)
    ensures exploded ==> y == 3.0
    ensures !exploded ==> (y == 0.5 <==> step == Idle)
    ensures !exploded ==> (y == 2.5 <==> step in {Grounds, Water, Steeping})
    ensures !exploded ==> (y == -0.8 <==> step in {Pressing, Finished})
  {
    if exploded then 3.0
    else match step {
      case Idle => 0.5
      case Grounds | Water | Steeping => 2.5
      case Pressing | Finished => -0.8
    }
  }

  /** The plunger's easing rate per second: slowed to 0.5 while pressing down, 4 otherwise. */
  function PlungerRate(exploded: bool, step: BrewStep): (rate: real)
    ensures rate == 0.5 <==> !exploded && step == Pressing
    ensures rate != 0.5 ==> rate == 4.0
  {
    if !exploded && step == Pressing then 0.5 else 4.0
  }

  /** The cap's height: it drops below its screwed-on place in the exploded view. */
  function CapTarget(exploded: bool): (y: real)
    ensures exploded ==> y == -1.5
    ensures !exploded ==> y == -1.0
  {
    if exploded then -1.5 else -1.0
  }

  /** The paper filter's height: it drops with the cap, staying just above it. */
  function FilterTarget(exploded: bool): (y: real)
    ensures exploded ==> y == -1.2
    ensures !exploded ==> y == -0.95
    ensures y > CapTarget(exploded)
  {
    if exploded then -1.2 else -0.95
  }

  /** The grounds' target scale: present from grounds until the press is done. */
  function GroundsTarget(step: BrewStep): (scale: real)
    ensures scale == 1.0 <==> step in {Grounds, Water, Steeping, Pressing}
    ensures scale != 1.0 ==> scale == 0.0
  {
    match step {
      case Grounds | Water | Steeping | Pressing => 1.0
      case Idle | Finished => 0.0
    }
  }

  const WaterColor: string := "#aaddff"
  const CoffeeColor: string := "#3e2723"

  /** The chamber liquid's target height (with the 0.01 floor) and colour. */
  function ChamberTarget(step: BrewStep): (target: (real, string))
    ensures target.0 == 1.0 <==> step in {Water, Steeping}
    ensures step == Pressing ==> target.0 == 0.1
    ensures step in {Idle, Grounds, Finished} ==> target.0 == 0.01
    ensures target.1 == CoffeeColor <==> step in {Steeping, Pressing}
    ensures target.1 != CoffeeColor ==> target.1 == WaterColor
  {
    var (height, color) := match step {
      case Water => (1.0, WaterColor)
      case Steeping => (1.0, CoffeeColor)
      case Pressing => (0.1, CoffeeColor)
      case Idle | Grounds | Finished => (0.0, WaterColor)
    };
    (if height > 0.0 then height else 0.01, color)
  }

  /** The mug's target height: coffee arrives from pressing on; an empty mug keeps a 0.01 sliver. */
  function MugTarget(step: BrewStep): (h: real)
    ensures h == 0.8 <==> step in {Pressing, Finished}
    ensures h != 0.8 ==> h == 0.01
  {
    if step == Pressing || step == Finished then 0.8 else 0.01
  }

  /**
   * What one animation frame eases towards: the plunger always, with its
   * rate; the cap, filter, grounds, chamber liquid and mug liquid when the
   * frame reaches them.
   */
  datatype FrameTargets = FrameTargets(
    plunger: real, plungerRate: real,
    cap: Option<real>, filter: Option<real>, grounds: Option<real>,
    chamber: Option<(real, string)>, mug: Option<real>)

  /**
   * The frame as written: while pressing outside the exploded view it
   * returns right after moving the plunger, so nothing below the plunger is
   * updated in that phase.
   */
  function FrameAsWritten(exploded: bool, step: BrewStep): (f: FrameTargets)
    ensures f.plunger == PlungerTarget(exploded, step) && f.plungerRate == PlungerRate(exploded, step)
    ensures !exploded && step == Pressing ==> f.cap.None? && f.filter.None? && f.grounds.None? && f.chamber.None? && f.mug.None?
    ensures exploded || step != Pressing ==> f == Frame(exploded, step)
    ensures f.mug.None? <==> !exploded && step == Pressing
    ensures f.chamber.None? <==> !exploded && step == Pressing
    ensures f.mug.Some? ==> f.mug.value == MugTarget(step)
    ensures f.chamber.Some? ==> f.chamber.value == ChamberTarget(step)
  {
    var plunger := FrameTargets(PlungerTarget(exploded, step), PlungerRate(exploded, step), None, None, None, None, None);
    if !exploded && step == Pressing then plunger
    else Frame(exploded, step)
  }

  /**
   * The frame with every part updated in every phase: the plunger's slow
   * press replaces only its own easing step.
   */
  function Frame(exploded: bool, step: BrewStep): (f: FrameTargets)
    ensures f.plunger == PlungerTarget(exploded, step) && f.plungerRate == PlungerRate(exploded, step)
    ensures f.cap == Some(CapTarget(exploded)) && f.filter == Some(FilterTarget(exploded))
    ensures f.grounds == Some(GroundsTarget(step))
    ensures f.chamber == Some(ChamberTarget(step)) && f.mug == Some(MugTarget(step))
  {
    FrameTargets(PlungerTarget(exploded, step), PlungerRate(exploded, step),
      Some(CapTarget(exploded)), Some(FilterTarget(exploded)), Some(GroundsTarget(step)),
      Some(ChamberTarget(step)), Some(MugTarget(step)))
  }

  /**
   * As written, the chamber's "pressed out" height and the mug's fill are
   * never applied outside the exploded view while the plunger goes down: in
   * that view the mug is only ever driven to 0.8 once the press is finished,
   * and the chamber is never driven to 0.1 at all.
   */
  lemma PressedCoffeeSkipped()
    ensures ChamberTarget(Pressing).0 == 0.1 && MugTarget(Pressing) == 0.8
    ensures FrameAsWritten(false, Pressing).chamber == None && FrameAsWritten(false, Pressing).mug == None
    ensures forall step :: FrameAsWritten(false, step).mug == Some(0.8) ==> step == Finished
    ensures forall step :: FrameAsWritten(false, step).chamber.Some? ==> FrameAsWritten(false, step).chamber.value.0 != 0.1
  {
  }

  /** In the corrected frame the chamber drains and the mug fills while the plunger goes down. */
  lemma PressedCoffeeFlows()
    ensures Frame(false, Pressing).chamber == Some((0.1, CoffeeColor))
    ensures Frame(false, Pressing).mug == Some(0.8)
    ensures Frame(false, Pressing).plungerRate == 0.5
  {
  }

  /** getMaterialProps: dark plastic with the usual selection and hover highlight, never heated. */
  function MaterialProps(part: string, selected: Option<string>, hovered: Option<string>): (m: Materials.Material)
    ensures m == Materials.Highlight(part, selected, hovered, "#333333", Some(Materials.Finish(0.4, 0.1)), false)
    ensures m.emissiveIntensity > 0.0 <==> selected == Some(part)
  {
    Materials.Highlight(part, selected, hovered, "#333333", Some(Materials.Finish(0.4, 0.1)), false)
  }
}
