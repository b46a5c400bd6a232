/**
 * The espresso machine component: its brew sequence (an effect keyed on the
 * brewing flag that chains three timers), the group head's heating glow,
 * the stream and steam visibility, and the explode targets.
 */
module EspressoMachine {
  import opened Wrappers
  import Sound
  import Sequencer
  import Materials

  datatype BrewStep = Idle | Heating | Brewing | Steaming

  /** The brew effect as data: start block, the chained timers, the tags its cleanup stops. */
  const BrewScript: Sequencer.Script<BrewStep> := Sequencer.Script(
    [Sequencer.SetPhase(Heating), Sequencer.Play(Sound.Brew), Sequencer.Emit("Heating Boiler")],
    [ Sequencer.Timer(2000, [Sequencer.SetPhase(Brewing), Sequencer.Emit("Extracting Espresso")]),
      Sequencer.Timer(3000, [Sequencer.Stop(Sound.Brew), Sequencer.SetPhase(Steaming), Sequencer.Play(Sound.Steam), Sequencer.Emit("Steaming Milk")]),
      Sequencer.Timer(3000, [Sequencer.Stop(Sound.Steam), Sequencer.SetPhase(Idle), Sequencer.Emit("Ready"), Sequencer.Complete]) ],
    {Sound.Brew, Sound.Steam})

  /** The phase after the start block and after each timer. */
  const Schedule: seq<BrewStep> := [Heating, Brewing, Steaming, Idle]
  /** Milliseconds after the start at which each of those phases is entered. */
  const Times: seq<nat> := [0, 2000, 5000, 8000]
  /** Every status a run reports, in order. */
  const Statuses: seq<string> := ["Heating Boiler", "Extracting Espresso", "Steaming Milk", "Ready"]
  /** How many of those have been reported after the start block and after each timer. */
  const Reported: seq<nat> := [1, 2, 3, 4]

  /**
   * The brew effect of one mounted espresso machine: its phase, the pending timer, its
   * own sound registry, the statuses and completions it has reported to the
   * scene, and (for the proofs) the delays that have elapsed.
   */
  class BrewSequence {
    var brewStep: BrewStep
    var pending: Option<nat>
    const audio: Sound.Registry
    var statuses: seq<string>
    var completions: nat
    ghost var elapsed: nat

    ghost predicate Valid()
      reads this, audio
    {
      audio.Valid()
    }

    /** The sequencer state this component is in. */
    ghost function Abstract(): Sequencer.State<BrewStep>
      reads this, audio
    {
      Sequencer.State(brewStep, pending, audio.active.Keys, audio.hasContext, statuses, completions, elapsed)
    }

    /** Mounting: idle, nothing scheduled, nothing sounding, nothing reported. */
    constructor (hasAudio: bool)
      ensures Valid() && fresh(audio)
      ensures Abstract() == Sequencer.State(Idle, None, {}, hasAudio, [], 0, 0)
    {
      brewStep := Idle;
      pending := None;
      audio := new Sound.Registry(hasAudio);
      statuses := [];
      completions := 0;
      elapsed := 0;
    }

    /** The effect body with the brewing flag set: its first block, then the first timer is scheduled. */
    method Start()
      requires Valid()
      modifies this, audio
      ensures Valid()
      ensures Abstract() == Sequencer.Start(BrewScript, old(Abstract()))
    {
      ghost var s := Abstract();
      Sequencer.ApplyAllSteps(s, BrewScript.start);
      brewStep := Heating;
      audio.Play(Sound.Brew);
      statuses := statuses + ["Heating Boiler"];
      pending := Some(0);
    }

    /** The pending timer elapses: its callback runs. */
    method Fire()
      requires Valid()
      modifies this, audio
      ensures Valid()
      ensures Abstract() == Sequencer.Fire(BrewScript, old(Abstract()))
    {
      if pending.None? {
        return;
      }
      var k := pending.value;
      if k == 0 {
        Extract();
      } else if k == 1 {
        SteamMilk();
      } else if k == 2 {
        ReturnToIdle();
      } else {
        pending := None;
      }
    }

    /** The first timer's callback: extraction starts, the brew sound goes on. */
    method Extract()
      requires Valid() && pending == Some(0)
      modifies this
      ensures Valid()
      ensures Abstract() == Sequencer.Fire(BrewScript, old(Abstract()))
    {
      ghost var s := Abstract();
      Sequencer.ApplyAllSteps(s, BrewScript.timers[0].actions);
      ghost var t := s;
      brewStep := Brewing;
      t := Sequencer.Apply(t, Sequencer.SetPhase(Brewing));
      assert Abstract() == t;
      statuses := statuses + ["Extracting Espresso"];
      t := Sequencer.Apply(t, Sequencer.Emit("Extracting Espresso"));
      assert Abstract() == t;
      elapsed := elapsed + BrewScript.timers[0].delay;
      pending := Some(1);
    }

    /** The second timer's callback: extraction ends and the wand steams. */
    method SteamMilk()
      requires Valid() && pending == Some(1)
      modifies this, audio
      ensures Valid()
      ensures Abstract() == Sequencer.Fire(BrewScript, old(Abstract()))
    {
      ghost var s := Abstract();
      Sequencer.ApplyAllSteps(s, BrewScript.timers[1].actions);
      ghost var t := s;
      audio.Stop(Sound.Brew);
      t := Sequencer.Apply(t, Sequencer.Stop(Sound.Brew));
      assert Abstract() == t;
      brewStep := Steaming;
      t := Sequencer.Apply(t, Sequencer.SetPhase(Steaming));
      assert Abstract() == t;
      audio.Play(Sound.Steam);
      t := Sequencer.Apply(t, Sequencer.Play(Sound.Steam));
      assert Abstract() == t;
      statuses := statuses + ["Steaming Milk"];
      t := Sequencer.Apply(t, Sequencer.Emit("Steaming Milk"));
      assert Abstract() == t;
      elapsed := elapsed + BrewScript.timers[1].delay;
      pending := Some(2);
    }

    /** The third timer's callback: steam off, back to idle, "Ready", and completion. */
    method ReturnToIdle()
      requires Valid() && pending == Some(2)
      modifies this, audio
      ensures Valid()
      ensures Abstract() == Sequencer.Fire(BrewScript, old(Abstract()))
    {
      ghost var s := Abstract();
      Sequencer.ApplyAllSteps(s, BrewScript.timers[2].actions);
      ghost var t := s;
      audio.Stop(Sound.Steam);
      t := Sequencer.Apply(t, Sequencer.Stop(Sound.Steam));
      assert Abstract() == t;
      brewStep := Idle;
      t := Sequencer.Apply(t, Sequencer.SetPhase(Idle));
      assert Abstract() == t;
      statuses := statuses + ["Ready"];
      t := Sequencer.Apply(t, Sequencer.Emit("Ready"));
      assert Abstract() == t;
      completions := completions + 1;
      t := Sequencer.Apply(t, Sequencer.Complete);
      assert Abstract() == t;
      elapsed := elapsed + BrewScript.timers[2].delay;
      pending := None;
    }

    /** The effect's cleanup function: stop its sounds, clear every timer. */
    method Cleanup()
      requires Valid()
      modifies this, audio
      ensures Valid()
      ensures Abstract() == Sequencer.Cleanup(BrewScript, old(Abstract()))
    {
      audio.Stop(Sound.Brew);
      audio.Stop(Sound.Steam);
      pending := None;
    }

    /** The brewing flag changed: React runs the previous cleanup, then the body. */
    method Rerun(brewing: bool)
      requires Valid()
      modifies this, audio
      ensures Valid()
      ensures Abstract() == Sequencer.Rerun(BrewScript, old(Abstract()), brewing)
    {
      Cleanup();
      if brewing {
        Start();
      }
    }
  }

  /** The script reports completion once, in its last timer, and its delays sum to 8000 ms. */
  lemma ScriptShape()
    ensures Sequencer.CompletesOnceAtEnd(BrewScript)
    ensures Sequencer.Elapsed(BrewScript, |BrewScript.timers|) == 8000
  {
    var ts := BrewScript.timers;
    Sequencer.NoCompletion(BrewScript.start);
    forall i | 0 <= i < |ts| - 1
      ensures Sequencer.Completions(ts[i].actions) == 0
    {
      Sequencer.NoCompletion(ts[i].actions);
    }
    assert Sequencer.Elapsed(BrewScript, 1) == 2000;
    assert Sequencer.Elapsed(BrewScript, 2) == 5000;
    assert Sequencer.Elapsed(BrewScript, 3) == 8000;
    var last := ts[|ts| - 1].actions;
    Sequencer.NoCompletion(last[..|last| - 1]);
  }

  /**
   * Where a run started (or restarted) from `s` stands after its start block
   * and `k` timers: in phase Schedule[k], Times[k] ms later, having reported
   * the first Reported[k] statuses, and completed only at the end.
   */
  ghost predicate Progress(s: Sequencer.State<BrewStep>, r: Sequencer.State<BrewStep>, k: nat)
    requires k < |Schedule|
  {
    && r.phase == Schedule[k]
    && r.pending == (if k < 3 then Some(k) else None)
    && r.elapsed == s.elapsed + Times[k]
    && r.statuses == s.statuses + Statuses[..Reported[k]]
    && r.completions == s.completions + (if k == 3 then 1 else 0)
    && r.audible == s.audible
  }

  /**
   * What sounds at that point: 'brew' exactly while heating or brewing and
   * 'steam' exactly while steaming (when there is audio at all); no other
   * tag has been touched.
   */
  ghost predicate Sounds(s: Sequencer.State<BrewStep>, r: Sequencer.State<BrewStep>, k: nat)
  {
    && (Sound.Brew in r.playing <==> s.audible && (r.phase == Heating || r.phase == Brewing))
    && (Sound.Steam in r.playing <==> s.audible && r.phase == Steaming)
    && r.playing - {Sound.Brew, Sound.Steam} == s.playing - {Sound.Brew, Sound.Steam}
  }

  /** Each timer moves a run from one row of the schedule to the next. */
  lemma StepProgress(s: Sequencer.State<BrewStep>, r: Sequencer.State<BrewStep>, k: nat)
    requires 1 <= k < |Schedule| && Progress(s, r, k - 1)
    ensures Progress(s, Sequencer.Fire(BrewScript, r), k)
  {
    Sequencer.ApplyAllSteps(r, BrewScript.timers[k - 1].actions);
    if k == 1 {
      assert Statuses[..2] == Statuses[..1] + [Statuses[1]];
    } else if k == 2 {
      assert Statuses[..3] == Statuses[..2] + [Statuses[2]];
    } else if k == 3 {
      assert Statuses[..4] == Statuses[..3] + [Statuses[3]];
    }
  }

  /** Each timer starts and stops the sounds of the phase it enters. */
  lemma StepSounds(s: Sequencer.State<BrewStep>, r: Sequencer.State<BrewStep>, k: nat)
    requires 1 <= k < |Schedule| && Progress(s, r, k - 1) && Sounds(s, r, k - 1)
    ensures Sounds(s, Sequencer.Fire(BrewScript, r), k)
  {
    StepProgress(s, r, k);
    if k == 1 {
      Sequencer.ApplyAllSteps(r, BrewScript.timers[0].actions);
    } else if k == 2 {
      Sequencer.ApplyAllSteps(r, BrewScript.timers[1].actions);
    } else if k == 3 {
      Sequencer.ApplyAllSteps(r, BrewScript.timers[2].actions);
    }
  }

  /** A run started (or restarted) from any state follows the schedule, sounds included. */
  lemma {:induction false} Walkthrough(s: Sequencer.State<BrewStep>, k: nat)
    requires k < |Schedule|
    ensures var r := Sequencer.Run(BrewScript, Sequencer.Rerun(BrewScript, s, true), k);
      Progress(s, r, k) && Sounds(s, r, k)
  {
    var c := Sequencer.Cleanup(BrewScript, s);
    if k == 0 {
      Sequencer.ApplyAllSteps(c, BrewScript.start);
    } else {
      Walkthrough(s, k - 1);
      var prev := Sequencer.Run(BrewScript, Sequencer.Start(BrewScript, c), k - 1);
      StepProgress(s, prev, k);
      StepSounds(s, prev, k);
    }
  }

  /** Once the last timer has fired the run stays finished: idle, "Ready" last, one completion, silent. */
  lemma RunToEnd(s: Sequencer.State<BrewStep>, n: nat)
    requires n >= |Schedule| - 1
    ensures var r := Sequencer.Run(BrewScript, Sequencer.Rerun(BrewScript, s, true), n);
      && r.phase == Idle && r.pending == None
      && r.statuses == s.statuses + Statuses
      && r.completions == s.completions + 1
      && Sound.Brew !in r.playing && Sound.Steam !in r.playing
  {
    if n == |Schedule| - 1 {
      Walkthrough(s, n);
    } else {
      var c := Sequencer.Cleanup(BrewScript, s);
      Sequencer.RunPastEnd(BrewScript, c, n);
      Sequencer.RunPastEnd(BrewScript, c, |Schedule| - 1);
      Walkthrough(s, |Schedule| - 1);
    }
  }

  /**
   * The brewing flag switched off after the start block and `k` < 3 timers:
   * the cleanup silences brew and steam, and however many timers would later
   * have been due, no phase, sound, status or completion follows.
   */
  lemma Interrupted(s: Sequencer.State<BrewStep>, k: nat, n: nat)
    requires k < |Schedule| - 1
    ensures var t := Sequencer.Rerun(BrewScript, Sequencer.Run(BrewScript, Sequencer.Rerun(BrewScript, s, true), k), false);
      && Sequencer.Run(BrewScript, t, n) == t
      && t.pending == None && t.phase == Schedule[k]
      && t.completions == s.completions
      && Sound.Brew !in t.playing && Sound.Steam !in t.playing
  {
    var r := Sequencer.Run(BrewScript, Sequencer.Rerun(BrewScript, s, true), k);
    Walkthrough(s, k);
    Sequencer.NoEffectAfterCleanup(BrewScript, r, n);
  }

  // -----------------------------------------------------------------------
  // Animation frame.

  /** The turntable's rotation per frame: 0.002 rad in idle, slowed to 0.0005 while a brew runs. */
  function TurnRate(step: BrewStep): (rate: real)
    ensures rate > 0.0
    ensures step == Idle <==> rate == 0.002
    ensures step != Idle ==> rate < 0.002
  {
    if step == Idle then 0.002 else 0.0005
  }

  /** The espresso stream under the portafilter is shown exactly while extracting. */
  function StreamVisible(step: BrewStep): (v: bool)
    ensures v <==> step == Brewing
  {
    step == Brewing
  }

  /** The steam cloud at the wand is shown exactly while steaming. */
  function SteamVisible(step: BrewStep): (v: bool)
    ensures v <==> step == Steaming
  {
    step == Steaming
  }

  /**
   * At every point of a run what is seen matches what is heard: the stream
   * and the steam cloud are never shown together, the stream only while the
   * brew sound is on (when there is audio), the cloud exactly while the
   * steam sound is on, and the two sounds never overlap.
   */
  lemma SeenAsHeard(s: Sequencer.State<BrewStep>, k: nat)
    requires k < |Schedule|
    ensures var r := Sequencer.Run(BrewScript, Sequencer.Rerun(BrewScript, s, true), k);
      && !(StreamVisible(r.phase) && SteamVisible(r.phase))
      && (StreamVisible(r.phase) && s.audible ==> Sound.Brew in r.playing)
      && (Sound.Steam in r.playing <==> s.audible && SteamVisible(r.phase))
      && !(Sound.Brew in r.playing && Sound.Steam in r.playing)
  {
    Walkthrough(s, k);
  }

  /** Where the frame eases the separable parts: the group head's height, the portafilter's depth and height, the drip tray's height, the tank's depth and the wand's offset. */
  datatype Layout = Layout(groupHeadY: real, portafilterZ: real, portafilterY: real, dripTrayY: real, waterTankZ: real, steamWandX: real)

  /** The eased-towards layout, assembled or exploded. */
  function LayoutTarget(exploded: bool): (l: Layout)
    ensures exploded ==> l == Layout(1.5, 2.0, 0.4, -1.2, -1.8, 1.5)
    ensures !exploded ==> l == Layout(0.8, 0.9, 0.6, -0.6, -0.8, 0.8)
    ensures l.groupHeadY > l.portafilterY > l.dripTrayY
  {
    if exploded then Layout(1.5, 2.0, 0.4, -1.2, -1.8, 1.5) else Layout(0.8, 0.9, 0.6, -0.6, -0.8, 0.8)
  }

  /**
   * Exploding moves every part away from the body: the group head up, the
   * portafilter out to the front and down, the drip tray down, the tank
   * back and the wand out to the side.
   */
  lemma ExplodedApart()
    ensures var e, a := LayoutTarget(true), LayoutTarget(false);
      && e.groupHeadY > a.groupHeadY && e.portafilterZ > a.portafilterZ && e.portafilterY < a.portafilterY
      && e.dripTrayY < a.dripTrayY && e.waterTankZ < a.waterTankZ && e.steamWandX > a.steamWandX
      && e.groupHeadY - e.portafilterY > a.groupHeadY - a.portafilterY
  {
  }

  /**
   * getMaterialProps: steel parts with the usual selection and hover
   * highlight; the group head glows while the boiler heats, over any
   * selection glow.
   */
  function MaterialProps(part: string, selected: Option<string>, hovered: Option<string>, step: BrewStep): (m: Materials.Material)
    ensures m == Materials.Highlight(part, selected, hovered, "#d0d0d0", Some(Materials.Finish(0.2, 0.7)), step == Heating && part == "Group Head")
    ensures m.emissive == Materials.HeatGlow <==> step == Heating && part == "Group Head"
    ensures m.emissiveIntensity > 0.0 <==> (step == Heating && part == "Group Head") || selected == Some(part)
  {
    Materials.Highlight(part, selected, hovered, "#d0d0d0", Some(Materials.Finish(0.2, 0.7)), step == Heating && part == "Group Head")
  }
}
