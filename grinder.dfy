/**
 * The burr grinder component: its single-timer grind effect, the explode
 * targets of its animation frame, its in-place bean, grounds, stream and
 * particle updates, and its part highlight.
 */
module Grinder {
  import opened Wrappers
  import Sound
  import Sequencer
  import Materials

  datatype GrindStep = Idle | Grinding

  /** The grind effect as data: start block, the chained timers, the tags its cleanup stops. */
  const GrindScript: Sequencer.Script<GrindStep> := Sequencer.Script(
    [Sequencer.SetPhase(Grinding), Sequencer.Play(Sound.Grind), Sequencer.Emit("Grinding Beans")],
    [ Sequencer.Timer(4000, [Sequencer.Stop(Sound.Grind), Sequencer.SetPhase(Idle), Sequencer.Emit("Ready"), Sequencer.Complete]) ],
    {Sound.Grind})

  /** The phase after the start block and after each timer. */
  const Schedule: seq<GrindStep> := [Grinding, Idle]
  /** Milliseconds after the start at which each of those phases is entered. */
  const Times: seq<nat> := [0, 4000]
  /** Every status a run reports, in order. */
  const Statuses: seq<string> := ["Grinding Beans", "Ready"]
  /** How many of those have been reported after the start block and after each timer. */
  const Reported: seq<nat> := [1, 2]

  /**
   * The grind effect of one mounted burr grinder: its phase, the pending timer, its
   * own sound registry, the statuses and completions it has reported to the
   * scene, and (for the proofs) the delays that have elapsed.
   */
  class GrindSequence {
    var grindStep: GrindStep
    var pending: Option<nat>
    const audio: Sound.Registry
    var statuses: seq<string>
    var completions: nat
    ghost var elapsed: nat

    ghost predicate Valid()
      reads this, audio
    {
      audio.Valid()
    }

    /** The sequencer state this component is in. */
    ghost function Abstract(): Sequencer.State<GrindStep>
      reads this, audio
    {
      Sequencer.State(grindStep, pending, audio.active.Keys, audio.hasContext, statuses, completions, elapsed)
    }

    /** Mounting: idle, nothing scheduled, nothing sounding, nothing reported. */
    constructor (hasAudio: bool)
      ensures Valid() && fresh(audio)
      ensures Abstract() == Sequencer.State(Idle, None, {}, hasAudio, [], 0, 0)
    {
      grindStep := Idle;
      pending := None;
      audio := new Sound.Registry(hasAudio);
      statuses := [];
      completions := 0;
      elapsed := 0;
    }

    /** The effect body with the grinding flag set: its first block, then the first timer is scheduled. */
    method Start()
      requires Valid()
      modifies this, audio
      ensures Valid()
      ensures Abstract() == Sequencer.Start(GrindScript, old(Abstract()))
    {
      ghost var s := Abstract();
      Sequencer.ApplyAllSteps(s, GrindScript.start);
      grindStep := Grinding;
      audio.Play(Sound.Grind);
      statuses := statuses + ["Grinding Beans"];
      pending := Some(0);
    }

    /** The pending timer elapses: its callback runs. */
    method Fire()
      requires Valid()
      modifies this, audio
      ensures Valid()
      ensures Abstract() == Sequencer.Fire(GrindScript, old(Abstract()))
    {
      if pending.None? {
        return;
      }
      var k := pending.value;
      if k == 0 {
        FinishGrinding();
      } else {
        pending := None;
      }
    }

    /** The timer's callback: grinding stops, "Ready", and completion. */
    method FinishGrinding()
      requires Valid() && pending == Some(0)
      modifies this, audio
      ensures Valid()
      ensures Abstract() == Sequencer.Fire(GrindScript, old(Abstract()))
    {
      ghost var s := Abstract();
      Sequencer.ApplyAllSteps(s, GrindScript.timers[0].actions);
      ghost var t := s;
      audio.Stop(Sound.Grind);
      t := Sequencer.Apply(t, Sequencer.Stop(Sound.Grind));
      assert Abstract() == t;
      grindStep := Idle;
      t := Sequencer.Apply(t, Sequencer.SetPhase(Idle));
      assert Abstract() == t;
      statuses := statuses + ["Ready"];
      t := Sequencer.Apply(t, Sequencer.Emit("Ready"));
      assert Abstract() == t;
      completions := completions + 1;
      t := Sequencer.Apply(t, Sequencer.Complete);
      assert Abstract() == t;
      elapsed := elapsed + GrindScript.timers[0].delay;
      pending := None;
    }

    /** The effect's cleanup function: stop its sounds, clear every timer. */
    method Cleanup()
      requires Valid()
      modifies this, audio
      ensures Valid()
      ensures Abstract() == Sequencer.Cleanup(GrindScript, old(Abstract()))
    {
      audio.Stop(Sound.Grind);
      pending := None;
    }

    /** The grinding flag changed: React runs the previous cleanup, then the body. */
    method Rerun(grinding: bool)
      requires Valid()
      modifies this, audio
      ensures Valid()
      ensures Abstract() == Sequencer.Rerun(GrindScript, old(Abstract()), grinding)
    {
      Cleanup();
      if grinding {
        Start();
      }
    }
  }

  /** The script reports completion once, in its last timer, and its delays sum to 4000 ms. */
  lemma ScriptShape()
    ensures Sequencer.CompletesOnceAtEnd(GrindScript)
    ensures Sequencer.Elapsed(GrindScript, |GrindScript.timers|) == 4000
  {
    var ts := GrindScript.timers;
    Sequencer.NoCompletion(GrindScript.start);
    assert Sequencer.Elapsed(GrindScript, 1) == 4000;
    var last := ts[|ts| - 1].actions;
    Sequencer.NoCompletion(last[..|last| - 1]);
  }

  /**
   * Where a run started (or restarted) from `s` stands after its start block
   * and `k` timers: in phase Schedule[k], Times[k] ms later, having reported
   * the first Reported[k] statuses, and completed only at the end.
   */
  ghost predicate Progress(s: Sequencer.State<GrindStep>, r: Sequencer.State<GrindStep>, k: nat)
    requires k < |Schedule|
  {
    && r.phase == Schedule[k]
    && r.pending == (if k < 1 then Some(k) else None)
    && r.elapsed == s.elapsed + Times[k]
    && r.statuses == s.statuses + Statuses[..Reported[k]]
    && r.completions == s.completions + (if k == 1 then 1 else 0)
    && r.audible == s.audible
  }

  /**
   * What sounds at that point: 'grind' exactly while grinding (when there
   * is audio at all); no other tag has been touched.
   */
  ghost predicate Sounds(s: Sequencer.State<GrindStep>, r: Sequencer.State<GrindStep>, k: nat)
  {
    && (Sound.Grind in r.playing <==> s.audible && r.phase == Grinding)
    && r.playing - {Sound.Grind} == s.playing - {Sound.Grind}
  }

  /** Each timer moves a run from one row of the schedule to the next. */
  lemma StepProgress(s: Sequencer.State<GrindStep>, r: Sequencer.State<GrindStep>, k: nat)
    requires 1 <= k < |Schedule| && Progress(s, r, k - 1)
    ensures Progress(s, Sequencer.Fire(GrindScript, r), k)
  {
    Sequencer.ApplyAllSteps(r, GrindScript.timers[k - 1].actions);
    if k == 1 {
      assert Statuses[..2] == Statuses[..1] + [Statuses[1]];
    }
  }

  /** Each timer starts and stops the sounds of the phase it enters. */
  lemma StepSounds(s: Sequencer.State<GrindStep>, r: Sequencer.State<GrindStep>, k: nat)
    requires 1 <= k < |Schedule| && Progress(s, r, k - 1) && Sounds(s, r, k - 1)
    ensures Sounds(s, Sequencer.Fire(GrindScript, r), k)
  {
    StepProgress(s, r, k);
    if k == 1 {
      Sequencer.ApplyAllSteps(r, GrindScript.timers[0].actions);
    }
  }

  /** A run started (or restarted) from any state follows the schedule, sounds included. */
  lemma {:induction false} Walkthrough(s: Sequencer.State<GrindStep>, k: nat)
    requires k < |Schedule|
    ensures var r := Sequencer.Run(GrindScript, Sequencer.Rerun(GrindScript, s, true), k);
      Progress(s, r, k) && Sounds(s, r, k)
  {
    var c := Sequencer.Cleanup(GrindScript, s);
    if k == 0 {
      Sequencer.ApplyAllSteps(c, GrindScript.start);
    } else {
      Walkthrough(s, k - 1);
      var prev := Sequencer.Run(GrindScript, Sequencer.Start(GrindScript, c), k - 1);
      StepProgress(s, prev, k);
      StepSounds(s, prev, k);
    }
  }

  /** Once the last timer has fired the run stays finished: idle, "Ready" last, one completion, silent. */
  lemma RunToEnd(s: Sequencer.State<GrindStep>, n: nat)
    requires n >= |Schedule| - 1
    ensures var r := Sequencer.Run(GrindScript, Sequencer.Rerun(GrindScript, s, true), n);
      && r.phase == Idle && r.pending == None
      && r.statuses == s.statuses + Statuses
      && r.completions == s.completions + 1
      && Sound.Grind !in r.playing
  {
    if n == |Schedule| - 1 {
      Walkthrough(s, n);
    } else {
      var c := Sequencer.Cleanup(GrindScript, s);
      Sequencer.RunPastEnd(GrindScript, c, n);
      Sequencer.RunPastEnd(GrindScript, c, |Schedule| - 1);
      Walkthrough(s, |Schedule| - 1);
    }
  }

  /**
   * The grinding flag switched off after the start block and `k` < 1 timers:
   * the cleanup silences grind, and however many timers would later
   * have been due, no phase, sound, status or completion follows.
   */
  lemma Interrupted(s: Sequencer.State<GrindStep>, k: nat, n: nat)
    requires k < |Schedule| - 1
    ensures var t := Sequencer.Rerun(GrindScript, Sequencer.Run(GrindScript, Sequencer.Rerun(GrindScript, s, true), k), false);
      && Sequencer.Run(GrindScript, t, n) == t
      && t.pending == None && t.phase == Schedule[k]
      && t.completions == s.completions
      && Sound.Grind !in t.playing
  {
    var r := Sequencer.Run(GrindScript, Sequencer.Rerun(GrindScript, s, true), k);
    Walkthrough(s, k);
    Sequencer.NoEffectAfterCleanup(GrindScript, r, n);
  }

  // -----------------------------------------------------------------------
  // Exploded view.

  /** Where the frame eases the separable parts: hopper, collar and base heights, the chute's depth and height, the bin's depth. */
  datatype Layout = Layout(hopperY: real, collarY: real, chuteZ: real, chuteY: real, binZ: real, baseY: real)

  /** The eased-towards layout, assembled or exploded. */
  function LayoutTarget(exploded: bool): (l: Layout)
    ensures l.hopperY > l.collarY > l.chuteY > l.baseY
    ensures exploded ==> l == Layout(2.5, 1.6, 1.2, 0.4, 1.5, -1.5)
    ensures !exploded ==> l == Layout(1.8, 1.1, 0.7, 0.2, 0.8, -1.1)
  {
    if exploded then Layout(2.5, 1.6, 1.2, 0.4, 1.5, -1.5) else Layout(1.8, 1.1, 0.7, 0.2, 0.8, -1.1)
  }

  /**
   * Exploding moves every part away from the body: the hopper, collar and
   * chute up, the chute and bin forward, the base down, and widens every
   * vertical gap between neighbouring parts.
   */
  lemma ExplodedApart()
    ensures var e, a := LayoutTarget(true), LayoutTarget(false);
      && e.hopperY > a.hopperY && e.collarY > a.collarY && e.chuteY > a.chuteY
      && e.chuteZ > a.chuteZ && e.binZ > a.binZ && e.baseY < a.baseY
      && e.hopperY - e.collarY > a.hopperY - a.collarY
      && e.collarY - e.chuteY > a.collarY - a.chuteY
      && e.chuteY - e.baseY > a.chuteY - a.baseY
  {
  }

  // -----------------------------------------------------------------------
  // Beans, grounds, stream and falling particles, updated in place every frame.

  /** The bean mass in the hopper as the frame callback mutates it. */
  class Beans {
    var scaleY: real
    var x: real
    var y: real
    var z: real
    var turn: real

    /** While no frame lasts longer than 250 ms the bean level never falls below half a frame's worth under 0.1. */
    ghost predicate InRange()
      reads this
    {
      0.05 <= scaleY <= 1.0
    }

    /** The beans as first rendered: full, at height -0.2. */
    constructor ()
      ensures scaleY == 1.0 && x == 0.0 && y == -0.2 && z == 0.0 && turn == 0.0
      ensures InRange()
    {
      scaleY, x, y, z, turn := 1.0, 0.0, -0.2, 0.0, 0.0;
    }

    /**
     * The beans' part of a frame lasting `delta` seconds. While grinding
     * the level drops (only while above 0.1), the mass turns by 0.1 rad and
     * jiggles sideways by up to 0.02, `sinT` and `cosT` being the sine and
     * cosine of twenty times the clock; in idle, once the grinding flag is
     * down, the beans are refilled and recentred at height 0.
     */
    method Frame(delta: real, step: GrindStep, isGrinding: bool, sinT: real, cosT: real)
      modifies this
      ensures step == Grinding ==>
        && (old(scaleY) > 0.1 ==> scaleY == old(scaleY) - 0.2 * delta && y == old(y) - 0.1 * delta)
        && (old(scaleY) <= 0.1 ==> scaleY == old(scaleY) && y == old(y))
        && turn == old(turn) + 0.1 && x == sinT * 0.02 && z == cosT * 0.02
      ensures step == Idle && !isGrinding ==> scaleY == 1.0 && x == 0.0 && y == 0.0 && z == 0.0 && turn == old(turn)
      ensures step == Idle && isGrinding ==> scaleY == old(scaleY) && x == old(x) && y == old(y) && z == old(z) && turn == old(turn)
      ensures 0.0 <= delta <= 0.25 && old(InRange()) ==> InRange()
    {
      if step == Grinding {
        if scaleY > 0.1 {
          scaleY := scaleY - 0.2 * delta;
          y := y - 0.1 * delta;
        }
        turn := turn + 0.1;
        x := sinT * 0.02;
        z := cosT * 0.02;
      } else if step == Idle && !isGrinding {
        scaleY := 1.0;
        y, x, z := 0.0, 0.0, 0.0;
      }
    }
  }

  /** The grounds in the bin as the frame callback mutates them (their y scale only). */
  class Grounds {
    var visible: bool
    var scaleY: real
    var y: real

    /** The bound the scale keeps while no frame lasts longer than 250 ms: at most one frame's growth past full. */
    ghost predicate InRange()
      reads this
    {
      0.1 <= scaleY < 1.0625
    }

    /** The grounds as first rendered: hidden, at y scale 0.1 and height -0.4. */
    constructor ()
      ensures !visible && scaleY == 0.1 && y == -0.4
      ensures InRange()
    {
      visible, scaleY, y := false, 0.1, -0.4;
    }

    /**
     * The grounds' part of a frame: they appear and build up while
     * grinding (only while below full height), and are hidden and reset
     * whenever the grinding flag is down outside the grinding phase.
     */
    method Frame(delta: real, step: GrindStep, isGrinding: bool)
      modifies this
      ensures step == Grinding ==> visible
      ensures step == Grinding && old(scaleY) < 1.0 ==> scaleY == old(scaleY) + 0.25 * delta && y == old(y) + 0.1 * delta
      ensures step == Grinding && old(scaleY) >= 1.0 ==> scaleY == old(scaleY) && y == old(y)
      ensures step == Idle && !isGrinding ==> !visible && scaleY == 0.1 && y == -0.4
      ensures step == Idle && isGrinding ==> visible == old(visible) && scaleY == old(scaleY) && y == old(y)
      ensures 0.0 <= delta <= 0.25 && old(InRange()) ==> InRange()
    {
      if step == Grinding {
        visible := true;
        if scaleY < 1.0 {
          scaleY := scaleY + 0.25 * delta;
          y := y + 0.1 * delta;
        }
      } else if !isGrinding {
        visible := false;
        scaleY := 0.1;
        y := -0.4;
      }
    }
  }

  /** The stream of grounds from the chute into the bin. */
  class Stream {
    var visible: bool
    var scaleX: real
    var scaleZ: real

    /** The stream as first rendered: hidden, at unit width. */
    constructor ()
      ensures !visible && scaleX == 1.0 && scaleZ == 1.0
    {
      visible, scaleX, scaleZ := false, 1.0, 1.0;
    }

    /**
     * The stream's part of a frame: shown exactly while grinding, its width
     * then varying by up to a fifth with `sinT` and `cosT` (the sine and
     * cosine of thirty times the clock).
     */
    method Frame(step: GrindStep, sinT: real, cosT: real)
      modifies this
      ensures visible <==> step == Grinding
      ensures step == Grinding ==> scaleX == 1.0 + sinT * 0.2 && scaleZ == 1.0 + cosT * 0.2
      ensures step == Grinding && -1.0 <= sinT <= 1.0 && -1.0 <= cosT <= 1.0 ==> 0.8 <= scaleX <= 1.2 && 0.8 <= scaleZ <= 1.2
      ensures step != Grinding ==> scaleX == old(scaleX) && scaleZ == old(scaleZ)
    {
      visible := step == Grinding;
      if step == Grinding {
        scaleX := 1.0 + sinT * 0.2;
        scaleZ := 1.0 + cosT * 0.2;
      }
    }
  }

  datatype Point = Point(x: real, y: real, z: real)

  /** Three draws of `Math.random`, each in [0, 1), in the order the source takes them. */
  datatype Draw = Draw(first: real, second: real, third: real)

  predicate Unit(d: Draw)
  {
    0.0 <= d.first < 1.0 && 0.0 <= d.second < 1.0 && 0.0 <= d.third < 1.0
  }

  /** The column the falling particles keep to: from the bin floor at -0.8 up to the chute mouth, around the stream. */
  predicate InColumn(p: Point)
  {
    -0.8 <= p.y < 0.4 && -0.05 <= p.x < 0.05 && 0.75 <= p.z < 0.85
  }

  /** Where a particle is first placed: anywhere down the column below 0.2. */
  function Scatter(d: Draw): (p: Point)
    ensures Unit(d) ==> InColumn(p) && p.y <= 0.2
  {
    Point((d.first - 0.5) * 0.1, 0.2 - d.second * 0.8, 0.8 + (d.third - 0.5) * 0.1)
  }

  /** Where a particle that fell past the floor reappears: just below the chute. */
  function Respawn(d: Draw): (p: Point)
    ensures Unit(d) ==> InColumn(p) && 0.2 <= p.y
  {
    Point((d.second - 0.5) * 0.1, 0.2 + d.first * 0.2, 0.8 + (d.third - 0.5) * 0.1)
  }

  /** One particle in one grinding frame: it falls 3 units a second and starts over at the chute once below the floor. */
  function Fall(p: Point, delta: real, d: Draw): (q: Point)
    ensures p.y - 3.0 * delta >= -0.8 ==> q == p.(y := p.y - 3.0 * delta)
    ensures p.y - 3.0 * delta < -0.8 ==> q == Respawn(d)
    ensures delta >= 0.0 && Unit(d) && InColumn(p) ==> InColumn(q)
  {
    var fallen := p.(y := p.y - 3.0 * delta);
    if fallen.y < -0.8 then Respawn(d) else fallen
  }

  /** The fifteen falling particles, each a point the frame moves in place. */
  class Particles {
    var visible: bool
    const points: array<Point>

    ghost predicate InRange()
      reads this, points
    {
      forall i :: 0 <= i < points.Length ==> InColumn(points[i])
    }

    /** The particles as first rendered: hidden, fifteen of them scattered down the column by the given draws. */
    constructor (draws: seq<Draw>)
      requires |draws| == 15
      ensures !visible && points.Length == 15 && fresh(points)
      ensures forall i :: 0 <= i < 15 ==> points[i] == Scatter(draws[i])
      ensures (forall i :: 0 <= i < 15 ==> Unit(draws[i])) ==> InRange()
    {
      visible := false;
      points := new Point[15](i requires 0 <= i < 15 => Scatter(draws[i]));
    }

    /**
     * The particles' part of a frame lasting `delta` seconds: while grinding
     * they are shown and every particle falls, a particle that drops below
     * the floor taking its own draws to reappear at the chute; otherwise
     * they are hidden and stay where they are.
     */
    method Frame(delta: real, step: GrindStep, draws: seq<Draw>)
      requires |draws| == points.Length
      modifies this, points
      ensures visible <==> step == Grinding
      ensures step == Grinding ==> forall i :: 0 <= i < points.Length ==> points[i] == Fall(old(points[i]), delta, draws[i])
      ensures step != Grinding ==> points[..] == old(points[..])
      ensures delta >= 0.0 && (forall i :: 0 <= i < |draws| ==> Unit(draws[i])) && old(InRange()) ==> InRange()
    {
      if step != Grinding {
        visible := false;
        return;
      }
      visible := true;
      var n := 0;
      while n < points.Length
        invariant 0 <= n <= points.Length && visible
        invariant forall i :: 0 <= i < n ==> points[i] == Fall(old(points[i]), delta, draws[i])
        invariant forall i :: n <= i < points.Length ==> points[i] == old(points[i])
      {
        var p := points[n];
        p := p.(y := p.y - 3.0 * delta);
        if p.y < -0.8 {
          p := Respawn(draws[n]);
        }
        points[n] := p;
        n := n + 1;
      }
    }
  }

  /** getMaterialProps: brushed steel with the usual selection and hover highlight, never heated. */
  function MaterialProps(part: string, selected: Option<string>, hovered: Option<string>): (m: Materials.Material)
    ensures m == Materials.Highlight(part, selected, hovered, "#d0d0d0", Some(Materials.Finish(0.2, 0.7)), false)
    ensures m.emissiveIntensity > 0.0 <==> selected == Some(part)
  {
    Materials.Highlight(part, selected, hovered, "#d0d0d0", Some(Materials.Finish(0.2, 0.7)), false)
  }
}
