/**
 * The brew/grind phase sequencer shared by every equipment component.
 *
 * Each component's effect keyed on its brewing flag is a fixed chain of
 * timer callbacks: the effect body performs a block of actions and
 * schedules the first timer; each timer callback performs its own block and
 * schedules the next one; the effect's cleanup stops some sounds and clears
 * every timer. This module states that chain as data (a Script) and gives
 * its meaning as functions over an abstract State. The component classes
 * are proved to implement these functions, and the lemmas below are proved
 * once for every script.
 *
 * Wall-clock time is abstracted: the timers of one chain are never pending
 * together (each is scheduled by its predecessor), so the state holds the
 * index of the single pending timer, and Fire is "that timer elapses".
 * `elapsed` accumulates the delays of the timers that have fired.
 */
module Sequencer {
  import opened Wrappers
  import Sound

  /** One effect of the effect body or of a timer callback. */
  datatype Action<P> =
    | SetPhase(phase: P)        // setBrewStep / setGrindStep
    | Play(tag: Sound.Tag)      // playSound
    | Stop(tag: Sound.Tag)      // stopSound
    | Emit(status: string)      // onStatusChange
    | Complete                  // onBrewComplete / onGrindComplete

  /** A setTimeout callback: its delay in milliseconds and what it does. */
  datatype Timer<P> = Timer(delay: nat, actions: seq<Action<P>>)

  /**
   * A whole effect: the body's actions, the chained timers in scheduling
   * order, and the sound tags the cleanup function stops.
   */
  datatype Script<P> = Script(start: seq<Action<P>>, timers: seq<Timer<P>>, teardown: set<Sound.Tag>)

  /**
   * What a sequencer has done so far: its phase, the index of the pending
   * timer (if any), the tags its sound registry holds, whether an audio
   * context exists, the statuses it has reported, how often it has reported
   * completion, and the milliseconds of fired delays.
   */
  datatype State<P> = State(
    phase: P,
    pending: Option<nat>,
    playing: set<Sound.Tag>,
    audible: bool,
    statuses: seq<string>,
    completions: nat,
    elapsed: nat)

  /** The effect of one action. Playing a tag without an audio context does nothing. */
  function Apply<P>(s: State<P>, a: Action<P>): (r: State<P>)
    ensures r.pending == s.pending && r.elapsed == s.elapsed && r.audible == s.audible
  {
    match a
    case SetPhase(p) => s.(phase := p)
    case Play(t) => if s.audible then s.(playing := s.playing + {t}) else s
    case Stop(t) => s.(playing := s.playing - {t})
    case Emit(m) => s.(statuses := s.statuses + [m])
    case Complete => s.(completions := s.completions + 1)
  }

  /** The effect of a block of actions, performed in order. */
  function ApplyAll<P>(s: State<P>, acts: seq<Action<P>>): (r: State<P>)
    ensures r.pending == s.pending && r.elapsed == s.elapsed && r.audible == s.audible
    decreases |acts|
  {
    if acts == [] then s else ApplyAll(Apply(s, acts[0]), acts[1..])
  }

  /** The effect body when the brewing flag is set: run the start block, schedule the first timer. */
  function Start<P>(sc: Script<P>, s: State<P>): State<P> {
    ApplyAll(s, sc.start).(pending := if |sc.timers| > 0 then Some(0) else None)
  }

  /** The pending timer elapses: run its block, schedule its successor. Nothing pending: nothing happens. */
  function Fire<P>(sc: Script<P>, s: State<P>): State<P> {
    match s.pending
    case None => s
    case Some(k) =>
      if k < |sc.timers| then
        ApplyAll(s, sc.timers[k].actions).(
          pending := if k + 1 < |sc.timers| then Some(k + 1) else None,
          elapsed := s.elapsed + sc.timers[k].delay)
      else
        s.(pending := None)
  }

  /** The cleanup function: stop the teardown tags and clear every timer. The phase is left as it is. */
  function Cleanup<P>(sc: Script<P>, s: State<P>): State<P> {
    s.(playing := s.playing - sc.teardown, pending := None)
  }

  /**
   * The effect re-runs because the brewing flag changed: React first runs
   * the previous run's cleanup, then the body, which starts a chain only
   * when the flag is set.
   */
  function Rerun<P>(sc: Script<P>, s: State<P>, brewing: bool): State<P> {
    var c := Cleanup(sc, s);
    if brewing then Start(sc, c) else c
  }

  /** The state after `n` further timers have elapsed. */
  function Run<P>(sc: Script<P>, s: State<P>, n: nat): State<P> {
    if n == 0 then s else Fire(sc, Run(sc, s, n - 1))
  }

  // ---------------------------------------------------------------------
  // Reference definitions of what a block of actions does, one field at a time.

  /** The phase set by the last SetPhase of `acts`, or `p` if there is none. */
  function LastPhase<P>(acts: seq<Action<P>>, p: P): P
    decreases |acts|
  {
    if acts == [] then p
    else if acts[|acts| - 1].SetPhase? then acts[|acts| - 1].phase
    else LastPhase(acts[..|acts| - 1], p)
  }

  /** The statuses `acts` reports, in order. */
  function Emitted<P>(acts: seq<Action<P>>): seq<string>
    decreases |acts|
  {
    if acts == [] then []
    else Emitted(acts[..|acts| - 1]) + (if acts[|acts| - 1].Emit? then [acts[|acts| - 1].status] else [])
  }

  /** How many Complete actions `acts` holds. */
  function Completions<P>(acts: seq<Action<P>>): nat
    decreases |acts|
  {
    if acts == [] then 0
    else Completions(acts[..|acts| - 1]) + (if acts[|acts| - 1].Complete? then 1 else 0)
  }

  /** The tags that sound after `acts`, starting from `playing`. */
  function Sounding<P>(acts: seq<Action<P>>, playing: set<Sound.Tag>, audible: bool): set<Sound.Tag>
    decreases |acts|
  {
    if acts == [] then playing
    else
      var before := Sounding(acts[..|acts| - 1], playing, audible);
      match acts[|acts| - 1]
      case Play(t) => if audible then before + {t} else before
      case Stop(t) => before - {t}
      case _ => before
  }

  /** The block a chain has performed after its start and `k` timers. */
  function Prefix<P>(sc: Script<P>, k: nat): seq<Action<P>>
    requires k <= |sc.timers|
  {
    if k == 0 then sc.start else Prefix(sc, k - 1) + sc.timers[k - 1].actions
  }

  /** The sum of the first `k` delays. */
  function Elapsed<P>(sc: Script<P>, k: nat): nat
    requires k <= |sc.timers|
  {
    if k == 0 then 0 else Elapsed(sc, k - 1) + sc.timers[k - 1].delay
  }

  /** The state of a chain started from `s` after its start block and `k` timers. */
  function Replay<P>(sc: Script<P>, s: State<P>, k: nat): State<P>
    requires k <= |sc.timers|
  {
    ApplyAll(s, Prefix(sc, k)).(
      pending := if k < |sc.timers| then Some(k) else None,
      elapsed := s.elapsed + Elapsed(sc, k))
  }

  /** The script reports completion exactly once, in its last timer. */
  ghost predicate CompletesOnceAtEnd<P>(sc: Script<P>) {
    && |sc.timers| > 0
    && Completions(sc.start) == 0
    && (forall i | 0 <= i < |sc.timers| - 1 :: Completions(sc.timers[i].actions) == 0)
    && Completions(sc.timers[|sc.timers| - 1].actions) == 1
  }

  // ---------------------------------------------------------------------
  // Lemmas.

  /** Performing two blocks one after the other is performing their concatenation. */
  lemma {:induction false} ApplyAllAppend<P>(s: State<P>, a: seq<Action<P>>, b: seq<Action<P>>)
    ensures ApplyAll(s, a + b) == ApplyAll(ApplyAll(s, a), b)
    decreases |a|
  {
    if a == [] {
      assert a + b == b;
    } else {
      assert (a + b)[1..] == a[1..] + b;
      ApplyAllAppend(Apply(s, a[0]), a[1..], b);
    }
  }

  /** A block's effect, field by field, agrees with the reference definitions. */
  lemma {:induction false} ApplyAllFields<P>(s: State<P>, acts: seq<Action<P>>)
    ensures ApplyAll(s, acts) == s.(
      phase := LastPhase(acts, s.phase),
      playing := Sounding(acts, s.playing, s.audible),
      statuses := s.statuses + Emitted(acts),
      completions := s.completions + Completions(acts))
    decreases |acts|
  {
    if acts == [] {
    } else {
      var init, last := acts[..|acts| - 1], acts[|acts| - 1];
      assert acts == init + [last];
      ApplyAllAppend(s, init, [last]);
      ApplyAllFields(s, init);
      assert ApplyAll(ApplyAll(s, init), [last]) == Apply(ApplyAll(s, init), last);
    }
  }

  /** A block of up to four actions, unfolded. */
  lemma ApplyAllSteps<P>(s: State<P>, acts: seq<Action<P>>)
    requires 1 <= |acts| <= 4
    ensures |acts| == 1 ==> ApplyAll(s, acts) == Apply(s, acts[0])
    ensures |acts| == 2 ==> ApplyAll(s, acts) == Apply(Apply(s, acts[0]), acts[1])
    ensures |acts| == 3 ==> ApplyAll(s, acts) == Apply(Apply(Apply(s, acts[0]), acts[1]), acts[2])
    ensures |acts| == 4 ==> ApplyAll(s, acts) == Apply(Apply(Apply(Apply(s, acts[0]), acts[1]), acts[2]), acts[3])
  {
    var s1 := Apply(s, acts[0]);
    var rest := acts[1..];
    assert ApplyAll(s, acts) == ApplyAll(s1, rest);
    if |acts| == 1 {
      assert rest == [];
    } else {
      var s2 := Apply(s1, acts[1]);
      assert rest[0] == acts[1];
      assert ApplyAll(s1, rest) == ApplyAll(s2, rest[1..]);
      var rest2 := rest[1..];
      if |acts| == 2 {
        assert rest2 == [];
      } else {
        var s3 := Apply(s2, acts[2]);
        assert rest2[0] == acts[2];
        assert ApplyAll(s2, rest2) == ApplyAll(s3, rest2[1..]);
        var rest3 := rest2[1..];
        if |acts| == 3 {
          assert rest3 == [];
        } else {
          assert rest3[0] == acts[3] && rest3[1..] == [];
          assert ApplyAll(s3, rest3) == ApplyAll(Apply(s3, acts[3]), rest3[1..]);
        }
      }
    }
  }

  /** Actions never touch the schedule, so a rescheduled state runs a block the same way. */
  lemma {:induction false} ApplyAllReschedule<P>(s: State<P>, acts: seq<Action<P>>, pending: Option<nat>, elapsed: nat)
    ensures ApplyAll(s.(pending := pending, elapsed := elapsed), acts)
         == ApplyAll(s, acts).(pending := pending, elapsed := elapsed)
    decreases |acts|
  {
    if acts != [] {
      ApplyAllReschedule(Apply(s, acts[0]), acts[1..], pending, elapsed);
    }
  }

  /** After its start and `k` timers, a chain is in the state its first k+1 blocks produce. */
  lemma {:induction false} RunFromStart<P>(sc: Script<P>, s: State<P>, k: nat)
    requires k <= |sc.timers|
    ensures Run(sc, Start(sc, s), k) == Replay(sc, s, k)
  {
    if k > 0 {
      RunFromStart(sc, s, k - 1);
      var prev := Replay(sc, s, k - 1);
      var done := ApplyAll(s, Prefix(sc, k - 1));
      assert prev == done.(pending := Some(k - 1), elapsed := s.elapsed + Elapsed(sc, k - 1));
      var pending := if k < |sc.timers| then Some(k) else None;
      var elapsed := s.elapsed + Elapsed(sc, k);
      ApplyAllReschedule(done, sc.timers[k - 1].actions, pending, elapsed);
      ApplyAllReschedule(done, sc.timers[k - 1].actions, Some(k - 1), s.elapsed + Elapsed(sc, k - 1));
      ApplyAllAppend(s, Prefix(sc, k - 1), sc.timers[k - 1].actions);
    }
  }

  /** Once every timer of a started chain has fired, further firing changes nothing. */
  lemma {:induction false} RunPastEnd<P>(sc: Script<P>, s: State<P>, n: nat)
    requires n >= |sc.timers|
    ensures Run(sc, Start(sc, s), n) == Replay(sc, s, |sc.timers|)
    ensures Run(sc, Start(sc, s), n).pending == None
  {
    if n == |sc.timers| {
      RunFromStart(sc, s, n);
    } else {
      RunPastEnd(sc, s, n - 1);
    }
  }

  /** Nothing a chain does survives its cleanup: no phase, sound, status or completion follows. */
  lemma {:induction false} NoEffectAfterCleanup<P>(sc: Script<P>, s: State<P>, n: nat)
    ensures Run(sc, Cleanup(sc, s), n) == Cleanup(sc, s)
  {
    if n > 0 {
      NoEffectAfterCleanup(sc, s, n - 1);
    }
  }

  /** The completions reported by a chain's start block and first `k` timers. */
  lemma {:induction false} CompletionsByStep<P>(sc: Script<P>, k: nat)
    requires CompletesOnceAtEnd(sc) && k <= |sc.timers|
    ensures Completions(Prefix(sc, k)) == if k == |sc.timers| then 1 else 0
  {
    if k > 0 {
      CompletionsByStep(sc, k - 1);
      CompletionsAppend(Prefix(sc, k - 1), sc.timers[k - 1].actions);
    }
  }

  lemma {:induction false} CompletionsAppend<P>(a: seq<Action<P>>, b: seq<Action<P>>)
    ensures Completions(a + b) == Completions(a) + Completions(b)
    decreases |b|
  {
    if b == [] {
      assert a + b == a;
    } else {
      assert (a + b)[..|a + b| - 1] == a + b[..|b| - 1];
      CompletionsAppend(a, b[..|b| - 1]);
    }
  }

  /** A block without a Complete action reports no completion. */
  lemma {:induction false} NoCompletion<P>(acts: seq<Action<P>>)
    requires forall a | a in acts :: !a.Complete?
    ensures Completions(acts) == 0
    decreases |acts|
  {
    if acts != [] {
      NoCompletion(acts[..|acts| - 1]);
    }
  }

  /**
   * A chain whose script completes once at its end reports completion
   * exactly once, when its last timer fires, however long it runs.
   */
  lemma ExactlyOnce<P>(sc: Script<P>, s: State<P>, n: nat)
    requires CompletesOnceAtEnd(sc)
    ensures Run(sc, Start(sc, s), n).completions == s.completions + (if n >= |sc.timers| then 1 else 0)
  {
    var k := if n >= |sc.timers| then |sc.timers| else n;
    if n >= |sc.timers| {
      RunPastEnd(sc, s, n);
    } else {
      RunFromStart(sc, s, n);
    }
    ApplyAllFields(s, Prefix(sc, k));
    CompletionsByStep(sc, k);
  }

  /** A chain torn down before its last timer never reports completion, however many timers are later due. */
  lemma InterruptedNeverCompletes<P>(sc: Script<P>, s: State<P>, k: nat, n: nat)
    requires CompletesOnceAtEnd(sc) && k < |sc.timers|
    ensures Run(sc, Cleanup(sc, Run(sc, Start(sc, s), k)), n).completions == s.completions
  {
    ExactlyOnce(sc, s, k);
    NoEffectAfterCleanup(sc, Run(sc, Start(sc, s), k), n);
  }

  /** A started chain has fired all its timers exactly after the sum of their delays. */
  lemma TotalDuration<P>(sc: Script<P>, s: State<P>)
    ensures Run(sc, Start(sc, s), |sc.timers|).elapsed == s.elapsed + Elapsed(sc, |sc.timers|)
    ensures Run(sc, Start(sc, s), |sc.timers|).pending == None
  {
    RunFromStart(sc, s, |sc.timers|);
  }
}
