/**
 * The procedural sound hook (frontend/src/useSoundEffects.ts).
 *
 * Each cue tag owns at most one audio graph, recorded in a registry keyed by
 * tag. The Web Audio graph itself is abstracted to a list of node identities
 * with their kinds; oscillator frequencies, filters and noise buffers are not
 * modelled, only which nodes are built, in which order, and when they are
 * handed over for release.
 */
module Sound {

  /** The five cue tags (SoundType). */
  datatype Tag = Grind | Brew | Steam | Pour | Slide

  /** Kinds of audio nodes a cue graph is built from. */
  datatype NodeKind = MainGain | Oscillator | NoiseSource | Filter | Gain

  /** An audio node, identified by a number that is never reused. */
  datatype Node = Node(id: nat, kind: NodeKind)

  /** The node kinds pushed for each tag, in push order. */
  function Recipe(t: Tag): (r: seq<NodeKind>)
    ensures |r| >= 3 && r[0] == MainGain
  {
    match t
    case Grind => [MainGain, Oscillator, Gain, NoiseSource, Filter, Gain]
    case Brew => [MainGain, NoiseSource, Filter, Oscillator, Gain]
    case Steam => [MainGain, NoiseSource, Filter, Oscillator, Gain]
    case Pour => [MainGain, NoiseSource, Filter]
    case Slide => [MainGain, NoiseSource, Filter, Gain]
  }

  /** The kinds of a node list, in order. */
  function Kinds(nodes: seq<Node>): (r: seq<NodeKind>)
    ensures |r| == |nodes| && forall i | 0 <= i < |nodes| :: r[i] == nodes[i].kind
  {
    seq(|nodes|, i requires 0 <= i < |nodes| => nodes[i].kind)
  }

  /** The nodes of a list, as a set. */
  function Elements(nodes: seq<Node>): (r: set<Node>)
    ensures forall n :: n in r <==> n in nodes
  {
    set n | n in nodes
  }

  /**
   * How the gain of a freshly started cue evolves, in seconds from its start.
   * Ramp: the main gain rises linearly from 0 to `level` at `rampEnd`.
   * Swell: an inner gain rises to `peak` at `peakAt`, falls back to 0 at
   * `silentAt`, and the noise source stops itself at `stopAt`.
   */
  datatype Envelope =
    | Ramp(level: real, rampEnd: real)
    | Swell(peak: real, peakAt: real, silentAt: real, stopAt: real)

  /** The per-tag envelope schedule set up by playSound. */
  function EnvelopeOf(t: Tag): (e: Envelope)
    ensures e.Ramp? <==> t != Slide
    ensures e.Ramp? ==> 0.0 < e.level <= 1.0 && 0.1 <= e.rampEnd <= 0.5
    ensures e.Swell? ==> 0.0 < e.peak <= 1.0 && 0.0 < e.peakAt < e.silentAt < e.stopAt
  {
    match t
    case Grind => Ramp(1.0, 0.1)
    case Brew => Ramp(0.5, 0.5)
    case Steam => Ramp(0.3, 0.2)
    case Pour => Ramp(0.5, 0.1)
    case Slide => Swell(0.4, 0.1, 0.5, 0.6)
  }

  /** Seconds over which stopSound fades the main gain to 0. */
  const FadeOut: real := 0.1
  /** Seconds after which stopSound stops and disconnects the nodes. */
  const ReleaseDelay: real := 0.15

  /** A node list is a well-formed graph for tag `t`: the recipe's kinds, main gain first. */
  ghost predicate IsGraph(nodes: seq<Node>, t: Tag) {
    Kinds(nodes) == Recipe(t)
  }

  /**
   * The node list playSound pushes for tag `t`, main gain first, numbering
   * the nodes from `id` on.
   */
  method BuildGraph(t: Tag, id: nat) returns (nodes: seq<Node>)
    ensures Kinds(nodes) == Recipe(t)
    ensures forall n | n in nodes :: id <= n.id < id + |nodes|
  {
    nodes := [Node(id, MainGain)];
    match t {
    case Grind =>
      nodes := nodes + [Node(id + 1, Oscillator), Node(id + 2, Gain)];
      nodes := nodes + [Node(id + 3, NoiseSource), Node(id + 4, Filter), Node(id + 5, Gain)];
    case Brew =>
      nodes := nodes + [Node(id + 1, NoiseSource), Node(id + 2, Filter)];
      nodes := nodes + [Node(id + 3, Oscillator), Node(id + 4, Gain)];
    case Steam =>
      nodes := nodes + [Node(id + 1, NoiseSource), Node(id + 2, Filter)];
      nodes := nodes + [Node(id + 3, Oscillator), Node(id + 4, Gain)];
    case Pour =>
      nodes := nodes + [Node(id + 1, NoiseSource), Node(id + 2, Filter)];
    case Slide =>
      nodes := nodes + [Node(id + 1, NoiseSource), Node(id + 2, Filter), Node(id + 3, Gain)];
    }
  }

  /** Every recorded list is a well-formed graph for its tag, numbered below `bound`. */
  ghost predicate Registered(active: map<Tag, seq<Node>>, bound: nat) {
    && (forall t | t in active :: IsGraph(active[t], t))
    && (forall t, n | t in active && n in active[t] :: n.id < bound)
  }

  /** Recording a well-formed graph numbered below a raised bound keeps a registry well formed. */
  lemma RecordGraph(active: map<Tag, seq<Node>>, bound: nat, t: Tag, nodes: seq<Node>, newBound: nat)
    requires Registered(active, bound) && bound <= newBound
    requires IsGraph(nodes, t) && forall n | n in nodes :: n.id < newBound
    ensures Registered(active[t := nodes], newBound)
  {
  }

  /** Deleting a key and then setting it is the same as setting it. */
  lemma ReplaceEntry<K, V>(m: map<K, V>, k: K, v: V)
    ensures (m - {k})[k := v] == m[k := v]
  {
  }

  /** Every active graph, and only an active one, carries its tag's envelope. */
  ghost predicate Enveloped(active: map<Tag, seq<Node>>, envelopes: map<Tag, Envelope>) {
    && envelopes.Keys == active.Keys
    && (forall t | t in envelopes :: envelopes[t] == EnvelopeOf(t))
  }

  /** Recording a graph together with its tag's envelope keeps every active graph enveloped. */
  lemma RecordEnvelope(active: map<Tag, seq<Node>>, envelopes: map<Tag, Envelope>, t: Tag, nodes: seq<Node>)
    requires Enveloped(active, envelopes)
    ensures Enveloped(active[t := nodes], envelopes[t := EnvelopeOf(t)])
  {
  }

  /**
   * The registry of active graphs (activeNodesRef) together with the audio
   * context's existence. `envelopes` holds the gain schedule playSound set
   * up on each active graph; `released` collects every node whose fade-out and
   * release stopSound has scheduled; `nextId` is the source of fresh node ids.
   */
  class Registry {
    const hasContext: bool
    var active: map<Tag, seq<Node>>
    var envelopes: map<Tag, Envelope>
    var released: set<Node>
    var nextId: nat

    ghost predicate Valid()
      reads this
    {
      && (!hasContext ==> active == map[])
      && Registered(active, nextId)
      && Enveloped(active, envelopes)
    }

    /** Mounting the hook: the context exists iff the browser provides one. */
    constructor (hasContext: bool)
      ensures Valid()
      ensures this.hasContext == hasContext
      ensures active == map[] && envelopes == map[] && released == {} && nextId == 0
    {
      this.hasContext := hasContext;
      active := map[];
      envelopes := map[];
      released := {};
      nextId := 0;
    }

    /**
     * stopSound: an absent tag changes nothing; otherwise the tag's nodes are
     * faded out and scheduled for release, and the tag's entry is deleted.
     */
    method Stop(t: Tag)
      requires Valid()
      modifies this
      ensures Valid()
      ensures active == old(active) - {t} && nextId == old(nextId)
      ensures active.Keys == old(active.Keys) - {t}
      ensures envelopes == old(envelopes) - {t}
      ensures released == old(released) + (if t in old(active) then Elements(old(active)[t]) else {})
    {
      if t !in active {
        return;
      }
      var nodes := active[t];
      // nodes[0] is the main gain (Valid): its gain is ramped to 0 over
      // FadeOut seconds and all nodes are stopped and disconnected after
      // ReleaseDelay seconds; either way every node is released.
      released := released + Elements(nodes);
      active := active - {t};
      envelopes := envelopes - {t};
    }

    /**
     * playSound: a no-op without an audio context; otherwise the tag's
     * previous graph is stopped first and a freshly built graph, main gain
     * first, is recorded under the tag, with the tag's envelope scheduled on
     * its gain.
     */
    method Play(t: Tag)
      requires Valid()
      modifies this
      ensures Valid()
      ensures !hasContext ==> active == old(active) && envelopes == old(envelopes) && released == old(released) && nextId == old(nextId)
      ensures hasContext ==> envelopes == old(envelopes)[t := EnvelopeOf(t)]
      ensures hasContext ==> t in active && active == old(active)[t := active[t]]
      ensures active.Keys == if hasContext then old(active.Keys) + {t} else old(active.Keys)
      ensures hasContext ==> IsGraph(active[t], t) && active[t][0].kind == MainGain
      ensures hasContext ==> forall n | n in active[t] :: old(nextId) <= n.id
      ensures hasContext ==> released == old(released) + (if t in old(active) then Elements(old(active)[t]) else {})
    {
      if !hasContext {
        return;
      }
      ghost var envelopesBefore := envelopes;
      Stop(t);
      var nodes := BuildGraph(t, nextId);
      assert nodes[0].kind == MainGain by { assert Kinds(nodes)[0] == Recipe(t)[0]; }
      Record(t, nodes);
      ReplaceEntry(envelopesBefore, t, EnvelopeOf(t));
    }

    /** Records a freshly numbered graph under its tag, with the tag's envelope, and moves the fresh-id source past it. */
    method Record(t: Tag, nodes: seq<Node>)
      requires Valid() && hasContext
      requires IsGraph(nodes, t) && forall n | n in nodes :: nextId <= n.id < nextId + |nodes|
      modifies this
      ensures Valid()
      ensures active == old(active)[t := nodes] && envelopes == old(envelopes)[t := EnvelopeOf(t)]
      ensures released == old(released) && nextId == old(nextId) + |nodes|
    {
      RecordGraph(active, nextId, t, nodes, nextId + |nodes|);
      RecordEnvelope(active, envelopes, t, nodes);
      nextId := nextId + |nodes|;
      active := active[t := nodes];
      envelopes := envelopes[t := EnvelopeOf(t)];
    }
  }
}
