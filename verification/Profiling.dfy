/** Compiling a whole profile. */
module Profiling {
  import opened Options
  import opened Profiles
  import opened Automata
  import StateMachine
  import SwapTargets
  import TreeShape
  import opened Trie
  import opened Acceptance
  import opened Structure
  import opened Outputs
  import opened MapperModel
  import opened Replaying

  predicate NormalProfile(p: Profile) {
    forall i {:trigger NormalLayer(p.layers[i])} :: 0 <= i < |p.layers| ==> NormalLayer(p.layers[i])
  }

  /** Every layer a profile names exists. */
  predicate LayersInRange(p: Profile) {
    && p.defaultLayer < |p.layers|
    && forall i {:trigger LayerSwapsBelow(p.layers[i], |p.layers|)} ::
      0 <= i < |p.layers| ==> LayerSwapsBelow(p.layers[i], |p.layers|)
  }

  predicate LayerSwapsBelow(layer: Layer, layers: nat) {
    && (forall j :: 0 <= j < |layer.basicRemappings| ==> SwapsBelow(layer.basicRemappings[j].binds, layers))
    && (forall j :: 0 <= j < |layer.sequenceRemappings| ==> SwapsBelow(layer.sequenceRemappings[j].binds, layers))
  }

  predicate WellFormed(p: Profile) {
    NormalProfile(p) && LayersInRange(p)
  }

  /** The map of the first `n` basic remappings; None when a trigger comes twice. */
  function BasicMap(remappings: seq<BasicRemapping>, n: nat): Option<map<InputEvent, seq<Bind>>>
    requires n <= |remappings|
  {
    if n == 0 then Some(map[])
    else
      match BasicMap(remappings, n - 1)
      case None => None
      case Some(basics) =>
        var event := BasicTriggerToInput(remappings[n - 1].trigger);
        if event in basics then None else Some(basics[event := remappings[n - 1].binds])
  }

  function CompileLayer(layer: Layer): Option<(seq<State>, map<InputEvent, seq<Bind>>)>
    requires NormalLayer(layer)
  {
    match BasicMap(layer.basicRemappings, |layer.basicRemappings|)
    case None => None
    case Some(basics) =>
      match StateMachine.Compile(ParseLayer(layer))
      case None => None
      case Some(states) => Some((states, basics))
  }

  /** The first `n` layers, compiled. */
  function CompileLayers(layers: seq<Layer>, n: nat): (r: Option<Compiled>)
    requires n <= |layers| && forall i :: 0 <= i < n ==> NormalLayer(layers[i])
    ensures r.Some? <==> forall i {:trigger CompileLayer(layers[i])} :: 0 <= i < n ==> CompileLayer(layers[i]).Some?
    ensures r.Some? ==> |r.value.states| == |r.value.basics| == n
    ensures r.Some? ==> forall i {:trigger CompileLayer(layers[i])} :: 0 <= i < n ==>
      CompileLayer(layers[i]) == Some((r.value.states[i], r.value.basics[i]))
  {
    if n == 0 then Some(Compiled([], []))
    else
      match CompileLayers(layers, n - 1)
      case None => None
      case Some(cp) =>
        match CompileLayer(layers[n - 1])
        case None => None
        case Some((states, basics)) => Some(Compiled(cp.states + [states], cp.basics + [basics]))
  }

  lemma LayerFails(layers: seq<Layer>, n: nat, i: nat)
    requires i < n <= |layers| && (forall i :: 0 <= i < n ==> NormalLayer(layers[i])) && CompileLayer(layers[i]).None?
    ensures CompileLayers(layers, n).None?
  {
  }

  lemma CompileLayersNext(layers: seq<Layer>, n: nat, cp: Compiled)
    requires n < |layers| && (forall i :: 0 <= i < |layers| ==> NormalLayer(layers[i])) && CompileLayers(layers, n) == Some(cp)
    ensures CompileLayers(layers, n + 1) ==
      match CompileLayer(layers[n])
      case None => None
      case Some((states, basics)) => Some(Compiled(cp.states + [states], cp.basics + [basics]))
  {
  }

  function CompileProfile(p: Profile): Option<Compiled>
    requires NormalProfile(p)
  {
    CompileLayers(p.layers, |p.layers|)
  }

  /** Some basic trigger of the layer is used twice. */
  predicate RepeatsTrigger(layer: Layer) {
    exists i, j :: 0 <= i < j < |layer.basicRemappings| &&
      BasicTriggerToInput(layer.basicRemappings[i].trigger) == BasicTriggerToInput(layer.basicRemappings[j].trigger)
  }

  /** A basic map holds each remapping under its own trigger, and is refused exactly when a trigger comes twice. */
  lemma {:induction false} BasicMapExact(remappings: seq<BasicRemapping>, n: nat)
    requires n <= |remappings|
    ensures BasicMap(remappings, n).None? <==>
      exists i, j :: 0 <= i < j < n &&
        BasicTriggerToInput(remappings[i].trigger) == BasicTriggerToInput(remappings[j].trigger)
    ensures BasicMap(remappings, n).Some? ==>
      && (forall i :: 0 <= i < n ==>
        var event := BasicTriggerToInput(remappings[i].trigger);
        event in BasicMap(remappings, n).value && BasicMap(remappings, n).value[event] == remappings[i].binds)
      && (forall event :: event in BasicMap(remappings, n).value ==>
        exists i :: 0 <= i < n && event == BasicTriggerToInput(remappings[i].trigger))
  {
    if n > 0 {
      BasicMapExact(remappings, n - 1);
      var event := BasicTriggerToInput(remappings[n - 1].trigger);
      if BasicMap(remappings, n - 1).Some? && event in BasicMap(remappings, n - 1).value {
        var i :| 0 <= i < n - 1 && event == BasicTriggerToInput(remappings[i].trigger);
        assert 0 <= i < n - 1 < n;
      }
    }
  }

  /** Some layer repeats a basic trigger or has sequences that do not compile. */
  predicate Uncompilable(p: Profile)
    requires NormalProfile(p)
  {
    exists i :: 0 <= i < |p.layers| &&
      (RepeatsTrigger(p.layers[i]) || StateMachine.Compile(ParseLayer(p.layers[i])).None?)
  }

  lemma ProfileRejected(p: Profile)
    requires NormalProfile(p)
    ensures CompileProfile(p).None? <==> Uncompilable(p)
  {
    forall i | 0 <= i < |p.layers|
      ensures CompileLayer(p.layers[i]).None? <==>
        RepeatsTrigger(p.layers[i]) || StateMachine.Compile(ParseLayer(p.layers[i])).None?
    {
      BasicMapExact(p.layers[i].basicRemappings, |p.layers[i].basicRemappings|);
    }
  }

  /** Sequences in every layer are compatible, so replaying held-back events is sure to end. */
  predicate Sound(p: Profile) {
    WellFormed(p) && forall i :: 0 <= i < |p.layers| ==> CompatibleAll(ParseLayer(p.layers[i]))
  }

  /** A profile that may be installed: if it compiles, its automata can be run. */
  ghost predicate Admissible(p: Profile) {
    WellFormed(p) && (CompileProfile(p).Some? ==> Runnable(CompileProfile(p).value))
  }

  lemma BasicsBelow(p: Profile, i: nat, event: InputEvent)
    requires WellFormed(p) && CompileProfile(p).Some? && i < |p.layers| && event in CompileProfile(p).value.basics[i]
    ensures SwapsBelow(CompileProfile(p).value.basics[i][event], |p.layers|)
  {
    var remappings := p.layers[i].basicRemappings;
    BasicMapExact(remappings, |remappings|);
    assert CompileLayer(p.layers[i]).Some? && LayerSwapsBelow(p.layers[i], |p.layers|);
    var j :| 0 <= j < |remappings| && event == BasicTriggerToInput(remappings[j].trigger);
  }

  lemma LayerCompiled(p: Profile, cp: Compiled, i: nat)
    requires WellFormed(p) && CompileProfile(p) == Some(cp) && i < |p.layers|
    ensures i < |cp.states| == |p.layers| && LayerFits(cp, i)
  {
    assert CompileLayer(p.layers[i]) == Some((cp.states[i], cp.basics[i])) && LayerSwapsBelow(p.layers[i], |p.layers|);
    var seqs := ParseLayer(p.layers[i]);
    SwapTargets.CompileBelow(seqs, |seqs|, |p.layers|);
    var _ := TreeShape.CompiledTree(seqs, |seqs|);
  }

  /** Whatever profile is accepted, no lookup in its automata and maps can fail. */
  lemma CompiledFits(p: Profile, cp: Compiled)
    requires WellFormed(p) && CompileProfile(p) == Some(cp)
    ensures Fits(cp) && |cp.states| == |p.layers|
  {
    forall i: nat | i < |cp.states|
      ensures LayerFits(cp, i)
    {
      LayerCompiled(p, cp, i);
    }
    forall i: nat | i < |cp.basics|
      ensures BasicsRun(cp, i)
    {
      forall e | e in cp.basics[i]
        ensures SwapsBelow(cp.basics[i][e], |cp.states|)
      {
        BasicsBelow(p, i, e);
      }
    }
  }

  lemma LayerReplayable(layer: Layer)
    requires NormalLayer(layer) && CompileLayer(layer).Some? && CompatibleAll(ParseLayer(layer))
    ensures Replayable(CompileLayer(layer).value.0)
  {
    var seqs := ParseLayer(layer);
    var b, l := CompileFinished(seqs);
    FinishedReplayable(b, l, seqs);
  }

  /** Profiles whose layers are compatible can be run. */
  lemma SoundAdmissible(p: Profile)
    requires Sound(p)
    ensures Admissible(p)
  {
    if CompileProfile(p).Some? {
      var cp := CompileProfile(p).value;
      CompiledFits(p, cp);
      forall i: nat | i < |cp.states|
        ensures LayerRuns(cp, i)
      {
        assert LayerFits(cp, i) && CompileLayer(p.layers[i]) == Some((cp.states[i], cp.basics[i]));
        LayerReplayable(p.layers[i]);
      }
    }
  }
}
