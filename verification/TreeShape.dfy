/** What holds of the construction for every normal-form layer, accepted or not. */
module TreeShape {
  import opened Options
  import opened Profiles
  import opened Automata
  import opened StateMachine

  /** The two ways to leave a state for a new one; fallbacks always lead home. */
  datatype Step = OnEvent(event: InputEvent) | OnTimer

  datatype Origin = Origin(source: nat, via: Step)

  function Target(states: seq<State>, i: nat, via: Step): Option<nat> {
    if i >= |states| then None
    else
      match via
      case OnEvent(e) => if e in states[i].edges then Some(states[i].edges[e].newState) else None
      case OnTimer => if states[i].timer.Some? then Some(states[i].timer.value.newState) else None
  }

  function Walk(states: seq<State>, i: nat, path: seq<Step>): Option<nat> {
    if path == [] then Some(i)
    else
      match Walk(states, i, path[..|path| - 1])
      case None => None
      case Some(j) => Target(states, j, path[|path| - 1])
  }

  /** `origin[j]` is the one edge or timer transition into state `j`, and it comes from a smaller index. */
  ghost predicate Tree(states: seq<State>, origin: seq<Origin>) {
    && InRange(states) && |origin| == |states|
    && (forall j :: 0 < j < |states| ==>
      origin[j].source < j && Target(states, origin[j].source, origin[j].via) == Some(j))
    && (forall i: nat, via ::
      Target(states, i, via).Some? && Target(states, i, via).value != HOME_STATE_IDX ==>
        Target(states, i, via).value < |states| && origin[Target(states, i, via).value] == Origin(i, via))
  }

  /** Nothing that is already there is lost or changed, except that a missing edge or timer transition may appear. */
  ghost predicate Extends(old_: Build, new_: Build) {
    && |old_.states| <= |new_.states| && |old_.states| == |old_.metadata| && |new_.states| == |new_.metadata|
    && old_.metadata <= new_.metadata
    && forall i :: 0 <= i < |old_.states| ==>
      && new_.states[i].fallback == old_.states[i].fallback
      && (old_.states[i].timer.Some? ==> new_.states[i].timer == old_.states[i].timer)
      && old_.states[i].edges.Keys <= new_.states[i].edges.Keys
      && forall e :: e in old_.states[i].edges ==> new_.states[i].edges[e] == old_.states[i].edges[e]
  }

  /** Only edges arm a timer, and the state they lead to then has a timer transition to fire. */
  ghost predicate TimersAnswered(states: seq<State>) {
    && InRange(states)
    && forall i :: 0 <= i < |states| ==>
      && states[i].fallback.timerMs.None?
      && (states[i].timer.Some? ==> states[i].timer.value.timerMs.None?)
      && forall e :: e in states[i].edges && states[i].edges[e].timerMs.Some? ==>
        states[states[i].edges[e].newState].timer.Some?
  }

  lemma AddTimerHome(b: Build, i: nat, t: Transition, origin: seq<Origin>)
    requires Tree(b.states, origin) && i < |b.states| && b.states[i].timer.None? && t.newState == HOME_STATE_IDX
    ensures Tree(SetTimer(b, i, t).states, origin)
  {
    var b' := SetTimer(b, i, t);
    forall j: nat, via
      ensures (j == i && via == OnTimer) || Target(b'.states, j, via) == Target(b.states, j, via)
    {}
  }

  lemma AddEdgeHome(b: Build, i: nat, e: InputEvent, t: Transition, origin: seq<Origin>)
    requires Tree(b.states, origin) && i < |b.states| && e !in b.states[i].edges && t.newState == HOME_STATE_IDX
    ensures Tree(SetEdge(b, i, e, t).states, origin)
  {
    var b' := SetEdge(b, i, e, t);
    forall j: nat, via
      ensures (j == i && via == OnEvent(e)) || Target(b'.states, j, via) == Target(b.states, j, via)
    {}
  }

  lemma AddTimerChild(b: Build, i: nat, t: Transition, child: State, m: StateMetadata, origin: seq<Origin>)
    requires Tree(b.states, origin) && i < |b.states| && b.states[i].timer.None? && t.newState == |b.states|
    requires child.edges == map[] && child.timer.None? && child.fallback.newState == HOME_STATE_IDX
    ensures Tree(SetTimer(Push(b, child, m), i, t).states, origin + [Origin(i, OnTimer)])
  {
    var b' := SetTimer(Push(b, child, m), i, t);
    forall j: nat, via
      ensures (j == i && via == OnTimer) || Target(b'.states, j, via) == Target(b.states, j, via)
    {}
  }

  lemma AddEdgeChild(b: Build, i: nat, e: InputEvent, t: Transition, child: State, m: StateMetadata, origin: seq<Origin>)
    requires Tree(b.states, origin) && i < |b.states| && e !in b.states[i].edges && t.newState == |b.states|
    requires child.edges == map[] && child.timer.None? && child.fallback.newState == HOME_STATE_IDX
    ensures Tree(SetEdge(Push(b, child, m), i, e, t).states, origin + [Origin(i, OnEvent(e))])
  {
    var b' := SetEdge(Push(b, child, m), i, e, t);
    forall j: nat, via
      ensures (j == i && via == OnEvent(e)) || Target(b'.states, j, via) == Target(b.states, j, via)
    {}
  }

  lemma AttachTimerTree(b: Build, s: Sequence, k: nat, next: nat, origin: seq<Origin>) returns (origin': seq<Origin>)
    requires ValidBuild(b) && k < |s.nodes| && next < |b.states| && Tree(b.states, origin)
    ensures Tree(AttachTimer(b, s, k, next).0.states, origin') && Extends(b, AttachTimer(b, s, k, next).0)
    ensures s.nodes[k].timer.Some? ==> AttachTimer(b, s, k, next).0.states[next].timer.Some?
  {
    origin' := origin;
    if b.states[next].timer.None? {
      match s.nodes[k].timer
      case None =>
      case Some(MaximumWait(_)) => AddTimerHome(b, next, b.states[next].fallback, origin);
      case Some(MinimumWait(_)) =>
        if k + 1 == |s.nodes| {
          AddTimerHome(b, next, CompleteTimer(s), origin);
        } else {
          AddTimerChild(b, next, Transition(None, [], |b.states|), State(map[], SILENT_FALLBACK, None),
                        StateMetadata(None, s.behavior), origin);
          origin' := origin + [Origin(next, OnTimer)];
        }
    }
  }

  /** One insertion step keeps the tree shape and overwrites nothing. */
  lemma InsertNodeTree(b: Build, s: Sequence, k: nat, cur: nat, origin: seq<Origin>) returns (origin': seq<Origin>)
    requires ValidBuild(b) && k < |s.nodes| && cur < |b.states| && Tree(b.states, origin)
    requires InsertNode(b, s, k, cur).Some?
    ensures Tree(InsertNode(b, s, k, cur).value.0.states, origin')
    ensures Extends(b, InsertNode(b, s, k, cur).value.0)
  {
    var node := s.nodes[k];
    if node.event in b.states[cur].edges {
      origin' := AttachTimerTree(b, s, k, b.states[cur].edges[node.event].newState, origin);
    } else if k + 1 == |s.nodes| && node.timer.None? {
      AddEdgeHome(b, cur, node.event, CompleteEdge(s, node.event), origin);
      origin' := origin;
    } else {
      var edge := Transition(Ms(node.timer), Released(s.behavior, node.event), |b.states|);
      AddEdgeChild(b, cur, node.event, edge, FreshState(s, k), StateMetadata(node.timer, s.behavior), origin);
      var b1 := SetEdge(Push(b, FreshState(s, k), StateMetadata(node.timer, s.behavior)), cur, node.event, edge);
      origin' := AttachTimerTree(b1, s, k, |b.states|, origin + [Origin(cur, OnEvent(node.event))]);
      assert Extends(b, b1);
    }
  }

  lemma ExtendsTransitive(a: Build, b: Build, c: Build)
    requires Extends(a, b) && Extends(b, c)
    ensures Extends(a, c)
  {
  }

  /** TimersAnswered, with the edges into `t` excused. */
  ghost predicate AnsweredExcept(states: seq<State>, t: nat) {
    && InRange(states)
    && forall i :: 0 <= i < |states| ==>
      && states[i].fallback.timerMs.None?
      && (states[i].timer.Some? ==> states[i].timer.value.timerMs.None?)
      && forall e :: e in states[i].edges && states[i].edges[e].timerMs.Some? && states[i].edges[e].newState != t ==>
        states[states[i].edges[e].newState].timer.Some?
  }

  lemma AttachTimerAnswered(b: Build, s: Sequence, k: nat, next: nat)
    requires ValidBuild(b) && k < |s.nodes| && next < |b.states|
    requires if s.nodes[k].timer.Some? then AnsweredExcept(b.states, next) else TimersAnswered(b.states)
    ensures TimersAnswered(AttachTimer(b, s, k, next).0.states)
  {
  }

  lemma InsertNodeAnswered(b: Build, s: Sequence, k: nat, cur: nat, b': Build, cur': nat)
    requires ValidBuild(b) && k < |s.nodes| && cur < |b.states| && TimersAnswered(b.states)
    requires InsertNode(b, s, k, cur) == Some((b', cur'))
    ensures TimersAnswered(b'.states)
  {
    var node, t := s.nodes[k], |b.states|;
    if node.event in b.states[cur].edges {
      AttachTimerAnswered(b, s, k, b.states[cur].edges[node.event].newState);
    } else if !(k + 1 == |s.nodes| && node.timer.None?) {
      var edge := Transition(Ms(node.timer), Released(s.behavior, node.event), t);
      var b1 := SetEdge(Push(b, FreshState(s, k), StateMetadata(node.timer, s.behavior)), cur, node.event, edge);
      assert AnsweredExcept(b1.states, t);
      AttachTimerAnswered(b1, s, k, t);
    }
  }

  /** A tree whose timers are answered, grown from `start` without loss. */
  ghost predicate Grown(start: Build, b: Build, origin: seq<Origin>) {
    Tree(b.states, origin) && TimersAnswered(b.states) && Extends(start, b)
  }

  lemma InsertNodeKeeps(start: Build, b: Build, s: Sequence, k: nat, cur: nat, origin: seq<Origin>, r: Option<(Build,
                        nat)>)
      returns (origin': seq<Origin>)
    requires ValidBuild(b) && k < |s.nodes| && cur < |b.states| && Grown(start, b, origin)
    requires r == InsertNode(b, s, k, cur) && r.Some?
    ensures Grown(start, r.value.0, origin')
  {
    InsertNodeAnswered(b, s, k, cur, r.value.0, r.value.1);
    origin' := InsertNodeTree(b, s, k, cur, origin);
    ExtendsTransitive(start, b, r.value.0);
  }

  lemma {:induction false} PrefixTree(b: Build, s: Sequence, k: nat, origin: seq<Origin>, r: Option<(Build, nat)>)
      returns (origin': seq<Origin>)
    requires ValidBuild(b) && k <= |s.nodes| && Tree(b.states, origin) && TimersAnswered(b.states)
    requires r == InsertPrefix(b, s, k) && r.Some?
    ensures Grown(b, r.value.0, origin')
    decreases k
  {
    if k == 0 {
      origin' := origin;
    } else {
      var r1 := InsertPrefix(b, s, k - 1);
      var origin1 := PrefixTree(b, s, k - 1, origin, r1);
      origin' := InsertNodeKeeps(b, r1.value.0, s, k - 1, r1.value.1, origin1, r);
    }
  }

  /** After any number of whole sequences and any number of nodes of the next one, the states form a tree
      and every armed timer is answered. */
  lemma {:induction false} ConstructionTree(seqs: seq<Sequence>, n: nat, k: nat) returns (origin: seq<Origin>)
    requires n < |seqs| && k <= |seqs[n].nodes| && CompilePrefix(seqs, n).Some?
    requires InsertPrefix(CompilePrefix(seqs, n).value, seqs[n], k).Some?
    ensures var (b, cur) := InsertPrefix(CompilePrefix(seqs, n).value, seqs[n], k).value;
      Tree(b.states, origin) && TimersAnswered(b.states) && |b.metadata| == |b.states| && cur < |b.states|
  {
    var b := CompilePrefix(seqs, n).value;
    var origin0 := CompiledTree(seqs, n);
    origin := PrefixTree(b, seqs[n], k, origin0, InsertPrefix(b, seqs[n], k));
  }

  lemma {:induction false} CompiledTree(seqs: seq<Sequence>, n: nat) returns (origin: seq<Origin>)
    requires n <= |seqs| && CompilePrefix(seqs, n).Some?
    ensures Tree(CompilePrefix(seqs, n).value.states, origin)
    ensures TimersAnswered(CompilePrefix(seqs, n).value.states)
    decreases n
  {
    if n == 0 {
      origin := [Origin(0, OnTimer)];
    } else {
      var b := CompilePrefix(seqs, n - 1).value;
      CompileNext(seqs, n - 1, b);
      var origin0 := CompiledTree(seqs, n - 1);
      origin := PrefixTree(b, seqs[n - 1], |seqs[n - 1].nodes|, origin0, InsertPrefix(b, seqs[n - 1], |seqs[n - 1].nodes|));
    }
  }

  /** Later sequences never overwrite what earlier ones built. */
  lemma {:induction false} CompilationExtends(seqs: seq<Sequence>, n: nat, n': nat)
    requires n <= n' <= |seqs| && CompilePrefix(seqs, n').Some?
    ensures CompilePrefix(seqs, n).Some? && Extends(CompilePrefix(seqs, n).value, CompilePrefix(seqs, n').value)
    decreases n'
  {
    if n < n' {
      CompilationExtends(seqs, n, n' - 1);
      var b := CompilePrefix(seqs, n' - 1).value;
      CompileNext(seqs, n' - 1, b);
      var r := InsertPrefix(b, seqs[n' - 1], |seqs[n' - 1].nodes|);
      var origin := CompiledTree(seqs, n' - 1);
      var _ := PrefixTree(b, seqs[n' - 1], |seqs[n' - 1].nodes|, origin, r);
      ExtendsTransitive(CompilePrefix(seqs, n).value, b, r.value.0);
    }
  }

  /** Every state of a tree is reached from HOME over edges and timer transitions. */
  lemma {:induction false} Reachable(states: seq<State>, origin: seq<Origin>, j: nat) returns (path: seq<Step>)
    requires Tree(states, origin) && j < |states|
    ensures Walk(states, HOME_STATE_IDX, path) == Some(j)
    decreases j
  {
    path := [];
    if j > 0 {
      var prefix := Reachable(states, origin, origin[j].source);
      path := prefix + [origin[j].via];
      assert path[..|path| - 1] == prefix;
    }
  }
}
