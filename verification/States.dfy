/** Pipeline states, the declared transition graph, and what it makes reachable. */
module States {
  datatype State =
    | Submitted | Compiling | Judging | Analyzing | Authoring | Validating
    | Stressing | Shrinking | Explaining | Done | Failed | Degraded

  predicate Terminal(s: State) { s.Done? || s.Failed? || s.Degraded? }

  /** The declared edges; Failed and Degraded can follow any state that is not terminal. */
  function Transitions(s: State): set<State> {
    match s
    case Submitted => {Compiling}
    case Compiling => {Judging, Done}
    case Judging => {Analyzing, Done}
    case Analyzing => {Authoring}
    case Authoring => {Validating}
    case Validating => {Stressing, Authoring}
    case Stressing => {Shrinking, Done}
    case Shrinking => {Explaining}
    case Explaining => {Done}
    case _ => {}
  }

  predicate CanTransition(source: State, target: State) {
    if target.Failed? || target.Degraded? then !Terminal(source) else target in Transitions(source)
  }

  /** The declared edges one by one, and the implicit ones out of every state that is not final. */
  lemma DeclaredEdges(source: State, target: State)
    ensures CanTransition(source, target) <==>
              || (source, target) in {(Submitted, Compiling), (Compiling, Judging), (Compiling, Done), (Judging, Analyzing),
                                      (Judging, Done), (Analyzing, Authoring), (Authoring, Validating), (Validating, Stressing),
                                      (Validating, Authoring), (Stressing, Shrinking), (Stressing, Done), (Shrinking, Explaining),
                                      (Explaining, Done)}
              || (target in {Failed, Degraded} && source !in {Done, Failed, Degraded})
  {}

  /** A walk of at least one declared step. */
  ghost predicate Walk(walk: seq<State>) {
    |walk| >= 2 && forall i :: 0 <= i < |walk| - 1 ==> CanTransition(walk[i], walk[i + 1])
  }

  /** The transitive closure of the declared graph. */
  ghost predicate Reaches(source: State, target: State) {
    exists walk :: Walk(walk) && walk[0] == source && walk[|walk| - 1] == target
  }

  function Depth(s: State): nat {
    match s
    case Submitted => 0
    case Compiling => 1
    case Judging => 2
    case Analyzing => 3
    case Authoring => 4
    case Validating => 5
    case Stressing => 6
    case Shrinking => 7
    case Explaining => 8
    case _ => 9
  }

  /** Later in the pipeline, or around the repair cycle. */
  predicate Follows(source: State, target: State) {
    Depth(source) < Depth(target) || (4 <= Depth(source) <= 5 && 4 <= Depth(target) <= 5)
  }

  lemma {:induction false} WalkFollows(walk: seq<State>)
    requires Walk(walk)
    ensures Follows(walk[0], walk[|walk| - 1])
  {
    if |walk| > 2 {
      var init := walk[..|walk| - 1];
      assert forall i :: 0 <= i < |init| - 1 ==> CanTransition(walk[i], walk[i + 1]);
      WalkFollows(init);
      assert CanTransition(walk[|walk| - 2], walk[|walk| - 1]);
    }
  }

  lemma ReachesByEdge(source: State, target: State)
    requires CanTransition(source, target)
    ensures Reaches(source, target)
  {
    assert Walk([source, target]);
  }

  lemma ReachesTransitive(a: State, b: State, c: State)
    requires Reaches(a, b) && Reaches(b, c)
    ensures Reaches(a, c)
  {
    var v :| Walk(v) && v[0] == a && v[|v| - 1] == b;
    var w :| Walk(w) && w[0] == b && w[|w| - 1] == c;
    var joined := v + w[1..];
    forall i | 0 <= i < |joined| - 1 ensures CanTransition(joined[i], joined[i + 1]) {
      if i >= |v| - 1 { assert CanTransition(w[i - |v| + 1], w[i - |v| + 2]); }
    }
    assert Walk(joined);
  }

  /** The state after this one on the way through the whole pipeline. */
  function Onward(s: State): State
    requires !Terminal(s)
  {
    match s
    case Submitted => Compiling
    case Compiling => Judging
    case Judging => Analyzing
    case Analyzing => Authoring
    case Authoring => Validating
    case Validating => Stressing
    case Stressing => Shrinking
    case Shrinking => Explaining
    case Explaining => Done
  }

  lemma {:induction false} FollowsReaches(source: State, target: State)
    requires Follows(source, target)
    ensures Reaches(source, target)
    decreases 9 - Depth(source)
  {
    if source == Validating && Depth(target) <= 5 {
      ReachesByEdge(Validating, Authoring);
      if target == Validating {
        ReachesByEdge(Authoring, Validating);
        ReachesTransitive(Validating, Authoring, Validating);
      }
    } else if CanTransition(source, target) {
      ReachesByEdge(source, target);
    } else {
      ReachesByEdge(source, Onward(source));
      FollowsReaches(Onward(source), target);
      ReachesTransitive(source, Onward(source), target);
    }
  }

  /** Exactly what the declared graph reaches: anything deeper, and the repair cycle; nothing after a terminal state. */
  lemma ReachesIffFollows(source: State, target: State)
    ensures Reaches(source, target) <==> Follows(source, target)
  {
    if Reaches(source, target) {
      var walk :| Walk(walk) && walk[0] == source && walk[|walk| - 1] == target;
      WalkFollows(walk);
    }
    if Follows(source, target) { FollowsReaches(source, target); }
  }
}
