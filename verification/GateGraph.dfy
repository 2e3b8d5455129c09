/**
 The static half of the convergence gate: which stages a profile can enter, whether a set of stages
 carries a cycle, and whether every loop the profile can enter is one that convergence can score
 (`_reachable_stages`, `_has_cycle` and `_gate_reachable` in orchestrator/controller.py).
 */
module GateGraph {
  import opened Prelude
  import opened Profiles

  ghost predicate Path(p: Profile, s: seq<Name>) {
    s != [] && forall i :: 0 <= i < |s| - 1 ==> s[i + 1] in Targets(p, s[i])
  }

  ghost predicate Within(s: seq<Name>, nodes: set<Name>) {
    forall i :: 0 <= i < |s| ==> s[i] in nodes
  }

  /** A closed walk: it returns to its first stage after at least one step. */
  ghost predicate Cycle(p: Profile, s: seq<Name>) {
    |s| >= 2 && Path(p, s) && s[0] == Last(s)
  }

  ghost predicate CycleIn(p: Profile, nodes: set<Name>, s: seq<Name>) {
    Cycle(p, s) && Within(s, nodes)
  }

  ghost predicate HasCycleIn(p: Profile, nodes: set<Name>) {
    exists s :: CycleIn(p, nodes, s)
  }

  ghost predicate Walk(p: Profile, s: seq<Name>, name: Name) {
    Path(p, s) && s[0] == p.initial && Last(s) == name
  }

  ghost predicate Reachable(p: Profile, name: Name) {
    exists s :: Walk(p, s, name)
  }

  ghost predicate Visits(p: Profile, s: seq<Name>, arity: Arity) {
    exists i :: 0 <= i < |s| && StageArity(p, s[i]) == arity
  }

  /** The claim the caps are lifted on: every loop that can be entered reviews and repairs. */
  ghost predicate EveryLoopScored(p: Profile) {
    forall s :: Cycle(p, s) && Reachable(p, s[0]) ==> Visits(p, s, Branching) && Visits(p, s, Correction)
  }

  // ---------------------------------------------------------------- reachable stages

  lemma ReachStep(p: Profile, a: Name, b: Name)
    requires Reachable(p, a) && b in Targets(p, a)
    ensures Reachable(p, b)
  {
    var s :| Walk(p, s, a);
    assert Walk(p, s + [b], b);
  }

  lemma EntersOnlyReachable(p: Profile, name: Name)
    requires WellFormed(p) && name in p.stages && Reachable(p, name)
    ensures forall b :: b in Targets(p, name) ==> b in p.stages && Reachable(p, b)
  {
    forall b | b in Targets(p, name) ensures b in p.stages && Reachable(p, b) {
      assert WellFormedStage(p, name);
      ReachStep(p, name, b);
    }
  }

  /** Any set that holds the initial stage and is closed under edges holds every reachable stage. */
  lemma {:induction false} ClosedHoldsWalk(p: Profile, closed: set<Name>, s: seq<Name>, k: nat)
    requires Path(p, s) && s[0] == p.initial && k < |s|
    requires p.initial in closed
    requires forall a, b :: a in closed && b in Targets(p, a) ==> b in closed
    ensures s[k] in closed
  {
    if k > 0 {
      ClosedHoldsWalk(p, closed, s, k - 1);
    }
  }

  /** The successors of a seen stage are seen or still waiting. */
  ghost predicate Covered(p: Profile, seen: set<Name>, frontier: seq<Name>, a: Name) {
    forall b :: b in Targets(p, a) ==> b in seen || b in frontier
  }

  ghost predicate Exploring(p: Profile, seen: set<Name>, frontier: seq<Name>) {
    && seen <= p.stages.Keys
    && (forall a :: a in seen ==> Covered(p, seen, frontier, a))
    && (forall a :: a in seen || a in frontier ==> a in p.stages && Reachable(p, a))
    && (p.initial in seen || p.initial in frontier)
  }

  lemma Enter(p: Profile, seen: set<Name>, frontier: seq<Name>)
    requires WellFormed(p) && Exploring(p, seen, frontier) && frontier != [] && Last(frontier) !in seen
    ensures Exploring(p, seen + {Last(frontier)}, Front(frontier) + Targets(p, Last(frontier)))
    ensures |p.stages.Keys - (seen + {Last(frontier)})| < |p.stages.Keys - seen|
  {
    hide Targets, Reachable;
    var name := Last(frontier);
    var seen', frontier' := seen + {name}, Front(frontier) + Targets(p, name);
    assert frontier == Front(frontier) + [name];
    EntersOnlyReachable(p, name);
    assert p.stages.Keys - seen == p.stages.Keys - seen' + {name};
    forall a | a in seen' ensures Covered(p, seen', frontier', a) {
      assert a in seen ==> Covered(p, seen, frontier, a);
    }
  }

  lemma Revisit(p: Profile, seen: set<Name>, frontier: seq<Name>)
    requires Exploring(p, seen, frontier) && frontier != [] && Last(frontier) in seen
    ensures Exploring(p, seen, Front(frontier))
  {
    hide Targets, Reachable;
    assert frontier == Front(frontier) + [Last(frontier)];
    forall a | a in seen ensures Covered(p, seen, Front(frontier), a) {
      assert Covered(p, seen, frontier, a);
    }
  }

  /** The frontier worklist computes exactly the stages some walk from the initial stage ends in. */
  method ReachableStages(p: Profile) returns (seen: set<Name>)
    requires WellFormed(p)
    ensures forall name :: name in seen <==> Reachable(p, name)
  {
    seen := {};
    var frontier := [p.initial];
    assert Walk(p, [p.initial], p.initial);
    while frontier != []
      invariant Exploring(p, seen, frontier)
      decreases |p.stages.Keys - seen|, |frontier|
    {
      var name := Last(frontier);
      if name in seen {
        Revisit(p, seen, frontier);
        frontier := Front(frontier);
      } else {
        Enter(p, seen, frontier);
        seen := seen + {name};
        frontier := Front(frontier) + Targets(p, name);
      }
    }
    ClosedHoldsAll(p, seen);
  }

  lemma ClosedHoldsAll(p: Profile, seen: set<Name>)
    requires Exploring(p, seen, [])
    ensures forall name :: name in seen <==> Reachable(p, name)
  {
    forall a, b | a in seen && b in Targets(p, a) ensures b in seen {
      assert Covered(p, seen, [], a);
    }
    forall name | Reachable(p, name) ensures name in seen {
      var s :| Walk(p, s, name);
      ClosedHoldsWalk(p, seen, s, |s| - 1);
    }
  }

  // ---------------------------------------------------------------- three-colour search

  datatype Colour = White | Grey | Black

  /** One stack entry: a stage being explored and its successors still to be tried. */
  datatype Frame = Frame(name: Name, pending: seq<Name>)

  function Successors(p: Profile, name: Name, nodes: set<Name>): (next: seq<Name>)
    ensures forall t :: t in next <==> t in Targets(p, name) && t in nodes
  {
    Keep(Targets(p, name), nodes)
  }

  function Keep(s: seq<Name>, nodes: set<Name>): (kept: seq<Name>)
    ensures forall t :: t in kept <==> t in s && t in nodes
  {
    if s == [] then [] else
    var rest := Keep(s[1..], nodes);
    assert s == [s[0]] + s[1..];
    if s[0] in nodes then [s[0]] + rest else rest
  }

  /** The grey stages, bottom of the stack first. */
  function Names(stack: seq<Frame>): (names: seq<Name>)
    ensures |names| == |stack|
    ensures forall i :: 0 <= i < |stack| ==> names[i] == stack[i].name
  {
    seq(|stack|, i requires 0 <= i < |stack| => stack[i].name)
  }

  ghost predicate Settled(p: Profile, nodes: set<Name>, done: seq<Name>, i: nat)
    requires i < |done|
  {
    forall t :: t in Successors(p, done[i], nodes) ==> t in done[..i]
  }

  /** Every finished stage has all its successors finished strictly before it. */
  ghost predicate Finished(p: Profile, nodes: set<Name>, done: seq<Name>) {
    forall i: nat :: i < |done| ==> Settled(p, nodes, done, i)
  }

  ghost predicate Coloured(nodes: set<Name>, colour: map<Name, Colour>, grey: seq<Name>, done: seq<Name>) {
    && colour.Keys == nodes
    && (forall n :: n in nodes ==> (colour[n] == Black <==> n in done))
    && (forall n :: n in nodes ==> (colour[n] == Grey <==> n in grey))
    && (forall n :: n in grey ==> n in nodes)
    && Distinct(grey)
  }

  /** What is known of one frame: each successor is untried, finished, or the next frame. */
  ghost predicate Explored(p: Profile, nodes: set<Name>, stack: seq<Frame>, done: seq<Name>, i: nat)
    requires i < |stack|
  {
    && (forall t :: t in stack[i].pending ==> t in Successors(p, stack[i].name, nodes))
    && (forall t :: t in Successors(p, stack[i].name, nodes) ==>
          t in stack[i].pending || t in done || (i + 1 < |stack| && t == stack[i + 1].name))
    && (i + 1 < |stack| ==> stack[i + 1].name in Successors(p, stack[i].name, nodes))
  }

  ghost predicate Searching(p: Profile, nodes: set<Name>, stack: seq<Frame>, done: seq<Name>) {
    forall i: nat :: i < |stack| ==> Explored(p, nodes, stack, done, i)
  }

  function Remaining(stack: seq<Frame>): (steps: nat) {
    if stack == [] then 0 else |Last(stack).pending| + 1 + Remaining(Front(stack))
  }

  function Whites(colour: map<Name, Colour>): (whites: set<Name>) {
    set n | n in colour && colour[n] == White
  }

  /** A grey successor of the top frame closes a cycle through the stack. */
  lemma GreyClosesCycle(p: Profile, nodes: set<Name>, stack: seq<Frame>, done: seq<Name>, target: Name)
    requires Searching(p, nodes, stack, done) && (forall n :: n in Names(stack) ==> n in nodes)
    requires stack != [] && target in Successors(p, Last(stack).name, nodes) && target in Names(stack)
    ensures HasCycleIn(p, nodes)
  {
    hide Successors, Targets;
    var grey := Names(stack);
    var k :| 0 <= k < |grey| && grey[k] == target;
    var s := grey[k..] + [target];
    forall i | 0 <= i < |s| - 1 ensures s[i + 1] in Targets(p, s[i]) {
      assert Explored(p, nodes, stack, done, k + i);
    }
    assert CycleIn(p, nodes, s);
  }

  function FirstIndex(s: seq<Name>, x: Name): (k: nat)
    requires x in s
    ensures k < |s| && s[k] == x && x !in s[..k]
  {
    if s[0] == x then 0 else
    var k := 1 + FirstIndex(s[1..], x);
    assert s[..k] == [s[0]] + s[1..][..k - 1];
    k
  }

  /** Along a path inside the node set the finishing position goes down by at least one per step. */
  lemma {:induction false} FinishDescends(p: Profile, nodes: set<Name>, done: seq<Name>, s: seq<Name>, k: nat)
    requires Finished(p, nodes, done) && (forall n :: n in nodes ==> n in done)
    requires Path(p, s) && Within(s, nodes) && k < |s|
    ensures FirstIndex(done, s[k]) + k <= FirstIndex(done, s[0])
  {
    if k > 0 {
      FinishDescends(p, nodes, done, s, k - 1);
      var at := FirstIndex(done, s[k - 1]);
      assert s[k - 1 + 1] in Targets(p, s[k - 1]);
      assert Settled(p, nodes, done, at);
      assert s[k] in done[..at];
    }
  }

  lemma FinishedIsAcyclic(p: Profile, nodes: set<Name>, done: seq<Name>)
    requires Finished(p, nodes, done) && (forall n :: n in nodes ==> n in done)
    ensures !HasCycleIn(p, nodes)
  {
    forall s | CycleIn(p, nodes, s) ensures false {
      FinishDescends(p, nodes, done, s, |s| - 1);
    }
  }

  /** The iterative depth-first search reports a cycle exactly when the induced subgraph has one. */
  method HasCycle(p: Profile, nodes: set<Name>) returns (found: bool)
    ensures found <==> HasCycleIn(p, nodes)
  {
    var colour := map n | n in nodes :: White;
    ghost var done: seq<Name> := [];
    var todo := nodes;
    while todo != {}
      invariant todo <= nodes
      invariant Coloured(nodes, colour, [], done) && Finished(p, nodes, done)
      invariant forall n :: n in nodes && n !in todo ==> n in done
    {
      var root :| root in todo;
      todo := todo - {root};
      if colour[root] == White {
        found, colour, done := ExploreFrom(p, nodes, root, colour, done);
        if found {
          return;
        }
      }
    }
    FinishedIsAcyclic(p, nodes, done);
    return false;
  }

  /** The inner loop of the search: everything reachable from one white root. */
  method ExploreFrom(p: Profile, nodes: set<Name>, root: Name, before: map<Name, Colour>, ghost done0: seq<Name>)
    returns (found: bool, colour: map<Name, Colour>, ghost done: seq<Name>)
    requires Coloured(nodes, before, [], done0) && Finished(p, nodes, done0)
    requires root in nodes && before[root] == White
    ensures found ==> HasCycleIn(p, nodes)
    ensures !found ==> Coloured(nodes, colour, [], done) && Finished(p, nodes, done)
    ensures !found ==> root in done && (forall n :: n in done0 ==> n in done)
  {
    done := done0;
    colour := before[root := Grey];
    var stack := [Frame(root, Successors(p, root, nodes))];
    assert Names(stack) == [root];
    while stack != []
      invariant Coloured(nodes, colour, Names(stack), done) && Finished(p, nodes, done)
      invariant Searching(p, nodes, stack, done)
      invariant root in done || root in Names(stack)
      invariant forall n :: n in done0 ==> n in done
      decreases |Whites(colour)|, Remaining(stack)
    {
      var top := Last(stack);
      if top.pending == [] {
        Retire(p, nodes, colour, stack, done);
        colour := colour[top.name := Black];
        done := done + [top.name];
        stack := Front(stack);
      } else {
        var target := Last(top.pending);
        assert Explored(p, nodes, stack, done, |stack| - 1);
        if colour[target] == Grey {
          GreyClosesCycle(p, nodes, stack, done, target);
          return true, colour, done;
        }
        var shorter := Front(stack) + [Frame(top.name, Front(top.pending))];
        if colour[target] == White {
          Discover(p, nodes, colour, stack, done, shorter);
          colour := colour[target := Grey];
          stack := shorter + [Frame(target, Successors(p, target, nodes))];
        } else {
          Skip(p, nodes, stack, done, shorter);
          stack := shorter;
        }
      }
    }
    found := false;
  }

  /** Popping an exhausted frame: its stage is finished after all its successors. */
  lemma Retire(p: Profile, nodes: set<Name>, colour: map<Name, Colour>, stack: seq<Frame>, done: seq<Name>)
    requires Coloured(nodes, colour, Names(stack), done) && Finished(p, nodes, done)
    requires Searching(p, nodes, stack, done) && stack != [] && Last(stack).pending == []
    ensures var name := Last(stack).name;
            && Coloured(nodes, colour[name := Black], Names(Front(stack)), done + [name])
            && Finished(p, nodes, done + [name])
            && Searching(p, nodes, Front(stack), done + [name])
            && Whites(colour[name := Black]) == Whites(colour)
            && Names(stack) == Names(Front(stack)) + [name]
  {
    hide Successors, Targets;
    var name := Last(stack).name;
    var done' := done + [name];
    assert Names(stack) == Names(Front(stack)) + [name];
    assert name in Names(stack);
    assert Explored(p, nodes, stack, done, |stack| - 1);
    forall i: nat | i < |done'| ensures Settled(p, nodes, done', i) {
      if i < |done| {
        assert Settled(p, nodes, done, i);
        assert done'[..i] == done[..i];
      } else {
        assert done'[..i] == done;
      }
    }
    forall i: nat | i < |Front(stack)| ensures Explored(p, nodes, Front(stack), done', i) {
      assert Explored(p, nodes, stack, done, i);
    }
  }

  /** Dropping a successor that is already finished. */
  lemma Skip(p: Profile, nodes: set<Name>, stack: seq<Frame>, done: seq<Name>, shorter: seq<Frame>)
    requires Searching(p, nodes, stack, done)
    requires stack != [] && Last(stack).pending != [] && Last(Last(stack).pending) in done
    requires shorter == Front(stack) + [Frame(Last(stack).name, Front(Last(stack).pending))]
    ensures Searching(p, nodes, shorter, done) && Names(shorter) == Names(stack)
    ensures Remaining(shorter) < Remaining(stack)
  {
    hide Successors, Targets;
    var top := Last(stack);
    assert top.pending == Front(top.pending) + [Last(top.pending)];
    assert Front(shorter) == Front(stack);
    forall i: nat | i < |shorter| ensures Explored(p, nodes, shorter, done, i) {
      assert Explored(p, nodes, stack, done, i);
    }
  }

  /** Pushing a white successor: it becomes grey and extends the grey path. */
  lemma Discover(p: Profile, nodes: set<Name>, colour: map<Name, Colour>, stack: seq<Frame>, done: seq<Name>,
                 shorter: seq<Frame>)
    requires Coloured(nodes, colour, Names(stack), done) && Searching(p, nodes, stack, done)
    requires stack != [] && Last(stack).pending != []
    requires var target := Last(Last(stack).pending); target in nodes && colour[target] == White
    requires shorter == Front(stack) + [Frame(Last(stack).name, Front(Last(stack).pending))]
    ensures var target := Last(Last(stack).pending);
            var pushed := shorter + [Frame(target, Successors(p, target, nodes))];
            && Coloured(nodes, colour[target := Grey], Names(pushed), done)
            && Searching(p, nodes, pushed, done)
            && Names(pushed) == Names(stack) + [target]
            && |Whites(colour[target := Grey])| < |Whites(colour)|
  {
    hide Successors, Targets;
    var top := Last(stack);
    var target := Last(top.pending);
    var pushed := shorter + [Frame(target, Successors(p, target, nodes))];
    assert top.pending == Front(top.pending) + [target];
    assert Names(pushed) == Names(stack) + [target];
    forall i: nat | i < |pushed| ensures Explored(p, nodes, pushed, done, i) {
      if i < |stack| {
        assert Explored(p, nodes, stack, done, i);
      }
    }
    assert target in Whites(colour);
    assert Whites(colour[target := Grey]) == Whites(colour) - {target};
  }

  // ---------------------------------------------------------------- the gate

  /** `_gate_reachable`: two acyclicity checks over the reachable stages decide EveryLoopScored. */
  method GateReachable(p: Profile) returns (gate: bool)
    requires WellFormed(p)
    ensures gate <==> EveryLoopScored(p)
  {
    var reachable := ReachableStages(p);
    var withoutCorrection := set n | n in reachable && StageArity(p, n) != Correction;
    var withoutBranching := set n | n in reachable && StageArity(p, n) != Branching;
    LoopsScoredByRemoval(p, reachable, withoutCorrection, withoutBranching);
    var unrepaired := HasCycle(p, withoutCorrection);
    if unrepaired {
      return false;
    }
    var unreviewed := HasCycle(p, withoutBranching);
    return !unreviewed;
  }

  /** Every stage of a closed walk from a reachable stage is reachable. */
  lemma {:induction false} WalkStaysReachable(p: Profile, s: seq<Name>, k: nat)
    requires Path(p, s) && Reachable(p, s[0]) && k < |s|
    ensures Reachable(p, s[k])
  {
    if k > 0 {
      WalkStaysReachable(p, s, k - 1);
      assert s[k - 1 + 1] in Targets(p, s[k - 1]);
      ReachStep(p, s[k - 1], s[k]);
    }
  }

  lemma LoopsScoredByRemoval(p: Profile, reachable: set<Name>, withoutCorrection: set<Name>,
                             withoutBranching: set<Name>)
    requires forall n :: n in reachable <==> Reachable(p, n)
    requires withoutCorrection == set n | n in reachable && StageArity(p, n) != Correction
    requires withoutBranching == set n | n in reachable && StageArity(p, n) != Branching
    ensures EveryLoopScored(p) <==> !HasCycleIn(p, withoutCorrection) && !HasCycleIn(p, withoutBranching)
  {
    if EveryLoopScored(p) {
      forall s | CycleIn(p, withoutCorrection, s) ensures false {
      }
      forall s | CycleIn(p, withoutBranching, s) ensures false {
      }
    }
    if !HasCycleIn(p, withoutCorrection) && !HasCycleIn(p, withoutBranching) {
      forall s | Cycle(p, s) && Reachable(p, s[0])
        ensures Visits(p, s, Branching) && Visits(p, s, Correction)
      {
        forall k | 0 <= k < |s| ensures s[k] in reachable {
          WalkStaysReachable(p, s, k);
        }
        if !Visits(p, s, Correction) {
          assert CycleIn(p, withoutCorrection, s);
        }
        if !Visits(p, s, Branching) {
          assert CycleIn(p, withoutBranching, s);
        }
      }
    }
  }

  /** A walk inside an acyclic set of stages never repeats a stage, so it is no longer than the set. */
  lemma AcyclicWalkFits(p: Profile, nodes: set<Name>, s: seq<Name>)
    requires Path(p, s) && Within(s, nodes) && !HasCycleIn(p, nodes)
    ensures |s| <= |nodes|
  {
    forall i, j | 0 <= i < j < |s| ensures s[i] != s[j] {
      if s[i] == s[j] {
        assert CycleIn(p, nodes, s[i..j + 1]);
      }
    }
    DistinctFits(s, nodes);
  }
}
