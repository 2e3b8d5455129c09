/**
 Profiles: the frozen stage graph of a task (orchestrator/profile.py).
 Prompts and time limits do not influence any transition and are not part of the model.
 */
module Profiles {
  import opened Prelude

  /** An identifier of a profile: a stage or a typed outcome. */
  datatype Name = Name(text: string)

  datatype Terminal = EndsDone | EndsFailed

  /** One typed outcome of a stage. Python dictionaries keep insertion order, so outcomes are a sequence. */
  datatype Outcome = Outcome(name: Name, target: Name)

  datatype Stage =
    | Work(owner: string, attemptCap: int, outcomes: seq<Outcome>)
    | End(terminal: Terminal)

  /** The key of one edge counter, written "stage.outcome" in the source; see EdgeIdInjective. */
  datatype Edge = Edge(stage: Name, outcome: Name)

  datatype Profile = Profile(
    initial: Name,
    maxTransitions: int,
    stages: map<Name, Stage>,
    edgeCaps: map<Edge, int>)

  datatype Arity = Branching | Correction | Neither

  function Targets(p: Profile, name: Name): (targets: seq<Name>) {
    if name in p.stages && p.stages[name].Work? then TargetNames(p.stages[name].outcomes) else []
  }

  function TargetNames(outcomes: seq<Outcome>): (targets: seq<Name>)
    ensures |targets| == |outcomes|
    ensures forall i :: 0 <= i < |outcomes| ==> targets[i] == outcomes[i].target
  {
    if outcomes == [] then [] else [outcomes[0].target] + TargetNames(outcomes[1..])
  }

  predicate Declares(outcomes: seq<Outcome>, name: Name) {
    exists i :: 0 <= i < |outcomes| && outcomes[i].name == name
  }

  /** `stage.outcomes[outcome]` for a declared outcome. */
  function TargetOf(outcomes: seq<Outcome>, name: Name): (target: Name)
    requires Declares(outcomes, name)
    ensures exists i :: 0 <= i < |outcomes| && outcomes[i].name == name && outcomes[i].target == target
  {
    if outcomes[0].name == name then outcomes[0].target else TargetOf(outcomes[1..], name)
  }

  /** What `validate_profile` guarantees about a profile it returns. */
  ghost predicate WellFormed(p: Profile) {
    && p.maxTransitions > 0
    && p.initial in p.stages && p.stages[p.initial].Work?
    && (exists name :: name in p.stages && p.stages[name].End?)
    && (forall name :: name in p.stages && p.stages[name].Work? ==> WellFormedStage(p, name))
    && (forall e :: e in p.edgeCaps ==> WellCapped(p, e))
  }

  ghost predicate WellFormedStage(p: Profile, name: Name)
    requires name in p.stages && p.stages[name].Work?
  {
    var outcomes := p.stages[name].outcomes;
    && p.stages[name].attemptCap > 0
    && outcomes != []
    && DistinctNames(outcomes)
    && (forall i :: 0 <= i < |outcomes| ==>
          outcomes[i].target in p.stages && Edge(name, outcomes[i].name) in p.edgeCaps)
  }

  /** Branching stages are scored by convergence, correction stages repair what a review found. */
  function StageArity(p: Profile, name: Name): (arity: Arity)
    ensures arity.Neither? <==> Targets(p, name) == []
  {
    if name !in p.stages || p.stages[name].End? then Neither
    else if |p.stages[name].outcomes| > 1 then Branching
    else if |p.stages[name].outcomes| == 1 then Correction
    else Neither
  }

  // ---------------------------------------------------------------- validation

  /** "stage.outcome": how the source writes the key of an edge counter. */
  function EdgeId(e: Edge): (id: string) {
    e.stage.text + "." + e.outcome.text
  }

  /** Identifiers contain no dot, so two edges never share a counter. */
  lemma EdgeIdInjective(e: Edge, f: Edge)
    requires '.' !in e.stage.text && '.' !in f.stage.text && EdgeId(e) == EdgeId(f)
    ensures e == f
  {
    var m, n := |e.stage.text|, |f.stage.text|;
    assert EdgeId(e)[m] == '.' && EdgeId(f)[n] == '.';
    assert m == n;
    assert EdgeId(e)[..m] == e.stage.text && EdgeId(f)[..n] == f.stage.text;
    assert EdgeId(e)[m + 1..] == e.outcome.text && EdgeId(f)[n + 1..] == f.outcome.text;
  }

  datatype ProfileError =
    | NotPositive | NoOutcomes(stage: Name) | NoTerminal | NoInitial | TerminalInitial
    | MissingTarget(edge: Edge) | MissingCap(edge: Edge) | UnknownCap(edge: Edge)

  /** Python mappings have unique keys. */
  ghost predicate UniqueOutcomes(p: Profile) {
    forall name :: name in p.stages && p.stages[name].Work? ==> DistinctNames(p.stages[name].outcomes)
  }

  ghost predicate DistinctNames(outcomes: seq<Outcome>) {
    forall i, j :: 0 <= i < j < |outcomes| ==> outcomes[i].name != outcomes[j].name
  }

  ghost predicate WellCapped(p: Profile, e: Edge) {
    e in p.edgeCaps && p.edgeCaps[e] > 0 && e.stage in p.stages && p.stages[e.stage].Work?
    && Declares(p.stages[e.stage].outcomes, e.outcome)
  }

  /** Every outcome of one stage leads to a stage and has a cap. */
  method ValidateEdges(p: Profile, name: Name) returns (error: Option<ProfileError>)
    requires name in p.stages && p.stages[name].Work? && DistinctNames(p.stages[name].outcomes)
    ensures error.None? <==> WellFormedStage(p, name)
  {
    var stage := p.stages[name];
    if stage.attemptCap <= 0 {
      return Some(NotPositive);
    }
    if stage.outcomes == [] {
      return Some(NoOutcomes(name));
    }
    for i := 0 to |stage.outcomes|
      invariant forall k :: 0 <= k < i ==>
              && stage.outcomes[k].target in p.stages
              && Edge(name, stage.outcomes[k].name) in p.edgeCaps
    {
      var edge := Edge(name, stage.outcomes[i].name);
      if stage.outcomes[i].target !in p.stages {
        return Some(MissingTarget(edge));
      }
      if edge !in p.edgeCaps {
        return Some(MissingCap(edge));
      }
    }
    return None;
  }

  /** A profile is accepted exactly when it has the graph every later argument rests on. */
  method ValidateProfile(p: Profile) returns (error: Option<ProfileError>)
    requires UniqueOutcomes(p)
    ensures error.None? <==> WellFormed(p)
  {
    hide WellFormedStage, Declares;
    if p.maxTransitions <= 0 {
      return Some(NotPositive);
    }
    if p.initial !in p.stages {
      return Some(NoInitial);
    }
    if p.stages[p.initial].End? {
      return Some(TerminalInitial);
    }
    var left, terminals := p.stages.Keys, 0;
    while left != {}
      invariant left <= p.stages.Keys
      invariant forall name :: name in p.stages.Keys - left && p.stages[name].Work? ==> WellFormedStage(p, name)
      invariant terminals > 0 <==> exists name :: name in p.stages.Keys - left && p.stages[name].End?
      decreases |left|
    {
      var name :| name in left;
      if p.stages[name].Work? {
        var problem := ValidateEdges(p, name);
        if problem.Some? {
          return problem;
        }
      } else {
        terminals := terminals + 1;
        assert name in p.stages.Keys - (left - {name}) && p.stages[name].End?;
      }
      left := left - {name};
    }
    assert p.stages.Keys - left == p.stages.Keys;
    if terminals == 0 {
      return Some(NoTerminal);
    }
    error := ValidateCaps(p);
  }

  /** No cap is left over, and every cap is positive. */
  method ValidateCaps(p: Profile) returns (error: Option<ProfileError>)
    ensures error.None? <==> forall e :: e in p.edgeCaps ==> WellCapped(p, e)
  {
    var left := p.edgeCaps.Keys;
    while left != {}
      invariant left <= p.edgeCaps.Keys
      invariant forall e :: e in p.edgeCaps.Keys - left ==> WellCapped(p, e)
      decreases |left|
    {
      var edge :| edge in left;
      if edge.stage !in p.stages || p.stages[edge.stage].End?
        || !Declares(p.stages[edge.stage].outcomes, edge.outcome) {
        assert !WellCapped(p, edge);
        return Some(UnknownCap(edge));
      }
      if p.edgeCaps[edge] <= 0 {
        assert !WellCapped(p, edge);
        return Some(NotPositive);
      }
      left := left - {edge};
    }
    assert p.edgeCaps.Keys - left == p.edgeCaps.Keys;
    return None;
  }
}
