/** Scenario validation, and what the runner makes of a validated configuration. */
module Config {
  import opened Wrappers
  import Engine

  datatype Target = Target(name: string, baseURL: string)
  datatype Request = Request(verb: string, path: string)
  datatype Scenario = Scenario(
    name: string, target: string, vusers: int, duration: int, rampUp: int, requests: seq<Request>)
  datatype TestConfig = TestConfig(targets: seq<Target>, scenarios: seq<Scenario>)

  datatype Fault =
    | NoTargets | NoScenarios
    | TargetName(i: nat) | TargetURL(i: nat) | DuplicateName(i: nat)
    | ScenarioName(i: nat) | ScenarioTarget(i: nat) | UnknownTarget(i: nat)
    | VUsers(i: nat) | Duration(i: nat) | NoRequests(i: nat)
    | RequestVerb(i: nat, j: nat) | RequestPath(i: nat, j: nat)

  /** Some target before position n has the name. */
  ghost predicate Named(targets: seq<Target>, n: nat, name: string) {
    exists k :: 0 <= k < n && k < |targets| && targets[k].name == name
  }

  /** The configuration has this fault. */
  ghost predicate Faulty(c: TestConfig, f: Fault) {
    match f
    case NoTargets => c.targets == []
    case NoScenarios => c.scenarios == []
    case TargetName(i) => i < |c.targets| && c.targets[i].name == ""
    case TargetURL(i) => i < |c.targets| && c.targets[i].baseURL == ""
    case DuplicateName(i) => i < |c.targets| && Named(c.targets, i, c.targets[i].name)
    case ScenarioName(i) => i < |c.scenarios| && c.scenarios[i].name == ""
    case ScenarioTarget(i) => i < |c.scenarios| && c.scenarios[i].target == ""
    case UnknownTarget(i) => i < |c.scenarios| && !Named(c.targets, |c.targets|, c.scenarios[i].target)
    case VUsers(i) => i < |c.scenarios| && c.scenarios[i].vusers <= 0
    case Duration(i) => i < |c.scenarios| && c.scenarios[i].duration <= 0
    case NoRequests(i) => i < |c.scenarios| && c.scenarios[i].requests == []
    case RequestVerb(i, j) =>
      i < |c.scenarios| && j < |c.scenarios[i].requests| && c.scenarios[i].requests[j].verb == ""
    case RequestPath(i, j) =>
      i < |c.scenarios| && j < |c.scenarios[i].requests| && c.scenarios[i].requests[j].path == ""
  }

  /** When a fault is checked: stage, index, inner index and check number. */
  datatype Place = Place(stage: nat, i: nat, j: nat, check: nat)

  function PlaceOf(f: Fault): Place {
    match f
    case NoTargets => Place(0, 0, 0, 0)
    case NoScenarios => Place(1, 0, 0, 0)
    case TargetName(i) => Place(2, i, 0, 0)
    case TargetURL(i) => Place(2, i, 0, 1)
    case DuplicateName(i) => Place(2, i, 0, 2)
    case ScenarioName(i) => Place(3, i, 0, 0)
    case ScenarioTarget(i) => Place(3, i, 0, 1)
    case UnknownTarget(i) => Place(3, i, 0, 2)
    case VUsers(i) => Place(3, i, 0, 3)
    case Duration(i) => Place(3, i, 0, 4)
    case NoRequests(i) => Place(3, i, 0, 5)
    case RequestVerb(i, j) => Place(3, i, j + 1, 0)
    case RequestPath(i, j) => Place(3, i, j + 1, 1)
  }

  predicate Before(p: Place, q: Place) {
    p.stage < q.stage
    || (p.stage == q.stage
        && (p.i < q.i || (p.i == q.i && (p.j < q.j || (p.j == q.j && p.check < q.check)))))
  }

  /** No fault is checked before place p. */
  ghost predicate Clean(c: TestConfig, p: Place) {
    forall f :: Faulty(c, f) ==> !Before(PlaceOf(f), p)
  }

  /** The fault is present, and none that is checked earlier is. */
  ghost predicate FirstFault(c: TestConfig, f: Fault) {
    Faulty(c, f) && Clean(c, PlaceOf(f))
  }

  ghost predicate WellFormed(c: TestConfig) {
    forall f :: !Faulty(c, f)
  }

  /** Reports the first fault in checking order, and nothing exactly when there is none. */
  method Validate(c: TestConfig) returns (fault: Option<Fault>)
    ensures fault.None? <==> WellFormed(c)
    ensures fault.Some? ==> FirstFault(c, fault.value)
  {
    if |c.targets| == 0 {
      assert Faulty(c, NoTargets);
      return Some(NoTargets);
    }
    if |c.scenarios| == 0 {
      assert Faulty(c, NoScenarios);
      return Some(NoScenarios);
    }
    var targetNames;
    fault, targetNames := CheckTargets(c);
    if fault.Some? {
      return;
    }
    for i := 0 to |c.scenarios|
      invariant Clean(c, Place(3, i, 0, 0))
    {
      fault := CheckScenario(c, i, targetNames);
      if fault.Some? {
        return;
      }
      fault := CheckRequests(c, i);
      if fault.Some? {
        return;
      }
    }
    fault := None;
    AllChecked(c);
  }

  lemma AllChecked(c: TestConfig)
    requires Clean(c, Place(3, |c.scenarios|, 0, 0))
    ensures WellFormed(c)
  {
    forall f
      ensures !Faulty(c, f)
    {
      assert Faulty(c, f) ==> !Before(PlaceOf(f), Place(3, |c.scenarios|, 0, 0));
    }
  }

  /** The targets, collecting their names. */
  method CheckTargets(c: TestConfig) returns (fault: Option<Fault>, targetNames: set<string>)
    requires Clean(c, Place(2, 0, 0, 0))
    ensures fault.None? ==> Clean(c, Place(3, 0, 0, 0))
    ensures fault.None? ==> forall name :: name in targetNames <==> Named(c.targets, |c.targets|, name)
    ensures fault.Some? ==> FirstFault(c, fault.value)
  {
    targetNames := {};
    for i := 0 to |c.targets|
      invariant Clean(c, Place(2, i, 0, 0))
      invariant forall name :: name in targetNames <==> Named(c.targets, i, name)
    {
      var t := c.targets[i];
      if t.name == "" {
        return Some(TargetName(i)), targetNames;
      }
      if t.baseURL == "" {
        return Some(TargetURL(i)), targetNames;
      }
      if t.name in targetNames {
        return Some(DuplicateName(i)), targetNames;
      }
      targetNames := targetNames + {t.name};
    }
    fault := None;
  }

  /** The requests of one scenario. */
  method CheckRequests(c: TestConfig, i: nat) returns (fault: Option<Fault>)
    requires i < |c.scenarios| && Clean(c, Place(3, i, 1, 0))
    ensures fault.None? ==> Clean(c, Place(3, i + 1, 0, 0))
    ensures fault.Some? ==> FirstFault(c, fault.value)
  {
    var requests := c.scenarios[i].requests;
    for j := 0 to |requests|
      invariant Clean(c, Place(3, i, j + 1, 0))
    {
      if requests[j].verb == "" {
        return Some(RequestVerb(i, j));
      }
      if requests[j].path == "" {
        return Some(RequestPath(i, j));
      }
    }
    return None;
  }

  /** The checks of one scenario that precede those of its requests. */
  method CheckScenario(c: TestConfig, i: nat, targetNames: set<string>) returns (fault: Option<Fault>)
    requires i < |c.scenarios| && Clean(c, Place(3, i, 0, 0))
    requires forall name :: name in targetNames <==> Named(c.targets, |c.targets|, name)
    ensures fault.None? ==> Clean(c, Place(3, i, 1, 0))
    ensures fault.Some? ==> FirstFault(c, fault.value)
  {
    var s := c.scenarios[i];
    if s.name == "" {
      return Some(ScenarioName(i));
    }
    if s.target == "" {
      return Some(ScenarioTarget(i));
    }
    if s.target !in targetNames {
      return Some(UnknownTarget(i));
    }
    if s.vusers <= 0 {
      return Some(VUsers(i));
    }
    if s.duration <= 0 {
      return Some(Duration(i));
    }
    if |s.requests| == 0 {
      return Some(NoRequests(i));
    }
    return None;
  }

  // ----- what validation demands, spelled out -----

  predicate SoundScenario(targets: seq<Target>, s: Scenario) {
    && s.name != "" && s.target != "" && s.vusers >= 1 && s.duration >= 1 && |s.requests| >= 1
    && (exists k :: 0 <= k < |targets| && targets[k].name == s.target)
    && (forall j :: 0 <= j < |s.requests| ==> s.requests[j].verb != "" && s.requests[j].path != "")
  }

  /** Target names are distinct, everything named is there, and every count is at least one. */
  predicate Sound(c: TestConfig) {
    && |c.targets| >= 1 && |c.scenarios| >= 1
    && (forall i :: 0 <= i < |c.targets| ==> c.targets[i].name != "" && c.targets[i].baseURL != "")
    && (forall i, j :: 0 <= i < j < |c.targets| ==> c.targets[i].name != c.targets[j].name)
    && (forall i :: 0 <= i < |c.scenarios| ==> SoundScenario(c.targets, c.scenarios[i]))
  }

  lemma SoundIsWellFormed(c: TestConfig)
    requires Sound(c)
    ensures WellFormed(c)
  {
    forall f
      ensures !Faulty(c, f)
    {
      if f.UnknownTarget? && f.i < |c.scenarios| {
        assert SoundScenario(c.targets, c.scenarios[f.i]);
      }
    }
  }

  lemma ScenarioSound(c: TestConfig, i: nat)
    requires WellFormed(c) && i < |c.scenarios|
    ensures SoundScenario(c.targets, c.scenarios[i])
  {
    assert !Faulty(c, ScenarioName(i)) && !Faulty(c, ScenarioTarget(i)) && !Faulty(c, UnknownTarget(i));
    assert !Faulty(c, VUsers(i)) && !Faulty(c, Duration(i)) && !Faulty(c, NoRequests(i));
    var s := c.scenarios[i];
    forall j | 0 <= j < |s.requests|
      ensures s.requests[j].verb != "" && s.requests[j].path != ""
    {
      assert !Faulty(c, RequestVerb(i, j)) && !Faulty(c, RequestPath(i, j));
    }
  }

  lemma TargetsSound(c: TestConfig, i: nat)
    requires WellFormed(c) && i < |c.targets|
    ensures c.targets[i].name != "" && c.targets[i].baseURL != ""
    ensures forall j :: 0 <= j < i ==> c.targets[j].name != c.targets[i].name
  {
    assert !Faulty(c, TargetName(i)) && !Faulty(c, TargetURL(i)) && !Faulty(c, DuplicateName(i));
  }

  /** A configuration is without fault exactly when it is sound. */
  lemma WellFormedExactly(c: TestConfig)
    ensures WellFormed(c) <==> Sound(c)
  {
    if Sound(c) {
      SoundIsWellFormed(c);
    }
    if WellFormed(c) {
      assert !Faulty(c, NoTargets) && !Faulty(c, NoScenarios);
      forall i | 0 <= i < |c.targets|
        ensures c.targets[i].name != "" && c.targets[i].baseURL != ""
        ensures forall j :: 0 <= j < i ==> c.targets[j].name != c.targets[i].name
      {
        TargetsSound(c, i);
      }
      forall i | 0 <= i < |c.scenarios|
        ensures SoundScenario(c.targets, c.scenarios[i])
      {
        ScenarioSound(c, i);
      }
    }
  }

  predicate Earlier(f: Fault, g: Fault) {
    Before(PlaceOf(f), PlaceOf(g))
  }

  /** Faults are checked one after the other, in this order. */
  lemma CheckingOrder(i: nat, j: nat, k: nat)
    ensures forall f, g :: f == g || Earlier(f, g) || Earlier(g, f)
    ensures forall f, g, h :: Earlier(f, g) && Earlier(g, h) ==> Earlier(f, h)
    ensures forall f :: !Earlier(f, f)
    ensures Earlier(NoTargets, NoScenarios) && Earlier(NoScenarios, TargetName(i))
    ensures Earlier(TargetName(i), TargetURL(i)) && Earlier(TargetURL(i), DuplicateName(i))
    ensures Earlier(DuplicateName(i), TargetName(i + 1)) && Earlier(DuplicateName(i), ScenarioName(k))
    ensures Earlier(ScenarioName(i), ScenarioTarget(i)) && Earlier(ScenarioTarget(i), UnknownTarget(i))
    ensures Earlier(UnknownTarget(i), VUsers(i)) && Earlier(VUsers(i), Duration(i))
    ensures Earlier(Duration(i), NoRequests(i)) && Earlier(NoRequests(i), RequestVerb(i, j))
    ensures Earlier(RequestVerb(i, j), RequestPath(i, j)) && Earlier(RequestPath(i, j), RequestVerb(i, j + 1))
    ensures Earlier(RequestPath(i, j), ScenarioName(i + 1))
  {
  }

  // ----- what runner.Run makes of it -----

  datatype Preparation = NoScenario | TargetNotFound | Ready(target: nat, engine: Engine.Config)

  /** The engine's parameters for a scenario. */
  function EngineOf(s: Scenario): Engine.Config
  {
    Engine.ConfigFor(s.vusers, s.rampUp, |s.requests|)
  }

  /** Picks the first scenario and the first target with its name. */
  method Prepare(c: TestConfig) returns (p: Preparation)
    ensures p.NoScenario? <==> c.scenarios == []
    ensures p.TargetNotFound? <==> c.scenarios != [] && !Named(c.targets, |c.targets|, c.scenarios[0].target)
    ensures p.Ready? ==>
      && p.target < |c.targets| && c.targets[p.target].name == c.scenarios[0].target
      && !Named(c.targets, p.target, c.scenarios[0].target)
      && p.engine == EngineOf(c.scenarios[0])
  {
    if |c.scenarios| == 0 {
      return NoScenario;
    }
    var scenario := c.scenarios[0];
    for i := 0 to |c.targets|
      invariant !Named(c.targets, i, scenario.target)
    {
      if c.targets[i].name == scenario.target {
        return Ready(i, EngineOf(scenario));
      }
    }
    return TargetNotFound;
  }

  /** In a validated configuration the scenario's target exists and no other target has its name. */
  lemma TargetUnique(c: TestConfig, i: nat) returns (k: nat)
    requires WellFormed(c) && i < |c.scenarios|
    ensures k < |c.targets| && c.targets[k].name == c.scenarios[i].target
    ensures forall j :: 0 <= j < |c.targets| && c.targets[j].name == c.scenarios[i].target ==> j == k
  {
    assert !Faulty(c, UnknownTarget(i));
    k :| 0 <= k < |c.targets| && c.targets[k].name == c.scenarios[i].target;
    forall j | 0 <= j < |c.targets| && c.targets[j].name == c.scenarios[i].target
      ensures j == k
    {
      assert !Faulty(c, DuplicateName(j)) && !Faulty(c, DuplicateName(k));
    }
  }

  /**
   A validated scenario, even with its VUsers overridden by the agent's assignment, can always
   be shut down once cancelled, except when its ramp-up is shorter than one nanosecond per
   VUser, which validation lets through.
   */
  lemma ValidatedRunShutsDown(c: TestConfig, i: nat, vusers: int, s: Engine.State)
    requires WellFormed(c) && i < |c.scenarios|
    requires Engine.Reachable(EngineOf(c.scenarios[i].(vusers := vusers)), s) && s.cancelled
    ensures var engine := EngineOf(c.scenarios[i].(vusers := vusers));
      (exists es :: Engine.Exec(engine, s, es).Some? && Engine.Final(Engine.Exec(engine, s, es).value))
      <==> !(0 < c.scenarios[i].rampUp < vusers && vusers > 1)
  {
    assert !Faulty(c, NoRequests(i));
    Engine.ShutdownExactly(EngineOf(c.scenarios[i].(vusers := vusers)), s);
  }
}
