/**
  `MyExperiment` of first_soc/my_experiment.py: one producer/consumer test bench per point
  of a four-axis design space (read rate, write rate, latency, capacity), each built into
  its own model and filed under a name that spells out its point.
 */
module MyExperiments {
  import opened Wrappers
  import opened Decimal
  import opened CaseNames
  import opened DesignSpace
  import opened Hestia
  import NumberComponents
  import NumberContainers

  /** `MyExperimentParameters`: the transactions each producer sends and the four axes. */
  datatype ExperimentParameters = ExperimentParameters(
    numTransactions: int,
    latencies: seq<int>,
    capacities: seq<int>,
    readRates: seq<int>,
    writeRates: seq<int>)

  /** What `MyExperimentParameters()` starts with: 100 transactions, every axis `[1]`. */
  const DefaultParameters: ExperimentParameters := ExperimentParameters(100, [1], [1], [1], [1])

  /** The settings `run()` sweeps: 20 transactions, every axis `[1, 2, 3, 5, 10]`. */
  const RunParameters: ExperimentParameters :=
    ExperimentParameters(20, [1, 2, 3, 5, 10], [1, 2, 3, 5, 10], [1, 2, 3, 5, 10], [1, 2, 3, 5, 10])

  /** The points of the design space in the order the four loops visit them. */
  function Cases(p: ExperimentParameters): seq<Case>
  {
    Sweep(p.readRates, p.writeRates, p.latencies, p.capacities)
  }

  /** What every test of one experiment shares: the engine path, the clock domain, the transaction count. */
  datatype Setup = Setup(path: string, domain: string, numTransactions: int)

  /** A model after `build`: its engine path, its clock domains with the number given each, the built bench. */
  datatype BuiltModel = BuiltModel(path: string, clockDomains: map<string, int>, bench: Snapshot)

  /** The connection settings of one point: its four values, timed, in `domain`. */
  function CaseSettings(c: Case, domain: string): ConnectionParameters
  {
    ConnectionParameters(c.latency, c.capacity, c.readRate, c.writeRate, true, domain)
  }

  /** The model `create_tests` builds for point `c`. */
  function BuiltCase(s: Setup, c: Case): BuiltModel
  {
    BuiltModel(s.path, map[s.domain := 1], Snapshot(
      CaseName(c),
      map["producer" := ProducerParameters(s.numTransactions), "consumer" := map[]],
      map["producer_consumer" := Link("producer", "out", "consumer", "in", CaseSettings(c, s.domain))]))
  }

  /** Each case's model, as `create_tests` builds it. */
  function CaseModels(s: Setup): Case -> BuiltModel
  {
    c => BuiltCase(s, c)
  }

  /**
    `tests` after `self.tests[name] = model` for every case in turn, `model(c)` filed under
    the name of `c`; a repeated name keeps the later model.
   */
  function Register<V>(tests: map<string, V>, cases: seq<Case>, model: Case -> V): map<string, V>
    decreases |cases|
  {
    if |cases| == 0 then tests
    else Register(tests, cases[..|cases| - 1], model)[CaseName(cases[|cases| - 1]) := model(cases[|cases| - 1])]
  }

  function Names(cases: seq<Case>): set<string>
  {
    set c | c in cases :: CaseName(c)
  }

  class MyExperiment {
    const name: string
    const path: string
    const params: ExperimentParameters
    const domain: string
    var tests: map<string, BuiltModel>

    /** `MyExperiment(name, path, params)`: starts with no tests and runs `create_tests`. */
    constructor (name: string, path: string, params: ExperimentParameters)
      ensures this.name == name && this.path == path && this.params == params && domain == "clk"
      ensures tests == Register(map[], Cases(params), CaseModels(Setup(path, "clk", params.numTransactions)))
    {
      this.name := name;
      this.path := path;
      this.params := params;
      domain := "clk";
      tests := map[];
      new;
      CreateTests();
    }

    /**
      `create_tests`: for every point, in loop order, a fresh bench named after the point
      with the transaction count and the point's connection settings, built and filed
      under its name. The read-rate loop is here; `CreateWriteBlock` and `CreateLatencyBlock`
      hold the three inner loops.
     */
    method CreateTests()
      modifies this
      ensures tests == Register(old(tests), Cases(params), CaseModels(Setup(path, domain, params.numTransactions)))
    {
      var f := CaseModels(Setup(path, domain, params.numTransactions));
      var rs, ws, ls, cs := params.readRates, params.writeRates, params.latencies, params.capacities;
      var settings := TimedIn(domain);
      ghost var t0 := tests;
      for i := 0 to |rs|
        invariant settings.isTimed && settings.domain == domain
        invariant tests == Register(t0, Sweep(rs[..i], ws, ls, cs), f)
      {
        settings := CreateWriteBlock(rs[i], settings);
        SweepStep(t0, rs, ws, ls, cs, i, f);
      }
      assert rs[..|rs|] == rs;
    }

    /** The write-rate loop of `create_tests` for one read rate `r`, over the shared settings. */
    method CreateWriteBlock(r: int, settings: ConnectionParameters) returns (last: ConnectionParameters)
      requires settings.isTimed && settings.domain == domain
      modifies this
      ensures last.isTimed && last.domain == domain
      ensures tests == Register(old(tests), WriteSweep(r, params.writeRates, params.latencies, params.capacities),
        CaseModels(Setup(path, domain, params.numTransactions)))
    {
      var f := CaseModels(Setup(path, domain, params.numTransactions));
      var ws, ls, cs := params.writeRates, params.latencies, params.capacities;
      last := settings;
      ghost var t1 := tests;
      for j := 0 to |ws|
        invariant last.isTimed && last.domain == domain
        invariant tests == Register(t1, WriteSweep(r, ws[..j], ls, cs), f)
      {
        last := CreateLatencyBlock(r, ws[j], last);
        WriteStep(t1, r, ws, ls, cs, j, f);
      }
      assert ws[..|ws|] == ws;
    }

    /** The latency loop of `create_tests` for one read rate `r` and write rate `w`, over the shared settings. */
    method CreateLatencyBlock(r: int, w: int, settings: ConnectionParameters) returns (last: ConnectionParameters)
      requires settings.isTimed && settings.domain == domain
      modifies this
      ensures last.isTimed && last.domain == domain
      ensures tests == Register(old(tests), LatencySweep(r, w, params.latencies, params.capacities),
        CaseModels(Setup(path, domain, params.numTransactions)))
    {
      var f := CaseModels(Setup(path, domain, params.numTransactions));
      var ls, cs := params.latencies, params.capacities;
      last := settings;
      ghost var t2 := tests;
      for k := 0 to |ls|
        invariant last.isTimed && last.domain == domain
        invariant tests == Register(t2, LatencySweep(r, w, ls[..k], cs), f)
      {
        last := CreateCapacityBlock(r, w, ls[k], last);
        LatencyStep(t2, r, w, ls, cs, k, f);
      }
      assert ls[..|ls|] == ls;
    }

    /**
      The capacity loop of `create_tests` for one read rate, write rate and latency: each
      point's values are written into the shared settings `settings` before the bench is built.
     */
    method CreateCapacityBlock(r: int, w: int, l: int, settings: ConnectionParameters) returns (last: ConnectionParameters)
      requires settings.isTimed && settings.domain == domain
      modifies this
      ensures last.isTimed && last.domain == domain
      ensures tests == Register(old(tests), CapacitySweep(r, w, l, params.capacities),
        CaseModels(Setup(path, domain, params.numTransactions)))
    {
      var s := Setup(path, domain, params.numTransactions);
      var f := CaseModels(s);
      var cs := params.capacities;
      last := settings;
      ghost var t3 := tests;
      for m := 0 to |cs|
        invariant last.isTimed && last.domain == domain
        invariant tests == Register(t3, CapacitySweep(r, w, l, cs[..m]), f)
      {
        var c := Case(r, w, l, cs[m]);
        last := last.(readRate := r, writeRate := w, latency := l, capacity := cs[m]);
        var testName, model := BuildCase(s, c, last);
        tests := tests[testName := model];
        CapacityStep(t3, r, w, l, cs, m, f);
      }
      assert cs[..|cs|] == cs;
    }
  }

  /** The producer's parameters once `set_num_transactions(n)` has run. */
  function ProducerParameters(n: int): map<string, Parameter>
  {
    NumberComponents.ProducerDefaults["num_transactions" :=
      NumberComponents.ProducerDefaults["num_transactions"].(value := Text(DecimalText(n)))]
  }

  /**
    The body of the innermost loop of `create_tests`: a fresh `NumberTestBench` named after
    point `c`, given the transaction count and the shared connection settings, then built.
   */
  method BuildCase(s: Setup, c: Case, settings: ConnectionParameters) returns (testName: string, model: BuiltModel)
    requires settings == CaseSettings(c, s.domain)
    ensures testName == CaseName(c) && model == BuiltCase(s, c)
  {
    var bench := NumberContainers.NewNumberTestBench(CaseName(c), s.domain);
    ghost var producer, consumer := bench.components["producer"], bench.components["consumer"];
    NumberContainers.SetNumTransactions(bench, s.numTransactions);
    NumberContainers.SetConnectionParams(bench, settings);
    assert bench.components == map["producer" := producer, "consumer" := consumer];
    assert producer.parameters == ProducerParameters(s.numTransactions);
    assert consumer.parameters == map[];
    assert bench.connections == map["producer_consumer" := Connection(Port("out", Write, producer), Port("in", Read, consumer), settings)];
    BuildOfBench(bench, producer, consumer, ProducerParameters(s.numTransactions), settings);
    var built := Build(bench);
    testName := bench.name;
    model := BuiltModel(s.path, map[s.domain := 1], built);
  }

  /** Building a producer/consumer bench hands over both parameter maps and the one link. */
  lemma BuildOfBench(t: Container, producer: Component, consumer: Component,
                     parameters: map<string, Parameter>, settings: ConnectionParameters)
    requires t.components == map["producer" := producer, "consumer" := consumer]
    requires producer.name == "producer" && consumer.name == "consumer"
    requires producer.parameters == parameters && consumer.parameters == map[]
    requires t.connections == map["producer_consumer" := Connection(Port("out", Write, producer), Port("in", Read, consumer), settings)]
    ensures Build(t) == Snapshot(t.name,
      map["producer" := parameters, "consumer" := map[]],
      map["producer_consumer" := Link("producer", "out", "consumer", "in", settings)])
  {
  }

  // ---- one loop step at a time: what filing one more block adds ----

  lemma CapacityStep<V>(t: map<string, V>, r: int, w: int, l: int, cs: seq<int>, m: nat, model: Case -> V)
    requires m < |cs|
    ensures Register(t, CapacitySweep(r, w, l, cs[..m]), model)[CaseName(Case(r, w, l, cs[m])) := model(Case(r, w, l, cs[m]))]
      == Register(t, CapacitySweep(r, w, l, cs[..m + 1]), model)
  {
    assert cs[..m + 1][..m] == cs[..m];
    var x := CapacitySweep(r, w, l, cs[..m + 1]);
    assert x[..|x| - 1] == CapacitySweep(r, w, l, cs[..m]);
  }

  lemma LatencyStep<V>(t: map<string, V>, r: int, w: int, ls: seq<int>, cs: seq<int>, k: nat, model: Case -> V)
    requires k < |ls|
    ensures Register(Register(t, LatencySweep(r, w, ls[..k], cs), model), CapacitySweep(r, w, ls[k], cs), model)
      == Register(t, LatencySweep(r, w, ls[..k + 1], cs), model)
  {
    assert ls[..k + 1][..k] == ls[..k];
    RegisterConcat(t, LatencySweep(r, w, ls[..k], cs), CapacitySweep(r, w, ls[k], cs), model);
  }

  lemma WriteStep<V>(t: map<string, V>, r: int, ws: seq<int>, ls: seq<int>, cs: seq<int>, j: nat, model: Case -> V)
    requires j < |ws|
    ensures Register(Register(t, WriteSweep(r, ws[..j], ls, cs), model), LatencySweep(r, ws[j], ls, cs), model)
      == Register(t, WriteSweep(r, ws[..j + 1], ls, cs), model)
  {
    assert ws[..j + 1][..j] == ws[..j];
    RegisterConcat(t, WriteSweep(r, ws[..j], ls, cs), LatencySweep(r, ws[j], ls, cs), model);
  }

  lemma SweepStep<V>(t: map<string, V>, rs: seq<int>, ws: seq<int>, ls: seq<int>, cs: seq<int>, i: nat, model: Case -> V)
    requires i < |rs|
    ensures Register(Register(t, Sweep(rs[..i], ws, ls, cs), model), WriteSweep(rs[i], ws, ls, cs), model)
      == Register(t, Sweep(rs[..i + 1], ws, ls, cs), model)
  {
    assert rs[..i + 1][..i] == rs[..i];
    RegisterConcat(t, Sweep(rs[..i], ws, ls, cs), WriteSweep(rs[i], ws, ls, cs), model);
  }

  // ---- what filing a sequence of cases leaves in `tests` ----

  /** Filing `a` and then `b` is filing `a + b`. */
  lemma {:induction false} RegisterConcat<V>(t: map<string, V>, a: seq<Case>, b: seq<Case>, model: Case -> V)
    ensures Register(t, a + b, model) == Register(Register(t, a, model), b, model)
    decreases |b|
  {
    if |b| == 0 {
      assert a + b == a;
    } else {
      assert (a + b)[..|a + b| - 1] == a + b[..|b| - 1];
      RegisterConcat(t, a, b[..|b| - 1], model);
    }
  }

  lemma NamesSnoc(cases: seq<Case>)
    requires |cases| > 0
    ensures Names(cases) == Names(cases[..|cases| - 1]) + {CaseName(cases[|cases| - 1])}
  {
    var init := cases[..|cases| - 1];
    assert cases == init + [cases[|cases| - 1]];
  }

  /** The tests are the earlier ones plus one per case name. */
  lemma {:induction false} RegisterKeys<V>(t: map<string, V>, cases: seq<Case>, model: Case -> V)
    ensures Register(t, cases, model).Keys == t.Keys + Names(cases)
    decreases |cases|
  {
    if |cases| > 0 {
      RegisterKeys(t, cases[..|cases| - 1], model);
      NamesSnoc(cases);
    }
  }

  /** The test filed under a case's name is the model of that case. */
  lemma {:induction false} RegisterAt<V>(t: map<string, V>, cases: seq<Case>, model: Case -> V, c: Case)
    requires c in cases
    ensures CaseName(c) in Register(t, cases, model) && Register(t, cases, model)[CaseName(c)] == model(c)
    decreases |cases|
  {
    var last := cases[|cases| - 1];
    CaseNameInjective(c, last);
    if c != last {
      assert cases == cases[..|cases| - 1] + [last];
      RegisterAt(t, cases[..|cases| - 1], model, c);
    }
  }

  /** A test under a name no case has is left as it was. */
  lemma {:induction false} RegisterOthers<V>(t: map<string, V>, cases: seq<Case>, model: Case -> V, k: string)
    requires k in t && k !in Names(cases)
    ensures k in Register(t, cases, model) && Register(t, cases, model)[k] == t[k]
    decreases |cases|
  {
    if |cases| > 0 {
      NamesSnoc(cases);
      RegisterOthers(t, cases[..|cases| - 1], model, k);
    }
  }

  /** Pairwise different cases with names not yet taken give one new test each. */
  lemma {:induction false} RegisterSize<V>(t: map<string, V>, cases: seq<Case>, model: Case -> V)
    requires Distinct(cases) && t.Keys !! Names(cases)
    ensures |Register(t, cases, model)| == |t| + |cases|
    decreases |cases|
  {
    if |cases| > 0 {
      var init, last := cases[..|cases| - 1], cases[|cases| - 1];
      DistinctInit(cases);
      NamesSnoc(cases);
      RegisterSize(t, init, model);
      RegisterKeys(t, init, model);
      if CaseName(last) in Names(init) {
        var x :| x in init && CaseName(x) == CaseName(last);
        CaseNameInjective(x, last);
      }
    }
  }

  /** Filing can only add as many tests as there are cases. */
  lemma {:induction false} RegisterBound<V>(t: map<string, V>, cases: seq<Case>, model: Case -> V)
    ensures |Register(t, cases, model)| <= |t| + |cases|
    decreases |cases|
  {
    if |cases| > 0 {
      RegisterBound(t, cases[..|cases| - 1], model);
    }
  }

  lemma RepeatBeforeLast<T>(s: seq<T>)
    requires !Distinct(s) && s[|s| - 1] !in s[..|s| - 1]
    ensures !Distinct(s[..|s| - 1])
  {
    var i, j :| 0 <= i < j < |s| && s[i] == s[j];
    assert j < |s| - 1;
    assert s[..|s| - 1][i] == s[..|s| - 1][j];
  }

  /** Filing a case whose name is already filed adds no entry. */
  lemma {:induction false} RegisterLastRepeated<V>(t: map<string, V>, cases: seq<Case>, model: Case -> V)
    requires |cases| > 0 && cases[|cases| - 1] in cases[..|cases| - 1]
    ensures |Register(t, cases, model)| < |t| + |cases|
  {
    var init, last := cases[..|cases| - 1], cases[|cases| - 1];
    var before := Register(t, init, model);
    assert CaseName(last) in Names(init);
    RegisterKeys(t, init, model);
    RegisterBound(t, init, model);
    assert CaseName(last) in before.Keys;
    assert before[CaseName(last) := model(last)].Keys == before.Keys;
  }

  /** A case that comes twice is filed once: the later model overwrites the earlier. */
  lemma {:induction false} RegisterOverwrites<V>(t: map<string, V>, cases: seq<Case>, model: Case -> V)
    requires !Distinct(cases)
    ensures |Register(t, cases, model)| < |t| + |cases|
    decreases |cases|
  {
    var init, last := cases[..|cases| - 1], cases[|cases| - 1];
    if last in init {
      RegisterLastRepeated(t, cases, model);
    } else {
      RepeatBeforeLast(cases);
      RegisterOverwrites(t, init, model);
    }
  }

  // ---- what an experiment holds once built ----

  function Tests(p: ExperimentParameters, s: Setup): map<string, BuiltModel>
  {
    Register(map[], Cases(p), CaseModels(s))
  }

  /** There is a test named after a point exactly when each of its values lies on its axis. */
  lemma TestNames(p: ExperimentParameters, s: Setup, c: Case)
    ensures CaseName(c) in Tests(p, s) <==>
      c.readRate in p.readRates && c.writeRate in p.writeRates && c.latency in p.latencies && c.capacity in p.capacities
  {
    RegisterKeys(map[], Cases(p), CaseModels(s));
    SweepMembers(p.readRates, p.writeRates, p.latencies, p.capacities, c);
    if CaseName(c) in Names(Cases(p)) {
      var x :| x in Cases(p) && CaseName(x) == CaseName(c);
      CaseNameInjective(x, c);
    }
  }

  /**
    Every test name decodes to a point of the design space, and the test filed under it
    holds a bench of that name whose producer sends the experiment's transaction count
    over a timed connection in the experiment's domain with exactly that point's settings.
   */
  lemma TestOfName(p: ExperimentParameters, s: Setup, k: string)
    requires k in Tests(p, s)
    ensures ParseCaseName(k).Some?
    ensures ParseCaseName(k).value in Cases(p)
    ensures Tests(p, s)[k].bench.name == k
    ensures Tests(p, s)[k].clockDomains == map[s.domain := 1]
    ensures "producer" in Tests(p, s)[k].bench.parameters
    ensures "num_transactions" in Tests(p, s)[k].bench.parameters["producer"]
    ensures Tests(p, s)[k].bench.parameters["producer"]["num_transactions"].value.Text?
    ensures ParseDecimal(Tests(p, s)[k].bench.parameters["producer"]["num_transactions"].value.text) == Some(s.numTransactions)
    ensures "producer_consumer" in Tests(p, s)[k].bench.links
    ensures var q := Tests(p, s)[k].bench.links["producer_consumer"].params;
      ParseCaseName(k) == Some(Case(q.readRate, q.writeRate, q.latency, q.capacity)) && q.isTimed && q.domain == s.domain
  {
    RegisterKeys(map[], Cases(p), CaseModels(s));
    var c :| c in Cases(p) && CaseName(c) == k;
    RegisterAt(map[], Cases(p), CaseModels(s), c);
    CaseNameRoundTrip(c);
    BuiltCaseContents(s, c);
  }

  lemma BuiltCaseContents(s: Setup, c: Case)
    ensures "producer" in BuiltCase(s, c).bench.parameters
    ensures "num_transactions" in BuiltCase(s, c).bench.parameters["producer"]
    ensures BuiltCase(s, c).bench.parameters["producer"]["num_transactions"].value == Text(DecimalText(s.numTransactions))
    ensures ParseDecimal(DecimalText(s.numTransactions)) == Some(s.numTransactions)
    ensures "producer_consumer" in BuiltCase(s, c).bench.links
    ensures BuiltCase(s, c).bench.links["producer_consumer"].params == CaseSettings(c, s.domain)
  {
    DecimalRoundTrip(s.numTransactions);
  }

  /** With no repeated axis value, there is one test per point: the product of the axis lengths. */
  lemma TestCount(p: ExperimentParameters, s: Setup)
    requires Distinct(p.readRates) && Distinct(p.writeRates) && Distinct(p.latencies) && Distinct(p.capacities)
    ensures |Tests(p, s)| == |p.readRates| * |p.writeRates| * |p.latencies| * |p.capacities|
  {
    SweepDistinct(p.readRates, p.writeRates, p.latencies, p.capacities);
    RegisterSize(map[], Cases(p), CaseModels(s));
    CaseCount(p.readRates, p.writeRates, p.latencies, p.capacities);
  }

  /** With every axis non-empty, there is one test per loop iteration exactly when no axis repeats a value. */
  lemma TestCountIff(p: ExperimentParameters, s: Setup)
    requires |p.readRates| > 0 && |p.writeRates| > 0 && |p.latencies| > 0 && |p.capacities| > 0
    ensures |Tests(p, s)| == |p.readRates| * |p.writeRates| * |p.latencies| * |p.capacities| <==>
      Distinct(p.readRates) && Distinct(p.writeRates) && Distinct(p.latencies) && Distinct(p.capacities)
  {
    SweepDistinctIff(p.readRates, p.writeRates, p.latencies, p.capacities);
    CaseCount(p.readRates, p.writeRates, p.latencies, p.capacities);
    if Distinct(Cases(p)) {
      RegisterSize(map[], Cases(p), CaseModels(s));
    } else {
      RegisterOverwrites(map[], Cases(p), CaseModels(s));
    }
  }

  lemma DefaultCases()
    ensures Cases(DefaultParameters) == [Case(1, 1, 1, 1)]
  {
    var c := Case(1, 1, 1, 1);
    assert CapacitySweep(1, 1, 1, [1]) == [c];
    assert LatencySweep(1, 1, [1], [1]) == [c];
    assert WriteSweep(1, [1], [1], [1]) == [c];
  }

  lemma OnesName()
    ensures CaseName(Case(1, 1, 1, 1)) == "r_1.w_1.l_1.c_1"
  {
    assert DecimalText(1) == "1";
  }

  /** With the default parameters the experiment holds the single test "r_1.w_1.l_1.c_1". */
  lemma DefaultTests(s: Setup)
    ensures Tests(DefaultParameters, s) == map["r_1.w_1.l_1.c_1" := BuiltCase(s, Case(1, 1, 1, 1))]
  {
    var c := Case(1, 1, 1, 1);
    DefaultCases();
    OnesName();
    assert [c][..0] == [];
  }

  /** The experiment of `run()` holds 625 tests, one per point of the five-value axes. */
  lemma RunTests(s: Setup)
    ensures |Tests(RunParameters, s)| == 625
  {
    var axis := [1, 2, 3, 5, 10];
    assert Distinct(axis);
    TestCount(RunParameters, s);
  }
}
