/** The digital twin simulator: six experiment parameters set by sliders, a simulated run
    whose progress advances by random steps, and the result formulas applied to the
    parameters the run started with. */
module DigitalTwin {

  datatype Params = Params(
    temperature: real, pressure: real, vibration: real,
    radiation: real, bufferPH: real, proteinConc: real)

  datatype Results = Results(
    successProbability: real, crystallizationTime: real,
    crystalQuality: real, costEstimate: int)

  /** The slider a parameter update comes from. */
  datatype ParamKey = Temperature | Pressure | Vibration | Radiation | BufferPH | ProteinConc

  const InitialParams := Params(4.0, 1.0, 0.1, 0.3, 7.2, 10.0)

  /** The results shown before the first run finishes. */
  const InitialResults := Results(87.0, 18.5, 94.0, 245000)

  /** The parameter a key names. */
  function Get(p: Params, key: ParamKey): real {
    match key
    case Temperature => p.temperature
    case Pressure => p.pressure
    case Vibration => p.vibration
    case Radiation => p.radiation
    case BufferPH => p.bufferPH
    case ProteinConc => p.proteinConc
  }

  /** p with the parameter named by key set to value. */
  function WithParam(p: Params, key: ParamKey, value: real): (q: Params)
    ensures Get(q, key) == value
    ensures forall k: ParamKey | k != key :: Get(q, k) == Get(p, k)
  {
    match key
    case Temperature => p.(temperature := value)
    case Pressure => p.(pressure := value)
    case Vibration => p.(vibration := value)
    case Radiation => p.(radiation := value)
    case BufferPH => p.(bufferPH := value)
    case ProteinConc => p.(proteinConc := value)
  }

  /** A slider reports its value as a one-element list; the first element is taken. */
  function UpdateParam(p: Params, key: ParamKey, value: seq<real>): (q: Params)
    requires |value| > 0
    ensures Get(q, key) == value[0]
    ensures forall k: ParamKey | k != key :: Get(q, k) == Get(p, k)
  {
    WithParam(p, key, value[0])
  }

  /** Parameters are determined by their six readings. */
  lemma ParamsExtensional(p: Params, q: Params)
    requires forall k: ParamKey :: Get(p, k) == Get(q, k)
    ensures p == q
  {
    assert Get(p, Temperature) == Get(q, Temperature);
    assert Get(p, Pressure) == Get(q, Pressure);
    assert Get(p, Vibration) == Get(q, Vibration);
    assert Get(p, Radiation) == Get(q, Radiation);
    assert Get(p, BufferPH) == Get(q, BufferPH);
    assert Get(p, ProteinConc) == Get(q, ProteinConc);
  }

  /** Writing a parameter back with its own reading changes nothing, and a second write to
      the same slider overrides the first. */
  lemma WithParamLaws(p: Params, key: ParamKey, u: real, v: real)
    ensures WithParam(p, key, Get(p, key)) == p
    ensures WithParam(WithParam(p, key, u), key, v) == WithParam(p, key, v)
  {
    ParamsExtensional(WithParam(p, key, Get(p, key)), p);
    ParamsExtensional(WithParam(WithParam(p, key, u), key, v), WithParam(p, key, v));
  }

  // ---------------------------------------------------------------- the formulas

  function Min(a: real, b: real): (m: real)
    ensures m <= a && m <= b && (m == a || m == b)
  {
    if a <= b then a else b
  }

  function Max(a: real, b: real): (m: real)
    ensures m >= a && m >= b && (m == a || m == b)
  {
    if a >= b then a else b
  }

  /** Rounding to the nearest integer, halves upward, as Math.round does. */
  function Round(x: real): (n: int)
    ensures n as real - 0.5 <= x < n as real + 0.5
  {
    (x + 0.5).Floor
  }

  /** Rounding keeps a value between two integer bounds. */
  lemma RoundBetween(x: real, lo: int, hi: int)
    requires lo as real <= x <= hi as real
    ensures lo <= Round(x) <= hi
  {
  }

  /** The outcome of a finished run with parameters p. */
  function ComputeResults(p: Params): (res: Results)
    ensures res.successProbability <= 95.0
    ensures res.crystallizationTime >= 12.0
    ensures res.crystalQuality <= 98.0
  {
    Results(
      Min(95.0, 65.0 + p.temperature * 2.0 + p.bufferPH * 3.0),
      Max(12.0, 24.0 - p.proteinConc * 0.8),
      Min(98.0, 80.0 + p.pressure * 10.0 + (10.0 - p.vibration * 20.0)),
      Round(200000.0 + p.proteinConc * 5000.0 + p.temperature * 10000.0))
  }

  /** Every parameter within the range its slider allows. */
  predicate InSliderRanges(p: Params) {
    0.0 <= p.temperature <= 20.0
    && 0.5 <= p.pressure <= 2.0
    && 0.0 <= p.vibration <= 1.0
    && 0.0 <= p.radiation <= 2.0
    && 5.0 <= p.bufferPH <= 9.0
    && 1.0 <= p.proteinConc <= 50.0
  }

  /** With the sliders in range, every result lies in a fixed band. */
  lemma ResultsWithinBands(p: Params)
    requires InSliderRanges(p)
    ensures 80.0 <= ComputeResults(p).successProbability <= 95.0
    ensures 12.0 <= ComputeResults(p).crystallizationTime <= 23.2
    ensures 75.0 <= ComputeResults(p).crystalQuality <= 98.0
    ensures 205000 <= ComputeResults(p).costEstimate <= 650000
  {
    RoundBetween(200000.0 + p.proteinConc * 5000.0 + p.temperature * 10000.0, 205000, 650000);
  }

  /** The radiation slider has no effect on any result. */
  lemma RadiationIrrelevant(p: Params, v: real)
    ensures ComputeResults(WithParam(p, Radiation, v)) == ComputeResults(p)
  {
  }

  /** Of the six parameters only radiation is ignored: each of the other five changes
      some result for some setting. */
  lemma OtherParamsMatter()
    ensures ComputeResults(WithParam(InitialParams, Temperature, 5.0)) != ComputeResults(InitialParams)
    ensures ComputeResults(WithParam(InitialParams, Pressure, 0.5)) != ComputeResults(InitialParams)
    ensures ComputeResults(WithParam(InitialParams, Vibration, 0.5)) != ComputeResults(InitialParams)
    ensures ComputeResults(WithParam(InitialParams, BufferPH, 5.0)) != ComputeResults(InitialParams)
    ensures ComputeResults(WithParam(InitialParams, ProteinConc, 11.0)) != ComputeResults(InitialParams)
  {
    assert ComputeResults(WithParam(InitialParams, Temperature, 5.0)).costEstimate == 300000;
    assert ComputeResults(InitialParams).costEstimate == 290000;
    assert ComputeResults(WithParam(InitialParams, Pressure, 0.5)).crystalQuality == 93.0;
    assert ComputeResults(WithParam(InitialParams, Vibration, 0.5)).crystalQuality == 90.0;
    assert ComputeResults(WithParam(InitialParams, BufferPH, 5.0)).successProbability == 88.0;
    assert ComputeResults(WithParam(InitialParams, ProteinConc, 11.0)).costEstimate == 295000;
  }

  /** The results shown before any run are not what the formulas give for the initial
      parameters, so the first finished run changes them even with untouched sliders. */
  lemma InitialResultsAreNotComputed()
    ensures ComputeResults(InitialParams) == Results(94.6, 16.0, 98.0, 290000)
    ensures ComputeResults(InitialParams) != InitialResults
  {
    assert Round(290000.0) == 290000;
  }

  // ---------------------------------------------------------------- the run

  /** One progress step of a running simulation with random draw r. */
  function Advance(progress: real, r: real): (next: real)
    requires 0.0 <= r < 1.0
    ensures progress <= next < progress + 15.0
  {
    progress + r * 15.0
  }

  /** Progress goes past 100 before a run finishes: from 99 a draw of 0.5 reaches 106.5. */
  lemma ProgressCanOvershoot()
    ensures Advance(99.0, 0.5) > 100.0
  {
  }

  class Simulator {
    var params: Params
    var results: Results
    var isSimulating: bool
    var progress: real
    /** The parameters the running (or last) simulation started with. */
    var runParams: Params

    /** Progress is never negative; it stays below 115 during a run and ends at 100. */
    ghost predicate Valid()
      reads this
    {
      0.0 <= progress
      && (isSimulating ==> progress < 115.0)
      && (!isSimulating ==> progress <= 100.0)
    }

    constructor ()
      ensures Valid()
      ensures params == InitialParams && results == InitialResults
      ensures !isSimulating && progress == 0.0
    {
      params := InitialParams;
      results := InitialResults;
      isSimulating := false;
      progress := 0.0;
      runParams := InitialParams;
    }

    /** Moving a slider; allowed during a run, which keeps its own copy of the parameters. */
    method SetParam(key: ParamKey, value: seq<real>)
      requires Valid() && |value| > 0
      modifies this
      ensures Valid()
      ensures params == UpdateParam(old(params), key, value)
      ensures results == old(results) && isSimulating == old(isSimulating)
      ensures progress == old(progress) && runParams == old(runParams)
    {
      params := UpdateParam(params, key, value);
    }

    /** The run button, which is disabled while a run is in progress. */
    method RunSimulation()
      requires Valid() && !isSimulating
      modifies this
      ensures Valid()
      ensures isSimulating && progress == 0.0 && runParams == old(params)
      ensures params == old(params) && results == old(results)
    {
      isSimulating := true;
      progress := 0.0;
      runParams := params;
    }

    /** One firing of the run's timer with random draw r: progress below 100 advances; a
        tick that finds it at 100 or beyond pins it to 100, ends the run and publishes the
        results of the parameters the run started with. */
    method Tick(r: real)
      requires Valid() && isSimulating
      requires 0.0 <= r < 1.0
      modifies this
      ensures Valid()
      ensures old(progress) >= 100.0 ==>
        progress == 100.0 && !isSimulating && results == ComputeResults(runParams)
      ensures old(progress) < 100.0 ==>
        progress == Advance(old(progress), r) && isSimulating && results == old(results)
      ensures params == old(params) && runParams == old(runParams)
    {
      if progress >= 100.0 {
        progress := 100.0;
        isSimulating := false;
        results := ComputeResults(runParams);
      } else {
        progress := Advance(progress, r);
      }
    }
  }

  /** A run started from in-range sliders publishes results in the bands above, whatever
      the sliders are moved to while it runs. */
  method RunToCompletion(s: Simulator, draws: seq<real>, moves: seq<(ParamKey, real)>)
    requires s.Valid() && !s.isSimulating && InSliderRanges(s.params)
    requires forall i | 0 <= i < |draws| :: 0.0 <= draws[i] < 1.0
    modifies s
    ensures s.Valid()
    ensures !s.isSimulating ==> s.results == ComputeResults(old(s.params))
    ensures !s.isSimulating ==>
      80.0 <= s.results.successProbability <= 95.0
      && 12.0 <= s.results.crystallizationTime <= 23.2
      && 75.0 <= s.results.crystalQuality <= 98.0
      && 205000 <= s.results.costEstimate <= 650000
  {
    ghost var started := s.params;
    s.RunSimulation();
    var i := 0;
    while i < |draws| && s.isSimulating
      invariant 0 <= i <= |draws|
      invariant s.Valid() && s.runParams == started
      invariant !s.isSimulating ==> s.results == ComputeResults(started)
      decreases |draws| - i
    {
      if i < |moves| {
        s.SetParam(moves[i].0, [moves[i].1]);
      }
      s.Tick(draws[i]);
      i := i + 1;
    }
    ResultsWithinBands(started);
  }
}
