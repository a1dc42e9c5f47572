/** The progress aggregator of the concurrent scene stage (`AnimeGenerator._run_scenes_concurrently`)
    and the progress formula of the character-design stage (`generate_from_novel`).

    Every update of the shared state happens under one lock, so a batch is modelled as the
    sequence of events in the order the lock serialised them: a worker's `report(idx, v)`
    call, the main thread collecting a finished worker (`complete(idx, metadata)`), or the
    main thread collecting a worker that raised. */
module AnimeGenerator {
  import opened Wrappers
  import Text

  // ---------------------------------------------------------------------------
  // Numbers

  /** `max(0.0, min(1.0, x))`. */
  function Clamp01(x: real): (r: real)
    ensures 0.0 <= r <= 1.0
    ensures 0.0 <= x <= 1.0 ==> r == x
    ensures x < 0.0 ==> r == 0.0
    ensures x > 1.0 ==> r == 1.0
  {
    if x < 0.0 then 0.0 else if x > 1.0 then 1.0 else x
  }

  /** The value a worker passes to its progress callback: `None`, something `float()`
      rejects, or a number. */
  datatype ProgressValue = NoValue | NotNumeric | Number(x: real)

  /** The ratio stored for a numeric report: a value above 1.0 is read as a percentage. */
  function NormaliseRatio(x: real): (r: real)
    ensures 0.0 <= r <= 1.0
    ensures 0.0 <= x <= 1.0 ==> r == x
    ensures x < 0.0 ==> r == 0.0
    ensures 1.0 < x <= 100.0 ==> r == x / 100.0
    ensures x > 100.0 ==> r == 1.0
  {
    if x > 1.0 then Clamp01(x / 100.0) else Clamp01(x)
  }

  /** A percentage report and the same amount as a fraction store the same ratio
      (50 and 0.5, say). */
  lemma PercentMatchesFraction(p: real)
    requires 1.0 < p <= 100.0
    ensures NormaliseRatio(p) == NormaliseRatio(p / 100.0)
  {
  }

  function Sum(s: seq<real>): real
  {
    if s == [] then 0.0 else s[0] + Sum(s[1..])
  }

  predicate AllRatios(s: seq<real>) {
    forall i :: 0 <= i < |s| ==> 0.0 <= s[i] <= 1.0
  }

  lemma {:induction false} SumBounds(s: seq<real>)
    requires AllRatios(s)
    ensures 0.0 <= Sum(s) <= |s| as real
  {
    if s != [] {
      SumBounds(s[1..]);
    }
  }

  lemma {:induction false} SumMonotone(a: seq<real>, b: seq<real>)
    requires |a| == |b|
    requires forall i :: 0 <= i < |a| ==> a[i] <= b[i]
    ensures Sum(a) <= Sum(b)
  {
    if a != [] {
      SumMonotone(a[1..], b[1..]);
    }
  }

  lemma {:induction false} SumAllOnes(s: seq<real>)
    requires forall i :: 0 <= i < |s| ==> s[i] == 1.0
    ensures Sum(s) == |s| as real
  {
    if s != [] {
      SumAllOnes(s[1..]);
    }
  }

  lemma FloorWithin(x: real, n: int)
    requires 0.0 <= x <= n as real
    ensures 0 <= x.Floor <= n
  {
  }

  lemma MulMonotone(a: real, b: real, c: real)
    requires a <= b && 0.0 <= c
    ensures a * c <= b * c
  {
    assert b * c - a * c == (b - a) * c;
  }

  lemma DivMonotone(x: real, y: real, d: real)
    requires x <= y && 0.0 < d
    ensures x / d <= y / d
  {
    assert x / d == x * (1.0 / d) && y / d == y * (1.0 / d);
    MulMonotone(x, y, 1.0 / d);
  }

  lemma FloorMonotone(x: real, y: real)
    requires x <= y
    ensures x.Floor <= y.Floor
  {
  }

  /** The mean ratio `avg` of `update_global_progress` (1.0 for an empty list). */
  function Mean(progress: seq<real>): real
  {
    if |progress| > 0 then Sum(progress) / (|progress| as real) else 1.0
  }

  /** `base + int(avg * (ceil - base))` for a given mean ratio `avg`. */
  function ScaledPercent(base: int, ceil: int, avg: real): int
  {
    base + Text.Trunc(avg * ((ceil - base) as real))
  }

  /** `update_global_progress`: the mean ratio scaled into `[base, ceil]`. */
  function GlobalPercent(base: int, ceil: int, progress: seq<real>): (p: int)
    ensures progress == [] ==> p == ceil
  {
    ScaledPercent(base, ceil, Mean(progress))
  }

  lemma MeanBounds(progress: seq<real>)
    requires AllRatios(progress)
    ensures 0.0 <= Mean(progress) <= 1.0
  {
    SumBounds(progress);
  }

  /** With ratios in [0, 1] and `base <= ceil`, the global percentage lies in [base, ceil]. */
  lemma GlobalPercentBounds(base: int, ceil: int, progress: seq<real>)
    requires base <= ceil
    requires AllRatios(progress)
    ensures base <= GlobalPercent(base, ceil, progress) <= ceil
  {
    MeanBounds(progress);
    var avg := Mean(progress);
    var span := (ceil - base) as real;
    assert 0.0 <= avg * span <= span;
    FloorWithin(avg * span, ceil - base);
  }

  /** When every ratio is 1.0 the global percentage is exactly `ceil`. */
  lemma GlobalPercentAllDone(base: int, ceil: int, progress: seq<real>)
    requires forall i :: 0 <= i < |progress| ==> progress[i] == 1.0
    ensures GlobalPercent(base, ceil, progress) == ceil
  {
    SumAllOnes(progress);
    var span := (ceil - base) as real;
    if |progress| > 0 {
      assert Sum(progress) / (|progress| as real) == 1.0;
    }
    assert Mean(progress) == 1.0;
    assert 1.0 * span == span;
    assert span.Floor == ceil - base;
  }

  /** Raising any ratio never lowers the global percentage. */
  lemma GlobalPercentMonotone(base: int, ceil: int, a: seq<real>, b: seq<real>)
    requires base <= ceil
    requires |a| == |b|
    requires AllRatios(a)
    requires forall i :: 0 <= i < |a| ==> a[i] <= b[i]
    ensures GlobalPercent(base, ceil, a) <= GlobalPercent(base, ceil, b)
  {
    MeanMonotone(a, b);
    ScaledPercentMonotone(base, ceil, Mean(a), Mean(b));
  }

  lemma MeanMonotone(a: seq<real>, b: seq<real>)
    requires |a| == |b|
    requires AllRatios(a)
    requires forall i :: 0 <= i < |a| ==> a[i] <= b[i]
    ensures 0.0 <= Mean(a) <= Mean(b)
  {
    SumMonotone(a, b);
    SumBounds(a);
    if |a| > 0 {
      var n := |a| as real;
      DivMonotone(0.0, Sum(a), n);
      DivMonotone(Sum(a), Sum(b), n);
    }
  }

  lemma ScaledPercentMonotone(base: int, ceil: int, x: real, y: real)
    requires base <= ceil
    requires 0.0 <= x <= y
    ensures ScaledPercent(base, ceil, x) <= ScaledPercent(base, ceil, y)
  {
    var span := (ceil - base) as real;
    MulMonotone(0.0, x, span);
    MulMonotone(x, y, span);
    FloorMonotone(x * span, y * span);
  }

  /** `min(8, max(2, os.cpu_count() or 4))`; `cpu_count()` gives `None` when unknown. */
  function MaxWorkers(cpuCount: Option<int>): (w: int)
    ensures 2 <= w <= 8
    ensures cpuCount.None? ==> w == 4
    ensures cpuCount.Some? && 2 <= cpuCount.value <= 8 ==> w == cpuCount.value
    ensures cpuCount.Some? && cpuCount.value > 8 ==> w == 8
    ensures cpuCount.Some? && cpuCount.value != 0 && cpuCount.value < 2 ==> w == 2
  {
    var n := match cpuCount case Some(c) => (if c != 0 then c else 4) case None => 4;
    var lower := if n > 2 then n else 2;
    if lower < 8 then lower else 8
  }

  lemma DivBelowOne(a: real, b: real)
    requires 0.0 <= a < b
    ensures a / b < 1.0
  {
  }

  /** Character-stage progress `20 + int((idx / max(1, total)) * 15)`. */
  function CharacterStagePercent(idx: nat, total: nat): (p: int)
    ensures idx < total ==> 20 <= p < 35
    ensures idx == 0 ==> p == 20
  {
    var denominator := if total > 1 then total else 1;
    var fraction := (idx as real) / (denominator as real);
    assert idx < total ==> fraction * 15.0 < 15.0 by {
      if idx < total {
        DivBelowOne(idx as real, denominator as real);
      }
    }
    20 + Text.Trunc(fraction * 15.0)
  }

  /** The character-stage percentage grows with the index of the character. */
  lemma CharacterStageMonotone(i: nat, j: nat, total: nat)
    requires i <= j
    ensures CharacterStagePercent(i, total) <= CharacterStagePercent(j, total)
  {
    var d := (if total > 1 then total else 1) as real;
    DivMonotone(i as real, j as real, d);
    MulMonotone((i as real) / d, (j as real) / d, 15.0);
    FloorMonotone((i as real) / d * 15.0, (j as real) / d * 15.0);
  }

  // ---------------------------------------------------------------------------
  // The batch as a sequence of serialised events

  datatype BatchConfig = BatchConfig(total: nat, base: int, ceil: int, hasCallback: bool)

  /** One call of the progress callback: the start announcement or a progress update
      carrying `completed/total`. */
  datatype Emission = Started(percent: int, total: nat) | Progress(percent: int, completed: nat, total: nat)

  datatype Event<M> =
    | Report(idx: nat, value: ProgressValue)
    | Complete(idx: nat, metadata: M)
    | Crash(idx: nat)

  /** The shared state of one batch. */
  datatype BatchState<M> = BatchState(progress: seq<real>, results: seq<Option<M>>, completed: nat, emitted: seq<Emission>)

  /** A batch in progress: its shared state and the worker whose exception the main thread
      has collected, if any (from then on the main thread stops collecting). */
  datatype Run<M> = Run(state: BatchState<M>, raised: Option<nat>)

  ghost predicate WellSized<M>(cfg: BatchConfig, s: BatchState<M>) {
    |s.progress| == cfg.total && |s.results| == cfg.total && AllRatios(s.progress)
  }

  /** The state after the start announcement. */
  function InitialState<M>(cfg: BatchConfig): (s: BatchState<M>)
    ensures WellSized(cfg, s)
    ensures s.completed == 0
    ensures forall i :: 0 <= i < cfg.total ==> s.progress[i] == 0.0 && s.results[i] == None
    ensures cfg.hasCallback ==> s.emitted == [Started(cfg.base, cfg.total)]
    ensures !cfg.hasCallback ==> s.emitted == []
  {
    BatchState(seq(cfg.total, _ => 0.0), seq(cfg.total, _ => None), 0,
      if cfg.hasCallback then [Started(cfg.base, cfg.total)] else [])
  }

  /** The callback's emissions after `update_global_progress` ran on `progress`. */
  function Emit(cfg: BatchConfig, emitted: seq<Emission>, progress: seq<real>, completed: nat): seq<Emission>
  {
    if cfg.hasCallback then emitted + [Progress(GlobalPercent(cfg.base, cfg.ceil, progress), completed, cfg.total)]
    else emitted
  }

  /** A call of the per-index progress closure. */
  function ApplyReport<M>(cfg: BatchConfig, s: BatchState<M>, idx: nat, v: ProgressValue): (t: BatchState<M>)
    requires idx < |s.progress|
    ensures |t.progress| == |s.progress| && t.results == s.results && t.completed == s.completed
    ensures forall i :: 0 <= i < |s.progress| && i != idx ==> t.progress[i] == s.progress[i]
    ensures v.Number? ==> t.progress[idx] == NormaliseRatio(v.x)
    ensures !v.Number? ==> t == s
    ensures AllRatios(s.progress) ==> AllRatios(t.progress)
  {
    match v
    case Number(x) =>
      var p := s.progress[idx := NormaliseRatio(x)];
      s.(progress := p, emitted := Emit(cfg, s.emitted, p, s.completed))
    case _ => s
  }

  /** Collecting a finished worker: its metadata goes into its slot and one more is completed. */
  function ApplyComplete<M>(cfg: BatchConfig, s: BatchState<M>, idx: nat, m: M): (t: BatchState<M>)
    requires idx < |s.results|
    ensures t.progress == s.progress
    ensures |t.results| == |s.results| && t.results[idx] == Some(m)
    ensures forall i :: 0 <= i < |s.results| && i != idx ==> t.results[i] == s.results[i]
    ensures t.completed == s.completed + 1
  {
    s.(results := s.results[idx := Some(m)], completed := s.completed + 1,
       emitted := Emit(cfg, s.emitted, s.progress, s.completed + 1))
  }

  ghost predicate InRange<M>(cfg: BatchConfig, trace: seq<Event<M>>) {
    forall k :: 0 <= k < |trace| ==> trace[k].idx < cfg.total
  }

  /** One serialised event. Once an exception has been collected the main thread no longer
      collects results, but the remaining workers' progress reports still run. */
  function Step<M>(cfg: BatchConfig, r: Run<M>, e: Event<M>): (r': Run<M>)
    requires WellSized(cfg, r.state) && e.idx < cfg.total
    ensures WellSized(cfg, r'.state)
  {
    match e
    case Report(i, v) => r.(state := ApplyReport(cfg, r.state, i, v))
    case Complete(i, m) => if r.raised.Some? then r else r.(state := ApplyComplete(cfg, r.state, i, m))
    case Crash(i) => if r.raised.Some? then r else r.(raised := Some(i))
  }

  function Replay<M>(cfg: BatchConfig, r: Run<M>, trace: seq<Event<M>>): (r': Run<M>)
    requires WellSized(cfg, r.state) && InRange(cfg, trace)
    ensures WellSized(cfg, r'.state)
  {
    if trace == [] then r
    else Step(cfg, Replay(cfg, r, trace[..|trace| - 1]), trace[|trace| - 1])
  }

  /** A progress report never touches the results or the raised worker; once a worker's
      exception is collected no further result is collected; the first collected exception
      is recorded without changing the shared state. */
  lemma StepEffect<M>(cfg: BatchConfig, r: Run<M>, e: Event<M>)
    requires WellSized(cfg, r.state) && e.idx < cfg.total
    ensures var r' := Step(cfg, r, e);
      && (e.Report? || r.raised.Some? ==>
            r'.raised == r.raised && r'.state.results == r.state.results && r'.state.completed == r.state.completed)
      && (r.raised.None? && e.Crash? ==> r' == Run(r.state, Some(e.idx)))
      && (r.raised.None? && e.Complete? ==> r'.raised.None? && r'.state.completed == r.state.completed + 1)
  {
  }

  /** The worker of the first failing event of a trace, if any. */
  function FirstCrash<M>(t: seq<Event<M>>): (w: Option<nat>)
    ensures w.Some? ==> exists k :: 0 <= k < |t| && t[k] == Crash(w.value)
    ensures w.None? ==> forall k :: 0 <= k < |t| ==> !t[k].Crash?
  {
    if t == [] then None
    else if t[0].Crash? then Some(t[0].idx)
    else
      var w := FirstCrash(t[1..]);
      assert forall k :: 0 <= k < |t| - 1 ==> t[1..][k] == t[k + 1];
      w
  }

  lemma {:induction false} FirstCrashAppend<M>(t: seq<Event<M>>, e: Event<M>)
    ensures FirstCrash(t + [e]) == if FirstCrash(t).Some? then FirstCrash(t) else if e.Crash? then Some(e.idx) else None
  {
    if t == [] {
      assert [] + [e] == [e];
      assert [e][1..] == [];
    } else {
      assert (t + [e])[0] == t[0];
      assert (t + [e])[1..] == t[1..] + [e];
      FirstCrashAppend(t[1..], e);
    }
  }

  /** The exception the caller receives is the one of the first failing event the main thread
      collects (as `as_completed` yields them); after it, results and the completed count stay. */
  lemma {:induction false} ReplayRaised<M>(cfg: BatchConfig, r: Run<M>, t: seq<Event<M>>)
    requires WellSized(cfg, r.state) && InRange(cfg, t)
    ensures Replay(cfg, r, t).raised == if r.raised.Some? then r.raised else FirstCrash(t)
    ensures r.raised.Some? ==>
      Replay(cfg, r, t).state.results == r.state.results && Replay(cfg, r, t).state.completed == r.state.completed
  {
    if t != [] {
      var init := t[..|t| - 1];
      var e := t[|t| - 1];
      assert InRange(cfg, init) by {
        forall k | 0 <= k < |init| ensures init[k].idx < cfg.total { assert init[k] == t[k]; }
      }
      ReplayRaised(cfg, r, init);
      StepEffect(cfg, Replay(cfg, r, init), e);
      assert t == init + [e];
      FirstCrashAppend(init, e);
    }
  }

  /** What `_run_scenes_concurrently` gives its caller: the result list, or the exception of
      the first failed worker it collected; with the callback's calls in both cases. */
  datatype BatchOutcome<M> =
    | Finished(results: seq<Option<M>>, emitted: seq<Emission>)
    | Raised(idx: nat, emitted: seq<Emission>)

  function OutcomeOf<M>(r: Run<M>): BatchOutcome<M> {
    match r.raised
    case None => Finished(r.state.results, r.state.emitted)
    case Some(i) => Raised(i, r.state.emitted)
  }

  // ---------------------------------------------------------------------------
  // Properties of a batch

  function Run0<M>(cfg: BatchConfig): (r: Run<M>)
    ensures WellSized(cfg, r.state)
  {
    Run(InitialState(cfg), None)
  }

  /** The batch after the first `m` events of `t`. */
  function After<M>(cfg: BatchConfig, t: seq<Event<M>>, m: nat): (r: Run<M>)
    requires InRange(cfg, t) && m <= |t|
    ensures WellSized(cfg, r.state)
  {
    assert InRange(cfg, t[..m]) by {
      forall k | 0 <= k < m ensures t[..m][k].idx < cfg.total { assert t[..m][k] == t[k]; }
    }
    Replay(cfg, Run0(cfg), t[..m])
  }

  lemma AfterStep<M>(cfg: BatchConfig, t: seq<Event<M>>, m: nat)
    requires InRange(cfg, t) && 0 < m <= |t|
    ensures After(cfg, t, m) == Step(cfg, After(cfg, t, m - 1), t[m - 1])
  {
    assert t[..m][..m - 1] == t[..m - 1];
    assert t[..m][m - 1] == t[m - 1];
  }

  lemma AfterAll<M>(cfg: BatchConfig, t: seq<Event<M>>)
    requires InRange(cfg, t)
    ensures After(cfg, t, |t|) == Replay(cfg, Run0(cfg), t)
  {
    assert t[..|t|] == t;
  }

  predicate NonDecreasing(e: seq<Emission>) {
    forall j, k :: 0 <= j < k < |e| ==> e[j].percent <= e[k].percent
  }

  /** Each index's numeric reports store non-decreasing ratios over the trace. */
  ghost predicate MonotoneReports<M>(t: seq<Event<M>>) {
    forall j, k :: 0 <= j < k < |t| && t[j].Report? && t[k].Report? && t[j].idx == t[k].idx
      && t[j].value.Number? && t[k].value.Number?
      ==> NormaliseRatio(t[j].value.x) <= NormaliseRatio(t[k].value.x)
  }

  lemma AppendKeepsOrder(e: seq<Emission>, x: Emission)
    requires NonDecreasing(e)
    requires e != [] ==> e[|e| - 1].percent <= x.percent
    ensures NonDecreasing(e + [x])
  {
    forall j, k | 0 <= j < k < |e + [x]| ensures (e + [x])[j].percent <= (e + [x])[k].percent {
      if k == |e| {
        assert e[j].percent <= e[|e| - 1].percent;
      }
    }
  }

  /** The invariant behind monotonicity: the emissions so far are ordered, the last one is
      at most the current global percentage, and no later report lowers a stored ratio. */
  ghost predicate MonotoneInvariant<M>(cfg: BatchConfig, t: seq<Event<M>>, m: nat, s: BatchState<M>)
    requires |s.progress| == cfg.total && InRange(cfg, t)
  {
    && NonDecreasing(s.emitted)
    && (s.emitted != [] ==> s.emitted[|s.emitted| - 1].percent <= GlobalPercent(cfg.base, cfg.ceil, s.progress))
    && forall k :: m <= k < |t| && t[k].Report? && t[k].value.Number? ==>
         s.progress[t[k].idx] <= NormaliseRatio(t[k].value.x)
  }

  lemma {:induction false} MonotoneAfter<M>(cfg: BatchConfig, t: seq<Event<M>>, m: nat)
    requires cfg.base <= cfg.ceil && InRange(cfg, t) && MonotoneReports(t) && m <= |t|
    ensures MonotoneInvariant(cfg, t, m, After(cfg, t, m).state)
  {
    if m == 0 {
      var s := After(cfg, t, 0).state;
      assert t[..0] == [];
      GlobalPercentBounds(cfg.base, cfg.ceil, s.progress);
    } else {
      MonotoneAfter(cfg, t, m - 1);
      AfterStep(cfg, t, m);
      MonotoneStep(cfg, t, m, After(cfg, t, m - 1));
    }
  }

  lemma MonotoneStep<M>(cfg: BatchConfig, t: seq<Event<M>>, m: nat, r: Run<M>)
    requires cfg.base <= cfg.ceil && InRange(cfg, t) && MonotoneReports(t) && 0 < m <= |t|
    requires WellSized(cfg, r.state) && MonotoneInvariant(cfg, t, m - 1, r.state)
    ensures MonotoneInvariant(cfg, t, m, Step(cfg, r, t[m - 1]).state)
  {
    match t[m - 1]
    case Report(i, v) =>
      if v.Number? {
        MonotoneReportStep(cfg, t, m, r.state, i, v.x);
      }
    case Complete(i, md) =>
      if r.raised.None? {
        var s := r.state;
        GlobalPercentBounds(cfg.base, cfg.ceil, s.progress);
        AppendKeepsOrder(s.emitted, Progress(GlobalPercent(cfg.base, cfg.ceil, s.progress), s.completed + 1, cfg.total));
      }
    case Crash(i) =>
  }

  lemma MonotoneReportStep<M>(cfg: BatchConfig, t: seq<Event<M>>, m: nat, s: BatchState<M>, i: nat, x: real)
    requires cfg.base <= cfg.ceil && InRange(cfg, t) && MonotoneReports(t) && 0 < m <= |t|
    requires t[m - 1] == Report(i, Number(x))
    requires WellSized(cfg, s) && MonotoneInvariant(cfg, t, m - 1, s)
    ensures MonotoneInvariant(cfg, t, m, ApplyReport(cfg, s, i, Number(x)))
  {
    var s' := ApplyReport(cfg, s, i, Number(x));
    assert s.progress[i] <= NormaliseRatio(x);
    assert forall q :: 0 <= q < cfg.total ==> s.progress[q] <= s'.progress[q];
    GlobalPercentMonotone(cfg.base, cfg.ceil, s.progress, s'.progress);
    if cfg.hasCallback {
      AppendKeepsOrder(s.emitted, Progress(GlobalPercent(cfg.base, cfg.ceil, s'.progress), s.completed, cfg.total));
    }
    forall k | m <= k < |t| && t[k].Report? && t[k].value.Number?
      ensures s'.progress[t[k].idx] <= NormaliseRatio(t[k].value.x)
    {
      if t[k].idx == i {
        assert NormaliseRatio(t[m - 1].value.x) <= NormaliseRatio(t[k].value.x);
      }
    }
  }

  /** When no index's stored ratio ever decreases, the callback receives a non-decreasing
      sequence of percentages. */
  lemma EmissionsNonDecreasing<M>(cfg: BatchConfig, t: seq<Event<M>>)
    requires cfg.base <= cfg.ceil && InRange(cfg, t) && MonotoneReports(t)
    ensures NonDecreasing(Replay(cfg, Run0(cfg), t).state.emitted)
  {
    MonotoneAfter(cfg, t, |t|);
    AfterAll(cfg, t);
  }

  /** The indices of the collected workers, in collection order. */
  function CompletedIndices<M>(t: seq<Event<M>>): seq<nat>
  {
    if t == [] then []
    else CompletedIndices(t[..|t| - 1]) + (if t[|t| - 1].Complete? then [t[|t| - 1].idx] else [])
  }

  ghost predicate NoCrash<M>(t: seq<Event<M>>) {
    forall k :: 0 <= k < |t| ==> !t[k].Crash?
  }

  /** Event `k` of `t` delivered `v` as the metadata for index `i`. */
  ghost predicate DeliveredAt<M>(t: seq<Event<M>>, k: nat, i: nat, v: M) {
    k < |t| && t[k] == Complete(i, v)
  }

  lemma {:induction false} CompletionAfter<M>(cfg: BatchConfig, t: seq<Event<M>>, m: nat)
    requires InRange(cfg, t) && NoCrash(t) && m <= |t|
    ensures var r := After(cfg, t, m);
      && r.raised.None?
      && r.state.completed == |CompletedIndices(t[..m])|
      && (forall i :: 0 <= i < cfg.total ==> (r.state.results[i].Some? <==> i in CompletedIndices(t[..m])))
      && (forall i :: 0 <= i < cfg.total && r.state.results[i].Some? ==>
            exists k :: DeliveredAt(t, k, i, r.state.results[i].value))
  {
    if m == 0 {
      assert t[..0] == [];
    } else {
      CompletionAfter(cfg, t, m - 1);
      AfterStep(cfg, t, m);
      assert t[..m][..m - 1] == t[..m - 1];
      var s := After(cfg, t, m - 1).state;
      var s' := After(cfg, t, m).state;
      assert !t[m - 1].Crash?;
      if t[m - 1].Complete? {
        assert CompletedIndices(t[..m]) == CompletedIndices(t[..m - 1]) + [t[m - 1].idx];
        assert DeliveredAt(t, m - 1, t[m - 1].idx, t[m - 1].metadata);
      } else {
        assert CompletedIndices(t[..m]) == CompletedIndices(t[..m - 1]);
      }
    }
  }

  function Range(n: nat): seq<nat> {
    seq(n, i => i)
  }

  /** When every index is collected exactly once and no worker raised, the batch finishes
      with `completed == total` and a full result list whose slot `i` holds the metadata
      worker `i` returned, whatever the completion order. */
  lemma AllCompleted<M>(cfg: BatchConfig, t: seq<Event<M>>)
    requires InRange(cfg, t) && NoCrash(t)
    requires multiset(CompletedIndices(t)) == multiset(Range(cfg.total))
    ensures var r := Replay(cfg, Run0(cfg), t);
      && r.raised.None?
      && r.state.completed == cfg.total
      && |r.state.results| == cfg.total
      && forall i :: 0 <= i < cfg.total ==>
           r.state.results[i].Some? && exists k :: DeliveredAt(t, k, i, r.state.results[i].value)
  {
    var n := |t|;
    CompletionAfter(cfg, t, n);
    AfterAll(cfg, t);
    CollectedCount(cfg, t);
    assert t[..n] == t;
    var r := After(cfg, t, n);
    forall i | 0 <= i < cfg.total
      ensures r.state.results[i].Some? && exists k :: DeliveredAt(t, k, i, r.state.results[i].value)
    {
      EveryIndexCollected(cfg, t, i);
    }
  }

  /** Collecting every index once collects `total` results. */
  lemma CollectedCount<M>(cfg: BatchConfig, t: seq<Event<M>>)
    requires multiset(CompletedIndices(t)) == multiset(Range(cfg.total))
    ensures |CompletedIndices(t)| == cfg.total
  {
    assert |multiset(CompletedIndices(t))| == |multiset(Range(cfg.total))|;
  }

  // The source's workers report 1.0 once they are done and then return.

  /** A worker reports only before it returns. */
  ghost predicate ReportsBeforeReturn<M>(t: seq<Event<M>>) {
    forall j, k :: 0 <= j < k < |t| && t[j].Complete? && t[k].Report? ==> t[j].idx != t[k].idx
  }

  ghost predicate ReportsAreOne<M>(t: seq<Event<M>>) {
    forall k :: 0 <= k < |t| && t[k].Report? ==> t[k].value == Number(1.0)
  }

  ghost predicate ReportedBeforeCompletion<M>(t: seq<Event<M>>) {
    forall k :: 0 <= k < |t| && t[k].Complete? ==>
      exists j :: 0 <= j < k && t[j].Report? && t[j].idx == t[k].idx
  }

  lemma {:induction false} OnesAfter<M>(cfg: BatchConfig, t: seq<Event<M>>, m: nat)
    requires InRange(cfg, t) && ReportsAreOne(t) && m <= |t|
    ensures forall j :: 0 <= j < m && t[j].Report? ==> After(cfg, t, m).state.progress[t[j].idx] == 1.0
  {
    if m > 0 {
      OnesAfter(cfg, t, m - 1);
      AfterStep(cfg, t, m);
    }
  }

  /** The scenario of the source's workers: each worker reports 1.0 before it returns and
      every index is collected once. The last callback then receives `ceil` together with
      `total/total`. */
  lemma FinalEmissionAtCeil<M>(cfg: BatchConfig, t: seq<Event<M>>)
    requires cfg.total > 0 && cfg.hasCallback
    requires InRange(cfg, t) && NoCrash(t)
    requires multiset(CompletedIndices(t)) == multiset(Range(cfg.total))
    requires ReportsAreOne(t) && ReportedBeforeCompletion(t) && ReportsBeforeReturn(t)
    ensures var e := Replay(cfg, Run0(cfg), t).state.emitted;
      e != [] && e[|e| - 1] == Progress(cfg.ceil, cfg.total, cfg.total)
  {
    AllCompleted(cfg, t);
    AfterAll(cfg, t);
    LastEventCollects(cfg, t);
    AllRatiosOne(cfg, t);
    var n := |t|;
    GlobalPercentAllDone(cfg.base, cfg.ceil, After(cfg, t, n).state.progress);
    AfterStep(cfg, t, n);
    CompletionAfter(cfg, t, n - 1);
    CompleteEmitsLast(cfg, After(cfg, t, n - 1), t[n - 1]);
  }

  /** Collecting a result with a callback emits the new global percentage last. */
  lemma CompleteEmitsLast<M>(cfg: BatchConfig, r: Run<M>, e: Event<M>)
    requires WellSized(cfg, r.state) && e.idx < cfg.total && cfg.hasCallback
    requires e.Complete? && r.raised.None?
    ensures var s := Step(cfg, r, e).state;
      s.emitted != [] && s.emitted[|s.emitted| - 1] == Progress(GlobalPercent(cfg.base, cfg.ceil, s.progress), s.completed, cfg.total)
  {
  }

  /** Every index in range was collected. */
  lemma EveryIndexCollected<M>(cfg: BatchConfig, t: seq<Event<M>>, i: nat)
    requires multiset(CompletedIndices(t)) == multiset(Range(cfg.total)) && i < cfg.total
    ensures i in CompletedIndices(t)
  {
    assert Range(cfg.total)[i] == i;
    assert i in multiset(Range(cfg.total));
  }

  /** In that scenario the trace is not empty and its last event collects a worker. */
  lemma LastEventCollects<M>(cfg: BatchConfig, t: seq<Event<M>>)
    requires cfg.total > 0 && InRange(cfg, t) && NoCrash(t)
    requires multiset(CompletedIndices(t)) == multiset(Range(cfg.total))
    requires ReportsBeforeReturn(t)
    ensures |t| > 0 && t[|t| - 1].Complete?
  {
    EveryIndexCollected(cfg, t, 0);
    var n := |t|;
    assert n > 0;
    EveryIndexCollected(cfg, t, t[n - 1].idx);
    LastCollectedIsComplete(t, t[n - 1].idx);
  }

  /** A worker that is collected somewhere in the trace reports no more afterwards, so a last
      event about it that is not a crash collects it. */
  lemma LastCollectedIsComplete<M>(t: seq<Event<M>>, i: nat)
    requires |t| > 0 && !t[|t| - 1].Crash? && t[|t| - 1].idx == i
    requires ReportsBeforeReturn(t) && i in CompletedIndices(t)
    ensures t[|t| - 1].Complete?
  {
    CompletedIndexHasEvent(t, i);
  }

  /** In that scenario every ratio is 1.0 at the end of the trace. */
  lemma AllRatiosOne<M>(cfg: BatchConfig, t: seq<Event<M>>)
    requires InRange(cfg, t) && ReportsAreOne(t) && ReportedBeforeCompletion(t)
    requires multiset(CompletedIndices(t)) == multiset(Range(cfg.total))
    ensures forall i :: 0 <= i < cfg.total ==> After(cfg, t, |t|).state.progress[i] == 1.0
  {
    var n := |t|;
    OnesAfter(cfg, t, n);
    forall i | 0 <= i < cfg.total ensures After(cfg, t, n).state.progress[i] == 1.0 {
      EveryIndexCollected(cfg, t, i);
      CompletedIndexHasEvent(t, i);
      var k :| 0 <= k < n && t[k].Complete? && t[k].idx == i;
      var j :| 0 <= j < k && t[j].Report? && t[j].idx == t[k].idx;
    }
  }

  lemma {:induction false} CompletedIndexHasEvent<M>(t: seq<Event<M>>, i: nat)
    requires i in CompletedIndices(t)
    ensures exists k :: 0 <= k < |t| && t[k].Complete? && t[k].idx == i
  {
    var n := |t|;
    if t[n - 1].Complete? && t[n - 1].idx == i {
    } else {
      assert i in CompletedIndices(t[..n - 1]);
      CompletedIndexHasEvent(t[..n - 1], i);
      var k :| 0 <= k < n - 1 && t[..n - 1][k].Complete? && t[..n - 1][k].idx == i;
      assert t[k] == t[..n - 1][k];
    }
  }

  // ---------------------------------------------------------------------------
  // The shared state as the source holds it: two lists written in place and a counter

  class BatchProgress<M> {
    const cfg: BatchConfig
    const perSceneProgress: array<real>
    const results: array<Option<M>>
    var completed: nat
    var emitted: seq<Emission>

    ghost predicate Valid()
      reads this, perSceneProgress
    {
      perSceneProgress.Length == cfg.total && results.Length == cfg.total
      && AllRatios(perSceneProgress[..])
    }

    function State(): BatchState<M>
      reads this, perSceneProgress, results
    {
      BatchState(perSceneProgress[..], results[..], completed, emitted)
    }

    /** Allocates the shared lists and announces the start of the batch. */
    constructor (cfg: BatchConfig)
      ensures Valid() && this.cfg == cfg
      ensures fresh(perSceneProgress) && fresh(results)
      ensures State() == InitialState(cfg)
    {
      this.cfg := cfg;
      perSceneProgress := new real[cfg.total](_ => 0.0);
      results := new Option<M>[cfg.total](_ => None);
      completed := 0;
      emitted := if cfg.hasCallback then [Started(cfg.base, cfg.total)] else [];
      new;
      assert perSceneProgress[..] == seq(cfg.total, _ => 0.0);
      assert results[..] == seq(cfg.total, _ => None);
    }

    /** `update_global_progress`. */
    method UpdateGlobalProgress()
      modifies this
      ensures emitted == Emit(cfg, old(emitted), perSceneProgress[..], completed)
      ensures completed == old(completed)
    {
      if cfg.hasCallback {
        var globalProgress := GlobalPercent(cfg.base, cfg.ceil, perSceneProgress[..]);
        emitted := emitted + [Progress(globalProgress, completed, cfg.total)];
      }
    }

    /** The progress closure a worker received for index `idx`. */
    method Report(idx: nat, v: ProgressValue)
      requires Valid() && idx < cfg.total
      modifies this, perSceneProgress
      ensures Valid()
      ensures State() == ApplyReport(cfg, old(State()), idx, v)
    {
      match v {
        case Number(x) =>
          var ratio := if x > 1.0 then Clamp01(x / 100.0) else Clamp01(x);
          perSceneProgress[idx] := ratio;
          UpdateGlobalProgress();
        case _ =>
      }
    }

    /** The main thread's critical section for a finished worker. */
    method Complete(idx: nat, m: M)
      requires Valid() && idx < cfg.total
      modifies this, results
      ensures Valid()
      ensures State() == ApplyComplete(cfg, old(State()), idx, m)
    {
      results[idx] := Some(m);
      completed := completed + 1;
      UpdateGlobalProgress();
    }

    /** One serialised event of the batch: a progress report, or the main thread collecting a
        finished or failed worker unless it has already collected an exception. */
    method Handle(e: Event<M>, raised: Option<nat>) returns (raised': Option<nat>)
      requires Valid() && e.idx < cfg.total
      modifies this, perSceneProgress, results
      ensures Valid()
      ensures Run(State(), raised') == Step(cfg, Run(old(State()), raised), e)
    {
      raised' := raised;
      match e {
        case Report(i, v) =>
          Report(i, v);
        case Complete(i, m) =>
          if raised.None? {
            Complete(i, m);
          }
        case Crash(i) =>
          if raised.None? {
            raised' := Some(i);
          }
      }
    }
  }

  /** `_run_scenes_concurrently`, driven by the order in which the lock serialised the
      events of the batch. */
  method RunScenesConcurrently<M>(total: nat, base: int, ceil: int, hasCallback: bool,
                                  cpuCount: Option<int>, trace: seq<Event<M>>)
    returns (outcome: BatchOutcome<M>, workers: int)
    requires forall k :: 0 <= k < |trace| ==> trace[k].idx < total
    ensures total == 0 ==> outcome == Finished([], [])
    ensures total > 0 ==> 2 <= workers <= 8
    ensures total > 0 ==> var cfg := BatchConfig(total, base, ceil, hasCallback);
      outcome == OutcomeOf(Replay(cfg, Run(InitialState(cfg), None), trace))
  {
    workers := 0;
    if total == 0 {
      return Finished([], []), workers;
    }
    var cfg := BatchConfig(total, base, ceil, hasCallback);
    var batch := new BatchProgress<M>(cfg);
    workers := MaxWorkers(cpuCount);
    var raised: Option<nat> := None;
    var k := 0;
    while k < |trace|
      invariant 0 <= k <= |trace|
      invariant batch.Valid() && batch.cfg == cfg
      invariant batch.perSceneProgress != batch.results as object
      invariant Run(batch.State(), raised) == Replay(cfg, Run(InitialState(cfg), None), trace[..k])
    {
      assert trace[..k + 1][..k] == trace[..k];
      raised := batch.Handle(trace[k], raised);
      k := k + 1;
    }
    assert trace[..|trace|] == trace;
    outcome := match raised
      case None => Finished(batch.results[..], batch.emitted)
      case Some(i) => Raised(i, batch.emitted);
  }
}
