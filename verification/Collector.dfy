/** Stage timings from grouped events (pkg/collector/collector.go). */
module Collector {
  import opened Store

  // --------------------------------------------------------------- int64 durations

  const MAX_DURATION: int := 0x7FFF_FFFF_FFFF_FFFF
  const MIN_DURATION: int := -0x8000_0000_0000_0000

  /** time.Time.Sub saturates. Times are nanoseconds since the zero Time. */
  function Sub(t: int, u: int): int {
    if t - u > MAX_DURATION then MAX_DURATION
    else if t - u < MIN_DURATION then MIN_DURATION
    else t - u
  }

  /** It is the int64 nearest to the difference. */
  lemma SubIsNearest(t: int, u: int, n: int)
    requires Fits(n)
    ensures Fits(Sub(t, u))
    ensures t - u >= 0 ==> Sub(t, u) <= t - u && (n <= t - u ==> n <= Sub(t, u))
    ensures t - u <= 0 ==> Sub(t, u) >= t - u && (n >= t - u ==> n >= Sub(t, u))
  {
  }

  /** Two's complement wrap-around of an int64. */
  function Wrap(n: int): int {
    (n + 0x8000_0000_0000_0000) % 0x1_0000_0000_0000_0000 - 0x8000_0000_0000_0000
  }

  predicate Fits(n: int) {
    MIN_DURATION <= n <= MAX_DURATION
  }

  lemma WrapFits(n: int)
    ensures Fits(Wrap(n))
    ensures Fits(n) ==> Wrap(n) == n
  {
  }

  // --------------------------------------------------------------------- timestamps

  /** timestamps[kind] after the events were entered in order: the last one's, or the zero Time. */
  function Last(events: seq<Event>, kind: EventType): int {
    if events == [] then 0
    else if events[|events| - 1].kind == kind then events[|events| - 1].timestamp
    else Last(events[..|events| - 1], kind)
  }

  predicate Has(events: seq<Event>, kind: EventType) {
    exists i :: 0 <= i < |events| && events[i].kind == kind
  }

  /** The last event of the kind is at t; the zero Time stands for none. */
  predicate At(events: seq<Event>, kind: EventType, t: int) {
    || (t == 0 && forall i :: 0 <= i < |events| ==> events[i].kind != kind)
    || exists i :: 0 <= i < |events| && events[i].kind == kind && events[i].timestamp == t
                   && forall j :: i < j < |events| ==> events[j].kind != kind
  }

  /** Whatever order the events are in, each kind has exactly one such time. */
  lemma {:induction false} LastIsAt(events: seq<Event>, kind: EventType, t: int)
    ensures At(events, kind, t) <==> t == Last(events, kind)
  {
    if events == [] {
    } else {
      var front, last := events[..|events| - 1], events[|events| - 1];
      LastIsAt(front, kind, t);
      assert events == front + [last];
      if last.kind != kind { AtBefore(front, last, kind, t); }
    }
  }

  lemma AtBefore(front: seq<Event>, last: Event, kind: EventType, t: int)
    requires last.kind != kind
    ensures At(front + [last], kind, t) <==> At(front, kind, t)
  {
    if At(front, kind, t) { AtStays(front, last, kind, t); }
    if At(front + [last], kind, t) { AtWas(front, last, kind, t); }
  }

  lemma AtStays(front: seq<Event>, last: Event, kind: EventType, t: int)
    requires last.kind != kind && At(front, kind, t)
    ensures At(front + [last], kind, t)
  {
    var events := front + [last];
    if i :| 0 <= i < |front| && front[i].kind == kind && front[i].timestamp == t
            && forall j :: i < j < |front| ==> front[j].kind != kind {
      assert events[i] == front[i];
    }
  }

  lemma AtWas(front: seq<Event>, last: Event, kind: EventType, t: int)
    requires last.kind != kind && At(front + [last], kind, t)
    ensures At(front, kind, t)
  {
    var events := front + [last];
    assert forall j :: 0 <= j < |front| ==> front[j] == events[j];
    if i :| 0 <= i < |events| && events[i].kind == kind && events[i].timestamp == t
            && forall j :: i < j < |events| ==> events[j].kind != kind {
      assert front[i] == events[i];
    }
  }

  /** One event of the kind is the last one. */
  lemma OnlyOneIsAt(events: seq<Event>, kind: EventType, i: nat)
    requires i < |events| && events[i].kind == kind
    requires forall j :: 0 <= j < |events| && events[j].kind == kind ==> j == i
    ensures At(events, kind, events[i].timestamp)
  {
  }

  lemma LastIsSome(events: seq<Event>, kind: EventType)
    ensures if Has(events, kind)
            then exists i :: 0 <= i < |events| && events[i].kind == kind && events[i].timestamp == Last(events, kind)
            else Last(events, kind) == 0
  {
    LastIsAt(events, kind, Last(events, kind));
  }

  datatype Stage = PVCBind | PVCAttachment | PVCCreation | PVCDeletion | PVCUnattachment | PodCreation | PodDeletion

  const POD_STAGES := [PodCreation, PodDeletion]
  const PVC_STAGES := [PVCBind, PVCAttachment, PVCCreation, PVCDeletion, PVCUnattachment]

  function EndOf(stage: Stage): EventType {
    match stage
    case PVCBind => PvcBound
    case PVCAttachment => PvcAttachEnded
    case PVCCreation => PvcAttachEnded
    case PVCDeletion => PvcDeletingEnded
    case PVCUnattachment => PvcUnattachEnded
    case PodCreation => PodReady
    case PodDeletion => PodDeleted
  }

  function StartOf(stage: Stage): EventType {
    match stage
    case PVCBind => PvcAdded
    case PVCAttachment => PvcAttachStarted
    case PVCCreation => PvcAdded
    case PVCDeletion => PvcDeletingStarted
    case PVCUnattachment => PvcUnattachStarted
    case PodCreation => PodAdded
    case PodDeletion => PodTerminating
  }

  function Metric(events: seq<Event>, stage: Stage): int {
    Sub(Last(events, EndOf(stage)), Last(events, StartOf(stage)))
  }

  /** The stage took the time from the last event of kind first to the last one of kind second, or the
      int64 nearest to it. */
  ghost predicate Took(metrics: map<Stage, int>, stage: Stage, events: seq<Event>, first: EventType, second: EventType) {
    stage in metrics &&
    forall a, b :: At(events, first, a) && At(events, second, b) ==>
      metrics[stage] == if b - a > 0x7FFF_FFFF_FFFF_FFFF then 0x7FFF_FFFF_FFFF_FFFF
                        else if b - a < -0x8000_0000_0000_0000 then -0x8000_0000_0000_0000
                        else b - a
  }

  ghost predicate TookPod(metrics: map<Stage, int>, events: seq<Event>) {
    && metrics.Keys == {PodCreation, PodDeletion}
    && Took(metrics, PodCreation, events, PodAdded, PodReady)
    && Took(metrics, PodDeletion, events, PodTerminating, PodDeleted)
  }

  ghost predicate TookPvc(metrics: map<Stage, int>, events: seq<Event>) {
    && metrics.Keys == {PVCBind, PVCAttachment, PVCCreation, PVCDeletion, PVCUnattachment}
    && Took(metrics, PVCBind, events, PvcAdded, PvcBound)
    && Took(metrics, PVCAttachment, events, PvcAttachStarted, PvcAttachEnded)
    && Took(metrics, PVCCreation, events, PvcAdded, PvcAttachEnded)
    && Took(metrics, PVCDeletion, events, PvcDeletingStarted, PvcDeletingEnded)
    && Took(metrics, PVCUnattachment, events, PvcUnattachStarted, PvcUnattachEnded)
  }

  lemma MetricTook(events: seq<Event>, stages: seq<Stage>, stage: Stage, first: EventType, second: EventType)
    requires stage in MetricsOf(events, stages) && first == StartOf(stage) && second == EndOf(stage)
    ensures Took(MetricsOf(events, stages), stage, events, first, second)
  {
    forall a, b | At(events, first, a) && At(events, second, b) ensures a == Last(events, first) && b == Last(events, second) {
      LastIsAt(events, first, a);
      LastIsAt(events, second, b);
    }
  }

  lemma PodMetricsTook(events: seq<Event>)
    ensures TookPod(MetricsOf(events, POD_STAGES), events)
  {
    MetricKeys(events);
    MetricTook(events, POD_STAGES, PodCreation, PodAdded, PodReady);
    MetricTook(events, POD_STAGES, PodDeletion, PodTerminating, PodDeleted);
  }

  lemma PvcMetricsTook(events: seq<Event>)
    ensures TookPvc(MetricsOf(events, PVC_STAGES), events)
  {
    MetricKeys(events);
    MetricTook(events, PVC_STAGES, PVCBind, PvcAdded, PvcBound);
    MetricTook(events, PVC_STAGES, PVCAttachment, PvcAttachStarted, PvcAttachEnded);
    MetricTook(events, PVC_STAGES, PVCCreation, PvcAdded, PvcAttachEnded);
    MetricTook(events, PVC_STAGES, PVCDeletion, PvcDeletingStarted, PvcDeletingEnded);
    MetricTook(events, PVC_STAGES, PVCUnattachment, PvcUnattachStarted, PvcUnattachEnded);
  }

  lemma MetricKeys(events: seq<Event>)
    ensures MetricsOf(events, POD_STAGES).Keys == {PodCreation, PodDeletion}
    ensures MetricsOf(events, PVC_STAGES).Keys == {PVCBind, PVCAttachment, PVCCreation, PVCDeletion, PVCUnattachment}
  {
    StageLists();
  }

  lemma {:induction false} RowMeasures(rows: seq<EntityMetrics>, ewe: map<Entity, seq<Event>>, stages: seq<Stage>, i: nat)
    requires Measures(rows, ewe, stages) && i < |rows|
    ensures rows[i].entity in ewe && rows[i].metrics == MetricsOf(ewe[rows[i].entity], stages)
    ensures forall s :: s in stages ==> |Samples(rows, s)| == |rows| && Samples(rows, s)[i] == rows[i].metrics[s]
  {
    var front := rows[..|rows| - 1];
    forall s | s in stages ensures |Samples(rows, s)| == |rows| && Samples(rows, s)[|front|] == rows[|front|].metrics[s] {
      SamplesSize(front, s);
    }
    if i < |front| { RowMeasures(front, ewe, stages, i); }
  }

  /** The loop entering timestamps; a missing key reads as the zero Time. */
  method EnterTimestamps(events: seq<Event>) returns (timestamps: map<EventType, int>)
    ensures forall kind :: (if kind in timestamps then timestamps[kind] else 0) == Last(events, kind)
  {
    timestamps := map[];
    for i := 0 to |events|
      invariant forall kind :: (if kind in timestamps then timestamps[kind] else 0) == Last(events[..i], kind)
    {
      assert events[..i + 1][..i] == events[..i];
      timestamps := timestamps[events[i].kind := events[i].timestamp];
    }
    assert events[..|events|] == events;
  }

  // ------------------------------------------------------------------ stage summaries

  datatype DurationOfStage = DurationOfStage(min: int, max: int, avg: int)

  function Sum(s: seq<int>): int {
    if s == [] then 0 else Sum(s[..|s| - 1]) + s[|s| - 1]
  }

  /** Go's conversion and division of durations truncate toward zero. */
  function TruncDiv(a: int, b: int): int
    requires b > 0
  {
    if a >= 0 then a / b else -((-a) / b)
  }

  method FindMaxAndMin(metrics: seq<int>) returns (minimum: int, maximum: int)
    requires |metrics| > 0
    ensures minimum in metrics && maximum in metrics
    ensures forall m :: m in metrics ==> minimum <= m <= maximum
  {
    minimum, maximum := metrics[0], metrics[0];
    for i := 1 to |metrics|
      invariant minimum in metrics && maximum in metrics
      invariant forall k :: 0 <= k < i ==> minimum <= metrics[k] <= maximum
    {
      if metrics[i] > maximum { maximum := metrics[i]; }
      if metrics[i] < minimum { minimum := metrics[i]; }
    }
  }

  lemma WrapAdd(a: int, b: int)
    ensures Wrap(Wrap(a) + b) == Wrap(a + b)
  {
    var M := 0x1_0000_0000_0000_0000;
    var q := (a + 0x8000_0000_0000_0000) / M;
    assert Wrap(a) == a - q * M;
  }

  method FindAvg(metrics: seq<int>) returns (avg: int)
    requires |metrics| > 0
    ensures avg == TruncDiv(Wrap(Sum(metrics)), |metrics|)
  {
    var total := 0;
    for i := 0 to |metrics|
      invariant total == Wrap(Sum(metrics[..i]))
    {
      assert metrics[..i + 1][..i] == metrics[..i];
      WrapAdd(Sum(metrics[..i]), metrics[i]);
      total := Wrap(total + metrics[i]);
    }
    assert metrics[..|metrics|] == metrics;
    avg := TruncDiv(total, |metrics|);
  }

  /** What a stage summary says of its samples. */
  predicate Summarizes(d: DurationOfStage, samples: seq<int>) {
    && |samples| > 0
    && d.min in samples && d.max in samples
    && (forall m :: m in samples ==> d.min <= m <= d.max)
    && d.avg == TruncDiv(Wrap(Sum(samples)), |samples|)
  }

  method CalculateMetricsOfStages(stageMetrics: map<Stage, seq<int>>) returns (calculated: map<Stage, DurationOfStage>)
    requires forall k :: k in stageMetrics ==> |stageMetrics[k]| > 0
    ensures calculated.Keys == stageMetrics.Keys
    ensures forall k :: k in stageMetrics ==> Summarizes(calculated[k], stageMetrics[k])
  {
    calculated := map[];
    var todo := stageMetrics.Keys;
    while todo != {}
      invariant todo <= stageMetrics.Keys && calculated.Keys == stageMetrics.Keys - todo
      invariant forall k :: k in calculated ==> Summarizes(calculated[k], stageMetrics[k])
      decreases todo
    {
      var k :| k in todo;
      todo := todo - {k};
      var minimum, maximum := FindMaxAndMin(stageMetrics[k]);
      var avg := FindAvg(stageMetrics[k]);
      calculated := calculated[k := DurationOfStage(minimum, maximum, avg)];
    }
  }

  datatype EntityMetrics = EntityMetrics(entity: Entity, metrics: map<Stage, int>)

  function MetricsOf(events: seq<Event>, stages: seq<Stage>): map<Stage, int> {
    map s | s in stages :: Metric(events, s)
  }

  function Samples(rows: seq<EntityMetrics>, stage: Stage): seq<int> {
    if rows == [] then []
    else
      var last := rows[|rows| - 1].metrics;
      Samples(rows[..|rows| - 1], stage) + [if stage in last then last[stage] else 0]
  }

  function EntitiesOf(rows: seq<EntityMetrics>): set<Entity> {
    if rows == [] then {} else EntitiesOf(rows[..|rows| - 1]) + {rows[|rows| - 1].entity}
  }

  /** One row per entity, in any order, each holding the metric of every stage. */
  predicate Measures(rows: seq<EntityMetrics>, ewe: map<Entity, seq<Event>>, stages: seq<Stage>) {
    rows == [] ||
    var front, last := rows[..|rows| - 1], rows[|rows| - 1];
    && Measures(front, ewe, stages)
    && last.entity !in EntitiesOf(front) && last.entity in ewe
    && last.metrics == MetricsOf(ewe[last.entity], stages)
  }

  lemma MeasuresSnoc(rows: seq<EntityMetrics>, ewe: map<Entity, seq<Event>>, stages: seq<Stage>, e: Entity)
    requires Measures(rows, ewe, stages) && e in ewe && e !in EntitiesOf(rows)
    ensures var more := rows + [EntityMetrics(e, MetricsOf(ewe[e], stages))];
            Measures(more, ewe, stages) && EntitiesOf(more) == EntitiesOf(rows) + {e}
  {
    assert (rows + [EntityMetrics(e, MetricsOf(ewe[e], stages))])[..|rows|] == rows;
  }

  lemma {:induction false} MeasuresSize(rows: seq<EntityMetrics>, ewe: map<Entity, seq<Event>>, stages: seq<Stage>)
    requires Measures(rows, ewe, stages)
    ensures |rows| == |EntitiesOf(rows)|
  {
    if rows == [] {
    } else {
      MeasuresSize(rows[..|rows| - 1], ewe, stages);
    }
  }

  /** The stage lists hold the samples of the rows so far. */
  ghost predicate Lists(lists: map<Stage, seq<int>>, rows: seq<EntityMetrics>, stages: seq<Stage>) {
    && lists.Keys == (if rows == [] then {} else set s | s in stages)
    && forall s :: s in lists ==> lists[s] == Samples(rows, s)
  }

  lemma StageLists()
    ensures Distinct(POD_STAGES) && forall s :: s in POD_STAGES <==> s == PodCreation || s == PodDeletion
    ensures Distinct(PVC_STAGES)
    ensures forall s :: s in PVC_STAGES <==>
              s == PVCBind || s == PVCAttachment || s == PVCCreation || s == PVCDeletion || s == PVCUnattachment
  {
  }

  /** getPodsMetrics: the two pod stages, summarized unless there is no pod. */
  method GetPodsMetrics(ewe: map<Entity, seq<Event>>)
    returns (rows: seq<EntityMetrics>, stageMetrics: map<Stage, DurationOfStage>)
    ensures Measures(rows, ewe, POD_STAGES) && EntitiesOf(rows) == ewe.Keys && |rows| == |ewe|
    ensures forall i :: 0 <= i < |rows| ==> rows[i].entity in ewe && TookPod(rows[i].metrics, ewe[rows[i].entity])
    ensures ewe == map[] ==> stageMetrics == map[]
    ensures ewe != map[] ==> forall s :: s in stageMetrics <==> s == PodCreation || s == PodDeletion
    ensures forall s :: s in stageMetrics ==> Summarizes(stageMetrics[s], Samples(rows, s))
  {
    StageLists();
    rows, stageMetrics := GetMetrics(ewe, POD_STAGES);
    forall i | 0 <= i < |rows| ensures rows[i].entity in ewe && TookPod(rows[i].metrics, ewe[rows[i].entity]) {
      RowMeasures(rows, ewe, POD_STAGES, i);
      PodMetricsTook(ewe[rows[i].entity]);
    }
  }

  /** getPVCsMetrics: the five claim stages. */
  method GetPVCsMetrics(ewe: map<Entity, seq<Event>>)
    returns (rows: seq<EntityMetrics>, stageMetrics: map<Stage, DurationOfStage>)
    ensures Measures(rows, ewe, PVC_STAGES) && EntitiesOf(rows) == ewe.Keys && |rows| == |ewe|
    ensures forall i :: 0 <= i < |rows| ==> rows[i].entity in ewe && TookPvc(rows[i].metrics, ewe[rows[i].entity])
    ensures ewe == map[] ==> stageMetrics == map[]
    ensures ewe != map[] ==> forall s :: s in stageMetrics <==>
              s == PVCBind || s == PVCAttachment || s == PVCCreation || s == PVCDeletion || s == PVCUnattachment
    ensures forall s :: s in stageMetrics ==> Summarizes(stageMetrics[s], Samples(rows, s))
  {
    StageLists();
    rows, stageMetrics := GetMetrics(ewe, PVC_STAGES);
    forall i | 0 <= i < |rows| ensures rows[i].entity in ewe && TookPvc(rows[i].metrics, ewe[rows[i].entity]) {
      RowMeasures(rows, ewe, PVC_STAGES, i);
      PvcMetricsTook(ewe[rows[i].entity]);
    }
  }

  /** What the two have in common: the map is ranged over in any order, every stage list is
      non-empty with one sample per entity, and each is summarized. */
  method GetMetrics(ewe: map<Entity, seq<Event>>, stages: seq<Stage>)
    returns (rows: seq<EntityMetrics>, stageMetrics: map<Stage, DurationOfStage>)
    requires Distinct(stages)
    ensures Measures(rows, ewe, stages) && EntitiesOf(rows) == ewe.Keys && |rows| == |ewe|
    ensures ewe == map[] ==> stageMetrics == map[]
    ensures ewe != map[] ==> forall s :: s in stageMetrics <==> s in stages
    ensures forall s :: s in stageMetrics ==> Summarizes(stageMetrics[s], Samples(rows, s))
  {
    var lists;
    rows, lists := MeasureAll(ewe, stages);
    MeasuresSize(rows, ewe, stages);
    forall s | s in lists ensures |lists[s]| > 0 { SamplesSize(rows, s); }
    stageMetrics := CalculateMetricsOfStages(lists);
  }

  method MeasureAll(ewe: map<Entity, seq<Event>>, stages: seq<Stage>)
    returns (rows: seq<EntityMetrics>, lists: map<Stage, seq<int>>)
    requires Distinct(stages)
    ensures Measures(rows, ewe, stages) && EntitiesOf(rows) == ewe.Keys
    ensures Lists(lists, rows, stages)
  {
    rows, lists := [], map[];
    var todo := ewe.Keys;
    ghost var measured: set<Entity> := {};
    while todo != {}
      invariant measured !! todo && measured + todo == ewe.Keys
      invariant Measures(rows, ewe, stages) && EntitiesOf(rows) == measured
      invariant Lists(lists, rows, stages)
      decreases todo
    {
      var e :| e in todo;
      rows, lists := MeasureNext(rows, lists, ewe, e, stages);
      todo, measured := todo - {e}, measured + {e};
    }
  }

  method MeasureNext(rows: seq<EntityMetrics>, lists: map<Stage, seq<int>>, ewe: map<Entity, seq<Event>>, e: Entity, stages: seq<Stage>)
    returns (rows': seq<EntityMetrics>, lists': map<Stage, seq<int>>)
    requires Distinct(stages) && Lists(lists, rows, stages)
    requires Measures(rows, ewe, stages) && e in ewe && e !in EntitiesOf(rows)
    ensures Measures(rows', ewe, stages) && EntitiesOf(rows') == EntitiesOf(rows) + {e}
    ensures Lists(lists', rows', stages)
  {
    MeasuresSnoc(rows, ewe, stages, e);
    rows', lists' := MeasureEntity(rows, lists, e, ewe[e], stages);
  }

  lemma {:induction false} SamplesSize(rows: seq<EntityMetrics>, stage: Stage)
    ensures |Samples(rows, stage)| == |rows|
  {
    if rows == [] {
    } else {
      SamplesSize(rows[..|rows| - 1], stage);
    }
  }

  /** The body of the loop over the entities. */
  method MeasureEntity(rows: seq<EntityMetrics>, lists: map<Stage, seq<int>>, e: Entity, events: seq<Event>, stages: seq<Stage>)
    returns (rows': seq<EntityMetrics>, lists': map<Stage, seq<int>>)
    requires Distinct(stages) && Lists(lists, rows, stages)
    ensures rows' == rows + [EntityMetrics(e, MetricsOf(events, stages))]
    ensures rows'[..|rows|] == rows
    ensures Lists(lists', rows', stages)
  {
    var timestamps := EnterTimestamps(events);
    var metrics := StageMetrics(events, timestamps, stages);
    rows' := rows + [EntityMetrics(e, metrics)];
    lists' := AppendSamples(lists, metrics, stages);
    assert rows'[..|rows|] == rows;
  }

  method StageMetrics(ghost events: seq<Event>, timestamps: map<EventType, int>, stages: seq<Stage>) returns (metrics: map<Stage, int>)
    requires forall kind :: (if kind in timestamps then timestamps[kind] else 0) == Last(events, kind)
    ensures metrics == MetricsOf(events, stages)
  {
    metrics := map[];
    for i := 0 to |stages|
      invariant metrics == MetricsOf(events, stages[..i])
    {
      assert stages[..i + 1] == stages[..i] + [stages[i]];
      var stop := if EndOf(stages[i]) in timestamps then timestamps[EndOf(stages[i])] else 0;
      var start := if StartOf(stages[i]) in timestamps then timestamps[StartOf(stages[i])] else 0;
      metrics := metrics[stages[i] := Sub(stop, start)];
    }
    assert stages[..|stages|] == stages;
  }

  method AppendSamples(lists: map<Stage, seq<int>>, metrics: map<Stage, int>, stages: seq<Stage>) returns (more: map<Stage, seq<int>>)
    requires Distinct(stages) && metrics.Keys == set s | s in stages
    requires lists.Keys <= metrics.Keys
    ensures more.Keys == metrics.Keys
    ensures forall s :: s in metrics ==> more[s] == (if s in lists then lists[s] else []) + [metrics[s]]
  {
    more := lists;
    ghost var done: set<Stage> := {};
    for i := 0 to |stages|
      invariant more.Keys == lists.Keys + done && done <= metrics.Keys
      invariant forall j :: 0 <= j < |stages| ==> (stages[j] in done <==> j < i)
      invariant forall s :: s in done ==> more[s] == (if s in lists then lists[s] else []) + [metrics[s]]
      invariant forall s :: s in lists && s !in done ==> more[s] == lists[s]
    {
      var s := stages[i];
      more := more[s := (if s in more then more[s] else []) + [metrics[s]]];
      done := done + {s};
    }
    assert done == metrics.Keys;
  }

  // ------------------------------------------------------- laws of the summaries

  lemma MulMono(x: int, y: int, n: int)
    requires x <= y && n > 0
    ensures x * n <= y * n
  {
  }

  lemma FloorBetween(a: int, n: int, lo: int, hi: int)
    requires n > 0 && lo * n <= a <= hi * n
    ensures lo <= a / n <= hi
  {
    var q := a / n;
    assert a == n * q + a % n;
    assert (q + 1) * n == q * n + n && (hi + 1) * n == hi * n + n;
    if q < lo { MulMono(q + 1, lo, n); }
    if q > hi { MulMono(hi + 1, q, n); }
  }

  lemma TruncDivBetween(a: int, n: int, lo: int, hi: int)
    requires n > 0 && lo * n <= a <= hi * n
    ensures lo <= TruncDiv(a, n) <= hi
  {
    if a >= 0 {
      FloorBetween(a, n, lo, hi);
    } else {
      assert (-hi) * n == -(hi * n) && (-lo) * n == -(lo * n);
      FloorBetween(-a, n, -hi, -lo);
    }
  }

  lemma {:induction false} SumBetween(s: seq<int>, lo: int, hi: int)
    requires forall m :: m in s ==> lo <= m <= hi
    ensures lo * |s| <= Sum(s) <= hi * |s|
  {
    if s == [] {
    } else {
      var front := s[..|s| - 1];
      assert forall i :: 0 <= i < |front| ==> front[i] == s[i] && s[i] in s;
      SumBetween(front, lo, hi);
      assert s[|s| - 1] in s;
      assert lo * |s| == lo * (|s| - 1) + lo && hi * |s| == hi * (|s| - 1) + hi;
    }
  }

  /** Min, Avg and Max are in order as long as the sum of the samples fits, and Avg is then the
      exact mean truncated. */
  lemma AverageInBetween(d: DurationOfStage, samples: seq<int>)
    requires Summarizes(d, samples) && Fits(Sum(samples))
    ensures d.min <= d.avg <= d.max && d.avg == TruncDiv(Sum(samples), |samples|)
  {
    WrapFits(Sum(samples));
    SumBetween(samples, d.min, d.max);
    TruncDivBetween(Sum(samples), |samples|, d.min, d.max);
  }

  /** Toward zero: the quotient is the largest in size whose product does not exceed the dividend in size,
      and of the same sign. */
  lemma TruncDivRounds(a: int, n: int)
    requires n > 0
    ensures a >= 0 ==> 0 <= TruncDiv(a, n) * n <= a < (TruncDiv(a, n) + 1) * n
    ensures a <= 0 ==> (TruncDiv(a, n) - 1) * n < a <= TruncDiv(a, n) * n <= 0
  {
    var q := TruncDiv(a, n);
    assert (q + 1) * n == q * n + n && (q - 1) * n == q * n - n;
    if a >= 0 { FloorRounds(a, n); } else { FloorRounds(-a, n); assert q * n == -((-q) * n); }
  }

  lemma FloorRounds(a: int, n: int)
    requires n > 0 && a >= 0
    ensures 0 <= (a / n) * n <= a < (a / n) * n + n
  {
    assert a == (a / n) * n + a % n;
  }

  lemma TruncDivNear(a: int, n: int)
    requires n > 0
    ensures a - n < TruncDiv(a, n) * n < a + n
  {
    if a >= 0 {
      assert a == (a / n) * n + a % n;
    } else {
      assert -a == ((-a) / n) * n + (-a) % n;
      assert (-((-a) / n)) * n == -(((-a) / n) * n);
    }
  }

  lemma TruncDivApart(a: int, b: int, n: int)
    requires n > 0 && a >= b + 2 * n
    ensures TruncDiv(a, n) > TruncDiv(b, n)
  {
    TruncDivNear(a, n);
    TruncDivNear(b, n);
    if TruncDiv(a, n) <= TruncDiv(b, n) { MulMono(TruncDiv(a, n), TruncDiv(b, n), n); }
  }

  lemma WrapApart(n: int)
    requires !Fits(n)
    ensures Wrap(n) <= n - 0x1_0000_0000_0000_0000 || Wrap(n) >= n + 0x1_0000_0000_0000_0000
  {
    var q := (n + 0x8000_0000_0000_0000) / 0x1_0000_0000_0000_0000;
    assert Wrap(n) == n - q * 0x1_0000_0000_0000_0000;
  }

  /** Avg is the truncated exact mean if and only if the sum of the samples fits an int64; a slice
      has no more elements than that. */
  lemma AverageIsExactIffSumFits(d: DurationOfStage, samples: seq<int>)
    requires Summarizes(d, samples) && |samples| <= MAX_DURATION
    ensures d.avg == TruncDiv(Sum(samples), |samples|) <==> Fits(Sum(samples))
  {
    var sum, n := Sum(samples), |samples|;
    WrapFits(sum);
    if !Fits(sum) {
      WrapApart(sum);
      if Wrap(sum) < sum { TruncDivApart(sum, Wrap(sum), n); } else { TruncDivApart(Wrap(sum), sum, n); }
    }
  }

  /** It takes two entities that only ended, and are measured from the zero Time, to wrap the sum. */
  lemma AverageOutsideWhenSumWraps(d: DurationOfStage)
    requires Summarizes(d, [MAX_DURATION, MAX_DURATION])
    ensures d.avg < d.min
  {
    var s := [MAX_DURATION, MAX_DURATION];
    assert s[..1] == [MAX_DURATION] && s[..1][..0] == [];
    assert Sum(s[..1]) == MAX_DURATION;
    assert Sum(s) == MAX_DURATION + MAX_DURATION;
    assert Wrap(Sum(s)) == -2;
    assert d.min in s;
  }

  // ------------------------------------------------------------ which stages count

  /** shouldBeIncluded of pkg/plotter/plotter.go. */
  predicate ShouldBeIncluded(d: DurationOfStage) {
    !((d.max < 0 || d.min < 0 || d.avg < 0) || (d.max == 0 && d.min == 0 && d.avg == 0))
  }

  lemma SubSign(t: int, u: int)
    ensures Sub(t, u) < 0 <==> t < u
    ensures Sub(t, u) == 0 <==> t == u
  {
  }

  /** A stage is included exactly if no sample is negative and some sample is positive, as long as
      the sum fits. */
  lemma IncludedBySigns(d: DurationOfStage, samples: seq<int>)
    requires Summarizes(d, samples) && Fits(Sum(samples))
    ensures ShouldBeIncluded(d) <==> (forall m :: m in samples ==> m >= 0) && (exists m :: m in samples && m > 0)
  {
    AverageInBetween(d, samples);
    if ShouldBeIncluded(d) { assert d.max in samples && d.max > 0; }
  }

  lemma {:induction false} SampleOfEntity(rows: seq<EntityMetrics>, ewe: map<Entity, seq<Event>>, stages: seq<Stage>, stage: Stage, e: Entity)
    requires Measures(rows, ewe, stages) && stage in stages && e in EntitiesOf(rows)
    ensures e in ewe && Metric(ewe[e], stage) in Samples(rows, stage)
  {
    var front, last := rows[..|rows| - 1], rows[|rows| - 1];
    if last.entity == e {
      assert last.metrics[stage] == Metric(ewe[e], stage);
    } else {
      SampleOfEntity(front, ewe, stages, stage, e);
    }
  }

  lemma {:induction false} EntityOfSample(rows: seq<EntityMetrics>, ewe: map<Entity, seq<Event>>, stages: seq<Stage>, stage: Stage, m: int) returns (e: Entity)
    requires Measures(rows, ewe, stages) && stage in stages && m in Samples(rows, stage)
    ensures e in EntitiesOf(rows) && e in ewe && Metric(ewe[e], stage) == m
  {
    var front, last := rows[..|rows| - 1], rows[|rows| - 1];
    if last.metrics[stage] == m {
      e := last.entity;
    } else {
      e := EntityOfSample(front, ewe, stages, stage, m);
    }
  }

  predicate Ordered(events: seq<Event>, stage: Stage) {
    Last(events, EndOf(stage)) >= Last(events, StartOf(stage))
  }

  predicate Lasting(events: seq<Event>, stage: Stage) {
    Last(events, EndOf(stage)) > Last(events, StartOf(stage))
  }

  /** Inclusion is decided by completeness: a stage counts exactly if it ends after it starts for
      every grouped entity, a missing timestamp being the zero Time, and takes time for one. */
  lemma IncludedIffOrdered(rows: seq<EntityMetrics>, ewe: map<Entity, seq<Event>>, stages: seq<Stage>, stage: Stage, d: DurationOfStage)
    requires Measures(rows, ewe, stages) && EntitiesOf(rows) == ewe.Keys && stage in stages
    requires Summarizes(d, Samples(rows, stage)) && Fits(Sum(Samples(rows, stage)))
    ensures ShouldBeIncluded(d)
       <==> (forall e :: e in ewe ==> Ordered(ewe[e], stage)) && (exists e :: e in ewe && Lasting(ewe[e], stage))
  {
    var samples := Samples(rows, stage);
    IncludedBySigns(d, samples);
    forall e | e in ewe
      ensures Metric(ewe[e], stage) in samples
      ensures Metric(ewe[e], stage) >= 0 <==> Ordered(ewe[e], stage)
      ensures Metric(ewe[e], stage) > 0 <==> Lasting(ewe[e], stage)
    {
      SampleOfEntity(rows, ewe, stages, stage, e);
      SubSign(Last(ewe[e], EndOf(stage)), Last(ewe[e], StartOf(stage)));
    }
    forall m | m in samples ensures exists e :: e in ewe && Metric(ewe[e], stage) == m {
      var e := EntityOfSample(rows, ewe, stages, stage, m);
    }
  }

  /** One entity with a start but no end makes the minimum negative: the stage is rejected
      whatever the other entities are, even when the sum wraps. */
  lemma UnfinishedIsRejected(rows: seq<EntityMetrics>, ewe: map<Entity, seq<Event>>, stages: seq<Stage>, stage: Stage, d: DurationOfStage, e: Entity)
    requires Measures(rows, ewe, stages) && EntitiesOf(rows) == ewe.Keys && stage in stages
    requires e in ewe && Last(ewe[e], StartOf(stage)) > 0 && !Has(ewe[e], EndOf(stage))
    ensures Summarizes(d, Samples(rows, stage)) ==> d.min < 0 && !ShouldBeIncluded(d)
  {
    LastIsSome(ewe[e], EndOf(stage));
    SubSign(Last(ewe[e], EndOf(stage)), Last(ewe[e], StartOf(stage)));
    SampleOfEntity(rows, ewe, stages, stage, e);
  }

  // -------------------------------------------- the order of ranging does not matter

  ghost function SumOver(entities: set<Entity>, ewe: map<Entity, seq<Event>>, stage: Stage): int
    requires entities <= ewe.Keys
  {
    if entities == {} then 0
    else
      var e :| e in entities;
      Metric(ewe[e], stage) + SumOver(entities - {e}, ewe, stage)
  }

  lemma {:induction false} SumOverWithout(entities: set<Entity>, ewe: map<Entity, seq<Event>>, stage: Stage, e: Entity)
    requires entities <= ewe.Keys && e in entities
    ensures SumOver(entities, ewe, stage) == Metric(ewe[e], stage) + SumOver(entities - {e}, ewe, stage)
    decreases |entities|
  {
    var x :| x in entities && SumOver(entities, ewe, stage) == Metric(ewe[x], stage) + SumOver(entities - {x}, ewe, stage);
    if x != e {
      SumOverWithout(entities - {x}, ewe, stage, e);
      SumOverWithout(entities - {e}, ewe, stage, x);
      assert entities - {x} - {e} == entities - {e} - {x};
    }
  }

  lemma {:induction false} SumAppend(s: seq<int>, more: seq<int>)
    ensures Sum(s + more) == Sum(s) + Sum(more)
    ensures forall m :: Sum([m]) == m
  {
    forall m ensures Sum([m]) == m { assert [m][..0] == []; }
    if more == [] {
      assert s + more == s;
    } else {
      SumAppend(s, more[..|more| - 1]);
      assert (s + more)[..|s + more| - 1] == s + more[..|more| - 1];
    }
  }

  lemma SumSnoc(s: seq<int>, m: int)
    ensures Sum(s + [m]) == Sum(s) + m
  {
    assert (s + [m])[..|s|] == s;
  }

  lemma {:induction false} SumOfSamples(rows: seq<EntityMetrics>, ewe: map<Entity, seq<Event>>, stages: seq<Stage>, stage: Stage)
    requires Measures(rows, ewe, stages) && stage in stages && EntitiesOf(rows) <= ewe.Keys
    ensures Sum(Samples(rows, stage)) == SumOver(EntitiesOf(rows), ewe, stage)
  {
    if rows == [] {
    } else {
      var front, last := rows[..|rows| - 1], rows[|rows| - 1];
      SumOfSamples(front, ewe, stages, stage);
      SumOverWithout(EntitiesOf(rows), ewe, stage, last.entity);
      assert EntitiesOf(rows) - {last.entity} == EntitiesOf(front);
      SumSnoc(Samples(front, stage), last.metrics[stage]);
    }
  }

  lemma SummaryIsUnique(d: DurationOfStage, d': DurationOfStage, samples: seq<int>)
    requires Summarizes(d, samples) && Summarizes(d', samples)
    ensures d == d'
  {
  }

  /** However Go ranges over the grouped map, a stage has the same summary. */
  lemma RangeOrderDoesNotMatter(rows: seq<EntityMetrics>, others: seq<EntityMetrics>, ewe: map<Entity, seq<Event>>,
                                stages: seq<Stage>, stage: Stage, d: DurationOfStage, d': DurationOfStage)
    requires Measures(rows, ewe, stages) && EntitiesOf(rows) == ewe.Keys && stage in stages
    requires Measures(others, ewe, stages) && EntitiesOf(others) == ewe.Keys
    ensures Summarizes(d, Samples(rows, stage)) && Summarizes(d', Samples(others, stage)) ==> d == d'
  {
    if Summarizes(d, Samples(rows, stage)) && Summarizes(d', Samples(others, stage)) {
      SummaryCarriesOver(rows, others, ewe, stages, stage, d);
      SummaryIsUnique(d, d', Samples(others, stage));
    }
  }

  lemma SummaryCarriesOver(rows: seq<EntityMetrics>, others: seq<EntityMetrics>, ewe: map<Entity, seq<Event>>,
                           stages: seq<Stage>, stage: Stage, d: DurationOfStage)
    requires Measures(rows, ewe, stages) && EntitiesOf(rows) == ewe.Keys && stage in stages
    requires Measures(others, ewe, stages) && EntitiesOf(others) == ewe.Keys
    requires Summarizes(d, Samples(rows, stage))
    ensures Summarizes(d, Samples(others, stage))
  {
    SumOfSamples(rows, ewe, stages, stage);
    SumOfSamples(others, ewe, stages, stage);
    MeasuresSize(rows, ewe, stages);
    MeasuresSize(others, ewe, stages);
    SamplesSize(rows, stage);
    SamplesSize(others, stage);
    SameSamples(rows, others, ewe, stages, stage, d.min);
    SameSamples(rows, others, ewe, stages, stage, d.max);
    forall m | m in Samples(others, stage) ensures d.min <= m <= d.max {
      SameSamples(others, rows, ewe, stages, stage, m);
    }
  }

  lemma SameSamples(rows: seq<EntityMetrics>, others: seq<EntityMetrics>, ewe: map<Entity, seq<Event>>, stages: seq<Stage>, stage: Stage, m: int)
    requires Measures(rows, ewe, stages) && EntitiesOf(rows) == ewe.Keys && stage in stages
    requires Measures(others, ewe, stages) && EntitiesOf(others) == ewe.Keys
    requires m in Samples(rows, stage)
    ensures m in Samples(others, stage)
  {
    var e := EntityOfSample(rows, ewe, stages, stage, m);
    SampleOfEntity(others, ewe, stages, stage, e);
  }

  /** An end without a start is not noticed: it counts from the zero Time, as the longest duration
      there is once 2^63 nanoseconds have passed since then. */
  lemma UnstartedIsMaximal(events: seq<Event>, stage: Stage)
    requires Has(events, EndOf(stage)) && !Has(events, StartOf(stage))
    requires forall k :: 0 <= k < |events| ==> events[k].timestamp > MAX_DURATION
    ensures Metric(events, stage) == MAX_DURATION
  {
    LastIsSome(events, StartOf(stage));
    LastIsSome(events, EndOf(stage));
  }
}
