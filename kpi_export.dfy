/**
 * The printable KPI report (`KpiExportPDF`): a summary of how many indicators are met,
 * on track or need attention, and one card per indicator with its progress bar, trend
 * badge and status colour. Numbers are exact reals here (see README).
 */
module KpiExport {
  import opened Options

  const Met := "Cumplido"
  const OnTrack := "En camino"
  const NeedsAttention := "Requiere atención"

  datatype Kpi = Kpi(id: int, displayName: string, goalValue: real, currentValue: real,
                     previousValue: real, trend: real, status: string)

  /** The stored export; `kpis` may be missing from it. */
  datatype ExportData = ExportData(kpis: Option<seq<Kpi>>, generatedAt: string)

  datatype TrendIcon = TrendingUp | TrendingDown | Minus

  /** What one indicator card shows. */
  datatype Card = Card(progress: real, barWidth: real, showPrevious: bool, showTrend: bool,
                       trendPrefix: string, icon: TrendIcon, statusClass: string)

  datatype Summary = Summary(total: nat, met: nat, onTrack: nat, needsAttention: nat)

  /** The two screens after loading: no data, or the report. */
  datatype Screen = NoData | Report(summary: Summary, cards: seq<Card>)

  // ---------------------------------------------------------------- per-status counts

  /** `kpis.filter(k => k.status === status).length` */
  function CountStatus(kpis: seq<Kpi>, status: string): (n: nat)
    ensures n <= |kpis|
  {
    if kpis == [] then 0 else (if kpis[0].status == status then 1 else 0) + CountStatus(kpis[1..], status)
  }

  /** Every status is one of the three the type declares. */
  predicate DeclaredStatuses(kpis: seq<Kpi>) {
    forall k :: 0 <= k < |kpis| ==> kpis[k].status in {Met, OnTrack, NeedsAttention}
  }

  /** With declared statuses only, the three counts add up to the number of indicators. */
  lemma {:induction false} CountsPartition(kpis: seq<Kpi>)
    requires DeclaredStatuses(kpis)
    ensures CountStatus(kpis, Met) + CountStatus(kpis, OnTrack) + CountStatus(kpis, NeedsAttention) == |kpis|
  {
    if kpis != [] {
      assert DeclaredStatuses(kpis[1..]) by {
        forall k | 0 <= k < |kpis[1..]| ensures kpis[1..][k].status in {Met, OnTrack, NeedsAttention} {
          assert kpis[1..][k] == kpis[k + 1];
        }
      }
      CountsPartition(kpis[1..]);
    }
  }

  /** An undeclared status is counted nowhere, so the counts fall short of the total. */
  lemma {:induction false} CountsMissUndeclared(kpis: seq<Kpi>)
    requires forall k :: 0 <= k < |kpis| ==> kpis[k].status !in {Met, OnTrack, NeedsAttention}
    ensures CountStatus(kpis, Met) + CountStatus(kpis, OnTrack) + CountStatus(kpis, NeedsAttention) == 0
  {
    if kpis != [] {
      assert kpis[0].status !in {Met, OnTrack, NeedsAttention};
      forall k | 0 <= k < |kpis[1..]| ensures kpis[1..][k].status !in {Met, OnTrack, NeedsAttention} {
        assert kpis[1..][k] == kpis[k + 1];
      }
      CountsMissUndeclared(kpis[1..]);
    }
  }

  // ---------------------------------------------------------------- one card

  /** The class of 'Requiere atención', also the fallback for unknown statuses. */
  const AttentionClass := "bg-red-100 text-red-800 border-red-300"

  /** `getStatusColor`: the class for a known status, the attention class for anything else. */
  function StatusColor(status: string): (c: string)
    ensures status == Met ==> c == "bg-emerald-100 text-emerald-800 border-emerald-300"
    ensures status == OnTrack ==> c == "bg-blue-100 text-blue-800 border-blue-300"
    ensures status !in {Met, OnTrack} ==> c == AttentionClass
  {
    if status == Met then "bg-emerald-100 text-emerald-800 border-emerald-300"
    else if status == OnTrack then "bg-blue-100 text-blue-800 border-blue-300"
    else AttentionClass
  }

  /** `getTrendIcon`: the sign of the trend. */
  function TrendIconOf(trend: real): (i: TrendIcon)
    ensures i == TrendingUp <==> trend > 0.0
    ensures i == TrendingDown <==> trend < 0.0
    ensures i == Minus <==> trend == 0.0
  {
    if trend > 0.0 then TrendingUp else if trend < 0.0 then TrendingDown else Minus
  }

  /** `goal_value > 0 ? (current_value / goal_value) * 100 : 0` */
  function Progress(k: Kpi): (p: real)
    ensures k.goalValue <= 0.0 ==> p == 0.0
    ensures k.goalValue > 0.0 ==> p * k.goalValue == k.currentValue * 100.0
    ensures k.goalValue > 0.0 && k.currentValue >= 0.0 ==> p >= 0.0
    ensures k.goalValue > 0.0 ==> (p >= 100.0 <==> k.currentValue >= k.goalValue)
  {
    if k.goalValue > 0.0 then (k.currentValue / k.goalValue) * 100.0 else 0.0
  }

  /** The progress bar width `Math.min(progress, 100)`. */
  function BarWidth(progress: real): (w: real)
    ensures w <= 100.0 && w <= progress
    ensures w == progress || w == 100.0
    ensures w == 100.0 <==> progress >= 100.0
  {
    if progress < 100.0 then progress else 100.0
  }

  /** The trend badge's sign: `trend > 0 ? '+' : ''` (a negative number prints its own '-'). */
  function TrendPrefix(trend: real): (s: string)
    ensures s == "+" <==> trend > 0.0
    ensures s == "" <==> trend <= 0.0
  {
    if trend > 0.0 then "+" else ""
  }

  /** One indicator card. */
  function CardOf(k: Kpi): (c: Card)
    ensures c.barWidth <= 100.0
    ensures k.goalValue > 0.0 && k.currentValue >= 0.0 ==> 0.0 <= c.barWidth
    ensures c.showPrevious <==> k.previousValue > 0.0
    ensures c.showTrend <==> k.trend != 0.0
    ensures c.showTrend ==> (c.trendPrefix == "+" <==> c.icon == TrendingUp)
    ensures c.statusClass == StatusColor(k.status)
    ensures k.goalValue <= 0.0 ==> c.progress == 0.0 && c.barWidth == 0.0
    ensures k.goalValue > 0.0 ==> c.progress * k.goalValue == k.currentValue * 100.0
    ensures c.barWidth == (if c.progress < 100.0 then c.progress else 100.0)
    ensures k.goalValue > 0.0 ==> (c.barWidth == 100.0 <==> k.currentValue >= k.goalValue)
    ensures (c.icon == TrendingUp <==> k.trend > 0.0) && (c.icon == TrendingDown <==> k.trend < 0.0)
    ensures c.trendPrefix == (if k.trend > 0.0 then "+" else "")
  {
    var p := Progress(k);
    Card(p, BarWidth(p), k.previousValue > 0.0, k.trend != 0.0, TrendPrefix(k.trend), TrendIconOf(k.trend),
         StatusColor(k.status))
  }

  // ---------------------------------------------------------------- the report

  function Cards(kpis: seq<Kpi>): (cs: seq<Card>)
    ensures |cs| == |kpis|
    ensures forall i :: 0 <= i < |kpis| ==> cs[i] == CardOf(kpis[i])
  {
    if kpis == [] then [] else [CardOf(kpis[0])] + Cards(kpis[1..])
  }

  /** The screen rendered once loading is over: the no-data screen exactly when the stored
      data or its `kpis` is missing (an empty list still gives a report). */
  function Render(data: Option<ExportData>): (s: Screen)
    ensures s.NoData? <==> data.None? || data.value.kpis.None?
    ensures s.Report? ==>
      var kpis := data.value.kpis.value;
      s.summary == Summary(|kpis|, CountStatus(kpis, Met), CountStatus(kpis, OnTrack), CountStatus(kpis, NeedsAttention))
      && |s.cards| == |kpis|
      && forall i :: 0 <= i < |kpis| ==> s.cards[i] == CardOf(kpis[i])
  {
    if data.None? || data.value.kpis.None? then NoData
    else
      var kpis := data.value.kpis.value;
      Report(Summary(|kpis|, CountStatus(kpis, Met), CountStatus(kpis, OnTrack), CountStatus(kpis, NeedsAttention)),
             Cards(kpis))
  }

  /** In a report of declared statuses, the three summary tiles add up to the total tile. */
  lemma ReportSummaryAddsUp(data: Option<ExportData>)
    requires data.Some? && data.value.kpis.Some? && DeclaredStatuses(data.value.kpis.value)
    ensures var s := Render(data).summary; s.met + s.onTrack + s.needsAttention == s.total
  {
    CountsPartition(data.value.kpis.value);
  }
}
