/** The oil-life figures shown by the oil maintenance card: the next service
    odometer, the share of the service interval already used, the rounded
    percentage of oil life left, the status badge and the width of the bar.
    Odometer readings are exact reals; the card divides by the service
    interval, so the interval must be positive. */
module OilMaintenance {
  import opened JsMath

  /** The three badges the card can show. */
  datatype Status = Good | DueSoon | Critical

  /** Everything the card derives from its three odometer inputs. */
  datatype OilLife = OilLife(
    nextServiceOdo: real,
    remainingDistance: real,
    progress: real,
    percentRemaining: int,
    status: Status,
    barWidth: real)

  const CriticalAtOrBelow: int := 10
  const DueSoonAtOrBelow: int := 25
  /** The bar never gets narrower than this percentage, so a sliver always shows. */
  const MinBarWidth: real := 5.0

  /** The odometer reading at which the next oil change is due. */
  function NextServiceOdo(lastServiceOdo: real, serviceInterval: real): (r: real)
    requires serviceInterval > 0.0
    ensures r > lastServiceOdo
    ensures r - lastServiceOdo == serviceInterval
  {
    lastServiceOdo + serviceInterval
  }

  /** Distance left until the next service; negative once it is overdue. */
  function RemainingDistance(currentOdo: real, lastServiceOdo: real, serviceInterval: real): (r: real)
    requires serviceInterval > 0.0
    ensures r + currentOdo == NextServiceOdo(lastServiceOdo, serviceInterval)
    ensures r <= 0.0 <==> currentOdo >= NextServiceOdo(lastServiceOdo, serviceInterval)
  {
    NextServiceOdo(lastServiceOdo, serviceInterval) - currentOdo
  }

  /** Share of the service interval driven since the last service, clamped to [0, 1]. */
  function Progress(currentOdo: real, lastServiceOdo: real, serviceInterval: real): (p: real)
    requires serviceInterval > 0.0
    ensures 0.0 <= p <= 1.0
    ensures currentOdo <= lastServiceOdo ==> p == 0.0
    ensures currentOdo >= lastServiceOdo + serviceInterval ==> p == 1.0
    ensures lastServiceOdo <= currentOdo <= lastServiceOdo + serviceInterval ==>
              p * serviceInterval == currentOdo - lastServiceOdo
  {
    var distanceDriven := currentOdo - lastServiceOdo;
    var ratio := distanceDriven / serviceInterval;
    DivisionSign(distanceDriven, serviceInterval);
    Min(Max(ratio, 0.0), 1.0)
  }

  /** The sign of a quotient by a positive divisor, and where it crosses 1. */
  lemma DivisionSign(d: real, i: real)
    requires i > 0.0
    ensures (d / i) * i == d
    ensures d <= 0.0 <==> d / i <= 0.0
    ensures d >= i <==> d / i >= 1.0
  {
  }

  /** The "% Life Remaining" figure: the unused share of the interval, rounded, never below 0. */
  function PercentRemaining(progress: real): (r: int)
    requires 0.0 <= progress <= 1.0
    ensures 0 <= r <= 100
    ensures r == Round((1.0 - progress) * 100.0)
    ensures progress == 0.0 ==> r == 100
    ensures progress == 1.0 ==> r == 0
  {
    var rounded := Round((1.0 - progress) * 100.0);
    if 0 >= rounded then 0 else rounded
  }

  /** The badge for a percentage: Critical up to 10, Due Soon up to 25, Good above. */
  function Classify(percentRemaining: int): (s: Status)
    ensures s == Critical <==> percentRemaining <= CriticalAtOrBelow
    ensures s == DueSoon <==> CriticalAtOrBelow < percentRemaining <= DueSoonAtOrBelow
    ensures s == Good <==> DueSoonAtOrBelow < percentRemaining
  {
    if percentRemaining <= CriticalAtOrBelow then Critical
    else if percentRemaining <= DueSoonAtOrBelow then DueSoon
    else Good
  }

  /** The label printed on the badge; the three badges have three different labels. */
  function StatusText(s: Status): (text: string)
    ensures text == "Critical" <==> s == Critical
    ensures text == "Due Soon" <==> s == DueSoon
    ensures text == "Good" <==> s == Good
  {
    match s
    case Good => "Good"
    case DueSoon => "Due Soon"
    case Critical => "Critical"
  }

  /** The badge text read off the thresholds: "Critical" up to 10%, "Due Soon"
      above 10% up to 25%, "Good" above 25%. */
  lemma BadgeTextThresholds(percentRemaining: int)
    ensures StatusText(Classify(percentRemaining)) == "Critical" <==> percentRemaining <= CriticalAtOrBelow
    ensures StatusText(Classify(percentRemaining)) == "Due Soon" <==>
              CriticalAtOrBelow < percentRemaining <= DueSoonAtOrBelow
    ensures StatusText(Classify(percentRemaining)) == "Good" <==> DueSoonAtOrBelow < percentRemaining
  {
  }

  /** Width of the filled bar in percent: the unrounded life left, but at least a sliver. */
  function BarWidth(progress: real): (w: real)
    requires 0.0 <= progress <= 1.0
    ensures MinBarWidth <= w <= 100.0
    ensures w >= (1.0 - progress) * 100.0
    ensures (1.0 - progress) * 100.0 >= MinBarWidth ==> w == (1.0 - progress) * 100.0
    ensures (1.0 - progress) * 100.0 < MinBarWidth ==> w == MinBarWidth
  {
    Max(MinBarWidth, (1.0 - progress) * 100.0)
  }

  /** The whole card computation for one set of readings. */
  function Compute(currentOdo: real, lastServiceOdo: real, serviceInterval: real): (c: OilLife)
    requires serviceInterval > 0.0
    ensures 0 <= c.percentRemaining <= 100
    ensures c.status == Classify(c.percentRemaining)
    ensures MinBarWidth <= c.barWidth <= 100.0
  {
    var progress := Progress(currentOdo, lastServiceOdo, serviceInterval);
    var percent := PercentRemaining(progress);
    OilLife(
      NextServiceOdo(lastServiceOdo, serviceInterval),
      RemainingDistance(currentOdo, lastServiceOdo, serviceInterval),
      progress,
      percent,
      Classify(percent),
      BarWidth(progress))
  }

  /** Rank of a badge from best to worst. */
  function Severity(s: Status): nat {
    match s
    case Good => 0
    case DueSoon => 1
    case Critical => 2
  }

  /** Driving further never lowers the progress ratio. */
  lemma ProgressMonotone(c1: real, c2: real, last: real, interval: real)
    requires interval > 0.0
    requires c1 <= c2
    ensures Progress(c1, last, interval) <= Progress(c2, last, interval)
  {
    var d1, d2 := c1 - last, c2 - last;
    assert (d2 - d1) / interval >= 0.0 by {
      DivisionSign(-(d2 - d1), interval);
      assert -(d2 - d1) / interval == -((d2 - d1) / interval);
    }
    assert d2 / interval - d1 / interval == (d2 - d1) / interval;
  }

  /** With the last service and the interval fixed, the percentage left never goes up
      as the odometer goes up. */
  lemma PercentRemainingMonotone(c1: real, c2: real, last: real, interval: real)
    requires interval > 0.0
    requires c1 <= c2
    ensures Compute(c2, last, interval).percentRemaining <= Compute(c1, last, interval).percentRemaining
  {
    ProgressMonotone(c1, c2, last, interval);
  }

  /** ... and so the badge never improves as the odometer goes up. */
  lemma StatusMonotone(c1: real, c2: real, last: real, interval: real)
    requires interval > 0.0
    requires c1 <= c2
    ensures Severity(Compute(c1, last, interval).status) <= Severity(Compute(c2, last, interval).status)
  {
    PercentRemainingMonotone(c1, c2, last, interval);
  }

  /** Right after a service the card shows full life and a Good badge; at or past the
      due reading it shows 0% and Critical. */
  lemma Endpoints(current: real, last: real, interval: real)
    requires interval > 0.0
    ensures current <= last ==>
              Compute(current, last, interval).percentRemaining == 100 &&
              Compute(current, last, interval).status == Good
    ensures current >= NextServiceOdo(last, interval) ==>
              Compute(current, last, interval).percentRemaining == 0 &&
              Compute(current, last, interval).status == Critical &&
              Compute(current, last, interval).barWidth == MinBarWidth
  {
  }
}
