/** The Seed Health Index and Aflatoxin Risk Score computed from the
    three-month seed quality table, and the labels and month-on-month
    changes written out with them (generate_custom_results.py).

    A record is one row of the table. A missing pathogen reading (a NaN
    cell) is `None`. A percentage change whose base is 0 would be a
    non-finite float in numpy; it is `None` here. */
module CustomResults {
  import opened Common

  datatype Record = Record(germination: real, vigour: real, moisture: real, pathogen: Option<real>, ec: real)

  /** `fillna(0)`. */
  function PathogenOrZero(p: Option<real>): real
  {
    if p.Some? then p.value else 0.0
  }

  // ---------------------------------------------------------------------
  // Seed Health Index

  /** The vigour index on a 0-100 scale, taking 5000 as the top of the range. */
  function VigourScore(v: real): (s: real)
    ensures 0.0 <= s <= 100.0
  {
    Clip(v / 5000.0 * 100.0, 0.0, 100.0)
  }

  /** 100 at the optimal moisture of 8%, 10 points off per point of deviation. */
  function MoistureScore(m: real): (s: real)
    ensures 0.0 <= s <= 100.0
  {
    Clip(100.0 - Abs(m - 8.0) * 10.0, 0.0, 100.0)
  }

  /** 100 for a clean lot, 10 points off per percent of infestation. */
  function PathogenScore(p: real): (s: real)
    ensures 0.0 <= s <= 100.0
  {
    Clip(100.0 - p * 10.0, 0.0, 100.0)
  }

  /** The SHI of one record: germination (not clipped) and the three scores, weighted 0.4, 0.3, 0.15, 0.15. */
  function ShiOf(r: Record): (shi: real)
    ensures 0.0 <= r.germination <= 100.0 ==> 0.0 <= shi <= 100.0
  {
    r.germination * 0.4 + VigourScore(r.vigour) * 0.3 + MoistureScore(r.moisture) * 0.15
      + PathogenScore(PathogenOrZero(r.pathogen)) * 0.15
  }

  /** `calculate_seed_health_index(df)`: one SHI per row. */
  function SeedHealthIndex(df: seq<Record>): (shi: seq<real>)
    ensures |shi| == |df|
    ensures forall i :: 0 <= i < |df| && 0.0 <= df[i].germination <= 100.0 ==> 0.0 <= shi[i] <= 100.0
  {
    seq(|df|, i requires 0 <= i < |df| => ShiOf(df[i]))
  }

  // ---------------------------------------------------------------------
  // Aflatoxin Risk Score

  /** Risk grows by 15 points per percent of moisture above 7%. */
  function MoistureRisk(m: real): (s: real)
    ensures 0.0 <= s <= 100.0
  {
    Clip((m - 7.0) * 15.0, 0.0, 100.0)
  }

  function PathogenRisk(p: real): (s: real)
    ensures 0.0 <= s <= 100.0
  {
    Clip(p * 10.0, 0.0, 100.0)
  }

  /** Risk grows by 40 points per dS/m of conductivity above 0.5. */
  function EcRisk(ec: real): (s: real)
    ensures 0.0 <= s <= 100.0
  {
    Clip((ec - 0.5) * 40.0, 0.0, 100.0)
  }

  /** The ARS of one record: three clipped risks weighted 0.5, 0.35, 0.15, so it lies in [0, 100] for every record. */
  function ArsOf(r: Record): (ars: real)
    ensures 0.0 <= ars <= 100.0
  {
    MoistureRisk(r.moisture) * 0.5 + PathogenRisk(PathogenOrZero(r.pathogen)) * 0.35 + EcRisk(r.ec) * 0.15
  }

  /** `calculate_aflatoxin_risk_score(df)`: one ARS per row. */
  function AflatoxinRiskScore(df: seq<Record>): (ars: seq<real>)
    ensures |ars| == |df|
    ensures forall i :: 0 <= i < |df| ==> 0.0 <= ars[i] <= 100.0
  {
    seq(|df|, i requires 0 <= i < |df| => ArsOf(df[i]))
  }

  // ---------------------------------------------------------------------
  // Properties of the two indices

  /** A missing pathogen reading counts as a reading of 0 in both indices. */
  lemma MissingPathogenIsZero(r: Record)
    requires r.pathogen == None
    ensures ShiOf(r) == ShiOf(r.(pathogen := Some(0.0)))
    ensures ArsOf(r) == ArsOf(r.(pathogen := Some(0.0)))
  {
  }

  /** The moisture score peaks at 100 exactly at 8%, is symmetric about 8%,
      and is 0 once moisture is 10 points or more away from 8%. */
  lemma MoistureScoreShape(m: real, x: real)
    ensures MoistureScore(m) == 100.0 <==> m == 8.0
    ensures MoistureScore(8.0 + x) == MoistureScore(8.0 - x)
    ensures Abs(m - 8.0) >= 10.0 ==> MoistureScore(m) == 0.0
  {
  }

  /** Germination is not clipped, so the SHI leaves [0, 100] when germination does. */
  lemma ShiNeedsGerminationInRange()
    ensures ShiOf(Record(300.0, 0.0, 8.0, None, 0.0)) > 100.0
  {
  }

  /** The SHI rises with germination and vigour and falls with pathogen infestation. */
  lemma ShiMonotone(r: Record, g: real, v: real, p: real)
    ensures r.germination <= g ==> ShiOf(r) <= ShiOf(r.(germination := g))
    ensures r.vigour <= v ==> ShiOf(r) <= ShiOf(r.(vigour := v))
    ensures PathogenOrZero(r.pathogen) <= p ==> ShiOf(r.(pathogen := Some(p))) <= ShiOf(r)
  {
    if r.vigour <= v {
      ClipMonotone(r.vigour / 5000.0 * 100.0, v / 5000.0 * 100.0, 0.0, 100.0);
    }
    if PathogenOrZero(r.pathogen) <= p {
      ClipMonotone(100.0 - p * 10.0, 100.0 - PathogenOrZero(r.pathogen) * 10.0, 0.0, 100.0);
    }
  }

  /** The ARS rises with moisture, pathogen infestation and conductivity. */
  lemma ArsMonotone(r: Record, m: real, p: real, ec: real)
    ensures r.moisture <= m ==> ArsOf(r) <= ArsOf(r.(moisture := m))
    ensures PathogenOrZero(r.pathogen) <= p ==> ArsOf(r) <= ArsOf(r.(pathogen := Some(p)))
    ensures r.ec <= ec ==> ArsOf(r) <= ArsOf(r.(ec := ec))
  {
    if r.moisture <= m {
      ClipMonotone((r.moisture - 7.0) * 15.0, (m - 7.0) * 15.0, 0.0, 100.0);
    }
    if PathogenOrZero(r.pathogen) <= p {
      ClipMonotone(PathogenOrZero(r.pathogen) * 10.0, p * 10.0, 0.0, 100.0);
    }
    if r.ec <= ec {
      ClipMonotone((r.ec - 0.5) * 40.0, (ec - 0.5) * 40.0, 0.0, 100.0);
    }
  }

  // ---------------------------------------------------------------------
  // Labels

  datatype QualityStatus = Excellent | Good | Fair
  datatype RiskLevel = Low | Medium | High

  function QualityOf(shi: real): QualityStatus
  {
    if shi > 80.0 then Excellent else if shi > 70.0 then Good else Fair
  }

  function RiskOf(ars: real): RiskLevel
  {
    if ars < 20.0 then Low else if ars < 40.0 then Medium else High
  }

  /** Each status covers one interval of SHI: Excellent above 80, Good in (70, 80], Fair at 70 or below. */
  lemma QualityIntervals(shi: real)
    ensures QualityOf(shi) == Excellent <==> shi > 80.0
    ensures QualityOf(shi) == Good <==> 70.0 < shi <= 80.0
    ensures QualityOf(shi) == Fair <==> shi <= 70.0
  {
  }

  /** Each level covers one interval of ARS: Low below 20, Medium in [20, 40), High at 40 or above. */
  lemma RiskIntervals(ars: real)
    ensures RiskOf(ars) == Low <==> ars < 20.0
    ensures RiskOf(ars) == Medium <==> 20.0 <= ars < 40.0
    ensures RiskOf(ars) == High <==> ars >= 40.0
  {
  }

  /** A higher SHI never gets a worse status, and a higher ARS never a lower risk level. */
  lemma LabelsMonotone(a: real, b: real)
    requires a <= b
    ensures QualityOf(a) == Excellent ==> QualityOf(b) == Excellent
    ensures QualityOf(b) == Fair ==> QualityOf(a) == Fair
    ensures RiskOf(a) == High ==> RiskOf(b) == High
    ensures RiskOf(b) == Low ==> RiskOf(a) == Low
  {
  }

  /** The `Quality_Status` column. */
  function QualityColumn(shi: seq<real>): (q: seq<QualityStatus>)
    ensures |q| == |shi|
    ensures forall i :: 0 <= i < |shi| ==> (q[i] == Excellent <==> shi[i] > 80.0)
  {
    seq(|shi|, i requires 0 <= i < |shi| => QualityOf(shi[i]))
  }

  /** The `Risk_Level` column. */
  function RiskColumn(ars: seq<real>): (l: seq<RiskLevel>)
    ensures |l| == |ars|
    ensures forall i :: 0 <= i < |ars| ==> (l[i] == Low <==> ars[i] < 20.0)
  {
    seq(|ars|, i requires 0 <= i < |ars| => RiskOf(ars[i]))
  }

  // ---------------------------------------------------------------------
  // The Change_% column of the summary table: month 2 against the initial month

  /** `(b - a) / a * 100`, or None where numpy would divide by zero. */
  function PercentChange(a: real, b: real): (c: Option<real>)
    ensures c.None? <==> a == 0.0
  {
    if a == 0.0 then None else Some((b - a) / a * 100.0)
  }

  datatype Changes = Changes(germination: Option<real>, vigour: Option<real>, moisture: Option<real>,
                             pathogen: real, shi: Option<real>, ars: real)

  /** The pathogen row treats month 2 as a change from 0 in percentage
      points times 100, and is 0 for a missing or non-positive reading. */
  function PathogenChange(p: Option<real>): real
  {
    if p.Some? && p.value > 0.0 then (p.value - 0.0) / 1.0 * 100.0 else 0.0
  }

  /** The ARS row is guarded: 0 unless the initial ARS is positive. */
  function ArsChange(ars0: real, ars2: real): real
  {
    if ars0 > 0.0 then (ars2 - ars0) / ars0 * 100.0 else 0.0
  }

  /** The Change_% column, or None when the table has fewer than three rows
      (the `iloc[2]` lookups raise). */
  function SummaryChanges(df: seq<Record>): (c: Option<Changes>)
    ensures c.Some? <==> |df| >= 3
  {
    if |df| < 3 then None
    else
      var shi := SeedHealthIndex(df);
      var ars := AflatoxinRiskScore(df);
      Some(Changes(PercentChange(df[0].germination, df[2].germination),
                   PercentChange(df[0].vigour, df[2].vigour),
                   PercentChange(df[0].moisture, df[2].moisture),
                   PathogenChange(df[2].pathogen),
                   PercentChange(shi[0], shi[2]),
                   ArsChange(ars[0], ars[2])))
  }

  /** The ARS change is always a number: 0 when the initial ARS is 0 (the
      only non-positive value an ARS takes), and otherwise a change of at
      least -100%, because an ARS is never negative. */
  lemma ArsChangeDefined(df: seq<Record>)
    requires |df| >= 3
    ensures var ars0 := ArsOf(df[0]);
            var c := SummaryChanges(df).value.ars;
            (ars0 == 0.0 ==> c == 0.0) && (ars0 > 0.0 ==> c == (ArsOf(df[2]) - ars0) / ars0 * 100.0 && c >= -100.0)
  {
    var ars0, ars2 := ArsOf(df[0]), ArsOf(df[2]);
    assert AflatoxinRiskScore(df)[0] == ars0 && AflatoxinRiskScore(df)[2] == ars2;
    if ars0 > 0.0 {
      RatioAtLeastMinusOne(ars0, ars2);
    }
  }

  lemma RatioAtLeastMinusOne(a: real, b: real)
    requires a > 0.0 && b >= 0.0
    ensures (b - a) / a * 100.0 >= -100.0
  {
    var q := (b - a) / a;
    assert q * a == b - a;
    assert (q + 1.0) * a == b;
    if q < -1.0 {
      assert (q + 1.0) * a < 0.0;
    }
  }

  /** The SHI change is missing exactly when the initial SHI is 0. */
  lemma ShiChangeUndefinedAtZero(df: seq<Record>)
    requires |df| >= 3
    ensures SummaryChanges(df).value.shi.None? <==> ShiOf(df[0]) == 0.0
  {
    assert SeedHealthIndex(df)[0] == ShiOf(df[0]);
  }
}
