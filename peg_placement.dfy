/** The peg placement dialog's heuristics: the soil a zone stands for, the peg
    kind picked in the combo box, the recommended angle, pressure and rope
    tension, the score of the current settings with its band, the tips, and
    reading the score back from the score label when the dialog is accepted. */
module PegPlacement {
  import opened Common

  datatype SoilKind = Firm | LooseSand | Unknown

  datatype PegKind = Aluminum | Steel | SandAnchor | GroundScrew

  // ------------------------------------------------------------ site

  /** The soil of the zone picked on the site map: sand is loose, forest and
      land are firm, and any other zone is unknown. */
  function SoilFor(zone: string): (s: SoilKind)
    ensures s == LooseSand <==> zone == "Sand"
    ensures s == Firm <==> zone == "Forest" || zone == "Land"
  {
    if zone == "Sand" then LooseSand
    else if zone == "Forest" || zone == "Land" then Firm
    else Unknown
  }

  /** The site's wind, clamped into [0, 1]. */
  function Wind01(wind: real): (w: real)
    ensures 0.0 <= w <= 1.0
    ensures 0.0 <= wind <= 1.0 ==> w == wind
  {
    ClampReal(wind, 0.0, 1.0)
  }

  // ------------------------------------------------------------ peg kind

  /** The peg kind for a combo box index: the four items in order, and steel for
      any other index. */
  function PegKindAt(index: int): (k: PegKind)
    ensures k == Aluminum <==> index == 0
    ensures k == SandAnchor <==> index == 2
    ensures k == GroundScrew <==> index == 3
    ensures k == Steel <==> index == 1 || index < 0 || index > 3
  {
    if index == 0 then Aluminum
    else if index == 1 then Steel
    else if index == 2 then SandAnchor
    else if index == 3 then GroundScrew
    else Steel
  }

  /** The combo box's item texts, in order. */
  function PegItem(index: int): string
    requires 0 <= index < 4
  {
    ["Αλουμινίου", "Ατσαλένιος", "Sand Anchor (για άμμο)", "Βίδα εδάφους"][index]
  }

  /** The index selected when the dialog opens: the sand anchor on loose sand and
      the steel peg on any other soil. */
  function DefaultPegIndex(soil: SoilKind): (i: int)
    ensures 0 <= i < 4
    ensures PegKindAt(i) == (if soil == LooseSand then SandAnchor else Steel)
  {
    if soil == LooseSand then 2 else 1
  }

  // ----------------------------------------------------- recommendations

  /** The recommended angle in degrees: 30 to 45, always within the angle
      slider's range 20 to 75, and 45 on unknown soil. */
  function RecommendedAngle(sk: SoilKind, pk: PegKind): (r: int)
    ensures 30 <= r <= 45
    ensures sk == Unknown ==> r == 45
  {
    match (sk, pk)
    case (Firm, Aluminum) => 45
    case (Firm, Steel) => 40
    case (Firm, GroundScrew) => 35
    case (Firm, SandAnchor) => 42
    case (LooseSand, SandAnchor) => 30
    case (LooseSand, Aluminum) => 35
    case (LooseSand, Steel) => 33
    case (LooseSand, GroundScrew) => 32
    case _ => 45
  }

  /** The recommended pressure or depth in percent: 60 on unknown soil, and
      every loose-sand value deeper than every firm-soil value. */
  function RecommendedPressure(sk: SoilKind, pk: PegKind): (r: int)
    ensures 45 <= r <= 85
    ensures sk == Unknown ==> r == 60
    ensures sk == Firm ==> r <= 65
    ensures sk == LooseSand ==> 70 <= r
  {
    match (sk, pk)
    case (Firm, Aluminum) => 55
    case (Firm, Steel) => 65
    case (Firm, GroundScrew) => 45
    case (Firm, SandAnchor) => 60
    case (LooseSand, SandAnchor) => 85
    case (LooseSand, Aluminum) => 75
    case (LooseSand, Steel) => 80
    case (LooseSand, GroundScrew) => 70
    case _ => 60
  }

  /** The tension before the wind is taken into account: 50 on unknown soil. */
  function TensionBase(sk: SoilKind, pk: PegKind): (r: int)
    ensures 45 <= r <= 60
    ensures sk == Unknown ==> r == 50
  {
    match (sk, pk)
    case (Firm, Aluminum) => 45
    case (Firm, Steel) => 50
    case (Firm, GroundScrew) => 55
    case (Firm, SandAnchor) => 48
    case (LooseSand, SandAnchor) => 55
    case (LooseSand, Aluminum) => 55
    case (LooseSand, Steel) => 55
    case (LooseSand, GroundScrew) => 60
    case _ => 50
  }

  /** The recommended rope tension in percent: the base plus up to 20 points of
      wind, clamped into [0, 100]. */
  function RecommendedTension(sk: SoilKind, pk: PegKind, wind01: real): (r: int)
    ensures 0 <= r <= 100
    ensures 0.0 <= wind01 <= 1.0 ==> TensionBase(sk, pk) <= r <= TensionBase(sk, pk) + 20
  {
    ClampInt(TensionBase(sk, pk) + Trunc(wind01 * 20.0), 0, 100)
  }

  /** More wind never lowers the recommended tension. */
  lemma TensionMonotoneInWind(sk: SoilKind, pk: PegKind, w1: real, w2: real)
    requires w1 <= w2
    ensures RecommendedTension(sk, pk, w1) <= RecommendedTension(sk, pk, w2)
  {
    TruncMonotone(w1 * 20.0, w2 * 20.0);
  }

  lemma TruncMonotone(x: real, y: real)
    requires x <= y
    ensures Trunc(x) <= Trunc(y)
  {
  }

  // ------------------------------------------------------------ scoring

  /** The angle tolerance in degrees of each peg kind. */
  function AngleTol(pk: PegKind): real
  {
    match pk
    case GroundScrew => 8.0
    case SandAnchor => 10.0
    case _ => 12.0
  }

  /** The pressure tolerance in percent of each peg kind. */
  function PressureTol(pk: PegKind): int
  {
    if pk == GroundScrew then 12 else 15
  }

  const TensionTol: int := 15

  /** A sub-score for a deviation from the recommended value: full marks
      exactly when there is no deviation, nothing exactly when the deviation
      reaches the tolerance, and linear in between. */
  function SubScore(dev: int, tol: real): (r: real)
    requires tol > 0.0
    ensures 0.0 <= r <= 100.0
    ensures r == 100.0 <==> dev == 0
    ensures r == 0.0 <==> AbsInt(dev) as real >= tol
  {
    100.0 * MaxReal(0.0, 1.0 - AbsInt(dev) as real / tol)
  }

  /** A larger deviation never earns a higher sub-score. */
  lemma SubScoreAntitone(d1: int, d2: int, tol: real)
    requires tol > 0.0 && AbsInt(d1) <= AbsInt(d2)
    ensures SubScore(d2, tol) <= SubScore(d1, tol)
  {
    DivMonotone(AbsInt(d1) as real, AbsInt(d2) as real, tol);
  }

  lemma DivMonotone(a: real, b: real, tol: real)
    requires tol > 0.0 && a <= b
    ensures a / tol <= b / tol
  {
    assert b / tol - a / tol == (b - a) / tol;
  }

  /** The adjustment for the peg kind on the soil: +8 for a sand anchor in sand,
      +6 for steel or a ground screw on firm soil, -10 for a sand anchor on firm
      soil, and nothing otherwise. */
  function TypeAdj(sk: SoilKind, pk: PegKind): (r: real)
    ensures r == 8.0 <==> sk == LooseSand && pk == SandAnchor
    ensures r == 6.0 <==> sk == Firm && (pk == Steel || pk == GroundScrew)
    ensures r == -10.0 <==> sk == Firm && pk == SandAnchor
    ensures r == 0.0 || r == 8.0 || r == 6.0 || r == -10.0
  {
    (if sk == LooseSand && pk == SandAnchor then 8.0 else 0.0)
    + (if sk == Firm && (pk == Steel || pk == GroundScrew) then 6.0 else 0.0)
    - (if sk == Firm && pk == SandAnchor then 10.0 else 0.0)
  }

  /** The wind penalty: the angle and tension deviations, each as a fraction of
      its tolerance times 15, scaled by the wind. */
  function WindPenalty(wind01: real, angleDev: int, aTol: real, tensionDev: int, tTol: real): (r: real)
    requires aTol > 0.0 && tTol > 0.0
    ensures 0.0 <= wind01 ==> 0.0 <= r
    ensures angleDev == 0 && tensionDev == 0 ==> r == 0.0
  {
    Scale(wind01, PenaltyBase(angleDev, aTol, tensionDev, tTol))
  }

  function PenaltyBase(angleDev: int, aTol: real, tensionDev: int, tTol: real): (r: real)
    requires aTol > 0.0 && tTol > 0.0
    ensures 0.0 <= r
  {
    AbsInt(angleDev) as real / aTol * 15.0 + AbsInt(tensionDev) as real / tTol * 15.0
  }

  function Scale(w: real, x: real): (r: real)
    ensures 0.0 <= w && 0.0 <= x ==> 0.0 <= r
    ensures x == 0.0 ==> r == 0.0
  {
    w * x
  }

  /** What the settings are scored against: the recommended angle, pressure
      and tension, the angle and pressure tolerances, and the peg adjustment. */
  datatype Target = Target(angle: int, pressure: int, tension: int, angleTol: real, pressureTol: real, adj: real)

  /** The target for a soil, a peg and the wind. */
  function TargetFor(sk: SoilKind, pk: PegKind, wind01: real): (g: Target)
    ensures g.angleTol > 0.0 && g.pressureTol > 0.0
  {
    Target(RecommendedAngle(sk, pk), RecommendedPressure(sk, pk), RecommendedTension(sk, pk, wind01),
           AngleTol(pk), PressureTol(pk) as real, TypeAdj(sk, pk))
  }

  /** The score of settings against a target before rounding: the weighted
      sub-scores less the wind penalty plus the peg adjustment, clamped into
      [0, 100]. */
  function Score(g: Target, wind01: real, angle: int, pressure: int, tension: int): (r: real)
    requires g.angleTol > 0.0 && g.pressureTol > 0.0
    ensures 0.0 <= r <= 100.0
  {
    Combine(SubScore(angle - g.angle, g.angleTol),
            SubScore(pressure - g.pressure, g.pressureTol),
            SubScore(tension - g.tension, TensionTol as real),
            WindPenalty(wind01, angle - g.angle, g.angleTol, tension - g.tension, TensionTol as real),
            g.adj)
  }

  /** The score of the current settings for the soil, the peg and the wind. */
  function Total(sk: SoilKind, pk: PegKind, wind01: real, angle: int, pressure: int, tension: int): (r: real)
    ensures 0.0 <= r <= 100.0
  {
    Score(TargetFor(sk, pk, wind01), wind01, angle, pressure, tension)
  }

  /** Weights 0.45, 0.35 and 0.20 for the angle, pressure and tension scores,
      less the penalty, plus the adjustment, clamped into [0, 100]. */
  function Combine(angleScore: real, pressureScore: real, tensionScore: real, penalty: real, adj: real): (r: real)
    ensures 0.0 <= r <= 100.0
  {
    ClampReal(0.45 * angleScore + 0.35 * pressureScore + 0.20 * tensionScore - penalty + adj, 0.0, 100.0)
  }

  datatype Rating = Excellent | Good | Marginal | Wrong

  /** The band of a score: 80 and above, 60 and above, 40 and above, and below. */
  function Band(total: real): (b: Rating)
    ensures b == Excellent <==> total >= 80.0
    ensures b == Good <==> 60.0 <= total < 80.0
    ensures b == Marginal <==> 40.0 <= total < 60.0
    ensures b == Wrong <==> total < 40.0
  {
    if total >= 80.0 then Excellent
    else if total >= 60.0 then Good
    else if total >= 40.0 then Marginal
    else Wrong
  }

  /** At the recommended settings every sub-score is full and there is no wind
      penalty, so the score is at least 90 (the sand anchor on firm soil loses
      10) and always excellent. */
  lemma {:induction false} RecommendedIsExcellent(sk: SoilKind, pk: PegKind, wind01: real)
    ensures var t := Total(sk, pk, wind01, RecommendedAngle(sk, pk), RecommendedPressure(sk, pk),
                           RecommendedTension(sk, pk, wind01));
      90.0 <= t && Band(t) == Excellent
  {
    var g := TargetFor(sk, pk, wind01);
    assert g.adj >= -10.0;
    assert SubScore(g.angle - g.angle, g.angleTol) == 100.0;
    assert SubScore(g.pressure - g.pressure, g.pressureTol) == 100.0;
    assert SubScore(g.tension - g.tension, TensionTol as real) == 100.0;
    assert WindPenalty(wind01, g.angle - g.angle, g.angleTol, g.tension - g.tension, TensionTol as real) == 0.0;
    assert Total(sk, pk, wind01, g.angle, g.pressure, g.tension) == Combine(100.0, 100.0, 100.0, 0.0, g.adj);
  }

  /** Settings no further from the recommendations, in each of angle, pressure
      and tension, never score lower. */
  lemma TotalAntitone(sk: SoilKind, pk: PegKind, wind01: real,
                      a1: int, p1: int, t1: int, a2: int, p2: int, t2: int)
    requires 0.0 <= wind01
    requires AbsInt(a1 - RecommendedAngle(sk, pk)) <= AbsInt(a2 - RecommendedAngle(sk, pk))
    requires AbsInt(p1 - RecommendedPressure(sk, pk)) <= AbsInt(p2 - RecommendedPressure(sk, pk))
    requires AbsInt(t1 - RecommendedTension(sk, pk, wind01)) <= AbsInt(t2 - RecommendedTension(sk, pk, wind01))
    ensures Total(sk, pk, wind01, a2, p2, t2) <= Total(sk, pk, wind01, a1, p1, t1)
  {
    ScoreAntitone(TargetFor(sk, pk, wind01), wind01, a1, p1, t1, a2, p2, t2);
  }

  /** Against any target, settings no further from it never score lower. */
  lemma {:induction false} ScoreAntitone(g: Target, wind01: real, a1: int, p1: int, t1: int, a2: int, p2: int, t2: int)
    requires g.angleTol > 0.0 && g.pressureTol > 0.0 && 0.0 <= wind01
    requires AbsInt(a1 - g.angle) <= AbsInt(a2 - g.angle)
    requires AbsInt(p1 - g.pressure) <= AbsInt(p2 - g.pressure)
    requires AbsInt(t1 - g.tension) <= AbsInt(t2 - g.tension)
    ensures Score(g, wind01, a2, p2, t2) <= Score(g, wind01, a1, p1, t1)
  {
    var tTol := TensionTol as real;
    SubScoreAntitone(a1 - g.angle, a2 - g.angle, g.angleTol);
    SubScoreAntitone(p1 - g.pressure, p2 - g.pressure, g.pressureTol);
    SubScoreAntitone(t1 - g.tension, t2 - g.tension, tTol);
    WindPenaltyMonotone(wind01, a1 - g.angle, a2 - g.angle, g.angleTol, t1 - g.tension, t2 - g.tension, tTol);
    CombineMonotone(SubScore(a2 - g.angle, g.angleTol), SubScore(p2 - g.pressure, g.pressureTol),
                    SubScore(t2 - g.tension, tTol),
                    WindPenalty(wind01, a2 - g.angle, g.angleTol, t2 - g.tension, tTol),
                    SubScore(a1 - g.angle, g.angleTol), SubScore(p1 - g.pressure, g.pressureTol),
                    SubScore(t1 - g.tension, tTol),
                    WindPenalty(wind01, a1 - g.angle, g.angleTol, t1 - g.tension, tTol), g.adj);
  }

  lemma CombineMonotone(a1: real, p1: real, t1: real, pen1: real, a2: real, p2: real, t2: real, pen2: real, adj: real)
    requires a1 <= a2 && p1 <= p2 && t1 <= t2 && pen2 <= pen1
    ensures Combine(a1, p1, t1, pen1, adj) <= Combine(a2, p2, t2, pen2, adj)
  {
  }

  /** Larger deviations never lower the wind penalty. */
  lemma WindPenaltyMonotone(wind01: real, da1: int, da2: int, aTol: real, dt1: int, dt2: int, tTol: real)
    requires 0.0 <= wind01 && aTol > 0.0 && tTol > 0.0
    requires AbsInt(da1) <= AbsInt(da2) && AbsInt(dt1) <= AbsInt(dt2)
    ensures WindPenalty(wind01, da1, aTol, dt1, tTol) <= WindPenalty(wind01, da2, aTol, dt2, tTol)
  {
    DivMonotone(AbsInt(da1) as real, AbsInt(da2) as real, aTol);
    DivMonotone(AbsInt(dt1) as real, AbsInt(dt2) as real, tTol);
    ScaleMonotone(wind01, PenaltyBase(da1, aTol, dt1, tTol), PenaltyBase(da2, aTol, dt2, tTol));
  }

  lemma ScaleMonotone(w: real, x1: real, x2: real)
    requires 0.0 <= w && x1 <= x2
    ensures Scale(w, x1) <= Scale(w, x2)
  {
    assert Scale(w, x2) - Scale(w, x1) == w * (x2 - x1);
  }

  // --------------------------------------------------------------- tips

  /** The tip lines, with the recommended value each adjustment tip quotes. */
  datatype Tip =
    | Header
    | AdjustAngle(angle: int)
    | AdjustPressure(pressure: int)
    | AdjustTension(tension: int)
    | PreferSandAnchor
    | PreferSteelOrScrew
    | PointAway

  /** The position of each kind of tip in the list. */
  function Rank(t: Tip): nat
  {
    match t
    case Header => 0
    case AdjustAngle(_) => 1
    case AdjustPressure(_) => 2
    case AdjustTension(_) => 3
    case PreferSandAnchor => 4
    case PreferSteelOrScrew => 5
    case PointAway => 6
  }

  /** Each tip comes after every tip of a lower rank. */
  predicate RankSorted(s: seq<Tip>)
  {
    forall i, j :: 0 <= i < j < |s| ==> Rank(s[i]) < Rank(s[j])
  }

  /** The tips for the given settings: the header first and the orientation tip
      last; the angle tip exactly when the angle is more than 6 degrees off; the
      pressure and tension tips exactly when those are more than 10 points off;
      the sand-anchor tip for any other peg in loose sand; the steel-or-screw tip
      for an aluminium peg on firm soil; nothing else, in rank order. */
  predicate TipsFor(s: seq<Tip>, sk: SoilKind, angle: int, recA: int, p: int, recP: int,
                    t: int, recT: int, pk: PegKind)
  {
    && |s| >= 2 && s[0] == Header && s[|s| - 1] == PointAway
    && RankSorted(s)
    && TipsPresent(s, sk, angle, recA, p, recP, t, recT, pk)
  }

  /** Which tips the list holds, for TipsFor. */
  predicate TipsPresent(s: seq<Tip>, sk: SoilKind, angle: int, recA: int, p: int, recP: int,
                        t: int, recT: int, pk: PegKind)
  {
    && (AdjustAngle(recA) in s <==> AbsInt(angle - recA) > 6)
    && (AdjustPressure(recP) in s <==> AbsInt(p - recP) > 10)
    && (AdjustTension(recT) in s <==> AbsInt(t - recT) > 10)
    && (PreferSandAnchor in s <==> sk == LooseSand && pk != SandAnchor)
    && (PreferSteelOrScrew in s <==> sk == Firm && pk == Aluminum)
    && (forall x :: x in s ==>
          x == Header || x == AdjustAngle(recA) || x == AdjustPressure(recP) || x == AdjustTension(recT)
          || x == PreferSandAnchor || x == PreferSteelOrScrew || x == PointAway)
  }

  /** The tips for the given settings are determined by them: any two lists
      that meet TipsFor are the same list. */
  lemma TipsForUnique(s1: seq<Tip>, s2: seq<Tip>, sk: SoilKind, angle: int, recA: int, p: int, recP: int,
                      t: int, recT: int, pk: PegKind)
    requires TipsFor(s1, sk, angle, recA, p, recP, t, recT, pk)
    requires TipsFor(s2, sk, angle, recA, p, recP, t, recT, pk)
    ensures s1 == s2
  {
    forall x
      ensures x in s1 <==> x in s2
    {
      if x == Header {
        assert s1[0] == x && s2[0] == x;
      } else if x == PointAway {
        assert s1[|s1| - 1] == x && s2[|s2| - 1] == x;
      }
    }
    SortedSameMembers(s1, s2);
  }

  /** Two rank-sorted lists with the same members are equal. */
  lemma {:induction false} SortedSameMembers(s1: seq<Tip>, s2: seq<Tip>)
    requires RankSorted(s1) && RankSorted(s2)
    requires forall x :: x in s1 <==> x in s2
    ensures s1 == s2
  {
    assert s1 != [] ==> s1[0] in s2;
    assert s2 != [] ==> s2[0] in s1;
    if s1 != [] {
      var k :| 0 <= k < |s2| && s2[k] == s1[0];
      var m :| 0 <= m < |s1| && s1[m] == s2[0];
      assert Rank(s1[0]) <= Rank(s1[m]);
      assert Rank(s2[0]) <= Rank(s2[k]);
      assert k == 0;
      TailMembers(s1);
      TailMembers(s2);
      SortedSameMembers(s1[1..], s2[1..]);
      assert s1 == [s1[0]] + s1[1..];
      assert s2 == [s2[0]] + s2[1..];
    }
  }

  /** In a sorted list the first tip does not recur: the rest holds exactly the
      other members. */
  lemma TailMembers(s: seq<Tip>)
    requires RankSorted(s) && s != []
    ensures RankSorted(s[1..])
    ensures forall x :: x in s[1..] <==> x in s && x != s[0]
  {
    forall x | x in s[1..]
      ensures x != s[0]
    {
      var i :| 0 <= i < |s[1..]| && s[1..][i] == x;
      assert s[i + 1] == x;
    }
    assert s == [s[0]] + s[1..];
  }

  /** The list with `x` when `c` holds and empty otherwise. */
  function Opt(c: bool, x: Tip): (r: seq<Tip>)
    ensures forall y :: y in r <==> c && y == x
  {
    if c then [x] else []
  }

  /** The tips as a value: the header, each tip whose condition holds in rank
      order, and the orientation tip. */
  function Tips(sk: SoilKind, angle: int, recA: int, p: int, recP: int, t: int, recT: int, pk: PegKind): seq<Tip>
  {
    [Header]
    + Opt(AbsInt(angle - recA) > 6, AdjustAngle(recA))
    + Opt(AbsInt(p - recP) > 10, AdjustPressure(recP))
    + Opt(AbsInt(t - recT) > 10, AdjustTension(recT))
    + Opt(sk == LooseSand && pk != SandAnchor, PreferSandAnchor)
    + Opt(sk == Firm && pk == Aluminum, PreferSteelOrScrew)
    + [PointAway]
  }

  /** Appending a tip of a higher rank, or nothing, keeps a list sorted, and
      no tip of the result ranks above the appended one. */
  lemma AppendOpt(a: seq<Tip>, c: bool, x: Tip)
    requires RankSorted(a) && forall i :: 0 <= i < |a| ==> Rank(a[i]) < Rank(x)
    ensures RankSorted(a + Opt(c, x))
    ensures forall i :: 0 <= i < |a + Opt(c, x)| ==> Rank((a + Opt(c, x))[i]) <= Rank(x)
  {
  }

  /** The tips list meets TipsFor. */
  lemma TipsMeetSpec(sk: SoilKind, angle: int, recA: int, p: int, recP: int, t: int, recT: int, pk: PegKind)
    ensures TipsFor(Tips(sk, angle, recA, p, recP, t, recT, pk), sk, angle, recA, p, recP, t, recT, pk)
  {
    TipsSorted(sk, angle, recA, p, recP, t, recT, pk);
    TipsMembers(sk, angle, recA, p, recP, t, recT, pk);
  }

  lemma TipsSorted(sk: SoilKind, angle: int, recA: int, p: int, recP: int, t: int, recT: int, pk: PegKind)
    ensures RankSorted(Tips(sk, angle, recA, p, recP, t, recT, pk))
  {
    var p0 := [Header];
    AppendOpt(p0, AbsInt(angle - recA) > 6, AdjustAngle(recA));
    var p1 := p0 + Opt(AbsInt(angle - recA) > 6, AdjustAngle(recA));
    AppendOpt(p1, AbsInt(p - recP) > 10, AdjustPressure(recP));
    var p2 := p1 + Opt(AbsInt(p - recP) > 10, AdjustPressure(recP));
    AppendOpt(p2, AbsInt(t - recT) > 10, AdjustTension(recT));
    var p3 := p2 + Opt(AbsInt(t - recT) > 10, AdjustTension(recT));
    AppendOpt(p3, sk == LooseSand && pk != SandAnchor, PreferSandAnchor);
    var p4 := p3 + Opt(sk == LooseSand && pk != SandAnchor, PreferSandAnchor);
    AppendOpt(p4, sk == Firm && pk == Aluminum, PreferSteelOrScrew);
    var p5 := p4 + Opt(sk == Firm && pk == Aluminum, PreferSteelOrScrew);
    AppendOpt(p5, true, PointAway);
    assert p5 + Opt(true, PointAway) == Tips(sk, angle, recA, p, recP, t, recT, pk);
  }

  lemma TipsMembers(sk: SoilKind, angle: int, recA: int, p: int, recP: int, t: int, recT: int, pk: PegKind)
    ensures TipsPresent(Tips(sk, angle, recA, p, recP, t, recT, pk), sk, angle, recA, p, recP, t, recT, pk)
  {
    var o1 := Opt(AbsInt(angle - recA) > 6, AdjustAngle(recA));
    var o2 := Opt(AbsInt(p - recP) > 10, AdjustPressure(recP));
    var o3 := Opt(AbsInt(t - recT) > 10, AdjustTension(recT));
    var o4 := Opt(sk == LooseSand && pk != SandAnchor, PreferSandAnchor);
    var o5 := Opt(sk == Firm && pk == Aluminum, PreferSteelOrScrew);
    var s := Tips(sk, angle, recA, p, recP, t, recT, pk);
    assert forall x :: x in s <==> x == Header || x in o1 || x in o2 || x in o3 || x in o4 || x in o5 || x == PointAway;
  }

  /** BuildTips: the header, then each tip whose condition holds, then the
      orientation tip. */
  method BuildTips(sk: SoilKind, angle: int, recA: int, p: int, recP: int, t: int, recT: int, pk: PegKind)
    returns (s: seq<Tip>)
    ensures s == Tips(sk, angle, recA, p, recP, t, recT, pk)
    ensures TipsFor(s, sk, angle, recA, p, recP, t, recT, pk)
  {
    s := [Header];
    if AbsInt(angle - recA) > 6 { s := s + [AdjustAngle(recA)]; }
    assert s == [Header] + Opt(AbsInt(angle - recA) > 6, AdjustAngle(recA));
    ghost var s1 := s;
    if AbsInt(p - recP) > 10 { s := s + [AdjustPressure(recP)]; }
    assert s == s1 + Opt(AbsInt(p - recP) > 10, AdjustPressure(recP));
    ghost var s2 := s;
    if AbsInt(t - recT) > 10 { s := s + [AdjustTension(recT)]; }
    assert s == s2 + Opt(AbsInt(t - recT) > 10, AdjustTension(recT));
    ghost var s3 := s;
    if sk == LooseSand && pk != SandAnchor { s := s + [PreferSandAnchor]; }
    assert s == s3 + Opt(sk == LooseSand && pk != SandAnchor, PreferSandAnchor);
    ghost var s4 := s;
    if sk == Firm && pk == Aluminum { s := s + [PreferSteelOrScrew]; }
    assert s == s4 + Opt(sk == Firm && pk == Aluminum, PreferSteelOrScrew);
    s := s + [PointAway];
    TipsMeetSpec(sk, angle, recA, p, recP, t, recT, pk);
  }

  // -------------------------------------------------------- score label

  const MinInt32: int := -0x8000_0000
  const MaxInt32: int := 0x7FFF_FFFF

  /** The status word shown after the score. */
  function RatingWord(b: Rating): string
  {
    match b
    case Excellent => "Εξαιρετικό"
    case Good => "Καλό"
    case Marginal => "Οριακό"
    case Wrong => "Λάθος"
  }

  predicate IsDigit(c: char) { '0' <= c <= '9' }

  predicate AllDigits(s: string) { forall i :: 0 <= i < |s| ==> IsDigit(s[i]) }

  function DigitChar(d: int): (c: char)
    requires 0 <= d < 10
    ensures IsDigit(c)
  {
    ('0' as int + d) as char
  }

  /** The value of a string of decimal digits. */
  function DigitsValue(s: string): nat
    requires AllDigits(s)
  {
    if s == [] then 0 else DigitsValue(s[..|s| - 1]) * 10 + (s[|s| - 1] as int - '0' as int)
  }

  /** A natural number in decimal, without leading zeros. */
  function NatText(n: nat): (s: string)
    ensures s != [] && AllDigits(s)
  {
    if n < 10 then [DigitChar(n)] else NatText(n / 10) + [DigitChar(n % 10)]
  }

  /** An integer in decimal, with a minus sign when negative. */
  function IntText(n: int): string
  {
    if n < 0 then "-" + NatText(-n) else NatText(n)
  }

  /** The score label: "Σκορ: <score> – <status>". */
  function ScoreLabel(score: int, b: Rating): string
  {
    "Σκορ:" + " " + (IntText(score) + " " + ("–" + " " + RatingWord(b)))
  }

  /** The white space int.TryParse skips around a number. */
  predicate IsWhite(c: char) { c == ' ' || '\t' <= c <= '\r' }

  function TrimStartWhite(s: string): (r: string)
    ensures |r| <= |s|
  {
    if s != [] && IsWhite(s[0]) then TrimStartWhite(s[1..]) else s
  }

  function TrimEndWhite(s: string): string
  {
    if s != [] && IsWhite(s[|s| - 1]) then TrimEndWhite(s[..|s| - 1]) else s
  }

  /** int.TryParse with the integer number style: optional white space around
      an optional sign and one or more decimal digits, whose value must fit in
      32 bits. */
  function TryParseInt(token: string): (r: Option<int>)
    ensures r.Some? ==> MinInt32 <= r.value <= MaxInt32
  {
    var t := TrimEndWhite(TrimStartWhite(token));
    if t == [] then None
    else
      var negative := t[0] == '-';
      var digits := if t[0] == '-' || t[0] == '+' then t[1..] else t;
      if digits == [] || !AllDigits(digits) then None
      else
        var v: int := if negative then -(DigitsValue(digits) as int) else DigitsValue(digits);
        if MinInt32 <= v <= MaxInt32 then Some(v) else None
  }

  /** The decimal text of a natural number reads back as that number. */
  lemma {:induction false} NatTextValue(n: nat)
    ensures DigitsValue(NatText(n)) == n
  {
    if n >= 10 {
      NatTextValue(n / 10);
      var s := NatText(n);
      assert s[..|s| - 1] == NatText(n / 10);
    }
  }

  /** Every 32-bit integer's text parses back to it. */
  lemma IntTextRoundTrip(n: int)
    requires MinInt32 <= n <= MaxInt32
    ensures TryParseInt(IntText(n)) == Some(n)
  {
    var s := IntText(n);
    if n < 0 {
      NatTextValue(-n);
      assert s[1..] == NatText(-n);
    } else {
      NatTextValue(n);
    }
    assert !IsWhite(s[0]) && !IsWhite(s[|s| - 1]);
    assert TrimStartWhite(s) == s;
    assert TrimEndWhite(s) == s;
  }

  /** String.Split(' '): the pieces between single spaces, empty ones included. */
  function SplitSpaces(s: string): (r: seq<string>)
    ensures |r| >= 1
    ensures forall k :: 0 <= k < |r| ==> ' ' !in r[k]
  {
    if s == [] then [""]
    else if s[0] == ' ' then [""] + SplitSpaces(s[1..])
    else
      var rest := SplitSpaces(s[1..]);
      [[s[0]] + rest[0]] + rest[1..]
  }

  /** The pieces joined back with single spaces. */
  function JoinSpaces(ts: seq<string>): string
  {
    if ts == [] then ""
    else if |ts| == 1 then ts[0]
    else ts[0] + " " + JoinSpaces(ts[1..])
  }

  /** Splitting loses nothing: joining the pieces gives back the text. */
  lemma {:induction false} SplitJoin(s: string)
    ensures JoinSpaces(SplitSpaces(s)) == s
  {
    if s != [] {
      SplitJoin(s[1..]);
      var rest := SplitSpaces(s[1..]);
      if s[0] == ' ' {
        assert SplitSpaces(s) == [""] + rest;
      } else {
        var r := SplitSpaces(s);
        assert r == [[s[0]] + rest[0]] + rest[1..];
        if |rest| == 1 {
          assert JoinSpaces(r) == [s[0]] + rest[0];
        } else {
          assert r[1..] == rest[1..];
          assert JoinSpaces(rest) == rest[0] + " " + JoinSpaces(rest[1..]);
        }
        assert s == [s[0]] + s[1..];
      }
    }
  }

  /** A piece without spaces followed by a space splits off as the first piece. */
  lemma {:induction false} SplitAfterWord(a: string, b: string)
    requires ' ' !in a
    ensures SplitSpaces(a + " " + b) == [a] + SplitSpaces(b)
  {
    var s := a + " " + b;
    if a != [] {
      assert s[1..] == a[1..] + " " + b;
      assert a[0] in a;
      SplitAfterWord(a[1..], b);
      assert a == [a[0]] + a[1..];
    } else {
      assert s == " " + b;
    }
  }

  /** A text without spaces is a single piece. */
  lemma {:induction false} SplitWord(a: string)
    requires ' ' !in a
    ensures SplitSpaces(a) == [a]
  {
    if a != [] {
      assert a[0] in a;
      assert ' ' !in a[1..] by {
        forall i | 0 <= i < |a[1..]|
          ensures a[1..][i] != ' '
        {
          assert a[1..][i] == a[i + 1];
        }
      }
      SplitWord(a[1..]);
      assert a == [a[0]] + a[1..];
    }
  }

  /** The first piece that parses as an integer, in order. */
  function FirstInt(tokens: seq<string>): (r: Option<int>)
    ensures r.None? ==> forall k :: 0 <= k < |tokens| ==> TryParseInt(tokens[k]).None?
    ensures r.Some? ==> exists k :: 0 <= k < |tokens| && TryParseInt(tokens[k]) == r
                                    && forall j :: 0 <= j < k ==> TryParseInt(tokens[j]).None?
  {
    if tokens == [] then None
    else
      var n := TryParseInt(tokens[0]);
      if n.Some? then n
      else
        var r := FirstInt(tokens[1..]);
        assert forall k :: 1 <= k < |tokens| ==> tokens[k] == tokens[1..][k - 1];
        r
  }

  /** ParseScoreFromLabel as a value: the first space-separated integer of the
      text clamped into [0, 100], or 0 when there is none. */
  function ParseScoreSpec(txt: string): (r: int)
    ensures 0 <= r <= 100
    ensures FirstInt(SplitSpaces(txt)).None? ==> r == 0
  {
    match FirstInt(SplitSpaces(txt))
    case None => 0
    case Some(n) => ClampInt(n, 0, 100)
  }

  /** The score label reads back as the score it shows. */
  lemma ScoreLabelRoundTrip(score: int, b: Rating)
    requires 0 <= score <= 100
    ensures ParseScoreSpec(ScoreLabel(score, b)) == score
  {
    var n := IntText(score);
    var w := RatingWord(b);
    ScoreLabelPieces(score, b);
    var tokens := SplitSpaces(ScoreLabel(score, b));
    assert TryParseInt(tokens[0]) == None;
    IntTextRoundTrip(score);
    assert tokens[1..][0] == n;
    assert FirstInt(tokens[1..]) == Some(score);
    assert FirstInt(tokens) == Some(score);
  }

  /** The score label splits into the label word, the score, the dash and the
      status word. */
  lemma ScoreLabelPieces(score: int, b: Rating)
    requires 0 <= score
    ensures SplitSpaces(ScoreLabel(score, b)) == ["Σκορ:", IntText(score), "–", RatingWord(b)]
  {
    var n := IntText(score);
    var w := RatingWord(b);
    NoSpaceInDigits(n);
    RatingWordNoSpace(b);
    SplitWord(w);
    SplitAfterWord("–", w);
    SplitAfterWord(n, "–" + " " + w);
    SplitAfterWord("Σκορ:", n + " " + ("–" + " " + w));
  }

  lemma NoSpaceInDigits(s: string)
    requires AllDigits(s)
    ensures ' ' !in s
  {
    forall i | 0 <= i < |s|
      ensures s[i] != ' '
    {
      assert IsDigit(s[i]);
    }
  }

  lemma RatingWordNoSpace(b: Rating)
    ensures ' ' !in RatingWord(b)
  {
  }

  /** ParseScoreFromLabel: walks the pieces and returns at the first integer. */
  method ParseScoreFromLabel(txt: string) returns (score: int)
    ensures score == ParseScoreSpec(txt)
  {
    var tokens := SplitSpaces(txt);
    var i := 0;
    while i < |tokens|
      invariant 0 <= i <= |tokens|
      invariant FirstInt(tokens) == FirstInt(tokens[i..])
    {
      assert tokens[i..][1..] == tokens[i + 1..];
      var n := TryParseInt(tokens[i]);
      if n.Some? {
        return ClampInt(n.value, 0, 100);
      }
      i := i + 1;
    }
    return 0;
  }

  // -------------------------------------------------------------- dialog

  /** PegPlacementConfig: what the dialog returns when accepted. */
  datatype PegConfig = PegConfig(angle: int, pressure: int, tension: int, pegType: string, score: int)

  /** The dialog's state: the site's soil and wind, the combo box index, the
      three sliders, the score label and tips it shows, and its result. */
  class PegPlacementForm {
    const soil: SoilKind
    const wind01: real
    var pegIndex: int
    var angle: int
    var pressure: int
    var tension: int
    var scoreLabel: string
    var tips: seq<Tip>
    var result: Option<PegConfig>

    /** The combo box holds one of its four items and each slider a value in its
        range: angle 20 to 75, pressure and tension 0 to 100. */
    predicate Valid()
      reads this
    {
      0 <= pegIndex < 4 && 20 <= angle <= 75 && 0 <= pressure <= 100 && 0 <= tension <= 100
      && 0.0 <= wind01 <= 1.0
    }

    function Peg(): PegKind
      reads this
    {
      PegKindAt(pegIndex)
    }

    /** The sliders stand at the recommendations for the soil and peg. */
    predicate AtRecommended()
      reads this
    {
      angle == RecommendedAngle(soil, Peg()) && pressure == RecommendedPressure(soil, Peg())
      && tension == RecommendedTension(soil, Peg(), wind01)
    }

    /** The score label and the tips show the evaluation of the current sliders:
        the truncated score and its band, and the tips for the deviations. */
    predicate Shows()
      reads this
    {
      var g := TargetFor(soil, Peg(), wind01);
      var total := Score(g, wind01, angle, pressure, tension);
      && scoreLabel == ScoreLabel(Trunc(total), Band(total))
      && tips == Tips(soil, angle, g.angle, pressure, g.pressure, tension, g.tension, Peg())
    }

    /** Opening the dialog for a site: its soil and clamped wind, the default peg
        for the soil, the sliders at the recommendations, and the evaluation
        shown; nothing is returned yet. */
    constructor (zoneName: string, wind: real)
      ensures soil == SoilFor(zoneName) && wind01 == Wind01(wind)
      ensures pegIndex == DefaultPegIndex(soil)
      ensures Valid() && AtRecommended() && Shows() && result == None
    {
      var sk := SoilFor(zoneName);
      soil := sk;
      wind01 := Wind01(wind);
      pegIndex := DefaultPegIndex(sk);
      result := None;
      scoreLabel := "";
      tips := [];
      new;
      ApplyRecommended();
    }

    /** Re-evaluates the sliders and updates the score label and the tips. */
    method EvaluateAndRedraw()
      modifies this`scoreLabel, this`tips
      ensures Shows()
    {
      var pk := Peg();
      var recA := RecommendedAngle(soil, pk);
      var recP := RecommendedPressure(soil, pk);
      var recT := RecommendedTension(soil, pk, wind01);
      var total := Total(soil, pk, wind01, angle, pressure, tension);
      scoreLabel := ScoreLabel(Trunc(total), Band(total));
      tips := BuildTips(soil, angle, recA, pressure, recP, tension, recT, pk);
    }

    /** Choosing a peg in the combo box: the sliders move to its
        recommendations and the evaluation is shown again. */
    method SelectPeg(index: int)
      requires Valid() && 0 <= index < 4
      modifies this
      ensures pegIndex == index && AtRecommended() && Valid() && Shows()
      ensures result == old(result)
    {
      pegIndex := index;
      ApplyRecommended();
    }

    /** The automatic-setting button: the sliders move to the recommendations
        for the current peg and the evaluation is shown again. */
    method ApplyRecommended()
      requires 0 <= pegIndex < 4 && 0.0 <= wind01 <= 1.0
      modifies this`angle, this`pressure, this`tension, this`scoreLabel, this`tips
      ensures AtRecommended() && Valid() && Shows()
    {
      angle := RecommendedAngle(soil, Peg());
      pressure := RecommendedPressure(soil, Peg());
      tension := RecommendedTension(soil, Peg(), wind01);
      EvaluateAndRedraw();
    }

    /** Moving the sliders: the new values are shown with their evaluation. */
    method Scroll(newAngle: int, newPressure: int, newTension: int)
      requires Valid()
      requires 20 <= newAngle <= 75 && 0 <= newPressure <= 100 && 0 <= newTension <= 100
      modifies this`angle, this`pressure, this`tension, this`scoreLabel, this`tips
      ensures angle == newAngle && pressure == newPressure && tension == newTension
      ensures Valid() && Shows()
    {
      angle := newAngle;
      pressure := newPressure;
      tension := newTension;
      EvaluateAndRedraw();
    }

    /** Accepting the dialog: the sliders, the selected item's text and the score
        read back from the score label, which is the score shown. */
    method Accept()
      requires Valid() && Shows()
      modifies this`result
      ensures result == Some(PegConfig(angle, pressure, tension, PegItem(pegIndex),
                                       Trunc(Total(soil, Peg(), wind01, angle, pressure, tension))))
    {
      var score := ParseScoreFromLabel(scoreLabel);
      ghost var total := Total(soil, Peg(), wind01, angle, pressure, tension);
      ScoreLabelRoundTrip(Trunc(total), Band(total));
      result := Some(PegConfig(angle, pressure, tension, PegItem(pegIndex), score));
    }
  }
}
