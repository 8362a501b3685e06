// src/core/lecture/preparation/reorientation/orientationCiblesConcentriques.ts:
// the rotation a scanned sheet needs, read from the ring counts of the
// targets found in its corners.
module OrientationCibles {
  import opened Wrappers
  import opened Geometrie
  import opened DetectionCibles
  import GenerationCibles

  /** The corners consulted, most reliable first. Corner 4 does not exist and corner 2 is absent. */
  const ORDRE_CONFIANCE_CIBLES: seq<int> := [4, 3, 1, 0]

  /** For rotation i * 90, the target of origin found in each corner. */
  const ARRANGEMENTS_BASE: seq<seq<nat>> := [[0, 1, 2, 3], [1, 3, 0, 2], [3, 2, 1, 0], [2, 0, 3, 1]]

  /** ARRANGEMENTS_ORIENTATION[i]: the ring count seen in each corner when the sheet needs rotation i * 90. */
  function Arrangement(i: nat): (row: seq<int>)
    requires i < 4
    ensures |row| == 4
  {
    seq(4, c requires 0 <= c < 4 => GenerationCibles.CIBLES_NB_RINGS[ARRANGEMENTS_BASE[i][c]])
  }

  /** The four rows of the table, written out. */
  lemma ArrangementTable()
    ensures Arrangement(0) == [4, 2, 3, 1]
    ensures Arrangement(1) == [2, 1, 4, 3]
    ensures Arrangement(2) == [1, 3, 2, 4]
    ensures Arrangement(3) == [3, 4, 1, 2]
  {
    assert GenerationCibles.CIBLES_NB_RINGS == [4, 2, 3, 1];
  }

  /** `arrangement[coinIndex] === rings`; an index past the row reads undefined, which equals no number. */
  predicate Correspond(i: nat, coin: int, rings: int)
    requires i < 4
  {
    0 <= coin < 4 && Arrangement(i)[coin] == rings
  }

  /** In each corner a ring count matches at most one rotation: every column of the table is a permutation. */
  lemma CorrespondUnique(i: nat, j: nat, coin: int, rings: int)
    requires i < 4 && j < 4 && Correspond(i, coin, rings) && Correspond(j, coin, rings)
    ensures i == j
  {
    ArrangementTable();
  }

  /** The first non-null detection reported for a corner, in input order. */
  function PremiereDuCoin(dets: seq<Option<CibleDetection>>, coin: int): (r: Option<CibleDetection>)
    ensures r.Some? ==> r.value.coin == coin && Some(r.value) in dets
    ensures r.None? ==> forall k :: 0 <= k < |dets| && dets[k].Some? ==> dets[k].value.coin != coin
  {
    if |dets| == 0 then None
    else if dets[0].Some? && dets[0].value.coin == coin then dets[0]
    else PremiereDuCoin(dets[1..], coin)
  }

  /** Where the scan of the rotations stands after a corner: confirmed, or the last rotation seen (-1 for none). */
  datatype Etat = Validee(angle: int) | EnCours(precedente: int)

  /** The scan over the rotations i, i+1, .. 3 for one corner's ring count. */
  function Balayer(rings: int, coin: int, i: nat, precedente: int): Etat
    requires i <= 4
    decreases 4 - i
  {
    if i == 4 then EnCours(precedente)
    else if Correspond(i, coin, rings) then
      if precedente == i * 90 then Validee(i * 90) else Balayer(rings, coin, i + 1, i * 90)
    else Balayer(rings, coin, i + 1, precedente)
  }

  /**
   * The rotation confirmed by the corners of `ordre`, given the rotation the
   * previous corner matched: a rotation is returned as soon as a corner
   * matches the rotation the last matching corner matched; -1 if none is.
   */
  function Consensus(dets: seq<Option<CibleDetection>>, ordre: seq<int>, precedente: int): int
  {
    if |ordre| == 0 then -1
    else match PremiereDuCoin(dets, ordre[0])
      case None => Consensus(dets, ordre[1..], precedente)
      case Some(d) =>
        match Balayer(d.rings, ordre[0], 0, precedente)
        case Validee(a) => a
        case EnCours(p) => Consensus(dets, ordre[1..], p)
  }

  /** The orientation the sheet's detections call for. */
  function Orientation(dets: seq<Option<CibleDetection>>): int
  {
    Consensus(dets, ORDRE_CONFIANCE_CIBLES, -1)
  }

  /** The de-duplication loop: keep the first detection of each corner, skip nulls. */
  function Uniques(dets: seq<Option<CibleDetection>>, vus: set<int>): seq<CibleDetection>
  {
    if |dets| == 0 then []
    else match dets[0]
      case None => Uniques(dets[1..], vus)
      case Some(d) => if d.coin in vus then Uniques(dets[1..], vus) else [d] + Uniques(dets[1..], vus + {d.coin})
  }

  /** Array.prototype.find on the unique detections. */
  function Find(u: seq<CibleDetection>, coin: int): Option<CibleDetection>
  {
    if |u| == 0 then None else if u[0].coin == coin then Some(u[0]) else Find(u[1..], coin)
  }

  /** Looking a corner up among the unique detections finds that corner's first detection. */
  lemma {:induction false} FindUniques(dets: seq<Option<CibleDetection>>, vus: set<int>, coin: int)
    ensures Find(Uniques(dets, vus), coin) == if coin in vus then None else PremiereDuCoin(dets, coin)
    decreases |dets|
  {
    if |dets| > 0 {
      match dets[0]
      case None => FindUniques(dets[1..], vus, coin);
      case Some(d) =>
        if d.coin in vus {
          FindUniques(dets[1..], vus, coin);
        } else {
          FindUniques(dets[1..], vus + {d.coin}, coin);
        }
    }
  }

  /** orientationCiblesConcentriques: the rotation to apply in degrees, or -1 when no two corners agree. */
  method OrientationCiblesConcentriques(detectionsCibles: seq<Option<CibleDetection>>) returns (angle: int)
    ensures angle == Orientation(detectionsCibles)
  {
    var detectionsUniques: seq<CibleDetection> := [];
    var coinsVus: set<int> := {};
    var n := 0;
    while n < |detectionsCibles|
      invariant 0 <= n <= |detectionsCibles|
      invariant detectionsUniques + Uniques(detectionsCibles[n..], coinsVus) == Uniques(detectionsCibles, {})
    {
      assert detectionsCibles[n..][1..] == detectionsCibles[n + 1..];
      var detection := detectionsCibles[n];
      if detection.Some? && detection.value.coin !in coinsVus {
        detectionsUniques := detectionsUniques + [detection.value];
        coinsVus := coinsVus + {detection.value.coin};
      }
      n := n + 1;
    }
    assert detectionsCibles[n..] == [];
    assert detectionsUniques == Uniques(detectionsCibles, {});
    var orientationPrecedente := -1;
    var k := 0;
    while k < |ORDRE_CONFIANCE_CIBLES|
      invariant 0 <= k <= |ORDRE_CONFIANCE_CIBLES|
      invariant Consensus(detectionsCibles, ORDRE_CONFIANCE_CIBLES[k..], orientationPrecedente) == Orientation(detectionsCibles)
    {
      var coinIndex := ORDRE_CONFIANCE_CIBLES[k];
      var detection := Find(detectionsUniques, coinIndex);
      FindUniques(detectionsCibles, {}, coinIndex);
      ghost var reste := ORDRE_CONFIANCE_CIBLES[k..];
      assert reste[0] == coinIndex && reste[1..] == ORDRE_CONFIANCE_CIBLES[k + 1..];
      assert detection == PremiereDuCoin(detectionsCibles, coinIndex);
      if detection.Some? {
        ghost var debut := orientationPrecedente;
        var i := 0;
        while i < 4
          invariant 0 <= i <= 4
          invariant Balayer(detection.value.rings, coinIndex, i, orientationPrecedente)
                 == Balayer(detection.value.rings, coinIndex, 0, debut)
        {
          if Correspond(i, coinIndex, detection.value.rings) {
            if orientationPrecedente == i * 90 {
              return i * 90;
            } else {
              orientationPrecedente := i * 90;
            }
          }
          i := i + 1;
        }
      }
      k := k + 1;
    }
    return -1;
  }

  /** How many corners of `ordre` have a first detection whose ring count matches rotation i. */
  function NbCorrespondances(dets: seq<Option<CibleDetection>>, ordre: seq<int>, i: nat): nat
    requires i < 4
  {
    if |ordre| == 0 then 0
    else
      var d := PremiereDuCoin(dets, ordre[0]);
      (if d.Some? && Correspond(i, ordre[0], d.value.rings) then 1 else 0) + NbCorrespondances(dets, ordre[1..], i)
  }

  /** The rotation a corner's ring count matches, if any. */
  function RotationDe(coin: int, rings: int): (r: Option<nat>)
    ensures forall i :: 0 <= i < 4 ==> (Correspond(i, coin, rings) <==> r == Some(i))
    ensures r.Some? ==> r.value < 4
  {
    ArrangementTable();
    if Correspond(0, coin, rings) then Some(0)
    else if Correspond(1, coin, rings) then Some(1)
    else if Correspond(2, coin, rings) then Some(2)
    else if Correspond(3, coin, rings) then Some(3)
    else None
  }

  /** One corner's scan confirms or records the one rotation its ring count matches. */
  lemma BalayerUnique(rings: int, coin: int, precedente: int)
    ensures Balayer(rings, coin, 0, precedente) ==
      match RotationDe(coin, rings)
      case None => EnCours(precedente)
      case Some(i) => if precedente == i * 90 then Validee(i * 90) else EnCours(i * 90)
  {
    ArrangementTable();
  }

  /**
   * An answer other than -1 is a quarter turn i * 90 that at least two
   * corners of the order support (the previous corner counting as one when
   * it already matched it).
   */
  lemma {:induction false} ConsensusJustifie(dets: seq<Option<CibleDetection>>, ordre: seq<int>, precedente: int)
    requires precedente == -1 || (precedente % 90 == 0 && 0 <= precedente < 360)
    ensures var a := Consensus(dets, ordre, precedente);
      a == -1 || (a % 90 == 0 && 0 <= a < 360 &&
                  NbCorrespondances(dets, ordre, a / 90) + (if precedente == a then 1 else 0) >= 2)
    decreases |ordre|
  {
    if |ordre| > 0 {
      var d := PremiereDuCoin(dets, ordre[0]);
      if d.None? {
        ConsensusJustifie(dets, ordre[1..], precedente);
      } else {
        BalayerUnique(d.value.rings, ordre[0], precedente);
        var rot := RotationDe(ordre[0], d.value.rings);
        if rot.None? {
          ConsensusJustifie(dets, ordre[1..], precedente);
        } else if precedente != rot.value * 90 {
          ConsensusJustifie(dets, ordre[1..], rot.value * 90);
        }
      }
    }
  }

  /**
   * The method's answer is -1, 0, 90, 180 or 270, and a quarter turn is only
   * returned when at least two of the consulted corners (3, 1, 0) match it.
   */
  lemma OrientationJustifiee(dets: seq<Option<CibleDetection>>)
    ensures var a := Orientation(dets);
      a in {-1, 0, 90, 180, 270} &&
      (a != -1 ==> NbCorrespondances(dets, ORDRE_CONFIANCE_CIBLES, a / 90) >= 2)
  {
    ConsensusJustifie(dets, ORDRE_CONFIANCE_CIBLES, -1);
  }

  /** A sequence of at most one detection supports any rotation from one corner at most. */
  lemma AuPlusUneCorrespondance(dets: seq<Option<CibleDetection>>, i: nat)
    requires |dets| <= 1 && i < 4
    ensures NbCorrespondances(dets, ORDRE_CONFIANCE_CIBLES, i) <= 1
  {
    var o := ORDRE_CONFIANCE_CIBLES;
    assert o[1..] == [3, 1, 0] && o[1..][1..] == [1, 0] && o[1..][1..][1..] == [0] && o[1..][1..][1..][1..] == [];
    assert PremiereDuCoin(dets, 4).None?;
    var d3, d1, d0 := PremiereDuCoin(dets, 3), PremiereDuCoin(dets, 1), PremiereDuCoin(dets, 0);
    assert d3.Some? ==> d1.None? && d0.None?;
    assert d1.Some? ==> d0.None?;
    var m0 := NbCorrespondances(dets, [0], i);
    assert m0 == (if d0.Some? && Correspond(i, 0, d0.value.rings) then 1 else 0) by {
      var z: seq<int> := [0];
      assert z[0] == 0 && z[1..] == [];
      assert NbCorrespondances(dets, z[1..], i) == 0;
    }
    var m1 := NbCorrespondances(dets, [1, 0], i);
    assert m1 == (if d1.Some? && Correspond(i, 1, d1.value.rings) then 1 else 0) + m0;
    var m3 := NbCorrespondances(dets, [3, 1, 0], i);
    assert m3 == (if d3.Some? && Correspond(i, 3, d3.value.rings) then 1 else 0) + m1;
    assert NbCorrespondances(dets, o, i) == m3;
  }

  /** With detections for at most one corner, no rotation is ever confirmed. */
  lemma UneSeuleCible(dets: seq<Option<CibleDetection>>)
    requires |dets| <= 1
    ensures Orientation(dets) == -1
  {
    OrientationJustifiee(dets);
    forall i | 0 <= i < 4
      ensures NbCorrespondances(dets, ORDRE_CONFIANCE_CIBLES, i) <= 1
    {
      AuPlusUneCorrespondance(dets, i);
    }
  }

  /** When the two most reliable corners (3, then 1) both match rotation i, the answer is i * 90. */
  lemma DeuxCiblesFiables(dets: seq<Option<CibleDetection>>, i: nat)
    requires i < 4
    requires PremiereDuCoin(dets, 3).Some? && Correspond(i, 3, PremiereDuCoin(dets, 3).value.rings)
    requires PremiereDuCoin(dets, 1).Some? && Correspond(i, 1, PremiereDuCoin(dets, 1).value.rings)
    ensures Orientation(dets) == i * 90
  {
    var o := ORDRE_CONFIANCE_CIBLES;
    assert o[1..] == [3, 1, 0] && o[1..][1..] == [1, 0];
    assert PremiereDuCoin(dets, 4).None?;
    BalayerUnique(PremiereDuCoin(dets, 3).value.rings, 3, -1);
    BalayerUnique(PremiereDuCoin(dets, 1).value.rings, 1, i * 90);
    assert Consensus(dets, o, -1) == Consensus(dets, o[1..], -1);
    assert Consensus(dets, o[1..], -1) == Consensus(dets, o[1..][1..], i * 90);
    assert Consensus(dets, o[1..][1..], i * 90) == i * 90;
  }

  /** The bottom-left corner is never consulted: detections there cannot change the answer. */
  lemma {:induction false} CoinBGIgnore(d1: seq<Option<CibleDetection>>, d2: seq<Option<CibleDetection>>, ordre: seq<int>, precedente: int)
    requires forall c :: c in ordre ==> c != 2
    requires forall c :: c in ordre ==> PremiereDuCoin(d1, c) == PremiereDuCoin(d2, c)
    ensures Consensus(d1, ordre, precedente) == Consensus(d2, ordre, precedente)
    decreases |ordre|
  {
    if |ordre| > 0 {
      assert forall c :: c in ordre[1..] ==> c in ordre;
      match PremiereDuCoin(d1, ordre[0])
      case None => CoinBGIgnore(d1, d2, ordre[1..], precedente);
      case Some(d) =>
        match Balayer(d.rings, ordre[0], 0, precedente)
        case Validee(_) =>
        case EnCours(p) => CoinBGIgnore(d1, d2, ordre[1..], p);
    }
  }

  /** The four targets as seen on a sheet that needs rotation i * 90: corner c shows the target ARRANGEMENTS_BASE[i][c]. */
  function DetectionsArrangement(i: nat): (dets: seq<Option<CibleDetection>>)
    requires i < 4
    ensures |dets| == 4
  {
    seq(4, c requires 0 <= c < 4 =>
      var origine := ARRANGEMENTS_BASE[i][c];
      Some(CibleDetection(origine, GenerationCibles.CIBLES_NB_RINGS[origine], Point(0.0, 0.0), 0.0, c)))
  }

  /** Each rotation's arrangement is recognised as that rotation. */
  lemma ArrangementReconnu(i: nat)
    requires i < 4
    ensures Orientation(DetectionsArrangement(i)) == i * 90
  {
    var dets := DetectionsArrangement(i);
    assert PremiereDuCoin(dets, 1) == dets[1] by {
      assert dets[0].value.coin == 0;
      assert PremiereDuCoin(dets[1..], 1) == dets[1];
    }
    assert PremiereDuCoin(dets, 3) == dets[3] by {
      assert dets[0].value.coin == 0 && dets[1].value.coin == 1 && dets[2].value.coin == 2;
      assert dets[1..][1..][1..] == [dets[3]];
    }
    assert Correspond(i, 3, dets[3].value.rings) && Correspond(i, 1, dets[1].value.rings);
    DeuxCiblesFiables(dets, i);
  }
}
