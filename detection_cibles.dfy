// src/core/lecture/preparation/detecterCiblesConcentriques.ts: finding the
// four ring targets in a scan. The image processing (grey conversion, blur,
// adaptive threshold, opening, contour extraction, enclosing circle, area
// and perimeter) is done by OpenCV and enters the model as measured values:
// the contour hierarchy, and per contour its enclosing circle, area and
// perimeter. What is modelled is what the code decides from them.
module DetectionCibles {
  import opened Wrappers
  import opened Erreurs
  import opened Geometrie
  import opened Texte
  import GenerationCibles

  /** Corner index: 0 HG, 1 HD, 2 BG, 3 BD. */
  type Coin = c: int | 0 <= c < 4

  /** CibleConcentriqueDetection. */
  datatype CibleDetection = CibleDetection(id: int, rings: int, centre: Point, rayonPx: real, coin: Coin)

  /** A4, the only entry of dimensionsFormats. */
  const FORMAT_WIDTH_MM: real := 210.0
  const FORMAT_HEIGHT_MM: real := 297.0
  /** Math.PI. */
  const PI: real := 3.141592653589793

  /** Index of the last occurrence of v in s: the key lookup of a Map built from (s[i], i) pairs. */
  function LastIndexOf(s: seq<nat>, v: int): (r: Option<nat>)
    ensures r.Some? ==> r.value < |s| && s[r.value] == v && forall j :: r.value < j < |s| ==> s[j] != v
    ensures r.None? ==> forall j :: 0 <= j < |s| ==> s[j] != v
  {
    if |s| == 0 then None
    else if s[|s| - 1] == v then Some(|s| - 1)
    else LastIndexOf(s[..|s| - 1], v)
  }

  /** RING_ID_LOOKUP.get: the target id (its corner of origin) for a ring count. */
  function RingIdLookup(ringCount: int): Option<nat>
  {
    LastIndexOf(GenerationCibles.CIBLES_NB_RINGS, ringCount)
  }

  /** The lookup inverts CIBLES_NB_RINGS, and knows the four ring counts 1 to 4 only. */
  lemma RingIdLookupInverse(ringCount: int)
    ensures RingIdLookup(ringCount).Some? <==> 1 <= ringCount <= 4
    ensures forall id :: RingIdLookup(ringCount) == Some(id) ==>
      id < 4 && GenerationCibles.CIBLES_NB_RINGS[id] == ringCount
    ensures forall id :: 0 <= id < 4 && GenerationCibles.CIBLES_NB_RINGS[id] == ringCount ==>
      RingIdLookup(ringCount) == Some(id)
  {
    var s := GenerationCibles.CIBLES_NB_RINGS;
    assert s == [4, 2, 3, 1];
    if 1 <= ringCount <= 4 {
      assert s[0] == 4 && s[1] == 2 && s[2] == 3 && s[3] == 1;
    } else {
      assert forall j :: 0 <= j < 4 ==> s[j] != ringCount;
    }
  }

  /**
   * The first-child chain of the contour hierarchy (4 ints per contour:
   * next, previous, first child, parent) starting at `child` reaches -1 after
   * exactly `steps` links, visiting only contours that exist. Any other chain
   * (a cycle, or an index outside the array, which reads undefined) keeps
   * countNestedRings looping for ever.
   */
  predicate ChainEnds(h: seq<int>, child: int, steps: nat)
    decreases steps
  {
    if steps == 0 then child == -1
    else child != -1 && 0 <= child && 4 * child + 2 < |h| && ChainEnds(h, h[4 * child + 2], steps - 1)
  }

  /** A terminating chain has one length. */
  lemma {:induction false} ChainEndsUnique(h: seq<int>, child: int, a: nat, b: nat)
    requires ChainEnds(h, child, a) && ChainEnds(h, child, b)
    ensures a == b
    decreases a
  {
    if a > 0 && b > 0 {
      ChainEndsUnique(h, h[4 * child + 2], a - 1, b - 1);
    }
  }

  /** countNestedRings: the contour itself plus every first-child link below it. */
  method CountNestedRings(index: nat, hierarchy: seq<int>, ghost steps: nat) returns (count: int)
    requires 4 * index + 2 < |hierarchy|
    requires ChainEnds(hierarchy, hierarchy[4 * index + 2], steps)
    ensures count == steps + 1
  {
    count := 1;
    var child := hierarchy[4 * index + 2];
    ghost var left := steps;
    while child != -1
      invariant ChainEnds(hierarchy, child, left)
      invariant count + left == steps + 1
      decreases left
    {
      count := count + 1;
      child := hierarchy[child * 4 + 2];
      left := left - 1;
    }
  }

  /** Result of distanceToNearestEdge. */
  datatype EdgeDistance = EdgeDistance(distance: real, edge: Coin)

  /**
   * distanceToNearestEdge: the distance to the nearest side, each side's
   * distance clamped at 0, and the corner made of the nearer vertical and
   * the nearer horizontal side (ties go left and top).
   */
  function DistanceToNearestEdge(center: Point, width: real, height: real): (r: EdgeDistance)
    ensures r.distance >= 0.0
    ensures r.distance == MinR(MinR(MaxR(0.0, center.x), MaxR(0.0, width - center.x)),
                               MinR(MaxR(0.0, center.y), MaxR(0.0, height - center.y)))
    ensures (r.edge < 2) == (MaxR(0.0, center.y) <= MaxR(0.0, height - center.y))
    ensures (r.edge % 2 == 0) == (MaxR(0.0, center.x) <= MaxR(0.0, width - center.x))
  {
    var distanceLeft := MaxR(0.0, center.x);
    var distanceRight := MaxR(0.0, width - center.x);
    var distanceTop := MaxR(0.0, center.y);
    var distanceBottom := MaxR(0.0, height - center.y);
    var useLeft := distanceLeft <= distanceRight;
    var useTop := distanceTop <= distanceBottom;
    var nearestHorizontal := if useLeft then distanceLeft else distanceRight;
    var nearestVertical := if useTop then distanceTop else distanceBottom;
    var edge: Coin := if useTop then (if useLeft then 0 else 1) else (if useLeft then 2 else 3);
    EdgeDistance(MinR(nearestHorizontal, nearestVertical), edge)
  }

  /** The corner assigned to a candidate (lines 115-124): lower half adds 2, right half adds 1, ties go top-left. */
  function CoinLePlusProche(center: Point, width: real, height: real): (c: Coin)
    ensures (c >= 2) == (height - center.y < center.y)
    ensures (c % 2 == 1) == (width - center.x < center.x)
  {
    var estADroite := width - center.x < center.x;
    var estEnBas := height - center.y < center.y;
    (if estEnBas then 2 else 0) + (if estADroite then 1 else 0)
  }

  /** On an image of non-negative size, the two corner rules of the file always agree. */
  lemma CornerRulesAgree(center: Point, width: real, height: real)
    requires width >= 0.0 && height >= 0.0
    ensures CoinLePlusProche(center, width, height) == DistanceToNearestEdge(center, width, height).edge
  {
  }

  /** Pixels per millimetre: the mean of the horizontal and vertical A4 scales. */
  function PixelsPerMm(width: real, height: real): real
  {
    (width / FORMAT_WIDTH_MM + height / FORMAT_HEIGHT_MM) / 2.0
  }

  /** Expected radius of a target in pixels; the target size defaults to 5 mm. */
  function RayonAttendu(width: real, height: real, tailleCibleMm: Option<real>): real
  {
    ((if tailleCibleMm.Some? then tailleCibleMm.value else 5.0) * PixelsPerMm(width, height)) / 2.0
  }

  /** A finite enclosing radius within [0.2, 1.2] times the expected radius; `None` stands for NaN or infinity. */
  predicate RayonAccepte(rayon: Option<real>, attendu: real)
  {
    rayon.Some? && !(rayon.value < attendu * 0.2) && !(rayon.value > attendu * 1.2)
  }

  /** 4 pi |area| / perimeter^2, a zero perimeter counting as 1. */
  function Circularite(aire: real, perimetre: real): real
  {
    var area := if aire < 0.0 then -aire else aire;
    var p := if perimetre == 0.0 then 1.0 else perimetre;
    (4.0 * PI * area) / (p * p)
  }

  /** What OpenCV measured on one contour. `rayon` is None when the radius is not finite. */
  datatype ContourMesure = ContourMesure(rayon: Option<real>, centre: Point, aire: real, perimetre: real)

  /**
   * The candidate a contour with `rings` nested rings gives, if any: a known
   * ring count, an accepted radius and a circularity of at least 0.35.
   */
  function Candidat(c: ContourMesure, rings: int, width: real, height: real, tailleCibleMm: Option<real>): (r: Option<CibleDetection>)
    ensures r.Some? <==> RingIdLookup(rings).Some? && RayonAccepte(c.rayon, RayonAttendu(width, height, tailleCibleMm))
                         && !(Circularite(c.aire, c.perimetre) < 0.35)
    ensures r.Some? ==> r.value.rings == rings && r.value.centre == c.centre && Some(r.value.rayonPx) == c.rayon
                        && r.value.coin == CoinLePlusProche(c.centre, width, height)
                        && 0 <= r.value.id < 4 && GenerationCibles.CIBLES_NB_RINGS[r.value.id] == rings
  {
    var tagId := RingIdLookup(rings);
    if tagId.None? then None
    else if !RayonAccepte(c.rayon, RayonAttendu(width, height, tailleCibleMm)) then None
    else if Circularite(c.aire, c.perimetre) < 0.35 then None
    else
      RingIdLookupInverse(rings);
      Some(CibleDetection(tagId.value, rings, c.centre, c.rayon.value, CoinLePlusProche(c.centre, width, height)))
  }

  /** The hierarchy is well formed for the contours: 4 ints each, and every outer contour's child chain ends. */
  predicate HierarchieValide(hierarchy: seq<int>, contours: seq<ContourMesure>, chains: seq<nat>)
  {
    |hierarchy| == 4 * |contours| && |chains| == |contours| &&
    forall i :: 0 <= i < |contours| && hierarchy[4 * i + 3] == -1 ==> ChainEnds(hierarchy, hierarchy[4 * i + 2], chains[i])
  }

  /** The candidates of the first n contours, in contour order; only outer contours (no parent) are considered. */
  function Candidats(hierarchy: seq<int>, contours: seq<ContourMesure>, chains: seq<nat>, n: nat,
                     width: real, height: real, tailleCibleMm: Option<real>): seq<CibleDetection>
    requires n <= |contours| && |hierarchy| == 4 * |contours| && |chains| == |contours|
  {
    if n == 0 then []
    else
      var before := Candidats(hierarchy, contours, chains, n - 1, width, height, tailleCibleMm);
      if hierarchy[4 * (n - 1) + 3] != -1 then before
      else match Candidat(contours[n - 1], chains[n - 1] + 1, width, height, tailleCibleMm)
        case None => before
        case Some(d) => before + [d]
  }

  function Distance(d: CibleDetection, width: real, height: real): real
  {
    DistanceToNearestEdge(d.centre, width, height).distance
  }

  /** Keep a candidate in its corner's slot when the slot is empty or it is strictly closer to the edge. */
  function Retenir(best: seq<Option<CibleDetection>>, d: CibleDetection, width: real, height: real): seq<Option<CibleDetection>>
    requires |best| == 4
  {
    if best[d.coin].None? || Distance(d, width, height) < Distance(best[d.coin].value, width, height)
    then best[d.coin := Some(d)] else best
  }

  /** The best candidate of each corner after seeing the candidates in order. */
  function Meilleurs(cands: seq<CibleDetection>, width: real, height: real): (best: seq<Option<CibleDetection>>)
    ensures |best| == 4
  {
    if |cands| == 0 then [None, None, None, None]
    else Retenir(Meilleurs(cands[..|cands| - 1], width, height), cands[|cands| - 1], width, height)
  }

  /**
   * Each corner keeps a candidate of that corner at least as close to the
   * edge as every other candidate of that corner, and is empty only when
   * the corner had no candidate.
   */
  lemma {:induction false} MeilleursMinimaux(cands: seq<CibleDetection>, width: real, height: real, k: Coin)
    ensures Meilleurs(cands, width, height)[k].None? <==> forall c :: c in cands ==> c.coin != k
    ensures Meilleurs(cands, width, height)[k].Some? ==>
      var d := Meilleurs(cands, width, height)[k].value;
      d in cands && d.coin == k &&
      forall c :: c in cands && c.coin == k ==> Distance(d, width, height) <= Distance(c, width, height)
  {
    if |cands| > 0 {
      var init := cands[..|cands| - 1];
      MeilleursMinimaux(init, width, height, k);
      assert cands == init + [cands[|cands| - 1]];
      assert forall c :: c in cands <==> c in init || c == cands[|cands| - 1];
    }
  }

  /** The detected targets, in corner order. */
  function Presentes(best: seq<Option<CibleDetection>>): (r: seq<CibleDetection>)
    ensures |r| <= |best|
    ensures forall d :: d in r <==> Some(d) in best
  {
    if |best| == 0 then []
    else (match best[0] case None => [] case Some(d) => [d]) + Presentes(best[1..])
  }

  predicate SortedById(s: seq<CibleDetection>)
  {
    forall a, b :: 0 <= a < b < |s| ==> s[a].id <= s[b].id
  }

  function InsertById(d: CibleDetection, s: seq<CibleDetection>): (r: seq<CibleDetection>)
    requires SortedById(s)
    ensures |r| == |s| + 1
    ensures forall c :: c in r ==> c == d || c in s
    ensures SortedById(r) && multiset(r) == multiset(s) + multiset{d}
  {
    if |s| == 0 || d.id <= s[0].id then [d] + s
    else
      var tail := s[1..];
      assert s == [s[0]] + tail;
      var rest := InsertById(d, tail);
      assert forall k :: 0 <= k < |rest| ==> s[0].id <= rest[k].id by {
        forall k | 0 <= k < |rest| ensures s[0].id <= rest[k].id {
          assert rest[k] in rest;
          if rest[k] != d {
            var j :| 0 <= j < |tail| && tail[j] == rest[k];
            assert s[j + 1] == rest[k];
          }
        }
      }
      [s[0]] + rest
  }

  /** detections.sort((a, b) => a.id - b.id): ascending ids, same elements. */
  function SortById(s: seq<CibleDetection>): (r: seq<CibleDetection>)
    ensures |r| == |s|
    ensures SortedById(r) && multiset(r) == multiset(s)
  {
    if |s| == 0 then [] else
      assert s == [s[0]] + s[1..];
      InsertById(s[0], SortById(s[1..]))
  }

  /**
   * The contour loop of detecterCiblesConcentriques (lines 93-135), with the
   * per-corner choice stated at line 90: each corner keeps its candidate
   * nearest to the edge, the first one on ties.
   */
  method MeilleursCandidats(width: real, height: real, hierarchy: seq<int>, contours: seq<ContourMesure>,
                            tailleCibleMm: Option<real>, ghost chains: seq<nat>)
    returns (coinMeilleurCandidats: seq<Option<CibleDetection>>)
    requires HierarchieValide(hierarchy, contours, chains)
    ensures coinMeilleurCandidats
         == Meilleurs(Candidats(hierarchy, contours, chains, |contours|, width, height, tailleCibleMm), width, height)
  {
    coinMeilleurCandidats := [None, None, None, None];
    var i := 0;
    while i < |contours|
      invariant 0 <= i <= |contours|
      invariant coinMeilleurCandidats == Meilleurs(Candidats(hierarchy, contours, chains, i, width, height, tailleCibleMm), width, height)
    {
      coinMeilleurCandidats := TraiterContour(width, height, hierarchy, contours, tailleCibleMm, chains, i, coinMeilleurCandidats);
      i := i + 1;
    }
  }

  /** One turn of the contour loop: an outer contour that gives a candidate may take its corner's slot. */
  method TraiterContour(width: real, height: real, hierarchy: seq<int>, contours: seq<ContourMesure>,
                        tailleCibleMm: Option<real>, ghost chains: seq<nat>, i: nat, best: seq<Option<CibleDetection>>)
    returns (next: seq<Option<CibleDetection>>)
    requires i < |contours| && HierarchieValide(hierarchy, contours, chains)
    requires best == Meilleurs(Candidats(hierarchy, contours, chains, i, width, height, tailleCibleMm), width, height)
    ensures next == Meilleurs(Candidats(hierarchy, contours, chains, i + 1, width, height, tailleCibleMm), width, height)
  {
    next := best;
    var parentIdx := hierarchy[4 * i + 3];
    if parentIdx == -1 {
      var ringCount := CountNestedRings(i, hierarchy, chains[i]);
      var candidat := Candidat(contours[i], ringCount, width, height, tailleCibleMm);
      assert candidat == Candidat(contours[i], chains[i] + 1, width, height, tailleCibleMm);
      if candidat.Some? {
        next := Retenir(best, candidat.value, width, height);
      }
    }
    CandidatsStep(hierarchy, contours, chains, i, width, height, tailleCibleMm);
  }

  /** The targets kept for a scan, sorted by id. */
  function Detections(width: real, height: real, hierarchy: seq<int>, contours: seq<ContourMesure>,
                      tailleCibleMm: Option<real>, chains: seq<nat>): seq<CibleDetection>
    requires |hierarchy| == 4 * |contours| && |chains| == |contours|
  {
    SortById(Presentes(Meilleurs(Candidats(hierarchy, contours, chains, |contours|, width, height, tailleCibleMm), width, height)))
  }

  /**
   * detecterCiblesConcentriques: an empty hierarchy is an error; otherwise
   * the kept targets sorted by id, and fewer than three of them
   * (RING_ID_LOOKUP.size - 1) is an error.
   */
  method DetecterCiblesConcentriques(width: real, height: real, hierarchy: seq<int>, contours: seq<ContourMesure>,
                                     tailleCibleMm: Option<real>, ghost chains: seq<nat>)
    returns (r: Result<seq<CibleDetection>>)
    requires HierarchieValide(hierarchy, contours, chains)
    ensures |contours| == 0 ==> r == Fail(ErreurDetectionCiblesConcentriques, "Aucune cible concentrique détectée.")
    ensures |contours| > 0 ==>
      var dets := Detections(width, height, hierarchy, contours, tailleCibleMm, chains);
      r == if |dets| < 3
           then Fail(ErreurDetectionCiblesConcentriques, "Détection des cibles incomplète (" + NatToString(|dets|) + "/4).")
           else Ok(dets)
  {
    if |contours| == 0 {
      return Fail(ErreurDetectionCiblesConcentriques, "Aucune cible concentrique détectée.");
    }
    var coinMeilleurCandidats := MeilleursCandidats(width, height, hierarchy, contours, tailleCibleMm, chains);
    var detections := SortById(Presentes(coinMeilleurCandidats));
    if |detections| < 3 {
      return Fail(ErreurDetectionCiblesConcentriques, "Détection des cibles incomplète (" + NatToString(|detections|) + "/4).");
    }
    return Ok(detections);
  }

  /** One more contour either adds its candidate to the corner slots or leaves them as they were. */
  lemma CandidatsStep(hierarchy: seq<int>, contours: seq<ContourMesure>, chains: seq<nat>, i: nat,
                      width: real, height: real, tailleCibleMm: Option<real>)
    requires i < |contours| && |hierarchy| == 4 * |contours| && |chains| == |contours|
    ensures var before := Meilleurs(Candidats(hierarchy, contours, chains, i, width, height, tailleCibleMm), width, height);
            var c := Candidat(contours[i], chains[i] + 1, width, height, tailleCibleMm);
            Meilleurs(Candidats(hierarchy, contours, chains, i + 1, width, height, tailleCibleMm), width, height)
            == if hierarchy[4 * i + 3] == -1 && c.Some? then Retenir(before, c.value, width, height) else before
  {
    var before := Candidats(hierarchy, contours, chains, i, width, height, tailleCibleMm);
    var c := Candidat(contours[i], chains[i] + 1, width, height, tailleCibleMm);
    if hierarchy[4 * i + 3] == -1 && c.Some? {
      assert Candidats(hierarchy, contours, chains, i + 1, width, height, tailleCibleMm) == before + [c.value];
      assert (before + [c.value])[..|before|] == before;
    }
  }

  /** Every returned target is the one its own corner kept, so no corner is reported twice. */
  lemma {:induction false} DetectionsParCoin(best: seq<Option<CibleDetection>>, d: CibleDetection)
    requires |best| == 4 && forall k :: 0 <= k < 4 && best[k].Some? ==> best[k].value.coin == k
    requires d in SortById(Presentes(best))
    ensures best[d.coin] == Some(d)
  {
    var p := Presentes(best);
    assert d in multiset(SortById(p));
    assert d in multiset(p);
    assert Some(d) in best;
  }

  /** The slots Meilleurs fills hold their own corner's candidate. */
  lemma {:induction false} MeilleursCoins(cands: seq<CibleDetection>, width: real, height: real)
    ensures forall k :: 0 <= k < 4 && Meilleurs(cands, width, height)[k].Some? ==> Meilleurs(cands, width, height)[k].value.coin == k
  {
    if |cands| > 0 {
      MeilleursCoins(cands[..|cands| - 1], width, height);
    }
  }
}
