// src/core/lecture/preparation/reorientation/orientationAprilTags.ts: the
// rotation a scan needs, read from which AprilTag sits nearest each corner.
module OrientationAprilTags {
  import opened Wrappers
  import opened Geometrie
  import opened Erreurs
  import opened AprilTags
  import OrientationCibles

  /**
   * A tag and how far it is from a corner. The distance kept is the square
   * of the Euclidean one: the code only compares distances, and the square
   * root preserves their order.
   */
  datatype TagDistance = TagDistance(id: int, distance: real)

  /** The corners HG, HD, BG, BD of a width x height scan. */
  function Coins(width: real, height: real): (c: seq<Point>)
    ensures |c| == 4
  {
    [Point(0.0, 0.0), Point(width, 0.0), Point(0.0, height), Point(width, height)]
  }

  /** `dx * dx + dy * dy` between a tag's centre and a corner. */
  function Distance(d: TagDetection, coin: Point): real
  {
    (d.center.x - coin.x) * (d.center.x - coin.x) + (d.center.y - coin.y) * (d.center.y - coin.y)
  }

  /**
   * The inner scan for one corner: the index of the detection the running
   * best ends on. It is nearest, and no earlier detection is as near.
   */
  function Indice(dets: seq<TagDetection>, coin: Point): (k: nat)
    requires |dets| > 0
    ensures k < |dets|
    ensures forall j :: 0 <= j < |dets| ==> Distance(dets[k], coin) <= Distance(dets[j], coin)
    ensures forall j :: 0 <= j < k ==> Distance(dets[k], coin) < Distance(dets[j], coin)
  {
    if |dets| == 1 then 0
    else
      var k := Indice(dets[..|dets| - 1], coin);
      assert forall j :: 0 <= j < |dets| - 1 ==> dets[..|dets| - 1][j] == dets[j];
      if Distance(dets[|dets| - 1], coin) < Distance(dets[k], coin) then |dets| - 1 else k
  }

  /** The nearest tag to a corner, first on ties. */
  function PlusProche(dets: seq<TagDetection>, coin: Point): TagDistance
    requires |dets| > 0
  {
    var k := Indice(dets, coin);
    TagDistance(dets[k].id, Distance(dets[k], coin))
  }

  /** tagParCoin after the first loop: empty without detections, otherwise the nearest tag of each corner. */
  function TagsParCoin(dets: seq<TagDetection>, width: real, height: real): (t: seq<Option<TagDistance>>)
    ensures |dets| == 0 ==> t == []
    ensures |dets| > 0 ==> |t| == 4 && forall i :: 0 <= i < 4 ==> t[i] == Some(PlusProche(dets, Coins(width, height)[i]))
  {
    if |dets| == 0 then []
    else seq(4, i requires 0 <= i < 4 => Some(PlusProche(dets, Coins(width, height)[i])))
  }

  /** `tagParCoin[i] = v` on a JavaScript array that holds i entries or more. */
  function Ecrire(a: seq<Option<TagDistance>>, i: nat, v: TagDistance): (r: seq<Option<TagDistance>>)
    requires i <= |a|
    ensures |r| == if i == |a| then |a| + 1 else |a|
    ensures r[i] == Some(v) && forall j :: 0 <= j < |a| && j != i ==> r[j] == a[j]
  {
    if i == |a| then a + [Some(v)] else a[i := Some(v)]
  }

  /** The running best of one corner's inner loop. */
  method PlusProcheDuCoin(detections: seq<TagDetection>, coin: Point, tagParCoin: seq<Option<TagDistance>>, i: nat)
    returns (r: seq<Option<TagDistance>>)
    requires |detections| > 0 ==> |tagParCoin| == i
    ensures |detections| == 0 ==> r == tagParCoin
    ensures |detections| > 0 ==> r == tagParCoin + [Some(PlusProche(detections, coin))]
  {
    r := tagParCoin;
    for n := 0 to |detections|
      invariant n == 0 ==> r == tagParCoin
      invariant n > 0 ==> r == tagParCoin + [Some(PlusProche(detections[..n], coin))]
    {
      var detection := detections[n];
      var distance := Distance(detection, coin);
      assert detections[..n + 1][..n] == detections[..n] && detections[..n + 1][n] == detection;
      if i == |r| || distance < r[i].value.distance {
        r := Ecrire(r, i, TagDistance(detection.id, distance));
      }
    }
    assert detections[..|detections|] == detections;
  }

  /** The first loop: for each corner in turn, its nearest tag. */
  method TagsLesPlusProches(detections: seq<TagDetection>, width: real, height: real)
    returns (tagParCoin: seq<Option<TagDistance>>)
    ensures tagParCoin == TagsParCoin(detections, width, height)
  {
    var coins := Coins(width, height);
    tagParCoin := [];
    for i := 0 to 4
      invariant |detections| == 0 ==> tagParCoin == []
      invariant |detections| > 0 ==>
        |tagParCoin| == i && forall c :: 0 <= c < i ==> tagParCoin[c] == Some(PlusProche(detections, coins[c]))
    {
      tagParCoin := PlusProcheDuCoin(detections, coins[i], tagParCoin, i);
    }
  }

  /** Two slots holding the same tag id. */
  predicate MemeTag(a: Option<TagDistance>, b: Option<TagDistance>)
  {
    a.Some? && b.Some? && a.value.id == b.value.id
  }

  /**
   * Slot q survives de-duplication: it holds a tag strictly nearer than any
   * earlier slot with the same id, and no farther than any later one.
   */
  predicate Garde(t: seq<Option<TagDistance>>, q: int)
    requires 0 <= q < |t|
  {
    t[q].Some? &&
    (forall r :: 0 <= r < q && MemeTag(t[r], t[q]) ==> t[q].value.distance < t[r].value.distance) &&
    (forall r :: q < r < |t| && MemeTag(t[q], t[r]) ==> t[q].value.distance <= t[r].value.distance)
  }

  /** The slots after de-duplication. */
  function Dedoublonne(t: seq<Option<TagDistance>>): (r: seq<Option<TagDistance>>)
    ensures |r| == |t|
    ensures forall q :: 0 <= q < |t| ==> r[q] == if Garde(t, q) then t[q] else None
  {
    seq(|t|, q requires 0 <= q < |t| => if Garde(t, q) then t[q] else None)
  }

  /** Slot q is still set once slots 0 .. i-1 have been compared with it. */
  predicate Survit(t: seq<Option<TagDistance>>, q: int, i: int)
    requires 0 <= q < |t|
  {
    t[q].Some? && forall p :: 0 <= p < i && p < q && MemeTag(t[p], t[q]) ==> t[q].value.distance < t[p].value.distance
  }

  /** A slot knocked out by an earlier one has a same-id slot at least as near before it. */
  lemma Elimine(t: seq<Option<TagDistance>>, q: int, i: int) returns (p: int)
    requires 0 <= q < |t| && t[q].Some? && !Survit(t, q, i)
    ensures 0 <= p < i && p < q && MemeTag(t[p], t[q]) && t[p].value.distance <= t[q].value.distance
  {
    p :| 0 <= p < i && p < q && MemeTag(t[p], t[q]) && !(t[q].value.distance < t[p].value.distance);
  }

  /** Comparing with slot i adds one condition to a later slot's survival. */
  lemma SurvitPas(t: seq<Option<TagDistance>>, q: int, i: int)
    requires 0 <= i < q < |t|
    ensures Survit(t, q, i + 1) <==>
      Survit(t, q, i) && (MemeTag(t[i], t[q]) ==> t[q].value.distance < t[i].value.distance)
  {
  }

  /** A slot already knocked out removes nothing more: every later survivor is nearer than it. */
  lemma ElimineSansEffet(t: seq<Option<TagDistance>>, i: int)
    requires 0 <= i < |t| && !Survit(t, i, i)
    ensures !Garde(t, i)
    ensures forall q :: i < q < |t| ==> (Survit(t, q, i + 1) <==> Survit(t, q, i))
  {
    forall q | i < q < |t| && Survit(t, q, i) && MemeTag(t[i], t[q])
      ensures t[q].value.distance < t[i].value.distance
    {
      var p := Elimine(t, i, i);
    }
    forall q | i < q < |t|
      ensures Survit(t, q, i + 1) <==> Survit(t, q, i)
    {
      SurvitPas(t, q, i);
    }
  }

  /** A slot still set is kept exactly when no later survivor with its id is strictly nearer. */
  lemma GardeSurvivant(t: seq<Option<TagDistance>>, i: int)
    requires 0 <= i < |t| && Survit(t, i, i)
    ensures Garde(t, i) <==> forall q :: i < q < |t| && Survit(t, q, i) && MemeTag(t[i], t[q]) ==>
      t[i].value.distance <= t[q].value.distance
  {
    forall r | i < r < |t| && MemeTag(t[i], t[r]) && !Survit(t, r, i)
      ensures t[i].value.distance < t[r].value.distance
    {
      var p := Elimine(t, r, i);
    }
  }

  /** No survivor with slot i's id among slots i + 1 .. j - 1 is strictly nearer than it. */
  predicate GardeJusque(t: seq<Option<TagDistance>>, i: int, j: int)
    requires 0 <= i < |t| && t[i].Some? && j <= |t|
  {
    forall q :: i < q < j && Survit(t, q, i) && MemeTag(t[i], t[q]) ==> t[i].value.distance <= t[q].value.distance
  }

  /** GardeJusque one slot further on. */
  lemma GardeJusquePas(t: seq<Option<TagDistance>>, i: int, j: int)
    requires 0 <= i < j < |t| && t[i].Some?
    ensures GardeJusque(t, i, j + 1) <==>
      GardeJusque(t, i, j) && (Survit(t, j, i) && MemeTag(t[i], t[j]) ==> t[i].value.distance <= t[j].value.distance)
  {
  }

  /** The inner loop of the de-duplication, for a slot i that is still set. */
  method ComparerSuivants(orig: seq<Option<TagDistance>>, tags0: seq<Option<TagDistance>>, i: nat)
    returns (tags: seq<Option<TagDistance>>)
    requires i < |orig| && |tags0| == |orig| && Survit(orig, i, i)
    requires forall q :: i <= q < |orig| ==> tags0[q] == (if Survit(orig, q, i) then orig[q] else None)
    ensures |tags| == |orig| && tags[..i] == tags0[..i]
    ensures tags[i] == if Garde(orig, i) then orig[i] else None
    ensures forall q :: i < q < |orig| ==> tags[q] == (if Survit(orig, q, i + 1) then orig[q] else None)
  {
    tags := tags0;
    assert tags[i] == orig[i];
    var tag := tags[i].value;
    for j := i + 1 to |orig|
      invariant |tags| == |orig| && tags[..i] == tags0[..i]
      invariant forall q :: i < q < j ==> tags[q] == (if Survit(orig, q, i + 1) then orig[q] else None)
      invariant forall q :: j <= q < |orig| ==> tags[q] == tags0[q]
      invariant tags[i] == if GardeJusque(orig, i, j) then orig[i] else None
    {
      SurvitPas(orig, j, i);
      GardeJusquePas(orig, i, j);
      ghost var avant := tags;
      var tagCompare := tags[j];
      assert tagCompare == if Survit(orig, j, i) then orig[j] else None;
      if tagCompare.Some? && tag.id == tagCompare.value.id {
        if tag.distance <= tagCompare.value.distance {
          tags := tags[j := None];
        } else {
          tags := tags[i := None];
        }
      }
      assert tags[j] == if Survit(orig, j, i + 1) then orig[j] else None;
      assert forall q :: 0 <= q < |orig| && q != i && q != j ==> tags[q] == avant[q];
      assert tags[..i] == avant[..i];
    }
    GardeSurvivant(orig, i);
    assert Garde(orig, i) <==> GardeJusque(orig, i, |orig|);
  }

  /** The de-duplication loop: of the slots sharing an id, the nearest is kept, the earliest on ties. */
  method Dedoublonner(orig: seq<Option<TagDistance>>) returns (tags: seq<Option<TagDistance>>)
    ensures tags == Dedoublonne(orig)
  {
    tags := orig;
    for i := 0 to |orig|
      invariant |tags| == |orig|
      invariant forall p :: 0 <= p < i ==> tags[p] == (if Garde(orig, p) then orig[p] else None)
      invariant forall q :: i <= q < |orig| ==> tags[q] == (if Survit(orig, q, i) then orig[q] else None)
    {
      var tag := tags[i];
      if tag.None? {
        ElimineSansEffet(orig, i);
        continue;
      }
      ghost var avant := tags;
      tags := ComparerSuivants(orig, tags, i);
      assert forall p :: 0 <= p < i ==> tags[p] == tags[..i][p] == avant[p];
    }
  }

  /** After de-duplication no tag id is held by two corners. */
  lemma DedoublonneSansDoublon(t: seq<Option<TagDistance>>, p: int, q: int)
    requires 0 <= p < q < |t|
    ensures !MemeTag(Dedoublonne(t)[p], Dedoublonne(t)[q])
  {
  }

  /** Of the slots holding `id` among the first n, the first nearest one. */
  lemma {:induction false} PremierMinimum(t: seq<Option<TagDistance>>, id: int, n: nat, s: nat) returns (r: nat)
    requires s < n <= |t| && t[s].Some? && t[s].value.id == id
    ensures r < n && t[r].Some? && t[r].value.id == id
    ensures forall j :: 0 <= j < r && MemeTag(t[j], t[r]) ==> t[r].value.distance < t[j].value.distance
    ensures forall j :: r < j < n && MemeTag(t[r], t[j]) ==> t[r].value.distance <= t[j].value.distance
    decreases n
  {
    if n == s + 1 && forall j :: 0 <= j < s ==> !(t[j].Some? && t[j].value.id == id) {
      r := s;
    } else if forall j :: 0 <= j < n - 1 ==> !(t[j].Some? && t[j].value.id == id) {
      r := n - 1;
    } else {
      var s2 :| 0 <= s2 < n - 1 && t[s2].Some? && t[s2].value.id == id;
      var r0 := PremierMinimum(t, id, n - 1, s2);
      if t[n - 1].Some? && t[n - 1].value.id == id && t[n - 1].value.distance < t[r0].value.distance {
        r := n - 1;
      } else {
        r := r0;
      }
    }
  }

  /** Every tag id found at some corner is still held by exactly one corner after de-duplication: its nearest, the first on ties. */
  lemma DedoublonneConserve(t: seq<Option<TagDistance>>, s: nat) returns (r: nat)
    requires s < |t| && t[s].Some?
    ensures r < |t| && Dedoublonne(t)[r] == t[r] && MemeTag(t[r], t[s])
    ensures forall j :: 0 <= j < |t| && MemeTag(t[j], t[s]) ==> t[r].value.distance <= t[j].value.distance
  {
    r := PremierMinimum(t, t[s].value.id, |t|, s);
    assert Garde(t, r);
    forall j | 0 <= j < |t| && MemeTag(t[j], t[s])
      ensures t[r].value.distance <= t[j].value.distance
    {
      if j < r {
        assert MemeTag(t[j], t[r]);
      } else if j > r {
        assert MemeTag(t[r], t[j]);
      }
    }
  }

  /** ARRANGEMENTS_ORIENTATION[o]: the tag id expected in each corner for rotation o * 90. */
  function Arrangement(ids: seq<int>, o: nat): (row: seq<int>)
    requires |ids| == 4 && o < 4
    ensures |row| == 4
  {
    seq(4, c requires 0 <= c < 4 => ids[OrientationCibles.ARRANGEMENTS_BASE[o][c]])
  }

  /** Some corner holds the tag rotation o expects there. */
  predicate Correspond(tags: seq<Option<TagDistance>>, ids: seq<int>, o: nat)
    requires |ids| == 4 && o < 4
  {
    exists i :: 0 <= i < |tags| && i < 4 && tags[i].Some? && tags[i].value.id == Arrangement(ids, o)[i]
  }

  /** The rotation the scan settles on among 0 .. o-1: the highest with a matching corner, or none. */
  function TrouveeAvant(tags: seq<Option<TagDistance>>, ids: seq<int>, o: nat): (r: Option<nat>)
    requires |ids| == 4 && o <= 4
    ensures r.Some? ==>
      r.value < o && Correspond(tags, ids, r.value) && forall o' :: r.value < o' < o ==> !Correspond(tags, ids, o')
    ensures r.None? <==> forall o' :: 0 <= o' < o ==> !Correspond(tags, ids, o')
  {
    if o == 0 then None
    else if Correspond(tags, ids, o - 1) then Some(o - 1)
    else TrouveeAvant(tags, ids, o - 1)
  }

  /** The rotation the whole scan settles on. */
  function Trouvee(tags: seq<Option<TagDistance>>, ids: seq<int>): Option<nat>
    requires |ids| == 4
  {
    TrouveeAvant(tags, ids, 4)
  }

  /**
   * The arrangement loop: for each rotation in turn, any matching corner
   * records it; the `break` on a second match only leaves the corner loop.
   */
  method ChercherArrangement(tags: seq<Option<TagDistance>>, ids: seq<int>) returns (orientationTrouvee: Option<nat>)
    requires |ids| == 4 && |tags| <= 4
    ensures orientationTrouvee == Trouvee(tags, ids)
  {
    orientationTrouvee := None;
    for orientation := 0 to 4
      invariant orientationTrouvee == TrouveeAvant(tags, ids, orientation)
    {
      var arrangementAttendu := Arrangement(ids, orientation);
      ghost var avant := orientationTrouvee;
      var i := 0;
      while i < |tags|
        invariant 0 <= i <= |tags|
        invariant orientationTrouvee == if exists m :: 0 <= m < i && tags[m].Some? && tags[m].value.id == arrangementAttendu[m]
          then Some(orientation) else avant
      {
        var tagCoin := tags[i];
        if tagCoin.Some? && tagCoin.value.id == arrangementAttendu[i] {
          if orientationTrouvee == Some(orientation) {
            break;
          }
          orientationTrouvee := Some(orientation);
        }
        i := i + 1;
      }
      assert orientationTrouvee == if Correspond(tags, ids, orientation) then Some(orientation) else avant;
    }
  }

  /** ordreTags: each expected id of the upright arrangement if some corner holds it, otherwise null. */
  function OrdreTags(tags: seq<Option<TagDistance>>, ids: seq<int>): (r: seq<Option<int>>)
    requires |ids| == 4
    ensures |r| == 4
    ensures forall k :: 0 <= k < 4 ==>
      (r[k] == Some(ids[k]) <==> exists j :: 0 <= j < |tags| && tags[j].Some? && tags[j].value.id == ids[k]) &&
      (r[k] != Some(ids[k]) ==> r[k].None?)
  {
    assert forall k :: 0 <= k < 4 ==> Arrangement(ids, 0)[k] == ids[k];
    seq(4, k requires 0 <= k < 4 =>
      var id := Arrangement(ids, 0)[k];
      if exists j :: 0 <= j < |tags| && tags[j].Some? && tags[j].value.id == id then Some(id) else None)
  }

  /** The result of orientationAprilTags. */
  datatype Orientation = Orientation(orientation: int, ordreTags: seq<Option<int>>)

  const MESSAGE_ARRANGEMENT: string := "Impossible de déterminer l'orientation du document : arrangement des april tags incohérent."

  /**
   * orientationAprilTags, with the tag ids APRILTAGS_IDS as a parameter: the
   * nearest tag of each corner, de-duplicated, matched against the four
   * arrangements.
   */
  method OrientationAprilTags(width: real, height: real, detections: seq<TagDetection>, ids: seq<int>) returns (r: Result<Orientation>)
    requires |ids| == 4
    ensures var tags := Dedoublonne(TagsParCoin(detections, width, height));
      match Trouvee(tags, ids)
      case None => r == Fail(ErreurAlignement, MESSAGE_ARRANGEMENT)
      case Some(o) => r == Ok(Orientation(o * 90, OrdreTags(tags, ids)))
  {
    var tagParCoin := TagsLesPlusProches(detections, width, height);
    tagParCoin := Dedoublonner(tagParCoin);
    var orientationTrouvee := ChercherArrangement(tagParCoin, ids);
    if orientationTrouvee.None? {
      return Fail(ErreurAlignement, MESSAGE_ARRANGEMENT);
    }
    var ordreTags := OrdreTags(tagParCoin, ids);
    return Ok(Orientation(orientationTrouvee.value * 90, ordreTags));
  }

  /** The angle returned is a quarter turn, and without any detection the arrangement is an error. */
  lemma OrientationQuartDeTour(width: real, height: real, detections: seq<TagDetection>, ids: seq<int>)
    requires |ids| == 4
    ensures var o := Trouvee(Dedoublonne(TagsParCoin(detections, width, height)), ids);
      (o.Some? ==> o.value * 90 in {0, 90, 180, 270}) && (|detections| == 0 ==> o.None?)
  {
    var tags := Dedoublonne(TagsParCoin(detections, width, height));
    if |detections| == 0 {
      assert |tags| == 0;
      assert forall o' :: 0 <= o' < 4 ==> !Correspond(tags, ids, o');
    }
  }

  /** A single detection is the nearest tag of all four corners. */
  lemma UneSeuleDetection(width: real, height: real, d: TagDetection)
    ensures var t := TagsParCoin([d], width, height);
      forall i :: 0 <= i < 4 ==> t[i].Some? && t[i].value.id == d.id
  {
  }
}
