// src/lecture/preparation/obtenirOrientation.ts: the earlier AprilTag
// orientation, without de-duplication, returning the arrangement index.
module ObtenirOrientation {
  import opened Wrappers
  import opened Erreurs
  import opened AprilTags
  import opened OrientationAprilTags

  const MESSAGE_ARRANGEMENT: string := "Impossible de déterminer l'orientation du document : arrangement des april tags incohérent."

  /**
   * The arrangement loop of this version: every matching corner records
   * its rotation, so the last rotation with a match wins.
   */
  method ChercherArrangement(tags: seq<Option<TagDistance>>, ids: seq<int>) returns (orientationTrouvee: Option<nat>)
    requires |ids| == 4 && |tags| <= 4
    ensures orientationTrouvee == Trouvee(tags, ids)
  {
    orientationTrouvee := None;
    for orientation := 0 to 4
      invariant orientationTrouvee == TrouveeAvant(tags, ids, orientation)
    {
      var arrangementAttendu := Arrangement(ids, orientation);
      ghost var avant := orientationTrouvee;
      for i := 0 to |tags|
        invariant orientationTrouvee == if exists m :: 0 <= m < i && tags[m].Some? && tags[m].value.id == arrangementAttendu[m]
          then Some(orientation) else avant
      {
        var tagCoin := tags[i];
        if tagCoin.Some? && tagCoin.value.id == arrangementAttendu[i] {
          orientationTrouvee := Some(orientation);
        }
      }
      assert orientationTrouvee == if Correspond(tags, ids, orientation) then Some(orientation) else avant;
    }
  }

  /**
   * obtenirOrientation, with APRILTAGS_IDS as a parameter: the nearest tag
   * of each corner, kept even when one tag is nearest to several corners,
   * matched against the arrangements. The result is the index 0 .. 3, not
   * an angle.
   */
  method ObtenirOrientation(width: real, height: real, detections: seq<TagDetection>, ids: seq<int>) returns (r: Result<nat>)
    requires |ids| == 4
    ensures match Trouvee(TagsParCoin(detections, width, height), ids)
      case None => r == Fail(ErreurAlignement, MESSAGE_ARRANGEMENT)
      case Some(o) => r == Ok(o)
    ensures r.Ok? ==> r.value < 4
  {
    var tagParCoin := TagsLesPlusProches(detections, width, height);
    var orientationTrouvee := ChercherArrangement(tagParCoin, ids);
    if orientationTrouvee.None? {
      return Fail(ErreurAlignement, MESSAGE_ARRANGEMENT);
    }
    return Ok(orientationTrouvee.value);
  }

  /**
   * Without de-duplication a single tag of the expected set serves all four
   * corners, every arrangement then matches, and the last (index 3) is
   * reported wherever the tag lies.
   */
  lemma UnSeulTagDonneTrois(width: real, height: real, d: TagDetection, ids: seq<int>, k: nat)
    requires |ids| == 4 && k < 4 && d.id == ids[k]
    ensures Trouvee(TagsParCoin([d], width, height), ids) == Some(3)
  {
    var t := TagsParCoin([d], width, height);
    UneSeuleDetection(width, height, d);
    var c := OrientationCibles.ARRANGEMENTS_BASE[3];
    var coin := if c[0] == k then 0 else if c[1] == k then 1 else if c[2] == k then 2 else 3;
    assert Arrangement(ids, 3)[coin] == ids[k];
    assert t[coin].value.id == Arrangement(ids, 3)[coin];
    assert Correspond(t, ids, 3);
  }
}
