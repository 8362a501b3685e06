// src/core/lecture/preparation/reorientation/remapperCiblesConcentriques.ts:
// once the sheet's rotation is known, move each corner detection to the
// corner it occupies on the re-oriented sheet.
module RemapCibles {
  import opened Wrappers
  import opened Geometrie
  import opened Erreurs
  import opened DetectionCibles
  import OrientationCibles
  import GenerationCibles

  /** A corner map: for each corner 0..3, the corner its detection moves to. */
  predicate Destinations(p: seq<int>)
  {
    |p| == 4 && forall c :: 0 <= c < 4 ==> 0 <= p[c] < 4
  }

  /** A corner map that sends no two corners to the same place. */
  predicate Permutation(p: seq<int>)
  {
    Destinations(p) && forall a, b :: 0 <= a < 4 && 0 <= b < 4 && p[a] == p[b] ==> a == b
  }

  /** The corner a permutation sends to s: four distinct corners reach every slot. */
  function Antecedent(p: seq<int>, s: int): (t: int)
    requires Permutation(p) && 0 <= s < 4
    ensures 0 <= t < 4 && p[t] == s
  {
    if p[0] == s then 0 else if p[1] == s then 1 else if p[2] == s then 2 else 3
  }

  /** The map the code applies for angle 90 * k: corner c goes to (c + k) % 4. */
  function Decalage(k: nat): (p: seq<int>)
    ensures Permutation(p)
  {
    DecalageInjectif(k);
    seq(4, c requires 0 <= c < 4 => Decale(c, k))
  }

  /** `(detection.coin + k) % 4`. */
  function Decale(c: int, k: nat): int
  {
    (c + k) % 4
  }

  lemma DecalageInjectif(k: nat)
    ensures forall a, b :: 0 <= a < 4 && 0 <= b < 4 && Decale(a, k) == Decale(b, k) ==> a == b
    ensures forall a :: 0 <= a < 4 ==> 0 <= Decale(a, k) < 4
  {
    var m := k % 4;
    assert k == 4 * (k / 4) + m;
    forall a | 0 <= a < 4
      ensures Decale(a, k) == if a + m < 4 then a + m else a + m - 4
    {
      assert a + k == 4 * (k / 4) + (a + m);
    }
  }

  /** p, then q. */
  function Composer(p: seq<int>, q: seq<int>): (r: seq<int>)
    requires Destinations(p) && Destinations(q)
    ensures Destinations(r)
  {
    seq(4, c requires 0 <= c < 4 => q[p[c]])
  }

  /** One pass of the loop: a present detection is written to its new slot with its corner field updated. */
  function Placer(slots: seq<Option<CibleDetection>>, det: Option<CibleDetection>, p: seq<int>): (r: seq<Option<CibleDetection>>)
    requires |slots| == 4 && Destinations(p)
    ensures |r| == 4
  {
    if det.None? then slots
    else
      var c := p[det.value.coin];
      slots[c := Some(det.value.(coin := c))]
  }

  /**
   * The four slots after the loop has run over `dets` with corner map p.
   * Every detection stored in slot s has its corner field set to s.
   */
  function Remappe(dets: seq<Option<CibleDetection>>, p: seq<int>): (r: seq<Option<CibleDetection>>)
    requires Destinations(p)
    ensures |r| == 4
    ensures forall s :: 0 <= s < 4 && r[s].Some? ==> r[s].value.coin == s
  {
    if |dets| == 0 then [None, None, None, None]
    else Placer(Remappe(dets[..|dets| - 1], p), dets[|dets| - 1], p)
  }

  /**
   * Reference reading of the loop: the last present detection whose corner p
   * sends to s. None exactly when no present detection is sent there.
   */
  function Dernier(dets: seq<Option<CibleDetection>>, p: seq<int>, s: int): (r: Option<CibleDetection>)
    requires Destinations(p)
    ensures r.None? <==> forall i :: 0 <= i < |dets| && dets[i].Some? ==> p[dets[i].value.coin] != s
    ensures r.Some? ==> p[r.value.coin] == s && exists i :: 0 <= i < |dets| && dets[i] == r
  {
    if |dets| == 0 then None
    else
      var last := dets[|dets| - 1];
      if last.Some? && p[last.value.coin] == s then
        assert dets[|dets| - 1] == last;
        last
      else
        var r := Dernier(dets[..|dets| - 1], p, s);
        assert forall i :: 0 <= i < |dets| - 1 ==> dets[..|dets| - 1][i] == dets[i];
        r
  }

  /** Slot s holds the last detection sent to s, with only its corner changed, or stays null. */
  lemma {:induction false} RemappeDernier(dets: seq<Option<CibleDetection>>, p: seq<int>, s: int)
    requires Destinations(p) && 0 <= s < 4
    ensures Remappe(dets, p)[s] == match Dernier(dets, p, s)
      case None => None
      case Some(d) => Some(d.(coin := s))
    decreases |dets|
  {
    if |dets| > 0 {
      RemappeDernier(dets[..|dets| - 1], p, s);
    }
  }

  /** When two detections are sent to the same slot, the later one is kept. */
  lemma {:induction false} DernierGagne(dets: seq<Option<CibleDetection>>, p: seq<int>, s: int, j: nat)
    requires Destinations(p) && j < |dets| && dets[j].Some? && p[dets[j].value.coin] == s
    requires forall i :: j < i < |dets| && dets[i].Some? ==> p[dets[i].value.coin] != s
    ensures Dernier(dets, p, s) == dets[j]
    decreases |dets|
  {
    if j < |dets| - 1 {
      var prefix := dets[..|dets| - 1];
      assert forall i :: j < i < |prefix| ==> prefix[i] == dets[i];
      DernierGagne(prefix, p, s, j);
    }
  }

  /** Two maps that agree on which corners go to a slot pick the same detection for it. */
  lemma {:induction false} DernierCompose(dets: seq<Option<CibleDetection>>, p: seq<int>, q: seq<int>, t: int)
    requires Destinations(p) && Permutation(q) && 0 <= t < 4
    ensures Dernier(dets, Composer(p, q), q[t]) == Dernier(dets, p, t)
    decreases |dets|
  {
    if |dets| > 0 {
      DernierCompose(dets[..|dets| - 1], p, q, t);
    }
  }

  /** With the slots of an earlier pass as input, slot q[t] receives slot t. */
  lemma {:induction false} DernierCanonique(r: seq<Option<CibleDetection>>, q: seq<int>, t: int)
    requires |r| == 4 && Permutation(q) && 0 <= t < 4
    requires forall s :: 0 <= s < 4 && r[s].Some? ==> r[s].value.coin == s
    ensures Dernier(r, q, q[t]) == r[t]
  {
    if r[t].Some? {
      DernierGagne(r, q, q[t], t);
    }
  }

  /** Remapping twice is remapping once by the composed map. */
  lemma RemappeCompose(dets: seq<Option<CibleDetection>>, p: seq<int>, q: seq<int>)
    requires Destinations(p) && Permutation(q)
    ensures Remappe(Remappe(dets, p), q) == Remappe(dets, Composer(p, q))
  {
    var r := Remappe(dets, p);
    forall s | 0 <= s < 4
      ensures Remappe(r, q)[s] == Remappe(dets, Composer(p, q))[s]
    {
      var t := Antecedent(q, s);
      RemappeDernier(r, q, s);
      DernierCanonique(r, q, t);
      RemappeDernier(dets, p, t);
      RemappeDernier(dets, Composer(p, q), s);
      DernierCompose(dets, p, q, t);
    }
  }

  /** Shifting by a, then by b, is shifting by a + b. */
  lemma DecalageCompose(a: nat, b: nat)
    ensures Composer(Decalage(a), Decalage(b)) == Decalage(a + b)
  {
  }

  /** Input whose present detections have pairwise different corners. */
  predicate CoinsDistincts(dets: seq<Option<CibleDetection>>)
  {
    forall i, j ::
      0 <= i < |dets| && 0 <= j < |dets| && dets[i].Some? && dets[j].Some? && dets[i].value.coin == dets[j].value.coin
      ==> i == j
  }

  /**
   * With distinct corners, remapping by 90 * k and then by 90 * (4 - k)
   * brings every detection back to the slot of its own corner, unchanged.
   */
  lemma AllerRetour(dets: seq<Option<CibleDetection>>, k: nat, j: nat)
    requires CoinsDistincts(dets) && 1 <= k <= 3 && j < |dets| && dets[j].Some?
    ensures Remappe(Remappe(dets, Decalage(k)), Decalage(4 - k))[dets[j].value.coin] == dets[j]
  {
    RemappeCompose(dets, Decalage(k), Decalage(4 - k));
    DecalageCompose(k, 4 - k);
    assert k + (4 - k) == 4;
    TourComplet(dets, j);
  }

  /** With distinct corners and a permutation, each detection lands, unchanged but for its corner, where p sends it. */
  lemma SansDoublon(dets: seq<Option<CibleDetection>>, p: seq<int>, j: nat)
    requires CoinsDistincts(dets) && Permutation(p) && j < |dets| && dets[j].Some?
    ensures Remappe(dets, p)[p[dets[j].value.coin]] == Some(dets[j].value.(coin := p[dets[j].value.coin]))
  {
    var s := p[dets[j].value.coin];
    forall i | j < i < |dets| && dets[i].Some?
      ensures p[dets[i].value.coin] != s
    {
      assert dets[i].value.coin != dets[j].value.coin;
    }
    RemappeDernier(dets, p, s);
    DernierGagne(dets, p, s, j);
  }

  /** A full turn puts each detection of distinct-corner input in the slot of its own corner. */
  lemma TourComplet(dets: seq<Option<CibleDetection>>, j: nat)
    requires CoinsDistincts(dets) && j < |dets| && dets[j].Some?
    ensures Remappe(dets, Decalage(4))[dets[j].value.coin] == dets[j]
  {
    var c := dets[j].value.coin;
    var p := Decalage(4);
    assert (c as int + 4) % 4 == c as int;
    assert p[c] == Decale(c, 4) == c;
    SansDoublon(dets, p, j);
  }

  const MESSAGE_ORIENTATION: string := "L'orientation doit être un multiple de 90° pour le remapping des détections."

  /** The loop over the input, writing into a 4-slot array that starts all null. */
  method Repartir(detections: seq<Option<CibleDetection>>, p: seq<int>) returns (slots: seq<Option<CibleDetection>>)
    requires Destinations(p)
    ensures slots == Remappe(detections, p)
  {
    var remapped := new Option<CibleDetection>[4](_ => None);
    assert remapped[..] == [None, None, None, None];
    for i := 0 to |detections|
      invariant remapped[..] == Remappe(detections[..i], p)
    {
      assert detections[..i + 1][..i] == detections[..i];
      var detection := detections[i];
      if detection.Some? {
        var newCoin := p[detection.value.coin];
        remapped[newCoin] := Some(detection.value.(coin := newCoin));
      }
    }
    assert detections[..|detections|] == detections;
    slots := remapped[..];
  }

  /**
   * remapperCiblesConcentriques. A non-multiple of 90 is an ErreurAlignement;
   * an angle that is 0 modulo 360 returns the input itself; any other angle
   * 90 * k returns four slots, corner c moved to (c + k) % 4.
   */
  method RemapperCiblesConcentriques(detections: seq<Option<CibleDetection>>, orientation: int)
    returns (r: Result<seq<Option<CibleDetection>>>)
    ensures orientation % 90 != 0 ==> r == Fail(ErreurAlignement, MESSAGE_ORIENTATION)
    ensures orientation % 90 == 0 && orientation % 360 == 0 ==> r == Ok(detections)
    ensures orientation % 90 == 0 && orientation % 360 != 0 ==>
      r == Ok(Remappe(detections, Decalage((orientation % 360) / 90)))
  {
    NormaliserAngle(orientation);
    MultipleDe90(orientation);
    if JsRem(orientation, 90) != 0 {
      return Fail(ErreurAlignement, MESSAGE_ORIENTATION);
    }
    var angle := JsRem(JsRem(orientation, 360) + 360, 360);
    if angle == 0 {
      return Ok(detections);
    }
    var slots := Repartir(detections, Decalage(angle / 90));
    return Ok(slots);
  }

  /** The map the corner numbering HG 0, HD 1, BG 2, BD 3 calls for: corner c goes to ARRANGEMENTS_BASE[k][c]. */
  function Rotation(k: nat): (p: seq<int>)
    requires k < 4
    ensures Permutation(p)
  {
    OrientationCibles.ARRANGEMENTS_BASE[k]
  }

  /** The corrected remapping: as the code, with each corner sent where the rotation puts it. */
  method RemapperCorrige(detections: seq<Option<CibleDetection>>, orientation: int)
    returns (r: Result<seq<Option<CibleDetection>>>)
    ensures orientation % 90 != 0 ==> r == Fail(ErreurAlignement, MESSAGE_ORIENTATION)
    ensures orientation % 90 == 0 && orientation % 360 == 0 ==> r == Ok(detections)
    ensures orientation % 90 == 0 && orientation % 360 != 0 ==>
      r == Ok(Remappe(detections, Rotation((orientation % 360) / 90)))
  {
    NormaliserAngle(orientation);
    MultipleDe90(orientation);
    if JsRem(orientation, 90) != 0 {
      return Fail(ErreurAlignement, MESSAGE_ORIENTATION);
    }
    var angle := JsRem(JsRem(orientation, 360) + 360, 360);
    if angle == 0 {
      return Ok(detections);
    }
    var slots := Repartir(detections, Rotation(angle / 90));
    return Ok(slots);
  }

  /** The four targets in canonical order each move to the slot p gives their corner. */
  lemma RemappeArrangement(i: nat, p: seq<int>, c: int)
    requires i < 4 && Permutation(p) && 0 <= c < 4
    ensures Remappe(OrientationCibles.DetectionsArrangement(i), p)[p[c]] ==
      Some(OrientationCibles.DetectionsArrangement(i)[c].value.(coin := p[c]))
  {
    var dets := OrientationCibles.DetectionsArrangement(i);
    assert forall x :: 0 <= x < 4 ==> dets[x].Some? && dets[x].value.coin == x;
    SansDoublon(dets, p, c);
  }

  /**
   * The corrected remapping puts every target of a sheet rotated by 90 * k
   * back in its own corner: the result is read as needing no rotation.
   */
  lemma CorrigeReoriente(k: nat)
    requires 1 <= k < 4
    ensures OrientationCibles.Orientation(OrientationCibles.DetectionsArrangement(k)) == k * 90
    ensures OrientationCibles.Orientation(Remappe(OrientationCibles.DetectionsArrangement(k), Rotation(k))) == 0
  {
    OrientationCibles.ArrangementReconnu(k);
    var p := Rotation(k);
    var r := Remappe(OrientationCibles.DetectionsArrangement(k), p);
    var base := OrientationCibles.DetectionsArrangement(0);
    forall t | 0 <= t < 4
      ensures r[t] == base[t]
    {
      var c := Antecedent(p, t);
      RemappeArrangement(k, p, c);
    }
    assert r == base;
    OrientationCibles.ArrangementReconnu(0);
  }

  /**
   * The code's remapping of a sheet rotated by 90 degrees: the orientation
   * reader recognises 90 beforehand, but no longer recognises the remapped
   * detections as upright (it reads -1 instead of 0).
   */
  lemma DecalageNeReorientePas()
    ensures OrientationCibles.Orientation(OrientationCibles.DetectionsArrangement(1)) == 90
    ensures OrientationCibles.Orientation(Remappe(OrientationCibles.DetectionsArrangement(1), Decalage(1))) == -1
  {
    OrientationCibles.ArrangementReconnu(1);
    var p := Decalage(1);
    var dets := OrientationCibles.DetectionsArrangement(1);
    var r := Remappe(dets, p);
    assert p[3] == 0 && p[0] == 1 && p[2] == 3;
    AnneauxQuartDeTour();
    RemappeArrangement(1, p, 3);
    RemappeArrangement(1, p, 0);
    RemappeArrangement(1, p, 2);
    PremiereDuSlot(r, 3, 0);
    PremiereDuSlot(r, 1, 0);
    PremiereDuSlot(r, 0, 0);
    CoinsDiscordants(r);
  }

  /** The ring counts of a sheet that needs a quarter turn, corners 0, 2 and 3. */
  lemma AnneauxQuartDeTour()
    ensures var dets := OrientationCibles.DetectionsArrangement(1);
      dets[0].value.rings == 2 && dets[2].value.rings == 4 && dets[3].value.rings == 3
  {
    assert GenerationCibles.CIBLES_NB_RINGS == [4, 2, 3, 1];
  }

  /** In slots where slot s holds corner s + decalage, the first detection of corner c + decalage is in slot c. */
  lemma {:induction false} PremiereDuSlot(r: seq<Option<CibleDetection>>, c: nat, decalage: int)
    requires c < |r| && r[c].Some?
    requires forall s :: 0 <= s < |r| && r[s].Some? ==> r[s].value.coin == s + decalage
    ensures OrientationCibles.PremiereDuCoin(r, c + decalage) == r[c]
    decreases c
  {
    if c > 0 {
      var t := r[1..];
      forall s | 0 <= s < |t| && t[s].Some?
        ensures t[s].value.coin == s + (decalage + 1)
      {
        assert t[s] == r[s + 1];
      }
      PremiereDuSlot(t, c - 1, decalage + 1);
    }
  }

  /** Ring counts 4, 2 and 3 in corners 3, 1 and 0 match rotations 180, 0 and 270: no two consecutive agree. */
  lemma CoinsDiscordants(r: seq<Option<CibleDetection>>)
    requires OrientationCibles.PremiereDuCoin(r, 3).Some? && OrientationCibles.PremiereDuCoin(r, 3).value.rings == 4
    requires OrientationCibles.PremiereDuCoin(r, 1).Some? && OrientationCibles.PremiereDuCoin(r, 1).value.rings == 2
    requires OrientationCibles.PremiereDuCoin(r, 0).Some? && OrientationCibles.PremiereDuCoin(r, 0).value.rings == 3
    ensures OrientationCibles.Orientation(r) == -1
  {
    assert OrientationCibles.PremiereDuCoin(r, 4).None?;
    var o := OrientationCibles.ORDRE_CONFIANCE_CIBLES;
    assert o[1..] == [3, 1, 0] && o[1..][1..] == [1, 0] && o[1..][1..][1..] == [0] && o[1..][1..][1..][1..] == [];
    OrientationCibles.ArrangementTable();
    assert OrientationCibles.RotationDe(3, 4) == Some(2);
    assert OrientationCibles.RotationDe(1, 2) == Some(0);
    assert OrientationCibles.RotationDe(0, 3) == Some(3);
    OrientationCibles.BalayerUnique(4, 3, -1);
    OrientationCibles.BalayerUnique(2, 1, 180);
    OrientationCibles.BalayerUnique(3, 0, 0);
    assert OrientationCibles.Consensus(r, o, -1) == OrientationCibles.Consensus(r, o[1..], -1);
    assert OrientationCibles.Consensus(r, o[1..], -1) == OrientationCibles.Consensus(r, o[1..][1..], 180);
    assert OrientationCibles.Consensus(r, o[1..][1..], 180) == OrientationCibles.Consensus(r, o[1..][1..][1..], 0);
    assert OrientationCibles.Consensus(r, o[1..][1..][1..], 0) == OrientationCibles.Consensus(r, o[1..][1..][1..][1..], 270);
  }
}
