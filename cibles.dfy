// src/core/generation/common/genererCiblesConcentriques.ts: the four
// concentric ring targets (bullseyes) printed in the corners of a sheet.
// Corners are numbered 0 top-left (HG), 1 top-right (HD), 2 bottom-left (BG),
// 3 bottom-right (BD).
module GenerationCibles {
  import opened Geometrie
  import opened PdfUtils

  /** Number of rings of the target printed in each corner. */
  const CIBLES_NB_RINGS: seq<nat> := [4, 2, 3, 1]

  /** The two fills: '#111' and '#FFFFFF'. */
  datatype Remplissage = Noir | Blanc

  /** One filled circle drawn on the page, in points. */
  datatype Cercle = Cercle(centre: Point, rayon: real, remplissage: Remplissage)

  /** Top-left corner of the square that holds the target of corner `coin`. */
  function Position(coin: nat, pageW: real, pageH: real, taille: real, marge: real): Point
    requires coin < 4
  {
    if coin == 0 then Point(marge, marge)
    else if coin == 1 then Point(pageW - taille - marge, marge)
    else if coin == 2 then Point(marge, pageH - taille - marge)
    else Point(pageW - taille - marge, pageH - taille - marge)
  }

  /** Centre of the target of corner `coin`; it sits marge + taille/2 from the two nearest edges. */
  function Centre(coin: nat, pageW: real, pageH: real, taille: real, marge: real): (c: Point)
    requires coin < 4
    ensures c.x == (if coin % 2 == 0 then marge + taille / 2.0 else pageW - marge - taille / 2.0)
    ensures c.y == (if coin < 2 then marge + taille / 2.0 else pageH - marge - taille / 2.0)
  {
    var p := Position(coin, pageW, pageH, taille, marge);
    Point(p.x + taille / 2.0, p.y + taille / 2.0)
  }

  /**
   * The i-th circle of a target of n rings, in closed form: its radius is
   * taille * (n - i) / (2n) and fills alternate, starting with black.
   */
  function Anneau(centre: Point, taille: real, n: nat, i: nat): Cercle
    requires n > 0
  {
    Cercle(centre, taille * (n - i) as real / (2.0 * n as real), if i % 2 == 0 then Noir else Blanc)
  }

  /** Index in the drawing of the first circle of corner `coin`. */
  function Debut(coin: nat): nat
    requires coin <= 4
  {
    if coin == 0 then 0 else Debut(coin - 1) + CIBLES_NB_RINGS[coin - 1]
  }

  /** The rings of the target of corner `coin`, outermost first, in closed form. */
  function AnneauxAttendus(coin: nat, pageW: real, pageH: real, taille: real, marge: real): (r: seq<Cercle>)
    requires coin < 4
    ensures |r| == CIBLES_NB_RINGS[coin]
  {
    seq(CIBLES_NB_RINGS[coin], (i: int) requires 0 <= i < CIBLES_NB_RINGS[coin] =>
      Anneau(Centre(coin, pageW, pageH, taille, marge), taille, CIBLES_NB_RINGS[coin], i))
  }

  /** The rings of the first n corners, in drawing order. */
  function Dessin(n: nat, pageW: real, pageH: real, taille: real, marge: real): (r: seq<Cercle>)
    requires n <= 4
    ensures |r| == Debut(n)
  {
    if n == 0 then [] else Dessin(n - 1, pageW, pageH, taille, marge) + AnneauxAttendus(n - 1, pageW, pageH, taille, marge)
  }

  /** The inner loop: the n rings of one target, outermost first. */
  method DessinerCible(pos: Point, taille: real, nbRings: nat) returns (cercles: seq<Cercle>)
    requires nbRings > 0
    ensures |cercles| == nbRings
    ensures forall k :: 0 <= k < nbRings ==>
      cercles[k] == Anneau(Point(pos.x + taille / 2.0, pos.y + taille / 2.0), taille, nbRings, k)
  {
    var ringThickness := taille / (2.0 * nbRings as real);
    cercles := [];
    var i := 0;
    while i < nbRings
      invariant 0 <= i <= nbRings
      invariant |cercles| == i
      invariant forall k :: 0 <= k < i ==>
        cercles[k] == Anneau(Point(pos.x + taille / 2.0, pos.y + taille / 2.0), taille, nbRings, k)
    {
      var currentRingSize := taille - (i as real * 2.0 * ringThickness);
      var isBlack := i % 2 == 0;
      RingSize(taille, nbRings, i);
      cercles := cercles + [Cercle(Point(pos.x + taille / 2.0, pos.y + taille / 2.0), currentRingSize / 2.0,
                                   if isBlack then Noir else Blanc)];
      i := i + 1;
    }
  }

  /**
   * genererCiblesConcentriques: the circles drawn, in drawing order, for a
   * page of pageW x pageH points: each corner in turn, its rings from the
   * outside in, so every ring paints over the previous one.
   */
  method GenererCiblesConcentriques(pageW: real, pageH: real, tailleMm: real, margeInterneMm: real)
    returns (dessin: seq<Cercle>)
    ensures dessin == Dessin(4, pageW, pageH, MmToPoints(tailleMm), MmToPoints(margeInterneMm))
  {
    var taille := MmToPoints(tailleMm);
    var margeInterne := MmToPoints(margeInterneMm);
    var positions := [Position(0, pageW, pageH, taille, margeInterne), Position(1, pageW, pageH, taille, margeInterne),
                      Position(2, pageW, pageH, taille, margeInterne), Position(3, pageW, pageH, taille, margeInterne)];
    dessin := [];
    var index := 0;
    while index < 4
      invariant 0 <= index <= 4
      invariant dessin == Dessin(index, pageW, pageH, taille, margeInterne)
    {
      var cercles := DessinerCible(positions[index], taille, CIBLES_NB_RINGS[index]);
      assert cercles == AnneauxAttendus(index, pageW, pageH, taille, margeInterne);
      dessin := dessin + cercles;
      index := index + 1;
    }
  }

  /** Ten circles in all, and circle Debut(coin) + i is ring i of corner coin. */
  lemma {:induction false} DessinIndex(n: nat, pageW: real, pageH: real, taille: real, marge: real, coin: nat, i: nat)
    requires n <= 4 && coin < n && i < CIBLES_NB_RINGS[coin]
    ensures |Dessin(4, pageW, pageH, taille, marge)| == 10
    ensures Dessin(n, pageW, pageH, taille, marge)[Debut(coin) + i]
         == Anneau(Centre(coin, pageW, pageH, taille, marge), taille, CIBLES_NB_RINGS[coin], i)
  {
    if coin < n - 1 {
      DessinIndex(n - 1, pageW, pageH, taille, marge, coin, i);
    }
  }

  /** The drawing formula taille - i * 2 * (taille / 2n), halved, is the closed-form radius. */
  lemma RingSize(taille: real, n: nat, i: nat)
    requires n > 0
    ensures (taille - (i as real * 2.0 * (taille / (2.0 * n as real)))) / 2.0
         == taille * (n - i) as real / (2.0 * n as real)
  {
    var t := taille / (2.0 * n as real);
    assert t * (2.0 * n as real) == taille;
    calc {
      (taille - (i as real * 2.0 * t)) / 2.0;
      == (t * (2.0 * n as real) - i as real * 2.0 * t) / 2.0;
      == t * ((n as real) - (i as real));
      == t * (2.0 * n as real) * ((n as real) - (i as real)) / (2.0 * n as real);
      == taille * (n - i) as real / (2.0 * n as real);
    }
  }

  /** The four targets have pairwise different ring counts, which is what identifies a corner. */
  lemma RingCountsDistinct(a: nat, b: nat)
    requires a < 4 && b < 4 && a != b
    ensures CIBLES_NB_RINGS[a] != CIBLES_NB_RINGS[b]
  {
  }

  /**
   * Rings of a target of positive size shrink strictly from the outside in,
   * the outermost has the target's half-size and the innermost is 1/n of it,
   * and successive rings switch fill.
   */
  lemma RingsNest(centre: Point, taille: real, n: nat, i: nat, j: nat)
    requires taille > 0.0 && n > 0 && i < j < n
    ensures Anneau(centre, taille, n, i).rayon > Anneau(centre, taille, n, j).rayon > 0.0
    ensures Anneau(centre, taille, n, 0).rayon == taille / 2.0
    ensures Anneau(centre, taille, n, n - 1).rayon == taille / (2.0 * n as real)
    ensures j == i + 1 ==> Anneau(centre, taille, n, i).remplissage != Anneau(centre, taille, n, j).remplissage
  {
    var d := 2.0 * n as real;
    assert (n - i) as real > (n - j) as real > 0.0;
    assert taille * (n - i) as real > taille * (n - j) as real > 0.0;
    assert taille * (n - i) as real / d > taille * (n - j) as real / d;
    assert taille * (n - 0) as real / d == taille / 2.0;
    if j == i + 1 {
      assert (i % 2 == 0) != (j % 2 == 0);
    }
  }
}
