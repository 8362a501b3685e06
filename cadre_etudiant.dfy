// src/core/generation/bordereau/modules/cadre-etudiant/CadreEtudiantBenchmarkModule.ts:
// the benchmark student frame, ten boxes for each letter of the alphabet,
// letters in two columns.
module CadreEtudiantBenchmark {
  import opened ModulesBordereau

  const ALPHABET_DEFAUT: string := "ABCDEFGHIJKLMNOPQRSTUVWXYZ"

  /** The origin of the row of boxes of letter group i: two columns, 53 pt between rows. */
  function OrigineGroupe(i: nat): (p: (int, int))
    ensures p.0 == 40 || p.0 == 307
    ensures p.1 >= 90
  {
    (40 + (i % 2) * 267, 90 + (i / 2) * 53)
  }

  /** Box j of group i: 25 pt apart along the row, 22 x 26 pt each. */
  function Cellule(i: nat, j: nat): (c: LayoutPosition)
    ensures c.largeur == 22.0 && c.hauteur == 26.0
    ensures c.x == (j * 25 + OrigineGroupe(i).0) as real && c.y == OrigineGroupe(i).1 as real
  {
    var (colonneX, ligneY) := OrigineGroupe(i);
    LayoutPosition((j * 25 + colonneX) as real, ligneY as real, 22.0, 26.0)
  }

  /** The two lists returned by getLayoutPositions. */
  datatype ZonesLecture = ZonesLecture(lettresCodeAnonymat: seq<LayoutPosition>, lettresCodeEpreuve: seq<LayoutPosition>)

  /**
   * getLayoutPositions: a list of 10 x |alphabet| boxes, written at
   * i * 10 + j by the two nested loops; no épreuve-code boxes.
   */
  method GetLayoutPositions(alphabet: string) returns (zones: ZonesLecture)
    ensures |zones.lettresCodeAnonymat| == |alphabet| * 10 && zones.lettresCodeEpreuve == []
    ensures forall k :: 0 <= k < |alphabet| * 10 ==> zones.lettresCodeAnonymat[k] == Cellule(k / 10, k % 10)
  {
    var lettresCode := new LayoutPosition[|alphabet| * 10](_ => LayoutPosition(0.0, 0.0, 0.0, 0.0));
    for i := 0 to |alphabet|
      invariant forall k :: 0 <= k < i * 10 ==> lettresCode[k] == Cellule(k / 10, k % 10)
    {
      for j := 0 to 10
        invariant forall k :: 0 <= k < i * 10 + j ==> lettresCode[k] == Cellule(k / 10, k % 10)
      {
        assert (i * 10 + j) / 10 == i && (i * 10 + j) % 10 == j;
        lettresCode[i * 10 + j] := Cellule(i, j);
      }
    }
    return ZonesLecture(lettresCode[..], []);
  }

  /** Boxes of two different letter groups never meet: 27 pt between rows, 20 pt between the columns. */
  lemma GroupesDisjoints(i1: nat, j1: nat, i2: nat, j2: nat)
    requires j1 < 10 && j2 < 10 && i1 != i2
    ensures Disjointes(Cellule(i1, j1), Cellule(i2, j2))
  {
    if i1 / 2 == i2 / 2 {
      assert i1 % 2 != i2 % 2;
    }
  }

  /** Boxes of one group are 3 pt apart. */
  lemma CellulesDisjointes(i: nat, j1: nat, j2: nat)
    requires j1 != j2
    ensures Disjointes(Cellule(i, j1), Cellule(i, j2))
  {
  }

  /** Every two different boxes of the layout are disjoint. */
  lemma LayoutDisjoint(k1: nat, k2: nat)
    requires k1 != k2
    ensures Disjointes(Cellule(k1 / 10, k1 % 10), Cellule(k2 / 10, k2 % 10))
  {
    if k1 / 10 == k2 / 10 {
      CellulesDisjointes(k1 / 10, k1 % 10, k2 % 10);
    } else {
      GroupesDisjoints(k1 / 10, k1 % 10, k2 / 10, k2 % 10);
    }
  }

  /** The letter drawn next to group i: the first half of the alphabet down the left column, the rest down the right. */
  function IndiceLettre(i: nat, n: nat): (l: nat)
    ensures i < n ==> l < n
  {
    (i % 2) * ((n + 1) / 2) + i / 2
  }

  /** The group that shows letter l, the inverse of IndiceLettre. */
  function GroupeDeLettre(l: nat, n: nat): nat
  {
    if l < (n + 1) / 2 then 2 * l else 2 * (l - (n + 1) / 2) + 1
  }

  /** For n groups the labels are a permutation of the alphabet: every letter is shown by exactly one group. */
  lemma IndiceLettreBijectif(n: nat, i: nat, l: nat)
    requires i < n && l < n
    ensures IndiceLettre(i, n) < n
    ensures GroupeDeLettre(l, n) < n && IndiceLettre(GroupeDeLettre(l, n), n) == l
    ensures GroupeDeLettre(IndiceLettre(i, n), n) == i
  {
    var h := (n + 1) / 2;
    if i % 2 == 0 {
      assert IndiceLettre(i, n) == i / 2 < h;
    } else {
      assert IndiceLettre(i, n) == h + i / 2;
    }
    var g := GroupeDeLettre(l, n);
    if l < h {
      assert g == 2 * l && g % 2 == 0 && g / 2 == l;
    } else {
      assert g == 2 * (l - h) + 1 && g % 2 == 1 && g / 2 == l - h;
    }
  }

  /** The first box of group i, at index i * 10 of the layout. */
  lemma PremiereCellule(l: seq<LayoutPosition>, n: nat, i: nat)
    requires |l| == n * 10 && forall k :: 0 <= k < n * 10 ==> l[k] == Cellule(k / 10, k % 10)
    requires i < n
    ensures i * 10 < |l| && l[i * 10] == Cellule(i, 0)
  {
    assert (i * 10) / 10 == i && (i * 10) % 10 == 0;
  }

  /** What generer draws on the page. */
  datatype Trace = Cadre(position: LayoutPosition) | Lettre(lettre: char, x: real, y: real)

  /** The letter of group i, 5 pt right of and 15 pt above its first box. */
  function Etiquette(alphabet: string, i: nat): Trace
    requires i < |alphabet|
  {
    Lettre(alphabet[IndiceLettre(i, |alphabet|)], Cellule(i, 0).x + 5.0, Cellule(i, 0).y - 15.0)
  }

  /**
   * generer: the frame of every box in layout order, then each group's
   * letter 5 pt right of and 15 pt above its first box. It always returns true.
   */
  method Generer(alphabet: string) returns (traces: seq<Trace>, ok: bool)
    ensures ok
    ensures |traces| == |alphabet| * 11
    ensures forall k :: 0 <= k < |alphabet| * 10 ==> traces[k] == Cadre(Cellule(k / 10, k % 10))
    ensures forall i :: 0 <= i < |alphabet| ==> traces[|alphabet| * 10 + i] == Etiquette(alphabet, i)
  {
    var layout := GetLayoutPositions(alphabet);
    var n10 := |layout.lettresCodeAnonymat|;
    traces := [];
    for k := 0 to n10
      invariant traces == seq(k, m requires 0 <= m < k => Cadre(layout.lettresCodeAnonymat[m]))
    {
      traces := traces + [Cadre(layout.lettresCodeAnonymat[k])];
    }
    ghost var cadres := traces;
    var abc := alphabet;
    for i := 0 to |abc|
      invariant |traces| == n10 + i && traces[..n10] == cadres
      invariant forall m :: 0 <= m < i ==> traces[n10 + m] == Etiquette(abc, m)
    {
      IndiceLettreBijectif(|abc|, i, 0);
      var lettre := abc[(i % 2) * ((|abc| + 1) / 2) + i / 2];
      PremiereCellule(layout.lettresCodeAnonymat, |abc|, i);
      var position := layout.lettresCodeAnonymat[i * 10];
      traces := traces + [Lettre(lettre, position.x + 5.0, position.y - 15.0)];
      assert traces[n10 + i] == Etiquette(abc, i);
    }
    forall k | 0 <= k < n10
      ensures traces[k] == Cadre(Cellule(k / 10, k % 10))
    {
      assert traces[k] == traces[..n10][k] == cadres[k];
    }
    ok := true;
  }
}
