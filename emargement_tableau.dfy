// src/core/generation/emargement/renduTableauEmargement.ts: the table of an
// attendance-sheet page: five columns given as percentages of the table's
// width, the vertical rules between them, one row per student and the
// header row of column titles.
module TableauEmargement {
  import opened Wrappers
  import opened DessinPdf
  import opened Texte
  import PdfUtils

  /** ColonneTableau. */
  datatype Colonne = Colonne(titre: string, largeurPourcent: real)

  const COLONNES_TABLEAU: seq<Colonne> :=
    [Colonne("", 4.0), Colonne("Nom", 32.0), Colonne("Prénom", 25.0), Colonne("N° Étudiant", 15.0), Colonne("Émargement", 24.0)]

  /** The inner margin of a cell: 2 mm. */
  const MARGE_INTERNE: real := PdfUtils.MmToPoints(2.0)

  const GRIS_LIGNE: string := "#F0F0F0"
  const GRIS_ENTETE: string := "#d6d4d4"

  /** Column i's percentage; 0 past the last column (the closing rule). */
  function Pourcent(i: nat): real
  {
    if i < |COLONNES_TABLEAU| then COLONNES_TABLEAU[i].largeurPourcent else 0.0
  }

  /** The percentages of the columns before index k. */
  function Cumul(k: nat): real
  {
    if k == 0 then 0.0 else Cumul(k - 1) + Pourcent(k - 1)
  }

  /** The widths add up to the whole table. */
  lemma CumulTotal()
    ensures Cumul(5) == 100.0 && Cumul(6) == 100.0
  {
  }

  /** The x of the rule before column k, for a table at x that is largeur wide. */
  function Bord(x: real, largeur: real, k: nat): real
  {
    x + Cumul(k) / 100.0 * largeur
  }

  /** Column k is its percentage of the width wide. */
  lemma BordSuivant(x: real, largeur: real, k: nat)
    ensures Bord(x, largeur, k + 1) == Bord(x, largeur, k) + Pourcent(k) / 100.0 * largeur
  {
    Distributivite(Cumul(k), Pourcent(k), largeur);
  }

  lemma Distributivite(a: real, b: real, l: real)
    ensures (a + b) / 100.0 * l == a / 100.0 * l + b / 100.0 * l
  {
  }

  /** The rules run from x to x + largeur, strictly left to right when the table has a width. */
  lemma BordsOrdonnes(x: real, largeur: real, k: nat)
    requires k < 5 && largeur > 0.0
    ensures Bord(x, largeur, 0) == x && Bord(x, largeur, 5) == x + largeur
    ensures Bord(x, largeur, k) < Bord(x, largeur, k + 1)
  {
    CumulTotal();
    BordSuivant(x, largeur, k);
    assert Pourcent(k) > 0.0;
    assert Pourcent(k) / 100.0 * largeur > 0.0;
  }

  /**
   * A cell text of column k: it starts one inner margin right of the
   * column's left rule and its width option ends one inner margin left of
   * the next rule.
   */
  predicate DansColonne(el: Element, x: real, largeur: real, k: nat)
  {
    el.Texte? && el.largeurMax.Some? &&
    el.x == Bord(x, largeur, k) + MARGE_INTERNE &&
    el.x + el.largeurMax.value == Bord(x, largeur, k + 1) - MARGE_INTERNE
  }

  /** The text of column k, starting at the column's left rule xCol. */
  function TexteCellule(contenu: string, xCol: real, k: nat, yTexte: real, police: Police, taille: real,
                        alignement: Alignement, largeur: real): Element
  {
    Texte(contenu, xCol + MARGE_INTERNE, yTexte, police, taille, alignement,
          Some(Pourcent(k) / 100.0 * largeur - 2.0 * MARGE_INTERNE))
  }

  lemma TexteCelluleDansColonne(contenu: string, x: real, k: nat, yTexte: real, police: Police, taille: real,
                                alignement: Alignement, largeur: real)
    ensures DansColonne(TexteCellule(contenu, Bord(x, largeur, k), k, yTexte, police, taille, alignement, largeur), x, largeur, k)
  {
    BordSuivant(x, largeur, k);
  }

  /**
   * renduTableauEmargement: six vertical rules, one before each column and
   * the closing one, rule k at Bord(k), each spanning the nbLignes rows
   * from y down.
   */
  method RenduTableauEmargement(x: real, y: real, tailleLigne: real, nbLignes: nat, largeur: real)
    returns (dessin: seq<Element>)
    ensures |dessin| == |COLONNES_TABLEAU| + 1
    ensures forall k :: 0 <= k < |dessin| ==>
      dessin[k] == Trait(Bord(x, largeur, k), y, Bord(x, largeur, k), y + nbLignes as real * tailleLigne)
    ensures dessin[0].x1 == x && dessin[5].x1 == x + largeur
  {
    var xCourant := x;
    dessin := [];
    for i := 0 to |COLONNES_TABLEAU| + 1
      invariant |dessin| == i
      invariant xCourant == Bord(x, largeur, i)
      invariant forall k :: 0 <= k < i ==>
        dessin[k] == Trait(Bord(x, largeur, k), y, Bord(x, largeur, k), y + nbLignes as real * tailleLigne)
    {
      var colLargeur := if i < |COLONNES_TABLEAU| then (COLONNES_TABLEAU[i].largeurPourcent / 100.0) * largeur else 0.0;
      var xPos := xCourant;
      var yFin := y + nbLignes as real * tailleLigne;
      dessin := dessin + [Trait(xPos, y, xPos, yFin)];
      BordSuivant(x, largeur, i);
      xCourant := xCourant + colLargeur;
    }
    CumulTotal();
  }

  /**
   * renduLigneEmargement for the row of index i at (x, y): a grey
   * background on odd rows only, the rule above the row, a 3 mm box
   * centred in the first column at mid-height, then the surname in
   * capitals (bold), the first name and, centred, the student number, each
   * within its column. `hauteurLigneTexte` is doc.currentLineHeight() for
   * bold text of half the row's height.
   */
  method RenduLigneEmargement(i: nat, x: real, y: real, largeur: real, hauteur: real,
                              nom: string, prenom: string, numEtudiant: string, hauteurLigneTexte: real)
    returns (dessin: seq<Element>)
    ensures var d := if i % 2 == 1 then 1 else 0;
      |dessin| == 5 + d &&
      (i % 2 == 1 <==> dessin[0].Fond?) &&
      (i % 2 == 1 ==> dessin[0] == Fond(x, y, largeur, hauteur, GRIS_LIGNE)) &&
      dessin[d] == Trait(x, y, x + largeur, y) &&
      dessin[d + 1].Cadre? &&
      dessin[d + 1].largeur == PdfUtils.MmToPoints(3.0) && dessin[d + 1].hauteur == PdfUtils.MmToPoints(3.0) &&
      dessin[d + 1].x + dessin[d + 1].largeur / 2.0 == (Bord(x, largeur, 0) + Bord(x, largeur, 1)) / 2.0 &&
      dessin[d + 1].y + dessin[d + 1].hauteur / 2.0 == y + hauteur / 2.0 &&
      DansColonne(dessin[d + 2], x, largeur, 1) && DansColonne(dessin[d + 3], x, largeur, 2) &&
      DansColonne(dessin[d + 4], x, largeur, 3) &&
      dessin[d + 2].contenu == MajusculeTexte(nom) && dessin[d + 2].police == HelveticaGras &&
      dessin[d + 3].contenu == prenom && dessin[d + 3].police == Helvetica && dessin[d + 3].alignement == Gauche &&
      dessin[d + 4].contenu == numEtudiant && dessin[d + 4].police == Helvetica && dessin[d + 4].alignement == Centre &&
      (forall k :: d + 2 <= k < d + 5 ==>
         dessin[k].taille == hauteur * 0.5 && dessin[k].y == y + (hauteur - hauteurLigneTexte) / 2.0 + 1.3)
  {
    dessin := [];
    if i % 2 == 1 {
      dessin := dessin + [Fond(x, y, largeur, hauteur, GRIS_LIGNE)];
    }
    dessin := dessin + [Trait(x, y, x + largeur, y)];

    var xCourant := x;
    var tailleCarre := PdfUtils.MmToPoints(3.0);
    var xCentreColonne := xCourant + (COLONNES_TABLEAU[0].largeurPourcent / 100.0) * largeur / 2.0;
    var yCentreLigne := y + hauteur / 2.0;
    dessin := dessin + [Cadre(xCentreColonne - tailleCarre / 2.0, yCentreLigne - tailleCarre / 2.0, tailleCarre, tailleCarre)];
    BordSuivant(x, largeur, 0);
    xCourant := xCourant + (COLONNES_TABLEAU[0].largeurPourcent / 100.0) * largeur;

    var taille := hauteur * 0.5;
    var yTexte := y + (hauteur - hauteurLigneTexte) / 2.0 + 1.3;
    var colonneNom := (COLONNES_TABLEAU[1].largeurPourcent / 100.0) * largeur;
    dessin := dessin + [TexteCellule(MajusculeTexte(nom), xCourant, 1, yTexte, HelveticaGras, taille, Gauche, largeur)];
    TexteCelluleDansColonne(MajusculeTexte(nom), x, 1, yTexte, HelveticaGras, taille, Gauche, largeur);
    BordSuivant(x, largeur, 1);
    xCourant := xCourant + colonneNom;

    var colonnePrenom := (COLONNES_TABLEAU[2].largeurPourcent / 100.0) * largeur;
    dessin := dessin + [TexteCellule(prenom, xCourant, 2, yTexte, Helvetica, taille, Gauche, largeur)];
    TexteCelluleDansColonne(prenom, x, 2, yTexte, Helvetica, taille, Gauche, largeur);
    BordSuivant(x, largeur, 2);
    xCourant := xCourant + colonnePrenom;

    dessin := dessin + [TexteCellule(numEtudiant, xCourant, 3, yTexte, Helvetica, taille, Centre, largeur)];
    TexteCelluleDansColonne(numEtudiant, x, 3, yTexte, Helvetica, taille, Centre, largeur);
  }

  /** The header text of column k: in the column, its title, bold at the given size and height, centred from the fourth column on. */
  predicate TitreColonne(e: Element, x: real, largeur: real, k: nat, taille: real, yTexte: real)
    requires k < |COLONNES_TABLEAU|
  {
    DansColonne(e, x, largeur, k) && e.contenu == COLONNES_TABLEAU[k].titre &&
    e.police == HelveticaGras && e.taille == taille && e.y == yTexte &&
    (e.alignement == Centre <==> k >= 3)
  }

  /**
   * renduEnteteTableauEmargement: the grey background, the rule above,
   * then the five titles in bold at half the row's height, each within its
   * column, left-aligned in the first three columns and centred from the
   * fourth on.
   */
  method RenduEnteteTableauEmargement(x: real, y: real, largeur: real, hauteur: real, hauteurLigneTexte: real)
    returns (dessin: seq<Element>)
    ensures |dessin| == 2 + |COLONNES_TABLEAU|
    ensures dessin[0] == Fond(x, y, largeur, hauteur, GRIS_ENTETE) && dessin[1] == Trait(x, y, x + largeur, y)
    ensures forall k :: 0 <= k < |COLONNES_TABLEAU| ==>
      DansColonne(dessin[2 + k], x, largeur, k) && dessin[2 + k].contenu == COLONNES_TABLEAU[k].titre &&
      dessin[2 + k].police == HelveticaGras && dessin[2 + k].taille == hauteur * 0.5 &&
      dessin[2 + k].y == y + (hauteur - hauteurLigneTexte) / 2.0 + 1.3 &&
      (dessin[2 + k].alignement == Centre <==> k >= 3)
  {
    var xCourant := x;
    var taille := hauteur * 0.5;
    var yTexte := y + (hauteur - hauteurLigneTexte) / 2.0 + 1.3;
    dessin := [Fond(x, y, largeur, hauteur, GRIS_ENTETE), Trait(x, y, x + largeur, y)];
    for i := 0 to |COLONNES_TABLEAU|
      invariant |dessin| == 2 + i
      invariant xCourant == Bord(x, largeur, i)
      invariant dessin[0] == Fond(x, y, largeur, hauteur, GRIS_ENTETE) && dessin[1] == Trait(x, y, x + largeur, y)
      invariant forall m :: 2 <= m < 2 + i ==> TitreColonne(dessin[m], x, largeur, m - 2, taille, yTexte)
    {
      var col := COLONNES_TABLEAU[i];
      var tailleColonne := (col.largeurPourcent / 100.0) * largeur;
      var alignement := if i >= 3 then Centre else Gauche;
      var cellule := TexteCellule(col.titre, xCourant, i, yTexte, HelveticaGras, taille, alignement, largeur);
      TexteCelluleDansColonne(col.titre, x, i, yTexte, HelveticaGras, taille, alignement, largeur);
      assert TitreColonne(cellule, x, largeur, i, taille, yTexte);
      dessin := dessin + [cellule];
      BordSuivant(x, largeur, i);
      xCourant := xCourant + tailleColonne;
    }
  }
}
