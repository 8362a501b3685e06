// src/core/generation/emargement/genererFeuilleEmargement.ts: the
// attendance sheet, 35 students per page. Each page has the four
// concentric targets in its corners, a header (surname range, title,
// page number), one ruled row per student and the closing rules.
// Measuring text (doc.widthOfString, doc.heightOfString) is a parameter.
module FeuilleEmargement {
  import opened Wrappers
  import opened Texte
  import opened DessinPdf
  import opened PdfUtils
  import GenerationCibles
  import EnteteEmargement

  type NomComplet = EnteteEmargement.NomComplet

  const LIGNES_PAR_PAGE: nat := 35
  const MARGE_HORIZONTALE: real := MmToPoints(12.0)

  /** The corner targets: 7 mm wide, 7 mm from the edges. */
  const CIBLES_MARGE_MM: real := 7.0
  const CIBLES_TAILLE_MM: real := 7.0
  /** Targets plus 3 mm: where the rows start, and how far from the bottom they must end. */
  const HAUTEUR_ZONE_CIBLES_MM: real := CIBLES_MARGE_MM + CIBLES_TAILLE_MM + 3.0
  /** 35 rows share the height of an A4 page (297 mm) less the two target zones. */
  const HAUTEUR_LIGNE_MM: real := (297.0 - 2.0 * HAUTEUR_ZONE_CIBLES_MM) / LIGNES_PAR_PAGE as real
  const TITRE_PAGE: string := "HAI601 - 20/05/2026 - Amphi 5.01"
  const GRIS_LIGNE: string := "#F0F0F0"

  /** Math.ceil(n / 35). */
  function NbPages(n: nat): nat
  {
    (n + LIGNES_PAR_PAGE - 1) / LIGNES_PAR_PAGE
  }

  /** NbPages is the ceiling: the fewest pages of 35 that hold n names, none for none. */
  lemma NbPagesPlafond(n: nat)
    ensures NbPages(n) == 0 <==> n == 0
    ensures n <= NbPages(n) * LIGNES_PAR_PAGE
    ensures n > 0 ==> (NbPages(n) - 1) * LIGNES_PAR_PAGE < n
  {
  }

  /** `noms.slice(35k, 35k + 35)`: both ends are clamped to the length. */
  function Tranche(noms: seq<NomComplet>, k: nat): (r: seq<NomComplet>)
  {
    var debut := if k * LIGNES_PAR_PAGE <= |noms| then k * LIGNES_PAR_PAGE else |noms|;
    var fin := if (k + 1) * LIGNES_PAR_PAGE <= |noms| then (k + 1) * LIGNES_PAR_PAGE else |noms|;
    noms[debut..fin]
  }

  /** The names of the first p pages, in order. */
  function Tranches(noms: seq<NomComplet>, p: nat): seq<NomComplet>
  {
    if p == 0 then [] else Tranches(noms, p - 1) + Tranche(noms, p - 1)
  }

  /** The first p pages hold the first 35p names (all of them when there are fewer). */
  lemma {:induction false} TranchesPrefixe(noms: seq<NomComplet>, p: nat)
    ensures Tranches(noms, p) == noms[..if p * LIGNES_PAR_PAGE <= |noms| then p * LIGNES_PAR_PAGE else |noms|]
  {
    if p > 0 {
      TranchesPrefixe(noms, p - 1);
      var a := if (p - 1) * LIGNES_PAR_PAGE <= |noms| then (p - 1) * LIGNES_PAR_PAGE else |noms|;
      var b := if p * LIGNES_PAR_PAGE <= |noms| then p * LIGNES_PAR_PAGE else |noms|;
      assert noms[..a] + noms[a..b] == noms[..b];
    }
  }

  /**
   * The pages put back together give the names in their order; every page
   * but the last is full and the last holds between 1 and 35 names.
   */
  lemma PagesPartition(noms: seq<NomComplet>)
    ensures Tranches(noms, NbPages(|noms|)) == noms
    ensures forall k :: 0 <= k < NbPages(|noms|) - 1 ==> |Tranche(noms, k)| == LIGNES_PAR_PAGE
    ensures |noms| > 0 ==> 1 <= |Tranche(noms, NbPages(|noms|) - 1)| <= LIGNES_PAR_PAGE
  {
    NbPagesPlafond(|noms|);
    TranchesPrefixe(noms, NbPages(|noms|));
  }

  /** The top of row i (the bottom of row i - 1), in points. */
  function YLigne(i: nat): real
  {
    MmToPoints(HAUTEUR_ZONE_CIBLES_MM + i as real * HAUTEUR_LIGNE_MM)
  }

  /**
   * The rows tile the space between the target zones: row 0 starts 17 mm
   * from the top, each row is HAUTEUR_LIGNE_MM high, and row 35 would
   * start 17 mm from the bottom.
   */
  lemma LignesEntreCibles(i: nat)
    ensures YLigne(0) == MmToPoints(17.0)
    ensures YLigne(i + 1) - YLigne(i) == MmToPoints(HAUTEUR_LIGNE_MM) > 0.0
    ensures YLigne(LIGNES_PAR_PAGE) == MmToPoints(297.0 - 17.0)
  {
    MmToPointsAdditive(HAUTEUR_ZONE_CIBLES_MM + (i + 1) as real * HAUTEUR_LIGNE_MM, HAUTEUR_ZONE_CIBLES_MM + i as real * HAUTEUR_LIGNE_MM);
  }

  /**
   * The row of student i in points: a grey background on odd rows, the
   * rule at the row's top, the surname in capitals (bold) and ' ' + first
   * name just after it, both set so that their block is centred in the
   * row. The surname and the block "NOM prénom" are measured in regular
   * 12 pt Helvetica, the font current when they are measured.
   */
  function Ligne(i: nat, nom: NomComplet, pageW: real,
                 largeurTexte: (Police, real, string) -> real, hauteurTexte: (Police, real, string) -> real)
    : seq<Element>
  {
    var yDebut := YLigne(i);
    var yFin := YLigne(i + 1);
    var nomMaj := MajusculeTexte(nom.1);
    var hauteurNomComplet := hauteurTexte(Helvetica, 12.0, nomMaj + " " + nom.0);
    var yTexte := (yDebut + yFin) / 2.0 - ((yFin - yDebut) - hauteurNomComplet) / 2.0;
    var xTexte := MARGE_HORIZONTALE + MmToPoints(2.0);
    (if i % 2 == 1 then [Fond(MARGE_HORIZONTALE, yDebut, pageW - MARGE_HORIZONTALE - MARGE_HORIZONTALE, MmToPoints(HAUTEUR_LIGNE_MM), GRIS_LIGNE)] else []) +
    [Trait(MARGE_HORIZONTALE, yDebut, pageW - MARGE_HORIZONTALE, yDebut),
     Texte(nomMaj, xTexte, yTexte, HelveticaGras, 12.0, Gauche, None),
     Texte(" " + nom.0, xTexte + largeurTexte(Helvetica, 12.0, nomMaj) + 2.0, yTexte, Helvetica, 12.0, Gauche, None)]
  }

  /**
   * A row is shaded exactly when its index is odd, and the shading covers
   * the row's whole height between the margins; the texts' block starts at
   * the row's top plus half its own height; the first name follows the
   * surname's measured width plus 2 pt.
   */
  lemma LigneForme(i: nat, nom: NomComplet, pageW: real,
                   largeurTexte: (Police, real, string) -> real, hauteurTexte: (Police, real, string) -> real)
    ensures var l, d := Ligne(i, nom, pageW, largeurTexte, hauteurTexte), if i % 2 == 1 then 1 else 0;
      |l| == 3 + d && (l[0].Fond? <==> i % 2 == 1) &&
      (i % 2 == 1 ==> l[0].x == MARGE_HORIZONTALE && l[0].x + l[0].largeur == pageW - MARGE_HORIZONTALE &&
                      l[0].y == YLigne(i) && l[0].y + l[0].hauteur == YLigne(i + 1)) &&
      l[d] == Trait(MARGE_HORIZONTALE, YLigne(i), pageW - MARGE_HORIZONTALE, YLigne(i)) &&
      l[d + 1].contenu == MajusculeTexte(nom.1) && l[d + 2].contenu == " " + nom.0 &&
      l[d + 1].y == l[d + 2].y == YLigne(i) + hauteurTexte(Helvetica, 12.0, MajusculeTexte(nom.1) + " " + nom.0) / 2.0 &&
      l[d + 2].x == l[d + 1].x + largeurTexte(Helvetica, 12.0, MajusculeTexte(nom.1)) + 2.0
  {
    LignesEntreCibles(i);
  }

  /** A rendered page: its targets, its header texts, its rows and its closing rules. */
  datatype PageEmargement = PageEmargement(cibles: seq<GenerationCibles.Cercle>, entete: seq<Element>,
                                           lignes: seq<seq<Element>>, fermeture: seq<Element>)

  /** The x of the three vertical rules: left margin, signature column, right margin. */
  function Colonnes(pageW: real): seq<real>
  {
    [MARGE_HORIZONTALE, pageW - MARGE_HORIZONTALE - 100.0, pageW - MARGE_HORIZONTALE]
  }

  /** The baseline height of the header: the middle of the targets, plus 0.5 mm. */
  const TITRES_Y: real := MmToPoints(CIBLES_MARGE_MM + CIBLES_TAILLE_MM / 2.0 + 0.5)

  /**
   * The header of page numPage: the range label at 16 mm and the title
   * in bold, both 14 pt on the header line; "Page n" in 10 pt, 28 pt above
   * the bottom; title and page label centred on their measured width.
   */
  function Entete(noms: seq<NomComplet>, numPage: nat, pageW: real, pageH: real,
                  largeurTexte: (Police, real, string) -> real): seq<Element>
  {
    var pageTexte := "Page " + NatToString(numPage);
    [Texte(EnteteEmargement.LettresAfficher(noms), MmToPoints(CIBLES_MARGE_MM + CIBLES_TAILLE_MM + 2.0), TITRES_Y, Helvetica, 14.0, Gauche, None),
     Texte(TITRE_PAGE, (pageW - largeurTexte(HelveticaGras, 14.0, TITRE_PAGE)) / 2.0, TITRES_Y, HelveticaGras, 14.0, Gauche, None),
     Texte(pageTexte, (pageW - largeurTexte(Helvetica, 10.0, pageTexte)) / 2.0, pageH - 28.0, Helvetica, 10.0, Gauche, None)]
  }

  /**
   * The header's texts: the range label of the page's names, then the
   * title and the page number, each centred on the page and on the same
   * line as the label and in the bottom margin respectively.
   */
  lemma EnteteForme(noms: seq<NomComplet>, numPage: nat, pageW: real, pageH: real,
                    largeurTexte: (Police, real, string) -> real)
    ensures var e := Entete(noms, numPage, pageW, pageH, largeurTexte);
      |e| == 3 && e[0].contenu == EnteteEmargement.LettresAfficher(noms) && e[0].x == MmToPoints(16.0) &&
      e[1].y == e[0].y == MmToPoints(11.0) && e[2].y == pageH - 28.0 &&
      e[2].contenu == "Page " + NatToString(numPage) &&
      EnteteEmargement.CentreSurPage(e[1], pageW, largeurTexte) && EnteteEmargement.CentreSurPage(e[2], pageW, largeurTexte)
  {
  }

  /** The rows of a page, one per name. */
  function Lignes(noms: seq<NomComplet>, pageW: real,
                  largeurTexte: (Police, real, string) -> real, hauteurTexte: (Police, real, string) -> real)
    : (r: seq<seq<Element>>)
    ensures |r| == |noms|
  {
    seq(|noms|, i requires 0 <= i < |noms| => Ligne(i, noms[i], pageW, largeurTexte, hauteurTexte))
  }

  /** The rule closing the last of n rows, then the three vertical rules from the first row's top down to it. */
  function Fermeture(n: nat, pageW: real): seq<Element>
  {
    [Trait(MARGE_HORIZONTALE, YLigne(n), pageW - MARGE_HORIZONTALE, YLigne(n))] +
    seq(3, j requires 0 <= j < 3 => Trait(Colonnes(pageW)[j], MmToPoints(HAUTEUR_ZONE_CIBLES_MM), Colonnes(pageW)[j], YLigne(n)))
  }

  /**
   * The closing rule is the bottom of the last row and joins the two
   * margins, where the outer vertical rules stand; every vertical rule is
   * vertical and runs from the first row's top to it. A full page closes
   * 17 mm from the bottom.
   */
  lemma FermetureForme(n: nat, pageW: real)
    ensures var f := Fermeture(n, pageW);
      |f| == 4 && f[0].y1 == f[0].y2 == YLigne(n) &&
      f[0].x1 == f[1].x1 && f[0].x2 == f[3].x1 &&
      (forall j :: 1 <= j < 4 ==> f[j].x1 == f[j].x2 && f[j].y1 == MmToPoints(17.0) && f[j].y2 == YLigne(n)) &&
      (n == LIGNES_PAR_PAGE ==> f[0].y1 == MmToPoints(297.0 - 17.0))
  {
    var f := Fermeture(n, pageW);
    assert f[1].x1 == Colonnes(pageW)[0] && f[3].x1 == Colonnes(pageW)[2];
    LignesEntreCibles(0);
  }

  /**
   * What renduPageEmargement draws for the names of page numPage: the
   * targets of 7 mm at 7 mm from the edges, the header, the rows and the
   * closing rules.
   */
  function PageAttendue(noms: seq<NomComplet>, numPage: nat, pageW: real, pageH: real,
                        largeurTexte: (Police, real, string) -> real, hauteurTexte: (Police, real, string) -> real)
    : PageEmargement
  {
    PageEmargement(GenerationCibles.Dessin(4, pageW, pageH, MmToPoints(CIBLES_TAILLE_MM), MmToPoints(CIBLES_MARGE_MM)),
                   Entete(noms, numPage, pageW, pageH, largeurTexte),
                   Lignes(noms, pageW, largeurTexte, hauteurTexte),
                   Fermeture(|noms|, pageW))
  }

  /** The loop of renduPageEmargement over the page's names: one row each, in order. */
  method RenduLignes(noms: seq<NomComplet>, pageW: real,
                     largeurTexte: (Police, real, string) -> real, hauteurTexte: (Police, real, string) -> real)
    returns (lignes: seq<seq<Element>>)
    ensures lignes == Lignes(noms, pageW, largeurTexte, hauteurTexte)
  {
    lignes := [];
    var xDebutLettres := MARGE_HORIZONTALE;
    for i := 0 to |noms|
      invariant |lignes| == i
      invariant forall k :: 0 <= k < i ==> lignes[k] == Ligne(k, noms[k], pageW, largeurTexte, hauteurTexte)
    {
      var yDebut := MmToPoints(HAUTEUR_ZONE_CIBLES_MM + i as real * HAUTEUR_LIGNE_MM);
      var yFin := MmToPoints(HAUTEUR_ZONE_CIBLES_MM + (i + 1) as real * HAUTEUR_LIGNE_MM);
      var yMillieu := (yDebut + yFin) / 2.0;
      var ligne: seq<Element> := [];
      if i % 2 == 1 {
        ligne := ligne + [Fond(xDebutLettres, yDebut, pageW - MARGE_HORIZONTALE - xDebutLettres, MmToPoints(HAUTEUR_LIGNE_MM), GRIS_LIGNE)];
      }
      ligne := ligne + [Trait(xDebutLettres, yDebut, pageW - MARGE_HORIZONTALE, yDebut)];
      var nom := MajusculeTexte(noms[i].1);
      var prenom := noms[i].0;
      var hauteurNomComplet := hauteurTexte(Helvetica, 12.0, nom + " " + prenom);
      var largeurNom := largeurTexte(Helvetica, 12.0, nom);
      var hauteurLigne := yFin - yDebut;
      var yTexte := yMillieu - (hauteurLigne - hauteurNomComplet) / 2.0;
      ligne := ligne + [Texte(nom, xDebutLettres + MmToPoints(2.0), yTexte, HelveticaGras, 12.0, Gauche, None)];
      ligne := ligne + [Texte(" " + prenom, xDebutLettres + MmToPoints(2.0) + largeurNom + 2.0, yTexte, Helvetica, 12.0, Gauche, None)];
      assert ligne == Ligne(i, noms[i], pageW, largeurTexte, hauteurTexte);
      lignes := lignes + [ligne];
    }
  }

  /** renduPageEmargement. */
  method RenduPageEmargement(noms: seq<NomComplet>, numPage: nat, pageW: real, pageH: real,
                             largeurTexte: (Police, real, string) -> real, hauteurTexte: (Police, real, string) -> real)
    returns (page: PageEmargement)
    ensures page == PageAttendue(noms, numPage, pageW, pageH, largeurTexte, hauteurTexte)
  {
    var cibles := GenerationCibles.GenererCiblesConcentriques(pageW, pageH, CIBLES_TAILLE_MM, CIBLES_MARGE_MM);

    var titresY := MmToPoints(CIBLES_MARGE_MM + CIBLES_TAILLE_MM / 2.0 + 0.5);
    var xDebutLettres := MARGE_HORIZONTALE;
    var lettres := EnteteEmargement.LettresAfficher(noms);
    var entete := [Texte(lettres, MmToPoints(CIBLES_MARGE_MM + CIBLES_TAILLE_MM + 2.0), titresY, Helvetica, 14.0, Gauche, None)];
    var titreLargeur := largeurTexte(HelveticaGras, 14.0, TITRE_PAGE);
    entete := entete + [Texte(TITRE_PAGE, (pageW - titreLargeur) / 2.0, titresY, HelveticaGras, 14.0, Gauche, None)];
    var pageTexte := "Page " + NatToString(numPage);
    var pageLargeur := largeurTexte(Helvetica, 10.0, pageTexte);
    entete := entete + [Texte(pageTexte, (pageW - pageLargeur) / 2.0, pageH - 28.0, Helvetica, 10.0, Gauche, None)];

    var lignes := RenduLignes(noms, pageW, largeurTexte, hauteurTexte);

    var yFinPage := MmToPoints(HAUTEUR_ZONE_CIBLES_MM + |noms| as real * HAUTEUR_LIGNE_MM);
    var fermeture := [Trait(MARGE_HORIZONTALE, yFinPage, pageW - MARGE_HORIZONTALE, yFinPage)];
    var xPositionColonnes := [xDebutLettres, pageW - MARGE_HORIZONTALE - 100.0, pageW - MARGE_HORIZONTALE];
    assert xPositionColonnes == Colonnes(pageW);
    for j := 0 to |xPositionColonnes|
      invariant |fermeture| == 1 + j
      invariant forall k :: 0 <= k < 1 + j ==> fermeture[k] == Fermeture(|noms|, pageW)[k]
    {
      var xPos := xPositionColonnes[j];
      var yDebut := MmToPoints(HAUTEUR_ZONE_CIBLES_MM);
      var yFin := MmToPoints(HAUTEUR_ZONE_CIBLES_MM + |noms| as real * HAUTEUR_LIGNE_MM);
      fermeture := fermeture + [Trait(xPos, yDebut, xPos, yFin)];
    }
    assert fermeture == Fermeture(|noms|, pageW);
    page := PageEmargement(cibles, entete, lignes, fermeture);
  }

  /** One page of the document: whether addPage() was called before it, and what was drawn on it. */
  datatype Feuillet = Feuillet(nouvellePage: bool, page: PageEmargement)

  /** The sheets of the first p pages, as the loop of genererFeuilleEmargement produces them. */
  function Feuillets(noms: seq<NomComplet>, p: nat, pageW: real, pageH: real,
                     largeurTexte: (Police, real, string) -> real, hauteurTexte: (Police, real, string) -> real)
    : seq<Feuillet>
  {
    if p == 0 then []
    else Feuillets(noms, p - 1, pageW, pageH, largeurTexte, hauteurTexte)
         + [Feuillet(p > 1, PageAttendue(Tranche(noms, p - 1), p, pageW, pageH, largeurTexte, hauteurTexte))]
  }

  /** Sheet k of the first p pages is page k + 1 of names Tranche(noms, k), on a new page unless it is the first. */
  lemma {:induction false} FeuilletsIndex(noms: seq<NomComplet>, p: nat, pageW: real, pageH: real,
                                          largeurTexte: (Police, real, string) -> real, hauteurTexte: (Police, real, string) -> real)
    ensures |Feuillets(noms, p, pageW, pageH, largeurTexte, hauteurTexte)| == p
    ensures forall k :: 0 <= k < p ==>
      Feuillets(noms, p, pageW, pageH, largeurTexte, hauteurTexte)[k]
        == Feuillet(k > 0, PageAttendue(Tranche(noms, k), k + 1, pageW, pageH, largeurTexte, hauteurTexte))
  {
    if p > 0 {
      var avant := Feuillets(noms, p - 1, pageW, pageH, largeurTexte, hauteurTexte);
      var dernier := Feuillet(p > 1, PageAttendue(Tranche(noms, p - 1), p, pageW, pageH, largeurTexte, hauteurTexte));
      assert Feuillets(noms, p, pageW, pageH, largeurTexte, hauteurTexte) == avant + [dernier];
      FeuilletsIndex(noms, p - 1, pageW, pageH, largeurTexte, hauteurTexte);
      forall k | 0 <= k < p
        ensures (avant + [dernier])[k]
          == Feuillet(k > 0, PageAttendue(Tranche(noms, k), k + 1, pageW, pageH, largeurTexte, hauteurTexte))
      {
        if k < p - 1 {
          assert (avant + [dernier])[k] == avant[k];
        }
      }
    }
  }

  /**
   * genererFeuilleEmargement: ⌈n/35⌉ pages; page k starts with addPage()
   * exactly when k > 0 and is drawn for names [35k, 35k + 35), numbered
   * k + 1. The result is always false.
   */
  method GenererFeuilleEmargement(noms: seq<NomComplet>, pageW: real, pageH: real,
                                  largeurTexte: (Police, real, string) -> real, hauteurTexte: (Police, real, string) -> real)
    returns (r: bool, document: seq<Feuillet>)
    ensures !r
    ensures |document| == NbPages(|noms|)
    ensures forall k :: 0 <= k < |document| ==>
      document[k] == Feuillet(k > 0, PageAttendue(Tranche(noms, k), k + 1, pageW, pageH, largeurTexte, hauteurTexte))
  {
    var nbPages := (|noms| + LIGNES_PAR_PAGE - 1) / LIGNES_PAR_PAGE;
    var pageIndex := 0;
    document := [];
    while pageIndex < nbPages
      invariant 0 <= pageIndex <= nbPages
      invariant document == Feuillets(noms, pageIndex, pageW, pageH, largeurTexte, hauteurTexte)
    {
      var nouvelle := pageIndex > 0;
      var nomsPage := Tranche(noms, pageIndex);
      var page := RenduPageEmargement(nomsPage, pageIndex + 1, pageW, pageH, largeurTexte, hauteurTexte);
      document := document + [Feuillet(nouvelle, page)];
      pageIndex := pageIndex + 1;
    }
    FeuilletsIndex(noms, nbPages, pageW, pageH, largeurTexte, hauteurTexte);
    r := false;
  }
}
