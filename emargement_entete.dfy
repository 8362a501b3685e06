// src/core/generation/emargement/renduEnteteEmargement.ts: the header of a
// page of the attendance sheet: the surname range, the title, the page
// label, the épreuve's code and name, and its date, time and room.
module EnteteEmargement {
  import opened Wrappers
  import opened Texte
  import opened DessinPdf
  import InterpretationXLSX

  /** A student as the sheet receives it: (first name, surname). */
  type NomComplet = (string, string)

  /** `s.charAt(0).toUpperCase()`: the capital of the first character, or "" for "". */
  function Initiale(s: string): string
  {
    MajusculeTexte(s[..if |s| > 0 then 1 else 0])
  }

  /** The range label: initials of the first and of the last surname, joined by '-'; "" without names. */
  function LettresAfficher(noms: seq<NomComplet>): string
  {
    if |noms| > 0 then Initiale(noms[0].1) + "-" + Initiale(noms[|noms| - 1].1) else ""
  }

  /**
   * The label is empty exactly when there are no names; otherwise it is
   * the upper-cased first character of the first surname, '-', and that of
   * the last surname (no initial for an empty surname).
   */
  lemma LettresAfficherForme(noms: seq<NomComplet>)
    ensures LettresAfficher(noms) == "" <==> |noms| == 0
    ensures |noms| > 0 && |noms[0].1| > 0 && |noms[|noms| - 1].1| > 0 ==>
      LettresAfficher(noms) == Majuscule(noms[0].1[0]) + "-" + Majuscule(noms[|noms| - 1].1[0])
    ensures |noms| > 0 && |noms[0].1| == 0 ==> LettresAfficher(noms)[0] == '-'
  {
    if |noms| > 0 {
      var a, b := Initiale(noms[0].1), Initiale(noms[|noms| - 1].1);
      assert LettresAfficher(noms) == a + "-" + b;
      assert (a + "-" + b)[|a|] == '-';
      if |noms[0].1| == 0 {
        assert a == "";
      } else {
        InitialeCapitale(noms[0].1);
      }
      if |noms[|noms| - 1].1| > 0 {
        InitialeCapitale(noms[|noms| - 1].1);
      }
    }
  }

  lemma InitialeCapitale(s: string)
    requires |s| > 0
    ensures Initiale(s) == Majuscule(s[0])
  {
    assert s[..1] == [s[0]];
    assert MajusculeTexte([s[0]]) == Majuscule(s[0]) + MajusculeTexte([]);
  }

  /** Only the first and the last names matter, so a page of one name shows "X-X". */
  lemma LettresExtremites(noms: seq<NomComplet>)
    requires |noms| > 0
    ensures LettresAfficher(noms) == LettresAfficher([noms[0], noms[|noms| - 1]])
    ensures |noms| == 1 ==> LettresAfficher(noms) == Initiale(noms[0].1) + "-" + Initiale(noms[0].1)
  {
  }

  const EPREUVE_PAR_DEFAUT: string := "Épreuve"

  /**
   * The épreuve's name: the upper case of its first character (two letters
   * for 'ß'), then every other character lower-cased; "Épreuve" when it is empty.
   */
  function NomEpreuve(nom: string): (r: string)
    ensures |nom| == 0 ==> r == EPREUVE_PAR_DEFAUT
    ensures |nom| > 0 ==> var m := Majuscule(nom[0]);
      |r| == |m| + |nom| - 1 && r[..|m|] == m && forall i :: 1 <= i < |nom| ==> r[|m| + i - 1] == Minuscule(nom[i])
  {
    if |nom| > 0 then Majuscule(nom[0]) + MinusculeTexte(nom[1..]) else EPREUVE_PAR_DEFAUT
  }

  /**
   * A formatted name is formatted again unchanged exactly when it does not
   * start with 'ß' (whose "SS" becomes "Ss"); formatting twice is final.
   */
  lemma NomEpreuveIdempotent(nom: string)
    ensures NomEpreuve(NomEpreuve(nom)) == NomEpreuve(nom) <==> |nom| == 0 || nom[0] != ESZETT
    ensures NomEpreuve(NomEpreuve(NomEpreuve(nom))) == NomEpreuve(NomEpreuve(nom))
  {
    NomEpreuveStable(nom);
    var r := NomEpreuve(nom);
    NomEpreuveStable(r);
    if |nom| > 0 {
      assert r[..|Majuscule(nom[0])|] == Majuscule(nom[0]);
      assert r[0] == Majuscule(nom[0])[0];
    }
  }

  lemma NomEpreuveStable(nom: string)
    ensures NomEpreuve(NomEpreuve(nom)) == NomEpreuve(nom) <==> |nom| == 0 || nom[0] != ESZETT
  {
    if |nom| == 0 {
      NomEpreuveStableVide();
    } else if nom[0] == ESZETT {
      NomEpreuveEszett(nom);
    } else {
      NomEpreuveStableAutre(nom);
    }
  }

  /** "Épreuve" is formatted again unchanged. */
  lemma NomEpreuveStableVide()
    ensures NomEpreuve(EPREUVE_PAR_DEFAUT) == EPREUVE_PAR_DEFAUT
  {
    var r := EPREUVE_PAR_DEFAUT;
    assert r[0] == '\U{C9}' && r[1..] == "preuve";
    assert MinusculeTexte("preuve") == "preuve";
  }

  /** A name starting with 'ß' starts with "SS", which formatting again turns into "Ss". */
  lemma NomEpreuveEszett(nom: string)
    requires |nom| > 0 && nom[0] == ESZETT
    ensures NomEpreuve(NomEpreuve(nom)) != NomEpreuve(nom)
  {
    var r := NomEpreuve(nom);
    assert r[1] == 'S';
    assert NomEpreuve(r)[1] == Minuscule(r[1]);
  }

  /** A name not starting with 'ß' has one capital then lower case, which formatting keeps. */
  lemma NomEpreuveStableAutre(nom: string)
    requires |nom| > 0 && nom[0] != ESZETT
    ensures NomEpreuve(NomEpreuve(nom)) == NomEpreuve(nom)
  {
    var m, reste := Majuscule(nom[0]), MinusculeTexte(nom[1..]);
    CasseStable(nom[1..]);
    CasseCaractere(nom[0]);
    var r := m + reste;
    assert r[0] == m[0] && r[1..] == reste;
    assert MajusculeTexte(m) == Majuscule(m[0]) + MajusculeTexte(m[1..]);
    assert NomEpreuve(r) == Majuscule(r[0]) + MinusculeTexte(r[1..]);
  }

  /** The info line "code - Nom". */
  function InfosTexte(e: InterpretationXLSX.Epreuve): string
  {
    e.codeEpreuve + " - " + NomEpreuve(e.nom)
  }

  /** The info line reads back as the code, the separator and the formatted name. */
  lemma InfosTexteParties(e: InterpretationXLSX.Epreuve)
    ensures var t, n := InfosTexte(e), |e.codeEpreuve|;
      |t| == n + 3 + |NomEpreuve(e.nom)| && t[..n] == e.codeEpreuve && t[n..n + 3] == " - " && t[n + 3..] == NomEpreuve(e.nom)
  {
  }

  /**
   * The instant shown, as written: `dateEpreuve * 1000` reads the stored
   * number as seconds, while the spreadsheet import stores minutes.
   */
  function InstantAfficheTelQuEcrit(e: InterpretationXLSX.Epreuve): int
  {
    e.dateEpreuve * 1000
  }

  /** The instant shown, read in the unit the import stores: minutes. */
  function InstantAffiche(e: InterpretationXLSX.Epreuve): int
  {
    e.dateEpreuve * 60000
  }

  /**
   * The date line "DD/MM/YYYY - HHhmm - salle"; dayjs's formatting of an
   * instant into the calendar fields of a pattern is a parameter.
   */
  function DateTexte(instantMs: int, salle: string, format: (int, string) -> string): string
  {
    format(instantMs, "DD/MM/YYYY") + " - " + format(instantMs, "HH") + "h" + format(instantMs, "mm") + " - " + salle
  }

  /**
   * As written, an épreuve imported from a row of instant ms (any instant
   * from a minute after 1970 on) is shown more than half a minute early, at
   * a sixtieth of its time since 1970, to within half a second.
   */
  lemma DateHorsEchelle(ms: int, e: InterpretationXLSX.Epreuve)
    requires ms >= 60000 && e.dateEpreuve == InterpretationXLSX.Minutes(ms)
    ensures InstantAfficheTelQuEcrit(e) < ms - 30000
    ensures 60 * InstantAfficheTelQuEcrit(e) - 30000 <= ms < 60 * InstantAfficheTelQuEcrit(e) + 30000
  {
  }

  /** 20 May 2026 10:00 UTC is stored as minute 29654520 and shown, as written, on 10 December 1970 at 05:22 UTC. */
  lemma DateHorsEchelleExemple()
    ensures InterpretationXLSX.Minutes(1779271200000) == 29654520
    ensures InstantAfficheTelQuEcrit(InterpretationXLSX.Epreuve(0, "", "", 0, 29654520, 0)) == 29654520000
    ensures 29654520000 < 365 * 86400000
    ensures 29654520000 == ((334 + 9) * 86400 + 5 * 3600 + 22 * 60) * 1000
  {
  }

  /** Read as minutes, the instant shown is the imported one to within the half minute of rounding. */
  lemma DateCorrigee(ms: int, e: InterpretationXLSX.Epreuve)
    requires e.dateEpreuve == InterpretationXLSX.Minutes(ms)
    ensures ms - 30000 < InstantAffiche(e) <= ms + 30000
  {
  }

  const TITRE: string := "LISTE D'ÉMARGEMENT"
  const TITRES_Y: real := 27.0

  /** A text drawn so that its middle is the middle of a page pageW wide; doc.widthOfString is `largeurTexte`. */
  predicate CentreSurPage(el: Element, pageW: real, largeurTexte: (Police, real, string) -> real)
  {
    el.Texte? && el.x + largeurTexte(el.police, el.taille, el.contenu) / 2.0 == pageW / 2.0
  }

  /**
   * renduEnteteEmargement: five texts, in order: the range label at the
   * left margin plus 10; the title, centred, 3 pt higher; the page label,
   * its right edge 11 pt inside the right margin; then, in 13 pt, the
   * info line and the date line, centred, 14 and 31 pt lower. The date is
   * that of the stored minute (the corrected reading).
   */
  method RenduEnteteEmargement(e: InterpretationXLSX.Epreuve, noms: seq<NomComplet>, salle: string,
                               gauche: real, droite: real, pagination: string, pageW: real,
                               largeurTexte: (Police, real, string) -> real, format: (int, string) -> string)
    returns (dessin: seq<Element>)
    ensures |dessin| == 5 && forall k :: 0 <= k < 5 ==> dessin[k].Texte? && dessin[k].alignement == Gauche
    ensures dessin[0] == Texte(LettresAfficher(noms), gauche + 10.0, TITRES_Y, Helvetica, 14.0, Gauche, None)
    ensures dessin[1].contenu == TITRE && dessin[1].police == HelveticaGras && dessin[1].y == TITRES_Y - 3.0
    ensures dessin[2].contenu == pagination && dessin[2].police == Helvetica && dessin[2].y == TITRES_Y &&
      dessin[2].x + largeurTexte(Helvetica, 14.0, pagination) == pageW - droite - 11.0
    ensures dessin[3].contenu == InfosTexte(e) && dessin[3].taille == 13.0 && dessin[3].y == TITRES_Y + 14.0
    ensures dessin[4].contenu == DateTexte(InstantAffiche(e), salle, format) && dessin[4].taille == 13.0 &&
      dessin[4].y == TITRES_Y + 31.0
    ensures CentreSurPage(dessin[1], pageW, largeurTexte) && CentreSurPage(dessin[3], pageW, largeurTexte) &&
      CentreSurPage(dessin[4], pageW, largeurTexte)
  {
    var xDebutLettres := gauche + 10.0;
    dessin := [Texte(LettresAfficher(noms), xDebutLettres, TITRES_Y, Helvetica, 14.0, Gauche, None)];
    var titreLargeur := largeurTexte(HelveticaGras, 14.0, TITRE);
    dessin := dessin + [Texte(TITRE, (pageW - titreLargeur) / 2.0, TITRES_Y - 3.0, HelveticaGras, 14.0, Gauche, None)];
    var paginationLargeur := largeurTexte(Helvetica, 14.0, pagination);
    dessin := dessin + [Texte(pagination, pageW - droite - paginationLargeur - 11.0, TITRES_Y, Helvetica, 14.0, Gauche, None)];
    var infos := InfosTexte(e);
    var infosLargeur := largeurTexte(Helvetica, 13.0, infos);
    dessin := dessin + [Texte(infos, (pageW - infosLargeur) / 2.0, TITRES_Y + 14.0, Helvetica, 13.0, Gauche, None)];
    var date := DateTexte(InstantAffiche(e), salle, format);
    var dateLargeur := largeurTexte(Helvetica, 13.0, date);
    dessin := dessin + [Texte(date, (pageW - dateLargeur) / 2.0, TITRES_Y + 31.0, Helvetica, 13.0, Gauche, None)];
  }
}
