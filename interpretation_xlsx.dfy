// src/core/xlsx/interpretationXLSX.ts: the rows of the convocation
// spreadsheet of a session are validated one by one, filtered, and each kept
// row creates its student and its épreuve when the caches do not hold them.
// The first invalid row stops the run; what was inserted before stays.
module InterpretationXLSX {
  import opened Wrappers
  import opened Erreurs
  import opened Texte

  /** Column names of the spreadsheet (CHAMPS_INTERPRETATION). */
  const COL_DATE := "DAT_DEB_PES"
  const COL_HEURE := "HORAIRE"
  const COL_SALLE := "COD_SAL"
  const COL_CODE_EPREUVE := "COD_EPR"
  const COL_NOM_EPREUVE := "LIC_RES"
  const COL_PRENOM := "LIB_PR1_IND"
  const COL_NOM := "LIB_NOM_PAT_IND"
  const COL_CODE_ETUDIANT := "COD_ETU"

  /** EpreuveStatut.MATERIEL_NON_IMPRIME. */
  const MATERIEL_NON_IMPRIME := 1

  /** A cell as the spreadsheet reader gives it: missing, text, or an integer. */
  datatype Cellule = Absente | Texte(s: string) | Nombre(n: int)

  /** A row: column name to cell. */
  type Ligne = map<string, Cellule>

  function Cell(row: Ligne, col: string): Cellule
  {
    if col in row then row[col] else Absente
  }

  /** JavaScript truthiness of a cell: undefined, "" and 0 are falsy. */
  predicate Vrai(c: Cellule)
  {
    match c
    case Absente => false
    case Texte(s) => s != ""
    case Nombre(n) => n != 0
  }

  /** String(value) of a cell. */
  function EnTexte(c: Cellule): string
  {
    match c
    case Absente => "undefined"
    case Texte(s) => s
    case Nombre(n) => IntToString(n)
  }

  /** replaceAll(' ', ''): every space removed, every other character kept in order. */
  function SansEspaces(s: string): (r: string)
    ensures forall k :: 0 <= k < |r| ==> r[k] != ' '
    ensures |r| <= |s|
    ensures (forall k :: 0 <= k < |s| ==> s[k] != ' ') ==> r == s
  {
    if |s| == 0 then "" else (if s[0] == ' ' then "" else [s[0]]) + SansEspaces(s[1..])
  }

  /** Removing spaces twice is removing them once. */
  lemma SansEspacesIdempotent(s: string)
    ensures SansEspaces(SansEspaces(s)) == SansEspaces(s)
  {
  }

  // ---- parseInt --------------------------------------------------------

  /** The value of a digit in the given base (10 or 16), if it is one. */
  function ValeurChiffre(c: char, base: nat): (d: Option<nat>)
    ensures base == 10 ==> (d.Some? <==> '0' <= c <= '9')
    ensures base == 10 && d.Some? ==> d.value == (c as int) - ('0' as int)
  {
    if '0' <= c <= '9' && ((c as int) - ('0' as int)) < base then Some((c as int) - ('0' as int))
    else if base == 16 && 'a' <= c <= 'f' then Some((c as int) - ('a' as int) + 10)
    else if base == 16 && 'A' <= c <= 'F' then Some((c as int) - ('A' as int) + 10)
    else None
  }

  /** Length of the longest prefix made of digits of the base. */
  function PrefixeChiffres(s: string, base: nat): (k: nat)
    ensures k <= |s|
    ensures forall j :: 0 <= j < k ==> ValeurChiffre(s[j], base).Some?
    ensures k < |s| ==> ValeurChiffre(s[k], base).None?
  {
    if |s| == 0 || ValeurChiffre(s[0], base).None? then 0 else 1 + PrefixeChiffres(s[1..], base)
  }

  /** Value of a string of digits of the base, most significant first. */
  function ValeurBase(s: string, base: nat): nat
    requires forall j :: 0 <= j < |s| ==> ValeurChiffre(s[j], base).Some?
  {
    if |s| == 0 then 0 else ValeurBase(s[..|s| - 1], base) * base + ValeurChiffre(s[|s| - 1], base).value
  }

  /** The value of the longest run of digits at the start of v, if there is one. */
  function LireChiffres(v: string, base: nat): (r: Option<nat>)
    ensures r.None? <==> PrefixeChiffres(v, base) == 0
  {
    var k := PrefixeChiffres(v, base);
    if k == 0 then None
    else
      assert forall j :: 0 <= j < k ==> v[..k][j] == v[j];
      Some(ValeurBase(v[..k], base))
  }

  /** After the sign: a "0x"/"0X" prefix selects base 16, base 10 otherwise. */
  function LireNombre(u: string): Option<nat>
  {
    if |u| >= 2 && u[0] == '0' && (u[1] == 'x' || u[1] == 'X') then LireChiffres(u[2..], 16) else LireChiffres(u, 10)
  }

  /**
   * parseInt(s) without a radix: leading white space is skipped, one sign is
   * read, then the number; no digit at all gives NaN, here None.
   */
  function ParseInt(s: string): Option<int>
  {
    var t := SauterBlancs(s);
    if |t| > 0 && (t[0] == '-' || t[0] == '+') then
      var r := LireNombre(t[1..]);
      if r.None? then None else if t[0] == '-' then Some(-(r.value as int)) else Some(r.value as int)
    else
      var r := LireNombre(t);
      if r.None? then None else Some(r.value as int)
  }

  lemma {:induction false} ValeurBaseDecimale(s: string)
    requires forall j :: 0 <= j < |s| ==> '0' <= s[j] <= '9'
    ensures ValeurBase(s, 10) == DigitsValue(s)
  {
    if |s| > 0 {
      ValeurBaseDecimale(s[..|s| - 1]);
    }
  }

  /** A non-empty run of decimal digits reads as its value. */
  lemma LireDecimal(d: string)
    requires |d| >= 1 && forall j :: 0 <= j < |d| ==> '0' <= d[j] <= '9'
    ensures LireNombre(d) == Some(DigitsValue(d))
  {
    PrefixeChiffresDecimal(d);
    assert d[..|d|] == d;
    ValeurBaseDecimale(d);
  }

  /** parseInt reads back the decimal text of any integer. */
  lemma ParseIntRoundTrip(n: int)
    ensures ParseInt(IntToString(n)) == Some(n)
  {
    if n >= 0 {
      ParseIntNaturel(n);
      assert IntToString(n) == NatToString(n);
    } else {
      var a: nat := -n;
      ParseIntNegatif(a);
      assert IntToString(n) == "-" + NatToString(a);
    }
  }

  lemma ParseIntNaturel(a: nat)
    ensures ParseInt(NatToString(a)) == Some(a)
  {
    var d := NatToString(a);
    NatToStringRoundTrip(a);
    LireDecimal(d);
    SansBlancsChiffres(d);
    SansSigne(d, a);
  }

  lemma ParseIntNegatif(a: nat)
    requires a > 0
    ensures ParseInt("-" + NatToString(a)) == Some(0 - a)
  {
    var d := NatToString(a);
    NatToStringRoundTrip(a);
    LireDecimal(d);
    AvecMoins(d, a);
  }

  /** A string starting with a digit has no leading white space. */
  lemma SansBlancsChiffres(d: string)
    requires |d| >= 1 && '0' <= d[0] <= '9'
    ensures SauterBlancs(d) == d
  {
  }

  /** No sign: the number is read from the start. */
  lemma SansSigne(d: string, v: nat)
    requires |d| >= 1 && '0' <= d[0] <= '9'
    requires SauterBlancs(d) == d && LireNombre(d) == Some(v)
    ensures ParseInt(d) == Some(v)
  {
  }

  /** A leading '-' negates the number read after it. */
  lemma AvecMoins(d: string, v: nat)
    requires LireNombre(d) == Some(v)
    ensures ParseInt("-" + d) == Some(0 - v)
  {
    var s := "-" + d;
    assert SauterBlancs(s) == s;
    assert s[1..] == d;
  }

  lemma {:induction false} PrefixeChiffresDecimal(d: string)
    requires forall j :: 0 <= j < |d| ==> '0' <= d[j] <= '9'
    ensures PrefixeChiffres(d, 10) == |d|
  {
    if |d| > 0 {
      PrefixeChiffresDecimal(d[1..]);
    }
  }

  /** parseInt(undefined) reads the text "undefined": NaN. */
  lemma ParseIntAbsente()
    ensures ParseInt(EnTexte(Absente)) == None
  {
    assert SauterBlancs("undefined") == "undefined";
  }

  // ---- error messages --------------------------------------------------

  /** ErreurLigneInvalide(ligne, message): the message is "Ligne <n> invalide ou incomplète", then " : <message>" when there is one, then ".". */
  function MessageLigne(ligne: int, message: string): string
  {
    "Ligne " + IntToString(ligne) + " invalide ou incomplète" + (if message != "" then " : " + message else "") + "."
  }

  function LigneInvalide<T>(ligne: int, message: string): (r: Result<T>)
    ensures IsErrorOf(r, ErreurLigneInvalide)
    ensures r.error.e.message == MessageLigne(ligne, message)
  {
    Fail(ErreurLigneInvalide, MessageLigne(ligne, message))
  }

  const MANQUANT := "champ obligatoire manquant"
  const MAUVAIS_TYPE := "un champ obligatoire est du mauvais type (texte attendu)"

  function NonReconnu(c: Cellule): string
  {
    "code étudiant non reconnu ('" + EnTexte(c) + "')"
  }

  function DateInvalide(date: string, horaire: string): string
  {
    "date ou horaire invalide ('" + date + " " + horaire + "')"
  }

  /**
   * The TypeError of `(cell as string).replaceAll(...)` when the cell is no
   * string: undefined has no property, a number has no replaceAll.
   */
  function ErreurRemplacement(c: Cellule): Thrown
  {
    if c.Absente? then StdError("Cannot read properties of undefined (reading 'replaceAll')")
    else StdError("replaceAll is not a function")
  }

  // ---- one row ---------------------------------------------------------

  /** The fields of a row that passed every check. */
  datatype LigneValide = LigneValide(
    date: string, horaire: string, salle: string, codeEpreuve: string, nomEpreuve: string,
    prenomEtudiant: string, nomEtudiant: string, codeEtudiant: int, dateEnMinutes: int)

  /** Math.round(ms / 60000): the minute nearest to the instant, halves rounded up. */
  function Minutes(ms: int): (m: int)
    ensures m * 60000 - 30000 <= ms < m * 60000 + 30000
  {
    (ms + 30000) / 60000
  }

  /** Which check of the row decides its fate. */
  datatype Diagnostic =
    | NonTexte(cellule: Cellule)
    | Manquant
    | CodeNonReconnu(cellule: Cellule)
    | MauvaisType
    | DateRejetee(date: string, horaire: string)
    | Valide(ligne: LigneValide)

  /** The row's fields read as text, and the cell of the student code. */
  predicate Conforme(row: Ligne, v: LigneValide, horodatage: string -> Option<int>)
  {
    Cell(row, COL_DATE).Texte? && v.date == SansEspaces(Cell(row, COL_DATE).s) &&
    Cell(row, COL_HEURE).Texte? && v.horaire == SansEspaces(Cell(row, COL_HEURE).s) &&
    Cell(row, COL_SALLE) == Texte(v.salle) && Cell(row, COL_CODE_EPREUVE) == Texte(v.codeEpreuve) &&
    Cell(row, COL_NOM_EPREUVE) == Texte(v.nomEpreuve) && Cell(row, COL_PRENOM) == Texte(v.prenomEtudiant) &&
    Cell(row, COL_NOM) == Texte(v.nomEtudiant) &&
    ParseInt(EnTexte(Cell(row, COL_CODE_ETUDIANT))) == Some(v.codeEtudiant) &&
    horodatage(v.date + " " + v.horaire).Some? &&
    v.dateEnMinutes == Minutes(horodatage(v.date + " " + v.horaire).value)
  }

  /** Every text field is non-empty and the student code is not 0. */
  predicate Complete(v: LigneValide)
  {
    v.date != "" && v.horaire != "" && v.salle != "" && v.codeEpreuve != "" && v.nomEpreuve != "" &&
    v.prenomEtudiant != "" && v.nomEtudiant != "" && v.codeEtudiant != 0
  }

  /**
   * The checks of one row, in source order: the date and time cells are read
   * with their spaces removed (anything but text throws a TypeError there);
   * a missing or empty field, or a student code that parses to 0 or NaN, is
   * a missing field; a NaN code would be "non reconnu" next; a field that is
   * not text is of the wrong type; a date the parser rejects is invalid.
   * horodatage is the date parser: milliseconds, or None for an invalid date.
   */
  function Diagnostiquer(row: Ligne, horodatage: string -> Option<int>): (d: Diagnostic)
    ensures d.Valide? ==> Conforme(row, d.ligne, horodatage) && Complete(d.ligne)
    ensures d.NonTexte? <==> !Cell(row, COL_DATE).Texte? || !Cell(row, COL_HEURE).Texte?
  {
    var cDate := Cell(row, COL_DATE);
    var cHeure := Cell(row, COL_HEURE);
    if !cDate.Texte? then NonTexte(cDate)
    else if !cHeure.Texte? then NonTexte(cHeure)
    else
      var dateEpreuve := SansEspaces(cDate.s);
      var horaire := SansEspaces(cHeure.s);
      var salle := Cell(row, COL_SALLE);
      var codeEpreuve := Cell(row, COL_CODE_EPREUVE);
      var nomEpreuve := Cell(row, COL_NOM_EPREUVE);
      var prenom := Cell(row, COL_PRENOM);
      var nom := Cell(row, COL_NOM);
      var code := ParseInt(EnTexte(Cell(row, COL_CODE_ETUDIANT)));
      if dateEpreuve == "" || horaire == "" || !Vrai(salle) || !Vrai(codeEpreuve) || !Vrai(nomEpreuve)
        || !Vrai(prenom) || !Vrai(nom) || code.None? || code.value == 0 then
        Manquant
      else if code.None? then
        CodeNonReconnu(Cell(row, COL_CODE_ETUDIANT))
      else if !salle.Texte? || !codeEpreuve.Texte? || !nomEpreuve.Texte? || !prenom.Texte? || !nom.Texte? then
        MauvaisType
      else
        var instant := horodatage(dateEpreuve + " " + horaire);
        if instant.None? then DateRejetee(dateEpreuve, horaire)
        else Valide(LigneValide(dateEpreuve, horaire, salle.s, codeEpreuve.s, nomEpreuve.s, prenom.s, nom.s,
                                code.value, Minutes(instant.value)))
  }

  /**
   * The outcome of one row: the TypeError, an ErreurLigneInvalide numbered
   * indice + 1 with the detail of the failed check, or the row's fields.
   */
  function Valider(row: Ligne, indice: nat, horodatage: string -> Option<int>): (r: Result<LigneValide>)
    ensures r.Ok? <==> Diagnostiquer(row, horodatage).Valide?
    ensures r.Ok? ==> r.value == Diagnostiquer(row, horodatage).ligne
    ensures Diagnostiquer(row, horodatage).NonTexte? ==> r == Err(ErreurRemplacement(Diagnostiquer(row, horodatage).cellule))
    ensures r.Err? && !Diagnostiquer(row, horodatage).NonTexte? ==> IsErrorOf(r, ErreurLigneInvalide)
  {
    match Diagnostiquer(row, horodatage)
    case NonTexte(c) => Err(ErreurRemplacement(c))
    case Manquant => LigneInvalide(indice + 1, MANQUANT)
    case CodeNonReconnu(c) => LigneInvalide(indice + 1, NonReconnu(c))
    case MauvaisType => LigneInvalide(indice + 1, MAUVAIS_TYPE)
    case DateRejetee(d, h) => LigneInvalide(indice + 1, DateInvalide(d, h))
    case Valide(l) => Ok(l)
  }

  /** A missing date cell fails in replaceAll, before any check. */
  lemma DateAbsente(row: Ligne, indice: nat, horodatage: string -> Option<int>)
    requires COL_DATE !in row
    ensures Valider(row, indice, horodatage) == Err(StdError("Cannot read properties of undefined (reading 'replaceAll')"))
  {
  }

  /** A student code that parses to 0 or NaN is reported as a missing field, with the row number indice + 1. */
  lemma CodeNulOuNaN(row: Ligne, indice: nat, horodatage: string -> Option<int>)
    requires Cell(row, COL_DATE).Texte? && Cell(row, COL_HEURE).Texte?
    requires ParseInt(EnTexte(Cell(row, COL_CODE_ETUDIANT))) in {None, Some(0)}
    ensures Valider(row, indice, horodatage) == LigneInvalide(indice + 1, MANQUANT)
  {
  }

  /** The "code étudiant non reconnu" check is never what decides: NaN is already falsy. */
  lemma NonReconnuInatteignable(row: Ligne, horodatage: string -> Option<int>)
    ensures !Diagnostiquer(row, horodatage).CodeNonReconnu?
  {
  }

  /** An empty text field is a missing field, whatever the other cells hold. */
  lemma ChampVide(row: Ligne, indice: nat, horodatage: string -> Option<int>)
    requires Cell(row, COL_DATE).Texte? && Cell(row, COL_HEURE).Texte?
    requires Cell(row, COL_SALLE) == Texte("") || Cell(row, COL_NOM) == Texte("") || SansEspaces(Cell(row, COL_DATE).s) == ""
    ensures Valider(row, indice, horodatage) == LigneInvalide(indice + 1, MANQUANT)
  {
  }

  /** A row the date parser rejects, and that passes the other checks, is reported with its date and time. */
  lemma DateNonReconnue(row: Ligne, indice: nat, horodatage: string -> Option<int>)
    requires Diagnostiquer(row, horodatage).DateRejetee?
    ensures var d := Diagnostiquer(row, horodatage);
      Valider(row, indice, horodatage) == LigneInvalide(indice + 1, DateInvalide(d.date, d.horaire)) &&
      horodatage(d.date + " " + d.horaire).None? &&
      d.date == SansEspaces(Cell(row, COL_DATE).s) && d.horaire == SansEspaces(Cell(row, COL_HEURE).s)
  {
  }

  // ---- filters ---------------------------------------------------------

  /** InterpretationFiltres: each filter is optional. */
  datatype Filtres = Filtres(codeEpreuves: Option<seq<string>>, salles: Option<seq<string>>, dateEpreuve: Option<string>)

  /**
   * The three `continue` tests of the loop. A supplied list, even empty, is
   * truthy and filters; an empty date string is falsy and does not.
   */
  predicate Retenue(filtres: Option<Filtres>, l: LigneValide)
  {
    if filtres.None? then true
    else
      var f := filtres.value;
      if f.codeEpreuves.Some? && l.codeEpreuve !in f.codeEpreuves.value then false
      else if f.salles.Some? && l.salle !in f.salles.value then false
      else if f.dateEpreuve.Some? && f.dateEpreuve.value != "" && f.dateEpreuve.value != l.date then false
      else true
  }

  /** The filters are cumulative: a row is kept when it passes each supplied filter. */
  lemma FiltresCumulatifs(f: Filtres, l: LigneValide)
    ensures Retenue(Some(f), l) <==>
      Retenue(Some(Filtres(f.codeEpreuves, None, None)), l) &&
      Retenue(Some(Filtres(None, f.salles, None)), l) &&
      Retenue(Some(Filtres(None, None, f.dateEpreuve)), l)
    ensures Retenue(Some(Filtres(None, None, None)), l) && Retenue(None, l)
  {
  }

  /** An empty list of codes or of rooms keeps no row; an empty date keeps every row. */
  lemma FiltresVides(l: LigneValide)
    ensures !Retenue(Some(Filtres(Some([]), None, None)), l)
    ensures !Retenue(Some(Filtres(None, Some([]), None)), l)
    ensures Retenue(Some(Filtres(None, None, Some(""))), l)
  {
  }

  // ---- caches and database writes --------------------------------------

  datatype Etudiant = Etudiant(numeroEtudiant: int, nom: string, prenom: string)

  datatype Epreuve = Epreuve(idSession: int, codeEpreuve: string, nom: string, statut: int, dateEpreuve: int, duree: int)

  /** The rows written to the database, in order. */
  datatype Insertion =
    | SessionInseree(idSession: int, nomSession: string, annee: int, statutSession: int)
    | EtudiantInsere(etudiant: Etudiant)
    | EpreuveInseree(epreuve: Epreuve)

  /** The student cache (by student number), the session's épreuve cache (by code) and the database writes. */
  datatype Etat = Etat(etudiants: map<int, Etudiant>, epreuves: map<string, Epreuve>, insertions: seq<Insertion>)

  /** The context of a run: the session's id and the filters. */
  datatype Parametres = Parametres(idSession: int, filtres: Option<Filtres>)

  /** A new student from a row. */
  function NouvelEtudiant(l: LigneValide): Etudiant
  {
    Etudiant(l.codeEtudiant, l.nomEtudiant, l.prenomEtudiant)
  }

  /** A new épreuve from a row: not printed yet, duration unknown (0), date in minutes. */
  function NouvelleEpreuve(idSession: int, l: LigneValide): Epreuve
  {
    Epreuve(idSession, l.codeEpreuve, l.nomEpreuve, MATERIEL_NON_IMPRIME, l.dateEnMinutes, 0)
  }

  /**
   * The database's answer to a write, given the writes it has already
   * received: None accepts it, Some(e) rejects it (the insert's promise is
   * rejected with e).
   */
  type Base = (seq<Insertion>, Insertion) -> Option<Thrown>

  /** A database that rejects no write. */
  ghost predicate Accepte(base: Base)
  {
    forall envoyees, insertion :: base(envoyees, insertion).None?
  }

  /**
   * The cache's insert: the write is sent; once the database accepts it the
   * element is cached, and a rejection is returned with nothing cached.
   */
  function InsererEtudiant(e: Etat, etudiant: Etudiant, base: Base): (r: (Etat, Option<Thrown>))
    ensures r.0.epreuves == e.epreuves && r.0.insertions == e.insertions + [EtudiantInsere(etudiant)]
    ensures r.1 == base(e.insertions, EtudiantInsere(etudiant))
    ensures r.0.etudiants == if r.1.Some? then e.etudiants else e.etudiants[etudiant.numeroEtudiant := etudiant]
  {
    var envoyees := e.insertions + [EtudiantInsere(etudiant)];
    match base(e.insertions, EtudiantInsere(etudiant))
    case Some(x) => (e.(insertions := envoyees), Some(x))
    case None => (e.(etudiants := e.etudiants[etudiant.numeroEtudiant := etudiant], insertions := envoyees), None)
  }

  /** The same for an épreuve, cached under its code. */
  function InsererEpreuve(e: Etat, epreuve: Epreuve, base: Base): (r: (Etat, Option<Thrown>))
    ensures r.0.etudiants == e.etudiants && r.0.insertions == e.insertions + [EpreuveInseree(epreuve)]
    ensures r.1 == base(e.insertions, EpreuveInseree(epreuve))
    ensures r.0.epreuves == if r.1.Some? then e.epreuves else e.epreuves[epreuve.codeEpreuve := epreuve]
  {
    var envoyees := e.insertions + [EpreuveInseree(epreuve)];
    match base(e.insertions, EpreuveInseree(epreuve))
    case Some(x) => (e.(insertions := envoyees), Some(x))
    case None => (e.(epreuves := e.epreuves[epreuve.codeEpreuve := epreuve], insertions := envoyees), None)
  }

  /**
   * Get or create the student, then get or create the épreuve; a rejected
   * write ends the row with its error.
   */
  function Traiter(e: Etat, idSession: int, l: LigneValide, base: Base): (Etat, Option<Thrown>)
  {
    var (e1, refus) := if l.codeEtudiant in e.etudiants then (e, None) else InsererEtudiant(e, NouvelEtudiant(l), base);
    if refus.Some? then (e1, refus)
    else if l.codeEpreuve in e1.epreuves then (e1, None)
    else InsererEpreuve(e1, NouvelleEpreuve(idSession, l), base)
  }

  /** A database that rejects nothing: the row's missing student and épreuve are written and cached. */
  lemma TraiterAccepte(e: Etat, idSession: int, l: LigneValide, base: Base)
    requires Accepte(base)
    ensures var e1 := if l.codeEtudiant in e.etudiants then e
                      else e.(etudiants := e.etudiants[l.codeEtudiant := NouvelEtudiant(l)],
                              insertions := e.insertions + [EtudiantInsere(NouvelEtudiant(l))]);
      Traiter(e, idSession, l, base) ==
        (if l.codeEpreuve in e1.epreuves then e1
         else e1.(epreuves := e1.epreuves[l.codeEpreuve := NouvelleEpreuve(idSession, l)],
                  insertions := e1.insertions + [EpreuveInseree(NouvelleEpreuve(idSession, l))]), None)
  {
    assert base(e.insertions, EtudiantInsere(NouvelEtudiant(l))).None?;
    var e1 := if l.codeEtudiant in e.etudiants then e
              else e.(etudiants := e.etudiants[l.codeEtudiant := NouvelEtudiant(l)],
                      insertions := e.insertions + [EtudiantInsere(NouvelEtudiant(l))]);
    assert base(e1.insertions, EpreuveInseree(NouvelleEpreuve(idSession, l))).None?;
  }

  /** The outcome of every row, in order. */
  function Validations(data: seq<Ligne>, horodatage: string -> Option<int>): (vs: seq<Result<LigneValide>>)
    ensures |vs| == |data| && forall j :: 0 <= j < |data| ==> vs[j] == Valider(data[j], j, horodatage)
  {
    seq(|data|, j requires 0 <= j < |data| => Valider(data[j], j, horodatage))
  }

  /**
   * The state and outcome after the first n rows, given each row's outcome
   * vs: each valid row that the filters keep is processed; the first invalid
   * row, or the first write the database rejects, ends the run with its
   * error and the state reached.
   */
  function Apres(e0: Etat, vs: seq<Result<LigneValide>>, n: nat, p: Parametres, base: Base): (r: (Etat, Result<bool>))
    requires n <= |vs|
    ensures r.1 == Ok(true) || r.1.Err?
  {
    if n == 0 then (e0, Ok(true))
    else
      var avant := Apres(e0, vs, n - 1, p, base);
      if avant.1.Err? then avant
      else if vs[n - 1].Err? then (avant.0, Err(vs[n - 1].error))
      else if Retenue(p.filtres, vs[n - 1].value) then
        var (e, refus) := Traiter(avant.0, p.idSession, vs[n - 1].value, base);
        (e, if refus.Some? then Err(refus.value) else Ok(true))
      else avant
  }

  /** A valid row after a successful prefix: processed when kept, skipped otherwise. */
  lemma ApresLigneValide(e0: Etat, vs: seq<Result<LigneValide>>, i: nat, p: Parametres, base: Base)
    requires i < |vs| && Apres(e0, vs, i, p, base).1 == Ok(true) && vs[i].Ok?
    ensures !Retenue(p.filtres, vs[i].value) ==> Apres(e0, vs, i + 1, p, base) == Apres(e0, vs, i, p, base)
    ensures Retenue(p.filtres, vs[i].value) ==>
      var (e, refus) := Traiter(Apres(e0, vs, i, p, base).0, p.idSession, vs[i].value, base);
      Apres(e0, vs, i + 1, p, base) == (e, if refus.Some? then Err(refus.value) else Ok(true))
  {
  }

  /** After an error, later rows change nothing. */
  lemma {:induction false} ErreurDefinitive(e0: Etat, vs: seq<Result<LigneValide>>, k: nat, n: nat, p: Parametres, base: Base)
    requires k <= n <= |vs|
    requires Apres(e0, vs, k, p, base).1.Err?
    ensures Apres(e0, vs, n, p, base) == Apres(e0, vs, k, p, base)
    decreases n
  {
    if n > k {
      ErreurDefinitive(e0, vs, k, n - 1, p, base);
    }
  }

  /**
   * A kept row whose write the database rejects ends the run: the outcome
   * is that error, and later rows are neither processed nor validated into
   * the state.
   */
  lemma RefusDefinitif(e0: Etat, vs: seq<Result<LigneValide>>, i: nat, p: Parametres, base: Base)
    requires i < |vs| && Apres(e0, vs, i, p, base).1 == Ok(true) && vs[i].Ok? && Retenue(p.filtres, vs[i].value)
    requires Traiter(Apres(e0, vs, i, p, base).0, p.idSession, vs[i].value, base).1.Some?
    ensures var (e, refus) := Traiter(Apres(e0, vs, i, p, base).0, p.idSession, vs[i].value, base);
      Apres(e0, vs, |vs|, p, base) == (e, Err(refus.value))
  {
    ErreurDefinitive(e0, vs, i + 1, |vs|, p, base);
  }

  /** A write of the run the database rejected with the given error. */
  ghost predicate Refusee(base: Base, e0: Etat, e: Etat, erreur: Thrown)
  {
    exists j :: |e0.insertions| <= j < |e.insertions| && base(e.insertions[..j], e.insertions[j]) == Some(erreur)
  }

  /** One row's processing only appends writes, and a rejection it returns is that of one of them. */
  lemma TraiterRefus(e: Etat, idSession: int, l: LigneValide, base: Base)
    ensures var (e2, refus) := Traiter(e, idSession, l, base);
      e.insertions <= e2.insertions && (refus.Some? ==> Refusee(base, e, e2, refus.value))
  {
    var (e2, refus) := Traiter(e, idSession, l, base);
    if refus.Some? {
      var j := |e2.insertions| - 1;
      assert e2.insertions[..j] == (if l.codeEtudiant in e.etudiants || base(e.insertions, EtudiantInsere(NouvelEtudiant(l))).Some? then e.insertions
                                    else e.insertions + [EtudiantInsere(NouvelEtudiant(l))]);
      assert base(e2.insertions[..j], e2.insertions[j]) == refus;
    }
  }

  /**
   * The outcome is true exactly when every row is valid and every write is
   * accepted; otherwise it is the error of an invalid row or of a write the
   * database rejected.
   */
  lemma {:induction false} Resultat(e0: Etat, vs: seq<Result<LigneValide>>, n: nat, p: Parametres, base: Base)
    requires n <= |vs|
    ensures var (e, r) := Apres(e0, vs, n, p, base);
      e0.insertions <= e.insertions &&
      (r == Ok(true) ==> forall j :: 0 <= j < n ==> vs[j].Ok?) &&
      (r.Err? ==> (exists k :: 0 <= k < n && vs[k].Err? && r.error == vs[k].error) || Refusee(base, e0, e, r.error))
    decreases n
  {
    if n > 0 {
      Resultat(e0, vs, n - 1, p, base);
      var avant := Apres(e0, vs, n - 1, p, base);
      if avant.1.Ok? && vs[n - 1].Ok? && Retenue(p.filtres, vs[n - 1].value) {
        TraiterRefus(avant.0, p.idSession, vs[n - 1].value, base);
        var (e, refus) := Traiter(avant.0, p.idSession, vs[n - 1].value, base);
        if refus.Some? {
          var j :| |avant.0.insertions| <= j < |e.insertions| && base(e.insertions[..j], e.insertions[j]) == Some(refus.value);
          assert |e0.insertions| <= j;
        }
      } else if avant.1.Err? {
        assert Apres(e0, vs, n, p, base) == avant;
      }
    }
  }

  /**
   * A database that rejects nothing: the outcome is true exactly when every
   * row is valid, and is otherwise the error of an invalid row; it depends
   * neither on the caches, nor on the session, nor on the filters:
   * validation comes before filtering, so a malformed row aborts the run
   * even if it would be filtered out.
   */
  lemma {:induction false} ResultatSansRefus(e0: Etat, e1: Etat, vs: seq<Result<LigneValide>>, n: nat, p: Parametres, q: Parametres, base: Base)
    requires n <= |vs| && Accepte(base)
    ensures Apres(e0, vs, n, p, base).1 == Apres(e1, vs, n, q, base).1
    ensures Apres(e0, vs, n, p, base).1 == Ok(true) <==> forall j :: 0 <= j < n ==> vs[j].Ok?
    ensures Apres(e0, vs, n, p, base).1.Err? ==> exists k :: 0 <= k < n && vs[k].Err? && Apres(e0, vs, n, p, base).1.error == vs[k].error
    decreases n
  {
    if n > 0 {
      ResultatSansRefus(e0, e1, vs, n - 1, p, q, base);
      if Apres(e0, vs, n - 1, p, base).1 == Ok(true) && vs[n - 1].Ok? {
        LigneSansRefus(e0, vs, n - 1, p, base);
        LigneSansRefus(e1, vs, n - 1, q, base);
      }
    }
  }

  /** A database that rejects nothing: a valid row after a successful prefix keeps the run successful. */
  lemma LigneSansRefus(e0: Etat, vs: seq<Result<LigneValide>>, i: nat, p: Parametres, base: Base)
    requires Accepte(base) && i < |vs| && Apres(e0, vs, i, p, base).1 == Ok(true) && vs[i].Ok?
    ensures Apres(e0, vs, i + 1, p, base).1 == Ok(true)
  {
    if Retenue(p.filtres, vs[i].value) {
      TraiterAccepte(Apres(e0, vs, i, p, base).0, p.idSession, vs[i].value, base);
    }
  }

  /**
   * The first invalid row, after a prefix whose writes were accepted: the
   * outcome is its error, and the state is the one reached by the valid
   * rows before it. A database that rejects nothing accepts that prefix.
   */
  lemma PremiereErreur(e0: Etat, vs: seq<Result<LigneValide>>, k: nat, p: Parametres, base: Base)
    requires k < |vs|
    requires forall j :: 0 <= j < k ==> vs[j].Ok?
    requires vs[k].Err?
    ensures Accepte(base) ==> Apres(e0, vs, k, p, base).1 == Ok(true)
    ensures Apres(e0, vs, k, p, base).1.Ok? ==> Apres(e0, vs, |vs|, p, base) == (Apres(e0, vs, k, p, base).0, Err(vs[k].error))
  {
    if Accepte(base) {
      ResultatSansRefus(e0, e0, vs, k, p, p, base);
    }
    Resultat(e0, vs, k, p, base);
    if Apres(e0, vs, k, p, base).1.Ok? {
      ErreurDefinitive(e0, vs, k + 1, |vs|, p, base);
    }
  }

  /** A row kept by the filters and processed. */
  predicate Traitee(vs: seq<Result<LigneValide>>, j: nat, p: Parametres)
  {
    j < |vs| && vs[j].Ok? && Retenue(p.filtres, vs[j].value)
  }

  /**
   * What a run does to the caches: earlier writes are kept; a student or an
   * épreuve already cached is neither modified nor written again.
   */
  lemma {:induction false} CachesConserves(e0: Etat, vs: seq<Result<LigneValide>>, n: nat, p: Parametres, base: Base)
    requires n <= |vs|
    ensures var e := Apres(e0, vs, n, p, base).0;
      e0.insertions <= e.insertions &&
      (forall c :: c in e0.etudiants ==> c in e.etudiants && e.etudiants[c] == e0.etudiants[c]) &&
      (forall c :: c in e0.epreuves ==> c in e.epreuves && e.epreuves[c] == e0.epreuves[c]) &&
      (forall j :: |e0.insertions| <= j < |e.insertions| ==>
         (e.insertions[j].EtudiantInsere? && e.insertions[j].etudiant.numeroEtudiant !in e0.etudiants) ||
         (e.insertions[j].EpreuveInseree? && e.insertions[j].epreuve.codeEpreuve !in e0.epreuves))
    decreases n
  {
    if n > 0 {
      CachesConserves(e0, vs, n - 1, p, base);
      var avant := Apres(e0, vs, n - 1, p, base);
      if avant.1.Ok? && vs[n - 1].Ok? && Retenue(p.filtres, vs[n - 1].value) {
        TraiterEffets(avant.0, p.idSession, vs[n - 1].value, base);
      }
    }
  }

  /**
   * New students and épreuves come from processed rows; a new épreuve is not
   * printed yet, lasts 0, carries the session's id and the date of a row with
   * its code.
   */
  lemma {:induction false} NouveauxElements(e0: Etat, vs: seq<Result<LigneValide>>, n: nat, p: Parametres, base: Base)
    requires n <= |vs|
    ensures var e := Apres(e0, vs, n, p, base).0;
      (forall c :: c in e.etudiants && c !in e0.etudiants ==>
         exists j :: 0 <= j < n && Traitee(vs, j, p) && e.etudiants[c] == NouvelEtudiant(vs[j].value)) &&
      (forall c :: c in e.epreuves && c !in e0.epreuves ==>
         exists j :: 0 <= j < n && Traitee(vs, j, p) && e.epreuves[c] == NouvelleEpreuve(p.idSession, vs[j].value))
    ensures var e := Apres(e0, vs, n, p, base).0;
      forall c :: c in e.epreuves && c !in e0.epreuves ==>
        e.epreuves[c].statut == MATERIEL_NON_IMPRIME && e.epreuves[c].duree == 0 &&
        e.epreuves[c].idSession == p.idSession && e.epreuves[c].codeEpreuve == c
    decreases n
  {
    if n > 0 {
      NouveauxElements(e0, vs, n - 1, p, base);
      var avant := Apres(e0, vs, n - 1, p, base);
      if avant.1.Ok? && vs[n - 1].Ok? && Retenue(p.filtres, vs[n - 1].value) {
        TraiterEffets(avant.0, p.idSession, vs[n - 1].value, base);
        assert Traitee(vs, n - 1, p);
      }
    }
  }

  /** Under a successful run, every processed row's student and épreuve are cached. */
  lemma {:induction false} LignesPresentes(e0: Etat, vs: seq<Result<LigneValide>>, n: nat, p: Parametres, base: Base)
    requires n <= |vs|
    requires Apres(e0, vs, n, p, base).1.Ok?
    ensures forall j :: 0 <= j < n && Traitee(vs, j, p) ==>
      vs[j].value.codeEtudiant in Apres(e0, vs, n, p, base).0.etudiants && vs[j].value.codeEpreuve in Apres(e0, vs, n, p, base).0.epreuves
    decreases n
  {
    if n > 0 {
      var avant := Apres(e0, vs, n - 1, p, base);
      LignesPresentes(e0, vs, n - 1, p, base);
      if vs[n - 1].Ok? && Retenue(p.filtres, vs[n - 1].value) {
        TraiterEffets(avant.0, p.idSession, vs[n - 1].value, base);
      }
    }
  }

  /**
   * One processed row: cached entries stay, only missing ones are written;
   * an accepted write caches its element, a rejected one caches nothing,
   * and a rejected student write stops the row before its épreuve.
   */
  lemma TraiterEffets(e: Etat, idSession: int, l: LigneValide, base: Base)
    ensures var (e2, refus) := Traiter(e, idSession, l, base);
      e.insertions <= e2.insertions &&
      (forall c :: c in e.etudiants ==> c in e2.etudiants && e2.etudiants[c] == e.etudiants[c]) &&
      (forall c :: c in e.epreuves ==> c in e2.epreuves && e2.epreuves[c] == e.epreuves[c]) &&
      (forall c :: c in e2.etudiants && c !in e.etudiants ==> c == l.codeEtudiant && e2.etudiants[c] == NouvelEtudiant(l)) &&
      (forall c :: c in e2.epreuves && c !in e.epreuves ==> c == l.codeEpreuve && e2.epreuves[c] == NouvelleEpreuve(idSession, l)) &&
      (refus.None? ==> l.codeEtudiant in e2.etudiants && l.codeEpreuve in e2.epreuves) &&
      (forall j :: |e.insertions| <= j < |e2.insertions| ==>
         (e2.insertions[j] == EtudiantInsere(NouvelEtudiant(l)) && l.codeEtudiant !in e.etudiants) ||
         (e2.insertions[j] == EpreuveInseree(NouvelleEpreuve(idSession, l)) && l.codeEpreuve !in e.epreuves))
  {
  }

  /** A rejected student write: it is the row's only write, nothing is cached, and the run stops with its error. */
  lemma EtudiantRefuse(e: Etat, idSession: int, l: LigneValide, base: Base)
    requires l.codeEtudiant !in e.etudiants && base(e.insertions, EtudiantInsere(NouvelEtudiant(l))).Some?
    ensures Traiter(e, idSession, l, base) ==
      (e.(insertions := e.insertions + [EtudiantInsere(NouvelEtudiant(l))]), base(e.insertions, EtudiantInsere(NouvelEtudiant(l))))
  {
  }

  /**
   * The session step: the lookup's answer (an error when the query is
   * rejected, or whether the session exists), and when it is not found the
   * write of "Session <id>" for the current year with status 0, which the
   * database may reject.
   */
  function AvecSession(e: Etat, idSession: int, session: Result<bool>, annee: int, base: Base): (r: (Etat, Option<Thrown>))
    ensures r.0.etudiants == e.etudiants && r.0.epreuves == e.epreuves
    ensures session.Err? ==> r == (e, Some(session.error))
    ensures session == Ok(true) ==> r == (e, None)
    ensures session == Ok(false) ==> var ecrite := SessionInseree(idSession, "Session " + IntToString(idSession), annee, 0);
      r.0.insertions == e.insertions + [ecrite] && r.1 == base(e.insertions, ecrite)
  {
    if session.Err? then (e, Some(session.error))
    else if session.value then (e, None)
    else
      var ecrite := SessionInseree(idSession, "Session " + IntToString(idSession), annee, 0);
      (e.(insertions := e.insertions + [ecrite]), base(e.insertions, ecrite))
  }

  /**
   * interpretationXLSX: the session step, then the two getAll calls
   * (chargement: the error of the first one rejected), then the rows.
   */
  function Interpretation(e: Etat, vs: seq<Result<LigneValide>>, p: Parametres, session: Result<bool>,
                          chargement: Option<Thrown>, annee: int, base: Base): (r: (Etat, Result<bool>))
    ensures session.Err? ==> r == (e, Err(session.error))
    ensures chargement.Some? ==> r.1.Err? && r.0.etudiants == e.etudiants && r.0.epreuves == e.epreuves
  {
    var (e1, refus) := AvecSession(e, p.idSession, session, annee, base);
    if refus.Some? then (e1, Err(refus.value))
    else if chargement.Some? then (e1, Err(chargement.value))
    else Apres(e1, vs, |vs|, p, base)
  }

  /**
   * The caches after their initial getAll, and the database writes. The
   * run's loop works on these fields directly.
   */
  class Caches {
    var etudiants: map<int, Etudiant>
    var epreuves: map<string, Epreuve>
    var insertions: seq<Insertion>

    constructor (etudiants: map<int, Etudiant>, epreuves: map<string, Epreuve>)
      ensures this.etudiants == etudiants && this.epreuves == epreuves && insertions == []
    {
      this.etudiants := etudiants;
      this.epreuves := epreuves;
      insertions := [];
    }

    function Contenu(): Etat
      reads this
    {
      Etat(etudiants, epreuves, insertions)
    }

    /** The temporary creation of the session when it is not found; the error of a rejected lookup or write. */
    method CreerSession(idSession: int, session: Result<bool>, annee: int, base: Base) returns (refus: Option<Thrown>)
      modifies this
      ensures (Contenu(), refus) == AvecSession(old(Contenu()), idSession, session, annee, base)
    {
      if session.Err? {
        return Some(session.error);
      }
      refus := None;
      if !session.value {
        var ecrite := SessionInseree(idSession, "Session " + IntToString(idSession), annee, 0);
        refus := base(insertions, ecrite);
        insertions := insertions + [ecrite];
      }
    }

    /**
     * The body of the loop for a kept row: the student is looked up by number
     * and created when absent, then the épreuve by code, likewise; a write
     * the database rejects is returned and ends the row.
     */
    method ObtenirOuCreer(idSession: int, l: LigneValide, base: Base) returns (refus: Option<Thrown>)
      modifies this
      ensures (Contenu(), refus) == Traiter(old(Contenu()), idSession, l, base)
    {
      if l.codeEtudiant !in etudiants {
        var etudiant := NouvelEtudiant(l);
        refus := base(insertions, EtudiantInsere(etudiant));
        insertions := insertions + [EtudiantInsere(etudiant)];
        if refus.Some? {
          return;
        }
        etudiants := etudiants[l.codeEtudiant := etudiant];
      }
      refus := None;
      if l.codeEpreuve !in epreuves {
        var epreuve := NouvelleEpreuve(idSession, l);
        refus := base(insertions, EpreuveInseree(epreuve));
        insertions := insertions + [EpreuveInseree(epreuve)];
        if refus.Some? {
          return;
        }
        epreuves := epreuves[l.codeEpreuve := epreuve];
      }
    }

    /**
     * The loop over the rows, in order, given each row's outcome vs: each
     * kept valid row is processed; the first invalid row, or the first
     * rejected write, ends the loop with its error.
     */
    method InterpreterLignes(vs: seq<Result<LigneValide>>, p: Parametres, base: Base) returns (r: Result<bool>)
      modifies this
      ensures (Contenu(), r) == Apres(old(Contenu()), vs, |vs|, p, base)
    {
      ghost var e0 := Contenu();
      var i := 0;
      while i < |vs|
        invariant 0 <= i <= |vs|
        invariant Apres(e0, vs, i, p, base).1 == Ok(true)
        invariant Apres(e0, vs, i, p, base).0 == Contenu()
      {
        var v := vs[i];
        if v.Err? {
          r := Err(v.error);
          ErreurDefinitive(e0, vs, i + 1, |vs|, p, base);
          return;
        }
        ApresLigneValide(e0, vs, i, p, base);
        if Retenue(p.filtres, v.value) {
          var refus := ObtenirOuCreer(p.idSession, v.value, base);
          if refus.Some? {
            r := Err(refus.value);
            ErreurDefinitive(e0, vs, i + 1, |vs|, p, base);
            return;
          }
        }
        i := i + 1;
      }
      r := Ok(true);
    }

    /**
     * interpretationXLSX: the session is created first when it is not found
     * (session and annee are what the lookup and the clock give), the
     * caches are loaded (chargement: the error of a rejected getAll), then
     * the rows are validated and processed in order.
     */
    method Interpreter(data: seq<Ligne>, horodatage: string -> Option<int>, p: Parametres, session: Result<bool>,
                       chargement: Option<Thrown>, annee: int, base: Base)
      returns (r: Result<bool>)
      modifies this
      ensures (Contenu(), r) == Interpretation(old(Contenu()), Validations(data, horodatage), p, session, chargement, annee, base)
    {
      var refus := CreerSession(p.idSession, session, annee, base);
      if refus.Some? {
        return Err(refus.value);
      }
      if chargement.Some? {
        return Err(chargement.value);
      }
      var vs := Validations(data, horodatage);
      r := InterpreterLignes(vs, p, base);
    }
  }
}
