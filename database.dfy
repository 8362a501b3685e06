// src/core/services/database/Database.ts: the connection pool, created on
// first use; the initial schema import on an empty database, or else the
// upgrade patches between the patch number last applied and the current one;
// SQL scripts run one statement at a time. The database server, the files
// and the configuration are inputs; the statements sent are recorded in order.
module Database {
  import opened Wrappers
  import opened Erreurs
  import opened Texte

  // ---- splitting a script ----------------------------------------------

  /** The string without its trailing white space. */
  function SansBlancsFin(s: string): (r: string)
    ensures |r| <= |s|
  {
    if |s| > 0 && Blanc(s[|s| - 1]) then SansBlancsFin(s[..|s| - 1]) else s
  }

  /** SansBlancsFin keeps a prefix. */
  lemma {:induction false} SansBlancsFinPrefixe(s: string)
    ensures SansBlancsFin(s) == s[..|SansBlancsFin(s)|]
    decreases |s|
  {
    if |s| > 0 && Blanc(s[|s| - 1]) {
      SansBlancsFinPrefixe(s[..|s| - 1]);
    }
  }

  /** SansBlancsFin stops at the last character that is not white space. */
  lemma {:induction false} SansBlancsFinPropre(s: string)
    ensures |SansBlancsFin(s)| > 0 ==> !Blanc(SansBlancsFin(s)[|SansBlancsFin(s)| - 1])
    decreases |s|
  {
    if |s| > 0 && Blanc(s[|s| - 1]) {
      SansBlancsFinPropre(s[..|s| - 1]);
    }
  }

  /** String.prototype.trim. */
  function Trim(s: string): string
  {
    SansBlancsFin(SauterBlancs(s))
  }

  /** A trimmed string neither starts nor ends with white space. */
  lemma TrimPropre(s: string)
    ensures |Trim(s)| > 0 ==> !Blanc(Trim(s)[0]) && !Blanc(Trim(s)[|Trim(s)| - 1])
  {
    var t := SauterBlancs(s);
    SauterBlancsPropre(s);
    SansBlancsFinPrefixe(t);
    SansBlancsFinPropre(t);
    if |Trim(s)| > 0 {
      assert Trim(s)[0] == t[0];
    }
  }

  /** What SauterBlancs keeps comes from the string. */
  lemma {:induction false} SauterBlancsContenu(s: string)
    ensures forall c :: c in SauterBlancs(s) ==> c in s
    decreases |s|
  {
    if |s| > 0 && Blanc(s[0]) {
      SauterBlancsContenu(s[1..]);
      assert forall c :: c in s[1..] ==> c in s;
    }
  }

  /** What trim keeps comes from the string. */
  lemma TrimContenu(s: string)
    ensures forall c :: c in Trim(s) ==> c in s
  {
    var t := SauterBlancs(s);
    SauterBlancsContenu(s);
    SansBlancsFinPrefixe(t);
    assert forall c :: c in SansBlancsFin(t) ==> c in t;
  }

  /**
   * split(/;\s*\/): the pieces between semicolons, each piece after a
   * semicolon starting past the white space that follows that semicolon.
   */
  function Decoupe(s: string): (parts: seq<string>)
    ensures |parts| == |Split(s, ';')|
  {
    var p := Split(s, ';');
    [p[0]] + SauterBlancsTous(p[1..])
  }

  /** Each piece without its leading white space. */
  function SauterBlancsTous(p: seq<string>): (r: seq<string>)
    ensures |r| == |p|
  {
    if |p| == 0 then [] else [SauterBlancs(p[0])] + SauterBlancsTous(p[1..])
  }

  lemma {:induction false} SauterBlancsTousElement(p: seq<string>)
    ensures forall i :: 0 <= i < |p| ==> SauterBlancsTous(p)[i] == SauterBlancs(p[i])
  {
    if |p| > 0 {
      SauterBlancsTousElement(p[1..]);
    }
  }

  /** Piece i of the split is piece i of the plain split, past its leading white space when i > 0. */
  lemma DecoupeElement(s: string)
    ensures Decoupe(s)[0] == Split(s, ';')[0]
    ensures forall i :: 0 < i < |Decoupe(s)| ==> Decoupe(s)[i] == SauterBlancs(Split(s, ';')[i])
  {
    var p := Split(s, ';');
    SauterBlancsTousElement(p[1..]);
  }

  /** map(trim) then filter(length > 0). */
  function Garder(parts: seq<string>): seq<string>
  {
    if |parts| == 0 then []
    else (if Trim(parts[0]) == "" then [] else [Trim(parts[0])]) + Garder(parts[1..])
  }

  /** The statements executerSQL runs, in order. */
  function Instructions(sql: string): seq<string>
  {
    Garder(Decoupe(sql))
  }

  /** Every piece kept is non-empty and has no white space at either end. */
  lemma {:induction false} GarderPropre(parts: seq<string>)
    ensures forall k :: 0 <= k < |Garder(parts)| ==>
      Garder(parts)[k] != [] && !Blanc(Garder(parts)[k][0]) && !Blanc(Garder(parts)[k][|Garder(parts)[k]| - 1])
  {
    if |parts| > 0 {
      TrimPropre(parts[0]);
      GarderPropre(parts[1..]);
    }
  }

  /** No piece of the split holds a semicolon. */
  lemma DecoupeSansPointVirgule(s: string)
    ensures forall k :: 0 <= k < |Decoupe(s)| ==> ';' !in Decoupe(s)[k]
  {
    SplitSansSeparateur(s, ';');
    DecoupeElement(s);
    forall k | 1 <= k < |Decoupe(s)|
      ensures ';' !in Decoupe(s)[k]
    {
      SauterBlancsContenu(Split(s, ';')[k]);
    }
  }

  /** Semicolon-free pieces stay semicolon-free once trimmed and filtered. */
  lemma {:induction false} GarderSansPointVirgule(parts: seq<string>)
    requires forall k :: 0 <= k < |parts| ==> ';' !in parts[k]
    ensures forall k :: 0 <= k < |Garder(parts)| ==> ';' !in Garder(parts)[k]
  {
    if |parts| > 0 {
      GarderSansPointVirgule(parts[1..]);
      TrimContenu(parts[0]);
    }
  }

  /**
   * Every statement executed is non-empty, holds no semicolon and has no
   * white space at either end.
   */
  lemma InstructionsPropres(sql: string)
    ensures forall k :: 0 <= k < |Instructions(sql)| ==>
      var st := Instructions(sql)[k];
      st != "" && !Blanc(st[0]) && !Blanc(st[|st| - 1]) && ';' !in st
  {
    DecoupeSansPointVirgule(sql);
    GarderSansPointVirgule(Decoupe(sql));
    GarderPropre(Decoupe(sql));
  }

  /** Trimming ignores the white space SauterBlancs drops. */
  lemma TrimSauter(x: string)
    ensures Trim(SauterBlancs(x)) == Trim(x)
  {
    SauterBlancsPropre(x);
    assert SauterBlancs(SauterBlancs(x)) == SauterBlancs(x);
  }

  /** Pieces that trim alike give the same statements. */
  lemma {:induction false} GarderEgal(p: seq<string>, q: seq<string>)
    requires |p| == |q| && forall i :: 0 <= i < |p| ==> Trim(p[i]) == Trim(q[i])
    ensures Garder(p) == Garder(q)
  {
    if |p| > 0 {
      GarderEgal(p[1..], q[1..]);
    }
  }

  /** The statements are the trimmed non-empty pieces of a plain split on ';'. */
  lemma InstructionsCommeSplit(sql: string)
    ensures Instructions(sql) == Garder(Split(sql, ';'))
  {
    var p := Decoupe(sql);
    var q := Split(sql, ';');
    DecoupeElement(sql);
    forall i | 0 <= i < |p|
      ensures Trim(p[i]) == Trim(q[i])
    {
      if i > 0 {
        TrimSauter(q[i]);
      }
    }
    GarderEgal(p, q);
  }

  /** Statements of consecutive pieces come in order. */
  lemma {:induction false} GarderConcat(p: seq<string>, q: seq<string>)
    ensures Garder(p + q) == Garder(p) + Garder(q)
  {
    if |p| > 0 {
      assert (p + q)[1..] == p[1..] + q;
      GarderConcat(p[1..], q);
    } else {
      assert p + q == q;
    }
  }

  /** Two scripts joined by a semicolon give the statements of the first, then those of the second. */
  lemma InstructionsConcat(a: string, b: string)
    ensures Instructions(a + ";" + b) == Instructions(a) + Instructions(b)
  {
    InstructionsCommeSplit(a + ";" + b);
    InstructionsCommeSplit(a);
    InstructionsCommeSplit(b);
    SplitSeparateur(a, b, ';');
    GarderConcat(Split(a, ';'), Split(b, ';'));
  }

  // ---- paths -----------------------------------------------------------

  /** A file or directory name: a fixed one, or the file of a numbered patch. */
  datatype Composant = Fixe(nom: string) | FichierPatch(numero: int)

  /** A path from the repository's root. */
  type Chemin = seq<Composant>

  /** The files present, with their contents. */
  type Fichiers = map<Chemin, string>

  /** The name as it appears in the path, `patch-${patch}.sql` for a patch. */
  function NomComposant(c: Composant): string
  {
    match c
    case Fixe(nom) => nom
    case FichierPatch(numero) => "patch-" + IntToString(numero) + ".sql"
  }

  /** The directory of Database.ts. */
  const DIRNAME: Chemin := [Fixe("src"), Fixe("core"), Fixe("services"), Fixe("database")]

  /** A path.join argument: ".." or a name. */
  datatype Segment = Parent | Nom(composant: Composant)

  /** path.join on a directory: ".." goes up one level, a name goes down. */
  function Joindre(base: Chemin, segments: seq<Segment>): Chemin
    decreases |segments|
  {
    if |segments| == 0 then base
    else if segments[0].Parent? then Joindre(if |base| > 0 then base[..|base| - 1] else base, segments[1..])
    else Joindre(base + [segments[0].composant], segments[1..])
  }

  /** The names as segments. */
  function Noms(noms: Chemin): seq<Segment>
  {
    if |noms| == 0 then [] else [Nom(noms[0])] + Noms(noms[1..])
  }

  /** Names only go down. */
  lemma {:induction false} JoindreDescendre(base: Chemin, noms: Chemin)
    ensures Joindre(base, Noms(noms)) == base + noms
    decreases |noms|
  {
    if |noms| > 0 {
      JoindreDescendre(base + [noms[0]], noms[1..]);
      assert Noms(noms)[1..] == Noms(noms[1..]);
      assert base + [noms[0]] + noms[1..] == base + noms;
    }
  }

  /** k times "..", then names: k levels up, then down those names. */
  lemma {:induction false} JoindreRemonter(base: Chemin, k: nat, noms: Chemin)
    requires k <= |base|
    ensures Joindre(base, seq(k, _ => Parent) + Noms(noms)) == base[..|base| - k] + noms
    decreases k
  {
    if k == 0 {
      assert seq(k, _ => Parent) + Noms(noms) == Noms(noms);
      JoindreDescendre(base, noms);
    } else {
      var s := seq(k, _ => Parent) + Noms(noms);
      assert s[0] == Parent && s[1..] == seq(k - 1, _ => Parent) + Noms(noms);
      JoindreRemonter(base[..|base| - 1], k - 1, noms);
      assert base[..|base| - 1][..|base| - 1 - (k - 1)] == base[..|base| - k];
    }
  }

  lemma NomsTrois(a: Composant, b: Composant, c: Composant)
    ensures Noms([a, b, c]) == [Nom(a), Nom(b), Nom(c)]
  {
    assert [c][1..] == [];
    assert Noms([c]) == [Nom(c)];
    assert [b, c][1..] == [c];
    assert Noms([b, c]) == [Nom(b), Nom(c)];
    assert [a, b, c][1..] == [b, c];
  }

  /** path.join(__dirname, "../../../../config/schemas/initial.sql"). */
  function JointInitial(): Chemin
  {
    Joindre(DIRNAME, [Parent, Parent, Parent, Parent, Nom(Fixe("config")), Nom(Fixe("schemas")), Nom(Fixe("initial.sql"))])
  }

  /** The patch file as the source joins its path: three levels up. */
  function JointPatchTelQuEcrit(patch: int): Chemin
  {
    Joindre(DIRNAME, [Parent, Parent, Parent, Nom(Fixe("config")), Nom(Fixe("schemas")), Nom(FichierPatch(patch))])
  }

  /** The patch file joined four levels up, like initial.sql. */
  function JointPatch(patch: int): Chemin
  {
    Joindre(DIRNAME, [Parent, Parent, Parent, Parent, Nom(Fixe("config")), Nom(Fixe("schemas")), Nom(FichierPatch(patch))])
  }

  /** The schema imported into an empty database, from the repository's root. */
  function CheminInitial(): Chemin
  {
    [Fixe("config"), Fixe("schemas"), Fixe("initial.sql")]
  }

  /** The file of a patch, from the repository's root: next to initial.sql. */
  function CheminPatch(patch: int): Chemin
  {
    [Fixe("config"), Fixe("schemas"), FichierPatch(patch)]
  }

  /** initial.sql resolves to config/schemas at the repository's root. */
  lemma CheminInitialResolu()
    ensures JointInitial() == CheminInitial()
  {
    NomsTrois(Fixe("config"), Fixe("schemas"), Fixe("initial.sql"));
    assert [Parent, Parent, Parent, Parent, Nom(Fixe("config")), Nom(Fixe("schemas")), Nom(Fixe("initial.sql"))]
      == seq(4, _ => Parent) + Noms([Fixe("config"), Fixe("schemas"), Fixe("initial.sql")]);
    JoindreRemonter(DIRNAME, 4, [Fixe("config"), Fixe("schemas"), Fixe("initial.sql")]);
  }

  /** As written, patches are looked for in src/config/schemas, not in the directory of initial.sql. */
  lemma PatchHorsSchemas(patch: int)
    ensures JointPatchTelQuEcrit(patch) == [Fixe("src"), Fixe("config"), Fixe("schemas"), FichierPatch(patch)]
    ensures JointPatchTelQuEcrit(patch) != CheminPatch(patch)
    ensures JointPatchTelQuEcrit(patch)[..3] != CheminInitial()[..2]
  {
    NomsTrois(Fixe("config"), Fixe("schemas"), FichierPatch(patch));
    assert [Parent, Parent, Parent, Nom(Fixe("config")), Nom(Fixe("schemas")), Nom(FichierPatch(patch))]
      == seq(3, _ => Parent) + Noms([Fixe("config"), Fixe("schemas"), FichierPatch(patch)]);
    JoindreRemonter(DIRNAME, 3, [Fixe("config"), Fixe("schemas"), FichierPatch(patch)]);
  }

  /** Corrected: four levels up, every patch sits in config/schemas, next to initial.sql. */
  lemma PatchAvecSchemas(patch: int)
    ensures JointPatch(patch) == CheminPatch(patch)
  {
    NomsTrois(Fixe("config"), Fixe("schemas"), FichierPatch(patch));
    assert [Parent, Parent, Parent, Parent, Nom(Fixe("config")), Nom(Fixe("schemas")), Nom(FichierPatch(patch))]
      == seq(4, _ => Parent) + Noms([Fixe("config"), Fixe("schemas"), FichierPatch(patch)]);
    JoindreRemonter(DIRNAME, 4, [Fixe("config"), Fixe("schemas"), FichierPatch(patch)]);
  }

  /** The names of a path. */
  function NomsChemin(chemin: Chemin): seq<string>
  {
    if |chemin| == 0 then [] else [NomComposant(chemin[0])] + NomsChemin(chemin[1..])
  }

  /** path.join's text, separated by '/'. */
  function TexteChemin(chemin: Chemin): string
  {
    Join(NomsChemin(chemin), "/")
  }

  // ---- configuration and patches ---------------------------------------

  /** A patch number as read from JSON: a number, or anything else. */
  datatype ValeurPatch = Numero(n: int) | NonNumerique

  /** The hidden configuration file kept between versions. */
  datatype ConfigCachee = ConfigCachee(patch: ValeurPatch)

  const CACHEE_MAL_FORMEE := "Configuration cachée mal formée : le numéro de patch doit être un nombre. Voir config/.configCachee.json."
  const LOCALE_MAL_FORMEE := "Configuration locale mal formée : le numéro de patch doit être un nombre. Voir config/config.json."

  function PatchIntrouvable(patch: int): string
  {
    "Patch #" + IntToString(patch) + " introuvable : " + TexteChemin(CheminPatch(patch)) + ". Vérifiez votre installation."
  }

  /** readFileSync on a missing file. */
  function FichierIntrouvable(chemin: Chemin): Thrown
  {
    StdError("ENOENT: no such file or directory, open '" + TexteChemin(chemin) + "'")
  }

  /** The first patch of dernier+1..actuel whose file is missing, if any. */
  function PremierManquant(fichiers: Fichiers, dernier: int, actuel: int): (m: Option<int>)
    ensures m.Some? ==> dernier < m.value <= actuel
    decreases actuel - dernier
  {
    if dernier >= actuel then None
    else if CheminPatch(dernier + 1) !in fichiers then Some(dernier + 1)
    else PremierManquant(fichiers, dernier + 1, actuel)
  }

  /**
   * The patch found is missing and every patch before it is present; none
   * found: every patch of dernier+1..actuel is present.
   */
  lemma {:induction false} PremierManquantCorrect(fichiers: Fichiers, dernier: int, actuel: int)
    ensures var m := PremierManquant(fichiers, dernier, actuel);
      m.Some? ==> (dernier < m.value <= actuel && CheminPatch(m.value) !in fichiers &&
        forall q :: dernier < q < m.value ==> CheminPatch(q) in fichiers)
    ensures PremierManquant(fichiers, dernier, actuel).None? ==> forall q :: dernier < q <= actuel ==> CheminPatch(q) in fichiers
    decreases actuel - dernier
  {
    if dernier < actuel && CheminPatch(dernier + 1) in fichiers {
      PremierManquantCorrect(fichiers, dernier + 1, actuel);
    }
  }

  /** Conversely, a missing patch with every patch before it present is the one found. */
  lemma {:induction false} PremierManquantSome(fichiers: Fichiers, dernier: int, actuel: int, m: int)
    requires dernier < m <= actuel && CheminPatch(m) !in fichiers
    requires forall q :: dernier < q < m ==> CheminPatch(q) in fichiers
    ensures PremierManquant(fichiers, dernier, actuel) == Some(m)
    decreases m - dernier
  {
    if dernier + 1 < m {
      PremierManquantSome(fichiers, dernier + 1, actuel, m);
    }
  }

  /** Conversely, every patch present: none is found. */
  lemma {:induction false} PremierManquantNone(fichiers: Fichiers, dernier: int, actuel: int)
    requires forall q :: dernier < q <= actuel ==> CheminPatch(q) in fichiers
    ensures PremierManquant(fichiers, dernier, actuel).None?
    decreases actuel - dernier
  {
    if dernier < actuel {
      PremierManquantNone(fichiers, dernier + 1, actuel);
    }
  }

  /** The statements of one patch's file; a missing file has none (the loop stops before it). */
  function InstructionsPatch(fichiers: Fichiers, patch: int): seq<string>
  {
    if CheminPatch(patch) in fichiers then Instructions(fichiers[CheminPatch(patch)]) else []
  }

  /** The statements of patches dernier+1..jusque, patch after patch in increasing order. */
  function InstructionsPatchs(fichiers: Fichiers, dernier: int, jusque: int): seq<string>
    decreases jusque - dernier
  {
    if jusque <= dernier then []
    else InstructionsPatchs(fichiers, dernier, jusque - 1) + InstructionsPatch(fichiers, jusque)
  }

  /**
   * Patches run in two goes, up to milieu and then on, send the same
   * statements as a single run.
   */
  lemma {:induction false} InstructionsPatchsEnDeuxFois(fichiers: Fichiers, dernier: int, milieu: int, jusque: int)
    requires dernier <= milieu <= jusque
    ensures InstructionsPatchs(fichiers, dernier, jusque) ==
      InstructionsPatchs(fichiers, dernier, milieu) + InstructionsPatchs(fichiers, milieu, jusque)
    decreases jusque - milieu
  {
    if milieu < jusque {
      InstructionsPatchsEnDeuxFois(fichiers, dernier, milieu, jusque - 1);
      Associativite(InstructionsPatchs(fichiers, dernier, milieu), InstructionsPatchs(fichiers, milieu, jusque - 1),
        InstructionsPatch(fichiers, jusque));
    }
  }

  /** A single patch sends the statements of its own file. */
  lemma UnPatch(fichiers: Fichiers, patch: int)
    requires CheminPatch(patch) in fichiers
    ensures InstructionsPatchs(fichiers, patch - 1, patch) == Instructions(fichiers[CheminPatch(patch)])
  {
  }

  // ---- the server's answers -------------------------------------------

  /**
   * The server's answer to a statement, given the statements it has already
   * received: None accepts it, Some(e) rejects it (the promise of execute
   * is rejected with e).
   */
  type Serveur = (seq<string>, string) -> Option<Thrown>

  /** A server that rejects nothing. */
  ghost predicate Accepte(serveur: Serveur)
  {
    forall envoyees, statement :: serveur(envoyees, statement).None?
  }

  /**
   * The loop of executerSQL, from the statements already sent: each
   * statement is sent after those before it; the first one the server
   * rejects is sent, and its error ends the loop.
   */
  function Executer(envoyees: seq<string>, statements: seq<string>, serveur: Serveur): (r: (seq<string>, Result<()>))
    ensures |envoyees| <= |r.0| <= |envoyees| + |statements| && r.0 == envoyees + statements[..|r.0| - |envoyees|]
    ensures r.1.Ok? ==> r.0 == envoyees + statements
    ensures r.1.Err? ==> |r.0| > |envoyees| && serveur(r.0[..|r.0| - 1], r.0[|r.0| - 1]) == Some(r.1.error)
    decreases |statements|
  {
    if |statements| == 0 then (envoyees, Ok(()))
    else
      match serveur(envoyees, statements[0])
      case Some(e) =>
        assert statements[..1] == [statements[0]];
        (envoyees + [statements[0]], Err(e))
      case None =>
        var r := Executer(envoyees + [statements[0]], statements[1..], serveur);
        EnTete(envoyees, statements, |r.0| - |envoyees| - 1);
        r
  }

  /** Sending statements[0] and then the next j ones is sending the first j + 1. */
  lemma EnTete(envoyees: seq<string>, statements: seq<string>, j: nat)
    requires 0 < |statements| && j < |statements|
    ensures envoyees + [statements[0]] + statements[1..][..j] == envoyees + statements[..j + 1]
  {
    assert statements[..j + 1] == [statements[0]] + statements[1..][..j];
  }

  /** The run succeeds exactly when the server accepts every statement, each given those sent before it. */
  lemma {:induction false} ExecuterRefus(envoyees: seq<string>, statements: seq<string>, serveur: Serveur)
    ensures Executer(envoyees, statements, serveur).1.Ok? <==>
      forall k :: 0 <= k < |statements| ==> serveur(envoyees + statements[..k], statements[k]).None?
    decreases |statements|
  {
    if |statements| > 0 {
      var d := envoyees + [statements[0]];
      ExecuterRefus(d, statements[1..], serveur);
      assert statements[..0] == [];
      assert envoyees + statements[..0] == envoyees;
      forall k | 1 <= k < |statements|
        ensures envoyees + statements[..k] == d + statements[1..][..k - 1] && statements[k] == statements[1..][k - 1]
      {
        EnTete(envoyees, statements, k - 1);
      }
      if serveur(envoyees, statements[0]).None? {
        if forall k :: 0 <= k < |statements| - 1 ==> serveur(d + statements[1..][..k], statements[1..][k]).None? {
          forall k | 0 <= k < |statements|
            ensures serveur(envoyees + statements[..k], statements[k]).None?
          {
            if k > 0 {
              assert serveur(d + statements[1..][..k - 1], statements[1..][k - 1]).None?;
            }
          }
        } else {
          var k :| 0 <= k < |statements| - 1 && serveur(d + statements[1..][..k], statements[1..][k]).Some?;
          assert serveur(envoyees + statements[..k + 1], statements[k + 1]).Some?;
        }
      }
    }
  }

  /** A server that rejects nothing receives the whole script. */
  lemma {:induction false} ExecuterAccepte(envoyees: seq<string>, statements: seq<string>, serveur: Serveur)
    requires Accepte(serveur)
    ensures Executer(envoyees, statements, serveur) == (envoyees + statements, Ok(()))
  {
    ExecuterRefus(envoyees, statements, serveur);
    forall k | 0 <= k < |statements|
      ensures serveur(envoyees + statements[..k], statements[k]).None?
    {
    }
    var r := Executer(envoyees, statements, serveur);
    assert r.1.Ok? && r.1.value == ();
  }

  /**
   * The loop of appliquerPatchs from patch `patch` on: a missing file is
   * an Error naming it; a present one runs its script, and the first
   * statement the server rejects ends the loop with its error.
   */
  function BouclePatchs(envoyees: seq<string>, fichiers: Fichiers, patch: int, actuel: int, serveur: Serveur): (r: (seq<string>, Result<()>))
    ensures |envoyees| <= |r.0| && r.0[..|envoyees|] == envoyees
    decreases actuel - patch + 1
  {
    if patch > actuel then (envoyees, Ok(()))
    else if CheminPatch(patch) !in fichiers then (envoyees, FailStd(PatchIntrouvable(patch)))
    else
      var (apres, r) := Executer(envoyees, Instructions(fichiers[CheminPatch(patch)]), serveur);
      if r.Err? then (apres, r)
      else
        var fin := BouclePatchs(apres, fichiers, patch + 1, actuel, serveur);
        assert fin.0[..|envoyees|] == fin.0[..|apres|][..|envoyees|];
        fin
  }

  /** A patch of the range is missing: the loop fails, whatever the server answers. */
  lemma {:induction false} BouclePatchsManquant(envoyees: seq<string>, fichiers: Fichiers, patch: int, actuel: int, serveur: Serveur)
    requires PremierManquant(fichiers, patch - 1, actuel).Some?
    ensures BouclePatchs(envoyees, fichiers, patch, actuel, serveur).1.Err?
    decreases actuel - patch + 1
  {
    if patch <= actuel && CheminPatch(patch) in fichiers {
      var (apres, r) := Executer(envoyees, Instructions(fichiers[CheminPatch(patch)]), serveur);
      if r.Ok? {
        BouclePatchsManquant(apres, fichiers, patch + 1, actuel, serveur);
      }
    }
  }

  /** The statements of the patches after `dernier` begin with those of patch dernier + 1. */
  lemma PremierPatch(fichiers: Fichiers, dernier: int, jusque: int)
    requires dernier < jusque
    ensures InstructionsPatchs(fichiers, dernier, jusque) ==
      InstructionsPatch(fichiers, dernier + 1) + InstructionsPatchs(fichiers, dernier + 1, jusque)
  {
    InstructionsPatchsEnDeuxFois(fichiers, dernier, dernier + 1, jusque);
    assert InstructionsPatchs(fichiers, dernier, dernier + 1) == [] + InstructionsPatch(fichiers, dernier + 1);
  }

  /**
   * The patches after `dernier` up to the first missing one (or up to
   * `actuel`): the statements they send after `envoyees`, and the outcome,
   * an Error naming the missing patch.
   */
  function PatchsJusquAuManquant(envoyees: seq<string>, fichiers: Fichiers, dernier: int, actuel: int): (seq<string>, Result<()>)
  {
    match PremierManquant(fichiers, dernier, actuel)
    case Some(m) => (envoyees + InstructionsPatchs(fichiers, dernier, m - 1), FailStd(PatchIntrouvable(m)))
    case None => (envoyees + InstructionsPatchs(fichiers, dernier, actuel), Ok(()))
  }

  /**
   * With a server that rejects nothing, the loop runs patch after patch up
   * to the first missing one, or up to the current one if none is missing.
   */
  lemma {:induction false} BouclePatchsAccepte(envoyees: seq<string>, fichiers: Fichiers, patch: int, actuel: int, serveur: Serveur)
    requires Accepte(serveur)
    ensures BouclePatchs(envoyees, fichiers, patch, actuel, serveur) == PatchsJusquAuManquant(envoyees, fichiers, patch - 1, actuel)
    decreases actuel - patch + 1
  {
    if patch > actuel {
      assert envoyees + [] == envoyees;
      assert PatchsJusquAuManquant(envoyees, fichiers, patch - 1, actuel) == (envoyees, Ok(()));
    } else if CheminPatch(patch) !in fichiers {
      assert envoyees + [] == envoyees;
      assert PatchsJusquAuManquant(envoyees, fichiers, patch - 1, actuel) == (envoyees, FailStd(PatchIntrouvable(patch)));
    } else {
      var script := Instructions(fichiers[CheminPatch(patch)]);
      ExecuterAccepte(envoyees, script, serveur);
      assert BouclePatchs(envoyees, fichiers, patch, actuel, serveur) ==
        BouclePatchs(envoyees + script, fichiers, patch + 1, actuel, serveur);
      BouclePatchsAccepte(envoyees + script, fichiers, patch + 1, actuel, serveur);
      PatchsJusquAuManquantPresent(envoyees, fichiers, patch, actuel);
    }
  }

  /** A present first patch: its statements are sent first, then those of the patches after it. */
  lemma PatchsJusquAuManquantPresent(envoyees: seq<string>, fichiers: Fichiers, patch: int, actuel: int)
    requires patch <= actuel && CheminPatch(patch) in fichiers
    ensures PatchsJusquAuManquant(envoyees, fichiers, patch - 1, actuel) ==
      PatchsJusquAuManquant(envoyees + Instructions(fichiers[CheminPatch(patch)]), fichiers, patch, actuel)
  {
    var script := Instructions(fichiers[CheminPatch(patch)]);
    var m := PremierManquant(fichiers, patch, actuel);
    assert PremierManquant(fichiers, patch - 1, actuel) == m;
    var jusque := if m.Some? then m.value - 1 else actuel;
    ghost var suite := InstructionsPatchs(fichiers, patch, jusque);
    assert InstructionsPatchs(fichiers, patch - 1, jusque) == script + suite by {
      PremierPatch(fichiers, patch - 1, jusque);
    }
    Associativite(envoyees, script, suite);
    ghost var fin := if m.Some? then FailStd(PatchIntrouvable(m.value)) else Ok(());
    assert PatchsJusquAuManquant(envoyees, fichiers, patch - 1, actuel) == (envoyees + (script + suite), fin);
    assert PatchsJusquAuManquant(envoyees + script, fichiers, patch, actuel) == (envoyees + script + suite, fin);
  }

  /** The hidden configuration and the statements sent, in order. */
  datatype EtatBdd = EtatBdd(configCachee: Option<ConfigCachee>, executees: seq<string>)

  /**
   * appliquerPatchs: with no hidden configuration, a fresh one (holding the
   * current patch number) is saved and nothing runs; a patch number that is
   * not a number is an Error; when the last applied patch is below the
   * current one, the patches run from last+1 in order and the current
   * number is then saved, unless a patch file is missing or the server
   * rejects a statement: that error is returned, the statements sent stay
   * sent and the saved number does not move.
   */
  function Patchs(e: EtatBdd, fichiers: Fichiers, patchNb: ValeurPatch, serveur: Serveur): (r: (EtatBdd, Result<()>))
    ensures |e.executees| <= |r.0.executees| && r.0.executees[..|e.executees|] == e.executees
    ensures r.1.Err? ==> r.0.configCachee == e.configCachee
    ensures r.0.configCachee != e.configCachee ==> r.0.configCachee == Some(ConfigCachee(patchNb))
  {
    if e.configCachee.None? then (e.(configCachee := Some(ConfigCachee(patchNb))), Ok(()))
    else if e.configCachee.value.patch.NonNumerique? then (e, FailStd(CACHEE_MAL_FORMEE))
    else if patchNb.NonNumerique? then (e, FailStd(LOCALE_MAL_FORMEE))
    else
      var dernier := e.configCachee.value.patch.n;
      var actuel := patchNb.n;
      if dernier >= actuel then (e, Ok(()))
      else
        var (envoyees, r) := BouclePatchs(e.executees, fichiers, dernier + 1, actuel, serveur);
        if r.Err? then (e.(executees := envoyees), r)
        else (EtatBdd(Some(ConfigCachee(patchNb)), envoyees), Ok(()))
  }

  /** Up to date (last applied at or above current): nothing changes. */
  lemma AJour(e: EtatBdd, fichiers: Fichiers, dernier: int, actuel: int, serveur: Serveur)
    requires e.configCachee == Some(ConfigCachee(Numero(dernier))) && dernier >= actuel
    ensures Patchs(e, fichiers, Numero(actuel), serveur) == (e, Ok(()))
  {
  }

  /**
   * A server that rejects nothing: the patches last+1..current all run and
   * the current number is saved, or, at the first missing patch file, the
   * patches before it stay applied and the error names that patch.
   */
  lemma PatchsAccepte(e: EtatBdd, fichiers: Fichiers, dernier: int, actuel: int, serveur: Serveur)
    requires Accepte(serveur) && e.configCachee == Some(ConfigCachee(Numero(dernier))) && dernier < actuel
    ensures var (envoyees, r) := PatchsJusquAuManquant(e.executees, fichiers, dernier, actuel);
      Patchs(e, fichiers, Numero(actuel), serveur) ==
        if r.Err? then (e.(executees := envoyees), r) else (EtatBdd(Some(ConfigCachee(Numero(actuel))), envoyees), Ok(()))
  {
    BouclePatchsAccepte(e.executees, fichiers, dernier + 1, actuel, serveur);
  }

  /**
   * A successful upgrade records the current number, so a second run right
   * after it changes nothing.
   */
  lemma PatchsIdempotents(e: EtatBdd, fichiers: Fichiers, patchNb: ValeurPatch, serveur: Serveur)
    requires patchNb.Numero? && Patchs(e, fichiers, patchNb, serveur).1.Ok?
    ensures var e1 := Patchs(e, fichiers, patchNb, serveur).0;
      Patchs(e1, fichiers, patchNb, serveur) == (e1, Ok(()))
  {
  }

  /**
   * A missing patch file is an error whatever the server answers, and the
   * stored number does not move, so the next run retries from the same
   * patch.
   */
  lemma PatchManquantRetente(e: EtatBdd, fichiers: Fichiers, dernier: int, actuel: int, serveur: Serveur)
    requires e.configCachee == Some(ConfigCachee(Numero(dernier))) && dernier < actuel
    requires PremierManquant(fichiers, dernier, actuel).Some?
    ensures Patchs(e, fichiers, Numero(actuel), serveur).0.configCachee == e.configCachee
    ensures Patchs(e, fichiers, Numero(actuel), serveur).1.Err?
  {
    var b := BouclePatchs(e.executees, fichiers, dernier + 1, actuel, serveur);
    BouclePatchsManquant(e.executees, fichiers, dernier + 1, actuel, serveur);
    assert Patchs(e, fichiers, Numero(actuel), serveur) == (e.(executees := b.0), b.1);
  }

  /**
   * importer: the count query's answer (an error when it is rejected, None
   * for no row); on an empty database (a count row holding 0) the initial
   * schema runs and the hidden configuration is saved with the current
   * patch number, unless the file is missing or the server rejects a
   * statement; the result says whether the import ran.
   */
  function Import(e: EtatBdd, fichiers: Fichiers, nbTables: Result<Option<int>>, patchNb: ValeurPatch, serveur: Serveur): (r: (EtatBdd, Result<bool>))
    ensures |e.executees| <= |r.0.executees| && r.0.executees[..|e.executees|] == e.executees
    ensures r.1 != Ok(true) ==> r.0.configCachee == e.configCachee
    ensures r.1 == Ok(true) ==> r.0.configCachee == Some(ConfigCachee(patchNb))
    ensures r.1 == Ok(false) ==> r.0 == e
  {
    if nbTables.Err? then (e, Err(nbTables.error))
    else if nbTables.value != Some(0) then (e, Ok(false))
    else if CheminInitial() !in fichiers then (e, Err(FichierIntrouvable(CheminInitial())))
    else
      var (envoyees, r) := Executer(e.executees, Instructions(fichiers[CheminInitial()]), serveur);
      if r.Err? then (e.(executees := envoyees), Err(r.error))
      else (EtatBdd(Some(ConfigCachee(patchNb)), envoyees), Ok(true))
  }

  /** connexion after the pool is created: the import, then the patches only when the import did not run. */
  function Ouverture(e: EtatBdd, fichiers: Fichiers, nbTables: Result<Option<int>>, patchNb: ValeurPatch, serveur: Serveur): (EtatBdd, Result<()>)
  {
    var (e1, r) := Import(e, fichiers, nbTables, patchNb, serveur);
    if r.Err? then (e1, Err(r.error))
    else if r.value then (e1, Ok(()))
    else Patchs(e1, fichiers, patchNb, serveur)
  }

  /**
   * Patches run only when the import did not: on an empty database only
   * statements of initial.sql are sent, all of them when the server
   * rejects none.
   */
  lemma ImportOuPatchs(e: EtatBdd, fichiers: Fichiers, patchNb: ValeurPatch, serveur: Serveur)
    requires CheminInitial() in fichiers
    ensures var o, script := Ouverture(e, fichiers, Ok(Some(0)), patchNb, serveur), Instructions(fichiers[CheminInitial()]);
      o.0.executees == e.executees + script[..|o.0.executees| - |e.executees|] &&
      (Accepte(serveur) ==> o == (EtatBdd(Some(ConfigCachee(patchNb)), e.executees + script), Ok(())))
  {
    var script := Instructions(fichiers[CheminInitial()]);
    var (envoyees, r) := Executer(e.executees, script, serveur);
    assert Ouverture(e, fichiers, Ok(Some(0)), patchNb, serveur).0.executees == envoyees;
    if Accepte(serveur) {
      ExecuterAccepte(e.executees, script, serveur);
    }
  }

  /** On a non-empty database only the patches run; a rejected count query is returned as is and changes nothing. */
  lemma PatchsSeuls(e: EtatBdd, fichiers: Fichiers, nbTables: Result<Option<int>>, patchNb: ValeurPatch, serveur: Serveur)
    ensures nbTables.Ok? && nbTables.value != Some(0) ==> Ouverture(e, fichiers, nbTables, patchNb, serveur) == Patchs(e, fichiers, patchNb, serveur)
    ensures nbTables.Err? ==> Ouverture(e, fichiers, nbTables, patchNb, serveur) == (e, Err(nbTables.error))
  {
  }

  /** After an import, the patches are already up to date. */
  lemma ImportPuisPatchs(e: EtatBdd, fichiers: Fichiers, patchNb: ValeurPatch, serveur: Serveur)
    requires patchNb.Numero? && Import(e, fichiers, Ok(Some(0)), patchNb, serveur).1 == Ok(true)
    ensures var e1 := Import(e, fichiers, Ok(Some(0)), patchNb, serveur).0;
      Patchs(e1, fichiers, patchNb, serveur) == (e1, Ok(()))
  {
  }

  /**
   * The static state of Database and of ConfigManager's hidden
   * configuration: the pool (an id, counting createPool calls), the
   * configuration and the statements sent.
   */
  class Database {
    var pool: Option<nat>
    var poolsCreees: nat
    var configCachee: Option<ConfigCachee>
    var executees: seq<string>

    constructor (configCachee: Option<ConfigCachee>)
      ensures pool.None? && poolsCreees == 0 && this.configCachee == configCachee && executees == []
    {
      pool := None;
      poolsCreees := 0;
      this.configCachee := configCachee;
      executees := [];
    }

    function Etat(): EtatBdd
      reads this
    {
      EtatBdd(configCachee, executees)
    }

    /** executerSQL: the statements of the script are sent one at a time, each awaited. */
    method ExecuterSQL(sql: string, serveur: Serveur) returns (r: Result<()>)
      modifies this
      ensures (executees, r) == Executer(old(executees), Instructions(sql), serveur)
      ensures configCachee == old(configCachee) && pool == old(pool) && poolsCreees == old(poolsCreees)
    {
      var statements := Instructions(sql);
      var k := 0;
      while k < |statements|
        invariant 0 <= k <= |statements|
        invariant Executer(old(executees), statements, serveur) == Executer(executees, statements[k..], serveur)
        invariant configCachee == old(configCachee) && pool == old(pool) && poolsCreees == old(poolsCreees)
      {
        var refus := serveur(executees, statements[k]);
        assert statements[k..][0] == statements[k] && statements[k..][1..] == statements[k + 1..];
        executees := executees + [statements[k]];
        if refus.Some? {
          return Err(refus.value);
        }
        k := k + 1;
      }
      return Ok(());
    }

    /** importer, with nbTables the count query's answer. */
    method Importer(fichiers: Fichiers, nbTables: Result<Option<int>>, patchNb: ValeurPatch, serveur: Serveur) returns (r: Result<bool>)
      modifies this
      ensures (Etat(), r) == Import(old(Etat()), fichiers, nbTables, patchNb, serveur)
      ensures pool == old(pool) && poolsCreees == old(poolsCreees)
    {
      if nbTables.Err? {
        return Err(nbTables.error);
      }
      if nbTables.value.Some? && nbTables.value.value == 0 {
        var chemin := JointInitial();
        CheminInitialResolu();
        if chemin !in fichiers {
          return Err(FichierIntrouvable(chemin));
        }
        var execution := ExecuterSQL(fichiers[chemin], serveur);
        if execution.Err? {
          return Err(execution.error);
        }
        var config := if configCachee.Some? then configCachee.value else ConfigCachee(patchNb);
        configCachee := Some(config.(patch := patchNb));
        return Ok(true);
      }
      return Ok(false);
    }

    /** appliquerPatchs, with the corrected patch path. */
    method AppliquerPatchs(fichiers: Fichiers, patchNb: ValeurPatch, serveur: Serveur) returns (r: Result<()>)
      modifies this
      ensures (Etat(), r) == Patchs(old(Etat()), fichiers, patchNb, serveur)
      ensures pool == old(pool) && poolsCreees == old(poolsCreees)
    {
      if configCachee.None? {
        configCachee := Some(ConfigCachee(patchNb));
        return Ok(());
      }
      var dernierPatchApplique := configCachee.value.patch;
      if dernierPatchApplique.NonNumerique? {
        return FailStd(CACHEE_MAL_FORMEE);
      } else if patchNb.NonNumerique? {
        return FailStd(LOCALE_MAL_FORMEE);
      }
      if dernierPatchApplique.n < patchNb.n {
        r := MettreAJour(fichiers, patchNb, serveur);
      } else {
        r := Ok(());
      }
    }

    /**
     * The branch of appliquerPatchs that runs patches: the last applied
     * patch is below the current one; the cached number becomes the current
     * one once every patch has run.
     */
    method MettreAJour(fichiers: Fichiers, patchNb: ValeurPatch, serveur: Serveur) returns (r: Result<()>)
      requires configCachee.Some? && configCachee.value.patch.Numero? && patchNb.Numero?
      requires configCachee.value.patch.n < patchNb.n
      modifies this
      ensures (Etat(), r) == Patchs(old(Etat()), fichiers, patchNb, serveur)
      ensures pool == old(pool) && poolsCreees == old(poolsCreees)
    {
      ghost var e0 := Etat();
      var dernier, actuel := configCachee.value.patch.n, patchNb.n;
      r := ExecuterPatchs(fichiers, dernier, actuel, serveur);
      ghost var boucle := BouclePatchs(e0.executees, fichiers, dernier + 1, actuel, serveur);
      assert executees == boucle.0 && r == boucle.1;
      assert configCachee == e0.configCachee;
      if r.Err? {
        assert Etat() == e0.(executees := boucle.0);
        assert Patchs(e0, fichiers, patchNb, serveur) == (e0.(executees := boucle.0), r);
        return r;
      }
      configCachee := Some(ConfigCachee(patchNb));
      r := Ok(());
      assert Etat() == EtatBdd(Some(ConfigCachee(patchNb)), boucle.0);
      assert Patchs(e0, fichiers, patchNb, serveur) == (EtatBdd(Some(ConfigCachee(patchNb)), boucle.0), Ok(()));
    }

    /**
     * The loop of appliquerPatchs, with the corrected patch path: patches
     * dernier+1..actuel run in increasing order, up to the first whose file
     * is missing or whose script the server rejects.
     */
    method ExecuterPatchs(fichiers: Fichiers, dernier: int, actuel: int, serveur: Serveur) returns (r: Result<()>)
      modifies this
      ensures (executees, r) == BouclePatchs(old(executees), fichiers, dernier + 1, actuel, serveur)
      ensures configCachee == old(configCachee) && pool == old(pool) && poolsCreees == old(poolsCreees)
    {
      ghost var total := BouclePatchs(executees, fichiers, dernier + 1, actuel, serveur);
      var patch := dernier + 1;
      while patch <= actuel
        invariant total == BouclePatchs(executees, fichiers, patch, actuel, serveur)
        invariant configCachee == old(configCachee) && pool == old(pool) && poolsCreees == old(poolsCreees)
        decreases actuel - patch
      {
        ghost var avant := executees;
        var chemin := JointPatch(patch);
        PatchAvecSchemas(patch);
        if chemin !in fichiers {
          return FailStd(PatchIntrouvable(patch));
        }
        r := ExecuterSQL(fichiers[chemin], serveur);
        assert (executees, r) == Executer(avant, Instructions(fichiers[CheminPatch(patch)]), serveur);
        if r.Err? {
          assert total == (executees, r);
          return r;
        }
        assert total == BouclePatchs(executees, fichiers, patch + 1, actuel, serveur);
        patch := patch + 1;
      }
      return Ok(());
    }

    /**
     * connexion: an existing pool is returned and nothing else happens;
     * otherwise a pool is created (and kept even if what follows fails),
     * then the import and, when it did not run, the patches.
     */
    method Connexion(fichiers: Fichiers, nbTables: Result<Option<int>>, patchNb: ValeurPatch, serveur: Serveur) returns (r: Result<nat>)
      modifies this
      ensures old(pool).Some? ==> r == Ok(old(pool).value) && Etat() == old(Etat()) && pool == old(pool) && poolsCreees == old(poolsCreees)
      ensures old(pool).None? ==> (pool == Some(old(poolsCreees) + 1) && poolsCreees == old(poolsCreees) + 1 &&
        Etat() == Ouverture(old(Etat()), fichiers, nbTables, patchNb, serveur).0 &&
        (r.Ok? <==> Ouverture(old(Etat()), fichiers, nbTables, patchNb, serveur).1.Ok?) &&
        (r.Ok? ==> r.value == pool.value) &&
        (r.Err? ==> r.error == Ouverture(old(Etat()), fichiers, nbTables, patchNb, serveur).1.error))
    {
      if pool.Some? {
        return Ok(pool.value);
      }
      poolsCreees := poolsCreees + 1;
      pool := Some(poolsCreees);
      var bddEstVide := Importer(fichiers, nbTables, patchNb, serveur);
      if bddEstVide.Err? {
        return Err(bddEstVide.error);
      }
      if !bddEstVide.value {
        var p := AppliquerPatchs(fichiers, patchNb, serveur);
        if p.Err? {
          return Err(p.error);
        }
      }
      return Ok(pool.value);
    }
  }

  /** However many calls, one pool: the second connexion returns the pool of the first. */
  method DeuxConnexions(db: Database, fichiers: Fichiers, nbTables: Result<Option<int>>, patchNb: ValeurPatch, serveur: Serveur)
    returns (r1: Result<nat>, r2: Result<nat>)
    modifies db
    ensures db.poolsCreees <= old(db.poolsCreees) + 1
    ensures r1.Ok? ==> r2 == r1
  {
    r1 := db.Connexion(fichiers, nbTables, patchNb, serveur);
    r2 := db.Connexion(fichiers, nbTables, patchNb, serveur);
  }
}
