// src/cache/base/DatabaseCacheBase.ts: a cache backed by one database table.
// The primary key is the fixed values of the parent components followed by
// the cache's own component. The SQL text and its parameters are built here;
// the database itself is outside the model: a query's rows and an
// execution's outcome are given to each operation.
module DatabaseCacheBase {
  import opened Wrappers
  import opened Erreurs
  import opened Texte
  import opened CacheBase

  /** A key component or a column value: `string | number`. */
  datatype Valeur = Chaine(texte: string) | Nombre(nombre: int)

  /** One statement sent to the database, with its parameters. */
  datatype Requete = Requete(sql: string, valeurs: seq<Valeur>)

  /** The number of occurrences of c in s. */
  function Occurrences(s: string, c: char): nat
  {
    if |s| == 0 then 0 else (if s[0] == c then 1 else 0) + Occurrences(s[1..], c)
  }

  lemma {:induction false} OccurrencesConcat(a: string, b: string, c: char)
    ensures Occurrences(a + b, c) == Occurrences(a, c) + Occurrences(b, c)
  {
    if |a| > 0 {
      assert (a + b)[1..] == a[1..] + b;
      OccurrencesConcat(a[1..], b, c);
    } else {
      assert a + b == b;
    }
  }

  lemma {:induction false} OccurrencesAbsent(s: string, c: char)
    requires c !in s
    ensures Occurrences(s, c) == 0
  {
    if |s| > 0 {
      OccurrencesAbsent(s[1..], c);
    }
  }

  /** The `?` placeholders of a statement: as many as it takes parameters. */
  function Marqueurs(sql: string): nat
  {
    Occurrences(sql, '?')
  }

  /** `\`${colonne}\` = ?`. */
  function Condition(colonne: string): string
  {
    "`" + colonne + "` = ?"
  }

  /** `colonnes.map(...).join(" AND ")`. */
  function ClauseWhere(colonnes: seq<string>): string
  {
    Join(seq(|colonnes|, i requires 0 <= i < |colonnes| => Condition(colonnes[i])), " AND ")
  }

  /** Names that cannot hide a placeholder. */
  predicate SansMarqueur(noms: seq<string>)
  {
    forall i :: 0 <= i < |noms| ==> '?' !in noms[i]
  }

  lemma MarqueursCondition(colonne: string)
    requires '?' !in colonne
    ensures Marqueurs(Condition(colonne)) == 1
  {
    OccurrencesConcat("`" + colonne, "` = ?", '?');
    OccurrencesConcat("`", colonne, '?');
    OccurrencesAbsent(colonne, '?');
  }

  /** The WHERE clause has one placeholder per key column. */
  lemma {:induction false} MarqueursClauseWhere(colonnes: seq<string>)
    requires SansMarqueur(colonnes)
    ensures Marqueurs(ClauseWhere(colonnes)) == |colonnes|
  {
    var conditions := seq(|colonnes|, i requires 0 <= i < |colonnes| => Condition(colonnes[i]));
    if |colonnes| == 1 {
      MarqueursCondition(colonnes[0]);
    } else if |colonnes| > 1 {
      var reste := colonnes[1..];
      MarqueursClauseWhere(reste);
      assert conditions[1..] == seq(|reste|, i requires 0 <= i < |reste| => Condition(reste[i]));
      assert ClauseWhere(colonnes) == conditions[0] + " AND " + ClauseWhere(reste);
      MarqueursCondition(colonnes[0]);
      OccurrencesConcat(conditions[0] + " AND ", ClauseWhere(reste), '?');
      OccurrencesConcat(conditions[0], " AND ", '?');
      OccurrencesAbsent(" AND ", '?');
    }
  }

  /** getOrFetch's query. */
  function RequeteSelection(nomTable: string, colonnes: seq<string>): string
  {
    "SELECT * FROM `" + nomTable + "` WHERE " + ClauseWhere(colonnes) + " LIMIT 1;"
  }

  /** delete's statement. */
  function RequeteSuppression(nomTable: string, colonnes: seq<string>): string
  {
    "DELETE FROM `" + nomTable + "` WHERE " + ClauseWhere(colonnes) + ";"
  }

  /** `SELECT * FROM \`t\` ${whereSql} ${clause ?? ""};`, filtering on every key column but the last when parents are given. */
  function RequeteTout(nomTable: string, colonnes: seq<string>, parents: Option<seq<Valeur>>, clause: Option<string>): string
  {
    "SELECT * FROM `" + nomTable + "` " + Filtre(colonnes, parents) + " " + (if clause.Some? then clause.value else "") + ";"
  }

  /** count's query. */
  function RequeteComptage(nomTable: string): string
  {
    "SELECT COUNT(*) AS count FROM `" + nomTable + "`;"
  }

  /** insert's statement: the column list and one placeholder per column, in the same order. */
  function RequeteInsertion(nomTable: string, donnees: seq<(string, Valeur)>): string
  {
    var colonnes := Join(seq(|donnees|, i requires 0 <= i < |donnees| => "`" + donnees[i].0 + "`"), ", ");
    var marqueurs := Join(seq(|donnees|, _ => "?"), ", ");
    "INSERT INTO `" + nomTable + "` (" + colonnes + ") VALUES (" + marqueurs + ");"
  }

  /** `Object.values(donnees)`, in the order of `Object.keys`. */
  function Valeurs(donnees: seq<(string, Valeur)>): (v: seq<Valeur>)
    ensures |v| == |donnees| && forall i :: 0 <= i < |donnees| ==> v[i] == donnees[i].1
  {
    seq(|donnees|, i requires 0 <= i < |donnees| => donnees[i].1)
  }

  /** The primary key's values: the parents' values followed by id, or just id. */
  function ValeursCle(parents: Option<seq<Valeur>>, id: Valeur): (v: seq<Valeur>)
    ensures parents.Some? ==> |v| == |parents.value| + 1 && v[..|parents.value|] == parents.value
    ensures parents.None? ==> |v| == 1
    ensures v[|v| - 1] == id
  {
    if parents.Some? then parents.value + [id] else [id]
  }

  /** Text of the statement around the WHERE clause, with no placeholder. */
  lemma MarqueursAutour(avant: string, nomTable: string, milieu: string, clause: string, apres: string)
    requires '?' !in avant && '?' !in nomTable && '?' !in milieu && '?' !in apres
    ensures Marqueurs(avant + nomTable + milieu + clause + apres) == Marqueurs(clause)
  {
    OccurrencesConcat(avant + nomTable + milieu + clause, apres, '?');
    OccurrencesConcat(avant + nomTable + milieu, clause, '?');
    OccurrencesConcat(avant + nomTable, milieu, '?');
    OccurrencesConcat(avant, nomTable, '?');
    OccurrencesAbsent(avant, '?');
    OccurrencesAbsent(nomTable, '?');
    OccurrencesAbsent(milieu, '?');
    OccurrencesAbsent(apres, '?');
  }

  /**
   * getOrFetch's query has one placeholder per key column: with the parents'
   * values for all columns but the last, it takes exactly the key's values.
   */
  lemma MarqueursSelection(nomTable: string, colonnes: seq<string>, parents: Option<seq<Valeur>>, id: Valeur)
    requires '?' !in nomTable && SansMarqueur(colonnes)
    requires parents.Some? ==> |parents.value| + 1 == |colonnes|
    requires parents.None? ==> |colonnes| == 1
    ensures Marqueurs(RequeteSelection(nomTable, colonnes)) == |colonnes| == |ValeursCle(parents, id)|
    ensures Marqueurs(RequeteSuppression(nomTable, colonnes)) == |colonnes|
  {
    MarqueursClauseWhere(colonnes);
    MarqueursAutour("SELECT * FROM `", nomTable, "` WHERE ", ClauseWhere(colonnes), " LIMIT 1;");
    MarqueursAutour("DELETE FROM `", nomTable, "` WHERE ", ClauseWhere(colonnes), ";");
  }

  /** getAll's filter: `WHERE` and the condition of every key column but the last, or nothing. */
  function Filtre(colonnes: seq<string>, parents: Option<seq<Valeur>>): string
  {
    if |colonnes| > 1 && parents.Some? then "WHERE " + ClauseWhere(colonnes[..|colonnes| - 1]) else ""
  }

  lemma MarqueursFiltre(colonnes: seq<string>, parents: Option<seq<Valeur>>)
    requires SansMarqueur(colonnes)
    ensures Marqueurs(Filtre(colonnes, parents)) == if |colonnes| > 1 && parents.Some? then |colonnes| - 1 else 0
  {
    if |colonnes| > 1 && parents.Some? {
      var tete := colonnes[..|colonnes| - 1];
      assert SansMarqueur(tete) by {
        assert forall i :: 0 <= i < |tete| ==> tete[i] == colonnes[i];
      }
      MarqueursClauseWhere(tete);
      OccurrencesConcat("WHERE ", ClauseWhere(tete), '?');
      OccurrencesAbsent("WHERE ", '?');
    }
  }

  /** getAll's query has a placeholder for each parent value when it filters, and none otherwise. */
  lemma MarqueursTout(nomTable: string, colonnes: seq<string>, parents: Option<seq<Valeur>>, clause: Option<string>)
    requires '?' !in nomTable && SansMarqueur(colonnes)
    requires clause.Some? ==> '?' !in clause.value
    ensures Marqueurs(RequeteTout(nomTable, colonnes, parents, clause)) ==
      if |colonnes| > 1 && parents.Some? then |colonnes| - 1 else 0
  {
    var c := if clause.Some? then clause.value else "";
    var f := Filtre(colonnes, parents);
    MarqueursFiltre(colonnes, parents);
    MarqueursAutour("SELECT * FROM `", nomTable, "` ", f, " ");
    SuffixeSansMarqueur("SELECT * FROM `" + nomTable + "` " + f + " ", c);
  }

  lemma SuffixeSansMarqueur(debut: string, c: string)
    requires '?' !in c
    ensures Marqueurs(debut + c + ";") == Marqueurs(debut)
  {
    OccurrencesConcat(debut + c, ";", '?');
    OccurrencesConcat(debut, c, '?');
    OccurrencesAbsent(c, '?');
    OccurrencesAbsent(";", '?');
  }

  /** Placeholder count of a join of strings that each hold n placeholders, around a separator without any. */
  lemma {:induction false} MarqueursJoin(parts: seq<string>, sep: string, n: nat)
    requires '?' !in sep && forall i :: 0 <= i < |parts| ==> Marqueurs(parts[i]) == n
    ensures Marqueurs(Join(parts, sep)) == n * |parts|
  {
    if |parts| > 1 {
      assert Join(parts, sep) == parts[0] + sep + Join(parts[1..], sep);
      MarqueursJoin(parts[1..], sep, n);
      OccurrencesConcat(parts[0] + sep, Join(parts[1..], sep), '?');
      OccurrencesConcat(parts[0], sep, '?');
      OccurrencesAbsent(sep, '?');
      assert Marqueurs(Join(parts, sep)) == n + n * (|parts| - 1);
      assert n * |parts| == n + n * (|parts| - 1);
    } else if |parts| == 1 {
      assert Join(parts, sep) == parts[0];
    }
  }

  /** insert's statement takes exactly one parameter per given column: the values it is sent with. */
  lemma MarqueursInsertion(nomTable: string, donnees: seq<(string, Valeur)>)
    requires '?' !in nomTable && forall i :: 0 <= i < |donnees| ==> '?' !in donnees[i].0
    ensures Marqueurs(RequeteInsertion(nomTable, donnees)) == |donnees| == |Valeurs(donnees)|
  {
    var noms := seq(|donnees|, i requires 0 <= i < |donnees| => "`" + donnees[i].0 + "`");
    var marqueurs := seq(|donnees|, _ => "?");
    forall i | 0 <= i < |donnees| ensures Marqueurs(noms[i]) == 0 {
      OccurrencesAbsent(noms[i], '?');
    }
    MarqueursJoin(noms, ", ", 0);
    MarqueursJoin(marqueurs, ", ", 1);
    var colonnes, valeurs := Join(noms, ", "), Join(marqueurs, ", ");
    MarqueursAutour("INSERT INTO `", nomTable, "` (", colonnes, ") VALUES (");
    OccurrencesConcat("INSERT INTO `" + nomTable + "` (" + colonnes + ") VALUES (", valeurs, '?');
    OccurrencesConcat("INSERT INTO `" + nomTable + "` (" + colonnes + ") VALUES (" + valeurs, ");", '?');
    OccurrencesAbsent(");", '?');
  }

  /** The cache after storing each element under its own key, in order. */
  function EnCache<K(==), T>(m: map<K, T>, elements: seq<T>, cle: T -> K): map<K, T>
  {
    if |elements| == 0 then m
    else EnCache(m, elements[..|elements| - 1], cle)[cle(elements[|elements| - 1]) := elements[|elements| - 1]]
  }

  /** After getAll every returned element's key is stored. */
  lemma {:induction false} EnCacheCles<K, T>(m: map<K, T>, elements: seq<T>, cle: T -> K)
    ensures forall i :: 0 <= i < |elements| ==> cle(elements[i]) in EnCache(m, elements, cle)
  {
    if |elements| > 0 {
      var avant := elements[..|elements| - 1];
      EnCacheCles(m, avant, cle);
      assert forall i :: 0 <= i < |avant| ==> avant[i] == elements[i];
    }
  }

  /** When the returned elements have distinct keys, each is stored under its own key. */
  lemma {:induction false} EnCacheValeurs<K, T>(m: map<K, T>, elements: seq<T>, cle: T -> K)
    requires forall i, j :: 0 <= i < j < |elements| ==> cle(elements[i]) != cle(elements[j])
    ensures forall i :: 0 <= i < |elements| ==>
      cle(elements[i]) in EnCache(m, elements, cle) && EnCache(m, elements, cle)[cle(elements[i])] == elements[i]
  {
    if |elements| > 0 {
      var avant := elements[..|elements| - 1];
      assert forall i :: 0 <= i < |avant| ==> avant[i] == elements[i];
      EnCacheCles(m, avant, cle);
      EnCacheValeurs(m, avant, cle);
    }
  }

  /** A key of no returned element keeps what it held before. */
  lemma {:induction false} EnCacheAutres<K, T>(m: map<K, T>, elements: seq<T>, cle: T -> K, k: K)
    requires forall i :: 0 <= i < |elements| ==> cle(elements[i]) != k
    ensures k in EnCache(m, elements, cle) <==> k in m
    ensures k in m ==> EnCache(m, elements, cle)[k] == m[k]
  {
    if |elements| > 0 {
      var avant := elements[..|elements| - 1];
      assert forall i :: 0 <= i < |avant| ==> avant[i] == elements[i];
      EnCacheAutres(m, avant, cle, k);
    }
  }

  /** The last of the elements whose key is k, if any. */
  function Dernier<K(==), T>(elements: seq<T>, cle: T -> K, k: K): (r: Option<T>)
    ensures r.Some? ==> r.value in elements && cle(r.value) == k
    ensures r.None? <==> forall i :: 0 <= i < |elements| ==> cle(elements[i]) != k
  {
    if |elements| == 0 then None
    else if cle(elements[|elements| - 1]) == k then Some(elements[|elements| - 1])
    else
      var r := Dernier(elements[..|elements| - 1], cle, k);
      assert forall i :: 0 <= i < |elements| - 1 ==> elements[..|elements| - 1][i] == elements[i];
      r
  }

  /** Whatever the keys, what is stored under k is the last element with key k, or what k held before. */
  lemma {:induction false} EnCacheDernier<K, T>(m: map<K, T>, elements: seq<T>, cle: T -> K, k: K)
    ensures k in EnCache(m, elements, cle) <==> Dernier(elements, cle, k).Some? || k in m
    ensures k in EnCache(m, elements, cle) ==>
      EnCache(m, elements, cle)[k] == if Dernier(elements, cle, k).Some? then Dernier(elements, cle, k).value else m[k]
  {
    if |elements| > 0 {
      EnCacheDernier(m, elements[..|elements| - 1], cle, k);
    }
  }

  /** The TypeError of `results[0]!.count` when the query returns no row. */
  const LECTURE_COUNT: string := "Cannot read properties of undefined (reading 'count')"

  class DatabaseCacheBase<T, D> {
    const nomTable: string
    const colonnesClePrimaire: seq<string>
    const valeursComposantesParent: Option<seq<Valeur>>
    /** fromDatabase and getComposanteCache, supplied by each concrete cache. */
    const fromDatabase: D -> T
    const getComposanteCache: T -> Valeur
    /** The inherited CacheBase part. */
    const base: CacheBase<Valeur, T>

    constructor (nomTable: string, colonnesClePrimaire: seq<string>, valeursComposantesParent: Option<seq<Valeur>>,
                 fromDatabase: D -> T, getComposanteCache: T -> Valeur)
      ensures this.nomTable == nomTable && this.colonnesClePrimaire == colonnesClePrimaire
      ensures this.valeursComposantesParent == valeursComposantesParent
      ensures this.fromDatabase == fromDatabase && this.getComposanteCache == getComposanteCache
      ensures fresh(base) && base.cache == map[]
    {
      this.nomTable := nomTable;
      this.colonnesClePrimaire := colonnesClePrimaire;
      this.valeursComposantesParent := valeursComposantesParent;
      this.fromDatabase := fromDatabase;
      this.getComposanteCache := getComposanteCache;
      base := new CacheBase();
    }

    /**
     * getOrFetch: a cached element is returned with no query. On a miss the
     * query is sent with the key's values; reponse is its answer, the rows
     * or the rejection. A rejection is returned and nothing is cached; the
     * first row, converted, is cached under its own key and returned; with
     * no row nothing is cached.
     */
    method GetOrFetch(id: Valeur, reponse: Result<seq<D>>) returns (element: Result<Option<T>>, requete: Option<Requete>)
      modifies base
      ensures old(base.Get(id)).Some? ==> element == Ok(old(base.Get(id))) && requete.None? && base.cache == old(base.cache)
      ensures old(base.Get(id)).None? ==>
        requete == Some(Requete(RequeteSelection(nomTable, colonnesClePrimaire), ValeursCle(valeursComposantesParent, id)))
      ensures old(base.Get(id)).None? && reponse.Err? ==> element == Err(reponse.error) && base.cache == old(base.cache)
      ensures old(base.Get(id)).None? && reponse.Ok? && |reponse.value| > 0 ==>
        element == Ok(Some(fromDatabase(reponse.value[0]))) &&
        base.cache == old(base.cache)[getComposanteCache(fromDatabase(reponse.value[0])) := fromDatabase(reponse.value[0])]
      ensures old(base.Get(id)).None? && reponse.Ok? && |reponse.value| == 0 ==> element == Ok(None) && base.cache == old(base.cache)
    {
      var trouve := base.Get(id);
      requete := None;
      if trouve.Some? {
        return Ok(trouve), requete;
      }
      requete := Some(Requete(RequeteSelection(nomTable, colonnesClePrimaire), ValeursCle(valeursComposantesParent, id)));
      if reponse.Err? {
        return Err(reponse.error), requete;
      }
      var lignes := reponse.value;
      element := Ok(None);
      if |lignes| > 0 {
        var e := fromDatabase(lignes[0]);
        base.Set(getComposanteCache(e), e);
        element := Ok(Some(e));
      }
    }

    /**
     * getAll: the query filters on the parents' values when it can; reponse
     * is its answer. A rejection is returned and nothing is cached;
     * otherwise every returned row is converted, cached under its own key,
     * and returned in result order.
     */
    method GetAll(clause: Option<string>, reponse: Result<seq<D>>) returns (elements: Result<seq<T>>, requete: Requete)
      modifies base
      ensures requete == Requete(RequeteTout(nomTable, colonnesClePrimaire, valeursComposantesParent, clause),
        if valeursComposantesParent.Some? then valeursComposantesParent.value else [])
      ensures reponse.Err? ==> elements == Err(reponse.error) && base.cache == old(base.cache)
      ensures reponse.Ok? ==> (elements.Ok? && |elements.value| == |reponse.value| &&
        (forall i :: 0 <= i < |reponse.value| ==> elements.value[i] == fromDatabase(reponse.value[i])) &&
        base.cache == EnCache(old(base.cache), elements.value, getComposanteCache))
    {
      requete := Requete(RequeteTout(nomTable, colonnesClePrimaire, valeursComposantesParent, clause),
        if valeursComposantesParent.Some? then valeursComposantesParent.value else []);
      if reponse.Err? {
        return Err(reponse.error), requete;
      }
      var lignes := reponse.value;
      var liste := [];
      for i := 0 to |lignes|
        invariant |liste| == i && forall k :: 0 <= k < i ==> liste[k] == fromDatabase(lignes[k])
        invariant base.cache == EnCache(old(base.cache), liste, getComposanteCache)
      {
        var e := fromDatabase(lignes[i]);
        base.Set(getComposanteCache(e), e);
        liste := liste + [e];
        assert liste[..|liste| - 1] == liste[..i];
      }
      elements := Ok(liste);
    }

    /**
     * insert: the statement is executed with the values in column order, and
     * the element is cached only once the execution has succeeded; echec is
     * the execution's failure, if it fails.
     */
    method Insert(donnees: seq<(string, Valeur)>, element: T, echec: Option<Thrown>) returns (requete: Requete, r: Result<()>)
      modifies base
      ensures requete == Requete(RequeteInsertion(nomTable, donnees), Valeurs(donnees))
      ensures echec.Some? ==> r == Err(echec.value) && base.cache == old(base.cache)
      ensures echec.None? ==> r == Ok(()) && base.cache == old(base.cache)[getComposanteCache(element) := element]
    {
      requete := Requete(RequeteInsertion(nomTable, donnees), Valeurs(donnees));
      if echec.Some? {
        return requete, Err(echec.value);
      }
      base.Set(getComposanteCache(element), element);
      r := Ok(());
    }

    /**
     * delete, corrected: the statement is executed once, then the element
     * is removed from the inherited cache.
     */
    method Delete(id: Valeur, echec: Option<Thrown>) returns (requete: Requete, r: Result<()>)
      modifies base
      ensures requete == Requete(RequeteSuppression(nomTable, colonnesClePrimaire), ValeursCle(valeursComposantesParent, id))
      ensures echec.Some? ==> r == Err(echec.value) && base.cache == old(base.cache)
      ensures echec.None? ==> r == Ok(()) && base.cache == old(base.cache) - {id}
      ensures echec.None? ==> base.Get(id).None?
    {
      requete := Requete(RequeteSuppression(nomTable, colonnesClePrimaire), ValeursCle(valeursComposantesParent, id));
      if echec.Some? {
        return requete, Err(echec.value);
      }
      base.Delete(id);
      r := Ok(());
    }

    /**
     * delete as written: it never touches the inherited cache, so whatever
     * the outcome, get still finds what was cached under id. requetes are the
     * statements sent before the call returns.
     */
    method DeleteTelleQuEcrite(id: Valeur, echec: Option<Thrown>) returns (requetes: seq<Requete>, r: Result<()>)
      ensures (requetes, r) == SuppressionTelleQuEcrite(nomTable, colonnesClePrimaire, valeursComposantesParent, id, echec)
      ensures base.Get(id) == old(base.Get(id))
    {
      var requete := Requete(RequeteSuppression(nomTable, colonnesClePrimaire), ValeursCle(valeursComposantesParent, id));
      requetes := [requete];
      if echec.Some? {
        return requetes, Err(echec.value);
      }
      // `this.delete(id)`, not awaited: the nested call runs up to its own
      // await, which sends the same statement, and the outer call resolves.
      requetes := [requete, requete];
      r := Ok(());
    }

    /**
     * count: reponse is the COUNT query's answer. A rejection is returned;
     * otherwise the count column of the first row, and with no row reading
     * it throws a TypeError.
     */
    method Count(reponse: Result<seq<nat>>) returns (requete: string, r: Result<nat>)
      ensures requete == RequeteComptage(nomTable)
      ensures reponse.Err? ==> r == Err(reponse.error)
      ensures reponse.Ok? ==> (r.Ok? <==> |reponse.value| > 0)
      ensures reponse.Ok? && |reponse.value| > 0 ==> r.value == reponse.value[0]
      ensures reponse.Ok? && |reponse.value| == 0 ==> r == Err(StdError(LECTURE_COUNT))
    {
      requete := RequeteComptage(nomTable);
      if reponse.Err? {
        return requete, Err(reponse.error);
      }
      r := if |reponse.value| == 0 then Err(StdError(LECTURE_COUNT)) else Ok(reponse.value[0]);
    }
  }

  /** The DELETE of the element with key id. */
  function RequeteDelete(nomTable: string, colonnes: seq<string>, parents: Option<seq<Valeur>>, id: Valeur): Requete
  {
    Requete(RequeteSuppression(nomTable, colonnes), ValeursCle(parents, id))
  }

  /**
   * delete as written, up to its return: its DELETE is executed (echec is
   * its failure, if any); on success it ends with `this.delete(id)`, which
   * calls itself instead of the inherited delete and is not awaited: the
   * nested call sends the same DELETE and the outer call resolves, leaving
   * the element cached. The result: the statements sent before the call
   * returns, and its outcome.
   */
  function SuppressionTelleQuEcrite(nomTable: string, colonnes: seq<string>, parents: Option<seq<Valeur>>, id: Valeur,
                                    echec: Option<Thrown>): (r: (seq<Requete>, Result<()>))
    ensures r.1.Ok? <==> echec.None?
    ensures echec.Some? ==> r.1 == Err(echec.value)
    ensures |r.0| == (if echec.Some? then 1 else 2)
    ensures forall i :: 0 <= i < |r.0| ==> r.0[i] == RequeteDelete(nomTable, colonnes, parents, id)
  {
    var d := RequeteDelete(nomTable, colonnes, parents, id);
    if echec.Some? then ([d], Err(echec.value)) else ([d, d], Ok(()))
  }

  /**
   * The detached chain the as-written delete leaves running: each DELETE
   * that succeeds makes the nested call call itself again, which sends the
   * same statement d once more; the first failure rejects a promise nobody
   * awaits. reponses are the outcomes of the chain's statements in order;
   * the result is the further statements sent and the unhandled rejection,
   * if any.
   */
  function ChaineDetachee(d: Requete, reponses: seq<Option<Thrown>>): (seq<Requete>, Option<Thrown>)
  {
    if |reponses| == 0 then ([], None)
    else match reponses[0]
      case Some(e) => ([], Some(e))
      case None =>
        var suite := ChaineDetachee(d, reponses[1..]);
        ([d] + suite.0, suite.1)
  }

  /**
   * The detached chain never stops on its own: it sends the same DELETE
   * again after every success and ends only at the first failure, whose
   * rejection is left unhandled; while every DELETE succeeds it keeps
   * going, one statement per success.
   */
  lemma {:induction false} SuppressionSansFin(d: Requete, reponses: seq<Option<Thrown>>)
    ensures var r := ChaineDetachee(d, reponses);
      |r.0| <= |reponses| &&
      (forall i :: 0 <= i < |r.0| ==> r.0[i] == d && reponses[i].None?) &&
      (r.1.Some? ==> |r.0| < |reponses| && reponses[|r.0|] == r.1) &&
      (r.1.None? <==> forall i :: 0 <= i < |reponses| ==> reponses[i].None?) &&
      (r.1.None? ==> |r.0| == |reponses|)
  {
    if |reponses| > 0 && reponses[0].None? {
      SuppressionSansFin(d, reponses[1..]);
      var suite := ChaineDetachee(d, reponses[1..]);
      var r := ChaineDetachee(d, reponses);
      assert r.0 == [d] + suite.0;
      forall i | 0 <= i < |r.0|
        ensures r.0[i] == d && reponses[i].None?
      {
        if i > 0 {
          assert r.0[i] == suite.0[i - 1];
          assert reponses[i] == reponses[1..][i - 1];
        }
      }
      if r.1.None? {
        forall i | 0 <= i < |reponses|
          ensures reponses[i].None?
        {
          if i > 0 {
            assert reponses[i] == reponses[1..][i - 1];
          }
        }
      }
      if forall i :: 0 <= i < |reponses| ==> reponses[i].None? {
        assert forall i :: 0 <= i < |reponses| - 1 ==> reponses[1..][i] == reponses[i + 1];
      }
    }
  }
}
