// src/cache/salles/SalleCache.ts: the cache of rooms (table `salle`, key
// `id_salle`), with a second index from a room's number to the room, kept by
// the overridden set, delete and clear.
module SalleCache {
  import opened Wrappers
  import opened Erreurs
  import opened CacheBase
  import opened DatabaseCacheBase

  /** A row of the `salle` table. */
  datatype SalleData = SalleData(id_salle: int, numero_salle: string, type_salle: string)

  /** A room, as built from its row. */
  datatype Salle = Salle(idSalle: int, numeroSalle: string, typeSalle: string)

  /** fromDatabase: the row's fields, renamed. */
  function VersSalle(data: SalleData): (s: Salle)
    ensures s.idSalle == data.id_salle && s.numeroSalle == data.numero_salle && s.typeSalle == data.type_salle
  {
    Salle(data.id_salle, data.numero_salle, data.type_salle)
  }

  /** getComposanteCache: the room's id. */
  function Cle(s: Salle): Valeur
  {
    Nombre(s.idSalle)
  }

  function Nom(s: Salle): string
  {
    s.numeroSalle
  }

  class SalleCache {
    /** The inherited DatabaseCacheBase part, with its own CacheBase map. */
    const db: DatabaseCacheBase<Salle, SalleData>
    var cacheNom: map<string, Salle>

    constructor ()
      ensures fresh(db) && fresh(db.base) && db.base.cache == map[] && cacheNom == map[]
      ensures db.nomTable == "salle" && db.colonnesClePrimaire == ["id_salle"] && db.valeursComposantesParent.None?
      ensures db.fromDatabase == VersSalle && db.getComposanteCache == Cle
    {
      db := new DatabaseCacheBase("salle", ["id_salle"], None, VersSalle, Cle);
      cacheNom := map[];
    }

    /** set: the room is stored under its id and under its number; an old number of that id stays indexed. */
    method Set(id: int, value: Salle)
      modifies this, db.base
      ensures db.base.cache == old(db.base.cache)[Nombre(id) := value]
      ensures cacheNom == old(cacheNom)[value.numeroSalle := value]
    {
      db.base.Set(Nombre(id), value);
      cacheNom := cacheNom[value.numeroSalle := value];
    }

    /**
     * delete: the number entry of the room cached under id is removed first,
     * then the base delete runs (its corrected definition).
     */
    method Delete(id: int, echec: Option<Thrown>) returns (requete: Requete, r: Result<()>)
      modifies this, db.base
      ensures Nombre(id) in old(db.base.cache) ==> cacheNom == old(cacheNom) - {old(db.base.cache)[Nombre(id)].numeroSalle}
      ensures Nombre(id) !in old(db.base.cache) ==> cacheNom == old(cacheNom)
      ensures requete == Requete(RequeteSuppression(db.nomTable, db.colonnesClePrimaire), ValeursCle(db.valeursComposantesParent, Nombre(id)))
      ensures echec.Some? ==> r == Err(echec.value) && db.base.cache == old(db.base.cache)
      ensures echec.None? ==> r == Ok(()) && db.base.cache == old(db.base.cache) - {Nombre(id)}
    {
      var salle := db.base.Get(Nombre(id));
      if salle.Some? {
        cacheNom := cacheNom - {salle.value.numeroSalle};
      }
      requete, r := db.Delete(Nombre(id), echec);
    }

    /** clear: both maps are emptied. */
    method Clear()
      modifies this, db.base
      ensures db.base.cache == map[] && cacheNom == map[]
    {
      db.base.Clear();
      cacheNom := map[];
    }

    /**
     * getAll through the overridden set: a rejected query is returned and
     * nothing is stored; otherwise every returned room is stored under its
     * key and under its number, in result order.
     */
    method GetAll(clause: Option<string>, reponse: Result<seq<SalleData>>) returns (elements: Result<seq<Salle>>, requete: Requete)
      modifies this, db.base
      ensures requete == Requete(RequeteTout(db.nomTable, db.colonnesClePrimaire, db.valeursComposantesParent, clause),
        if db.valeursComposantesParent.Some? then db.valeursComposantesParent.value else [])
      ensures reponse.Err? ==> elements == Err(reponse.error) && db.base.cache == old(db.base.cache) && cacheNom == old(cacheNom)
      ensures reponse.Ok? ==> (elements.Ok? && |elements.value| == |reponse.value| &&
        (forall i :: 0 <= i < |reponse.value| ==> elements.value[i] == db.fromDatabase(reponse.value[i])) &&
        db.base.cache == EnCache(old(db.base.cache), elements.value, db.getComposanteCache) &&
        cacheNom == EnCache(old(cacheNom), elements.value, Nom))
    {
      elements, requete := db.GetAll(clause, reponse);
      if elements.Err? {
        return;
      }
      var liste := elements.value;
      ghost var avant := cacheNom;
      for i := 0 to |liste|
        modifies this
        invariant cacheNom == EnCache(avant, liste[..i], Nom)
      {
        assert liste[..i + 1][..i] == liste[..i];
        cacheNom := cacheNom[liste[i].numeroSalle := liste[i]];
      }
      assert liste[..|liste|] == liste;
    }

    /**
     * getParNom: all rooms are loaded, then the number index is read. A
     * rejected load is returned with nothing stored. Otherwise the room
     * found is the last loaded room with that number, or the one indexed
     * before when no loaded room has it.
     */
    method GetParNom(nom: string, reponse: Result<seq<SalleData>>) returns (r: Result<Option<Salle>>)
      modifies this, db.base
      ensures reponse.Err? ==> r == Err(reponse.error) && db.base.cache == old(db.base.cache) && cacheNom == old(cacheNom)
      ensures reponse.Ok? ==> var lignes := reponse.value;
        var elements := seq(|lignes|, i requires 0 <= i < |lignes| => db.fromDatabase(lignes[i]));
        r == Ok(if Dernier(elements, Nom, nom).Some? then Dernier(elements, Nom, nom)
                else if nom in old(cacheNom) then Some(old(cacheNom)[nom]) else None)
    {
      var elements, _ := GetAll(None, reponse);
      if elements.Err? {
        return Err(elements.error);
      }
      var lignes := reponse.value;
      EnCacheDernier(old(cacheNom), elements.value, Nom, nom);
      assert elements.value == seq(|lignes|, i requires 0 <= i < |lignes| => db.fromDatabase(lignes[i]));
      r := Ok(if nom in cacheNom then Some(cacheNom[nom]) else None);
    }
  }

  /** Overwriting an id with a room of another number leaves the old number indexed to the old room. */
  method EntreePerimee(c: SalleCache, id: int, s1: Salle, s2: Salle)
    requires s1.numeroSalle != s2.numeroSalle
    modifies c, c.db.base
    ensures s1.numeroSalle in c.cacheNom && c.cacheNom[s1.numeroSalle] == s1
    ensures s2.numeroSalle in c.cacheNom && c.cacheNom[s2.numeroSalle] == s2
    ensures Nombre(id) in c.db.base.cache && c.db.base.cache[Nombre(id)] == s2
  {
    c.Set(id, s1);
    c.Set(id, s2);
  }
}
