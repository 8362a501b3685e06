// src/core/services/lectures/LectureDocument.ts: one reading of a whole
// document. Ids come from a counter shared by every instance (the static
// `nextId`), modelled as an object passed to the constructor.
module Lecture {
  import opened Wrappers

  /** DebugInfo: the pages to debug (0-based, both ends included) and whether to test the pipelines. */
  datatype DebugInfo = DebugInfo(intervallePages: (int, int), testerPipelines: bool)

  /** The static counter `LectureDocument.nextId`, with the ids it has handed out. */
  class CompteurLectures {
    var nextId: nat
    ghost var attribues: set<nat>

    /** Every id handed out is below the next one, and ids start at 1. */
    ghost predicate Valide()
      reads this
    {
      nextId >= 1 && forall id :: id in attribues ==> 1 <= id < nextId
    }

    /** `private static nextId = 1`. */
    constructor()
      ensures Valide() && nextId == 1 && attribues == {}
    {
      nextId := 1;
      attribues := {};
    }
  }

  /** LectureDocument. */
  class LectureDocument {
    const idLecture: nat
    var nomDocument: string
    var nbPages: int
    var nbPagesLues: int
    var debug: Option<DebugInfo>

    /**
     * Takes the counter's value as its id and advances the counter by one,
     * so the id differs from every id handed out before; nothing read yet;
     * the name, page count and debug settings (none by default) as given.
     */
    constructor(compteur: CompteurLectures, nomDocument: string, nbPages: int, debug: Option<DebugInfo> := None)
      requires compteur.Valide()
      modifies compteur
      ensures idLecture == old(compteur.nextId) && compteur.nextId == old(compteur.nextId) + 1
      ensures idLecture !in old(compteur.attribues) && compteur.attribues == old(compteur.attribues) + {idLecture}
      ensures compteur.Valide()
      ensures this.nomDocument == nomDocument && this.nbPages == nbPages && nbPagesLues == 0 && this.debug == debug
    {
      idLecture := compteur.nextId;
      this.nomDocument := nomDocument;
      this.nbPages := nbPages;
      nbPagesLues := 0;
      this.debug := debug;
      new;
      compteur.nextId := compteur.nextId + 1;
      compteur.attribues := compteur.attribues + {idLecture};
    }
  }
}
