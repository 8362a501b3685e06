// src/routes/useFile.ts: the upload middleware. busboy parses the
// multipart request and raises events; the handlers collect the form
// fields, the bytes of each file and an error message, and the close
// event decides between a 400 answer and passing the files on. The
// parsing itself (when busboy raises which event, and its limits of one
// file and 100 MiB) is outside the model: each event is a method call.
module UseFile {
  import opened Wrappers

  /** The limits handed to busboy. */
  const LIMITE_FICHIERS: nat := 1
  const LIMITE_TAILLE: nat := 100 * 1024 * 1024

  const TROP_VOLUMINEUX: string := "Fichier trop volumineux."
  const ERREUR_INCONNUE: string := "Erreur inconnue"

  /** A field entry of `fields`: one string, or the array of every value received. */
  datatype Valeur = Simple(valeur: string) | Plusieurs(valeurs: seq<string>)

  /** The values an entry lists. */
  function Valeurs(v: Valeur): seq<string>
  {
    match v
    case Simple(s) => [s]
    case Plusieurs(vs) => vs
  }

  /**
   * The entry after one more value. An absent entry and an entry holding
   * "" are both falsy: the value is then stored alone. An array grows by
   * the value; a single non-empty string becomes [it, value].
   */
  function Fusion(existant: Option<Valeur>, value: string): Valeur
  {
    if existant.None? || existant.value == Simple("") then Simple(value)
    else match existant.value
      case Plusieurs(vs) => Plusieurs(vs + [value])
      case Simple(s) => Plusieurs([s, value])
  }

  /** The entry of a field name after its values arrived in this order (none: no entry). */
  function Recevoir(valeurs: seq<string>): Option<Valeur>
  {
    if |valeurs| == 0 then None else Some(Fusion(Recevoir(valeurs[..|valeurs| - 1]), valeurs[|valeurs| - 1]))
  }

  /**
   * When the first value is not empty, the entry lists every value in the
   * order received: a plain string for one value, an array from the
   * second on.
   */
  lemma {:induction false} RecevoirDansOrdre(valeurs: seq<string>)
    requires |valeurs| > 0 && valeurs[0] != ""
    ensures Recevoir(valeurs) == Some(if |valeurs| == 1 then Simple(valeurs[0]) else Plusieurs(valeurs))
  {
    var n := |valeurs|;
    if n > 1 {
      var debut := valeurs[..n - 1];
      assert debut[0] == valeurs[0];
      RecevoirDansOrdre(debut);
      if n == 2 {
        assert valeurs == [valeurs[0], valeurs[1]];
      } else {
        assert debut + [valeurs[n - 1]] == valeurs;
      }
    }
  }

  /** Values that are all "" leave no entry or an entry holding "". */
  lemma {:induction false} RecevoirVides(valeurs: seq<string>)
    requires forall i :: 0 <= i < |valeurs| ==> valeurs[i] == ""
    ensures Recevoir(valeurs) == None || Recevoir(valeurs) == Some(Simple(""))
  {
    if |valeurs| > 0 {
      RecevoirVides(valeurs[..|valeurs| - 1]);
    }
  }

  /**
   * Leading empty values are forgotten: after j values "" the entry is
   * what the remaining values alone would give, so an empty first value
   * is replaced by the next one rather than joined to it.
   */
  lemma {:induction false} RecevoirVidesOublies(valeurs: seq<string>, j: nat)
    requires j < |valeurs| && forall i :: 0 <= i < j ==> valeurs[i] == ""
    ensures Recevoir(valeurs) == Recevoir(valeurs[j..])
  {
    var n := |valeurs|;
    if n == j + 1 {
      RecevoirVides(valeurs[..j]);
      assert valeurs[j..][..0] == [];
    } else {
      var debut := valeurs[..n - 1];
      RecevoirVidesOublies(debut, j);
      assert debut[j..] == valeurs[j..][..n - 1 - j];
    }
  }

  /** What busboy tells about a file: its name, transfer encoding and MIME type. */
  datatype InfoFichier = InfoFichier(filename: string, encoding: string, mimeType: string)

  /** Fichier: a received file and its bytes. */
  datatype Fichier = Fichier(fieldname: string, originalname: string, encoding: string, mimetype: string,
                             size: nat, buffer: seq<bv8>)

  /** Buffer.concat: the chunks end to end, in arrival order. */
  function Concat(chunks: seq<seq<bv8>>): seq<bv8>
  {
    if |chunks| == 0 then [] else Concat(chunks[..|chunks| - 1]) + chunks[|chunks| - 1]
  }

  /** The total length of the chunks. */
  function Somme(chunks: seq<seq<bv8>>): nat
  {
    if |chunks| == 0 then 0 else Somme(chunks[..|chunks| - 1]) + |chunks[|chunks| - 1]|
  }

  /** The recorded size is the sum of the chunks' lengths. */
  lemma {:induction false} ConcatLongueur(chunks: seq<seq<bv8>>)
    ensures |Concat(chunks)| == Somme(chunks)
  {
    if |chunks| > 0 {
      ConcatLongueur(chunks[..|chunks| - 1]);
    }
  }

  /** The bytes of the first k chunks open the buffer. */
  lemma {:induction false} ConcatPrefixe(chunks: seq<seq<bv8>>, k: nat)
    requires k <= |chunks|
    ensures |Concat(chunks[..k])| <= |Concat(chunks)| && Concat(chunks)[..|Concat(chunks[..k])|] == Concat(chunks[..k])
  {
    if k < |chunks| {
      var debut := chunks[..|chunks| - 1];
      assert debut[..k] == chunks[..k];
      ConcatPrefixe(debut, k);
    } else {
      assert chunks[..k] == chunks;
    }
  }

  /** Chunk i lies in the buffer right after the first i chunks, unchanged. */
  lemma ConcatPlacement(chunks: seq<seq<bv8>>, i: nat)
    requires i < |chunks|
    ensures var a := Somme(chunks[..i]);
      a + |chunks[i]| <= |Concat(chunks)| && Concat(chunks)[a..a + |chunks[i]|] == chunks[i]
  {
    ConcatPrefixe(chunks, i + 1);
    var avant := chunks[..i + 1];
    assert avant[..i] == chunks[..i];
    ConcatLongueur(chunks[..i]);
    assert Concat(avant) == Concat(chunks[..i]) + chunks[i];
  }

  /** An error raised by busboy: an Error object, a thrown string, or anything else. */
  datatype ErreurRecue = ObjetErreur(message: string) | Chaine(texte: string) | Autre

  /** The message kept for an error. */
  function MessageErreur(e: ErreurRecue): string
  {
    match e
    case ObjetErreur(m) => m
    case Chaine(t) => t
    case Autre => ERREUR_INCONNUE
  }

  /** The error's own text when it has one, "Erreur inconnue" otherwise; so the message is empty only when the error's own text is. */
  lemma MessageErreurSource(e: ErreurRecue)
    ensures e.ObjetErreur? ==> MessageErreur(e) == e.message
    ensures e.Chaine? ==> MessageErreur(e) == e.texte
    ensures MessageErreur(e) == "" <==> (e.ObjetErreur? && e.message == "") || (e.Chaine? && e.texte == "")
  {
  }

  /** The outcome of the close event. */
  datatype Issue = Refus(status: nat, message: string) | Suite(fichiers: seq<Fichier>)

  /** `if (errorMessage)`: a recorded, non-empty message refuses with 400; otherwise the files go on with next(). */
  function Decision(erreur: Option<string>, fichiers: seq<Fichier>): Issue
  {
    if erreur.Some? && erreur.value != "" then Refus(400, erreur.value) else Suite(fichiers)
  }

  /**
   * The request is refused exactly when a non-empty message was recorded,
   * with that message; a file over the limit is always refused; a
   * passed-on request carries every recorded file.
   */
  lemma DecisionCorrecte(erreur: Option<string>, fichiers: seq<Fichier>)
    ensures Decision(erreur, fichiers).Refus? <==> erreur.Some? && erreur.value != ""
    ensures Decision(erreur, fichiers).Refus? ==> Decision(erreur, fichiers) == Refus(400, erreur.value)
    ensures Decision(erreur, fichiers).Suite? ==> Decision(erreur, fichiers).fichiers == fichiers
    ensures Decision(Some(TROP_VOLUMINEUX), fichiers) == Refus(400, TROP_VOLUMINEUX)
    ensures Decision(Some(MessageErreur(Autre)), fichiers).Refus?
  {
  }

  /** The state one request's handlers share: `fields`, `fichiers` and `errorMessage`. */
  class Reception {
    var champs: map<string, Valeur>
    var fichiers: seq<Fichier>
    var erreur: Option<string>

    constructor()
      ensures champs == map[] && fichiers == [] && erreur == None
    {
      champs := map[];
      fichiers := [];
      erreur := None;
    }

    /** The "field" event: merge the value into the entry of its name. */
    method Champ(name: string, value: string)
      modifies this
      ensures champs == old(champs)[name := Fusion(if name in old(champs) then Some(old(champs)[name]) else None, value)]
      ensures fichiers == old(fichiers) && erreur == old(erreur)
    {
      var existant := if name in champs then Some(champs[name]) else None;
      if existant.None? || existant.value == Simple("") {
        champs := champs[name := Simple(value)];
      } else if existant.value.Plusieurs? {
        champs := champs[name := Plusieurs(existant.value.valeurs + [value])];
      } else {
        champs := champs[name := Plusieurs([existant.value.valeur, value])];
      }
    }

    /** The "file" event: a stream for this file, with no chunk yet. */
    method OuvrirFichier(fieldname: string, info: InfoFichier) returns (flux: FluxFichier)
      ensures fresh(flux) && flux.reception == this && flux.fieldname == fieldname && flux.info == info
      ensures flux.chunks == []
    {
      flux := new FluxFichier(this, fieldname, info);
    }

    /** The "error" event: keep the error's message. */
    method Erreur(e: ErreurRecue)
      modifies this
      ensures erreur == Some(MessageErreur(e))
      ensures champs == old(champs) && fichiers == old(fichiers)
    {
      match e
      case ObjetErreur(m) => erreur := Some(m);
      case Chaine(t) => erreur := Some(t);
      case Autre => erreur := Some(ERREUR_INCONNUE);
    }

    /** The "close" event: answer 400 with the message, or pass the files on; nothing changes. */
    method Fermeture() returns (issue: Issue)
      ensures issue == Decision(erreur, fichiers)
    {
      if erreur.Some? && erreur.value != "" {
        issue := Refus(400, erreur.value);
        return;
      }
      issue := Suite(fichiers);
    }
  }

  /** One file's stream: its chunks so far, and the reception its "limit" and "end" events report to. */
  class FluxFichier {
    const reception: Reception
    const fieldname: string
    const info: InfoFichier
    var chunks: seq<seq<bv8>>

    constructor(reception: Reception, fieldname: string, info: InfoFichier)
      ensures this.reception == reception && this.fieldname == fieldname && this.info == info && chunks == []
    {
      this.reception := reception;
      this.fieldname := fieldname;
      this.info := info;
      chunks := [];
    }

    /** The "data" event: keep the chunk. */
    method Donnees(data: seq<bv8>)
      modifies this
      ensures chunks == old(chunks) + [data]
    {
      chunks := chunks + [data];
    }

    /** The "limit" event: the file is too large; the rest of the stream is drained. */
    method Limite()
      modifies reception
      ensures reception.erreur == Some(TROP_VOLUMINEUX)
      ensures reception.champs == old(reception.champs) && reception.fichiers == old(reception.fichiers)
    {
      reception.erreur := Some(TROP_VOLUMINEUX);
    }

    /** The "end" event: record the file with its chunks concatenated and their total length. */
    method Fin()
      modifies reception
      ensures reception.fichiers == old(reception.fichiers) +
        [Fichier(fieldname, info.filename, info.encoding, info.mimeType, Somme(chunks), Concat(chunks))]
      ensures reception.champs == old(reception.champs) && reception.erreur == old(reception.erreur)
    {
      var buffer := Concat(chunks);
      ConcatLongueur(chunks);
      reception.fichiers := reception.fichiers +
        [Fichier(fieldname, info.filename, info.encoding, info.mimeType, |buffer|, buffer)];
    }
  }
}
