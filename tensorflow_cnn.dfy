// src/core/lecture/CNN/TensorFlowCNN.ts: letter recognition with an EMNIST
// model. The network itself is foreign; what is modelled is the choice of
// the predicted class, its letter, the lazy loading of the model and the
// fixed preprocessing around the native image operations.
module TensorFlowCNN {
  import opened Wrappers
  import opened Erreurs

  const EMNIST_INPUT_SIZE: nat := 28
  const EMNIST_NUM_CLASSES: int := 26

  /** A number that may be `Number.NEGATIVE_INFINITY`. */
  datatype Etendu = MoinsInfini | Reel(r: real)

  /** `x > v` when x is a finite number. */
  predicate Depasse(x: real, v: Etendu)
  {
    v.MoinsInfini? || x > v.r
  }

  /**
   * getTopProbability: the running best starts at index 0 and minus
   * infinity and moves only on a strictly larger value, so the result is the
   * first index of the maximum; nothing is found in an empty input.
   */
  method GetTopProbability(probabilities: seq<real>) returns (index: nat, value: Etendu)
    ensures |probabilities| == 0 ==> index == 0 && value == MoinsInfini
    ensures |probabilities| > 0 ==>
      index < |probabilities| && value == Reel(probabilities[index]) &&
      (forall j :: 0 <= j < |probabilities| ==> probabilities[j] <= probabilities[index]) &&
      (forall j :: 0 <= j < index ==> probabilities[j] < probabilities[index])
  {
    var bestIndex := 0;
    var bestValue := MoinsInfini;
    for i := 0 to |probabilities|
      invariant i == 0 ==> bestIndex == 0 && bestValue == MoinsInfini
      invariant i > 0 ==>
        bestIndex < i && bestValue == Reel(probabilities[bestIndex]) &&
        (forall j :: 0 <= j < i ==> probabilities[j] <= probabilities[bestIndex]) &&
        (forall j :: 0 <= j < bestIndex ==> probabilities[j] < probabilities[bestIndex])
    {
      if Depasse(probabilities[i], bestValue) {
        bestValue := Reel(probabilities[i]);
        bestIndex := i;
      }
    }
    return bestIndex, bestValue;
  }

  /** indexToChar: 0 .. 25 name the letters A .. Z, anything else is '?'. */
  function IndexToChar(index: int): (c: char)
    ensures 0 <= index < EMNIST_NUM_CLASSES ==> 'A' <= c <= 'Z' && c as int - 'A' as int == index
    ensures !(0 <= index < EMNIST_NUM_CLASSES) ==> c == '?'
  {
    if index < 0 || index >= EMNIST_NUM_CLASSES then '?' else ('A' as int + index) as char
  }

  /** The letter of a class is the class back: no two classes share a letter. */
  lemma IndexToCharInjective(i: int, k: int)
    requires 0 <= i < EMNIST_NUM_CLASSES && 0 <= k < EMNIST_NUM_CLASSES
    requires IndexToChar(i) == IndexToChar(k)
    ensures i == k
  {
  }

  /** No class is read as '?'. */
  lemma ClasseJamaisInconnue(i: int)
    requires 0 <= i < EMNIST_NUM_CLASSES
    ensures IndexToChar(i) != '?'
  {
  }

  /** ResultatPrediction. */
  datatype ResultatPrediction = ResultatPrediction(probas: seq<real>, indiceClasse: nat, confiance: Etendu, caractere: char)

  /**
   * The end of predire, from the softmax output: the most probable class,
   * its probability as the confidence and its letter.
   */
  method Resultat(probabilities: seq<real>) returns (r: ResultatPrediction)
    ensures r.probas == probabilities && r.caractere == IndexToChar(r.indiceClasse)
    ensures |probabilities| > 0 ==>
      r.indiceClasse < |probabilities| && r.confiance == Reel(probabilities[r.indiceClasse]) &&
      forall j :: 0 <= j < |probabilities| ==> probabilities[j] <= probabilities[r.indiceClasse]
    ensures |probabilities| == 0 ==> r.indiceClasse == 0 && r.confiance == MoinsInfini && r.caractere == 'A'
  {
    var index, value := GetTopProbability(probabilities);
    return ResultatPrediction(probabilities, index, value, IndexToChar(index));
  }

  /** A tensor: its shape (its rank is the shape's length) and its values. */
  datatype Tenseur = Tenseur(shape: seq<nat>, valeurs: seq<real>)

  /** What predire may be given: a tensor, an encoded image, or something else. */
  datatype Source = SourceTenseur(t: Tenseur) | SourceOctets(bytes: seq<bv8>) | AutreSource

  const MESSAGE_LOT: string := "Expected a batch of size 1 when providing a rank-4 tensor to TensorFlowCNN."
  const MESSAGE_RANG: string := "Unsupported tensor rank for EMNIST preprocessing."
  const MESSAGE_SOURCE: string := "Unsupported image source type for EMNIST inference."

  /**
   * toTensor3D: a rank-3 tensor is copied, a rank-4 tensor is squeezed when
   * its batch is 1, and bytes are decoded to one channel (`decode` is the
   * native decoder's result). Any other rank, a larger batch or any other
   * source is an Error.
   */
  function ToTensor3D(source: Source, decode: Tenseur): (r: Result<Tenseur>)
    ensures r.Ok? && source.SourceTenseur? ==> |r.value.shape| == 3 && r.value.valeurs == source.t.valeurs
    ensures r.Ok? && source.SourceTenseur? && |source.t.shape| == 4 ==> r.value.shape == source.t.shape[1..]
    ensures r.Ok? && source.SourceOctets? ==> r.value == decode
    ensures r.Err? <==>
      source.AutreSource? ||
      (source.SourceTenseur? && |source.t.shape| != 3 && (|source.t.shape| != 4 || source.t.shape[0] != 1))
    ensures source.SourceTenseur? && |source.t.shape| == 4 && source.t.shape[0] != 1 ==> r == FailStd(MESSAGE_LOT)
    ensures source.AutreSource? ==> r == FailStd(MESSAGE_SOURCE)
  {
    match source
    case SourceTenseur(t) =>
      if |t.shape| == 3 then Ok(Tenseur(t.shape, t.valeurs))
      else if |t.shape| == 4 then
        if t.shape[0] != 1 then FailStd(MESSAGE_LOT) else Ok(Tenseur(t.shape[1..], t.valeurs))
      else FailStd(MESSAGE_RANG)
    case SourceOctets(_) => Ok(decode)
    case AutreSource => FailStd(MESSAGE_SOURCE)
  }

  /** An image as rows of pixels, each pixel its channel values. */
  type Image = seq<seq<seq<real>>>

  /** The mean of a pixel's channels; a one-channel pixel is its own value. */
  function Moyenne(pixel: seq<real>): (m: real)
    requires |pixel| > 0
    ensures |pixel| == 1 ==> m == pixel[0]
  {
    assert |pixel| == 1 ==> Somme(pixel) == Somme(pixel[..0]) + pixel[0] && pixel[..0] == [];
    Somme(pixel) / (|pixel| as real)
  }

  function Somme(s: seq<real>): real
  {
    if |s| == 0 then 0.0 else Somme(s[..|s| - 1]) + s[|s| - 1]
  }

  /** The mean of equal channels is their common value: a grey pixel stays as it is. */
  lemma {:induction false} MoyenneConstante(pixel: seq<real>, v: real)
    requires |pixel| > 0 && forall c :: 0 <= c < |pixel| ==> pixel[c] == v
    ensures Moyenne(pixel) == v
  {
    SommeConstante(pixel, v);
    assert Somme(pixel) == (|pixel| as real) * v;
  }

  lemma {:induction false} SommeConstante(s: seq<real>, v: real)
    requires forall c :: 0 <= c < |s| ==> s[c] == v
    ensures Somme(s) == (|s| as real) * v
  {
    if |s| > 0 {
      SommeConstante(s[..|s| - 1], v);
    }
  }

  /**
   * The grey step: an image with one channel is kept, any other is averaged
   * over its channels. `channels` is the third dimension of the shape.
   */
  function NiveauxDeGris(img: Image, channels: nat): (g: seq<seq<real>>)
    requires channels > 0
    requires forall y, x :: 0 <= y < |img| && 0 <= x < |img[y]| ==> |img[y][x]| == channels
    ensures |g| == |img| && forall y :: 0 <= y < |img| ==> |g[y]| == |img[y]|
    ensures channels == 1 ==> forall y, x :: 0 <= y < |img| && 0 <= x < |img[y]| ==> g[y][x] == img[y][x][0]
  {
    seq(|img|, y requires 0 <= y < |img| =>
      seq(|img[y]|, x requires 0 <= x < |img[y]| =>
        if channels == 1 then img[y][x][0] else Moyenne(img[y][x])))
  }

  /** A square grey image of side n, as the resize produces it. */
  predicate Carre(g: seq<seq<real>>, n: nat)
  {
    |g| == n && forall y :: 0 <= y < n ==> |g[y]| == n
  }

  /** Division by 255. */
  function Normaliser(g: seq<seq<real>>): (r: seq<seq<real>>)
    requires Carre(g, EMNIST_INPUT_SIZE)
    ensures Carre(r, EMNIST_INPUT_SIZE)
  {
    seq(28, y requires 0 <= y < 28 => seq(28, x requires 0 <= x < 28 => g[y][x] / 255.0))
  }

  /** `transpose([1, 0, 2])`: row y of the result is column y of the input. */
  function Transposer(g: seq<seq<real>>): (r: seq<seq<real>>)
    requires Carre(g, EMNIST_INPUT_SIZE)
    ensures Carre(r, EMNIST_INPUT_SIZE)
  {
    seq(28, y requires 0 <= y < 28 => seq(28, x requires 0 <= x < 28 => g[x][y]))
  }

  /** `tf.sub(1, …)`. */
  function Inverser(g: seq<seq<real>>): (r: seq<seq<real>>)
    requires Carre(g, EMNIST_INPUT_SIZE)
    ensures Carre(r, EMNIST_INPUT_SIZE)
  {
    seq(28, y requires 0 <= y < 28 => seq(28, x requires 0 <= x < 28 => 1.0 - g[y][x]))
  }

  /** The left-right flip, which the code has disabled. */
  function Miroir(g: seq<seq<real>>): (r: seq<seq<real>>)
    requires Carre(g, EMNIST_INPUT_SIZE)
    ensures Carre(r, EMNIST_INPUT_SIZE)
  {
    seq(28, y requires 0 <= y < 28 => seq(28, x requires 0 <= x < 28 => g[y][27 - x]))
  }

  /** The steps of pretraitement after the resize, in the code's order: normalise, transpose, invert. */
  function Pretraitement(g: seq<seq<real>>): (r: seq<seq<real>>)
    requires Carre(g, EMNIST_INPUT_SIZE)
    ensures Carre(r, EMNIST_INPUT_SIZE)
  {
    Inverser(Transposer(Normaliser(g)))
  }

  /** The pinned transform: pixel (r, c) of the model's input is 1 - g(c, r) / 255. */
  lemma PretraitementPixel(g: seq<seq<real>>, r: nat, c: nat)
    requires Carre(g, EMNIST_INPUT_SIZE) && r < 28 && c < 28
    ensures Pretraitement(g)[r][c] == 1.0 - g[c][r] / 255.0
  {
    assert Transposer(Normaliser(g))[r][c] == Normaliser(g)[c][r];
  }

  /** Transposing twice gives the image back. */
  lemma TransposerInvolution(g: seq<seq<real>>)
    requires Carre(g, EMNIST_INPUT_SIZE)
    ensures Transposer(Transposer(g)) == g
  {
    var t := Transposer(Transposer(g));
    forall y | 0 <= y < 28 ensures t[y] == g[y] {
      assert forall x :: 0 <= x < 28 ==> t[y][x] == g[y][x];
    }
  }

  /** A white pixel becomes 0 and a black one 1: glyphs end up bright on dark. */
  lemma BlancDevientNoir(g: seq<seq<real>>, r: nat, c: nat)
    requires Carre(g, EMNIST_INPUT_SIZE) && r < 28 && c < 28
    ensures g[c][r] == 255.0 ==> Pretraitement(g)[r][c] == 0.0
    ensures g[c][r] == 0.0 ==> Pretraitement(g)[r][c] == 1.0
  {
    PretraitementPixel(g, r, c);
  }

  /** Without the flip, the top-left pixel is not moved: it is not read from the mirrored corner. */
  lemma SansMiroir(g: seq<seq<real>>)
    requires Carre(g, EMNIST_INPUT_SIZE)
    ensures Pretraitement(g)[0][0] == 1.0 - g[0][0] / 255.0
    ensures Inverser(Transposer(Miroir(Normaliser(g))))[0][0] == 1.0 - g[0][27] / 255.0
  {
    PretraitementPixel(g, 0, 0);
    assert Transposer(Miroir(Normaliser(g)))[0][0] == Miroir(Normaliser(g))[0][0];
  }

  /** What a loaded model is to the model: an opaque value. */
  type Modele = nat

  /** What ensureModel hands its caller. */
  datatype Reponse =
    | Pret(modele: Modele)   // the model already loaded
    | Attente(promesse: nat) // the pending load, to await
    | Echec(erreur: Thrown)  // the file is missing

  /**
   * The static state of TensorFlowCNN for its one model type: the loaded
   * model if any, the pending load promise if any (named by a number), and
   * the number of loads started so far.
   */
  class Chargeur {
    var modele: Option<Modele>
    var promesse: Option<nat>
    var chargements: nat

    /** A promise is named after the load that made it, so a pending promise is the last load started. */
    ghost predicate Valid()
      reads this
    {
      promesse.Some? ==> promesse.value < chargements
    }

    constructor ()
      ensures Valid() && modele.None? && promesse.None? && chargements == 0
    {
      modele := None;
      promesse := None;
      chargements := 0;
    }

    /**
     * ensureModel: a loaded model is returned as it is; otherwise the pending
     * load is shared, and only when there is none is a new one started, after
     * checking that the file exists. A missing file is an Error and records
     * no promise.
     */
    method EnsureModel(fichierExiste: bool, chemin: string) returns (r: Reponse)
      requires Valid()
      modifies this
      ensures Valid() && modele == old(modele)
      ensures old(modele).Some? ==> r == Pret(old(modele).value) && promesse == old(promesse) && chargements == old(chargements)
      ensures old(modele).None? && old(promesse).Some? ==>
        r == Attente(old(promesse).value) && promesse == old(promesse) && chargements == old(chargements)
      ensures old(modele).None? && old(promesse).None? && !fichierExiste ==>
        r == Echec(StdError("EMNIST model not found at " + chemin)) && promesse.None? && chargements == old(chargements)
      ensures old(modele).None? && old(promesse).None? && fichierExiste ==>
        r == Attente(old(chargements)) && promesse == Some(old(chargements)) && chargements == old(chargements) + 1
    {
      if modele.Some? {
        return Pret(modele.value);
      }
      if promesse.None? {
        if !fichierExiste {
          return Echec(StdError("EMNIST model not found at " + chemin));
        }
        promesse := Some(chargements);
        chargements := chargements + 1;
      }
      return Attente(promesse.value);
    }

    /** The load resolves: the model is recorded and the promise stays, already settled. */
    method Charge(m: Modele)
      requires Valid() && promesse.Some?
      modifies this
      ensures Valid() && modele == Some(m) && promesse == old(promesse) && chargements == old(chargements)
    {
      modele := Some(m);
    }

    /** The load fails: the promise is dropped so that a later call starts again. */
    method Echoue()
      requires Valid()
      modifies this
      ensures Valid() && promesse.None? && modele == old(modele) && chargements == old(chargements)
    {
      promesse := None;
    }
  }

  /**
   * Two concurrent callers before the load settles share one promise and
   * start one load; once it has resolved, a third call gets the model
   * without loading again.
   */
  method ChargementPartage(chemin: string, m: Modele)
  {
    var c := new Chargeur();
    var r1 := c.EnsureModel(true, chemin);
    var r2 := c.EnsureModel(true, chemin);
    assert r1 == r2 == Attente(0) && c.chargements == 1;
    c.Charge(m);
    var r3 := c.EnsureModel(true, chemin);
    assert r3 == Pret(m) && c.chargements == 1;
  }

  /** After a failed load the next call starts a new one; a missing file records nothing. */
  method NouvelEssai(chemin: string)
  {
    var c := new Chargeur();
    var r0 := c.EnsureModel(false, chemin);
    assert r0.Echec? && c.promesse.None? && c.chargements == 0;
    var r1 := c.EnsureModel(true, chemin);
    c.Echoue();
    var r2 := c.EnsureModel(true, chemin);
    assert r1 == Attente(0) && r2 == Attente(1) && c.chargements == 2;
  }
}
