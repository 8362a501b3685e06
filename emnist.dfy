// resources/scripts/entrainementEMNIST.js: the training script's readers for
// the EMNIST "IDX" files, its train/validation split and its command-line
// argument reader. File reading, downloads and the training itself are not
// modelled; a file is given as its bytes.
module Emnist {
  import opened Wrappers

  /** `buffer.readUInt32BE(offset)`: four bytes, most significant first; out of range it throws (None). */
  function U32BE(buf: seq<bv8>, offset: nat): (r: Option<nat>)
    ensures r.Some? <==> offset + 4 <= |buf|
    ensures r.Some? ==> r.value < 0x1_0000_0000
  {
    if offset + 4 > |buf| then None
    else
      Chiffres(buf[offset] as int, buf[offset + 1] as int, buf[offset + 2] as int, buf[offset + 3] as int);
      Some(Grandeur(buf[offset] as int, buf[offset + 1] as int, buf[offset + 2] as int, buf[offset + 3] as int))
  }

  /** The four big-endian bytes of a 32-bit number. */
  function EncodeU32BE(n: nat): (bytes: seq<bv8>)
    requires n < 0x1_0000_0000
    ensures |bytes| == 4
  {
    [(n / 256 / 256 / 256) as bv8, (n / 256 / 256 % 256) as bv8, (n / 256 % 256) as bv8, (n % 256) as bv8]
  }

  /** The number four bytes stand for, most significant first. */
  function Grandeur(a: int, b: int, c: int, d: int): int
  {
    ((a * 256 + b) * 256 + c) * 256 + d
  }

  /** Four base-256 digits make a number below 2^32 whose digits are them again. */
  lemma Chiffres(a: int, b: int, c: int, d: int)
    requires 0 <= a < 256 && 0 <= b < 256 && 0 <= c < 256 && 0 <= d < 256
    ensures var n := Grandeur(a, b, c, d);
      0 <= n < 0x1_0000_0000 &&
      n / 256 / 256 / 256 == a && n / 256 / 256 % 256 == b && n / 256 % 256 == c && n % 256 == d
  {
    var q2 := a * 256 + b;
    var q1 := q2 * 256 + c;
    var n := q1 * 256 + d;
    assert 0 <= q2 < 0x1_0000;
    assert 0 <= q1 < 0x100_0000;
    assert n / 256 == q1 && n % 256 == d;
    assert q1 / 256 == q2 && q1 % 256 == c;
    assert q2 / 256 == a && q2 % 256 == b;
  }

  /** A byte read as a number and converted back is the same byte. */
  lemma OctetEntier(x: bv8)
    ensures (x as int) as bv8 == x
  {
  }

  /**
   * The number read from four bytes determines them: writing it back as
   * four big-endian bytes gives exactly the bytes read, wherever they sit.
   */
  lemma U32BERoundTrip(buf: seq<bv8>, offset: nat)
    requires offset + 4 <= |buf|
    ensures EncodeU32BE(U32BE(buf, offset).value) == buf[offset..offset + 4]
  {
    Chiffres(buf[offset] as int, buf[offset + 1] as int, buf[offset + 2] as int, buf[offset + 3] as int);
    OctetEntier(buf[offset]);
    OctetEntier(buf[offset + 1]);
    OctetEntier(buf[offset + 2]);
    OctetEntier(buf[offset + 3]);
    var e := EncodeU32BE(U32BE(buf, offset).value);
    assert e[0] == buf[offset] && e[1] == buf[offset + 1] && e[2] == buf[offset + 2] && e[3] == buf[offset + 3];
  }

  /** A JavaScript number, as far as these readers need one: a real value or NaN. */
  datatype NombreJS = Reel(x: real) | PasUnNombre

  /** JavaScript truthiness of the maximum; None stands for undefined. Undefined, 0 and the empty text are false. */
  predicate Vrai(m: Option<Valeur>)
  {
    match m
    case None => false
    case Some(Nombre(x)) => x != 0.0
    case Some(Texte(s)) => |s| > 0
  }

  /** `Number(v)`: a number is itself, a text is what `number` reads in it (None for NaN). */
  function VersNombre(v: Valeur, number: string -> Option<real>): NombreJS
  {
    match v
    case Nombre(x) => Reel(x)
    case Texte(s) => if number(s).Some? then Reel(number(s).value) else PasUnNombre
  }

  /**
   * `maxExemples ? Math.min(maxExemples, n) : n`: a false maximum means the
   * file's count; otherwise Math.min converts the maximum to a number, and
   * gives NaN when that is NaN and the smaller of the two otherwise.
   */
  function Total(maxExemples: Option<Valeur>, n: nat, number: string -> Option<real>): (t: NombreJS)
    ensures !Vrai(maxExemples) ==> t == Reel(n as real)
    ensures t.PasUnNombre? <==> Vrai(maxExemples) && VersNombre(maxExemples.value, number).PasUnNombre?
    ensures t.Reel? ==> t.x <= n as real
    ensures Vrai(maxExemples) && VersNombre(maxExemples.value, number).Reel? ==>
      var m := VersNombre(maxExemples.value, number).x;
      t.Reel? && t.x <= m && (t.x == m || t.x == n as real)
  {
    if !Vrai(maxExemples) then Reel(n as real)
    else
      match VersNombre(maxExemples.value, number)
      case PasUnNombre => PasUnNombre
      case Reel(m) => Reel(if m < n as real then m else n as real)
  }

  /** The smallest integer at or above x. */
  function Plafond(x: real): (c: int)
    ensures x <= c as real < x + 1.0
  {
    -((-x).Floor)
  }

  /**
   * The length a typed array is created with (ToIndex, section 7.1.22 of
   * ECMA-262): NaN gives 0, a value is truncated toward zero, and one that
   * truncates below 0 throws a RangeError (None).
   */
  function ToIndex(v: NombreJS): (r: Option<nat>)
    ensures v.PasUnNombre? ==> r == Some(0)
    ensures v.Reel? ==> (r.None? <==> v.x <= -1.0)
    ensures v.Reel? && -1.0 < v.x < 1.0 ==> r == Some(0)
    ensures v.Reel? && v.x >= 0.0 ==> r.Some? && r.value as real <= v.x < r.value as real + 1.0
  {
    match v
    case PasUnNombre => Some(0)
    case Reel(x) => if x <= -1.0 then None else if x < 0.0 then Some(0) else Some(x.Floor)
  }

  /** `v * t`, for a number of bytes t. */
  function Fois(v: NombreJS, t: nat): NombreJS
  {
    match v
    case PasUnNombre => PasUnNombre
    case Reel(x) => Reel(x * t as real)
  }

  /** How many times `for (let i = 0; i < v; i += 1)` runs: the count of naturals below v, none for NaN. */
  function Tours(v: NombreJS): (n: nat)
    ensures v.PasUnNombre? || v.x <= 0.0 ==> n == 0
    ensures v.Reel? && v.x > 0.0 ==> v.x <= n as real && (n - 1) as real < v.x
  {
    match v
    case PasUnNombre => 0
    case Reel(x) => if x <= 0.0 then 0 else Plafond(x)
  }

  /** The images read: their pixels, one image after the other, their size and their number. */
  datatype Images = Images(images: seq<bv8>, lignes: nat, colonnes: nat, total: NombreJS)

  /**
   * Byte k of the pixel buffer: image k / (rows x columns) starts at byte
   * 16 + its index x its size, so byte k is file byte 16 + k; what the file
   * lacks stays 0.
   */
  function Pixel(buf: seq<bv8>, k: nat): bv8
  {
    if 16 + k < |buf| then buf[16 + k] else 0
  }

  /**
   * The length of `buffer.subarray(debut, debut + t)`: both ends are clamped
   * to the file's end, so it is the longest part of the t bytes the file
   * holds.
   */
  function Tranche(buf: seq<bv8>, debut: nat, t: nat): (l: nat)
    ensures l <= t && (l == 0 || debut + l <= |buf|)
    ensures l < t ==> debut + l >= |buf|
  {
    if debut >= |buf| then 0 else if |buf| - debut < t then |buf| - debut else t
  }

  /** Where the copy of image i ends in the pixel buffer: its start plus what the file holds of it. */
  function Fin(buf: seq<bv8>, i: nat, t: nat): nat
  {
    i * t + Tranche(buf, 16 + i * t, t)
  }

  /** Some copy of the loop ends past the buffer's length, so that `images.set` throws a RangeError. */
  predicate Debordement(buf: seq<bv8>, tours: nat, t: nat, longueur: nat)
  {
    exists i :: 0 <= i < tours && Fin(buf, i, t) > longueur
  }

  /**
   * lireIdxImages on a file's bytes: the counts are big-endian 32-bit numbers
   * at offsets 4, 8 and 12. The buffer has ToIndex(total x size) bytes, and
   * the loop copies one image for each natural below total. It throws when
   * the header is past the end of the file, when that length is negative,
   * and when a copy ends past the buffer (a fractional total); otherwise
   * byte k is file byte 16 + k, or 0 past the file's end.
   */
  method LireIdxImages(buf: seq<bv8>, maxExemples: Option<Valeur>, number: string -> Option<real>) returns (r: Option<Images>)
    ensures |buf| < 16 ==> r.None?
    ensures |buf| >= 16 ==>
      var total := Total(maxExemples, U32BE(buf, 4).value, number);
      var t := TailleImage(U32BE(buf, 8).value, U32BE(buf, 12).value);
      var longueur := ToIndex(Fois(total, t));
      (r.None? <==> longueur.None? || Debordement(buf, Tours(total), t, longueur.value)) &&
      (r.Some? ==>
        r.value.total == total && r.value.lignes == U32BE(buf, 8).value && r.value.colonnes == U32BE(buf, 12).value &&
        |r.value.images| == longueur.value &&
        (forall k :: 0 <= k < |r.value.images| ==> r.value.images[k] == Pixel(buf, k)))
  {
    if |buf| < 16 {
      return None;
    }
    var nbImages := U32BE(buf, 4).value;
    var lignes := U32BE(buf, 8).value;
    var colonnes := U32BE(buf, 12).value;
    var tailleImage := TailleImage(lignes, colonnes);
    var total := Total(maxExemples, nbImages, number);
    var longueur := ToIndex(Fois(total, tailleImage));
    if longueur.None? {
      return None;
    }
    var tours := Tours(total);
    var pixels := CopierImages(buf, tours, tailleImage, longueur.value);
    if pixels.None? {
      return None;
    }
    Couverture(total, tailleImage);
    return Some(Images(pixels.value, lignes, colonnes, total));
  }

  /** `lignes * colonnes`, the size of one image in bytes. */
  function TailleImage(lignes: nat, colonnes: nat): (t: nat)
    ensures t == lignes * colonnes
  {
    lignes * colonnes
  }

  /** The buffer never outgrows what the loop covers: ToIndex(total x t) <= Tours(total) x t. */
  lemma Couverture(total: NombreJS, t: nat)
    requires ToIndex(Fois(total, t)).Some?
    ensures ToIndex(Fois(total, t)).value <= Tours(total) * t
  {
    if total.Reel? {
      var x := total.x;
      var p := x * t as real;
      assert Fois(total, t) == Reel(p);
      if x <= 0.0 {
        assert p <= 0.0;
        assert ToIndex(Fois(total, t)) == Some(0);
      } else {
        var c := Tours(total);
        assert p <= c as real * t as real;
        assert (c * t) as real == c as real * t as real;
        assert ToIndex(Fois(total, t)).value as real <= p;
      }
    }
  }

  /**
   * The copy loop of lireIdxImages over a zeroed buffer of longueur bytes:
   * image i goes to i x tailleImage, and the loop throws at the first copy
   * that ends past the buffer. Otherwise the bytes the loop reaches are the
   * file's, and the rest stay 0.
   */
  method CopierImages(buf: seq<bv8>, tours: nat, tailleImage: nat, longueur: nat) returns (pixels: Option<seq<bv8>>)
    ensures pixels.None? <==> Debordement(buf, tours, tailleImage, longueur)
    ensures pixels.Some? ==> (|pixels.value| == longueur &&
      forall k :: 0 <= k < longueur ==> pixels.value[k] == if k < tours * tailleImage then Pixel(buf, k) else 0)
  {
    var images := new bv8[longueur];
    forall k | 0 <= k < images.Length {
      images[k] := 0;
    }
    for i := 0 to tours
      invariant forall m :: 0 <= m < i ==> Fin(buf, m, tailleImage) <= longueur
      invariant forall k :: 0 <= k < longueur ==> images[k] == if k < i * tailleImage then Pixel(buf, k) else 0
    {
      if Fin(buf, i, tailleImage) > longueur {
        return None;
      }
      CopierImage(images, buf, i * tailleImage, tailleImage);
      assert (i + 1) * tailleImage == i * tailleImage + tailleImage;
    }
    return Some(images[..]);
  }

  /**
   * `images.set(buffer.subarray(debut, debut + tailleImage), cible)` with
   * debut = 16 + cible: the part the file holds is copied, and the rest of
   * the image stays 0.
   */
  method CopierImage(images: array<bv8>, buf: seq<bv8>, cible: nat, tailleImage: nat)
    requires cible + Tranche(buf, 16 + cible, tailleImage) <= images.Length
    requires forall k :: 0 <= k < images.Length ==> images[k] == if k < cible then Pixel(buf, k) else 0
    modifies images
    ensures forall k :: 0 <= k < images.Length ==> images[k] == if k < cible + tailleImage then Pixel(buf, k) else 0
  {
    var debut := 16 + cible;
    var l := Tranche(buf, debut, tailleImage);
    for j := 0 to l
      invariant forall k :: 0 <= k < images.Length ==> images[k] == if k < cible + j then Pixel(buf, k) else 0
    {
      images[cible + j] := buf[debut + j];
    }
  }

  /**
   * A fractional total over images the file holds throws: the loop copies a
   * last image that the buffer, of the truncated length, cannot hold.
   */
  lemma ImagesFractionnaires(buf: seq<bv8>, total: NombreJS, t: nat)
    requires total.Reel? && 0.0 < total.x && (total.x.Floor as real) < total.x && t > 0
    requires 16 + Tours(total) * t <= |buf|
    ensures ToIndex(Fois(total, t)).Some? && Debordement(buf, Tours(total), t, ToIndex(Fois(total, t)).value)
  {
    var x := total.x;
    var p := x * t as real;
    assert Fois(total, t) == Reel(p);
    var c := Tours(total);
    assert (c as real).Floor == c;
    assert c as real > x;
    ProduitStrict(c, x, t);
    var i := c - 1;
    assert (i + 1) * t == i * t + t;
    DernierTour(buf, i, t);
    assert Fin(buf, i, t) > ToIndex(Reel(p)).value;
  }

  /** x < c and t > 0 give x x t < c x t. */
  lemma ProduitStrict(c: nat, x: real, t: nat)
    requires x < c as real && t > 0
    ensures x * t as real < (c * t) as real
  {
    assert (c * t) as real == c as real * t as real;
  }

  /** An image the file holds whole ends one image size after its start. */
  lemma DernierTour(buf: seq<bv8>, i: nat, t: nat)
    requires 16 + i * t + t <= |buf|
    ensures Fin(buf, i, t) == i * t + t
  {
  }

  /**
   * A total that is a natural number never overflows the buffer: the buffer
   * holds total x t bytes and every copy ends within it.
   */
  lemma ImagesEntieres(buf: seq<bv8>, total: NombreJS, t: nat)
    requires total.Reel? && 0.0 <= total.x && (total.x.Floor as real) == total.x
    ensures ToIndex(Fois(total, t)) == Some(total.x.Floor * t)
    ensures Tours(total) == total.x.Floor
    ensures !Debordement(buf, Tours(total), t, ToIndex(Fois(total, t)).value)
  {
    var n := total.x.Floor;
    assert (n * t) as real == n as real * t as real;
    var c := Tours(total);
    forall i | 0 <= i < c
      ensures Fin(buf, i, t) <= n * t
    {
      assert (i + 1) * t == i * t + t;
      assert (i + 1) * t <= n * t;
    }
  }

  /**
   * lireIdxLabels: the count at offset 4; the array has ToIndex(total)
   * labels, and the loop reads byte 8 + i for each natural i below total,
   * storing its value minus 1 in a byte (so 0 would wrap to 255). A write
   * past the array's end is dropped; a byte past the file's end throws,
   * and so does a negative length.
   */
  method LireIdxLabels(buf: seq<bv8>, maxExemples: Option<Valeur>, number: string -> Option<real>) returns (r: Option<seq<bv8>>)
    ensures |buf| < 8 ==> r.None?
    ensures |buf| >= 8 ==>
      var total := Total(maxExemples, U32BE(buf, 4).value, number);
      var longueur := ToIndex(total);
      (r.None? <==> longueur.None? || 8 + Tours(total) > |buf|) &&
      (r.Some? ==> (|r.value| == longueur.value &&
        forall i :: 0 <= i < |r.value| ==> 8 + i < |buf| && r.value[i] == Label(buf[8 + i])))
  {
    if |buf| < 8 {
      return None;
    }
    var total := Total(maxExemples, U32BE(buf, 4).value, number);
    var longueur := ToIndex(total);
    if longueur.None? {
      return None;
    }
    var labels := new bv8[longueur.value];
    var tours := Tours(total);
    LabelsCouverts(total);
    for i := 0 to tours
      invariant 8 + i <= |buf|
      invariant forall m :: 0 <= m < i && m < labels.Length ==> labels[m] == Label(buf[8 + m])
    {
      if 8 + i >= |buf| {
        return None;
      }
      if i < labels.Length {
        labels[i] := Label(buf[8 + i]);
      }
    }
    return Some(labels[..]);
  }

  /** The label array never outgrows what the loop covers: ToIndex(total) <= Tours(total). */
  lemma LabelsCouverts(total: NombreJS)
    requires ToIndex(total).Some?
    ensures ToIndex(total).value <= Tours(total)
  {
  }

  /**
   * With a fractional total the loop reads one label more than the array
   * holds: the last label read is dropped.
   */
  lemma LabelsFractionnaires(total: NombreJS)
    requires total.Reel? && 0.0 < total.x && (total.x.Floor as real) < total.x
    ensures ToIndex(total) == Some(Tours(total) - 1)
  {
    var c := Tours(total);
    assert c as real > total.x;
    assert total.x.Floor == c - 1;
  }

  /** `buffer.readUInt8(8 + i) - 1` stored in a Uint8Array: the difference modulo 256. */
  function Label(b: bv8): (l: bv8)
    ensures b != 0 ==> l as int == b as int - 1
    ensures b == 0 ==> l == 255
  {
    b - 1
  }

  /** EMNIST Letters labels 1 .. 26 become the classes 0 .. 25, and a 0 would become 255. */
  lemma LabelsDecales(b: bv8)
    ensures 1 <= b <= 26 ==> 0 <= Label(b) <= 25 && Label(b) as int == b as int - 1
    ensures b == 0 ==> Label(b) == 255
  {
  }

  /** `Math.round`: halves go up. */
  function Round(x: real): int
  {
    (x + 0.5).Floor
  }

  /** The split sizes: at least one validation row, the rest for training (negative when there are too few rows). */
  function NbVal(total: nat, valSplit: real): (nbVal: int)
    ensures nbVal >= 1
  {
    var v := Round(total as real * valSplit);
    if v > 1 then v else 1
  }

  /**
   * decouperTrainVal on the rows: the first nbTrain rows train, the next
   * nbVal validate. With more validation rows than rows the training count is
   * negative, which tf's slice rejects (None).
   */
  function DecouperTrainVal<T>(rows: seq<T>, valSplit: real): (r: Option<(seq<T>, seq<T>)>)
    ensures r.None? <==> NbVal(|rows|, valSplit) > |rows|
    ensures r.Some? ==>
      r.value.0 + r.value.1 == rows && |r.value.1| == NbVal(|rows|, valSplit) && |r.value.1| >= 1
  {
    var nbVal := NbVal(|rows|, valSplit);
    var nbTrain := |rows| - nbVal;
    if nbTrain < 0 then None
    else Some((rows[..nbTrain], rows[nbTrain..nbTrain + nbVal]))
  }

  /** With a split in [0, 1] and at least one row, the split always succeeds. */
  lemma DecoupageValide<T>(rows: seq<T>, valSplit: real)
    requires |rows| >= 1 && 0.0 <= valSplit <= 1.0
    ensures DecouperTrainVal(rows, valSplit).Some?
  {
    var x := |rows| as real * valSplit;
    assert 0.0 <= x <= |rows| as real;
    assert Round(x) <= |rows|;
  }

  /** `argv.indexOf(flag)`: the first position of the flag, or -1. */
  function IndexOf(argv: seq<string>, flag: string): (i: int)
    ensures -1 <= i < |argv|
    ensures i == -1 <==> flag !in argv
    ensures i >= 0 ==> argv[i] == flag && flag !in argv[..i]
  {
    if |argv| == 0 then -1
    else if argv[0] == flag then 0
    else
      var j := IndexOf(argv[1..], flag);
      assert j >= 0 ==> argv[1..][..j] == argv[1..j + 1];
      if j == -1 then -1 else j + 1
  }

  /** A command-line value: the string given, or the number it reads as. */
  datatype Valeur = Texte(s: string) | Nombre(n: real)

  /**
   * lireArg: the value after the first `--nom`, as a number when `Number`
   * parses it (None stands for NaN) and as the raw string otherwise; the
   * default when the flag is absent or last. None stands for undefined, the
   * default of `max_train`.
   */
  function LireArg(argv: seq<string>, nom: string, defaut: Option<Valeur>, number: string -> Option<real>): (v: Option<Valeur>)
    ensures "--" + nom !in argv ==> v == defaut
    ensures "--" + nom in argv ==>
      var i := IndexOf(argv, "--" + nom);
      if i + 1 >= |argv| then v == defaut
      else if number(argv[i + 1]).Some? then v == Some(Nombre(number(argv[i + 1]).value))
      else v == Some(Texte(argv[i + 1]))
  {
    var idx := IndexOf(argv, "--" + nom);
    if idx == -1 || idx + 1 >= |argv| then defaut
    else
      var brut := argv[idx + 1];
      match number(brut)
      case None => Some(Texte(brut))
      case Some(n) => Some(Nombre(n))
  }

  /** A later repetition of a flag is ignored: the first one wins. */
  lemma PremierDrapeau(nom: string, a: string, b: string, defaut: Option<Valeur>, number: string -> Option<real>)
    requires number(a).None?
    ensures LireArg(["--" + nom, a, "--" + nom, b], nom, defaut, number) == Some(Texte(a))
  {
    assert IndexOf(["--" + nom, a, "--" + nom, b], "--" + nom) == 0;
  }

  /**
   * `lireArg("max_train", undefined)` read as a maximum: absent, it means
   * every example; a text that is not a number makes the count NaN, so
   * both readers return empty arrays.
   */
  lemma MaxTrain(argv: seq<string>, n: nat, number: string -> Option<real>)
    ensures var m := LireArg(argv, "max_train", None, number);
      (m.None? ==> Total(m, n, number) == Reel(n as real)) &&
      (m.Some? && m.value.Texte? && |m.value.s| > 0 ==>
        Total(m, n, number) == PasUnNombre && ToIndex(Fois(Total(m, n, number), 1)) == Some(0) &&
        Tours(Total(m, n, number)) == 0)
  {
    var m := LireArg(argv, "max_train", None, number);
    if m.Some? && m.value.Texte? {
      var i := IndexOf(argv, "--max_train");
      assert "--" + "max_train" == "--max_train";
      assert m.value.s == argv[i + 1] && number(argv[i + 1]).None?;
    }
  }

  /** The training pixels: each byte divided by 255, in place; no transpose or flip. */
  function ImagesEntrainement(images: seq<bv8>): (px: seq<real>)
    ensures |px| == |images|
    ensures forall k :: 0 <= k < |images| ==> 0.0 <= px[k] <= 1.0
  {
    seq(|images|, k requires 0 <= k < |images| => images[k] as real / 255.0)
  }
}
