// src/utils/codeAnonymatUtils.ts: anonymity codes, words over an alphabet
// kept pairwise at a minimum Hamming distance.
module CodeAnonymat {
  import opened Erreurs

  /** The number of positions where two words of the same length differ. */
  function Distance(a: string, b: string): (d: nat)
    requires |a| == |b|
    ensures d <= |a|
  {
    if |a| == 0 then 0
    else Distance(a[..|a| - 1], b[..|b| - 1]) + (if a[|a| - 1] != b[|b| - 1] then 1 else 0)
  }

  const MESSAGE_LONGUEURS: string := "Les chaînes doivent avoir la même longueur."

  /** hamming: words of different lengths are an Error; otherwise the loop counts the differing positions. */
  method Hamming(a: string, b: string) returns (r: Result<nat>)
    ensures |a| != |b| <==> r.Err?
    ensures r.Err? ==> r == FailStd(MESSAGE_LONGUEURS)
    ensures r.Ok? ==> r.value == Distance(a, b)
  {
    if |a| != |b| {
      return FailStd(MESSAGE_LONGUEURS);
    }
    var dist := 0;
    for i := 0 to |a|
      invariant dist == Distance(a[..i], b[..i])
    {
      assert a[..i + 1][..i] == a[..i] && b[..i + 1][..i] == b[..i];
      if a[i] != b[i] {
        dist := dist + 1;
      }
    }
    assert a[..|a|] == a && b[..|b|] == b;
    return Ok(dist);
  }

  /** The distance is symmetric. */
  lemma {:induction false} DistanceSymetrique(a: string, b: string)
    requires |a| == |b|
    ensures Distance(a, b) == Distance(b, a)
  {
    if |a| > 0 {
      DistanceSymetrique(a[..|a| - 1], b[..|b| - 1]);
    }
  }

  /** The distance is zero exactly between equal words. */
  lemma {:induction false} DistanceNulle(a: string, b: string)
    requires |a| == |b|
    ensures Distance(a, b) == 0 <==> a == b
  {
    if |a| > 0 {
      DistanceNulle(a[..|a| - 1], b[..|b| - 1]);
      assert a == a[..|a| - 1] + [a[|a| - 1]] && b == b[..|b| - 1] + [b[|b| - 1]];
    }
  }

  /** `Math.pow(Q, n)` on naturals. */
  function Pow(q: nat, n: nat): (p: nat)
    ensures q > 0 ==> p > 0
    ensures q == 0 && n > 0 ==> p == 0
  {
    if n == 0 then 1 else q * Pow(q, n - 1)
  }

  lemma MulLe(a: nat, b: nat, c: nat)
    requires a <= b
    ensures a * c <= b * c
  {
  }

  lemma MulStrict(m: nat, q: nat, k: nat, s: nat)
    requires s < m
    ensures q < k ==> m * q + s < m * k
  {
    if q < k {
      MulLe(q + 1, k, m);
      assert (q + 1) * m == q * m + m;
    }
  }

  lemma DivMod(a: nat, m: nat)
    requires m > 0
    ensures a == m * (a / m) + a % m && a % m < m
  {
  }

  /** a % m and a / m are the rest r and quotient k of any decomposition a = m x k + r with 0 <= r < m. */
  lemma ResteUnique(a: nat, m: nat, k: nat, r: nat)
    requires m > 0 && a == m * k + r && r < m
    ensures a % m == r && a / m == k
  {
    DivMod(a, m);
    MulStrict(m, k, a / m, r);
    MulStrict(m, a / m, k, a % m);
  }

  /** The index once divided by q, i times over (`index = Math.floor(index / Q)`). */
  function Reste(index: nat, i: nat, q: nat): nat
    requires q > 0
  {
    if i == 0 then index else Reste(index, i - 1, q) / q
  }

  /**
   * The digits the loop has produced after i steps, most significant first:
   * step i puts the digit of the running index in front.
   */
  function Chiffres(index: nat, i: nat, q: nat): (d: seq<nat>)
    requires q > 0
    ensures |d| == i && forall k :: 0 <= k < i ==> d[k] < q
  {
    if i == 0 then [] else [Reste(index, i - 1, q) % q] + Chiffres(index, i - 1, q)
  }

  /** The number a sequence of base-q digits writes, most significant first. */
  function Valeur(d: seq<nat>, q: nat): nat
  {
    if |d| == 0 then 0 else d[0] * Pow(q, |d| - 1) + Valeur(d[1..], q)
  }

  /** Digits below q write a number below q^|d|. */
  lemma {:induction false} ValeurBornee(d: seq<nat>, q: nat)
    requires q > 0 && forall k :: 0 <= k < |d| ==> d[k] < q
    ensures Valeur(d, q) < Pow(q, |d|)
  {
    if |d| > 0 {
      var p := Pow(q, |d| - 1);
      ValeurBornee(d[1..], q);
      MulLe(d[0], q - 1, p);
      assert (q - 1) * p + p == q * p;
    }
  }

  /** One step of the loop on the running index r, scaled by p: p x r = (q x p) x (r / q) + (r % q) x p. */
  lemma Etape(p: nat, q: nat, r: nat)
    requires q > 0
    ensures p * r == (q * p) * (r / q) + (r % q) * p
  {
    DivMod(r, q);
    calc {
      p * r;
      p * (q * (r / q) + r % q);
      p * (q * (r / q)) + p * (r % q);
      (q * p) * (r / q) + (r % q) * p;
    }
  }

  /** After i steps, the digits produced and the running index together give back the index. */
  lemma {:induction false} Decomposition(index: nat, i: nat, q: nat)
    requires q > 0
    ensures index == Pow(q, i) * Reste(index, i, q) + Valeur(Chiffres(index, i, q), q)
  {
    if i > 0 {
      Decomposition(index, i - 1, q);
      var p := Pow(q, i - 1);
      var r := Reste(index, i - 1, q);
      var d := Chiffres(index, i, q);
      assert d[1..] == Chiffres(index, i - 1, q);
      assert Valeur(d, q) == (r % q) * p + Valeur(Chiffres(index, i - 1, q), q);
      Etape(p, q, r);
    }
  }

  /** The word's digits write index mod q^length: only that much of the index is represented. */
  lemma ChiffresValeur(index: nat, length: nat, q: nat)
    requires q > 0
    ensures Valeur(Chiffres(index, length, q), q) == index % Pow(q, length)
    ensures Reste(index, length, q) == index / Pow(q, length)
  {
    Decomposition(index, length, q);
    ValeurBornee(Chiffres(index, length, q), q);
    ResteUnique(index, Pow(q, length), Reste(index, length, q), Valeur(Chiffres(index, length, q), q));
  }

  /** Two indices below q^length have different digits: the words enumerate the code space. */
  lemma IndicesDistincts(i1: nat, i2: nat, length: nat, q: nat)
    requires q > 0 && i1 < Pow(q, length) && i2 < Pow(q, length) && i1 != i2
    ensures Chiffres(i1, length, q) != Chiffres(i2, length, q)
  {
    ChiffresValeur(i1, length, q);
    ChiffresValeur(i2, length, q);
    ResteUnique(i1, Pow(q, length), 0, i1);
    ResteUnique(i2, Pow(q, length), 0, i2);
  }

  /** The letters of a digit sequence. */
  function Lettres(d: seq<nat>, alphabet: string): (w: string)
    requires forall i :: 0 <= i < |d| ==> d[i] < |alphabet|
    ensures |w| == |d| && forall i :: 0 <= i < |d| ==> w[i] == alphabet[d[i]]
  {
    seq(|d|, i requires 0 <= i < |d| => alphabet[d[i]])
  }

  /**
   * indiceVersMot: each step puts letter index % Q in front of the word and
   * divides the index by Q. With an empty alphabet `alphabet[NaN]` is
   * undefined and the string "undefined" is put in front instead.
   */
  method IndiceVersMot(index: nat, length: nat, alphabet: string) returns (word: string)
    ensures |alphabet| > 0 ==> word == Lettres(Chiffres(index, length, |alphabet|), alphabet)
    ensures |alphabet| == 0 ==> |word| == 9 * length
  {
    word := "";
    var q := |alphabet|;
    var reste := index;
    for i := 0 to length
      invariant q > 0 ==> reste == Reste(index, i, q) && word == Lettres(Chiffres(index, i, q), alphabet)
      invariant q == 0 ==> |word| == 9 * i
    {
      if q == 0 {
        word := "undefined" + word;
      } else {
        var lettre := alphabet[reste % q];
        word := [lettre] + word;
        reste := reste / q;
      }
    }
  }

  /** indiceVersMot gives exactly `length` letters of the alphabet. */
  lemma MotDansLAlphabet(index: nat, length: nat, alphabet: string)
    requires |alphabet| > 0
    ensures var w := Lettres(Chiffres(index, length, |alphabet|), alphabet);
      |w| == length && forall i :: 0 <= i < length ==> w[i] in alphabet
  {
  }

  /** Over an alphabet without repeated letters, distinct indices below Q^length give distinct words. */
  lemma MotsDistincts(i1: nat, i2: nat, length: nat, alphabet: string)
    requires |alphabet| > 0 && SansRepetition(alphabet)
    requires i1 < Pow(|alphabet|, length) && i2 < Pow(|alphabet|, length) && i1 != i2
    ensures Lettres(Chiffres(i1, length, |alphabet|), alphabet) != Lettres(Chiffres(i2, length, |alphabet|), alphabet)
  {
    var q := |alphabet|;
    var d1, d2 := Chiffres(i1, length, q), Chiffres(i2, length, q);
    IndicesDistincts(i1, i2, length, q);
    var k :| 0 <= k < length && d1[k] != d2[k];
    assert Lettres(d1, alphabet)[k] != Lettres(d2, alphabet)[k] by {
      if d1[k] < d2[k] {
        assert alphabet[d1[k]] != alphabet[d2[k]];
      } else {
        assert alphabet[d2[k]] != alphabet[d1[k]];
      }
    }
  }

  /** No letter repeats. */
  predicate SansRepetition(s: string)
  {
    forall i, j :: 0 <= i < j < |s| ==> s[i] != s[j]
  }

  /** `new Set(candidat.split(""))`. */
  function Ensemble(s: string): (e: set<char>)
    ensures forall c :: c in e <==> c in s
  {
    if |s| == 0 then {} else Ensemble(s[..|s| - 1]) + {s[|s| - 1]}
  }

  /** A word extended by one letter repeats none exactly when the word repeats none and lacks that letter. */
  lemma SansRepetitionAjout(t: string, x: char)
    ensures SansRepetition(t + [x]) <==> SansRepetition(t) && x !in t
  {
    var s := t + [x];
    if SansRepetition(s) {
      forall i, j | 0 <= i < j < |t| ensures t[i] != t[j] {
        assert s[i] == t[i] && s[j] == t[j];
      }
      forall k | 0 <= k < |t| ensures t[k] != x {
        assert s[k] == t[k] && s[|t|] == x;
      }
    }
    if SansRepetition(t) && x !in t {
      forall i, j | 0 <= i < j < |s| ensures s[i] != s[j] {
        if j < |t| {
          assert s[i] == t[i] && s[j] == t[j];
        } else {
          assert s[i] == t[i];
        }
      }
    }
  }

  /** The set of a word's letters has as many letters as the word exactly when no letter repeats. */
  lemma {:induction false} TailleEnsemble(s: string)
    ensures |Ensemble(s)| <= |s|
    ensures |Ensemble(s)| == |s| <==> SansRepetition(s)
  {
    if |s| > 0 {
      var t := s[..|s| - 1];
      var x := s[|s| - 1];
      assert s == t + [x];
      TailleEnsemble(t);
      SansRepetitionAjout(t, x);
      if x in t {
        assert Ensemble(s) == Ensemble(t);
      } else {
        assert x !in Ensemble(t);
      }
    }
  }

  /** Every accepted code: the right length, letters of the alphabet, none repeated. */
  predicate CodeValide(c: string, taille: nat, alphabet: string)
  {
    |c| == taille && SansRepetition(c) && forall k :: 0 <= k < |c| ==> c[k] in alphabet
  }

  /** Every two codes of the list are at least minDistance apart. */
  predicate Eloignes(results: seq<string>, taille: nat, minDistance: int)
    requires forall r :: r in results ==> |r| == taille
  {
    forall a, b :: 0 <= a < b < |results| ==> Distance(results[a], results[b]) >= minDistance
  }

  /**
   * The draw of one candidate: taille letters, each `alphabet[Math.floor(Math.random() * Q)]`,
   * where the random choice is free.
   */
  method Tirer(taille: nat, alphabet: string) returns (candidat: string)
    requires taille > 0 ==> |alphabet| > 0
    ensures |candidat| == taille && forall k :: 0 <= k < taille ==> candidat[k] in alphabet
  {
    candidat := "";
    for j := 0 to taille
      invariant |candidat| == j && forall k :: 0 <= k < j ==> candidat[k] in alphabet
    {
      var randomIndex :| 0 <= randomIndex < |alphabet|;
      candidat := candidat + [alphabet[randomIndex]];
    }
  }

  /** The check against the accepted codes: it stops at the first one closer than minDistance. */
  method Compatible(candidat: string, results: seq<string>, minDistance: int) returns (valid: bool)
    requires forall m :: 0 <= m < |results| ==> |results[m]| == |candidat|
    ensures valid <==> forall m :: 0 <= m < |results| ==> Distance(candidat, results[m]) >= minDistance
  {
    valid := true;
    for e := 0 to |results|
      invariant valid <==> forall m :: 0 <= m < e ==> Distance(candidat, results[m]) >= minDistance
    {
      var d := Hamming(candidat, results[e]);
      if d.value < minDistance {
        return false;
      }
    }
  }

  /**
   * genererCodesHamming. At most Q^taille candidates are drawn; a candidate
   * with a repeated letter is dropped, and one closer than minDistance to an
   * accepted code is rejected; the others are kept in acceptance order until
   * n are found.
   */
  method GenererCodesHamming(n: int, taille: nat, minDistance: int, alphabet: string) returns (results: seq<string>)
    ensures |results| <= Pow(|alphabet|, taille) && (n >= 0 ==> |results| <= n) && (n <= 0 ==> results == [])
    ensures forall c :: c in results ==> CodeValide(c, taille, alphabet)
    ensures forall c :: c in results ==> |c| == taille
    ensures Eloignes(results, taille, minDistance)
  {
    results := [];
    var max := Pow(|alphabet|, taille);
    var i := 0;
    while i < max && |results| < n
      invariant i <= max
      invariant |results| <= i && (n >= 0 ==> |results| <= n) && (n <= 0 ==> results == [])
      invariant forall c :: c in results ==> CodeValide(c, taille, alphabet)
      invariant forall c :: c in results ==> |c| == taille
      invariant Eloignes(results, taille, minDistance)
      decreases max - i
    {
      var candidat := Tirer(taille, alphabet);
      var lettresUniques := Ensemble(candidat);
      TailleEnsemble(candidat);
      if |lettresUniques| == |candidat| {
        var valid := Compatible(candidat, results, minDistance);
        if valid {
          Accepter(results, candidat, taille, minDistance);
          results := results + [candidat];
        }
      }
      i := i + 1;
    }
  }

  /** Appending a code at distance minDistance or more from each accepted one keeps them apart. */
  lemma Accepter(results: seq<string>, candidat: string, taille: nat, minDistance: int)
    requires forall c :: c in results ==> |c| == taille
    requires |candidat| == taille && Eloignes(results, taille, minDistance)
    requires forall m :: 0 <= m < |results| ==> Distance(candidat, results[m]) >= minDistance
    ensures forall c :: c in results + [candidat] ==> |c| == taille
    ensures Eloignes(results + [candidat], taille, minDistance)
  {
    var s := results + [candidat];
    forall a, b | 0 <= a < b < |s| ensures Distance(s[a], s[b]) >= minDistance {
      if b == |results| {
        DistanceSymetrique(candidat, results[a]);
      } else {
        assert s[a] == results[a] && s[b] == results[b];
      }
    }
  }
}
