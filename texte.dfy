// String helpers shared by the modules that build text: decimal rendering
// of numbers (template literals), padding, joining and splitting.
module Texte {
  /** Decimal digit of a value below ten. */
  function Digit(d: nat): (c: char)
    requires d < 10
    ensures '0' <= c <= '9' && (c as int) - ('0' as int) == d
  {
    ('0' as int + d) as char
  }

  /** `${n}` for a non-negative integer: its decimal digits, most significant first, without leading zeros. */
  function NatToString(n: nat): (s: string)
    ensures |s| >= 1
    ensures forall k :: 0 <= k < |s| ==> '0' <= s[k] <= '9'
    ensures |s| > 1 ==> s[0] != '0'
    decreases n
  {
    if n < 10 then [Digit(n)] else NatToString(n / 10) + [Digit(n % 10)]
  }

  /** `${n}` for any integer. */
  function IntToString(n: int): string
  {
    if n >= 0 then NatToString(n) else "-" + NatToString(-n)
  }

  /** Value of a string of decimal digits. */
  function DigitsValue(s: string): nat
    requires forall k :: 0 <= k < |s| ==> '0' <= s[k] <= '9'
  {
    if |s| == 0 then 0 else DigitsValue(s[..|s| - 1]) * 10 + ((s[|s| - 1] as int) - ('0' as int))
  }

  /** Reading back the decimal text gives the number. */
  lemma {:induction false} NatToStringRoundTrip(n: nat)
    ensures DigitsValue(NatToString(n)) == n
    decreases n
  {
    if n >= 10 {
      NatToStringRoundTrip(n / 10);
      var s := NatToString(n);
      assert s[..|s| - 1] == NatToString(n / 10);
    }
  }

  /** Decimal text has exactly two characters for 10..99. */
  lemma TwoDigits(n: nat)
    requires 10 <= n < 100
    ensures NatToString(n) == [Digit(n / 10), Digit(n % 10)]
  {
  }

  /** String.prototype.padStart(width) with spaces. */
  function PadStart(s: string, width: nat): (r: string)
    ensures |r| == if |s| >= width then |s| else width
    ensures r[|r| - |s|..] == s
    ensures forall k :: 0 <= k < |r| - |s| ==> r[k] == ' '
  {
    if |s| >= width then s else seq(width - |s|, _ => ' ') + s
  }

  /** Array.prototype.join(sep). */
  function Join(parts: seq<string>, sep: string): string
  {
    if |parts| == 0 then "" else if |parts| == 1 then parts[0] else parts[0] + sep + Join(parts[1..], sep)
  }

  /** String.prototype.split(sep) for a one-character separator: every piece, empty ones included. */
  function Split(s: string, sep: char): (parts: seq<string>)
    ensures |parts| >= 1
    decreases |s|
  {
    if |s| == 0 then [""]
    else
      var rest := Split(s[1..], sep);
      if s[0] == sep then [""] + rest else [[s[0]] + rest[0]] + rest[1..]
  }

  /** Joining the pieces back with the separator gives the string. */
  lemma {:induction false} SplitJoin(s: string, sep: char)
    ensures Join(Split(s, sep), [sep]) == s
    decreases |s|
  {
    if |s| > 0 {
      SplitJoin(s[1..], sep);
      var rest := Split(s[1..], sep);
      if s[0] == sep {
        assert Split(s, sep) == [""] + rest;
      } else {
        assert Split(s, sep) == [[s[0]] + rest[0]] + rest[1..];
        if |rest| == 1 {
          assert Join(rest, [sep]) == rest[0];
        } else {
          assert Join(rest, [sep]) == rest[0] + [sep] + Join(rest[1..], [sep]);
        }
      }
    }
  }

  /** No piece holds the separator. */
  lemma {:induction false} SplitSansSeparateur(s: string, sep: char)
    ensures forall k :: 0 <= k < |Split(s, sep)| ==> sep !in Split(s, sep)[k]
    decreases |s|
  {
    if |s| > 0 {
      SplitSansSeparateur(s[1..], sep);
      var rest := Split(s[1..], sep);
      if s[0] != sep {
        assert Split(s, sep) == [[s[0]] + rest[0]] + rest[1..];
        assert sep !in [s[0]] + rest[0];
      }
    }
  }

  /** Split of a string given by its first character. */
  lemma SplitTete(c: char, t: string, sep: char)
    ensures Split([c] + t, sep) ==
      if c == sep then [""] + Split(t, sep) else [[c] + Split(t, sep)[0]] + Split(t, sep)[1..]
  {
    assert ([c] + t)[1..] == t;
  }

  /** A separator between two strings: the pieces of the first, then those of the second. */
  lemma {:induction false} SplitSeparateur(a: string, b: string, sep: char)
    ensures Split(a + [sep] + b, sep) == Split(a, sep) + Split(b, sep)
    decreases |a|
  {
    if |a| == 0 {
      assert a + [sep] + b == [sep] + b;
      SplitTete(sep, b, sep);
    } else {
      var t := a[1..] + [sep] + b;
      assert a + [sep] + b == [a[0]] + t;
      assert a == [a[0]] + a[1..];
      SplitTete(a[0], t, sep);
      SplitTete(a[0], a[1..], sep);
      SplitSeparateur(a[1..], b, sep);
      var rest, fin := Split(a[1..], sep), Split(b, sep);
      if a[0] == sep {
        Associativite([""], rest, fin);
      } else {
        assert (rest + fin)[0] == rest[0];
        assert (rest + fin)[1..] == rest[1..] + fin;
        Associativite([[a[0]] + rest[0]], rest[1..], fin);
      }
    }
  }

  lemma Associativite<T>(a: seq<T>, b: seq<T>, c: seq<T>)
    ensures (a + b) + c == a + (b + c)
  {
  }

  // ---- white space ---------------------------------------------------

  /** White space as JavaScript's `\s`, `trim` and parseInt see it: the WhiteSpace and LineTerminator characters. */
  predicate Blanc(c: char)
  {
    c == ' ' || c == '\t' || c == '\n' || c == '\r' || c == '\U{0B}' || c == '\U{0C}' || c == '\U{A0}' ||
    c == '\U{1680}' || ('\U{2000}' <= c <= '\U{200A}') || c == '\U{2028}' || c == '\U{2029}' ||
    c == '\U{202F}' || c == '\U{205F}' || c == '\U{3000}' || c == '\U{FEFF}'
  }

  /** The string without its leading white space. */
  function SauterBlancs(s: string): (r: string)
    ensures |r| <= |s|
  {
    if |s| > 0 && Blanc(s[0]) then SauterBlancs(s[1..]) else s
  }

  /** What SauterBlancs drops is white space, and what it keeps is the rest of the string. */
  lemma {:induction false} SauterBlancsSuffixe(s: string)
    ensures SauterBlancs(s) == s[|s| - |SauterBlancs(s)|..]
    ensures forall k :: 0 <= k < |s| - |SauterBlancs(s)| ==> Blanc(s[k])
    decreases |s|
  {
    if |s| > 0 && Blanc(s[0]) {
      SauterBlancsSuffixe(s[1..]);
    }
  }

  /** SauterBlancs stops at the first character that is not white space. */
  lemma {:induction false} SauterBlancsPropre(s: string)
    ensures |SauterBlancs(s)| > 0 ==> !Blanc(SauterBlancs(s)[0])
    decreases |s|
  {
    if |s| > 0 && Blanc(s[0]) {
      SauterBlancsPropre(s[1..]);
    }
  }

  // ---- casing --------------------------------------------------------

  const ESZETT: char := '\U{DF}'
  const MICRO: char := '\U{B5}'

  /**
   * toUpperCase on one character, as Unicode's case mappings give it for
   * ASCII, Latin-1 and the letters those map to: a lower-case letter of
   * either block 32 code points below it, 'ß' to "SS", 'ÿ' to 'Ÿ' (U+0178),
   * the micro sign and the Greek 'μ' to 'Μ' (U+039C); anything else is kept.
   */
  function Majuscule(c: char): (r: string)
    ensures 1 <= |r| <= 2 && (|r| == 2 <==> c == ESZETT) && ESZETT !in r
  {
    if c == ESZETT then "SS"
    else if c == '\U{FF}' then "\U{178}"
    else if c == MICRO || c == '\U{3BC}' then "\U{39C}"
    else if 'a' <= c <= 'z' || ('\U{E0}' <= c <= '\U{FE}' && c != '\U{F7}') then [(c as int - 32) as char]
    else [c]
  }

  /** toLowerCase on one character, for the capitals Majuscule produces; one character always gives one. */
  function Minuscule(c: char): char
  {
    if 'A' <= c <= 'Z' || ('\U{C0}' <= c <= '\U{DE}' && c != '\U{D7}') then (c as int + 32) as char
    else if c == '\U{178}' then '\U{FF}'
    else if c == '\U{39C}' then '\U{3BC}'
    else c
  }

  /** String.prototype.toUpperCase: the capitals of the characters, in order. */
  function MajusculeTexte(s: string): (r: string)
    ensures |r| >= |s|
    ensures (forall i :: 0 <= i < |s| ==> s[i] != ESZETT) ==> |r| == |s|
  {
    if |s| == 0 then "" else Majuscule(s[0]) + MajusculeTexte(s[1..])
  }

  /** String.prototype.toLowerCase, character by character. */
  function MinusculeTexte(s: string): (r: string)
  {
    seq(|s|, i requires 0 <= i < |s| => Minuscule(s[i]))
  }

  /** Upper-casing a concatenation is the concatenation of the upper-cased parts. */
  lemma {:induction false} MajusculeConcat(a: string, b: string)
    ensures MajusculeTexte(a + b) == MajusculeTexte(a) + MajusculeTexte(b)
    decreases |a|
  {
    if |a| == 0 {
      assert a + b == b;
    } else {
      assert (a + b)[0] == a[0] && (a + b)[1..] == a[1..] + b;
      MajusculeConcat(a[1..], b);
      Associativite(Majuscule(a[0]), MajusculeTexte(a[1..]), MajusculeTexte(b));
    }
  }

  /** Lower-casing a concatenation is the concatenation of the lower-cased parts. */
  lemma MinusculeConcat(a: string, b: string)
    ensures MinusculeTexte(a + b) == MinusculeTexte(a) + MinusculeTexte(b)
  {
  }

  /** A text split after its first character, lower-cased. */
  lemma MinusculeTete(s: string)
    requires |s| > 0
    ensures MinusculeTexte(s) == [Minuscule(s[0])] + MinusculeTexte(s[1..])
  {
  }

  /** Casing one character: each casing is idempotent, and lower-casing first does not change the capitals. */
  lemma CasseCaractere(c: char)
    ensures MajusculeTexte(Majuscule(c)) == Majuscule(c) && Minuscule(Minuscule(c)) == Minuscule(c)
    ensures Majuscule(Minuscule(c)) == Majuscule(c)
    ensures c != ESZETT && c != MICRO ==> MinusculeTexte(Majuscule(c)) == [Minuscule(c)]
  {
    var m := Majuscule(c);
    assert MajusculeTexte(m) == Majuscule(m[0]) + MajusculeTexte(m[1..]);
    if |m| == 2 {
      assert MajusculeTexte(m[1..]) == Majuscule(m[1]) + MajusculeTexte(m[2..]);
    }
  }

  lemma {:induction false} MajusculeIdempotente(s: string)
    ensures MajusculeTexte(MajusculeTexte(s)) == MajusculeTexte(s)
    decreases |s|
  {
    if |s| > 0 {
      MajusculeIdempotente(s[1..]);
      CasseCaractere(s[0]);
      MajusculeConcat(Majuscule(s[0]), MajusculeTexte(s[1..]));
    }
  }

  lemma MinusculeIdempotente(s: string)
    ensures MinusculeTexte(MinusculeTexte(s)) == MinusculeTexte(s)
  {
    var l := MinusculeTexte(s);
    assert forall i :: 0 <= i < |l| ==> MinusculeTexte(l)[i] == Minuscule(Minuscule(s[i])) == l[i];
  }

  lemma {:induction false} MajusculeApresMinuscule(s: string)
    ensures MajusculeTexte(MinusculeTexte(s)) == MajusculeTexte(s)
    decreases |s|
  {
    if |s| > 0 {
      MajusculeApresMinuscule(s[1..]);
      CasseCaractere(s[0]);
      var l := MinusculeTexte(s);
      MinusculeTete(s);
      assert l[0] == Minuscule(s[0]) && l[1..] == MinusculeTexte(s[1..]);
    }
  }

  lemma {:induction false} MinusculeApresMajuscule(s: string)
    requires forall i :: 0 <= i < |s| ==> s[i] != ESZETT && s[i] != MICRO
    ensures MinusculeTexte(MajusculeTexte(s)) == MinusculeTexte(s)
    decreases |s|
  {
    if |s| > 0 {
      assert forall i :: 0 <= i < |s[1..]| ==> s[1..][i] == s[i + 1];
      MinusculeApresMajuscule(s[1..]);
      CasseCaractere(s[0]);
      MinusculeConcat(Majuscule(s[0]), MajusculeTexte(s[1..]));
      MinusculeTete(s);
    }
  }

  /**
   * Upper- and lower-casing are each idempotent on text, and upper-casing
   * after lower-casing gives the capitals alone; lower-casing after
   * upper-casing gives the lower case alone, except for 'ß' and the micro
   * sign, whose capitals lower-case to "ss" and to the Greek 'μ'.
   */
  lemma CasseStable(s: string)
    ensures MajusculeTexte(MajusculeTexte(s)) == MajusculeTexte(s)
    ensures MinusculeTexte(MinusculeTexte(s)) == MinusculeTexte(s)
    ensures MajusculeTexte(MinusculeTexte(s)) == MajusculeTexte(s)
    ensures (forall i :: 0 <= i < |s| ==> s[i] != ESZETT && s[i] != MICRO) ==>
      MinusculeTexte(MajusculeTexte(s)) == MinusculeTexte(s)
  {
    MajusculeIdempotente(s);
    MajusculeApresMinuscule(s);
    MinusculeIdempotente(s);
    if forall i :: 0 <= i < |s| ==> s[i] != ESZETT && s[i] != MICRO {
      MinusculeApresMajuscule(s);
    }
  }

  /** The two exceptions: 'ß' upper-cases to "SS", which lower-cases to "ss"; the micro sign comes back as 'μ'. */
  lemma CasseExceptions()
    ensures MajusculeTexte([ESZETT]) == "SS" && MinusculeTexte(MajusculeTexte([ESZETT])) == "ss"
    ensures MinusculeTexte(MajusculeTexte([MICRO])) == "\U{3BC}"
    ensures MajusculeTexte("Wei\U{DF}") == "WEISS"
  {
    assert MajusculeTexte("Wei\U{DF}") == Majuscule('W') + MajusculeTexte("ei\U{DF}");
    assert MajusculeTexte("ei\U{DF}") == Majuscule('e') + MajusculeTexte("i\U{DF}");
    assert MajusculeTexte("i\U{DF}") == Majuscule('i') + MajusculeTexte([ESZETT]);
  }

  /** A letter and its capital: the two casings are inverse on them. */
  lemma CasseInverse(c: char)
    requires 'a' <= c <= 'z'
    ensures Majuscule(c) != [c] && Majuscule(c) == [Majuscule(c)[0]] && Minuscule(Majuscule(c)[0]) == c
  {
  }
}
