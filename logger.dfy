// src/utils/logger.ts: console log lines "[HH:MM:SS] TITLE | message"
// with ANSI colours. The wall clock is a parameter (the hours, minutes
// and seconds of the current time); printing the line is left out.
module Logger {
  import opened Texte

  /** styles.reset and the colours the logger uses, each opening with the escape character U+001B. */
  const RESET: string := "\U{1B}[0m"
  const FG_BLACK: string := "\U{1B}[30m"
  const FG_RED: string := "\U{1B}[31m"
  const FG_YELLOW: string := "\U{1B}[33m"
  const FG_CYAN: string := "\U{1B}[36m"
  const FG_WHITE: string := "\U{1B}[37m"
  const BG_WHITE: string := "\U{1B}[47m"

  /** The width the title is padded to. */
  const LARGEUR_TITRE: nat := 18

  /** One clock component: a leading '0' below 10, the number itself otherwise. */
  function Composante(n: nat): string
  {
    if n < 10 then "0" + NatToString(n) else NatToString(n)
  }

  /** A clock component (below 100) is two decimal digits that read back as it. */
  lemma ComposanteDeuxChiffres(n: nat)
    requires n < 100
    ensures var c := Composante(n);
      |c| == 2 && '0' <= c[0] <= '9' && '0' <= c[1] <= '9' &&
      DigitsValue(c) == n && (n >= 10 ==> c == NatToString(n))
  {
    var c := Composante(n);
    if n < 10 {
      assert c == ['0', Digit(n)];
      assert c[..1] == "0";
      assert DigitsValue(c[..1]) == DigitsValue("0"[..0]) * 10 + 0;
    } else {
      TwoDigits(n);
      NatToStringRoundTrip(n);
    }
  }

  /** "[HH:MM:SS]": the components joined by ':' inside brackets. */
  function Horodatage(h: nat, m: nat, s: nat): string
  {
    "[" + Join([Composante(h), Composante(m), Composante(s)], ":") + "]"
  }

  /** With components below 100 the stamp is ten characters, each component at a fixed place. */
  lemma HorodatageForme(h: nat, m: nat, s: nat)
    requires h < 100 && m < 100 && s < 100
    ensures var r := Horodatage(h, m, s);
      |r| == 10 && r[0] == '[' && r[3] == ':' && r[6] == ':' && r[9] == ']' &&
      r[1..3] == Composante(h) && r[4..6] == Composante(m) && r[7..9] == Composante(s)
  {
    ComposanteDeuxChiffres(h);
    ComposanteDeuxChiffres(m);
    ComposanteDeuxChiffres(s);
    Crochets(Composante(h), Composante(m), Composante(s));
  }

  /** Three two-character parts joined by ':' in brackets, each read back at its place. */
  lemma Crochets(a: string, b: string, c: string)
    requires |a| == 2 && |b| == 2 && |c| == 2
    ensures var r := "[" + Join([a, b, c], ":") + "]";
      |r| == 10 && r[0] == '[' && r[3] == ':' && r[6] == ':' && r[9] == ']' &&
      r[1..3] == a && r[4..6] == b && r[7..9] == c
  {
    assert [a, b, c][1..] == [b, c] && [b, c][1..] == [c];
    assert Join([b, c], ":") == b + ":" + c;
    var r := "[" + Join([a, b, c], ":") + "]";
    assert r == "[" + a + ":" + b + ":" + c + "]";
  }

  /** The part before the title: the stamp in black on white, reset, and a space. */
  function EnteteHorloge(h: nat, m: nat, s: nat): string
  {
    FG_BLACK + BG_WHITE + Horodatage(h, m, s) + RESET + " "
  }

  /** logHeader: stamp, the title padded to 18 in its colour, reset, " | ", then white. */
  function LogHeader(titre: string, styleTitre: string, h: nat, m: nat, s: nat): string
  {
    EnteteHorloge(h, m, s) + styleTitre + PadStart(titre, LARGEUR_TITRE) + RESET + " | " + FG_WHITE
  }

  /**
   * The header opens on the black-on-white stamp; after the title's colour
   * code comes the title, right-aligned on 18 characters with spaces and
   * never cut; it ends with reset, " | " and the white colour code.
   */
  lemma LogHeaderForme(titre: string, styleTitre: string, h: nat, m: nat, s: nat)
    ensures var r, k := LogHeader(titre, styleTitre, h, m, s), |EnteteHorloge(h, m, s)| + |styleTitre|;
      var largeur := if |titre| >= LARGEUR_TITRE then |titre| else LARGEUR_TITRE;
      |r| == k + largeur + 12 &&
      r[..11] == FG_BLACK + BG_WHITE + "[" &&
      r[k - |styleTitre|..k] == styleTitre &&
      (forall i :: k <= i < k + largeur - |titre| ==> r[i] == ' ') &&
      r[k + largeur - |titre|..k + largeur] == titre &&
      r[k + largeur..] == RESET + " | " + FG_WHITE
  {
    var e := EnteteHorloge(h, m, s);
    EnteteOuvre(h, m, s);
    Disposition(e, styleTitre, titre);
  }

  /** The clock part opens on the black and white codes and the stamp's '['. */
  lemma EnteteOuvre(h: nat, m: nat, s: nat)
    ensures |EnteteHorloge(h, m, s)| >= 11 && EnteteHorloge(h, m, s)[..11] == FG_BLACK + BG_WHITE + "["
  {
    var d := FG_BLACK + BG_WHITE + "[";
    var e := EnteteHorloge(h, m, s);
    assert e == d + (Join([Composante(h), Composante(m), Composante(s)], ":") + "]" + RESET + " ");
  }

  /** The places of the parts of a header, whatever the clock part. */
  lemma Disposition(e: string, styleTitre: string, titre: string)
    requires |e| >= 11
    ensures var r, k := e + styleTitre + PadStart(titre, LARGEUR_TITRE) + RESET + " | " + FG_WHITE, |e| + |styleTitre|;
      var largeur := if |titre| >= LARGEUR_TITRE then |titre| else LARGEUR_TITRE;
      |r| == k + largeur + 12 &&
      r[..11] == e[..11] &&
      r[k - |styleTitre|..k] == styleTitre &&
      (forall i :: k <= i < k + largeur - |titre| ==> r[i] == ' ') &&
      r[k + largeur - |titre|..k + largeur] == titre &&
      r[k + largeur..] == RESET + " | " + FG_WHITE
  {
    var p := PadStart(titre, LARGEUR_TITRE);
    var fin := RESET + " | " + FG_WHITE;
    var r := e + styleTitre + p + RESET + " | " + FG_WHITE;
    var k := |e| + |styleTitre|;
    assert r == (e + styleTitre) + p + fin;
    assert r[k..k + |p|] == p;
    assert r[k + |p| - |titre|..k + |p|] == p[|p| - |titre|..];
  }

  /**
   * Headers are aligned: with components below 100, titles of at most 18
   * characters and colour codes of equal length, every header has the
   * same length, so messages start in the same column.
   */
  lemma EntetesAlignes(t1: string, t2: string, st1: string, st2: string,
                       h1: nat, m1: nat, s1: nat, h2: nat, m2: nat, s2: nat)
    requires |t1| <= LARGEUR_TITRE && |t2| <= LARGEUR_TITRE && |st1| == |st2|
    requires h1 < 100 && m1 < 100 && s1 < 100 && h2 < 100 && m2 < 100 && s2 < 100
    ensures |LogHeader(t1, st1, h1, m1, s1)| == |LogHeader(t2, st2, h2, m2, s2)|
  {
    HorodatageForme(h1, m1, s1);
    HorodatageForme(h2, m2, s2);
  }

  /** A log line: the header, the message, and a reset. */
  function LogLigne(titre: string, message: string, styleTitre: string, h: nat, m: nat, s: nat): string
  {
    LogHeader(titre, styleTitre, h, m, s) + message + RESET
  }

  /** logInfo, logWarn and logError: the title in cyan, yellow and red. */
  function LogInfo(titre: string, message: string, h: nat, m: nat, s: nat): string
  {
    LogLigne(titre, message, FG_CYAN, h, m, s)
  }

  function LogWarn(titre: string, message: string, h: nat, m: nat, s: nat): string
  {
    LogLigne(titre, message, FG_YELLOW, h, m, s)
  }

  function LogError(titre: string, message: string, h: nat, m: nat, s: nat): string
  {
    LogLigne(titre, message, FG_RED, h, m, s)
  }

  /** The message is found unchanged between the header and the final reset. */
  lemma MessageIntact(titre: string, message: string, styleTitre: string, h: nat, m: nat, s: nat)
    ensures var l, k := LogLigne(titre, message, styleTitre, h, m, s), |LogHeader(titre, styleTitre, h, m, s)|;
      l[..k] == LogHeader(titre, styleTitre, h, m, s) && l[k..|l| - |RESET|] == message && l[|l| - |RESET|..] == RESET
  {
    var l, e := LogLigne(titre, message, styleTitre, h, m, s), LogHeader(titre, styleTitre, h, m, s);
    assert l == e + message + RESET;
  }

  /**
   * The three levels write the same line except for the five characters
   * of the title's colour code, and those codes differ, so the lines of
   * two levels always differ.
   */
  lemma NiveauxParCouleur(titre: string, message: string, h: nat, m: nat, s: nat)
    ensures var i, w, e, k := LogInfo(titre, message, h, m, s), LogWarn(titre, message, h, m, s),
                              LogError(titre, message, h, m, s), |EnteteHorloge(h, m, s)|;
      |i| == |w| == |e| &&
      i[..k] == w[..k] == e[..k] && i[k + 5..] == w[k + 5..] == e[k + 5..] &&
      i[k..k + 5] == FG_CYAN && w[k..k + 5] == FG_YELLOW && e[k..k + 5] == FG_RED &&
      i != w && w != e && i != e
  {
    var x, p := EnteteHorloge(h, m, s), Reste(titre, message);
    LigneParStyle(titre, message, FG_CYAN, h, m, s);
    LigneParStyle(titre, message, FG_YELLOW, h, m, s);
    LigneParStyle(titre, message, FG_RED, h, m, s);
    Encadre(x, FG_CYAN, p);
    Encadre(x, FG_YELLOW, p);
    Encadre(x, FG_RED, p);
    assert FG_CYAN[3] == '6' && FG_YELLOW[3] == '3' && FG_RED[3] == '1';
  }

  /** What follows the title's colour code in a line. */
  function Reste(titre: string, message: string): string
  {
    PadStart(titre, LARGEUR_TITRE) + RESET + " | " + FG_WHITE + message + RESET
  }

  lemma LigneParStyle(titre: string, message: string, styleTitre: string, h: nat, m: nat, s: nat)
    ensures LogLigne(titre, message, styleTitre, h, m, s) == EnteteHorloge(h, m, s) + styleTitre + Reste(titre, message)
  {
  }

  /** The three parts of x + c + p can be read back at their places. */
  lemma Encadre(x: string, c: string, p: string)
    ensures var l := x + c + p;
      |l| == |x| + |c| + |p| && l[..|x|] == x && l[|x|..|x| + |c|] == c && l[|x| + |c|..] == p
  {
  }
}
