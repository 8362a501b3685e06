// src/core/debug/StatistiquesDebug.ts: execution-time statistics per
// reading stage. Each stage's accumulator keeps a total, a count and the
// longest time; the accumulators are created the first time a stage is seen.
module StatistiquesDebug {

  /** The sum of the recorded times. */
  function Total(h: seq<real>): real
  {
    if |h| == 0 then 0.0 else Total(h[..|h| - 1]) + h[|h| - 1]
  }

  /**
   * The longest time as the accumulator keeps it: it starts at 0 and takes
   * each new time that is strictly greater.
   */
  function PlusLongue(h: seq<real>): (l: real)
    ensures l >= 0.0
  {
    if |h| == 0 then 0.0
    else
      var avant := PlusLongue(h[..|h| - 1]);
      if h[|h| - 1] > avant then h[|h| - 1] else avant
  }

  /** The longest time bounds every recorded time, and is 0 or one of them. */
  lemma {:induction false} PlusLongueMaximum(h: seq<real>)
    ensures forall i :: 0 <= i < |h| ==> h[i] <= PlusLongue(h)
    ensures PlusLongue(h) == 0.0 || exists i :: 0 <= i < |h| && h[i] == PlusLongue(h)
  {
    if |h| > 0 {
      var t := h[..|h| - 1];
      PlusLongueMaximum(t);
      assert forall i :: 0 <= i < |t| ==> h[i] == t[i];
    }
  }

  /** With no negative time, the longest time is at most the total. */
  lemma {:induction false} PlusLongueSousTotal(h: seq<real>)
    requires forall i :: 0 <= i < |h| ==> h[i] >= 0.0
    ensures PlusLongue(h) <= Total(h)
  {
    if |h| > 0 {
      var t := h[..|h| - 1];
      assert forall i :: 0 <= i < |t| ==> t[i] == h[i];
      PlusLongueSousTotal(t);
      assert Total(t) >= 0.0 by { TotalPositif(t); }
    }
  }

  lemma {:induction false} TotalPositif(h: seq<real>)
    requires forall i :: 0 <= i < |h| ==> h[i] >= 0.0
    ensures Total(h) >= 0.0
  {
    if |h| > 0 {
      var t := h[..|h| - 1];
      assert forall i :: 0 <= i < |t| ==> t[i] == h[i];
      TotalPositif(t);
    }
  }

  /** obtenirTempsMoyenMs: 0 when nothing was recorded, the total over the count otherwise. */
  function Moyenne(total: real, nombre: nat): (m: real)
    ensures nombre == 0 ==> m == 0.0
    ensures nombre > 0 ==> m * (nombre as real) == total
  {
    if nombre == 0 then 0.0 else total / (nombre as real)
  }

  /** TempsExecStats: the accumulator of one stage, with the times recorded since the last reset. */
  class TempsExecStats {
    var tempsTotalMs: real
    var nombreExecutions: nat
    var plusLongueMs: real
    ghost var historique: seq<real>

    ghost predicate Valid()
      reads this
    {
      tempsTotalMs == Total(historique) && nombreExecutions == |historique| && plusLongueMs == PlusLongue(historique)
    }

    constructor ()
      ensures Valid() && historique == []
      ensures tempsTotalMs == 0.0 && nombreExecutions == 0 && plusLongueMs == 0.0
    {
      tempsTotalMs, nombreExecutions, plusLongueMs := 0.0, 0, 0.0;
      historique := [];
    }

    /** ajouterExecution: t is added to the total, 1 to the count, and the longest becomes max(longest, t). */
    method AjouterExecution(tempsMs: real)
      requires Valid()
      modifies this
      ensures Valid() && historique == old(historique) + [tempsMs]
      ensures tempsTotalMs == old(tempsTotalMs) + tempsMs && nombreExecutions == old(nombreExecutions) + 1
      ensures plusLongueMs == if tempsMs > old(plusLongueMs) then tempsMs else old(plusLongueMs)
    {
      historique := historique + [tempsMs];
      assert historique[..|historique| - 1] == old(historique);
      tempsTotalMs := tempsTotalMs + tempsMs;
      nombreExecutions := nombreExecutions + 1;
      if tempsMs > plusLongueMs {
        plusLongueMs := tempsMs;
      }
    }

    /** obtenirTempsMoyenMs. */
    function ObtenirTempsMoyenMs(): (m: real)
      reads this
      requires Valid()
      ensures |historique| == 0 ==> m == 0.0
      ensures |historique| > 0 ==> m * (|historique| as real) == Total(historique)
    {
      Moyenne(tempsTotalMs, nombreExecutions)
    }

    /** obtenirPlusLongueMs: never negative, at least every recorded time. */
    function ObtenirPlusLongueMs(): (l: real)
      reads this
      requires Valid()
      ensures l >= 0.0
      ensures forall i :: 0 <= i < |historique| ==> historique[i] <= l
    {
      PlusLongueMaximum(historique);
      plusLongueMs
    }

    /** reset: total, count and longest back to 0. */
    method Reset()
      modifies this
      ensures Valid() && historique == []
      ensures tempsTotalMs == 0.0 && nombreExecutions == 0 && plusLongueMs == 0.0
    {
      tempsTotalMs, nombreExecutions, plusLongueMs := 0.0, 0, 0.0;
      historique := [];
    }
  }

  /** The static map of StatistiquesDebug, from each stage seen to its own accumulator. */
  class StatistiquesDebug<E(==)> {
    var tempsExecLectureStats: map<E, TempsExecStats>
    ghost var Repr: set<TempsExecStats>

    /** Each stage has its own valid accumulator. */
    ghost predicate Valid()
      reads this, Repr
    {
      (forall e :: e in tempsExecLectureStats ==> tempsExecLectureStats[e] in Repr && tempsExecLectureStats[e].Valid()) &&
      forall e1, e2 :: e1 in tempsExecLectureStats && e2 in tempsExecLectureStats && e1 != e2 ==>
        tempsExecLectureStats[e1] != tempsExecLectureStats[e2]
    }

    constructor ()
      ensures Valid() && tempsExecLectureStats == map[]
    {
      tempsExecLectureStats := map[];
      Repr := {};
    }

    /**
     * ajouterTempsExecution: a stage seen for the first time gets a new
     * accumulator; the time is recorded in the stage's accumulator and every
     * other stage keeps its accumulator and what it recorded.
     */
    method AjouterTempsExecution(etape: E, tempsMs: real)
      requires Valid()
      modifies this, Repr
      ensures Valid() && fresh(Repr - old(Repr))
      ensures tempsExecLectureStats.Keys == old(tempsExecLectureStats.Keys) + {etape}
      ensures tempsExecLectureStats[etape].historique ==
        (if etape in old(tempsExecLectureStats) then old(tempsExecLectureStats[etape].historique) else []) + [tempsMs]
      ensures forall e :: e in old(tempsExecLectureStats) && e != etape ==>
        tempsExecLectureStats[e] == old(tempsExecLectureStats[e]) && tempsExecLectureStats[e].historique == old(tempsExecLectureStats[e].historique)
    {
      if etape !in tempsExecLectureStats {
        var s := new TempsExecStats();
        tempsExecLectureStats := tempsExecLectureStats[etape := s];
        Repr := Repr + {s};
      }
      var stats := tempsExecLectureStats[etape];
      stats.AjouterExecution(tempsMs);
    }
  }
}
