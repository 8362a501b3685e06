// src/cache/roles/Role.ts: a role and its permission bitmask. Bitwise `&`
// in JavaScript works on 32-bit integers, so masks are bv32.
module Role {

  /** RolePermissions: AUCUNE and one bit per permission. */
  const AUCUNE: bv32 := 0
  const ADMINISTRATEUR: bv32 := 1 << 0
  const LECTURE_SEULE: bv32 := 1 << 1
  const MODIFIER_SESSIONS: bv32 := 1 << 2
  const DEPOSER_COPIES: bv32 := 1 << 3
  const RESOUDRE_INCIDENTS: bv32 := 1 << 4
  const MODIFIER_NOTES: bv32 := 1 << 5
  const GERER_UTILISATEURS: bv32 := 1 << 6

  const PERMISSIONS: seq<bv32> := [ADMINISTRATEUR, LECTURE_SEULE, MODIFIER_SESSIONS, DEPOSER_COPIES,
                                   RESOUDRE_INCIDENTS, MODIFIER_NOTES, GERER_UTILISATEURS]

  /** A single bit. */
  predicate UnSeulBit(f: bv32)
  {
    f != 0 && f & (f - 1) == 0
  }

  /** The flags are powers of two, pairwise disjoint, hence distinct. */
  lemma FlagsDisjoints()
    ensures forall i :: 0 <= i < |PERMISSIONS| ==> UnSeulBit(PERMISSIONS[i])
    ensures forall i, j :: 0 <= i < j < |PERMISSIONS| ==> PERMISSIONS[i] & PERMISSIONS[j] == 0
  {
  }

  /** `((permissions & permission) === permission) || (permissions === ADMINISTRATEUR)`. */
  predicate Autorise(permissions: bv32, permission: bv32)
  {
    (permissions & permission) == permission || permissions == ADMINISTRATEUR
  }

  /** A role: its id, its name and its permission mask, as read from its row. */
  datatype Role = Role(id: int, nom: string, permissions: bv32)
  {
    /** permet: every bit of the permission is granted, or the role is exactly the administrator. */
    predicate Permet(permission: bv32)
    {
      Autorise(permissions, permission)
    }
  }

  /** The administrator mask allows everything. */
  lemma AdministrateurPermetTout(r: Role, p: bv32)
    requires r.permissions == ADMINISTRATEUR
    ensures r.Permet(p)
  {
  }

  /** AUCUNE is allowed to every role. */
  lemma AucuneToujoursPermise(r: Role)
    ensures r.Permet(AUCUNE)
  {
  }

  /** A combined permission is allowed only if each part is. */
  lemma PermetUnion(r: Role, p: bv32, q: bv32)
    requires r.Permet(p | q)
    ensures r.Permet(p) && r.Permet(q)
  {
    AutoriseUnionParties(r.permissions, p, q);
  }

  /** Both parts allowed: the combination is allowed. */
  lemma UnionPermise(r: Role, p: bv32, q: bv32)
    requires r.Permet(p) && r.Permet(q)
    ensures r.Permet(p | q)
  {
    AutorisePartiesUnion(r.permissions, p, q);
  }

  lemma AutoriseUnionParties(a: bv32, p: bv32, q: bv32)
    requires Autorise(a, p | q)
    ensures Autorise(a, p) && Autorise(a, q)
  {
    if a != ADMINISTRATEUR {
      MasqueUnionParties(a, p, q);
    }
  }

  lemma AutorisePartiesUnion(a: bv32, p: bv32, q: bv32)
    requires Autorise(a, p) && Autorise(a, q)
    ensures Autorise(a, p | q)
  {
    if a != ADMINISTRATEUR {
      MasquePartiesUnion(a, p, q);
    }
  }

  lemma MasqueUnionParties(a: bv32, p: bv32, q: bv32)
    requires a & (p | q) == p | q
    ensures a & p == p && a & q == q
  {
  }

  lemma MasquePartiesUnion(a: bv32, p: bv32, q: bv32)
    requires a & p == p && a & q == q
    ensures a & (p | q) == p | q
  {
  }

  /** For a single flag, permet is exactly: the flag's bit is set, or the role is the administrator. */
  lemma PermetUnFlag(r: Role, f: bv32)
    requires UnSeulBit(f)
    ensures r.Permet(f) <==> (r.permissions & f != 0 || r.permissions == ADMINISTRATEUR)
  {
  }

  /**
   * The administrator test is an equality: the administrator bit together
   * with another bit grants only the bits that are set.
   */
  lemma AdministrateurEtAutres()
    ensures !Role(0, "", ADMINISTRATEUR | LECTURE_SEULE).Permet(MODIFIER_SESSIONS)
  {
  }
}
