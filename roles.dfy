/**
 * The role of a call-center worker (Rol.java): a role name is mapped, ignoring
 * case, to a pair (attention priority, canonical role name).
 */
module Roles {

  const DIRECTOR: string := "DIRECTOR"
  const OPERADOR: string := "OPERADOR"
  const SUPERVISOR: string := "SUPERVISOR"

  const PRIORIDAD_DIRECTOR: int := 1
  const PRIORIDAD_SUPERVISOR: int := 2
  const PRIORIDAD_OPERADOR: int := 3

  /** A role as built by the constructor; both fields are fixed afterwards,
      so the getters getPrioridadAtencion and getNombreRol are the two
      destructors. */
  datatype Rol = Rol(prioridadAtencion: int, nombreRol: string)

  /** The three roles the constructor can produce, each name with its own priority. */
  predicate WellFormed(r: Rol) {
    || (r.prioridadAtencion == PRIORIDAD_DIRECTOR && r.nombreRol == DIRECTOR)
    || (r.prioridadAtencion == PRIORIDAD_SUPERVISOR && r.nombreRol == SUPERVISOR)
    || (r.prioridadAtencion == PRIORIDAD_OPERADOR && r.nombreRol == OPERADOR)
  }

  // ASCII case mapping; other characters have no case here.
  function ToUpperAscii(c: char): char {
    if 'a' <= c <= 'z' then (c as int - 32) as char else c
  }

  function ToLowerAscii(c: char): char {
    if 'A' <= c <= 'Z' then (c as int + 32) as char else c
  }

  /** The per-character test of String.regionMatches with ignoreCase set:
      equal, or equal upper cases, or equal lower cases of the upper cases. */
  predicate CharEqualsIgnoreCase(c1: char, c2: char)
    ensures c1 == c2 ==> CharEqualsIgnoreCase(c1, c2)
    ensures CharEqualsIgnoreCase(c1, c2) ==> ToUpperAscii(c1) == ToUpperAscii(c2)
  {
    || c1 == c2
    || ToUpperAscii(c1) == ToUpperAscii(c2)
    || ToLowerAscii(ToUpperAscii(c1)) == ToLowerAscii(ToUpperAscii(c2))
  }

  /** String.equalsIgnoreCase on a non-null argument. */
  predicate EqualsIgnoreCase(a: string, b: string)
    ensures a == b ==> EqualsIgnoreCase(a, b)
    ensures EqualsIgnoreCase(a, b) ==> |a| == |b|
  {
    |a| == |b| && forall i :: 0 <= i < |a| ==> CharEqualsIgnoreCase(a[i], b[i])
  }

  /** Reference view of case-insensitivity: upper-case every character. */
  function UpperCase(s: string): (u: string)
    ensures |u| == |s|
    ensures forall i :: 0 <= i < |s| ==> u[i] == ToUpperAscii(s[i])
  {
    seq(|s|, i requires 0 <= i < |s| => ToUpperAscii(s[i]))
  }

  lemma CharEqualsIgnoreCaseIsUpperEquality(c1: char, c2: char)
    ensures CharEqualsIgnoreCase(c1, c2) <==> ToUpperAscii(c1) == ToUpperAscii(c2)
  {
  }

  /** Two strings are equal ignoring case exactly when their upper cases are equal. */
  lemma EqualsIgnoreCaseIsUpperEquality(a: string, b: string)
    ensures EqualsIgnoreCase(a, b) <==> UpperCase(a) == UpperCase(b)
  {
    if |a| == |b| {
      forall i | 0 <= i < |a|
        ensures CharEqualsIgnoreCase(a[i], b[i]) <==> UpperCase(a)[i] == UpperCase(b)[i]
      {
        CharEqualsIgnoreCaseIsUpperEquality(a[i], b[i]);
      }
      if UpperCase(a) != UpperCase(b) {
        var k :| 0 <= k < |a| && UpperCase(a)[k] != UpperCase(b)[k];
        assert !CharEqualsIgnoreCase(a[k], b[k]);
      }
    } else {
      assert |UpperCase(a)| != |UpperCase(b)|;
    }
  }

  /** The constructor Rol(String): DIRECTOR and SUPERVISOR are recognised
      ignoring case, anything else falls back to OPERADOR. */
  function NewRol(nombreRol: string): (r: Rol)
    ensures WellFormed(r)
  {
    if EqualsIgnoreCase(nombreRol, DIRECTOR) then Rol(PRIORIDAD_DIRECTOR, DIRECTOR)
    else if EqualsIgnoreCase(nombreRol, SUPERVISOR) then Rol(PRIORIDAD_SUPERVISOR, SUPERVISOR)
    else Rol(PRIORIDAD_OPERADOR, OPERADOR)
  }

  /** Independent reference definition of the mapping, by upper-casing. */
  function ReferenceRol(nombreRol: string): Rol {
    var u := UpperCase(nombreRol);
    if u == DIRECTOR then Rol(1, "DIRECTOR")
    else if u == SUPERVISOR then Rol(2, "SUPERVISOR")
    else Rol(3, "OPERADOR")
  }

  lemma UpperCaseOfCanonicalNames()
    ensures UpperCase(DIRECTOR) == DIRECTOR
    ensures UpperCase(SUPERVISOR) == SUPERVISOR
    ensures UpperCase(OPERADOR) == OPERADOR
  {
    assert UpperCase(DIRECTOR) == DIRECTOR;
    assert UpperCase(SUPERVISOR) == SUPERVISOR;
    assert UpperCase(OPERADOR) == OPERADOR;
  }

  /** The constructor agrees with the reference mapping on every string:
      "DIRECTOR" in any case gives 1, "SUPERVISOR" in any case gives 2, and
      every other string, the empty one included, gives 3/OPERADOR. */
  lemma NewRolMatchesReference(nombreRol: string)
    ensures NewRol(nombreRol) == ReferenceRol(nombreRol)
  {
    UpperCaseOfCanonicalNames();
    EqualsIgnoreCaseIsUpperEquality(nombreRol, DIRECTOR);
    EqualsIgnoreCaseIsUpperEquality(nombreRol, SUPERVISOR);
  }

  /** Building a role from a role's own canonical name gives that role back. */
  lemma NewRolIdempotent(nombreRol: string)
    ensures NewRol(NewRol(nombreRol).nombreRol) == NewRol(nombreRol)
  {
    var r := NewRol(nombreRol);
    NewRolMatchesReference(r.nombreRol);
    UpperCaseOfCanonicalNames();
  }

  /** Priority and name determine each other among the roles the constructor builds. */
  lemma PriorityDeterminesName(r1: Rol, r2: Rol)
    requires WellFormed(r1) && WellFormed(r2)
    ensures r1.prioridadAtencion == r2.prioridadAtencion <==> r1.nombreRol == r2.nombreRol
  {
  }
}
