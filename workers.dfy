/**
 * A call-center worker (Empleado.java): an id and a role, ordered for the
 * available-worker priority queue by its compareTo.
 */
module Workers {
  import opened Roles

  /** id and rol are set once by the constructor; getId and getRol are the destructors. */
  datatype Empleado = Empleado(id: int, rol: Rol) {
    function Prioridad(): int { rol.prioridadAtencion }
  }

  /** The constructor Empleado(int, String): keeps the id and maps the role name. */
  function NewEmpleado(id: int, nombreRol: string): (e: Empleado)
    ensures e.id == id
    ensures WellFormed(e.rol) && e.rol == ReferenceRol(nombreRol)
  {
    NewRolMatchesReference(nombreRol);
    Empleado(id, NewRol(nombreRol))
  }

  /** Integer.compare: the sign of x - y, as -1, 0 or 1. */
  function IntegerCompare(x: int, y: int): (r: int)
    ensures r in {-1, 0, 1}
    ensures r < 0 <==> x < y
    ensures r == 0 <==> x == y
  {
    if x < y then -1 else if x == y then 0 else 1
  }

  /** compareTo compares the OTHER worker's priority against this one's, so in
      queue order a worker comes first when its priority number is larger. */
  function CompareTo(a: Empleado, o: Empleado): (r: int)
    ensures r in {-1, 0, 1}
    ensures r < 0 <==> a.Prioridad() > o.Prioridad()
    ensures r == 0 <==> a.Prioridad() == o.Prioridad()
    ensures r > 0 <==> a.Prioridad() < o.Prioridad()
  {
    IntegerCompare(o.rol.prioridadAtencion, a.rol.prioridadAtencion)
  }

  /** Equal priorities compare as equal whatever the ids. */
  lemma CompareToIgnoresId(a: Empleado, b: Empleado)
    requires a.Prioridad() == b.Prioridad()
    ensures CompareTo(a, b) == 0 && CompareTo(b, a) == 0
  {
  }

  lemma CompareToAntisymmetric(a: Empleado, b: Empleado)
    ensures CompareTo(a, b) == -CompareTo(b, a)
  {
  }

  /** compareTo is a total preorder: transitive, with a strict step staying strict. */
  lemma CompareToTransitive(a: Empleado, b: Empleado, c: Empleado)
    ensures CompareTo(a, b) <= 0 && CompareTo(b, c) <= 0 ==> CompareTo(a, c) <= 0
    ensures CompareTo(a, b) < 0 && CompareTo(b, c) <= 0 ==> CompareTo(a, c) < 0
    ensures CompareTo(a, b) <= 0 || CompareTo(b, a) <= 0
  {
  }

  /** In queue order operators come before supervisors, and supervisors before directors. */
  lemma QueueOrderOfRoles(i: int, j: int, k: int)
    ensures CompareTo(NewEmpleado(i, OPERADOR), NewEmpleado(j, SUPERVISOR)) < 0
    ensures CompareTo(NewEmpleado(j, SUPERVISOR), NewEmpleado(k, DIRECTOR)) < 0
  {
    UpperCaseOfCanonicalNames();
  }

  /** The worker a PriorityBlockingQueue over `pool` hands out: it is in the
      pool and no worker of the pool comes before it. */
  predicate IsQueueHead(e: Empleado, pool: multiset<Empleado>)
    ensures IsQueueHead(e, pool) ==> e in pool && forall v :: v in pool ==> v.Prioridad() <= e.Prioridad()
  {
    e in pool && forall v :: v in pool ==> CompareTo(e, v) <= 0
  }

  /** The head is a worker of the pool with the largest priority number. */
  lemma QueueHeadHasLargestPriority(e: Empleado, pool: multiset<Empleado>)
    ensures IsQueueHead(e, pool) <==> e in pool && forall v :: v in pool ==> v.Prioridad() <= e.Prioridad()
  {
  }

  /** Every non-empty pool has a head. */
  lemma {:induction false} QueueHeadExists(pool: multiset<Empleado>)
    requires pool != multiset{}
    ensures exists e :: IsQueueHead(e, pool)
  {
    var x :| x in pool;
    var rest := pool - multiset{x};
    if rest == multiset{} {
      assert pool == multiset{x};
      assert IsQueueHead(x, pool);
    } else {
      QueueHeadExists(rest);
      var h :| IsQueueHead(h, rest);
      assert pool == rest + multiset{x};
      if CompareTo(h, x) <= 0 {
        assert IsQueueHead(h, pool);
      } else {
        forall v | v in pool ensures CompareTo(x, v) <= 0 {
          if v != x { CompareToTransitive(x, h, v); }
        }
        assert IsQueueHead(x, pool);
      }
    }
  }
}
