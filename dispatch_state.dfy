/**
 * The state of the dispatcher (Dispatcher.java) as a value, and each of its
 * atomic steps as a function from state to state. The class in dispatcher.dfy
 * is proved to follow these steps; the lemmas here prove what the steps keep.
 *
 * Besides the fields of Dispatcher the state records the outstanding
 * handlings (Empleado.atenderLlamada plus the thenAccept callback), from call
 * id to the worker the handling hands back, and three bookkeeping values: all
 * workers ever added, and the calls and workers dropped when adding to the
 * full in-flight queue throws.
 */
module DispatchState {
  import opened Roles
  import opened Workers

  /** The capacity of the ArrayBlockingQueue of calls in flight. */
  const CAPACIDAD: nat := 10

  /** Kinds of log entries. */
  const ASIGNACION: int := 0
  const FINALIZACION: int := 1

  /** One log entry: a worker, a call id and its kind. */
  datatype Resultado = Resultado(empleado: Empleado, llamada: int, tipo: int)

  // ---------------------------------------------------------------------------
  // Call ids

  /** The ids 1..n. */
  ghost function Ids(n: int): set<int> {
    if n <= 0 then {} else Ids(n - 1) + {n}
  }

  lemma {:induction false} IdsMembers(n: int, c: int)
    ensures c in Ids(n) <==> 1 <= c <= n
  {
    if n > 0 { IdsMembers(n - 1, c); }
  }

  lemma {:induction false} IdsCardinality(n: nat)
    ensures |Ids(n)| == n
  {
    if n > 0 {
      IdsMembers(n - 1, n);
      IdsCardinality(n - 1);
    }
  }

  /** Id x is one of the ids 1..n issued so far. */
  predicate Issued(x: int, n: int) {
    1 <= x <= n
  }

  /** Three pairwise disjoint sets that together are the ids 1..n. */
  ghost predicate Partitioned(a: set<int>, b: set<int>, c: set<int>, n: int) {
    a !! b && a !! c && b !! c && forall x :: x in a + b + c <==> Issued(x, n)
  }

  // ---------------------------------------------------------------------------
  // The in-flight queue

  ghost predicate Distinct(s: seq<int>) {
    forall i, j :: 0 <= i < j < |s| ==> s[i] != s[j]
  }

  /** ArrayBlockingQueue.remove(Object): drops the first occurrence of x, if any. */
  function Remove(s: seq<int>, x: int): (r: seq<int>)
    ensures x in s ==> |r| == |s| - 1
    ensures x !in s ==> r == s
  {
    if s == [] then []
    else if s[0] == x then
      assert s == [s[0]] + s[1..];
      s[1..]
    else
      assert s == [s[0]] + s[1..];
      [s[0]] + Remove(s[1..], x)
  }

  /** Remove takes away exactly one occurrence of x, when there is one. */
  lemma {:induction false} RemoveOneOccurrence(s: seq<int>, x: int)
    ensures multiset(Remove(s, x)) == multiset(s) - multiset{x}
  {
    if s != [] {
      assert s == [s[0]] + s[1..];
      if s[0] != x {
        RemoveOneOccurrence(s[1..], x);
      }
    }
  }

  /** Removing from a sequence without repetitions keeps it without repetitions
      and removes the element entirely. */
  lemma {:induction false} RemoveDistinct(s: seq<int>, x: int)
    requires Distinct(s)
    ensures Distinct(Remove(s, x))
    ensures forall y :: y in Remove(s, x) <==> y in s && y != x
  {
    if s == [] {
    } else if s[0] == x {
      assert Remove(s, x) == s[1..];
      forall y ensures y in s[1..] <==> y in s && y != x {
        if y in s[1..] {
          var k :| 0 <= k < |s[1..]| && s[1..][k] == y;
          assert s[k + 1] == y;
        }
        if y in s && y != x {
          var k :| 0 <= k < |s| && s[k] == y;
          assert s[1..][k - 1] == y;
        }
      }
    } else {
      var tail := s[1..];
      assert Distinct(tail);
      RemoveDistinct(tail, x);
      var r := Remove(s, x);
      assert r == [s[0]] + Remove(tail, x);
      assert s[0] !in tail;
      forall i, j | 0 <= i < j < |r| ensures r[i] != r[j] {
        if i == 0 {
          assert r[j] == Remove(tail, x)[j - 1];
          assert r[j] in Remove(tail, x);
        } else {
          assert r[i] == Remove(tail, x)[i - 1] && r[j] == Remove(tail, x)[j - 1];
        }
      }
      assert s == [s[0]] + tail;
    }
  }

  ghost predicate InDomain(s: seq<int>, m: map<int, Empleado>) {
    forall i :: 0 <= i < |s| ==> s[i] in m
  }

  /** The workers busy with the in-flight calls s. */
  ghost function Busy(s: seq<int>, m: map<int, Empleado>): multiset<Empleado>
    requires InDomain(s, m)
  {
    if s == [] then multiset{} else multiset{m[s[0]]} + Busy(s[1..], m)
  }

  /** As many busy workers as calls in flight. */
  lemma {:induction false} BusySize(s: seq<int>, m: map<int, Empleado>)
    requires InDomain(s, m)
    ensures |Busy(s, m)| == |s|
  {
    if s != [] { BusySize(s[1..], m); }
  }

  lemma {:induction false} BusyFrame(s: seq<int>, m1: map<int, Empleado>, m2: map<int, Empleado>)
    requires forall i :: 0 <= i < |s| ==> s[i] in m1 && s[i] in m2 && m1[s[i]] == m2[s[i]]
    ensures InDomain(s, m1) && InDomain(s, m2)
    ensures Busy(s, m1) == Busy(s, m2)
  {
    if s != [] { BusyFrame(s[1..], m1, m2); }
  }

  /** Starting a call c with worker e adds e to the busy workers. */
  lemma {:induction false} BusyAppend(s: seq<int>, m: map<int, Empleado>, c: int, e: Empleado)
    requires InDomain(s, m)
    requires c !in s
    ensures InDomain(s + [c], m[c := e])
    ensures Busy(s + [c], m[c := e]) == Busy(s, m) + multiset{e}
  {
    if s == [] {
      assert s + [c] == [c];
    } else {
      assert s[0] != c;
      assert (s + [c])[0] == s[0] && (s + [c])[1..] == s[1..] + [c];
      BusyAppend(s[1..], m, c, e);
    }
  }

  /** Ending the in-flight call c frees exactly the worker that handled it. */
  lemma {:induction false} BusyRemove(s: seq<int>, m: map<int, Empleado>, c: int)
    requires InDomain(s, m)
    requires Distinct(s) && c in s
    ensures InDomain(Remove(s, c), m - {c})
    ensures Busy(s, m) == Busy(Remove(s, c), m - {c}) + multiset{m[c]}
  {
    var r := Remove(s, c);
    RemoveDistinct(s, c);
    forall i | 0 <= i < |r| ensures r[i] in m - {c} {
      assert r[i] in r;
      var k :| 0 <= k < |s| && s[k] == r[i];
    }
    if s[0] == c {
      assert r == s[1..];
      BusyFrame(s[1..], m, m - {c});
    } else {
      assert Distinct(s[1..]);
      BusyRemove(s[1..], m, c);
      assert r == [s[0]] + Remove(s[1..], c);
      assert r[1..] == Remove(s[1..], c);
    }
  }

  // ---------------------------------------------------------------------------
  // The result log

  /** Calls with a completion entry in the log. */
  ghost function Finalizadas(log: seq<Resultado>): set<int> {
    if log == [] then {}
    else
      var last := log[|log| - 1];
      Finalizadas(log[..|log| - 1]) + (if last.tipo == FINALIZACION then {last.llamada} else {})
  }

  /** Number of completion entries in the log (what the test counts). */
  function CountFinalizaciones(log: seq<Resultado>): nat {
    if log == [] then 0
    else CountFinalizaciones(log[..|log| - 1]) + (if log[|log| - 1].tipo == FINALIZACION then 1 else 0)
  }

  /** The shape every log keeps: two kinds of entry; each completion is
      preceded by the assignment of the same call to the same worker; the
      assigned ids are increasing and among 1..n. */
  ghost predicate LogWellFormed(log: seq<Resultado>, n: int) {
    && (forall j :: 0 <= j < |log| ==> log[j].tipo == ASIGNACION || log[j].tipo == FINALIZACION)
    && (forall j :: 0 <= j < |log| && log[j].tipo == FINALIZACION ==>
          Resultado(log[j].empleado, log[j].llamada, ASIGNACION) in log[..j])
    && (forall j :: 0 <= j < |log| && log[j].tipo == ASIGNACION ==> 1 <= log[j].llamada <= n)
    && (forall i, j :: 0 <= i < j < |log| && log[i].tipo == ASIGNACION && log[j].tipo == ASIGNACION ==>
          log[i].llamada < log[j].llamada)
  }

  /** Logging the assignment of the next id keeps the log well formed. */
  lemma LogAppendAsignacion(log: seq<Resultado>, n: nat, e: Empleado)
    requires LogWellFormed(log, n)
    ensures LogWellFormed(log + [Resultado(e, n + 1, ASIGNACION)], n + 1)
    ensures Finalizadas(log + [Resultado(e, n + 1, ASIGNACION)]) == Finalizadas(log)
    ensures CountFinalizaciones(log + [Resultado(e, n + 1, ASIGNACION)]) == CountFinalizaciones(log)
  {
    var log' := log + [Resultado(e, n + 1, ASIGNACION)];
    assert log'[..|log|] == log;
    forall j | 0 <= j < |log'| && log'[j].tipo == FINALIZACION
      ensures Resultado(log'[j].empleado, log'[j].llamada, ASIGNACION) in log'[..j]
    {
      assert log'[..j] == log[..j];
    }
    forall i, j | 0 <= i < j < |log'| && log'[i].tipo == ASIGNACION && log'[j].tipo == ASIGNACION
      ensures log'[i].llamada < log'[j].llamada
    {
      if j == |log| { assert log'[i] == log[i]; }
    }
  }

  /** Logging the completion of an assigned call keeps the log well formed,
      adds the call to the completed ones and the count by one. */
  lemma LogAppendFinalizacion(log: seq<Resultado>, n: int, e: Empleado, c: int)
    requires LogWellFormed(log, n)
    requires Resultado(e, c, ASIGNACION) in log
    ensures LogWellFormed(log + [Resultado(e, c, FINALIZACION)], n)
    ensures Finalizadas(log + [Resultado(e, c, FINALIZACION)]) == Finalizadas(log) + {c}
    ensures CountFinalizaciones(log + [Resultado(e, c, FINALIZACION)]) == CountFinalizaciones(log) + 1
  {
    var log' := log + [Resultado(e, c, FINALIZACION)];
    assert log'[..|log|] == log;
    forall j | 0 <= j < |log'| && log'[j].tipo == FINALIZACION
      ensures Resultado(log'[j].empleado, log'[j].llamada, ASIGNACION) in log'[..j]
    {
      if j < |log| { assert log'[..j] == log[..j]; }
    }
  }

  /** Once nothing is pending or in flight, the log has one completion per
      issued call that was not lost. */
  lemma DrainedLogCountsEveryCall(fin: set<int>, lost: set<int>, n: nat, count: nat)
    requires Partitioned({}, fin, lost, n)
    requires count == |fin|
    ensures count == n - |lost|
  {
    IdsCardinality(n);
    forall x ensures x in fin + lost <==> x in Ids(n) {
      IdsMembers(n, x);
      assert x in {} + fin + lost <==> Issued(x, n);
    }
    assert fin + lost == Ids(n);
  }


  /** A log well formed up to n stays well formed up to any larger bound. */
  lemma LogWellFormedGrows(log: seq<Resultado>, n: int, n': int)
    requires LogWellFormed(log, n) && n <= n'
    ensures LogWellFormed(log, n')
  {
  }

  // ---------------------------------------------------------------------------
  // The state

  datatype Estado = Estado(
    empleados: multiset<Empleado>,       // available workers (PriorityBlockingQueue)
    llamadas: seq<int>,                  // pending calls, oldest first
    llamadasEnCurso: seq<int>,           // calls in flight (ArrayBlockingQueue of capacity 10)
    atendiendo: map<int, Empleado>,      // outstanding handlings: call id to its worker
    contador: int,                       // last issued call id
    resultados: seq<Resultado>,          // the log
    done: bool,                          // the future has been completed
    plantilla: multiset<Empleado>,       // every worker ever added
    lostCalls: set<int>,                 // calls dropped by a throwing add
    lostWorkers: multiset<Empleado>)     // workers dropped with them
  {
    /** Calls already taken off the pending queue. */
    function Taken(): int { contador - |llamadas| }
  }

  // The invariant, in five parts over the fields each part is about.

  /** The pending calls are the ids after the taken ones, in order. */
  ghost predicate PendingInv(llamadas: seq<int>, taken: int) {
    && 0 <= taken
    && forall i :: 0 <= i < |llamadas| ==> llamadas[i] == taken + 1 + i
  }

  /** The in-flight queue is bounded and holds exactly the calls being handled. */
  ghost predicate InFlightInv(enCurso: seq<int>, atendiendo: map<int, Empleado>) {
    && |enCurso| <= CAPACIDAD
    && Distinct(enCurso)
    && InDomain(enCurso, atendiendo)
    && forall c :: c in atendiendo ==> c in enCurso
  }

  /** Every taken call is in flight, completed or lost, in exactly one way;
      no call is completed twice. */
  ghost predicate CallsInv(atendiendo: map<int, Empleado>, log: seq<Resultado>, lost: set<int>, taken: int) {
    && Partitioned(atendiendo.Keys, Finalizadas(log), lost, taken)
    && CountFinalizaciones(log) == |Finalizadas(log)|
  }

  /** Every worker ever added is available, busy with one call, or lost. */
  ghost predicate WorkersInv(plantilla: multiset<Empleado>, empleados: multiset<Empleado>, enCurso: seq<int>,
                             atendiendo: map<int, Empleado>, lostWorkers: multiset<Empleado>) {
    && InDomain(enCurso, atendiendo)
    && plantilla == empleados + Busy(enCurso, atendiendo) + lostWorkers
  }

  /** The log is well formed and records the assignment of each call in flight. */
  ghost predicate LogInv(log: seq<Resultado>, atendiendo: map<int, Empleado>, taken: int) {
    && LogWellFormed(log, taken)
    && forall c :: c in atendiendo ==> Resultado(atendiendo[c], c, ASIGNACION) in log
  }

  ghost predicate Inv(s: Estado) {
    && PendingInv(s.llamadas, s.Taken())
    && InFlightInv(s.llamadasEnCurso, s.atendiendo)
    && CallsInv(s.atendiendo, s.resultados, s.lostCalls, s.Taken())
    && WorkersInv(s.plantilla, s.empleados, s.llamadasEnCurso, s.atendiendo, s.lostWorkers)
    && LogInv(s.resultados, s.atendiendo, s.Taken())
  }

  // ---------------------------------------------------------------------------
  // The steps

  /** The constructor: nothing added, nothing issued, nothing logged. */
  function Inicial(): (r: Estado)
    ensures !PuedeAsignar(r) && r.atendiendo == map[] && r.Taken() == 0
    ensures r.resultados == [] && !r.done && r.plantilla == multiset{}
  {
    Estado(multiset{}, [], [], map[], 0, [], false, multiset{}, {}, multiset{})
  }

  /** agregarEmpleado: one more available worker. */
  function Agregar(s: Estado, e: Empleado): (r: Estado)
    ensures r.empleados == s.empleados + multiset{e}
  {
    s.(empleados := s.empleados + multiset{e}, plantilla := s.plantilla + multiset{e})
  }

  /** The guard of procesarLlamada: a worker and a pending call. */
  predicate PuedeAsignar(s: Estado) {
    s.empleados != multiset{} && s.llamadas != []
  }

  /** When procesarLlamada throws: the in-flight queue is full. */
  predicate Desborda(s: Estado) {
    PuedeAsignar(s) && |s.llamadasEnCurso| >= CAPACIDAD
  }

  /** procesarLlamada, with e the worker the queue hands out: the oldest pending
      call and e are taken; then either the call goes in flight and its
      assignment is logged, or the add throws and both are lost. */
  function Procesar(s: Estado, e: Empleado): (r: Estado)
    ensures !PuedeAsignar(s) ==> r == s
    ensures r.contador == s.contador && r.done == s.done && r.plantilla == s.plantilla
    ensures s.resultados <= r.resultados && |r.resultados| <= |s.resultados| + 1
    ensures !Desborda(s) ==> r.lostCalls == s.lostCalls && r.lostWorkers == s.lostWorkers
    ensures Desborda(s) ==> r.lostCalls == s.lostCalls + {s.llamadas[0]} && r.resultados == s.resultados
  {
    if !PuedeAsignar(s) then s
    else if |s.llamadasEnCurso| < CAPACIDAD then Asignar(s, e)
    else Desbordar(s, e)
  }

  /** The call goes in flight with worker e and the assignment is logged. */
  function Asignar(s: Estado, e: Empleado): (r: Estado)
    requires PuedeAsignar(s)
    ensures s.llamadas == [s.llamadas[0]] + r.llamadas
    ensures r.llamadasEnCurso == s.llamadasEnCurso + [s.llamadas[0]]
    ensures r.atendiendo == s.atendiendo[s.llamadas[0] := e]
    ensures r.resultados == s.resultados + [Resultado(e, s.llamadas[0], ASIGNACION)]
    ensures e in s.empleados ==> r.empleados + multiset{e} == s.empleados
    ensures r.Taken() == s.Taken() + 1 && r.lostCalls == s.lostCalls && r.lostWorkers == s.lostWorkers
  {
    assert s.llamadas == [s.llamadas[0]] + s.llamadas[1..];
    var c := s.llamadas[0];
    s.(empleados := s.empleados - multiset{e},
       llamadas := s.llamadas[1..],
       llamadasEnCurso := s.llamadasEnCurso + [c],
       atendiendo := s.atendiendo[c := e],
       resultados := s.resultados + [Resultado(e, c, ASIGNACION)])
  }

  /** The add to the full in-flight queue throws: the call and e, already
      taken off their queues, are lost. */
  function Desbordar(s: Estado, e: Empleado): (r: Estado)
    requires PuedeAsignar(s)
    ensures s.llamadas == [s.llamadas[0]] + r.llamadas
    ensures r.llamadasEnCurso == s.llamadasEnCurso && r.atendiendo == s.atendiendo && r.resultados == s.resultados
    ensures e in s.empleados ==> r.empleados + multiset{e} == s.empleados
    ensures r.lostCalls == s.lostCalls + {s.llamadas[0]} && r.lostWorkers == s.lostWorkers + multiset{e}
    ensures r.Taken() == s.Taken() + 1
  {
    assert s.llamadas == [s.llamadas[0]] + s.llamadas[1..];
    s.(empleados := s.empleados - multiset{e},
       llamadas := s.llamadas[1..],
       lostCalls := s.lostCalls + {s.llamadas[0]},
       lostWorkers := s.lostWorkers + multiset{e})
  }

  /** The first half of dispatchCall: issue the next id at the back of the queue. */
  function Emitir(s: Estado): (r: Estado)
    ensures r.contador == s.contador + 1 && r.llamadas == s.llamadas + [r.contador]
  {
    s.(contador := s.contador + 1, llamadas := s.llamadas + [s.contador + 1])
  }

  /** The first half of onLlamadaDespachada for call c: its worker returns,
      the call leaves the in-flight queue, the completion is logged. */
  function Liberar(s: Estado, c: int): (r: Estado)
    requires c in s.atendiendo
    ensures r.llamadas == s.llamadas && r.contador == s.contador && r.done == s.done
    ensures r.resultados == s.resultados + [Resultado(s.atendiendo[c], c, FINALIZACION)]
  {
    var e := s.atendiendo[c];
    s.(empleados := s.empleados + multiset{e},
       llamadasEnCurso := Remove(s.llamadasEnCurso, c),
       atendiendo := s.atendiendo - {c},
       resultados := s.resultados + [Resultado(e, c, FINALIZACION)])
  }

  /** The end of onLlamadaDespachada: complete the future the first time
      nothing is pending or in flight. */
  function Concluir(s: Estado): (r: Estado)
    ensures r.done <==> s.done || (s.llamadas == [] && s.llamadasEnCurso == [])
    ensures s.done ==> r == s
    ensures r == s.(done := r.done)
  {
    if s.llamadas == [] && !s.done && s.llamadasEnCurso == [] then s.(done := true) else s
  }

  /** onLlamadaDespachada for call c, with e the worker the queue hands out
      if a pending call is assigned. */
  function Completar(s: Estado, c: int, e: Empleado): (r: Estado)
    requires c in s.atendiendo
    ensures s.resultados + [Resultado(s.atendiendo[c], c, FINALIZACION)] <= r.resultados
    ensures |r.resultados| <= |s.resultados| + 2
    ensures r.contador == s.contador && r.plantilla == s.plantilla
    ensures r.done <==> s.done || (r.llamadas == [] && r.llamadasEnCurso == [])
  {
    var s1 := Liberar(s, c);
    Concluir(if s1.llamadas != [] then Procesar(s1, e) else s1)
  }

  // ---------------------------------------------------------------------------
  // Helpers about single parts

  /** Issuing id taken + |llamadas| + 1 at the back keeps the pending ids consecutive. */
  lemma PendingIssue(llamadas: seq<int>, taken: int)
    requires PendingInv(llamadas, taken)
    ensures PendingInv(llamadas + [taken + |llamadas| + 1], taken)
  {
  }

  /** The taken id taken + 1 can go in flight or be lost. */
  lemma PartitionedTake(a: set<int>, b: set<int>, l: set<int>, n: nat)
    requires Partitioned(a, b, l, n)
    ensures n + 1 !in a + b + l
    ensures Partitioned(a + {n + 1}, b, l, n + 1)
    ensures Partitioned(a, b, l + {n + 1}, n + 1)
  {
    assert n + 1 in a + b + l <==> Issued(n + 1, n);
    var m := n + 1;
    forall x ensures x in a + {m} + b + l <==> Issued(x, m) {
      assert x in a + b + l <==> Issued(x, n);
    }
    forall x ensures x in a + b + (l + {m}) <==> Issued(x, m) {
      assert x in a + b + l <==> Issued(x, n);
    }
  }

  /** A call in flight can move to the completed ones. */
  lemma PartitionedFinish(a: set<int>, b: set<int>, l: set<int>, n: int, x: int)
    requires Partitioned(a, b, l, n) && x in a
    ensures Partitioned(a - {x}, b + {x}, l, n)
  {
    forall y ensures y in (a - {x}) + (b + {x}) + l <==> Issued(y, n) {
      assert y in a + b + l <==> Issued(y, n);
    }
  }

  lemma DistinctAppend(s: seq<int>, c: int)
    requires Distinct(s) && c !in s
    ensures Distinct(s + [c])
  {
  }

  /** No call of the in-flight queue lies beyond the taken ones. */
  lemma InFlightTaken(s: Estado, c: int)
    requires InFlightInv(s.llamadasEnCurso, s.atendiendo)
    requires CallsInv(s.atendiendo, s.resultados, s.lostCalls, s.Taken())
    requires c in s.llamadasEnCurso || c in s.atendiendo
    ensures c in s.atendiendo && 1 <= c <= s.Taken()
  {
    if c in s.llamadasEnCurso {
      var i :| 0 <= i < |s.llamadasEnCurso| && s.llamadasEnCurso[i] == c;
    }
    assert c in s.atendiendo.Keys + Finalizadas(s.resultados) + s.lostCalls;
  }

  // ---------------------------------------------------------------------------
  // Taking a call (both outcomes of procesarLlamada)

  /** The taken call is the id after the taken ones, and it is not in flight. */
  lemma TomarFresh(s: Estado)
    requires PuedeAsignar(s)
    requires PendingInv(s.llamadas, s.Taken())
    requires InFlightInv(s.llamadasEnCurso, s.atendiendo)
    requires CallsInv(s.atendiendo, s.resultados, s.lostCalls, s.Taken())
    ensures s.llamadas[0] == s.Taken() + 1
    ensures s.llamadas[0] !in s.llamadasEnCurso && s.llamadas[0] !in s.atendiendo
    ensures s.llamadas[0] !in s.lostCalls && s.llamadas[0] !in Finalizadas(s.resultados)
  {
    var c := s.llamadas[0];
    assert c !in s.atendiendo.Keys + Finalizadas(s.resultados) + s.lostCalls;
    if c in s.llamadasEnCurso || c in s.atendiendo {
      InFlightTaken(s, c);
    }
  }

  lemma TomarPending(s: Estado, e: Empleado)
    requires PuedeAsignar(s) && PendingInv(s.llamadas, s.Taken())
    ensures s.llamadas[0] == s.Taken() + 1
    ensures Asignar(s, e).Taken() == s.Taken() + 1 == Desbordar(s, e).Taken()
    ensures PendingInv(Asignar(s, e).llamadas, Asignar(s, e).Taken())
    ensures PendingInv(Desbordar(s, e).llamadas, Desbordar(s, e).Taken())
  {
  }

  // ---------------------------------------------------------------------------
  // An assignment that goes in flight

  lemma AsignarInFlight(s: Estado, e: Empleado)
    requires PuedeAsignar(s) && |s.llamadasEnCurso| < CAPACIDAD && s.llamadas[0] !in s.llamadasEnCurso
    requires InFlightInv(s.llamadasEnCurso, s.atendiendo)
    ensures InFlightInv(Asignar(s, e).llamadasEnCurso, Asignar(s, e).atendiendo)
  {
    DistinctAppend(s.llamadasEnCurso, s.llamadas[0]);
    BusyAppend(s.llamadasEnCurso, s.atendiendo, s.llamadas[0], e);
  }

  /** Assigning the taken id n + 1 to e keeps the accounting of calls. */
  lemma PartitionedAssign(atendiendo: map<int, Empleado>, b: set<int>, l: set<int>, n: nat, e: Empleado)
    requires Partitioned(atendiendo.Keys, b, l, n)
    ensures Partitioned(atendiendo[n + 1 := e].Keys, b, l, n + 1)
  {
    PartitionedTake(atendiendo.Keys, b, l, n);
    assert atendiendo[n + 1 := e].Keys == atendiendo.Keys + {n + 1};
  }

  lemma CallsAsignacion(atendiendo: map<int, Empleado>, log: seq<Resultado>, lost: set<int>, n: nat, e: Empleado)
    requires CallsInv(atendiendo, log, lost, n) && LogWellFormed(log, n)
    ensures CallsInv(atendiendo[n + 1 := e], log + [Resultado(e, n + 1, ASIGNACION)], lost, n + 1)
  {
    LogAppendAsignacion(log, n, e);
    PartitionedAssign(atendiendo, Finalizadas(log), lost, n, e);
  }

  lemma AsignarCalls(s: Estado, e: Empleado)
    requires PuedeAsignar(s) && PendingInv(s.llamadas, s.Taken())
    requires CallsInv(s.atendiendo, s.resultados, s.lostCalls, s.Taken())
    requires LogWellFormed(s.resultados, s.Taken())
    ensures var r := Asignar(s, e); CallsInv(r.atendiendo, r.resultados, r.lostCalls, r.Taken())
  {
    var n := s.Taken();
    TomarPending(s, e);
    var r := Asignar(s, e);
    assert r.atendiendo == s.atendiendo[n + 1 := e];
    assert r.resultados == s.resultados + [Resultado(e, n + 1, ASIGNACION)];
    CallsAsignacion(s.atendiendo, s.resultados, s.lostCalls, n, e);
  }

  lemma AsignarWorkers(s: Estado, e: Empleado)
    requires PuedeAsignar(s) && e in s.empleados && s.llamadas[0] !in s.llamadasEnCurso
    requires WorkersInv(s.plantilla, s.empleados, s.llamadasEnCurso, s.atendiendo, s.lostWorkers)
    ensures var r := Asignar(s, e);
      WorkersInv(r.plantilla, r.empleados, r.llamadasEnCurso, r.atendiendo, r.lostWorkers)
  {
    BusyAppend(s.llamadasEnCurso, s.atendiendo, s.llamadas[0], e);
    assert s.empleados - multiset{e} + multiset{e} == s.empleados;
  }

  lemma AsignarLog(s: Estado, e: Empleado)
    requires PuedeAsignar(s) && PendingInv(s.llamadas, s.Taken())
    requires LogInv(s.resultados, s.atendiendo, s.Taken())
    ensures var r := Asignar(s, e); LogInv(r.resultados, r.atendiendo, r.Taken())
  {
    TomarPending(s, e);
    LogAppendAsignacion(s.resultados, s.Taken(), e);
  }

  lemma AsignarInv(s: Estado, e: Empleado)
    requires Inv(s) && PuedeAsignar(s) && e in s.empleados && |s.llamadasEnCurso| < CAPACIDAD
    ensures Inv(Asignar(s, e))
  {
    TomarFresh(s);
    TomarPending(s, e);
    AsignarInFlight(s, e);
    AsignarCalls(s, e);
    AsignarWorkers(s, e);
    AsignarLog(s, e);
  }

  // ---------------------------------------------------------------------------
  // An assignment whose add throws

  /** Losing the taken id n + 1 keeps the accounting of calls. */
  lemma CallsDesborde(atendiendo: map<int, Empleado>, log: seq<Resultado>, lost: set<int>, n: nat)
    requires CallsInv(atendiendo, log, lost, n)
    ensures CallsInv(atendiendo, log, lost + {n + 1}, n + 1)
  {
    PartitionedTake(atendiendo.Keys, Finalizadas(log), lost, n);
  }

  lemma DesbordarCalls(s: Estado, e: Empleado)
    requires PuedeAsignar(s) && PendingInv(s.llamadas, s.Taken())
    requires CallsInv(s.atendiendo, s.resultados, s.lostCalls, s.Taken())
    ensures var r := Desbordar(s, e); CallsInv(r.atendiendo, r.resultados, r.lostCalls, r.Taken())
  {
    TomarPending(s, e);
    var r := Desbordar(s, e);
    assert r.lostCalls == s.lostCalls + {s.Taken() + 1};
    CallsDesborde(s.atendiendo, s.resultados, s.lostCalls, s.Taken());
  }

  lemma DesbordarWorkers(s: Estado, e: Empleado)
    requires PuedeAsignar(s) && e in s.empleados
    requires WorkersInv(s.plantilla, s.empleados, s.llamadasEnCurso, s.atendiendo, s.lostWorkers)
    ensures var r := Desbordar(s, e);
      WorkersInv(r.plantilla, r.empleados, r.llamadasEnCurso, r.atendiendo, r.lostWorkers)
  {
    assert s.empleados - multiset{e} + multiset{e} == s.empleados;
  }

  lemma DesbordarLog(s: Estado, e: Empleado)
    requires PuedeAsignar(s) && PendingInv(s.llamadas, s.Taken())
    requires LogInv(s.resultados, s.atendiendo, s.Taken())
    ensures var r := Desbordar(s, e); LogInv(r.resultados, r.atendiendo, r.Taken())
  {
    TomarPending(s, e);
    LogWellFormedGrows(s.resultados, s.Taken(), s.Taken() + 1);
  }

  lemma DesbordarInv(s: Estado, e: Empleado)
    requires Inv(s) && PuedeAsignar(s) && e in s.empleados
    ensures Inv(Desbordar(s, e))
  {
    TomarPending(s, e);
    DesbordarCalls(s, e);
    DesbordarWorkers(s, e);
    DesbordarLog(s, e);
  }

  // ---------------------------------------------------------------------------
  // A completion frees its call

  lemma LiberarInFlight(s: Estado, c: int)
    requires c in s.atendiendo && InFlightInv(s.llamadasEnCurso, s.atendiendo)
    ensures var r := Liberar(s, c);
      InFlightInv(r.llamadasEnCurso, r.atendiendo) && |r.llamadasEnCurso| < CAPACIDAD
  {
    BusyRemove(s.llamadasEnCurso, s.atendiendo, c);
    RemoveDistinct(s.llamadasEnCurso, c);
  }

  lemma LiberarCalls(s: Estado, c: int)
    requires c in s.atendiendo
    requires CallsInv(s.atendiendo, s.resultados, s.lostCalls, s.Taken())
    requires LogInv(s.resultados, s.atendiendo, s.Taken())
    ensures var r := Liberar(s, c); CallsInv(r.atendiendo, r.resultados, r.lostCalls, r.Taken())
  {
    LogAppendFinalizacion(s.resultados, s.Taken(), s.atendiendo[c], c);
    PartitionedFinish(s.atendiendo.Keys, Finalizadas(s.resultados), s.lostCalls, s.Taken(), c);
    assert (s.atendiendo - {c}).Keys == s.atendiendo.Keys - {c};
  }

  lemma LiberarWorkers(s: Estado, c: int)
    requires c in s.atendiendo && InFlightInv(s.llamadasEnCurso, s.atendiendo)
    requires WorkersInv(s.plantilla, s.empleados, s.llamadasEnCurso, s.atendiendo, s.lostWorkers)
    ensures var r := Liberar(s, c);
      WorkersInv(r.plantilla, r.empleados, r.llamadasEnCurso, r.atendiendo, r.lostWorkers)
  {
    BusyRemove(s.llamadasEnCurso, s.atendiendo, c);
  }

  lemma LiberarLog(s: Estado, c: int)
    requires c in s.atendiendo && LogInv(s.resultados, s.atendiendo, s.Taken())
    ensures var r := Liberar(s, c); LogInv(r.resultados, r.atendiendo, r.Taken())
  {
    LogAppendFinalizacion(s.resultados, s.Taken(), s.atendiendo[c], c);
  }

  /** Freeing a call keeps the invariant and leaves room in the in-flight queue. */
  lemma LiberarInv(s: Estado, c: int)
    requires Inv(s) && c in s.atendiendo
    ensures Inv(Liberar(s, c))
    ensures |Liberar(s, c).llamadasEnCurso| < CAPACIDAD
  {
    LiberarInFlight(s, c);
    LiberarCalls(s, c);
    LiberarWorkers(s, c);
    LiberarLog(s, c);
  }

  // ---------------------------------------------------------------------------
  // What the steps keep

  lemma InicialInv()
    ensures Inv(Inicial())
  {
    assert Ids(0) == {};
  }

  lemma AgregarInv(s: Estado, e: Empleado)
    requires Inv(s)
    ensures Inv(Agregar(s, e))
  {
  }

  lemma EmitirInv(s: Estado)
    requires Inv(s)
    ensures Inv(Emitir(s))
  {
    var r := Emitir(s);
    assert r.Taken() == s.Taken();
    PendingIssue(s.llamadas, s.Taken());
  }

  /** The issued id is new: not pending, in flight, completed or lost. */
  lemma EmitirFreshId(s: Estado)
    requires Inv(s)
    ensures var c := s.contador + 1;
      c !in s.llamadas && c !in s.llamadasEnCurso && c !in Finalizadas(s.resultados) && c !in s.lostCalls
  {
    var c := s.contador + 1;
    assert c !in s.atendiendo.Keys + Finalizadas(s.resultados) + s.lostCalls;
    if c in s.llamadasEnCurso {
      InFlightTaken(s, c);
    }
  }

  lemma ProcesarInv(s: Estado, e: Empleado)
    requires Inv(s)
    requires PuedeAsignar(s) ==> e in s.empleados
    ensures Inv(Procesar(s, e))
  {
    if PuedeAsignar(s) {
      if |s.llamadasEnCurso| < CAPACIDAD {
        AsignarInv(s, e);
      } else {
        DesbordarInv(s, e);
      }
    }
  }

  lemma ConcluirInv(s: Estado)
    requires Inv(s)
    ensures Inv(Concluir(s))
  {
    var r := Concluir(s);
    assert r.llamadas == s.llamadas && r.llamadasEnCurso == s.llamadasEnCurso && r.atendiendo == s.atendiendo
      && r.resultados == s.resultados && r.lostCalls == s.lostCalls && r.Taken() == s.Taken()
      && r.plantilla == s.plantilla && r.empleados == s.empleados && r.lostWorkers == s.lostWorkers;
  }

  /** A completion keeps the invariant, and the assignment it makes cannot
      throw: the freed slot is the room the new call needs. */
  lemma CompletarInv(s: Estado, c: int, e: Empleado)
    requires Inv(s) && c in s.atendiendo
    requires PuedeAsignar(Liberar(s, c)) ==> e in Liberar(s, c).empleados
    ensures !Desborda(Liberar(s, c))
    ensures Inv(Completar(s, c, e))
  {
    var s1 := Liberar(s, c);
    LiberarInv(s, c);
    var s2 := if s1.llamadas != [] then Procesar(s1, e) else s1;
    if s1.llamadas != [] { ProcesarInv(s1, e); }
    ConcluirInv(s2);
  }

  // ---------------------------------------------------------------------------
  // What the invariant gives

  /** Every issued id, 1 to contador, is in exactly one of: the pending queue,
      the in-flight queue, the completed calls, the lost calls; no other id is
      in any of them. */
  lemma IssuedIdsPartition(s: Estado, x: int)
    requires Inv(s)
    ensures Issued(x, s.contador) <==>
      x in s.llamadas || x in s.llamadasEnCurso || x in Finalizadas(s.resultados) || x in s.lostCalls
    ensures x in s.llamadas ==> x !in s.llamadasEnCurso && x !in Finalizadas(s.resultados) && x !in s.lostCalls
    ensures x in s.llamadasEnCurso ==> x !in Finalizadas(s.resultados) && x !in s.lostCalls
    ensures x in Finalizadas(s.resultados) ==> x !in s.lostCalls
  {
    var n := s.Taken();
    assert x in s.atendiendo.Keys + Finalizadas(s.resultados) + s.lostCalls <==> Issued(x, n);
    if x in s.llamadas {
      var i :| 0 <= i < |s.llamadas| && s.llamadas[i] == x;
    }
    if n < x <= s.contador {
      assert s.llamadas[x - n - 1] == x;
    }
    if x in s.llamadasEnCurso {
      var i :| 0 <= i < |s.llamadasEnCurso| && s.llamadasEnCurso[i] == x;
    }
  }

  /** procesarLlamada with room in flight: the oldest pending call c and the
      worker e leave their queues, c goes in flight with e, exactly one entry
      (e, c, 0) is logged, and nothing else changes. */
  lemma ProcesarEffects(s: Estado, e: Empleado)
    requires PuedeAsignar(s) && !Desborda(s) && e in s.empleados
    ensures var r := Procesar(s, e); var c := s.llamadas[0];
      && s.llamadas == [c] + r.llamadas
      && r.empleados + multiset{e} == s.empleados
      && r.llamadasEnCurso == s.llamadasEnCurso + [c]
      && r.atendiendo == s.atendiendo[c := e]
      && r.resultados == s.resultados + [Resultado(e, c, ASIGNACION)]
      && r.contador == s.contador && r.done == s.done && r.plantilla == s.plantilla
      && r.lostCalls == s.lostCalls && r.lostWorkers == s.lostWorkers
  {
    assert s.llamadas == [s.llamadas[0]] + s.llamadas[1..];
  }

  /** The log rules the invariant keeps: assignments in increasing call
      order, each completion preceded by the assignment of the same call to
      the same worker, each call in flight with its assignment logged, and
      no call completed twice. */
  lemma LogOrdered(s: Estado)
    requires Inv(s)
    ensures var log := s.resultados;
      && (forall i, j :: 0 <= i < j < |log| && log[i].tipo == ASIGNACION && log[j].tipo == ASIGNACION ==>
            log[i].llamada < log[j].llamada)
      && (forall j :: 0 <= j < |log| && log[j].tipo == FINALIZACION ==>
            Resultado(log[j].empleado, log[j].llamada, ASIGNACION) in log[..j])
      && (forall c :: c in s.atendiendo ==> Resultado(s.atendiendo[c], c, ASIGNACION) in log)
      && CountFinalizaciones(log) == |Finalizadas(log)|
  {
  }

  /** Every worker ever added is available, busy with exactly one call in
      flight, or lost; at most CAPACIDAD are busy. */
  lemma WorkersAccounted(s: Estado)
    requires Inv(s)
    ensures InDomain(s.llamadasEnCurso, s.atendiendo)
    ensures s.plantilla == s.empleados + Busy(s.llamadasEnCurso, s.atendiendo) + s.lostWorkers
    ensures |s.plantilla| == |s.empleados| + |s.llamadasEnCurso| + |s.lostWorkers|
    ensures |s.llamadasEnCurso| <= CAPACIDAD
    ensures |Busy(s.llamadasEnCurso, s.atendiendo)| == |s.llamadasEnCurso|
  {
    BusySize(s.llamadasEnCurso, s.atendiendo);
  }

  /** With nothing pending or in flight the log holds one completion per
      issued call that was not lost. */
  lemma DrainedCount(s: Estado)
    requires Inv(s) && s.llamadas == [] && s.llamadasEnCurso == []
    ensures CountFinalizaciones(s.resultados) == s.contador - |s.lostCalls|
  {
    forall c ensures c !in s.atendiendo.Keys {
    }
    assert s.atendiendo.Keys == {};
    DrainedLogCountsEveryCall(Finalizadas(s.resultados), s.lostCalls, s.contador, CountFinalizaciones(s.resultados));
  }

  /** onLlamadaDespachada for call c handled by w: w is available again, c
      has left the in-flight queue, (w, c, 1) is logged, and at most one
      pending call is assigned, without throwing. */
  lemma CompletarEffects(s: Estado, c: int, e: Empleado)
    requires Inv(s) && c in s.atendiendo
    requires PuedeAsignar(Liberar(s, c)) ==> e in Liberar(s, c).empleados
    ensures var r := Completar(s, c, e); var w := s.atendiendo[c];
      && c !in r.llamadasEnCurso && c !in r.atendiendo
      && r.resultados[..|s.resultados| + 1] == s.resultados + [Resultado(w, c, FINALIZACION)]
      && |r.resultados| <= |s.resultados| + 2
      && r.lostCalls == s.lostCalls
      && (s.llamadas == [] ==> r.empleados == s.empleados + multiset{w} && |r.llamadasEnCurso| == |s.llamadasEnCurso| - 1)
      && (s.llamadas != [] ==>
            && r.empleados == s.empleados + multiset{w} - multiset{e}
            && r.llamadas == s.llamadas[1..]
            && |r.llamadasEnCurso| == |s.llamadasEnCurso|)
  {
    var w := s.atendiendo[c];
    var s1 := Liberar(s, c);
    LiberarInFlight(s, c);
    RemoveDistinct(s.llamadasEnCurso, c);
    assert c in s.llamadasEnCurso;
    if s.llamadas != [] {
      InFlightTaken(s, c);
      assert s.llamadas[0] == s.Taken() + 1;
      var r := Asignar(s1, e);
      assert r.llamadasEnCurso == s1.llamadasEnCurso + [s.llamadas[0]];
      assert r.resultados[..|s.resultados| + 1] == s1.resultados;
    }
  }

  /** The completion that sets the done flag finds every issued call
      completed or lost, and the log holds one completion per call that was
      not lost. */
  lemma CompletarDone(s: Estado, c: int, e: Empleado)
    requires Inv(s) && c in s.atendiendo && !s.done
    requires PuedeAsignar(Liberar(s, c)) ==> e in Liberar(s, c).empleados
    ensures var r := Completar(s, c, e);
      r.done ==> (r.llamadas == [] && r.llamadasEnCurso == []
                  && CountFinalizaciones(r.resultados) == r.contador - |r.lostCalls|)
  {
    CompletarInv(s, c, e);
    var r := Completar(s, c, e);
    if r.done {
      DrainedCount(r);
    }
  }
}
