/**
 * The Dispatcher class of Dispatcher.java. Each method is one atomic step:
 * the asynchronous handling of a call by a worker is the environment calling
 * OnLlamadaDespachada for a call still outstanding. The constructor and
 * AgregarEmpleado, ProcesarLlamada, EmitirLlamada, DispatchCall,
 * LiberarLlamada, CompletarFuturo and OnLlamadaDespachada are proved to move
 * the object's state exactly as a step of DispatchState (PollEmpleado,
 * PollLlamada, Atender and Perder as a record update of it); Dispatch states
 * the counter, log and losses after its loop. The constructor,
 * AgregarEmpleado, DispatchCall, Dispatch and OnLlamadaDespachada keep the
 * invariant Valid(); the helper steps leave it to these callers.
 */
module Dispatching {
  import opened Roles
  import opened Workers
  import opened DispatchState

  class Dispatcher {
    var empleados: multiset<Empleado>        // PriorityBlockingQueue<Empleado>
    var llamadas: seq<int>                   // LinkedList<Integer>, oldest first
    var llamadasEnCurso: seq<int>            // ArrayBlockingQueue<Integer>(10)
    var atendiendo: map<int, Empleado>       // the registered thenAccept callbacks, by call
    var contador: int                        // AtomicInteger
    var resultados: seq<Resultado>           // ArrayList<Resultado>
    var done: bool                           // future.isDone()
    ghost var plantilla: multiset<Empleado>
    ghost var lostCalls: set<int>
    ghost var lostWorkers: multiset<Empleado>

    ghost function Snapshot(): Estado
      reads this
    {
      Estado(empleados, llamadas, llamadasEnCurso, atendiendo, contador, resultados, done,
             plantilla, lostCalls, lostWorkers)
    }

    ghost predicate Valid()
      reads this
    {
      Inv(Snapshot())
    }

    /** No workers, no calls, counter 0, an empty log and an incomplete future. */
    constructor ()
      ensures Valid()
      ensures Snapshot() == Inicial()
    {
      empleados := multiset{};
      llamadas := [];
      llamadasEnCurso := [];
      atendiendo := map[];
      contador := 0;
      resultados := [];
      done := false;
      plantilla := multiset{};
      lostCalls := {};
      lostWorkers := multiset{};
      new;
      InicialInv();
    }

    /** agregarEmpleado: offers a new worker built from id and role name. */
    method AgregarEmpleado(id: int, rol: string)
      requires Valid()
      modifies this
      ensures Valid()
      ensures Snapshot() == Agregar(old(Snapshot()), NewEmpleado(id, rol))
    {
      ghost var s := Snapshot();
      var e := NewEmpleado(id, rol);
      empleados := empleados + multiset{e};
      plantilla := plantilla + multiset{e};
      AgregarInv(s, e);
    }

    /** PriorityBlockingQueue.poll on a non-empty queue: takes out a worker
        no other available worker comes before. */
    method PollEmpleado() returns (e: Empleado)
      requires empleados != multiset{}
      modifies this
      ensures IsQueueHead(e, old(empleados))
      ensures Snapshot() == old(Snapshot()).(empleados := old(empleados) - multiset{e})
    {
      QueueHeadExists(empleados);
      e :| e in empleados && IsQueueHead(e, empleados);
      empleados := empleados - multiset{e};
    }

    /** LinkedList.poll on a non-empty list: takes out the oldest pending call. */
    method PollLlamada() returns (llamada: int)
      requires llamadas != []
      modifies this
      ensures llamada == old(llamadas[0])
      ensures Snapshot() == old(Snapshot()).(llamadas := old(llamadas[1..]))
    {
      llamada := llamadas[0];
      llamadas := llamadas[1..];
    }

    /** The successful add to the in-flight queue, the assignment entry of the
        log and the registration of the completion callback. */
    method Atender(e: Empleado, llamada: int)
      modifies this
      ensures Snapshot() == old(Snapshot()).(llamadasEnCurso := old(llamadasEnCurso) + [llamada],
                                             atendiendo := old(atendiendo)[llamada := e],
                                             resultados := old(resultados) + [Resultado(e, llamada, ASIGNACION)])
    {
      llamadasEnCurso, resultados, atendiendo :=
        llamadasEnCurso + [llamada], resultados + [Resultado(e, llamada, ASIGNACION)], atendiendo[llamada := e];
    }

    /** The add to the full in-flight queue throws: the polled call and worker
        are on no queue any more. */
    method Perder(e: Empleado, llamada: int)
      modifies this
      ensures Snapshot() == old(Snapshot()).(lostCalls := old(lostCalls) + {llamada},
                                             lostWorkers := old(lostWorkers) + multiset{e})
    {
      lostCalls, lostWorkers := lostCalls + {llamada}, lostWorkers + multiset{e};
    }

    /** procesarLlamada: when a worker and a call are waiting, polls the queue
        head and the oldest call, then adds the call to the in-flight queue,
        which throws when it is full (ok is false then), or logs the
        assignment and registers the completion callback. The invariant is
        kept by its callers, through ProcesarInv. */
    method ProcesarLlamada() returns (ok: bool, ghost e: Empleado)
      modifies this
      ensures Snapshot() == Procesar(old(Snapshot()), e)
      ensures PuedeAsignar(old(Snapshot())) ==> IsQueueHead(e, old(empleados))
      ensures ok <==> !Desborda(old(Snapshot()))
    {
      ghost var s := Snapshot();
      ok := true;
      e := Empleado(0, Rol(PRIORIDAD_OPERADOR, OPERADOR));
      if empleados != multiset{} && llamadas != [] {
        var cabeza := PollEmpleado();
        e := cabeza;
        var llamada := PollLlamada();
        if |llamadasEnCurso| < CAPACIDAD {
          Atender(cabeza, llamada);
          assert Snapshot() == Asignar(s, e);
        } else {
          ok := false;
          Perder(cabeza, llamada);
          assert Snapshot() == Desbordar(s, e);
        }
      }
    }

    /** The first two statements of dispatchCall: the counter is incremented
        and the new id joins the back of the pending queue. */
    method EmitirLlamada()
      modifies this
      ensures Snapshot() == Emitir(old(Snapshot()))
    {
      contador := contador + 1;
      llamadas := llamadas + [contador];
    }

    /** dispatchCall: issues the next id at the back of the pending queue and
        tries to assign it. */
    method DispatchCall() returns (ok: bool, ghost e: Empleado)
      requires Valid()
      modifies this
      ensures Valid()
      ensures Snapshot() == Procesar(Emitir(old(Snapshot())), e)
      ensures ok <==> !Desborda(Emitir(old(Snapshot())))
      ensures PuedeAsignar(Emitir(old(Snapshot()))) ==> IsQueueHead(e, old(empleados))
      ensures contador == old(contador) + 1 && done == old(done) && plantilla == old(plantilla)
      ensures old(resultados) <= resultados
      ensures ok ==> lostCalls == old(lostCalls)
      ensures !ok ==> |lostCalls| == |old(lostCalls)| + 1
    {
      ghost var s := Snapshot();
      EmitirInv(s);
      EmitirLlamada();
      ghost var s1 := Snapshot();
      assert s1 == Emitir(s) && s1.empleados == s.empleados;
      ok, e := ProcesarLlamada();
      ProcesarInv(s1, e);
      if !ok {
        TomarFresh(Emitir(s));
      }
    }

    /** The loop of dispatch: num calls, stopping at the first add that
        throws. It never completes the future, so with num <= 0 (or with no
        call outstanding at its end) the future.get() that follows waits
        forever. */
    method Dispatch(num: int) returns (ok: bool)
      requires Valid()
      modifies this
      ensures Valid()
      ensures done == old(done) && plantilla == old(plantilla)
      ensures old(resultados) <= resultados
      ensures ok ==> contador == old(contador) + (if num < 0 then 0 else num) && lostCalls == old(lostCalls)
      ensures !ok ==> old(contador) < contador <= old(contador) + num && |lostCalls| == |old(lostCalls)| + 1
      ensures num <= 0 ==> Snapshot() == old(Snapshot()) && ok
    {
      ok := true;
      var i := 0;
      while i < num && ok
        invariant Valid()
        invariant 0 <= i <= (if num < 0 then 0 else num)
        invariant contador == old(contador) + i
        invariant done == old(done) && plantilla == old(plantilla)
        invariant old(resultados) <= resultados
        invariant ok ==> lostCalls == old(lostCalls)
        invariant !ok ==> i > 0 && |lostCalls| == |old(lostCalls)| + 1
        invariant i == 0 ==> Snapshot() == old(Snapshot())
        decreases num - i
      {
        ghost var e;
        ok, e := DispatchCall();
        i := i + 1;
      }
    }

    /** The first four statements of onLlamadaDespachada: the worker is
        offered back, the call removed from the in-flight queue, the
        completion logged. The worker is the one the handling started with. */
    method LiberarLlamada(llamada: int) returns (e: Empleado)
      requires llamada in atendiendo
      modifies this
      ensures e == old(atendiendo[llamada])
      ensures Snapshot() == Liberar(old(Snapshot()), llamada)
    {
      e := atendiendo[llamada];
      empleados, llamadasEnCurso, atendiendo, resultados :=
        empleados + multiset{e}, Remove(llamadasEnCurso, llamada), atendiendo - {llamada},
        resultados + [Resultado(e, llamada, FINALIZACION)];
    }

    /** The last statement of onLlamadaDespachada: complete the future when
        nothing is pending or in flight and it is not complete yet. */
    method CompletarFuturo()
      modifies this
      ensures Snapshot() == Concluir(old(Snapshot()))
    {
      if llamadas == [] && !done && llamadasEnCurso == [] {
        done := true;
      }
    }

    /** onLlamadaDespachada for a call still outstanding: its worker is
        offered back, the call leaves the in-flight queue, the completion is
        logged, one pending call is assigned if any, and the future is
        completed the first time nothing is pending or in flight. */
    method OnLlamadaDespachada(llamada: int) returns (ghost empleado: Empleado, ghost relevo: Empleado)
      requires Valid() && llamada in atendiendo
      modifies this
      ensures Valid()
      ensures empleado == old(atendiendo[llamada])
      ensures Snapshot() == Completar(old(Snapshot()), llamada, relevo)
      ensures old(llamadas) != [] ==> IsQueueHead(relevo, old(empleados) + multiset{empleado})
    {
      ghost var s := Snapshot();
      var e := LiberarLlamada(llamada);
      empleado, relevo := e, e;
      LiberarInv(s, llamada);
      ghost var s1 := Snapshot();
      if llamadas != [] {
        var ok;
        ok, relevo := ProcesarLlamada();
        ProcesarInv(s1, relevo);
      }
      ghost var s2 := Snapshot();
      ConcluirInv(s2);
      CompletarFuturo();
    }
  }
}
