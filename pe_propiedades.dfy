/**
  Properties of the external-priority engine with preemption: when it
  preempts and whom it puts on the CPU, what one CPU tick does, which
  process `seleccionar_siguiente_proceso` takes, and the invariant that the
  ready list stays in priority order across whole iterations.
 */
module PropiedadesPE {
  import opened Procesos
  import opened OrdenPE
  import opened Motor
  import opened PropiedadesMotor
  import opened ModeloPE

  /** The head of a priority-ordered list has the highest priority in it. */
  lemma CabezaMaxima(q: seq<Proceso>, p: Proceso)
    requires OrdenadaPorPrioridad(q) && p in q
    ensures q[0].prioridad >= p.prioridad
  {
    var i :| 0 <= i < |q| && q[i] == p;
    assert i == 0 || q[0].prioridad >= q[i].prioridad;
  }

  /**
    `verificar_preemption` answers yes exactly when a process is running and
    some ready process has a strictly higher priority; when it gets as far as
    sorting, the ready list becomes a priority-ordered permutation of itself.
   */
  lemma VerificarPreemptionCorrecta(n: Nucleo)
    ensures var r := VerificarPreemption(n);
            r.1 <==> n.procesoActual != null
                     && exists p :: p in n.colaListos && p.prioridad > n.procesoActual.prioridad
    ensures var r := VerificarPreemption(n);
            && r.0 == n.(colaListos := r.0.colaListos)
            && multiset(r.0.colaListos) == multiset(n.colaListos)
            && (n.procesoActual != null ==> OrdenadaPorPrioridad(r.0.colaListos))
  {
    var q := n.colaListos;
    if n.procesoActual != null && |q| > 0 {
      var o := OrdenarPorPrioridad(q);
      OrdenarOrdena(q);
      assert o[0] in multiset(o);
      assert o[0] in q;
      forall p | p in q && p.prioridad > n.procesoActual.prioridad
        ensures o[0].prioridad > n.procesoActual.prioridad
      {
        assert p in multiset(q);
        assert p in o;
        CabezaMaxima(o, p);
      }
    }
  }

  /** The tail of a priority-ordered list is priority-ordered. */
  lemma ColaOrdenada(q: seq<Proceso>, i: nat)
    requires OrdenadaPorPrioridad(q) && i <= |q|
    ensures OrdenadaPorPrioridad(q[i..])
  {
  }

  /**
    A running process whose burst has exactly one tick left is never
    preempted: the preemption check at most sorts the ready list.
   */
  lemma UltimoTickNoSeExpropia(c: Configuracion, s: EstadoPE)
    requires s.nucleo.procesoActual != null
    requires Attr(s.nucleo.atributos, s.nucleo.procesoActual).duracionRafagasCpu == 1
    ensures var r := ComprobarPreemption(c, s);
            && r == s.(nucleo := s.nucleo.(colaListos := r.nucleo.colaListos))
            && multiset(r.nucleo.colaListos) == multiset(s.nucleo.colaListos)
  {
    VerificarPreemptionCorrecta(s.nucleo);
  }

  /**
    `preemptar_proceso_actual` on a priority-ordered ready list whose head
    outranks the running process: the head takes the CPU, the preempted
    process is inserted by priority into the rest of the list and waits as
    ready, `fin_ejecucion` (one tick back) and `preemption` are logged
    first, the head leaves the just-finished-I/O names, and a new head is no
    longer new and owes a TCP after its TIP.
   */
  lemma PreemptarEfecto(c: Configuracion, s: EstadoPE)
    requires s.nucleo.procesoActual != null && |s.nucleo.colaListos| > 0
    requires OrdenadaPorPrioridad(s.nucleo.colaListos)
    requires s.nucleo.colaListos[0].prioridad > s.nucleo.procesoActual.prioridad
    ensures var n := s.nucleo;
            var cur := n.procesoActual;
            var o := n.colaListos;
            var r := PreemptarProcesoActual(c, s);
            var m := r.nucleo;
            && m.procesoActual == o[0]
            && m.colaListos == Insertar(o[1..], cur)
            && Attr(m.atributos, cur).estado == Listo
            && n.resultados + [Evento(n.tiempoActual - 1, cur.nombre, FinEjecucion, Ejecutando),
                               Evento(n.tiempoActual, cur.nombre, Preemption, Listo)] <= m.resultados
            && r.recienTerminaronIo == QuitarPrimero(s.recienTerminaronIo, o[0].nombre)
            && (Attr(n.atributos, o[0]).procesoNuevo ==> !Attr(m.atributos, o[0]).procesoNuevo && m.aplicarTcpDespuesTip)
  {
    var n := s.nucleo;
    var p := n.procesoActual;
    var o := n.colaListos;
    var n3 := Reencolar(n);
    PreemptarOrdenada(c, s);
    ReencolarEfecto(n);
    PreemptarCarga(c, n, n3);
  }

  /** The charge that follows the re-queueing of a preemption, in terms of the state before it. */
  lemma PreemptarCarga(c: Configuracion, n: Nucleo, n3: Nucleo)
    requires n.procesoActual != null && |n.colaListos| > 0 && n3.procesoActual == n.colaListos[0]
    requires n.colaListos[0].prioridad > n.procesoActual.prioridad
    requires Attr(n3.atributos, n.procesoActual).estado == Listo
    requires Attr(n3.atributos, n.colaListos[0]) == Attr(n.atributos, n.colaListos[0])
    requires n3.resultados == n.resultados + [Evento(n.tiempoActual - 1, n.procesoActual.nombre, FinEjecucion, Ejecutando),
                                              Evento(n.tiempoActual, n.procesoActual.nombre, Preemption, Listo)]
    ensures var cur := n.procesoActual;
            var m := CargaTrasPreemption(c, n3);
            && m.procesoActual == n3.procesoActual && m.colaListos == n3.colaListos
            && Attr(m.atributos, cur).estado == Listo
            && n3.resultados <= m.resultados
            && (Attr(n.atributos, n.colaListos[0]).procesoNuevo ==> !Attr(m.atributos, n.colaListos[0]).procesoNuevo && m.aplicarTcpDespuesTip)
  {
    if Attr(n3.atributos, n3.procesoActual).procesoNuevo {
      CargaNueva(c, n3, n.procesoActual);
    } else {
      CargaVista(c, n3, n.procesoActual);
    }
  }

  /** Over a ready list already in priority order, the preemption re-queues and charges without reordering. */
  lemma PreemptarOrdenada(c: Configuracion, s: EstadoPE)
    requires s.nucleo.procesoActual != null && |s.nucleo.colaListos| > 0
    requires OrdenadaPorPrioridad(s.nucleo.colaListos)
    ensures PreemptarProcesoActual(c, s)
            == EstadoPE(CargaTrasPreemption(c, Reencolar(s.nucleo)), QuitarPrimero(s.recienTerminaronIo, Reencolar(s.nucleo).procesoActual.nombre))
  {
    OrdenarOrdenadaEsIdentidad(s.nucleo.colaListos);
    assert s.nucleo.(colaListos := OrdenarPorPrioridad(s.nucleo.colaListos)) == s.nucleo;
  }

  /** The charge after a preemption, for a process that is new: TIP, then a TCP is owed. */
  lemma CargaNueva(c: Configuracion, n: Nucleo, q: Proceso)
    requires n.procesoActual != null && Attr(n.atributos, n.procesoActual).procesoNuevo
    ensures var m := CargaTrasPreemption(c, n);
            && m.procesoActual == n.procesoActual && m.colaListos == n.colaListos
            && n.resultados <= m.resultados
            && (q != n.procesoActual ==> Attr(m.atributos, q) == Attr(n.atributos, q))
            && !Attr(m.atributos, n.procesoActual).procesoNuevo && m.aplicarTcpDespuesTip
  {
    var p := n.procesoActual;
    AplicarTipMarco(c, n, q);
    assert CargaTrasPreemption(c, n) == MarcarVisto(AplicarTip(c, n), p).(aplicarTcpDespuesTip := true);
  }

  /** The charge after a preemption, for a process that ran before: TCP. */
  lemma CargaVista(c: Configuracion, n: Nucleo, q: Proceso)
    requires n.procesoActual != null && !Attr(n.atributos, n.procesoActual).procesoNuevo
    ensures var m := CargaTrasPreemption(c, n);
            && m.procesoActual == n.procesoActual && m.colaListos == n.colaListos
            && n.resultados <= m.resultados
            && (q != n.procesoActual ==> Attr(m.atributos, q) == Attr(n.atributos, q))
  {
    AplicarTcpMarco(c, n, q);
    assert CargaTrasPreemption(c, n) == AplicarTcp(c, n);
  }

  /** The re-queueing part of a preemption, for a head that outranks the running process. */
  lemma ReencolarEfecto(n: Nucleo)
    requires n.procesoActual != null && |n.colaListos| > 0
    requires n.colaListos[0].prioridad > n.procesoActual.prioridad
    ensures var m := Reencolar(n);
            && m.procesoActual == n.colaListos[0]
            && m.colaListos == Insertar(n.colaListos[1..], n.procesoActual)
            && Attr(m.atributos, n.procesoActual).estado == Listo
            && Attr(m.atributos, n.colaListos[0]) == Attr(n.atributos, n.colaListos[0])
            && m.resultados == n.resultados + [Evento(n.tiempoActual - 1, n.procesoActual.nombre, FinEjecucion, Ejecutando),
                                               Evento(n.tiempoActual, n.procesoActual.nombre, Preemption, Listo)]
  {
    InsertarTrasCabeza(n.colaListos, n.procesoActual);
  }

  /**
    The preemption check of `ejecutar` preempts, on the sorted ready list,
    whenever no window is open, the burst has more than one tick left and a
    ready process outranks the running one.
   */
  lemma ComprobarPreemptionExpropia(c: Configuracion, s: EstadoPE)
    requires s.nucleo.procesoActual != null && s.nucleo.tiempoRestanteBloqueo == 0
    requires Attr(s.nucleo.atributos, s.nucleo.procesoActual).duracionRafagasCpu != 1
    requires exists p :: p in s.nucleo.colaListos && p.prioridad > s.nucleo.procesoActual.prioridad
    ensures var n := s.nucleo;
            var o := OrdenarPorPrioridad(n.colaListos);
            && |o| > 0 && OrdenadaPorPrioridad(o) && multiset(o) == multiset(n.colaListos)
            && o[0].prioridad > n.procesoActual.prioridad
            && ComprobarPreemption(c, s) == PreemptarProcesoActual(c, s.(nucleo := n.(colaListos := o)))
  {
    VerificarPreemptionCorrecta(s.nucleo);
    OrdenarOrdena(s.nucleo.colaListos);
  }

  /**
    Preemption in `ejecutar`: with no window open, a burst with more than one
    tick left and a ready process of higher priority, the ready process of
    highest priority (the first among equals) takes the CPU, the preempted
    process goes back into the ready list by priority, no process is lost
    and the list stays ordered.
   */
  lemma ExpropiacionEfecto(c: Configuracion, s: EstadoPE)
    requires s.nucleo.procesoActual != null && s.nucleo.tiempoRestanteBloqueo == 0
    requires Attr(s.nucleo.atributos, s.nucleo.procesoActual).duracionRafagasCpu != 1
    requires exists p :: p in s.nucleo.colaListos && p.prioridad > s.nucleo.procesoActual.prioridad
    ensures var n := s.nucleo;
            var cur := n.procesoActual;
            var o := OrdenarPorPrioridad(n.colaListos);
            var m := ComprobarPreemption(c, s).nucleo;
            && |o| > 0
            && m.procesoActual == o[0]
            && m.colaListos == Insertar(o[1..], cur)
            && multiset(m.colaListos) + multiset{m.procesoActual} == multiset(n.colaListos) + multiset{cur}
            && OrdenadaPorPrioridad(m.colaListos)
  {
    var n := s.nucleo;
    var cur := n.procesoActual;
    ComprobarPreemptionExpropia(c, s);
    var o := OrdenarPorPrioridad(n.colaListos);
    PreemptarEfecto(c, s.(nucleo := n.(colaListos := o)));
    ReinsercionConserva(o, cur);
  }

  /** Swapping the head of an ordered list for `p`, inserted by priority, keeps the list ordered and loses no one. */
  lemma ReinsercionConserva(o: seq<Proceso>, p: Proceso)
    requires |o| > 0 && OrdenadaPorPrioridad(o)
    ensures OrdenadaPorPrioridad(Insertar(o[1..], p))
    ensures multiset(Insertar(o[1..], p)) + multiset{o[0]} == multiset(o) + multiset{p}
  {
    ColaOrdenada(o, 1);
    InsertarConservaOrden(o[1..], p);
    InsertarMulticonjunto(o[1..], p);
    assert o == [o[0]] + o[1..];
  }

  /**
    One CPU tick of `ejecutar_proceso_actual`: the running process's burst
    and `cpu_proc` each move by one and its per-process counter by one; a
    burst that is not over leaves it running with everything else as it was.
   */
  lemma EjecutarSigue(c: Configuracion, n: Nucleo, q: Proceso)
    requires n.procesoActual != null
    requires Attr(n.atributos, n.procesoActual).duracionRafagasCpu != 1
    ensures var p := n.procesoActual;
            var m := EjecutarProcesoActual(c, n);
            && m.procesoActual == p && m.colaListos == n.colaListos
            && m.procesosBloqueados == n.procesosBloqueados && m.procesosTerminados == n.procesosTerminados
            && m.resultados == n.resultados
            && m.cpuProc == n.cpuProc + 1
            && m.cpuProcPorProceso == Sumar(n.cpuProcPorProceso, p.nombre, 1)
            && Attr(m.atributos, p) == Attr(n.atributos, p).(duracionRafagasCpu := Attr(n.atributos, p).duracionRafagasCpu - 1)
            && (q != p ==> Attr(m.atributos, q) == Attr(n.atributos, q))
  {
  }

  lemma FinDeRafaga(c: Configuracion, n: Nucleo)
    requires n.procesoActual != null
    requires Attr(n.atributos, n.procesoActual).duracionRafagasCpu == 1
    ensures Attr(n.atributos, n.procesoActual).cantidadRafagasCpu == 1 ==>
              EjecutarProcesoActual(c, n) == TerminarProceso(c, TrasUltimoTick(n))
    ensures Attr(n.atributos, n.procesoActual).cantidadRafagasCpu != 1 ==>
              EjecutarProcesoActual(c, n) == BloquearProceso(TrasUltimoTick(n))
  {
  }

  /**
    The last tick of a burst that is not the last one: one burst fewer is
    left and the process blocks for I/O, leaving the CPU empty.
   */
  lemma EjecutarBloquea(c: Configuracion, n: Nucleo, q: Proceso)
    requires n.procesoActual != null
    requires Attr(n.atributos, n.procesoActual).duracionRafagasCpu == 1
    requires Attr(n.atributos, n.procesoActual).cantidadRafagasCpu != 1
    ensures var p := n.procesoActual;
            var m := EjecutarProcesoActual(c, n);
            var a := Attr(m.atributos, p);
            && m.procesoActual == null
            && m.procesosBloqueados == n.procesosBloqueados + [p]
            && m.colaListos == n.colaListos && m.procesosTerminados == n.procesosTerminados
            && m.cpuProc == n.cpuProc + 1
            && a.estado == Bloqueado && a.duracionRafagasCpu == 0
            && a.cantidadRafagasCpu == Attr(n.atributos, p).cantidadRafagasCpu - 1
            && a.tiempoBloqueo == n.tiempoActual && a.duracionRafagasIo == p.duracionRafagasIoOriginal
            && (q != p ==> Attr(m.atributos, q) == Attr(n.atributos, q))
  {
    FinDeRafaga(c, n);
    BloquearEfecto(TrasUltimoTick(n), q);
  }

  /**
    The last tick of the last burst: the process leaves the CPU for the
    terminated list, `terminando` behind a TFP window when TFP is positive
    and `terminado` at this tick otherwise.
   */
  lemma EjecutarTermina(c: Configuracion, n: Nucleo, q: Proceso)
    requires n.procesoActual != null
    requires Attr(n.atributos, n.procesoActual).duracionRafagasCpu == 1
    requires Attr(n.atributos, n.procesoActual).cantidadRafagasCpu == 1
    ensures var p := n.procesoActual;
            var m := EjecutarProcesoActual(c, n);
            var a := Attr(m.atributos, p);
            && m.procesoActual == null
            && m.procesosTerminados == n.procesosTerminados + [p]
            && m.colaListos == n.colaListos && m.procesosBloqueados == n.procesosBloqueados
            && m.cpuProc == n.cpuProc + 1
            && a.duracionRafagasCpu == 0 && a.cantidadRafagasCpu == 0
            && n.resultados + [Evento(n.tiempoActual, p.nombre, FinEjecucion, Ejecutando)] <= m.resultados
            && (c.tiempoTfp > 0 ==> a.estado == Terminando && m.tipoBloqueo == Tfp)
            && (c.tiempoTfp <= 0 ==> a.estado == Terminado && a.tiempoFin == Some(n.tiempoActual))
            && (q != p ==> Attr(m.atributos, q) == Attr(n.atributos, q))
  {
    EjecutarTerminaListas(c, n);
    EjecutarTerminaAtributos(c, n, q);
  }

  lemma EjecutarTerminaListas(c: Configuracion, n: Nucleo)
    requires n.procesoActual != null
    requires Attr(n.atributos, n.procesoActual).duracionRafagasCpu == 1
    requires Attr(n.atributos, n.procesoActual).cantidadRafagasCpu == 1
    ensures var p := n.procesoActual;
            var m := EjecutarProcesoActual(c, n);
            && m.procesoActual == null
            && m.procesosTerminados == n.procesosTerminados + [p]
            && m.colaListos == n.colaListos && m.procesosBloqueados == n.procesosBloqueados
            && m.cpuProc == n.cpuProc + 1
            && n.resultados + [Evento(n.tiempoActual, p.nombre, FinEjecucion, Ejecutando)] <= m.resultados
            && (c.tiempoTfp > 0 ==> m.tipoBloqueo == Tfp)
  {
    var p := n.procesoActual;
    FinDeRafaga(c, n);
    var n1 := TrasUltimoTick(n);
    var n0 := FinEjecucionActual(n1);
    assert n0.procesosTerminados == n.procesosTerminados && n0.colaListos == n.colaListos;
    assert n0.procesosBloqueados == n.procesosBloqueados && n0.cpuProc == n.cpuProc + 1;
    assert n0.resultados == n.resultados + [Evento(n.tiempoActual, p.nombre, FinEjecucion, Ejecutando)];
    assert n0.procesoActual == p;
    TerminarRestoEfecto(c, n0, p);
    if c.tiempoTfp > 0 {
      TerminarConTfp(c, n0);
    } else {
      TerminarSinTfp(c, n0);
    }
  }

  lemma EjecutarTerminaAtributos(c: Configuracion, n: Nucleo, q: Proceso)
    requires n.procesoActual != null
    requires Attr(n.atributos, n.procesoActual).duracionRafagasCpu == 1
    requires Attr(n.atributos, n.procesoActual).cantidadRafagasCpu == 1
    ensures var p := n.procesoActual;
            var m := EjecutarProcesoActual(c, n);
            var a := Attr(m.atributos, p);
            && a.duracionRafagasCpu == 0 && a.cantidadRafagasCpu == 0
            && (c.tiempoTfp > 0 ==> a.estado == Terminando)
            && (c.tiempoTfp <= 0 ==> a.estado == Terminado && a.tiempoFin == Some(n.tiempoActual))
            && (q != p ==> Attr(m.atributos, q) == Attr(n.atributos, q))
  {
    if c.tiempoTfp > 0 {
      EjecutarTerminaConTfp(c, n, q);
    } else {
      EjecutarTerminaSinTfp(c, n, q);
    }
  }

  lemma EjecutarTerminaConTfp(c: Configuracion, n: Nucleo, q: Proceso)
    requires n.procesoActual != null && c.tiempoTfp > 0
    requires Attr(n.atributos, n.procesoActual).duracionRafagasCpu == 1
    requires Attr(n.atributos, n.procesoActual).cantidadRafagasCpu == 1
    ensures var p := n.procesoActual;
            var m := EjecutarProcesoActual(c, n);
            && Attr(m.atributos, p) == Attr(n.atributos, p).(duracionRafagasCpu := 0, cantidadRafagasCpu := 0, estado := Terminando)
            && (q != p ==> Attr(m.atributos, q) == Attr(n.atributos, q))
  {
    FinDeRafaga(c, n);
    TerminarConTfp(c, FinEjecucionActual(TrasUltimoTick(n)));
  }

  lemma EjecutarTerminaSinTfp(c: Configuracion, n: Nucleo, q: Proceso)
    requires n.procesoActual != null && c.tiempoTfp <= 0
    requires Attr(n.atributos, n.procesoActual).duracionRafagasCpu == 1
    requires Attr(n.atributos, n.procesoActual).cantidadRafagasCpu == 1
    ensures var p := n.procesoActual;
            var m := EjecutarProcesoActual(c, n);
            && Attr(m.atributos, p) == Attr(n.atributos, p).(duracionRafagasCpu := 0, cantidadRafagasCpu := 0,
                                                               estado := Terminado, tiempoFin := Some(n.tiempoActual))
            && (q != p ==> Attr(m.atributos, q) == Attr(n.atributos, q))
  {
    FinDeRafaga(c, n);
    TerminarSinTfp(c, FinEjecucionActual(TrasUltimoTick(n)));
  }

  /**
    `seleccionar_siguiente_proceso`: the process taken is the first of the
    ready list whose name did not just finish I/O; every process before it
    did. It leaves the list (which keeps its order) and is dispatched. With
    no such process nothing changes.
   */
  lemma SeleccionEfecto(c: Configuracion, s: EstadoPE)
    ensures var n := s.nucleo;
            var r := SeleccionarSiguienteProceso(c, s);
            var i := PrimerSeleccionable(n.colaListos, s.recienTerminaronIo);
            && r.recienTerminaronIo == s.recienTerminaronIo
            && (i.None? ==> r == s)
            && (i.Some? ==>
                  var p := n.colaListos[i.value];
                  && p.nombre !in s.recienTerminaronIo
                  && (forall j :: 0 <= j < i.value ==> n.colaListos[j].nombre in s.recienTerminaronIo)
                  && r.nucleo == Despachar(c, n.(procesoActual := p, colaListos := r.nucleo.colaListos))
                  && r.nucleo.colaListos == n.colaListos[..i.value] + n.colaListos[i.value + 1..]
                  && multiset(r.nucleo.colaListos) + multiset{p} == multiset(n.colaListos)
                  && (OrdenadaPorPrioridad(n.colaListos) ==> OrdenadaPorPrioridad(r.nucleo.colaListos)))
  {
    var n := s.nucleo;
    var q := n.colaListos;
    match PrimerSeleccionable(q, s.recienTerminaronIo)
    case None =>
    case Some(i) =>
      var n1 := n.(procesoActual := q[i], colaListos := q[..i] + q[i + 1..]);
      DespacharEfecto(c, n1, q[i]);
      assert q == q[..i] + [q[i]] + q[i + 1..];
      QuitarIndiceOrdenada(q, i);
  }

  /** Removing one element from an ordered list leaves it ordered. */
  lemma QuitarIndiceOrdenada(q: seq<Proceso>, i: nat)
    requires i < |q|
    ensures OrdenadaPorPrioridad(q) ==> OrdenadaPorPrioridad(q[..i] + q[i + 1..])
  {
    var r := q[..i] + q[i + 1..];
    if OrdenadaPorPrioridad(q) {
      forall a, b | 0 <= a < b < |r| ensures r[a].prioridad >= r[b].prioridad {
        var a' := if a < i then a else a + 1;
        var b' := if b < i then b else b + 1;
        assert r[a] == q[a'] && r[b] == q[b'];
      }
    }
  }

  /**
    An iteration inside an overhead window that does not close yet: the
    countdown and `cpu_so` move by one, the clock advances, and there is no
    preemption, no dispatch, no CPU tick, no idle tick and no ready-time
    accrual for any process.
   */
  lemma VentanaEnCurso(c: Configuracion, s: EstadoPE, p: Proceso)
    requires s.nucleo.tiempoRestanteBloqueo > 1
    ensures var n := s.nucleo;
            var m := Paso(c, s).nucleo;
            && m.tiempoRestanteBloqueo == n.tiempoRestanteBloqueo - 1 && m.tipoBloqueo == n.tipoBloqueo
            && m.cpuSo == n.cpuSo + 1 && m.cpuProc == n.cpuProc && m.cpuIdle == n.cpuIdle
            && m.tiempoActual == n.tiempoActual + 1
            && m.procesoActual == n.procesoActual
            && Attr(m.atributos, p).tiempoEnListo == Attr(n.atributos, p).tiempoEnListo
  {
    var n0 := RegistrarFinTcp(s.nucleo);
    var n1 := ProcesarLlegadas(PorPrioridad, c, n0);
    LlegadasMarco(PorPrioridad, c, n0);
    LlegadasAtributos(PorPrioridad, n0, c.procesos, p);
    var n2 := n1.(tiempoRestanteBloqueo := n1.tiempoRestanteBloqueo - 1, cpuSo := n1.cpuSo + 1);
    assert ProcesarTiempoBloqueo(c, n1) == (n2, true);
    ProcesarBloqueadosMarco(PorPrioridad, n2);
    IoDeListo(PorPrioridad, PasoIo(n2, []), n2.procesosBloqueados, p);
  }

  /** A CPU tick never touches the ready list. */
  lemma EjecutarCola(c: Configuracion, n: Nucleo)
    ensures EjecutarProcesoActual(c, n).colaListos == n.colaListos
  {
    if n.procesoActual != null {
      var x := Attr(n.atributos, n.procesoActual);
      if x.duracionRafagasCpu == 1 {
        FinDeRafaga(c, n);
        if x.cantidadRafagasCpu == 1 {
          EjecutarTermina(c, n, n.procesoActual);
        } else {
          EjecutarBloquea(c, n, n.procesoActual);
        }
      }
    }
  }

  /** The ready list a closing TIP or TCP window leaves: sorted, and in the corner case with the running process swapped in for its head. */
  lemma CerrarTipTcpCola(c: Configuracion, n: Nucleo, tipo: Bloqueo)
    requires n.procesoActual != null
    ensures var o := if |n.colaListos| > 0 then OrdenarPorPrioridad(n.colaListos) else n.colaListos;
            var r := CerrarTipTcp(c, n, tipo).0.colaListos;
            && (|o| > 0 && o[0].prioridad > n.procesoActual.prioridad ==> r == Insertar(o, n.procesoActual)[1..])
            && (!(|o| > 0 && o[0].prioridad > n.procesoActual.prioridad) ==> r == o)
  {
    var n1 := if |n.colaListos| > 0 then n.(colaListos := OrdenarPorPrioridad(n.colaListos)) else n;
    if |n1.colaListos| > 0 && n1.colaListos[0].prioridad > n1.procesoActual.prioridad {
      ElegirCambia(c, n1, Some(n.procesoActual.nombre), tipo);
    } else {
      ElegirEjecuta(c, n1, Some(n.procesoActual.nombre), tipo);
    }
  }

  lemma ElegirCambia(c: Configuracion, n: Nucleo, nombre: Option<string>, tipo: Bloqueo)
    requires n.procesoActual != null
    requires |n.colaListos| > 0 && n.colaListos[0].prioridad > n.procesoActual.prioridad
    ensures ElegirTrasVentana(c, n, nombre, tipo).0.colaListos == Insertar(n.colaListos, n.procesoActual)[1..]
  {
  }

  lemma ElegirEjecuta(c: Configuracion, n: Nucleo, nombre: Option<string>, tipo: Bloqueo)
    requires n.procesoActual != null
    requires !(|n.colaListos| > 0 && n.colaListos[0].prioridad > n.procesoActual.prioridad)
    ensures ElegirTrasVentana(c, n, nombre, tipo).0.colaListos == n.colaListos
  {
    var e := EjecutarProcesoActual(c, PonerEnEjecucion(n));
    EjecutarCola(c, PonerEnEjecucion(n));
    CerrarVentanaCola(e, nombre, tipo);
  }

  lemma CerrarVentanaCola(n: Nucleo, nombre: Option<string>, tipo: Bloqueo)
    ensures CerrarVentana(n, nombre, tipo).colaListos == n.colaListos
  {
  }

  /** The ready list the window tick leaves: the same one, unless a TIP or TCP window closes with no TCP owed. */
  lemma TiempoBloqueoCola(c: Configuracion, n: Nucleo)
    ensures var r := ProcesarTiempoBloqueo(c, n).0.colaListos;
            var n1 := n.(tiempoRestanteBloqueo := n.tiempoRestanteBloqueo - 1, cpuSo := n.cpuSo + 1);
            || r == n.colaListos
            || (n.procesoActual != null && r == CerrarTipTcp(c, n1, n.tipoBloqueo).0.colaListos)
  {
    var n1 := n.(tiempoRestanteBloqueo := n.tiempoRestanteBloqueo - 1, cpuSo := n.cpuSo + 1);
    var tipo := n1.tipoBloqueo;
    if n.tiempoRestanteBloqueo <= 0 {
      assert ProcesarTiempoBloqueo(c, n) == (n, false);
    } else if n1.tiempoRestanteBloqueo != 0 {
      assert ProcesarTiempoBloqueo(c, n) == (n1, true);
    } else if tipo == Tfp {
      var f := FinalizarProcesoCompletamente(n1);
      assert ProcesarTiempoBloqueo(c, n) == (CerrarVentana(f, NombreTerminando(n1), tipo), true);
      CerrarVentanaCola(f, NombreTerminando(n1), tipo);
    } else if (tipo == Tip || tipo == Tcp) && n1.procesoActual != null {
      if tipo == Tip && n1.aplicarTcpDespuesTip {
        var e := Anotado(n1, n1.procesoActual.nombre, FinTip, SistemaLibre).(
                   aplicarTcpDespuesTip := false, tcpDespuesTipActivo := true);
        assert ProcesarTiempoBloqueo(c, n) == (CerrarVentana(EncadenarTcp(c, n1), None, tipo), true);
        AplicarTcpMarco(c, e, n1.procesoActual);
        CerrarVentanaCola(EncadenarTcp(c, n1), None, tipo);
      } else {
        assert ProcesarTiempoBloqueo(c, n) == CerrarTipTcp(c, n1, tipo);
      }
    } else {
      assert ProcesarTiempoBloqueo(c, n) == (CerrarVentana(n1, None, tipo), true);
      CerrarVentanaCola(n1, None, tipo);
    }
  }

  /** The window tick keeps the ready list in priority order, also in the corner case. */
  lemma TiempoBloqueoConservaOrden(c: Configuracion, n: Nucleo)
    requires OrdenadaPorPrioridad(n.colaListos)
    ensures OrdenadaPorPrioridad(ProcesarTiempoBloqueo(c, n).0.colaListos)
  {
    TiempoBloqueoCola(c, n);
    if n.procesoActual != null {
      var n1 := n.(tiempoRestanteBloqueo := n.tiempoRestanteBloqueo - 1, cpuSo := n.cpuSo + 1);
      CerrarTipTcpCola(c, n1, n.tipoBloqueo);
      if |n.colaListos| > 0 {
        OrdenarOrdena(n.colaListos);
        InsertarColaOrdenada(OrdenarPorPrioridad(n.colaListos), n.procesoActual);
      }
    }
  }

  lemma InsertarColaOrdenada(q: seq<Proceso>, p: Proceso)
    requires OrdenadaPorPrioridad(q)
    ensures OrdenadaPorPrioridad(Insertar(q, p)[1..])
  {
    InsertarConservaOrden(q, p);
    ColaOrdenada(Insertar(q, p), 1);
  }

  /** The preemption check keeps the ready list in priority order. */
  lemma ComprobarConservaOrden(c: Configuracion, s: EstadoPE)
    requires OrdenadaPorPrioridad(s.nucleo.colaListos)
    ensures OrdenadaPorPrioridad(ComprobarPreemption(c, s).nucleo.colaListos)
  {
    var n := s.nucleo;
    if n.procesoActual != null && n.tiempoRestanteBloqueo == 0 {
      VerificarPreemptionCorrecta(n);
      if VerificarPreemption(n).1 && Attr(n.atributos, n.procesoActual).duracionRafagasCpu != 1 {
        ExpropiacionEfecto(c, s);
      }
    }
  }

  /** An iteration with no window tick keeps the ready list in priority order. */
  lemma PasoLibreConservaOrden(c: Configuracion, s: EstadoPE)
    requires OrdenadaPorPrioridad(s.nucleo.colaListos)
    ensures OrdenadaPorPrioridad(PasoLibre(c, s).nucleo.colaListos)
  {
    var s1 := ComprobarPreemption(c, s);
    ComprobarConservaOrden(c, s);
    AcumularListoMarco(s1.nucleo, s1.nucleo.colaListos);
    var s2 := s1.(nucleo := AcumularListoDe(s1.nucleo, s1.nucleo.colaListos));
    SeleccionEfecto(c, s2);
    var s3 := if s2.nucleo.procesoActual == null then SeleccionarSiguienteProceso(c, s2) else s2;
    EjecutarCola(c, s3.nucleo);
  }

  /**
    Invariant of the `while` loop of `ejecutar`: a ready list in priority
    order is still in priority order after a whole iteration.
   */
  lemma PasoConservaOrden(c: Configuracion, s: EstadoPE)
    requires OrdenadaPorPrioridad(s.nucleo.colaListos)
    ensures OrdenadaPorPrioridad(Paso(c, s).nucleo.colaListos)
  {
    var n0 := RegistrarFinTcp(s.nucleo);
    assert n0.colaListos == s.nucleo.colaListos;
    LlegadasConservaOrden(c, n0);
    var n1 := ProcesarLlegadas(PorPrioridad, c, n0);
    TiempoBloqueoConservaOrden(c, n1);
    var r := ProcesarTiempoBloqueo(c, n1);
    ProcesarBloqueadosCola(PorPrioridad, r.0);
    var b := ProcesarBloqueados(PorPrioridad, r.0);
    EncolarTodosCasos(PorPrioridad, r.0.colaListos, b.terminaron);
    InsertarTodosConservaOrden(r.0.colaListos, b.terminaron);
    if !r.1 {
      PasoLibreConservaOrden(c, ProcesarProcesosBloqueados(EstadoPE(r.0, s.recienTerminaronIo)));
    }
  }

  /** The ready list of every run of `ejecutar` is in priority order at the head of every iteration and at the end. */
  lemma CorrerConservaOrden(c: Configuracion, s: EstadoPE, k: nat)
    requires OrdenadaPorPrioridad(s.nucleo.colaListos)
    ensures OrdenadaPorPrioridad(Correr(c, s, k).0.nucleo.colaListos)
  {
    var inv := (x: EstadoPE) => OrdenadaPorPrioridad(x.nucleo.colaListos);
    var paso := (x: EstadoPE) => Paso(c, x);
    forall x | inv(x) ensures inv(paso(x)) {
      PasoConservaOrden(c, x);
    }
    IterarInvariante(paso, (x: EstadoPE) => HayProcesosPendientes(c, x.nucleo), inv, s, k);
  }


  /**
    The corner case of a TIP or TCP window that closes while the head of the
    ready list outranks the running process: the head runs at once with
    `cambio_proceso_pe` and `inicio ejecucion` and no window of its own; the
    running process goes back into the list by priority as ready, and
    `cpu_proc` and its counter drop by one, although none of its ticks ran
    in this window.
   */
  lemma CambioEfecto(n: Nucleo, nombre: Option<string>, tipo: Bloqueo, q: Proceso)
    requires n.procesoActual != null && |n.colaListos| > 0
    requires n.colaListos[0].prioridad > n.procesoActual.prioridad
    ensures var p := n.procesoActual;
            var h := n.colaListos[0];
            var t := n.tiempoActual;
            var m := CambiarProceso(n, nombre, tipo);
            && m.procesoActual == h
            && m.colaListos == Insertar(n.colaListos[1..], p)
            && Attr(m.atributos, p).estado == Listo && Attr(m.atributos, h).estado == Ejecutando
            && (q != p && q != h ==> Attr(m.atributos, q) == Attr(n.atributos, q))
            && m.cpuProc == n.cpuProc - 1
            && m.cpuProcPorProceso == Sumar(n.cpuProcPorProceso, p.nombre, -1)
            && m.tipoBloqueo == NoBloqueo && m.tiempoRestanteBloqueo == n.tiempoRestanteBloqueo
            && m.resultados == n.resultados + [Evento(t, h.nombre, CambioProcesoPe, Ejecutando),
                                               Evento(t, h.nombre, InicioEjecucion, Ejecutando)]
                                            + (if NombreVerdadero(nombre) then [Evento(t, nombre.value, FinDe(tipo), SistemaLibre)] else [])
  {
    CambioListas(n, nombre, tipo);
    CambioAtributos(n, nombre, tipo, q);
    CambioContadores(n, nombre, tipo);
    CambioEventos(n, nombre, tipo);
  }

  lemma CambioListas(n: Nucleo, nombre: Option<string>, tipo: Bloqueo)
    requires n.procesoActual != null && |n.colaListos| > 0
    requires n.colaListos[0].prioridad > n.procesoActual.prioridad
    ensures var m := CambiarProceso(n, nombre, tipo);
            m.procesoActual == n.colaListos[0] && m.colaListos == Insertar(n.colaListos[1..], n.procesoActual)
  {
    InsertarTrasCabeza(n.colaListos, n.procesoActual);
  }

  lemma CambioAtributos(n: Nucleo, nombre: Option<string>, tipo: Bloqueo, q: Proceso)
    requires n.procesoActual != null && |n.colaListos| > 0
    requires n.colaListos[0].prioridad > n.procesoActual.prioridad
    ensures var p := n.procesoActual;
            var h := n.colaListos[0];
            var m := CambiarProceso(n, nombre, tipo);
            && Attr(m.atributos, p).estado == Listo && Attr(m.atributos, h).estado == Ejecutando
            && (q != p && q != h ==> Attr(m.atributos, q) == Attr(n.atributos, q))
  {
    var p := n.procesoActual;
    var h := n.colaListos[0];
    InsertarTrasCabeza(n.colaListos, p);
    CambioTabla(n, nombre, tipo);
    ConEstadoAttr(n.atributos, p, Listo, h, Ejecutando, q);
  }

  lemma CambioTabla(n: Nucleo, nombre: Option<string>, tipo: Bloqueo)
    requires n.procesoActual != null && |n.colaListos| > 0
    requires n.colaListos[0].prioridad > n.procesoActual.prioridad
    ensures CambiarProceso(n, nombre, tipo).atributos
            == ConEstado(ConEstado(n.atributos, n.procesoActual, Listo), n.colaListos[0], Ejecutando)
  {
    InsertarTrasCabeza(n.colaListos, n.procesoActual);
  }

  lemma CambioContadores(n: Nucleo, nombre: Option<string>, tipo: Bloqueo)
    requires n.procesoActual != null
    ensures var m := CambiarProceso(n, nombre, tipo);
            && m.cpuProc == n.cpuProc - 1
            && m.cpuProcPorProceso == Sumar(n.cpuProcPorProceso, n.procesoActual.nombre, -1)
            && m.tipoBloqueo == NoBloqueo && m.tiempoRestanteBloqueo == n.tiempoRestanteBloqueo
            && m.tiempoActual == n.tiempoActual
  {
  }

  /**
    The tick taken back was never run: a yielding process whose counter is 0
    (a new process that has not executed yet) is left at -1.
   */
  lemma CambioContadorNegativo(n: Nucleo, nombre: Option<string>, tipo: Bloqueo)
    requires n.procesoActual != null
    requires n.procesoActual.nombre in n.cpuProcPorProceso && n.cpuProcPorProceso[n.procesoActual.nombre] == 0
    ensures var m := CambiarProceso(n, nombre, tipo);
            && n.procesoActual.nombre in m.cpuProcPorProceso
            && m.cpuProcPorProceso[n.procesoActual.nombre] == -1
  {
    CambioContadores(n, nombre, tipo);
  }

  lemma CambioEventos(n: Nucleo, nombre: Option<string>, tipo: Bloqueo)
    requires n.procesoActual != null && |n.colaListos| > 0
    requires n.colaListos[0].prioridad > n.procesoActual.prioridad
    ensures var h := n.colaListos[0];
            var t := n.tiempoActual;
            CambiarProceso(n, nombre, tipo).resultados
              == n.resultados + [Evento(t, h.nombre, CambioProcesoPe, Ejecutando),
                                 Evento(t, h.nombre, InicioEjecucion, Ejecutando)]
                              + (if NombreVerdadero(nombre) then [Evento(t, nombre.value, FinDe(tipo), SistemaLibre)] else [])
  {
    InsertarTrasCabeza(n.colaListos, n.procesoActual);
  }

  /**
    The loop of `ejecutar` stops after at most `TiempoMaximo` iterations, and
    when it stops earlier nothing is pending any more.
   */
  lemma CorrerTermina(c: Configuracion, s: EstadoPE, k: nat)
    requires k <= TiempoMaximo
    ensures var r := Correr(c, s, k);
            && k <= r.1 <= TiempoMaximo
            && (r.1 < TiempoMaximo ==> !HayProcesosPendientes(c, r.0.nucleo))
            && (!HayProcesosPendientes(c, s.nucleo) ==> r == (s, k))
  {
    IterarTermina((x: EstadoPE) => Paso(c, x), (x: EstadoPE) => HayProcesosPendientes(c, x.nucleo), s, k);
  }


  /** A process whose name is among the just-finished-I/O names is never the one dispatched. */
  lemma NoSeleccionaRecien(c: Configuracion, m: Nucleo, recien: seq<string>, p: Proceso)
    requires m.procesoActual == null && p.nombre in recien
    ensures SeleccionarSiguienteProceso(c, EstadoPE(m, recien)).nucleo.procesoActual != p
  {
    var s := EstadoPE(m, recien);
    if |m.colaListos| > 0 {
      match PrimerSeleccionable(m.colaListos, recien)
      case None =>
        assert SeleccionarSiguienteProceso(c, s) == s;
      case Some(i) =>
        var n1 := m.(procesoActual := m.colaListos[i], colaListos := m.colaListos[..i] + m.colaListos[i + 1..]);
        DespacharMarco(c, n1, p);
        assert SeleccionarSiguienteProceso(c, s).nucleo == Despachar(c, n1);
    } else {
      assert SeleccionarSiguienteProceso(c, s) == s;
    }
  }

  /**
    The same-tick I/O guard: a process whose I/O ends in this tick goes back
    into the ready list as ready with its CPU burst reset, its name is
    remembered, and so no dispatch later in the same tick can pick it.
   */
  lemma GuardaMismoTick(c: Configuracion, s: EstadoPE, p: Proceso, m: Nucleo)
    requires SinRepetidos(s.nucleo.procesosBloqueados)
    requires p in s.nucleo.procesosBloqueados && TerminaIo(s.nucleo.atributos, p, s.nucleo.tiempoActual)
    requires m.procesoActual == null
    ensures var s2 := ProcesarProcesosBloqueados(s);
            && p in s2.nucleo.colaListos && p !in s2.nucleo.procesosBloqueados
            && Attr(s2.nucleo.atributos, p).estado == Listo
            && Attr(s2.nucleo.atributos, p).duracionRafagasCpu == p.duracionRafagasCpuOriginal
            && p.nombre in s2.recienTerminaronIo
            && SeleccionarSiguienteProceso(c, EstadoPE(m, s2.recienTerminaronIo)).nucleo.procesoActual != p
  {
    FinIoReencola(PorPrioridad, s.nucleo, p);
    var r := ProcesarBloqueados(PorPrioridad, s.nucleo);
    var recien := s.recienTerminaronIo + Nombres(r.terminaron);
    assert p.nombre in recien;
    NoSeleccionaRecien(c, m, recien, p);
  }

  /** The end of a burst does not move the clock. */
  lemma CerrarRafagaReloj(c: Configuracion, n1: Nucleo, t0: Tabla)
    requires n1.procesoActual != null
    ensures CerrarRafaga(c, n1, t0).tiempoActual == n1.tiempoActual
  {
    var p := n1.procesoActual;
    var a := Attr(n1.atributos, p);
    var n2 := n1.(atributos := t0[p := a.(cantidadRafagasCpu := a.cantidadRafagasCpu - 1)]);
    if a.cantidadRafagasCpu == 1 {
      TerminarProcesoReloj(c, n2);
    }
  }

  /** `terminar_proceso` does not move the clock. */
  lemma TerminarProcesoReloj(c: Configuracion, n: Nucleo)
    requires n.procesoActual != null
    ensures TerminarProceso(c, n).tiempoActual == n.tiempoActual
  {
    TerminarRestoReloj(c, FinEjecucionActual(n));
  }

  /** One CPU tick does not move the clock. */
  lemma EjecutarReloj(c: Configuracion, n: Nucleo)
    ensures EjecutarProcesoActual(c, n).tiempoActual == n.tiempoActual
  {
    if n.procesoActual != null {
      var n1 := ConsumirTick(n);
      if Attr(n1.atributos, n.procesoActual).duracionRafagasCpu == 0 {
        CerrarRafagaReloj(c, n1, n.atributos);
      }
    }
  }

  /** Closing a TIP or TCP window does not move the clock. */
  lemma CerrarTipTcpReloj(c: Configuracion, n: Nucleo, tipo: Bloqueo)
    requires n.procesoActual != null
    ensures CerrarTipTcp(c, n, tipo).0.tiempoActual == n.tiempoActual
  {
    var n1 := if |n.colaListos| > 0 then n.(colaListos := OrdenarPorPrioridad(n.colaListos)) else n;
    var nombre := Some(n.procesoActual.nombre);
    assert CerrarTipTcp(c, n, tipo) == ElegirTrasVentana(c, n1, nombre, tipo);
    if |n1.colaListos| > 0 && n1.colaListos[0].prioridad > n1.procesoActual.prioridad {
      assert ElegirTrasVentana(c, n1, nombre, tipo).0 == CambiarProceso(n1, nombre, tipo);
      CambioContadores(n1, nombre, tipo);
    } else {
      var e := PonerEnEjecucion(n1);
      EjecutarReloj(c, e);
      assert ElegirTrasVentana(c, n1, nombre, tipo).0 == CerrarVentana(EjecutarProcesoActual(c, e), nombre, tipo);
      CerrarVentanaReloj(EjecutarProcesoActual(c, e), nombre, tipo);
    }
  }

  /** The window tick does not move the clock. */
  lemma TiempoBloqueoReloj(c: Configuracion, n: Nucleo)
    ensures ProcesarTiempoBloqueo(c, n).0.tiempoActual == n.tiempoActual
  {
    var n1 := n.(tiempoRestanteBloqueo := n.tiempoRestanteBloqueo - 1, cpuSo := n.cpuSo + 1);
    var tipo := n1.tipoBloqueo;
    if n.tiempoRestanteBloqueo <= 0 {
      assert ProcesarTiempoBloqueo(c, n) == (n, false);
    } else if n1.tiempoRestanteBloqueo != 0 {
      assert ProcesarTiempoBloqueo(c, n) == (n1, true);
    } else if tipo == Tfp {
      assert ProcesarTiempoBloqueo(c, n) == (CerrarTfp(n1), true);
      FinalizarReloj(n1);
    } else if (tipo == Tip || tipo == Tcp) && n1.procesoActual != null {
      if tipo == Tip && n1.aplicarTcpDespuesTip {
        var e := Anotado(n1, n1.procesoActual.nombre, FinTip, SistemaLibre).(
                   aplicarTcpDespuesTip := false, tcpDespuesTipActivo := true);
        assert ProcesarTiempoBloqueo(c, n) == (CerrarVentana(EncadenarTcp(c, n1), None, tipo), true);
        AplicarTcpReloj(c, e);
        CerrarVentanaReloj(EncadenarTcp(c, n1), None, tipo);
      } else {
        assert ProcesarTiempoBloqueo(c, n) == CerrarTipTcp(c, n1, tipo);
        CerrarTipTcpReloj(c, n1, tipo);
      }
    } else {
      assert ProcesarTiempoBloqueo(c, n) == (CerrarVentana(n1, None, tipo), true);
      CerrarVentanaReloj(n1, None, tipo);
    }
  }

  /** The preemption check does not move the clock. */
  lemma ComprobarReloj(c: Configuracion, s: EstadoPE)
    ensures ComprobarPreemption(c, s).nucleo.tiempoActual == s.nucleo.tiempoActual
  {
    var n := s.nucleo;
    if n.procesoActual != null && n.tiempoRestanteBloqueo == 0 {
      var r := VerificarPreemption(n);
      if r.1 && Attr(n.atributos, n.procesoActual).duracionRafagasCpu != 1 {
        var n3 := Reencolar(r.0.(colaListos := OrdenarPorPrioridad(r.0.colaListos)));
        var p := n3.procesoActual;
        assert ComprobarPreemption(c, s).nucleo == CargaTrasPreemption(c, n3);
        if Attr(n3.atributos, p).procesoNuevo {
          AplicarTipReloj(c, n3);
          assert CargaTrasPreemption(c, n3) == MarcarVisto(AplicarTip(c, n3), p).(aplicarTcpDespuesTip := true);
        } else {
          AplicarTcpReloj(c, n3);
        }
      } else {
        assert ComprobarPreemption(c, s).nucleo == r.0;
      }
    }
  }

  /** Dispatch does not move the clock. */
  lemma SeleccionReloj(c: Configuracion, s: EstadoPE)
    ensures SeleccionarSiguienteProceso(c, s).nucleo.tiempoActual == s.nucleo.tiempoActual
  {
    var n := s.nucleo;
    if |n.colaListos| > 0 {
      match PrimerSeleccionable(n.colaListos, s.recienTerminaronIo)
      case None =>
      case Some(i) =>
        var n1 := n.(procesoActual := n.colaListos[i], colaListos := n.colaListos[..i] + n.colaListos[i + 1..]);
        DespacharMarco(c, n1, n1.procesoActual);
    }
  }

  /** Every iteration of the loop of `ejecutar` moves the clock by exactly one tick. */
  lemma PasoReloj(c: Configuracion, s: EstadoPE)
    ensures Paso(c, s).nucleo.tiempoActual == s.nucleo.tiempoActual + 1
  {
    var n1 := ProcesarLlegadas(PorPrioridad, c, RegistrarFinTcp(s.nucleo));
    LlegadasMarco(PorPrioridad, c, RegistrarFinTcp(s.nucleo));
    var r := ProcesarTiempoBloqueo(c, n1);
    TiempoBloqueoReloj(c, n1);
    var s2 := ProcesarProcesosBloqueados(EstadoPE(r.0, s.recienTerminaronIo));
    ProcesarBloqueadosMarco(PorPrioridad, r.0);
    if !r.1 {
      PasoLibreReloj(c, s2);
    }
  }

  lemma PasoLibreReloj(c: Configuracion, s: EstadoPE)
    ensures PasoLibre(c, s).nucleo.tiempoActual == s.nucleo.tiempoActual + 1
  {
    var s1 := ComprobarPreemption(c, s);
    ComprobarReloj(c, s);
    var s2 := s1.(nucleo := AcumularListoDe(s1.nucleo, s1.nucleo.colaListos));
    AcumularListoMarco(s1.nucleo, s1.nucleo.colaListos);
    var s3 := if s2.nucleo.procesoActual == null then SeleccionarSiguienteProceso(c, s2) else s2;
    SeleccionReloj(c, s2);
    EjecutarReloj(c, s3.nucleo);
  }
}
