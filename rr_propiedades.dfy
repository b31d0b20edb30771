/**
  Properties of the round-robin engine: the ready list is served first in,
  first out; every dispatch starts a full quantum; one CPU tick ends the
  burst, ends the quantum or goes on, and the end of the burst wins; a
  burst of `D` ticks under a quantum `Q` is cut `ceil(D/Q) - 1` times.
 */
module PropiedadesRR {
  import opened Procesos
  import opened Motor
  import opened PropiedadesMotor
  import opened ModeloRR

  // ---------------------------------------------------------------------------
  // Dispatch
  // ---------------------------------------------------------------------------

  /**
    `seleccionar_siguiente_proceso` of RR: the head of the ready list takes
    the CPU and leaves the list, the quantum is full, the process is new no
    longer and is charged TIP when new and TCP otherwise. A new process
    consumes a TCP owed by an earlier quantum preemption, which is then
    chained after its TIP; a returning one leaves the debt for later. Other
    processes and the clock are untouched.
   */
  lemma SeleccionRR(c: Configuracion, quantum: int, s: EstadoRR, q: Proceso)
    requires |s.nucleo.colaListos| > 0
    ensures var n := s.nucleo;
            var p := n.colaListos[0];
            var nuevo := Attr(n.atributos, p).procesoNuevo;
            var r := SeleccionarSiguienteProceso(c, quantum, s);
            var m := r.nucleo;
            && m.procesoActual == p && m.colaListos == n.colaListos[1..]
            && r.quantumRestante == quantum
            && m.tiempoActual == n.tiempoActual
            && !Attr(m.atributos, p).procesoNuevo
            && (q != p ==> Attr(m.atributos, q) == Attr(n.atributos, q))
            && (nuevo ==> !r.necesitaTcpPorQuantum && (s.necesitaTcpPorQuantum ==> m.aplicarTcpDespuesTip))
            && (!nuevo ==> r.necesitaTcpPorQuantum == s.necesitaTcpPorQuantum)
            && (nuevo && c.tiempoTip > 0 ==>
                  m.tipoBloqueo == Tip && m.tiempoRestanteBloqueo == c.tiempoTip
                  && m.resultados == n.resultados + [Evento(n.tiempoActual, p.nombre, InicioTip, BloqueadoSistema)])
            && (!nuevo && c.tiempoTcp > 0 ==>
                  m.tipoBloqueo == Tcp && m.tiempoRestanteBloqueo == c.tiempoTcp
                  && m.resultados == n.resultados + [Evento(n.tiempoActual, p.nombre, InicioTcp, BloqueadoSistema)])
            && (!nuevo && c.tiempoTcp <= 0 ==>
                  m.tipoBloqueo == NoBloqueo && Attr(m.atributos, p).estado == Ejecutando
                  && m.resultados == n.resultados + [Evento(n.tiempoActual, p.nombre, InicioEjecucion, Ejecutando)])
  {
    var n := s.nucleo;
    var p := n.colaListos[0];
    var n1 := n.(procesoActual := p, colaListos := n.colaListos[1..]);
    DespacharEfecto(c, n1, q);
    DespacharMarco(c, n1, q);
    var n2 := Despachar(c, n1);
    if Attr(n.atributos, p).procesoNuevo && s.necesitaTcpPorQuantum {
      assert SeleccionarSiguienteProceso(c, quantum, s) == EstadoRR(n2.(aplicarTcpDespuesTip := true), quantum, false);
    } else {
      assert SeleccionarSiguienteProceso(c, quantum, s) == EstadoRR(n2, quantum, s.necesitaTcpPorQuantum);
    }
  }

  /** With an empty ready list the dispatch does nothing. */
  lemma SeleccionVaciaRR(c: Configuracion, quantum: int, s: EstadoRR)
    requires |s.nucleo.colaListos| == 0
    ensures SeleccionarSiguienteProceso(c, quantum, s) == s
  {
  }

  // ---------------------------------------------------------------------------
  // One CPU tick
  // ---------------------------------------------------------------------------

  /**
    A tick that neither ends the burst nor the quantum: the process stays on
    the CPU with one burst tick and one quantum tick fewer, `cpu_proc` and
    its own counter grow by one, and nothing is queued or logged.
   */
  lemma EjecutarSigueRR(c: Configuracion, s: EstadoRR, q: Proceso)
    requires s.nucleo.procesoActual != null
    requires Attr(s.nucleo.atributos, s.nucleo.procesoActual).duracionRafagasCpu != 1
    requires s.quantumRestante != 1
    ensures var n := s.nucleo;
            var p := n.procesoActual;
            var r := EjecutarProcesoActual(c, s);
            var m := r.nucleo;
            && m.procesoActual == p && m.colaListos == n.colaListos
            && m.procesosBloqueados == n.procesosBloqueados && m.procesosTerminados == n.procesosTerminados
            && m.resultados == n.resultados && m.tiempoActual == n.tiempoActual
            && m.cpuProc == n.cpuProc + 1 && m.cpuProcPorProceso == Sumar(n.cpuProcPorProceso, p.nombre, 1)
            && Attr(m.atributos, p) == Attr(n.atributos, p).(duracionRafagasCpu := Attr(n.atributos, p).duracionRafagasCpu - 1)
            && (q != p ==> Attr(m.atributos, q) == Attr(n.atributos, q))
            && r.quantumRestante == s.quantumRestante - 1
            && r.necesitaTcpPorQuantum == s.necesitaTcpPorQuantum
  {
  }

  /**
    The tick that uses up the quantum of a burst that is not over: the
    process goes to the tail of the ready list as ready, with
    `fin_ejecucion` and then `preemption_quantum` at this tick; the CPU is
    left empty with quantum 0 and a TCP is owed.
   */
  lemma EjecutarExpiraRR(c: Configuracion, s: EstadoRR, q: Proceso)
    requires s.nucleo.procesoActual != null
    requires Attr(s.nucleo.atributos, s.nucleo.procesoActual).duracionRafagasCpu != 1
    requires s.quantumRestante == 1
    ensures var n := s.nucleo;
            var p := n.procesoActual;
            var t := n.tiempoActual;
            var r := EjecutarProcesoActual(c, s);
            var m := r.nucleo;
            && m.procesoActual == null && m.colaListos == n.colaListos + [p]
            && m.procesosBloqueados == n.procesosBloqueados && m.procesosTerminados == n.procesosTerminados
            && m.resultados == n.resultados + [Evento(t, p.nombre, FinEjecucion, Ejecutando),
                                               Evento(t, p.nombre, PreemptionQuantum, Listo)]
            && m.tiempoActual == t && m.cpuProc == n.cpuProc + 1
            && Attr(m.atributos, p) == Attr(n.atributos, p).(duracionRafagasCpu := Attr(n.atributos, p).duracionRafagasCpu - 1,
                                                               estado := Listo)
            && (q != p ==> Attr(m.atributos, q) == Attr(n.atributos, q))
            && r.quantumRestante == 0 && r.necesitaTcpPorQuantum
  {
    var n := s.nucleo;
    var p := n.procesoActual;
    var a := Attr(n.atributos, p).(duracionRafagasCpu := Attr(n.atributos, p).duracionRafagasCpu - 1);
    var s1 := EstadoRR(n.(atributos := n.atributos[p := a], cpuProc := n.cpuProc + 1,
                          cpuProcPorProceso := Sumar(n.cpuProcPorProceso, p.nombre, 1)),
                       0, s.necesitaTcpPorQuantum);
    assert EjecutarProcesoActual(c, s) == PreemptarProcesoActual(s1);
  }

  /**
    The tick that ends a burst that is not the last: the process blocks for
    I/O with one burst fewer, the CPU is left empty with quantum 0, and the
    process is not re-queued nor preempted, even if its quantum ran out in
    the same tick.
   */
  lemma EjecutarBloqueaRR(c: Configuracion, s: EstadoRR, q: Proceso)
    requires s.nucleo.procesoActual != null
    requires Attr(s.nucleo.atributos, s.nucleo.procesoActual).duracionRafagasCpu == 1
    requires Attr(s.nucleo.atributos, s.nucleo.procesoActual).cantidadRafagasCpu != 1
    ensures var n := s.nucleo;
            var p := n.procesoActual;
            var t := n.tiempoActual;
            var r := EjecutarProcesoActual(c, s);
            var m := r.nucleo;
            var a := Attr(m.atributos, p);
            && m.procesoActual == null && r.quantumRestante == 0
            && r.necesitaTcpPorQuantum == s.necesitaTcpPorQuantum
            && m.colaListos == n.colaListos && m.procesosTerminados == n.procesosTerminados
            && m.procesosBloqueados == n.procesosBloqueados + [p]
            && m.cpuProc == n.cpuProc + 1 && m.tiempoActual == t
            && a.estado == Bloqueado && a.duracionRafagasCpu == 0
            && a.cantidadRafagasCpu == Attr(n.atributos, p).cantidadRafagasCpu - 1
            && a.tiempoBloqueo == t && a.duracionRafagasIo == p.duracionRafagasIoOriginal
            && m.resultados == n.resultados + [Evento(t, p.nombre, FinEjecucion, Ejecutando),
                                               Evento(t, p.nombre, BloqueoIo, Bloqueado)]
                                            + (if p.duracionRafagasIoOriginal > 0
                                               then [Evento(t + 1, p.nombre, InicioIo, Bloqueado)] else [])
            && (q != p ==> Attr(m.atributos, q) == Attr(n.atributos, q))
  {
    var n := s.nucleo;
    var n1 := TrasUltimoTick(n);
    assert EjecutarProcesoActual(c, s) == BloquearProcesoRR(EstadoRR(n1, s.quantumRestante - 1, s.necesitaTcpPorQuantum));
    BloquearEfecto(n1, q);
  }

  /** Whether the terminating process still has a TCP open before this tick, by its `inicio_tcp` and `fin_tcp` events. */
  predicate TcpPendiente(log: seq<Evento>, nombre: string, t: int)
  {
    CuentaEventos(log, nombre, InicioTcp, t) > CuentaEventos(log, nombre, FinTcp, t)
  }

  /** The state the last tick of a burst hands to `terminar_proceso` or `bloquear_proceso`. */
  lemma FinDeRafagaRR(c: Configuracion, s: EstadoRR)
    requires s.nucleo.procesoActual != null
    requires Attr(s.nucleo.atributos, s.nucleo.procesoActual).duracionRafagasCpu == 1
    ensures var s1 := EstadoRR(TrasUltimoTick(s.nucleo), s.quantumRestante - 1, s.necesitaTcpPorQuantum);
            var x := Attr(s.nucleo.atributos, s.nucleo.procesoActual);
            && (x.cantidadRafagasCpu == 1 ==> EjecutarProcesoActual(c, s) == TerminarProceso(c, s1))
            && (x.cantidadRafagasCpu != 1 ==> EjecutarProcesoActual(c, s) == BloquearProcesoRR(s1))
  {
  }

  /**
    The tick that ends the last burst: `fin_ejecucion`, then `fin_tcp` when
    a TCP of the process is still open, then the TFP window or the
    termination; the process joins the terminated list, the CPU is left
    empty with quantum 0 and the ready and blocked lists stay as they were.
   */
  lemma EjecutarTerminaRR(c: Configuracion, s: EstadoRR)
    requires s.nucleo.procesoActual != null
    requires Attr(s.nucleo.atributos, s.nucleo.procesoActual).duracionRafagasCpu == 1
    requires Attr(s.nucleo.atributos, s.nucleo.procesoActual).cantidadRafagasCpu == 1
    ensures var n := s.nucleo;
            var p := n.procesoActual;
            var t := n.tiempoActual;
            var r := EjecutarProcesoActual(c, s);
            var m := r.nucleo;
            && m.procesoActual == null && r.quantumRestante == 0
            && r.necesitaTcpPorQuantum == s.necesitaTcpPorQuantum
            && m.colaListos == n.colaListos && m.procesosBloqueados == n.procesosBloqueados
            && m.procesosTerminados == n.procesosTerminados + [p]
            && m.cpuProc == n.cpuProc + 1 && m.cpuSo == n.cpuSo && m.tiempoActual == t
            && m.resultados == n.resultados + [Evento(t, p.nombre, FinEjecucion, Ejecutando)]
                                            + (if TcpPendiente(n.resultados, p.nombre, t)
                                               then [Evento(t, p.nombre, FinTcp, SistemaLibre)] else [])
                                            + (if c.tiempoTfp > 0 then [Evento(t, p.nombre, InicioTfp, BloqueadoSistema)]
                                               else [Evento(t, p.nombre, Terminacion, Terminado)])
  {
    var n := s.nucleo;
    var n1 := TrasUltimoTick(n);
    FinDeRafagaRR(c, s);
    var s1 := EstadoRR(n1, s.quantumRestante - 1, s.necesitaTcpPorQuantum);
    assert n1.procesoActual == n.procesoActual && n1.resultados == n.resultados && n1.tiempoActual == n.tiempoActual;
    assert n1.colaListos == n.colaListos && n1.procesosBloqueados == n.procesosBloqueados;
    assert n1.procesosTerminados == n.procesosTerminados && n1.cpuProc == n.cpuProc + 1 && n1.cpuSo == n.cpuSo;
    TerminarProcesoListas(c, s1);
    TerminarProcesoEventos(c, s1);
  }

  /** The same for the records: the terminating process ends with no burst left, the others are untouched. */
  lemma EjecutarTerminaAtributosRR(c: Configuracion, s: EstadoRR, q: Proceso)
    requires s.nucleo.procesoActual != null
    requires Attr(s.nucleo.atributos, s.nucleo.procesoActual).duracionRafagasCpu == 1
    requires Attr(s.nucleo.atributos, s.nucleo.procesoActual).cantidadRafagasCpu == 1
    ensures var n := s.nucleo;
            var p := n.procesoActual;
            var m := EjecutarProcesoActual(c, s).nucleo;
            var a := Attr(m.atributos, p);
            && a.duracionRafagasCpu == 0 && a.cantidadRafagasCpu == 0
            && (c.tiempoTfp > 0 ==> a.estado == Terminando)
            && (c.tiempoTfp <= 0 ==> a.estado == Terminado && a.tiempoFin == Some(n.tiempoActual))
            && (q != p ==> Attr(m.atributos, q) == Attr(n.atributos, q))
  {
    if c.tiempoTfp > 0 {
      EjecutarTerminaConTfpRR(c, s, q);
    } else {
      EjecutarTerminaSinTfpRR(c, s, q);
    }
  }

  lemma EjecutarTerminaConTfpRR(c: Configuracion, s: EstadoRR, q: Proceso)
    requires s.nucleo.procesoActual != null && c.tiempoTfp > 0
    requires Attr(s.nucleo.atributos, s.nucleo.procesoActual).duracionRafagasCpu == 1
    requires Attr(s.nucleo.atributos, s.nucleo.procesoActual).cantidadRafagasCpu == 1
    ensures var n := s.nucleo;
            var p := n.procesoActual;
            var m := EjecutarProcesoActual(c, s).nucleo;
            && Attr(m.atributos, p) == Attr(n.atributos, p).(duracionRafagasCpu := 0, cantidadRafagasCpu := 0, estado := Terminando)
            && (q != p ==> Attr(m.atributos, q) == Attr(n.atributos, q))
  {
    var n1 := TrasUltimoTick(s.nucleo);
    FinDeRafagaRR(c, s);
    TerminarAtributosConTfp(c, n1, q);
  }

  lemma EjecutarTerminaSinTfpRR(c: Configuracion, s: EstadoRR, q: Proceso)
    requires s.nucleo.procesoActual != null && c.tiempoTfp <= 0
    requires Attr(s.nucleo.atributos, s.nucleo.procesoActual).duracionRafagasCpu == 1
    requires Attr(s.nucleo.atributos, s.nucleo.procesoActual).cantidadRafagasCpu == 1
    ensures var n := s.nucleo;
            var p := n.procesoActual;
            var m := EjecutarProcesoActual(c, s).nucleo;
            && Attr(m.atributos, p) == Attr(n.atributos, p).(duracionRafagasCpu := 0, cantidadRafagasCpu := 0,
                                                               estado := Terminado, tiempoFin := Some(n.tiempoActual))
            && (q != p ==> Attr(m.atributos, q) == Attr(n.atributos, q))
  {
    var n1 := TrasUltimoTick(s.nucleo);
    FinDeRafagaRR(c, s);
    TerminarAtributosSinTfp(c, n1, q);
  }

  lemma TerminarAtributosConTfp(c: Configuracion, n: Nucleo, q: Proceso)
    requires n.procesoActual != null && c.tiempoTfp > 0
    ensures var p := n.procesoActual;
            var m := TerminarResto(c, CerrarTcpPendiente(FinEjecucionActual(n)));
            && Attr(m.atributos, p) == Attr(n.atributos, p).(estado := Terminando)
            && (q != p ==> Attr(m.atributos, q) == Attr(n.atributos, q))
  {
    var p := n.procesoActual;
    var n0 := CerrarTcpPendiente(FinEjecucionActual(n));
    CierreTcpCampos(n);
    assert TerminarResto(c, n0).atributos == ConEstado(n.atributos, p, Terminando) by {
      TerminarConTfp(c, n0);
    }
  }

  lemma TerminarAtributosSinTfp(c: Configuracion, n: Nucleo, q: Proceso)
    requires n.procesoActual != null && c.tiempoTfp <= 0
    ensures var p := n.procesoActual;
            var m := TerminarResto(c, CerrarTcpPendiente(FinEjecucionActual(n)));
            && Attr(m.atributos, p) == Attr(n.atributos, p).(estado := Terminado, tiempoFin := Some(n.tiempoActual))
            && (q != p ==> Attr(m.atributos, q) == Attr(n.atributos, q))
  {
    var p := n.procesoActual;
    var n0 := CerrarTcpPendiente(FinEjecucionActual(n));
    CierreTcpCampos(n);
    assert TerminarResto(c, n0).atributos
           == n.atributos[p := Attr(n.atributos, p).(tiempoFin := Some(n.tiempoActual), estado := Terminado)] by {
      TerminarSinTfp(c, n0);
    }
  }

  /** The first two steps of the RR `terminar_proceso` only append to the log. */
  lemma CierreTcpCampos(n: Nucleo)
    requires n.procesoActual != null
    ensures var m := CerrarTcpPendiente(FinEjecucionActual(n));
            && m.atributos == n.atributos && m.procesoActual == n.procesoActual && m.tiempoActual == n.tiempoActual
            && m.colaListos == n.colaListos && m.procesosBloqueados == n.procesosBloqueados
            && m.procesosTerminados == n.procesosTerminados && m.cpuProc == n.cpuProc && m.cpuSo == n.cpuSo
  {
    var n1 := FinEjecucionActual(n);
    assert n1 == n.(resultados := n1.resultados);
    var m := CerrarTcpPendiente(n1);
    assert m == n1.(resultados := m.resultados);
  }

  // ---------------------------------------------------------------------------
  // terminar_proceso and bloquear_proceso
  // ---------------------------------------------------------------------------

  /** Events logged at or after tick `t` do not change a count of events before `t`. */
  lemma CuentaEventosPosteriores(log: seq<Evento>, e: Evento, nombre: string, k: TipoEvento, t: int)
    requires e.tiempo >= t
    ensures CuentaEventos(log + [e], nombre, k, t) == CuentaEventos(log, nombre, k, t)
  {
    assert (log + [e])[..|log|] == log;
  }

  /**
    The first two steps of the RR `terminar_proceso`: `fin_ejecucion`, and
    `fin_tcp` exactly when a TCP of the process is still open before this
    tick (the `fin_ejecucion` just logged is not counted).
   */
  lemma CierreTcpEfecto(n: Nucleo)
    requires n.procesoActual != null
    ensures var p := n.procesoActual;
            var t := n.tiempoActual;
            CerrarTcpPendiente(FinEjecucionActual(n))
              == n.(resultados := n.resultados + [Evento(t, p.nombre, FinEjecucion, Ejecutando)]
                                              + (if TcpPendiente(n.resultados, p.nombre, t)
                                                 then [Evento(t, p.nombre, FinTcp, SistemaLibre)] else []))
  {
    var p := n.procesoActual;
    var t := n.tiempoActual;
    var e := Evento(t, p.nombre, FinEjecucion, Ejecutando);
    var n1 := FinEjecucionActual(n);
    assert n1.resultados == n.resultados + [e];
    CuentaEventosPosteriores(n.resultados, e, p.nombre, InicioTcp, t);
    CuentaEventosPosteriores(n.resultados, e, p.nombre, FinTcp, t);
  }

  /** The RR `terminar_proceso` on the lists: the process leaves the CPU for the terminated list and the quantum is 0. */
  lemma TerminarProcesoListas(c: Configuracion, s: EstadoRR)
    requires s.nucleo.procesoActual != null
    ensures var n := s.nucleo;
            var r := TerminarProceso(c, s);
            var m := r.nucleo;
            && m.procesoActual == null && r.quantumRestante == 0
            && r.necesitaTcpPorQuantum == s.necesitaTcpPorQuantum
            && m.colaListos == n.colaListos && m.procesosBloqueados == n.procesosBloqueados
            && m.procesosTerminados == n.procesosTerminados + [n.procesoActual]
            && m.cpuProc == n.cpuProc && m.cpuSo == n.cpuSo && m.tiempoActual == n.tiempoActual
  {
    var n := s.nucleo;
    var n2 := CerrarTcpPendiente(FinEjecucionActual(n));
    CierreTcpCampos(n);
    if c.tiempoTfp > 0 {
      TerminarConTfp(c, n2);
    } else {
      TerminarSinTfp(c, n2);
    }
  }

  /**
    The log the RR `terminar_proceso` leaves: `fin_ejecucion`, the
    `fin_tcp` of a TCP still open, then `inicio_tfp` or `terminacion`.
   */
  lemma TerminarProcesoEventos(c: Configuracion, s: EstadoRR)
    requires s.nucleo.procesoActual != null
    ensures var n := s.nucleo;
            var p := n.procesoActual;
            var t := n.tiempoActual;
            TerminarProceso(c, s).nucleo.resultados
              == n.resultados + [Evento(t, p.nombre, FinEjecucion, Ejecutando)]
                              + (if TcpPendiente(n.resultados, p.nombre, t)
                                 then [Evento(t, p.nombre, FinTcp, SistemaLibre)] else [])
                              + (if c.tiempoTfp > 0 then [Evento(t, p.nombre, InicioTfp, BloqueadoSistema)]
                                 else [Evento(t, p.nombre, Terminacion, Terminado)])
  {
    var n2 := CerrarTcpPendiente(FinEjecucionActual(s.nucleo));
    CierreTcpEfecto(s.nucleo);
    if c.tiempoTfp > 0 {
      TerminarConTfp(c, n2);
    } else {
      TerminarSinTfp(c, n2);
    }
  }

  /** The RR `bloquear_proceso`: the shared blocking step, with the quantum set to 0. */
  lemma BloquearRR(s: EstadoRR, q: Proceso)
    requires s.nucleo.procesoActual != null
    ensures var n := s.nucleo;
            var p := n.procesoActual;
            var r := BloquearProcesoRR(s);
            && r.nucleo.procesoActual == null && r.quantumRestante == 0
            && r.necesitaTcpPorQuantum == s.necesitaTcpPorQuantum
            && r.nucleo.procesosBloqueados == n.procesosBloqueados + [p]
            && r.nucleo.colaListos == n.colaListos
            && Attr(r.nucleo.atributos, p).estado == Bloqueado
            && (q != p ==> Attr(r.nucleo.atributos, q) == Attr(n.atributos, q))
  {
    BloquearEfecto(s.nucleo, q);
  }

  /** The matching positions of the log: an independent count of the source's list comprehension. */
  function IndicesEventos(log: seq<Evento>, nombre: string, k: TipoEvento, t: int): set<int>
  {
    set i | 0 <= i < |log| && Coincide(log[i], nombre, k, t)
  }

  predicate Coincide(e: Evento, nombre: string, k: TipoEvento, t: int)
  {
    e.proceso == nombre && e.evento == k && e.tiempo < t
  }

  /** `CuentaEventos` is the length of the source's list comprehension: the number of matching positions of the log. */
  lemma {:induction false} CuentaEventosIndices(log: seq<Evento>, nombre: string, k: TipoEvento, t: int)
    ensures CuentaEventos(log, nombre, k, t) == |IndicesEventos(log, nombre, k, t)|
  {
    if log != [] {
      var ini := log[..|log| - 1];
      CuentaEventosIndices(ini, nombre, k, t);
      IndicesPaso(log, nombre, k, t);
    }
  }

  lemma IndicesPaso(log: seq<Evento>, nombre: string, k: TipoEvento, t: int)
    requires log != []
    ensures var u := |log| - 1;
            var a := IndicesEventos(log[..u], nombre, k, t);
            && u !in a
            && IndicesEventos(log, nombre, k, t) == a + (if Coincide(log[u], nombre, k, t) then {u} else {})
  {
    var u := |log| - 1;
    var ini := log[..u];
    var a := IndicesEventos(ini, nombre, k, t);
    var b := IndicesEventos(log, nombre, k, t);
    var extra := if Coincide(log[u], nombre, k, t) then {u} else {};
    forall i ensures i in b <==> i in a + extra {
      if 0 <= i < u {
        assert ini[i] == log[i];
      }
    }
  }

  // ---------------------------------------------------------------------------
  // The quantum check after a tick
  // ---------------------------------------------------------------------------

  /**
    With at least one quantum tick left before the tick, the quantum check
    after `ejecutar_proceso_actual` never preempts again: a used-up quantum
    has already been handled inside the tick.
   */
  lemma ChequeoSinEfecto(c: Configuracion, s: EstadoRR)
    requires s.quantumRestante >= 1
    ensures EjecutarConQuantum(c, s) == EjecutarProcesoActual(c, s)
  {
    var n := s.nucleo;
    if n.procesoActual != null {
      var p := n.procesoActual;
      var x := Attr(n.atributos, p);
      if x.duracionRafagasCpu == 1 {
        if x.cantidadRafagasCpu == 1 {
          EjecutarTerminaRR(c, s);
        } else {
          EjecutarBloqueaRR(c, s, p);
        }
      } else if s.quantumRestante == 1 {
        EjecutarExpiraRR(c, s, p);
      } else {
        EjecutarSigueRR(c, s, p);
      }
    }
  }

  /**
    With no quantum left before the tick (a quantum of 0 or less), a burst
    that goes on is preempted right after every tick.
   */
  lemma ChequeoSinQuantum(c: Configuracion, s: EstadoRR)
    requires s.nucleo.procesoActual != null && s.quantumRestante <= 0
    requires Attr(s.nucleo.atributos, s.nucleo.procesoActual).duracionRafagasCpu != 1
    ensures EjecutarConQuantum(c, s) == PreemptarProcesoActual(EjecutarProcesoActual(c, s))
    ensures EjecutarProcesoActual(c, s).nucleo.procesoActual == s.nucleo.procesoActual
  {
    EjecutarSigueRR(c, s, s.nucleo.procesoActual);
  }

  // ---------------------------------------------------------------------------
  // Quantum cuts of one burst
  // ---------------------------------------------------------------------------

  /**
    The number of quantum preemptions of a burst with `d` ticks left and
    `qr` quantum ticks left, under quantum `Q`, following the three cases of
    a tick: the last tick of the burst ends it with no cut; a tick that uses
    up the quantum cuts the burst, and the next dispatch starts a full
    quantum; any other tick goes on.
   */
  function Cortes(d: nat, qr: nat, Q: nat): nat
    requires d >= 1 && 1 <= qr <= Q
    decreases d
  {
    if d == 1 then 0
    else if qr == 1 then 1 + Cortes(d - 1, Q, Q)
    else Cortes(d - 1, qr - 1, Q)
  }

  /**
    With `qr` quantum ticks left, a burst of `d` ticks is never cut when it
    fits in them, and otherwise cut `k` times where the `d - qr` ticks after
    the first cut fill `k` quanta, the last one possibly partly.
   */
  lemma {:induction false} CortesCerrado(d: nat, qr: nat, Q: nat)
    requires d >= 1 && 1 <= qr <= Q
    ensures d <= qr ==> Cortes(d, qr, Q) == 0
    ensures d > qr ==> var k := Cortes(d, qr, Q); (k - 1) * Q < d - qr <= k * Q
    decreases d
  {
    if d > 1 {
      if qr == 1 {
        CortesCerrado(d - 1, Q, Q);
        var k' := Cortes(d - 1, Q, Q);
        assert Cortes(d, qr, Q) == k' + 1;
        if d - 1 > Q {
          assert (k' - 1) * Q + Q == k' * Q;
          assert k' * Q + Q == (k' + 1) * Q;
        }
      } else {
        CortesCerrado(d - 1, qr - 1, Q);
      }
    }
  }

  /**
    A burst of `D >= 1` ticks dispatched with a full quantum `Q >= 1` is cut
    `k = ceil(D/Q) - 1` times: `k` is the number with `k * Q < D <= (k + 1) * Q`.
   */
  lemma CortesRafaga(D: nat, Q: nat)
    requires D >= 1 && Q >= 1
    ensures var k := Cortes(D, Q, Q); k * Q < D <= (k + 1) * Q
  {
    CortesCerrado(D, Q, Q);
    var k := Cortes(D, Q, Q);
    if D > Q {
      assert (k - 1) * Q + Q == k * Q;
      assert k * Q + Q == (k + 1) * Q;
    }
  }

  // ---------------------------------------------------------------------------
  // Quantum cuts of one burst in the engine
  // ---------------------------------------------------------------------------

  /** How many events of kind `k` the log holds for process `nombre`, at any tick. */
  function Veces(log: seq<Evento>, nombre: string, k: TipoEvento): nat
  {
    if log == [] then 0
    else
      var e := log[|log| - 1];
      Veces(log[..|log| - 1], nombre, k) + (if e.proceso == nombre && e.evento == k then 1 else 0)
  }

  /** Appending events of other kinds leaves the count of kind `k` as it was. */
  lemma {:induction false} VecesOtros(a: seq<Evento>, b: seq<Evento>, nombre: string, k: TipoEvento)
    requires forall i :: 0 <= i < |b| ==> b[i].evento != k
    ensures Veces(a + b, nombre, k) == Veces(a, nombre, k)
    decreases |b|
  {
    if b != [] {
      assert (a + b)[..|a + b| - 1] == a + b[..|b| - 1];
      assert (a + b)[|a + b| - 1] == b[|b| - 1];
      VecesOtros(a, b[..|b| - 1], nombre, k);
    } else {
      assert a + b == a;
    }
  }

  /** Starting execution logs `inicio_ejecucion` only and leaves the burst as it was. */
  lemma EmpezarSinCorte(n: Nucleo, nombre: string)
    requires n.procesoActual != null
    ensures var m := EmpezarEjecucion(n);
            && Veces(m.resultados, nombre, PreemptionQuantum) == Veces(n.resultados, nombre, PreemptionQuantum)
            && Attr(m.atributos, n.procesoActual).duracionRafagasCpu == Attr(n.atributos, n.procesoActual).duracionRafagasCpu
  {
    var e := Evento(n.tiempoActual, n.procesoActual.nombre, InicioEjecucion, Ejecutando);
    assert EmpezarEjecucion(n).resultados == n.resultados + [e];
    VecesOtros(n.resultados, [e], nombre, PreemptionQuantum);
  }

  /** `aplicar_tcp` logs no quantum preemption and leaves the burst as it was. */
  lemma AplicarTcpSinCorte(c: Configuracion, n: Nucleo, nombre: string)
    requires n.procesoActual != null
    ensures var m := AplicarTcp(c, n);
            && Veces(m.resultados, nombre, PreemptionQuantum) == Veces(n.resultados, nombre, PreemptionQuantum)
            && Attr(m.atributos, n.procesoActual).duracionRafagasCpu == Attr(n.atributos, n.procesoActual).duracionRafagasCpu
  {
    if c.tiempoTcp > 0 {
      var e := Evento(n.tiempoActual, n.procesoActual.nombre, InicioTcp, BloqueadoSistema);
      assert AplicarTcp(c, n).resultados == n.resultados + [e];
      VecesOtros(n.resultados, [e], nombre, PreemptionQuantum);
    } else {
      EmpezarSinCorte(n, nombre);
    }
  }

  /** `aplicar_tip` logs no quantum preemption and leaves the burst as it was. */
  lemma AplicarTipSinCorte(c: Configuracion, n: Nucleo, nombre: string)
    requires n.procesoActual != null
    ensures var m := AplicarTip(c, n);
            && Veces(m.resultados, nombre, PreemptionQuantum) == Veces(n.resultados, nombre, PreemptionQuantum)
            && Attr(m.atributos, n.procesoActual).duracionRafagasCpu == Attr(n.atributos, n.procesoActual).duracionRafagasCpu
  {
    if c.tiempoTip > 0 {
      var e := Evento(n.tiempoActual, n.procesoActual.nombre, InicioTip, BloqueadoSistema);
      assert AplicarTip(c, n).resultados == n.resultados + [e];
      VecesOtros(n.resultados, [e], nombre, PreemptionQuantum);
    } else if n.aplicarTcpDespuesTip {
      AplicarTcpSinCorte(c, n.(aplicarTcpDespuesTip := false), nombre);
    } else {
      EmpezarSinCorte(n, nombre);
    }
  }

  /** The same for a log that grew by three pieces, none of them of kind `k`. */
  lemma VecesOtrosTres(a: seq<Evento>, x: seq<Evento>, y: seq<Evento>, z: seq<Evento>, m: seq<Evento>, nombre: string, k: TipoEvento)
    requires m == a + x + y + z
    requires forall i :: 0 <= i < |x| ==> x[i].evento != k
    requires forall i :: 0 <= i < |y| ==> y[i].evento != k
    requires forall i :: 0 <= i < |z| ==> z[i].evento != k
    ensures Veces(m, nombre, k) == Veces(a, nombre, k)
  {
    VecesOtros(a, x, nombre, k);
    VecesOtros(a + x, y, nombre, k);
    VecesOtros(a + x + y, z, nombre, k);
  }

  /**
    The charge of a dispatch (TIP, TCP or the start of execution) logs no
    quantum preemption and leaves the burst of the dispatched process as it
    was.
   */
  lemma DespacharSinCorte(c: Configuracion, n: Nucleo, nombre: string)
    requires n.procesoActual != null
    ensures var m := Despachar(c, n);
            && Veces(m.resultados, nombre, PreemptionQuantum) == Veces(n.resultados, nombre, PreemptionQuantum)
            && Attr(m.atributos, n.procesoActual).duracionRafagasCpu == Attr(n.atributos, n.procesoActual).duracionRafagasCpu
  {
    if Attr(n.atributos, n.procesoActual).procesoNuevo {
      AplicarTipSinCorte(c, n, nombre);
    } else {
      AplicarTcpSinCorte(c, n, nombre);
    }
  }

  /**
    `seleccionar_siguiente_proceso` with a ready process: the head takes the
    CPU with a full quantum, its burst as it was, and no quantum preemption
    is logged.
   */
  lemma SeleccionSinCorte(c: Configuracion, quantum: int, s: EstadoRR, nombre: string)
    requires |s.nucleo.colaListos| > 0
    ensures var n := s.nucleo;
            var p := n.colaListos[0];
            var r := SeleccionarSiguienteProceso(c, quantum, s);
            && r.nucleo.procesoActual == p && r.nucleo.colaListos == n.colaListos[1..]
            && r.quantumRestante == quantum
            && Attr(r.nucleo.atributos, p).duracionRafagasCpu == Attr(n.atributos, p).duracionRafagasCpu
            && Veces(r.nucleo.resultados, nombre, PreemptionQuantum) == Veces(n.resultados, nombre, PreemptionQuantum)
  {
    var n := s.nucleo;
    var p := n.colaListos[0];
    var n1 := n.(procesoActual := p, colaListos := n.colaListos[1..]);
    DespacharSinCorte(c, n1, nombre);
    SeleccionRR(c, quantum, s, p);
  }

  /** One logged event of another kind leaves the count of quantum preemptions as it was. */
  lemma AnotadoSinCorte(n: Nucleo, nombreEvento: string, k: TipoEvento, e: Estado, nombre: string)
    requires k != PreemptionQuantum
    ensures Veces(Anotado(n, nombreEvento, k, e).resultados, nombre, PreemptionQuantum)
            == Veces(n.resultados, nombre, PreemptionQuantum)
  {
    VecesOtros(n.resultados, [Evento(n.tiempoActual, nombreEvento, k, e)], nombre, PreemptionQuantum);
  }

  /** The extra `fin_tcp` of the RR `terminar_proceso` is not a quantum preemption. */
  lemma CerrarTcpSinCorte(n: Nucleo, nombre: string)
    requires n.procesoActual != null
    ensures var m := CerrarTcpPendiente(n);
            && m.procesoActual == n.procesoActual
            && Veces(m.resultados, nombre, PreemptionQuantum) == Veces(n.resultados, nombre, PreemptionQuantum)
  {
    AnotadoSinCorte(n, n.procesoActual.nombre, FinTcp, SistemaLibre, nombre);
  }

  /** The TFP window or the termination logs no quantum preemption and leaves the CPU empty. */
  lemma TerminarRestoSinCorte(c: Configuracion, n: Nucleo, nombre: string)
    requires n.procesoActual != null
    ensures var m := TerminarResto(c, n);
            && m.procesoActual == null
            && Veces(m.resultados, nombre, PreemptionQuantum) == Veces(n.resultados, nombre, PreemptionQuantum)
  {
    var p := n.procesoActual;
    if c.tiempoTfp > 0 {
      AnotadoSinCorte(n, p.nombre, InicioTfp, BloqueadoSistema, nombre);
    } else {
      AnotadoSinCorte(n.(procesosTerminados := n.procesosTerminados + [p]), p.nombre, Terminacion, Terminado, nombre);
    }
  }

  /** The RR `terminar_proceso` logs no quantum preemption and leaves the CPU empty. */
  lemma TerminarSinCorte(c: Configuracion, s: EstadoRR, nombre: string)
    requires s.nucleo.procesoActual != null
    ensures var r := TerminarProceso(c, s);
            && r.nucleo.procesoActual == null
            && Veces(r.nucleo.resultados, nombre, PreemptionQuantum) == Veces(s.nucleo.resultados, nombre, PreemptionQuantum)
  {
    var n := s.nucleo;
    var n1 := FinEjecucionActual(n);
    AnotadoSinCorte(n, n.procesoActual.nombre, FinEjecucion, Ejecutando, nombre);
    CerrarTcpSinCorte(n1, nombre);
    TerminarRestoSinCorte(c, CerrarTcpPendiente(n1), nombre);
  }

  /** The RR `bloquear_proceso` logs no quantum preemption and leaves the CPU empty. */
  lemma BloquearSinCorte(s: EstadoRR, nombre: string)
    requires s.nucleo.procesoActual != null
    ensures var r := BloquearProcesoRR(s);
            && r.nucleo.procesoActual == null
            && Veces(r.nucleo.resultados, nombre, PreemptionQuantum) == Veces(s.nucleo.resultados, nombre, PreemptionQuantum)
  {
    var n := s.nucleo;
    var p := n.procesoActual;
    var t := n.tiempoActual;
    var m := BloquearProceso(n).resultados;
    assert BloquearProcesoRR(s).nucleo.resultados == m;
    var fin := Evento(t, p.nombre, FinEjecucion, Ejecutando);
    var bloqueo := Evento(t, p.nombre, BloqueoIo, Bloqueado);
    if p.duracionRafagasIoOriginal > 0 {
      var io := Evento(t + 1, p.nombre, InicioIo, Bloqueado);
      assert m == n.resultados + [fin] + [bloqueo] + [io];
      VecesOtrosTres(n.resultados, [fin], [bloqueo], [io], m, nombre, PreemptionQuantum);
    } else {
      assert m == n.resultados + [fin] + [bloqueo] + [];
      VecesOtrosTres(n.resultados, [fin], [bloqueo], [], m, nombre, PreemptionQuantum);
    }
  }

  /** The last tick of a burst logs no quantum preemption and leaves the CPU empty. */
  lemma UltimoTickSinCorte(c: Configuracion, s: EstadoRR, nombre: string)
    requires s.nucleo.procesoActual != null
    requires Attr(s.nucleo.atributos, s.nucleo.procesoActual).duracionRafagasCpu == 1
    ensures var r := EjecutarProcesoActual(c, s);
            && r.nucleo.procesoActual == null
            && Veces(r.nucleo.resultados, nombre, PreemptionQuantum) == Veces(s.nucleo.resultados, nombre, PreemptionQuantum)
  {
    FinDeRafagaRR(c, s);
    var s1 := EstadoRR(TrasUltimoTick(s.nucleo), s.quantumRestante - 1, s.necesitaTcpPorQuantum);
    if Attr(s.nucleo.atributos, s.nucleo.procesoActual).cantidadRafagasCpu == 1 {
      TerminarSinCorte(c, s1, nombre);
    } else {
      BloquearSinCorte(s1, nombre);
    }
  }

  /**
    The tick that uses up the quantum of a burst that goes on logs exactly
    one quantum preemption, of the running process, and queues it.
   */
  lemma CorteDeQuantum(c: Configuracion, s: EstadoRR)
    requires s.nucleo.procesoActual != null
    requires Attr(s.nucleo.atributos, s.nucleo.procesoActual).duracionRafagasCpu != 1
    requires s.quantumRestante == 1
    ensures var n := s.nucleo;
            var p := n.procesoActual;
            var r := EjecutarProcesoActual(c, s);
            && r.nucleo.procesoActual == null && r.nucleo.colaListos == n.colaListos + [p]
            && Attr(r.nucleo.atributos, p).duracionRafagasCpu == Attr(n.atributos, p).duracionRafagasCpu - 1
            && Veces(r.nucleo.resultados, p.nombre, PreemptionQuantum) == Veces(n.resultados, p.nombre, PreemptionQuantum) + 1
  {
    var n := s.nucleo;
    var p := n.procesoActual;
    var t := n.tiempoActual;
    EjecutarExpiraRR(c, s, p);
    var fin := Evento(t, p.nombre, FinEjecucion, Ejecutando);
    var log := n.resultados + [fin, Evento(t, p.nombre, PreemptionQuantum, Listo)];
    assert log[..|log| - 1] == n.resultados + [fin];
    VecesOtros(n.resultados, [fin], p.nombre, PreemptionQuantum);
  }

  /**
    One burst of the running process with no other process ready, as the
    loop of `ejecutar` runs it: `d` CPU ticks, each through the quantum
    check and followed by one clock tick, and after every cut the process
    taken back from the ready list by `seleccionar_siguiente_proceso` with a
    full quantum `Q`. The ticks of the windows that dispatch opens are not
    part of it: they touch neither the burst nor the quantum.
   */
  function CorrerRafaga(c: Configuracion, Q: int, s: EstadoRR, d: nat): EstadoRR
    decreases d
  {
    if d == 0 then s
    else
      var s0 := if s.nucleo.procesoActual == null then SeleccionarSiguienteProceso(c, Q, s) else s;
      var s1 := EjecutarConQuantum(c, s0);
      CorrerRafaga(c, Q, s1.(nucleo := Avanzar(s1.nucleo)), d - 1)
  }

  /**
    A burst of `d` ticks that starts with `qr` quantum ticks left logs
    exactly `Cortes(d, qr, Q)` quantum preemptions of its process and ends
    with the CPU empty; from a dispatch (`qr == Q`) that is
    `ceil(d / Q) - 1` by `CortesRafaga`.
   */
  lemma {:induction false} CortesDelMotor(c: Configuracion, Q: nat, s: EstadoRR, d: nat)
    requires Q >= 1 && d >= 1 && 1 <= s.quantumRestante <= Q
    requires s.nucleo.procesoActual != null && s.nucleo.colaListos == []
    requires Attr(s.nucleo.atributos, s.nucleo.procesoActual).duracionRafagasCpu == d
    ensures var p := s.nucleo.procesoActual;
            var r := CorrerRafaga(c, Q, s, d);
            && r.nucleo.procesoActual == null
            && Veces(r.nucleo.resultados, p.nombre, PreemptionQuantum)
               == Veces(s.nucleo.resultados, p.nombre, PreemptionQuantum) + Cortes(d, s.quantumRestante, Q)
    decreases d, 1
  {
    if d == 1 {
      CortesUltimoTick(c, Q, s);
    } else if s.quantumRestante == 1 {
      CortesTrasCorte(c, Q, s, d);
    } else {
      CortesSinCorte(c, Q, s, d);
    }
  }

  /** The last tick of the burst: no cut, and the CPU is left empty. */
  lemma CortesUltimoTick(c: Configuracion, Q: nat, s: EstadoRR)
    requires 1 <= s.quantumRestante
    requires s.nucleo.procesoActual != null
    requires Attr(s.nucleo.atributos, s.nucleo.procesoActual).duracionRafagasCpu == 1
    ensures var p := s.nucleo.procesoActual;
            var r := CorrerRafaga(c, Q, s, 1);
            && r.nucleo.procesoActual == null
            && Veces(r.nucleo.resultados, p.nombre, PreemptionQuantum) == Veces(s.nucleo.resultados, p.nombre, PreemptionQuantum)
  {
    var p := s.nucleo.procesoActual;
    ChequeoSinEfecto(c, s);
    UltimoTickSinCorte(c, s, p.nombre);
  }

  /** A tick that uses up the quantum: one cut, then the rest of the burst from a new dispatch. */
  lemma {:induction false} CortesTrasCorte(c: Configuracion, Q: nat, s: EstadoRR, d: nat)
    requires Q >= 1 && d >= 2 && s.quantumRestante == 1
    requires s.nucleo.procesoActual != null && s.nucleo.colaListos == []
    requires Attr(s.nucleo.atributos, s.nucleo.procesoActual).duracionRafagasCpu == d
    ensures var p := s.nucleo.procesoActual;
            var r := CorrerRafaga(c, Q, s, d);
            && r.nucleo.procesoActual == null
            && Veces(r.nucleo.resultados, p.nombre, PreemptionQuantum)
               == Veces(s.nucleo.resultados, p.nombre, PreemptionQuantum) + 1 + Cortes(d - 1, Q, Q)
    decreases d, 0
  {
    var p := s.nucleo.procesoActual;
    ChequeoSinEfecto(c, s);
    CorteDeQuantum(c, s);
    var s1 := EjecutarProcesoActual(c, s);
    var s2 := s1.(nucleo := Avanzar(s1.nucleo));
    assert CorrerRafaga(c, Q, s, d) == CorrerRafaga(c, Q, s2, d - 1);
    var s3 := SeleccionarSiguienteProceso(c, Q, s2);
    SeleccionSinCorte(c, Q, s2, p.nombre);
    assert CorrerRafaga(c, Q, s2, d - 1) == CorrerRafaga(c, Q, s3, d - 1);
    CortesDelMotor(c, Q, s3, d - 1);
  }

  /** A tick that ends neither the burst nor the quantum: no cut, and one tick fewer of both. */
  lemma {:induction false} CortesSinCorte(c: Configuracion, Q: nat, s: EstadoRR, d: nat)
    requires Q >= 1 && d >= 2 && 2 <= s.quantumRestante <= Q
    requires s.nucleo.procesoActual != null && s.nucleo.colaListos == []
    requires Attr(s.nucleo.atributos, s.nucleo.procesoActual).duracionRafagasCpu == d
    ensures var p := s.nucleo.procesoActual;
            var r := CorrerRafaga(c, Q, s, d);
            && r.nucleo.procesoActual == null
            && Veces(r.nucleo.resultados, p.nombre, PreemptionQuantum)
               == Veces(s.nucleo.resultados, p.nombre, PreemptionQuantum) + Cortes(d - 1, s.quantumRestante - 1, Q)
    decreases d, 0
  {
    var p := s.nucleo.procesoActual;
    ChequeoSinEfecto(c, s);
    EjecutarSigueRR(c, s, p);
    var s1 := EjecutarProcesoActual(c, s);
    var s2 := s1.(nucleo := Avanzar(s1.nucleo));
    assert CorrerRafaga(c, Q, s, d) == CorrerRafaga(c, Q, s2, d - 1);
    CortesDelMotor(c, Q, s2, d - 1);
  }

  /**
    A burst of `D` ticks dispatched alone with a full quantum `Q` is cut by
    exactly `k` quantum preemptions in the log, where `k * Q < D <= (k + 1) * Q`.
   */
  lemma CortesRafagaMotor(c: Configuracion, Q: nat, s: EstadoRR, D: nat)
    requires Q >= 1 && D >= 1 && s.quantumRestante == Q
    requires s.nucleo.procesoActual != null && s.nucleo.colaListos == []
    requires Attr(s.nucleo.atributos, s.nucleo.procesoActual).duracionRafagasCpu == D
    ensures var p := s.nucleo.procesoActual;
            var k := Veces(CorrerRafaga(c, Q, s, D).nucleo.resultados, p.nombre, PreemptionQuantum)
                     - Veces(s.nucleo.resultados, p.nombre, PreemptionQuantum);
            k * Q < D <= (k + 1) * Q
  {
    CortesDelMotor(c, Q, s, D);
    CortesRafaga(D, Q);
  }

  // ---------------------------------------------------------------------------
  // The CPU tick as a whole
  // ---------------------------------------------------------------------------

  /**
    What every CPU tick of a running process does, whatever case it falls
    in: one tick of its burst and of `cpu_proc`, no change to `cpu_so` or
    the clock, and the log and the ready list only grow at the end.
   */
  predicate TickHecho(n: Nucleo, m: Nucleo)
    requires n.procesoActual != null
  {
    var p := n.procesoActual;
    && m.cpuProc == n.cpuProc + 1 && m.cpuSo == n.cpuSo && m.tiempoActual == n.tiempoActual
    && Attr(m.atributos, p).duracionRafagasCpu == Attr(n.atributos, p).duracionRafagasCpu - 1
    && n.resultados <= m.resultados
    && n.colaListos <= m.colaListos
  }

  lemma EjecutarTickRR(c: Configuracion, s: EstadoRR)
    requires s.nucleo.procesoActual != null
    ensures TickHecho(s.nucleo, EjecutarProcesoActual(c, s).nucleo)
  {
    var n := s.nucleo;
    var p := n.procesoActual;
    var x := Attr(n.atributos, p);
    if x.duracionRafagasCpu == 1 {
      if x.cantidadRafagasCpu == 1 {
        TickTermina(c, s);
      } else {
        TickBloquea(c, s);
      }
    } else if s.quantumRestante == 1 {
      TickExpira(c, s);
    } else {
      TickSigue(c, s);
    }
  }

  lemma TickTermina(c: Configuracion, s: EstadoRR)
    requires s.nucleo.procesoActual != null
    requires Attr(s.nucleo.atributos, s.nucleo.procesoActual).duracionRafagasCpu == 1
    requires Attr(s.nucleo.atributos, s.nucleo.procesoActual).cantidadRafagasCpu == 1
    ensures TickHecho(s.nucleo, EjecutarProcesoActual(c, s).nucleo)
  {
    var n := s.nucleo;
    var p := n.procesoActual;
    var t := n.tiempoActual;
    var m := EjecutarProcesoActual(c, s).nucleo;
    EjecutarTerminaRR(c, s);
    EjecutarTerminaAtributosRR(c, s, p);
    TickHechoPorPartes(n, m, [Evento(t, p.nombre, FinEjecucion, Ejecutando)],
                       if TcpPendiente(n.resultados, p.nombre, t) then [Evento(t, p.nombre, FinTcp, SistemaLibre)] else [],
                       if c.tiempoTfp > 0 then [Evento(t, p.nombre, InicioTfp, BloqueadoSistema)]
                       else [Evento(t, p.nombre, Terminacion, Terminado)]);
  }

  /** `TickHecho` from the counters, the clock, the burst and a log that grew by three pieces. */
  lemma TickHechoPorPartes(n: Nucleo, m: Nucleo, x: seq<Evento>, y: seq<Evento>, z: seq<Evento>)
    requires n.procesoActual != null
    requires m.cpuProc == n.cpuProc + 1 && m.cpuSo == n.cpuSo && m.tiempoActual == n.tiempoActual
    requires Attr(m.atributos, n.procesoActual).duracionRafagasCpu == Attr(n.atributos, n.procesoActual).duracionRafagasCpu - 1
    requires m.resultados == n.resultados + x + y + z
    requires m.colaListos == n.colaListos
    ensures TickHecho(n, m)
  {
    assert n.resultados + x + y + z == n.resultados + (x + y + z);
  }

  lemma TickBloquea(c: Configuracion, s: EstadoRR)
    requires s.nucleo.procesoActual != null
    requires Attr(s.nucleo.atributos, s.nucleo.procesoActual).duracionRafagasCpu == 1
    requires Attr(s.nucleo.atributos, s.nucleo.procesoActual).cantidadRafagasCpu != 1
    ensures TickHecho(s.nucleo, EjecutarProcesoActual(c, s).nucleo)
  {
    EjecutarBloqueaRR(c, s, s.nucleo.procesoActual);
    FinDeRafagaRR(c, s);
  }

  lemma TickExpira(c: Configuracion, s: EstadoRR)
    requires s.nucleo.procesoActual != null
    requires Attr(s.nucleo.atributos, s.nucleo.procesoActual).duracionRafagasCpu != 1
    requires s.quantumRestante == 1
    ensures TickHecho(s.nucleo, EjecutarProcesoActual(c, s).nucleo)
  {
    EjecutarExpiraRR(c, s, s.nucleo.procesoActual);
  }

  lemma TickSigue(c: Configuracion, s: EstadoRR)
    requires s.nucleo.procesoActual != null
    requires Attr(s.nucleo.atributos, s.nucleo.procesoActual).duracionRafagasCpu != 1
    requires s.quantumRestante != 1
    ensures TickHecho(s.nucleo, EjecutarProcesoActual(c, s).nucleo)
  {
    EjecutarSigueRR(c, s, s.nucleo.procesoActual);
  }

  /** The tick and the quantum check after it keep the ready list's order, adding only at the tail. */
  lemma EjecutarConQuantumCola(c: Configuracion, s: EstadoRR)
    ensures s.nucleo.colaListos <= EjecutarConQuantum(c, s).nucleo.colaListos
    ensures EjecutarConQuantum(c, s).nucleo.tiempoActual == s.nucleo.tiempoActual
  {
    if s.nucleo.procesoActual != null {
      EjecutarTickRR(c, s);
    }
  }

  // ---------------------------------------------------------------------------
  // First in, first out
  // ---------------------------------------------------------------------------

  /** RR admits the arrivals of a tick at the tail of the ready list, in list order. */
  lemma LlegadasFifo(c: Configuracion, n: Nucleo)
    ensures ProcesarLlegadas(Fifo, c, n).colaListos == n.colaListos + Llegadas(c.procesos, n.tiempoActual)
  {
    LlegadasEfecto(Fifo, n, c.procesos);
    EncolarTodosCasos(Fifo, n.colaListos, Llegadas(c.procesos, n.tiempoActual));
  }

  /** RR queues the processes that finish I/O at the tail of the ready list, in blocked-list order. */
  lemma BloqueadosFifo(n: Nucleo)
    ensures var r := ProcesarBloqueados(Fifo, n);
            r.n.colaListos == n.colaListos + r.terminaron
  {
    var r := ProcesarBloqueados(Fifo, n);
    ProcesarBloqueadosCola(Fifo, n);
    EncolarTodosCasos(Fifo, n.colaListos, r.terminaron);
  }

  /** The window tick only ever appends to the ready list (through the first CPU tick it may run). */
  lemma TiempoBloqueoColaRR(c: Configuracion, s: EstadoRR)
    ensures s.nucleo.colaListos <= ProcesarTiempoBloqueo(c, s).0.nucleo.colaListos
    ensures ProcesarTiempoBloqueo(c, s).0.nucleo.tiempoActual == s.nucleo.tiempoActual
  {
    var n := s.nucleo;
    if n.tiempoRestanteBloqueo == 1 {
      CerrarBloqueoColaRR(c, DescontarBloqueo(s));
    }
  }

  lemma CerrarBloqueoColaRR(c: Configuracion, s: EstadoRR)
    ensures s.nucleo.colaListos <= CerrarBloqueo(c, s).nucleo.colaListos
    ensures CerrarBloqueo(c, s).nucleo.tiempoActual == s.nucleo.tiempoActual
  {
    var n := s.nucleo;
    var tipo := n.tipoBloqueo;
    if tipo == Tfp {
      FinalizarReloj(n);
      assert FinalizarProcesoCompletamente(n).colaListos == n.colaListos;
    } else if (tipo == Tip || tipo == Tcp) && n.procesoActual != null {
      if tipo == Tip && n.aplicarTcpDespuesTip {
        CierreEncadenaColaRR(c, n);
      } else {
        CerrarTipTcpColaRR(c, s, tipo);
      }
    }
  }

  lemma CierreEncadenaColaRR(c: Configuracion, n: Nucleo)
    requires n.procesoActual != null
    ensures EncadenarTcp(c, n).colaListos == n.colaListos
    ensures EncadenarTcp(c, n).tiempoActual == n.tiempoActual
  {
    var e := Anotado(n, n.procesoActual.nombre, FinTip, SistemaLibre).(
               aplicarTcpDespuesTip := false, tcpDespuesTipActivo := true);
    AplicarTcpMarco(c, e, n.procesoActual);
    AplicarTcpReloj(c, e);
  }

  lemma CerrarTipTcpColaRR(c: Configuracion, s: EstadoRR, tipo: Bloqueo)
    requires s.nucleo.procesoActual != null
    ensures s.nucleo.colaListos <= CerrarTipTcp(c, s, tipo).nucleo.colaListos
    ensures CerrarTipTcp(c, s, tipo).nucleo.tiempoActual == s.nucleo.tiempoActual
  {
    EjecutarTickRR(c, s.(nucleo := PonerEnEjecucion(s.nucleo)));
  }

  /** `a` is served first in, first out into `b`: at most its head has left, and newcomers are only at the tail. */
  predicate ServidaFifo(a: seq<Proceso>, b: seq<Proceso>)
  {
    a <= b || (|a| > 0 && a[1..] <= b)
  }

  /** The part of an iteration after the window check keeps the ready list first in, first out. */
  lemma PasoLibreFifo(c: Configuracion, quantum: int, s: EstadoRR)
    ensures ServidaFifo(s.nucleo.colaListos, PasoLibre(c, quantum, s).nucleo.colaListos)
    ensures PasoLibre(c, quantum, s).nucleo.tiempoActual == s.nucleo.tiempoActual + 1
  {
    var a := s.nucleo.colaListos;
    var s1 := s.(nucleo := AcumularListoDe(s.nucleo, s.nucleo.colaListos));
    AcumularListoMarco(s.nucleo, s.nucleo.colaListos);
    var s2 := if s1.nucleo.procesoActual == null then SeleccionarSiguienteProceso(c, quantum, s1) else s1;
    if s1.nucleo.procesoActual == null && |a| > 0 {
      SeleccionRR(c, quantum, s1, s1.nucleo.colaListos[0]);
    }
    assert s2.nucleo.tiempoActual == s.nucleo.tiempoActual;
    assert s2.nucleo.colaListos == a || (|a| > 0 && s2.nucleo.colaListos == a[1..]);
    var s3 := if s2.nucleo.procesoActual != null && s2.nucleo.tiempoRestanteBloqueo == 0
              then EjecutarConQuantum(c, s2) else s2;
    EjecutarConQuantumCola(c, s2);
    assert s2.nucleo.colaListos <= s3.nucleo.colaListos;
    if s2.nucleo.colaListos == a {
      assert a <= s3.nucleo.colaListos;
    } else {
      assert a[1..] <= s3.nucleo.colaListos;
    }
  }

  /**
    One iteration of the loop of `ejecutar` serves the ready list first in,
    first out: arrivals, processes back from I/O and preempted ones join at
    the tail, and only the head ever leaves (to be dispatched).
   */
  lemma PasoFifo(c: Configuracion, quantum: int, s: EstadoRR)
    ensures ServidaFifo(s.nucleo.colaListos, Paso(c, quantum, s).nucleo.colaListos)
  {
    var a := s.nucleo.colaListos;
    var n0 := RegistrarFinTcp(s.nucleo);
    assert n0.colaListos == a;
    var s1 := s.(nucleo := ProcesarLlegadas(Fifo, c, n0));
    LlegadasFifo(c, n0);
    var r := ProcesarTiempoBloqueo(c, s1);
    TiempoBloqueoColaRR(c, s1);
    PrefijoTransitivo(a, s1.nucleo.colaListos, r.0.nucleo.colaListos);
    var s2 := r.0.(nucleo := ProcesarBloqueados(Fifo, r.0.nucleo).n);
    BloqueadosFifo(r.0.nucleo);
    PrefijoTransitivo(a, r.0.nucleo.colaListos, s2.nucleo.colaListos);
    if !r.1 {
      var b := PasoLibre(c, quantum, s2).nucleo.colaListos;
      PasoLibreFifo(c, quantum, s2);
      if s2.nucleo.colaListos <= b {
        PrefijoTransitivo(a, s2.nucleo.colaListos, b);
      } else if |a| > 0 {
        assert a[1..] <= s2.nucleo.colaListos[1..];
        PrefijoTransitivo(a[1..], s2.nucleo.colaListos[1..], b);
      }
    }
  }

  // ---------------------------------------------------------------------------
  // Windows, clock and loop
  // ---------------------------------------------------------------------------

  /**
    An iteration inside a window that does not close: one tick of the window
    and of `cpu_so`, the clock moves on, and the running process, its
    quantum and `cpu_proc` stay as they were.
   */
  lemma VentanaEnCursoRR(c: Configuracion, quantum: int, s: EstadoRR)
    requires s.nucleo.tiempoRestanteBloqueo > 1
    ensures var n := s.nucleo;
            var r := Paso(c, quantum, s);
            var m := r.nucleo;
            && m.tiempoRestanteBloqueo == n.tiempoRestanteBloqueo - 1 && m.tipoBloqueo == n.tipoBloqueo
            && m.cpuSo == n.cpuSo + 1 && m.cpuProc == n.cpuProc && m.cpuIdle == n.cpuIdle
            && m.tiempoActual == n.tiempoActual + 1
            && m.procesoActual == n.procesoActual
            && r.quantumRestante == s.quantumRestante
  {
    var n0 := RegistrarFinTcp(s.nucleo);
    var n1 := ProcesarLlegadas(Fifo, c, n0);
    LlegadasMarco(Fifo, c, n0);
    assert ProcesarTiempoBloqueo(c, s.(nucleo := n1)) == (DescontarBloqueo(s.(nucleo := n1)), true);
    ProcesarBloqueadosMarco(Fifo, DescontarBloqueo(s.(nucleo := n1)).nucleo);
  }

  /**
    Unlike PE, a TIP or TCP window that closes with no TCP owed always lets
    the running process execute its first tick right away: `inicio
    ejecucion` is logged at this tick, and `cpu_proc` grows with `cpu_so`.
   */
  lemma CierreEjecutaRR(c: Configuracion, s: EstadoRR)
    requires s.nucleo.tiempoRestanteBloqueo == 1 && s.nucleo.procesoActual != null
    requires s.nucleo.tipoBloqueo == Tip || s.nucleo.tipoBloqueo == Tcp
    requires !(s.nucleo.tipoBloqueo == Tip && s.nucleo.aplicarTcpDespuesTip)
    ensures var n := s.nucleo;
            var p := n.procesoActual;
            var r := ProcesarTiempoBloqueo(c, s);
            var m := r.0.nucleo;
            && r.1
            && m.cpuProc == n.cpuProc + 1 && m.cpuSo == n.cpuSo + 1
            && Attr(m.atributos, p).duracionRafagasCpu == Attr(n.atributos, p).duracionRafagasCpu - 1
            && n.resultados + [Evento(n.tiempoActual, p.nombre, InicioEjecucion, Ejecutando)] <= m.resultados
  {
    var n := s.nucleo;
    CerrarTipTcpEjecuta(c, DescontarBloqueo(s), n.tipoBloqueo);
  }

  lemma CerrarTipTcpEjecuta(c: Configuracion, s: EstadoRR, tipo: Bloqueo)
    requires s.nucleo.procesoActual != null
    ensures var n := s.nucleo;
            var p := n.procesoActual;
            var m := CerrarTipTcp(c, s, tipo).nucleo;
            && m.cpuProc == n.cpuProc + 1 && m.cpuSo == n.cpuSo
            && Attr(m.atributos, p).duracionRafagasCpu == Attr(n.atributos, p).duracionRafagasCpu - 1
            && n.resultados + [Evento(n.tiempoActual, p.nombre, InicioEjecucion, Ejecutando)] <= m.resultados
  {
    var n := s.nucleo;
    var e := s.(nucleo := PonerEnEjecucion(n));
    EjecutarTickRR(c, e);
    var s2 := EjecutarProcesoActual(c, e);
    PrefijoTransitivo(e.nucleo.resultados, s2.nucleo.resultados,
                   CerrarVentana(s2.nucleo, Some(n.procesoActual.nombre), tipo).resultados);
  }

  /** Every iteration of the loop of `ejecutar` moves the clock by exactly one tick. */
  lemma PasoRelojRR(c: Configuracion, quantum: int, s: EstadoRR)
    ensures Paso(c, quantum, s).nucleo.tiempoActual == s.nucleo.tiempoActual + 1
  {
    var n0 := RegistrarFinTcp(s.nucleo);
    var s1 := s.(nucleo := ProcesarLlegadas(Fifo, c, n0));
    LlegadasMarco(Fifo, c, n0);
    var r := ProcesarTiempoBloqueo(c, s1);
    TiempoBloqueoColaRR(c, s1);
    var s2 := r.0.(nucleo := ProcesarBloqueados(Fifo, r.0.nucleo).n);
    ProcesarBloqueadosMarco(Fifo, r.0.nucleo);
    if !r.1 {
      PasoLibreFifo(c, quantum, s2);
    }
  }

  /**
    The loop of `ejecutar` runs at most 1000 iterations, and when it stops
    earlier nothing is pending any more.
   */
  lemma CorrerTerminaRR(c: Configuracion, quantum: int, s: EstadoRR, k: nat)
    requires k <= TiempoMaximo
    ensures var r := Correr(c, quantum, s, k);
            && k <= r.1 <= TiempoMaximo
            && (r.1 < TiempoMaximo ==> !HayProcesosPendientes(c, r.0.nucleo))
            && (!HayProcesosPendientes(c, s.nucleo) ==> r == (s, k))
  {
    IterarTermina((x: EstadoRR) => Paso(c, quantum, x), (x: EstadoRR) => HayProcesosPendientes(c, x.nucleo), s, k);
  }

}
