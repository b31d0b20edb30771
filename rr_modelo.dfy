/**
  The round-robin engine (`RR`) as functions on its state: the shared part
  (`Nucleo`) plus the quantum countdown of the running process and the flag
  that asks for a TCP after the TIP of the next new process. `Paso` is one
  iteration of the `while` loop of `ejecutar`.
 */
module ModeloRR {
  import opened Procesos
  import opened Motor

  datatype EstadoRR = EstadoRR(nucleo: Nucleo, quantumRestante: int, necesitaTcpPorQuantum: bool)

  function InicialRR(): EstadoRR
  {
    EstadoRR(NucleoInicial(), 0, false)
  }

  /** `verificar_preemption_quantum`: a process is running and its quantum is used up. */
  predicate VerificarPreemptionQuantum(s: EstadoRR)
  {
    s.nucleo.procesoActual != null && s.quantumRestante <= 0
  }

  /**
    `preemptar_proceso_actual`: the running process goes to the tail of the
    ready list with `fin_ejecucion` and `preemption_quantum` at this tick,
    the CPU is left empty and the next new process owes a TCP after its TIP.
   */
  function PreemptarProcesoActual(s: EstadoRR): EstadoRR
  {
    var n := s.nucleo;
    if n.procesoActual == null then s
    else
      var p := n.procesoActual;
      var n1 := Anotado(Anotado(n, p.nombre, FinEjecucion, Ejecutando).(
                          atributos := ConEstado(n.atributos, p, Listo), colaListos := n.colaListos + [p]),
                        p.nombre, PreemptionQuantum, Listo);
      EstadoRR(n1.(procesoActual := null), 0, true)
  }

  /** How many events of kind `k` the log holds for process `nombre` before tick `t`. */
  function CuentaEventos(log: seq<Evento>, nombre: string, k: TipoEvento, t: int): nat
  {
    if log == [] then 0
    else
      var e := log[|log| - 1];
      CuentaEventos(log[..|log| - 1], nombre, k, t)
        + (if e.proceso == nombre && e.evento == k && e.tiempo < t then 1 else 0)
  }

  /**
    The extra `fin_tcp` of the RR `terminar_proceso`: logged when the log
    before this tick holds more `inicio_tcp` than `fin_tcp` events of the
    terminating process.
   */
  function CerrarTcpPendiente(n: Nucleo): Nucleo
    requires n.procesoActual != null
  {
    var p := n.procesoActual;
    var t := n.tiempoActual;
    if CuentaEventos(n.resultados, p.nombre, InicioTcp, t) > CuentaEventos(n.resultados, p.nombre, FinTcp, t)
    then Anotado(n, p.nombre, FinTcp, SistemaLibre)
    else n
  }

  /** `terminar_proceso` of RR. */
  function TerminarProceso(c: Configuracion, s: EstadoRR): EstadoRR
    requires s.nucleo.procesoActual != null
  {
    s.(nucleo := TerminarResto(c, CerrarTcpPendiente(FinEjecucionActual(s.nucleo))), quantumRestante := 0)
  }

  /** `bloquear_proceso` of RR. */
  function BloquearProcesoRR(s: EstadoRR): EstadoRR
    requires s.nucleo.procesoActual != null
  {
    s.(nucleo := BloquearProceso(s.nucleo), quantumRestante := 0)
  }

  /** The tick itself: one unit less of the burst, one more of `cpu_proc` (also per process), one less of the quantum. */
  function ConsumirTick(s: EstadoRR): EstadoRR
    requires s.nucleo.procesoActual != null
  {
    var n := s.nucleo;
    var p := n.procesoActual;
    var a := Attr(n.atributos, p).(duracionRafagasCpu := Attr(n.atributos, p).duracionRafagasCpu - 1);
    EstadoRR(n.(atributos := n.atributos[p := a], cpuProc := n.cpuProc + 1,
                cpuProcPorProceso := Sumar(n.cpuProcPorProceso, p.nombre, 1)),
             s.quantumRestante - 1, s.necesitaTcpPorQuantum)
  }

  /**
    The end of a burst: one burst fewer, recorded over the table `t0` of
    before the tick; the process terminates when none is left and blocks
    otherwise.
   */
  function CerrarRafaga(c: Configuracion, s1: EstadoRR, t0: Tabla): EstadoRR
    requires s1.nucleo.procesoActual != null
  {
    var p := s1.nucleo.procesoActual;
    var a := Attr(s1.nucleo.atributos, p);
    var a2 := a.(cantidadRafagasCpu := a.cantidadRafagasCpu - 1);
    var s2 := s1.(nucleo := s1.nucleo.(atributos := t0[p := a2]));
    if a2.cantidadRafagasCpu == 0 then TerminarProceso(c, s2) else BloquearProcesoRR(s2)
  }

  /**
    `ejecutar_proceso_actual` of RR: one CPU tick, which also uses one tick
    of the quantum; the end of the burst wins over the end of the quantum.
   */
  function EjecutarProcesoActual(c: Configuracion, s: EstadoRR): EstadoRR
  {
    if s.nucleo.procesoActual == null then s
    else
      var s1 := ConsumirTick(s);
      if Attr(s1.nucleo.atributos, s.nucleo.procesoActual).duracionRafagasCpu == 0 then CerrarRafaga(c, s1, s.nucleo.atributos)
      else if s1.quantumRestante == 0 then PreemptarProcesoActual(s1)
      else s1
  }

  /**
    `seleccionar_siguiente_proceso` of RR: the head of the ready list takes
    the CPU with a full quantum and is charged TIP (followed by TCP when a
    preemption asked for one) or TCP.
   */
  function SeleccionarSiguienteProceso(c: Configuracion, quantum: int, s: EstadoRR): EstadoRR
  {
    var n := s.nucleo;
    if |n.colaListos| == 0 then s
    else
      var p := n.colaListos[0];
      var n1 := n.(procesoActual := p, colaListos := n.colaListos[1..]);
      var n2 := Despachar(c, n1);
      if Attr(n1.atributos, p).procesoNuevo && s.necesitaTcpPorQuantum
      then EstadoRR(n2.(aplicarTcpDespuesTip := true), quantum, false)
      else EstadoRR(n2, quantum, s.necesitaTcpPorQuantum)
  }

  /**
    `procesar_tiempo_bloqueo` of RR: as in PE, but a closing TIP/TCP window
    always lets the running process execute its first tick.
   */
  function ProcesarTiempoBloqueo(c: Configuracion, s: EstadoRR): (EstadoRR, bool)
  {
    var n := s.nucleo;
    if n.tiempoRestanteBloqueo > 0 then
      var s1 := DescontarBloqueo(s);
      if s1.nucleo.tiempoRestanteBloqueo == 0 then (CerrarBloqueo(c, s1), true)
      else (s1, true)
    else (s, false)
  }

  /** One tick of the open window, charged to `cpu_so`. */
  function DescontarBloqueo(s: EstadoRR): EstadoRR
  {
    s.(nucleo := s.nucleo.(tiempoRestanteBloqueo := s.nucleo.tiempoRestanteBloqueo - 1, cpuSo := s.nucleo.cpuSo + 1))
  }

  /** The window that just reached 0 closes according to its kind. */
  function CerrarBloqueo(c: Configuracion, s: EstadoRR): EstadoRR
  {
    var n := s.nucleo;
    var tipo := n.tipoBloqueo;
    if tipo == Tfp then s.(nucleo := CerrarTfp(n))
    else if (tipo == Tip || tipo == Tcp) && n.procesoActual != null then
      if tipo == Tip && n.aplicarTcpDespuesTip then s.(nucleo := CerrarVentana(EncadenarTcp(c, n), None, tipo))
      else CerrarTipTcp(c, s, tipo)
    else s.(nucleo := CerrarVentana(n, None, tipo))
  }

  /** A TIP or TCP window closes with no TCP owed: the running process executes its first tick at once. */
  function CerrarTipTcp(c: Configuracion, s: EstadoRR, tipo: Bloqueo): EstadoRR
    requires s.nucleo.procesoActual != null
  {
    var s2 := EjecutarProcesoActual(c, s.(nucleo := PonerEnEjecucion(s.nucleo)));
    s2.(nucleo := CerrarVentana(s2.nucleo, Some(s.nucleo.procesoActual.nombre), tipo))
  }

  function ContarOcioso(n: Nucleo): Nucleo
  {
    if n.procesoActual == null && n.tiempoRestanteBloqueo == 0 && |n.colaListos| == 0
    then n.(cpuIdle := n.cpuIdle + 1) else n
  }

  function Avanzar(n: Nucleo): Nucleo
  {
    n.(tiempoActual := n.tiempoActual + 1)
  }

  /** One CPU tick followed by the quantum check of `ejecutar`. */
  function EjecutarConQuantum(c: Configuracion, s: EstadoRR): EstadoRR
  {
    var s1 := EjecutarProcesoActual(c, s);
    if VerificarPreemptionQuantum(s1) then PreemptarProcesoActual(s1) else s1
  }

  /** Dispatch, one CPU tick and the quantum check of an iteration with no window tick. */
  function PasoLibre(c: Configuracion, quantum: int, s: EstadoRR): EstadoRR
  {
    var s1 := s.(nucleo := AcumularListoDe(s.nucleo, s.nucleo.colaListos));
    var s2 := if s1.nucleo.procesoActual == null then SeleccionarSiguienteProceso(c, quantum, s1) else s1;
    var s3 := if s2.nucleo.procesoActual != null && s2.nucleo.tiempoRestanteBloqueo == 0
              then EjecutarConQuantum(c, s2) else s2;
    s3.(nucleo := Avanzar(ContarOcioso(s3.nucleo)))
  }

  /** One iteration of the `while` loop of `ejecutar`. */
  function Paso(c: Configuracion, quantum: int, s: EstadoRR): EstadoRR
  {
    var s1 := s.(nucleo := ProcesarLlegadas(Fifo, c, RegistrarFinTcp(s.nucleo)));
    var r := ProcesarTiempoBloqueo(c, s1);
    var s2 := r.0.(nucleo := ProcesarBloqueados(Fifo, r.0.nucleo).n);
    if r.1 then s2.(nucleo := Avanzar(s2.nucleo))
    else PasoLibre(c, quantum, s2)
  }

  /** The loop of `ejecutar` from iteration count `iteraciones`: the final state and count. */
  function Correr(c: Configuracion, quantum: int, s: EstadoRR, iteraciones: nat): (EstadoRR, nat)
  {
    Iterar((x: EstadoRR) => Paso(c, quantum, x), (x: EstadoRR) => HayProcesosPendientes(c, x.nucleo), s, iteraciones)
  }
}
