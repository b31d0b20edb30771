/**
  The state and the steps that the two tick-stepped engines (`PE` and `RR`)
  share, each step a function from the engine state before it to the state
  after it. Both Python classes carry their own copy of these methods; the
  copies only differ where the engine-specific modules say so.
 */
module Motor {
  import opened Procesos
  import opened OrdenPE

  /** The tag of the overhead window in progress (`tipo_bloqueo`: None, 'tip', 'tcp' or 'tfp'). */
  datatype Bloqueo = NoBloqueo | Tip | Tcp | Tfp

  /** The end event `f'fin_{tipo_original}'`. */
  function FinDe(k: Bloqueo): TipoEvento
  {
    match k
    case Tip => FinTip
    case Tcp => FinTcp
    case Tfp => FinTfp
    case NoBloqueo => FinNone
  }

  /** How `insertar_ordenado` queues a process: by external priority (PE) or at the tail (RR). */
  datatype Politica = PorPrioridad | Fifo

  function Encolar(pol: Politica, q: seq<Proceso>, p: Proceso): seq<Proceso>
  {
    match pol
    case PorPrioridad => Insertar(q, p)
    case Fifo => q + [p]
  }

  /** The constructor arguments that never change during a run. */
  datatype Configuracion = Configuracion(procesos: seq<Proceso>, tiempoTip: int, tiempoTcp: int, tiempoTfp: int)

  /** The fields both engine classes have, with the same meaning. */
  datatype Nucleo = Nucleo(
    atributos: Tabla,
    tiempoActual: int,
    procesoActual: Proceso?,
    colaListos: seq<Proceso>,
    procesosBloqueados: seq<Proceso>,
    procesosTerminados: seq<Proceso>,
    resultados: seq<Evento>,
    tiempoRestanteBloqueo: int,
    tipoBloqueo: Bloqueo,
    aplicarTcpDespuesTip: bool,
    tcpDespuesTipActivo: bool,
    registrarFinTcpDespuesTip: bool,
    cpuProc: int,
    cpuSo: int,
    cpuIdle: int,
    tPrimerArribo: Option<int>,
    tUltimoTfp: Option<int>,
    cpuProcPorProceso: map<string, int>,
    tArriboPorProceso: map<string, int>,
    tFinPorProceso: map<string, int>,
    tListoPorProceso: map<string, int>)

  /** The state the constructors leave: clock 0, nothing queued, no window, all counters 0. */
  function NucleoInicial(): Nucleo
  {
    Nucleo(map[], 0, null, [], [], [], [], 0, NoBloqueo, false, false, false, 0, 0, 0, None, None,
           map[], map[], map[], map[])
  }

  /** Appends an event stamped with the current tick. */
  function Anotado(n: Nucleo, nombre: string, k: TipoEvento, e: Estado): Nucleo
  {
    n.(resultados := n.resultados + [Evento(n.tiempoActual, nombre, k, e)])
  }

  /**
    The deferred end of a TCP that followed a TIP: at the start of the next
    iteration the running process gets its `fin_tcp` and starts executing.
   */
  function RegistrarFinTcp(n: Nucleo): Nucleo
  {
    if n.registrarFinTcpDespuesTip && n.procesoActual != null then
      PonerEnEjecucion(Anotado(n, n.procesoActual.nombre, FinTcp, SistemaLibre)).(registrarFinTcpDespuesTip := false)
    else n
  }

  /** The body of `procesar_llegadas` for one process whose arrival tick is now. */
  function Admitir(pol: Politica, n: Nucleo, p: Proceso): Nucleo
  {
    var t := n.tiempoActual;
    Anotado(n, p.nombre, Llegada, Arrivo).(
      colaListos := Encolar(pol, n.colaListos, p),
      atributos := ConEstado(n.atributos, p, Listo),
      tPrimerArribo := if n.tPrimerArribo.None? then Some(t) else n.tPrimerArribo,
      tArriboPorProceso := n.tArriboPorProceso[p.nombre := t],
      cpuProcPorProceso := n.cpuProcPorProceso[p.nombre := 0],
      tListoPorProceso := n.tListoPorProceso[p.nombre := 0])
  }

  /** `procesar_llegadas` over the processes `ps`, in order. */
  function LlegadasDe(pol: Politica, n: Nucleo, ps: seq<Proceso>): Nucleo
  {
    if ps == [] then n
    else
      var m := LlegadasDe(pol, n, ps[..|ps| - 1]);
      var p := ps[|ps| - 1];
      if p.tiempoArrivo == m.tiempoActual then Admitir(pol, m, p) else m
  }

  /** `procesar_llegadas`. */
  function ProcesarLlegadas(pol: Politica, c: Configuracion, n: Nucleo): Nucleo
  {
    LlegadasDe(pol, n, c.procesos)
  }

  /** The running process is marked executing, with an `inicio ejecucion` event. */
  function PonerEnEjecucion(n: Nucleo): Nucleo
    requires n.procesoActual != null
  {
    var p := n.procesoActual;
    Anotado(n, p.nombre, InicioEjecucion, Ejecutando).(atributos := ConEstado(n.atributos, p, Ejecutando))
  }

  /** A zero-length window: the running process starts executing at once and no window is open. */
  function EmpezarEjecucion(n: Nucleo): Nucleo
    requires n.procesoActual != null
  {
    PonerEnEjecucion(n).(tipoBloqueo := NoBloqueo)
  }

  /** `proceso_nuevo = False` for a process that has been dispatched once. */
  function MarcarVisto(n: Nucleo, p: Proceso): Nucleo
  {
    n.(atributos := n.atributos[p := Attr(n.atributos, p).(procesoNuevo := false)])
  }

  /** `aplicar_tcp`: opens a TCP window, or with a zero-length TCP starts execution. */
  function AplicarTcp(c: Configuracion, n: Nucleo): Nucleo
    requires n.procesoActual != null
  {
    if c.tiempoTcp > 0 then
      Anotado(n, n.procesoActual.nombre, InicioTcp, BloqueadoSistema).(
        tiempoRestanteBloqueo := c.tiempoTcp, tipoBloqueo := Tcp)
    else EmpezarEjecucion(n)
  }

  /**
    `aplicar_tip`: opens a TIP window; with a zero-length TIP it goes on
    with the TCP that was asked for after it, or starts execution.
   */
  function AplicarTip(c: Configuracion, n: Nucleo): Nucleo
    requires n.procesoActual != null
  {
    if c.tiempoTip > 0 then
      Anotado(n, n.procesoActual.nombre, InicioTip, BloqueadoSistema).(
        tiempoRestanteBloqueo := c.tiempoTip, tipoBloqueo := Tip)
    else if n.aplicarTcpDespuesTip then AplicarTcp(c, n.(aplicarTcpDespuesTip := false))
    else EmpezarEjecucion(n)
  }

  /**
    The charge both engines make for a dispatched process: TIP the first
    time (then it is no longer new), TCP after that.
   */
  function Despachar(c: Configuracion, n: Nucleo): Nucleo
    requires n.procesoActual != null
  {
    var p := n.procesoActual;
    if Attr(n.atributos, p).procesoNuevo then MarcarVisto(AplicarTip(c, n), p) else AplicarTcp(c, n)
  }

  /** The record-keeping of a process that finishes for good at the current tick. */
  function Finalizado(n: Nucleo, p: Proceso): Nucleo
  {
    var t := n.tiempoActual;
    Anotado(n, p.nombre, Terminacion, Terminado).(
      atributos := n.atributos[p := Attr(n.atributos, p).(tiempoFin := Some(t), estado := Terminado)],
      tFinPorProceso := n.tFinPorProceso[p.nombre := t])
  }

  /** `aplicar_tfp`: opens a TFP window, or with a zero-length TFP terminates the running process at once. */
  function AplicarTfp(c: Configuracion, n: Nucleo): Nucleo
    requires n.procesoActual != null
  {
    var p := n.procesoActual;
    if c.tiempoTfp > 0 then
      Anotado(n, p.nombre, InicioTfp, BloqueadoSistema).(
        tiempoRestanteBloqueo := c.tiempoTfp, tipoBloqueo := Tfp)
    else
      var m := n.(tipoBloqueo := NoBloqueo, procesosTerminados := n.procesosTerminados + [p],
                  tUltimoTfp := Some(n.tiempoActual));
      Finalizado(m, p)
  }

  /** `bloquear_proceso`: the running process ends its burst and starts I/O; the CPU is left empty. */
  function BloquearProceso(n: Nucleo): Nucleo
    requires n.procesoActual != null
  {
    var p := n.procesoActual;
    var t := n.tiempoActual;
    var a := Attr(n.atributos, p).(tiempoBloqueo := t, duracionRafagasIo := p.duracionRafagasIoOriginal,
                                    estado := Bloqueado);
    n.(atributos := n.atributos[p := a],
       procesosBloqueados := n.procesosBloqueados + [p],
       resultados := n.resultados + [Evento(t, p.nombre, FinEjecucion, Ejecutando),
                                     Evento(t, p.nombre, BloqueoIo, Bloqueado)]
                                  + (if p.duracionRafagasIoOriginal > 0
                                     then [Evento(t + 1, p.nombre, InicioIo, Bloqueado)] else []),
       procesoActual := null)
  }

  /** The `fin_ejecucion` event that both engines log first when the running process ends its last burst. */
  function FinEjecucionActual(n: Nucleo): Nucleo
    requires n.procesoActual != null
  {
    Anotado(n, n.procesoActual.nombre, FinEjecucion, Ejecutando)
  }

  /**
    The rest of `terminar_proceso`: with a positive TFP the process waits in
    the terminated list as `terminando` while the window runs; otherwise it
    finishes now. Either way the CPU is left empty.
   */
  function TerminarResto(c: Configuracion, n: Nucleo): Nucleo
    requires n.procesoActual != null
  {
    var p := n.procesoActual;
    if c.tiempoTfp > 0 then
      var m := AplicarTfp(c, n);
      m.(atributos := ConEstado(m.atributos, p, Terminando),
         procesosTerminados := m.procesosTerminados + [p], procesoActual := null)
    else
      Finalizado(n.(procesosTerminados := n.procesosTerminados + [p]), p).(procesoActual := null)
  }

  /** `finalizar_proceso_completamente`: the first `terminando` process of the terminated list finishes now. */
  function FinalizarProcesoCompletamente(n: Nucleo): Nucleo
  {
    match PrimeroTerminando(n.atributos, n.procesosTerminados)
    case None => n
    case Some(i) => Finalizado(n, n.procesosTerminados[i]).(tUltimoTfp := Some(n.tiempoActual))
  }

  /** The name `procesar_tiempo_bloqueo` reports when a TFP window closes. */
  function NombreTerminando(n: Nucleo): Option<string>
  {
    match PrimeroTerminando(n.atributos, n.procesosTerminados)
    case None => None
    case Some(i) => Some(n.procesosTerminados[i].nombre)
  }

  /** The close of a TFP window: the first `terminando` process finishes and `fin_tfp` is logged under its name. */
  function CerrarTfp(n: Nucleo): Nucleo
  {
    CerrarVentana(FinalizarProcesoCompletamente(n), NombreTerminando(n), Tfp)
  }

  /** A TIP that closes while a TCP is owed: `fin_tip`, then the TCP window. */
  function EncadenarTcp(c: Configuracion, n: Nucleo): Nucleo
    requires n.procesoActual != null
  {
    AplicarTcp(c, Anotado(n, n.procesoActual.nombre, FinTip, SistemaLibre).(
                    aplicarTcpDespuesTip := false, tcpDespuesTipActivo := true))
  }

  /**
    The end of a closing window: the `fin_*` event of the window's own kind
    under the reported name, or, for the TCP that followed a TIP, the flag
    that defers its `fin_tcp` to the next iteration; the tag is cleared
    unless a new window of another kind was opened meanwhile.
   */
  function CerrarVentana(n: Nucleo, nombre: Option<string>, tipo: Bloqueo): Nucleo
  {
    var conNombre := NombreVerdadero(nombre);
    var diferido := !conNombre && n.tcpDespuesTipActivo && tipo == Tcp;
    n.(resultados := n.resultados + (if conNombre then [Evento(n.tiempoActual, nombre.value, FinDe(tipo), SistemaLibre)] else []),
       tcpDespuesTipActivo := if diferido then false else n.tcpDespuesTipActivo,
       registrarFinTcpDespuesTip := if diferido then true else n.registrarFinTcpDespuesTip,
       tipoBloqueo := if n.tipoBloqueo == tipo then NoBloqueo else n.tipoBloqueo)
  }

  /** One tick of ready time for a process of the ready list. */
  function ListoUnTick(n: Nucleo, p: Proceso): Nucleo
  {
    n.(atributos := n.atributos[p := Attr(n.atributos, p).(tiempoEnListo := Attr(n.atributos, p).tiempoEnListo + 1)],
       tListoPorProceso := Sumar(n.tListoPorProceso, p.nombre, 1))
  }

  /** The ready-time accrual loop over `q`, in order. */
  function AcumularListoDe(n: Nucleo, q: seq<Proceso>): Nucleo
  {
    if q == [] then n
    else ListoUnTick(AcumularListoDe(n, q[..|q| - 1]), q[|q| - 1])
  }

  /** The iteration cap of `ejecutar`. */
  const TiempoMaximo := 1000

  /**
    The `while` loop of `ejecutar`, the same in both engines: one iteration
    `paso` after another while `pendiente` holds and fewer than
    `TiempoMaximo` iterations ran; the final state and iteration count.
   */
  function Iterar<S>(paso: S -> S, pendiente: S -> bool, s: S, iteraciones: nat): (S, nat)
    decreases TiempoMaximo - iteraciones
  {
    if pendiente(s) && iteraciones < TiempoMaximo then Iterar(paso, pendiente, paso(s), iteraciones + 1)
    else (s, iteraciones)
  }

  /** `hay_procesos_pendientes`. */
  predicate HayProcesosPendientes(c: Configuracion, n: Nucleo)
  {
    || |n.colaListos| > 0
    || |n.procesosBloqueados| > 0
    || n.procesoActual != null
    || (exists p :: p in c.procesos && p.tiempoArrivo > n.tiempoActual)
    || (exists p :: p in c.procesos && Attr(n.atributos, p).estado == Terminando)
  }

  /**
    One step of the blocked-list loop of `procesar_procesos_bloqueados`: the
    state so far and the processes found to finish I/O so far.
   */
  datatype PasoIo = PasoIo(n: Nucleo, terminaron: seq<Proceso>)

  /** The loop body for one blocked process `p`. */
  function IoUnTick(pol: Politica, r: PasoIo, p: Proceso): PasoIo
  {
    var n := r.n;
    var a := Attr(n.atributos, p);
    if a.tiempoBloqueo < n.tiempoActual then
      var a1 := a.(duracionRafagasIo := a.duracionRafagasIo - 1);
      if a1.duracionRafagasIo == 0 then
        var a2 := a1.(estado := Listo, duracionRafagasCpu := p.duracionRafagasCpuOriginal);
        var m := Anotado(n, p.nombre, FinIo, Listo).(
                   atributos := n.atributos[p := a2], colaListos := Encolar(pol, n.colaListos, p));
        PasoIo(m, r.terminaron + [p])
      else PasoIo(n.(atributos := n.atributos[p := a1]), r.terminaron)
    else r
  }

  /** The blocked-list loop over `ps`, in order. */
  function IoDe(pol: Politica, r: PasoIo, ps: seq<Proceso>): PasoIo
  {
    if ps == [] then r
    else IoUnTick(pol, IoDe(pol, r, ps[..|ps| - 1]), ps[|ps| - 1])
  }

  /** The removal loop `for p in terminaron: procesos_bloqueados.remove(p)`. */
  function QuitarTodos(s: seq<Proceso>, xs: seq<Proceso>): seq<Proceso>
  {
    if xs == [] then s
    else QuitarPrimero(QuitarTodos(s, xs[..|xs| - 1]), xs[|xs| - 1])
  }

  /**
    `procesar_procesos_bloqueados` on the shared state, with the processes
    that finished I/O (PE also records their names).
   */
  function ProcesarBloqueados(pol: Politica, n: Nucleo): PasoIo
  {
    var r := IoDe(pol, PasoIo(n, []), n.procesosBloqueados);
    PasoIo(r.n.(procesosBloqueados := QuitarTodos(r.n.procesosBloqueados, r.terminaron)), r.terminaron)
  }

  /** The value of `obtener_estadisticas_cpu`. */
  datatype EstadisticasCpu = EstadisticasCpu(
    cpuProc: int, cpuSo: int, cpuIdle: int, tTotal: int,
    tPrimerArribo: Option<int>, tUltimoTfp: Option<int>,
    cpuProcPorProceso: map<string, int>, tArriboPorProceso: map<string, int>,
    tFinPorProceso: map<string, int>, tListoPorProceso: map<string, int>)

  /** The span the statistics cover: to the last TFP when there was one, else to the clock. */
  function TiempoTotal(n: Nucleo): int
  {
    if n.tPrimerArribo.Some? && n.tUltimoTfp.Some? then n.tUltimoTfp.value - n.tPrimerArribo.value
    else if n.tPrimerArribo.Some? then n.tiempoActual - n.tPrimerArribo.value
    else 0
  }

  /** `obtener_estadisticas_cpu`. */
  function ObtenerEstadisticasCpu(n: Nucleo): (r: EstadisticasCpu)
    ensures r.cpuProc == n.cpuProc && r.cpuSo == n.cpuSo && r.tTotal == TiempoTotal(n)
    ensures r.cpuIdle >= 0
    ensures r.cpuProc + r.cpuSo + r.cpuIdle >= r.tTotal
    ensures r.cpuProc + r.cpuSo <= r.tTotal ==> r.cpuProc + r.cpuSo + r.cpuIdle == r.tTotal
    ensures r.cpuProc + r.cpuSo > r.tTotal ==> r.cpuIdle == 0
    ensures r.cpuProcPorProceso == n.cpuProcPorProceso && r.tListoPorProceso == n.tListoPorProceso
    ensures r.tArriboPorProceso == n.tArriboPorProceso && r.tFinPorProceso == n.tFinPorProceso
  {
    var total := TiempoTotal(n);
    var idle := total - (n.cpuProc + n.cpuSo);
    EstadisticasCpu(n.cpuProc, n.cpuSo, if idle < 0 then 0 else idle, total, n.tPrimerArribo, n.tUltimoTfp,
                    n.cpuProcPorProceso, n.tArriboPorProceso, n.tFinPorProceso, n.tListoPorProceso)
  }
}
