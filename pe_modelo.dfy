/**
  The external-priority engine with preemption (`PE`) as functions on its
  state: the shared part (`Nucleo`) plus the names of the processes that
  finished I/O in the current tick. Each function is one method of the class;
  `Paso` is one iteration of the `while` loop of `ejecutar`.
 */
module ModeloPE {
  import opened Procesos
  import opened OrdenPE
  import opened Motor

  datatype EstadoPE = EstadoPE(nucleo: Nucleo, recienTerminaronIo: seq<string>)

  function InicialPE(): EstadoPE
  {
    EstadoPE(NucleoInicial(), [])
  }

  /**
    `verificar_preemption`: the ready list after the call (sorted when the
    check gets that far) and the answer.
   */
  function VerificarPreemption(n: Nucleo): (Nucleo, bool)
  {
    if n.procesoActual == null || |n.colaListos| == 0 then (n, false)
    else
      var q := OrdenarPorPrioridad(n.colaListos);
      (n.(colaListos := q), q[0].prioridad > n.procesoActual.prioridad)
  }

  /**
    `preemptar_proceso_actual` up to the charge: `fin_ejecucion` one tick
    back, the running process re-queued by priority as ready, `preemption`,
    and the head of the list on the CPU.
   */
  function Reencolar(n: Nucleo): Nucleo
    requires n.procesoActual != null
  {
    var p := n.procesoActual;
    var n1 := n.(resultados := n.resultados + [Evento(n.tiempoActual - 1, p.nombre, FinEjecucion, Ejecutando)],
                 atributos := ConEstado(n.atributos, p, Listo));
    var n2 := Anotado(n1.(colaListos := Insertar(n1.colaListos, p)), p.nombre, Preemption, Listo);
    n2.(procesoActual := n2.colaListos[0], colaListos := n2.colaListos[1..])
  }

  /** The charge of the process that preempts: TIP followed by TCP when it is new, TCP otherwise. */
  function CargaTrasPreemption(c: Configuracion, n: Nucleo): Nucleo
    requires n.procesoActual != null
  {
    var p := n.procesoActual;
    if Attr(n.atributos, p).procesoNuevo then MarcarVisto(AplicarTip(c, n), p).(aplicarTcpDespuesTip := true)
    else AplicarTcp(c, n)
  }

  /**
    `preemptar_proceso_actual`: the ready list is sorted, the running process
    goes back into it by priority and the head of the list takes the CPU;
    its name leaves the just-finished-I/O names.
   */
  function PreemptarProcesoActual(c: Configuracion, s: EstadoPE): EstadoPE
  {
    var n := s.nucleo;
    if n.procesoActual == null || |n.colaListos| == 0 then s
    else
      var n3 := Reencolar(n.(colaListos := OrdenarPorPrioridad(n.colaListos)));
      EstadoPE(CargaTrasPreemption(c, n3), QuitarPrimero(s.recienTerminaronIo, n3.procesoActual.nombre))
  }

  /** `terminar_proceso`. */
  function TerminarProceso(c: Configuracion, n: Nucleo): Nucleo
    requires n.procesoActual != null
  {
    TerminarResto(c, FinEjecucionActual(n))
  }

  /** The tick itself: one unit less of the burst and one more of `cpu_proc`, also per process. */
  function ConsumirTick(n: Nucleo): Nucleo
    requires n.procesoActual != null
  {
    var p := n.procesoActual;
    var a := Attr(n.atributos, p).(duracionRafagasCpu := Attr(n.atributos, p).duracionRafagasCpu - 1);
    n.(atributos := n.atributos[p := a], cpuProc := n.cpuProc + 1,
       cpuProcPorProceso := Sumar(n.cpuProcPorProceso, p.nombre, 1))
  }

  /**
    The end of a burst: one burst fewer, recorded over the table `t0` of
    before the tick; the process terminates when none is left and blocks
    otherwise.
   */
  function CerrarRafaga(c: Configuracion, n1: Nucleo, t0: Tabla): Nucleo
    requires n1.procesoActual != null
  {
    var p := n1.procesoActual;
    var a := Attr(n1.atributos, p);
    var a2 := a.(cantidadRafagasCpu := a.cantidadRafagasCpu - 1);
    var n2 := n1.(atributos := t0[p := a2]);
    if a2.cantidadRafagasCpu == 0 then TerminarProceso(c, n2) else BloquearProceso(n2)
  }

  /**
    `ejecutar_proceso_actual`: one CPU tick for the running process; at the
    end of a burst it terminates when no burst is left and blocks otherwise.
   */
  function EjecutarProcesoActual(c: Configuracion, n: Nucleo): Nucleo
  {
    if n.procesoActual == null then n
    else
      var n1 := ConsumirTick(n);
      if Attr(n1.atributos, n.procesoActual).duracionRafagasCpu == 0 then CerrarRafaga(c, n1, n.atributos)
      else n1
  }

  /**
    `seleccionar_siguiente_proceso`: the first ready process that did not
    finish I/O in this tick is taken off the list and charged TIP or TCP.
   */
  function SeleccionarSiguienteProceso(c: Configuracion, s: EstadoPE): EstadoPE
  {
    var n := s.nucleo;
    if |n.colaListos| == 0 then s
    else
      match PrimerSeleccionable(n.colaListos, s.recienTerminaronIo)
      case None => s
      case Some(i) =>
        var n1 := n.(procesoActual := n.colaListos[i], colaListos := n.colaListos[..i] + n.colaListos[i + 1..]);
        s.(nucleo := Despachar(c, n1))
  }

  /** `procesar_procesos_bloqueados`: PE inserts by priority and remembers who finished I/O now. */
  function ProcesarProcesosBloqueados(s: EstadoPE): EstadoPE
  {
    var r := ProcesarBloqueados(PorPrioridad, s.nucleo);
    EstadoPE(r.n, s.recienTerminaronIo + Nombres(r.terminaron))
  }

  /**
    The corner case of a TIP/TCP window that closes while a process of
    higher priority waits: the running process is re-queued, `cpu_proc` and
    its counter drop by one although none of its ticks ran in this window,
    and the head of the list starts executing at once, without a window of
    its own.
   */
  function CambiarProceso(n: Nucleo, nombre: Option<string>, tipo: Bloqueo): Nucleo
    requires n.procesoActual != null
  {
    var p := n.procesoActual;
    var n1 := n.(atributos := ConEstado(n.atributos, p, Listo), cpuProc := n.cpuProc - 1,
                 cpuProcPorProceso := Sumar(n.cpuProcPorProceso, p.nombre, -1));
    var q := Insertar(n1.colaListos, p);
    var cabeza := q[0];
    var n2 := n1.(procesoActual := cabeza, colaListos := q[1..], atributos := ConEstado(n1.atributos, cabeza, Ejecutando));
    var t := n.tiempoActual;
    var fin := if NombreVerdadero(nombre) then [Evento(t, nombre.value, FinDe(tipo), SistemaLibre)] else [];
    n2.(resultados := n.resultados + [Evento(t, cabeza.nombre, CambioProcesoPe, Ejecutando),
                                      Evento(t, cabeza.nombre, InicioEjecucion, Ejecutando)] + fin,
        tipoBloqueo := NoBloqueo)
  }

  /**
    A TIP or TCP window closes with a process on the CPU and no TCP owed:
    the ready list is sorted, then the choice below is made.
   */
  function CerrarTipTcp(c: Configuracion, n: Nucleo, tipo: Bloqueo): (Nucleo, bool)
    requires n.procesoActual != null
  {
    var n1 := if |n.colaListos| > 0 then n.(colaListos := OrdenarPorPrioridad(n.colaListos)) else n;
    ElegirTrasVentana(c, n1, Some(n.procesoActual.nombre), tipo)
  }

  /**
    A waiting process of higher priority than the running one takes over at
    once; otherwise the running process executes its first tick now.
   */
  function ElegirTrasVentana(c: Configuracion, n: Nucleo, nombre: Option<string>, tipo: Bloqueo): (Nucleo, bool)
    requires n.procesoActual != null
  {
    if |n.colaListos| > 0 && n.colaListos[0].prioridad > n.procesoActual.prioridad then
      (CambiarProceso(n, nombre, tipo), false)
    else
      (CerrarVentana(EjecutarProcesoActual(c, PonerEnEjecucion(n)), nombre, tipo), true)
  }

  /**
    `procesar_tiempo_bloqueo`: consumes one tick of the open window (one tick
    of `cpu_so`), closes it when it reaches 0, and says whether the rest of
    the iteration is skipped.
   */
  function ProcesarTiempoBloqueo(c: Configuracion, n: Nucleo): (Nucleo, bool)
  {
    if n.tiempoRestanteBloqueo > 0 then
      var n1 := n.(tiempoRestanteBloqueo := n.tiempoRestanteBloqueo - 1, cpuSo := n.cpuSo + 1);
      if n1.tiempoRestanteBloqueo == 0 then
        var tipo := n1.tipoBloqueo;
        if tipo == Tfp then
          (CerrarTfp(n1), true)
        else if (tipo == Tip || tipo == Tcp) && n1.procesoActual != null then
          if tipo == Tip && n1.aplicarTcpDespuesTip then (CerrarVentana(EncadenarTcp(c, n1), None, tipo), true)
          else CerrarTipTcp(c, n1, tipo)
        else (CerrarVentana(n1, None, tipo), true)
      else (n1, true)
    else (n, false)
  }

  /**
    The preemption check of `ejecutar`: with a process on the CPU and no
    window open, a waiting process of higher priority preempts it, unless
    its burst has exactly one tick left.
   */
  function ComprobarPreemption(c: Configuracion, s: EstadoPE): EstadoPE
  {
    var n := s.nucleo;
    if n.procesoActual != null && n.tiempoRestanteBloqueo == 0 then
      var r := VerificarPreemption(n);
      var s1 := s.(nucleo := r.0);
      if r.1 && Attr(n.atributos, n.procesoActual).duracionRafagasCpu != 1 then PreemptarProcesoActual(c, s1)
      else s1
    else s
  }

  /** The idle count: no process on the CPU, no window open and nothing ready. */
  function ContarOcioso(n: Nucleo): Nucleo
  {
    if n.procesoActual == null && n.tiempoRestanteBloqueo == 0 && |n.colaListos| == 0
    then n.(cpuIdle := n.cpuIdle + 1) else n
  }

  function Avanzar(n: Nucleo): Nucleo
  {
    n.(tiempoActual := n.tiempoActual + 1)
  }

  /** The part of an iteration after the window check, when no window tick was consumed. */
  function PasoLibre(c: Configuracion, s: EstadoPE): EstadoPE
  {
    var s1 := ComprobarPreemption(c, s);
    var s2 := s1.(nucleo := AcumularListoDe(s1.nucleo, s1.nucleo.colaListos));
    var s3 := if s2.nucleo.procesoActual == null then SeleccionarSiguienteProceso(c, s2) else s2;
    var s4 := if s3.nucleo.procesoActual != null && s3.nucleo.tiempoRestanteBloqueo == 0
              then s3.(nucleo := EjecutarProcesoActual(c, s3.nucleo)) else s3;
    EstadoPE(Avanzar(ContarOcioso(s4.nucleo)), [])
  }

  /** One iteration of the `while` loop of `ejecutar`. */
  function Paso(c: Configuracion, s: EstadoPE): EstadoPE
  {
    var n1 := ProcesarLlegadas(PorPrioridad, c, RegistrarFinTcp(s.nucleo));
    var r := ProcesarTiempoBloqueo(c, n1);
    var s2 := ProcesarProcesosBloqueados(EstadoPE(r.0, s.recienTerminaronIo));
    if r.1 then s2.(nucleo := Avanzar(s2.nucleo))
    else PasoLibre(c, s2)
  }

  /** The loop of `ejecutar` from iteration count `iteraciones`: the final state and count. */
  function Correr(c: Configuracion, s: EstadoPE, iteraciones: nat): (EstadoPE, nat)
  {
    Iterar((x: EstadoPE) => Paso(c, x), (x: EstadoPE) => HayProcesosPendientes(c, x.nucleo), s, iteraciones)
  }
}
