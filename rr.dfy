/**
  The class `RR` itself, whose methods update its state in place. As in
  `AlgoritmoPE`, the state both engines share is the record `nucleo`; the
  quantum countdown and the flag that asks for a TCP after the next TIP are
  fields of their own. Every method is specified by the function of
  `ModeloRR` or `Motor` it implements, and what those functions guarantee is
  proved in `PropiedadesRR` and `PropiedadesMotor`.
 */
module AlgoritmoRR {
  import opened Procesos
  import opened Motor
  import opened PropiedadesMotor
  import opened ModeloRR
  import opened PropiedadesRR

  class RR {
    const config: Configuracion
    const quantum: int
    var nucleo: Nucleo
    var quantumRestante: int
    var necesitaTcpPorQuantum: bool

    /** All the state, as one value. */
    function Estado(): EstadoRR
      reads this
    {
      EstadoRR(nucleo, quantumRestante, necesitaTcpPorQuantum)
    }

    /** `__init__`: clock 0, nothing queued, no window, no quantum running, all counters 0. */
    constructor (procesos: seq<Proceso>, tiempoTip: int, tiempoTcp: int, tiempoTfp: int, quantum: int)
      ensures config == Configuracion(procesos, tiempoTip, tiempoTcp, tiempoTfp)
      ensures this.quantum == quantum
      ensures Estado() == InicialRR()
    {
      config := Configuracion(procesos, tiempoTip, tiempoTcp, tiempoTfp);
      this.quantum := quantum;
      nucleo := NucleoInicial();
      quantumRestante := 0;
      necesitaTcpPorQuantum := false;
    }

    /** Appends an event stamped with the current tick to `resultados`. */
    method Registrar(nombre: string, k: TipoEvento, e: Estado)
      modifies this
      ensures Estado() == old(Estado()).(nucleo := Anotado(old(nucleo), nombre, k, e))
    {
      nucleo := nucleo.(resultados := nucleo.resultados + [Evento(nucleo.tiempoActual, nombre, k, e)]);
    }

    /** A process finishes for good now: its finish tick, the `terminado` state and the `terminacion` event. */
    method Finalizar(p: Proceso)
      modifies this
      ensures Estado() == old(Estado()).(nucleo := Finalizado(old(nucleo), p))
    {
      var t := nucleo.tiempoActual;
      nucleo := nucleo.(tFinPorProceso := nucleo.tFinPorProceso[p.nombre := t],
                        atributos := nucleo.atributos[p := Attr(nucleo.atributos, p).(tiempoFin := Some(t), estado := Terminado)]);
      Registrar(p.nombre, Terminacion, Terminado);
    }

    /** The running process starts executing: `ejecutando` and `inicio ejecucion`. */
    method PonerEnEjecucion()
      requires nucleo.procesoActual != null
      modifies this
      ensures Estado() == old(Estado()).(nucleo := Motor.PonerEnEjecucion(old(nucleo)))
    {
      var p := nucleo.procesoActual;
      Registrar(p.nombre, InicioEjecucion, Ejecutando);
      nucleo := nucleo.(atributos := ConEstado(nucleo.atributos, p, Ejecutando));
    }

    /** `insertar_ordenado` of RR: the process joins the tail of the ready list. */
    method InsertarOrdenado(p: Proceso)
      modifies this
      ensures Estado() == old(Estado()).(nucleo := old(nucleo).(colaListos := old(nucleo).colaListos + [p]))
    {
      nucleo := nucleo.(colaListos := nucleo.colaListos + [p]);
    }

    /** The admission of one process that arrives now: it joins the ready list as ready, its counters start and `llegada` is logged. */
    method AdmitirLlegada(p: Proceso)
      modifies this
      ensures nucleo == Admitir(Fifo, old(nucleo), p)
      ensures quantumRestante == old(quantumRestante) && necesitaTcpPorQuantum == old(necesitaTcpPorQuantum)
    {
      InsertarOrdenado(p);
      var t := nucleo.tiempoActual;
      nucleo := nucleo.(atributos := ConEstado(nucleo.atributos, p, Listo),
                        tPrimerArribo := if nucleo.tPrimerArribo.None? then Some(t) else nucleo.tPrimerArribo,
                        tArriboPorProceso := nucleo.tArriboPorProceso[p.nombre := t],
                        cpuProcPorProceso := nucleo.cpuProcPorProceso[p.nombre := 0],
                        tListoPorProceso := nucleo.tListoPorProceso[p.nombre := 0]);
      Registrar(p.nombre, Llegada, Arrivo);
    }

    /** `procesar_llegadas`: every process whose arrival tick is now joins the tail, in input order. */
    method ProcesarLlegadas()
      modifies this
      ensures Estado() == old(Estado()).(nucleo := Motor.ProcesarLlegadas(Fifo, config, old(nucleo)))
    {
      var ps := config.procesos;
      var i := 0;
      while i < |ps|
        invariant 0 <= i <= |ps|
        invariant nucleo == LlegadasDe(Fifo, old(nucleo), ps[..i])
        invariant quantumRestante == old(quantumRestante) && necesitaTcpPorQuantum == old(necesitaTcpPorQuantum)
      {
        var p := ps[i];
        LlegadasPrefijo(Fifo, old(nucleo), ps, i);
        if p.tiempoArrivo == nucleo.tiempoActual {
          AdmitirLlegada(p);
        }
        i := i + 1;
      }
      assert ps[..i] == ps;
    }

    /** `verificar_preemption_quantum`: yes exactly when a process runs and its quantum is used up. */
    method VerificarPreemptionQuantum() returns (expropiar: bool)
      ensures expropiar == ModeloRR.VerificarPreemptionQuantum(Estado())
      ensures expropiar <==> nucleo.procesoActual != null && quantumRestante <= 0
    {
      if nucleo.procesoActual == null {
        return false;
      }
      return quantumRestante <= 0;
    }

    /**
      `preemptar_proceso_actual` of RR: the running process goes to the tail
      of the ready list, the CPU is left empty and the next new process owes
      a TCP after its TIP.
     */
    method PreemptarProcesoActual()
      modifies this
      ensures Estado() == ModeloRR.PreemptarProcesoActual(old(Estado()))
    {
      if nucleo.procesoActual == null {
        return;
      }
      var p := nucleo.procesoActual;
      Registrar(p.nombre, FinEjecucion, Ejecutando);
      nucleo := nucleo.(atributos := ConEstado(nucleo.atributos, p, Listo));
      InsertarOrdenado(p);
      Registrar(p.nombre, PreemptionQuantum, Listo);
      necesitaTcpPorQuantum := true;
      nucleo := nucleo.(procesoActual := null);
      quantumRestante := 0;
    }

    /** `aplicar_tcp`: opens a TCP window, or with a zero-length TCP starts execution. */
    method AplicarTcp()
      requires nucleo.procesoActual != null
      modifies this
      ensures Estado() == old(Estado()).(nucleo := Motor.AplicarTcp(config, old(nucleo)))
    {
      if config.tiempoTcp > 0 {
        Registrar(nucleo.procesoActual.nombre, InicioTcp, BloqueadoSistema);
        nucleo := nucleo.(tiempoRestanteBloqueo := config.tiempoTcp, tipoBloqueo := Tcp);
      } else {
        PonerEnEjecucion();
        nucleo := nucleo.(tipoBloqueo := NoBloqueo);
      }
    }

    /** `aplicar_tip`: opens a TIP window; a zero-length TIP goes on with the owed TCP or starts execution. */
    method AplicarTip()
      requires nucleo.procesoActual != null
      modifies this
      ensures Estado() == old(Estado()).(nucleo := Motor.AplicarTip(config, old(nucleo)))
    {
      if config.tiempoTip > 0 {
        Registrar(nucleo.procesoActual.nombre, InicioTip, BloqueadoSistema);
        nucleo := nucleo.(tiempoRestanteBloqueo := config.tiempoTip, tipoBloqueo := Tip);
      } else if nucleo.aplicarTcpDespuesTip {
        nucleo := nucleo.(aplicarTcpDespuesTip := false);
        AplicarTcp();
      } else {
        PonerEnEjecucion();
        nucleo := nucleo.(tipoBloqueo := NoBloqueo);
      }
    }

    /** `aplicar_tfp`: opens a TFP window, or with a zero-length TFP the running process finishes now. */
    method AplicarTfp()
      requires nucleo.procesoActual != null
      modifies this
      ensures Estado() == old(Estado()).(nucleo := Motor.AplicarTfp(config, old(nucleo)))
    {
      var p := nucleo.procesoActual;
      if config.tiempoTfp > 0 {
        nucleo := nucleo.(tiempoRestanteBloqueo := config.tiempoTfp, tipoBloqueo := Tfp);
        Registrar(p.nombre, InicioTfp, BloqueadoSistema);
      } else {
        nucleo := nucleo.(tipoBloqueo := NoBloqueo, procesosTerminados := nucleo.procesosTerminados + [p],
                          tUltimoTfp := Some(nucleo.tiempoActual));
        Finalizar(p);
      }
    }

    /** `bloquear_proceso`: the running process ends its burst and starts I/O; the CPU and the quantum are cleared. */
    method BloquearProceso()
      requires nucleo.procesoActual != null
      modifies this
      ensures Estado() == BloquearProcesoRR(old(Estado()))
    {
      var p := nucleo.procesoActual;
      var t := nucleo.tiempoActual;
      var a := Attr(nucleo.atributos, p).(tiempoBloqueo := t, duracionRafagasIo := p.duracionRafagasIoOriginal,
                                           estado := Bloqueado);
      var inicioIo: seq<Evento> := [];
      if a.duracionRafagasIo > 0 {
        inicioIo := [Evento(t + 1, p.nombre, InicioIo, Bloqueado)];
      }
      nucleo := nucleo.(atributos := nucleo.atributos[p := a], procesosBloqueados := nucleo.procesosBloqueados + [p],
                        resultados := nucleo.resultados + [Evento(t, p.nombre, FinEjecucion, Ejecutando),
                                                           Evento(t, p.nombre, BloqueoIo, Bloqueado)] + inicioIo,
                        procesoActual := null);
      quantumRestante := 0;
    }

    /** How many events of kind `k` before tick `t` the log holds for process `nombre`. */
    method ContarEventos(nombre: string, k: TipoEvento, t: int) returns (cuenta: nat)
      ensures cuenta == CuentaEventos(nucleo.resultados, nombre, k, t)
    {
      var log := nucleo.resultados;
      cuenta := 0;
      var i := 0;
      while i < |log|
        invariant 0 <= i <= |log|
        invariant cuenta == CuentaEventos(log[..i], nombre, k, t)
      {
        assert log[..i + 1][..i] == log[..i];
        var e := log[i];
        if e.proceso == nombre && e.evento == k && e.tiempo < t {
          cuenta := cuenta + 1;
        }
        i := i + 1;
      }
      assert log[..i] == log;
    }

    /** The extra `fin_tcp` of RR: logged when the log shows a TCP of the running process still open. */
    method CerrarTcpPendiente()
      requires nucleo.procesoActual != null
      modifies this
      ensures Estado() == old(Estado()).(nucleo := ModeloRR.CerrarTcpPendiente(old(nucleo)))
    {
      var p := nucleo.procesoActual;
      var inicios := ContarEventos(p.nombre, InicioTcp, nucleo.tiempoActual);
      var fines := ContarEventos(p.nombre, FinTcp, nucleo.tiempoActual);
      if inicios > fines {
        Registrar(p.nombre, FinTcp, SistemaLibre);
      }
    }

    /** The rest of `terminar_proceso`: TFP with the process `terminando`, or it finishes now; the CPU is left empty. */
    method TerminarResto()
      requires nucleo.procesoActual != null
      modifies this
      ensures Estado() == old(Estado()).(nucleo := Motor.TerminarResto(config, old(nucleo)))
    {
      var p := nucleo.procesoActual;
      if config.tiempoTfp > 0 {
        AplicarTfp();
        nucleo := nucleo.(atributos := ConEstado(nucleo.atributos, p, Terminando),
                          procesosTerminados := nucleo.procesosTerminados + [p]);
      } else {
        nucleo := nucleo.(procesosTerminados := nucleo.procesosTerminados + [p]);
        Finalizar(p);
      }
      nucleo := nucleo.(procesoActual := null);
    }

    /**
      `terminar_proceso` of RR: `fin_ejecucion`, a `fin_tcp` when the log
      shows a TCP of this process still open, then TFP with the process
      `terminando` or it finishes now; the CPU and the quantum are cleared.
     */
    method TerminarProceso()
      requires nucleo.procesoActual != null
      modifies this
      ensures Estado() == ModeloRR.TerminarProceso(config, old(Estado()))
    {
      Registrar(nucleo.procesoActual.nombre, FinEjecucion, Ejecutando);
      CerrarTcpPendiente();
      TerminarResto();
      quantumRestante := 0;
    }

    /** The tick itself: one unit less of the burst, one more of `cpu_proc` (also per process), one less of the quantum. */
    method ConsumirTick()
      requires nucleo.procesoActual != null
      modifies this
      ensures Estado() == ModeloRR.ConsumirTick(old(Estado()))
    {
      var p := nucleo.procesoActual;
      var a := Attr(nucleo.atributos, p);
      nucleo := nucleo.(atributos := nucleo.atributos[p := a.(duracionRafagasCpu := a.duracionRafagasCpu - 1)],
                        cpuProc := nucleo.cpuProc + 1, cpuProcPorProceso := Sumar(nucleo.cpuProcPorProceso, p.nombre, 1));
      quantumRestante := quantumRestante - 1;
    }

    /**
      The end of a burst of the running process: one burst fewer (recorded
      over the table `t0`); it terminates when none is left and blocks
      otherwise.
     */
    method CerrarRafaga(t0: Tabla)
      requires nucleo.procesoActual != null
      modifies this
      ensures Estado() == ModeloRR.CerrarRafaga(config, old(Estado()), t0)
    {
      var p := nucleo.procesoActual;
      var a := Attr(nucleo.atributos, p);
      var a2 := a.(cantidadRafagasCpu := a.cantidadRafagasCpu - 1);
      nucleo := nucleo.(atributos := t0[p := a2]);
      if a2.cantidadRafagasCpu == 0 {
        TerminarProceso();
      } else {
        BloquearProceso();
      }
    }

    /**
      `ejecutar_proceso_actual` of RR: one CPU tick and one tick of the
      quantum; at the end of a burst the process terminates or blocks, and
      otherwise a used-up quantum preempts it.
     */
    method EjecutarProcesoActual()
      modifies this
      ensures Estado() == ModeloRR.EjecutarProcesoActual(config, old(Estado()))
    {
      if nucleo.procesoActual == null {
        return;
      }
      var t0 := nucleo.atributos;
      ConsumirTick();
      if Attr(nucleo.atributos, nucleo.procesoActual).duracionRafagasCpu == 0 {
        CerrarRafaga(t0);
      } else {
        AgotarQuantum();
      }
    }

    /** Mid-burst, a quantum that just reached 0 preempts the running process. */
    method AgotarQuantum()
      modifies this
      ensures Estado() == if old(quantumRestante) == 0 then ModeloRR.PreemptarProcesoActual(old(Estado())) else old(Estado())
    {
      if quantumRestante == 0 {
        PreemptarProcesoActual();
      }
    }

    /**
      `seleccionar_siguiente_proceso` of RR: the head of the ready list takes
      the CPU with a full quantum, charged TIP (followed by TCP when a
      preemption asked for one) the first time and TCP otherwise.
     */
    method SeleccionarSiguienteProceso()
      modifies this
      ensures Estado() == ModeloRR.SeleccionarSiguienteProceso(config, quantum, old(Estado()))
    {
      if |nucleo.colaListos| == 0 {
        return;
      }
      var p := nucleo.colaListos[0];
      nucleo := nucleo.(procesoActual := p, colaListos := nucleo.colaListos[1..]);
      quantumRestante := quantum;
      if Attr(nucleo.atributos, p).procesoNuevo {
        AplicarTip();
        nucleo := MarcarVisto(nucleo, p);
        if necesitaTcpPorQuantum {
          necesitaTcpPorQuantum := false;
          nucleo := nucleo.(aplicarTcpDespuesTip := true);
        }
      } else {
        AplicarTcp();
      }
    }

    /** One I/O tick for a blocked process that did not block in this tick; at the end of its I/O it joins the tail. */
    method TickIo(p: Proceso, ghost ts: seq<Proceso>) returns (termino: bool)
      modifies this
      ensures PasoIo(nucleo, if termino then ts + [p] else ts) == IoUnTick(Fifo, PasoIo(old(nucleo), ts), p)
      ensures quantumRestante == old(quantumRestante) && necesitaTcpPorQuantum == old(necesitaTcpPorQuantum)
    {
      var a := Attr(nucleo.atributos, p);
      termino := false;
      if a.tiempoBloqueo < nucleo.tiempoActual {
        var a1 := a.(duracionRafagasIo := a.duracionRafagasIo - 1);
        if a1.duracionRafagasIo == 0 {
          termino := true;
          nucleo := nucleo.(atributos := nucleo.atributos[p := a1.(estado := Listo, duracionRafagasCpu := p.duracionRafagasCpuOriginal)]);
          InsertarOrdenado(p);
          Registrar(p.nombre, FinIo, Listo);
        } else {
          nucleo := nucleo.(atributos := nucleo.atributos[p := a1]);
        }
      }
    }

    /** The I/O loop of `procesar_procesos_bloqueados` over the blocked list as it was on entry. */
    method TickIoBloqueados() returns (terminaron: seq<Proceso>)
      modifies this
      ensures PasoIo(nucleo, terminaron) == IoDe(Fifo, PasoIo(old(nucleo), []), old(nucleo).procesosBloqueados)
      ensures quantumRestante == old(quantumRestante) && necesitaTcpPorQuantum == old(necesitaTcpPorQuantum)
    {
      var bs := nucleo.procesosBloqueados;
      terminaron := [];
      ghost var r := PasoIo(nucleo, []);
      var i := 0;
      while i < |bs|
        invariant 0 <= i <= |bs|
        invariant r == IoDe(Fifo, PasoIo(old(nucleo), []), bs[..i])
        invariant PasoIo(nucleo, terminaron) == r
        invariant quantumRestante == old(quantumRestante) && necesitaTcpPorQuantum == old(necesitaTcpPorQuantum)
      {
        var p := bs[i];
        IoDePrefijo(Fifo, PasoIo(old(nucleo), []), bs, i);
        var termino := TickIo(p, terminaron);
        if termino {
          terminaron := terminaron + [p];
        }
        assert PasoIo(nucleo, terminaron) == IoUnTick(Fifo, r, p);
        r := IoUnTick(Fifo, r, p);
        i := i + 1;
      }
      assert bs[..i] == bs;
    }

    /** The removal loop: each process of `ts` leaves the blocked list, first occurrence first. */
    method QuitarBloqueados(ts: seq<Proceso>)
      modifies this
      ensures Estado() == old(Estado()).(nucleo := old(nucleo).(procesosBloqueados := QuitarTodos(old(nucleo).procesosBloqueados, ts)))
    {
      var j := 0;
      while j < |ts|
        invariant 0 <= j <= |ts|
        invariant Estado() == old(Estado()).(nucleo := old(nucleo).(procesosBloqueados := QuitarTodos(old(nucleo).procesosBloqueados, ts[..j])))
      {
        assert ts[..j + 1][..j] == ts[..j];
        nucleo := nucleo.(procesosBloqueados := QuitarPrimero(nucleo.procesosBloqueados, ts[j]));
        j := j + 1;
      }
      assert ts[..j] == ts;
    }

    /**
      `procesar_procesos_bloqueados` of RR: one I/O tick for every blocked
      process that did not block in this tick; those that finish join the
      tail of the ready list and leave the blocked list.
     */
    method ProcesarProcesosBloqueados()
      modifies this
      ensures Estado() == old(Estado()).(nucleo := ProcesarBloqueados(Fifo, old(nucleo)).n)
    {
      var terminaron := TickIoBloqueados();
      QuitarBloqueados(terminaron);
    }

    /** `finalizar_proceso_completamente`: the first `terminando` record of the terminated list finishes now. */
    method FinalizarProcesoCompletamente()
      modifies this
      ensures Estado() == old(Estado()).(nucleo := Motor.FinalizarProcesoCompletamente(old(nucleo)))
    {
      var s := nucleo.procesosTerminados;
      var i := 0;
      while i < |s| && Attr(nucleo.atributos, s[i]).estado != Terminando
        invariant 0 <= i <= |s|
        invariant forall j :: 0 <= j < i ==> Attr(nucleo.atributos, s[j]).estado != Terminando
      {
        i := i + 1;
      }
      PrimeroTerminandoEn(nucleo.atributos, s, i);
      if i < |s| {
        var p := s[i];
        nucleo := nucleo.(tUltimoTfp := Some(nucleo.tiempoActual));
        Finalizar(p);
      }
    }

    /** The name a closing TFP window reports: that of the first `terminando` record. */
    method BuscarTerminando() returns (nombre: Option<string>)
      ensures nombre == NombreTerminando(nucleo)
    {
      var s := nucleo.procesosTerminados;
      var i := 0;
      while i < |s| && Attr(nucleo.atributos, s[i]).estado != Terminando
        invariant 0 <= i <= |s|
        invariant forall j :: 0 <= j < i ==> Attr(nucleo.atributos, s[j]).estado != Terminando
      {
        i := i + 1;
      }
      PrimeroTerminandoEn(nucleo.atributos, s, i);
      nombre := if i < |s| then Some(s[i].nombre) else None;
    }

    /** The end of a closing window: its `fin_*` event or the deferred `fin_tcp` flag, and the tag cleared. */
    method CerrarVentana(nombre: Option<string>, tipo: Bloqueo)
      modifies this
      ensures Estado() == old(Estado()).(nucleo := Motor.CerrarVentana(old(nucleo), nombre, tipo))
    {
      if NombreVerdadero(nombre) {
        Registrar(nombre.value, FinDe(tipo), SistemaLibre);
      } else if nucleo.tcpDespuesTipActivo && tipo == Tcp {
        nucleo := nucleo.(tcpDespuesTipActivo := false, registrarFinTcpDespuesTip := true);
      }
      if nucleo.tipoBloqueo == tipo {
        nucleo := nucleo.(tipoBloqueo := NoBloqueo);
      }
    }

    /** A closing TFP window: the waiting process finishes and the window's `fin_tfp` is logged under its name. */
    method CerrarTfp()
      modifies this
      ensures Estado() == old(Estado()).(nucleo := Motor.CerrarTfp(old(nucleo)))
    {
      var nombre := BuscarTerminando();
      FinalizarProcesoCompletamente();
      CerrarVentana(nombre, Tfp);
    }

    /** A TIP that closes while a TCP is owed: `fin_tip`, then the TCP window. */
    method EncadenarTcp()
      requires nucleo.procesoActual != null
      modifies this
      ensures Estado() == old(Estado()).(nucleo := Motor.EncadenarTcp(config, old(nucleo)))
    {
      Registrar(nucleo.procesoActual.nombre, FinTip, SistemaLibre);
      nucleo := nucleo.(aplicarTcpDespuesTip := false, tcpDespuesTipActivo := true);
      AplicarTcp();
    }

    /** A TIP or TCP window closes with no TCP owed: the running process executes its first tick at once. */
    method CerrarTipTcp(tipo: Bloqueo)
      requires nucleo.procesoActual != null
      modifies this
      ensures Estado() == ModeloRR.CerrarTipTcp(config, old(Estado()), tipo)
    {
      var nombre := Some(nucleo.procesoActual.nombre);
      PonerEnEjecucion();
      EjecutarProcesoActual();
      CerrarVentana(nombre, tipo);
    }

    /**
      `procesar_tiempo_bloqueo` of RR: one tick of the open window, charged
      to `cpu_so`; when it reaches 0 the window closes according to its kind.
      The answer says whether the rest of the iteration is skipped.
     */
    method ProcesarTiempoBloqueo() returns (bloqueado: bool)
      modifies this
      ensures (Estado(), bloqueado) == ModeloRR.ProcesarTiempoBloqueo(config, old(Estado()))
    {
      if nucleo.tiempoRestanteBloqueo <= 0 {
        return false;
      }
      nucleo := nucleo.(tiempoRestanteBloqueo := nucleo.tiempoRestanteBloqueo - 1, cpuSo := nucleo.cpuSo + 1);
      if nucleo.tiempoRestanteBloqueo == 0 {
        var tipo := nucleo.tipoBloqueo;
        if tipo == Tfp {
          CerrarTfp();
        } else if (tipo == Tip || tipo == Tcp) && nucleo.procesoActual != null {
          if tipo == Tip && nucleo.aplicarTcpDespuesTip {
            EncadenarTcp();
            CerrarVentana(None, tipo);
          } else {
            CerrarTipTcp(tipo);
          }
        } else {
          CerrarVentana(None, tipo);
        }
      }
      return true;
    }

    /** One tick of ready time for `p`, also in its per-process counter. */
    method TickListo(p: Proceso)
      modifies this
      ensures nucleo == ListoUnTick(old(nucleo), p)
      ensures quantumRestante == old(quantumRestante) && necesitaTcpPorQuantum == old(necesitaTcpPorQuantum)
    {
      var a := Attr(nucleo.atributos, p);
      nucleo := nucleo.(atributos := nucleo.atributos[p := a.(tiempoEnListo := a.tiempoEnListo + 1)],
                        tListoPorProceso := Sumar(nucleo.tListoPorProceso, p.nombre, 1));
    }

    /** The ready-time loop of `ejecutar`: one tick of ready time for every process of the ready list. */
    method AcumularTiempoListo()
      modifies this
      ensures Estado() == old(Estado()).(nucleo := AcumularListoDe(old(nucleo), old(nucleo).colaListos))
    {
      var q := nucleo.colaListos;
      var i := 0;
      while i < |q|
        invariant 0 <= i <= |q|
        invariant nucleo == AcumularListoDe(old(nucleo), q[..i])
        invariant quantumRestante == old(quantumRestante) && necesitaTcpPorQuantum == old(necesitaTcpPorQuantum)
      {
        var p := q[i];
        AcumularListoPrefijo(old(nucleo), q, i);
        TickListo(p);
        i := i + 1;
      }
      assert q[..i] == q;
    }

    /** The deferred `fin_tcp` of a TCP that followed a TIP, at the head of an iteration. */
    method RegistrarFinTcp()
      modifies this
      ensures Estado() == old(Estado()).(nucleo := Motor.RegistrarFinTcp(old(nucleo)))
    {
      if nucleo.registrarFinTcpDespuesTip && nucleo.procesoActual != null {
        Registrar(nucleo.procesoActual.nombre, FinTcp, SistemaLibre);
        PonerEnEjecucion();
        nucleo := nucleo.(registrarFinTcpDespuesTip := false);
      }
    }

    /** One CPU tick followed by the quantum check of `ejecutar`. */
    method EjecutarConQuantum()
      modifies this
      ensures Estado() == ModeloRR.EjecutarConQuantum(config, old(Estado()))
    {
      EjecutarProcesoActual();
      var expropiar := VerificarPreemptionQuantum();
      if expropiar {
        PreemptarProcesoActual();
      }
    }

    /** The rest of an iteration of `ejecutar` when no window tick was consumed. */
    method PasoLibre()
      modifies this
      ensures Estado() == ModeloRR.PasoLibre(config, quantum, old(Estado()))
    {
      AcumularTiempoListo();
      if nucleo.procesoActual == null {
        SeleccionarSiguienteProceso();
      }
      if nucleo.procesoActual != null && nucleo.tiempoRestanteBloqueo == 0 {
        EjecutarConQuantum();
      }
      CerrarIteracion();
    }

    /** The end of an iteration: the idle count and one tick on the clock. */
    method CerrarIteracion()
      modifies this
      ensures Estado() == old(Estado()).(nucleo := Avanzar(ContarOcioso(old(nucleo))))
    {
      if nucleo.procesoActual == null && nucleo.tiempoRestanteBloqueo == 0 && |nucleo.colaListos| == 0 {
        nucleo := nucleo.(cpuIdle := nucleo.cpuIdle + 1);
      }
      nucleo := nucleo.(tiempoActual := nucleo.tiempoActual + 1);
    }

    /** One iteration of the `while` loop of `ejecutar`. */
    method Paso()
      modifies this
      ensures Estado() == ModeloRR.Paso(config, quantum, old(Estado()))
    {
      RegistrarFinTcp();
      ProcesarLlegadas();
      var bloqueado := ProcesarTiempoBloqueo();
      ProcesarProcesosBloqueados();
      if bloqueado {
        nucleo := nucleo.(tiempoActual := nucleo.tiempoActual + 1);
      } else {
        PasoLibre();
      }
    }

    /**
      `ejecutar`: iterations while something is pending, at most
      `TiempoMaximo` of them. The run is the one `Correr` describes, so it
      stops within the cap and, when it stops earlier, nothing is pending.
     */
    method Ejecutar() returns (iteraciones: nat)
      modifies this
      ensures (Estado(), iteraciones) == Correr(config, quantum, old(Estado()), 0)
      ensures iteraciones <= TiempoMaximo
      ensures iteraciones < TiempoMaximo ==> !HayProcesosPendientes()
    {
      iteraciones := 0;
      while HayProcesosPendientes() && iteraciones < TiempoMaximo
        invariant iteraciones <= TiempoMaximo
        invariant Correr(config, quantum, Estado(), iteraciones) == Correr(config, quantum, old(Estado()), 0)
        decreases TiempoMaximo - iteraciones
      {
        iteraciones := iteraciones + 1;
        Paso();
      }
      CorrerTerminaRR(config, quantum, old(Estado()), 0);
    }

    /** `hay_procesos_pendientes`. */
    predicate HayProcesosPendientes()
      reads this
    {
      Motor.HayProcesosPendientes(config, nucleo)
    }

    /** `obtener_estadisticas_cpu`. */
    function ObtenerEstadisticasCpu(): (r: EstadisticasCpu)
      reads this
      ensures r == Motor.ObtenerEstadisticasCpu(nucleo)
      ensures r.cpuIdle >= 0 && r.cpuProc + r.cpuSo + r.cpuIdle >= r.tTotal
    {
      Motor.ObtenerEstadisticasCpu(nucleo)
    }
  }
}
