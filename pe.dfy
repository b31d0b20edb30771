/**
  The class `PE` itself, whose methods update its state in place. The state
  both engines share is the record `nucleo` (its fields are those of the
  Python class, see `Motor.Nucleo`); the names of the processes that
  finished I/O in the current tick are a field of their own. Every method
  is specified by the function of `ModeloPE` or `Motor` it implements, and
  what those functions guarantee is proved in `PropiedadesPE` and
  `PropiedadesMotor`; `Ejecutar` carries those guarantees over to the run.
 */
module AlgoritmoPE {
  import opened Procesos
  import opened OrdenPE
  import opened Motor
  import opened PropiedadesMotor
  import opened ModeloPE
  import opened PropiedadesPE

  /** The first index of `q` whose name is not in `recien` is the one `PrimerSeleccionable` gives. */
  lemma PrimerSeleccionableEn(q: seq<Proceso>, recien: seq<string>, i: nat)
    requires i <= |q|
    requires forall j :: 0 <= j < i ==> q[j].nombre in recien
    requires i < |q| ==> q[i].nombre !in recien
    ensures PrimerSeleccionable(q, recien) == if i < |q| then Some(i) else None
  {
    var r := PrimerSeleccionable(q, recien);
    if r.Some? {
      assert q[r.value].nombre !in recien;
    }
  }

  class PE {
    const config: Configuracion
    var nucleo: Nucleo
    var procesosRecienTerminaronIo: seq<string>

    /** All the state, as one value. */
    function Estado(): EstadoPE
      reads this
    {
      EstadoPE(nucleo, procesosRecienTerminaronIo)
    }

    /** `__init__`: clock 0, nothing queued, no window, all counters 0. */
    constructor (procesos: seq<Proceso>, tiempoTip: int, tiempoTcp: int, tiempoTfp: int)
      ensures config == Configuracion(procesos, tiempoTip, tiempoTcp, tiempoTfp)
      ensures Estado() == InicialPE()
    {
      config := Configuracion(procesos, tiempoTip, tiempoTcp, tiempoTfp);
      nucleo := NucleoInicial();
      procesosRecienTerminaronIo := [];
    }

    /** Appends an event stamped with the current tick to `resultados`. */
    method Registrar(nombre: string, k: TipoEvento, e: Estado)
      modifies this
      ensures nucleo == Anotado(old(nucleo), nombre, k, e)
      ensures procesosRecienTerminaronIo == old(procesosRecienTerminaronIo)
    {
      nucleo := nucleo.(resultados := nucleo.resultados + [Evento(nucleo.tiempoActual, nombre, k, e)]);
    }

    /**
      The block the engine repeats wherever a process finishes for good
      now: its finish tick, the `terminado` state and the `terminacion` event.
     */
    method Finalizar(p: Proceso)
      modifies this
      ensures nucleo == Finalizado(old(nucleo), p)
      ensures procesosRecienTerminaronIo == old(procesosRecienTerminaronIo)
    {
      var t := nucleo.tiempoActual;
      nucleo := nucleo.(tFinPorProceso := nucleo.tFinPorProceso[p.nombre := t],
                        atributos := nucleo.atributos[p := Attr(nucleo.atributos, p).(tiempoFin := Some(t), estado := Terminado)]);
      Registrar(p.nombre, Terminacion, Terminado);
    }

    /** The running process starts executing: `ejecutando` and `inicio ejecucion`. */
    method PonerEnEjecucion()
      requires nucleo.procesoActual != null
      modifies this
      ensures nucleo == Motor.PonerEnEjecucion(old(nucleo))
      ensures procesosRecienTerminaronIo == old(procesosRecienTerminaronIo)
    {
      var p := nucleo.procesoActual;
      Registrar(p.nombre, InicioEjecucion, Ejecutando);
      nucleo := nucleo.(atributos := ConEstado(nucleo.atributos, p, Ejecutando));
    }

    /** `insertar_ordenado`: the scan stops at the first queued process of strictly lower priority. */
    method InsertarOrdenado(p: Proceso)
      modifies this
      ensures nucleo == old(nucleo).(colaListos := Insertar(old(nucleo.colaListos), p))
      ensures procesosRecienTerminaronIo == old(procesosRecienTerminaronIo)
    {
      var q := nucleo.colaListos;
      var i := 0;
      while i < |q| && p.prioridad <= q[i].prioridad
        invariant 0 <= i <= |q|
        invariant forall j :: 0 <= j < i ==> q[j].prioridad >= p.prioridad
      {
        i := i + 1;
      }
      PosicionInsercionUnica(q, p, i);
      nucleo := nucleo.(colaListos := q[..i] + [p] + q[i..]);
    }

    /** The admission of one process that arrives now: it joins the ready list as ready, its counters start and `llegada` is logged. */
    method AdmitirLlegada(p: Proceso)
      modifies this
      ensures nucleo == Admitir(PorPrioridad, old(nucleo), p)
      ensures procesosRecienTerminaronIo == old(procesosRecienTerminaronIo)
    {
      InsertarOrdenado(p);
      var t := nucleo.tiempoActual;
      nucleo := nucleo.(atributos := ConEstado(nucleo.atributos, p, Listo),
                        tPrimerArribo := if nucleo.tPrimerArribo.None? then Some(t) else nucleo.tPrimerArribo,
                        tArriboPorProceso := nucleo.tArriboPorProceso[p.nombre := t],
                        cpuProcPorProceso := nucleo.cpuProcPorProceso[p.nombre := 0],
                        tListoPorProceso := nucleo.tListoPorProceso[p.nombre := 0]);
      nucleo := Anotado(nucleo, p.nombre, Llegada, Arrivo);
    }

    /** `procesar_llegadas`: every process whose arrival tick is now is admitted, in input order. */
    method ProcesarLlegadas()
      modifies this
      ensures nucleo == Motor.ProcesarLlegadas(PorPrioridad, config, old(nucleo))
      ensures procesosRecienTerminaronIo == old(procesosRecienTerminaronIo)
    {
      var ps := config.procesos;
      var i := 0;
      while i < |ps|
        invariant 0 <= i <= |ps|
        invariant nucleo == LlegadasDe(PorPrioridad, old(nucleo), ps[..i])
        invariant procesosRecienTerminaronIo == old(procesosRecienTerminaronIo)
      {
        var p := ps[i];
        LlegadasPrefijo(PorPrioridad, old(nucleo), ps, i);
        if p.tiempoArrivo == nucleo.tiempoActual {
          AdmitirLlegada(p);
        }
        i := i + 1;
      }
      assert ps[..i] == ps;
    }

    /**
      `verificar_preemption`: yes exactly when a process is running and a
      ready process outranks it; the ready list is sorted when the check
      gets that far, and nothing else changes.
     */
    method VerificarPreemption() returns (expropiar: bool)
      modifies this
      ensures (nucleo, expropiar) == ModeloPE.VerificarPreemption(old(nucleo))
      ensures expropiar <==> old(nucleo).procesoActual != null
                             && exists p :: p in old(nucleo).colaListos && p.prioridad > old(nucleo).procesoActual.prioridad
      ensures multiset(nucleo.colaListos) == multiset(old(nucleo).colaListos)
      ensures nucleo.procesoActual != null ==> OrdenadaPorPrioridad(nucleo.colaListos)
      ensures procesosRecienTerminaronIo == old(procesosRecienTerminaronIo)
    {
      VerificarPreemptionCorrecta(nucleo);
      if nucleo.procesoActual == null || |nucleo.colaListos| == 0 {
        return false;
      }
      nucleo := nucleo.(colaListos := OrdenarPorPrioridad(nucleo.colaListos));
      expropiar := nucleo.colaListos[0].prioridad > nucleo.procesoActual.prioridad;
    }

    /** `aplicar_tcp`: opens a TCP window, or with a zero-length TCP starts execution. */
    method AplicarTcp()
      requires nucleo.procesoActual != null
      modifies this
      ensures nucleo == Motor.AplicarTcp(config, old(nucleo))
      ensures procesosRecienTerminaronIo == old(procesosRecienTerminaronIo)
    {
      var p := nucleo.procesoActual;
      if config.tiempoTcp > 0 {
        nucleo := nucleo.(tiempoRestanteBloqueo := config.tiempoTcp, tipoBloqueo := Tcp);
        nucleo := nucleo.(resultados := nucleo.resultados + [Evento(nucleo.tiempoActual, p.nombre, InicioTcp, BloqueadoSistema)]);
      } else {
        nucleo := nucleo.(tipoBloqueo := NoBloqueo, atributos := ConEstado(nucleo.atributos, p, Ejecutando));
        nucleo := nucleo.(resultados := nucleo.resultados + [Evento(nucleo.tiempoActual, p.nombre, InicioEjecucion, Ejecutando)]);
      }
    }

    /** `aplicar_tip`: opens a TIP window; a zero-length TIP goes on with the owed TCP or starts execution. */
    method AplicarTip()
      requires nucleo.procesoActual != null
      modifies this
      ensures nucleo == Motor.AplicarTip(config, old(nucleo))
      ensures procesosRecienTerminaronIo == old(procesosRecienTerminaronIo)
    {
      var p := nucleo.procesoActual;
      if config.tiempoTip > 0 {
        nucleo := nucleo.(tiempoRestanteBloqueo := config.tiempoTip, tipoBloqueo := Tip);
        nucleo := nucleo.(resultados := nucleo.resultados + [Evento(nucleo.tiempoActual, p.nombre, InicioTip, BloqueadoSistema)]);
      } else if nucleo.aplicarTcpDespuesTip {
        nucleo := nucleo.(aplicarTcpDespuesTip := false);
        AplicarTcp();
      } else {
        nucleo := nucleo.(tipoBloqueo := NoBloqueo, atributos := ConEstado(nucleo.atributos, p, Ejecutando));
        nucleo := nucleo.(resultados := nucleo.resultados + [Evento(nucleo.tiempoActual, p.nombre, InicioEjecucion, Ejecutando)]);
      }
    }

    /** `aplicar_tfp`: opens a TFP window, or with a zero-length TFP the running process finishes now. */
    method AplicarTfp()
      requires nucleo.procesoActual != null
      modifies this
      ensures nucleo == Motor.AplicarTfp(config, old(nucleo))
      ensures procesosRecienTerminaronIo == old(procesosRecienTerminaronIo)
    {
      var p := nucleo.procesoActual;
      if config.tiempoTfp > 0 {
        nucleo := nucleo.(tiempoRestanteBloqueo := config.tiempoTfp, tipoBloqueo := Tfp);
        Registrar(p.nombre, InicioTfp, BloqueadoSistema);
      } else {
        nucleo := nucleo.(tipoBloqueo := NoBloqueo, procesosTerminados := nucleo.procesosTerminados + [p],
                          tUltimoTfp := Some(nucleo.tiempoActual));
        Finalizar(p);
      }
    }

    /** `bloquear_proceso`: the running process ends its burst and starts I/O; the CPU is left empty. */
    method BloquearProceso()
      requires nucleo.procesoActual != null
      modifies this
      ensures nucleo == Motor.BloquearProceso(old(nucleo))
      ensures procesosRecienTerminaronIo == old(procesosRecienTerminaronIo)
    {
      var p := nucleo.procesoActual;
      var t := nucleo.tiempoActual;
      var a := Attr(nucleo.atributos, p).(tiempoBloqueo := t, duracionRafagasIo := p.duracionRafagasIoOriginal,
                                           estado := Bloqueado);
      var inicioIo: seq<Evento> := [];
      if a.duracionRafagasIo > 0 {
        inicioIo := [Evento(t + 1, p.nombre, InicioIo, Bloqueado)];
      }
      nucleo := nucleo.(atributos := nucleo.atributos[p := a], procesosBloqueados := nucleo.procesosBloqueados + [p],
                        resultados := nucleo.resultados + [Evento(t, p.nombre, FinEjecucion, Ejecutando),
                                                           Evento(t, p.nombre, BloqueoIo, Bloqueado)] + inicioIo,
                        procesoActual := null);
    }

    /** `terminar_proceso`: `fin_ejecucion`, then TFP with the process `terminando`, or it finishes now. */
    method TerminarProceso()
      requires nucleo.procesoActual != null
      modifies this
      ensures nucleo == ModeloPE.TerminarProceso(config, old(nucleo))
      ensures procesosRecienTerminaronIo == old(procesosRecienTerminaronIo)
    {
      var p := nucleo.procesoActual;
      Registrar(p.nombre, FinEjecucion, Ejecutando);
      if config.tiempoTfp > 0 {
        AplicarTfp();
        nucleo := nucleo.(atributos := ConEstado(nucleo.atributos, p, Terminando),
                          procesosTerminados := nucleo.procesosTerminados + [p]);
      } else {
        nucleo := nucleo.(procesosTerminados := nucleo.procesosTerminados + [p]);
        Finalizar(p);
      }
      nucleo := nucleo.(procesoActual := null);
    }

    /** `ejecutar_proceso_actual`: one CPU tick; at the end of a burst the process terminates or blocks. */
    method EjecutarProcesoActual()
      modifies this
      ensures nucleo == ModeloPE.EjecutarProcesoActual(config, old(nucleo))
      ensures procesosRecienTerminaronIo == old(procesosRecienTerminaronIo)
    {
      if nucleo.procesoActual == null {
        return;
      }
      var p := nucleo.procesoActual;
      var t0 := nucleo.atributos;
      var a := Attr(t0, p).(duracionRafagasCpu := Attr(t0, p).duracionRafagasCpu - 1);
      nucleo := nucleo.(atributos := t0[p := a], cpuProc := nucleo.cpuProc + 1,
                        cpuProcPorProceso := Sumar(nucleo.cpuProcPorProceso, p.nombre, 1));
      assert nucleo == ModeloPE.ConsumirTick(old(nucleo));
      if a.duracionRafagasCpu == 0 {
        ghost var n1 := nucleo;
        var a2 := a.(cantidadRafagasCpu := a.cantidadRafagasCpu - 1);
        nucleo := nucleo.(atributos := t0[p := a2]);
        if a2.cantidadRafagasCpu == 0 {
          TerminarProceso();
        } else {
          BloquearProceso();
        }
        assert nucleo == ModeloPE.CerrarRafaga(config, n1, t0);
      }
    }

    /**
      `seleccionar_siguiente_proceso`: the first ready process that did not
      finish I/O in this tick leaves the list and is charged TIP (the first
      time) or TCP.
     */
    method SeleccionarSiguienteProceso()
      modifies this
      ensures Estado() == ModeloPE.SeleccionarSiguienteProceso(config, old(Estado()))
    {
      var q := nucleo.colaListos;
      if |q| == 0 {
        return;
      }
      var i := 0;
      while i < |q| && q[i].nombre in procesosRecienTerminaronIo
        invariant 0 <= i <= |q|
        invariant forall j :: 0 <= j < i ==> q[j].nombre in procesosRecienTerminaronIo
      {
        i := i + 1;
      }
      PrimerSeleccionableEn(q, procesosRecienTerminaronIo, i);
      if i == |q| {
        return;
      }
      var p := q[i];
      nucleo := nucleo.(procesoActual := p, colaListos := q[..i] + q[i + 1..]);
      if Attr(nucleo.atributos, p).procesoNuevo {
        AplicarTip();
        nucleo := nucleo.(atributos := nucleo.atributos[p := Attr(nucleo.atributos, p).(procesoNuevo := false)]);
      } else {
        AplicarTcp();
      }
    }

    /**
      One I/O tick for a blocked process that did not block in this tick;
      when its I/O is over it goes back into the ready list by priority.
      `termino` says whether it did; its name is then remembered.
     */
    method TickIo(p: Proceso, ghost ts: seq<Proceso>) returns (termino: bool)
      modifies this
      ensures PasoIo(nucleo, if termino then ts + [p] else ts) == IoUnTick(PorPrioridad, PasoIo(old(nucleo), ts), p)
      ensures procesosRecienTerminaronIo == old(procesosRecienTerminaronIo) + if termino then [p.nombre] else []
    {
      var a := Attr(nucleo.atributos, p);
      termino := false;
      if a.tiempoBloqueo < nucleo.tiempoActual {
        var a1 := a.(duracionRafagasIo := a.duracionRafagasIo - 1);
        if a1.duracionRafagasIo == 0 {
          termino := true;
          nucleo := nucleo.(atributos := nucleo.atributos[p := a1.(estado := Listo, duracionRafagasCpu := p.duracionRafagasCpuOriginal)]);
          InsertarOrdenado(p);
          procesosRecienTerminaronIo := procesosRecienTerminaronIo + [p.nombre];
          Registrar(p.nombre, FinIo, Listo);
        } else {
          nucleo := nucleo.(atributos := nucleo.atributos[p := a1]);
        }
      }
    }

    /**
      The I/O loop of `procesar_procesos_bloqueados` over the blocked list as
      it was on entry; the names of those that finish are remembered.
     */
    method TickIoBloqueados() returns (terminaron: seq<Proceso>)
      modifies this
      ensures PasoIo(nucleo, terminaron) == IoDe(PorPrioridad, PasoIo(old(nucleo), []), old(nucleo).procesosBloqueados)
      ensures procesosRecienTerminaronIo == old(procesosRecienTerminaronIo) + Nombres(terminaron)
    {
      var bs := nucleo.procesosBloqueados;
      terminaron := [];
      ghost var r := PasoIo(nucleo, []);
      var i := 0;
      while i < |bs|
        invariant 0 <= i <= |bs|
        invariant r == IoDe(PorPrioridad, PasoIo(old(nucleo), []), bs[..i])
        invariant PasoIo(nucleo, terminaron) == r
        invariant procesosRecienTerminaronIo == old(procesosRecienTerminaronIo) + Nombres(terminaron)
      {
        var p := bs[i];
        IoDePrefijo(PorPrioridad, PasoIo(old(nucleo), []), bs, i);
        var termino := TickIo(p, terminaron);
        if termino {
          NombresTrasPrefijo(old(procesosRecienTerminaronIo), terminaron, p);
          terminaron := terminaron + [p];
        }
        assert PasoIo(nucleo, terminaron) == IoUnTick(PorPrioridad, r, p);
        r := IoUnTick(PorPrioridad, r, p);
        i := i + 1;
      }
      assert bs[..i] == bs;
    }

    /** The removal loop: each process of `ts` leaves the blocked list, first occurrence first. */
    method QuitarBloqueados(ts: seq<Proceso>)
      modifies this
      ensures nucleo == old(nucleo).(procesosBloqueados := QuitarTodos(old(nucleo).procesosBloqueados, ts))
      ensures procesosRecienTerminaronIo == old(procesosRecienTerminaronIo)
    {
      var j := 0;
      while j < |ts|
        invariant 0 <= j <= |ts|
        invariant nucleo == old(nucleo).(procesosBloqueados := QuitarTodos(old(nucleo).procesosBloqueados, ts[..j]))
        invariant procesosRecienTerminaronIo == old(procesosRecienTerminaronIo)
      {
        assert ts[..j + 1][..j] == ts[..j];
        nucleo := nucleo.(procesosBloqueados := QuitarPrimero(nucleo.procesosBloqueados, ts[j]));
        j := j + 1;
      }
      assert ts[..j] == ts;
    }

    /**
      `procesar_procesos_bloqueados`: one I/O tick for every blocked process
      that did not block in this tick; those that finish go back into the
      ready list by priority, are remembered as just finished, and leave the
      blocked list.
     */
    method ProcesarProcesosBloqueados()
      modifies this
      ensures Estado() == ModeloPE.ProcesarProcesosBloqueados(old(Estado()))
    {
      var terminaron := TickIoBloqueados();
      QuitarBloqueados(terminaron);
    }

    /** `finalizar_proceso_completamente`: the first `terminando` record of the terminated list finishes now. */
    method FinalizarProcesoCompletamente()
      modifies this
      ensures nucleo == Motor.FinalizarProcesoCompletamente(old(nucleo))
      ensures procesosRecienTerminaronIo == old(procesosRecienTerminaronIo)
    {
      var s := nucleo.procesosTerminados;
      var i := 0;
      while i < |s| && Attr(nucleo.atributos, s[i]).estado != Terminando
        invariant 0 <= i <= |s|
        invariant forall j :: 0 <= j < i ==> Attr(nucleo.atributos, s[j]).estado != Terminando
      {
        i := i + 1;
      }
      PrimeroTerminandoEn(nucleo.atributos, s, i);
      if i < |s| {
        var p := s[i];
        var t := nucleo.tiempoActual;
        nucleo := nucleo.(tFinPorProceso := nucleo.tFinPorProceso[p.nombre := t], tUltimoTfp := Some(t),
                          atributos := nucleo.atributos[p := Attr(nucleo.atributos, p).(tiempoFin := Some(t), estado := Terminado)]);
        nucleo := nucleo.(resultados := nucleo.resultados + [Evento(t, p.nombre, Terminacion, Terminado)]);
      }
    }

    /** The name a closing TFP window reports: that of the first `terminando` record. */
    method BuscarTerminando() returns (nombre: Option<string>)
      ensures nombre == NombreTerminando(nucleo)
    {
      var s := nucleo.procesosTerminados;
      var i := 0;
      while i < |s| && Attr(nucleo.atributos, s[i]).estado != Terminando
        invariant 0 <= i <= |s|
        invariant forall j :: 0 <= j < i ==> Attr(nucleo.atributos, s[j]).estado != Terminando
      {
        i := i + 1;
      }
      PrimeroTerminandoEn(nucleo.atributos, s, i);
      nombre := if i < |s| then Some(s[i].nombre) else None;
    }

    /** The end of a closing window: its `fin_*` event or the deferred `fin_tcp` flag, and the tag cleared. */
    method CerrarVentana(nombre: Option<string>, tipo: Bloqueo)
      modifies this
      ensures nucleo == Motor.CerrarVentana(old(nucleo), nombre, tipo)
      ensures procesosRecienTerminaronIo == old(procesosRecienTerminaronIo)
    {
      if NombreVerdadero(nombre) {
        nucleo := nucleo.(resultados := nucleo.resultados + [Evento(nucleo.tiempoActual, nombre.value, FinDe(tipo), SistemaLibre)]);
      } else if nucleo.tcpDespuesTipActivo && tipo == Tcp {
        nucleo := nucleo.(tcpDespuesTipActivo := false, registrarFinTcpDespuesTip := true);
      }
      if nucleo.tipoBloqueo == tipo {
        nucleo := nucleo.(tipoBloqueo := NoBloqueo);
      }
    }

    /**
      The corner case of a TIP/TCP window closing while a process of higher
      priority waits: the running process goes back into the list,
      `cpu_proc` and its counter drop by one though it ran no tick in this
      window, and the head runs at once.
     */
    method CambiarProceso(nombre: Option<string>, tipo: Bloqueo)
      requires nucleo.procesoActual != null
      modifies this
      ensures nucleo == ModeloPE.CambiarProceso(old(nucleo), nombre, tipo)
      ensures procesosRecienTerminaronIo == old(procesosRecienTerminaronIo)
    {
      var p := nucleo.procesoActual;
      var t := nucleo.tiempoActual;
      var res := nucleo.resultados;
      nucleo := nucleo.(atributos := ConEstado(nucleo.atributos, p, Listo), cpuProc := nucleo.cpuProc - 1,
                        cpuProcPorProceso := Sumar(nucleo.cpuProcPorProceso, p.nombre, -1));
      InsertarOrdenado(p);
      var cabeza := nucleo.colaListos[0];
      var fin := if NombreVerdadero(nombre) then [Evento(t, nombre.value, FinDe(tipo), SistemaLibre)] else [];
      nucleo := nucleo.(procesoActual := cabeza, colaListos := nucleo.colaListos[1..],
                        atributos := ConEstado(nucleo.atributos, cabeza, Ejecutando));
      nucleo := nucleo.(resultados := res + [Evento(t, cabeza.nombre, CambioProcesoPe, Ejecutando),
                                             Evento(t, cabeza.nombre, InicioEjecucion, Ejecutando)] + fin,
                        tipoBloqueo := NoBloqueo);
    }

    /** A closing TFP window: the waiting process finishes and the window's `fin_tfp` is logged under its name. */
    method CerrarTfp()
      modifies this
      ensures nucleo == Motor.CerrarTfp(old(nucleo))
      ensures procesosRecienTerminaronIo == old(procesosRecienTerminaronIo)
    {
      var nombre := BuscarTerminando();
      FinalizarProcesoCompletamente();
      CerrarVentana(nombre, Tfp);
    }

    /** A TIP that closes while a TCP is owed: `fin_tip`, then the TCP window. */
    method EncadenarTcp()
      requires nucleo.procesoActual != null
      modifies this
      ensures nucleo == Motor.EncadenarTcp(config, old(nucleo))
      ensures procesosRecienTerminaronIo == old(procesosRecienTerminaronIo)
    {
      Registrar(nucleo.procesoActual.nombre, FinTip, SistemaLibre);
      nucleo := nucleo.(aplicarTcpDespuesTip := false, tcpDespuesTipActivo := true);
      AplicarTcp();
    }

    /**
      After a TIP or TCP window: a waiting process of higher priority takes
      over at once (and the rest of the iteration runs), or the running
      process executes its first tick now.
     */
    method ElegirTrasVentana(nombre: Option<string>, tipo: Bloqueo) returns (bloqueado: bool)
      requires nucleo.procesoActual != null
      modifies this
      ensures (nucleo, bloqueado) == ModeloPE.ElegirTrasVentana(config, old(nucleo), nombre, tipo)
      ensures procesosRecienTerminaronIo == old(procesosRecienTerminaronIo)
    {
      if |nucleo.colaListos| > 0 && nucleo.colaListos[0].prioridad > nucleo.procesoActual.prioridad {
        CambiarProceso(nombre, tipo);
        return false;
      }
      PonerEnEjecucion();
      EjecutarProcesoActual();
      CerrarVentana(nombre, tipo);
      return true;
    }

    /**
      `procesar_tiempo_bloqueo`: one tick of the open window, charged to
      `cpu_so`; when it reaches 0 the window closes according to its kind.
      The answer says whether the rest of the iteration is skipped.
     */
    method ProcesarTiempoBloqueo() returns (bloqueado: bool)
      modifies this
      ensures (nucleo, bloqueado) == ModeloPE.ProcesarTiempoBloqueo(config, old(nucleo))
      ensures procesosRecienTerminaronIo == old(procesosRecienTerminaronIo)
    {
      if nucleo.tiempoRestanteBloqueo <= 0 {
        return false;
      }
      nucleo := nucleo.(tiempoRestanteBloqueo := nucleo.tiempoRestanteBloqueo - 1, cpuSo := nucleo.cpuSo + 1);
      if nucleo.tiempoRestanteBloqueo != 0 {
        return true;
      }
      var tipo := nucleo.tipoBloqueo;
      if tipo == Tfp {
        CerrarTfp();
      } else if (tipo == Tip || tipo == Tcp) && nucleo.procesoActual != null {
        if tipo == Tip && nucleo.aplicarTcpDespuesTip {
          EncadenarTcp();
          CerrarVentana(None, tipo);
        } else {
          var nombre := Some(nucleo.procesoActual.nombre);
          if |nucleo.colaListos| > 0 {
            nucleo := nucleo.(colaListos := OrdenarPorPrioridad(nucleo.colaListos));
          }
          bloqueado := ElegirTrasVentana(nombre, tipo);
          return;
        }
      } else {
        CerrarVentana(None, tipo);
      }
      return true;
    }

    /** The preempted process goes back into the ready list by priority and the head of the list takes the CPU. */
    method Reencolar()
      requires nucleo.procesoActual != null
      modifies this
      ensures nucleo == ModeloPE.Reencolar(old(nucleo))
      ensures procesosRecienTerminaronIo == old(procesosRecienTerminaronIo)
    {
      var p := nucleo.procesoActual;
      nucleo := nucleo.(resultados := nucleo.resultados + [Evento(nucleo.tiempoActual - 1, p.nombre, FinEjecucion, Ejecutando)],
                        atributos := ConEstado(nucleo.atributos, p, Listo));
      InsertarOrdenado(p);
      Registrar(p.nombre, Preemption, Listo);
      nucleo := nucleo.(procesoActual := nucleo.colaListos[0], colaListos := nucleo.colaListos[1..]);
    }

    /**
      `preemptar_proceso_actual`: the ready list is sorted, the running
      process goes back into it by priority and the head takes the CPU,
      charged TIP then TCP when new and TCP otherwise; its name leaves the
      just-finished-I/O names.
     */
    method PreemptarProcesoActual()
      modifies this
      ensures Estado() == ModeloPE.PreemptarProcesoActual(config, old(Estado()))
    {
      if nucleo.procesoActual == null || |nucleo.colaListos| == 0 {
        return;
      }
      nucleo := nucleo.(colaListos := OrdenarPorPrioridad(nucleo.colaListos));
      Reencolar();
      var cabeza := nucleo.procesoActual;
      if Attr(nucleo.atributos, cabeza).procesoNuevo {
        AplicarTip();
        nucleo := MarcarVisto(nucleo, cabeza).(aplicarTcpDespuesTip := true);
      } else {
        AplicarTcp();
      }
      procesosRecienTerminaronIo := QuitarPrimero(procesosRecienTerminaronIo, cabeza.nombre);
    }

    /** One tick of ready time for `p`, also in its per-process counter. */
    method TickListo(p: Proceso)
      modifies this
      ensures nucleo == ListoUnTick(old(nucleo), p)
      ensures procesosRecienTerminaronIo == old(procesosRecienTerminaronIo)
    {
      var a := Attr(nucleo.atributos, p);
      nucleo := nucleo.(atributos := nucleo.atributos[p := a.(tiempoEnListo := a.tiempoEnListo + 1)],
                        tListoPorProceso := Sumar(nucleo.tListoPorProceso, p.nombre, 1));
    }

    /** The ready-time loop of `ejecutar`: one tick of ready time for every process of the ready list. */
    method AcumularTiempoListo()
      modifies this
      ensures nucleo == AcumularListoDe(old(nucleo), old(nucleo).colaListos)
      ensures procesosRecienTerminaronIo == old(procesosRecienTerminaronIo)
    {
      var q := nucleo.colaListos;
      var i := 0;
      while i < |q|
        invariant 0 <= i <= |q|
        invariant nucleo == AcumularListoDe(old(nucleo), q[..i])
        invariant procesosRecienTerminaronIo == old(procesosRecienTerminaronIo)
      {
        var p := q[i];
        AcumularListoPrefijo(old(nucleo), q, i);
        TickListo(p);
        i := i + 1;
      }
      assert q[..i] == q;
    }

    /** The deferred `fin_tcp` of a TCP that followed a TIP, at the head of an iteration. */
    method RegistrarFinTcp()
      modifies this
      ensures nucleo == Motor.RegistrarFinTcp(old(nucleo))
      ensures procesosRecienTerminaronIo == old(procesosRecienTerminaronIo)
    {
      if nucleo.registrarFinTcpDespuesTip && nucleo.procesoActual != null {
        Registrar(nucleo.procesoActual.nombre, FinTcp, SistemaLibre);
        PonerEnEjecucion();
        nucleo := nucleo.(registrarFinTcpDespuesTip := false);
      }
    }

    /**
      The preemption check of `ejecutar`: with a process on the CPU and no
      window open, a waiting process of higher priority preempts it, unless
      its burst has exactly one tick left.
     */
    method ComprobarPreemption()
      modifies this
      ensures Estado() == ModeloPE.ComprobarPreemption(config, old(Estado()))
    {
      if nucleo.procesoActual != null && nucleo.tiempoRestanteBloqueo == 0 {
        var restante := Attr(nucleo.atributos, nucleo.procesoActual).duracionRafagasCpu;
        var expropiar := VerificarPreemption();
        if expropiar && restante != 1 {
          PreemptarProcesoActual();
        }
      }
    }

    /** The rest of an iteration of `ejecutar` when no window tick was consumed. */
    method PasoLibre()
      modifies this
      ensures Estado() == ModeloPE.PasoLibre(config, old(Estado()))
    {
      ComprobarPreemption();
      AcumularTiempoListo();
      if nucleo.procesoActual == null {
        SeleccionarSiguienteProceso();
      }
      if nucleo.procesoActual != null && nucleo.tiempoRestanteBloqueo == 0 {
        EjecutarProcesoActual();
      }
      CerrarIteracion();
    }

    /** The end of an iteration: the idle count, the just-finished-I/O names cleared, one tick on the clock. */
    method CerrarIteracion()
      modifies this
      ensures Estado() == EstadoPE(Avanzar(ContarOcioso(old(nucleo))), [])
    {
      if nucleo.procesoActual == null && nucleo.tiempoRestanteBloqueo == 0 && |nucleo.colaListos| == 0 {
        nucleo := nucleo.(cpuIdle := nucleo.cpuIdle + 1);
      }
      procesosRecienTerminaronIo := [];
      nucleo := nucleo.(tiempoActual := nucleo.tiempoActual + 1);
    }

    /** One iteration of the `while` loop of `ejecutar`. */
    method Paso()
      modifies this
      ensures Estado() == ModeloPE.Paso(config, old(Estado()))
    {
      RegistrarFinTcp();
      ProcesarLlegadas();
      var bloqueado := ProcesarTiempoBloqueo();
      ProcesarProcesosBloqueados();
      if bloqueado {
        nucleo := nucleo.(tiempoActual := nucleo.tiempoActual + 1);
      } else {
        PasoLibre();
      }
    }

    /**
      `ejecutar`: iterations while something is pending, at most
      `TiempoMaximo` of them. The run is the one `Correr` describes, so it
      stops within the cap and, when it stops earlier, nothing is pending;
      a ready list in priority order at the start stays in order.
     */
    method Ejecutar() returns (iteraciones: nat)
      modifies this
      ensures (Estado(), iteraciones) == Correr(config, old(Estado()), 0)
      ensures iteraciones <= TiempoMaximo
      ensures iteraciones < TiempoMaximo ==> !HayProcesosPendientes()
      ensures OrdenadaPorPrioridad(old(nucleo).colaListos) ==> OrdenadaPorPrioridad(nucleo.colaListos)
    {
      iteraciones := 0;
      while HayProcesosPendientes() && iteraciones < TiempoMaximo
        invariant iteraciones <= TiempoMaximo
        invariant Correr(config, Estado(), iteraciones) == Correr(config, old(Estado()), 0)
        decreases TiempoMaximo - iteraciones
      {
        iteraciones := iteraciones + 1;
        Paso();
      }
      CorrerTermina(config, old(Estado()), 0);
      if OrdenadaPorPrioridad(old(nucleo).colaListos) {
        CorrerConservaOrden(config, old(Estado()), 0);
      }
    }

    /** `hay_procesos_pendientes`. */
    predicate HayProcesosPendientes()
      reads this
    {
      Motor.HayProcesosPendientes(config, nucleo)
    }

    /** `obtener_estadisticas_cpu`. */
    function ObtenerEstadisticasCpu(): (r: EstadisticasCpu)
      reads this
      ensures r == Motor.ObtenerEstadisticasCpu(nucleo)
      ensures r.cpuIdle >= 0 && r.cpuProc + r.cpuSo + r.cpuIdle >= r.tTotal
    {
      Motor.ObtenerEstadisticasCpu(nucleo)
    }
  }
}
