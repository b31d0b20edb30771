/**
  The integration layer between the engines and the interface: building the
  process records from the rows the interface hands over, the integer batch
  statistics of a finished run, and the pairing of execution starts with
  terminations that feeds the Gantt chart.
 */
module Simulador {
  import opened Procesos

  // ---------------------------------------------------------------------------
  // crear_procesos_desde_datos
  // ---------------------------------------------------------------------------

  /** One row of the interface's process table, under the interface's field names. */
  datatype DatosProceso = DatosProceso(nombre: string, tiempoArribo: int, cantidadRafagasCpu: int,
                                       duracionRafagaCpu: int, duracionRafagaEs: int, prioridadExterna: int)

  /** The renaming from an interface row to a process record. */
  predicate Corresponde(p: Proceso, d: DatosProceso)
  {
    && p.nombre == d.nombre
    && p.tiempoArrivo == d.tiempoArribo
    && p.cantidadRafagasCpuOriginal == d.cantidadRafagasCpu
    && p.duracionRafagasCpuOriginal == d.duracionRafagaCpu
    && p.duracionRafagasIoOriginal == d.duracionRafagaEs
    && p.prioridad == d.prioridadExterna
  }

  /**
    `crear_procesos_desde_datos`: one new record per row, in row order, each
    carrying its row's data under the engines' field names. The records are
    distinct objects, which the engines' identity-based list operations rely on.
   */
  method CrearProcesosDesdeDatos(datos: seq<DatosProceso>) returns (procesos: seq<Proceso>)
    ensures |procesos| == |datos|
    ensures forall i :: 0 <= i < |datos| ==> Corresponde(procesos[i], datos[i])
    ensures SinRepetidos(procesos)
  {
    procesos := [];
    for i := 0 to |datos|
      invariant |procesos| == i
      invariant forall j :: 0 <= j < i ==> Corresponde(procesos[j], datos[j])
      invariant forall j :: 0 <= j < i ==> fresh(procesos[j])
      invariant SinRepetidos(procesos)
    {
      var d := datos[i];
      var p := new Proceso(d.nombre, d.tiempoArribo, d.cantidadRafagasCpu,
                           d.duracionRafagaCpu, d.duracionRafagaEs, d.prioridadExterna);
      procesos := procesos + [p];
    }
  }

  // ---------------------------------------------------------------------------
  // _procesar_resultados_fcfs
  // ---------------------------------------------------------------------------

  /**
    What the statistics read of a terminated record. The return time is
    taken as given: the record class that computes it is not part of this
    model. The burst length is what `get_duracion_rafagas_cpu` returns.
   */
  datatype RegistroTerminado = RegistroTerminado(nombre: string, tiempoRetorno: int, tiempoEnListo: int,
                                 cantidadRafagasCpu: int, duracionRafagasCpu: int)

  /** The finished run the integration layer holds: the terminated records, the TCP length and the log. */
  datatype Ejecucion = Ejecucion(terminados: seq<RegistroTerminado>, tiempoTcp: int, resultados: seq<Evento>)

  /** One row of the per-process table (the normalised return time is a float and left out). */
  datatype Fila = Fila(nombre: string, tiempoRetorno: int, tiempoEstadoListo: int)

  /**
    The integer part of what `_procesar_resultados_fcfs` returns. The mean
    return time is kept as its sum and count (the mean is the quotient, and 0
    when nothing terminated).
   */
  datatype Resultados = Resultados(procesos: seq<Fila>, tiempoTotal: int,
                                   sumaRetornos: int, cantidadTerminados: nat,
                                   cpuDesocupada: int, cpuSo: int, cpuProcesos: int,
                                   gantt: Gantt, eventos: seq<Evento>)

  /** The per-process rows: one per terminated record, in the same order. */
  function Filas(ts: seq<RegistroTerminado>): (r: seq<Fila>)
    ensures |r| == |ts|
    ensures forall i :: 0 <= i < |ts| ==>
              r[i] == Fila(ts[i].nombre, ts[i].tiempoRetorno, ts[i].tiempoEnListo)
  {
    if |ts| == 0 then []
    else [Fila(ts[0].nombre, ts[0].tiempoRetorno, ts[0].tiempoEnListo)] + Filas(ts[1..])
  }

  function Retornos(ts: seq<RegistroTerminado>): (r: seq<int>)
    ensures |r| == |ts| && forall i :: 0 <= i < |ts| ==> r[i] == ts[i].tiempoRetorno
  {
    if |ts| == 0 then [] else [ts[0].tiempoRetorno] + Retornos(ts[1..])
  }

  /** `max`: an element of the list no smaller than any other. */
  function Maximo(xs: seq<int>): (r: int)
    requires |xs| > 0
    ensures r in xs
    ensures forall x :: x in xs ==> x <= r
  {
    if |xs| == 1 then xs[0]
    else
      var m := Maximo(xs[1..]);
      assert forall x :: x in xs ==> x == xs[0] || x in xs[1..];
      if xs[0] >= m then xs[0] else m
  }

  function Suma(xs: seq<int>): int
  {
    if |xs| == 0 then 0 else xs[0] + Suma(xs[1..])
  }

  /** The CPU time of the processes: bursts times burst length, summed over the terminated records. */
  function CpuProcesos(ts: seq<RegistroTerminado>): int
  {
    if |ts| == 0 then 0 else ts[0].cantidadRafagasCpu * ts[0].duracionRafagasCpu + CpuProcesos(ts[1..])
  }

  function Max(a: int, b: int): int
  {
    if a >= b then a else b
  }

  /**
    `_procesar_resultados_fcfs`: nothing without a run; otherwise the table,
    the totals and the chart data. The chart is read from the log under `l`:
    `ComoEscrito` is the code as written, `Corregida` the evidently intended
    reading (see `ProcesarDatosGantt`).
   */
  function ProcesarResultados(l: Lectura, algoritmo: Option<Ejecucion>): (r: Option<Resultados>)
    ensures r.None? <==> algoritmo.None?
  {
    match algoritmo
    case None => None
    case Some(a) =>
      var ts := a.terminados;
      var total := if |ts| > 0 then Maximo(Retornos(ts)) else 0;
      var proc := CpuProcesos(ts);
      var so := |ts| * a.tiempoTcp;
      Some(Resultados(Filas(ts), total, Suma(Retornos(ts)), |ts|,
                      Max(0, total - proc - so), so, proc,
                      GanttDe(l, a.resultados), a.resultados))
  }

  /** One row per terminated record, in terminated-list order, with its name, return time and ready time. */
  lemma FilaPorTerminado(l: Lectura, a: Ejecucion)
    ensures var r := ProcesarResultados(l, Some(a)).value;
            && |r.procesos| == |a.terminados|
            && forall i :: 0 <= i < |a.terminados| ==>
                 && r.procesos[i].nombre == a.terminados[i].nombre
                 && r.procesos[i].tiempoRetorno == a.terminados[i].tiempoRetorno
                 && r.procesos[i].tiempoEstadoListo == a.terminados[i].tiempoEnListo
  {
  }

  /**
    With at least one terminated record the total time is the largest return
    time (attained by some record, bounding every record); the mean is the
    sum over the count. With none, total, sum and count are 0.
   */
  lemma TiempoTotalEsMaximo(l: Lectura, a: Ejecucion)
    ensures var r := ProcesarResultados(l, Some(a)).value;
            && r.cantidadTerminados == |a.terminados|
            && (|a.terminados| == 0 ==> r.tiempoTotal == 0 && r.sumaRetornos == 0)
            && (|a.terminados| > 0 ==>
                  && (exists i :: 0 <= i < |a.terminados| && r.tiempoTotal == a.terminados[i].tiempoRetorno)
                  && (forall i :: 0 <= i < |a.terminados| ==> a.terminados[i].tiempoRetorno <= r.tiempoTotal))
  {
    var ts := a.terminados;
    if |ts| > 0 {
      var xs := Retornos(ts);
      var m := Maximo(xs);
      var i :| 0 <= i < |xs| && xs[i] == m;
      assert ts[i].tiempoRetorno == m;
      forall j | 0 <= j < |ts| ensures ts[j].tiempoRetorno <= m {
        assert xs[j] in xs;
      }
    }
  }

  /**
    The CPU split: the SO time is one TCP per terminated record, and the idle
    time is the total minus process and SO time, clipped at 0 so that it is
    never negative.
   */
  lemma CpuDesocupadaNoNegativa(l: Lectura, a: Ejecucion)
    ensures var r := ProcesarResultados(l, Some(a)).value;
            && r.cpuSo == |a.terminados| * a.tiempoTcp
            && r.cpuProcesos == CpuProcesos(a.terminados)
            && r.cpuDesocupada >= 0
            && r.cpuDesocupada >= r.tiempoTotal - r.cpuProcesos - r.cpuSo
            && (r.cpuDesocupada == 0 || r.cpuDesocupada == r.tiempoTotal - r.cpuProcesos - r.cpuSo)
  {
  }

  /**
    The chart in the results is the one `ProcesarDatosGantt` builds from the
    same run and reading, and the events are the run's log unchanged.
   */
  lemma GanttYEventos(l: Lectura, a: Ejecucion)
    ensures var r := ProcesarResultados(l, Some(a)).value;
            && r.gantt == GanttDe(l, a.resultados)
            && r.eventos == a.resultados
  {
  }

  /**
    As written, a run whose log never uses the 'inicio_ejecucion' spelling
    (the engines write 'inicio ejecucion') yields results with an empty
    chart, while their event list is the full log.
   */
  lemma ResultadosComoEscritoSinGantt(a: Ejecucion)
    requires forall i :: 0 <= i < |a.resultados| ==> a.resultados[i].evento != InicioEjecucionSubrayado
    ensures var r := ProcesarResultados(ComoEscrito, Some(a)).value;
            && r.gantt == Gantt([], [], [])
            && r.eventos == a.resultados
  {
    ComoEscritoSinEntradas(a.resultados);
  }

  /** The CPU time of the processes splits over a concatenation of terminated lists. */
  lemma {:induction false} CpuProcesosConcat(xs: seq<RegistroTerminado>, ys: seq<RegistroTerminado>)
    ensures CpuProcesos(xs + ys) == CpuProcesos(xs) + CpuProcesos(ys)
  {
    if |xs| == 0 {
      assert xs + ys == ys;
    } else {
      assert (xs + ys)[1..] == xs[1..] + ys;
      CpuProcesosConcat(xs[1..], ys);
    }
  }

  // ---------------------------------------------------------------------------
  // _procesar_datos_gantt
  // ---------------------------------------------------------------------------

  /** An execution entry: its process, its start, and its end once a termination closes it. */
  datatype Entrada = Entrada(proceso: string, inicio: int, fin: Option<int>)

  /** The chart data: three parallel lists. */
  datatype Gantt = Gantt(procesos: seq<string>, inicios: seq<int>, duraciones: seq<int>)

  /**
    Which event kinds open an entry: the code as written compares with
    'inicio_ejecucion' only, while the engines log 'inicio ejecucion'; the
    corrected reading accepts both spellings, as the PDF exporter does.
   */
  datatype Lectura = ComoEscrito | Corregida

  predicate AbreEntrada(l: Lectura, k: TipoEvento)
  {
    match l
    case ComoEscrito => k == InicioEjecucionSubrayado
    case Corregida => k == InicioEjecucion || k == InicioEjecucionSubrayado
  }

  predicate AbiertaDe(e: Entrada, nombre: string)
  {
    e.proceso == nombre && e.fin.None?
  }

  /** The earliest entry of `nombre` still open, if any. */
  function PrimeraAbierta(es: seq<Entrada>, nombre: string): (r: Option<nat>)
    ensures r.Some? ==> r.value < |es| && AbiertaDe(es[r.value], nombre)
                        && forall j :: 0 <= j < r.value ==> !AbiertaDe(es[j], nombre)
    ensures r.None? ==> forall j :: 0 <= j < |es| ==> !AbiertaDe(es[j], nombre)
  {
    if |es| == 0 then None
    else if AbiertaDe(es[0], nombre) then Some(0)
    else match PrimeraAbierta(es[1..], nombre)
         case None => None
         case Some(i) => Some(i + 1)
  }

  /** A termination of `nombre` at `t` closes its earliest open entry; with none open nothing changes. */
  function Cerrar(es: seq<Entrada>, nombre: string, t: int): seq<Entrada>
  {
    match PrimeraAbierta(es, nombre)
    case None => es
    case Some(i) => es[i := es[i].(fin := Some(t))]
  }

  /** The body of the first loop for one event. */
  function PasoGantt(l: Lectura, es: seq<Entrada>, e: Evento): seq<Entrada>
  {
    if AbreEntrada(l, e.evento) then es + [Entrada(e.proceso, e.tiempo, None)]
    else if e.evento == Terminacion then Cerrar(es, e.proceso, e.tiempo)
    else es
  }

  /** The entries after the first loop has read `log`. */
  function Entradas(l: Lectura, log: seq<Evento>): seq<Entrada>
  {
    if |log| == 0 then [] else PasoGantt(l, Entradas(l, log[..|log| - 1]), log[|log| - 1])
  }

  /** The closed entries, in order. */
  function Cerradas(es: seq<Entrada>): (r: seq<Entrada>)
    ensures |r| <= |es|
    ensures forall i :: 0 <= i < |r| ==> r[i].fin.Some? && r[i] in es
  {
    if |es| == 0 then []
    else (if es[0].fin.Some? then [es[0]] else []) + Cerradas(es[1..])
  }

  /** The second loop: one entry of each list per closed entry; the three lists have equal length. */
  function Emitir(es: seq<Entrada>): (r: Gantt)
    ensures |r.procesos| == |Cerradas(es)| && |r.inicios| == |Cerradas(es)| && |r.duraciones| == |Cerradas(es)|
  {
    if |es| == 0 then Gantt([], [], [])
    else
      var resto := Emitir(es[1..]);
      if es[0].fin.Some? then
        Gantt([es[0].proceso] + resto.procesos, [es[0].inicio] + resto.inicios,
              [es[0].fin.value - es[0].inicio] + resto.duraciones)
      else resto
  }

  /** The k-th element of each list comes from the k-th closed entry, the duration being end minus start. */
  lemma {:induction false} EmitirCerradas(es: seq<Entrada>, k: nat)
    requires k < |Cerradas(es)|
    ensures var r := Emitir(es);
            var e := Cerradas(es)[k];
            && r.procesos[k] == e.proceso && r.inicios[k] == e.inicio
            && r.duraciones[k] == e.fin.value - e.inicio
  {
    assert es != [];
    var resto := Emitir(es[1..]);
    if es[0].fin.Some? {
      assert Cerradas(es) == [es[0]] + Cerradas(es[1..]);
      assert Emitir(es) == Gantt([es[0].proceso] + resto.procesos, [es[0].inicio] + resto.inicios,
                                 [es[0].fin.value - es[0].inicio] + resto.duraciones);
      if k > 0 {
        EmitirCerradas(es[1..], k - 1);
      }
    } else {
      assert Cerradas(es) == Cerradas(es[1..]);
      assert Emitir(es) == resto;
      EmitirCerradas(es[1..], k);
    }
  }

  function GanttDe(l: Lectura, log: seq<Evento>): Gantt
  {
    Emitir(Entradas(l, log))
  }

  /** The entry search of the inner loop: the first open entry of `nombre` gets end `t`. */
  method CerrarEntrada(es: seq<Entrada>, nombre: string, t: int) returns (r: seq<Entrada>)
    ensures r == Cerrar(es, nombre, t)
  {
    r := es;
    var j := 0;
    while j < |es|
      invariant 0 <= j <= |es|
      invariant forall m :: 0 <= m < j ==> !AbiertaDe(es[m], nombre)
    {
      if AbiertaDe(es[j], nombre) {
        r := es[j := es[j].(fin := Some(t))];
        return;
      }
      j := j + 1;
    }
  }

  /** The first loop: open an entry per execution start, close one per termination. */
  method LeerEventos(l: Lectura, log: seq<Evento>) returns (entradas: seq<Entrada>)
    ensures entradas == Entradas(l, log)
  {
    entradas := [];
    for i := 0 to |log|
      invariant entradas == Entradas(l, log[..i])
    {
      var e := log[i];
      assert log[..i + 1][..i] == log[..i];
      if AbreEntrada(l, e.evento) {
        entradas := entradas + [Entrada(e.proceso, e.tiempo, None)];
      } else if e.evento == Terminacion {
        entradas := CerrarEntrada(entradas, e.proceso, e.tiempo);
      }
    }
    assert log[..|log|] == log;
  }

  /** `Emitir` on a suffix: the entry at `k` contributes to the front of what the rest emits. */
  lemma EmitirPaso(es: seq<Entrada>, k: nat)
    requires k < |es|
    ensures var resto := Emitir(es[k + 1..]);
            Emitir(es[k..])
            == if es[k].fin.Some?
               then Gantt([es[k].proceso] + resto.procesos, [es[k].inicio] + resto.inicios,
                          [es[k].fin.value - es[k].inicio] + resto.duraciones)
               else resto
  {
    assert es[k..][1..] == es[k + 1..];
  }

  /** The second loop: the three lists, from the closed entries. */
  method EmitirEntradas(entradas: seq<Entrada>) returns (g: Gantt)
    ensures g == Emitir(entradas)
  {
    var procesos: seq<string> := [];
    var inicios: seq<int> := [];
    var duraciones: seq<int> := [];
    var k := |entradas|;
    // The lists are built from the back so that each step prepends the
    // contribution of one entry, as `Emitir` does.
    while k > 0
      invariant 0 <= k <= |entradas|
      invariant Gantt(procesos, inicios, duraciones) == Emitir(entradas[k..])
    {
      k := k - 1;
      EmitirPaso(entradas, k);
      var e := entradas[k];
      if e.fin.Some? {
        procesos := [e.proceso] + procesos;
        inicios := [e.inicio] + inicios;
        duraciones := [e.fin.value - e.inicio] + duraciones;
      }
    }
    assert entradas[0..] == entradas;
    g := Gantt(procesos, inicios, duraciones);
  }

  /**
    `_procesar_datos_gantt`: without a run, three empty lists; otherwise the
    entries built from the log and the closed ones emitted.
   */
  method ProcesarDatosGantt(l: Lectura, algoritmo: Option<Ejecucion>) returns (g: Gantt)
    ensures algoritmo.None? ==> g == Gantt([], [], [])
    ensures algoritmo.Some? ==> g == GanttDe(l, algoritmo.value.resultados)
  {
    if algoritmo.None? {
      return Gantt([], [], []);
    }
    var entradas := LeerEventos(l, algoritmo.value.resultados);
    g := EmitirEntradas(entradas);
  }

  /** The events of `log` that open an entry, in order. */
  function Aperturas(l: Lectura, log: seq<Evento>): (r: seq<Evento>)
  {
    if |log| == 0 then []
    else Aperturas(l, log[..|log| - 1]) + (if AbreEntrada(l, log[|log| - 1].evento) then [log[|log| - 1]] else [])
  }

  /**
    The entries follow event order: the k-th entry belongs to the k-th
    opening event, with that event's process and time as its start; closing
    only ever sets an end.
   */
  lemma {:induction false} EntradasSiguenAperturas(l: Lectura, log: seq<Evento>)
    ensures var es := Entradas(l, log); var ab := Aperturas(l, log);
            && |es| == |ab|
            && forall k :: 0 <= k < |es| ==> es[k].proceso == ab[k].proceso && es[k].inicio == ab[k].tiempo
  {
    if |log| > 0 {
      EntradasSiguenAperturas(l, log[..|log| - 1]);
    }
  }

  /**
    Every end an entry carries is the time of a termination event of the
    same process.
   */
  lemma {:induction false} FinesSonTerminaciones(l: Lectura, log: seq<Evento>)
    ensures forall k :: 0 <= k < |Entradas(l, log)| && Entradas(l, log)[k].fin.Some? ==>
              exists j :: 0 <= j < |log| && log[j].evento == Terminacion
                          && log[j].proceso == Entradas(l, log)[k].proceso
                          && log[j].tiempo == Entradas(l, log)[k].fin.value
  {
    if |log| > 0 {
      var ini := log[..|log| - 1];
      var e := log[|log| - 1];
      FinesSonTerminaciones(l, ini);
      var es := Entradas(l, ini);
      forall k | 0 <= k < |Entradas(l, log)| && Entradas(l, log)[k].fin.Some?
        ensures exists j :: 0 <= j < |log| && log[j].evento == Terminacion
                            && log[j].proceso == Entradas(l, log)[k].proceso
                            && log[j].tiempo == Entradas(l, log)[k].fin.value
      {
        var r := Entradas(l, log);
        if k < |es| && r[k] == es[k] {
          var j :| 0 <= j < |ini| && ini[j].evento == Terminacion
                   && ini[j].proceso == es[k].proceso && ini[j].tiempo == es[k].fin.value;
          assert log[j] == ini[j];
        } else {
          assert log[|log| - 1] == e;
        }
      }
    }
  }

  /** With no 'inicio_ejecucion' spelling in the log, the code as written opens no entry at all. */
  lemma {:induction false} ComoEscritoSinEntradas(log: seq<Evento>)
    requires forall i :: 0 <= i < |log| ==> log[i].evento != InicioEjecucionSubrayado
    ensures Entradas(ComoEscrito, log) == []
    ensures GanttDe(ComoEscrito, log) == Gantt([], [], [])
  {
    if |log| > 0 {
      ComoEscritoSinEntradas(log[..|log| - 1]);
      assert PrimeraAbierta([], log[|log| - 1].proceso) == None;
    }
  }

  /**
    The engines' spelling: a process that starts executing at 0 and
    terminates at 3 leaves an empty chart under the code as written, and one
    bar of length 3 under the corrected reading.
   */
  lemma GanttComoEscritoVacio()
    ensures var log := [Evento(0, "A", InicioEjecucion, Ejecutando), Evento(3, "A", Terminacion, Terminado)];
            && GanttDe(ComoEscrito, log) == Gantt([], [], [])
            && GanttDe(Corregida, log) == Gantt(["A"], [0], [3])
  {
    var inicio := Evento(0, "A", InicioEjecucion, Ejecutando);
    var log := [inicio, Evento(3, "A", Terminacion, Terminado)];
    ComoEscritoSinEntradas(log);
    var l1 := [inicio];
    assert log[..1] == l1;
    assert l1[..0] == [];
    assert Entradas(Corregida, l1[..0]) == [];
    var es1 := Entradas(Corregida, l1);
    assert es1 == [Entrada("A", 0, None)];
    assert PrimeraAbierta(es1, "A") == Some(0);
    assert Entradas(Corregida, log) == [Entrada("A", 0, Some(3))];
  }

  /**
    Under the corrected reading every execution start the engines log opens
    an entry: the entries are in one-to-one, in-order correspondence with the
    'inicio ejecucion' and 'inicio_ejecucion' events.
   */
  lemma AperturasCorregidas(log: seq<Evento>)
    ensures var es := Entradas(Corregida, log); var ab := Aperturas(Corregida, log);
            && |es| == |ab|
            && (forall e :: e in ab ==> e.evento == InicioEjecucion || e.evento == InicioEjecucionSubrayado)
            && forall k :: 0 <= k < |es| ==> es[k].proceso == ab[k].proceso && es[k].inicio == ab[k].tiempo
  {
    EntradasSiguenAperturas(Corregida, log);
    AperturasSon(Corregida, log);
  }

  lemma {:induction false} AperturasSon(l: Lectura, log: seq<Evento>)
    ensures forall e :: e in Aperturas(l, log) ==> e in log && AbreEntrada(l, e.evento)
  {
    if |log| > 0 {
      AperturasSon(l, log[..|log| - 1]);
      forall e | e in Aperturas(l, log[..|log| - 1]) ensures e in log {
        assert e in log[..|log| - 1];
      }
    }
  }
}
