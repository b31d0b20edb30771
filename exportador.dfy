/**
  The part of the PDF report that turns the event log into Gantt data: the
  three passes that rebuild, per process, its arrival, its painted segments
  and its termination tick; the cell content of the chart at one tick; the
  search for the process that executes after a system event; and the
  division of the time axis into windows of 30 ticks.
 */
module ExportadorPdf {
  import opened Procesos

  /** The name the log uses for events that belong to no process. */
  const Sistema: string := "SISTEMA"

  /** A painted segment: its first tick, the kind of the event that opened it, and its last tick once closed. */
  datatype Segmento = Segmento(inicio: int, tipo: TipoEvento, fin: Option<int>)

  /** What the chart knows of one process: arrival, segments in creation order, termination tick. */
  datatype DatosGantt = DatosGantt(llegada: Option<int>, segmentos: seq<Segmento>, terminacion: Option<int>)

  type Diagrama = map<string, DatosGantt>

  /** A system window that opened and has not closed yet: its tick and its process. */
  datatype Pendiente = Pendiente(tiempo: int, proceso: string)

  predicate EsInicioVentana(k: TipoEvento)
  {
    k == InicioTip || k == InicioTcp || k == InicioTfp
  }

  predicate EsFinVentana(k: TipoEvento)
  {
    k == FinTip || k == FinTcp || k == FinTfp
  }

  predicate EsVentana(k: TipoEvento)
  {
    EsInicioVentana(k) || EsFinVentana(k)
  }

  /** `replace('fin_', 'inicio_')` on the end kinds of a window. */
  function InicioDe(k: TipoEvento): TipoEvento
  {
    if k == FinTip then InicioTip else if k == FinTcp then InicioTcp else InicioTfp
  }

  // ---------------------------------------------------------------------------
  // First pass: arrivals
  // ---------------------------------------------------------------------------

  /** One event of the first pass: the first arrival of a process creates its entry. */
  function PasoLlegada(d: Diagrama, e: Evento): Diagrama
  {
    if e.proceso != Sistema && e.evento == Llegada && e.proceso !in d
    then d[e.proceso := DatosGantt(Some(e.tiempo), [], None)]
    else d
  }

  function PrimeraPasada(evs: seq<Evento>): Diagrama
  {
    if |evs| == 0 then map[] else PasoLlegada(PrimeraPasada(evs[..|evs| - 1]), evs[|evs| - 1])
  }

  // ---------------------------------------------------------------------------
  // Second pass: TIP, TCP and TFP windows
  // ---------------------------------------------------------------------------

  /** The state of the second pass: the entries and the windows still open, by their start kind. */
  datatype Ventanas = Ventanas(procesos: Diagrama, sistema: map<TipoEvento, Pendiente>)

  /** The ticks a window paints: [t0, t - 1] for TIP and TCP, [t0 + 1, t] for TFP. */
  function Tramo(k: TipoEvento, t0: int, t: int): (int, int)
  {
    if k == InicioTfp then (t0 + 1, t) else (t0, t - 1)
  }

  /** Appends the window's segment to `nombre`, unless its range is empty. */
  function Pintar(d: Diagrama, nombre: string, k: TipoEvento, t0: int, t: int): Diagrama
    requires nombre in d
  {
    var r := Tramo(k, t0, t);
    if r.0 <= r.1 then d[nombre := d[nombre].(segmentos := d[nombre].segmentos + [Segmento(r.0, k, Some(r.1))])]
    else d
  }

  /**
    One event of the second pass: a window start of a known process is
    remembered (replacing an earlier one of the same kind); a window end with
    a remembered start paints the segment on that start's process, when its
    name is non-empty and known, and forgets the start.
   */
  function PasoVentana(v: Ventanas, e: Evento): Ventanas
  {
    var k := e.evento;
    if EsInicioVentana(k) then
      if e.proceso in v.procesos then v.(sistema := v.sistema[k := Pendiente(e.tiempo, e.proceso)]) else v
    else if EsFinVentana(k) && InicioDe(k) in v.sistema then
      var i := InicioDe(k);
      var p := v.sistema[i];
      var d := if |p.proceso| > 0 && p.proceso in v.procesos then Pintar(v.procesos, p.proceso, i, p.tiempo, e.tiempo)
               else v.procesos;
      Ventanas(d, v.sistema - {i})
    else v
  }

  function SegundaPasada(d0: Diagrama, evs: seq<Evento>): Ventanas
  {
    if |evs| == 0 then Ventanas(d0, map[]) else PasoVentana(SegundaPasada(d0, evs[..|evs| - 1]), evs[|evs| - 1])
  }

  // ---------------------------------------------------------------------------
  // Third pass: execution and I/O segments
  // ---------------------------------------------------------------------------

  predicate Abierto(s: Segmento, tipo: TipoEvento)
  {
    s.fin.None? && s.tipo == tipo
  }

  /** The most recent open segment of kind `tipo`, if any: the `reversed` scan. */
  function UltimoAbierto(segs: seq<Segmento>, tipo: TipoEvento): (r: Option<nat>)
    ensures r.Some? ==> r.value < |segs| && Abierto(segs[r.value], tipo)
                        && forall m :: r.value < m < |segs| ==> !Abierto(segs[m], tipo)
    ensures r.None? ==> forall m :: 0 <= m < |segs| ==> !Abierto(segs[m], tipo)
  {
    if |segs| == 0 then None
    else if Abierto(segs[|segs| - 1], tipo) then Some(|segs| - 1)
    else UltimoAbierto(segs[..|segs| - 1], tipo)
  }

  /** The most recent open segment of kind `tipo` gets last tick `t`; with none open nothing changes. */
  function CerrarUltimo(segs: seq<Segmento>, tipo: TipoEvento, t: int): seq<Segmento>
  {
    match UltimoAbierto(segs, tipo)
    case None => segs
    case Some(j) => segs[j := segs[j].(fin := Some(t))]
  }

  /** What one process event does to its process's entry. */
  function Actualizar(g: DatosGantt, e: Evento): DatosGantt
  {
    match e.evento
    case Llegada => g.(llegada := Some(e.tiempo))
    case InicioEjecucion => g.(segmentos := g.segmentos + [Segmento(e.tiempo, InicioEjecucion, None)])
    case FinEjecucion => g.(segmentos := CerrarUltimo(g.segmentos, InicioEjecucion, e.tiempo))
    case FinEjecucionEspacio => g.(segmentos := CerrarUltimo(g.segmentos, InicioEjecucion, e.tiempo))
    case InicioIo => g.(segmentos := g.segmentos + [Segmento(e.tiempo, InicioIo, None)])
    case FinIo => g.(segmentos := CerrarUltimo(g.segmentos, InicioIo, e.tiempo))
    case Terminacion => g.(segmentos := CerrarUltimo(g.segmentos, InicioEjecucion, e.tiempo),
                           terminacion := Some(e.tiempo))
    case _ => g
  }

  /** An event the third pass reads: not a system event and not a window event. */
  predicate DeProceso(e: Evento)
  {
    e.proceso != Sistema && !EsVentana(e.evento)
  }

  function EntradaDe(d: Diagrama, nombre: string): DatosGantt
  {
    if nombre in d then d[nombre] else DatosGantt(None, [], None)
  }

  /** One event of the third pass: its process gets an entry if it had none, then the event applies. */
  function PasoProceso(d: Diagrama, e: Evento): Diagrama
  {
    if DeProceso(e) then d[e.proceso := Actualizar(EntradaDe(d, e.proceso), e)] else d
  }

  function TerceraPasada(d0: Diagrama, evs: seq<Evento>): Diagrama
  {
    if |evs| == 0 then d0 else PasoProceso(TerceraPasada(d0, evs[..|evs| - 1]), evs[|evs| - 1])
  }

  /** `_procesar_eventos_gantt`: the three passes over the same log. */
  function EventosGantt(evs: seq<Evento>): Diagrama
  {
    TerceraPasada(SegundaPasada(PrimeraPasada(evs), evs).procesos, evs)
  }

  // ---------------------------------------------------------------------------
  // The passes as loops
  // ---------------------------------------------------------------------------

  method RegistrarLlegadas(eventos: seq<Evento>) returns (procesos: Diagrama)
    ensures procesos == PrimeraPasada(eventos)
  {
    procesos := map[];
    for i := 0 to |eventos|
      invariant procesos == PrimeraPasada(eventos[..i])
    {
      var e := eventos[i];
      assert eventos[..i + 1][..i] == eventos[..i];
      if e.proceso != Sistema && e.evento == Llegada {
        if e.proceso !in procesos {
          procesos := procesos[e.proceso := DatosGantt(Some(e.tiempo), [], None)];
        }
      }
    }
    assert eventos[..|eventos|] == eventos;
  }

  /** One event of the second pass, on the entries and the open windows. */
  method ProcesarVentana(procesos: Diagrama, sistema: map<TipoEvento, Pendiente>, e: Evento)
    returns (procesos': Diagrama, sistema': map<TipoEvento, Pendiente>)
    ensures Ventanas(procesos', sistema') == PasoVentana(Ventanas(procesos, sistema), e)
  {
    procesos', sistema' := procesos, sistema;
    var k := e.evento;
    if EsInicioVentana(k) {
      if e.proceso in procesos {
        sistema' := sistema[k := Pendiente(e.tiempo, e.proceso)];
      }
    } else if EsFinVentana(k) {
      var inicioK := InicioDe(k);
      if inicioK in sistema {
        var p := sistema[inicioK];
        if |p.proceso| > 0 && p.proceso in procesos {
          var r := Tramo(inicioK, p.tiempo, e.tiempo);
          if r.0 <= r.1 {
            var g := procesos[p.proceso];
            procesos' := procesos[p.proceso := g.(segmentos := g.segmentos + [Segmento(r.0, inicioK, Some(r.1))])];
          }
        }
        sistema' := sistema - {inicioK};
      }
    }
  }

  method PintarVentanas(d0: Diagrama, eventos: seq<Evento>) returns (procesos: Diagrama)
    ensures procesos == SegundaPasada(d0, eventos).procesos
  {
    procesos := d0;
    var sistema: map<TipoEvento, Pendiente> := map[];
    for i := 0 to |eventos|
      invariant Ventanas(procesos, sistema) == SegundaPasada(d0, eventos[..i])
    {
      assert eventos[..i + 1][..i] == eventos[..i];
      procesos, sistema := ProcesarVentana(procesos, sistema, eventos[i]);
    }
    assert eventos[..|eventos|] == eventos;
  }

  /** The reversed scan: the most recent open segment of kind `tipo` gets last tick `t`. */
  method CerrarUltimoAbierto(segs: seq<Segmento>, tipo: TipoEvento, t: int) returns (r: seq<Segmento>)
    ensures r == CerrarUltimo(segs, tipo, t)
  {
    r := segs;
    var j := |segs|;
    while j > 0
      invariant 0 <= j <= |segs|
      invariant forall m :: j <= m < |segs| ==> !Abierto(segs[m], tipo)
    {
      j := j - 1;
      if Abierto(segs[j], tipo) {
        r := segs[j := segs[j].(fin := Some(t))];
        return;
      }
    }
  }

  /** One event of the third pass. */
  method ProcesarEvento(procesos: Diagrama, e: Evento) returns (procesos': Diagrama)
    ensures procesos' == PasoProceso(procesos, e)
  {
    if !DeProceso(e) {
      return procesos;
    }
    var g := EntradaDe(procesos, e.proceso);
    var t := e.tiempo;
    match e.evento {
      case Llegada => g := g.(llegada := Some(t));
      case InicioEjecucion => g := g.(segmentos := g.segmentos + [Segmento(t, InicioEjecucion, None)]);
      case FinEjecucion =>
        var segs := CerrarUltimoAbierto(g.segmentos, InicioEjecucion, t);
        g := g.(segmentos := segs);
      case FinEjecucionEspacio =>
        var segs := CerrarUltimoAbierto(g.segmentos, InicioEjecucion, t);
        g := g.(segmentos := segs);
      case InicioIo => g := g.(segmentos := g.segmentos + [Segmento(t, InicioIo, None)]);
      case FinIo =>
        var segs := CerrarUltimoAbierto(g.segmentos, InicioIo, t);
        g := g.(segmentos := segs);
      case Terminacion =>
        var segs := CerrarUltimoAbierto(g.segmentos, InicioEjecucion, t);
        g := g.(segmentos := segs, terminacion := Some(t));
      case _ =>
    }
    procesos' := procesos[e.proceso := g];
  }

  method RegistrarProcesos(d0: Diagrama, eventos: seq<Evento>) returns (procesos: Diagrama)
    ensures procesos == TerceraPasada(d0, eventos)
  {
    procesos := d0;
    for i := 0 to |eventos|
      invariant procesos == TerceraPasada(d0, eventos[..i])
    {
      assert eventos[..i + 1][..i] == eventos[..i];
      procesos := ProcesarEvento(procesos, eventos[i]);
    }
    assert eventos[..|eventos|] == eventos;
  }

  /** `_procesar_eventos_gantt`. */
  method ProcesarEventosGantt(eventos: seq<Evento>) returns (procesos: Diagrama)
    ensures procesos == EventosGantt(eventos)
  {
    procesos := RegistrarLlegadas(eventos);
    procesos := PintarVentanas(procesos, eventos);
    procesos := RegistrarProcesos(procesos, eventos);
  }

  // ---------------------------------------------------------------------------
  // Properties of the passes
  // ---------------------------------------------------------------------------

  /** Every entry of the first pass belongs to a non-system process with an arrival event. */
  lemma {:induction false} ClavesPrimera(evs: seq<Evento>)
    ensures forall k :: k in PrimeraPasada(evs) ==>
              exists i :: 0 <= i < |evs| && evs[i].proceso == k && DeProceso(evs[i])
  {
    if |evs| > 0 {
      var ini := evs[..|evs| - 1];
      ClavesPrimera(ini);
      forall k | k in PrimeraPasada(evs)
        ensures exists i :: 0 <= i < |evs| && evs[i].proceso == k && DeProceso(evs[i])
      {
        if k in PrimeraPasada(ini) {
          var i :| 0 <= i < |ini| && ini[i].proceso == k && DeProceso(ini[i]);
          assert evs[i] == ini[i];
        } else {
          assert DeProceso(evs[|evs| - 1]);
        }
      }
    }
  }

  /** The second pass only adds segments: it keeps the set of processes with an entry. */
  lemma {:induction false} ClavesSegunda(d0: Diagrama, evs: seq<Evento>)
    ensures SegundaPasada(d0, evs).procesos.Keys == d0.Keys
  {
    if |evs| > 0 {
      ClavesSegunda(d0, evs[..|evs| - 1]);
    }
  }

  /** The third pass adds an entry for the process of every event it reads, and no other. */
  lemma {:induction false} ClavesTercera(d0: Diagrama, evs: seq<Evento>)
    ensures forall k :: k in TerceraPasada(d0, evs) <==>
              k in d0 || exists i :: 0 <= i < |evs| && evs[i].proceso == k && DeProceso(evs[i])
  {
    if |evs| > 0 {
      var ini := evs[..|evs| - 1];
      var e := evs[|evs| - 1];
      ClavesTercera(d0, ini);
      forall k ensures k in TerceraPasada(d0, evs) <==>
                       k in d0 || exists i :: 0 <= i < |evs| && evs[i].proceso == k && DeProceso(evs[i])
      {
        if exists i :: 0 <= i < |ini| && ini[i].proceso == k && DeProceso(ini[i]) {
          var i :| 0 <= i < |ini| && ini[i].proceso == k && DeProceso(ini[i]);
          assert evs[i] == ini[i];
        }
        if exists i :: 0 <= i < |evs| && evs[i].proceso == k && DeProceso(evs[i]) {
          var i :| 0 <= i < |evs| && evs[i].proceso == k && DeProceso(evs[i]);
          if i < |ini| {
            assert ini[i] == evs[i];
          }
        }
      }
    }
  }

  /**
    Exactly the non-system processes named by an arrival or by another
    non-window event of the log have an entry in the result (a map holds one
    entry per name).
   */
  lemma ProcesosDelDiagrama(evs: seq<Evento>)
    ensures forall k :: k in EventosGantt(evs) <==>
              exists i :: 0 <= i < |evs| && evs[i].proceso == k && DeProceso(evs[i])
  {
    ClavesPrimera(evs);
    ClavesSegunda(PrimeraPasada(evs), evs);
    ClavesTercera(SegundaPasada(PrimeraPasada(evs), evs).procesos, evs);
  }

  /** One event other than the start and the end of kind `k` leaves the open window of kind `k` alone. */
  lemma PasoVentanaMantiene(v: Ventanas, e: Evento, k: TipoEvento)
    requires EsInicioVentana(k) && k in v.sistema
    requires e.evento != k && !(EsFinVentana(e.evento) && InicioDe(e.evento) == k)
    ensures k in PasoVentana(v, e).sistema && PasoVentana(v, e).sistema[k] == v.sistema[k]
  {
  }

  /** Events other than the start and the end of kind `k` leave the open window of kind `k` alone. */
  lemma {:induction false} PendienteSeMantiene(d0: Diagrama, evs: seq<Evento>, i: nat, j: nat, k: TipoEvento, p: Pendiente)
    requires EsInicioVentana(k)
    requires i <= j <= |evs|
    requires k in SegundaPasada(d0, evs[..i]).sistema && SegundaPasada(d0, evs[..i]).sistema[k] == p
    requires forall m :: i <= m < j ==> evs[m].evento != k && !(EsFinVentana(evs[m].evento) && InicioDe(evs[m].evento) == k)
    ensures k in SegundaPasada(d0, evs[..j]).sistema && SegundaPasada(d0, evs[..j]).sistema[k] == p
  {
    if j > i {
      PendienteSeMantiene(d0, evs, i, j - 1, k, p);
      PendientePaso(d0, evs, j - 1, k);
    }
  }

  /** One event other than the start and the end of kind `k` keeps the open window of kind `k`. */
  lemma PendientePaso(d0: Diagrama, evs: seq<Evento>, j: nat, k: TipoEvento)
    requires EsInicioVentana(k) && j < |evs|
    requires k in SegundaPasada(d0, evs[..j]).sistema
    requires evs[j].evento != k && !(EsFinVentana(evs[j].evento) && InicioDe(evs[j].evento) == k)
    ensures k in SegundaPasada(d0, evs[..j + 1]).sistema
    ensures SegundaPasada(d0, evs[..j + 1]).sistema[k] == SegundaPasada(d0, evs[..j]).sistema[k]
  {
    SegundaPasadaPaso(d0, evs, j);
    PasoVentanaMantiene(SegundaPasada(d0, evs[..j]), evs[j], k);
  }

  /**
    `despues` is `antes` with the window of kind `k` over ticks `r` painted on
    `p`: one segment more when the name is non-empty and the range is not
    empty, nothing otherwise; the same processes have entries and no other
    entry changes.
   */
  predicate Pinto(antes: Diagrama, despues: Diagrama, p: string, k: TipoEvento, r: (int, int))
  {
    && p in antes && p in despues && antes.Keys == despues.Keys
    && despues[p].segmentos == antes[p].segmentos
                               + (if |p| > 0 && r.0 <= r.1 then [Segmento(r.0, k, Some(r.1))] else [])
    && (forall q :: q in antes && q != p ==> despues[q] == antes[q])
  }

  /** The end of a window whose start of kind `k` is remembered paints that window on the start's process. */
  lemma PasoVentanaPinta(v: Ventanas, e: Evento, k: TipoEvento, p: Pendiente)
    requires EsFinVentana(e.evento) && InicioDe(e.evento) == k
    requires k in v.sistema && v.sistema[k] == p && p.proceso in v.procesos
    ensures Pinto(v.procesos, PasoVentana(v, e).procesos, p.proceso, k, Tramo(k, p.tiempo, e.tiempo))
  {
  }

  /** A window start by a process with an entry is remembered with its tick and process. */
  lemma AperturaRegistrada(d0: Diagrama, evs: seq<Evento>, i: nat)
    requires i < |evs| && EsInicioVentana(evs[i].evento) && evs[i].proceso in d0
    ensures var v := SegundaPasada(d0, evs[..i + 1]);
            evs[i].evento in v.sistema && v.sistema[evs[i].evento] == Pendiente(evs[i].tiempo, evs[i].proceso)
  {
    ClavesSegunda(d0, evs[..i]);
    var a := SegundaPasada(d0, evs[..i]);
    assert evs[..i + 1][..i] == evs[..i];
    assert SegundaPasada(d0, evs[..i + 1]) == PasoVentana(a, evs[i]);
    assert evs[i].proceso in a.procesos;
  }

  /**
    A window start of kind `k` at `t0` by a process with an entry, matched
    with the next end of the same kind at `t` (no start or end of that kind in
    between), paints exactly one segment on that process: [t0, t - 1] for TIP
    and TCP, [t0 + 1, t] for TFP; an empty range, or an empty process name,
    paints nothing. No other entry changes.
   */
  lemma VentanaEmparejada(d0: Diagrama, evs: seq<Evento>, i: nat, j: nat)
    requires i < j < |evs|
    requires EsInicioVentana(evs[i].evento) && evs[i].proceso in d0
    requires EsFinVentana(evs[j].evento) && InicioDe(evs[j].evento) == evs[i].evento
    requires forall m :: i < m < j ==> evs[m].evento != evs[i].evento && evs[m].evento != evs[j].evento
    ensures Pinto(SegundaPasada(d0, evs[..j]).procesos, SegundaPasada(d0, evs[..j + 1]).procesos,
                  evs[i].proceso, evs[i].evento, Tramo(evs[i].evento, evs[i].tiempo, evs[j].tiempo))
  {
    var k := evs[i].evento;
    var pend := Pendiente(evs[i].tiempo, evs[i].proceso);
    AperturaRegistrada(d0, evs, i);
    forall m | i + 1 <= m < j
      ensures evs[m].evento != k && !(EsFinVentana(evs[m].evento) && InicioDe(evs[m].evento) == k)
    {
      FinDeVentanaUnico(evs[m].evento, evs[j].evento);
    }
    PendienteSeMantiene(d0, evs, i + 1, j, k, pend);
    ClavesSegunda(d0, evs[..j]);
    SegundaPasadaPaso(d0, evs, j);
    PasoVentanaPinta(SegundaPasada(d0, evs[..j]), evs[j], k, pend);
  }

  /** Each window start kind has one end kind. */
  lemma FinDeVentanaUnico(x: TipoEvento, y: TipoEvento)
    requires EsFinVentana(y)
    requires x != y
    ensures !(EsFinVentana(x) && InicioDe(x) == InicioDe(y))
  {
  }

  /** The second pass over one more event is one more step. */
  lemma SegundaPasadaPaso(d0: Diagrama, evs: seq<Evento>, j: nat)
    requires j < |evs|
    ensures SegundaPasada(d0, evs[..j + 1]) == PasoVentana(SegundaPasada(d0, evs[..j]), evs[j])
  {
    assert evs[..j + 1][..j] == evs[..j];
  }

  /**
    A 'fin ejecucion', 'fin_ejecucion' or 'terminacion' event of a process
    closes the most recent open execution segment of that process at the
    event's tick (a termination also records the tick); with none open, no
    segment changes. No other entry changes.
   */
  lemma CierraEjecucion(d: Diagrama, e: Evento)
    requires e.proceso != Sistema
    requires e.evento == FinEjecucion || e.evento == FinEjecucionEspacio || e.evento == Terminacion
    ensures var segs := EntradaDe(d, e.proceso).segmentos;
            var r := PasoProceso(d, e);
            && e.proceso in r
            && (match UltimoAbierto(segs, InicioEjecucion)
                case None => r[e.proceso].segmentos == segs
                case Some(j) => r[e.proceso].segmentos == segs[j := Segmento(segs[j].inicio, InicioEjecucion, Some(e.tiempo))])
            && (e.evento == Terminacion ==> r[e.proceso].terminacion == Some(e.tiempo))
            && (forall q :: q in d && q != e.proceso ==> q in r && r[q] == d[q])
  {
  }

  /**
    A 'fin_io' event of a process closes the most recent open I/O segment of
    that process at the event's tick; with none open, no segment changes.
   */
  lemma CierraIo(d: Diagrama, e: Evento)
    requires e.proceso != Sistema && e.evento == FinIo
    ensures var segs := EntradaDe(d, e.proceso).segmentos;
            var r := PasoProceso(d, e);
            && e.proceso in r
            && (match UltimoAbierto(segs, InicioIo)
                case None => r[e.proceso].segmentos == segs
                case Some(j) => r[e.proceso].segmentos == segs[j := Segmento(segs[j].inicio, InicioIo, Some(e.tiempo))])
            && (forall q :: q in d && q != e.proceso ==> q in r && r[q] == d[q])
  {
  }

  // ---------------------------------------------------------------------------
  // _determinar_contenido_celda_gantt
  // ---------------------------------------------------------------------------

  /** The label of each segment kind the chart paints; other kinds have none. */
  function Etiqueta(tipo: TipoEvento): Option<string>
  {
    match tipo
    case InicioEjecucion => Some("CPU")
    case InicioTip => Some("TIP")
    case InicioTcp => Some("TCP")
    case InicioTfp => Some("TFP")
    case BloqueoIo => Some("I/O")
    case InicioIo => Some("I/O")
    case _ => None
  }

  /** A segment covers `t`: an open one every tick from its start on, a closed one its ticks inclusive, and it has a label. */
  predicate Cubre(s: Segmento, t: int)
  {
    (if s.fin.None? then t >= s.inicio else s.inicio <= t <= s.fin.value) && Etiqueta(s.tipo).Some?
  }

  /** The text of a covering segment: 'F' on the termination tick of a closed execution segment. */
  function TextoCelda(s: Segmento, t: int, terminacion: Option<int>): string
    requires Cubre(s, t)
  {
    if s.fin.Some? && s.tipo == InicioEjecucion && terminacion == Some(t) then "F" else Etiqueta(s.tipo).value
  }

  function ContenidoEn(t: int, segs: seq<Segmento>, terminacion: Option<int>): (r: string)
    ensures r == "" <==> forall i :: 0 <= i < |segs| ==> !Cubre(segs[i], t)
    ensures r != "" ==> exists i :: 0 <= i < |segs| && Cubre(segs[i], t)
                                    && (forall j :: 0 <= j < i ==> !Cubre(segs[j], t))
                                    && r == TextoCelda(segs[i], t, terminacion)
  {
    if |segs| == 0 then ""
    else if Cubre(segs[0], t) then TextoCelda(segs[0], t, terminacion)
    else
      var r := ContenidoEn(t, segs[1..], terminacion);
      assert forall i :: 1 <= i < |segs| ==> segs[i] == segs[1..][i - 1];
      if r != "" then
        var i :| 0 <= i < |segs[1..]| && Cubre(segs[1..][i], t) && (forall j :: 0 <= j < i ==> !Cubre(segs[1..][j], t))
                 && r == TextoCelda(segs[1..][i], t, terminacion);
        assert segs[i + 1] == segs[1..][i];
        r
      else r
  }

  /**
    `_determinar_contenido_celda_gantt`: the text of the first segment that
    covers `t`, and '' exactly when none does.
   */
  function ContenidoCelda(t: int, datos: DatosGantt): (r: string)
    ensures r == "" <==> forall i :: 0 <= i < |datos.segmentos| ==> !Cubre(datos.segmentos[i], t)
    ensures r != "" ==> exists i :: 0 <= i < |datos.segmentos| && Cubre(datos.segmentos[i], t)
                                    && (forall j :: 0 <= j < i ==> !Cubre(datos.segmentos[j], t))
                                    && r == TextoCelda(datos.segmentos[i], t, datos.terminacion)
  {
    ContenidoEn(t, datos.segmentos, datos.terminacion)
  }

  /** Every label is non-empty, so '' in a cell always means that no segment covers the tick. */
  lemma TextoCeldaNoVacio(s: Segmento, t: int, terminacion: Option<int>)
    requires Cubre(s, t)
    ensures TextoCelda(s, t, terminacion) in {"F", "CPU", "TIP", "TCP", "TFP", "I/O"}
  {
  }

  // ---------------------------------------------------------------------------
  // _encontrar_proceso_destino
  // ---------------------------------------------------------------------------

  predicate IniciaEjecucionDesde(e: Evento, t: int)
  {
    e.tiempo >= t && (e.evento == InicioEjecucion || e.evento == InicioEjecucionSubrayado)
  }

  /**
    `_encontrar_proceso_destino`: the process of the first execution start
    (either spelling) at or after `t`, and None when there is none.
   */
  function EncontrarProcesoDestino(evs: seq<Evento>, t: int): (r: Option<string>)
    ensures r.None? <==> forall i :: 0 <= i < |evs| ==> !IniciaEjecucionDesde(evs[i], t)
    ensures r.Some? ==> exists i :: 0 <= i < |evs| && IniciaEjecucionDesde(evs[i], t)
                                    && (forall j :: 0 <= j < i ==> !IniciaEjecucionDesde(evs[j], t))
                                    && r.value == evs[i].proceso
  {
    if |evs| == 0 then None
    else if IniciaEjecucionDesde(evs[0], t) then Some(evs[0].proceso)
    else
      var r := EncontrarProcesoDestino(evs[1..], t);
      assert forall i :: 1 <= i < |evs| ==> evs[i] == evs[1..][i - 1];
      if r.Some? then
        var i :| 0 <= i < |evs[1..]| && IniciaEjecucionDesde(evs[1..][i], t)
                 && (forall j :: 0 <= j < i ==> !IniciaEjecucionDesde(evs[1..][j], t))
                 && r.value == evs[1..][i].proceso;
        assert evs[i + 1] == evs[1..][i];
        r
      else r
  }

  // ---------------------------------------------------------------------------
  // _construir_tabla_gantt: the windows of the time axis
  // ---------------------------------------------------------------------------

  const TamanoSegmento: int := 30

  /** A window of the axis: its first and last tick, both inclusive. */
  datatype Intervalo = Intervalo(inicio: int, fin: int)

  function Min(a: int, b: int): int
  {
    if a <= b then a else b
  }

  /** Window `i` of an axis ending at `total`. */
  function Ventana(i: int, total: int): Intervalo
  {
    Intervalo(i * TamanoSegmento, Min(i * TamanoSegmento + TamanoSegmento - 1, total))
  }

  /**
    The window loop of `_construir_tabla_gantt`: `total // 30 + 1` candidate
    windows, window i being [30i, min(30i + 29, total)], each kept only when it
    starts no later than `total`. For a non-negative total all are kept; for a
    negative one there are none.
   */
  method ConstruirVentanas(total: int) returns (ventanas: seq<Intervalo>)
    ensures total < 0 ==> ventanas == []
    ensures total >= 0 ==> |ventanas| == total / TamanoSegmento + 1
    ensures forall i :: 0 <= i < |ventanas| ==> ventanas[i] == Ventana(i, total)
  {
    ventanas := [];
    var numSegmentos := total / TamanoSegmento + 1;
    var i := 0;
    while i < numSegmentos
      invariant total >= 0 ==> 0 <= i <= numSegmentos && |ventanas| == i
      invariant total < 0 ==> ventanas == []
      invariant forall m :: 0 <= m < |ventanas| ==> ventanas[m] == Ventana(m, total)
    {
      var inicio := i * TamanoSegmento;
      var fin := Min(inicio + TamanoSegmento - 1, total);
      if inicio <= total {
        ventanas := ventanas + [Intervalo(inicio, fin)];
      }
      i := i + 1;
    }
  }

  /**
    For a non-negative total the windows partition 0..total: the first starts
    at 0, the last ends at `total`, each is non-empty and at most 30 ticks
    wide, and each starts right after the previous one ends.
   */
  lemma VentanasContiguas(total: int)
    requires total >= 0
    ensures var n := total / TamanoSegmento + 1;
            && Ventana(0, total).inicio == 0
            && Ventana(n - 1, total).fin == total
            && (forall i :: 0 <= i < n ==>
                  Ventana(i, total).inicio <= Ventana(i, total).fin <= Ventana(i, total).inicio + TamanoSegmento - 1)
            && (forall i :: 0 <= i < n - 1 ==> Ventana(i, total).fin + 1 == Ventana(i + 1, total).inicio)
  {
    var n := total / TamanoSegmento + 1;
    assert (n - 1) * TamanoSegmento <= total < n * TamanoSegmento;
    forall i | 0 <= i < n
      ensures Ventana(i, total).inicio <= Ventana(i, total).fin
    {
      assert i * TamanoSegmento <= (n - 1) * TamanoSegmento;
    }
    forall i | 0 <= i < n - 1
      ensures Ventana(i, total).fin + 1 == Ventana(i + 1, total).inicio
    {
      assert (i + 1) * TamanoSegmento <= (n - 1) * TamanoSegmento;
    }
  }

  /**
    Every tick 0..total lies in exactly one window: window t // 30, and in no
    other (the windows are disjoint and cover the axis).
   */
  lemma TickEnUnaVentana(total: int, t: int)
    requires 0 <= t <= total
    ensures var i := t / TamanoSegmento; var v := Ventana(i, total);
            && 0 <= i < total / TamanoSegmento + 1
            && v.inicio <= t <= v.fin
            && forall j :: 0 <= j < total / TamanoSegmento + 1 && j != i ==>
                 !(Ventana(j, total).inicio <= t <= Ventana(j, total).fin)
  {
    var i := t / TamanoSegmento;
    assert i * TamanoSegmento <= t < (i + 1) * TamanoSegmento;
    assert i <= total / TamanoSegmento;
    forall j | 0 <= j < total / TamanoSegmento + 1 && j != i
      ensures !(Ventana(j, total).inicio <= t <= Ventana(j, total).fin)
    {
      if j < i {
        assert (j + 1) * TamanoSegmento <= i * TamanoSegmento;
      } else {
        assert (i + 1) * TamanoSegmento <= j * TamanoSegmento;
      }
    }
  }
}
