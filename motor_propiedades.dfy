/**
  What the shared steps of both engines do, stated against independent
  descriptions: the arrivals of a tick, the I/O countdown of the blocked
  list, the ready-time accrual and the completion of a TFP.
 */
module PropiedadesMotor {
  import opened Procesos
  import opened OrdenPE
  import opened Motor

  /** The ready list after queueing the processes of `ps`, in order, under policy `pol`. */
  function EncolarTodos(pol: Politica, q: seq<Proceso>, ps: seq<Proceso>): seq<Proceso>
  {
    if ps == [] then q else Encolar(pol, EncolarTodos(pol, q, ps[..|ps| - 1]), ps[|ps| - 1])
  }

  lemma EncolarTodosPaso(pol: Politica, q: seq<Proceso>, ps: seq<Proceso>, p: Proceso)
    ensures EncolarTodos(pol, q, ps + [p]) == Encolar(pol, EncolarTodos(pol, q, ps), p)
  {
    assert (ps + [p])[..|ps|] == ps;
  }

  /** PE queues a batch by repeated priority insertion, RR appends it at the tail. */
  lemma {:induction false} EncolarTodosCasos(pol: Politica, q: seq<Proceso>, ps: seq<Proceso>)
    ensures pol == PorPrioridad ==> EncolarTodos(pol, q, ps) == InsertarTodos(q, ps)
    ensures pol == Fifo ==> EncolarTodos(pol, q, ps) == q + ps
  {
    if ps != [] {
      var ini := ps[..|ps| - 1];
      EncolarTodosCasos(pol, q, ini);
      assert ps == ini + [ps[|ps| - 1]];
      InsertarTodosPaso(q, ini, ps[|ps| - 1]);
    }
  }

  /** The state `procesar_llegadas` leaves after admitting the processes `l`, in order, at tick `t`. */
  function TrasLlegadas(pol: Politica, n: Nucleo, l: seq<Proceso>, a: Tabla): Nucleo
  {
    var t := n.tiempoActual;
    n.(atributos := a,
       colaListos := EncolarTodos(pol, n.colaListos, l),
       resultados := n.resultados + EventosLlegada(l, t),
       tPrimerArribo := if n.tPrimerArribo.None? && l != [] then Some(t) else n.tPrimerArribo,
       tArriboPorProceso := Anotar(n.tArriboPorProceso, l, t),
       cpuProcPorProceso := Anotar(n.cpuProcPorProceso, l, 0),
       tListoPorProceso := Anotar(n.tListoPorProceso, l, 0))
  }

  lemma AdmitirPaso(pol: Politica, n: Nucleo, l: seq<Proceso>, a: Tabla, u: Proceso)
    ensures Admitir(pol, TrasLlegadas(pol, n, l, a), u)
            == TrasLlegadas(pol, n, l + [u], ConEstado(a, u, Listo))
  {
    var t := n.tiempoActual;
    var m := TrasLlegadas(pol, n, l, a);
    var r := Admitir(pol, m, u);
    var e := TrasLlegadas(pol, n, l + [u], ConEstado(a, u, Listo));
    EventosLlegadaPaso(l, u, t);
    EncolarTodosPaso(pol, n.colaListos, l, u);
    AnotarPaso(n.tArriboPorProceso, l, u, t);
    AnotarPaso(n.cpuProcPorProceso, l, u, 0);
    AnotarPaso(n.tListoPorProceso, l, u, 0);
    assert r.colaListos == e.colaListos;
    assert r.resultados == e.resultados;
    assert r.tPrimerArribo == e.tPrimerArribo;
  }

  /**
    `procesar_llegadas` at tick `t`: exactly the processes whose arrival tick
    is `t` are queued, in list order, each with a `llegada` event, arrival
    tick `t` and zeroed CPU and ready counters; the first arrival tick is set
    once; nothing else but the records' states changes.
   */
  lemma {:induction false} LlegadasEfecto(pol: Politica, n: Nucleo, ps: seq<Proceso>)
    ensures var m := LlegadasDe(pol, n, ps);
            m == TrasLlegadas(pol, n, Llegadas(ps, n.tiempoActual), m.atributos)
  {
    if ps != [] {
      var t := n.tiempoActual;
      var ini := ps[..|ps| - 1];
      var u := ps[|ps| - 1];
      LlegadasEfecto(pol, n, ini);
      var li := Llegadas(ini, t);
      var mi := LlegadasDe(pol, n, ini);
      if u.tiempoArrivo == t {
        assert Llegadas(ps, t) == li + [u];
        AdmitirPaso(pol, n, li, mi.atributos, u);
      } else {
        assert Llegadas(ps, t) == li;
      }
    }
  }

  /** Every arriving record, and only those, is in state `listo` after `procesar_llegadas`. */
  lemma {:induction false} LlegadasAtributos(pol: Politica, n: Nucleo, ps: seq<Proceso>, p: Proceso)
    ensures Attr(LlegadasDe(pol, n, ps).atributos, p)
            == if p in Llegadas(ps, n.tiempoActual) then Attr(n.atributos, p).(estado := Listo) else Attr(n.atributos, p)
  {
    if ps != [] {
      var t := n.tiempoActual;
      var ini := ps[..|ps| - 1];
      var u := ps[|ps| - 1];
      LlegadasAtributos(pol, n, ini, p);
      LlegadasEfecto(pol, n, ini);
      var mi := LlegadasDe(pol, n, ini);
      assert mi.tiempoActual == t;
      if u.tiempoArrivo == t {
        assert Llegadas(ps, t) == Llegadas(ini, t) + [u];
        LlegadasAtributos(pol, n, ini, u);
      } else {
        assert Llegadas(ps, t) == Llegadas(ini, t);
      }
    }
  }

  /** Under either policy the arrivals neither lose nor invent a ready process. */
  lemma LlegadasMulticonjunto(pol: Politica, c: Configuracion, n: Nucleo)
    ensures multiset(ProcesarLlegadas(pol, c, n).colaListos)
         == multiset(n.colaListos) + multiset(Llegadas(c.procesos, n.tiempoActual))
  {
    var l := Llegadas(c.procesos, n.tiempoActual);
    LlegadasEfecto(pol, n, c.procesos);
    EncolarTodosCasos(pol, n.colaListos, l);
    InsertarTodosMulticonjunto(n.colaListos, l);
  }

  /** PE's arrivals keep a priority-ordered ready list ordered. */
  lemma LlegadasConservaOrden(c: Configuracion, n: Nucleo)
    requires OrdenadaPorPrioridad(n.colaListos)
    ensures OrdenadaPorPrioridad(ProcesarLlegadas(PorPrioridad, c, n).colaListos)
  {
    var l := Llegadas(c.procesos, n.tiempoActual);
    LlegadasEfecto(PorPrioridad, n, c.procesos);
    EncolarTodosCasos(PorPrioridad, n.colaListos, l);
    InsertarTodosConservaOrden(n.colaListos, l);
  }

  /**
    The effect of one I/O tick on a blocked record: a record blocked before
    `t` loses one I/O tick, and at zero it is ready again with a full burst.
   */
  function TrasIo(x: Atributos, p: Proceso, t: int): Atributos
  {
    if x.tiempoBloqueo < t then
      if x.duracionRafagasIo == 1 then
        x.(duracionRafagasIo := 0, estado := Listo, duracionRafagasCpu := p.duracionRafagasCpuOriginal)
      else x.(duracionRafagasIo := x.duracionRafagasIo - 1)
    else x
  }

  /** The loop over a prefix of `ps` one element longer. */
  lemma IoDePrefijo(pol: Politica, r: PasoIo, ps: seq<Proceso>, i: nat)
    requires i < |ps|
    ensures IoDe(pol, r, ps[..i + 1]) == IoUnTick(pol, IoDe(pol, r, ps[..i]), ps[i])
  {
    assert ps[..i + 1][..i] == ps[..i];
  }

  lemma EventosFinIoPaso(s: seq<Proceso>, p: Proceso, t: int)
    ensures EventosFinIo(s + [p], t) == EventosFinIo(s, t) + [Evento(t, p.nombre, FinIo, Listo)]
  {
    assert (s + [p])[..|s|] == s;
  }

  /** One pass of the blocked-list loop body, for a record whose attributes are still `x`. */
  lemma IoUnTickEfecto(pol: Politica, r: PasoIo, u: Proceso, x: Atributos)
    requires Attr(r.n.atributos, u) == x
    ensures var t := r.n.tiempoActual;
            var res := IoUnTick(pol, r, u);
            var f := if x.tiempoBloqueo < t && x.duracionRafagasIo == 1 then [u] else [];
            && res.terminaron == r.terminaron + f
            && res.n.colaListos == EncolarTodos(pol, r.n.colaListos, f)
            && res.n.resultados == r.n.resultados + EventosFinIo(f, t)
            && forall p :: Attr(res.n.atributos, p) == if p == u then TrasIo(x, u, t) else Attr(r.n.atributos, p)
  {
    var n := r.n;
    var t := n.tiempoActual;
    var res := IoUnTick(pol, r, u);
    if x.tiempoBloqueo < t && x.duracionRafagasIo == 1 {
      assert res.n.atributos == n.atributos[u := TrasIo(x, u, t)];
      assert res.terminaron == r.terminaron + [u];
      assert res.n.colaListos == Encolar(pol, n.colaListos, u);
      assert res.n.resultados == n.resultados + [Evento(t, u.nombre, FinIo, Listo)];
      assert [u][..0] == [];
      assert EncolarTodos(pol, n.colaListos, [u]) == Encolar(pol, n.colaListos, u);
      assert EventosFinIo([u], t) == [Evento(t, u.nombre, FinIo, Listo)];
    } else {
      if x.tiempoBloqueo < t {
        assert res == PasoIo(n.(atributos := n.atributos[u := TrasIo(x, u, t)]), r.terminaron);
      } else {
        assert res == r;
      }
      assert EventosFinIo([], t) == [];
      assert n.resultados + [] == n.resultados;
    }
  }

  /** The loop body changes only attributes, the ready list and the log. */
  lemma IoUnTickMarco(pol: Politica, r: PasoIo, u: Proceso)
    ensures var res := IoUnTick(pol, r, u);
            res.n == r.n.(atributos := res.n.atributos, colaListos := res.n.colaListos, resultados := res.n.resultados)
  {
    var n := r.n;
    var a := Attr(n.atributos, u);
    if a.tiempoBloqueo < n.tiempoActual {
      if a.duracionRafagasIo - 1 == 0 {
        var m := IoUnTick(pol, r, u).n;
        assert m == Anotado(n, u.nombre, FinIo, Listo).(atributos := m.atributos, colaListos := m.colaListos);
      }
    }
  }

  /** The blocked-list loop changes only attributes, the ready list and the log. */
  lemma {:induction false} IoDeMarco(pol: Politica, r: PasoIo, ps: seq<Proceso>)
    ensures var res := IoDe(pol, r, ps);
            res.n == r.n.(atributos := res.n.atributos, colaListos := res.n.colaListos, resultados := res.n.resultados)
  {
    if ps != [] {
      IoDeMarco(pol, r, ps[..|ps| - 1]);
      var ri := IoDe(pol, r, ps[..|ps| - 1]);
      IoUnTickMarco(pol, ri, ps[|ps| - 1]);
    }
  }

  lemma IoDeReloj(pol: Politica, r: PasoIo, ps: seq<Proceso>)
    ensures IoDe(pol, r, ps).n.tiempoActual == r.n.tiempoActual
  {
    IoDeMarco(pol, r, ps);
  }

  /** Over a blocked list without repetitions every record gets exactly one I/O tick. */
  lemma {:induction false} IoDeAtributos(pol: Politica, r: PasoIo, ps: seq<Proceso>, p: Proceso)
    requires SinRepetidos(ps)
    ensures Attr(IoDe(pol, r, ps).n.atributos, p)
            == if p in ps then TrasIo(Attr(r.n.atributos, p), p, r.n.tiempoActual) else Attr(r.n.atributos, p)
  {
    if ps != [] {
      var ini := ps[..|ps| - 1];
      var u := ps[|ps| - 1];
      assert SinRepetidos(ini);
      assert u !in ini;
      assert ps == ini + [u];
      IoDeAtributos(pol, r, ini, p);
      IoDeAtributos(pol, r, ini, u);
      IoDeReloj(pol, r, ini);
      var ri := IoDe(pol, r, ini);
      IoUnTickEfecto(pol, ri, u, Attr(r.n.atributos, u));
    }
  }

  /**
    The loop over a blocked list without repetitions: the records that
    finish their I/O are queued in list order with one `fin_io` event each.
   */
  lemma IoDeEfecto(pol: Politica, r: PasoIo, ps: seq<Proceso>)
    requires SinRepetidos(ps)
    ensures var f := TerminanIo(r.n.atributos, ps, r.n.tiempoActual);
            var res := IoDe(pol, r, ps);
            && res.terminaron == r.terminaron + f
            && res.n.colaListos == EncolarTodos(pol, r.n.colaListos, f)
            && res.n.resultados == r.n.resultados + EventosFinIo(f, r.n.tiempoActual)
  {
    var f := TerminanIo(r.n.atributos, ps, r.n.tiempoActual);
    var res := IoDe(pol, r, ps);
    IoDeTerminaron(pol, r, ps);
    IoDeEventos(pol, r, ps);
    IoDeCola(pol, r, ps);
    assert res.terminaron[|r.terminaron|..] == f;
  }

  /** The loop reports, in list order, the records that finish their I/O. */
  lemma {:induction false} IoDeTerminaron(pol: Politica, r: PasoIo, ps: seq<Proceso>)
    requires SinRepetidos(ps)
    ensures IoDe(pol, r, ps).terminaron == r.terminaron + TerminanIo(r.n.atributos, ps, r.n.tiempoActual)
  {
    if ps != [] {
      var a := r.n.atributos;
      var t := r.n.tiempoActual;
      var ini := ps[..|ps| - 1];
      var u := ps[|ps| - 1];
      SinRepetidosInicial(ps);
      IoDeTerminaron(pol, r, ini);
      IoDeAtributos(pol, r, ini, u);
      IoDeReloj(pol, r, ini);
      var ri := IoDe(pol, r, ini);
      IoUnTickEfecto(pol, ri, u, Attr(a, u));
      if TerminaIo(a, u, t) {
        assert TerminanIo(a, ps, t) == TerminanIo(a, ini, t) + [u];
      } else {
        assert TerminanIo(a, ps, t) == TerminanIo(a, ini, t);
      }
    }
  }

  /** The loop logs one `fin_io` event per record that finishes its I/O, in list order. */
  lemma {:induction false} IoDeEventos(pol: Politica, r: PasoIo, ps: seq<Proceso>)
    requires SinRepetidos(ps)
    ensures IoDe(pol, r, ps).n.resultados
            == r.n.resultados + EventosFinIo(TerminanIo(r.n.atributos, ps, r.n.tiempoActual), r.n.tiempoActual)
  {
    if ps != [] {
      var a := r.n.atributos;
      var t := r.n.tiempoActual;
      var ini := ps[..|ps| - 1];
      var u := ps[|ps| - 1];
      SinRepetidosInicial(ps);
      IoDeEventos(pol, r, ini);
      IoDeAtributos(pol, r, ini, u);
      IoDeReloj(pol, r, ini);
      var ri := IoDe(pol, r, ini);
      var fi := TerminanIo(a, ini, t);
      assert IoDe(pol, r, ps) == IoUnTick(pol, ri, u);
      assert TerminaIo(ri.n.atributos, u, ri.n.tiempoActual) == TerminaIo(a, u, t);
      IoUnTickEventos(pol, ri, u);
      if TerminaIo(a, u, t) {
        assert TerminanIo(a, ps, t) == fi + [u];
        EventosFinIoPaso(fi, u, t);
      } else {
        assert TerminanIo(a, ps, t) == fi;
      }
    }
  }

  /** The loop body logs `fin_io` exactly for a record that finishes its I/O now. */
  lemma IoUnTickEventos(pol: Politica, r: PasoIo, u: Proceso)
    ensures IoUnTick(pol, r, u).n.resultados
            == r.n.resultados + (if TerminaIo(r.n.atributos, u, r.n.tiempoActual)
                                 then [Evento(r.n.tiempoActual, u.nombre, FinIo, Listo)] else [])
  {
    if TerminaIo(r.n.atributos, u, r.n.tiempoActual) {
    } else {
      assert r.n.resultados + [] == r.n.resultados;
    }
  }

  lemma {:induction false} ExcluirVacio<T>(s: seq<T>)
    ensures Excluir(s, {}) == s
  {
    if s != [] {
      ExcluirVacio(s[..|s| - 1]);
      assert s == s[..|s| - 1] + [s[|s| - 1]];
    }
  }

  /** The removal loop on a list without repetitions filters the removed processes out. */
  lemma {:induction false} QuitarTodosExcluir(s: seq<Proceso>, xs: seq<Proceso>)
    requires SinRepetidos(s) && SinRepetidos(xs)
    requires forall x :: x in xs ==> x in s
    ensures QuitarTodos(s, xs) == Excluir(s, Conjunto(xs))
  {
    if xs == [] {
      ExcluirVacio(s);
    } else {
      var ini := xs[..|xs| - 1];
      var y := xs[|xs| - 1];
      assert SinRepetidos(ini);
      assert y !in ini;
      assert forall x :: x in ini ==> x in xs;
      QuitarTodosExcluir(s, ini);
      ConjuntoMiembros(ini, y);
      QuitarPrimeroExcluir(s, Conjunto(ini), y);
    }
  }

  /** The removal loop leaves, of a blocked list without repetitions, the processes still blocked. */
  lemma QuitarTerminados(a: Tabla, b: seq<Proceso>, t: int)
    requires SinRepetidos(b)
    ensures QuitarTodos(b, TerminanIo(a, b, t)) == SiguenBloqueados(a, b, t)
  {
    var f := TerminanIo(a, b, t);
    TerminanIoSinRepetidos(a, b, t);
    forall x | x in f ensures x in b {
      BloqueadosMiembros(a, b, t, x);
    }
    QuitarTodosExcluir(b, f);
    ExcluirTerminanIo(a, b, t);
  }

  /**
    The state `procesar_procesos_bloqueados` leaves: the processes that
    finish I/O now leave the blocked list, which keeps the others in order,
    and join the ready list with one `fin_io` event each.
   */
  function TrasBloqueados(pol: Politica, n: Nucleo, at: Tabla): Nucleo
  {
    var f := TerminanIo(n.atributos, n.procesosBloqueados, n.tiempoActual);
    n.(atributos := at,
       procesosBloqueados := SiguenBloqueados(n.atributos, n.procesosBloqueados, n.tiempoActual),
       colaListos := EncolarTodos(pol, n.colaListos, f),
       resultados := n.resultados + EventosFinIo(f, n.tiempoActual))
  }

  /**
    `procesar_procesos_bloqueados` on a blocked list without repetitions:
    the processes that finish I/O now are exactly those blocked before this
    tick with one I/O tick left, and the new state is `TrasBloqueados`.
   */
  lemma ProcesarBloqueadosEfecto(pol: Politica, n: Nucleo)
    requires SinRepetidos(n.procesosBloqueados)
    ensures var r := ProcesarBloqueados(pol, n);
            && r.terminaron == TerminanIo(n.atributos, n.procesosBloqueados, n.tiempoActual)
            && r.n == TrasBloqueados(pol, n, r.n.atributos)
  {
    var f := TerminanIo(n.atributos, n.procesosBloqueados, n.tiempoActual);
    IoDeEfecto(pol, PasoIo(n, []), n.procesosBloqueados);
    IoDeMarco(pol, PasoIo(n, []), n.procesosBloqueados);
    assert [] + f == f;
    QuitarTerminados(n.atributos, n.procesosBloqueados, n.tiempoActual);
  }

  /** Every blocked record gets exactly one I/O tick; the others are untouched. */
  lemma ProcesarBloqueadosAtributos(pol: Politica, n: Nucleo, p: Proceso)
    requires SinRepetidos(n.procesosBloqueados)
    ensures Attr(ProcesarBloqueados(pol, n).n.atributos, p)
            == if p in n.procesosBloqueados then TrasIo(Attr(n.atributos, p), p, n.tiempoActual) else Attr(n.atributos, p)
  {
    IoDeAtributos(pol, PasoIo(n, []), n.procesosBloqueados, p);
  }

  /** A process blocked at this very tick does not lose an I/O tick in it. */
  lemma BloqueadoAhoraNoAvanza(pol: Politica, n: Nucleo, p: Proceso)
    requires SinRepetidos(n.procesosBloqueados)
    requires p in n.procesosBloqueados && Attr(n.atributos, p).tiempoBloqueo >= n.tiempoActual
    ensures p !in ProcesarBloqueados(pol, n).terminaron
    ensures Attr(ProcesarBloqueados(pol, n).n.atributos, p) == Attr(n.atributos, p)
  {
    ProcesarBloqueadosEfecto(pol, n);
    ProcesarBloqueadosAtributos(pol, n, p);
    BloqueadosMiembros(n.atributos, n.procesosBloqueados, n.tiempoActual, p);
  }

  /** One tick of ready time for `u`: its `tiempo_en_listo` and its name's counter (when present) grow by one. */
  lemma ListoUnTickEfecto(n: Nucleo, u: Proceso)
    ensures var m := ListoUnTick(n, u);
            && m == n.(atributos := m.atributos, tListoPorProceso := m.tListoPorProceso)
            && m.atributos == n.atributos[u := Attr(n.atributos, u).(tiempoEnListo := Attr(n.atributos, u).tiempoEnListo + 1)]
            && m.tListoPorProceso.Keys == n.tListoPorProceso.Keys
            && forall k :: k in n.tListoPorProceso ==>
                 m.tListoPorProceso[k] == n.tListoPorProceso[k] + (if k == u.nombre then 1 else 0)
  {
  }

  /** The arrival loop over a prefix of `ps` one element longer. */
  lemma LlegadasPrefijo(pol: Politica, n: Nucleo, ps: seq<Proceso>, i: nat)
    requires i < |ps|
    ensures var m := LlegadasDe(pol, n, ps[..i]);
            LlegadasDe(pol, n, ps[..i + 1]) == if ps[i].tiempoArrivo == m.tiempoActual then Admitir(pol, m, ps[i]) else m
  {
    assert ps[..i + 1][..i] == ps[..i];
  }

  /** The ready-time loop over a prefix of `q` one element longer. */
  lemma AcumularListoPrefijo(n: Nucleo, q: seq<Proceso>, i: nat)
    requires i < |q|
    ensures AcumularListoDe(n, q[..i + 1]) == ListoUnTick(AcumularListoDe(n, q[..i]), q[i])
  {
    assert q[..i + 1][..i] == q[..i];
  }

  /** The ready-time accrual changes only the records and the ready-time counters. */
  lemma {:induction false} AcumularListoMarco(n: Nucleo, q: seq<Proceso>)
    ensures var m := AcumularListoDe(n, q);
            m == n.(atributos := m.atributos, tListoPorProceso := m.tListoPorProceso)
  {
    if q != [] {
      AcumularListoMarco(n, q[..|q| - 1]);
    }
  }

  /** The ready-time accrual over `q`: every process gains one tick of `tiempo_en_listo` per occurrence in `q`. */
  lemma {:induction false} AcumularListoAtributos(n: Nucleo, q: seq<Proceso>, p: Proceso)
    ensures Attr(AcumularListoDe(n, q).atributos, p)
            == Attr(n.atributos, p).(tiempoEnListo := Attr(n.atributos, p).tiempoEnListo + multiset(q)[p])
  {
    if q != [] {
      var ini := q[..|q| - 1];
      var u := q[|q| - 1];
      AcumularListoAtributos(n, ini, p);
      assert q == ini + [u];
      assert multiset(q) == multiset(ini) + multiset{u};
    }
  }

  /** The ready-time counters: the same keys, each grown by the number of queued processes of that name. */
  lemma {:induction false} AcumularListoContadores(n: Nucleo, q: seq<Proceso>)
    ensures var m := AcumularListoDe(n, q);
            && m.tListoPorProceso.Keys == n.tListoPorProceso.Keys
            && forall k :: k in n.tListoPorProceso ==>
                 m.tListoPorProceso[k] == n.tListoPorProceso[k] + multiset(Nombres(q))[k]
  {
    if q != [] {
      var ini := q[..|q| - 1];
      var u := q[|q| - 1];
      AcumularListoContadores(n, ini);
      ListoUnTickEfecto(AcumularListoDe(n, ini), u);
      assert Nombres(q) == Nombres(ini) + [u.nombre];
      assert multiset(Nombres(q)) == multiset(Nombres(ini)) + multiset{u.nombre};
    }
  }

  /**
    `finalizar_proceso_completamente` with a `terminando` process at index
    `i` of the terminated list and none before it: that process, and only
    that one, becomes `terminado` with finish tick now, the last TFP tick is
    now, and one `terminacion` event is logged for it.
   */
  lemma FinalizarPrimero(n: Nucleo, i: nat)
    requires i < |n.procesosTerminados|
    requires Attr(n.atributos, n.procesosTerminados[i]).estado == Terminando
    requires forall j :: 0 <= j < i ==> Attr(n.atributos, n.procesosTerminados[j]).estado != Terminando
    ensures var p := n.procesosTerminados[i];
            var t := n.tiempoActual;
            var m := FinalizarProcesoCompletamente(n);
            && m == n.(atributos := m.atributos,
                       resultados := n.resultados + [Evento(t, p.nombre, Terminacion, Terminado)],
                       tFinPorProceso := n.tFinPorProceso[p.nombre := t],
                       tUltimoTfp := Some(t))
            && Attr(m.atributos, p) == Attr(n.atributos, p).(estado := Terminado, tiempoFin := Some(t))
            && (forall x :: x != p ==> Attr(m.atributos, x) == Attr(n.atributos, x))
            && NombreTerminando(n) == Some(p.nombre)
  {
    var r := PrimeroTerminando(n.atributos, n.procesosTerminados);
    assert r.Some?;
    assert r.value == i;
  }

  /** With no `terminando` process in the terminated list the TFP completion does nothing. */
  lemma FinalizarSinTerminando(n: Nucleo)
    requires forall j :: 0 <= j < |n.procesosTerminados| ==> Attr(n.atributos, n.procesosTerminados[j]).estado != Terminando
    ensures FinalizarProcesoCompletamente(n) == n
    ensures NombreTerminando(n) == None
  {
  }

  /** The zero-length windows: no `inicio_*` event, no window open, the running process executing. */
  lemma VentanasNulas(c: Configuracion, n: Nucleo)
    requires n.procesoActual != null && !n.aplicarTcpDespuesTip
    ensures c.tiempoTcp <= 0 ==> AplicarTcp(c, n) == EmpezarEjecucion(n)
    ensures c.tiempoTip <= 0 ==> AplicarTip(c, n) == EmpezarEjecucion(n)
    ensures var m := EmpezarEjecucion(n);
            && m.tipoBloqueo == NoBloqueo && m.tiempoRestanteBloqueo == n.tiempoRestanteBloqueo
            && Attr(m.atributos, n.procesoActual).estado == Ejecutando
            && m.resultados == n.resultados + [Evento(n.tiempoActual, n.procesoActual.nombre, InicioEjecucion, Ejecutando)]
  {
  }

  /** A positive TCP length opens a TCP window of that length with its `inicio_tcp` event. */
  lemma TcpAbre(c: Configuracion, n: Nucleo)
    requires n.procesoActual != null && c.tiempoTcp > 0
    ensures AplicarTcp(c, n) == n.(tiempoRestanteBloqueo := c.tiempoTcp, tipoBloqueo := Tcp,
              resultados := n.resultados + [Evento(n.tiempoActual, n.procesoActual.nombre, InicioTcp, BloqueadoSistema)])
  {
  }

  /** A positive TIP length opens a TIP window of that length with its `inicio_tip` event. */
  lemma TipAbre(c: Configuracion, n: Nucleo)
    requires n.procesoActual != null && c.tiempoTip > 0
    ensures AplicarTip(c, n) == n.(tiempoRestanteBloqueo := c.tiempoTip, tipoBloqueo := Tip,
              resultados := n.resultados + [Evento(n.tiempoActual, n.procesoActual.nombre, InicioTip, BloqueadoSistema)])
  {
  }

  /** A positive TFP length opens a TFP window of that length with its `inicio_tfp` event. */
  lemma TfpAbre(c: Configuracion, n: Nucleo)
    requires n.procesoActual != null && c.tiempoTfp > 0
    ensures AplicarTfp(c, n) == n.(tiempoRestanteBloqueo := c.tiempoTfp, tipoBloqueo := Tfp,
              resultados := n.resultados + [Evento(n.tiempoActual, n.procesoActual.nombre, InicioTfp, BloqueadoSistema)])
  {
  }

  /**
    Charging TCP leaves the CPU, the ready list and every other process
    alone and only appends to the log.
   */
  lemma AplicarTcpMarco(c: Configuracion, n: Nucleo, q: Proceso)
    requires n.procesoActual != null
    ensures var m := AplicarTcp(c, n);
            && m.procesoActual == n.procesoActual && m.colaListos == n.colaListos
            && m.aplicarTcpDespuesTip == n.aplicarTcpDespuesTip
            && n.resultados <= m.resultados
            && (q != n.procesoActual ==> Attr(m.atributos, q) == Attr(n.atributos, q))
  {
    if c.tiempoTcp > 0 {
      TcpAbre(c, n);
    } else {
      assert AplicarTcp(c, n) == EmpezarEjecucion(n);
    }
  }

  /** The same for charging TIP (which may go on with the owed TCP). */
  lemma AplicarTipMarco(c: Configuracion, n: Nucleo, q: Proceso)
    requires n.procesoActual != null
    ensures var m := AplicarTip(c, n);
            && m.procesoActual == n.procesoActual && m.colaListos == n.colaListos
            && n.resultados <= m.resultados
            && (q != n.procesoActual ==> Attr(m.atributos, q) == Attr(n.atributos, q))
  {
    if c.tiempoTip <= 0 && n.aplicarTcpDespuesTip {
      AplicarTcpMarco(c, n.(aplicarTcpDespuesTip := false), q);
    }
  }

  /**
    `bloquear_proceso`: the running process is appended to the blocked list
    as blocked since this tick with its full I/O length, the CPU is left
    empty, nothing else queued moves and the log only grows, first with
    `fin_ejecucion` and `bloqueo_io` at this tick.
   */
  lemma BloquearEfecto(n: Nucleo, q: Proceso)
    requires n.procesoActual != null
    ensures var p := n.procesoActual;
            var m := BloquearProceso(n);
            var a := Attr(m.atributos, p);
            && m.procesoActual == null
            && m.procesosBloqueados == n.procesosBloqueados + [p]
            && m.colaListos == n.colaListos && m.procesosTerminados == n.procesosTerminados
            && a.estado == Bloqueado && a.tiempoBloqueo == n.tiempoActual
            && a.duracionRafagasIo == p.duracionRafagasIoOriginal
            && a.cantidadRafagasCpu == Attr(n.atributos, p).cantidadRafagasCpu
            && n.resultados + [Evento(n.tiempoActual, p.nombre, FinEjecucion, Ejecutando),
                               Evento(n.tiempoActual, p.nombre, BloqueoIo, Bloqueado)] <= m.resultados
            && (q != p ==> Attr(m.atributos, q) == Attr(n.atributos, q))
            && m.tiempoRestanteBloqueo == n.tiempoRestanteBloqueo && m.tipoBloqueo == n.tipoBloqueo
  {
  }

  /**
    The end of a process's last burst: it joins the terminated list and
    leaves the CPU; with a positive TFP it waits there as `terminando`
    while a TFP window runs, otherwise it is `terminado` with its finish
    tick now. The ready and blocked lists and the other processes stay as
    they were and the log only grows.
   */
  lemma TerminarRestoEfecto(c: Configuracion, n: Nucleo, q: Proceso)
    requires n.procesoActual != null
    ensures var p := n.procesoActual;
            var m := TerminarResto(c, n);
            var a := Attr(m.atributos, p);
            && m.procesoActual == null
            && m.procesosTerminados == n.procesosTerminados + [p]
            && m.colaListos == n.colaListos && m.procesosBloqueados == n.procesosBloqueados
            && n.resultados <= m.resultados
            && (q != p ==> Attr(m.atributos, q) == Attr(n.atributos, q))
            && a.cantidadRafagasCpu == Attr(n.atributos, p).cantidadRafagasCpu
            && (c.tiempoTfp > 0 ==> a.estado == Terminando && m.tipoBloqueo == Tfp
                                    && m.tiempoRestanteBloqueo == c.tiempoTfp)
            && (c.tiempoTfp <= 0 ==> a.estado == Terminado && a.tiempoFin == Some(n.tiempoActual)
                                     && m.tFinPorProceso == n.tFinPorProceso[p.nombre := n.tiempoActual])
  {
    if c.tiempoTfp > 0 {
      TerminarConTfp(c, n);
    } else {
      TerminarSinTfp(c, n);
    }
  }

  /** The state `terminar_proceso` leaves behind a positive TFP, written out. */
  lemma TerminarConTfp(c: Configuracion, n: Nucleo)
    requires n.procesoActual != null && c.tiempoTfp > 0
    ensures var p := n.procesoActual;
            TerminarResto(c, n)
              == n.(atributos := ConEstado(n.atributos, p, Terminando),
                    procesosTerminados := n.procesosTerminados + [p], procesoActual := null,
                    resultados := n.resultados + [Evento(n.tiempoActual, p.nombre, InicioTfp, BloqueadoSistema)],
                    tiempoRestanteBloqueo := c.tiempoTfp, tipoBloqueo := Tfp)
  {
    TfpAbre(c, n);
  }

  /** The state `terminar_proceso` leaves with no TFP, written out. */
  lemma TerminarSinTfp(c: Configuracion, n: Nucleo)
    requires n.procesoActual != null && c.tiempoTfp <= 0
    ensures var p := n.procesoActual;
            var t := n.tiempoActual;
            TerminarResto(c, n)
              == n.(atributos := n.atributos[p := Attr(n.atributos, p).(tiempoFin := Some(t), estado := Terminado)],
                    procesosTerminados := n.procesosTerminados + [p], procesoActual := null,
                    resultados := n.resultados + [Evento(t, p.nombre, Terminacion, Terminado)],
                    tFinPorProceso := n.tFinPorProceso[p.nombre := t])
  {
  }

  /** `procesar_llegadas` changes only the records, the ready list, the log and the arrival bookkeeping. */
  lemma LlegadasMarco(pol: Politica, c: Configuracion, n: Nucleo)
    ensures var m := ProcesarLlegadas(pol, c, n);
            m == n.(atributos := m.atributos, colaListos := m.colaListos, resultados := m.resultados,
                    tPrimerArribo := m.tPrimerArribo, tArriboPorProceso := m.tArriboPorProceso,
                    cpuProcPorProceso := m.cpuProcPorProceso, tListoPorProceso := m.tListoPorProceso)
  {
    LlegadasEfecto(pol, n, c.procesos);
  }

  /** `procesar_procesos_bloqueados` changes only the records, the ready and blocked lists and the log. */
  lemma ProcesarBloqueadosMarco(pol: Politica, n: Nucleo)
    ensures var m := ProcesarBloqueados(pol, n).n;
            m == n.(atributos := m.atributos, colaListos := m.colaListos, resultados := m.resultados,
                    procesosBloqueados := m.procesosBloqueados)
  {
    IoDeMarco(pol, PasoIo(n, []), n.procesosBloqueados);
  }

  /** Neither an arrival nor an I/O tick touches a record's ready time. */
  lemma {:induction false} IoDeListo(pol: Politica, r: PasoIo, ps: seq<Proceso>, p: Proceso)
    ensures Attr(IoDe(pol, r, ps).n.atributos, p).tiempoEnListo == Attr(r.n.atributos, p).tiempoEnListo
  {
    if ps != [] {
      IoDeListo(pol, r, ps[..|ps| - 1], p);
      IoUnTickListo(pol, IoDe(pol, r, ps[..|ps| - 1]), ps[|ps| - 1], p);
    }
  }

  lemma IoUnTickListo(pol: Politica, r: PasoIo, u: Proceso, p: Proceso)
    ensures Attr(IoUnTick(pol, r, u).n.atributos, p).tiempoEnListo == Attr(r.n.atributos, p).tiempoEnListo
  {
    var a := Attr(r.n.atributos, u);
    if a.tiempoBloqueo < r.n.tiempoActual {
      if a.duracionRafagasIo - 1 == 0 {
        assert IoUnTick(pol, r, u).n.atributos
               == r.n.atributos[u := a.(duracionRafagasIo := 0, estado := Listo, duracionRafagasCpu := u.duracionRafagasCpuOriginal)];
      } else {
        assert IoUnTick(pol, r, u).n.atributos == r.n.atributos[u := a.(duracionRafagasIo := a.duracionRafagasIo - 1)];
      }
    }
  }

  /** The I/O loop queues exactly the processes it reports as finished, in the order it finds them. */
  lemma {:induction false} IoDeCola(pol: Politica, r: PasoIo, ps: seq<Proceso>)
    ensures var res := IoDe(pol, r, ps);
            && r.terminaron <= res.terminaron
            && res.n.colaListos == EncolarTodos(pol, r.n.colaListos, res.terminaron[|r.terminaron|..])
  {
    if ps != [] {
      var ini := ps[..|ps| - 1];
      var u := ps[|ps| - 1];
      IoDeCola(pol, r, ini);
      var ri := IoDe(pol, r, ini);
      var k := |r.terminaron|;
      var a := Attr(ri.n.atributos, u);
      if a.tiempoBloqueo < ri.n.tiempoActual && a.duracionRafagasIo - 1 == 0 {
        assert IoDe(pol, r, ps).terminaron == ri.terminaron + [u];
        assert (ri.terminaron + [u])[k..] == ri.terminaron[k..] + [u];
        EncolarTodosPaso(pol, r.n.colaListos, ri.terminaron[k..], u);
      }
    }
  }

  /** `procesar_procesos_bloqueados` queues exactly the processes that finished I/O, in blocked-list order. */
  lemma ProcesarBloqueadosCola(pol: Politica, n: Nucleo)
    ensures var r := ProcesarBloqueados(pol, n);
            r.n.colaListos == EncolarTodos(pol, n.colaListos, r.terminaron)
  {
    IoDeCola(pol, PasoIo(n, []), n.procesosBloqueados);
    var res := IoDe(pol, PasoIo(n, []), n.procesosBloqueados);
    assert res.terminaron[0..] == res.terminaron;
  }

  /**
    A blocked process whose I/O ends in this tick leaves the blocked list,
    is queued as ready with its CPU burst reset, and is reported as finished.
   */
  lemma FinIoReencola(pol: Politica, n: Nucleo, p: Proceso)
    requires SinRepetidos(n.procesosBloqueados)
    requires p in n.procesosBloqueados && TerminaIo(n.atributos, p, n.tiempoActual)
    ensures var r := ProcesarBloqueados(pol, n);
            && p in r.terminaron && p in r.n.colaListos && p !in r.n.procesosBloqueados
            && Attr(r.n.atributos, p).estado == Listo
            && Attr(r.n.atributos, p).duracionRafagasCpu == p.duracionRafagasCpuOriginal
  {
    var r := ProcesarBloqueados(pol, n);
    ProcesarBloqueadosEfecto(pol, n);
    ProcesarBloqueadosAtributos(pol, n, p);
    BloqueadosMiembros(n.atributos, n.procesosBloqueados, n.tiempoActual, p);
    EncolarTodosCasos(pol, n.colaListos, r.terminaron);
    if pol == PorPrioridad {
      InsertarTodosMiembros(n.colaListos, r.terminaron, p);
    }
  }

  /**
    The close of a TFP window with a `terminando` process at index `i` of
    the terminated list and none before it: exactly that process becomes
    `terminado` with finish tick now, with `terminacion` and then (for a
    non-empty name) `fin_tfp`; the last TFP tick is now and the window tag
    is cleared.
   */
  lemma CerrarTfpEfecto(n: Nucleo, i: nat, q: Proceso)
    requires i < |n.procesosTerminados| && n.tipoBloqueo == Tfp
    requires Attr(n.atributos, n.procesosTerminados[i]).estado == Terminando
    requires forall j :: 0 <= j < i ==> Attr(n.atributos, n.procesosTerminados[j]).estado != Terminando
    ensures var p := n.procesosTerminados[i];
            var t := n.tiempoActual;
            var m := CerrarTfp(n);
            && Attr(m.atributos, p).estado == Terminado && Attr(m.atributos, p).tiempoFin == Some(t)
            && (q != p ==> Attr(m.atributos, q) == Attr(n.atributos, q))
            && m.tUltimoTfp == Some(t) && m.tFinPorProceso == n.tFinPorProceso[p.nombre := t]
            && m.tipoBloqueo == NoBloqueo && m.tiempoRestanteBloqueo == n.tiempoRestanteBloqueo
            && m.procesoActual == n.procesoActual && m.colaListos == n.colaListos
            && m.procesosTerminados == n.procesosTerminados && m.procesosBloqueados == n.procesosBloqueados
            && m.resultados == n.resultados + [Evento(t, p.nombre, Terminacion, Terminado)]
                                            + (if p.nombre != "" then [Evento(t, p.nombre, FinTfp, SistemaLibre)] else [])
  {
    FinalizarPrimero(n, i);
    var p := n.procesosTerminados[i];
    var m1 := FinalizarProcesoCompletamente(n);
    var ev := Evento(n.tiempoActual, p.nombre, FinTfp, SistemaLibre);
    if p.nombre != "" {
      assert CerrarTfp(n) == m1.(resultados := m1.resultados + [ev], tipoBloqueo := NoBloqueo);
    } else {
      assert CerrarTfp(n) == m1.(tipoBloqueo := NoBloqueo);
    }
  }

  /** With no `terminando` process the close of a TFP window only clears the tag. */
  lemma CerrarTfpVacio(n: Nucleo)
    requires n.tipoBloqueo == Tfp
    requires forall j :: 0 <= j < |n.procesosTerminados| ==> Attr(n.atributos, n.procesosTerminados[j]).estado != Terminando
    ensures CerrarTfp(n) == n.(tipoBloqueo := NoBloqueo)
  {
    FinalizarSinTerminando(n);
  }

  /** No shared step but the clock advance itself moves the clock. */
  lemma AplicarTcpReloj(c: Configuracion, n: Nucleo)
    requires n.procesoActual != null
    ensures AplicarTcp(c, n).tiempoActual == n.tiempoActual
  {
    if c.tiempoTcp > 0 {
      TcpAbre(c, n);
    } else {
      assert AplicarTcp(c, n) == EmpezarEjecucion(n);
    }
  }

  lemma AplicarTipReloj(c: Configuracion, n: Nucleo)
    requires n.procesoActual != null
    ensures AplicarTip(c, n).tiempoActual == n.tiempoActual
  {
    if c.tiempoTip > 0 {
      TipAbre(c, n);
    } else if n.aplicarTcpDespuesTip {
      assert AplicarTip(c, n) == AplicarTcp(c, n.(aplicarTcpDespuesTip := false));
      AplicarTcpReloj(c, n.(aplicarTcpDespuesTip := false));
    } else {
      assert AplicarTip(c, n) == EmpezarEjecucion(n);
    }
  }

  lemma TerminarRestoReloj(c: Configuracion, n: Nucleo)
    requires n.procesoActual != null
    ensures TerminarResto(c, n).tiempoActual == n.tiempoActual
  {
    var p := n.procesoActual;
    if c.tiempoTfp > 0 {
      TfpAbre(c, n);
      var m := AplicarTfp(c, n);
      assert TerminarResto(c, n) == m.(atributos := ConEstado(m.atributos, p, Terminando),
                                        procesosTerminados := m.procesosTerminados + [p], procesoActual := null);
    } else {
      assert TerminarResto(c, n) == Finalizado(n.(procesosTerminados := n.procesosTerminados + [p]), p).(procesoActual := null);
    }
  }

  lemma CerrarVentanaReloj(n: Nucleo, nombre: Option<string>, tipo: Bloqueo)
    ensures CerrarVentana(n, nombre, tipo).tiempoActual == n.tiempoActual
  {
  }

  lemma FinalizarReloj(n: Nucleo)
    ensures FinalizarProcesoCompletamente(n).tiempoActual == n.tiempoActual
    ensures CerrarTfp(n).tiempoActual == n.tiempoActual
  {
    var f := FinalizarProcesoCompletamente(n);
    match PrimeroTerminando(n.atributos, n.procesosTerminados)
    case None =>
      assert f == n;
    case Some(i) =>
      assert f == Finalizado(n, n.procesosTerminados[i]).(tUltimoTfp := Some(n.tiempoActual));
    CerrarVentanaReloj(f, NombreTerminando(n), Tfp);
  }

  /** Charging TCP does not touch the running process's `proceso_nuevo` flag. */
  lemma AplicarTcpNuevo(c: Configuracion, n: Nucleo)
    requires n.procesoActual != null
    ensures Attr(AplicarTcp(c, n).atributos, n.procesoActual).procesoNuevo == Attr(n.atributos, n.procesoActual).procesoNuevo
  {
    if c.tiempoTcp > 0 {
      TcpAbre(c, n);
    } else {
      assert AplicarTcp(c, n) == EmpezarEjecucion(n);
    }
  }

  /**
    The dispatch charge: a new process is charged TIP and is new no longer,
    a returning one TCP; a positive length opens that window with its
    `inicio_*` event, a zero length logs no `inicio_*` event and the process
    starts executing at once. A zero-length TIP goes on with a TCP when one
    is owed. The CPU, the ready list and the other processes stay as they were.
   */
  lemma DespacharEfecto(c: Configuracion, n: Nucleo, q: Proceso)
    requires n.procesoActual != null
    ensures var p := n.procesoActual;
            var t := n.tiempoActual;
            var nuevo := Attr(n.atributos, p).procesoNuevo;
            var m := Despachar(c, n);
            && m.procesoActual == p && m.colaListos == n.colaListos
            && (q != p ==> Attr(m.atributos, q) == Attr(n.atributos, q))
            && !Attr(m.atributos, p).procesoNuevo
            && (nuevo && c.tiempoTip > 0 ==>
                  m.tipoBloqueo == Tip && m.tiempoRestanteBloqueo == c.tiempoTip
                  && m.resultados == n.resultados + [Evento(t, p.nombre, InicioTip, BloqueadoSistema)])
            && ((!nuevo || (c.tiempoTip <= 0 && n.aplicarTcpDespuesTip)) && c.tiempoTcp > 0 ==>
                  m.tipoBloqueo == Tcp && m.tiempoRestanteBloqueo == c.tiempoTcp
                  && m.resultados == n.resultados + [Evento(t, p.nombre, InicioTcp, BloqueadoSistema)])
            && ((if nuevo then c.tiempoTip <= 0 && (!n.aplicarTcpDespuesTip || c.tiempoTcp <= 0) else c.tiempoTcp <= 0) ==>
                  m.tipoBloqueo == NoBloqueo && m.tiempoRestanteBloqueo == n.tiempoRestanteBloqueo
                  && Attr(m.atributos, p).estado == Ejecutando
                  && m.resultados == n.resultados + [Evento(t, p.nombre, InicioEjecucion, Ejecutando)])
  {
    DespacharMarco(c, n, q);
    var p := n.procesoActual;
    var nuevo := Attr(n.atributos, p).procesoNuevo;
    if nuevo && c.tiempoTip > 0 {
      DespacharTip(c, n);
    } else if (!nuevo || n.aplicarTcpDespuesTip) && c.tiempoTcp > 0 {
      DespacharTcp(c, n);
    } else {
      DespacharDirecto(c, n);
    }
  }

  /** Which branch of the charge is taken, as the explicit state it leaves. */
  lemma DespacharTip(c: Configuracion, n: Nucleo)
    requires n.procesoActual != null && Attr(n.atributos, n.procesoActual).procesoNuevo && c.tiempoTip > 0
    ensures var p := n.procesoActual;
            var m := Despachar(c, n);
            && m.tipoBloqueo == Tip && m.tiempoRestanteBloqueo == c.tiempoTip
            && m.resultados == n.resultados + [Evento(n.tiempoActual, p.nombre, InicioTip, BloqueadoSistema)]
  {
    TipAbre(c, n);
    assert Despachar(c, n) == MarcarVisto(AplicarTip(c, n), n.procesoActual);
  }

  lemma DespacharTcp(c: Configuracion, n: Nucleo)
    requires n.procesoActual != null && c.tiempoTcp > 0
    requires var nuevo := Attr(n.atributos, n.procesoActual).procesoNuevo;
             !nuevo || (c.tiempoTip <= 0 && n.aplicarTcpDespuesTip)
    ensures var p := n.procesoActual;
            var m := Despachar(c, n);
            && m.tipoBloqueo == Tcp && m.tiempoRestanteBloqueo == c.tiempoTcp
            && m.resultados == n.resultados + [Evento(n.tiempoActual, p.nombre, InicioTcp, BloqueadoSistema)]
  {
    var p := n.procesoActual;
    if Attr(n.atributos, p).procesoNuevo {
      var n1 := n.(aplicarTcpDespuesTip := false);
      assert AplicarTip(c, n) == AplicarTcp(c, n1);
      TcpAbre(c, n1);
      assert Despachar(c, n) == MarcarVisto(AplicarTcp(c, n1), p);
    } else {
      TcpAbre(c, n);
      assert Despachar(c, n) == AplicarTcp(c, n);
    }
  }

  lemma DespacharDirecto(c: Configuracion, n: Nucleo)
    requires n.procesoActual != null
    requires if Attr(n.atributos, n.procesoActual).procesoNuevo
             then c.tiempoTip <= 0 && (!n.aplicarTcpDespuesTip || c.tiempoTcp <= 0)
             else c.tiempoTcp <= 0
    ensures var p := n.procesoActual;
            var m := Despachar(c, n);
            && m.tipoBloqueo == NoBloqueo && m.tiempoRestanteBloqueo == n.tiempoRestanteBloqueo
            && Attr(m.atributos, p).estado == Ejecutando
            && m.resultados == n.resultados + [Evento(n.tiempoActual, p.nombre, InicioEjecucion, Ejecutando)]
  {
    var p := n.procesoActual;
    if Attr(n.atributos, p).procesoNuevo {
      if n.aplicarTcpDespuesTip {
        var n1 := n.(aplicarTcpDespuesTip := false);
        assert AplicarTip(c, n) == AplicarTcp(c, n1);
        assert AplicarTcp(c, n1) == EmpezarEjecucion(n1);
        assert Despachar(c, n) == MarcarVisto(EmpezarEjecucion(n1), p);
      } else {
        assert AplicarTip(c, n) == EmpezarEjecucion(n);
        assert Despachar(c, n) == MarcarVisto(EmpezarEjecucion(n), p);
      }
    } else {
      assert Despachar(c, n) == EmpezarEjecucion(n);
    }
  }

  /** The charge leaves the CPU, the ready list, the clock and every other process alone. */
  lemma DespacharMarco(c: Configuracion, n: Nucleo, q: Proceso)
    requires n.procesoActual != null
    ensures var p := n.procesoActual;
            var m := Despachar(c, n);
            && m.procesoActual == p && m.colaListos == n.colaListos && m.tiempoActual == n.tiempoActual
            && (q != p ==> Attr(m.atributos, q) == Attr(n.atributos, q))
            && !Attr(m.atributos, p).procesoNuevo
  {
    var p := n.procesoActual;
    if Attr(n.atributos, p).procesoNuevo {
      AplicarTipMarco(c, n, q);
      AplicarTipReloj(c, n);
      assert Despachar(c, n) == MarcarVisto(AplicarTip(c, n), p);
    } else {
      AplicarTcpMarco(c, n, q);
      AplicarTcpReloj(c, n);
      assert Despachar(c, n) == AplicarTcp(c, n);
      assert Attr(n.atributos, p).procesoNuevo == false;
      AplicarTcpNuevo(c, n);
    }
  }

  /** The state after the last tick of a burst, before the process blocks or terminates. */
  function TrasUltimoTick(n: Nucleo): Nucleo
    requires n.procesoActual != null
  {
    var p := n.procesoActual;
    var x := Attr(n.atributos, p);
    n.(atributos := n.atributos[p := x.(duracionRafagasCpu := 0, cantidadRafagasCpu := x.cantidadRafagasCpu - 1)],
       cpuProc := n.cpuProc + 1, cpuProcPorProceso := Sumar(n.cpuProcPorProceso, p.nombre, 1))
  }

  /**
    The loop of `ejecutar` stops after at most `TiempoMaximo` iterations;
    when it stops earlier nothing is pending any more, and it does nothing
    when nothing is pending to begin with.
   */
  lemma {:induction false} IterarTermina<S>(paso: S -> S, pendiente: S -> bool, s: S, k: nat)
    requires k <= TiempoMaximo
    ensures var r := Iterar(paso, pendiente, s, k);
            && k <= r.1 <= TiempoMaximo
            && (r.1 < TiempoMaximo ==> !pendiente(r.0))
            && (!pendiente(s) ==> r == (s, k))
    decreases TiempoMaximo - k
  {
    if pendiente(s) && k < TiempoMaximo {
      IterarTermina(paso, pendiente, paso(s), k + 1);
    }
  }

  /** A property every iteration preserves holds of the state the loop ends in. */
  lemma {:induction false} IterarInvariante<S>(paso: S -> S, pendiente: S -> bool, inv: S -> bool, s: S, k: nat)
    requires inv(s)
    requires forall x :: inv(x) ==> inv(paso(x))
    ensures inv(Iterar(paso, pendiente, s, k).0)
    decreases TiempoMaximo - k
  {
    if pendiente(s) && k < TiempoMaximo {
      IterarInvariante(paso, pendiente, inv, paso(s), k + 1);
    }
  }

  /** The first `terminando` record of `s` is at index `i` exactly when the scan up to `i` found none before it. */
  lemma PrimeroTerminandoEn(a: Tabla, s: seq<Proceso>, i: nat)
    requires i <= |s|
    requires forall j :: 0 <= j < i ==> Attr(a, s[j]).estado != Terminando
    requires i < |s| ==> Attr(a, s[i]).estado == Terminando
    ensures PrimeroTerminando(a, s) == if i < |s| then Some(i) else None
  {
    var r := PrimeroTerminando(a, s);
    if r.Some? {
      assert Attr(a, s[r.value]).estado == Terminando;
    }
  }
}
