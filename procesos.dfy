/**
  The process record that the round-robin and external-priority engines
  manipulate, the entries of the event log they emit, and the sequence
  helpers both engines share (filters over the blocked list, list.remove).
 */
module Procesos {

  datatype Option<T> = None | Some(value: T)

  /**
    The state tags: those the engines write into a record's `estado`, and
    those they write into the `estado` entry of a logged event
    ('arrivo', 'bloqueado_sistema', 'sistema_libre'). `Nuevo` stands for the
    record's state before its arrival, which the engines never read.
   */
  datatype Estado = Nuevo | Arrivo | Listo | Ejecutando | Bloqueado | BloqueadoSistema
                  | SistemaLibre | Terminando | Terminado

  function TextoEstado(e: Estado): string
  {
    match e
    case Nuevo => "nuevo"
    case Arrivo => "arrivo"
    case Listo => "listo"
    case Ejecutando => "ejecutando"
    case Bloqueado => "bloqueado"
    case BloqueadoSistema => "bloqueado_sistema"
    case SistemaLibre => "sistema_libre"
    case Terminando => "terminando"
    case Terminado => "terminado"
  }

  /**
    The event kinds of the log, one constructor per spelling. Both spellings
    of the start and of the end of execution are kept apart: the engines
    write 'inicio ejecucion' (with a space) and 'fin_ejecucion', while
    consumers of the log also look for 'inicio_ejecucion' and 'fin ejecucion'.
   */
  datatype TipoEvento =
    | Llegada | InicioEjecucion | InicioEjecucionSubrayado | FinEjecucion | FinEjecucionEspacio
    | Preemption | PreemptionQuantum | CambioProcesoPe | BloqueoIo | InicioIo | FinIo | Terminacion
    | InicioTip | FinTip | InicioTcp | FinTcp | InicioTfp | FinTfp | FinNone

  /** The literal text of each kind. */
  function TextoEvento(k: TipoEvento): string
  {
    match k
    case Llegada => "llegada"
    case InicioEjecucion => "inicio ejecucion"
    case InicioEjecucionSubrayado => "inicio_ejecucion"
    case FinEjecucion => "fin_ejecucion"
    case FinEjecucionEspacio => "fin ejecucion"
    case Preemption => "preemption"
    case PreemptionQuantum => "preemption_quantum"
    case CambioProcesoPe => "cambio_proceso_pe"
    case BloqueoIo => "bloqueo"
    case InicioIo => "inicio_io"
    case FinIo => "fin_io"
    case Terminacion => "terminacion"
    case InicioTip => "inicio_tip"
    case FinTip => "fin_tip"
    case InicioTcp => "inicio_tcp"
    case FinTcp => "fin_tcp"
    case InicioTfp => "inicio_tfp"
    case FinTfp => "fin_tfp"
    case FinNone => "fin_None"
  }

  /** One entry of the append-only event log `resultados`. */
  datatype Evento = Evento(tiempo: int, proceso: string, evento: TipoEvento, estado: Estado)

  /**
    A process record: the constant part, fixed when the record is built from
    the input data. Object identity is what the engines' list operations
    (`in`, `remove`) compare, and references compare the same way here.
   */
  class Proceso {
    const nombre: string
    const tiempoArrivo: int
    const prioridad: int
    /** What `get_duracion_rafagas_cpu` returns: the burst length of the input. */
    const duracionRafagasCpuOriginal: int
    /** What `get_duracion_rafagas_io` returns: the I/O length of the input. */
    const duracionRafagasIoOriginal: int
    const cantidadRafagasCpuOriginal: int

    constructor (nombre: string, tiempoArrivo: int, cantidadRafagasCpu: int,
                 duracionRafagasCpu: int, duracionRafagasIo: int, prioridad: int)
      ensures this.nombre == nombre && this.tiempoArrivo == tiempoArrivo
      ensures this.prioridad == prioridad
      ensures cantidadRafagasCpuOriginal == cantidadRafagasCpu
      ensures duracionRafagasCpuOriginal == duracionRafagasCpu
      ensures duracionRafagasIoOriginal == duracionRafagasIo
    {
      this.nombre := nombre;
      this.tiempoArrivo := tiempoArrivo;
      this.prioridad := prioridad;
      cantidadRafagasCpuOriginal := cantidadRafagasCpu;
      duracionRafagasCpuOriginal := duracionRafagasCpu;
      duracionRafagasIoOriginal := duracionRafagasIo;
    }
  }

  /**
    The part of a process record the engines overwrite while they run:
    remaining bursts, the current burst and I/O countdowns, the lifecycle
    state, the first-dispatch flag, ticks spent ready, the tick it blocked at
    and the finish tick that `calcular_tiempo_retorno` is given.
   */
  datatype Atributos = Atributos(
    cantidadRafagasCpu: int, duracionRafagasCpu: int, duracionRafagasIo: int,
    estado: Estado, procesoNuevo: bool, tiempoEnListo: int, tiempoBloqueo: int,
    tiempoFin: Option<int>)

  /** The attributes of a freshly built record. */
  function Iniciales(p: Proceso): Atributos
  {
    Atributos(p.cantidadRafagasCpuOriginal, p.duracionRafagasCpuOriginal, p.duracionRafagasIoOriginal,
              Nuevo, true, 0, 0, None)
  }

  /** The overwritten attributes of every record; a record not in the map still has its initial ones. */
  type Tabla = map<Proceso, Atributos>

  function Attr(t: Tabla, p: Proceso): Atributos
  {
    if p in t then t[p] else Iniciales(p)
  }

  function ConEstado(t: Tabla, p: Proceso, e: Estado): Tabla
  {
    t[p := Attr(t, p).(estado := e)]
  }

  /** Two state changes on distinct records: each gets its state, every other record is untouched. */
  lemma ConEstadoAttr(t: Tabla, p: Proceso, e: Estado, h: Proceso, f: Estado, q: Proceso)
    requires p != h
    ensures var r := ConEstado(ConEstado(t, p, e), h, f);
            && Attr(r, p) == Attr(t, p).(estado := e) && Attr(r, h) == Attr(t, h).(estado := f)
            && (q != p && q != h ==> Attr(r, q) == Attr(t, q))
  {
  }

  /** `d[k] += v` on a counter map; a missing key (which the engines never meet) leaves the map as it is. */
  function Sumar(m: map<string, int>, k: string, v: int): map<string, int>
  {
    if k in m then m[k := m[k] + v] else m
  }

  predicate SinRepetidos<T(==)>(s: seq<T>)
  {
    forall i, j :: 0 <= i < j < |s| ==> s[i] != s[j]
  }

  /** Dropping the last element of a list without repetitions leaves one without it. */
  lemma SinRepetidosInicial<T>(s: seq<T>)
    requires s != [] && SinRepetidos(s)
    ensures SinRepetidos(s[..|s| - 1]) && s[|s| - 1] !in s[..|s| - 1]
  {
    var ini := s[..|s| - 1];
    forall k | 0 <= k < |ini| ensures ini[k] != s[|s| - 1] {
      assert ini[k] == s[k];
    }
  }

  /** Python's `list.remove(x)`: drops the first occurrence of `x` (the engines never remove an absent one). */
  function QuitarPrimero<T(==)>(s: seq<T>, x: T): seq<T>
  {
    if s == [] then []
    else if s[0] == x then s[1..]
    else [s[0]] + QuitarPrimero(s[1..], x)
  }

  /** `remove` drops exactly one occurrence of a present element and leaves a list without it unchanged. */
  lemma {:induction false} QuitarPrimeroMulticonjunto<T>(s: seq<T>, x: T)
    ensures x in s ==> |QuitarPrimero(s, x)| == |s| - 1 && multiset(QuitarPrimero(s, x)) == multiset(s) - multiset{x}
    ensures x !in s ==> QuitarPrimero(s, x) == s
  {
    if s != [] {
      assert s == [s[0]] + s[1..];
      if s[0] != x {
        QuitarPrimeroMulticonjunto(s[1..], x);
      }
    }
  }

  /** The elements of `s` that are not in `x`, in order. */
  function Excluir<T(==)>(s: seq<T>, x: set<T>): (r: seq<T>)
    ensures forall y :: y in r ==> y in s && y !in x
    ensures forall y :: y in s && y !in x ==> y in r
  {
    if s == [] then []
    else Excluir(s[..|s| - 1], x) + (if s[|s| - 1] in x then [] else [s[|s| - 1]])
  }

  lemma {:induction false} QuitarPrimeroConcat<T>(a: seq<T>, b: seq<T>, x: T)
    requires x in a + b
    ensures QuitarPrimero(a + b, x)
         == if x in a then QuitarPrimero(a, x) + b else a + QuitarPrimero(b, x)
  {
    if a == [] {
      assert a + b == b;
    } else if a[0] == x {
      QuitarPrimeroConcatCabeza(a, b, x);
    } else {
      assert (a + b)[1..] == a[1..] + b;
      QuitarPrimeroConcat(a[1..], b, x);
      MiembroCola(a, x);
      if x in a[1..] {
        QuitarPrimeroConcatDentro(a, b, x);
      } else {
        QuitarPrimeroConcatFuera(a, b, x);
      }
    }
  }

  /** `QuitarPrimeroConcat` when the head of `a` is the element removed. */
  lemma QuitarPrimeroConcatCabeza<T>(a: seq<T>, b: seq<T>, x: T)
    requires a != [] && a[0] == x
    ensures QuitarPrimero(a + b, x) == QuitarPrimero(a, x) + b
  {
    assert (a + b)[1..] == a[1..] + b;
  }

  /** `QuitarPrimeroConcat` past a kept head, when the element is in the tail of `a`. */
  lemma QuitarPrimeroConcatDentro<T>(a: seq<T>, b: seq<T>, x: T)
    requires a != [] && a[0] != x
    requires QuitarPrimero(a[1..] + b, x) == QuitarPrimero(a[1..], x) + b
    ensures QuitarPrimero(a + b, x) == QuitarPrimero(a, x) + b
  {
    var h := [a[0]];
    assert (a + b)[0] == a[0] && (a + b)[1..] == a[1..] + b;
    assert h + (QuitarPrimero(a[1..], x) + b) == (h + QuitarPrimero(a[1..], x)) + b;
  }

  /** `QuitarPrimeroConcat` past a kept head, when the element is not in `a`. */
  lemma QuitarPrimeroConcatFuera<T>(a: seq<T>, b: seq<T>, x: T)
    requires a != [] && a[0] != x
    requires QuitarPrimero(a[1..] + b, x) == a[1..] + QuitarPrimero(b, x)
    ensures QuitarPrimero(a + b, x) == a + QuitarPrimero(b, x)
  {
    var h := [a[0]];
    assert (a + b)[0] == a[0] && (a + b)[1..] == a[1..] + b;
    assert a == h + a[1..];
    assert h + (a[1..] + QuitarPrimero(b, x)) == (h + a[1..]) + QuitarPrimero(b, x);
  }

  /** An element other than the head of `a` is in `a` exactly when it is in the tail. */
  lemma MiembroCola<T>(a: seq<T>, x: T)
    requires a != [] && a[0] != x
    ensures x in a <==> x in a[1..]
  {
    assert a == [a[0]] + a[1..];
  }

  lemma {:induction false} ExcluirAjeno<T>(s: seq<T>, x: set<T>, y: T)
    requires y !in s
    ensures Excluir(s, x + {y}) == Excluir(s, x)
  {
    if s != [] {
      ExcluirAjeno(s[..|s| - 1], x, y);
    }
  }

  /**
    Removing, one at a time, elements of a list without repetitions is the
    same as filtering them out.
   */
  lemma {:induction false} QuitarPrimeroExcluir<T>(s: seq<T>, x: set<T>, y: T)
    requires SinRepetidos(s) && y in s && y !in x
    ensures QuitarPrimero(Excluir(s, x), y) == Excluir(s, x + {y})
  {
    var n := |s|;
    var ini := s[..n - 1];
    var u := s[n - 1];
    assert SinRepetidos(ini);
    var cola := if u in x then [] else [u];
    assert Excluir(s, x) == Excluir(ini, x) + cola;
    if y in ini {
      assert u != y;
      assert y in Excluir(ini, x);
      QuitarPrimeroExcluir(ini, x, y);
      QuitarPrimeroConcat(Excluir(ini, x), cola, y);
      assert Excluir(s, x + {y}) == Excluir(ini, x + {y}) + cola;
    } else {
      assert u == y;
      assert cola == [y];
      ExcluirAjeno(ini, x, y);
      QuitarPrimeroConcat(Excluir(ini, x), cola, y);
      assert Excluir(s, x + {y}) == Excluir(ini, x + {y}) + [];
    }
  }

  /** The processes of `ps` whose arrival tick is `t`, in list order. */
  function Llegadas(ps: seq<Proceso>, t: int): seq<Proceso>
  {
    if ps == [] then []
    else Llegadas(ps[..|ps| - 1], t) + (if ps[|ps| - 1].tiempoArrivo == t then [ps[|ps| - 1]] else [])
  }

  lemma {:induction false} LlegadasMiembros(ps: seq<Proceso>, t: int, p: Proceso)
    ensures p in Llegadas(ps, t) <==> p in ps && p.tiempoArrivo == t
  {
    if ps != [] {
      LlegadasMiembros(ps[..|ps| - 1], t, p);
      assert ps == ps[..|ps| - 1] + [ps[|ps| - 1]];
    }
  }

  lemma {:induction false} LlegadasSinRepetidos(ps: seq<Proceso>, t: int)
    requires SinRepetidos(ps)
    ensures SinRepetidos(Llegadas(ps, t))
  {
    if ps != [] {
      var ini := ps[..|ps| - 1];
      assert SinRepetidos(ini);
      LlegadasSinRepetidos(ini, t);
      LlegadasMiembros(ini, t, ps[|ps| - 1]);
      assert ps[|ps| - 1] !in ini;
    }
  }

  lemma LlegadasPaso(ps: seq<Proceso>, i: nat, t: int)
    requires i < |ps|
    ensures Llegadas(ps[..i + 1], t) == Llegadas(ps[..i], t) + (if ps[i].tiempoArrivo == t then [ps[i]] else [])
  {
    assert ps[..i + 1][..i] == ps[..i];
  }

  /** The `llegada` events that `procesar_llegadas` logs for `ps` at tick `t`. */
  function EventosLlegada(ps: seq<Proceso>, t: int): (r: seq<Evento>)
    ensures |r| == |ps|
    ensures forall i :: 0 <= i < |ps| ==> r[i] == Evento(t, ps[i].nombre, Llegada, Arrivo)
  {
    if ps == [] then []
    else EventosLlegada(ps[..|ps| - 1], t) + [Evento(t, ps[|ps| - 1].nombre, Llegada, Arrivo)]
  }

  lemma EventosLlegadaPaso(ps: seq<Proceso>, p: Proceso, t: int)
    ensures EventosLlegada(ps + [p], t) == EventosLlegada(ps, t) + [Evento(t, p.nombre, Llegada, Arrivo)]
  {
    assert (ps + [p])[..|ps|] == ps;
  }

  /** A blocked process ends its I/O at tick `t`: it was blocked before `t` and one I/O tick is left. */
  predicate TerminaIo(a: Tabla, p: Proceso, t: int)
  {
    Attr(a, p).tiempoBloqueo < t && Attr(a, p).duracionRafagasIo == 1
  }

  /** The blocked processes that finish I/O at tick `t`, in blocked-list order. */
  function TerminanIo(a: Tabla, s: seq<Proceso>, t: int): seq<Proceso>
  {
    if s == [] then []
    else TerminanIo(a, s[..|s| - 1], t) + (if TerminaIo(a, s[|s| - 1], t) then [s[|s| - 1]] else [])
  }

  /** The blocked processes that stay blocked after tick `t`, in blocked-list order. */
  function SiguenBloqueados(a: Tabla, s: seq<Proceso>, t: int): seq<Proceso>
  {
    if s == [] then []
    else SiguenBloqueados(a, s[..|s| - 1], t) + (if TerminaIo(a, s[|s| - 1], t) then [] else [s[|s| - 1]])
  }

  /** Finishing processes and still-blocked processes split the blocked list. */
  lemma {:induction false} BloqueadosMiembros(a: Tabla, s: seq<Proceso>, t: int, p: Proceso)
    ensures p in TerminanIo(a, s, t) <==> p in s && TerminaIo(a, p, t)
    ensures p in SiguenBloqueados(a, s, t) <==> p in s && !TerminaIo(a, p, t)
  {
    if s != [] {
      BloqueadosMiembros(a, s[..|s| - 1], t, p);
      assert s == s[..|s| - 1] + [s[|s| - 1]];
    }
  }

  lemma {:induction false} TerminanIoSinRepetidos(a: Tabla, s: seq<Proceso>, t: int)
    requires SinRepetidos(s)
    ensures SinRepetidos(TerminanIo(a, s, t))
  {
    if s != [] {
      var ini := s[..|s| - 1];
      assert SinRepetidos(ini);
      TerminanIoSinRepetidos(a, ini, t);
      BloqueadosMiembros(a, ini, t, s[|s| - 1]);
      assert s[|s| - 1] !in ini;
    }
  }

  lemma {:induction false} SiguenBloqueadosSinRepetidos(a: Tabla, s: seq<Proceso>, t: int)
    requires SinRepetidos(s)
    ensures SinRepetidos(SiguenBloqueados(a, s, t))
  {
    if s != [] {
      var ini := s[..|s| - 1];
      assert SinRepetidos(ini);
      SiguenBloqueadosSinRepetidos(a, ini, t);
      BloqueadosMiembros(a, ini, t, s[|s| - 1]);
      assert s[|s| - 1] !in ini;
    }
  }

  /** The elements of `xs`, as a set. */
  function Conjunto(xs: seq<Proceso>): set<Proceso>
  {
    if xs == [] then {} else Conjunto(xs[..|xs| - 1]) + {xs[|xs| - 1]}
  }

  /** `Conjunto` holds exactly the members of the list. */
  lemma {:induction false} ConjuntoMiembros(xs: seq<Proceso>, x: Proceso)
    ensures x in Conjunto(xs) <==> x in xs
  {
    if xs != [] {
      ConjuntoMiembros(xs[..|xs| - 1], x);
      assert xs == xs[..|xs| - 1] + [xs[|xs| - 1]];
    }
  }

  /**
    Removing the processes that finished I/O from a blocked list without
    repetitions leaves exactly the processes that are still blocked.
   */
  lemma {:induction false} ExcluirTerminanIo(a: Tabla, s: seq<Proceso>, t: int)
    requires SinRepetidos(s)
    ensures Excluir(s, Conjunto(TerminanIo(a, s, t))) == SiguenBloqueados(a, s, t)
  {
    if s != [] {
      var ini := s[..|s| - 1];
      var u := s[|s| - 1];
      assert SinRepetidos(ini);
      assert u !in ini;
      var fi := TerminanIo(a, ini, t);
      var previos := Conjunto(fi);
      BloqueadosMiembros(a, ini, t, u);
      ConjuntoMiembros(fi, u);
      ExcluirTerminanIo(a, ini, t);
      if TerminaIo(a, u, t) {
        assert TerminanIo(a, s, t) == fi + [u];
        assert (fi + [u])[..|fi|] == fi;
        assert Conjunto(fi + [u]) == previos + {u};
        assert Excluir(s, previos + {u}) == Excluir(ini, previos + {u});
        ExcluirAjeno(ini, previos, u);
      } else {
        assert TerminanIo(a, s, t) == fi;
        assert u !in previos;
        assert Excluir(s, previos) == Excluir(ini, previos) + [u];
      }
    }
  }

  /** The `fin_io` events logged at tick `t` for the processes of `s`. */
  function EventosFinIo(s: seq<Proceso>, t: int): (r: seq<Evento>)
    ensures |r| == |s|
    ensures forall i :: 0 <= i < |s| ==> r[i] == Evento(t, s[i].nombre, FinIo, Listo)
  {
    if s == [] then []
    else EventosFinIo(s[..|s| - 1], t) + [Evento(t, s[|s| - 1].nombre, FinIo, Listo)]
  }

  function Nombres(s: seq<Proceso>): (r: seq<string>)
    ensures |r| == |s|
    ensures forall i :: 0 <= i < |s| ==> r[i] == s[i].nombre
  {
    if s == [] then [] else Nombres(s[..|s| - 1]) + [s[|s| - 1].nombre]
  }

  /** The name of every process of `s` is among its names. */
  lemma NombresMiembros(s: seq<Proceso>, p: Proceso)
    requires p in s
    ensures p.nombre in Nombres(s)
  {
    var i :| 0 <= i < |s| && s[i] == p;
    assert Nombres(s)[i] == p.nombre;
  }

  lemma NombresPaso(s: seq<Proceso>, p: Proceso)
    ensures Nombres(s + [p]) == Nombres(s) + [p.nombre]
  {
    assert (s + [p])[..|s|] == s;
  }

  /** Appending one name after names already appended to `pre`. */
  lemma NombresTrasPrefijo(pre: seq<string>, s: seq<Proceso>, p: Proceso)
    ensures (pre + Nombres(s)) + [p.nombre] == pre + Nombres(s + [p])
  {
    NombresPaso(s, p);
  }

  /** The index of the first record of `s` in state `Terminando`, if any. */
  function PrimeroTerminando(a: Tabla, s: seq<Proceso>): (r: Option<nat>)
    ensures r.Some? ==> r.value < |s| && Attr(a, s[r.value]).estado == Terminando
    ensures r.Some? ==> forall j :: 0 <= j < r.value ==> Attr(a, s[j]).estado != Terminando
    ensures r.None? ==> forall j :: 0 <= j < |s| ==> Attr(a, s[j]).estado != Terminando
  {
    if s == [] then None
    else if Attr(a, s[0]).estado == Terminando then Some(0)
    else
      match PrimeroTerminando(a, s[1..])
      case None => None
      case Some(k) => Some(k + 1)
  }

  /** `m` after `m[p.nombre] = v` for every process `p` of `ps`, in order. */
  function Anotar(m: map<string, int>, ps: seq<Proceso>, v: int): map<string, int>
  {
    if ps == [] then m
    else Anotar(m, ps[..|ps| - 1], v)[ps[|ps| - 1].nombre := v]
  }

  /** The keys of the annotated map are the old keys plus the names; every name maps to `v`, other keys keep their value. */
  lemma {:induction false} AnotarEfecto(m: map<string, int>, ps: seq<Proceso>, v: int)
    ensures forall n :: n in Anotar(m, ps, v) <==> n in m || n in Nombres(ps)
    ensures forall p :: p in ps ==> p.nombre in Anotar(m, ps, v) && Anotar(m, ps, v)[p.nombre] == v
    ensures forall n :: n in m && n !in Nombres(ps) ==> Anotar(m, ps, v)[n] == m[n]
  {
    if ps != [] {
      var ini := ps[..|ps| - 1];
      AnotarEfecto(m, ini, v);
      assert Nombres(ps) == Nombres(ini) + [ps[|ps| - 1].nombre];
      assert ps == ini + [ps[|ps| - 1]];
    }
  }

  /**
    The index of the first process of `q` whose name is not in `recien`:
    the dispatch rule that keeps a process that finished I/O in this tick
    from being selected in the same tick.
   */
  function PrimerSeleccionable(q: seq<Proceso>, recien: seq<string>): (r: Option<nat>)
    ensures r.Some? ==> r.value < |q| && q[r.value].nombre !in recien
    ensures r.Some? ==> forall j :: 0 <= j < r.value ==> q[j].nombre in recien
    ensures r.None? ==> forall j :: 0 <= j < |q| ==> q[j].nombre in recien
  {
    if q == [] then None
    else if q[0].nombre !in recien then Some(0)
    else
      match PrimerSeleccionable(q[1..], recien)
      case None => None
      case Some(k) => Some(k + 1)
  }

  /**
    No entry of the log has the kind 'inicio_ejecucion' (with an underscore),
    which is the spelling the simulator's Gantt pairing looks for; the
    engines spell the start of execution 'inicio ejecucion'.
   */
  predicate SinInicioEjecucionSubrayado(log: seq<Evento>)
  {
    forall i :: 0 <= i < |log| ==> log[i].evento != InicioEjecucionSubrayado
  }

  lemma AnotarPaso(m: map<string, int>, ps: seq<Proceso>, p: Proceso, v: int)
    ensures Anotar(m, ps + [p], v) == Anotar(m, ps, v)[p.nombre := v]
  {
    assert (ps + [p])[..|ps|] == ps;
  }

  /** Python truthiness of the optional name that `procesar_tiempo_bloqueo` keeps. */
  predicate NombreVerdadero(n: Option<string>)
  {
    n.Some? && n.value != ""
  }

  /** Being a prefix is transitive. */
  lemma PrefijoTransitivo<T>(a: seq<T>, b: seq<T>, d: seq<T>)
    requires a <= b && b <= d
    ensures a <= d
  {
    assert d[..|a|] == d[..|b|][..|a|];
  }
}
