/**
  The ready-list discipline of the external-priority engine: `insertar_ordenado`
  as a function on sequences, the stable descending sort that
  `cola_listos.sort(key=prioridad, reverse=True)` performs, and their laws.
 */
module OrdenPE {
  import opened Procesos

  /** The PE ready-list order: non-increasing external priority. */
  predicate OrdenadaPorPrioridad(q: seq<Proceso>)
  {
    forall i, j :: 0 <= i < j < |q| ==> q[i].prioridad >= q[j].prioridad
  }

  /** The index where `insertar_ordenado` puts `p`: before the first queued process of strictly lower priority. */
  function PosicionInsercion(q: seq<Proceso>, p: Proceso): (k: nat)
    ensures k <= |q|
  {
    if q == [] then 0
    else if p.prioridad > q[0].prioridad then 0
    else 1 + PosicionInsercion(q[1..], p)
  }

  /**
    The insertion index is the first position holding a process of strictly
    lower priority than `p`, or the end of the list when there is none; it is
    the index at which the scan of `insertar_ordenado` stops.
   */
  lemma {:induction false} PosicionInsercionEsPrimera(q: seq<Proceso>, p: Proceso)
    ensures forall i :: 0 <= i < PosicionInsercion(q, p) ==> q[i].prioridad >= p.prioridad
    ensures PosicionInsercion(q, p) < |q| ==> p.prioridad > q[PosicionInsercion(q, p)].prioridad
  {
    if q != [] && p.prioridad <= q[0].prioridad {
      PosicionInsercionEsPrimera(q[1..], p);
    }
  }

  /** Any index with the characterising properties is the insertion index. */
  lemma PosicionInsercionUnica(q: seq<Proceso>, p: Proceso, i: nat)
    requires i <= |q|
    requires forall j :: 0 <= j < i ==> q[j].prioridad >= p.prioridad
    requires i < |q| ==> p.prioridad > q[i].prioridad
    ensures PosicionInsercion(q, p) == i
  {
    PosicionInsercionEsPrimera(q, p);
  }

  /** `insertar_ordenado(p)` on the ready list `q`. */
  function Insertar(q: seq<Proceso>, p: Proceso): (r: seq<Proceso>)
    ensures |r| == |q| + 1
  {
    var k := PosicionInsercion(q, p);
    q[..k] + [p] + q[k..]
  }

  /** Insertion adds exactly the inserted process and loses none. */
  lemma InsertarMulticonjunto(q: seq<Proceso>, p: Proceso)
    ensures multiset(Insertar(q, p)) == multiset(q) + multiset{p}
  {
    var k := PosicionInsercion(q, p);
    assert q == q[..k] + q[k..];
  }

  /**
    Inserting into a priority-sorted list keeps it sorted, places the new
    process after every queued process of equal or higher priority (first
    come first served among ties) and before every one of lower priority.
   */
  lemma InsertarConservaOrden(q: seq<Proceso>, p: Proceso)
    requires OrdenadaPorPrioridad(q)
    ensures OrdenadaPorPrioridad(Insertar(q, p))
    ensures var k := PosicionInsercion(q, p);
            && Insertar(q, p) == q[..k] + [p] + q[k..]
            && (forall i :: 0 <= i < k ==> q[i].prioridad >= p.prioridad)
            && (forall i :: k <= i < |q| ==> q[i].prioridad < p.prioridad)
  {
    var k := PosicionInsercion(q, p);
    var r := Insertar(q, p);
    PosicionInsercionEsPrimera(q, p);
    forall i | k <= i < |q| ensures q[i].prioridad < p.prioridad {
      assert q[k].prioridad >= q[i].prioridad;
    }
    assert forall i :: 0 <= i < k ==> r[i] == q[i];
    assert r[k] == p;
    assert forall i :: k < i < |r| ==> r[i] == q[i - 1];
    forall i, j | 0 <= i < j < |r| ensures r[i].prioridad >= r[j].prioridad {
      if j < k {
      } else if j == k {
      } else if i < k {
        assert q[i].prioridad >= q[j - 1].prioridad;
      } else if i == k {
      } else {
        assert q[i - 1].prioridad >= q[j - 1].prioridad;
      }
    }
  }

  /**
    When the head of the list outranks `p`, the head stays in front: this is
    why `pop(0)` after re-queueing a preempted process yields the former head.
   */
  lemma {:induction false} InsertarTrasCabeza(q: seq<Proceso>, p: Proceso)
    requires |q| > 0 && q[0].prioridad > p.prioridad
    ensures Insertar(q, p)[0] == q[0]
    ensures Insertar(q, p)[1..] == Insertar(q[1..], p)
  {
    var k := PosicionInsercion(q, p);
    var k1 := PosicionInsercion(q[1..], p);
    assert k == 1 + k1;
    assert q[..k] == [q[0]] + q[1..][..k1];
    assert q[k..] == q[1..][k1..];
  }

  /** Inserting the processes of `ps` one after another, as the arrival and I/O loops do. */
  function InsertarTodos(q: seq<Proceso>, ps: seq<Proceso>): (r: seq<Proceso>)
    ensures |r| == |q| + |ps|
  {
    if ps == [] then q
    else Insertar(InsertarTodos(q, ps[..|ps| - 1]), ps[|ps| - 1])
  }

  lemma InsertarTodosPaso(q: seq<Proceso>, ps: seq<Proceso>, p: Proceso)
    ensures InsertarTodos(q, ps + [p]) == Insertar(InsertarTodos(q, ps), p)
  {
    assert (ps + [p])[..|ps|] == ps;
  }

  lemma {:induction false} InsertarTodosMulticonjunto(q: seq<Proceso>, ps: seq<Proceso>)
    ensures multiset(InsertarTodos(q, ps)) == multiset(q) + multiset(ps)
  {
    if ps != [] {
      InsertarTodosMulticonjunto(q, ps[..|ps| - 1]);
      InsertarMulticonjunto(InsertarTodos(q, ps[..|ps| - 1]), ps[|ps| - 1]);
      assert ps == ps[..|ps| - 1] + [ps[|ps| - 1]];
    }
  }

  lemma {:induction false} InsertarTodosConservaOrden(q: seq<Proceso>, ps: seq<Proceso>)
    requires OrdenadaPorPrioridad(q)
    ensures OrdenadaPorPrioridad(InsertarTodos(q, ps))
  {
    if ps != [] {
      InsertarTodosConservaOrden(q, ps[..|ps| - 1]);
      InsertarConservaOrden(InsertarTodos(q, ps[..|ps| - 1]), ps[|ps| - 1]);
    }
  }

  /**
    `sort(key=prioridad, reverse=True)`: Python's sort is stable, so equal
    priorities keep their relative order, which is what inserting the
    elements one by one, each after its equals, produces.
   */
  function OrdenarPorPrioridad(q: seq<Proceso>): seq<Proceso>
  {
    InsertarTodos([], q)
  }

  /** The sort yields a priority-ordered permutation of its input. */
  lemma OrdenarOrdena(q: seq<Proceso>)
    ensures OrdenadaPorPrioridad(OrdenarPorPrioridad(q))
    ensures multiset(OrdenarPorPrioridad(q)) == multiset(q)
  {
    InsertarTodosConservaOrden([], q);
    InsertarTodosMulticonjunto([], q);
  }

  /** Sorting a list that is already in priority order leaves it as it is. */
  lemma {:induction false} OrdenarOrdenadaEsIdentidad(q: seq<Proceso>)
    requires OrdenadaPorPrioridad(q)
    ensures OrdenarPorPrioridad(q) == q
  {
    if q != [] {
      var n := |q|;
      var ini := q[..n - 1];
      assert OrdenadaPorPrioridad(ini);
      OrdenarOrdenadaEsIdentidad(ini);
      assert InsertarTodos([], q) == Insertar(ini, q[n - 1]);
      PosicionInsercionUnica(ini, q[n - 1], |ini|);
      assert q == ini + [q[n - 1]];
    }
  }

  lemma {:induction false} InsertarTodosMiembros(q: seq<Proceso>, ps: seq<Proceso>, x: Proceso)
    ensures x in InsertarTodos(q, ps) <==> x in q || x in ps
  {
    InsertarTodosMulticonjunto(q, ps);
    assert x in InsertarTodos(q, ps) <==> x in multiset(InsertarTodos(q, ps));
    assert x in q <==> x in multiset(q);
    assert x in ps <==> x in multiset(ps);
  }
}
