# CPU scheduling simulator: the two engines, the batch statistics and the Gantt data

This project models the core of a teaching simulator of CPU scheduling. A
batch of processes, each with an arrival tick, an external priority, a number
of CPU bursts, a burst length and an I/O length, is run tick by tick under one
of two engines:

- **PE** (external priority with preemption): the ready list is kept in
  non-increasing priority order, first come first served among equal
  priorities, and a waiting process of higher priority preempts the running
  one.
- **RR** (round robin): the ready list is served first in, first out, and a
  process whose quantum runs out mid-burst goes back to the tail.

Both engines charge operating-system overhead as windows that occupy the CPU:

- TIP, at a process's first dispatch;
- TCP, at every later dispatch;
- TFP, when a process finishes.

While a window is open, the process on the CPU does not execute. Each engine
logs every transition as an event `(tick, process, kind, state)`, and
`obtener_estadisticas_cpu` reports the CPU split: process time, system time
(`cpu_so`) and idle time.

Around the engines, the project models three other pieces:

- the integration layer that builds the process records from the interface's rows;
- the integer batch statistics and the pairing of execution starts with terminations;
- the part of the PDF report that rebuilds per-process Gantt segments from the log, decides each cell's content, and splits the time axis into windows of 30 ticks.

## Layout

- `procesos.dfy`, module `Procesos`:
  - the process record (a class with the constant part of a record);
  - the attributes the engines overwrite, kept in a table from record to attributes;
  - the event kinds, with both spellings of the execution start and end;
  - list helpers (`remove`, filters over the blocked list).
- `nucleo.dfy`, module `Motor`:
  - the state both engine classes share;
  - the methods whose bodies are the same in both engines (arrivals, the I/O loop, ready-time accrual, TIP/TCP/TFP charging, blocking, the terminating steps, window closes);
  - the `while` loop of `ejecutar` with its 1000-iteration cap;
  - `obtener_estadisticas_cpu`.
- `motor_propiedades.dfy`, module `PropiedadesMotor`: what those shared steps do.
- `pe_orden.dfy`, module `OrdenPE`: `insertar_ordenado` of PE, and the stable descending sort by priority.
- `pe_modelo.dfy` and `pe_propiedades.dfy`, modules `ModeloPE` and `PropiedadesPE`: the PE engine as functions on its state, and its properties.
- `pe.dfy`, module `AlgoritmoPE`: class `PE`. Each of its methods is proved to leave the state its model function gives.
- `rr_modelo.dfy`, `rr_propiedades.dfy` and `rr.dfy`: the same three layers for RR (`ModeloRR`, `PropiedadesRR`, `AlgoritmoRR`, class `RR`).
- `simulador.dfy`, module `Simulador`: `crear_procesos_desde_datos`, the integer part of `_procesar_resultados_fcfs`, and `_procesar_datos_gantt`.
- `exportador.dfy`, module `ExportadorPdf`: `_procesar_eventos_gantt` (its three passes as loops with their specifications), `_determinar_contenido_celda_gantt`, `_encontrar_proceso_destino`, and the window loop of `_construir_tabla_gantt`.

Where the engines are concerned, the model follows the code, including these behaviours:

- The closing tick of a TIP or TCP window counts towards both `cpu_so` and
  `cpu_proc`, because the first execution tick is taken at once.
- In the PE corner case, a window closes while a process of higher priority
  waits. `cpu_proc` and the yielding process's counter then drop by one,
  although none of its ticks ran in this window (the window's ticks go to
  `cpu_so` only), so a process that never executed is left with a counter of
  -1. The other process runs without a window of its own.

## Model

The table names the members whose contracts state a property. The functions that specify the engines' and the reports' loops need no row of their own: each one models the source lines cited in the row of the method proved equal to it.
- Every function of `ModeloPE` and `ModeloRR` specifies the `AlgoritmoPE.PE` or `AlgoritmoRR.RR` method of the same name. For example, `ModeloPE.CambiarProceso` specifies `AlgoritmoPE.PE.CambiarProceso`, and `ModeloRR.CerrarTcpPendiente` specifies `AlgoritmoRR.RR.CerrarTcpPendiente`. The one exception is `Correr`, which specifies `Ejecutar` in both.
- The engine steps shared by both engines are in `Motor`:
  - `Motor.AplicarTcp`, `Motor.AplicarTip` and `Motor.AplicarTfp` specify both classes' methods of the same name.
  - `Motor.TerminarResto` specifies `AlgoritmoRR.RR.TerminarResto`. In PE it is part of `ModeloPE.TerminarProceso`.
  - `Motor.Despachar` is the dispatch part of both `SeleccionarSiguienteProceso` functions.
  - `Motor.ProcesarBloqueados` specifies both `ProcesarProcesosBloqueados` methods.
- In `ExportadorPdf`:
  - `PrimeraPasada` specifies `RegistrarLlegadas`.
  - `SegundaPasada` specifies `PintarVentanas`.
  - `TerceraPasada` specifies `RegistrarProcesos`.
  - `EventosGantt` specifies `ProcesarEventosGantt`.
- In `Simulador`:
  - `Entradas` specifies `LeerEventos`.
  - `Emitir` specifies `EmitirEntradas`.
  - `GanttDe` specifies `ProcesarDatosGantt`.
- `OrdenPE.OrdenarPorPrioridad` is the `sorted` call that its rows `OrdenPE.OrdenarOrdena` and `OrdenPE.OrdenarOrdenadaEsIdentidad` state properties of.

| member | source | states |
|---|---|---|
| Procesos.Proceso.constructor | src/simulador/simulador.py:33-40 | a record holds exactly the name, arrival tick, burst count, burst length, I/O length and priority it is built with |
| Procesos.QuitarPrimeroMulticonjunto | src/simulador/algoritmos/PE.py:471-473 | `list.remove` drops exactly one occurrence of a present element and leaves a list without it unchanged |
| Procesos.QuitarPrimeroExcluir | src/simulador/algoritmos/PE.py:471-473 | removing finished processes one by one from a list without repetitions equals filtering them out |
| Procesos.LlegadasMiembros | src/simulador/algoritmos/PE.py:60-62 | a process is among the arrivals of tick t exactly when it is in the input and its arrival tick is t |
| Procesos.LlegadasSinRepetidos | src/simulador/algoritmos/PE.py:60-62 | the arrivals of a tick taken from a list without repetitions have none |
| Procesos.EventosLlegada | src/simulador/algoritmos/PE.py:63-79 | one `llegada` event per arriving process, at the tick, under its name |
| Procesos.BloqueadosMiembros | src/simulador/algoritmos/PE.py:445-473 | the processes that finish I/O and those still blocked split the blocked list: each blocked process is in exactly one part |
| Procesos.TerminanIoSinRepetidos | src/simulador/algoritmos/PE.py:445-473 | the processes that finish I/O, taken from a list without repetitions, have none |
| Procesos.SiguenBloqueadosSinRepetidos | src/simulador/algoritmos/PE.py:445-473 | the processes left blocked, taken from a list without repetitions, have none |
| Procesos.ExcluirTerminanIo | src/simulador/algoritmos/PE.py:471-473 | filtering the finished processes out of the blocked list leaves exactly those still blocked |
| Procesos.EventosFinIo | src/simulador/algoritmos/PE.py:456-465 | one `fin_io` event per process that finishes I/O, in blocked-list order |
| Procesos.PrimeroTerminando | src/simulador/algoritmos/PE.py:689-691 | the index of the first `terminando` record of the terminated list; none before it is `terminando`; None when no record is |
| Procesos.AnotarEfecto | src/simulador/algoritmos/PE.py:63-79 | the annotated counter map keeps its keys, adds the names, maps each name to the given value, and leaves other keys alone |
| Procesos.PrimerSeleccionable | src/simulador/algoritmos/PE.py:326-334 | the index of the first ready process whose name did not just finish I/O; every process before it did; None when all did |
| Procesos.ConEstadoAttr | src/simulador/algoritmos/PE.py:148-156 | two state changes on distinct records give each its state and leave every other record untouched |
| Motor.ObtenerEstadisticasCpu | src/simulador/algoritmos/PE.py:268-297 | process and SO time are the counters; the total is last TFP minus first arrival, else clock minus first arrival, else 0; idle is never negative and is the total minus process and SO time when that is not negative, else 0; the per-process maps are passed through |
| PropiedadesMotor.EncolarTodosCasos | src/simulador/algoritmos/RR.py:76-81 | a batch is queued by repeated priority insertion under PE and appended at the tail under RR |
| PropiedadesMotor.LlegadasEfecto | src/simulador/algoritmos/PE.py:58-79 | exactly the processes arriving now are queued, in input order, each with one `llegada` event, arrival tick now and zero counters; the first arrival tick is set once; nothing else changes but the records' states |
| PropiedadesMotor.LlegadasAtributos | src/simulador/algoritmos/PE.py:64-65 | every arriving record, and only those, is `listo` after the arrivals |
| PropiedadesMotor.LlegadasMulticonjunto | src/simulador/algoritmos/PE.py:58-79 | under either policy the arrivals add exactly the arriving processes to the ready list and lose none |
| PropiedadesMotor.LlegadasConservaOrden | src/simulador/algoritmos/PE.py:58-79 | PE's arrivals keep a priority-ordered ready list ordered |
| PropiedadesMotor.IoUnTickEfecto | src/simulador/algoritmos/PE.py:445-468 | one I/O tick for a process not blocked in this tick: the countdown drops by one; at 0 the process is ready with its CPU burst reset, queued, and logged with `fin_io` |
| PropiedadesMotor.IoUnTickMarco | src/simulador/algoritmos/PE.py:445-468 | the I/O loop body changes only records, the ready list and the log |
| PropiedadesMotor.IoDeMarco | src/simulador/algoritmos/PE.py:445-468 | the whole I/O loop changes only records, the ready list and the log |
| PropiedadesMotor.IoDeAtributos | src/simulador/algoritmos/PE.py:445-468 | over a blocked list without repetitions every blocked record gets exactly one I/O tick |
| PropiedadesMotor.IoDeEfecto | src/simulador/algoritmos/PE.py:445-468 | the processes that finish I/O are queued in blocked-list order with one `fin_io` each |
| PropiedadesMotor.IoDeTerminaron | src/simulador/algoritmos/PE.py:445-468 | the loop reports, in list order, exactly the records that finish their I/O |
| PropiedadesMotor.IoDeEventos | src/simulador/algoritmos/PE.py:456-465 | the loop logs one `fin_io` per finishing record, in list order |
| PropiedadesMotor.IoUnTickEventos | src/simulador/algoritmos/PE.py:456-465 | the loop body logs `fin_io` exactly for a record whose I/O ends now |
| PropiedadesMotor.QuitarTodosExcluir | src/simulador/algoritmos/PE.py:471-473 | the removal loop on a list without repetitions filters the removed processes out |
| PropiedadesMotor.QuitarTerminados | src/simulador/algoritmos/PE.py:471-473 | the removal loop leaves exactly the processes still blocked |
| PropiedadesMotor.ProcesarBloqueadosEfecto | src/simulador/algoritmos/PE.py:436-473 | the processes that finish I/O now are exactly those blocked before this tick with one I/O tick left; the new state is the one stated in full |
| PropiedadesMotor.ProcesarBloqueadosAtributos | src/simulador/algoritmos/PE.py:436-473 | every blocked record gets exactly one I/O tick; the others are untouched |
| PropiedadesMotor.BloqueadoAhoraNoAvanza | src/simulador/algoritmos/PE.py:447-449 | a process blocked at this very tick does not lose an I/O tick in it |
| PropiedadesMotor.ListoUnTickEfecto | src/simulador/algoritmos/PE.py:233-237 | one tick of ready time: `tiempo_en_listo` and the name's counter, when present, grow by one |
| PropiedadesMotor.AcumularListoMarco | src/simulador/algoritmos/PE.py:233-237 | the ready-time loop changes only records and ready-time counters |
| PropiedadesMotor.AcumularListoAtributos | src/simulador/algoritmos/PE.py:233-237 | every process gains one tick of ready time per occurrence in the ready list |
| PropiedadesMotor.AcumularListoContadores | src/simulador/algoritmos/PE.py:233-237 | the counters keep their keys, each grown by the number of queued processes of that name |
| PropiedadesMotor.FinalizarPrimero | src/simulador/algoritmos/PE.py:687-705 | the first `terminando` record, and only it, becomes `terminado` with finish tick now; the last TFP tick is now; one `terminacion` is logged |
| PropiedadesMotor.FinalizarSinTerminando | src/simulador/algoritmos/PE.py:687-705 | with no `terminando` record the completion does nothing |
| PropiedadesMotor.VentanasNulas | src/simulador/algoritmos/PE.py:475-553 | zero-length windows log no `inicio_*`, open no window and leave the process executing (or finished, for TFP) |
| PropiedadesMotor.TcpAbre | src/simulador/algoritmos/PE.py:504-525 | a positive TCP opens a TCP window of that length with its `inicio_tcp` |
| PropiedadesMotor.TipAbre | src/simulador/algoritmos/PE.py:475-502 | a positive TIP opens a TIP window of that length with its `inicio_tip` |
| PropiedadesMotor.TfpAbre | src/simulador/algoritmos/PE.py:527-553 | a positive TFP opens a TFP window of that length with its `inicio_tfp` |
| PropiedadesMotor.AplicarTcpMarco | src/simulador/algoritmos/PE.py:504-525 | charging TCP leaves the CPU, the ready list and other processes alone and only appends to the log |
| PropiedadesMotor.AplicarTipMarco | src/simulador/algoritmos/PE.py:475-502 | the same for TIP, which may go on with the owed TCP |
| PropiedadesMotor.BloquearEfecto | src/simulador/algoritmos/PE.py:367-403 | the running process joins the blocked list as blocked since now with its full I/O length; the CPU is empty; the log grows by `fin_ejecucion` and `bloqueo` first |
| PropiedadesMotor.TerminarRestoEfecto | src/simulador/algoritmos/PE.py:405-434 | the process joins the terminated list and leaves the CPU; with TFP > 0 it waits as `terminando` behind a TFP window, else it is `terminado` now; the lists and the other records stay |
| PropiedadesMotor.TerminarConTfp | src/simulador/algoritmos/PE.py:410-417 | the state termination leaves with a positive TFP, written out |
| PropiedadesMotor.TerminarSinTfp | src/simulador/algoritmos/PE.py:418-434 | the state termination leaves with no TFP, written out |
| PropiedadesMotor.LlegadasMarco | src/simulador/algoritmos/PE.py:58-79 | arrivals change only records, the ready list, the log and the arrival bookkeeping |
| PropiedadesMotor.ProcesarBloqueadosMarco | src/simulador/algoritmos/PE.py:436-473 | the blocked step changes only records, the ready and blocked lists and the log |
| PropiedadesMotor.IoDeListo | src/simulador/algoritmos/PE.py:445-468 | an I/O tick never touches a record's ready time |
| PropiedadesMotor.IoDeCola | src/simulador/algoritmos/PE.py:445-468 | the I/O loop queues exactly the processes it reports finished, in the order found |
| PropiedadesMotor.ProcesarBloqueadosCola | src/simulador/algoritmos/PE.py:436-473 | the blocked step queues exactly the processes that finished I/O, in blocked-list order |
| PropiedadesMotor.FinIoReencola | src/simulador/algoritmos/PE.py:450-473 | a process whose I/O ends now leaves the blocked list, is queued as ready with its burst reset, and is reported |
| PropiedadesMotor.CerrarTfpEfecto | src/simulador/algoritmos/PE.py:568-576 | closing TFP: the first `terminando` record becomes `terminado` now, with `terminacion` then `fin_tfp` for a non-empty name; last TFP tick now; tag cleared |
| PropiedadesMotor.CerrarTfpVacio | src/simulador/algoritmos/PE.py:568-576 | with no `terminando` record, closing TFP only clears the tag |
| PropiedadesMotor.AplicarTcpReloj | src/simulador/algoritmos/PE.py:504-525 | charging TCP does not move the clock |
| PropiedadesMotor.AplicarTipReloj | src/simulador/algoritmos/PE.py:475-502 | charging TIP does not move the clock |
| PropiedadesMotor.TerminarRestoReloj | src/simulador/algoritmos/PE.py:405-434 | termination does not move the clock |
| PropiedadesMotor.CerrarVentanaReloj | src/simulador/algoritmos/PE.py:661-685 | closing a window does not move the clock |
| PropiedadesMotor.FinalizarReloj | src/simulador/algoritmos/PE.py:687-705 | the TFP completion does not move the clock |
| PropiedadesMotor.AplicarTcpNuevo | src/simulador/algoritmos/PE.py:504-525 | charging TCP does not touch `proceso_nuevo` |
| PropiedadesMotor.DespacharEfecto | src/simulador/algoritmos/PE.py:336-349 | a new process is charged TIP and is new no longer, a returning one TCP; a positive length opens that window with its `inicio_*`, a zero one logs none and the process executes at once |
| PropiedadesMotor.DespacharTip | src/simulador/algoritmos/PE.py:340-343 | a new process with positive TIP: a TIP window of that length and one `inicio_tip` |
| PropiedadesMotor.DespacharTcp | src/simulador/algoritmos/PE.py:344-346 | a returning process (or a new one with zero TIP and TCP owed) with positive TCP: a TCP window of that length and one `inicio_tcp` |
| PropiedadesMotor.DespacharDirecto | src/simulador/algoritmos/PE.py:475-525 | with every charged window of zero length: no window, the process `ejecutando`, and only `inicio ejecucion` logged |
| PropiedadesMotor.DespacharMarco | src/simulador/algoritmos/PE.py:336-349 | the charge leaves the CPU, the ready list, the clock and other processes alone |
| PropiedadesMotor.IterarTermina | src/simulador/algoritmos/PE.py:182-186 | the loop stops within the 1000-iteration cap; stopping earlier means nothing is pending; nothing pending means no iteration |
| PropiedadesMotor.IterarInvariante | src/simulador/algoritmos/PE.py:185-262 | a property every iteration preserves holds when the loop ends |
| PropiedadesMotor.PrimeroTerminandoEn | src/simulador/algoritmos/PE.py:689-691 | the first `terminando` index is i exactly when the scan up to i found none earlier |
| OrdenPE.PosicionInsercion | src/simulador/algoritmos/PE.py:81-101 | the insertion index never lies past the end of the list |
| OrdenPE.PosicionInsercionEsPrimera | src/simulador/algoritmos/PE.py:85-97 | the insertion index is the first position of strictly lower priority, or the end |
| OrdenPE.PosicionInsercionUnica | src/simulador/algoritmos/PE.py:85-97 | any index with those properties is the insertion index |
| OrdenPE.Insertar | src/simulador/algoritmos/PE.py:81-101 | the list grows by exactly one element |
| OrdenPE.InsertarMulticonjunto | src/simulador/algoritmos/PE.py:81-101 | insertion adds exactly p and loses nothing |
| OrdenPE.InsertarConservaOrden | src/simulador/algoritmos/PE.py:81-101 | insertion keeps a priority-ordered list ordered, after every process of equal or higher priority and before every lower one |
| OrdenPE.InsertarTrasCabeza | src/simulador/algoritmos/PE.py:160-162 | when the head outranks p the head stays in front, so `pop(0)` yields the former head |
| OrdenPE.InsertarTodos | src/simulador/algoritmos/PE.py:75-79 | inserting a batch one after another grows the list by the batch size |
| OrdenPE.InsertarTodosMulticonjunto | src/simulador/algoritmos/PE.py:75-79 | batch insertion adds exactly the batch |
| OrdenPE.InsertarTodosConservaOrden | src/simulador/algoritmos/PE.py:75-79 | batch insertion keeps the list ordered |
| OrdenPE.InsertarTodosMiembros | src/simulador/algoritmos/PE.py:75-79 | the members after batch insertion are the old ones and the batch |
| OrdenPE.OrdenarOrdena | src/simulador/algoritmos/PE.py:108-110 | the sort by descending priority yields an ordered permutation |
| OrdenPE.OrdenarOrdenadaEsIdentidad | src/simulador/algoritmos/PE.py:108-110 | sorting an ordered list leaves it as it is |
| PropiedadesPE.CabezaMaxima | src/simulador/algoritmos/PE.py:108-123 | the head of an ordered list has the highest priority in it |
| PropiedadesPE.VerificarPreemptionCorrecta | src/simulador/algoritmos/PE.py:103-123 | the answer is yes exactly when a process runs and some ready process has strictly higher priority; once sorting happens the list is an ordered permutation of itself |
| PropiedadesPE.ColaOrdenada | src/simulador/algoritmos/PE.py:160-162 | the tail of an ordered list is ordered |
| PropiedadesPE.UltimoTickNoSeExpropia | src/simulador/algoritmos/PE.py:219-230 | a running process with exactly one burst tick left is never preempted; the check at most sorts the ready list |
| PropiedadesPE.PreemptarEfecto | src/simulador/algoritmos/PE.py:125-178 | on an ordered list whose head outranks the running process: the head takes the CPU, the preempted process is inserted by priority and is ready, `fin_ejecucion` one tick back then `preemption` are logged, and the list length is unchanged |
| PropiedadesPE.CargaNueva | src/simulador/algoritmos/PE.py:164-171 | after a preemption a new process is charged TIP and then owes a TCP |
| PropiedadesPE.CargaVista | src/simulador/algoritmos/PE.py:172-178 | after a preemption a returning process is charged TCP |
| PropiedadesPE.ReencolarEfecto | src/simulador/algoritmos/PE.py:128-162 | the re-queueing part of a preemption: head on the CPU, the preempted process inserted into the rest |
| PropiedadesPE.ComprobarPreemptionExpropia | src/simulador/algoritmos/PE.py:219-230 | with no window open, more than one burst tick left and a ready process outranking it, the running process is preempted on the sorted list |
| PropiedadesPE.ExpropiacionEfecto | src/simulador/algoritmos/PE.py:219-230 | in that case the highest-priority ready process (first among equals) takes the CPU, the preempted one goes back by priority, no process is lost and the list stays ordered and of the same length |
| PropiedadesPE.ReinsercionConserva | src/simulador/algoritmos/PE.py:150-162 | swapping the head of an ordered list for p inserted by priority keeps it ordered and loses no one |
| PropiedadesPE.EjecutarSigue | src/simulador/algoritmos/PE.py:299-314 | one CPU tick lowers the burst by one and raises `cpu_proc` and the process's counter by one; a burst not over leaves everything else as it was |
| PropiedadesPE.FinDeRafaga | src/simulador/algoritmos/PE.py:305-314 | at burst end the process terminates when its last burst ends and blocks otherwise |
| PropiedadesPE.EjecutarBloquea | src/simulador/algoritmos/PE.py:305-314 | the last tick of a burst that is not the last: one burst fewer, the process blocks, the CPU is empty |
| PropiedadesPE.EjecutarTermina | src/simulador/algoritmos/PE.py:305-314 | the last tick of the last burst: the process leaves the CPU for the terminated list, `terminando` behind TFP or `terminado` now |
| PropiedadesPE.EjecutarTerminaListas | src/simulador/algoritmos/PE.py:405-434 | then the CPU is empty, the terminated list grows by the process, ready and blocked lists stay, `cpu_proc` grew by one and `fin_ejecucion` is logged first |
| PropiedadesPE.EjecutarTerminaAtributos | src/simulador/algoritmos/PE.py:405-434 | then the process has no burst left, is `terminando` with TFP and `terminado` now without, and other records are untouched |
| PropiedadesPE.EjecutarTerminaConTfp | src/simulador/algoritmos/PE.py:410-417 | its record with TFP, written out |
| PropiedadesPE.EjecutarTerminaSinTfp | src/simulador/algoritmos/PE.py:418-434 | its record without TFP, written out |
| PropiedadesPE.SeleccionEfecto | src/simulador/algoritmos/PE.py:316-349 | the process taken is the first ready one whose name did not just finish I/O (all before it did); it leaves the list, which keeps its order, and is charged; with none, nothing changes |
| PropiedadesPE.QuitarIndiceOrdenada | src/simulador/algoritmos/PE.py:332-334 | removing one element of an ordered list leaves it ordered |
| PropiedadesPE.VentanaEnCurso | src/simulador/algoritmos/PE.py:209-213 | inside a window that does not close: the countdown drops by one and `cpu_so` grows by one; the clock advances; the running process, `cpu_proc`, the idle count and every ready time stay as they were |
| PropiedadesPE.EjecutarCola | src/simulador/algoritmos/PE.py:299-314 | a CPU tick never touches the ready list |
| PropiedadesPE.CerrarTipTcpCola | src/simulador/algoritmos/PE.py:596-660 | a closing TIP/TCP window leaves the list sorted, and in the corner case with the running process swapped in for the head |
| PropiedadesPE.ElegirCambia | src/simulador/algoritmos/PE.py:605-647 | in the corner case the list becomes the running process inserted by priority, less the head |
| PropiedadesPE.ElegirEjecuta | src/simulador/algoritmos/PE.py:648-660 | otherwise the list is left as it is |
| PropiedadesPE.CerrarVentanaCola | src/simulador/algoritmos/PE.py:661-685 | closing a window leaves the list alone |
| PropiedadesPE.TiempoBloqueoCola | src/simulador/algoritmos/PE.py:555-685 | the window tick leaves the same list unless a TIP or TCP window closes with no TCP owed |
| PropiedadesPE.TiempoBloqueoConservaOrden | src/simulador/algoritmos/PE.py:555-685 | the window tick keeps an ordered list ordered, corner case included |
| PropiedadesPE.InsertarColaOrdenada | src/simulador/algoritmos/PE.py:605-647 | inserting into an ordered list and dropping the head leaves it ordered |
| PropiedadesPE.ComprobarConservaOrden | src/simulador/algoritmos/PE.py:219-230 | the preemption check keeps the list ordered |
| PropiedadesPE.PasoLibreConservaOrden | src/simulador/algoritmos/PE.py:215-262 | an iteration with no window tick keeps the list ordered |
| PropiedadesPE.PasoConservaOrden | src/simulador/algoritmos/PE.py:185-262 | a whole iteration keeps an ordered ready list ordered |
| PropiedadesPE.CorrerConservaOrden | src/simulador/algoritmos/PE.py:180-266 | the ready list is ordered at the end of every run that starts ordered |
| PropiedadesPE.CambioEfecto | src/simulador/algoritmos/PE.py:599-647 | in the corner case the head runs at once with `cambio_proceso_pe` and `inicio ejecucion`, the running process goes back by priority as ready, `cpu_proc` and its counter drop by one though it ran no tick in this window, and the window tag is cleared |
| PropiedadesPE.CambioListas | src/simulador/algoritmos/PE.py:610-625 | on an ordered list the head takes the CPU and the running process is inserted into the rest |
| PropiedadesPE.CambioAtributos | src/simulador/algoritmos/PE.py:610-625 | the running process is ready, the head is executing, other records are untouched |
| PropiedadesPE.CambioTabla | src/simulador/algoritmos/PE.py:610-625 | the two state changes on the records, written out |
| PropiedadesPE.CambioContadores | src/simulador/algoritmos/PE.py:612-616 | `cpu_proc` and the process counter drop by one; the tag is cleared; the clock stays |
| PropiedadesPE.CambioContadorNegativo | src/simulador/algoritmos/PE.py:612-613 | a yielding process whose counter is 0, none of its ticks having run, is left with a counter of -1 |
| PropiedadesPE.CambioEventos | src/simulador/algoritmos/PE.py:626-647 | the log grows by `cambio_proceso_pe`, `inicio ejecucion` for the head and the window's `fin_*` for a non-empty name |
| PropiedadesPE.CorrerTermina | src/simulador/algoritmos/PE.py:182-186 | the loop stops within the cap, and stopping earlier means nothing is pending |
| PropiedadesPE.NoSeleccionaRecien | src/simulador/algoritmos/PE.py:326-334 | a process that just finished I/O is never the one dispatched |
| PropiedadesPE.GuardaMismoTick | src/simulador/algoritmos/PE.py:445-473 | a process whose I/O ends in this tick is queued ready with its burst reset and its name remembered, so no dispatch in the same tick picks it |
| PropiedadesPE.EjecutarReloj | src/simulador/algoritmos/PE.py:299-314 | a CPU tick does not move the clock |
| PropiedadesPE.CerrarTipTcpReloj | src/simulador/algoritmos/PE.py:577-660 | closing TIP/TCP does not move the clock |
| PropiedadesPE.TiempoBloqueoReloj | src/simulador/algoritmos/PE.py:555-685 | the window tick does not move the clock |
| PropiedadesPE.ComprobarReloj | src/simulador/algoritmos/PE.py:219-230 | the preemption check does not move the clock |
| PropiedadesPE.SeleccionReloj | src/simulador/algoritmos/PE.py:316-349 | dispatch does not move the clock |
| PropiedadesPE.PasoReloj | src/simulador/algoritmos/PE.py:185-262 | every iteration moves the clock by exactly one |
| PropiedadesPE.PasoLibreReloj | src/simulador/algoritmos/PE.py:215-262 | an iteration with no window tick moves the clock by exactly one |
| AlgoritmoPE.PrimerSeleccionableEn | src/simulador/algoritmos/PE.py:326-334 | the first index whose name did not just finish I/O is the one the dispatch rule gives |
| AlgoritmoPE.PE.constructor | src/simulador/algoritmos/PE.py:2-56 | clock 0, nothing queued, no window, all counters 0 |
| AlgoritmoPE.PE.Registrar | src/simulador/algoritmos/PE.py:63-79 | appends one event stamped with the current tick |
| AlgoritmoPE.PE.Finalizar | src/simulador/algoritmos/PE.py:418-434 | finish tick, `terminado` and `terminacion` for the process |
| AlgoritmoPE.PE.PonerEnEjecucion | src/simulador/algoritmos/PE.py:496-502 | `ejecutando` and `inicio ejecucion` for the running process |
| AlgoritmoPE.PE.InsertarOrdenado | src/simulador/algoritmos/PE.py:81-101 | the ready list becomes the insertion of p by priority |
| AlgoritmoPE.PE.ProcesarLlegadas | src/simulador/algoritmos/PE.py:58-79 | the state becomes the arrivals step of the model |
| AlgoritmoPE.PE.AdmitirLlegada | src/simulador/algoritmos/PE.py:61-79 | one arriving process is admitted: queued by priority as ready, its counters started, `llegada` logged |
| AlgoritmoPE.PE.VerificarPreemption | src/simulador/algoritmos/PE.py:103-123 | the answer is yes exactly when a ready process outranks the running one; the list is a sorted permutation of itself when the check sorts; nothing else changes |
| AlgoritmoPE.PE.AplicarTcp | src/simulador/algoritmos/PE.py:504-525 | the state becomes the TCP charge |
| AlgoritmoPE.PE.AplicarTip | src/simulador/algoritmos/PE.py:475-502 | the state becomes the TIP charge |
| AlgoritmoPE.PE.AplicarTfp | src/simulador/algoritmos/PE.py:527-553 | the state becomes the TFP charge |
| AlgoritmoPE.PE.BloquearProceso | src/simulador/algoritmos/PE.py:367-403 | the state becomes the blocking step |
| AlgoritmoPE.PE.TerminarProceso | src/simulador/algoritmos/PE.py:405-434 | the state becomes the termination step |
| AlgoritmoPE.PE.EjecutarProcesoActual | src/simulador/algoritmos/PE.py:299-314 | the state becomes one CPU tick of the model |
| AlgoritmoPE.PE.SeleccionarSiguienteProceso | src/simulador/algoritmos/PE.py:316-349 | the state becomes the dispatch of the model |
| AlgoritmoPE.PE.TickIo | src/simulador/algoritmos/PE.py:445-468 | one I/O loop body; the answer says whether the process finished, and its name is then remembered |
| AlgoritmoPE.PE.TickIoBloqueados | src/simulador/algoritmos/PE.py:445-468 | the I/O loop over the blocked list as it was on entry, reporting who finished |
| AlgoritmoPE.PE.QuitarBloqueados | src/simulador/algoritmos/PE.py:471-473 | each finished process leaves the blocked list, first occurrence first |
| AlgoritmoPE.PE.ProcesarProcesosBloqueados | src/simulador/algoritmos/PE.py:436-473 | the state becomes the blocked step; the finished names are remembered |
| AlgoritmoPE.PE.FinalizarProcesoCompletamente | src/simulador/algoritmos/PE.py:687-705 | the state becomes the TFP completion |
| AlgoritmoPE.PE.BuscarTerminando | src/simulador/algoritmos/PE.py:568-576 | the name of the first `terminando` record |
| AlgoritmoPE.PE.CerrarVentana | src/simulador/algoritmos/PE.py:661-685 | the window's `fin_*` or the deferred `fin_tcp` flag, and the tag cleared |
| AlgoritmoPE.PE.CambiarProceso | src/simulador/algoritmos/PE.py:599-647 | the state becomes the corner-case switch |
| AlgoritmoPE.PE.CerrarTfp | src/simulador/algoritmos/PE.py:568-576 | the state becomes the TFP close |
| AlgoritmoPE.PE.EncadenarTcp | src/simulador/algoritmos/PE.py:582-595 | `fin_tip` and then the TCP window |
| AlgoritmoPE.PE.ElegirTrasVentana | src/simulador/algoritmos/PE.py:599-660 | the corner case or the first execution tick, and the answer whether the iteration is skipped |
| AlgoritmoPE.PE.ProcesarTiempoBloqueo | src/simulador/algoritmos/PE.py:555-685 | the state and the answer of the window tick of the model |
| AlgoritmoPE.PE.Reencolar | src/simulador/algoritmos/PE.py:128-162 | the re-queueing part of a preemption |
| AlgoritmoPE.PE.PreemptarProcesoActual | src/simulador/algoritmos/PE.py:125-178 | the state becomes the preemption of the model |
| AlgoritmoPE.PE.AcumularTiempoListo | src/simulador/algoritmos/PE.py:233-237 | one tick of ready time for every ready process |
| AlgoritmoPE.PE.TickListo | src/simulador/algoritmos/PE.py:234-237 | one loop body: the process's ready time and its per-process counter grow by one |
| AlgoritmoPE.PE.RegistrarFinTcp | src/simulador/algoritmos/PE.py:189-204 | the deferred `fin_tcp` and `inicio ejecucion`, and the flag cleared |
| AlgoritmoPE.PE.ComprobarPreemption | src/simulador/algoritmos/PE.py:219-230 | the state becomes the preemption check of the model |
| AlgoritmoPE.PE.PasoLibre | src/simulador/algoritmos/PE.py:215-262 | the state becomes the rest of an iteration of the model |
| AlgoritmoPE.PE.CerrarIteracion | src/simulador/algoritmos/PE.py:251-262 | the idle count, the just-finished names cleared, one clock tick |
| AlgoritmoPE.PE.Paso | src/simulador/algoritmos/PE.py:186-262 | the state becomes one iteration of the model |
| AlgoritmoPE.PE.Ejecutar | src/simulador/algoritmos/PE.py:180-266 | the run is the model's; at most 1000 iterations; stopping earlier means nothing is pending; an ordered ready list stays ordered |
| AlgoritmoPE.PE.ObtenerEstadisticasCpu | src/simulador/algoritmos/PE.py:268-297 | the statistics of the current state |
| PropiedadesRR.SeleccionRR | src/simulador/algoritmos/RR.py:259-283 | the head takes the CPU and leaves the list, the quantum is full, the process is new no longer and charged TIP when new and TCP otherwise |
| PropiedadesRR.SeleccionVaciaRR | src/simulador/algoritmos/RR.py:259-283 | with an empty list dispatch does nothing |
| PropiedadesRR.EjecutarSigueRR | src/simulador/algoritmos/RR.py:236-257 | a tick ending neither burst nor quantum: burst and quantum drop by one, `cpu_proc` and the counter grow by one, nothing queued or logged |
| PropiedadesRR.EjecutarExpiraRR | src/simulador/algoritmos/RR.py:252-255 | the tick using up the quantum mid-burst: the process goes to the tail as ready with `fin_ejecucion` and `preemption_quantum`; CPU empty, quantum 0, TCP owed |
| PropiedadesRR.EjecutarBloqueaRR | src/simulador/algoritmos/RR.py:242-250 | a burst ending (not the last) blocks the process with quantum 0, not re-queued nor preempted even if the quantum ran out |
| PropiedadesRR.FinDeRafagaRR | src/simulador/algoritmos/RR.py:242-250 | the state a burst end hands to termination or blocking |
| PropiedadesRR.EjecutarTerminaRR | src/simulador/algoritmos/RR.py:242-250 | the last burst ending: `fin_ejecucion`, `fin_tcp` for a TCP still open, then TFP or termination; CPU empty, quantum 0, lists unchanged |
| PropiedadesRR.EjecutarTerminaAtributosRR | src/simulador/algoritmos/RR.py:340-390 | the terminating process ends with no burst left; other records are untouched |
| PropiedadesRR.EjecutarTerminaConTfpRR | src/simulador/algoritmos/RR.py:370-376 | its record with TFP, written out |
| PropiedadesRR.EjecutarTerminaSinTfpRR | src/simulador/algoritmos/RR.py:377-390 | its record without TFP, written out |
| PropiedadesRR.TerminarAtributosConTfp | src/simulador/algoritmos/RR.py:370-376 | termination with TFP makes the process `terminando` and touches no other record |
| PropiedadesRR.TerminarAtributosSinTfp | src/simulador/algoritmos/RR.py:377-390 | termination without TFP makes it `terminado` now and touches no other record |
| PropiedadesRR.CierreTcpCampos | src/simulador/algoritmos/RR.py:342-367 | the first two steps of termination only append to the log |
| PropiedadesRR.CuentaEventosPosteriores | src/simulador/algoritmos/RR.py:351-360 | events logged at or after t do not change a count of events before t |
| PropiedadesRR.CierreTcpEfecto | src/simulador/algoritmos/RR.py:351-367 | `fin_ejecucion`, and `fin_tcp` exactly when the log before now holds more `inicio_tcp` than `fin_tcp` of the process |
| PropiedadesRR.TerminarProcesoListas | src/simulador/algoritmos/RR.py:340-390 | the process leaves the CPU for the terminated list and the quantum is 0 |
| PropiedadesRR.TerminarProcesoEventos | src/simulador/algoritmos/RR.py:340-390 | the log grows by `fin_ejecucion`, the open `fin_tcp`, then `inicio_tfp` or `terminacion` |
| PropiedadesRR.BloquearRR | src/simulador/algoritmos/RR.py:301-338 | the shared blocking step with the quantum set to 0 |
| PropiedadesRR.CuentaEventosIndices | src/simulador/algoritmos/RR.py:351-360 | the count is the number of matching log positions, as the list comprehension computes |
| PropiedadesRR.ChequeoSinEfecto | src/simulador/algoritmos/RR.py:184-186 | with at least one quantum tick left before the tick, the quantum check after it changes nothing |
| PropiedadesRR.ChequeoSinQuantum | src/simulador/algoritmos/RR.py:184-186 | with no quantum left before the tick, a burst that goes on is preempted right after every tick |
| PropiedadesRR.CortesCerrado | src/simulador/algoritmos/RR.py:236-265 | with qr ticks of quantum left, a burst of d ticks is not cut when d <= qr, and otherwise is cut k times where (k-1)*Q < d - qr <= k*Q |
| PropiedadesRR.CortesRafaga | src/simulador/algoritmos/RR.py:236-265 | a burst of D >= 1 under a full quantum Q >= 1 is cut k times with k*Q < D <= (k+1)*Q, i.e. ceil(D/Q) - 1 |
| PropiedadesRR.AplicarTipSinCorte | src/simulador/algoritmos/RR.py:427-455 | `aplicar_tip` logs no `preemption_quantum` and keeps the burst |
| PropiedadesRR.AplicarTcpSinCorte | src/simulador/algoritmos/RR.py:456-478 | `aplicar_tcp` logs no `preemption_quantum` and keeps the burst |
| PropiedadesRR.DespacharSinCorte | src/simulador/algoritmos/RR.py:266-283 | the TIP or TCP charge of a dispatch logs no `preemption_quantum` and keeps the burst |
| PropiedadesRR.SeleccionSinCorte | src/simulador/algoritmos/RR.py:259-283 | the head of the ready list takes the CPU with a full quantum and its burst unchanged, and no `preemption_quantum` is logged |
| PropiedadesRR.CerrarTcpSinCorte | src/simulador/algoritmos/RR.py:349-366 | the extra `fin_tcp` of `terminar_proceso` is not a `preemption_quantum` |
| PropiedadesRR.TerminarRestoSinCorte | src/simulador/algoritmos/RR.py:368-389 | the TFP window or the termination logs no `preemption_quantum` and empties the CPU |
| PropiedadesRR.TerminarSinCorte | src/simulador/algoritmos/RR.py:340-390 | `terminar_proceso` logs no `preemption_quantum` and empties the CPU |
| PropiedadesRR.BloquearSinCorte | src/simulador/algoritmos/RR.py:301-338 | `bloquear_proceso` logs no `preemption_quantum` and empties the CPU |
| PropiedadesRR.UltimoTickSinCorte | src/simulador/algoritmos/RR.py:242-250 | the tick that ends a burst logs no `preemption_quantum`, even when the quantum ends with it, and empties the CPU |
| PropiedadesRR.CorteDeQuantum | src/simulador/algoritmos/RR.py:252-255 | the tick that uses up the quantum mid-burst logs exactly one `preemption_quantum` of the running process and queues it |
| PropiedadesRR.CortesDelMotor | src/simulador/algoritmos/RR.py:232-283 | running a burst of d ticks that starts with qr quantum ticks left, through `ejecutar_proceso_actual`, the quantum check and re-dispatch, logs exactly `Cortes(d, qr, Q)` `preemption_quantum` events of the process and ends with the CPU empty |
| PropiedadesRR.CortesRafagaMotor | src/simulador/algoritmos/RR.py:232-283 | a burst of D ticks dispatched alone with a full quantum Q logs k `preemption_quantum` events with k*Q < D <= (k+1)*Q, i.e. ceil(D/Q) - 1 |
| PropiedadesRR.EjecutarTickRR | src/simulador/algoritmos/RR.py:236-240 | every tick: burst down one, `cpu_proc` up one, `cpu_so` and clock unchanged, log and ready list only extended |
| PropiedadesRR.TickTermina | src/simulador/algoritmos/RR.py:246-247 | that tick fact when the last burst ends |
| PropiedadesRR.TickBloquea | src/simulador/algoritmos/RR.py:248-249 | that tick fact when a burst ends and the process blocks |
| PropiedadesRR.TickExpira | src/simulador/algoritmos/RR.py:252-255 | that tick fact when the quantum expires |
| PropiedadesRR.TickSigue | src/simulador/algoritmos/RR.py:236-240 | that tick fact when neither ends |
| PropiedadesRR.EjecutarConQuantumCola | src/simulador/algoritmos/RR.py:180-186 | the tick with its quantum check keeps the list's order, adding only at the tail |
| PropiedadesRR.LlegadasFifo | src/simulador/algoritmos/RR.py:53-81 | arrivals join the tail in input order |
| PropiedadesRR.BloqueadosFifo | src/simulador/algoritmos/RR.py:392-425 | processes back from I/O join the tail in blocked-list order |
| PropiedadesRR.TiempoBloqueoColaRR | src/simulador/algoritmos/RR.py:507-580 | the window tick only ever appends to the ready list |
| PropiedadesRR.CerrarBloqueoColaRR | src/simulador/algoritmos/RR.py:513-580 | closing a window only appends to the list and keeps the clock |
| PropiedadesRR.CierreEncadenaColaRR | src/simulador/algoritmos/RR.py:534-547 | chaining TCP after TIP keeps the list and the clock |
| PropiedadesRR.CerrarTipTcpColaRR | src/simulador/algoritmos/RR.py:548-560 | closing TIP/TCP with no TCP owed only appends to the list and keeps the clock |
| PropiedadesRR.PasoLibreFifo | src/simulador/algoritmos/RR.py:166-195 | the rest of an iteration keeps the ready list first in, first out |
| PropiedadesRR.PasoFifo | src/simulador/algoritmos/RR.py:136-195 | one iteration serves the list first in, first out: arrivals, processes back from I/O and preempted ones join at the tail, and only the head leaves |
| PropiedadesRR.VentanaEnCursoRR | src/simulador/algoritmos/RR.py:160-164 | inside a window that does not close: one tick of window and `cpu_so`, the clock moves, the running process, quantum and `cpu_proc` stay |
| PropiedadesRR.CierreEjecutaRR | src/simulador/algoritmos/RR.py:548-560 | a TIP/TCP window closing with no TCP owed always lets the process execute at once: `inicio ejecucion` now, `cpu_proc` grows with `cpu_so` |
| PropiedadesRR.CerrarTipTcpEjecuta | src/simulador/algoritmos/RR.py:548-560 | that close: `cpu_proc` up one, burst down one, `inicio ejecucion` logged |
| PropiedadesRR.PasoRelojRR | src/simulador/algoritmos/RR.py:136-195 | every iteration moves the clock by exactly one |
| PropiedadesRR.CorrerTerminaRR | src/simulador/algoritmos/RR.py:133-137 | at most 1000 iterations, and stopping earlier means nothing is pending |
| AlgoritmoRR.RR.constructor | src/simulador/algoritmos/RR.py:2-51 | clock 0, nothing queued, no window, no quantum running, all counters 0 |
| AlgoritmoRR.RR.Registrar | src/simulador/algoritmos/RR.py:60-74 | appends one event stamped with the current tick |
| AlgoritmoRR.RR.Finalizar | src/simulador/algoritmos/RR.py:377-390 | finish tick, `terminado` and `terminacion` |
| AlgoritmoRR.RR.PonerEnEjecucion | src/simulador/algoritmos/RR.py:448-454 | `ejecutando` and `inicio ejecucion` |
| AlgoritmoRR.RR.InsertarOrdenado | src/simulador/algoritmos/RR.py:76-81 | the process joins the tail |
| AlgoritmoRR.RR.ProcesarLlegadas | src/simulador/algoritmos/RR.py:53-74 | the state becomes the arrivals step, FIFO |
| AlgoritmoRR.RR.AdmitirLlegada | src/simulador/algoritmos/RR.py:56-74 | one arriving process is admitted at the tail as ready, its counters started, `llegada` logged; the quantum is untouched |
| AlgoritmoRR.RR.VerificarPreemptionQuantum | src/simulador/algoritmos/RR.py:83-94 | yes exactly when a process runs and its quantum is used up |
| AlgoritmoRR.RR.PreemptarProcesoActual | src/simulador/algoritmos/RR.py:96-129 | the state becomes the quantum preemption |
| AlgoritmoRR.RR.AplicarTcp | src/simulador/algoritmos/RR.py:456-477 | the state becomes the TCP charge |
| AlgoritmoRR.RR.AplicarTip | src/simulador/algoritmos/RR.py:427-454 | the state becomes the TIP charge |
| AlgoritmoRR.RR.AplicarTfp | src/simulador/algoritmos/RR.py:479-505 | the state becomes the TFP charge |
| AlgoritmoRR.RR.BloquearProceso | src/simulador/algoritmos/RR.py:301-338 | the state becomes the RR blocking step |
| AlgoritmoRR.RR.ContarEventos | src/simulador/algoritmos/RR.py:351-360 | the count of events of a kind before tick t for the process |
| AlgoritmoRR.RR.CerrarTcpPendiente | src/simulador/algoritmos/RR.py:351-367 | the extra `fin_tcp` exactly when the counts show a TCP still open |
| AlgoritmoRR.RR.TerminarResto | src/simulador/algoritmos/RR.py:369-390 | TFP or the finish now; CPU empty |
| AlgoritmoRR.RR.TerminarProceso | src/simulador/algoritmos/RR.py:340-390 | the state becomes the RR termination |
| AlgoritmoRR.RR.ConsumirTick | src/simulador/algoritmos/RR.py:236-240 | burst down one, `cpu_proc` and counter up one, quantum down one |
| AlgoritmoRR.RR.CerrarRafaga | src/simulador/algoritmos/RR.py:242-250 | one burst fewer; termination when none is left, blocking otherwise |
| AlgoritmoRR.RR.EjecutarProcesoActual | src/simulador/algoritmos/RR.py:232-257 | the state becomes one CPU tick of the model |
| AlgoritmoRR.RR.AgotarQuantum | src/simulador/algoritmos/RR.py:252-255 | a quantum at 0 mid-burst preempts; otherwise nothing changes |
| AlgoritmoRR.RR.SeleccionarSiguienteProceso | src/simulador/algoritmos/RR.py:259-283 | the state becomes the RR dispatch |
| AlgoritmoRR.RR.TickIo | src/simulador/algoritmos/RR.py:400-420 | one I/O loop body, joining the tail at the end of I/O |
| AlgoritmoRR.RR.TickIoBloqueados | src/simulador/algoritmos/RR.py:400-420 | the I/O loop over the blocked list as on entry |
| AlgoritmoRR.RR.QuitarBloqueados | src/simulador/algoritmos/RR.py:422-425 | each finished process leaves the blocked list |
| AlgoritmoRR.RR.ProcesarProcesosBloqueados | src/simulador/algoritmos/RR.py:392-425 | the state becomes the blocked step, FIFO |
| AlgoritmoRR.RR.FinalizarProcesoCompletamente | src/simulador/algoritmos/RR.py:582-600 | the state becomes the TFP completion |
| AlgoritmoRR.RR.BuscarTerminando | src/simulador/algoritmos/RR.py:520-528 | the name of the first `terminando` record |
| AlgoritmoRR.RR.CerrarVentana | src/simulador/algoritmos/RR.py:561-580 | the window's `fin_*` or the deferred flag, and the tag cleared |
| AlgoritmoRR.RR.CerrarTfp | src/simulador/algoritmos/RR.py:520-528 | the state becomes the TFP close |
| AlgoritmoRR.RR.EncadenarTcp | src/simulador/algoritmos/RR.py:534-547 | `fin_tip` and then the TCP window |
| AlgoritmoRR.RR.CerrarTipTcp | src/simulador/algoritmos/RR.py:548-560 | the first execution tick at once |
| AlgoritmoRR.RR.ProcesarTiempoBloqueo | src/simulador/algoritmos/RR.py:507-580 | the state and answer of the window tick of the model |
| AlgoritmoRR.RR.AcumularTiempoListo | src/simulador/algoritmos/RR.py:170-174 | one tick of ready time per ready process |
| AlgoritmoRR.RR.TickListo | src/simulador/algoritmos/RR.py:171-174 | one loop body: the process's ready time and its per-process counter grow by one; the quantum is untouched |
| AlgoritmoRR.RR.RegistrarFinTcp | src/simulador/algoritmos/RR.py:140-155 | the deferred `fin_tcp` and `inicio ejecucion`, flag cleared |
| AlgoritmoRR.RR.EjecutarConQuantum | src/simulador/algoritmos/RR.py:181-186 | one CPU tick followed by the quantum check |
| AlgoritmoRR.RR.PasoLibre | src/simulador/algoritmos/RR.py:166-195 | the rest of an iteration of the model |
| AlgoritmoRR.RR.CerrarIteracion | src/simulador/algoritmos/RR.py:188-195 | the idle count and one clock tick |
| AlgoritmoRR.RR.Paso | src/simulador/algoritmos/RR.py:137-195 | one iteration of the model |
| AlgoritmoRR.RR.Ejecutar | src/simulador/algoritmos/RR.py:131-199 | the run is the model's; at most 1000 iterations; stopping earlier means nothing is pending |
| AlgoritmoRR.RR.ObtenerEstadisticasCpu | src/simulador/algoritmos/RR.py:201-230 | the statistics of the current state |
| Simulador.CrearProcesosDesdeDatos | src/simulador/simulador.py:19-43 | one new distinct record per row, in row order, with `tiempo_arribo`, `duracion_rafaga_cpu`, `duracion_rafaga_es` and `prioridad_externa` renamed to the engine fields |
| Simulador.Filas | src/simulador/simulador.py:84-91 | one row per terminated record, in order, with its name, return time and ready time |
| Simulador.Maximo | src/simulador/simulador.py:96-97 | the maximum is an element and bounds every element |
| Simulador.ProcesarResultados | src/simulador/simulador.py:70-122 | no result exactly when there is no run; the chart is read under a parameter, `ComoEscrito` being the code as written |
| Simulador.FilaPorTerminado | src/simulador/simulador.py:84-91 | the result has one row per terminated record, in terminated-list order |
| Simulador.TiempoTotalEsMaximo | src/simulador/simulador.py:94-100 | with terminated records the total is a return time that bounds all of them, and the mean is sum over count; with none, total, sum and count are 0 |
| Simulador.GanttYEventos | src/simulador/simulador.py:107-121 | the results' chart is the one `_procesar_datos_gantt` builds from the same run and reading, and the events are the run's log unchanged |
| Simulador.ResultadosComoEscritoSinGantt | src/simulador/simulador.py:108-121 | as written, a log without the 'inicio_ejecucion' spelling gives results with an empty chart and the full event list |
| Simulador.CpuDesocupadaNoNegativa | src/simulador/simulador.py:103-105 | SO time is count times TCP, process time is the sum of bursts times length, idle is never negative and is exactly `max(0, total - proc - so)` |
| Simulador.PrimeraAbierta | src/simulador/simulador.py:143-147 | the earliest still-open entry of the process, none earlier; None when none is open |
| Simulador.Cerradas | src/simulador/simulador.py:155-160 | the closed entries, each taken from the list; never more than the entries |
| Simulador.Emitir | src/simulador/simulador.py:152-166 | the three lists have equal length, one element per closed entry |
| Simulador.EmitirCerradas | src/simulador/simulador.py:155-160 | the k-th name, start and duration come from the k-th closed entry, in entry order, the duration being end minus start |
| Simulador.CerrarEntrada | src/simulador/simulador.py:141-147 | the inner loop closes the earliest open entry of the process, as `Cerrar` states |
| Simulador.LeerEventos | src/simulador/simulador.py:137-147 | the first loop builds the entries of its specification |
| Simulador.EmitirEntradas | src/simulador/simulador.py:150-166 | the second loop builds the lists of `Emitir` |
| Simulador.ProcesarDatosGantt | src/simulador/simulador.py:129-166 | three empty lists with no run, otherwise the chart data of the log |
| Simulador.EntradasSiguenAperturas | src/simulador/simulador.py:137-142 | the k-th entry belongs to the k-th opening event, with its process and tick |
| Simulador.FinesSonTerminaciones | src/simulador/simulador.py:143-147 | every entry end is the tick of a `terminacion` of the same process |
| Simulador.ComoEscritoSinEntradas | src/simulador/simulador.py:138 | with no 'inicio_ejecucion' in the log, the code as written opens no entry and emits empty lists |
| Simulador.GanttComoEscritoVacio | src/simulador/simulador.py:138 | an engine log with 'inicio ejecucion' at 0 and `terminacion` at 3 gives an empty chart as written and one bar of length 3 when corrected |
| Simulador.AperturasCorregidas | src/simulador/simulador.py:137-142 | when corrected, the entries correspond one to one, in order, to the execution starts of either spelling |
| ExportadorPdf.RegistrarLlegadas | src/simulador/exportador_pdf.py:322-336 | the first pass gives each non-system process its first arrival tick |
| ExportadorPdf.ProcesarVentana | src/simulador/exportador_pdf.py:343-387 | one event of the second pass |
| ExportadorPdf.PintarVentanas | src/simulador/exportador_pdf.py:338-387 | the second loop computes its specification |
| ExportadorPdf.UltimoAbierto | src/simulador/exportador_pdf.py:413-418 | the most recent open segment of the kind, none open after it; None when none is open |
| ExportadorPdf.CerrarUltimoAbierto | src/simulador/exportador_pdf.py:413-418 | the reversed scan closes that segment |
| ExportadorPdf.ProcesarEvento | src/simulador/exportador_pdf.py:389-441 | one event of the third pass |
| ExportadorPdf.RegistrarProcesos | src/simulador/exportador_pdf.py:389-441 | the third loop computes its specification |
| ExportadorPdf.ProcesarEventosGantt | src/simulador/exportador_pdf.py:315-443 | the three passes compute the specification of the result |
| ExportadorPdf.ClavesPrimera | src/simulador/exportador_pdf.py:322-336 | every first-pass entry is a non-system process named in the log |
| ExportadorPdf.ClavesSegunda | src/simulador/exportador_pdf.py:338-387 | the second pass keeps the set of processes |
| ExportadorPdf.ClavesTercera | src/simulador/exportador_pdf.py:389-403 | the third pass adds exactly the processes of the events it reads |
| ExportadorPdf.ProcesosDelDiagrama | src/simulador/exportador_pdf.py:322-403 | a name has an entry exactly when a non-system, non-window event of the log names it |
| ExportadorPdf.PendienteSeMantiene | src/simulador/exportador_pdf.py:347-387 | an open window survives events that are neither its start nor its end |
| ExportadorPdf.PasoVentanaPinta | src/simulador/exportador_pdf.py:352-387 | a window end paints the remembered window on its process |
| ExportadorPdf.AperturaRegistrada | src/simulador/exportador_pdf.py:347-352 | a window start of a known process is remembered with its tick and process |
| ExportadorPdf.VentanaEmparejada | src/simulador/exportador_pdf.py:347-387 | a start at t matched with the next end of its kind at t' yields [t, t'-1] for TIP/TCP and [t+1, t'] for TFP, nothing for an empty range or name, and no other entry changes |
| ExportadorPdf.CierraEjecucion | src/simulador/exportador_pdf.py:413-441 | an execution end or termination closes the most recent open execution segment at its tick, or changes none; a termination records its tick; other entries stay |
| ExportadorPdf.CierraIo | src/simulador/exportador_pdf.py:427-432 | `fin_io` closes the most recent open I/O segment, or changes none; other entries stay |
| ExportadorPdf.ContenidoEn | src/simulador/exportador_pdf.py:544-580 | '' exactly when no segment covers t; otherwise the text of the first covering segment |
| ExportadorPdf.ContenidoCelda | src/simulador/exportador_pdf.py:542-580 | the same for one process's data, 'F' on the termination tick of a closed execution segment |
| ExportadorPdf.TextoCeldaNoVacio | src/simulador/exportador_pdf.py:549-578 | every text is one of F, CPU, TIP, TCP, TFP, I/O |
| ExportadorPdf.EncontrarProcesoDestino | src/simulador/exportador_pdf.py:445-451 | the process of the first execution start of either spelling at or after t; None exactly when there is none |
| ExportadorPdf.ConstruirVentanas | src/simulador/exportador_pdf.py:453-470 | no windows for a negative total; otherwise `total // 30 + 1` of them, window i being [30i, min(30i+29, total)] |
| ExportadorPdf.VentanasContiguas | src/simulador/exportador_pdf.py:460-466 | the windows start at 0, end at total, are non-empty, at most 30 wide, and each starts right after the previous one |
| ExportadorPdf.TickEnUnaVentana | src/simulador/exportador_pdf.py:460-466 | each tick of 0..total is in window t // 30 and in no other |

## Left out

- The customtkinter and matplotlib interface: widget layout and callbacks, with no scheduling logic.
- ReportLab rendering in `exportador_pdf.py`: the styles, tables, colours, cover page and legend, plus the `os.makedirs` and `datetime` calls. The cell text of a rendered row is not modelled either.
- `exportar_eventos`. It is JSON file I/O with timestamps.
- The console warnings printed when the iteration cap is hit.
- Floating point:
  - the normalised return time and its `round`;
  - the percentage strings of the CPU split;
  - the mean return time as a real number, which is kept as sum and count (see `simulador.py:96` and, for no terminated record, `simulador.py:99`).
- The record class that computes `tiempo_retorno` (`calcular_tiempo_retorno`) is not part of this model. The engines record only the finish tick. `Simulador.RegistroTerminado` takes the return time as an input field.
- The FCFS, SPN, SRTN and `RoundRobin.py` files hold no implementation. `PrioridadExterna.py` depends on modules that are not part of this model. `pcb.py` has unreachable methods. `proceso.py` and `estado_proceso.py` do not match how the engines use records. The test scripts only print.
- Termination of `ejecutar` is not proved in general. The 1000-iteration cap is the loop's measure. A multi-burst process with zero I/O length never leaves the blocked list, and that is not explored.
- Error behaviour of the source that the engines never reach is not modelled:
  - `Procesos.Sumar`: a counter update on a missing name leaves the map unchanged, where Python would raise `KeyError`.
  - `evento.get(..., default)` in the exporter: every modelled event has all its keys.
- Object attributes on records: the attributes the engines overwrite live in a table from record to attributes inside the engine state, not in fields of the record objects. Identity and list membership are still by reference.
- The shared engine fields are one record field (`nucleo`) of each class, not separate fields. Some source methods are split into several Dafny methods (for example `AlgoritmoRR.RR.EjecutarProcesoActual` into `ConsumirTick`, `CerrarRafaga` and `AgotarQuantum`). The split keeps the order of the updates.
- `primer_proceso` and `tiempo_primer_llegada` in the first pass of `_procesar_eventos_gantt` are computed but never read, so they are not kept.
- PropiedadesRR.CortesDelMotor: the burst run (`PropiedadesRR.CorrerRafaga`) has no other ready process, and it skips the ticks of the TIP and TCP windows that re-dispatch opens. Those ticks touch neither the burst nor the quantum, but processes that arrive or return from I/O during them, and would queue ahead of the preempted one, are not covered.
- PropiedadesRR.CortesRafagaMotor: rests on the same burst run as `PropiedadesRR.CortesDelMotor`, so it carries the same two restrictions: no other ready process, and the TIP and TCP window ticks are skipped.
- The insertion order of Python dicts: `ExportadorPdf.Diagrama` is a map, and the order in which processes would be drawn is not modelled.
- `_procesar_resultados_fcfs` and `_procesar_datos_gantt` are modelled on a finished run given as data (`Simulador.Ejecucion`), not on a live algorithm object.

## Findings

| source | as written | input that shows it | evidently intended | confidence | as-written member | corrected member |
|---|---|---|---|---|---|---|
| src/simulador/simulador.py:138 | an execution entry is opened only for events of kind 'inicio_ejecucion' | an engine log `[(0, A, 'inicio ejecucion'), (3, A, 'terminacion')]` yields the chart lists `[], [], []` | open an entry for the engines' 'inicio ejecucion' as well, as `_encontrar_proceso_destino` does, giving `[A], [0], [3]` | medium, not executed: the PE and RR engines always write 'inicio ejecucion', but this path runs the FCFS engine, which has no implementation | Simulador.GanttComoEscritoVacio | Simulador.AperturasCorregidas |
