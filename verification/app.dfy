/**
 * The bookkeeping behind the two buttons of the parking window: registering an
 * entry (which files the new ticket under its code among the active tickets)
 * and processing an exit (which takes the ticket out, bills it and frees its
 * spot). The widgets, message boxes and receipt text are not modelled; the
 * operator's input arrives as strings and the clock as `ahora`.
 */
module App {
  import opened Texto
  import opened Plazas
  import opened Tarificacion
  import opened Parking

  /** What an entry attempt ends in. */
  datatype Entrada =
    | MatriculaVacia                              // warning "Entrada inválida"
    | SinPlazas                                   // error "Sin plazas"
    | Registrada(ticket: Ticket, plaza: Plaza)

  /** What an exit attempt ends in. */
  datatype Salida =
    | CodigoInvalido                              // error "Código inválido"
    | Pagada(recibo: Recibo, plaza: Plaza)

  class ParkingApp {
    const parking: Parking
    var ticketsActivos: map<string, (Ticket, Plaza)>

    /** The tickets currently filed as active. */
    function Tickets(): set<Ticket>
      reads this
    {
      set c | c in ticketsActivos :: ticketsActivos[c].0
    }

    /** The spots held by active tickets. */
    function PlazasTomadas(): set<Plaza>
      reads this
    {
      set c | c in ticketsActivos :: ticketsActivos[c].1
    }

    /**
     * Each active ticket is filed under its own code, has no exit yet, and
     * holds an occupied spot of its vehicle's category that belongs to the
     * parking; no two active tickets hold the same spot.
     */
    ghost predicate Valid()
      reads this, parking, Tickets(), PlazasTomadas()
    {
      (forall c :: c in ticketsActivos ==>
        var (t, p) := ticketsActivos[c];
        t.codigo == c && t.horaSalida == None &&
        p in parking.plazas && p.estado == Ocupada && p.tipo == t.vehiculo.tipo) &&
      (forall c1, c2 :: c1 in ticketsActivos && c2 in ticketsActivos && c1 != c2 ==>
        ticketsActivos[c1].1 != ticketsActivos[c2].1)
    }

    constructor (parking: Parking)
      ensures this.parking == parking && ticketsActivos == map[] && Valid()
    {
      this.parking := parking;
      ticketsActivos := map[];
    }

    /**
     * `registrar_entrada`: rejects a plate that is empty once stripped;
     * otherwise asks the parking for a spot for the upper-cased plate and, on
     * success, files the new ticket under `codigo` (a code already filed is
     * overwritten, as a dictionary assignment does).
     */
    method RegistrarEntrada(matricula: string, tipo: string, codigo: string, ahora: int) returns (r: Entrada)
      requires Valid()
      modifies this, parking.plazas
      ensures Valid()
      ensures r == MatriculaVacia <==> Strip(matricula) == []
      ensures r == SinPlazas <==> Strip(matricula) != [] && old(PrimeraLibre(parking.plazas, tipo)).None?
      ensures !r.Registrada? ==>
        ticketsActivos == old(ticketsActivos) &&
        forall q :: q in parking.plazas ==> q.estado == old(q.estado)
      ensures r.Registrada? ==>
        var k := old(PrimeraLibre(parking.plazas, tipo)).value;
        k < |parking.plazas| && r.plaza == parking.plazas[k] && r.plaza.estado == Ocupada &&
        fresh(r.ticket) && r.ticket.codigo == codigo && r.ticket.horaEntrada == ahora &&
        r.ticket.vehiculo == NuevoVehiculo(Strip(matricula), tipo) &&
        ticketsActivos == old(ticketsActivos)[codigo := (r.ticket, r.plaza)] &&
        forall q :: q in parking.plazas && q != r.plaza ==> q.estado == old(q.estado)
    {
      var m := Strip(matricula);
      if m == [] {
        return MatriculaVacia;
      }
      r := Registrar(NuevoVehiculo(m, tipo), codigo, ahora);
    }

    /**
     * Lines 167-173 of `registrar_entrada`, once the plate has been accepted:
     * asks the parking for a spot for `vehiculo` and, on success, files the
     * new ticket under `codigo`.
     */
    method Registrar(vehiculo: Vehiculo, codigo: string, ahora: int) returns (r: Entrada)
      requires Valid()
      modifies this, parking.plazas
      ensures Valid()
      ensures r != MatriculaVacia
      ensures r == SinPlazas <==> old(PrimeraLibre(parking.plazas, vehiculo.tipo)).None?
      ensures r == SinPlazas ==>
        ticketsActivos == old(ticketsActivos) &&
        forall q :: q in parking.plazas ==> q.estado == old(q.estado)
      ensures r.Registrada? ==>
        var k := old(PrimeraLibre(parking.plazas, vehiculo.tipo)).value;
        k < |parking.plazas| && r.plaza == parking.plazas[k] && r.plaza.estado == Ocupada &&
        fresh(r.ticket) && r.ticket.codigo == codigo && r.ticket.horaEntrada == ahora &&
        r.ticket.vehiculo == vehiculo &&
        ticketsActivos == old(ticketsActivos)[codigo := (r.ticket, r.plaza)] &&
        forall q :: q in parking.plazas && q != r.plaza ==> q.estado == old(q.estado)
    {
      var ticket, plaza := parking.ReservarYGenerarTicket(vehiculo, codigo, ahora);
      // Every spot already held was occupied and a spot taken now was free,
      // so they differ and the held ones keep their state.
      forall c | c in ticketsActivos
        ensures ticketsActivos[c].1 != plaza && ticketsActivos[c].1.estado == Ocupada
      {
        assert old(ticketsActivos[c].1.estado) == Ocupada;
      }
      if ticket == null {
        return SinPlazas;
      }
      Archivar(ticket, plaza);
      r := Registrada(ticket, plaza);
    }

    /**
     * `tickets_activos[ticket.codigo] = (ticket, plaza)`: files a new ticket
     * and the spot it was given; any entry already under that code is replaced.
     */
    method Archivar(ticket: Ticket, plaza: Plaza)
      requires Valid()
      requires ticket.horaSalida == None && plaza in parking.plazas
      requires plaza.estado == Ocupada && plaza.tipo == ticket.vehiculo.tipo
      requires plaza !in PlazasTomadas()
      modifies this
      ensures Valid()
      ensures ticketsActivos == old(ticketsActivos)[ticket.codigo := (ticket, plaza)]
    {
      ticketsActivos := ticketsActivos[ticket.codigo := (ticket, plaza)];
    }

    /**
     * `procesar_salida`: rejects a code (once stripped) that is not among the
     * active tickets, changing nothing; otherwise removes the ticket from the
     * active ones, bills it, and frees its spot.
     */
    method ProcesarSalida(codigo: string, ahora: int) returns (r: Salida)
      requires Valid()
      modifies this, Tickets(), PlazasTomadas()
      ensures Valid() && parking.plazas == old(parking.plazas)
      ensures r == CodigoInvalido <==> Strip(codigo) !in old(ticketsActivos)
      ensures r == CodigoInvalido ==>
        ticketsActivos == old(ticketsActivos) && unchanged(Tickets()) && unchanged(PlazasTomadas())
      ensures r.Pagada? ==>
        var c := Strip(codigo);
        var (t, p) := old(ticketsActivos)[c];
        ticketsActivos == old(ticketsActivos) - {c} &&
        r.plaza == p && p.estado == Libre &&
        t.horaSalida == Some(ahora) && t.horaEntrada == old(t.horaEntrada) - DESPLAZAMIENTO_DEMO &&
        r.recibo == Liquidar(c, t.vehiculo.matricula, TiempoFacturado(old(t.horaEntrada), ahora),
                             Tarifa(parking.tarifas, t.vehiculo.tipo))
      ensures r.Pagada? ==>
        unchanged(Tickets()) &&
        forall q :: q in old(PlazasTomadas()) && q != r.plaza ==> q.estado == old(q.estado)
    {
      var c := Strip(codigo);
      if c !in ticketsActivos {
        return CodigoInvalido;
      }
      var recibo, plaza := Cobrar(c, ahora);
      r := Pagada(recibo, plaza);
    }

    /**
     * Lines 192-194 of `procesar_salida`, for a code that is active: takes the
     * entry out of the active tickets, bills its ticket and frees its spot.
     * The other active tickets and the other held spots are left alone.
     */
    method Cobrar(c: string, ahora: int) returns (recibo: Recibo, plaza: Plaza)
      requires Valid() && c in ticketsActivos
      modifies this, Tickets(), PlazasTomadas()
      ensures Valid()
      ensures var (t, p) := old(ticketsActivos)[c];
        ticketsActivos == old(ticketsActivos) - {c} &&
        plaza == p && p.estado == Libre &&
        t.horaSalida == Some(ahora) && t.horaEntrada == old(t.horaEntrada) - DESPLAZAMIENTO_DEMO &&
        recibo == Liquidar(c, t.vehiculo.matricula, TiempoFacturado(old(t.horaEntrada), ahora),
                           Tarifa(parking.tarifas, t.vehiculo.tipo))
      ensures unchanged(Tickets()) && parking.plazas == old(parking.plazas)
      ensures forall q :: q in old(PlazasTomadas()) && q != plaza ==> q.estado == old(q.estado)
    {
      var ticket: Ticket;
      ticket, plaza := ticketsActivos[c].0, ticketsActivos[c].1;
      ticketsActivos := ticketsActivos - {c};
      // The remaining entries hold other tickets (other codes) and other spots.
      forall c2 | c2 in ticketsActivos
        ensures ticketsActivos[c2].0 != ticket && ticketsActivos[c2].1 != plaza
      {
        assert old(ticketsActivos[c2].1) != old(ticketsActivos[c].1);
      }
      recibo := parking.ProcesarSalida(ticket, ahora);
      plaza.Liberar();
    }
  }
}
