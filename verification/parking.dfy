/**
 * The allocation and billing engine: vehicles, tickets, and the `Parking`
 * that hands out the first free spot of the right category and bills a
 * ticket on exit. Clock readings are whole seconds passed in as `ahora`;
 * ticket codes are passed in as `codigo`.
 */
module Parking {
  import opened Texto
  import opened Plazas
  import opened Tarificacion

  datatype Option<T> = None | Some(value: T)

  /** A vehicle: its plate, upper-cased on construction, and its category. */
  datatype Vehiculo = Vehiculo(matricula: string, tipo: string)

  /** `Vehiculo(matricula, tipo)`: the plate is upper-cased letter by letter and keeps everything else. */
  function NuevoVehiculo(matricula: string, tipo: string): (v: Vehiculo)
    ensures v.tipo == tipo && |v.matricula| == |matricula|
    ensures forall i :: 0 <= i < |v.matricula| ==> !('a' <= v.matricula[i] <= 'z')
    ensures forall i :: 0 <= i < |matricula| && !('a' <= matricula[i] <= 'z') ==> v.matricula[i] == matricula[i]
    ensures forall i :: 0 <= i < |matricula| && 'a' <= matricula[i] <= 'z' ==> v.matricula[i] as int == matricula[i] as int - 32
    ensures v.matricula == Upper(matricula)
  {
    Vehiculo(Upper(matricula), tipo)
  }

  /** A ticket: a code and a vehicle fixed at creation, an entry time, and an exit time once one is stamped. */
  class Ticket {
    const codigo: string
    const vehiculo: Vehiculo
    var horaEntrada: int
    var horaSalida: Option<int>

    /** A new ticket is stamped with the current time and has no exit yet. */
    constructor (vehiculo: Vehiculo, codigo: string, ahora: int)
      ensures this.vehiculo == vehiculo && this.codigo == codigo
      ensures horaEntrada == ahora && horaSalida == None
    {
      this.vehiculo := vehiculo;
      this.codigo := codigo;
      horaEntrada := ahora;
      horaSalida := None;
    }

    /** `registrar_salida`: stamps the exit with the current time and leaves the entry alone. */
    method RegistrarSalida(ahora: int)
      modifies this
      ensures horaSalida == Some(ahora) && horaEntrada == old(horaEntrada)
    {
      horaSalida := Some(ahora);
    }

    /** `calcular_tiempo`: from entry to the stamped exit, or to now while there is none. */
    function CalcularTiempo(ahora: int): int
      reads this
    {
      var fin := if horaSalida.Some? then horaSalida.value else ahora;
      fin - horaEntrada
    }
  }

  /** A spot a vehicle of category `tipo` may be given: same category, and free. */
  predicate Disponible(p: Plaza, tipo: string)
    reads p
  {
    p.tipo == tipo && p.estado == Libre
  }

  /**
   * The position of the first spot, in registration order, that is free and
   * of category `tipo`; `None` when there is none.
   */
  function PrimeraLibre(plazas: seq<Plaza>, tipo: string): (r: Option<nat>)
    reads plazas
    ensures r.Some? ==> r.value < |plazas| && Disponible(plazas[r.value], tipo)
    ensures r.Some? ==> forall j :: 0 <= j < r.value ==> !Disponible(plazas[j], tipo)
    ensures r.None? <==> forall j :: 0 <= j < |plazas| ==> !Disponible(plazas[j], tipo)
    decreases |plazas|
  {
    if plazas == [] then None
    else if Disponible(plazas[0], tipo) then Some(0)
    else
      match PrimeraLibre(plazas[1..], tipo)
      case None => None
      case Some(k) => Some(k + 1)
  }

  /** The first-match position is determined by which spots are available. */
  lemma PrimeraLibreEn(plazas: seq<Plaza>, tipo: string, k: nat)
    requires k < |plazas| && Disponible(plazas[k], tipo)
    requires forall j :: 0 <= j < k ==> !Disponible(plazas[j], tipo)
    ensures PrimeraLibre(plazas, tipo) == Some(k)
  {
    assert Disponible(plazas[k], tipo);
  }

  /** The engine: the spots in registration order and the hourly tariff table (cents). */
  class Parking {
    var plazas: seq<Plaza>
    const tarifas: map<string, nat>

    /** A new parking has no spots and the tariffs coche 2.50, moto 1.50. */
    constructor ()
      ensures plazas == [] && tarifas == TARIFAS_INICIALES
    {
      plazas := [];
      tarifas := TARIFAS_INICIALES;
    }

    /** `agregar_plaza`: appends the spot and keeps the earlier ones in their order. */
    method AgregarPlaza(plaza: Plaza)
      modifies this
      ensures plazas == old(plazas) + [plaza]
    {
      plazas := plazas + [plaza];
    }

    /**
     * `reservar_y_generar_ticket`: occupies the first free spot of the
     * vehicle's category and returns it with a new ticket stamped `ahora`;
     * returns two nulls, changing nothing, when there is no such spot. No
     * other spot changes state.
     */
    method ReservarYGenerarTicket(vehiculo: Vehiculo, codigo: string, ahora: int) returns (ticket: Ticket?, plaza: Plaza?)
      modifies plazas
      ensures (ticket == null) <==> (plaza == null)
      ensures ticket == null <==> old(PrimeraLibre(plazas, vehiculo.tipo)).None?
      ensures ticket != null ==>
        var k := old(PrimeraLibre(plazas, vehiculo.tipo)).value;
        k < |plazas| && plaza == plazas[k] && plaza.tipo == vehiculo.tipo &&
        old(plaza.estado) == Libre && plaza.estado == Ocupada
      ensures ticket != null ==>
        fresh(ticket) && ticket.codigo == codigo && ticket.vehiculo == vehiculo &&
        ticket.horaEntrada == ahora && ticket.horaSalida == None
      ensures forall q :: q in plazas && q != plaza ==> q.estado == old(q.estado)
    {
      var i := 0;
      while i < |plazas|
        invariant 0 <= i <= |plazas|
        invariant forall j :: 0 <= j < i ==> !Disponible(plazas[j], vehiculo.tipo)
        invariant forall j :: 0 <= j < |plazas| ==> plazas[j].estado == old(plazas[j].estado)
      {
        var p := plazas[i];
        if p.tipo == vehiculo.tipo && p.estado == Libre {
          assert old(PrimeraLibre(plazas, vehiculo.tipo)) == Some(i);
          var _ := p.Ocupar();
          ticket := new Ticket(vehiculo, codigo, ahora);
          plaza := p;
          return;
        }
        i := i + 1;
      }
      ticket, plaza := null, null;
    }

    /**
     * `procesar_salida`: moves the ticket's entry back by 90 minutes, stamps
     * its exit with `ahora`, and bills the time in between at the tariff of
     * the vehicle's category.
     */
    method ProcesarSalida(ticket: Ticket, ahora: int) returns (recibo: Recibo)
      modifies ticket
      ensures ticket.horaEntrada == old(ticket.horaEntrada) - DESPLAZAMIENTO_DEMO
      ensures ticket.horaSalida == Some(ahora)
      ensures recibo == Liquidar(ticket.codigo, ticket.vehiculo.matricula,
                                 TiempoFacturado(old(ticket.horaEntrada), ahora),
                                 Tarifa(tarifas, ticket.vehiculo.tipo))
    {
      ticket.horaEntrada := ticket.horaEntrada - DESPLAZAMIENTO_DEMO;
      ticket.RegistrarSalida(ahora);
      var tiempo := ticket.CalcularTiempo(ahora);
      recibo := Liquidar(ticket.codigo, ticket.vehiculo.matricula, tiempo, Tarifa(tarifas, ticket.vehiculo.tipo));
    }
  }
}
