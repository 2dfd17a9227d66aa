/**
 * Parking spots (`Plaza`): a fixed number and vehicle category, and an
 * occupancy state that moves through `libre`, `reservada` and `ocupada`.
 */
module Plazas {

  /** The three values the source stores in `Plaza.estado`. */
  datatype Estado = Libre | Reservada | Ocupada

  /** The three operations a spot offers: `reservar`, `ocupar` and `liberar`. */
  datatype Evento = Reserva | Ocupacion | Liberacion

  /** The state a spot is in after one operation. */
  function Transicion(e: Estado, ev: Evento): Estado
  {
    match ev
    case Reserva => if e == Libre then Reservada else e
    case Ocupacion => if e == Libre || e == Reservada then Ocupada else e
    case Liberacion => Libre
  }

  /** The state after a run of operations, applied left to right. */
  function Recorrido(e: Estado, evs: seq<Evento>): Estado
    decreases |evs|
  {
    if evs == [] then e else Recorrido(Transicion(e, evs[0]), evs[1..])
  }

  /** How far a spot has progressed towards `ocupada`. */
  function Avance(e: Estado): nat
  {
    match e
    case Libre => 0
    case Reservada => 1
    case Ocupada => 2
  }

  /**
   * Every change of state is one of the edges libre -> reservada,
   * libre -> ocupada, reservada -> ocupada, or a release back to libre.
   */
  lemma TransicionesPosibles(e: Estado, ev: Evento)
    ensures var n := Transicion(e, ev);
      n != e ==> (ev == Liberacion && n == Libre) || Avance(e) < Avance(n)
    ensures Transicion(e, ev) == Reservada && e != Reservada ==> e == Libre && ev == Reserva
  {
  }

  /** Without a release a spot only moves forward, and any reservation or occupation leaves `libre` behind for good. */
  lemma {:induction false} SinLiberarSoloAvanza(e: Estado, evs: seq<Evento>)
    requires Liberacion !in evs
    ensures Avance(e) <= Avance(Recorrido(e, evs))
    ensures evs != [] ==> Recorrido(e, evs) != Libre
    decreases |evs|
  {
    if evs != [] {
      assert Liberacion !in evs[1..];
      SinLiberarSoloAvanza(Transicion(e, evs[0]), evs[1..]);
    }
  }

  /** An occupied spot stays occupied until it is released. */
  lemma {:induction false} OcupadaHastaLiberar(evs: seq<Evento>)
    requires Liberacion !in evs
    ensures Recorrido(Ocupada, evs) == Ocupada
  {
    SinLiberarSoloAvanza(Ocupada, evs);
  }

  /** A run that ends with a release leaves the spot free, whatever came before. */
  lemma {:induction false} LiberarAlFinal(e: Estado, evs: seq<Evento>)
    ensures Recorrido(e, evs + [Liberacion]) == Libre
    decreases |evs|
  {
    if evs == [] {
      assert Recorrido(e, [Liberacion]) == Recorrido(Libre, []);
    } else {
      assert (evs + [Liberacion])[1..] == evs[1..] + [Liberacion];
      LiberarAlFinal(Transicion(e, evs[0]), evs[1..]);
    }
  }

  /** Releasing twice is the same as releasing once. */
  lemma {:induction false} LiberarIdempotente(e: Estado, evs: seq<Evento>)
    ensures Recorrido(e, evs + [Liberacion, Liberacion]) == Recorrido(e, evs + [Liberacion])
  {
    LiberarAlFinal(e, evs);
    LiberarAlFinal(e, evs + [Liberacion]);
    assert evs + [Liberacion, Liberacion] == (evs + [Liberacion]) + [Liberacion];
  }

  /** A parking spot; `numero` and `tipo` never change, `estado` does. */
  class Plaza {
    const numero: int
    const tipo: string
    var estado: Estado

    /** A new spot is free. */
    constructor (numero: int, tipo: string)
      ensures this.numero == numero && this.tipo == tipo && estado == Libre
    {
      this.numero := numero;
      this.tipo := tipo;
      estado := Libre;
    }

    /** `reservar`: succeeds only from `libre`, and then the spot is `reservada`. */
    method Reservar() returns (ok: bool)
      modifies this
      ensures ok <==> old(estado) == Libre
      ensures estado == (if ok then Reservada else old(estado))
      ensures estado == Transicion(old(estado), Reserva)
    {
      if estado == Libre {
        estado := Reservada;
        return true;
      }
      return false;
    }

    /** `liberar`: always leaves the spot `libre`. */
    method Liberar()
      modifies this
      ensures estado == Libre
      ensures estado == Transicion(old(estado), Liberacion)
    {
      estado := Libre;
    }

    /** `ocupar`: succeeds from `libre` or `reservada`, and then the spot is `ocupada`. */
    method Ocupar() returns (ok: bool)
      modifies this
      ensures ok <==> old(estado) == Libre || old(estado) == Reservada
      ensures estado == (if ok then Ocupada else old(estado))
      ensures estado == Transicion(old(estado), Ocupacion)
    {
      if estado == Libre || estado == Reservada {
        estado := Ocupada;
        return true;
      }
      return false;
    }
  }
}
