/**
 * The parking the program starts with (three car spots and one motorcycle
 * spot) and what the contracts of the engine and of the application let a
 * caller conclude about a few runs on it.
 */
module Escenarios {
  import opened Texto
  import opened Plazas
  import opened Tarificacion
  import opened Parking
  import opened App

  /** The start-up parking: spots 1, 2 and 3 for cars and 4 for motorcycles, all free. */
  method ParkingInicial() returns (parking: Parking, p1: Plaza, p2: Plaza, p3: Plaza, p4: Plaza)
    ensures fresh(parking) && fresh(p1) && fresh(p2) && fresh(p3) && fresh(p4)
    ensures parking.tarifas == TARIFAS_INICIALES && parking.plazas == [p1, p2, p3, p4]
    ensures p1.numero == 1 && p2.numero == 2 && p3.numero == 3 && p4.numero == 4
    ensures p1.tipo == "coche" && p2.tipo == "coche" && p3.tipo == "coche" && p4.tipo == "moto"
    ensures p1.estado == Libre && p2.estado == Libre && p3.estado == Libre && p4.estado == Libre
  {
    parking := new Parking();
    p1 := new Plaza(1, "coche");
    parking.AgregarPlaza(p1);
    p2 := new Plaza(2, "coche");
    parking.AgregarPlaza(p2);
    p3 := new Plaza(3, "coche");
    parking.AgregarPlaza(p3);
    p4 := new Plaza(4, "moto");
    parking.AgregarPlaza(p4);
  }

  /**
   * One car arriving when spot `k` is the first free car spot: it is given
   * that spot, which becomes occupied, and every other spot keeps its state.
   */
  method LlegaCoche(parking: Parking, codigo: string, ahora: int, k: nat) returns (n: int)
    requires k < |parking.plazas| && Disponible(parking.plazas[k], "coche")
    requires forall j :: 0 <= j < k ==> !Disponible(parking.plazas[j], "coche")
    modifies parking.plazas
    ensures n == parking.plazas[k].numero && parking.plazas[k].estado == Ocupada
    ensures forall q :: q in parking.plazas && q != parking.plazas[k] ==> q.estado == old(q.estado)
  {
    PrimeraLibreEn(parking.plazas, "coche", k);
    var t, p := parking.ReservarYGenerarTicket(Vehiculo("1234ABC", "coche"), codigo, ahora);
    n := p.numero;
  }

  /** The first two cars arriving at the start-up parking get spots 1 and 2; spots 3 and 4 stay free. */
  method DosCoches(parking: Parking, p1: Plaza, p2: Plaza, p3: Plaza, p4: Plaza) returns (n1: int, n2: int)
    requires parking.plazas == [p1, p2, p3, p4]
    requires p1.numero == 1 && p2.numero == 2 && p3.numero == 3
    requires p1.tipo == "coche" && p2.tipo == "coche" && p3.tipo == "coche" && p4.tipo == "moto"
    requires p1.estado == Libre && p2.estado == Libre && p3.estado == Libre && p4.estado == Libre
    modifies parking.plazas
    ensures n1 == 1 && n2 == 2
    ensures p1.estado == Ocupada && p2.estado == Ocupada && p3.estado == Libre && p4.estado == Libre
  {
    n1 := LlegaCoche(parking, "00000001", 0, 0);
    assert p2 in parking.plazas && p3 in parking.plazas && p4 in parking.plazas;
    n2 := LlegaCoche(parking, "00000002", 60, 1);
    assert p3 in parking.plazas && p4 in parking.plazas;
  }

  /**
   * Four cars in a row: they get spots 1, 2 and 3 in that order, and the
   * fourth finds no spot (the motorcycle spot is never given to a car).
   */
  method CuatroCoches() returns (n1: int, n2: int, n3: int, cuartoSinPlaza: bool)
    ensures n1 == 1 && n2 == 2 && n3 == 3 && cuartoSinPlaza
  {
    var parking, p1, p2, p3, p4 := ParkingInicial();
    n1, n2 := DosCoches(parking, p1, p2, p3, p4);
    n3 := LlegaCoche(parking, "00000003", 120, 2);
    assert p4 in parking.plazas;
    assert !Disponible(parking.plazas[3], "coche");
    var t, p := parking.ReservarYGenerarTicket(Vehiculo("1234ABC", "coche"), "00000004", 180);
    cuartoSinPlaza := t == null && p == null;
  }

  /** The operator's plate " abc123 " loses its blanks... */
  lemma PlacaRecortada()
    ensures Strip(" abc123 ") == "abc123"
  {
    assert " abc123 " == [' '] + "abc123" + [' '];
    StripRelleno("abc123");
  }

  /** ... and is upper-cased to "ABC123". */
  lemma PlacaMayuscula()
    ensures NuevoVehiculo("abc123", "coche") == Vehiculo("ABC123", "coche")
  {
    var u := Upper("abc123");
    assert u[0] == 'A' && u[1] == 'B' && u[2] == 'C' && u[3] == '1' && u[4] == '2' && u[5] == '3';
  }

  /** A ticket code without surrounding blanks is looked up as typed. */
  lemma CodigoRecortado()
    ensures Strip("c0ffee01") == "c0ffee01"
  {
    StripSinBordes("c0ffee01");
  }

  /** The application over the start-up parking, with no active ticket. */
  method AppInicial() returns (app: ParkingApp, p1: Plaza, p2: Plaza, p3: Plaza, p4: Plaza)
    ensures fresh(app) && fresh(p1) && fresh(p2) && fresh(p3) && fresh(p4)
    ensures app.Valid() && app.ticketsActivos == map[]
    ensures app.parking.tarifas == TARIFAS_INICIALES && app.parking.plazas == [p1, p2, p3, p4]
    ensures p1.numero == 1 && p1.tipo == "coche" && p1.estado == Libre
  {
    var parking;
    parking, p1, p2, p3, p4 := ParkingInicial();
    app := new ParkingApp(parking);
  }

  /** The first car entering the start-up parking, plate typed as " abc123 ", is given spot 1. */
  method PrimeraEntrada(app: ParkingApp, matricula: string, p1: Plaza, p2: Plaza, p3: Plaza, p4: Plaza) returns (t: Ticket)
    requires Strip(matricula) == "abc123"
    requires app.Valid() && app.ticketsActivos == map[]
    requires app.parking.plazas == [p1, p2, p3, p4] && p1.tipo == "coche" && p1.estado == Libre
    modifies app, p1, p2, p3, p4
    ensures app.Valid() && app.ticketsActivos == map["c0ffee01" := (t, p1)]
    ensures fresh(t) && t.vehiculo == Vehiculo("ABC123", "coche") && t.horaEntrada == 1000
  {
    PlacaMayuscula();
    PrimeraLibreEn(app.parking.plazas, "coche", 0);
    var e := app.RegistrarEntrada(matricula, "coche", "c0ffee01", 1000);
    t := e.ticket;
  }

  /** With one active ticket, the application holds exactly that ticket and its spot. */
  lemma UnSoloTicket(app: ParkingApp, codigo: string, t: Ticket, p: Plaza)
    requires app.ticketsActivos == map[codigo := (t, p)]
    ensures app.Tickets() == {t} && app.PlazasTomadas() == {p}
  {
    assert codigo in app.ticketsActivos;
  }

  /** Leaving at the entry time: 1h 30min at 2.50 per hour, 3.75, and the spot is free again. */
  method PrimeraSalida(app: ParkingApp, codigo: string, t: Ticket, p1: Plaza) returns (recibo: Recibo)
    requires Strip(codigo) == codigo
    requires app.Valid() && app.ticketsActivos == map[codigo := (t, p1)]
    requires app.parking.tarifas == TARIFAS_INICIALES
    requires t.vehiculo == Vehiculo("ABC123", "coche") && t.horaEntrada == 1000
    modifies app, t, p1
    ensures app.Valid() && app.ticketsActivos == map[] && p1.estado == Libre
    ensures recibo == Recibo(codigo, "ABC123", 1, 30, 375)
  {
    UnSoloTicket(app, codigo, t, p1);
    var s := app.ProcesarSalida(codigo, 1000);
    assert app.ticketsActivos.Keys == {};
    SalidaInmediataCoche(1000, codigo, t.vehiculo.matricula);
    recibo := s.recibo;
  }

  /** Once paid, the same code is refused. */
  method SalidaRepetida(app: ParkingApp, codigo: string) returns (rechazada: bool)
    requires Strip(codigo) == codigo
    requires app.Valid() && app.ticketsActivos == map[]
    modifies app
    ensures rechazada && app.Valid() && app.ticketsActivos == map[]
  {
    assert app.Tickets() == {} && app.PlazasTomadas() == {};
    var s := app.ProcesarSalida(codigo, 1000);
    rechazada := s == CodigoInvalido;
  }

  /** A car entering when spot 1 is free again is given spot 1. */
  method EntradaSiguiente(app: ParkingApp, p1: Plaza, p2: Plaza, p3: Plaza, p4: Plaza) returns (n: int)
    requires app.Valid() && app.parking.plazas == [p1, p2, p3, p4] && p1.tipo == "coche" && p1.estado == Libre
    modifies app, p1, p2, p3, p4
    ensures n == p1.numero
  {
    StripSinBordes("XYZ");
    PrimeraLibreEn(app.parking.plazas, "coche", 0);
    var e := app.RegistrarEntrada("XYZ", "coche", "c0ffee02", 2000);
    n := e.plaza.numero;
  }

  /** The first car, plate typed as " abc123 ", enters the start-up parking and leaves at once. */
  method EntraYSale(app: ParkingApp, p1: Plaza, p2: Plaza, p3: Plaza, p4: Plaza) returns (plazaEntrada: int, recibo: Recibo)
    requires app.Valid() && app.ticketsActivos == map[]
    requires app.parking.tarifas == TARIFAS_INICIALES && app.parking.plazas == [p1, p2, p3, p4]
    requires p1.numero == 1 && p1.tipo == "coche" && p1.estado == Libre
    modifies app, p1, p2, p3, p4
    ensures app.Valid() && app.ticketsActivos == map[] && p1.estado == Libre
    ensures plazaEntrada == 1 && recibo == Recibo("c0ffee01", "ABC123", 1, 30, 375)
  {
    PlacaRecortada();
    var t := PrimeraEntrada(app, " abc123 ", p1, p2, p3, p4);
    plazaEntrada := p1.numero;
    CodigoRecortado();
    recibo := PrimeraSalida(app, "c0ffee01", t, p1);
  }

  /**
   * A car enters with a padded lower-case plate and leaves at the same
   * instant: it is given spot 1, pays for the demo's 1h 30min at 2.50 per
   * hour (3.75), a second exit with the same code is refused, and the next
   * car is given spot 1 again.
   */
  method EntradaYSalida() returns (plazaEntrada: int, recibo: Recibo, segundaSalidaRechazada: bool, plazaSiguiente: int)
    ensures plazaEntrada == 1
    ensures recibo == Recibo("c0ffee01", "ABC123", 1, 30, 375)
    ensures segundaSalidaRechazada
    ensures plazaSiguiente == 1
  {
    var app, p1, p2, p3, p4 := AppInicial();
    plazaEntrada, recibo := EntraYSale(app, p1, p2, p3, p4);
    CodigoRecortado();
    segundaSalidaRechazada := SalidaRepetida(app, "c0ffee01");
    plazaSiguiente := EntradaSiguiente(app, p1, p2, p3, p4);
  }

  /** The spots held by active tickets belong to the parking. */
  lemma TomadasEnParking(app: ParkingApp)
    requires app.Valid()
    ensures forall q :: q in app.PlazasTomadas() ==> q in app.parking.plazas
  {
    forall q | q in app.PlazasTomadas()
      ensures q in app.parking.plazas
    {
      var c :| c in app.ticketsActivos && app.ticketsActivos[c].1 == q;
    }
  }

  /** An accepted entry files a new ticket, for the normalised plate, on a spot of its category. */
  method Entrar(app: ParkingApp, matricula: string, tipo: string, codigo: string, ahora: int)
    returns (t: Ticket, p: Plaza)
    requires app.Valid()
    requires Strip(matricula) != [] && PrimeraLibre(app.parking.plazas, tipo).Some?
    modifies app, app.parking.plazas
    ensures app.Valid() && app.ticketsActivos == old(app.ticketsActivos)[codigo := (t, p)]
    ensures fresh(t) && t.horaEntrada == ahora
    ensures t.vehiculo.matricula == Upper(Strip(matricula)) && t.vehiculo.tipo == tipo
    ensures app.parking.plazas == old(app.parking.plazas)
    ensures p == old(app.parking.plazas)[old(PrimeraLibre(app.parking.plazas, tipo)).value]
    ensures p.tipo == tipo
    ensures forall o :: o in app.Tickets() ==> o in old(app.Tickets()) || fresh(o)
  {
    var e := app.RegistrarEntrada(matricula, tipo, codigo, ahora);
    t, p := e.ticket, e.plaza;
  }

  /** The exit of an active ticket that entered no later than `salida`. */
  method Salir(app: ParkingApp, codigo: string, t: Ticket, p: Plaza, salida: int) returns (recibo: Recibo)
    requires app.Valid() && Strip(codigo) == codigo
    requires codigo in app.ticketsActivos && app.ticketsActivos[codigo] == (t, p)
    requires t.horaEntrada <= salida
    modifies app, app.Tickets(), app.parking.plazas
    ensures app.Valid() && codigo !in app.ticketsActivos && p.estado == Libre
    ensures app.parking.plazas == old(app.parking.plazas)
    ensures recibo.codigo == codigo && recibo.matricula == t.vehiculo.matricula
    ensures recibo.horas >= 1 && 0 <= recibo.minutos < 60
    ensures recibo.total >= Importe(DESPLAZAMIENTO_DEMO, Tarifa(app.parking.tarifas, t.vehiculo.tipo)) >= 0
  {
    var entrada := t.horaEntrada;
    TomadasEnParking(app);
    var s := app.ProcesarSalida(codigo, salida);
    assert s.Pagada?;
    ghost var tarifa := Tarifa(app.parking.tarifas, t.vehiculo.tipo);
    assert s.recibo == Liquidar(codigo, t.vehiculo.matricula, TiempoFacturado(entrada, salida), tarifa);
    ReciboMinimo(codigo, t.vehiculo.matricula, entrada, salida, tarifa);
    recibo := s.recibo;
  }

  /**
   * Any entry followed by the exit of the ticket it produced: the receipt
   * carries the ticket's code and the stripped, upper-cased plate, bills at
   * least one whole hour and at least the 90-minute fee of the category,
   * and the spot the car was given, the first free one of its category when
   * it arrived, is free again.
   */
  method IdaYVuelta(app: ParkingApp, matricula: string, tipo: string, codigo: string, ahora: int, salida: int)
    returns (recibo: Recibo, plaza: Plaza)
    requires app.Valid()
    requires Strip(matricula) != [] && Strip(codigo) == codigo
    requires PrimeraLibre(app.parking.plazas, tipo).Some?
    requires ahora <= salida
    modifies app, app.parking.plazas, app.Tickets()
    ensures app.Valid() && codigo !in app.ticketsActivos
    ensures recibo.codigo == codigo && recibo.matricula == Upper(Strip(matricula))
    ensures recibo.horas >= 1 && 0 <= recibo.minutos < 60
    ensures recibo.total >= Importe(DESPLAZAMIENTO_DEMO, Tarifa(app.parking.tarifas, tipo)) >= 0
    ensures plaza == old(app.parking.plazas)[old(PrimeraLibre(app.parking.plazas, tipo)).value]
    ensures plaza in app.parking.plazas && plaza.tipo == tipo && plaza.estado == Libre
  {
    ghost var plazas, k := app.parking.plazas, PrimeraLibre(app.parking.plazas, tipo).value;
    var t, p := Entrar(app, matricula, tipo, codigo, ahora);
    assert p == plazas[k] && p.tipo == tipo && t.vehiculo.tipo == tipo;
    recibo := Salir(app, codigo, t, p, salida);
    assert app.parking.plazas == plazas && p in plazas;
    plaza := p;
  }
}
