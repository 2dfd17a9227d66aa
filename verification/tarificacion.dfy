/**
 * Billing arithmetic of `Parking.procesar_salida`, on integers: times are whole
 * seconds and money is whole cents (euro cents), so that the hourly rates 2.50,
 * 1.50 and the default 2.0 become 250, 150 and 200, and rounding the fee to two
 * decimals becomes rounding a quotient by 3600 to the nearest integer.
 */
module Tarificacion {

  const SEGUNDOS_POR_HORA: int := 3600
  const SEGUNDOS_POR_MINUTO: int := 60

  /** The 90 minutes by which exit processing moves the entry time back. */
  const DESPLAZAMIENTO_DEMO: int := 90 * SEGUNDOS_POR_MINUTO

  /** Rate in cents per hour for a category missing from the tariff table. */
  const TARIFA_POR_DEFECTO: nat := 200

  /** The tariff table a new `Parking` starts with. */
  const TARIFAS_INICIALES: map<string, nat> := map["coche" := 250, "moto" := 150]

  /** `tarifas.get(tipo, 2.0)`, in cents per hour. */
  function Tarifa(tarifas: map<string, nat>, tipo: string): nat
  {
    if tipo in tarifas then tarifas[tipo] else TARIFA_POR_DEFECTO
  }

  /** Cars pay 2.50, motorcycles 1.50 and every other category 2.00 per hour. */
  lemma TarifasIniciales(tipo: string)
    ensures Tarifa(TARIFAS_INICIALES, "coche") == 250
    ensures Tarifa(TARIFAS_INICIALES, "moto") == 150
    ensures tipo != "coche" && tipo != "moto" ==> Tarifa(TARIFAS_INICIALES, tipo) == TARIFA_POR_DEFECTO
  {
  }

  /**
   * Python's `round` applied to the exact quotient n / d: the nearest integer,
   * and on a tie the even one.
   */
  function Redondear(n: int, d: int): (q: int)
    requires d > 0
    ensures 2 * (n - q * d) <= d && 2 * (q * d - n) <= d
    ensures 2 * (n - q * d) == d || 2 * (q * d - n) == d ==> q % 2 == 0
  {
    var q0, r := n / d, n % d;
    assert n == q0 * d + r;
    if 2 * r < d then q0
    else if 2 * r > d then q0 + 1
    else if q0 % 2 == 0 then q0
    else q0 + 1
  }

  /** The facts about multiples of a positive d that the rounding proofs need. */
  lemma Multiplos(j: int, k: int, d: int)
    requires d > 0
    ensures j * d - k * d == (j - k) * d
    ensures j - k >= 1 ==> (j - k) * d >= d
    ensures (j - k) * d == d ==> j - k == 1
    ensures k <= -1 ==> k * d <= -d
  {
  }

  /** The two properties above pin the rounded value down: any integer that has both is `Redondear(n, d)`. */
  lemma RedondeoUnico(n: int, d: int, q: int)
    requires d > 0
    requires 2 * (n - q * d) <= d && 2 * (q * d - n) <= d
    requires 2 * (n - q * d) == d || 2 * (q * d - n) == d ==> q % 2 == 0
    ensures q == Redondear(n, d)
  {
    // Two candidates within d/2 of n lie exactly d apart with n halfway
    // between them, so both would have to be even.
    var p := Redondear(n, d);
    if q < p {
      Multiplos(p, q, d);
    } else if p < q {
      Multiplos(q, p, d);
    }
  }

  /** Rounding keeps order: a larger quotient never rounds to a smaller integer. */
  lemma RedondeoMonotono(n1: int, n2: int, d: int)
    requires d > 0 && n1 <= n2
    ensures Redondear(n1, d) <= Redondear(n2, d)
  {
    var q1, q2 := Redondear(n1, d), Redondear(n2, d);
    if q1 > q2 {
      // q1 is at least d/2 below n1 and q2 at most d/2 above n2 >= n1, so
      // they are exactly d apart and n1 == n2 is a tie: both would be even.
      Multiplos(q1, q2, d);
    }
  }

  /** A non-negative quotient never rounds below zero. */
  lemma RedondeoNoNegativo(n: int, d: int)
    requires d > 0
    ensures n >= 0 ==> Redondear(n, d) >= 0
  {
    Multiplos(0, Redondear(n, d), d);
  }

  /**
   * `round(horas * tarifa, 2)` in cents, for a stay of `segundos` seconds at
   * `tarifa` cents per hour: the cent amount nearest to the exact fee.
   */
  function Importe(segundos: int, tarifa: nat): (c: int)
    ensures 2 * (c * SEGUNDOS_POR_HORA - segundos * tarifa) <= SEGUNDOS_POR_HORA
    ensures 2 * (segundos * tarifa - c * SEGUNDOS_POR_HORA) <= SEGUNDOS_POR_HORA
    ensures (2 * (c * SEGUNDOS_POR_HORA - segundos * tarifa) == SEGUNDOS_POR_HORA ||
             2 * (segundos * tarifa - c * SEGUNDOS_POR_HORA) == SEGUNDOS_POR_HORA) ==> c % 2 == 0
    ensures segundos >= 0 ==> c >= 0
  {
    RedondeoNoNegativo(segundos * tarifa, SEGUNDOS_POR_HORA);
    assert segundos >= 0 ==> segundos * tarifa >= 0;
    Redondear(segundos * tarifa, SEGUNDOS_POR_HORA)
  }

  /** For a fixed rate, a longer stay never costs less. */
  lemma ImporteMonotonoEnTiempo(s1: int, s2: int, tarifa: nat)
    requires s1 <= s2
    ensures Importe(s1, tarifa) <= Importe(s2, tarifa)
  {
    assert s1 * tarifa <= s2 * tarifa by {
      assert s2 * tarifa - s1 * tarifa == (s2 - s1) * tarifa;
    }
    RedondeoMonotono(s1 * tarifa, s2 * tarifa, SEGUNDOS_POR_HORA);
  }

  /** For a fixed stay, a higher rate never costs less. */
  lemma ImporteMonotonoEnTarifa(segundos: nat, t1: nat, t2: nat)
    requires t1 <= t2
    ensures Importe(segundos, t1) <= Importe(segundos, t2)
  {
    assert segundos * t1 <= segundos * t2 by {
      assert segundos * t2 - segundos * t1 == segundos * (t2 - t1);
    }
    RedondeoMonotono(segundos * t1, segundos * t2, SEGUNDOS_POR_HORA);
  }

  /** `int(horas)`: the whole hours of the stay, truncated towards zero as Python's `int` does. */
  function Horas(segundos: int): (h: int)
    ensures segundos >= 0 ==> 0 <= h && h * SEGUNDOS_POR_HORA <= segundos < (h + 1) * SEGUNDOS_POR_HORA
    ensures segundos < 0 ==> h <= 0 && (h - 1) * SEGUNDOS_POR_HORA < segundos <= h * SEGUNDOS_POR_HORA
  {
    if segundos >= 0 then segundos / SEGUNDOS_POR_HORA
    else -((-segundos) / SEGUNDOS_POR_HORA)
  }

  /** `int((horas % 1) * 60)`: the whole minutes of the fraction of an hour, Python's `%` being a floor modulo. */
  function Minutos(segundos: int): (m: int)
    ensures 0 <= m < 60
    ensures m * SEGUNDOS_POR_MINUTO <= segundos % SEGUNDOS_POR_HORA < (m + 1) * SEGUNDOS_POR_MINUTO
  {
    (segundos % SEGUNDOS_POR_HORA) / SEGUNDOS_POR_MINUTO
  }

  /**
   * For a stay of non-negative length the receipt shows whole hours and
   * minutes that add up to the stay minus less than a minute; the minutes
   * are always in [0, 60), whatever the sign of the stay.
   */
  lemma Desglose(segundos: int)
    ensures 0 <= Minutos(segundos) < 60
    ensures segundos >= 0 ==>
      Horas(segundos) >= 0 &&
      Horas(segundos) * SEGUNDOS_POR_HORA + Minutos(segundos) * SEGUNDOS_POR_MINUTO <= segundos <
      Horas(segundos) * SEGUNDOS_POR_HORA + Minutos(segundos) * SEGUNDOS_POR_MINUTO + SEGUNDOS_POR_MINUTO
  {
    var r := segundos % SEGUNDOS_POR_HORA;
    assert 0 <= r < SEGUNDOS_POR_HORA;
    assert r == (r / SEGUNDOS_POR_MINUTO) * SEGUNDOS_POR_MINUTO + r % SEGUNDOS_POR_MINUTO;
  }

  /** The receipt `procesar_salida` returns; `total` is in cents. */
  datatype Recibo = Recibo(codigo: string, matricula: string, horas: int, minutos: int, total: int)

  /**
   * The receipt for a stay of `segundos` seconds billed at `tarifa` cents per
   * hour: hours and minutes as in `Desglose`, the fee as in `Importe`.
   */
  function Liquidar(codigo: string, matricula: string, segundos: int, tarifa: nat): (r: Recibo)
    ensures r.codigo == codigo && r.matricula == matricula
    ensures 0 <= r.minutos < 60
    ensures segundos >= 0 ==>
      0 <= r.horas && 0 <= r.total &&
      r.horas * SEGUNDOS_POR_HORA + r.minutos * SEGUNDOS_POR_MINUTO <= segundos <
      r.horas * SEGUNDOS_POR_HORA + r.minutos * SEGUNDOS_POR_MINUTO + SEGUNDOS_POR_MINUTO
    ensures 2 * (r.total * SEGUNDOS_POR_HORA - segundos * tarifa) <= SEGUNDOS_POR_HORA
    ensures 2 * (segundos * tarifa - r.total * SEGUNDOS_POR_HORA) <= SEGUNDOS_POR_HORA
    ensures (2 * (r.total * SEGUNDOS_POR_HORA - segundos * tarifa) == SEGUNDOS_POR_HORA ||
             2 * (segundos * tarifa - r.total * SEGUNDOS_POR_HORA) == SEGUNDOS_POR_HORA) ==> r.total % 2 == 0
  {
    Desglose(segundos);
    Recibo(codigo, matricula, Horas(segundos), Minutos(segundos), Importe(segundos, tarifa))
  }

  /** The stay billed when the entry time has been moved back by the demo shift and the exit is `salida`. */
  function TiempoFacturado(entrada: int, salida: int): (t: int)
    ensures salida >= entrada ==> t >= DESPLAZAMIENTO_DEMO
  {
    salida - (entrada - DESPLAZAMIENTO_DEMO)
  }

  /**
   * Because of the demo shift, leaving at or after the real entry time is
   * billed at least one hour and thirty minutes, and at least the fee of
   * ninety minutes.
   */
  lemma CobroMinimo(entrada: int, salida: int, tarifa: nat)
    requires entrada <= salida
    ensures Horas(TiempoFacturado(entrada, salida)) >= 1
    ensures Importe(TiempoFacturado(entrada, salida), tarifa) >= Importe(DESPLAZAMIENTO_DEMO, tarifa)
    ensures Importe(TiempoFacturado(entrada, salida), TARIFAS_INICIALES["coche"]) >= 375
  {
    var t := TiempoFacturado(entrada, salida);
    ImporteMonotonoEnTiempo(DESPLAZAMIENTO_DEMO, t, tarifa);
    ImporteMonotonoEnTiempo(DESPLAZAMIENTO_DEMO, t, TARIFAS_INICIALES["coche"]);
    assert Importe(DESPLAZAMIENTO_DEMO, 250) == 375;
  }

  /**
   * The receipt of a stay whose exit is not before its real entry: it carries
   * the code and plate, at least one whole hour, minutes in [0, 60), and a
   * total no lower than the fee of 90 minutes, which is not negative.
   */
  lemma ReciboMinimo(codigo: string, matricula: string, entrada: int, salida: int, tarifa: nat)
    requires entrada <= salida
    ensures var r := Liquidar(codigo, matricula, TiempoFacturado(entrada, salida), tarifa);
      r.codigo == codigo && r.matricula == matricula && r.horas >= 1 && 0 <= r.minutos < 60 &&
      r.total >= Importe(DESPLAZAMIENTO_DEMO, tarifa) >= 0
  {
    CobroMinimo(entrada, salida, tarifa);
  }

  /** A car leaving at its entry time: 1h 30min and 3.75. */
  lemma SalidaInmediataCoche(entrada: int, codigo: string, matricula: string)
    ensures var t := TiempoFacturado(entrada, entrada);
      Liquidar(codigo, matricula, t, Tarifa(TARIFAS_INICIALES, "coche")) == Recibo(codigo, matricula, 1, 30, 375)
  {
  }
}
