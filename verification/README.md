# Parking allocation and billing, modelled in Dafny

A model of the engine behind a small parking-management program (the Tkinter
demo `S15/parking.py`). It covers:

- the spots (`Plaza`), each with a fixed number and vehicle category and a
  state that moves between `libre`, `reservada` and `ocupada`;
- the `Parking`, which keeps its spots in registration order and gives an
  arriving vehicle the first free spot of its category together with a new
  ticket;
- billing on exit: the entry time is moved back 90 minutes, the exit is
  stamped, and the stay is charged at the hourly rate of the category
  (2.50 for cars, 1.50 for motorcycles, 2.0 for anything else), with a receipt
  showing whole hours and minutes;
- the application's bookkeeping of active tickets, a dictionary from ticket
  code to `(ticket, spot)`: an entry with an empty plate is refused; a code
  unknown at exit is refused without changing anything; a known code is
  removed, billed, and its spot freed.

Modules, one per concern:

| file | module | what it holds |
|---|---|---|
| `texto.dfy` | `Texto` | `str.strip()` and `str.upper()` as applied to the operator's input |
| `plazas.dfy` | `Plazas` | the `Estado` datatype, the state machine as a reference function, the `Plaza` class |
| `tarificacion.dfy` | `Tarificacion` | the pure fee and receipt arithmetic, in whole seconds and cents |
| `parking.dfy` | `Parking` | `Vehiculo`, the `Ticket` class, the first-match search, the `Parking` class |
| `app.dfy` | `App` | the `ParkingApp` class with its map of active tickets and its invariant `Valid` |
| `escenarios.dfy` | `Escenarios` | the start-up parking (three car spots, one motorcycle spot) and runs on it |

Units: times are whole seconds and money is whole cents. The clock is a
parameter `ahora` of every operation that reads it, and the ticket code is a
parameter `codigo` of every operation that creates a ticket.

`Plaza.estado` is updated in place, and so are the `Parking`'s list of spots,
a ticket's timestamps and the application's active-ticket map. These are
classes whose methods carry `modifies` clauses. Each spot operation is also
tied to the reference function `Plazas.Transicion`, and the lemmas about runs
of operations are proved on that function. The billing arithmetic is pure and
is written as functions with lemmas.

Points where the code's own behaviour is kept as written:

- The comment at `S15/parking.py:68` calls the 90-minute shift of line 69 a
  simulation meant to make the fee visible. The model keeps it on every exit
  (`Parking.Parking.ProcesarSalida`, `Tarificacion.TiempoFacturado`), so every
  stay is billed 90 minutes more than its real length.
- Calling `Parking.ProcesarSalida` twice on the same ticket moves the entry
  back twice, as line 69 does on each call. The application never does
  this, because it removes the ticket from its map first (line 192).
- The plate is checked for emptiness after `strip()` and before `upper()`
  (lines 159-166), and the model checks it in the same order.

## Model

| member | source | states |
|---|---|---|
| `Plazas.Plaza.constructor` | S15/parking.py:9-12 | a new spot has the given number and category and is `libre` |
| `Plazas.Plaza.Reservar` | S15/parking.py:14-18 | returns true iff the spot was `libre`; on success it becomes `reservada`, otherwise its state is unchanged; the new state is `Transicion(old, Reserva)` |
| `Plazas.Plaza.Liberar` | S15/parking.py:20-21 | the spot is `libre` whatever its previous state, as `Transicion(old, Liberacion)` |
| `Plazas.Plaza.Ocupar` | S15/parking.py:23-27 | returns true iff the spot was `libre` or `reservada`; on success it becomes `ocupada`, otherwise (already `ocupada`) unchanged; the new state is `Transicion(old, Ocupacion)` |
| `Plazas.TransicionesPosibles` | S15/parking.py:14-27 | every change of state is libre→reservada, libre→ocupada, reservada→ocupada or a release to libre; only `reservar` from `libre` reaches `reservada` |
| `Plazas.SinLiberarSoloAvanza` | S15/parking.py:14-27 | with no release in between, a spot never moves back, and once any operation has run it is no longer `libre` |
| `Plazas.OcupadaHastaLiberar` | S15/parking.py:23-27 | an occupied spot stays occupied under any run of operations without a release |
| `Plazas.LiberarAlFinal` | S15/parking.py:20-21 | any run of operations that ends with a release leaves the spot `libre` |
| `Plazas.LiberarIdempotente` | S15/parking.py:20-21 | releasing twice gives the same state as releasing once, after any history |
| `Texto.QuitarInicio` | S15/parking.py:159 | the result is a suffix of the input, everything removed is whitespace, and the result does not start with whitespace |
| `Texto.QuitarFinal` | S15/parking.py:159 | the result is a prefix of the input, everything removed is whitespace, and the result does not end with whitespace |
| `Texto.Strip` | S15/parking.py:159 | the result is what is left between leading and trailing whitespace; it is empty iff the input is all whitespace; otherwise it starts and ends with a non-whitespace character |
| `Texto.StripIdempotente` | S15/parking.py:187 | stripping twice is the same as stripping once |
| `Texto.StripSinBordes` | S15/parking.py:187 | a string that starts and ends with a non-whitespace character (or is empty) strips to itself |
| `Texto.StripRelleno` | S15/parking.py:159 | a non-empty string without whitespace at its ends, surrounded by one blank on each side, strips back to the string |
| `Texto.Upper` | S15/parking.py:34 | same length; no lower-case ASCII letter is left; every other character is kept; each lower-case letter becomes its upper-case letter |
| `Texto.UpperIdempotente` | S15/parking.py:34 | upper-casing twice is the same as upper-casing once |
| `Parking.NuevoVehiculo` | S15/parking.py:32-35 | the vehicle keeps its category; its plate is `Upper` of the input: same length, each lower-case letter replaced by its upper-case letter, every other character kept |
| `Parking.Ticket.constructor` | S15/parking.py:38-42 | a new ticket has the given code and vehicle, is stamped with the current time on entry and has no exit |
| `Parking.Ticket.RegistrarSalida` | S15/parking.py:44-45 | the exit is stamped with the current time and the entry is left as it was |
| `Parking.Ticket.CalcularTiempo` | S15/parking.py:47-49 | no contract; defines `fin - horaEntrada`, with `fin` the stamped exit or else `ahora` |
| `Parking.PrimeraLibre` | S15/parking.py:60-61 | the position found holds a free spot of the category and no earlier position does; there is no position exactly when no spot of the category is free |
| `Parking.PrimeraLibreEn` | S15/parking.py:60-61 | the first free spot of the category is at position k whenever k holds one and no earlier position does |
| `Parking.Parking.constructor` | S15/parking.py:52-54 | a new parking has no spots and the tariffs coche 250 and moto 150 cents per hour |
| `Parking.Parking.AgregarPlaza` | S15/parking.py:56-57 | the spot is appended at the end, and the earlier spots keep their positions |
| `Parking.Parking.ReservarYGenerarTicket` | S15/parking.py:59-65 | returns the ticket and spot both null or both not; null exactly when no spot of the vehicle's category is free; otherwise the spot is the first free one of that category in list order, was `libre` and is now `ocupada`, and the ticket is new, for that vehicle and code, entered now and not exited; no other spot changes state |
| `Parking.Parking.ProcesarSalida` | S15/parking.py:67-82 | the entry is moved back 90 minutes and the exit stamped now; the receipt bills the shifted stay at the category's tariff, or the default, with the ticket's code and plate |
| `Tarificacion.Tarifa` | S15/parking.py:74 | no contract; defines `tarifas.get(tipo, 2.0)` in cents: the table's rate when the category is in it, 200 otherwise |
| `Tarificacion.TarifasIniciales` | S15/parking.py:54 | the initial table charges cars 250 and motorcycles 150 cents per hour, and every other category the default 200 |
| `Tarificacion.Redondear` | S15/parking.py:74 | the result is within half a unit of n/d, and on an exact tie it is even (Python's `round`) |
| `Tarificacion.RedondeoUnico` | S15/parking.py:74 | any integer within half a unit of n/d that is even on a tie is `Redondear(n, d)` |
| `Tarificacion.RedondeoMonotono` | S15/parking.py:74 | rounding keeps order: n1 <= n2 implies their rounded quotients are ordered the same way |
| `Tarificacion.RedondeoNoNegativo` | S15/parking.py:74 | a non-negative quotient does not round below zero |
| `Tarificacion.Importe` | S15/parking.py:73-74 | the fee in cents is within half a cent of seconds × rate / 3600, an exact tie goes to the even cent, and the fee is non-negative for a non-negative stay |
| `Tarificacion.ImporteMonotonoEnTiempo` | S15/parking.py:73-74 | for a fixed rate, a longer stay never costs less |
| `Tarificacion.ImporteMonotonoEnTarifa` | S15/parking.py:73-74 | for a fixed non-negative stay, a higher rate never costs less |
| `Tarificacion.Horas` | S15/parking.py:79 | `int(horas)`: for a non-negative stay the whole hours it contains; for a negative one the hour count truncated towards zero |
| `Tarificacion.Minutos` | S15/parking.py:80 | `int((horas % 1) * 60)`: a value in [0, 60), the whole minutes in the stay's floor remainder modulo one hour |
| `Tarificacion.Desglose` | S15/parking.py:79-80 | the receipt minutes are in [0, 60); for a non-negative stay the whole hours and minutes add up to the stay minus less than one minute |
| `Tarificacion.Liquidar` | S15/parking.py:76-82 | the receipt carries the code and plate; its minutes are in [0, 60); for a non-negative stay its hours and total are non-negative and hours and minutes add up to the stay to within a minute; its total is the nearest cent to the exact fee, a tie going to the even cent |
| `Tarificacion.TiempoFacturado` | S15/parking.py:69-73 | with the 90-minute shift, a stay whose exit is not before its real entry is billed at least 90 minutes |
| `Tarificacion.CobroMinimo` | S15/parking.py:69-74 | leaving at or after the real entry is billed at least one whole hour and at least the fee of 90 minutes, 3.75 for a car |
| `Tarificacion.ReciboMinimo` | S15/parking.py:69-81 | the receipt of a stay whose exit is not before its real entry carries the code and plate, at least one hour, minutes in [0, 60), and a total no lower than the non-negative 90-minute fee |
| `Tarificacion.SalidaInmediataCoche` | S15/parking.py:69-80 | a car leaving at its entry time gets 1 h 30 min and 375 cents |
| `App.ParkingApp.constructor` | S15/parking.py:88-93 | the application starts with no active tickets, which satisfies its invariant |
| `App.ParkingApp.RegistrarEntrada` | S15/parking.py:158-173 | refused iff the stripped plate is empty; "no spots" iff no spot of the category is free, and then nothing changes; otherwise the first free spot of the category is occupied, a new ticket for the upper-cased stripped plate is filed under its code, and no other spot changes; the active-ticket invariant is kept |
| `App.ParkingApp.Registrar` | S15/parking.py:166-173 | for an accepted plate: "no spots" iff none is free, with nothing changed; otherwise the allocated spot and the new ticket are filed under the code; the invariant is kept |
| `App.ParkingApp.Archivar` | S15/parking.py:173 | filing a ticket that has not exited, on an occupied spot of its category not held by another active ticket, keeps the invariant and sets the map entry for the code |
| `App.ParkingApp.ProcesarSalida` | S15/parking.py:186-194 | refused iff the stripped code is not active, and then nothing changes; otherwise the code is removed from the map, its ticket is billed as `Parking.ProcesarSalida` bills it, its spot is `libre`, and no other held spot or active ticket changes; the parking's list of spots is unchanged; the invariant is kept |
| `App.ParkingApp.Cobrar` | S15/parking.py:192-194 | for an active code: the entry is removed, the receipt is the shifted stay billed at the category's rate, the spot is freed, the other active tickets and held spots are left alone, and the parking's list of spots is unchanged |
| `Escenarios.ParkingInicial` | S15/parking.py:215-218 | the start-up parking holds spots 1-3 for cars and 4 for motorcycles, in that order, all free, with the initial tariffs |
| `Escenarios.LlegaCoche` | S15/parking.py:59-64 | a car arriving when position k is the first free car spot gets that spot, which becomes occupied, and no other spot changes |
| `Escenarios.DosCoches` | S15/parking.py:59-64 | in the start-up parking the first two cars get spots 1 and 2, and spots 3 and 4 stay free |
| `Escenarios.CuatroCoches` | S15/parking.py:59-65 | in the start-up parking four cars in a row get spots 1, 2 and 3, and the fourth gets none |
| `Escenarios.PlacaRecortada` | S15/parking.py:159 | the typed plate " abc123 " is stripped to "abc123" |
| `Escenarios.PlacaMayuscula` | S15/parking.py:34 | the plate "abc123" is stored as "ABC123" |
| `Escenarios.CodigoRecortado` | S15/parking.py:187 | a ticket code without blanks is looked up as typed |
| `Escenarios.AppInicial` | S15/parking.py:215-220 | the application starts over the start-up parking with no active ticket, its invariant holding |
| `Escenarios.PrimeraEntrada` | S15/parking.py:158-173 | the first car entering the start-up parking is given spot 1 and filed under its code with the normalised plate |
| `Escenarios.PrimeraSalida` | S15/parking.py:186-194 | that car, leaving at its entry time, gets the receipt 1 h 30 min, 3.75, and spot 1 is free again |
| `Escenarios.EntraYSale` | S15/parking.py:158-194 | the first car, plate typed " abc123 ", is given spot 1 and, leaving at once, gets the receipt 1 h 30 min, 3.75; no ticket stays active and spot 1 is free |
| `Escenarios.SalidaRepetida` | S15/parking.py:186-190 | a second exit with the same code is refused |
| `Escenarios.EntradaSiguiente` | S15/parking.py:158-173 | the next car entering when spot 1 is free again is given spot 1 |
| `Escenarios.Entrar` | S15/parking.py:158-173 | an accepted entry files a new ticket under the code, for the stripped upper-cased plate and the category, entered now, on the first free spot of that category in the parking's list, which itself is unchanged; the invariant is kept |
| `Escenarios.Salir` | S15/parking.py:186-194 | the exit of an active ticket that entered no later than the exit time: the code is no longer active, the spot is free, and the receipt has the code and plate, at least one hour, minutes in [0, 60) and at least the 90-minute fee |
| `Escenarios.IdaYVuelta` | S15/parking.py:158-194 | for any accepted entry followed by the exit of its code: the receipt carries the code and the stripped upper-cased plate, at least one hour, and a total no lower than the category's 90-minute fee, which is non-negative; the spot given at entry, the first free spot of that category when the car arrived, is free again |
| `Escenarios.EntradaYSalida` | S15/parking.py:158-194 | the whole run: spot 1 on entry, receipt `Recibo("c0ffee01", "ABC123", 1, 30, 375)`, the repeated exit refused, spot 1 for the next car |

## Left out

- The Tkinter window: widgets, the table refresh `actualizar_estado`, message boxes, receipt text, clearing the entry fields and `mainloop` (`S15/parking.py:1-2`, 87, 89-91, 95-156, 174-184, 195-221). These are presentation only. The message boxes become the `MatriculaVacia`, `SinPlazas` and `CodigoInvalido` outcomes.
- `datetime.now()`: the clock is the parameter `ahora`, in whole seconds. Sub-second timestamps are not modelled.
- `uuid.uuid4()`: the ticket code is the parameter `codigo`. Two tickets can therefore share a code, and the second one then replaces the first in the active map, as a dictionary assignment does.
- Floating point: fees are exact cents and `round(x, 2)` is exact round-half-even on the true quotient. Binary representation error in the float product is not modelled. The receipt's hours and minutes (`Tarificacion.Horas`, `Tarificacion.Minutos`) are also computed exactly from whole seconds. Python truncates the float `horas` instead, so for a stay of an exact whole number of minutes the model's minutes can be one more than Python's. For example, a billed stay of 5460 s gives 31 minutes in the model; in Python, 5460 / 3600 rounds to a double just below 91/60, which can give 30.
- Texto.Upper: does not model Python's full Unicode `str.upper()`. Only the ASCII letters a-z are upper-cased; every other character is kept.
- `Plaza.__str__` (`S15/parking.py:29-30`): display formatting only.
- The `plaza` argument of `Parking.procesar_salida` (`S15/parking.py:67`) is never read there, so the model's `ProcesarSalida` does not take it.
