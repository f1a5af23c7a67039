# Monedero: the wallet account `Cuenta`

A Dafny model of the account class `Cuenta` of the monedero (wallet) project. An
account holds a balance (`saldo`), a daily withdrawal limit (`limite`, always 1000)
and the ordered list of its movements (`movimientos`). A movement records a date,
an amount and whether it is a deposit.

- `poner` (deposit) checks that the amount is strictly positive, then that the
  account holds fewer than three deposit movements (counted over its whole history,
  whatever their dates), and only then books a deposit movement dated today.
- `sacar` (withdraw) checks that the amount is strictly positive, then that it does
  not exceed the balance, then that it does not exceed what is left of today's
  limit, and only then books a withdrawal movement dated today.
- `agregarMovimiento` appends a movement with no validation and without touching
  the balance.
- `getMontoExtraidoA(fecha)` sums the amounts of the withdrawals dated `fecha`.

The first validator that fails decides the error: `MontoNegativo`,
`MaximaCantidadDepositos`, `SaldoMenor` or `MaximoExtraccionDiario`. A refused
operation changes nothing.

Layout:

- `cuenta.dfy`, module `Monedero`: the movement datatype, the errors, the queries
  over the movement list (`MontoExtraidoA`, `CantidadDepositos`, `Neto`), the four
  validators, the account state as a value (`EstadoCuenta`) with the operations on
  it (`PonerEn`, `SacarDe`, `AgregarMovimientoEn`), and the class `Cuenta`. `Poner`
  and `Sacar` run the validators one after the other, as the Java code does, and
  their `ensures` tie the new fields and the outcome to the value-level operation.
  No method's frame includes `limite`, so it never changes after construction.
- `propiedades.dfy`, module `Propiedades`: how the queries react to one more
  movement, the invariants `poner` and `sacar` keep, what any history of these calls
  leaves behind, and three client methods that walk through typical sequences of calls
  using only the class contracts.

Modelling choices:

- Amounts are Dafny `real` values (the Java code uses `double`). Dates are day
  numbers (`Fecha = int`). Equal day numbers mean equal dates.
- "Today" (`LocalDate.now()` at lines 40, 51 and 97) is the parameter `hoy` of
  `Poner` and `Sacar`. The two calls to `now()` inside one `sacar` are taken to give
  the same day.
- Exceptions become the result `Rechazo(falla)`; a normal return is `Exito`.
- The validators read the account's fields. In the model they take those field
  values as parameters.
- `Movimiento.agregateA` lives in `Movimiento.java`, outside the modelled class
  `Cuenta`. It is modelled as an ASSUMPTION that cannot be checked against `Cuenta.java`: the balance increases by
  the amount for a deposit and decreases by it for a withdrawal, and the movement is
  appended to the list (`Movimiento.AgregateA`, `Agregado`).
- The rule "balance = opening amount + deposits − withdrawals" holds only while the
  account is changed through `poner` and `sacar`. `agregarMovimiento`, `setSaldo`
  and `setMovimientos` bypass it. `AgregarMovimientoDesplazaSaldoInicial` shows by
  how much `agregarMovimiento` moves the gap.
- The deposit cap is a lifetime count over the whole list, as the code has it,
  although the error text at line 86 speaks of daily deposits. The model follows the
  code.

## Model

| member | source | states |
|---|---|---|
| `Monedero.Cuenta.constructor` | src/main/java/dds/monedero/model/Cuenta.java:19-22 | a new account has balance 0, no movements and limit 1000 |
| `Monedero.Cuenta.ConMontoInicial` | src/main/java/dds/monedero/model/Cuenta.java:24-27 | a new account has the given balance, no movements and limit 1000 |
| `Monedero.Cuenta.Poner` | src/main/java/dds/monedero/model/Cuenta.java:33-41 | running the validators in order and then booking the movement gives exactly the state and outcome of `PonerEn`; only `saldo` and `movimientos` may change |
| `Monedero.Cuenta.Sacar` | src/main/java/dds/monedero/model/Cuenta.java:43-52 | running the three validators in order and then booking the movement gives exactly the state and outcome of `SacarDe`; only `saldo` and `movimientos` may change |
| `Monedero.Cuenta.AgregarMovimiento` | src/main/java/dds/monedero/model/Cuenta.java:54-57 | appends one movement with the given date, amount and flag, runs no validation, and leaves `saldo` and `limite` untouched |
| `Monedero.Cuenta.SetSaldo` | src/main/java/dds/monedero/model/Cuenta.java:74-76 | the balance becomes the given value and nothing else changes |
| `Monedero.Cuenta.SetMovimientos` | src/main/java/dds/monedero/model/Cuenta.java:29-31 | the movement list becomes the given list and nothing else changes |
| `Monedero.Movimiento.AgregateA` | src/main/java/dds/monedero/model/Cuenta.java:40 | (assumed behaviour) booking a movement moves the balance by its signed amount and appends it |
| `Monedero.Agregado` | src/main/java/dds/monedero/model/Cuenta.java:51 | (assumed behaviour) after booking, the old list is a prefix, the movement is last, the balance rises by the amount for a deposit and falls by it for a withdrawal, and the limit is kept |
| `Monedero.ValidarMontoNegativo` | src/main/java/dds/monedero/model/Cuenta.java:78-82 | accepts exactly the strictly positive amounts; 0 and negatives are refused with `MontoNegativo` |
| `Monedero.ValidarCantidadDeDepositos` | src/main/java/dds/monedero/model/Cuenta.java:84-88 | accepts exactly when fewer than 3 movements are deposits; otherwise refuses with `MaximaCantidadDepositos` |
| `Monedero.CantidadDepositos` | src/main/java/dds/monedero/model/Cuenta.java:85 | the deposit count never exceeds the number of movements |
| `Monedero.ValidarDineroDisponible` | src/main/java/dds/monedero/model/Cuenta.java:90-94 | accepts exactly when the amount is at most the balance, so withdrawing the whole balance is allowed; otherwise refuses with `SaldoMenor` |
| `Monedero.ValidarMaximoExtraccionDiario` | src/main/java/dds/monedero/model/Cuenta.java:96-107 | accepts exactly when today's withdrawn total plus the amount is at most the limit, so reaching the limit exactly is allowed; otherwise refuses with `MaximoExtraccionDiario` |
| `Monedero.PonerEn` | src/main/java/dds/monedero/model/Cuenta.java:33-41 | `MontoNegativo` iff amount <= 0; `MaximaCantidadDepositos` iff amount > 0 and 3 or more deposits; success iff neither; a refusal leaves the state as it was; a success adds the amount to the balance and appends one deposit movement dated today with exactly that amount |
| `Monedero.SacarDe` | src/main/java/dds/monedero/model/Cuenta.java:43-52 | `MontoNegativo` iff amount <= 0; `SaldoMenor` iff positive and above the balance; `MaximoExtraccionDiario` iff positive, covered by the balance and above today's remaining limit; success iff none of these; a refusal leaves the state as it was; a success subtracts the amount and appends one withdrawal movement dated today with exactly that amount |
| `Monedero.AgregarMovimientoEn` | src/main/java/dds/monedero/model/Cuenta.java:54-57 | one movement is appended at the end, the old list is a prefix, balance and limit are unchanged |
| `Monedero.MontoExtraidoA` | src/main/java/dds/monedero/model/Cuenta.java:59-64 | the sum of `monto` over the non-deposit movements dated `fecha`, in list order: never negative when no amount is negative, and 0 when every movement is a deposit |
| `Propiedades.MontoExtraidoAgregado` | src/main/java/dds/monedero/model/Cuenta.java:59-64 | appending a movement raises a day's withdrawn total by its amount exactly when it is a withdrawal dated that day, and leaves it as it was otherwise |
| `Propiedades.MontoExtraidoNoCambia` | src/main/java/dds/monedero/model/Cuenta.java:59-64 | appending a deposit, or a movement of another date, leaves the day's withdrawn total unchanged |
| `Propiedades.MontoExtraidoSinExtracciones` | src/main/java/dds/monedero/model/Cuenta.java:59-64 | with no withdrawal dated that day, the total is 0 |
| `Propiedades.MontoExtraidoAcota` | src/main/java/dds/monedero/model/Cuenta.java:59-64 | with positive amounts the day's total is non-negative and at least each withdrawal made that day |
| `Propiedades.MontoExtraidoCero` | src/main/java/dds/monedero/model/Cuenta.java:59-64 | with positive amounts the day's total is 0 exactly when no withdrawal is dated that day |
| `Propiedades.CantidadDepositosAgregado` | src/main/java/dds/monedero/model/Cuenta.java:85 | appending a movement raises the deposit count by one exactly when it is a deposit; dates play no part |
| `Propiedades.PonerRespetaMaximoDepositos` | src/main/java/dds/monedero/model/Cuenta.java:33-41 | after a successful deposit the account holds at most 3 deposits |
| `Propiedades.SacarRespetaLimites` | src/main/java/dds/monedero/model/Cuenta.java:43-52 | after a successful withdrawal the balance is non-negative and the day's withdrawn total is at most the limit |
| `Propiedades.PonerConservaSaldoInicial` | src/main/java/dds/monedero/model/Cuenta.java:33-41 | a deposit, accepted or refused, keeps balance minus the net of the movements unchanged |
| `Propiedades.SacarConservaSaldoInicial` | src/main/java/dds/monedero/model/Cuenta.java:43-52 | a withdrawal, accepted or refused, keeps balance minus the net of the movements unchanged |
| `Propiedades.AgregarMovimientoDesplazaSaldoInicial` | src/main/java/dds/monedero/model/Cuenta.java:54-57 | the unvalidated append shifts balance minus net of movements by the negated effect of the new movement, so the balance no longer matches the history |
| `Propiedades.CuentaNuevaInvariante` | src/main/java/dds/monedero/model/Cuenta.java:19-27 | a new account opened with a non-negative amount satisfies the account invariant |
| `Propiedades.PonerPreservaInvariante` | src/main/java/dds/monedero/model/Cuenta.java:33-41 | a deposit keeps the invariant: limit 1000, balance >= 0, positive amounts, at most 3 deposits, every day's withdrawals at most the limit |
| `Propiedades.SacarPreservaInvariante` | src/main/java/dds/monedero/model/Cuenta.java:43-52 | a withdrawal keeps the same invariant |
| `Propiedades.EjecutarPreservaInvariante` | src/main/java/dds/monedero/model/Cuenta.java:33-52 | any sequence of deposits and withdrawals keeps the invariant |
| `Propiedades.EjecutarConservaSaldoInicial` | src/main/java/dds/monedero/model/Cuenta.java:33-52 | any sequence of deposits and withdrawals keeps balance minus net of movements unchanged |
| `Propiedades.HistoriaDesdeCuentaNueva` | src/main/java/dds/monedero/model/Cuenta.java:19-52 | from a new account, balance = opening amount + deposits − withdrawals after any history; with a non-negative opening amount the invariant holds throughout |
| `Propiedades.CuartoDepositoRechazado` | src/main/java/dds/monedero/model/Cuenta.java:84-88 | on an account without deposits, three positive deposits on any dates succeed and a fourth is refused (`MontoNegativo` if its amount is not positive, else `MaximaCantidadDepositos`) |
| `Propiedades.SegundaExtraccionSuperaLimite` | src/main/java/dds/monedero/model/Cuenta.java:96-107 | two same-day withdrawals that together exceed the limit: the first succeeds, the second is refused with `MaximoExtraccionDiario` and changes nothing |

## Left out

- Floating point: amounts are exact reals, so `double` rounding in the balance update, the sum of `getMontoExtraidoA` and the comparisons is not modelled. NaN and infinite amounts have no counterpart either. A NaN amount makes the amount comparisons at lines 79, 91 and 103 false: `sacar(NaN)` passes every validator; `poner(NaN)` passes the amount check and is booked unless 3 deposits already exist; once a NaN amount is booked, the balance becomes NaN. A NaN balance then makes the overdraft check at line 91 pass for every later withdrawal, so the model's `0.0 <= saldo` invariant has no counterpart in the Java code once that happens.
- The system clock: `LocalDate.now()` is the parameter `hoy`. Dates are day numbers.
- The two separate reads of the clock in one `sacar` (lines 97 and 51): the model uses one `hoy` for both, so a withdrawal that crosses midnight, where the limit is checked against day D but the movement is dated D+1, is not modelled.
- Exception message texts (lines 80, 86, 92, 104-105): each exception is one `Falla` value with no message.
- `Movimiento` and the exception classes are not part of this model. `agregateA` is the assumed balance-update-and-append step described above.
- Aliasing: `setMovimientos` and `getMovimientos` share a mutable `List` with the caller. The model copies a value (`SetMovimientos`) and reads the field directly, so changes made through a shared list are not modelled. Installing a `null` or unmodifiable list through `setMovimientos` is not modelled either: in the Java code it makes `agregarMovimiento`, `poner` and `sacar` throw (`NullPointerException` or `UnsupportedOperationException` at line 56, or in the streams at lines 60 and 85), and `SetMovimientos` takes a sequence value, which can express neither case.
- `getSaldo` and `getMovimientos` are plain reads of the `saldo` and `movimientos` fields and have no member of their own.
- `Monedero.Cuenta.SetMovimientos`: states the value the field takes, not that the account then shares the caller's list, because aliasing is left out.
