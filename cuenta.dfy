/** A wallet account ("cuenta"): a balance, a daily withdrawal limit and the
    ordered list of movements made on it. Deposits ("poner") and withdrawals
    ("sacar") are checked by validators, in a fixed order, before anything
    changes; the first validator that fails names the error. */
module Monedero {

  /** A calendar date, as a day number. */
  type Fecha = int

  /** The daily withdrawal limit every account is created with. */
  const LIMITE_DIARIO: int := 1000

  /** How many deposit movements an account may ever hold before `poner` refuses. */
  const MAXIMA_CANTIDAD_DEPOSITOS: nat := 3

  /** One value per exception the account can throw. */
  datatype Falla = MontoNegativo | MaximaCantidadDepositos | SaldoMenor | MaximoExtraccionDiario

  /** How a validated operation ends: it goes through, or it is refused with one error. */
  datatype Resultado = Exito | Rechazo(falla: Falla)

  /** One movement: its date, its (unsigned) amount and whether it is a deposit. */
  datatype Movimiento = Movimiento(fecha: Fecha, monto: real, esDeposito: bool)
  {
    /** The change this movement makes to a balance: `+monto` for a deposit, `-monto` otherwise. */
    function Efecto(): real
    {
      if esDeposito then monto else -monto
    }

    /** Books the movement on an account: the balance moves by the amount in the
        movement's direction and the movement is appended to the list. */
    method AgregateA(cuenta: Cuenta)
      modifies cuenta`saldo, cuenta`movimientos
      ensures cuenta.Estado() == Agregado(old(cuenta.Estado()), this)
    {
      cuenta.saldo := cuenta.saldo + Efecto();
      cuenta.movimientos := cuenta.movimientos + [this];
    }
  }

  /** The account's state as a value. */
  datatype EstadoCuenta = EstadoCuenta(saldo: real, limite: int, movimientos: seq<Movimiento>)

  /** The state of a newly created account. */
  function CuentaNueva(montoInicial: real): EstadoCuenta
  {
    EstadoCuenta(montoInicial, LIMITE_DIARIO, [])
  }

  /** The state after movement `m` has booked itself on the account. */
  function Agregado(e: EstadoCuenta, m: Movimiento): (r: EstadoCuenta)
    ensures r.limite == e.limite
    ensures |r.movimientos| == |e.movimientos| + 1
    ensures r.movimientos[..|e.movimientos|] == e.movimientos && r.movimientos[|e.movimientos|] == m
    ensures m.esDeposito ==> r.saldo == e.saldo + m.monto
    ensures !m.esDeposito ==> r.saldo == e.saldo - m.monto
  {
    e.(saldo := e.saldo + m.Efecto(), movimientos := e.movimientos + [m])
  }

  // ---------------------------------------------------------------------------
  // Queries over the list of movements

  /** Whether `m` is a withdrawal made on `fecha`. */
  predicate EsExtraccionDel(m: Movimiento, fecha: Fecha)
  {
    !m.esDeposito && m.fecha == fecha
  }

  /** The total amount withdrawn on `fecha`: the sum of `monto` over the
      non-deposit movements dated `fecha`, taken in list order. */
  function MontoExtraidoA(movimientos: seq<Movimiento>, fecha: Fecha): (r: real)
    ensures (forall i :: 0 <= i < |movimientos| ==> 0.0 <= movimientos[i].monto) ==> 0.0 <= r
    ensures (forall i :: 0 <= i < |movimientos| ==> movimientos[i].esDeposito) ==> r == 0.0
  {
    if movimientos == [] then 0.0
    else (if EsExtraccionDel(movimientos[0], fecha) then movimientos[0].monto else 0.0)
         + MontoExtraidoA(movimientos[1..], fecha)
  }

  /** How many of the movements are deposits, whatever their date. */
  function CantidadDepositos(movimientos: seq<Movimiento>): (n: nat)
    ensures n <= |movimientos|
  {
    if movimientos == [] then 0
    else (if movimientos[0].esDeposito then 1 else 0) + CantidadDepositos(movimientos[1..])
  }

  /** The net effect of the movements on a balance: deposits minus withdrawals. */
  function Neto(movimientos: seq<Movimiento>): real
  {
    if movimientos == [] then 0.0
    else movimientos[0].Efecto() + Neto(movimientos[1..])
  }

  // ---------------------------------------------------------------------------
  // Validators: each refuses with its own error or lets the operation go on

  /** Refuses every amount that is not strictly positive, zero included. */
  function ValidarMontoNegativo(cuanto: real): (r: Resultado)
    ensures r == Exito <==> 0.0 < cuanto
    ensures r != Exito ==> r == Rechazo(MontoNegativo)
  {
    if cuanto <= 0.0 then Rechazo(MontoNegativo) else Exito
  }

  /** Refuses once the list holds three or more deposits (a lifetime count). */
  function ValidarCantidadDeDepositos(movimientos: seq<Movimiento>): (r: Resultado)
    ensures r == Exito <==> CantidadDepositos(movimientos) < MAXIMA_CANTIDAD_DEPOSITOS
    ensures r != Exito ==> r == Rechazo(MaximaCantidadDepositos)
  {
    if CantidadDepositos(movimientos) >= MAXIMA_CANTIDAD_DEPOSITOS then Rechazo(MaximaCantidadDepositos) else Exito
  }

  /** Refuses a withdrawal that would leave the balance below zero. */
  function ValidarDineroDisponible(saldo: real, cantidad: real): (r: Resultado)
    ensures r == Exito <==> cantidad <= saldo
    ensures r != Exito ==> r == Rechazo(SaldoMenor)
  {
    if saldo - cantidad < 0.0 then Rechazo(SaldoMenor) else Exito
  }

  /** Refuses a withdrawal larger than what is left of today's limit. */
  function ValidarMaximoExtraccionDiario(limite: int, movimientos: seq<Movimiento>, hoy: Fecha,
                                         cantidad: real): (r: Resultado)
    ensures r == Exito <==> MontoExtraidoA(movimientos, hoy) + cantidad <= limite as real
    ensures r != Exito ==> r == Rechazo(MaximoExtraccionDiario)
  {
    var limiteDisponible := limite as real - MontoExtraidoA(movimientos, hoy);
    if cantidad > limiteDisponible then Rechazo(MaximoExtraccionDiario) else Exito
  }

  // ---------------------------------------------------------------------------
  // The operations on account values

  /** A deposit of `cuanto` on day `hoy`: the new state and how it ended. */
  function PonerEn(e: EstadoCuenta, cuanto: real, hoy: Fecha): (r: (EstadoCuenta, Resultado))
    ensures r.1 == Rechazo(MontoNegativo) <==> cuanto <= 0.0
    ensures r.1 == Rechazo(MaximaCantidadDepositos) <==>
              0.0 < cuanto && CantidadDepositos(e.movimientos) >= MAXIMA_CANTIDAD_DEPOSITOS
    ensures r.1 == Exito <==>
              0.0 < cuanto && CantidadDepositos(e.movimientos) < MAXIMA_CANTIDAD_DEPOSITOS
    ensures r.1 != Exito ==> r.0 == e
    ensures r.1 == Exito ==>
              r.0 == EstadoCuenta(e.saldo + cuanto, e.limite,
                                  e.movimientos + [Movimiento(hoy, cuanto, true)])
  {
    var monto := ValidarMontoNegativo(cuanto);
    if monto.Rechazo? then (e, monto)
    else
      var depositos := ValidarCantidadDeDepositos(e.movimientos);
      if depositos.Rechazo? then (e, depositos)
      else (Agregado(e, Movimiento(hoy, cuanto, true)), Exito)
  }

  /** A withdrawal of `cuanto` on day `hoy`: the new state and how it ended. */
  function SacarDe(e: EstadoCuenta, cuanto: real, hoy: Fecha): (r: (EstadoCuenta, Resultado))
    ensures r.1 == Rechazo(MontoNegativo) <==> cuanto <= 0.0
    ensures r.1 == Rechazo(SaldoMenor) <==> 0.0 < cuanto && e.saldo < cuanto
    ensures r.1 == Rechazo(MaximoExtraccionDiario) <==>
              0.0 < cuanto && cuanto <= e.saldo &&
              MontoExtraidoA(e.movimientos, hoy) + cuanto > e.limite as real
    ensures r.1 == Exito <==>
              0.0 < cuanto && cuanto <= e.saldo &&
              MontoExtraidoA(e.movimientos, hoy) + cuanto <= e.limite as real
    ensures r.1 != Exito ==> r.0 == e
    ensures r.1 == Exito ==>
              r.0 == EstadoCuenta(e.saldo - cuanto, e.limite,
                                  e.movimientos + [Movimiento(hoy, cuanto, false)])
  {
    var monto := ValidarMontoNegativo(cuanto);
    if monto.Rechazo? then (e, monto)
    else
      var disponible := ValidarDineroDisponible(e.saldo, cuanto);
      if disponible.Rechazo? then (e, disponible)
      else
        var diario := ValidarMaximoExtraccionDiario(e.limite, e.movimientos, hoy, cuanto);
        if diario.Rechazo? then (e, diario)
        else (Agregado(e, Movimiento(hoy, cuanto, false)), Exito)
  }

  /** The unvalidated path: one movement appended, the balance untouched. */
  function AgregarMovimientoEn(e: EstadoCuenta, fecha: Fecha, cuanto: real, esDeposito: bool): (r: EstadoCuenta)
    ensures r.saldo == e.saldo && r.limite == e.limite
    ensures |r.movimientos| == |e.movimientos| + 1
    ensures r.movimientos[..|e.movimientos|] == e.movimientos
    ensures r.movimientos[|e.movimientos|] == Movimiento(fecha, cuanto, esDeposito)
  {
    e.(movimientos := e.movimientos + [Movimiento(fecha, cuanto, esDeposito)])
  }

  // ---------------------------------------------------------------------------
  // The account object

  class Cuenta {
    var saldo: real
    var movimientos: seq<Movimiento>
    var limite: int

    /** The object's fields as a value. */
    function Estado(): EstadoCuenta
      reads this
    {
      EstadoCuenta(saldo, limite, movimientos)
    }

    /** An account with balance 0, no movements and the standard daily limit. */
    constructor ()
      ensures Estado() == CuentaNueva(0.0)
    {
      saldo := 0.0;
      movimientos := [];
      limite := LIMITE_DIARIO;
    }

    /** An account opened with `montoInicial`, no movements and the standard daily limit. */
    constructor ConMontoInicial(montoInicial: real)
      ensures Estado() == CuentaNueva(montoInicial)
    {
      saldo := montoInicial;
      movimientos := [];
      limite := LIMITE_DIARIO;
    }

    /** Deposits `cuanto` on day `hoy`; refused deposits change nothing. */
    method Poner(cuanto: real, hoy: Fecha) returns (r: Resultado)
      modifies this`saldo, this`movimientos
      ensures (Estado(), r) == PonerEn(old(Estado()), cuanto, hoy)
    {
      r := ValidarMontoNegativo(cuanto);
      if r.Rechazo? { return; }
      r := ValidarCantidadDeDepositos(movimientos);
      if r.Rechazo? { return; }
      Movimiento(hoy, cuanto, true).AgregateA(this);
    }

    /** Withdraws `cuanto` on day `hoy`; refused withdrawals change nothing. */
    method Sacar(cuanto: real, hoy: Fecha) returns (r: Resultado)
      modifies this`saldo, this`movimientos
      ensures (Estado(), r) == SacarDe(old(Estado()), cuanto, hoy)
    {
      r := ValidarMontoNegativo(cuanto);
      if r.Rechazo? { return; }
      r := ValidarDineroDisponible(saldo, cuanto);
      if r.Rechazo? { return; }
      r := ValidarMaximoExtraccionDiario(limite, movimientos, hoy, cuanto);
      if r.Rechazo? { return; }
      Movimiento(hoy, cuanto, false).AgregateA(this);
    }

    /** Appends a movement without any validation; the balance is not touched. */
    method AgregarMovimiento(fecha: Fecha, cuanto: real, esDeposito: bool)
      modifies this`movimientos
      ensures Estado() == AgregarMovimientoEn(old(Estado()), fecha, cuanto, esDeposito)
    {
      movimientos := movimientos + [Movimiento(fecha, cuanto, esDeposito)];
    }

    /** Overwrites the balance, and nothing else. */
    method SetSaldo(nuevoSaldo: real)
      modifies this`saldo
      ensures Estado() == old(Estado()).(saldo := nuevoSaldo)
    {
      saldo := nuevoSaldo;
    }

    /** Replaces the list of movements, and nothing else. */
    method SetMovimientos(nuevos: seq<Movimiento>)
      modifies this`movimientos
      ensures Estado() == old(Estado()).(movimientos := nuevos)
    {
      movimientos := nuevos;
    }
  }
}
