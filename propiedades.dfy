/** What the account's rules guarantee: how the queries react to one more
    movement, the invariants deposits and withdrawals keep, and what any
    history of validated operations leaves behind. */
module Propiedades {
  import opened Monedero

  /** Every movement carries a strictly positive amount. */
  ghost predicate MontosPositivos(movimientos: seq<Movimiento>)
  {
    forall i :: 0 <= i < |movimientos| ==> 0.0 < movimientos[i].monto
  }

  // ---------------------------------------------------------------------------
  // The queries, one movement at a time

  /** Appending a movement adds its amount to that day's withdrawn total when it
      is a withdrawal dated that day, and adds nothing otherwise. */
  lemma {:induction false} MontoExtraidoAgregado(movimientos: seq<Movimiento>, m: Movimiento, fecha: Fecha)
    ensures MontoExtraidoA(movimientos + [m], fecha) ==
            MontoExtraidoA(movimientos, fecha) + (if EsExtraccionDel(m, fecha) then m.monto else 0.0)
  {
    if movimientos == [] {
      assert [m][1..] == [];
    } else {
      assert (movimientos + [m])[1..] == movimientos[1..] + [m];
      MontoExtraidoAgregado(movimientos[1..], m, fecha);
    }
  }

  /** A deposit, or a movement of another date, leaves the day's withdrawn total unchanged. */
  lemma MontoExtraidoNoCambia(movimientos: seq<Movimiento>, m: Movimiento, fecha: Fecha)
    requires m.esDeposito || m.fecha != fecha
    ensures MontoExtraidoA(movimientos + [m], fecha) == MontoExtraidoA(movimientos, fecha)
  {
    MontoExtraidoAgregado(movimientos, m, fecha);
  }

  /** With no withdrawal dated `fecha` in the list, the day's withdrawn total is 0. */
  lemma {:induction false} MontoExtraidoSinExtracciones(movimientos: seq<Movimiento>, fecha: Fecha)
    requires forall i :: 0 <= i < |movimientos| ==> !EsExtraccionDel(movimientos[i], fecha)
    ensures MontoExtraidoA(movimientos, fecha) == 0.0
  {
    if movimientos != [] {
      MontoExtraidoSinExtracciones(movimientos[1..], fecha);
    }
  }

  /** With positive amounts, each withdrawal of the day is bounded by the day's total,
      and the total is never negative. */
  lemma {:induction false} MontoExtraidoAcota(movimientos: seq<Movimiento>, fecha: Fecha)
    requires MontosPositivos(movimientos)
    ensures 0.0 <= MontoExtraidoA(movimientos, fecha)
    ensures forall i :: 0 <= i < |movimientos| && EsExtraccionDel(movimientos[i], fecha) ==>
              movimientos[i].monto <= MontoExtraidoA(movimientos, fecha)
  {
    if movimientos != [] {
      var resto := movimientos[1..];
      assert MontosPositivos(resto) by {
        forall i | 0 <= i < |resto| ensures 0.0 < resto[i].monto {
          assert resto[i] == movimientos[i + 1];
        }
      }
      MontoExtraidoAcota(resto, fecha);
      forall i | 0 < i < |movimientos| && EsExtraccionDel(movimientos[i], fecha)
        ensures movimientos[i].monto <= MontoExtraidoA(movimientos, fecha)
      {
        assert movimientos[i] == resto[i - 1];
      }
    }
  }

  /** With positive amounts, the day's withdrawn total is 0 exactly when no
      withdrawal is dated that day. */
  lemma {:induction false} MontoExtraidoCero(movimientos: seq<Movimiento>, fecha: Fecha)
    requires MontosPositivos(movimientos)
    ensures MontoExtraidoA(movimientos, fecha) == 0.0 <==>
            forall i :: 0 <= i < |movimientos| ==> !EsExtraccionDel(movimientos[i], fecha)
  {
    MontoExtraidoAcota(movimientos, fecha);
    if forall i :: 0 <= i < |movimientos| ==> !EsExtraccionDel(movimientos[i], fecha) {
      MontoExtraidoSinExtracciones(movimientos, fecha);
    }
  }

  /** Appending a movement raises the deposit count by one exactly when it is a deposit. */
  lemma {:induction false} CantidadDepositosAgregado(movimientos: seq<Movimiento>, m: Movimiento)
    ensures CantidadDepositos(movimientos + [m]) ==
            CantidadDepositos(movimientos) + (if m.esDeposito then 1 else 0)
  {
    if movimientos == [] {
      assert [m][1..] == [];
    } else {
      assert (movimientos + [m])[1..] == movimientos[1..] + [m];
      CantidadDepositosAgregado(movimientos[1..], m);
    }
  }

  /** Appending a movement adds its signed effect to the net of the list. */
  lemma {:induction false} NetoAgregado(movimientos: seq<Movimiento>, m: Movimiento)
    ensures Neto(movimientos + [m]) == Neto(movimientos) + m.Efecto()
  {
    if movimientos == [] {
      assert [m][1..] == [];
    } else {
      assert (movimientos + [m])[1..] == movimientos[1..] + [m];
      NetoAgregado(movimientos[1..], m);
    }
  }

  // ---------------------------------------------------------------------------
  // One operation

  /** A successful deposit never takes the account past three deposits. */
  lemma PonerRespetaMaximoDepositos(e: EstadoCuenta, cuanto: real, hoy: Fecha)
    ensures PonerEn(e, cuanto, hoy).1 == Exito ==>
            CantidadDepositos(PonerEn(e, cuanto, hoy).0.movimientos) <= MAXIMA_CANTIDAD_DEPOSITOS
  {
    CantidadDepositosAgregado(e.movimientos, Movimiento(hoy, cuanto, true));
  }

  /** A successful withdrawal leaves a balance of at least 0 and a day's withdrawn
      total of at most the limit. */
  lemma SacarRespetaLimites(e: EstadoCuenta, cuanto: real, hoy: Fecha)
    ensures SacarDe(e, cuanto, hoy).1 == Exito ==>
            0.0 <= SacarDe(e, cuanto, hoy).0.saldo &&
            MontoExtraidoA(SacarDe(e, cuanto, hoy).0.movimientos, hoy) <= e.limite as real
  {
    MontoExtraidoAgregado(e.movimientos, Movimiento(hoy, cuanto, false), hoy);
  }

  /** The balance minus the net of the movements: what the account was opened with,
      as long as only `poner` and `sacar` have touched it. */
  function SaldoInicial(e: EstadoCuenta): real
  {
    e.saldo - Neto(e.movimientos)
  }

  /** A deposit, accepted or refused, keeps the balance equal to the opening
      amount plus the net of the movements. */
  lemma PonerConservaSaldoInicial(e: EstadoCuenta, cuanto: real, hoy: Fecha)
    ensures SaldoInicial(PonerEn(e, cuanto, hoy).0) == SaldoInicial(e)
  {
    NetoAgregado(e.movimientos, Movimiento(hoy, cuanto, true));
  }

  /** A withdrawal, accepted or refused, keeps the balance equal to the opening
      amount plus the net of the movements. */
  lemma SacarConservaSaldoInicial(e: EstadoCuenta, cuanto: real, hoy: Fecha)
    ensures SaldoInicial(SacarDe(e, cuanto, hoy).0) == SaldoInicial(e)
  {
    NetoAgregado(e.movimientos, Movimiento(hoy, cuanto, false));
  }

  /** The unvalidated path records a movement without booking it, so the balance
      no longer matches the history: the gap moves by the movement's effect. */
  lemma AgregarMovimientoDesplazaSaldoInicial(e: EstadoCuenta, fecha: Fecha, cuanto: real, esDeposito: bool)
    ensures SaldoInicial(AgregarMovimientoEn(e, fecha, cuanto, esDeposito)) ==
            SaldoInicial(e) - Movimiento(fecha, cuanto, esDeposito).Efecto()
  {
    NetoAgregado(e.movimientos, Movimiento(fecha, cuanto, esDeposito));
  }

  /** What validated operations keep true of an account opened with a
      non-negative amount. */
  ghost predicate Invariante(e: EstadoCuenta)
  {
    && e.limite == LIMITE_DIARIO
    && 0.0 <= e.saldo
    && MontosPositivos(e.movimientos)
    && CantidadDepositos(e.movimientos) <= MAXIMA_CANTIDAD_DEPOSITOS
    && forall d :: MontoExtraidoA(e.movimientos, d) <= e.limite as real
  }

  /** An account opened with a non-negative amount starts out within the rules. */
  lemma CuentaNuevaInvariante(montoInicial: real)
    requires 0.0 <= montoInicial
    ensures Invariante(CuentaNueva(montoInicial))
  {
  }

  /** A deposit, accepted or refused, keeps the account within the rules. */
  lemma PonerPreservaInvariante(e: EstadoCuenta, cuanto: real, hoy: Fecha)
    requires Invariante(e)
    ensures Invariante(PonerEn(e, cuanto, hoy).0)
  {
    if PonerEn(e, cuanto, hoy).1 == Exito {
      var m := Movimiento(hoy, cuanto, true);
      var despues := e.movimientos + [m];
      CantidadDepositosAgregado(e.movimientos, m);
      forall d ensures MontoExtraidoA(despues, d) <= e.limite as real {
        MontoExtraidoNoCambia(e.movimientos, m, d);
      }
      assert MontosPositivos(despues) by {
        forall i | 0 <= i < |despues| ensures 0.0 < despues[i].monto {
          if i < |e.movimientos| { assert despues[i] == e.movimientos[i]; }
        }
      }
    }
  }

  /** A withdrawal, accepted or refused, keeps the account within the rules. */
  lemma SacarPreservaInvariante(e: EstadoCuenta, cuanto: real, hoy: Fecha)
    requires Invariante(e)
    ensures Invariante(SacarDe(e, cuanto, hoy).0)
  {
    if SacarDe(e, cuanto, hoy).1 == Exito {
      var m := Movimiento(hoy, cuanto, false);
      var despues := e.movimientos + [m];
      CantidadDepositosAgregado(e.movimientos, m);
      forall d ensures MontoExtraidoA(despues, d) <= e.limite as real {
        MontoExtraidoAgregado(e.movimientos, m, d);
      }
      assert MontosPositivos(despues) by {
        forall i | 0 <= i < |despues| ensures 0.0 < despues[i].monto {
          if i < |e.movimientos| { assert despues[i] == e.movimientos[i]; }
        }
      }
    }
  }

  // ---------------------------------------------------------------------------
  // Histories of validated operations

  /** A call a client makes on the account. */
  datatype Operacion = Poner(cuanto: real, hoy: Fecha) | Sacar(cuanto: real, hoy: Fecha)

  /** The state after one call, whether it was accepted or refused. */
  function Aplicar(e: EstadoCuenta, op: Operacion): EstadoCuenta
  {
    match op
    case Poner(cuanto, hoy) => PonerEn(e, cuanto, hoy).0
    case Sacar(cuanto, hoy) => SacarDe(e, cuanto, hoy).0
  }

  /** The state after the calls in order, first to last. */
  function Ejecutar(e: EstadoCuenta, ops: seq<Operacion>): EstadoCuenta
    decreases |ops|
  {
    if ops == [] then e else Ejecutar(Aplicar(e, ops[0]), ops[1..])
  }

  /** Any history of deposits and withdrawals keeps the account within the rules. */
  lemma {:induction false} EjecutarPreservaInvariante(e: EstadoCuenta, ops: seq<Operacion>)
    requires Invariante(e)
    ensures Invariante(Ejecutar(e, ops))
    decreases |ops|
  {
    if ops != [] {
      match ops[0] {
        case Poner(cuanto, hoy) => PonerPreservaInvariante(e, cuanto, hoy);
        case Sacar(cuanto, hoy) => SacarPreservaInvariante(e, cuanto, hoy);
      }
      EjecutarPreservaInvariante(Aplicar(e, ops[0]), ops[1..]);
    }
  }

  /** Any history of deposits and withdrawals keeps the balance equal to the
      opening amount plus the net of the movements. */
  lemma {:induction false} EjecutarConservaSaldoInicial(e: EstadoCuenta, ops: seq<Operacion>)
    ensures SaldoInicial(Ejecutar(e, ops)) == SaldoInicial(e)
    decreases |ops|
  {
    if ops != [] {
      match ops[0] {
        case Poner(cuanto, hoy) => PonerConservaSaldoInicial(e, cuanto, hoy);
        case Sacar(cuanto, hoy) => SacarConservaSaldoInicial(e, cuanto, hoy);
      }
      EjecutarConservaSaldoInicial(Aplicar(e, ops[0]), ops[1..]);
    }
  }

  /** From a new account, the balance is always the opening amount plus deposits
      minus withdrawals; with a non-negative opening amount the balance never goes
      negative, there are at most three deposits and no day's withdrawals exceed 1000. */
  lemma HistoriaDesdeCuentaNueva(montoInicial: real, ops: seq<Operacion>)
    ensures Ejecutar(CuentaNueva(montoInicial), ops).saldo ==
            montoInicial + Neto(Ejecutar(CuentaNueva(montoInicial), ops).movimientos)
    ensures 0.0 <= montoInicial ==> Invariante(Ejecutar(CuentaNueva(montoInicial), ops))
  {
    EjecutarConservaSaldoInicial(CuentaNueva(montoInicial), ops);
    if 0.0 <= montoInicial {
      CuentaNuevaInvariante(montoInicial);
      EjecutarPreservaInvariante(CuentaNueva(montoInicial), ops);
    }
  }

  // ---------------------------------------------------------------------------
  // Sequences of calls

  /** On an account without deposits, three positive deposits go through and a
      fourth is refused, on any dates: with MontoNegativo when its amount is not
      positive, with MaximaCantidadDepositos otherwise. */
  lemma CuartoDepositoRechazado(e: EstadoCuenta, a: real, b: real, c: real, d: real,
                                ha: Fecha, hb: Fecha, hc: Fecha, hd: Fecha)
    requires CantidadDepositos(e.movimientos) == 0
    requires 0.0 < a && 0.0 < b && 0.0 < c
    ensures PonerEn(e, a, ha).1 == Exito
    ensures PonerEn(PonerEn(e, a, ha).0, b, hb).1 == Exito
    ensures PonerEn(PonerEn(PonerEn(e, a, ha).0, b, hb).0, c, hc).1 == Exito
    ensures PonerEn(PonerEn(PonerEn(PonerEn(e, a, ha).0, b, hb).0, c, hc).0, d, hd).1 ==
            Rechazo(if d <= 0.0 then MontoNegativo else MaximaCantidadDepositos)
  {
    var e1 := PonerEn(e, a, ha).0;
    CantidadDepositosAgregado(e.movimientos, Movimiento(ha, a, true));
    var e2 := PonerEn(e1, b, hb).0;
    CantidadDepositosAgregado(e1.movimientos, Movimiento(hb, b, true));
    CantidadDepositosAgregado(e2.movimientos, Movimiento(hc, c, true));
  }

  /** Two withdrawals on one day that together pass the limit: the first goes
      through and the second is refused with MaximoExtraccionDiario, leaving the
      state the first one produced. */
  lemma SegundaExtraccionSuperaLimite(e: EstadoCuenta, a: real, b: real, hoy: Fecha)
    requires MontoExtraidoA(e.movimientos, hoy) == 0.0
    requires 0.0 < a <= e.limite as real && 0.0 < b
    requires a + b <= e.saldo
    requires a + b > e.limite as real
    ensures SacarDe(e, a, hoy).1 == Exito
    ensures SacarDe(SacarDe(e, a, hoy).0, b, hoy) ==
            (SacarDe(e, a, hoy).0, Rechazo(MaximoExtraccionDiario))
  {
    MontoExtraidoAgregado(e.movimientos, Movimiento(hoy, a, false), hoy);
  }

  // ---------------------------------------------------------------------------
  // A client of the account object: what callers can conclude from the contracts alone

  /** A deposit, a withdrawal, a withdrawal past the balance, a zero deposit. */
  method EscenarioBasico(hoy: Fecha)
  {
    var cuenta := new Cuenta();
    var r := cuenta.Poner(100.0, hoy);
    assert r == Exito && cuenta.saldo == 100.0 && |cuenta.movimientos| == 1;
    MontoExtraidoSinExtracciones(cuenta.movimientos, hoy);
    r := cuenta.Sacar(50.0, hoy);
    assert r == Exito && cuenta.saldo == 50.0 && |cuenta.movimientos| == 2;
    r := cuenta.Sacar(150.0, hoy);
    assert r == Rechazo(SaldoMenor) && cuenta.saldo == 50.0;
    r := cuenta.Poner(0.0, hoy);
    assert r == Rechazo(MontoNegativo) && |cuenta.movimientos| == 2;
  }

  /** Four deposits, the first two on the same day and the others on later days:
      the fourth is refused. */
  method EscenarioDepositos(hoy: Fecha)
  {
    var cuenta := new Cuenta();
    var r := cuenta.Poner(10.0, hoy);
    CantidadDepositosAgregado(cuenta.movimientos, Movimiento(hoy, 10.0, true));
    r := cuenta.Poner(10.0, hoy);
    CantidadDepositosAgregado(cuenta.movimientos, Movimiento(hoy + 1, 10.0, true));
    r := cuenta.Poner(10.0, hoy + 1);
    assert r == Exito && cuenta.saldo == 30.0;
    r := cuenta.Poner(10.0, hoy + 2);
    assert r == Rechazo(MaximaCantidadDepositos) && cuenta.saldo == 30.0;
  }

  /** 600 then 500 on one day: the second passes the limit; 400 reaches it exactly;
      the next day the whole limit is available again. */
  method EscenarioLimiteDiario(hoy: Fecha)
  {
    var cuenta := new Cuenta.ConMontoInicial(2000.0);
    var r := cuenta.Sacar(600.0, hoy);
    assert r == Exito;
    MontoExtraidoAgregado([], Movimiento(hoy, 600.0, false), hoy);
    r := cuenta.Sacar(500.0, hoy);
    assert r == Rechazo(MaximoExtraccionDiario) && cuenta.saldo == 1400.0;
    r := cuenta.Sacar(400.0, hoy);
    assert r == Exito && cuenta.saldo == 1000.0;
    MontoExtraidoSinExtracciones(cuenta.movimientos, hoy + 1);
    r := cuenta.Sacar(1000.0, hoy + 1);
    assert r == Exito && cuenta.saldo == 0.0;
  }
}
