/** Concrete consequences of the rules, and a client of the classes. */
module Scenarios {
  import opened Base
  import opened Rules
  import opened Cuenta

  /** extraer checks the global floor, not the account's limit: an account
      created with limit 0 can be overdrawn to -1500. */
  lemma WithdrawIgnoresOwnLimit(g: Globals, today: Date)
    requires today.year >= MIN_YEAR
    ensures var c := CreacionConFecha(g, 0.0, Some(today), today);
      && c.outcome == Ok
      && var r := Extraccion(c.account.value, 1500.0);
         && r.outcome == Ok
         && r.account.saldoActual == -1500.0
         && r.account.saldoActual < c.account.value.limiteDescubierto
  {
  }

  /** A fresh account cannot be garnished: isEmbargada already holds of it. */
  lemma GarnishFreshAccountFails(g: Globals, saldoInicial: real, today: Date, p: real)
    requires 0.0 <= saldoInicial <= MAX_SALDO && today.year >= MIN_YEAR
    requires 0.0 < p <= 100.0
    ensures var c := CreacionConSaldo(g, saldoInicial, today);
      c.outcome == Ok && Embargo(c.account.value, p).outcome == IllegalState
  {
  }

  /** The peak is not set from the initial balance: right after creation with
      a positive balance, it is below the balance. */
  lemma PeakStartsAtZero(g: Globals, saldoInicial: real, today: Date)
    requires 0.0 < saldoInicial <= MAX_SALDO && today.year >= MIN_YEAR
    ensures var c := CreacionConSaldo(g, saldoInicial, today);
      c.outcome == Ok && c.account.value.saldoMaximo < c.account.value.saldoActual
  {
  }

  /** A program using the classes, with what the contracts let it conclude. */
  method Client(today: Date)
    requires today.year >= MIN_YEAR
  {
    var registry := new Registry();
    var o, a := registry.NuevaCuentaConSaldo(1000.0, today);
    assert o == Ok && a != null && a.id == 0 && a.limiteDescubierto == -2000.0;
    var o2, b := registry.NuevaCuentaPorDefecto(today);
    assert o2 == Ok && b != null && b.id == 1 && b != a;
    var failed, none := registry.NuevaCuentaConFecha(-1.0, Some(today), today);
    assert failed == IllegalArgument && none == null && registry.identificador == 2;

    o := a.Embargar(10.0);
    assert o == IllegalState && a.porcentajeEmbargo == 0.0;

    // a transfer to the account itself: the two writes cancel out
    o := a.Transferir(300.0, a);
    assert o == Ok && a.saldoActual == 1000.0;

    o := a.Transferir(300.0, b);
    assert o == Ok && a.saldoActual == 700.0 && b.saldoActual == 300.0;

    // b's own limit is 0, but the floor applied is -2000
    o := b.Extraer(2000.0);
    assert o == Ok && b.saldoActual == -1700.0;

    o := b.TransferirTodo(a);
    assert o == IllegalState && b.saldoActual == -1700.0 && a.saldoActual == 700.0;

    o := a.Ingresar(50.0, registry, today);
    assert o == Ok && a.saldoActual == 750.0 && a.saldoMaximo == 750.0;
    assert registry.sumaSaldoGlobal == 50.0 && registry.fechaCreacionCuentaMasModerna == Some(today);

    var released := a.Desembargar();
    assert released && a.porcentajeEmbargo == 0.0;
  }
}
