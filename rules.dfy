/** The rules of the bank account, stated on snapshots of its state.

    Each operation of the account is one function from the state before the
    call to its outcome and the state after it; the classes in module Cuenta
    perform the same updates in place and promise that their new state is the
    one these functions compute. Every amount is a real number: the source's
    doubles are only added, subtracted, multiplied, divided by 100 and
    compared. */
module Rules {
  import opened Base

  const MAX_DESCUBIERTO: real := -2000.0
  const MAX_SALDO: real := 50000000.0
  const MIN_YEAR: int := 1900
  const MAX_EMBARGO: real := 100.0
  const MIN_EMBARGO: real := 0.0
  const DEFAULT_SALDO: real := 0.0
  const DEFAULT_MAX_DESCUBIERTO: real := 0.0

  /** The fields of one account. */
  datatype AccountState = AccountState(
    id: int,
    saldoActual: real,
    porcentajeEmbargo: real,
    saldoMaximo: real,
    fechaCreacion: Date,
    limiteDescubierto: real)

  /** The class-wide (static) fields shared by every account. */
  datatype Globals = Globals(
    identificador: int,
    sumaSaldoGlobal: real,
    numeroCuentasEmbargadas: int,
    fechaCreacionCuentaMasModerna: Option<Date>)

  /** The static fields when the program starts: Java's defaults, and the
      counter's explicit initial value 0. */
  const InitialGlobals: Globals := Globals(0, 0.0, 0, None)

  /** What holds of every account the program can reach: the limit it was
      created with, a balance between the global overdraft floor and the
      ceiling, no garnishment at all (no call can ever set one), and a peak
      that started at 0 and only ever took balances below the ceiling. */
  predicate AccountInv(a: AccountState)
  {
    && MAX_DESCUBIERTO <= a.limiteDescubierto <= 0.0
    && MAX_DESCUBIERTO <= a.saldoActual <= MAX_SALDO
    && a.porcentajeEmbargo == 0.0
    && 0.0 <= a.saldoMaximo <= MAX_SALDO
  }

  /** What holds of the static fields in every reachable state: the counter of
      garnished accounts is never written. */
  predicate GlobalsInv(g: Globals)
  {
    g.identificador >= 0 && g.numeroCuentasEmbargadas == 0
  }

  // ---------------------------------------------------------------- creation

  /** The result of a constructor: the account exists only on Ok. */
  datatype Creation = Creation(outcome: Outcome, account: Option<AccountState>, globals: Globals)

  /** The three-argument constructor. Its three checks all throw
      IllegalArgumentException; on success the id is the counter's value
      before a post-increment, and the garnishment and the peak keep Java's
      default 0 (the peak is not set from the initial balance). */
  function Creacion(g: Globals, saldoInicial: real, fechaCreacion: Option<Date>,
                    limiteDescubierto: real, today: Date): (r: Creation)
    ensures r.outcome != IllegalState
    ensures r.outcome == IllegalArgument <==>
      || saldoInicial < 0.0 || saldoInicial > MAX_SALDO
      || fechaCreacion.None? || IsAfter(fechaCreacion.value, today)
      || fechaCreacion.value.year < MIN_YEAR
      || limiteDescubierto > 0.0 || limiteDescubierto < MAX_DESCUBIERTO
    ensures r.account.Some? <==> r.outcome == Ok
    // a failed construction does not consume an id
    ensures r.outcome != Ok ==> r.globals == g
    ensures r.outcome == Ok ==>
      && r.account.value.id == g.identificador
      && r.globals == g.(identificador := g.identificador + 1)
      && r.account.value.saldoActual == saldoInicial
      && r.account.value.fechaCreacion == fechaCreacion.value
      && r.account.value.limiteDescubierto == limiteDescubierto
      && r.account.value.porcentajeEmbargo == 0.0
      && r.account.value.saldoMaximo == 0.0
    ensures r.outcome == Ok ==> AccountInv(r.account.value) && Descubierta(r.account.value)
    ensures GlobalsInv(g) ==> GlobalsInv(r.globals)
  {
    if saldoInicial < 0.0 || saldoInicial > MAX_SALDO then
      Creation(IllegalArgument, None, g)
    else if fechaCreacion.None? || IsAfter(fechaCreacion.value, today)
         || fechaCreacion.value.year < MIN_YEAR then
      Creation(IllegalArgument, None, g)
    else if limiteDescubierto > 0.0 || limiteDescubierto < MAX_DESCUBIERTO then
      Creation(IllegalArgument, None, g)
    else
      var a := AccountState(g.identificador, saldoInicial, 0.0, 0.0,
                            fechaCreacion.value, limiteDescubierto);
      Creation(Ok, Some(a), g.(identificador := g.identificador + 1))
  }

  /** The two-argument constructor: the limit defaults to 0. */
  function CreacionConFecha(g: Globals, saldoInicial: real, fechaCreacion: Option<Date>,
                            today: Date): (r: Creation)
    ensures r.outcome == Ok <==>
      && 0.0 <= saldoInicial <= MAX_SALDO
      && fechaCreacion.Some? && !IsAfter(fechaCreacion.value, today)
      && fechaCreacion.value.year >= MIN_YEAR
    ensures r.outcome == Ok ==> r.account.Some? && r.account.value.limiteDescubierto == 0.0
  {
    Creacion(g, saldoInicial, fechaCreacion, DEFAULT_MAX_DESCUBIERTO, today)
  }

  /** The one-argument constructor: created today, and the limit is the
      global floor -2000 rather than the default 0. */
  function CreacionConSaldo(g: Globals, saldoInicial: real, today: Date): (r: Creation)
    ensures r.outcome == Ok <==> 0.0 <= saldoInicial <= MAX_SALDO && today.year >= MIN_YEAR
    ensures r.outcome == Ok ==>
      && r.account.Some?
      && r.account.value.limiteDescubierto == MAX_DESCUBIERTO
      && r.account.value.fechaCreacion == today
  {
    Creacion(g, saldoInicial, Some(today), MAX_DESCUBIERTO, today)
  }

  /** The constructor without arguments: balance 0, created today, limit 0.
      It can only fail if the clock reads a year before 1900. */
  function CreacionPorDefecto(g: Globals, today: Date): (r: Creation)
    ensures r.outcome == Ok <==> today.year >= MIN_YEAR
    ensures r.outcome == Ok ==>
      && r.account.Some?
      && r.account.value.saldoActual == 0.0
      && r.account.value.limiteDescubierto == 0.0
      && r.account.value.fechaCreacion == today
  {
    Creacion(g, DEFAULT_SALDO, Some(today), DEFAULT_MAX_DESCUBIERTO, today)
  }

  // ------------------------------------------------------------ garnishment

  /** isEmbargada as written: the percentage lies in [0, 100], which is not
      the same as "a garnishment is in force". */
  predicate Embargada(a: AccountState)
  {
    MIN_EMBARGO <= a.porcentajeEmbargo <= MAX_EMBARGO
  }

  /** isDescubierta as written: the limit lies in [-2000, 0]. */
  predicate Descubierta(a: AccountState)
  {
    MAX_DESCUBIERTO <= a.limiteDescubierto <= 0.0
  }

  /** The result of an operation on one account that leaves the statics alone. */
  datatype Update = Update(outcome: Outcome, account: AccountState)

  /** embargar: the percentage is checked first, then whether the account is
      already garnished by the predicate above. Since that predicate holds of
      every reachable account, garnishing never succeeds. */
  function Embargo(a: AccountState, porcentaje: real): (r: Update)
    ensures r.outcome == IllegalArgument <==> porcentaje <= MIN_EMBARGO || porcentaje > MAX_EMBARGO
    ensures r.outcome == IllegalState <==>
      MIN_EMBARGO < porcentaje <= MAX_EMBARGO && MIN_EMBARGO <= a.porcentajeEmbargo <= MAX_EMBARGO
    ensures r.outcome != Ok ==> r.account == a
    ensures r.outcome == Ok ==> r.account == a.(porcentajeEmbargo := porcentaje)
    ensures AccountInv(a) ==> r.outcome != Ok && r.account == a
  {
    if porcentaje <= MIN_EMBARGO || porcentaje > MAX_EMBARGO then Update(IllegalArgument, a)
    else if Embargada(a) then Update(IllegalState, a)
    else Update(Ok, a.(porcentajeEmbargo := porcentaje))
  }

  /** The result of desembargar: whether it reported success, and the account. */
  datatype Release = Release(released: bool, account: AccountState)

  /** desembargar: when the account counts as garnished the percentage is
      reset to 0 and the call reports true; on every reachable account it
      reports true and changes nothing. */
  function Desembargo(a: AccountState): (r: Release)
    ensures r.released <==> MIN_EMBARGO <= a.porcentajeEmbargo <= MAX_EMBARGO
    ensures r.account == if r.released then a.(porcentajeEmbargo := 0.0) else a
    ensures AccountInv(a) ==> r.released && r.account == a
  {
    if Embargada(a) then Release(true, a.(porcentajeEmbargo := 0.0))
    else Release(false, a)
  }

  // ---------------------------------------------------------------- deposit

  /** The result of an operation that may also change the statics. */
  datatype Movement = Movement(outcome: Outcome, account: AccountState, globals: Globals)

  /** The amount a deposit of `cantidad` credits: the percentage divided by 100
      is subtracted as a flat amount. */
  function IngresoEfectivo(a: AccountState, cantidad: real): (r: real)
    ensures a.porcentajeEmbargo == 0.0 ==> r == cantidad
    ensures MIN_EMBARGO <= a.porcentajeEmbargo <= MAX_EMBARGO ==> cantidad - 1.0 <= r <= cantidad
  {
    cantidad - a.porcentajeEmbargo / 100.0
  }

  /** ingresar. Both checks precede every write. On success the balance and
      the global sum grow by the same credited amount, the peak becomes the
      larger of itself and the new balance, and the global peak date becomes
      today exactly when the new balance beats the old peak. */
  function Ingreso(a: AccountState, g: Globals, cantidad: real, today: Date): (r: Movement)
    ensures r.outcome == IllegalArgument <==> cantidad < 0.0
    ensures r.outcome == IllegalState <==>
      cantidad >= 0.0 && a.saldoActual + (cantidad - a.porcentajeEmbargo / 100.0) > MAX_SALDO
    ensures r.outcome != Ok ==> r.account == a && r.globals == g
    ensures r.outcome == Ok ==>
      && r.account.saldoActual == a.saldoActual + (cantidad - a.porcentajeEmbargo / 100.0)
      && r.globals.sumaSaldoGlobal - g.sumaSaldoGlobal == r.account.saldoActual - a.saldoActual
      && r.account.saldoActual <= MAX_SALDO
      && r.account.saldoMaximo == Max(a.saldoMaximo, r.account.saldoActual)
      && r.globals.fechaCreacionCuentaMasModerna ==
           (if r.account.saldoActual > a.saldoMaximo then Some(today)
            else g.fechaCreacionCuentaMasModerna)
    // the peak never decreases
    ensures r.account.saldoMaximo >= a.saldoMaximo
    // only the balance, the peak, the global sum and the peak date can change
    ensures r.account == a.(saldoActual := r.account.saldoActual, saldoMaximo := r.account.saldoMaximo)
    ensures r.globals == g.(sumaSaldoGlobal := r.globals.sumaSaldoGlobal,
                            fechaCreacionCuentaMasModerna := r.globals.fechaCreacionCuentaMasModerna)
    ensures AccountInv(a) ==> AccountInv(r.account)
    ensures AccountInv(a) && r.outcome == Ok ==> r.account.saldoActual == a.saldoActual + cantidad
  {
    if cantidad < 0.0 then Movement(IllegalArgument, a, g)
    else
      var ingreso := IngresoEfectivo(a, cantidad);
      var saldoDespues := a.saldoActual + ingreso;
      if saldoDespues > MAX_SALDO then Movement(IllegalState, a, g)
      else
        var suma := g.sumaSaldoGlobal + ingreso;
        if saldoDespues > a.saldoMaximo then
          Movement(Ok, a.(saldoActual := saldoDespues, saldoMaximo := saldoDespues),
                   g.(sumaSaldoGlobal := suma, fechaCreacionCuentaMasModerna := Some(today)))
        else
          Movement(Ok, a.(saldoActual := saldoDespues), g.(sumaSaldoGlobal := suma))
  }

  // --------------------------------------------------------------- withdraw

  /** extraer. The floor is the global -2000, not the account's own limit, so
      an account with limit 0 can still be overdrawn down to -2000. */
  function Extraccion(a: AccountState, cantidad: real): (r: Update)
    ensures r.outcome == IllegalArgument <==> cantidad < 0.0
    ensures r.outcome == IllegalState <==> cantidad >= 0.0 && a.saldoActual - cantidad < MAX_DESCUBIERTO
    ensures r.outcome != Ok ==> r.account == a
    ensures r.outcome == Ok ==>
      && r.account == a.(saldoActual := a.saldoActual - cantidad)
      && r.account.saldoActual >= MAX_DESCUBIERTO
    ensures AccountInv(a) ==> AccountInv(r.account)
  {
    if cantidad < 0.0 then Update(IllegalArgument, a)
    else
      var saldoDespues := a.saldoActual - cantidad;
      if saldoDespues < MAX_DESCUBIERTO then Update(IllegalState, a)
      else Update(Ok, a.(saldoActual := saldoDespues))
  }

  // --------------------------------------------------------------- transfer

  /** The destination argument of transferir: null, the very account the
      method is called on, or another account (with its state). */
  datatype Destination = Null | Same | Other(account: AccountState)

  /** The result of transferir: the outcome, the source account and the
      destination (updated when it is another account). */
  datatype Transfer = Transfer(outcome: Outcome, source: AccountState, dest: Destination)

  /** The balance the account may move out: the percentage is applied to the
      balance itself. */
  function SaldoEfectivo(a: AccountState): (r: real)
    ensures a.porcentajeEmbargo == 0.0 ==> r == a.saldoActual
  {
    a.saldoActual - a.saldoActual * (a.porcentajeEmbargo / 100.0)
  }

  /** What a destination with the state `d` is credited for `cantidad`. */
  function IncrementoDestino(d: AccountState, cantidad: real): (r: real)
    ensures d.porcentajeEmbargo == 0.0 ==> r == cantidad
  {
    cantidad - cantidad * (d.porcentajeEmbargo / 100.0)
  }

  /** The state the destination checks read: the source itself when the two
      are one account. */
  function Target(a: AccountState, dest: Destination): AccountState
  {
    if dest.Other? then dest.account else a
  }

  /** transferir(cantidad, cuentaDestino). Every check precedes both writes,
      so a failed transfer changes neither account. On success the source
      loses exactly `cantidad` and the destination gains the credited amount;
      when the destination is the source itself the two writes land on one
      balance, whose net change is minus the garnished cut. */
  function Transferencia(a: AccountState, cantidad: real, dest: Destination): (r: Transfer)
    ensures r.outcome == IllegalArgument <==> dest.Null? || cantidad < 0.0
    ensures r.outcome == IllegalState <==>
      && !dest.Null? && cantidad >= 0.0
      && (|| SaldoEfectivo(a) < cantidad || SaldoEfectivo(a) < MAX_DESCUBIERTO
          || SaldoEfectivo(Target(a, dest)) + IncrementoDestino(Target(a, dest), cantidad) > MAX_SALDO)
    // all or nothing
    ensures r.outcome != Ok ==> r.source == a && r.dest == dest
    ensures r.outcome == Ok && dest.Other? ==>
      && r.source == a.(saldoActual := a.saldoActual - cantidad)
      && r.dest == Other(dest.account.(saldoActual := dest.account.saldoActual
                          + (cantidad - cantidad * (dest.account.porcentajeEmbargo / 100.0))))
    ensures r.outcome == Ok && dest.Same? ==>
      && r.source == a.(saldoActual := a.saldoActual - cantidad * (a.porcentajeEmbargo / 100.0))
      && r.dest == Same
    // between distinct accounts the source never ends below 0
    ensures r.outcome == Ok && dest.Other? && AccountInv(a) ==> r.source.saldoActual >= 0.0
    // with an ungarnished destination no money is created or lost
    ensures r.outcome == Ok && dest.Other? && dest.account.porcentajeEmbargo == 0.0 ==>
      r.source.saldoActual + r.dest.account.saldoActual == a.saldoActual + dest.account.saldoActual
    ensures AccountInv(a) && (dest.Other? ==> AccountInv(dest.account)) ==>
      AccountInv(r.source) && (r.dest.Other? ==> AccountInv(r.dest.account))
  {
    if dest.Null? then Transfer(IllegalArgument, a, dest)
    else if cantidad < 0.0 then Transfer(IllegalArgument, a, dest)
    else
      var saldoEfectivoOrigen := SaldoEfectivo(a);
      if saldoEfectivoOrigen < cantidad || saldoEfectivoOrigen < MAX_DESCUBIERTO then
        Transfer(IllegalState, a, dest)
      else
        var d := Target(a, dest);
        var saldoEfectivoDestino := SaldoEfectivo(d);
        var incremento := IncrementoDestino(d, cantidad);
        if saldoEfectivoDestino + incremento > MAX_SALDO then Transfer(IllegalState, a, dest)
        else if dest.Same? then
          // this.saldoActual -= cantidad; then the same field += incremento
          Transfer(Ok, a.(saldoActual := (a.saldoActual - cantidad) + incremento), Same)
        else
          assert d == dest.account;
          assert incremento == cantidad - cantidad * (dest.account.porcentajeEmbargo / 100.0);
          Transfer(Ok, a.(saldoActual := a.saldoActual - cantidad),
                   Other(d.(saldoActual := d.saldoActual + incremento)))
  }

  /** transferir(cuentaDestino): the whole balance when it is positive, else 0.
      An account in overdraft can therefore never use it, and a successful
      whole-balance transfer to another account empties the source. */
  function TransferenciaTotal(a: AccountState, dest: Destination): (r: Transfer)
    ensures r == Transferencia(a, Max(a.saldoActual, 0.0), dest)
    ensures AccountInv(a) && !dest.Null? && a.saldoActual < 0.0 ==> r.outcome == IllegalState
    ensures AccountInv(a) && r.outcome == Ok && dest.Other? ==> r.source.saldoActual == 0.0
  {
    var saldoCompleto := a.saldoActual;
    if a.saldoActual > 0.0 then Transferencia(a, saldoCompleto, dest)
    else Transferencia(a, 0.0, dest)
  }
}
