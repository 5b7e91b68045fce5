/** The account class with its fields updated in place.

    Java keeps the id counter, the global deposited sum, the garnished-count
    and the latest peak date in static fields; here they are the fields of one
    Registry object, whose NuevaCuenta* methods model the constructors;
    Ingresar takes the registry as a parameter. Each method
    performs the source's checks and writes in the source's order and promises
    that its outcome and new state are the ones the matching function in
    module Rules computes from the old state. */
module Cuenta {
  import opened Base
  import opened Rules

  /** The static fields of CuentaBancaria, and its constructors (which draw
      the next id from them). */
  class Registry {
    var identificador: int
    var sumaSaldoGlobal: real
    var numeroCuentasEmbargadas: int
    var fechaCreacionCuentaMasModerna: Option<Date>

    function State(): Globals
      reads this
    {
      Globals(identificador, sumaSaldoGlobal, numeroCuentasEmbargadas, fechaCreacionCuentaMasModerna)
    }

    predicate Valid()
      reads this
    {
      GlobalsInv(State())
    }

    /** The statics when the program starts. */
    constructor ()
      ensures Valid() && State() == InitialGlobals
    {
      identificador := 0;
      sumaSaldoGlobal := 0.0;
      numeroCuentasEmbargadas := 0;
      fechaCreacionCuentaMasModerna := None;
    }

    /** new CuentaBancaria(saldoInicial, fechaCreacion, limiteDescubierto):
        null stands for the thrown IllegalArgumentException. */
    method NuevaCuenta(saldoInicial: real, fechaCreacion: Option<Date>, limiteDescubierto: real,
                       today: Date)
      returns (outcome: Outcome, cuenta: Account?)
      requires Valid()
      modifies this
      ensures Valid()
      ensures var r := Creacion(old(State()), saldoInicial, fechaCreacion, limiteDescubierto, today);
        && outcome == r.outcome
        && State() == r.globals
        && (cuenta == null <==> r.account.None?)
        && (cuenta != null ==> fresh(cuenta) && cuenta.Valid() && cuenta.State() == r.account.value)
      ensures cuenta != null ==> cuenta.id == old(identificador) && identificador == old(identificador) + 1
      ensures cuenta == null ==> identificador == old(identificador)
    {
      if saldoInicial < 0.0 || saldoInicial > MAX_SALDO {
        return IllegalArgument, null;
      } else if fechaCreacion.None? || IsAfter(fechaCreacion.value, today)
             || fechaCreacion.value.year < MIN_YEAR {
        return IllegalArgument, null;
      } else if limiteDescubierto > 0.0 || limiteDescubierto < MAX_DESCUBIERTO {
        return IllegalArgument, null;
      }
      cuenta := new Account(identificador, saldoInicial, fechaCreacion.value, limiteDescubierto);
      identificador := identificador + 1;
      outcome := Ok;
    }

    /** new CuentaBancaria(saldoInicial, fechaCreacion): limit 0. */
    method NuevaCuentaConFecha(saldoInicial: real, fechaCreacion: Option<Date>, today: Date)
      returns (outcome: Outcome, cuenta: Account?)
      requires Valid()
      modifies this
      ensures Valid()
      ensures var r := CreacionConFecha(old(State()), saldoInicial, fechaCreacion, today);
        && outcome == r.outcome
        && State() == r.globals
        && (cuenta == null <==> r.account.None?)
        && (cuenta != null ==> fresh(cuenta) && cuenta.Valid() && cuenta.State() == r.account.value)
    {
      outcome, cuenta := NuevaCuenta(saldoInicial, fechaCreacion, DEFAULT_MAX_DESCUBIERTO, today);
    }

    /** new CuentaBancaria(saldoInicial): created today, limit -2000. */
    method NuevaCuentaConSaldo(saldoInicial: real, today: Date)
      returns (outcome: Outcome, cuenta: Account?)
      requires Valid()
      modifies this
      ensures Valid()
      ensures var r := CreacionConSaldo(old(State()), saldoInicial, today);
        && outcome == r.outcome
        && State() == r.globals
        && (cuenta == null <==> r.account.None?)
        && (cuenta != null ==> fresh(cuenta) && cuenta.Valid() && cuenta.State() == r.account.value)
    {
      outcome, cuenta := NuevaCuenta(saldoInicial, Some(today), MAX_DESCUBIERTO, today);
    }

    /** new CuentaBancaria(): balance 0, created today, limit 0. */
    method NuevaCuentaPorDefecto(today: Date) returns (outcome: Outcome, cuenta: Account?)
      requires Valid()
      modifies this
      ensures Valid()
      ensures var r := CreacionPorDefecto(old(State()), today);
        && outcome == r.outcome
        && State() == r.globals
        && (cuenta == null <==> r.account.None?)
        && (cuenta != null ==> fresh(cuenta) && cuenta.Valid() && cuenta.State() == r.account.value)
    {
      outcome, cuenta := NuevaCuenta(DEFAULT_SALDO, Some(today), DEFAULT_MAX_DESCUBIERTO, today);
    }
  }

  /** One bank account: the mutable balance, garnishment and peak, and the
      id, creation date and limit fixed at construction. */
  class Account {
    var saldoActual: real
    var porcentajeEmbargo: real
    var saldoMaximo: real
    const id: int
    const fechaCreacion: Date
    const limiteDescubierto: real

    function State(): AccountState
      reads this
    {
      AccountState(id, saldoActual, porcentajeEmbargo, saldoMaximo, fechaCreacion, limiteDescubierto)
    }

    predicate Valid()
      reads this
    {
      AccountInv(State())
    }

    /** The field assignments of the constructor, once its checks have passed:
        the garnishment and the peak keep their default 0. */
    constructor (id: int, saldoInicial: real, fechaCreacion: Date, limiteDescubierto: real)
      requires 0.0 <= saldoInicial <= MAX_SALDO
      requires MAX_DESCUBIERTO <= limiteDescubierto <= 0.0
      ensures Valid()
      ensures State() == AccountState(id, saldoInicial, 0.0, 0.0, fechaCreacion, limiteDescubierto)
    {
      this.saldoActual := saldoInicial;
      this.porcentajeEmbargo := 0.0;
      this.saldoMaximo := 0.0;
      this.id := id;
      this.fechaCreacion := fechaCreacion;
      this.limiteDescubierto := limiteDescubierto;
    }

    /** getPorcentajeEmbargo: both branches return the field, which is 0 on
        every reachable account. */
    function PorcentajeEmbargo(): (r: real)
      reads this
      ensures r == porcentajeEmbargo
      ensures Valid() ==> r == 0.0
    {
      if porcentajeEmbargo >= MIN_EMBARGO && porcentajeEmbargo <= MAX_EMBARGO then porcentajeEmbargo
      else porcentajeEmbargo
    }

    /** getTotalIngresado: the balance itself, not a running total of deposits. */
    function TotalIngresado(): (r: real)
      reads this
      ensures r == saldoActual
    {
      saldoActual - DEFAULT_SALDO
    }

    /** getSaldoMaximo: the peak, which on a reachable account lies in
        [0, 50,000,000] but need not be at least the balance (it is not set
        from the initial balance). */
    function SaldoMaximo(): (r: real)
      reads this
      ensures r == saldoMaximo
      ensures Valid() ==> 0.0 <= r <= MAX_SALDO
    {
      saldoMaximo
    }

    /** isDescubierta: true of every account the constructors produce. */
    predicate IsDescubierta()
      reads this
      ensures Valid() ==> IsDescubierta()
    {
      Descubierta(State())
    }

    /** isEmbargada: true of every reachable account, garnished or not. */
    predicate IsEmbargada()
      reads this
      ensures Valid() ==> IsEmbargada()
    {
      Embargada(State())
    }

    /** fetDiasCuenta: the difference of the days of the year, which is not the
        account's age once the year has changed. */
    function DiasCuenta(today: Date): (r: int)
      ensures today.year == fechaCreacion.year && !IsAfter(fechaCreacion, today) ==> r >= 0
      ensures today.dayOfYear < fechaCreacion.dayOfYear ==> r < 0
    {
      today.dayOfYear - fechaCreacion.dayOfYear
    }

    /** embargar(porcentaje). The write is reachable only from a state with a
        percentage outside [0, 100], which no account ever has: on a valid
        account the call always fails and changes nothing. */
    method Embargar(porcentaje: real) returns (outcome: Outcome)
      modifies this
      ensures var r := Embargo(old(State()), porcentaje);
        outcome == r.outcome && State() == r.account
      ensures old(Valid()) ==> outcome != Ok && unchanged(this) && Valid()
    {
      if porcentaje <= MIN_EMBARGO || porcentaje > MAX_EMBARGO {
        return IllegalArgument;
      }
      if IsEmbargada() {
        return IllegalState;
      }
      porcentajeEmbargo := porcentaje;
      outcome := Ok;
    }

    /** desembargar(). */
    method Desembargar() returns (released: bool)
      requires Valid()
      modifies this
      ensures Valid()
      ensures var r := Desembargo(old(State()));
        released == r.released && State() == r.account
      ensures released && porcentajeEmbargo == 0.0 && unchanged(this)
    {
      if IsEmbargada() {
        porcentajeEmbargo := 0.0;
        released := true;
      } else {
        released := false;
      }
    }

    /** ingresar(cantidad): the only operation that writes the statics. */
    method Ingresar(cantidad: real, registry: Registry, today: Date) returns (outcome: Outcome)
      requires Valid() && registry.Valid()
      modifies this, registry
      ensures Valid() && registry.Valid()
      ensures var r := Ingreso(old(State()), old(registry.State()), cantidad, today);
        && outcome == r.outcome
        && State() == r.account
        && registry.State() == r.globals
      ensures outcome != Ok ==> unchanged(this) && unchanged(registry)
      ensures saldoMaximo >= old(saldoMaximo)
    {
      if cantidad < 0.0 {
        return IllegalArgument;
      }
      var ingresoEfectivo := cantidad - porcentajeEmbargo / 100.0;
      var saldoDespuesIngreso := saldoActual + ingresoEfectivo;
      if saldoDespuesIngreso > MAX_SALDO {
        return IllegalState;
      }
      saldoActual := saldoDespuesIngreso;
      registry.sumaSaldoGlobal := registry.sumaSaldoGlobal + ingresoEfectivo;
      if saldoActual > saldoMaximo {
        saldoMaximo := saldoActual;
        registry.fechaCreacionCuentaMasModerna := Some(today);
      }
      outcome := Ok;
    }

    /** extraer(cantidad). */
    method Extraer(cantidad: real) returns (outcome: Outcome)
      requires Valid()
      modifies this
      ensures Valid()
      ensures var r := Extraccion(old(State()), cantidad);
        outcome == r.outcome && State() == r.account
      ensures outcome != Ok ==> unchanged(this)
    {
      if cantidad < 0.0 {
        return IllegalArgument;
      }
      var saldoDespuesExtraccion := saldoActual - cantidad;
      if saldoDespuesExtraccion < MAX_DESCUBIERTO {
        return IllegalState;
      }
      saldoActual := saldoDespuesExtraccion;
      outcome := Ok;
    }

    /** The destination argument of a transfer, as the rules see it. */
    function DestinationOf(cuentaDestino: Account?): Destination
      reads cuentaDestino
    {
      if cuentaDestino == null then Null
      else if cuentaDestino == this then Same
      else Other(cuentaDestino.State())
    }

    /** transferir(cantidad, cuentaDestino). Both accounts are written only
        after every check has passed; when cuentaDestino is this account the
        two writes fall on the same field. */
    method Transferir(cantidad: real, cuentaDestino: Account?) returns (outcome: Outcome)
      requires Valid()
      requires cuentaDestino != null ==> cuentaDestino.Valid()
      modifies this, cuentaDestino
      ensures Valid() && (cuentaDestino != null ==> cuentaDestino.Valid())
      ensures var r := Transferencia(old(State()), cantidad, old(DestinationOf(cuentaDestino)));
        && outcome == r.outcome
        && State() == r.source
        && (r.dest.Other? ==> cuentaDestino.State() == r.dest.account)
      ensures outcome != Ok ==> unchanged(this) && (cuentaDestino != null ==> unchanged(cuentaDestino))
    {
      if cuentaDestino == null {
        return IllegalArgument;
      }
      if cantidad < 0.0 {
        return IllegalArgument;
      }
      var saldoEfectivoOrigen := saldoActual - saldoActual * (porcentajeEmbargo / 100.0);
      if saldoEfectivoOrigen < cantidad || saldoEfectivoOrigen < MAX_DESCUBIERTO {
        return IllegalState;
      }
      var saldoEfectivoDestino := cuentaDestino.saldoActual
        - cuentaDestino.saldoActual * (cuentaDestino.porcentajeEmbargo / 100.0);
      var incrementoDestino := cantidad - cantidad * (cuentaDestino.porcentajeEmbargo / 100.0);
      if saldoEfectivoDestino + incrementoDestino > MAX_SALDO {
        return IllegalState;
      }
      saldoActual := saldoActual - cantidad;
      cuentaDestino.saldoActual := cuentaDestino.saldoActual + incrementoDestino;
      outcome := Ok;
    }

    /** transferir(cuentaDestino): the whole balance when positive, else 0. */
    method TransferirTodo(cuentaDestino: Account?) returns (outcome: Outcome)
      requires Valid()
      requires cuentaDestino != null ==> cuentaDestino.Valid()
      modifies this, cuentaDestino
      ensures Valid() && (cuentaDestino != null ==> cuentaDestino.Valid())
      ensures var r := TransferenciaTotal(old(State()), old(DestinationOf(cuentaDestino)));
        && outcome == r.outcome
        && State() == r.source
        && (r.dest.Other? ==> cuentaDestino.State() == r.dest.account)
    {
      var saldoCompleto := saldoActual;
      if saldoActual > 0.0 {
        outcome := Transferir(saldoCompleto, cuentaDestino);
      } else {
        outcome := Transferir(0.0, cuentaDestino);
      }
    }
  }
}
