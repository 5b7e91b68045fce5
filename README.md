# CuentaBancaria in Dafny

A model of the Java class `CuentaBancaria`, a bank account. The account has a
balance (`saldoActual`), a garnishment percentage (`porcentajeEmbargo`), a peak
balance (`saldoMaximo`), an id, a creation date and an overdraft limit
(`limiteDescubierto`). Class-wide static fields hold the id counter
(`identificador`), the sum of all credited deposits (`sumaSaldoGlobal`), a count
of garnished accounts (`numeroCuentasEmbargadas`) and the date of the latest
peak (`fechaCreacionCuentaMasModerna`). The operations are the four
constructors, `embargar`, `desembargar`, `ingresar`, `extraer`, the two
`transferir` overloads, `isEmbargada`, `isDescubierta`, `fetDiasCuenta` and
the accessors. Every operation is a guarded update: it checks its inputs and
either throws `IllegalArgumentException` or `IllegalStateException`, or
writes its fields.

The project has five files:

- `base.dfy` (module `Base`): `Option` (a Java reference that may be null),
  `Outcome` (`Ok`, `IllegalArgument` or `IllegalState`, in place of the two
  exceptions) and `Date`.
- `rules.dfy` (module `Rules`): the constants, value snapshots of one account
  (`AccountState`) and of the statics (`Globals`), and one function per
  operation. Each function maps the state before a call to the outcome and the
  state after it. Its `ensures` clauses state what the source promises: when
  each error is raised, that a failure changes nothing, how the balance, the
  global sum and the peak move on success, that the peak never decreases, and
  that the reachable-state invariant `AccountInv` is preserved.
- `cuenta.dfy` (module `Cuenta`): class `Account` with the instance fields and
  class `Registry` with the static fields. The methods update the fields in
  place, in the source's order. Each method promises that its outcome and new
  state are what the matching `Rules` function computes from the old state.
  A Java constructor that throws becomes a `Registry.NuevaCuenta*` method that
  returns the outcome and either a fresh account or null.
- `reachable.dfy` (module `Reachable`): a client program as a sequence of
  calls over a world of accounts. Inductive lemmas show what holds in every
  state such a program reaches.
- `scenarios.dfy` (module `Scenarios`): concrete consequences, plus a client
  method that drives the classes, including a transfer from an account to
  itself.

The model follows the code as written, including where it departs from what
its names and comments suggest:

- `isEmbargada` is true whenever the percentage lies in [0, 100]. So on a
  real account `embargar` always fails: with IllegalArgument for a percentage
  outside (0, 100], otherwise with IllegalState. No account is ever
  garnished, and `desembargar` always reports true.
- `numeroCuentasEmbargadas` is never written, so it stays 0.
- `extraer` and `transferir` compare against the global floor -2000, not the
  account's own limit. An account created with limit 0 can be overdrawn to
  -2000.
- The one-argument constructor uses the limit -2000. The two-argument
  constructor uses 0.
- `saldoMaximo` starts at 0, not at the initial balance.
- `ingresar` subtracts `porcentajeEmbargo / 100` as a flat amount.
  `transferir` applies the percentage to the balance and to the amount. Both
  formulas are kept as they are.
- `getTotalIngresado` returns the balance.
- `fetDiasCuenta` subtracts days of the year, so across a year boundary it
  can be negative.

"Today" (Java's `LocalDate.now()`) is a parameter. A `Date` is a year and a
day of the year. Comparing the pairs lexicographically gives the order of the
dates. The static fields live in a `Registry` object: the `NuevaCuenta*`
methods of `Registry` model the constructors, and `Ingresar` takes the
registry as a parameter.

## Model

| member | source | states |
|---|---|---|
| Rules.Creacion | CuentaBancaria/src/cuentabancaria/CuentaBancaria.java:51-66 | fails with IllegalArgument exactly when the balance is outside [0, 50,000,000], the date is absent, later than today or before 1900, or the limit is outside [-2000, 0], and never with IllegalState; a failure leaves the statics unchanged, so it does not consume an id; on success the account gets the counter's old value as id, the given balance, date and limit, garnishment 0 and peak 0, the counter grows by exactly 1, and the account satisfies the reachable-state invariant and is `isDescubierta` |
| Rules.CreacionConFecha | CuentaBancaria/src/cuentabancaria/CuentaBancaria.java:77-79 | succeeds exactly when the balance and the date pass the checks, and then the limit is 0 |
| Rules.CreacionConSaldo | CuentaBancaria/src/cuentabancaria/CuentaBancaria.java:89-91 | succeeds exactly when the balance is in [0, 50,000,000] and today's year is at least 1900; the account is dated today and its limit is -2000 |
| Rules.CreacionPorDefecto | CuentaBancaria/src/cuentabancaria/CuentaBancaria.java:97-99 | succeeds exactly when today's year is at least 1900, giving balance 0, limit 0 and today's date |
| Rules.Embargo | CuentaBancaria/src/cuentabancaria/CuentaBancaria.java:156-167 | IllegalArgument exactly when the percentage is at most 0 or above 100; otherwise IllegalState exactly when the current percentage lies in [0, 100]; a failure changes nothing; success only sets the percentage; on every account satisfying the invariant the call never succeeds |
| Rules.Desembargo | CuentaBancaria/src/cuentabancaria/CuentaBancaria.java:175-182 | reports true exactly when the percentage lies in [0, 100], and then resets it to 0, else changes nothing; on every account satisfying the invariant it reports true and changes nothing |
| Rules.IngresoEfectivo | CuentaBancaria/src/cuentabancaria/CuentaBancaria.java:209 | the credited amount equals the deposit when there is no garnishment, and is never more than one unit below it for a percentage in [0, 100] |
| Rules.Ingreso | CuentaBancaria/src/cuentabancaria/CuentaBancaria.java:203-223 | IllegalArgument exactly when the amount is negative; IllegalState exactly when the credited balance would exceed 50,000,000; on failure the account and the statics are unchanged; on success the balance and the global sum grow by the same credited amount, the peak becomes the larger of the old peak and the new balance, and the peak date becomes today exactly when the new balance beats the old peak; the peak never decreases; nothing else changes; the invariant is preserved |
| Rules.Extraccion | CuentaBancaria/src/cuentabancaria/CuentaBancaria.java:243-257 | IllegalArgument exactly when the amount is negative; IllegalState exactly when the balance minus the amount would be below the global -2000; a failure changes nothing; success lowers only the balance, by exactly the amount, and leaves it at least -2000; the invariant is preserved |
| Rules.SaldoEfectivo | CuentaBancaria/src/cuentabancaria/CuentaBancaria.java:281-282 | the effective balance of an ungarnished account is its balance |
| Rules.IncrementoDestino | CuentaBancaria/src/cuentabancaria/CuentaBancaria.java:293-294 | an ungarnished destination is credited the whole amount |
| Rules.Transferencia | CuentaBancaria/src/cuentabancaria/CuentaBancaria.java:271-304 | IllegalArgument exactly when the destination is null or the amount is negative; IllegalState exactly when the source's effective balance is below the amount or below -2000, or the destination would exceed 50,000,000; a failure changes neither account; on success between distinct accounts the source loses exactly the amount and the destination gains the amount minus its garnished cut, and nothing else changes; when the destination is the source itself the balance changes by minus the garnished cut; on a source satisfying `AccountInv`, a successful transfer between distinct accounts leaves it at 0 or above; with an ungarnished destination the sum of the two balances is conserved; the invariant is preserved on both accounts |
| Rules.TransferenciaTotal | CuentaBancaria/src/cuentabancaria/CuentaBancaria.java:314-322 | is the transfer of max(balance, 0); on a source satisfying `AccountInv` with a negative balance and a non-null destination it always fails with IllegalState; on a source satisfying `AccountInv`, a successful whole-balance transfer to another account leaves the source at 0 |
| Cuenta.Registry.constructor | CuentaBancaria/src/cuentabancaria/CuentaBancaria.java:17-33 | the statics start at counter 0, global sum 0, garnished count 0 and no peak date |
| Cuenta.Registry.NuevaCuenta | CuentaBancaria/src/cuentabancaria/CuentaBancaria.java:51-66 | returns the outcome of `Rules.Creacion` on the old statics; the statics become its new statics; a fresh, valid account with its state exists exactly on success; the new account's id is the old counter and the counter grows by 1, and it is unchanged on failure |
| Cuenta.Registry.NuevaCuentaConFecha | CuentaBancaria/src/cuentabancaria/CuentaBancaria.java:77-79 | the outcome, the new account and the new statics are those of `Rules.CreacionConFecha` |
| Cuenta.Registry.NuevaCuentaConSaldo | CuentaBancaria/src/cuentabancaria/CuentaBancaria.java:89-91 | the outcome, the new account and the new statics are those of `Rules.CreacionConSaldo` |
| Cuenta.Registry.NuevaCuentaPorDefecto | CuentaBancaria/src/cuentabancaria/CuentaBancaria.java:97-99 | the outcome, the new account and the new statics are those of `Rules.CreacionPorDefecto` |
| Cuenta.Account.constructor | CuentaBancaria/src/cuentabancaria/CuentaBancaria.java:62-65 | stores the id, balance, date and limit; garnishment and peak are 0; the account is valid |
| Cuenta.Account.PorcentajeEmbargo | CuentaBancaria/src/cuentabancaria/CuentaBancaria.java:115-120 | returns the field on both branches; 0 on a valid account |
| Cuenta.Account.TotalIngresado | CuentaBancaria/src/cuentabancaria/CuentaBancaria.java:230-232 | equals the current balance |
| Cuenta.Account.SaldoMaximo | CuentaBancaria/src/cuentabancaria/CuentaBancaria.java:329-331 | returns the peak, which lies in [0, 50,000,000] on a valid account |
| Cuenta.Account.IsDescubierta | CuentaBancaria/src/cuentabancaria/CuentaBancaria.java:127-133 | holds of every valid account |
| Cuenta.Account.IsEmbargada | CuentaBancaria/src/cuentabancaria/CuentaBancaria.java:140-146 | holds of every valid account, although none is garnished |
| Cuenta.Account.DiasCuenta | CuentaBancaria/src/cuentabancaria/CuentaBancaria.java:189-193 | is at least 0 when today is in the creation year and not before the creation date; is negative whenever today's day of the year is earlier than the creation day of the year |
| Cuenta.Account.Embargar | CuentaBancaria/src/cuentabancaria/CuentaBancaria.java:156-167 | outcome and new state are those of `Rules.Embargo`; on a valid account it always fails and changes nothing |
| Cuenta.Account.Desembargar | CuentaBancaria/src/cuentabancaria/CuentaBancaria.java:175-182 | result and new state are those of `Rules.Desembargo`; on a valid account it returns true, the percentage is 0 and nothing changes |
| Cuenta.Account.Ingresar | CuentaBancaria/src/cuentabancaria/CuentaBancaria.java:203-223 | the outcome, the new account and the new statics are those of `Rules.Ingreso`; a failure changes neither object; the peak does not decrease; both objects stay valid |
| Cuenta.Account.Extraer | CuentaBancaria/src/cuentabancaria/CuentaBancaria.java:243-257 | outcome and new state are those of `Rules.Extraccion`; a failure changes nothing; the account stays valid |
| Cuenta.Account.Transferir | CuentaBancaria/src/cuentabancaria/CuentaBancaria.java:271-304 | the outcome and the new states of both objects are those of `Rules.Transferencia` on the old states, with the destination seen as null, this same object, or another account; a failure changes neither object; both stay valid |
| Cuenta.Account.TransferirTodo | CuentaBancaria/src/cuentabancaria/CuentaBancaria.java:314-322 | the outcome and the new states are those of `Rules.TransferenciaTotal` |
| Reachable.ApplyKeepsInv | CuentaBancaria/src/cuentabancaria/CuentaBancaria.java:51-322 | any single call keeps the world invariant: the k-th account created has id k, the counter equals the number of accounts, every account satisfies `AccountInv`, and the garnished count is 0 |
| Reachable.TransferKeepsInv | CuentaBancaria/src/cuentabancaria/CuentaBancaria.java:301-302 | writing the two results of a transfer back keeps the world invariant |
| Reachable.RunKeepsInv | CuentaBancaria/src/cuentabancaria/CuentaBancaria.java:51-322 | every sequence of calls keeps the world invariant |
| Reachable.NeverGarnished | CuentaBancaria/src/cuentabancaria/CuentaBancaria.java:140-167 | in every reachable state every account's percentage is 0 and no `embargar` call on any account can succeed |
| Reachable.GarnishedCountStaysZero | CuentaBancaria/src/cuentabancaria/CuentaBancaria.java:18 | in every reachable state the garnished count is 0 |
| Reachable.IdsInCreationOrder | CuentaBancaria/src/cuentabancaria/CuentaBancaria.java:33-65 | in every reachable state the ids are 0, 1, 2, ... in creation order, so they are strictly increasing and never reused, and the counter holds the next id (with the counter as an unbounded integer: see the Java `int` wrap under Left out) |
| Reachable.ApplyAppendsAndKeepsPeaks | CuentaBancaria/src/cuentabancaria/CuentaBancaria.java:219-222 | a single call only appends accounts, keeps every existing id and never lowers any existing peak |
| Reachable.PeakMonotone | CuentaBancaria/src/cuentabancaria/CuentaBancaria.java:219-222 | over any sequence of calls, an account keeps its id and its peak never decreases |
| Reachable.CounterMonotone | CuentaBancaria/src/cuentabancaria/CuentaBancaria.java:65 | over any sequence of calls the id counter never decreases |
| Scenarios.WithdrawIgnoresOwnLimit | CuentaBancaria/src/cuentabancaria/CuentaBancaria.java:251 | an account created with limit 0 and balance 0 can withdraw 1500, ending below its own limit |
| Scenarios.GarnishFreshAccountFails | CuentaBancaria/src/cuentabancaria/CuentaBancaria.java:162-164 | garnishing a freshly created account with any valid percentage fails with IllegalState |
| Scenarios.PeakStartsAtZero | CuentaBancaria/src/cuentabancaria/CuentaBancaria.java:62-65 | right after creation with a positive balance, the peak is below the balance |

## Left out

- `toString` is not modelled. It renders the balance with `String.format("%,14.2f")`, which depends on the locale's grouping character and on how a double is printed.
- `FORMATO_FECHA` and the text of the exception messages are not modelled. Only the kind of exception is kept.
- A null creation date makes the constructor throw a NullPointerException while it formats the error message. It is modelled as a rejected argument (IllegalArgument).
- `LocalDate.now()` is a clock read. It is a `today` parameter of the operations that use it.
- The accessors `getSaldo`, `getId`, `getFechaCreacion`, `getLimiteDescubierto`, `getSumaSaldoGlobal`, `getNumeroCuentasEmbargadas` and `getFechaCreacionCuentaMasModerna` only return a field. The model reads those fields directly.
- The field `cantidadtotalEurosIngresados` is never read or written, so it is not modelled.
- Amounts are unbounded reals. Rounding of Java's `double` is not modelled.
- Rules.Creacion: Java's `double` has NaN, and NaN fails every comparison, so `new CuentaBancaria(NaN, fecha, NaN)` passes all three checks (CuentaBancaria.java:52, 58) and yields an account whose `isDescubierta` is false. Reals have no NaN, so the model promises that every successful construction satisfies `AccountInv` and `isDescubierta`, which Java does not for NaN arguments.
- Rules.Ingreso: for the same reason `ingresar(NaN)` passes both checks (CuentaBancaria.java:204, 212) and stores NaN as the balance, which breaks the balance bound of `AccountInv`. The same holds for NaN amounts given to `extraer` and `transferir`. The model does not capture NaN amounts.
- Reachable.IdsInCreationOrder: the id counter is an unbounded integer. In Java `identificador` is an `int`, so after 2^31 successful constructions `identificador++` (CuentaBancaria.java:65) wraps to -2^31 and ids repeat after 2^32 constructions. "Strictly increasing and never reused", the counter's bound `identificador >= 0` in `GlobalsInv`, and Reachable.CounterMonotone hold in Java only while fewer than 2^31 accounts have been created.
- Dates are a year and a day of the year. The day is not checked against the length of the year, and leap years are not modelled.
- The statics are fields of a `Registry` object. A Dafny program could create several registries, whereas Java has exactly one set of statics.
- Cuenta.Account.constructor: it is public, because Dafny here cannot hide it, and it checks neither the date nor the id. A Dafny client could call `new Account(7, 0.0, Date(1800, 1), 0.0)` twice and obtain two valid accounts with the same id, dated before 1900. Java has no such way to bypass the checks and the counter at CuentaBancaria.java:52-65. Only the `Registry.NuevaCuenta*` methods model the Java constructors.
- The model assumes a single caller. It has no thread safety, and neither does the source.
- Reachable.Apply: a call that names an account position which does not exist leaves the world unchanged. Java has no such call.
