/** The states a program using the account class can reach.

    A world is every account created so far, in creation order, and the
    static fields. A client program is a sequence of calls: a constructor call
    or one of the account operations on an account picked by its position.
    The lemmas here follow every such sequence from the program's start and
    show what holds in all the states it passes through: ids are handed out
    0, 1, 2, ... in creation order, no account is ever garnished, the count of
    garnished accounts stays 0, and no account's peak ever decreases. */
module Reachable {
  import opened Base
  import opened Rules

  datatype World = World(accounts: seq<AccountState>, globals: Globals)

  /** One call of a client program. All four constructors are instances of
      Nueva (see CreacionConFecha, CreacionConSaldo, CreacionPorDefecto). A
      destination is the position of an account, or None for null. */
  datatype Call =
    | Nueva(saldoInicial: real, fechaCreacion: Option<Date>, limiteDescubierto: real, today: Date)
    | Ingresar(who: nat, cantidad: real, today: Date)
    | Extraer(who: nat, cantidad: real)
    | Transferir(who: nat, cantidad: real, to: Option<nat>)
    | TransferirTodo(who: nat, to: Option<nat>)
    | Embargar(who: nat, porcentaje: real)
    | Desembargar(who: nat)

  const Start: World := World([], InitialGlobals)

  /** The account positions a call names all exist. */
  predicate Names(w: World, c: Call)
  {
    match c
    case Nueva(_, _, _, _) => true
    case Transferir(i, _, to) => i < |w.accounts| && (to.Some? ==> to.value < |w.accounts|)
    case TransferirTodo(i, to) => i < |w.accounts| && (to.Some? ==> to.value < |w.accounts|)
    case _ => c.who < |w.accounts|
  }

  function DestinationAt(w: World, i: nat, to: Option<nat>): Destination
    requires i < |w.accounts| && (to.Some? ==> to.value < |w.accounts|)
  {
    if to.None? then Null
    else if to.value == i then Same
    else Other(w.accounts[to.value])
  }

  /** Writes the two accounts of a transfer back into the world. */
  function AfterTransfer(w: World, i: nat, to: Option<nat>, r: Transfer): World
    requires i < |w.accounts| && (to.Some? ==> to.value < |w.accounts|)
  {
    var accounts := w.accounts[i := r.source];
    if r.dest.Other? && to.Some? then w.(accounts := accounts[to.value := r.dest.account])
    else w.(accounts := accounts)
  }

  /** The effect of one call. A call naming an account that does not exist
      has no Java counterpart and leaves the world as it is. */
  function Apply(w: World, c: Call): World
  {
    if !Names(w, c) then w
    else match c
      case Nueva(s, f, l, today) =>
        var r := Creacion(w.globals, s, f, l, today);
        if r.account.Some? then World(w.accounts + [r.account.value], r.globals)
        else World(w.accounts, r.globals)
      case Ingresar(i, cantidad, today) =>
        var r := Ingreso(w.accounts[i], w.globals, cantidad, today);
        World(w.accounts[i := r.account], r.globals)
      case Extraer(i, cantidad) =>
        w.(accounts := w.accounts[i := Extraccion(w.accounts[i], cantidad).account])
      case Transferir(i, cantidad, to) =>
        AfterTransfer(w, i, to, Transferencia(w.accounts[i], cantidad, DestinationAt(w, i, to)))
      case TransferirTodo(i, to) =>
        AfterTransfer(w, i, to, TransferenciaTotal(w.accounts[i], DestinationAt(w, i, to)))
      case Embargar(i, p) =>
        w.(accounts := w.accounts[i := Embargo(w.accounts[i], p).account])
      case Desembargar(i) =>
        w.(accounts := w.accounts[i := Desembargo(w.accounts[i]).account])
  }

  /** The world after a whole client program. */
  function Run(w: World, calls: seq<Call>): World
    decreases |calls|
  {
    if calls == [] then w else Run(Apply(w, calls[0]), calls[1..])
  }

  /** What holds in every reachable world: the counter equals the number of
      accounts created, the account created k-th has id k, and every account
      and the statics satisfy their invariants. */
  predicate WorldInv(w: World)
  {
    && GlobalsInv(w.globals)
    && w.globals.identificador == |w.accounts|
    && forall k :: 0 <= k < |w.accounts| ==> w.accounts[k].id == k && AccountInv(w.accounts[k])
  }

  /** One call keeps the invariant. */
  lemma ApplyKeepsInv(w: World, c: Call)
    requires WorldInv(w)
    ensures WorldInv(Apply(w, c))
  {
    if Names(w, c) {
      match c
      case Transferir(i, cantidad, to) =>
        TransferKeepsInv(w, i, to, Transferencia(w.accounts[i], cantidad, DestinationAt(w, i, to)));
      case TransferirTodo(i, to) =>
        TransferKeepsInv(w, i, to, TransferenciaTotal(w.accounts[i], DestinationAt(w, i, to)));
      case _ =>
    }
  }

  lemma TransferKeepsInv(w: World, i: nat, to: Option<nat>, r: Transfer)
    requires WorldInv(w)
    requires i < |w.accounts| && (to.Some? ==> to.value < |w.accounts|)
    requires r.source.id == w.accounts[i].id && AccountInv(r.source)
    requires r.dest.Other? ==> to.Some? && to.value != i
                               && r.dest.account.id == w.accounts[to.value].id
                               && AccountInv(r.dest.account)
    ensures WorldInv(AfterTransfer(w, i, to, r))
  {
  }

  /** Every program keeps the invariant, whatever world it starts from. */
  lemma {:induction false} RunKeepsInv(w: World, calls: seq<Call>)
    requires WorldInv(w)
    ensures WorldInv(Run(w, calls))
    decreases |calls|
  {
    if calls != [] {
      ApplyKeepsInv(w, calls[0]);
      RunKeepsInv(Apply(w, calls[0]), calls[1..]);
    }
  }

  /** In every reachable state no account has a garnishment percentage other
      than 0, and no call to embargar on any of them can succeed. */
  lemma NeverGarnished(calls: seq<Call>)
    ensures var w := Run(Start, calls);
      && (forall k :: 0 <= k < |w.accounts| ==> w.accounts[k].porcentajeEmbargo == 0.0)
      && (forall k, p :: 0 <= k < |w.accounts| ==> Embargo(w.accounts[k], p).outcome != Ok)
  {
    RunKeepsInv(Start, calls);
  }

  /** The static count of garnished accounts is 0 in every reachable state. */
  lemma GarnishedCountStaysZero(calls: seq<Call>)
    ensures Run(Start, calls).globals.numeroCuentasEmbargadas == 0
  {
    RunKeepsInv(Start, calls);
  }

  /** In every reachable state the ids are 0, 1, 2, ... in creation order (so
      strictly increasing and never reused), and the counter holds the next one.
      The counter is an unbounded integer here; Java's int counter wraps after
      2^31 constructions. */
  lemma IdsInCreationOrder(calls: seq<Call>)
    ensures var w := Run(Start, calls);
      && w.globals.identificador == |w.accounts|
      && (forall k :: 0 <= k < |w.accounts| ==> w.accounts[k].id == k)
      && (forall j, k :: 0 <= j < k < |w.accounts| ==> w.accounts[j].id < w.accounts[k].id)
  {
    RunKeepsInv(Start, calls);
  }

  /** One call only adds accounts at the end, never changes an existing
      account's id, and never lowers an existing account's peak. */
  lemma ApplyAppendsAndKeepsPeaks(w: World, c: Call)
    ensures |Apply(w, c).accounts| >= |w.accounts|
    ensures forall k :: 0 <= k < |w.accounts| ==>
      && Apply(w, c).accounts[k].id == w.accounts[k].id
      && Apply(w, c).accounts[k].saldoMaximo >= w.accounts[k].saldoMaximo
  {
  }

  /** The peak balance of an account never decreases over a whole program,
      and its id never changes. */
  lemma {:induction false} PeakMonotone(w: World, calls: seq<Call>, k: nat)
    requires k < |w.accounts|
    ensures |Run(w, calls).accounts| >= |w.accounts|
    ensures Run(w, calls).accounts[k].id == w.accounts[k].id
    ensures Run(w, calls).accounts[k].saldoMaximo >= w.accounts[k].saldoMaximo
    decreases |calls|
  {
    if calls != [] {
      ApplyAppendsAndKeepsPeaks(w, calls[0]);
      PeakMonotone(Apply(w, calls[0]), calls[1..], k);
    }
  }

  /** The id counter never decreases over a whole program. */
  lemma {:induction false} CounterMonotone(w: World, calls: seq<Call>)
    requires WorldInv(w)
    ensures Run(w, calls).globals.identificador >= w.globals.identificador
    decreases |calls|
  {
    if calls != [] {
      ApplyKeepsInv(w, calls[0]);
      ApplyAppendsAndKeepsPeaks(w, calls[0]);
      CounterMonotone(Apply(w, calls[0]), calls[1..]);
    }
  }
}
