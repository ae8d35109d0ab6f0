/** Sales, write-offs, goods entries and registrations running concurrently. Each takes its row
    locks one at a time in ascending id order (SELECT ... ORDER BY "Id" ASC FOR UPDATE), reads
    each row as it locks it, computes on what it read, and commits or rolls back, releasing all.

    Assumed of PostgreSQL: a row lock is held to the end of its transaction, FOR UPDATE returns
    the latest committed row, locks are taken in ORDER BY order, and a commit is atomic. */
module StockProtocol {
  import opened Decimals
  import opened Identifiers
  import opened Inventory
  import Sequences

  datatype Request =
    | Baixa(needs: map<Id, real>)                 // sale or write-off, grouped by ingredient
    | Credito(id: Id, quantidade: real)           // goods entry
    | Cadastro(id: Id, saldoInicial: real)        // new ingredient

  datatype Status =
    | Pending
    | Running(next: nat, seen: map<Id, int>)      // `seen` are the locked rows, as read when locked
    | Committed
    | RolledBack

  datatype Tx = Tx(request: Request, status: Status)

  /** `log` is the history of committed requests, in commit order. */
  datatype State = State(tables: Tables, txs: seq<Tx>, log: seq<Request>)

  // ---------------------------------------------------------------- one request on its own

  ghost predicate Accepts(t: Tables, r: Request) {
    match r
    case Baixa(needs) => CanDebit(t.stock, needs)
    case Credito(id, q) => CanCredit(t.stock, id, q)
    case Cadastro(id, q) => CanRegister(t.stock, id, q)
  }

  /** A request executed alone: its effect when accepted, nothing otherwise. */
  ghost function Perform(t: Tables, r: Request): Tables {
    if !Accepts(t, r) then t
    else
      match r
      case Baixa(needs) => Debit(t, needs)
      case Credito(id, q) => Credit(t, id, q)
      case Cadastro(id, q) => Register(t, id, q)
  }

  ghost function Replay(t: Tables, log: seq<Request>): Tables {
    if log == [] then t else Perform(Replay(t, log[..|log| - 1]), log[|log| - 1])
  }

  lemma ReplayParts(t: Tables, log: seq<Request>, r: Request)
    ensures Replay(t, []) == t
    ensures Replay(t, log + [r]) == Perform(Replay(t, log), r)
  {
    assert (log + [r])[..|log|] == log;
  }

  // ---------------------------------------------------------------- steps

  ghost function LockList(r: Request): (ids: seq<Id>)
    ensures StrictlyAscending(ids)
  {
    match r
    case Baixa(needs) => Ascending(needs.Keys)
    case Credito(id, _) => [id]
    case Cadastro(_, _) => []
  }

  ghost predicate Finished(tx: Tx) {
    tx.status.Committed? || tx.status.RolledBack?
  }

  ghost predicate Holds(tx: Tx, id: Id) {
    tx.status.Running? && id in tx.status.seen
  }

  ghost predicate FreeFor(s: State, t: nat, id: Id) {
    forall u :: 0 <= u < |s.txs| && u != t ==> !Holds(s.txs[u], id)
  }

  ghost predicate WantsLock(tx: Tx) {
    tx.status.Running? && tx.status.next < |LockList(tx.request)|
  }

  ghost function Wanted(tx: Tx): Id
    requires WantsLock(tx)
  {
    LockList(tx.request)[tx.status.next]
  }

  /** A transaction can move unless the row it wants exists and another transaction holds it. */
  ghost predicate Enabled(s: State, t: nat) {
    && t < |s.txs|
    && !Finished(s.txs[t])
    && (WantsLock(s.txs[t]) && Wanted(s.txs[t]) in s.tables.stock ==> FreeFor(s, t, Wanted(s.txs[t])))
  }

  /** What the transaction computes from the rows it read. */
  ghost function Local(seen: map<Id, int>, r: Request): Tables {
    Perform(Tables(seen, []), r)
  }

  ghost predicate CommitsFrom(stock: map<Id, int>, seen: map<Id, int>, r: Request) {
    Accepts(Tables(seen, []), r) && (r.Cadastro? ==> r.id !in stock)
  }

  /** The next row, if there is one, is locked and read; a missing one is skipped. */
  ghost function Locked(stock: map<Id, int>, tx: Tx): Tx
    requires WantsLock(tx)
  {
    var id := Wanted(tx);
    var seen := tx.status.seen;
    tx.(status := Running(tx.status.next + 1, if id in stock then seen[id := stock[id]] else seen))
  }

  ghost function Advance(s: State, t: nat): State
    requires Enabled(s, t)
  {
    var tx := s.txs[t];
    if tx.status.Pending? then
      s.(txs := s.txs[t := tx.(status := Running(0, map[]))])
    else if WantsLock(tx) then
      s.(txs := s.txs[t := Locked(s.tables.stock, tx)])
    else if CommitsFrom(s.tables.stock, tx.status.seen, tx.request) then
      var local := Local(tx.status.seen, tx.request);
      State(Tables(s.tables.stock + local.stock, s.tables.ledger + local.ledger),
            s.txs[t := tx.(status := Committed)], s.log + [tx.request])
    else
      s.(txs := s.txs[t := tx.(status := RolledBack)])
  }

  /** An exception or a lost connection rolls a transaction back at any point. */
  ghost function Abort(s: State, t: nat): State
    requires t < |s.txs|
  {
    s.(txs := s.txs[t := s.txs[t].(status := RolledBack)])
  }

  ghost predicate NextBy(s: State, s': State, t: nat) {
    || (Enabled(s, t) && s' == Advance(s, t))
    || (t < |s.txs| && !Finished(s.txs[t]) && s' == Abort(s, t))
  }

  ghost predicate Next(s: State, s': State) {
    exists t: nat :: NextBy(s, s', t)
  }

  ghost predicate Init(s: State) {
    && (forall t :: 0 <= t < |s.txs| ==> s.txs[t].status.Pending?)
    && s.log == []
    && Conserved(s.tables)
  }

  ghost predicate StepAt(run: seq<State>, i: nat)
    requires 0 < i < |run|
  {
    Next(run[i - 1], run[i])
  }

  ghost predicate Steps(run: seq<State>) {
    run != [] && forall i :: 0 < i < |run| ==> StepAt(run, i)
  }

  ghost predicate IsRun(run: seq<State>) {
    Steps(run) && Init(run[0])
  }

  // ---------------------------------------------------------------- the invariant

  /** A running transaction holds rows of the prefix it already walked, and what it read is still true. */
  ghost predicate TxInv(stock: map<Id, int>, tx: Tx) {
    tx.status.Running? ==>
      && tx.status.next <= |LockList(tx.request)|
      && (forall id :: id in tx.status.seen ==>
            id in LockList(tx.request)[..tx.status.next] && id in stock && stock[id] == tx.status.seen[id])
  }

  ghost predicate Exclusive(txs: seq<Tx>) {
    forall t, u, id :: 0 <= t < u < |txs| && Holds(txs[t], id) ==> !Holds(txs[u], id)
  }

  ghost predicate Inv(s: State) {
    && (forall t :: 0 <= t < |s.txs| ==> TxInv(s.tables.stock, s.txs[t]))
    && Exclusive(s.txs)
  }

  ghost predicate ReadsAre(stock: map<Id, int>, seen: map<Id, int>) {
    forall id :: id in seen ==> id in stock && stock[id] == seen[id]
  }

  lemma CoveredLocally(stock: map<Id, int>, seen: map<Id, int>, needs: map<Id, real>)
    requires ReadsAre(stock, seen) && forall id :: id in needs ==> id in seen
    ensures CanDebit(seen, needs) <==> CanDebit(stock, needs)
  {
    if CanDebit(stock, needs) {
      forall id | id in needs ensures Covers(seen[id], needs[id]) {
        assert Covers(stock[id], needs[id]);
      }
    }
    if CanDebit(seen, needs) {
      forall id | id in needs ensures Covers(stock[id], needs[id]) {
        assert Covers(seen[id], needs[id]);
      }
    }
  }

  lemma DebitedLocally(stock: map<Id, int>, seen: map<Id, int>, needs: map<Id, real>)
    requires ReadsAre(stock, seen) && forall id :: id in seen <==> id in needs
    ensures DebitedStock(stock, needs) == stock + DebitedStock(seen, needs)
  {
    var m, n := DebitedStock(stock, needs), stock + DebitedStock(seen, needs);
    forall id | id in m ensures id in n && m[id] == n[id] {
      assert m[id] == AfterDebit(stock[id], needs, id);
    }
  }

  lemma LocalDebitIsGlobal(t: Tables, seen: map<Id, int>, needs: map<Id, real>)
    requires ReadsAre(t.stock, seen) && forall id :: id in seen <==> id in needs
    ensures Debit(t, needs) == Tables(t.stock + Debit(Tables(seen, []), needs).stock,
                                      t.ledger + Debit(Tables(seen, []), needs).ledger)
  {
    DebitedLocally(t.stock, seen, needs);
    Sequences.EmptyFirst(ExitRows(Ascending(needs.Keys), needs));
  }

  /** Computing on exactly read rows is computing on the tables. */
  lemma LocalIsGlobal(t: Tables, seen: map<Id, int>, r: Request)
    requires ReadsAre(t.stock, seen)
    requires CommitsFrom(t.stock, seen, r)
    requires forall id :: id in seen ==> id in LockList(r)
    ensures Accepts(t, r)
    ensures Perform(t, r) == Tables(t.stock + Local(seen, r).stock, t.ledger + Local(seen, r).ledger)
  {
    match r
    case Baixa(needs) =>
      assert forall id :: id in seen <==> id in needs;
      CoveredLocally(t.stock, seen, needs);
      LocalDebitIsGlobal(t, seen, needs);
    case Credito(id, q) =>
      LocalCreditIsGlobal(t, seen, id, q);
    case Cadastro(id, q) =>
      assert t.stock + Register(Tables(seen, []), id, q).stock == Register(t, id, q).stock;
  }

  lemma LocalCreditIsGlobal(t: Tables, seen: map<Id, int>, id: Id, q: real)
    requires ReadsAre(t.stock, seen) && id in seen && forall x :: x in seen ==> x == id
    ensures Credit(t, id, q) == Tables(t.stock + Credit(Tables(seen, []), id, q).stock,
                                       t.ledger + Credit(Tables(seen, []), id, q).ledger)
  {
    assert t.stock + Credit(Tables(seen, []), id, q).stock == Credit(t, id, q).stock;
  }

  /** A request changes only rows on its lock list, and keeps every row there is. */
  lemma PerformTouches(t: Tables, r: Request, id: Id)
    requires id in t.stock
    ensures id in Perform(t, r).stock
    ensures id !in LockList(r) ==> Perform(t, r).stock[id] == t.stock[id]
  {
  }

  /** A commit has the effect of its request executed alone on the tables it meets, having
      locked every row it changes. */
  lemma CommitIsSerial(s: State, t: nat)
    requires Inv(s) && Enabled(s, t)
    requires Advance(s, t).txs[t].status.Committed?
    ensures Accepts(s.tables, s.txs[t].request)
    ensures Advance(s, t).tables == Perform(s.tables, s.txs[t].request)
    ensures forall id :: id in LockList(s.txs[t].request) ==> Holds(s.txs[t], id)
    ensures Advance(s, t).log == s.log + [s.txs[t].request]
  {
    var tx := s.txs[t];
    assert TxInv(s.tables.stock, tx);
    assert LockList(tx.request)[..tx.status.next] == LockList(tx.request);
    LocalIsGlobal(s.tables, tx.status.seen, tx.request);
  }

  /** A transaction that found every row it asked for rolls back only when, executed alone at
      that moment, it would have been refused as well. */
  lemma RollbackIsDeserved(s: State, t: nat)
    requires Inv(s) && Enabled(s, t) && s.txs[t].status.Running?
    requires Advance(s, t).txs[t].status.RolledBack?
    requires forall id :: id in LockList(s.txs[t].request) ==> Holds(s.txs[t], id)
    ensures !Accepts(s.tables, s.txs[t].request)
    ensures Advance(s, t).tables == s.tables
  {
    var tx := s.txs[t];
    assert TxInv(s.tables.stock, tx);
    match tx.request
    case Baixa(needs) =>
      forall id | id in needs ensures id in tx.status.seen {
        assert id in LockList(tx.request);
      }
      CoveredLocally(s.tables.stock, tx.status.seen, needs);
    case Credito(id, q) =>
      assert id in LockList(tx.request);
    case Cadastro(id, q) =>
      assert LockList(tx.request)[..tx.status.next] == [];
  }

  /** A committed goods entry raises the balance of its ingredient by the amount, and no other. */
  lemma CommittedCredit(s: State, t: nat, id: Id, q: real)
    requires Inv(s) && Enabled(s, t)
    requires s.txs[t].request == Credito(id, q) && Advance(s, t).txs[t].status.Committed?
    ensures id in s.tables.stock && RoundAway(q) > 0
    ensures Advance(s, t).tables.stock == s.tables.stock[id := RoundAway(s.tables.stock[id] as real + q)]
    ensures s.tables.stock[id] >= 0 ==>
              Advance(s, t).tables.stock == s.tables.stock[id := s.tables.stock[id] + RoundAway(q)]
    ensures Advance(s, t).tables.ledger == s.tables.ledger + [Movimentacao(id, Entrada, q)]
  {
    CommitIsSerial(s, t);
    CreditIs(s.tables, id, q);
  }

  /** A committed sale or write-off lowers each needed balance, leaves the others, and adds its exits. */
  lemma CommittedDebit(s: State, t: nat, needs: map<Id, real>)
    requires Inv(s) && Enabled(s, t)
    requires s.txs[t].request == Baixa(needs) && Advance(s, t).txs[t].status.Committed?
    ensures CanDebit(s.tables.stock, needs)
    ensures Debited(s.tables, Advance(s, t).tables, needs)
  {
    CommitIsSerial(s, t);
    DebitIs(s.tables, needs);
  }

  /** A committed registration adds its ingredient, empty or with its initial load and one row. */
  lemma CommittedRegister(s: State, t: nat, id: Id, q: real)
    requires Inv(s) && Enabled(s, t)
    requires s.txs[t].request == Cadastro(id, q) && Advance(s, t).txs[t].status.Committed?
    ensures id !in s.tables.stock
    ensures Advance(s, t).tables.stock == s.tables.stock[id := if q > 0.0 then RoundAway(q) else 0]
    ensures Advance(s, t).tables.ledger
            == s.tables.ledger + if q > 0.0 then [Movimentacao(id, Entrada, q)] else []
  {
    CommitIsSerial(s, t);
    RegisterIs(s.tables, id, q);
  }

  /** A transaction that wants a row which exists takes it, reading its balance. */
  lemma LockTakes(s: State, t: nat)
    requires Enabled(s, t) && WantsLock(s.txs[t])
    ensures var id, tx, tx' := Wanted(s.txs[t]), s.txs[t], Advance(s, t).txs[t];
            && tx'.status.Running? && tx'.status.next == tx.status.next + 1 && tx'.request == tx.request
            && (Holds(tx', id) <==> id in s.tables.stock || Holds(tx, id))
            && (id in s.tables.stock ==> tx'.status.seen[id] == s.tables.stock[id])
            && Advance(s, t).tables == s.tables && Advance(s, t).log == s.log
  {
  }

  /** One step changes only the transaction that took it. */
  lemma OthersStay(s: State, s': State, t: nat, u: nat)
    requires NextBy(s, s', t) && u < |s.txs| && u != t
    ensures |s'.txs| == |s.txs| && s'.txs[u] == s.txs[u]
  {
  }

  /** The row a transaction gains was free. */
  lemma GainsFreeRows(s: State, s': State, t: nat, id: Id)
    requires NextBy(s, s', t) && Holds(s'.txs[t], id) && !Holds(s.txs[t], id)
    ensures FreeFor(s, t, id)
  {
  }

  lemma StepKeepsExclusive(s: State, s': State, t: nat)
    requires Inv(s) && NextBy(s, s', t)
    ensures Exclusive(s'.txs)
  {
    forall a, b, id | 0 <= a < b < |s'.txs| && Holds(s'.txs[a], id) && Holds(s'.txs[b], id) ensures false {
      if a == t {
        OthersStay(s, s', t, b);
        if !Holds(s.txs[t], id) {
          GainsFreeRows(s, s', t, id);
        }
      } else {
        OthersStay(s, s', t, a);
        if b == t && !Holds(s.txs[t], id) {
          GainsFreeRows(s, s', t, id);
        } else if b != t {
          OthersStay(s, s', t, b);
        }
      }
    }
  }

  lemma OwnReadsStayTrue(s: State, t: nat)
    requires Inv(s) && Enabled(s, t)
    ensures TxInv(Advance(s, t).tables.stock, Advance(s, t).txs[t])
  {
    assert TxInv(s.tables.stock, s.txs[t]);
    if WantsLock(s.txs[t]) {
      ReadNext(s.tables.stock, s.txs[t]);
    }
  }

  lemma ReadNext(stock: map<Id, int>, tx: Tx)
    requires WantsLock(tx) && TxInv(stock, tx)
    ensures TxInv(stock, Locked(stock, tx))
  {
    var ids, k := LockList(tx.request), tx.status.next;
    assert ids[..k + 1] == ids[..k] + [ids[k]];
  }

  lemma OthersReadsStayTrue(s: State, s': State, t: nat, u: nat)
    requires Inv(s) && NextBy(s, s', t) && u < |s.txs| && u != t
    ensures TxInv(s'.tables.stock, s.txs[u])
  {
    assert TxInv(s.tables.stock, s.txs[u]);
    if s'.tables != s.tables && s.txs[u].status.Running? {
      CommitIsSerial(s, t);
      forall id | id in s.txs[u].status.seen
        ensures id in s'.tables.stock && s'.tables.stock[id] == s.tables.stock[id]
      {
        assert Holds(s.txs[u], id);
        assert !Holds(s.txs[t], id);
        PerformTouches(s.tables, s.txs[t].request, id);
      }
    }
  }

  lemma StepKeepsInv(s: State, s': State, t: nat)
    requires Inv(s) && NextBy(s, s', t)
    ensures Inv(s')
  {
    forall u | 0 <= u < |s'.txs| ensures TxInv(s'.tables.stock, s'.txs[u]) {
      if u != t {
        OthersStay(s, s', t, u);
        OthersReadsStayTrue(s, s', t, u);
      } else if Enabled(s, t) && s' == Advance(s, t) {
        OwnReadsStayTrue(s, t);
      }
    }
    StepKeepsExclusive(s, s', t);
  }

  lemma PerformConserves(t: Tables, r: Request)
    requires Conserved(t)
    ensures Conserved(Perform(t, r))
  {
    if Accepts(t, r) {
      match r
      case Baixa(needs) => DebitConserves(t, needs);
      case Credito(id, q) => CreditConserves(t, id, q);
      case Cadastro(id, q) => RegisterConserves(t, id, q);
    }
  }

  /** Rows are only ever added at the end of the ledger, and ingredients only ever added. */
  ghost predicate GrewTo(t: Tables, t': Tables) {
    t.ledger <= t'.ledger && t.stock.Keys <= t'.stock.Keys
  }

  lemma PerformGrows(t: Tables, r: Request)
    ensures GrewTo(t, Perform(t, r))
  {
  }

  lemma GrowthChains(a: Tables, b: Tables, c: Tables)
    requires GrewTo(a, b) && GrewTo(b, c)
    ensures GrewTo(a, c)
  {
  }

  /** Each step either leaves the tables alone or performs one acceptable request on them. */
  lemma StepPerforms(s: State, s': State, t: nat)
    requires Inv(s) && NextBy(s, s', t)
    ensures t < |s.txs|
    ensures (s'.tables == s.tables && s'.log == s.log)
         || (Accepts(s.tables, s.txs[t].request)
             && s'.tables == Perform(s.tables, s.txs[t].request)
             && s'.log == s.log + [s.txs[t].request])
  {
    if Enabled(s, t) && s' == Advance(s, t) && s'.txs[t].status.Committed? {
      CommitIsSerial(s, t);
    }
  }

  lemma StepConserves(s: State, s': State, t: nat)
    requires Inv(s) && NextBy(s, s', t) && Conserved(s.tables)
    ensures Conserved(s'.tables)
  {
    StepPerforms(s, s', t);
    PerformConserves(s.tables, s.txs[t].request);
  }

  lemma NextKeepsInv(s: State, s': State)
    requires Inv(s) && Next(s, s')
    ensures Inv(s')
  {
    var t: nat :| NextBy(s, s', t);
    StepKeepsInv(s, s', t);
  }

  lemma NextConserves(s: State, s': State)
    requires Inv(s) && Next(s, s') && Conserved(s.tables)
    ensures Conserved(s'.tables)
  {
    var t: nat :| NextBy(s, s', t);
    StepConserves(s, s', t);
  }

  lemma NextGrows(s: State, s': State)
    requires Inv(s) && Next(s, s')
    ensures GrewTo(s.tables, s'.tables)
  {
    var t: nat :| NextBy(s, s', t);
    StepPerforms(s, s', t);
    PerformGrows(s.tables, s.txs[t].request);
  }

  /** Steps from any state that satisfies the invariant. */
  ghost predicate Started(run: seq<State>) {
    Steps(run) && Inv(run[0])
  }

  lemma RunStarts(run: seq<State>)
    requires IsRun(run)
    ensures Started(run) && Conserved(run[0].tables)
  {
  }

  lemma {:induction false} RunKeepsInv(run: seq<State>, i: nat)
    requires Started(run) && i < |run|
    ensures Inv(run[i])
  {
    if i > 0 {
      RunKeepsInv(run, i - 1);
      assert StepAt(run, i);
      NextKeepsInv(run[i - 1], run[i]);
    }
  }

  // ---------------------------------------------------------------- serializability and conservation

  ghost predicate AcceptedAt(t: Tables, log: seq<Request>, k: nat)
    requires k < |log|
  {
    Accepts(Replay(t, log[..k]), log[k])
  }

  /** The tables are those of the logged requests executed one after another from t, and each was
      acceptable when its turn came. */
  ghost predicate Serial(t: Tables, tables: Tables, log: seq<Request>) {
    && tables == Replay(t, log)
    && forall k :: 0 <= k < |log| ==> AcceptedAt(t, log, k)
  }

  lemma LogExtends(t: Tables, tables: Tables, log: seq<Request>, r: Request)
    requires Serial(t, tables, log) && Accepts(tables, r)
    ensures Serial(t, Perform(tables, r), log + [r])
  {
    assert (log + [r])[..|log|] == log;
    forall k | 0 <= k < |log + [r]| ensures AcceptedAt(t, log + [r], k) {
      assert (log + [r])[..k] == log[..k];
      assert k < |log| ==> AcceptedAt(t, log, k);
    }
  }

  lemma NextKeepsSerial(t: Tables, s: State, s': State)
    requires Inv(s) && Next(s, s') && Serial(t, s.tables, s.log)
    ensures Serial(t, s'.tables, s'.log)
  {
    var u: nat :| NextBy(s, s', u);
    StepPerforms(s, s', u);
    if s'.log != s.log {
      LogExtends(t, s.tables, s.log, s.txs[u].request);
    }
  }

  lemma {:induction false} SerialFrom(run: seq<State>, i: nat)
    requires Started(run) && i < |run| && run[0].log == []
    ensures Serial(run[0].tables, run[i].tables, run[i].log)
  {
    if i > 0 {
      SerialFrom(run, i - 1);
      RunKeepsInv(run, i - 1);
      assert StepAt(run, i);
      NextKeepsSerial(run[0].tables, run[i - 1], run[i]);
    }
  }

  /** In every run the tables are those of the committed requests executed one after another, in
      commit order, and each of them was acceptable when its turn came. */
  lemma Serializable(run: seq<State>, i: nat)
    requires IsRun(run) && i < |run|
    ensures Serial(run[0].tables, run[i].tables, run[i].log)
  {
    RunStarts(run);
    SerialFrom(run, i);
  }

  lemma {:induction false} ConservedFrom(run: seq<State>, i: nat)
    requires Started(run) && i < |run| && Conserved(run[0].tables)
    ensures Conserved(run[i].tables)
  {
    if i > 0 {
      ConservedFrom(run, i - 1);
      ConservedNext(run, i);
    }
  }

  lemma ConservedNext(run: seq<State>, i: nat)
    requires Started(run) && 0 < i < |run| && Conserved(run[i - 1].tables)
    ensures Conserved(run[i].tables)
  {
    RunKeepsInv(run, i - 1);
    assert StepAt(run, i);
    NextConserves(run[i - 1], run[i]);
  }

  /** Every committed state of every interleaving balances against its ledger: the balance fits its
      column and exceeds the ledger's by one unit of the fourth decimal per tied exit. */
  lemma EveryStateConserved(run: seq<State>, i: nat)
    requires IsRun(run) && i < |run|
    ensures Conserved(run[i].tables)
  {
    RunStarts(run);
    ConservedFrom(run, i);
  }

  /** The balance of an ingredient never falls below its ledger, exceeds it by at most one unit
      of the fourth decimal per exit, and equals it exactly when no exit of it tied. */
  lemma EveryBalanceMatchesLedger(run: seq<State>, i: nat, id: Id)
    requires IsRun(run) && i < |run| && id in run[i].tables.stock
    ensures run[i].tables.stock[id] >= 0
    ensures 0 <= run[i].tables.stock[id] - LedgerBalance(run[i].tables.ledger, id) <= Exits(run[i].tables.ledger, id)
    ensures run[i].tables.stock[id] == LedgerBalance(run[i].tables.ledger, id) <==>
            forall m :: m in run[i].tables.ledger && m.insumo == id && m.tipo.Saida? ==> !Tied(m.pedida)
  {
    EveryStateConserved(run, i);
    assert BalancedAt(run[i].tables.stock[id], run[i].tables.ledger, id);
    ConservedDrift(run[i].tables, id);
  }

  lemma {:induction false} GrewFrom(run: seq<State>, i: nat, j: nat)
    requires Started(run) && i <= j < |run|
    ensures GrewTo(run[i].tables, run[j].tables)
  {
    if i < j {
      GrewFrom(run, i, j - 1);
      RunKeepsInv(run, j - 1);
      assert StepAt(run, j);
      NextGrows(run[j - 1], run[j]);
      GrowthChains(run[i].tables, run[j - 1].tables, run[j].tables);
    }
  }

  /** Ledger rows are never changed, removed or reordered once committed, and no ingredient vanishes. */
  lemma LedgerOnlyGrows(run: seq<State>, i: nat, j: nat)
    requires IsRun(run) && i <= j < |run|
    ensures GrewTo(run[i].tables, run[j].tables)
  {
    RunStarts(run);
    GrewFrom(run, i, j);
  }

  // ---------------------------------------------------------------- every commit counts once

  ghost predicate WalkedHeld(known: set<Id>, tx: Tx) {
    tx.status.Running? ==>
      && tx.status.next <= |LockList(tx.request)|
      && forall id :: id in LockList(tx.request)[..tx.status.next] && id in known ==> id in tx.status.seen
  }

  ghost predicate AllWalkedHeld(known: set<Id>, txs: seq<Tx>) {
    forall t :: 0 <= t < |txs| ==> WalkedHeld(known, txs[t])
  }

  lemma WalkHolds(known: set<Id>, stock: map<Id, int>, tx: Tx)
    requires WantsLock(tx) && WalkedHeld(known, tx) && known <= stock.Keys
    ensures WalkedHeld(known, Locked(stock, tx))
  {
    var ids, k := LockList(tx.request), tx.status.next;
    assert ids[..k + 1] == ids[..k] + [ids[k]];
  }

  lemma NextKeepsWalkedHeld(known: set<Id>, s: State, s': State)
    requires Next(s, s') && known <= s.tables.stock.Keys && AllWalkedHeld(known, s.txs)
    ensures AllWalkedHeld(known, s'.txs)
  {
    var t: nat :| NextBy(s, s', t);
    forall u | 0 <= u < |s'.txs| ensures WalkedHeld(known, s'.txs[u]) {
      assert WalkedHeld(known, s.txs[u]);
      if u != t {
        OthersStay(s, s', t, u);
      } else if WantsLock(s.txs[t]) {
        WalkHolds(known, s.tables.stock, s.txs[t]);
      }
    }
  }

  lemma {:induction false} WalkedHeldFrom(run: seq<State>, i: nat)
    requires Started(run) && i < |run| && AllWalkedHeld(run[0].tables.stock.Keys, run[0].txs)
    ensures AllWalkedHeld(run[0].tables.stock.Keys, run[i].txs)
  {
    if i > 0 {
      WalkedHeldFrom(run, i - 1);
      GrewFrom(run, 0, i - 1);
      WalkedHeldNext(run, i, run[0].tables.stock.Keys);
    }
  }

  lemma WalkedHeldNext(run: seq<State>, i: nat, known: set<Id>)
    requires Steps(run) && 0 < i < |run|
    requires known <= run[i - 1].tables.stock.Keys && AllWalkedHeld(known, run[i - 1].txs)
    ensures AllWalkedHeld(known, run[i].txs)
  {
    assert StepAt(run, i);
    NextKeepsWalkedHeld(known, run[i - 1], run[i]);
  }

  /** The rows of a transaction were all there from the start. */
  ghost predicate RowsKnown(run: seq<State>, r: Request)
    requires run != []
  {
    forall id :: id in LockList(r) ==> id in run[0].tables.stock
  }

  /** Having walked its list of rows known from the start, a transaction holds them all, and its next
      step commits exactly when its request, executed alone at that moment, would be accepted. */
  lemma CommitsIff(run: seq<State>, i: nat, t: nat)
    requires IsRun(run) && i < |run| && t < |run[i].txs|
    requires run[i].txs[t].status.Running? && !WantsLock(run[i].txs[t]) && RowsKnown(run, run[i].txs[t].request)
    ensures forall id :: id in LockList(run[i].txs[t].request) ==> Holds(run[i].txs[t], id)
    ensures Enabled(run[i], t)
    ensures Advance(run[i], t).txs[t].status.Committed? <==> Accepts(run[i].tables, run[i].txs[t].request)
  {
    RunStarts(run);
    RunKeepsInv(run, i);
    assert AllWalkedHeld(run[0].tables.stock.Keys, run[0].txs);
    WalkedHeldFrom(run, i);
    WalkedAllHeld(run[0].tables.stock.Keys, run[i].txs[t]);
    ReadyDecides(run[i], t);
  }

  lemma WalkedAllHeld(known: set<Id>, tx: Tx)
    requires WalkedHeld(known, tx) && tx.status.Running? && !WantsLock(tx)
    requires forall id :: id in LockList(tx.request) ==> id in known
    ensures forall id :: id in LockList(tx.request) ==> Holds(tx, id)
  {
    assert LockList(tx.request)[..tx.status.next] == LockList(tx.request);
  }

  lemma ReadyDecides(s: State, t: nat)
    requires Inv(s) && Enabled(s, t) && s.txs[t].status.Running? && !WantsLock(s.txs[t])
    requires forall id :: id in LockList(s.txs[t].request) ==> Holds(s.txs[t], id)
    ensures Advance(s, t).txs[t].status.Committed? <==> Accepts(s.tables, s.txs[t].request)
  {
    if Advance(s, t).txs[t].status.Committed? {
      CommitIsSerial(s, t);
    } else {
      RollbackIsDeserved(s, t);
    }
  }

  ghost function Done(tx: Tx): multiset<Request> {
    if tx.status.Committed? then multiset{tx.request} else multiset{}
  }

  /** The requests of the committed transactions. */
  ghost function AllDone(txs: seq<Tx>): multiset<Request> {
    if txs == [] then multiset{} else AllDone(txs[..|txs| - 1]) + Done(txs[|txs| - 1])
  }

  lemma {:induction false} DoneChanges(txs: seq<Tx>, t: nat, tx: Tx)
    requires t < |txs| && Done(txs[t]) == multiset{}
    ensures AllDone(txs[t := tx]) == AllDone(txs) + Done(tx)
  {
    var n := |txs| - 1;
    if t < n {
      assert txs[t := tx][..n] == txs[..n][t := tx];
      DoneChanges(txs[..n], t, tx);
    } else {
      assert txs[t := tx][..n] == txs[..n];
    }
  }

  lemma StepLogs(s: State, s': State, t: nat)
    requires Inv(s) && NextBy(s, s', t)
    ensures t < |s.txs| && |s'.txs| == |s.txs| && s'.txs == s.txs[t := s'.txs[t]]
    ensures Done(s.txs[t]) == multiset{}
    ensures multiset(s'.log) == multiset(s.log) + Done(s'.txs[t])
  {
  }

  ghost predicate LogTrue(s: State) {
    multiset(s.log) == AllDone(s.txs)
  }

  lemma NextKeepsLog(s: State, s': State)
    requires Inv(s) && Next(s, s') && LogTrue(s)
    ensures LogTrue(s')
  {
    var t: nat :| NextBy(s, s', t);
    StepLogs(s, s', t);
    DoneChanges(s.txs, t, s'.txs[t]);
  }

  lemma {:induction false} NoneDone(txs: seq<Tx>)
    requires forall t :: 0 <= t < |txs| ==> txs[t].status.Pending?
    ensures AllDone(txs) == multiset{}
  {
    if txs != [] {
      NoneDone(txs[..|txs| - 1]);
    }
  }

  lemma LogNext(run: seq<State>, i: nat)
    requires Started(run) && 0 < i < |run| && LogTrue(run[i - 1])
    ensures LogTrue(run[i])
  {
    RunKeepsInv(run, i - 1);
    assert StepAt(run, i);
    NextKeepsLog(run[i - 1], run[i]);
  }

  lemma {:induction false} LogFrom(run: seq<State>, i: nat)
    requires Started(run) && i < |run| && LogTrue(run[0])
    ensures LogTrue(run[i])
  {
    if i > 0 {
      LogFrom(run, i - 1);
      LogNext(run, i);
    }
  }

  /** The log holds the request of every committed transaction, once for each, and no other. */
  lemma LogIsCommitted(run: seq<State>, i: nat)
    requires IsRun(run) && i < |run|
    ensures multiset(run[i].log) == AllDone(run[i].txs)
  {
    RunStarts(run);
    NoneDone(run[0].txs);
    LogFrom(run, i);
  }

  // ---------------------------------------------------------------- no deadlock

  ghost predicate IdsBelow(s: State, bound: nat) {
    forall t, id :: 0 <= t < |s.txs| && id in LockList(s.txs[t].request) ==> id < bound
  }

  lemma {:induction false} LockListBounded(ids: seq<Id>) returns (bound: nat)
    ensures forall id :: id in ids ==> id < bound
  {
    if ids == [] {
      bound := 0;
    } else {
      var n := |ids| - 1;
      var rest := LockListBounded(ids[..n]);
      bound := if ids[n] < rest then rest else ids[n] + 1;
      assert ids == ids[..n] + [ids[n]];
    }
  }

  lemma {:induction false} SomeBound(s: State, n: nat) returns (bound: nat)
    requires n <= |s.txs|
    ensures forall t, id :: 0 <= t < n && id in LockList(s.txs[t].request) ==> id < bound
  {
    if n == 0 {
      bound := 0;
    } else {
      var rest := SomeBound(s, n - 1);
      var own := LockListBounded(LockList(s.txs[n - 1].request));
      bound := if own < rest then rest else own;
    }
  }

  /** Following the holder of the wanted row climbs strictly in id, so the chain ends at a
      transaction that can move. */
  lemma {:induction false} ChainEnds(s: State, t: nat, bound: nat) returns (u: nat)
    requires Inv(s) && IdsBelow(s, bound)
    requires t < |s.txs| && !Finished(s.txs[t])
    ensures Enabled(s, u)
    decreases bound - if WantsLock(s.txs[t]) then Wanted(s.txs[t]) else bound
  {
    if Enabled(s, t) {
      u := t;
    } else {
      var id := Wanted(s.txs[t]);
      var h :| 0 <= h < |s.txs| && h != t && Holds(s.txs[h], id);
      if Enabled(s, h) {
        u := h;
      } else {
        HolderWantsMore(s, h, id);
        assert Wanted(s.txs[h]) in LockList(s.txs[h].request);
        u := ChainEnds(s, h, bound);
      }
    }
  }

  lemma HolderWantsMore(s: State, h: nat, id: Id)
    requires Inv(s) && h < |s.txs| && Holds(s.txs[h], id) && WantsLock(s.txs[h])
    ensures id < Wanted(s.txs[h])
  {
    assert TxInv(s.tables.stock, s.txs[h]);
    var ids, k := LockList(s.txs[h].request), s.txs[h].status.next;
    var i :| 0 <= i < |ids[..k]| && ids[..k][i] == id;
    assert ids[i] < ids[k];
  }

  /** In every reachable state with an unfinished transaction, some transaction can step. */
  lemma NoDeadlock(run: seq<State>, i: nat, t: nat) returns (u: nat)
    requires IsRun(run) && i < |run|
    requires t < |run[i].txs| && !Finished(run[i].txs[t])
    ensures Enabled(run[i], u)
  {
    RunStarts(run);
    RunKeepsInv(run, i);
    var bound := SomeBound(run[i], |run[i].txs|);
    u := ChainEnds(run[i], t, bound);
  }

  // ---------------------------------------------------------------- termination

  ghost function TxWork(tx: Tx): nat {
    match tx.status
    case Pending => |LockList(tx.request)| + 2
    case Running(next, _) => if next <= |LockList(tx.request)| then |LockList(tx.request)| - next + 1 else 1
    case _ => 0
  }

  ghost function Work(txs: seq<Tx>): nat {
    if txs == [] then 0 else Work(txs[..|txs| - 1]) + TxWork(txs[|txs| - 1])
  }

  lemma {:induction false} WorkDrops(txs: seq<Tx>, t: nat, tx: Tx)
    requires t < |txs| && TxWork(tx) < TxWork(txs[t])
    ensures Work(txs[t := tx]) < Work(txs)
  {
    var n := |txs| - 1;
    if t < n {
      assert txs[t := tx][..n] == txs[..n][t := tx];
      WorkDrops(txs[..n], t, tx);
    } else {
      assert txs[t := tx][..n] == txs[..n];
    }
  }

  lemma StepUsesWork(s: State, s': State, t: nat)
    requires Inv(s) && NextBy(s, s', t)
    ensures t < |s.txs| && |s'.txs| == |s.txs| && s'.txs == s.txs[t := s'.txs[t]]
    ensures TxWork(s'.txs[t]) < TxWork(s.txs[t])
  {
    assert TxInv(s.tables.stock, s.txs[t]);
  }

  lemma NextUsesWork(s: State, s': State)
    requires Inv(s) && Next(s, s')
    ensures Work(s'.txs) < Work(s.txs) && |s'.txs| == |s.txs|
  {
    var t: nat :| NextBy(s, s', t);
    StepUsesWork(s, s', t);
    WorkDrops(s.txs, t, s'.txs[t]);
  }

  lemma {:induction false} BoundedFrom(run: seq<State>, i: nat)
    requires Started(run) && i < |run|
    ensures i + Work(run[i].txs) <= Work(run[0].txs)
    ensures |run[i].txs| == |run[0].txs|
  {
    if i > 0 {
      BoundedFrom(run, i - 1);
      WorkNext(run, i);
    }
  }

  lemma WorkNext(run: seq<State>, i: nat)
    requires Started(run) && 0 < i < |run|
    ensures Work(run[i].txs) < Work(run[i - 1].txs) && |run[i].txs| == |run[i - 1].txs|
  {
    RunKeepsInv(run, i - 1);
    assert StepAt(run, i);
    NextUsesWork(run[i - 1], run[i]);
  }

  /** Each step uses up work, so a run has at most as many steps as its transactions have work. */
  lemma RunsAreBounded(run: seq<State>, i: nat)
    requires IsRun(run) && i < |run|
    ensures i + Work(run[i].txs) <= Work(run[0].txs)
    ensures |run[i].txs| == |run[0].txs|
  {
    RunStarts(run);
    BoundedFrom(run, i);
  }

  ghost predicate Stuck(s: State) {
    forall u: nat :: !Enabled(s, u)
  }

  /** A run that ends where no transaction can move has finished every one of them. */
  lemma MaximalRunsFinish(run: seq<State>, t: nat)
    requires IsRun(run) && t < |run[0].txs|
    requires Stuck(run[|run| - 1])
    ensures t < |run[|run| - 1].txs| && Finished(run[|run| - 1].txs[t])
  {
    var last := |run| - 1;
    RunsAreBounded(run, last);
    if !Finished(run[last].txs[t]) {
      var _ := NoDeadlock(run, last, t);
    }
  }
}
