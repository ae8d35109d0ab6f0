/** Stock balances, the append-only ledger, and what one stock operation does to both.
    Everything here is about committed values; UseCases and StockProtocol are proved against it. */
module Inventory {
  import opened Decimals
  import opened Identifiers

  datatype Tipo = Entrada | Saida

  /** One ledger row. `pedida` is the amount the application handed over; the column
      numeric(18,4) keeps `Quantidade()`. */
  datatype Movimentacao = Movimentacao(insumo: Id, tipo: Tipo, pedida: real) {
    function Quantidade(): int {
      RoundAway(pedida)
    }
  }

  /** The two tables every stock operation touches. */
  datatype Tables = Tables(stock: map<Id, int>, ledger: seq<Movimentacao>)

  // ---------------------------------------------------------------- grouping lines by ingredient

  datatype Linha = Linha(insumo: Id, quantidade: real)

  ghost function Ids(lines: seq<Linha>): set<Id> {
    set l | l in lines :: l.insumo
  }

  /** What the lines ask for, summed over the lines of one ingredient. */
  ghost function Total(lines: seq<Linha>, id: Id): real {
    if lines == [] then 0.0
    else
      var last := lines[|lines| - 1];
      Total(lines[..|lines| - 1], id) + if last.insumo == id then last.quantidade else 0.0
  }

  ghost function Needs(lines: seq<Linha>): (needs: map<Id, real>)
    ensures needs.Keys == Ids(lines)
  {
    map id | id in Ids(lines) :: Total(lines, id)
  }

  lemma {:induction false} TotalConcat(a: seq<Linha>, b: seq<Linha>, id: Id)
    ensures Total(a + b, id) == Total(a, id) + Total(b, id)
  {
    if b == [] {
      assert a + b == a;
    } else {
      var n := |b| - 1;
      assert (a + b)[..|a + b| - 1] == a + b[..n];
      TotalConcat(a, b[..n], id);
    }
  }

  /** With TotalConcat, all there is to know of a total: one line counts for its ingredient only,
      with its whole amount. */
  lemma TotalOne(l: Linha, id: Id)
    ensures Total([l], id) == if l.insumo == id then l.quantidade else 0.0
    ensures Total([], id) == 0.0
  {
    assert [l][..0] == [];
  }

  lemma NeedsAre(lines: seq<Linha>, id: Id)
    ensures id in Needs(lines) <==> exists l :: l in lines && l.insumo == id
    ensures id in Needs(lines) ==> Needs(lines)[id] == Total(lines, id)
  {
  }

  /** The order of the lines does not matter. */
  lemma {:induction false} NeedsIgnoreOrder(a: seq<Linha>, b: seq<Linha>)
    requires multiset(a) == multiset(b)
    ensures Needs(a) == Needs(b)
  {
    assert forall l :: l in a <==> l in multiset(a);
    assert forall l :: l in b <==> l in multiset(b);
    forall id | id in Ids(a) ensures Total(a, id) == Total(b, id) {
      TotalIgnoresOrder(a, b, id);
    }
  }

  lemma {:induction false} TotalIgnoresOrder(a: seq<Linha>, b: seq<Linha>, id: Id)
    requires multiset(a) == multiset(b)
    ensures Total(a, id) == Total(b, id)
    decreases |a|
  {
    if a == [] {
      assert |multiset(b)| == 0;
    } else {
      var n := |a| - 1;
      var last := a[n];
      assert a == a[..n] + [last];
      assert last in multiset(b);
      var k :| 0 <= k < |b| && b[k] == last;
      TotalWithout(b, k, id);
      TotalIgnoresOrder(a[..n], b[..k] + b[k + 1..], id);
    }
  }

  lemma TotalWithout(b: seq<Linha>, k: nat, id: Id)
    requires k < |b|
    ensures multiset(b[..k] + b[k + 1..]) == multiset(b) - multiset{b[k]}
    ensures Total(b, id) == Total(b[..k] + b[k + 1..], id) + if b[k].insumo == id then b[k].quantidade else 0.0
  {
    assert b == (b[..k] + [b[k]]) + b[k + 1..];
    assert (b[..k] + [b[k]])[..k] == b[..k];
    TotalConcat(b[..k] + [b[k]], b[k + 1..], id);
    TotalConcat(b[..k], b[k + 1..], id);
  }

  // ---------------------------------------------------------------- ascending ids

  ghost predicate StrictlyAscending(s: seq<Id>) {
    forall i, j :: 0 <= i < j < |s| ==> s[i] < s[j]
  }

  lemma {:induction false} Least(s: set<Id>) returns (m: Id)
    requires s != {}
    ensures m in s && forall y :: y in s ==> m <= y
  {
    var x :| x in s;
    if y :| y in s && y < x {
      assert y in s - {x};
      m := Least(s - {x});
      forall z | z in s ensures m <= z {
        assert z != x ==> z in s - {x};
      }
    } else {
      m := x;
    }
  }

  function MinOf(s: set<Id>): (m: Id)
    requires s != {}
    ensures m in s && forall y :: y in s ==> m <= y
  {
    assert exists m :: m in s && forall y :: y in s ==> m <= y by {
      var _ := Least(s);
    }
    var m :| m in s && forall y :: y in s ==> m <= y;
    m
  }

  /** OrderBy(Key) over distinct ids. */
  function Ascending(s: set<Id>): (r: seq<Id>)
    ensures StrictlyAscending(r)
    ensures forall x :: x in r <==> x in s
    ensures |r| == |s|
  {
    if s == {} then []
    else
      var m := MinOf(s);
      [m] + Ascending(s - {m})
  }

  // ---------------------------------------------------------------- what the columns accept

  /** Eighteen digits, of which four are decimals; one unit is 0.0001. */
  const COLUMN_LIMIT: int := 1_000_000_000_000_000_000

  /** A balance or a minimum: numeric(18,4), with CHECK ("QuantidadeEstoque" >= 0). */
  predicate Storable(n: int) {
    0 <= n < COLUMN_LIMIT
  }

  /** The amount of a ledger row: numeric(18,4), with CHECK ("Quantidade" > 0). */
  predicate RowStorable(n: int) {
    0 < n < COLUMN_LIMIT
  }

  // ---------------------------------------------------------------- debits

  /** The amount is positive and on stock. */
  ghost predicate InStock(balance: real, need: real) {
    0.0 < need <= balance
  }

  /** The balance held in memory after a debit, before the column rounds it. */
  ghost function Left(balance: real, need: real): real {
    balance - need
  }

  /** Besides, once rounded by their columns, the database accepts the exit row and what is left. */
  ghost predicate Covers(balance: int, need: real) {
    InStock(balance as real, need) && RowStorable(RoundAway(need)) && Storable(RoundAway(Left(balance as real, need)))
  }

  /** From a balance that fits its column a debit always does: all that the database can refuse
      is a need that rounds to nothing. */
  lemma StoredBalanceCovers(balance: int, need: real)
    requires Storable(balance) && InStock(balance as real, need)
    ensures Covers(balance, need) <==> RoundAway(need) > 0
  {
    RoundedDebit(balance, need);
  }

  /** Each need on stock, and none that rounds to nothing. */
  lemma CanDebitIff(stock: map<Id, int>, needs: map<Id, real>)
    requires forall id :: id in stock ==> 0 <= stock[id] < COLUMN_LIMIT
    ensures CanDebit(stock, needs) <==>
            forall id :: id in needs ==> id in stock && needs[id] <= stock[id] as real && RoundAway(needs[id]) > 0
  {
    forall id | id in needs && id in stock
      ensures Covers(stock[id], needs[id]) <==> needs[id] <= stock[id] as real && RoundAway(needs[id]) > 0
    {
      if InStock(stock[id] as real, needs[id]) {
        StoredBalanceCovers(stock[id], needs[id]);
      }
    }
  }

  ghost predicate CanDebit(stock: map<Id, int>, needs: map<Id, real>) {
    forall id :: id in needs ==> id in stock && Covers(stock[id], needs[id])
  }

  /** The balance after a debit, as the column stores it; an ingredient without a need keeps its own. */
  ghost function AfterDebit(balance: int, needs: map<Id, real>, id: Id): int {
    if id in needs then RoundAway(Left(balance as real, needs[id])) else balance
  }

  ghost function DebitedStock(stock: map<Id, int>, needs: map<Id, real>): map<Id, int> {
    map id | id in stock :: AfterDebit(stock[id], needs, id)
  }

  ghost function ExitRows(ids: seq<Id>, needs: map<Id, real>): (rows: seq<Movimentacao>)
    requires forall id :: id in ids ==> id in needs
    ensures |rows| == |ids|
  {
    if ids == [] then []
    else ExitRows(ids[..|ids| - 1], needs) + [Movimentacao(ids[|ids| - 1], Saida, needs[ids[|ids| - 1]])]
  }

  ghost function Debit(t: Tables, needs: map<Id, real>): Tables {
    Tables(DebitedStock(t.stock, needs), t.ledger + ExitRows(Ascending(needs.Keys), needs))
  }

  lemma {:induction false} ExitRowAt(ids: seq<Id>, needs: map<Id, real>, k: nat)
    requires k < |ids| && forall id :: id in ids ==> id in needs
    ensures ExitRows(ids, needs)[k] == Movimentacao(ids[k], Saida, needs[ids[k]])
  {
    if k < |ids| - 1 {
      ExitRowAt(ids[..|ids| - 1], needs, k);
    }
  }

  /** A debit, balance by balance: each needed ingredient keeps what is left, rounded, and no other changes. */
  lemma DebitedBalance(t: Tables, needs: map<Id, real>, id: Id)
    ensures id in Debit(t, needs).stock <==> id in t.stock
    ensures id in t.stock ==>
              Debit(t, needs).stock[id]
              == if id in needs then RoundAway(t.stock[id] as real - needs[id]) else t.stock[id]
  {
  }

  ghost predicate DebitedRow(m: Movimentacao, needs: map<Id, real>) {
    m.insumo in needs && m.tipo == Saida && m.pedida == needs[m.insumo]
  }

  /** One exit of its whole need for each needed ingredient, in ascending order of ids. */
  ghost predicate DebitedRows(rows: seq<Movimentacao>, needs: map<Id, real>) {
    && |rows| == |needs.Keys|
    && (forall k :: 0 <= k < |rows| ==> DebitedRow(rows[k], needs))
    && (forall j, k :: 0 <= j < k < |rows| ==> rows[j].insumo < rows[k].insumo)
  }

  lemma ExitRowsAre(needs: map<Id, real>)
    ensures DebitedRows(ExitRows(Ascending(needs.Keys), needs), needs)
  {
    var ids := Ascending(needs.Keys);
    var rows := ExitRows(ids, needs);
    forall k | 0 <= k < |rows| ensures rows[k].insumo == ids[k] && DebitedRow(rows[k], needs) {
      ExitRowAt(ids, needs, k);
      assert ids[k] in ids;
    }
  }

  /** And row by row: the rows there were stay, and the exits follow. */
  lemma DebitedLedger(t: Tables, needs: map<Id, real>)
    ensures t.ledger <= Debit(t, needs).ledger
    ensures DebitedRows(Debit(t, needs).ledger[|t.ledger|..], needs)
  {
    ExitRowsAre(needs);
    var rows := ExitRows(Ascending(needs.Keys), needs);
    assert (t.ledger + rows)[|t.ledger|..] == rows;
  }

  /** What a debit does to both tables. */
  ghost predicate Debited(antes: Tables, depois: Tables, needs: map<Id, real>) {
    && depois.stock.Keys == antes.stock.Keys
    && (forall id :: id in antes.stock ==>
          depois.stock[id]
          == if id in needs then RoundAway(antes.stock[id] as real - needs[id]) else antes.stock[id])
    && antes.ledger <= depois.ledger
    && DebitedRows(depois.ledger[|antes.ledger|..], needs)
  }

  lemma DebitIs(t: Tables, needs: map<Id, real>)
    ensures Debited(t, Debit(t, needs), needs)
  {
    DebitedLedger(t, needs);
    forall id | id in t.stock
      ensures Debit(t, needs).stock[id]
              == if id in needs then RoundAway(t.stock[id] as real - needs[id]) else t.stock[id]
    {
      DebitedBalance(t, needs, id);
    }
  }

  // ---------------------------------------------------------------- credits

  ghost function AfterCredit(balance: int, amount: real): int {
    RoundAway(balance as real + amount)
  }

  ghost predicate CanCredit(stock: map<Id, int>, id: Id, amount: real) {
    id in stock && 0.0 < amount && RowStorable(RoundAway(amount)) && Storable(AfterCredit(stock[id], amount))
  }

  ghost function Credit(t: Tables, id: Id, amount: real): Tables
    requires id in t.stock
  {
    Tables(t.stock[id := AfterCredit(t.stock[id], amount)], t.ledger + [Movimentacao(id, Entrada, amount)])
  }

  /** A new ingredient enters with a zero balance, or with an initial load and its ledger row. */
  ghost predicate CanRegister(stock: map<Id, int>, id: Id, initial: real) {
    id !in stock && (initial > 0.0 ==> RowStorable(RoundAway(initial)))
  }

  ghost function Register(t: Tables, id: Id, initial: real): Tables {
    if initial > 0.0 then
      Tables(t.stock[id := RoundAway(initial)], t.ledger + [Movimentacao(id, Entrada, initial)])
    else
      Tables(t.stock[id := 0], t.ledger)
  }

  /** An entry raises the balance of its ingredient by the amount, and no other, and adds one row. */
  lemma CreditIs(t: Tables, id: Id, amount: real)
    requires id in t.stock
    ensures Credit(t, id, amount).stock == t.stock[id := RoundAway(t.stock[id] as real + amount)]
    ensures Credit(t, id, amount).ledger == t.ledger + [Movimentacao(id, Entrada, amount)]
    ensures t.stock[id] >= 0 && amount >= 0.0 ==>
              Credit(t, id, amount).stock[id] == t.stock[id] + RoundAway(amount)
  {
    if t.stock[id] >= 0 && amount >= 0.0 {
      RoundedCredit(t.stock[id], amount);
    }
  }

  /** A storable balance takes an entry that rounds to something and does not overflow it. */
  lemma CanCreditIff(stock: map<Id, int>, id: Id, amount: real)
    requires id in stock ==> 0 <= stock[id] < COLUMN_LIMIT
    ensures CanCredit(stock, id, amount) <==>
            id in stock && RoundAway(amount) > 0 && stock[id] + RoundAway(amount) < COLUMN_LIMIT
  {
    if id in stock && amount >= 0.0 {
      RoundedCredit(stock[id], amount);
    }
  }

  lemma RegisterIs(t: Tables, id: Id, initial: real)
    ensures Register(t, id, initial).stock == t.stock[id := if initial > 0.0 then RoundAway(initial) else 0]
    ensures Register(t, id, initial).ledger
            == t.ledger + if initial > 0.0 then [Movimentacao(id, Entrada, initial)] else []
  {
  }

  // ---------------------------------------------------------------- conservation

  /** Entries minus exits of one ingredient, as the ledger stores them. */
  ghost function LedgerBalance(ledger: seq<Movimentacao>, id: Id): int {
    if ledger == [] then 0
    else
      var m := ledger[|ledger| - 1];
      LedgerBalance(ledger[..|ledger| - 1], id)
      + if m.insumo != id then 0 else if m.tipo.Entrada? then m.Quantidade() else -m.Quantidade()
  }

  ghost function Exits(ledger: seq<Movimentacao>, id: Id): nat {
    if ledger == [] then 0
    else
      var m := ledger[|ledger| - 1];
      Exits(ledger[..|ledger| - 1], id) + if m.insumo == id && m.tipo.Saida? then 1 else 0
  }

  /** Exits whose amount ties at the fifth decimal. */
  ghost function TiedExits(ledger: seq<Movimentacao>, id: Id): nat {
    if ledger == [] then 0
    else
      var m := ledger[|ledger| - 1];
      TiedExits(ledger[..|ledger| - 1], id) + if m.insumo == id && m.tipo.Saida? && Tied(m.pedida) then 1 else 0
  }

  /** The materialised balance fits its column and is the ledger's balance plus one unit for each
      tied exit. */
  ghost predicate BalancedAt(balance: int, ledger: seq<Movimentacao>, id: Id) {
    Storable(balance) && balance == LedgerBalance(ledger, id) + TiedExits(ledger, id)
  }

  ghost predicate Balanced(stock: map<Id, int>, ledger: seq<Movimentacao>) {
    forall id :: id in stock ==> BalancedAt(stock[id], ledger, id)
  }

  /** Every row names a registered ingredient and stores a positive amount. */
  ghost predicate RowsValid(stock: map<Id, int>, ledger: seq<Movimentacao>) {
    forall m :: m in ledger ==> m.insumo in stock && m.Quantidade() > 0
  }

  ghost predicate Conserved(t: Tables) {
    Balanced(t.stock, t.ledger) && RowsValid(t.stock, t.ledger)
  }

  lemma AppendRow(ledger: seq<Movimentacao>, m: Movimentacao, id: Id)
    ensures LedgerBalance(ledger + [m], id) == LedgerBalance(ledger, id)
            + if m.insumo != id then 0 else if m.tipo.Entrada? then m.Quantidade() else -m.Quantidade()
    ensures TiedExits(ledger + [m], id) == TiedExits(ledger, id)
            + if m.insumo == id && m.tipo.Saida? && Tied(m.pedida) then 1 else 0
  {
    assert (ledger + [m])[..|ledger|] == ledger;
  }

  lemma ExitCounts(ledger: seq<Movimentacao>, m: Movimentacao, id: Id)
    ensures Exits(ledger + [m], id) == Exits(ledger, id) + if m.insumo == id && m.tipo.Saida? then 1 else 0
    ensures LedgerBalance([], id) == 0 && TiedExits([], id) == 0 && Exits([], id) == 0
  {
    assert (ledger + [m])[..|ledger|] == ledger;
  }

  /** Rows of ingredients that were never entered say nothing about a new one. */
  lemma {:induction false} NoRowsNoBalance(ledger: seq<Movimentacao>, id: Id)
    requires forall m :: m in ledger ==> m.insumo != id
    ensures LedgerBalance(ledger, id) == 0 && TiedExits(ledger, id) == 0
  {
    if ledger != [] {
      NoRowsNoBalance(ledger[..|ledger| - 1], id);
    }
  }

  lemma {:induction false} ExitRowsMove(ledger: seq<Movimentacao>, ids: seq<Id>, needs: map<Id, real>, id: Id)
    requires StrictlyAscending(ids)
    requires forall x :: x in ids ==> x in needs
    ensures LedgerBalance(ledger + ExitRows(ids, needs), id)
            == LedgerBalance(ledger, id) - if id in ids then RoundAway(needs[id]) else 0
    ensures TiedExits(ledger + ExitRows(ids, needs), id)
            == TiedExits(ledger, id) + if id in ids && Tied(needs[id]) then 1 else 0
  {
    if ids == [] {
      assert ledger + ExitRows(ids, needs) == ledger;
    } else {
      var n := |ids| - 1;
      var row := Movimentacao(ids[n], Saida, needs[ids[n]]);
      ExitRowsMove(ledger, ids[..n], needs, id);
      assert ledger + ExitRows(ids, needs) == (ledger + ExitRows(ids[..n], needs)) + [row];
      AppendRow(ledger + ExitRows(ids[..n], needs), row, id);
      assert ids == ids[..n] + [ids[n]];
    }
  }

  lemma {:induction false} ExitRowsBelong(ids: seq<Id>, needs: map<Id, real>)
    requires forall x :: x in ids ==> x in needs
    ensures forall m :: m in ExitRows(ids, needs) ==>
              m.insumo in ids && m == Movimentacao(m.insumo, Saida, needs[m.insumo])
  {
    if ids != [] {
      ExitRowsBelong(ids[..|ids| - 1], needs);
    }
  }

  lemma DebitConserves(t: Tables, needs: map<Id, real>)
    requires Conserved(t) && CanDebit(t.stock, needs)
    ensures Conserved(Debit(t, needs))
  {
    DebitKeepsRowsValid(t, needs);
    DebitKeepsBalance(t, needs);
  }

  lemma DebitKeepsRowsValid(t: Tables, needs: map<Id, real>)
    requires RowsValid(t.stock, t.ledger) && CanDebit(t.stock, needs)
    ensures RowsValid(DebitedStock(t.stock, needs), t.ledger + ExitRows(Ascending(needs.Keys), needs))
  {
    ExitRowsBelong(Ascending(needs.Keys), needs);
  }

  lemma DebitKeepsBalance(t: Tables, needs: map<Id, real>)
    requires Balanced(t.stock, t.ledger) && CanDebit(t.stock, needs)
    ensures Balanced(DebitedStock(t.stock, needs), t.ledger + ExitRows(Ascending(needs.Keys), needs))
  {
    var ledger' := t.ledger + ExitRows(Ascending(needs.Keys), needs);
    var stock' := DebitedStock(t.stock, needs);
    forall id | id in stock' ensures BalancedAt(stock'[id], ledger', id) {
      assert BalancedAt(t.stock[id], t.ledger, id);
      DebitKeepsBalanceAt(t.ledger, needs, id, t.stock[id]);
    }
  }

  lemma DebitKeepsBalanceAt(ledger: seq<Movimentacao>, needs: map<Id, real>, id: Id, balance: int)
    requires BalancedAt(balance, ledger, id)
    requires id in needs ==> Covers(balance, needs[id])
    ensures BalancedAt(AfterDebit(balance, needs, id), ledger + ExitRows(Ascending(needs.Keys), needs), id)
  {
    ExitRowsMove(ledger, Ascending(needs.Keys), needs, id);
    if id in needs {
      RoundedDebit(balance, needs[id]);
    }
  }

  lemma CreditConserves(t: Tables, id: Id, amount: real)
    requires Conserved(t) && CanCredit(t.stock, id, amount)
    ensures Conserved(Credit(t, id, amount))
  {
    RoundedCredit(t.stock[id], amount);
    forall x {
      AppendRow(t.ledger, Movimentacao(id, Entrada, amount), x);
    }
  }

  lemma RegisterConserves(t: Tables, id: Id, initial: real)
    requires Conserved(t) && CanRegister(t.stock, id, initial)
    ensures Conserved(Register(t, id, initial))
  {
    NoRowsNoBalance(t.ledger, id);
    if initial > 0.0 {
      LoadConserves(t, id, initial);
    }
  }

  lemma LoadConserves(t: Tables, id: Id, initial: real)
    requires Conserved(t) && id !in t.stock && RowStorable(RoundAway(initial))
    requires LedgerBalance(t.ledger, id) == 0 && TiedExits(t.ledger, id) == 0
    ensures Conserved(Tables(t.stock[id := RoundAway(initial)], t.ledger + [Movimentacao(id, Entrada, initial)]))
  {
    var m := Movimentacao(id, Entrada, initial);
    var stock' := t.stock[id := RoundAway(initial)];
    forall x | x in stock' ensures BalancedAt(stock'[x], t.ledger + [m], x) {
      AppendRow(t.ledger, m, x);
      assert x != id ==> BalancedAt(t.stock[x], t.ledger, x);
    }
  }

  /** The drift between balance and ledger is one-sided, at most 0.0001 per exit, and zero
      exactly when no exit ties at the fifth decimal. */
  lemma {:induction false} DriftBounded(ledger: seq<Movimentacao>, id: Id)
    ensures 0 <= TiedExits(ledger, id) <= Exits(ledger, id)
    ensures TiedExits(ledger, id) == 0 <==>
            forall m :: m in ledger && m.insumo == id && m.tipo.Saida? ==> !Tied(m.pedida)
  {
    if ledger != [] {
      var n := |ledger| - 1;
      DriftBounded(ledger[..n], id);
      assert ledger == ledger[..n] + [ledger[n]];
    }
  }

  lemma ConservedDrift(t: Tables, id: Id)
    requires Conserved(t) && id in t.stock
    ensures 0 <= t.stock[id] - LedgerBalance(t.ledger, id) <= Exits(t.ledger, id)
    ensures t.stock[id] == LedgerBalance(t.ledger, id) <==>
            forall m :: m in t.ledger && m.insumo == id && m.tipo.Saida? ==> !Tied(m.pedida)
  {
    DriftBounded(t.ledger, id);
  }

  /** With amounts of at most four decimals the balance is the ledger's balance. */
  lemma WholeAmountsBalance(t: Tables)
    requires Conserved(t)
    requires forall m :: m in t.ledger ==> Whole(m.pedida)
    ensures forall id :: id in t.stock ==> t.stock[id] == LedgerBalance(t.ledger, id) >= 0
  {
    forall id | id in t.stock ensures t.stock[id] == LedgerBalance(t.ledger, id) {
      ConservedDrift(t, id);
    }
  }
}
