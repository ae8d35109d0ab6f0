/** Cash sessions at the granularity of one whole use case: opening, selling, closing.
    The session row has neither a lock nor a concurrency token in the source, so nothing is
    claimed about sales that interleave. Money is counted in cents. */
module CashSessions {
  import opened Decimals
  import opened Identifiers

  /** The price is frozen when the item is created. */
  datatype ItemVenda = ItemVenda(produto: Id, quantidade: real, precoUnitario: nat) {
    ghost function Exact(): real {
      quantidade * precoUnitario as real
    }

    function Subtotal(): int {
      RoundAway(quantidade * precoUnitario as real)
    }
  }

  datatype VendaRegistrada = VendaRegistrada(caixa: Id, formaPagamento: string, itens: seq<ItemVenda>, valorTotal: int)

  datatype Caixa = Caixa(id: Id, tenant: Id, aberto: bool, totalVendas: int, quantidadeVendas: nat)

  datatype Cash = Cash(caixas: seq<Caixa>, vendas: seq<VendaRegistrada>)

  // ---------------------------------------------------------------- a sale's total

  ghost function TotalOf(itens: seq<ItemVenda>): int {
    if itens == [] then 0 else TotalOf(itens[..|itens| - 1]) + itens[|itens| - 1].Subtotal()
  }

  ghost function ExactTotal(itens: seq<ItemVenda>): real {
    if itens == [] then 0.0 else ExactTotal(itens[..|itens| - 1]) + itens[|itens| - 1].Exact()
  }

  /** A line's subtotal is its exact amount rounded to the cent, a half cent going up. */
  lemma SubtotalIs(i: ItemVenda, n: int)
    requires i.quantidade >= 0.0
    ensures i.Subtotal() == n <==> n as real - 0.5 <= i.quantidade * i.precoUnitario as real < n as real + 0.5
  {
    SubtotalRounds(i.quantidade * i.precoUnitario as real, n, i.quantidade, i.precoUnitario as real);
  }

  lemma SubtotalRounds(x: real, n: int, q: real, p: real)
    requires x == q * p && q >= 0.0 && p >= 0.0
    ensures RoundAway(x) == n <==> n as real - 0.5 <= x < n as real + 0.5
  {
    assert x >= 0.0;
  }

  /** With the rounding of a line, all there is to know of a total. */
  lemma TotalParts(itens: seq<ItemVenda>, i: ItemVenda)
    ensures TotalOf(itens + [i]) == TotalOf(itens) + i.Subtotal()
    ensures ExactTotal(itens + [i]) == ExactTotal(itens) + i.quantidade * i.precoUnitario as real
    ensures TotalOf([]) == 0 && ExactTotal([]) == 0.0
  {
    assert (itens + [i])[..|itens|] == itens;
  }

  ghost function HalfCents(lines: nat): real {
    lines as real / 2.0
  }

  /** Each line contributes at most half a cent of rounding. */
  lemma {:induction false} TotalNearExact(itens: seq<ItemVenda>)
    ensures ExactTotal(itens) - HalfCents(|itens|) <= TotalOf(itens) as real <= ExactTotal(itens) + HalfCents(|itens|)
  {
    if itens != [] {
      TotalNearExact(itens[..|itens| - 1]);
    }
  }

  lemma {:induction false} TotalNonNegative(itens: seq<ItemVenda>)
    requires forall i :: i in itens ==> i.quantidade > 0.0
    ensures TotalOf(itens) >= 0
  {
    if itens != [] {
      var last := itens[|itens| - 1];
      TotalNonNegative(itens[..|itens| - 1]);
      assert last.quantidade * last.precoUnitario as real >= 0.0;
    }
  }

  // ---------------------------------------------------------------- the operations

  ghost predicate OpenFor(c: Caixa, tenant: Id) {
    c.aberto && c.tenant == tenant
  }

  /** The first open session of the tenant at or after `from`, or |caixas| when there is none. */
  function OpenFrom(caixas: seq<Caixa>, tenant: Id, from: nat): (k: nat)
    requires from <= |caixas|
    ensures from <= k <= |caixas|
    ensures k < |caixas| ==> OpenFor(caixas[k], tenant)
    ensures forall i :: from <= i < k ==> !OpenFor(caixas[i], tenant)
    decreases |caixas| - from
  {
    if from == |caixas| || (caixas[from].aberto && caixas[from].tenant == tenant) then from
    else OpenFrom(caixas, tenant, from + 1)
  }

  function OpenIndex(caixas: seq<Caixa>, tenant: Id): (k: nat)
    ensures k <= |caixas|
    ensures k < |caixas| ==> OpenFor(caixas[k], tenant)
    ensures forall i :: 0 <= i < k ==> !OpenFor(caixas[i], tenant)
  {
    OpenFrom(caixas, tenant, 0)
  }

  datatype Op =
    | Abrir(tenant: Id, novo: Id)
    | Vender(tenant: Id, formaPagamento: string, itens: seq<ItemVenda>)
    | Fechar(tenant: Id)

  /** The session after one more sale. */
  ghost function ComMaisUma(c: Caixa, itens: seq<ItemVenda>): Caixa {
    c.(totalVendas := c.totalVendas + TotalOf(itens), quantidadeVendas := c.quantidadeVendas + 1)
  }

  ghost function Sell(cash: Cash, k: nat, formaPagamento: string, itens: seq<ItemVenda>): Cash
    requires k < |cash.caixas|
  {
    var c := cash.caixas[k];
    Cash(cash.caixas[k := ComMaisUma(c, itens)],
         cash.vendas + [VendaRegistrada(c.id, formaPagamento, itens, TotalOf(itens))])
  }

  /** An operation that finds no session to work on, or one already open, changes nothing. */
  ghost function Do(cash: Cash, op: Op): Cash {
    var k := OpenIndex(cash.caixas, op.tenant);
    match op
    case Abrir(tenant, novo) =>
      if k < |cash.caixas| then cash else cash.(caixas := cash.caixas + [Caixa(novo, tenant, true, 0, 0)])
    case Vender(_, formaPagamento, itens) =>
      if k < |cash.caixas| then Sell(cash, k, formaPagamento, itens) else cash
    case Fechar(_) =>
      if k < |cash.caixas| then cash.(caixas := cash.caixas[k := cash.caixas[k].(aberto := false)]) else cash
  }

  /** An opening leaves an open session of the tenant: the one there was, or a new and empty one. */
  lemma Opens(cash: Cash, tenant: Id, novo: Id)
    ensures NoneOpen(cash.caixas, tenant) ==>
              Do(cash, Abrir(tenant, novo)) == Cash(cash.caixas + [Caixa(novo, tenant, true, 0, 0)], cash.vendas)
    ensures !NoneOpen(cash.caixas, tenant) ==> Do(cash, Abrir(tenant, novo)) == cash
  {
    var k := OpenIndex(cash.caixas, tenant);
    if k < |cash.caixas| {
      assert OpenFor(cash.caixas[k], tenant);
    }
  }

  /** The sale is added, its total goes to the tenant's first open session, and no other row changes. */
  ghost predicate Sold(antes: Cash, depois: Cash, tenant: Id, formaPagamento: string, itens: seq<ItemVenda>) {
    var k := OpenIndex(antes.caixas, tenant);
    && k < |antes.caixas|
    && depois.vendas == antes.vendas + [VendaRegistrada(antes.caixas[k].id, formaPagamento, itens, TotalOf(itens))]
    && |depois.caixas| == |antes.caixas|
    && (forall i :: 0 <= i < |antes.caixas| && i != k ==> depois.caixas[i] == antes.caixas[i])
    && depois.caixas[k] == Caixa(antes.caixas[k].id, tenant, true, antes.caixas[k].totalVendas + TotalOf(itens),
                                 antes.caixas[k].quantidadeVendas + 1)
  }

  lemma Sells(cash: Cash, tenant: Id, formaPagamento: string, itens: seq<ItemVenda>)
    ensures NoneOpen(cash.caixas, tenant) ==> Do(cash, Vender(tenant, formaPagamento, itens)) == cash
    ensures !NoneOpen(cash.caixas, tenant) ==>
              Sold(cash, Do(cash, Vender(tenant, formaPagamento, itens)), tenant, formaPagamento, itens)
  {
    var k := OpenIndex(cash.caixas, tenant);
    if k < |cash.caixas| {
      assert OpenFor(cash.caixas[k], tenant);
    }
  }

  /** Only the flag of the tenant's first open session changes. */
  ghost predicate Closed(antes: Cash, depois: Cash, tenant: Id) {
    var k := OpenIndex(antes.caixas, tenant);
    && k < |antes.caixas|
    && depois.vendas == antes.vendas && |depois.caixas| == |antes.caixas|
    && (forall i :: 0 <= i < |antes.caixas| && i != k ==> depois.caixas[i] == antes.caixas[i])
    && depois.caixas[k] == Caixa(antes.caixas[k].id, tenant, false, antes.caixas[k].totalVendas,
                                 antes.caixas[k].quantidadeVendas)
  }

  ghost predicate NoneOpen(caixas: seq<Caixa>, tenant: Id) {
    forall i :: 0 <= i < |caixas| ==> !OpenFor(caixas[i], tenant)
  }

  /** A closing closes the open session, changes nothing else, and leaves the tenant without one. */
  lemma Closes(cash: Cash, tenant: Id)
    ensures NoneOpen(cash.caixas, tenant) ==> Do(cash, Fechar(tenant)) == cash
    ensures !NoneOpen(cash.caixas, tenant) ==> Closed(cash, Do(cash, Fechar(tenant)), tenant)
    ensures OneOpenPerTenant(cash.caixas) ==> NoneOpen(Do(cash, Fechar(tenant)).caixas, tenant)
  {
    var k := OpenIndex(cash.caixas, tenant);
    if k < |cash.caixas| {
      assert OpenFor(cash.caixas[k], tenant);
    }
  }

  /** Session ids are fresh Guids. */
  ghost predicate FreshId(cash: Cash, op: Op) {
    op.Abrir? ==> forall i :: 0 <= i < |cash.caixas| ==> cash.caixas[i].id != op.novo
  }

  // ---------------------------------------------------------------- what every serial run keeps

  ghost function SoldIn(vendas: seq<VendaRegistrada>, id: Id): int {
    if vendas == [] then 0
    else
      var last := vendas[|vendas| - 1];
      SoldIn(vendas[..|vendas| - 1], id) + if last.caixa == id then last.valorTotal else 0
  }

  ghost function CountIn(vendas: seq<VendaRegistrada>, id: Id): nat {
    if vendas == [] then 0
    else CountIn(vendas[..|vendas| - 1], id) + if vendas[|vendas| - 1].caixa == id then 1 else 0
  }

  ghost predicate Tallied(c: Caixa, vendas: seq<VendaRegistrada>) {
    c.totalVendas == SoldIn(vendas, c.id) && c.quantidadeVendas == CountIn(vendas, c.id)
  }

  ghost predicate DistinctIds(caixas: seq<Caixa>) {
    forall i, j :: 0 <= i < j < |caixas| ==> caixas[i].id != caixas[j].id
  }

  ghost predicate OneOpenPerTenant(caixas: seq<Caixa>) {
    forall i, j :: 0 <= i < j < |caixas| && caixas[i].aberto && caixas[j].aberto ==> caixas[i].tenant != caixas[j].tenant
  }

  ghost predicate SalesLinked(cash: Cash) {
    forall v :: v in cash.vendas ==>
      v.valorTotal == TotalOf(v.itens) && exists i :: 0 <= i < |cash.caixas| && cash.caixas[i].id == v.caixa
  }

  ghost predicate CashInv(cash: Cash) {
    && DistinctIds(cash.caixas)
    && OneOpenPerTenant(cash.caixas)
    && SalesLinked(cash)
    && forall i :: 0 <= i < |cash.caixas| ==> Tallied(cash.caixas[i], cash.vendas)
  }

  lemma NothingSold(id: Id)
    ensures SoldIn([], id) == 0 && CountIn([], id) == 0
  {
  }

  lemma AppendSale(vendas: seq<VendaRegistrada>, v: VendaRegistrada, id: Id)
    ensures SoldIn(vendas + [v], id) == SoldIn(vendas, id) + if v.caixa == id then v.valorTotal else 0
    ensures CountIn(vendas + [v], id) == CountIn(vendas, id) + if v.caixa == id then 1 else 0
  {
    assert (vendas + [v])[..|vendas|] == vendas;
  }

  lemma {:induction false} UnlinkedIsEmpty(vendas: seq<VendaRegistrada>, id: Id)
    requires forall v :: v in vendas ==> v.caixa != id
    ensures SoldIn(vendas, id) == 0 && CountIn(vendas, id) == 0
  {
    if vendas != [] {
      UnlinkedIsEmpty(vendas[..|vendas| - 1], id);
    }
  }

  lemma SellKeepsCashInv(cash: Cash, k: nat, formaPagamento: string, itens: seq<ItemVenda>)
    requires CashInv(cash) && k < |cash.caixas|
    ensures CashInv(Sell(cash, k, formaPagamento, itens))
  {
    var cash' := Sell(cash, k, formaPagamento, itens);
    var v := VendaRegistrada(cash.caixas[k].id, formaPagamento, itens, TotalOf(itens));
    forall i | 0 <= i < |cash'.caixas| ensures Tallied(cash'.caixas[i], cash'.vendas) {
      assert Tallied(cash.caixas[i], cash.vendas);
      AppendSale(cash.vendas, v, cash.caixas[i].id);
    }
    forall w | w in cash'.vendas ensures exists i :: 0 <= i < |cash'.caixas| && cash'.caixas[i].id == w.caixa {
      if w == v {
        assert cash'.caixas[k].id == w.caixa;
      } else {
        assert w in cash.vendas;
        var i :| 0 <= i < |cash.caixas| && cash.caixas[i].id == w.caixa;
        assert cash'.caixas[i].id == w.caixa;
      }
    }
  }

  lemma OpenKeepsCashInv(cash: Cash, op: Op)
    requires CashInv(cash) && FreshId(cash, op) && op.Abrir?
    ensures CashInv(Do(cash, op))
  {
    var cash' := Do(cash, op);
    if cash' != cash {
      UnlinkedIsEmpty(cash.vendas, op.novo);
      forall v | v in cash'.vendas ensures exists i :: 0 <= i < |cash'.caixas| && cash'.caixas[i].id == v.caixa {
        var i :| 0 <= i < |cash.caixas| && cash.caixas[i].id == v.caixa;
        assert cash'.caixas[i].id == v.caixa;
      }
    }
  }

  lemma DoKeepsCashInv(cash: Cash, op: Op)
    requires CashInv(cash) && FreshId(cash, op)
    ensures CashInv(Do(cash, op))
  {
    match op
    case Abrir(_, _) => OpenKeepsCashInv(cash, op);
    case Vender(tenant, formaPagamento, itens) =>
      if OpenIndex(cash.caixas, tenant) < |cash.caixas| {
        SellKeepsCashInv(cash, OpenIndex(cash.caixas, tenant), formaPagamento, itens);
      }
    case Fechar(tenant) =>
      var cash' := Do(cash, op);
      forall v | v in cash'.vendas ensures exists i :: 0 <= i < |cash'.caixas| && cash'.caixas[i].id == v.caixa {
        var i :| 0 <= i < |cash.caixas| && cash.caixas[i].id == v.caixa;
        assert cash'.caixas[i].id == v.caixa;
      }
      forall i | 0 <= i < |cash'.caixas| ensures Tallied(cash'.caixas[i], cash'.vendas) {
        assert Tallied(cash.caixas[i], cash.vendas);
      }
  }

  /** A serial run: ops[i] leads from states[i] to states[i + 1]. */
  ghost predicate IsRun(states: seq<Cash>, ops: seq<Op>) {
    && |states| == |ops| + 1
    && states[0] == Cash([], [])
    && forall i :: 0 <= i < |ops| ==> FreshId(states[i], ops[i]) && states[i + 1] == Do(states[i], ops[i])
  }

  /** At most one open session per tenant, and every session's total and count are those of the
      sales linked to it. */
  lemma {:induction false} SessionsTally(states: seq<Cash>, ops: seq<Op>, i: nat)
    requires IsRun(states, ops) && i < |states|
    ensures CashInv(states[i])
  {
    if i > 0 {
      SessionsTally(states, ops, i - 1);
      DoKeepsCashInv(states[i - 1], ops[i - 1]);
    }
  }

  /** A closed session never changes again, and sales are never altered or dropped. */
  lemma {:induction false} ClosedForGood(states: seq<Cash>, ops: seq<Op>, i: nat, j: nat, k: nat)
    requires IsRun(states, ops) && i <= j < |states|
    requires k < |states[i].caixas| && !states[i].caixas[k].aberto
    ensures k < |states[j].caixas| && states[j].caixas[k] == states[i].caixas[k]
    ensures states[i].vendas <= states[j].vendas
  {
    if i < j {
      ClosedForGood(states, ops, i, j - 1, k);
      assert states[j] == Do(states[j - 1], ops[j - 1]);
    }
  }

  /** After a closing the tenant has no open session until its next opening, and nothing is sold in between. */
  lemma {:induction false} ClosedUntilOpened(states: seq<Cash>, ops: seq<Op>, i: nat, j: nat, tenant: Id)
    requires IsRun(states, ops) && i < j < |states| && ops[i] == Fechar(tenant)
    requires forall m :: i < m < j ==> !(ops[m].Abrir? && ops[m].tenant == tenant)
    ensures NoneOpen(states[j].caixas, tenant)
    ensures j < |ops| && ops[j].Vender? && ops[j].tenant == tenant ==> states[j + 1] == states[j]
    decreases j
  {
    if j == i + 1 {
      SessionsTally(states, ops, i);
      Closes(states[i], tenant);
    } else {
      ClosedUntilOpened(states, ops, i, j - 1, tenant);
      StaysNoneOpen(states[j - 1], ops[j - 1], tenant);
    }
  }

  lemma StaysNoneOpen(cash: Cash, op: Op, tenant: Id)
    requires NoneOpen(cash.caixas, tenant) && !(op.Abrir? && op.tenant == tenant)
    ensures NoneOpen(Do(cash, op).caixas, tenant)
  {
    var caixas' := Do(cash, op).caixas;
    forall i | 0 <= i < |caixas'| ensures !OpenFor(caixas'[i], tenant) {
      if i < |cash.caixas| {
        assert !OpenFor(cash.caixas[i], tenant);
      }
    }
  }

  /** The sum of a session's exact sales and its recorded total differ by at most half a cent per line sold. */
  ghost function ExactIn(vendas: seq<VendaRegistrada>, id: Id): real {
    if vendas == [] then 0.0
    else ExactIn(vendas[..|vendas| - 1], id)
         + if vendas[|vendas| - 1].caixa == id then ExactTotal(vendas[|vendas| - 1].itens) else 0.0
  }

  ghost function LinesIn(vendas: seq<VendaRegistrada>, id: Id): nat {
    if vendas == [] then 0
    else
      var last := vendas[|vendas| - 1];
      LinesIn(vendas[..|vendas| - 1], id) + if last.caixa == id then |last.itens| else 0
  }

  lemma {:induction false} SessionNearExact(vendas: seq<VendaRegistrada>, id: Id)
    requires forall v :: v in vendas ==> v.valorTotal == TotalOf(v.itens)
    ensures ExactIn(vendas, id) - HalfCents(LinesIn(vendas, id)) <= SoldIn(vendas, id) as real
            <= ExactIn(vendas, id) + HalfCents(LinesIn(vendas, id))
  {
    if vendas != [] {
      SessionNearExact(vendas[..|vendas| - 1], id);
      TotalNearExact(vendas[|vendas| - 1].itens);
    }
  }

  lemma RunNearExact(states: seq<Cash>, ops: seq<Op>, i: nat, k: nat)
    requires IsRun(states, ops) && i < |states| && k < |states[i].caixas|
    ensures var c := states[i].caixas[k];
            var exact := ExactIn(states[i].vendas, c.id);
            var slack := HalfCents(LinesIn(states[i].vendas, c.id));
            exact - slack <= c.totalVendas as real <= exact + slack
  {
    SessionsTally(states, ops, i);
    assert Tallied(states[i].caixas[k], states[i].vendas);
    SessionNearExact(states[i].vendas, states[i].caixas[k].id);
  }
}
