/** RegistrarVenda, ExecutarBaixa, RegistrarEntrada, CadastrarInsumo, AbrirCaixa and FecharCaixa,
    each run alone against the database, proved against the operations of Inventory and
    CashSessions. A failure is an exception or an error result; it rolls everything back. */
module UseCases {
  import opened CashSessions
  import opened Decimals
  import opened Entities
  import opened Identifiers
  import opened Inventory
  import opened Recipes
  import opened Texts

  datatype Erro =
    | SemItens | SemFormaPagamento | SemCaixaAberto | ProdutoInexistente | ProdutoInativo
    | QuantidadeInvalida | MinimoInvalido | InsumoInexistente | SaldoInsuficiente(insumo: Id) | DebitoRecusado
    | RestricaoDoBanco

  datatype Resultado = Sucesso | Falha(erro: Erro)

  // ---------------------------------------------------------------- what a save is given

  datatype EntityState = Unchanged | Added | Modified | Deleted

  datatype Entry = Entry(state: EntityState, row: Movimentacao)

  /** What is inserted or updated beside balances and ledger rows. */
  datatype Inclusao =
    | SoEstoque
    | ComInsumo(id: Id, minimo: real)
    | ComVenda(k: nat, sessao: Caixa, venda: VendaRegistrada)

  predicate Ledgerable(e: Entry) {
    !e.state.Modified? && !e.state.Deleted? && (e.state.Added? ==> RowStorable(e.row.Quantidade()))
  }

  ghost predicate AllLedgerable(entries: seq<Entry>) {
    forall e :: e in entries ==> Ledgerable(e)
  }

  /** An item's row: quantity numeric(18,4) with CHECK ("Quantidade" > 0); price and subtotal
      numeric(18,2), the subtotal with CHECK ("Subtotal" >= 0). The quantity is in whole units of
      the product. */
  predicate ItemGravavel(i: ItemVenda) {
    RowStorable(RoundAway(10000.0 * i.quantidade)) && Storable(i.precoUnitario) && Storable(i.Subtotal())
  }

  const LIMITE_FORMA := 50

  /** A sale's row and its items': the payment form is VARCHAR(50) and text without the null
      character, the total numeric(18,2) with CHECK ("ValorTotal" >= 0). */
  predicate VendaGravavel(v: VendaRegistrada) {
    && |v.formaPagamento| <= LIMITE_FORMA && '\0' !in v.formaPagamento
    && (forall i :: i in v.itens ==> ItemGravavel(i))
    && Storable(v.valorTotal)
  }

  /** A session's total: numeric(18,2). */
  predicate TotalGravavel(total: int) {
    -COLUMN_LIMIT < total < COLUMN_LIMIT
  }

  predicate InclusaoGravavel(x: Inclusao) {
    match x
    case SoEstoque => true
    case ComInsumo(_, minimo) => Storable(RoundAway(minimo))
    case ComVenda(_, sessao, venda) => VendaGravavel(venda) && TotalGravavel(sessao.totalVendas)
  }

  /** Balances in memory, rounded by their column when saved. */
  function Gravados(saldos: map<Id, real>): map<Id, int> {
    map id | id in saldos :: RoundAway(saldos[id])
  }

  predicate SaldosGravaveis(saldos: map<Id, real>) {
    forall id :: id in saldos ==> Storable(RoundAway(saldos[id]))
  }

  // ---------------------------------------------------------------- the rows a debit adds

  ghost function AddedRows(entries: seq<Entry>): seq<Movimentacao> {
    if entries == [] then []
    else
      var last := entries[|entries| - 1];
      AddedRows(entries[..|entries| - 1]) + if last.state.Added? then [last.row] else []
  }

  /** What a save adds: the rows of the entries in the Added state, in order. */
  lemma AddedParts(entries: seq<Entry>, e: Entry)
    ensures AddedRows(entries + [e]) == AddedRows(entries) + if e.state == Added then [e.row] else []
    ensures AddedRows([]) == []
  {
    assert (entries + [e])[..|entries|] == entries;
  }

  ghost predicate ExitEntries(entries: seq<Entry>, ids: seq<Id>, needs: map<Id, real>) {
    && |entries| == |ids|
    && forall i :: 0 <= i < |ids| ==>
         ids[i] in needs && entries[i] == Entry(Added, Movimentacao(ids[i], Saida, needs[ids[i]]))
  }

  lemma {:induction false} ExitEntriesAddExitRows(entries: seq<Entry>, ids: seq<Id>, needs: map<Id, real>)
    requires ExitEntries(entries, ids, needs)
    ensures AddedRows(entries) == ExitRows(ids, needs)
  {
    if ids != [] {
      ExitEntriesAddExitRows(entries[..|ids| - 1], ids[..|ids| - 1], needs);
    }
  }

  lemma ExitEntriesNext(entries: seq<Entry>, ids: seq<Id>, k: nat, needs: map<Id, real>)
    requires k < |ids| && ids[k] in needs && ExitEntries(entries, ids[..k], needs)
    ensures ExitEntries(entries + [Entry(Added, Movimentacao(ids[k], Saida, needs[ids[k]]))], ids[..k + 1], needs)
  {
  }

  lemma EntryOf(entries: seq<Entry>, needs: map<Id, real>, id: Id)
    requires ExitEntries(entries, Ascending(needs.Keys), needs) && id in needs
    ensures Entry(Added, Movimentacao(id, Saida, needs[id])) in entries
  {
    var ids := Ascending(needs.Keys);
    assert id in ids;
    var i :| 0 <= i < |ids| && ids[i] == id;
    assert entries[i] == Entry(Added, Movimentacao(id, Saida, needs[id]));
  }

  lemma SingleEntry(m: Movimentacao)
    ensures AllLedgerable([Entry(Added, m)]) <==> RowStorable(m.Quantidade())
    ensures AddedRows([Entry(Added, m)]) == [m]
    ensures AllLedgerable([]) && AddedRows([]) == []
  {
    assert [Entry(Added, m)][..0] == [];
    assert Entry(Added, m) in [Entry(Added, m)];
  }

  /** What is left in memory of every needed ingredient, each need being on stock. */
  ghost predicate LeftOver(saldos: map<Id, real>, stock: map<Id, int>, needs: map<Id, real>) {
    && saldos.Keys == needs.Keys
    && forall id :: id in needs ==>
         id in stock && InStock(stock[id] as real, needs[id]) && saldos[id] == Left(stock[id] as real, needs[id])
  }

  /** With every need on stock, the save accepts the rows and the balances exactly when the debit
      is possible. */
  lemma SaveDecides(entries: seq<Entry>, saldos: map<Id, real>, stock: map<Id, int>, needs: map<Id, real>)
    requires ExitEntries(entries, Ascending(needs.Keys), needs)
    requires LeftOver(saldos, stock, needs)
    ensures AllLedgerable(entries) && SaldosGravaveis(saldos) <==> CanDebit(stock, needs)
  {
    if AllLedgerable(entries) && SaldosGravaveis(saldos) {
      AcceptedCovers(entries, saldos, stock, needs);
    }
    if CanDebit(stock, needs) {
      CoveredAccepts(entries, Ascending(needs.Keys), stock, needs);
      CoveredFits(saldos, stock, needs);
    }
  }

  lemma AcceptedCovers(entries: seq<Entry>, saldos: map<Id, real>, stock: map<Id, int>, needs: map<Id, real>)
    requires ExitEntries(entries, Ascending(needs.Keys), needs)
    requires LeftOver(saldos, stock, needs) && AllLedgerable(entries) && SaldosGravaveis(saldos)
    ensures CanDebit(stock, needs)
  {
    forall id | id in needs ensures id in stock && Covers(stock[id], needs[id]) {
      EntryOf(entries, needs, id);
      assert Ledgerable(Entry(Added, Movimentacao(id, Saida, needs[id])));
      assert Storable(RoundAway(saldos[id]));
    }
  }

  lemma CoveredAccepts(entries: seq<Entry>, ids: seq<Id>, stock: map<Id, int>, needs: map<Id, real>)
    requires ExitEntries(entries, ids, needs) && CanDebit(stock, needs)
    ensures AllLedgerable(entries)
  {
    forall e | e in entries ensures Ledgerable(e) {
      assert e.row.insumo in needs && Covers(stock[e.row.insumo], needs[e.row.insumo]);
    }
  }

  lemma CoveredFits(saldos: map<Id, real>, stock: map<Id, int>, needs: map<Id, real>)
    requires LeftOver(saldos, stock, needs) && CanDebit(stock, needs)
    ensures SaldosGravaveis(saldos)
  {
    forall id | id in saldos ensures Storable(RoundAway(saldos[id])) {
      assert Covers(stock[id], needs[id]);
    }
  }

  /** Storing what is left of every needed ingredient debits the stock. */
  lemma SavedDebit(t: Tables, needs: map<Id, real>, saldos: map<Id, real>, entries: seq<Entry>)
    requires LeftOver(saldos, t.stock, needs)
    requires ExitEntries(entries, Ascending(needs.Keys), needs)
    ensures t.stock + Gravados(saldos) == Debit(t, needs).stock
    ensures t.ledger + AddedRows(entries) == Debit(t, needs).ledger
  {
    ExitEntriesAddExitRows(entries, Ascending(needs.Keys), needs);
    SavedStock(t.stock, needs, saldos);
  }

  lemma SavedStock(stock: map<Id, int>, needs: map<Id, real>, saldos: map<Id, real>)
    requires LeftOver(saldos, stock, needs)
    ensures stock + Gravados(saldos) == DebitedStock(stock, needs)
  {
    var m, n := DebitedStock(stock, needs), stock + Gravados(saldos);
    assert n.Keys == stock.Keys;
    forall id | id in stock ensures m[id] == n[id] {
      SavedBalance(stock, needs, saldos, id);
    }
  }

  lemma SavedBalance(stock: map<Id, int>, needs: map<Id, real>, saldos: map<Id, real>, id: Id)
    requires LeftOver(saldos, stock, needs) && id in stock
    ensures (stock + Gravados(saldos))[id] == AfterDebit(stock[id], needs, id)
  {
  }

  // ---------------------------------------------------------------- the loops over the ingredients

  /** The stored minimum of an ingredient. */
  function MinimoDe(minimos: map<Id, int>, id: Id): int {
    if id in minimos then minimos[id] else 0
  }

  function Saldos(tracked: map<Id, Insumo>): map<Id, real>
    reads set id | id in tracked :: tracked[id]
  {
    map id | id in tracked :: tracked[id].quantidadeEstoque
  }

  ghost predicate Keyed(tracked: map<Id, Insumo>) {
    forall id :: id in tracked ==> tracked[id].id == id
  }

  /** Every tracked object still holds its row's balance. */
  ghost predicate Loaded(insumos: map<Id, Insumo>, stock: map<Id, int>, minimos: map<Id, int>)
    reads set id | id in insumos :: insumos[id]
  {
    && Keyed(insumos)
    && (forall id :: id in insumos ==> id in stock && insumos[id].quantidadeEstoque == stock[id] as real)
    && (forall id :: id in insumos ==> insumos[id].estoqueMinimo == MinimoDe(minimos, id) as real)
  }

  ghost predicate AllPositive(demandas: map<Id, real>) {
    forall id :: id in demandas ==> 0.0 < demandas[id]
  }

  /** Every amount is at most its balance. */
  ghost predicate Disponiveis(stock: map<Id, int>, demandas: map<Id, real>) {
    forall id :: id in demandas ==> id in stock && demandas[id] <= stock[id] as real
  }

  lemma DebitNeedsBalance(stock: map<Id, int>, demandas: map<Id, real>)
    requires CanDebit(stock, demandas)
    ensures Disponiveis(stock, demandas) && AllPositive(demandas)
  {
    forall id | id in demandas ensures id in stock && 0.0 < demandas[id] <= stock[id] as real {
      assert Covers(stock[id], demandas[id]);
    }
  }

  lemma PrefixGrows(ids: seq<Id>, k: nat)
    requires StrictlyAscending(ids) && k < |ids|
    ensures ids[k] !in ids[..k]
    ensures forall x :: x in ids[..k + 1] <==> x in ids[..k] || x == ids[k]
    ensures ids[..k + 1][..k] == ids[..k]
  {
    assert ids[..k + 1] == ids[..k] + [ids[k]];
  }

  /** The balances in memory when those of `done` have been debited. */
  ghost predicate LeftUpTo(saldos: map<Id, real>, done: seq<Id>, stock: map<Id, int>, needs: map<Id, real>) {
    && saldos.Keys == needs.Keys
    && (forall id :: id in needs ==> id in stock)
    && (forall id :: id in needs && id in done ==>
          InStock(stock[id] as real, needs[id]) && saldos[id] == Left(stock[id] as real, needs[id]))
    && (forall id :: id in needs && id !in done ==> saldos[id] == stock[id] as real)
  }

  lemma LeftNext(saldos: map<Id, real>, ids: seq<Id>, k: nat, stock: map<Id, int>, needs: map<Id, real>)
    requires StrictlyAscending(ids) && k < |ids| && LeftUpTo(saldos, ids[..k], stock, needs)
    requires ids[k] in needs
    ensures saldos[ids[k]] == stock[ids[k]] as real
    ensures InStock(stock[ids[k]] as real, needs[ids[k]]) ==>
              LeftUpTo(saldos[ids[k] := Left(saldos[ids[k]], needs[ids[k]])], ids[..k + 1], stock, needs)
  {
    PrefixGrows(ids, k);
  }

  /** Check and debit: a short balance is an error result, a non-positive amount an exception. */
  method BaixarUm(insumos: map<Id, Insumo>, id: Id, demanda: real) returns (r: Resultado)
    requires Keyed(insumos) && id in insumos
    modifies insumos[id]
    ensures r.Sucesso? <==> InStock(old(Saldos(insumos))[id], demanda)
    ensures r.Sucesso? ==> Saldos(insumos) == old(Saldos(insumos))[id := Left(old(Saldos(insumos))[id], demanda)]
    ensures old(Saldos(insumos))[id] < demanda ==> r == Falha(SaldoInsuficiente(id))
  {
    if insumos[id].quantidadeEstoque < demanda {
      return Falha(SaldoInsuficiente(id));
    }
    var ok := insumos[id].DebitarEstoque(demanda);
    r := if ok then Sucesso else Falha(DebitoRecusado);
  }

  /** The loop of ExecutarBaixaAsync: check, debit and write one ingredient at a time. */
  method BaixarComVerificacao(insumos: map<Id, Insumo>, ids: seq<Id>, demandas: map<Id, real>,
                              ghost stock: map<Id, int>, ghost minimos: map<Id, int>)
    returns (r: Resultado, entries: seq<Entry>)
    requires StrictlyAscending(ids) && (forall id :: id in ids <==> id in demandas)
    requires insumos.Keys == demandas.Keys && Loaded(insumos, stock, minimos)
    modifies set id | id in insumos :: insumos[id]
    ensures r.Sucesso? <==> forall id :: id in demandas ==> InStock(stock[id] as real, demandas[id])
    ensures r.Sucesso? ==> LeftOver(Saldos(insumos), stock, demandas) && ExitEntries(entries, ids, demandas)
  {
    entries := [];
    for k := 0 to |ids|
      invariant LeftUpTo(Saldos(insumos), ids[..k], stock, demandas)
      invariant ExitEntries(entries, ids[..k], demandas)
    {
      var id := ids[k];
      ghost var antes := Saldos(insumos);
      LeftNext(antes, ids, k, stock, demandas);
      ExitEntriesNext(entries, ids, k, demandas);
      r := BaixarUm(insumos, id, demandas[id]);
      if r.Falha? {
        assert !InStock(stock[id] as real, demandas[id]);
        return r, [];
      }
      entries := entries + [Entry(Added, Movimentacao(id, Saida, demandas[id]))];
    }
    assert ids[..|ids|] == ids;
    r := Sucesso;
  }

  /** The check that precedes every debit of a sale. */
  method VerificarSaldo(insumos: map<Id, Insumo>, ids: seq<Id>, demandas: map<Id, real>,
                        ghost stock: map<Id, int>, ghost minimos: map<Id, int>)
    returns (r: Resultado)
    requires forall id :: id in ids <==> id in demandas
    requires insumos.Keys == demandas.Keys && Loaded(insumos, stock, minimos)
    ensures r.Sucesso? || r.erro.SaldoInsuficiente?
    ensures r.Sucesso? <==> Disponiveis(stock, demandas)
  {
    for k := 0 to |ids|
      invariant forall i :: 0 <= i < k ==> demandas[ids[i]] <= stock[ids[i]] as real
    {
      if insumos[ids[k]].quantidadeEstoque < demandas[ids[k]] {
        return Falha(SaldoInsuficiente(ids[k]));
      }
    }
    r := Sucesso;
  }

  ghost predicate Critico(saldo: real, demanda: real, minimo: real) {
    Left(saldo, demanda) <= minimo
  }

  /** The needed ingredients the debit leaves at or below their minimum. */
  ghost function CriticosDe(stock: map<Id, int>, demandas: map<Id, real>, minimos: map<Id, int>): set<Id> {
    set id | id in demandas && id in stock && Critico(stock[id] as real, demandas[id], MinimoDe(minimos, id) as real)
  }

  lemma CriticosAre(stock: map<Id, int>, demandas: map<Id, real>, minimos: map<Id, int>, id: Id)
    ensures id in CriticosDe(stock, demandas, minimos) <==>
            && id in demandas && id in stock
            && stock[id] as real - demandas[id] <= (if id in minimos then minimos[id] else 0) as real
  {
  }

  /** Each of them in turn, each once, in ascending order. */
  ghost predicate Reports(alertas: seq<Id>, criticos: set<Id>) {
    StrictlyAscending(alertas) && forall id :: id in alertas <==> id in criticos
  }

  /** Those of the first k ids that are critical. */
  ghost predicate ReportsUpTo(alertas: seq<Id>, criticos: set<Id>, ids: seq<Id>, k: nat)
    requires k <= |ids|
  {
    StrictlyAscending(alertas) && forall id :: id in alertas <==> id in criticos && id in ids[..k]
  }

  lemma ReportNext(alertas: seq<Id>, criticos: set<Id>, ids: seq<Id>, k: nat)
    requires StrictlyAscending(ids) && k < |ids| && ReportsUpTo(alertas, criticos, ids, k)
    ensures ReportsUpTo(alertas + if ids[k] in criticos then [ids[k]] else [], criticos, ids, k + 1)
  {
    PrefixGrows(ids, k);
    forall i | 0 <= i < |alertas| ensures alertas[i] < ids[k] {
      assert alertas[i] in ids[..k];
    }
  }

  /** One debit, and whether it leaves the ingredient at or below its minimum. */
  method DebitarUma(insumos: map<Id, Insumo>, id: Id, demanda: real) returns (ok: bool, critico: bool)
    requires Keyed(insumos) && id in insumos
    modifies insumos[id]
    ensures ok <==> InStock(old(Saldos(insumos))[id], demanda)
    ensures ok ==> Saldos(insumos) == old(Saldos(insumos))[id := Left(old(Saldos(insumos))[id], demanda)]
    ensures ok ==> critico == Critico(old(Saldos(insumos))[id], demanda, insumos[id].estoqueMinimo)
  {
    ok := insumos[id].DebitarEstoque(demanda);
    critico := insumos[id].quantidadeEstoque <= insumos[id].estoqueMinimo;
  }

  /** The debit loop of a sale, its rows and the ingredients left at or below their minimum. */
  method DebitarDemandas(insumos: map<Id, Insumo>, ids: seq<Id>, demandas: map<Id, real>,
                         ghost stock: map<Id, int>, ghost minimos: map<Id, int>)
    returns (ok: bool, entries: seq<Entry>, alertas: seq<Id>)
    requires StrictlyAscending(ids) && (forall id :: id in ids <==> id in demandas)
    requires insumos.Keys == demandas.Keys && Loaded(insumos, stock, minimos) && Disponiveis(stock, demandas)
    modifies set id | id in insumos :: insumos[id]
    ensures ok <==> AllPositive(demandas)
    ensures ok ==> LeftOver(Saldos(insumos), stock, demandas) && ExitEntries(entries, ids, demandas)
    ensures ok ==> Reports(alertas, CriticosDe(stock, demandas, minimos))
  {
    ghost var criticos := CriticosDe(stock, demandas, minimos);
    entries, alertas := [], [];
    for k := 0 to |ids|
      invariant LeftUpTo(Saldos(insumos), ids[..k], stock, demandas)
      invariant ExitEntries(entries, ids[..k], demandas)
      invariant ReportsUpTo(alertas, criticos, ids, k)
    {
      var id := ids[k];
      ghost var antes := Saldos(insumos);
      LeftNext(antes, ids, k, stock, demandas);
      ExitEntriesNext(entries, ids, k, demandas);
      ReportNext(alertas, criticos, ids, k);
      var critico;
      ok, critico := DebitarUma(insumos, id, demandas[id]);
      if !ok {
        return false, [], [];
      }
      assert critico <==> id in criticos;
      alertas := alertas + if critico then [id] else [];
      entries := entries + [Entry(Added, Movimentacao(id, Saida, demandas[id]))];
    }
    assert ids[..|ids|] == ids;
    ok := true;
  }

  // ---------------------------------------------------------------- the sale

  ghost predicate Vendavel(cash: Cash, tenant: Id, formaPagamento: string,
                           itens: seq<ItemPedido>, catalogo: map<Id, Produto>)
  {
    && itens != []
    && !Blank(formaPagamento)
    && OpenIndex(cash.caixas, tenant) < |cash.caixas|
    && forall i :: i in itens ==> i.produto in catalogo && catalogo[i.produto].ativo
  }

  /** The items of the sale, each with its product's current price. */
  ghost function ItensDe(itens: seq<ItemPedido>, catalogo: map<Id, Produto>): (r: seq<ItemVenda>)
    requires forall i :: i in itens ==> i.produto in catalogo
    ensures |r| == |itens|
    ensures forall k :: 0 <= k < |itens| ==>
              r[k] == ItemVenda(itens[k].produto, itens[k].quantidade, catalogo[itens[k].produto].preco)
  {
    if itens == [] then []
    else
      var last := itens[|itens| - 1];
      ItensDe(itens[..|itens| - 1], catalogo) + [ItemVenda(last.produto, last.quantidade, catalogo[last.produto].preco)]
  }

  lemma {:induction false} ItensDePositivos(itens: seq<ItemPedido>, catalogo: map<Id, Produto>)
    requires forall i :: i in itens ==> i.produto in catalogo && i.quantidade > 0.0
    ensures forall i :: i in ItensDe(itens, catalogo) ==> i.quantidade > 0.0
  {
    if itens != [] {
      ItensDePositivos(itens[..|itens| - 1], catalogo);
    }
  }

  method MontarVenda(caixa: Id, formaPagamento: string, itens: seq<ItemPedido>, catalogo: map<Id, Produto>)
    returns (venda: Venda)
    requires !Blank(formaPagamento)
    requires forall i :: i in itens ==> i.produto in catalogo && i.quantidade > 0.0
    ensures fresh(venda) && venda.Valid() && venda.caixa == caixa
    ensures venda.formaPagamento == Trimmed(formaPagamento) && venda.itens == ItensDe(itens, catalogo)
  {
    venda := new Venda(caixa, formaPagamento);
    for k := 0 to |itens|
      invariant fresh(venda) && venda.Valid() && venda.itens == ItensDe(itens[..k], catalogo)
    {
      var _ := venda.AdicionarItem(ItemVenda(itens[k].produto, itens[k].quantidade, catalogo[itens[k].produto].preco));
      assert itens[..k + 1][..k] == itens[..k];
    }
    assert itens[..|itens|] == itens;
  }

  /** A sale assembled for the open session that was loaded. */
  ghost predicate Lancavel(row: Caixa, caixaAberto: FechamentoCaixa, venda: Venda)
    reads caixaAberto, venda
  {
    && row.aberto && caixaAberto.ToRow() == row
    && venda.Valid() && venda.caixa == caixaAberto.id && venda.valorTotal >= 0
  }

  /** What a sale of these items inserts and updates. */
  ghost function Lancamento(c: Caixa, k: nat, formaPagamento: string, itens: seq<ItemVenda>): Inclusao {
    ComVenda(k, ComMaisUma(c, itens), VendaRegistrada(c.id, formaPagamento, itens, TotalOf(itens)))
  }

  /** The database accepts the sale, its items and the session's new total. */
  ghost predicate Registravel(cash: Cash, tenant: Id, formaPagamento: string,
                              itens: seq<ItemPedido>, catalogo: map<Id, Produto>)
    requires Vendavel(cash, tenant, formaPagamento, itens, catalogo)
  {
    var k := OpenIndex(cash.caixas, tenant);
    InclusaoGravavel(Lancamento(cash.caixas[k], k, Trimmed(formaPagamento), ItensDe(itens, catalogo)))
  }

  /** Every column the sale and its items are stored in holds its value. */
  lemma SaleFitsIff(v: VendaRegistrada)
    ensures VendaGravavel(v) <==>
            && |v.formaPagamento| <= 50 && '\0' !in v.formaPagamento
            && (forall i :: i in v.itens ==>
                  && 0 < RoundAway(10000.0 * i.quantidade) < COLUMN_LIMIT
                  && i.precoUnitario < COLUMN_LIMIT && 0 <= i.Subtotal() < COLUMN_LIMIT)
            && 0 <= v.valorTotal < COLUMN_LIMIT
  {
    forall i | i in v.itens
      ensures ItemGravavel(i) <==>
              && 0 < RoundAway(10000.0 * i.quantidade) < COLUMN_LIMIT
              && i.precoUnitario < COLUMN_LIMIT && 0 <= i.Subtotal() < COLUMN_LIMIT
    {
    }
  }

  /** So does the session's total, with the sale's added to it. */
  lemma LaunchFitsIff(c: Caixa, k: nat, formaPagamento: string, itens: seq<ItemVenda>)
    ensures InclusaoGravavel(Lancamento(c, k, formaPagamento, itens)) <==>
            && VendaGravavel(VendaRegistrada(c.id, formaPagamento, itens, TotalOf(itens)))
            && -COLUMN_LIMIT < c.totalVendas + TotalOf(itens) < COLUMN_LIMIT
  {
  }

  // ---------------------------------------------------------------- the database

  class Database {
    var stock: map<Id, int>
    var minimos: map<Id, int>
    var ledger: seq<Movimentacao>
    var cash: Cash

    ghost function Stored(): Tables
      reads this
    {
      Tables(stock, ledger)
    }

    constructor ()
      ensures Stored() == Tables(map[], []) && minimos == map[] && cash == Cash([], [])
    {
      stock, minimos, ledger, cash := map[], map[], [], Cash([], []);
    }

    /** SELECT ... WHERE "Id" = ANY(ids) ORDER BY "Id" ASC FOR UPDATE: a tracked object per row found. */
    method ObterPorIdsParaAtualizacao(ids: seq<Id>) returns (rows: map<Id, Insumo>)
      ensures forall id :: id in rows <==> id in ids && id in stock
      ensures Loaded(rows, stock, minimos) && forall id :: id in rows ==> fresh(rows[id])
    {
      rows := map[];
      for k := 0 to |ids|
        invariant forall id :: id in rows <==> id in ids[..k] && id in stock
        invariant Loaded(rows, stock, minimos) && forall id :: id in rows ==> fresh(rows[id])
      {
        if ids[k] in stock {
          var insumo := new Insumo(ids[k], stock[ids[k]], MinimoDe(minimos, ids[k]) as real);
          rows := rows[ids[k] := insumo];
        }
        assert ids[..k + 1] == ids[..k] + [ids[k]];
      }
      assert ids[..|ids|] == ids;
    }

    /** The ledger is append-only: a changed or deleted row refuses the whole save. So does any
        value that its column or a CHECK does not accept. Otherwise everything is stored. */
    method SaveChanges(saldos: map<Id, real>, entries: seq<Entry>, inclusao: Inclusao) returns (ok: bool)
      requires inclusao.ComVenda? ==> inclusao.k < |cash.caixas|
      modifies this
      ensures ok <==> AllLedgerable(entries) && SaldosGravaveis(saldos) && InclusaoGravavel(inclusao)
      ensures !ok ==> stock == old(stock) && ledger == old(ledger) && cash == old(cash) && minimos == old(minimos)
      ensures ok ==> ledger == old(ledger) + AddedRows(entries) && stock == old(stock) + Gravados(saldos)
      ensures ok ==> cash == if inclusao.ComVenda? then
                               Cash(old(cash.caixas)[inclusao.k := inclusao.sessao], old(cash.vendas) + [inclusao.venda])
                             else old(cash)
      ensures ok ==> minimos == if inclusao.ComInsumo? then old(minimos)[inclusao.id := RoundAway(inclusao.minimo)]
                                else old(minimos)
    {
      var added: seq<Movimentacao> := [];
      for k := 0 to |entries|
        invariant forall i :: 0 <= i < k ==> Ledgerable(entries[i])
        invariant added == AddedRows(entries[..k])
      {
        var e := entries[k];
        if !Ledgerable(e) {
          assert e in entries;
          return false;
        }
        added := added + if e.state.Added? then [e.row] else [];
        assert entries[..k + 1][..k] == entries[..k];
      }
      assert entries[..|entries|] == entries;
      if !SaldosGravaveis(saldos) || !InclusaoGravavel(inclusao) {
        return false;
      }
      stock := stock + Gravados(saldos);
      ledger := ledger + added;
      match inclusao {
        case SoEstoque =>
        case ComInsumo(id, minimo) =>
          minimos := minimos[id := RoundAway(minimo)];
        case ComVenda(k, sessao, venda) =>
          cash := Cash(cash.caixas[k := sessao], cash.vendas + [venda]);
      }
      ok := true;
    }

    /** The save that ends a debit, alone or with the sale that caused it. */
    method Confirmar(saldos: map<Id, real>, demandas: map<Id, real>, entries: seq<Entry>, inclusao: Inclusao)
      returns (r: Resultado)
      requires LeftOver(saldos, stock, demandas)
      requires ExitEntries(entries, Ascending(demandas.Keys), demandas)
      requires !inclusao.ComInsumo? && (inclusao.ComVenda? ==> inclusao.k < |cash.caixas|)
      modifies this
      ensures r.Sucesso? <==> CanDebit(old(stock), demandas) && InclusaoGravavel(inclusao)
      ensures Stored() == if r.Sucesso? then Debit(old(Stored()), demandas) else old(Stored())
      ensures cash == if r.Sucesso? && inclusao.ComVenda? then
                        Cash(old(cash.caixas)[inclusao.k := inclusao.sessao], old(cash.vendas) + [inclusao.venda])
                      else old(cash)
      ensures minimos == old(minimos)
      ensures r.Sucesso? || r == Falha(RestricaoDoBanco)
    {
      SaveDecides(entries, saldos, stock, demandas);
      SavedDebit(Stored(), demandas, saldos, entries);
      var ok := SaveChanges(saldos, entries, inclusao);
      r := if ok then Sucesso else Falha(RestricaoDoBanco);
      if ok {
        assert stock == Debit(old(Stored()), demandas).stock;
        assert ledger == Debit(old(Stored()), demandas).ledger;
      }
    }

    // -------------------------------------------------------------- stock use cases

    /** RegistrarEntrada: lock the row, credit it, write the entry. */
    method RegistrarEntrada(id: Id, quantidade: real) returns (r: Resultado)
      modifies this
      ensures r.Sucesso? <==> CanCredit(old(stock), id, quantidade)
      ensures Stored() == if r.Sucesso? then Credit(old(Stored()), id, quantidade) else old(Stored())
      ensures r.Sucesso? ==> id in old(stock) && 0.0 < quantidade && 0 < RoundAway(quantidade) < COLUMN_LIMIT
      ensures r.Sucesso? ==> stock == old(stock)[id := RoundAway(old(stock)[id] as real + quantidade)]
      ensures r.Sucesso? && old(stock)[id] >= 0 ==> stock[id] == old(stock)[id] + RoundAway(quantidade)
      ensures r.Sucesso? ==> ledger == old(ledger) + [Movimentacao(id, Entrada, quantidade)]
      ensures cash == old(cash) && minimos == old(minimos)
    {
      if quantidade <= 0.0 {
        return Falha(QuantidadeInvalida);
      }
      var insumos := ObterPorIdsParaAtualizacao([id]);
      if id !in insumos {
        return Falha(InsumoInexistente);
      }
      var _ := insumos[id].CreditarEstoque(quantidade);
      var entries := [Entry(Added, Movimentacao(id, Entrada, quantidade))];
      SingleEntry(Movimentacao(id, Entrada, quantidade));
      var ok := SaveChanges(Saldos(insumos), entries, SoEstoque);
      r := if ok then Sucesso else Falha(RestricaoDoBanco);
      assert ok ==> stock == Credit(old(Stored()), id, quantidade).stock;
      if ok {
        CreditIs(old(Stored()), id, quantidade);
      }
    }

    /** CadastrarInsumo, under a fresh id: with a positive initial load it is credited and entered
        in the ledger; otherwise only the row is inserted. */
    method CadastrarInsumo(id: Id, estoqueMinimo: real, saldoInicial: real) returns (r: Resultado)
      modifies this
      ensures r.Sucesso? <==>
              0.0 <= estoqueMinimo && Storable(RoundAway(estoqueMinimo)) && CanRegister(old(stock), id, saldoInicial)
      ensures Stored() == if r.Sucesso? then Register(old(Stored()), id, saldoInicial) else old(Stored())
      ensures r.Sucesso? ==> id !in old(stock)
      ensures r.Sucesso? && saldoInicial > 0.0 ==>
                && stock == old(stock)[id := RoundAway(saldoInicial)]
                && ledger == old(ledger) + [Movimentacao(id, Entrada, saldoInicial)]
      ensures r.Sucesso? && saldoInicial <= 0.0 ==> stock == old(stock)[id := 0] && ledger == old(ledger)
      ensures minimos == if r.Sucesso? then old(minimos)[id := RoundAway(estoqueMinimo)] else old(minimos)
      ensures cash == old(cash)
    {
      if estoqueMinimo < 0.0 {
        return Falha(MinimoInvalido);
      }
      if id in stock {
        return Falha(RestricaoDoBanco);
      }
      var insumo := new Insumo(id, 0, estoqueMinimo);
      var entries: seq<Entry> := [];
      if saldoInicial > 0.0 {
        var _ := insumo.CreditarEstoque(saldoInicial);
        entries := [Entry(Added, Movimentacao(id, Entrada, saldoInicial))];
      }
      SingleEntry(Movimentacao(id, Entrada, saldoInicial));
      var ok := SaveChanges(Saldos(map[id := insumo]), entries, ComInsumo(id, estoqueMinimo));
      r := if ok then Sucesso else Falha(RestricaoDoBanco);
      assert ok ==> stock == Register(old(Stored()), id, saldoInicial).stock;
    }

    /** ExecutarBaixaAsync: group, lock ascending, check and debit one ingredient at a time. */
    method ExecutarBaixa(itens: seq<Linha>) returns (r: Resultado)
      modifies this
      ensures r.Sucesso? <==> itens != [] && CanDebit(old(stock), Needs(itens))
      ensures Stored() == if r.Sucesso? then Debit(old(Stored()), Needs(itens)) else old(Stored())
      ensures r.Sucesso? ==> Debited(old(Stored()), Stored(), Needs(itens))
      ensures cash == old(cash) && minimos == old(minimos)
    {
      if itens == [] {
        return Falha(SemItens);
      }
      var demandas := Agrupar(itens);
      var ids := Ascending(demandas.Keys);
      var insumos := ObterPorIdsParaAtualizacao(ids);
      if insumos.Keys != demandas.Keys {
        return Falha(InsumoInexistente);
      }
      var entries;
      r, entries := BaixarComVerificacao(insumos, ids, demandas, stock, minimos);
      if r.Sucesso? {
        r := Confirmar(Saldos(insumos), demandas, entries, SoEstoque);
        DebitIs(old(Stored()), demandas);
      }
    }

    // -------------------------------------------------------------- the sale

    /** The checks made before anything is computed. */
    method ValidarVenda(tenant: Id, formaPagamento: string, itens: seq<ItemPedido>, catalogo: map<Id, Produto>)
      returns (r: Resultado)
      ensures r.Sucesso? <==> Vendavel(cash, tenant, formaPagamento, itens, catalogo)
      ensures r != Falha(DebitoRecusado)
      ensures r == Falha(SemItens) <==> itens == []
      ensures r == Falha(SemFormaPagamento) <==> itens != [] && Blank(formaPagamento)
      ensures r == Falha(SemCaixaAberto) <==>
              itens != [] && !Blank(formaPagamento) && NoneOpen(cash.caixas, tenant)
      ensures r.Sucesso? ==> forall i :: i in itens ==> i.produto in catalogo && catalogo[i.produto].ativo
      ensures r == Falha(ProdutoInexistente) ==> exists i :: i in itens && i.produto !in catalogo
      ensures r == Falha(ProdutoInativo) ==>
                exists i :: i in itens && i.produto in catalogo && !catalogo[i.produto].ativo
    {
      if itens == [] {
        return Falha(SemItens);
      }
      if Blank(formaPagamento) {
        return Falha(SemFormaPagamento);
      }
      if OpenIndex(cash.caixas, tenant) == |cash.caixas| {
        return Falha(SemCaixaAberto);
      }
      if exists i :: i in itens && i.produto !in catalogo {
        return Falha(ProdutoInexistente);
      }
      if exists i :: i in itens && !catalogo[i.produto].ativo {
        return Falha(ProdutoInativo);
      }
      r := Sucesso;
    }

    /** Its beginning: every row locked and found, every balance sufficient. */
    method TravarEVerificar(ids: seq<Id>, demandas: map<Id, real>) returns (r: Resultado, insumos: map<Id, Insumo>)
      requires forall id :: id in ids <==> id in demandas
      ensures r.Sucesso? <==> Disponiveis(stock, demandas)
      ensures r.Sucesso? || r.erro.InsumoInexistente? || r.erro.SaldoInsuficiente?
      ensures r.Sucesso? ==> insumos.Keys == demandas.Keys && Loaded(insumos, stock, minimos)
      ensures forall id :: id in insumos ==> fresh(insumos[id])
    {
      insumos := ObterPorIdsParaAtualizacao(ids);
      if insumos.Keys != demandas.Keys {
        return Falha(InsumoInexistente), insumos;
      }
      r := VerificarSaldo(insumos, ids, demandas, stock, minimos);
    }

    /** The session's totals, and what the sale inserts. */
    method LancarNoCaixa(k: nat, caixaAberto: FechamentoCaixa, venda: Venda) returns (inclusao: Inclusao)
      requires k < |cash.caixas| && Lancavel(cash.caixas[k], caixaAberto, venda)
      modifies caixaAberto
      ensures inclusao == Lancamento(cash.caixas[k], k, venda.formaPagamento, venda.itens)
    {
      var _ := caixaAberto.RegistrarVenda(venda.valorTotal);
      var registrada := VendaRegistrada(venda.caixa, venda.formaPagamento, venda.itens, venda.valorTotal);
      inclusao := ComVenda(k, caixaAberto.ToRow(), registrada);
    }

    /** The session's totals, then the save of everything tracked. */
    method LancarEConfirmar(saldos: map<Id, real>, demandas: map<Id, real>, entries: seq<Entry>,
                            k: nat, caixaAberto: FechamentoCaixa, venda: Venda)
      returns (r: Resultado)
      requires LeftOver(saldos, stock, demandas) && ExitEntries(entries, Ascending(demandas.Keys), demandas)
      requires k < |cash.caixas| && Lancavel(cash.caixas[k], caixaAberto, venda)
      modifies this, caixaAberto
      ensures r.Sucesso? <==>
              && CanDebit(old(stock), demandas)
              && InclusaoGravavel(Lancamento(old(cash.caixas)[k], k, venda.formaPagamento, venda.itens))
      ensures Stored() == if r.Sucesso? then Debit(old(Stored()), demandas) else old(Stored())
      ensures cash == if r.Sucesso? then Sell(old(cash), k, venda.formaPagamento, venda.itens) else old(cash)
      ensures minimos == old(minimos)
      ensures r.Sucesso? || r == Falha(RestricaoDoBanco)
    {
      var inclusao := LancarNoCaixa(k, caixaAberto, venda);
      r := Confirmar(saldos, demandas, entries, inclusao);
    }

    /** The end of the transaction of a sale, every balance having been checked and the sale assembled. */
    method DebitarEConfirmar(insumos: map<Id, Insumo>, ids: seq<Id>, demandas: map<Id, real>,
                             k: nat, caixaAberto: FechamentoCaixa, venda: Venda)
      returns (r: Resultado, alertas: seq<Id>)
      requires ids == Ascending(demandas.Keys) && insumos.Keys == demandas.Keys
      requires Loaded(insumos, stock, minimos) && Disponiveis(stock, demandas)
      requires k < |cash.caixas| && Lancavel(cash.caixas[k], caixaAberto, venda)
      modifies this, caixaAberto, set id | id in insumos :: insumos[id]
      ensures r.Sucesso? <==>
              && CanDebit(old(stock), demandas)
              && InclusaoGravavel(Lancamento(old(cash.caixas)[k], k, venda.formaPagamento, venda.itens))
      ensures Stored() == if r.Sucesso? then Debit(old(Stored()), demandas) else old(Stored())
      ensures cash == if r.Sucesso? then Sell(old(cash), k, venda.formaPagamento, venda.itens) else old(cash)
      ensures minimos == old(minimos)
      ensures AllPositive(demandas) ==> r != Falha(DebitoRecusado)
      ensures r.Sucesso? ==> Reports(alertas, CriticosDe(old(stock), demandas, old(minimos)))
    {
      if CanDebit(stock, demandas) {
        DebitNeedsBalance(stock, demandas);
      }
      var ok, entries;
      ok, entries, alertas := DebitarDemandas(insumos, ids, demandas, stock, minimos);
      if !ok {
        return Falha(DebitoRecusado), [];
      }
      r := LancarEConfirmar(Saldos(insumos), demandas, entries, k, caixaAberto, venda);
    }

    /** The transaction of a sale: lock ascending, check every balance, assemble the sale, then
        debit, add the rows, the sale and its amount to the session, and save it all at once. */
    method VenderEmTransacao(k: nat, caixaAberto: FechamentoCaixa, formaPagamento: string,
                             itens: seq<ItemPedido>, catalogo: map<Id, Produto>, demandas: map<Id, real>)
      returns (r: Resultado, alertas: seq<Id>)
      requires k < |cash.caixas| && cash.caixas[k].aberto && caixaAberto.ToRow() == cash.caixas[k]
      requires !Blank(formaPagamento)
      requires forall i :: i in itens ==> i.produto in catalogo && i.quantidade > 0.0
      modifies this, caixaAberto
      ensures r.Sucesso? <==>
              && CanDebit(old(stock), demandas)
              && InclusaoGravavel(Lancamento(old(cash.caixas)[k], k, Trimmed(formaPagamento), ItensDe(itens, catalogo)))
      ensures Stored() == if r.Sucesso? then Debit(old(Stored()), demandas) else old(Stored())
      ensures cash == if r.Sucesso? then Sell(old(cash), k, Trimmed(formaPagamento), ItensDe(itens, catalogo))
                      else old(cash)
      ensures minimos == old(minimos)
      ensures AllPositive(demandas) ==> r != Falha(DebitoRecusado)
      ensures r.Sucesso? ==> Reports(alertas, CriticosDe(old(stock), demandas, old(minimos)))
    {
      if CanDebit(stock, demandas) {
        DebitNeedsBalance(stock, demandas);
      }
      var ids := Ascending(demandas.Keys);
      var insumos;
      r, insumos := TravarEVerificar(ids, demandas);
      if r.Falha? {
        return r, [];
      }
      var venda := MontarVenda(caixaAberto.id, formaPagamento, itens, catalogo);
      ItensDePositivos(itens, catalogo);
      TotalNonNegative(venda.itens);
      r, alertas := DebitarEConfirmar(insumos, ids, demandas, k, caixaAberto, venda);
    }

    /** ExecutarAsync: every refusal comes before anything is stored. `alertas` are the
        ingredients the sale left at or below their minimum. */
    method RegistrarVenda(tenant: Id, formaPagamento: string, itens: seq<ItemPedido>, catalogo: map<Id, Produto>)
      returns (r: Resultado, alertas: seq<Id>)
      modifies this
      ensures r.Sucesso? <==>
              && Vendavel(old(cash), tenant, formaPagamento, itens, catalogo)
              && (forall i :: i in itens ==> i.quantidade > 0.0)
              && CanDebit(old(stock), Needs(Explosao(itens, catalogo)))
              && Registravel(old(cash), tenant, formaPagamento, itens, catalogo)
      ensures Stored() == if r.Sucesso? then Debit(old(Stored()), Needs(Explosao(itens, catalogo))) else old(Stored())
      ensures cash == if r.Sucesso? then Do(old(cash), Vender(tenant, Trimmed(formaPagamento), ItensDe(itens, catalogo)))
                      else old(cash)
      ensures minimos == old(minimos)
      ensures r.Sucesso? ==> Debited(old(Stored()), Stored(), Needs(Explosao(itens, catalogo)))
      ensures r.Sucesso? ==> Sold(old(cash), cash, tenant, Trimmed(formaPagamento), ItensDe(itens, catalogo))
      ensures RecipesPositive(catalogo) ==> r != Falha(DebitoRecusado)
      ensures r.Sucesso? ==> Reports(alertas, CriticosDe(old(stock), Needs(Explosao(itens, catalogo)), old(minimos)))
    {
      alertas := [];
      r := ValidarVenda(tenant, formaPagamento, itens, catalogo);
      if r.Sucesso? {
        var ok, demandas := ExplodirFichas(itens, catalogo);
        if ok {
          var k := OpenIndex(cash.caixas, tenant);
          var caixaAberto := new FechamentoCaixa(cash.caixas[k]);
          r, alertas := VenderEmTransacao(k, caixaAberto, formaPagamento, itens, catalogo, demandas);
          DebitIs(old(Stored()), demandas);
          if r.Sucesso? {
            Sells(old(cash), tenant, Trimmed(formaPagamento), ItensDe(itens, catalogo));
          }
          if RecipesPositive(catalogo) {
            NeedsPositive(itens, catalogo);
          }
        } else {
          r := Falha(QuantidadeInvalida);
        }
      }
    }

    // -------------------------------------------------------------- cash use cases

    /** AbrirCaixa, under a fresh id: an open session of the tenant is returned as it is. */
    method AbrirCaixa(tenant: Id, novo: Id) returns (caixa: Caixa)
      modifies this`cash
      ensures cash == Do(old(cash), Abrir(tenant, novo))
      ensures NoneOpen(old(cash.caixas), tenant) ==>
                && caixa == Caixa(novo, tenant, true, 0, 0)
                && cash == Cash(old(cash.caixas) + [caixa], old(cash.vendas))
      ensures !NoneOpen(old(cash.caixas), tenant) ==> cash == old(cash)
      ensures caixa in cash.caixas && OpenFor(caixa, tenant)
    {
      var k := OpenIndex(cash.caixas, tenant);
      if k < |cash.caixas| {
        return cash.caixas[k];
      }
      caixa := Caixa(novo, tenant, true, 0, 0);
      cash := cash.(caixas := cash.caixas + [caixa]);
    }

    /** FecharCaixa, as far as the session itself. */
    method FecharCaixa(tenant: Id) returns (r: Resultado)
      modifies this`cash
      ensures cash == Do(old(cash), Fechar(tenant))
      ensures r.Sucesso? <==> !NoneOpen(old(cash.caixas), tenant)
      ensures r.Sucesso? ==> Closed(old(cash), cash, tenant)
      ensures r.Falha? ==> cash == old(cash) && r == Falha(SemCaixaAberto)
      ensures OneOpenPerTenant(old(cash.caixas)) ==> NoneOpen(cash.caixas, tenant)
      ensures r.Sucesso? <==> OpenIndex(old(cash.caixas), tenant) < |old(cash.caixas)|
    {
      Closes(cash, tenant);
      var k := OpenIndex(cash.caixas, tenant);
      if k == |cash.caixas| {
        return Falha(SemCaixaAberto);
      }
      var caixaAberto := new FechamentoCaixa(cash.caixas[k]);
      var _ := caixaAberto.Encerrar();
      cash := cash.(caixas := cash.caixas[k := caixaAberto.ToRow()]);
      r := Sucesso;
    }

  }

  // ---------------------------------------------------------------- what the database alone refuses

  /** With balances that fit their column, a debit whose amounts are positive and on stock is
      refused exactly when some need rounds to nothing. */
  lemma DebitRefusedIff(stock: map<Id, int>, needs: map<Id, real>)
    requires forall id :: id in stock ==> Storable(stock[id])
    requires Disponiveis(stock, needs) && AllPositive(needs)
    ensures !CanDebit(stock, needs) <==> exists id :: id in needs && RoundAway(needs[id]) == 0
  {
    forall id | id in needs ensures Covers(stock[id], needs[id]) <==> RoundAway(needs[id]) > 0 {
      StoredBalanceCovers(stock[id], needs[id]);
    }
  }

  lemma OneLineNeeds(itens: seq<ItemPedido>, catalogo: map<Id, Produto>, ficha: FichaLinha)
    requires |itens| == 1 && itens[0].produto in catalogo && catalogo[itens[0].produto].fichaTecnica == [ficha]
    ensures Needs(Explosao(itens, catalogo)) == map[ficha.insumo := ConsumoDe(itens[0], ficha)]
  {
    var l := Linha(ficha.insumo, ConsumoDe(itens[0], ficha));
    assert [ficha][..0] == [] && itens[..0] == [];
    assert Consumo(itens[0], [ficha]) == [l];
    assert Explosao(itens, catalogo) == [l];
    assert [l][..0] == [];
    assert Total([l], l.insumo) == l.quantidade;
    assert Ids([l]) == {l.insumo};
  }

  lemma OneItemSale(item: ItemPedido, catalogo: map<Id, Produto>)
    requires item.produto in catalogo
    ensures ItensDe([item], catalogo) == [ItemVenda(item.produto, item.quantidade, catalogo[item.produto].preco)]
    ensures TotalOf(ItensDe([item], catalogo))
            == ItemVenda(item.produto, item.quantidade, catalogo[item.produto].preco).Subtotal()
  {
    assert [item][..0] == [];
    var i := ItemVenda(item.produto, item.quantidade, catalogo[item.produto].preco);
    assert [i][..0] == [];
  }

  lemma PixIsPlain()
    ensures !Blank("PIX") && Trimmed("PIX") == "PIX"
  {
    assert "PIX"[0] in "PIX" && !IsWhiteSpace('P') && !IsWhiteSpace('X');
  }

  /** It happens: 0.4 of a product whose recipe takes 0.0001 of an ingredient with 1.0 in stock.
      The order passes every check of the application, and the need of 0.00004 is refused. */
  lemma TinyNeedRefused()
    ensures var cash := Cash([Caixa(0, 0, true, 0, 0)], []);
            var itens, catalogo := [ItemPedido(0, 0.4)], map[0 := Produto(100, true, [FichaLinha(1, 1.0)])];
            var stock, needs := map[1 := 10000], Needs(Explosao(itens, catalogo));
            && Vendavel(cash, 0, "PIX", itens, catalogo) && Disponiveis(stock, needs) && AllPositive(needs)
            && Registravel(cash, 0, "PIX", itens, catalogo)
            && !CanDebit(stock, needs)
  {
    var itens, catalogo := [ItemPedido(0, 0.4)], map[0 := Produto(100, true, [FichaLinha(1, 1.0)])];
    OneLineNeeds(itens, catalogo, FichaLinha(1, 1.0));
    OneItemSale(itens[0], catalogo);
    var stock, needs := map[1 := 10000], Needs(Explosao(itens, catalogo));
    assert 1 in needs && needs[1] == 0.4;
    assert !Covers(stock[1], needs[1]);
    PixIsPlain();
  }

  /** So does the item itself: 0.00004 of a product without a recipe. */
  lemma TinyQuantityRefused()
    ensures var cash := Cash([Caixa(0, 0, true, 0, 0)], []);
            var itens, catalogo := [ItemPedido(0, 0.00004)], map[0 := Produto(100, true, [])];
            && Vendavel(cash, 0, "PIX", itens, catalogo) && CanDebit(map[], Needs(Explosao(itens, catalogo)))
            && !Registravel(cash, 0, "PIX", itens, catalogo)
  {
    var itens, catalogo := [ItemPedido(0, 0.00004)], map[0 := Produto(100, true, [])];
    assert itens[..0] == [];
    assert Explosao(itens, catalogo) == [];
    OneItemSale(itens[0], catalogo);
    var item := ItemVenda(0, 0.00004, 100);
    assert item in ItensDe(itens, catalogo) && !ItemGravavel(item);
    PixIsPlain();
  }
}
