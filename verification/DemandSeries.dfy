/** What closing the cash session sends to the forecasting pipeline: the history of sales per day
    and, for each active product, the series of the fourteen days before the closing day. Times are
    milliseconds since the epoch, in UTC, as the database returns them. */
module DemandSeries {
  import opened Identifiers
  import opened Inventory

  const DAY: nat := 86400000
  const DAYS: nat := 14

  datatype Item = Item(produto: Id, quantidade: real)

  datatype VendaPassada = VendaPassada(dataHora: nat, concluida: bool, itens: seq<Item>) {
    function Dia(): nat {
      dataHora / DAY
    }
  }

  datatype Ponto = Ponto(data: nat, quantidade: nat)

  datatype Solicitacao = Solicitacao(produto: Id, dataAlvo: nat, historico: seq<real>)

  // ---------------------------------------------------------------- what is fetched

  /** Midnight fourteen days before the closing day; the clock is past the epoch's first fortnight. */
  function DataLimite(fechamento: nat): nat
    requires fechamento >= DAYS * DAY
  {
    (fechamento / DAY - DAYS) * DAY
  }

  /** ObterVendasConcluidasPorPeriodo */
  function Buscar(vendas: seq<VendaPassada>, inicio: nat): seq<VendaPassada> {
    if vendas == [] then []
    else
      var n := |vendas| - 1;
      Buscar(vendas[..n], inicio) + if vendas[n].concluida && vendas[n].dataHora >= inicio then [vendas[n]] else []
  }

  /** All there is to know of the fetch: the completed sales from `inicio` on, in order, once each. */
  lemma FetchParts(vendas: seq<VendaPassada>, v: VendaPassada, inicio: nat)
    ensures Buscar(vendas + [v], inicio)
            == Buscar(vendas, inicio) + if v.concluida && inicio <= v.dataHora then [v] else []
    ensures Buscar([], inicio) == []
  {
    assert (vendas + [v])[..|vendas|] == vendas;
  }

  /** A day is the 86,400,000 milliseconds from one midnight to the next. */
  lemma DayOf(v: VendaPassada, dia: nat)
    ensures v.Dia() == dia <==> dia * 86_400_000 <= v.dataHora < (dia + 1) * 86_400_000
  {
  }

  /** The limit falls on a day boundary: a sale is fetched by its day alone. */
  lemma FetchedByDay(v: VendaPassada, fechamento: nat)
    requires fechamento >= DAYS * DAY
    ensures v.dataHora >= DataLimite(fechamento) <==> v.Dia() + DAYS >= fechamento / DAY
  {
  }

  // ---------------------------------------------------------------- the history

  ghost function Dias(vendas: seq<VendaPassada>): set<nat> {
    set v | v in vendas :: v.Dia()
  }

  function VendasNoDia(vendas: seq<VendaPassada>, dia: nat): nat {
    if vendas == [] then 0
    else
      var n := |vendas| - 1;
      VendasNoDia(vendas[..n], dia) + if vendas[n].Dia() == dia then 1 else 0
  }

  lemma CountParts(vendas: seq<VendaPassada>, v: VendaPassada, dia: nat)
    ensures VendasNoDia(vendas + [v], dia) == VendasNoDia(vendas, dia) + if v.Dia() == dia then 1 else 0
    ensures VendasNoDia([], dia) == 0
  {
    assert (vendas + [v])[..|vendas|] == vendas;
  }

  /** GroupBy day, count, OrderBy day. */
  ghost function Historico(vendas: seq<VendaPassada>): (h: seq<Ponto>)
    ensures |h| == |Ascending(Dias(vendas))|
  {
    var dias := Ascending(Dias(vendas));
    seq(|dias|, k requires 0 <= k < |dias| => Ponto(dias[k], VendasNoDia(vendas, dias[k])))
  }

  ghost function Contagens(h: seq<Ponto>): nat {
    if h == [] then 0 else Contagens(h[..|h| - 1]) + h[|h| - 1].quantidade
  }

  /** The same sum over a list of days. */
  ghost function VendasNosDias(vendas: seq<VendaPassada>, dias: seq<nat>): nat {
    if dias == [] then 0 else VendasNosDias(vendas, dias[..|dias| - 1]) + VendasNoDia(vendas, dias[|dias| - 1])
  }

  lemma {:induction false} CountsAreSales(vendas: seq<VendaPassada>, dias: seq<nat>, h: seq<Ponto>)
    requires |h| == |dias| && forall k :: 0 <= k < |dias| ==> h[k] == Ponto(dias[k], VendasNoDia(vendas, dias[k]))
    ensures Contagens(h) == VendasNosDias(vendas, dias)
  {
    if h != [] {
      CountsAreSales(vendas, dias[..|dias| - 1], h[..|h| - 1]);
    }
  }

  lemma {:induction false} NoSalesNoCount(dias: seq<nat>)
    ensures VendasNosDias([], dias) == 0
  {
    if dias != [] {
      NoSalesNoCount(dias[..|dias| - 1]);
    }
  }

  /** One more sale is counted on its own day and on no other. */
  lemma {:induction false} OneMoreSale(vendas: seq<VendaPassada>, dias: seq<nat>)
    requires vendas != [] && StrictlyAscending(dias)
    ensures VendasNosDias(vendas, dias)
            == VendasNosDias(vendas[..|vendas| - 1], dias) + if vendas[|vendas| - 1].Dia() in dias then 1 else 0
  {
    if dias != [] {
      var n := |dias| - 1;
      OneMoreSale(vendas, dias[..n]);
      assert dias == dias[..n] + [dias[n]];
    }
  }

  lemma {:induction false} EverySaleCounted(vendas: seq<VendaPassada>, dias: seq<nat>)
    requires StrictlyAscending(dias) && forall v :: v in vendas ==> v.Dia() in dias
    ensures VendasNosDias(vendas, dias) == |vendas|
  {
    if vendas == [] {
      NoSalesNoCount(dias);
    } else {
      EverySaleCounted(vendas[..|vendas| - 1], dias);
      OneMoreSale(vendas, dias);
    }
  }

  lemma {:induction false} SomeSaleOn(vendas: seq<VendaPassada>, dia: nat)
    ensures VendasNoDia(vendas, dia) > 0 <==> dia in Dias(vendas)
  {
    if vendas != [] {
      var n := |vendas| - 1;
      SomeSaleOn(vendas[..n], dia);
      assert vendas == vendas[..n] + [vendas[n]];
    }
  }

  /** The history has strictly increasing dates, no empty day, and counts that add up to the
      number of sales it was made from. */
  lemma HistoryAddsUp(vendas: seq<VendaPassada>)
    ensures forall i, j :: 0 <= i < j < |Historico(vendas)| ==> Historico(vendas)[i].data < Historico(vendas)[j].data
    ensures forall p :: p in Historico(vendas) ==> p.quantidade == VendasNoDia(vendas, p.data) > 0
    ensures Contagens(Historico(vendas)) == |vendas|
  {
    var dias, h := Ascending(Dias(vendas)), Historico(vendas);
    forall p | p in h ensures p.quantidade == VendasNoDia(vendas, p.data) > 0 {
      PointCounts(vendas, p);
    }
    CountsAreSales(vendas, dias, h);
    EverySaleCounted(vendas, dias);
  }

  lemma PointCounts(vendas: seq<VendaPassada>, p: Ponto)
    requires p in Historico(vendas)
    ensures p.quantidade == VendasNoDia(vendas, p.data) > 0
  {
    var dias, h := Ascending(Dias(vendas)), Historico(vendas);
    var k :| 0 <= k < |h| && h[k] == p;
    assert dias[k] in dias;
    SomeSaleOn(vendas, p.data);
  }

  // ---------------------------------------------------------------- the series of one product

  function SomaItens(itens: seq<Item>, produto: Id): real {
    if itens == [] then 0.0
    else
      var n := |itens| - 1;
      SomaItens(itens[..n], produto) + if itens[n].produto == produto then itens[n].quantidade else 0.0
  }

  function VendidoNoDia(vendas: seq<VendaPassada>, dia: nat, produto: Id): real {
    if vendas == [] then 0.0
    else
      var n := |vendas| - 1;
      VendidoNoDia(vendas[..n], dia, produto)
      + if vendas[n].Dia() == dia then SomaItens(vendas[n].itens, produto) else 0.0
  }

  /** All there is to know of what a list of items sold of a product: an item of it counts whole,
      an item of another not at all. */
  lemma ItemParts(itens: seq<Item>, i: Item, produto: Id)
    ensures SomaItens(itens + [i], produto)
            == SomaItens(itens, produto) + if i.produto == produto then i.quantidade else 0.0
    ensures SomaItens([], produto) == 0.0
    ensures SomaItens([i], i.produto) == i.quantidade
  {
    assert (itens + [i])[..|itens|] == itens;
    assert [i][..0] == [];
  }

  lemma {:induction false} ItemsConcat(a: seq<Item>, b: seq<Item>, produto: Id)
    ensures SomaItens(a + b, produto) == SomaItens(a, produto) + SomaItens(b, produto)
  {
    if b == [] {
      assert a + b == a;
    } else {
      var n := |b| - 1;
      assert (a + b)[..|a + b| - 1] == a + b[..n];
      ItemsConcat(a, b[..n], produto);
    }
  }

  lemma SaleParts(vendas: seq<VendaPassada>, v: VendaPassada, dia: nat, produto: Id)
    ensures VendidoNoDia(vendas + [v], dia, produto)
            == VendidoNoDia(vendas, dia, produto) + if v.Dia() == dia then SomaItens(v.itens, produto) else 0.0
    ensures VendidoNoDia([], dia, produto) == 0.0
  {
    assert (vendas + [v])[..|vendas|] == vendas;
  }

  /** The items of one product. */
  ghost function ItensSo(itens: seq<Item>, produto: Id): seq<Item> {
    if itens == [] then []
    else
      ItensSo(itens[..|itens| - 1], produto)
      + if itens[|itens| - 1].produto == produto then [itens[|itens| - 1]] else []
  }

  /** The same sales, had they sold nothing else. */
  ghost function VendasSo(vendas: seq<VendaPassada>, produto: Id): (r: seq<VendaPassada>)
    ensures |r| == |vendas|
  {
    seq(|vendas|, k requires 0 <= k < |vendas| => vendas[k].(itens := ItensSo(vendas[k].itens, produto)))
  }

  lemma {:induction false} OwnItemsCount(itens: seq<Item>, produto: Id)
    ensures SomaItens(ItensSo(itens, produto), produto) == SomaItens(itens, produto)
    ensures forall i :: i in ItensSo(itens, produto) ==> i.produto == produto
  {
    if itens != [] {
      var n := |itens| - 1;
      OwnItemsCount(itens[..n], produto);
      ItemParts(ItensSo(itens[..n], produto), itens[n], produto);
      assert ItensSo(itens[..n], produto) + [] == ItensSo(itens[..n], produto);
    }
  }

  lemma {:induction false} OwnSalesCount(vendas: seq<VendaPassada>, dia: nat, produto: Id)
    ensures VendidoNoDia(VendasSo(vendas, produto), dia, produto) == VendidoNoDia(vendas, dia, produto)
  {
    if vendas != [] {
      var n := |vendas| - 1;
      OwnSalesCount(vendas[..n], dia, produto);
      OwnItemsCount(vendas[n].itens, produto);
      assert VendasSo(vendas, produto)[..n] == VendasSo(vendas[..n], produto);
    }
  }

  /** A product's series does not depend on what else was sold. */
  lemma OtherProductsIgnored(vendas: seq<VendaPassada>, hoje: nat, produto: Id)
    requires hoje >= DAYS
    ensures Serie(VendasSo(vendas, produto), hoje, produto) == Serie(vendas, hoje, produto)
  {
    forall k | 0 <= k < DAYS
      ensures Serie(VendasSo(vendas, produto), hoje, produto)[k] == Serie(vendas, hoje, produto)[k]
    {
      OwnSalesCount(vendas, Datas(hoje)[k], produto);
    }
  }

  /** Enumerable.Range(0, 14), from fourteen days before the closing day. */
  function Datas(hoje: nat): (d: seq<nat>)
    requires hoje >= DAYS
    ensures |d| == DAYS
  {
    seq(DAYS, k requires 0 <= k < DAYS => hoje - DAYS + k)
  }

  function Serie(vendas: seq<VendaPassada>, hoje: nat, produto: Id): (s: seq<real>)
    requires hoje >= DAYS
    ensures |s| == DAYS
  {
    seq(DAYS, k requires 0 <= k < DAYS => VendidoNoDia(vendas, Datas(hoje)[k], produto))
  }

  ghost function Soma(s: seq<real>): real {
    if s == [] then 0.0 else Soma(s[..|s| - 1]) + s[|s| - 1]
  }

  /** The quantity sold from day `de` on and before day `ate`. */
  ghost function VendidoEntre(vendas: seq<VendaPassada>, de: nat, ate: nat, produto: Id): real {
    if vendas == [] then 0.0
    else
      var n := |vendas| - 1;
      VendidoEntre(vendas[..n], de, ate, produto)
      + if de <= vendas[n].Dia() < ate then SomaItens(vendas[n].itens, produto) else 0.0
  }

  lemma {:induction false} OneMoreDay(vendas: seq<VendaPassada>, de: nat, ate: nat, produto: Id)
    requires de <= ate
    ensures VendidoEntre(vendas, de, ate + 1, produto)
            == VendidoEntre(vendas, de, ate, produto) + VendidoNoDia(vendas, ate, produto)
    ensures VendidoEntre(vendas, de, de, produto) == 0.0
  {
    if vendas != [] {
      OneMoreDay(vendas[..|vendas| - 1], de, ate, produto);
    }
  }

  lemma {:induction false} SlotsAddUp(vendas: seq<VendaPassada>, hoje: nat, produto: Id, k: nat)
    requires hoje >= DAYS && k <= DAYS
    ensures Soma(Serie(vendas, hoje, produto)[..k]) == VendidoEntre(vendas, hoje - DAYS, hoje - DAYS + k, produto)
  {
    if k == 0 {
      OneMoreDay(vendas, hoje - DAYS, hoje - DAYS, produto);
    } else {
      var s := Serie(vendas, hoje, produto);
      SlotsAddUp(vendas, hoje, produto, k - 1);
      assert s[..k][..k - 1] == s[..k - 1];
      OneMoreDay(vendas, hoje - DAYS, hoje - DAYS + k - 1, produto);
    }
  }

  ghost predicate HasSlot(dia: nat, hoje: nat, k: nat)
    requires hoje >= DAYS
  {
    k < DAYS && Datas(hoje)[k] == dia
  }

  /** A day has a slot exactly when it is one of the fourteen before the closing day, and never two. */
  lemma OneSlotPerDay(dia: nat, hoje: nat)
    requires hoje >= DAYS
    ensures (exists k: nat :: HasSlot(dia, hoje, k)) <==> dia < hoje <= dia + DAYS
    ensures forall j: nat, k: nat :: HasSlot(dia, hoje, j) && HasSlot(dia, hoje, k) ==> j == k
  {
    if dia < hoje <= dia + DAYS {
      assert HasSlot(dia, hoje, dia + DAYS - hoje);
    }
  }

  /** The quantity of a product in stored completed sales of the fourteen days before `hoje`. */
  ghost function ConcluidoAntes(vendas: seq<VendaPassada>, hoje: nat, produto: Id): real {
    if vendas == [] then 0.0
    else
      var n := |vendas| - 1;
      ConcluidoAntes(vendas[..n], hoje, produto)
      + if vendas[n].concluida && vendas[n].Dia() < hoje <= vendas[n].Dia() + DAYS
        then SomaItens(vendas[n].itens, produto) else 0.0
  }

  lemma {:induction false} FetchKeepsSales(vendas: seq<VendaPassada>, fechamento: nat, produto: Id)
    requires fechamento >= DAYS * DAY
    ensures VendidoEntre(Buscar(vendas, DataLimite(fechamento)), fechamento / DAY - DAYS, fechamento / DAY, produto)
            == ConcluidoAntes(vendas, fechamento / DAY, produto)
  {
    if vendas != [] {
      var n, inicio := |vendas| - 1, DataLimite(fechamento);
      FetchKeepsSales(vendas[..n], fechamento, produto);
      FetchedByDay(vendas[n], fechamento);
      SoldAppend(Buscar(vendas[..n], inicio), vendas[n], fechamento / DAY - DAYS, fechamento / DAY, produto);
      assert Buscar(vendas[..n], inicio) + [] == Buscar(vendas[..n], inicio);
    }
  }

  lemma SoldAppend(vendas: seq<VendaPassada>, v: VendaPassada, de: nat, ate: nat, produto: Id)
    ensures VendidoEntre(vendas + [v], de, ate, produto)
            == VendidoEntre(vendas, de, ate, produto) + if de <= v.Dia() < ate then SomaItens(v.itens, produto) else 0.0
  {
    assert (vendas + [v])[..|vendas|] == vendas;
  }

  /** From the stored sales to the published series, quantities are conserved: a product's
      fourteen slots add up to what completed sales of the fourteen days before the closing day
      sold of it. */
  lemma SeriesConserves(vendas: seq<VendaPassada>, fechamento: nat, produto: Id)
    requires fechamento >= DAYS * DAY
    ensures Soma(Serie(Buscar(vendas, DataLimite(fechamento)), fechamento / DAY, produto))
            == ConcluidoAntes(vendas, fechamento / DAY, produto)
  {
    var recentes, hoje := Buscar(vendas, DataLimite(fechamento)), fechamento / DAY;
    SlotsAddUp(recentes, hoje, produto, DAYS);
    assert Serie(recentes, hoje, produto)[..DAYS] == Serie(recentes, hoje, produto);
    FetchKeepsSales(vendas, fechamento, produto);
  }

  /** The quantity of a product in stored completed sales of one day. */
  ghost function ConcluidoNoDia(vendas: seq<VendaPassada>, dia: nat, produto: Id): real {
    if vendas == [] then 0.0
    else
      var n := |vendas| - 1;
      ConcluidoNoDia(vendas[..n], dia, produto)
      + if vendas[n].concluida && vendas[n].Dia() == dia then SomaItens(vendas[n].itens, produto) else 0.0
  }

  lemma {:induction false} DayKept(vendas: seq<VendaPassada>, inicio: nat, dia: nat, produto: Id)
    requires forall v :: v in vendas && v.Dia() == dia ==> v.dataHora >= inicio
    ensures VendidoNoDia(Buscar(vendas, inicio), dia, produto) == ConcluidoNoDia(vendas, dia, produto)
  {
    if vendas != [] {
      var n := |vendas| - 1;
      var antes, v := vendas[..n], vendas[n];
      DayKept(antes, inicio, dia, produto);
      assert v in vendas;
      if v.concluida && v.dataHora >= inicio {
        SaleParts(Buscar(antes, inicio), v, dia, produto);
      } else {
        assert Buscar(vendas, inicio) == Buscar(antes, inicio);
      }
    }
  }

  /** Nothing of a slot's day is lost by the fetch. */
  lemma SlotIsStored(vendas: seq<VendaPassada>, fechamento: nat, dia: nat, produto: Id)
    requires fechamento >= DAYS * DAY && dia + DAYS >= fechamento / DAY
    ensures VendidoNoDia(Buscar(vendas, DataLimite(fechamento)), dia, produto) == ConcluidoNoDia(vendas, dia, produto)
  {
    forall v | v in vendas && v.Dia() == dia ensures v.dataHora >= DataLimite(fechamento) {
      FetchedByDay(v, fechamento);
    }
    DayKept(vendas, DataLimite(fechamento), dia, produto);
  }

  ghost function VendasDesde(vendas: seq<VendaPassada>, dia: nat): nat {
    if vendas == [] then 0
    else
      var n := |vendas| - 1;
      VendasDesde(vendas[..n], dia) + if vendas[n].Dia() >= dia then 1 else 0
  }

  lemma {:induction false} FetchedAreRecent(vendas: seq<VendaPassada>, fechamento: nat)
    requires fechamento >= DAYS * DAY
    ensures forall v :: v in Buscar(vendas, DataLimite(fechamento)) ==> v.Dia() + DAYS >= fechamento / DAY
  {
    if vendas != [] {
      FetchedAreRecent(vendas[..|vendas| - 1], fechamento);
      FetchedByDay(vendas[|vendas| - 1], fechamento);
    }
  }

  lemma {:induction false} SlottedOrLater(vendas: seq<VendaPassada>, hoje: nat)
    requires hoje >= DAYS && forall v :: v in vendas ==> v.Dia() + DAYS >= hoje
    ensures VendasNosDias(vendas, Datas(hoje)) + VendasDesde(vendas, hoje) == |vendas|
  {
    if vendas == [] {
      NoSalesNoCount(Datas(hoje));
    } else {
      var n := |vendas| - 1;
      SlottedOrLater(vendas[..n], hoje);
      OneMoreSale(vendas, Datas(hoje));
      var dia := vendas[n].Dia();
      assert vendas[n] in vendas;
      OneSlotPerDay(dia, hoje);
      if k: nat :| HasSlot(dia, hoje, k) {
        assert Datas(hoje)[k] in Datas(hoje);
      }
    }
  }

  /** The two payloads differ by the closing day: the history counts its sales, and the series has
      no slot for them. */
  lemma HistoryExceedsSeries(vendas: seq<VendaPassada>, fechamento: nat)
    requires fechamento >= DAYS * DAY
    ensures var recentes, hoje := Buscar(vendas, DataLimite(fechamento)), fechamento / DAY;
            Contagens(Historico(recentes)) == VendasNosDias(recentes, Datas(hoje)) + VendasDesde(recentes, hoje)
  {
    var recentes, hoje := Buscar(vendas, DataLimite(fechamento)), fechamento / DAY;
    HistoryAddsUp(recentes);
    FetchedAreRecent(vendas, fechamento);
    SlottedOrLater(recentes, hoje);
  }

  /** One request per active product, in order, for the day after the closing. */
  method PublicarSeries(ativos: seq<Id>, vendas: seq<VendaPassada>, fechamento: nat)
    returns (publicadas: seq<Solicitacao>)
    requires fechamento >= DAYS * DAY
    ensures |publicadas| == |ativos|
    ensures forall k :: 0 <= k < |ativos| ==>
              && publicadas[k].produto == ativos[k] && publicadas[k].dataAlvo == fechamento / DAY + 1
              && |publicadas[k].historico| == 14
              && Soma(publicadas[k].historico) == ConcluidoAntes(vendas, fechamento / DAY, ativos[k])
              && forall s :: 0 <= s < 14 ==>
                   publicadas[k].historico[s] == ConcluidoNoDia(vendas, fechamento / DAY - 14 + s, ativos[k])
  {
    var vendasRecentes, hoje := Buscar(vendas, DataLimite(fechamento)), fechamento / DAY;
    publicadas := [];
    for k := 0 to |ativos|
      invariant |publicadas| == k
      invariant forall i :: 0 <= i < k ==>
                  publicadas[i] == Solicitacao(ativos[i], hoje + 1, Serie(vendasRecentes, hoje, ativos[i]))
    {
      publicadas := publicadas + [Solicitacao(ativos[k], hoje + 1, Serie(vendasRecentes, hoje, ativos[k]))];
    }
    forall k | 0 <= k < |ativos| ensures Soma(publicadas[k].historico) == ConcluidoAntes(vendas, hoje, ativos[k]) {
      SeriesConserves(vendas, fechamento, ativos[k]);
    }
    forall k, s | 0 <= k < |ativos| && 0 <= s < 14
      ensures publicadas[k].historico[s] == ConcluidoNoDia(vendas, hoje - 14 + s, ativos[k])
    {
      SlotIsStored(vendas, fechamento, hoje - 14 + s, ativos[k]);
    }
  }
}
