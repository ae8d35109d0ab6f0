/** Recipe explosion: from the items of a sale to what it asks of each ingredient. */
module Recipes {
  import opened Identifiers
  import opened Inventory

  datatype FichaLinha = FichaLinha(insumo: Id, quantidade: real)

  datatype Produto = Produto(preco: nat, ativo: bool, fichaTecnica: seq<FichaLinha>)

  datatype ItemPedido = ItemPedido(produto: Id, quantidade: real)

  function ConsumoDe(item: ItemPedido, ficha: FichaLinha): real {
    item.quantidade * ficha.quantidade
  }

  ghost function Consumo(item: ItemPedido, ficha: seq<FichaLinha>): (lines: seq<Linha>)
    ensures |lines| == |ficha|
  {
    if ficha == [] then []
    else
      var last := ficha[|ficha| - 1];
      Consumo(item, ficha[..|ficha| - 1]) + [Linha(last.insumo, ConsumoDe(item, last))]
  }

  /** Every recipe line of every item sold, in order. */
  ghost function Explosao(itens: seq<ItemPedido>, catalogo: map<Id, Produto>): seq<Linha>
    requires forall i :: i in itens ==> i.produto in catalogo
  {
    if itens == [] then []
    else
      var last := itens[|itens| - 1];
      Explosao(itens[..|itens| - 1], catalogo) + Consumo(last, catalogo[last.produto].fichaTecnica)
  }

  /** What one unit of a product takes of an ingredient: the recipe's lines of that ingredient. */
  ghost function TotalDaFicha(ficha: seq<FichaLinha>, id: Id): real {
    if ficha == [] then 0.0
    else
      var last := ficha[|ficha| - 1];
      TotalDaFicha(ficha[..|ficha| - 1], id) + if last.insumo == id then last.quantidade else 0.0
  }

  /** What so many units take of an ingredient: the units times the amount, over its lines in the recipe. */
  ghost function DemandaDe(unidades: real, ficha: seq<FichaLinha>, id: Id): real {
    if ficha == [] then 0.0
    else
      var last := ficha[|ficha| - 1];
      DemandaDe(unidades, ficha[..|ficha| - 1], id)
      + if last.insumo == id then unidades * last.quantidade else 0.0
  }

  ghost function Demanda(itens: seq<ItemPedido>, catalogo: map<Id, Produto>, id: Id): real
    requires forall i :: i in itens ==> i.produto in catalogo
  {
    if itens == [] then 0.0
    else
      var last := itens[|itens| - 1];
      Demanda(itens[..|itens| - 1], catalogo, id)
      + DemandaDe(last.quantidade, catalogo[last.produto].fichaTecnica, id)
  }

  lemma Distribute(q: real, a: real, b: real, sum: real, previous: real, last: real)
    requires previous == q * a && last == q * b
    requires sum == previous + last
    ensures sum == q * (a + b)
  {
  }

  /** That is the units times what one unit takes. */
  lemma {:induction false} DemandScales(unidades: real, ficha: seq<FichaLinha>, id: Id)
    ensures DemandaDe(unidades, ficha, id) == unidades * TotalDaFicha(ficha, id)
  {
    if ficha != [] {
      var n := |ficha| - 1;
      DemandScales(unidades, ficha[..n], id);
      if ficha[n].insumo == id {
        Distribute(unidades, TotalDaFicha(ficha[..n], id), ficha[n].quantidade, DemandaDe(unidades, ficha, id),
                   DemandaDe(unidades, ficha[..n], id), unidades * ficha[n].quantidade);
      }
    }
  }

  /** Each recipe line asks for the units sold times its own amount. */
  lemma {:induction false} ConsumoAt(item: ItemPedido, ficha: seq<FichaLinha>, k: nat)
    requires k < |ficha|
    ensures Consumo(item, ficha)[k] == Linha(ficha[k].insumo, item.quantidade * ficha[k].quantidade)
  {
    if k < |ficha| - 1 {
      ConsumoAt(item, ficha[..|ficha| - 1], k);
    }
  }

  ghost predicate LinhaDaFicha(l: Linha, f: FichaLinha, unidades: real) {
    l == Linha(f.insumo, unidades * f.quantidade)
  }

  lemma {:induction false} LinesTotal(lines: seq<Linha>, ficha: seq<FichaLinha>, unidades: real, id: Id)
    requires |lines| == |ficha| && forall k :: 0 <= k < |ficha| ==> LinhaDaFicha(lines[k], ficha[k], unidades)
    ensures Total(lines, id) == DemandaDe(unidades, ficha, id)
  {
    if ficha != [] {
      var n := |ficha| - 1;
      LinesTotal(lines[..n], ficha[..n], unidades, id);
      assert LinhaDaFicha(lines[n], ficha[n], unidades);
    }
  }

  lemma ConsumoTotal(item: ItemPedido, ficha: seq<FichaLinha>, id: Id)
    ensures Total(Consumo(item, ficha), id) == DemandaDe(item.quantidade, ficha, id)
  {
    forall k | 0 <= k < |ficha| ensures LinhaDaFicha(Consumo(item, ficha)[k], ficha[k], item.quantidade) {
      ConsumoAt(item, ficha, k);
    }
    LinesTotal(Consumo(item, ficha), ficha, item.quantidade, id);
  }

  lemma ExplosaoLast(itens: seq<ItemPedido>, catalogo: map<Id, Produto>, id: Id)
    requires itens != [] && forall i :: i in itens ==> i.produto in catalogo
    ensures Total(Explosao(itens, catalogo), id)
            == Total(Explosao(itens[..|itens| - 1], catalogo), id)
               + Total(Consumo(itens[|itens| - 1], catalogo[itens[|itens| - 1].produto].fichaTecnica), id)
  {
    var n := |itens| - 1;
    TotalConcat(Explosao(itens[..n], catalogo), Consumo(itens[n], catalogo[itens[n].produto].fichaTecnica), id);
  }

  /** The explosion asks each ingredient for the sum, over the items, of the units sold times the
      recipe's amount. */
  lemma {:induction false} ExplosaoTotal(itens: seq<ItemPedido>, catalogo: map<Id, Produto>, id: Id)
    requires forall i :: i in itens ==> i.produto in catalogo
    ensures Total(Explosao(itens, catalogo), id) == Demanda(itens, catalogo, id)
  {
    if itens != [] {
      var n := |itens| - 1;
      ExplosaoTotal(itens[..n], catalogo, id);
      ExplosaoLast(itens, catalogo, id);
      ConsumoTotal(itens[n], catalogo[itens[n].produto].fichaTecnica, id);
    }
  }

  lemma {:induction false} ConsumoIds(item: ItemPedido, ficha: seq<FichaLinha>, id: Id)
    ensures id in Ids(Consumo(item, ficha)) <==> exists f :: f in ficha && f.insumo == id
  {
    if ficha != [] {
      var n := |ficha| - 1;
      ConsumoIds(item, ficha[..n], id);
      assert ficha == ficha[..n] + [ficha[n]];
    }
  }

  /** An ingredient is needed exactly when the recipe of some product sold has a line of it. */
  lemma {:induction false} ExplosaoIds(itens: seq<ItemPedido>, catalogo: map<Id, Produto>, id: Id)
    requires forall i :: i in itens ==> i.produto in catalogo
    ensures id in Needs(Explosao(itens, catalogo)) <==>
            exists i, f :: i in itens && f in catalogo[i.produto].fichaTecnica && f.insumo == id
  {
    if itens != [] {
      var n := |itens| - 1;
      var ficha := catalogo[itens[n].produto].fichaTecnica;
      var last := Consumo(itens[n], ficha);
      ExplosaoIds(itens[..n], catalogo, id);
      assert itens == itens[..n] + [itens[n]];
      assert id in Ids(Explosao(itens, catalogo)) <==> id in Ids(Explosao(itens[..n], catalogo)) || id in Ids(last);
      ConsumoIds(itens[n], ficha, id);
    }
  }

  /** All there is to know of these sums. */
  lemma DemandaParts(itens: seq<ItemPedido>, i: ItemPedido, catalogo: map<Id, Produto>, id: Id)
    requires i.produto in catalogo && forall j :: j in itens ==> j.produto in catalogo
    ensures Demanda(itens + [i], catalogo, id)
            == Demanda(itens, catalogo, id) + DemandaDe(i.quantidade, catalogo[i.produto].fichaTecnica, id)
    ensures Demanda([], catalogo, id) == 0.0
  {
    assert (itens + [i])[..|itens|] == itens;
  }

  lemma FichaParts(ficha: seq<FichaLinha>, f: FichaLinha, id: Id)
    ensures TotalDaFicha(ficha + [f], id) == TotalDaFicha(ficha, id) + if f.insumo == id then f.quantidade else 0.0
    ensures TotalDaFicha([], id) == 0.0
  {
    assert (ficha + [f])[..|ficha|] == ficha;
  }

  /** The amount is added to the ingredient's entry, or starts one. */
  function Acumular(needs: map<Id, real>, id: Id, amount: real): map<Id, real> {
    if id in needs then needs[id := needs[id] + amount] else needs[id := amount]
  }

  lemma ConsumoNext(item: ItemPedido, ficha: seq<FichaLinha>, k: nat)
    requires k < |ficha|
    ensures Consumo(item, ficha[..k + 1])
            == Consumo(item, ficha[..k]) + [Linha(ficha[k].insumo, ConsumoDe(item, ficha[k]))]
  {
    assert ficha[..k + 1][..k] == ficha[..k];
  }

  lemma NeedsAppend(lines: seq<Linha>, l: Linha)
    ensures Needs(lines + [l]) == Acumular(Needs(lines), l.insumo, l.quantidade)
  {
    assert (lines + [l])[..|lines|] == lines;
    assert l in lines + [l];
    assert forall x :: x in lines ==> x in lines + [l];
    assert Ids(lines + [l]) == Ids(lines) + {l.insumo};
    if l.insumo !in Ids(lines) {
      AbsentIsZero(lines, l.insumo);
    }
  }

  lemma {:induction false} AbsentIsZero(lines: seq<Linha>, id: Id)
    requires id !in Ids(lines)
    ensures Total(lines, id) == 0.0
  {
    if lines != [] {
      var n := |lines| - 1;
      assert forall l :: l in lines[..n] ==> l in lines;
      assert lines[n] in lines;
      AbsentIsZero(lines[..n], id);
    }
  }

  /** One recipe's lines, added to the dictionary of needs so far. */
  method AcumularFicha(item: ItemPedido, ficha: seq<FichaLinha>, acumulado: map<Id, real>, ghost before: seq<Linha>)
    returns (consumo: map<Id, real>)
    requires acumulado == Needs(before)
    ensures consumo == Needs(before + Consumo(item, ficha))
  {
    consumo := acumulado;
    assert before + [] == before;
    for f := 0 to |ficha|
      invariant consumo == Needs(before + Consumo(item, ficha[..f]))
    {
      var total := ConsumoDe(item, ficha[f]);
      ghost var done := before + Consumo(item, ficha[..f]);
      NeedsAppend(done, Linha(ficha[f].insumo, total));
      consumo := Acumular(consumo, ficha[f].insumo, total);
      ConsumoNext(item, ficha, f);
      assert done + [Linha(ficha[f].insumo, total)] == before + Consumo(item, ficha[..f + 1]);
    }
    assert ficha[..|ficha|] == ficha;
  }

  /** The dictionary `consumoPorInsumo` holds the needs of the exploded lines. */
  method ExplodirFichas(itens: seq<ItemPedido>, catalogo: map<Id, Produto>) returns (ok: bool, consumo: map<Id, real>)
    requires forall i :: i in itens ==> i.produto in catalogo
    ensures ok <==> forall i :: i in itens ==> i.quantidade > 0.0
    ensures ok ==> consumo == Needs(Explosao(itens, catalogo))
  {
    consumo := map[];
    for k := 0 to |itens|
      invariant forall i :: 0 <= i < k ==> itens[i].quantidade > 0.0
      invariant consumo == Needs(Explosao(itens[..k], catalogo))
    {
      if itens[k].quantidade <= 0.0 {
        return false, map[];
      }
      ghost var antes := Explosao(itens[..k], catalogo);
      consumo := AcumularFicha(itens[k], catalogo[itens[k].produto].fichaTecnica, consumo, antes);
      assert itens[..k + 1][..k] == itens[..k];
    }
    assert itens[..|itens|] == itens;
    ok := true;
  }

  /** GroupBy(InsumoId) with the sum of each group. */
  method Agrupar(itens: seq<Linha>) returns (demandas: map<Id, real>)
    ensures demandas == Needs(itens)
  {
    demandas := map[];
    for k := 0 to |itens|
      invariant demandas == Needs(itens[..k])
    {
      var l := itens[k];
      NeedsAppend(itens[..k], l);
      assert itens[..k + 1] == itens[..k] + [l];
      demandas := Acumular(demandas, l.insumo, l.quantidade);
    }
    assert itens[..|itens|] == itens;
  }

  /** Positive quantities and recipes give positive needs. */
  lemma {:induction false} PositiveNeeds(lines: seq<Linha>, id: Id)
    requires forall l :: l in lines ==> l.quantidade > 0.0
    ensures Total(lines, id) >= 0.0
    ensures id in Ids(lines) ==> Total(lines, id) > 0.0
  {
    if lines != [] {
      var n := |lines| - 1;
      assert lines == lines[..n] + [lines[n]];
      PositiveNeeds(lines[..n], id);
    }
  }

  ghost predicate RecipesPositive(catalogo: map<Id, Produto>) {
    forall p, f :: p in catalogo && f in catalogo[p].fichaTecnica ==> f.quantidade > 0.0
  }

  lemma {:induction false} ConsumoPositive(item: ItemPedido, ficha: seq<FichaLinha>)
    requires item.quantidade > 0.0 && forall f :: f in ficha ==> f.quantidade > 0.0
    ensures forall l :: l in Consumo(item, ficha) ==> l.quantidade > 0.0
  {
    if ficha != [] {
      var last := ficha[|ficha| - 1];
      ConsumoPositive(item, ficha[..|ficha| - 1]);
      assert ConsumoDe(item, last) > 0.0;
    }
  }

  lemma {:induction false} ExplosaoPositive(itens: seq<ItemPedido>, catalogo: map<Id, Produto>)
    requires forall i :: i in itens ==> i.produto in catalogo && i.quantidade > 0.0
    requires RecipesPositive(catalogo)
    ensures forall l :: l in Explosao(itens, catalogo) ==> l.quantidade > 0.0
  {
    if itens != [] {
      var last := itens[|itens| - 1];
      ExplosaoPositive(itens[..|itens| - 1], catalogo);
      ConsumoPositive(last, catalogo[last.produto].fichaTecnica);
    }
  }

  lemma NeedsPositive(itens: seq<ItemPedido>, catalogo: map<Id, Produto>)
    requires forall i :: i in itens ==> i.produto in catalogo && i.quantidade > 0.0
    requires RecipesPositive(catalogo)
    ensures forall id :: id in Needs(Explosao(itens, catalogo)) ==> 0.0 < Needs(Explosao(itens, catalogo))[id]
  {
    ExplosaoPositive(itens, catalogo);
    forall id | id in Ids(Explosao(itens, catalogo)) ensures Total(Explosao(itens, catalogo), id) > 0.0 {
      PositiveNeeds(Explosao(itens, catalogo), id);
    }
  }

  lemma {:induction false} ExplosaoConcat(a: seq<ItemPedido>, b: seq<ItemPedido>, catalogo: map<Id, Produto>)
    requires forall i :: i in a + b ==> i.produto in catalogo
    ensures (forall i :: i in a ==> i.produto in catalogo) && (forall i :: i in b ==> i.produto in catalogo)
    ensures Explosao(a + b, catalogo) == Explosao(a, catalogo) + Explosao(b, catalogo)
  {
    assert forall i :: i in a ==> i in a + b;
    assert forall i :: i in b ==> i in a + b;
    if b == [] {
      assert a + b == a;
    } else {
      var n := |b| - 1;
      assert (a + b)[..|a + b| - 1] == a + b[..n];
      ExplosaoConcat(a, b[..n], catalogo);
    }
  }

  lemma WithoutItem(b: seq<ItemPedido>, k: nat, catalogo: map<Id, Produto>)
    requires k < |b| && forall i :: i in b ==> i.produto in catalogo
    ensures multiset(b[..k] + b[k + 1..]) == multiset(b) - multiset{b[k]}
    ensures forall i :: i in b[..k] + b[k + 1..] ==> i.produto in catalogo
    ensures multiset(Explosao(b, catalogo)) == multiset(Explosao(b[..k] + b[k + 1..], catalogo))
                                               + multiset(Consumo(b[k], catalogo[b[k].produto].fichaTecnica))
  {
    assert b == (b[..k] + [b[k]]) + b[k + 1..];
    assert (b[..k] + [b[k]])[..k] == b[..k];
    ExplosaoConcat(b[..k] + [b[k]], b[k + 1..], catalogo);
    ExplosaoConcat(b[..k], b[k + 1..], catalogo);
  }

  lemma {:induction false} ItemOrderIgnored(a: seq<ItemPedido>, b: seq<ItemPedido>, catalogo: map<Id, Produto>)
    requires multiset(a) == multiset(b)
    requires (forall i :: i in a ==> i.produto in catalogo) && (forall i :: i in b ==> i.produto in catalogo)
    ensures multiset(Explosao(a, catalogo)) == multiset(Explosao(b, catalogo))
    decreases |a|
  {
    if a == [] {
      assert |multiset(b)| == 0;
    } else {
      var n := |a| - 1;
      assert a == a[..n] + [a[n]];
      assert a[n] in multiset(b);
      var k :| 0 <= k < |b| && b[k] == a[n];
      WithoutItem(b, k, catalogo);
      ItemOrderIgnored(a[..n], b[..k] + b[k + 1..], catalogo);
    }
  }

  /** A sale asks the stock for what a write-off of its exploded lines asks, whatever the order
      of the sale's items and of the write-off's lines. */
  lemma SaleIsWriteOff(a: seq<ItemPedido>, b: seq<ItemPedido>, baixa: seq<Linha>, catalogo: map<Id, Produto>)
    requires multiset(a) == multiset(b)
    requires (forall i :: i in a ==> i.produto in catalogo) && (forall i :: i in b ==> i.produto in catalogo)
    requires multiset(baixa) == multiset(Explosao(b, catalogo))
    ensures Needs(Explosao(a, catalogo)) == Needs(baixa)
  {
    ItemOrderIgnored(a, b, catalogo);
    NeedsIgnoreOrder(Explosao(a, catalogo), baixa);
  }
}
