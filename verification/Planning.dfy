/** Production capacity and purchase planning. Stock and recipe quantities are the whole numbers
    of 0.0001 that numeric(18,4) stores; forecasts are any non-negative amount of product. */
module Planning {
  import opened Identifiers
  import opened Inventory
  import opened Recipes
  import opened Wrappers

  const SCALE_18: int := 1000000000000000000
  const EPSILON: real := 0.0000000000000000000000000001
  const DECIMAL_MAX: real := 79228162514264337593543950335.0
  const INT_MAX: int := 2147483647

  /** One recipe line. Its ingredient may be missing from what the query could load. */
  datatype Ficha = Ficha(produto: Id, insumo: Id, quantidade: int)

  datatype Previsao = Previsao(produto: Id, demanda: real)

  // ---------------------------------------------------------------- the decimal quotient

  /** What is assumed of the division of decimals: a quotient that is a whole number is exact, and
      any other is off by at most 10^-28 of itself, or of one when it is smaller. */
  ghost predicate Divides(d: real, e: nat, q: nat)
    requires q > 0
  {
    var exact := e as real / q as real;
    var bound := if exact > 1.0 then exact else 1.0;
    && (e % q == 0 ==> d == exact)
    && -(bound * EPSILON) <= d - exact <= bound * EPSILON
  }

  ghost predicate DecimalDivision(divide: (nat, nat) -> real) {
    forall e: nat, q: nat :: e < SCALE_18 && 0 < q < SCALE_18 ==> Divides(divide(e, q), e, q)
  }

  lemma QuotientTimes(e: real, q: real)
    requires q > 0.0
    ensures (e / q) * q == e
  {
  }

  lemma ScaledOrder(a: real, b: real, q: real)
    requires a <= b && q > 0.0
    ensures a * q <= b * q
  {
  }

  lemma ScaledStrictly(a: real, b: real, q: real)
    requires a * q < b * q && q > 0.0
    ensures a < b
  {
    if b <= a {
      ScaledOrder(b, a, q);
    }
  }

  lemma Spread(d: real, exact: real, q: real)
    ensures (d - exact) * q == d * q - exact * q
    ensures (-d) * q == -(d * q)
    ensures (d * exact) * q == (d * q) * exact
  {
  }

  /** A gap of at most eps x bound is at most eps x (bound x q) after scaling by q. */
  lemma ScaledGap(gap: real, bound: real, eps: real, q: real, limit: real)
    requires -(bound * eps) <= gap <= bound * eps && q > 0.0 && limit == bound * q
    ensures -(limit * eps) <= gap * q <= limit * eps
  {
    var w := bound * eps;
    ScaledOrder(gap, w, q);
    ScaledOrder(-w, gap, q);
    Spread(w, 0.0, q);
    Spread(bound, eps, q);
  }

  lemma ProductNear(d: real, exact: real, e: nat, q: nat)
    requires 0 < q < SCALE_18 && e < SCALE_18 && exact * q as real == e as real
    requires var bound := if exact > 1.0 then exact else 1.0;
             -(bound * EPSILON) <= d - exact <= bound * EPSILON
    ensures e as real - 1.0 < d * q as real < e as real + 1.0
  {
    Spread(d, exact, q as real);
    if exact > 1.0 {
      ScaledGap(d - exact, exact, EPSILON, q as real, e as real);
    } else {
      ScaledGap(d - exact, 1.0, EPSILON, q as real, q as real);
    }
  }

  lemma ProductAsReal(n: int, q: nat)
    ensures (n * q) as real == n as real * q as real
  {
  }

  lemma Between(d: real, e: nat, q: nat, n: int)
    requires 0 < q && n * q + 1 <= e <= n * q + q - 1
    requires e as real - 1.0 < d * q as real < e as real + 1.0
    ensures n as real < d < n as real + 1.0
  {
    var m := n + 1;
    ProductAsReal(n, q);
    ProductAsReal(m, q);
    assert m * q == n * q + q;
    ScaledStrictly(n as real, d, q as real);
    ScaledStrictly(d, m as real, q as real);
  }

  lemma Exactly(d: real, e: nat, q: nat, n: int)
    requires 0 < q && e == n * q && d * q as real == e as real
    ensures d == n as real
  {
    ProductAsReal(n, q);
    if d < n as real {
      StrictlyScaled(d, n as real, q as real);
    } else if d > n as real {
      StrictlyScaled(n as real, d, q as real);
    }
  }

  lemma StrictlyScaled(a: real, b: real, q: real)
    requires a < b && q > 0.0
    ensures a * q < b * q
  {
  }

  /** The rounded quotient has the whole part of the exact one. */
  lemma FloorIsExact(d: real, e: nat, q: nat)
    requires e < SCALE_18 && 0 < q < SCALE_18 && Divides(d, e, q)
    ensures d.Floor == e / q
  {
    QuotientTimes(e as real, q as real);
    if e % q == 0 {
      Exactly(d, e, q, e / q);
    } else {
      ProductNear(d, e as real / q as real, e, q);
      Between(d, e, q, e / q);
    }
  }

  // ---------------------------------------------------------------- one product

  /** A recipe line with its ingredient's stock. */
  datatype Ingrediente = Ingrediente(insumo: Id, quantidade: int, estoque: nat)

  /** What numeric(18,4) can hold. */
  ghost predicate InRange(receita: seq<Ingrediente>) {
    forall g :: g in receita ==> g.estoque < SCALE_18 && g.quantidade < SCALE_18
  }

  /** The lines of a product whose ingredient was loaded. */
  function Receita(fichas: seq<Ficha>, produto: Id, insumos: map<Id, nat>): (r: seq<Ingrediente>)
    ensures forall g :: g in r <==>
              g.insumo in insumos && g.estoque == insumos[g.insumo] && Ficha(produto, g.insumo, g.quantidade) in fichas
  {
    if fichas == [] then []
    else
      var f := fichas[0];
      (if f.produto == produto && f.insumo in insumos
       then [Ingrediente(f.insumo, f.quantidade, insumos[f.insumo])] else [])
      + Receita(fichas[1..], produto, insumos)
  }

  /** The lines in order, each as often as the recipe has it, with its ingredient's stock. */
  lemma {:induction false} ReceitaParts(fichas: seq<Ficha>, f: Ficha, produto: Id, insumos: map<Id, nat>)
    ensures Receita([], produto, insumos) == []
    ensures Receita(fichas + [f], produto, insumos)
            == Receita(fichas, produto, insumos)
               + if f.produto == produto && f.insumo in insumos
                 then [Ingrediente(f.insumo, f.quantidade, insumos[f.insumo])] else []
  {
    if fichas == [] {
      assert ([f])[1..] == [];
      assert fichas + [f] == [f];
    } else {
      assert (fichas + [f])[1..] == fichas[1..] + [f];
      ReceitaParts(fichas[1..], f, produto, insumos);
    }
  }

  /** unidadesPossiveis */
  function Quociente(g: Ingrediente, divide: (nat, nat) -> real): real {
    if g.quantidade > 0 then divide(g.estoque, g.quantidade) else 0.0
  }

  function Consome(demanda: real, g: Ingrediente): Linha {
    Linha(g.insumo, demanda * g.quantidade as real)
  }

  /** The stock covers n units, as far as this ingredient goes. */
  ghost predicate Cobre(n: real, g: Ingrediente) {
    Consome(n, g).quantidade <= g.estoque as real
  }

  ghost predicate Produz(n: real, receita: seq<Ingrediente>) {
    forall g :: g in receita ==> Cobre(n, g)
  }

  /** What n units take of the ingredient, and whether its stock has it. */
  lemma ConsomeIs(n: real, g: Ingrediente)
    ensures Consome(n, g) == Linha(g.insumo, n * g.quantidade as real)
    ensures Cobre(n, g) <==> n * g.quantidade as real <= g.estoque as real
  {
  }

  /** A whole number of units. */
  ghost predicate ProduzInteiras(n: nat, receita: seq<Ingrediente>) {
    Produz(n as real, receita)
  }

  ghost predicate Positiva(receita: seq<Ingrediente>) {
    forall g :: g in receita ==> g.quantidade > 0
  }

  /** A whole number of units fits exactly when it is at most the quotient's whole part. */
  lemma WholeFits(n: nat, g: Ingrediente, divide: (nat, nat) -> real)
    requires DecimalDivision(divide) && g.estoque < SCALE_18 && 0 < g.quantidade < SCALE_18
    ensures Cobre(n as real, g) <==> n <= Quociente(g, divide).Floor
  {
    var e, q := g.estoque, g.quantidade;
    assert Divides(divide(e, q), e, q);
    FloorIsExact(divide(e, q), e, q);
    WholeCovers(n, g);
    AtMostQuotient(n, e, q);
  }

  lemma WholeCovers(n: nat, g: Ingrediente)
    requires g.quantidade > 0
    ensures Cobre(n as real, g) <==> n * g.quantidade <= g.estoque
  {
    ProductAsReal(n, g.quantidade);
  }

  lemma AtMostQuotient(n: nat, e: nat, q: nat)
    requires q > 0
    ensures n * q <= e <==> n <= e / q
  {
    var m := e / q;
    assert m * q <= e < m * q + q;
    if n <= m {
      assert n * q <= m * q;
    } else {
      assert m * q + q <= n * q by {
        assert (m + 1) * q == m * q + q;
        assert (m + 1) * q <= n * q;
      }
    }
  }

  lemma QuotientAtMost(e: nat, q: nat)
    requires q > 0
    ensures e / q <= e
  {
    var n := e + 1;
    AtMostQuotient(n, e, q);
    AtLeastOnce(n, q);
  }

  lemma AtLeastOnce(n: nat, q: nat)
    requires q > 0
    ensures n <= n * q
  {
  }

  lemma QuotientInRange(g: Ingrediente, divide: (nat, nat) -> real)
    requires DecimalDivision(divide) && g.estoque < SCALE_18 && g.quantidade < SCALE_18
    ensures 0 <= Quociente(g, divide).Floor < SCALE_18
    ensures Quociente(g, divide) < DECIMAL_MAX
  {
    if g.quantidade > 0 {
      var e, q := g.estoque, g.quantidade;
      assert Divides(divide(e, q), e, q);
      FloorIsExact(divide(e, q), e, q);
      QuotientAtMost(e, q);
    }
  }

  /** The quotient's whole part is that of the stock over the recipe's amount; without an amount it is zero. */
  lemma QuotientIs(g: Ingrediente, divide: (nat, nat) -> real)
    requires DecimalDivision(divide) && g.estoque < SCALE_18 && g.quantidade < SCALE_18
    ensures g.quantidade > 0 ==> Quociente(g, divide).Floor == g.estoque / g.quantidade
    ensures g.quantidade <= 0 ==> Quociente(g, divide) == 0.0
  {
    if g.quantidade > 0 {
      var e, q := g.estoque, g.quantidade;
      assert Divides(divide(e, q), e, q);
      FloorIsExact(divide(e, q), e, q);
    }
  }

  /** The largest whole number of units the stock covers; none for a product without a recipe. */
  ghost predicate Capacidade(c: int, receita: seq<Ingrediente>) {
    && c >= 0
    && (receita == [] || !Positiva(receita) ==> c == 0)
    && (receita != [] && Positiva(receita) ==> forall n: nat :: ProduzInteiras(n, receita) <==> n <= c)
  }

  /** The ingredient does not cover one unit more. */
  ghost predicate Limita(id: Id, c: int, receita: seq<Ingrediente>) {
    exists g :: g in receita && g.insumo == id && (g.quantidade <= 0 || !Cobre((c + 1) as real, g))
  }

  /** The least quotient and an ingredient that has it, as the loop over a recipe finds them. */
  ghost predicate Menor(menor: real, gargalo: Option<Id>, receita: seq<Ingrediente>,
                        divide: (nat, nat) -> real)
  {
    if receita == [] then menor == DECIMAL_MAX && gargalo == None
    else
      && (forall g :: g in receita ==> menor <= Quociente(g, divide))
      && (exists g :: g in receita && gargalo == Some(g.insumo) && Quociente(g, divide) == menor)
  }

  lemma MenorNext(menor: real, gargalo: Option<Id>, receita: seq<Ingrediente>, g: Ingrediente, divide: (nat, nat) -> real)
    requires DecimalDivision(divide) && g.estoque < SCALE_18 && g.quantidade < SCALE_18
    requires Menor(menor, gargalo, receita, divide)
    ensures var u := Quociente(g, divide);
            Menor(if u < menor then u else menor, if u < menor then Some(g.insumo) else gargalo, receita + [g], divide)
  {
    assert g in receita + [g];
    assert forall f :: f in receita ==> f in receita + [g];
    QuotientInRange(g, divide);
  }

  /** The least quotient's whole part is the capacity, and its ingredient the bottleneck. */
  lemma LeastIsCapacity(menor: real, gargalo: Option<Id>, receita: seq<Ingrediente>, divide: (nat, nat) -> real)
    requires DecimalDivision(divide) && InRange(receita)
    requires receita != [] && Menor(menor, gargalo, receita, divide)
    ensures Capacidade(menor.Floor, receita)
    ensures gargalo.Some? && Limita(gargalo.value, menor.Floor, receita)
  {
    var g :| g in receita && gargalo == Some(g.insumo) && Quociente(g, divide) == menor;
    QuotientInRange(g, divide);
    if Positiva(receita) {
      forall n: nat ensures ProduzInteiras(n, receita) <==> n <= menor.Floor {
        FitsAll(n, menor, g, receita, divide);
      }
    } else {
      var f :| f in receita && f.quantidade <= 0;
      assert menor <= Quociente(f, divide);
    }
    if g.quantidade > 0 {
      WholeFits(menor.Floor + 1, g, divide);
    }
  }

  lemma FitsAll(n: nat, menor: real, g: Ingrediente, receita: seq<Ingrediente>, divide: (nat, nat) -> real)
    requires DecimalDivision(divide) && InRange(receita) && Positiva(receita)
    requires forall f :: f in receita ==> menor <= Quociente(f, divide)
    requires g in receita && Quociente(g, divide) == menor
    ensures ProduzInteiras(n, receita) <==> n <= menor.Floor
  {
    WholeFits(n, g, divide);
    if n <= menor.Floor {
      forall f | f in receita ensures Cobre(n as real, f) {
        WholeFits(n, f, divide);
        assert menor <= Quociente(f, divide);
      }
    }
  }

  // ---------------------------------------------------------------- the dictionary of needs

  /** The dictionary of consumption, with its keys in the order they were first met. */
  datatype Dicionario = Dicionario(consumo: map<Id, real>, ordem: seq<Id>)

  function Somar(d: Dicionario, l: Linha): Dicionario {
    Dicionario(Acumular(d.consumo, l.insumo, l.quantidade),
               if l.insumo in d.consumo then d.ordem else d.ordem + [l.insumo])
  }

  ghost predicate Distintos(s: seq<Id>) {
    forall i, j :: 0 <= i < j < |s| ==> s[i] != s[j]
  }

  ghost function Primeiras(lines: seq<Linha>): (r: seq<Id>)
    ensures forall id :: id in r <==> id in Ids(lines)
    ensures Distintos(r)
  {
    if lines == [] then []
    else
      var n := |lines| - 1;
      var antes := Primeiras(lines[..n]);
      assert lines == lines[..n] + [lines[n]];
      if lines[n].insumo in Ids(lines[..n]) then antes else antes + [lines[n].insumo]
  }

  /** An id takes its place when it is first met. */
  lemma PrimeirasParts(lines: seq<Linha>, l: Linha)
    ensures Primeiras([]) == []
    ensures Primeiras(lines + [l])
            == Primeiras(lines) + if exists x :: x in lines && x.insumo == l.insumo then [] else [l.insumo]
  {
    assert (lines + [l])[..|lines|] == lines;
    assert l.insumo in Ids(lines) <==> exists x :: x in lines && x.insumo == l.insumo;
  }

  ghost function DicionarioDe(lines: seq<Linha>): Dicionario {
    Dicionario(Needs(lines), Primeiras(lines))
  }

  lemma SomarNext(lines: seq<Linha>, l: Linha)
    ensures Somar(DicionarioDe(lines), l) == DicionarioDe(lines + [l])
  {
    NeedsAppend(lines, l);
    assert (lines + [l])[..|lines|] == lines;
  }

  ghost function ConsumoPrevisto(demanda: real, receita: seq<Ingrediente>): (lines: seq<Linha>)
    ensures forall l :: l in lines <==> exists g :: g in receita && l == Consome(demanda, g)
  {
    if receita == [] then []
    else
      var n := |receita| - 1;
      assert receita == receita[..n] + [receita[n]];
      ConsumoPrevisto(demanda, receita[..n]) + [Consome(demanda, receita[n])]
  }

  /** What all the forecasts together ask of the stock, line by line. */
  ghost function Previsto(previsoes: seq<Previsao>, fichas: seq<Ficha>, insumos: map<Id, nat>): seq<Linha> {
    if previsoes == [] then []
    else
      var p := previsoes[|previsoes| - 1];
      Previsto(previsoes[..|previsoes| - 1], fichas, insumos)
      + ConsumoPrevisto(p.demanda, Receita(fichas, p.produto, insumos))
  }

  /** Line by line, the forecast times the recipe's amount. */
  lemma {:induction false} PrevistoAt(demanda: real, receita: seq<Ingrediente>, k: nat)
    requires k < |receita|
    ensures |ConsumoPrevisto(demanda, receita)| == |receita|
    ensures ConsumoPrevisto(demanda, receita)[k]
            == Linha(receita[k].insumo, demanda * receita[k].quantidade as real)
  {
    var n := |receita| - 1;
    if n > 0 {
      PrevistoAt(demanda, receita[..n], if k < n then k else 0);
    } else {
      assert receita[..0] == [];
    }
  }

  /** What one unit takes of an ingredient, over the recipe's lines of it. */
  ghost function PorUnidade(receita: seq<Ingrediente>, id: Id): real {
    if receita == [] then 0.0
    else
      var n := |receita| - 1;
      PorUnidade(receita[..n], id) + if receita[n].insumo == id then receita[n].quantidade as real else 0.0
  }

  /** What a forecast takes of an ingredient: the demand times the amount, over its lines in the recipe. */
  ghost function PedidoDe(demanda: real, receita: seq<Ingrediente>, id: Id): real {
    if receita == [] then 0.0
    else
      var n := |receita| - 1;
      PedidoDe(demanda, receita[..n], id)
      + if receita[n].insumo == id then demanda * receita[n].quantidade as real else 0.0
  }

  /** That is the demand times what one unit takes. */
  lemma {:induction false} ForecastScales(demanda: real, receita: seq<Ingrediente>, id: Id)
    ensures PedidoDe(demanda, receita, id) == demanda * PorUnidade(receita, id)
  {
    if receita != [] {
      var n := |receita| - 1;
      ForecastScales(demanda, receita[..n], id);
      if receita[n].insumo == id {
        Distribute(demanda, PorUnidade(receita[..n], id), receita[n].quantidade as real, PedidoDe(demanda, receita, id),
                   PedidoDe(demanda, receita[..n], id), demanda * receita[n].quantidade as real);
      }
    }
  }

  ghost predicate LinhaPrevista(l: Linha, g: Ingrediente, demanda: real) {
    l == Linha(g.insumo, demanda * g.quantidade as real)
  }

  lemma {:induction false} ForecastLinesTotal(lines: seq<Linha>, receita: seq<Ingrediente>, demanda: real, id: Id)
    requires |lines| == |receita| && forall k :: 0 <= k < |receita| ==> LinhaPrevista(lines[k], receita[k], demanda)
    ensures Total(lines, id) == PedidoDe(demanda, receita, id)
  {
    if receita != [] {
      var n := |receita| - 1;
      ForecastLinesTotal(lines[..n], receita[..n], demanda, id);
      assert LinhaPrevista(lines[n], receita[n], demanda);
    }
  }

  lemma LinesAreForecast(demanda: real, receita: seq<Ingrediente>)
    ensures |ConsumoPrevisto(demanda, receita)| == |receita|
    ensures forall k :: 0 <= k < |receita| ==> LinhaPrevista(ConsumoPrevisto(demanda, receita)[k], receita[k], demanda)
  {
    if receita == [] {
      assert ConsumoPrevisto(demanda, receita) == [];
    } else {
      PrevistoAt(demanda, receita, 0);
    }
    forall k | 0 <= k < |receita| ensures LinhaPrevista(ConsumoPrevisto(demanda, receita)[k], receita[k], demanda) {
      PrevistoAt(demanda, receita, k);
    }
  }

  lemma RecipeTotal(demanda: real, receita: seq<Ingrediente>, id: Id)
    ensures Total(ConsumoPrevisto(demanda, receita), id) == PedidoDe(demanda, receita, id)
  {
    LinesAreForecast(demanda, receita);
    ForecastLinesTotal(ConsumoPrevisto(demanda, receita), receita, demanda, id);
  }

  /** Over the forecasts, the demand times what one unit takes. */
  ghost function Pedido(previsoes: seq<Previsao>, fichas: seq<Ficha>, insumos: map<Id, nat>, id: Id): real {
    if previsoes == [] then 0.0
    else
      Pedido(previsoes[..|previsoes| - 1], fichas, insumos, id)
      + PedidoDe(previsoes[|previsoes| - 1].demanda,
                 Receita(fichas, previsoes[|previsoes| - 1].produto, insumos), id)
  }

  lemma PrevistoLast(previsoes: seq<Previsao>, fichas: seq<Ficha>, insumos: map<Id, nat>, id: Id)
    requires previsoes != []
    ensures var n, p := |previsoes| - 1, previsoes[|previsoes| - 1];
            Total(Previsto(previsoes, fichas, insumos), id)
            == Total(Previsto(previsoes[..n], fichas, insumos), id)
               + Total(ConsumoPrevisto(p.demanda, Receita(fichas, p.produto, insumos)), id)
  {
    var n, p := |previsoes| - 1, previsoes[|previsoes| - 1];
    TotalConcat(Previsto(previsoes[..n], fichas, insumos),
                ConsumoPrevisto(p.demanda, Receita(fichas, p.produto, insumos)), id);
  }

  /** The report's need of an ingredient is the sum, over the forecasts, of the demand times what the
      product's recipe takes of it. */
  lemma {:induction false} NeedIsForecast(previsoes: seq<Previsao>, fichas: seq<Ficha>, insumos: map<Id, nat>, id: Id)
    ensures Total(Previsto(previsoes, fichas, insumos), id) == Pedido(previsoes, fichas, insumos, id)
  {
    if previsoes != [] {
      var n := |previsoes| - 1;
      NeedIsForecast(previsoes[..n], fichas, insumos, id);
      PrevistoLast(previsoes, fichas, insumos, id);
      RecipeTotal(previsoes[n].demanda, Receita(fichas, previsoes[n].produto, insumos), id);
    }
  }

  lemma PrevistoNext(antes: seq<Linha>, demanda: real, receita: seq<Ingrediente>, k: nat)
    requires k < |receita|
    ensures antes + ConsumoPrevisto(demanda, receita[..k + 1])
            == (antes + ConsumoPrevisto(demanda, receita[..k])) + [Consome(demanda, receita[k])]
  {
    assert receita[..k + 1][..k] == receita[..k];
  }

  /** The loop over one product's recipe. */
  method PercorrerReceita(demanda: real, receita: seq<Ingrediente>, divide: (nat, nat) -> real,
                          acumulado: Dicionario, ghost antes: seq<Linha>)
    returns (menor: real, gargalo: Option<Id>, demandaTotal: Dicionario)
    requires DecimalDivision(divide) && InRange(receita) && acumulado == DicionarioDe(antes)
    ensures Menor(menor, gargalo, receita, divide)
    ensures demandaTotal == DicionarioDe(antes + ConsumoPrevisto(demanda, receita))
  {
    menor, gargalo, demandaTotal := DECIMAL_MAX, None, acumulado;
    assert antes + ConsumoPrevisto(demanda, receita[..0]) == antes;
    for k := 0 to |receita|
      invariant Menor(menor, gargalo, receita[..k], divide)
      invariant demandaTotal == DicionarioDe(antes + ConsumoPrevisto(demanda, receita[..k]))
    {
      var ing := receita[k];
      assert receita[..k + 1] == receita[..k] + [ing];
      MenorNext(menor, gargalo, receita[..k], ing, divide);
      var unidadesPossiveis := Quociente(ing, divide);
      if unidadesPossiveis < menor {
        menor, gargalo := unidadesPossiveis, Some(ing.insumo);
      }
      PrevistoNext(antes, demanda, receita, k);
      SomarNext(antes + ConsumoPrevisto(demanda, receita[..k]), Consome(demanda, ing));
      demandaTotal := Somar(demandaTotal, Consome(demanda, ing));
    }
    assert receita[..|receita|] == receita;
  }

  // ---------------------------------------------------------------- the report

  datatype ItemCapacidade = ItemCapacidade(
    produto: Id, demanda: real, capacidade: int, atendivel: real, risco: bool, gargalo: Option<Id>, deficit: real)

  ghost predicate ItemCorreto(i: ItemCapacidade, p: Previsao, receita: seq<Ingrediente>) {
    && i.produto == p.produto && i.demanda == p.demanda
    && Capacidade(i.capacidade, receita)
    && (if receita == [] then i.gargalo == None else i.gargalo.Some? && Limita(i.gargalo.value, i.capacidade, receita))
    && (i.risco <==> p.demanda > i.capacidade as real)
    && i.deficit == (if i.risco then p.demanda - i.capacidade as real else 0.0)
    && i.atendivel == p.demanda - i.deficit
  }

  /** One item per forecast, in order, each correct for its product's recipe. */
  ghost predicate ItensCorretos(itens: seq<ItemCapacidade>, previsoes: seq<Previsao>,
                                fichas: seq<Ficha>, insumos: map<Id, nat>)
    requires |itens| <= |previsoes|
  {
    forall k :: 0 <= k < |itens| ==> ItemCorreto(itens[k], previsoes[k], Receita(fichas, previsoes[k].produto, insumos))
  }

  lemma ItensNext(itens: seq<ItemCapacidade>, item: ItemCapacidade, previsoes: seq<Previsao>,
                  fichas: seq<Ficha>, insumos: map<Id, nat>)
    requires |itens| < |previsoes| && ItensCorretos(itens, previsoes, fichas, insumos)
    requires var p := previsoes[|itens|]; ItemCorreto(item, p, Receita(fichas, p.produto, insumos))
    ensures ItensCorretos(itens + [item], previsoes, fichas, insumos)
  {
  }

  datatype Sugestao = Sugestao(insumo: Id, estoque: nat, necessario: real, comprar: real)

  function SugestaoDe(id: Id, consumo: map<Id, real>, insumos: map<Id, nat>): Sugestao
    requires id in consumo && id in insumos
  {
    var falta := consumo[id] - insumos[id] as real;
    Sugestao(id, insumos[id], consumo[id], if falta > 0.0 then falta else 0.0)
  }

  function Posicao(ordem: seq<Id>, id: Id): (k: nat)
    ensures k <= |ordem|
    ensures k < |ordem| ==> ordem[k] == id
    ensures forall i :: 0 <= i < k ==> ordem[i] != id
  {
    if ordem == [] || ordem[0] == id then 0 else 1 + Posicao(ordem[1..], id)
  }

  /** Descending by amount to buy, and equal amounts in the dictionary's order. */
  ghost predicate Vem(a: Sugestao, b: Sugestao, ordem: seq<Id>) {
    a.comprar > b.comprar || (a.comprar == b.comprar && Posicao(ordem, a.insumo) < Posicao(ordem, b.insumo))
  }

  ghost predicate Ordenada(s: seq<Sugestao>, ordem: seq<Id>) {
    forall i, j :: 0 <= i < j < |s| ==> Vem(s[i], s[j], ordem)
  }

  /** Where a stable descending sort puts the next element: after all that are not smaller. */
  function Onde(s: seq<Sugestao>, x: Sugestao): (k: nat)
    ensures k <= |s|
    ensures k < |s| ==> s[k].comprar < x.comprar
    ensures forall i :: 0 <= i < k ==> s[i].comprar >= x.comprar
  {
    if s == [] || s[0].comprar < x.comprar then 0 else 1 + Onde(s[1..], x)
  }

  function Inserir(s: seq<Sugestao>, x: Sugestao): seq<Sugestao> {
    s[..Onde(s, x)] + [x] + s[Onde(s, x)..]
  }

  lemma BeforeInserted(s: seq<Sugestao>, x: Sugestao, ordem: seq<Id>, i: nat)
    requires i < Onde(s, x) && Posicao(ordem, s[i].insumo) < Posicao(ordem, x.insumo)
    ensures Vem(s[i], x, ordem)
  {
  }

  lemma AfterInserted(s: seq<Sugestao>, x: Sugestao, ordem: seq<Id>, j: nat)
    requires Ordenada(s, ordem) && Onde(s, x) <= j < |s|
    ensures Vem(x, s[j], ordem)
  {
    var k := Onde(s, x);
    assert k < j ==> Vem(s[k], s[j], ordem);
  }

  lemma InsertionKeepsOrder(s: seq<Sugestao>, x: Sugestao, ordem: seq<Id>)
    requires Ordenada(s, ordem)
    requires forall y :: y in s ==> Posicao(ordem, y.insumo) < Posicao(ordem, x.insumo)
    ensures Ordenada(Inserir(s, x), ordem)
  {
    var k, r := Onde(s, x), Inserir(s, x);
    forall i, j | 0 <= i < j < |r| ensures Vem(r[i], r[j], ordem) {
      if i == k {
        AfterInserted(s, x, ordem, j - 1);
      } else if j == k {
        assert s[i] in s;
        BeforeInserted(s, x, ordem, i);
      } else {
        assert Vem(s[if i < k then i else i - 1], s[if j < k then j else j - 1], ordem);
      }
    }
  }

  lemma InsertionKeepsElements(s: seq<Sugestao>, x: Sugestao, y: Sugestao)
    ensures y in Inserir(s, x) <==> y in s || y == x
  {
    assert s == s[..Onde(s, x)] + s[Onde(s, x)..];
  }

  ghost predicate Conhecidos(d: Dicionario, insumos: map<Id, nat>) {
    forall id :: id in d.ordem ==> id in d.consumo && id in insumos
  }

  /** What is missing for the first k ingredients met, the largest purchase first. */
  function Sugeridas(d: Dicionario, insumos: map<Id, nat>, k: nat): seq<Sugestao>
    requires k <= |d.ordem| && Conhecidos(d, insumos)
  {
    if k == 0 then []
    else Proxima(Sugeridas(d, insumos, k - 1), SugestaoDe(d.ordem[k - 1], d.consumo, insumos))
  }

  function Proxima(s: seq<Sugestao>, x: Sugestao): seq<Sugestao> {
    if x.comprar > 0.0 then Inserir(s, x) else s
  }

  ghost predicate Sugere(s: Sugestao, consumo: map<Id, real>, insumos: map<Id, nat>) {
    && s.insumo in consumo && s.insumo in insumos
    && s == SugestaoDe(s.insumo, consumo, insumos) && s.comprar > 0.0
  }

  /** A suggestion states the ingredient's stock, its whole need, and the difference to buy. */
  lemma SugereIff(s: Sugestao, consumo: map<Id, real>, insumos: map<Id, nat>)
    ensures Sugere(s, consumo, insumos) <==>
            && s.insumo in consumo && s.insumo in insumos
            && s.estoque == insumos[s.insumo] && s.necessario == consumo[s.insumo]
            && s.comprar == consumo[s.insumo] - insumos[s.insumo] as real && s.comprar > 0.0
  {
  }

  /** The suggestions for the first k ingredients met, all of them and in order. */
  ghost predicate CorretasAte(s: seq<Sugestao>, d: Dicionario, insumos: map<Id, nat>, k: nat)
    requires k <= |d.ordem|
  {
    && Ordenada(s, d.ordem)
    && forall x :: x in s <==> x.insumo in d.ordem[..k] && Sugere(x, d.consumo, insumos)
  }

  lemma NextSuggestion(d: Dicionario, insumos: map<Id, nat>, k: nat, x: Sugestao)
    requires k < |d.ordem| && d.ordem[k] in d.consumo && d.ordem[k] in insumos
    ensures x.insumo in d.ordem[..k + 1] && Sugere(x, d.consumo, insumos) <==>
            (x.insumo in d.ordem[..k] && Sugere(x, d.consumo, insumos))
            || (x == SugestaoDe(d.ordem[k], d.consumo, insumos) && x.comprar > 0.0)
  {
    assert d.ordem[..k + 1] == d.ordem[..k] + [d.ordem[k]];
  }

  lemma StepCorretas(antes: seq<Sugestao>, d: Dicionario, insumos: map<Id, nat>, k: nat, depois: seq<Sugestao>)
    requires Distintos(d.ordem) && 0 < k <= |d.ordem| && d.ordem[k - 1] in d.consumo && d.ordem[k - 1] in insumos
    requires CorretasAte(antes, d, insumos, k - 1)
    requires depois == Proxima(antes, SugestaoDe(d.ordem[k - 1], d.consumo, insumos))
    ensures CorretasAte(depois, d, insumos, k)
  {
    var s := SugestaoDe(d.ordem[k - 1], d.consumo, insumos);
    forall y | y in antes ensures Posicao(d.ordem, y.insumo) < Posicao(d.ordem, s.insumo) {
      PrefixPosition(d.ordem, k - 1, y.insumo);
    }
    InsertionKeepsOrder(antes, s, d.ordem);
    forall x ensures x in depois <==> x.insumo in d.ordem[..k] && Sugere(x, d.consumo, insumos) {
      NextSuggestion(d, insumos, k - 1, x);
      InsertionKeepsElements(antes, s, x);
    }
  }

  lemma {:induction false} SugeridasCorretas(d: Dicionario, insumos: map<Id, nat>, k: nat)
    requires k <= |d.ordem| && Conhecidos(d, insumos) && Distintos(d.ordem)
    ensures CorretasAte(Sugeridas(d, insumos, k), d, insumos, k)
  {
    if k == 0 {
      NoneSuggested(d, insumos);
    } else {
      SugeridasCorretas(d, insumos, k - 1);
      KnownAt(d, insumos, k - 1);
      StepCorretas(Sugeridas(d, insumos, k - 1), d, insumos, k, Sugeridas(d, insumos, k));
    }
  }

  lemma NoneSuggested(d: Dicionario, insumos: map<Id, nat>)
    ensures CorretasAte([], d, insumos, 0)
  {
  }

  lemma KnownAt(d: Dicionario, insumos: map<Id, nat>, k: nat)
    requires k < |d.ordem| && Conhecidos(d, insumos)
    ensures d.ordem[k] in d.consumo && d.ordem[k] in insumos
  {
    assert d.ordem[k] in d.ordem;
  }

  lemma PrefixPosition(ordem: seq<Id>, k: nat, id: Id)
    requires k < |ordem| && id in ordem[..k] && Distintos(ordem)
    ensures Posicao(ordem, id) < k == Posicao(ordem, ordem[k])
  {
    var i :| 0 <= i < k && ordem[i] == id;
  }

  /** The shopping list: exactly the ingredients whose whole need exceeds their stock, each once,
      the largest purchase first. */
  ghost predicate ListaDeCompras(s: seq<Sugestao>, lines: seq<Linha>, insumos: map<Id, nat>) {
    && Ordenada(s, Primeiras(lines))
    && (forall x :: x in s <==> Sugere(x, Needs(lines), insumos))
  }

  lemma {:induction false} PrevistoLoaded(previsoes: seq<Previsao>, fichas: seq<Ficha>, insumos: map<Id, nat>)
    ensures forall l :: l in Previsto(previsoes, fichas, insumos) ==> l.insumo in insumos
  {
    if previsoes != [] {
      PrevistoLoaded(previsoes[..|previsoes| - 1], fichas, insumos);
    }
  }

  lemma ListIsCorrect(lines: seq<Linha>, insumos: map<Id, nat>)
    requires forall l :: l in lines ==> l.insumo in insumos
    ensures Conhecidos(DicionarioDe(lines), insumos)
    ensures ListaDeCompras(Sugeridas(DicionarioDe(lines), insumos, |Primeiras(lines)|), lines, insumos)
  {
    var d, n := DicionarioDe(lines), |Primeiras(lines)|;
    SugeridasCorretas(d, insumos, n);
    assert d.ordem[..n] == d.ordem;
  }

  /** One turn of the loop over the forecasts. */
  method AnalisarProduto(p: Previsao, ingredientes: seq<Ingrediente>, divide: (nat, nat) -> real,
                         acumulado: Dicionario, ghost antes: seq<Linha>)
    returns (item: ItemCapacidade, demandaTotal: Dicionario)
    requires DecimalDivision(divide) && InRange(ingredientes) && p.demanda >= 0.0 && acumulado == DicionarioDe(antes)
    ensures ItemCorreto(item, p, ingredientes)
    ensures demandaTotal == DicionarioDe(antes + ConsumoPrevisto(p.demanda, ingredientes))
  {
    if ingredientes == [] {
      item := ItemCapacidade(p.produto, p.demanda, 0, 0.0, p.demanda > 0.0, None, p.demanda);
      demandaTotal := acumulado;
      assert antes + ConsumoPrevisto(p.demanda, ingredientes) == antes;
      return;
    }
    var menorCapacidade, gargalo;
    menorCapacidade, gargalo, demandaTotal := PercorrerReceita(p.demanda, ingredientes, divide, acumulado, antes);
    LeastIsCapacity(menorCapacidade, gargalo, ingredientes, divide);
    var capacidadeMaxima := if menorCapacidade.Floor > 0 then menorCapacidade.Floor else 0;
    var demandaAtendivel := if p.demanda < capacidadeMaxima as real then p.demanda else capacidadeMaxima as real;
    var riscoRutura := p.demanda > capacidadeMaxima as real;
    var folga := p.demanda - capacidadeMaxima as real;
    item := ItemCapacidade(p.produto, p.demanda, capacidadeMaxima, demandaAtendivel, riscoRutura, gargalo,
                           if folga > 0.0 then folga else 0.0);
  }

  /** ExecutarAsync, from the forecasts and recipes it reads to the report it returns. */
  method CalcularCapacidade(previsoes: seq<Previsao>, fichas: seq<Ficha>, insumos: map<Id, nat>,
                            divide: (nat, nat) -> real)
    returns (itens: seq<ItemCapacidade>, sugestoes: seq<Sugestao>)
    requires DecimalDivision(divide)
    requires forall id :: id in insumos ==> insumos[id] < SCALE_18
    requires forall f :: f in fichas ==> f.quantidade < SCALE_18
    requires forall p :: p in previsoes ==> p.demanda >= 0.0
    ensures |itens| == |previsoes| && ItensCorretos(itens, previsoes, fichas, insumos)
    ensures ListaDeCompras(sugestoes, Previsto(previsoes, fichas, insumos), insumos)
  {
    itens := [];
    var demandaInsumosTotal := Dicionario(map[], []);
    for k := 0 to |previsoes|
      invariant |itens| == k && ItensCorretos(itens, previsoes, fichas, insumos)
      invariant demandaInsumosTotal == DicionarioDe(Previsto(previsoes[..k], fichas, insumos))
    {
      var ingredientes := Receita(fichas, previsoes[k].produto, insumos);
      assert InRange(ingredientes);
      assert previsoes[..k + 1][..k] == previsoes[..k];
      var item;
      ghost var antes := Previsto(previsoes[..k], fichas, insumos);
      item, demandaInsumosTotal :=
        AnalisarProduto(previsoes[k], ingredientes, divide, demandaInsumosTotal, antes);
      ItensNext(itens, item, previsoes, fichas, insumos);
      itens := itens + [item];
    }
    assert previsoes[..|previsoes|] == previsoes;
    PrevistoLoaded(previsoes, fichas, insumos);
    ListIsCorrect(Previsto(previsoes, fichas, insumos), insumos);
    sugestoes := Sugeridas(demandaInsumosTotal, insumos, |demandaInsumosTotal.ordem|);
  }

  // ---------------------------------------------------------------- what the report means

  /** The stock of every ingredient, with what is bought of it, covers the forecasts together. */
  ghost predicate Suficiente(lines: seq<Linha>, insumos: map<Id, nat>, compra: map<Id, real>) {
    forall id :: id in Needs(lines) ==> id in insumos && Needs(lines)[id] <= insumos[id] as real + Comprado(compra, id)
  }

  ghost function Comprado(compra: map<Id, real>, id: Id): real {
    if id in compra then compra[id] else 0.0
  }

  /** Any purchase makes the recipe-backed forecasts jointly producible exactly when it buys at
      least the suggested amount of every listed ingredient. */
  lemma PurchaseSuffices(sugestoes: seq<Sugestao>, lines: seq<Linha>, insumos: map<Id, nat>, compra: map<Id, real>)
    requires ListaDeCompras(sugestoes, lines, insumos)
    requires forall l :: l in lines ==> l.insumo in insumos
    requires forall id :: id in compra ==> compra[id] >= 0.0
    ensures Suficiente(lines, insumos, compra) <==>
            forall s :: s in sugestoes ==> Comprado(compra, s.insumo) >= s.comprar
  {
    var needs := Needs(lines);
    if Suficiente(lines, insumos, compra) {
      forall s | s in sugestoes ensures Comprado(compra, s.insumo) >= s.comprar {
        assert Sugere(s, needs, insumos);
      }
    }
    if forall s :: s in sugestoes ==> Comprado(compra, s.insumo) >= s.comprar {
      forall id | id in needs ensures id in insumos && needs[id] <= insumos[id] as real + Comprado(compra, id) {
        var s := SugestaoDe(id, needs, insumos);
        if s.comprar > 0.0 {
          assert Sugere(s, needs, insumos) && s in sugestoes;
        }
      }
    }
  }

  /** Buying the list makes the forecasts producible; a little less of any one ingredient does not. */
  lemma ListIsLeast(sugestoes: seq<Sugestao>, lines: seq<Linha>, insumos: map<Id, nat>, s: Sugestao, menos: real)
    requires ListaDeCompras(sugestoes, lines, insumos) && forall l :: l in lines ==> l.insumo in insumos
    requires s in sugestoes && 0.0 <= menos < s.comprar
    ensures var lista := map x | x in Needs(lines) && x in insumos :: SugestaoDe(x, Needs(lines), insumos).comprar;
            && Suficiente(lines, insumos, lista)
            && !Suficiente(lines, insumos, lista[s.insumo := menos])
  {
    var lista := map x | x in Needs(lines) && x in insumos :: SugestaoDe(x, Needs(lines), insumos).comprar;
    assert Sugere(s, Needs(lines), insumos);
    forall x | x in sugestoes ensures Comprado(lista, x.insumo) >= x.comprar {
      assert Sugere(x, Needs(lines), insumos);
    }
    PurchaseSuffices(sugestoes, lines, insumos, lista);
    PurchaseSuffices(sugestoes, lines, insumos, lista[s.insumo := menos]);
  }

  lemma {:induction false} TotalAtLeast(lines: seq<Linha>, l: Linha)
    requires forall x :: x in lines ==> x.quantidade >= 0.0
    ensures forall id :: Total(lines, id) >= 0.0
    ensures l in lines ==> Total(lines, l.insumo) >= l.quantidade
  {
    if lines != [] {
      var n := |lines| - 1;
      assert lines == lines[..n] + [lines[n]];
      TotalAtLeast(lines[..n], l);
    }
  }

  lemma {:induction false} PrevistoHas(previsoes: seq<Previsao>, fichas: seq<Ficha>, insumos: map<Id, nat>,
                                       p: Previsao, g: Ingrediente)
    requires p in previsoes && g in Receita(fichas, p.produto, insumos)
    ensures Consome(p.demanda, g) in Previsto(previsoes, fichas, insumos)
  {
    var n := |previsoes| - 1;
    assert previsoes == previsoes[..n] + [previsoes[n]];
    if p != previsoes[n] {
      PrevistoHas(previsoes[..n], fichas, insumos, p, g);
    }
  }

  lemma ConsumoNonNegative(demanda: real, receita: seq<Ingrediente>)
    requires demanda >= 0.0 && Positiva(receita)
    ensures forall l :: l in ConsumoPrevisto(demanda, receita) ==> l.quantidade >= 0.0
  {
    forall l | l in ConsumoPrevisto(demanda, receita) ensures l.quantidade >= 0.0 {
      var g :| g in receita && l == Consome(demanda, g);
      NonNegativeProduct(demanda, g.quantidade as real);
    }
  }

  lemma NonNegativeProduct(a: real, b: real)
    requires a >= 0.0 && b >= 0.0
    ensures a * b >= 0.0
  {
  }

  lemma {:induction false} PrevistoNonNegative(previsoes: seq<Previsao>, fichas: seq<Ficha>, insumos: map<Id, nat>)
    requires (forall p :: p in previsoes ==> p.demanda >= 0.0) && forall f :: f in fichas ==> f.quantidade > 0
    ensures forall l :: l in Previsto(previsoes, fichas, insumos) ==> l.quantidade >= 0.0
  {
    if previsoes != [] {
      var n := |previsoes| - 1;
      PrevistoNonNegative(previsoes[..n], fichas, insumos);
      assert previsoes[n] in previsoes;
      ConsumoNonNegative(previsoes[n].demanda, Receita(fichas, previsoes[n].produto, insumos));
    }
  }

  /** The whole number of units that serves a forecast. */
  function Ceil(d: real): int {
    -((-d).Floor)
  }

  lemma CeilIs(d: real, n: int)
    ensures Ceil(d) == n <==> n as real - 1.0 < d <= n as real
  {
  }

  /** A product is reported at risk exactly when the stock does not cover its forecast rounded up
      to whole units. */
  lemma RiskIff(item: ItemCapacidade, p: Previsao, receita: seq<Ingrediente>)
    requires ItemCorreto(item, p, receita) && p.demanda >= 0.0
    requires receita != [] && Positiva(receita)
    ensures item.risco <==> !ProduzInteiras(Ceil(p.demanda), receita)
  {
  }

  /** An ingredient that one forecast alone exhausts is on the list. */
  lemma ShortIsListed(previsoes: seq<Previsao>, fichas: seq<Ficha>, insumos: map<Id, nat>,
                      p: Previsao, g: Ingrediente, sugestoes: seq<Sugestao>) returns (s: Sugestao)
    requires p in previsoes && (forall x :: x in previsoes ==> x.demanda >= 0.0)
    requires forall f :: f in fichas ==> f.quantidade > 0
    requires ListaDeCompras(sugestoes, Previsto(previsoes, fichas, insumos), insumos)
    requires g in Receita(fichas, p.produto, insumos) && !Cobre(p.demanda, g)
    ensures s in sugestoes && s.insumo == g.insumo
  {
    var lines := Previsto(previsoes, fichas, insumos);
    PrevistoHas(previsoes, fichas, insumos, p, g);
    PrevistoNonNegative(previsoes, fichas, insumos);
    TotalAtLeast(lines, Consome(p.demanda, g));
    s := SugestaoDe(g.insumo, Needs(lines), insumos);
    assert Sugere(s, Needs(lines), insumos);
  }

  lemma WholeRiskIsShort(item: ItemCapacidade, p: Previsao, receita: seq<Ingrediente>) returns (g: Ingrediente)
    requires ItemCorreto(item, p, receita) && p.demanda >= 0.0 && p.demanda == p.demanda.Floor as real && item.risco
    requires receita != [] && Positiva(receita)
    ensures g in receita && !Cobre(p.demanda, g)
  {
    var n: nat := p.demanda.Floor;
    WholeCeil(n);
    RiskIff(item, p, receita);
    g := ShortOf(n, receita);
  }

  lemma WholeCeil(n: nat)
    ensures Ceil(n as real) == n
  {
  }

  lemma ShortOf(n: nat, receita: seq<Ingrediente>) returns (g: Ingrediente)
    requires !ProduzInteiras(n, receita)
    ensures g in receita && !Cobre(n as real, g)
  {
    g :| g in receita && !Cobre(n as real, g);
  }

  /** So for a whole forecast a reported risk puts one of the product's ingredients on the list. */
  lemma WholeRiskIsListed(previsoes: seq<Previsao>, fichas: seq<Ficha>, insumos: map<Id, nat>,
                          item: ItemCapacidade, p: Previsao, sugestoes: seq<Sugestao>)
    returns (s: Sugestao, g: Ingrediente)
    requires p in previsoes && (forall x :: x in previsoes ==> x.demanda >= 0.0)
    requires forall f :: f in fichas ==> f.quantidade > 0
    requires ItemCorreto(item, p, Receita(fichas, p.produto, insumos)) && Receita(fichas, p.produto, insumos) != []
    requires ListaDeCompras(sugestoes, Previsto(previsoes, fichas, insumos), insumos)
    requires p.demanda == p.demanda.Floor as real && item.risco
    ensures s in sugestoes && g in Receita(fichas, p.produto, insumos) && s.insumo == g.insumo
  {
    g := WholeRiskIsShort(item, p, Receita(fichas, p.produto, insumos));
    s := ShortIsListed(previsoes, fichas, insumos, p, g, sugestoes);
  }

  lemma {:induction false} TotalOfDistinct(demanda: real, receita: seq<Ingrediente>, g: Ingrediente)
    requires forall i, j :: 0 <= i < j < |receita| ==> receita[i].insumo != receita[j].insumo
    ensures g in receita ==> Total(ConsumoPrevisto(demanda, receita), g.insumo) == Consome(demanda, g).quantidade
    ensures (forall x :: x in receita ==> x.insumo != g.insumo) ==>
              Total(ConsumoPrevisto(demanda, receita), g.insumo) == 0.0
  {
    if receita != [] {
      var n := |receita| - 1;
      assert receita == receita[..n] + [receita[n]];
      TotalOfDistinct(demanda, receita[..n], g);
      var lines := ConsumoPrevisto(demanda, receita);
      assert lines[..|lines| - 1] == ConsumoPrevisto(demanda, receita[..n]);
    }
  }

  ghost predicate SemRepeticao(receita: seq<Ingrediente>, insumos: map<Id, nat>) {
    && (forall i, j :: 0 <= i < j < |receita| ==> receita[i].insumo != receita[j].insumo)
    && (forall g :: g in receita ==> g.insumo in insumos && insumos[g.insumo] == g.estoque)
  }

  lemma AloneNeed(demanda: real, receita: seq<Ingrediente>, insumos: map<Id, nat>, g: Ingrediente)
    requires SemRepeticao(receita, insumos) && g in receita
    ensures g.insumo in Needs(ConsumoPrevisto(demanda, receita))
    ensures Needs(ConsumoPrevisto(demanda, receita))[g.insumo] == Consome(demanda, g).quantidade
  {
    assert Consome(demanda, g) in ConsumoPrevisto(demanda, receita);
    TotalOfDistinct(demanda, receita, g);
  }

  lemma AloneSuggested(demanda: real, receita: seq<Ingrediente>, insumos: map<Id, nat>, g: Ingrediente)
    requires SemRepeticao(receita, insumos) && g in receita
    ensures g.insumo in Needs(ConsumoPrevisto(demanda, receita))
    ensures SugestaoDe(g.insumo, Needs(ConsumoPrevisto(demanda, receita)), insumos).comprar > 0.0 <==> !Cobre(demanda, g)
  {
    AloneNeed(demanda, receita, insumos, g);
  }

  lemma AloneListedIff(demanda: real, receita: seq<Ingrediente>, insumos: map<Id, nat>, sugestoes: seq<Sugestao>)
    requires SemRepeticao(receita, insumos)
    requires ListaDeCompras(sugestoes, ConsumoPrevisto(demanda, receita), insumos)
    ensures sugestoes == [] <==> Produz(demanda, receita)
  {
    var needs := Needs(ConsumoPrevisto(demanda, receita));
    if sugestoes == [] {
      forall g | g in receita ensures Cobre(demanda, g) {
        AloneSuggested(demanda, receita, insumos, g);
        var s := SugestaoDe(g.insumo, needs, insumos);
        assert s !in sugestoes;
        assert !Sugere(s, needs, insumos);
      }
    } else {
      var s := sugestoes[0];
      assert s in sugestoes && Sugere(s, needs, insumos);
      var l :| l in ConsumoPrevisto(demanda, receita) && l.insumo == s.insumo;
      var g :| g in receita && l == Consome(demanda, g);
      AloneSuggested(demanda, receita, insumos, g);
    }
  }

  /** Of the product's own ingredients, none is on the list. */
  ghost predicate NadaAComprar(sugestoes: seq<Sugestao>, receita: seq<Ingrediente>) {
    forall s, g :: s in sugestoes && g in receita ==> s.insumo != g.insumo
  }

  /** The stock of each of the product's ingredients covers what all the forecasts ask of it. */
  ghost predicate TodasCobertas(lines: seq<Linha>, receita: seq<Ingrediente>) {
    forall g :: g in receita ==> Total(lines, g.insumo) <= g.estoque as real
  }

  lemma OwnIngredientListedIff(previsoes: seq<Previsao>, fichas: seq<Ficha>, insumos: map<Id, nat>,
                               p: Previsao, g: Ingrediente, sugestoes: seq<Sugestao>)
    requires p in previsoes && g in Receita(fichas, p.produto, insumos)
    requires ListaDeCompras(sugestoes, Previsto(previsoes, fichas, insumos), insumos)
    ensures (exists s :: s in sugestoes && s.insumo == g.insumo)
            <==> Total(Previsto(previsoes, fichas, insumos), g.insumo) > g.estoque as real
  {
    var needs := Needs(Previsto(previsoes, fichas, insumos));
    PrevistoHas(previsoes, fichas, insumos, p, g);
    assert Consome(p.demanda, g).insumo in needs;
    var s := SugestaoDe(g.insumo, needs, insumos);
    assert Sugere(s, needs, insumos) <==> s.comprar > 0.0;
    forall x | x in sugestoes && x.insumo == g.insumo ensures x == s && s.comprar > 0.0 {
      assert Sugere(x, needs, insumos);
    }
  }

  /** In any report, a product is at risk with none of its ingredients on the list exactly when the
      stock does not cover its forecast rounded up to whole units, and yet covers what all the
      forecasts together ask of each of its ingredients. */
  lemma RiskWithoutPurchaseIff(previsoes: seq<Previsao>, fichas: seq<Ficha>, insumos: map<Id, nat>,
                               item: ItemCapacidade, p: Previsao, sugestoes: seq<Sugestao>)
    requires p in previsoes && p.demanda >= 0.0
    requires var receita := Receita(fichas, p.produto, insumos);
             receita != [] && Positiva(receita) && ItemCorreto(item, p, receita)
    requires ListaDeCompras(sugestoes, Previsto(previsoes, fichas, insumos), insumos)
    ensures var receita := Receita(fichas, p.produto, insumos);
            item.risco && NadaAComprar(sugestoes, receita)
            <==> !ProduzInteiras(Ceil(p.demanda), receita)
                 && TodasCobertas(Previsto(previsoes, fichas, insumos), receita)
  {
    var receita := Receita(fichas, p.produto, insumos);
    RiskIff(item, p, receita);
    forall g | g in receita
      ensures (exists s :: s in sugestoes && s.insumo == g.insumo)
              <==> Total(Previsto(previsoes, fichas, insumos), g.insumo) > g.estoque as real
    {
      OwnIngredientListedIff(previsoes, fichas, insumos, p, g, sugestoes);
    }
  }

  /** For a forecast on its own, each ingredient being once in the recipe: the list is empty though
      the risk is reported exactly when the stock covers the forecast but not the forecast rounded up. */
  lemma LoneRiskWithoutPurchaseIff(demanda: real, receita: seq<Ingrediente>, insumos: map<Id, nat>,
                                   item: ItemCapacidade, p: Previsao, sugestoes: seq<Sugestao>)
    requires receita != [] && Positiva(receita) && SemRepeticao(receita, insumos)
    requires p.demanda == demanda >= 0.0 && ItemCorreto(item, p, receita)
    requires ListaDeCompras(sugestoes, ConsumoPrevisto(demanda, receita), insumos)
    ensures item.risco && sugestoes == [] <==> Produz(demanda, receita) && !ProduzInteiras(Ceil(demanda), receita)
  {
    RiskIff(item, p, receita);
    AloneListedIff(demanda, receita, insumos, sugestoes);
  }

  /** It does happen: a forecast of 1.5 units of a product that takes 1 of an ingredient with 1.5
      in stock is reported at risk, and the list is empty. */
  lemma FractionalRiskUnlisted()
    ensures var p, fichas, insumos := Previsao(0, 1.5), [Ficha(0, 0, 10000)], map[0 := 15000 as nat];
            && ItemCorreto(ItemCapacidade(0, 1.5, 1, 1.0, true, Some(0), 0.5), p, Receita(fichas, 0, insumos))
            && ListaDeCompras([], Previsto([p], fichas, insumos), insumos)
  {
    var p, fichas, insumos := Previsao(0, 1.5), [Ficha(0, 0, 10000)], map[0 := 15000 as nat];
    var g := Ingrediente(0, 10000, 15000);
    assert fichas[1..] == [];
    assert Receita(fichas, 0, insumos) == [g] + [] == [g];
    HalfMore(g);
    assert [p][..0] == [] && [g][..0] == [];
    assert ConsumoPrevisto(1.5, [g]) == [] + [Consome(1.5, g)];
    assert Previsto([p], fichas, insumos) == [] + [Consome(1.5, g)] == [Consome(1.5, g)];
    assert [Consome(1.5, g)][..0] == [];
    assert Total([Consome(1.5, g)], 0) == 15000.0;
    forall x: Sugestao ensures !Sugere(x, Needs(Previsto([p], fichas, insumos)), insumos) {
    }
  }

  lemma HalfMore(g: Ingrediente)
    requires g == Ingrediente(0, 10000, 15000)
    ensures Capacidade(1, [g]) && Limita(0, 1, [g])
  {
    assert g in [g] && !Cobre(2.0, g);
    forall n: nat ensures ProduzInteiras(n, [g]) <==> n <= 1 {
      assert Cobre(n as real, g) <==> n <= 1;
    }
  }

  // ---------------------------------------------------------------- the controller's capacity

  /** What one recipe line contributes to ObterFichasTecnicas; nothing when the conversion to int overflows. */
  function PorcoesDe(f: Ficha, insumos: map<Id, nat>, divide: (nat, nat) -> real): Option<int> {
    if f.insumo in insumos && f.quantidade > 0 then
      var porcoes := divide(insumos[f.insumo], f.quantidade).Floor;
      if porcoes <= INT_MAX then Some(porcoes) else None
    else Some(0)
  }

  /** grupo.Min(...), which evaluates every line. */
  function MinimoDePorcoes(grupo: seq<Ficha>, insumos: map<Id, nat>, divide: (nat, nat) -> real): Option<int>
    requires grupo != []
  {
    var ultima := PorcoesDe(grupo[|grupo| - 1], insumos, divide);
    if |grupo| == 1 then ultima
    else
      var resto := MinimoDePorcoes(grupo[..|grupo| - 1], insumos, divide);
      if ultima.None? || resto.None? then None
      else Some(if ultima.value < resto.value then ultima.value else resto.value)
  }

  /** CapacidadeTurnoPorcoes */
  function CapacidadeTurno(grupo: seq<Ficha>, insumos: map<Id, nat>, divide: (nat, nat) -> real): Option<int>
    requires grupo != []
  {
    match MinimoDePorcoes(grupo, insumos, divide)
    case None => None
    case Some(n) => Some(if n > 0 then n else 0)
  }

  /** The recipe lines of one product as the use case reads them. */
  ghost predicate GrupoDe(grupo: seq<Ficha>, produto: Id, insumos: map<Id, nat>) {
    && grupo != [] && (forall f :: f in grupo ==> f.produto == produto && f.quantidade < SCALE_18)
    && (forall id :: id in insumos ==> insumos[id] < SCALE_18)
  }

  ghost predicate Transborda(f: Ficha, insumos: map<Id, nat>) {
    f.insumo in insumos && f.quantidade > 0 && insumos[f.insumo] / f.quantidade > INT_MAX
  }

  lemma PortionsIff(f: Ficha, insumos: map<Id, nat>, divide: (nat, nat) -> real)
    requires DecimalDivision(divide) && f.quantidade < SCALE_18 && forall id :: id in insumos ==> insumos[id] < SCALE_18
    ensures PorcoesDe(f, insumos, divide).None? <==> Transborda(f, insumos)
    ensures !Transborda(f, insumos) ==> PorcoesDe(f, insumos, divide).value >= 0
    ensures f.insumo in insumos && !Transborda(f, insumos) ==>
              PorcoesDe(f, insumos, divide).value
              == Quociente(Ingrediente(f.insumo, f.quantidade, insumos[f.insumo]), divide).Floor
  {
    if f.insumo in insumos && f.quantidade > 0 {
      var e, q := insumos[f.insumo], f.quantidade;
      assert Divides(divide(e, q), e, q);
      FloorIsExact(divide(e, q), e, q);
      QuotientIsNat(e, q);
    }
  }

  /** A line whose ingredient is missing, or that takes nothing, contributes zero portions; any other
      contributes the whole part of its stock over its amount. */
  lemma PortionsAre(f: Ficha, insumos: map<Id, nat>, divide: (nat, nat) -> real)
    requires DecimalDivision(divide) && f.quantidade < SCALE_18 && forall id :: id in insumos ==> insumos[id] < SCALE_18
    ensures f.insumo !in insumos || f.quantidade <= 0 ==> PorcoesDe(f, insumos, divide) == Some(0)
    ensures f.insumo in insumos && f.quantidade > 0 && !Transborda(f, insumos) ==>
              PorcoesDe(f, insumos, divide) == Some(insumos[f.insumo] / f.quantidade)
  {
    if f.insumo in insumos && f.quantidade > 0 {
      PortionsIff(f, insumos, divide);
      QuotientIs(Ingrediente(f.insumo, f.quantidade, insumos[f.insumo]), divide);
    }
  }

  lemma QuotientIsNat(e: nat, q: nat)
    requires q > 0
    ensures e / q >= 0
  {
  }

  ghost predicate MenorPorcao(m: int, grupo: seq<Ficha>, insumos: map<Id, nat>, divide: (nat, nat) -> real) {
    && (exists f :: f in grupo && PorcoesDe(f, insumos, divide) == Some(m))
    && (forall f :: f in grupo ==> PorcoesDe(f, insumos, divide).Some? && PorcoesDe(f, insumos, divide).value >= m)
  }

  /** The result r of taking the minimum over a group. */
  ghost predicate MinimoCerto(r: Option<int>, grupo: seq<Ficha>, insumos: map<Id, nat>, divide: (nat, nat) -> real) {
    match r
    case None => exists f :: f in grupo && PorcoesDe(f, insumos, divide).None?
    case Some(m) => MenorPorcao(m, grupo, insumos, divide)
  }

  lemma MinimumNext(r: Option<int>, antes: seq<Ficha>, f: Ficha, insumos: map<Id, nat>, divide: (nat, nat) -> real)
    requires MinimoCerto(r, antes, insumos, divide)
    ensures var ultima := PorcoesDe(f, insumos, divide);
            MinimoCerto(if ultima.None? || r.None? then None
                        else Some(if ultima.value < r.value then ultima.value else r.value),
                        antes + [f], insumos, divide)
  {
    assert f in antes + [f];
    assert forall x :: x in antes ==> x in antes + [f];
  }

  lemma {:induction false} MinimumIs(grupo: seq<Ficha>, insumos: map<Id, nat>, divide: (nat, nat) -> real)
    requires grupo != []
    ensures MinimoCerto(MinimoDePorcoes(grupo, insumos, divide), grupo, insumos, divide)
  {
    var n := |grupo| - 1;
    assert grupo == grupo[..n] + [grupo[n]];
    if n > 0 {
      MinimumIs(grupo[..n], insumos, divide);
      MinimumNext(MinimoDePorcoes(grupo[..n], insumos, divide), grupo[..n], grupo[n], insumos, divide);
    } else {
      OnePortion(grupo[0], insumos, divide);
      assert grupo == [grupo[0]];
    }
  }

  lemma OnePortion(f: Ficha, insumos: map<Id, nat>, divide: (nat, nat) -> real)
    ensures MinimoCerto(PorcoesDe(f, insumos, divide), [f], insumos, divide)
  {
    assert f in [f];
  }

  /** The controller's minimum, over lines and not over quotients. */
  lemma MinimumOfPortions(grupo: seq<Ficha>, insumos: map<Id, nat>, divide: (nat, nat) -> real)
    requires grupo != []
    ensures MinimoDePorcoes(grupo, insumos, divide).None? <==>
            exists f :: f in grupo && PorcoesDe(f, insumos, divide).None?
    ensures MinimoDePorcoes(grupo, insumos, divide).Some? ==>
              MenorPorcao(MinimoDePorcoes(grupo, insumos, divide).value, grupo, insumos, divide)
  {
    MinimumIs(grupo, insumos, divide);
  }

  lemma CapacityIsUnique(c: int, m: int, receita: seq<Ingrediente>)
    requires Capacidade(c, receita) && Capacidade(m, receita)
    ensures c == m
  {
    if receita != [] && Positiva(receita) {
      assert ProduzInteiras(c, receita) && ProduzInteiras(m, receita);
    }
  }

  lemma LeastPortionIsCapacity(m: int, grupo: seq<Ficha>, produto: Id, insumos: map<Id, nat>, divide: (nat, nat) -> real)
    requires DecimalDivision(divide) && GrupoDe(grupo, produto, insumos) && MenorPorcao(m, grupo, insumos, divide)
    requires forall f :: f in grupo ==> f.insumo in insumos
    ensures Capacidade(m, Receita(grupo, produto, insumos))
  {
    var receita := Receita(grupo, produto, insumos);
    var f :| f in grupo && PorcoesDe(f, insumos, divide) == Some(m);
    var g := Ingrediente(f.insumo, f.quantidade, insumos[f.insumo]);
    PortionsIff(f, insumos, divide);
    assert g in receita;
    forall h | h in receita ensures m <= Quociente(h, divide).Floor {
      var k := Ficha(produto, h.insumo, h.quantidade);
      assert k in grupo;
      PortionsIff(k, insumos, divide);
    }
    if Positiva(receita) {
      forall n: nat ensures ProduzInteiras(n, receita) <==> n <= m {
        FitsAllFloors(n, m, g, receita, divide);
      }
    } else {
      var h :| h in receita && h.quantidade <= 0;
      assert m <= Quociente(h, divide).Floor;
    }
  }

  lemma FitsAllFloors(n: nat, m: int, g: Ingrediente, receita: seq<Ingrediente>, divide: (nat, nat) -> real)
    requires DecimalDivision(divide) && InRange(receita) && Positiva(receita)
    requires forall h :: h in receita ==> m <= Quociente(h, divide).Floor
    requires g in receita && Quociente(g, divide).Floor == m
    ensures ProduzInteiras(n, receita) <==> n <= m
  {
    WholeFits(n, g, divide);
    if n <= m {
      forall h | h in receita ensures Cobre(n as real, h) {
        WholeFits(n, h, divide);
        assert m <= Quociente(h, divide).Floor;
      }
    }
  }

  /** The controller's minimum of floors against the use case's floor of the minimum. It overflows
      exactly when some line alone allows more portions than an int holds. Otherwise the two agree
      exactly when every ingredient was loaded or the capacity is none: a missing ingredient counts
      as zero here, and is skipped there. */
  lemma ControllerAgreesIff(grupo: seq<Ficha>, produto: Id, insumos: map<Id, nat>, divide: (nat, nat) -> real, c: int)
    requires DecimalDivision(divide) && GrupoDe(grupo, produto, insumos)
    requires Capacidade(c, Receita(grupo, produto, insumos))
    ensures CapacidadeTurno(grupo, insumos, divide).None? <==> exists f :: f in grupo && Transborda(f, insumos)
    ensures CapacidadeTurno(grupo, insumos, divide).Some? ==>
              (CapacidadeTurno(grupo, insumos, divide).value == c
               <==> c == 0 || forall f :: f in grupo ==> f.insumo in insumos)
  {
    MinimumOfPortions(grupo, insumos, divide);
    forall f | f in grupo ensures PorcoesDe(f, insumos, divide).None? <==> Transborda(f, insumos) {
      PortionsIff(f, insumos, divide);
    }
    if CapacidadeTurno(grupo, insumos, divide).Some? {
      MinimumMatches(MinimoDePorcoes(grupo, insumos, divide).value, grupo, produto, insumos, divide, c);
    }
  }

  lemma MinimumMatches(m: int, grupo: seq<Ficha>, produto: Id, insumos: map<Id, nat>, divide: (nat, nat) -> real, c: int)
    requires DecimalDivision(divide) && GrupoDe(grupo, produto, insumos) && MenorPorcao(m, grupo, insumos, divide)
    requires Capacidade(c, Receita(grupo, produto, insumos))
    ensures m >= 0
    ensures m == c <==> c == 0 || forall f :: f in grupo ==> f.insumo in insumos
  {
    var f :| f in grupo && PorcoesDe(f, insumos, divide) == Some(m);
    PortionsIff(f, insumos, divide);
    if forall f :: f in grupo ==> f.insumo in insumos {
      LeastPortionIsCapacity(m, grupo, produto, insumos, divide);
      CapacityIsUnique(c, m, Receita(grupo, produto, insumos));
    } else {
      var missing :| missing in grupo && missing.insumo !in insumos;
      assert PorcoesDe(missing, insumos, divide) == Some(0);
    }
  }
}
