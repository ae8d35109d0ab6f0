/** Opening and closing cash sessions, interleaved: each request first reads the tenant's open
    session, and later, having found none or one, inserts a new row or closes the one it read.
    Neither takes a lock; a partial unique index refuses a second open row for a tenant.

    Assumed of PostgreSQL: a write is atomic, and the index sees every committed row. */
module SessionProtocol {
  import opened CashSessions
  import opened Identifiers

  datatype Pedido = Abre(tenant: Id, novo: Id) | Fecha(tenant: Id)

  /** `k` is the session a request found or wrote. */
  datatype Fase =
    | Inicio
    | NaoAchou
    | Achou(k: nat)
    | Concluido(k: nat)
    | Recusado

  datatype Requisicao = Requisicao(pedido: Pedido, fase: Fase)

  datatype State = State(caixas: seq<Caixa>, pedidos: seq<Requisicao>)

  /** CREATE UNIQUE INDEX ... ("RestauranteId") WHERE "Status" = 'ABERTO' */
  predicate IndiceAceita(caixas: seq<Caixa>, tenant: Id) {
    OpenIndex(caixas, tenant) == |caixas|
  }

  ghost predicate Pode(s: State, r: nat) {
    r < |s.pedidos| && (s.pedidos[r].fase.Inicio? || s.pedidos[r].fase.NaoAchou? || s.pedidos[r].fase.Achou?)
  }

  /** What a request reads: its tenant's open session, if there is one. */
  function Leitura(caixas: seq<Caixa>, tenant: Id): Fase {
    if OpenIndex(caixas, tenant) < |caixas| then Achou(OpenIndex(caixas, tenant)) else NaoAchou
  }

  ghost function Passo(s: State, r: nat): State
    requires Pode(s, r)
  {
    var p, fase := s.pedidos[r].pedido, s.pedidos[r].fase;
    var grava := (f: Fase) => s.pedidos[r := s.pedidos[r].(fase := f)];
    if fase.Inicio? then
      s.(pedidos := grava(Leitura(s.caixas, p.tenant)))
    else if p.Abre? then
      if fase.Achou? then s.(pedidos := grava(Concluido(fase.k)))
      else if IndiceAceita(s.caixas, p.tenant) then
        State(s.caixas + [Caixa(p.novo, p.tenant, true, 0, 0)], grava(Concluido(|s.caixas|)))
      else s.(pedidos := grava(Recusado))
    else if fase.Achou? && fase.k < |s.caixas| then
      // the row is closed by its id, whatever has happened to it since it was read
      State(s.caixas[fase.k := s.caixas[fase.k].(aberto := false)], grava(Concluido(fase.k)))
    else s.(pedidos := grava(Recusado))
  }

  ghost predicate StepBy(s: State, s': State, r: nat) {
    Pode(s, r) && s' == Passo(s, r)
  }

  /** Reading finds the tenant's open session, if there is one, and writes nothing. */
  lemma StepReads(s: State, s': State, r: nat)
    requires StepBy(s, s', r) && s.pedidos[r].fase.Inicio?
    ensures s'.caixas == s.caixas && |s'.pedidos| == |s.pedidos|
    ensures var tenant, fase := s.pedidos[r].pedido.tenant, s'.pedidos[r].fase;
            if fase.Achou? then fase.k < |s.caixas| && OpenFor(s.caixas[fase.k], tenant)
            else fase.NaoAchou? && NoneOpen(s.caixas, tenant)
  {
  }

  /** An opening that found a session returns it. */
  lemma StepReturns(s: State, s': State, r: nat)
    requires StepBy(s, s', r) && s.pedidos[r].pedido.Abre? && s.pedidos[r].fase.Achou?
    ensures s'.caixas == s.caixas && |s'.pedidos| == |s.pedidos|
    ensures s'.pedidos[r].fase == Concluido(s.pedidos[r].fase.k)
  {
  }

  lemma StepOthers(s: State, s': State, r: nat)
    requires StepBy(s, s', r)
    ensures |s'.pedidos| == |s.pedidos| && s'.pedidos[r].pedido == s.pedidos[r].pedido
    ensures forall u :: 0 <= u < |s.pedidos| && u != r ==> s'.pedidos[u] == s.pedidos[u]
  {
  }

  /** An opening that found no session inserts a new and empty one, unless one is open by then. */
  lemma StepOpens(s: State, s': State, r: nat)
    requires StepBy(s, s', r) && s.pedidos[r].pedido.Abre? && s.pedidos[r].fase.NaoAchou?
    ensures |s'.pedidos| == |s.pedidos|
    ensures var p, fase := s.pedidos[r].pedido, s'.pedidos[r].fase;
            if NoneOpen(s.caixas, p.tenant)
            then fase == Concluido(|s.caixas|) && s'.caixas == s.caixas + [Caixa(p.novo, p.tenant, true, 0, 0)]
            else fase == Recusado && s'.caixas == s.caixas
  {
    var k := OpenIndex(s.caixas, s.pedidos[r].pedido.tenant);
    if k < |s.caixas| {
      assert OpenFor(s.caixas[k], s.pedidos[r].pedido.tenant);
    }
  }

  /** A closing that found a session closes that row, and no other row changes. */
  lemma StepCloses(s: State, s': State, r: nat)
    requires StepBy(s, s', r) && s.pedidos[r].pedido.Fecha? && !s.pedidos[r].fase.Inicio?
    ensures |s'.pedidos| == |s.pedidos| && |s'.caixas| == |s.caixas|
    ensures var fase := s.pedidos[r].fase;
            if fase.Achou? && fase.k < |s.caixas| then
              var c := s.caixas[fase.k];
              && s'.pedidos[r].fase == Concluido(fase.k)
              && s'.caixas[fase.k] == Caixa(c.id, c.tenant, false, c.totalVendas, c.quantidadeVendas)
              && forall k :: 0 <= k < |s.caixas| && k != fase.k ==> s'.caixas[k] == s.caixas[k]
            else s'.pedidos[r].fase == Recusado && s'.caixas == s.caixas
  {
  }

  ghost predicate IsRun(run: seq<State>, rs: seq<nat>) {
    && |run| == |rs| + 1
    && OneOpenPerTenant(run[0].caixas)
    && (forall r :: 0 <= r < |run[0].pedidos| ==> run[0].pedidos[r].fase.Inicio?)
    && forall i :: 0 <= i < |rs| ==> StepBy(run[i], run[i + 1], rs[i])
  }

  /** A request that found a session found one of its tenant. */
  ghost predicate AchouCerto(s: State, r: nat)
    requires r < |s.pedidos|
  {
    var p := s.pedidos[r];
    (p.fase.Achou? || p.fase.Concluido?) ==> p.fase.k < |s.caixas| && s.caixas[p.fase.k].tenant == p.pedido.tenant
  }

  ghost predicate Inv(s: State) {
    OneOpenPerTenant(s.caixas) && forall r :: 0 <= r < |s.pedidos| ==> AchouCerto(s, r)
  }

  /** Rows are only added; a row keeps its tenant, and once closed is never open again. */
  ghost predicate SoFecha(antes: seq<Caixa>, depois: seq<Caixa>) {
    && |antes| <= |depois|
    && forall k :: 0 <= k < |antes| ==>
         depois[k].tenant == antes[k].tenant && depois[k].id == antes[k].id && (depois[k].aberto ==> antes[k].aberto)
  }

  lemma StepOnlyCloses(s: State, s': State, r: nat)
    requires StepBy(s, s', r)
    ensures SoFecha(s.caixas, s'.caixas)
  {
  }

  lemma StepKeepsOneOpen(s: State, s': State, r: nat)
    requires Inv(s) && StepBy(s, s', r)
    ensures OneOpenPerTenant(s'.caixas)
  {
  }

  lemma StepKeepsInv(s: State, s': State, r: nat)
    requires Inv(s) && StepBy(s, s', r)
    ensures Inv(s')
  {
    StepKeepsOneOpen(s, s', r);
    StepOnlyCloses(s, s', r);
    forall u | 0 <= u < |s'.pedidos| ensures AchouCerto(s', u) {
      assert AchouCerto(s, u);
    }
  }

  lemma {:induction false} RunKeepsInv(run: seq<State>, rs: seq<nat>, i: nat)
    requires IsRun(run, rs) && i < |run|
    ensures Inv(run[i])
  {
    if i > 0 {
      RunKeepsInv(run, rs, i - 1);
      assert StepBy(run[i - 1], run[i], rs[i - 1]);
      StepKeepsInv(run[i - 1], run[i], rs[i - 1]);
    }
  }

  /** In every state of every interleaving a tenant has at most one open session. */
  lemma NeverTwoOpen(run: seq<State>, rs: seq<nat>, i: nat, a: nat, b: nat)
    requires IsRun(run, rs) && i < |run| && a < |run[i].caixas| && b < |run[i].caixas|
    requires run[i].caixas[a].aberto && run[i].caixas[b].aberto && run[i].caixas[a].tenant == run[i].caixas[b].tenant
    ensures a == b
  {
    RunKeepsInv(run, rs, i);
  }

  /** A session that was closed is never open again. */
  lemma {:induction false} ClosedStaysClosed(run: seq<State>, rs: seq<nat>, i: nat, j: nat)
    requires IsRun(run, rs) && i <= j < |run|
    ensures SoFecha(run[i].caixas, run[j].caixas)
  {
    if i < j {
      ClosedStaysClosed(run, rs, i, j - 1);
      assert StepBy(run[j - 1], run[j], rs[j - 1]);
      StepOnlyCloses(run[j - 1], run[j], rs[j - 1]);
    }
  }

  ghost predicate Fechou(s: State, r: nat)
    requires r < |s.pedidos|
  {
    var p := s.pedidos[r];
    p.pedido.Fecha? && p.fase.Concluido? ==> p.fase.k < |s.caixas| && !s.caixas[p.fase.k].aberto
  }

  ghost predicate TodosFecharam(s: State) {
    forall r :: 0 <= r < |s.pedidos| ==> Fechou(s, r)
  }

  lemma StepKeepsFechou(s: State, s': State, r: nat, u: nat)
    requires TodosFecharam(s) && StepBy(s, s', r) && u < |s'.pedidos|
    ensures Fechou(s', u)
  {
    assert Fechou(s, u);
    StepOnlyCloses(s, s', r);
  }

  /** In every state of every interleaving the session of a closing that concluded is one of its
      tenant's, and closed: no request that got in between opens it again. */
  lemma {:induction false} ConcludedIsClosed(run: seq<State>, rs: seq<nat>, i: nat, r: nat)
    requires IsRun(run, rs) && i < |run| && r < |run[i].pedidos|
    requires run[i].pedidos[r].pedido.Fecha? && run[i].pedidos[r].fase.Concluido?
    ensures var k := run[i].pedidos[r].fase.k;
            && k < |run[i].caixas|
            && run[i].caixas[k].tenant == run[i].pedidos[r].pedido.tenant && !run[i].caixas[k].aberto
  {
    RunKeepsInv(run, rs, i);
    assert AchouCerto(run[i], r);
    RunCloses(run, rs, i);
    assert Fechou(run[i], r);
  }

  lemma {:induction false} RunCloses(run: seq<State>, rs: seq<nat>, i: nat)
    requires IsRun(run, rs) && i < |run|
    ensures TodosFecharam(run[i])
  {
    if i > 0 {
      RunCloses(run, rs, i - 1);
      var s, s' := run[i - 1], run[i];
      assert StepBy(s, s', rs[i - 1]);
      forall u | 0 <= u < |s'.pedidos| ensures Fechou(s', u) {
        StepKeepsFechou(s, s', rs[i - 1], u);
      }
    }
  }

  /** An opening that read no open session is refused exactly when its tenant has one by the time it
      writes: another request got in between. */
  lemma RefusedIff(run: seq<State>, rs: seq<nat>, i: nat)
    requires IsRun(run, rs) && i < |rs|
    requires rs[i] < |run[i].pedidos| && run[i].pedidos[rs[i]].pedido.Abre? && run[i].pedidos[rs[i]].fase.NaoAchou?
    ensures rs[i] < |run[i + 1].pedidos|
    ensures run[i + 1].pedidos[rs[i]].fase.Recusado? <==>
              exists k :: 0 <= k < |run[i].caixas| && OpenFor(run[i].caixas[k], run[i].pedidos[rs[i]].pedido.tenant)
  {
    assert StepBy(run[i], run[i + 1], rs[i]);
    var tenant := run[i].pedidos[rs[i]].pedido.tenant;
    var k := OpenIndex(run[i].caixas, tenant);
    if k < |run[i].caixas| {
      assert OpenFor(run[i].caixas[k], tenant);
    }
  }
}
