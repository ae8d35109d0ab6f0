/** The tracked entities whose methods change their own fields. A refused call stands for the
    exception the source throws. */
module Entities {
  import opened CashSessions
  import opened Identifiers
  import opened Texts

  /** An ingredient loaded for update. Quantities are in units of 0.0001. */
  class Insumo {
    const id: Id
    const estoqueMinimo: real
    var quantidadeEstoque: real

    constructor (id: Id, saldo: int, estoqueMinimo: real)
      ensures this.id == id && this.estoqueMinimo == estoqueMinimo && quantidadeEstoque == saldo as real
    {
      this.id, this.estoqueMinimo, this.quantidadeEstoque := id, estoqueMinimo, saldo as real;
    }

    method DebitarEstoque(quantidade: real) returns (ok: bool)
      modifies this`quantidadeEstoque
      ensures ok <==> 0.0 < quantidade <= old(quantidadeEstoque)
      ensures quantidadeEstoque == if ok then old(quantidadeEstoque) - quantidade else old(quantidadeEstoque)
    {
      if quantidade <= 0.0 || quantidadeEstoque < quantidade {
        return false;
      }
      quantidadeEstoque := quantidadeEstoque - quantidade;
      return true;
    }

    method CreditarEstoque(quantidade: real) returns (ok: bool)
      modifies this`quantidadeEstoque
      ensures ok <==> 0.0 < quantidade
      ensures quantidadeEstoque == if ok then old(quantidadeEstoque) + quantidade else old(quantidadeEstoque)
    {
      if quantidade <= 0.0 {
        return false;
      }
      quantidadeEstoque := quantidadeEstoque + quantidade;
      return true;
    }
  }

  class Venda {
    const caixa: Id
    const formaPagamento: string
    var itens: seq<ItemVenda>
    var valorTotal: int

    ghost predicate Valid()
      reads this
    {
      valorTotal == TotalOf(itens)
    }

    /** A blank payment form is refused; any other is stored trimmed. */
    constructor (caixa: Id, formaPagamento: string)
      requires !Blank(formaPagamento)
      ensures Valid() && this.caixa == caixa && this.formaPagamento == Trimmed(formaPagamento) && itens == []
    {
      this.caixa, this.formaPagamento, itens, valorTotal := caixa, Trimmed(formaPagamento), [], 0;
    }

    method AdicionarItem(item: ItemVenda) returns (ok: bool)
      requires Valid()
      modifies this
      ensures Valid()
      ensures ok <==> item.quantidade > 0.0
      ensures itens == if ok then old(itens) + [item] else old(itens)
    {
      if item.quantidade <= 0.0 {
        return false;
      }
      itens := itens + [item];
      valorTotal := valorTotal + item.Subtotal();
      assert itens[..|itens| - 1] == old(itens);
      return true;
    }
  }

  class FechamentoCaixa {
    const id: Id
    const tenant: Id
    var aberto: bool
    var totalVendas: int
    var quantidadeVendas: nat

    function ToRow(): Caixa
      reads this
    {
      Caixa(id, tenant, aberto, totalVendas, quantidadeVendas)
    }

    constructor (row: Caixa)
      ensures ToRow() == row
    {
      id, tenant, aberto := row.id, row.tenant, row.aberto;
      totalVendas, quantidadeVendas := row.totalVendas, row.quantidadeVendas;
    }

    method RegistrarVenda(valor: int) returns (ok: bool)
      modifies this`totalVendas, this`quantidadeVendas
      ensures ok <==> aberto && valor >= 0
      ensures ToRow() == if ok then old(ToRow()).(totalVendas := old(totalVendas) + valor,
                                              quantidadeVendas := old(quantidadeVendas) + 1)
                       else old(ToRow())
    {
      if !aberto || valor < 0 {
        return false;
      }
      totalVendas := totalVendas + valor;
      quantidadeVendas := quantidadeVendas + 1;
      return true;
    }

    method Encerrar() returns (ok: bool)
      modifies this`aberto
      ensures ok == old(aberto)
      ensures ToRow() == old(ToRow()).(aberto := false)
    {
      if !aberto {
        return false;
      }
      aberto := false;
      return true;
    }
  }
}
