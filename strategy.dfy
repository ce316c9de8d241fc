/** The strategy variant of checkout (checkout_monolitico_strategy.py): a fixed discount rule
    keyed on the payment type, shipping on the discounted value, an optional gift fee added after
    shipping, and the payment strategy's verdict on the result. */
module CheckoutStrategy {
  import opened Itens

  /** The payment strategies of this script. */
  datatype Pagamento = PagamentoPix | PagamentoCredito | PagamentoMana

  /** The shipping strategies of this script. */
  datatype Frete = FreteNormal | FreteExpresso | FreteTeletransporte

  /** The order: items, strategies and whether it is gift-wrapped. */
  datatype Pedido = Pedido(itens: seq<Item>, pagamento: Pagamento, frete: Frete, temEmbalagemPresente: bool)

  const TaxaEmbalagem: real := 5.00
  const LimiteCredito: real := 1000.0
  const LimitePedidoGrande: real := 500.0

  /** `calcular_frete` of the three shipping strategies. */
  function CalcularFrete(f: Frete, valorComDesconto: real): (r: real)
    ensures f == FreteNormal ==> r == valorComDesconto / 20.0
    ensures f == FreteExpresso ==> r - 15.00 == valorComDesconto / 10.0
    ensures f == FreteTeletransporte ==> r == 50.0
    ensures valorComDesconto >= 0.0 ==> r >= 0.0
    ensures f == FreteNormal ==> (r >= 0.0 <==> valorComDesconto >= 0.0)
    ensures f == FreteExpresso ==> (r >= 0.0 <==> valorComDesconto >= -150.0)
  {
    match f
    case FreteNormal => valorComDesconto * 0.05
    case FreteExpresso => valorComDesconto * 0.10 + 15.00
    case FreteTeletransporte => 50.00
  }

  /** `processar_pagamento`: PIX and Mana always approve, credit only below the limit. */
  function ProcessarPagamento(pg: Pagamento, valorFinal: real): (aprovado: bool)
    ensures pg != PagamentoCredito ==> aprovado
    ensures pg == PagamentoCredito ==> (aprovado <==> valorFinal < LimiteCredito)
  {
    match pg
    case PagamentoPix => true
    case PagamentoCredito => valorFinal < LimiteCredito
    case PagamentoMana => true
  }

  /** `aplicar_desconto`: PIX gets 5% off whatever the amount; otherwise an order worth more
      than 500 gets 10% off; otherwise the base cost is kept. */
  function AplicarDesconto(p: Pedido): (r: real)
    ensures p.pagamento == PagamentoPix ==> r == 0.95 * ValorBase(p.itens)
    ensures p.pagamento != PagamentoPix && ValorBase(p.itens) > LimitePedidoGrande
            ==> r == 0.90 * ValorBase(p.itens)
    ensures p.pagamento != PagamentoPix && ValorBase(p.itens) <= LimitePedidoGrande
            ==> r == ValorBase(p.itens)
    ensures ValorBase(p.itens) >= 0.0 ==> 0.0 <= r <= ValorBase(p.itens)
  {
    var valorBase := ValorBase(p.itens);
    if p.pagamento == PagamentoPix then valorBase * 0.95
    else if valorBase > LimitePedidoGrande then valorBase * 0.90
    else valorBase
  }

  /** The amount submitted to payment: the discounted value, its shipping, then the gift fee. */
  function ValorFinal(p: Pedido): (r: real)
    ensures AplicarDesconto(p) >= 0.0
            ==> r >= AplicarDesconto(p) + (if p.temEmbalagemPresente then TaxaEmbalagem else 0.0)
  {
    var valorAposDesconto := AplicarDesconto(p);
    var valorFinal := valorAposDesconto + CalcularFrete(p.frete, valorAposDesconto);
    if p.temEmbalagemPresente then valorFinal + TaxaEmbalagem else valorFinal
  }

  /** `finalizar_compra`: discount, shipping, gift fee, then the payment strategy's verdict. */
  method FinalizarCompra(p: Pedido) returns (sucesso: bool)
    ensures sucesso == ProcessarPagamento(p.pagamento, ValorFinal(p))
    ensures p.pagamento == PagamentoCredito ==> (sucesso <==> ValorFinal(p) < LimiteCredito)
  {
    var valorAposDesconto := AplicarDesconto(p);
    var custoFrete := CalcularFrete(p.frete, valorAposDesconto);
    var valorFinal := valorAposDesconto + custoFrete;
    if p.temEmbalagemPresente {
      var taxa := TaxaEmbalagem;
      valorFinal := valorFinal + taxa;
    }
    sucesso := ProcessarPagamento(p.pagamento, valorFinal);
  }

  /** The PIX rule wins over the large-order rule: a PIX order above 500 gets 5% off, not 10%. */
  lemma PixPrecedeDescontoGrande(p: Pedido)
    requires p.pagamento == PagamentoPix && ValorBase(p.itens) > LimitePedidoGrande
    ensures AplicarDesconto(p) == 0.95 * ValorBase(p.itens)
    ensures AplicarDesconto(p) != 0.90 * ValorBase(p.itens)
  {
  }

  /** The large-order threshold is strict: a non-PIX order of exactly 500 keeps its value. */
  lemma LimitePedidoGrandeEstrito(p: Pedido)
    requires p.pagamento != PagamentoPix && ValorBase(p.itens) == 500.0
    ensures AplicarDesconto(p) == 500.0
  {
  }

  /** Shipping sees the discounted value only, and the gift fee is added after it: the same order
      with and without gift wrapping differs by exactly the fee. */
  lemma TaxaDepoisDoFrete(p: Pedido)
    ensures ValorFinal(p) == AplicarDesconto(p) + CalcularFrete(p.frete, AplicarDesconto(p))
                             + (if p.temEmbalagemPresente then TaxaEmbalagem else 0.0)
    ensures ValorFinal(p.(temEmbalagemPresente := true))
            == ValorFinal(p.(temEmbalagemPresente := false)) + TaxaEmbalagem
  {
  }

  /** The large-order discount makes the final amount jump down at 500: without PIX, an order of
      500 pays more than an order of 510 with the same shipping and wrapping, for every shipping
      strategy. */
  lemma DescontoGrandeSaltaNoLimite(p: Pedido, q: Pedido)
    requires p.pagamento == q.pagamento != PagamentoPix
    requires p.frete == q.frete
    requires p.temEmbalagemPresente == q.temEmbalagemPresente
    requires ValorBase(p.itens) == 500.0 && ValorBase(q.itens) == 510.0
    ensures ValorFinal(q) < ValorFinal(p)
  {
  }

  /** For non-negative item values the final amount is at least the discounted value. */
  lemma ValorFinalNaoNegativo(p: Pedido)
    requires forall i :: 0 <= i < |p.itens| ==> p.itens[i].valor >= 0.0
    ensures 0.0 <= AplicarDesconto(p) <= ValorFinal(p)
  {
  }

  /** Credit card approval is strict at its limit of 1000. */
  lemma LimiteCreditoEstrito()
    ensures ProcessarPagamento(PagamentoCredito, 999.99)
    ensures !ProcessarPagamento(PagamentoCredito, 1000.0)
    ensures !ProcessarPagamento(PagamentoCredito, 1000.01)
  {
  }

  /** First scenario: items 150 and 80, PIX, normal shipping, no gift wrap. */
  lemma Cenario1()
    ensures var p := Pedido([Item("Capa da Invisibilidade", 150.0), Item("Poção de Voo", 80.0)],
                            PagamentoPix, FreteNormal, false);
            AplicarDesconto(p) == 218.5 && ValorFinal(p) == 229.425
            && ProcessarPagamento(p.pagamento, ValorFinal(p))
  {
    var itens := [Item("Capa da Invisibilidade", 150.0), Item("Poção de Voo", 80.0)];
    assert itens[..1][..0] == [];
  }

  /** Second scenario: one item of 600 by credit card, express shipping, gift wrap:
      540 + 69 + 5 = 614, approved. */
  lemma Cenario2()
    ensures var p := Pedido([Item("Cristal Mágico", 600.0)], PagamentoCredito, FreteExpresso, true);
            AplicarDesconto(p) == 540.0 && CalcularFrete(p.frete, AplicarDesconto(p)) == 69.0
            && ValorFinal(p) == 614.0 && ProcessarPagamento(p.pagamento, ValorFinal(p))
  {
    ValorBaseUnitario(Item("Cristal Mágico", 600.0));
  }
}
