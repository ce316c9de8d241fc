/** How the two checkout scripts relate: the strategies they share agree, a PIX order without
    gift wrap costs the same in both, and the variants differ in where the gift fee is added. */
module Comparacao {
  import opened Itens
  import F = CheckoutFacade
  import S = CheckoutStrategy

  /** The strategy classes of the decorator script, as the same classes of the strategy script. */
  function FreteNaEstrategia(f: F.Frete): (g: S.Frete)
    ensures g != S.FreteTeletransporte
  {
    match f
    case FreteNormal => S.FreteNormal
    case FreteExpresso => S.FreteExpresso
  }

  function PagamentoNaEstrategia(pg: F.Pagamento): (h: S.Pagamento)
    ensures h != S.PagamentoMana
  {
    match pg
    case PagamentoPix => S.PagamentoPix
    case PagamentoCredito => S.PagamentoCredito
  }

  /** The shipping and payment classes both scripts declare compute the same thing. */
  lemma EstrategiasCompartilhadasConcordam(f: F.Frete, pg: F.Pagamento, x: real)
    ensures S.CalcularFrete(FreteNaEstrategia(f), x) == F.CalcularFrete(f, x)
    ensures S.ProcessarPagamento(PagamentoNaEstrategia(pg), x) == F.ProcessarPagamento(pg, x)
  {
  }

  /** A PIX order without gift wrap: the strategy script's automatic discount gives the same
      final amount and verdict as the decorator script with an explicit PIX discount. */
  lemma PixSemEmbalagemCoincide(itens: seq<Item>, f: F.Frete)
    ensures var fp := F.Pedido(itens, F.PagamentoPix, f, [F.DescontoPix]);
            var sp := S.Pedido(itens, S.PagamentoPix, FreteNaEstrategia(f), false);
            F.ValorFinal(fp) == S.ValorFinal(sp)
            && F.ProcessarPagamento(fp.pagamento, F.ValorFinal(fp))
               == S.ProcessarPagamento(sp.pagamento, S.ValorFinal(sp))
  {
    assert [F.DescontoPix][1..] == [];
  }

  /** Where the gift fee goes: the decorator script adds it before shipping, so shipping is also
      charged on it (5% or 10% of 5.00); the strategy script adds it after shipping. */
  lemma TaxaAntesOuDepoisDoFrete(itens: seq<Item>, f: F.Frete)
    ensures var fp := F.Pedido(itens, F.PagamentoPix, f, [F.DescontoPix, F.TaxaEmbalagemPresente]);
            var sp := S.Pedido(itens, S.PagamentoPix, FreteNaEstrategia(f), true);
            F.ValorFinal(fp) - S.ValorFinal(sp) == (if f == F.FreteNormal then 0.25 else 0.5)
  {
    var ds := [F.DescontoPix, F.TaxaEmbalagemPresente];
    assert ds[1..] == [F.TaxaEmbalagemPresente] && ds[1..][1..] == [];
  }
}
