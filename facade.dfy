/** The decorator variant of checkout (checkout_monolitico_facade.py): the base cost is wrapped
    by cost decorators in list order, shipping is computed on the adjusted cost, and the payment
    strategy decides on adjusted cost plus shipping. */
module CheckoutFacade {
  import opened Itens

  /** The decorator classes an order may list. */
  datatype Decorador = DescontoPix | TaxaEmbalagemPresente

  /** The shipping strategies of this script. */
  datatype Frete = FreteNormal | FreteExpresso

  /** The payment strategies of this script. */
  datatype Pagamento = PagamentoPix | PagamentoCredito

  /** A cost object: the base order, or a decorator wrapping another cost object. */
  datatype CustoPedido = PedidoBase(itens: seq<Item>) | Decorado(decorador: Decorador, pedido: CustoPedido)

  /** The order handed to checkout; its decorators are applied in list order. */
  datatype Pedido = Pedido(itens: seq<Item>, pagamento: Pagamento, frete: Frete, decoradores: seq<Decorador>)

  const TaxaEmbalagem: real := 5.00
  const LimiteCredito: real := 1000.0

  /** What one decorator makes of the cost returned by the object it wraps. */
  function Aplicar(d: Decorador, custo: real): (r: real)
    ensures d == DescontoPix ==> r == 0.95 * custo
    ensures d == DescontoPix && custo >= 0.0 ==> 0.0 <= r <= custo
    ensures d == TaxaEmbalagemPresente ==> r - custo == TaxaEmbalagem
  {
    match d
    case DescontoPix => custo - custo * 0.05
    case TaxaEmbalagemPresente => custo + TaxaEmbalagem
  }

  /** `calcular_custo`: the base order returns its base cost, a decorator asks the object it
      wraps and modifies the answer. */
  function CalcularCusto(p: CustoPedido): real
  {
    match p
    case PedidoBase(itens) => ValorBase(itens)
    case Decorado(d, inner) => Aplicar(d, CalcularCusto(inner))
  }

  /** Reference definition of the adjusted cost: the decorators as a left fold, the first one
      in the list acting first on the running cost. */
  function AplicarEmOrdem(custo: real, ds: seq<Decorador>): real
    decreases |ds|
  {
    if ds == [] then custo else AplicarEmOrdem(Aplicar(ds[0], custo), ds[1..])
  }

  /** The chain of cost objects for an order: the base order wrapped by each decorator in turn,
      so the last decorator in the list is the outermost object. */
  function Construir(itens: seq<Item>, ds: seq<Decorador>): CustoPedido
    decreases |ds|
  {
    if ds == [] then PedidoBase(itens) else Decorado(ds[|ds| - 1], Construir(itens, ds[..|ds| - 1]))
  }

  /** `calcular_frete` of the two shipping strategies. */
  function CalcularFrete(f: Frete, valorComDesconto: real): (r: real)
    ensures f == FreteNormal ==> r == valorComDesconto / 20.0
    ensures f == FreteExpresso ==> r - 15.00 == valorComDesconto / 10.0
    ensures valorComDesconto >= 0.0 ==> r >= 0.0
    ensures f == FreteNormal ==> (r >= 0.0 <==> valorComDesconto >= 0.0)
    ensures f == FreteExpresso ==> (r >= 0.0 <==> valorComDesconto >= -150.0)
  {
    match f
    case FreteNormal => valorComDesconto * 0.05
    case FreteExpresso => valorComDesconto * 0.10 + 15.00
  }

  /** `processar_pagamento`: true when the payment is approved. */
  function ProcessarPagamento(pg: Pagamento, valorFinal: real): (aprovado: bool)
    ensures pg == PagamentoPix ==> aprovado
    ensures pg == PagamentoCredito ==> (aprovado <==> valorFinal < LimiteCredito)
  {
    match pg
    case PagamentoPix => true
    case PagamentoCredito => valorFinal < LimiteCredito
  }

  /** The adjusted cost of an order: its base cost folded through its decorators. */
  function ValorComDesconto(p: Pedido): real
  {
    AplicarEmOrdem(ValorBase(p.itens), p.decoradores)
  }

  /** The amount submitted to payment: adjusted cost plus the shipping computed on it. */
  function ValorFinal(p: Pedido): (r: real)
    ensures ValorComDesconto(p) >= 0.0 ==> r >= ValorComDesconto(p)
  {
    ValorComDesconto(p) + CalcularFrete(p.frete, ValorComDesconto(p))
  }

  /** Applying one more decorator after a chain extends the fold by one step. */
  lemma {:induction false} AplicarEmOrdemSnoc(custo: real, ds: seq<Decorador>, d: Decorador)
    ensures AplicarEmOrdem(custo, ds + [d]) == Aplicar(d, AplicarEmOrdem(custo, ds))
    decreases |ds|
  {
    if ds == [] {
      assert [d][1..] == [];
    } else {
      assert (ds + [d])[1..] == ds[1..] + [d];
      AplicarEmOrdemSnoc(Aplicar(ds[0], custo), ds[1..], d);
    }
  }

  /** Folding over two decorator lists one after the other is folding over their concatenation. */
  lemma {:induction false} AplicarEmOrdemConcat(custo: real, ds: seq<Decorador>, es: seq<Decorador>)
    ensures AplicarEmOrdem(custo, ds + es) == AplicarEmOrdem(AplicarEmOrdem(custo, ds), es)
    decreases |ds|
  {
    if ds == [] {
      assert ds + es == es;
    } else {
      assert (ds + es)[1..] == ds[1..] + es;
      AplicarEmOrdemConcat(Aplicar(ds[0], custo), ds[1..], es);
    }
  }

  /** Delegating `calcular_custo` through the built chain computes the left fold of the
      decorators over the base cost. */
  lemma {:induction false} ConstruirCalculaEmOrdem(itens: seq<Item>, ds: seq<Decorador>)
    ensures CalcularCusto(Construir(itens, ds)) == AplicarEmOrdem(ValorBase(itens), ds)
    decreases |ds|
  {
    if ds != [] {
      var ini := ds[..|ds| - 1];
      ConstruirCalculaEmOrdem(itens, ini);
      AplicarEmOrdemSnoc(ValorBase(itens), ini, ds[|ds| - 1]);
      assert ini + [ds[|ds| - 1]] == ds;
    }
  }

  /** With no decorators the adjusted cost is the base cost. */
  lemma SemDecoradores(p: Pedido)
    requires p.decoradores == []
    ensures ValorComDesconto(p) == ValorBase(p.itens)
  {
  }

  /** Every decorator chain is strictly increasing in the cost it starts from. */
  lemma {:induction false} AplicarEmOrdemCrescente(a: real, b: real, ds: seq<Decorador>)
    requires a < b
    ensures AplicarEmOrdem(a, ds) < AplicarEmOrdem(b, ds)
    decreases |ds|
  {
    if ds != [] {
      AplicarEmOrdemCrescente(Aplicar(ds[0], a), Aplicar(ds[0], b), ds[1..]);
    }
  }

  /** From a non-negative cost every decorator chain stays non-negative. */
  lemma {:induction false} AplicarEmOrdemNaoNegativo(custo: real, ds: seq<Decorador>)
    requires custo >= 0.0
    ensures AplicarEmOrdem(custo, ds) >= 0.0
    decreases |ds|
  {
    if ds != [] {
      AplicarEmOrdemNaoNegativo(Aplicar(ds[0], custo), ds[1..]);
    }
  }

  /** A chain made only of discounts never raises a non-negative cost. */
  lemma {:induction false} SoDescontosNaoEncarecem(custo: real, ds: seq<Decorador>)
    requires custo >= 0.0
    requires forall i :: 0 <= i < |ds| ==> ds[i] == DescontoPix
    ensures 0.0 <= AplicarEmOrdem(custo, ds) <= custo
    decreases |ds|
  {
    if ds != [] {
      SoDescontosNaoEncarecem(Aplicar(ds[0], custo), ds[1..]);
    }
  }

  /** Decorator order matters: discount-then-fee and fee-then-discount always differ by 0.25. */
  lemma OrdemImporta(b: real)
    ensures AplicarEmOrdem(b, [DescontoPix, TaxaEmbalagemPresente]) == 0.95 * b + 5.0
    ensures AplicarEmOrdem(b, [TaxaEmbalagemPresente, DescontoPix]) == 0.95 * (b + 5.0)
    ensures AplicarEmOrdem(b, [DescontoPix, TaxaEmbalagemPresente])
            - AplicarEmOrdem(b, [TaxaEmbalagemPresente, DescontoPix]) == 0.25
  {
    assert [DescontoPix, TaxaEmbalagemPresente][1..] == [TaxaEmbalagemPresente];
    assert [TaxaEmbalagemPresente, DescontoPix][1..] == [DescontoPix];
    assert [TaxaEmbalagemPresente][1..] == [] && [DescontoPix][1..] == [];
    assert AplicarEmOrdem(0.95 * b, [TaxaEmbalagemPresente]) == 0.95 * b + 5.0;
    assert AplicarEmOrdem(b + 5.0, [DescontoPix]) == 0.95 * (b + 5.0);
  }

  /** Both shipping strategies are strictly increasing in the adjusted cost. */
  lemma FreteCrescente(x: real, y: real)
    requires x < y
    ensures CalcularFrete(FreteExpresso, x) < CalcularFrete(FreteExpresso, y)
    ensures CalcularFrete(FreteNormal, x) < CalcularFrete(FreteNormal, y)
  {
  }

  /** Credit card approval is strict at its limit of 1000. */
  lemma LimiteCreditoEstrito()
    ensures ProcessarPagamento(PagamentoCredito, 999.99)
    ensures !ProcessarPagamento(PagamentoCredito, 1000.0)
    ensures !ProcessarPagamento(PagamentoCredito, 1000.01)
  {
  }

  /** The final amount grows strictly with the base cost, whatever the decorators and shipping. */
  lemma ValorFinalCrescente(p: Pedido, q: Pedido)
    requires p.frete == q.frete && p.decoradores == q.decoradores
    requires ValorBase(p.itens) < ValorBase(q.itens)
    ensures ValorFinal(p) < ValorFinal(q)
  {
    AplicarEmOrdemCrescente(ValorBase(p.itens), ValorBase(q.itens), p.decoradores);
  }

  /** For a non-negative base cost the final amount is at least the adjusted cost, which is
      itself non-negative. */
  lemma ValorFinalNaoNegativo(p: Pedido)
    requires forall i :: 0 <= i < |p.itens| ==> p.itens[i].valor >= 0.0
    ensures 0.0 <= ValorComDesconto(p) <= ValorFinal(p)
  {
    AplicarEmOrdemNaoNegativo(ValorBase(p.itens), p.decoradores);
  }

  /** `finalizar_compra`: wrap the base order in the decorators one after the other, compute the
      shipping on the adjusted cost and report the payment strategy's verdict on the sum. */
  method FinalizarCompra(p: Pedido) returns (sucesso: bool)
    ensures sucesso == ProcessarPagamento(p.pagamento, ValorFinal(p))
    ensures p.pagamento == PagamentoCredito ==> (sucesso <==> ValorFinal(p) < LimiteCredito)
  {
    var pedido := PedidoBase(p.itens);
    for i := 0 to |p.decoradores|
      invariant pedido == Construir(p.itens, p.decoradores[..i])
      invariant CalcularCusto(pedido) == AplicarEmOrdem(ValorBase(p.itens), p.decoradores[..i])
    {
      AplicarEmOrdemSnoc(ValorBase(p.itens), p.decoradores[..i], p.decoradores[i]);
      assert p.decoradores[..i + 1] == p.decoradores[..i] + [p.decoradores[i]];
      assert p.decoradores[..i + 1][..i] == p.decoradores[..i];
      pedido := Decorado(p.decoradores[i], pedido);
    }
    assert p.decoradores[..|p.decoradores|] == p.decoradores;
    var valorComDesconto := CalcularCusto(pedido);
    var custoFrete := CalcularFrete(p.frete, valorComDesconto);
    var valorFinal := valorComDesconto + custoFrete;
    sucesso := ProcessarPagamento(p.pagamento, valorFinal);
  }

  /** First scenario: items 150 and 80, PIX discount, normal shipping, PIX payment. */
  lemma Cenario1()
    ensures var p := Pedido([Item("Capa da Invisibilidade", 150.0), Item("Poção de Voo", 80.0)],
                            PagamentoPix, FreteNormal, [DescontoPix]);
            ValorBase(p.itens) == 230.0 && ValorComDesconto(p) == 218.5
            && CalcularFrete(p.frete, ValorComDesconto(p)) == 10.925
            && ValorFinal(p) == 229.425 && ProcessarPagamento(p.pagamento, ValorFinal(p))
  {
    var itens := [Item("Capa da Invisibilidade", 150.0), Item("Poção de Voo", 80.0)];
    assert itens[..1][..0] == [];
    assert [DescontoPix][1..] == [];
  }

  /** Second scenario: one item of 600, gift wrap, express shipping, credit card. */
  lemma Cenario2()
    ensures var p := Pedido([Item("Cristal Mágico", 600.0)], PagamentoCredito, FreteExpresso,
                            [TaxaEmbalagemPresente]);
            ValorComDesconto(p) == 605.0 && CalcularFrete(p.frete, ValorComDesconto(p)) == 75.5
            && ValorFinal(p) == 680.5 && ProcessarPagamento(p.pagamento, ValorFinal(p))
  {
    ValorBaseUnitario(Item("Cristal Mágico", 600.0));
    assert [TaxaEmbalagemPresente][1..] == [];
  }
}
