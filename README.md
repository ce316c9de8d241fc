# Checkout pricing pipeline, in two variants

This project models the checkout of an order in the FlexOrder design-pattern scripts. An order holds
a list of items, each with a `valor`. It also names a payment strategy and a shipping strategy.
Checkout works out the amount due and returns whether the payment strategy approves it. Both
scripts are modelled:

- **Decorator variant** (`checkout_monolitico_facade.py`, module `CheckoutFacade`). The base
  order's cost is the sum of its item values. The order's decorators wrap the base order one after
  the other, in list order. `DescontoPix` takes 5% off the wrapped cost and `TaxaEmbalagemPresente`
  adds 5.00. Shipping is computed on the adjusted cost: `FreteNormal` is 5% of it, `FreteExpresso`
  is 10% of it plus 15.00. The final amount is adjusted cost plus shipping. `PagamentoPix`
  approves any amount; `PagamentoCredito` approves amounts below 1000.
- **Strategy variant** (`checkout_monolitico_strategy.py`, module `CheckoutStrategy`). The discount
  rule is fixed and depends on the payment type. PIX gets 5% off. Any other payment gets 10% off
  when the base cost is above 500. Shipping has a third, flat option, `FreteTeletransporte` (50.00).
  The gift-wrap fee of 5.00 is added *after* shipping. Payment has a third method, `PagamentoMana`,
  which always approves.

Module `Itens` holds the item record and the base-cost sum that both scripts share. Module
`Comparacao` relates the two variants to each other.

Money is Dafny's exact `real`. The two scenarios of each script therefore come out in the model at
exactly 229.425, 680.5 and 614. The scripts compute in floating point and print with two decimals,
so they show two-decimal values of these amounts.

The cost objects of the decorator script are the datatype `CustoPedido`: either the base order, or
a decorator wrapping another cost object. `CalcularCusto` delegates through that chain, as the
script's `calcular_custo` does. `FinalizarCompra` builds the chain in a loop, one decorator per
step, as the script's `for` loop does. The loop invariant ties the chain's cost to
`AplicarEmOrdem`, the left fold of the decorators over the base cost. Every other property of the
decorator chain is proved about that fold.

A few consequences of the code are worth stating:

- On approval, the scripts only print messages about stock and the invoice
  (checkout_monolitico_facade.py:120-121), so checkout returns the approval boolean and nothing else.
- [`DescontoPix`, `TaxaEmbalagemPresente`] and the reverse order always differ by exactly 0.25,
  whatever the base cost (`CheckoutFacade.OrdemImporta`).
- The strategy script picks its discount from the payment type
  (checkout_monolitico_strategy.py:74), not from a modifier the caller lists.
- Shipping is never clamped. Normal shipping of a negative adjusted cost is negative, express
  shipping is negative below −150, and teleport shipping is 50.00 whatever the input. Every
  strategy gives non-negative shipping for a non-negative input (`CalcularFrete` in both modules).

## Model

| member | source | states |
|---|---|---|
| `Itens.ValorBase` | checkout_monolitico_facade.py:15-17 | the base cost of no items is 0; when every item value is non-negative, so is the base cost |
| `Itens.ValorBaseConcat` | checkout_monolitico_facade.py:17 | the base cost of two item lists joined is the sum of the two base costs |
| `Itens.ValorBaseUnitario` | checkout_monolitico_strategy.py:71 | the base cost of a single item is that item's value |
| `Itens.ValorBaseCresceComItem` | checkout_monolitico_strategy.py:71 | adding an item of non-negative value never lowers the base cost |
| `CheckoutFacade.CalcularCusto` | checkout_monolitico_facade.py:19-45 | `calcular_custo`: the base order returns its base cost; a decorator applies its change to the cost of the object it wraps (its meaning for a whole chain is `ConstruirCalculaEmOrdem`) |
| `CheckoutFacade.AplicarEmOrdem` | checkout_monolitico_facade.py:106-110 | reference definition of the adjusted cost: the decorators folded left over the running cost, first in the list acting first |
| `CheckoutFacade.Construir` | checkout_monolitico_facade.py:106-108 | the object chain for an order: the base order wrapped by each decorator in turn, the last one outermost |
| `CheckoutFacade.ConstruirCalculaEmOrdem` | checkout_monolitico_facade.py:106-110 | the built chain's `calcular_custo` equals the left fold of the decorators over the base cost |
| `CheckoutFacade.ValorComDesconto` | checkout_monolitico_facade.py:106-110 | the adjusted cost of an order: its base cost folded through its decorators |
| `CheckoutFacade.ValorFinal` | checkout_monolitico_facade.py:113-114 | adjusted cost plus the shipping computed on it; at least the adjusted cost when that is non-negative |
| `CheckoutFacade.Aplicar` | checkout_monolitico_facade.py:33-45 | `DescontoPix` gives exactly 0.95 times the wrapped cost, which stays between 0 and that cost when the cost is non-negative; `TaxaEmbalagemPresente` adds exactly 5.00 |
| `CheckoutFacade.CalcularFrete` | checkout_monolitico_facade.py:55-65 | normal shipping is a twentieth of the adjusted cost; express shipping is a tenth of it plus 15.00; both are non-negative for a non-negative cost; normal shipping is non-negative exactly for a non-negative cost, express exactly for a cost of at least −150 |
| `CheckoutFacade.ProcessarPagamento` | checkout_monolitico_facade.py:75-89 | PIX always approves; credit approves exactly when the amount is below 1000 |
| `CheckoutFacade.AplicarEmOrdemSnoc` | checkout_monolitico_facade.py:106-108 | wrapping one more decorator around a chain applies that decorator to the chain's fold result |
| `CheckoutFacade.AplicarEmOrdemConcat` | checkout_monolitico_facade.py:106-110 | folding two decorator lists one after the other equals folding their concatenation |
| `CheckoutFacade.SemDecoradores` | checkout_monolitico_facade.py:106-110 | with no decorators, the adjusted cost is the base cost |
| `CheckoutFacade.AplicarEmOrdemCrescente` | checkout_monolitico_facade.py:106-110 | every decorator chain is strictly increasing in the cost it starts from |
| `CheckoutFacade.AplicarEmOrdemNaoNegativo` | checkout_monolitico_facade.py:106-110 | from a non-negative base cost, every decorator chain gives a non-negative adjusted cost |
| `CheckoutFacade.SoDescontosNaoEncarecem` | checkout_monolitico_facade.py:33-38 | a chain of PIX discounts only keeps a non-negative cost between 0 and its starting value |
| `CheckoutFacade.OrdemImporta` | checkout_monolitico_facade.py:33-45 | [discount, fee] gives 0.95·b + 5 and [fee, discount] gives 0.95·(b + 5); the two always differ by 0.25 |
| `CheckoutFacade.FreteCrescente` | checkout_monolitico_facade.py:55-65 | express and normal shipping are both strictly increasing in the adjusted cost |
| `CheckoutFacade.LimiteCreditoEstrito` | checkout_monolitico_facade.py:81-89 | credit approves 999.99 and rejects both 1000 and 1000.01 |
| `CheckoutFacade.ValorFinalCrescente` | checkout_monolitico_facade.py:105-114 | with the same decorators and shipping, an order with a higher base cost has a strictly higher final amount |
| `CheckoutFacade.ValorFinalNaoNegativo` | checkout_monolitico_facade.py:105-114 | for non-negative item values, 0 ≤ adjusted cost ≤ final amount |
| `CheckoutFacade.FinalizarCompra` | checkout_monolitico_facade.py:101-125 | builds the decorator chain in list order (the loop keeps it equal to `Construir` of the decorators seen so far); returns the payment strategy's verdict on the adjusted cost plus the shipping computed on it; with credit, succeeds exactly when that final amount is below 1000 |
| `CheckoutFacade.Cenario1` | checkout_monolitico_facade.py:131-137 | items 150 and 80 with the PIX discount and normal shipping: base 230, adjusted 218.5, shipping 10.925, final 229.425, approved |
| `CheckoutFacade.Cenario2` | checkout_monolitico_facade.py:141-146 | item 600 with gift wrap, express shipping and credit: adjusted 605, shipping 75.5, final 680.5, approved |
| `CheckoutStrategy.CalcularFrete` | checkout_monolitico_strategy.py:44-60 | normal shipping is a twentieth of the discounted value; express is a tenth of it plus 15.00; teleport is 50.00 whatever the input; all are non-negative for a non-negative input; normal shipping is non-negative exactly for a non-negative input, express exactly for an input of at least −150 |
| `CheckoutStrategy.ProcessarPagamento` | checkout_monolitico_strategy.py:19-39 | PIX and Mana always approve; credit approves exactly when the amount is below 1000 |
| `CheckoutStrategy.AplicarDesconto` | checkout_monolitico_strategy.py:73-81 | PIX gives 0.95·base; otherwise a base above 500 gives 0.90·base, and any other base is kept; for a non-negative base the result lies between 0 and the base |
| `CheckoutStrategy.ValorFinal` | checkout_monolitico_strategy.py:88-97 | the discounted value, plus the shipping on it, plus the gift fee when wrapped; for a non-negative discounted value, at least that value plus the fee |
| `CheckoutStrategy.PixPrecedeDescontoGrande` | checkout_monolitico_strategy.py:74-79 | a PIX order above 500 gets 5% off, not 10% |
| `CheckoutStrategy.LimitePedidoGrandeEstrito` | checkout_monolitico_strategy.py:77-81 | a non-PIX order with a base of exactly 500 is not discounted |
| `CheckoutStrategy.TaxaDepoisDoFrete` | checkout_monolitico_strategy.py:88-98 | final = d + shipping(d) + (5 if gift-wrapped), where d is the discounted value; the same order with and without gift wrap differs by exactly the fee, so the fee never reaches shipping |
| `CheckoutStrategy.DescontoGrandeSaltaNoLimite` | checkout_monolitico_strategy.py:77-92 | without PIX, an order of 510 has a lower final amount than an order of 500, with any of the three shipping strategies |
| `CheckoutStrategy.ValorFinalNaoNegativo` | checkout_monolitico_strategy.py:88-98 | for non-negative item values, 0 ≤ discounted value ≤ final amount |
| `CheckoutStrategy.LimiteCreditoEstrito` | checkout_monolitico_strategy.py:25-33 | credit approves 999.99 and rejects both 1000 and 1000.01 |
| `CheckoutStrategy.FinalizarCompra` | checkout_monolitico_strategy.py:83-109 | computes the discount, the shipping on it, and the gift fee after that; returns the payment strategy's verdict on that final amount; with credit, succeeds exactly below 1000 |
| `CheckoutStrategy.Cenario1` | checkout_monolitico_strategy.py:115-121 | items 150 and 80 paid by PIX with normal shipping: discounted 218.5, final 229.425, approved |
| `CheckoutStrategy.Cenario2` | checkout_monolitico_strategy.py:125-131 | item 600 by credit with express shipping and gift wrap: 540 + 69 + 5 = 614, approved |
| `Comparacao.EstrategiasCompartilhadasConcordam` | checkout_monolitico_strategy.py:19-54 | the shipping and payment classes both scripts declare give the same results in both |
| `Comparacao.PixSemEmbalagemCoincide` | checkout_monolitico_strategy.py:73-92 | a PIX order without gift wrap has the same final amount and verdict in both variants |
| `Comparacao.TaxaAntesOuDepoisDoFrete` | checkout_monolitico_strategy.py:94-98 | with PIX and gift wrap, the decorator variant charges 0.25 more with normal shipping and 0.50 more with express, because it adds the fee before shipping |

## Left out

- The `print` narration of every step, the success message about stock and the invoice message.
  They are output only and do not affect any returned value.
- Inventory update and invoice generation. The code has no such collaborators, only messages, so
  the model stops at the checkout's boolean result.
- IEEE-754 floating-point rounding and the two-decimal display format. Amounts are exact reals, so
  `custo - custo * 0.05` and `valor_base * 0.95` are both exactly 0.95 times the cost.
- The abstract base classes. Each strategy family is a datatype that is matched on. The
  strategy script's `isinstance` test becomes a test of the payment tag.
- The mutable default argument `decorators=[]`. It is never mutated, so the model passes a sequence.
- The `__main__` demonstrations, except as the scenario lemmas.
- The default `tem_embalagem_presente=False` of the strategy script's order. The model has no
  default arguments, so the caller always gives the flag.
- When each script reads the items. The strategy script sums `valor_base` once, when the order is
  built (checkout_monolitico_strategy.py:71), so items changed afterwards would be ignored at
  checkout. The decorator script sums the items at checkout (checkout_monolitico_facade.py:106).
  The model's items are an immutable sequence, so it cannot tell these two apart.
