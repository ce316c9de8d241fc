/** The line items of an order and their base cost, shared by both checkout scripts. */
module Itens {

  /** An item of an order: the dictionary `{'nome': ..., 'valor': ...}` of the scripts. */
  datatype Item = Item(nome: string, valor: real)

  /** Base cost: the sum of the items' `valor` fields, taken in list order from 0. */
  function ValorBase(itens: seq<Item>): (r: real)
    ensures itens == [] ==> r == 0.0
    ensures (forall i :: 0 <= i < |itens| ==> itens[i].valor >= 0.0) ==> r >= 0.0
  {
    if itens == [] then 0.0 else ValorBase(itens[..|itens| - 1]) + itens[|itens| - 1].valor
  }

  /** The sum splits over concatenation: the base cost of two item lists together. */
  lemma {:induction false} ValorBaseConcat(a: seq<Item>, b: seq<Item>)
    ensures ValorBase(a + b) == ValorBase(a) + ValorBase(b)
    decreases |b|
  {
    if b == [] {
      assert a + b == a;
    } else {
      var b' := b[..|b| - 1];
      assert (a + b)[..|a + b| - 1] == a + b';
      ValorBaseConcat(a, b');
    }
  }

  /** The base cost of a single item is its value. */
  lemma ValorBaseUnitario(x: Item)
    ensures ValorBase([x]) == x.valor
  {
    assert [x][..0] == [];
  }

  /** Adding an item of non-negative value never lowers the base cost. */
  lemma ValorBaseCresceComItem(itens: seq<Item>, x: Item)
    requires x.valor >= 0.0
    ensures ValorBase(itens + [x]) >= ValorBase(itens)
  {
    assert (itens + [x])[..|itens|] == itens;
  }
}
