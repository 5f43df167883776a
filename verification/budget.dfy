/** The budget card: the essential monthly investment summed over the
    breakdown, the icon shown for each breakdown category, and the figures
    in the summary row. */
module Budget {
  import opened FunnelTypes
  import opened Seqs

  // ---------------------------------------------------------------------
  // Essential investment

  /** `reduce((sum, item) => sum + item.costoMensual, acc)`, a left fold. */
  function SumCosts(acc: int, items: seq<BudgetItem>): int
    decreases |items|
  {
    if items == [] then acc else SumCosts(acc + items[0].costoMensual, items[1..])
  }

  function IsEssential(item: BudgetItem): bool
  {
    item.esencial
  }

  /** `totalEsencial`: the essential items, then their costs added up from 0. */
  function TotalEsencial(desglose: seq<BudgetItem>): (r: int)
    ensures r == EssentialSum(desglose)
  {
    SumCostsShift(0, Filter(IsEssential, desglose));
    CostSumOfFilter(desglose);
    SumCosts(0, Filter(IsEssential, desglose))
  }

  /** What an item adds to the essential investment. */
  function EssentialCost(item: BudgetItem): int
  {
    if item.esencial then item.costoMensual else 0
  }

  /** Reference definition: the sum of `costoMensual` over essential items. */
  function EssentialSum(items: seq<BudgetItem>): int
    decreases |items|
  {
    if items == [] then 0 else EssentialCost(items[0]) + EssentialSum(items[1..])
  }

  /** The sum of every item's cost. */
  function CostSum(items: seq<BudgetItem>): int
    decreases |items|
  {
    if items == [] then 0 else items[0].costoMensual + CostSum(items[1..])
  }

  lemma {:induction false} SumCostsShift(acc: int, items: seq<BudgetItem>)
    ensures SumCosts(acc, items) == acc + CostSum(items)
    decreases |items|
  {
    if items != [] {
      SumCostsShift(acc + items[0].costoMensual, items[1..]);
    }
  }

  lemma {:induction false} CostSumOfFilter(items: seq<BudgetItem>)
    ensures CostSum(Filter(IsEssential, items)) == EssentialSum(items)
    decreases |items|
  {
    if items != [] {
      FilterCons(IsEssential, items[0], items[1..]);
      assert [items[0]] + items[1..] == items;
      CostSumOfFilter(items[1..]);
      var f := Filter(IsEssential, items);
      if items[0].esencial {
        assert f == [items[0]] + Filter(IsEssential, items[1..]);
        assert f[0] == items[0] && f[1..] == Filter(IsEssential, items[1..]);
      } else {
        assert f == Filter(IsEssential, items[1..]);
      }
    }
  }

  /** Without essential items, in particular with an empty breakdown, the
      essential investment is 0. */
  lemma {:induction false} NoEssentialIsZero(desglose: seq<BudgetItem>)
    requires forall i :: 0 <= i < |desglose| ==> !desglose[i].esencial
    ensures TotalEsencial(desglose) == 0
  {
    NoEssentialSum(desglose);
  }

  lemma {:induction false} NoEssentialSum(items: seq<BudgetItem>)
    requires forall i :: 0 <= i < |items| ==> !items[i].esencial
    ensures EssentialSum(items) == 0
    decreases |items|
  {
    if items != [] {
      NoEssentialSum(items[1..]);
    }
  }

  /** With costs that are not negative, the essential investment never
      exceeds the sum of all costs. */
  lemma {:induction false} EssentialWithinTotal(desglose: seq<BudgetItem>)
    requires forall i :: 0 <= i < |desglose| ==> desglose[i].costoMensual >= 0
    ensures 0 <= TotalEsencial(desglose) <= CostSum(desglose)
  {
    EssentialSumBounds(desglose);
  }

  lemma {:induction false} EssentialSumBounds(items: seq<BudgetItem>)
    requires forall i :: 0 <= i < |items| ==> items[i].costoMensual >= 0
    ensures 0 <= EssentialSum(items) <= CostSum(items)
    decreases |items|
  {
    if items != [] {
      EssentialSumBounds(items[1..]);
    }
  }

  lemma {:induction false} EssentialSumAppend(a: seq<BudgetItem>, b: seq<BudgetItem>)
    ensures EssentialSum(a + b) == EssentialSum(a) + EssentialSum(b)
    decreases |a|
  {
    if a == [] {
      assert a + b == b;
    } else {
      assert (a + b)[1..] == a[1..] + b;
      EssentialSumAppend(a[1..], b);
    }
  }

  lemma {:induction false} EssentialSumPermutation(a: seq<BudgetItem>, b: seq<BudgetItem>)
    requires multiset(a) == multiset(b)
    ensures EssentialSum(a) == EssentialSum(b)
    decreases |a|
  {
    if a != [] {
      assert a[0] in multiset(b);
      var j :| 0 <= j < |b| && b[j] == a[0];
      var rest := b[..j] + b[j + 1..];
      assert multiset(a[1..]) == multiset(a) - multiset{a[0]} by {
        assert a == [a[0]] + a[1..];
      }
      MultisetWithout(b, j);
      EssentialSumPermutation(a[1..], rest);
      EssentialSumWithout(b, j);
    }
  }

  /** Taking out the element at `j` takes one copy of it out of the multiset. */
  lemma MultisetWithout(b: seq<BudgetItem>, j: nat)
    requires j < |b|
    ensures multiset(b[..j] + b[j + 1..]) == multiset(b) - multiset{b[j]}
  {
    assert b == b[..j] + [b[j]] + b[j + 1..];
    assert multiset(b) == multiset(b[..j]) + multiset{b[j]} + multiset(b[j + 1..]);
  }

  /** Taking out the element at `j` takes its essential cost out of the sum. */
  lemma EssentialSumWithout(b: seq<BudgetItem>, j: nat)
    requires j < |b|
    ensures EssentialSum(b) == EssentialCost(b[j]) + EssentialSum(b[..j] + b[j + 1..])
  {
    var front, back := b[..j], [b[j]] + b[j + 1..];
    assert b == front + back;
    EssentialSumAppend(front, back);
    assert back[1..] == b[j + 1..];
    EssentialSumAppend(front, b[j + 1..]);
  }

  /** Reordering the breakdown leaves the essential investment unchanged. */
  lemma TotalEsencialPermutation(a: seq<BudgetItem>, b: seq<BudgetItem>)
    requires multiset(a) == multiset(b)
    ensures TotalEsencial(a) == TotalEsencial(b)
  {
    EssentialSumPermutation(a, b);
  }

  // ---------------------------------------------------------------------
  // Summary row

  datatype Summary = Summary(totalMensual: int, inversionEsencial: int, roiEsperado: string)

  /** The three figures at the top of the card. The monthly total is the
      model's own figure: it is shown as given and never recomputed from the
      breakdown. */
  function BudgetSummary(p: Presupuesto): (r: Summary)
    ensures r.totalMensual == p.total && r.roiEsperado == p.roi_esperado
    ensures r.inversionEsencial == EssentialSum(p.desglose)
  {
    Summary(p.total, TotalEsencial(p.desglose), p.roi_esperado)
  }

  /** The shown total and the breakdown need not agree: a total of 100 over
      an empty breakdown is shown as 100 next to an essential sum of 0. */
  lemma TotalNotChecked()
    ensures var p := Presupuesto(100, [], "3x");
            BudgetSummary(p).totalMensual == 100 && CostSum(p.desglose) == 0
  {
  }

  // ---------------------------------------------------------------------
  // Icons

  const Fallback: string := "\U{1F4E6}"

  const CategoriaIcons: map<string, string> := map[
    "herramientas" := "\U{1F527}",
    "publicidad" := "\U{1F4E2}",
    "contenido" := "\U{270D}\U{FE0F}",
    "personal" := "\U{1F465}",
    "otros" := Fallback]

  /** `categoriaIcons[item.categoria] || "📦"`: the five known categories
      have their icons; any other text gets the box, the icon of `otros`. */
  function CategoryIcon(categoria: string): (r: string)
    ensures categoria in CategoriaIcons ==> r == CategoriaIcons[categoria]
    ensures r == Fallback <==> categoria !in CategoriaIcons || categoria == "otros"
  {
    if categoria in CategoriaIcons && CategoriaIcons[categoria] != "" then CategoriaIcons[categoria]
    else Fallback
  }
}
