/** The tech-stack card: the recommended tools grouped by their category,
    in a dictionary whose keys keep their insertion order, and the line
    listing each tool's alternatives. */
module TechStack {
  import opened Wrappers
  import opened FunnelTypes
  import opened Seqs
  import opened Text
  import opened FunnelForm

  // ---------------------------------------------------------------------
  // Specification of the grouping

  /** The items of one category, in stack order. */
  function Group(stack: seq<TechStackItem>, categoria: string): seq<TechStackItem>
  {
    Filter((item: TechStackItem) => item.categoria == categoria, stack)
  }

  /** The categories in order of first appearance: the order in which the
      grouping creates its keys, which is the order `Object.entries` lists
      them in. */
  function CategoryOrder(stack: seq<TechStackItem>): seq<string>
    decreases |stack|
  {
    if stack == [] then []
    else
      var prev := CategoryOrder(stack[..|stack| - 1]);
      var c := stack[|stack| - 1].categoria;
      if c in prev then prev else prev + [c]
  }

  predicate Occurs(stack: seq<TechStackItem>, categoria: string)
  {
    exists i :: 0 <= i < |stack| && stack[i].categoria == categoria
  }

  /** A category occurs in a stack with one more item iff it occurred
      before or is the new item's. */
  lemma OccursSnoc(stack: seq<TechStackItem>, item: TechStackItem)
    ensures forall c :: Occurs(stack + [item], c) <==> Occurs(stack, c) || item.categoria == c
  {
    var s := stack + [item];
    forall c
      ensures Occurs(s, c) <==> Occurs(stack, c) || item.categoria == c
    {
      if Occurs(s, c) {
        var i :| 0 <= i < |s| && s[i].categoria == c;
        if i < |stack| {
          assert stack[i] == s[i];
        }
      }
      if Occurs(stack, c) {
        var i :| 0 <= i < |stack| && stack[i].categoria == c;
        assert s[i] == stack[i];
      }
      assert s[|stack|] == item;
    }
  }

  /** The keys are exactly the categories present, each once. */
  lemma {:induction false} OrderCovers(stack: seq<TechStackItem>)
    ensures forall c :: c in CategoryOrder(stack) <==> Occurs(stack, c)
    ensures forall a, b :: 0 <= a < b < |CategoryOrder(stack)| ==> CategoryOrder(stack)[a] != CategoryOrder(stack)[b]
    decreases |stack|
  {
    if stack != [] {
      var p := stack[..|stack| - 1];
      OrderCovers(p);
      assert stack == p + [stack[|stack| - 1]];
      OccursSnoc(p, stack[|stack| - 1]);
    }
  }

  /** A key, once created, keeps its place: the keys of a prefix of the
      stack are a prefix of the keys. */
  lemma {:induction false} OrderPrefix(stack: seq<TechStackItem>, n: nat)
    requires n <= |stack|
    ensures CategoryOrder(stack[..n]) <= CategoryOrder(stack)
    decreases |stack| - n
  {
    if n < |stack| {
      OrderPrefix(stack, n + 1);
      assert stack[..n + 1][..n] == stack[..n];
    } else {
      assert stack[..n] == stack;
    }
  }

  lemma GroupSnoc(stack: seq<TechStackItem>, item: TechStackItem, categoria: string)
    ensures Group(stack + [item], categoria)
         == Group(stack, categoria) + (if item.categoria == categoria then [item] else [])
  {
    var p := (it: TechStackItem) => it.categoria == categoria;
    FilterAppend(p, stack, [item]);
    FilterCons(p, item, []);
    assert [item] + [] == [item];
  }

  /** A category that does not occur has an empty group. */
  lemma {:induction false} GroupOfAbsent(stack: seq<TechStackItem>, categoria: string)
    requires !Occurs(stack, categoria)
    ensures Group(stack, categoria) == []
    decreases |stack|
  {
    if stack != [] {
      assert stack[0].categoria != categoria;
      forall i | 0 <= i < |stack[1..]|
        ensures stack[1..][i].categoria != categoria
      {
        assert stack[1..][i] == stack[i + 1];
      }
      GroupOfAbsent(stack[1..], categoria);
    }
  }

  // ---------------------------------------------------------------------
  // The reduce

  /** `stack.reduce(...)`: one pass that creates a key the first time its
      category is seen and appends each item to its group. `keys` records
      the insertion order of the dictionary's keys. */
  method GroupStack(stack: seq<TechStackItem>) returns (groups: map<string, seq<TechStackItem>>, keys: seq<string>)
    ensures keys == CategoryOrder(stack)
    ensures forall c :: c in groups <==> Occurs(stack, c)
    ensures forall c :: c in groups ==> groups[c] == Group(stack, c)
  {
    groups := map[];
    keys := [];
    for i := 0 to |stack|
      invariant keys == CategoryOrder(stack[..i])
      invariant forall c :: c in groups <==> Occurs(stack[..i], c)
      invariant forall c :: c in groups ==> groups[c] == Group(stack[..i], c)
    {
      var item := stack[i];
      assert stack[..i + 1] == stack[..i] + [item];
      GroupStep(stack[..i], item, groups, keys);
      if item.categoria !in groups {
        groups := groups[item.categoria := []];
        keys := keys + [item.categoria];
      }
      groups := groups[item.categoria := groups[item.categoria] + [item]];
    }
    assert stack[..|stack|] == stack;
  }

  /** One step of the reduce keeps the loop's picture of the dictionary:
      keys in first-appearance order, one per category seen, each holding
      its group. */
  lemma GroupStep(prefix: seq<TechStackItem>, item: TechStackItem,
                  groups: map<string, seq<TechStackItem>>, keys: seq<string>)
    requires keys == CategoryOrder(prefix)
    requires forall c :: c in groups <==> Occurs(prefix, c)
    requires forall c :: c in groups ==> groups[c] == Group(prefix, c)
    ensures var created := if item.categoria in groups then groups else groups[item.categoria := []];
            var next := created[item.categoria := created[item.categoria] + [item]];
            && (if item.categoria in groups then keys else keys + [item.categoria]) == CategoryOrder(prefix + [item])
            && (forall c :: c in next <==> Occurs(prefix + [item], c))
            && (forall c :: c in next ==> next[c] == Group(prefix + [item], c))
  {
    OrderCovers(prefix);
    OccursSnoc(prefix, item);
    assert (prefix + [item])[..|prefix|] == prefix;
    if item.categoria !in groups {
      GroupOfAbsent(prefix, item.categoria);
    }
    forall c
      ensures Group(prefix + [item], c) == Group(prefix, c) + (if item.categoria == c then [item] else [])
    {
      GroupSnoc(prefix, item, c);
    }
  }

  // ---------------------------------------------------------------------
  // Properties of the grouping

  /** Every item sits in the group of its own category and in no other. */
  lemma ItemInOwnGroup(stack: seq<TechStackItem>, i: nat, categoria: string)
    requires i < |stack|
    ensures stack[i] in Group(stack, categoria) <==> stack[i].categoria == categoria
  {
    FilterMembers((it: TechStackItem) => it.categoria == categoria, stack);
  }

  /** Within a group the items keep their stack order. */
  lemma GroupKeepsOrder(stack: seq<TechStackItem>, categoria: string)
    ensures IsSubsequence(Group(stack, categoria), stack)
  {
    FilterIsSubsequence((it: TechStackItem) => it.categoria == categoria, stack);
  }

  /** The sizes of the groups listed by `keys`. */
  function GroupSizes(keys: seq<string>, stack: seq<TechStackItem>): nat
    decreases |keys|
  {
    if keys == [] then 0 else |Group(stack, keys[0])| + GroupSizes(keys[1..], stack)
  }

  lemma {:induction false} GroupSizesSnocItem(keys: seq<string>, stack: seq<TechStackItem>, item: TechStackItem)
    requires forall a, b :: 0 <= a < b < |keys| ==> keys[a] != keys[b]
    ensures GroupSizes(keys, stack + [item]) == GroupSizes(keys, stack) + (if item.categoria in keys then 1 else 0)
    decreases |keys|
  {
    if keys != [] {
      GroupSnoc(stack, item, keys[0]);
      GroupSizesSnocItem(keys[1..], stack, item);
      if item.categoria == keys[0] {
        forall b | 0 <= b < |keys[1..]|
          ensures keys[1..][b] != item.categoria
        {
          assert keys[1..][b] == keys[b + 1];
        }
      }
      assert item.categoria in keys <==> item.categoria == keys[0] || item.categoria in keys[1..] by {
        assert keys == [keys[0]] + keys[1..];
      }
    }
  }

  lemma {:induction false} GroupSizesSnocKey(keys: seq<string>, k: string, stack: seq<TechStackItem>)
    ensures GroupSizes(keys + [k], stack) == GroupSizes(keys, stack) + |Group(stack, k)|
    decreases |keys|
  {
    if keys == [] {
      assert ([] + [k])[1..] == [];
    } else {
      assert (keys + [k])[1..] == keys[1..] + [k];
      GroupSizesSnocKey(keys[1..], k, stack);
    }
  }

  /** The group sizes add up to the number of tools. */
  lemma {:induction false} GroupSizesSum(stack: seq<TechStackItem>)
    ensures GroupSizes(CategoryOrder(stack), stack) == |stack|
    decreases |stack|
  {
    if stack != [] {
      var p, x := stack[..|stack| - 1], stack[|stack| - 1];
      assert stack == p + [x];
      GroupSizesSum(p);
      var order := CategoryOrder(p);
      OrderCovers(p);
      GroupSizesSnocItem(order, p, x);
      if x.categoria !in order {
        GroupSizesSnocKey(order, x.categoria, stack);
        GroupOfAbsent(p, x.categoria);
        GroupSnoc(p, x, x.categoria);
      }
    }
  }

  /** No tools, no groups. */
  lemma EmptyStackNoGroups()
    ensures CategoryOrder([]) == []
    ensures forall c :: !Occurs([], c)
  {
  }

  // ---------------------------------------------------------------------
  // Alternatives

  const AlternativasCaption: string := "Alternativas: "

  /** The alternatives line: present only when there are alternatives, and
      then the list joined with `", "`. */
  function AlternativesLine(item: TechStackItem): (r: Option<string>)
    ensures r.None? <==> item.alternativas == []
    ensures r.Some? ==> AlternativasCaption <= r.value
    ensures r.Some? ==> r.value == AlternativasCaption + Join(item.alternativas, ", ")
  {
    if |item.alternativas| > 0 then Some(AlternativasCaption + Join(item.alternativas, ", ")) else None
  }

  /** Alternatives without commas or surrounding blanks can be read back from
      the line. */
  lemma AlternativesReadBack(item: TechStackItem)
    requires ListShaped(item.alternativas)
    ensures var line := AlternativesLine(item).value;
            ParseList(line[|AlternativasCaption|..]) == item.alternativas
  {
    var line := AlternativesLine(item).value;
    assert line[|AlternativasCaption|..] == Join(item.alternativas, ", ");
    ParseJoinedList(item.alternativas);
  }
}
