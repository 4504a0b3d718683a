/**
 * The line-item tables of `CreateWorkOrder.tsx`: billable items (units times
 * rate gives the cost) and internal expenses (hours times rate gives the
 * amount), with a discount and the derived subtotal, total and expenses
 * total. Money and quantities are integers.
 */
module WorkOrders {
  import Seqs

  datatype Item = Item(name: string, units: int, rate: int, cost: int)

  datatype Expense = Expense(head: string, hours: int, rate: int, amount: int)

  /** The item inputs the table edits; the cost cell is read-only. */
  datatype ItemField = Name(name: string) | Units(units: int) | Rate(rate: int)

  /** The expense inputs the table edits; the amount cell is read-only. */
  datatype ExpenseField = Head(head: string) | Hours(hours: int) | ExpenseRate(rate: int)

  predicate ItemConsistent(item: Item)
  {
    item.cost == item.units * item.rate
  }

  predicate ExpenseConsistent(e: Expense)
  {
    e.amount == e.hours * e.rate
  }

  predicate ItemsConsistent(items: seq<Item>)
  {
    forall i :: 0 <= i < |items| ==> ItemConsistent(items[i])
  }

  predicate ExpensesConsistent(expenses: seq<Expense>)
  {
    forall i :: 0 <= i < |expenses| ==> ExpenseConsistent(expenses[i])
  }

  /** The row `handleAddItem` appends. */
  const BlankItem := Item("", 1, 0, 0)

  /** The row `handleAddExpense` appends. */
  const BlankExpense := Expense("", 0, 0, 0)

  /**
   * One item edit: the edited field is set, and changing units or rate
   * recomputes the cost from the new values; a name change leaves the cost.
   */
  function EditItem(item: Item, field: ItemField): (r: Item)
    ensures field.Name? ==> r == item.(name := field.name)
    ensures !field.Name? ==> r.name == item.name && ItemConsistent(r)
    ensures field.Units? ==> r.units == field.units && r.rate == item.rate
    ensures field.Rate? ==> r.rate == field.rate && r.units == item.units
  {
    match field
    case Name(n) => item.(name := n)
    case Units(u) => item.(units := u, cost := u * item.rate)
    case Rate(p) => item.(rate := p, cost := item.units * p)
  }

  /** One expense edit, mirroring `EditItem`. */
  function EditExpense(e: Expense, field: ExpenseField): (r: Expense)
    ensures field.Head? ==> r == e.(head := field.head)
    ensures !field.Head? ==> r.head == e.head && ExpenseConsistent(r)
    ensures field.Hours? ==> r.hours == field.hours && r.rate == e.rate
    ensures field.ExpenseRate? ==> r.rate == field.rate && r.hours == e.hours
  {
    match field
    case Head(h) => e.(head := h)
    case Hours(h) => e.(hours := h, amount := h * e.rate)
    case ExpenseRate(p) => e.(rate := p, amount := e.hours * p)
  }

  /** An edit keeps a consistent row consistent. */
  lemma EditKeepsConsistent(item: Item, field: ItemField, e: Expense, efield: ExpenseField)
    requires ItemConsistent(item) && ExpenseConsistent(e)
    ensures ItemConsistent(EditItem(item, field))
    ensures ExpenseConsistent(EditExpense(e, efield))
  {
  }

  /** `items.reduce((sum, item) => sum + item.cost, 0)`, folded from the left. */
  function SumCosts(items: seq<Item>): int
  {
    if items == [] then 0 else SumCosts(items[..|items| - 1]) + items[|items| - 1].cost
  }

  /** `expenses.reduce((sum, e) => sum + e.amount, 0)` */
  function SumAmounts(expenses: seq<Expense>): int
  {
    if expenses == [] then 0 else SumAmounts(expenses[..|expenses| - 1]) + expenses[|expenses| - 1].amount
  }

  /** Independent reference: the sum of units times rate, folded from the right. */
  function SumUnitsTimesRate(items: seq<Item>): int
  {
    if items == [] then 0 else items[0].units * items[0].rate + SumUnitsTimesRate(items[1..])
  }

  /** The subtotal splits over a concatenation. */
  lemma {:induction false} SumCostsConcat(a: seq<Item>, b: seq<Item>)
    ensures SumCosts(a + b) == SumCosts(a) + SumCosts(b)
  {
    if b != [] {
      assert (a + b)[..|a + b| - 1] == a + b[..|b| - 1];
      SumCostsConcat(a, b[..|b| - 1]);
    } else {
      assert a + b == a;
    }
  }

  lemma {:induction false} SumAmountsConcat(a: seq<Expense>, b: seq<Expense>)
    ensures SumAmounts(a + b) == SumAmounts(a) + SumAmounts(b)
  {
    if b != [] {
      assert (a + b)[..|a + b| - 1] == a + b[..|b| - 1];
      SumAmountsConcat(a, b[..|b| - 1]);
    } else {
      assert a + b == a;
    }
  }

  /** When every row is consistent the subtotal is the sum of units times rate. */
  lemma {:induction false} SubtotalIsSumOfProducts(items: seq<Item>)
    requires ItemsConsistent(items)
    ensures SumCosts(items) == SumUnitsTimesRate(items)
  {
    if items != [] {
      SubtotalIsSumOfProducts(items[1..]);
      SumCostsConcat([items[0]], items[1..]);
      assert [items[0]] + items[1..] == items;
      assert SumCosts([items[0]]) == items[0].cost by {
        assert [items[0]][..0] == [];
      }
    }
  }

  /** Replacing row `i` changes the sum by the difference of the two rows. */
  lemma SumCostsUpdate(items: seq<Item>, i: nat, x: Item)
    requires i < |items|
    ensures SumCosts(items[i := x]) == SumCosts(items) - items[i].cost + x.cost
  {
    var pre, post := items[..i], items[i + 1..];
    assert items == pre + [items[i]] + post;
    assert items[i := x] == pre + [x] + post;
    SumCostsConcat(pre + [items[i]], post);
    SumCostsConcat(pre + [x], post);
    assert (pre + [x])[..|pre|] == pre;
    assert (pre + [items[i]])[..|pre|] == pre;
  }

  lemma SumAmountsUpdate(expenses: seq<Expense>, i: nat, x: Expense)
    requires i < |expenses|
    ensures SumAmounts(expenses[i := x]) == SumAmounts(expenses) - expenses[i].amount + x.amount
  {
    var pre, post := expenses[..i], expenses[i + 1..];
    assert expenses == pre + [expenses[i]] + post;
    assert expenses[i := x] == pre + [x] + post;
    SumAmountsConcat(pre + [expenses[i]], post);
    SumAmountsConcat(pre + [x], post);
    assert (pre + [x])[..|pre|] == pre;
    assert (pre + [expenses[i]])[..|pre|] == pre;
  }

  lemma SumCostsSplice(items: seq<Item>, i: nat)
    requires i < |items|
    ensures SumCosts(items[..i] + items[i + 1..]) == SumCosts(items) - items[i].cost
  {
    var pre, front, post := items[..i], items[..i + 1], items[i + 1..];
    assert items == front + post;
    assert front[..i] == pre;
    SumCostsConcat(front, post);
    SumCostsConcat(pre, post);
  }

  /** Removing row `i` takes its cost out of the sum. */
  lemma SumCostsRemove(items: seq<Item>, i: nat)
    requires i < |items|
    ensures SumCosts(Seqs.RemoveAt(items, i)) == SumCosts(items) - items[i].cost
  {
    SumCostsSplice(items, i);
  }

  lemma SumAmountsSplice(expenses: seq<Expense>, i: nat)
    requires i < |expenses|
    ensures SumAmounts(expenses[..i] + expenses[i + 1..]) == SumAmounts(expenses) - expenses[i].amount
  {
    var pre, front, post := expenses[..i], expenses[..i + 1], expenses[i + 1..];
    assert expenses == front + post;
    assert front[..i] == pre;
    SumAmountsConcat(front, post);
    SumAmountsConcat(pre, post);
  }

  lemma SumAmountsRemove(expenses: seq<Expense>, i: nat)
    requires i < |expenses|
    ensures SumAmounts(Seqs.RemoveAt(expenses, i)) == SumAmounts(expenses) - expenses[i].amount
  {
    SumAmountsSplice(expenses, i);
  }

  /** The form's item and expense tables and its discount. */
  class WorkOrderForm {
    var items: seq<Item>
    var expenses: seq<Expense>
    var discount: int

    /** Every row's cost (amount) is its units (hours) times its rate. */
    ghost predicate Valid()
      reads this
    {
      ItemsConsistent(items) && ExpensesConsistent(expenses)
    }

    /** The form opens with two items, three expense heads and no discount. */
    constructor ()
      ensures Valid()
      ensures items == [Item("Remove Tree From Garden", 1, 1000, 1000), Item("Cut Down Trees on Street", 1, 4000, 4000)]
      ensures expenses == [Expense("Crew", 10, 40, 400), Expense("Crane", 10, 40, 400), Expense("Site Manager", 10, 40, 400)]
      ensures discount == 0
    {
      items := [Item("Remove Tree From Garden", 1, 1000, 1000), Item("Cut Down Trees on Street", 1, 4000, 4000)];
      expenses := [Expense("Crew", 10, 40, 400), Expense("Crane", 10, 40, 400), Expense("Site Manager", 10, 40, 400)];
      discount := 0;
    }

    function Subtotal(): int
      reads this
    {
      SumCosts(items)
    }

    function Total(): int
      reads this
    {
      Subtotal() - discount
    }

    function ExpensesTotal(): int
      reads this
    {
      SumAmounts(expenses)
    }

    /** `handleAddItem`: one blank row at the end; the subtotal does not move. */
    method AddItem()
      requires Valid()
      modifies this
      ensures Valid()
      ensures items == old(items) + [BlankItem]
      ensures Subtotal() == old(Subtotal())
      ensures expenses == old(expenses) && discount == old(discount)
    {
      items := items + [BlankItem];
      assert items[..|items| - 1] == old(items);
    }

    /** `handleItemChange`: the table only passes indices of rows it shows. */
    method ChangeItem(index: nat, field: ItemField)
      requires Valid() && index < |items|
      modifies this
      ensures Valid()
      ensures items == old(items)[index := EditItem(old(items)[index], field)]
      ensures Subtotal() == old(Subtotal()) - old(items)[index].cost + items[index].cost
      ensures expenses == old(expenses) && discount == old(discount)
    {
      SumCostsUpdate(items, index, EditItem(items[index], field));
      items := items[index := EditItem(items[index], field)];
    }

    /** `handleRemoveItem`: `splice(index, 1)`. */
    method RemoveItem(index: nat)
      requires Valid()
      modifies this
      ensures Valid()
      ensures items == Seqs.RemoveAt(old(items), index)
      ensures index < |old(items)| ==> Subtotal() == old(Subtotal()) - old(items)[index].cost
      ensures expenses == old(expenses) && discount == old(discount)
    {
      if index < |items| {
        SumCostsRemove(items, index);
      }
      items := Seqs.RemoveAt(items, index);
    }

    /** `handleAddExpense` */
    method AddExpense()
      requires Valid()
      modifies this
      ensures Valid()
      ensures expenses == old(expenses) + [BlankExpense]
      ensures ExpensesTotal() == old(ExpensesTotal())
      ensures items == old(items) && discount == old(discount)
    {
      expenses := expenses + [BlankExpense];
      assert expenses[..|expenses| - 1] == old(expenses);
    }

    /** `handleExpenseChange` */
    method ChangeExpense(index: nat, field: ExpenseField)
      requires Valid() && index < |expenses|
      modifies this
      ensures Valid()
      ensures expenses == old(expenses)[index := EditExpense(old(expenses)[index], field)]
      ensures ExpensesTotal() == old(ExpensesTotal()) - old(expenses)[index].amount + expenses[index].amount
      ensures items == old(items) && discount == old(discount)
    {
      SumAmountsUpdate(expenses, index, EditExpense(expenses[index], field));
      expenses := expenses[index := EditExpense(expenses[index], field)];
    }

    /** `handleRemoveExpense` */
    method RemoveExpense(index: nat)
      requires Valid()
      modifies this
      ensures Valid()
      ensures expenses == Seqs.RemoveAt(old(expenses), index)
      ensures index < |old(expenses)| ==> ExpensesTotal() == old(ExpensesTotal()) - old(expenses)[index].amount
      ensures items == old(items) && discount == old(discount)
    {
      if index < |expenses| {
        SumAmountsRemove(expenses, index);
      }
      expenses := Seqs.RemoveAt(expenses, index);
    }

    /** The discount input's `setDiscount`: the total moves with it, the subtotal does not. */
    method SetDiscount(value: int)
      requires Valid()
      modifies this
      ensures Valid()
      ensures discount == value && Total() == Subtotal() - value
      ensures items == old(items) && expenses == old(expenses)
    {
      discount := value;
    }
  }
}
