/**
 Load and expense records and the list updates the forms perform: adding a
 record at the front, replacing an edited record in place, and deleting
 records by id. Every load carries the revenue the pay table gives for its
 miles; the updates keep that so.
 */
module Records {
  import opened Pay

  datatype Option<T> = None | Some(value: T)

  /** What the form handlers report instead of saving. */
  datatype InputError =
    | InvalidLoadInput     // missing date or miles not positive
    | InvalidExpenseInput  // missing date or category, or amount not positive

  datatype Result<T> = Ok(value: T) | Err(error: InputError)

  /** The expense categories the forms offer. */
  datatype Category =
    | FuelTractor | FuelTax | Maintenance | ParkingTolls | Supplies
    | TravelLodging | TruckPayment | InsurancePhysical | InsuranceBobtail
    | InsuranceWorkComp | Other

  /** A revenue trip. `date` is a calendar day number; `revenue` is derived
      from `miles` and never entered directly. */
  datatype Load = Load(
    id: int, loadNumber: string, date: int, miles: int,
    origin: string, destination: string, notes: string, revenue: real)

  /** A cost record; `miles` is only filled in for per-mile expenses. */
  datatype Expense = Expense(
    id: int, date: int, category: Category, amount: real,
    miles: Option<int>, notes: string)

  /** The fields of the load form, already parsed: an empty date field is
      `None`, and miles that do not parse are 0. */
  datatype LoadForm = LoadForm(
    loadNumber: string, date: Option<int>, miles: int,
    origin: string, destination: string, notes: string)

  /** The fields of the expense form, already parsed: an empty date or
      category is `None`, an amount that does not parse is 0. */
  datatype ExpenseForm = ExpenseForm(
    date: Option<int>, category: Option<Category>, amount: real,
    miles: Option<int>, notes: string)

  /** The two stored collections, newest first. */
  datatype Data = Data(loads: seq<Load>, expenses: seq<Expense>)

  /** Which collection an id refers to. */
  datatype ItemType = LoadItem | ExpenseItem

  /** The record being edited together with the edit form's contents. */
  datatype Edit =
    | EditLoad(load: Load, loadForm: LoadForm)
    | EditExpense(expense: Expense, expenseForm: ExpenseForm)

  function LoadId(l: Load): int { l.id }
  function ExpenseId(e: Expense): int { e.id }

  /** A load's revenue is what the pay table gives for its miles. */
  predicate Stamped(l: Load) {
    l.revenue == CalculatePay(l.miles)
  }

  predicate AllStamped(loads: seq<Load>) {
    forall i :: 0 <= i < |loads| ==> Stamped(loads[i])
  }

  predicate ValidLoadForm(f: LoadForm) {
    f.date.Some? && f.miles > 0
  }

  predicate ValidExpenseForm(f: ExpenseForm) {
    f.date.Some? && f.category.Some? && f.amount > 0.0
  }

  /** `item` with the form's fields written over it and its revenue
      recomputed; the id is kept. */
  function ApplyLoadForm(item: Load, f: LoadForm): (l: Load)
    requires f.date.Some?
    ensures Stamped(l) && l.id == item.id && l.miles == f.miles && l.date == f.date.value
  {
    item.(loadNumber := f.loadNumber, date := f.date.value, miles := f.miles,
          origin := f.origin, destination := f.destination, notes := f.notes,
          revenue := CalculatePay(f.miles))
  }

  function ApplyExpenseForm(item: Expense, f: ExpenseForm): (e: Expense)
    requires f.date.Some? && f.category.Some?
    ensures e.id == item.id && e.amount == f.amount && e.date == f.date.value
  {
    item.(date := f.date.value, category := f.category.value, amount := f.amount,
          miles := f.miles, notes := f.notes)
  }

  /** Adds a load built from the form at the front of the list; `id` is the
      creation timestamp. */
  function AddLoad(data: Data, f: LoadForm, id: int): (r: Result<Data>)
    ensures r.Ok? <==> ValidLoadForm(f)
    ensures r.Err? ==> r.error == InvalidLoadInput
    ensures r.Ok? ==>
              && |r.value.loads| == |data.loads| + 1
              && r.value.loads[1..] == data.loads
              && r.value.expenses == data.expenses
              && var l := r.value.loads[0];
                 l.id == id && l.date == f.date.value && l.miles == f.miles && l.revenue == CalculatePay(f.miles)
  {
    if !ValidLoadForm(f) then Err(InvalidLoadInput)
    else
      var load := Load(id, f.loadNumber, f.date.value, f.miles, f.origin, f.destination, f.notes,
                       CalculatePay(f.miles));
      Ok(data.(loads := [load] + data.loads))
  }

  /** Adds an expense built from the form at the front of the list. */
  function AddExpense(data: Data, f: ExpenseForm, id: int): (r: Result<Data>)
    ensures r.Ok? <==> ValidExpenseForm(f)
    ensures r.Err? ==> r.error == InvalidExpenseInput
    ensures r.Ok? ==>
              && |r.value.expenses| == |data.expenses| + 1
              && r.value.expenses[1..] == data.expenses
              && r.value.loads == data.loads
              && var e := r.value.expenses[0];
                 e.id == id && e.date == f.date.value && e.category == f.category.value && e.amount == f.amount
  {
    if !ValidExpenseForm(f) then Err(InvalidExpenseInput)
    else
      var expense := Expense(id, f.date.value, f.category.value, f.amount, f.miles, f.notes);
      Ok(data.(expenses := [expense] + data.expenses))
  }

  /** Index of the first element with the given id, or -1. */
  function FindIndex<T>(xs: seq<T>, idOf: T -> int, id: int): (k: int)
    ensures -1 <= k < |xs|
    ensures k >= 0 ==> idOf(xs[k]) == id
    ensures k >= 0 ==> forall j :: 0 <= j < k ==> idOf(xs[j]) != id
    ensures k == -1 <==> forall j :: 0 <= j < |xs| ==> idOf(xs[j]) != id
  {
    if |xs| == 0 then -1
    else if idOf(xs[0]) == id then 0
    else
      var k := FindIndex(xs[1..], idOf, id);
      if k == -1 then -1 else k + 1
  }

  /** Replaces the first element with the given id by `updated`; the list is
      unchanged when no element has that id. */
  function ReplaceById<T>(xs: seq<T>, idOf: T -> int, id: int, updated: T): (r: seq<T>)
    ensures |r| == |xs|
    ensures FindIndex(xs, idOf, id) == -1 ==> r == xs
    ensures var k := FindIndex(xs, idOf, id);
            k >= 0 ==> r[k] == updated && forall j :: 0 <= j < |xs| && j != k ==> r[j] == xs[j]
  {
    var k := FindIndex(xs, idOf, id);
    if k == -1 then xs else xs[k := updated]
  }

  /** The elements whose id differs from `id`, in their original order. */
  function RemoveId<T(==)>(xs: seq<T>, idOf: T -> int, id: int): (r: seq<T>)
    ensures |r| <= |xs|
    ensures forall i :: 0 <= i < |r| ==> idOf(r[i]) != id && r[i] in xs
    ensures forall i :: 0 <= i < |xs| && idOf(xs[i]) != id ==> xs[i] in r
  {
    if |xs| == 0 then []
    else
      var rest := RemoveId(xs[1..], idOf, id);
      assert forall i :: 1 <= i < |xs| ==> xs[i] == xs[1..][i - 1];
      if idOf(xs[0]) == id then rest else [xs[0]] + rest
  }

  /** Saves an edit: the form must pass the same checks as when adding;
      the first record with the edited record's id is replaced. */
  function SaveEdit(data: Data, edit: Edit): (r: Result<Data>)
    ensures edit.EditLoad? ==> (r.Ok? <==> ValidLoadForm(edit.loadForm))
    ensures edit.EditExpense? ==> (r.Ok? <==> ValidExpenseForm(edit.expenseForm))
    ensures r.Err? ==> r.error == (if edit.EditLoad? then InvalidLoadInput else InvalidExpenseInput)
    ensures r.Ok? && edit.EditLoad? ==>
              && r.value.expenses == data.expenses
              && |r.value.loads| == |data.loads|
              && var k := FindIndex(data.loads, LoadId, edit.load.id);
                 forall j :: 0 <= j < |data.loads| ==>
                   r.value.loads[j] == if j == k then ApplyLoadForm(edit.load, edit.loadForm) else data.loads[j]
    ensures r.Ok? && edit.EditExpense? ==>
              && r.value.loads == data.loads
              && |r.value.expenses| == |data.expenses|
              && var k := FindIndex(data.expenses, ExpenseId, edit.expense.id);
                 forall j :: 0 <= j < |data.expenses| ==>
                   r.value.expenses[j] == if j == k then ApplyExpenseForm(edit.expense, edit.expenseForm) else data.expenses[j]
  {
    match edit
    case EditLoad(item, f) =>
      if !ValidLoadForm(f) then Err(InvalidLoadInput)
      else Ok(data.(loads := ReplaceById(data.loads, LoadId, item.id, ApplyLoadForm(item, f))))
    case EditExpense(item, f) =>
      if !ValidExpenseForm(f) then Err(InvalidExpenseInput)
      else Ok(data.(expenses := ReplaceById(data.expenses, ExpenseId, item.id, ApplyExpenseForm(item, f))))
  }

  /** Deletes every record with the given id from the collection `kind`
      names; the other collection is untouched. */
  function DeleteItem(data: Data, id: int, kind: ItemType): (r: Data)
    ensures kind == LoadItem ==> r.expenses == data.expenses && r.loads == RemoveId(data.loads, LoadId, id)
    ensures kind == ExpenseItem ==> r.loads == data.loads && r.expenses == RemoveId(data.expenses, ExpenseId, id)
  {
    match kind
    case LoadItem => data.(loads := RemoveId(data.loads, LoadId, id))
    case ExpenseItem => data.(expenses := RemoveId(data.expenses, ExpenseId, id))
  }

  /** Number of elements with the given id. */
  function CountId<T>(xs: seq<T>, idOf: T -> int, id: int): nat {
    if |xs| == 0 then 0 else (if idOf(xs[0]) == id then 1 else 0) + CountId(xs[1..], idOf, id)
  }

  /** Removal works element by element: removing from a concatenation is
      the concatenation of the removals, so the kept elements keep their order. */
  lemma {:induction false} RemoveDistributes<T>(a: seq<T>, b: seq<T>, idOf: T -> int, id: int)
    ensures RemoveId(a + b, idOf, id) == RemoveId(a, idOf, id) + RemoveId(b, idOf, id)
  {
    if |a| == 0 {
      assert a + b == b;
    } else {
      assert (a + b)[1..] == a[1..] + b;
      RemoveDistributes(a[1..], b, idOf, id);
    }
  }

  /** Removal drops exactly the elements with the id. */
  lemma {:induction false} RemoveCount<T>(xs: seq<T>, idOf: T -> int, id: int)
    ensures |RemoveId(xs, idOf, id)| == |xs| - CountId(xs, idOf, id)
    ensures CountId(RemoveId(xs, idOf, id), idOf, id) == 0
  {
    if |xs| > 0 {
      RemoveCount(xs[1..], idOf, id);
      var rest := RemoveId(xs[1..], idOf, id);
      if idOf(xs[0]) != id {
        assert ([xs[0]] + rest)[1..] == rest;
      }
    }
  }

  /** Deleting twice is deleting once. */
  lemma {:induction false} RemoveIdempotent<T>(xs: seq<T>, idOf: T -> int, id: int)
    ensures RemoveId(RemoveId(xs, idOf, id), idOf, id) == RemoveId(xs, idOf, id)
  {
    if |xs| > 0 {
      RemoveIdempotent(xs[1..], idOf, id);
      var rest := RemoveId(xs[1..], idOf, id);
      if idOf(xs[0]) != id {
        assert ([xs[0]] + rest)[1..] == rest;
      }
    }
  }

  /** Adding, editing and deleting keep every load's revenue equal to the
      pay for its miles. */
  lemma {:induction false} UpdatesKeepRevenueStamped(data: Data, f: LoadForm, g: ExpenseForm, id: int, edit: Edit, kind: ItemType)
    requires AllStamped(data.loads)
    ensures AddLoad(data, f, id).Ok? ==> AllStamped(AddLoad(data, f, id).value.loads)
    ensures AddExpense(data, g, id).Ok? ==> AllStamped(AddExpense(data, g, id).value.loads)
    ensures SaveEdit(data, edit).Ok? ==> AllStamped(SaveEdit(data, edit).value.loads)
    ensures AllStamped(DeleteItem(data, id, kind).loads)
  {
    var r := DeleteItem(data, id, kind).loads;
    forall i | 0 <= i < |r|
      ensures Stamped(r[i])
    {
      assert r[i] in data.loads;
    }
  }
}
