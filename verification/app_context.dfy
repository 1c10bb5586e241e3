/** The application context: seven collections, seeded with two sample
    records each, and the mutators it exposes. The mutators are modelled as
    one `Action` per context function and a pure state transformer `Apply`;
    an action that the context does not expose (deleting an expense,
    updating an expense, deleting a budget) has no constructor. */
module AppContext {
  import opened Optional
  import opened Dates
  import opened Store
  import opened Types

  datatype AppState = AppState(
    bills: seq<Bill>, tasks: seq<Task>, expenses: seq<Expense>,
    warranties: seq<Warranty>, documents: seq<Document>,
    budgets: seq<Budget>, vendors: seq<Vendor>)

  function InitialBills(): seq<Bill>
  {
    [ Record(1, BillFields("Mortgage", 150000, Date(2024, 3, 25), "Housing", true, BillStatus.Pending)),
      Record(2, BillFields("Electric Bill", 14575, Date(2024, 3, 15), "Utilities", false, Paid)) ]
  }

  function InitialTasks(): seq<Task>
  {
    [ Record(1, TaskFields("HVAC Maintenance", Date(2024, 3, 20), Maintenance, TaskStatus.Pending)),
      Record(2, TaskFields("Property Tax Due", Date(2024, 3, 31), BillReminder, TaskStatus.Pending)) ]
  }

  function InitialExpenses(): seq<Expense>
  {
    [ Record(1, ExpenseFields("Water Bill", 8550, Date(2024, 3, 1), "Utilities")),
      Record(2, ExpenseFields("Electricity", 14575, Date(2024, 3, 5), "Utilities")) ]
  }

  function InitialWarranties(): seq<Warranty>
  {
    [ Record(1, WarrantyFields("Refrigerator", "Samsung", Date(2023, 1, 15), Date(2028, 1, 15),
                               "Parts and Labor", ["warranty-card.pdf"], WarrantyStatus.Active)),
      Record(2, WarrantyFields("HVAC System", "Carrier", Date(2022, 6, 1), Date(2027, 6, 1),
                               "Full System Coverage",
                               ["warranty-registration.pdf", "service-contract.pdf"],
                               WarrantyStatus.Active)) ]
  }

  function InitialDocuments(): seq<Document>
  {
    [ Record(1, DocumentFields("Home Insurance Policy", "Insurance", Date(2024, 1, 1),
                               "insurance-policy.pdf", ["insurance", "policy", "home"])),
      Record(2, DocumentFields("Property Deed", "Legal", Date(2023, 12, 15),
                               "property-deed.pdf", ["legal", "property", "deed"])) ]
  }

  function InitialBudgets(): seq<Budget>
  {
    [ Record(1, BudgetFields("Utilities", 30000, 28550, "03", 2024)),
      Record(2, BudgetFields("Maintenance", 20000, 15000, "03", 2024)) ]
  }

  function InitialVendors(): seq<Vendor>
  {
    [ Record(1, VendorFields("ABC Plumbing", "Plumbing", "555-0123", "contact@abcplumbing.com",
                             4.5, Some(Date(2024, 2, 15)), Some("Reliable emergency service"))),
      Record(2, VendorFields("XYZ Electric", "Electrical", "555-0124", "service@xyzelectric.com",
                             5.0, Some(Date(2024, 1, 20)), Some("Licensed for all electrical work"))) ]
  }

  /** The state at session start. */
  function Initial(): AppState
  {
    AppState(InitialBills(), InitialTasks(), InitialExpenses(), InitialWarranties(),
             InitialDocuments(), InitialBudgets(), InitialVendors())
  }

  /** Every seed collection holds two records with ids 1 and 2, so ids start
      dense and unique in all seven collections. */
  lemma InitialIdsDense()
    ensures var s := Initial();
      && |s.bills| == 2 && DenseIds(s.bills) && UniqueIds(s.bills)
      && |s.tasks| == 2 && DenseIds(s.tasks) && UniqueIds(s.tasks)
      && |s.expenses| == 2 && DenseIds(s.expenses) && UniqueIds(s.expenses)
      && |s.warranties| == 2 && DenseIds(s.warranties) && UniqueIds(s.warranties)
      && |s.documents| == 2 && DenseIds(s.documents) && UniqueIds(s.documents)
      && |s.budgets| == 2 && DenseIds(s.budgets) && UniqueIds(s.budgets)
      && |s.vendors| == 2 && DenseIds(s.vendors) && UniqueIds(s.vendors)
  {
  }

  /** One call of a context mutator. */
  datatype Action =
    | AddBill(bill: BillFields)
    | UpdateBill(id: int, billPatch: Patch<BillPatch>)
    | DeleteBill(id: int)
    | AddTask(task: TaskFields)
    | UpdateTask(id: int, taskPatch: Patch<TaskPatch>)
    | DeleteTask(id: int)
    | AddExpense(expense: ExpenseFields)
    | AddWarranty(warranty: WarrantyFields)
    | UpdateWarranty(id: int, warrantyPatch: Patch<WarrantyPatch>)
    | DeleteWarranty(id: int)
    | AddDocument(document: DocumentFields)
    | UpdateDocument(id: int, documentPatch: Patch<DocumentPatch>)
    | DeleteDocument(id: int)
    | AddBudget(budget: BudgetFields)
    | UpdateBudget(id: int, budgetPatch: Patch<BudgetPatch>)
    | AddVendor(vendor: VendorFields)
    | UpdateVendor(id: int, vendorPatch: Patch<VendorPatch>)
    | DeleteVendor(id: int)

  datatype Collection = Bills | Tasks | Expenses | Warranties | Documents | Budgets | Vendors

  /** The one collection an action writes to. */
  function Target(a: Action): Collection
  {
    match a
    case AddBill(_) | UpdateBill(_, _) | DeleteBill(_) => Bills
    case AddTask(_) | UpdateTask(_, _) | DeleteTask(_) => Tasks
    case AddExpense(_) => Expenses
    case AddWarranty(_) | UpdateWarranty(_, _) | DeleteWarranty(_) => Warranties
    case AddDocument(_) | UpdateDocument(_, _) | DeleteDocument(_) => Documents
    case AddBudget(_) | UpdateBudget(_, _) => Budgets
    case AddVendor(_) | UpdateVendor(_, _) | DeleteVendor(_) => Vendors
  }

  /** The state after one mutator call. Every other collection is left as it
      was. */
  function Apply(s: AppState, a: Action): (r: AppState)
    ensures Target(a) != Bills ==> r.bills == s.bills
    ensures Target(a) != Tasks ==> r.tasks == s.tasks
    ensures Target(a) != Expenses ==> r.expenses == s.expenses
    ensures Target(a) != Warranties ==> r.warranties == s.warranties
    ensures Target(a) != Documents ==> r.documents == s.documents
    ensures Target(a) != Budgets ==> r.budgets == s.budgets
    ensures Target(a) != Vendors ==> r.vendors == s.vendors
  {
    AppState(
      BillsAfter(s.bills, a), TasksAfter(s.tasks, a), ExpensesAfter(s.expenses, a),
      WarrantiesAfter(s.warranties, a), DocumentsAfter(s.documents, a),
      BudgetsAfter(s.budgets, a), VendorsAfter(s.vendors, a))
  }

  /** The bills after one mutator call: an add appends a bill with the
      next id, an update rewrites exactly the bills with that id, a delete
      removes every bill with that id and keeps the rest; any other action
      leaves the bills alone. */
  function BillsAfter(c: seq<Bill>, a: Action): (r: seq<Bill>)
    ensures Target(a) != Bills ==> r == c
    ensures a.AddBill? ==> r == c + [Record(|c| + 1, a.bill)]
    ensures a.UpdateBill? ==> |r| == |c|
    ensures a.UpdateBill? ==> forall i :: 0 <= i < |c| ==>
              r[i] == (if c[i].id == a.id then Record(ValueOr(a.billPatch.id, a.id), MergeBill(c[i].fields, a.billPatch.fields)) else c[i])
    ensures a.DeleteBill? ==> !HasId(r, a.id) && forall i :: 0 <= i < |c| && c[i].id != a.id ==> c[i] in r
  {
    match a
    case AddBill(f) => Add(c, f)
    case UpdateBill(id, p) => Update(c, id, p, MergeBill)
    case DeleteBill(id) => Delete(c, id)
    case _ => c
  }

  /** The tasks after one mutator call: an add appends a task with the
      next id, an update rewrites exactly the tasks with that id, a delete
      removes every task with that id and keeps the rest; any other action
      leaves the tasks alone. */
  function TasksAfter(c: seq<Task>, a: Action): (r: seq<Task>)
    ensures Target(a) != Tasks ==> r == c
    ensures a.AddTask? ==> r == c + [Record(|c| + 1, a.task)]
    ensures a.UpdateTask? ==> |r| == |c|
    ensures a.UpdateTask? ==> forall i :: 0 <= i < |c| ==>
              r[i] == (if c[i].id == a.id then Record(ValueOr(a.taskPatch.id, a.id), MergeTask(c[i].fields, a.taskPatch.fields)) else c[i])
    ensures a.DeleteTask? ==> !HasId(r, a.id) && forall i :: 0 <= i < |c| && c[i].id != a.id ==> c[i] in r
  {
    match a
    case AddTask(f) => Add(c, f)
    case UpdateTask(id, p) => Update(c, id, p, MergeTask)
    case DeleteTask(id) => Delete(c, id)
    case _ => c
  }

  /** Expenses can only be added: they grow at the end and nothing already
      recorded changes. */
  function ExpensesAfter(c: seq<Expense>, a: Action): (r: seq<Expense>)
    ensures c <= r
    ensures |r| == (if a.AddExpense? then |c| + 1 else |c|)
  {
    match a
    case AddExpense(f) => Add(c, f)
    case _ => c
  }

  /** The warranties after one mutator call: an add appends a warranty with the
      next id, an update rewrites exactly the warranties with that id, a delete
      removes every warranty with that id and keeps the rest; any other action
      leaves the warranties alone. */
  function WarrantiesAfter(c: seq<Warranty>, a: Action): (r: seq<Warranty>)
    ensures Target(a) != Warranties ==> r == c
    ensures a.AddWarranty? ==> r == c + [Record(|c| + 1, a.warranty)]
    ensures a.UpdateWarranty? ==> |r| == |c|
    ensures a.UpdateWarranty? ==> forall i :: 0 <= i < |c| ==>
              r[i] == (if c[i].id == a.id then Record(ValueOr(a.warrantyPatch.id, a.id), MergeWarranty(c[i].fields, a.warrantyPatch.fields)) else c[i])
    ensures a.DeleteWarranty? ==> !HasId(r, a.id) && forall i :: 0 <= i < |c| && c[i].id != a.id ==> c[i] in r
  {
    match a
    case AddWarranty(f) => Add(c, f)
    case UpdateWarranty(id, p) => Update(c, id, p, MergeWarranty)
    case DeleteWarranty(id) => Delete(c, id)
    case _ => c
  }

  /** The documents after one mutator call: an add appends a document with the
      next id, an update rewrites exactly the documents with that id, a delete
      removes every document with that id and keeps the rest; any other action
      leaves the documents alone. */
  function DocumentsAfter(c: seq<Document>, a: Action): (r: seq<Document>)
    ensures Target(a) != Documents ==> r == c
    ensures a.AddDocument? ==> r == c + [Record(|c| + 1, a.document)]
    ensures a.UpdateDocument? ==> |r| == |c|
    ensures a.UpdateDocument? ==> forall i :: 0 <= i < |c| ==>
              r[i] == (if c[i].id == a.id then Record(ValueOr(a.documentPatch.id, a.id), MergeDocument(c[i].fields, a.documentPatch.fields)) else c[i])
    ensures a.DeleteDocument? ==> !HasId(r, a.id) && forall i :: 0 <= i < |c| && c[i].id != a.id ==> c[i] in r
  {
    match a
    case AddDocument(f) => Add(c, f)
    case UpdateDocument(id, p) => Update(c, id, p, MergeDocument)
    case DeleteDocument(id) => Delete(c, id)
    case _ => c
  }

  /** Budgets can be added and updated but never removed. */
  function BudgetsAfter(c: seq<Budget>, a: Action): (r: seq<Budget>)
    ensures Target(a) != Budgets ==> r == c
    ensures |r| >= |c|
  {
    match a
    case AddBudget(f) => Add(c, f)
    case UpdateBudget(id, p) => Update(c, id, p, MergeBudget)
    case _ => c
  }

  /** The vendors after one mutator call: an add appends a vendor with the
      next id, an update rewrites exactly the vendors with that id, a delete
      removes every vendor with that id and keeps the rest; any other action
      leaves the vendors alone. */
  function VendorsAfter(c: seq<Vendor>, a: Action): (r: seq<Vendor>)
    ensures Target(a) != Vendors ==> r == c
    ensures a.AddVendor? ==> r == c + [Record(|c| + 1, a.vendor)]
    ensures a.UpdateVendor? ==> |r| == |c|
    ensures a.UpdateVendor? ==> forall i :: 0 <= i < |c| ==>
              r[i] == (if c[i].id == a.id then Record(ValueOr(a.vendorPatch.id, a.id), MergeVendor(c[i].fields, a.vendorPatch.fields)) else c[i])
    ensures a.DeleteVendor? ==> !HasId(r, a.id) && forall i :: 0 <= i < |c| && c[i].id != a.id ==> c[i] in r
  {
    match a
    case AddVendor(f) => Add(c, f)
    case UpdateVendor(id, p) => Update(c, id, p, MergeVendor)
    case DeleteVendor(id) => Delete(c, id)
    case _ => c
  }

  /** A session: the mutator calls applied in order. */
  function Run(s: AppState, actions: seq<Action>): AppState
    decreases |actions|
  {
    if |actions| == 0 then s else Run(Apply(s, actions[0]), actions[1..])
  }

  /** Over any session, the expenses present at its start are still there,
      first and in order (there is no way to remove or edit an expense), and
      no budget is ever removed. */
  lemma {:induction false} SessionKeepsExpensesAndBudgets(s: AppState, actions: seq<Action>)
    ensures s.expenses <= Run(s, actions).expenses
    ensures |s.budgets| <= |Run(s, actions).budgets|
    decreases |actions|
  {
    if |actions| > 0 {
      SessionKeepsExpensesAndBudgets(Apply(s, actions[0]), actions[1..]);
    }
  }

  /** A session that never touches a collection leaves it as it was. */
  lemma {:induction false} SessionFrame(s: AppState, actions: seq<Action>, c: Collection)
    requires forall i :: 0 <= i < |actions| ==> Target(actions[i]) != c
    ensures c == Bills ==> Run(s, actions).bills == s.bills
    ensures c == Tasks ==> Run(s, actions).tasks == s.tasks
    ensures c == Expenses ==> Run(s, actions).expenses == s.expenses
    ensures c == Warranties ==> Run(s, actions).warranties == s.warranties
    ensures c == Budgets ==> Run(s, actions).budgets == s.budgets
    ensures c == Documents ==> Run(s, actions).documents == s.documents
    ensures c == Vendors ==> Run(s, actions).vendors == s.vendors
    decreases |actions|
  {
    if |actions| > 0 {
      SessionFrame(Apply(s, actions[0]), actions[1..], c);
    }
  }

  /** The silent no-ops of the bill mutators: an update whose patch
      supplies no field, and an update or delete of an id that no bill has,
      leave the whole state as it was. (The other entities share the
      generic `Store` lemmas and their merges' empty-patch contracts.) */
  lemma BillNoops(s: AppState, id: int, p: Patch<BillPatch>)
    ensures Apply(s, UpdateBill(id, Patch(None, NoBillChange))) == s
    ensures !HasId(s.bills, id) ==> Apply(s, UpdateBill(id, p)) == s && Apply(s, DeleteBill(id)) == s
  {
    UpdateEmptyPatch(s.bills, id, Patch(None, NoBillChange), MergeBill);
    if !HasId(s.bills, id) {
      UpdateUnknownId(s.bills, id, p, MergeBill);
      DeleteUnknownId(s.bills, id);
    }
  }

  /** Deleting a bill twice in a row is the same as deleting it once. */
  lemma DeleteBillIdempotent(s: AppState, id: int)
    ensures Run(s, [DeleteBill(id), DeleteBill(id)]) == Apply(s, DeleteBill(id))
  {
    var once := Apply(s, DeleteBill(id));
    DeleteIdempotent(s.bills, id);
    assert Apply(once, DeleteBill(id)) == once;
    assert [DeleteBill(id), DeleteBill(id)][1..] == [DeleteBill(id)];
    assert Run(once, [DeleteBill(id)]) == Run(once, []);
  }

  /** The seed scenario: marking the already-paid electric bill as paid
      changes nothing, and deleting the mortgage leaves exactly the electric
      bill. */
  lemma SeedBillScenario()
    ensures Apply(Initial(), UpdateBill(2, Patch(None, NoBillChange.(status := Some(Paid))))) == Initial()
    ensures Apply(Initial(), DeleteBill(1)).bills == [InitialBills()[1]]
  {
  }

  /** The id defect on the seed bills: after deleting bill 1, the next bill
      added gets id 2, which the electric bill already has. */
  lemma SeedDeleteThenAddDuplicatesId(f: BillFields)
    ensures var bills := Run(Initial(), [DeleteBill(1), AddBill(f)]).bills;
      |bills| == 2 && bills[0].id == 2 && bills[1].id == 2 && !UniqueIds(bills)
  {
    var c := InitialBills();
    DeleteThenAddDuplicatesId(c[0].fields, c[1].fields, f);
    var s1 := Apply(Initial(), DeleteBill(1));
    var s2 := Apply(s1, AddBill(f));
    assert s2.bills == Add(Delete(c, 1), f);
    assert [DeleteBill(1), AddBill(f)][1..] == [AddBill(f)];
    assert [AddBill(f)][1..] == [];
    assert Run(s1, [AddBill(f)]) == Run(s2, []);
  }
}
