/** The seven entity shapes of the application and their closed status and
    type enumerations. Every entity is a `Record` of the store: a numeric id
    and the entity's other fields. Money is in integer cents; dates are
    calendar dates. Each updatable entity also has its `Partial` shape: one
    optional value per field, merged by spreading it over the record. */
module Types {
  import opened Optional
  import opened Dates
  import opened Store

  datatype BillStatus = Paid | Pending | Overdue

  /** A task's `type`: an upkeep job, or a reminder of a bill. */
  datatype TaskType = Maintenance | BillReminder

  datatype TaskStatus = Completed | Pending

  /** The stored warranty status; there is no "expiring soon" value. */
  datatype WarrantyStatus = Active | Expired

  datatype BillFields = BillFields(
    name: string, amountCents: int, dueDate: Date, category: string,
    isAutoPay: bool, status: BillStatus)

  datatype TaskFields = TaskFields(title: string, date: Date, kind: TaskType, status: TaskStatus)

  datatype ExpenseFields = ExpenseFields(title: string, amountCents: int, date: Date, category: string)

  datatype WarrantyFields = WarrantyFields(
    item: string, manufacturer: string, purchaseDate: Date, expiryDate: Date,
    coverage: string, documents: seq<string>, status: WarrantyStatus)

  datatype DocumentFields = DocumentFields(
    title: string, category: string, uploadDate: Date, url: string, tags: seq<string>)

  /** `month` is the two-digit month string, as stored. */
  datatype BudgetFields = BudgetFields(
    category: string, plannedCents: int, actualCents: int, month: string, year: int)

  /** `lastUsed` and `notes` are the only optional fields of any entity. */
  datatype VendorFields = VendorFields(
    name: string, category: string, phone: string, email: string, rating: real,
    lastUsed: Option<Date>, notes: Option<string>)

  type Bill = Record<BillFields>
  type Task = Record<TaskFields>
  type Expense = Record<ExpenseFields>
  type Warranty = Record<WarrantyFields>
  type Document = Record<DocumentFields>
  type Budget = Record<BudgetFields>
  type Vendor = Record<VendorFields>

  /** One field of a spread: the patch's value if it supplies one. */
  function Override<T>(current: T, replacement: Option<T>): T
  {
    ValueOr(replacement, current)
  }

  datatype BillPatch = BillPatch(
    name: Option<string>, amountCents: Option<int>, dueDate: Option<Date>,
    category: Option<string>, isAutoPay: Option<bool>, status: Option<BillStatus>)

  datatype TaskPatch = TaskPatch(
    title: Option<string>, date: Option<Date>, kind: Option<TaskType>, status: Option<TaskStatus>)

  datatype WarrantyPatch = WarrantyPatch(
    item: Option<string>, manufacturer: Option<string>, purchaseDate: Option<Date>,
    expiryDate: Option<Date>, coverage: Option<string>, documents: Option<seq<string>>,
    status: Option<WarrantyStatus>)

  datatype DocumentPatch = DocumentPatch(
    title: Option<string>, category: Option<string>, uploadDate: Option<Date>,
    url: Option<string>, tags: Option<seq<string>>)

  datatype BudgetPatch = BudgetPatch(
    category: Option<string>, plannedCents: Option<int>, actualCents: Option<int>,
    month: Option<string>, year: Option<int>)

  /** A patch can set `lastUsed` or `notes` but, like the spread of a
      present value, cannot clear them. */
  datatype VendorPatch = VendorPatch(
    name: Option<string>, category: Option<string>, phone: Option<string>,
    email: Option<string>, rating: Option<real>, lastUsed: Option<Date>, notes: Option<string>)

  const NoBillChange := BillPatch(None, None, None, None, None, None)
  const NoTaskChange := TaskPatch(None, None, None, None)
  const NoWarrantyChange := WarrantyPatch(None, None, None, None, None, None, None)
  const NoDocumentChange := DocumentPatch(None, None, None, None, None)
  const NoBudgetChange := BudgetPatch(None, None, None, None, None)
  const NoVendorChange := VendorPatch(None, None, None, None, None, None, None)

  function MergeBill(f: BillFields, p: BillPatch): (r: BillFields)
    ensures p == NoBillChange ==> r == f
    ensures p.status.Some? ==> r.status == p.status.value
  {
    BillFields(
      Override(f.name, p.name), Override(f.amountCents, p.amountCents),
      Override(f.dueDate, p.dueDate), Override(f.category, p.category),
      Override(f.isAutoPay, p.isAutoPay), Override(f.status, p.status))
  }

  function MergeTask(f: TaskFields, p: TaskPatch): (r: TaskFields)
    ensures p == NoTaskChange ==> r == f
    ensures p.status.Some? ==> r.status == p.status.value
  {
    TaskFields(
      Override(f.title, p.title), Override(f.date, p.date),
      Override(f.kind, p.kind), Override(f.status, p.status))
  }

  function MergeWarranty(f: WarrantyFields, p: WarrantyPatch): (r: WarrantyFields)
    ensures p == NoWarrantyChange ==> r == f
  {
    WarrantyFields(
      Override(f.item, p.item), Override(f.manufacturer, p.manufacturer),
      Override(f.purchaseDate, p.purchaseDate), Override(f.expiryDate, p.expiryDate),
      Override(f.coverage, p.coverage), Override(f.documents, p.documents),
      Override(f.status, p.status))
  }

  function MergeDocument(f: DocumentFields, p: DocumentPatch): (r: DocumentFields)
    ensures p == NoDocumentChange ==> r == f
  {
    DocumentFields(
      Override(f.title, p.title), Override(f.category, p.category),
      Override(f.uploadDate, p.uploadDate), Override(f.url, p.url), Override(f.tags, p.tags))
  }

  function MergeBudget(f: BudgetFields, p: BudgetPatch): (r: BudgetFields)
    ensures p == NoBudgetChange ==> r == f
  {
    BudgetFields(
      Override(f.category, p.category), Override(f.plannedCents, p.plannedCents),
      Override(f.actualCents, p.actualCents), Override(f.month, p.month), Override(f.year, p.year))
  }

  function MergeVendor(f: VendorFields, p: VendorPatch): (r: VendorFields)
    ensures p == NoVendorChange ==> r == f
    ensures p.lastUsed.Some? ==> r.lastUsed == p.lastUsed
    ensures p.notes.Some? ==> r.notes == p.notes
  {
    VendorFields(
      Override(f.name, p.name), Override(f.category, p.category),
      Override(f.phone, p.phone), Override(f.email, p.email), Override(f.rating, p.rating),
      if p.lastUsed.Some? then p.lastUsed else f.lastUsed,
      if p.notes.Some? then p.notes else f.notes)
  }

  /** Spreading the same patch twice gives what spreading it once gives. */
  lemma MergeIdempotent(b: BillFields, bp: BillPatch, t: TaskFields, tp: TaskPatch,
                        w: WarrantyFields, wp: WarrantyPatch, d: DocumentFields, dp: DocumentPatch,
                        g: BudgetFields, gp: BudgetPatch, v: VendorFields, vp: VendorPatch)
    ensures MergeBill(MergeBill(b, bp), bp) == MergeBill(b, bp)
    ensures MergeTask(MergeTask(t, tp), tp) == MergeTask(t, tp)
    ensures MergeWarranty(MergeWarranty(w, wp), wp) == MergeWarranty(w, wp)
    ensures MergeDocument(MergeDocument(d, dp), dp) == MergeDocument(d, dp)
    ensures MergeBudget(MergeBudget(g, gp), gp) == MergeBudget(g, gp)
    ensures MergeVendor(MergeVendor(v, vp), vp) == MergeVendor(v, vp)
  {
  }
}
