/** The warranty view: the three-way expiry classification shown on each
    warranty card, and the record the "Add Warranty" form submits. */
module Warranties {
  import opened Dates
  import opened Store
  import Types
  import AppContext

  /** The label a warranty card displays. */
  datatype ExpiryLabel = Expired | ExpiringSoon | Active

  /** A warranty within this many days of expiry is "expiring soon". */
  const ExpiringSoonDays := 30

  /** The label for a warranty that expires `d` days from today: expired
      from day 0 backwards, expiring soon up to 30 days ahead, active after. */
  function Classify(d: int): (r: ExpiryLabel)
    ensures r == Expired <==> d <= 0
    ensures r == ExpiringSoon <==> 0 < d <= ExpiringSoonDays
    ensures r == Active <==> d > ExpiringSoonDays
  {
    if d <= 0 then Expired
    else if d <= ExpiringSoonDays then ExpiringSoon
    else Active
  }

  /** Labels ordered from expired to active. */
  function Rank(l: ExpiryLabel): nat
  {
    match l
    case Expired => 0
    case ExpiringSoon => 1
    case Active => 2
  }

  /** The later the expiry, the further the label is from "expired". */
  lemma ClassifyMonotone(d1: int, d2: int)
    requires d1 <= d2
    ensures Rank(Classify(d1)) <= Rank(Classify(d2))
  {
  }

  /** The label displayed for a warranty: computed from its expiry date
      alone, in whole calendar days from today. */
  function DisplayedStatus(w: Types.Warranty, now: Now): (r: ExpiryLabel)
    ensures r == Classify(DayNumber(w.fields.expiryDate) - DayNumber(now.date))
  {
    Classify(DaysUntil(w.fields.expiryDate, now))
  }

  /** The displayed label ignores the stored status: two warranties with the
      same expiry date show the same label, whatever else they hold. */
  lemma DisplayedStatusIgnoresStoredStatus(w1: Types.Warranty, w2: Types.Warranty, now: Now)
    requires w1.fields.expiryDate == w2.fields.expiryDate
    ensures DisplayedStatus(w1, now) == DisplayedStatus(w2, now)
  {
  }

  /** What the stored status would display as. */
  function StoredLabel(s: Types.WarrantyStatus): ExpiryLabel
  {
    match s
    case Active => Active
    case Expired => Expired
  }

  /** The stored status cannot agree with the displayed label in general:
      no stored value means "expiring soon", and the seed HVAC warranty,
      stored as active, displays as expired on its expiry date. */
  lemma StoredStatusCanDisagree(now: Now)
    requires now.date == Date(2027, 6, 1)
    ensures forall s: Types.WarrantyStatus :: StoredLabel(s) != ExpiringSoon
    ensures var w := AppContext.InitialWarranties()[1];
      StoredLabel(w.fields.status) == Active && DisplayedStatus(w, now) == Expired
  {
  }

  /** With today 2024-03-01: expiry on 2024-03-01 (0 days) is expired, on
      2024-03-31 (30 days) expiring soon, on 2024-04-01 (31 days) active. */
  lemma ClassifyBoundary(w: Types.Warranty, now: Now)
    requires now.date == Date(2024, 3, 1)
    ensures DisplayedStatus(w.(fields := w.fields.(expiryDate := Date(2024, 3, 1))), now) == Expired
    ensures DisplayedStatus(w.(fields := w.fields.(expiryDate := Date(2024, 3, 31))), now) == ExpiringSoon
    ensures DisplayedStatus(w.(fields := w.fields.(expiryDate := Date(2024, 4, 1))), now) == Active
  {
    DayNumberNextDate(Date(2024, 3, 31));
  }

  /** The record the form submits: the five typed-in fields, no documents,
      and stored status active. */
  function NewWarranty(item: string, manufacturer: string, purchaseDate: Date,
                       expiryDate: Date, coverage: string): (r: Types.WarrantyFields)
    ensures r.item == item && r.manufacturer == manufacturer && r.coverage == coverage
    ensures r.purchaseDate == purchaseDate && r.expiryDate == expiryDate
    ensures r.documents == [] && StoredLabel(r.status) == Active
  {
    Types.WarrantyFields(item, manufacturer, purchaseDate, expiryDate, coverage, [], Types.WarrantyStatus.Active)
  }

  /** Submitting the form appends one warranty with the next id, the typed-in
      fields, an empty document list and stored status active; no other
      warranty and no other collection changes. */
  lemma SubmitWarranty(s: AppContext.AppState, item: string, manufacturer: string,
                       purchaseDate: Date, expiryDate: Date, coverage: string)
    ensures var r := AppContext.Apply(s, AppContext.AddWarranty(NewWarranty(item, manufacturer, purchaseDate, expiryDate, coverage)));
      var n := |s.warranties|;
      && |r.warranties| == n + 1 && r.warranties[..n] == s.warranties
      && r.warranties[n].id == n + 1
      && r.warranties[n].fields.status == Types.WarrantyStatus.Active
      && r.warranties[n].fields.documents == []
      && r.warranties[n].fields.item == item && r.warranties[n].fields.expiryDate == expiryDate
      && r.(warranties := s.warranties) == s
  {
  }
}
