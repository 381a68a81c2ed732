/** The expenses screen: the foreign-currency auto-conversion of the form,
    saving (new expenses go first) and deleting expenses. */
module Expenses {
  import opened Wrappers
  import opened Model
  import Collections
  import Budget
  import App

  /** The expense form: `amount` is the reais value typed or converted. */
  datatype ExpenseDraft = ExpenseDraft(description: string, amount: Numeric, date: string, category: string)

  /** The foreign-currency part of the form: the switch and the three raw
      text inputs. */
  datatype ForeignInputs = ForeignInputs(
    enabled: bool, foreignAmount: string, exchangeRate: string, currencySymbol: string)

  /** JavaScript multiplication, where `NaN` is absorbing. */
  function Times(a: Numeric, b: Numeric): (r: Numeric)
    ensures r.Num? <==> a.Num? && b.Num?
    ensures r.Num? ==> r.value == a.value * b.value
  {
    if a.Num? && b.Num? then Num(a.value * b.value) else NaN
  }

  /** When the conversion effect overwrites the amount: foreign mode on,
      both inputs non-empty, and their product a number. `parseFloat` is the
      library parser, taken as a parameter. */
  predicate ConversionFires(f: ForeignInputs, parseFloat: string -> Numeric) {
    f.enabled && f.foreignAmount != "" && f.exchangeRate != ""
    && Times(parseFloat(f.foreignAmount), parseFloat(f.exchangeRate)).Num?
  }

  /** The auto-conversion effect: the amount becomes the product of the
      foreign amount and the rate, rounded to cents; nothing else in the
      form changes, and without a conversion nothing changes at all. */
  function AutoConvert(d: ExpenseDraft, f: ForeignInputs, parseFloat: string -> Numeric): (r: ExpenseDraft)
    ensures r == d.(amount := r.amount)
    ensures !ConversionFires(f, parseFloat) ==> r == d
    ensures ConversionFires(f, parseFloat) ==>
              r.amount.Num? && Budget.IsCents(r.amount.value)
              && -0.005 <= r.amount.value - parseFloat(f.foreignAmount).value * parseFloat(f.exchangeRate).value <= 0.005
  {
    if f.enabled && f.foreignAmount != "" && f.exchangeRate != "" then
      var product := Times(parseFloat(f.foreignAmount), parseFloat(f.exchangeRate));
      if product.Num? then d.(amount := Num(Budget.Round2(product.value))) else d
    else d
  }

  /** The conversion only runs from foreign amount to reais: once it fires,
      whatever amount was typed before makes no difference. */
  lemma ConversionIgnoresTypedAmount(d: ExpenseDraft, typed: Numeric, f: ForeignInputs, parseFloat: string -> Numeric)
    requires ConversionFires(f, parseFloat)
    ensures AutoConvert(d.(amount := typed), f, parseFloat) == AutoConvert(d, f, parseFloat)
  {
  }

  /** Running the effect again with the same inputs changes nothing. */
  lemma AutoConvertIdempotent(d: ExpenseDraft, f: ForeignInputs, parseFloat: string -> Numeric)
    ensures AutoConvert(AutoConvert(d, f, parseFloat), f, parseFloat) == AutoConvert(d, f, parseFloat)
  {
  }

  /** 10 units at 5.5 are R$ 55.00; changing the rate to 5.0 gives R$ 50.00. */
  lemma ConversionExample(d: ExpenseDraft, parseFloat: string -> Numeric)
    requires parseFloat("10") == Num(10.0) && parseFloat("5.5") == Num(5.5) && parseFloat("5.0") == Num(5.0)
    ensures AutoConvert(d, ForeignInputs(true, "10", "5.5", "USD"), parseFloat).amount == Num(55.0)
    ensures AutoConvert(d, ForeignInputs(true, "10", "5.0", "USD"), parseFloat).amount == Num(50.0)
  {
    assert Budget.CentsHalfUp(55.0) == 5500;
    assert Budget.CentsHalfUp(50.0) == 5000;
  }

  /** The expense a save stores. `number` is `Number(...)` on the two
      foreign text inputs and `now` the current timestamp used when the
      form has no date. */
  function SavedExpense(d: ExpenseDraft, f: ForeignInputs, id: string, now: string,
                        number: string -> Numeric): (e: Expense)
    requires d.amount.Num?
    ensures e.id == id && e.description == d.description && e.amount == d.amount.value
    ensures e.category == d.category
    ensures e.date == (if d.date == "" then now else d.date)
    ensures e.isForeign == Some(f.enabled)
    ensures e.foreignAmount.Some? <==> f.enabled
    ensures e.exchangeRate.Some? <==> f.enabled
    ensures e.currencySymbol.Some? <==> f.enabled
    ensures f.enabled ==> e.foreignAmount == Some(number(f.foreignAmount))
                          && e.exchangeRate == Some(number(f.exchangeRate))
                          && e.currencySymbol == Some(f.currencySymbol)
  {
    Expense(id, d.description, d.amount.value, if d.date == "" then now else d.date, d.category,
            Some(f.enabled),
            if f.enabled then Some(number(f.foreignAmount)) else None,
            if f.enabled then Some(f.currencySymbol) else None,
            if f.enabled then Some(number(f.exchangeRate)) else None)
  }

  /** `handleSave`: refused without a description or with an amount that is
      missing, not a number or zero; otherwise a new expense goes to the
      front and an edited one is replaced where it stands. */
  function SaveExpense(trip: Trip, d: ExpenseDraft, f: ForeignInputs, editingId: Option<string>,
                       freshId: string, now: string, number: string -> Numeric): (r: Option<TripPatch>)
    ensures r.None? <==> d.description == "" || !TruthyNumber(d.amount)
    ensures r.Some? ==>
              var id := if Truthy(editingId) then editingId.value else freshId;
              App.Apply(trip, r) == trip.(expenses := Collections.SavePrepending(
                trip.expenses, ExpenseId, editingId, SavedExpense(d, f, id, now, number)))
  {
    if d.description == "" || !TruthyNumber(d.amount) then None
    else
      var id := if Truthy(editingId) then editingId.value else freshId;
      var e := SavedExpense(d, f, id, now, number);
      Some(EmptyPatch.(expenses := Some(Collections.SavePrepending(trip.expenses, ExpenseId, editingId, e))))
  }

  /** A new expense raises the total spent by exactly its amount. */
  lemma NewExpenseAddsItsAmount(trip: Trip, d: ExpenseDraft, f: ForeignInputs, freshId: string,
                                now: string, number: string -> Numeric)
    requires d.description != "" && TruthyNumber(d.amount)
    ensures Budget.TotalSpent(App.Apply(trip, SaveExpense(trip, d, f, None, freshId, now, number)).expenses)
         == Budget.TotalSpent(trip.expenses) + d.amount.value
  {
    var es := App.Apply(trip, SaveExpense(trip, d, f, None, freshId, now, number)).expenses;
    assert es == [es[0]] + trip.expenses;
    Budget.TotalSpentConcat([es[0]], trip.expenses);
  }

  /** `confirmDelete`: remove the expenses with the pending id; nothing
      without one. */
  function ConfirmDelete(trip: Trip, pendingId: Option<string>): (r: Option<TripPatch>)
    ensures r.None? <==> !Truthy(pendingId)
    ensures r.Some? ==>
              App.Apply(trip, r) == trip.(expenses := Collections.RemoveById(trip.expenses, ExpenseId, pendingId.value))
  {
    if !Truthy(pendingId) then None
    else Some(EmptyPatch.(expenses := Some(Collections.RemoveById(trip.expenses, ExpenseId, pendingId.value))))
  }
}
