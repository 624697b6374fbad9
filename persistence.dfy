/** The save file as a value: what save_data writes and how load_data reads
    it back, with the defaults load_data uses for missing keys. */
module Persistence {
  import opened Ledger

  /** The four ledger fields that go into a save file. */
  datatype Fields = Fields(budget: real, symbol: string, expenses: seq<Expense>, categories: seq<string>)

  /** A parsed save file. Each of the four top-level keys ("monthly_budget",
      "currency_symbol", "expenses", "categories") may be absent. */
  datatype Document = Document(
    monthlyBudget: Option<real>,
    currencySymbol: Option<string>,
    expenses: Option<seq<Expense>>,
    categories: Option<seq<string>>)

  /** The document save_data writes: all four keys, holding the fields. */
  function Encode(f: Fields): (d: Document)
    ensures d.monthlyBudget.Some? && d.currencySymbol.Some? && d.expenses.Some? && d.categories.Some?
  {
    Document(Some(f.budget), Some(f.symbol), Some(f.expenses), Some(f.categories))
  }

  function GetOr<T>(o: Option<T>, default: T): T {
    match o
    case Some(v) => v
    case None => default
  }

  /** The fields load_data takes from a document: each key's value when
      present, otherwise 0, "$", no expenses and the starter categories. */
  function Decode(d: Document): Fields {
    Fields(
      GetOr(d.monthlyBudget, 0.0),
      GetOr(d.currencySymbol, "$"),
      GetOr(d.expenses, []),
      GetOr(d.categories, StarterCategories))
  }

  /** Loading a saved file restores the four fields exactly. */
  lemma DecodeEncode(f: Fields)
    ensures Decode(Encode(f)) == f
  {
  }

  /** A document that has all four keys is exactly what saving its decoded
      fields writes back. */
  lemma EncodeDecode(d: Document)
    requires d.monthlyBudget.Some? && d.currencySymbol.Some? && d.expenses.Some? && d.categories.Some?
    ensures Encode(Decode(d)) == d
  {
  }

  /** Each missing key falls back to its default, independently of the others. */
  lemma DecodeDefaults(d: Document)
    ensures d.monthlyBudget.None? ==> Decode(d).budget == 0.0
    ensures d.currencySymbol.None? ==> Decode(d).symbol == "$"
    ensures d.expenses.None? ==> Decode(d).expenses == []
    ensures d.categories.None? ==> Decode(d).categories == ["Rent", "Food", "Entertainment", "Car", "Credit Cards"]
    ensures d.monthlyBudget.Some? ==> Decode(d).budget == d.monthlyBudget.value
    ensures d.currencySymbol.Some? ==> Decode(d).symbol == d.currencySymbol.value
    ensures d.expenses.Some? ==> Decode(d).expenses == d.expenses.value
    ensures d.categories.Some? ==> Decode(d).categories == d.categories.value
  {
  }
}
