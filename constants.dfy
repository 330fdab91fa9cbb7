/** The fixed data the store is seeded with and the currency table. */
module Constants {
  import opened Records

  const DefaultExpenseCategories: seq<Category> := [
    Category("1", "Еда", Expense, "🍔", "#FF6B6B"),
    Category("2", "Транспорт", Expense, "🚗", "#4ECDC4"),
    Category("3", "Развлечения", Expense, "🎬", "#FFE66D"),
    Category("4", "Покупки", Expense, "🛍️", "#FF8B94"),
    Category("5", "Коммунальные", Expense, "💡", "#A8E6CF"),
    Category("6", "Здоровье", Expense, "⚕️", "#FF6B9D"),
    Category("7", "Образование", Expense, "📚", "#9B59B6"),
    Category("8", "Другое", Expense, "📌", "#95A5A6")
  ]

  const DefaultIncomeCategories: seq<Category> := [
    Category("101", "Зарплата", Income, "💰", "#2ECC71"),
    Category("102", "Бонус", Income, "🎁", "#27AE60"),
    Category("103", "Инвестиции", Income, "📈", "#3498DB"),
    Category("104", "Фриланс", Income, "💻", "#16A085"),
    Category("105", "Подарок", Income, "🎉", "#E74C3C"),
    Category("106", "Другое", Income, "📌", "#95A5A6")
  ]

  /** `ALL_DEFAULT_CATEGORIES`: the expense list, then the income list. */
  const AllDefaultCategories: seq<Category> := DefaultExpenseCategories + DefaultIncomeCategories

  datatype Currency = Currency(code: string, symbol: string, name: string)

  const Currencies: map<string, Currency> := map[
    "USD" := Currency("USD", "$", "Доллар США"),
    "EUR" := Currency("EUR", "€", "Евро"),
    "GBP" := Currency("GBP", "£", "Фунт стерлинг"),
    "UAH" := Currency("UAH", "₴", "Украинская гривня"),
    "RUB" := Currency("RUB", "₽", "Российский рубль"),
    "PLN" := Currency("PLN", "zł", "Польский злотый"),
    "CZK" := Currency("CZK", "Kč", "Чешская крона")
  ]

  const DefaultCurrency: string := "USD"
}
