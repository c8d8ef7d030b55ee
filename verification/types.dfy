/** Records of the inventory store: items, usage records, settings and budget,
    and the partial-update shapes the store merges into them. */
module Types {

  datatype Option<+T> = None | Some(value: T)

  /** Calendar dates are day numbers; "yesterday" is `d - 1`. */
  type Day = int

  /** Item identifiers are opaque strings. */
  type ItemId = string

  datatype Unit = Grams | Pieces | Litres | Kg | Ml

  datatype Theme = Light | Dark | System

  /** One tracked product. `dailyUsage`, `notes` and `refillThreshold` are optional. */
  datatype Item = Item(
    id: ItemId,
    name: string,
    category: string,
    quantity: real,
    unit: Unit,
    caloriesPerUnit: real,
    purchaseDate: Day,
    expiryDate: Day,
    autoSubtractDaily: bool,
    dailyUsage: Option<real>,
    notes: Option<string>,
    refillThreshold: Option<real>)

  /** Item `itemId` was consumed: `quantity` units worth `calories` on day `date`. */
  datatype UsageRecord = UsageRecord(itemId: ItemId, date: Day, quantity: real, calories: real)

  /** The record for using `amount` units of an item worth `caloriesPerUnit` each: priced
      on the amount given. */
  function UsageOf(itemId: ItemId, date: Day, amount: real, caloriesPerUnit: real): (r: UsageRecord)
    ensures r.itemId == itemId && r.date == date && r.quantity == amount
    ensures r.calories == amount * caloriesPerUnit
  {
    UsageRecord(itemId, date, amount, amount * caloriesPerUnit)
  }

  datatype Settings = Settings(
    autoSubtractDaily: bool,
    notifyOnRefillNeeded: bool,
    budgetTracking: bool,
    notificationSound: bool,
    monthlyBudget: real)

  datatype Budget = Budget(monthlyLimit: real, currentSpent: real, month: string, year: int)

  const InitialSettings := Settings(true, true, true, false, 200.0)

  /** The month and year labels are locale- and clock-dependent, so they are parameters. */
  function InitialBudget(month: string, year: int): (b: Budget)
    ensures b.currentSpent == 0.0 && b.monthlyLimit == InitialSettings.monthlyBudget
    ensures b.month == month && b.year == year
  {
    Budget(200.0, 0.0, month, year)
  }

  /** A `Partial<InventoryItem>`: `None` means the key is absent from the update object.
      For the optional fields, `Some(None)` is a key present with the value `undefined`,
      which the object spread copies over the old value. */
  datatype ItemPatch = ItemPatch(
    id: Option<ItemId>,
    name: Option<string>,
    category: Option<string>,
    quantity: Option<real>,
    unit: Option<Unit>,
    caloriesPerUnit: Option<real>,
    purchaseDate: Option<Day>,
    expiryDate: Option<Day>,
    autoSubtractDaily: Option<bool>,
    dailyUsage: Option<Option<real>>,
    notes: Option<Option<string>>,
    refillThreshold: Option<Option<real>>)

  datatype SettingsPatch = SettingsPatch(
    autoSubtractDaily: Option<bool>,
    notifyOnRefillNeeded: Option<bool>,
    budgetTracking: Option<bool>,
    notificationSound: Option<bool>,
    monthlyBudget: Option<real>)

  datatype BudgetPatch = BudgetPatch(
    monthlyLimit: Option<real>,
    currentSpent: Option<real>,
    month: Option<string>,
    year: Option<int>)

  function Or<T>(o: Option<T>, current: T): T
  {
    match o
    case Some(v) => v
    case None => current
  }

  const NoItemChange := ItemPatch(None, None, None, None, None, None, None, None, None, None, None, None)
  const NoSettingsChange := SettingsPatch(None, None, None, None, None)
  const NoBudgetChange := BudgetPatch(None, None, None, None)

  /** The shallow merge of an update into an item: every key present in the patch wins, every other field is kept. */
  function MergeItem(item: Item, p: ItemPatch): (r: Item)
  {
    Item(Or(p.id, item.id), Or(p.name, item.name), Or(p.category, item.category),
         Or(p.quantity, item.quantity), Or(p.unit, item.unit),
         Or(p.caloriesPerUnit, item.caloriesPerUnit), Or(p.purchaseDate, item.purchaseDate),
         Or(p.expiryDate, item.expiryDate), Or(p.autoSubtractDaily, item.autoSubtractDaily),
         Or(p.dailyUsage, item.dailyUsage), Or(p.notes, item.notes),
         Or(p.refillThreshold, item.refillThreshold))
  }

  /** The shallow merge of a settings update: present keys win, the others are kept. */
  function MergeSettings(s: Settings, p: SettingsPatch): (r: Settings)
  {
    Settings(Or(p.autoSubtractDaily, s.autoSubtractDaily),
             Or(p.notifyOnRefillNeeded, s.notifyOnRefillNeeded),
             Or(p.budgetTracking, s.budgetTracking),
             Or(p.notificationSound, s.notificationSound),
             Or(p.monthlyBudget, s.monthlyBudget))
  }

  /** The shallow merge of a budget update: present keys win, the others are kept. */
  function MergeBudget(b: Budget, p: BudgetPatch): (r: Budget)
  {
    Budget(Or(p.monthlyLimit, b.monthlyLimit), Or(p.currentSpent, b.currentSpent),
           Or(p.month, b.month), Or(p.year, b.year))
  }

  /** A shallow merge is idempotent and an empty update changes nothing. */
  lemma MergeItemIdempotent(item: Item, p: ItemPatch)
    ensures MergeItem(MergeItem(item, p), p) == MergeItem(item, p)
    ensures MergeItem(item, NoItemChange) == item
  {
  }

  lemma MergeSettingsIdempotent(s: Settings, p: SettingsPatch)
    ensures MergeSettings(MergeSettings(s, p), p) == MergeSettings(s, p)
    ensures MergeSettings(s, NoSettingsChange) == s
  {
  }

  lemma MergeBudgetIdempotent(b: Budget, p: BudgetPatch)
    ensures MergeBudget(MergeBudget(b, p), p) == MergeBudget(b, p)
    ensures MergeBudget(b, NoBudgetChange) == b
  {
  }

  /** The larger of 0 and `x`. */
  function ClampAtZero(x: real): (r: real)
    ensures r >= 0.0 && r >= x
    ensures r == x || r == 0.0
  {
    if x > 0.0 then x else 0.0
  }
}
