/** The task record the remote service returns, and the operations on task
    lists that the core calls but that live in `items.rs` and `time.rs`, which
    are not part of this model. They are kept uninterpreted: the core is
    modelled for every choice of them. */
module Items {
  import opened Wrappers
  import opened ConfigFile

  datatype DateInfo = DateInfo(date: string, isRecurring: bool, timezone: Option<string>)

  /** A task ("item"); `checked` is the service's done flag. */
  datatype Item = Item(
    id: string,
    content: string,
    checked: bool,
    description: string,
    due: Option<DateInfo>,
    priority: int,
    isDeleted: bool)

  /** `json_to_items`, `filter_not_in_future`, `sort_by_value`,
      `filter_today_and_has_time`, `sort_by_datetime` and `Item::fmt`. */
  datatype ItemOps = ItemOps(
    jsonToItems: string -> Result<seq<Item>>,
    filterNotInFuture: (seq<Item>, Config) -> Result<seq<Item>>,
    sortByValue: (seq<Item>, Config) -> seq<Item>,
    filterTodayAndHasTime: (seq<Item>, Config) -> seq<Item>,
    sortByDatetime: (seq<Item>, Config) -> seq<Item>,
    fmt: (Item, Config) -> string)

  /** The task list of `next_item`: eligible tasks, best first. */
  function Ranked(ops: ItemOps, items: seq<Item>, config: Config): (r: Result<seq<Item>>)
    ensures ops.filterNotInFuture(items, config).Err? ==> r == Err(ops.filterNotInFuture(items, config).error)
    ensures ops.filterNotInFuture(items, config).Ok? ==>
      r == Ok(ops.sortByValue(ops.filterNotInFuture(items, config).value, config))
  {
    match ops.filterNotInFuture(items, config)
    case Err(e) => Err(e)
    case Ok(eligible) => Ok(ops.sortByValue(eligible, config))
  }

  /** The filtering, ranking and formatting of `next_item` do not look at the
      record's pointer. */
  ghost predicate PointerBlind(ops: ItemOps)
  {
    (forall items, c, id :: ops.filterNotInFuture(items, SetNextId(c, id)) == ops.filterNotInFuture(items, c))
    && (forall items, c, id :: ops.sortByValue(items, SetNextId(c, id)) == ops.sortByValue(items, c))
    && (forall item, c, id :: ops.fmt(item, SetNextId(c, id)) == ops.fmt(item, c))
  }

  /** The item of the test fixtures. */
  function ItemFixture(): Item
  {
    Item("222", "Get gifts for the twins", false, "",
         Some(DateInfo("2061-11-13", false, Some("America/Los_Angeles"))), 3, false)
  }
}
