/** The project registry commands and the "next item" selection. */
module Projects {
  import opened Wrappers
  import opened Text
  import opened ConfigFile
  import opened Items
  import opened Request

  const ADD_ERROR := "Must provide project name and number, i.e. tod --add projectname 12345"
  const NO_PROJECTS := "No projects found"
  const NO_ITEMS := "No items on list"
  const NO_SCHEDULED := "No scheduled items found"
  const PROJECTS_HEADER := "Projects"

  // ---------------------------------------------------------------------------
  // Listing

  /** One `"\n - " + key` per key, in the order given. */
  function Bullets(keys: seq<string>): string
  {
    if keys == [] then "" else Bullets(keys[..|keys| - 1]) + "\n - " + keys[|keys| - 1]
  }

  lemma {:induction false} BulletsAppend(a: seq<string>, b: seq<string>)
    ensures Bullets(a + b) == Bullets(a) + Bullets(b)
    decreases |b|
  {
    if b == [] {
      assert a + b == a;
    } else {
      assert (a + b)[..|a + b| - 1] == a + b[..|b| - 1];
      BulletsAppend(a, b[..|b| - 1]);
      assert (a + b)[|a + b| - 1] == b[|b| - 1];
    }
  }

  lemma BulletsSingle(k: string)
    ensures Bullets([k]) == "\n - " + k
  {
    assert [k][..0] == [];
  }

  /** The text of a non-empty listing. */
  function ListText(keys: seq<string>): string
  {
    PROJECTS_HEADER + Bullets(keys)
  }

  /** `list`: "No projects found" for an empty registry, otherwise the header
      and one bullet per project name, in ascending order. */
  method List(config: Config) returns (r: Result<string>)
    ensures |config.projects| == 0 ==> r == Ok(NO_PROJECTS)
    ensures |config.projects| > 0 ==> r == Ok(ListText(SortedSet(config.projects.Keys)))
  {
    var keys := SortedKeys(config.projects);
    if |keys| == 0 {
      return Ok(NO_PROJECTS);
    }
    var buffer := AppendBullets(PROJECTS_HEADER, keys);
    return Ok(buffer);
  }

  /** Appends one bullet per key to `buffer`. */
  method AppendBullets(buffer: string, keys: seq<string>) returns (r: string)
    ensures r == buffer + Bullets(keys)
  {
    r := buffer;
    for i := 0 to |keys|
      invariant r == buffer + Bullets(keys[..i])
    {
      assert keys[..i + 1][..i] == keys[..i];
      r := r + "\n - " + keys[i];
    }
    assert keys[..|keys|] == keys;
  }

  lemma SortedPair(a: string, b: string)
    requires LexLess(a, b)
    ensures SortedSet({a, b}) == [a, b]
  {
    LexIrreflexive(a);
    SortedUnique(SortedSet({a, b}), [a, b]);
  }

  lemma ListTextExample()
    ensures ListText(["first", "second"]) == "Projects\n - first\n - second"
  {
    BulletsSingle("first");
    BulletsSingle("second");
    BulletsAppend(["first"], ["second"]);
    assert ["first"] + ["second"] == ["first", "second"];
  }

  // ---------------------------------------------------------------------------
  // Adding and removing projects

  /** `add_project`, a map insert: `name` now maps to `number`, and nothing
      else changes. */
  function AddProject(config: Config, name: string, number: U32): (r: Config)
    ensures r.projects.Keys == config.projects.Keys + {name} && r.projects[name] == number
    ensures forall k :: k in config.projects && k != name ==> r.projects[k] == config.projects[k]
    ensures r.(projects := config.projects) == config
  {
    config.(projects := config.projects[name := number])
  }

  /** `remove_project`, a map delete; its body is not part of this model. */
  function RemoveProject(config: Config, name: string): (r: Config)
    ensures r.projects.Keys == config.projects.Keys - {name}
    ensures forall k :: k in r.projects ==> r.projects[k] == config.projects[k]
    ensures r.(projects := config.projects) == config
  {
    config.(projects := config.projects - {name})
  }

  /** The arguments of `add`: the last is the number and the one before it
      the name; too few, or a last one that is not a `u32`, is `ADD_ERROR`. */
  function AddArgs(params: seq<string>): (r: Result<(string, U32)>)
    ensures r.Ok? <==> |params| >= 2 && ParseU32(params[|params| - 1]).Some?
    ensures r.Ok? ==> r.value == (params[|params| - 2], ParseU32(params[|params| - 1]).value)
    ensures r.Err? ==> r.error == ADD_ERROR
  {
    if |params| < 2 then Err(ADD_ERROR)
    else match ParseU32(params[|params| - 1])
      case None => Err(ADD_ERROR)
      case Some(n) => Ok((params[|params| - 2], n))
  }

  /** `add`: pops the number, then the name, off the parameters, and saves the
      registry with the project added. */
  method Add(fs: FileSystem, config: Config, params: seq<string>) returns (r: Result<string>)
    modifies fs`files
    ensures AddArgs(params).Err? ==> r == Err(ADD_ERROR) && fs.files == old(fs.files)
    ensures AddArgs(params).Ok? ==>
      var updated := AddProject(config, AddArgs(params).value.0, AddArgs(params).value.1);
      if config.path in old(fs.files) && config.path !in fs.readOnly
      then r == Ok(DONE) && fs.files == old(fs.files)[config.path := Stored(updated)]
      else r == Err(SAVE_ERROR) && fs.files == old(fs.files)
  {
    var rest := params;
    if |rest| == 0 {
      return Err(ADD_ERROR);
    }
    var last := rest[|rest| - 1];
    rest := rest[..|rest| - 1];
    var number := ParseU32(last);
    if number.None? {
      return Err(ADD_ERROR);
    }
    if |rest| == 0 {
      return Err(ADD_ERROR);
    }
    var name := rest[|rest| - 1];
    rest := rest[..|rest| - 1];
    r := fs.Save(AddProject(config, name, number.value));
  }

  /** `remove`: saves the registry without `name`. */
  method Remove(fs: FileSystem, config: Config, name: string) returns (r: Result<string>)
    modifies fs`files
    ensures config.path in old(fs.files) && config.path !in fs.readOnly ==>
      r == Ok(DONE) && fs.files == old(fs.files)[config.path := Stored(RemoveProject(config, name))]
    ensures !(config.path in old(fs.files) && config.path !in fs.readOnly) ==>
      r == Err(SAVE_ERROR) && fs.files == old(fs.files)
  {
    r := fs.Save(RemoveProject(config, name));
  }

  // ---------------------------------------------------------------------------
  // Name to id

  function NotFound(name: string): string
  {
    "Project " + name + " not found, please add it to config"
  }

  /** `project_id`: the registered number in decimal, or the fixed message. */
  function ProjectId(config: Config, name: string): (r: Result<string>)
    ensures r.Ok? <==> name in config.projects
    ensures r.Ok? ==> r.value == DecimalString(config.projects[name])
    ensures r.Err? ==> r.error == NotFound(name)
  {
    if name in config.projects then Ok(DecimalString(config.projects[name])) else Err(NotFound(name))
  }

  /** The id string reads back as the registered number. */
  lemma ProjectIdParses(config: Config, name: string)
    requires name in config.projects
    ensures ParseU32(ProjectId(config, name).value) == Some(config.projects[name])
  {
    ParseDecimal(config.projects[name], U32_BOUND);
  }

  /** A project added under `name` resolves to the number given; a removed
      one no longer resolves. */
  lemma AddThenResolve(config: Config, name: string, number: U32)
    ensures ProjectId(AddProject(config, name, number), name) == Ok(DecimalString(number))
    ensures ProjectId(RemoveProject(config, name), name) == Err(NotFound(name))
  {
  }

  lemma AddArgsExample()
    ensures AddArgs(["--add", "home", "12345"]) == Ok(("home", 12345))
    ensures AddArgs(["12345"]) == Err(ADD_ERROR)
  {
    ParseDecimal(12345, U32_BOUND);
    assert DecimalString(12345) == "12345";
  }

  // ---------------------------------------------------------------------------
  // The next item

  /** What `next_item` does to the store `before` once the fetch yielded
      `o`, and what it returns: the pointer is set to the head of the ranked
      list and saved, or the store is left alone. */
  function NextItemOutcome(before: map<string, Entry>, readOnly: set<string>, ops: ItemOps,
                           config: Config, o: HttpOutcome): (map<string, Entry>, Result<string>)
  {
    match FetchedItems(ops, o)
    case Err(e) => (before, Err(e))
    case Ok(items) =>
      match Ranked(ops, items, config)
      case Err(e) => (before, Err(e))
      case Ok(ranked) =>
        if ranked == [] then (before, Ok(NO_ITEMS))
        else if config.path in before && config.path !in readOnly then
          (before[config.path := Stored(SetNextId(config, ranked[0].id))], Ok(ops.fmt(ranked[0], config)))
        else (before, Err(SAVE_ERROR))
  }

  /** The whole of `next_item` on `w`: an unknown project changes nothing;
      otherwise one project-data request, then `NextItemOutcome`. */
  function NextItemEffect(w: World, readOnly: set<string>, ops: ItemOps, config: Config, name: string)
    : (World, Result<string>)
  {
    if name !in config.projects then (w, Err(NotFound(name)))
    else
      var fetched := Sent(w, TodoistRequest(config.token, PROJECT_DATA_URL,
                                            ProjectData(DecimalString(config.projects[name]))));
      var (files, r) := NextItemOutcome(w.files, readOnly, ops, config, NextReply(w.replies));
      (fetched.(files := files), r)
  }

  /** Whatever `next_item` does to the store, it writes only the record with
      its pointer set to the id of the task whose text it returns. */
  lemma NextItemWritesOnlyPointer(before: map<string, Entry>, readOnly: set<string>, ops: ItemOps,
                                  config: Config, o: HttpOutcome)
    ensures var (after, r) := NextItemOutcome(before, readOnly, ops, config, o);
      after == before
      || (r.Ok? && exists item :: r.value == ops.fmt(item, config)
                                 && after == before[config.path := Stored(SetNextId(config, item.id))])
  {
    var (after, r) := NextItemOutcome(before, readOnly, ops, config, o);
    if after != before {
      var ranked := Ranked(ops, FetchedItems(ops, o).value, config).value;
      assert r.value == ops.fmt(ranked[0], config);
    }
  }

  /** Asking again for the next item of the same record, with the service
      answering as before, selects the same task and leaves the store as the
      first call left it: the pointer is overwritten, not accumulated. This is
      about `next_item` given the same record twice. A second `get_next`
      reloads the record, whose pointer is then set; `App.GetNextIdempotent`
      states that case. */
  lemma NextItemIdempotent(before: map<string, Entry>, readOnly: set<string>, ops: ItemOps,
                           config: Config, o: HttpOutcome)
    ensures var (once, r) := NextItemOutcome(before, readOnly, ops, config, o);
      NextItemOutcome(once, readOnly, ops, config, o) == (once, r)
  {
    var (once, r) := NextItemOutcome(before, readOnly, ops, config, o);
    if once != before {
      assert config.path in before;
      var item := Ranked(ops, FetchedItems(ops, o).value, config).value[0];
      assert once[config.path := Stored(SetNextId(config, item.id))] == once;
    }
  }

  /** When the service's answer decodes to the fixture task alone and every
      task is eligible, the pointer becomes its id "222" and its text is
      returned. */
  lemma NextItemFixture(before: map<string, Entry>, config: Config)
    requires config.path in before
    ensures var ops := ItemOps((json: string) => Ok([ItemFixture()]),
                               (items: seq<Item>, c: Config) => Ok(items),
                               (items: seq<Item>, c: Config) => items,
                               (items: seq<Item>, c: Config) => [],
                               (items: seq<Item>, c: Config) => items,
                               (item: Item, c: Config) => item.content);
      NextItemOutcome(before, {}, ops, config, Response(200, Some("[]"), ""))
      == (before[config.path := Stored(SetNextId(config, "222"))], Ok("Get gifts for the twins"))
  {
  }

  /** `next_item`: resolve the project, fetch, filter and rank, then point at
      the head of the list. An unknown project fails before anything is
      fetched or saved. */
  method NextItem(fs: FileSystem, remote: Remote, ops: ItemOps, config: Config, name: string)
    returns (r: Result<string>)
    modifies fs`files, remote
    ensures name !in config.projects ==>
      r == Err(NotFound(name)) && fs.files == old(fs.files)
      && remote.sent == old(remote.sent) && remote.replies == old(remote.replies)
    ensures name in config.projects ==>
      remote.sent == old(remote.sent) + [TodoistRequest(config.token, PROJECT_DATA_URL,
                                           ProjectData(DecimalString(config.projects[name])))]
      && remote.replies == LaterReplies(old(remote.replies))
      && (fs.files, r) == NextItemOutcome(old(fs.files), fs.readOnly, ops, config, NextReply(old(remote.replies)))
    ensures (World(fs.files, remote.sent, remote.replies), r)
            == NextItemEffect(World(old(fs.files), old(remote.sent), old(remote.replies)), fs.readOnly, ops, config, name)
  {
    var id := ProjectId(config, name);
    if id.Err? {
      return Err(id.error);
    }
    var items := ItemsForProject(remote, ops, config, id.value);
    if items.Err? {
      return Err(items.error);
    }
    var ranked := Ranked(ops, items.value, config);
    if ranked.Err? {
      return Err(ranked.error);
    }
    if ranked.value == [] {
      return Ok(NO_ITEMS);
    }
    var item := ranked.value[0];
    var saved := fs.Save(SetNextId(config, item.id));
    if saved.Err? {
      return Err(saved.error);
    }
    return Ok(ops.fmt(item, config));
  }

  // ---------------------------------------------------------------------------
  // Reports

  /** One `"\n" + fmt(item)` per item, in the order given. */
  function ItemLines(ops: ItemOps, config: Config, items: seq<Item>): string
  {
    if items == [] then ""
    else ItemLines(ops, config, items[..|items| - 1]) + "\n" + ops.fmt(items[|items| - 1], config)
  }

  lemma {:induction false} ItemLinesAppend(ops: ItemOps, config: Config, a: seq<Item>, b: seq<Item>)
    ensures ItemLines(ops, config, a + b) == ItemLines(ops, config, a) + ItemLines(ops, config, b)
    decreases |b|
  {
    if b == [] {
      assert a + b == a;
    } else {
      assert (a + b)[..|a + b| - 1] == a + b[..|b| - 1];
      ItemLinesAppend(ops, config, a, b[..|b| - 1]);
      assert (a + b)[|a + b| - 1] == b[|b| - 1];
    }
  }

  /** The text `scheduled_items` answers for the fetched `items`. */
  function ScheduleText(ops: ItemOps, config: Config, name: string, items: seq<Item>): (r: string)
    ensures ops.filterTodayAndHasTime(items, config) == [] ==> r == NO_SCHEDULED
    ensures ops.filterTodayAndHasTime(items, config) != [] ==>
      r == "Schedule for " + name
           + ItemLines(ops, config, ops.sortByDatetime(ops.filterTodayAndHasTime(items, config), config))
  {
    var scheduled := ops.filterTodayAndHasTime(items, config);
    if scheduled == [] then NO_SCHEDULED
    else "Schedule for " + name + ItemLines(ops, config, ops.sortByDatetime(scheduled, config))
  }

  /** Appends one line per item to `buffer`. */
  method AppendLines(ops: ItemOps, config: Config, buffer: string, items: seq<Item>) returns (r: string)
    ensures r == buffer + ItemLines(ops, config, items)
  {
    r := buffer;
    for i := 0 to |items|
      invariant r == buffer + ItemLines(ops, config, items[..i])
    {
      assert items[..i + 1][..i] == items[..i];
      r := r + "\n" + ops.fmt(items[i], config);
    }
    assert items[..|items|] == items;
  }

  /** `scheduled_items`: today's appointments of the project, by time. */
  method ScheduledItems(remote: Remote, ops: ItemOps, config: Config, name: string)
    returns (r: Result<string>)
    modifies remote
    ensures name !in config.projects ==>
      r == Err(NotFound(name)) && remote.sent == old(remote.sent) && remote.replies == old(remote.replies)
    ensures name in config.projects ==>
      remote.sent == old(remote.sent) + [TodoistRequest(config.token, PROJECT_DATA_URL,
                                           ProjectData(DecimalString(config.projects[name])))]
      && remote.replies == LaterReplies(old(remote.replies))
      && var fetched := FetchedItems(ops, NextReply(old(remote.replies)));
         r == if fetched.Err? then Err(fetched.error) else Ok(ScheduleText(ops, config, name, fetched.value))
  {
    var id := ProjectId(config, name);
    if id.Err? {
      return Err(id.error);
    }
    var items := ItemsForProject(remote, ops, config, id.value);
    if items.Err? {
      return Err(items.error);
    }
    var scheduled := ops.filterTodayAndHasTime(items.value, config);
    if scheduled == [] {
      return Ok(NO_SCHEDULED);
    }
    var text := AppendLines(ops, config, "Schedule for " + name, ops.sortByDatetime(scheduled, config));
    return Ok(text);
  }

  /** `all_items`: every task of the project, by date. */
  method AllItems(remote: Remote, ops: ItemOps, config: Config, name: string)
    returns (r: Result<string>)
    modifies remote
    ensures name !in config.projects ==>
      r == Err(NotFound(name)) && remote.sent == old(remote.sent) && remote.replies == old(remote.replies)
    ensures name in config.projects ==>
      remote.sent == old(remote.sent) + [TodoistRequest(config.token, PROJECT_DATA_URL,
                                           ProjectData(DecimalString(config.projects[name])))]
      && remote.replies == LaterReplies(old(remote.replies))
      && var fetched := FetchedItems(ops, NextReply(old(remote.replies)));
         r == if fetched.Err? then Err(fetched.error)
              else Ok("Tasks for " + name + ItemLines(ops, config, ops.sortByDatetime(fetched.value, config)))
  {
    var id := ProjectId(config, name);
    if id.Err? {
      return Err(id.error);
    }
    var items := ItemsForProject(remote, ops, config, id.value);
    if items.Err? {
      return Err(items.error);
    }
    var text := AppendLines(ops, config, "Tasks for " + name, ops.sortByDatetime(items.value, config));
    return Ok(text);
  }
}
