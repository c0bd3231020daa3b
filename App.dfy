/** The desktop front end: a project list, a current project and a
    three-state fetch machine driven by clicks, key presses and the messages
    of a background completion task. */
module App {
  import opened Wrappers
  import opened Text
  import opened ConfigFile
  import opened Items
  import opened Request
  import opened Projects

  datatype State =
    | BeginFetch                       // a completion is about to start
    | Fetching                         // a completion task is at work
    | DoneFetch(text: Option<string>)  // show the result

  /** What the user did during one frame. */
  datatype Input = Input(completeClicked: bool, keyC: bool, hideClicked: bool, keyH: bool,
                         clickedTab: Option<string>)

  // ---------------------------------------------------------------------------
  // List helpers

  /** `get_first_project`: the head of the list, or "No projects found". */
  function GetFirstProject(projects: seq<string>): (r: string)
    ensures |projects| > 0 ==> r == projects[0]
    ensures projects == [] ==> r == NO_PROJECTS
  {
    if projects == [] then NO_PROJECTS else projects[0]
  }

  /** The filter in `hide`: every occurrence of `p` removed. */
  function Without(s: seq<string>, p: string): (r: seq<string>)
    ensures forall x :: x in r <==> x in s && x != p
    ensures |r| <= |s|
  {
    if s == [] then []
    else if s[0] == p then Without(s[1..], p)
    else [s[0]] + Without(s[1..], p)
  }

  /** Filtering distributes over concatenation, so the order of what remains
      is the order it had. */
  lemma {:induction false} WithoutAppend(a: seq<string>, b: seq<string>, p: string)
    ensures Without(a + b, p) == Without(a, p) + Without(b, p)
    decreases |a|
  {
    if a == [] {
      assert a + b == b;
    } else {
      assert (a + b)[0] == a[0];
      assert (a + b)[1..] == a[1..] + b;
      WithoutAppend(a[1..], b, p);
    }
  }

  /** Only the occurrences of `p` are dropped: every other name keeps its
      multiplicity. */
  lemma {:induction false} WithoutCounts(s: seq<string>, p: string)
    ensures multiset(Without(s, p)) == multiset(s)[p := 0]
    decreases |s|
  {
    if s != [] {
      WithoutCounts(s[1..], p);
      assert s == [s[0]] + s[1..];
      assert multiset(s) == multiset([s[0]]) + multiset(s[1..]);
    }
  }

  /** Hiding from a sorted list keeps it sorted. */
  lemma {:induction false} WithoutSorted(s: seq<string>, p: string)
    requires StrictlySorted(s)
    ensures StrictlySorted(Without(s, p))
    decreases |s|
  {
    if s != [] {
      assert StrictlySorted(s[1..]);
      WithoutSorted(s[1..], p);
      var rest := Without(s[1..], p);
      forall j | 0 <= j < |rest|
        ensures LexLess(s[0], rest[j])
      {
        assert rest[j] in s[1..];
      }
    }
  }

  /** Hiding a name that is not listed changes nothing. */
  lemma {:induction false} WithoutAbsent(s: seq<string>, p: string)
    requires p !in s
    ensures Without(s, p) == s
    decreases |s|
  {
    if s != [] {
      WithoutAbsent(s[1..], p);
      assert s == [s[0]] + s[1..];
    }
  }

  // ---------------------------------------------------------------------------
  // The free functions of the front end

  /** `get_or_create(None)` on the store `files`: the record at the default
      path, found, migrated, repaired or freshly prompted for. */
  function DefaultConfig(files: map<string, Entry>, readOnly: set<string>, env: Environment)
    : (map<string, Entry>, Result<Config>)
  {
    GetOrCreateOutcome(files, readOnly, None, env, GeneratePath(env))
  }

  /** The default record is in place at the default path and needs no repair. */
  ghost predicate Settled(files: map<string, Entry>, env: Environment, c: Config)
  {
    GeneratePath(env).Ok? && c.path == GeneratePath(env).value
    && c.path in files && files[c.path] == Stored(c)
  }

  /** Every record the default lookup hands out is left settled in the store. */
  lemma DefaultConfigSettles(files: map<string, Entry>, readOnly: set<string>, env: Environment)
    ensures var (after, loaded) := DefaultConfig(files, readOnly, env);
      loaded.Ok? ==> Settled(after, env, loaded.value)
  {
    AtTargetStoresResult(files, readOnly, None, env);
  }

  /** A settled record is what the default lookup returns, and nothing is
      written. */
  lemma SettledIsDefault(files: map<string, Entry>, readOnly: set<string>, env: Environment, c: Config)
    requires Settled(files, env, c)
    ensures DefaultConfig(files, readOnly, env) == (files, Ok(c))
  {
    SettledRecordLoads(files, readOnly, None, env, GeneratePath(env), c);
  }

  /** What `projects()` does to the store and returns: the registry's names in
      ascending order, or the error as the only entry. */
  ghost function ProjectNamesOutcome(files: map<string, Entry>, readOnly: set<string>, env: Environment)
    : (map<string, Entry>, seq<string>)
  {
    var (after, loaded) := DefaultConfig(files, readOnly, env);
    (after, if loaded.Ok? then SortedSet(loaded.value.projects.Keys) else [loaded.error])
  }

  /** With the default record in place, `projects()` writes nothing and lists
      exactly its registry keys, each once, ascending. */
  lemma ProjectNamesOfSettled(files: map<string, Entry>, readOnly: set<string>, env: Environment, c: Config)
    requires Settled(files, env, c)
    ensures var (after, names) := ProjectNamesOutcome(files, readOnly, env);
      after == files && StrictlySorted(names) && |names| == |c.projects|
      && forall x :: x in names <==> x in c.projects
  {
    SettledIsDefault(files, readOnly, env, c);
    var names := SortedSet(c.projects.Keys);
    assert |names| == |c.projects| by {
      var keys := names;
      assert forall i, j :: 0 <= i < j < |keys| ==> keys[i] != keys[j] by {
        forall i, j | 0 <= i < j < |keys| ensures keys[i] != keys[j] {
          LexIrreflexive(keys[i]);
        }
      }
      DistinctCount(keys, c.projects.Keys);
    }
  }

  /** A list without repeats of exactly the members of `ks` is as long as `ks`
      is large. */
  lemma {:induction false} DistinctCount(s: seq<string>, ks: set<string>)
    requires forall i, j :: 0 <= i < j < |s| ==> s[i] != s[j]
    requires forall x :: x in s <==> x in ks
    ensures |s| == |ks|
    decreases |s|
  {
    if s != [] {
      var last := s[|s| - 1];
      var rest := s[..|s| - 1];
      assert forall x :: x in rest <==> x in ks - {last} by {
        forall x ensures x in rest <==> x in ks - {last} {
          if x in rest {
            var i :| 0 <= i < |rest| && rest[i] == x;
            assert s[i] == x && i < |s| - 1;
          }
          if x in ks - {last} {
            assert x in s;
            var i :| 0 <= i < |s| && s[i] == x;
            assert i != |s| - 1;
            assert rest[i] == x;
          }
        }
      }
      DistinctCount(rest, ks - {last});
    } else {
      assert forall x :: x !in ks;
      assert ks == {};
    }
  }

  /** `projects()`: the sorted registry names, or the error as the only entry. */
  method ProjectNames(fs: FileSystem, env: Environment) returns (names: seq<string>)
    modifies fs`files
    ensures (fs.files, names) == ProjectNamesOutcome(old(fs.files), fs.readOnly, env)
  {
    var got := GetOrCreateAtTarget(fs, None, env);
    if got.Err? {
      return [got.error];
    }
    names := SortedKeys(got.value.projects);
  }

  /** What `get_next` does to `w` and returns: no text when the default record
      could not be had; otherwise the text of `next_item` for that record, and
      a panic when `next_item` fails. */
  function GetNextOutcome(w: World, readOnly: set<string>, ops: ItemOps, env: Environment, project: string)
    : (World, Run<Option<string>>)
  {
    var (files, loaded) := DefaultConfig(w.files, readOnly, env);
    if loaded.Err? then (w.(files := files), Done(None))
    else
      var (after, text) := NextItemEffect(w.(files := files), readOnly, ops, loaded.value, project);
      (after, if text.Ok? then Done(Some(text.value)) else Panic(text.error))
  }

  /** `get_next`. */
  method GetNext(fs: FileSystem, remote: Remote, ops: ItemOps, env: Environment, project: string)
    returns (r: Run<Option<string>>)
    modifies fs`files, remote
    ensures (World(fs.files, remote.sent, remote.replies), r)
            == GetNextOutcome(World(old(fs.files), old(remote.sent), old(remote.replies)), fs.readOnly, ops, env, project)
  {
    var got := GetOrCreateAtTarget(fs, None, env);
    if got.Err? {
      return Done(None);
    }
    var next := NextItem(fs, remote, ops, got.value, project);
    if next.Err? {
      return Panic(next.error);
    }
    r := Done(Some(next.value));
  }

  /** The state a completion task leaves behind: the world, how many UUIDs
      were drawn, and the messages it sent to the window. */
  datatype Completion = Completion(world: World, drawn: nat, messages: seq<Option<string>>)

  /** Asking twice for the next task of a project, with the service giving
      the same answer, shows the same text and leaves the same store: the
      second call reloads the record with its pointer set, and setting the
      pointer to the same task again writes nothing new. This holds when
      filtering, ranking and formatting ignore the pointer. */
  lemma GetNextIdempotent(w: World, readOnly: set<string>, ops: ItemOps, env: Environment, project: string)
    requires PointerBlind(ops)
    requires NextReply(LaterReplies(w.replies)) == NextReply(w.replies)
    ensures var (w1, r1) := GetNextOutcome(w, readOnly, ops, env, project);
      var (w2, r2) := GetNextOutcome(w1, readOnly, ops, env, project);
      r1.Done? && r1.value.Some? ==> r2 == r1 && w2.files == w1.files
  {
    var (files1, loaded) := DefaultConfig(w.files, readOnly, env);
    var (w1, r1) := GetNextOutcome(w, readOnly, ops, env, project);
    if loaded.Ok? && project in loaded.value.projects {
      var c := loaded.value;
      DefaultConfigSettles(w.files, readOnly, env);
      var o := NextReply(w.replies);
      var (after, text) := NextItemOutcome(files1, readOnly, ops, c, o);
      assert w1.files == after && w1.replies == LaterReplies(w.replies);
      if text.Ok? {
        if after == files1 {
          SettledIsDefault(after, readOnly, env, c);
        } else {
          var items := FetchedItems(ops, o).value;
          var ranked := Ranked(ops, items, c).value;
          var c2 := SetNextId(c, ranked[0].id);
          assert after == files1[c.path := Stored(c2)];
          assert Settled(after, env, c2);
          SettledIsDefault(after, readOnly, env, c2);
          assert Ranked(ops, items, c2) == Ranked(ops, items, c);
          assert ops.fmt(ranked[0], c2) == ops.fmt(ranked[0], c);
          PointerOverwritten(c, ranked[0].id, ranked[0].id);
          OverwriteTwice(files1, c.path, Stored(c2), Stored(c2));
          assert NextItemOutcome(after, readOnly, ops, c2, o) == (after, text);
        }
      }
    }
  }

  /** What `complete` does: with no default record, the message `None`;
      otherwise one close request for the record's pointer, and, once the close
      succeeded, the message `get_next` gives. A failing close or `get_next`
      panics, so no message is sent. */
  function CompleteOutcome(w: World, readOnly: set<string>, uuids: nat -> string, drawn: nat,
                           ops: ItemOps, env: Environment, project: string): (c: Completion)
    ensures |c.messages| <= 1
  {
    var (files, loaded) := DefaultConfig(w.files, readOnly, env);
    if loaded.Err? then Completion(w.(files := files), drawn, [None])
    else
      var (closedWorld, closed) :=
        CompleteItemOutcome(w.(files := files), readOnly, uuids(drawn), uuids(drawn + 1), loaded.value);
      if closed.Err? then Completion(closedWorld, drawn + 2, [])
      else
        var (after, next) := GetNextOutcome(closedWorld, readOnly, ops, env, project);
        Completion(after, drawn + 2, if next.Done? then [next.value] else [])
  }

  /** `complete`, the body of the background task. */
  method Complete(fs: FileSystem, remote: Remote, uuids: UuidSource, ops: ItemOps,
                  env: Environment, project: string)
    returns (messages: seq<Option<string>>)
    modifies fs`files, remote, uuids
    ensures Completion(World(fs.files, remote.sent, remote.replies), uuids.drawn, messages)
            == CompleteOutcome(World(old(fs.files), old(remote.sent), old(remote.replies)), fs.readOnly,
                               uuids.values, old(uuids.drawn), ops, env, project)
  {
    var got := GetOrCreateAtTarget(fs, None, env);
    if got.Err? {
      return [None];
    }
    var closed := CompleteItem(fs, remote, uuids, got.value);
    if closed.Err? {
      return [];
    }
    var next := GetNext(fs, remote, ops, env, project);
    if next.Panic? {
      return [];
    }
    messages := [next.value];
  }

  /** With no default record to be had, `complete` sends `None` and nothing
      goes to the service. */
  lemma CompleteWithoutConfig(w: World, readOnly: set<string>, uuids: nat -> string, drawn: nat,
                              ops: ItemOps, env: Environment, project: string)
    requires DefaultConfig(w.files, readOnly, env).1.Err?
    ensures var c := CompleteOutcome(w, readOnly, uuids, drawn, ops, env, project);
      c.messages == [None] && c.world.sent == w.sent && c.world.replies == w.replies && c.drawn == drawn
  {
  }

  /** Whatever happens, the first thing `complete` sends is the close request
      for the pointer of the default record. */
  lemma CompleteClosesPointer(w: World, readOnly: set<string>, uuids: nat -> string, drawn: nat,
                              ops: ItemOps, env: Environment, project: string)
    requires DefaultConfig(w.files, readOnly, env).1.Ok?
    ensures var c := CompleteOutcome(w, readOnly, uuids, drawn, ops, env, project);
      var loaded := DefaultConfig(w.files, readOnly, env).1.value;
      c.drawn == drawn + 2 && |w.sent| < |c.world.sent| && c.world.sent[..|w.sent|] == w.sent
      && c.world.sent[|w.sent|]
         == TodoistRequest(loaded.token, SYNC_URL, CloseBody(uuids(drawn), uuids(drawn + 1), loaded.nextId))
  {
    var (files, loaded) := DefaultConfig(w.files, readOnly, env);
    var (closedWorld, closed) :=
      CompleteItemOutcome(w.(files := files), readOnly, uuids(drawn), uuids(drawn + 1), loaded.value);
    assert closedWorld.sent == w.sent + [TodoistRequest(loaded.value.token, SYNC_URL,
                                         CloseBody(uuids(drawn), uuids(drawn + 1), loaded.value.nextId))];
    if closed.Ok? {
      var (after, next) := GetNextOutcome(closedWorld, readOnly, ops, env, project);
      assert after.sent[..|closedWorld.sent|] == closedWorld.sent;
      assert after.sent[..|w.sent|] == closedWorld.sent[..|w.sent|];
    }
  }

  /** A close the service does not accept sends no message and leaves the
      default record, pointer included, stored as it was. */
  lemma CompleteFailureKeepsPointer(w: World, readOnly: set<string>, uuids: nat -> string, drawn: nat,
                                    ops: ItemOps, env: Environment, project: string)
    requires DefaultConfig(w.files, readOnly, env).1.Ok?
    requires ResponseResult(NextReply(w.replies)).Err?
    ensures var c := CompleteOutcome(w, readOnly, uuids, drawn, ops, env, project);
      var (files, loaded) := DefaultConfig(w.files, readOnly, env);
      c.messages == [] && c.world.files == files && Settled(c.world.files, env, loaded.value)
      && c.world.replies == LaterReplies(w.replies)
  {
    DefaultConfigSettles(w.files, readOnly, env);
  }

  /** A close the service accepts clears the pointer and saves the record
      before anything else happens; the one message is then the text
      `next_item` gives for the cleared record, or there is none when
      `next_item` fails. */
  lemma CompleteSuccessClearsPointer(w: World, readOnly: set<string>, uuids: nat -> string, drawn: nat,
                                     ops: ItemOps, env: Environment, project: string)
    requires DefaultConfig(w.files, readOnly, env).1.Ok?
    requires ResponseResult(NextReply(w.replies)).Ok?
    ensures var c := CompleteOutcome(w, readOnly, uuids, drawn, ops, env, project);
      var (files, loaded) := DefaultConfig(w.files, readOnly, env);
      var cleared := ClearNextId(loaded.value);
      if loaded.value.path in readOnly then c.messages == [] && c.world.files == files
      else
        var closedWorld := World(files[cleared.path := Stored(cleared)], c.world.sent[..|w.sent| + 1],
                                 LaterReplies(w.replies));
        var (after, text) := NextItemEffect(closedWorld, readOnly, ops, cleared, project);
        c.world == after && c.messages == (if text.Ok? then [Some(text.value)] else [])
  {
    var (files, loaded) := DefaultConfig(w.files, readOnly, env);
    DefaultConfigSettles(w.files, readOnly, env);
    var cleared := ClearNextId(loaded.value);
    if loaded.value.path !in readOnly {
      var (closedWorld, closed) :=
        CompleteItemOutcome(w.(files := files), readOnly, uuids(drawn), uuids(drawn + 1), loaded.value);
      assert closedWorld.files == files[cleared.path := Stored(cleared)];
      SettledIsDefault(closedWorld.files, readOnly, env, cleared);
      var (after, next) := GetNextOutcome(closedWorld, readOnly, ops, env, project);
      assert after.sent[..|w.sent| + 1] == closedWorld.sent;
    }
  }

  /** A completion whose close fails leaves the pointer in place, so the next
      attempt closes the same task again, with the next two draws. */
  lemma RetryClosesSameTask(w: World, readOnly: set<string>, uuids: nat -> string, drawn: nat,
                            ops: ItemOps, env: Environment, project: string, c: Config)
    requires Settled(w.files, env, c)
    requires ResponseResult(NextReply(w.replies)).Err?
    ensures var first := CompleteOutcome(w, readOnly, uuids, drawn, ops, env, project);
      var second := CompleteOutcome(first.world, readOnly, uuids, first.drawn, ops, env, project);
      first.messages == [] && first.drawn == drawn + 2
      && second.world.sent[|w.sent|] == TodoistRequest(c.token, SYNC_URL, CloseBody(uuids(drawn), uuids(drawn + 1), c.nextId))
      && second.world.sent[|w.sent| + 1]
         == TodoistRequest(c.token, SYNC_URL, CloseBody(uuids(drawn + 2), uuids(drawn + 3), c.nextId))
  {
    SettledIsDefault(w.files, readOnly, env, c);
    CompleteFailureKeepsPointer(w, readOnly, uuids, drawn, ops, env, project);
    CompleteClosesPointer(w, readOnly, uuids, drawn, ops, env, project);
    var first := CompleteOutcome(w, readOnly, uuids, drawn, ops, env, project);
    SettledIsDefault(first.world.files, readOnly, env, c);
    CompleteClosesPointer(first.world, readOnly, uuids, first.drawn, ops, env, project);
    var second := CompleteOutcome(first.world, readOnly, uuids, first.drawn, ops, env, project);
    assert second.world.sent[..|first.world.sent|] == first.world.sent;
    assert second.world.sent[|w.sent|] == first.world.sent[|w.sent|];
  }

  // ---------------------------------------------------------------------------
  // The window

  class MyApp {
    var projects: seq<string>
    var project: string
    var state: State
    /** Messages of completion tasks not yet received by the window. */
    var inbox: seq<Option<string>>
    const fs: FileSystem
    const remote: Remote
    const uuids: UuidSource
    const ops: ItemOps
    const env: Environment

    constructor (fs: FileSystem, remote: Remote, uuids: UuidSource, ops: ItemOps, env: Environment,
                 projects: seq<string>, project: string, text: Option<string>)
      ensures this.fs == fs && this.remote == remote && this.uuids == uuids
      ensures this.ops == ops && this.env == env
      ensures this.projects == projects && this.project == project
      ensures state == DoneFetch(text) && inbox == []
    {
      this.fs := fs;
      this.remote := remote;
      this.uuids := uuids;
      this.ops := ops;
      this.env := env;
      this.projects := projects;
      this.project := project;
      this.state := DoneFetch(text);
      this.inbox := [];
    }

    /** `hide`: drop `p` from the tabs, switch to the first remaining project
        and show its next task. */
    method Hide(p: string) returns (r: Run<()>)
      modifies this, fs`files, remote
      ensures projects == Without(old(projects), p)
      ensures project == GetFirstProject(projects)
      ensures inbox == old(inbox)
      ensures var (w, next) := GetNextOutcome(World(old(fs.files), old(remote.sent), old(remote.replies)),
                                              fs.readOnly, ops, env, project);
        World(fs.files, remote.sent, remote.replies) == w
        && (next.Done? ==> r.Done? && state == DoneFetch(next.value))
        && (next.Panic? ==> r == Panic(next.message) && state == old(state))
    {
      var remaining := Without(projects, p);
      var first := GetFirstProject(remaining);
      projects := remaining;
      project := first;
      var next := GetNext(fs, remote, ops, env, first);
      if next.Panic? {
        return Panic(next.message);
      }
      state := DoneFetch(next.value);
      return Done(());
    }

    /** Lines 77-114: one frame of the fetch machine. */
    method Step(input: Input) returns (r: Run<()>)
      modifies this, fs`files, remote, uuids
      ensures old(state).BeginFetch? ==>
        var c := CompleteOutcome(World(old(fs.files), old(remote.sent), old(remote.replies)), fs.readOnly,
                                 uuids.values, old(uuids.drawn), ops, env, old(project));
        r.Done? && state == Fetching && projects == old(projects) && project == old(project)
        && World(fs.files, remote.sent, remote.replies) == c.world && uuids.drawn == c.drawn
        && inbox == old(inbox) + c.messages
      ensures old(state).Fetching? ==>
        r.Done? && projects == old(projects) && project == old(project)
        && fs.files == old(fs.files) && remote.sent == old(remote.sent) && remote.replies == old(remote.replies)
        && uuids.drawn == old(uuids.drawn)
      ensures old(state).Fetching? && old(inbox) == [] ==> state == Fetching && inbox == []
      ensures old(state).Fetching? && old(inbox) != [] ==>
        state == DoneFetch(old(inbox)[0]) && inbox == old(inbox)[1..]
      ensures old(state).DoneFetch? && !input.hideClicked && !input.keyH ==>
        r.Done? && projects == old(projects) && project == old(project) && inbox == old(inbox)
        && fs.files == old(fs.files) && remote.sent == old(remote.sent) && remote.replies == old(remote.replies)
        && uuids.drawn == old(uuids.drawn)
        && state == if old(state).text.Some? && (input.completeClicked || input.keyC) then BeginFetch else old(state)
      ensures old(state) == DoneFetch(None) ==> !state.BeginFetch?
      ensures old(state).DoneFetch? ==> inbox == old(inbox) && uuids.drawn == old(uuids.drawn)
      ensures old(state).DoneFetch? && input.hideClicked != input.keyH ==>
        projects == Without(old(projects), old(project)) && project == GetFirstProject(projects)
        && var (w, next) := GetNextOutcome(World(old(fs.files), old(remote.sent), old(remote.replies)),
                                           fs.readOnly, ops, env, project);
           World(fs.files, remote.sent, remote.replies) == w
           && (next.Done? ==> r.Done? && state == DoneFetch(next.value))
           && (next.Panic? ==> r == Panic(next.message))
      ensures old(state).DoneFetch? && input.hideClicked && input.keyH ==>
        var once := Without(old(projects), old(project));
        var first := GetFirstProject(once);
        var (w1, next1) := GetNextOutcome(World(old(fs.files), old(remote.sent), old(remote.replies)),
                                          fs.readOnly, ops, env, first);
        (next1.Panic? ==>
           r == Panic(next1.message) && projects == once && project == first
           && World(fs.files, remote.sent, remote.replies) == w1)
        && (next1.Done? ==>
              var twice := Without(once, first);
              var second := GetFirstProject(twice);
              var (w2, next2) := GetNextOutcome(w1, fs.readOnly, ops, env, second);
              projects == twice && project == second && World(fs.files, remote.sent, remote.replies) == w2
              && (next2.Done? ==> r.Done? && state == DoneFetch(next2.value))
              && (next2.Panic? ==> r == Panic(next2.message)))
    {
      match state
      case BeginFetch =>
        var messages := Complete(fs, remote, uuids, ops, env, project);
        inbox := inbox + messages;
        state := Fetching;
        return Done(());
      case Fetching =>
        if inbox != [] {
          state := DoneFetch(inbox[0]);
          inbox := inbox[1..];
        }
        return Done(());
      case DoneFetch(text) =>
        if text.Some? {
          if input.completeClicked {
            state := BeginFetch;
          }
          if input.keyC {
            state := BeginFetch;
          }
        }
        if input.hideClicked {
          var hidden := Hide(project);
          if hidden.Panic? {
            return hidden;
          }
        }
        if input.keyH {
          var hidden := Hide(project);
          if hidden.Panic? {
            return hidden;
          }
        }
        return Done(());
    }

    /** Lines 118-133: the tab row. The current project's tab is disabled; a
        click on another tab switches to that project and shows its next task. */
    method Tabs(clicked: Option<string>) returns (r: Run<()>)
      modifies this, fs`files, remote
      ensures projects == old(projects) && inbox == old(inbox)
      ensures clicked.None? || clicked.value == old(project) || clicked.value !in old(projects) ==>
        r.Done? && project == old(project) && state == old(state)
        && fs.files == old(fs.files) && remote.sent == old(remote.sent) && remote.replies == old(remote.replies)
      ensures clicked.Some? && clicked.value != old(project) && clicked.value in old(projects) ==>
        project == clicked.value
        && var (w, next) := GetNextOutcome(World(old(fs.files), old(remote.sent), old(remote.replies)),
                                           fs.readOnly, ops, env, clicked.value);
           World(fs.files, remote.sent, remote.replies) == w
           && (next.Done? ==> r.Done? && state == DoneFetch(next.value))
           && (next.Panic? ==> r == Panic(next.message))
    {
      r := Done(());
      ghost var before := World(fs.files, remote.sent, remote.replies);
      for i := 0 to |projects|
        invariant projects == old(projects) && inbox == old(inbox) && r.Done?
        invariant clicked.None? || clicked.value == old(project) || clicked.value !in old(projects[..i]) ==>
          project == old(project) && state == old(state) && World(fs.files, remote.sent, remote.replies) == before
        invariant clicked.Some? && clicked.value != old(project) && clicked.value in old(projects[..i]) ==>
          project == clicked.value && state.DoneFetch?
          && GetNextOutcome(before, fs.readOnly, ops, env, clicked.value)
             == (World(fs.files, remote.sent, remote.replies), Done(state.text))
      {
        assert projects[..i + 1] == projects[..i] + [projects[i]];
        if projects[i] == project {
          // the disabled tab of the current project
        } else if clicked == Some(projects[i]) {
          project := projects[i];
          var next := GetNext(fs, remote, ops, env, project);
          if next.Panic? {
            return Panic(next.message);
          }
          state := DoneFetch(next.value);
        }
      }
      assert projects[..|projects|] == projects;
    }

    /** `update`: the fetch machine, then the tab row. */
    method Update(input: Input) returns (r: Run<()>)
      modifies this, fs`files, remote, uuids
      ensures old(state).Fetching? && old(inbox) == [] && input.clickedTab.None? ==>
        r.Done? && state == Fetching && project == old(project) && projects == old(projects)
    {
      r := Step(input);
      if r.Panic? {
        return r;
      }
      r := Tabs(input.clickedTab);
    }
  }

  /** `MyApp::default`: load the names, select the first and show its next
      task. */
  method Launch(fs: FileSystem, remote: Remote, uuids: UuidSource, ops: ItemOps, env: Environment)
    returns (r: Run<MyApp>)
    modifies fs`files, remote
    ensures var (files, names) := ProjectNamesOutcome(old(fs.files), fs.readOnly, env);
      var (w, next) := GetNextOutcome(World(files, old(remote.sent), old(remote.replies)),
                                      fs.readOnly, ops, env, GetFirstProject(names));
      World(fs.files, remote.sent, remote.replies) == w
      && (next.Panic? ==> r == Panic(next.message))
      && (next.Done? ==>
            r.Done? && fresh(r.value) && r.value.fs == fs && r.value.remote == remote && r.value.uuids == uuids
            && r.value.ops == ops && r.value.env == env
            && r.value.projects == names && r.value.project == GetFirstProject(names)
            && r.value.state == DoneFetch(next.value) && r.value.inbox == [])
  {
    var names := ProjectNames(fs, env);
    var first := GetFirstProject(names);
    var next := GetNext(fs, remote, ops, env, first);
    if next.Panic? {
      return Panic(next.message);
    }
    var app := new MyApp(fs, remote, uuids, ops, env, names, first, next.value);
    return Done(app);
  }
}
