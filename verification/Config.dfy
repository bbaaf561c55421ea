/** Configuration in layers: files, directories of files, and environment variables are read one
    after the other into one store of options. */
module Config {
  import opened CStrings

  type Key = (CString, CString)

  /** An option that was given as empty has no value, but is there. */
  type Store = map<Key, Option<CString>>

  datatype Entry = Entry(section: CString, name: CString, value: CString)

  type Positive = x: int | x > 0 witness 1

  /** What reading a file comes to: the entries in order, the line of a parse error, or an errno. */
  datatype File = Parsed(entries: seq<Entry>) | Malformed(line: Positive) | Unreadable(errno: Positive)

  /** The files are those whose names end in ".conf", in alphabetical order. */
  datatype Directory = Absent | Unscannable(errno: Positive) | Files(files: seq<File>)

  datatype Environment = Environment(level: Option<CString>, target: Option<CString>, quiet: Option<CString>)

  datatype Sources = Sources(
    default: Option<File>, custom: Option<File>, directory: Option<Directory>,
    environment: Environment, cli: Option<File>)

  /** A negative code is an errno, a positive one the line of a parse error. */
  datatype Loaded = Loaded(code: int, store: Store)

  const ENOENT := 2
  const EINVAL := 22

  // ---------------------------------------------------------------- one file

  function Value(store: Store, key: Key): Option<CString> {
    if key in store then store[key] else None
  }

  function Normal(value: CString): Option<CString> {
    if value == [] then None else Some(value)
  }

  /** A value that is there already is continued. */
  function Handled(store: Store, e: Entry): Store {
    var key, existing := (e.section, e.name), Value(store, (e.section, e.name));
    store[key := if existing.Some? then Normal(existing.value + e.value) else Normal(e.value)]
  }

  function FileStore(entries: seq<Entry>): Store {
    if entries == [] then map[] else Handled(FileStore(entries[..|entries| - 1]), entries[|entries| - 1])
  }

  /** All that a file says about an option, put together. */
  function Concatenated(entries: seq<Entry>, key: Key): CString {
    if entries == [] then []
    else
      var last := entries[|entries| - 1];
      Concatenated(entries[..|entries| - 1], key) + if (last.section, last.name) == key then last.value else []
  }

  predicate Mentions(entries: seq<Entry>, key: Key) {
    exists i :: 0 <= i < |entries| && (entries[i].section, entries[i].name) == key
  }

  /** The value of an option in a file is the concatenation of all its occurrences in order, and
      none if that is empty. */
  lemma {:induction false} FileValue(entries: seq<Entry>, key: Key)
    ensures key in FileStore(entries) <==> Mentions(entries, key)
    ensures Mentions(entries, key) ==> FileStore(entries)[key] == Normal(Concatenated(entries, key))
    ensures !Mentions(entries, key) ==> Concatenated(entries, key) == []
  {
    if entries != [] {
      var front, last := entries[..|entries| - 1], entries[|entries| - 1];
      FileValue(front, key);
      assert entries == front + [last];
      if (last.section, last.name) == key {
        assert entries[|entries| - 1] == last;
        assert [] + last.value == last.value;
      } else {
        assert Concatenated(front, key) + [] == Concatenated(front, key);
        assert Mentions(entries, key) <==> Mentions(front, key) by {
          if Mentions(front, key) {
            var i :| 0 <= i < |front| && (front[i].section, front[i].name) == key;
            assert entries[i] == front[i];
          }
        }
      }
    }
  }

  // ---------------------------------------------------------------- layers

  function FromFile(store: Store, f: File): Loaded {
    match f
    case Parsed(entries) => Loaded(0, store + FileStore(entries))
    case Malformed(line) => Loaded(line, store)
    case Unreadable(errno) => Loaded(-(errno as int), store)
  }

  /** From file `i` on, `code` being that of the file before: an unreadable file ends the loop. */
  function FromFiles(store: Store, files: seq<File>, i: nat, code: int): Loaded
    requires i <= |files|
    decreases |files| - i
  {
    if i == |files| then Loaded(code, store)
    else
      var one := FromFile(store, files[i]);
      if one.code < 0 then one else FromFiles(one.store, files, i + 1, one.code)
  }

  function FromDirectory(store: Store, d: Directory): Loaded {
    match d
    case Absent => Loaded(0, store)
    case Unscannable(errno) => Loaded(-(errno as int), store)
    case Files(files) => FromFiles(store, files, 0, 0)
  }

  function Variable(section: CString, name: CString, value: Option<CString>): Store {
    if value.Some? && value.value != [] then map[(section, name) := value] else map[]
  }

  const LOG_LEVEL: CString := Ascii("LogLevel")
  const LOG_TARGET: CString := Ascii("LogTarget")
  const LOG_IS_QUIET: CString := Ascii("LogIsQuiet")

  function EnvironmentStore(section: CString, env: Environment): Store {
    Variable(section, LOG_LEVEL, env.level) + Variable(section, LOG_TARGET, env.target)
    + Variable(section, LOG_IS_QUIET, env.quiet)
  }

  /** Each variable sets the option of its own, if it is there and not empty. */
  lemma EnvironmentSets(section: CString, env: Environment, key: Key)
    ensures var given := if key == (section, Ascii("LogLevel")) then env.level
                         else if key == (section, Ascii("LogTarget")) then env.target
                         else if key == (section, Ascii("LogIsQuiet")) then env.quiet
                         else None;
      && (key in EnvironmentStore(section, env) <==> given.Some? && given.value != [])
      && (key in EnvironmentStore(section, env) ==> EnvironmentStore(section, env)[key] == given)
  {
    assert |LOG_LEVEL| < |LOG_TARGET| < |LOG_IS_QUIET|;
  }

  /** cfg_load_complete_configuration; `code` is what the function returns. */
  function LoadedAll(store: Store, section: CString, s: Sources): Loaded {
    var one := if s.default.None? then Loaded(0, store) else FromFile(store, s.default.value);
    if one.code != 0 then Loaded(if one.code < 0 then one.code else -EINVAL, one.store)
    else
      var two := if s.custom.None? then Loaded(0, one.store) else FromFile(one.store, s.custom.value);
      if two.code != 0 && two.code != -ENOENT then Loaded(if two.code < 0 then two.code else -EINVAL, two.store)
      else
        var three := if s.directory.None? then Loaded(0, two.store) else FromDirectory(two.store, s.directory.value);
        if three.code != 0 then Loaded(if three.code < 0 then three.code else -EINVAL, three.store)
        else
          var four := three.store + EnvironmentStore(section, s.environment);
          var five := if s.cli.None? then Loaded(0, four) else FromFile(four, s.cli.value);
          Loaded(if five.code <= 0 then five.code else -EINVAL, five.store)
  }

  // ---------------------------------------------------------------- the last layer wins

  /** What a file contributes: nothing, unless all of it could be parsed. */
  function Layer(f: File): Store {
    if f.Parsed? then FileStore(f.entries) else map[]
  }

  function LayerOf(f: Option<File>): Store {
    if f.Some? then Layer(f.value) else map[]
  }

  function DirectoryLayers(d: Option<Directory>): seq<Store> {
    if d.Some? && d.value.Files? then seq(|d.value.files|, i requires 0 <= i < |d.value.files| => Layer(d.value.files[i]))
    else []
  }

  /** The layers in the order in which they are to override each other. */
  function Layers(section: CString, s: Sources): seq<Store> {
    [LayerOf(s.default), LayerOf(s.custom)] + DirectoryLayers(s.directory)
    + [EnvironmentStore(section, s.environment), LayerOf(s.cli)]
  }

  function Setting(store: Store, key: Key): Option<Option<CString>> {
    if key in store then Some(store[key]) else None
  }

  /** The setting of the last layer that has one; that of `base` if none has. */
  function LastSetting(base: Store, layers: seq<Store>, key: Key): Option<Option<CString>> {
    if layers == [] then Setting(base, key)
    else if key in layers[|layers| - 1] then Setting(layers[|layers| - 1], key)
    else LastSetting(base, layers[..|layers| - 1], key)
  }

  function Merged(base: Store, layers: seq<Store>): Store {
    if layers == [] then base else Merged(base, layers[..|layers| - 1]) + layers[|layers| - 1]
  }

  lemma {:induction false} MergedIsLast(base: Store, layers: seq<Store>, key: Key)
    ensures LastSetting(base, layers, key) == Setting(Merged(base, layers), key)
  {
    if layers != [] {
      MergedIsLast(base, layers[..|layers| - 1], key);
    }
  }

  lemma {:induction false} MergedTwice(base: Store, one: seq<Store>, two: seq<Store>)
    ensures Merged(base, one + two) == Merged(Merged(base, one), two)
  {
    if two == [] {
      assert one + two == one;
    } else {
      MergedTwice(base, one, two[..|two| - 1]);
      assert (one + two)[..|one + two| - 1] == one + two[..|two| - 1];
    }
  }

  predicate Readable(f: File) {
    !f.Unreadable?
  }

  lemma {:induction false} FilesMerged(store: Store, files: seq<File>, i: nat, code: int)
    requires i <= |files|
    ensures var r := FromFiles(store, files, i, code);
      && (forall k :: i <= k < |files| ==> Readable(files[k])) ==>
           r.code == (if i == |files| then code else FromFile(map[], files[|files| - 1]).code)
           && r.store == Merged(store, DirectoryLayers(Some(Files(files)))[i..])
    ensures (exists k :: i <= k < |files| && !Readable(files[k])) ==> FromFiles(store, files, i, code).code < 0
    decreases |files| - i
  {
    var layers := DirectoryLayers(Some(Files(files)));
    if i < |files| && Readable(files[i]) {
      var one := FromFile(store, files[i]);
      FilesMerged(one.store, files, i + 1, one.code);
      MergedTwice(store, [layers[i]], layers[i + 1..]);
      assert [layers[i]] + layers[i + 1..] == layers[i..];
      assert Merged(store, [layers[i]]) == store + layers[i] == one.store;
    }
  }

  /** When a complete load succeeds.  Of a directory only its last file has to parse. */
  predicate Acceptable(s: Sources) {
    && (s.default.Some? ==> s.default.value.Parsed?)
    && (s.custom.Some? ==> s.custom.value.Parsed? || s.custom.value == Unreadable(ENOENT))
    && (s.directory.Some? ==> DirectoryAcceptable(s.directory.value))
    && (s.cli.Some? ==> s.cli.value.Parsed?)
  }

  predicate DirectoryAcceptable(d: Directory) {
    match d
    case Absent => true
    case Unscannable(_) => false
    case Files(files) =>
      (forall k :: 0 <= k < |files| ==> Readable(files[k])) && (files != [] ==> files[|files| - 1].Parsed?)
  }

  /** A complete load: when it succeeds, and what the options are then. */
  lemma LastLayerWins(store: Store, section: CString, s: Sources, key: Key)
    ensures LoadedAll(store, section, s).code == 0 <==> Acceptable(s)
    ensures Acceptable(s) ==>
      LastSetting(store, Layers(section, s), key) == Setting(LoadedAll(store, section, s).store, key)
  {
    LoadOutcome(store, section, s);
    MergedIsLast(store, Layers(section, s), key);
  }

  lemma DirectoryOutcome(store: Store, d: Directory)
    ensures FromDirectory(store, d).code == 0 <==> DirectoryAcceptable(d)
    ensures DirectoryAcceptable(d) ==> FromDirectory(store, d).store == Merged(store, DirectoryLayers(Some(d)))
  {
    if d.Files? {
      FilesMerged(store, d.files, 0, 0);
      assert DirectoryLayers(Some(d))[0..] == DirectoryLayers(Some(d));
    }
  }

  lemma LayersMerged(store: Store, section: CString, s: Sources)
    ensures Merged(store, Layers(section, s))
            == Merged(store + LayerOf(s.default) + LayerOf(s.custom), DirectoryLayers(s.directory))
               + EnvironmentStore(section, s.environment) + LayerOf(s.cli)
  {
    var early := [LayerOf(s.default), LayerOf(s.custom)];
    var late := [EnvironmentStore(section, s.environment), LayerOf(s.cli)];
    assert Layers(section, s) == (early + DirectoryLayers(s.directory)) + late;
    MergedTwice(store, early + DirectoryLayers(s.directory), late);
    MergedTwice(store, early, DirectoryLayers(s.directory));
    MergedPair(store, early[0], early[1]);
    MergedPair(Merged(store, early + DirectoryLayers(s.directory)), late[0], late[1]);
  }

  lemma MergedPair(base: Store, a: Store, b: Store)
    ensures Merged(base, [a, b]) == base + a + b
  {
    assert [a, b][..1] == [a];
    assert [a][..0] == [];
    assert Merged(base, [a]) == base + a;
  }

  /** One optional file: it is all right, or the load ends with an error. */
  lemma FileStage(store: Store, f: Option<File>)
    ensures var r := if f.None? then Loaded(0, store) else FromFile(store, f.value);
      && (r.code == 0 <==> f.Some? ==> f.value.Parsed?)
      && (r.code == -ENOENT <==> f == Some(Unreadable(ENOENT)))
      && r.store == store + LayerOf(f)
  {
    assert store + map[] == store;
  }

  lemma LoadOutcome(store: Store, section: CString, s: Sources)
    ensures LoadedAll(store, section, s).code == 0 <==> Acceptable(s)
    ensures Acceptable(s) ==> LoadedAll(store, section, s).store == Merged(store, Layers(section, s))
  {
    var one := store + LayerOf(s.default);
    FileStage(store, s.default);
    var two := one + LayerOf(s.custom);
    FileStage(one, s.custom);
    var three := if s.directory.None? then Loaded(0, two) else FromDirectory(two, s.directory.value);
    assert (three.code == 0 <==> s.directory.Some? ==> DirectoryAcceptable(s.directory.value))
        && (three.code == 0 ==> three.store == Merged(two, DirectoryLayers(s.directory))) by {
      if s.directory.Some? {
        DirectoryOutcome(two, s.directory.value);
      }
    }
    FileStage(three.store + EnvironmentStore(section, s.environment), s.cli);
    LayersMerged(store, section, s);
  }

  /** A file in the directory that cannot be parsed and is not the last one is passed over in
      silence: this is exactly when a load succeeds although one of its files was rejected. */
  lemma RejectedFileUnnoticed(store: Store, section: CString, s: Sources)
    requires s.directory.Some? && s.directory.value.Files?
    ensures var files := s.directory.value.files;
      && (LoadedAll(store, section, s).code == 0 && (exists k :: 0 <= k < |files| && files[k].Malformed?) <==>
            Acceptable(s) && exists k :: 0 <= k < |files| - 1 && files[k].Malformed?)
      && forall k :: 0 <= k < |files| && files[k].Malformed? ==> DirectoryLayers(s.directory)[k] == map[]
  {
    LoadOutcome(store, section, s);
  }

  lemma RejectedFileExample(entry: Entry)
    ensures var s := Sources(None, None, Some(Files([Malformed(1), Parsed([entry])])),
                             Environment(None, None, None), None);
      LoadedAll(map[], [], s).code == 0
  {
    LoadOutcome(map[], [], Sources(None, None, Some(Files([Malformed(1), Parsed([entry])])),
                                   Environment(None, None, None), None));
  }

  // ---------------------------------------------------------------- the code

  predicate NormalStore(store: Store) {
    forall key :: key in store ==> store[key] != Some([])
  }

  lemma {:induction false} FileStoreNormal(entries: seq<Entry>)
    ensures NormalStore(FileStore(entries))
  {
    if entries != [] {
      FileStoreNormal(entries[..|entries| - 1]);
    }
  }

  class Configuration {
    var store: Store
    var section: CString

    constructor ()
      ensures store == map[] && section == []
    {
      store, section := map[], [];
    }

    /** cfg_s_set_value */
    method SetValue(section: CString, name: CString, value: Option<CString>)
      modifies `store
      ensures store == old(store)[(section, name) := if value == Some([]) then None else value]
    {
      var copy := None;
      if value.Some? && |value.value| > 0 {
        copy := value;
      }
      store := store[(section, name) := copy];
    }

    /** parsing_handler, with strcat_dup */
    method Handle(e: Entry)
      modifies `store
      ensures store == Handled(old(store), e)
    {
      var existing := if (e.section, e.name) in store then store[(e.section, e.name)] else None;
      if existing.Some? {
        SetValue(e.section, e.name, Some(existing.value + e.value));
      } else {
        SetValue(e.section, e.name, Some(e.value));
      }
    }

    /** cfg_copy_overwrite: the options come in whatever order the table has them. */
    method CopyOverwrite(src: Configuration)
      requires NormalStore(src.store) && src != this
      modifies `store
      ensures store == old(store) + src.store
    {
      var left := src.store.Keys;
      while left != {}
        invariant left <= src.store.Keys
        invariant store == old(store) + (src.store - left)
        decreases left
      {
        var key :| key in left;
        SetValue(key.0, key.1, src.store[key]);
        assert src.store - (left - {key}) == (src.store - left)[key := src.store[key]];
        left := left - {key};
      }
      assert src.store - {} == src.store;
    }

    /** cfg_load_from_file: entries go to a store of their own until all of them are parsed. */
    method LoadFromFile(f: File) returns (code: int)
      modifies `store
      ensures Loaded(code, store) == FromFile(old(store), f)
    {
      if f.Unreadable? {
        return -(f.errno as int);
      }
      var tmp := new Configuration();
      if f.Malformed? {
        return f.line;
      }
      var i := 0;
      while i < |f.entries|
        modifies tmp
        invariant i <= |f.entries| && tmp.store == FileStore(f.entries[..i])
      {
        assert f.entries[..i + 1][..i] == f.entries[..i];
        tmp.Handle(f.entries[i]);
        i := i + 1;
      }
      assert f.entries[..|f.entries|] == f.entries;
      FileStoreNormal(f.entries);
      CopyOverwrite(tmp);
      return 0;
    }

    /** cfg_load_from_dir */
    method LoadFromDirectory(d: Directory) returns (code: int)
      modifies `store
      ensures Loaded(code, store) == FromDirectory(old(store), d)
    {
      if d.Absent? {
        return 0;
      }
      if d.Unscannable? {
        return -(d.errno as int);
      }
      code := 0;
      var i := 0;
      while i < |d.files|
        invariant i <= |d.files|
        invariant FromFiles(old(store), d.files, 0, 0) == FromFiles(store, d.files, i, code)
      {
        code := LoadFromFile(d.files[i]);
        if code < 0 {
          return;
        }
        i := i + 1;
      }
    }

    /** cfg_load_from_env */
    method LoadFromEnvironment(env: Environment)
      modifies `store
      ensures store == old(store) + EnvironmentStore(section, env)
    {
      var names, values := [LOG_LEVEL, LOG_TARGET, LOG_IS_QUIET], [env.level, env.target, env.quiet];
      var i := 0;
      while i < |names|
        invariant i <= 3
        invariant store == old(store) + (if i < 1 then map[] else Variable(section, LOG_LEVEL, env.level))
                                      + (if i < 2 then map[] else Variable(section, LOG_TARGET, env.target))
                                      + (if i < 3 then map[] else Variable(section, LOG_IS_QUIET, env.quiet))
      {
        if values[i].Some? && |values[i].value| > 0 {
          SetValue(section, names[i], values[i]);
        }
        i := i + 1;
      }
    }

    /** cfg_load_complete_configuration */
    method LoadComplete(s: Sources) returns (result: int)
      modifies `store
      ensures Loaded(result, store) == LoadedAll(old(store), section, s)
    {
      result := 0;
      if s.default.Some? {
        result := LoadFromFile(s.default.value);
        if result < 0 {
          return;
        } else if result > 0 {
          return -EINVAL;
        }
      }
      if s.custom.Some? {
        result := LoadFromFile(s.custom.value);
        if result != 0 && result != -ENOENT {
          if result < 0 {
            return;
          } else if result > 0 {
            return -EINVAL;
          }
        }
      }
      if s.directory.Some? {
        result := LoadFromDirectory(s.directory.value);
        if result < 0 {
          return;
        } else if result > 0 {
          return -EINVAL;
        }
      }
      LoadFromEnvironment(s.environment);
      result := 0;
      if s.cli.Some? {
        result := LoadFromFile(s.cli.value);
        if result < 0 {
          return;
        } else if result > 0 {
          return -EINVAL;
        }
      }
    }
  }
}
