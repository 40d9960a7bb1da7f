/** The launch options builder: mutable maps that are shared by reference, as in
    internal/lxc/launch_options.go, and the launches that drive it. */
module LaunchOptions {
  import opened Common

  /** A Go map from strings to strings: an object that several places can hold. A nil map is `null`. */
  class Table {
    var entries: map<string, string>

    constructor (entries: map<string, string>)
      ensures this.entries == entries
    {
      this.entries := entries;
    }
  }

  /** A Go map from strings to such maps, which it shares with whoever else holds them. */
  class Nested {
    var entries: map<string, Table>

    constructor (entries: map<string, Table>)
      ensures this.entries == entries
    {
      this.entries := entries;
    }
  }

  function Flat(t: Table?): map<string, string>
    reads t
  {
    if t == null then map[] else t.entries
  }

  function Outer(t: Nested?): map<string, Table>
    reads t
  {
    if t == null then map[] else t.entries
  }

  datatype FileOp = CreateFile(path: string, contents: string) | AppendText(path: string, contents: string)
                  | Symlink(path: string, target: string) | Directory(path: string)

  /** The builders that add one operation per entry of a map. */
  datatype FileKind = Creating | Appending | Linking

  function OpOf(kind: FileKind, path: string, value: string): FileOp {
    match kind
    case Creating => CreateFile(path, value)
    case Appending => AppendText(path, value)
    case Linking => Symlink(path, value)
  }

  /** The operations are those of the entries, each exactly once, in some order. */
  predicate Enumerates(ops: seq<FileOp>, kind: FileKind, entries: map<string, string>) {
    |ops| == |entries| && forall path | path in entries :: OpOf(kind, path, entries[path]) in ops
  }

  /** The loop over the entries of a map, in whatever order it is iterated. */
  method Operations(kind: FileKind, entries: map<string, string>) returns (ops: seq<FileOp>)
    ensures Enumerates(ops, kind, entries)
  {
    var left := entries;
    ops := [];
    while left != map[]
      invariant left.Keys <= entries.Keys && forall path | path in left :: left[path] == entries[path]
      invariant |ops| + |left| == |entries|
      invariant forall path | path in entries && path !in left :: OpOf(kind, path, entries[path]) in ops
      decreases |left|
    {
      var path :| path in left;
      ops := ops + [OpOf(kind, path, left[path])];
      left := left - {path};
    }
  }

  function Directories(paths: seq<string>): seq<FileOp> {
    seq(|paths|, i requires 0 <= i < |paths| => Directory(paths[i]))
  }

  /** An image, or one of the families that resolve to an image later. */
  datatype Image = Image(protocol: string, server: string, alias: string, fingerprint: string)
                 | Family(name: string) | NoImage

  /** What the options hold. Nested maps are references, because the builder shares them. */
  datatype Spec = Spec(
    templates: map<string, string>, createFiles: seq<FileOp>,
    replacements: map<string, Table>, devices: map<string, Table>,
    config: map<string, string>, profiles: seq<string>,
    image: Image, flavor: string, instanceType: string, unixSocket: bool)

  const EMPTY := Spec(map[], [], map[], map[], map[], [], NoImage, "", "", false)

  /** What one call of a builder method contributes. */
  datatype Added = Templates(strings: map<string, string>) | Config(strings: map<string, string>)
                 | Replacements(nested: map<string, Table>) | Devices(nested: map<string, Table>)
                 | Files(ops: seq<FileOp>) | Profiles(names: seq<string>)
                 | SetImage(image: Image) | SetFlavor(flavor: string) | SetType(instanceType: string)
                 | SetSocket(socket: bool)

  /** An image without alias and fingerprint is ignored. */
  predicate Ignored(i: Image) { i.Image? && i.alias == "" && i.fingerprint == "" }

  /** Later keys win, a repeated device or file name replaces the whole nested map, and some images are
      ignored. */
  function Add(s: Spec, a: Added): Spec {
    match a
    case Templates(m) => s.(templates := s.templates + m)
    case Config(m) => s.(config := s.config + m)
    case Replacements(m) => s.(replacements := s.replacements + m)
    case Devices(m) => s.(devices := s.devices + m)
    case Files(ops) => s.(createFiles := s.createFiles + ops)
    case Profiles(names) => s.(profiles := s.profiles + names)
    case SetImage(i) => if Ignored(i) then s else s.(image := i)
    case SetFlavor(f) => s.(flavor := f)
    case SetType(k) => s.(instanceType := k)
    case SetSocket(b) => s.(unixSocket := b)
  }

  function AddAll(s: Spec, added: seq<Added>): Spec {
    if added == [] then s else Add(AddAll(s, added[..|added| - 1]), added[|added| - 1])
  }

  // ---- the right-biased merge ------------------------------------------------------------------

  /** What a call adds to the templates (or, with `config`, to the configuration). */
  function StringsOf(a: Added, config: bool): map<string, string> {
    if (config && a.Config?) || (!config && a.Templates?) then a.strings else map[]
  }

  /** What a call adds to the replacements (or, with `devices`, to the devices). */
  function NestedOf(a: Added, devices: bool): map<string, Table> {
    if (devices && a.Devices?) || (!devices && a.Replacements?) then a.nested else map[]
  }

  /** The value that the last call setting this key gives it. */
  function LastString(added: seq<Added>, config: bool, key: string): Option<string> {
    if added == [] then None
    else
      var last := StringsOf(added[|added| - 1], config);
      if key in last then Some(last[key]) else LastString(added[..|added| - 1], config, key)
  }

  function LastNested(added: seq<Added>, devices: bool, key: string): Option<Table> {
    if added == [] then None
    else
      var last := NestedOf(added[|added| - 1], devices);
      if key in last then Some(last[key]) else LastNested(added[..|added| - 1], devices, key)
  }

  /** Any sequence of calls builds the right-biased merge of its arguments: the last call that sets a key
      decides, and no key appears from nowhere. */
  lemma {:induction false} LastCallWins(added: seq<Added>, key: string)
    ensures Lookup(AddAll(EMPTY, added).config, key) == LastString(added, true, key)
    ensures Lookup(AddAll(EMPTY, added).templates, key) == LastString(added, false, key)
    ensures Lookup(AddAll(EMPTY, added).devices, key) == LastNested(added, true, key)
    ensures Lookup(AddAll(EMPTY, added).replacements, key) == LastNested(added, false, key)
  {
    if added != [] {
      LastCallWins(added[..|added| - 1], key);
      OneCall(AddAll(EMPTY, added[..|added| - 1]), added[|added| - 1]);
    }
  }

  lemma OneCall(s: Spec, a: Added)
    ensures Add(s, a).config == s.config + StringsOf(a, true)
    ensures Add(s, a).templates == s.templates + StringsOf(a, false)
    ensures Add(s, a).devices == s.devices + NestedOf(a, true)
    ensures Add(s, a).replacements == s.replacements + NestedOf(a, false)
  {
    PlusNothing(s.config);
    PlusNothing(s.templates);
    PlusNothing(s.devices);
    PlusNothing(s.replacements);
  }

  // ---- what is not a map -----------------------------------------------------------------------

  /** The operations of all calls, in order. */
  function AllFiles(added: seq<Added>): seq<FileOp> {
    if added == [] then []
    else
      var last := added[|added| - 1];
      AllFiles(added[..|added| - 1]) + if last.Files? then last.ops else []
  }

  /** The profiles of all calls, in order. */
  function AllProfiles(added: seq<Added>): seq<string> {
    if added == [] then []
    else
      var last := added[|added| - 1];
      AllProfiles(added[..|added| - 1]) + if last.Profiles? then last.names else []
  }

  /** The last call that meets the condition. */
  function LastCall(added: seq<Added>, sets: Added -> bool): Option<Added> {
    if added == [] then None
    else if sets(added[|added| - 1]) then Some(added[|added| - 1])
    else LastCall(added[..|added| - 1], sets)
  }

  function SetsImage(): Added -> bool {
    (a: Added) => a.SetImage? && (a.image.Image? ==> a.image.alias != "" || a.image.fingerprint != "")
  }

  function SetsFlavor(): Added -> bool { (a: Added) => a.SetFlavor? }

  function SetsType(): Added -> bool { (a: Added) => a.SetType? }

  function SetsSocket(): Added -> bool { (a: Added) => a.SetSocket? }

  /** Files and profiles accumulate in order. */
  lemma {:induction false} ListsAccumulate(added: seq<Added>)
    ensures AddAll(EMPTY, added).createFiles == AllFiles(added) && AddAll(EMPTY, added).profiles == AllProfiles(added)
  {
    if added != [] {
      ListsAccumulate(added[..|added| - 1]);
      OneList(AddAll(EMPTY, added[..|added| - 1]), added[|added| - 1]);
    }
  }

  lemma OneList(s: Spec, a: Added)
    ensures Add(s, a).createFiles == s.createFiles + if a.Files? then a.ops else []
    ensures Add(s, a).profiles == s.profiles + if a.Profiles? then a.names else []
  {
    assert s.createFiles + [] == s.createFiles && s.profiles + [] == s.profiles;
  }

  /** The image is that of the last call with an image that is not ignored, and flavor, type and socket are
      those of the last call that set them. */
  lemma {:induction false} LastSetterWins(added: seq<Added>)
    ensures var s, image := AddAll(EMPTY, added), LastCall(added, SetsImage());
      if image.Some? then image.value.SetImage? && s.image == image.value.image else s.image == NoImage
    ensures var s, flavor := AddAll(EMPTY, added), LastCall(added, SetsFlavor());
      if flavor.Some? then flavor.value.SetFlavor? && s.flavor == flavor.value.flavor else s.flavor == ""
    ensures var s, kind := AddAll(EMPTY, added), LastCall(added, SetsType());
      if kind.Some? then kind.value.SetType? && s.instanceType == kind.value.instanceType else s.instanceType == ""
    ensures var s, socket := AddAll(EMPTY, added), LastCall(added, SetsSocket());
      if socket.Some? then socket.value.SetSocket? && s.unixSocket == socket.value.socket else !s.unixSocket
  {
    if added != [] {
      LastSetterWins(added[..|added| - 1]);
      OneSetter(AddAll(EMPTY, added[..|added| - 1]), added[|added| - 1]);
    }
  }

  lemma OneSetter(s: Spec, a: Added)
    ensures Add(s, a).image == if SetsImage()(a) then a.image else s.image
    ensures Add(s, a).flavor == if SetsFlavor()(a) then a.flavor else s.flavor
    ensures Add(s, a).instanceType == if SetsType()(a) then a.instanceType else s.instanceType
    ensures Add(s, a).unixSocket == if SetsSocket()(a) then a.socket else s.unixSocket
  {
  }

  class Options {
    var templates: Table?
    var createFiles: seq<FileOp>
    var replacements: Nested?
    var devices: Nested?
    var config: Table?
    var profiles: seq<string>
    var image: Image
    var flavor: string
    var instanceType: string
    var unixSocket: bool

    /** The builder's own maps are distinct. */
    ghost predicate Valid()
      reads this
    {
      (templates == null || templates != config) && (devices == null || devices != replacements)
    }

    ghost function Value(): Spec
      reads this, templates, config, devices, replacements
    {
      Spec(Flat(templates), createFiles, Outer(replacements), Outer(devices), Flat(config), profiles,
           image, flavor, instanceType, unixSocket)
    }

    /** The maps that builder calls may write to. */
    ghost function Owned(): set<object?>
      reads this
    {
      {templates, config, devices, replacements}
    }

    constructor ()
      ensures Valid() && Value() == EMPTY && Owned() == {null}
    {
      templates, createFiles, replacements, devices, config := null, [], null, null, null;
      profiles, image, flavor, instanceType, unixSocket := [], NoImage, "", "", false;
    }

    /** maps.Clone into a nil map, maps.Copy into another. The argument may even be the builder's own. */
    method WithInstanceTemplates(added: Table?)
      requires Valid()
      modifies this`templates, templates
      ensures Valid() && Value() == Add(old(Value()), Templates(old(Flat(added)))) && Flat(added) == old(Flat(added))
      ensures Flat(templates) == old(Flat(templates)) + old(Flat(added))
      ensures templates == old(templates) || fresh(templates)
    {
      if templates == null {
        if added != null {
          templates := new Table(added.entries);
        }
      } else if added != null {
        templates.entries := templates.entries + added.entries;
      }
    }

    method WithConfig(added: Table?)
      requires Valid()
      modifies this`config, config
      ensures Valid() && Value() == Add(old(Value()), Config(old(Flat(added)))) && Flat(added) == old(Flat(added))
      ensures Flat(config) == old(Flat(config)) + old(Flat(added))
      ensures config == old(config) || fresh(config)
    {
      if config == null {
        if added != null {
          config := new Table(added.entries);
        }
      } else if added != null {
        config.entries := config.entries + added.entries;
      }
    }

    method WithDevices(added: Nested?)
      requires Valid()
      modifies this`devices, devices
      ensures Valid() && Value() == Add(old(Value()), Devices(old(Outer(added)))) && Outer(added) == old(Outer(added))
      ensures Outer(devices) == old(Outer(devices)) + old(Outer(added))
      ensures devices == old(devices) || fresh(devices)
    {
      if devices == null {
        if added != null {
          devices := new Nested(added.entries);
        }
      } else if added != null {
        devices.entries := devices.entries + added.entries;
      }
    }

    method WithReplacements(added: Nested?)
      requires Valid()
      modifies this`replacements, replacements
      ensures Valid() && Value() == Add(old(Value()), Replacements(old(Outer(added)))) && Outer(added)
        == old(Outer(added))
      ensures Outer(replacements) == old(Outer(replacements)) + old(Outer(added))
      ensures replacements == old(replacements) || fresh(replacements)
    {
      if replacements == null {
        if added != null {
          replacements := new Nested(added.entries);
        }
      } else if added != null {
        replacements.entries := replacements.entries + added.entries;
      }
    }

    /** WithCreateFiles, WithAppendToFiles and WithSymlinks: one operation per entry of the map, in whatever
        order it is iterated. */
    method WithFiles(kind: FileKind, added: Table?) returns (ghost ops: seq<FileOp>)
      requires Valid()
      modifies this`createFiles
      ensures Valid() && Value() == Add(old(Value()), Files(ops)) && Enumerates(ops, kind, Flat(added))
      ensures |ops| == |Flat(added)| && forall path | path in Flat(added) ::
        match kind
        case Creating => CreateFile(path, Flat(added)[path]) in ops
        case Appending => AppendText(path, Flat(added)[path]) in ops
        case Linking => Symlink(path, Flat(added)[path]) in ops
    {
      var all := Operations(kind, if added == null then map[] else added.entries);
      ops := all;
      createFiles := createFiles + all;
    }

    method WithDirectories(paths: seq<string>)
      requires Valid()
      modifies this`createFiles
      ensures Valid() && Value() == Add(old(Value()), Files(Directories(paths)))
      ensures |createFiles| == |old(createFiles)| + |paths|
      ensures forall i | 0 <= i < |paths| :: createFiles[|old(createFiles)| + i] == Directory(paths[i])
    {
      for i := 0 to |paths|
        invariant createFiles == old(createFiles) + Directories(paths)[..i]
      {
        createFiles := createFiles + [Directory(paths[i])];
      }
    }

    method WithProfiles(names: seq<string>)
      requires Valid()
      modifies this`profiles
      ensures Valid() && Value() == Add(old(Value()), Profiles(names)) && profiles == old(profiles) + names
    {
      profiles := profiles + names;
    }

    method WithImage(i: Image)
      requires Valid()
      modifies this`image
      ensures Valid() && Value() == Add(old(Value()), SetImage(i))
      ensures image == if i.Image? && i.alias == "" && i.fingerprint == "" then old(image) else i
    {
      if !i.Image? || |i.alias| > 0 || |i.fingerprint| > 0 {
        image := i;
      }
    }

    method WithFlavor(v: string)
      requires Valid()
      modifies this`flavor
      ensures Valid() && Value() == Add(old(Value()), SetFlavor(v)) && flavor == v
    {
      flavor := v;
    }

    method WithInstanceType(v: string)
      requires Valid()
      modifies this`instanceType
      ensures Valid() && Value() == Add(old(Value()), SetType(v)) && instanceType == v
    {
      instanceType := v;
    }

    method WithUnixSocket(v: bool)
      requires Valid()
      modifies this`unixSocket
      ensures Valid() && Value() == Add(old(Value()), SetSocket(v)) && unixSocket == v
    {
      unixSocket := v;
    }
  }

  // ---- any sequence of calls -------------------------------------------------------------------

  /** A call with the maps that it is given. */
  datatype Call = CallTemplates(table: Table?) | CallConfig(table: Table?) | CallFiles(kind: FileKind, table: Table?)
                | CallReplacements(nested: Nested?) | CallDevices(nested: Nested?)
                | CallDirectories(paths: seq<string>) | CallProfiles(names: seq<string>) | CallImage(image: Image)
                | CallFlavor(flavor: string) | CallType(instanceType: string) | CallSocket(socket: bool)

  function Args(c: Call): set<object?> {
    match c
    case CallTemplates(t) => {t}
    case CallConfig(t) => {t}
    case CallFiles(_, t) => {t}
    case CallReplacements(t) => {t}
    case CallDevices(t) => {t}
    case _ => {}
  }

  /** What a call may contribute, given what its argument maps hold. */
  ghost predicate Contributes(c: Call, a: Added)
    reads Args(c)
  {
    match c
    case CallTemplates(t) => a == Templates(Flat(t))
    case CallConfig(t) => a == Config(Flat(t))
    case CallFiles(kind, t) => a.Files? && Enumerates(a.ops, kind, Flat(t))
    case CallReplacements(t) => a == Replacements(Outer(t))
    case CallDevices(t) => a == Devices(Outer(t))
    case CallDirectories(paths) => a == Files(Directories(paths))
    case CallProfiles(names) => a == Profiles(names)
    case CallImage(i) => a == SetImage(i)
    case CallFlavor(f) => a == SetFlavor(f)
    case CallType(k) => a == SetType(k)
    case CallSocket(b) => a == SetSocket(b)
  }

  function AllArgs(calls: seq<Call>): set<object?> { set c, x | c in calls && x in Args(c) :: x }

  /** Each call contributed this; `args` holds all argument maps. */
  ghost predicate Describes(calls: seq<Call>, added: seq<Added>, args: set<object?>)
    requires AllArgs(calls) <= args
    reads args
  {
    |calls| == |added| && forall i | 0 <= i < |calls| :: ContributesIn(calls[i], added[i], args)
  }

  ghost predicate ContributesIn(c: Call, a: Added, args: set<object?>)
    reads args
  {
    Args(c) <= args && Contributes(c, a)
  }

  lemma DescribesSnoc(calls: seq<Call>, added: seq<Added>, c: Call, a: Added, args: set<object?>)
    requires AllArgs(calls) <= args && Args(c) <= args && Describes(calls, added, args) && Contributes(c, a)
    ensures AllArgs(calls + [c]) <= args && Describes(calls + [c], added + [a], args)
  {
  }

  method Perform(o: Options, c: Call) returns (ghost a: Added)
    requires o.Valid() && forall x | x in Args(c) && x != null :: x !in o.Owned()
    modifies o, o.Owned()
    ensures Contributes(c, a) && o.Valid() && o.Value() == Add(old(o.Value()), a)
    ensures forall x | x in o.Owned() :: x in old(o.Owned()) || fresh(x)
  {
    match c
    case CallTemplates(t) =>
      a := Templates(Flat(t));
      o.WithInstanceTemplates(t);
    case CallConfig(t) =>
      a := Config(Flat(t));
      o.WithConfig(t);
    case CallReplacements(t) =>
      a := Replacements(Outer(t));
      o.WithReplacements(t);
    case CallDevices(t) =>
      a := Devices(Outer(t));
      o.WithDevices(t);
    case CallFiles(kind, t) =>
      ghost var ops := o.WithFiles(kind, t);
      a := Files(ops);
    case _ =>
      a := PerformPlain(o, c);
  }

  /** The calls that write to no map. */
  method PerformPlain(o: Options, c: Call) returns (ghost a: Added)
    requires o.Valid() && Args(c) == {}
    modifies o`createFiles, o`profiles, o`image, o`flavor, o`instanceType, o`unixSocket
    ensures Contributes(c, a) && o.Valid() && o.Value() == Add(old(o.Value()), a)
  {
    match c
    case CallDirectories(paths) =>
      o.WithDirectories(paths);
      a := Files(Directories(paths));
    case CallProfiles(names) =>
      o.WithProfiles(names);
      a := Profiles(names);
    case CallImage(i) =>
      o.WithImage(i);
      a := SetImage(i);
    case CallFlavor(f) =>
      o.WithFlavor(f);
      a := SetFlavor(f);
    case CallType(k) =>
      o.WithInstanceType(k);
      a := SetType(k);
    case CallSocket(b) =>
      o.WithUnixSocket(b);
      a := SetSocket(b);
  }

  /** Any sequence of builder calls on new options yields the right-biased merge of its arguments. The
      method may modify nothing that existed before, so no argument map, no nested map and no shared
      profile is ever changed, whichever of them are passed and however often. */
  method Build(calls: seq<Call>) returns (o: Options, ghost added: seq<Added>)
    ensures Describes(calls, added, AllArgs(calls))
    ensures fresh(o) && o.Valid() && o.Value() == AddAll(EMPTY, added)
    ensures forall x | x in o.Owned() && x != null :: fresh(x)
  {
    ghost var args := AllArgs(calls);
    o := new Options();
    added := [];
    assert forall x | x in args && x != null :: !fresh(x);
    for i := 0 to |calls|
      invariant fresh(o) && o.Valid() && o.Value() == AddAll(EMPTY, added)
      invariant AllArgs(calls[..i]) <= args && Describes(calls[..i], added, args)
      invariant forall x | x in o.Owned() && x != null :: fresh(x)
    {
      assert Args(calls[i]) <= args;
      ghost var a := Perform(o, calls[i]);
      DescribesSnoc(calls[..i], added, calls[i], a, args);
      AddSnoc(added, a);
      assert calls[..i + 1] == calls[..i] + [calls[i]];
      added := added + [a];
    }
    assert calls[..|calls|] == calls;
  }

  lemma AddSnoc(added: seq<Added>, a: Added)
    ensures AddAll(EMPTY, added + [a]) == Add(AddAll(EMPTY, added), a)
  {
    assert (added + [a])[..|added|] == added;
  }
}
