/** The device spec parser of api/v1alpha2/lxcmachine_types.go: lists of
    `<device>,<key>=<value>,<key2>=<value2>` strings. */
module Devices {
  import opened Common
  import opened Text

  type Device = map<string, string>
  type DeviceMap = map<string, Device>

  // ---- meaning ---------------------------------------------------------------------------------

  function DeviceOf(m: DeviceMap, name: string): Device { if name in m then m[name] else map[] }

  /** Key-wise merge in which the later spec wins. */
  function Merge(a: DeviceMap, b: DeviceMap): DeviceMap {
    map n | n in a.Keys + b.Keys :: DeviceOf(a, n) + DeviceOf(b, n)
  }

  function ParseArgs(args: seq<string>): Option<Device> {
    if args == [] then Some(map[])
    else
      var (key, value, found) := Cut(args[|args| - 1], '=');
      var rest := ParseArgs(args[..|args| - 1]);
      if rest.Some? && found then Some(rest.value[key := value]) else None
  }

  function ParseSpec(spec: string): Option<DeviceMap> {
    var (name, args, found) := Cut(spec, ',');
    if !found then None
    else
      var device := ParseArgs(Split(args, ','));
      if device.None? then None else Some(map[name := device.value])
  }

  function Parse(specs: seq<string>): Option<DeviceMap> {
    if specs == [] then Some(map[])
    else Combine(Parse(specs[..|specs| - 1]), ParseSpec(specs[|specs| - 1]))
  }

  function Combine(a: Option<DeviceMap>, b: Option<DeviceMap>): Option<DeviceMap> {
    if a.Some? && b.Some? then Some(Merge(a.value, b.value)) else None
  }

  // ---- the code --------------------------------------------------------------------------------

  /** One spec's arguments, set on its device. */
  method SetArgs(m: DeviceMap, name: string, parts: seq<string>) returns (r: Option<DeviceMap>)
    ensures r == match ParseArgs(parts) case None => None case Some(d) => Some(m[name := DeviceOf(m, name) + d])
  {
    var out := m;
    if name !in out {
      out := out[name := map[]];
    }
    ghost var base := DeviceOf(m, name);
    assert base + map[] == base;
    assert out == m[name := base];
    for j := 0 to |parts|
      invariant name in out && ParseArgs(parts[..j]).Some?
      invariant out == m[name := base + ParseArgs(parts[..j]).value]
    {
      assert parts[..j + 1][..j] == parts[..j];
      var (key, value, hasEqual) := Cut(parts[j], '=');
      if !hasEqual {
        ArgsFailureSpreads(parts, j + 1);
        return None;
      }
      ghost var d := ParseArgs(parts[..j]).value;
      assert (base + d)[key := value] == base + d[key := value];
      out := out[name := out[name][key := value]];
    }
    assert parts[..|parts|] == parts;
    return Some(out);
  }

  /** ToMap. */
  method ToMap(specs: seq<string>) returns (r: Option<DeviceMap>)
    ensures r == Parse(specs)
  {
    if |specs| == 0 {
      return Some(map[]);
    }
    var m: DeviceMap := map[];
    for i := 0 to |specs|
      invariant Parse(specs[..i]) == Some(m)
    {
      assert specs[..i + 1] == specs[..i] + [specs[i]];
      ParseSnoc(specs[..i], specs[i]);
      var (name, args, hasSeparator) := Cut(specs[i], ',');
      if !hasSeparator {
        FailureSpreads(specs, i + 1);
        return None;
      }
      var next := SetArgs(m, name, Split(args, ','));
      if next.None? {
        FailureSpreads(specs, i + 1);
        return None;
      }
      MergeOne(m, name, ParseArgs(Split(args, ',')).value);
      m := next.value;
    }
    assert specs[..|specs|] == specs;
    return Some(m);
  }

  lemma ParseSnoc(specs: seq<string>, spec: string)
    ensures Parse(specs + [spec]) == Combine(Parse(specs), ParseSpec(spec))
  {
  }

  lemma MergeOne(m: DeviceMap, name: string, device: Device)
    ensures Merge(m, map[name := device]) == m[name := DeviceOf(m, name) + device]
  {
    forall n | n in m && n != name ensures DeviceOf(m, n) + DeviceOf(map[name := device], n) == m[n] {
      assert m[n] + map[] == m[n];
    }
  }

  lemma {:induction false} ArgsFailureSpreads(args: seq<string>, n: nat)
    requires n <= |args| && ParseArgs(args[..n]).None?
    ensures ParseArgs(args).None?
    decreases |args|
  {
    if n == |args| {
      assert args[..n] == args;
    } else {
      assert args[..|args| - 1][..n] == args[..n];
      ArgsFailureSpreads(args[..|args| - 1], n);
    }
  }

  lemma {:induction false} FailureSpreads(specs: seq<string>, n: nat)
    requires n <= |specs| && Parse(specs[..n]).None?
    ensures Parse(specs).None?
    decreases |specs|
  {
    if n == |specs| {
      assert specs[..n] == specs;
    } else {
      assert specs[..|specs| - 1][..n] == specs[..n];
      FailureSpreads(specs[..|specs| - 1], n);
    }
  }

  // ---- concatenation ---------------------------------------------------------------------------

  lemma MergeAt(a: DeviceMap, b: DeviceMap, n: string)
    ensures DeviceOf(Merge(a, b), n) == DeviceOf(a, n) + DeviceOf(b, n)
  {
  }

  lemma PlusAssociative(x: Device, y: Device, z: Device)
    ensures (x + y) + z == x + (y + z)
  {
  }

  lemma MergeAssociative(a: DeviceMap, b: DeviceMap, c: DeviceMap)
    ensures Merge(Merge(a, b), c) == Merge(a, Merge(b, c))
  {
    var left, right := Merge(Merge(a, b), c), Merge(a, Merge(b, c));
    forall n ensures DeviceOf(left, n) == DeviceOf(right, n) {
      MergeAt(Merge(a, b), c, n);
      MergeAt(a, b, n);
      MergeAt(a, Merge(b, c), n);
      MergeAt(b, c, n);
      PlusAssociative(DeviceOf(a, n), DeviceOf(b, n), DeviceOf(c, n));
    }
    SameDevices(left, right);
  }

  lemma SameDevices(a: DeviceMap, b: DeviceMap)
    requires a.Keys == b.Keys && forall n :: DeviceOf(a, n) == DeviceOf(b, n)
    ensures a == b
  {
    forall n | n in a ensures a[n] == b[n] {
      assert DeviceOf(a, n) == DeviceOf(b, n);
    }
  }

  lemma MergeEmpty(a: DeviceMap)
    ensures Merge(a, map[]) == a && Merge(map[], a) == a
  {
    forall n | n in a ensures a[n] + map[] == a[n] && map[] + a[n] == a[n] {}
  }

  /** Parsing a concatenation is the key-wise later-wins merge of parsing the parts, and fails exactly
      when a part fails. */
  lemma {:induction false} ParseConcat(x: seq<string>, y: seq<string>)
    ensures Parse(x + y) == Combine(Parse(x), Parse(y))
    decreases |y|
  {
    if y == [] {
      assert x + y == x;
      if Parse(x).Some? {
        MergeEmpty(Parse(x).value);
      }
    } else {
      var init, last := y[..|y| - 1], ParseSpec(y[|y| - 1]);
      assert (x + y)[..|x + y| - 1] == x + init;
      ParseConcat(x, init);
      if Parse(x).Some? && Parse(init).Some? && last.Some? {
        MergeAssociative(Parse(x).value, Parse(init).value, last.value);
      }
    }
  }

  function ArgAt(m: DeviceMap, name: string, key: string): Option<string> {
    if name in m && key in m[name] then Some(m[name][key]) else None
  }

  /** Of a key that both parts give a device, the later part decides; the devices are those of both parts. */
  lemma LaterWins(x: seq<string>, y: seq<string>, name: string, key: string)
    ensures Parse(x + y).Some? <==> Parse(x).Some? && Parse(y).Some?
    ensures Parse(x + y).Some? ==>
      var a, b, m := Parse(x).value, Parse(y).value, Parse(x + y).value;
      && (name in m <==> name in a || name in b)
      && ArgAt(m, name, key) == if ArgAt(b, name, key).Some? then ArgAt(b, name, key) else ArgAt(a, name, key)
  {
    ParseConcat(x, y);
  }

  // ---- one spec --------------------------------------------------------------------------------

  lemma {:induction false} ArgsFailExactly(args: seq<string>)
    ensures ParseArgs(args).None? <==> exists i | 0 <= i < |args| :: '=' !in args[i]
  {
    if args != [] {
      var init := args[..|args| - 1];
      ArgsFailExactly(init);
      assert forall i | 0 <= i < |init| :: init[i] == args[i];
      if i :| 0 <= i < |args| && '=' !in args[i] && i < |init| {
        assert '=' !in init[i];
      }
    }
  }

  /** The last argument with a key gives its value. */
  lemma {:induction false} LastArgWins(args: seq<string>, i: nat, key: string, value: string)
    requires ParseArgs(args).Some? && i < |args| && '=' !in key && args[i] == key + "=" + value
    requires forall j | i < j < |args| :: !(key + "=" <= args[j])
    ensures Lookup(ParseArgs(args).value, key) == Some(value)
  {
    var init, last := args[..|args| - 1], args[|args| - 1];
    if i == |init| {
      assert last == key + ['='] + value;
      CutAt(key, value, '=');
    } else {
      LastArgWins(init, i, key, value);
      var (k, v, _) := Cut(last, '=');
      assert last == k + "=" + v;
      assert k + "=" <= last;
    }
  }

  lemma {:induction false} KeysComeFromArgs(args: seq<string>, key: string)
    requires ParseArgs(args).Some? && key in ParseArgs(args).value
    ensures exists i | 0 <= i < |args| :: key + "=" <= args[i]
  {
    var init, last := args[..|args| - 1], args[|args| - 1];
    var (k, v, _) := Cut(last, '=');
    assert last == k + "=" + v;
    assert k + "=" <= last;
    if k != key {
      KeysComeFromArgs(init, key);
      var i :| 0 <= i < |init| && key + "=" <= init[i];
      assert key + "=" <= args[i];
    }
  }

  /** A spec is a name and, after a comma, arguments separated by commas. It is refused exactly when there is no
      comma or some argument has no equals sign; otherwise it gives that device the keys of its arguments, each
      with the value of the last argument that has it. */
  lemma SpecMeans(name: string, args: seq<string>)
    requires ',' !in name && |args| > 0 && forall a | a in args :: ',' !in a
    ensures ParseSpec(name).None?
    ensures var r := ParseSpec(name + "," + Join(args, ','));
      && (r.None? <==> exists i | 0 <= i < |args| :: '=' !in args[i])
      && (r.Some? ==>
            && r.value.Keys == {name}
            && (forall key | key in r.value[name] :: exists i | 0 <= i < |args| :: key + "=" <= args[i])
            && forall i, key, value ::
                 0 <= i < |args| && '=' !in key && args[i] == key + "=" + value
                 && (forall j | i < j < |args| :: !(key + "=" <= args[j]))
                 ==> Lookup(r.value[name], key) == Some(value))
  {
    CutMissing(name, ',');
    assert name + "," + Join(args, ',') == name + [','] + Join(args, ',');
    CutAt(name, Join(args, ','), ',');
    SplitJoin(args, ',');
    ArgsFailExactly(args);
    if ParseArgs(args).Some? {
      ArgsMean(args);
    }
  }

  lemma ArgsMean(args: seq<string>)
    requires ParseArgs(args).Some?
    ensures forall key | key in ParseArgs(args).value :: exists i | 0 <= i < |args| :: key + "=" <= args[i]
    ensures forall i, key, value ::
      0 <= i < |args| && '=' !in key && args[i] == key + "=" + value
      && (forall j | i < j < |args| :: !(key + "=" <= args[j]))
      ==> Lookup(ParseArgs(args).value, key) == Some(value)
  {
    forall key | key in ParseArgs(args).value ensures exists i | 0 <= i < |args| :: key + "=" <= args[i] {
      KeysComeFromArgs(args, key);
    }
    forall i, key, value |
      0 <= i < |args| && '=' !in key && args[i] == key + "=" + value
      && (forall j | i < j < |args| :: !(key + "=" <= args[j]))
      ensures Lookup(ParseArgs(args).value, key) == Some(value)
    {
      LastArgWins(args, i, key, value);
    }
  }

  // ---- printing --------------------------------------------------------------------------------

  predicate Printable(d: DeviceMap) {
    forall n | n in d ::
      ',' !in n && d[n] != map[] && forall k | k in d[n] :: ',' !in k && '=' !in k && ',' !in d[n][k]
  }

  /** `keys` lists the keys of a map, each once, in some order. */
  ghost predicate Lists<V>(keys: seq<string>, m: map<string, V>) {
    && (forall k :: k in keys <==> k in m)
    && Distinct(keys)
  }

  function PrintArg(device: Device, key: string): string
    requires key in device
  {
    key + "=" + device[key]
  }

  function PrintArgs(device: Device, keys: seq<string>): seq<string>
    requires forall k | k in keys :: k in device
  {
    seq(|keys|, i requires 0 <= i < |keys| => PrintArg(device, keys[i]))
  }

  function PrintSpec(name: string, device: Device, keys: seq<string>): string
    requires |keys| > 0 && forall k | k in keys :: k in device
  {
    name + "," + Join(PrintArgs(device, keys), ',')
  }

  ghost predicate ValidOrder(d: DeviceMap, names: seq<string>, keys: map<string, seq<string>>) {
    Lists(names, d) && forall n | n in d :: n in keys && Lists(keys[n], d[n])
  }

  lemma OrderHasKeys(d: DeviceMap, names: seq<string>, keys: map<string, seq<string>>)
    requires Printable(d) && ValidOrder(d, names, keys)
    ensures CanPrint(d, names, keys)
  {
  }

  function Print(d: DeviceMap, names: seq<string>, keys: map<string, seq<string>>): seq<string>
    requires CanPrint(d, names, keys)
  {
    seq(|names|, i requires 0 <= i < |names| =>
      assert names[i] in names; PrintSpec(names[i], d[names[i]], keys[names[i]]))
  }

  function Restrict<V>(m: map<string, V>, keys: seq<string>): map<string, V>
    requires forall k | k in keys :: k in m
  {
    map k | k in keys :: m[k]
  }

  lemma RestrictAll<V>(m: map<string, V>, keys: seq<string>)
    requires Lists(keys, m)
    ensures Restrict(m, keys) == m
  {
  }

  lemma RestrictOne<V>(m: map<string, V>, init: seq<string>, last: string)
    requires last in m && forall k | k in init :: k in m
    ensures Restrict(m, init + [last]) == Restrict(m, init)[last := m[last]]
  {
  }

  lemma ArgsSnoc(device: Device, init: seq<string>, last: string)
    requires last in device && forall k | k in init :: k in device
    ensures PrintArgs(device, init + [last]) == PrintArgs(device, init) + [PrintArg(device, last)]
  {
  }

  lemma ParseArgsSnoc(args: seq<string>, key: string, value: string)
    requires '=' !in key && ParseArgs(args).Some?
    ensures ParseArgs(args + [key + "=" + value]) == Some(ParseArgs(args).value[key := value])
  {
    assert (args + [key + "=" + value])[..|args|] == args;
    assert key + "=" + value == key + ['='] + value;
    CutAt(key, value, '=');
  }

  lemma {:induction false} ArgsRoundTrip(device: Device, keys: seq<string>)
    requires forall k | k in keys :: k in device && '=' !in k
    ensures ParseArgs(PrintArgs(device, keys)) == Some(Restrict(device, keys))
    decreases |keys|
  {
    if keys != [] {
      var init, last := keys[..|keys| - 1], keys[|keys| - 1];
      LastApart(keys);
      assert last in keys && forall k | k in init :: k in keys;
      ArgsRoundTrip(device, init);
      ArgsSnoc(device, init, last);
      ParseArgsSnoc(PrintArgs(device, init), last, device[last]);
      RestrictOne(device, init, last);
    }
  }

  lemma SpecRoundTrip(name: string, device: Device, keys: seq<string>)
    requires ',' !in name && |keys| > 0 && Lists(keys, device)
    requires forall k | k in device :: ',' !in k && '=' !in k && ',' !in device[k]
    ensures ParseSpec(PrintSpec(name, device, keys)) == Some(map[name := device])
  {
    var args := PrintArgs(device, keys);
    forall a | a in args ensures ',' !in a {
      var i :| 0 <= i < |args| && args[i] == a;
      assert keys[i] in keys && a == keys[i] + "=" + device[keys[i]];
    }
    SplitJoin(args, ',');
    assert PrintSpec(name, device, keys) == name + [','] + Join(args, ',');
    CutAt(name, Join(args, ','), ',');
    ArgsRoundTrip(device, keys);
    RestrictAll(device, keys);
  }

  predicate CanPrint(d: DeviceMap, names: seq<string>, keys: map<string, seq<string>>) {
    forall n | n in names :: n in d && n in keys && |keys[n]| > 0 && forall k | k in keys[n] :: k in d[n]
  }

  lemma PrintSnoc(d: DeviceMap, init: seq<string>, last: string, keys: map<string, seq<string>>)
    requires CanPrint(d, init, keys) && CanPrint(d, [last], keys)
    ensures CanPrint(d, init + [last], keys)
    ensures Print(d, init + [last], keys) == Print(d, init, keys) + [PrintSpec(last, d[last], keys[last])]
  {
  }

  lemma RestrictSnoc(d: DeviceMap, init: seq<string>, last: string)
    requires last in d && last !in init && forall n | n in init :: n in d
    ensures Merge(Restrict(d, init), map[last := d[last]]) == Restrict(d, init + [last])
  {
    MergeOne(Restrict(d, init), last, d[last]);
    assert map[] + d[last] == d[last];
    RestrictOne(d, init, last);
  }

  /** One more printed specification is one more parsed device. */
  lemma OneMoreDevice(d: DeviceMap, init: seq<string>, last: string, keys: map<string, seq<string>>)
    requires Printable(d) && CanPrint(d, init, keys) && CanPrint(d, [last], keys)
    requires last in d && last in keys && last !in init
    requires Lists(keys[last], d[last]) && Parse(Print(d, init, keys)) == Some(Restrict(d, init))
    ensures CanPrint(d, init + [last], keys)
    ensures Parse(Print(d, init + [last], keys)) == Some(Restrict(d, init + [last]))
  {
    PrintSnoc(d, init, last, keys);
    SpecRoundTrip(last, d[last], keys[last]);
    RestrictSnoc(d, init, last);
    ParseSnoc(Print(d, init, keys), PrintSpec(last, d[last], keys[last]));
  }

  lemma {:induction false} PrefixRoundTrip(d: DeviceMap, names: seq<string>, keys: map<string, seq<string>>)
    requires Printable(d) && CanPrint(d, names, keys) && Distinct(names)
    requires forall n | n in names :: Lists(keys[n], d[n])
    ensures Parse(Print(d, names, keys)) == Some(Restrict(d, names))
    decreases |names|
  {
    if names != [] {
      LastApart(names);
      LastOfDistinct(names);
      PrefixRoundTrip(d, names[..|names| - 1], keys);
      OneMoreDevice(d, names[..|names| - 1], names[|names| - 1], keys);
    }
  }

  /** Printing any device map in any order and parsing it gives the map back. */
  lemma RoundTrip(d: DeviceMap, names: seq<string>, keys: map<string, seq<string>>)
    requires Printable(d) && ValidOrder(d, names, keys)
    ensures CanPrint(d, names, keys)
    ensures Parse(Print(d, names, keys)) == Some(d)
  {
    OrderHasKeys(d, names, keys);
    PrefixRoundTrip(d, names, keys);
    RestrictAll(d, names);
  }
}
