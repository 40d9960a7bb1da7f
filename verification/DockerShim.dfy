/** The docker command line of kini: `docker run` flags become Incus devices, and `docker inspect` recovers
    the published address from them.

    Models cmd/exp/kini/docker/docker_run.go and cmd/exp/kini/docker/docker_inspect.go. */
module DockerShim {
  import opened Common
  import opened Devices
  import opened Text

  // ---- numbered names --------------------------------------------------------------------------

  function Digit(d: nat): char
    requires d < 10
  {
    "0123456789"[d]
  }

  /** %d of a non-negative number. */
  function Itoa(n: nat): string {
    if n < 10 then [Digit(n)] else Itoa(n / 10) + [Digit(n % 10)]
  }

  lemma DigitsDiffer(a: nat, b: nat)
    requires a < 10 && b < 10 && Digit(a) == Digit(b)
    ensures a == b
  {
  }

  lemma {:induction false} ItoaInjective(a: nat, b: nat)
    requires Itoa(a) == Itoa(b)
    ensures a == b
  {
    var s, t := Itoa(a), Itoa(b);
    assert s[|s| - 1] == Digit(a % 10) && t[|t| - 1] == Digit(b % 10);
    DigitsDiffer(a % 10, b % 10);
    ItoaNonempty(a / 10);
    ItoaNonempty(b / 10);
    if a >= 10 && b >= 10 {
      assert Itoa(a / 10) == s[..|s| - 1] && Itoa(b / 10) == t[..|t| - 1];
      ItoaInjective(a / 10, b / 10);
    }
  }

  lemma ItoaNonempty(n: nat)
    ensures |Itoa(n)| > 0
  {
  }

  /** The number that a decimal text denotes. */
  function Atoi(s: string): int {
    if s == "" then 0 else 10 * Atoi(s[..|s| - 1]) + (s[|s| - 1] as int - '0' as int)
  }

  /** The decimal text denotes the number, and has no leading zero. */
  lemma {:induction false} ItoaReadsBack(n: nat)
    ensures Itoa(n) != "" && Atoi(Itoa(n)) == n && (n > 0 ==> Itoa(n)[0] != '0')
  {
    DigitReads(n % 10);
    if n >= 10 {
      ItoaReadsBack(n / 10);
      assert Itoa(n)[..|Itoa(n)| - 1] == Itoa(n / 10);
    } else {
      assert Itoa(n)[..0] == "";
    }
  }

  lemma DigitReads(d: nat)
    requires d < 10
    ensures Digit(d) as int - '0' as int == d
  {
  }

  datatype Kind = Proxy | Volume | Tmpfs | Unix

  function Prefix(k: Kind): string {
    match k
    case Proxy => "docker-proxy-"
    case Volume => "docker-volume-"
    case Tmpfs => "docker-tmpfs-"
    case Unix => "docker-device-"
  }

  function Name(k: Kind, idx: nat): string { Prefix(k) + Itoa(idx) }

  /** Numbered names never collide, within a kind or across kinds. */
  lemma NamesDiffer(k: Kind, i: nat, l: Kind, j: nat)
    requires Name(k, i) == Name(l, j)
    ensures k == l && i == j
  {
    assert Name(k, i)[7] == Prefix(k)[7] && Name(l, j)[7] == Prefix(l)[7];
    assert Name(k, i)[|Prefix(k)|..] == Itoa(i) && Name(l, j)[|Prefix(l)|..] == Itoa(j);
    ItoaInjective(i, j);
  }

  // ---- one flag --------------------------------------------------------------------------------

  function LowerChar(c: char): char { if 'A' <= c <= 'Z' then c - 'A' + 'a' else c }

  /** strings.ToLower on ASCII text. */
  function ToLower(s: string): (r: string)
    ensures |r| == |s|
    ensures forall i | 0 <= i < |s| ::
      if 'A' <= s[i] <= 'Z' then r[i] as int == s[i] as int + 32 else r[i] == s[i]
  {
    seq(|s|, i requires 0 <= i < |s| => LowerChar(s[i]))
  }

  function ProxyDevice(listen: string, connect: string): Device {
    map["type" := "proxy", "bind" := "host", "listen" := listen, "connect" := connect]
  }

  /** A publish flag, or None when it is malformed. */
  function Publish(flag: string): Option<Device> {
    var cut := Cut(ToLower(flag), '/');
    if cut.2 then Publishing(cut.1, Split(cut.0, ':')) else None
  }

  function Publishing(protocol: string, parts: seq<string>): Option<Device> {
    if |parts| == 2 then Some(ProxyDevice(protocol + "::" + parts[0], protocol + "::" + parts[1]))
    else if |parts| == 3 then Some(ProxyDevice(protocol + ":" + parts[0] + ":" + parts[1], protocol + "::" + parts[2]))
    else None
  }

  predicate Contains(s: string, t: string) { exists i | 0 <= i <= |s| :: t <= s[i..] }

  predicate Skipped(volume: string) { volume == "/var" || volume == "/lib/modules:/lib/modules:ro" }

  function DiskDevice(source: string, path: string, readonly: bool, propagation: string): Device {
    map["type" := "disk", "source" := source, "path" := path, "readonly" := if readonly then "true" else "false",
        "propagation" := propagation]
  }

  function VolumeDevice(volume: string): Device {
    var parts := Split(volume, ':');
    if |parts| == 1 then DiskDevice(volume, volume, false, "")
    else if |parts| == 2 then DiskDevice(parts[0], parts[1], false, "")
    else if |parts| == 3 then
      DiskDevice(parts[0], parts[1], Contains(parts[2], "ro"),
                 if Contains(parts[2], "rslave") then "rslave"
                 else if Contains(parts[2], "rshared") then "rshared" else "")
    else DiskDevice("", "", false, "")
  }

  function TmpfsDevice(path: string): Device { map["type" := "disk", "path" := path, "source" := "tmpfs:"] }

  function UnixDevice(device: string): Device { map["type" := "unix-char", "source" := device, "path" := device] }

  // ---- what a flag means -----------------------------------------------------------------------

  /** Text without separators. */
  predicate PlainPart(s: string) { ':' !in s && '/' !in s }

  /** `listen:connect/protocol` */
  predicate PortForm(t: string, listen: string, connect: string, protocol: string) {
    t == listen + ":" + connect + "/" + protocol && PlainPart(listen) && PlainPart(connect)
  }

  /** `host:listen:connect/protocol` */
  predicate HostForm(t: string, host: string, listen: string, connect: string, protocol: string) {
    t == host + ":" + listen + ":" + connect + "/" + protocol
    && PlainPart(host) && PlainPart(listen) && PlainPart(connect)
  }

  lemma PortFormPublishes(flag: string, listen: string, connect: string, protocol: string)
    requires PortForm(ToLower(flag), listen, connect, protocol)
    ensures Publish(flag)
      == Some(map["type" := "proxy", "bind" := "host",
                  "listen" := protocol + "::" + listen, "connect" := protocol + "::" + connect])
  {
    var ports := listen + ":" + connect;
    assert ToLower(flag) == ports + ['/'] + protocol;
    CutAt(ports, protocol, '/');
    JoinTwo(listen, connect, ':');
    SplitJoin([listen, connect], ':');
  }

  lemma HostFormPublishes(flag: string, host: string, listen: string, connect: string, protocol: string)
    requires HostForm(ToLower(flag), host, listen, connect, protocol)
    ensures Publish(flag)
      == Some(map["type" := "proxy", "bind" := "host",
                  "listen" := protocol + ":" + host + ":" + listen, "connect" := protocol + "::" + connect])
  {
    var ports := host + ":" + listen + ":" + connect;
    assert ToLower(flag) == ports + ['/'] + protocol;
    CutAt(ports, protocol, '/');
    SplitThree(host, listen, connect);
  }

  /** A publish flag is well-formed exactly when, in lower case, it has one of the two forms, and then it is the
      proxy that the form says. */
  lemma PublishMeans(flag: string)
    ensures forall listen, connect, protocol | PortForm(ToLower(flag), listen, connect, protocol) ::
      Publish(flag)
      == Some(map["type" := "proxy", "bind" := "host",
                  "listen" := protocol + "::" + listen, "connect" := protocol + "::" + connect])
    ensures forall host, listen, connect, protocol | HostForm(ToLower(flag), host, listen, connect, protocol) ::
      Publish(flag)
      == Some(map["type" := "proxy", "bind" := "host",
                  "listen" := protocol + ":" + host + ":" + listen, "connect" := protocol + "::" + connect])
    ensures Publish(flag).Some? ==>
      || (exists listen, connect, protocol :: PortForm(ToLower(flag), listen, connect, protocol))
      || (exists host, listen, connect, protocol :: HostForm(ToLower(flag), host, listen, connect, protocol))
  {
    forall listen, connect, protocol | PortForm(ToLower(flag), listen, connect, protocol)
      ensures Publish(flag)
        == Some(map["type" := "proxy", "bind" := "host",
                    "listen" := protocol + "::" + listen, "connect" := protocol + "::" + connect])
    {
      PortFormPublishes(flag, listen, connect, protocol);
    }
    forall host, listen, connect, protocol | HostForm(ToLower(flag), host, listen, connect, protocol)
      ensures Publish(flag)
        == Some(map["type" := "proxy", "bind" := "host",
                    "listen" := protocol + ":" + host + ":" + listen, "connect" := protocol + "::" + connect])
    {
      HostFormPublishes(flag, host, listen, connect, protocol);
    }
    if Publish(flag).Some? {
      HasForm(flag);
    }
  }

  lemma HasForm(flag: string)
    requires Publish(flag).Some?
    ensures
      || (exists listen, connect, protocol :: PortForm(ToLower(flag), listen, connect, protocol))
      || (exists host, listen, connect, protocol :: HostForm(ToLower(flag), host, listen, connect, protocol))
  {
    var t := ToLower(flag);
    var (ports, protocol, _) := Cut(t, '/');
    assert t == ports + "/" + protocol && '/' !in ports;
    var parts := Split(ports, ':');
    JoinSplit(ports, ':');
    if |parts| == 2 {
      assert parts == [parts[0], parts[1]];
      JoinTwo(parts[0], parts[1], ':');
      assert ports == parts[0] + ":" + parts[1];
      assert PortForm(t, parts[0], parts[1], protocol);
    } else {
      assert parts == [parts[0], parts[1], parts[2]];
      JoinThree(parts[0], parts[1], parts[2]);
      assert HostForm(t, parts[0], parts[1], parts[2], protocol);
    }
  }

  /** A volume is a path, `source:path` or `source:path:options`; one with more parts has no paths. */
  lemma VolumeMeans(source: string, path: string, options: string, rest: string)
    requires ':' !in source && ':' !in path && ':' !in options
    ensures VolumeDevice(source)
      == map["type" := "disk", "source" := source, "path" := source, "readonly" := "false", "propagation" := ""]
    ensures VolumeDevice(source + ":" + path)
      == map["type" := "disk", "source" := source, "path" := path, "readonly" := "false", "propagation" := ""]
    ensures VolumeDevice(source + ":" + path + ":" + options)
      == map["type" := "disk", "source" := source, "path" := path,
             "readonly" := if Contains(options, "ro") then "true" else "false",
             "propagation" := if Contains(options, "rslave") then "rslave"
                              else if Contains(options, "rshared") then "rshared" else ""]
    ensures VolumeDevice(source + ":" + path + ":" + options + ":" + rest)
      == map["type" := "disk", "source" := "", "path" := "", "readonly" := "false", "propagation" := ""]
  {
    FourParts(source, path, options, rest);
    CutMissing(source, ':');
    JoinTwo(source, path, ':');
    SplitJoin([source, path], ':');
    SplitThree(source, path, options);
  }

  lemma FourParts(a: string, b: string, c: string, rest: string)
    requires ':' !in a && ':' !in b && ':' !in c
    ensures |Split(a + ":" + b + ":" + c + ":" + rest, ':')| > 3
  {
    var third := c + ":" + rest;
    var second := b + ":" + third;
    assert a + ":" + b + ":" + c + ":" + rest == a + ":" + second;
    CutAt(a, second, ':');
    CutAt(b, third, ':');
    CutAt(c, rest, ':');
    assert Split(third, ':') == [c] + Split(rest, ':');
    assert Split(second, ':') == [b] + Split(third, ':');
    assert Split(a + ":" + second, ':') == [a] + Split(second, ':');
  }

  lemma SplitThree(a: string, b: string, c: string)
    requires ':' !in a && ':' !in b && ':' !in c
    ensures Split(a + ":" + b + ":" + c, ':') == [a, b, c]
  {
    JoinThree(a, b, c);
    SplitJoin([a, b, c], ':');
  }

  // ---- all flags -------------------------------------------------------------------------------

  datatype Flags = Flags(publish: seq<string>, volumes: seq<string>, tmpfs: seq<string>, devices: seq<string>)

  /** The device that each flag of a kind becomes; None for a flag that becomes no device. */
  function DevicesOf(f: Flags, tmpfs: bool, k: Kind): seq<Option<Device>> {
    match k
    case Proxy => seq(|f.publish|, i requires 0 <= i < |f.publish| => Publish(f.publish[i]))
    case Volume => seq(|f.volumes|, i requires 0 <= i < |f.volumes| =>
      if Skipped(f.volumes[i]) then None else Some(VolumeDevice(f.volumes[i])))
    case Tmpfs => seq(|f.tmpfs|, i requires 0 <= i < |f.tmpfs| => if tmpfs then Some(TmpfsDevice(f.tmpfs[i])) else None)
    case Unix => seq(|f.devices|, i requires 0 <= i < |f.devices| => Some(UnixDevice(f.devices[i])))
  }

  /** The numbered names of a kind. */
  function Names(k: Kind, n: nat): seq<string> { seq(n, i requires 0 <= i < n => Name(k, i)) }

  lemma NamesDistinct(k: Kind, n: nat)
    ensures Distinct(Names(k, n))
  {
    forall i, j | 0 <= i < j < n ensures Names(k, n)[i] != Names(k, n)[j] {
      if Name(k, i) == Name(k, j) {
        NamesDiffer(k, i, k, j);
      }
    }
  }

  predicate Has(devices: seq<Option<Device>>, i: nat) { i < |devices| && devices[i].Some? }

  /** Of the first `n` devices, the map holds exactly those that there are, under their names. */
  ghost predicate Holds(m: DeviceMap, names: seq<string>, devices: seq<Option<Device>>, n: nat)
    requires |names| == |devices|
  {
    && (forall i: nat | i < n && Has(devices, i) :: names[i] in m && m[names[i]] == devices[i].value)
    && (forall name | name in m :: NamedBefore(names, devices, n, name))
  }

  ghost predicate NamedBefore(names: seq<string>, devices: seq<Option<Device>>, n: nat, name: string)
    requires |names| == |devices|
  {
    exists i: nat | i < n :: Has(devices, i) && name == names[i]
  }

  /** The devices of the flags, by kind. */
  type Table = Kind -> seq<Option<Device>>

  function TableOf(f: Flags, tmpfs: bool): Table { k => DevicesOf(f, tmpfs, k) }

  /** The map holds exactly the devices of one kind. */
  ghost predicate Kept(m: DeviceMap, t: Table, k: Kind) {
    Holds(m, Names(k, |t(k)|), t(k), |t(k)|)
  }

  lemma HoldsSkip(m: DeviceMap, names: seq<string>, devices: seq<Option<Device>>, n: nat)
    requires |names| == |devices| && Holds(m, names, devices, n) && !Has(devices, n)
    ensures Holds(m, names, devices, n + 1)
  {
  }

  lemma HoldsNext(m: DeviceMap, names: seq<string>, devices: seq<Option<Device>>, n: nat)
    requires |names| == |devices| && Holds(m, names, devices, n) && Has(devices, n) && Distinct(names)
    ensures names[n] !in m && Holds(m[names[n] := devices[n].value], names, devices, n + 1)
  {
  }

  method TranslateVolumes(f: Flags, tmpfs: bool) returns (m: DeviceMap)
    ensures Kept(m, TableOf(f, tmpfs), Volume)
  {
    m := map[];
    ghost var names, devices := Names(Volume, |f.volumes|), DevicesOf(f, tmpfs, Volume);
    NamesDistinct(Volume, |f.volumes|);
    for idx := 0 to |f.volumes|
      invariant Holds(m, names, devices, idx)
    {
      var volume := f.volumes[idx];
      if volume == "/var" || volume == "/lib/modules:/lib/modules:ro" {
        HoldsSkip(m, names, devices, idx);
        continue;
      }
      HoldsNext(m, names, devices, idx);
      var hostPath, containerPath, readOnly, propagation := "", "", false, "";
      var parts := Split(volume, ':');
      if |parts| == 1 {
        hostPath, containerPath := volume, volume;
      } else if |parts| == 2 {
        hostPath, containerPath := parts[0], parts[1];
      } else if |parts| == 3 {
        hostPath, containerPath, readOnly := parts[0], parts[1], Contains(parts[2], "ro");
        if Contains(parts[2], "rslave") {
          propagation := "rslave";
        } else if Contains(parts[2], "rshared") {
          propagation := "rshared";
        }
      }
      m := m[Name(Volume, idx) := DiskDevice(hostPath, containerPath, readOnly, propagation)];
    }
  }

  /** One publish flag, as the loop body treats it. */
  method TranslateOne(flag: string) returns (r: Option<Device>)
    ensures r == Publish(flag)
  {
    var cut := Cut(ToLower(flag), '/');
    var port, protocol, found := cut.0, cut.1, cut.2;
    if !found {
      return None;
    }
    var connect, listen;
    var parts := Split(port, ':');
    if |parts| == 2 {
      listen := protocol + "::" + parts[0];
      connect := protocol + "::" + parts[1];
    } else if |parts| == 3 {
      listen := protocol + ":" + parts[0] + ":" + parts[1];
      connect := protocol + "::" + parts[2];
    } else {
      return None;
    }
    r := Some(ProxyDevice(listen, connect));
  }

  /** No publish flag is malformed. */
  predicate AllPublish(flags: seq<string>) { forall i | 0 <= i < |flags| :: Publish(flags[i]).Some? }

  lemma AllPublishMeans(f: Flags, tmpfs: bool)
    ensures AllPublish(f.publish) <==> forall i: nat | i < |f.publish| :: Has(DevicesOf(f, tmpfs, Proxy), i)
  {
    forall i: nat | i < |f.publish| ensures Has(DevicesOf(f, tmpfs, Proxy), i) <==> Publish(f.publish[i]).Some? {
      assert DevicesOf(f, tmpfs, Proxy)[i] == Publish(f.publish[i]);
    }
  }

  method TranslatePublish(f: Flags, tmpfs: bool) returns (ok: bool, m: DeviceMap)
    ensures ok <==> AllPublish(f.publish)
    ensures ok ==> Kept(m, TableOf(f, tmpfs), Proxy)
  {
    ghost var names, devices := Names(Proxy, |f.publish|), DevicesOf(f, tmpfs, Proxy);
    NamesDistinct(Proxy, |f.publish|);
    AllPublishMeans(f, tmpfs);
    ok, m := PublishLoop(f.publish, names, devices);
  }

  method PublishLoop(publish: seq<string>, ghost names: seq<string>, ghost devices: seq<Option<Device>>)
    returns (ok: bool, m: DeviceMap)
    requires |names| == |devices| == |publish| && Distinct(names)
    requires forall i | 0 <= i < |publish| :: names[i] == Name(Proxy, i) && devices[i] == Publish(publish[i])
    ensures ok <==> forall i: nat | i < |publish| :: Has(devices, i)
    ensures ok ==> Holds(m, names, devices, |publish|)
  {
    m := map[];
    for idx := 0 to |publish|
      invariant Holds(m, names, devices, idx)
      invariant forall i: nat | i < idx :: Has(devices, i)
    {
      var device := TranslateOne(publish[idx]);
      if device.None? {
        assert !Has(devices, idx);
        return false, m;
      }
      HoldsNext(m, names, devices, idx);
      m := m[Name(Proxy, idx) := device.value];
    }
    ok := true;
  }

  method TranslateTmpfs(f: Flags, tmpfs: bool) returns (m: DeviceMap)
    ensures Kept(m, TableOf(f, tmpfs), Tmpfs)
  {
    m := map[];
    ghost var names, devices := Names(Tmpfs, |f.tmpfs|), DevicesOf(f, tmpfs, Tmpfs);
    NamesDistinct(Tmpfs, |f.tmpfs|);
    if tmpfs {
      for idx := 0 to |f.tmpfs|
        invariant Holds(m, names, devices, idx)
      {
        HoldsNext(m, names, devices, idx);
        m := m[Name(Tmpfs, idx) := TmpfsDevice(f.tmpfs[idx])];
      }
    }
  }

  method TranslateDevices(f: Flags, tmpfs: bool) returns (m: DeviceMap)
    ensures Kept(m, TableOf(f, tmpfs), Unix)
  {
    m := map[];
    ghost var names, devices := Names(Unix, |f.devices|), DevicesOf(f, tmpfs, Unix);
    NamesDistinct(Unix, |f.devices|);
    for idx := 0 to |f.devices|
      invariant Holds(m, names, devices, idx)
    {
      HoldsNext(m, names, devices, idx);
      m := m[Name(Unix, idx) := UnixDevice(f.devices[idx])];
    }
  }

  /** Every flag that is to become a device is exactly one device, under its own name, and beside those there
      are exactly the devices of the image that no flag hides. */
  ghost predicate Translated(base: DeviceMap, m: DeviceMap, t: Table) {
    && (forall k: Kind, i: nat | Has(t(k), i) :: Name(k, i) in m && m[Name(k, i)] == t(k)[i].value)
    && (forall name | name in base && !FromFlag(t, name) :: name in m && m[name] == base[name])
    && (forall name | name in m && !(name in base && m[name] == base[name]) :: FromFlag(t, name))
  }

  ghost predicate FromFlag(t: Table, name: string) {
    exists k: Kind, i: nat :: Has(t(k), i) && name == Name(k, i)
  }

  /** The device part of docker run. It fails exactly when a publish flag is malformed. */
  method Run(base: DeviceMap, f: Flags, tmpfs: bool) returns (ok: bool, m: DeviceMap)
    ensures ok <==> AllPublish(f.publish)
    ensures ok ==> Translated(base, m, TableOf(f, tmpfs)) && GivesDevices(base, m, f, tmpfs)
  {
    m := base;
    var proxies;
    ok, proxies := TranslatePublish(f, tmpfs);
    if !ok {
      return;
    }
    var volumes := TranslateVolumes(f, tmpfs);
    var mounts := TranslateTmpfs(f, tmpfs);
    var units := TranslateDevices(f, tmpfs);
    MergeAll(base, proxies, volumes, mounts, units, TableOf(f, tmpfs));
    m := base + proxies + volumes + mounts + units;
    TranslatedMeans(base, m, f, tmpfs);
  }

  /** The devices by their names: a publish flag is a proxy, a volume a disk unless it is one of the two that are
      mounted otherwise, a tmpfs path a disk where the server supports it, a device a character device. A flag that
      becomes no device leaves its name to the image. */
  ghost predicate GivesDevices(base: DeviceMap, m: DeviceMap, f: Flags, tmpfs: bool) {
    && (forall i: nat | i < |f.publish| :: Lookup(m, "docker-proxy-" + Itoa(i)) == Publish(f.publish[i]))
    && (forall i: nat | i < |f.volumes| && f.volumes[i] != "/var" && f.volumes[i] != "/lib/modules:/lib/modules:ro" ::
          Lookup(m, "docker-volume-" + Itoa(i)) == Some(VolumeDevice(f.volumes[i])))
    && (tmpfs ==> forall i: nat | i < |f.tmpfs| ::
          Lookup(m, "docker-tmpfs-" + Itoa(i))
          == Some(map["type" := "disk", "path" := f.tmpfs[i], "source" := "tmpfs:"]))
    && (forall i: nat | i < |f.devices| ::
          Lookup(m, "docker-device-" + Itoa(i))
          == Some(map["type" := "unix-char", "source" := f.devices[i], "path" := f.devices[i]]))
    && (forall i: nat | i < |f.volumes| && (f.volumes[i] == "/var" || f.volumes[i] == "/lib/modules:/lib/modules:ro") ::
          Lookup(m, "docker-volume-" + Itoa(i)) == Lookup(base, "docker-volume-" + Itoa(i)))
    && (!tmpfs ==> forall i: nat :: Lookup(m, "docker-tmpfs-" + Itoa(i)) == Lookup(base, "docker-tmpfs-" + Itoa(i)))
  }

  lemma NoFlagNoDevice(base: DeviceMap, m: DeviceMap, t: Table, k: Kind, i: nat)
    requires Translated(base, m, t) && !Has(t(k), i)
    ensures Lookup(m, Name(k, i)) == Lookup(base, Name(k, i))
  {
    if FromFlag(t, Name(k, i)) {
      var l: Kind, j: nat :| Has(t(l), j) && Name(k, i) == Name(l, j);
      NamesDiffer(k, i, l, j);
    }
  }

  lemma TranslatedMeans(base: DeviceMap, m: DeviceMap, f: Flags, tmpfs: bool)
    requires Translated(base, m, TableOf(f, tmpfs)) && AllPublish(f.publish)
    ensures GivesDevices(base, m, f, tmpfs)
  {
    var t := TableOf(f, tmpfs);
    forall i: nat | i < |f.publish| ensures Lookup(m, "docker-proxy-" + Itoa(i)) == Publish(f.publish[i]) {
      assert Has(t(Proxy), i) && "docker-proxy-" + Itoa(i) == Name(Proxy, i);
    }
    forall i: nat | i < |f.volumes| && f.volumes[i] != "/var" && f.volumes[i] != "/lib/modules:/lib/modules:ro"
      ensures Lookup(m, "docker-volume-" + Itoa(i)) == Some(VolumeDevice(f.volumes[i]))
    {
      assert Has(t(Volume), i) && "docker-volume-" + Itoa(i) == Name(Volume, i);
    }
    forall i: nat | tmpfs && i < |f.tmpfs|
      ensures Lookup(m, "docker-tmpfs-" + Itoa(i))
        == Some(map["type" := "disk", "path" := f.tmpfs[i], "source" := "tmpfs:"])
    {
      assert Has(t(Tmpfs), i) && "docker-tmpfs-" + Itoa(i) == Name(Tmpfs, i);
    }
    forall i: nat | i < |f.devices|
      ensures Lookup(m, "docker-device-" + Itoa(i))
        == Some(map["type" := "unix-char", "source" := f.devices[i], "path" := f.devices[i]])
    {
      assert Has(t(Unix), i) && "docker-device-" + Itoa(i) == Name(Unix, i);
    }
    forall i: nat | i < |f.volumes| && (f.volumes[i] == "/var" || f.volumes[i] == "/lib/modules:/lib/modules:ro")
      ensures Lookup(m, "docker-volume-" + Itoa(i)) == Lookup(base, "docker-volume-" + Itoa(i))
    {
      NoFlagNoDevice(base, m, t, Volume, i);
    }
    forall i: nat | !tmpfs
      ensures Lookup(m, "docker-tmpfs-" + Itoa(i)) == Lookup(base, "docker-tmpfs-" + Itoa(i))
    {
      NoFlagNoDevice(base, m, t, Tmpfs, i);
    }
  }

  /** Translated, for the kinds merged so far. */
  ghost predicate Partly(base: DeviceMap, m: DeviceMap, t: Table, kinds: set<Kind>) {
    && (forall k: Kind, i: nat | k in kinds && Has(t(k), i) :: Name(k, i) in m && m[Name(k, i)] == t(k)[i].value)
    && (forall name | name in base && !FromFlag(t, name) :: name in m && m[name] == base[name])
    && (forall name | name in m && !(name in base && m[name] == base[name]) :: FromFlag(t, name))
  }

  lemma MergeAll(
    base: DeviceMap, proxies: DeviceMap, volumes: DeviceMap, mounts: DeviceMap,
    units: DeviceMap, t: Table)
    requires Kept(proxies, t, Proxy) && Kept(volumes, t, Volume) && Kept(mounts, t, Tmpfs) && Kept(units, t, Unix)
    ensures Translated(base, base + proxies + volumes + mounts + units, t)
  {
    AddKind(base, base, t, {}, Proxy, proxies);
    AddKind(base, base + proxies, t, {} + {Proxy}, Volume, volumes);
    AddKind(base, base + proxies + volumes, t, {} + {Proxy} + {Volume}, Tmpfs, mounts);
    AddKind(base, base + proxies + volumes + mounts, t, {} + {Proxy} + {Volume} + {Tmpfs}, Unix, units);
    AllKinds(base, base + proxies + volumes + mounts + units, t);
  }

  lemma EveryKind(k: Kind)
    ensures k in {} + {Proxy} + {Volume} + {Tmpfs} + {Unix}
  {
    match k
    case Proxy =>
    case Volume =>
    case Tmpfs =>
    case Unix =>
  }

  lemma AllKinds(base: DeviceMap, m: DeviceMap, t: Table)
    requires Partly(base, m, t, {} + {Proxy} + {Volume} + {Tmpfs} + {Unix})
    ensures Translated(base, m, t)
  {
    forall k: Kind, i: nat | Has(t(k), i) ensures Name(k, i) in m && m[Name(k, i)] == t(k)[i].value {
      EveryKind(k);
    }
  }

  lemma AddKind(base: DeviceMap, m: DeviceMap, t: Table, kinds: set<Kind>, k: Kind, more: DeviceMap)
    requires Partly(base, m, t, kinds) && k !in kinds && Kept(more, t, k)
    ensures Partly(base, m + more, t, kinds + {k})
  {
    forall l: Kind, i: nat | l in kinds + {k} && Has(t(l), i)
      ensures Name(l, i) in m + more && (m + more)[Name(l, i)] == t(l)[i].value
    {
      if l != k {
        OthersMiss(more, t, k, l, i);
      } else {
        assert Names(k, |t(k)|)[i] == Name(k, i);
      }
    }
    forall name | name in more ensures FromFlag(t, name) {
      var _ := KeptNames(more, t, k, name);
    }
  }

  lemma KeptNames(m: DeviceMap, t: Table, k: Kind, name: string) returns (i: nat)
    requires Kept(m, t, k) && name in m
    ensures Has(t(k), i) && name == Name(k, i)
  {
    assert NamedBefore(Names(k, |t(k)|), t(k), |t(k)|, name);
    i :| i < |t(k)| && Has(t(k), i) && name == Names(k, |t(k)|)[i];
  }

  lemma OthersMiss(m: DeviceMap, t: Table, k: Kind, l: Kind, i: nat)
    requires Kept(m, t, k) && k != l
    ensures Name(l, i) !in m
  {
    if Name(l, i) in m {
      var j := KeptNames(m, t, k, Name(l, i));
      NamesDiffer(l, i, k, j);
    }
  }

  // ---- inspect ---------------------------------------------------------------------------------

  function Get(d: Device, key: string): string { if key in d then d[key] else "" }

  /** A device that publishes the API server. */
  predicate PublishesApi(d: Device) {
    && Get(d, "type") == "proxy" && Get(d, "bind") == "host" && Get(d, "connect") == "tcp::6443"
    && var parts := Split(Get(d, "listen"), ':'); parts[0] == "tcp" && |parts| == 3
  }

  function Printed(d: Device): string
    requires PublishesApi(d)
  {
    var parts := Split(Get(d, "listen"), ':');
    parts[1] + "\t" + parts[2] + "\n"
  }

  ghost predicate ListensAt(d: Device, host: string, port: string) {
    && Lookup(d, "type") == Some("proxy") && Lookup(d, "bind") == Some("host")
    && Lookup(d, "connect") == Some("tcp::6443") && Lookup(d, "listen") == Some("tcp:" + host + ":" + port)
    && ':' !in host && ':' !in port
  }

  /** A device publishes the API server exactly when it is a host proxy from a TCP address to 6443, and it prints as
      the host and the port of that address. */
  lemma PublishesMeans(d: Device)
    ensures PublishesApi(d) <==> exists host, port :: ListensAt(d, host, port)
    ensures forall host, port | ListensAt(d, host, port) ::
      PublishesApi(d) && Printed(d) == host + "\t" + port + "\n"
  {
    forall host, port | ListensAt(d, host, port)
      ensures PublishesApi(d) && Printed(d) == host + "\t" + port + "\n"
    {
      assert "tcp:" + host + ":" + port == "tcp" + ":" + host + ":" + port;
      SplitThree("tcp", host, port);
    }
    if PublishesApi(d) {
      var parts := Split(Get(d, "listen"), ':');
      JoinSplit(Get(d, "listen"), ':');
      assert parts == ["tcp", parts[1], parts[2]];
      JoinThree("tcp", parts[1], parts[2]);
      assert "tcp" + ":" + parts[1] + ":" + parts[2] == "tcp:" + parts[1] + ":" + parts[2];
      assert ListensAt(d, parts[1], parts[2]);
    }
  }

  /** docker inspect of the published API server address, over the devices in any order. */
  method Inspect(devices: DeviceMap) returns (out: string)
    ensures (forall name | name in devices :: !PublishesApi(devices[name])) ==> out == ""
    ensures (exists name | name in devices :: PublishesApi(devices[name])) ==>
      exists name | name in devices :: PublishesApi(devices[name]) && out == Printed(devices[name])
  {
    out := "";
    var left := devices.Keys;
    while left != {}
      invariant left <= devices.Keys && out == ""
      invariant forall name | name in devices && name !in left :: !PublishesApi(devices[name])
    {
      var name :| name in left;
      left := left - {name};
      var device := devices[name];
      if Get(device, "type") != "proxy" || Get(device, "bind") != "host" || Get(device, "connect") != "tcp::6443" {
        continue;
      }
      var parts := Split(Get(device, "listen"), ':');
      if parts[0] != "tcp" || |parts| != 3 {
        continue;
      }
      out := parts[1] + "\t" + parts[2] + "\n";
      assert PublishesApi(devices[name]) && out == Printed(devices[name]);
      return;
    }
  }

  // ---- the round trip --------------------------------------------------------------------------

  lemma LowerPlain(s: string)
    requires PlainPart(s)
    ensures PlainPart(ToLower(s)) && |ToLower(s)| == |s|
  {
  }

  function PublishFlag(host: string, port: string, protocol: string): string {
    host + ":" + port + ":6443" + ("/" + protocol)
  }

  lemma LowerFlag(host: string, port: string, protocol: string)
    requires PlainPart(host) && PlainPart(port) && ToLower(protocol) == "tcp"
    ensures ToLower(PublishFlag(host, port, protocol)) == ToLower(host) + ":" + ToLower(port) + ":6443" + ("/" + "tcp")
  {
  }

  /** A TCP publish of a plain host and port to 6443 becomes a proxy that listens there. */
  lemma PublishedAs(host: string, port: string, protocol: string)
    requires PlainPart(host) && PlainPart(port) && ToLower(protocol) == "tcp"
    ensures Publish(PublishFlag(host, port, protocol))
      == Some(ProxyDevice("tcp" + ":" + ToLower(host) + ":" + ToLower(port), "tcp" + "::" + "6443"))
  {
    LowerFlag(host, port, protocol);
    LowerPlain(host);
    LowerPlain(port);
    assert HostForm(ToLower(PublishFlag(host, port, protocol)), ToLower(host), ToLower(port), "6443", "tcp");
    HostFormPublishes(PublishFlag(host, port, protocol), ToLower(host), ToLower(port), "6443", "tcp");
  }

  /** The proxy prints as the host and port that it was made from. */
  lemma PrintedAs(host: string, port: string)
    requires ':' !in host && ':' !in port
    ensures var d := ProxyDevice("tcp" + ":" + host + ":" + port, "tcp" + "::" + "6443");
      PublishesApi(d) && Printed(d) == host + "\t" + port + "\n"
  {
    SplitThree("tcp", host, port);
  }

  lemma SameLengths(a: string, b: string, c: string, d: string)
    requires |a| == |b| && |c| == |d| && a + "\t" + c + "\n" == b + "\t" + d + "\n"
    ensures a == b && c == d
  {
    var x, y := a + "\t" + c + "\n", b + "\t" + d + "\n";
    assert a == x[..|a|] && b == y[..|b|];
    assert c == x[|a| + 1..|x| - 1] && d == y[|b| + 1..|y| - 1];
  }

  /** Flag `k` is the only one, and no device of the image, that publishes the API server. */
  predicate OnlyPublish(base: DeviceMap, f: Flags, k: nat) {
    && (forall name | name in base :: !PublishesApi(base[name]))
    && (forall j | 0 <= j < |f.publish| && j != k :: Publish(f.publish[j]).Some? ==>
          !PublishesApi(Publish(f.publish[j]).value))
  }

  lemma OnlyOnePublishes(base: DeviceMap, m: DeviceMap, f: Flags, tmpfs: bool, k: nat, name: string)
    requires Translated(base, m, TableOf(f, tmpfs)) && OnlyPublish(base, f, k) && name in m && PublishesApi(m[name])
    ensures name == Name(Proxy, k)
  {
    var t := TableOf(f, tmpfs);
    assert FromFlag(t, name);
    var l: Kind, i: nat :| Has(t(l), i) && name == Name(l, i);
    assert m[name] == t(l)[i].value == DevicesOf(f, tmpfs, l)[i].value;
    FlagKinds(f, tmpfs, l, i);
  }

  lemma FlagKinds(f: Flags, tmpfs: bool, l: Kind, i: nat)
    requires Has(DevicesOf(f, tmpfs, l), i)
    ensures l != Proxy ==> !PublishesApi(DevicesOf(f, tmpfs, l)[i].value)
    ensures l == Proxy ==> i < |f.publish| && DevicesOf(f, tmpfs, l)[i] == Publish(f.publish[i])
  {
  }

  /** The shim undoes itself: when one TCP flag publishes a plain host and port to 6443, whatever the other
      flags, the devices of the image and the order of iteration, inspect prints that host and port in
      lower case, so exactly as given if and only if they were given in lower case. */
  method RunThenInspect(base: DeviceMap, f: Flags, tmpfs: bool, k: nat, host: string, port: string, protocol: string)
    returns (ok: bool, out: string)
    requires k < |f.publish| && f.publish[k] == PublishFlag(host, port, protocol) && OnlyPublish(base, f, k)
    requires PlainPart(host) && PlainPart(port) && ToLower(protocol) == "tcp"
    ensures ok <==> AllPublish(f.publish)
    ensures ok ==> out == ToLower(host) + "\t" + ToLower(port) + "\n"
    ensures ok ==> (out == host + "\t" + port + "\n" <==> ToLower(host) == host && ToLower(port) == port)
  {
    var m;
    ok, m := Run(base, f, tmpfs);
    if !ok {
      return ok, "";
    }
    out := Inspect(m);
    PublishedAs(host, port, protocol);
    LowerPlain(host);
    LowerPlain(port);
    PrintedAs(ToLower(host), ToLower(port));
    if out == host + "\t" + port + "\n" && out == ToLower(host) + "\t" + ToLower(port) + "\n" {
      SameLengths(ToLower(host), host, ToLower(port), port);
    }
    assert Has(TableOf(f, tmpfs)(Proxy), k);
    forall name | name in m && PublishesApi(m[name]) ensures name == Name(Proxy, k) {
      OnlyOnePublishes(base, m, f, tmpfs, k, name);
    }
  }
}
