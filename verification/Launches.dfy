/** The launches that drive the builder: the options of kubeadm and kind instances, the labels of the instances
    of a cluster, and the launch of a kind machine from end to end. Every launch reuses the shared default
    profiles. */
module Launches {
  import opened Common
  import opened Labels
  import opened LaunchOptions
  import Launch
  import Rewriting = Replacements

  /** A default profile; its maps belong to the package and outlive every launch. */
  datatype Profile = Profile(config: Table?, devices: Nested?)

  datatype Defaults = Defaults(
    kubeadm: Profile, kubeadmUnprivileged: Profile, lxdKubeadmUnprivileged: Profile,
    kind: Profile, kindUnprivileged: Profile)

  function DefaultKubeadmProfile(d: Defaults, privileged: bool, serverName: string): Profile {
    if privileged then d.kubeadm
    else if serverName == "lxd" then d.lxdKubeadmUnprivileged
    else d.kubeadmUnprivileged
  }

  function DefaultKindProfile(d: Defaults, privileged: bool): Profile {
    if privileged then d.kind else d.kindUnprivileged
  }

  const ENTRYPOINT := "/usr/local/bin/entrypoint"
  const CNI := "/kind/manifests/default-cni.yaml"

  /** The static files that run cloud-init in a kind instance. */
  datatype Seed = Seed(metaData: string, userData: string, service: string, script: string)

  // ---- pieces of a launch ----------------------------------------------------------------------

  method Begin(instanceType: string, image: Image) returns (o: Options)
    requires !image.Image?
    ensures fresh(o) && o.Valid() && o.Owned() == {null}
    ensures o.Value() == EMPTY.(instanceType := instanceType, image := image)
  {
    o := new Options();
    o.WithInstanceType(instanceType);
    o.WithImage(image);
  }

  method ApplyTemplates(o: Options, entries: map<string, string>)
    requires o.Valid()
    modifies o`templates, o.templates
    ensures o.Valid() && (o.templates == old(o.templates) || fresh(o.templates))
    ensures var v := old(o.Value()); o.Value() == v.(templates := v.templates + entries)
  {
    var templates := new Table(entries);
    o.WithInstanceTemplates(templates);
  }

  method ApplyConfig(o: Options, entries: map<string, string>)
    requires o.Valid()
    modifies o`config, o.config
    ensures o.Valid() && (o.config == old(o.config) || fresh(o.config))
    ensures var v := old(o.Value()); o.Value() == v.(config := v.config + entries)
  {
    var config := new Table(entries);
    o.WithConfig(config);
  }

  /** The default profile, unless it is skipped. */
  method ApplyProfile(o: Options, skip: bool, profile: Profile)
    requires o.Valid()
    modifies o`config, o`devices, o.config, o.devices
    ensures o.Valid()
    ensures (o.config == old(o.config) || fresh(o.config)) && (o.devices == old(o.devices) || fresh(o.devices))
    ensures var v := old(o.Value()); o.Value() == v.(
      config := v.config + (if skip then map[] else old(Flat(profile.config))),
      devices := v.devices + if skip then map[] else old(Outer(profile.devices)))
  {
    PlusNothing(Flat(o.config));
    PlusNothing(Outer(o.devices));
    if !skip {
      o.WithConfig(profile.config);
      o.WithDevices(profile.devices);
    }
  }

  /** A map of one entry makes one symlink. */
  method ApplyLink(o: Options, path: string, target: string)
    requires o.Valid()
    modifies o`createFiles
    ensures var v := old(o.Value());
      o.Valid() && o.Value() == v.(createFiles := v.createFiles + [Symlink(path, target)])
  {
    var links := new Table(map[path := target]);
    ghost var ops := o.WithFiles(Linking, links);
    OneEntry(ops, Linking, path, target);
  }

  lemma OneEntry(ops: seq<FileOp>, kind: FileKind, path: string, value: string)
    requires Enumerates(ops, kind, map[path := value])
    ensures ops == [OpOf(kind, path, value)]
  {
    assert |map[path := value]| == 1 && path in map[path := value];
  }

  method ApplyReplacements(o: Options, path: string, replacer: Table)
    requires o.Valid()
    modifies o`replacements, o.replacements
    ensures o.Valid() && (o.replacements == old(o.replacements) || fresh(o.replacements))
    ensures var v := old(o.Value()); o.Value() == v.(replacements := v.replacements + map[path := replacer])
  {
    var replacements := new Nested(map[path := replacer]);
    o.WithReplacements(replacements);
  }

  // ---- kubeadm ---------------------------------------------------------------------------------

  /** The template with the install script, unless it is skipped. */
  method ApplyScript(o: Options, skip: bool, script: string)
    requires o.Valid() && o.templates == null
    modifies o`templates
    ensures o.Valid() && (o.templates == null || fresh(o.templates))
    ensures var v := old(o.Value()); o.Value() == v.(
      templates := if skip then map[] else map["/opt/cluster-api/install-kubeadm.sh" := script])
  {
    PlusNothing(map["/opt/cluster-api/install-kubeadm.sh" := script]);
    if !skip {
      ApplyTemplates(o, map["/opt/cluster-api/install-kubeadm.sh" := script]);
    }
  }

  /** The cloud-init data, if there are any. */
  method ApplyUserData(o: Options, cloudInit: string)
    requires o.Valid() && o.config == null
    modifies o`config
    ensures o.Valid() && (o.config == null || fresh(o.config))
    ensures var v := old(o.Value()); o.Value() == v.(
      config := if cloudInit == "" then map[] else map["cloud-init.user-data" := cloudInit])
  {
    PlusNothing(map["cloud-init.user-data" := cloudInit]);
    if |cloudInit| > 0 {
      ApplyConfig(o, map["cloud-init.user-data" := cloudInit]);
    }
  }

  /** KubeadmLaunchOptions: a container gets the default profile, which wins over the cloud-init data. */
  method KubeadmLaunchOptions(
    d: Defaults, instanceType: string, version: string, privileged: bool, skipProfile: bool, skipScript: bool,
    serverName: string, cloudInit: string, script: string) returns (o: Options)
    ensures fresh(o) && o.Valid() && forall x | x in o.Owned() && x != null :: fresh(x)
    ensures
      var profile :=
        if privileged then d.kubeadm
        else if serverName == "lxd" then d.lxdKubeadmUnprivileged
        else d.kubeadmUnprivileged;
      var skip := instanceType != "container" || skipProfile;
      o.Value() == EMPTY.(
        instanceType := instanceType, image := Family("kubeadm/" + version),
        templates := if skipScript then map[] else map["/opt/cluster-api/install-kubeadm.sh" := script],
        config := (if cloudInit == "" then map[] else map["cloud-init.user-data" := cloudInit])
          + (if skip then map[] else old(Flat(profile.config))),
        devices := if skip then map[] else old(Outer(profile.devices)))
  {
    o := Begin(instanceType, Family("kubeadm/" + version));
    ApplyScript(o, skipScript, script);
    ApplyUserData(o, cloudInit);
    var profile := DefaultKubeadmProfile(d, privileged, serverName);
    PlusNothing(Outer(profile.devices));
    ApplyProfile(o, instanceType != "container" || skipProfile, profile);
  }

  // ---- kind ------------------------------------------------------------------------------------

  /** The templates that run cloud-init in a kind instance. */
  function KindTemplate(path: string, cloudInit: string, aptInstall: bool, parsed: Option<string>, seed: Seed)
    : Option<string>
  {
    if cloudInit == "" then None
    else if path == "/hack/cloud-init.json" && !aptInstall then parsed
    else if path == "/hack/cloud-init.py" then Some(seed.script)
    else if path == "/etc/systemd/system/cloud-init-launch.service" then Some(seed.service)
    else if path == "/var/lib/cloud/seed/nocloud-net/user-data" then Some(seed.userData)
    else if path == "/var/lib/cloud/seed/nocloud-net/meta-data" then Some(seed.metaData)
    else None
  }

  /** The entrypoint is made the init process, and the service that runs cloud-init is enabled. */
  function KindLink(i: nat): FileOp {
    if i == 0 then Symlink("/init", "/usr/local/bin/entrypoint")
    else Symlink("/etc/systemd/system/multi-user.target.wants/cloud-init-launch.service",
                 "/etc/systemd/system/cloud-init-launch.service")
  }

  ghost predicate HasTemplates(
    templates: Config, cloudInit: string, aptInstall: bool, parsed: Option<string>, seed: Seed)
  {
    forall path :: Lookup(templates, path) == KindTemplate(path, cloudInit, aptInstall, parsed, seed)
  }

  ghost predicate HasLinks(files: seq<FileOp>, cloudInit: string) {
    |files| == (if cloudInit == "" then 1 else 2) && forall i | 0 <= i < |files| :: files[i] == KindLink(i)
  }

  /** The entrypoint replacements and the symlink that makes it the init process. */
  method BeginKind(version: string) returns (o: Options, entrypoint: Table)
    ensures fresh(o) && o.Valid() && o.Owned() == {null, o.replacements} && fresh(o.replacements)
    ensures fresh(entrypoint) && entrypoint.entries == Rewriting.KindEntrypoint()
    ensures o.Value() == EMPTY.(
      instanceType := "container", image := Family("kindest/node:" + version),
      replacements := map[ENTRYPOINT := entrypoint], createFiles := o.createFiles)
    ensures HasLinks(o.createFiles, "")
  {
    o := Begin("container", Family("kindest/node:" + version));
    entrypoint := new Table(Rewriting.KindEntrypoint());
    PlusNothing(map[ENTRYPOINT := entrypoint]);
    ApplyReplacements(o, ENTRYPOINT, entrypoint);
    assert ENTRYPOINT in Outer(o.replacements) && o.replacements != null;
    ApplyLink(o, "/init", "/usr/local/bin/entrypoint");
  }

  /** Cloud-init that is run by hand is parsed first. */
  method ApplyParsed(o: Options, aptInstall: bool, parsed: Option<string>) returns (ok: bool)
    requires o.Valid()
    modifies o`templates, o.templates
    ensures ok <==> aptInstall || parsed.Some?
    ensures o.Valid() && (o.templates == old(o.templates) || fresh(o.templates))
    ensures ok ==> var v := old(o.Value()); o.Value() == v.(
      templates := v.templates + if aptInstall then map[] else map["/hack/cloud-init.json" := parsed.value])
  {
    ok := aptInstall || parsed.Some?;
    PlusNothing(Flat(o.templates));
    if !aptInstall && parsed.Some? {
      ApplyTemplates(o, map["/hack/cloud-init.json" := parsed.value]);
    }
  }

  function SeedFiles(seed: Seed): Config {
    map["/var/lib/cloud/seed/nocloud-net/meta-data" := seed.metaData,
        "/var/lib/cloud/seed/nocloud-net/user-data" := seed.userData,
        "/etc/systemd/system/cloud-init-launch.service" := seed.service,
        "/hack/cloud-init.py" := seed.script]
  }

  lemma SeedIsComplete(cloudInit: string, aptInstall: bool, parsed: Option<string>, seed: Seed)
    requires cloudInit != "" && (aptInstall || parsed.Some?)
    ensures HasTemplates(
      SeedFiles(seed) + (if aptInstall then map[] else map["/hack/cloud-init.json" := parsed.value]),
      cloudInit, aptInstall, parsed, seed)
  {
  }

  method ApplySeed(o: Options, cloudInit: string, aptInstall: bool, parsed: Option<string>, seed: Seed)
    returns (ok: bool)
    requires o.Valid() && cloudInit != "" && o.templates == null
    modifies o`templates
    ensures ok <==> aptInstall || parsed.Some?
    ensures o.Valid() && (o.templates == null || fresh(o.templates))
    ensures ok ==> HasTemplates(Flat(o.templates), cloudInit, aptInstall, parsed, seed)
    ensures ok ==> o.Value() == old(o.Value()).(templates := Flat(o.templates))
  {
    PlusNothing(SeedFiles(seed));
    ApplyTemplates(o, SeedFiles(seed));
    ok := ApplyParsed(o, aptInstall, parsed);
    if ok {
      SeedIsComplete(cloudInit, aptInstall, parsed, seed);
    }
  }

  /** What a kind instance needs to run cloud-init; it fails when that is to be run by hand and does not parse. */
  method ApplyCloudInit(o: Options, cloudInit: string, aptInstall: bool, parsed: Option<string>, seed: Seed)
    returns (ok: bool)
    requires o.Valid() && cloudInit != "" && o.config == null && o.templates == null && HasLinks(o.createFiles, "")
    modifies o`config, o`templates, o`createFiles
    ensures ok <==> aptInstall || parsed.Some?
    ensures o.Valid() && (o.config == null || fresh(o.config)) && (o.templates == null || fresh(o.templates))
    ensures ok ==> HasTemplates(Flat(o.templates), cloudInit, aptInstall, parsed, seed)
    ensures ok ==> var v := old(o.Value()); o.Value() == v.(
      config := map["cloud-init.user-data" := cloudInit], templates := Flat(o.templates), createFiles := o.createFiles)
    ensures HasLinks(o.createFiles, cloudInit)
  {
    ApplyUserData(o, cloudInit);
    ApplyLink(o, "/etc/systemd/system/multi-user.target.wants/cloud-init-launch.service",
              "/etc/systemd/system/cloud-init-launch.service");
    ok := ApplySeed(o, cloudInit, aptInstall, parsed, seed);
  }

  method KindWithCloudInit(version: string, cloudInit: string, aptInstall: bool, parsed: Option<string>, seed: Seed)
    returns (ok: bool, o: Options, entrypoint: Table)
    ensures ok <==> cloudInit == "" || aptInstall || parsed.Some?
    ensures fresh(o) && o.Valid() && forall x | x in o.Owned() && x != null :: fresh(x)
    ensures fresh(entrypoint) && entrypoint !in o.Owned() && entrypoint.entries == Rewriting.KindEntrypoint()
    ensures ok ==> HasLinks(o.createFiles, cloudInit)
    ensures ok ==> HasTemplates(Flat(o.templates), cloudInit, aptInstall, parsed, seed)
    ensures ok ==> o.Value() == EMPTY.(
      instanceType := "container", image := Family("kindest/node:" + version),
      replacements := map[ENTRYPOINT := entrypoint], createFiles := o.createFiles,
      templates := Flat(o.templates),
      config := if cloudInit == "" then map[] else map["cloud-init.user-data" := cloudInit])
  {
    o, entrypoint := BeginKind(version);
    if |cloudInit| == 0 {
      return true, o, entrypoint;
    }
    ok := ApplyCloudInit(o, cloudInit, aptInstall, parsed, seed);
  }

  function PodSubnet(podNetwork: string): Config { map["{{ .PodSubnet }}" := podNetwork] }

  /** The pod network replacement is idempotent too: a network starts with a digit and has no brace. */
  lemma PodSubnetIsIdempotent(contents: string, podNetwork: string)
    requires podNetwork != "" && '0' <= podNetwork[0] <= '9' && '{' !in podNetwork
    ensures var p := "{{ .PodSubnet }}"; var once := Rewriting.ReplaceAll(contents, p, podNetwork);
      PodSubnet(podNetwork) == map[p := podNetwork] && Rewriting.ReplaceAll(once, p, podNetwork) == once
  {
    Rewriting.SingleIsIdempotent(contents, "{{ .PodSubnet }}", podNetwork);
  }

  /** The replacements of a kind instance, as values. */
  function KindReplacements(podNetwork: string): map<string, Rewriting.Replacer> {
    map[ENTRYPOINT := Rewriting.KindEntrypoint()]
    + if |podNetwork| > 0 then map[CNI := PodSubnet(podNetwork)] else map[]
  }

  method ApplySubnet(o: Options, podNetwork: string, subnet: Table)
    requires o.Valid()
    modifies o`replacements, o.replacements
    ensures o.Valid() && (o.replacements == old(o.replacements) || fresh(o.replacements))
    ensures var v := old(o.Value()); o.Value() == v.(
      replacements := v.replacements + if |podNetwork| > 0 then map[CNI := subnet] else map[])
  {
    PlusNothing(Outer(o.replacements));
    if |podNetwork| > 0 {
      ApplyReplacements(o, CNI, subnet);
    }
  }

  method KindWithSubnet(
    version: string, podNetwork: string, cloudInit: string, aptInstall: bool, parsed: Option<string>, seed: Seed)
    returns (ok: bool, o: Options, entrypoint: Table, subnet: Table)
    ensures ok <==> cloudInit == "" || aptInstall || parsed.Some?
    ensures fresh(o) && o.Valid() && forall x | x in o.Owned() && x != null :: fresh(x)
    ensures fresh(entrypoint) && entrypoint !in o.Owned() && entrypoint.entries == Rewriting.KindEntrypoint()
    ensures fresh(subnet) && subnet !in o.Owned() && subnet.entries == PodSubnet(podNetwork)
    ensures ok ==> HasLinks(o.createFiles, cloudInit)
    ensures ok ==> HasTemplates(Flat(o.templates), cloudInit, aptInstall, parsed, seed)
    ensures ok ==> o.Value() == EMPTY.(
      instanceType := "container", image := Family("kindest/node:" + version),
      createFiles := o.createFiles, templates := Flat(o.templates),
      replacements := map[ENTRYPOINT := entrypoint] + (if |podNetwork| > 0 then map[CNI := subnet] else map[]),
      config := if cloudInit == "" then map[] else map["cloud-init.user-data" := cloudInit])
  {
    subnet := new Table(PodSubnet(podNetwork));
    ok, o, entrypoint := KindWithCloudInit(version, cloudInit, aptInstall, parsed, seed);
    if !ok {
      return;
    }
    ApplySubnet(o, podNetwork, subnet);
  }

  /** KindLaunchOptions. It fails exactly when cloud-init is to be run by hand and does not parse. The nested
      maps of the replacements are ones that no builder call writes to. */
  method KindLaunchOptions(
    d: Defaults, version: string, privileged: bool, skipProfile: bool, podNetwork: string,
    cloudInit: string, aptInstall: bool, parsed: Option<string>, seed: Seed)
    returns (ok: bool, o: Options, entrypoint: Table, subnet: Table)
    ensures ok <==> cloudInit == "" || aptInstall || parsed.Some?
    ensures fresh(o) && o.Valid() && forall x | x in o.Owned() && x != null :: fresh(x)
    ensures fresh(entrypoint) && entrypoint !in o.Owned() && entrypoint.entries == Rewriting.KindEntrypoint()
    ensures fresh(subnet) && subnet !in o.Owned() && subnet.entries == PodSubnet(podNetwork)
    ensures ok ==> HasLinks(o.createFiles, cloudInit)
    ensures ok ==> HasTemplates(Flat(o.templates), cloudInit, aptInstall, parsed, seed)
    ensures ok ==>
      var profile := if privileged then d.kind else d.kindUnprivileged;
      o.Value() == EMPTY.(
        instanceType := "container", image := Family("kindest/node:" + version),
        createFiles := o.createFiles, templates := Flat(o.templates),
        replacements := map[ENTRYPOINT := entrypoint] + (if |podNetwork| > 0 then map[CNI := subnet] else map[]),
        config := (if cloudInit == "" then map[] else map["cloud-init.user-data" := cloudInit])
          + (if skipProfile then map[] else old(Flat(profile.config))),
        devices := if skipProfile then map[] else old(Outer(profile.devices)))
  {
    ok, o, entrypoint, subnet := KindWithSubnet(version, podNetwork, cloudInit, aptInstall, parsed, seed);
    if !ok {
      return;
    }
    assert o.devices in o.Owned() && o.config in o.Owned();
    var profile := DefaultKindProfile(d, privileged);
    PlusNothing(Outer(profile.devices));
    ApplyProfile(o, skipProfile, profile);
  }

  // ---- the machine -----------------------------------------------------------------------------

  /** What the spec of a machine and its cluster ask for. */
  datatype MachineSpec = MachineSpec(
    flavor: string, profiles: seq<string>, devices: Nested?, user: Table?, image: Image,
    clusterName: string, namespace: string, machine: string, controlPlane: bool, templates: Table?)

  function LabelsOf(m: MachineSpec): Config {
    MachineLabels(m.clusterName, m.namespace, m.machine, Role(m.controlPlane))
  }

  /** Of every control plane filter, the configuration passes exactly that of its own cluster if it belongs to
      a control plane machine, and none otherwise. */
  ghost predicate PassesOwnFilter(config: Config, m: MachineSpec) {
    forall name, ns ::
      Passes(ControlPlaneFilter(name, ns), config) <==> m.controlPlane && name == m.clusterName && ns == m.namespace
  }

  lemma LabelsDecide(base: Config, m: MachineSpec)
    ensures PassesOwnFilter(base + LabelsOf(m), m)
    ensures LabelsOf(m)
      == map["user.cluster-name" := m.clusterName, "user.cluster-namespace" := m.namespace,
             "user.machine-name" := m.machine,
             "user.cluster-role" := if m.controlPlane then "control-plane" else "worker"]
  {
    forall name, ns
      ensures Passes(ControlPlaneFilter(name, ns), base + LabelsOf(m))
        <==> m.controlPlane && name == m.clusterName && ns == m.namespace
    {
      MachineInstancePasses(base, m.clusterName, m.namespace, m.machine, m.controlPlane, name, ns);
    }
  }

  method ApplyPlain(o: Options, m: MachineSpec)
    requires o.Valid()
    modifies o`flavor, o`profiles, o`image
    ensures var v := old(o.Value()); o.Valid() && o.Value() == v.(
      flavor := m.flavor, profiles := v.profiles + m.profiles,
      image := if m.image.Image? && m.image.alias == "" && m.image.fingerprint == "" then v.image else m.image)
  {
    o.WithFlavor(m.flavor);
    o.WithProfiles(m.profiles);
    o.WithImage(m.image);
  }

  /** What the machine's spec sets beside the configuration. */
  method ApplySpec(o: Options, m: MachineSpec)
    requires o.Valid()
    modifies o`flavor, o`profiles, o`devices, o`image, o.devices
    ensures o.Valid() && (o.devices == old(o.devices) || fresh(o.devices))
    ensures var v := old(o.Value()); o.Value() == v.(
      flavor := m.flavor, profiles := v.profiles + m.profiles, devices := v.devices + old(Outer(m.devices)),
      image := if m.image.Image? && m.image.alias == "" && m.image.fingerprint == "" then v.image else m.image)
  {
    ApplyPlain(o, m);
    o.WithDevices(m.devices);
  }

  /** The user's configuration and then the labels. */
  method ApplyLabels(o: Options, user: Table?, labels: Config)
    requires o.Valid()
    modifies o`config, o.config
    ensures o.Valid() && (o.config == old(o.config) || fresh(o.config))
    ensures var v := old(o.Value()); o.Value() == v.(config := v.config + old(Flat(user)) + labels)
  {
    o.WithConfig(user);
    ApplyConfig(o, labels);
  }

  /** The templates of the load balancer, for a control plane machine. */
  method ApplyControlPlane(o: Options, m: MachineSpec)
    requires o.Valid()
    modifies o`templates, o.templates
    ensures o.Valid() && (o.templates == old(o.templates) || fresh(o.templates))
    ensures var v := old(o.Value()); o.Value() == v.(
      templates := v.templates + if m.controlPlane then Flat(m.templates) else map[])
  {
    PlusNothing(Flat(o.templates));
    if m.controlPlane {
      o.WithInstanceTemplates(m.templates);
    }
  }

  /** What launchInstance and launchKindInstance add to the options of the image: the labels win over the
      user's configuration, which wins over all before it, and so do the devices and templates of the machine.
      An image with neither alias nor fingerprint leaves the image before it. */
  method ForMachine(o: Options, m: MachineSpec)
    requires o.Valid()
    modifies o`flavor, o`profiles, o`devices, o`config, o`image, o`templates, o.devices, o.config, o.templates
    ensures o.Valid() && (o.config == old(o.config) || fresh(o.config))
    ensures (o.devices == old(o.devices) || fresh(o.devices)) && (o.templates == old(o.templates) || fresh(o.templates))
    ensures var v := old(o.Value()); o.Value() == v.(
      flavor := m.flavor, profiles := v.profiles + m.profiles,
      devices := v.devices + old(Outer(m.devices)),
      image := if m.image.Image? && m.image.alias == "" && m.image.fingerprint == "" then v.image else m.image,
      config := v.config + old(Flat(m.user)) + LabelsOf(m),
      templates := v.templates + if m.controlPlane then Flat(m.templates) else map[])
    ensures PassesOwnFilter(Flat(o.config), m)
  {
    ghost var base := Flat(o.config) + Flat(m.user);
    ApplySpec(o, m);
    ApplyLabels(o, m.user, LabelsOf(m));
    ApplyControlPlane(o, m);
    LabelsDecide(base, m);
  }

  // ---- whole launches --------------------------------------------------------------------------

  /** The options that launchInstance hands to the server. Nothing that existed before is modified, the shared
      profile and the user's maps included, so later launches start from the same profile. */
  method KubeadmMachine(
    d: Defaults, instanceType: string, version: string, privileged: bool, skipProfile: bool, skipScript: bool,
    serverName: string, cloudInit: string, script: string, m: MachineSpec) returns (o: Options)
    ensures fresh(o) && o.Valid()
    ensures
      var profile :=
        if privileged then d.kubeadm
        else if serverName == "lxd" then d.lxdKubeadmUnprivileged
        else d.kubeadmUnprivileged;
      var skip := instanceType != "container" || skipProfile;
      o.Value() == EMPTY.(
        instanceType := instanceType, flavor := m.flavor, profiles := m.profiles,
        image := if m.image.Image? && m.image.alias == "" && m.image.fingerprint == "" then Family("kubeadm/" + version)
                 else m.image,
        templates := (if skipScript then map[] else map["/opt/cluster-api/install-kubeadm.sh" := script])
          + (if m.controlPlane then Flat(m.templates) else map[]),
        config := (if cloudInit == "" then map[] else map["cloud-init.user-data" := cloudInit])
          + (if skip then map[] else old(Flat(profile.config))) + old(Flat(m.user)) + LabelsOf(m),
        devices := (if skip then map[] else old(Outer(profile.devices))) + old(Outer(m.devices)))
    ensures PassesOwnFilter(Flat(o.config), m)
  {
    o := KubeadmLaunchOptions(
      d, instanceType, version, privileged, skipProfile, skipScript, serverName, cloudInit, script);
    assert o.devices in o.Owned() && o.config in o.Owned() && o.templates in o.Owned();
    ForMachine(o, m);
  }

  /** The options that launchKindInstance hands to the server, with exactly the replacements of kind. */
  method KindMachine(
    d: Defaults, version: string, privileged: bool, skipProfile: bool, podNetwork: string,
    cloudInit: string, aptInstall: bool, parsed: Option<string>, seed: Seed, m: MachineSpec)
    returns (ok: bool, o: Options, entrypoint: Table, subnet: Table, ghost base: Config)
    ensures ok <==> cloudInit == "" || aptInstall || parsed.Some?
    ensures fresh(o) && o.Valid() && fresh(entrypoint) && fresh(subnet)
    ensures ok ==> HasLinks(o.createFiles, cloudInit)
    ensures ok ==> HasTemplates(base, cloudInit, aptInstall, parsed, seed)
    ensures ok ==>
      var profile := if privileged then d.kind else d.kindUnprivileged;
      o.Value() == EMPTY.(
        instanceType := "container", flavor := m.flavor, profiles := m.profiles,
        image := if m.image.Image? && m.image.alias == "" && m.image.fingerprint == ""
                 then Family("kindest/node:" + version) else m.image,
        createFiles := o.createFiles,
        replacements := map[ENTRYPOINT := entrypoint] + (if |podNetwork| > 0 then map[CNI := subnet] else map[]),
        templates := base + (if m.controlPlane then Flat(m.templates) else map[]),
        config := (if cloudInit == "" then map[] else map["cloud-init.user-data" := cloudInit])
          + (if skipProfile then map[] else old(Flat(profile.config))) + old(Flat(m.user)) + LabelsOf(m),
        devices := (if skipProfile then map[] else old(Outer(profile.devices))) + old(Outer(m.devices)))
    ensures ok ==> PassesOwnFilter(Flat(o.config), m)
    ensures entrypoint.entries == Rewriting.KindEntrypoint() && subnet.entries == PodSubnet(podNetwork)
  {
    ok, o, entrypoint, subnet := KindLaunchOptions(
      d, version, privileged, skipProfile, podNetwork, cloudInit, aptInstall, parsed, seed);
    base := Flat(o.templates);
    if !ok {
      return;
    }
    assert o.devices in o.Owned() && o.config in o.Owned() && o.templates in o.Owned();
    ForMachine(o, m);
  }

  /** The contents of nested maps. */
  ghost function DeepOf(outer: map<string, Table>): map<string, Config>
    reads outer.Values
  {
    map name | name in outer :: outer[name].entries
  }

  ghost function Deep(t: Nested?): map<string, Config>
    reads t, Outer(t).Values
  {
    DeepOf(Outer(t))
  }

  lemma DeepKind(o: Options, podNetwork: string, entrypoint: Table, subnet: Table)
    requires Outer(o.replacements)
      == map[ENTRYPOINT := entrypoint] + (if |podNetwork| > 0 then map[CNI := subnet] else map[])
    requires entrypoint.entries == Rewriting.KindEntrypoint() && subnet.entries == PodSubnet(podNetwork)
    ensures Deep(o.replacements) == KindReplacements(podNetwork)
  {
    assert ENTRYPOINT[1] == 'u' && CNI[1] == 'k';
    var deep := Deep(o.replacements);
    assert deep.Keys == Outer(o.replacements).Keys == KindReplacements(podNetwork).Keys;
    assert deep[ENTRYPOINT] == entrypoint.entries && (|podNetwork| > 0 ==> deep[CNI] == subnet.entries);
  }

  /** Every template and every file operation has succeeded. */
  ghost predicate Provisioned(sent: seq<Launch.Event>, templates: Config, files: seq<FileOp>) {
    && (forall path | path in templates :: Launch.Event(Launch.Template(path, templates[path]), true) in sent)
    && (forall op | op in files :: Launch.Event(Launch.File(op), true) in sent)
  }

  ghost predicate CreatesWith(sent: seq<Launch.Event>, post: Launch.Post) {
    forall e | e in sent && e.request.Create? :: e.request.post == post
  }

  /** The launch of an instance with the replacements of kind. */
  method LaunchKind(
    launcher: Launch.Launcher, post: Launch.Post, templates: Config, files: seq<FileOp>,
    replacements: map<string, Rewriting.Replacer>, podNetwork: string)
    returns (r: Result<seq<string>>, ghost sent: seq<Launch.Event>)
    requires replacements == KindReplacements(podNetwork)
    modifies launcher
    ensures launcher.log == old(launcher.log) + sent && (r.Success? ==> Launch.Answered(launcher.server.polls, r.value))
    ensures Launch.Willing(launcher.server) ==> r.Success?
    ensures CreatesWith(sent, post) && StartsRewritten(launcher.server, sent)
    ensures r.Success? && !launcher.server.present ==> Provisioned(sent, templates, files)
  {
    ghost var head, t, f, p, last;
    r, head, t, f, p, last := launcher.WaitForLaunchInstance(post, templates, files, replacements);
    sent := head + (t + f + p) + last;
    OneCreate(post, head, t + f + p, last);
    if last != [] && !launcher.server.present {
      StartIsRewritten(launcher.server, podNetwork, head, t, f, p, last);
    }
    if r.Success? && !launcher.server.present {
      AllProvisioned(templates, files, head, t, f, p, last);
    }
  }

  lemma OneCreate(post: Launch.Post, head: seq<Launch.Event>, middle: seq<Launch.Event>, last: seq<Launch.Event>)
    requires (forall e | e in head :: e.request == Launch.Create(post)) && (forall e | e in last :: e.request.Start?)
    requires forall e | e in middle :: !e.request.Create? && !e.request.Start?
    ensures CreatesWith(head + middle + last, post)
    ensures last == [] ==> forall e | e in head + middle + last :: !e.request.Start?
  {
  }

  lemma StartIsRewritten(
    server: Launch.Server, podNetwork: string, head: seq<Launch.Event>, t: seq<Launch.Event>, f: seq<Launch.Event>,
    p: seq<Launch.Event>, last: seq<Launch.Event>)
    requires last == [Launch.Event(Launch.Start, server.start)]
    requires forall path | path in KindReplacements(podNetwork) ::
      Launch.Replaced(server, p, path, KindReplacements(podNetwork)[path])
    ensures StartsRewritten(server, head + (t + f + p) + last)
  {
    var sent := head + (t + f + p) + last;
    assert sent[..|sent| - 1] == head + (t + f + p);
    EntrypointRewritten(server, podNetwork, p, sent[..|sent| - 1]);
  }

  /** Unless the instance was there already, a start request comes last, and before it the entrypoint was
      rewritten. */
  ghost predicate StartsRewritten(server: Launch.Server, sent: seq<Launch.Event>) {
    var start := Launch.Event(Launch.Start, server.start);
    start in sent && !server.present ==>
      && sent[|sent| - 1] == start
      && server.read(ENTRYPOINT).Some? && Rewritten(server.read(ENTRYPOINT).value, sent[..|sent| - 1])
  }

  /** The templates added for the load balancer win over those that run cloud-init. */
  function KindMachineTemplate(
    path: string, added: Config, cloudInit: string, aptInstall: bool, parsed: Option<string>, seed: Seed)
    : Option<string>
  {
    if path in added then Some(added[path]) else KindTemplate(path, cloudInit, aptInstall, parsed, seed)
  }

  /** The template, if there is to be one, was created. */
  ghost predicate Creates(sent: seq<Launch.Event>, path: string, template: Option<string>) {
    template.Some? ==> Launch.Event(Launch.Template(path, template.value), true) in sent
  }

  /** Every template and symlink of a kind instance was created. */
  ghost predicate KindProvisioned(
    sent: seq<Launch.Event>, added: Config, cloudInit: string, aptInstall: bool, parsed: Option<string>, seed: Seed)
  {
    && (forall path :: Creates(sent, path, KindMachineTemplate(path, added, cloudInit, aptInstall, parsed, seed)))
    && forall i | 0 <= i < (if cloudInit == "" then 1 else 2) :: Launch.Event(Launch.File(KindLink(i)), true) in sent
  }

  type Values = map<string, Config>

  /** What the create request of a kind machine asks for, given what the profile and the user's maps hold. */
  predicate KindPost(
    post: Launch.Post, profile: Config, profileDevices: Values, user: Config, devices: Values, version: string,
    cloudInit: string, m: MachineSpec)
  {
    && post.flavor == m.flavor && post.profiles == m.profiles && post.instanceType == "container"
    && post.image
       == (if m.image.Image? && m.image.alias == "" && m.image.fingerprint == "" then Family("kindest/node:" + version)
           else m.image)
    && post.config
       == (if cloudInit == "" then map[] else map["cloud-init.user-data" := cloudInit]) + profile + user + LabelsOf(m)
    && post.devices == profileDevices + devices
  }

  lemma DeepSum(a: map<string, Table>, b: map<string, Table>)
    ensures DeepOf(a + b) == DeepOf(a) + DeepOf(b)
  {
  }

  /** The finished options of a kind machine, as values. */
  method KindValues(o: Options, podNetwork: string, entrypoint: Table, subnet: Table)
    returns (post: Launch.Post, templates: Config, replacements: map<string, Rewriting.Replacer>)
    requires Outer(o.replacements)
      == map[ENTRYPOINT := entrypoint] + (if |podNetwork| > 0 then map[CNI := subnet] else map[])
    requires entrypoint.entries == Rewriting.KindEntrypoint() && subnet.entries == PodSubnet(podNetwork)
    ensures post == Launch.Post(Flat(o.config), Deep(o.devices), o.profiles, o.image, o.instanceType, o.flavor)
    ensures templates == Flat(o.templates) && replacements == KindReplacements(podNetwork)
  {
    var config := if o.config == null then map[] else o.config.entries;
    var devices := ValuesOf(o.devices);
    post := Launch.Post(config, devices, o.profiles, o.image, o.instanceType, o.flavor);
    templates := if o.templates == null then map[] else o.templates.entries;
    replacements := ValuesOf(o.replacements);
    DeepKind(o, podNetwork, entrypoint, subnet);
  }

  /** What the launch of a kind machine asks the server for. */
  method KindRequests(
    d: Defaults, version: string, privileged: bool, skipProfile: bool, podNetwork: string,
    cloudInit: string, aptInstall: bool, parsed: Option<string>, seed: Seed, m: MachineSpec)
    returns (ok: bool, post: Launch.Post, templates: Config, files: seq<FileOp>,
             replacements: map<string, Rewriting.Replacer>, ghost base: Config)
    ensures ok <==> cloudInit == "" || aptInstall || parsed.Some?
    ensures ok ==>
      var profile := if privileged then d.kind else d.kindUnprivileged;
      KindPost(post, if skipProfile then map[] else old(Flat(profile.config)),
               if skipProfile then map[] else old(Deep(profile.devices)), old(Flat(m.user)), old(Deep(m.devices)),
               version, cloudInit, m)
    ensures ok ==> PassesOwnFilter(post.config, m) && replacements == KindReplacements(podNetwork)
    ensures ok ==> templates == base + (if m.controlPlane then Flat(m.templates) else map[])
    ensures ok ==> HasTemplates(base, cloudInit, aptInstall, parsed, seed) && HasLinks(files, cloudInit)
  {
    ghost var profile := if privileged then d.kind else d.kindUnprivileged;
    ghost var outer := (if skipProfile then map[] else Outer(profile.devices)) + Outer(m.devices);
    ghost var deep := DeepOf(outer);
    DeepSum(if skipProfile then map[] else Outer(profile.devices), Outer(m.devices));
    var o, entrypoint, subnet;
    ok, o, entrypoint, subnet, base := KindMachine(
      d, version, privileged, skipProfile, podNetwork, cloudInit, aptInstall, parsed, seed, m);
    files := o.createFiles;
    if ok {
      post, templates, replacements := KindValues(o, podNetwork, entrypoint, subnet);
      assert Outer(o.devices) == outer && DeepOf(outer) == deep;
    } else {
      post, templates, replacements := Launch.Post(map[], map[], [], NoImage, "", ""), map[], map[];
    }
  }

  /** A kind machine from its spec to its start: a start request is sent only after the entrypoint was rewritten
      with the replacements of kind made all at once, or needed no change, and a create request carries a
      configuration that passes exactly the filter of its own cluster. */
  method LaunchKindMachine(
    launcher: Launch.Launcher, d: Defaults, version: string, privileged: bool, skipProfile: bool, podNetwork: string,
    cloudInit: string, aptInstall: bool, parsed: Option<string>, seed: Seed, m: MachineSpec)
    returns (r: Result<seq<string>>, ghost sent: seq<Launch.Event>)
    modifies launcher
    ensures launcher.log == old(launcher.log) + sent && StartsRewritten(launcher.server, sent)
    ensures forall e | e in sent && e.request.Create? ::
      var profile := if privileged then d.kind else d.kindUnprivileged;
      && PassesOwnFilter(e.request.post.config, m)
      && KindPost(e.request.post, if skipProfile then map[] else old(Flat(profile.config)),
                  if skipProfile then map[] else old(Deep(profile.devices)), old(Flat(m.user)), old(Deep(m.devices)),
                  version, cloudInit, m)
    ensures r.Success? ==> Launch.Answered(launcher.server.polls, r.value)
    ensures r.Success? && !launcher.server.present ==>
      KindProvisioned(
        sent, if m.controlPlane then Flat(m.templates) else map[], cloudInit, aptInstall, parsed, seed)
    ensures Launch.Willing(launcher.server) && (cloudInit == "" || aptInstall || parsed.Some?) ==> r.Success?
  {
    var ok, post, templates, files, replacements, base := KindRequests(
      d, version, privileged, skipProfile, podNetwork, cloudInit, aptInstall, parsed, seed, m);
    if !ok {
      return Failure, [];
    }
    r, sent := LaunchKind(launcher, post, templates, files, replacements, podNetwork);
    if r.Success? && !launcher.server.present {
      KindIsProvisioned(
        sent, base, if m.controlPlane then Flat(m.templates) else map[], files, cloudInit, aptInstall, parsed, seed);
    }
  }

  lemma AllProvisioned(
    templates: Config, files: seq<FileOp>, head: seq<Launch.Event>, t: seq<Launch.Event>, f: seq<Launch.Event>,
    p: seq<Launch.Event>, last: seq<Launch.Event>)
    requires Launch.Templated(t, templates) && f == Launch.Filed(files)
    ensures Provisioned(head + (t + f + p) + last, templates, files)
  {
    var sent := head + (t + f + p) + last;
    forall path | path in templates ensures Launch.Event(Launch.Template(path, templates[path]), true) in sent {
      assert Launch.Event(Launch.Template(path, templates[path]), true) in t;
    }
    forall op | op in files ensures Launch.Event(Launch.File(op), true) in sent {
      var i :| 0 <= i < |files| && files[i] == op;
      assert f[i] == Launch.Event(Launch.File(op), true);
    }
  }

  lemma KindIsProvisioned(
    sent: seq<Launch.Event>, base: Config, added: Config, files: seq<FileOp>, cloudInit: string, aptInstall: bool,
    parsed: Option<string>, seed: Seed)
    requires Provisioned(sent, base + added, files) && HasLinks(files, cloudInit)
    requires HasTemplates(base, cloudInit, aptInstall, parsed, seed)
    ensures KindProvisioned(sent, added, cloudInit, aptInstall, parsed, seed)
  {
    forall path ensures Creates(sent, path, KindMachineTemplate(path, added, cloudInit, aptInstall, parsed, seed)) {
      assert Lookup(base, path) == KindTemplate(path, cloudInit, aptInstall, parsed, seed);
      assert path in base + added <==> path in base || path in added;
    }
    forall i | 0 <= i < |files| ensures Launch.Event(Launch.File(KindLink(i)), true) in sent {
      assert files[i] in files;
    }
  }

  /** The entrypoint holds, or was overwritten with, the text of all its replacements. */
  ghost predicate Rewritten(contents: string, sent: seq<Launch.Event>) {
    Rewriting.Marked(Rewriting.KindEntrypoint()) &&
    var text := Rewriting.Simultaneous(Rewriting.KindEntrypoint(), contents);
    text == contents || Launch.Event(Launch.Overwrite(ENTRYPOINT, text), true) in sent
  }

  lemma EntrypointRewritten(server: Launch.Server, podNetwork: string, p: seq<Launch.Event>, sent: seq<Launch.Event>)
    requires forall path | path in KindReplacements(podNetwork) ::
      Launch.Replaced(server, p, path, KindReplacements(podNetwork)[path])
    requires forall e | e in p :: e in sent
    ensures server.read(ENTRYPOINT).Some? && Rewritten(server.read(ENTRYPOINT).value, sent)
  {
    assert ENTRYPOINT[1] == 'u' && CNI[1] == 'k';
    assert KindReplacements(podNetwork)[ENTRYPOINT] == Rewriting.KindEntrypoint();
    Rewriting.KindEntrypointMarked();
    Launch.ReplacedMeans(server, p, ENTRYPOINT, Rewriting.KindEntrypoint());
  }

  method ValuesOf(t: Nested?) returns (r: map<string, Config>)
    ensures r == Deep(t)
  {
    r := if t == null then map[] else map path | path in t.entries :: t.entries[path].entries;
  }
}
