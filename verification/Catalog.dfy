/** The simplestreams index: what one import does to it, and what holds after any number of imports.

    Models internal/exp/simplestreams/index: index.json lists the products, images.json holds them, and
    both point at content files. */
module Catalog {
  import opened Common
  import opened Order
  import opened Text
  import opened Tarball

  /** A file under the root: a directory and a base name without a slash. */
  datatype Path = Path(dir: string, base: string)

  datatype Item = Item(
    fileType: string, sha256: string, size: nat, path: Path,
    combinedDiskKvmImg: string, combinedDiskImg: string)

  type Version = map<string, Item>

  datatype Product = Product(
    architecture: string, os: string, release: string, releaseTitle: string, variant: string,
    aliases: string, versions: map<string, Version>)

  type Products = map<string, Product>

  /** The index in memory and the files on disk. */
  datatype Store = Store(
    names: seq<string>, products: Products,
    files: map<Path, Bytes>, indexJson: Option<seq<string>>, imagesJson: Option<Products>)

  const CONTAINER_INCUS := "incus_combined.tar.gz"
  const CONTAINER_LXD := "lxd_combined.tar.gz"
  const METADATA_INCUS := "incus.tar.xz"
  const METADATA_LXD := "lxd.tar.xz"
  const ROOTFS_INCUS := "disk-kvm.img"
  const ROOTFS_LXD := "disk1.img"

  const CONTAINER_SUFFIX := ".incus_combined.tar.gz"
  const METADATA_SUFFIX := ".incus.tar.xz"
  const ROOTFS_SUFFIX := ".disk-kvm.img"

  // ---- plans -----------------------------------------------------------------------------------

  /** Everything an import is going to do, computed before it changes anything. */
  datatype Plan = Plan(
    product: string, version: string,
    architecture: string, os: string, release: string, variant: string,
    aliases: seq<string>,
    items: Version,
    files: seq<(Path, Bytes)>)

  function ProductName(m: Metadata): string {
    Join([Property(m, "os"), Property(m, "release"), Property(m, "variant"), Property(m, "architecture")], ':')
  }

  function Dir(t: Tools, m: Metadata): string {
    t.imageDir(Property(m, "os"), Property(m, "release"), Property(m, "architecture"))
  }

  function BasePlan(t: Tools, m: Metadata, aliases: seq<string>): Plan {
    Plan(ProductName(m), t.formatTime(m.creationDate),
         Property(m, "architecture"), Property(m, "os"), Property(m, "release"), Property(m, "variant"),
         aliases, map[], [])
  }

  function ContainerPath(t: Tools, m: Metadata, image: Bytes): Path {
    Path(Dir(t, m), t.sha256(image) + CONTAINER_SUFFIX)
  }

  function MetadataPath(t: Tools, m: Metadata, meta: Bytes): Path { Path(Dir(t, m), t.sha256(meta) + METADATA_SUFFIX) }

  /** The rootfs file is named after the metadata, not after itself. */
  function RootfsPath(t: Tools, m: Metadata, meta: Bytes): Path { Path(Dir(t, m), t.sha256(meta) + ROOTFS_SUFFIX) }

  function ContainerItem(t: Tools, m: Metadata, image: Bytes, fileType: string): Item {
    Item(fileType, t.sha256(image), |image|, ContainerPath(t, m, image), "", "")
  }

  function ContainerPlan(t: Tools, m: Metadata, image: Bytes, aliases: seq<string>, incus: bool, lxd: bool): Plan {
    BasePlan(t, m, aliases).(
      items := (if incus then map[CONTAINER_INCUS := ContainerItem(t, m, image, CONTAINER_INCUS)] else map[])
             + (if lxd then map[CONTAINER_LXD := ContainerItem(t, m, image, CONTAINER_LXD)] else map[]),
      files := [(ContainerPath(t, m, image), image)])
  }

  function RootfsItem(t: Tools, m: Metadata, meta: Bytes, root: Bytes, fileType: string): Item {
    Item(fileType, t.sha256(root), |root|, RootfsPath(t, m, meta), "", "")
  }

  function MetadataItem(t: Tools, m: Metadata, meta: Bytes, fileType: string, kvm: string, disk: string): Item {
    Item(fileType, t.sha256(meta), |meta|, MetadataPath(t, m, meta), kvm, disk)
  }

  function IncusItems(t: Tools, m: Metadata, meta: Bytes, root: Bytes): Version {
    map[ROOTFS_INCUS := RootfsItem(t, m, meta, root, ROOTFS_INCUS),
        METADATA_INCUS := MetadataItem(t, m, meta, METADATA_INCUS, t.sha256(meta + root), "")]
  }

  function LxdItems(t: Tools, m: Metadata, meta: Bytes, root: Bytes): Version {
    map[ROOTFS_LXD := RootfsItem(t, m, meta, root, ROOTFS_LXD),
        METADATA_LXD := MetadataItem(t, m, meta, METADATA_LXD, "", t.sha256(meta + root))]
  }

  function VmPlan(t: Tools, m: Metadata, meta: Bytes, root: Bytes, aliases: seq<string>, incus: bool, lxd: bool): Plan {
    BasePlan(t, m, aliases).(
      items := (if incus then IncusItems(t, m, meta, root) else map[])
             + (if lxd then LxdItems(t, m, meta, root) else map[]),
      files := [(RootfsPath(t, m, meta), root), (MetadataPath(t, m, meta), meta)])
  }

  // ---- requests --------------------------------------------------------------------------------

  /** The metadata a container import uses: the first metadata.yaml, what follows it being unread. */
  function FirstMetadata(t: Tools, tar: Tar): Option<Metadata>
    decreases |tar.entries|
  {
    if tar.entries == [] then (if tar.complete then Some(NO_METADATA) else None)
    else if IsMetadata(tar.entries[0]) then t.unmarshal(tar.entries[0].data, NO_METADATA)
    else FirstMetadata(t, tar.(entries := tar.entries[1..]))
  }

  /** An import of an image file: its bytes, the aliases and the two server flags. */
  datatype Request = Request(vm: bool, image: Bytes, aliases: seq<string>, incus: bool, lxd: bool)

  /** What an import of this file is going to do, or None when it is refused before changing anything. */
  function PlanOf(t: Tools, r: Request): Option<Plan> {
    if r.vm then VmRequest(t, t.untar(r.image), r) else ContainerRequest(t, t.untar(r.image), r)
  }

  function ContainerRequest(t: Tools, tar: Tar, r: Request): Option<Plan> {
    var m := FirstMetadata(t, tar);
    if m.None? || m.value.architecture == "" then None
    else Some(ContainerPlan(t, m.value, r.image, r.aliases, r.incus, r.lxd))
  }

  function VmRequest(t: Tools, tar: Tar, r: Request): Option<Plan> {
    var u := Unpack(t, tar.entries);
    if u.None? || !tar.complete then None
    else
      var meta := t.archive(u.value.kept);
      if meta == [] || u.value.rootfs == [] || u.value.metadata.architecture == "" then None
      else Some(VmPlan(t, u.value.metadata, meta, u.value.rootfs, r.aliases, r.incus, r.lxd))
  }

  // ---- carrying a plan out ---------------------------------------------------------------------

  function Listed(names: seq<string>, product: string): seq<string> {
    if product in names then names else Sort(names + [product])
  }

  function BaseProduct(products: Products, p: Plan): Product {
    if p.product in products then products[p.product]
    else Product(p.architecture, p.os, p.release, p.release, p.variant, "", map[])
  }

  function VersionOf(product: Product, version: string): Version {
    if version in product.versions then product.versions[version] else map[]
  }

  function NewProduct(products: Products, p: Plan): Product {
    var base := BaseProduct(products, p);
    var named := if p.aliases != [] then base.(aliases := Join(p.aliases, ',')) else base;
    named.(versions := named.versions[p.version := VersionOf(base, p.version) + p.items])
  }

  function WriteFiles(files: map<Path, Bytes>, writes: seq<(Path, Bytes)>): map<Path, Bytes> {
    if writes == [] then files
    else WriteFiles(files, writes[..|writes| - 1])[writes[|writes| - 1].0 := writes[|writes| - 1].1]
  }

  function Min(a: nat, b: nat): nat { if a < b then a else b }

  /** The store after `done` of the writes of an import: the content files, then index.json, then
      images.json. The index in memory is updated before the first write. */
  function After(s: Store, p: Plan, done: nat): Store {
    var names := Listed(s.names, p.product);
    var products := s.products[p.product := NewProduct(s.products, p)];
    Store(names, products,
          WriteFiles(s.files, p.files[..Min(done, |p.files|)]),
          if done > |p.files| then Some(names) else s.indexJson,
          if done > |p.files| + 1 then Some(products) else s.imagesJson)
  }

  function Import(s: Store, p: Plan): Store { After(s, p, |p.files| + 2) }

  /** Reopening the index reads both files again. */
  function Reload(s: Store): Store {
    s.(names := if s.indexJson.Some? then s.indexJson.value else [],
       products := if s.imagesJson.Some? then s.imagesJson.value else map[])
  }

  const EMPTY := Store([], map[], map[], None, None)

  // ---- interruption ----------------------------------------------------------------------------

  predicate Paths(products: Products, files: map<Path, Bytes>) {
    forall n, v, k | n in products && v in products[n].versions && k in products[n].versions[v] ::
      products[n].versions[v][k].path in files
  }

  /** Every product of images.json is listed once in a sorted index.json, and every path that images.json
      mentions is on disk. */
  predicate Consistent(names: seq<string>, products: Products, files: map<Path, Bytes>) {
    && Sorted(names) && Distinct(names)
    && (forall n | n in products :: n in names)
    && Paths(products, files)
  }

  predicate DiskConsistent(s: Store) { var r := Reload(s); Consistent(r.names, r.products, r.files) }

  lemma ListedKeeps(names: seq<string>, product: string)
    requires Sorted(names) && Distinct(names)
    ensures Sorted(Listed(names, product)) && Distinct(Listed(names, product))
    ensures forall n :: n in Listed(names, product) <==> n in names || n == product
  {
    if product !in names {
      var all := names + [product];
      SortSorts(all);
      forall n ensures n in Sort(all) <==> n in all {
        assert n in Sort(all) <==> n in multiset(Sort(all));
        assert n in all <==> n in multiset(all);
      }
      forall n ensures multiset(all)[n] <= 1 { DistinctCounts(all, n); }
      CountsDistinct(Sort(all));
    }
  }

  lemma {:induction false} DistinctCounts(names: seq<string>, n: string)
    requires Distinct(names)
    ensures multiset(names)[n] <= 1
  {
    if names != [] {
      var init, last := names[..|names| - 1], names[|names| - 1];
      assert names == init + [last];
      DistinctCounts(init, n);
      if n == last {
        assert n !in init;
        assert n !in multiset(init);
      }
    }
  }

  lemma TwiceCounts(names: seq<string>, i: nat, j: nat)
    requires i < j < |names| && names[i] == names[j]
    ensures multiset(names)[names[i]] >= 2
  {
    assert names == names[..j] + [names[j]] + names[j + 1..];
    assert names[..j][i] in multiset(names[..j]);
  }

  lemma CountsDistinct(names: seq<string>)
    requires forall n :: multiset(names)[n] <= 1
    ensures Distinct(names)
  {
    forall i, j | 0 <= i < j < |names| ensures names[i] != names[j] {
      if names[i] == names[j] {
        TwiceCounts(names, i, j);
      }
    }
  }

  lemma {:induction false} WriteFilesGrows(files: map<Path, Bytes>, writes: seq<(Path, Bytes)>)
    ensures files.Keys <= WriteFiles(files, writes).Keys
    ensures forall w | w in writes :: w.0 in WriteFiles(files, writes)
    ensures forall p | p in WriteFiles(files, writes) && (forall w | w in writes :: w.0 != p) ::
      p in files && WriteFiles(files, writes)[p] == files[p]
  {
    if writes != [] {
      WriteFilesGrows(files, writes[..|writes| - 1]);
      assert writes == writes[..|writes| - 1] + [writes[|writes| - 1]];
    }
  }

  /** Every path that a plan's items mention is among its writes. */
  predicate WritesItsPaths(p: Plan) {
    forall k | k in p.items :: exists i | 0 <= i < |p.files| :: p.files[i].0 == p.items[k].path
  }

  lemma NewPathsWritten(s: Store, p: Plan)
    requires WritesItsPaths(p) && Paths(s.products, s.files)
    ensures Paths(s.products[p.product := NewProduct(s.products, p)], WriteFiles(s.files, p.files))
  {
    WriteFilesGrows(s.files, p.files);
    var products := s.products[p.product := NewProduct(s.products, p)];
    forall n, v, k | n in products && v in products[n].versions && k in products[n].versions[v]
      ensures products[n].versions[v][k].path in WriteFiles(s.files, p.files)
    {
      if n == p.product && v == p.version && k in p.items {
        var i :| 0 <= i < |p.files| && p.files[i].0 == p.items[k].path;
        assert p.files[i] in p.files;
      }
    }
  }

  /** Stopping an import after any number of writes and reopening keeps the disk consistent. */
  lemma StopKeepsConsistent(s: Store, p: Plan, done: nat)
    requires DiskConsistent(s) && WritesItsPaths(p)
    ensures DiskConsistent(After(Reload(s), p, done))
  {
    var r := Reload(s);
    var t := After(r, p, done);
    ListedKeeps(r.names, p.product);
    WriteFilesGrows(r.files, p.files[..Min(done, |p.files|)]);
    if done > |p.files| {
      assert p.files[..Min(done, |p.files|)] == p.files;
      NewPathsWritten(r, p);
    }
  }

  /** A history of imports, each stopped after some number of writes (or run to its end), the index being
      reopened before each. */
  function History(s: Store, runs: seq<(Plan, nat)>): Store {
    if runs == [] then s
    else After(Reload(History(s, runs[..|runs| - 1])), runs[|runs| - 1].0, runs[|runs| - 1].1)
  }

  /** However often imports are interrupted, every product of images.json stays listed once in a sorted
      index.json and every path of images.json stays on disk. */
  lemma {:induction false} InterruptionsKeepConsistent(runs: seq<(Plan, nat)>)
    requires forall r | r in runs :: WritesItsPaths(r.0)
    ensures DiskConsistent(History(EMPTY, runs))
  {
    if runs != [] {
      InterruptionsKeepConsistent(runs[..|runs| - 1]);
      assert runs[|runs| - 1] in runs;
      StopKeepsConsistent(History(EMPTY, runs[..|runs| - 1]), runs[|runs| - 1].0, runs[|runs| - 1].1);
    }
  }

  lemma PlansWriteTheirPaths(
    t: Tools, m: Metadata, meta: Bytes, root: Bytes, aliases: seq<string>, incus: bool, lxd: bool)
    ensures WritesItsPaths(ContainerPlan(t, m, root, aliases, incus, lxd))
    ensures WritesItsPaths(VmPlan(t, m, meta, root, aliases, incus, lxd))
  {
    var c := ContainerPlan(t, m, root, aliases, incus, lxd);
    forall k | k in c.items ensures exists i | 0 <= i < |c.files| :: c.files[i].0 == c.items[k].path {
      assert c.files[0].0 == c.items[k].path;
    }
    var v := VmPlan(t, m, meta, root, aliases, incus, lxd);
    forall k | k in v.items ensures exists i | 0 <= i < |v.files| :: v.files[i].0 == v.items[k].path {
      assert v.files[0].0 == v.items[k].path || v.files[1].0 == v.items[k].path;
    }
  }

  /** The plan of every accepted request is one that interruptions cannot hurt. */
  lemma RequestsWriteTheirPaths(t: Tools, r: Request)
    ensures PlanOf(t, r).Some? ==> WritesItsPaths(PlanOf(t, r).value)
  {
    if PlanOf(t, r).Some? {
      if r.vm {
        var u := Unpack(t, t.untar(r.image).entries).value;
        PlansWriteTheirPaths(t, u.metadata, t.archive(u.kept), u.rootfs, r.aliases, r.incus, r.lxd);
      } else {
        PlansWriteTheirPaths(t, FirstMetadata(t, t.untar(r.image)).value, [], r.image, r.aliases, r.incus, r.lxd);
      }
    }
  }
}
