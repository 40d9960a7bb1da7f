/** Every item of the index agrees with the file it names. */
module Agreement {
  import opened Common
  import opened Tarball
  import opened Catalog

  // ---- the property ----------------------------------------------------------------------------

  predicate ItemAgrees(t: Tools, files: map<Path, Bytes>, it: Item) {
    it.path in files && it.size == |files[it.path]| && it.sha256 == t.sha256(files[it.path])
  }

  /** The combined hash of a metadata item covers the metadata file followed by the rootfs file. */
  predicate CombinedAgrees(t: Tools, files: map<Path, Bytes>, v: Version) {
    && (METADATA_INCUS in v ==>
          && ROOTFS_INCUS in v && v[METADATA_INCUS].path in files && v[ROOTFS_INCUS].path in files
          && v[METADATA_INCUS].combinedDiskKvmImg
             == t.sha256(files[v[METADATA_INCUS].path] + files[v[ROOTFS_INCUS].path]))
    && (METADATA_LXD in v ==>
          && ROOTFS_LXD in v && v[METADATA_LXD].path in files && v[ROOTFS_LXD].path in files
          && v[METADATA_LXD].combinedDiskImg
             == t.sha256(files[v[METADATA_LXD].path] + files[v[ROOTFS_LXD].path]))
  }

  predicate VersionAgrees(t: Tools, files: map<Path, Bytes>, v: Version) {
    (forall k | k in v :: ItemAgrees(t, files, v[k])) && CombinedAgrees(t, files, v)
  }

  predicate Agrees(t: Tools, products: Products, files: map<Path, Bytes>) {
    forall n, ver | n in products && ver in products[n].versions ::
      VersionAgrees(t, files, products[n].versions[ver])
  }

  // ---- where items come from -------------------------------------------------------------------

  /** A metadata item and its rootfs come from one list of kept entries, whose metadata gives the
      product, the version and both paths. */
  ghost predicate Sourced(t: Tools, n: string, ver: string, meta: Item, root: Item) {
    exists kept: seq<Entry> :: SourcedFrom(t, n, ver, meta, root, kept)
  }

  ghost predicate SourcedFrom(t: Tools, n: string, ver: string, meta: Item, root: Item, kept: seq<Entry>) {
    var m := MetadataOf(t, kept);
    var archive := t.archive(kept);
    && m.Some? && n == ProductName(m.value) && ver == t.formatTime(m.value.creationDate)
    && meta.sha256 == t.sha256(archive)
    && meta.path == MetadataPath(t, m.value, archive)
    && root.path == RootfsPath(t, m.value, archive)
  }

  ghost predicate VersionSourced(t: Tools, n: string, ver: string, v: Version) {
    && v.Keys <= {CONTAINER_INCUS, CONTAINER_LXD, METADATA_INCUS, METADATA_LXD, ROOTFS_INCUS, ROOTFS_LXD}
    && (forall k | k in v && k in {CONTAINER_INCUS, CONTAINER_LXD} :: v[k].path.base == v[k].sha256 + CONTAINER_SUFFIX)
    && (METADATA_INCUS in v <==> ROOTFS_INCUS in v)
    && (METADATA_INCUS in v ==> Sourced(t, n, ver, v[METADATA_INCUS], v[ROOTFS_INCUS]))
    && (METADATA_LXD in v <==> ROOTFS_LXD in v)
    && (METADATA_LXD in v ==> Sourced(t, n, ver, v[METADATA_LXD], v[ROOTFS_LXD]))
  }

  ghost predicate AllSourced(t: Tools, products: Products) {
    forall n, ver | n in products && ver in products[n].versions ::
      VersionSourced(t, n, ver, products[n].versions[ver])
  }

  // ---- names of files --------------------------------------------------------------------------

  /** The three suffixes differ in their last character but one. */
  lemma SuffixKinds(a: string, b: string)
    ensures a + CONTAINER_SUFFIX != b + METADATA_SUFFIX
    ensures a + CONTAINER_SUFFIX != b + ROOTFS_SUFFIX
    ensures a + METADATA_SUFFIX != b + ROOTFS_SUFFIX
  {
    var c, m, r := CONTAINER_SUFFIX, METADATA_SUFFIX, ROOTFS_SUFFIX;
    assert (a + c)[|a + c| - 2] == c[|c| - 2] == 'g';
    assert (b + m)[|b + m| - 2] == m[|m| - 2] == 'x';
    assert (a + m)[|a + m| - 2] == m[|m| - 2] == 'x';
    assert (b + r)[|b + r| - 2] == r[|r| - 2] == 'm';
  }

  lemma SameStem(a: string, b: string, suffix: string)
    requires a + suffix == b + suffix
    ensures a == b
  {
    assert a == (a + suffix)[..|a + suffix| - |suffix|];
    assert b == (b + suffix)[..|b + suffix| - |suffix|];
  }

  // ---- a write that changes nothing an item depends on -----------------------------------------

  /** Files at the paths of a version are the same before and after. */
  predicate Untouched(v: Version, before: map<Path, Bytes>, after: map<Path, Bytes>) {
    forall k | k in v :: Lookup(after, v[k].path) == Lookup(before, v[k].path)
  }

  lemma UntouchedAgrees(t: Tools, v: Version, before: map<Path, Bytes>, after: map<Path, Bytes>)
    requires Untouched(v, before, after)
    ensures VersionAgrees(t, before, v) ==> VersionAgrees(t, after, v)
  {
  }

  /** A file named after its own hash is only ever rewritten with the bytes it has. */
  lemma OwnNameRewrites(t: Tools, files: map<Path, Bytes>, it: Item, image: Bytes)
    requires Injective(t) && ItemAgrees(t, files, it) && it.sha256 == t.sha256(image)
    ensures files[it.path] == image
  {
  }

  // ---- container imports -----------------------------------------------------------------------

  lemma ContainerLeavesOthers(
    t: Tools, n: string, ver: string, v: Version, files: map<Path, Bytes>, dir: string, image: Bytes)
    requires Injective(t) && VersionSourced(t, n, ver, v) && VersionAgrees(t, files, v)
    ensures Untouched(v, files, files[Path(dir, t.sha256(image) + CONTAINER_SUFFIX) := image])
  {
    var path := Path(dir, t.sha256(image) + CONTAINER_SUFFIX);
    forall k | k in v ensures Lookup(files[path := image], v[k].path) == Lookup(files, v[k].path) {
      assert ItemAgrees(t, files, v[k]);
      if v[k].path == path {
        ContainerPathMeans(t, n, ver, v, k, image);
        OwnNameRewrites(t, files, v[k], image);
      }
    }
  }

  lemma ContainerPathMeans(t: Tools, n: string, ver: string, v: Version, k: string, image: Bytes)
    requires VersionSourced(t, n, ver, v) && k in v && v[k].path.base == t.sha256(image) + CONTAINER_SUFFIX
    ensures v[k].sha256 == t.sha256(image)
  {
    if k in {CONTAINER_INCUS, CONTAINER_LXD} {
      SameStem(v[k].sha256, t.sha256(image), CONTAINER_SUFFIX);
    } else {
      VmPathsMean(t, n, ver, v, k);
      var kept :| VmBase(t, v[k], kept);
      SuffixKinds(t.sha256(image), t.sha256(t.archive(kept)));
    }
  }

  ghost predicate VmBase(t: Tools, it: Item, kept: seq<Entry>) {
    || it.path.base == t.sha256(t.archive(kept)) + METADATA_SUFFIX
    || it.path.base == t.sha256(t.archive(kept)) + ROOTFS_SUFFIX
  }

  lemma VmPathsMean(t: Tools, n: string, ver: string, v: Version, k: string)
    requires VersionSourced(t, n, ver, v) && k in v && k !in {CONTAINER_INCUS, CONTAINER_LXD}
    ensures exists kept :: VmBase(t, v[k], kept)
  {
    if k in {METADATA_INCUS, ROOTFS_INCUS} {
      var kept :| SourcedFrom(t, n, ver, v[METADATA_INCUS], v[ROOTFS_INCUS], kept);
      assert VmBase(t, v[k], kept);
    } else {
      var kept :| SourcedFrom(t, n, ver, v[METADATA_LXD], v[ROOTFS_LXD], kept);
      assert VmBase(t, v[k], kept);
    }
  }

  // ---- virtual machine imports -----------------------------------------------------------------

  /** An item at the path of a metadata archive is a metadata item of that very archive. */
  lemma MetadataPathMeans(t: Tools, n: string, ver: string, v: Version, k: string, kept: seq<Entry>)
    requires Injective(t) && VersionSourced(t, n, ver, v) && k in v
    requires v[k].path.base == t.sha256(t.archive(kept)) + METADATA_SUFFIX
    ensures v[k].sha256 == t.sha256(t.archive(kept))
  {
    var stem := t.sha256(t.archive(kept));
    if k in {CONTAINER_INCUS, CONTAINER_LXD} {
      SuffixKinds(v[k].sha256, stem);
    } else {
      var meta, root := PairOf(t, n, ver, v, k);
      var from :| SourcedFrom(t, n, ver, meta, root, from);
      if v[k] == meta {
        SameStem(t.sha256(t.archive(from)), stem, METADATA_SUFFIX);
      } else {
        SuffixKinds(stem, t.sha256(t.archive(from)));
      }
    }
  }

  /** An item at the path of a rootfs is a rootfs of the product and version that the metadata archive
      names: equal metadata forces equal product and version. */
  lemma RootfsPathMeans(t: Tools, n: string, ver: string, v: Version, k: string, kept: seq<Entry>)
    requires Injective(t) && VersionSourced(t, n, ver, v) && k in v
    requires v[k].path.base == t.sha256(t.archive(kept)) + ROOTFS_SUFFIX
    ensures k in {ROOTFS_INCUS, ROOTFS_LXD} && MetadataOf(t, kept).Some?
    ensures n == ProductName(MetadataOf(t, kept).value)
    ensures ver == t.formatTime(MetadataOf(t, kept).value.creationDate)
  {
    var stem := t.sha256(t.archive(kept));
    if k in {CONTAINER_INCUS, CONTAINER_LXD} {
      SuffixKinds(v[k].sha256, stem);
    } else {
      var meta, root := PairOf(t, n, ver, v, k);
      var from :| SourcedFrom(t, n, ver, meta, root, from);
      SuffixKinds(t.sha256(t.archive(from)), stem);
      SuffixKinds(stem, t.sha256(t.archive(from)));
      SuffixKinds(t.sha256(t.archive(from)), stem);
      SameStem(t.sha256(t.archive(from)), stem, ROOTFS_SUFFIX);
    }
  }

  lemma PairOf(t: Tools, n: string, ver: string, v: Version, k: string) returns (meta: Item, root: Item)
    requires VersionSourced(t, n, ver, v) && k in v && k !in {CONTAINER_INCUS, CONTAINER_LXD}
    ensures Sourced(t, n, ver, meta, root)
    ensures k in {METADATA_INCUS, METADATA_LXD} ==> v[k] == meta
    ensures k in {ROOTFS_INCUS, ROOTFS_LXD} ==> v[k] == root
    ensures k in {METADATA_INCUS, METADATA_LXD, ROOTFS_INCUS, ROOTFS_LXD}
  {
    if k in {METADATA_INCUS, ROOTFS_INCUS} {
      meta, root := v[METADATA_INCUS], v[ROOTFS_INCUS];
    } else {
      meta, root := v[METADATA_LXD], v[ROOTFS_LXD];
    }
  }

  function VmFiles(t: Tools, files: map<Path, Bytes>, m: Metadata, meta: Bytes, root: Bytes): map<Path, Bytes> {
    files[RootfsPath(t, m, meta) := root][MetadataPath(t, m, meta) := meta]
  }

  /** A VM import leaves a version alone unless a rootfs item with another hash sits at its path. */
  lemma VmLeavesOthers(
    t: Tools, n: string, ver: string, v: Version, files: map<Path, Bytes>, kept: seq<Entry>, root: Bytes)
    requires Injective(t) && VersionSourced(t, n, ver, v) && MetadataOf(t, kept).Some?
    requires forall k | k in v :: ItemAgrees(t, files, v[k])
    requires forall k | k in v :: v[k].path == RootfsPath(t, MetadataOf(t, kept).value, t.archive(kept)) ==>
      v[k].sha256 == t.sha256(root)
    ensures Untouched(v, files, VmFiles(t, files, MetadataOf(t, kept).value, t.archive(kept), root))
  {
    var m, meta := MetadataOf(t, kept).value, t.archive(kept);
    var after := VmFiles(t, files, m, meta, root);
    forall k | k in v ensures Lookup(after, v[k].path) == Lookup(files, v[k].path) {
      SuffixKinds(t.sha256(meta), t.sha256(meta));
      assert ItemAgrees(t, files, v[k]);
      if v[k].path == RootfsPath(t, m, meta) {
        OwnNameRewrites(t, files, v[k], root);
      } else if v[k].path == MetadataPath(t, m, meta) {
        MetadataPathMeans(t, n, ver, v, k, kept);
        OwnNameRewrites(t, files, v[k], meta);
      }
    }
  }

  // ---- one version under an import -------------------------------------------------------------

  function Rest(v: Version, items: Version): Version { map k | k in v && k !in items :: v[k] }

  /** Metadata and rootfs items come in pairs. */
  predicate Paired(v: Version) {
    (METADATA_INCUS in v <==> ROOTFS_INCUS in v) && (METADATA_LXD in v <==> ROOTFS_LXD in v)
  }

  lemma SplitAgrees(t: Tools, files: map<Path, Bytes>, v: Version, items: Version)
    requires Paired(v) && Paired(items)
    ensures VersionAgrees(t, files, v + items) <==>
      VersionAgrees(t, files, items) && VersionAgrees(t, files, Rest(v, items))
  {
    var all, rest := v + items, Rest(v, items);
    assert forall k :: k in all <==> k in items || k in rest;
    assert forall k | k in items :: all[k] == items[k];
    assert forall k | k in rest :: all[k] == rest[k];
  }

  lemma SplitSourced(t: Tools, n: string, ver: string, v: Version, items: Version)
    requires VersionSourced(t, n, ver, v) && VersionSourced(t, n, ver, items)
    ensures VersionSourced(t, n, ver, v + items)
  {
  }

  lemma RestSourced(t: Tools, n: string, ver: string, v: Version, items: Version)
    requires VersionSourced(t, n, ver, v) && Paired(items)
    ensures VersionSourced(t, n, ver, Rest(v, items))
  {
  }

  lemma RestAgrees(t: Tools, files: map<Path, Bytes>, v: Version, items: Version)
    requires VersionAgrees(t, files, v) && Paired(v) && Paired(items)
    ensures VersionAgrees(t, files, Rest(v, items))
  {
  }

  // ---- the items of a plan ---------------------------------------------------------------------

  lemma ContainerItemsGood(
    t: Tools, m: Metadata, image: Bytes, aliases: seq<string>, incus: bool, lxd: bool, files: map<Path, Bytes>)
    ensures var p := ContainerPlan(t, m, image, aliases, incus, lxd);
      && VersionSourced(t, p.product, p.version, p.items)
      && VersionAgrees(t, files[ContainerPath(t, m, image) := image], p.items)
      && WriteFiles(files, p.files) == files[ContainerPath(t, m, image) := image]
  {
  }

  lemma IncusItemsGood(t: Tools, kept: seq<Entry>, root: Bytes, files: map<Path, Bytes>)
    requires MetadataOf(t, kept).Some?
    ensures var m, meta := MetadataOf(t, kept).value, t.archive(kept);
      && VersionSourced(t, ProductName(m), t.formatTime(m.creationDate), IncusItems(t, m, meta, root))
      && VersionAgrees(t, VmFiles(t, files, m, meta, root), IncusItems(t, m, meta, root))
  {
    var m, meta := MetadataOf(t, kept).value, t.archive(kept);
    var v, after := IncusItems(t, m, meta, root), VmFiles(t, files, m, meta, root);
    SuffixKinds(t.sha256(meta), t.sha256(meta));
    assert v.Keys == {ROOTFS_INCUS, METADATA_INCUS};
    assert after[RootfsPath(t, m, meta)] == root && after[MetadataPath(t, m, meta)] == meta;
    assert SourcedFrom(t, ProductName(m), t.formatTime(m.creationDate), v[METADATA_INCUS], v[ROOTFS_INCUS], kept);
  }

  lemma LxdItemsGood(t: Tools, kept: seq<Entry>, root: Bytes, files: map<Path, Bytes>)
    requires MetadataOf(t, kept).Some?
    ensures var m, meta := MetadataOf(t, kept).value, t.archive(kept);
      && VersionSourced(t, ProductName(m), t.formatTime(m.creationDate), LxdItems(t, m, meta, root))
      && VersionAgrees(t, VmFiles(t, files, m, meta, root), LxdItems(t, m, meta, root))
  {
    var m, meta := MetadataOf(t, kept).value, t.archive(kept);
    var v, after := LxdItems(t, m, meta, root), VmFiles(t, files, m, meta, root);
    SuffixKinds(t.sha256(meta), t.sha256(meta));
    assert v.Keys == {ROOTFS_LXD, METADATA_LXD};
    assert after[RootfsPath(t, m, meta)] == root && after[MetadataPath(t, m, meta)] == meta;
    assert SourcedFrom(t, ProductName(m), t.formatTime(m.creationDate), v[METADATA_LXD], v[ROOTFS_LXD], kept);
  }

  lemma VmWrites(
    t: Tools, m: Metadata, meta: Bytes, root: Bytes, aliases: seq<string>, incus: bool, lxd: bool,
    files: map<Path, Bytes>)
    ensures WriteFiles(files, VmPlan(t, m, meta, root, aliases, incus, lxd).files) == VmFiles(t, files, m, meta, root)
  {
    var w := VmPlan(t, m, meta, root, aliases, incus, lxd).files;
    assert w[..1] == [w[0]] && [w[0]][..0] == [];
    assert WriteFiles(files, []) == files;
    assert WriteFiles(files, [w[0]]) == files[w[0].0 := w[0].1];
  }

  lemma VmItemsGood(
    t: Tools, kept: seq<Entry>, root: Bytes, aliases: seq<string>, incus: bool, lxd: bool, files: map<Path, Bytes>)
    requires MetadataOf(t, kept).Some?
    ensures var m, meta := MetadataOf(t, kept).value, t.archive(kept);
      var p := VmPlan(t, m, meta, root, aliases, incus, lxd);
      && VersionSourced(t, p.product, p.version, p.items)
      && VersionAgrees(t, VmFiles(t, files, m, meta, root), p.items)
  {
    var m, meta := MetadataOf(t, kept).value, t.archive(kept);
    var after := VmFiles(t, files, m, meta, root);
    IncusItemsGood(t, kept, root, files);
    LxdItemsGood(t, kept, root, files);
    var a: Version := if incus then IncusItems(t, m, meta, root) else map[];
    var b: Version := if lxd then LxdItems(t, m, meta, root) else map[];
    SplitSourced(t, ProductName(m), t.formatTime(m.creationDate), a, b);
    RestAgrees(t, after, a, b);
    SplitAgrees(t, after, a, b);
  }

  // ---- the whole index under an import ---------------------------------------------------------

  /** The version that the plan extends, before the import. */
  function Own(products: Products, p: Plan): Version { VersionOf(BaseProduct(products, p), p.version) }

  function ProductsAfter(products: Products, p: Plan): Products { products[p.product := NewProduct(products, p)] }

  lemma VersionsAfter(products: Products, p: Plan, n: string, ver: string)
    ensures n in ProductsAfter(products, p) && ver in ProductsAfter(products, p)[n].versions <==>
      (n == p.product && ver == p.version) || (n in products && ver in products[n].versions)
    ensures n in ProductsAfter(products, p) && ver in ProductsAfter(products, p)[n].versions ==>
      ProductsAfter(products, p)[n].versions[ver]
      == if n == p.product && ver == p.version then Own(products, p) + p.items else products[n].versions[ver]
  {
  }

  lemma OwnGood(t: Tools, products: Products, files: map<Path, Bytes>, p: Plan)
    requires AllSourced(t, products) && Agrees(t, products, files)
    ensures VersionSourced(t, p.product, p.version, Own(products, p)) && VersionAgrees(t, files, Own(products, p))
  {
  }

  /** The invariant of the index: every item has a source and agrees with its file. */
  ghost predicate Good(t: Tools, s: Store) { AllSourced(t, s.products) && Agrees(t, s.products, s.files) }

  lemma ImportKeepsSourced(t: Tools, products: Products, p: Plan)
    requires AllSourced(t, products) && VersionSourced(t, p.product, p.version, p.items)
    ensures AllSourced(t, ProductsAfter(products, p))
  {
  }

  /** An import agrees exactly when its own version does and every other version still does. */
  lemma AgreesAfter(t: Tools, products: Products, p: Plan, files: map<Path, Bytes>)
    requires Paired(Own(products, p)) && Paired(p.items) && VersionAgrees(t, files, p.items)
    requires forall n, ver | n in products && ver in products[n].versions && (n != p.product || ver != p.version) ::
      VersionAgrees(t, files, products[n].versions[ver])
    ensures Agrees(t, ProductsAfter(products, p), files) <==> VersionAgrees(t, files, Rest(Own(products, p), p.items))
  {
    var after := ProductsAfter(products, p);
    SplitAgrees(t, files, Own(products, p), p.items);
    VersionsAfter(products, p, p.product, p.version);
    assert VersionAgrees(t, files, after[p.product].versions[p.version])
      <==> VersionAgrees(t, files, Rest(Own(products, p), p.items));
    forall n, ver | n in after && ver in after[n].versions && (n != p.product || ver != p.version)
      ensures VersionAgrees(t, files, after[n].versions[ver])
    {
      VersionsAfter(products, p, n, ver);
    }
  }

  lemma WholeImport(s: Store, p: Plan)
    ensures Import(s, p).products == ProductsAfter(s.products, p) && Import(s, p).files == WriteFiles(s.files, p.files)
  {
    assert p.files[..|p.files|] == p.files;
  }

  /** A container import always keeps the agreement. */
  lemma ContainerImportAgrees(
    t: Tools, s: Store, m: Metadata, image: Bytes, aliases: seq<string>, incus: bool, lxd: bool)
    requires Injective(t) && Good(t, s)
    ensures Good(t, Import(s, ContainerPlan(t, m, image, aliases, incus, lxd)))
  {
    var p := ContainerPlan(t, m, image, aliases, incus, lxd);
    var after := s.files[ContainerPath(t, m, image) := image];
    WholeImport(s, p);
    ContainerItemsGood(t, m, image, aliases, incus, lxd, s.files);
    ImportKeepsSourced(t, s.products, p);
    OwnGood(t, s.products, s.files, p);
    forall n, ver | n in s.products && ver in s.products[n].versions
      ensures VersionAgrees(t, after, s.products[n].versions[ver])
    {
      var v := s.products[n].versions[ver];
      ContainerLeavesOthers(t, n, ver, v, s.files, Dir(t, m), image);
      UntouchedAgrees(t, v, s.files, after);
    }
    RestAgrees(t, after, Own(s.products, p), p.items);
    AgreesAfter(t, s.products, p, after);
  }

  /** What a caller can check before a VM import: a server whose flag is off holds no rootfs item with
      other contents at the path that the import writes. */
  predicate NoOtherRootfs(t: Tools, own: Version, path: Path, root: Bytes, incus: bool, lxd: bool) {
    && (!incus && ROOTFS_INCUS in own && own[ROOTFS_INCUS].path == path ==> own[ROOTFS_INCUS].sha256 == t.sha256(root))
    && (!lxd && ROOTFS_LXD in own && own[ROOTFS_LXD].path == path ==> own[ROOTFS_LXD].sha256 == t.sha256(root))
  }

  lemma VmLeavesOneVersion(t: Tools, s: Store, kept: seq<Entry>, root: Bytes, n: string, ver: string)
    requires Injective(t) && Good(t, s) && MetadataOf(t, kept).Some?
    requires n in s.products && ver in s.products[n].versions
    requires n != ProductName(MetadataOf(t, kept).value) || ver != t.formatTime(MetadataOf(t, kept).value.creationDate)
    ensures var after := VmFiles(t, s.files, MetadataOf(t, kept).value, t.archive(kept), root);
      VersionAgrees(t, after, s.products[n].versions[ver])
  {
    var m, meta := MetadataOf(t, kept).value, t.archive(kept);
    var v := s.products[n].versions[ver];
    assert VersionSourced(t, n, ver, v) && VersionAgrees(t, s.files, v);
    forall k | k in v ensures v[k].path != RootfsPath(t, m, meta) {
      if v[k].path == RootfsPath(t, m, meta) {
        RootfsPathMeans(t, n, ver, v, k, kept);
      }
    }
    VmLeavesOthers(t, n, ver, v, s.files, kept, root);
    UntouchedAgrees(t, v, s.files, VmFiles(t, s.files, m, meta, root));
  }

  /** A VM import leaves every other version in agreement. */
  lemma VmLeavesOtherVersions(t: Tools, s: Store, kept: seq<Entry>, root: Bytes)
    requires Injective(t) && Good(t, s) && MetadataOf(t, kept).Some?
    ensures var m, meta := MetadataOf(t, kept).value, t.archive(kept);
      forall n, ver | n in s.products && ver in s.products[n].versions
        && (n != ProductName(m) || ver != t.formatTime(m.creationDate)) ::
          VersionAgrees(t, VmFiles(t, s.files, m, meta, root), s.products[n].versions[ver])
  {
    var m, meta := MetadataOf(t, kept).value, t.archive(kept);
    forall n, ver | n in s.products && ver in s.products[n].versions
      && (n != ProductName(m) || ver != t.formatTime(m.creationDate))
      ensures VersionAgrees(t, VmFiles(t, s.files, m, meta, root), s.products[n].versions[ver])
    {
      VmLeavesOneVersion(t, s, kept, root, n, ver);
    }
  }

  /** The unflagged part of the import's own version still agrees exactly when NoOtherRootfs held. */
  lemma OwnRest(
    t: Tools, n: string, ver: string, own: Version, items: Version, files: map<Path, Bytes>,
    kept: seq<Entry>, root: Bytes, incus: bool, lxd: bool)
    requires Injective(t) && VersionSourced(t, n, ver, own) && VersionAgrees(t, files, own) && MetadataOf(t, kept).Some?
    requires ROOTFS_INCUS in items <==> incus
    requires ROOTFS_LXD in items <==> lxd
    requires Paired(items)
    ensures VersionAgrees(t, VmFiles(t, files, MetadataOf(t, kept).value, t.archive(kept), root), Rest(own, items))
      <==> NoOtherRootfs(t, own, RootfsPath(t, MetadataOf(t, kept).value, t.archive(kept)), root, incus, lxd)
  {
    var m, meta := MetadataOf(t, kept).value, t.archive(kept);
    var rest, path, after := Rest(own, items), RootfsPath(t, m, meta), VmFiles(t, files, m, meta, root);
    RestSourced(t, n, ver, own, items);
    RestAgrees(t, files, own, items);
    if NoOtherRootfs(t, own, path, root, incus, lxd) {
      forall k | k in rest && rest[k].path == path ensures rest[k].sha256 == t.sha256(root) {
        RootfsPathMeans(t, n, ver, rest, k, kept);
      }
      VmLeavesOthers(t, n, ver, rest, files, kept, root);
      UntouchedAgrees(t, rest, files, after);
    } else {
      SuffixKinds(t.sha256(meta), t.sha256(meta));
      assert after[path] == root;
      var k := if !incus && ROOTFS_INCUS in own && own[ROOTFS_INCUS].path == path
                  && own[ROOTFS_INCUS].sha256 != t.sha256(root)
               then ROOTFS_INCUS else ROOTFS_LXD;
      assert k in rest && !ItemAgrees(t, after, rest[k]);
    }
  }

  /** What a VM import leaves behind: the new items have a source and agree with the new files. */
  lemma VmImportIs(t: Tools, s: Store, kept: seq<Entry>, root: Bytes, aliases: seq<string>, incus: bool, lxd: bool)
    requires AllSourced(t, s.products) && MetadataOf(t, kept).Some?
    ensures var m, meta := MetadataOf(t, kept).value, t.archive(kept);
      var p := VmPlan(t, m, meta, root, aliases, incus, lxd);
      && Import(s, p).products == ProductsAfter(s.products, p)
      && Import(s, p).files == VmFiles(t, s.files, m, meta, root)
      && AllSourced(t, ProductsAfter(s.products, p)) && VersionAgrees(t, VmFiles(t, s.files, m, meta, root), p.items)
      && Paired(p.items)
  {
    var m, meta := MetadataOf(t, kept).value, t.archive(kept);
    var p := VmPlan(t, m, meta, root, aliases, incus, lxd);
    WholeImport(s, p);
    VmWrites(t, m, meta, root, aliases, incus, lxd, s.files);
    VmItemsGood(t, kept, root, aliases, incus, lxd, s.files);
    ImportKeepsSourced(t, s.products, p);
  }

  /** A VM import keeps the agreement if and only if NoOtherRootfs held before it. */
  lemma VmImportAgrees(t: Tools, s: Store, kept: seq<Entry>, root: Bytes, aliases: seq<string>, incus: bool, lxd: bool)
    requires Injective(t) && Good(t, s) && MetadataOf(t, kept).Some?
    ensures var m, meta := MetadataOf(t, kept).value, t.archive(kept);
      var p := VmPlan(t, m, meta, root, aliases, incus, lxd);
      && AllSourced(t, Import(s, p).products)
      && (Agrees(t, Import(s, p).products, Import(s, p).files)
          <==> NoOtherRootfs(t, Own(s.products, p), RootfsPath(t, m, meta), root, incus, lxd))
  {
    var m, meta := MetadataOf(t, kept).value, t.archive(kept);
    var p := VmPlan(t, m, meta, root, aliases, incus, lxd);
    var after := VmFiles(t, s.files, m, meta, root);
    VmImportIs(t, s, kept, root, aliases, incus, lxd);
    OwnGood(t, s.products, s.files, p);
    VmLeavesOtherVersions(t, s, kept, root);
    OwnRest(t, p.product, p.version, Own(s.products, p), p.items, s.files, kept, root, incus, lxd);
    AgreesAfter(t, s.products, p, after);
  }

  // ---- every run of imports --------------------------------------------------------------------

  /** Reopen the index and serve one request; a refused request changes nothing. */
  function Served(t: Tools, s: Store, r: Request): Store {
    if PlanOf(t, r).None? then Reload(s) else Import(Reload(s), PlanOf(t, r).value)
  }

  function ServedAll(t: Tools, s: Store, rs: seq<Request>): Store {
    if rs == [] then s else Served(t, ServedAll(t, s, rs[..|rs| - 1]), rs[|rs| - 1])
  }

  /** Whether a request leaves the items of an unflagged server alone, judged before it is served. */
  predicate Safe(t: Tools, s: Store, r: Request) {
    r.vm && PlanOf(t, r).Some? ==>
      var u := Unpack(t, t.untar(r.image).entries).value;
      NoOtherRootfs(t, Own(Reload(s).products, PlanOf(t, r).value), RootfsPath(t, u.metadata, t.archive(u.kept)),
                    u.rootfs, r.incus, r.lxd)
  }

  ghost predicate GoodDisk(t: Tools, s: Store) { Good(t, Reload(s)) }

  /** One request keeps the agreement of a good index if and only if it is safe. */
  lemma NextRequestAgrees(t: Tools, s: Store, r: Request)
    requires Injective(t) && GoodDisk(t, s)
    ensures GoodDisk(t, Served(t, s, r)) <==> Safe(t, s, r)
    ensures Agrees(t, Reload(Served(t, s, r)).products, Served(t, s, r).files) <==> Safe(t, s, r)
  {
    if PlanOf(t, r).Some? {
      var p := PlanOf(t, r).value;
      if r.vm {
        var u := Unpack(t, t.untar(r.image).entries).value;
        KeptDecides(t, t.untar(r.image).entries);
        VmImportAgrees(t, Reload(s), u.kept, u.rootfs, r.aliases, r.incus, r.lxd);
      } else {
        var m := FirstMetadata(t, t.untar(r.image)).value;
        ContainerImportAgrees(t, Reload(s), m, r.image, r.aliases, r.incus, r.lxd);
      }
    }
  }

  /** Every request is safe when its turn comes. */
  predicate AllSafe(t: Tools, rs: seq<Request>) {
    rs == [] || (AllSafe(t, rs[..|rs| - 1]) && Safe(t, ServedAll(t, EMPTY, rs[..|rs| - 1]), rs[|rs| - 1]))
  }

  predicate DiskAgrees(t: Tools, s: Store) { Agrees(t, Reload(s).products, s.files) }

  /** The index agrees with its files now and after every earlier request. */
  predicate AgreesThroughout(t: Tools, rs: seq<Request>) {
    DiskAgrees(t, ServedAll(t, EMPTY, rs)) && (rs == [] || AgreesThroughout(t, rs[..|rs| - 1]))
  }

  /** The index agrees with its files throughout a run exactly when every request of it was safe. */
  lemma {:induction false} AgreementIsExact(t: Tools, rs: seq<Request>)
    requires Injective(t)
    ensures AgreesThroughout(t, rs) <==> AllSafe(t, rs)
    ensures AllSafe(t, rs) ==> GoodDisk(t, ServedAll(t, EMPTY, rs))
  {
    if rs != [] {
      AgreementIsExact(t, rs[..|rs| - 1]);
      if AllSafe(t, rs[..|rs| - 1]) {
        NextRequestAgrees(t, ServedAll(t, EMPTY, rs[..|rs| - 1]), rs[|rs| - 1]);
      }
    }
  }

  lemma {:induction false} BothFlagsAreSafe(t: Tools, rs: seq<Request>)
    requires forall r | r in rs :: r.vm ==> r.incus && r.lxd
    ensures AllSafe(t, rs)
  {
    if rs != [] {
      BothFlagsAreSafe(t, rs[..|rs| - 1]);
      assert rs[|rs| - 1] in rs;
    }
  }

  /** With both server flags set on every VM import, every item always agrees with its file. */
  lemma BothFlagsAlwaysAgree(t: Tools, rs: seq<Request>)
    requires Injective(t) && forall r | r in rs :: r.vm ==> r.incus && r.lxd
    ensures AgreesThroughout(t, rs)
  {
    BothFlagsAreSafe(t, rs);
    AgreementIsExact(t, rs);
  }

  lemma AfterFirst(t: Tools, m: Metadata, meta: Bytes, first: Bytes, aliases: seq<string>, next: Plan)
    requires next.product == ProductName(m) && next.version == t.formatTime(m.creationDate)
    ensures var own := Own(Import(EMPTY, VmPlan(t, m, meta, first, aliases, true, true)).products, next);
      && ROOTFS_LXD in own && own[ROOTFS_LXD] == RootfsItem(t, m, meta, first, ROOTFS_LXD)
      && ROOTFS_INCUS in own && own[ROOTFS_INCUS] == RootfsItem(t, m, meta, first, ROOTFS_INCUS)
  {
    var p := VmPlan(t, m, meta, first, aliases, true, true);
    WholeImport(EMPTY, p);
    VersionsAfter(map[], p, p.product, p.version);
  }

  /** With one flag, whichever it is, the agreement can break: the same metadata with another rootfs, imported for
      one server only, leaves the items of the other server describing a file that is gone. */
  lemma OneFlagBreaks(t: Tools, kept: seq<Entry>, first: Bytes, second: Bytes, aliases: seq<string>, incus: bool)
    requires Injective(t) && MetadataOf(t, kept).Some? && first != second
    ensures var m, meta := MetadataOf(t, kept).value, t.archive(kept);
      var s := Import(EMPTY, VmPlan(t, m, meta, first, aliases, true, true));
      var s2 := Import(s, VmPlan(t, m, meta, second, aliases, incus, !incus));
      Agrees(t, s.products, s.files) && !Agrees(t, s2.products, s2.files)
  {
    var m, meta := MetadataOf(t, kept).value, t.archive(kept);
    VmImportAgrees(t, EMPTY, kept, first, aliases, true, true);
    var s := Import(EMPTY, VmPlan(t, m, meta, first, aliases, true, true));
    var next := VmPlan(t, m, meta, second, aliases, incus, !incus);
    AfterFirst(t, m, meta, first, aliases, next);
    assert !NoOtherRootfs(t, Own(s.products, next), RootfsPath(t, m, meta), second, incus, !incus);
    VmImportAgrees(t, s, kept, second, aliases, incus, !incus);
  }
}
