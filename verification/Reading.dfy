/** What an import reads from a tarball and what it writes, said with the names of the entries, the files and the
    items themselves. */
module Reading {
  import opened Common
  import opened Tarball
  import opened Text
  import opened Catalog

  // ---- the entries of a virtual machine image --------------------------------------------------

  /** The entries that describe the image. */
  predicate Describes(e: Entry) { e.header.name == "metadata.yaml" || "templates/" <= e.header.name }

  /** `at` lists, in order, the positions of exactly the describing entries, and `kept` holds those entries. */
  predicate Picks(entries: seq<Entry>, kept: seq<Entry>, at: seq<nat>) {
    && |at| == |kept|
    && (forall j | 0 <= j < |at| :: at[j] < |entries| && kept[j] == entries[at[j]] && Describes(entries[at[j]]))
    && (forall i, j | 0 <= i < j < |at| :: at[i] < at[j])
    && (forall i | 0 <= i < |entries| && Describes(entries[i]) :: i in at)
  }

  /** `kept` is the order-preserving subsequence of the describing entries, each as often as it occurs. */
  ghost predicate KeepsExactly(entries: seq<Entry>, kept: seq<Entry>) { exists at :: Picks(entries, kept, at) }

  /** `rootfs` is the data of the last entry named rootfs.img, or empty when there is none. */
  ghost predicate RootfsIs(entries: seq<Entry>, rootfs: Bytes) {
    if exists e | e in entries :: e.header.name == "rootfs.img" then
      exists i | 0 <= i < |entries| ::
        && entries[i].header.name == "rootfs.img" && entries[i].data == rootfs
        && forall j | i < j < |entries| :: entries[j].header.name != "rootfs.img"
    else rootfs == []
  }

  lemma PicksSnoc(entries: seq<Entry>, kept: seq<Entry>, at: seq<nat>, e: Entry)
    requires Picks(entries, kept, at)
    ensures if Describes(e) then Picks(entries + [e], kept + [e], at + [|entries|]) else Picks(entries + [e], kept, at)
  {
  }

  lemma CollectMeans(t: Tools, u: Unpacked, e: Entry)
    requires Collect(t, u, e).Some?
    ensures var v := Collect(t, u, e).value;
      && v.kept == (if Describes(e) then u.kept + [e] else u.kept)
      && v.rootfs == (if e.header.name == "rootfs.img" then e.data else u.rootfs)
  {
    KindsDiffer(e);
  }

  lemma KeepsSnoc(entries: seq<Entry>, kept: seq<Entry>, e: Entry)
    requires KeepsExactly(entries, kept)
    ensures KeepsExactly(entries + [e], if Describes(e) then kept + [e] else kept)
  {
    var at :| Picks(entries, kept, at);
    PicksSnoc(entries, kept, at, e);
  }

  /** What the import loop collects: exactly the describing entries, and the last rootfs. */
  lemma {:induction false} UnpackMeans(t: Tools, entries: seq<Entry>)
    requires Unpack(t, entries).Some?
    ensures KeepsExactly(entries, Unpack(t, entries).value.kept)
    ensures RootfsIs(entries, Unpack(t, entries).value.rootfs)
  {
    if entries == [] {
      assert Picks([], [], []);
    } else {
      var init, e := entries[..|entries| - 1], entries[|entries| - 1];
      LastApart(entries);
      UnpackMeans(t, init);
      CollectMeans(t, Unpack(t, init).value, e);
      KeepsSnoc(init, Unpack(t, init).value.kept, e);
      RootfsSnoc(init, Unpack(t, init).value.rootfs, e);
    }
  }

  /** The import loop fails exactly when some metadata.yaml does not decode over those before it. */
  lemma {:induction false} UnpackFailsExactly(t: Tools, entries: seq<Entry>)
    ensures Unpack(t, entries).None? <==> exists i | 0 <= i < |entries| :: FailsAt(t, entries, i)
  {
    if entries != [] {
      var init, e := entries[..|entries| - 1], entries[|entries| - 1];
      UnpackFailsExactly(t, init);
      forall i | 0 <= i < |init| ensures FailsAt(t, init, i) <==> FailsAt(t, entries, i) {
        assert init[..i] == entries[..i];
      }
      KindsDiffer(e);
      assert Unpack(t, entries).None? <==> Unpack(t, init).None? || FailsAt(t, entries, |init|);
    }
  }

  predicate FailsAt(t: Tools, entries: seq<Entry>, i: nat)
    requires i < |entries|
  {
    && entries[i].header.name == "metadata.yaml" && Unpack(t, entries[..i]).Some?
    && t.unmarshal(entries[i].data, Unpack(t, entries[..i]).value.metadata).None?
  }

  lemma RootfsSnoc(entries: seq<Entry>, rootfs: Bytes, e: Entry)
    requires RootfsIs(entries, rootfs)
    ensures RootfsIs(entries + [e], if e.header.name == "rootfs.img" then e.data else rootfs)
  {
    var all := entries + [e];
    assert all[|entries|] == e && e in all;
    if e.header.name != "rootfs.img" && exists x | x in entries :: x.header.name == "rootfs.img" {
      var i :| 0 <= i < |entries| && entries[i].header.name == "rootfs.img" && entries[i].data == rootfs
        && forall j | i < j < |entries| :: entries[j].header.name != "rootfs.img";
      assert all[i] == entries[i] && all[i] in all;
      assert forall j | i < j < |all| :: all[j].header.name != "rootfs.img";
    }
  }

  // ---- the metadata of a container image -------------------------------------------------------

  /** The first metadata.yaml decides; without one, a complete tarball has empty metadata. */
  lemma {:induction false} FirstMetadataMeans(t: Tools, tar: Tar)
    ensures forall i | 0 <= i < |tar.entries| && tar.entries[i].header.name == "metadata.yaml"
        && (forall j | 0 <= j < i :: tar.entries[j].header.name != "metadata.yaml") ::
      FirstMetadata(t, tar) == t.unmarshal(tar.entries[i].data, Metadata("", map[], 0))
    ensures (forall i | 0 <= i < |tar.entries| :: tar.entries[i].header.name != "metadata.yaml") ==>
      FirstMetadata(t, tar) == if tar.complete then Some(Metadata("", map[], 0)) else None
    decreases |tar.entries|
  {
    if tar.entries != [] && tar.entries[0].header.name != "metadata.yaml" {
      var rest := tar.(entries := tar.entries[1..]);
      FirstMetadataMeans(t, rest);
      assert forall i | 1 <= i < |tar.entries| :: tar.entries[i] == rest.entries[i - 1];
    }
  }

  // ---- plans -----------------------------------------------------------------------------------

  /** The product and version that the metadata name. */
  predicate Names(t: Tools, m: Metadata, p: Plan) {
    && p.product == p.os + ":" + p.release + ":" + p.variant + ":" + p.architecture
    && p.version == t.formatTime(m.creationDate)
    && p.os == Property(m, "os") && p.release == Property(m, "release")
    && p.variant == Property(m, "variant") && p.architecture == Property(m, "architecture")
  }

  lemma BaseNames(t: Tools, m: Metadata, aliases: seq<string>)
    ensures Names(t, m, BasePlan(t, m, aliases)) && BasePlan(t, m, aliases).aliases == aliases
  {
    JoinFour(Property(m, "os"), Property(m, "release"), Property(m, "variant"), Property(m, "architecture"));
  }

  function ImageDir(t: Tools, m: Metadata): string {
    t.imageDir(Property(m, "os"), Property(m, "release"), Property(m, "architecture"))
  }

  /** A container import stores the image under its hash, with one item per flagged server. */
  predicate StoresContainer(t: Tools, m: Metadata, r: Request, p: Plan) {
    var path := Path(ImageDir(t, m), t.sha256(r.image) + ".incus_combined.tar.gz");
    && Names(t, m, p) && p.aliases == r.aliases && p.files == [(path, r.image)]
    && p.items.Keys
       == (if r.incus then {"incus_combined.tar.gz"} else {}) + (if r.lxd then {"lxd_combined.tar.gz"} else {})
    && forall k | k in p.items :: p.items[k] == Item(k, t.sha256(r.image), |r.image|, path, "", "")
  }

  /** A VM import stores the archive under its hash and the rootfs beside it, with two items per flagged server;
      the metadata item of each carries the hash of both together. */
  predicate StoresVm(t: Tools, m: Metadata, archive: Bytes, rootfs: Bytes, r: Request, p: Plan) {
    var dir, name := ImageDir(t, m), t.sha256(archive);
    var meta, root := Path(dir, name + ".incus.tar.xz"), Path(dir, name + ".disk-kvm.img");
    var both := t.sha256(archive + rootfs);
    && Names(t, m, p) && p.aliases == r.aliases && p.files == [(root, rootfs), (meta, archive)]
    && p.items.Keys
       == (if r.incus then {"incus.tar.xz", "disk-kvm.img"} else {})
          + (if r.lxd then {"lxd.tar.xz", "disk1.img"} else {})
    && (forall k | k in p.items && k in {"disk-kvm.img", "disk1.img"} ::
          p.items[k] == Item(k, t.sha256(rootfs), |rootfs|, root, "", ""))
    && ("incus.tar.xz" in p.items ==> p.items["incus.tar.xz"] == Item("incus.tar.xz", name, |archive|, meta, both, ""))
    && ("lxd.tar.xz" in p.items ==> p.items["lxd.tar.xz"] == Item("lxd.tar.xz", name, |archive|, meta, "", both))
  }

  lemma ContainerPlanMeans(t: Tools, m: Metadata, r: Request)
    ensures StoresContainer(t, m, r, ContainerPlan(t, m, r.image, r.aliases, r.incus, r.lxd))
  {
    BaseNames(t, m, r.aliases);
  }

  lemma VmPlanMeans(t: Tools, m: Metadata, archive: Bytes, rootfs: Bytes, r: Request)
    ensures StoresVm(t, m, archive, rootfs, r, VmPlan(t, m, archive, rootfs, r.aliases, r.incus, r.lxd))
  {
    BaseNames(t, m, r.aliases);
  }

  // ---- accepted and refused requests -----------------------------------------------------------

  /** A container import is accepted exactly when its metadata decode and name an architecture, and then stores
      the image. */
  lemma ContainerAccepted(t: Tools, r: Request)
    requires !r.vm
    ensures PlanOf(t, r).Some? <==>
      FirstMetadata(t, t.untar(r.image)).Some? && FirstMetadata(t, t.untar(r.image)).value.architecture != ""
    ensures PlanOf(t, r).Some? ==> StoresContainer(t, FirstMetadata(t, t.untar(r.image)).value, r, PlanOf(t, r).value)
  {
    if PlanOf(t, r).Some? {
      ContainerPlanMeans(t, FirstMetadata(t, t.untar(r.image)).value, r);
    }
  }

  /** The metadata, the entries and the rootfs that a VM import takes from a tarball. */
  ghost predicate Reads(t: Tools, tar: Tar, m: Metadata, kept: seq<Entry>, rootfs: Bytes) {
    KeepsExactly(tar.entries, kept) && RootfsIs(tar.entries, rootfs) && MetadataOf(t, kept) == Some(m)
  }

  /** A VM import is accepted exactly when its tarball is complete, every metadata.yaml decodes, and there are an
      archive, a rootfs and an architecture; then it stores the archive of exactly the describing entries. */
  lemma VmAccepted(t: Tools, r: Request)
    requires r.vm
    ensures var u := Unpack(t, t.untar(r.image).entries);
      PlanOf(t, r).Some? <==>
        && t.untar(r.image).complete && u.Some?
        && t.archive(u.value.kept) != [] && u.value.rootfs != [] && u.value.metadata.architecture != ""
    ensures PlanOf(t, r).Some? ==>
      exists m, kept, rootfs ::
        && Reads(t, t.untar(r.image), m, kept, rootfs) && m.architecture != "" && rootfs != []
        && StoresVm(t, m, t.archive(kept), rootfs, r, PlanOf(t, r).value)
  {
    if PlanOf(t, r).Some? {
      var u := Unpack(t, t.untar(r.image).entries).value;
      UnpackMeans(t, t.untar(r.image).entries);
      KeptDecides(t, t.untar(r.image).entries);
      VmPlanMeans(t, u.metadata, t.archive(u.kept), u.rootfs, r);
      assert Reads(t, t.untar(r.image), u.metadata, u.kept, u.rootfs);
    }
  }

  // ---- the written index -----------------------------------------------------------------------

  /** A new product is described by the metadata of its first import, and the aliases are those of the last import
      that had any. */
  lemma ProductDescribed(s: Store, p: Plan)
    ensures p.product in Import(s, p).products
    ensures var product := Import(s, p).products[p.product];
      && (p.product !in s.products ==>
            && product.architecture == p.architecture && product.os == p.os && product.variant == p.variant
            && product.release == product.releaseTitle == p.release && (p.aliases == [] ==> product.aliases == ""))
      && (p.product in s.products && p.aliases == [] ==> product.aliases == s.products[p.product].aliases)
      && (p.aliases != [] && (forall a | a in p.aliases :: ',' !in a) ==> Split(product.aliases, ',') == p.aliases)
  {
    if p.aliases != [] && forall a | a in p.aliases :: ',' !in a {
      SplitJoin(p.aliases, ',');
    }
  }

  /** After an import both files on disk hold the index, and a content file has what was last written to it. */
  lemma ImportStores(s: Store, p: Plan, i: nat)
    requires i < |p.files| && forall j | i < j < |p.files| :: p.files[j].0 != p.files[i].0
    ensures var r := Import(s, p);
      && r.indexJson == Some(r.names) && r.imagesJson == Some(r.products)
      && Lookup(r.files, p.files[i].0) == Some(p.files[i].1)
  {
    assert p.files[..|p.files|] == p.files;
    LastWriteStays(s.files, p.files, i);
  }

  lemma {:induction false} LastWriteStays(files: map<Path, Bytes>, writes: seq<(Path, Bytes)>, i: nat)
    requires i < |writes| && forall j | i < j < |writes| :: writes[j].0 != writes[i].0
    ensures Lookup(WriteFiles(files, writes), writes[i].0) == Some(writes[i].1)
  {
    if i < |writes| - 1 {
      LastWriteStays(files, writes[..|writes| - 1], i);
    }
  }

  /** The content files are written first, then index.json, and images.json last. */
  lemma WritesInOrder(s: Store, p: Plan, done: nat)
    ensures After(s, p, done).indexJson != s.indexJson ==> After(s, p, done).files == WriteFiles(s.files, p.files)
    ensures After(s, p, done).imagesJson != s.imagesJson ==>
      After(s, p, done).indexJson == Some(After(s, p, done).names)
  {
    assert p.files[..|p.files|] == p.files;
  }
}
