/** The code that keeps a simplestreams index: the streaming hash, the open index and the two imports.

    Each method is proved to carry out the plan that Catalog.PlanOf computes. */
module IndexCode {
  import opened Common
  import opened Order
  import opened Text
  import opened Tarball
  import opened Catalog
  import opened Reading

  /** A streaming hash (crypto/sha256): it hashes everything written since the last reset. */
  class Hash {
    const t: Tools
    var written: Bytes

    constructor (t: Tools)
      ensures this.t == t && written == []
    {
      this.t := t;
      written := [];
    }

    method Write(data: Bytes)
      modifies this
      ensures written == old(written) + data
    {
      written := written + data;
    }

    method Sum() returns (digest: string)
      ensures digest == t.sha256(written)
    {
      digest := t.sha256(written);
    }

    method Reset()
      modifies this
      ensures written == []
    {
      written := [];
    }
  }

  datatype VmInfo = VmInfo(metaSize: nat, metaSha256: string, rootSize: nat, rootSha256: string, combinedSha256: string)

  /** The rootfs is hashed twice with one hash object: after the metadata, and alone. */
  method GetVirtualMachineImageInfo(t: Tools, metadata: Bytes, rootfs: Bytes) returns (info: VmInfo)
    ensures info.metaSize == |metadata| && info.metaSha256 == t.sha256(metadata)
    ensures info.rootSize == |rootfs| && info.rootSha256 == t.sha256(rootfs)
    ensures info.combinedSha256 == t.sha256(metadata + rootfs)
  {
    var hash := new Hash(t);
    hash.Write(metadata);
    assert hash.written == metadata;
    var meta := hash.Sum();
    hash.Write(rootfs);
    var combined := hash.Sum();
    hash.Reset();
    hash.Write(rootfs);
    assert hash.written == rootfs;
    var root := hash.Sum();
    info := VmInfo(|metadata|, meta, |rootfs|, root, combined);
  }

  datatype ContainerInfo = ContainerInfo(sha256: string, size: nat)

  method GetContainerImageInfo(t: Tools, image: Bytes) returns (info: ContainerInfo)
    ensures info.sha256 == t.sha256(image) && info.size == |image|
  {
    var hash := new Hash(t);
    hash.Write(image);
    assert hash.written == image;
    var digest := hash.Sum();
    info := ContainerInfo(digest, |image|);
  }

  /** The container import reads up to the first metadata.yaml. */
  method ScanContainer(t: Tools, tar: Tar) returns (metadata: Option<Metadata>)
    ensures metadata == FirstMetadata(t, tar)
  {
    var i := 0;
    metadata := Some(NO_METADATA);
    while i < |tar.entries|
      invariant 0 <= i <= |tar.entries| && metadata == Some(NO_METADATA)
      invariant FirstMetadata(t, tar) == FirstMetadata(t, tar.(entries := tar.entries[i..]))
    {
      var rest := tar.(entries := tar.entries[i..]);
      assert rest.entries[0] == tar.entries[i] && rest.entries[1..] == tar.entries[i + 1..];
      if tar.entries[i].header.name == "metadata.yaml" {
        metadata := t.unmarshal(tar.entries[i].data, NO_METADATA);
        return;
      }
      i := i + 1;
    }
    if !tar.complete {
      metadata := None;
    }
  }

  /** The VM import reads the whole tarball and rebuilds an archive of the entries that describe it. */
  method ScanVirtualMachine(t: Tools, tar: Tar) returns (r: Option<Unpacked>)
    ensures r == if tar.complete then Unpack(t, tar.entries) else None
    ensures r.Some? ==> KeepsExactly(tar.entries, r.value.kept) && RootfsIs(tar.entries, r.value.rootfs)
  {
    var metadata, kept, rootfs := NO_METADATA, [], [];
    for i := 0 to |tar.entries|
      invariant Unpack(t, tar.entries[..i]) == Some(Unpacked(metadata, kept, rootfs))
    {
      var e := tar.entries[i];
      UnpackSnoc(t, tar.entries, i);
      if e.header.name == "metadata.yaml" {
        var parsed := t.unmarshal(e.data, metadata);
        if parsed.None? {
          UnpackFails(t, tar.entries, i + 1);
          return None;
        }
        metadata := parsed.value;
        kept := kept + [e];
      } else if "templates/" <= e.header.name {
        kept := kept + [e];
      } else if e.header.name == "rootfs.img" {
        rootfs := e.data;
      }
    }
    assert tar.entries[..|tar.entries|] == tar.entries;
    UnpackMeans(t, tar.entries);
    r := if tar.complete then Some(Unpacked(metadata, kept, rootfs)) else None;
  }

  lemma UnpackSnoc(t: Tools, entries: seq<Entry>, i: nat)
    requires i < |entries|
    ensures Unpack(t, entries[..i + 1])
      == if Unpack(t, entries[..i]).None? then None else Collect(t, Unpack(t, entries[..i]).value, entries[i])
  {
    assert entries[..i + 1][..i] == entries[..i];
  }

  lemma {:induction false} UnpackFails(t: Tools, entries: seq<Entry>, i: nat)
    requires i <= |entries| && Unpack(t, entries[..i]).None?
    ensures Unpack(t, entries).None?
    decreases |entries| - i
  {
    if i == |entries| {
      assert entries[..i] == entries;
    } else {
      UnpackSnoc(t, entries, i);
      UnpackFails(t, entries, i + 1);
    }
  }

  /** The directory of an index. `budget` is the number of writes that will succeed. */
  class Root {
    var files: map<Path, Bytes>
    var indexJson: Option<seq<string>>
    var imagesJson: Option<Products>
    var budget: nat

    constructor ()
      ensures files == map[] && indexJson == None && imagesJson == None && budget == 0
    {
      files, indexJson, imagesJson, budget := map[], None, None, 0;
    }

    method WriteFile(path: Path, data: Bytes) returns (ok: bool)
      modifies this
      ensures ok == (old(budget) > 0) && budget == if ok then old(budget) - 1 else 0
      ensures files == if ok then old(files)[path := data] else old(files)
      ensures indexJson == old(indexJson) && imagesJson == old(imagesJson)
    {
      ok := budget > 0;
      if ok {
        files := files[path := data];
        budget := budget - 1;
      }
    }

    method WriteIndex(names: seq<string>) returns (ok: bool)
      modifies this
      ensures ok == (old(budget) > 0) && budget == if ok then old(budget) - 1 else 0
      ensures indexJson == if ok then Some(names) else old(indexJson)
      ensures files == old(files) && imagesJson == old(imagesJson)
    {
      ok := budget > 0;
      if ok {
        indexJson := Some(names);
        budget := budget - 1;
      }
    }

    method WriteImages(products: Products) returns (ok: bool)
      modifies this
      ensures ok == (old(budget) > 0) && budget == if ok then old(budget) - 1 else 0
      ensures imagesJson == if ok then Some(products) else old(imagesJson)
      ensures files == old(files) && indexJson == old(indexJson)
    {
      ok := budget > 0;
      if ok {
        imagesJson := Some(products);
        budget := budget - 1;
      }
    }
  }

  /** An open index. */
  class Index {
    const root: Root
    var names: seq<string>
    var products: Products

    ghost function Snapshot(): (s: Store)
      reads this, root
    {
      Store(names, products, root.files, root.indexJson, root.imagesJson)
    }

    /** GetOrCreateIndex. */
    constructor (root: Root)
      ensures this.root == root
      ensures Snapshot() == Reload(Store([], map[], root.files, root.indexJson, root.imagesJson))
    {
      this.root := root;
      names := if root.indexJson.Some? then root.indexJson.value else [];
      products := if root.imagesJson.Some? then root.imagesJson.value else map[];
    }

    /** The product is listed once, in order. */
    method ListProduct(product: string)
      modifies this
      ensures names == Listed(old(names), product) && products == old(products)
    {
      if product !in names {
        var all := names + [product];
        names := Sort(all);
      }
    }

    /** The product as it is, or a new one, with its aliases set and the items added to the version. */
    method AddItems(p: Plan)
      modifies this
      ensures names == old(names)
      ensures products == old(products)[p.product := NewProduct(old(products), p)]
    {
      var product;
      if p.product in products {
        product := products[p.product];
      } else {
        product := Product(p.architecture, p.os, p.release, p.release, p.variant, "", map[p.version := map[]]);
      }
      if |p.aliases| > 0 {
        product := product.(aliases := Join(p.aliases, ','));
      }
      var items := if p.version in product.versions then product.versions[p.version] else map[];
      items := items + p.items;
      product := product.(versions := product.versions[p.version := items]);
      assert map[p.version := map[]][p.version := items] == map[][p.version := items];
      products := products[p.product := product];
    }

    /** importContainerUnifiedTarball: refused before any change, or the plan is carried out up to the
        first write that fails. */
    method ImportContainer(t: Tools, r: Request) returns (ok: bool)
      requires !r.vm
      modifies this, root
      ensures PlanOf(t, r).Some? && old(root.budget) >= 1 ==>
        var m := FirstMetadata(t, t.untar(r.image)).value;
        root.files == old(root.files)[Path(ImageDir(t, m), t.sha256(r.image) + ".incus_combined.tar.gz") := r.image]
      ensures PlanOf(t, r).None? ==> !ok && Snapshot() == old(Snapshot())
      ensures PlanOf(t, r).Some? ==> ok == (old(root.budget) >= 3)
      ensures PlanOf(t, r).Some? ==> Snapshot() == After(old(Snapshot()), PlanOf(t, r).value, old(root.budget))
    {
      var metadata := ScanContainer(t, t.untar(r.image));
      if metadata.None? || metadata.value.architecture == "" {
        return false;
      }
      var m := metadata.value;
      var info := GetContainerImageInfo(t, r.image);
      var target := Path(Dir(t, m), info.sha256 + CONTAINER_SUFFIX);
      var items: Version := map[];
      if r.incus {
        items := items[CONTAINER_INCUS := Item(CONTAINER_INCUS, info.sha256, info.size, target, "", "")];
      }
      if r.lxd {
        items := items[CONTAINER_LXD := Item(CONTAINER_LXD, info.sha256, info.size, target, "", "")];
      }
      var p := BasePlan(t, m, r.aliases).(items := items, files := [(target, r.image)]);
      ContainerPlanIs(t, m, r, items);
      OneFile(root.files, p.files);
      ok := CarryOut(p);
    }

    /** importVirtualMachineUnifiedTarball: the same, with the rootfs written before the metadata. */
    method ImportVirtualMachine(t: Tools, r: Request) returns (ok: bool, ghost read: Unpacked)
      requires r.vm
      modifies this, root
      ensures PlanOf(t, r).Some? ==> Reads(t, t.untar(r.image), read.metadata, read.kept, read.rootfs)
      ensures PlanOf(t, r).Some? && old(root.budget) >= 2 ==>
        var dir, name := ImageDir(t, read.metadata), t.sha256(t.archive(read.kept));
        root.files == old(root.files)[Path(dir, name + ".disk-kvm.img") := read.rootfs]
                                     [Path(dir, name + ".incus.tar.xz") := t.archive(read.kept)]
      ensures PlanOf(t, r).None? ==> !ok && Snapshot() == old(Snapshot())
      ensures PlanOf(t, r).Some? ==> ok == (old(root.budget) >= 4)
      ensures PlanOf(t, r).Some? ==> Snapshot() == After(old(Snapshot()), PlanOf(t, r).value, old(root.budget))
    {
      read := Unpacked(NO_METADATA, [], []);
      var u := ScanVirtualMachine(t, t.untar(r.image));
      if u.None? {
        return false, read;
      }
      read := u.value;
      var outMetadata, outRootfs, m := t.archive(u.value.kept), u.value.rootfs, u.value.metadata;
      if |outMetadata| == 0 || |outRootfs| == 0 || m.architecture == "" {
        return false, read;
      }
      KeptDecides(t, t.untar(r.image).entries);
      var info := GetVirtualMachineImageInfo(t, outMetadata, outRootfs);
      var metadataTarget := Path(Dir(t, m), info.metaSha256 + METADATA_SUFFIX);
      var rootfsTarget := Path(Dir(t, m), info.metaSha256 + ROOTFS_SUFFIX);
      var items := VmItems(t, m, outMetadata, outRootfs, info, r.incus, r.lxd);
      var p := BasePlan(t, m, r.aliases).(
        items := items, files := [(rootfsTarget, outRootfs), (metadataTarget, outMetadata)]);
      TwoFiles(root.files, p.files);
      ok := CarryOut(p);
    }

    /** What both imports end with: the index in memory first, then the files in order, index.json and
        images.json, up to the first write that fails. */
    method CarryOut(p: Plan) returns (ok: bool)
      modifies this, root
      ensures ok == (old(root.budget) >= |p.files| + 2)
      ensures Snapshot() == After(old(Snapshot()), p, old(root.budget))
    {
      ListProduct(p.product);
      AddItems(p);
      for i := 0 to |p.files|
        invariant names == Listed(old(names), p.product)
        invariant products == old(products)[p.product := NewProduct(old(products), p)]
        invariant root.indexJson == old(root.indexJson) && root.imagesJson == old(root.imagesJson)
        invariant root.budget == old(root.budget) - i
        invariant root.files == WriteFiles(old(root.files), p.files[..i])
      {
        assert p.files[..i + 1][..i] == p.files[..i];
        ok := root.WriteFile(p.files[i].0, p.files[i].1);
        if !ok {
          return;
        }
      }
      ok := root.WriteIndex(names);
      if ok {
        ok := root.WriteImages(products);
      }
    }
  }

  lemma OneFile(files: map<Path, Bytes>, writes: seq<(Path, Bytes)>)
    requires |writes| == 1
    ensures writes[..1] == writes && WriteFiles(files, writes) == files[writes[0].0 := writes[0].1]
  {
    assert WriteFiles(files, writes[..0]) == files;
  }

  lemma TwoFiles(files: map<Path, Bytes>, writes: seq<(Path, Bytes)>)
    requires |writes| == 2
    ensures writes[..2] == writes
    ensures WriteFiles(files, writes) == files[writes[0].0 := writes[0].1][writes[1].0 := writes[1].1]
  {
    OneFile(files, writes[..1]);
  }

  method VmItems(t: Tools, m: Metadata, meta: Bytes, root: Bytes, info: VmInfo, incus: bool, lxd: bool)
    returns (items: Version)
    requires info == VmInfo(|meta|, t.sha256(meta), |root|, t.sha256(root), t.sha256(meta + root))
    ensures forall aliases :: items == VmPlan(t, m, meta, root, aliases, incus, lxd).items
  {
    var metadataTarget := Path(Dir(t, m), info.metaSha256 + METADATA_SUFFIX);
    var rootfsTarget := Path(Dir(t, m), info.metaSha256 + ROOTFS_SUFFIX);
    items := map[];
    if incus {
      items := items[ROOTFS_INCUS := Item(ROOTFS_INCUS, info.rootSha256, info.rootSize, rootfsTarget, "", "")];
      items := items[METADATA_INCUS := Item(
        METADATA_INCUS, info.metaSha256, info.metaSize, metadataTarget, info.combinedSha256, "")];
    }
    assert items == if incus then IncusItems(t, m, meta, root) else map[];
    if lxd {
      items := items[ROOTFS_LXD := Item(ROOTFS_LXD, info.rootSha256, info.rootSize, rootfsTarget, "", "")];
      items := items[METADATA_LXD := Item(
        METADATA_LXD, info.metaSha256, info.metaSize, metadataTarget, "", info.combinedSha256)];
    }
  }

  lemma ContainerPlanIs(t: Tools, m: Metadata, r: Request, items: Version)
    requires items == (if r.incus then map[CONTAINER_INCUS := ContainerItem(t, m, r.image, CONTAINER_INCUS)] else map[])
                    + (if r.lxd then map[CONTAINER_LXD := ContainerItem(t, m, r.image, CONTAINER_LXD)] else map[])
    ensures BasePlan(t, m, r.aliases).(items := items, files := [(ContainerPath(t, m, r.image), r.image)])
      == ContainerPlan(t, m, r.image, r.aliases, r.incus, r.lxd)
  {
  }
}
