/** Imports touch only what is theirs, repeat without effect, and commute. */
module Commuting {
  import opened Common
  import opened Order
  import opened Text
  import opened Tarball
  import opened Catalog
  import Agreement

  // ---- frame -----------------------------------------------------------------------------------

  function ItemAt(products: Products, n: string, ver: string, k: string): Option<Item> {
    if n in products && ver in products[n].versions then Lookup(products[n].versions[ver], k) else None
  }

  /** After an import, an item is the plan's when the plan has it and is otherwise what it was; a product
      that is not the plan's is unchanged, and so is a file that the plan does not write. */
  lemma ImportFrame(s: Store, p: Plan, n: string, ver: string, k: string, path: Path)
    ensures ItemAt(Import(s, p).products, n, ver, k)
      == if n == p.product && ver == p.version && k in p.items then Some(p.items[k]) else ItemAt(s.products, n, ver, k)
    ensures n != p.product ==> Lookup(Import(s, p).products, n) == Lookup(s.products, n)
    ensures p.product in s.products ==>
      var product := Import(s, p).products[p.product];
      product == s.products[p.product].(aliases := product.aliases, versions := product.versions)
    ensures (forall w | w in p.files :: w.0 != path) ==> Lookup(Import(s, p).files, path) == Lookup(s.files, path)
    ensures n in Import(s, p).names <==> n in s.names || n == p.product
  {
    Agreement.WholeImport(s, p);
    Agreement.VersionsAfter(s.products, p, n, ver);
    WriteFilesGrows(s.files, p.files);
    InListed(s.names, p.product, n);
  }

  lemma InListed(names: seq<string>, product: string, n: string)
    ensures n in Listed(names, product) <==> n in names || n == product
  {
    var all := names + [product];
    SortSorts(all);
    assert n in Sort(all) <==> n in multiset(Sort(all));
    assert n in all <==> n in multiset(all);
  }

  // ---- writing ---------------------------------------------------------------------------------

  /** What a written path holds depends on the writes alone. */
  lemma {:induction false} WrittenBy(f: map<Path, Bytes>, g: map<Path, Bytes>, w: seq<(Path, Bytes)>, path: Path)
    requires exists x | x in w :: x.0 == path
    ensures path in WriteFiles(f, w) && path in WriteFiles(g, w) && WriteFiles(f, w)[path] == WriteFiles(g, w)[path]
  {
    var init, last := w[..|w| - 1], w[|w| - 1];
    if last.0 != path {
      var x :| x in w && x.0 == path;
      assert w == init + [last];
      assert x in init;
      WrittenBy(f, g, init, path);
    }
  }

  lemma WriteTwice(f: map<Path, Bytes>, w: seq<(Path, Bytes)>)
    ensures WriteFiles(WriteFiles(f, w), w) == WriteFiles(f, w)
  {
    var once := WriteFiles(f, w);
    WriteFilesGrows(f, w);
    WriteFilesGrows(once, w);
    forall path | path in WriteFiles(once, w) ensures path in once && WriteFiles(once, w)[path] == once[path] {
      if exists x | x in w :: x.0 == path {
        WrittenBy(once, f, w, path);
      }
    }
  }

  predicate NoSharedPath(v: seq<(Path, Bytes)>, w: seq<(Path, Bytes)>) {
    forall x, y | x in v && y in w :: x.0 != y.0
  }

  lemma WritesCommute(f: map<Path, Bytes>, v: seq<(Path, Bytes)>, w: seq<(Path, Bytes)>)
    requires NoSharedPath(v, w)
    ensures WriteFiles(WriteFiles(f, v), w) == WriteFiles(WriteFiles(f, w), v)
  {
    var a, b := WriteFiles(WriteFiles(f, v), w), WriteFiles(WriteFiles(f, w), v);
    forall path ensures Lookup(a, path) == Lookup(b, path) {
      WrittenLookup(f, v, w, path);
      WrittenLookup(f, w, v, path);
    }
    assert forall path :: path in a <==> Lookup(a, path).Some?;
    assert forall path :: path in b <==> Lookup(b, path).Some?;
    assert forall path | path in a :: Lookup(a, path) == Some(a[path]);
    assert forall path | path in b :: Lookup(b, path) == Some(b[path]);
  }

  lemma WrittenLookup(f: map<Path, Bytes>, v: seq<(Path, Bytes)>, w: seq<(Path, Bytes)>, path: Path)
    requires NoSharedPath(v, w)
    ensures Lookup(WriteFiles(WriteFiles(f, v), w), path)
      == if exists x | x in v :: x.0 == path then Lookup(WriteFiles(f, v), path)
         else if exists y | y in w :: y.0 == path then Lookup(WriteFiles(f, w), path)
         else Lookup(f, path)
  {
    WriteFilesGrows(f, v);
    WriteFilesGrows(WriteFiles(f, v), w);
    if (exists y | y in w :: y.0 == path) && !exists x | x in v :: x.0 == path {
      WrittenBy(WriteFiles(f, v), f, w, path);
    }
  }

  // ---- repeating -------------------------------------------------------------------------------

  lemma ProductTwice(products: Products, p: Plan)
    ensures NewProduct(products[p.product := NewProduct(products, p)], p) == NewProduct(products, p)
  {
    var once := NewProduct(products, p);
    var v := VersionOf(BaseProduct(products, p), p.version);
    assert v + p.items + p.items == v + p.items;
    assert once.versions[p.version := once.versions[p.version]] == once.versions;
  }

  /** Repeating an import changes nothing. */
  lemma ImportTwice(s: Store, p: Plan)
    ensures Import(Import(s, p), p) == Import(s, p)
  {
    var once := Import(s, p);
    assert p.files[..|p.files|] == p.files;
    InListed(s.names, p.product, p.product);
    ProductTwice(s.products, p);
    assert once.products[p.product := once.products[p.product]] == once.products;
    WriteTwice(s.files, p.files);
  }

  // ---- commuting -------------------------------------------------------------------------------

  lemma ListedCommutes(names: seq<string>, a: string, b: string)
    ensures Listed(Listed(names, a), b) == Listed(Listed(names, b), a)
  {
    InListed(names, a, b);
    InListed(names, b, a);
    if a !in names && b !in names && a != b {
      SortSorts(names + [a]);
      SortSorts(names + [b]);
      SortIgnoresOrder(Sort(names + [a]) + [b], Sort(names + [b]) + [a]);
    }
  }

  predicate SameFields(p: Plan, q: Plan) {
    p.architecture == q.architecture && p.os == q.os && p.release == q.release && p.variant == q.variant
  }

  /** What keeps two imports with disjoint items and files from commuting: the aliases of a shared product,
      or the description of one that does not exist yet. */
  predicate Clash(products: Products, p: Plan, q: Plan) {
    && p.product == q.product
    && (|| (p.aliases != [] && q.aliases != [] && Join(p.aliases, ',') != Join(q.aliases, ','))
        || (p.product !in products && !SameFields(p, q)))
  }

  function Both(products: Products, p: Plan, q: Plan): Products {
    Agreement.ProductsAfter(Agreement.ProductsAfter(products, p), q)
  }

  lemma VersionsCommute(versions: map<string, Version>, v: string, items: Version, w: string, more: Version)
    requires items.Keys !! more.Keys
    ensures AddItems(AddItems(versions, v, items), w, more) == AddItems(AddItems(versions, w, more), v, items)
  {
    if v == w {
      var base := if v in versions then versions[v] else map[];
      assert base + items + more == base + more + items;
      UpdateTwice(versions, v, base + items, base + items + more);
      UpdateTwice(versions, v, base + more, base + items + more);
    } else {
      UpdatesCommute(versions, v, AddItems(versions, v, items)[v], w, AddItems(versions, w, more)[w]);
    }
  }

  function AddItems(versions: map<string, Version>, ver: string, items: Version): map<string, Version> {
    versions[ver := (if ver in versions then versions[ver] else map[]) + items]
  }

  lemma NewProductIs(products: Products, p: Plan)
    ensures var base := BaseProduct(products, p);
      NewProduct(products, p) == base.(
        aliases := if p.aliases != [] then Join(p.aliases, ',') else base.aliases,
        versions := AddItems(base.versions, p.version, p.items))
  {
  }

  lemma SameProductCommutes(products: Products, p: Plan, q: Plan)
    requires p.items.Keys !! q.items.Keys && p.product == q.product
    ensures NewProduct(Agreement.ProductsAfter(products, p), q) == NewProduct(Agreement.ProductsAfter(products, q), p)
      <==> !Clash(products, p, q)
  {
    var bp, bq := BaseProduct(products, p), BaseProduct(products, q);
    NewProductIs(products, p);
    NewProductIs(products, q);
    NewProductIs(Agreement.ProductsAfter(products, p), q);
    NewProductIs(Agreement.ProductsAfter(products, q), p);
    assert bp.versions == bq.versions;
    VersionsCommute(bp.versions, p.version, p.items, q.version, q.items);
  }

  lemma ProductsCommute(products: Products, p: Plan, q: Plan)
    requires p.items.Keys !! q.items.Keys
    ensures Both(products, p, q) == Both(products, q, p) <==> !Clash(products, p, q)
  {
    var pq, qp := Both(products, p, q), Both(products, q, p);
    if p.product == q.product {
      SameProductCommutes(products, p, q);
      assert pq == products[p.product := pq[p.product]];
      assert qp == products[p.product := qp[p.product]];
    } else {
      assert pq == products[p.product := NewProduct(products, p)][q.product := NewProduct(products, q)];
      assert qp == products[q.product := NewProduct(products, q)][p.product := NewProduct(products, p)];
    }
  }

  lemma DisjointImportsCommute(s: Store, p: Plan, q: Plan)
    requires p.items.Keys !! q.items.Keys && NoSharedPath(p.files, q.files)
    ensures Import(Import(s, p), q) == Import(Import(s, q), p) <==> !Clash(s.products, p, q)
  {
    assert p.files[..|p.files|] == p.files && q.files[..|q.files|] == q.files;
    ListedCommutes(s.names, p.product, q.product);
    ProductsCommute(s.products, p, q);
    WritesCommute(s.files, p.files, q.files);
  }

  /** A container import and a VM import give the same index and the same files in either order, exactly
      when they do not clash over a product. */
  lemma ContainerAndVmCommute(
    t: Tools, s: Store,
    cm: Metadata, image: Bytes, ca: seq<string>, ci: bool, cl: bool,
    vm: Metadata, meta: Bytes, root: Bytes, va: seq<string>, vi: bool, vl: bool)
    ensures var p, q := ContainerPlan(t, cm, image, ca, ci, cl), VmPlan(t, vm, meta, root, va, vi, vl);
      Import(Import(s, p), q) == Import(Import(s, q), p) <==> !Clash(s.products, p, q)
  {
    var p, q := ContainerPlan(t, cm, image, ca, ci, cl), VmPlan(t, vm, meta, root, va, vi, vl);
    ItemKindsDiffer(t, cm, image, ca, ci, cl, vm, meta, root, va, vi, vl);
    Agreement.SuffixKinds(t.sha256(image), t.sha256(meta));
    DisjointImportsCommute(s, p, q);
  }

  lemma ItemKindsDiffer(
    t: Tools, cm: Metadata, image: Bytes, ca: seq<string>, ci: bool, cl: bool,
    vm: Metadata, meta: Bytes, root: Bytes, va: seq<string>, vi: bool, vl: bool)
    ensures ContainerPlan(t, cm, image, ca, ci, cl).items.Keys !! VmPlan(t, vm, meta, root, va, vi, vl).items.Keys
  {
  }

  // ---- colon-free product fields ---------------------------------------------------------------

  function Fields(m: Metadata): seq<string> {
    [Property(m, "os"), Property(m, "release"), Property(m, "variant"), Property(m, "architecture")]
  }

  predicate ColonFree(m: Metadata) { forall f | f in Fields(m) :: ':' !in f }

  /** Without colons in its fields a product name determines them. */
  lemma NameDeterminesFields(a: Metadata, b: Metadata)
    requires ColonFree(a) && ColonFree(b) && ProductName(a) == ProductName(b)
    ensures Fields(a) == Fields(b)
  {
    SplitJoin(Fields(a), ':');
    SplitJoin(Fields(b), ':');
  }

  /** With colon-free fields and the same aliases on both, the order never matters. */
  lemma SameAliasesCommute(
    t: Tools, s: Store, cm: Metadata, image: Bytes, ci: bool, cl: bool,
    vm: Metadata, meta: Bytes, root: Bytes, vi: bool, vl: bool, aliases: seq<string>)
    requires ColonFree(cm) && ColonFree(vm)
    ensures var p, q := ContainerPlan(t, cm, image, aliases, ci, cl), VmPlan(t, vm, meta, root, aliases, vi, vl);
      Import(Import(s, p), q) == Import(Import(s, q), p)
  {
    var p, q := ContainerPlan(t, cm, image, aliases, ci, cl), VmPlan(t, vm, meta, root, aliases, vi, vl);
    if ProductName(cm) == ProductName(vm) {
      NameDeterminesFields(cm, vm);
      assert Fields(cm)[0] == Fields(vm)[0] && Fields(cm)[1] == Fields(vm)[1]
        && Fields(cm)[2] == Fields(vm)[2] && Fields(cm)[3] == Fields(vm)[3];
    }
    ContainerAndVmCommute(t, s, cm, image, aliases, ci, cl, vm, meta, root, aliases, vi, vl);
  }

  // ---- compressing before importing ------------------------------------------------------------

  /** Importing the compressed tarball gives the plan of the original with the rootfs in its compressed
      form: the same metadata archive, product, version and paths. It is refused exactly when the original
      is refused for a reason other than an empty rootfs, has no rootfs, or compresses to nothing. */
  lemma CompressThenPlan(t: Tools, compress: Bytes -> Bytes, tar: Tar, r: Request)
    ensures var u := Unpack(t, tar.entries);
      VmRequest(t, Tar(Compressed(compress, tar.entries), tar.complete), r)
      == if u.None? || !tar.complete || t.archive(u.value.kept) == [] || u.value.metadata.architecture == ""
            || !HasRootfs(tar.entries) || compress(u.value.rootfs) == [] then None
         else Some(VmPlan(t, u.value.metadata, t.archive(u.value.kept), compress(u.value.rootfs),
                          r.aliases, r.incus, r.lxd))
  {
    CompressThenUnpack(t, compress, tar.entries);
  }

  lemma RootsShareTargets(t: Tools, m: Metadata, meta: Bytes, root: Bytes, other: Bytes, r: Request)
    ensures var p := VmPlan(t, m, meta, root, r.aliases, r.incus, r.lxd);
      var c := VmPlan(t, m, meta, other, r.aliases, r.incus, r.lxd);
      && c.items.Keys == p.items.Keys
      && forall k | k in p.items :: c.items[k].path == p.items[k].path
  {
  }

  /** Compressing changes no file but the rootfs, and the rootfs keeps its name. */
  lemma CompressKeepsTargets(t: Tools, compress: Bytes -> Bytes, tar: Tar, r: Request)
    requires VmRequest(t, tar, r).Some? && compress(Unpack(t, tar.entries).value.rootfs) != []
    ensures var c := VmRequest(t, Tar(Compressed(compress, tar.entries), tar.complete), r);
      var p := VmRequest(t, tar, r).value;
      && c.Some? && c.value.product == p.product && c.value.version == p.version
      && c.value.items.Keys == p.items.Keys
      && (forall k | k in p.items :: c.value.items[k].path == p.items[k].path)
      && |c.value.files| == |p.files| == 2
      && c.value.files[0] == (p.files[0].0, compress(p.files[0].1)) && c.value.files[1] == p.files[1]
  {
    RootfsNeedsEntry(t, tar.entries);
    CompressThenPlan(t, compress, tar, r);
    var u := Unpack(t, tar.entries).value;
    RootsShareTargets(t, u.metadata, t.archive(u.kept), u.rootfs, compress(u.rootfs), r);
  }
}
