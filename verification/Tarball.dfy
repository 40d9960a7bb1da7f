/** Unified image tarballs: what an import reads from them, and what compressing them first changes.

    Tar and gzip, YAML, SHA-256 and qemu-img are foreign; they are functions that the model is given. */
module Tarball {
  import opened Common

  newtype byte = x: int | 0 <= x < 256
  type Bytes = seq<byte>

  datatype Header = Header(name: string, size: nat, mode: nat)

  datatype Entry = Entry(header: Header, data: Bytes)

  /** A tar stream: the entries that can be read, and whether the stream ends there properly. */
  datatype Tar = Tar(entries: seq<Entry>, complete: bool)

  datatype Metadata = Metadata(architecture: string, properties: map<string, string>, creationDate: int)

  const NO_METADATA := Metadata("", map[], 0)

  function Property(m: Metadata, key: string): string {
    if key in m.properties then m.properties[key] else ""
  }

  /** The foreign functions: read a tar.gz, write one, decode YAML into an existing struct, SHA-256 in
      hex, format a time in the fixed zone, join a cleaned directory path. */
  datatype Tools = Tools(
    untar: Bytes -> Tar,
    archive: seq<Entry> -> Bytes,
    unmarshal: (Bytes, Metadata) -> Option<Metadata>,
    sha256: Bytes -> string,
    formatTime: int -> string,
    imageDir: (string, string, string) -> string)

  /** No two contents share a digest and no two entry lists an archive. */
  ghost predicate Injective(t: Tools) {
    && (forall x, y :: t.sha256(x) == t.sha256(y) ==> x == y)
    && (forall x, y :: t.archive(x) == t.archive(y) ==> x == y)
  }

  predicate IsMetadata(e: Entry) { e.header.name == "metadata.yaml" }

  predicate IsTemplate(e: Entry) { "templates/" <= e.header.name }

  predicate IsRootfs(e: Entry) { e.header.name == "rootfs.img" }

  lemma KindsDiffer(e: Entry)
    ensures !(IsMetadata(e) && IsTemplate(e)) && !(IsMetadata(e) && IsRootfs(e)) && !(IsTemplate(e) && IsRootfs(e))
  {
    if IsMetadata(e) {
      assert e.header.name[0] == 'm';
    }
    if IsTemplate(e) {
      assert e.header.name[0] == "templates/"[0] == 't';
    }
    if IsRootfs(e) {
      assert e.header.name[0] == 'r';
    }
  }

  // ---- virtual machine images ------------------------------------------------------------------

  /** What the import loop has collected. */
  datatype Unpacked = Unpacked(metadata: Metadata, kept: seq<Entry>, rootfs: Bytes)

  function Collect(t: Tools, u: Unpacked, e: Entry): Option<Unpacked> {
    if IsMetadata(e) then
      var metadata := t.unmarshal(e.data, u.metadata);
      if metadata.None? then None else Some(u.(metadata := metadata.value, kept := u.kept + [e]))
    else if IsTemplate(e) then Some(u.(kept := u.kept + [e]))
    else if IsRootfs(e) then Some(u.(rootfs := e.data))
    else Some(u)
  }

  function Unpack(t: Tools, entries: seq<Entry>): Option<Unpacked> {
    if entries == [] then Some(Unpacked(NO_METADATA, [], []))
    else
      var u := Unpack(t, entries[..|entries| - 1]);
      if u.None? then None else Collect(t, u.value, entries[|entries| - 1])
  }

  /** The metadata that an archive of kept entries decodes to. */
  function MetadataOf(t: Tools, kept: seq<Entry>): Option<Metadata> {
    if kept == [] then Some(NO_METADATA)
    else
      var m := MetadataOf(t, kept[..|kept| - 1]);
      var e := kept[|kept| - 1];
      if m.None? then None else if IsMetadata(e) then t.unmarshal(e.data, m.value) else m
  }

  /** The archive that an import writes determines the metadata that the import used. */
  lemma {:induction false} KeptDecides(t: Tools, entries: seq<Entry>)
    requires Unpack(t, entries).Some?
    ensures MetadataOf(t, Unpack(t, entries).value.kept) == Some(Unpack(t, entries).value.metadata)
  {
    if entries != [] {
      var init, e := entries[..|entries| - 1], entries[|entries| - 1];
      KeptDecides(t, init);
      KindsDiffer(e);
      var kept := Unpack(t, init).value.kept;
      assert (kept + [e])[..|kept|] == kept;
    }
  }

  // ---- compressing -----------------------------------------------------------------------------

  function CompressEntry(compress: Bytes -> Bytes, e: Entry): Entry {
    if !IsRootfs(e) then e
    else
      var compressed := compress(e.data);
      Entry(e.header.(size := |compressed|), compressed)
  }

  function Compressed(compress: Bytes -> Bytes, entries: seq<Entry>): seq<Entry> {
    seq(|entries|, i requires 0 <= i < |entries| => CompressEntry(compress, entries[i]))
  }

  /** Every header states the size of its data, as a tar reader guarantees and a tar writer demands. */
  predicate SizesMatch(entries: seq<Entry>) { forall e | e in entries :: e.header.size == |e.data| }

  /** compressUnifiedImageTarballRootfs. A tar writer refuses an entry whose header does not state the
      size of its data; `ok` says that it never had to. */
  method CompressRootfs(compress: Bytes -> Bytes, entries: seq<Entry>) returns (out: seq<Entry>, ok: bool)
    requires SizesMatch(entries)
    ensures ok && out == Compressed(compress, entries) && SizesMatch(out)
    ensures forall i | 0 <= i < |entries| ::
      && out[i].header.name == entries[i].header.name && out[i].header.mode == entries[i].header.mode
      && out[i].data == if entries[i].header.name == "rootfs.img" then compress(entries[i].data) else entries[i].data
  {
    out, ok := [], true;
    for i := 0 to |entries|
      invariant ok && out == Compressed(compress, entries)[..i] && SizesMatch(out)
    {
      var hdr, data := entries[i].header, entries[i].data;
      assert entries[i] in entries;
      if hdr.name == "rootfs.img" {
        data := compress(data);
        hdr := hdr.(size := |data|);
      }
      if hdr.size != |data| {
        ok := false;
      }
      out := out + [Entry(hdr, data)];
    }
  }

  /** Importing the compressed tarball collects what importing the original collects, with the rootfs in
      its compressed form, and fails exactly when the original fails. */
  lemma {:induction false} CompressThenUnpack(t: Tools, compress: Bytes -> Bytes, entries: seq<Entry>)
    ensures Unpack(t, Compressed(compress, entries)).Some? == Unpack(t, entries).Some?
    ensures Unpack(t, entries).Some? ==>
      var u, c := Unpack(t, entries).value, Unpack(t, Compressed(compress, entries)).value;
      c == u.(rootfs := if HasRootfs(entries) then compress(u.rootfs) else [])
  {
    if entries != [] {
      var init, e := entries[..|entries| - 1], entries[|entries| - 1];
      CompressThenUnpack(t, compress, init);
      KindsDiffer(e);
      var all := Compressed(compress, entries);
      assert all[..|all| - 1] == Compressed(compress, init);
      assert all[|all| - 1] == CompressEntry(compress, e);
      HasRootfsSnoc(init, e);
      LastApart(entries);
    }
  }

  predicate HasRootfs(entries: seq<Entry>) { exists e | e in entries :: IsRootfs(e) }

  lemma HasRootfsSnoc(entries: seq<Entry>, e: Entry)
    ensures HasRootfs(entries + [e]) <==> HasRootfs(entries) || IsRootfs(e)
  {
    assert e in entries + [e];
    if HasRootfs(entries) {
      var x :| x in entries && IsRootfs(x);
      assert x in entries + [e];
    }
  }

  lemma {:induction false} RootfsNeedsEntry(t: Tools, entries: seq<Entry>)
    requires Unpack(t, entries).Some? && Unpack(t, entries).value.rootfs != []
    ensures HasRootfs(entries)
  {
    if entries != [] {
      var init, e := entries[..|entries| - 1], entries[|entries| - 1];
      HasRootfsSnoc(init, e);
      LastApart(entries);
      if !IsRootfs(e) {
        RootfsNeedsEntry(t, init);
      }
    }
  }
}
