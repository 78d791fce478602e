/** Agreement between a PE32 file and the image that a loader makes of it: translated addresses,
    and the export tables that PE32.c reads from each. */
module PeLoader {
  import opened Wrappers
  import opened WireFormat
  import opened PeImage

  /** Section ends do not wrap and sections do not overlap in memory. */
  ghost predicate Disjoint(secs: seq<Section>) {
    && (forall c <- secs :: c.va + c.size < TWO_TO_32)
    && (forall i, j :: 0 <= i < j < |secs| ==>
         secs[i].va + secs[i].size <= secs[j].va || secs[j].va + secs[j].size <= secs[i].va)
  }

  /** Nor do the raw bytes overlap in the file. */
  ghost predicate RawDisjoint(secs: seq<Section>) {
    forall i, j :: 0 <= i < j < |secs| ==>
      secs[i].raw + secs[i].rawSize <= secs[j].raw || secs[j].raw + secs[j].rawSize <= secs[i].raw
  }

  /** The address lies in the section and has a byte in the file. */
  predicate Backed(c: Section, rva: nat) { c.va <= rva < c.va + c.size && rva - c.va < c.rawSize }

  /** The image after copying the raw bytes of the first n sections, one after the other, over
      `headers`. */
  function Loaded(secs: seq<Section>, n: nat, file: Memory, headers: Memory, rva: nat): Byte
    requires n <= |secs|
  {
    if n == 0 then headers(rva)
    else if Backed(secs[n - 1], rva) then file(secs[n - 1].raw + (rva - secs[n - 1].va))
    else Loaded(secs, n - 1, file, headers, rva)
  }

  lemma OnlyOneContains(secs: seq<Section>, i: nat, rva: nat)
    requires Disjoint(secs) && i < |secs| && secs[i].va <= rva < secs[i].va + secs[i].size
    ensures Lookup(secs, rva) == Some(i)
  {
    assert Contains(secs[i], rva);
    var r := Lookup(secs, rva);
    if r.value < i {
      assert false;
    }
  }

  /** The loaded byte at any address with raw bytes is the file byte at its translation. */
  lemma {:induction false} LoaderAgrees(secs: seq<Section>, n: nat, file: Memory, headers: Memory, i: nat, rva: nat)
    requires Disjoint(secs) && i < n <= |secs| && Backed(secs[i], rva)
    ensures Translate(secs, rva, None) == Some(secs[i].raw + (rva - secs[i].va))
    ensures Loaded(secs, n, file, headers, rva) == file(secs[i].raw + (rva - secs[i].va))
  {
    OnlyOneContains(secs, i, rva);
    if i < n - 1 {
      assert !Backed(secs[n - 1], rva);
      LoaderAgrees(secs, n - 1, file, headers, i, rva);
    }
  }

  /** Two addresses with raw bytes never share a file position. */
  lemma TranslationIsInjective(secs: seq<Section>, i: nat, j: nat, x: nat, y: nat)
    requires Disjoint(secs) && RawDisjoint(secs) && i < |secs| && j < |secs|
    requires Backed(secs[i], x) && Backed(secs[j], y) && x != y
    ensures Translate(secs, x, None) != Translate(secs, y, None)
  {
    OnlyOneContains(secs, i, x);
    OnlyOneContains(secs, j, y);
  }

  /** A call with a cached section agrees with a fresh lookup exactly when the lookup succeeds
      in a section that shifts addresses by the same amount. */
  lemma CachedSectionAgrees(secs: seq<Section>, rva: nat, cached: nat)
    requires cached < |secs|
    ensures Translate(secs, rva, Some(cached)) == Translate(secs, rva, None)
       <==> var f := Lookup(secs, rva);
            f.Some? && secs[f.value].raw - secs[f.value].va == secs[cached].raw - secs[cached].va
  {
  }

  /** In particular it does for the addresses of the cached section itself. */
  lemma CachedSectionOwnAddresses(secs: seq<Section>, rva: nat, cached: nat)
    requires Disjoint(secs) && cached < |secs|
    requires secs[cached].va <= rva < secs[cached].va + secs[cached].size
    ensures Translate(secs, rva, Some(cached)) == Translate(secs, rva, None)
  {
    OnlyOneContains(secs, cached, rva);
  }

  // ---------- The two views of the export table ----------

  /** The image is the file after loading. */
  ghost predicate IsLoaded(file: Image, headers: Memory, image: Image) {
    && image.sections == file.sections
    && image.exportRva == file.exportRva
    && forall x :: image.bytes(x) == Loaded(file.sections, |file.sections|, file.bytes, headers, x)
  }

  /** The bytes at an address are raw bytes of section c. */
  ghost predicate StoredIn(secs: seq<Section>, c: nat, rva: nat, length: nat) {
    c < |secs| && forall x :: rva <= x < rva + length ==> Backed(secs[c], x)
  }

  /** Bytes that lie in the raw part of some section. */
  ghost predicate Stored(secs: seq<Section>, rva: nat, length: nat) {
    exists c: nat :: StoredIn(secs, c, rva, length)
  }

  lemma StoredIsReadable(secs: seq<Section>, c: nat, rva: nat, length: nat)
    requires Disjoint(secs) && StoredIn(secs, c, rva, length) && length > 0
    ensures Lookup(secs, rva) == Some(c) && Readable(secs, rva) && Position(secs, rva) == Place(secs[c], rva)
  {
    assert Backed(secs[c], rva);
    OnlyOneContains(secs, c, rva);
  }

  /** n bytes of one memory are those of another. */
  ghost predicate SameBytes(m: Memory, at: nat, m': Memory, at': nat, n: nat) {
    forall k: nat :: at <= k < at + n ==> m(k) == m'(k - at + at')
  }

  lemma LoadedByte(file: Image, headers: Memory, image: Image, c: nat, rva: nat, n: nat, k: nat)
    requires Disjoint(file.sections) && IsLoaded(file, headers, image)
    requires StoredIn(file.sections, c, rva, n) && rva <= k < rva + n
    ensures Place(file.sections[c], rva) >= 0
    ensures image.bytes(k) == file.bytes(k - rva + Place(file.sections[c], rva))
  {
    assert Backed(file.sections[c], rva) && Backed(file.sections[c], k);
    LoaderAgrees(file.sections, |file.sections|, file.bytes, headers, c, k);
  }

  /** Stored bytes can be read at the translated position. */
  lemma LoadedBytes(file: Image, headers: Memory, image: Image, rva: nat, n: nat)
    requires Disjoint(file.sections) && IsLoaded(file, headers, image)
    requires Stored(file.sections, rva, n) && n > 0
    ensures Lookup(file.sections, rva).Some? && Readable(file.sections, rva)
    ensures SameBytes(image.bytes, rva, file.bytes, Position(file.sections, rva), n)
  {
    var c: nat :| StoredIn(file.sections, c, rva, n);
    StoredIsReadable(file.sections, c, rva, n);
    forall k: nat | rva <= k < rva + n
      ensures image.bytes(k) == file.bytes(k - rva + Position(file.sections, rva))
    {
      LoadedByte(file, headers, image, c, rva, n, k);
    }
  }

  lemma SameU16(m: Memory, at: nat, m': Memory, at': nat, n: nat, j: nat)
    requires SameBytes(m, at, m', at', n) && j + 2 <= n
    ensures U16(m, at + j) == U16(m', at' + j)
  {
    var k: nat := at + j;
    assert m(k) == m'(k - at + at') && m(k + 1) == m'(k + 1 - at + at');
  }

  lemma SameU32(m: Memory, at: nat, m': Memory, at': nat, n: nat, j: nat)
    requires SameBytes(m, at, m', at', n) && j + 4 <= n
    ensures U32(m, at + j) == U32(m', at' + j)
  {
    SameU16(m, at, m', at', n, j);
    SameU16(m, at, m', at', n, j + 2);
  }

  lemma SameDirectory(m: Memory, at: nat, m': Memory, at': nat)
    requires SameBytes(m, at, m', at', 40)
    ensures DirectoryAt(m, at) == DirectoryAt(m', at')
  {
    SameU32(m, at, m', at', 40, 20);
    SameU32(m, at, m', at', 40, 24);
    SameU32(m, at, m', at', 40, 28);
    SameU32(m, at, m', at', 40, 32);
    SameU32(m, at, m', at', 40, 36);
  }

  lemma SameWords(m: Memory, at: nat, m': Memory, at': nat, n: nat)
    requires SameBytes(m, at, m', at', 4 * n)
    ensures Words(m, at, n) == Words(m', at', n)
  {
    forall i: nat | i < n ensures Words(m, at, n)[i] == Words(m', at', n)[i] {
      SameU32(m, at, m', at', 4 * n, 4 * i);
    }
  }

  lemma SameHalves(m: Memory, at: nat, m': Memory, at': nat, n: nat)
    requires SameBytes(m, at, m', at', 2 * n)
    ensures Halves(m, at, n) == Halves(m', at', n)
  {
    forall i: nat | i < n ensures Halves(m, at, n)[i] == Halves(m', at', n)[i] {
      SameU16(m, at, m', at', 2 * n, 2 * i);
    }
  }

  /** The directory and its tables lie in raw bytes of sections. */
  ghost predicate ExportsStored(secs: seq<Section>, exportRva: nat, d: Directory) {
    && Stored(secs, exportRva, 40)
    && Stored(secs, d.names, 4 * d.nameCount)
    && Stored(secs, d.ordinals, 2 * d.nameCount)
    && Stored(secs, d.functions, 4 * d.functionCount)
  }

  lemma LoadedDirectory(file: Image, headers: Memory, image: Image)
    requires Disjoint(file.sections) && IsLoaded(file, headers, image) && Stored(file.sections, file.exportRva, 40)
    ensures FileDirectory(file) == Some(DirectoryAt(image.bytes, image.exportRva))
  {
    LoadedBytes(file, headers, image, file.exportRva, 40);
    SameDirectory(image.bytes, file.exportRva, file.bytes, Position(file.sections, file.exportRva));
  }

  lemma LoadedNames(file: Image, headers: Memory, image: Image, rva: nat, n: nat)
    requires Disjoint(file.sections) && IsLoaded(file, headers, image)
    requires n > 0 && Stored(file.sections, rva, 4 * n)
    ensures Readable(file.sections, rva)
    ensures Words(image.bytes, rva, n) == Words(file.bytes, Position(file.sections, rva), n)
  {
    LoadedBytes(file, headers, image, rva, 4 * n);
    SameWords(image.bytes, rva, file.bytes, Position(file.sections, rva), n);
  }

  lemma LoadedOrdinals(file: Image, headers: Memory, image: Image, rva: nat, n: nat)
    requires Disjoint(file.sections) && IsLoaded(file, headers, image)
    requires n > 0 && Stored(file.sections, rva, 2 * n)
    ensures Readable(file.sections, rva)
    ensures Halves(image.bytes, rva, n) == Halves(file.bytes, Position(file.sections, rva), n)
  {
    LoadedBytes(file, headers, image, rva, 2 * n);
    SameHalves(image.bytes, rva, file.bytes, Position(file.sections, rva), n);
  }

  lemma LoadedFunctions(file: Image, headers: Memory, image: Image, rva: nat, n: nat)
    requires Disjoint(file.sections) && IsLoaded(file, headers, image)
    requires n > 0 && Stored(file.sections, rva, 4 * n)
    ensures Readable(file.sections, rva)
  {
    LoadedBytes(file, headers, image, rva, 4 * n);
  }

  lemma SharedTables(file: Image, headers: Memory, image: Image, d: Directory)
    requires Disjoint(file.sections) && IsLoaded(file, headers, image)
    requires ExportsStored(file.sections, file.exportRva, d)
    ensures TablesReadable(file.sections, d)
    ensures NameTable(file, d) == Words(image.bytes, d.names, d.nameCount)
    ensures OrdinalTable(file, d) == Halves(image.bytes, d.ordinals, d.nameCount)
  {
    if d.functionCount > 0 { LoadedFunctions(file, headers, image, d.functions, d.functionCount); }
    if d.nameCount > 0 {
      LoadedNames(file, headers, image, d.names, d.nameCount);
      LoadedOrdinals(file, headers, image, d.ordinals, d.nameCount);
    }
  }

  /** The parser of the file, which translates every address, reads the tables that the search in
      the loaded image reads directly. */
  lemma FileAndImageShareTables(file: Image, headers: Memory, image: Image, d: Directory)
    requires Disjoint(file.sections) && IsLoaded(file, headers, image)
    requires d == DirectoryAt(image.bytes, image.exportRva) && ExportsStored(file.sections, file.exportRva, d)
    ensures FileDirectory(file) == Some(d) && TablesReadable(file.sections, d)
    ensures NameTable(file, d) == ImageExports(image).names
    ensures OrdinalTable(file, d) == ImageExports(image).ordinals
  {
    LoadedDirectory(file, headers, image);
    SharedTables(file, headers, image, d);
  }

  /** A name whose text lies in the raw bytes of a section has the same text at its position in
      the file. */
  lemma LoadedText(file: Image, headers: Memory, image: Image, rva: nat, text: seq<Byte>)
    requires Disjoint(file.sections) && IsLoaded(file, headers, image)
    requires Spells(image.bytes, rva, text) && Stored(file.sections, rva, |text| + 1)
    ensures Readable(file.sections, rva) && Spells(file.bytes, Position(file.sections, rva), text)
  {
    LoadedBytes(file, headers, image, rva, |text| + 1);
    forall j | 0 <= j < |text| ensures file.bytes(Position(file.sections, rva) + j) == text[j] {
      assert image.bytes(rva + j) == text[j];
    }
    assert image.bytes(rva + |text|) == 0;
  }

  lemma StartsWithIffPrefix(m: Memory, at: nat, text: seq<Byte>, name: seq<Byte>)
    requires Spells(m, at, text) && 0 !in name
    ensures StartsWith(m, at, name) <==> name <= text
  {
    if StartsWith(m, at, name) { PrefixOfSpelled(m, at, text, name); }
  }

  /** What the parser of the file records for the export that the search of the loaded image
      selects at index `at`: the position of the last name with the same ordinal.  That is a name
      starting with the wanted one iff the last name is. */
  lemma SearchAgreesWithTable(file: Image, headers: Memory, image: Image, d: Directory, name: seq<Byte>, at: nat,
                              last: nat, text: seq<Byte>)
    requires Disjoint(file.sections) && IsLoaded(file, headers, image)
    requires d == DirectoryAt(image.bytes, image.exportRva) && ExportsStored(file.sections, file.exportRva, d)
    requires FirstMatch(image.bytes, ImageExports(image), name, at) && 0 !in name
    requires LastNaming(ImageExports(image).ordinals, ImageExports(image).ordinals[at]) == Some(last)
    requires Spells(image.bytes, ImageExports(image).names[last], text)
    requires Stored(file.sections, ImageExports(image).names[last], |text| + 1)
    ensures FileDirectory(file) == Some(d) && TablesReadable(file.sections, d)
    ensures var o := ImageExports(image).ordinals[at];
      var slot := SlotOf(file.sections, NameTable(file, d), OrdinalTable(file, d), o);
      && slot.Some? && slot.value >= 0 && Spells(file.bytes, slot.value, text)
      && (StartsWith(file.bytes, slot.value, name) <==>
            StartsWith(image.bytes, ImageExports(image).names[last], name))
  {
    FileAndImageShareTables(file, headers, image, d);
    var rva := ImageExports(image).names[last];
    LoadedText(file, headers, image, rva, text);
    StartsWithIffPrefix(image.bytes, rva, text, name);
    StartsWithIffPrefix(file.bytes, Position(file.sections, rva), text, name);
  }

  /** When each ordinal is named once, both name the same export. */
  lemma DistinctOrdinalsAgree(file: Image, headers: Memory, image: Image, d: Directory, name: seq<Byte>, at: nat,
                              text: seq<Byte>)
    requires Disjoint(file.sections) && IsLoaded(file, headers, image)
    requires d == DirectoryAt(image.bytes, image.exportRva) && ExportsStored(file.sections, file.exportRva, d)
    requires FirstMatch(image.bytes, ImageExports(image), name, at) && 0 !in name
    requires var ordinals := ImageExports(image).ordinals;
      forall i, j :: 0 <= i < j < |ordinals| ==> ordinals[i] != ordinals[j]
    requires Spells(image.bytes, ImageExports(image).names[at], text)
    requires Stored(file.sections, ImageExports(image).names[at], |text| + 1)
    ensures FileDirectory(file) == Some(d) && TablesReadable(file.sections, d)
    ensures var o := ImageExports(image).ordinals[at];
      var slot := SlotOf(file.sections, NameTable(file, d), OrdinalTable(file, d), o);
      slot.Some? && slot.value >= 0 && StartsWith(file.bytes, slot.value, name)
  {
    var e := ImageExports(image);
    assert LastNaming(e.ordinals, e.ordinals[at]) == Some(at);
    SearchAgreesWithTable(file, headers, image, d, name, at, at, text);
  }

  /** An alias: two names of one ordinal.  The search finds the first, the parser keeps the other. */
  lemma AliasHidesName() returns (m: Memory, e: Exports, name: seq<Byte>)
    ensures |e.names| == |e.ordinals| == 2 && InRange(e.ordinals, |e.functions|)
    ensures FirstMatch(m, e, name, 0) && Spells(m, e.names[0], name)
    ensures LastNaming(e.ordinals, e.ordinals[0]) == Some(1) && !StartsWith(m, e.names[1], name)
  {
    var text: seq<Byte> := [97, 0, 98, 0];
    m := at => if 0 <= at < |text| then text[at] else 0;
    e, name := Exports([16], [0, 2], [0, 0]), [97];
    assert m(e.names[1] + 0) == 98 != name[0];
  }
}
