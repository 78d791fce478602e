/** PE32.c: translation of relative virtual addresses (RVAs) to file positions, the inversion
    of the export name table, and the export search in a loaded image.  Memory is a function
    from offsets, counted from the base pointer, to bytes; the structures that the source lays
    over it ("PE Format", Microsoft, sections "Section Table (Section Headers)" and "The .edata
    Section") are records of their decoded fields. */
module PeImage {
  import opened Wrappers
  import opened WireFormat

  type Memory = nat -> Byte

  function U16(m: Memory, at: nat): nat { m(at) + 256 * m(at + 1) }

  function U32(m: Memory, at: nat): nat { U16(m, at) + 0x1_0000 * U16(m, at + 2) }

  // ---------- Sections ----------

  datatype Section = Section(va: nat, size: nat, raw: nat, rawSize: nat)

  /** What the code uses of a PE32 file or image: section headers, the export entry of the data
      directory, and the bytes. */
  datatype Image = Image(sections: seq<Section>, exportRva: nat, exportSize: nat, bytes: Memory)

  /** The end of the section is computed in 32 bits. */
  predicate Contains(c: Section, rva: nat) { c.va <= rva < (c.va + c.size) % TWO_TO_32 }

  /** The first section that contains the address. */
  function Lookup(secs: seq<Section>, rva: nat): (r: Option<nat>)
    ensures r.Some? ==> r.value < |secs| && Contains(secs[r.value], rva)
    ensures r.Some? ==> forall j :: 0 <= j < r.value ==> !Contains(secs[j], rva)
    ensures r == None ==> forall j :: 0 <= j < |secs| ==> !Contains(secs[j], rva)
  {
    if secs == [] then None
    else if Contains(secs[0], rva) then Some(0)
    else
      match Lookup(secs[1..], rva)
      case None => None
      case Some(i) => Some(i + 1)
  }

  /** The position, counted from the base, that the section header assigns to an address. */
  function Place(c: Section, rva: nat): int { rva - c.va + c.raw }

  /** RVA2FA32: a section passed in is used as it is; NULL is None. */
  function Translate(secs: seq<Section>, rva: nat, cached: Option<nat>): Option<int>
    requires cached.Some? ==> cached.value < |secs|
  {
    var found := if cached.Some? then cached else Lookup(secs, rva);
    if found == None then None else Some(Place(secs[found.value], rva))
  }

  /** Rva2Section32: the scan of the section headers. */
  method Rva2Section32(secs: seq<Section>, rva: nat) returns (r: Option<nat>)
    ensures r == Lookup(secs, rva)
    ensures r.Some? ==> r.value < |secs|
    ensures r.Some? ==> secs[r.value].va <= rva < (secs[r.value].va + secs[r.value].size) % 0x1_0000_0000
    ensures forall j :: 0 <= j < (if r.Some? then r.value else |secs|) ==>
      !(secs[j].va <= rva < (secs[j].va + secs[j].size) % 0x1_0000_0000)
  {
    var i := 0;
    while i < |secs|
      invariant 0 <= i <= |secs|
      invariant forall j :: 0 <= j < i ==> !Contains(secs[j], rva)
    {
      if secs[i].va <= rva < (secs[i].va + secs[i].size) % TWO_TO_32 {
        return Some(i);
      }
      i := i + 1;
    }
    r := None;
  }

  /** The caller's PIMAGE_SECTION_HEADER variable. */
  class SectionRef {
    var section: Option<nat>

    constructor ()
      ensures section == None
    {
      section := None;
    }
  }

  /** A section found, or already cached, is left in the caller's variable. */
  method Rva2Fa32(secs: seq<Section>, rva: nat, ref: SectionRef?) returns (fa: Option<int>)
    requires ref != null && ref.section.Some? ==> ref.section.value < |secs|
    modifies if ref == null then {} else {ref}
    ensures fa == Translate(secs, rva, if ref == null then None else old(ref.section))
    ensures ref != null ==>
      ref.section == if old(ref.section).Some? then old(ref.section) else Lookup(secs, rva)
    ensures var used := if ref != null && old(ref.section).Some? then old(ref.section) else Lookup(secs, rva);
      fa == if used == None then None else Some(rva - secs[used.value].va + secs[used.value].raw)
  {
    var found: Option<nat> := None;
    if ref != null && ref.section.Some? {
      found := ref.section;
    } else {
      found := Rva2Section32(secs, rva);
    }
    if found == None { return None; }
    if ref != null { ref.section := found; }
    var c := secs[found.value];
    fa := Some(rva - c.va + c.raw);
  }

  // ---------- The export directory ----------

  /** IMAGE_EXPORT_DIRECTORY. */
  datatype Directory = Directory(functionCount: nat, nameCount: nat, functions: nat, names: nat, ordinals: nat)

  function DirectoryAt(m: Memory, at: nat): Directory {
    Directory(U32(m, at + 20), U32(m, at + 24), U32(m, at + 28), U32(m, at + 32), U32(m, at + 36))
  }

  /** Tables of four-byte and of two-byte entries. */
  function Words(m: Memory, at: nat, n: nat): seq<nat> { seq(n, i requires i >= 0 => U32(m, at + 4 * i)) }

  function Halves(m: Memory, at: nat, n: nat): seq<nat> { seq(n, i requires i >= 0 => U16(m, at + 2 * i)) }

  /** The bytes of a number, the least significant first. */
  function LittleEndian(m: Memory, at: nat): nat {
    m(at) + 0x100 * m(at + 1) + 0x1_0000 * m(at + 2) + 0x100_0000 * m(at + 3)
  }

  /** Where "The .edata Section" puts the fields of the export directory. */
  lemma DirectoryLayout(m: Memory, at: nat)
    ensures var d := DirectoryAt(m, at);
      && d.functionCount == LittleEndian(m, at + 20) && d.nameCount == LittleEndian(m, at + 24)
      && d.functions == LittleEndian(m, at + 28) && d.names == LittleEndian(m, at + 32)
      && d.ordinals == LittleEndian(m, at + 36)
  {
  }

  /** And the entries of its tables. */
  lemma TableLayout(m: Memory, at: nat, n: nat, i: nat)
    requires i < n
    ensures |Words(m, at, n)| == |Halves(m, at, n)| == n
    ensures Words(m, at, n)[i] == LittleEndian(m, at + 4 * i)
    ensures Halves(m, at, n)[i] == m(at + 2 * i) + 0x100 * m(at + 2 * i + 1)
  {
  }

  /** The last index, if any, of a name with ordinal o. */
  function LastNaming(ordinals: seq<nat>, o: nat): (r: Option<nat>)
    ensures r.Some? ==> r.value < |ordinals| && ordinals[r.value] == o
    ensures r.Some? ==> forall j :: r.value < j < |ordinals| ==> ordinals[j] != o
    ensures r == None ==> o !in ordinals
  {
    if ordinals == [] then None
    else if ordinals[|ordinals| - 1] == o then Some(|ordinals| - 1)
    else LastNaming(ordinals[..|ordinals| - 1], o)
  }

  /** What the parser records for an ordinal: the file position of its name. */
  function SlotOf(secs: seq<Section>, names: seq<nat>, ordinals: seq<nat>, o: nat): Option<int>
    requires |names| == |ordinals|
  {
    match LastNaming(ordinals, o)
    case None => None
    case Some(i) => Translate(secs, names[i], None)
  }

  predicate InRange(ordinals: seq<nat>, count: nat) { forall i :: 0 <= i < |ordinals| ==> ordinals[i] < count }

  ghost predicate IsInversion(slots: seq<Option<int>>, secs: seq<Section>, names: seq<nat>, ordinals: seq<nat>)
    requires |names| == |ordinals|
  {
    forall o :: 0 <= o < |slots| ==> slots[o] == SlotOf(secs, names, ordinals, o)
  }

  /** A table the parser reads without checking its position. */
  predicate Readable(secs: seq<Section>, rva: nat) {
    var at := Translate(secs, rva, None);
    at.Some? && at.value >= 0
  }

  function Position(secs: seq<Section>, rva: nat): nat
    requires Readable(secs, rva)
  {
    Translate(secs, rva, None).value
  }

  /** Every table that has entries can be read. */
  predicate TablesReadable(secs: seq<Section>, d: Directory) {
    && (d.nameCount > 0 ==> Readable(secs, d.names) && Readable(secs, d.ordinals))
    && (d.functionCount > 0 ==> Readable(secs, d.functions))
  }

  function NameTable(file: Image, d: Directory): seq<nat>
    requires TablesReadable(file.sections, d)
  {
    if d.nameCount == 0 then [] else Words(file.bytes, Position(file.sections, d.names), d.nameCount)
  }

  function OrdinalTable(file: Image, d: Directory): seq<nat>
    requires TablesReadable(file.sections, d)
  {
    if d.nameCount == 0 then [] else Halves(file.bytes, Position(file.sections, d.ordinals), d.nameCount)
  }

  /** The directory, when it can be read. */
  function FileDirectory(file: Image): Option<Directory> {
    if Readable(file.sections, file.exportRva)
    then Some(DirectoryAt(file.bytes, Position(file.sections, file.exportRva)))
    else None
  }

  /** The parser returns true or false, or reads through a null pointer or one that points in
      front of the file. */
  datatype Outcome = Parsed | Rejected | Faulted

  /** An ordinal out of range is read before anything unreadable: the first one, or any when the
      name table can be read too. */
  ghost predicate RejectsOrdinals(file: Image, d: Directory) {
    && d.nameCount > 0
    && Readable(file.sections, d.ordinals)
    && var ordinals := Halves(file.bytes, Position(file.sections, d.ordinals), d.nameCount);
       ordinals[0] >= d.functionCount || (Readable(file.sections, d.names) && !InRange(ordinals, d.functionCount))
  }

  /** ParseExportTable32, for every file: `slots` is the array funcNameFOA, where None stands for
      zero. */
  method ParseExportTable32(file: Image) returns (outcome: Outcome, slots: array<Option<int>>)
    ensures fresh(slots)
    ensures outcome == Rejected <==>
      || Lookup(file.sections, file.exportRva) == None
      || (FileDirectory(file).Some? && RejectsOrdinals(file, FileDirectory(file).value))
    ensures outcome == Parsed <==>
      && FileDirectory(file).Some?
      && var d := FileDirectory(file).value;
         TablesReadable(file.sections, d) && InRange(OrdinalTable(file, d), d.functionCount)
    ensures outcome == Parsed ==>
      var d := FileDirectory(file).value;
      && slots.Length == d.functionCount
      && IsInversion(slots[..], file.sections, NameTable(file, d), OrdinalTable(file, d))
  {
    var secs := file.sections;
    var ref := new SectionRef();
    var at := Rva2Fa32(secs, file.exportRva, ref);
    slots := new Option<int>[0];
    if at == None { return Rejected, slots; }
    if at.value < 0 { return Faulted, slots; }
    outcome, slots := ReadTables(file, DirectoryAt(file.bytes, at.value));
  }

  method ReadTables(file: Image, d: Directory) returns (outcome: Outcome, slots: array<Option<int>>)
    ensures fresh(slots) && slots.Length == d.functionCount
    ensures outcome == Rejected <==> RejectsOrdinals(file, d)
    ensures outcome == Parsed <==>
      TablesReadable(file.sections, d) && InRange(OrdinalTable(file, d), d.functionCount)
    ensures outcome == Parsed ==>
      IsInversion(slots[..], file.sections, NameTable(file, d), OrdinalTable(file, d))
  {
    slots := new Option<int>[d.functionCount](_ => None);
    outcome := Parsed;
    if d.nameCount > 0 {
      outcome := ReadNames(file, d, slots);
    }
    var functions := Rva2Fa32(file.sections, d.functions, null);
    if outcome == Parsed && d.functionCount > 0 && (functions == None || functions.value < 0) {
      outcome := Faulted;
    }
  }

  /** The loop over a non-empty name table, pointers included. */
  method ReadNames(file: Image, d: Directory, slots: array<Option<int>>) returns (outcome: Outcome)
    requires d.nameCount > 0 && slots.Length == d.functionCount
    requires forall o :: 0 <= o < slots.Length ==> slots[o] == None
    modifies slots
    ensures outcome == Rejected <==> RejectsOrdinals(file, d)
    ensures outcome == Parsed <==>
      && Readable(file.sections, d.names) && Readable(file.sections, d.ordinals)
      && InRange(Halves(file.bytes, Position(file.sections, d.ordinals), d.nameCount), d.functionCount)
    ensures outcome == Parsed ==>
      IsInversion(slots[..], file.sections,
        Words(file.bytes, Position(file.sections, d.names), d.nameCount),
        Halves(file.bytes, Position(file.sections, d.ordinals), d.nameCount))
  {
    var secs := file.sections;
    var names := Rva2Fa32(secs, d.names, null);
    var ordinals := Rva2Fa32(secs, d.ordinals, null);
    if ordinals == None || ordinals.value < 0 { return Faulted; }
    var table := Halves(file.bytes, ordinals.value, d.nameCount);
    if names == None || names.value < 0 {
      return if table[0] >= slots.Length then Rejected else Faulted;
    }
    var ok := FillNames(secs, slots, Words(file.bytes, names.value, d.nameCount), table);
    outcome := if ok then Parsed else Rejected;
  }

  /** The loop that inverts the name table. */
  method FillNames(secs: seq<Section>, slots: array<Option<int>>, names: seq<nat>, ordinals: seq<nat>)
    returns (ok: bool)
    requires |names| == |ordinals|
    requires forall o :: 0 <= o < slots.Length ==> slots[o] == None
    modifies slots
    ensures ok <==> InRange(ordinals, slots.Length)
    ensures ok ==> IsInversion(slots[..], secs, names, ordinals)
  {
    var i := 0;
    while i < |names|
      invariant 0 <= i <= |names|
      invariant forall k :: 0 <= k < i ==> ordinals[k] < slots.Length
      invariant forall o :: 0 <= o < slots.Length ==> slots[o] == SlotOf(secs, names[..i], ordinals[..i], o)
    {
      var o := ordinals[i];
      if o >= slots.Length { return false; }
      var fa := Rva2Fa32(secs, names[i], null);
      forall x | 0 <= x < slots.Length
        ensures SlotOf(secs, names[..i + 1], ordinals[..i + 1], x) == if x == o then fa else slots[x]
      {
        NextName(secs, names, ordinals, i, x);
      }
      slots[o] := fa;
      i := i + 1;
    }
    assert names[..i] == names;
    assert ordinals[..i] == ordinals;
    ok := true;
  }

  lemma NextName(secs: seq<Section>, names: seq<nat>, ordinals: seq<nat>, i: nat, x: nat)
    requires i < |names| == |ordinals|
    ensures SlotOf(secs, names[..i + 1], ordinals[..i + 1], x)
         == if x == ordinals[i] then Translate(secs, names[i], None)
            else SlotOf(secs, names[..i], ordinals[..i], x)
  {
    assert ordinals[..i + 1][..i] == ordinals[..i];
  }

  // ---------- The search in a loaded image ----------

  /** The tables of an export directory. */
  datatype Exports = Exports(functions: seq<nat>, names: seq<nat>, ordinals: seq<nat>)

  function ExportsAt(m: Memory, d: Directory): (e: Exports)
    ensures |e.names| == |e.ordinals|
  {
    Exports(Words(m, d.functions, d.functionCount),
            Words(m, d.names, d.nameCount),
            Halves(m, d.ordinals, d.nameCount))
  }

  /** The tables of the search, byte by byte. */
  lemma NamesLayout(m: Memory, d: Directory, i: nat)
    requires i < d.nameCount
    ensures |ExportsAt(m, d).names| == |ExportsAt(m, d).ordinals| == d.nameCount
    ensures ExportsAt(m, d).names[i] == LittleEndian(m, d.names + 4 * i)
    ensures ExportsAt(m, d).ordinals[i] == m(d.ordinals + 2 * i) + 0x100 * m(d.ordinals + 2 * i + 1)
  {
    TableLayout(m, d.names, d.nameCount, i);
    TableLayout(m, d.ordinals, d.nameCount, i);
  }

  lemma FunctionsLayout(m: Memory, d: Directory, o: nat)
    requires o < d.functionCount
    ensures |ExportsAt(m, d).functions| == d.functionCount
    ensures ExportsAt(m, d).functions[o] == LittleEndian(m, d.functions + 4 * o)
  {
    TableLayout(m, d.functions, d.functionCount, o);
  }

  /** Those of a loaded image, where addresses are offsets from the base. */
  function ImageExports(image: Image): (e: Exports)
    ensures |e.names| == |e.ordinals|
  {
    ExportsAt(image.bytes, DirectoryAt(image.bytes, image.exportRva))
  }

  predicate StartsWith(m: Memory, at: nat, name: seq<Byte>) {
    forall j :: 0 <= j < |name| ==> m(at + j) == name[j]
  }

  /** An index the search stops at. */
  predicate Matches(m: Memory, e: Exports, name: seq<Byte>, i: nat)
    requires i < |e.names| == |e.ordinals|
  {
    StartsWith(m, e.names[i], name) && e.ordinals[i] < |e.functions|
  }

  /** The first index that matches. */
  predicate FirstMatch(m: Memory, e: Exports, name: seq<Byte>, at: nat)
    requires |e.names| == |e.ordinals|
  {
    at < |e.names| && Matches(m, e, name, at) && forall i :: 0 <= i < at ==> !Matches(m, e, name, i)
  }

  /** FindDllExportProcAddr32: the function of the first name that has `name` as a prefix and an
      ordinal in range; None exactly when there is no such name, or no export directory. */
  method FindDllExportProcAddr32(image: Image, name: seq<Byte>) returns (r: Option<nat>, ghost at: nat)
    ensures r == None <==>
      || image.exportSize == 0
      || image.exportRva == 0
      || var e := ImageExports(image);
         forall i :: 0 <= i < |e.names| ==> !Matches(image.bytes, e, name, i)
    ensures r.Some? ==>
      var e := ImageExports(image);
      FirstMatch(image.bytes, e, name, at) && r == Some(e.functions[e.ordinals[at]])
  {
    if image.exportSize == 0 || image.exportRva == 0 { return None, 0; }
    r, at := SearchNames(image.bytes, ImageExports(image), name);
  }

  /** The scan of the name table. */
  method SearchNames(m: Memory, e: Exports, name: seq<Byte>) returns (r: Option<nat>, ghost at: nat)
    requires |e.names| == |e.ordinals|
    ensures r == None <==> forall i :: 0 <= i < |e.names| ==> !Matches(m, e, name, i)
    ensures r.Some? ==> FirstMatch(m, e, name, at) && r == Some(e.functions[e.ordinals[at]])
  {
    var i := 0;
    while i < |e.names|
      invariant 0 <= i <= |e.names|
      invariant forall k :: 0 <= k < i ==> !Matches(m, e, name, k)
    {
      var j := 0;
      while j < |name| && m(e.names[i] + j) == name[j]
        invariant 0 <= j <= |name|
        invariant forall k :: 0 <= k < j ==> m(e.names[i] + k) == name[k]
      {
        j := j + 1;
      }
      assert j == |name| <==> StartsWith(m, e.names[i], name);
      if j == |name| && e.ordinals[i] < |e.functions| {
        assert Matches(m, e, name, i);
        return Some(e.functions[e.ordinals[i]]), i;
      }
      i := i + 1;
    }
    r, at := None, 0;
  }

  // ---------- Prefixes and exact names ----------

  /** The name stored at an address, up to its terminating zero. */
  ghost predicate Spells(m: Memory, at: nat, name: seq<Byte>) {
    0 !in name && StartsWith(m, at, name) && m(at + |name|) == 0
  }

  /** The order of the name table that "The .edata Section" prescribes: by bytes. */
  predicate Precedes(a: seq<Byte>, b: seq<Byte>) {
    b != [] && (a == [] || a[0] < b[0] || (a[0] == b[0] && Precedes(a[1..], b[1..])))
  }

  lemma {:induction false} PrefixComesFirst(a: seq<Byte>, b: seq<Byte>)
    requires a <= b
    ensures !Precedes(b, a)
  {
    if a != [] { PrefixComesFirst(a[1..], b[1..]); }
  }

  /** The texts of the name table. */
  ghost predicate SpelledOut(m: Memory, e: Exports, spelled: seq<seq<Byte>>) {
    |e.names| == |e.ordinals| == |spelled| && forall i :: 0 <= i < |spelled| ==> Spells(m, e.names[i], spelled[i])
  }

  /** An index with exactly the wanted name and an ordinal in range. */
  predicate Exact(e: Exports, spelled: seq<seq<Byte>>, name: seq<Byte>, i: nat)
    requires |e.ordinals| == |spelled|
  {
    i < |spelled| && spelled[i] == name && e.ordinals[i] < |e.functions|
  }

  /** The comparison covers only the bytes of the wanted name, so any name that starts with it
      matches. */
  lemma MatchesIffPrefix(m: Memory, e: Exports, spelled: seq<seq<Byte>>, name: seq<Byte>, i: nat)
    requires SpelledOut(m, e, spelled) && 0 !in name && i < |spelled|
    ensures Matches(m, e, name, i) <==> name <= spelled[i] && e.ordinals[i] < |e.functions|
  {
    if StartsWith(m, e.names[i], name) { PrefixOfSpelled(m, e.names[i], spelled[i], name); }
  }

  /** For every table: when the wanted name is exported, first at index j, the search returns it
      iff no name that starts with it, and has an ordinal in range, is listed before. */
  lemma ExactNameIff(m: Memory, e: Exports, spelled: seq<seq<Byte>>, name: seq<Byte>, at: nat, j: nat)
    requires SpelledOut(m, e, spelled) && 0 !in name && FirstMatch(m, e, name, at)
    requires Exact(e, spelled, name, j) && forall i :: 0 <= i < j ==> !Exact(e, spelled, name, i)
    ensures spelled[at] == name
       <==> forall i :: 0 <= i < j && e.ordinals[i] < |e.functions| ==> !(name <= spelled[i])
  {
    MatchesIffPrefix(m, e, spelled, name, at);
    MatchesIffPrefix(m, e, spelled, name, j);
    assert at <= j;
    forall i | 0 <= i < at ensures !(name <= spelled[i] && e.ordinals[i] < |e.functions|) {
      assert !Matches(m, e, name, i);
      MatchesIffPrefix(m, e, spelled, name, i);
    }
    if spelled[at] == name { assert Exact(e, spelled, name, at); }
  }

  /** When it is not exported, the search finds nothing iff no name with an ordinal in range
      starts with it; whatever it finds is a longer name. */
  lemma UnlistedName(m: Memory, e: Exports, spelled: seq<seq<Byte>>, name: seq<Byte>)
    requires SpelledOut(m, e, spelled) && 0 !in name
    requires forall i :: 0 <= i < |spelled| ==> !Exact(e, spelled, name, i)
    ensures (exists at: nat :: FirstMatch(m, e, name, at))
       <==> exists i :: 0 <= i < |spelled| && e.ordinals[i] < |e.functions| && name <= spelled[i]
    ensures forall at: nat :: FirstMatch(m, e, name, at) ==> name < spelled[at]
  {
    forall at: nat | FirstMatch(m, e, name, at) ensures name < spelled[at] {
      MatchesIffPrefix(m, e, spelled, name, at);
      assert !Exact(e, spelled, name, at);
    }
    if i :| 0 <= i < |spelled| && e.ordinals[i] < |e.functions| && name <= spelled[i] {
      MatchesIffPrefix(m, e, spelled, name, i);
      var at := LeastMatch(m, e, name, i);
    }
  }

  lemma {:induction false} LeastMatch(m: Memory, e: Exports, name: seq<Byte>, i: nat) returns (at: nat)
    requires i < |e.names| == |e.ordinals| && Matches(m, e, name, i)
    ensures FirstMatch(m, e, name, at)
  {
    if k: nat :| k < i && Matches(m, e, name, k) {
      at := LeastMatch(m, e, name, k);
    } else {
      at := i;
    }
  }

  /** In a table sorted as the format prescribes a name that is exported is found exactly. */
  lemma SortedTableGivesExactName(m: Memory, e: Exports, spelled: seq<seq<Byte>>, name: seq<Byte>, at: nat)
    requires SpelledOut(m, e, spelled) && 0 !in name && FirstMatch(m, e, name, at)
    requires forall i, j :: 0 <= i < j < |spelled| ==> Precedes(spelled[i], spelled[j])
    ensures spelled[at] == name <==> exists j :: 0 <= j < |spelled| && Exact(e, spelled, name, j)
  {
    MatchesIffPrefix(m, e, spelled, name, at);
    if spelled[at] == name { assert Exact(e, spelled, name, at); }
    if j :| 0 <= j < |spelled| && Exact(e, spelled, name, j) {
      forall i: nat | i < j ensures !(name <= spelled[i]) {
        if name <= spelled[i] { PrefixComesFirst(name, spelled[i]); }
      }
      assert forall i :: 0 <= i < j ==> !Exact(e, spelled, name, i);
      ExactNameIff(m, e, spelled, name, at, j);
    }
  }

  /** In a table that is not sorted a longer name can hide the wanted one. */
  lemma LongerNameWins() returns (m: Memory, e: Exports, name: seq<Byte>)
    ensures |e.names| == |e.ordinals| == 2 && InRange(e.ordinals, |e.functions|)
    ensures Spells(m, e.names[1], name)
    ensures FirstMatch(m, e, name, 0) && !Spells(m, e.names[0], name)
  {
    var text: seq<Byte> := [97, 98, 0, 97, 0];
    m := at => if 0 <= at < |text| then text[at] else 0;
    e, name := Exports([16, 32], [0, 3], [0, 1]), [97];
  }

  lemma {:induction false} WithinText(m: Memory, at: nat, spelled: seq<Byte>, name: seq<Byte>, j: nat)
    requires Spells(m, at, spelled) && StartsWith(m, at, name) && 0 !in name && j <= |name|
    ensures j <= |spelled|
  {
    if j > 0 {
      WithinText(m, at, spelled, name, j - 1);
      assert name[j - 1] in name && m(at + (j - 1)) == name[j - 1];
    }
  }

  lemma PrefixOfSpelled(m: Memory, at: nat, spelled: seq<Byte>, name: seq<Byte>)
    requires Spells(m, at, spelled) && StartsWith(m, at, name) && 0 !in name
    ensures name <= spelled
  {
    WithinText(m, at, spelled, name, |name|);
    assert forall j :: 0 <= j < |name| ==> m(at + j) == name[j];
  }
}
