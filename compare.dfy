/** The structure-aware byte diff of hex_compare.py (`old_compare`), taking the two
    buffers instead of reading the files. For each buffer it lays out a 13-entry table
    of the file's sections; for each record count on which the buffers differ it blanks
    that section in both and shifts the right-hand table so that later sections line
    up again; it gives up when the map sizes or the lengths differ; and it reports
    every differing byte with the section it falls in. `Map.byte_length`, which the
    table uses but `Map` never defines, is the parameter `mapLength`. */
module Compare {
  import opened Errors
  import opened Bytes
  import Colonies
  import Units
  import Villages
  import Powers
  import Trade
  import Headers
  import Maps

  /** An entry of the section table: label, start address, record length. */
  datatype Section = Section(name: string, start: int, length: int)

  const TableSize: nat := 13

  const Labels: seq<string> := [
    "Header       ", "Colonies     ", "Units        ", "Powers       ", "Villages     ",
    "Unknown B    ", "Terrain Map  ", "Unknown Map C", "Visible Map  ", "Unknown Map D",
    "Unknown E    ", "Unknown F    ", "Trade Routes "]

  /** The table with the record sizes summed beforehand: `colonies`, `units` and
      `villages` bytes of records, and map layers of `layer` bytes each. */
  function TableFrom(colonies: int, units: int, villages: int, layer: int, mapLength: int): (t: seq<Section>)
    ensures |t| == TableSize && t[0].start == 0
  {
    var records := colonies + units;
    [ Section(Labels[0], 0, Headers.HeaderLength),
      Section(Labels[1], 0x186, Colonies.ColonyLength),
      Section(Labels[2], 0x186 + colonies, Units.UnitLength),
      Section(Labels[3], 0x186 + records, Powers.PowerLength),
      Section(Labels[4], 0x676 + records, Villages.VillageLength),
      Section(Labels[5], 0x676 + records + villages, mapLength),
      Section(Labels[6], 0xBBD + records + villages + 0 * layer, mapLength),
      Section(Labels[7], 0xBBD + records + villages + 1 * layer, mapLength),
      Section(Labels[8], 0xBBD + records + villages + 2 * layer, mapLength),
      Section(Labels[9], 0xBBD + records + villages + 3 * layer, mapLength),
      Section(Labels[10], 0xBBD + records + villages + 4 * layer, mapLength),
      Section(Labels[11], 0xDB5 + records + villages + 4 * layer, mapLength),
      Section(Labels[12], 0xE23 + records + villages + 4 * layer, Trade.RouteLength) ]
  }

  /** The `field` list `old_compare` builds for counts `c`, `u`, `v` and map dimensions
      `width` by `height`. */
  function Table(c: nat, u: nat, v: nat, width: nat, height: nat, mapLength: int): seq<Section>
  {
    TableFrom(Colonies.ColonyLength * c, Units.UnitLength * u, Villages.VillageLength * v, width * height, mapLength)
  }

  /** One round of the table loop: the counts, which raise IndexError on a buffer that
      ends before byte 0x2E, and the 16-bit map dimensions. */
  function TableOf(data: seq<byte>, mapLength: int): Result<seq<Section>>
  {
    var c :- At(data, 0x2E);
    var u :- At(data, 0x2C);
    var v :- At(data, 0x2A);
    Ok(Table(c, u, v, Word(data, 0x0C, 2), Word(data, 0x0E, 2), mapLength))
  }

  /** `fields` after the table loop: both tables, or the IndexError of the first buffer
      too short for its counts. */
  function Tables(data1: seq<byte>, data2: seq<byte>, mapLength: int): Result<(seq<Section>, seq<Section>)>
  {
    var left :- TableOf(data1, mapLength);
    var right :- TableOf(data2, mapLength);
    Ok((left, right))
  }

  /** The entries of `sizes` that matter: the address of a count and the index of the
      section it counts. */
  const CountFields: seq<(int, nat)> := [(0x2E, 1), (0x2C, 2), (0x2A, 4)]

  /** The buffers and the two tables while the mismatch loop runs. */
  datatype Aligned = Aligned(data1: seq<byte>, data2: seq<byte>, left: seq<Section>, right: seq<Section>)

  /** `b'\x00' * n`. */
  function Zeros(n: int): (z: seq<byte>)
    ensures |z| == (if n <= 0 then 0 else n)
    ensures forall i :: 0 <= i < |z| ==> z[i] == 0
  {
    if n <= 0 then [] else seq(n, _ => 0)
  }

  /** `s[:lo] + b'\x00' * n + s[hi:]`. */
  function Blank(s: seq<byte>, lo: int, n: int, hi: int): seq<byte>
  {
    Slice(s, 0, lo) + Zeros(n) + Slice(s, hi, |s|)
  }

  /** The right-hand table with `removed` taken off every start after entry `field`. */
  function Shift(table: seq<Section>, field: nat, removed: int): (t: seq<Section>)
    requires field < |table|
    ensures |t| == |table|
  {
    table[..field + 1] +
      seq(|table| - field - 1, j requires 0 <= j < |table| - field - 1 =>
        table[field + 1 + j].(start := table[field + 1 + j].start - removed))
  }

  /** One round of the mismatch loop, for the count at `address` of section `field`:
      nothing when the buffers agree on it; otherwise the section is blanked in both
      buffers, its left-hand length in zeros, and the right-hand table realigned. */
  function Realign(a: Aligned, address: int, field: nat): (r: Result<Aligned>)
    requires field + 1 < |a.left| && field + 1 < |a.right|
    ensures r.Ok? ==> r.value.left == a.left && |r.value.right| == |a.right|
  {
    var b1 :- At(a.data1, address);
    var b2 :- At(a.data2, address);
    if b1 == b2 then Ok(a)
    else
      var cutsize := a.left[field + 1].start - a.left[field].start;
      var removed := a.right[field + 1].start - a.left[field + 1].start;
      var data1 := Blank(a.data1, a.left[field].start, cutsize, a.left[field + 1].start);
      var data2 := Blank(a.data2, a.right[field].start, cutsize, a.right[field + 1].start);
      Ok(Aligned(data1, data2, a.left, Shift(a.right, field, removed)))
  }

  /** The first `n` rounds of the mismatch loop. */
  function Aligning(a: Aligned, n: nat): (r: Result<Aligned>)
    requires n <= |CountFields| && |a.left| == |a.right| == TableSize
    ensures r.Ok? ==> r.value.left == a.left && |r.value.right| == TableSize
  {
    if n == 0 then Ok(a)
    else
      var before :- Aligning(a, n - 1);
      Realign(before, CountFields[n - 1].0, CountFields[n - 1].1)
  }

  /** Once a round of the mismatch loop has raised, the loop is over. */
  lemma {:induction false} AligningStop(a: Aligned, k: nat, n: nat)
    requires k <= n <= |CountFields| && |a.left| == |a.right| == TableSize
    requires Aligning(a, k).Err?
    ensures Aligning(a, n) == Aligning(a, k)
  {
    if n > k {
      AligningStop(a, k, n - 1);
    }
  }

  /** One more round of the mismatch loop. */
  lemma AligningNext(start: Aligned, k: nat, a: Aligned)
    requires k < |CountFields| && |start.left| == |start.right| == TableSize
    requires Aligning(start, k) == Ok(a)
    ensures |a.left| == |a.right| == TableSize
    ensures Aligning(start, k + 1) == Realign(a, CountFields[k].0, CountFields[k].1)
  {
  }

  /** The bytes holding the map width and height. */
  const MapSizeBytes: seq<int> := [0x0C, 0x0D, 0x0E, 0x0F]

  /** `any(data1[loc] != data2[loc] for loc in locs)`, which stops at the first
      difference and raises IndexError on a byte past either buffer. */
  function AnyDiffers(data1: seq<byte>, data2: seq<byte>, locs: seq<int>): Result<bool>
  {
    if |locs| == 0 then Ok(false)
    else
      var b1 :- At(data1, locs[0]);
      var b2 :- At(data2, locs[0]);
      if b1 != b2 then Ok(true) else AnyDiffers(data1, data2, locs[1..])
  }

  /** The index of the last of the first `n` entries starting at or before `address`. */
  function LastStarting(table: seq<Section>, address: int, n: nat): (i: nat)
    requires 0 < n <= |table| && table[0].start <= address
    ensures i < n && table[i].start <= address
    ensures forall j :: i < j < n ==> table[j].start > address
  {
    if n == 1 || table[n - 1].start <= address then n - 1 else LastStarting(table, address, n - 1)
  }

  /** Whether a label contains `Map`. */
  predicate MentionsMap(name: string)
  {
    |name| >= 3 && ((name[0] == 'M' && name[1] == 'a' && name[2] == 'p') || MentionsMap(name[1..]))
  }

  /** How a change is placed inside its section. */
  datatype Detail = Plain | Group(group: int, index: int) | Position(column: int, row: int)

  /** One reported change: address, old and new byte, label and offset of the section. */
  datatype Change = Change(address: nat, before: byte, after: byte, section: string, offset: int, detail: Detail)

  /** The report for one differing byte: the last section starting at or before the
      address labels it; a section of records longer than one byte splits the offset
      into record and byte, and a map layer into column and row, which raises
      ZeroDivisionError for width 0. */
  function Report(table: seq<Section>, width: nat, address: nat, before: byte, after: byte): Result<Change>
    requires |table| > 0 && table[0].start <= address
  {
    var s := table[LastStarting(table, address, |table|)];
    var offset := address - s.start;
    if s.length > 1 then Ok(Change(address, before, after, s.name, offset, Group(offset / s.length, offset % s.length)))
    else if MentionsMap(s.name) then
      if width == 0 then Err(DivisionByZero)
      else Ok(Change(address, before, after, s.name, offset, Position(offset % width, offset / width)))
    else Ok(Change(address, before, after, s.name, offset, Plain))
  }

  /** The reports of the scanning loop for the first `n` addresses, and the exception that
      stopped it, if one did. */
  function Changes(data1: seq<byte>, data2: seq<byte>, table: seq<Section>, width: nat, n: nat): Run<Change>
    requires n <= |data1| && n <= |data2| && |table| > 0 && table[0].start <= 0
  {
    if n == 0 then Run([], None)
    else
      var run := Changes(data1, data2, table, width, n - 1);
      if data1[n - 1] == data2[n - 1] then run
      else Extend(run, Report(table, width, n - 1, data1[n - 1], data2[n - 1]))
  }

  /** `old_compare` on two buffers, without its printing: the changes it reports and the
      exception that ends it, if one does. An exception before the scan reports nothing. */
  function CompareBuffers(data1: seq<byte>, data2: seq<byte>, mapLength: int): Run<Change>
  {
    match Tables(data1, data2, mapLength)
    case Err(e) => Run([], Some(e))
    case Ok((left, right)) =>
      // the map width left over from the table loop is the right-hand buffer's
      var width := Word(data2, 0x0C, 2);
      match Aligning(Aligned(data1, data2, left, right), |CountFields|)
      case Err(e) => Run([], Some(e))
      case Ok(a) => Finish(a, width)
  }

  /** What `old_compare` does once the mismatch loop is over: the map-size and length
      checks, then the scan. */
  function Finish(a: Aligned, width: nat): Run<Change>
    requires |a.left| > 0 && a.left[0].start <= 0
  {
    match AnyDiffers(a.data1, a.data2, MapSizeBytes)
    case Err(e) => Run([], Some(e))
    case Ok(true) => Run([], Some(DifferentMapSize))
    case Ok(false) =>
      if |a.data1| != |a.data2| then Run([], Some(DifferentFileSizes))
      else Changes(a.data1, a.data2, a.left, width, |a.data1|)
  }

  /** The table loop of `old_compare`, over the two buffers in turn. */
  method ReadTables(data1: seq<byte>, data2: seq<byte>, mapLength: int)
    returns (r: Result<(seq<Section>, seq<Section>)>, width: nat)
    ensures r == Tables(data1, data2, mapLength)
    ensures r.Ok? ==> width == Word(data2, 0x0C, 2)
  {
    var buffers := [data1, data2];
    var fields: seq<seq<Section>> := [];
    width := 0;
    for k := 0 to |buffers|
      invariant |fields| == k
      invariant forall j :: 0 <= j < k ==> TableOf(buffers[j], mapLength) == Ok(fields[j])
      invariant k == 2 ==> width == Word(data2, 0x0C, 2)
    {
      var data := buffers[k];
      if |data| <= 0x2E {
        return Err(IndexOutOfRange(0x2E)), width;
      }
      var numCol, numUnit, numVill := data[0x2E], data[0x2C], data[0x2A];
      width := Word(data, 0x0C, 2);
      var height := Word(data, 0x0E, 2);
      fields := fields + [Table(numCol, numUnit, numVill, width, height, mapLength)];
    }
    r := Ok((fields[0], fields[1]));
  }

  /** The mismatch loop of `old_compare`, one count at a time. */
  method AlignSections(start: Aligned) returns (r: Result<Aligned>)
    requires |start.left| == |start.right| == TableSize
    ensures r == Aligning(start, |CountFields|)
  {
    var a := start;
    for k := 0 to |CountFields|
      invariant Aligning(start, k) == Ok(a)
    {
      var (address, field) := CountFields[k];
      r := Realign(a, address, field);
      AligningNext(start, k, a);
      if r.Err? {
        AligningStop(start, k + 1, |CountFields|);
        return r;
      }
      a := r.value;
    }
    r := Ok(a);
  }

  /** The inner loop of the scan: the label, offset and length of the last section
      starting at or before `address`. */
  method Locate(table: seq<Section>, address: int) returns (name: string, offset: int, group: int)
    requires |table| > 0 && table[0].start <= address
    ensures var s := table[LastStarting(table, address, |table|)];
      name == s.name && offset == address - s.start && group == s.length
  {
    name := "";
    offset, group := 0, 0;
    for i := 0 to |table|
      invariant i > 0 ==> var s := table[LastStarting(table, address, i)];
        name == s.name && offset == address - s.start && group == s.length
    {
      if address >= table[i].start {
        name := table[i].name;
        offset := address - table[i].start;
        group := table[i].length;
      }
    }
  }

  /** The scanning loop of `old_compare` over buffers of equal length. */
  method Scan(data1: seq<byte>, data2: seq<byte>, table: seq<Section>, width: nat) returns (run: Run<Change>)
    requires |data1| == |data2| && |table| > 0 && table[0].start <= 0
    ensures run == Changes(data1, data2, table, width, |data1|)
  {
    run := Run([], None);
    for address := 0 to |data1|
      invariant run == Changes(data1, data2, table, width, address)
      invariant run.failure == None
    {
      if data1[address] != data2[address] {
        var name, offset, group := Locate(table, address);
        var detail: Detail;
        if group > 1 {
          detail := Group(offset / group, offset % group);
        } else if MentionsMap(name) {
          if width == 0 {
            run := Extend(run, Err(DivisionByZero));
            ChangesStop(data1, data2, table, width, address + 1, |data1|);
            return;
          }
          detail := Position(offset % width, offset / width);
        } else {
          detail := Plain;
        }
        run := Extend(run, Ok(Change(address, data1[address], data2[address], name, offset, detail)));
      }
    }
  }

  /** The scan itself raises nothing but the ZeroDivisionError of a map position. */
  lemma {:induction false} ChangesNeverAbort(data1: seq<byte>, data2: seq<byte>, table: seq<Section>, width: nat, n: nat)
    requires n <= |data1| && n <= |data2| && |table| > 0 && table[0].start <= 0
    ensures Changes(data1, data2, table, width, n).failure in {None, Some(DivisionByZero)}
  {
    if n > 0 {
      ChangesNeverAbort(data1, data2, table, width, n - 1);
    }
  }

  /** Once a report has raised, the scan reports nothing more. */
  lemma {:induction false} ChangesStop(data1: seq<byte>, data2: seq<byte>, table: seq<Section>, width: nat, n: nat, m: nat)
    requires n <= m <= |data1| && m <= |data2| && |table| > 0 && table[0].start <= 0
    requires Changes(data1, data2, table, width, n).failure.Some?
    ensures Changes(data1, data2, table, width, m) == Changes(data1, data2, table, width, n)
  {
    if m > n {
      ChangesStop(data1, data2, table, width, n, m - 1);
    }
  }

  /** `old_compare(args)` on the two buffers, without its printing. */
  method OldCompare(data1: seq<byte>, data2: seq<byte>, mapLength: int) returns (run: Run<Change>)
    ensures run == CompareBuffers(data1, data2, mapLength)
  {
    var tables, width := ReadTables(data1, data2, mapLength);
    if tables.Err? {
      return Run([], Some(tables.error));
    }
    var (left, right) := tables.value;
    var aligned := AlignSections(Aligned(data1, data2, left, right));
    if aligned.Err? {
      return Run([], Some(aligned.error));
    }
    var a := aligned.value;
    var differs := AnyDiffers(a.data1, a.data2, MapSizeBytes);
    if differs.Err? {
      return Run([], Some(differs.error));
    }
    if differs.value {
      return Run([], Some(DifferentMapSize));
    }
    if |a.data1| != |a.data2| {
      return Run([], Some(DifferentFileSizes));
    }
    run := Scan(a.data1, a.data2, a.left, width);
  }

  /** The section table has 13 entries whose starts never decrease, whatever the counts
      and the map dimensions. */
  lemma TableOrdered(c: nat, u: nat, v: nat, width: nat, height: nat, mapLength: int)
    ensures var t := Table(c, u, v, width, height, mapLength);
      && |t| == TableSize
      && forall i, j :: 0 <= i <= j < TableSize ==> t[i].start <= t[j].start
  {
    var t := Table(c, u, v, width, height, mapLength);
    assert forall i :: 0 <= i < TableSize - 1 ==> t[i].start <= t[i + 1].start;
    forall i, j | 0 <= i <= j < TableSize
      ensures t[i].start <= t[j].start
    {
      var k := i;
      while k < j
        invariant i <= k <= j && t[i].start <= t[k].start
      {
        k := k + 1;
      }
    }
  }

  /** The gaps between consecutive starts: the colony records, the unit records, four
      power records of 316 bytes, and one map layer between consecutive layers. */
  lemma TableGaps(c: nat, u: nat, v: nat, width: nat, height: nat, mapLength: int)
    ensures var t := Table(c, u, v, width, height, mapLength);
      && t[1].start == 0x186
      && t[2].start - t[1].start == 202 * c
      && t[3].start - t[2].start == 28 * u
      && t[4].start - t[3].start == 0x4F0 == 4 * Powers.PowerLength
      && t[5].start - t[4].start == 18 * v
      && forall k :: 6 <= k < 10 ==> t[k + 1].start - t[k].start == width * height
  {
  }

  /** Against the header's layout: colonies, units and powers start where `__parse` says,
      and the villages where powers plus four power records put them; the header's own
      village address is never the table's, as 0x4F0 is not a multiple of 18. */
  lemma TableAgainstHeader(data: seq<byte>, mapLength: int)
    requires TableOf(data, mapLength).Ok? && Headers.ParseLayout(data).Ok?
    ensures var (t, l) := (TableOf(data, mapLength).value, Headers.ParseLayout(data).value);
      && t[1].start == l.coloniesStart && t[2].start == l.unitsStart && t[3].start == l.powersStart
      && t[4].start == Headers.IntendedVillagesStart(l)
      && t[4].start != l.villagesStart
  {
    var l := Headers.ParseLayout(data).value;
    assert l.villagesStart == l.powersStart + 18 * l.villageCount;
    if 18 * l.villageCount == 0x4F0 {
      assert false;
    }
  }

  /** Against the map views: when the high bytes of the dimensions are 0, the four map
      layers of the table start where `Map.__parse` cuts its views. */
  lemma TableAgainstMap(data: seq<byte>, mapLength: int)
    requires TableOf(data, mapLength).Ok? && Maps.ParseMap(data).Ok?
    requires data[0x0D] == 0 && data[0x0F] == 0
    ensures var (t, m) := (TableOf(data, mapLength).value, Maps.ParseMap(data).value);
      forall k :: 0 <= k < Maps.ViewCount ==>
        t[6 + k].start == Maps.ViewStart(m.colonies, m.units, m.villages, m.width, m.height, k)
  {
    WordPair(data, 0x0C);
    WordPair(data, 0x0E);
    var m := Maps.ParseMap(data).value;
    var layer := m.width as int * m.height as int;
    assert Word(data, 0x0C, 2) == m.width as int && Word(data, 0x0E, 2) == m.height as int;
    var t := TableOf(data, mapLength).value;
    var base := 0xBBD + 202 * m.colonies + 28 * m.units + 18 * m.villages;
    assert t == TableFrom(202 * m.colonies, 28 * m.units, 18 * m.villages, layer, mapLength);
    assert t[6].start == base && t[7].start == base + layer;
    assert t[8].start == base + 2 * layer && t[9].start == base + 3 * layer;
  }

  /** A count on which the buffers agree changes nothing. */
  lemma RealignAgreeing(a: Aligned, address: int, field: nat)
    requires field + 1 < |a.left| && field + 1 < |a.right|
    requires 0 <= address < |a.data1| && address < |a.data2| && a.data1[address] == a.data2[address]
    ensures Realign(a, address, field) == Ok(a)
  {
  }

  /** A count on which the buffers differ: the left buffer has bytes `[start, next)` of
      the section zeroed, keeps every other byte in place, and keeps its length when
      the next section starts inside it. */
  lemma RealignBlanksLeft(a: Aligned, address: int, field: nat)
    requires field + 1 < |a.left| && field + 1 < |a.right|
    requires 0 <= address < |a.data1| && address < |a.data2| && a.data1[address] != a.data2[address]
    requires 0 <= a.left[field].start <= a.left[field + 1].start <= |a.data1|
    ensures var (lo, hi, after) := (a.left[field].start, a.left[field + 1].start, Realign(a, address, field).value.data1);
      && |after| == |a.data1|
      && (forall i :: lo <= i < hi ==> after[i] == 0)
      && (forall i :: 0 <= i < |after| && !(lo <= i < hi) ==> after[i] == a.data1[i])
  {
    var (lo, hi) := (a.left[field].start, a.left[field + 1].start);
    assert Slice(a.data1, 0, lo) == a.data1[..lo];
    assert Slice(a.data1, hi, |a.data1|) == a.data1[hi..];
  }

  /** A count on which the buffers differ: the right-hand table keeps its entries up to
      the section and has every later start moved back by `removed`, so that the next
      section starts where it does on the left. */
  lemma RealignShiftsRight(a: Aligned, address: int, field: nat)
    requires field + 1 < |a.left| && field + 1 < |a.right|
    requires 0 <= address < |a.data1| && address < |a.data2| && a.data1[address] != a.data2[address]
    ensures var (removed, right) := (a.right[field + 1].start - a.left[field + 1].start, Realign(a, address, field).value.right);
      && |right| == |a.right|
      && (forall j :: 0 <= j <= field ==> right[j] == a.right[j])
      && (forall j :: field < j < |right| ==> right[j] == a.right[j].(start := a.right[j].start - removed))
      && right[field + 1].start == a.left[field + 1].start
  {
  }

  /** A count on which the buffers differ, with the section starting at the same address
      in both buffers: the right buffer is blanked to the left-hand length, so that its
      bytes from its old next-section start now sit at the shared next-section start. */
  lemma RealignMovesRight(a: Aligned, address: int, field: nat)
    requires field + 1 < |a.left| && field + 1 < |a.right|
    requires 0 <= address < |a.data1| && address < |a.data2| && a.data1[address] != a.data2[address]
    requires a.right[field].start == a.left[field].start
    requires 0 <= a.left[field].start <= a.left[field + 1].start && a.left[field].start <= |a.data2|
    requires 0 <= a.right[field + 1].start <= |a.data2|
    ensures var (next, from, after) := (a.left[field + 1].start, a.right[field + 1].start, Realign(a, address, field).value.data2);
      && |after| == next + |a.data2| - from
      && (forall i :: 0 <= i < a.left[field].start ==> after[i] == a.data2[i])
      && (forall i :: a.left[field].start <= i < next ==> after[i] == 0)
      && (forall i :: next <= i < |after| ==> after[i] == a.data2[i - next + from])
  {
    var (lo, hi) := (a.right[field].start, a.right[field + 1].start);
    assert Slice(a.data2, 0, lo) == a.data2[..lo];
    assert Slice(a.data2, hi, |a.data2|) == a.data2[hi..];
  }

  /** How many of the bytes below 0x186, the header with the counts, `s` holds. */
  function HeaderBytes(s: seq<byte>): (n: nat)
    ensures n <= |s| && n <= 0x186 && (n == |s| || n == 0x186)
  {
    if |s| < 0x186 then |s| else 0x186
  }

  /** `now` holds, in place, every byte below 0x186 that `original` holds. */
  predicate KeepsBelow(original: seq<byte>, now: seq<byte>)
  {
    && HeaderBytes(original) <= |now|
    && forall i :: 0 <= i < HeaderBytes(original) ==> now[i] == original[i]
  }

  /** Blanking from `lo` at or after 0x186 keeps every byte below 0x186. */
  lemma BlankKeeps(s: seq<byte>, lo: int, n: int, hi: int)
    requires lo >= 0x186
    ensures KeepsBelow(s, Blank(s, lo, n, hi))
  {
    var prefix := Slice(s, 0, lo);
    assert Blank(s, lo, n, hi) == prefix + (Zeros(n) + Slice(s, hi, |s|));
    assert HeaderBytes(s) <= |prefix|;
    assert forall i :: 0 <= i < HeaderBytes(s) ==> prefix[i] == s[i];
  }

  /** One round of the mismatch loop, for a count below 0x186, on a section that starts
      at 0x186 or later in both buffers: the bytes below 0x186 keep their values, and
      the right-hand starts after the section keep their distances. */
  lemma RealignKeepsCounts(a: Aligned, address: int, field: nat)
    requires field + 1 < |a.left| == |a.right|
    requires 0 <= address < 0x186
    requires a.left[field].start >= 0x186 && a.right[field].start >= 0x186
    requires Realign(a, address, field).Ok?
    ensures var b := Realign(a, address, field).value;
      && KeepsBelow(a.data1, b.data1) && KeepsBelow(a.data2, b.data2)
      && (forall j :: field < j < |b.right| ==>
            b.right[j].start - b.right[field + 1].start == a.right[j].start - a.right[field + 1].start)
  {
    assert At(a.data1, address).Ok? && At(a.data2, address).Ok?;
    if a.data1[address] != a.data2[address] {
      RealignShiftsRight(a, address, field);
      var cutsize := a.left[field + 1].start - a.left[field].start;
      BlankKeeps(a.data1, a.left[field].start, cutsize, a.left[field + 1].start);
      BlankKeeps(a.data2, a.right[field].start, cutsize, a.right[field + 1].start);
    }
  }

  /** One round of the mismatch loop hands the section of the next round an address
      shared by both tables: through the shift when the counts differ, and through equal
      distances when they agree. */
  lemma RealignCarries(a: Aligned, address: int, field: nat, next: nat)
    requires field < next < |a.left| == |a.right|
    requires 0 <= address < 0x186
    requires a.left[field].start >= 0x186 && a.right[field].start == a.left[field].start
    requires Realign(a, address, field).Ok?
    requires a.right[next].start - a.right[field + 1].start == a.left[next].start - a.left[field + 1].start
    requires a.data1[address] == a.data2[address] ==>
      a.right[next].start - a.right[field].start == a.left[next].start - a.left[field].start
    ensures Realign(a, address, field).value.right[next].start == Realign(a, address, field).value.left[next].start
  {
    assert At(a.data1, address).Ok? && At(a.data2, address).Ok?;
    if a.data1[address] != a.data2[address] {
      RealignShiftsRight(a, address, field);
    }
  }

  /** The starts the mismatch loop relies on, in both tables: the colonies at 0x186, the
      colony and unit records by the counts at 0x2E and 0x2C, and 0x4F0 bytes of powers. */
  lemma CountedStarts(data1: seq<byte>, data2: seq<byte>, mapLength: int)
    requires Tables(data1, data2, mapLength).Ok?
    ensures var (l, r) := Tables(data1, data2, mapLength).value;
      && 0x2E < |data1| && 0x2E < |data2|
      && |l| == |r| == TableSize
      && l[1].start == r[1].start == 0x186
      && l[2].start - l[1].start == 202 * data1[0x2E] as int && r[2].start - r[1].start == 202 * data2[0x2E] as int
      && l[3].start - l[2].start == 28 * data1[0x2C] as int && r[3].start - r[2].start == 28 * data2[0x2C] as int
      && l[4].start - l[3].start == r[4].start - r[3].start == 0x4F0
  {
    var (l, r) := Tables(data1, data2, mapLength).value;
    assert l == Table(data1[0x2E], data1[0x2C], data1[0x2A], Word(data1, 0x0C, 2), Word(data1, 0x0E, 2), mapLength);
    assert r == Table(data2[0x2E], data2[0x2C], data2[0x2A], Word(data2, 0x0C, 2), Word(data2, 0x0E, 2), mapLength);
    TableGaps(data1[0x2E], data1[0x2C], data1[0x2A], Word(data1, 0x0C, 2), Word(data1, 0x0E, 2), mapLength);
    TableGaps(data2[0x2E], data2[0x2C], data2[0x2A], Word(data2, 0x0C, 2), Word(data2, 0x0E, 2), mapLength);
  }

  /** In `old_compare` itself each round of the mismatch loop finds its section starting
      at the same address in both tables: the colonies start at 0x186 on both sides, and
      each earlier round either realigned the next section or found equal counts, which
      give the sections equal lengths. So `RealignMovesRight` applies to every round. */
  lemma MismatchRoundsAligned(data1: seq<byte>, data2: seq<byte>, mapLength: int)
    requires Tables(data1, data2, mapLength).Ok?
    ensures var (l, r) := Tables(data1, data2, mapLength).value;
      forall k :: 0 <= k < |CountFields| && Aligning(Aligned(data1, data2, l, r), k).Ok? ==>
        var a := Aligning(Aligned(data1, data2, l, r), k).value;
        a.right[CountFields[k].1].start == a.left[CountFields[k].1].start
  {
    var (l, r) := Tables(data1, data2, mapLength).value;
    var start := Aligned(data1, data2, l, r);
    CountedStarts(data1, data2, mapLength);
    forall k | 0 <= k < |CountFields| && Aligning(start, k).Ok?
      ensures Aligning(start, k).value.right[CountFields[k].1].start == Aligning(start, k).value.left[CountFields[k].1].start
    {
      if k == 0 {
        assert Aligning(start, 0) == Ok(start);
      } else {
        FirstRoundAligned(start, data1, data2);
        if k == 2 {
          var a := Aligning(start, 1).value;
          AligningNext(start, 1, a);
          RealignCarries(a, 0x2C, 2, 4);
        }
      }
    }
  }

  /** After the colony round of the mismatch loop, both tables start the units at the
      same address, keep the unit count bytes, and keep the distance from the units to
      the villages. */
  lemma FirstRoundAligned(start: Aligned, data1: seq<byte>, data2: seq<byte>)
    requires |start.left| == |start.right| == TableSize
    requires start.data1 == data1 && start.data2 == data2 && 0x2E < |data1| && 0x2E < |data2|
    requires start.left[1].start == start.right[1].start == 0x186
    requires start.left[2].start - start.left[1].start == 202 * data1[0x2E] as int
    requires start.right[2].start - start.right[1].start == 202 * data2[0x2E] as int
    requires start.left[4].start - start.left[2].start == 28 * data1[0x2C] as int + 0x4F0
    requires start.right[4].start - start.right[2].start == 28 * data2[0x2C] as int + 0x4F0
    requires Aligning(start, 1).Ok?
    ensures var a := Aligning(start, 1).value;
      && a.left == start.left
      && a.right[2].start == a.left[2].start >= 0x186
      && a.right[4].start - a.right[3].start == start.right[4].start - start.right[3].start
      && a.right[4].start - a.right[2].start == start.right[4].start - start.right[2].start
      && 0x2C < |a.data1| && 0x2C < |a.data2| && a.data1[0x2C] == data1[0x2C] && a.data2[0x2C] == data2[0x2C]
  {
    assert Aligning(start, 0) == Ok(start);
    AligningNext(start, 0, start);
    RealignKeepsCounts(start, 0x2E, 1);
    RealignCarries(start, 0x2E, 1, 2);
  }

  /** The map-size test on buffers that hold every byte it reads: it finds a
      difference exactly when one of those bytes differs. */
  lemma {:induction false} AnyDiffersMeaning(data1: seq<byte>, data2: seq<byte>, locs: seq<int>)
    requires forall i :: 0 <= i < |locs| ==> 0 <= locs[i] < |data1| && locs[i] < |data2|
    ensures AnyDiffers(data1, data2, locs) ==
      Ok(exists i :: 0 <= i < |locs| && data1[locs[i]] != data2[locs[i]])
  {
    if |locs| > 0 {
      AnyDiffersMeaning(data1, data2, locs[1..]);
      assert forall i :: 0 < i < |locs| ==> locs[1..][i - 1] == locs[i];
    }
  }

  /** When the comparison gives up after the mismatch loop: before any report, when the
      realigned buffers differ in bytes 0x0C..0x0F or in length; otherwise it scans
      them. */
  lemma FinishAborts(a: Aligned, width: nat)
    requires |a.left| > 0 && a.left[0].start <= 0
    requires |a.data1| > 0x0F && |a.data2| > 0x0F
    ensures var run := Finish(a, width);
      && (run.failure == Some(DifferentMapSize) <==> exists loc :: 0x0C <= loc <= 0x0F && a.data1[loc] != a.data2[loc])
      && (run.failure == Some(DifferentMapSize) ==> run.appended == [])
      && (run.failure == Some(DifferentFileSizes) <==>
           (forall loc :: 0x0C <= loc <= 0x0F ==> a.data1[loc] == a.data2[loc]) && |a.data1| != |a.data2|)
      && (run.failure == Some(DifferentFileSizes) ==> run.appended == [])
      && ((forall loc :: 0x0C <= loc <= 0x0F ==> a.data1[loc] == a.data2[loc]) && |a.data1| == |a.data2| ==>
           run == Changes(a.data1, a.data2, a.left, width, |a.data1|))
  {
    AnyDiffersMeaning(a.data1, a.data2, MapSizeBytes);
    var differs := exists i :: 0 <= i < |MapSizeBytes| && a.data1[MapSizeBytes[i]] != a.data2[MapSizeBytes[i]];
    if differs {
      var i :| 0 <= i < |MapSizeBytes| && a.data1[MapSizeBytes[i]] != a.data2[MapSizeBytes[i]];
      assert 0x0C <= MapSizeBytes[i] <= 0x0F;
    } else {
      forall loc | 0x0C <= loc <= 0x0F
        ensures a.data1[loc] == a.data2[loc]
      {
        assert MapSizeBytes[loc - 0x0C] == loc;
      }
    }
    if |a.data1| == |a.data2| {
      ChangesNeverAbort(a.data1, a.data2, a.left, width, |a.data1|);
    }
  }

  /** The addresses of a list of reports. */
  function Addresses(changes: seq<Change>): (r: seq<nat>)
    ensures |r| == |changes|
  {
    seq(|changes|, i requires 0 <= i < |changes| => changes[i].address)
  }

  /** The scan of the first `n` addresses reports, in order, the differing addresses below
      `n`, each with its two bytes and its report; all of them unless a report raised. */
  lemma {:induction false} ChangesFollowDiffs(data1: seq<byte>, data2: seq<byte>, table: seq<Section>, width: nat, n: nat)
    requires n <= |data1| && n <= |data2| && |table| > 0 && table[0].start <= 0
    ensures var run := Changes(data1, data2, table, width, n);
      && Addresses(run.appended) <= DiffsBelow(data1, data2, n)
      && (run.failure.None? ==> Addresses(run.appended) == DiffsBelow(data1, data2, n))
      && forall k :: 0 <= k < |run.appended| ==>
        var c := run.appended[k];
        c.address < n && c.before == data1[c.address] && c.after == data2[c.address]
        && Report(table, width, c.address, c.before, c.after) == Ok(c)
  {
    if n > 0 {
      ChangesFollowDiffs(data1, data2, table, width, n - 1);
      var run := Changes(data1, data2, table, width, n - 1);
      if run.failure.None? && data1[n - 1] != data2[n - 1] {
        var next := Report(table, width, n - 1, data1[n - 1], data2[n - 1]);
        if next.Ok? {
          assert Addresses(run.appended + [next.value]) == Addresses(run.appended) + [n - 1];
        }
      }
    }
  }

  /** A complete scan of buffers of equal length reports exactly the addresses where they
      differ, each once, in ascending order. */
  lemma ScanExact(data1: seq<byte>, data2: seq<byte>, table: seq<Section>, width: nat)
    requires |data1| == |data2| && |table| > 0 && table[0].start <= 0
    requires Changes(data1, data2, table, width, |data1|).failure.None?
    ensures var found := Addresses(Changes(data1, data2, table, width, |data1|).appended);
      && (forall a: nat :: a in found <==> a < |data1| && data1[a] != data2[a])
      && (forall j, k :: 0 <= j < k < |found| ==> found[j] < found[k])
  {
    ChangesFollowDiffs(data1, data2, table, width, |data1|);
    DiffsBelowExact(data1, data2, |data1|);
  }

  /** One report: its section is the last table entry starting at or before the address
      (see `LastStarting`), its offset the distance from that start; it fails, with
      ZeroDivisionError, only for a map layer of one-byte records and width 0. */
  lemma ReportSection(table: seq<Section>, width: nat, address: nat, before: byte, after: byte)
    requires |table| > 0 && table[0].start <= address
    ensures var (r, s) := (Report(table, width, address, before, after), table[LastStarting(table, address, |table|)]);
      && (r.Err? <==> s.length <= 1 && MentionsMap(s.name) && width == 0)
      && (r.Err? ==> r.error == DivisionByZero)
      && (r.Ok? ==>
        && r.value.address == address && r.value.before == before && r.value.after == after
        && r.value.section == s.name && r.value.offset == address - s.start >= 0)
  {
  }

  /** The offset into a section of records longer than a byte splits into the record and
      the byte inside it. */
  lemma ReportGroup(table: seq<Section>, width: nat, address: nat, before: byte, after: byte)
    requires |table| > 0 && table[0].start <= address
    requires table[LastStarting(table, address, |table|)].length > 1
    ensures var (r, s) := (Report(table, width, address, before, after), table[LastStarting(table, address, |table|)]);
      && r.Ok? && r.value.detail.Group?
      && r.value.offset == r.value.detail.group * s.length + r.value.detail.index
      && 0 <= r.value.detail.index < s.length
  {
    var s := table[LastStarting(table, address, |table|)];
    var offset := address - s.start;
    assert offset == (offset / s.length) * s.length + offset % s.length;
  }

  /** The offset into a map layer of one-byte records splits into row and column. */
  lemma ReportPosition(table: seq<Section>, width: nat, address: nat, before: byte, after: byte)
    requires |table| > 0 && table[0].start <= address && width > 0
    requires var s := table[LastStarting(table, address, |table|)];
      s.length <= 1 && MentionsMap(s.name)
    ensures var r := Report(table, width, address, before, after);
      && r.Ok? && r.value.detail.Position?
      && r.value.offset == r.value.detail.row * width + r.value.detail.column
      && 0 <= r.value.detail.column < width
  {
    var s := table[LastStarting(table, address, |table|)];
    var offset := address - s.start;
    assert offset == (offset / width) * width + offset % width;
  }

  /** A label without a capital M does not contain `Map`. */
  lemma {:induction false} NoMapWithoutM(name: string)
    requires 'M' !in name
    ensures !MentionsMap(name)
  {
    if |name| >= 3 {
      assert name[0] != 'M';
      assert forall c :: c in name[1..] ==> c in name;
      NoMapWithoutM(name[1..]);
    }
  }

  /** A label with `Map` at position `i` contains `Map`. */
  lemma {:induction false} MapAt(name: string, i: nat)
    requires i + 3 <= |name| && name[i] == 'M' && name[i + 1] == 'a' && name[i + 2] == 'p'
    ensures MentionsMap(name)
  {
    if i > 0 {
      MapAt(name[1..], i - 1);
    }
  }

  /** The labels that contain `Map` are those of the four map layers. */
  lemma MapLabels()
    ensures forall k :: 0 <= k < TableSize ==> (MentionsMap(Labels[k]) <==> 6 <= k <= 9)
  {
    forall k | 0 <= k < TableSize
      ensures MentionsMap(Labels[k]) <==> 6 <= k <= 9
    {
      if 6 <= k <= 9 {
        MapAt(Labels[k], 8);
      } else {
        NoMapWithoutM(Labels[k]);
      }
    }
  }

  /** Every entry of the section table carries its label from `Labels`. */
  lemma TableLabels(c: nat, u: nat, v: nat, width: nat, height: nat, mapLength: int)
    ensures var t := Table(c, u, v, width, height, mapLength);
      forall k :: 0 <= k < TableSize ==> t[k].name == Labels[k]
  {
  }

  /** With map layers of no bytes, as for width 0, the four map layers and `Unknown E`
      start at one address, so the last section starting at or before an address is
      never a map layer and no report raises. */
  lemma FlatLayersReport(table: seq<Section>, address: nat, before: byte, after: byte)
    requires |table| == TableSize && table[0].start <= address
    requires forall k :: 0 <= k < TableSize ==> table[k].name == Labels[k]
    requires forall k :: 6 <= k <= 10 ==> table[k].start == table[6].start
    ensures Report(table, 0, address, before, after).Ok?
  {
    var i := LastStarting(table, address, |table|);
    assert i < 10 ==> table[10].start > address;
    assert !(6 <= i <= 9);
    MapLabels();
    ReportSection(table, 0, address, before, after);
  }

  /** A scan in which no report raises reports to the end. */
  lemma {:induction false} ChangesComplete(data1: seq<byte>, data2: seq<byte>, table: seq<Section>, width: nat, n: nat)
    requires n <= |data1| && n <= |data2| && |table| > 0 && table[0].start <= 0
    requires forall address :: 0 <= address < n ==> Report(table, width, address, data1[address], data2[address]).Ok?
    ensures Changes(data1, data2, table, width, n).failure.None?
  {
    if n > 0 {
      ChangesComplete(data1, data2, table, width, n - 1);
    }
  }

  /** The buffers as the mismatch loop leaves them after some rounds: long enough for
      the counts, and holding every byte below 0x186 of `data1` and `data2` in place. */
  predicate KeepsHeader(data1: seq<byte>, data2: seq<byte>, a: Aligned)
  {
    && 0x2E < |a.data1| && 0x2E < |a.data2|
    && KeepsBelow(data1, a.data1) && KeepsBelow(data2, a.data2)
  }

  /** Keeping the bytes below 0x186 carries over from round to round. */
  lemma KeepsChain(original: seq<byte>, middle: seq<byte>, now: seq<byte>)
    requires KeepsBelow(original, middle) && KeepsBelow(middle, now)
    ensures KeepsBelow(original, now)
  {
    assert HeaderBytes(original) <= HeaderBytes(middle);
  }

  /** One round of the mismatch loop on buffers that still hold the counts: it raises
      nothing and keeps the bytes below 0x186. */
  lemma AligningKeepsStep(start: Aligned, data1: seq<byte>, data2: seq<byte>, k: nat, a: Aligned)
    requires k < |CountFields| && |start.left| == |start.right| == TableSize
    requires Aligning(start, k) == Ok(a) && KeepsHeader(data1, data2, a)
    requires a.left[CountFields[k].1].start >= 0x186
    requires a.right[CountFields[k].1].start == a.left[CountFields[k].1].start
    ensures Aligning(start, k + 1).Ok? && KeepsHeader(data1, data2, Aligning(start, k + 1).value)
  {
    AligningNext(start, k, a);
    var (address, field) := CountFields[k];
    assert At(a.data1, address).Ok? && At(a.data2, address).Ok?;
    var b := Realign(a, address, field).value;
    RealignKeepsCounts(a, address, field);
    KeepsChain(data1, a.data1, b.data1);
    KeepsChain(data2, a.data2, b.data2);
    assert Aligning(start, k + 1) == Ok(b);
  }

  /** The mismatch loop of `old_compare` raises nothing and leaves the bytes below 0x186
      of both buffers, header and counts, as they were. */
  lemma AligningKeepsHeader(data1: seq<byte>, data2: seq<byte>, mapLength: int)
    requires Tables(data1, data2, mapLength).Ok?
    ensures var (l, r) := Tables(data1, data2, mapLength).value;
      var a := Aligning(Aligned(data1, data2, l, r), |CountFields|);
      a.Ok? && KeepsHeader(data1, data2, a.value)
  {
    var (l, r) := Tables(data1, data2, mapLength).value;
    var start := Aligned(data1, data2, l, r);
    CountedStarts(data1, data2, mapLength);
    MismatchRoundsAligned(data1, data2, mapLength);
    assert Aligning(start, 0) == Ok(start);
    AligningKeepsStep(start, data1, data2, 0, start);
    AligningKeepsStep(start, data1, data2, 1, Aligning(start, 1).value);
    AligningKeepsStep(start, data1, data2, 2, Aligning(start, 2).value);
  }

  /** The left-hand table carries the labels, and when the left-hand buffer's width is
      0 its map layers hold no bytes, so the four layers and `Unknown E` share a start. */
  lemma LeftLayers(data1: seq<byte>, data2: seq<byte>, mapLength: int)
    requires Tables(data1, data2, mapLength).Ok?
    ensures var l := Tables(data1, data2, mapLength).value.0;
      && |l| == TableSize && l[0].start == 0
      && (forall k :: 0 <= k < TableSize ==> l[k].name == Labels[k])
      && (Word(data1, 0x0C, 2) == 0 ==> forall k :: 6 <= k <= 10 ==> l[k].start == l[6].start)
  {
    var l := Tables(data1, data2, mapLength).value.0;
    var (c, u, v, w, h) := (data1[0x2E], data1[0x2C], data1[0x2A], Word(data1, 0x0C, 2), Word(data1, 0x0E, 2));
    assert l == Table(c, u, v, w, h, mapLength);
    TableLabels(c, u, v, w, h, mapLength);
    if w == 0 {
      TableGaps(c, u, v, 0, h, mapLength);
    }
  }

  /** After the mismatch loop no report raises: with a width other than 0 no map
      position fails, and a width of 0 on the right is also 0 on the left once the
      map-size test has passed, so the left-hand map layers are empty. */
  lemma FinishNeverDividesByZero(a: Aligned, width: nat)
    requires |a.left| == TableSize && a.left[0].start <= 0 && 0x0F < |a.data1| && 0x0F < |a.data2|
    requires forall k :: 0 <= k < TableSize ==> a.left[k].name == Labels[k]
    requires width == 0 && a.data1[0x0C] == a.data2[0x0C] && a.data1[0x0D] == a.data2[0x0D] ==>
      forall k :: 6 <= k <= 10 ==> a.left[k].start == a.left[6].start
    ensures Finish(a, width).failure != Some(DivisionByZero)
  {
    AnyDiffersMeaning(a.data1, a.data2, MapSizeBytes);
    if AnyDiffers(a.data1, a.data2, MapSizeBytes) == Ok(false) && |a.data1| == |a.data2| {
      assert MapSizeBytes[0] == 0x0C && MapSizeBytes[1] == 0x0D;
      forall address | 0 <= address < |a.data1|
        ensures Report(a.left, width, address, a.data1[address], a.data2[address]).Ok?
      {
        if width == 0 {
          FlatLayersReport(a.left, address, a.data1[address], a.data2[address]);
        } else {
          ReportSection(a.left, width, address, a.data1[address], a.data2[address]);
        }
      }
      ChangesComplete(a.data1, a.data2, a.left, width, |a.data1|);
    }
  }

  /** `old_compare` never ends in ZeroDivisionError: a map position is only computed
      with the right-hand width, the map-size test has made it the left-hand width by
      then, and with width 0 the left-hand map layers hold no bytes. */
  lemma CompareNeverDividesByZero(data1: seq<byte>, data2: seq<byte>, mapLength: int)
    ensures CompareBuffers(data1, data2, mapLength).failure != Some(DivisionByZero)
  {
    if Tables(data1, data2, mapLength).Ok? {
      var (l, r) := Tables(data1, data2, mapLength).value;
      var width := Word(data2, 0x0C, 2);
      AligningKeepsHeader(data1, data2, mapLength);
      LeftLayers(data1, data2, mapLength);
      var a := Aligning(Aligned(data1, data2, l, r), |CountFields|).value;
      assert CompareBuffers(data1, data2, mapLength) == Finish(a, width);
      if width == 0 && a.data1[0x0C] == a.data2[0x0C] && a.data1[0x0D] == a.data2[0x0D] {
        WordPair(data1, 0x0C);
        WordPair(data2, 0x0C);
      }
      FinishNeverDividesByZero(a, width);
    }
  }
}
