/** The save-file header: the `Header` class of header.py. Its constructor keeps the
    bytes of the file; `__parse` checks the `COLONIZE\0` marker, reads the record counts
    and the map dimensions, computes where each group of records starts, and sizes the
    list of colonies. Every failure of `__parse` happens before its first assignment. */
module Headers {
  import opened Errors
  import opened Bytes
  import Colonies
  import Units
  import Villages
  import Powers

  /** `Header.byte_length` and `Header.base_offset`. */
  const HeaderLength: nat := 0x186
  const BaseOffset: nat := 0

  /** `Header.__marker`: the bytes of `COLONIZE` followed by a NUL. */
  const Marker: seq<byte> := [0x43, 0x4F, 0x4C, 0x4F, 0x4E, 0x49, 0x5A, 0x45, 0x00]

  /** What `__parse` appends to `colonies`: the `Colony` class itself, not an instance. */
  datatype ColonyEntry = ColonyClass

  /** The attributes `__parse` assigns, apart from the list of colonies. */
  datatype Layout = Layout(
    colonyCount: byte, unitCount: byte, villageCount: byte,
    mapWidth: nat, mapHeight: nat,
    coloniesStart: nat, unitsStart: nat, powersStart: nat, villagesStart: nat)

  /** The start addresses as `__parse` sums them, left to right. */
  function LayoutOf(c: byte, u: byte, v: byte, width: nat, height: nat): Layout
  {
    var colonies := BaseOffset + HeaderLength;
    var units := colonies + Colonies.ColonyLength * c;
    var powers := units + Units.UnitLength * u;
    var villages := powers + Villages.VillageLength * v;
    Layout(c, u, v, width, height, colonies, units, powers, villages)
  }

  /** `Header.__parse` on the buffer `data`: ValueError for an empty buffer, the
      unrecognized-file exception when the first nine bytes are not the marker, and
      IndexError when the buffer ends before the colony count at 0x2E. */
  function ParseLayout(data: seq<byte>): Result<Layout>
  {
    if |data| == 0 then Err(NoData)
    else if Slice(data, 0, |Marker|) != Marker then Err(UnrecognizedFileType)
    else
      var c :- At(data, 0x2E);
      var u :- At(data, 0x2C);
      var v :- At(data, 0x2A);
      Ok(LayoutOf(c, u, v, Word(data, 0x0C, 2), Word(data, 0x0E, 2)))
  }

  /** The list of colonies `__parse` builds for a count: that many entries. */
  function ColonyList(count: nat): (entries: seq<ColonyEntry>)
    ensures |entries| == count
  {
    seq(count, _ => ColonyClass)
  }

  class Header {
    var data: seq<byte>
    var colonyCount: byte
    var unitCount: byte
    var villageCount: byte
    var mapWidth: nat
    var mapHeight: nat
    var coloniesStart: nat
    var unitsStart: nat
    var powersStart: nat
    var villagesStart: nat
    var colonies: seq<ColonyEntry>

    /** The attributes `__parse` assigns. */
    ghost function Current(): Layout
      reads this
    {
      Layout(colonyCount, unitCount, villageCount, mapWidth, mapHeight,
        coloniesStart, unitsStart, powersStart, villagesStart)
    }

    /** `Header(path)` up to `__reader`: the file's bytes are in `data`, and the
        attributes `__parse` assigns read as zero. `__init__` runs `__parse` next,
        which is `Parse` below. */
    constructor (data: seq<byte>)
      ensures this.data == data
      ensures Current() == Layout(0, 0, 0, 0, 0, 0, 0, 0, 0) && colonies == []
    {
      this.data := data;
      colonyCount, unitCount, villageCount := 0, 0, 0;
      mapWidth, mapHeight := 0, 0;
      coloniesStart, unitsStart, powersStart, villagesStart := 0, 0, 0, 0;
      colonies := [];
    }

    /** `Header.__parse`: on success the attributes are the layout of the buffer and
        `colonies` holds one entry per colony; on failure nothing has been assigned. */
    method Parse() returns (r: Result<()>)
      modifies this
      ensures data == old(data)
      ensures r.Err? <==> ParseLayout(data).Err?
      ensures r.Err? ==> r.error == ParseLayout(data).error && unchanged(this)
      ensures r.Ok? ==> Current() == ParseLayout(data).value && colonies == ColonyList(colonyCount)
    {
      if |data| == 0 {
        return Err(NoData);
      }
      var marker := Slice(data, 0, |Marker|);
      if marker != Marker {
        return Err(UnrecognizedFileType);
      }
      if |data| <= 0x2E {
        return Err(IndexOutOfRange(0x2E));
      }
      colonyCount := data[0x2E];
      unitCount := data[0x2C];
      villageCount := data[0x2A];
      mapWidth := Word(data, 0x0C, 2);
      mapHeight := Word(data, 0x0E, 2);
      coloniesStart := BaseOffset + HeaderLength;
      unitsStart := coloniesStart + Colonies.ColonyLength * colonyCount;
      powersStart := unitsStart + Units.UnitLength * unitCount;
      villagesStart := powersStart + Villages.VillageLength * villageCount;
      var entries: seq<ColonyEntry> := [];
      for i := 0 to colonyCount
        invariant entries == ColonyList(i)
      {
        entries := entries + [ColonyClass];
      }
      colonies := entries;
      r := Ok(());
    }
  }

  /** When `__parse` fails, and how: no data, no marker, or a buffer too short for the
      colony count; it succeeds exactly when the buffer starts with the marker and
      reaches byte 0x2E. */
  lemma ParseFailures(data: seq<byte>)
    ensures ParseLayout(data) == Err(NoData) <==> |data| == 0
    ensures ParseLayout(data) == Err(UnrecognizedFileType) <==> |data| > 0 && Slice(data, 0, 9) != Marker
    ensures ParseLayout(data) == Err(IndexOutOfRange(0x2E)) <==> Slice(data, 0, 9) == Marker && |data| <= 0x2E
    ensures ParseLayout(data).Ok? <==> |data| > 0x2E && data[..9] == Marker
  {
    if |data| > 0x2E {
      assert Slice(data, 0, 9) == data[..9];
    }
  }

  /** What a successful parse holds: the counts are the single bytes at 0x2E, 0x2C and
      0x2A, the map dimensions the little-endian 16-bit words at 0x0C and 0x0E. */
  lemma LayoutFields(data: seq<byte>)
    requires ParseLayout(data).Ok?
    ensures |data| > 0x2E
    ensures var l := ParseLayout(data).value;
      && l.colonyCount == data[0x2E] && l.unitCount == data[0x2C] && l.villageCount == data[0x2A]
      && l.mapWidth == data[0x0C] as int + 256 * data[0x0D] as int
      && l.mapHeight == data[0x0E] as int + 256 * data[0x0F] as int
      && l.mapWidth < 0x1_0000 && l.mapHeight < 0x1_0000
  {
    WordPair(data, 0x0C);
    WordPair(data, 0x0E);
  }

  /** The start addresses of a successful parse: the colonies right after the 0x186-byte
      header, then each group after the records of the one before it. */
  lemma LayoutStarts(data: seq<byte>)
    requires ParseLayout(data).Ok?
    ensures var l := ParseLayout(data).value;
      && l.coloniesStart == 0x186
      && l.unitsStart == l.coloniesStart + 202 * l.colonyCount
      && l.powersStart == l.unitsStart + 28 * l.unitCount
      && l.villagesStart == l.powersStart + 18 * l.villageCount
      && l.coloniesStart <= l.unitsStart <= l.powersStart <= l.villagesStart
  {
  }

  /** The start addresses depend on the three count bytes alone: two buffers that parse
      and agree on bytes 0x2A, 0x2C and 0x2E get the same addresses, so parsing again
      recomputes the same ones. */
  lemma StartsFromCounts(d1: seq<byte>, d2: seq<byte>)
    requires ParseLayout(d1).Ok? && ParseLayout(d2).Ok?
    requires d1[0x2A] == d2[0x2A] && d1[0x2C] == d2[0x2C] && d1[0x2E] == d2[0x2E]
    ensures var (l1, l2) := (ParseLayout(d1).value, ParseLayout(d2).value);
      && l1.coloniesStart == l2.coloniesStart && l1.unitsStart == l2.unitsStart
      && l1.powersStart == l2.powersStart && l1.villagesStart == l2.villagesStart
  {
  }

  /** Where the villages start once the four power records are skipped, as the table of
      hex_compare.py and the layout notes of header.py place them. */
  function IntendedVillagesStart(l: Layout): (start: nat)
    ensures start == l.powersStart + 0x4F0
  {
    l.powersStart + 4 * Powers.PowerLength
  }

  /** `__parse` puts the villages 18 bytes per village after the powers, so with fewer
      than 71 villages its address falls inside the four power records, and with none
      it is the powers' own address. */
  lemma VillagesInsidePowers(data: seq<byte>)
    requires ParseLayout(data).Ok?
    ensures var l := ParseLayout(data).value;
      && (l.villageCount <= 70 ==> l.powersStart <= l.villagesStart < IntendedVillagesStart(l))
      && (l.villageCount == 0 ==> l.villagesStart == l.powersStart)
  {
  }

  /** The start addresses never decrease for any counts, with the intended village
      address as well. */
  lemma IntendedStartsOrdered(c: byte, u: byte, v: byte, width: nat, height: nat)
    ensures var l := LayoutOf(c, u, v, width, height);
      l.coloniesStart <= l.unitsStart <= l.powersStart < IntendedVillagesStart(l)
  {
  }
}
