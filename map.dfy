/** The map layers: the `Map` class of map.py. `__parse` reads the record counts and
    the map dimensions from the header bytes and cuts the four map views out of the
    buffer, each paired with an empty symbol table; `display` fills every view's table
    with one character per tile value in the order the values are first seen, then
    blanks the ocean tiles of the terrain view. */
module Maps {
  import opened Errors
  import opened Bytes
  import Headers

  /** `Map.__views`, and `TERRAIN`. */
  const ViewCount: nat := 4
  const Terrain: int := 0

  /** The characters `display` hands out: `string.ascii_letters` followed by digits and
      punctuation, 90 in all. */
  const Chars: string :=
    "abcdefghijklmnopqrstuvwxyzABCDEFGHIJKLMNOPQRSTUVWXYZ0123456789~!@#$%^&*()_`+=:;,<.>/?|[]{}"

  /** The tile values the terrain view draws as blanks: ocean, and ocean with a minor or
      major river. */
  const OceanTiles: seq<byte> := [25, 89, 217]

  /** One entry of `Map.views`: the bytes of a layer and its symbol table. */
  datatype View = View(subset: seq<byte>, table: map<byte, char>)

  /** The attributes of a `Map`. */
  datatype MapState = MapState(
    data: seq<byte>,
    colonies: byte, units: byte, villages: byte,
    width: byte, height: byte,
    views: seq<View>)

  /** Where view `k` starts: after the fixed part, the colony, unit and village records,
      and `k` earlier layers of `width * height` bytes. */
  function ViewStart(c: nat, u: nat, v: nat, width: nat, height: nat, k: nat): nat
  {
    0xBBD + c * 202 + u * 28 + v * 18 + k * (width * height)
  }

  /** View `k` as `__parse` cuts it: the layer's bytes, shorter if the buffer ends early,
      with an empty table. */
  function ViewAt(data: seq<byte>, c: nat, u: nat, v: nat, width: nat, height: nat, k: nat): View
  {
    var address := ViewStart(c, u, v, width, height, k);
    View(Slice(data, address, address + width * height), map[])
  }

  /** `Map.__parse`: ValueError for an empty buffer, IndexError when it ends before the
      colony count at 0x2E; otherwise the counts, the single-byte dimensions at 0x0C and
      0x0E, and the four views. */
  function ParseMap(data: seq<byte>): Result<MapState>
  {
    if |data| == 0 then Err(NoData)
    else
      var c :- At(data, 0x2E);
      var u :- At(data, 0x2C);
      var v :- At(data, 0x2A);
      var w :- At(data, 0x0C);
      var h :- At(data, 0x0E);
      Ok(MapState(data, c, u, v, w, h, seq(ViewCount, k requires 0 <= k => ViewAt(data, c, u, v, w, h, k))))
  }

  /** One round of the table loop: a tile value not yet in the table gets the character
      at position `len(table)` of `Chars`, wrapping around. */
  function AddTile(table: map<byte, char>, tile: byte): map<byte, char>
  {
    if tile in table then table else table[tile := Chars[|table| % |Chars|]]
  }

  /** The table after the loop has visited `tiles` in order. */
  function Symbols(table: map<byte, char>, tiles: seq<byte>): map<byte, char>
  {
    if |tiles| == 0 then table
    else AddTile(Symbols(table, tiles[..|tiles| - 1]), tiles[|tiles| - 1])
  }

  /** The tile values of `tiles` outside `seen`, each once, in the order of their first
      occurrence: an independent description of the values the loop adds. */
  function NewTiles(seen: set<byte>, tiles: seq<byte>): seq<byte>
  {
    if |tiles| == 0 then []
    else
      var earlier := NewTiles(seen, tiles[..|tiles| - 1]);
      var t := tiles[|tiles| - 1];
      if t in seen || t in earlier then earlier else earlier + [t]
  }

  /** The table the loop leaves for a view. */
  function Filled(v: View): View
  {
    View(v.subset, Symbols(v.table, v.subset))
  }

  /** The three ocean values set to a blank. */
  function BlankOcean(table: map<byte, char>): map<byte, char>
  {
    table[OceanTiles[0] := ' '][OceanTiles[1] := ' '][OceanTiles[2] := ' ']
  }

  /** `Map.display(view)` on the views, apart from its printing: ValueError for a view
      outside 0..3; otherwise every view's table is filled, and then the chosen view is
      looked up (IndexError if there is no such view) and, for the terrain view, its
      ocean values are blanked. */
  function DisplayViews(views: seq<View>, view: int): (seq<View>, Result<()>)
  {
    if !(0 <= view < ViewCount) then (views, Err(UnsupportedView(view)))
    else
      var filled := seq(|views|, i requires 0 <= i < |views| => Filled(views[i]));
      if view >= |filled| then (filled, Err(IndexOutOfRange(view)))
      else if view == Terrain then
        (filled[view := View(filled[view].subset, BlankOcean(filled[view].table))], Ok(()))
      else (filled, Ok(()))
  }

  /** The views loop of `__parse`. */
  method ReadViews(data: seq<byte>, c: byte, u: byte, v: byte, w: byte, h: byte) returns (views: seq<View>)
    ensures views == seq(ViewCount, k requires 0 <= k => ViewAt(data, c, u, v, w, h, k))
  {
    views := [];
    for offset := 0 to ViewCount
      invariant |views| == offset
      invariant forall k :: 0 <= k < offset ==> views[k] == ViewAt(data, c, u, v, w, h, k)
    {
      var size := w as nat * h as nat;
      var address := 0xBBD + c * 202 + u * 28 + v * 18 + offset * size;
      assert address == ViewStart(c, u, v, w, h, offset);
      var subset := Slice(data, address, address + size);
      views := views + [View(subset, map[])];
    }
  }

  /** The inner loop of `display`: the tiles of one view, in order. */
  method FillTable(subset: seq<byte>, table: map<byte, char>) returns (t: map<byte, char>)
    ensures t == Symbols(table, subset)
  {
    t := table;
    for j := 0 to |subset|
      invariant t == Symbols(table, subset[..j])
    {
      assert subset[..j + 1][..j] == subset[..j];
      if subset[j] !in t {
        t := t[subset[j] := Chars[|t| % |Chars|]];
      }
    }
    assert subset[..|subset|] == subset;
  }

  /** The outer loop of `display`: every view in turn. */
  method FillViews(views: seq<View>) returns (filled: seq<View>)
    ensures filled == seq(|views|, i requires 0 <= i < |views| => Filled(views[i]))
  {
    filled := [];
    for i := 0 to |views|
      invariant |filled| == i
      invariant forall k :: 0 <= k < i ==> filled[k] == Filled(views[k])
    {
      var table := FillTable(views[i].subset, views[i].table);
      filled := filled + [View(views[i].subset, table)];
    }
  }

  class Map {
    var data: seq<byte>
    var colonies: byte
    var units: byte
    var villages: byte
    var width: byte
    var height: byte
    var views: seq<View>

    ghost function State(): MapState
      reads this
    {
      MapState(data, colonies, units, villages, width, height, views)
    }

    /** `Map(path)` up to `__reader`: the file's bytes are in `data`, nothing else yet. */
    constructor (data: seq<byte>)
      ensures State() == MapState(data, 0, 0, 0, 0, 0, [])
    {
      this.data := data;
      colonies, units, villages := 0, 0, 0;
      width, height := 0, 0;
      views := [];
    }

    /** `Map.__parse`, which `Map(path)` runs after reading the file: on success the
        attributes are those of `ParseMap`, on failure nothing has been assigned. */
    method Parse() returns (r: Result<()>)
      modifies this
      ensures data == old(data)
      ensures r.Err? <==> ParseMap(data).Err?
      ensures r.Err? ==> r.error == ParseMap(data).error && unchanged(this)
      ensures r.Ok? ==> State() == ParseMap(data).value
    {
      if |data| == 0 {
        return Err(NoData);
      }
      if |data| <= 0x2E {
        return Err(IndexOutOfRange(0x2E));
      }
      colonies := data[0x2E];
      units := data[0x2C];
      villages := data[0x2A];
      width := data[0x0C];
      height := data[0x0E];
      views := ReadViews(data, colonies, units, villages, width, height);
      r := Ok(());
    }

    /** `Map.shape()`. */
    function Shape(): (nat, nat)
      reads this
    {
      (width as nat, height as nat)
    }

    /** `Map.display(view)` without the printing: the views become those of
        `DisplayViews`, nothing else changes. */
    method Display(view: int) returns (r: Result<()>)
      modifies this
      ensures State() == old(State()).(views := DisplayViews(old(views), view).0)
      ensures r == DisplayViews(old(views), view).1
    {
      if !(0 <= view < ViewCount) {
        return Err(UnsupportedView(view));
      }
      var filled := FillViews(views);
      views := filled;
      if view >= |views| {
        return Err(IndexOutOfRange(view));
      }
      if view == Terrain {
        var table := views[view].table;
        table := table[25 := ' '];
        table := table[89 := ' '];
        table := table[217 := ' '];
        views := views[view := View(views[view].subset, table)];
      }
      r := Ok(());
    }
  }

  /** When `__parse` fails: an empty buffer, or one that ends before byte 0x2E. */
  lemma ParseMapFailures(data: seq<byte>)
    ensures ParseMap(data) == Err(NoData) <==> |data| == 0
    ensures ParseMap(data) == Err(IndexOutOfRange(0x2E)) <==> 0 < |data| <= 0x2E
    ensures ParseMap(data).Ok? <==> |data| > 0x2E
  {
  }

  /** The counts are the single bytes at 0x2E, 0x2C and 0x2A, the width and height the
      single bytes at 0x0C and 0x0E, and there are four views with empty tables. */
  lemma ParseMapFields(data: seq<byte>)
    requires ParseMap(data).Ok?
    ensures var m := ParseMap(data).value;
      && m.data == data
      && m.colonies == data[0x2E] && m.units == data[0x2C] && m.villages == data[0x2A]
      && m.width == data[0x0C] && m.height == data[0x0E]
      && |m.views| == ViewCount
      && forall k :: 0 <= k < ViewCount ==>
        m.views[k] == ViewAt(data, m.colonies, m.units, m.villages, m.width, m.height, k) && m.views[k].table == map[]
  {
  }

  /** View `k + 1` starts `width * height` bytes after view `k`. */
  lemma ViewStartsSpaced(c: nat, u: nat, v: nat, width: nat, height: nat, k: nat)
    ensures ViewStart(c, u, v, width, height, k + 1) == ViewStart(c, u, v, width, height, k) + width * height
    ensures ViewStart(c, u, v, width, height, 0) == 0xBBD + 202 * c + 28 * u + 18 * v
  {
    calc {
      ViewStart(c, u, v, width, height, k + 1);
      0xBBD + c * 202 + u * 28 + v * 18 + k * (width * height) + width * height;
    }
  }

  /** A slice of `n` bytes from `a`, cut short where the buffer ends. */
  lemma SliceFrom(s: seq<byte>, a: nat, n: nat)
    ensures a + n <= |s| ==> Slice(s, a, a + n) == s[a..a + n]
    ensures a < |s| < a + n ==> Slice(s, a, a + n) == s[a..]
    ensures |s| <= a ==> Slice(s, a, a + n) == []
    ensures |Slice(s, a, a + n)| <= n
  {
  }

  /** Each view holds the `width * height` bytes at its start; a buffer that ends before
      the layer does gives a shorter view, an empty one past its end. */
  lemma ViewContents(data: seq<byte>, c: nat, u: nat, v: nat, width: nat, height: nat, k: nat)
    ensures var (start, size) := (ViewStart(c, u, v, width, height, k), width * height);
      var subset := ViewAt(data, c, u, v, width, height, k).subset;
      && (start + size <= |data| ==> subset == data[start..start + size])
      && (start < |data| < start + size ==> subset == data[start..])
      && (|data| <= start ==> subset == [])
  {
    SliceFrom(data, ViewStart(c, u, v, width, height, k), width * height);
  }

  /** The width and height read here are only the low bytes of the 16-bit values the
      header reads: the two agree exactly when the high bytes at 0x0D and 0x0F are 0. */
  lemma DimensionsAgainstHeader(data: seq<byte>)
    requires ParseMap(data).Ok? && Headers.ParseLayout(data).Ok?
    ensures var (m, l) := (ParseMap(data).value, Headers.ParseLayout(data).value);
      && (m.width as nat == l.mapWidth <==> data[0x0D] == 0)
      && (m.height as nat == l.mapHeight <==> data[0x0F] == 0)
      && m.width as nat == l.mapWidth % 256 && m.height as nat == l.mapHeight % 256
  {
    Headers.LayoutFields(data);
  }

  /** The new values are outside `seen`, occur in `tiles`, are listed once each, and
      every value of `tiles` outside `seen` is among them. */
  lemma {:induction false} NewTilesMeaning(seen: set<byte>, tiles: seq<byte>)
    ensures var added := NewTiles(seen, tiles);
      && (forall i :: 0 <= i < |added| ==> added[i] !in seen && added[i] in tiles)
      && (forall i, j :: 0 <= i < j < |added| ==> added[i] != added[j])
      && (forall i :: 0 <= i < |tiles| && tiles[i] !in seen ==> tiles[i] in added)
  {
    if |tiles| > 0 {
      var prefix := tiles[..|tiles| - 1];
      NewTilesMeaning(seen, prefix);
      assert forall i :: 0 <= i < |prefix| ==> prefix[i] == tiles[i];
      assert forall x :: x in prefix ==> x in tiles;
    }
  }

  /** The table loop keeps every entry already there, and its keys are the old ones and
      the new values. */
  lemma {:induction false} SymbolsKeys(table: map<byte, char>, tiles: seq<byte>)
    ensures var (r, added) := (Symbols(table, tiles), NewTiles(table.Keys, tiles));
      && (forall k :: k in table ==> k in r && r[k] == table[k])
      && (forall k :: k in r <==> k in table || k in added)
  {
    if |tiles| > 0 {
      SymbolsKeys(table, tiles[..|tiles| - 1]);
    }
  }

  /** After the table loop every tile is a key. */
  lemma SymbolsCover(table: map<byte, char>, tiles: seq<byte>)
    ensures forall i :: 0 <= i < |tiles| ==> tiles[i] in Symbols(table, tiles)
  {
    SymbolsKeys(table, tiles);
    NewTilesMeaning(table.Keys, tiles);
  }

  /** The table loop hands the new values, in the order they are first seen, the
      characters following on from the table's size, wrapping around. */
  lemma {:induction false} SymbolsFirstSeen(table: map<byte, char>, tiles: seq<byte>)
    ensures var (r, added) := (Symbols(table, tiles), NewTiles(table.Keys, tiles));
      && |r| == |table| + |added|
      && (forall i :: 0 <= i < |added| ==> added[i] in r && r[added[i]] == Chars[(|table| + i) % |Chars|])
  {
    if |tiles| > 0 {
      var prefix, t := tiles[..|tiles| - 1], tiles[|tiles| - 1];
      var before, earlier := Symbols(table, prefix), NewTiles(table.Keys, prefix);
      SymbolsFirstSeen(table, prefix);
      SymbolsKeys(table, prefix);
      if t in table.Keys || t in earlier {
        assert Symbols(table, tiles) == before;
        assert NewTiles(table.Keys, tiles) == earlier;
      } else {
        assert t !in before;
        assert Symbols(table, tiles) == before[t := Chars[|before| % |Chars|]];
        assert NewTiles(table.Keys, tiles) == earlier + [t];
      }
    }
  }

  /** What `display` leaves: a view outside 0..3 changes nothing and raises ValueError;
      otherwise every view keeps its bytes and gets its filled table, the terrain view
      for `display(0)` with ocean values blank (see `TerrainBlanked`), and the call
      succeeds when the view exists. The row printing that follows is not modelled. */
  lemma DisplayMeaning(views: seq<View>, view: int)
    ensures var (after, r) := DisplayViews(views, view);
      && (r == Err(UnsupportedView(view)) <==> !(0 <= view < 4))
      && (r.Err? && 0 <= view < 4 ==> r == Err(IndexOutOfRange(view)) && |views| <= view)
      && (r.Ok? <==> 0 <= view < 4 && view < |views|)
      && (r == Err(UnsupportedView(view)) ==> after == views)
      && (0 <= view < 4 ==> |after| == |views| && forall i :: 0 <= i < |views| ==> after[i].subset == views[i].subset)
      && (0 <= view < 4 ==> forall i :: 0 <= i < |views| && (i != Terrain || view != Terrain) ==>
            after[i].table == Symbols(views[i].table, views[i].subset))
  {
  }

  /** The terrain view after `display(0)`: the ocean values show as blanks, and every
      other entry is the one the table loop handed out. */
  lemma TerrainBlanked(views: seq<View>)
    requires |views| > 0
    ensures var t := DisplayViews(views, Terrain).0[Terrain].table;
      var filled := Symbols(views[0].table, views[0].subset);
      && t[25] == ' ' && t[89] == ' ' && t[217] == ' '
      && t.Keys == filled.Keys + {25, 89, 217}
      && forall k :: k in filled && k !in OceanTiles ==> t[k] == filled[k]
  {
  }

  /** `shape()` of a parsed map is the pair of single bytes at 0x0C and 0x0E, and no view
      is larger than width times height. */
  lemma ShapeMeaning(m: Map)
    requires ParseMap(m.data).Ok? && m.State() == ParseMap(m.data).value
    ensures m.Shape() == (m.data[0x0C] as nat, m.data[0x0E] as nat)
    ensures forall k :: 0 <= k < |m.views| ==> |m.views[k].subset| <= m.Shape().0 * m.Shape().1
  {
    ParseMapFields(m.data);
    forall k | 0 <= k < |m.views|
      ensures |m.views[k].subset| <= m.Shape().0 * m.Shape().1
    {
      SliceFrom(m.data, ViewStart(m.colonies, m.units, m.villages, m.width, m.height, k), m.width as nat * m.height as nat);
    }
  }
}
