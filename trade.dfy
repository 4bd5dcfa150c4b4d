/** Trade routes: the `TradeRoute` class of trade.py, whose 74-byte records hold a name,
    a land-or-sea flag and up to four stops, each with the commodities loaded and
    unloaded there. `unpack` resets the list of stops and appends one `Destination` at
    a time; an exception leaves what was assigned before it. */
module Trade {
  import opened Errors
  import opened Bytes
  import opened Tables

  const RouteLength: nat := 74

  /** Inclusive byte ranges a route record keeps without interpreting them. */
  const RouteUnknowns: seq<(int, int)> := [(35, 35), (43, 43), (45, 45), (53, 53),
                                           (55, 55), (63, 63), (65, 65), (73, 73)]

  /** A stop of a route: the fields of a `Destination` once `unpack` has filled it. */
  datatype Destination = Destination(location: byte, loads: seq<string>, unloads: seq<string>)

  /** The attributes of a `TradeRoute`. */
  datatype RouteState = RouteState(name: string, sea: bool, destinations: seq<Destination>, unknown: seq<byte>)

  const RouteDefaults: RouteState := RouteState("", true, [], [])

  /** The route name: the ASCII text of bytes 0 to 0x1F up to the first NUL. */
  function RouteName(data: seq<byte>): Result<string>
  {
    AsciiName(Slice(data, 0, 0x20))
  }

  /** The first `count` commodities an inner loop of `unpack` appends: item `i` is the
      commodity whose code is nibble `i` of the packed word read at `offset`. */
  function Goods(cargoes: nat, count: nat, offset: int): Result<seq<string>>
  {
    if count == 0 then Ok([])
    else
      var previous :- Goods(cargoes, count - 1, offset);
      var stock :- Lookup(Invert(Supplies), offset, Nibble(cargoes, count - 1));
      Ok(previous + [stock])
  }

  /** Stop `k` of a route record, read at base 34 + 10k: the location byte, the count
      byte at base + 2 (loads in its high nibble, unloads in its low one), the 24-bit
      load word at base + 3 and the 24-bit unload word at base + 6. */
  function Stop(data: seq<byte>, k: nat): Result<Destination>
  {
    var base := 10 * k;
    var location :- At(data, 34 + base);
    var loadWord := Word(data, 37 + base, 3);
    var counts :- At(data, 36 + base);
    var loads :- Goods(loadWord, Nibble(counts, 1), 37 + base);
    var unloadWord := Word(data, 40 + base, 3);
    var unloads :- Goods(unloadWord, Nibble(counts, 0), 40 + base);
    Ok(Destination(location, loads, unloads))
  }

  /** The first `n` rounds of the stops loop. */
  function Stops(data: seq<byte>, n: nat): Run<Destination>
  {
    if n == 0 then Run([], None)
    else
      Extend(Stops(data, n - 1), Stop(data, n - 1))
  }

  /** `TradeRoute.unpack(data)` on a route whose attributes are `s`: the attributes it
      leaves behind and whether it returned or raised. */
  function UnpackRoute(s: RouteState, data: seq<byte>): (RouteState, Result<()>)
  {
    if |data| != RouteLength then (s, Err(WrongLength(RouteLength, |data|)))
    else match RouteName(data)
      case Err(e) => (s, Err(e))
      case Ok(name) =>
        var run := Stops(data, data[33]);
        var s := s.(name := name, sea := data[32] != 0, destinations := run.appended);
        if run.failure.Some? then (s, Err(run.failure.value))
        else (s.(unknown := Gather(data, RouteUnknowns)), Ok(()))
  }

  /** Once an item lookup has failed, later items change nothing. */
  lemma {:induction false} GoodsStop(cargoes: nat, k: nat, n: nat, offset: int)
    requires k <= n && Goods(cargoes, k, offset).Err?
    ensures Goods(cargoes, n, offset) == Goods(cargoes, k, offset)
    decreases n - k
  {
    if k < n {
      GoodsStop(cargoes, k, n - 1, offset);
    }
  }

  /** Once a stop has raised, later rounds change nothing. */
  lemma {:induction false} StopsStop(data: seq<byte>, k: nat, n: nat)
    requires k <= n && Stops(data, k).failure.Some?
    ensures Stops(data, n) == Stops(data, k)
    decreases n - k
  {
    if k < n {
      StopsStop(data, k, n - 1);
    }
  }

  /** An inner loop of `unpack`: `count` lookups of the nibbles of `cargoes`. */
  method ReadGoods(cargoes: nat, count: nat, offset: int) returns (r: Result<seq<string>>)
    ensures r == Goods(cargoes, count, offset)
  {
    var lookup := Invert(Supplies);
    var items: seq<string> := [];
    var item := 0;
    while item < count
      invariant item <= count
      invariant Goods(cargoes, item, offset) == Ok(items)
    {
      if Goods(cargoes, item + 1, offset).Err? {
        GoodsStop(cargoes, item + 1, count, offset);
      }
      var stock :- Lookup(lookup, offset, Nibble(cargoes, item));
      items := items + [stock];
      item := item + 1;
    }
    return Ok(items);
  }

  /** The body of the stops loop for stop `k`: a fresh `Destination` filled field by field. */
  method ReadStop(data: seq<byte>, k: nat) returns (r: Result<Destination>)
    ensures r == Stop(data, k)
  {
    var base := 10 * k;
    var location :- At(data, 34 + base);
    var cargoes := Word(data, 37 + base, 3);
    var counts :- At(data, 36 + base);
    var loads :- ReadGoods(cargoes, Nibble(counts, 1), 37 + base);
    cargoes := Word(data, 40 + base, 3);
    var unloads :- ReadGoods(cargoes, Nibble(counts, 0), 40 + base);
    r := Ok(Destination(location, loads, unloads));
  }

  /** The stops loop of `unpack`: stop after stop until `n` have been read or one raises. */
  method ReadStops(data: seq<byte>, n: nat) returns (run: Run<Destination>)
    ensures run == Stops(data, n)
  {
    var appended: seq<Destination> := [];
    var k := 0;
    while k < n
      invariant k <= n
      invariant Stops(data, k) == Run(appended, None)
    {
      var stop := ReadStop(data, k);
      if stop.Err? {
        assert Stops(data, k + 1) == Run(appended, Some(stop.error));
        StopsStop(data, k + 1, n);
        return Run(appended, Some(stop.error));
      }
      appended := appended + [stop.value];
      k := k + 1;
    }
    run := Run(appended, None);
  }

  class TradeRoute {
    var name: string
    var sea: bool
    var destinations: seq<Destination>
    var unknown: seq<byte>

    ghost function State(): RouteState
      reads this
    {
      RouteState(name, sea, destinations, unknown)
    }

    /** `TradeRoute.__init__`. */
    constructor()
      ensures State() == RouteDefaults
    {
      name := "";
      sea := true;
      destinations := [];
      unknown := [];
    }

    /** `TradeRoute.unpack`: the name, the flag, then the stops loop filling the emptied
        list of destinations, then the unknown bytes. */
    method Unpack(data: seq<byte>) returns (r: Result<()>)
      modifies this
      ensures (State(), r) == UnpackRoute(old(State()), data)
    {
      if |data| != RouteLength {
        return Err(WrongLength(RouteLength, |data|));
      }
      var text := RouteName(data);
      if text.Err? {
        return Err(text.error);
      }
      name := text.value;
      sea := data[32] != 0;
      var run := ReadStops(data, data[33]);
      destinations := run.appended;
      if run.failure.Some? {
        return Err(run.failure.value);
      }
      unknown := Gather(data, RouteUnknowns);
      r := Ok(());
    }
  }

  /** An inner loop never fails, since every nibble names a commodity: it yields `count`
      commodities, item `i` the one with code nibble `i` of `cargoes`. */
  lemma {:induction false} GoodsMeaning(cargoes: nat, count: nat, offset: int)
    ensures Goods(cargoes, count, offset).Ok?
    ensures |Goods(cargoes, count, offset).value| == count
    ensures forall i :: 0 <= i < count ==> Goods(cargoes, count, offset).value[i] == Supplies[Nibble(cargoes, i)].0
  {
    SuppliesComplete();
    if count > 0 {
      GoodsMeaning(cargoes, count - 1, offset);
    }
  }

  /** Stop `k` of a 74-byte record: the first four stops decode, and the fifth one's
      location byte 74 lies past the record. A stop's location is byte 34 + 10k; it loads
      the high nibble of byte 36 + 10k commodities, from the nibbles of the 24-bit
      little-endian word at 37 + 10k, and unloads the low nibble's count of them, from
      the word at 40 + 10k. */
  lemma StopMeaning(data: seq<byte>, k: nat)
    requires |data| == RouteLength
    ensures Stop(data, k).Ok? <==> k < 4
    ensures k >= 4 ==> Stop(data, k) == Err(IndexOutOfRange(34 + 10 * k))
    ensures k < 4 ==>
      var d := Stop(data, k).value;
      var loadWord := LittleEndian(data[37 + 10 * k..40 + 10 * k]);
      var unloadWord := LittleEndian(data[40 + 10 * k..43 + 10 * k]);
      && d.location == data[34 + 10 * k]
      && |d.loads| == data[36 + 10 * k] / 16
      && |d.unloads| == data[36 + 10 * k] % 16
      && (forall i :: 0 <= i < |d.loads| ==> d.loads[i] == Supplies[Nibble(loadWord, i)].0)
      && (forall i :: 0 <= i < |d.unloads| ==> d.unloads[i] == Supplies[Nibble(unloadWord, i)].0)
  {
    if k < 4 {
      var counts := data[36 + 10 * k];
      assert Nibble(counts, 1) == counts / 16 by {
        assert Nibble(counts, 1) == Nibble(counts / 16, 0);
      }
      SliceWithin(data, 37 + 10 * k, 40 + 10 * k);
      SliceWithin(data, 40 + 10 * k, 43 + 10 * k);
      GoodsMeaning(Word(data, 37 + 10 * k, 3), Nibble(counts, 1), 37 + 10 * k);
      GoodsMeaning(Word(data, 40 + 10 * k, 3), Nibble(counts, 0), 40 + 10 * k);
    }
  }

  /** The stops loop of a 74-byte record: it reads stops 0, 1, ... in order, and runs all
      `n` rounds exactly when `n` is at most 4; a fifth round raises IndexError at 74. */
  lemma {:induction false} StopsMeaning(data: seq<byte>, n: nat)
    requires |data| == RouteLength
    ensures var run := Stops(data, n);
      && |run.appended| == (if n <= 4 then n else 4)
      && (forall k :: 0 <= k < |run.appended| ==> Stop(data, k) == Ok(run.appended[k]))
      && (run.failure.None? <==> n <= 4)
      && (n > 4 ==> run.failure == Some(IndexOutOfRange(74)))
  {
    if n > 0 {
      StopsMeaning(data, n - 1);
      StopMeaning(data, n - 1);
    }
  }

  /** The route name: exactly when a byte of 0..0x1F is above 0x7F does decoding raise,
      at the first such byte; otherwise the name is the characters of the bytes before
      the first NUL, so at most 32 characters and no NUL. */
  lemma RouteNameMeaning(data: seq<byte>)
    requires |data| == RouteLength
    ensures RouteName(data).Err? <==> exists i :: 0 <= i < 0x20 && data[i] >= 0x80
    ensures RouteName(data).Err? ==> RouteName(data).error == NotAscii(FirstNonAscii(data[..0x20]))
    ensures RouteName(data).Ok? ==>
      var name := RouteName(data).value;
      && |name| <= 32
      && '\0' !in name
      && (forall i :: 0 <= i < |name| ==> name[i] as int == data[i])
      && (|name| < 32 ==> data[|name|] == 0)
  {
    SliceWithin(data, 0, 0x20);
    var field := data[..0x20];
    assert data[0..0x20] == field;
    AsciiNameMeaning(field);
    assert forall i :: 0 <= i < 0x20 ==> data[i] == field[i];
  }

  /** When and how `TradeRoute.unpack` raises, in the order it reads: the length, the
      name field, then a fifth stop; a record with the wrong length changes nothing. */
  lemma RouteFailures(s: RouteState, data: seq<byte>)
    ensures |data| != RouteLength ==> UnpackRoute(s, data) == (s, Err(WrongLength(RouteLength, |data|)))
    ensures |data| == RouteLength && (exists i :: 0 <= i < 0x20 && data[i] >= 0x80) ==>
      UnpackRoute(s, data) == (s, Err(NotAscii(FirstNonAscii(data[..0x20]))))
    ensures (|data| == RouteLength && (forall i :: 0 <= i < 0x20 ==> data[i] < 0x80) && data[33] > 4) ==>
      UnpackRoute(s, data).1 == Err(IndexOutOfRange(74))
    ensures UnpackRoute(s, data).1.Ok? <==>
      |data| == RouteLength && (forall i :: 0 <= i < 0x20 ==> data[i] < 0x80) && data[33] <= 4
  {
    if |data| == RouteLength {
      RouteNameMeaning(data);
      StopsMeaning(data, data[33]);
    }
  }

  /** The unknown part of a route is bytes 35, 43, 45, 53, 55, 63, 65 and 73, in order. */
  lemma RouteUnknownBytes(data: seq<byte>)
    requires |data| == RouteLength
    ensures Gather(data, RouteUnknowns) ==
      [data[35], data[43], data[45], data[53], data[55], data[63], data[65], data[73]]
  {
    GatherSingles(data, RouteUnknowns);
  }

  /** What a decoded route holds: its name, the sea flag set exactly for a nonzero byte
      32, one destination per stop count, stop `k` decoded from base 34 + 10k, and the
      unknown bytes. */
  lemma RouteDecoded(s: RouteState, data: seq<byte>)
    requires |data| == RouteLength && (forall i :: 0 <= i < 0x20 ==> data[i] < 0x80) && data[33] <= 4
    ensures UnpackRoute(s, data).1 == Ok(())
    ensures RouteName(data).Ok?
    ensures var t := UnpackRoute(s, data).0;
      && t.name == RouteName(data).value
      && (t.sea <==> data[32] != 0)
      && |t.destinations| == data[33]
      && (forall k :: 0 <= k < data[33] ==> Stop(data, k) == Ok(t.destinations[k]))
      && t.unknown == [data[35], data[43], data[45], data[53], data[55], data[63], data[65], data[73]]
  {
    RouteFailures(s, data);
    RouteNameMeaning(data);
    StopsMeaning(data, data[33]);
    RouteUnknownBytes(data);
  }

  /** A fifth stop raises after the name, the flag and the first four destinations are
      stored, and before the unknown bytes are. */
  lemma RouteFailureKeeps(s: RouteState, data: seq<byte>)
    requires |data| == RouteLength && (forall i :: 0 <= i < 0x20 ==> data[i] < 0x80) && data[33] > 4
    ensures RouteName(data).Ok?
    ensures var t := UnpackRoute(s, data).0;
      && t.name == RouteName(data).value
      && (t.sea <==> data[32] != 0)
      && |t.destinations| == 4
      && (forall k :: 0 <= k < 4 ==> Stop(data, k) == Ok(t.destinations[k]))
      && t.unknown == s.unknown
  {
    RouteNameMeaning(data);
    StopsMeaning(data, data[33]);
  }
}
