/** Colonies: the `Colony` class of buildings.py, whose 202-byte records hold the name,
    the colonists, the worked fields, the buildings, the stores and the production.
    `__init__` fills the attributes with placeholders and `unpack` overwrites them one
    by one, appending colonists and updating dictionaries in place; an exception leaves
    what was assigned before it. */
module Colonies {
  import opened Errors
  import opened Bytes
  import opened Tables
  import opened Units

  const ColonyLength: nat := 202

  const Buildings: Table := [
    ("Stockade", 0x00), ("Fort", 0x01), ("Fortress", 0x02),
    ("Armory", 0x03), ("Magazine", 0x04), ("Arsenal", 0x05),
    ("Docks", 0x06), ("Drydock", 0x07), ("Shipyard", 0x08),
    ("Town Hall", 0x09), ("Schoolhouse", 0x0C),
    ("College", 0x0D), ("University", 0x0E),
    ("Warehouse", 0x0F), ("Warehouse Expansion", 0x10),
    ("Stable", 0x11), ("Custom House", 0x12),
    ("Printing Press", 0x13), ("Newspaper", 0x14),
    ("Weaver's House", 0x15), ("Weaver's Shop", 0x16),
    ("Textile Mill", 0x17), ("Tobacconist's House", 0x18),
    ("Tobacconist's Shop", 0x19), ("Cigar Factory", 0x1A),
    ("Rum Distiller's House", 0x1B),
    ("Rum Distiller's Shop", 0x1C), ("Rum Factory", 0x1D),
    ("Fur Trader's House", 0x20), ("Fur Trading Post", 0x21),
    ("Fur Factory", 0x22), ("Carpenter's Shop", 0x23),
    ("Lumber Mill", 0x24), ("Church", 0x25),
    ("Cathedral", 0x26), ("Blacksmith's House", 0x27),
    ("Blacksmith's Shop", 0x28), ("Iron Works", 0x29)]

  const OwnConstructables: Table := [
    ("Artillery", 0x2A), ("Wagon Train", 0x2B),
    ("Caravel", 0x2C), ("Merchantman", 0x2D),
    ("Galleon", 0x2E), ("Privateer", 0x2F),
    ("Frigate", 0x30), ("Nothing", 0xFF)]

  /** `Colony.constructables` after `update(buildings)`: the buildings follow the ships. */
  const Constructables: Table := OwnConstructables + Buildings

  /** `Colony.powers`, declared but not read by `unpack` (byte 0x1A is stored raw). */
  const ColonyPowers: Table := [("England", 0x00), ("France", 0x01), ("Spain", 0x02), ("Netherlands", 0x03)]

  const ColonyUnknowns: seq<(int, int)> := [(27, 30), (140, 145), (149, 153), (190, 193), (196, 201)]

  /** `Colony.unused`: inclusive address ranges and the byte each address should hold. */
  const ColonyUnused: seq<(int, int, int)> := [(120, 131, 0xFF)]

  /** The keys of `Colony.fields` in the order `__init__` inserts them. */
  const FieldDirections: seq<string> := ["N", "E", "S", "W", "NW", "NE", "SE", "SW"]

  /** The attributes of a `Colony`; `None` stands for Python's `None`. */
  datatype ColonyState = ColonyState(
    position: (byte, byte),
    name: string,
    power: Option<byte>,
    colonists: seq<Colonist>,
    fields: map<string, Option<byte>>,
    built: map<string, bool>,
    customHouse: map<string, bool>,
    hammers: nat,
    constructing: Option<string>,
    storage: map<string, nat>,
    bells: nat,
    unknown: seq<byte>,
    englishCount: byte, frenchCount: byte, spanishCount: byte, dutchCount: byte)

  const ColonyDefaults: ColonyState := ColonyState(
    (0, 0), "", None, [],
    map["N" := None, "E" := None, "S" := None, "W" := None,
        "NW" := None, "NE" := None, "SE" := None, "SW" := None],
    map[], map[], 0, None, map[], 0, [], 1, 1, 1, 1)

  /** The colony name: the ASCII text of bytes 2 to 0x18 up to the first NUL. */
  function ColonyName(data: seq<byte>): Result<string>
  {
    AsciiName(Slice(data, 2, 0x19))
  }

  /** Colonist `offset` of a colony record: occupation byte 0x20 + offset, specialty byte
      0x40 + offset, both through the inverted specialties; the time is the low nibble of
      byte 0x60 + offset / 2 for an even offset and its high nibble for an odd one. */
  function Worker(data: seq<byte>, offset: nat): Result<Colonist>
  {
    var lookup := Invert(Specialties);
    var occupationCode :- At(data, 0x20 + offset);
    var occupation :- Lookup(lookup, 0x20 + offset, occupationCode);
    var specialtyCode :- At(data, 0x40 + offset);
    var specialty :- Lookup(lookup, 0x40 + offset, specialtyCode);
    var timeByte :- At(data, 0x60 + offset / 2);
    Ok(Colonist(occupation, specialty, Nibble(timeByte, offset % 2)))
  }

  /** The first `n` rounds of the colonists loop. */
  function Workers(data: seq<byte>, n: nat): Run<Colonist>
  {
    if n == 0 then Run([], None)
    else
      Extend(Workers(data, n - 1), Worker(data, n - 1))
  }

  /** The first `k` entries the fields loop writes: direction `i` gets byte 0x70 + i. */
  function FieldsRead(data: seq<byte>, k: nat): map<string, Option<byte>>
    requires |data| == ColonyLength && k <= |FieldDirections|
  {
    if k == 0 then map[] else FieldsRead(data, k - 1)[FieldDirections[k - 1] := Some(data[0x70 + k - 1])]
  }

  /** The flags a `for name, offset in table.items()` loop stores: bit `offset` of `w`
      under `name`, a later entry overwriting an earlier one. */
  function Flags(t: Table, w: nat): map<string, bool>
    requires Unsigned(t)
  {
    if t == [] then map[] else Flags(t[..|t| - 1], w)[t[|t| - 1].0 := Bit(w, t[|t| - 1].1)]
  }

  /** The storage loop: the 16-bit little-endian value at 0x9A + 2 * code under each name. */
  function Stock(data: seq<byte>, t: Table): map<string, nat>
  {
    if t == [] then map[]
    else Stock(data, t[..|t| - 1])[t[|t| - 1].0 := Word(data, 0x9A + 2 * t[|t| - 1].1, 2)]
  }

  lemma BuildingsUnsigned()
    ensures Unsigned(Buildings)
  {
    assert CodesFrom(Buildings, 0);
    UnsignedFrom(Buildings);
  }

  lemma SuppliesUnsigned()
    ensures Unsigned(Supplies)
  {
    assert CodesFrom(Supplies, 0);
    UnsignedFrom(Supplies);
  }

  /** `Colony.unpack(data)` on a colony whose attributes are `s`: the attributes it leaves
      behind and whether it returned or raised. Colonists are appended to the existing
      list and the dictionaries are updated key by key, as the Python code does. The
      steps after the length check are grouped in stages, in the order the Python code runs. */
  function UnpackColony(s: ColonyState, data: seq<byte>): (ColonyState, Result<()>)
  {
    if |data| != ColonyLength then (s, Err(WrongLength(ColonyLength, |data|)))
    else
      var (s, r) := ColonyFront(s, data);
      if r.Err? then (s, r) else ColonyBack(s, data)
  }

  /** The header fields, then the colonists. */
  function ColonyFront(s: ColonyState, data: seq<byte>): (ColonyState, Result<()>)
    requires |data| == ColonyLength
  {
    var (s, r) := ColonyHead(s, data);
    if r.Err? then (s, r) else ColonyWorkers(s, data)
  }

  /** The holdings, the building under construction, then the stores. */
  function ColonyBack(s: ColonyState, data: seq<byte>): (ColonyState, Result<()>)
    requires |data| == ColonyLength
  {
    var (s, r) := ColonyConstructing(ColonyHoldings(s, data), data);
    if r.Err? then (s, r) else (ColonyStores(s, data), r)
  }

  /** Position, then the name (which can fail), then the raw power byte. */
  function ColonyHead(s: ColonyState, data: seq<byte>): (ColonyState, Result<()>)
    requires |data| == ColonyLength
  {
    var s := s.(position := (data[0], data[1]));
    match ColonyName(data)
    case Err(e) => (s, Err(e))
    case Ok(name) => (s.(name := name, power := Some(data[0x1A])), Ok(()))
  }

  /** The colonists loop: data[0x1F] rounds, appending to the existing list. */
  function ColonyWorkers(s: ColonyState, data: seq<byte>): (ColonyState, Result<()>)
    requires |data| == ColonyLength
  {
    var run := Workers(data, data[0x1F]);
    var s := s.(colonists := s.colonists + run.appended);
    if run.failure.Some? then (s, Err(run.failure.value)) else (s, Ok(()))
  }

  /** The fields, built and custom-house loops and the hammers; none of them can fail. */
  function ColonyHoldings(s: ColonyState, data: seq<byte>): ColonyState
    requires |data| == ColonyLength
  {
    BuildingsUnsigned();
    SuppliesUnsigned();
    s.(fields := s.fields + FieldsRead(data, |FieldDirections|),
       built := s.built + Flags(Buildings, Word(data, 0x84, 6)),
       customHouse := s.customHouse + Flags(Supplies, Word(data, 0x8A, 2)),
       hammers := Word(data, 0x92, 2))
  }

  /** The building under construction: StopIteration when byte 0x94 is not a code. */
  function ColonyConstructing(s: ColonyState, data: seq<byte>): (ColonyState, Result<()>)
    requires |data| == ColonyLength
  {
    match FirstWith(Constructables, data[0x94])
    case None => (s, Err(NoMatch(data[0x94])))
    case Some(c) => (s.(constructing := Some(c)), Ok(()))
  }

  /** Storage, the four counts, the bells and the unknown bytes. */
  function ColonyStores(s: ColonyState, data: seq<byte>): ColonyState
    requires |data| == ColonyLength
  {
    s.(storage := s.storage + Stock(data, Supplies),
       englishCount := data[0xBA], frenchCount := data[0xBB],
       spanishCount := data[0xBC], dutchCount := data[0xBD],
       bells := Word(data, 0xC2, 2),
       unknown := Gather(data, ColonyUnknowns))
  }

  method ReadWorkers(data: seq<byte>, n: nat) returns (run: Run<Colonist>)
    ensures run == Workers(data, n)
  {
    var appended: seq<Colonist> := [];
    var offset := 0;
    while offset < n
      invariant offset <= n
      invariant Workers(data, offset) == Run(appended, None)
    {
      var w := Worker(data, offset);
      if w.Err? {
        assert Workers(data, offset + 1) == Run(appended, Some(w.error));
        WorkersStop(data, offset + 1, n);
        return Run(appended, Some(w.error));
      }
      appended := appended + [w.value];
      offset := offset + 1;
    }
    run := Run(appended, None);
  }

  method ReadFields(data: seq<byte>) returns (m: map<string, Option<byte>>)
    requires |data| == ColonyLength
    ensures m == FieldsRead(data, |FieldDirections|)
  {
    m := map[];
    for offset := 0 to |FieldDirections|
      invariant m == FieldsRead(data, offset)
    {
      m := m[FieldDirections[offset] := Some(data[0x70 + offset])];
    }
  }

  method ReadFlags(t: Table, w: nat) returns (m: map<string, bool>)
    requires Unsigned(t)
    ensures m == Flags(t, w)
  {
    m := map[];
    for i := 0 to |t|
      invariant Unsigned(t[..i])
      invariant m == Flags(t[..i], w)
    {
      UnsignedPrefix(t, i + 1);
      assert t[..i + 1][..i] == t[..i];
      m := m[t[i].0 := Bit(w, t[i].1)];
    }
    assert t[..|t|] == t;
  }

  method ReadStock(data: seq<byte>, t: Table) returns (m: map<string, nat>)
    ensures m == Stock(data, t)
  {
    m := map[];
    for i := 0 to |t|
      invariant m == Stock(data, t[..i])
    {
      assert t[..i + 1][..i] == t[..i];
      m := m[t[i].0 := Word(data, 0x9A + 2 * t[i].1, 2)];
    }
    assert t[..|t|] == t;
  }

  /** Once a round of the colonists loop has raised, later rounds change nothing. */
  lemma {:induction false} WorkersStop(data: seq<byte>, k: nat, n: nat)
    requires k <= n && Workers(data, k).failure.Some?
    ensures Workers(data, n) == Workers(data, k)
    decreases n - k
  {
    if k < n {
      WorkersStop(data, k, n - 1);
    }
  }

  class Colony {
    var position: (byte, byte)
    var name: string
    var power: Option<byte>
    var colonists: seq<Colonist>
    var fields: map<string, Option<byte>>
    var built: map<string, bool>
    var customHouse: map<string, bool>
    var hammers: nat
    var constructing: Option<string>
    var storage: map<string, nat>
    var bells: nat
    var unknown: seq<byte>
    var englishCount: byte
    var frenchCount: byte
    var spanishCount: byte
    var dutchCount: byte

    ghost function State(): ColonyState
      reads this
    {
      ColonyState(position, name, power, colonists, fields, built, customHouse, hammers,
                  constructing, storage, bells, unknown,
                  englishCount, frenchCount, spanishCount, dutchCount)
    }

    /** `Colony.__init__`. */
    constructor()
      ensures State() == ColonyDefaults
    {
      position := (0, 0);
      name := "";
      power := None;
      colonists := [];
      fields := map["N" := None, "E" := None, "S" := None, "W" := None,
                    "NW" := None, "NE" := None, "SE" := None, "SW" := None];
      built := map[];
      customHouse := map[];
      hammers := 0;
      constructing := None;
      storage := map[];
      bells := 0;
      unknown := [];
      englishCount, frenchCount, spanishCount, dutchCount := 1, 1, 1, 1;
    }

    /** `Colony.unpack`. */
    method Unpack(data: seq<byte>) returns (r: Result<()>)
      modifies this
      ensures (State(), r) == UnpackColony(old(State()), data)
    {
      if |data| != ColonyLength {
        return Err(WrongLength(ColonyLength, |data|));
      }
      r := UnpackFront(data);
      if r.Ok? {
        r := UnpackBack(data);
      }
    }

    method UnpackFront(data: seq<byte>) returns (r: Result<()>)
      requires |data| == ColonyLength
      modifies this`position, this`name, this`power, this`colonists
      ensures r == ColonyFront(old(State()), data).1
      ensures position == ColonyFront(old(State()), data).0.position
      ensures name == ColonyFront(old(State()), data).0.name
      ensures power == ColonyFront(old(State()), data).0.power
      ensures colonists == ColonyFront(old(State()), data).0.colonists
    {
      r := UnpackHead(data);
      if r.Ok? {
        r := UnpackWorkers(data);
      }
    }

    method UnpackBack(data: seq<byte>) returns (r: Result<()>)
      requires |data| == ColonyLength
      modifies this`fields, this`built, this`customHouse, this`hammers, this`constructing
      modifies this`storage, this`englishCount, this`frenchCount, this`spanishCount, this`dutchCount
      modifies this`bells, this`unknown
      ensures r == ColonyBack(old(State()), data).1
      ensures fields == ColonyBack(old(State()), data).0.fields
      ensures built == ColonyBack(old(State()), data).0.built
      ensures customHouse == ColonyBack(old(State()), data).0.customHouse
      ensures hammers == ColonyBack(old(State()), data).0.hammers
      ensures constructing == ColonyBack(old(State()), data).0.constructing
      ensures storage == ColonyBack(old(State()), data).0.storage
      ensures englishCount == ColonyBack(old(State()), data).0.englishCount
      ensures frenchCount == ColonyBack(old(State()), data).0.frenchCount
      ensures spanishCount == ColonyBack(old(State()), data).0.spanishCount
      ensures dutchCount == ColonyBack(old(State()), data).0.dutchCount
      ensures bells == ColonyBack(old(State()), data).0.bells
      ensures unknown == ColonyBack(old(State()), data).0.unknown
    {
      UnpackHoldings(data);
      r := UnpackConstructing(data);
      if r.Ok? {
        UnpackStores(data);
      }
    }

    method UnpackHead(data: seq<byte>) returns (r: Result<()>)
      requires |data| == ColonyLength
      modifies this`position, this`name, this`power
      ensures r == ColonyHead(old(State()), data).1
      ensures position == ColonyHead(old(State()), data).0.position
      ensures name == ColonyHead(old(State()), data).0.name
      ensures power == ColonyHead(old(State()), data).0.power
    {
      position := (data[0], data[1]);
      var text := ColonyName(data);
      if text.Err? {
        return Err(text.error);
      }
      name := text.value;
      power := Some(data[0x1A]);
      r := Ok(());
    }

    method UnpackWorkers(data: seq<byte>) returns (r: Result<()>)
      requires |data| == ColonyLength
      modifies this`colonists
      ensures r == ColonyWorkers(old(State()), data).1
      ensures colonists == ColonyWorkers(old(State()), data).0.colonists
    {
      var run := ReadWorkers(data, data[0x1F]);
      colonists := colonists + run.appended;
      r := if run.failure.Some? then Err(run.failure.value) else Ok(());
    }

    method UnpackHoldings(data: seq<byte>)
      requires |data| == ColonyLength
      modifies this`fields, this`built, this`customHouse, this`hammers
      ensures fields == ColonyHoldings(old(State()), data).fields
      ensures built == ColonyHoldings(old(State()), data).built
      ensures customHouse == ColonyHoldings(old(State()), data).customHouse
      ensures hammers == ColonyHoldings(old(State()), data).hammers
    {
      var read := ReadFields(data);
      fields := fields + read;
      BuildingsUnsigned();
      SuppliesUnsigned();
      var flags := ReadFlags(Buildings, Word(data, 0x84, 6));
      built := built + flags;
      flags := ReadFlags(Supplies, Word(data, 0x8A, 2));
      customHouse := customHouse + flags;
      hammers := Word(data, 0x92, 2);
    }

    method UnpackConstructing(data: seq<byte>) returns (r: Result<()>)
      requires |data| == ColonyLength
      modifies this`constructing
      ensures r == ColonyConstructing(old(State()), data).1
      ensures constructing == ColonyConstructing(old(State()), data).0.constructing
    {
      var found := FirstWith(Constructables, data[0x94]);
      if found.None? {
        return Err(NoMatch(data[0x94]));
      }
      constructing := found;
      r := Ok(());
    }

    method UnpackStores(data: seq<byte>)
      requires |data| == ColonyLength
      modifies this`storage, this`englishCount, this`frenchCount, this`spanishCount, this`dutchCount
      modifies this`bells, this`unknown
      ensures storage == ColonyStores(old(State()), data).storage
      ensures englishCount == ColonyStores(old(State()), data).englishCount
      ensures frenchCount == ColonyStores(old(State()), data).frenchCount
      ensures spanishCount == ColonyStores(old(State()), data).spanishCount
      ensures dutchCount == ColonyStores(old(State()), data).dutchCount
      ensures bells == ColonyStores(old(State()), data).bells
      ensures unknown == ColonyStores(old(State()), data).unknown
    {
      var stock := ReadStock(data, Supplies);
      storage := storage + stock;
      englishCount, frenchCount, spanishCount, dutchCount := data[0xBA], data[0xBB], data[0xBC], data[0xBD];
      bells := Word(data, 0xC2, 2);
      unknown := Gather(data, ColonyUnknowns);
    }
  }

  /** The specialty bytes a colony record can hold (0x13 is not among them). */
  predicate SpecialtyByte(code: int)
  {
    0 <= code <= 0x1C && code != 0x13
  }

  /** The records `Colony.unpack` decodes without raising: 202 bytes, an ASCII name
      field, at most 138 colonists (the specialty bytes end at 0xC9) whose occupation
      and specialty bytes are listed, and a listed construction byte. */
  ghost predicate Decodable(data: seq<byte>)
  {
    && |data| == ColonyLength
    && (forall i :: 2 <= i < 0x19 ==> data[i] < 0x80)
    && data[0x1F] <= 138
    && (forall i :: 0x20 <= i < 0x20 + data[0x1F] ==> SpecialtyByte(data[i]))
    && (forall i :: 0x40 <= i < 0x40 + data[0x1F] ==> SpecialtyByte(data[i]))
    && HasCode(Constructables, data[0x94])
  }

  /** One round of the colonists loop on a 202-byte record: it raises IndexError once the
      occupation or specialty byte lies past the record and KeyError on an unlisted
      code; otherwise the colonist's time is the low nibble of byte 0x60 + offset / 2
      for an even offset and the high nibble for an odd one. */
  lemma WorkerMeaning(data: seq<byte>, offset: nat)
    requires |data| == ColonyLength
    ensures Worker(data, offset).Ok? <==>
      offset < 138 && SpecialtyByte(data[0x20 + offset]) && SpecialtyByte(data[0x40 + offset])
    ensures offset >= 170 ==> Worker(data, offset) == Err(IndexOutOfRange(0x20 + offset))
    ensures offset < 170 && !SpecialtyByte(data[0x20 + offset]) ==>
      Worker(data, offset) == Err(UnknownCode(0x20 + offset, data[0x20 + offset]))
    ensures 138 <= offset < 170 && SpecialtyByte(data[0x20 + offset]) ==>
      Worker(data, offset) == Err(IndexOutOfRange(0x40 + offset))
    ensures Worker(data, offset).Ok? ==>
      var timeByte := data[0x60 + offset / 2];
      && Worker(data, offset).value == Colonist(
        Invert(Specialties)[data[0x20 + offset]], Invert(Specialties)[data[0x40 + offset]],
        if offset % 2 == 0 then timeByte % 16 else timeByte / 16)
      && Worker(data, offset).value.time < 16
  {
    if offset < 170 {
      SpecialtyCodes(data[0x20 + offset]);
      if offset < 138 {
        SpecialtyCodes(data[0x40 + offset]);
        var timeByte := data[0x60 + offset / 2];
        assert Nibble(timeByte, 1) == timeByte / 16 by {
          assert Nibble(timeByte, 1) == Nibble(timeByte / 16, 0);
        }
      }
    }
  }

  /** The first `n` rounds of the colonists loop: they append the colonists of offsets
      0, 1, ... in order and stop at the first round that raises, which is reported. */
  lemma {:induction false} WorkersMeaning(data: seq<byte>, n: nat)
    ensures var run := Workers(data, n);
      && |run.appended| <= n
      && (forall i :: 0 <= i < |run.appended| ==> Worker(data, i) == Ok(run.appended[i]))
      && (run.failure.None? <==> |run.appended| == n)
      && (run.failure.None? <==> forall i :: 0 <= i < n ==> Worker(data, i).Ok?)
      && (run.failure.Some? ==> Worker(data, |run.appended|) == Err(run.failure.value))
  {
    if n > 0 {
      WorkersMeaning(data, n - 1);
    }
  }

  /** The colonists loop of a 202-byte record completes exactly when there are at most
      138 colonists and all their occupation and specialty bytes are listed. */
  lemma WorkersSucceed(data: seq<byte>)
    requires |data| == ColonyLength
    ensures Workers(data, data[0x1F]).failure.None? <==>
      && data[0x1F] <= 138
      && (forall i :: 0x20 <= i < 0x20 + data[0x1F] ==> SpecialtyByte(data[i]))
      && (forall i :: 0x40 <= i < 0x40 + data[0x1F] ==> SpecialtyByte(data[i]))
  {
    var n := data[0x1F];
    WorkersMeaning(data, n);
    forall i | 0 <= i < n {
      WorkerMeaning(data, i);
    }
    if Workers(data, n).failure.None? {
      assert n <= 138 by {
        if n > 0 {
          assert Worker(data, n - 1).Ok?;
        }
      }
      forall i | 0x20 <= i < 0x20 + n
        ensures SpecialtyByte(data[i])
      {
        assert Worker(data, i - 0x20).Ok?;
      }
      forall i | 0x40 <= i < 0x40 + n
        ensures SpecialtyByte(data[i])
      {
        assert Worker(data, i - 0x40).Ok?;
      }
    } else if n <= 138 {
      var k :| 0 <= k < n && !Worker(data, k).Ok?;
      assert !(SpecialtyByte(data[0x20 + k]) && SpecialtyByte(data[0x40 + k]));
    }
  }

  /** Whether `Colony.unpack` raises on a 202-byte record, stage by stage. */
  lemma ColonyOutcome(s: ColonyState, data: seq<byte>)
    requires |data| == ColonyLength
    ensures UnpackColony(s, data).1 ==
      if ColonyName(data).Err? then Err(ColonyName(data).error)
      else if Workers(data, data[0x1F]).failure.Some? then Err(Workers(data, data[0x1F]).failure.value)
      else if FirstWith(Constructables, data[0x94]).None? then Err(NoMatch(data[0x94]))
      else Ok(())
  {
  }

  /** The colony name: exactly when a byte of 2..0x18 is above 0x7F does decoding
      raise, at the first such byte; otherwise the name is the characters of the bytes
      before the first NUL, so at most 23 characters and no NUL. */
  lemma ColonyNameMeaning(data: seq<byte>)
    requires |data| == ColonyLength
    ensures ColonyName(data).Err? <==> exists i :: 2 <= i < 0x19 && data[i] >= 0x80
    ensures ColonyName(data).Err? ==> ColonyName(data).error == NotAscii(FirstNonAscii(data[2..0x19]))
    ensures ColonyName(data).Ok? ==>
      var name := ColonyName(data).value;
      && |name| <= 23
      && '\0' !in name
      && (forall i :: 0 <= i < |name| ==> name[i] as int == data[2 + i])
      && (|name| < 23 ==> data[2 + |name|] == 0)
  {
    SliceWithin(data, 2, 0x19);
    var field := data[2..0x19];
    AsciiNameMeaning(field);
    assert forall i :: 2 <= i < 0x19 ==> data[i] == field[i - 2];
  }

  /** When and how `Colony.unpack` raises on a 202-byte record, in the order it reads:
      the name field, the colonists, then the construction byte. */
  lemma ColonyFailures(s: ColonyState, data: seq<byte>)
    ensures |data| == ColonyLength && (exists i :: 2 <= i < 0x19 && data[i] >= 0x80) ==>
      UnpackColony(s, data).1 == Err(NotAscii(FirstNonAscii(data[2..0x19])))
    ensures (|data| == ColonyLength && (forall i :: 2 <= i < 0x19 ==> data[i] < 0x80)
      && Workers(data, data[0x1F]).failure.Some?) ==>
      UnpackColony(s, data).1 == Err(Workers(data, data[0x1F]).failure.value)
    ensures (|data| == ColonyLength && (forall i :: 2 <= i < 0x19 ==> data[i] < 0x80)
      && Workers(data, data[0x1F]).failure.None? && !HasCode(Constructables, data[0x94])) ==>
      UnpackColony(s, data).1 == Err(NoMatch(data[0x94]))
  {
    if |data| == ColonyLength {
      ColonyOutcome(s, data);
      ColonyNameMeaning(data);
      FirstWithMisses(Constructables, data[0x94]);
    }
  }

  /** `Colony.unpack` returns normally exactly on the decodable records; a record with
      the wrong length raises before anything is assigned. */
  lemma ColonyAccepts(s: ColonyState, data: seq<byte>)
    ensures |data| != ColonyLength ==> UnpackColony(s, data) == (s, Err(WrongLength(ColonyLength, |data|)))
    ensures UnpackColony(s, data).1.Ok? <==> Decodable(data)
  {
    if |data| == ColonyLength {
      ColonyOutcome(s, data);
      ColonyNameMeaning(data);
      WorkersSucceed(data);
      FirstWithMisses(Constructables, data[0x94]);
    }
  }

  /** The fields loop gives each of the eight directions, in `__init__` order, the byte
      0x70 + its position: N is byte 0x70, SW byte 0x77. */
  lemma FieldsMeaning(data: seq<byte>)
    requires |data| == ColonyLength
    ensures FieldsRead(data, |FieldDirections|) ==
      map["N" := Some(data[0x70]), "E" := Some(data[0x71]), "S" := Some(data[0x72]),
          "W" := Some(data[0x73]), "NW" := Some(data[0x74]), "NE" := Some(data[0x75]),
          "SE" := Some(data[0x76]), "SW" := Some(data[0x77])]
  {
    var m: map<string, Option<byte>> := map[];
    m := m["N" := Some(data[0x70])];
    assert FieldsRead(data, 1) == m;
    m := m["E" := Some(data[0x71])];
    assert FieldsRead(data, 2) == m;
    m := m["S" := Some(data[0x72])];
    assert FieldsRead(data, 3) == m;
    m := m["W" := Some(data[0x73])];
    assert FieldsRead(data, 4) == m;
    m := m["NW" := Some(data[0x74])];
    assert FieldsRead(data, 5) == m;
    m := m["NE" := Some(data[0x75])];
    assert FieldsRead(data, 6) == m;
    m := m["SE" := Some(data[0x76])];
    assert FieldsRead(data, 7) == m;
    m := m["SW" := Some(data[0x77])];
    assert FieldsRead(data, 8) == m;
  }

  /** A flags loop stores one flag per name of the dict: bit `code` of `w`, where `code`
      is the value the dict gives the name. */
  lemma {:induction false} FlagsMeaning(t: Table, w: nat)
    requires Unsigned(t)
    ensures Flags(t, w).Keys == Dict(t).Keys
    ensures forall name :: name in Dict(t) ==> Dict(t)[name] >= 0 && Flags(t, w)[name] == Bit(w, Dict(t)[name])
  {
    if t != [] {
      FlagsMeaning(t[..|t| - 1], w);
    }
  }

  /** The storage loop stores one amount per name of the dict: the 16-bit little-endian
      value at 0x9A + 2 * code. */
  lemma {:induction false} StockMeaning(data: seq<byte>, t: Table)
    ensures Stock(data, t).Keys == Dict(t).Keys
    ensures forall name :: name in Dict(t) ==> Stock(data, t)[name] == Word(data, 0x9A + 2 * Dict(t)[name], 2)
  {
    if t != [] {
      StockMeaning(data, t[..|t| - 1]);
    }
  }

  /** The commodity dict maps the name at position `c` to `c`, and has no other keys. */
  lemma SupplyDict()
    ensures Dict(Supplies).Keys == set i | 0 <= i < |Supplies| :: Supplies[i].0
    ensures forall c :: 0 <= c < |Supplies| ==> Supplies[c].0 in Dict(Supplies) && Dict(Supplies)[Supplies[c].0] == c
  {
    SupplyCodes();
    SupplyPositions();
    DistinctNamesByIndex(Supplies, SupplyPosition);
    DictKeys(Supplies);
    forall c | 0 <= c < |Supplies|
      ensures Supplies[c].0 in Dict(Supplies) && Dict(Supplies)[Supplies[c].0] == c
    {
      DictAt(Supplies, c);
    }
  }

  /** The custom-house loop: one flag per commodity, flag `c` being bit `c` of `w`. */
  lemma SupplyFlags(w: nat)
    ensures Unsigned(Supplies)
    ensures Flags(Supplies, w).Keys == set i | 0 <= i < |Supplies| :: Supplies[i].0
    ensures forall c :: 0 <= c < |Supplies| ==> Flags(Supplies, w)[Supplies[c].0] == Bit(w, c)
  {
    SuppliesUnsigned();
    FlagsMeaning(Supplies, w);
    SupplyDict();
  }

  /** The storage loop: one amount per commodity, amount `c` being the 16-bit
      little-endian value at 0x9A + 2 * c. */
  lemma SupplyStock(data: seq<byte>)
    ensures Stock(data, Supplies).Keys == set i | 0 <= i < |Supplies| :: Supplies[i].0
    ensures forall c :: 0 <= c < |Supplies| ==> Stock(data, Supplies)[Supplies[c].0] == Word(data, 0x9A + 2 * c, 2)
  {
    StockMeaning(data, Supplies);
    SupplyDict();
    forall c | 0 <= c < |Supplies|
      ensures Stock(data, Supplies)[Supplies[c].0] == Word(data, 0x9A + 2 * c, 2)
    {
      var name := Supplies[c].0;
      assert name in Dict(Supplies) && Dict(Supplies)[name] == c;
    }
  }

  lemma OwnConstructablesIncreasing()
    ensures Increasing(OwnConstructables)
  {
  }

  lemma OwnConstructablesFrom()
    ensures CodesFrom(OwnConstructables, 0x2A)
  {
  }

  lemma BuildingsIncreasing()
    ensures Increasing(Buildings)
  {
  }

  lemma BuildingsBelow()
    ensures CodesBelow(Buildings, 0x2A)
  {
  }

  /** The merged `constructables` dict gives distinct codes to its 46 names: the ships and
      'Nothing' use 0x2A and above, the buildings stay below 0x2A. */
  lemma ConstructablesDistinct()
    ensures DistinctCodes(Constructables)
  {
    OwnConstructablesIncreasing();
    OwnConstructablesFrom();
    BuildingsIncreasing();
    BuildingsBelow();
    IncreasingDistinct(OwnConstructables);
    IncreasingDistinct(Buildings);
    ConcatDistinct(OwnConstructables, Buildings, 0x2A);
  }

  /** The construction byte names the one entry of the merged table with that code; a
      byte no entry has raises StopIteration. */
  lemma ConstructingMeaning(code: int)
    ensures FirstWith(Constructables, code).None? <==> !HasCode(Constructables, code)
    ensures FirstWith(Constructables, code).Some? ==>
      && code in Invert(Constructables)
      && FirstWith(Constructables, code).value == Invert(Constructables)[code]
      && (forall i :: 0 <= i < |Constructables| && Constructables[i].1 == code ==>
            Constructables[i].0 == FirstWith(Constructables, code).value)
  {
    ConstructablesDistinct();
    FirstWithMisses(Constructables, code);
    FirstWithIsInvert(Constructables, code);
    forall i | 0 <= i < |Constructables| && Constructables[i].1 == code
      ensures Constructables[i].0 == FirstWith(Constructables, code).value
    {
      FirstWithFinds(Constructables, i);
    }
  }

  /** On a decodable record every stage of `Colony.unpack` runs to its end. */
  lemma ColonyStagesRun(s: ColonyState, data: seq<byte>)
    requires Decodable(data)
    ensures
      var head := ColonyHead(s, data);
      var workers := ColonyWorkers(head.0, data);
      var constructing := ColonyConstructing(ColonyHoldings(workers.0, data), data);
      && head.1.Ok? && workers.1.Ok? && constructing.1.Ok?
      && UnpackColony(s, data) == (ColonyStores(constructing.0, data), Ok(()))
  {
    ColonyAccepts(s, data);
    ColonyOutcome(s, data);
  }

  /** The position, the name and the power byte of a decoded colony; the name is the
      text `ColonyNameMeaning` describes. */
  lemma ColonyDecodedHead(s: ColonyState, data: seq<byte>)
    requires Decodable(data)
    ensures ColonyName(data).Ok?
    ensures var t := UnpackColony(s, data).0;
      && t.position == (data[0], data[1])
      && t.name == ColonyName(data).value
      && t.power == Some(data[0x1A])
  {
    ColonyStagesRun(s, data);
  }

  /** On a decodable record the colonists loop runs all data[0x1F] rounds, round `i`
      decoding bytes 0x20 + i, 0x40 + i and a nibble of 0x60 + i / 2. */
  lemma WorkersDecoded(data: seq<byte>)
    requires Decodable(data)
    ensures var run := Workers(data, data[0x1F]);
      && run.failure.None?
      && |run.appended| == data[0x1F]
      && forall i :: 0 <= i < data[0x1F] ==>
        var timeByte := data[0x60 + i / 2];
        && data[0x20 + i] in Invert(Specialties) && data[0x40 + i] in Invert(Specialties)
        && run.appended[i] == Colonist(
          Invert(Specialties)[data[0x20 + i]], Invert(Specialties)[data[0x40 + i]],
          if i % 2 == 0 then timeByte % 16 else timeByte / 16)
        && run.appended[i].time < 16
  {
    var n := data[0x1F];
    var run := Workers(data, n);
    WorkersSucceed(data);
    WorkersMeaning(data, n);
    forall i | 0 <= i < n
      ensures var timeByte := data[0x60 + i / 2];
        && data[0x20 + i] in Invert(Specialties) && data[0x40 + i] in Invert(Specialties)
        && run.appended[i] == Colonist(
          Invert(Specialties)[data[0x20 + i]], Invert(Specialties)[data[0x40 + i]],
          if i % 2 == 0 then timeByte % 16 else timeByte / 16)
        && run.appended[i].time < 16
    {
      WorkerMeaning(data, i);
      SpecialtyCodes(data[0x20 + i]);
      SpecialtyCodes(data[0x40 + i]);
      assert Worker(data, i) == Ok(run.appended[i]);
    }
  }

  /** A decoded colony keeps the colonists it had and appends exactly data[0x1F] more,
      those of `Workers`. */
  lemma ColonyDecodedColonists(s: ColonyState, data: seq<byte>)
    requires Decodable(data)
    ensures var t := UnpackColony(s, data).0;
      && |t.colonists| == |s.colonists| + data[0x1F]
      && t.colonists == s.colonists + Workers(data, data[0x1F]).appended
  {
    ColonyStagesRun(s, data);
    WorkersDecoded(data);
  }

  /** The attributes a decodable record leaves, read off the stages. */
  lemma ColonyFinal(s: ColonyState, data: seq<byte>)
    requires Decodable(data)
    ensures Unsigned(Buildings) && Unsigned(Supplies)
    ensures var t := UnpackColony(s, data).0;
      && t.fields == s.fields + FieldsRead(data, |FieldDirections|)
      && t.built == s.built + Flags(Buildings, Word(data, 0x84, 6))
      && t.customHouse == s.customHouse + Flags(Supplies, Word(data, 0x8A, 2))
      && t.hammers == Word(data, 0x92, 2)
      && t.constructing == FirstWith(Constructables, data[0x94])
      && t.storage == s.storage + Stock(data, Supplies)
      && t.bells == Word(data, 0xC2, 2)
      && t.unknown == Gather(data, ColonyUnknowns)
      && (t.englishCount, t.frenchCount, t.spanishCount, t.dutchCount) == (data[0xBA], data[0xBB], data[0xBC], data[0xBD])
  {
    ColonyStagesRun(s, data);
    BuildingsUnsigned();
    SuppliesUnsigned();
  }

  /** The worked fields of a decoded colony: direction `k`, in `__init__` order, gets
      byte 0x70 + k; other keys keep their values. */
  lemma ColonyDecodedFields(s: ColonyState, data: seq<byte>)
    requires Decodable(data)
    ensures UnpackColony(s, data).0.fields == s.fields +
      map["N" := Some(data[0x70]), "E" := Some(data[0x71]), "S" := Some(data[0x72]),
          "W" := Some(data[0x73]), "NW" := Some(data[0x74]), "NE" := Some(data[0x75]),
          "SE" := Some(data[0x76]), "SW" := Some(data[0x77])]
  {
    ColonyFinal(s, data);
    FieldsMeaning(data);
  }

  /** The buildings of a decoded colony: one flag per building name, its bit of the
      48-bit little-endian word at 0x84..0x89; other keys keep their values. */
  lemma ColonyDecodedBuilt(s: ColonyState, data: seq<byte>)
    requires Decodable(data)
    ensures var built := UnpackColony(s, data).0.built;
      && built.Keys == s.built.Keys + Dict(Buildings).Keys
      && Word(data, 0x84, 6) == LittleEndian(data[0x84..0x8A])
      && forall name :: name in Dict(Buildings) ==>
        Dict(Buildings)[name] >= 0 && built[name] == Bit(Word(data, 0x84, 6), Dict(Buildings)[name])
  {
    ColonyFinal(s, data);
    FlagsMeaning(Buildings, Word(data, 0x84, 6));
    SliceWithin(data, 0x84, 0x8A);
  }

  /** The custom house of a decoded colony: one flag per commodity, that of commodity
      `c` being bit `c` of the 16-bit little-endian word at 0x8A..0x8B. */
  lemma ColonyDecodedCustomHouse(s: ColonyState, data: seq<byte>)
    requires Decodable(data)
    ensures var house := UnpackColony(s, data).0.customHouse;
      && house.Keys == s.customHouse.Keys + (set i | 0 <= i < |Supplies| :: Supplies[i].0)
      && Word(data, 0x8A, 2) == data[0x8A] as int + 256 * data[0x8B] as int
      && forall c :: 0 <= c < |Supplies| ==> house[Supplies[c].0] == Bit(Word(data, 0x8A, 2), c)
  {
    ColonyFinal(s, data);
    WordPair(data, 0x8A);
    SupplyFlags(Word(data, 0x8A, 2));
  }

  /** The storage of a decoded colony: one amount per commodity, that of commodity `c`
      being the 16-bit little-endian value at 0x9A + 2 * c. */
  lemma ColonyDecodedStorage(s: ColonyState, data: seq<byte>)
    requires Decodable(data)
    ensures var storage := UnpackColony(s, data).0.storage;
      && storage.Keys == s.storage.Keys + (set i | 0 <= i < |Supplies| :: Supplies[i].0)
      && forall c :: 0 <= c < |Supplies| ==>
        storage[Supplies[c].0] == data[0x9A + 2 * c] as int + 256 * data[0x9B + 2 * c] as int
  {
    ColonyFinal(s, data);
    SupplyStock(data);
    forall c | 0 <= c < |Supplies| {
      WordPair(data, 0x9A + 2 * c);
    }
  }

  /** The other attributes of a decoded colony: the entry of the merged table named by
      byte 0x94 (the only entry with that code), the hammers at 0x92, the bells at 0xC2,
      the four counts and the unknown bytes, in order. */
  lemma ColonyDecodedRest(s: ColonyState, data: seq<byte>)
    requires Decodable(data)
    ensures var t := UnpackColony(s, data).0;
      && data[0x94] in Invert(Constructables)
      && t.constructing == Some(Invert(Constructables)[data[0x94]])
      && (forall i :: 0 <= i < |Constructables| && Constructables[i].1 == data[0x94] ==>
            t.constructing == Some(Constructables[i].0))
      && t.hammers == data[0x92] as int + 256 * data[0x93] as int
      && t.bells == data[0xC2] as int + 256 * data[0xC3] as int
      && (t.englishCount, t.frenchCount, t.spanishCount, t.dutchCount) == (data[0xBA], data[0xBB], data[0xBC], data[0xBD])
      && t.unknown == data[27..31] + data[140..146] + data[149..154] + data[190..194] + data[196..202]
  {
    ColonyFinal(s, data);
    ConstructingMeaning(data[0x94]);
    WordPair(data, 0x92);
    WordPair(data, 0xC2);
    ColonyUnknownBytes(data);
  }

  /** The unknown part of a colony is the 25 bytes of its five inclusive ranges, in order. */
  lemma ColonyUnknownBytes(data: seq<byte>)
    requires |data| == ColonyLength
    ensures Gather(data, ColonyUnknowns) == data[27..31] + data[140..146] + data[149..154] + data[190..194] + data[196..202]
    ensures |Gather(data, ColonyUnknowns)| == 25
  {
    var a, b, c, d, e := (27, 30), (140, 145), (149, 153), (190, 193), (196, 201);
    assert ColonyUnknowns == [a] + ([b] + ([c] + ([d] + ([e] + []))));
    GatherCons(data, a, [b] + ([c] + ([d] + ([e] + []))));
    GatherCons(data, b, [c] + ([d] + ([e] + [])));
    GatherCons(data, c, [d] + ([e] + []));
    GatherCons(data, d, [e] + []);
    GatherCons(data, e, []);
    SliceWithin(data, 27, 31);
    SliceWithin(data, 140, 146);
    SliceWithin(data, 149, 154);
    SliceWithin(data, 190, 194);
    SliceWithin(data, 196, 202);
  }

  /** What an exception on a 202-byte record leaves behind: a bad name leaves only the
      new position, a failed colonist keeps the colonists appended before it, and in
      every case the construction, the storage, the counts, the bells and the unknown
      bytes are never reached. */
  lemma ColonyFailureKeeps(s: ColonyState, data: seq<byte>)
    requires |data| == ColonyLength && UnpackColony(s, data).1.Err?
    ensures var t := UnpackColony(s, data).0;
      && (ColonyName(data).Err? ==> t == s.(position := (data[0], data[1])))
      && (ColonyName(data).Ok? && Workers(data, data[0x1F]).failure.Some? ==>
            t == s.(position := (data[0], data[1]), name := ColonyName(data).value, power := Some(data[0x1A]),
                    colonists := s.colonists + Workers(data, data[0x1F]).appended))
      && t.constructing == s.constructing && t.storage == s.storage && t.bells == s.bells
      && t.unknown == s.unknown
      && (t.englishCount, t.frenchCount, t.spanishCount, t.dutchCount) == (s.englishCount, s.frenchCount, s.spanishCount, s.dutchCount)
  {
  }

  /** The bytes the `unused` check at the end of `Colony.unpack` warns about (it only
      prints): addresses inside a listed range whose byte is not the expected one. */
  ghost predicate Unexpected(data: seq<byte>, address: int)
  {
    exists k :: 0 <= k < |ColonyUnused| && ColonyUnused[k].0 <= address <= ColonyUnused[k].1
      && 0 <= address < |data| && data[address] != ColonyUnused[k].2
  }

  /** On a colony record the check warns exactly about the bytes 120 to 131 that are not 0xFF. */
  lemma UnexpectedBytes(data: seq<byte>, address: int)
    requires |data| == ColonyLength
    ensures Unexpected(data, address) <==> 120 <= address <= 131 && data[address] != 0xFF
  {
    if 120 <= address <= 131 && data[address] != 0xFF {
      assert ColonyUnused[0] == (120, 131, 0xFF);
    }
  }
}
