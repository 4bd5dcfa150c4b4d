/** Units (`Unit`, 28-byte records) and the colonist code tables (`Colonist`). */
module Units {
  import opened Errors
  import opened Bytes
  import opened Tables

  const UnitLength: nat := 28

  const UnitOrders: Table := [
    ("Road", 0x09), ("Plow", 0x08), ("Go", 0x03), ("No Orders", 0x00),
    ("Fortified", 0x05), ("Sentry", 0x01), ("UNKNOWN2", 0x02), ("UNKNOWN6", 0x06),
    ("UNKNOWNC", 0x0C), ("UNKNOWNB", 0x0B)]

  /** Owning powers, stored in the low nibble of byte 3. */
  const UnitPowers: Table := [
    ("Cherokee", 0x8), ("Dutch", 0x3), ("Spanish", 0x2), ("Arawak", 0x6),
    ("Inca", 0x4), ("Sioux", 0xA), ("Iroquois", 0x7), ("Tupi", 0xB),
    ("French", 0x1), ("English", 0x0), ("Aztec", 0x5), ("Apache", 0x9)]

  const UnitForms: Table := [
    ("Colonist", 0x00), ("Galleon", 0x0F), ("Merchantman", 0x0E), ("Treasure", 0x0A),
    ("Braves", 0x13), ("Missionary", 0x03), ("Pioneer", 0x02), ("Caravel", 0x0D),
    ("Soldier", 0x01), ("Dragoon", 0x04), ("Artillery", 0x0B), ("Frigate", 0x11),
    ("Privateer", 0x10), ("Wagon Train", 0x0C), ("Armed Braves", 0x14),
    ("Mounted Braves", 0x15), ("Scout", 0x05), ("Mounted Warriors", 0x16),
    ("Man-O-War", 0x12)]

  /** Inclusive byte ranges a unit record keeps without interpreting them. */
  const UnitUnknowns: seq<(int, int)> := [(3, 7), (11, 11), (22, 22), (24, 27)]

  const Occupations: Table := [
    ("Farmer", 0x00), ("Sugar Planter", 0x01), ("Tobacco Planter", 0x02),
    ("Cotton Planter", 0x03), ("Fur Trapper", 0x04), ("Lumberjack", 0x05),
    ("Ore Miner", 0x06), ("Silver Miner", 0x07), ("Fisherman", 0x08),
    ("Distiller", 0x09), ("Tobacconist", 0x0A), ("Weaver", 0x0B),
    ("Fur Trader", 0x0C), ("Carpenter", 0x0D), ("Blacksmith", 0x0E),
    ("Gunsmith", 0x0F), ("Preacher", 0x10), ("Statesman", 0x11), ("Teacher", 0x12)]

  /** The nine specialties of their own; `specialties.update(occupations)` appends the
      occupations, whose names are all new to it. */
  const OwnSpecialties: Table := [
    ("Pioneer", 0x14), ("Veteran Soldier", 0x15), ("Scout", 0x16),
    ("Veteran Dragoon", 0x17), ("Missionary", 0x18), ("Indentured Servant", 0x19),
    ("Criminal", 0x1A), ("Indian Convert", 0x1B), ("Free colonist", 0x1C)]

  /** `Colonist.specialties` as the class leaves it. */
  const Specialties: Table := OwnSpecialties + Occupations

  /** A colony worker: the fields of a `Colonist` object. */
  datatype Colonist = Colonist(occupation: string, specialty: string, time: nat)

  datatype Unit = Unit(
    position: (byte, byte),
    form: string,
    power: string,
    order: string,
    specialty: byte,
    occupation: string,
    destination: (byte, byte),
    cargo: seq<(string, byte)>,
    unknown: seq<byte>,
    tools: byte,
    data: seq<byte>)

  /** The inverted table `Unit.__init__` builds for byte 23, from `{**Colonist.specialties, **Colonist.occupations}`. */
  function OccupationLookup(): map<int, string>
  {
    Invert(Specialties + Occupations)
  }

  /** The first `n` cargo slots the loop in `Unit.__init__` appends: slot `i` is the
      commodity in nibble `i` of `cargoes` and the quantity byte `16 + i`. */
  function Cargo(data: seq<byte>, cargoes: nat, n: nat): Result<seq<(string, byte)>>
  {
    if n == 0 then Ok([])
    else
      var prev :- Cargo(data, cargoes, n - 1);
      var kind :- Lookup(Invert(Supplies), 13 + (n - 1) / 2, Nibble(cargoes, n - 1));
      var quantity :- At(data, 16 + (n - 1));
      Ok(prev + [(kind, quantity)])
  }

  /** The record `Unit.__init__` fills in once every lookup has succeeded. */
  function UnitRecord(data: seq<byte>, form: string, power: string, order: string,
                      cargo: seq<(string, byte)>): Unit
    requires |data| == UnitLength
  {
    var lookup := OccupationLookup();
    Unit((data[0], data[1]), form, power, order, data[23],
         if data[23] in lookup then lookup[data[23]] else "UNKNOWN",
         (data[9], data[10]), cargo, Gather(data, UnitUnknowns),
         if form == "Pioneer" then data[21] else 0, data)
  }

  /** What `Unit(data)` constructs, or the exception it raises. */
  function DecodeUnit(data: seq<byte>): Result<Unit>
  {
    if |data| != UnitLength then Err(WrongLength(UnitLength, |data|))
    else
      var form :- Lookup(Invert(UnitForms), 2, data[2]);
      var power :- Lookup(Invert(UnitPowers), 3, data[3] % 16);
      var order :- Lookup(Invert(UnitOrders), 8, data[8]);
      var cargo :- Cargo(data, Word(data, 13, 3), data[12]);
      Ok(UnitRecord(data, form, power, order, cargo))
  }

  lemma {:induction false} CargoStops(data: seq<byte>, cargoes: nat, k: nat, n: nat)
    requires k <= n && Cargo(data, cargoes, k).Err?
    ensures Cargo(data, cargoes, n) == Cargo(data, cargoes, k)
  {
    if k < n {
      CargoStops(data, cargoes, k, n - 1);
    }
  }

  /** The cargo loop of `Unit.__init__`: `n` slots read from the packed commodity word
      `cargoes`, stopping at the first failure. */
  method ReadCargo(data: seq<byte>, cargoes: nat, n: nat) returns (r: Result<seq<(string, byte)>>)
    ensures r == Cargo(data, cargoes, n)
  {
    var cargo: seq<(string, byte)> := [];
    var offset := 0;
    while offset < n
      invariant 0 <= offset <= n
      invariant Cargo(data, cargoes, offset) == Ok(cargo)
    {
      if Cargo(data, cargoes, offset + 1).Err? {
        CargoStops(data, cargoes, offset + 1, n);
      }
      var kind :- Lookup(Invert(Supplies), 13 + offset / 2, Nibble(cargoes, offset));
      var quantity :- At(data, 16 + offset);
      cargo := cargo + [(kind, quantity)];
      offset := offset + 1;
    }
    return Ok(cargo);
  }

  /** `Unit.__init__`: the decoding steps in the source's order. */
  method UnpackUnit(data: seq<byte>) returns (r: Result<Unit>)
    ensures r == DecodeUnit(data)
  {
    if |data| != UnitLength {
      return Err(WrongLength(UnitLength, |data|));
    }
    var position := (data[0], data[1]);
    var form :- Lookup(Invert(UnitForms), 2, data[2]);
    var power :- Lookup(Invert(UnitPowers), 3, data[3] % 16);
    var order :- Lookup(Invert(UnitOrders), 8, data[8]);
    var specialty := data[23];
    var lookup := OccupationLookup();
    var occupation := if data[23] in lookup then lookup[data[23]] else "UNKNOWN";
    var destination := (data[9], data[10]);
    var cargo :- ReadCargo(data, Word(data, 13, 3), data[12]);
    var unknown := Gather(data, UnitUnknowns);
    var tools := if form == "Pioneer" then data[21] else 0;
    r := Ok(Unit(position, form, power, order, specialty, occupation, destination, cargo, unknown, tools, data));
  }

  lemma OrdersDistinct()
    ensures DistinctCodes(UnitOrders)
  {
  }

  lemma PowersDistinct()
    ensures DistinctCodes(UnitPowers)
  {
  }

  /** The position of each code in `UnitForms`, -1 for codes it does not list. */
  const FormPositions: seq<int> :=
    [0, 8, 6, 5, 9, 16, -1, -1, -1, -1, 3, 10, 13, 7, 2, 1, 12, 11, 18, 4, 14, 15, 17]

  lemma FormCodesBounded()
    ensures forall i :: 0 <= i < |UnitForms| ==> 0 <= UnitForms[i].1 < |FormPositions|
  {
  }

  lemma FormCodePositions()
    ensures forall i :: 0 <= i < |UnitForms| ==>
      0 <= UnitForms[i].1 < |FormPositions| && FormPositions[UnitForms[i].1] == i
  {
    FormCodesBounded();
  }

  lemma FormCodesDistinct()
    ensures DistinctCodes(UnitForms)
  {
    FormCodePositions();
    DistinctByPosition(UnitForms, FormPositions);
  }

  /** 'Pioneer' is the form name of item 6 only. */
  lemma PioneerOnce()
    ensures UnitForms[6] == ("Pioneer", 0x02)
    ensures forall i :: 0 <= i < |UnitForms| && i != 6 ==> UnitForms[i].0 != "Pioneer"
  {
  }

  lemma OwnSpecialtiesIncreasing()
    ensures Increasing(OwnSpecialties)
  {
  }

  lemma OwnSpecialtiesFrom()
    ensures CodesFrom(OwnSpecialties, 0x14)
  {
  }

  lemma OccupationsIncreasing()
    ensures Increasing(Occupations)
  {
  }

  lemma OccupationsBelow()
    ensures CodesBelow(Occupations, 0x14)
  {
  }

  /** `Colonist.specialties` gives distinct codes to its 28 names. */
  lemma SpecialtiesDistinct()
    ensures DistinctCodes(Occupations) && DistinctCodes(Specialties)
  {
    OwnSpecialtiesIncreasing();
    OwnSpecialtiesFrom();
    OccupationsIncreasing();
    OccupationsBelow();
    IncreasingDistinct(OwnSpecialties);
    IncreasingDistinct(Occupations);
    ConcatDistinct(OwnSpecialties, Occupations, 0x14);
  }

  lemma OwnSpecialtyCodes()
    ensures forall i :: 0 <= i < |OwnSpecialties| ==> OwnSpecialties[i].1 == 0x14 + i
  {
  }

  lemma OccupationCodes()
    ensures forall i :: 0 <= i < |Occupations| ==> Occupations[i].1 == i
  {
  }

  /** The bytes `Colonist.specialties` can decode: 0 to 0x12 and 0x14 to 0x1C (0x13 is
      not listed). */
  lemma SpecialtyCodes(code: int)
    ensures code in Invert(Specialties) <==> 0 <= code <= 0x1C && code != 0x13
  {
    InvertDomain(Specialties, code);
    OwnSpecialtyCodes();
    OccupationCodes();
    if 0 <= code <= 0x1C && code != 0x13 {
      if code >= 0x14 {
        assert Specialties[code - 0x14] == OwnSpecialties[code - 0x14];
      } else {
        assert Specialties[9 + code] == Occupations[code];
      }
    } else {
      forall i | 0 <= i < |Specialties|
        ensures Specialties[i].1 != code
      {
        if i < 9 {
          assert Specialties[i] == OwnSpecialties[i];
        } else {
          assert Specialties[i] == Occupations[i - 9];
        }
      }
    }
  }

  /** `Colonist.specialties` contains every occupation with its code, so the merged
      dict `Unit.__init__` inverts for byte 23 inverts like `specialties` alone. */
  lemma OccupationLookupIsSpecialties()
    ensures forall i :: 0 <= i < |Occupations| ==> Occupations[i] in Specialties
    ensures OccupationLookup() == Invert(Specialties)
  {
    SpecialtiesDistinct();
    assert forall i :: 0 <= i < |Occupations| ==> Specialties[|OwnSpecialties| + i] == Occupations[i];
    InvertRedundant(Specialties, Occupations);
  }

  /** The power nibble decodes exactly for 0 to 11; 0xC to 0xF raise KeyError. */
  lemma PowerNibble(code: int)
    ensures HasCode(UnitPowers, code) <==> 0 <= code < 12
  {
    var index := [9, 8, 2, 1, 4, 10, 3, 6, 0, 11, 5, 7];
    if 0 <= code < 12 {
      assert UnitPowers[index[code]].1 == code;
    }
    assert forall i :: 0 <= i < |UnitPowers| ==> 0 <= UnitPowers[i].1 < 12;
  }

  /** The cargo loop of a 28-byte record: it succeeds for up to 12 slots, slot `i`
      being the commodity in nibble `i` of `cargoes` (a lookup that cannot fail) and the
      quantity byte `16 + i`; a 13th slot reads past the record. */
  lemma {:induction false} CargoMeaning(data: seq<byte>, cargoes: nat, n: nat)
    requires |data| == UnitLength
    ensures Cargo(data, cargoes, n).Ok? <==> n <= 12
    ensures n > 12 ==> Cargo(data, cargoes, n) == Err(IndexOutOfRange(28))
    ensures Cargo(data, cargoes, n).Ok? ==>
      var cargo := Cargo(data, cargoes, n).value;
      && |cargo| == n
      && forall i :: 0 <= i < n ==> cargo[i] == (Supplies[Nibble(cargoes, i)].0, data[16 + i])
  {
    SuppliesComplete();
    if n > 0 {
      CargoMeaning(data, cargoes, n - 1);
      if n > 13 {
        CargoStops(data, cargoes, 13, n);
      }
    }
  }

  /** When and how decoding a unit fails, in the order the constructor checks:
      the length, the form byte, the power nibble, the order byte, then the cargo count. */
  lemma UnitFailures(data: seq<byte>)
    ensures |data| != UnitLength ==> DecodeUnit(data) == Err(WrongLength(UnitLength, |data|))
    ensures |data| == UnitLength && !HasCode(UnitForms, data[2]) ==>
      DecodeUnit(data) == Err(UnknownCode(2, data[2]))
    ensures |data| == UnitLength && HasCode(UnitForms, data[2]) && data[3] % 16 >= 12 ==>
      DecodeUnit(data) == Err(UnknownCode(3, data[3] % 16))
    ensures (|data| == UnitLength && HasCode(UnitForms, data[2]) && data[3] % 16 < 12
      && !HasCode(UnitOrders, data[8])) ==> DecodeUnit(data) == Err(UnknownCode(8, data[8]))
    ensures DecodeUnit(data).Ok? <==>
      && |data| == UnitLength
      && HasCode(UnitForms, data[2])
      && data[3] % 16 < 12
      && HasCode(UnitOrders, data[8])
      && data[12] <= 12
  {
    if |data| == UnitLength {
      InvertDomain(UnitForms, data[2]);
      InvertDomain(UnitPowers, data[3] % 16);
      PowerNibble(data[3] % 16);
      InvertDomain(UnitOrders, data[8]);
      CargoMeaning(data, Word(data, 13, 3), data[12]);
    }
  }

  lemma UnitLengthChecked(data: seq<byte>)
    requires DecodeUnit(data).Ok?
    ensures |data| == UnitLength
  {
  }

  lemma UnitLookupsSucceed(data: seq<byte>)
    requires DecodeUnit(data).Ok?
    ensures |data| == UnitLength
    ensures data[2] in Invert(UnitForms) && data[3] % 16 in Invert(UnitPowers) && data[8] in Invert(UnitOrders)
  {
    UnitLengthChecked(data);
  }

  lemma UnitCargoSucceeds(data: seq<byte>)
    requires DecodeUnit(data).Ok?
    ensures |data| == UnitLength
    ensures Cargo(data, Word(data, 13, 3), data[12]).Ok?
  {
    UnitFailures(data);
    CargoMeaning(data, Word(data, 13, 3), data[12]);
  }

  /** A decoded unit is the record built from the looked-up names and the cargo list. */
  lemma UnitFields(data: seq<byte>)
    requires DecodeUnit(data).Ok?
    ensures |data| == UnitLength
    ensures data[2] in Invert(UnitForms) && data[3] % 16 in Invert(UnitPowers) && data[8] in Invert(UnitOrders)
    ensures Cargo(data, Word(data, 13, 3), data[12]).Ok?
    ensures DecodeUnit(data) == Ok(UnitRecord(data, Invert(UnitForms)[data[2]], Invert(UnitPowers)[data[3] % 16],
                                              Invert(UnitOrders)[data[8]], Cargo(data, Word(data, 13, 3), data[12]).value))
    ensures DecodeUnit(data).value.position == (data[0], data[1])
    ensures DecodeUnit(data).value.destination == (data[9], data[10])
  {
    UnitLookupsSucceed(data);
    UnitCargoSucceeds(data);
    UnitRecordBuilt(data);
  }

  lemma UnitRecordBuilt(data: seq<byte>)
    requires |data| == UnitLength
    requires data[2] in Invert(UnitForms) && data[3] % 16 in Invert(UnitPowers) && data[8] in Invert(UnitOrders)
    requires Cargo(data, Word(data, 13, 3), data[12]).Ok?
    ensures DecodeUnit(data) == Ok(UnitRecord(data, Invert(UnitForms)[data[2]], Invert(UnitPowers)[data[3] % 16],
                                              Invert(UnitOrders)[data[8]], Cargo(data, Word(data, 13, 3), data[12]).value))
  {
  }

  /** Each enumerated field of a decoded unit is the table name of its code. */
  lemma UnitNames(data: seq<byte>)
    requires DecodeUnit(data).Ok?
    ensures var u := DecodeUnit(data).value;
      && (u.form, data[2]) in UnitForms
      && (u.power, data[3] % 16) in UnitPowers
      && (u.order, data[8]) in UnitOrders
  {
    UnitFields(data);
    InvertSound(UnitForms, data[2]);
    InvertSound(UnitPowers, data[3] % 16);
    InvertSound(UnitOrders, data[8]);
  }

  /** Byte 23 names a specialty or occupation when `Colonist.specialties` lists it,
      and is 'UNKNOWN' otherwise. */
  lemma UnitOccupation(data: seq<byte>)
    requires DecodeUnit(data).Ok?
    ensures var u := DecodeUnit(data).value;
      && (HasCode(Specialties, data[23]) ==> (u.occupation, data[23] as int) in Specialties)
      && (!HasCode(Specialties, data[23]) ==> u.occupation == "UNKNOWN")
      && u.specialty == data[23]
  {
    UnitFields(data);
    OccupationLookupIsSpecialties();
    InvertDomain(Specialties, data[23]);
    if HasCode(Specialties, data[23]) {
      InvertSound(Specialties, data[23]);
    }
  }

  /** A decoded unit carries one slot per cargo count: commodity from nibble `i` of
      bytes 13..15, quantity from byte `16 + i`. */
  lemma UnitCargo(data: seq<byte>)
    requires DecodeUnit(data).Ok?
    ensures var u := DecodeUnit(data).value;
      && |u.cargo| == data[12]
      && forall i :: 0 <= i < |u.cargo| ==> u.cargo[i] == (Supplies[Nibble(Word(data, 13, 3), i)].0, data[16 + i])
  {
    UnitFields(data);
    CargoMeaning(data, Word(data, 13, 3), data[12]);
  }

  /** Only pioneers carry tools: the form is 'Pioneer' exactly when byte 2 is 0x02, and
      then the tools are byte 21; any other unit keeps 0. */
  lemma UnitTools(data: seq<byte>)
    requires DecodeUnit(data).Ok?
    ensures var u := DecodeUnit(data).value;
      && (u.form == "Pioneer" <==> data[2] == 0x02)
      && u.tools == (if data[2] == 0x02 then data[21] else 0)
  {
    UnitFields(data);
    FormCodesDistinct();
    PioneerOnce();
    UnitNames(data);
    var u := DecodeUnit(data).value;
    var i :| 0 <= i < |UnitForms| && UnitForms[i] == (u.form, data[2] as int);
    if data[2] == 0x02 {
      InvertRecovers(UnitForms, 6);
    }
  }

  /** The bytes `UnitUnknowns` selects from a 28-byte record. */
  lemma UnknownBytes(data: seq<byte>)
    requires |data| == UnitLength
    ensures Gather(data, UnitUnknowns) == data[3..8] + data[11..12] + data[22..23] + data[24..28]
  {
    var a, b, c, d := (3, 7), (11, 11), (22, 22), (24, 27);
    assert UnitUnknowns == [a, b, c, d];
    assert [a, b, c, d] == [a] + [b, c, d];
    assert [b, c, d] == [b] + [c, d];
    assert [c, d] == [c] + [d];
    assert [d] == [d] + [];
    GatherCons(data, a, [b, c, d]);
    GatherCons(data, b, [c, d]);
    GatherCons(data, c, [d]);
    GatherCons(data, d, []);
    SliceWithin(data, 3, 8);
    SliceWithin(data, 11, 12);
    SliceWithin(data, 22, 23);
    SliceWithin(data, 24, 28);
  }

  /** The unknown part of a unit is bytes 3..7, 11, 22 and 24..27, in order. */
  lemma UnitUnknown(data: seq<byte>)
    requires DecodeUnit(data).Ok?
    ensures var u := DecodeUnit(data).value;
      && u.unknown == data[3..8] + [data[11], data[22]] + data[24..28]
      && |u.unknown| == 11
  {
    UnitFields(data);
    UnknownBytes(data);
    assert data[11..12] + data[22..23] == [data[11], data[22]];
  }
}
