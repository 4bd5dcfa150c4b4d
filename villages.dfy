/** Native villages: the `Village` class of buildings.py, whose 18-byte records hold a
    position, the owning tribe, hit points, trade memory and four alarm/attack pairs.
    `__init__` fills the attributes with placeholders and `unpack` overwrites them one
    by one; an exception leaves the attributes assigned before it in place. */
module Villages {
  import opened Errors
  import opened Bytes
  import opened Tables

  const VillageLength: nat := 18

  const VillagePowers: Table := [
    ("Cherokee", 0x8), ("Arawak", 0x6), ("Inca", 0x4), ("Sioux", 0xA),
    ("Iroquois", 0x7), ("Tupi", 0xB), ("Aztec", 0x5), ("Apache", 0x9)]

  /** `Village.supplies`: the commodities plus `'(None)': 0xFF`, added after the literal. */
  const VillageSupplies: Table := Supplies + [("(None)", 0xFF)]

  const VillageUnknowns: seq<(int, int)> := [(3, 3), (5, 7)]

  /** The attributes of a `Village`. `None` stands for the placeholders `__init__` puts
      where `unpack` later stores a name: 0 for the power, 0xFF for the supplies. */
  datatype VillageState = VillageState(
    position: (byte, byte),
    power: Option<string>,
    hitpoints: byte,
    lastBought: Option<string>,
    lastSold: Option<string>,
    englishAlarm: byte, englishAttacks: byte,
    frenchAlarm: byte, frenchAttacks: byte,
    spanishAlarm: byte, spanishAttacks: byte,
    dutchAlarm: byte, dutchAttacks: byte,
    unknown: seq<byte>)

  const VillageDefaults: VillageState :=
    VillageState((0, 0), None, 0, None, None, 0, 0, 0, 0, 0, 0, 0, 0, [])

  /** `Village.unpack(data)` on a village whose attributes are `s`: the attributes it
      leaves behind and whether it returned or raised. It assigns attribute by attribute,
      so an exception keeps what was assigned before it. */
  function UnpackVillage(s: VillageState, data: seq<byte>): (VillageState, Result<()>)
  {
    if |data| != VillageLength then (s, Err(WrongLength(VillageLength, |data|)))
    else
      var (s, r) := VillageLookups(s, data);
      if r.Err? then (s, r) else (VillageRest(s, data), r)
  }

  /** The position, then the three table lookups with the hit points between them. */
  function VillageLookups(s: VillageState, data: seq<byte>): (VillageState, Result<()>)
    requires |data| == VillageLength
  {
    var s := s.(position := (data[0], data[1]));
    var powers, supplies := Invert(VillagePowers), Invert(VillageSupplies);
    if data[2] !in powers then (s, Err(UnknownCode(2, data[2])))
    else
      var s := s.(power := Some(powers[data[2]]), hitpoints := data[4]);
      if data[8] !in supplies then (s, Err(UnknownCode(8, data[8])))
      else
        var s := s.(lastBought := Some(supplies[data[8]]));
        if data[9] !in supplies then (s, Err(UnknownCode(9, data[9])))
        else (s.(lastSold := Some(supplies[data[9]])), Ok(()))
  }

  /** The alarms and attacks of the four European powers, then the unknown bytes. */
  function VillageRest(s: VillageState, data: seq<byte>): VillageState
    requires |data| == VillageLength
  {
    s.(englishAlarm := data[10], englishAttacks := data[11],
       frenchAlarm := data[12], frenchAttacks := data[13],
       spanishAlarm := data[14], spanishAttacks := data[15],
       dutchAlarm := data[16], dutchAttacks := data[17],
       unknown := Gather(data, VillageUnknowns))
  }

  class Village {
    var position: (byte, byte)
    var power: Option<string>
    var hitpoints: byte
    var lastBought: Option<string>
    var lastSold: Option<string>
    var englishAlarm: byte
    var englishAttacks: byte
    var frenchAlarm: byte
    var frenchAttacks: byte
    var spanishAlarm: byte
    var spanishAttacks: byte
    var dutchAlarm: byte
    var dutchAttacks: byte
    var unknown: seq<byte>

    ghost function State(): VillageState
      reads this
    {
      VillageState(position, power, hitpoints, lastBought, lastSold,
                   englishAlarm, englishAttacks, frenchAlarm, frenchAttacks,
                   spanishAlarm, spanishAttacks, dutchAlarm, dutchAttacks, unknown)
    }

    /** `Village.__init__`: every attribute holds its placeholder. */
    constructor()
      ensures State() == VillageDefaults
    {
      position := (0, 0);
      power := None;
      hitpoints := 0;
      lastBought := None;
      lastSold := None;
      englishAlarm, englishAttacks := 0, 0;
      frenchAlarm, frenchAttacks := 0, 0;
      spanishAlarm, spanishAttacks := 0, 0;
      dutchAlarm, dutchAttacks := 0, 0;
      unknown := [];
    }

    /** `Village.unpack`. */
    method Unpack(data: seq<byte>) returns (r: Result<()>)
      modifies this
      ensures (State(), r) == UnpackVillage(old(State()), data)
    {
      if |data| != VillageLength {
        return Err(WrongLength(VillageLength, |data|));
      }
      r := UnpackLookups(data);
      if r.Ok? {
        UnpackRest(data);
      }
    }

    method UnpackLookups(data: seq<byte>) returns (r: Result<()>)
      requires |data| == VillageLength
      modifies this`position, this`power, this`hitpoints, this`lastBought, this`lastSold
      ensures r == VillageLookups(old(State()), data).1
      ensures position == VillageLookups(old(State()), data).0.position
      ensures power == VillageLookups(old(State()), data).0.power
      ensures hitpoints == VillageLookups(old(State()), data).0.hitpoints
      ensures lastBought == VillageLookups(old(State()), data).0.lastBought
      ensures lastSold == VillageLookups(old(State()), data).0.lastSold
    {
      position := (data[0], data[1]);
      var powers, supplies := Invert(VillagePowers), Invert(VillageSupplies);
      if data[2] !in powers {
        return Err(UnknownCode(2, data[2]));
      }
      power := Some(powers[data[2]]);
      hitpoints := data[4];
      if data[8] !in supplies {
        return Err(UnknownCode(8, data[8]));
      }
      lastBought := Some(supplies[data[8]]);
      if data[9] !in supplies {
        return Err(UnknownCode(9, data[9]));
      }
      lastSold := Some(supplies[data[9]]);
      r := Ok(());
    }

    method UnpackRest(data: seq<byte>)
      requires |data| == VillageLength
      modifies this`englishAlarm, this`englishAttacks, this`frenchAlarm, this`frenchAttacks
      modifies this`spanishAlarm, this`spanishAttacks, this`dutchAlarm, this`dutchAttacks, this`unknown
      ensures englishAlarm == VillageRest(old(State()), data).englishAlarm
      ensures englishAttacks == VillageRest(old(State()), data).englishAttacks
      ensures frenchAlarm == VillageRest(old(State()), data).frenchAlarm
      ensures frenchAttacks == VillageRest(old(State()), data).frenchAttacks
      ensures spanishAlarm == VillageRest(old(State()), data).spanishAlarm
      ensures spanishAttacks == VillageRest(old(State()), data).spanishAttacks
      ensures dutchAlarm == VillageRest(old(State()), data).dutchAlarm
      ensures dutchAttacks == VillageRest(old(State()), data).dutchAttacks
      ensures unknown == VillageRest(old(State()), data).unknown
    {
      englishAlarm, englishAttacks := data[10], data[11];
      frenchAlarm, frenchAttacks := data[12], data[13];
      spanishAlarm, spanishAttacks := data[14], data[15];
      dutchAlarm, dutchAttacks := data[16], data[17];
      unknown := Gather(data, VillageUnknowns);
    }
  }

  lemma VillagePowersDistinct()
    ensures DistinctCodes(VillagePowers)
  {
  }

  lemma SuppliesBelow()
    ensures CodesBelow(Supplies, 0x10)
  {
  }

  lemma NoneIsNoSupply()
    ensures forall i :: 0 <= i < |Supplies| ==> Supplies[i].0 != "(None)"
  {
  }

  /** A village's supply byte names the commodity with that code, or '(None)' for 0xFF;
      every other byte is missing from the table. */
  lemma VillageSupplyCodes(code: int)
    ensures code in Invert(VillageSupplies) <==> 0 <= code < 16 || code == 0xFF
    ensures 0 <= code < 16 ==> Invert(VillageSupplies)[code] == Supplies[code].0
    ensures code == 0xFF ==> Invert(VillageSupplies)[code] == "(None)"
  {
    SuppliesComplete();
    SuppliesBelow();
    var none: Table := [("(None)", 0xFF)];
    assert CodesFrom(none, 0x10);
    ConcatDistinct(Supplies, none, 0x10);
    InvertDomain(VillageSupplies, code);
    if 0 <= code < 16 {
      assert VillageSupplies[code] == Supplies[code];
      InvertRecovers(VillageSupplies, code);
    } else if code == 0xFF {
      InvertRecovers(VillageSupplies, 16);
    } else {
      forall i | 0 <= i < |VillageSupplies|
        ensures VillageSupplies[i].1 != code
      {
        if i < 16 {
          assert VillageSupplies[i] == Supplies[i];
        }
      }
    }
  }

  /** When and how `Village.unpack` raises, in the order it reads: the length, the power
      byte, then the two supply bytes; a record with the wrong length changes nothing. */
  lemma VillageFailures(s: VillageState, data: seq<byte>)
    ensures |data| != VillageLength ==> UnpackVillage(s, data) == (s, Err(WrongLength(VillageLength, |data|)))
    ensures |data| == VillageLength && !HasCode(VillagePowers, data[2]) ==>
      UnpackVillage(s, data).1 == Err(UnknownCode(2, data[2]))
    ensures (|data| == VillageLength && HasCode(VillagePowers, data[2])
      && !(data[8] < 16 || data[8] == 0xFF)) ==> UnpackVillage(s, data).1 == Err(UnknownCode(8, data[8]))
    ensures (|data| == VillageLength && HasCode(VillagePowers, data[2]) && (data[8] < 16 || data[8] == 0xFF)
      && !(data[9] < 16 || data[9] == 0xFF)) ==> UnpackVillage(s, data).1 == Err(UnknownCode(9, data[9]))
    ensures UnpackVillage(s, data).1.Ok? <==>
      && |data| == VillageLength
      && HasCode(VillagePowers, data[2])
      && (data[8] < 16 || data[8] == 0xFF)
      && (data[9] < 16 || data[9] == 0xFF)
  {
    if |data| == VillageLength {
      InvertDomain(VillagePowers, data[2]);
      VillageSupplyCodes(data[8]);
      VillageSupplyCodes(data[9]);
    }
  }

  /** An exception on a record of the right length comes after the position is stored
      and before the last supply, the alarms, the attacks and the unknown bytes are. */
  lemma VillageFailureKeeps(s: VillageState, data: seq<byte>)
    requires |data| == VillageLength && UnpackVillage(s, data).1.Err?
    ensures var t := UnpackVillage(s, data).0;
      && t.position == (data[0], data[1])
      && t.lastSold == s.lastSold
      && t.(position := s.position, power := s.power, hitpoints := s.hitpoints, lastBought := s.lastBought) == s
  {
  }

  /** The unknown part of a village is bytes 3, 5, 6 and 7, in order. */
  lemma VillageUnknownBytes(data: seq<byte>)
    requires |data| == VillageLength
    ensures Gather(data, VillageUnknowns) == [data[3], data[5], data[6], data[7]]
  {
    var a, b := (3, 3), (5, 7);
    assert VillageUnknowns == [a, b];
    assert [a, b] == [a] + [b];
    assert [b] == [b] + [];
    GatherCons(data, a, [b]);
    GatherCons(data, b, []);
    SliceWithin(data, 3, 4);
    SliceWithin(data, 5, 8);
  }

  /** What a decoded village holds: raw bytes for the position, hit points, alarms and
      attacks; the power's table name; each supply byte as its commodity name, '(None)'
      exactly for 0xFF; and the unknown bytes 3, 5, 6, 7. */
  lemma VillageDecoded(s: VillageState, data: seq<byte>)
    requires |data| == VillageLength && HasCode(VillagePowers, data[2])
    requires (data[8] < 16 || data[8] == 0xFF) && (data[9] < 16 || data[9] == 0xFF)
    ensures UnpackVillage(s, data).1 == Ok(())
    ensures var v := UnpackVillage(s, data).0;
      && v.position == (data[0], data[1])
      && v.power.Some? && (v.power.value, data[2] as int) in VillagePowers
      && v.hitpoints == data[4]
      && v.lastBought == Some(if data[8] == 0xFF then "(None)" else Supplies[data[8]].0)
      && v.lastSold == Some(if data[9] == 0xFF then "(None)" else Supplies[data[9]].0)
      && (v.lastBought == Some("(None)") <==> data[8] == 0xFF)
      && (v.lastSold == Some("(None)") <==> data[9] == 0xFF)
      && [v.englishAlarm, v.englishAttacks, v.frenchAlarm, v.frenchAttacks] == data[10..14]
      && [v.spanishAlarm, v.spanishAttacks, v.dutchAlarm, v.dutchAttacks] == data[14..18]
      && v.unknown == [data[3], data[5], data[6], data[7]]
  {
    VillageFailures(s, data);
    InvertDomain(VillagePowers, data[2]);
    VillageSupplyCodes(data[8]);
    VillageSupplyCodes(data[9]);
    InvertSound(VillagePowers, data[2]);
    NoneIsNoSupply();
    VillageUnknownBytes(data);
  }

}
