/** European powers: the `Power` class of powers.py. Its constructor takes the bytes of a
    power record and keeps two raw slices of it, the tax rate and the gold, located by
    the `features` table, plus the power's name chosen by position. There is no length
    check: Python slices of a short buffer are just shorter. */
module Powers {
  import opened Errors
  import opened Bytes

  /** `Power.byte_length`: the size of a power record in the save file. */
  const PowerLength: nat := 316

  /** A feature of a power record: its offset from the record's start and its length. */
  datatype Feature = Feature(offset: nat, length: nat)

  /** `Power.features`. */
  const Taxes: Feature := Feature(0x01, 1)
  const Gold: Feature := Feature(0x2A, 3)
  const Features: seq<Feature> := [Taxes, Gold]

  /** `Power.order`: the names, by the index the caller passes. */
  const PowerNames: seq<string> := ["English", "French", "Spanish", "Dutch", "Unknown"]

  /** The attributes a `Power` has once constructed; `gold` stays raw bytes. */
  datatype Power = Power(taxes: seq<byte>, gold: seq<byte>, name: string)

  /** `data[offset:offset + length]` for a feature. */
  function Read(data: seq<byte>, feature: Feature): seq<byte>
  {
    Slice(data, feature.offset, feature.offset + feature.length)
  }

  /** `Power.order[index]`: Python list indexing, negative indices counting from the end. */
  function NameAt(index: int): Result<string>
  {
    if 0 <= index < |PowerNames| then Ok(PowerNames[index])
    else if -|PowerNames| <= index < 0 then Ok(PowerNames[|PowerNames| + index])
    else Err(IndexOutOfRange(index))
  }

  /** `Power(data, order)`: the two slices, then the name, which raises IndexError for an
      index outside -5..4. */
  function DecodePower(data: seq<byte>, order: int := 4): Result<Power>
  {
    var taxes := Read(data, Taxes);
    var gold := Read(data, Gold);
    var name :- NameAt(order);
    Ok(Power(taxes, gold, name))
  }

  /** Both features lie inside a power record. */
  lemma FeaturesInside()
    ensures forall i :: 0 <= i < |Features| ==> Features[i].offset + Features[i].length <= PowerLength
  {
  }

  /** A feature read from a buffer is the bytes at its offset, cut short where the buffer
      ends: it is empty when the buffer ends before the offset. */
  lemma ReadMeaning(data: seq<byte>, feature: Feature)
    ensures |Read(data, feature)| ==
      if |data| <= feature.offset then 0
      else if |data| < feature.offset + feature.length then |data| - feature.offset
      else feature.length
    ensures Read(data, feature) == data[Clamp(|data|, feature.offset)..Clamp(|data|, feature.offset + feature.length)]
  {
  }

  /** The name: position `order` of `Power.order`, counting from the end for a negative
      one; the default 4 gives 'Unknown'. */
  lemma NameMeaning(order: int)
    ensures NameAt(order).Ok? <==> -5 <= order < 5
    ensures NameAt(order).Err? ==> NameAt(order) == Err(IndexOutOfRange(order))
    ensures NameAt(order).Ok? ==> NameAt(order).value == PowerNames[if order < 0 then order + 5 else order]
    ensures NameAt(4) == Ok("Unknown")
  {
  }

  /** What `Power(data, order)` holds: it fails only for a name index outside -5..4, and
      then whatever the buffer; taxes is the one byte at 0x01 and gold the three bytes
      at 0x2A..0x2C of a full record, each a shorter slice of a buffer that ends early. */
  lemma PowerDecoded(data: seq<byte>, order: int)
    ensures DecodePower(data, order).Ok? <==> -5 <= order < 5
    ensures DecodePower(data, order).Err? ==> DecodePower(data, order) == Err(IndexOutOfRange(order))
    ensures DecodePower(data, order).Ok? ==>
      var p := DecodePower(data, order).value;
      && p.name == PowerNames[if order < 0 then order + 5 else order]
      && p.taxes == (if |data| >= 2 then [data[1]] else [])
      && p.gold == (if |data| >= 0x2D then data[0x2A..0x2D] else if |data| > 0x2A then data[0x2A..] else [])
  {
    ReadMeaning(data, Taxes);
    ReadMeaning(data, Gold);
    NameMeaning(order);
    if |data| >= 2 {
      assert data[1..2] == [data[1]];
    }
  }
}
