# Colonization save-file decoder, modelled in Dafny

This project models the decoding side of a reverse-engineered reader for the
`COLONYnn.SAV` save files of *Sid Meier's Colonization*, and proves properties of
that model. A save file is one flat byte buffer: a 0x186-byte header, then the colony
records (202 bytes each), the unit records (28 bytes), four European power records (316
bytes), the native village records (18 bytes), the map layers, and the trade routes
(74 bytes). The model covers the following parts.

- **Header** (`Headers`). The `Header` class checks the `COLONIZE\0` marker, reads the
  record counts and the map dimensions, and computes where each group of records starts.
- **Record decoders.** Each checks the record length and then pulls out plain bytes,
  nibbles, bit flags of little-endian words and NUL-terminated ASCII names through the
  enumeration tables of the source. It also copies the "unknown" byte ranges verbatim.
  - `Village.unpack` and `Colony.unpack` (`Villages`, `Colonies`);
  - the `Unit` constructor (`Units`);
  - `TradeRoute.unpack` (`Trade`);
  - the `Power` constructor (`Powers`).
- **Map views** (`Maps`). `Map.__parse` cuts the four map layers out of the buffer.
  `display` builds each layer's symbol table in first-seen order and blanks the ocean
  tiles of the terrain layer. `shape` returns the dimensions.
- **Structure-aware diff** (`Compare`). `old_compare` in hex_compare.py:
  1. builds a 13-entry section table per buffer;
  2. blanks and realigns the sections whose record counts differ;
  3. gives up when the map size or the file size differs;
  4. reports every differing byte with its section, offset and record or map position.
- **Byte counter** (`Edit`). `byte_compare` in edit.py counts the differing bytes.

Python exceptions become an error value of `Errors.Result`:

| Python exception | error value |
|---|---|
| `ValueError` for a wrong record length | `WrongLength` |
| `KeyError` from an inverted table | `UnknownCode` |
| `IndexError` | `IndexOutOfRange` |
| `UnicodeDecodeError` | `NotAscii` |
| `StopIteration` | `NoMatch` |
| `ZeroDivisionError` | `DivisionByZero` |
| the header's unrecognised-file exception | `UnrecognizedFileType` |
| "no data" | `NoData` |
| the two `ValueError`s of `old_compare` | `DifferentMapSize`, `DifferentFileSizes` |
| the `assert` of `byte_compare` | `LengthAssertion` |

Each Python class whose methods assign attributes is a Dafny `class` with those fields:
`Header`, `Map`, `Village`, `Colony` and `TradeRoute`. Each method is specified against
a pure function of the old attributes and the input, for example
`(State(), r) == UnpackVillage(old(State()), data)`. The lemmas then state what that
function does.

An exception leaves whatever the method had already assigned, as the source does. The
loops of the source are `for`/`while` loops in helper methods, with a prefix-recursive
function as their invariant. `Unit` and `Power` build their whole record in the
constructor, so they are modelled as functions from bytes to a record (`Units.DecodeUnit`,
computed by the loop method `Units.UnpackUnit`, and `Powers.DecodePower`). Bytes are
`byte` values 0..255, and each enumeration table is a sequence of (name, code) pairs
in the order of the source's dict literal.

The file reads, the command-line handling and every `print` are left out.
`old_compare` and `byte_compare` take the two buffers as parameters.

## Model

| member | source | states |
|---|---|---|
| Headers.Header.constructor | colonization/header.py:76-81 | `__init__` up to `__reader`: the constructor keeps the file's bytes, and the parsed attributes read as zero until `Parse`, the `__parse` that `__init__` runs next, assigns them. |
| Headers.Header.Parse | colonization/header.py:45-74 | On failure nothing is assigned, and the error is the one `ParseLayout` gives. On success the attributes are the layout of the buffer, and `colonies` holds exactly `colony_count` entries. |
| Headers.ColonyList | colonization/header.py:70-74 | The colony list has exactly `count` entries. |
| Headers.ParseFailures | colonization/header.py:46-53 | Parsing gives "no data" exactly for an empty buffer. It gives "unrecognized file type" exactly when the first nine bytes are not `COLONIZE\0`, and IndexError exactly when a marked buffer ends before 0x2E. It succeeds iff the buffer starts with the marker and reaches byte 0x2E. |
| Headers.LayoutFields | colonization/header.py:56-60 | The three counts are the bytes at 0x2E, 0x2C and 0x2A. Width and height are the little-endian 16-bit words at 0x0C..0x0D and 0x0E..0x0F, each below 0x10000. |
| Headers.LayoutStarts | colonization/header.py:64-67 | `colonies_start` = 0x186, `units_start` = colonies_start + 202·colony_count, `powers_start` = units_start + 28·unit_count and `villages_start` = powers_start + 18·village_count. The four starts are nondecreasing. |
| Headers.StartsFromCounts | colonization/header.py:64-67 | Two buffers that agree on the three count bytes get the same four start addresses, so recomputing them is idempotent. |
| Headers.VillagesInsidePowers | colonization/header.py:67 | As written, with at most 70 villages the village start falls inside the four power records. With no villages it equals the powers' start. |
| Headers.IntendedVillagesStart | hex_compare.py:64 | The intended village start is powers_start + 0x4F0, that is, after four power records. |
| Headers.IntendedStartsOrdered | colonization/header.py:16-20 | With the intended village address, the colony, unit, power and village starts never decrease, for any counts. |
| Villages.Village.constructor | colonization/buildings.py:24-38 | Every attribute holds its placeholder. |
| Villages.Village.Unpack | colonization/buildings.py:43-62 | The new attributes and the outcome are those of `UnpackVillage` on the old attributes. |
| Villages.VillagePowersDistinct | colonization/buildings.py:6-8 | The village power table gives distinct codes to its names. |
| Villages.VillageSupplyCodes | colonization/buildings.py:10-16 | A supply byte is in the inverted table iff it is 0..15 or 0xFF. 0..15 names commodity `code`, and 0xFF names '(None)'. |
| Villages.VillageFailures | colonization/buildings.py:44-53 | Unpacking raises, in reading order, for a wrong length (changing nothing), an unlisted power byte, or an unlisted byte 8 or 9. It succeeds iff none of these holds. |
| Villages.VillageFailureKeeps | colonization/buildings.py:47-53 | An exception on an 18-byte record leaves the new position; the later attributes keep their old values. |
| Villages.VillageUnknownBytes | colonization/buildings.py:18 | The unknown part is bytes 3, 5, 6 and 7, in order. |
| Villages.VillageDecoded | colonization/buildings.py:47-62 | A decoded village holds the position, power name, hit points, alarms and attacks. Each supply is the commodity name, or '(None)' exactly for 0xFF. `unknown` is bytes 3, 5, 6, 7. |
| Colonies.Colony.constructor | colonization/buildings.py:141-158 | Every attribute holds its `__init__` value, including the eight empty field entries and counts of 1. |
| Colonies.Colony.Unpack | colonization/buildings.py:163-209 | The new attributes and the outcome are those of `UnpackColony` on the old attributes. |
| Colonies.ReadWorkers | colonization/buildings.py:171-180 | The colonists loop appends the colonists of `Workers` and stops at the first round that raises. |
| Colonies.ReadFields | colonization/buildings.py:181-182 | The fields loop yields `FieldsRead` over the eight directions. |
| Colonies.ReadFlags | colonization/buildings.py:183-191 | A flags loop over a table yields one bit flag per name (`Flags`). |
| Colonies.ReadStock | colonization/buildings.py:196-198 | The storage loop yields one 16-bit amount per name (`Stock`). |
| Colonies.WorkerMeaning | colonization/buildings.py:172-180 | One round raises IndexError past the record and KeyError on an unlisted occupation or specialty byte. Otherwise the colonist's time is the low nibble of byte 0x60 + i/2 for even i and the high nibble for odd i, so it is below 16. |
| Colonies.WorkersMeaning | colonization/buildings.py:172-180 | The loop appends colonists 0, 1, … in order and stops at the first round that raises. It completes iff every round succeeds. |
| Colonies.WorkersSucceed | colonization/buildings.py:172-175 | The loop completes iff there are at most 138 colonists and all their occupation and specialty bytes are listed. |
| Colonies.ColonyOutcome | colonization/buildings.py:163-209 | On a 202-byte record, unpacking raises for the name, then the colonists, then the construction byte, in that order, or else it returns. |
| Colonies.ColonyNameMeaning | colonization/buildings.py:168 | The name fails exactly when a byte of 2..0x18 exceeds 0x7F. Otherwise it is the characters of the bytes before the first NUL: at most 23 characters and no NUL. |
| Colonies.ColonyFailures | colonization/buildings.py:168-194 | Each of the three exceptions, with its argument, under its condition. |
| Colonies.ColonyAccepts | colonization/buildings.py:164-165 | A wrong length raises before anything is assigned. Unpacking returns iff the record is `Decodable`. |
| Colonies.FieldsMeaning | colonization/buildings.py:146-147 | Direction N..SW, in `__init__` order, gets byte 0x70 + its position. |
| Colonies.FlagsMeaning | colonization/buildings.py:183-191 | One flag per dict key, equal to bit `code` of the word. |
| Colonies.StockMeaning | colonization/buildings.py:196-198 | One amount per dict key, equal to the 16-bit word at 0x9A + 2·code. |
| Colonies.SupplyDict | colonization/buildings.py:110-115 | The commodity dict maps name `c` to `c` and has no other keys. |
| Colonies.SupplyFlags | colonization/buildings.py:188-191 | Custom-house flag `c` is bit `c` of the word at 0x8A. |
| Colonies.SupplyStock | colonization/buildings.py:196-198 | Storage `c` is the word at 0x9A + 2c. |
| Colonies.ConstructablesDistinct | colonization/buildings.py:82-105 | The merged constructables table has distinct codes. |
| Colonies.ConstructingMeaning | colonization/buildings.py:194 | `next(...)` fails iff no entry has the code. Otherwise it is the unique entry with that code. |
| Colonies.ColonyStagesRun | colonization/buildings.py:163-209 | On a decodable record every stage runs to its end. |
| Colonies.ColonyDecodedHead | colonization/buildings.py:167-169 | Position, name and power byte of a decoded colony. |
| Colonies.WorkersDecoded | colonization/buildings.py:171-180 | Exactly data[0x1F] colonists. Colonist i decodes bytes 0x20+i and 0x40+i and a nibble of 0x60+i/2. |
| Colonies.ColonyDecodedColonists | colonization/buildings.py:172-180 | The colonists list grows by exactly data[0x1F] entries, the old ones kept in front. |
| Colonies.ColonyFinal | colonization/buildings.py:181-205 | The fields, flags, storage, counts, hammers, bells and unknown bytes a decodable record leaves. |
| Colonies.ColonyDecodedFields | colonization/buildings.py:181-182 | The eight directions get bytes 0x70..0x77, and other keys keep their values. |
| Colonies.ColonyDecodedBuilt | colonization/buildings.py:183-186 | One flag per building, equal to its bit of the 48-bit word at 0x84..0x89. |
| Colonies.ColonyDecodedCustomHouse | colonization/buildings.py:188-191 | One flag per commodity, equal to bit `c` of the 16-bit word at 0x8A..0x8B. |
| Colonies.ColonyDecodedStorage | colonization/buildings.py:196-198 | Sixteen amounts, each the little-endian 16-bit value at 0x9A + 2c. |
| Colonies.ColonyDecodedRest | colonization/buildings.py:193-205 | `constructing` is the unique entry with code byte 0x94. Hammers are the word at 0x92 and bells the word at 0xC2. It also gives the four counts and the 25 unknown bytes. |
| Colonies.ColonyUnknownBytes | colonization/buildings.py:117-118 | The unknown part is the 25 bytes of the five inclusive ranges, in order. |
| Colonies.ColonyFailureKeeps | colonization/buildings.py:167-194 | What each exception leaves: after a bad name only the position is new; after a failed colonist the earlier colonists are kept; the later attributes are never reached. |
| Colonies.UnexpectedBytes | colonization/buildings.py:123 | The `unused` check flags exactly the bytes 120..131 that are not 0xFF. |
| Units.UnpackUnit | colonization/units.py:55-102 | The constructor's decoding, with its cargo loop, equals `DecodeUnit`. |
| Units.ReadCargo | colonization/units.py:93-98 | The cargo loop yields `Cargo`. |
| Units.OrdersDistinct | colonization/units.py:4-7 | The order table has distinct codes. |
| Units.PowersDistinct | colonization/units.py:9-12 | The unit power table has distinct codes. |
| Units.FormCodesDistinct | colonization/units.py:20-26 | The form table has distinct codes. |
| Units.PioneerOnce | colonization/units.py:20-26 | Only form 0x02 is 'Pioneer'. |
| Units.SpecialtiesDistinct | colonization/units.py:121-138 | The occupation table and the merged specialty table have distinct codes. |
| Units.SpecialtyCodes | colonization/units.py:121-138 | The merged specialty table lists exactly the codes 0..0x1C except 0x13. |
| Units.OccupationLookupIsSpecialties | colonization/units.py:82 | Every occupation is also a specialty. The `{**specialties, **occupations}` lookup equals the inverted specialty table. |
| Units.PowerNibble | colonization/units.py:75 | A power nibble is listed iff it is below 12. |
| Units.CargoMeaning | colonization/units.py:93-98 | The cargo loop fails iff there are more than 12 slots, at byte 28. Entry i is the commodity of nibble i of the 24-bit word at 13..15 and quantity byte 16+i. |
| Units.UnitFailures | colonization/units.py:66-78 | Decoding raises, in order, for a wrong length, an unlisted form, a power nibble of 12 or more, or an unlisted order. It succeeds iff none of these holds and there are at most 12 cargo slots. |
| Units.UnitFields | colonization/units.py:69-102 | A decodable record gives the record `UnitRecord` describes, with position (byte 0, byte 1) and destination (byte 9, byte 10). |
| Units.UnitNames | colonization/units.py:71-78 | Form, power and order are the table names of bytes 2, the low nibble of 3, and 8. |
| Units.UnitOccupation | colonization/units.py:81-88 | `specialty` is byte 23. The occupation is its table name, or 'UNKNOWN' exactly for an unlisted byte. |
| Units.UnitCargo | colonization/units.py:92-98 | Exactly data[12] cargo entries: the nibble-coded commodity and quantity byte 16+i. |
| Units.UnitTools | colonization/units.py:101-102 | `tools` is byte 21 for a pioneer (form byte 2 is 0x02), and 0 otherwise. |
| Units.UnitUnknown | colonization/units.py:28 | The unknown part is bytes 3..7, 11, 22 and 24..27: eleven bytes, in order. |
| Trade.TradeRoute.constructor | colonization/trade.py:24-28 | The `__init__` values. |
| Trade.TradeRoute.Unpack | colonization/trade.py:33-59 | The new attributes and the outcome are those of `UnpackRoute`. |
| Trade.ReadGoods | colonization/trade.py:48-55 | One inner loop yields `Goods`. |
| Trade.ReadStop | colonization/trade.py:44-57 | One round of the destinations loop yields `Stop`. |
| Trade.ReadStops | colonization/trade.py:42-57 | The destinations loop yields `Stops`, and it stops at the first round that raises. |
| Trade.GoodsMeaning | colonization/trade.py:16-21 | An inner loop never fails. It yields `count` commodities, item i the one named by nibble i. |
| Trade.StopMeaning | colonization/trade.py:43-57 | Stops 0..3 decode and stop 4 raises IndexError at 74. The location is byte 34+10k. The load count is the high nibble of byte 36+10k and the unload count its low nibble. The loads come from the 24-bit word at 37+10k, the unloads from the word at 40+10k. |
| Trade.StopsMeaning | colonization/trade.py:43-57 | It reads the stops in order and completes iff there are at most 4; a fifth raises at 74. |
| Trade.RouteNameMeaning | colonization/trade.py:37 | The name fails exactly on a byte above 0x7F. Otherwise it is the bytes before the first NUL: at most 32 characters, no NUL. |
| Trade.RouteFailures | colonization/trade.py:34-57 | Unpacking raises, in reading order, for a wrong length (changing nothing), a non-ASCII name, or a fifth stop. It succeeds iff none of these holds. |
| Trade.RouteUnknownBytes | colonization/trade.py:11-12 | The unknown part is bytes 35, 43, 45, 53, 55, 63, 65, 73, in order. |
| Trade.RouteDecoded | colonization/trade.py:37-59 | A decoded route holds the name, `sea` iff byte 32 is nonzero, data[33] stops, and the unknown bytes. |
| Trade.RouteFailureKeeps | colonization/trade.py:37-57 | An exception after the name keeps the name, the flag and the stops decoded before it. |
| Powers.FeaturesInside | colonization/powers.py:2-12 | Both feature ranges lie inside a 316-byte record. |
| Powers.ReadMeaning | colonization/powers.py:17-18 | A feature slice is the bytes at its offset, cut short, and never an error, when the buffer ends early. |
| Powers.NameMeaning | colonization/powers.py:14-19 | `order[index]` succeeds iff -5 ≤ index < 5, counting negative indices from the end. The default 4 gives 'Unknown'. |
| Powers.PowerDecoded | colonization/powers.py:16-19 | A power fails only for an out-of-range name index. Taxes is `[data[1]]` and gold is the raw bytes 0x2A..0x2C, each shorter for a short buffer. |
| Maps.Map.constructor | colonization/map.py:37-41 | The map keeps the file's bytes, and nothing else is set yet. |
| Maps.Map.Parse | colonization/map.py:20-35 | On failure nothing is assigned. On success the attributes are `ParseMap` of the buffer. |
| Maps.Map.Display | colonization/map.py:47-75 | The views become those of `DisplayViews`, and the outcome is its error or success. |
| Maps.ReadViews | colonization/map.py:30-35 | The views loop yields the four views `ViewAt` describes. |
| Maps.FillTable | colonization/map.py:61-63 | The inner table loop yields `Symbols` of the view's tiles. |
| Maps.FillViews | colonization/map.py:60-63 | The outer loop fills every view's table. |
| Maps.ParseMapFailures | colonization/map.py:21-28 | Parsing gives "no data" exactly for an empty buffer and IndexError exactly for a buffer that ends before 0x2E. It succeeds iff the buffer reaches 0x2E. |
| Maps.ParseMapFields | colonization/map.py:24-35 | The counts are bytes 0x2E, 0x2C, 0x2A and the dimensions the single bytes 0x0C and 0x0E. There are four views, each with an empty table. |
| Maps.ViewStartsSpaced | colonization/map.py:32-33 | View 0 starts at 0xBBD + 202c + 28u + 18v, and view k+1 starts width·height bytes after view k. |
| Maps.ViewContents | colonization/map.py:34 | A view is the width·height bytes at its start, truncated by the buffer's end, and empty past it. |
| Maps.DimensionsAgainstHeader | colonization/map.py:27-28 | The map's width equals the header's iff byte 0x0D is 0, and its height equals the header's iff byte 0x0F is 0. Each is the header's value mod 256. |
| Maps.NewTilesMeaning | colonization/map.py:60-63 | The values the table loop adds are the unseen tiles, each once, in first-seen order. |
| Maps.SymbolsKeys | colonization/map.py:62-63 | Existing entries never change, and the keys are the old ones plus the new tiles. |
| Maps.SymbolsCover | colonization/map.py:61-63 | Afterwards every tile of the view is a key. |
| Maps.SymbolsFirstSeen | colonization/map.py:58-63 | The i-th new tile gets `chars[(len(table) + i) mod 90]`. |
| Maps.DisplayMeaning | colonization/map.py:53-67 | A view outside 0..3 raises ValueError and changes nothing. Otherwise every view's table is filled (the terrain one for `display(0)` is then blanked, see TerrainBlanked), the tiles are kept, and a missing view raises IndexError. |
| Maps.TerrainBlanked | colonization/map.py:69-73 | `display(0)` maps 25, 89 and 217 to ' ' and keeps the other filled entries. |
| Maps.ShapeMeaning | colonization/map.py:44-45 | `shape()` of a parsed map is (byte 0x0C, byte 0x0E), and no view is longer than width·height. |
| Compare.TableFrom | hex_compare.py:59-76 | The section table has 13 entries, and the first starts at 0. |
| Compare.ReadTables | hex_compare.py:50-77 | The table loop yields `Tables` of both buffers. The `map_width` left behind is that of the second buffer. |
| Compare.AlignSections | hex_compare.py:90-111 | The mismatch loop yields `Aligning` over the three counts. |
| Compare.Locate | hex_compare.py:125-130 | The label, offset and length are those of the last entry starting at or before the address. |
| Compare.LastStarting | hex_compare.py:126-130 | The chosen entry starts at or before the address, and no later entry does. |
| Compare.Scan | hex_compare.py:123-139 | The scanning loop yields `Changes`. |
| Compare.OldCompare | hex_compare.py:41-139 | `old_compare` on the two buffers yields `CompareBuffers`. |
| Compare.ChangesNeverAbort | hex_compare.py:123-139 | The scan raises nothing but the ZeroDivisionError of a map position. |
| Compare.TableOrdered | hex_compare.py:59-76 | The 13 starts never decrease, for any counts and dimensions. |
| Compare.TableGaps | hex_compare.py:61-72 | Colonies start at 0x186. Units − Colonies = 202c, Powers − Units = 28u, Villages − Powers = 0x4F0 = 4·316, and Unknown B − Villages = 18v. Consecutive map layers are width·height apart. |
| Compare.TableAgainstHeader | hex_compare.py:61-64 | Colonies, units and powers start where `Header.__parse` puts them. Villages start at the intended address, which is never the one `__parse` computes. |
| Compare.TableAgainstMap | hex_compare.py:68-71 | When the high bytes of the dimensions are 0, the four map layers start where `Map.__parse` puts its views. |
| Compare.RealignAgreeing | hex_compare.py:92 | A count the buffers agree on changes nothing. |
| Compare.RealignBlanksLeft | hex_compare.py:99-104 | The left buffer keeps its length. Bytes [start, next) become 0 and all others are kept. |
| Compare.RealignShiftsRight | hex_compare.py:100-111 | Right-hand entries up to the section are kept. Every later one moves down by `removed`, so the next section starts where the left one does. |
| Compare.RealignMovesRight | hex_compare.py:105-111 | When the section starts at one address in both tables, the right buffer's bytes from its old next-section start now sit at the shared address, after `cutsize` zeros. Compare.MismatchRoundsAligned shows that every round of `old_compare` meets that condition. |
| Compare.RealignKeepsCounts | hex_compare.py:99-111 | A round on a section at or after 0x186 keeps every byte below 0x186 of both buffers, and keeps the distances between the right-hand starts after the section. |
| Compare.RealignCarries | hex_compare.py:92-111 | After a round, a later section starts at one address in both tables, either through the shift or, for equal counts, through equal distances. |
| Compare.CountedStarts | hex_compare.py:59-76 | In both tables the colonies start at 0x186, the units 202·count later, the powers 28·count after the units, and the villages 0x4F0 after the powers. |
| Compare.FirstRoundAligned | hex_compare.py:90-111 | After the colony round, both tables start the units at one address, the unit counts are kept, and the distances from the units to the powers and villages are unchanged. |
| Compare.MismatchRoundsAligned | hex_compare.py:90-111 | In every round of the mismatch loop, the section being counted starts at the same address in both tables. |
| Compare.FlatLayersReport | hex_compare.py:125-138 | With width 0 the map layers and `Unknown E` share a start, so the section found is never a map layer and the report does not raise. |
| Compare.ChangesComplete | hex_compare.py:123-139 | When no report raises, the scan ends without an exception. |
| Compare.AligningKeepsHeader | hex_compare.py:90-111 | The mismatch loop raises nothing and leaves bytes 0..0x185 of both buffers, the header with its counts and dimensions, as they were. |
| Compare.LeftLayers | hex_compare.py:59-76 | The left table carries the 13 labels. When the left buffer's width is 0, the four map layers and `Unknown E` start at one address. |
| Compare.FinishNeverDividesByZero | hex_compare.py:114-139 | Once the map-size test has passed, a right-hand width of 0 is also the left table's width, and no report raises. |
| Compare.CompareNeverDividesByZero | hex_compare.py:41-139 | `old_compare` never ends in ZeroDivisionError: the map-position branch is never reached with width 0. |
| Compare.AnyDiffersMeaning | hex_compare.py:114 | The map-size test finds a difference iff one of the bytes differs. |
| Compare.FinishAborts | hex_compare.py:114-123 | The map-size abort happens iff a byte of 0x0C..0x0F differs, and the file-size abort iff the lengths differ. Both happen before any report. Otherwise the scan runs. |
| Compare.ChangesFollowDiffs | hex_compare.py:123-139 | The reports are made, in order, at the differing addresses. Each one is its `Report`. |
| Compare.ScanExact | hex_compare.py:123-124 | A complete scan reports exactly the differing addresses, each once, in ascending order. |
| Compare.ReportSection | hex_compare.py:125-138 | A report carries the last section starting at or before the address and offset = address − start. It fails iff a one-byte map layer is scanned with width 0. |
| Compare.ReportGroup | hex_compare.py:134-135 | For records longer than a byte, offset = group·length + byte with byte < length. |
| Compare.ReportPosition | hex_compare.py:137-138 | In a one-byte map layer, offset = row·width + column with column < width. |
| Compare.MapLabels | hex_compare.py:68-71 | The labels containing 'Map' are exactly those of the four map layers. |
| Edit.ByteCompare | edit.py:81-96 | An AssertionError iff the lengths differ. The reports are the differing indices, and the count is their number. "No modifications" appears iff the count is 0. |
| Edit.CountIsDifferences | edit.py:83-91 | The count equals the number of indices where the buffers differ. |
| Edit.ByteCompareMeaning | edit.py:86-96 | The reported indices are exactly the differing ones, each once and ascending; there are none iff the buffers are equal. |
| Bytes.AsciiNameMeaning | colonization/buildings.py:168 | `decode('ascii').split('\0')[0]` fails exactly on a byte above 0x7F. Otherwise it is the characters before the first NUL. |
| Bytes.DiffsBelowExact | hex_compare.py:123-124 | The differing indices below n, each once, ascending. |
| Tables.InvertDomain | colonization/units.py:71 | An inverted dict has exactly the codes the table lists. |
| Tables.InvertRecovers | colonization/units.py:71-72 | With distinct codes, inverting recovers every name. |
| Tables.FirstWithMisses | colonization/buildings.py:194 | `next(...)` raises StopIteration exactly when no item has the code. |
| Tables.SuppliesComplete | colonization/trade.py:16-21 | All 16 nibble values name a commodity, and no other code does. |

## Findings

| source | as written | input that shows it | evidently intended | confidence | as-written member | corrected member |
|---|---|---|---|---|---|---|
| colonization/header.py:67 | `villages_start_address = powers_start + Village.byte_length * village_count` skips 18 bytes per village instead of the four power records | village_count = 0 gives villages_start == powers_start, the start of the first power record | villages start four power records (0x4F0 bytes) after the powers, as the address table of hex_compare.py:64 and the layout notes at colonization/header.py:16-20 place them | high; not executed | Headers.VillagesInsidePowers | Headers.IntendedVillagesStart |

`Headers.Header.Parse` models line 67 as written, so the class stores the as-written
address. `Compare.TableAgainstHeader` proves that the diff's table uses the corrected
address and never the as-written one. `Headers.IntendedStartsOrdered` proves that the
corrected addresses are ordered.

## Left out

- File reads and argument handling: `Header.__reader`, `Map.__reader`, the `open` calls of `old_compare`, every `check_args`, and the scripts colmapplotter.py, dump_colonies.py and dump_units.py. The buffers are parameters instead.
- `Header(path)` and `Map(path)` existence checks: a missing file is outside the model.
- Headers.Header.constructor: `Header.__init__` runs `__parse` right after `__reader` (colonization/header.py:80-81). As for `Map`, the model splits it into the constructor and `Parse`, and the caller runs `Parse` next. `Map.__init__` is modelled the same way, by `Maps.Map.constructor` and `Maps.Map.Parse`.
- `__parse` of the header prints the marker. This, and all other printing, is left out: the `__str__` methods, the start-address listing and change lines of `old_compare`, the modification lines of `byte_compare`, the row printing of `display` and its "not fully implemented" warning. With the printing goes the ValueError that the row loop's `range(0, width * height, width)` raises for width byte 0 (colonization/map.py:80), after the tables are filled: `Maps.DisplayViews` returns success there.
- The `unused` warning of `Colony.unpack` only prints, so it is modelled as the predicate `Colonies.Unexpected`.
- The `KeyError` message that `Unit.__init__` prints for an unknown occupation is left out.
- The `pack` stubs, `load_save`, `new_compare` and every reference to a missing definition (`SaveFile`, `Tile`, `Map.get_views`): there is no encoder, and these do not run.
- `Map.byte_length` is not defined in map.py. The section table takes it as the parameter `mapLength`. Compare.ReportPosition assumes a one-byte map layer (`length <= 1`), because the map-position branch is reached only then.
- Compare.ReadTables: the loop rebinds `map_width` per buffer, and the scan uses the second buffer's value. The model keeps exactly that value, not the first buffer's.
- Compare.Locate: the source binds `offset` and `group` only when some entry starts at or before the address. The first entry starts at 0, so they are always bound, and the model requires `table[0].start <= address`.
- `Map.display` mutates the table dict of each view tuple in place. The model assigns the new sequence of views once, after a local loop. No aliasing between views and outside references is modelled.
- Every in-place `append` and dict update of the decoders is modelled as one assignment of the list or map that a local loop built. The intermediate states inside one loop are not observable in the model.
- Villages.Village.constructor: `Village.__init__` stores the int placeholders 0 and 0xFF in `power`, `last_bought` and `last_sold`, and `unpack` replaces them with strings. The model writes `None` for every such placeholder and `Some(name)` for the decoded name.
- Colonies.Colony.constructor: the `powers` table of `Colony` is never used by `unpack`, so it is not modelled. `power` is byte 0x1A.
- The distinctness of building names and the `building_hierarchy` list are not modelled: `unpack` never reads the hierarchy.
- Edit.ByteCompare: Python's `assert` disappears under `python -O`. The model always checks the lengths.
- Powers.NameMeaning: the source indexes a Python list, so negative indices -5..-1 succeed, counting from the end. The model follows the code, not the reading "an index outside 0..4 fails".
- Gold and tax range checks: the source has none, and gold stays raw bytes.

## Notes on the code

- Map dimensions: the header reads them as 16-bit words, while map.py reads single bytes. Both are modelled as written. `Maps.DimensionsAgainstHeader` states that they agree exactly when the high bytes are zero.
- hex_compare.py blanks and shifts based on the left table, so after several differing counts the byte `data1[address]` tested for a later count is read from the already rebuilt buffer. The model threads the rebuilt buffers through `Compare.Aligning` in the same order.
- The map-position branch of the scan divides by the right-hand width and would raise ZeroDivisionError for width 0. `Compare.Report` models that branch as written. `Compare.CompareNeverDividesByZero` shows that `old_compare` never gets there: the map-size test makes both widths equal, and with width 0 the map layers hold no bytes, so no address falls inside one.
