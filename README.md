# DIS plugin core, modelled in Dafny

This project models the core of an Unreal Engine plugin that speaks the
Distributed Interactive Simulation protocol (IEEE 1278.1, DIS version 6). It
proves properties of that model. The modelled core has four groups:

- **Value codecs**, one module each:
  - the entity ID and its 64-bit order key (`EntityIds`);
  - the entity type with wildcard filling, its 64-bit key and its 8-byte packing (`EntityTypes`);
  - the 32-bit appearance bitfield (`Appearances`);
  - the 2+14-bit encoding scheme (`EncodingSchemes`);
  - the articulation, event ID, burst and dead-reckoning structs (`Structs`, `LegacyStructs`);
  - the 15-byte dead-reckoning "Other Parameters" record (`OtherParameters`).
- **Datagram admission** (`PduProcessor`):
  - the type-byte dispatch;
  - the per-type length checks;
  - the articulation-multiple rule;
  - the Electromagnetic Emission and Signal length walkers.
- **Entity life cycle**, as classes whose methods change their fields:
  - the sending component (`SendComponents.SendComponent`);
  - the receiving component (`ReceiveComponents.ReceiveComponent`);
  - the older receiving component (`LegacyComponents.LegacyComponent`);
  - the entity registry (`GameManagers.GameManager`);
  - the older registry (`GameStates.GameState`).

  The dead-reckoning dispatch is in `DeadReckonings`. The registries' `std::map`s are ordered sequences (`OrderedMaps`), and their shared lookups are in `Registries`.
- **PDU struct ⇄ DIS record mappings**, with round-trip lemmas, each with its error or asymmetry:
  - the header (`PduHeaders`);
  - Entity State (`EntityStatePdus`);
  - Entity State Update (`EntityStateUpdatePdus`);
  - Fire (`FirePdus`);
  - Detonation (`DetonationPdus`);
  - Start/Resume (`StartResumePdus`).

  The location, orientation and marking rules they share are in `PduFields`.

## Modelling conventions

- **Floating-point quantities are `real`.**
  - A float's memory image is four bytes.
  - Casts from double to float are a `Rounding` parameter. FMath::IsNearlyEqual is modelled with its default tolerance.
  - Trigonometry and the ECEF/NED geometry are arrow-typed parameters (`Geometry`, `LegacyGeometry`).
- **Integers are unbounded; the source's widths are written out.**
  - int32 fields are an `Int32` subtype.
  - uint8 header fields keep `% 0x100`.
  - Setters into unsigned 16- and 32-bit record fields keep the low bits.
  - int32 ⇄ uint32 conversions are two's complement.
- **The DIS records of the library the plugin marshals through are plain datatypes.** The byte layout itself is not part of this model.
- **A `std::map` is the sequence of its entries in key order.**
  - Keys are equivalent when their 64-bit keys are equal.
  - `insert_or_assign`, `insert`, `find`, `erase` and `operator[]` are the functions of `OrderedMaps`.
- **A `TMap` is a Dafny `map`** keyed by value equality.
- **The engine is reduced to data and parameters.**
  - Actor spawning, destruction, the owner's tags and the world are fields and parameters.
  - `loads` says which class assets load.
  - `hasComponent` says which classes carry a DIS component.
  - `deliveries` records the calls a registry makes on components.
- **Events are recorded as data.** Broadcast events, emitted datagrams and the calls made on components are recorded in sequence fields (`broadcasts`, `events`, `emitted`, `deliveries`).

## Model

| member | source | states |
|---|---|---|
| DisBase.ReverseInPlace | Source/DISRuntime/Private/DeadReckoning_BPFL.cpp:84-89 | Algo::Reverse on a char buffer: the array afterwards is the reversal of its old contents |
| DisBase.ReversedLittleIsBig | Source/DISRuntime/Private/DeadReckoning_BPFL.cpp:79-89 | on a little-endian machine the reversed memory image of a word is its big-endian byte order |
| DisBase.BigEndianWordRoundTrip | Source/DISRuntime/Private/DeadReckoning_BPFL.cpp:167-180 | reassembling a word from its big-endian bytes gives the word back |
| EntityIds.Key | Source/DISRuntime/Public/EnumsAndStructs/DISEnumsAndStructs.h:743-746 | ToUInt64 is the bitwise or of the uint64 casts of Site shifted by 32, Application shifted by 16 and Entity, a 64-bit number, and Site·2³² + Application·2¹⁶ + Entity for in-range parts |
| EntityIds.KeyIsSum | Source/DISRuntime/Public/EnumsAndStructs/DISEnumsAndStructs.h:743-746 | with every part in 0..65535 the three shifted words have no bit in common, so their or is their sum |
| EntityIds.FromRecord | Source/DISRuntime/Public/EnumsAndStructs/DISEnumsAndStructs.h:680-685 | the ID read from a record has the record's three parts, all in range |
| EntityIds.ToRecord | Source/DISRuntime/Public/EnumsAndStructs/DISEnumsAndStructs.h:734-741 | ToOpenDIS keeps each part modulo 2¹⁶, so in-range parts go out unchanged |
| EntityIds.KeyParts | Source/DISRuntime/Public/EnumsAndStructs/DISEnumsAndStructs.h:743-746 | the three parts of an in-range ID are recovered from its key |
| EntityIds.EqualIffSameKey | Source/DISRuntime/Public/EnumsAndStructs/DISEnumsAndStructs.h:687-702 | for in-range IDs, operator== holds iff the keys are equal, iff the IDs are equal |
| EntityIds.LessIsStrictTotalOrder | Source/DISRuntime/Public/EnumsAndStructs/DISEnumsAndStructs.h:699-702 | operator< is irreflexive, transitive and asymmetric, and any two in-range IDs are less, equal or greater |
| EntityIds.DerivedComparisons | Source/DISRuntime/Public/EnumsAndStructs/DISEnumsAndStructs.h:694-717 | <=, >= and != defined through < and == agree with the total order |
| EntityIds.OutOfRangeKeysCollide | Source/DISRuntime/Public/EnumsAndStructs/DISEnumsAndStructs.h:743-746 | outside the editor's 0..65535 clamp the shifted words overlap: 0:1:0 and 0:0:65536 share a key but differ, and 1:65536:0 has the key of 1:0:0, 2³², because the or merges the bits a sum would carry |
| EntityIds.RecordRoundTrip | Source/DISRuntime/Public/DISEnumsAndStructs.h:359-420 | reading then writing gives every record back; writing then reading gives every in-range ID back |
| EntityTypes.FillWildcards | Source/DISRuntime/Public/EnumsAndStructs/DISEnumsAndStructs.h:862-894 | the seven in-place steps leave the filled type |
| EntityTypes.FilledReplacesOnlyWildcards | Source/DISRuntime/Public/EnumsAndStructs/DISEnumsAndStructs.h:862-894 | each part equal to -1 takes Other's part and every other part is unchanged |
| EntityTypes.FilledIdempotent | Source/DISRuntime/Public/DISEnumsAndStructs.h:541-573 | filling twice from the same type is filling once |
| EntityTypes.FilledIsTargetIffMatches | Source/DISRuntime/Public/EnumsAndStructs/DISEnumsAndStructs.h:862-894 | filling a pattern from t gives t exactly when every non-wildcard part of the pattern equals t's |
| EntityTypes.FilledChangesIffWildcardDiffers | Source/DISRuntime/Public/EnumsAndStructs/DISEnumsAndStructs.h:862-894 | filling changes a pattern exactly when some wildcard part meets a part other than -1 |
| EntityTypes.Low8 | Source/DISRuntime/Public/EnumsAndStructs/DISEnumsAndStructs.h:955-956 | `& 0xFF` keeps the value modulo 256, so bytes are unchanged |
| EntityTypes.Low16 | Source/DISRuntime/Public/EnumsAndStructs/DISEnumsAndStructs.h:1003 | the unsigned short setter keeps the value modulo 2¹⁶ |
| EntityTypes.FromBytesLEInjective | Source/DISRuntime/Public/EnumsAndStructs/DISEnumsAndStructs.h:953-959 | the 64-bit key determines its eight byte fields |
| EntityTypes.KeyEqualIff | Source/DISRuntime/Public/EnumsAndStructs/DISEnumsAndStructs.h:953-959 | two types share a ToUInt64 key exactly when every part agrees modulo 256 |
| EntityTypes.CountryHighByteIgnored | Source/DISRuntime/Public/EnumsAndStructs/DISEnumsAndStructs.h:953-959 | Country is masked to 8 bits: two types differing only in Country's high byte collide |
| EntityTypes.LessIsStrictWeakOrder | Source/DISRuntime/Public/EnumsAndStructs/DISEnumsAndStructs.h:912-931 | operator< is a strict weak order whose equivalence is key equality, and <= is !(b < a) |
| EntityTypes.DoubleRoundTrip | Source/DISRuntime/Public/EnumsAndStructs/DISEnumsAndStructs.h:834-976 | ToDouble then FEntityType(double) gives a type back exactly when each part fits its byte slot |
| EntityTypes.DoubleImageRoundTrip | Source/DISRuntime/Public/EnumsAndStructs/DISEnumsAndStructs.h:834-976 | FEntityType(double) then ToDouble gives every 8-byte image back |
| EntityTypes.WildcardsComeBackAsAllOnes | Source/DISRuntime/Public/EnumsAndStructs/DISEnumsAndStructs.h:961-976 | the all-wildcard type comes back with 255 in each byte part and 65535 as Country |
| EntityTypes.ToRecord | Source/DISRuntime/Public/EnumsAndStructs/DISEnumsAndStructs.h:984-1010 | ToOpenDIS sends the all-wildcard default as zeros and any other type part by part |
| EntityTypes.FromRecord | Source/DISRuntime/Public/EnumsAndStructs/DISEnumsAndStructs.h:823-832 | a type read from a record is in range and is never the all-wildcard default |
| EntityTypes.RecordRoundTrip | Source/DISRuntime/Public/DISEnumsAndStructs.h:502-511 | records round-trip; in-range types round-trip (the default cannot be in range) |
| EntityTypes.DefaultDoesNotRoundTrip | Source/DISRuntime/Public/DISEnumsAndStructs.h:663-689 | the default type is sent as zeros and reads back as 0.0.0.0.0.0.0, not as wildcards |
| Appearances.DamageFromValue | Source/DISRuntime/Public/EnumsAndStructs/DISEnumsAndStructs.h:1283 | the cast to the damage enumeration is inverse to its value |
| Appearances.GetField | Source/DISRuntime/Public/EnumsAndStructs/DISEnumsAndStructs.h:1299-1302 | getField(val, mask, pos) is below 2^width for mask 2^width − 1 |
| Appearances.GetFlag | Source/DISRuntime/Public/EnumsAndStructs/DISEnumsAndStructs.h:1303-1306 | getField(val, pos) is true iff bit pos is set |
| Appearances.FromRaw | Source/DISRuntime/Public/EnumsAndStructs/DISEnumsAndStructs.h:1277-1297 | the constructor keeps val as RawVal and reads each field from its bits: damage 3-4, trailing 7-8, hatch 9-11, frozen 21, deactivated 23, landing gear 25 |
| Appearances.UpdateValue | Source/DISRuntime/Public/EnumsAndStructs/DISEnumsAndStructs.h:1308-1326 | the fifteen `|=` steps leave, and return, the or of the fields into the old RawVal |
| Appearances.UpdatedRawBits | Source/DISRuntime/Public/EnumsAndStructs/DISEnumsAndStructs.h:1308-1326 | each bit of the result is the old bit or a bit some field sets there |
| Appearances.UpdateNeverClears | Source/DISRuntime/Public/EnumsAndStructs/DISEnumsAndStructs.h:1308-1326 | UpdateValue never clears a bit of RawVal |
| Appearances.FieldsOfReadWordAreInWord | Source/DISRuntime/Public/EnumsAndStructs/DISEnumsAndStructs.h:1277-1326 | every bit the fields of an appearance read from val set back is a bit of val |
| Appearances.UpdateOfUnmodifiedIsIdentity | Source/DISRuntime/Public/EnumsAndStructs/DISEnumsAndStructs.h:1277-1326 | an appearance built from val and left alone updates back to exactly val |
| Appearances.DefaultUpdatesToZero | Source/DISRuntime/Public/EnumsAndStructs/DISEnumsAndStructs.h:1254-1275 | the default appearance updates to 0 |
| Appearances.UpdatedZeroBits | Source/DISRuntime/Public/EnumsAndStructs/DISEnumsAndStructs.h:1308-1326 | from RawVal 0, in-range fields fill exactly their own bit slots |
| Appearances.ReadBackSlots | Source/DISRuntime/Public/EnumsAndStructs/DISEnumsAndStructs.h:1277-1297 | a word holding the fields in their slots is read back as those fields |
| Appearances.FieldsRoundTrip | Source/DISRuntime/Public/EnumsAndStructs/DISEnumsAndStructs.h:1256-1326 | from a default-constructed appearance, fields that fit their slots survive UpdateValue and reading back |
| Appearances.WideTrailingSpills | Source/DISRuntime/Public/EnumsAndStructs/DISEnumsAndStructs.h:1316-1317 | a Trailing value of 4 spills into the hatch bits and reads back as hatch state 1 |
| EncodingSchemes.ClassFromValue | Source/DISRuntime/Public/EnumsAndStructs/DISEnumsAndStructs.h:1354 | the cast to the encoding class is inverse to its value |
| EncodingSchemes.Decode | Source/DISRuntime/Public/EnumsAndStructs/DISEnumsAndStructs.h:1347-1356 | the class is the top 2 bits; the type is the low 14 bits narrowed to the 8-bit enumeration |
| EncodingSchemes.Encode | Source/DISRuntime/Public/EnumsAndStructs/DISEnumsAndStructs.h:1358-1364 | (class << 14) \| type: the top 2 bits are the class and the low 14 the type |
| EncodingSchemes.EncodeThenDecode | Source/DISRuntime/Public/EnumsAndStructs/DISEnumsAndStructs.h:1347-1364 | every scheme the struct holds survives encoding then decoding |
| EncodingSchemes.DecodeThenEncode | Source/DISRuntime/Public/EnumsAndStructs/DISEnumsAndStructs.h:1347-1364 | a 16-bit field survives decoding then encoding exactly when its type fits 8 bits |
| EncodingSchemes.NamedTypesRoundTrip | Source/DISRuntime/Public/EnumsAndStructs/DISEnumsAndStructs.h:1347-1364 | every field whose type is a named enumeration value survives |
| EncodingSchemes.WideTypeIsNarrowed | Source/DISRuntime/Public/EnumsAndStructs/DISEnumsAndStructs.h:1355 | type 0x0100 is narrowed to 0 on the way in |
| LegacyStructs.LegacyArticulationToRecord | Source/DISRuntime/Public/DISEnumsAndStructs.h:725-743 | the older ToOpenDIS branches on the int32 designator being 0 while the setter keeps only its low byte |
| LegacyStructs.LegacyAgreesInRange | Source/DISRuntime/Public/DISEnumsAndStructs.h:725-743 | with a designator that fits a byte the older mapping sends what the newer one sends |
| LegacyStructs.WideDesignatorIsMislabelled | Source/DISRuntime/Public/DISEnumsAndStructs.h:728-740 | designator 256 takes the attached-part branch but goes out as designator 0 |
| LegacyStructs.LegacyDefaultDeadReckoning | Source/DISRuntime/Public/DISEnumsAndStructs.h:805-811 | the older default: algorithm 0, fifteen zero bytes, zero acceleration and angular velocity |
| Structs.ArticulationFromRecord | Source/DISRuntime/Public/EnumsAndStructs/DISEnumsAndStructs.h:1048-1064 | an articulated part takes the value as a float; any other part takes the value's bytes as an entity type |
| Structs.ArticulationToRecord | Source/DISRuntime/Public/EnumsAndStructs/DISEnumsAndStructs.h:1066-1085 | designator 0 sends the float widened; any other sends the attached type packed into a double; narrowing setters keep the low bits |
| Structs.ArticulationRoundTrip | Source/DISRuntime/Public/EnumsAndStructs/DISEnumsAndStructs.h:1048-1085 | an in-range articulation keeps the part its designator says is carried |
| Structs.ArticulationRecordRoundTrip | Source/DISRuntime/Public/EnumsAndStructs/DISEnumsAndStructs.h:1048-1085 | an attached-part record comes back byte for byte; an articulated one is narrowed then widened |
| Structs.EventIdFromRecord | Source/DISRuntime/Public/EnumsAndStructs/DISEnumsAndStructs.h:768-773 | the event ID read from a record has its three parts |
| Structs.EventIdToRecord | Source/DISRuntime/Public/EnumsAndStructs/DISEnumsAndStructs.h:775-782 | ToOpenDIS keeps each part modulo 2¹⁶ |
| Structs.EventIdRoundTrip | Source/DISRuntime/Public/EnumsAndStructs/DISEnumsAndStructs.h:768-782 | an event ID survives iff its parts fit 16 bits; every record survives |
| Structs.BurstFromRecord | Source/DISRuntime/Public/EnumsAndStructs/DISEnumsAndStructs.h:1121-1130 | the burst read from a record has its munition type and its four counts |
| Structs.BurstToRecord | Source/DISRuntime/Public/EnumsAndStructs/DISEnumsAndStructs.h:1132-1143 | the munition goes through the entity type's mapping; the counts are kept modulo 2¹⁶ |
| Structs.BurstRecordRoundTrip | Source/DISRuntime/Public/EnumsAndStructs/DISEnumsAndStructs.h:1121-1143 | every burst record survives reading then sending |
| Structs.BurstRoundTrip | Source/DISRuntime/Public/EnumsAndStructs/DISEnumsAndStructs.h:1121-1143 | a burst with in-range numbers and a non-default munition survives sending then reading |
| Structs.DefaultDeadReckoning | Source/DISRuntime/Public/EnumsAndStructs/DISEnumsAndStructs.h:1164-1170 | the default: Static, fifteen zero bytes, zero vectors |
| Structs.DeadReckoningFromRecord | Source/DISRuntime/Public/EnumsAndStructs/DISEnumsAndStructs.h:1172-1182 | every field is copied from the record, the 15 Other Parameters bytes included |
| Structs.DeadReckoningToRecord | Source/DISRuntime/Public/EnumsAndStructs/DISEnumsAndStructs.h:1184-1200 | ToOpenDIS writes the algorithm, the first 15 bytes and both vectors |
| Structs.DeadReckoningRoundTrip | Source/DISRuntime/Public/EnumsAndStructs/DISEnumsAndStructs.h:1172-1200 | parameters with exactly 15 bytes and every 15-byte record round-trip |
| PduHeaders.DefaultHeader | Source/DISRuntime/Public/PDUs/GRILL_PDU.h:41-50 | version 6, exercise 0, type Other, and family, timestamp, length and padding 0 |
| PduHeaders.ToInt16 | Source/DISRuntime/Public/PDUs/GRILL_PDU.h:72 | the padding setter keeps the value modulo 2¹⁶, unchanged when it fits a short |
| PduHeaders.HeaderFromRecord | Source/DISRuntime/Public/PDUs/GRILL_PDU.h:54-63 | every field copied; the uint8 timestamp and length keep their low byte |
| PduHeaders.HeaderToRecord | Source/DISRuntime/Public/PDUs/GRILL_PDU.h:65-73 | every field written except the protocol family, which stays the record's |
| PduHeaders.HeaderRoundTrip | Source/DISRuntime/Public/PDUs/GRILL_PDU.h:54-73 | a header comes back whole except its family, and whole exactly when the record's family is its own |
| PduHeaders.HeaderRecordRoundTrip | Source/DISRuntime/Public/PDUs/GRILL_PDU.h:30-73 | a record comes back unchanged exactly when its timestamp and length fit a byte |
| PduHeaders.LengthIsHeldModulo256 | Source/DISRuntime/Public/PDUs/GRILL_PDU.h:33-35 | a length of 300 is held as 44 |
| PduHeaders.DataStreamToBytes | Source/DISRuntime/Public/PDUs/GRILL_PDU.h:88-98 | a fresh array of the stream's size whose byte i is stream[i] |
| PduFields.LocationRoundTrip | Source/DISRuntime/Public/PDUs/EntityInfoFamily/GRILL_EntityStatePDU.h:82-179 | a pair as reading leaves it is sent as its double location and read back unchanged; a record position is sent back unchanged |
| PduFields.EditedFloatLocationWins | Source/DISRuntime/Public/PDUs/EntityInfoFamily/GRILL_EntityStatePDU.h:164-179 | when the float location no longer matches, the double location is lost and both come back as the float one |
| PduFields.FloatLocationMatchesItself | Source/DISRuntime/Public/PDUs/EntityInfoFamily/GRILL_EntityStatePDU.h:165-167 | a location already made of floats passes the nearly-equal test |
| PduFields.OrientationMappingsAreInverse | Source/DISRuntime/Public/PDUs/EntityInfoFamily/GRILL_EntityStatePDU.h:93-185 | Yaw←Psi, Roll←Phi, Pitch←Theta and its outgoing mapping are inverse bijections |
| PduFields.MarkingIsTruncated | Source/DISRuntime/Public/PDUs/EntityInfoFamily/GRILL_EntityStatePDU.h:190-193 | character set 1 and the longest prefix of at most 11 characters; a marking survives iff it has at most 11 |
| ArticulationLists.AppendFromRecords | Source/DISRuntime/Public/PDUs/EntityInfoFamily/GRILL_EntityStatePDU.h:126-145 | the reading loop appends one articulation per record, in order, to the list already held |
| ArticulationLists.BuildRecords | Source/DISRuntime/Public/PDUs/EntityInfoFamily/GRILL_EntityStatePDU.h:197-202 | the sending loop pushes one record per articulation, in order |
| ArticulationLists.ListRoundTrip | Source/DISRuntime/Public/PDUs/EntityInfoFamily/GRILL_EntityStatePDU.h:126-202 | a sendable list is re-read with the same length, order and carried parts |
| ArticulationLists.AttachedRecordsRoundTrip | Source/DISRuntime/Public/PDUs/EntityInfoFamily/GRILL_EntityStatePDU.h:126-202 | a received list with no articulated part is sent back record for record |
| OtherParameters.MemoryImage | Source/DISRuntime/Private/DeadReckoning_BPFL.cpp:79-89 | the bytes memcpy copies out of a float: reversed to big-endian on a little-endian machine, big-endian otherwise |
| OtherParameters.Trunc | Source/DISRuntime/Private/DeadReckoning_BPFL.cpp:117 | FMath::TruncToInt rounds toward zero |
| OtherParameters.Canonical | Source/DISRuntime/Private/DeadReckoning_BPFL.cpp:108-115 | a negative qu0 negates all four terms: the result has a non-negative scalar part and is q or its negation |
| OtherParameters.OtherParametersFor | Source/DISRuntime/Private/DeadReckoning_BPFL.cpp:55-155 | FormOtherParameters returns exactly 15 bytes |
| OtherParameters.CopyToBuffer | Source/DISRuntime/Private/DeadReckoning_BPFL.cpp:80-82 | memcpy of a float into a fresh four-byte buffer holds its memory image |
| OtherParameters.PlaceWords | Source/DISRuntime/Private/DeadReckoning_BPFL.cpp:141-152 | the twelve assignments put the three buffers at bytes 3-6, 7-10 and 11-14 and leave bytes 0-2 alone |
| OtherParameters.InNetworkOrder | Source/DISRuntime/Private/DeadReckoning_BPFL.cpp:84-89 | a buffer holding a float's memory image, reversed on a little-endian machine, holds its big-endian image |
| OtherParameters.CopyInNetworkOrder | Source/DISRuntime/Private/DeadReckoning_BPFL.cpp:79-89 | the three buffers together hold the three words most significant byte first |
| OtherParameters.FormOtherParameters | Source/DISRuntime/Private/DeadReckoning_BPFL.cpp:55-155 | the method, step by step on a 15-byte array, returns the same bytes on either machine byte order |
| OtherParameters.LocalEulerAngles | Source/DISRuntime/Private/DeadReckoning_BPFL.cpp:157-190 | fails exactly on fewer than 15 bytes or a type byte other than 1 |
| OtherParameters.LocalQuaternion | Source/DISRuntime/Private/DeadReckoning_BPFL.cpp:203-241 | fails exactly on fewer than 15 bytes or a type byte other than 2; W is recomputed from x, y and z |
| OtherParameters.WireWordIsBigEndian | Source/DISRuntime/Private/DeadReckoning_BPFL.cpp:167-184 | four received bytes, reversed on a little-endian machine and copied into a float, are the big-endian float |
| OtherParameters.ReadersIgnoreMachineOrder | Source/DISRuntime/Private/DeadReckoning_BPFL.cpp:157-241 | both readers give the same answer on little- and big-endian machines |
| OtherParameters.OtherParametersLayout | Source/DISRuntime/Private/DeadReckoning_BPFL.cpp:57-137 | tag 1 with zero bytes 1-2 exactly for Static, FPW, FVW, FPB and FVB; tag 2 exactly for RPW, RVW, RPB and RVB; fifteen zeros for any other algorithm |
| OtherParameters.StoredQu0Approximates | Source/DISRuntime/Private/DeadReckoning_BPFL.cpp:117-132 | bytes 1-2 hold 65535 for qu0 >= 1, otherwise trunc(qu0·65536), most significant byte first |
| OtherParameters.EulerAnglesRoundTrip | Source/DISRuntime/Private/DeadReckoning_BPFL.cpp:55-190 | angles written for an Euler-angle algorithm read back as (pitch, yaw = heading, roll), and the quaternion reader refuses them |
| OtherParameters.QuaternionRoundTrip | Source/DISRuntime/Private/DeadReckoning_BPFL.cpp:91-241 | a quaternion written for a quaternion algorithm reads back with its sign made canonical and W recomputed, and the Euler reader refuses it |
| OtherParameters.UnknownAlgorithmIsUnreadable | Source/DISRuntime/Private/DeadReckoning_BPFL.cpp:134-138 | for any other algorithm both readers refuse the bytes |
| OtherParameters.ReadersIgnoreBytesOneAndTwo | Source/DISRuntime/Private/DeadReckoning_BPFL.cpp:160-238 | neither reader's result depends on bytes 1-2: the read qu0 is never used |
| DeadReckonings.DeadReckoning | Source/DISRuntime/Private/DeadReckoning_BPFL.cpp:390-714 | the copy, frozen check, switch and velocity update compute DeadReckoned |
| DeadReckonings.NotReckonedIff | Source/DISRuntime/Private/DeadReckoning_BPFL.cpp:390-714 | false exactly for a frozen entity (bit 21) or an algorithm outside Static..FVB, and then the output equals the input |
| DeadReckonings.ReckoningChangesOnlyKinematics | Source/DISRuntime/Private/DeadReckoning_BPFL.cpp:400-711 | only location, orientation and velocity change; the float location is the double one cast, except for Static, which keeps both; velocity gains acceleration·dt |
| DeadReckonings.NoTimeNoWorldMotion | Source/DISRuntime/Private/DeadReckoning_BPFL.cpp:418-550 | with no time elapsed the world-frame algorithms leave location and velocity unchanged |
| DeadReckonings.WorldStep | Source/DISRuntime/Private/DeadReckoning_BPFL.cpp:418-550 | an FPW/RPW step lands at p + v·t and an FVW/RVW step at p + v·t + a·t²/2; the velocity gains a·t; the dead-reckoning parameters and the frozen bit are kept |
| DeadReckonings.AcceleratedReckoningComposes | Source/DISRuntime/Private/DeadReckoning_BPFL.cpp:484-550 | FVW/RVW steps over s then t land where one step over s + t does |
| DeadReckonings.FixedVelocityStepsCompose | Source/DISRuntime/Private/DeadReckoning_BPFL.cpp:418-481 | FPW steps over s then t agree with one step over s + t only when the acceleration is zero or s is 0, because the velocity still gains acceleration·dt |
| DeadReckonings.CarriedEulerAnglesSetOrientation | Source/DISRuntime/Private/DeadReckoning_BPFL.cpp:403-444 | Euler angles FormOtherParameters wrote for the PDU's algorithm set the reckoned orientation |
| DeadReckonings.CarriedQuaternionSetsOrientation | Source/DISRuntime/Private/DeadReckoning_BPFL.cpp:447-520 | a quaternion FormOtherParameters wrote for the PDU's algorithm sets the reckoned orientation, canonical and with W recomputed |
| DeadReckonings.ZeroParametersFallBack | Source/DISRuntime/Private/DeadReckoning_BPFL.cpp:400-700 | with zero Other Parameters the Euler algorithms keep the orientation and the quaternion ones turn it by the angular velocity |
| PduProcessor.KindOf | Source/DISRuntime/Private/PDUProcessor.cpp:42-205 | exactly the nine handled type bytes (1, 2, 3, 12, 13, 14, 23, 26, 67) name a kind; every other type falls out of the switch |
| PduProcessor.KindOfTypeOf | Source/DISRuntime/Private/PDUProcessor.cpp:42-205 | each handled kind's type byte is recognised as that kind |
| PduProcessor.TruncDiv | Source/DISRuntime/Private/PDUProcessor.cpp:213 | the quotient truncates toward zero, as C++ integer division does, for negative extra bytes too |
| PduProcessor.ArticulationCheckIsMultiple | Source/DISRuntime/Private/PDUProcessor.cpp:209-215 | the check as written accepts exactly the lengths at a multiple of 16 from the base, lengths below the base included |
| PduProcessor.ShortEntityStatePassesArticulationCheck | Source/DISRuntime/Private/PDUProcessor.cpp:209-215 | a 128-byte Entity State datagram passes the check as written and fails the intended one |
| PduProcessor.ArticulationLengthOkIff | Source/DISRuntime/Private/PDUProcessor.cpp:209-215 | the intended check accepts a length exactly when it is the base plus n whole 16-byte records, and then the check as written accepts it too |
| PduProcessor.BeamsEnd | Source/DISRuntime/Private/PDUProcessor.cpp:234-244 | the beam walk never moves backwards |
| PduProcessor.SystemEnd | Source/DISRuntime/Private/PDUProcessor.cpp:228-244 | one system advances the index by at least 20 |
| PduProcessor.SystemsEnd | Source/DISRuntime/Private/PDUProcessor.cpp:221-245 | the walk over the systems starts at index 27 and never moves below it |
| PduProcessor.GuardedBeamsEnd | Source/DISRuntime/Private/PDUProcessor.cpp:234-244 | the bounds-checked beam walk, where it succeeds, never moves backwards |
| PduProcessor.GuardedSystemsEnd | Source/DISRuntime/Private/PDUProcessor.cpp:221-245 | the bounds-checked system walk, where it succeeds, ends at index 27 or later |
| PduProcessor.GuardedBeamsNonePersists | Source/DISRuntime/Private/PDUProcessor.cpp:234-244 | once a beam's count byte is missing, every longer beam walk fails too |
| PduProcessor.GuardedSystemsNonePersists | Source/DISRuntime/Private/PDUProcessor.cpp:225-245 | once a system's count byte is missing, every longer system walk fails too |
| PduProcessor.BeamsAgree | Source/DISRuntime/Private/PDUProcessor.cpp:234-244 | where the guarded beam walk succeeds it ends where the walk as written does; where it fails the walk as written has passed the end of the datagram, whatever memory holds |
| PduProcessor.SystemsAgree | Source/DISRuntime/Private/PDUProcessor.cpp:221-245 | the same agreement for the walk over all systems |
| PduProcessor.EmissionVerdictIgnoresMemory | Source/DISRuntime/Private/PDUProcessor.cpp:217-249 | the check as written gives the guarded check's verdict for every content of the memory beyond the datagram |
| PduProcessor.ShortEmissionReadsPastEnd | Source/DISRuntime/Private/PDUProcessor.cpp:30-37 | a three-byte Emission datagram passes the guard, and the walker then reads byte 25, past its end |
| PduProcessor.WalkBeams | Source/DISRuntime/Private/PDUProcessor.cpp:234-244 | the inner loop over one system's beams, reading each count byte only inside the datagram, ends where the bounds-checked beam walk does, or reports that a count byte is missing |
| PduProcessor.CheckEmissionLength | Source/DISRuntime/Private/PDUProcessor.cpp:217-249 | the nested walker loops, each count byte read only inside the datagram, return exactly the intended verdict |
| PduProcessor.SignalPadding | Source/DISRuntime/Private/PDUProcessor.cpp:256 | the padding is below 32 and rounds the data length up to a multiple of 32 |
| PduProcessor.SignalDataBytes | Source/DISRuntime/Private/PDUProcessor.cpp:255 | the data length, a 16-bit bit count divided by 8, stays below 8192 |
| PduProcessor.SignalVerdictIgnoresMemory | Source/DISRuntime/Private/PDUProcessor.cpp:251-259 | the check as written gives the bounds-checked verdict for any memory, and an accepted datagram is at least 32 bytes and a multiple of 32 beyond them |
| PduProcessor.DispatchAsWritten | Source/DISRuntime/Private/PDUProcessor.cpp:30-35 | an empty datagram is dropped before any byte is read |
| PduProcessor.OneByteDatagramReadsPastEnd | Source/DISRuntime/Private/PDUProcessor.cpp:30-37 | a one-byte datagram passes the guard although the type byte at index 2 lies outside it, and whatever is read there it is dropped |
| PduProcessor.DispatchAgreesWithAsWritten | Source/DISRuntime/Private/PDUProcessor.cpp:27-206 | the intended dispatcher agrees with the code as written for every memory content, and differs only by refusing articulated PDUs shorter than their base |
| PduProcessor.ShortEntityStateIsBroadcast | Source/DISRuntime/Private/PDUProcessor.cpp:44-61 | a 128-byte Entity State datagram is broadcast as written and refused as intended |
| PduProcessor.DispatchFollowsTypeByte | Source/DISRuntime/Private/PDUProcessor.cpp:37-206 | a broadcast carries the kind named by the type byte and the whole datagram; unhandled types and empty datagrams broadcast nothing |
| PduProcessor.FixedLengthAdmission | Source/DISRuntime/Private/PDUProcessor.cpp:62-151 | Fire, Remove Entity, Start/Resume and Stop/Freeze are broadcast exactly at their fixed length |
| PduProcessor.ArticulatedAdmission | Source/DISRuntime/Private/PDUProcessor.cpp:44-169 | Entity State, Entity State Update and Detonation are broadcast exactly at their base size plus whole articulation records |
| PduProcessor.Emitted | Source/DISRuntime/Private/PDUProcessor.cpp:42-206 | a dispatch emits no event or exactly the one broadcast |
| PduProcessor.PduDispatcher.ProcessDISPacket | Source/DISRuntime/Private/PDUProcessor.cpp:27-206 | the intended dispatcher: each datagram appends the events of the corrected `Dispatch`, at most one, to the broadcasts so far; the code as written is `DispatchAsWritten`, and `DispatchAgreesWithAsWritten` says the two differ only on the short datagrams listed under Findings |
| EntityStatePdus.DefaultEntityStatePdu | Source/DISRuntime/Public/PDUs/EntityInfoFamily/GRILL_EntityStatePDU.h:56-69 | type Entity State, version 6, force Other, empty marking, zero locations and velocity, zero appearance and capabilities, no articulations |
| EntityStatePdus.SetupFromOpenDis | Source/DISRuntime/Public/PDUs/EntityInfoFamily/GRILL_EntityStatePDU.h:73-146 | the field-by-field copy and the appending articulation loop produce ReadEntityState |
| EntityStatePdus.ToOpenDis | Source/DISRuntime/Public/PDUs/EntityInfoFamily/GRILL_EntityStatePDU.h:148-203 | the setters and the loop building the record vector produce SendEntityState |
| EntityStatePdus.EntityStateRoundTrip | Source/DISRuntime/Public/PDUs/EntityInfoFamily/GRILL_EntityStatePDU.h:73-203 | a sendable struct sent and read into a default struct comes back whole, except the record's protocol family and each articulation's uncarried half |
| EntityStatePdus.LongMarkingComesBackTruncated | Source/DISRuntime/Public/PDUs/EntityInfoFamily/GRILL_EntityStatePDU.h:190-193 | a marking longer than 11 characters comes back as its first 11 |
| EntityStatePdus.EntityStateRecordRoundTrip | Source/DISRuntime/Public/PDUs/EntityInfoFamily/GRILL_EntityStatePDU.h:73-203 | a record with a fitting header, an 11-character set-1 marking and no attached parts is written back exactly as read |
| EntityStatePdus.SetupAppendsArticulations | Source/DISRuntime/Public/PDUs/EntityInfoFamily/GRILL_EntityStatePDU.h:126-145 | reading into a struct that already holds articulations keeps them ahead of the record's |
| EntityStatePdus.AssignFromUpdate | Source/DISRuntime/Public/PDUs/EntityInfoFamily/GRILL_EntityStatePDU.h:218-240 | operator= takes the header (typed Entity State), ID, locations, orientation, velocity, appearance and articulations from the update and keeps every other field |
| EntityStatePdus.NewestUpdateWins | Source/DISRuntime/Public/PDUs/EntityInfoFamily/GRILL_EntityStatePDU.h:218-240 | two assignments in a row equal the second alone, and repeating one changes nothing |
| EntityStatePdus.MergedUpdateKeepsStateOnlyFields | Source/DISRuntime/Public/PDUs/EntityInfoFamily/GRILL_EntityStatePDU.h:73-240 | an update read and merged gives the carried fields an Entity State read of the same values gives, and keeps the fields the update lacks |
| EntityStateUpdatePdus.DefaultEntityStateUpdatePdu | Source/DISRuntime/Public/PDUs/EntityInfoFamily/GRILL_EntityStateUpdatePDU.h:41-52 | type Entity State Update, version 6, zero vectors, appearance and padding 0, no articulations |
| EntityStateUpdatePdus.SetupFromOpenDis | Source/DISRuntime/Public/PDUs/EntityInfoFamily/GRILL_EntityStateUpdatePDU.h:56-111 | the field-by-field copy and the appending articulation loop produce ReadEntityStateUpdate |
| EntityStateUpdatePdus.ToOpenDis | Source/DISRuntime/Public/PDUs/EntityInfoFamily/GRILL_EntityStateUpdatePDU.h:113-158 | the setters and the loop building the record vector produce SendEntityStateUpdate |
| EntityStateUpdatePdus.UpdateRoundTrip | Source/DISRuntime/Public/PDUs/EntityInfoFamily/GRILL_EntityStateUpdatePDU.h:56-158 | a sendable update sent and read into a default struct comes back whole, except the record's protocol family and each articulation's uncarried half |
| EntityStateUpdatePdus.UpdateRecordRoundTrip | Source/DISRuntime/Public/PDUs/EntityInfoFamily/GRILL_EntityStateUpdatePDU.h:56-158 | a record with a fitting header and no attached parts is written back exactly as read |
| FirePdus.DefaultFirePdu | Source/DISRuntime/Public/PDUs/WarfareFamily/GRILL_FirePDU.h:33-42 | type Fire, version 6, mission index 0, range 0, zero vectors, the default burst and event ID |
| FirePdus.ToInt32 | Source/DISRuntime/Public/PDUs/WarfareFamily/GRILL_FirePDU.h:52 | an unsigned 32-bit mission index read into an int32 is its two's-complement value |
| FirePdus.ToUInt32 | Source/DISRuntime/Public/PDUs/WarfareFamily/GRILL_FirePDU.h:96 | an int32 mission index passed to the unsigned setter is its low 32 bits |
| FirePdus.MissionIndexRoundTrip | Source/DISRuntime/Public/PDUs/WarfareFamily/GRILL_FirePDU.h:52-96 | the two conversions are inverse bijections between int32 and unsigned 32-bit values |
| FirePdus.FireRoundTrip | Source/DISRuntime/Public/PDUs/WarfareFamily/GRILL_FirePDU.h:46-124 | a sendable Fire PDU sent and read comes back whole except the record's protocol family |
| FirePdus.FireRecordRoundTrip | Source/DISRuntime/Public/PDUs/WarfareFamily/GRILL_FirePDU.h:46-124 | a record with a fitting header is written back exactly as read |
| DetonationPdus.DefaultDetonationPdu | Source/DISRuntime/Public/PDUs/WarfareFamily/GRILL_DetonationPDU.h:48-57 | type Detonation, version 6, zero vectors, result Other, pad 0, the default burst, no articulations |
| DetonationPdus.SetupFromOpenDis | Source/DISRuntime/Public/PDUs/WarfareFamily/GRILL_DetonationPDU.h:61-119 | the field-by-field copy and the appending articulation loop produce ReadDetonation |
| DetonationPdus.ToOpenDis | Source/DISRuntime/Public/PDUs/WarfareFamily/GRILL_DetonationPDU.h:121-160 | the setters and the loop building the record vector produce SendDetonation, which writes no burst descriptor |
| DetonationPdus.DetonationBurstIsDropped | Source/DISRuntime/Public/PDUs/WarfareFamily/GRILL_DetonationPDU.h:121-160 | the burst read back is the one the target record already held: five rounds sent into a zero burst come back as zero |
| DetonationPdus.DetonationRoundTrip | Source/DISRuntime/Public/PDUs/WarfareFamily/GRILL_DetonationPDU.h:61-160 | with the burst written, a sendable detonation comes back whole except the record's protocol family and each articulation's uncarried half |
| DetonationPdus.DetonationRecordRoundTrip | Source/DISRuntime/Public/PDUs/WarfareFamily/GRILL_DetonationPDU.h:61-160 | a record with a fitting header and no attached parts comes back with only its world location cast to float |
| StartResumePdus.ClockTimeFromRecord | Source/DISRuntime/Public/PDUs/SimManagementFamily/GRILL_StartResumePDU.h:40-47 | the hour and the time past the hour are copied out of the record |
| StartResumePdus.ClockTimeToRecord | Source/DISRuntime/Public/EnumsAndStructs/DISEnumsAndStructs.h:649-658 | the hour is copied and the time past the hour narrowed to 32 unsigned bits |
| StartResumePdus.ClockTimeRoundTrip | Source/DISRuntime/Public/EnumsAndStructs/DISEnumsAndStructs.h:635-659 | a clock time survives exactly when its time past the hour fits 32 unsigned bits; every record survives |
| StartResumePdus.DefaultStartResumePdu | Source/DISRuntime/Public/PDUs/SimManagementFamily/GRILL_StartResumePDU.h:26-31 | type Start/Resume, version 6, zero clock times, request ID 0 |
| StartResumePdus.SimulationTimeIsLost | Source/DISRuntime/Public/PDUs/SimManagementFamily/GRILL_StartResumePDU.h:35-50 | the simulation time read back is the real-world time sent, so a PDU whose two times differ never comes back |
| StartResumePdus.StartResumeRoundTrip | Source/DISRuntime/Public/PDUs/SimManagementFamily/GRILL_StartResumePDU.h:35-64 | read with each time from its own field, a sendable PDU comes back whole except the record's protocol family |
| StartResumePdus.StartResumeRecordRoundTrip | Source/DISRuntime/Public/PDUs/SimManagementFamily/GRILL_StartResumePDU.h:35-64 | a record with a fitting header is written back exactly as read |
| SendComponents.FormedPduDescribesEntity | Source/DISRuntime/Private/DISSendComponent.cpp:162-228 | the formed PDU carries the entity's ID, type, force, marking, capabilities, appearance and algorithm, the manager's exercise (0 without one), the georeferenced location and orientation (zero without a georeference) and defaults elsewhere |
| SendComponents.FormedVelocityChoice | Source/DISRuntime/Private/DISSendComponent.cpp:209-223 | Static and the world-frame algorithms get the ECEF velocity and acceleration, the body-frame ones the body values, any other algorithm the default zero vectors |
| SendComponents.FramesPartitionSupported | Source/DISRuntime/Private/DISSendComponent.cpp:212-219 | every supported algorithm is in exactly one of the two frames, Other and unknown values in neither |
| SendComponents.FormedPduCarriesLocalAngles | Source/DISRuntime/Private/DISSendComponent.cpp:193-225 | a formed PDU with an Euler-angle algorithm, read by a receiver, dead reckons to the orientation the sender's local angles describe |
| SendComponents.UpdateMergesBack | Source/DISRuntime/Private/DISSendComponent.cpp:474-477 | the update sent for a PDU, merged into a receiver's copy, gives the PDU back, and brings any older copy's carried fields up to date |
| SendComponents.EmissionMatchesMode | Source/DISRuntime/Private/DISSendComponent.cpp:466-480 | at most one emission: none in None mode or without a UDP subsystem, the PDU's bytes in Entity State mode, an update that brings the receiver up to date in Entity State Update mode |
| SendComponents.ThresholdNeedsReckoning | Source/DISRuntime/Private/DISSendComponent.cpp:230-253 | the threshold never fires for a frozen entity or an unsupported algorithm, and otherwise fires exactly when some axis is past the threshold or the orientation test fires |
| SendComponents.NoDriftNoSend | Source/DISRuntime/Private/DISSendComponent.cpp:230-253 | an owner exactly where dead reckoning puts it, with no orientation drift, is not past a non-negative threshold |
| SendComponents.HeartbeatSends | Source/DISRuntime/Private/DISSendComponent.cpp:74-84 | one verdict per tick |
| SendComponents.HeartbeatSendsIff | Source/DISRuntime/Private/DISSendComponent.cpp:347-364 | with no threshold sends, a run of ticks sends a heartbeat exactly when the time since the last PDU grows past the heartbeat during the run |
| SendComponents.SumNonNegative | Source/DISRuntime/Private/DISSendComponent.cpp:78 | ticks that take no negative time add up to a non-negative time |
| SendComponents.FinalPduIsDeactivated | Source/DISRuntime/Private/DISSendComponent.cpp:86-112 | the final PDU identifies the entity, carries the manager's exercise and reads as deactivated (bit 23 set) and not frozen (bit 21 clear) |
| SendComponents.SingleBit | Source/DISRuntime/Private/DISSendComponent.cpp:95 | 1 << k has bit k set and no other |
| SendComponents.SendComponent.constructor | Source/DISRuntime/Public/DISSendComponent.h:141-173 | appearance, capabilities and algorithm 1, a 5-second heartbeat, a 1-metre threshold; BeginPlay forms the first PDU and sends it when there is a UDP subsystem and a sending mode |
| SendComponents.SendComponent.EmitAppropriatePdu | Source/DISRuntime/Private/DISSendComponent.cpp:466-480 | the emission for the mode is appended, and the result is true exactly when a UDP subsystem exists and the mode sends |
| SendComponents.SendComponent.CheckDeadReckoningThreshold | Source/DISRuntime/Private/DISSendComponent.cpp:230-253 | the verdict is the drift test, and the dead-reckoned copy becomes the reckoning of the most recent PDU |
| SendComponents.SendComponent.SendEntityStatePdu | Source/DISRuntime/Private/DISSendComponent.cpp:347-364 | the new state is `AfterSendChance` of the old: a send happens exactly when the mode sends and the heartbeat elapsed or the most recent PDU, reckoned over the elapsed time, drifted past the threshold; then a new PDU is formed, made both copies, emitted, and the clock restarts; otherwise PDU, clock and emissions are unchanged, and the dead-reckoned copy is that reckoning when the mode sends and untouched when it does not |
| SendComponents.SendComponent.SendDue | Source/DISRuntime/Private/DISSendComponent.cpp:352 | the condition evaluated left to right: the threshold (and its side effect, the dead-reckoned copy reckoned over the elapsed time) only when the heartbeat has not elapsed |
| SendComponents.SendComponent.Publish | Source/DISRuntime/Private/DISSendComponent.cpp:353-361 | the send: a freshly formed PDU becomes both copies, is emitted as the mode asks, and the clock restarts |
| SendComponents.SendComponent.TickComponent | Source/DISRuntime/Private/DISSendComponent.cpp:74-84 | the new state is `AfterSendChance` over the advanced clock: the clock advances by the tick, then a sending mode gets one chance to send: it sends exactly when the advanced clock is past the heartbeat or the most recent PDU, reckoned over it, has drifted past the threshold; a send forms, copies and emits a new PDU and restarts the clock; without one the PDU and emissions stay, the clock keeps the advance, and the dead-reckoned copy is that reckoning, or untouched with no sending mode |
| SendComponents.SendComponent.SetEntityCapabilities | Source/DISRuntime/Private/DISSendComponent.cpp:114-129 | only in Entity State mode and for a different non-negative value: the capability is stored, a new PDU formed and its bytes sent directly |
| SendComponents.SendComponent.SetEntityAppearance | Source/DISRuntime/Private/DISSendComponent.cpp:131-143 | in any mode, for a different non-negative value: the appearance is stored and a new PDU formed and emitted as the mode asks |
| SendComponents.SendComponent.SetDeadReckoningAlgorithm | Source/DISRuntime/Private/DISSendComponent.cpp:145-160 | only in Entity State mode and for a different value, with no range check: the algorithm is stored and the new PDU's bytes sent directly |
| SendComponents.SendComponent.EndPlay | Source/DISRuntime/Private/DISSendComponent.cpp:86-112 | exactly one final, deactivated PDU is emitted as the mode asks |
| ReceiveComponents.Without | Source/DISRuntime/Private/DISReceiveComponent.cpp:23-37 | removing a tag drops every occurrence of it and keeps all other tags |
| ReceiveComponents.FinalPduDeactivatesReceiver | Source/DISRuntime/Private/DISReceiveComponent.cpp:54-61 | the final PDU a send component emits is one every receive component treats as deactivated |
| ReceiveComponents.SmoothingWeight | Source/DISRuntime/Private/DISReceiveComponent.cpp:250 | the weight is in [0, 1], 0 before the period starts, 1 after it ends, and the elapsed fraction of the period in between |
| ReceiveComponents.SmoothingFadesOut | Source/DISRuntime/Private/DISReceiveComponent.cpp:246-264 | smoothing takes (1 - alpha) of each difference off the location and orientation and changes nothing else; at alpha 1 the reckoning is kept |
| ReceiveComponents.RemainingIsScaled | Source/DISRuntime/Private/DISReceiveComponent.cpp:253-261 | Lerp(a, 0, alpha) leaves (1 - alpha) of a: all of it at 0, none at 1 |
| ReceiveComponents.SmoothingStartsAtPreviousReckoning | Source/DISRuntime/Private/DISReceiveComponent.cpp:99-264 | a world-frame PDU smoothed with no time elapsed sits where the entity had been reckoned to before it arrived: no jump |
| ReceiveComponents.ClampingGateCases | Source/DISRuntime/Private/DISReceiveComponent.cpp:194 | clamping never applies to a locally owned entity, with clamping off, or to a munition under the DIS options, and always applies to a network entity with clamping always on |
| ReceiveComponents.ReceiveComponent.constructor | Source/DISRuntime/Public/DISReceiveComponent.h:149-208 | a 30-second timeout, no culling at distance 0, dead reckoning and smoothing on with a 0.5-second period, clamping with the DIS options, nothing received |
| ReceiveComponents.ReceiveComponent.InitializeComponent | Source/DISRuntime/Private/DISReceiveComponent.cpp:23-37 | the owner is network-spawned exactly when it carried the spawn tag, and the tag is removed |
| ReceiveComponents.ReceiveComponent.UpdateCommonEntityStateInfo | Source/DISRuntime/Private/DISReceiveComponent.cpp:99-122 | the clock restarts, the location and rotation differences are taken against the replaced dead-reckoned PDU, both copies become the new PDU, the ID is copied, the life span renewed and the count raised by one |
| ReceiveComponents.ReceiveComponent.GroundClamping | Source/DISRuntime/Private/DISReceiveComponent.cpp:191-244 | behind the gate, a trace that hits broadcasts one clamp at the dead-reckoned location; otherwise nothing is broadcast |
| ReceiveComponents.ReceiveComponent.HandleEntityStatePdu | Source/DISRuntime/Private/DISReceiveComponent.cpp:54-76 | a deactivated PDU destroys the owner and changes nothing else, its life span included; otherwise the common update runs (both copies become the PDU, the location and rotation differences are taken against the replaced reckoning, the clock restarts, the life span is renewed, the count rises), type, force and marking are copied, the PDU is broadcast and, without dead reckoning, the entity is clamped |
| ReceiveComponents.ReceiveComponent.HandleEntityStateUpdatePdu | Source/DISRuntime/Private/DISReceiveComponent.cpp:78-97 | a deactivated update destroys the owner and changes nothing else, its life span included; otherwise it is merged into the most recent PDU, which keeps its type, force, marking and dead-reckoning parameters, goes through the common update with the differences taken against the replaced reckoning, and the update is broadcast |
| ReceiveComponents.ReceiveComponent.DoDeadReckoning | Source/DISRuntime/Private/DISReceiveComponent.cpp:149-189 | the clock always advances; only a network entity with dead reckoning on does more: culled, it rebroadcasts its old reckoning; otherwise it reckons, smooths, broadcasts and clamps |
| ReceiveComponents.ReceiveComponent.ReckonAndClamp | Source/DISRuntime/Private/DISReceiveComponent.cpp:175-187 | a successful reckoning keeps the possibly smoothed copy and broadcasts it, a failed one leaves the most recent PDU, and clamping follows either way |
| ReceiveComponents.ReceiveComponent.Reckon | Source/DISRuntime/Private/DISReceiveComponent.cpp:175-181 | the copy is replaced even when the algorithm fails, and smoothed only when smoothing applies |
| LegacyComponents.LegacyComponent.constructor | Source/DISRuntime/Public/DISComponent.h:153-169 | a 30-second timeout, nothing received, dead reckoning on, and the previous, most recent and dead-reckoned PDUs all the default |
| LegacyComponents.IntegerWord | Source/DISRuntime/Private/DISComponent.cpp:41-43 | the shifted sum of four bytes in int arithmetic is a signed 32-bit value congruent to their big-endian integer, and equal to it when the top bit is clear |
| LegacyComponents.LegacyEulerAngles | Source/DISRuntime/Private/DISComponent.cpp:30-54 | the reader fails exactly on fewer than 15 bytes or a type other than 1; otherwise the yaw is bytes 3-6 taken as an integer, made a float and converted from radians to degrees |
| LegacyComponents.ToUShort | Source/DISRuntime/Private/DISComponent.cpp:73 | a float below 1 stored into a uint16 becomes 0 |
| LegacyComponents.LegacyQuaternion | Source/DISRuntime/Private/DISComponent.cpp:56-79 | the reader fails exactly on fewer than 15 bytes or a type other than 2; otherwise the scalar part is the square root of one minus the vector part's squared length, stored through a uint16 |
| LegacyComponents.LegacyReaderTakesBitsForNumbers | Source/DISRuntime/Private/DISComponent.cpp:30-54 | the float 1.0 (image 3F 80 00 00) is read as 1.0 by the newer reader and as the integer 1065353216 by this one |
| LegacyComponents.LegacyScalarPartTruncates | Source/DISRuntime/Private/DISComponent.cpp:68-76 | with a vector part shorter than one the stored scalar part is always 0 |
| LegacyComponents.LegacyIgnoresFreezeAndAcceleration | Source/DISRuntime/Private/DISComponent.cpp:317-627 | exactly algorithms 1..9 are supported, frozen or not, the velocity and dead-reckoning parameters never change, while the newer reckoning refuses a frozen entity |
| LegacyComponents.FixedPositionLeavesFloatZ | Source/DISRuntime/Private/DISComponent.cpp:345-370 | FPW moves the double location as the newer code does but leaves the float Z where it was |
| LegacyComponents.WorldPositionsAgree | Source/DISRuntime/Private/DISComponent.cpp:332-474 | the world-frame algorithms put the double location where the newer dead reckoning does |
| LegacyComponents.LegacyComponent.UpdateCommonEntityStateInfo | Source/DISRuntime/Private/DISComponent.cpp:226-246 | the replaced reckoning becomes the previous one, both copies become the new PDU, the clock restarts, and the differences are taken against the previous reckoning, the rotation by plain subtraction |
| LegacyComponents.LegacyComponent.GroundClamping | Source/DISRuntime/Private/DISComponent.cpp:629-674 | behind the same gate as the receive component, a trace that hits broadcasts one clamp |
| LegacyComponents.LegacyComponent.HandleEntityStatePdu | Source/DISRuntime/Private/DISComponent.cpp:181-203 | a deactivated PDU destroys the owner and changes nothing else, its life span included; otherwise the life span is renewed, the common update runs with the differences taken against the replaced reckoning by plain subtraction, type, force and marking are copied and the PDU is broadcast |
| LegacyComponents.LegacyComponent.HandleEntityStateUpdatePdu | Source/DISRuntime/Private/DISComponent.cpp:205-224 | a deactivated update destroys the owner and changes nothing else, its life span included; otherwise the life span is renewed and the update, merged into the most recent PDU, goes through the common update with the differences taken by plain subtraction |
| LegacyComponents.LegacyComponent.DeadReckoning | Source/DISRuntime/Private/DISComponent.cpp:317-627 | with dead reckoning off or a local entity the switch is latched off and false returned, the caller's PDU untouched; otherwise the result is the older switch's |
| LegacyComponents.LegacyComponent.DoDeadReckoning | Source/DISRuntime/Private/DISComponent.cpp:273-314 | the clock always advances and the latch never fires here; a network entity with dead reckoning on is culled, or reckoned, smoothed, broadcast and clamped |
| LegacyComponents.LegacyComponent.ReckonAndClamp | Source/DISRuntime/Private/DISComponent.cpp:295-313 | a successful reckoning keeps the possibly smoothed copy and broadcasts it, a failed one leaves the most recent PDU, and clamping follows |
| OrderedMaps.Find | Source/DISRuntime/Private/DISGameManager.cpp:371-372 | find yields a value exactly when some stored key is equivalent to the one asked for, and then it is that entry's value |
| OrderedMaps.FindKey | Source/DISRuntime/Private/DISGameManager.cpp:282-286 | the stored key found is equivalent to the one asked for, and found exactly when find finds a value |
| OrderedMaps.InsertOrAssign | Source/DISRuntime/Private/DISGameManager.cpp:399 | insert_or_assign adds at most one entry |
| OrderedMaps.Insert | Source/DISRuntime/Private/DISGameState.cpp:30 | insert changes nothing when an equivalent key is present |
| OrderedMaps.Erase | Source/DISRuntime/Private/DISGameManager.cpp:408 | erase never adds entries |
| OrderedMaps.InsertOrAssignFind | Source/DISRuntime/Private/DISGameManager.cpp:399 | after insert_or_assign the key finds the new value and every other key finds what it found before |
| OrderedMaps.InsertOrAssignKeepsStoredKey | Source/DISRuntime/Private/DISGameManager.cpp:92 | an entry assigned through an equivalent key keeps the key it was stored under |
| OrderedMaps.InsertOrAssignHead | Source/DISRuntime/Private/DISGameManager.cpp:399 | the first entry after insert_or_assign is the new entry or the old first one |
| OrderedMaps.InsertOrAssignOrdered | Source/DISRuntime/Private/DISGameManager.cpp:399 | insert_or_assign keeps the entries in key order |
| OrderedMaps.InsertFind | Source/DISRuntime/Private/DISGameState.cpp:30 | after insert the key finds its old value if it had one, else the new one; other keys are unaffected |
| OrderedMaps.FindEquivalent | Source/DISRuntime/Private/DISGameManager.cpp:371 | equivalent keys find the same entry |
| OrderedMaps.InsertOrdered | Source/DISRuntime/Private/DISGameState.cpp:30 | insert keeps the entries in key order |
| OrderedMaps.EraseFind | Source/DISRuntime/Private/DISGameManager.cpp:408 | after erase the key finds nothing and every other key finds what it found before |
| OrderedMaps.ErasedIffPresent | Source/DISRuntime/Private/DISGameManager.cpp:408-409 | erase reports a removal exactly when an equivalent key was present |
| OrderedMaps.EraseSubsequence | Source/DISRuntime/Private/DISGameManager.cpp:408 | erase keeps only entries the map had |
| OrderedMaps.EraseOrdered | Source/DISRuntime/Private/DISGameManager.cpp:408 | erase keeps the entries in key order |
| Registries.MappingEntries | Source/DISRuntime/Private/DISGameManager.cpp:81-93 | one (type, class) pair per listed type, in the listed order |
| Registries.AddedLastWins | Source/DISRuntime/Private/DISGameManager.cpp:79-94 | after the TMap build a configured type maps to the class of its last pair |
| Registries.AddedUnconfigured | Source/DISRuntime/Private/DISGameManager.cpp:79-94 | a type no pair configures keeps its TMap entry, or its absence |
| Registries.AssignedLastWins | Source/DISRuntime/Private/DISGameManager.cpp:79-94 | after the insert_or_assign build a type finds the class of its last equivalent pair |
| Registries.AssignedUnconfigured | Source/DISRuntime/Private/DISGameManager.cpp:79-94 | a type no pair is equivalent to finds what it found before the insert_or_assign build |
| Registries.InsertedFirstWins | Source/DISRuntime/Private/DISGameState.cpp:17-32 | after the insert build a type finds the class of its first equivalent pair |
| Registries.FindEquivalentBuild | Source/DISRuntime/Private/DISGameState.cpp:17-32 | equivalent keys find the same class in the insert build |
| Registries.InsertedUnconfigured | Source/DISRuntime/Private/DISGameState.cpp:17-32 | a type no pair is equivalent to finds what it found before the insert build |
| Registries.BuildsStayOrdered | Source/DISRuntime/Private/DISGameManager.cpp:79-94 | both builds keep the std::map in key order |
| Registries.PairsStep | Source/DISRuntime/Private/DISGameManager.cpp:79-94 | visiting one more listed type appends its pair to the pairs visited so far |
| Registries.PairsNext | Source/DISRuntime/Private/DISGameManager.cpp:79-94 | finishing a mapping's types visits exactly that mapping's pairs |
| Registries.WildcardStep | Source/DISRuntime/Private/DISGameManager.cpp:289-299 | one more class-map entry changes what the wildcard mappings find for a type only if it is that type's first candidate |
| Registries.WildcardFindsNothingIffNoCandidate | Source/DISRuntime/Private/DISGameManager.cpp:288-301 | the wildcard lookup finds nothing exactly when no entry's filled key differs from it and is equivalent to the type |
| Registries.WildcardFindsFirstCandidate | Source/DISRuntime/Private/DISGameManager.cpp:288-301 | the wildcard lookup finds the class of the first candidate in key order: insert keeps the first |
| Registries.MatchingPatternIsCandidate | Source/DISRuntime/Private/DISGameManager.cpp:292-293 | a mapped type with wildcards that matches the type everywhere else is a candidate for it |
| Registries.DefaultTypeHasNoWildcardClass | Source/DISRuntime/Private/DISGameManager.cpp:292-293 | the all-wildcard default type fills every entry to itself, so it never has a wildcard class |
| Registries.CollectWildcardMappings | Source/DISRuntime/Private/DISGameManager.cpp:288-299 | the loop over the class map builds exactly the wildcard mappings |
| GameManagers.SpawnClassIsExactThenFirstCandidate | Source/DISRuntime/Private/DISGameManager.cpp:282-311 | the class picked is the exact mapping when one exists, otherwise the first wildcard candidate's class, and none when there is no candidate |
| GameManagers.TickReachesEveryComponent | Source/DISRuntime/Private/DISGameManager.cpp:102-126 | every mapped actor with a receive component dead-reckons over the frame's time, and nothing else does |
| GameManagers.GameManager.constructor | Source/DISRuntime/Public/DISGameManager.h:164-190 | IDs 0 and empty maps |
| GameManagers.GameManager.BuildClassMappings | Source/DISRuntime/Private/DISGameManager.cpp:76-99 | without an enumeration asset nothing changes; otherwise every pair is added to the TMap and insert_or_assign-ed into the std::map, which stays ordered |
| GameManagers.GameManager.Tick | Source/DISRuntime/Private/DISGameManager.cpp:102-126 | the tick's deliveries are appended to those so far |
| GameManagers.GameManager.ComponentFor | Source/DISRuntime/Private/DISGameManager.cpp:365-379 | a component is found only for an actor mapped to an equivalent ID that has one, and always found then |
| GameManagers.GameManager.RoutedOnlyToMapped | Source/DISRuntime/Private/DISGameManager.cpp:365-379 | a message is delivered only to an actor mapped to an ID equivalent to the one it names |
| GameManagers.GameManager.Route | Source/DISRuntime/Private/DISGameManager.cpp:183-188 | the routed call, if any, is appended to the deliveries |
| GameManagers.GameManager.SpawnNewEntityFromEntityState | Source/DISRuntime/Private/DISGameManager.cpp:280-363 | the exact class, else the first wildcard candidate; a class that fails to load stops the spawn; a spawned actor is mapped and handed the PDU |
| GameManagers.GameManager.SpawnActor | Source/DISRuntime/Private/DISGameManager.cpp:324-357 | exactly one actor of the class is spawned, mapped to the PDU's ID and handed the PDU as network-spawned |
| GameManagers.GameManager.HandleEntityStatePdu | Source/DISRuntime/Private/DISGameManager.cpp:146-174 | another exercise's PDU changes nothing; a known ID's component gets the PDU and the IDs, class maps, actor maps, initial conditions and spawn count stay; an unknown deactivated entity is ignored; any other unknown entity is spawned |
| GameManagers.GameManager.HandleEntityStateUpdatePdu | Source/DISRuntime/Private/DISGameManager.cpp:176-190 | routed within the exercise to a known entity only, never spawning |
| GameManagers.GameManager.HandleFirePdu | Source/DISRuntime/Private/DISGameManager.cpp:192-204 | routed within the exercise to the firing entity |
| GameManagers.GameManager.HandleDetonationPdu | Source/DISRuntime/Private/DISGameManager.cpp:206-218 | routed within the exercise to the munition |
| GameManagers.GameManager.HandleRemoveEntityPdu | Source/DISRuntime/Private/DISGameManager.cpp:220-233 | routed to the receiving entity when exercise, site and application are ours |
| GameManagers.GameManager.HandleStopFreezePdu | Source/DISRuntime/Private/DISGameManager.cpp:235-248 | routed to the receiving entity when exercise, site and application are ours |
| GameManagers.GameManager.HandleStartResumePdu | Source/DISRuntime/Private/DISGameManager.cpp:250-263 | routed to the receiving entity when exercise, site and application are ours |
| GameManagers.GameManager.HandleEmissionsPdu | Source/DISRuntime/Private/DISGameManager.cpp:265-278 | routed within the exercise to the emitting entity |
| GameManagers.GameManager.AddDisEntityToMap | Source/DISRuntime/Private/DISGameManager.cpp:381-403 | a null actor is refused and nothing changes; otherwise both maps map the ID to the actor, replacing any earlier one, and the call succeeds |
| GameManagers.GameManager.RemoveDisEntityFromMap | Source/DISRuntime/Private/DISGameManager.cpp:405-410 | the ID leaves both maps, and the result is true exactly when the std::map erased an entry |
| GameManagers.GameManager.HandleOnDisEntityDestroyed | Source/DISRuntime/Private/DISGameManager.cpp:128-144 | a destroyed actor's entry is removed from the TMap and the std::map under its component's entity ID; without a component nothing is removed |
| GameManagers.GameManager.ClassFor | Source/DISRuntime/Private/DISGameManager.cpp:282-311 | the class looked up for a type is SpawnClass: the exact mapping, else the first wildcard candidate |
| GameManagers.AddThenRemove | Source/DISRuntime/Private/DISGameManager.cpp:381-410 | after adding, the ID finds its actor and other IDs are unaffected; after removing it, the ID finds nothing |
| GameStates.UnloadableExactFallsBackToWildcard | Source/DISRuntime/Private/DISGameState.cpp:165-185 | an exact class that does not load falls through to the wildcard lookup, and the first candidate's class is used |
| GameStates.UpdateSpawnNeedsAllWildcardMapping | Source/DISRuntime/Private/DISGameState.cpp:115-122 | an update spawns through a default Entity State, whose all-wildcard type gets a loaded class only from an exact mapping for that type |
| GameStates.LookupLeavesNullEntry | Source/DISRuntime/Private/DISGameState.cpp:72 | operator[] on an unknown ID leaves a null entry behind, which a later erase reports as removed |
| GameStates.ClassMapsCanDisagree | Source/DISRuntime/Private/DISGameState.cpp:29-30 | with two pairs for one type the TMap keeps the second class and the std::map the first |
| GameStates.BuildClassMaps | Source/DISRuntime/Private/DISGameState.cpp:17-32 | the nested loops build exactly the Add and insert builds of the configured pairs, and the std::map is ordered |
| GameStates.ChooseSpawnClass | Source/DISRuntime/Private/DISGameState.cpp:165-185 | the class chosen is StateSpawnClass, and a loaded class comes from the exact entry or the wildcard lookup |
| GameStates.GameState.constructor | Source/DISRuntime/Private/DISGameState.cpp:11-37 | the TMap and std::map are the Add and insert builds of the settings |
| GameStates.GameState.ActorAt | Source/DISRuntime/Private/DISGameState.cpp:72 | operator[] yields the mapped actor, or null for an unknown ID, and leaves a null entry for it |
| GameStates.GameState.Deliver | Source/DISRuntime/Private/DISGameState.cpp:79-82 | a call is delivered only when the actor has a component |
| GameStates.GameState.SpawnNewEntityFromEntityState | Source/DISRuntime/Private/DISGameState.cpp:162-213 | the type gets a null class entry if it had none, and the class chosen is spawned when it loads |
| GameStates.GameState.ClassAt | Source/DISRuntime/Private/DISGameState.cpp:165 | operator[] on the class map leaves an entry for the type, null when it was unknown |
| GameStates.GameState.SpawnActor | Source/DISRuntime/Private/DISGameState.cpp:187-207 | exactly one actor of the class is spawned, mapped to the PDU's ID and handed the PDU as network-spawned |
| GameStates.GameState.HandleEntityStatePdu | Source/DISRuntime/Private/DISGameState.cpp:69-95 | a mapped non-null actor's component gets the PDU and nothing else changes; with no entry or a null one the lookup leaves a null entry, a deactivated entity changes nothing more, and any other puts a null class entry under its type and is spawned with the next handle and mapped in both actor maps when the chosen class loads, with nothing else changed when it does not |
| GameStates.MappedActor | Source/DISRuntime/Private/DISGameState.cpp:72 | operator[] yields an actor exactly for an ID whose entry holds a non-null one |
| GameStates.GameState.DeliverToMapped | Source/DISRuntime/Private/DISGameState.cpp:72-83 | the lookup and the call on a mapped actor's component: found exactly for a non-null entry, leaving the maps as they were, and otherwise only the null entry is added |
| GameStates.GameState.SpawnUnlessDeactivated | Source/DISRuntime/Private/DISGameState.cpp:84-94 | a deactivated entity changes nothing; any other puts a null class entry under its type and is spawned when the class loads |
| GameStates.GameState.HandleEntityStateUpdatePdu | Source/DISRuntime/Private/DISGameState.cpp:97-123 | a mapped non-null actor's component gets the update and nothing else changes; with no entry or a null one the lookup leaves a null entry, a deactivated update changes nothing more, and any other puts a null class entry under the all-wildcard type and, when that class loads, is spawned from a default Entity State assigned from the update, with nothing else changed when it does not |
| GameStates.GameState.SpawnFromUpdate | Source/DISRuntime/Private/DISGameState.cpp:112-122 | the update goes to the spawn as a default Entity State assigned from it, whose appearance is the update's |
| GameStates.GameState.GetAssociatedDisComponent | Source/DISRuntime/Private/DISGameState.cpp:215-229 | a component is found exactly for a mapped non-null actor with one, and the lookup leaves a null entry for an unknown ID |
| GameStates.GameState.HandleFirePdu | Source/DISRuntime/Private/DISGameState.cpp:125-134 | the PDU goes to the component of the actor mapped to the munition's ID, if that actor is not null and has one, and a munition ID not yet in the map gains a null entry |
| GameStates.GameState.HandleDetonationPdu | Source/DISRuntime/Private/DISGameState.cpp:136-145 | the PDU goes to the component of the actor mapped to the munition's ID, if that actor is not null and has one, and a munition ID not yet in the map gains a null entry |
| GameStates.GameState.HandleRemoveEntityPdu | Source/DISRuntime/Private/DISGameState.cpp:147-160 | routed to the receiving entity's component only when site and application are ours, with no exercise check; otherwise nothing changes |
| GameStates.GameState.AddDisEntityToMap | Source/DISRuntime/Private/DISGameState.cpp:231-235 | both maps map the ID to the actor, replacing any earlier one |
| GameStates.GameState.RemoveDisEntityFromMap | Source/DISRuntime/Private/DISGameState.cpp:237-242 | the ID leaves both maps, and the result is true exactly when the std::map held an entry for it, null ones included |
| GameStates.GameState.HandleOnDisEntityDestroyed | Source/DISRuntime/Private/DISGameState.cpp:51-67 | a destroyed actor's entry is removed from the TMap and the std::map under its component's entity ID; without a component neither map changes |

## Left out

- Floating-point geometry is not modelled. ECEF⇄latitude/longitude/height, NED/ENU frames, heading/pitch/roll⇄Psi/Theta/Phi, and the matrix and quaternion integration of the body-frame and rotating algorithms are arrow-typed parameters, and the properties hold for any choice of them. Float rounding is a `Rounding` parameter, and `FMath::IsNearlyEqual` is a tolerance test on reals.
- `FVector` components are single-precision floats here, so the Detonation PDU's world location goes through the float cast. Under double-precision vectors that cast is the identity. The send component's ECEF location is assigned without the cast, and the model reads `EcefLocation` into `location` unchanged.
- Socket I/O, the UDP subsystem and the receive-thread hand-off are left out. A datagram is the byte sequence handed to `ProcessDISPacket`, and an emission is a value appended to `emitted`.
- Engine glue is left out: actor spawning and destruction, `SetLifeSpan`, timers, camera lookup, line traces, actor tags and `GetDISGameManager`. Each is reduced to data or a parameter: an actor record, `destroyed` and `lifeSpan` fields, a camera distance, a trace result and a tag sequence.
- The OpenDIS library is left out: `unmarshal`, `marshal`, `ToBytes` and the wire layout. Its records are plain datatypes. `PduProcessor.Dispatch` broadcasts the admitted datagram's kind and bytes, not the decoded struct.
- The `*_PDU_BYTES` constants are not defined in the repository's own source. The model uses the DIS 6 sizes: Entity State 144, articulation record 16, Fire 96, Detonation 104, Remove Entity 28, Start/Resume 44, Stop/Freeze 40, Entity State Update 72 and Signal 32.
- `ToEntityStateUpdatePDU` is called by the send component but defined outside the modelled source. `SendComponents.ToEntityStateUpdate` assumes it copies exactly the fields an update carries.
- The UEOpenDIS module and the older UObject PDU wrappers under `Source/DISRuntime/Public/GRILL_*.h` are not part of this model. Their headers disagree with their definitions, and they hold no logic beyond field copies.
- The pass-through PDU structs (Remove Entity, Stop/Freeze, Signal, Electromagnetic Emissions and the family bases) and PDUConversions_BPFL are not part of this model. They are field-for-field copies.
- The receive components' `HandleFirePDU`, `HandleDetonationPDU`, `HandleRemoveEntityPDU`, `HandleStopFreezePDU` and `HandleStartResumePDU` only re-broadcast their argument, so they are not modelled. The registries' routing to them is modelled as a delivery.
- `CheckOrientationQuaternionThreshold` and `CheckOrientationMatrixThreshold` are trigonometry on rotations. They are the `orientationOutside` parameter.
- The velocity and acceleration estimates (`UpdateEntityStateCalculations`, `CalculateECEFLinearVelocityAndAcceleration`, `CalculateBodyLinearVelocityAndAcceleration`, `CalculateAngularVelocity`) are timer-driven float estimates, so they are not modelled. Their last results are the `Motion` inputs of `FormEntityStatePDU`.
- A `TMap` is a Dafny `map` under value equality. Its hashing, and the entity-type hash, are left out.
- Fire and Start/Resume `SetupFromOpenDIS`/`ToOpenDIS` are straight-line field copies without loops, so they are written as functions rather than methods.
- The game state's constructor reads exercise, site and application IDs from the project settings; they are constructor parameters here.
- PduProcessor.PduDispatcher.ProcessDISPacket: follows the corrected `Dispatch`, which refuses a datagram too short for its type byte or its base size. The code as written is `DispatchAsWritten`, and the two are related under Findings.
- SendComponents.SendComponent.EmitAppropriatePdu: the UDP subsystem's `EmitBytes` is taken to succeed, so the result says only whether something was handed over, not whether the socket sent it.
- SendComponents.HeartbeatSendsIff: stated for runs in which the threshold never fires; the threshold's own verdict is `ThresholdNeedsReckoning`.

## Findings

| source | as written | input that shows it | evidently intended | confidence | as-written member | corrected member |
|---|---|---|---|---|---|---|
| Source/DISRuntime/Private/PDUProcessor.cpp:30-37 | only an empty datagram is refused before the type byte at index 2 is read | a one-byte datagram: it passes the guard and `InData[2]` is read past its end | refuse datagrams with no byte at the type position | not executed | PduProcessor.OneByteDatagramReadsPastEnd | PduProcessor.DispatchAgreesWithAsWritten |
| Source/DISRuntime/Private/PDUProcessor.cpp:217-249 | the Emission walker reads byte 25 and every count byte without a bounds check | a three-byte Emission datagram `[0, 0, 23]`: byte 25 is read past its end | read a count byte only when it lies inside the datagram | not executed | PduProcessor.ShortEmissionReadsPastEnd | PduProcessor.CheckEmissionLength |
| Source/DISRuntime/Private/PDUProcessor.cpp:209-215 | the articulation check accepts a negative multiple of 16 extra bytes | a 128-byte Entity State datagram, one record short of the 144-byte base, is broadcast | accept the base size plus a whole number of records, and nothing shorter | not executed | PduProcessor.ShortEntityStateIsBroadcast | PduProcessor.ArticulationLengthOkIff |
| Source/DISRuntime/Public/PDUs/WarfareFamily/GRILL_DetonationPDU.h:121-160 | `ToOpenDIS` never writes the burst descriptor that `SetupFromOpenDIS` reads | a detonation of five rounds sent into a record whose burst is zero comes back with quantity 0 | write the burst descriptor, as the Fire PDU does | not executed | DetonationPdus.DetonationBurstIsDropped | DetonationPdus.DetonationRoundTrip |
| Source/DISRuntime/Public/PDUs/SimManagementFamily/GRILL_StartResumePDU.h:40-47 | the simulation time is read from the record's real-world time | any PDU whose two clock times differ comes back with its simulation time replaced | read each clock time from its own field | not executed | StartResumePdus.SimulationTimeIsLost | StartResumePdus.StartResumeRoundTrip |
| Source/DISRuntime/Private/DISComponent.cpp:30-54 | the older readers take the big-endian integer of each 4-byte word for the angle, not the float those bytes encode | the float 1.0 (bytes 3F 80 00 00) is read as the integer 1065353216, then taken for radians | reinterpret the word as a float, as the newer reader does | not executed | LegacyComponents.LegacyReaderTakesBitsForNumbers | OtherParameters.EulerAnglesRoundTrip |
| Source/DISRuntime/Private/DISComponent.cpp:345-370 | the FPW case writes X and Y of the float location but not Z | any FPW entity with a non-zero Z velocity keeps its old float Z while its double Z moves | keep the float location the cast of the double one, as the newer dead reckoning does | not executed | LegacyComponents.FixedPositionLeavesFloatZ | DeadReckonings.ReckoningChangesOnlyKinematics |
