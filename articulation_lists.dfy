// The articulation-parameter lists of the Entity State, Entity State Update
// and Detonation PDUs: the loop that reads DIS records into the struct's list
// (appending), and the loop that builds the outgoing record vector.
module ArticulationLists {
  import opened Structs

  /** The list the reading loop produces from the records, in record order. */
  function FromRecords(rs: seq<ArticulationRecord>, c: FloatCodec): seq<Articulation>
  {
    seq(|rs|, i requires 0 <= i < |rs| => ArticulationFromRecord(rs[i], c))
  }

  /** The record vector the sending loop builds, in list order. */
  function ToRecords(arts: seq<Articulation>, c: FloatCodec): seq<ArticulationRecord>
  {
    seq(|arts|, i requires 0 <= i < |arts| => ArticulationToRecord(arts[i], c))
  }

  /**
   * The reading loop: one articulation per record, appended to the list the
   * struct already holds (the list is never emptied first).
   */
  method AppendFromRecords(prior: seq<Articulation>, rs: seq<ArticulationRecord>, c: FloatCodec)
    returns (arts: seq<Articulation>)
    ensures arts == prior + FromRecords(rs, c)
  {
    arts := prior;
    var i := 0;
    while i < |rs|
      invariant 0 <= i <= |rs|
      invariant arts == prior + FromRecords(rs[..i], c)
    {
      assert FromRecords(rs[..i + 1], c) == FromRecords(rs[..i], c) + [ArticulationFromRecord(rs[i], c)];
      arts := arts + [ArticulationFromRecord(rs[i], c)];
      i := i + 1;
    }
    assert rs[..i] == rs;
  }

  /** The sending loop: pushes one record per articulation, in order. */
  method BuildRecords(arts: seq<Articulation>, c: FloatCodec) returns (rs: seq<ArticulationRecord>)
    ensures rs == ToRecords(arts, c)
  {
    rs := [];
    var i := 0;
    while i < |arts|
      invariant 0 <= i <= |arts|
      invariant rs == ToRecords(arts[..i], c)
    {
      assert ToRecords(arts[..i + 1], c) == ToRecords(arts[..i], c) + [ArticulationToRecord(arts[i], c)];
      rs := rs + [ArticulationToRecord(arts[i], c)];
      i := i + 1;
    }
    assert arts[..i] == arts;
  }

  /** Two lists of the same length agreeing, position by position, on the part each designator says is carried. */
  predicate SameCarriedParts(a: seq<Articulation>, b: seq<Articulation>)
  {
    |a| == |b| && forall i :: 0 <= i < |a| ==> SameCarriedPart(a[i], b[i])
  }

  /** An articulation whose numbers fit the record's fields. */
  predicate Sendable(a: Articulation)
  {
    0 <= a.changeIndicator < 0x100 && 0 <= a.partAttachedTo < 0x1_0000 &&
    (a.designator != ArticulatedPart ==> EntityTypes.PackedRange(a.attachedPartType))
  }

  /**
   * A list of sendable articulations is re-read in the same order and with
   * the same carried parts: sending keeps the list length and order.
   */
  lemma ListRoundTrip(arts: seq<Articulation>, c: FloatCodec)
    requires ExactWidening(c)
    requires forall i :: 0 <= i < |arts| ==> Sendable(arts[i])
    ensures SameCarriedParts(FromRecords(ToRecords(arts, c), c), arts)
  {
    var back := FromRecords(ToRecords(arts, c), c);
    forall i | 0 <= i < |arts|
      ensures SameCarriedPart(back[i], arts[i])
    {
      ArticulationRoundTrip(arts[i], c);
    }
  }

  /** A received list in which no part is articulated is sent back record for record. */
  lemma AttachedRecordsRoundTrip(rs: seq<ArticulationRecord>, c: FloatCodec)
    requires forall i :: 0 <= i < |rs| ==> rs[i].designator != ArticulatedPart
    ensures ToRecords(FromRecords(rs, c), c) == rs
  {
    var back := ToRecords(FromRecords(rs, c), c);
    forall i | 0 <= i < |rs|
      ensures back[i] == rs[i]
    {
      ArticulationRecordRoundTrip(rs[i], c);
    }
  }
}
