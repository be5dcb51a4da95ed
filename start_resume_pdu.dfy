// FStartResumePDU: the Start/Resume PDU struct, its defaults, and its
// mapping to and from the DIS StartResumePdu record, with the clock-time
// struct it carries. SetupFromOpenDIS reads the real-world time twice;
// `ReadStartResume` is the reading that takes the simulation time from its
// own field.
module StartResumePdus {
  import opened EntityTypes
  import EI = EntityIds
  import opened PduHeaders

  const StartResumePduType: Octet := 13

  /** A C++ int64. */
  type Int64 = x: int | -0x8000_0000_0000_0000 <= x < 0x8000_0000_0000_0000

  /** FClockTime: an hour count and the time past the hour. */
  datatype ClockTime = ClockTime(hour: EI.Int32, timePastHour: Int64)

  /** The DIS ClockTime record: a signed hour and an unsigned 32-bit time past the hour. */
  datatype ClockTimeRecord = ClockTimeRecord(hour: EI.Int32, timePastHour: UInt32)

  const DefaultClockTime: ClockTime := ClockTime(0, 0)

  /** The hour and the time past the hour as SetupFromOpenDIS copies them out of a record. */
  function ClockTimeFromRecord(r: ClockTimeRecord): (t: ClockTime)
    ensures t.hour == r.hour && t.timePastHour == r.timePastHour
  {
    ClockTime(r.hour, r.timePastHour)
  }

  /** FClockTime::ToOpenDIS: the time past the hour narrowed to 32 unsigned bits. */
  function ClockTimeToRecord(t: ClockTime): (r: ClockTimeRecord)
    ensures r.hour == t.hour && r.timePastHour == t.timePastHour % 0x1_0000_0000
  {
    ClockTimeRecord(t.hour, t.timePastHour % 0x1_0000_0000)
  }

  /** A clock time survives exactly when its time past the hour fits 32 unsigned bits; every record survives. */
  lemma ClockTimeRoundTrip(t: ClockTime, r: ClockTimeRecord)
    ensures ClockTimeFromRecord(ClockTimeToRecord(t)) == t <==> 0 <= t.timePastHour < 0x1_0000_0000
    ensures ClockTimeToRecord(ClockTimeFromRecord(r)) == r
  {
  }

  datatype StartResumePdu = StartResumePdu(
    header: PduHeader,
    originatingEntityId: EI.EntityId,
    receivingEntityId: EI.EntityId,
    realWorldTime: ClockTime,
    simulationTime: ClockTime,
    requestId: Int64)

  /** The DIS StartResumePdu record; the request ID is an unsigned 32-bit field. */
  datatype StartResumeRecord = StartResumeRecord(
    header: HeaderRecord,
    originatingEntityId: EI.EntityIdRecord,
    receivingEntityId: EI.EntityIdRecord,
    realWorldTime: ClockTimeRecord,
    simulationTime: ClockTimeRecord,
    requestId: UInt32)

  /** The default: PDU type Start/Resume, zero clock times and request ID 0. */
  function DefaultStartResumePdu(): (p: StartResumePdu)
    ensures p.header.pduType == StartResumePduType && p.header.protocolVersion == 6
    ensures p.requestId == 0 && p.realWorldTime == DefaultClockTime && p.simulationTime == DefaultClockTime
  {
    StartResumePdu(DefaultHeader().(pduType := StartResumePduType), EI.DefaultEntityId, EI.DefaultEntityId,
                   DefaultClockTime, DefaultClockTime, 0)
  }

  /** SetupFromOpenDIS as written: both clock times are read from the record's real-world time. */
  function ReadStartResumeAsWritten(r: StartResumeRecord): StartResumePdu
  {
    StartResumePdu(HeaderFromRecord(r.header), EI.FromRecord(r.originatingEntityId),
                   EI.FromRecord(r.receivingEntityId), ClockTimeFromRecord(r.realWorldTime),
                   ClockTimeFromRecord(r.realWorldTime), r.requestId)
  }

  /** SetupFromOpenDIS with each clock time read from its own field. */
  function ReadStartResume(r: StartResumeRecord): StartResumePdu
  {
    ReadStartResumeAsWritten(r).(simulationTime := ClockTimeFromRecord(r.simulationTime))
  }

  /** What ToOpenDIS writes into `out`: IDs, both clock times and the request ID narrowed to 32 unsigned bits. */
  function SendStartResume(p: StartResumePdu, out: StartResumeRecord): StartResumeRecord
  {
    out.(header := HeaderToRecord(p.header, out.header),
         receivingEntityId := EI.ToRecord(p.receivingEntityId),
         originatingEntityId := EI.ToRecord(p.originatingEntityId),
         realWorldTime := ClockTimeToRecord(p.realWorldTime),
         simulationTime := ClockTimeToRecord(p.simulationTime),
         requestId := p.requestId % 0x1_0000_0000)
  }

  /** A struct whose numbers fit the record's fields. */
  predicate SendableStartResume(p: StartResumePdu)
  {
    -0x8000 <= p.header.padding < 0x8000 &&
    EI.InRange(p.originatingEntityId) && EI.InRange(p.receivingEntityId) &&
    0 <= p.realWorldTime.timePastHour < 0x1_0000_0000 &&
    0 <= p.simulationTime.timePastHour < 0x1_0000_0000 && 0 <= p.requestId < 0x1_0000_0000
  }

  /**
   * As written, the simulation time read back is the real-world time sent:
   * a PDU whose two times differ never round-trips.
   */
  lemma SimulationTimeIsLost(p: StartResumePdu, out: StartResumeRecord)
    requires SendableStartResume(p)
    ensures ReadStartResumeAsWritten(SendStartResume(p, out)).simulationTime == p.realWorldTime
    ensures (ReadStartResumeAsWritten(SendStartResume(p, out)) == p.(header := p.header.(protocolFamily := out.header.protocolFamily)))
              <==> p.simulationTime == p.realWorldTime
  {
    HeaderRoundTrip(p.header, out.header);
    EI.RecordRoundTrip(p.originatingEntityId, EI.EntityIdRecord(0, 0, 0));
    EI.RecordRoundTrip(p.receivingEntityId, EI.EntityIdRecord(0, 0, 0));
  }

  /** Read with its own simulation time, a sendable PDU comes back whole except the protocol family. */
  lemma StartResumeRoundTrip(p: StartResumePdu, out: StartResumeRecord)
    requires SendableStartResume(p)
    ensures ReadStartResume(SendStartResume(p, out)) == p.(header := p.header.(protocolFamily := out.header.protocolFamily))
  {
    HeaderRoundTrip(p.header, out.header);
    EI.RecordRoundTrip(p.originatingEntityId, EI.EntityIdRecord(0, 0, 0));
    EI.RecordRoundTrip(p.receivingEntityId, EI.EntityIdRecord(0, 0, 0));
  }

  /** A record whose header fits the struct is sent back exactly as it was read. */
  lemma StartResumeRecordRoundTrip(r: StartResumeRecord)
    requires r.header.timestamp < 0x100 && r.header.length < 0x100
    ensures SendStartResume(ReadStartResume(r), r) == r
  {
    HeaderRecordRoundTrip(r.header);
    EI.RecordRoundTrip(EI.DefaultEntityId, r.originatingEntityId);
    EI.RecordRoundTrip(EI.DefaultEntityId, r.receivingEntityId);
  }
}
