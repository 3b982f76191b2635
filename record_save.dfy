/**
 * Saving a DNS record of a domain (`Save.saveDomainRecord`): an update-or-insert
 * on the domain-record table. A request whose record id is non-zero and names
 * a stored record updates that record and keeps the domain it belongs to;
 * any other request inserts a new record under the request's domain. The
 * record's type, class, ttl, value and "update by dns client" flag are copied
 * from the request, and an empty value flagged for the dns client is filled in
 * with the current public IP when one is known.
 *
 * The record table is a map from record id to record; new ids come from an
 * auto-increment counter. The public-IP lookup is a network call, so its answer
 * is a parameter.
 */
module RecordSave {
  import opened Options

  /** The `record` part of a save request. */
  datatype RecordInput = RecordInput(
    id: int,
    recordType: int,
    recordClass: int,
    ttl: int,
    value: string,
    updateByDnsClient: bool)

  /** A save request: the domain the record belongs to, and the record. */
  datatype SaveRequest = SaveRequest(domainId: int, record: RecordInput)

  /** A stored DNS record (its id is its key in the table). */
  datatype DomainRecord = DomainRecord(
    domainId: int,
    dtype: int,
    dclass: int,
    ttl: int,
    dvalue: string,
    updateByDnsClient: bool)

  const STATUS_OK: nat := 200

  /** The stored record a request addresses: only a non-zero id that is a key of the table. */
  function Existing(records: map<int, DomainRecord>, id: int): (r: Option<DomainRecord>)
    ensures r.Some? <==> id != 0 && id in records
    ensures r.Some? ==> r.value == records[id]
  {
    if id != 0 && id in records then Some(records[id]) else None
  }

  /**
   * The value stored for a record: the given value, except that an empty value
   * flagged for the dns client becomes the public IP when a non-empty one is known.
   */
  function FilledValue(value: string, updateByDnsClient: bool, publicIp: Option<string>): (r: string)
    ensures value != [] ==> r == value
    ensures !updateByDnsClient ==> r == value
    ensures value == [] && updateByDnsClient && publicIp.Some? && publicIp.value != [] ==> r == publicIp.value
    ensures (publicIp.None? || publicIp.value == []) ==> r == value
  {
    if value == [] && updateByDnsClient && publicIp.Some? && publicIp.value != [] then publicIp.value else value
  }

  /** The outcome of a save: the new table, the next free id, and the id of the record written. */
  datatype SaveOutcome = SaveOutcome(records: map<int, DomainRecord>, nextId: int, savedId: int)

  /** The auto-increment counter is positive and every stored id is positive and below it. */
  ghost predicate IdsBelow(records: map<int, DomainRecord>, nextId: int) {
    0 < nextId && forall id :: id in records ==> 0 < id < nextId
  }

  /**
   * The effect of one save, as a value. A request naming a stored record
   * rewrites that record under the same id and keeps its domain; any other
   * request adds exactly one record, under the next auto-increment id, in the
   * request's domain. Either way the written record carries the request's
   * fields with the fill-in rule applied, and every other record is unchanged.
   */
  function Upsert(records: map<int, DomainRecord>, nextId: int, data: SaveRequest, publicIp: Option<string>): (r: SaveOutcome)
    requires IdsBelow(records, nextId)
    ensures IdsBelow(r.records, r.nextId)
    ensures r.savedId in r.records
    ensures Existing(records, data.record.id).Some? ==>
      r.savedId == data.record.id && r.nextId == nextId && r.records.Keys == records.Keys
      && r.records[r.savedId].domainId == records[data.record.id].domainId
    ensures Existing(records, data.record.id).None? ==>
      r.savedId == nextId && r.nextId == nextId + 1 && r.savedId !in records
      && r.records.Keys == records.Keys + {r.savedId}
      && r.records[r.savedId].domainId == data.domainId
    ensures var saved := r.records[r.savedId];
      && saved.dtype == data.record.recordType && saved.dclass == data.record.recordClass
      && saved.ttl == data.record.ttl && saved.updateByDnsClient == data.record.updateByDnsClient
      && saved.dvalue == FilledValue(data.record.value, data.record.updateByDnsClient, publicIp)
    ensures forall id :: id in records && id != r.savedId ==> id in r.records && r.records[id] == records[id]
  {
    var existing := Existing(records, data.record.id);
    var id := if existing.Some? then data.record.id else nextId;
    var domainId := if existing.Some? then existing.value.domainId else data.domainId;
    var saved := DomainRecord(domainId, data.record.recordType, data.record.recordClass, data.record.ttl,
                              FilledValue(data.record.value, data.record.updateByDnsClient, publicIp),
                              data.record.updateByDnsClient);
    SaveOutcome(records[id := saved], if existing.Some? then nextId else nextId + 1, id)
  }

  /** The domain-record table. */
  class RecordTable {
    var records: map<int, DomainRecord>
    var nextId: int

    ghost predicate Valid()
      reads this
    {
      IdsBelow(records, nextId)
    }

    constructor ()
      ensures Valid() && records == map[] && nextId == 1
    {
      records := map[];
      nextId := 1;
    }

    /**
     * `saveDomainRecord`: pick the stored record the request names or start a
     * new one in the request's domain, copy the request's fields onto it, fill
     * an empty dns-client value with the public IP, and save it. The answer is
     * always status OK.
     */
    method SaveDomainRecord(data: SaveRequest, publicIp: Option<string>) returns (status: nat, savedId: int)
      requires Valid()
      modifies this
      ensures Valid()
      ensures status == STATUS_OK
      ensures var outcome := Upsert(old(records), old(nextId), data, publicIp);
        records == outcome.records && nextId == outcome.nextId && savedId == outcome.savedId
    {
      var found: Option<DomainRecord> := None;
      if data.record.id != 0 {
        if data.record.id in records {
          found := Some(records[data.record.id]);
        }
      }

      var rec: DomainRecord;
      if found.None? {
        rec := DomainRecord(data.domainId, 0, 0, 0, [], false);
        savedId := nextId;
        nextId := nextId + 1;
      } else {
        rec := found.value;
        savedId := data.record.id;
      }

      rec := rec.(dtype := data.record.recordType);
      rec := rec.(dclass := data.record.recordClass);
      rec := rec.(ttl := data.record.ttl);
      rec := rec.(dvalue := data.record.value);
      rec := rec.(updateByDnsClient := data.record.updateByDnsClient);

      if rec.dvalue == [] && rec.updateByDnsClient {
        if publicIp.Some? && publicIp.value != [] {
          rec := rec.(dvalue := publicIp.value);
        }
      }

      records := records[savedId := rec];
      status := STATUS_OK;
    }
  }

  /** When the value is given or the record is not flagged for the dns client, the public IP does not matter. */
  lemma PublicIpNotConsulted(records: map<int, DomainRecord>, nextId: int, data: SaveRequest,
                             ip1: Option<string>, ip2: Option<string>)
    requires IdsBelow(records, nextId)
    requires data.record.value != [] || !data.record.updateByDnsClient
    ensures Upsert(records, nextId, data, ip1) == Upsert(records, nextId, data, ip2)
  {
  }

  /** A non-zero id that names no stored record saves exactly as id 0 does: a new record. */
  lemma UnknownIdActsAsNew(records: map<int, DomainRecord>, nextId: int, data: SaveRequest, publicIp: Option<string>)
    requires IdsBelow(records, nextId)
    requires data.record.id !in records
    ensures Upsert(records, nextId, data, publicIp) == Upsert(records, nextId, data.(record := data.record.(id := 0)), publicIp)
  {
  }

  /** Saving the same request again under the id the first save returned changes nothing. */
  lemma ResaveIsNoOp(records: map<int, DomainRecord>, nextId: int, data: SaveRequest, publicIp: Option<string>)
    requires IdsBelow(records, nextId)
    ensures var first := Upsert(records, nextId, data, publicIp);
      var again := Upsert(first.records, first.nextId, data.(record := data.record.(id := first.savedId)), publicIp);
      again == first
  {
  }
}
