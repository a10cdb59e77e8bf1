/** The client's record store (internal/app/client/recorder/adt/records.go). */
module RecordStore {
  import opened Messages
  import opened Prelude
  import opened Sequence
  import opened Signal

  /** maxRecords is a uint compared as an int: a negative flag value wraps twice. */
  const INT_LIMIT: nat := 0x8000_0000_0000_0000

  function AsInt(u: nat): int {
    if u < INT_LIMIT then u else u - 2 * INT_LIMIT
  }

  /** The map, the limit and the eviction cursor. */
  datatype Store<R> = Store(records: map<string, R>, maxRecords: nat, lastDeleted: nat)

  function NewStore<R>(maxRecords: nat): Store<R> {
    Store(map[], maxRecords, 0)
  }

  /** AddRecord evicts when the insertion overflows. */
  predicate Evicts<R>(st: Store<R>, clientId: string, r: R) {
    st.maxRecords > 0 && |st.records[clientId := r]| > AsInt(st.maxRecords)
  }

  /** AddRecord: insert, then advance the cursor once and delete whatever it names. */
  function Added<R>(st: Store<R>, clientId: string, r: R): Store<R> {
    var inserted := st.records[clientId := r];
    if Evicts(st, clientId, r) then
      st.(records := inserted - {Decimal(st.lastDeleted + 1)}, lastDeleted := st.lastDeleted + 1)
    else
      st.(records := inserted)
  }

  function Cleared<R>(st: Store<R>): Store<R> {
    st.(records := map[])
  }

  // ----- the object

  datatype Type = DEFAULT | REPLAY | REDIRECT

  /** A client record; `id` is the server's id, "" for replays and after a reconnect. */
  class Record {
    const clientId: string
    const recType: Type
    var id: string
    var step: WireStep
    var serverElapsed: int

    constructor (clientId: string, recType: Type, id: string)
      ensures this.clientId == clientId && this.recType == recType && this.id == id
    {
      this.clientId, this.recType, this.id := clientId, recType, id;
      this.step, this.serverElapsed := REQUEST, 0;
    }
  }

  class Records {
    var records: map<string, Record>
    const maxRecords: nat
    var lastDeleted: nat
    const signal: Signal

    ghost function State(): Store<Record>
      reads this
    {
      Store(records, maxRecords, lastDeleted)
    }

    constructor (maxRecords: nat)
      ensures State() == NewStore(maxRecords)
      ensures fresh(signal) && fresh(signal.signalChan) && !signal.signalChan.closed
    {
      this.maxRecords := maxRecords;
      signal := new Signal();
      records, lastDeleted := map[], 0;
    }

    method AddRecord(rec: Record)
      modifies this
      ensures State() == Added(old(State()), rec.clientId, rec)
      ensures var inserted := old(records)[rec.clientId := rec];
              var limit := if maxRecords < 0x8000_0000_0000_0000 then maxRecords else maxRecords - 0x1_0000_0000_0000_0000;
              if maxRecords > 0 && |inserted| > limit then
                records == inserted - {Decimal(old(lastDeleted) + 1)} && lastDeleted == old(lastDeleted) + 1
              else
                records == inserted && lastDeleted == old(lastDeleted)
    {
      records := records[rec.clientId := rec];
      if maxRecords > 0 && |records| > AsInt(maxRecords) {
        lastDeleted := lastDeleted + 1;
        records := records - {Decimal(lastDeleted)};
      }
    }

    /** Forgets every record, leaves the cursor where it is and wakes whoever waits for a clear. */
    method RemoveAll()
      requires !signal.signalChan.closed
      modifies `records, signal, signal.signalChan
      ensures State() == Cleared(old(State())) && records == map[]
      ensures old(signal.signalChan).closed && fresh(signal.signalChan) && !signal.signalChan.closed
    {
      records := map[];
      signal.Send();
    }

    /** Scans the map in any order. */
    method GetByServerId(id: string) returns (r: Option<Record>)
      ensures r.None? <==> forall key :: key in records ==> records[key].id != id
      ensures r.Some? ==> r.value in records.Values && r.value.id == id
    {
      var rest := records.Keys;
      while rest != {}
        invariant rest <= records.Keys
        invariant forall key :: key in records && key !in rest ==> records[key].id != id
      {
        var key :| key in rest;
        if records[key].id == id {
          return Some(records[key]);
        }
        rest := rest - {key};
      }
      r := None;
    }

    /** Blanks the server id of every record, in any order, and touches nothing else. */
    method ResetServerIds()
      modifies (set key | key in records :: records[key])`id
      ensures State() == old(State())
      ensures forall key :: key in records ==> records[key].id == ""
    {
      var rest := records.Keys;
      while rest != {}
        invariant rest <= records.Keys
        invariant forall key :: key in records && key !in rest ==> records[key].id == ""
      {
        var key :| key in rest;
        records[key].id := "";
        rest := rest - {key};
      }
    }

    /** handleServerElapsed: the record found by server id gets the server's time. */
    method SetServerElapsed(id: string, serverElapsed: int) returns (r: Option<Record>)
      modifies (set key | key in records :: records[key])`serverElapsed, (set key | key in records :: records[key])`step
      ensures State() == old(State())
      ensures r.None? <==> forall key :: key in records ==> records[key].id != id
      ensures r.Some? ==> r.value in records.Values && r.value.id == id
      ensures r.Some? ==> r.value.serverElapsed == serverElapsed && r.value.step == POST_RESPONSE
      ensures forall key :: key in records && r != Some(records[key]) ==>
                records[key].serverElapsed == old(records[key].serverElapsed) && records[key].step == old(records[key].step)
    {
      r := GetByServerId(id);
      if r.Some? {
        r.value.step := POST_RESPONSE;
        r.value.serverElapsed := serverElapsed;
      }
    }
  }
}
