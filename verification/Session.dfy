/** The server session object (internal/app/server/recorder/adt/session.go, record.go). The
    effect of each method on the id counter, the table and the channel is given by the
    functions of SessionTable, the same that drive the protocol's steps. */
module Session {
  import opened Expiry
  import opened Messages
  import opened Prelude
  import opened Sequence
  import opened SessionTable
  import opened Signal

  /** A server record: shared by its handler, the table, the channel and the receiver. */
  class Record {
    var id: string
    var step: WireStep
    const request: Request
    var response: Option<Response>
    var serverElapsed: int
    const onResponse: Signal

    constructor (request: Request)
      ensures fresh(onResponse) && fresh(onResponse.signalChan) && !onResponse.signalChan.closed
      ensures this.request == request && step == REQUEST && response == None
    {
      this.request := request;
      onResponse := new Signal();
      id, step, response, serverElapsed := "", REQUEST, None, 0;
    }
  }

  /** What travels on the channel: the record itself, or the thin clone of SendServerElapsed. */
  datatype Message = Pointer(record: Record) | ElapsedOf(id: string, millis: int)

  datatype Timer = Stopped | Armed(duration: int)

  /** time.NewTimer(time.Minute). */
  const MINUTE: int := 60 * SECOND

  class Session {
    const id: string
    const bearer: string
    var ipAddress: string
    const counter: Seq
    var records: map<string, Option<Record>>
    var recordChannel: seq<Message>
    var channelClosed: bool
    var idleTimeout: Timer
    var isIdle: bool
    var expireAt: Option<int>

    ghost predicate Valid()
      reads this, counter
    {
      counter.Valid()
    }

    ghost function Table(): Table<Message, Record>
      reads this, counter
    {
      SessionTable.Table(counter.calls, records, recordChannel, channelClosed)
    }

    constructor (clientId: string, bearer: string)
      ensures Valid() && fresh(counter)
      ensures id == clientId && this.bearer == bearer && Table() == NewTable()
      ensures !isIdle && idleTimeout.Stopped? && expireAt == None && ipAddress == ""
    {
      id, this.bearer, ipAddress := clientId, bearer, "";
      counter := new Seq();
      records, recordChannel, channelClosed := map[], [], false;
      idleTimeout, isIdle, expireAt := Armed(MINUTE), false, None;
      new;
      var stopped := StopIdleTimeout();
      assert stopped;
    }

    /** Numbers the record, lists it under its id and sends the pointer. The Go send blocks
        until there is a free slot; this is the state when it goes through. */
    method AddRecordAndPublish(rec: Record, prefix: string) returns (recordId: string)
      requires Valid() && !channelClosed && |recordChannel| < 32
      modifies `records, `recordChannel, counter, rec`id
      ensures Valid()
      ensures recordId == rec.id == NextId(old(Table()), prefix)
      ensures Table() == Send(Put(Number(old(Table())), recordId, Some(rec)), Pointer(rec))
      ensures recordId == prefix + Decimal(After(old(counter.calls) + 1)) && counter.calls == old(counter.calls) + 1
      ensures records == old(records)[recordId := Some(rec)] && recordChannel == old(recordChannel) + [Pointer(rec)]
    {
      var n := counter.NextString();
      rec.id := prefix + n;
      PutRecord(rec.id, Some(rec));
      recordChannel := recordChannel + [Pointer(rec)];
      recordId := rec.id;
    }

    method RemoveRecord(recordId: string) returns (removed: Option<Record>)
      requires Valid()
      modifies `records
      ensures Valid()
      ensures removed == Lookup(old(Table()), recordId)
      ensures Table() == Put(old(Table()), recordId, None)
      ensures removed == (if recordId in old(records) then old(records)[recordId] else None)
      ensures records == old(records)[recordId := None]
    {
      removed := GetRecord(recordId);
      PutRecord(recordId, None);
    }

    method SendServerElapsed(rec: Record)
      requires Valid() && !channelClosed && |recordChannel| < 32
      modifies `recordChannel
      ensures Valid()
      ensures Table() == Send(old(Table()), ElapsedOf(rec.id, rec.serverElapsed))
      ensures recordChannel == old(recordChannel) + [ElapsedOf(rec.id, rec.serverElapsed)]
    {
      recordChannel := recordChannel + [ElapsedOf(rec.id, rec.serverElapsed)];
    }

    /** The objects a reply to `recordId` may touch. */
    ghost function Touched(recordId: string): set<object>
      reads this, counter
      reads match Lookup(Table(), recordId) case Some(r) => {r.onResponse} case None => {}
    {
      match Lookup(Table(), recordId)
      case Some(r) => {r, r.onResponse.signalChan}
      case None => {}
    }

    /** A reply for an unknown or removed id changes nothing; otherwise it fills the record
        and closes its signal. */
    method SetRecordResponse(recordId: string, response: Response)
      requires Valid()
      requires var r := Lookup(Table(), recordId); r.Some? ==> !r.value.onResponse.signalChan.closed
      modifies Touched(recordId)
      ensures Valid() && Table() == old(Table())
      ensures var r := Lookup(Table(), recordId); r.Some? ==>
                && r.value.step == RESPONSE && r.value.response == Some(response)
                && r.value.id == old(r.value.id) && r.value.serverElapsed == old(r.value.serverElapsed)
                && r.value.onResponse.signalChan.closed
    {
      var record := GetRecord(recordId);
      if record.None? {
        return;
      }
      record.value.step := RESPONSE;
      record.value.response := Some(response);
      record.value.onResponse.SendLast();
    }

    /** True if the timer was running. */
    method SetIdleTimeout(duration: int) returns (wasActive: bool)
      modifies `isIdle, `idleTimeout
      ensures isIdle && idleTimeout == Armed(duration) && wasActive == old(idleTimeout.Armed?)
    {
      isIdle := true;
      wasActive := idleTimeout.Armed?;
      idleTimeout := Armed(duration);
    }

    method StopIdleTimeout() returns (wasActive: bool)
      modifies `isIdle, `idleTimeout
      ensures !isIdle && idleTimeout == Stopped && wasActive == old(idleTimeout.Armed?)
    {
      isIdle := false;
      wasActive := idleTimeout.Armed?;
      idleTimeout := Stopped;
    }

    method GetRecord(recordId: string) returns (record: Option<Record>)
      requires Valid()
      ensures record == Lookup(Table(), recordId)
    {
      record := if recordId in records then records[recordId] else None;
    }

    method PutRecord(recordId: string, record: Option<Record>)
      requires Valid()
      modifies `records
      ensures Valid() && Table() == Put(old(Table()), recordId, record)
    {
      records := records[recordId := record];
    }

    /** Closing the channel twice is a Go panic. */
    method Close()
      requires Valid() && !channelClosed
      modifies `idleTimeout, `channelClosed
      ensures Valid() && idleTimeout == Stopped
      ensures Table() == SessionTable.Close(old(Table())) && channelClosed
    {
      idleTimeout := Stopped;
      channelClosed := true;
    }

    method SetExpireAt(now: int, duration: int)
      modifies `expireAt
      ensures expireAt == Some(now + duration)
    {
      expireAt := Some(now + duration);
    }

    method SetExpireAtTime(second: int)
      modifies `expireAt
      ensures expireAt == Some(second * SECOND)
    {
      expireAt := Some(second * SECOND);
    }
  }
}
