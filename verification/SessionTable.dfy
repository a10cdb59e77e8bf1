/** The part of a server session that requests share: the id counter, the table of
    live records with its nil tombstones, and the bounded record channel. These
    functions specify both the Session class and the steps of the tunnel protocol. */
module SessionTable {
  import opened Prelude
  import opened Sequence

  /** make(chan *tunnel.Record, 32). */
  const CHANNEL_CAPACITY: nat := 32

  /** `issued` counts the ids given out so far; None in the table is a nil entry. */
  datatype Table<Q, R> = Table(issued: nat, records: map<string, Option<R>>, channel: seq<Q>, closed: bool)

  function NewTable<Q, R>(): Table<Q, R> {
    Table(0, map[], [], false)
  }

  /** The id the next NextString call produces. */
  function NextId<Q, R>(t: Table<Q, R>, prefix: string): string {
    prefix + Decimal(After(t.issued + 1))
  }

  function Lookup<Q, R>(t: Table<Q, R>, id: string): Option<R> {
    if id in t.records then t.records[id] else None
  }

  function Number<Q, R>(t: Table<Q, R>): Table<Q, R> {
    t.(issued := t.issued + 1)
  }

  function Put<Q, R>(t: Table<Q, R>, id: string, r: Option<R>): Table<Q, R> {
    t.(records := t.records[id := r])
  }

  /** A send on the channel goes through only when it is open and has a free slot. */
  predicate CanSend<Q, R>(t: Table<Q, R>) {
    !t.closed && |t.channel| < CHANNEL_CAPACITY
  }

  function Send<Q, R>(t: Table<Q, R>, q: Q): Table<Q, R> {
    t.(channel := t.channel + [q])
  }

  /** A closed channel can still be drained. */
  function Drain<Q, R>(t: Table<Q, R>): Table<Q, R>
    requires t.channel != []
  {
    t.(channel := t.channel[1..])
  }

  function Close<Q, R>(t: Table<Q, R>): Table<Q, R> {
    t.(closed := true)
  }
}
