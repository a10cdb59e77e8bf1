/** The stores of the clients stay apart, and a record without a server id stays as it is. */
module ClientStores {
  import opened Prelude
  import opened Protocol
  import opened ProtocolInvariant
  import opened ProtocolSteps
  import opened ProtocolTheorems
  import opened Sequence

  /** The client whose records a step may change: the one that opens a stream, the one that handles
      an elapsed-time message, the owner of a record that is evicted. */
  function Actor(s: State, a: Action): Option<ClientId>
    requires Enabled(s, a)
  {
    match a
    case OpenStream(_, _, c) => Some(c)
    case Deliver(ApplyElapsed(k, _)) => Some(s.streams[s.notes[k].stream].client)
    case Deliver(Forget(n)) => Some(s.store[n].client)
    case _ => None
  }

  /** No step touches another client's records, and opening a stream blanks the server ids of its
      own client's and changes nothing else about them. */
  lemma StoresAreApart(s: State, a: Action, n: StoreSlot)
    requires Enabled(s, a) && n in s.store
    ensures Actor(s, a) != Some(s.store[n].client) ==> n in Apply(s, a).store && Apply(s, a).store[n] == s.store[n]
    ensures a.OpenStream? && a.c == s.store[n].client ==>
              n in Apply(s, a).store && Apply(s, a).store[n] == s.store[n].(serverId := "")
  {
    match a
    case Deliver(step) => ClientSpares(s, step, n);
    case _ =>
  }

  lemma ClientSpares(s: State, step: ClientStep, n: StoreSlot)
    requires ClientEnabled(s, step) && n in s.store
    ensures Actor(s, Deliver(step)) != Some(s.store[n].client) ==>
              n in ApplyClient(s, step).store && ApplyClient(s, step).store[n] == s.store[n]
  {
  }

  lemma NoteIdNotBlank(s: State, k: TaskId)
    requires Inv(s) && k in s.notes
    ensures s.notes[k].msg.id != ""
  {
    var h := s.notes[k].msg.origin;
    assert At(s, Post(h), AtNote(k));
    assert PlaceOk(s, Post(h), AtNote(k));
    assert HandlerOk(s, h);
    DecimalIsCanonical(s.handlers[h].number);
  }

  lemma BlankStep(s: State, a: Action, n: StoreSlot)
    requires Inv(s) && Enabled(s, a) && n in s.store && s.store[n].serverId == "" && a != Deliver(Forget(n))
    ensures n in Apply(s, a).store && Apply(s, a).store[n] == s.store[n]
  {
    StoresAreApart(s, a, n);
    if a.Deliver? {
      if a.clientStep.ApplyElapsed? { NoteIdNotBlank(s, a.clientStep.k); }
      BlankClientStep(s, a.clientStep, n);
    }
  }

  lemma BlankClientStep(s: State, step: ClientStep, n: StoreSlot)
    requires ClientEnabled(s, step) && n in s.store && s.store[n].serverId == "" && step != Forget(n)
    requires step.ApplyElapsed? ==> s.notes[step.k].msg.id != ""
    ensures n in ApplyClient(s, step).store && ApplyClient(s, step).store[n] == s.store[n]
  {
  }

  lemma {:induction false} BlankStays(s: State, acts: seq<Action>, s': State, n: StoreSlot)
    requires Inv(s) && Runs(s, acts, s') && n in s.store && s.store[n].serverId == "" && Deliver(Forget(n)) !in acts
    ensures n in s'.store && s'.store[n] == s.store[n]
    decreases |acts|
  {
    if acts != [] {
      BlankStep(s, acts[0], n);
      StepKeepsInv(s, acts[0]);
      BlankStays(Apply(s, acts[0]), acts[1..], s', n);
    }
  }

  /** A replayed request is stored under its client with neither server id nor time, and no message
      of any server ever changes that record: it stays so until it is evicted. */
  lemma ReplayStaysUntouched(prefix: string, before: seq<Action>, s: State, c: ClientId, n: StoreSlot, acts: seq<Action>, s': State)
    requires Reached(prefix, before, s) && Enabled(s, Deliver(Replay(c, n)))
    requires Runs(Apply(s, Deliver(Replay(c, n))), acts, s') && Deliver(Forget(n)) !in acts
    ensures n in s'.store && s'.store[n] == StoredRecord(c, "", None, None)
  {
    ReachedHasInv(prefix, before, s);
    StepKeepsInv(s, Deliver(Replay(c, n)));
    BlankStays(Apply(s, Deliver(Replay(c, n))), acts, s', n);
  }
}
