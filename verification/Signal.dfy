/** The one-shot wakeup of pkg/signal/signal.go. */
module Signal {

  /** A Go channel used only for closing; a receive on it returns once it is closed. */
  class Latch {
    var closed: bool

    constructor ()
      ensures !closed
    {
      closed := false;
    }

    /** close(ch): closing twice is a Go panic, hence the precondition. */
    method Close()
      requires !closed
      modifies this
      ensures closed
    {
      closed := true;
    }
  }

  class Signal {
    var signalChan: Latch

    constructor ()
      ensures fresh(signalChan) && !signalChan.closed
    {
      signalChan := new Latch();
    }

    /** Wakes the present waiters and starts a new round. */
    method Send()
      requires !signalChan.closed
      modifies this, signalChan
      ensures old(signalChan).closed
      ensures fresh(signalChan) && !signalChan.closed
    {
      signalChan.Close();
      signalChan := new Latch();
    }

    /** Wakes present and future waiters; the signal stays closed. */
    method SendLast()
      requires !signalChan.closed
      modifies signalChan
      ensures signalChan.closed
    {
      signalChan.Close();
    }

    method Receive() returns (l: Latch)
      ensures l == signalChan
    {
      l := signalChan;
    }
  }

  /** Receive before or after SendLast: the waiter is woken either way. */
  method ReceiveAroundSendLast(sig: Signal, receiveFirst: bool) returns (l: Latch)
    requires !sig.signalChan.closed
    modifies sig.signalChan
    ensures l.closed
  {
    if receiveFirst {
      l := sig.Receive();
      sig.SendLast();
    } else {
      sig.SendLast();
      l := sig.Receive();
    }
  }

  /** With Send instead, exactly the waiters that received first are woken. */
  method ReceiveAroundSend(sig: Signal, receiveFirst: bool) returns (l: Latch)
    requires !sig.signalChan.closed
    modifies sig, sig.signalChan
    ensures l.closed <==> receiveFirst
  {
    if receiveFirst {
      l := sig.Receive();
      sig.Send();
    } else {
      sig.Send();
      l := sig.Receive();
    }
  }
}
