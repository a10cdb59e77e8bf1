/** How long a tunnel lives (Tunnel in internal/app/server/recorder/controller.go, toProtoSession,
    and the client's SetSession and GetHandshake). Instants are nanoseconds, the wire carries
    whole seconds, and the zero time and the second 0 both mean "never". */
module Expiry {
  import opened Prelude

  const SECOND: int := 1_000_000_000

  /** time.Time.Unix: seconds, rounded down. */
  function Unix(t: int): (s: int)
    ensures s * SECOND <= t < (s + 1) * SECOND
  {
    t / SECOND
  }

  /** The session's ExpireAt after a handshake: None is the zero time. `timeout` is
      TunnelConnectionTimeout (0 for none), `stored` what the session held before, `asked` the
      handshake's ExpireAt. */
  function Negotiate(now: int, timeout: int, stored: Option<int>, asked: int): Option<int>
  {
    var own := if timeout != 0 then Some(now + timeout) else stored;
    if asked != 0 && (timeout == 0 || own.None? || Unix(own.value) > asked) then Some(asked * SECOND) else own
  }

  /** The ExpireAt field sent back to the client. */
  function ToProto(expireAt: Option<int>): int {
    if expireAt.None? then 0 else Unix(expireAt.value)
  }

  /** One connection: the clock, the server's timeout, what the session held, and whether the
      session message reached the client. */
  datatype Connection = Connection(now: int, timeout: int, stored: Option<int>, received: bool)

  /** The clock is past the first second of 1970, a timeout is never negative, and a stored
      expiry comes from an earlier one of these handshakes. */
  predicate Plausible(c: Connection) {
    c.now >= SECOND && c.timeout >= 0 && (c.stored.Some? ==> c.stored.value >= SECOND)
  }

  /** The stream's deadline when the client echoes `held`. */
  function Deadline(c: Connection, held: int): Option<int> {
    Negotiate(c.now, c.timeout, c.stored, held)
  }

  /** The expiry second the client holds after the connection. */
  function HeldAfter(c: Connection, held: int): int {
    if c.received then ToProto(Deadline(c, held)) else held
  }

  function HeldAfterAll(cs: seq<Connection>, held: int): int {
    if cs == [] then held else HeldAfterAll(cs[1..], HeldAfter(cs[0], held))
  }

  /** With an expiry in hand a connection never lengthens it, whatever the server's timeout. */
  lemma OneConnection(c: Connection, held: int)
    requires Plausible(c) && held > 0
    ensures Deadline(c, held).Some? && Deadline(c, held).value < (held + 1) * SECOND
    ensures 0 < HeldAfter(c, held) <= held
  {
  }

  /** How long a stream lasts: the server's timeout if the client holds no expiry, what the session
      had stored if there is no timeout either; with an expiry in hand its full second, unless the
      timeout ends before that second is over. */
  lemma DeadlineExactly(c: Connection, held: int)
    ensures held == 0 && c.timeout != 0 ==> Deadline(c, held) == Some(c.now + c.timeout)
    ensures held == 0 && c.timeout == 0 ==> Deadline(c, held) == c.stored
    ensures held != 0 && c.timeout == 0 ==> Deadline(c, held) == Some(held * 1_000_000_000)
    ensures held != 0 && c.timeout != 0 ==>
              Deadline(c, held) == Some(if c.now + c.timeout >= (held + 1) * 1_000_000_000 then held * 1_000_000_000 else c.now + c.timeout)
    ensures !c.received ==> HeldAfter(c, held) == held
    ensures c.received && Deadline(c, held).None? ==> HeldAfter(c, held) == 0
    ensures c.received && Deadline(c, held).Some? ==>
              HeldAfter(c, held) * 1_000_000_000 <= Deadline(c, held).value < (HeldAfter(c, held) + 1) * 1_000_000_000
  {
  }

  /** The server lets every stream last at least up to `second`. */
  predicate Allows(c: Connection, second: int) {
    c.timeout != 0 ==> c.now + c.timeout >= second * SECOND
  }

  lemma OneIsNotCutShort(c: Connection, held: int, second: int)
    requires Plausible(c) && 0 < second <= held && Allows(c, second)
    ensures Deadline(c, held).Some? && Deadline(c, held).value >= second * SECOND && HeldAfter(c, held) >= second
  {
    DeadlineExactly(c, held);
  }

  /** Reconnecting never cuts a tunnel short: up to any second that the client's expiry and the
      timeouts of all servers reach, no stream of the sequence ends and no expiry falls below it. */
  lemma {:induction false} NeverCutShort(cs: seq<Connection>, held: int, second: int, i: nat)
    requires forall j :: 0 <= j < |cs| ==> Plausible(cs[j]) && Allows(cs[j], second)
    requires 0 < second <= held
    ensures HeldAfterAll(cs, held) >= second
    ensures i < |cs| ==> DeadlineOf(cs, held, i).Some? && DeadlineOf(cs, held, i).value >= second * SECOND
    decreases |cs|
  {
    if cs != [] {
      OneIsNotCutShort(cs[0], held, second);
      NeverCutShort(cs[1..], HeldAfter(cs[0], held), second, if i == 0 then 0 else i - 1);
      if i == 0 {
        assert cs[..0] == [];
      } else if i < |cs| {
        assert cs[..i][1..] == cs[1..][..i - 1] && cs[..i][0] == cs[0];
      }
    }
  }

  /** Over any sequence of reconnects, to servers with any timeouts, with messages lost or not,
      the expiry second never grows and never returns to zero. */
  lemma {:induction false} ExpiryOnlyShrinks(cs: seq<Connection>, held: int)
    requires forall i :: 0 <= i < |cs| ==> Plausible(cs[i])
    requires held > 0
    ensures 0 < HeldAfterAll(cs, held) <= held
  {
    if cs != [] {
      OneConnection(cs[0], held);
      ExpiryOnlyShrinks(cs[1..], HeldAfter(cs[0], held));
    }
  }

  /** The deadline of connection i of a sequence. */
  function DeadlineOf(cs: seq<Connection>, held: int, i: nat): Option<int>
    requires i < |cs|
  {
    Deadline(cs[i], HeldAfterAll(cs[..i], held))
  }

  /** Every later stream ends strictly less than one second after the first expiry the client
      was told, although only whole seconds travel. */
  lemma EveryDeadlineBounded(first: Connection, cs: seq<Connection>, i: nat)
    requires Plausible(first) && first.received && Deadline(first, 0).Some?
    requires i < |cs| && forall j :: 0 <= j < |cs| ==> Plausible(cs[j])
    ensures var held := HeldAfter(first, 0);
            && held > 0
            && DeadlineOf(cs, held, i).Some?
            && DeadlineOf(cs, held, i).value < Deadline(first, 0).value + SECOND
  {
    var held := HeldAfter(first, 0);
    ExpiryOnlyShrinks(cs[..i], held);
    OneConnection(cs[i], HeldAfterAll(cs[..i], held));
  }

  /** The bound is tight: truncation to seconds can move a deadline past the first one. */
  lemma DeadlineMayMovePast() returns (first: Connection, second: Connection)
    ensures Plausible(first) && Plausible(second) && first.received
    ensures Deadline(first, 0).Some? && Deadline(second, HeldAfter(first, 0)).Some?
    ensures Deadline(second, HeldAfter(first, 0)).value == Deadline(first, 0).value + SECOND - 1
  {
    first := Connection(SECOND, SECOND, None, true);
    second := Connection(SECOND, 2 * SECOND - 1, None, true);
  }
}
