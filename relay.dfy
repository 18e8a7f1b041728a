/** The relay loop both hops run once both sockets are up (`_read_write`):
    every `tick` seconds `select` reports which of the two sockets are
    readable or in error; each readable socket is read once and whatever it
    gave is sent to the other socket. An `idling` counter counts passes that
    forwarded nothing and ends the relay when it reaches `timeout / tick`.

    The sockets are not modelled as objects: what `select` and `recv` return
    is an input trace of passes, and what the loop sends is one output string
    per direction. */
module Relay {

  import opened Wire

  /** The two sockets of a relay pair: the one the hop accepted (the backhaul
      connection on the remote hop, the browser's connection on the local hop)
      and the one it opened (the target, or the backhaul to the remote hop). */
  datatype End = Inbound | Outbound

  /** The socket that data read from `e` is sent to. */
  function Peer(e: End): End
  {
    if e == Inbound then Outbound else Inbound
  }

  /** One `recv(buflen)` on a socket `select` reported readable; empty data
      means the peer has closed its side. */
  datatype Read = Read(from: End, data: string)

  /** One pass of the loop as the environment plays it: either `select`
      returned (with `error` set when its error list is non-empty) and each
      readable socket was read, or one of the socket calls of the pass raised
      after the reads `before` had been read and sent on (none when `select`
      itself raised). */
  datatype Poll =
    | Ready(error: bool, received: seq<Read>)
    | Fault(before: seq<Read>, message: string)

  /** Why the loop stopped. TraceEnded: the trace has no further passes (the
      relay would still be running). */
  datatype Exit = ErrorSignalled | IdleTimeout | Raised(message: string) | TraceEnded

  /** What one run of the loop did: why it stopped, how many passes it ran,
      and everything it sent to each socket. */
  datatype Outcome = Outcome(exit: Exit, passes: nat, toInbound: string, toOutbound: string)

  /** Some read of the pass returned data. */
  predicate Carries(received: seq<Read>)
  {
    exists j :: 0 <= j < |received| && received[j].data != []
  }

  /** The reads of pass `p` whose data was sent on: none when `select`
      signalled an error, every read otherwise, and those completed before
      the raise when a call of the pass raised. */
  function PassReads(p: Poll): seq<Read>
  {
    match p
    case Ready(error, received) => if error then [] else received
    case Fault(before, _) => before
  }

  /** The pass sent something to a socket. */
  predicate Forwards(p: Poll)
  {
    Carries(PassReads(p))
  }

  /** A pass in which `select` reported nothing wrong and no read returned
      data: it timed out, or every readable socket was already closed. */
  predicate Quiet(p: Poll)
  {
    p.Ready? && !p.error && !Carries(p.received)
  }

  /** Reference definition of `idling`: how many passes at the end of `s`
      forwarded nothing. */
  function IdleRun(s: seq<Poll>): nat
  {
    if s == [] then 0
    else if Forwards(s[|s| - 1]) then 0
    else IdleRun(s[..|s| - 1]) + 1
  }

  /** The data of the received from socket `from`, in order. */
  function Delivered(received: seq<Read>, from: End): string
  {
    if received == [] then ""
    else
      var last := received[|received| - 1];
      Delivered(received[..|received| - 1], from) + (if last.from == from then last.data else "")
  }

  /** What pass `p` read from socket `from` and sent on. */
  function PassData(p: Poll, from: End): string
  {
    Delivered(PassReads(p), from)
  }

  /** Everything read from `from` during the passes `s`, in order. */
  function Forwarded(s: seq<Poll>, from: End): string
  {
    if s == [] then "" else Forwarded(s[..|s| - 1], from) + PassData(s[|s| - 1], from)
  }

  /** Pass `k` ends the loop when the limit on idle passes is `max`. */
  predicate HaltsAt(trace: seq<Poll>, k: nat, max: nat)
    requires k < |trace|
  {
    trace[k].Fault? || trace[k].error || IdleRun(trace[..k + 1]) == max
  }

  /** The reason a halting pass gives: a raise beats the error list, and both
      beat the idle count (the order of the checks in the loop body). */
  function ExitOf(p: Poll): Exit
  {
    match p
    case Fault(_, m) => Raised(m)
    case Ready(error, _) => if error then ErrorSignalled else IdleTimeout
  }

  /** The number of passes the loop runs when started at pass `from`: up to
      and including the first pass that halts it, or the whole trace. */
  function Passes(trace: seq<Poll>, max: nat, from: nat): (n: nat)
    requires from <= |trace|
    ensures from <= n <= |trace|
    ensures forall k :: from <= k < n - 1 ==> !HaltsAt(trace, k, max)
    ensures n == |trace| || (from < n && HaltsAt(trace, n - 1, max))
    ensures from < |trace| ==> from < n
    decreases |trace| - from
  {
    if from == |trace| then from
    else if HaltsAt(trace, from, max) then from + 1
    else Passes(trace, max, from + 1)
  }

  /** The specification of the relay loop with limit `max` on a trace. */
  function Relay(trace: seq<Poll>, max: nat): Outcome
  {
    var n := Passes(trace, max, 0);
    Outcome(if 0 < n && HaltsAt(trace, n - 1, max) then ExitOf(trace[n - 1]) else TraceEnded,
            n, Forwarded(trace[..n], Outbound), Forwarded(trace[..n], Inbound))
  }

  /** No pass before `i` halts the loop. */
  predicate Running(trace: seq<Poll>, max: nat, i: nat)
    requires i <= |trace|
  {
    forall k :: 0 <= k < i ==> !HaltsAt(trace, k, max)
  }

  /** `_read_write(timeout, tick)`: `timeout_max = timeout / tick`, then the
      `while True` loop, run over the passes of `trace`. */
  method ReadWrite(trace: seq<Poll>, timeout: nat, tick: nat) returns (r: Outcome)
    requires tick > 0
    ensures r == Relay(trace, timeout / tick)
  {
    var max := timeout / tick;
    var idling := 0;
    var toInbound, toOutbound := "", "";
    var i := 0;
    while i < |trace|
      invariant 0 <= i <= |trace|
      invariant idling == IdleRun(trace[..i])
      invariant toInbound == Forwarded(trace[..i], Outbound)
      invariant toOutbound == Forwarded(trace[..i], Inbound)
      invariant Running(trace, max, i)
    {
      var stop;
      stop, idling, toInbound, toOutbound := OnePass(trace[i], max, idling, toInbound, toOutbound);
      NextPass(trace, i);
      assert stop.Some? <==> HaltsAt(trace, i, max);
      if stop.Some? {
        PassesIs(trace, max, i + 1);
        return Outcome(stop.value, i + 1, toInbound, toOutbound);
      }
      i := i + 1;
    }
    PassesIs(trace, max, i);
    r := Outcome(TraceEnded, i, toInbound, toOutbound);
  }

  /** The body of the `while True` loop for one pass `p`: count the pass,
      stop on an error; forward what was read, up to a raise that stops the
      loop; stop when the counter reaches `max`. */
  method OnePass(p: Poll, max: nat, idling: nat, toInbound: string, toOutbound: string)
    returns (stop: Option<Exit>, idling': nat, toInbound': string, toOutbound': string)
    ensures idling' == if Forwards(p) then 0 else idling + 1
    ensures toInbound' == toInbound + PassData(p, Outbound)
    ensures toOutbound' == toOutbound + PassData(p, Inbound)
    ensures stop.Some? <==> p.Fault? || p.error || idling' == max
    ensures stop.Some? ==> stop.value == ExitOf(p)
  {
    idling' := idling + 1;
    match p {
      case Fault(before, m) =>
        idling', toInbound', toOutbound' := Drain(before, idling', toInbound, toOutbound);
        stop := Some(Raised(m));
      case Ready(error, received) =>
        if error {
          return Some(ErrorSignalled), idling', toInbound, toOutbound;
        }
        idling', toInbound', toOutbound' := Drain(received, idling', toInbound, toOutbound);
        stop := if idling' == max then Some(IdleTimeout) else None;
    }
  }

  /** The `for incoming in recv` loop of one pass: each chunk goes to the
      other socket, and a non-empty one resets the idle counter. */
  method Drain(received: seq<Read>, idling: nat, toInbound: string, toOutbound: string)
    returns (idling': nat, toInbound': string, toOutbound': string)
    ensures idling' == if Carries(received) then 0 else idling
    ensures toInbound' == toInbound + Delivered(received, Outbound)
    ensures toOutbound' == toOutbound + Delivered(received, Inbound)
  {
    idling', toInbound', toOutbound' := idling, toInbound, toOutbound;
    var j := 0;
    while j < |received|
      invariant 0 <= j <= |received|
      invariant toInbound' == toInbound + Delivered(received[..j], Outbound)
      invariant toOutbound' == toOutbound + Delivered(received[..j], Inbound)
      invariant idling' == if Carries(received[..j]) then 0 else idling
    {
      assert received[..j + 1][..j] == received[..j];
      var data := received[j].data;
      if data != [] {
        if received[j].from == Inbound {
          toOutbound' := toOutbound' + data;
        } else {
          toInbound' := toInbound' + data;
        }
        idling' := 0;
      }
      assert Carries(received[..j + 1]) <==> Carries(received[..j]) || data != [] by {
        assert received[..j + 1][j] == received[j];
        assert forall k :: 0 <= k < j ==> received[..j + 1][k] == received[..j][k];
      }
      j := j + 1;
    }
    assert received[..j] == received;
  }

  /** How the idle counter and the output grow by one pass. */
  lemma NextPass(trace: seq<Poll>, i: nat)
    requires i < |trace|
    ensures IdleRun(trace[..i + 1]) == if Forwards(trace[i]) then 0 else IdleRun(trace[..i]) + 1
    ensures forall e :: Forwarded(trace[..i + 1], e) == Forwarded(trace[..i], e) + PassData(trace[i], e)
  {
    assert trace[..i + 1][..i] == trace[..i];
  }

  /** Passes is pinned down by where the first halting pass is. */
  lemma PassesIs(trace: seq<Poll>, max: nat, n: nat)
    requires n <= |trace|
    requires forall k :: 0 <= k < n - 1 ==> !HaltsAt(trace, k, max)
    requires n == |trace| || (0 < n && HaltsAt(trace, n - 1, max))
    ensures Passes(trace, max, 0) == n
  {
    var m := Passes(trace, max, 0);
  }

  // ---------------------------------------------------------------------
  // What the loop promises

  /** The idle counter counts exactly the trailing passes that forwarded
      nothing: they are all quiet, and the pass before them (if any) forwarded. */
  lemma {:induction false} IdleRunSpan(s: seq<Poll>)
    ensures IdleRun(s) <= |s|
    ensures forall k :: |s| - IdleRun(s) <= k < |s| ==> !Forwards(s[k])
    ensures IdleRun(s) < |s| ==> Forwards(s[|s| - IdleRun(s) - 1])
  {
    if s != [] && !Forwards(s[|s| - 1]) {
      var t := s[..|s| - 1];
      IdleRunSpan(t);
      assert forall k :: 0 <= k < |t| ==> t[k] == s[k];
    }
  }

  /** An idle timeout happens after exactly `max` consecutive passes in which
      nothing was forwarded and `select` reported no error, right after a pass
      that forwarded something (or at the start); no earlier pass raised or
      signalled an error. */
  lemma IdleTimeoutIsExact(trace: seq<Poll>, max: nat)
    requires max >= 1
    requires Relay(trace, max).exit == IdleTimeout
    ensures var n := Relay(trace, max).passes;
      && max <= n
      && (forall k :: n - max <= k < n ==> Quiet(trace[k]))
      && (n == max || Forwards(trace[n - max - 1]))
      && (forall k :: 0 <= k < n ==> trace[k].Ready? && !trace[k].error)
  {
    var n := Passes(trace, max, 0);
    assert 0 < n && HaltsAt(trace, n - 1, max);
    var s := trace[..n];
    IdleRunSpan(s);
    assert IdleRun(s) == max;
    forall k | 0 <= k < n ensures trace[k].Ready? && !trace[k].error {
      if k < n - 1 {
        assert !HaltsAt(trace, k, max);
      }
    }
    assert forall k :: 0 <= k < n ==> s[k] == trace[k];
  }

  /** A quiet pass reads no data. */
  lemma {:induction false} QuietDeliversNothing(received: seq<Read>, from: End)
    requires !Carries(received)
    ensures Delivered(received, from) == ""
  {
    if received != [] {
      var init := received[..|received| - 1];
      assert forall k :: 0 <= k < |init| ==> init[k] == received[k];
      QuietDeliversNothing(init, from);
    }
  }

  /** A pass whose reads all came back empty (the peers have closed) or that
      read nothing at all neither resets the idle counter nor sends anything. */
  lemma EmptyReadsDoNotReset(s: seq<Poll>, p: Poll)
    requires Quiet(p)
    ensures IdleRun(s + [p]) == IdleRun(s) + 1
    ensures forall e :: Forwarded(s + [p], e) == Forwarded(s, e)
  {
    assert (s + [p])[..|s|] == s;
    forall e ensures PassData(p, e) == "" {
      QuietDeliversNothing(p.received, e);
    }
  }

  lemma {:induction false} QuietPrefix(trace: seq<Poll>, k: nat)
    requires k <= |trace|
    requires forall j :: 0 <= j < k ==> Quiet(trace[j])
    ensures IdleRun(trace[..k]) == k
    ensures forall e :: Forwarded(trace[..k], e) == ""
  {
    if k > 0 {
      QuietPrefix(trace, k - 1);
      assert trace[..k] == trace[..k - 1] + [trace[k - 1]];
      EmptyReadsDoNotReset(trace[..k - 1], trace[k - 1]);
    }
  }

  /** A run of `max` quiet passes at the start ends the relay by idle timeout
      after exactly those passes, having sent nothing either way. */
  lemma QuietPassesTimeOut(trace: seq<Poll>, max: nat)
    requires 1 <= max <= |trace|
    requires forall k :: 0 <= k < max ==> Quiet(trace[k])
    ensures Relay(trace, max) == Outcome(IdleTimeout, max, "", "")
  {
    forall k | 0 <= k < max ensures HaltsAt(trace, k, max) <==> k == max - 1 {
      QuietPrefix(trace, k + 1);
    }
    QuietPrefix(trace, max);
    PassesIs(trace, max, max);
  }

  lemma {:induction false} DeliveredGrows(received: seq<Read>, a: nat, b: nat, from: End)
    requires a <= b <= |received|
    ensures Delivered(received[..a], from) <= Delivered(received[..b], from)
    decreases b
  {
    if a < b {
      DeliveredGrows(received, a, b - 1, from);
      assert received[..b][..b - 1] == received[..b - 1];
    }
  }

  lemma {:induction false} ForwardedGrows(s: seq<Poll>, a: nat, b: nat, from: End)
    requires a <= b <= |s|
    ensures Forwarded(s[..a], from) <= Forwarded(s[..b], from)
    decreases b
  {
    if a < b {
      ForwardedGrows(s, a, b - 1, from);
      assert s[..b][..b - 1] == s[..b - 1];
    }
  }

  /** What the relay sent to socket `e`. */
  function SentTo(r: Outcome, e: End): string
  {
    if e == Inbound then r.toInbound else r.toOutbound
  }

  /** Every chunk read during the relay reaches the other socket unmodified,
      at the position given by everything read from its socket before it:
      bytes are neither dropped, altered nor reordered within a direction. */
  lemma ChunkRelayedIntact(trace: seq<Poll>, max: nat, k: nat, j: nat)
    requires k < Relay(trace, max).passes
    requires j < |PassReads(trace[k])|
    ensures var chunk := PassReads(trace[k])[j];
      var out := SentTo(Relay(trace, max), Peer(chunk.from));
      var off := |Forwarded(trace[..k], chunk.from)| + |Delivered(PassReads(trace[k])[..j], chunk.from)|;
      off + |chunk.data| <= |out| && out[off..off + |chunk.data|] == chunk.data
  {
    var r := Relay(trace, max);
    var e := PassReads(trace[k])[j].from;
    assert SentTo(r, Peer(e)) == Forwarded(trace[..r.passes], e);
    ChunkForwarded(trace, r.passes, k, j);
  }

  lemma ChunkForwarded(trace: seq<Poll>, n: nat, k: nat, j: nat)
    requires k < n <= |trace|
    requires j < |PassReads(trace[k])|
    ensures var chunk := PassReads(trace[k])[j];
      var out := Forwarded(trace[..n], chunk.from);
      var off := |Forwarded(trace[..k], chunk.from)| + |Delivered(PassReads(trace[k])[..j], chunk.from)|;
      off + |chunk.data| <= |out| && out[off..off + |chunk.data|] == chunk.data
  {
    var received := PassReads(trace[k]);
    var e := received[j].from;
    PassForwarded(trace, k, e);
    ForwardedGrows(trace, k + 1, n, e);
    DeliveredHasChunk(received, j);
    ChunkInside(Forwarded(trace[..k], e), Delivered(received, e), Forwarded(trace[..k + 1], e),
                Forwarded(trace[..n], e), Delivered(received[..j], e), received[j].data);
  }

  /** A pass adds what it delivered to the output. */
  lemma PassForwarded(trace: seq<Poll>, k: nat, e: End)
    requires k < |trace|
    ensures Forwarded(trace[..k + 1], e) == Forwarded(trace[..k], e) + Delivered(PassReads(trace[k]), e)
  {
    NextPass(trace, k);
  }

  /** The `j`-th read's data follows everything delivered before it. */
  lemma DeliveredHasChunk(received: seq<Read>, j: nat)
    requires j < |received|
    ensures Delivered(received[..j], received[j].from) + received[j].data <= Delivered(received, received[j].from)
  {
    DeliveredGrows(received, j + 1, |received|, received[j].from);
    assert received[..|received|] == received;
    assert received[..j + 1][..j] == received[..j];
  }

  /** A chunk inside a delivery inside a prefix of the output sits at the
      offset of everything written before it. */
  lemma ChunkInside(before: string, delivered: string, upTo: string, all: string, earlier: string, data: string)
    requires upTo == before + delivered && upTo <= all && earlier + data <= delivered
    ensures |before| + |earlier| + |data| <= |all|
    ensures all[|before| + |earlier|..|before| + |earlier| + |data|] == data
  {
    PrefixWithin(before, earlier + data, delivered, all);
    assert (before + earlier) + data == before + (earlier + data);
    PrefixSlice(before + earlier, data, all);
  }

  lemma PrefixWithin(p: string, q: string, r: string, out: string)
    requires p + r <= out && q <= r
    ensures p + q <= out
  {
    assert p + q == (p + r)[..|p| + |q|];
  }

  lemma PrefixSlice(p: string, d: string, out: string)
    requires p + d <= out
    ensures |p| + |d| <= |out| && out[|p|..|p| + |d|] == d
  {
    assert out[..|p| + |d|] == p + d;
  }

  /** A pass in which `select` reports an error ends the relay at that pass,
      when no earlier pass ended it; that pass sends nothing. */
  lemma ErrorEndsRelay(trace: seq<Poll>, max: nat, k: nat)
    requires k < |trace| && trace[k].Ready? && trace[k].error
    requires Running(trace, max, k)
    ensures Relay(trace, max) == Outcome(ErrorSignalled, k + 1, Forwarded(trace[..k], Outbound), Forwarded(trace[..k], Inbound))
  {
    PassesIs(trace, max, k + 1);
    NextPass(trace, k);
  }

  /** While the loop runs, the idle counter stays below a positive limit. */
  lemma {:induction false} RunningBelowLimit(trace: seq<Poll>, max: nat, k: nat)
    requires max >= 1 && k <= |trace| && Running(trace, max, k)
    ensures IdleRun(trace[..k]) < max
  {
    if k > 0 {
      assert Running(trace, max, k - 1);
      RunningBelowLimit(trace, max, k - 1);
      NextPass(trace, k - 1);
      assert !HaltsAt(trace, k - 1, max);
    }
  }

  /** Each quiet pass adds one to the idle counter. */
  lemma {:induction false} QuietRunGrows(trace: seq<Poll>, k: nat, i: nat)
    requires k + i <= |trace|
    requires forall j :: k <= j < k + i ==> Quiet(trace[j])
    ensures IdleRun(trace[..k + i]) == IdleRun(trace[..k]) + i
  {
    if i > 0 {
      QuietRunGrows(trace, k, i - 1);
      NextPass(trace, k + i - 1);
      assert !Forwards(trace[k + i - 1]);
    }
  }

  /** Conversely to IdleTimeoutIsExact: once the loop is still running at
      pass `k`, `max` consecutive quiet passes from there end it by idle
      timeout, within those passes, exactly when the counter reaches `max`. */
  lemma QuietRunTimesOut(trace: seq<Poll>, max: nat, k: nat)
    requires max >= 1 && k + max <= |trace|
    requires forall j :: k <= j < k + max ==> Quiet(trace[j])
    requires Running(trace, max, k)
    ensures k < Relay(trace, max).passes <= k + max
    ensures Relay(trace, max).passes == k + max - IdleRun(trace[..k])
    ensures Relay(trace, max).exit == IdleTimeout
  {
    RunningBelowLimit(trace, max, k);
    var d := max - IdleRun(trace[..k]);
    forall j | 0 <= j < k + d - 1 ensures !HaltsAt(trace, j, max) {
      if j >= k {
        QuietRunGrows(trace, k, j + 1 - k);
      }
    }
    QuietRunGrows(trace, k, d);
    assert HaltsAt(trace, k + d - 1, max);
    PassesIs(trace, max, k + d);
  }

  /** With a limit of zero (a timeout shorter than one tick) the idle check
      can only fire right after a pass that forwarded data: quiet passes
      never end such a relay. */
  lemma ZeroLimitStopsOnlyAfterForward(trace: seq<Poll>)
    requires Relay(trace, 0).exit == IdleTimeout
    ensures Forwards(trace[Relay(trace, 0).passes - 1])
  {
    var n := Passes(trace, 0, 0);
    assert 0 < n && HaltsAt(trace, n - 1, 0);
    assert trace[..n][..n - 1] == trace[..n - 1];
  }
}
