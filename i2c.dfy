/** The I2C bus as the firmware sees it: a transaction is put on the bus and
    the addressed device either acknowledges it (returning the bytes asked
    for) or does not. What the devices answer is an input to the model: a
    sequence of replies consumed one per transfer, in order. */
module I2c {
  import opened Bytes

  /** One call of the bus transfer primitive: slave address, the bytes written
      and how many bytes are read back. */
  datatype Transaction = Transaction(address: byte, write: seq<byte>, readCount: nat)

  /** What the device does with one transfer: acknowledge it, supplying bytes
      for the read phase, or fail it. */
  datatype Reply = Ack(data: seq<byte>) | Nack

  /** Transfer number `i` of a run that is answered by `replies` succeeds.
      A transfer beyond the supplied replies fails (nobody answers). */
  predicate Acked(replies: seq<Reply>, i: nat) {
    i < |replies| && replies[i].Ack?
  }

  /** The first `n` transfers all succeed. */
  predicate AllAcked(replies: seq<Reply>, n: nat) {
    n <= |replies| && forall i :: 0 <= i < n ==> replies[i].Ack?
  }

  /** The replies left after `n` transfers. */
  function Drop(replies: seq<Reply>, n: nat): (rest: seq<Reply>)
    ensures n <= |replies| ==> rest == replies[n..]
    ensures n > |replies| ==> rest == []
  {
    if n <= |replies| then replies[n..] else []
  }

  /** `data` cut or zero-padded to exactly `n` bytes: the receive buffer of a
      transfer that reads `n` bytes. */
  function Fit(data: seq<byte>, n: nat): (r: seq<byte>)
    ensures |r| == n
    ensures forall i :: 0 <= i < n && i < |data| ==> r[i] == data[i]
    ensures forall i :: |data| <= i < n ==> r[i] == 0
  {
    if n <= |data| then data[..n] else data + seq(n - |data|, _ => 0)
  }

  /** The bytes a transfer reading `n` bytes receives from the next reply. */
  function Received(replies: seq<Reply>, n: nat): (rx: seq<byte>)
    ensures |rx| == n
    ensures Acked(replies, 0) ==> rx == Fit(replies[0].data, n)
  {
    if Acked(replies, 0) then Fit(replies[0].data, n) else Fit([], n)
  }

  /** The outcome of a fixed list of transfers that stops at the first failed
      one: whether all succeeded, the transactions actually put on the bus,
      and the replies left over. */
  datatype Exchanged = Exchanged(ok: bool, trace: seq<Transaction>, rest: seq<Reply>)

  /** Runs the transactions `ts` in order against `replies`, stopping at the
      first transfer that fails: whether all succeeded, the transactions put
      on the bus and the replies left. `RunCompletes` and `RunStops` give its
      two outcomes. */
  function Run(ts: seq<Transaction>, replies: seq<Reply>): (x: Exchanged)
    ensures |x.trace| <= |ts| && x.trace == ts[..|x.trace|]
    ensures x.ok ==> x.trace == ts
    ensures !x.ok ==> 1 <= |x.trace|
    decreases |ts|
  {
    if ts == [] then Exchanged(true, [], replies)
    else if !Acked(replies, 0) then Exchanged(false, [ts[0]], Drop(replies, 1))
    else
      var x := Run(ts[1..], replies[1..]);
      assert [ts[0]] + ts[1..][..|x.trace|] == ts[..|x.trace| + 1];
      Exchanged(x.ok, [ts[0]] + x.trace, x.rest)
  }

  /** When every transfer is acknowledged, all of `ts` is issued and the run succeeds. */
  lemma {:induction false} RunCompletes(ts: seq<Transaction>, replies: seq<Reply>)
    requires AllAcked(replies, |ts|)
    ensures Run(ts, replies) == Exchanged(true, ts, Drop(replies, |ts|))
    decreases |ts|
  {
    if ts != [] {
      forall i | 0 <= i < |ts| - 1 ensures replies[1..][i].Ack? {
        assert replies[1..][i] == replies[i + 1];
      }
      RunCompletes(ts[1..], replies[1..]);
      assert [ts[0]] + ts[1..] == ts;
    }
  }

  /** When transfer `i` is the first one not acknowledged, the transfers up to
      and including it are issued, nothing after it, and the run fails. */
  lemma {:induction false} RunStops(ts: seq<Transaction>, replies: seq<Reply>, i: nat)
    requires i < |ts| && AllAcked(replies, i) && !Acked(replies, i)
    ensures Run(ts, replies) == Exchanged(false, ts[..i + 1], Drop(replies, i + 1))
    decreases i
  {
    if i == 0 {
      assert ts[..1] == [ts[0]];
    } else {
      assert Acked(replies, 0);
      forall k | 0 <= k < i - 1 ensures replies[1..][k].Ack? {
        assert replies[1..][k] == replies[k + 1];
      }
      RunStops(ts[1..], replies[1..], i - 1);
      assert [ts[0]] + ts[1..][..i] == ts[..i + 1];
    }
  }

  /** The first transfer at or after `k` that is not acknowledged, when one of
      the first `n` is not. */
  ghost function FirstFailure(replies: seq<Reply>, n: nat, k: nat): (i: nat)
    requires k <= n && AllAcked(replies, k) && !AllAcked(replies, n)
    ensures k <= i < n && AllAcked(replies, i) && !Acked(replies, i)
    decreases n - k
  {
    if !Acked(replies, k) then k
    else
      assert AllAcked(replies, k + 1);
      FirstFailure(replies, n, k + 1)
  }

  /** A run succeeds exactly when every transfer is acknowledged; it issues a
      prefix of `ts`, all of it on success; on failure the failed transfer is
      the last one issued and every one before it succeeded; it consumes one
      reply per transfer issued. */
  lemma RunOutcome(ts: seq<Transaction>, replies: seq<Reply>)
    ensures var x := Run(ts, replies);
      && (x.ok <==> AllAcked(replies, |ts|))
      && |x.trace| <= |ts| && x.trace == ts[..|x.trace|]
      && (x.ok ==> |x.trace| == |ts|)
      && (!x.ok ==> 1 <= |x.trace| && AllAcked(replies, |x.trace| - 1) && !Acked(replies, |x.trace| - 1))
      && x.rest == Drop(replies, |x.trace|)
  {
    if AllAcked(replies, |ts|) {
      RunCompletes(ts, replies);
    } else {
      var i := FirstFailure(replies, |ts|, 0);
      RunStops(ts, replies, i);
    }
  }

  /** The bus of one channel. `replies` holds what the devices will answer
      next; `log` is every transaction the firmware has issued on it. */
  class Bus {
    var replies: seq<Reply>
    var log: seq<Transaction>

    constructor (replies: seq<Reply>)
      ensures this.replies == replies && log == []
    {
      this.replies := replies;
      log := [];
    }

    /** One bus transfer: issues `t` and reports whether the device answered,
        with the bytes read. */
    method Transfer(t: Transaction) returns (ok: bool, rx: seq<byte>)
      modifies this
      ensures ok == Acked(old(replies), 0)
      ensures rx == Received(old(replies), t.readCount)
      ensures replies == Drop(old(replies), 1)
      ensures log == old(log) + [t]
    {
      ok := |replies| > 0 && replies[0].Ack?;
      rx := Received(replies, t.readCount);
      log := log + [t];
      replies := if |replies| > 0 then replies[1..] else [];
    }

    /** Issues the transfers of `ts` one after another and returns 0, or -1 at
        the first transfer that fails, issuing nothing after it. */
    method Exchange(ts: seq<Transaction>) returns (rc: int)
      modifies this
      ensures var x := Run(ts, old(replies));
        && rc == (if x.ok then 0 else -1)
        && log == old(log) + x.trace
        && replies == x.rest
    {
      ghost var r0 := replies;
      var i := 0;
      while i < |ts|
        invariant 0 <= i <= |ts|
        invariant AllAcked(r0, i)
        invariant replies == Drop(r0, i)
        invariant log == old(log) + ts[..i]
      {
        var ok, _ := Transfer(ts[i]);
        assert ts[..i + 1] == ts[..i] + [ts[i]];
        if !ok {
          RunStops(ts, r0, i);
          assert Drop(Drop(r0, i), 1) == Drop(r0, i + 1);
          return -1;
        }
        assert Drop(Drop(r0, i), 1) == Drop(r0, i + 1);
        i := i + 1;
      }
      assert ts[..i] == ts;
      RunCompletes(ts, r0);
      return 0;
    }
  }
}
