/** The gather-write loops of src/net.c and src/record.c, against a kernel that accepts as
    little as it likes and interrupts as often as it likes.
  */
module GatherWrite {

  type Byte = b: int | 0 <= b < 256

  function Flat(iov: seq<seq<Byte>>): seq<Byte> {
    if iov == [] then [] else iov[0] + Flat(iov[1..])
  }

  /** What one call does: it accepts some of what it is offered, it is interrupted, or it
      fails. */
  datatype Outcome = Accept(n: nat) | Interrupt | Fail

  /** The kernel takes at most what is offered; accepting nothing of something is a stall. */
  function Accepted(o: Outcome, offered: nat): nat {
    if o.Accept? then (if o.n <= offered then o.n else offered) else 0
  }

  /** Drop the first n bytes: whole entries go, the one across the boundary is advanced. */
  function Advance(iov: seq<seq<Byte>>, n: nat): seq<seq<Byte>>
    decreases |iov|
  {
    if n == 0 || iov == [] then iov
    else if n >= |iov[0]| then Advance(iov[1..], n - |iov[0]|)
    else [iov[0][n..]] + iov[1..]
  }

  lemma {:induction false} AdvanceDrops(iov: seq<seq<Byte>>, n: nat)
    requires n <= |Flat(iov)|
    ensures Flat(Advance(iov, n)) == Flat(iov)[n..]
    decreases |iov|
  {
    if n > 0 && iov != [] {
      if n >= |iov[0]| {
        AdvanceDrops(iov[1..], n - |iov[0]|);
        assert Flat(iov)[n..] == Flat(iov[1..])[n - |iov[0]|..];
      } else {
        assert ([iov[0][n..]] + iov[1..])[1..] == iov[1..];
      }
    }
  }

  lemma {:induction false} FlatSnoc(iov: seq<seq<Byte>>, i: nat)
    requires i < |iov|
    ensures |Flat(iov[..i + 1])| == |Flat(iov[..i])| + |iov[i]|
    decreases i
  {
    if i > 0 {
      assert iov[..i + 1][1..] == iov[1..][..i] && iov[..i][1..] == iov[1..][..i - 1];
      FlatSnoc(iov[1..], i - 1);
    } else {
      assert iov[..1] == [iov[0]] && iov[..1][1..] == iov[..0];
    }
  }

  method Total(iov: seq<seq<Byte>>) returns (total: nat)
    ensures total == |Flat(iov)|
  {
    total := 0;
    for i := 0 to |iov|
      invariant total == |Flat(iov[..i])|
    {
      FlatSnoc(iov, i);
      total := total + |iov[i]|;
    }
    assert iov[..|iov|] == iov;
  }

  /** The inner loop: consume the accepted bytes off the front of the vector. */
  method Consume(iov: seq<seq<Byte>>, n: nat) returns (rest: seq<seq<Byte>>)
    ensures rest == Advance(iov, n)
  {
    rest := iov;
    var left: nat := n;
    while left > 0 && |rest| > 0
      invariant Advance(rest, left) == Advance(iov, n)
      decreases |rest|, left
    {
      if left >= |rest[0]| {
        left, rest := left - |rest[0]|, rest[1..];
      } else {
        rest := [rest[0][left..]] + rest[1..];
        left := 0;
      }
    }
  }

  /** The schedule lets a write of `todo` bytes finish. */
  predicate Finishes(schedule: seq<Outcome>, todo: nat) {
    todo == 0
    || (schedule != []
        && match schedule[0]
           case Interrupt => Finishes(schedule[1..], todo)
           case Fail => false
           case Accept(n) => Accepted(schedule[0], todo) > 0 && Finishes(schedule[1..], todo - Accepted(schedule[0], todo)))
  }

  /** sendmsg or writev in a loop until everything is accepted. The schedule is the finite
      list of what the kernel does; a write it would leave waiting for ever counts as
      failed. `emitted` is everything the kernel took. */
  method WriteAll(iov: seq<seq<Byte>>, schedule: seq<Outcome>) returns (ok: bool, emitted: seq<Byte>)
    ensures ok == Finishes(schedule, |Flat(iov)|)
    ensures emitted <= Flat(iov)
    ensures ok <==> emitted == Flat(iov)
  {
    var total := Total(iov);
    var rest := iov;
    var done: nat, k: nat := 0, 0;
    emitted := [];
    ghost var all := Flat(iov);
    while done < total
      invariant done <= total == |all| && k <= |schedule|
      invariant emitted == all[..done] && Flat(rest) == all[done..]
      invariant Finishes(schedule, total) == Finishes(schedule[k..], total - done)
      decreases |schedule| - k
    {
      if k == |schedule| { return false, emitted; }
      var o := schedule[k];
      assert schedule[k..][1..] == schedule[k + 1..];
      k := k + 1;
      var n := Accepted(o, total - done);
      if n == 0 {
        if o.Interrupt? { continue; }
        return false, emitted;
      }
      AdvanceDrops(rest, n);
      emitted := emitted + Flat(rest)[..n];
      assert all[..done + n] == all[..done] + all[done..][..n] && all[done..][n..] == all[done + n..];
      rest := Consume(rest, n);
      done := done + n;
    }
    assert all[..done] == all;
    ok := true;
  }

  /** The single-buffer form. */
  method SendAll(buf: seq<Byte>, schedule: seq<Outcome>) returns (ok: bool, emitted: seq<Byte>)
    ensures ok == Finishes(schedule, |buf|)
    ensures emitted <= buf && (ok <==> emitted == buf)
  {
    var off: nat, k: nat := 0, 0;
    emitted := [];
    while off < |buf|
      invariant off <= |buf| && k <= |schedule| && emitted == buf[..off]
      invariant Finishes(schedule, |buf|) == Finishes(schedule[k..], |buf| - off)
      decreases |schedule| - k
    {
      if k == |schedule| { return false, emitted; }
      var o := schedule[k];
      assert schedule[k..][1..] == schedule[k + 1..];
      k := k + 1;
      var n := Accepted(o, |buf| - off);
      if n == 0 {
        if o.Interrupt? { continue; }
        return false, emitted;
      }
      emitted := emitted + buf[off..off + n];
      off := off + n;
    }
    assert buf[..off] == buf;
    ok := true;
  }

  /** The bytes still to write bound the work: a kernel that takes something whenever it is
      not interrupted finishes once it has been asked that many times more than it
      interrupts. */
  lemma {:induction false} ProgressFinishes(schedule: seq<Outcome>, todo: nat)
    requires forall i :: 0 <= i < |schedule| ==> schedule[i].Interrupt? || (schedule[i].Accept? && schedule[i].n > 0)
    requires |schedule| >= todo + Interrupts(schedule)
    ensures Finishes(schedule, todo)
    decreases |schedule|
  {
    if todo > 0 {
      if schedule[0].Interrupt? {
        ProgressFinishes(schedule[1..], todo);
      } else {
        ProgressFinishes(schedule[1..], todo - Accepted(schedule[0], todo));
      }
    }
  }

  function Interrupts(schedule: seq<Outcome>): (r: nat)
    ensures r <= |schedule|
  {
    if schedule == [] then 0 else (if schedule[0].Interrupt? then 1 else 0) + Interrupts(schedule[1..])
  }
}
