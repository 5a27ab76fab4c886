/**
 * The fan-out loop (emitter.go): CopyMulty reads from one source and hands
 * every message to each writer in turn, until a read or a write fails.
 *
 * The source's successive PluginRead outcomes are the sequence `outcomes`; when
 * it is used up without a failure the loop is still waiting for the next read
 * (status Reading). The writers are numbered 0 .. n-1 in slice order and
 * `werr(i, w)` is the error writer w returns for the i-th read, if any.
 */
module Emitter {
  import opened Proto
  import opened Capability

  /** One PluginWrite call: which writer got which message. */
  datatype Delivery = Delivery(writer: nat, msg: Message)

  /** How the loop ended: returned with this error (None is nil), or still reading. */
  datatype Status = Returned(err: Option<Error>) | Reading

  /** The read errors that end the loop quietly: the output's ErrorStopped and io.EOF. */
  function Classify(e: Error): (r: Option<Error>)
    ensures r.None? <==> e == OutputStopped || e == EOF
    ensures r.Some? ==> r.value == e
  {
    if e == OutputStopped || e == EOF then None else Some(e)
  }

  /** Writers w .. n-1 receive `msg` (the i-th read) until one of them fails. */
  function WriteAll(msg: Message, n: nat, werr: (nat, nat) -> Option<Error>, i: nat, w: nat): (r: (Option<Error>, seq<Delivery>))
    decreases n - w
  {
    if w >= n then (None, [])
    else if werr(i, w).Some? then (werr(i, w), [Delivery(w, msg)])
    else
      var rest := WriteAll(msg, n, werr, i, w + 1);
      (rest.0, [Delivery(w, msg)] + rest.1)
  }

  /** The loop from the i-th read on: its final status and the writes it makes. */
  function Run(outcomes: seq<ReadResult>, n: nat, werr: (nat, nat) -> Option<Error>, i: nat): (r: (Status, seq<Delivery>))
    requires i <= |outcomes|
    decreases |outcomes| - i
  {
    if i == |outcomes| then (Reading, [])
    else match outcomes[i]
      case Failed(e) => (Returned(Classify(e)), [])
      case Got(msg) =>
        var round := WriteAll(msg, n, werr, i, 0);
        if round.0.Some? then (Returned(round.0), round.1)
        else
          var rest := Run(outcomes, n, werr, i + 1);
          (rest.0, round.1 + rest.1)
  }

  /** One writer's step of WriteAll. */
  lemma WriteAllStep(msg: Message, n: nat, werr: (nat, nat) -> Option<Error>, i: nat, w: nat)
    requires w < n
    ensures werr(i, w).Some? ==> WriteAll(msg, n, werr, i, w) == (werr(i, w), [Delivery(w, msg)])
    ensures werr(i, w).None? ==> WriteAll(msg, n, werr, i, w).0 == WriteAll(msg, n, werr, i, w + 1).0
    ensures werr(i, w).None? ==> WriteAll(msg, n, werr, i, w).1 == [Delivery(w, msg)] + WriteAll(msg, n, werr, i, w + 1).1
  {
  }

  /** One read's step of Run. */
  lemma RunStep(outcomes: seq<ReadResult>, n: nat, werr: (nat, nat) -> Option<Error>, i: nat)
    requires i < |outcomes|
    ensures outcomes[i].Failed? ==> Run(outcomes, n, werr, i) == (Returned(Classify(outcomes[i].err)), [])
    ensures outcomes[i].Got? ==>
      var round := WriteAll(outcomes[i].msg, n, werr, i, 0);
      (round.0.Some? ==> Run(outcomes, n, werr, i) == (Returned(round.0), round.1)) &&
      (round.0.None? ==>
        Run(outcomes, n, werr, i).0 == Run(outcomes, n, werr, i + 1).0 &&
        Run(outcomes, n, werr, i).1 == round.1 + Run(outcomes, n, werr, i + 1).1)
  {
  }

  /** A failed read ends the loop with nothing written. */
  lemma RunFailed(outcomes: seq<ReadResult>, n: nat, werr: (nat, nat) -> Option<Error>, i: nat)
    requires i < |outcomes| && outcomes[i].Failed?
    ensures Run(outcomes, n, werr, i) == (Returned(Classify(outcomes[i].err)), [])
  {
  }

  /** A successful read runs one round of writes, then stops on its error or goes on. */
  lemma RunGot(outcomes: seq<ReadResult>, n: nat, werr: (nat, nat) -> Option<Error>, i: nat,
               err: Option<Error>, delivered: seq<Delivery>)
    requires i < |outcomes| && outcomes[i].Got?
    requires (err, delivered) == WriteAll(outcomes[i].msg, n, werr, i, 0)
    ensures err.Some? ==> Run(outcomes, n, werr, i) == (Returned(err), delivered)
    ensures err.None? ==> Run(outcomes, n, werr, i).0 == Run(outcomes, n, werr, i + 1).0
    ensures err.None? ==> Run(outcomes, n, werr, i).1 == delivered + Run(outcomes, n, werr, i + 1).1
  {
  }

  /** The inner loop of CopyMulty: writers 0 .. n-1 get the i-th message until one fails. */
  method WriteRound(msg: Message, n: nat, werr: (nat, nat) -> Option<Error>, i: nat)
    returns (err: Option<Error>, delivered: seq<Delivery>)
    ensures (err, delivered) == WriteAll(msg, n, werr, i, 0)
  {
    delivered := [];
    var w := 0;
    assert [] + WriteAll(msg, n, werr, i, 0).1 == WriteAll(msg, n, werr, i, 0).1;
    while w < n
      invariant 0 <= w <= n
      invariant WriteAll(msg, n, werr, i, 0).0 == WriteAll(msg, n, werr, i, w).0
      invariant WriteAll(msg, n, werr, i, 0).1 == delivered + WriteAll(msg, n, werr, i, w).1
      decreases n - w
    {
      WriteAllStep(msg, n, werr, i, w);
      ghost var before := delivered;
      delivered := delivered + [Delivery(w, msg)];
      if werr(i, w).Some? {
        err := werr(i, w);
        return;
      }
      assert before + ([Delivery(w, msg)] + WriteAll(msg, n, werr, i, w + 1).1)
        == delivered + WriteAll(msg, n, werr, i, w + 1).1;
      w := w + 1;
    }
    assert delivered + [] == delivered;
    err := None;
  }

  /** CopyMulty: the read loop, with an early return on a read error or a write error. */
  method CopyMulty(outcomes: seq<ReadResult>, n: nat, werr: (nat, nat) -> Option<Error>)
    returns (status: Status, log: seq<Delivery>)
    ensures (status, log) == Run(outcomes, n, werr, 0)
  {
    ghost var whole := Run(outcomes, n, werr, 0);
    log := [];
    var i := 0;
    assert [] + whole.1 == whole.1;
    while i < |outcomes|
      invariant 0 <= i <= |outcomes|
      invariant whole.0 == Run(outcomes, n, werr, i).0
      invariant whole.1 == log + Run(outcomes, n, werr, i).1
      decreases |outcomes| - i
    {
      var outcome := outcomes[i];
      if outcome.Failed? {
        RunFailed(outcomes, n, werr, i);
        assert log + [] == log;
        status := Returned(Classify(outcome.err));
        return;
      }
      var err, delivered := WriteRound(outcome.msg, n, werr, i);
      RunGot(outcomes, n, werr, i, err, delivered);
      ghost var base := log;
      log := log + delivered;
      if err.Some? {
        status := Returned(err);
        return;
      }
      ghost var rest := Run(outcomes, n, werr, i + 1).1;
      assert base + (delivered + rest) == log + rest;
      i := i + 1;
    }
    assert log + [] == log;
    status := Reading;
  }

  // ---------------------------------------------------------------------------
  // What the loop does, stated without Run

  /** The messages of reads lo .. hi-1, all of which succeeded. */
  function Messages(outcomes: seq<ReadResult>, lo: nat, hi: nat): (ms: seq<Message>)
    requires lo <= hi <= |outcomes|
    requires forall j :: lo <= j < hi ==> outcomes[j].Got?
    ensures |ms| == hi - lo
    ensures forall k :: 0 <= k < |ms| ==> ms[k] == outcomes[lo + k].msg
    decreases hi - lo
  {
    if lo == hi then [] else [outcomes[lo].msg] + Messages(outcomes, lo + 1, hi)
  }

  /** `msg` handed to writers 0 .. k-1, in that order. */
  function Round(msg: Message, k: nat): (ds: seq<Delivery>)
    ensures |ds| == k
    ensures forall w :: 0 <= w < k ==> ds[w] == Delivery(w, msg)
  {
    if k == 0 then [] else Round(msg, k - 1) + [Delivery(k - 1, msg)]
  }

  /** Every message in turn handed to writers 0 .. n-1. */
  function Rounds(ms: seq<Message>, n: nat): seq<Delivery>
  {
    if ms == [] then [] else Round(ms[0], n) + Rounds(ms[1..], n)
  }

  /** What writer w received, in order. */
  function Project(log: seq<Delivery>, w: nat): (ms: seq<Message>)
    ensures |ms| <= |log|
  {
    if log == [] then []
    else (if log[0].writer == w then [log[0].msg] else []) + Project(log[1..], w)
  }

  lemma {:induction false} WriteAllClean(msg: Message, n: nat, werr: (nat, nat) -> Option<Error>, i: nat, w: nat)
    requires w <= n
    requires forall v :: w <= v < n ==> werr(i, v).None?
    ensures WriteAll(msg, n, werr, i, w) == (None, Round(msg, n)[w..])
    decreases n - w
  {
    if w < n {
      WriteAllClean(msg, n, werr, i, w + 1);
      assert Round(msg, n)[w..] == [Delivery(w, msg)] + Round(msg, n)[w + 1..];
    }
  }

  lemma {:induction false} WriteAllFails(msg: Message, n: nat, werr: (nat, nat) -> Option<Error>, i: nat, v: nat, w: nat)
    requires v <= w < n
    requires werr(i, w).Some? && forall u :: v <= u < w ==> werr(i, u).None?
    ensures WriteAll(msg, n, werr, i, v) == (werr(i, w), Round(msg, w + 1)[v..])
    decreases w - v
  {
    if v < w {
      WriteAllFails(msg, n, werr, i, v + 1, w);
      assert Round(msg, w + 1)[v..] == [Delivery(v, msg)] + Round(msg, w + 1)[v + 1..];
    } else {
      assert Round(msg, w + 1)[w..] == [Delivery(w, msg)];
    }
  }

  /**
   * With no write failing, the loop hands every successfully read message to
   * all writers in slice order before the next read, and it ends exactly as
   * the first failed read says: nil for ErrorStopped and io.EOF, the error
   * itself otherwise, or still reading when no read failed.
   */
  lemma {:induction false} CleanRun(outcomes: seq<ReadResult>, n: nat, werr: (nat, nat) -> Option<Error>, i: nat, f: nat)
    requires i <= f <= |outcomes|
    requires forall j :: i <= j < f ==> outcomes[j].Got?
    requires f < |outcomes| ==> outcomes[f].Failed?
    requires forall j: nat, w: nat :: i <= j < f && w < n ==> werr(j, w).None?
    ensures Run(outcomes, n, werr, i).1 == Rounds(Messages(outcomes, i, f), n)
    ensures Run(outcomes, n, werr, i).0 == if f == |outcomes| then Reading else Returned(Classify(outcomes[f].err))
    decreases f - i
  {
    if i < f {
      WriteAllClean(outcomes[i].msg, n, werr, i, 0);
      assert Round(outcomes[i].msg, n)[0..] == Round(outcomes[i].msg, n);
      CleanRun(outcomes, n, werr, i + 1, f);
      var ms := Messages(outcomes, i, f);
      assert ms[0] == outcomes[i].msg && ms[1..] == Messages(outcomes, i + 1, f);
    }
  }

  /**
   * The first failing write (the j-th read, writer w) ends the loop with its
   * error: writers after w never get that message and nothing more is read.
   */
  lemma {:induction false} WriteFailureStops(outcomes: seq<ReadResult>, n: nat, werr: (nat, nat) -> Option<Error>, i: nat, j: nat, w: nat)
    requires i <= j < |outcomes|
    requires forall k :: i <= k <= j ==> outcomes[k].Got?
    requires forall k: nat, v: nat :: i <= k < j && v < n ==> werr(k, v).None?
    requires w < n && werr(j, w).Some? && forall v: nat :: v < w ==> werr(j, v).None?
    ensures Run(outcomes, n, werr, i) ==
      (Returned(werr(j, w)), Rounds(Messages(outcomes, i, j), n) + Round(outcomes[j].msg, w + 1))
    decreases j - i
  {
    if i < j {
      WriteAllClean(outcomes[i].msg, n, werr, i, 0);
      assert Round(outcomes[i].msg, n)[0..] == Round(outcomes[i].msg, n);
      WriteFailureStops(outcomes, n, werr, i + 1, j, w);
      RunStep(outcomes, n, werr, i);
      var ms := Messages(outcomes, i, j);
      assert ms[0] == outcomes[i].msg && ms[1..] == Messages(outcomes, i + 1, j);
      var r0, rs, last := Round(outcomes[i].msg, n), Rounds(Messages(outcomes, i + 1, j), n), Round(outcomes[j].msg, w + 1);
      assert Rounds(ms, n) == r0 + rs;
      assert r0 + (rs + last) == (r0 + rs) + last;
    } else {
      WriteAllFails(outcomes[j].msg, n, werr, j, 0, w);
      assert Round(outcomes[j].msg, w + 1)[0..] == Round(outcomes[j].msg, w + 1);
      assert Messages(outcomes, i, j) == [];
      assert Rounds(Messages(outcomes, i, j), n) == [];
      ghost var round := WriteAll(outcomes[j].msg, n, werr, j, 0);
      assert Run(outcomes, n, werr, j) == (Returned(round.0), round.1);
      assert [] + round.1 == round.1;
    }
  }

  lemma {:induction false} ProjectConcat(a: seq<Delivery>, b: seq<Delivery>, w: nat)
    ensures Project(a + b, w) == Project(a, w) + Project(b, w)
  {
    if a == [] {
      assert a + b == b;
    } else {
      var ab := a + b;
      assert ab[0] == a[0] && ab[1..] == a[1..] + b;
      var head := if a[0].writer == w then [a[0].msg] else [];
      assert Project(ab, w) == head + Project(a[1..] + b, w);
      ProjectConcat(a[1..], b, w);
      assert Project(a, w) == head + Project(a[1..], w);
      assert head + (Project(a[1..], w) + Project(b, w)) == (head + Project(a[1..], w)) + Project(b, w);
    }
  }

  lemma {:induction false} ProjectRound(msg: Message, k: nat, w: nat)
    ensures Project(Round(msg, k), w) == if w < k then [msg] else []
  {
    if k > 0 {
      ProjectRound(msg, k - 1, w);
      ProjectConcat(Round(msg, k - 1), [Delivery(k - 1, msg)], w);
      assert [Delivery(k - 1, msg)][1..] == [];
    }
  }

  /** Each writer receives every message, in the order it was read; with no writers nothing is written. */
  lemma {:induction false} ProjectRounds(ms: seq<Message>, n: nat, w: nat)
    ensures Project(Rounds(ms, n), w) == if w < n then ms else []
    ensures n == 0 ==> Rounds(ms, n) == []
  {
    if ms != [] {
      ProjectConcat(Round(ms[0], n), Rounds(ms[1..], n), w);
      ProjectRound(ms[0], n, w);
      ProjectRounds(ms[1..], n, w);
      assert ms == [ms[0]] + ms[1..];
    }
  }

  /** Writer order, end to end: with no write failing, CopyMulty delivers the read messages to each writer in read order. */
  method EachWriterInReadOrder(outcomes: seq<ReadResult>, n: nat, werr: (nat, nat) -> Option<Error>, f: nat, w: nat)
    returns (received: seq<Message>)
    requires f <= |outcomes|
    requires forall j :: 0 <= j < f ==> outcomes[j].Got?
    requires f < |outcomes| ==> outcomes[f].Failed?
    requires forall j: nat, v: nat :: j < f && v < n ==> werr(j, v).None?
    requires w < n
    ensures received == Messages(outcomes, 0, f)
  {
    var status, log := CopyMulty(outcomes, n, werr);
    CleanRun(outcomes, n, werr, 0, f);
    ProjectRounds(Messages(outcomes, 0, f), n, w);
    received := Project(log, w);
  }

  /** The HTTP input's own "reading stopped" error is not the output's: CopyMulty returns it as an error. */
  lemma InputStoppedIsAnError(outcomes: seq<ReadResult>, n: nat, werr: (nat, nat) -> Option<Error>, i: nat)
    requires i < |outcomes| && outcomes[i] == Failed(InputStopped)
    ensures Run(outcomes, n, werr, i) == (Returned(Some(InputStopped)), [])
  {
  }
}
