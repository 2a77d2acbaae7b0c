/** What the code that is called out to decides: whether the call goes through, and so whether the action does. */
module Calls {
  import opened Base
  import opened Storage
  import opened Execution
  import opened Linear

  // The called code returns in the end, whatever it does before.
  predicate EndsInReturn(callee: Callee) {
    match callee
    case Returns => true
    case Reverts => false
    case Then(_, rest) => EndsInReturn(rest)
  }

  lemma {:induction false} AnswerReturns(c: Chain, now: Timestamp, s: State, callee: Callee)
    ensures Answer(c, now, s, callee).Some? <==> EndsInReturn(callee)
    decreases callee
  {
    if callee.Then? {
      AnswerReturns(c, now, Settle(s, Exec(c, now, s, callee.reentry)), callee.rest);
    }
  }

  /** A call goes through exactly when the balance covers its value and the called code returns in the end: not
      when it reverts, however much it re-entered before. */
  lemma CallGoesThrough(c: Chain, now: Timestamp, s: State, call: Call, callee: Callee)
    requires s.frames.Push?
    ensures CallOut(c, now, s, call, callee).Some? <==> call.value <= s.balance && EndsInReturn(callee)
  {
    hide EndsInReturn, Answer;
    if call.value <= s.balance {
      AnswerReturns(c, now, s.SendOut(call), callee);
    }
  }

  // A call that goes through leaves the frame it was made from open, with one call less to make.
  lemma CallKeepsFrames(c: Chain, now: Timestamp, s: State, call: Call, callee: Callee)
    requires s.frames.Push?
    ensures var o := CallOut(c, now, s, call, callee); o.Some? ==> o.value.frames == s.frames.DropCall()
  {
    if CallOut(c, now, s, call, callee).Some? {
      AnswerIsALine(c, now, s.SendOut(call), callee, 0);
    }
  }

  // ---------------------------------------------------------------------------
  // Batches
  // ---------------------------------------------------------------------------

  // The state after one call of a batch.
  function AfterCall(c: Chain, now: Timestamp, s: State, i: Invocation): State {
    match Invoke(c, now, s, i)
    case None => s
    case Some(t) => t
  }

  // Each call of the batch, in the state the ones before it left, is covered by the balance, and returns.
  predicate EachReturns(c: Chain, now: Timestamp, s: State, batch: seq<Invocation>)
    decreases |batch|
  {
    batch == []
    || (batch[0].call.value <= s.balance && EndsInReturn(batch[0].callee)
        && EachReturns(c, now, AfterCall(c, now, s, batch[0]), batch[1..]))
  }

  lemma InvocationGoesThrough(c: Chain, now: Timestamp, s: State, i: Invocation)
    requires s.frames.Push?
    ensures Invoke(c, now, s, i).Some? <==> i.call.value <= s.balance && EndsInReturn(i.callee)
    ensures AfterCall(c, now, s, i).frames.Push?
  {
    hide CallOut, EndsInReturn;
    CallGoesThrough(c, now, s, i.call, i.callee);
    CallKeepsFrames(c, now, s, i.call, i.callee);
  }

  lemma {:induction false} BatchCommits(c: Chain, now: Timestamp, s: State, target: Address,
                                        batch: seq<Invocation>, index: nat)
    requires s.frames.Push?
    ensures ExecBatch(c, now, s, target, batch, index).Ok? <==>
      (forall i :: 0 <= i < |batch| ==> batch[i].call.target == target) && EachReturns(c, now, s, batch)
    decreases |batch|
  {
    hide Invoke, EndsInReturn;
    if batch != [] {
      InvocationGoesThrough(c, now, s, batch[0]);
      BatchCommits(c, now, AfterCall(c, now, s, batch[0]), target, batch[1..], index + 1);
      assert batch == [batch[0]] + batch[1..];
    }
  }

  function AfterCalls(c: Chain, now: Timestamp, s: State, batch: seq<Invocation>): State
    decreases |batch|
  {
    if batch == [] then s else AfterCalls(c, now, AfterCall(c, now, s, batch[0]), batch[1..])
  }

  /** A batch that stops has made every call before some number k and not that one: it is aimed at another target, or
      in the state the others left it is not covered by the balance or its code does not return. */
  lemma {:induction false} BatchStopsAtFirstFailure(c: Chain, now: Timestamp, s: State, target: Address,
                                                    batch: seq<Invocation>, index: nat) returns (k: nat)
    requires s.frames.Push? && ExecBatch(c, now, s, target, batch, index).Reverted?
    ensures k < |batch| && EachReturns(c, now, s, batch[..k])
    ensures forall i :: 0 <= i < k ==> batch[i].call.target == target
    ensures ExecBatch(c, now, s, target, batch, index)
            == if batch[k].call.target != target then Reverted(CallTargetMismatch) else Reverted(MulticallFailed(index + k))
    ensures batch[k].call.target == target ==>
      batch[k].call.value > AfterCalls(c, now, s, batch[..k]).balance || !EndsInReturn(batch[k].callee)
    decreases |batch|
  {
    hide Invoke, EndsInReturn;
    InvocationGoesThrough(c, now, s, batch[0]);
    if batch[0].call.target != target || Invoke(c, now, s, batch[0]).None? {
      k := 0;
    } else {
      k := BatchStopsAtFirstFailure(c, now, AfterCall(c, now, s, batch[0]), target, batch[1..], index + 1);
      k := k + 1;
      assert batch[..k][1..] == batch[1..][..k - 1];
    }
  }

  lemma {:induction false} EachCalleeReturns(c: Chain, now: Timestamp, s: State, batch: seq<Invocation>)
    requires EachReturns(c, now, s, batch)
    ensures forall i :: 0 <= i < |batch| ==> EndsInReturn(batch[i].callee)
    decreases |batch|
  {
    hide Invoke, EndsInReturn;
    if batch != [] {
      EachCalleeReturns(c, now, AfterCall(c, now, s, batch[0]), batch[1..]);
      assert batch == [batch[0]] + batch[1..];
    }
  }
}
