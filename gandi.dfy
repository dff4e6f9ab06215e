/** What the Gandi driver does, as functions of the replies the provider's
    API gives: each `...Run` function is the run of one driver operation on
    a script of replies. The class in module GandiDriver performs these runs
    step by step against the oracle and is proved equal to them. */
module Gandi {
  import opened Wire
  import opened Rpc
  import MachineState

  const DefaultImage := "Ubuntu 14.04 64 bits LTS (HVM)"
  const DefaultDatacenter := "LU-BI1"

  /** The operation statuses on which a re-poll keeps waiting */
  const InProgress: set<string> := {"BILL", "WAIT", "RUN"}

  /** The provider states `GetState` recognises */
  const KnownStates: set<string> :=
    {"being_created", "paused", "locked", "legally_locked", "running", "halted", "deleted", "invalid"}

  // ---------------------------------------------------------------------
  // Provider state to generic state

  /** The generic state of a provider state, as `GetState` reports it */
  function StateOf(status: string): (s: MachineState.State)
    ensures s == MachineState.Starting <==> status == "being_created"
    ensures s == MachineState.Paused <==> status in {"paused", "locked", "legally_locked"}
    ensures s == MachineState.Running <==> status == "running"
    ensures s == MachineState.Stopped <==> status in {"halted", "deleted"}
    ensures s == MachineState.Error <==> status == "invalid"
    ensures s == MachineState.None <==> status !in KnownStates
  {
    if status == "being_created" then MachineState.Starting
    else if status == "paused" || status == "locked" || status == "legally_locked" then MachineState.Paused
    else if status == "running" then MachineState.Running
    else if status == "halted" then MachineState.Stopped
    else if status == "deleted" then MachineState.Stopped
    else if status == "invalid" then MachineState.Error
    else MachineState.None
  }

  /** `GetState`: one `hosting.vm.info` call; a failed call reports Error
      together with the call's error, and never makes `GetState` fail */
  function GetStateRun(c: Client, vmId: int, replies: seq<Reply>): (r: Run<(MachineState.State, Option<Error>)>)
    ensures Accounted(replies, r) && r.sent == [Request(c, VmDetails(vmId))]
    ensures r.verdict.Hang? <==> replies == []
    ensures !r.verdict.Fail?
    ensures r.verdict.Ok? && r.verdict.value.1.Some? ==> r.verdict.value.0 == MachineState.Error
    ensures r.verdict.Ok? && r.verdict.value.1.None? <==> replies != [] && replies[0].Vm?
    ensures replies != [] && replies[0].Vm? ==> r.verdict == Ok((StateOf(replies[0].vm.state), None))
    ensures replies != [] && replies[0].Fault? ==>
              r.verdict == Ok((MachineState.Error, Some(CallFailed(replies[0].message))))
    ensures replies != [] && !replies[0].Fault? && !replies[0].Vm? ==>
              r.verdict == Ok((MachineState.Error, Some(Undecodable("hosting.vm.info"))))
  {
    var res := Exchange(Request(c, VmDetails(vmId)), replies);
    match res.verdict
    case Hang => Run(Hang, res.sent, res.rest)
    case Fail(e) => Run(Ok((MachineState.Error, Some(e))), res.sent, res.rest)
    case Ok(reply) => Run(Ok((StateOf(reply.vm.state), None)), res.sent, res.rest)
  }

  // ---------------------------------------------------------------------
  // Waiting for an asynchronous operation

  /** A re-polled reply on which the loop keeps waiting */
  predicate StillRunning(reply: Reply)
  {
    reply.Operation? && reply.op.status in InProgress
  }

  /** A first reply on which the loop starts re-polling: any status but
      "DONE", whether or not it is one of InProgress */
  predicate KeepsWaiting(reply: Reply)
  {
    reply.Operation? && reply.op.status != "DONE"
  }

  /** The verdict a reply settles the wait with once it stops the loop */
  function Settle(op: int, reply: Reply): Verdict<()>
  {
    if reply.Fault? then Fail(CallFailed(reply.message))
    else if !reply.Operation? then Fail(Undecodable("operation.info"))
    else if reply.op.status == "DONE" then Ok(())
    else Fail(BadOperationStatus(op, reply.op.status))
  }

  /** `n` identical `operation.info` requests for operation `op` */
  function Polls(c: Client, op: int, n: nat): (s: seq<Request>)
    ensures |s| == n
  {
    seq(n, _ => Request(c, OperationStatus(op)))
  }

  /** `waitForOp`: the first poll, checked only for "DONE" */
  function WaitRun(c: Client, op: int, replies: seq<Reply>): (r: Run<()>)
    ensures Accounted(replies, r) && |r.sent| > 0
    ensures forall i :: 0 <= i < |r.sent| ==> r.sent[i] == Request(c, OperationStatus(op))
  {
    var first := Exchange(Request(c, OperationStatus(op)), replies);
    if !first.verdict.Ok? then Propagate(first)
    else if first.verdict.value.op.status == "DONE" then Run(Ok(()), first.sent, first.rest)
    else Chain(replies, first, Repoll(c, op, first.rest))
  }

  /** The loop of `waitForOp`: poll again, succeed on "DONE", go on waiting
      on "BILL", "WAIT" or "RUN", fail on any other status */
  function Repoll(c: Client, op: int, replies: seq<Reply>): (r: Run<()>)
    ensures Accounted(replies, r) && |r.sent| > 0
    ensures forall i :: 0 <= i < |r.sent| ==> r.sent[i] == Request(c, OperationStatus(op))
    decreases |replies|
  {
    var poll := Exchange(Request(c, OperationStatus(op)), replies);
    if !poll.verdict.Ok? then Propagate(poll)
    else
      var status := poll.verdict.value.op.status;
      if status == "DONE" then Run(Ok(()), poll.sent, poll.rest)
      else if status !in InProgress then Run(Fail(BadOperationStatus(op, status)), poll.sent, poll.rest)
      else Chain(replies, poll, Repoll(c, op, poll.rest))
  }

  /** Reply `k` is the first one that stops the re-polling loop */
  predicate SettlesAt(replies: seq<Reply>, k: nat)
  {
    k < |replies| && !StillRunning(replies[k]) &&
    forall j :: 0 <= j < k ==> StillRunning(replies[j])
  }

  /** Reply `k` decides `waitForOp`: the first reply when it does not keep
      it waiting, otherwise the first re-polled reply that settles it */
  predicate DecidesAt(replies: seq<Reply>, k: nat)
  {
    if k == 0 then replies != [] && !KeepsWaiting(replies[0])
    else replies != [] && KeepsWaiting(replies[0]) && SettlesAt(replies[1..], k - 1)
  }

  /** `waitForOp` succeeds at reply `k`: "DONE" there, after a first status
      that is not "DONE" and re-polled statuses all in InProgress */
  predicate DoneAt(replies: seq<Reply>, k: nat)
  {
    k < |replies| && replies[k].Operation? && replies[k].op.status == "DONE" &&
    (k > 0 ==> replies[0].Operation? && replies[0].op.status != "DONE") &&
    forall j :: 0 < j < k ==> StillRunning(replies[j])
  }

  lemma PollsCons(c: Client, op: int, n: nat)
    ensures [Request(c, OperationStatus(op))] + Polls(c, op, n) == Polls(c, op, n + 1)
  {
    var a := [Request(c, OperationStatus(op))] + Polls(c, op, n);
    var b := Polls(c, op, n + 1);
    assert forall i :: 0 <= i < n + 1 ==> a[i] == b[i];
  }

  /** The re-polling loop ends with the verdict of its first settling reply,
      after exactly one request per reply up to it */
  lemma {:induction false} RepollSettles(c: Client, op: int, replies: seq<Reply>, k: nat)
    requires SettlesAt(replies, k)
    ensures Repoll(c, op, replies) == Run(Settle(op, replies[k]), Polls(c, op, k + 1), replies[k + 1..])
  {
    if k > 0 {
      assert SettlesAt(replies[1..], k - 1) by {
        forall j | 0 <= j < k - 1 ensures StillRunning(replies[1..][j]) {
          assert StillRunning(replies[j + 1]);
        }
      }
      assert StillRunning(replies[0]);
      RepollSettles(c, op, replies[1..], k - 1);
      PollsCons(c, op, k);
      assert replies[1..][k - 1] == replies[k];
      assert replies[1..][k..] == replies[k + 1..];
    }
  }

  /** While every reply keeps it waiting, the re-polling loop never returns */
  lemma {:induction false} RepollHangs(c: Client, op: int, replies: seq<Reply>)
    requires forall j :: 0 <= j < |replies| ==> StillRunning(replies[j])
    ensures Repoll(c, op, replies) == Run(Hang, Polls(c, op, |replies| + 1), [])
  {
    if replies != [] {
      assert StillRunning(replies[0]);
      assert forall j :: 0 <= j < |replies[1..]| ==> StillRunning(replies[1..][j]) by {
        forall j | 0 <= j < |replies[1..]| ensures StillRunning(replies[1..][j]) {
          assert StillRunning(replies[j + 1]);
        }
      }
      RepollHangs(c, op, replies[1..]);
      PollsCons(c, op, |replies|);
    }
  }

  /** `waitForOp` ends with the verdict of the reply that decides it */
  lemma WaitDecided(c: Client, op: int, replies: seq<Reply>, k: nat)
    requires DecidesAt(replies, k)
    ensures WaitRun(c, op, replies) == Run(Settle(op, replies[k]), Polls(c, op, k + 1), replies[k + 1..])
  {
    if k > 0 {
      RepollSettles(c, op, replies[1..], k - 1);
      PollsCons(c, op, k);
      assert replies[1..][k - 1] == replies[k];
      assert replies[1..][k..] == replies[k + 1..];
    } else {
      assert Polls(c, op, 1) == [Request(c, OperationStatus(op))];
    }
  }

  /** `waitForOp` never returns when no reply decides it */
  lemma WaitHangs(c: Client, op: int, replies: seq<Reply>)
    requires replies == [] ||
             (KeepsWaiting(replies[0]) && forall j :: 1 <= j < |replies| ==> StillRunning(replies[j]))
    ensures WaitRun(c, op, replies) == Run(Hang, Polls(c, op, |replies| + 1), [])
  {
    if replies == [] {
      assert Polls(c, op, 1) == [Request(c, OperationStatus(op))];
    } else {
      assert forall j :: 0 <= j < |replies[1..]| ==> StillRunning(replies[1..][j]) by {
        forall j | 0 <= j < |replies[1..]| ensures StillRunning(replies[1..][j]) {
          assert StillRunning(replies[j + 1]);
        }
      }
      RepollHangs(c, op, replies[1..]);
      PollsCons(c, op, |replies|);
    }
  }

  /** The first reply of a sequence that is not StillRunning, when there is one */
  lemma {:induction false} FirstSettling(replies: seq<Reply>, j: nat) returns (k: nat)
    requires j < |replies| && !StillRunning(replies[j])
    ensures SettlesAt(replies, k) && k <= j
  {
    if !StillRunning(replies[0]) {
      k := 0;
    } else {
      var k' := FirstSettling(replies[1..], j - 1);
      k := k' + 1;
      forall i | 0 <= i < k ensures StillRunning(replies[i]) {
        if i > 0 {
          assert replies[1..][i - 1] == replies[i];
        }
      }
    }
  }

  /** Either some reply decides `waitForOp`, or the wait never returns on these replies */
  lemma DecidedOrHangs(c: Client, op: int, replies: seq<Reply>) returns (k: nat, decided: bool)
    ensures decided ==> DecidesAt(replies, k) && k < |replies|
    ensures !decided ==>
              (replies == [] ||
               (KeepsWaiting(replies[0]) && forall j :: 1 <= j < |replies| ==> StillRunning(replies[j]))) &&
              WaitRun(c, op, replies) == Run(Hang, Polls(c, op, |replies| + 1), [])
  {
    if replies == [] {
      WaitHangs(c, op, replies);
      return 0, false;
    }
    if !KeepsWaiting(replies[0]) {
      return 0, true;
    }
    if j :| 1 <= j < |replies| && !StillRunning(replies[j]) {
      assert !StillRunning(replies[1..][j - 1]);
      var k' := FirstSettling(replies[1..], j - 1);
      return k' + 1, true;
    }
    WaitHangs(c, op, replies);
    return 0, false;
  }

  /** `waitForOp` succeeds exactly when the first status is "DONE" (and it
      polls once), or a later poll reads "DONE" after re-polled statuses
      all in InProgress and no failed call; it then sends one request per
      reply up to that one */
  lemma WaitSucceeds(c: Client, op: int, replies: seq<Reply>)
    ensures WaitRun(c, op, replies).verdict.Ok? <==> exists k: nat :: DoneAt(replies, k)
    ensures forall k: nat :: DoneAt(replies, k) ==> |WaitRun(c, op, replies).sent| == k + 1
  {
    forall k: nat | DoneAt(replies, k)
      ensures WaitRun(c, op, replies).verdict.Ok? && |WaitRun(c, op, replies).sent| == k + 1
    {
      if k > 0 {
        assert SettlesAt(replies[1..], k - 1) by {
          forall j | 0 <= j < k - 1 ensures StillRunning(replies[1..][j]) {
            assert StillRunning(replies[j + 1]);
          }
          assert replies[1..][k - 1] == replies[k];
        }
      }
      WaitDecided(c, op, replies, k);
    }
    if WaitRun(c, op, replies).verdict.Ok? {
      var k, decided := DecidedOrHangs(c, op, replies);
      if decided {
        WaitDecided(c, op, replies, k);
        assert DoneAt(replies, k) by {
          if k > 0 {
            forall j | 0 < j < k ensures StillRunning(replies[j]) {
              assert replies[1..][j - 1] == replies[j];
            }
            assert replies[1..][k - 1] == replies[k];
          }
        }
      }
    }
  }

  /** Re-polled reply `k` carries `status`, which is neither "DONE" nor in
      InProgress, after a first status that is not "DONE" and re-polled
      statuses all in InProgress */
  predicate RejectedAt(replies: seq<Reply>, k: nat, status: string)
  {
    0 < k < |replies| && KeepsWaiting(replies[0]) &&
    (forall j :: 0 < j < k ==> StillRunning(replies[j])) &&
    replies[k].Operation? && replies[k].op.status == status &&
    status != "DONE" && status !in InProgress
  }

  /** `waitForOp` fails with a bad status exactly when a RE-POLLED status is
      rejected; the first status is never checked this way */
  lemma WaitRejectsStatus(c: Client, op: int, replies: seq<Reply>, status: string)
    ensures WaitRun(c, op, replies).verdict == Fail(BadOperationStatus(op, status)) <==>
            exists k: nat :: RejectedAt(replies, k, status)
  {
    forall k: nat | RejectedAt(replies, k, status)
      ensures WaitRun(c, op, replies).verdict == Fail(BadOperationStatus(op, status))
    {
      assert SettlesAt(replies[1..], k - 1) by {
        forall j | 0 <= j < k - 1 ensures StillRunning(replies[1..][j]) {
          assert StillRunning(replies[j + 1]);
        }
        assert replies[1..][k - 1] == replies[k];
      }
      WaitDecided(c, op, replies, k);
    }
    var k, decided := DecidedOrHangs(c, op, replies);
    if decided {
      WaitDecided(c, op, replies, k);
      if k > 0 {
        forall j | 0 < j < k ensures StillRunning(replies[j]) {
          assert replies[1..][j - 1] == replies[j];
        }
        assert replies[1..][k - 1] == replies[k];
        if WaitRun(c, op, replies).verdict == Fail(BadOperationStatus(op, status)) {
          assert RejectedAt(replies, k, status);
        }
      }
    }
  }

  /** `waitForOp` never returns exactly when no reply decides it */
  lemma WaitNeverReturns(c: Client, op: int, replies: seq<Reply>)
    ensures WaitRun(c, op, replies).verdict.Hang? <==>
            replies == [] ||
            (KeepsWaiting(replies[0]) && forall j :: 1 <= j < |replies| ==> StillRunning(replies[j]))
  {
    var k, decided := DecidedOrHangs(c, op, replies);
    if decided {
      WaitDecided(c, op, replies, k);
      if k > 0 {
        assert replies[1..][k - 1] == replies[k];
        assert !StillRunning(replies[k]);
      }
    }
  }

  /** The asymmetry of `waitForOp`: a first status outside "DONE" and
      InProgress starts the loop, while the same status on a re-poll fails */
  lemma FirstStatusExempt(c: Client, op: int, id: int, status: string)
    requires status != "DONE" && status !in InProgress
    ensures var done := Operation(OperationInfo(id, "DONE"));
            var odd := Operation(OperationInfo(id, status));
            WaitRun(c, op, [odd, done]).verdict == Ok(()) &&
            WaitRun(c, op, [done, odd, done]).verdict == Ok(()) &&
            WaitRun(c, op, [odd, odd, done]).verdict == Fail(BadOperationStatus(op, status))
  {
    var done := Operation(OperationInfo(id, "DONE"));
    var odd := Operation(OperationInfo(id, status));
    assert DecidesAt([odd, done], 1) by { assert [odd, done][1..] == [done]; }
    WaitDecided(c, op, [odd, done], 1);
    WaitDecided(c, op, [done, odd, done], 0);
    assert DecidesAt([odd, odd, done], 1) by { assert [odd, odd, done][1..] == [odd, done]; }
    WaitDecided(c, op, [odd, odd, done], 1);
  }

  // ---------------------------------------------------------------------
  // Start, Stop, Restart, Kill and the delete step of Remove

  /** The calls that return an operation the driver then waits for */
  predicate IsVmAction(call: Call)
  {
    call.VmStart? || call.VmStop? || call.VmReboot? || call.VmDelete?
  }

  /** One VM action, then `waitForOp` on the operation it returned */
  function VmOperationRun(c: Client, call: Call, replies: seq<Reply>): (r: Run<()>)
    requires IsVmAction(call)
    ensures Accounted(replies, r) && |r.sent| > 0 && r.sent[0] == Request(c, call)
    ensures |r.sent| > 1 ==>
              replies[0].Operation? &&
              forall i :: 1 <= i < |r.sent| ==> r.sent[i] == Request(c, OperationStatus(replies[0].op.id))
  {
    var res := Exchange(Request(c, call), replies);
    if !res.verdict.Ok? then Propagate(res)
    else Chain(replies, res, WaitRun(c, res.verdict.value.op.id, res.rest))
  }

  /** A failed action call is the action's verdict; otherwise the wait on
      the operation it returned decides the verdict, whatever that wait
      ends with ("Bad operation status", a failed poll, or no return) */
  lemma VmOperationVerdict(c: Client, call: Call, replies: seq<Reply>)
    requires IsVmAction(call)
    ensures var r := VmOperationRun(c, call, replies);
            (replies != [] && replies[0].Fault? ==> r.verdict == Fail(CallFailed(replies[0].message))) &&
            (replies != [] && !replies[0].Fault? && !replies[0].Operation? ==>
               r.verdict == Fail(Undecodable(ProcedureName(call)))) &&
            (replies != [] && replies[0].Operation? ==>
               var w := WaitRun(c, replies[0].op.id, replies[1..]);
               r.verdict == w.verdict && r.sent == [Request(c, call)] + w.sent && r.rest == w.rest)
  {
  }

  /** A VM action succeeds exactly when the action returns an operation and
      that operation is waited for to "DONE" */
  lemma VmOperationSucceeds(c: Client, call: Call, replies: seq<Reply>)
    requires IsVmAction(call)
    ensures VmOperationRun(c, call, replies).verdict.Ok? <==>
            replies != [] && replies[0].Operation? && exists k :: DoneAt(replies[1..], k)
  {
    if replies != [] && replies[0].Operation? {
      WaitSucceeds(c, replies[0].op.id, replies[1..]);
    }
  }

  // ---------------------------------------------------------------------
  // Remove

  /** The `hosting.vm.info` reply says the VM is running */
  predicate ReportsRunning(replies: seq<Reply>)
  {
    replies != [] && replies[0].Vm? && replies[0].vm.state == "running"
  }

  /** `Remove`: stop the VM if `GetState` says Running (the error `GetState`
      may return is ignored), then delete it and wait for the deletion */
  function RemoveRun(c: Client, vmId: int, replies: seq<Reply>): (r: Run<()>)
    ensures Accounted(replies, r)
    ensures replies == [] ==> r.verdict.Hang?
    ensures r.sent != [] && r.sent[0] == Request(c, VmDetails(vmId))
  {
    var st := GetStateRun(c, vmId, replies);
    if st.verdict.Hang? then Propagate(st)
    else
      var stopped :=
        if st.verdict.value.0 == MachineState.Running then VmOperationRun(c, VmStop(vmId), st.rest)
        else Run(Ok(()), [], st.rest);
      if !stopped.verdict.Ok? then Chain(replies, st, stopped)
      else Chain(replies, Chain(replies, st, stopped), VmOperationRun(c, VmDelete(vmId), stopped.rest))
  }

  /** `RemoveRun` phase by phase: the state query, the optional stop, the deletion */
  lemma RemovePhases(c: Client, vmId: int, replies: seq<Reply>)
    ensures var st := GetStateRun(c, vmId, replies);
            var r := RemoveRun(c, vmId, replies);
            (st.verdict.Hang? ==> r == Run(Hang, st.sent, st.rest)) &&
            (!st.verdict.Hang? ==>
               var stop :=
                 if st.verdict.value.0 == MachineState.Running then VmOperationRun(c, VmStop(vmId), st.rest)
                 else Run(Ok(()), [], st.rest);
               (!stop.verdict.Ok? ==> r == Run(stop.verdict, st.sent + stop.sent, stop.rest)) &&
               (stop.verdict.Ok? ==>
                  var del := VmOperationRun(c, VmDelete(vmId), stop.rest);
                  r == Run(del.verdict, st.sent + stop.sent + del.sent, del.rest)))
  {
  }

  /** `Remove` asks to stop the VM exactly when `GetState` reports it Running */
  lemma RemoveStopsOnlyRunning(c: Client, vmId: int, replies: seq<Reply>)
    ensures var r := RemoveRun(c, vmId, replies);
            (exists i :: 0 <= i < |r.sent| && r.sent[i].call == VmStop(vmId)) <==> ReportsRunning(replies)
  {
    var r := RemoveRun(c, vmId, replies);
    var st := GetStateRun(c, vmId, replies);
    if ReportsRunning(replies) {
      var stop := VmOperationRun(c, VmStop(vmId), replies[1..]);
      assert r.sent[1] == stop.sent[0];
    } else if replies != [] {
      var del := VmOperationRun(c, VmDelete(vmId), replies[1..]);
      assert r.sent == st.sent + del.sent;
      forall i | 0 <= i < |r.sent| ensures r.sent[i].call != VmStop(vmId) {
        if i > 1 {
          assert r.sent[i] == del.sent[i - 1];
        }
      }
    }
  }

  /** When the stop fails (or never returns), `Remove` returns that verdict
      after the state query and the stop's requests, and never asks for
      the deletion */
  lemma RemoveAbortsWhenStopFails(c: Client, vmId: int, replies: seq<Reply>)
    requires ReportsRunning(replies)
    requires !VmOperationRun(c, VmStop(vmId), replies[1..]).verdict.Ok?
    ensures var r := RemoveRun(c, vmId, replies);
            r.verdict == VmOperationRun(c, VmStop(vmId), replies[1..]).verdict &&
            forall i :: 0 <= i < |r.sent| ==> r.sent[i].call != VmDelete(vmId)
    ensures var r := RemoveRun(c, vmId, replies);
            var stop := VmOperationRun(c, VmStop(vmId), replies[1..]);
            r.sent == [Request(c, VmDetails(vmId))] + stop.sent && r.rest == stop.rest
  {
    var r := RemoveRun(c, vmId, replies);
    var stop := VmOperationRun(c, VmStop(vmId), replies[1..]);
    forall i | 0 <= i < |r.sent| ensures r.sent[i].call != VmDelete(vmId) {
      if i > 0 {
        assert r.sent[i] == stop.sent[i - 1];
      }
    }
  }

  /** Unless the VM is stopped first, `Remove` deletes right after
      `GetState` answers, even when that answer is an error */
  lemma RemoveDeletesWhenNotRunning(c: Client, vmId: int, replies: seq<Reply>)
    requires replies != [] && !ReportsRunning(replies)
    ensures var r := RemoveRun(c, vmId, replies);
            var del := VmOperationRun(c, VmDelete(vmId), replies[1..]);
            r.verdict == del.verdict && r.sent == [Request(c, VmDetails(vmId))] + del.sent &&
            r.sent[1] == Request(c, VmDelete(vmId))
  {
  }

  /** After a successful stop, `Remove` deletes and its verdict is the deletion's */
  lemma RemoveDeletesAfterStop(c: Client, vmId: int, replies: seq<Reply>)
    requires ReportsRunning(replies)
    requires VmOperationRun(c, VmStop(vmId), replies[1..]).verdict.Ok?
    ensures var stop := VmOperationRun(c, VmStop(vmId), replies[1..]);
            var del := VmOperationRun(c, VmDelete(vmId), stop.rest);
            var r := RemoveRun(c, vmId, replies);
            r.verdict == del.verdict &&
            r.sent == [Request(c, VmDetails(vmId))] + stop.sent + del.sent &&
            r.sent[1 + |stop.sent|] == Request(c, VmDelete(vmId))
  {
  }

  // ---------------------------------------------------------------------
  // Create and the lookups it makes

  /** `datacenterByCode`: the one datacenter with that code */
  function DatacenterByCodeRun(c: Client, code: string, replies: seq<Reply>): (r: Run<DatacenterInfo>)
    ensures Accounted(replies, r) && r.sent == [Request(c, DatacenterSearch(code))]
    ensures r.verdict.Ok? <==> replies != [] && replies[0].DatacenterList? && |replies[0].dcs| == 1
    ensures r.verdict.Ok? ==> r.verdict.value == replies[0].dcs[0]
    ensures r.verdict == Fail(NotFound("Datacenter")) <==>
            replies != [] && replies[0].DatacenterList? && |replies[0].dcs| != 1
    ensures replies != [] && replies[0].Fault? ==> r.verdict == Fail(CallFailed(replies[0].message))
    ensures replies != [] && !replies[0].Fault? && !replies[0].DatacenterList? ==>
              r.verdict == Fail(Undecodable("hosting.datacenter.list"))
  {
    var res := Exchange(Request(c, DatacenterSearch(code)), replies);
    if !res.verdict.Ok? then Propagate(res)
    else if |res.verdict.value.dcs| != 1 then Run(Fail(NotFound("Datacenter")), res.sent, res.rest)
    else Run(Ok(res.verdict.value.dcs[0]), res.sent, res.rest)
  }

  /** `imageByName`: the one image with that name in that datacenter */
  function ImageByNameRun(c: Client, name: string, dcId: int, replies: seq<Reply>): (r: Run<ImageInfo>)
    ensures Accounted(replies, r) && r.sent == [Request(c, ImageSearch(ImageFilter(name, dcId)))]
    ensures r.verdict.Ok? <==> replies != [] && replies[0].ImageList? && |replies[0].images| == 1
    ensures r.verdict.Ok? ==> r.verdict.value == replies[0].images[0]
    ensures r.verdict == Fail(NotFound("Image")) <==>
            replies != [] && replies[0].ImageList? && |replies[0].images| != 1
    ensures replies != [] && replies[0].Fault? ==> r.verdict == Fail(CallFailed(replies[0].message))
    ensures replies != [] && !replies[0].Fault? && !replies[0].ImageList? ==>
              r.verdict == Fail(Undecodable("hosting.image.list"))
  {
    var res := Exchange(Request(c, ImageSearch(ImageFilter(name, dcId))), replies);
    if !res.verdict.Ok? then Propagate(res)
    else if |res.verdict.value.images| != 1 then Run(Fail(NotFound("Image")), res.sent, res.rest)
    else Run(Ok(res.verdict.value.images[0]), res.sent, res.rest)
  }

  /** `vmById`: the VM's details */
  function VmByIdRun(c: Client, id: int, replies: seq<Reply>): (r: Run<VmInfo>)
    ensures Accounted(replies, r) && r.sent == [Request(c, VmDetails(id))]
    ensures r.verdict.Ok? <==> replies != [] && replies[0].Vm?
    ensures r.verdict.Ok? ==> r.verdict.value == replies[0].vm
    ensures replies != [] && replies[0].Fault? ==> r.verdict == Fail(CallFailed(replies[0].message))
    ensures replies != [] && !replies[0].Fault? && !replies[0].Vm? ==>
              r.verdict == Fail(Undecodable("hosting.vm.info"))
  {
    var res := Exchange(Request(c, VmDetails(id)), replies);
    if !res.verdict.Ok? then Propagate(res)
    else Run(Ok(res.verdict.value.vm), res.sent, res.rest)
  }

  /** `vmByName`: the details of the one VM with that host name */
  function VmByNameRun(c: Client, name: string, replies: seq<Reply>): (r: Run<VmInfo>)
    ensures Accounted(replies, r) && 0 < |r.sent| <= 2 && r.sent[0] == Request(c, VmSearch(name))
    ensures r.verdict.Ok? <==>
            |replies| >= 2 && replies[0].VmList? && |replies[0].vms| == 1 && replies[1].Vm?
    ensures r.verdict.Ok? ==>
              r.verdict.value == replies[1].vm &&
              r.sent == [Request(c, VmSearch(name)), Request(c, VmDetails(replies[0].vms[0].id))]
    ensures r.verdict == Fail(NotFound("Vm")) <==>
            replies != [] && replies[0].VmList? && |replies[0].vms| != 1
    ensures replies != [] && replies[0].Fault? ==> r.verdict == Fail(CallFailed(replies[0].message))
    ensures replies != [] && !replies[0].Fault? && !replies[0].VmList? ==>
              r.verdict == Fail(Undecodable("hosting.vm.list"))
    ensures |replies| >= 2 && replies[0].VmList? && |replies[0].vms| == 1 && replies[1].Fault? ==>
              r.verdict == Fail(CallFailed(replies[1].message))
    ensures !(replies != [] && replies[0].VmList? && |replies[0].vms| == 1) ==>
              r.sent == [Request(c, VmSearch(name))]
  {
    var res := Exchange(Request(c, VmSearch(name)), replies);
    if !res.verdict.Ok? then Propagate(res)
    else if |res.verdict.value.vms| != 1 then Run(Fail(NotFound("Vm")), res.sent, res.rest)
    else Chain(replies, res, VmByIdRun(c, res.verdict.value.vms[0].id, res.rest))
  }

  /** After a search that finds exactly one VM, `vmByName` is `vmById` on
      that VM's id, verdict and requests alike */
  lemma VmByNameLooksUpDetails(c: Client, name: string, replies: seq<Reply>)
    requires replies != [] && replies[0].VmList? && |replies[0].vms| == 1
    ensures var r := VmByNameRun(c, name, replies);
            var details := VmByIdRun(c, replies[0].vms[0].id, replies[1..]);
            r.verdict == details.verdict && r.sent == [Request(c, VmSearch(name))] + details.sent
  {
  }

  /** The fields of the driver that `Create` reads besides the client */
  datatype Settings = Settings(datacenter: string, image: string, machineName: string, memory: int, core: int)

  /** The `hosting.vm.create_from` call of `Create` */
  function CreateFromCall(s: Settings, sshKey: string, dc: DatacenterInfo, image: ImageInfo): Call
  {
    VmCreateFrom(
      VmCreateRequest(dc.id, s.machineName, s.memory, s.core, 4, sshKey, "apt-get install -y sudo"),
      DiskCreateRequest(s.machineName, dc.id, 5120),
      image.diskId)
  }

  /** A run of `Create` (or of its tail), and the values it assigned to
      `VmID` and `IPAddress`, if any */
  datatype Creation = Creation(run: Run<()>, vmId: Option<int>, ipAddress: Option<string>)

  /** The VM is found again by name and its id and first IP are recorded;
      the id is recorded before the IP is read, so a VM without an IP
      panics with the id already assigned */
  function RecordRun(c: Client, name: string, replies: seq<Reply>): (o: Creation)
    ensures Accounted(replies, o.run)
    ensures o.vmId.Some? <==> VmByNameRun(c, name, replies).verdict.Ok?
    ensures o.vmId.Some? ==>
              |replies| >= 2 && replies[1].Vm? && o.vmId.value == replies[1].vm.id &&
              o.run.sent == VmByNameRun(c, name, replies).sent
    ensures o.ipAddress.Some? <==> o.run.verdict.Ok?
    ensures o.vmId.Some? && !o.run.verdict.Ok? ==> o.run.verdict == Fail(IndexOutOfRange(0, 0))
    ensures o.ipAddress.Some? ==>
              o.vmId.Some? && replies[1].vm.ifaces != [] && replies[1].vm.ifaces[0].ips != [] &&
              o.ipAddress.value == replies[1].vm.ifaces[0].ips[0].ip
  {
    var vm := VmByNameRun(c, name, replies);
    if !vm.verdict.Ok? then Creation(Propagate(vm), None, None)
    else
      var info := vm.verdict.value;
      if |info.ifaces| == 0 || |info.ifaces[0].ips| == 0 then
        Creation(Run(Fail(IndexOutOfRange(0, 0)), vm.sent, vm.rest), Some(info.id), None)
      else
        Creation(Run(Ok(()), vm.sent, vm.rest), Some(info.id), Some(info.ifaces[0].ips[0].ip))
  }

  /** The VM is created, the third operation `create_from` returns is waited
      for, and the VM is recorded */
  function LaunchRun(c: Client, s: Settings, sshKey: string, dc: DatacenterInfo, image: ImageInfo,
                     replies: seq<Reply>): (o: Creation)
    ensures Accounted(replies, o.run) && o.run.sent != []
    ensures o.run.sent[0] == Request(c, CreateFromCall(s, sshKey, dc, image))
    ensures o.ipAddress.Some? <==> o.run.verdict.Ok?
    ensures o.ipAddress.Some? ==> o.vmId.Some?
    ensures o.vmId.Some? && !o.run.verdict.Ok? ==> o.run.verdict == Fail(IndexOutOfRange(0, 0))
  {
    var made := Exchange(Request(c, CreateFromCall(s, sshKey, dc, image)), replies);
    if !made.verdict.Ok? then Creation(Propagate(made), None, None)
    else
      var ops := made.verdict.value.ops;
      if |ops| <= 2 then Creation(Run(Fail(IndexOutOfRange(2, |ops|)), made.sent, made.rest), None, None)
      else
        var waited := WaitRun(c, ops[2].id, made.rest);
        if !waited.verdict.Ok? then Creation(Chain(replies, made, Propagate(waited)), None, None)
        else
          var rec := RecordRun(c, s.machineName, waited.rest);
          Creation(Chain(replies, Chain(replies, made, waited), rec.run), rec.vmId, rec.ipAddress)
  }

  /** `Create`: with a usable SSH key, look up the datacenter and the image,
      create the VM, wait for it, and record its id and IP */
  function CreateRun(c: Client, s: Settings, sshKey: Result<string>, replies: seq<Reply>): (o: Creation)
    ensures Accounted(replies, o.run)
    ensures sshKey.Failure? ==> o == Creation(Run(Fail(sshKey.error), [], replies), None, None)
    ensures o.ipAddress.Some? <==> o.run.verdict.Ok?
    ensures o.ipAddress.Some? ==> o.vmId.Some?
    ensures o.vmId.Some? && !o.run.verdict.Ok? ==> o.run.verdict == Fail(IndexOutOfRange(0, 0))
  {
    if sshKey.Failure? then Creation(Run(Fail(sshKey.error), [], replies), None, None)
    else
      var dc := DatacenterByCodeRun(c, s.datacenter, replies);
      if !dc.verdict.Ok? then Creation(Propagate(dc), None, None)
      else
        var image := ImageByNameRun(c, s.image, dc.verdict.value.id, dc.rest);
        if !image.verdict.Ok? then Creation(Chain(replies, dc, Propagate(image)), None, None)
        else
          var launched := LaunchRun(c, s, sshKey.value, dc.verdict.value, image.verdict.value, image.rest);
          Creation(Chain(replies, Chain(replies, dc, image), launched.run), launched.vmId, launched.ipAddress)
  }

  /** The record step succeeds exactly when the VM is found by name and
      its first interface has an address */
  lemma RecordSucceeds(c: Client, name: string, replies: seq<Reply>)
    ensures RecordRun(c, name, replies).run.verdict.Ok? <==>
            VmByNameRun(c, name, replies).verdict.Ok? &&
            replies[1].vm.ifaces != [] && replies[1].vm.ifaces[0].ips != []
  {
  }

  /** A failed lookup by name ends the record step with the lookup's own
      error, after the lookup's requests, with nothing recorded */
  lemma RecordFails(c: Client, name: string, replies: seq<Reply>)
    requires !VmByNameRun(c, name, replies).verdict.Ok?
    ensures var vm := VmByNameRun(c, name, replies);
            var o := RecordRun(c, name, replies);
            o.run.verdict == Abort(vm.verdict) && o.run.sent == vm.sent && o.vmId.None? && o.ipAddress.None?
  {
  }

  /** A failed `create_from` ends the tail of `Create` with the call's
      error after that one request; a failed wait on the third operation
      ends it with the wait's verdict, before the VM is looked up */
  lemma LaunchFails(c: Client, s: Settings, sshKey: string, dc: DatacenterInfo, image: ImageInfo,
                    replies: seq<Reply>)
    ensures var o := LaunchRun(c, s, sshKey, dc, image, replies);
            (replies != [] && replies[0].Fault? ==>
               o.run.verdict == Fail(CallFailed(replies[0].message)) && |o.run.sent| == 1 && o.vmId.None?) &&
            (replies != [] && !replies[0].Fault? && !replies[0].OperationList? ==>
               o.run.verdict == Fail(Undecodable("hosting.vm.create_from")) && |o.run.sent| == 1 && o.vmId.None?)
    ensures var o := LaunchRun(c, s, sshKey, dc, image, replies);
            replies != [] && replies[0].OperationList? && |replies[0].ops| > 2 &&
            !WaitRun(c, replies[0].ops[2].id, replies[1..]).verdict.Ok? ==>
              var waited := WaitRun(c, replies[0].ops[2].id, replies[1..]);
              o.run.verdict == waited.verdict &&
              o.run.sent == [Request(c, CreateFromCall(s, sshKey, dc, image))] + waited.sent &&
              o.vmId.None?
  {
  }

  /** Once the wait on the third operation has succeeded, the record step
      decides the tail of `Create`: its verdict, its requests after
      `create_from` and the polls, and the id and IP it records */
  lemma LaunchRecords(c: Client, s: Settings, sshKey: string, dc: DatacenterInfo, image: ImageInfo,
                      replies: seq<Reply>)
    requires replies != [] && replies[0].OperationList? && |replies[0].ops| > 2
    requires WaitRun(c, replies[0].ops[2].id, replies[1..]).verdict.Ok?
    ensures var o := LaunchRun(c, s, sshKey, dc, image, replies);
            var waited := WaitRun(c, replies[0].ops[2].id, replies[1..]);
            var rec := RecordRun(c, s.machineName, waited.rest);
            o.run.verdict == rec.run.verdict &&
            o.run.sent == [Request(c, CreateFromCall(s, sshKey, dc, image))] + waited.sent + rec.run.sent &&
            o.vmId == rec.vmId && o.ipAddress == rec.ipAddress
  {
  }

  /** The tail of `Create` succeeds exactly when `create_from` returns at
      least three operations, the wait on the third one succeeds and the
      VM is then recorded */
  lemma LaunchSucceeds(c: Client, s: Settings, sshKey: string, dc: DatacenterInfo, image: ImageInfo,
                       replies: seq<Reply>)
    ensures var o := LaunchRun(c, s, sshKey, dc, image, replies);
            o.run.verdict.Ok? <==>
            replies != [] && replies[0].OperationList? && |replies[0].ops| > 2 &&
            WaitRun(c, replies[0].ops[2].id, replies[1..]).verdict.Ok? &&
            RecordRun(c, s.machineName, WaitRun(c, replies[0].ops[2].id, replies[1..]).rest).run.verdict.Ok?
  {
    if replies != [] && replies[0].OperationList? && |replies[0].ops| > 2 {
      var waited := WaitRun(c, replies[0].ops[2].id, replies[1..]);
      if waited.verdict.Ok? {
        var rec := RecordRun(c, s.machineName, waited.rest);
        assert LaunchRun(c, s, sshKey, dc, image, replies).run.verdict == rec.run.verdict;
      }
    }
  }

  /** A `create_from` that returns fewer than three operations is the index
      panic on `res[2]`, before any wait */
  lemma LaunchShortOperationList(c: Client, s: Settings, sshKey: string, dc: DatacenterInfo, image: ImageInfo,
                                 replies: seq<Reply>)
    requires replies != [] && replies[0].OperationList? && |replies[0].ops| <= 2
    ensures var o := LaunchRun(c, s, sshKey, dc, image, replies);
            o.run.verdict == Fail(IndexOutOfRange(2, |replies[0].ops|)) && |o.run.sent| == 1 &&
            o.vmId.None?
  {
  }

  /** `Create` succeeds exactly when the SSH key is usable, exactly one
      datacenter and then exactly one image in it are found, and the tail
      succeeds on them */
  lemma CreateSucceeds(c: Client, s: Settings, sshKey: Result<string>, replies: seq<Reply>)
    ensures CreateRun(c, s, sshKey, replies).run.verdict.Ok? <==>
            sshKey.Success? && |replies| >= 2 &&
            replies[0].DatacenterList? && |replies[0].dcs| == 1 &&
            replies[1].ImageList? && |replies[1].images| == 1 &&
            LaunchRun(c, s, sshKey.value, replies[0].dcs[0], replies[1].images[0], replies[2..]).run.verdict.Ok?
  {
    if sshKey.Success? && replies != [] && replies[0].DatacenterList? && |replies[0].dcs| == 1 {
      var dc := DatacenterByCodeRun(c, s.datacenter, replies);
      assert dc.rest == replies[1..];
      if |replies| >= 2 {
        var image := ImageByNameRun(c, s.image, dc.verdict.value.id, dc.rest);
        assert image.rest == replies[2..];
      }
    }
  }

  /** With a usable key, a failed datacenter lookup ends `Create` with the
      lookup's error after that one request, and a failed image lookup
      with its error after the two lookups; nothing is recorded */
  lemma CreateFails(c: Client, s: Settings, sshKey: Result<string>, replies: seq<Reply>)
    requires sshKey.Success?
    ensures var o := CreateRun(c, s, sshKey, replies);
            var dc := DatacenterByCodeRun(c, s.datacenter, replies);
            !dc.verdict.Ok? ==>
              o.run.verdict == Abort(dc.verdict) && o.run.sent == dc.sent && o.vmId.None?
    ensures var o := CreateRun(c, s, sshKey, replies);
            var dc := DatacenterByCodeRun(c, s.datacenter, replies);
            dc.verdict.Ok? ==>
              var img := ImageByNameRun(c, s.image, dc.verdict.value.id, dc.rest);
              !img.verdict.Ok? ==>
                o.run.verdict == Abort(img.verdict) && o.run.sent == dc.sent + img.sent && o.vmId.None?
  {
  }

  /** With a usable key and both lookups successful, the tail decides
      `Create`: its verdict, its requests after the two lookups, and the id
      and IP it records */
  lemma CreateRunsTail(c: Client, s: Settings, sshKey: Result<string>, replies: seq<Reply>)
    requires sshKey.Success? && |replies| >= 2
    requires replies[0].DatacenterList? && |replies[0].dcs| == 1
    requires replies[1].ImageList? && |replies[1].images| == 1
    ensures var o := CreateRun(c, s, sshKey, replies);
            var tail := LaunchRun(c, s, sshKey.value, replies[0].dcs[0], replies[1].images[0], replies[2..]);
            o.run.verdict == tail.run.verdict &&
            o.run.sent == [Request(c, DatacenterSearch(s.datacenter)),
                           Request(c, ImageSearch(ImageFilter(s.image, replies[0].dcs[0].id)))] + tail.run.sent &&
            o.vmId == tail.vmId && o.ipAddress == tail.ipAddress
  {
    var dc := DatacenterByCodeRun(c, s.datacenter, replies);
    assert dc.rest == replies[1..];
    assert replies[1..][1..] == replies[2..];
  }

  /** The tail of `Create` records a VM id only after the wait on the third
      operation `create_from` returned has succeeded */
  lemma LaunchRecordsOnlyAfterWait(c: Client, s: Settings, sshKey: string, dc: DatacenterInfo, image: ImageInfo,
                                   replies: seq<Reply>)
    requires LaunchRun(c, s, sshKey, dc, image, replies).vmId.Some?
    ensures replies != [] && replies[0].OperationList? && |replies[0].ops| > 2 &&
            WaitRun(c, replies[0].ops[2].id, replies[1..]).verdict.Ok?
  {
  }

  /** Once the tail of `Create` records a VM id, it has sent `create_from`,
      `polls` polls of the third operation returned, the VM lookup by name
      and the VM details; the id, and on success the IP, are those of the
      details reply */
  lemma LaunchSequence(c: Client, s: Settings, sshKey: string, dc: DatacenterInfo, image: ImageInfo,
                       replies: seq<Reply>) returns (polls: nat)
    requires LaunchRun(c, s, sshKey, dc, image, replies).vmId.Some?
    ensures var o := LaunchRun(c, s, sshKey, dc, image, replies);
            0 < polls && polls + 3 <= |replies| &&
            replies[0].OperationList? && |replies[0].ops| > 2 &&
            replies[polls + 1].VmList? && |replies[polls + 1].vms| == 1 && replies[polls + 2].Vm? &&
            o.run.sent == [Request(c, CreateFromCall(s, sshKey, dc, image))] +
                          Polls(c, replies[0].ops[2].id, polls) +
                          [Request(c, VmSearch(s.machineName)),
                           Request(c, VmDetails(replies[polls + 1].vms[0].id))] &&
            o.vmId == Some(replies[polls + 2].vm.id) &&
            (o.ipAddress.Some? ==> o.ipAddress.value == replies[polls + 2].vm.ifaces[0].ips[0].ip)
  {
    var made := Exchange(Request(c, CreateFromCall(s, sshKey, dc, image)), replies);
    var op := made.verdict.value.ops[2].id;
    var waited := WaitRun(c, op, made.rest);
    assert waited.verdict.Ok?;
    var rec := RecordRun(c, s.machineName, waited.rest);
    polls := |waited.sent|;
    assert waited.rest == replies[1 + polls..];
    assert waited.sent == Polls(c, op, polls);
    assert waited.rest[0] == replies[polls + 1] && waited.rest[1] == replies[polls + 2];
    var o := LaunchRun(c, s, sshKey, dc, image, replies);
    assert o.run.sent == made.sent + waited.sent + rec.run.sent;
  }

  /** Once `Create` records a VM id, it has first looked up the datacenter
      and the image in that datacenter, each found exactly once, and then
      run the tail above on the datacenter and image found */
  lemma CreateSequence(c: Client, s: Settings, sshKey: Result<string>, replies: seq<Reply>)
    requires CreateRun(c, s, sshKey, replies).vmId.Some?
    ensures var o := CreateRun(c, s, sshKey, replies);
            sshKey.Success? && 2 <= |o.run.sent| && 2 <= |replies| &&
            replies[0].DatacenterList? && |replies[0].dcs| == 1 &&
            o.run.sent[0] == Request(c, DatacenterSearch(s.datacenter)) &&
            replies[1].ImageList? && |replies[1].images| == 1 &&
            o.run.sent[1] == Request(c, ImageSearch(ImageFilter(s.image, replies[0].dcs[0].id))) &&
            var tail := LaunchRun(c, s, sshKey.value, replies[0].dcs[0], replies[1].images[0], replies[2..]);
            o.run.sent[2..] == tail.run.sent && o.vmId == tail.vmId && o.ipAddress == tail.ipAddress
  {
    var dc := DatacenterByCodeRun(c, s.datacenter, replies);
    var image := ImageByNameRun(c, s.image, dc.verdict.value.id, dc.rest);
    assert image.rest == replies[2..];
    var o := CreateRun(c, s, sshKey, replies);
    var tail := LaunchRun(c, s, sshKey.value, dc.verdict.value, image.verdict.value, image.rest);
    assert o.run.sent == dc.sent + image.sent + tail.run.sent;
  }

  /** The tail of `Create` succeeds on a script where `create_from`
      returns at least three operations, the third reads "DONE" on its
      first poll, and exactly one VM, which has an address, is found */
  lemma LaunchWitness(c: Client, s: Settings, sshKey: string, dc: DatacenterInfo, image: ImageInfo,
                      ops: seq<OperationInfo>, vm: VmInfo)
    requires |ops| > 2 && vm.ifaces != [] && vm.ifaces[0].ips != []
    ensures var script := [OperationList(ops), Operation(OperationInfo(ops[2].id, "DONE")), VmList([vm]), Vm(vm)];
            var o := LaunchRun(c, s, sshKey, dc, image, script);
            o.run.verdict == Ok(()) && o.run.rest == [] &&
            o.vmId == Some(vm.id) && o.ipAddress == Some(vm.ifaces[0].ips[0].ip)
  {
    var found := [VmList([vm]), Vm(vm)];
    assert found[1..] == [Vm(vm)];
    var polled := [Operation(OperationInfo(ops[2].id, "DONE"))] + found;
    assert WaitRun(c, ops[2].id, polled) == Run(Ok(()), [Request(c, OperationStatus(ops[2].id))], found) by {
      assert polled[1..] == found;
    }
    assert ([OperationList(ops)] + polled)[1..] == polled;
  }

  /** `Create` succeeds, recording the VM's id and address, on a script
      with one datacenter, one image in it, and the tail above */
  lemma CreateWitness(c: Client, s: Settings, sshKey: string, dc: DatacenterInfo, image: ImageInfo,
                      ops: seq<OperationInfo>, vm: VmInfo)
    requires |ops| > 2 && vm.ifaces != [] && vm.ifaces[0].ips != []
    ensures var script := [DatacenterList([dc]), ImageList([image]), OperationList(ops),
                           Operation(OperationInfo(ops[2].id, "DONE")), VmList([vm]), Vm(vm)];
            var o := CreateRun(c, s, Success(sshKey), script);
            o.run.verdict == Ok(()) && o.run.rest == [] &&
            o.vmId == Some(vm.id) && o.ipAddress == Some(vm.ifaces[0].ips[0].ip)
  {
    var tail := [OperationList(ops), Operation(OperationInfo(ops[2].id, "DONE")), VmList([vm]), Vm(vm)];
    LaunchWitness(c, s, sshKey, dc, image, ops, vm);
    var script := [DatacenterList([dc]), ImageList([image])] + tail;
    assert script[1..] == [ImageList([image])] + tail;
    assert script[2..] == tail;
  }

  // ---------------------------------------------------------------------
  // The URL and the error text

  /** The part of a `tcp://<host>:2376` URL that names the host */
  function UrlHost(url: string): Option<string>
  {
    if |url| >= 11 && url[..6] == "tcp://" && url[|url| - 5..] == ":2376" then Some(url[6..|url| - 5])
    else None
  }

  /** The docker daemon URL of a host: port 2376 over tcp */
  function DockerUrl(ip: string): (u: string)
    ensures UrlHost(u) == Some(ip)
    ensures |u| == |ip| + 11
  {
    var u := "tcp://" + ip + ":2376";
    assert u[..6] == "tcp://";
    assert u[|u| - 5..] == ":2376";
    assert u[6..|u| - 5] == ip;
    u
  }

  /** The decimal digit `d` */
  function Digit(d: nat): char
    requires d < 10
  {
    "0123456789"[d]
  }

  predicate AllDigits(s: string)
  {
    forall i :: 0 <= i < |s| ==> '0' <= s[i] <= '9'
  }

  /** A natural number in decimal, as Go's `%d` prints it */
  function NatString(n: nat): (s: string)
    ensures s != [] && AllDigits(s)
  {
    if n < 10 then [Digit(n)] else NatString(n / 10) + [Digit(n % 10)]
  }

  /** An integer in decimal, as Go's `%d` prints it */
  function DecimalString(n: int): string
  {
    if n < 0 then "-" + NatString(-n) else NatString(n)
  }

  /** The value of a string of decimal digits */
  function ParseNat(s: string): nat
    requires AllDigits(s)
  {
    if s == [] then 0 else ParseNat(s[..|s| - 1]) * 10 + (s[|s| - 1] as int - '0' as int)
  }

  /** Digits, optionally after a minus sign */
  predicate IsNumeral(s: string)
  {
    (s != [] && AllDigits(s)) || (|s| >= 2 && s[0] == '-' && AllDigits(s[1..]))
  }

  function ParseDecimal(s: string): int
    requires IsNumeral(s)
  {
    if s[0] == '-' then 0 - ParseNat(s[1..]) else ParseNat(s)
  }

  lemma {:induction false} NatStringRoundTrip(n: nat)
    ensures ParseNat(NatString(n)) == n
  {
    if n >= 10 {
      NatStringRoundTrip(n / 10);
      var s := NatString(n);
      assert s[..|s| - 1] == NatString(n / 10);
    }
  }

  /** Reading back what `%d` printed gives the number */
  lemma DecimalRoundTrip(n: int)
    ensures IsNumeral(DecimalString(n)) && ParseDecimal(DecimalString(n)) == n
  {
    if n < 0 {
      NatStringRoundTrip(-n);
      assert DecimalString(n)[1..] == NatString(-n);
    } else {
      NatStringRoundTrip(n);
    }
  }

  const BadStatusPrefix := "Bad operation status for "

  /** The text of `BadOperationStatus(op, status)` */
  function BadStatusMessage(op: int, status: string): string
  {
    BadStatusPrefix + DecimalString(op) + " : " + status
  }

  /** The length of the leading run of minus signs and digits */
  function NumeralLength(s: string): (n: nat)
    ensures n <= |s|
  {
    if s != [] && (s[0] == '-' || '0' <= s[0] <= '9') then 1 + NumeralLength(s[1..]) else 0
  }

  /** The operation and the status named by a bad-status message */
  function ParseBadStatusMessage(m: string): Option<(int, string)>
  {
    var p := |BadStatusPrefix|;
    if |m| < p || m[..p] != BadStatusPrefix then None
    else
      var tail := m[p..];
      var n := NumeralLength(tail);
      if !IsNumeral(tail[..n]) || |tail| < n + 3 || tail[n..n + 3] != " : " then None
      else Some((ParseDecimal(tail[..n]), tail[n + 3..]))
  }

  lemma {:induction false} NumeralLengthOf(d: string, rest: string)
    requires forall i :: 0 <= i < |d| ==> d[i] == '-' || '0' <= d[i] <= '9'
    requires rest != [] && rest[0] == ' '
    ensures NumeralLength(d + rest) == |d|
  {
    if d != [] {
      assert (d + rest)[1..] == d[1..] + rest;
      NumeralLengthOf(d[1..], rest);
    } else {
      assert d + rest == rest;
    }
  }

  /** `%d` prints only minus signs and digits */
  lemma DecimalCharacters(n: int)
    ensures var d := DecimalString(n);
            forall i :: 0 <= i < |d| ==> d[i] == '-' || '0' <= d[i] <= '9'
  {
    var d := DecimalString(n);
    if n < 0 {
      forall i | 0 <= i < |d| ensures d[i] == '-' || '0' <= d[i] <= '9' {
        if i > 0 {
          assert d[i] == NatString(-n)[i - 1];
        }
      }
    }
  }

  /** The bad-status message names its operation and its status
      unambiguously, whatever the status text */
  lemma BadStatusMessageRoundTrip(op: int, status: string)
    ensures ParseBadStatusMessage(BadStatusMessage(op, status)) == Some((op, status))
  {
    var d := DecimalString(op);
    DecimalRoundTrip(op);
    var m := BadStatusMessage(op, status);
    var p := |BadStatusPrefix|;
    assert m[..p] == BadStatusPrefix;
    var tail := m[p..];
    assert tail == d + (" : " + status);
    DecimalCharacters(op);
    NumeralLengthOf(d, " : " + status);
    assert tail[..|d|] == d;
    assert tail[|d|..|d| + 3] == " : ";
    assert tail[|d| + 3..] == status;
  }
}
