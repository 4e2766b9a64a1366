/** What holds of the chat server after any sequence of requests, whatever happens to the FIFOs. */
module ChatHistory {
  import opened ChatRegistry

  function RunTo(r: Registry, inputs: seq<Input>): Registry {
    if inputs == [] then r else Handle(RunTo(r, inputs[..|inputs| - 1]), inputs[|inputs| - 1]).0
  }

  /** All chat messages written to clients, in order. */
  function Messages(r: Registry, inputs: seq<Input>): seq<Sent> {
    if inputs == [] then [] else
      Messages(r, inputs[..|inputs| - 1]) + Handle(RunTo(r, inputs[..|inputs| - 1]), inputs[|inputs| - 1]).1
  }

  /** The registered pids stay pairwise distinct and at most 100. */
  lemma {:induction false} AlwaysOk(r: Registry, inputs: seq<Input>)
    requires RegistryOk(r)
    ensures RegistryOk(RunTo(r, inputs))
  {
    if inputs == [] {
    } else {
      AlwaysOk(r, inputs[..|inputs| - 1]);
      HandleKeeps(RunTo(r, inputs[..|inputs| - 1]), inputs[|inputs| - 1], 0);
    }
  }

  // ---------------------------------------------------------------- who is registered

  /** x was registered at the beginning (k = 0) or joined with request number k. */
  predicate JoinedAt(r: Registry, inputs: seq<Input>, k: nat, x: int)
    requires k <= |inputs|
  {
    if k == 0 then x in r.pids else Joins(RunTo(r, inputs[..k - 1]), inputs[k - 1], x)
  }

  predicate StaysFrom(inputs: seq<Input>, k: nat, x: int)
    requires k <= |inputs|
  {
    forall i | k <= i < |inputs| :: !Leaves(inputs[i], x)
  }

  predicate EverJoined(r: Registry, inputs: seq<Input>, x: int) {
    exists k | 0 <= k <= |inputs| :: JoinedAt(r, inputs, k, x) && StaysFrom(inputs, k, x)
  }

  /** A pid is registered exactly when it has joined at some time and since then neither disconnected nor failed to open for
      somebody's global message. */
  lemma {:induction false} RegisteredIff(r: Registry, inputs: seq<Input>, x: int)
    requires RegistryOk(r)
    ensures x in RunTo(r, inputs).pids <==> EverJoined(r, inputs, x)
  {
    var n := |inputs|;
    if n == 0 {
      assert JoinedAt(r, inputs, 0, x) <==> x in r.pids;
      assert StaysFrom(inputs, 0, x);
    } else {
      RegisteredIff(r, inputs[..n - 1], x);
      AlwaysOk(r, inputs[..n - 1]);
      HandleKeeps(RunTo(r, inputs[..n - 1]), inputs[n - 1], x);
      OneMore(r, inputs, x);
    }
  }

  lemma OneMore(r: Registry, inputs: seq<Input>, x: int)
    requires inputs != []
    ensures var n := |inputs| - 1;
            EverJoined(r, inputs, x) <==>
              Joins(RunTo(r, inputs[..n]), inputs[n], x) || (EverJoined(r, inputs[..n], x) && !Leaves(inputs[n], x))
  {
    var n := |inputs| - 1;
    var before, last := inputs[..n], inputs[n];
    assert JoinedAt(r, inputs, n + 1, x) <==> Joins(RunTo(r, before), last, x);
    assert StaysFrom(inputs, n + 1, x);
    forall k | 0 <= k <= n
      ensures JoinedAt(r, inputs, k, x) == JoinedAt(r, before, k, x)
      ensures StaysFrom(inputs, k, x) <==> StaysFrom(before, k, x) && !Leaves(last, x)
    {
      if k > 0 { assert before[..k - 1] == inputs[..k - 1]; }
      StaysLonger(inputs, k, x);
    }
  }

  lemma StaysLonger(inputs: seq<Input>, k: nat, x: int)
    requires k < |inputs|
    ensures StaysFrom(inputs, k, x) <==> StaysFrom(inputs[..|inputs| - 1], k, x) && !Leaves(inputs[|inputs| - 1], x)
  {
    var before := inputs[..|inputs| - 1];
    assert forall i | k <= i < |before| :: before[i] == inputs[i];
  }

  // ---------------------------------------------------------------- who is written to, and what

  /** How many clients before x are served by a global message. */
  function ServedBefore(pids: seq<int>, x: int, req: Request, deliver: Fates): nat {
    if pids == [] || pids[0] == x then 0
    else
      (if pids[0] != req.origin && pids[0] in deliver && !deliver[pids[0]].CannotOpen? then 1 else 0)
      + ServedBefore(pids[1..], x, req, deliver)
  }

  /** The request makes the server write this message: to the destination or, if it is global, to everybody but the sender,
      as far as they are registered and their FIFOs open. */
  predicate Due(r: Registry, input: Input, m: Sent) {
    && !input.req.system
    && m.to in r.pids && m.to in input.deliver && !input.deliver[m.to].CannotOpen?
    && (if input.req.global then m.to != input.req.origin else m.to == input.req.dest)
    && var before := if input.req.global then ServedBefore(r.pids, m.to, input.req, input.deliver) else 0;
       m.response == Response(r.seqNum + before * input.req.seqLen, input.req.global, r.resp.system,
                              input.req.origin, input.req.dest, input.req.message)
  }

  lemma {:induction false} ServedInOrder(pids: seq<int>, req: Request, deliver: Fates, i: nat)
    requires Distinct(pids) && i < |Receiving(pids, req, deliver)|
    ensures ServedBefore(pids, Receiving(pids, req, deliver)[i], req, deliver) == i
  {
    var served, rest := Receives(req, deliver)(pids[0]), Receiving(pids[1..], req, deliver);
    assert Receiving(pids, req, deliver) == (if served then [pids[0]] else []) + rest;
    if !served || i > 0 {
      var j := if served then i - 1 else i;
      assert rest[j] == Receiving(pids, req, deliver)[i];
      FilterIn(pids[1..], Receives(req, deliver), rest[j]);
      ServedInOrder(pids[1..], req, deliver, j);
    }
  }

  lemma GlobalDue(r: Registry, input: Input, i: nat)
    requires RegistryOk(r) && IsGlobal(input.req) && i < |Handle(r, input).1|
    ensures Due(r, input, Handle(r, input).1[i])
  {
    var sent := Handle(r, input).1;
    GlobalExact(r, input, sent[i].to);
    assert Receivers(sent)[i] == sent[i].to;
    GlobalCopies(r, input, i);
    ServedInOrder(r.pids, input.req, input.deliver, i);
  }

  /** One request: what is written is exactly what is due. */
  lemma WrittenIffDue(r: Registry, input: Input, m: Sent)
    requires RegistryOk(r)
    ensures m in Handle(r, input).1 <==> Due(r, input, m)
  {
    if IsGlobal(input.req) {
      var sent := Handle(r, input).1;
      GlobalExact(r, input, m.to);
      if m in sent {
        var i: nat :| i < |sent| && sent[i] == m;
        GlobalDue(r, input, i);
      }
      if Due(r, input, m) {
        var i: nat :| i < |Receivers(sent)| && Receivers(sent)[i] == m.to;
        GlobalDue(r, input, i);
        assert sent[i] == m;
      }
    }
  }

  /** Request number k + 1 makes this message due in the registry as it is at that moment. */
  predicate DueAt(r: Registry, inputs: seq<Input>, k: nat, m: Sent)
    requires k < |inputs|
  {
    Due(RunTo(r, inputs[..k]), inputs[k], m)
  }

  predicate EverDue(r: Registry, inputs: seq<Input>, m: Sent) {
    exists k | 0 <= k < |inputs| :: DueAt(r, inputs, k, m)
  }

  lemma DueOneMore(r: Registry, inputs: seq<Input>, m: Sent)
    requires inputs != []
    ensures var n := |inputs| - 1;
            EverDue(r, inputs, m) <==> EverDue(r, inputs[..n], m) || Due(RunTo(r, inputs[..n]), inputs[n], m)
  {
    var n := |inputs| - 1;
    assert DueAt(r, inputs, n, m) <==> Due(RunTo(r, inputs[..n]), inputs[n], m);
    forall k: nat | k < n ensures DueAt(r, inputs[..n], k, m) == DueAt(r, inputs, k, m) { DueBefore(r, inputs, n, k, m); }
  }

  lemma DueBefore(r: Registry, inputs: seq<Input>, n: nat, k: nat, m: Sent)
    requires k < n <= |inputs|
    ensures DueAt(r, inputs[..n], k, m) == DueAt(r, inputs, k, m)
  {
    assert inputs[..n][..k] == inputs[..k] && inputs[..n][k] == inputs[k];
  }

  /** Over any sequence of requests and failures: a chat message has been written exactly when some request made it due. */
  lemma {:induction false} MessagesIff(r: Registry, inputs: seq<Input>, m: Sent)
    requires RegistryOk(r)
    ensures m in Messages(r, inputs) <==> EverDue(r, inputs, m)
  {
    if inputs == [] {
    } else {
      var n := |inputs| - 1;
      MessagesIff(r, inputs[..n], m);
      AlwaysOk(r, inputs[..n]);
      WrittenIffDue(RunTo(r, inputs[..n]), inputs[n], m);
      DueOneMore(r, inputs, m);
    }
  }

  // ---------------------------------------------------------------- sequence numbers

  predicate Numbered(messages: seq<Sent>, from: int, to: int) {
    && (forall i | 0 <= i < |messages| :: from <= messages[i].response.seqNum < to)
    && (forall i, j | 0 <= i < j < |messages| :: messages[i].response.seqNum < messages[j].response.seqNum)
  }

  lemma Times(i: nat, j: nat, len: int)
    requires i < j && len > 0
    ensures 0 <= i * len < j * len
  {
    assert j * len == i * len + (j - i) * len;
  }

  lemma OneRequestNumbered(r: Registry, input: Input)
    requires RegistryOk(r) && input.req.seqLen > 0
    ensures Numbered(Handle(r, input).1, r.seqNum, Handle(r, input).0.seqNum) && r.seqNum < Handle(r, input).0.seqNum
  {
    if IsGlobal(input.req) {
      GlobalExact(r, input, 0);
      var sent := Handle(r, input).1;
      Times(0, |sent| + 1, input.req.seqLen);
      forall i | 0 <= i < |sent| ensures sent[i].response.seqNum == r.seqNum + i * input.req.seqLen {
        GlobalCopies(r, input, i);
      }
      forall i | 0 <= i < |sent| ensures 0 <= i * input.req.seqLen < (|sent| + 1) * input.req.seqLen {
        Times(i, |sent| + 1, input.req.seqLen);
      }
      forall i, j | 0 <= i < j < |sent| ensures i * input.req.seqLen < j * input.req.seqLen {
        Times(i, j, input.req.seqLen);
      }
    }
  }

  lemma NumberedAppend(a: seq<Sent>, b: seq<Sent>, from: int, mid: int, to: int)
    requires Numbered(a, from, mid) && Numbered(b, mid, to) && from <= mid <= to
    ensures Numbered(a + b, from, to)
  {
    var both := a + b;
    forall i | 0 <= i < |both| ensures both[i] == if i < |a| then a[i] else b[i - |a|] {}
  }

  /** With positive sequence lengths the messages delivered by the server carry strictly increasing numbers, over all
      requests and clients. */
  lemma {:induction false} NumbersIncrease(r: Registry, inputs: seq<Input>)
    requires RegistryOk(r) && forall i | 0 <= i < |inputs| :: inputs[i].req.seqLen > 0
    ensures r.seqNum <= RunTo(r, inputs).seqNum && Numbered(Messages(r, inputs), r.seqNum, RunTo(r, inputs).seqNum)
  {
    if inputs == [] {
    } else {
      var before, last := inputs[..|inputs| - 1], inputs[|inputs| - 1];
      forall i | 0 <= i < |before| ensures before[i].req.seqLen > 0 { assert before[i] == inputs[i]; }
      NumbersIncrease(r, before);
      AlwaysOk(r, before);
      var mid := RunTo(r, before);
      OneRequestNumbered(mid, last);
      NumberedAppend(Messages(r, before), Handle(mid, last).1, r.seqNum, mid.seqNum, RunTo(r, inputs).seqNum);
    }
  }

  // ---------------------------------------------------------------- the system flag

  lemma FlagCopied(r: Registry, input: Input)
    ensures Handle(r, input).0.resp.system
    ensures forall i | 0 <= i < |Handle(r, input).1| :: Handle(r, input).1[i].response.system == r.resp.system
  {
    if IsGlobal(input.req) {
      forall i | 0 <= i < |Handle(r, input).1| ensures Handle(r, input).1[i].response.system == r.resp.system {
        GlobalCopies(r, input, i);
      }
    }
  }

  /** Only messages of the very first request can go out with the flag clear, and only if the fresh buffer had it clear. */
  lemma {:induction false} FlagSticks(r: Registry, inputs: seq<Input>, i: nat)
    requires i < |Messages(r, inputs)|
    ensures inputs != [] && RunTo(r, inputs).resp.system
    ensures |Messages(r, inputs[..1])| <= |Messages(r, inputs)|
    ensures !Messages(r, inputs)[i].response.system <==> i < |Messages(r, inputs[..1])| && !r.resp.system
  {
    var before, last := inputs[..|inputs| - 1], inputs[|inputs| - 1];
    FlagCopied(RunTo(r, before), last);
    if before == [] {
      assert inputs[..1] == inputs;
    } else {
      assert before[..1] == inputs[..1];
      FirstIsPrefix(r, before);
      if i < |Messages(r, before)| {
        FlagSticks(r, before, i);
      } else {
        LaterFlags(r, inputs, i);
      }
    }
  }

  lemma LaterFlags(r: Registry, inputs: seq<Input>, i: nat)
    requires |inputs| > 1 && |Messages(r, inputs[..|inputs| - 1])| <= i < |Messages(r, inputs)|
    ensures Messages(r, inputs)[i].response.system
  {
    var before, last := inputs[..|inputs| - 1], inputs[|inputs| - 1];
    FlagAfter(r, before);
    FlagCopied(RunTo(r, before), last);
    assert Messages(r, inputs)[i] == Handle(RunTo(r, before), last).1[i - |Messages(r, before)|];
  }

  /** The server's own start; the response buffer holds anything. */
  function Begin(leftover: Response): Registry { Registry([], 0, leftover) }

  lemma NobodyYet(leftover: Response, input: Input)
    ensures Handle(Begin(leftover), input).1 == []
  {
  }

  /** resp_format_msg does not clear the flag that every acknowledgement sets. From the server's own start, whatever the fresh
      buffer holds, every chat message ever delivered therefore goes out marked as a system message. */
  lemma AlwaysSystem(leftover: Response, inputs: seq<Input>, i: nat)
    requires i < |Messages(Begin(leftover), inputs)|
    ensures Messages(Begin(leftover), inputs)[i].response.system
  {
    var r := Begin(leftover);
    FlagSticks(r, inputs, i);
    assert inputs[..1][..0] == [] && inputs[..1][0] == inputs[0];
    NobodyYet(leftover, inputs[0]);
    assert Messages(r, inputs[..1]) == Messages(r, []) + Handle(r, inputs[0]).1 == [];
  }

  lemma FlagAfter(r: Registry, inputs: seq<Input>)
    requires inputs != []
    ensures RunTo(r, inputs).resp.system
  {
    FlagCopied(RunTo(r, inputs[..|inputs| - 1]), inputs[|inputs| - 1]);
  }

  lemma {:induction false} FirstIsPrefix(r: Registry, inputs: seq<Input>)
    requires inputs != []
    ensures |Messages(r, inputs[..1])| <= |Messages(r, inputs)|
  {
    var before := inputs[..|inputs| - 1];
    if before == [] {
      assert inputs[..1] == inputs;
    } else {
      assert before[..1] == inputs[..1];
      FirstIsPrefix(r, before);
    }
  }
}
