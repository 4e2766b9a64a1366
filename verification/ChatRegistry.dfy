/**
 What the chat server does with one request after another: who is registered, what is written to whom, and how it is
 acknowledged. The fate of a client's FIFO is an input of each request.
 */
module ChatRegistry {
  import opened PidList

  const MAX_NUM_CLIENTS := 100

  /** struct request */
  datatype Request = Request(seqLen: int, global: bool, system: bool, origin: int, dest: int, message: string)

  /** struct response */
  datatype Response = Response(seqNum: int, global: bool, system: bool, origin: int, dest: int, message: string)

  /** What open, write and close on a client's FIFO come to. */
  datatype Outcome = CannotOpen | WriteFails | CloseFails | Delivered

  /** What happens at each client's FIFO during one request; nobody else has one. */
  type Fates = map<int, Outcome>

  function Fate(deliver: Fates, pid: int): Outcome {
    if pid in deliver then deliver[pid] else CannotOpen
  }

  /** A response handed to write on the opened FIFO of a client. */
  datatype Sent = Sent(to: int, response: Response)

  /** The list of clients, and the two variables of main that live across requests: seq_num and the response buffer, whose
      fields keep what earlier requests left there. */
  datatype Registry = Registry(pids: seq<int>, seqNum: int, resp: Response)

  /** One request, with the fate of the message at every client and of the acknowledgement at the sender. */
  datatype Input = Input(req: Request, deliver: Fates, ack: Outcome)

  // ---------------------------------------------------------------- one request

  /** resp_format_OK and resp_format_FAIL: they leave the sequence number and the origin as they are. */
  function FormatAck(resp: Response, origin: int, ok: bool): Response {
    resp.(dest := origin, global := false, system := true, message := if ok then "OK" else "FAIL")
  }

  /** resp_format_msg: it leaves the system flag as it is. */
  function FormatMessage(resp: Response, req: Request, seqNum: int): Response {
    resp.(seqNum := seqNum, message := req.message, origin := req.origin, dest := req.dest, global := req.global)
  }

  /** What goes to a FIFO, if it opens. */
  function Write(to: int, resp: Response, outcome: Outcome): seq<Sent> {
    if outcome.CannotOpen? then [] else [Sent(to, resp)]
  }

  /** The outcome of the walk over the clients: who stays, what was written, the variables, and whether all went well. */
  datatype Broadcast = Broadcast(kept: seq<int>, sent: seq<Sent>, seqNum: int, resp: Response, success: bool)

  /** One client of the walk. */
  function VisitClient(b: Broadcast, pid: int, req: Request, deliver: Fates): Broadcast {
    if pid == req.origin then b.(kept := b.kept + [pid])
    else if Fate(deliver, pid).CannotOpen? then b.(success := false)
    else
      var resp := FormatMessage(b.resp, req, b.seqNum);
      Broadcast(b.kept + [pid], b.sent + [Sent(pid, resp)], b.seqNum + req.seqLen, resp, b.success && Fate(deliver, pid).Delivered?)
  }

  function Walk(b: Broadcast, pids: seq<int>, req: Request, deliver: Fates): Broadcast
    decreases |pids|
  {
    if pids == [] then b else Walk(VisitClient(b, pids[0], req, deliver), pids[1..], req, deliver)
  }

  /** The acknowledgement that closes every request. */
  function Acknowledge(r: Registry, input: Input, ok: bool): (Registry, seq<Sent>) {
    var resp := FormatAck(r.resp, input.req.origin, ok);
    (r.(resp := resp, seqNum := r.seqNum + input.req.seqLen), Write(input.req.origin, resp, input.ack))
  }

  predicate IsConnect(req: Request) { req.system && req.message == "new_client" }

  predicate IsDisconnect(req: Request) { req.system && req.message == "disconnect_client" }

  predicate IsGlobal(req: Request) { !req.system && req.global }

  predicate IsDirect(req: Request) { !req.system && !req.global }

  /** A message to one client; a destination that is not registered is not an error. */
  function Direct(r: Registry, req: Request, deliver: Fates): (Registry, seq<Sent>, bool) {
    if req.dest in r.pids then
      var resp := FormatMessage(r.resp, req, r.seqNum);
      (r.(resp := resp, seqNum := r.seqNum + req.seqLen), Write(req.dest, resp, Fate(deliver, req.dest)),
       Fate(deliver, req.dest).Delivered?)
    else (r, [], true)
  }

  /** A message to everybody. */
  function Global(r: Registry, req: Request, deliver: Fates): (Registry, seq<Sent>, bool) {
    var b := Walk(Broadcast([], [], r.seqNum, r.resp, true), r.pids, req, deliver);
    (Registry(b.kept, b.seqNum, b.resp), b.sent, b.success)
  }

  /** The requests marked as system requests; what the server does not recognise is acknowledged anyway. */
  function System(r: Registry, req: Request): (Registry, bool) {
    if req.message == "new_client" then
      var ok := req.origin !in r.pids && |r.pids| < MAX_NUM_CLIENTS;
      (if ok then r.(pids := r.pids + [req.origin]) else r, ok)
    else if req.message == "disconnect_client" then
      (r.(pids := RemoveFirst(r.pids, req.origin)), req.origin in r.pids)
    else (r, true)
  }

  /** The registry after the list of clients has been dealt with, what was forwarded, and the answer. */
  function Process(r: Registry, req: Request, deliver: Fates): (Registry, seq<Sent>, bool) {
    if req.system then
      var (r', ok) := System(r, req);
      (r', [], ok)
    else if req.global then Global(r, req, deliver)
    else Direct(r, req, deliver)
  }

  /** A whole request: the new registry, the messages forwarded, the acknowledgement written. */
  function Handle(r: Registry, input: Input): (Registry, seq<Sent>, seq<Sent>) {
    var (r', sent, ok) := Process(r, input.req, input.deliver);
    var (r'', ack) := Acknowledge(r', input, ok);
    (r'', sent, ack)
  }

  // ---------------------------------------------------------------- broadcasting

  predicate Distinct(pids: seq<int>) { forall i, j | 0 <= i < j < |pids| :: pids[i] != pids[j] }

  /** Who is still a client after a global message: the sender, and everybody whose FIFO opened. */
  function Stays(req: Request, deliver: Fates): int -> bool {
    pid => pid == req.origin || !Fate(deliver, pid).CannotOpen?
  }

  /** Who gets it. */
  function Receives(req: Request, deliver: Fates): int -> bool {
    pid => pid != req.origin && !Fate(deliver, pid).CannotOpen?
  }

  function Filter(pids: seq<int>, p: int -> bool): seq<int> {
    if pids == [] then [] else (if p(pids[0]) then [pids[0]] else []) + Filter(pids[1..], p)
  }

  function Staying(pids: seq<int>, req: Request, deliver: Fates): seq<int> {
    Filter(pids, Stays(req, deliver))
  }

  function Receiving(pids: seq<int>, req: Request, deliver: Fates): seq<int> {
    Filter(pids, Receives(req, deliver))
  }

  function Receivers(sent: seq<Sent>): seq<int> { seq(|sent|, i requires 0 <= i < |sent| => sent[i].to) }

  /** Who stays and who is served by a walk. */
  lemma {:induction false} WalkSplits(b: Broadcast, pids: seq<int>, req: Request, deliver: Fates)
    ensures var w := Walk(b, pids, req, deliver);
            && w.kept == b.kept + Staying(pids, req, deliver)
            && |w.sent| == |b.sent| + |Receiving(pids, req, deliver)|
            && w.sent[..|b.sent|] == b.sent
            && Receivers(w.sent) == Receivers(b.sent) + Receiving(pids, req, deliver)
    decreases |pids|
  {
    if pids == [] {
    } else {
      var next := VisitClient(b, pids[0], req, deliver);
      WalkSplits(next, pids[1..], req, deliver);
      assert Walk(b, pids, req, deliver) == Walk(next, pids[1..], req, deliver);
    }
  }

  /** The sequence number grows with every client served, and one bad FIFO spoils the answer. */
  lemma {:induction false} WalkCounts(b: Broadcast, pids: seq<int>, req: Request, deliver: Fates)
    ensures var w := Walk(b, pids, req, deliver);
            && w.seqNum == b.seqNum + |Receiving(pids, req, deliver)| * req.seqLen
            && (w.success <==> b.success && forall i | 0 <= i < |pids| && pids[i] != req.origin :: Fate(deliver, pids[i]).Delivered?)
    decreases |pids|
  {
    if pids == [] {
    } else {
      WalkCounts(VisitClient(b, pids[0], req, deliver), pids[1..], req, deliver);
    }
  }

  /** What the i-th client served by a walk gets. */
  function Forwarded(b: Broadcast, req: Request, i: nat): Response {
    FormatMessage(b.resp, req, b.seqNum + i * req.seqLen)
  }

  lemma {:induction false} WalkForwards(b: Broadcast, pids: seq<int>, req: Request, deliver: Fates, i: nat)
    requires i < |Receiving(pids, req, deliver)|
    ensures var w := Walk(b, pids, req, deliver);
            |b.sent| + i < |w.sent| && w.sent[|b.sent| + i].response == Forwarded(b, req, i)
    decreases |pids|
  {
    WalkSplits(b, pids, req, deliver);
    var next := VisitClient(b, pids[0], req, deliver);
    WalkSplits(next, pids[1..], req, deliver);
    assert Walk(b, pids, req, deliver) == Walk(next, pids[1..], req, deliver);
    if !Receives(req, deliver)(pids[0]) {
      WalkForwards(next, pids[1..], req, deliver, i);
    } else if i > 0 {
      WalkForwards(next, pids[1..], req, deliver, i - 1);
      NextNumber(i, req.seqLen);
    } else {
      assert next.sent == Walk(b, pids, req, deliver).sent[..|next.sent|];
      assert next.sent[|b.sent|] == Walk(b, pids, req, deliver).sent[|b.sent|];
    }
  }

  lemma NextNumber(i: nat, len: int)
    requires i > 0
    ensures len + (i - 1) * len == i * len
  {
  }

  lemma {:induction false} FilterIn(pids: seq<int>, p: int -> bool, x: int)
    ensures x in Filter(pids, p) <==> x in pids && p(x)
    ensures |Filter(pids, p)| <= |pids|
  {
    if pids == [] {
    } else {
      FilterIn(pids[1..], p, x);
    }
  }

  lemma {:induction false} FilterDistinct(pids: seq<int>, p: int -> bool)
    requires Distinct(pids)
    ensures Distinct(Filter(pids, p))
  {
    if pids == [] {
    } else {
      FilterDistinct(pids[1..], p);
      FilterIn(pids[1..], p, pids[0]);
    }
  }

  lemma Regroup(a: seq<int>, b: seq<int>, c: seq<int>)
    ensures (a + b) + c == a + (b + c)
  {
  }

  /** Filtering keeps the order: it goes through the sequence piece by piece, */
  lemma {:induction false} FilterPieces(a: seq<int>, b: seq<int>, p: int -> bool)
    ensures Filter(a + b, p) == Filter(a, p) + Filter(b, p)
  {
    if a == [] {
      assert a + b == b;
    } else {
      FilterPieces(a[1..], b, p);
      assert (a + b)[0] == a[0] && (a + b)[1..] == a[1..] + b;
      Regroup(if p(a[0]) then [a[0]] else [], Filter(a[1..], p), Filter(b, p));
    }
  }

  /** and keeps each or drops it. */
  lemma FilterOne(x: int, p: int -> bool)
    ensures Filter([x], p) == if p(x) then [x] else []
  {
    assert [x][1..] == [];
  }

  /** A global message goes at most once to each client, and exactly to the clients other than the sender whose FIFO opens; it
      carries consecutive sequence numbers; and afterwards the list is what it was, in order, without the clients that
      failed to open. */
  lemma GlobalExact(r: Registry, input: Input, x: int)
    requires Distinct(r.pids) && !input.req.system && input.req.global
    ensures var (r', sent, _) := Handle(r, input);
            var opens := x in input.deliver && !input.deliver[x].CannotOpen?;
            && r'.pids == Staying(r.pids, input.req, input.deliver)
            && Receivers(sent) == Receiving(r.pids, input.req, input.deliver) && Distinct(Receivers(sent))
            && (x in Receivers(sent) <==> x in r.pids && x != input.req.origin && opens)
            && (x in r'.pids <==> x in r.pids && (x == input.req.origin || opens))
            && r'.seqNum == r.seqNum + (|sent| + 1) * input.req.seqLen
  {
    WalkSplits(Broadcast([], [], r.seqNum, r.resp, true), r.pids, input.req, input.deliver);
    WalkCounts(Broadcast([], [], r.seqNum, r.resp, true), r.pids, input.req, input.deliver);
    FilterIn(r.pids, Stays(input.req, input.deliver), x);
    FilterIn(r.pids, Receives(input.req, input.deliver), x);
    FilterDistinct(r.pids, Receives(input.req, input.deliver));
    NextNumber(|Receiving(r.pids, input.req, input.deliver)| + 1, input.req.seqLen);
  }

  /** The i-th copy of a global message. */
  lemma GlobalCopies(r: Registry, input: Input, i: nat)
    requires !input.req.system && input.req.global && i < |Handle(r, input).1|
    ensures Handle(r, input).1[i].response ==
            Response(r.seqNum + i * input.req.seqLen, true, r.resp.system, input.req.origin, input.req.dest, input.req.message)
  {
    var start := Broadcast([], [], r.seqNum, r.resp, true);
    WalkSplits(start, r.pids, input.req, input.deliver);
    WalkForwards(start, r.pids, input.req, input.deliver, i);
  }

  // ---------------------------------------------------------------- the registry

  predicate RegistryOk(r: Registry) { Distinct(r.pids) && |r.pids| <= 100 }

  function IsNot(pid: int): int -> bool { x => x != pid }

  lemma {:induction false} FilterAll(pids: seq<int>, p: int -> bool)
    requires forall i | 0 <= i < |pids| :: p(pids[i])
    ensures Filter(pids, p) == pids
  {
    if pids == [] {
    } else {
      FilterAll(pids[1..], p);
    }
  }

  lemma RemoveFirstCons(pids: seq<int>, pid: int)
    requires pids != []
    ensures RemoveFirst(pids, pid) == if pids[0] == pid then pids[1..] else [pids[0]] + RemoveFirst(pids[1..], pid)
  {
    var k := IndexOf(pids, pid);
    if k > 0 {
      assert k == 1 + IndexOf(pids[1..], pid);
      if k < |pids| { assert pids[..k] == [pids[0]] + pids[1..][..k - 1]; }
    }
  }

  lemma {:induction false} RemoveIsFilter(pids: seq<int>, pid: int)
    requires Distinct(pids)
    ensures RemoveFirst(pids, pid) == Filter(pids, IsNot(pid))
  {
    if pids == [] {
    } else {
      RemoveFirstCons(pids, pid);
      if pids[0] == pid {
        assert forall i | 0 <= i < |pids[1..]| :: pids[1..][i] == pids[i + 1] != pid;
        FilterAll(pids[1..], IsNot(pid));
      } else {
        RemoveIsFilter(pids[1..], pid);
      }
    }
  }

  lemma RemoveFirstKeeps(pids: seq<int>, pid: int, x: int)
    requires Distinct(pids)
    ensures Distinct(RemoveFirst(pids, pid)) && |RemoveFirst(pids, pid)| <= |pids|
    ensures x in RemoveFirst(pids, pid) <==> x in pids && x != pid
  {
    RemoveIsFilter(pids, pid);
    FilterDistinct(pids, IsNot(pid));
    FilterIn(pids, IsNot(pid), x);
  }

  /** The pid joins with this request. */
  predicate Joins(r: Registry, input: Input, x: int) {
    IsConnect(input.req) && input.req.origin == x && x !in r.pids && |r.pids| < MAX_NUM_CLIENTS
  }

  /** Whoever is registered as x is dropped with this request. */
  predicate Leaves(input: Input, x: int) {
    || (IsDisconnect(input.req) && input.req.origin == x)
    || (IsGlobal(input.req) && input.req.origin != x && Fate(input.deliver, x).CannotOpen?)
  }

  /** Every request keeps the registry free of duplicates and within its limit, and changes who is registered only so. */
  lemma HandleKeeps(r: Registry, input: Input, x: int)
    requires RegistryOk(r)
    ensures RegistryOk(Handle(r, input).0)
    ensures x in Handle(r, input).0.pids <==> Joins(r, input, x) || (x in r.pids && !Leaves(input, x))
  {
    if IsGlobal(input.req) {
      GlobalExact(r, input, x);
      FilterDistinct(r.pids, Stays(input.req, input.deliver));
      FilterIn(r.pids, Stays(input.req, input.deliver), x);
    } else if IsDisconnect(input.req) {
      RemoveFirstKeeps(r.pids, input.req.origin, x);
    }
  }

  /** When its FIFO can be opened, a connecting client is answered OK exactly when its pid was new and there was room, and FAIL
      otherwise; it is registered afterwards unless the list was full. Nothing else changes but the number. */
  lemma ConnectIff(r: Registry, input: Input)
    requires input.req.system && input.req.message == "new_client" && !input.ack.CannotOpen?
    ensures var (r', sent, ack) := Handle(r, input);
            var joins := input.req.origin !in r.pids && |r.pids| < 100;
            && sent == []
            && Receivers(ack) == [input.req.origin]
            && (ack[0].response.message == "OK" <==> joins) && (ack[0].response.message == "FAIL" <==> !joins)
            && r'.pids == (if joins then r.pids + [input.req.origin] else r.pids)
            && (input.req.origin in r'.pids <==> input.req.origin in r.pids || |r.pids| < 100)
            && r'.seqNum == r.seqNum + input.req.seqLen
  {
    assert "OK"[0] != "FAIL"[0];
  }

  /** A disconnecting client is answered OK exactly when it was registered, and is not registered afterwards in any case; the others
      stay, in order. */
  lemma DisconnectIff(r: Registry, input: Input)
    requires RegistryOk(r) && input.req.system && input.req.message == "disconnect_client" && !input.ack.CannotOpen?
    ensures var (r', sent, ack) := Handle(r, input);
            && sent == []
            && Receivers(ack) == [input.req.origin]
            && (ack[0].response.message == "OK" <==> input.req.origin in r.pids)
            && (ack[0].response.message == "FAIL" <==> input.req.origin !in r.pids)
            && input.req.origin !in r'.pids
            && r'.pids == Filter(r.pids, IsNot(input.req.origin))
            && r'.seqNum == r.seqNum + input.req.seqLen
  {
    assert "OK"[0] != "FAIL"[0];
    RemoveFirstKeeps(r.pids, input.req.origin, input.req.origin);
    RemoveIsFilter(r.pids, input.req.origin);
  }

  /** Any other system request, check_connection among them, is answered OK and changes nothing but the number. */
  lemma OtherSystemOk(r: Registry, input: Input)
    requires input.req.system && input.req.message != "new_client" && input.req.message != "disconnect_client"
    requires !input.ack.CannotOpen?
    ensures var (r', sent, ack) := Handle(r, input);
            && sent == []
            && Receivers(ack) == [input.req.origin] && ack[0].response.message == "OK"
            && r'.pids == r.pids
            && r'.seqNum == r.seqNum + input.req.seqLen
  {
  }

  /** The sender of a global message is answered OK exactly when every other client got it and its FIFO closed; the failure of one
      does not keep the others from being served. */
  lemma GlobalAnswer(r: Registry, input: Input)
    requires !input.req.system && input.req.global && !input.ack.CannotOpen?
    ensures var (_, _, ack) := Handle(r, input);
            var all := forall i | 0 <= i < |r.pids| && r.pids[i] != input.req.origin ::
                         r.pids[i] in input.deliver && input.deliver[r.pids[i]].Delivered?;
            && Receivers(ack) == [input.req.origin]
            && (ack[0].response.message == "OK" <==> all) && (ack[0].response.message == "FAIL" <==> !all)
  {
    assert "OK"[0] != "FAIL"[0];
    WalkCounts(Broadcast([], [], r.seqNum, r.resp, true), r.pids, input.req, input.deliver);
  }

  /** A direct message goes to its destination exactly when that is registered and its FIFO opens, and to nobody else; the copy
      carries the current number, the fields of the request, and the system flag left in the buffer. The sender is answered FAIL
      only when the destination is registered and was not reached: for an unknown destination it is answered OK, although
      nothing was sent. Nobody is dropped, and the number advances twice only for a registered destination. */
  lemma DirectExact(r: Registry, input: Input)
    requires !input.req.system && !input.req.global && !input.ack.CannotOpen?
    ensures var (r', sent, ack) := Handle(r, input);
            var dest, known := input.req.dest, input.req.dest in r.pids;
            var failed := known && !(dest in input.deliver && input.deliver[dest].Delivered?);
            var copy := Response(r.seqNum, false, r.resp.system, input.req.origin, dest, input.req.message);
            && r'.pids == r.pids
            && sent == (if known && dest in input.deliver && !input.deliver[dest].CannotOpen? then [Sent(dest, copy)] else [])
            && Receivers(ack) == [input.req.origin]
            && (ack[0].response.message == "FAIL" <==> failed) && (ack[0].response.message == "OK" <==> !failed)
            && r'.seqNum == r.seqNum + (if known then 2 else 1) * input.req.seqLen
  {
    assert "OK"[0] != "FAIL"[0];
  }

  /** A walk leaves the last message it sent in the response buffer. */
  lemma {:induction false} WalkLeaves(b: Broadcast, pids: seq<int>, req: Request, deliver: Fates)
    requires b.sent != [] ==> b.resp == b.sent[|b.sent| - 1].response
    ensures var w := Walk(b, pids, req, deliver);
            if w.sent == [] then w.resp == b.resp else w.resp == w.sent[|w.sent| - 1].response
    decreases |pids|
  {
    if pids == [] {
    } else {
      var next := VisitClient(b, pids[0], req, deliver);
      WalkLeaves(next, pids[1..], req, deliver);
      WalkSplits(next, pids[1..], req, deliver);
    }
  }

  /** Number and origin of the last chat message formatted up to the acknowledgement; a message to a registered destination
      is formatted even when it cannot be sent. */
  function LastStamp(r: Registry, req: Request, sent: seq<Sent>): (int, int) {
    if !req.system && !req.global && req.dest in r.pids then (r.seqNum, req.origin)
    else if sent != [] then (sent[|sent| - 1].response.seqNum, req.origin)
    else (r.resp.seqNum, r.resp.origin)
  }

  /** The acknowledgement of any request: one message to the sender if its FIFO opens. Its number and its origin are not those
      of the request but what the last chat message left in the buffer. */
  lemma AckExact(r: Registry, input: Input)
    ensures var (r', sent, ack) := Handle(r, input);
            && ack == (if input.ack.CannotOpen? then [] else [Sent(input.req.origin, r'.resp)])
            && r'.resp.system && !r'.resp.global && r'.resp.dest == input.req.origin
            && (r'.resp.message == "OK" || r'.resp.message == "FAIL")
            && (r'.resp.seqNum, r'.resp.origin) == LastStamp(r, input.req, sent)
  {
    if IsGlobal(input.req) {
      WalkLeaves(Broadcast([], [], r.seqNum, r.resp, true), r.pids, input.req, input.deliver);
      if Handle(r, input).1 != [] { GlobalCopies(r, input, |Handle(r, input).1| - 1); }
    }
  }
}
