/** The request loop of server.c, over the linked list and the variables that live across requests. */
module ChatServer {
  import opened PidList
  import opened ChatRegistry
  import ChatHistory

  lemma SkipOne(kept: seq<int>, rest: seq<int>)
    requires rest != [] && Distinct(kept + rest)
    ensures Distinct(kept + rest[1..])
  {
    var all, shorter := kept + rest, kept + rest[1..];
    forall i, j | 0 <= i < j < |shorter| ensures shorter[i] != shorter[j] {
      assert shorter[i] == all[if i < |kept| then i else i + 1] && shorter[j] == all[if j < |kept| then j else j + 1];
    }
  }

  /** With distinct pids, removal by pid takes out the very node the walk stands on. */
  lemma OnlyHere(kept: seq<int>, rest: seq<int>)
    requires rest != [] && Distinct(kept + rest)
    ensures IndexOf(kept + rest, rest[0]) == |kept| && RemoveFirst(kept + rest, rest[0]) == kept + rest[1..]
    ensures Distinct(kept + rest[1..])
  {
    var all, k := kept + rest, IndexOf(kept + rest, rest[0]);
    assert all[|kept|] == rest[0];
    assert k == |kept|;
    assert all[..k] == kept && all[k + 1..] == rest[1..];
    SkipOne(kept, rest);
  }

  /** A visit only adds to what the walk has so far. */
  lemma WalkOn(b: Broadcast, rest: seq<int>, req: Request, deliver: Fates, visit: Broadcast)
    requires rest != []
    requires visit == VisitClient(Broadcast([], [], b.seqNum, b.resp, true), rest[0], req, deliver)
    ensures Walk(Broadcast(b.kept + visit.kept, b.sent + visit.sent, visit.seqNum, visit.resp, b.success && visit.success),
                 rest[1..], req, deliver) == Walk(b, rest, req, deliver)
  {
    assert VisitClient(b, rest[0], req, deliver) ==
      Broadcast(b.kept + visit.kept, b.sent + visit.sent, visit.seqNum, visit.resp, b.success && visit.success);
  }

  class Server {
    const clients: List
    var seqNum: int
    var resp: Response

    ghost predicate Valid()
      reads clients, clients.repr
    {
      clients.Valid()
    }

    ghost function View(): Registry
      reads this, clients
    {
      Registry(clients.pids, seqNum, resp)
    }

    /** The response buffer is not initialised: it starts out with anything. */
    constructor (leftover: Response)
      ensures Valid() && fresh(clients) && fresh(clients.repr)
      ensures View() == Registry([], 0, leftover) && RegistryOk(View())
    {
      clients := new List();
      seqNum, resp := 0, leftover;
    }

    /** client_remove */
    method ClientRemove(pid: int) returns (removed: bool)
      requires Valid()
      modifies clients, clients.repr
      ensures Valid() && clients.repr == old(clients.repr)
      ensures removed == (pid in old(clients.pids))
      ensures clients.pids == RemoveFirst(old(clients.pids), pid)
      ensures var k := IndexOf(old(clients.pids), pid);
              && clients.chain == (if removed then Without(old(clients.chain), k + 1) else old(clients.chain))
              && (removed ==> old(clients.chain)[k + 1].next == Following(old(clients.chain), k + 1))
    {
      removed := clients.Contains(pid);
      if removed {
        clients.RemovePid(pid);
      }
    }

    /** Format the message, write it, and count it. */
    method Deliver(pid: int, req: Request, outcome: Outcome) returns (sent: seq<Sent>, success: bool)
      modifies this`seqNum, this`resp
      ensures resp == FormatMessage(old(resp), req, old(seqNum)) && seqNum == old(seqNum) + req.seqLen
      ensures sent == Write(pid, resp, outcome) && success == outcome.Delivered?
    {
      resp := FormatMessage(resp, req, seqNum);
      sent, success := Write(pid, resp, outcome), outcome.Delivered?;
      seqNum := seqNum + req.seqLen;
    }

    /** The walk stands on the first node of `rest`, with `kept` already behind it. */
    ghost predicate StandsOn(p: Node, kept: seq<int>, rest: seq<int>)
      reads clients, clients.repr
    {
      && Valid() && Distinct(kept + rest) && clients.pids == kept + rest
      && |clients.chain| == |kept| + |rest| + 2 && p == clients.chain[|kept| + 1]
    }

    /** A client that cannot be opened is removed, by pid, while the walk stands on its node, and the walk goes on from the
        removed node's own link. */
    method DropNode(p: Node, ghost kept: seq<int>, ghost rest: seq<int>) returns (next: Node)
      requires rest != [] && StandsOn(p, kept, rest)
      modifies clients, clients.repr
      ensures StandsOn(next, kept, rest[1..]) && clients.repr == old(clients.repr)
    {
      assert clients.chain[|kept| + 1].next == Following(clients.chain, |kept| + 1);
      OnlyHere(kept, rest);
      var removed := ClientRemove(p.data.pid);
      next := p.next;
    }

    /** Stepping over a node keeps it. */
    lemma PassOn(p: Node, kept: seq<int>, rest: seq<int>)
      requires rest != [] && StandsOn(p, kept, rest)
      ensures p.data == Pid(rest[0]) && p.next != null && StandsOn(p.next, kept + [rest[0]], rest[1..])
    {
      assert clients.chain[|kept| + 1].next == Following(clients.chain, |kept| + 1);
      assert clients.pids[|kept|] == rest[0] && clients.chain[|kept| + 1].data == Pid(clients.pids[|kept|]);
      assert (kept + [rest[0]]) + rest[1..] == kept + rest;
    }

    /** One node of the walk of a global message. */
    method ServeNode(p: Node, req: Request, deliver: Fates, ghost kept: seq<int>, ghost rest: seq<int>)
      returns (next: Node, sent: seq<Sent>, success: bool)
      requires rest != [] && StandsOn(p, kept, rest)
      modifies this`seqNum, this`resp, clients, clients.repr
      ensures clients.repr == old(clients.repr)
      ensures var visit := VisitClient(Broadcast([], [], old(seqNum), old(resp), true), rest[0], req, deliver);
              && sent == visit.sent && success == visit.success && seqNum == visit.seqNum && resp == visit.resp
              && StandsOn(next, kept + visit.kept, rest[1..])
    {
      PassOn(p, kept, rest);
      ghost var visit := VisitClient(Broadcast([], [], seqNum, resp, true), rest[0], req, deliver);
      sent, success := [], true;
      if ComparePid(p.data.pid, req.origin) == 0 {
        next := p.next;
        assert kept + visit.kept == kept + [rest[0]];
      } else if Fate(deliver, p.data.pid).CannotOpen? {
        next := DropNode(p, kept, rest);
        success := false;
        assert kept + visit.kept == kept;
      } else {
        sent, success := Deliver(p.data.pid, req, Fate(deliver, p.data.pid));
        next := p.next;
        assert kept + visit.kept == kept + [rest[0]];
      }
    }

    /** The walk of a global message over the list. */
    method SendGlobal(req: Request, deliver: Fates) returns (sent: seq<Sent>, success: bool)
      requires Valid() && Distinct(clients.pids)
      modifies this`seqNum, this`resp, clients, clients.repr
      ensures Valid() && clients.repr == old(clients.repr)
      ensures View() == Global(old(View()), req, deliver).0
      ensures sent == Global(old(View()), req, deliver).1
      ensures success == Global(old(View()), req, deliver).2
    {
      ghost var kept: seq<int>, rest := [], clients.pids;
      ghost var all := Walk(Broadcast([], [], seqNum, resp, true), rest, req, deliver);
      sent, success := [], true;
      var p := clients.Front();
      while p.next != null
        invariant StandsOn(p, kept, rest) && clients.repr == old(clients.repr)
        invariant Walk(Broadcast(kept, sent, seqNum, resp, success), rest, req, deliver) == all
        decreases |rest|
      {
        assert clients.chain[|kept| + 1].next == Following(clients.chain, |kept| + 1);
        ghost var here := Broadcast(kept, sent, seqNum, resp, success);
        ghost var visit := VisitClient(Broadcast([], [], seqNum, resp, true), rest[0], req, deliver);
        var more: seq<Sent>, ok: bool;
        p, more, ok := ServeNode(p, req, deliver, kept, rest);
        sent, success := sent + more, success && ok;
        WalkOn(here, rest, req, deliver, visit);
        kept, rest := kept + visit.kept, rest[1..];
      }
      assert clients.chain[|kept| + 1].next == Following(clients.chain, |kept| + 1);
    }

    /** The requests marked as system requests. */
    method HandleSystem(req: Request) returns (success: bool)
      requires Valid() && req.system
      modifies clients, clients.repr
      ensures Valid() && fresh(clients.repr - old(clients.repr))
      ensures View() == System(old(View()), req).0
      ensures success == System(old(View()), req).1
    {
      success := true;
      if req.message == "new_client" {
        var stored := clients.Contains(req.origin);
        success := !stored && clients.logicalLength < MAX_NUM_CLIENTS;
        if success {
          clients.PushBack(req.origin);
        }
      } else if req.message == "disconnect_client" {
        success := ClientRemove(req.origin);
      }
    }

    /** A message to one client; a destination that is not registered is not an error. */
    method SendDirect(req: Request, deliver: Fates) returns (sent: seq<Sent>, success: bool)
      requires Valid() && IsDirect(req)
      modifies this`seqNum, this`resp
      ensures Valid()
      ensures View() == Direct(old(View()), req, deliver).0
      ensures sent == Direct(old(View()), req, deliver).1
      ensures success == Direct(old(View()), req, deliver).2
    {
      sent, success := [], true;
      var stored := clients.Contains(req.dest);
      if stored {
        sent, success := Deliver(req.dest, req, Fate(deliver, req.dest));
      }
    }

    /** The acknowledgement that closes every request. */
    method Reply(input: Input, success: bool) returns (ack: seq<Sent>)
      requires Valid()
      modifies this`seqNum, this`resp
      ensures Valid() && clients.repr == old(clients.repr)
      ensures View() == Acknowledge(old(View()), input, success).0
      ensures ack == Acknowledge(old(View()), input, success).1
    {
      resp := FormatAck(resp, input.req.origin, success);
      ack := Write(input.req.origin, resp, input.ack);
      seqNum := seqNum + input.req.seqLen;
    }

    /** One round of the request loop: what is forwarded, and the acknowledgement. */
    method HandleRequest(input: Input) returns (sent: seq<Sent>, ack: seq<Sent>)
      requires Valid() && RegistryOk(View())
      modifies this`seqNum, this`resp, clients, clients.repr
      ensures Valid() && fresh(clients.repr - old(clients.repr))
      ensures View() == Handle(old(View()), input).0 && RegistryOk(View())
      ensures sent == Handle(old(View()), input).1
      ensures ack == Handle(old(View()), input).2
    {
      HandleKeeps(View(), input, 0);
      var req := input.req;
      var success;
      if req.system {
        sent := [];
        success := HandleSystem(req);
      } else if req.global {
        sent, success := SendGlobal(req, input.deliver);
      } else {
        sent, success := SendDirect(req, input.deliver);
      }
      ack := Reply(input, success);
    }

    /** The request loop, as far as these requests. */
    method Serve(inputs: seq<Input>) returns (sent: seq<Sent>)
      requires Valid() && RegistryOk(View())
      modifies this`seqNum, this`resp, clients, clients.repr
      ensures Valid() && fresh(clients.repr - old(clients.repr)) && RegistryOk(View())
      ensures View() == ChatHistory.RunTo(old(View()), inputs)
      ensures sent == ChatHistory.Messages(old(View()), inputs)
    {
      sent := [];
      ghost var begin := View();
      for k := 0 to |inputs|
        invariant Valid() && fresh(clients.repr - old(clients.repr)) && RegistryOk(View())
        invariant View() == ChatHistory.RunTo(begin, inputs[..k]) && sent == ChatHistory.Messages(begin, inputs[..k])
      {
        assert inputs[..k + 1][..k] == inputs[..k];
        var more, ack := HandleRequest(inputs[k]);
        sent := sent + more;
      }
      assert inputs[..|inputs|] == inputs;
    }
  }
}
