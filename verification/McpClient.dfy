/** The client object that talks to the child process (runMcpStdio in packages/extensions/src/mcp-client.ts). */
module McpClient {
  import opened Prelude
  import opened Framing
  import opened McpStdio
  import opened McpOutcomes

  // ---- the client as the program runs it ----

  /** `buffer`, `nextId` and `pending` of runMcpStdio; `settled` is the log of resolve and reject calls. */
  class StdioClient {
    var buffer: seq<byte>
    var nextId: nat
    var pending: seq<int>
    var settled: seq<Settlement>

    ghost function View(): Client
      reads this
    {
      Client(buffer, nextId, pending, settled)
    }

    constructor ()
      ensures View() == START
    {
      buffer, nextId, pending, settled := [], 1, [], [];
    }

    method SettleOne(id: int, outcome: Outcome)
      modifies this`pending, this`settled
      ensures View() == Settle(old(View()), id, outcome)
    {
      if id in pending {
        pending := Remove(pending, id);
        settled := settled + [Settlement(id, outcome)];
      }
    }

    /** `rpc`: take the next id, note the waiter, and write one frame that carries the id; `render` is what
        `JSON.stringify` makes of the request under an id. */
    method Rpc(render: nat -> seq<byte>) returns (id: nat, written: seq<byte>)
      modifies this
      ensures View() == Step(old(View()), Request, _ => Malformed)
      ensures id == old(nextId) && id in pending
      ensures written == Encode(render(id)) && Messages(written) == ([Some(render(id))], [])
    {
      id := nextId;
      nextId := nextId + 1;
      pending := pending + [id];
      written := Encode(render(id));
      FramesRoundTrip([render(id)]);
      assert EncodeAll([render(id)]) == Encode(render(id)) + EncodeAll([]);
      assert written + [] == written;
      assert Delivered([render(id)]) == [Some(render(id))];
      assert pending[|pending| - 1] == id;
    }

    /** One pass of the `consume` loop over the buffer. */
    method TakeMessage() returns (cut: Cut<Option<seq<byte>>>)
      modifies this`buffer
      ensures cut == CutMessage(old(buffer))
      ensures cut.Take? ==> cut.size <= |old(buffer)| && buffer == old(buffer)[cut.size..]
      ensures cut.Wait? ==> buffer == old(buffer)
    {
      hide IndexOf, ContentLength;
      var headerEnd := IndexOf(buffer, CRLF2);
      if headerEnd.None? {
        return Wait;
      }
      var header := buffer[..headerEnd.value];
      var length := ContentLength(header, 0);
      var start := headerEnd.value + 4;
      if length.None? {
        buffer := buffer[start..];
        return Take(start, None);
      }
      if |buffer| < start + length.value {
        return Wait;
      }
      var json := buffer[start..start + length.value];
      buffer := buffer[start + length.value..];
      return Take(start + length.value, Some(json));
    }

    /** The `consume` loop. */
    method Consume(parse: seq<byte> -> Reply)
      modifies this
      ensures buffer == Messages(old(buffer)).1
      ensures View() == ReceiveAll(old(View()).(buffer := buffer), Messages(old(buffer)).0, parse)
    {
      hide CutMessage, Messages, ReceiveAll;
      ghost var c := View();
      ghost var (messages, rest) := Messages(buffer);
      while true
        invariant Messages(buffer).1 == rest
        invariant ReceiveAll(View().(buffer := rest), Messages(buffer).0, parse)
               == ReceiveAll(c.(buffer := rest), messages, parse)
        decreases |buffer|
      {
        ghost var was, v := buffer, View().(buffer := rest);
        var cut := TakeMessage();
        if cut.Wait? {
          NothingLeft(buffer);
          NoMessages(View(), parse);
          return;
        }
        OneMore(was);
        OneMessage(v, cut.frame, Messages(buffer).0, parse);
        if cut.frame.Some? {
          match parse(cut.frame.value)
          case Malformed =>
          case WithoutId =>
          case Result(id, result) => SettleOne(id, Resolved(result));
          case Failure(id, message) => SettleOne(id, Rejected(message));
        }
      }
    }

    method OnData(chunk: seq<byte>, parse: seq<byte> -> Reply)
      modifies this
      ensures View() == Step(old(View()), Data(chunk), parse)
    {
      buffer := buffer + chunk;
      Consume(parse);
    }

    method OnTimeout(id: int, parse: seq<byte> -> Reply)
      modifies this
      ensures View() == Step(old(View()), Timeout(id), parse)
    {
      SettleOne(id, TimedOut);
    }

    /** `fail`: reject every waiter and forget them. */
    method Fail(parse: seq<byte> -> Reply)
      modifies this
      ensures View() == Step(old(View()), Exit, parse)
    {
      var k := 0;
      while k < |pending|
        invariant k <= |pending| && pending == old(pending) && buffer == old(buffer) && nextId == old(nextId)
        invariant settled == old(settled) + AllExited(old(pending)[..k])
      {
        assert AllExited(pending[..k + 1]) == AllExited(pending[..k]) + [Settlement(pending[k], Exited)];
        settled := settled + [Settlement(pending[k], Exited)];
        k := k + 1;
      }
      assert pending[..|pending|] == pending;
      pending := [];
    }

    /** Whatever happens next; a request writes to the child. */
    method Handle(e: Event, render: nat -> seq<byte>, parse: seq<byte> -> Reply) returns (written: seq<byte>)
      modifies this
      ensures View() == Step(old(View()), e, parse)
      ensures written == if e.Request? then Encode(render(old(nextId))) else []
    {
      hide Step, Encode;
      written := [];
      match e
      case Request =>
        RequestIgnoresReplies(View(), parse);
        var id: nat;
        id, written := Rpc(render);
      case Data(chunk) => OnData(chunk, parse);
      case Timeout(id) => OnTimeout(id, parse);
      case Exit => Fail(parse);
    }

    /** The client over a whole run, whatever mix of requests, chunks, timeouts and exits arrives: no request settles
        twice, each settles as the first happening that decides it says or waits as long as there is none, and the child
        is sent each request once, in order. */
    method Serve(es: seq<Event>, render: nat -> seq<byte>, parse: seq<byte> -> Reply) returns (written: seq<byte>)
      requires View() == START
      modifies this
      ensures View() == Run(START, es, parse)
      ensures forall i, j | 0 <= i < j < |settled| :: settled[i].id != settled[j].id
      ensures forall id | 1 <= id < nextId :: (id in pending) != (id in Ids(settled))
      ensures forall id, outcome :: Settlement(id, outcome) in settled <==> DecidedBy(Happenings([], 1, es, parse), id, outcome)
      ensures forall id :: id in pending <==> StillWaits(Happenings([], 1, es, parse), id)
      ensures Messages(written) == (Delivered(Rendered(render, nextId)), [])
    {
      hide Step, Encode, Messages, DecidedBy, StillWaits, Happenings;
      written := [];
      for k := 0 to |es|
        invariant View() == Run(START, es[..k], parse)
        invariant nextId >= 1 && written == EncodeAll(Rendered(render, nextId))
      {
        assert es[..k + 1] == es[..k] + [es[k]];
        RunPush(START, es[..k], es[k], parse);
        StepIds(View(), es[k], parse);
        EncodePush(Rendered(render, nextId), render(nextId));
        var sent := Handle(es[k], render, parse);
        written := written + sent;
      }
      assert es[..|es|] == es;
      SettledAtMostOnce(es, parse);
      SettlesAsDecided(es, parse);
      FramesRoundTrip(Rendered(render, nextId));
    }
  }

  lemma StepIds(c: Client, e: Event, parse: seq<byte> -> Reply)
    ensures Step(c, e, parse).nextId == c.nextId + if e.Request? then 1 else 0
  {
    hide Messages;
    if e.Data? {
      var (messages, rest) := Messages(c.buffer + e.chunk);
      RepliesKeepIds(c.(buffer := rest), messages, parse);
    }
  }

  /** The payloads of the requests made so far. */
  function Rendered(render: nat -> seq<byte>, nextId: nat): seq<seq<byte>> {
    if nextId <= 1 then [] else Rendered(render, nextId - 1) + [render(nextId - 1)]
  }

  lemma {:induction false} EncodePush(payloads: seq<seq<byte>>, payload: seq<byte>)
    ensures EncodeAll(payloads + [payload]) == EncodeAll(payloads) + Encode(payload)
  {
    hide Encode;
    if payloads == [] {
      assert [payload][1..] == [];
      assert EncodeAll([payload]) == Encode(payload) + EncodeAll([]);
    } else {
      assert (payloads + [payload])[1..] == payloads[1..] + [payload];
      EncodePush(payloads[1..], payload);
    }
  }

  lemma {:induction false} RunPush(c: Client, es: seq<Event>, e: Event, parse: seq<byte> -> Reply)
    ensures Run(c, es + [e], parse) == Step(Run(c, es, parse), e, parse)
    decreases |es|
  {
    hide Step;
    if es == [] {
      assert [e][1..] == [] && es + [e] == [e];
    } else {
      assert (es + [e])[1..] == es[1..] + [e];
      RunPush(Step(c, es[0], parse), es[1..], e, parse);
    }
  }

  lemma RequestIgnoresReplies(c: Client, parse: seq<byte> -> Reply)
    ensures Step(c, Request, _ => Malformed) == Step(c, Request, parse)
  {
  }

  lemma NoMessages(c: Client, parse: seq<byte> -> Reply)
    ensures ReceiveAll(c, [], parse) == c
  {
  }

  lemma OneMessage(c: Client, message: Option<seq<byte>>, rest: seq<Option<seq<byte>>>, parse: seq<byte> -> Reply)
    ensures ReceiveAll(c, [message] + rest, parse) == ReceiveAll(Receive(c, message, parse), rest, parse)
  {
    assert ([message] + rest)[1..] == rest;
  }

  lemma OneMore(buffer: seq<byte>)
    requires CutMessage(buffer).Take?
    ensures var cut := CutMessage(buffer);
      0 < cut.size <= |buffer|
      && Messages(buffer) == ([cut.frame] + Messages(buffer[cut.size..]).0, Messages(buffer[cut.size..]).1)
  {
    CutMessageIsFramer();
  }
}
