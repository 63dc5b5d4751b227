/**
 JSON-RPC over Content-Length frames with a child process
 (runMcpStdio in packages/extensions/src/mcp-client.ts).
 */
module McpStdio {
  import opened Prelude
  import opened Framing

  type byte = b: int | 0 <= b < 256

  const CRLF2: seq<byte> := [13, 10, 13, 10]

  /** "content-length:" */
  const LENGTH_NAME: seq<byte> := [99, 111, 110, 116, 101, 110, 116, 45, 108, 101, 110, 103, 116, 104, 58]

  // ---- /Content-Length:\s*(\d+)/i ----

  function Lower(b: byte): byte {
    if 65 <= b <= 90 then b + 32 else b
  }

  predicate IsSpaceByte(b: byte) {
    9 <= b <= 13 || b == 32
  }

  predicate IsDigit(b: byte) {
    48 <= b <= 57
  }

  predicate NameAt(header: seq<byte>, at: nat) {
    at + |LENGTH_NAME| <= |header|
    && forall k | 0 <= k < |LENGTH_NAME| :: Lower(header[at + k]) == LENGTH_NAME[k]
  }

  function SkipSpace(header: seq<byte>, at: nat): (r: nat)
    requires at <= |header|
    ensures at <= r <= |header|
    decreases |header| - at
  {
    if at < |header| && IsSpaceByte(header[at]) then SkipSpace(header, at + 1) else at
  }

  /** The number the longest run of digits from `at` on spells, after `value`. */
  function Digits(header: seq<byte>, at: nat, value: nat): nat
    requires at <= |header|
    decreases |header| - at
  {
    if at < |header| && IsDigit(header[at]) then Digits(header, at + 1, 10 * value + (header[at] - 48)) else value
  }

  function LengthAt(header: seq<byte>, at: nat): Option<nat> {
    if !NameAt(header, at) then None
    else
      var first := SkipSpace(header, at + |LENGTH_NAME|);
      if first < |header| && IsDigit(header[first]) then Some(Digits(header, first, 0)) else None
  }

  /** The leftmost match. */
  function ContentLength(header: seq<byte>, from: nat): Option<nat>
    decreases |header| - from
  {
    if from >= |header| then None
    else if LengthAt(header, from).Some? then LengthAt(header, from)
    else ContentLength(header, from + 1)
  }

  // ---- what the scanner reads ----

  /** The same letter, be it a capital or not. */
  predicate SameLetter(a: byte, b: byte) {
    a == b || (65 <= a <= 90 && b as int == a as int + 32)
  }

  /** What the digits spell. */
  function Spelled(digits: seq<byte>): int {
    if digits == [] then 0 else 10 * Spelled(digits[..|digits| - 1]) + (digits[|digits| - 1] as int - 48)
  }

  /** The pattern matches from `at` on: the name, white space up to `first`, and all digits from there up to `end`. */
  predicate LengthMatch(header: seq<byte>, at: nat, first: nat, end: nat) {
    && at + 15 <= first < end <= |header|
    && (forall k | 0 <= k < 15 :: SameLetter(header[at + k], "content-length:"[k] as int))
    && (forall k | at + 15 <= k < first :: 9 <= header[k] <= 13 || header[k] == 32)
    && (forall k | first <= k < end :: 48 <= header[k] <= 57)
    && (end < |header| ==> !(48 <= header[end] <= 57))
  }

  lemma {:induction false} SkipSpaceIs(header: seq<byte>, at: nat, first: nat)
    requires at <= first < |header| && !IsSpaceByte(header[first])
    requires forall k | at <= k < first :: IsSpaceByte(header[k])
    ensures SkipSpace(header, at) == first
    decreases first - at
  {
    if at < first {
      SkipSpaceIs(header, at + 1, first);
    }
  }

  lemma {:induction false} SkipSpaceSkips(header: seq<byte>, at: nat)
    requires at <= |header|
    ensures var first := SkipSpace(header, at);
      (forall k | at <= k < first :: IsSpaceByte(header[k])) && (first < |header| ==> !IsSpaceByte(header[first]))
    decreases |header| - at
  {
    if at < |header| && IsSpaceByte(header[at]) {
      SkipSpaceSkips(header, at + 1);
    }
  }

  /** Where the run of digits from `at` on ends. */
  function DigitsEnd(header: seq<byte>, at: nat): (end: nat)
    requires at <= |header|
    ensures at <= end <= |header| && (forall k | at <= k < end :: IsDigit(header[k]))
    ensures end < |header| ==> !IsDigit(header[end])
    decreases |header| - at
  {
    if at < |header| && IsDigit(header[at]) then DigitsEnd(header, at + 1) else at
  }

  lemma {:induction false} DigitsSpell(header: seq<byte>, from: nat, at: nat, end: nat)
    requires from <= at <= end <= |header| && forall k | from <= k < end :: IsDigit(header[k])
    requires end < |header| ==> !IsDigit(header[end])
    requires Spelled(header[from..at]) >= 0
    ensures Digits(header, at, Spelled(header[from..at])) == Spelled(header[from..end])
    decreases end - at
  {
    if at < end {
      var more := header[from..at + 1];
      assert more[..|more| - 1] == header[from..at];
      DigitsSpell(header, from, at + 1, end);
    }
  }

  lemma NameIs(header: seq<byte>, at: nat)
    ensures NameAt(header, at)
      <==> at + 15 <= |header| && forall k | 0 <= k < 15 :: SameLetter(header[at + k], "content-length:"[k] as int)
  {
    assert forall k | 0 <= k < 15 :: LENGTH_NAME[k] as int == "content-length:"[k] as int;
    forall k | 0 <= k < 15 && at + 15 <= |header|
      ensures Lower(header[at + k]) == LENGTH_NAME[k] <==> SameLetter(header[at + k], "content-length:"[k] as int)
    {
      assert LENGTH_NAME[k] as int == "content-length:"[k] as int;
      assert !(65 <= LENGTH_NAME[k] <= 90);
    }
  }

  lemma LengthAtIs(header: seq<byte>, at: nat)
    ensures forall first: nat, end: nat | LengthMatch(header, at, first, end) ::
      LengthAt(header, at).Some? && LengthAt(header, at).value == Spelled(header[first..end])
    ensures LengthAt(header, at).Some? ==> exists first: nat, end: nat :: LengthMatch(header, at, first, end)
  {
    hide NameAt, SameLetter;
    NameIs(header, at);
    forall first: nat, end: nat | LengthMatch(header, at, first, end)
      ensures LengthAt(header, at).Some? && LengthAt(header, at).value == Spelled(header[first..end])
    {
      SkipSpaceIs(header, at + 15, first);
      assert header[first..first] == [];
      DigitsSpell(header, first, first, end);
    }
    if LengthAt(header, at).Some? {
      SkipSpaceSkips(header, at + 15);
      var first := SkipSpace(header, at + 15);
      assert LengthMatch(header, at, first, DigitsEnd(header, first));
    }
  }

  predicate MatchesAt(header: seq<byte>, at: nat) {
    exists first: nat, end: nat | first <= |header| && end <= |header| :: LengthMatch(header, at, first, end)
  }

  /** The length a header names is what the leftmost match of the pattern spells; it names none exactly if there is no
      match. */
  lemma {:induction false} LengthIsLeftmost(header: seq<byte>, from: nat)
    ensures forall at: nat, first: nat, end: nat |
      from <= at && LengthMatch(header, at, first, end) && (forall k: nat | from <= k < at :: !MatchesAt(header, k)) ::
      ContentLength(header, from).Some? && ContentLength(header, from).value == Spelled(header[first..end])
    ensures ContentLength(header, from).None? <==> forall at: nat | from <= at < |header| :: !MatchesAt(header, at)
    decreases |header| - from
  {
    hide LengthAt, LengthMatch;
    if from < |header| {
      LengthAtIs(header, from);
      InHeader(header);
      assert LengthAt(header, from).Some? <==> MatchesAt(header, from);
      LengthIsLeftmost(header, from + 1);
    } else {
      InHeader(header);
    }
  }

  lemma InHeader(header: seq<byte>)
    ensures forall at: nat, first: nat, end: nat | LengthMatch(header, at, first, end) ::
      at < |header| && first <= |header| && end <= |header| && MatchesAt(header, at)
  {
  }

  // ---- framing ----

  /** A header block without a length is thrown away: it is a cut without a payload. */
  function CutMessage(buffer: seq<byte>): Cut<Option<seq<byte>>> {
    match IndexOf(buffer, CRLF2)
    case None => Wait
    case Some(headerEnd) =>
      var start := headerEnd + 4;
      match ContentLength(buffer[..headerEnd], 0)
      case None => Take(start, None)
      case Some(length) =>
        if |buffer| < start + length then Wait else Take(start + length, Some(buffer[start..start + length]))
  }

  lemma CutMessageStable(buffer: seq<byte>, more: seq<byte>)
    requires CutMessage(buffer).Take?
    ensures 0 < CutMessage(buffer).size <= |buffer| && CutMessage(buffer + more) == CutMessage(buffer)
  {
    hide ContentLength, IndexOf;
    IndexIsStable(buffer, CRLF2, more);
    var headerEnd := IndexOf(buffer, CRLF2).value;
    assert (buffer + more)[..headerEnd] == buffer[..headerEnd];
    var length, start := ContentLength(buffer[..headerEnd], 0), headerEnd + 4;
    if length.Some? {
      assert (buffer + more)[start..start + length.value] == buffer[start..start + length.value];
    }
  }

  lemma CutMessageIsFramer()
    ensures Framer(CutMessage)
  {
    hide CutMessage;
    forall buffer: seq<byte>, more: seq<byte> | CutMessage(buffer).Take?
      ensures CutMessage(buffer + more) == CutMessage(buffer)
    {
      CutMessageStable(buffer, more);
    }
    forall buffer: seq<byte> | CutMessage(buffer).Take?
      ensures 0 < CutMessage(buffer).size <= |buffer|
    {
      CutMessageStable(buffer, []);
    }
  }

  function Messages(buffer: seq<byte>): (seq<Option<seq<byte>>>, seq<byte>) {
    CutMessageIsFramer();
    Frames(CutMessage, buffer)
  }

  /** However the child's output is chunked, the same messages arrive and the same bytes are left. */
  lemma McpChunkingIrrelevant(chunks: seq<seq<byte>>)
    ensures (CutMessageIsFramer(); Feed(CutMessage, [], chunks)) == Messages(Joined(chunks))
  {
    CutMessageIsFramer();
    assert CutMessage([]).Wait?;
    ChunkingIrrelevant(CutMessage, [], chunks);
    assert [] + Joined(chunks) == Joined(chunks);
  }

  // ---- frames as rpc writes them ----

  function Decimal(n: nat): (digits: seq<byte>)
    ensures digits != [] && forall k | 0 <= k < |digits| :: IsDigit(digits[k])
  {
    if n < 10 then [48 + n] else Decimal(n / 10) + [48 + n % 10]
  }

  /** `Content-Length: ${length}` */
  function Header(length: nat): seq<byte> {
    [67, 111, 110, 116, 101, 110, 116, 45, 76, 101, 110, 103, 116, 104, 58, 32] + Decimal(length)
  }

  function Encode(payload: seq<byte>): seq<byte> {
    Header(|payload|) + CRLF2 + payload
  }

  /** Reading the digits of `n` brings the value to `n`. */
  lemma {:induction false} ReadDecimal(prefix: seq<byte>, n: nat, tail: seq<byte>)
    ensures var text := prefix + Decimal(n) + tail;
      Digits(text, |prefix|, 0) == Digits(text, |prefix| + |Decimal(n)|, n)
  {
    var text := prefix + Decimal(n) + tail;
    if n >= 10 {
      var last: byte := 48 + n % 10;
      var head := Decimal(n / 10);
      assert text == prefix + head + ([last] + tail);
      ReadDecimal(prefix, n / 10, [last] + tail);
      assert text[|prefix| + |head|] == last;
    } else {
      assert text[|prefix|] == 48 + n;
    }
  }

  lemma HeaderLength(length: nat)
    ensures ContentLength(Header(length), 0) == Some(length)
  {
    var header := Header(length);
    var name := header[..16];
    var digits := Decimal(length);
    assert header == name + digits + [];
    assert NameAt(header, 0);
    assert IsDigit(digits[0]) && header[16] == digits[0] && header[15] == 32;
    assert SkipSpace(header, 15) == SkipSpace(header, 16) == 16;
    ReadDecimal(name, length, []);
  }

  lemma HeaderEnd(length: nat, rest: seq<byte>)
    ensures IndexOf(Header(length) + CRLF2 + rest, CRLF2) == Some(|Header(length)|)
  {
    var header := Header(length);
    var text := header + CRLF2 + rest;
    assert OccursAt(text, CRLF2, |header|);
    forall k: nat | k < |header|
      ensures !OccursAt(text, CRLF2, k)
    {
      assert text[k] == header[k];
      assert header[k] != 13 by {
        if k >= 16 { assert header[k] == Decimal(length)[k - 16]; }
      }
      assert k + 4 <= |text| ==> text[k..k + 4][0] == text[k];
    }
    var found := IndexOf(text, CRLF2);
    assert found.Some? && found.value <= |header|;
  }

  lemma CutEncoded(payload: seq<byte>, rest: seq<byte>)
    ensures CutMessage(Encode(payload) + rest) == Take(|Encode(payload)|, Some(payload))
  {
    var header := Header(|payload|);
    var text := Encode(payload) + rest;
    assert text == header + CRLF2 + (payload + rest);
    HeaderEnd(|payload|, payload + rest);
    assert text[..|header|] == header;
    HeaderLength(|payload|);
    assert text[|header| + 4..|header| + 4 + |payload|] == payload;
  }

  function EncodeAll(payloads: seq<seq<byte>>): seq<byte> {
    if payloads == [] then [] else Encode(payloads[0]) + EncodeAll(payloads[1..])
  }

  function Delivered(payloads: seq<seq<byte>>): (r: seq<Option<seq<byte>>>)
    ensures |r| == |payloads| && forall k | 0 <= k < |r| :: r[k] == Some(payloads[k])
  {
    seq(|payloads|, k requires 0 <= k < |payloads| => Some(payloads[k]))
  }

  lemma MessagesOfEncoded(payload: seq<byte>, rest: seq<byte>)
    ensures var (messages, kept) := Messages(rest);
      Messages(Encode(payload) + rest) == ([Some(payload)] + messages, kept)
  {
    CutMessageIsFramer();
    CutEncoded(payload, rest);
    assert (Encode(payload) + rest)[|Encode(payload)|..] == rest;
  }

  lemma EncodedFirst(payloads: seq<seq<byte>>)
    requires payloads != []
    ensures EncodeAll(payloads) == Encode(payloads[0]) + EncodeAll(payloads[1..])
    ensures Delivered(payloads) == [Some(payloads[0])] + Delivered(payloads[1..])
  {
    hide Encode;
  }

  /** What one side writes, the other reads back: payload for payload, nothing left over. */
  lemma {:induction false} FramesRoundTrip(payloads: seq<seq<byte>>)
    ensures Messages(EncodeAll(payloads)) == (Delivered(payloads), [])
  {
    if payloads == [] {
      NothingLeft([]);
    } else {
      hide CutMessage, Encode, Frames, Messages, EncodeAll, Delivered;
      EncodedFirst(payloads);
      FramesRoundTrip(payloads[1..]);
      MessagesOfEncoded(payloads[0], EncodeAll(payloads[1..]));
    }
  }

  lemma NothingLeft(buffer: seq<byte>)
    requires CutMessage(buffer).Wait?
    ensures Messages(buffer) == ([], buffer)
  {
    CutMessageIsFramer();
  }

  // ---- requests and their replies ----

  datatype Outcome = Resolved(result: seq<byte>) | Rejected(message: seq<byte>) | TimedOut | Exited

  /** What `JSON.parse` makes of a payload. */
  datatype Reply = Malformed | WithoutId | Result(id: int, result: seq<byte>) | Failure(id: int, message: seq<byte>)

  datatype Settlement = Settlement(id: int, outcome: Outcome)

  /** The client between two events; `pending` in the order the requests were made. */
  datatype Client = Client(buffer: seq<byte>, nextId: nat, pending: seq<int>, settled: seq<Settlement>)

  const START := Client([], 1, [], [])

  function Remove(ids: seq<int>, id: int): seq<int> {
    if ids == [] then [] else if ids[0] == id then ids[1..] else [ids[0]] + Remove(ids[1..], id)
  }

  function Settle(c: Client, id: int, outcome: Outcome): Client {
    if id in c.pending then c.(pending := Remove(c.pending, id), settled := c.settled + [Settlement(id, outcome)]) else c
  }

  function Receive(c: Client, message: Option<seq<byte>>, parse: seq<byte> -> Reply): Client {
    if message.None? then c
    else match parse(message.value)
      case Malformed => c
      case WithoutId => c
      case Result(id, result) => Settle(c, id, Resolved(result))
      case Failure(id, message) => Settle(c, id, Rejected(message))
  }

  function ReceiveAll(c: Client, messages: seq<Option<seq<byte>>>, parse: seq<byte> -> Reply): Client
    decreases |messages|
  {
    if messages == [] then c else ReceiveAll(Receive(c, messages[0], parse), messages[1..], parse)
  }

  lemma {:induction false} ReceiveAllConcat(c: Client, a: seq<Option<seq<byte>>>, b: seq<Option<seq<byte>>>,
                                           parse: seq<byte> -> Reply)
    ensures ReceiveAll(c, a + b, parse) == ReceiveAll(ReceiveAll(c, a, parse), b, parse)
    decreases |a|
  {
    if a == [] {
      assert a + b == b;
    } else {
      assert (a + b)[1..] == a[1..] + b;
      ReceiveAllConcat(Receive(c, a[0], parse), a[1..], b, parse);
    }
  }

  /** Settling replies never looks at the bytes that are left. */
  lemma {:induction false} ReceiveAllIgnoresBuffer(c: Client, messages: seq<Option<seq<byte>>>, buffer: seq<byte>,
                                                  parse: seq<byte> -> Reply)
    ensures ReceiveAll(c.(buffer := buffer), messages, parse) == ReceiveAll(c, messages, parse).(buffer := buffer)
    ensures ReceiveAll(c, messages, parse).buffer == c.buffer
    decreases |messages|
  {
    if messages != [] {
      assert Receive(c.(buffer := buffer), messages[0], parse) == Receive(c, messages[0], parse).(buffer := buffer);
      ReceiveAllIgnoresBuffer(Receive(c, messages[0], parse), messages[1..], buffer, parse);
    }
  }

  function AllExited(ids: seq<int>): (r: seq<Settlement>)
    ensures |r| == |ids| && forall k | 0 <= k < |r| :: r[k] == Settlement(ids[k], Exited)
  {
    seq(|ids|, k requires 0 <= k < |ids| => Settlement(ids[k], Exited))
  }

  datatype Event =
    | Request
    | Data(chunk: seq<byte>)
    | Timeout(id: int)
    | Exit

  function Step(c: Client, e: Event, parse: seq<byte> -> Reply): Client {
    match e
    case Request => c.(nextId := c.nextId + 1, pending := c.pending + [c.nextId])
    case Data(chunk) =>
      var (messages, rest) := Messages(c.buffer + chunk);
      ReceiveAll(c.(buffer := rest), messages, parse)
    case Timeout(id) => Settle(c, id, TimedOut)
    case Exit => c.(pending := [], settled := c.settled + AllExited(c.pending))
  }

  /** Two chunks settle the same requests, and leave the same bytes, as the two in one piece. */
  lemma ChunksMerge(c: Client, a: seq<byte>, b: seq<byte>, parse: seq<byte> -> Reply)
    ensures Step(Step(c, Data(a), parse), Data(b), parse) == Step(c, Data(a + b), parse)
  {
    hide CutMessage, Frames, ReceiveAll;
    CutMessageIsFramer();
    CutAsYouGo(CutMessage, c.buffer + a, b);
    assert c.buffer + a + b == c.buffer + (a + b);
    var (first, kept) := Messages(c.buffer + a);
    var (later, rest) := Messages(kept + b);
    assert Messages(c.buffer + (a + b)) == (first + later, rest);
    ReceiveAllIgnoresBuffer(c, first, kept, parse);
    ReceiveAllIgnoresBuffer(c, first, rest, parse);
    ReceiveAllIgnoresBuffer(ReceiveAll(c, first, parse), later, rest, parse);
    ReceiveAllConcat(c.(buffer := rest), first, later, parse);
  }

  function Run(c: Client, es: seq<Event>, parse: seq<byte> -> Reply): Client
    decreases |es|
  {
    if es == [] then c else Run(Step(c, es[0], parse), es[1..], parse)
  }

  function Ids(settled: seq<Settlement>): (r: seq<int>)
    ensures |r| == |settled| && forall k | 0 <= k < |r| :: r[k] == settled[k].id
  {
    seq(|settled|, k requires 0 <= k < |settled| => settled[k].id)
  }

  /** The ids handed out: 1 .. nextId - 1. */
  function Issued(nextId: nat): multiset<int>
  {
    if nextId <= 1 then multiset{} else Issued(nextId - 1) + multiset{nextId - 1}
  }

  /** Every request made is either still waiting or settled, and settled once. */
  predicate Accounted(c: Client) {
    c.nextId >= 1 && multiset(c.pending) + multiset(Ids(c.settled)) == Issued(c.nextId)
  }

  lemma {:induction false} RemoveOne(ids: seq<int>, id: int)
    requires id in ids
    ensures multiset(Remove(ids, id)) + multiset{id} == multiset(ids)
  {
    if ids[0] == id {
      assert ids == [id] + ids[1..];
    } else {
      RemoveOne(ids[1..], id);
      assert ids == [ids[0]] + ids[1..];
    }
  }

  lemma IdsPush(settled: seq<Settlement>, s: Settlement)
    ensures Ids(settled + [s]) == Ids(settled) + [s.id]
  {
  }

  lemma SettleKeeps(c: Client, id: int, outcome: Outcome)
    requires Accounted(c)
    ensures Accounted(Settle(c, id, outcome)) && c.settled <= Settle(c, id, outcome).settled
  {
    if id in c.pending {
      RemoveOne(c.pending, id);
      IdsPush(c.settled, Settlement(id, outcome));
    }
  }

  lemma {:induction false} ReceiveAllKeeps(c: Client, messages: seq<Option<seq<byte>>>, parse: seq<byte> -> Reply)
    requires Accounted(c)
    ensures Accounted(ReceiveAll(c, messages, parse)) && c.settled <= ReceiveAll(c, messages, parse).settled
    decreases |messages|
  {
    if messages != [] {
      var m := messages[0];
      if m.Some? && parse(m.value).Result? {
        SettleKeeps(c, parse(m.value).id, Resolved(parse(m.value).result));
      } else if m.Some? && parse(m.value).Failure? {
        SettleKeeps(c, parse(m.value).id, Rejected(parse(m.value).message));
      }
      ReceiveAllKeeps(Receive(c, m, parse), messages[1..], parse);
    }
  }

  lemma ExitKeeps(c: Client, parse: seq<byte> -> Reply)
    requires Accounted(c)
    ensures Accounted(Step(c, Exit, parse)) && c.settled <= Step(c, Exit, parse).settled
  {
    hide Issued;
    assert Ids(c.settled + AllExited(c.pending)) == Ids(c.settled) + c.pending;
  }

  lemma RequestKeeps(c: Client, parse: seq<byte> -> Reply)
    requires Accounted(c)
    ensures Accounted(Step(c, Request, parse)) && c.settled <= Step(c, Request, parse).settled
  {
  }

  lemma StepKeeps(c: Client, e: Event, parse: seq<byte> -> Reply)
    requires Accounted(c)
    ensures Accounted(Step(c, e, parse)) && c.settled <= Step(c, e, parse).settled
  {
    hide ReceiveAll, Messages, Settle, Accounted;
    match e
    case Request => RequestKeeps(c, parse);
    case Data(chunk) =>
      var (messages, rest) := Messages(c.buffer + chunk);
      SameAccounts(c, rest);
      ReceiveAllKeeps(c.(buffer := rest), messages, parse);
    case Timeout(id) => SettleKeeps(c, id, TimedOut);
    case Exit => ExitKeeps(c, parse);
  }

  lemma SameAccounts(c: Client, buffer: seq<byte>)
    requires Accounted(c)
    ensures Accounted(c.(buffer := buffer))
  {
  }

  /** Over any run the accounts balance and a settlement is never taken back. */
  lemma {:induction false} RunKeeps(c: Client, es: seq<Event>, parse: seq<byte> -> Reply)
    requires Accounted(c)
    ensures Accounted(Run(c, es, parse)) && c.settled <= Run(c, es, parse).settled
    decreases |es|
  {
    if es != [] {
      StepKeeps(c, es[0], parse);
      RunKeeps(Step(c, es[0], parse), es[1..], parse);
    }
  }

  lemma {:induction false} IssuedOnce(nextId: nat, id: int)
    ensures Issued(nextId)[id] == if 1 <= id < nextId then 1 else 0
  {
    if nextId > 1 {
      IssuedOnce(nextId - 1, id);
    }
  }

  /** No request settles twice, whatever mix of replies, timeouts and exits arrives. */
  lemma SettledAtMostOnce(es: seq<Event>, parse: seq<byte> -> Reply)
    ensures var c := Run(START, es, parse);
      forall i, j | 0 <= i < j < |c.settled| :: c.settled[i].id != c.settled[j].id
    ensures var c := Run(START, es, parse);
      forall id | 1 <= id < c.nextId :: (id in c.pending) != (id in Ids(c.settled))
  {
    var c := Run(START, es, parse);
    assert Ids([]) == [];
    RunKeeps(START, es, parse);
    var ids := Ids(c.settled);
    forall i, j | 0 <= i < j < |ids|
      ensures ids[i] != ids[j]
    {
      IssuedOnce(c.nextId, ids[i]);
      assert ids == ids[..j] + [ids[j]] + ids[j + 1..];
      assert ids[i] in ids[..j];
    }
    forall id | 1 <= id < c.nextId
      ensures (id in c.pending) != (id in ids)
    {
      IssuedOnce(c.nextId, id);
      assert (id in c.pending) == (id in multiset(c.pending)) && (id in ids) == (id in multiset(ids));
    }
  }

  lemma {:induction false} RepliesKeepIds(c: Client, messages: seq<Option<seq<byte>>>, parse: seq<byte> -> Reply)
    ensures ReceiveAll(c, messages, parse).nextId == c.nextId
    decreases |messages|
  {
    if messages != [] {
      RepliesKeepIds(Receive(c, messages[0], parse), messages[1..], parse);
    }
  }

  // ---- a frame, byte by byte ----

  lemma {:induction false} DecimalSpells(n: nat)
    ensures Spelled(Decimal(n)) == n
    ensures |Decimal(n)| > 1 ==> Decimal(n)[0] != 48
  {
    if n >= 10 {
      var front := Decimal(n / 10);
      DecimalSpells(n / 10);
      assert Decimal(n)[..|Decimal(n)| - 1] == front;
      if n / 10 < 10 {
        assert front == [48 + n / 10];
      } else {
        assert |front| > 1;
      }
    }
  }

  lemma {:induction false} TwoDigits(n: nat)
    requires n >= 10
    ensures |Decimal(n)| > 1
  {
  }

  /** A frame is the name of its length in these very letters, the length in decimal digits, a blank line, and the
      payload. */
  lemma FrameIs(payload: seq<byte>)
    ensures exists digits: seq<byte> ::
      && Encode(payload) == Header(|payload|) + [13, 10, 13, 10] + payload
      && Header(|payload|) == [67, 111, 110, 116, 101, 110, 116, 45, 76, 101, 110, 103, 116, 104, 58, 32] + digits
      && (forall k | 0 <= k < |digits| :: 48 <= digits[k] <= 57) && Spelled(digits) == |payload|
      && digits != [] && (|digits| > 1 ==> digits[0] != 48)
  {
    hide Decimal;
    DecimalSpells(|payload|);
    var digits := Decimal(|payload|);
    assert Spelled(digits) == |payload|;
  }
}
