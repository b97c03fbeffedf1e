/** The byte level of the language server client: frames with a Content-Length
    header (Language Server Protocol 3.17, Base Protocol) are cut out of a buffer
    that grows by arbitrary chunks.  A byte is represented by a character. */
module LspFraming {
  import opened Wrappers
  import opened Decimal
  import opened Strings

  const HEADER_LIMIT: nat := 16 * 1024
  const MESSAGE_LIMIT: nat := 8 * 1024 * 1024
  const INPUT_LIMIT: nat := HEADER_LIMIT + 4 + MESSAGE_LIMIT
  const MAX_MESSAGES_PER_PUMP: nat := 8
  const PIPE_READ_LIMIT: nat := 64 * 1024
  const NEWLINE := "\r\n"
  const TERMINATOR := "\r\n\r\n"
  const PREFIX := "Content-Length:"

  /******* The length field *******/

  function SkipSpaces(s: string): string {
    if s != "" && s[0] == ' ' then SkipSpaces(s[1..]) else s
  }

  // The declared length: all digits, at least one, and a value within the limit.
  function DeclaredLength(field: string): Option<nat> {
    var digits := SkipSpaces(field);
    if digits != "" && AllDigits(digits) && Value(digits) <= MESSAGE_LIMIT then Some(Value(digits)) else None
  }

  lemma PrefixesWithin(digits: string)
    requires AllDigits(digits) && Value(digits) <= MESSAGE_LIMIT
    ensures forall k: nat | k <= |digits| :: AllDigits(digits[..k]) && Value(digits[..k]) <= MESSAGE_LIMIT
  {
    forall k: nat | k <= |digits| ensures AllDigits(digits[..k]) && Value(digits[..k]) <= MESSAGE_LIMIT {
      PrefixValue(digits, k);
    }
  }

  method SpacesIn(field: string) returns (cursor: nat)
    ensures cursor <= |field| && SkipSpaces(field) == field[cursor..]
  {
    cursor := 0;
    while cursor < |field| && field[cursor] == ' '
      invariant cursor <= |field| && SkipSpaces(field) == SkipSpaces(field[cursor..])
    {
      assert field[cursor..][1..] == field[cursor + 1..];
      cursor := cursor + 1;
    }
  }

  /** The bounded loop over the digits. The value read so far never exceeds the limit; so
      no beginning of an accepted length does. */
  method ReadLength(field: string) returns (r: Option<nat>)
    ensures r == DeclaredLength(field)
    ensures r.Some? ==> forall k: nat | k <= |SkipSpaces(field)| ::
              AllDigits(SkipSpaces(field)[..k]) && Value(SkipSpaces(field)[..k]) <= MESSAGE_LIMIT
  {
    var cursor := SpacesIn(field);
    ghost var digits := field[cursor..];
    hide SkipSpaces;
    if cursor == |field| {
      return None;
    }
    ghost var start := cursor;
    var length := 0;
    while cursor < |field|
      invariant start <= cursor <= |field|
      invariant AllDigits(digits[..cursor - start]) && length == Value(digits[..cursor - start]) <= MESSAGE_LIMIT
    {
      var digit := field[cursor];
      assert digit == digits[cursor - start];
      if !IsDigit(digit) {
        return None;
      }
      ghost var next := digits[..cursor - start + 1];
      assert next[..|next| - 1] == digits[..cursor - start];
      if length > (MESSAGE_LIMIT - Digit(digit)) / 10 {
        if AllDigits(digits) {
          PrefixValue(digits, cursor - start + 1);
        }
        return None;
      }
      length := length * 10 + Digit(digit);
      cursor := cursor + 1;
    }
    assert digits[..|digits|] == digits;
    PrefixesWithin(digits);
    return Some(length);
  }

  /******* The header *******/

  predicate IsLengthLine(line: string) {
    PREFIX <= line
  }

  function LineEnd(header: string, from: nat): (end: nat)
    requires from <= |header|
    ensures from <= end <= |header|
  {
    var found := Find(header, NEWLINE, from);
    if found.Some? then found.value else |header|
  }

  // What follows the colon in each of the length lines.
  function LengthFields(header: string, from: nat): seq<string>
    decreases |header| - from
  {
    if from >= |header| then []
    else
      var end := LineEnd(header, from);
      var line := header[from..end];
      (if IsLengthLine(line) then [line[|PREFIX|..]] else []) + LengthFields(header, end + 2)
  }

  // A header is good iff exactly one of its lines is a length line, with a good length.
  function HeaderLength(header: string): Option<nat> {
    var fields := LengthFields(header, 0);
    if |fields| == 1 then DeclaredLength(fields[0]) else None
  }

  method ReadHeader(header: string) returns (r: Option<nat>)
    ensures r == HeaderLength(header)
  {
    hide DeclaredLength, LineEnd;
    r := None;
    var lineStart := 0;
    ghost var fields: seq<string> := [];
    while lineStart < |header|
      invariant LengthFields(header, 0) == fields + LengthFields(header, lineStart)
      invariant |fields| == if r.Some? then 1 else 0
      invariant r.Some? ==> r == DeclaredLength(fields[0])
      decreases |header| - lineStart
    {
      var lineEnd := LineEnd(header, lineStart);
      var line := header[lineStart..lineEnd];
      if IsLengthLine(line) {
        if r.Some? {
          return None;
        }
        r := ReadLength(line[|PREFIX|..]);
        fields := fields + [line[|PREFIX|..]];
        if r.None? {
          return None;
        }
      }
      lineStart := lineEnd + 2;
    }
  }

  /******* Messages *******/

  datatype Outcome = Wait | Fail | Deliver(body: string, rest: string)

  // What the buffer allows next.
  function Next(input: string): Outcome {
    match Find(input, TERMINATOR, 0)
    case None => if |input| > HEADER_LIMIT then Fail else Wait
    case Some(end) =>
      if end > HEADER_LIMIT then Fail
      else
        match HeaderLength(input[..end])
        case None => Fail
        case Some(length) =>
          if |input| - (end + 4) < length then Wait
          else Deliver(input[end + 4..end + 4 + length], input[end + 4 + length..])
  }

  method NextMessage(input: string) returns (r: Outcome)
    ensures r == Next(input)
  {
    var headerEnd := Find(input, TERMINATOR, 0);
    if headerEnd.None? {
      return if |input| > HEADER_LIMIT then Fail else Wait;
    }
    if headerEnd.value > HEADER_LIMIT {
      return Fail;
    }
    var length := ReadHeader(input[..headerEnd.value]);
    if length.None? {
      return Fail;
    }
    var bodyStart := headerEnd.value + 4;
    if |input| - bodyStart < length.value {
      return Wait;
    }
    return Deliver(input[bodyStart..bodyStart + length.value], input[bodyStart + length.value..]);
  }

  datatype Buffer = Buffer(input: string, delivered: seq<string>, failed: bool)

  // Up to `quota` messages.
  function Parsed(b: Buffer, quota: nat): Buffer
    decreases quota
  {
    if quota == 0 then b
    else
      match Next(b.input)
      case Wait => b
      case Fail => Buffer("", b.delivered, true)
      case Deliver(body, rest) => Parsed(Buffer(rest, b.delivered + [body], b.failed), quota - 1)
  }

  function Min(a: nat, b: nat): nat {
    if a < b then a else b
  }

  class Reader {
    var input: string
    var delivered: seq<string>
    var failed: bool

    function Contents(): Buffer
      reads this
    {
      Buffer(input, delivered, failed)
    }

    constructor ()
      ensures Contents() == Buffer("", [], false)
    {
      input, delivered, failed := "", [], false;
    }

    method Receive(chunk: string)
      modifies this
      ensures Contents() == old(Contents()).(input := old(input) + chunk)
    {
      input := input + chunk;
    }

    /** One call handles at most eight messages, fewer when its time is up. */
    method ParseMessages(timeAllows: nat)
      modifies this
      ensures Contents() == Parsed(old(Contents()), Min(timeAllows, MAX_MESSAGES_PER_PUMP))
    {
      hide Next;
      ghost var quota := Min(timeAllows, MAX_MESSAGES_PER_PUMP);
      var parsed := 0;
      while parsed < MAX_MESSAGES_PER_PUMP && parsed < timeAllows
        invariant parsed <= quota
        invariant Parsed(old(Contents()), quota) == Parsed(Contents(), quota - parsed)
        decreases MAX_MESSAGES_PER_PUMP - parsed
      {
        var next := NextMessage(input);
        match next {
          case Wait =>
            return;
          case Fail =>
            input, failed := "", true;
            return;
          case Deliver(body, rest) =>
            input := rest;
            delivered := delivered + [body];
            parsed := parsed + 1;
        }
      }
    }
  }

  /******* Streams of messages *******/

  datatype Message = Message(header: string, body: string)

  function Frame(m: Message): string {
    m.header + TERMINATOR + m.body
  }

  // The header, of whatever fields, ends at the first terminator and declares the body's length.
  predicate WellFormed(m: Message) {
    && Find(m.header + TERMINATOR, TERMINATOR, 0) == Some(|m.header|)
    && HeaderLength(m.header) == Some(|m.body|) && |m.header| <= 16 * 1024
  }

  ghost predicate AllWellFormed(messages: seq<Message>) {
    forall k: nat | k < |messages| :: WellFormed(messages[k])
  }

  // The header leaves room for three more bytes before the limit.
  predicate HasRoom(m: Message) {
    |m.header| + 3 <= 16 * 1024
  }

  ghost predicate AllHaveRoom(messages: seq<Message>) {
    forall k: nat | k < |messages| :: HasRoom(messages[k])
  }

  function Stream(messages: seq<Message>): string {
    if messages == [] then "" else Frame(messages[0]) + Stream(messages[1..])
  }

  function Bodies(messages: seq<Message>): seq<string> {
    seq(|messages|, i requires 0 <= i < |messages| => messages[i].body)
  }

  // A message as the client itself prints it.
  function Printed(body: string): Message {
    Message(Header(body), body)
  }

  function Header(body: string): string {
    PREFIX + " " + Print(|body|)
  }

  lemma HeaderHasNoBreak(body: string)
    ensures '\r' !in Header(body)
    ensures |body| <= MESSAGE_LIMIT ==> |Header(body)| <= 23
  {
    assert forall k: nat | k < |Print(|body|)| :: IsDigit(Print(|body|)[k]);
    if |body| <= MESSAGE_LIMIT {
      assert Power10(7) == 10_000_000 by {
        assert Power10(2) == 100;
        assert Power10(4) == 10_000;
      }
      PrintLength(|body|, 7);
    }
  }

  // Searching for a pattern that starts with a carriage return.
  lemma FoundAfter(text: string, pattern: string, k: nat)
    requires pattern != "" && pattern[0] == '\r' && (forall i: nat | i < k && i < |text| :: text[i] != '\r')
    ensures OccursAt(text, pattern, k) ==> Find(text, pattern, 0) == Some(k)
    ensures |text| < k + |pattern| ==> Find(text, pattern, 0) == None
  {
    forall i: nat | i < k
      ensures !OccursAt(text, pattern, i)
    {
      assert i + |pattern| <= |text| ==> text[i..i + |pattern|][0] == text[i];
    }
    if OccursAt(text, pattern, k) {
      FirstFound(text, pattern, 0, k);
    }
    if |text| < k + |pattern| {
      NeverFound(text, pattern, 0);
    }
  }

  lemma HeaderDeclares(body: string)
    requires |body| <= MESSAGE_LIMIT
    ensures HeaderLength(Header(body)) == Some(|body|)
  {
    var h, digits := Header(body), Print(|body|);
    HeaderHasNoBreak(body);
    FoundAfter(h, NEWLINE, |h|);
    assert LineEnd(h, 0) == |h| && h[0..|h|] == h;
    assert h[|PREFIX|..] == " " + digits;
    assert LengthFields(h, 0) == [" " + digits];
    assert (" " + digits)[1..] == digits && IsDigit(digits[0]);
    assert SkipSpaces(" " + digits) == digits;
    PrintValue(|body|);
  }

  /** What the client prints is well formed, with room to spare. */
  lemma PrintedIsWellFormed(body: string)
    requires |body| <= MESSAGE_LIMIT
    ensures WellFormed(Printed(body)) && HasRoom(Printed(body))
  {
    hide Find, HeaderLength;
    var h := Header(body);
    HeaderHasNoBreak(body);
    HeaderDeclares(body);
    assert (h + TERMINATOR)[|h|..|h| + 4] == TERMINATOR;
    FoundAfter(h + TERMINATOR, TERMINATOR, |h|);
  }

  // The first terminator of a text is found neither earlier in a longer nor at all in a shorter text.
  lemma TerminatorIsStable(header: string, rest: string, k: nat)
    requires Find(header + TERMINATOR, TERMINATOR, 0) == Some(|header|) && k < |header| + 4
    ensures Find(header + TERMINATOR + rest, TERMINATOR, 0) == Some(|header|)
    ensures Find((header + TERMINATOR)[..k], TERMINATOR, 0) == None
  {
    hide Find;
    var text, longer, shorter := header + TERMINATOR, header + TERMINATOR + rest, (header + TERMINATOR)[..k];
    forall i: nat | i < |header|
      ensures !OccursAt(longer, TERMINATOR, i) && !OccursAt(shorter, TERMINATOR, i)
    {
      FoundIsFirst(text, TERMINATOR, 0, i);
      assert longer[i..i + 4] == text[i..i + 4];
      assert i + 4 <= k ==> shorter[i..i + 4] == text[i..i + 4];
    }
    assert longer[|header|..|header| + 4] == TERMINATOR;
    FirstFound(longer, TERMINATOR, 0, |header|);
    NeverFound(shorter, TERMINATOR, 0);
  }

  lemma HeaderRead(input: string, header: string, length: nat)
    requires Find(input, TERMINATOR, 0) == Some(|header|) && header <= input
    requires HeaderLength(header) == Some(length) && |header| <= HEADER_LIMIT && |input| >= |header| + 4
    ensures Next(input) == if |input| < |header| + 4 + length then Wait
                           else Deliver(input[|header| + 4..|header| + 4 + length], input[|header| + 4 + length..])
  {
    hide Find, HeaderLength;
    assert input[..|header|] == header;
  }

  /** Before a frame is complete the buffer waits, unless it holds more than the limit
      without the end of the header. */
  lemma FrameIncomplete(m: Message, input: string)
    requires WellFormed(m) && input <= Frame(m) && input != Frame(m)
    ensures Next(input) == if HEADER_LIMIT < |input| < |m.header| + 4 then Fail else Wait
  {
    hide Next, Find, HeaderLength;
    var h, k := m.header, |input|;
    if k < |h| + 4 {
      assert input == (h + TERMINATOR)[..k];
      PartialHeader(h, k);
    } else {
      var rest := input[|h| + 4..];
      assert input == h + TERMINATOR + rest;
      TerminatorIsStable(h, rest, 0);
      HeaderRead(input, h, |m.body|);
    }
  }

  lemma PartialHeader(header: string, k: nat)
    requires Find(header + TERMINATOR, TERMINATOR, 0) == Some(|header|) && k < |header| + 4
    ensures Next((header + TERMINATOR)[..k]) == if k > HEADER_LIMIT then Fail else Wait
  {
    hide Find, HeaderLength;
    TerminatorIsStable(header, "", k);
  }

  /** A complete frame is cut off exactly. */
  lemma FrameComplete(m: Message, rest: string)
    requires WellFormed(m)
    ensures Next(Frame(m) + rest) == Deliver(m.body, rest)
  {
    hide Next, Find, HeaderLength;
    var h, input := m.header, Frame(m) + rest;
    assert input == h + TERMINATOR + (m.body + rest);
    TerminatorIsStable(h, m.body + rest, 0);
    HeaderRead(input, h, |m.body|);
    assert input[|h| + 4..|h| + 4 + |m.body|] == m.body && input[|h| + 4 + |m.body|..] == rest;
  }

  /******* Any chunks, any calls *******/

  datatype Event = Arrive(chunk: string) | Parse(timeAllows: nat)

  function Happens(b: Buffer, e: Event): Buffer {
    match e
    case Arrive(chunk) => b.(input := b.input + chunk)
    case Parse(timeAllows) => Parsed(b, Min(timeAllows, MAX_MESSAGES_PER_PUMP))
  }

  function After(b: Buffer, events: seq<Event>): Buffer {
    if events == [] then b else Happens(After(b, events[..|events| - 1]), events[|events| - 1])
  }

  function Bytes(e: Event): string {
    match e
    case Arrive(chunk) => chunk
    case Parse(_) => ""
  }

  function Received(events: seq<Event>): string {
    if events == [] then "" else Received(events[..|events| - 1]) + Bytes(events[|events| - 1])
  }

  // The number of whole frames among the first `n` bytes.
  function Complete(messages: seq<Message>, n: nat): (k: nat)
    ensures k <= |messages|
  {
    if messages == [] || |Frame(messages[0])| > n then 0 else 1 + Complete(messages[1..], n - |Frame(messages[0])|)
  }

  lemma StreamOpens(messages: seq<Message>)
    requires messages != []
    ensures Stream(messages) == Frame(messages[0]) + Stream(messages[1..])
  {
    hide Frame;
  }

  lemma {:induction false} StreamSplits(a: seq<Message>, b: seq<Message>)
    ensures Stream(a + b) == Stream(a) + Stream(b)
  {
    hide Frame, Stream;
    if a == [] {
      assert a + b == b;
      NoStream();
      assert "" + Stream(b) == Stream(b);
    } else {
      StreamSplits(a[1..], b);
      assert (a + b)[0] == a[0] && (a + b)[1..] == a[1..] + b;
      StreamOpens(a + b);
      StreamOpens(a);
      assert Frame(a[0]) + (Stream(a[1..]) + Stream(b)) == Frame(a[0]) + Stream(a[1..]) + Stream(b);
    }
  }

  // Nothing was lost, invented or reordered.
  ghost predicate InStep(messages: seq<Message>, received: string, b: Buffer) {
    && !b.failed
    && b.delivered <= Bodies(messages)
    && received <= Stream(messages)
    && received == Stream(messages[..|b.delivered|]) + b.input
  }

  lemma NextInStep(messages: seq<Message>, received: string, b: Buffer)
    requires AllWellFormed(messages) && AllHaveRoom(messages) && InStep(messages, received, b)
    ensures var d := |b.delivered|;
            if d == |messages| || |b.input| < |Frame(messages[d])| then Next(b.input) == Wait
            else Next(b.input) == Deliver(messages[d].body, b.input[|Frame(messages[d])|..])
                 && InStep(messages, received,
                           Buffer(b.input[|Frame(messages[d])|..], b.delivered + [messages[d].body], false))
  {
    hide Next, Frame, Stream, WellFormed;
    var d := |b.delivered|;
    RestOfStream(messages, received, b);
    if d == |messages| {
      assert messages[d..] == [];
      NoStream();
      EmptyWaits();
    } else {
      var m, frame := messages[d], Frame(messages[d]);
      if |b.input| < |frame| {
        FrameIncomplete(m, b.input);
      } else {
        var rest := b.input[|frame|..];
        assert b.input == frame + rest;
        FrameComplete(m, rest);
        StreamNext(messages[..d], m);
        assert messages[..d] + [m] == messages[..d + 1];
        assert Stream(messages[..d]) + (frame + rest) == (Stream(messages[..d]) + frame) + rest;
      }
    }
  }

  lemma NoStream()
    ensures Stream([]) == ""
  {
  }

  lemma StreamNext(messages: seq<Message>, m: Message)
    ensures Stream(messages + [m]) == Stream(messages) + Frame(m)
  {
    hide Frame;
    StreamSplits(messages, [m]);
    assert [m][1..] == [] && Frame(m) + "" == Frame(m);
    assert Stream([m]) == Frame(m);
  }

  // What is in the buffer is the start of what is still to be delivered.
  lemma RestOfStream(messages: seq<Message>, received: string, b: Buffer)
    requires InStep(messages, received, b)
    ensures var d := |b.delivered|;
            && b.input <= Stream(messages[d..])
            && (d < |messages| && |b.input| < |Frame(messages[d])| ==> b.input <= Frame(messages[d]))
            && (d < |messages| && |b.input| >= |Frame(messages[d])| ==> Frame(messages[d]) <= b.input)
  {
    hide Frame;
    var d := |b.delivered|;
    assert messages == messages[..d] + messages[d..];
    StreamSplits(messages[..d], messages[d..]);
    assert b.input == received[|Stream(messages[..d])|..] <= Stream(messages[d..]);
    if d < |messages| {
      var frame := Frame(messages[d]);
      assert Stream(messages[d..]) == frame + Stream(messages[d..][1..]);
      if |b.input| < |frame| {
        assert b.input == Stream(messages[d..])[..|b.input|] == frame[..|b.input|];
      } else {
        assert b.input[..|frame|] == Stream(messages[d..])[..|frame|] == frame;
      }
    }
  }

  lemma EmptyWaits()
    ensures Next("") == Wait
  {
  }

  lemma {:induction false} CompleteSplits(messages: seq<Message>, d: nat, n: nat)
    requires d <= |messages|
    ensures Complete(messages, |Stream(messages[..d])| + n) == d + Complete(messages[d..], n)
    decreases d
  {
    hide Frame;
    if d == 0 {
      assert messages[0..] == messages;
    } else {
      CompleteSplits(messages[1..], d - 1, n);
      assert messages[..d][1..] == messages[1..][..d - 1];
      assert messages[1..][d - 1..] == messages[d..];
      assert Stream(messages[..d]) == Frame(messages[0]) + Stream(messages[..d][1..]);
    }
  }

  // The messages delivered are complete, and all that are iff the next frame is not.
  lemma CompleteNow(messages: seq<Message>, received: string, b: Buffer)
    requires InStep(messages, received, b)
    ensures |b.delivered| <= Complete(messages, |received|)
    ensures var d := |b.delivered|;
            Complete(messages, |received|) == d <==> d == |messages| || |b.input| < |Frame(messages[d])|
  {
    hide Frame, Stream;
    CompleteSplits(messages, |b.delivered|, |b.input|);
  }

  /** One call delivers exactly the complete messages, up to its quota. */
  lemma {:induction false} ParsedInStep(messages: seq<Message>, received: string, b: Buffer, quota: nat)
    requires AllWellFormed(messages) && AllHaveRoom(messages) && InStep(messages, received, b)
    ensures InStep(messages, received, Parsed(b, quota))
    ensures |Parsed(b, quota).delivered| == Min(|b.delivered| + quota, Complete(messages, |received|))
    decreases quota
  {
    hide Next, Frame, Stream, Complete, AllWellFormed, AllHaveRoom;
    var d := |b.delivered|;
    NextInStep(messages, received, b);
    CompleteNow(messages, received, b);
    if quota > 0 && d < |messages| && |b.input| >= |Frame(messages[d])| {
      var rest := b.input[|Frame(messages[d])|..];
      assert !b.failed;
      hide InStep;
      ParsedInStep(messages, received, Buffer(rest, b.delivered + [messages[d].body], false), quota - 1);
    }
  }

  lemma HappensInStep(messages: seq<Message>, received: string, b: Buffer, e: Event)
    requires AllWellFormed(messages) && AllHaveRoom(messages) && InStep(messages, received, b) && received + Bytes(e) <= Stream(messages)
    ensures InStep(messages, received + Bytes(e), Happens(b, e))
  {
    hide Stream, Parsed;
    match e
    case Arrive(chunk) =>
      var before := Stream(messages[..|b.delivered|]);
      assert before + b.input + chunk == before + (b.input + chunk);
    case Parse(timeAllows) =>
      assert received + "" == received;
      ParsedInStep(messages, received, b, Min(timeAllows, MAX_MESSAGES_PER_PUMP));
  }

  /** However the bytes of a stream of messages are cut into chunks and whenever the
      parser is called, it has delivered a prefix of the messages and keeps exactly
      the bytes behind that prefix. */
  lemma {:induction false} DeliversExactly(messages: seq<Message>, events: seq<Event>)
    requires AllWellFormed(messages) && AllHaveRoom(messages) && Received(events) <= Stream(messages)
    ensures InStep(messages, Received(events), After(Buffer("", [], false), events))
  {
    if events != [] {
      var before := events[..|events| - 1];
      assert Received(before) <= Received(events);
      assert Received(before) == Stream(messages)[..|Received(before)|];
      DeliversExactly(messages, before);
      hide Stream, InStep, Happens, Bytes;
      HappensInStep(messages, Received(before), After(Buffer("", [], false), before), events[|events| - 1]);
    }
  }

  function Calls(calls: nat): seq<Event> {
    seq(calls, _ => Parse(MAX_MESSAGES_PER_PUMP))
  }

  lemma {:induction false} CallsDeliver(messages: seq<Message>, events: seq<Event>, calls: nat)
    requires AllWellFormed(messages) && AllHaveRoom(messages) && Received(events) == Stream(messages)
    ensures var b := After(Buffer("", [], false), events + Calls(calls));
            && InStep(messages, Stream(messages), b)
            && |b.delivered| >= Min(|messages|, calls * MAX_MESSAGES_PER_PUMP)
    decreases calls
  {
    hide Parsed, Stream, Complete, InStep, Received;
    var all := events + Calls(calls);
    if calls == 0 {
      assert all == events;
      DeliversExactly(messages, events);
    } else {
      var before := events + Calls(calls - 1);
      assert all[..|all| - 1] == before && all[|all| - 1] == Parse(MAX_MESSAGES_PER_PUMP);
      CallsDeliver(messages, events, calls - 1);
      ParsedInStep(messages, Stream(messages), After(Buffer("", [], false), before), MAX_MESSAGES_PER_PUMP);
      AllComplete(messages);
    }
  }

  /** Once everything has arrived, enough calls that are not cut short deliver every message. */
  lemma DeliversAll(messages: seq<Message>, events: seq<Event>, calls: nat)
    requires AllWellFormed(messages) && AllHaveRoom(messages) && Received(events) == Stream(messages)
    requires calls * 8 >= |messages|
    ensures After(Buffer("", [], false), events + Calls(calls)) == Buffer("", Bodies(messages), false)
  {
    hide After, Stream;
    CallsDeliver(messages, events, calls);
    var b := After(Buffer("", [], false), events + Calls(calls));
    assert |b.delivered| == |messages|;
    assert messages[..|messages|] == messages;
    assert b.input == Stream(messages)[|Stream(messages)|..];
  }

  lemma {:induction false} AllComplete(messages: seq<Message>)
    ensures Complete(messages, |Stream(messages)|) == |messages|
  {
    hide Frame;
    if messages != [] {
      AllComplete(messages[1..]);
    }
  }

  /******* The header limit *******/

  lemma LastEvent(b: Buffer, events: seq<Event>, e: Event)
    ensures Received(events + [e]) == Received(events) + Bytes(e)
    ensures After(b, events + [e]) == Happens(After(b, events), e)
  {
    hide Happens, Bytes;
    assert (events + [e])[..|events|] == events;
  }

  lemma NoEvents(b: Buffer)
    ensures Received([]) == "" && After(b, []) == b
  {
  }

  // A chunk arrives and is parsed on the spot.
  lemma ArriveAndParse(events: seq<Event>, chunk: string)
    ensures var b := After(Buffer("", [], false), events);
            && Received(events + [Arrive(chunk), Parse(1)]) == Received(events) + chunk
            && After(Buffer("", [], false), events + [Arrive(chunk), Parse(1)])
               == Parsed(b.(input := b.input + chunk), 1)
  {
    hide Received, After, Parsed;
    LastEvent(Buffer("", [], false), events, Arrive(chunk));
    LastEvent(Buffer("", [], false), events + [Arrive(chunk)], Parse(1));
    assert events + [Arrive(chunk)] + [Parse(1)] == events + [Arrive(chunk), Parse(1)];
    assert Received(events) + chunk + "" == Received(events) + chunk;
  }

  lemma {:induction false} CallsReceiveNothing(events: seq<Event>, calls: nat)
    ensures Received(events + Calls(calls)) == Received(events)
  {
    if calls == 0 {
      assert events + Calls(0) == events;
    } else {
      CallsReceiveNothing(events, calls - 1);
      assert events + Calls(calls) == events + Calls(calls - 1) + [Parse(MAX_MESSAGES_PER_PUMP)];
      LastEvent(Buffer("", [], false), events + Calls(calls - 1), Parse(MAX_MESSAGES_PER_PUMP));
    }
  }

  lemma {:induction false} FirstWithoutRoom(messages: seq<Message>) returns (d: nat)
    requires !AllHaveRoom(messages)
    ensures d < |messages| && !HasRoom(messages[d]) && AllHaveRoom(messages[..d])
  {
    var n := |messages| - 1;
    if AllHaveRoom(messages[..n]) {
      d := n;
      assert forall k: nat | k < n :: messages[..n][k] == messages[k];
    } else {
      d := FirstWithoutRoom(messages[..n]);
      assert messages[..n][..d] == messages[..d];
    }
  }

  // Everything before a message is delivered, then its header arrives but for the last byte.
  lemma CutHeaderFails(messages: seq<Message>, d: nat) returns (events: seq<Event>)
    requires AllWellFormed(messages) && d < |messages| && !HasRoom(messages[d]) && AllHaveRoom(messages[..d])
    ensures Received(events) <= Stream(messages) && After(Buffer("", [], false), events).failed
  {
    hide After, Received, Stream, Next, WellFormed, Parsed;
    var before, m := messages[..d], messages[d];
    var part := (m.header + TERMINATOR)[..|m.header| + 3];
    WholeStream(before);
    CallsReceiveNothing([Arrive(Stream(before))], d);
    var delivered := [Arrive(Stream(before))] + Calls(d);
    DeliversAll(before, [Arrive(Stream(before))], d);
    events := delivered + [Arrive(part), Parse(1)];
    ArriveAndParse(delivered, part);
    assert part == Frame(m)[..|part|];
    FrameIncomplete(m, part);
    assert "" + part == part;
    FailsAt(part, Bodies(before));
    PartOfStream(messages, d, part);
  }

  lemma FailsAt(input: string, delivered: seq<string>)
    requires Next(input) == Fail
    ensures Parsed(Buffer(input, delivered, false), 1).failed
  {
    hide Next;
  }

  lemma WholeStream(messages: seq<Message>)
    ensures Received([Arrive(Stream(messages))]) == Stream(messages)
  {
    hide Stream, Received;
    NoEvents(Buffer("", [], false));
    LastEvent(Buffer("", [], false), [], Arrive(Stream(messages)));
    assert [] + [Arrive(Stream(messages))] == [Arrive(Stream(messages))];
  }

  lemma PartOfStream(messages: seq<Message>, d: nat, part: string)
    requires d < |messages| && part <= Frame(messages[d])
    ensures Stream(messages[..d]) + part <= Stream(messages)
  {
    hide Frame, Stream;
    StreamSplits(messages[..d], messages[d..]);
    assert messages == messages[..d] + messages[d..];
    StreamOpens(messages[d..]);
    var all, rest := Stream(messages), Stream(messages[d..]);
    assert part == rest[..|part|];
  }

  /** A stream of messages is read however its bytes arrive and whenever the parser is
      called iff every header ends at least three bytes before the limit. */
  lemma HeaderLimitAndChunks(messages: seq<Message>)
    requires AllWellFormed(messages)
    ensures (forall events | Received(events) <= Stream(messages) :: !After(Buffer("", [], false), events).failed)
            <==> AllHaveRoom(messages)
  {
    hide After, Received, Stream, AllWellFormed, HasRoom;
    if AllHaveRoom(messages) {
      forall events | Received(events) <= Stream(messages)
        ensures !After(Buffer("", [], false), events).failed
      {
        DeliversExactly(messages, events);
      }
    } else {
      var d := FirstWithoutRoom(messages);
      var events := CutHeaderFails(messages, d);
    }
  }

  // A header of any length from sixteen bytes on: spaces before the digit are skipped.
  function PaddedHeader(spaces: nat): string {
    PREFIX + seq(spaces, _ => ' ') + "0"
  }

  lemma {:induction false} SpacesSkipped(spaces: nat)
    ensures SkipSpaces(seq(spaces, _ => ' ') + "0") == "0"
  {
    var field := seq(spaces, _ => ' ') + "0";
    if spaces > 0 {
      SpacesSkipped(spaces - 1);
      assert field[1..] == seq(spaces - 1, _ => ' ') + "0";
    } else {
      assert field == "0";
    }
  }

  lemma PaddedHeaderIsGood(spaces: nat)
    ensures var h := PaddedHeader(spaces);
            && |h| == 16 + spaces && HeaderLength(h) == Some(0)
            && Find(h + TERMINATOR, TERMINATOR, 0) == Some(|h|)
  {
    var h, field := PaddedHeader(spaces), seq(spaces, _ => ' ') + "0";
    assert h == PREFIX + field && '\r' !in h;
    assert (h + TERMINATOR)[|h|..|h| + 4] == TERMINATOR;
    FoundAfter(h + TERMINATOR, TERMINATOR, |h|);
    FoundAfter(h, NEWLINE, |h|);
    hide Find;
    assert LineEnd(h, 0) == |h| && h[0..|h|] == h && h[|PREFIX|..] == field;
    assert LengthFields(h, |h| + 2) == [];
    assert LengthFields(h, 0) == [field];
    SpacesSkipped(spaces);
    ZeroIsDeclared(field);
  }

  lemma ZeroIsDeclared(field: string)
    requires SkipSpaces(field) == "0"
    ensures DeclaredLength(field) == Some(0)
  {
    assert "0"[..0] == "";
  }

  /** One header of exactly the limit: the same message is delivered when it arrives at
      once, and fails when its last byte comes after a call of the parser. */
  lemma SameMessageBothWays()
    ensures var message := Frame(Message(PaddedHeader(HEADER_LIMIT - 16), ""));
            && After(Buffer("", [], false), [Arrive(message), Parse(1)]) == Buffer("", [""], false)
            && After(Buffer("", [], false), [Arrive(message[..|message| - 1]), Parse(1)]).failed
  {
    var m := Message(PaddedHeader(HEADER_LIMIT - 16), "");
    PaddedHeaderIsGood(HEADER_LIMIT - 16);
    hide Next, Find, After, PaddedHeader, HeaderLength, Parsed;
    var message := Frame(m);
    var cut := message[..|message| - 1];
    FrameComplete(m, "");
    FrameIncomplete(m, cut);
    assert message + "" == message;
    OneChunk(message);
    OneChunk(cut);
    OneDelivered(message, "");
    FailsAt(cut, []);
  }

  lemma OneDelivered(input: string, body: string)
    requires Next(input) == Deliver(body, "")
    ensures Parsed(Buffer(input, [], false), 1) == Buffer("", [body], false)
  {
    hide Next;
    assert Parsed(Buffer("", [] + [body], false), 0) == Buffer("", [body], false);
  }

  lemma OneChunk(chunk: string)
    ensures After(Buffer("", [], false), [Arrive(chunk), Parse(1)]) == Parsed(Buffer(chunk, [], false), 1)
  {
    hide After, Received, Parsed;
    var none: seq<Event> := [];
    NoEvents(Buffer("", [], false));
    ArriveAndParse(none, chunk);
    assert none + [Arrive(chunk), Parse(1)] == [Arrive(chunk), Parse(1)] && "" + chunk == chunk;
  }

  /******* The input limit *******/

  // What one read takes from the pipe.
  function Drained(available: string): string {
    available[..Min(|available|, PIPE_READ_LIMIT)]
  }

  // One pump: read, parse, and give up when too much is left. A failed client does nothing.
  function Pumped(b: Buffer, available: string, timeAllows: nat): Buffer {
    if b.failed then b
    else
      var p := Parsed(b.(input := b.input + Drained(available)), Min(timeAllows, MAX_MESSAGES_PER_PUMP));
      if |p.input| > INPUT_LIMIT then Buffer("", p.delivered, true) else p
  }

  lemma DrainTakesFront(available: string)
    ensures Drained(available) <= available && |Drained(available)| == Min(|available|, 64 * 1024)
  {
  }

  /** The pump gives up on a well-formed stream iff more than the input limit is left undelivered. */
  method Pump(reader: Reader, available: string, timeAllows: nat, ghost messages: seq<Message>, ghost received: string)
    requires AllWellFormed(messages) && AllHaveRoom(messages) && InStep(messages, received, reader.Contents())
    requires received + Drained(available) <= Stream(messages)
    modifies reader
    ensures reader.Contents() == Pumped(old(reader.Contents()), available, timeAllows)
    ensures !reader.failed ==> InStep(messages, received + Drained(available), reader.Contents())
    ensures var delivered := Min(old(|reader.delivered|) + Min(timeAllows, 8),
                                 Complete(messages, |received + Drained(available)|));
            reader.failed <==>
              |received + Drained(available)| - |Stream(messages[..delivered])| > 16 * 1024 + 4 + 8 * 1024 * 1024
    ensures Drained(available) <= available && |Drained(available)| == Min(|available|, 64 * 1024)
  {
    DrainTakesFront(available);
    hide Stream, Parsed, Complete, Drained;
    var chunk := Drained(available);
    reader.Receive(chunk);
    ParsedInStep(messages, received + chunk, reader.Contents(), Min(timeAllows, MAX_MESSAGES_PER_PUMP));
    reader.ParseMessages(timeAllows);
    if |reader.input| > INPUT_LIMIT {
      reader.input, reader.failed := "", true;
    }
  }

  // Empty messages, each a frame of 21 bytes, and as many of them as one read takes.
  function Empties(n: nat): seq<Message> {
    seq(n, _ => Printed(""))
  }

  function Nothings(n: nat): seq<string> {
    seq(n, _ => "")
  }

  const FRAMES_PER_READ: nat := 3120

  // Pumps that find one read's worth of empty messages each, and handle all they may.
  function AfterPumps(pumps: nat): Buffer {
    if pumps == 0 then Buffer("", [], false)
    else Pumped(AfterPumps(pumps - 1), Stream(Empties(FRAMES_PER_READ)), MAX_MESSAGES_PER_PUMP)
  }

  lemma EmptiesAdd(a: nat, b: nat)
    ensures Empties(a) + Empties(b) == Empties(a + b)
    ensures Stream(Empties(a)) + Stream(Empties(b)) == Stream(Empties(a + b))
  {
    StreamSplits(Empties(a), Empties(b));
    assert Empties(a) + Empties(b) == Empties(a + b);
  }

  lemma EmptyFrameLength()
    ensures |Frame(Printed(""))| == 21
  {
    assert Print(0) == ["0123456789"[0]];
  }

  lemma {:induction false} EmptiesLength(n: nat)
    ensures |Stream(Empties(n))| == 21 * n
  {
    hide Frame;
    EmptyFrameLength();
    if n > 0 {
      EmptiesLength(n - 1);
      assert Empties(n)[1..] == Empties(n - 1);
    }
  }

  lemma {:induction false} EmptiesParsed(n: nat, delivered: seq<string>, quota: nat)
    requires quota <= n
    ensures Parsed(Buffer(Stream(Empties(n)), delivered, false), quota)
            == Buffer(Stream(Empties(n - quota)), delivered + Nothings(quota), false)
    decreases quota
  {
    hide Next, Frame, WellFormed;
    if quota == 0 {
      assert delivered + Nothings(0) == delivered;
    } else {
      assert Empties(n)[1..] == Empties(n - 1);
      PrintedIsWellFormed("");
      FrameComplete(Printed(""), Stream(Empties(n - 1)));
      EmptiesParsed(n - 1, delivered + [""], quota - 1);
      assert delivered + [""] + Nothings(quota - 1) == delivered + Nothings(quota);
    }
  }

  lemma PumpedFits(b: Buffer, chunk: string, p: Buffer)
    requires !b.failed && |chunk| <= PIPE_READ_LIMIT
    requires Parsed(b.(input := b.input + chunk), MAX_MESSAGES_PER_PUMP) == p
    ensures Pumped(b, chunk, MAX_MESSAGES_PER_PUMP) == if |p.input| > INPUT_LIMIT then Buffer("", p.delivered, true) else p
  {
    hide Parsed;
    assert Drained(chunk) == chunk;
  }

  lemma NextPump(pumps: nat)
    ensures AfterPumps(0) == Buffer("", [], false)
    ensures AfterPumps(pumps + 1) == Pumped(AfterPumps(pumps), Stream(Empties(FRAMES_PER_READ)), MAX_MESSAGES_PER_PUMP)
  {
    hide Pumped, Stream;
  }

  // Each pump takes in 3120 messages and hands on eight, while what is left fits.
  lemma OneMorePump(pumps: nat)
    requires AfterPumps(pumps) == Buffer(Stream(Empties(3112 * pumps)), Nothings(8 * pumps), false)
    ensures AfterPumps(pumps + 1) ==
            if 21 * (3112 * (pumps + 1)) > INPUT_LIMIT then Buffer("", Nothings(8 * (pumps + 1)), true)
            else Buffer(Stream(Empties(3112 * (pumps + 1))), Nothings(8 * (pumps + 1)), false)
  {
    hide Stream, Parsed, AfterPumps, Pumped, Empties;
    NextPump(pumps);
    EmptiesLength(FRAMES_PER_READ);
    EmptiesAdd(3112 * pumps, FRAMES_PER_READ);
    EmptiesParsed(3112 * pumps + FRAMES_PER_READ, Nothings(8 * pumps), 8);
    EmptiesLength(3112 * (pumps + 1));
    PumpedFits(AfterPumps(pumps), Stream(Empties(FRAMES_PER_READ)),
               Buffer(Stream(Empties(3112 * (pumps + 1))), Nothings(8 * (pumps + 1)), false));
  }

  lemma {:induction false} PumpsFillTheBuffer(pumps: nat)
    requires pumps <= 128
    ensures AfterPumps(pumps) == Buffer(Stream(Empties(3112 * pumps)), Nothings(8 * pumps), false)
  {
    hide Pumped;
    if pumps == 0 {
      assert Empties(0) == [];
    } else {
      hide AfterPumps, Stream, Empties;
      PumpsFillTheBuffer(pumps - 1);
      OneMorePump(pumps - 1);
    }
  }

  /** The limit is reached by well-formed messages, read at most 64 KiB at a time: a server
      that keeps the pipe full of empty messages is given up on at the 129th pump, with
      1032 of its messages delivered. */
  lemma WellFormedStreamOverflows()
    ensures !AfterPumps(128).failed && AfterPumps(129).failed && AfterPumps(129).delivered == Nothings(1032)
  {
    hide AfterPumps, Stream, Empties;
    PumpsFillTheBuffer(128);
    OneMorePump(128);
  }
}
