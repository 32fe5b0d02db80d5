/** The body in which a process's output is streamed (tidewave-core/src/server.rs,
    `stream_process_response`): frames of a type byte, a big-endian length and a payload.

    A schedule says in which order the two readers get what they read; a reader that has
    reached its end is not polled again. A schedule that runs out while a reader is open
    stands for a client that drops the stream. */
module ProcessStream {
  import opened Wrappers
  import opened Utf8

  type Bytes = seq<Byte>

  datatype Frame = Frame(kind: Byte, payload: Bytes)

  const DATA: Byte := 0
  const STATUS: Byte := 1
  const TWO_32: nat := 0x1_0000_0000

  // ---------------------------------------------------------------- frames

  /** The four bytes of `n as u32` in network order. */
  function BigEndian(n: nat): (bytes: Bytes)
    ensures |bytes| == 4
  {
    var u := n % TWO_32;
    [(u / 0x1000000) as Byte, (u / 0x10000 % 0x100) as Byte, (u / 0x100 % 0x100) as Byte, (u % 0x100) as Byte]
  }

  function FromBigEndian(bytes: Bytes): nat
    requires |bytes| == 4
  {
    bytes[0] as nat * 0x1000000 + bytes[1] as nat * 0x10000 + bytes[2] as nat * 0x100 + bytes[3] as nat
  }

  lemma LastByte(high: nat, low: nat)
    requires low < 0x100
    ensures (high * 0x100 + low) / 0x100 == high && (high * 0x100 + low) % 0x100 == low
  {
  }

  lemma SplitLast(n: nat)
    ensures n == n / 0x100 * 0x100 + n % 0x100
  {
  }

  /** Dividing by 256 step by step. */
  lemma DivideTwice(n: nat)
    ensures n / 0x10000 == n / 0x100 / 0x100
  {
  }

  lemma DivideThrice(n: nat)
    ensures n / 0x1000000 == n / 0x100 / 0x100 / 0x100
  {
  }

  /** The four places of a number. */
  lemma Places(n: nat)
    ensures n == n / 0x1000000 * 0x1000000 + n / 0x10000 % 0x100 * 0x10000 + n / 0x100 % 0x100 * 0x100 + n % 0x100
  {
    DivideTwice(n);
    DivideThrice(n);
    SplitLast(n);
    SplitLast(n / 0x100);
    SplitLast(n / 0x10000);
  }

  lemma BigEndianRoundTrip(n: nat)
    requires n < TWO_32
    ensures FromBigEndian(BigEndian(n)) == n
  {
    assert n % TWO_32 == n;
    Places(n);
  }

  lemma BigEndianOnto(bytes: Bytes)
    requires |bytes| == 4
    ensures FromBigEndian(bytes) < TWO_32 && BigEndian(FromBigEndian(bytes)) == bytes
  {
    var a, b, c, d := bytes[0] as nat, bytes[1] as nat, bytes[2] as nat, bytes[3] as nat;
    var top, high := a * 0x100 + b, (a * 0x100 + b) * 0x100 + c;
    var n := FromBigEndian(bytes);
    assert n == high * 0x100 + d;
    DivideTwice(n);
    DivideThrice(n);
    LastByte(high, d);
    LastByte(top, c);
    LastByte(a, b);
    assert n % TWO_32 == n;
  }

  function Chunk(f: Frame): Bytes {
    [f.kind] + BigEndian(|f.payload|) + f.payload
  }

  function Serialize(frames: seq<Frame>): Bytes {
    if frames == [] then [] else Chunk(frames[0]) + Serialize(frames[1..])
  }

  /** A client's parser: none if the body ends inside a frame. */
  function Parse(body: Bytes): Option<seq<Frame>>
    decreases |body|
  {
    if body == [] then Some([])
    else if |body| < 5 then None
    else
      var size := FromBigEndian(body[1..5]);
      if |body| < 5 + size then None
      else
        var rest := Parse(body[5 + size..]);
        if rest.None? then None else Some([Frame(body[0], body[5..5 + size])] + rest.value)
  }

  predicate Sizable(frames: seq<Frame>) {
    forall i :: 0 <= i < |frames| ==> |frames[i].payload| < TWO_32
  }

  lemma {:induction false} ParsesBack(frames: seq<Frame>)
    requires Sizable(frames)
    ensures Parse(Serialize(frames)) == Some(frames)
  {
    hide BigEndian, FromBigEndian;
    if frames != [] {
      var f, rest := frames[0], Serialize(frames[1..]);
      ParsesBack(frames[1..]);
      BigEndianRoundTrip(|f.payload|);
      var body := Chunk(f) + rest;
      assert Serialize(frames) == body && body[0] == f.kind;
      assert body[1..5] == BigEndian(|f.payload|);
      assert body[5..5 + |f.payload|] == f.payload && body[5 + |f.payload|..] == rest;
      assert [f] + frames[1..] == frames;
    }
  }

  /** What a body parses to is its only reading. */
  lemma {:induction false} ParseIsUnique(body: Bytes)
    requires Parse(body).Some?
    ensures Sizable(Parse(body).value) && Serialize(Parse(body).value) == body
    decreases |body|
  {
    hide BigEndian, FromBigEndian, Sizable;
    SizableFrom(Frame(0, []), []);
    if body != [] {
      var size := FromBigEndian(body[1..5]);
      var f := Frame(body[0], body[5..5 + size]);
      var rest := Parse(body[5 + size..]).value;
      BigEndianOnto(body[1..5]);
      ParseIsUnique(body[5 + size..]);
      SizableFrom(f, rest);
      assert ([f] + rest)[1..] == rest;
      assert body == Chunk(f) + body[5 + size..];
    }
  }

  lemma SizableFrom(f: Frame, rest: seq<Frame>)
    ensures Sizable([])
    ensures |f.payload| < TWO_32 && Sizable(rest) ==> Sizable([f] + rest)
  {
  }

  // ---------------------------------------------------------------- the status

  function Digits(n: nat): (bytes: Bytes)
    ensures |bytes| > 0
  {
    if n < 10 then [(0x30 + n) as Byte] else Digits(n / 10) + [(0x30 + n % 10) as Byte]
  }

  function Printed(code: int): Bytes {
    if code < 0 then [0x2D] + Digits(-code) else Digits(code)
  }

  const STATUS_OPEN: Bytes := [0x7B, 0x22, 0x73, 0x74, 0x61, 0x74, 0x75, 0x73, 0x22, 0x3A]

  /** The text {"status":code} in ASCII. */
  function StatusJson(code: int): Bytes {
    STATUS_OPEN + Printed(code) + [0x7D]
  }

  lemma {:induction false} DigitsDistinct(m: nat, n: nat)
    requires Digits(m) == Digits(n)
    ensures m == n
  {
    var a, b := Digits(m), Digits(n);
    assert a[|a| - 1] == b[|b| - 1];
    if m >= 10 && n >= 10 {
      assert a[..|a| - 1] == Digits(m / 10) && b[..|b| - 1] == Digits(n / 10);
      DigitsDistinct(m / 10, n / 10);
    }
  }

  lemma {:induction false} DigitsStart(n: nat)
    ensures Digits(n)[0] >= 0x30
  {
    if n >= 10 {
      DigitsStart(n / 10);
    }
  }

  /** The status frame says which code it was. */
  lemma StatusTellsCode(m: int, n: int)
    requires StatusJson(m) == StatusJson(n)
    ensures m == n
  {
    var a, b := StatusJson(m), StatusJson(n);
    assert a[10..|a| - 1] == Printed(m) && b[10..|b| - 1] == Printed(n);
    DigitsStart(if m < 0 then -m else m);
    DigitsStart(if n < 0 then -n else n);
    if m < 0 && n < 0 {
      assert Printed(m)[1..] == Digits(-m) && Printed(n)[1..] == Digits(-n);
      DigitsDistinct(-m, -n);
    } else if m >= 0 && n >= 0 {
      DigitsDistinct(m, n);
    }
  }

  /** The number a string of ASCII digits stands for. */
  function Value(digits: Bytes): int {
    if digits == [] then 0 else 10 * Value(digits[..|digits| - 1]) + (digits[|digits| - 1] as int - 0x30)
  }

  predicate AllDigits(text: Bytes) {
    text != [] && forall i :: 0 <= i < |text| ==> 0x30 <= text[i] <= 0x39
  }

  lemma {:induction false} DigitsReadBack(n: nat)
    ensures AllDigits(Digits(n)) && Value(Digits(n)) == n
  {
    var text := Digits(n);
    if n >= 10 {
      DigitsReadBack(n / 10);
      assert text[..|text| - 1] == Digits(n / 10);
      assert forall i :: 0 <= i < |text| - 1 ==> text[i] == Digits(n / 10)[i];
    } else {
      assert text[..0] == [];
    }
  }

  /** The text is a decimal integer, with a minus sign if it is negative. */
  predicate Reads(text: Bytes, n: int) {
    if n < 0 then |text| > 1 && text[0] == '-' as int as Byte && AllDigits(text[1..]) && Value(text[1..]) == -n
    else AllDigits(text) && Value(text) == n
  }

  predicate IsAscii(bytes: Bytes, text: string) {
    |bytes| == |text| && forall i :: 0 <= i < |text| ==> bytes[i] as int == text[i] as int
  }

  type ExitCode = x: int | -0x8000_0000 <= x < 0x8000_0000

  /** An exit code has 32 bits, so the text is short. */
  lemma StatusIsShort(code: ExitCode)
    ensures |StatusJson(code)| <= 22
  {
    var size: int := code;
    DigitsShort(if size < 0 then -size else size, 10);
  }

  lemma {:induction false} DigitsShort(n: nat, k: nat)
    requires k >= 1 && n < Pow10(k)
    ensures |Digits(n)| <= k
  {
    if n >= 10 {
      DigitsShort(n / 10, k - 1);
    }
  }

  function Pow10(k: nat): nat {
    if k == 0 then 1 else 10 * Pow10(k - 1)
  }

  // ---------------------------------------------------------------- streaming

  datatype Source = Stdout | Stderr

  /** One read: some bytes, the end, or an error. */
  datatype ReadResult = Data(bytes: Bytes) | Eof | Failed

  datatype Event = Event(source: Source, result: ReadResult)

  /** Waiting for the process: no code if a signal ended it. */
  datatype Exit = Exited(code: Option<ExitCode>) | WaitFailed

  datatype Item = Sent(bytes: Bytes) | Broken

  predicate Closed(schedule: seq<Event>, source: Source) {
    Event(source, Eof) in schedule
  }

  /** What a reader delivers before its end. */
  function Delivered(schedule: seq<Event>, source: Source): Bytes {
    if schedule == [] then [] else
    var front, last := schedule[..|schedule| - 1], schedule[|schedule| - 1];
    if last.source == source && last.result.Data? && !Closed(front, source)
        then Delivered(front, source) + last.result.bytes
    else Delivered(front, source)
  }

  /** An open reader reports an error. */
  predicate Fails(schedule: seq<Event>) {
    exists i :: 0 <= i < |schedule| && schedule[i].result.Failed? && !Closed(schedule[..i], schedule[i].source)
  }

  predicate BothClosed(schedule: seq<Event>) {
    Closed(schedule, Stdout) && Closed(schedule, Stderr)
  }

  /** The payloads that came from one source. */
  function Selected(payloads: seq<Bytes>, labels: seq<Source>, source: Source): Bytes
    requires |labels| == |payloads|
  {
    if payloads == [] then [] else
    var n := |payloads| - 1;
    Selected(payloads[..n], labels[..n], source) + (if labels[n] == source then payloads[n] else [])
  }

  function DataFrames(payloads: seq<Bytes>): (frames: seq<Frame>)
    ensures |frames| == |payloads|
  {
    seq(|payloads|, i requires 0 <= i < |payloads| => Frame(DATA, payloads[i]))
  }

  function Items(frames: seq<Frame>): (items: seq<Item>)
    ensures |items| == |frames|
  {
    seq(|frames|, i requires 0 <= i < |frames| => Sent(Chunk(frames[i])))
  }

  function StatusFrame(code: Option<ExitCode>): Frame {
    Frame(STATUS, StatusJson(if code.Some? then code.value else -1))
  }

  /** A status frame reads {"status":n}, with the exit code as n, or -1 if a signal ended the
      process; data frames are tagged 0 and status frames 1. */
  lemma StatusReadsBack(code: Option<ExitCode>) returns (number: Bytes)
    ensures var frame := StatusFrame(code);
            && frame.kind == 1 && |frame.payload| == 11 + |number|
            && IsAscii(frame.payload[..10], "{\"status\":") && frame.payload[10..10 + |number|] == number
            && IsAscii(frame.payload[10 + |number|..], "}")
            && Reads(number, if code.Some? then code.value else -1)
  {
    var n: int := if code.Some? then code.value else -1;
    number := Printed(n);
    DigitsReadBack(if n < 0 then -n else n);
    var payload := StatusFrame(code).payload;
    assert payload == STATUS_OPEN + number + [0x7D];
    assert payload[..10] == STATUS_OPEN && payload[10 + |number|..] == [0x7D];
    if n < 0 { assert number[1..] == Digits(-n); }
  }

  lemma DataIsTagged(payloads: seq<Bytes>, i: nat)
    requires i < |payloads|
    ensures DataFrames(payloads)[i] == Frame(0, payloads[i])
  {
  }

  /** The client reads the body up to the first error. */
  function Body(items: seq<Item>): Bytes {
    if items == [] || items[0].Broken? then [] else items[0].bytes + Body(items[1..])
  }

  /** Streams both readers and then the exit status. The data frames carry every byte the
      readers delivered, each reader's in order (`labels` says whose a frame is); the status
      comes once both have ended, and a read error comes first if there was one. */
  method StreamProcessResponse(schedule: seq<Event>, exit: Exit) returns (items: seq<Item>, ghost payloads: seq<Bytes>,
      ghost labels: seq<Source>, used: nat)
    requires forall e :: e in schedule && e.result.Data? ==> 0 < |e.result.bytes| <= 4096
    ensures used <= |schedule| && |labels| == |payloads|
    ensures used < |schedule| ==> BothClosed(schedule[..used]) || Fails(schedule[..used])
    ensures forall source :: Selected(payloads, labels, source) == Delivered(schedule[..used], source)
    ensures forall i :: 0 <= i < |payloads| ==> 0 < |payloads[i]| <= 4096
    ensures items == Items(DataFrames(payloads)) + Ending(schedule[..used], exit)
    ensures Parse(Body(items)) == Some(FramesSent(payloads, schedule[..used], exit))
  {
    Nothing();
    hide Fails, Closed, Delivered, Selected, DataFrames, Items, Chunk, StatusFrame, FramesSent, Parse, Body;
    items, payloads, labels, used := [], [], [], 0;
    var stdout, stderr, failed := true, true, false;
    while (stdout || stderr) && !failed && used < |schedule|
      invariant used <= |schedule| && |labels| == |payloads|
      invariant stdout <==> !Closed(schedule[..used], Stdout)
      invariant stderr <==> !Closed(schedule[..used], Stderr)
      invariant failed <==> Fails(schedule[..used])
      invariant forall source :: Selected(payloads, labels, source) == Delivered(schedule[..used], source)
      invariant forall i :: 0 <= i < |payloads| ==> 0 < |payloads[i]| <= 4096
      invariant items == Items(DataFrames(payloads)) + if failed then [Broken] else []
    {
      var event := schedule[used];
      Extend(schedule, used);
      if if event.source.Stdout? then stdout else stderr {
        match event.result {
          case Eof =>
            if event.source.Stdout? {
              stdout := false;
            } else {
              stderr := false;
            }
          case Data(bytes) =>
            Label(payloads, labels, bytes, event.source);
            items := items + [Sent(Chunk(Frame(DATA, bytes)))];
            payloads, labels := payloads + [bytes], labels + [event.source];
          case Failed =>
            items := items + [Broken];
            failed := true;
        }
      }
      used := used + 1;
    }
    if failed || !(stdout || stderr) {
      items := items + ExitItems(exit);
    }
    BodyParses(payloads, schedule[..used], exit);
  }

  lemma Nothing()
    ensures !Fails([]) && Items(DataFrames([])) == []
    ensures forall source :: !Closed([], source) && Delivered([], source) == [] == Selected([], [], source)
  {
  }

  /** What one event more means for the readers. */
  lemma Extend(schedule: seq<Event>, n: nat)
    requires n < |schedule|
    ensures var front, event := schedule[..n], schedule[n];
            var all := schedule[..n + 1];
            && (forall source :: Closed(all, source) <==> Closed(front, source) || event == Event(source, Eof))
            && (Fails(all) <==> Fails(front) || (event.result.Failed? && !Closed(front, event.source)))
            && (forall source :: Delivered(all, source) ==
                  if event.source == source && event.result.Data? && !Closed(front, source)
                      then Delivered(front, source) + event.result.bytes
                  else Delivered(front, source))
  {
    var front, all := schedule[..n], schedule[..n + 1];
    assert all == front + [schedule[n]] && all[..n] == front;
    forall i | 0 <= i < n ensures all[..i] == front[..i] {
    }
    if Fails(all) {
      var i :| 0 <= i < |all| && all[i].result.Failed? && !Closed(all[..i], all[i].source);
      assert i < n ==> front[i] == all[i] && !Closed(front[..i], front[i].source);
    }
    if Fails(front) {
      var i :| 0 <= i < |front| && front[i].result.Failed? && !Closed(front[..i], front[i].source);
      assert all[i].result.Failed? && !Closed(all[..i], all[i].source);
    }
    if schedule[n].result.Failed? && !Closed(front, schedule[n].source) {
      assert all[n].result.Failed? && !Closed(all[..n], all[n].source);
    }
  }

  lemma Label(payloads: seq<Bytes>, labels: seq<Source>, payload: Bytes, whose: Source)
    requires |labels| == |payloads|
    ensures forall source :: Selected(payloads + [payload], labels + [whose], source) ==
              Selected(payloads, labels, source) + (if whose == source then payload else [])
    ensures Items(DataFrames(payloads + [payload])) == Items(DataFrames(payloads)) + [Sent(Chunk(Frame(DATA, payload)))]
  {
    assert (payloads + [payload])[..|payloads|] == payloads && (labels + [whose])[..|payloads|] == labels;
    assert DataFrames(payloads + [payload]) == DataFrames(payloads) + [Frame(DATA, payload)];
  }

  function ExitItems(exit: Exit): seq<Item> {
    match exit
    case Exited(code) => [Sent(Chunk(StatusFrame(code)))]
    case WaitFailed => [Broken]
  }

  /** What follows the data: nothing if the client is gone before the readers ended. */
  function Ending(schedule: seq<Event>, exit: Exit): seq<Item> {
    if Fails(schedule) then [Broken] + ExitItems(exit)
    else if BothClosed(schedule) then ExitItems(exit)
    else []
  }

  /** The client sees the body break off exactly if a reader failed, or if both ended and the
      exit status could not be had. */
  lemma BreaksOffExactlyWhen(payloads: seq<Bytes>, schedule: seq<Event>, exit: Exit)
    ensures Broken in Items(DataFrames(payloads)) + Ending(schedule, exit)
            <==> Fails(schedule) || (BothClosed(schedule) && exit.WaitFailed?)
  {
    hide Fails, BothClosed, StatusFrame, Chunk;
  }

  // ---------------------------------------------------------------- what the client reads

  lemma {:induction false} BodyOfFrames(frames: seq<Frame>, rest: seq<Item>)
    ensures Body(Items(frames) + rest) == Serialize(frames) + Body(rest)
  {
    var items := Items(frames) + rest;
    if frames == [] {
      assert items == rest;
    } else {
      assert items[1..] == Items(frames[1..]) + rest;
      BodyOfFrames(frames[1..], rest);
    }
  }

  lemma {:induction false} SerializeConcat(frames: seq<Frame>, more: seq<Frame>)
    ensures Serialize(frames + more) == Serialize(frames) + Serialize(more)
  {
    if frames == [] {
      assert frames + more == more;
    } else {
      assert (frames + more)[1..] == frames[1..] + more;
      SerializeConcat(frames[1..], more);
    }
  }

  /** The frames a client finds in the body: the data, and the status last if the process
      has exited and no reader failed. */
  function FramesSent(payloads: seq<Bytes>, schedule: seq<Event>, exit: Exit): seq<Frame> {
    DataFrames(payloads) + if !Fails(schedule) && BothClosed(schedule) && exit.Exited? then [StatusFrame(exit.code)]
        else []
  }

  /** The body of every run is readable in one way only, as those frames. */
  lemma BodyParses(payloads: seq<Bytes>, schedule: seq<Event>, exit: Exit)
    requires forall i :: 0 <= i < |payloads| ==> |payloads[i]| <= 4096
    ensures Parse(Body(Items(DataFrames(payloads)) + Ending(schedule, exit)))
            == Some(FramesSent(payloads, schedule, exit))
  {
    hide Fails, BothClosed, StatusJson, Chunk, Parse;
    var frames, ending := DataFrames(payloads), Ending(schedule, exit);
    BodyOfFrames(frames, ending);
    var last := FramesSent(payloads, schedule, exit)[|frames|..];
    assert FramesSent(payloads, schedule, exit) == frames + last;
    SerializeConcat(frames, last);
    EndingBody(schedule, exit);
    if exit.Exited? {
      StatusIsShort(if exit.code.Some? then exit.code.value else -1);
    }
    ParsesBack(frames + last);
  }

  lemma EndingBody(schedule: seq<Event>, exit: Exit)
    ensures Body(Ending(schedule, exit)) ==
              if !Fails(schedule) && BothClosed(schedule) && exit.Exited? then Serialize([StatusFrame(exit.code)])
                  else []
  {
    hide Fails, BothClosed, StatusFrame, Chunk;
  }

  /** Nothing is lost: what a closed reader delivered does not depend on later events. */
  lemma {:induction false} DeliveredOnce(schedule: seq<Event>, n: nat, source: Source)
    requires n <= |schedule| && Closed(schedule[..n], source)
    ensures Delivered(schedule, source) == Delivered(schedule[..n], source)
    decreases |schedule|
  {
    if n == |schedule| {
      assert schedule[..n] == schedule;
    } else {
      var front := schedule[..|schedule| - 1];
      assert front[..n] == schedule[..n];
      DeliveredOnce(front, n, source);
    }
  }
}
