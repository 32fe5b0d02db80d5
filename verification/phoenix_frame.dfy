/** The binary frames of the Phoenix V2 wire format (tidewave-core/src/phoenix.rs,
    `decode_binary`): a kind byte, four field sizes, the fields, and the payload. */
module PhoenixFrame {
  import opened Wrappers
  import opened Utf8

  /** Strings are the bytes of their UTF-8 text. */
  type Text = seq<Byte>

  datatype PhxMessage = PhxMessage(joinRef: Option<Text>, ref: Option<Text>, topic: Text, event: Text,
      payload: seq<Byte>)

  datatype DecodeError =
    | TooShort
    | NotAPush(kind: Byte)
    | Truncated
    | NotText

  // ---------------------------------------------------------------- the frame of a message

  function OrEmpty(text: Option<Text>): Text {
    if text.Some? then text.value else []
  }

  predicate FitsField(text: Text) {
    |text| <= 255 && IsText(text)
  }

  /** What a frame can say: no field over 255 bytes, and an empty reference means none. */
  predicate Framable(m: PhxMessage) {
    && m.joinRef != Some([]) && m.ref != Some([])
    && FitsField(OrEmpty(m.joinRef)) && FitsField(OrEmpty(m.ref)) && FitsField(m.topic) && FitsField(m.event)
  }

  function Sizes(m: PhxMessage): (sizes: seq<Byte>)
    requires Framable(m)
    ensures |sizes| == 5
  {
    [0, |OrEmpty(m.joinRef)| as Byte, |OrEmpty(m.ref)| as Byte, |m.topic| as Byte, |m.event| as Byte]
  }

  function Frame(m: PhxMessage): seq<Byte>
    requires Framable(m)
  {
    Sizes(m) + OrEmpty(m.joinRef) + OrEmpty(m.ref) + m.topic + m.event + m.payload
  }

  // ---------------------------------------------------------------- decoding

  function MetaSize(buf: seq<Byte>): nat
    requires |buf| >= 5
  {
    buf[1] as nat + buf[2] as nat + buf[3] as nat + buf[4] as nat
  }

  function NonEmpty(text: Text): Option<Text> {
    if text == [] then None else Some(text)
  }

  /** Where the payload starts, and the end of each field before it. */
  function Ends(buf: seq<Byte>): (e: (nat, nat, nat, nat))
    requires |buf| >= 5
    ensures 5 <= e.0 <= e.1 <= e.2 <= e.3 == 5 + MetaSize(buf)
  {
    var e0 := 5 + buf[1] as nat;
    var e1 := e0 + buf[2] as nat;
    var e2 := e1 + buf[3] as nat;
    (e0, e1, e2, e2 + buf[4] as nat)
  }

  predicate HasShape(buf: seq<Byte>) {
    |buf| >= 5 && buf[0] == 0 && |buf| >= 5 + MetaSize(buf)
  }

  predicate IsFrame(buf: seq<Byte>) {
    && HasShape(buf)
    && var e := Ends(buf);
       IsText(buf[5..e.0]) && IsText(buf[e.0..e.1]) && IsText(buf[e.1..e.2]) && IsText(buf[e.2..e.3])
  }

  function Message(buf: seq<Byte>): PhxMessage
    requires IsFrame(buf)
  {
    var e := Ends(buf);
    PhxMessage(NonEmpty(buf[5..e.0]), NonEmpty(buf[e.0..e.1]), buf[e.1..e.2], buf[e.2..e.3], buf[e.3..])
  }

  /** Framing what was decoded gives the buffer back, byte for byte. */
  lemma FramesBack(buf: seq<Byte>)
    requires IsFrame(buf)
    ensures Framable(Message(buf)) && Frame(Message(buf)) == buf
  {
    hide IsText;
    var m, e := Message(buf), Ends(buf);
    assert Sizes(m) == buf[..5];
  }

  /** Decoding the frame of a message gives the message back. */
  lemma DecodesBack(m: PhxMessage)
    requires Framable(m)
    ensures IsFrame(Frame(m)) && Message(Frame(m)) == m
  {
    hide IsText;
    var a, b, c, d := OrEmpty(m.joinRef), OrEmpty(m.ref), m.topic, m.event;
    var buf := Frame(m);
    var e := Ends(buf);
    assert buf[..5] == Sizes(m);
    assert buf[5..e.0] == a && buf[e.0..e.1] == b && buf[e.1..e.2] == c && buf[e.2..e.3] == d
        && buf[e.3..] == m.payload;
  }

  /** Accepts exactly the frames of framable messages and returns the message framed; the
      errors are told apart in the order in which the code tests them. */
  method DecodeBinary(buf: seq<Byte>) returns (r: Result<PhxMessage, DecodeError>)
    ensures r.Ok? <==> IsFrame(buf)
    ensures r.Ok? ==> r.value == Message(buf)
    ensures r == Err(TooShort) <==> |buf| < 5
    ensures r.Err? && r.error.NotAPush? <==> |buf| >= 5 && buf[0] != 0
    ensures r.Err? && r.error.NotAPush? ==> r.error.kind == buf[0]
    ensures r == Err(Truncated) <==> |buf| >= 5 && buf[0] == 0 && |buf| < 5 + MetaSize(buf)
  {
    hide IsText;
    if |buf| < 5 {
      return Err(TooShort);
    }
    var kind := buf[0];
    if kind != 0 {
      return Err(NotAPush(kind));
    }
    var joinRefSize, refSize, topicSize, eventSize := buf[1] as nat, buf[2] as nat, buf[3] as nat, buf[4] as nat;
    var offset := 5;
    var totalMeta := joinRefSize + refSize + topicSize + eventSize;
    if |buf| < offset + totalMeta {
      return Err(Truncated);
    }

    var joinRef := buf[offset..offset + joinRefSize];
    if !IsText(joinRef) {
      return Err(NotText);
    }
    offset := offset + joinRefSize;

    var ref := buf[offset..offset + refSize];
    if !IsText(ref) {
      return Err(NotText);
    }
    offset := offset + refSize;

    var topic := buf[offset..offset + topicSize];
    if !IsText(topic) {
      return Err(NotText);
    }
    offset := offset + topicSize;

    var event := buf[offset..offset + eventSize];
    if !IsText(event) {
      return Err(NotText);
    }
    offset := offset + eventSize;

    return Ok(PhxMessage(NonEmpty(joinRef), NonEmpty(ref), topic, event, buf[offset..]));
  }

  /** The decoder accepts a buffer exactly if it is the frame of a message, and frames are
      unambiguous. */
  lemma FramesAreUnambiguous(buf: seq<Byte>, m: PhxMessage)
    requires Framable(m)
    ensures Frame(m) == buf <==> IsFrame(buf) && Message(buf) == m
  {
    hide IsFrame, Message, Framable, Frame;
    DecodesBack(m);
    if IsFrame(buf) {
      FramesBack(buf);
    }
  }
}
