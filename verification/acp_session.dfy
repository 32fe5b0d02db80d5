/** The per-session state of the ACP proxy: the message buffer, the notification
    numbering and the cancellation counter.

    The buffer is the part of the session's message log that no client has
    acknowledged. The log itself is kept only as a ghost field, so that pruning
    and replay can be compared with a session that never forgets anything. */
module AcpSession {
  import opened Wrappers

  /** A JSON-RPC id, any JSON value. Containers carry the text between their brackets, and
      numbers that are no integers what follows the digits before the point or exponent. */
  datatype JsonId =
    | Null
    | Bool(b: bool)
    | Number(n: int)
    | Fraction(negative: bool, whole: nat, rest: string)
    | Text(escaped: string)
    | Array(inner: string)
    | Object(inner: string)

  /** A message the agent addresses to one session. `notificationId` is the number
      the proxy injects under `tidewave.ai/notificationId`. */
  datatype JsonRpcMessage =
    | Notification(body: nat, notificationId: Option<nat>)
    | Request(id: JsonId, body: nat)
    | Response(id: JsonId, body: nat)

  datatype BufferedMessage = BufferedMessage(id: string, message: JsonRpcMessage)

  // ---------------------------------------------------------------- ids as text

  function Decimal(n: nat): (text: string)
    ensures |text| >= 1
    ensures n >= 10 ==> |text| >= 2
    ensures text[|text| - 1] == (('0' as int + n % 10) as char)
  {
    if n < 10 then [('0' as int + n) as char]
    else Decimal(n / 10) + [('0' as int + n % 10) as char]
  }

  function NotificationId(n: nat): string {
    "notif_" + Decimal(n)
  }

  function Print(id: JsonId): string {
    match id
    case Null => "null"
    case Bool(b) => if b then "true" else "false"
    case Number(n) => if n < 0 then "-" + Decimal(-n) else Decimal(n)
    case Fraction(negative, whole, rest) => (if negative then "-" else "") + Decimal(whole) + rest
    case Text(escaped) => "\"" + escaped + "\""
    case Array(inner) => "[" + inner + "]"
    case Object(inner) => "{" + inner + "}"
  }

  lemma {:induction false} DecimalInjective(m: nat, n: nat)
    requires Decimal(m) == Decimal(n)
    ensures m == n
  {
    if m >= 10 && n >= 10 {
      var tm, tn := Decimal(m), Decimal(n);
      assert Decimal(m / 10) == tm[..|tm| - 1] && Decimal(n / 10) == tn[..|tn| - 1];
      DecimalInjective(m / 10, n / 10);
      assert m % 10 == n % 10;
    }
  }

  /** What a decimal numeral stands for. */
  function Value(text: string): int {
    if text == [] then 0 else 10 * Value(text[..|text| - 1]) + (text[|text| - 1] as int - '0' as int)
  }

  lemma {:induction false} DecimalReadsBack(n: nat)
    ensures Value(Decimal(n)) == n
    ensures forall i :: 0 <= i < |Decimal(n)| ==> '0' <= Decimal(n)[i] <= '9'
  {
    var text := Decimal(n);
    if n >= 10 {
      DecimalReadsBack(n / 10);
      assert text[..|text| - 1] == Decimal(n / 10);
      assert forall i :: 0 <= i < |text| - 1 ==> text[i] == Decimal(n / 10)[i];
    } else {
      assert text[..0] == [];
    }
  }

  /** A notification id is "notif_" and its number; ids that are integers are printed in decimal. */
  lemma IdsReadBack(n: nat, k: int)
    ensures NotificationId(n)[..6] == "notif_" && Value(NotificationId(n)[6..]) == n
    ensures k >= 0 ==> Value(Print(Number(k))) == k
    ensures k < 0 ==> Print(Number(k))[0] == '-' && Value(Print(Number(k))[1..]) == -k
  {
    DecimalReadsBack(n);
    DecimalReadsBack(if k < 0 then -k else k);
    assert NotificationId(n)[6..] == Decimal(n);
    if k < 0 { assert Print(Number(k))[1..] == Decimal(-k); }
  }

  lemma DecimalStart(n: nat)
    ensures '0' <= Decimal(n)[0] <= '9'
  {
    if n >= 10 {
      DecimalStart(n / 10);
      assert Decimal(n)[0] == Decimal(n / 10)[0];
    }
  }

  /** Notification ids name one notification each, and no printed JSON-RPC id is
      ever mistaken for one. */
  lemma NotificationIdsDistinct(m: nat, n: nat, id: JsonId)
    ensures NotificationId(m) == NotificationId(n) ==> m == n
    ensures Print(id) != NotificationId(n)
  {
    if NotificationId(m) == NotificationId(n) {
      assert NotificationId(m)[6..] == Decimal(m) && NotificationId(n)[6..] == Decimal(n);
      DecimalInjective(m, n);
    }
    var text := NotificationId(n);
    assert text[0] == 'n' && text[1] == 'o';
    match id
    case Number(k) =>
      DecimalStart(if k < 0 then -k else k);
      assert Print(id)[0] == '-' || '0' <= Print(id)[0] <= '9';
    case Fraction(_, whole, _) =>
      DecimalStart(whole);
      assert Print(id)[0] == '-' || '0' <= Print(id)[0] <= '9';
    case Null =>
      assert Print(id)[1] == 'u';
    case Bool(b) =>
      assert Print(id)[0] == 't' || Print(id)[0] == 'f';
    case Text(s) =>
      assert Print(id)[0] == '\"';
    case Array(s) =>
      assert Print(id)[0] == '[';
    case Object(s) =>
      assert Print(id)[0] == '{';
  }

  // ---------------------------------------------------------------- buffer and log

  /** Index of the first buffered message called `id`, or the length when there is none. */
  function Position(buffer: seq<BufferedMessage>, id: string): (p: nat)
    ensures p <= |buffer|
    ensures p < |buffer| ==> buffer[p].id == id
    ensures forall i :: 0 <= i < p ==> buffer[i].id != id
  {
    if buffer == [] || buffer[0].id == id then 0 else 1 + Position(buffer[1..], id)
  }

  /** The buffered messages that follow `latestId`, or all of them when it is unknown.
      This is both what a load replays and what an acknowledgement keeps. */
  function After(buffer: seq<BufferedMessage>, latestId: string): seq<BufferedMessage> {
    var p := Position(buffer, latestId);
    if p < |buffer| then buffer[p + 1..] else buffer
  }

  predicate IsSuffix(buffer: seq<BufferedMessage>, log: seq<BufferedMessage>) {
    |buffer| <= |log| && buffer == log[|log| - |buffer|..]
  }

  predicate EntryWellFormed(e: BufferedMessage, next: nat) {
    match e.message
    case Notification(_, n) => n.Some? && n.value < next && e.id == NotificationId(n.value)
    case Request(id, _) => e.id == Print(id)
    case Response(id, _) => e.id == Print(id)
  }

  /** Every entry carries the id of its message, and notifications are numbered in
      strictly increasing order below `next`. */
  ghost predicate LogWellFormed(log: seq<BufferedMessage>, next: nat) {
    && (forall i :: 0 <= i < |log| ==> EntryWellFormed(log[i], next))
    && (forall i, j :: 0 <= i < j < |log| && log[i].message.Notification? && log[j].message.Notification? ==>
          log[i].message.notificationId.value < log[j].message.notificationId.value)
  }

  lemma NotificationUnique(log: seq<BufferedMessage>, next: nat, i: nat, j: nat)
    requires LogWellFormed(log, next)
    requires i < |log| && j < |log| && log[j].message.Notification?
    ensures log[i].id == log[j].id <==> i == j
  {
    assert EntryWellFormed(log[i], next) && EntryWellFormed(log[j], next);
    var n := log[j].message.notificationId.value;
    match log[i].message
    case Notification(_, m) => NotificationIdsDistinct(m.value, n, Null);
    case Request(id, _) => NotificationIdsDistinct(n, n, id);
    case Response(id, _) => NotificationIdsDistinct(n, n, id);
  }

  /** The pruned buffer answers like the whole log would: the replay after the
      notification at log index `j` is the log after `j`, less what was pruned. */
  lemma ReplayRefinesLog(log: seq<BufferedMessage>, next: nat, k: nat, j: nat)
    requires LogWellFormed(log, next)
    requires k <= |log| && j < |log| && log[j].message.Notification?
    ensures After(log[k..], log[j].id) == log[(if k <= j then j + 1 else k)..]
  {
    var buffer := log[k..];
    assert k <= j ==> buffer[j - k] == log[j];
    var p := Position(buffer, log[j].id);
    if p < |buffer| {
      NotificationUnique(log, next, k + p, j);
      assert buffer[p + 1..] == log[j + 1..];
    }
  }

  /** Acknowledging a second notification after a first one keeps the log after the
      later of the two, whatever the order in which the acknowledgements arrive. */
  lemma AcknowledgementsCommute(log: seq<BufferedMessage>, next: nat, k: nat, i: nat, j: nat)
    requires LogWellFormed(log, next)
    requires k <= |log| && i < |log| && j < |log|
    requires log[i].message.Notification? && log[j].message.Notification?
    ensures After(After(log[k..], log[i].id), log[j].id) == After(After(log[k..], log[j].id), log[i].id)
    ensures After(After(log[k..], log[i].id), log[i].id) == After(log[k..], log[i].id)
  {
    var ki := if k <= i then i + 1 else k;
    var kj := if k <= j then j + 1 else k;
    ReplayRefinesLog(log, next, k, i);
    ReplayRefinesLog(log, next, k, j);
    ReplayRefinesLog(log, next, ki, j);
    ReplayRefinesLog(log, next, kj, i);
    ReplayRefinesLog(log, next, ki, i);
  }

  lemma AfterIsSuffix(buffer: seq<BufferedMessage>, log: seq<BufferedMessage>, latestId: string)
    requires IsSuffix(buffer, log)
    ensures IsSuffix(After(buffer, latestId), log)
    ensures |After(buffer, latestId)| <= |buffer|
  {
  }

  lemma PruneAdvances(buffer: seq<BufferedMessage>, log: seq<BufferedMessage>, next: nat, j: nat)
    requires IsSuffix(buffer, log) && LogWellFormed(log, next) && j < |log| && log[j].message.Notification?
    ensures |log| - |After(buffer, log[j].id)| == if |log| - |buffer| <= j then j + 1 else |log| - |buffer|
  {
    hide LogWellFormed;
    ReplayRefinesLog(log, next, |log| - |buffer|, j);
  }

  /** An entry's id is a safe acknowledgement exactly if no entry before it in the buffer has
      that id: ids of requests and responses may repeat, and the first occurrence counts. */
  lemma ReplaysAfterExactlyWhenFirst(log: seq<BufferedMessage>, k: nat, j: nat)
    requires k <= j < |log|
    ensures After(log[k..], log[j].id) == log[j + 1..] <==> forall i :: k <= i < j ==> log[i].id != log[j].id
  {
    var buffer, id := log[k..], log[j].id;
    var p := Position(buffer, id);
    assert buffer[j - k] == log[j];
    assert After(buffer, id) == log[k + p + 1..];
    if k + p < j {
      assert log[k + p].id == id && |log[k + p + 1..]| > |log[j + 1..]|;
    } else {
      forall i | k <= i < j ensures log[i].id != id {
        assert buffer[i - k] == log[i];
      }
    }
  }

  /** What the router stores for a message: notifications are numbered, the others
      keep their own id. */
  function Labelled(message: JsonRpcMessage, next: nat): (entry: BufferedMessage)
    ensures EntryWellFormed(entry, next + 1)
  {
    match message
    case Notification(body, _) => BufferedMessage(NotificationId(next), Notification(body, Some(next)))
    case Request(id, _) => BufferedMessage(Print(id), message)
    case Response(id, _) => BufferedMessage(Print(id), message)
  }

  lemma LabelledExtendsLog(log: seq<BufferedMessage>, next: nat, message: JsonRpcMessage)
    requires LogWellFormed(log, next)
    ensures LogWellFormed(log + [Labelled(message, next)], next + 1)
  {
    var log' := log + [Labelled(message, next)];
    forall i | 0 <= i < |log'| ensures EntryWellFormed(log'[i], next + 1) {
      assert i < |log| ==> EntryWellFormed(log[i], next);
    }
  }

  /** `SessionState` (tidewave-core/src/ws/acp.rs). Each method is one critical section. */
  class SessionState {
    var messageBuffer: seq<BufferedMessage>
    var notificationIdCounter: nat
    var cancelled: bool
    var cancelCounter: nat
    ghost var log: seq<BufferedMessage>

    ghost predicate Valid()
      reads this
    {
      && IsSuffix(messageBuffer, log)
      && LogWellFormed(log, notificationIdCounter)
    }

    /** Number of log entries that have been pruned. */
    ghost function Dropped(): nat
      reads this
      requires Valid()
    {
      |log| - |messageBuffer|
    }

    constructor ()
      ensures Valid() && log == [] && messageBuffer == []
      ensures notificationIdCounter == 1 && !cancelled && cancelCounter == 0
    {
      messageBuffer, notificationIdCounter, cancelled, cancelCounter := [], 1, false, 0;
      log := [];
    }

    method GenerateNotificationId() returns (id: nat)
      requires Valid()
      modifies this`notificationIdCounter
      ensures Valid()
      ensures id == old(notificationIdCounter) < notificationIdCounter
      ensures forall i :: 0 <= i < |log| && log[i].message.Notification? ==> log[i].message.notificationId.value < id
    {
      id := notificationIdCounter;
      notificationIdCounter := notificationIdCounter + 1;
      assert forall i :: 0 <= i < |log| ==> EntryWellFormed(log[i], id);
    }

    /** Any entry is added; the log stays in order if the entry carries its message's id. */
    method AddToBuffer(entry: BufferedMessage)
      requires Valid()
      modifies this`messageBuffer, this`log
      ensures IsSuffix(messageBuffer, log)
      ensures LogWellFormed(log, notificationIdCounter) ==> Valid()
      ensures log == old(log) + [entry] && messageBuffer == old(messageBuffer) + [entry]
      ensures |log| - |messageBuffer| == old(Dropped())
    {
      messageBuffer := messageBuffer + [entry];
      log := log + [entry];
    }

    /** The labelling and buffering half of `handle_process_notification_or_request`. */
    method Record(message: JsonRpcMessage) returns (entry: BufferedMessage)
      requires Valid()
      modifies this`messageBuffer, this`log, this`notificationIdCounter
      ensures Valid()
      ensures log == old(log) + [entry] && messageBuffer == old(messageBuffer) + [entry]
      ensures entry == Labelled(message, old(notificationIdCounter))
      ensures message.Notification? ==> forall i :: 0 <= i < |old(log)| ==> old(log)[i].id != entry.id
    {
      ghost var next := notificationIdCounter;
      LabelledExtendsLog(log, next, message);
      if message.Notification? {
        var id := GenerateNotificationId();
        entry := BufferedMessage(NotificationId(id), Notification(message.body, Some(id)));
      } else {
        entry := BufferedMessage(Print(message.id), message);
        assert LogWellFormed(log + [entry], notificationIdCounter) by {
          forall i | 0 <= i < |log| + 1 ensures EntryWellFormed((log + [entry])[i], notificationIdCounter) {
            assert i < |log| ==> EntryWellFormed(log[i], notificationIdCounter);
          }
        }
      }
      AddToBuffer(entry);
      forall i | 0 <= i < |old(log)| && message.Notification? ensures old(log)[i].id != entry.id {
        NotificationUnique(log, notificationIdCounter, i, |log| - 1);
      }
    }

    method PruneBuffer(latestId: string)
      requires Valid()
      modifies this`messageBuffer
      ensures Valid()
      ensures messageBuffer == After(old(messageBuffer), latestId)
      ensures Dropped() >= old(Dropped())
      ensures forall j :: 0 <= j < |log| && log[j].message.Notification? && log[j].id == latestId ==>
                Dropped() == if old(Dropped()) <= j then j + 1 else old(Dropped())
    {
      hide LogWellFormed, IsSuffix;
      ghost var was := messageBuffer;
      var index := Position(messageBuffer, latestId);
      if index < |messageBuffer| {
        messageBuffer := messageBuffer[index + 1..];
      }
      assert messageBuffer == After(was, latestId);
      hide After, Position;
      AfterIsSuffix(was, log, latestId);
      forall j | 0 <= j < |log| && log[j].message.Notification? && log[j].id == latestId
        ensures |log| - |messageBuffer| == if |log| - |was| <= j then j + 1 else |log| - |was|
      {
        PruneAdvances(was, log, notificationIdCounter, j);
      }
    }
  }
}
