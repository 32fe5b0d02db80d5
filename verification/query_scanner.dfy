/** Answering the terminal queries of a pseudo console (tidewave-core/src/shell_env.rs,
    `conpty`). The scanner sees the output in chunks and keeps the end of what it saw. */
module QueryScanner {

  type Byte = bv8

  datatype Query = Query(text: seq<Byte>, reply: seq<Byte>)

  const ESC: Byte := 0x1b

  /** ESC [ 6 n, a device status report (section 8.3.35 of ECMA-48), is answered with the
      cursor position report ESC [ 1 ; 1 R (section 8.3.14). */
  const CURSOR := Query([ESC, 0x5b, 0x36, 0x6e], [ESC, 0x5b, 0x31, 0x3b, 0x31, 0x52])

  /** ESC [ c, device attributes (section 8.3.24), is answered with ESC [ ? 1 ; 2 c. */
  const ATTRIBUTES := Query([ESC, 0x5b, 0x63], [ESC, 0x5b, 0x3f, 0x31, 0x3b, 0x32, 0x63])

  const QUERIES: seq<Query> := [CURSOR, ATTRIBUTES]

  // ---------------------------------------------------------------- what the replies mean

  /** The number a string of ASCII digits stands for. */
  function Number(digits: seq<Byte>): int {
    if digits == [] then 0 else 10 * Number(digits[..|digits| - 1]) + (digits[|digits| - 1] as int - 0x30)
  }

  predicate Digits(text: seq<Byte>) {
    text != [] && forall i :: 0 <= i < |text| ==> 0x30 <= text[i] <= 0x39
  }

  /** ESC [ row ; column R. */
  ghost predicate ReportsCursor(reply: seq<Byte>, row: int, column: int) {
    exists r, c :: reply == [ESC,
        0x5b] + r + [0x3b] + c + [0x52] && Digits(r) && Digits(c) && Number(r) == row && Number(c) == column
  }

  /** ESC [ ? parameters c, the parameters being numbers separated by semicolons. */
  ghost predicate ReportsAttributes(reply: seq<Byte>, first: int, second: int) {
    exists a, b :: reply == [ESC, 0x5b,
        0x3f] + a + [0x3b] + b + [0x63] && Digits(a) && Digits(b) && Number(a) == first && Number(b) == second
  }

  /** Wherever a query ends, the reply is the report that was asked for: the cursor in row 1 and
      column 1, or the attributes of a VT100 with the advanced video option (1 ; 2). */
  lemma QueriesGetTheirReports(data: seq<Byte>, end: nat)
    requires end <= |data|
    ensures end >= 4 && data[end - 4..end] == [ESC, 0x5b, 0x36, 0x6e] ==> ReportsCursor(ReplyAt(data, end), 1, 1)
    ensures end >= 3 && data[end - 3..end] == [ESC, 0x5b, 0x63] ==> ReportsAttributes(ReplyAt(data, end), 1, 2)
    ensures !(end >= 4 && data[end - 4..end] == [ESC, 0x5b, 0x36, 0x6e])
            && !(end >= 3 && data[end - 3..end] == [ESC, 0x5b, 0x63]) ==>
              ReplyAt(data, end) == []
  {
    OneAndTwo();
    CursorForm();
    AttributesForm();
    assert EndsAt(data, end, CURSOR) ==> data[end - 1] == CURSOR.text[3];
    assert EndsAt(data, end, ATTRIBUTES) ==> data[end - 1] == ATTRIBUTES.text[2];
  }

  lemma OneAndTwo()
    ensures Number([0x31]) == 1 && Number([0x32]) == 2
  {
    assert Number([]) == 0;
  }

  lemma CursorForm()
    ensures ReportsCursor(CURSOR.reply, 1, 1)
  {
    OneAndTwo();
    var one: seq<Byte> := [0x31];
    assert CURSOR.reply == [ESC, 0x5b] + one + [0x3b] + one + [0x52];
  }

  lemma AttributesForm()
    ensures ReportsAttributes(ATTRIBUTES.reply, 1, 2)
  {
    OneAndTwo();
    var one: seq<Byte>, two: seq<Byte> := [0x31], [0x32];
    assert ATTRIBUTES.reply == [ESC, 0x5b, 0x3f] + one + [0x3b] + two + [0x63];
  }

  function Longest(queries: seq<Query>): nat {
    if queries == [] then 0 else
    var rest := Longest(queries[1..]);
    if |queries[0].text| > rest then |queries[0].text| else rest
  }

  lemma LongestIsFour()
    ensures Longest(QUERIES) == 4
  {
    assert [ATTRIBUTES][1..] == [];
    assert Longest([ATTRIBUTES]) == 3;
    assert QUERIES[1..] == [ATTRIBUTES];
  }

  // ---------------------------------------------------------------- what is to be answered

  predicate IsAt(data: seq<Byte>, start: nat, q: Query) {
    start + |q.text| <= |data| && data[start..start + |q.text|] == q.text
  }

  predicate EndsAt(data: seq<Byte>, end: nat, q: Query) {
    |q.text| <= end && IsAt(data, end - |q.text|, q)
  }

  /** The reply to the query that ends at `end`, if there is one. */
  function ReplyAt(data: seq<Byte>, end: nat): seq<Byte> {
    if EndsAt(data, end, CURSOR) then CURSOR.reply
    else if EndsAt(data, end, ATTRIBUTES) then ATTRIBUTES.reply
    else []
  }

  /** The replies to the queries that end after `lo` and not after `hi`, as they end. */
  function AnswersBetween(data: seq<Byte>, lo: nat, hi: nat): seq<Byte> {
    if hi <= lo then [] else AnswersBetween(data, lo, hi - 1) + ReplyAt(data, hi)
  }

  /** What one look at the whole output has to answer. */
  function Answers(data: seq<Byte>): seq<Byte> {
    AnswersBetween(data, 0, |data|)
  }

  /** Two queries in the output never overlap: ESC occurs only at their start. */
  lemma QueriesNeverOverlap(data: seq<Byte>, i: nat, j: nat, p: Query, q: Query)
    requires p in QUERIES && q in QUERIES && IsAt(data, i, p) && IsAt(data, j, q)
    requires i < j || (i == j && p != q)
    ensures i < j && i + |p.text| <= j
  {
    assert data[i] == p.text[0] && data[i + 1] == p.text[1] && data[i + 2] == p.text[2];
    assert data[i + |p.text| - 1] == p.text[|p.text| - 1];
    assert data[j] == q.text[0] && data[j + 2] == q.text[2];
  }

  lemma {:induction false} AnswersConcat(data: seq<Byte>, lo: nat, mid: nat, hi: nat)
    requires lo <= mid <= hi
    ensures AnswersBetween(data, lo, hi) == AnswersBetween(data, lo, mid) + AnswersBetween(data, mid, hi)
  {
    if mid < hi {
      AnswersConcat(data, lo, mid, hi - 1);
    }
  }

  predicate IsWindow(data: seq<Byte>, offset: nat, window: seq<Byte>) {
    offset + |window| <= |data| && window == data[offset..offset + |window|]
  }

  lemma IsAtInWindow(data: seq<Byte>, offset: nat, window: seq<Byte>, start: nat, q: Query)
    requires IsWindow(data, offset, window) && start + |q.text| <= |window|
    ensures IsAt(data, offset + start, q) == IsAt(window, start, q)
  {
    var n := start + |q.text|;
    assert forall i :: start <= i < n ==> window[i] == data[offset + i];
    assert window[start..n] == data[offset + start..offset + n];
  }

  /** A reply depends on its query's text only, so at most on four bytes up to its end. */
  lemma ReplyInWindow(data: seq<Byte>, offset: nat, window: seq<Byte>, end: nat)
    requires IsWindow(data, offset, window) && end <= |window| && (offset == 0 || 4 <= end)
    ensures ReplyAt(data, offset + end) == ReplyAt(window, end)
  {
    hide IsAt, IsWindow;
    if 4 <= end {
      IsAtInWindow(data, offset, window, end - 4, CURSOR);
    }
    if 3 <= end {
      IsAtInWindow(data, offset, window, end - 3, ATTRIBUTES);
    }
  }

  lemma {:induction false} AnswersInWindow(data: seq<Byte>, offset: nat, window: seq<Byte>, lo: nat, hi: nat)
    requires IsWindow(data, offset, window) && hi <= |window| && (offset == 0 || 3 <= lo)
    ensures AnswersBetween(data, offset + lo, offset + hi) == AnswersBetween(window, lo, hi)
    decreases hi
  {
    hide ReplyAt, IsWindow;
    if lo < hi {
      AnswersInWindow(data, offset, window, lo, hi - 1);
      ReplyInWindow(data, offset, window, hi);
    }
  }

  // ---------------------------------------------------------------- what the loops collect

  /** The replies at one start, for queries that end after `previous`. */
  function Hit(data: seq<Byte>, start: nat, previous: nat): seq<Byte> {
    (if IsAt(data, start, CURSOR) && start + |CURSOR.text| > previous then CURSOR.reply else [])
    + (if IsAt(data, start, ATTRIBUTES) && start + |ATTRIBUTES.text| > previous then ATTRIBUTES.reply else [])
  }

  /** The part of a hit that the first `queries` queries contribute. */
  function HitOf(data: seq<Byte>, start: nat, previous: nat, queries: nat): seq<Byte>
    requires queries <= |QUERIES|
  {
    if queries == 0 then [] else
    var q := QUERIES[queries - 1];
    HitOf(data, start, previous, queries - 1) + if IsAt(data, start, q) && start + |q.text| > previous then q.reply
        else []
  }

  lemma HitOfAll(data: seq<Byte>, start: nat, previous: nat)
    ensures HitOf(data, start, previous, |QUERIES|) == Hit(data, start, previous)
  {
    assert HitOf(data, start, previous, 1) == [] + if IsAt(data, start, CURSOR) && start + |CURSOR.text| > previous
        then CURSOR.reply else [];
  }

  predicate StartsWith(data: seq<Byte>, text: seq<Byte>) {
    |text| <= |data| && data[..|text|] == text
  }

  lemma StartsIsAt(data: seq<Byte>, start: nat, q: Query)
    requires start <= |data|
    ensures StartsWith(data[start..], q.text) <==> IsAt(data, start, q)
  {
    if start + |q.text| <= |data| {
      assert data[start..][..|q.text|] == data[start..start + |q.text|];
    }
  }

  /** The replies at the first `starts` starts, start by start. */
  function Hits(data: seq<Byte>, starts: nat, previous: nat): seq<Byte> {
    if starts == 0 then [] else Hits(data, starts - 1, previous) + Hit(data, starts - 1, previous)
  }

  /** One byte more completes at most one query, and nothing was found after its start. */
  lemma HitGrows(data: seq<Byte>, start: nat, previous: nat)
    requires data != [] && previous < |data| && start <= |data|
    ensures var front := data[..|data| - 1];
            if EndsAt(data, |data|, CURSOR) && start == |data| - 4 then Hit(data, start, previous) == CURSOR.reply
                && Hit(front, start, previous) == []
            else if EndsAt(data, |data|, ATTRIBUTES) && start == |data| - 3
                then Hit(data, start, previous) == ATTRIBUTES.reply && Hit(front, start, previous) == []
            else Hit(data, start, previous) == Hit(front, start, previous)
    ensures !(EndsAt(data, |data|, CURSOR) && EndsAt(data, |data|, ATTRIBUTES))
    ensures EndsAt(data, |data|, CURSOR) && start > |data| - 4 ==> Hit(data, start, previous) == []
    ensures EndsAt(data, |data|, ATTRIBUTES) && start > |data| - 3 ==> Hit(data, start, previous) == []
  {
    var front := data[..|data| - 1];
    forall q | q in QUERIES
      ensures IsAt(data, start, q) == (IsAt(front, start, q) || (start + |q.text| == |data| && EndsAt(data, |data|, q)))
    {
      if start + |q.text| <= |front| {
        assert front[start..start + |q.text|] == data[start..start + |q.text|];
      }
    }
    if EndsAt(data, |data|, CURSOR) && EndsAt(data, |data|, ATTRIBUTES) {
      QueriesNeverOverlap(data, |data| - 4, |data| - 3, CURSOR, ATTRIBUTES);
    }
    forall p, q | p in QUERIES && q in QUERIES && EndsAt(data, |data|, p) && IsAt(data, start, q)
      ensures start < |data| - |p.text| || (start == |data| - |p.text| && p == q)
    {
      if start > |data| - |p.text| || (start == |data| - |p.text| && p != q) {
        QueriesNeverOverlap(data, |data| - |p.text|, start, p, q);
      }
    }
  }

  /** The hits before `starts` after one byte more: the completed query, if it started
      there, comes after all the others. */
  lemma {:induction false} HitsGrow(data: seq<Byte>, starts: nat, previous: nat)
    requires data != [] && previous < |data| && starts <= |data|
    ensures var front := data[..|data| - 1];
            Hits(data, starts, previous) == Hits(front, starts, previous) + Completed(data, starts)
    decreases starts
  {
    hide Hit, IsAt;
    if starts > 0 {
      HitsGrow(data, starts - 1, previous);
      HitGrows(data, starts - 1, previous);
      assert Completed(data, starts - 1) == []
          || Hit(data, starts - 1, previous) == Hit(data[..|data| - 1], starts - 1, previous) == [];
    }
  }

  /** The reply of the query that ends with the data, if it starts before `starts`. */
  function Completed(data: seq<Byte>, starts: nat): seq<Byte> {
    if EndsAt(data, |data|, CURSOR) then if starts > |data| - 4 then CURSOR.reply else []
    else if EndsAt(data, |data|, ATTRIBUTES) && starts > |data| - 3 then ATTRIBUTES.reply
    else []
  }

  lemma {:induction false} NoHits(data: seq<Byte>, starts: nat)
    ensures Hits(data, starts, |data|) == []
  {
    if starts > 0 {
      NoHits(data, starts - 1);
    }
  }

  /** Going start by start finds the replies in the order in which their queries end. */
  lemma {:induction false} HitsAreAnswers(data: seq<Byte>, previous: nat)
    requires previous <= |data|
    ensures Hits(data, |data|, previous) == AnswersBetween(data, previous, |data|)
    decreases |data|
  {
    hide Hit, ReplyAt, Completed;
    if previous == |data| {
      NoHits(data, |data|);
    } else {
      var n, front := |data|, data[..|data| - 1];
      HitsGrow(data, n, previous);
      NoHitAtEnd(front, previous);
      HitsAreAnswers(front, previous);
      AnswersInWindow(data, 0, front, previous, n - 1);
      CompletedIsReply(data);
    }
  }

  lemma NoHitAtEnd(data: seq<Byte>, previous: nat)
    ensures Hit(data, |data|, previous) == []
  {
  }

  lemma CompletedIsReply(data: seq<Byte>)
    ensures Completed(data, |data|) == ReplyAt(data, |data|)
  {
    hide IsAt;
  }

  // ---------------------------------------------------------------- the scanner

  function LastBytes(data: seq<Byte>, n: nat): (last: seq<Byte>)
    ensures |last| == if |data| < n then |data| else n
  {
    if |data| < n then data else data[|data| - n..]
  }

  class Scanner {
    var tail: seq<Byte>
    ghost var seen: seq<Byte>

    /** The tail is the last three bytes of everything seen. */
    ghost predicate Valid()
      reads this
    {
      tail == LastBytes(seen, 3)
    }

    constructor ()
      ensures Valid() && seen == []
    {
      tail, seen := [], [];
    }

    /** Answers exactly the queries that end in this chunk, each once, in order. */
    method Replies(chunk: seq<Byte>) returns (replies: seq<Byte>)
      requires Valid()
      modifies this
      ensures Valid() && seen == old(seen) + chunk
      ensures Answers(seen) == Answers(old(seen)) + replies
    {
      hide IsAt, StartsWith, Hit;
      var previousLen := |tail|;
      tail := tail + chunk;
      ghost var window := tail;
      replies := [];
      for start := 0 to |tail|
        invariant tail == window && seen == old(seen)
        invariant replies == Hits(window, start, previousLen)
      {
        ghost var before := replies;
        for i := 0 to |QUERIES|
          invariant tail == window && seen == old(seen)
          invariant replies == before + HitOf(window, start, previousLen, i)
        {
          var query := QUERIES[i];
          StartsIsAt(tail, start, query);
          if StartsWith(tail[start..], query.text) && start + |query.text| > previousLen {
            replies := replies + query.reply;
          }
        }
        HitOfAll(window, start, previousLen);
      }
      LongestIsFour();
      var keep := Longest(QUERIES) - 1;
      var excess := if |tail| > keep then |tail| - keep else 0;
      tail := tail[excess..];

      ghost var was := seen;
      seen := seen + chunk;
      HitsAreAnswers(window, previousLen);
      NewAnswers(was, chunk);
    }
  }

  /** What the window of kept tail and chunk answers is what the whole output is owed. */
  lemma NewAnswers(was: seq<Byte>, chunk: seq<Byte>)
    ensures var tail := LastBytes(was, 3);
            && LastBytes(was + chunk, 3) == LastBytes(tail + chunk, 3)
            && Answers(was + chunk) == Answers(was) + AnswersBetween(tail + chunk, |tail|, |tail + chunk|)
  {
    hide ReplyAt, IsWindow, AnswersBetween;
    var tail := LastBytes(was, 3);
    var data, window := was + chunk, tail + chunk;
    LastBytesWindow(was, chunk);
    AnswersInWindow(data, |was| - |tail|, window, |tail|, |window|);
    AnswersConcat(data, 0, |was|, |data|);
    AnswersInWindow(data, 0, was, 0, |was|);
  }

  lemma LastBytesWindow(was: seq<Byte>, chunk: seq<Byte>)
    ensures var tail := LastBytes(was, 3);
            && IsWindow(was + chunk, |was| - |tail|, tail + chunk)
            && IsWindow(was + chunk, 0, was)
            && LastBytes(was + chunk, 3) == LastBytes(tail + chunk, 3)
  {
  }

  function Flatten(chunks: seq<seq<Byte>>): seq<Byte> {
    if chunks == [] then [] else Flatten(chunks[..|chunks| - 1]) + chunks[|chunks| - 1]
  }

  /** The drain loop: however the output is split into reads, what is written back is what
      one look at the whole output has to answer. */
  method Drain(chunks: seq<seq<Byte>>) returns (written: seq<Byte>)
    ensures written == Answers(Flatten(chunks))
  {
    var scanner := new Scanner();
    written := [];
    for i := 0 to |chunks|
      invariant fresh(scanner) && scanner.Valid()
      invariant scanner.seen == Flatten(chunks[..i])
      invariant written == Answers(scanner.seen)
    {
      assert chunks[..i + 1][..i] == chunks[..i];
      var replies := scanner.Replies(chunks[i]);
      written := written + replies;
    }
    assert chunks[..|chunks|] == chunks;
  }
}
