/** The server's question generator: the retry policy around the model
    call, the filter that keeps only well-formed generated questions, the
    insertion of those questions into the question table, and the random
    selection of a room's questions for a quiz. Values parsed from the
    model's JSON are kept as JSON values, since the filter is what gives
    them a shape. */
module QuizGenerator {
  import opened Wrappers
  import opened Text

  // ---- Retry with exponential backoff ----

  /** What a failed call throws, as far as the policy looks at it: the
      `status` and `statusCode` properties (absent, or a number). */
  datatype CallError = CallError(status: Option<int>, statusCode: Option<int>)

  /** One call of the wrapped function: it resolves or it throws. */
  datatype Attempt<T> = Succeeds(value: T) | Fails(error: CallError)

  /** How `withRetry` ends: with the first value, by rethrowing an error, or
      with "Max retries exceeded" when it never called at all. */
  datatype RetryResult<T> = Returned(value: T) | Rethrown(error: CallError) | MaxRetriesExceeded

  /** `error?.status || error?.statusCode`: a present non-zero `status`,
      otherwise `statusCode`. */
  function EffectiveStatus(e: CallError): Option<int> {
    if e.status.Some? && e.status.value != 0 then e.status else e.statusCode
  }

  /** Only "too many requests" (429) and "service unavailable" (503) are
      worth another try. */
  predicate Retryable(e: CallError) {
    EffectiveStatus(e) == Some(429) || EffectiveStatus(e) == Some(503)
  }

  function Pow2(k: nat): (p: nat)
    ensures p >= 1
  {
    if k == 0 then 1 else 2 * Pow2(k - 1)
  }

  /** Powers of two multiply by adding exponents, so each wait of the
      backoff is twice the one before and `2^j` times the first. */
  lemma {:induction false} Pow2Add(a: nat, b: nat)
    ensures Pow2(a + b) == Pow2(a) * Pow2(b)
  {
    if b > 0 {
      Pow2Add(a, b - 1);
      calc {
        Pow2(a + b);
        2 * Pow2(a + b - 1);
        2 * (Pow2(a) * Pow2(b - 1));
        Pow2(a) * (2 * Pow2(b - 1));
        Pow2(a) * Pow2(b);
      }
    }
  }

  /** The waits `withRetry` reports double from one retry to the next. */
  lemma DelaysDouble(delays: seq<int>, baseDelay: int)
    requires forall k :: 0 <= k < |delays| ==> delays[k] == baseDelay * Pow2(k)
    ensures forall k :: 0 < k < |delays| ==> delays[k] == 2 * delays[k - 1]
  {
    forall k | 0 < k < |delays|
      ensures delays[k] == 2 * delays[k - 1]
    {
      calc {
        delays[k];
        baseDelay * Pow2(k);
        baseDelay * (2 * Pow2(k - 1));
        2 * (baseDelay * Pow2(k - 1));
        2 * delays[k - 1];
      }
    }
  }

  /** `withRetry(fn, maxRetries, baseDelay)`, where `outcome(k)` is what the
      k-th call of `fn` (counting from 0) does. It returns the calls made and
      the delays waited. Calls stop at the first success, at the first
      non-retryable error, or after `maxRetries + 1` calls; the wait after
      failed call k is `baseDelay * 2^k`; a negative `maxRetries` makes no
      call at all. */
  method WithRetry<T>(outcome: nat -> Attempt<T>, maxRetries: int, baseDelay: int)
    returns (result: RetryResult<T>, calls: nat, delays: seq<int>)
    ensures maxRetries < 0 ==> result == MaxRetriesExceeded && calls == 0 && delays == []
    ensures maxRetries >= 0 ==> 1 <= calls <= maxRetries + 1 && |delays| == calls - 1
    ensures forall k :: 0 <= k < |delays| ==> delays[k] == baseDelay * Pow2(k)
    ensures forall k :: 0 <= k < calls - 1 ==> outcome(k).Fails? && Retryable(outcome(k).error)
    ensures calls > 0 && outcome(calls - 1).Succeeds? ==> result == Returned(outcome(calls - 1).value)
    ensures calls > 0 && outcome(calls - 1).Fails? ==>
              result == Rethrown(outcome(calls - 1).error)
              && (!Retryable(outcome(calls - 1).error) || calls == maxRetries + 1)
  {
    calls := 0;
    delays := [];
    var attempt := 0;
    while attempt <= maxRetries
      invariant 0 <= attempt && calls == attempt && |delays| == attempt
      invariant maxRetries >= 0 ==> attempt <= maxRetries
      invariant maxRetries < 0 ==> attempt == 0
      invariant forall k :: 0 <= k < attempt ==> outcome(k).Fails? && Retryable(outcome(k).error)
      invariant forall k :: 0 <= k < attempt ==> delays[k] == baseDelay * Pow2(k)
      decreases maxRetries - attempt
    {
      var a := outcome(attempt);
      calls := calls + 1;
      if a.Succeeds? {
        return Returned(a.value), calls, delays;
      }
      if !Retryable(a.error) || attempt == maxRetries {
        return Rethrown(a.error), calls, delays;
      }
      delays := delays + [baseDelay * Pow2(attempt)];
      attempt := attempt + 1;
    }
    result := MaxRetriesExceeded;
  }

  /** The retry policy as question generation uses it, with the default
      three retries and three-second base: at most four calls, the waits
      between them 3000, 6000 and 12000 milliseconds, and no outcome ends in
      "Max retries exceeded". */
  method GenerateWithRetry<T>(outcome: nat -> Attempt<T>)
    returns (result: RetryResult<T>, calls: nat, delays: seq<int>)
    ensures 1 <= calls <= 4
    ensures delays == [3000, 6000, 12000][..calls - 1]
    ensures !result.MaxRetriesExceeded?
    ensures outcome(0).Succeeds? ==> result == Returned(outcome(0).value) && calls == 1
  {
    result, calls, delays := WithRetry(outcome, 3, 3000);
    assert Pow2(1) == 2 && Pow2(2) == 4;
    assert delays == [3000, 6000, 12000][..calls - 1];
  }

  // ---- Validation of generated questions ----

  /** A value as `JSON.parse` yields it (objects other than the question
      record play no part here). */
  datatype JsonValue =
    | Undefined
    | Null
    | Bool(b: bool)
    | Num(n: real)
    | Str(s: string)
    | Arr(items: seq<JsonValue>)
    | Obj

  /** JavaScript truthiness. */
  predicate Truthy(v: JsonValue) {
    match v
    case Undefined => false
    case Null => false
    case Bool(b) => b
    case Num(n) => n != 0.0
    case Str(s) => s != ""
    case Arr(_) => true
    case Obj => true
  }

  /** A generated question as parsed, one JSON value per property the filter
      looks at (a missing property is `Undefined`). */
  datatype RawQuestion = RawQuestion(question: JsonValue, options: JsonValue,
                                     correctIndex: JsonValue, explanation: JsonValue)

  /** The filter's test: truthy question text, an array of exactly four
      options, a number from 0 to 3 as the correct index, and an explanation
      that is absent or a string. */
  predicate IsValid(q: RawQuestion) {
    && Truthy(q.question)
    && q.options.Arr? && |q.options.items| == 4
    && q.correctIndex.Num? && 0.0 <= q.correctIndex.n <= 3.0
    && (q.explanation.Undefined? || q.explanation.Str?)
  }

  /** `parsed.filter(isValid)`: the valid questions, in their order. */
  function Validate(parsed: seq<RawQuestion>): (valid: seq<RawQuestion>)
    ensures |valid| <= |parsed|
    ensures forall k :: 0 <= k < |valid| ==> IsValid(valid[k]) && valid[k] in parsed
    ensures forall q :: q in parsed && IsValid(q) ==> q in valid
  {
    if parsed == [] then []
    else
      var rest := Validate(parsed[1..]);
      assert forall q :: q in parsed[1..] ==> q in parsed;
      if IsValid(parsed[0]) then [parsed[0]] + rest else rest
  }

  /** Filtering distributes over concatenation: together with its effect on
      one question, this pins `Validate` down as the order-keeping filter. */
  lemma {:induction false} ValidateAppend(a: seq<RawQuestion>, b: seq<RawQuestion>)
    ensures Validate(a + b) == Validate(a) + Validate(b)
  {
    if a == [] {
      assert a + b == b;
    } else {
      assert (a + b)[0] == a[0];
      assert (a + b)[1..] == a[1..] + b;
      ValidateAppend(a[1..], b);
    }
  }

  lemma ValidateOne(q: RawQuestion)
    ensures Validate([q]) == if IsValid(q) then [q] else []
  {
  }

  /** The filter does not require a whole number: a correct index of 1.5
      passes. */
  lemma FractionalIndexPasses()
    ensures IsValid(RawQuestion(Str("Q"), Arr([Str("a"), Str("b"), Str("c"), Str("d")]), Num(1.5), Undefined))
  {
  }

  // ---- Storing generated questions ----

  /** A row of the question table. */
  datatype QuestionRow = QuestionRow(
    id: string, documentId: string, roomId: string,
    question: JsonValue, options: seq<JsonValue>, correctIndex: real,
    explanation: Option<string>, createdAt: string)

  /** `q.explanation?.trim() || null`. */
  function StoredExplanation(explanation: JsonValue): (r: Option<string>)
    ensures r.Some? ==> explanation.Str? && r.value == Trim(explanation.s) && r.value != ""
    ensures explanation.Str? && Trim(explanation.s) != "" ==> r.Some?
  {
    if explanation.Str? && Trim(explanation.s) != "" then Some(Trim(explanation.s)) else None
  }

  /** The row one valid generated question becomes. */
  function RowFor(q: RawQuestion, id: string, documentId: string, roomId: string,
                  createdAt: string): QuestionRow
    requires IsValid(q)
  {
    QuestionRow(id, documentId, roomId, q.question, q.options.items, q.correctIndex.n,
                StoredExplanation(q.explanation), createdAt)
  }

  /** The question table. */
  class QuestionTable {
    var rows: seq<QuestionRow>

    constructor (rows: seq<QuestionRow>)
      ensures this.rows == rows
    {
      this.rows := rows;
    }

    /** `generateAndStoreQuestions`, given what the model's reply parsed to:
        one row per valid question, in order, each with a fresh id, the
        document, the room, one timestamp and the trimmed explanation; the
        result is the number of rows inserted. */
    method GenerateAndStore(documentId: string, roomId: string, parsed: seq<RawQuestion>,
                            newId: nat -> string, now: string) returns (count: nat)
      modifies this
      ensures count == |Validate(parsed)|
      ensures |rows| == |old(rows)| + count && rows[..|old(rows)|] == old(rows)
      ensures forall k :: 0 <= k < count ==>
                rows[|old(rows)| + k] == RowFor(Validate(parsed)[k], newId(k), documentId, roomId, now)
    {
      var generated := Validate(parsed);
      var i := 0;
      while i < |generated|
        invariant 0 <= i <= |generated|
        invariant |rows| == |old(rows)| + i && rows[..|old(rows)|] == old(rows)
        invariant forall k :: 0 <= k < i ==>
                    rows[|old(rows)| + k] == RowFor(generated[k], newId(k), documentId, roomId, now)
      {
        var q := generated[i];
        rows := rows + [QuestionRow(newId(i), documentId, roomId, q.question, q.options.items,
                                    q.correctIndex.n, StoredExplanation(q.explanation), now)];
        i := i + 1;
      }
      count := |generated|;
    }
  }

  // ---- Picking a room's questions ----

  /** A question as the quiz endpoint serves it. */
  datatype ServedQuestion = ServedQuestion(id: string, question: JsonValue, options: seq<JsonValue>,
                                           correctIndex: real, explanation: Option<string>)

  /** The rows of one room, in table order. */
  function RoomRows(rows: seq<QuestionRow>, roomId: string): (r: seq<QuestionRow>)
    ensures forall k :: 0 <= k < |r| ==> r[k].roomId == roomId && r[k] in rows
    ensures forall row :: row in rows && row.roomId == roomId ==> row in r
  {
    if rows == [] then []
    else
      var rest := RoomRows(rows[1..], roomId);
      assert forall row :: row in rows[1..] ==> row in rows;
      if rows[0].roomId == roomId then [rows[0]] + rest else rest
  }

  /** The room's rows of a table split in two are those of each part in
      turn: with `RoomRowsOne`, this pins `RoomRows` down as the
      order-keeping filter on the room, duplicates included. */
  lemma {:induction false} RoomRowsAppend(a: seq<QuestionRow>, b: seq<QuestionRow>, roomId: string)
    ensures RoomRows(a + b, roomId) == RoomRows(a, roomId) + RoomRows(b, roomId)
  {
    if a == [] {
      assert a + b == b;
    } else {
      assert (a + b)[0] == a[0];
      assert (a + b)[1..] == a[1..] + b;
      RoomRowsAppend(a[1..], b, roomId);
    }
  }

  lemma RoomRowsOne(row: QuestionRow, roomId: string)
    ensures RoomRows([row], roomId) == if row.roomId == roomId then [row] else []
  {
    assert [row][1..] == [];
  }

  /** Storing a batch for a room adds exactly that batch to the room's rows,
      and leaves every other room's rows as they were. */
  lemma StoredBatchIsServable(rows: seq<QuestionRow>, batch: seq<QuestionRow>, roomId: string, other: string)
    requires forall k :: 0 <= k < |batch| ==> batch[k].roomId == roomId
    requires other != roomId
    ensures RoomRows(rows + batch, roomId) == RoomRows(rows, roomId) + batch
    ensures RoomRows(rows + batch, other) == RoomRows(rows, other)
  {
    RoomRowsAppend(rows, batch, roomId);
    RoomRowsAppend(rows, batch, other);
    RoomRowsOfRoom(batch, roomId, other);
  }

  lemma {:induction false} RoomRowsOfRoom(batch: seq<QuestionRow>, roomId: string, other: string)
    requires forall k :: 0 <= k < |batch| ==> batch[k].roomId == roomId
    requires other != roomId
    ensures RoomRows(batch, roomId) == batch && RoomRows(batch, other) == []
  {
    if batch != [] {
      assert forall k :: 0 <= k < |batch[1..]| ==> batch[1..][k] == batch[k + 1];
      RoomRowsOfRoom(batch[1..], roomId, other);
    }
  }

  /** Where `slice(0, count)` ends on a list of length `n`: a negative count
      counts back from the end. */
  function SliceEnd(n: nat, count: int): (e: nat)
    ensures e <= n
    ensures count >= 0 ==> e == if count < n then count else n
    ensures count < 0 ==> e == if n + count > 0 then n + count else 0
  {
    if count >= 0 then (if count < n then count else n)
    else if n + count > 0 then n + count else 0
  }

  function Serve(row: QuestionRow): ServedQuestion {
    ServedQuestion(row.id, row.question, row.options, row.correctIndex, row.explanation)
  }

  /** `getRandomQuestions(roomId, count)`, where `shuffled` is the room's rows
      in the order the random sort left them (any permutation): nothing for
      a room without questions, otherwise the first `count` shuffled rows as
      served questions. */
  function GetRandomQuestions(rows: seq<QuestionRow>, roomId: string, count: int,
                              shuffled: seq<QuestionRow>): (r: seq<ServedQuestion>)
    requires multiset(shuffled) == multiset(RoomRows(rows, roomId))
    ensures RoomRows(rows, roomId) == [] ==> r == []
    ensures |r| == SliceEnd(|RoomRows(rows, roomId)|, count)
    ensures count >= 0 ==> |r| <= count
    ensures forall k :: 0 <= k < |r| ==> r[k] == Serve(shuffled[k])
  {
    var room := RoomRows(rows, roomId);
    if |room| == 0 then []
    else
      assert |shuffled| == |room| by { assert |multiset(shuffled)| == |multiset(room)|; }
      var end := SliceEnd(|shuffled|, count);
      seq(end, k requires 0 <= k < end => Serve(shuffled[k]))
  }

  /** Every served question comes from a row of the requested room. */
  lemma ServedFromRoom(rows: seq<QuestionRow>, roomId: string, count: int, shuffled: seq<QuestionRow>)
    requires multiset(shuffled) == multiset(RoomRows(rows, roomId))
    ensures forall k :: 0 <= k < |GetRandomQuestions(rows, roomId, count, shuffled)| ==>
              exists row :: row in rows && row.roomId == roomId
                            && GetRandomQuestions(rows, roomId, count, shuffled)[k] == Serve(row)
  {
    var r := GetRandomQuestions(rows, roomId, count, shuffled);
    var room := RoomRows(rows, roomId);
    forall k | 0 <= k < |r|
      ensures exists row :: row in rows && row.roomId == roomId && r[k] == Serve(row)
    {
      assert shuffled[k] in multiset(shuffled);
      assert shuffled[k] in room;
      var j :| 0 <= j < |room| && room[j] == shuffled[k];
      assert room[j] in rows && room[j].roomId == roomId;
    }
  }

  // ---- The explanation column ----

  /** A stored row as the table mapping of server/src/db/schema.ts carries
      it: that mapping declares no `explanation` column (the column exists
      only in the table's DDL), so the insert does not write it and the
      select does not read it back. */
  function ThroughMappingAsWritten(row: QuestionRow): (r: QuestionRow)
    ensures r.explanation.None?
    ensures r.(explanation := row.explanation) == row
  {
    row.(explanation := None)
  }

  /** A well-formed generated question that comes with an explanation. */
  function ExplainedQuestion(): (q: RawQuestion)
    ensures IsValid(q)
    ensures q.explanation == Str("Because")
  {
    RawQuestion(Str("Q"), Arr([Str("a"), Str("b"), Str("c"), Str("d")]), Num(0.0), Str("Because"))
  }

  lemma StoredBecause()
    ensures StoredExplanation(Str("Because")) == Some("Because")
  {
    var e := "Because";
    assert e[0] == 'B' && e[|e| - 1] == 'e';
    TrimKeepsTrimmed(e);
  }

  /** As written, a generated question with an explanation is stored with
      it in hand but served without it. */
  lemma ExplanationLostAsWritten(id: string, documentId: string, roomId: string, now: string)
    ensures RowFor(ExplainedQuestion(), id, documentId, roomId, now).explanation == Some("Because")
    ensures Serve(ThroughMappingAsWritten(RowFor(ExplainedQuestion(), id, documentId, roomId, now))).explanation
            == None
  {
    StoredBecause();
  }

  /** With the column mapped, a served question explains itself exactly as
      generated: the trimmed explanation when there was a non-blank one,
      and none otherwise. */
  lemma ExplanationServed(q: RawQuestion, id: string, documentId: string, roomId: string, now: string)
    requires IsValid(q)
    ensures q.explanation.Str? && Trim(q.explanation.s) != "" ==>
              Serve(RowFor(q, id, documentId, roomId, now)).explanation == Some(Trim(q.explanation.s))
    ensures !q.explanation.Str? || Trim(q.explanation.s) == "" ==>
              Serve(RowFor(q, id, documentId, roomId, now)).explanation == None
  {
  }
}
