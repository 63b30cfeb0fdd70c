/** HTTP idempotency: the hash preimage and the lookup, replay and conflict rules. */
module Idempotency {
  import opened Wrappers
  import opened JsonText
  import opened JsonParser
  import opened CanonicalJson

  const NEWLINE: CodeUnit := 10

  /** What is hashed: method, path and canonical body on three lines. */
  function Preimage(verb: Text, path: Text, body: Json): Text {
    verb + [NEWLINE] + path + [NEWLINE] + Stringify(body)
  }

  /** Where the first newline stands. */
  function LineLength(text: Text): nat {
    if text == [] || text[0] == NEWLINE then 0 else 1 + LineLength(text[1..])
  }

  lemma {:induction false} FirstLineEnds(line: Text, rest: Text)
    requires NEWLINE !in line
    ensures LineLength(line + [NEWLINE] + rest) == |line|
  {
    if line == [] {
      assert line + [NEWLINE] + rest == [NEWLINE] + rest;
    } else {
      FirstLineEnds(line[1..], rest);
      assert (line + [NEWLINE] + rest)[1..] == line[1..] + [NEWLINE] + rest;
    }
  }

  lemma FirstLineIsUnique(a: Text, b: Text, restA: Text, restB: Text)
    requires NEWLINE !in a && NEWLINE !in b
    requires a + [NEWLINE] + restA == b + [NEWLINE] + restB
    ensures a == b && restA == restB
  {
    FirstLineEnds(a, restA);
    FirstLineEnds(b, restB);
    var whole := a + [NEWLINE] + restA;
    assert a == whole[..|a|] && b == whole[..|b|];
    assert restA == whole[|a| + 1..] && restB == whole[|b| + 1..];
  }

  /** Methods and paths hold no newline, so a preimage tells all three parts. */
  lemma PreimageIdentifiesRequest(
    verb1: Text, path1: Text, body1: Json, verb2: Text, path2: Text, body2: Json)
    requires NEWLINE !in verb1 && NEWLINE !in path1 && NEWLINE !in verb2 && NEWLINE !in path2
    requires IsValue(body1) && IsValue(body2)
    ensures Preimage(verb1, path1, body1) == Preimage(verb2, path2, body2) <==>
            verb1 == verb2 && path1 == path2 && Same(body1, body2)
  {
    PrintsIdentifyValues(body1, body2);
    var rest1 := path1 + [NEWLINE] + Stringify(body1);
    var rest2 := path2 + [NEWLINE] + Stringify(body2);
    assert Preimage(verb1, path1, body1) == verb1 + [NEWLINE] + rest1;
    assert Preimage(verb2, path2, body2) == verb2 + [NEWLINE] + rest2;
    if Preimage(verb1, path1, body1) == Preimage(verb2, path2, body2) {
      FirstLineIsUnique(verb1, verb2, rest1, rest2);
      FirstLineIsUnique(path1, path2, Stringify(body1), Stringify(body2));
    }
  }

  // ---------- the interceptor ----------

  datatype Call = Call(verb: Text, path: Text, body: Json)

  /** What the handler answered; no body at all counts as null. */
  datatype Response = Response(status: int, body: Json)

  /** The body is stored as JSON.stringify prints it, keys in their own order. */
  datatype Record = Record(verb: Text, path: Text, requestHash: Text, status: int, bodyText: Text)

  datatype Decision = Handle | Replay(response: Response) | Conflict

  const GET: Text := [71, 69, 84]
  const HEAD: Text := [72, 69, 65, 68]
  const OPTIONS: Text := [79, 80, 84, 73, 79, 78, 83]
  const POST: Text := [80, 79, 83, 84]
  const PUT: Text := [80, 85, 84]
  const PATCH: Text := [80, 65, 84, 67, 72]
  const DELETE: Text := [68, 69, 76, 69, 84, 69]

  /** Safe methods and calls without a key pass through; an empty key counts as none. */
  predicate Participates(verb: Text, key: Option<Text>) {
    verb != GET && verb != HEAD && verb != OPTIONS && key.Some? && key.value != []
  }

  /** A well-formed call: its first two parts are single lines and its body is a JSON value. */
  ghost predicate IsCall(call: Call) {
    NEWLINE !in call.verb && NEWLINE !in call.path && IsValue(call.body)
  }

  /** The digest is any function of the preimage; nothing is assumed about it. */
  type Digest = Text -> Text

  function HashOf(digest: Digest, call: Call): Text {
    digest(Preimage(call.verb, call.path, call.body))
  }

  /** The stored text parsed again; text that is no JSON is answered as it is. */
  function Restored(text: Text): Json {
    match ReadValue(text)
    case Just(value, rest) => if rest == [] then value else Str(text)
    case Nothing => Str(text)
  }

  lemma StoredBodyReturns(body: Json)
    requires IsValue(body)
    ensures Restored(Plain(body)) == body
  {
    ReadValueInverts(body, []);
    assert Plain(body) + [] == Plain(body);
  }

  function RecordOf(digest: Digest, call: Call, response: Response): Record {
    Record(call.verb, call.path, HashOf(digest, call), response.status, Plain(response.body))
  }

  class Interceptor {
    const digest: Digest
    var records: map<Text, Record>

    constructor (digest: Digest)
      ensures this.digest == digest && records == map[]
    {
      this.digest := digest;
      records := map[];
    }

    /** Looks the key up before the handler runs. */
    method Lookup(key: Option<Text>, call: Call) returns (decision: Decision)
      ensures decision == Decide(digest, records, key, call)
    {
      if !Participates(call.verb, key) {
        return Handle;
      }
      if key.value !in records {
        return Handle;
      }
      var existing := records[key.value];
      if existing.verb != call.verb || existing.path != call.path {
        return Conflict;
      }
      if existing.requestHash != HashOf(digest, call) {
        return Conflict;
      }
      return Replay(Response(existing.status, Restored(existing.bodyText)));
    }

    /** Stores the handler's response; storing a key again overwrites its record. */
    method Remember(key: Option<Text>, call: Call, response: Response)
      modifies this
      ensures records == Remembered(digest, old(records), key, call, response)
    {
      if Participates(call.verb, key) {
        records := records[key.value := RecordOf(digest, call, response)];
      }
    }
  }

  function Decide(digest: Digest, records: map<Text, Record>, key: Option<Text>, call: Call): Decision {
    if !Participates(call.verb, key) || key.value !in records then
      Handle
    else
      var existing := records[key.value];
      if existing.verb == call.verb && existing.path == call.path &&
         existing.requestHash == HashOf(digest, call)
      then Replay(Response(existing.status, Restored(existing.bodyText)))
      else Conflict
  }

  function Remembered(digest: Digest, records: map<Text, Record>, key: Option<Text>, call: Call, response: Response)
    : map<Text, Record>
  {
    if Participates(call.verb, key) then records[key.value := RecordOf(digest, call, response)] else records
  }

  /** Two different calls whose preimages the digest does not tell apart. */
  ghost predicate Collides(digest: Digest, first: Call, second: Call) {
    && Preimage(first.verb, first.path, first.body) != Preimage(second.verb, second.path, second.body)
    && HashOf(digest, first) == HashOf(digest, second)
  }

  predicate SameTarget(first: Call, second: Call) {
    first.verb == second.verb && first.path == second.path
  }

  ghost predicate SameRequest(digest: Digest, first: Call, second: Call) {
    SameTarget(first, second) && (Same(first.body, second.body) || Collides(digest, first, second))
  }

  /**
   * Once a call's response is stored under a key, a later call with the key is answered with
   * that response exactly when it has the same method and path and, but for key order, the same
   * body - or the digest collides. Any other such call is a conflict, never handled again.
   */
  lemma StoredKeyDecides(
    digest: Digest, records: map<Text, Record>, key: Option<Text>, first: Call, response: Response, second: Call)
    requires IsCall(first) && IsCall(second) && IsValue(response.body)
    requires Participates(first.verb, key) && Participates(second.verb, key)
    ensures var decision := Decide(digest, Remembered(digest, records, key, first, response), key, second);
            decision == if SameRequest(digest, first, second) then Replay(response) else Conflict
  {
    PreimageIdentifiesRequest(first.verb, first.path, first.body, second.verb, second.path, second.body);
    StoredBodyReturns(response.body);
  }

  /** A changing call that repeats the stored one is answered with the stored response. */
  lemma RepeatedCallIsReplayed(
    digest: Digest, records: map<Text, Record>, key: Text, call: Call, response: Response)
    requires call.verb in {POST, PUT, PATCH, DELETE} || call.verb !in {GET, HEAD, OPTIONS}
    requires key != [] && IsCall(call) && IsValue(response.body)
    ensures var stored := Remembered(digest, records, Some(key), call, response);
            && key in stored && stored == records[key := stored[key]]
            && Decide(digest, stored, Some(key), call) == Replay(response)
  {
    StoredBodyReturns(response.body);
  }

  /** Safe methods and calls without a key are always handled, and store nothing. */
  lemma SafeCallsPassThrough(
    digest: Digest, records: map<Text, Record>, key: Option<Text>, call: Call, response: Response)
    requires call.verb in {GET, HEAD, OPTIONS} || key == None || key == Some([])
    ensures Decide(digest, records, key, call) == Handle
    ensures Remembered(digest, records, key, call, response) == records
  {
  }

  /** Storing under one key never changes what another key is answered. */
  lemma OtherKeysUndisturbed(
    digest: Digest, records: map<Text, Record>, key: Option<Text>, call: Call, response: Response,
    other: Option<Text>, second: Call)
    requires other != key
    ensures Decide(digest, Remembered(digest, records, key, call, response), other, second) ==
            Decide(digest, records, other, second)
  {
  }

  // ---------- histories of concurrent calls ----------

  /**
   * A call looks its key up when it arrives. When its handler is done its response is stored;
   * a handler that throws stores nothing. Other calls may arrive and end in between.
   */
  datatype Happening =
    | Arrived(key: Option<Text>, call: Call)
    | Finished(key: Option<Text>, call: Call, response: Response)
    | Threw(key: Option<Text>, call: Call)

  function RecordsAfter(digest: Digest, history: seq<Happening>): map<Text, Record> {
    if history == [] then
      map[]
    else
      var records, last := RecordsAfter(digest, history[..|history| - 1]), history[|history| - 1];
      if last.Finished? then Remembered(digest, records, last.key, last.call, last.response) else records
  }

  datatype Stored = Stored(call: Call, response: Response)

  /** The last response stored under the key, told from the history alone. */
  function LastStored(history: seq<Happening>, key: Text): Option<Stored> {
    if history == [] then
      None
    else
      var last := history[|history| - 1];
      if last.Finished? && last.key == Some(key) && Participates(last.call.verb, last.key)
      then Some(Stored(last.call, last.response))
      else LastStored(history[..|history| - 1], key)
  }

  ghost predicate IsHistory(history: seq<Happening>) {
    forall i | 0 <= i < |history| ::
      IsCall(history[i].call) && (history[i].Finished? ==> IsValue(history[i].response.body))
  }

  lemma {:induction false} RecordsAreLastStored(digest: Digest, history: seq<Happening>, key: Text)
    ensures var records, stored := RecordsAfter(digest, history), LastStored(history, key);
            && (key in records <==> stored.Some?)
            && (stored.Some? ==> records[key] == RecordOf(digest, stored.value.call, stored.value.response))
  {
    if history != [] {
      RecordsAreLastStored(digest, history[..|history| - 1], key);
    }
  }

  lemma {:induction false} LastStoredIsCall(history: seq<Happening>, key: Text)
    requires IsHistory(history)
    ensures var stored := LastStored(history, key);
            stored.Some? ==>
              && IsCall(stored.value.call) && IsValue(stored.value.response.body)
              && Participates(stored.value.call.verb, Some(key))
  {
    if history != [] {
      LastStoredIsCall(history[..|history| - 1], key);
    }
  }

  /**
   * After any history, racing calls included, a call with a key is handled when nothing was
   * stored under the key, is answered with the last response stored under it when it is the
   * request of that response or its digest collides, and is a conflict otherwise.
   */
  lemma HistoryDecides(digest: Digest, history: seq<Happening>, key: Option<Text>, call: Call)
    requires IsHistory(history) && IsCall(call) && Participates(call.verb, key)
    ensures Decide(digest, RecordsAfter(digest, history), key, call) ==
            match LastStored(history, key.value)
            case None => Handle
            case Some(stored) =>
              if SameRequest(digest, stored.call, call) then Replay(stored.response) else Conflict
  {
    var records := RecordsAfter(digest, history);
    RecordsAreLastStored(digest, history, key.value);
    LastStoredIsCall(history, key.value);
    match LastStored(history, key.value)
    case None =>
    case Some(stored) =>
      StoredKeyDecides(digest, records, key, stored.call, stored.response, call);
      assert Remembered(digest, records, key, stored.call, stored.response) == records;
  }

  predicate Claims(happening: Happening, key: Text) {
    happening.key == Some(key) && Participates(happening.call.verb, happening.key)
  }

  /** How often the handler runs for calls with the key. */
  function TimesHandled(digest: Digest, history: seq<Happening>, key: Text): nat {
    if history == [] then
      0
    else
      var init, last := history[..|history| - 1], history[|history| - 1];
      TimesHandled(digest, init, key) +
      if last.Arrived? && Claims(last, key) && Decide(digest, RecordsAfter(digest, init), last.key, last.call) == Handle
      then 1 else 0
  }

  /** How many calls with the key arrive before the first response is stored under it. */
  function EarlyArrivals(history: seq<Happening>, key: Text): nat {
    if history == [] then
      0
    else
      var init, last := history[..|history| - 1], history[|history| - 1];
      EarlyArrivals(init, key) + if last.Arrived? && Claims(last, key) && LastStored(init, key).None? then 1 else 0
  }

  /** The handler runs once for every call that arrives before the first response is stored. */
  lemma {:induction false} HandledWhenEarly(digest: Digest, history: seq<Happening>, key: Text)
    ensures TimesHandled(digest, history, key) == EarlyArrivals(history, key)
  {
    if history != [] {
      HandledWhenEarly(digest, history[..|history| - 1], key);
      RecordsAreLastStored(digest, history[..|history| - 1], key);
    }
  }

  /** The handler of a call with the key is done, one way or the other. */
  predicate Ends(happening: Happening, key: Text) {
    !happening.Arrived? && Claims(happening, key)
  }

  /** A call with the key arrives and is handled, because nothing is stored yet. */
  predicate StartsAt(history: seq<Happening>, i: nat, key: Text)
    requires i < |history|
  {
    history[i].Arrived? && Claims(history[i], key) && LastStored(history[..i], key).None?
  }

  /** The handler of the last call with the key that was handled has not ended. */
  predicate UnderWay(history: seq<Happening>, key: Text) {
    history != [] &&
    var n := |history| - 1;
    !Ends(history[n], key) && (StartsAt(history, n, key) || UnderWay(history[..n], key))
  }

  /** No call with the key arrives while the handler of one is running. */
  ghost predicate Serial(history: seq<Happening>, key: Text) {
    forall j | 0 <= j < |history| && history[j].Arrived? && Claims(history[j], key) :: !UnderWay(history[..j], key)
  }

  /** How many handlers of calls with the key have thrown. */
  function TimesThrown(history: seq<Happening>, key: Text): nat {
    if history == [] then
      0
    else
      var last := history[|history| - 1];
      TimesThrown(history[..|history| - 1], key) + if last.Threw? && Claims(last, key) then 1 else 0
  }

  lemma SerialPrefix(history: seq<Happening>, key: Text)
    requires history != [] && Serial(history, key)
    ensures Serial(history[..|history| - 1], key)
  {
    var init := history[..|history| - 1];
    assert forall j | 0 <= j < |init| :: init[..j] == history[..j];
  }

  /** Every handled call but the one under way, or the one that was stored, has thrown. */
  lemma {:induction false} SerialArrivals(history: seq<Happening>, key: Text)
    requires Serial(history, key)
    ensures EarlyArrivals(history, key) <=
            TimesThrown(history, key) + if UnderWay(history, key) || LastStored(history, key).Some? then 1 else 0
  {
    if history != [] {
      SerialPrefix(history, key);
      SerialArrivals(history[..|history| - 1], key);
    }
  }

  /**
   * When no call with the key arrives while the handler of one is running, whatever replays,
   * conflicts and calls with other keys come in between, the handler runs at most once more
   * often than it throws.
   */
  lemma HandledOnceWhenSerial(digest: Digest, history: seq<Happening>, key: Text)
    requires Serial(history, key)
    ensures TimesHandled(digest, history, key) <= 1 + TimesThrown(history, key)
  {
    HandledWhenEarly(digest, history, key);
    SerialArrivals(history, key);
  }

  // ---------- keys are independent ----------

  /** What happens to calls with the key. */
  function OnlyWith(history: seq<Happening>, key: Text): seq<Happening> {
    if history == [] then
      []
    else
      var init, last := OnlyWith(history[..|history| - 1], key), history[|history| - 1];
      if last.key == Some(key) then init + [last] else init
  }

  /** What happens to calls with other keys never changes what a call with a key is answered. */
  lemma {:induction false} KeysAreIndependent(digest: Digest, history: seq<Happening>, key: Text, call: Call)
    ensures Decide(digest, RecordsAfter(digest, history), Some(key), call) ==
            Decide(digest, RecordsAfter(digest, OnlyWith(history, key)), Some(key), call)
  {
    if history != [] {
      var init, last := history[..|history| - 1], history[|history| - 1];
      KeysAreIndependent(digest, init, key, call);
      if last.key == Some(key) {
        assert (OnlyWith(init, key) + [last])[..|OnlyWith(init, key)|] == OnlyWith(init, key);
      } else if last.Finished? {
        OtherKeysUndisturbed(
          digest, RecordsAfter(digest, init), last.key, last.call, last.response, Some(key), call);
      }
    }
  }
}
