/**
 * The decision logic of the API test script: the line loop that reads a
 * streamed completion, the health and model-listing outcome mappings, and the
 * pass/fail tally that picks the exit status.
 *
 * Network replies are inputs. JSON decoding is an input too: `parse` tells,
 * for each payload string, whether it decodes and whether `choices[0].text`
 * could be read from it.
 */
module VllmTester {
  import opened Wrappers
  import opened Strings

  /** The field prefix a server-sent-events data line starts with. */
  const DataPrefix: string := "data: "
  /** The payload that marks the end of an OpenAI-style stream. */
  const DoneSentinel: string := "[DONE]"

  /** One line from `iter_lines()`: its UTF-8 decoding, or bytes that do not decode. */
  datatype RawLine = Line(text: string) | Undecodable

  /** What `json.loads(data_str)["choices"][0]["text"]` does with one payload. */
  datatype JsonPayload =
    | NotJson               // json.JSONDecodeError: the loop continues
    | WithText(text: string)
    | WithoutText           // decoded, but `choices[0].text` is missing or not a string: the test fails

  /** How the line loop ended. */
  datatype Stop = Exhausted | SawDone | Raised

  /** The text gathered by the loop, and how it ended. */
  datatype Scan = Scan(text: string, stop: Stop)

  /** What one line does to the loop. */
  datatype Action = Skip | Append(text: string) | Halt(stop: Stop)

  // ---------------------------------------------------------------------------
  // Streaming test

  /** The payload of a data line (the line minus its prefix), or None for any other line. */
  function Payload(line: string): (r: Option<string>)
    ensures r.Some? <==> StartsWith(line, DataPrefix)
    ensures r.Some? ==> line == DataPrefix + r.value
  {
    if StartsWith(line, DataPrefix) then Some(line[|DataPrefix|..]) else None
  }

  /** Framing a payload as a data line and reading it back gives the payload. */
  lemma PayloadOfDataLine(p: string)
    ensures Payload(DataPrefix + p) == Some(p)
  {
  }

  /** The effect of one line on the loop. */
  function Classify(line: RawLine, parse: string -> JsonPayload): Action {
    match line
    case Undecodable => Halt(Raised)
    case Line(t) =>
      match Payload(t)
      case None => Skip
      case Some(p) =>
        if p == DoneSentinel then Halt(SawDone)
        else match parse(p)
          case NotJson => Skip
          case WithoutText => Halt(Raised)
          case WithText(x) => Append(x)
  }

  /** Runs the loop over `lines` with `acc` already gathered; the gathered text only grows. */
  function ScanLines(lines: seq<RawLine>, parse: string -> JsonPayload, acc: string): (r: Scan)
    ensures acc <= r.text
    decreases |lines|
  {
    if lines == [] then Scan(acc, Exhausted)
    else match Classify(lines[0], parse)
      case Skip => ScanLines(lines[1..], parse, acc)
      case Append(x) => ScanLines(lines[1..], parse, acc + x)
      case Halt(stop) => Scan(acc, stop)
  }

  /**
   * The verdict of the streaming test: it fails only when something raised,
   * either inside the loop or while reading a further line (`readFails`)
   * after the given ones.
   */
  predicate StreamingPasses(lines: seq<RawLine>, readFails: bool, parse: string -> JsonPayload) {
    var scan := ScanLines(lines, parse, "");
    scan.stop == SawDone || (scan.stop == Exhausted && !readFails)
  }

  /**
   * `test_streaming`'s line loop and verdict. `fullText` is what the loop
   * gathered (and printed) before it ended.
   */
  method TestStreaming(lines: seq<RawLine>, readFails: bool, parse: string -> JsonPayload)
    returns (passed: bool, fullText: string)
    ensures passed == StreamingPasses(lines, readFails, parse)
    ensures fullText == ScanLines(lines, parse, "").text
  {
    fullText := "";
    var stop := Exhausted;
    var i := 0;
    while i < |lines|
      invariant 0 <= i <= |lines|
      invariant ScanLines(lines[i..], parse, fullText) == ScanLines(lines, parse, "")
    {
      var raw := lines[i];
      assert lines[i..][0] == raw && lines[i..][1..] == lines[i + 1..];
      if raw != Line("") {
        if raw.Undecodable? {
          stop := Raised;
          break;
        }
        var line := raw.text;
        if StartsWith(line, DataPrefix) {
          var dataStr := line[|DataPrefix|..];
          if dataStr == DoneSentinel {
            stop := SawDone;
            break;
          }
          match parse(dataStr) {
            case NotJson =>
            case WithoutText =>
              stop := Raised;
              break;
            case WithText(text) =>
              fullText := fullText + text;
          }
        }
      }
      i := i + 1;
    }
    passed := if stop == Raised then false else if stop == Exhausted && readFails then false else true;
  }

  /** The line that carries the end-of-stream sentinel. */
  const DoneLine: RawLine := Line(DataPrefix + DoneSentinel)

  /** Running the loop over `a + b` is running it over `a`, then, if `a` did not stop it, over `b`. */
  lemma {:induction false} ScanAppend(a: seq<RawLine>, b: seq<RawLine>, parse: string -> JsonPayload, acc: string)
    ensures ScanLines(a + b, parse, acc)
            == (var first := ScanLines(a, parse, acc);
                if first.stop == Exhausted then ScanLines(b, parse, first.text) else first)
    decreases |a|
  {
    if a == [] {
      assert a + b == b;
    } else {
      assert (a + b)[0] == a[0] && (a + b)[1..] == a[1..] + b;
      match Classify(a[0], parse)
      case Skip => ScanAppend(a[1..], b, parse, acc);
      case Append(x) => ScanAppend(a[1..], b, parse, acc + x);
      case Halt(_) =>
    }
  }

  /** The `[DONE]` line stops the loop: no later line has any effect. */
  lemma DoneStopsScan(a: seq<RawLine>, b: seq<RawLine>, parse: string -> JsonPayload)
    ensures ScanLines(a + [DoneLine] + b, parse, "") == ScanLines(a + [DoneLine], parse, "")
    ensures ScanLines(a, parse, "").stop == Exhausted ==>
              ScanLines(a + [DoneLine], parse, "") == Scan(ScanLines(a, parse, "").text, SawDone)
  {
    PayloadOfDataLine(DoneSentinel);
    ScanAppend(a, [DoneLine] + b, parse, "");
    ScanAppend(a, [DoneLine], parse, "");
    assert a + [DoneLine] + b == a + ([DoneLine] + b);
  }

  /** A line the loop skips can be removed without changing the outcome. */
  lemma SkippedLineNoEffect(a: seq<RawLine>, line: RawLine, b: seq<RawLine>, parse: string -> JsonPayload)
    requires Classify(line, parse) == Skip
    ensures ScanLines(a + [line] + b, parse, "") == ScanLines(a + b, parse, "")
  {
    ScanAppend(a, [line] + b, parse, "");
    ScanAppend(a, b, parse, "");
    assert a + [line] + b == a + ([line] + b);
    assert ([line] + b)[1..] == b;
  }

  /** Lines that are not data lines (blank lines, comments, other fields) have no effect. */
  lemma NonDataLineIgnored(a: seq<RawLine>, t: string, b: seq<RawLine>, parse: string -> JsonPayload)
    requires !StartsWith(t, DataPrefix)
    ensures ScanLines(a + [Line(t)] + b, parse, "") == ScanLines(a + b, parse, "")
  {
    SkippedLineNoEffect(a, Line(t), b, parse);
  }

  /** A data payload that is not JSON has no effect on the text or on the verdict. */
  lemma NotJsonPayloadIgnored(a: seq<RawLine>, p: string, b: seq<RawLine>, readFails: bool, parse: string -> JsonPayload)
    requires p != DoneSentinel && parse(p) == NotJson
    ensures ScanLines(a + [Line(DataPrefix + p)] + b, parse, "") == ScanLines(a + b, parse, "")
    ensures StreamingPasses(a + [Line(DataPrefix + p)] + b, readFails, parse) == StreamingPasses(a + b, readFails, parse)
  {
    PayloadOfDataLine(p);
    SkippedLineNoEffect(a, Line(DataPrefix + p), b, parse);
  }

  /** A line that neither stops the loop nor raises: it decodes and is not `[DONE]` or a payload without text. */
  predicate Benign(line: RawLine, parse: string -> JsonPayload) {
    line.Line?
    && (Payload(line.text).Some? ==>
          Payload(line.text).value != DoneSentinel && !parse(Payload(line.text).value).WithoutText?)
  }

  /** The `choices[0].text` a data line carries: one text, or none. */
  function LineTexts(line: RawLine, parse: string -> JsonPayload): seq<string> {
    if line.Line? && Payload(line.text).Some? && parse(Payload(line.text).value).WithText?
    then [parse(Payload(line.text).value).text] else []
  }

  /** The `choices[0].text` of every data line that has one, in order (reference definition). */
  function DataTexts(lines: seq<RawLine>, parse: string -> JsonPayload): seq<string> {
    if lines == [] then [] else LineTexts(lines[0], parse) + DataTexts(lines[1..], parse)
  }

  /** A benign line lets the loop go on, adding its text if it has one. */
  lemma BenignStep(lines: seq<RawLine>, parse: string -> JsonPayload, acc: string)
    requires lines != [] && Benign(lines[0], parse)
    ensures ScanLines(lines, parse, acc) == ScanLines(lines[1..], parse, acc + Concat(LineTexts(lines[0], parse)))
  {
    var texts := LineTexts(lines[0], parse);
    if texts == [] {
      assert acc + Concat(texts) == acc;
    } else {
      assert texts[..0] == [];
      assert Concat(texts) == texts[0];
    }
  }

  /** Over benign lines the loop runs to the end and gathers exactly the data texts, in order. */
  lemma {:induction false} BenignScan(lines: seq<RawLine>, parse: string -> JsonPayload, acc: string)
    requires forall k :: 0 <= k < |lines| ==> Benign(lines[k], parse)
    ensures ScanLines(lines, parse, acc) == Scan(acc + Concat(DataTexts(lines, parse)), Exhausted)
  {
    if lines != [] {
      var first, rest := Concat(LineTexts(lines[0], parse)), DataTexts(lines[1..], parse);
      BenignStep(lines, parse, acc);
      BenignScan(lines[1..], parse, acc + first);
      ConcatAppend(LineTexts(lines[0], parse), rest);
      AppendAssoc(acc, first, Concat(rest));
    }
  }

  /**
   * Without `[DONE]` and with nothing raising, the test passes and has
   * gathered every text in order; the text itself never decides the verdict.
   */
  lemma PassesWithoutDone(lines: seq<RawLine>, parse: string -> JsonPayload)
    requires forall k :: 0 <= k < |lines| ==> Benign(lines[k], parse)
    ensures StreamingPasses(lines, false, parse)
    ensures ScanLines(lines, parse, "").text == Concat(DataTexts(lines, parse))
  {
    BenignScan(lines, parse, "");
  }

  /** Without `[DONE]`, an exception while reading past the last line makes the test fail. */
  lemma FailsOnReadErrorWithoutDone(lines: seq<RawLine>, parse: string -> JsonPayload)
    requires forall k :: 0 <= k < |lines| ==> Benign(lines[k], parse)
    ensures !StreamingPasses(lines, true, parse)
  {
    BenignScan(lines, parse, "");
  }

  /** Once `[DONE]` is read the test passes, whatever follows and even if reading on would fail. */
  lemma PassesAtDone(a: seq<RawLine>, b: seq<RawLine>, readFails: bool, parse: string -> JsonPayload)
    requires forall k :: 0 <= k < |a| ==> Benign(a[k], parse)
    ensures StreamingPasses(a + [DoneLine] + b, readFails, parse)
    ensures ScanLines(a + [DoneLine] + b, parse, "").text == Concat(DataTexts(a, parse))
  {
    BenignScan(a, parse, "");
    DoneStopsScan(a, b, parse);
  }

  /** A decodable payload without `choices[0].text` (before `[DONE]`) makes the test fail. */
  lemma FailsOnPayloadWithoutText(a: seq<RawLine>, p: string, b: seq<RawLine>, readFails: bool, parse: string -> JsonPayload)
    requires forall k :: 0 <= k < |a| ==> Benign(a[k], parse)
    requires p != DoneSentinel && parse(p) == WithoutText
    ensures !StreamingPasses(a + [Line(DataPrefix + p)] + b, readFails, parse)
  {
    BenignScan(a, parse, "");
    PayloadOfDataLine(p);
    ScanAppend(a, [Line(DataPrefix + p)] + b, parse, "");
    assert a + [Line(DataPrefix + p)] + b == a + ([Line(DataPrefix + p)] + b);
  }

  // ---------------------------------------------------------------------------
  // Health check and model listing

  /** The outcome of one `requests.get`: a status code, or a `RequestException`. */
  datatype HttpReply = Reply(status: int) | RequestFailed

  /** `check_health`: healthy exactly on status 200; any other status or a request error is unhealthy. */
  function CheckHealth(reply: HttpReply): (healthy: bool)
    ensures healthy <==> reply.Reply? && reply.status == 200
  {
    match reply
    case RequestFailed => false
    case Reply(status) => if status == 200 then true else false
  }

  /** The "id" member of a model entry: absent, JSON null, or a string. */
  datatype IdField = NoId | NullId | IdText(text: string)

  /** An entry of the "data" list: a JSON object with its "id" member, or any other JSON value. */
  datatype ModelCard = Card(id: IdField) | NonObjectCard

  /** Every entry is a JSON object, so `model.get('id')` succeeds on each of them. */
  predicate AllCards(entries: seq<ModelCard>) {
    forall k :: 0 <= k < |entries| ==> entries[k].Card?
  }

  /**
   * The decoded body of `GET /v1/models`: not JSON (which `requests` reports
   * as a `RequestException`), a JSON value that is not an object, or an
   * object with or without a "data" list.
   */
  datatype ModelsBody = Unparsable | NotAnObject | Object(data: Option<seq<ModelCard>>)

  /** What `list_models` does: a list, None, or an exception that escapes it. */
  datatype ModelList = Models(models: seq<ModelCard>) | NoList | Crashed

  /**
   * `list_models`. Printing each entry's id calls `get` on it, so an entry
   * that is not a JSON object raises an `AttributeError`, which escapes.
   */
  function ListModels(reply: HttpReply, body: ModelsBody): (r: ModelList)
    ensures r.Models? <==> reply == Reply(200) && body.Object? && AllCards(body.data.GetOr([]))
    ensures r.Models? ==> r.models == (if body.data.Some? then body.data.value else [])
    ensures r.Models? ==> AllCards(r.models)
    ensures r.Crashed? <==>
              reply == Reply(200)
              && (body.NotAnObject? || (body.Object? && !AllCards(body.data.GetOr([]))))
    ensures r.NoList? <==> reply != Reply(200) || body.Unparsable?
  {
    match reply
    case RequestFailed => NoList
    case Reply(status) =>
      if status != 200 then NoList
      else match body
        case Unparsable => NoList
        case NotAnObject => Crashed
        case Object(data) =>
          var entries := data.GetOr([]);
          if AllCards(entries) then Models(entries) else Crashed
  }

  /**
   * The model `main` tests: `models[0]["id"]`, which is None for a JSON null
   * id. The result is None when `main` exits instead: an empty or missing
   * listing, or a first entry without an "id" key (a `KeyError`).
   */
  function ChosenModel(listing: ModelList): (r: Option<Option<string>>)
    ensures r.Some? <==>
              listing.Models? && |listing.models| > 0
              && listing.models[0].Card? && !listing.models[0].id.NoId?
    ensures r == Some(None) <==>
              listing.Models? && |listing.models| > 0 && listing.models[0] == Card(NullId)
    ensures r.Some? && r.value.Some? ==> listing.models[0] == Card(IdText(r.value.value))
  {
    if listing.Models? && |listing.models| > 0 then
      match listing.models[0]
      case NonObjectCard => None
      case Card(NoId) => None
      case Card(NullId) => Some(None)
      case Card(IdText(t)) => Some(Some(t))
    else None
  }

  // ---------------------------------------------------------------------------
  // The suite

  /** The number of passed tests among `results`. */
  function CountPassed(results: seq<bool>): (n: nat)
    ensures n <= |results|
    ensures n == |results| <==> forall k :: 0 <= k < |results| ==> results[k]
  {
    if results == [] then 0
    else CountPassed(results[..|results| - 1]) + (if results[|results| - 1] then 1 else 0)
  }

  /**
   * `main`: stops with status 1 unless the service is healthy and lists a
   * model with an id; then runs the completion, chat and streaming tests,
   * counting each, and exits 0 exactly when all three passed. The
   * performance test runs last and does not enter the count.
   */
  method RunSuite(health: HttpReply, modelsReply: HttpReply, modelsBody: ModelsBody,
                  completionPassed: bool, chatPassed: bool,
                  streamLines: seq<RawLine>, streamReadFails: bool, parse: string -> JsonPayload)
    returns (exitCode: int, successCount: nat, totalTests: nat)
    ensures exitCode == 0 || exitCode == 1
    ensures successCount <= totalTests <= 3
    ensures totalTests == 0 || totalTests == 3
    ensures totalTests == 0 ==> successCount == 0 && exitCode == 1
    ensures totalTests == 3 <==> CheckHealth(health) && ChosenModel(ListModels(modelsReply, modelsBody)).Some?
    ensures totalTests == 3 ==>
              successCount == CountPassed([completionPassed, chatPassed,
                                           StreamingPasses(streamLines, streamReadFails, parse)])
    ensures exitCode == 0 <==>
              totalTests == 3 && completionPassed && chatPassed
              && StreamingPasses(streamLines, streamReadFails, parse)
  {
    successCount, totalTests := 0, 0;
    if !CheckHealth(health) {
      return 1, successCount, totalTests;
    }
    var listing := ListModels(modelsReply, modelsBody);
    if listing.Crashed? {
      // the exception escapes main: the interpreter exits with status 1
      return 1, successCount, totalTests;
    }
    if listing.NoList? || |listing.models| == 0 {
      return 1, successCount, totalTests;
    }
    if ChosenModel(listing).None? {
      // models[0]["id"] raises KeyError
      return 1, successCount, totalTests;
    }

    totalTests := totalTests + 1;
    if completionPassed {
      successCount := successCount + 1;
    }
    totalTests := totalTests + 1;
    if chatPassed {
      successCount := successCount + 1;
    }
    totalTests := totalTests + 1;
    var streamingPassed, _ := TestStreaming(streamLines, streamReadFails, parse);
    if streamingPassed {
      successCount := successCount + 1;
    }
    ghost var results := [completionPassed, chatPassed, streamingPassed];
    assert results[..2][..1] == [completionPassed] && results[..1][..0] == [];
    assert CountPassed(results) == CountPassed(results[..2]) + (if streamingPassed then 1 else 0);
    assert CountPassed(results[..2]) == CountPassed(results[..1]) + (if chatPassed then 1 else 0);
    assert CountPassed(results[..1]) == if completionPassed then 1 else 0;

    exitCode := if successCount == totalTests then 0 else 1;
  }
}
