/** The event stream between the server's frame printer
    (backend/app/api/observability.py, `_sse_generator`) and the client's
    incremental line parser (frontend/lib/api.ts, `AuthenticatedEventSource`). */
module EventStream {
  import opened Wrappers
  import opened Collections
  import opened Text

  // ----- Lines -----

  /** `text.split("\n")`: never empty; the last element is what follows the last
      newline. */
  function Lines(text: string): (lines: seq<string>)
    ensures lines != []
  {
    if text == "" then [""]
    else
      var rest := Lines(text[1..]);
      if text[0] == '\n' then [""] + rest else [[text[0]] + rest[0]] + rest[1..]
  }

  /** The unfinished last line. */
  function Rest(text: string): string {
    Lines(text)[|Lines(text)| - 1]
  }

  /** The finished lines. */
  function Complete(text: string): seq<string> {
    Lines(text)[..|Lines(text)| - 1]
  }

  /** What a line delivers: the text after `data: `. */
  function DataOf(line: string): seq<string> {
    if "data: " <= line then [line[6..]] else []
  }

  /** What a text delivers: the data of its finished lines. */
  function Deliveries(text: string): seq<string> {
    FlatMap(DataOf, Complete(text))
  }

  /** Splitting at a newline: the lines on both sides. */
  lemma {:induction false} LinesJoin(a: string, b: string)
    ensures Lines(a + "\n" + b) == Lines(a) + Lines(b)
  {
    var text := a + "\n" + b;
    if a == "" {
      assert text[1..] == b;
    } else {
      assert text[1..] == a[1..] + "\n" + b;
      LinesJoin(a[1..], b);
    }
  }

  /** Splitting a concatenation: the unfinished line goes on with the new text. */
  lemma {:induction false} LinesConcat(a: string, b: string)
    ensures Lines(a + b) == Complete(a) + Lines(Rest(a) + b)
  {
    if a == "" {
      assert a + b == b && Rest(a) + b == b;
    } else {
      assert (a + b)[1..] == a[1..] + b;
      LinesConcat(a[1..], b);
      if a[0] != '\n' && |Lines(a[1..])| == 1 {
        assert (Rest(a) + b)[1..] == Rest(a[1..]) + b;
      }
    }
  }

  lemma {:induction false} NoNewline(text: string)
    ensures '\n' !in text <==> Lines(text) == [text]
  {
    if text == "" {
      assert Lines(text) == [text];
    } else {
      var rest := Lines(text[1..]);
      NoNewline(text[1..]);
      assert text == [text[0]] + text[1..];
      assert '\n' in text <==> text[0] == '\n' || '\n' in text[1..];
      if text[0] == '\n' {
        assert |Lines(text)| == 1 + |rest|;
      } else {
        assert Lines(text)[0] == [text[0]] + rest[0] && |Lines(text)| == |rest|;
        assert Lines(text)[0] == text <==> rest[0] == text[1..] by { assert Lines(text)[0][1..] == rest[0]; }
        assert rest == [text[1..]] <==> |rest| == 1 && rest[0] == text[1..];
      }
    }
  }

  /** Delivering at a newline: the lines before it, then what follows. */
  lemma DeliveriesJoin(a: string, b: string)
    ensures Deliveries(a + "\n" + b) == FlatMap(DataOf, Lines(a)) + Deliveries(b)
    ensures Rest(a + "\n" + b) == Rest(b)
  {
    LinesJoin(a, b);
    assert Complete(a + "\n" + b) == Lines(a) + Complete(b);
    FlatMapConcat(DataOf, Lines(a), Complete(b));
  }

  /** Incremental parsing: what more text delivers, and what is left over. */
  lemma DeliveriesConcat(a: string, b: string)
    ensures Deliveries(a + b) == Deliveries(a) + Deliveries(Rest(a) + b)
    ensures Rest(a + b) == Rest(Rest(a) + b)
  {
    LinesConcat(a, b);
    assert Complete(a + b) == Complete(a) + Complete(Rest(a) + b);
    FlatMapConcat(DataOf, Complete(a), Complete(Rest(a) + b));
  }

  // ----- The client -----

  function Concat(chunks: seq<string>): string {
    FlatMap((chunk: string) => chunk, chunks)
  }

  /** What `fetch` and the reader come to. */
  datatype Connection =
    | Unreached(aborted: bool)
    | NotOk
    | NoBody
    | Body(chunks: seq<string>, end: StreamEnd)

  datatype StreamEnd = Done | Aborted | Broken

  /** `delivered` holds the data passed to the message handler, `openings` and
      `errors` count the calls of the other two. */
  class AuthenticatedEventSource {
    var buffer: string
    var delivered: seq<string>
    var readyState: int
    var openings: nat
    var errors: nat

    constructor ()
      ensures buffer == "" && delivered == [] && readyState == 0 && openings == 0 && errors == 0
    {
      buffer, delivered, readyState, openings, errors := "", [], 0, 0, 0;
    }

    /** One read. */
    method Receive(chunk: string)
      modifies this`buffer, this`delivered
      ensures buffer == Rest(old(buffer) + chunk)
      ensures delivered == old(delivered) + Deliveries(old(buffer) + chunk)
    {
      buffer := buffer + chunk;
      var lines := Lines(buffer);
      ghost var complete := Complete(buffer);
      buffer := lines[|lines| - 1];
      lines := lines[..|lines| - 1];
      var i := 0;
      while i < |lines|
        invariant 0 <= i <= |lines| && lines == complete && buffer == Rest(old(buffer) + chunk)
        invariant delivered == old(delivered) + FlatMap(DataOf, lines[..i])
      {
        var line := lines[i];
        assert lines[..i + 1][..i] == lines[..i];
        if "data: " <= line {
          delivered := delivered + [line[6..]];
        }
        i := i + 1;
      }
      assert lines[..|lines|] == lines;
    }

    /** However the stream is cut into chunks, and wherever it ends, the client
        delivers the data of the finished lines of what has arrived. */
    method Connect(connection: Connection)
      requires buffer == "" && delivered == [] && readyState == 0 && openings == 0 && errors == 0
      modifies this
      ensures readyState == 2
      ensures connection.Body? ==>
                delivered == Deliveries(Concat(connection.chunks)) && buffer == Rest(Concat(connection.chunks))
      ensures !connection.Body? ==> delivered == []
      ensures openings == if connection.Unreached? || connection.NotOk? then 0 else 1
      ensures errors == match connection
                        case Unreached(aborted) => if aborted then 0 else 1
                        case Body(_, end) => if end.Broken? then 1 else 0
                        case _ => 1
    {
      if connection.Unreached? {
        if !connection.aborted {
          errors := errors + 1;
        }
        readyState := 2;
        return;
      }
      if connection.NotOk? {
        readyState := 2;
        errors := errors + 1;
        return;
      }
      readyState := 1;
      openings := openings + 1;
      if connection.NoBody? {
        readyState := 2;
        errors := errors + 1;
        return;
      }
      var chunks := connection.chunks;
      for i := 0 to |chunks|
        invariant buffer == Rest(Concat(chunks[..i])) && delivered == Deliveries(Concat(chunks[..i]))
        invariant openings == 1 && errors == 0
      {
        assert chunks[..i + 1][..i] == chunks[..i];
        DeliveriesConcat(Concat(chunks[..i]), chunks[i]);
        Receive(chunks[i]);
      }
      assert chunks[..|chunks|] == chunks;
      if connection.end.Broken? {
        errors := errors + 1;
      }
      readyState := 2;
    }
  }

  // ----- The server -----

  /** An event of the broadcaster; `json` is its JSON text. */
  datatype Event = Event(eventType: Option<string>, json: string)

  function TypeOf(e: Event, default: string): string {
    if e.eventType.Some? then e.eventType.value else default
  }

  function Frame(e: Event): string {
    "event: " + TypeOf(e, "message") + "\ndata: " + e.json + "\n\n"
  }

  function TypeLine(e: Event): string {
    "event: " + TypeOf(e, "message")
  }

  function DataLine(e: Event): string {
    "data: " + e.json
  }

  lemma FrameText(e: Event, rest: string)
    ensures Frame(e) == TypeLine(e) + "\n" + DataLine(e) + "\n\n"
    ensures Frame(e) + rest == TypeLine(e) + "\n" + (DataLine(e) + "\n" + ("" + "\n" + rest))
    ensures |Frame(e)| == |TypeLine(e)| + |DataLine(e)| + 3
  {
    assert "\ndata: " == "\n" + "data: ";
    assert "\n\n" + rest == "\n" + ("" + "\n" + rest);
  }

  predicate Passes(progressOnly: bool, e: Event) {
    progressOnly ==> "evaluation." <= TypeOf(e, "")
  }

  /** The events before the first one at which the request is disconnected. */
  function BeforeDisconnect(events: seq<Event>, disconnected: nat -> bool, i: nat): seq<Event>
    requires i <= |events|
    decreases |events| - i
  {
    if i == |events| || disconnected(i) then events[..i] else BeforeDisconnect(events, disconnected, i + 1)
  }

  function Payload(e: Event): string { e.json }

  /** The text the server sends for a list of events. */
  function Stream(events: seq<Event>): string {
    FlatMap(Frame, events)
  }

  /** What the generator sends: the events before a disconnection that pass. */
  function Sent(events: seq<Event>, disconnected: nat -> bool, progressOnly: bool): seq<Event> {
    Filter(e => Passes(progressOnly, e), BeforeDisconnect(events, disconnected, 0))
  }

  /** The first index at which the request is disconnected, or the number of events. */
  ghost predicate DisconnectsAt(disconnected: nat -> bool, events: seq<Event>, d: nat) {
    d <= |events| && (d < |events| ==> disconnected(d)) && forall i: nat :: i < d ==> !disconnected(i)
  }

  /** The events of a type that begins with `evaluation.`, in order. */
  function EvaluationEvents(events: seq<Event>): seq<Event> {
    Filter((e: Event) => e.eventType.Some? && "evaluation." <= e.eventType.value, events)
  }

  lemma {:induction false} StopsAt(events: seq<Event>, disconnected: nat -> bool, i: nat, d: nat)
    requires i <= d && DisconnectsAt(disconnected, events, d)
    ensures BeforeDisconnect(events, disconnected, i) == events[..d]
    decreases d - i
  {
    if i < d { StopsAt(events, disconnected, i + 1, d); }
  }

  lemma {:induction false} AllPass(events: seq<Event>)
    ensures Filter((e: Event) => Passes(false, e), events) == events
  {
    if events == [] {
    } else {
      AllPass(events[..|events| - 1]);
      assert events == events[..|events| - 1] + [events[|events| - 1]];
    }
  }

  /** What is sent: everything before the disconnection, or all evaluation events of it
      in a progress stream. */
  lemma SentExactly(events: seq<Event>, disconnected: nat -> bool, progressOnly: bool, d: nat)
    requires DisconnectsAt(disconnected, events, d)
    ensures Sent(events, disconnected, progressOnly)
         == if progressOnly then EvaluationEvents(events[..d]) else events[..d]
  {
    StopsAt(events, disconnected, 0, d);
    if progressOnly {
      FilterSame((e: Event) => Passes(true, e), (e: Event) => e.eventType.Some? && "evaluation." <= e.eventType.value,
                 events[..d]);
    } else {
      AllPass(events[..d]);
    }
  }

  lemma Disconnects(disconnected: nat -> bool, events: seq<Event>) returns (d: nat)
    ensures DisconnectsAt(disconnected, events, d)
  {
    d := 0;
    while d < |events| && !disconnected(d)
      invariant d <= |events| && forall i: nat :: i < d ==> !disconnected(i)
    {
      d := d + 1;
    }
  }

  /** The frames of the events before the disconnection, in a progress stream of the
      evaluation events among them. */
  method SseGenerator(events: seq<Event>, disconnected: nat -> bool, progressOnly: bool)
    returns (frames: seq<string>)
    ensures frames == Map(Frame, Sent(events, disconnected, progressOnly))
    ensures exists d: nat :: DisconnectsAt(disconnected, events, d)
                        && frames == Map(Frame, if progressOnly then EvaluationEvents(events[..d]) else events[..d])
  {
    ghost var d := Disconnects(disconnected, events);
    SentExactly(events, disconnected, progressOnly, d);
    frames := [];
    ghost var p := (e: Event) => Passes(progressOnly, e);
    var i := 0;
    while i < |events|
      invariant 0 <= i <= |events|
      invariant frames == Map(Frame, Filter(p, events[..i]))
      invariant BeforeDisconnect(events, disconnected, 0) == BeforeDisconnect(events, disconnected, i)
    {
      if disconnected(i) {
        break;
      }
      assert events[..i + 1][..i] == events[..i];
      if progressOnly && !("evaluation." <= TypeOf(events[i], "")) {
        i := i + 1;
        continue;
      }
      frames := frames + [Frame(events[i])];
      i := i + 1;
    }
  }

  // ----- Printer and parser agree -----

  lemma EmptyLine(rest: string)
    ensures Deliveries("" + "\n" + rest) == Deliveries(rest)
  {
    DeliveriesJoin("", rest);
    FoldSingleton(DataOf, (line: string) => 0, "");
    assert FlatMap(DataOf, Lines("")) == [];
  }

  lemma Regroup(a: seq<string>, b: seq<string>, c: seq<string>)
    ensures a + (b + c) == a + b + c
  {
  }

  lemma LinesDeliver(a: string, b: string, rest: string)
    ensures Deliveries(a + "\n" + (b + "\n" + ("" + "\n" + rest)))
         == FlatMap(DataOf, Lines(a)) + FlatMap(DataOf, Lines(b)) + Deliveries(rest)
  {
    var empty := "" + "\n" + rest;
    EmptyLine(rest);
    DeliveriesJoin(b, empty);
    DeliveriesJoin(a, b + "\n" + empty);
    Regroup(FlatMap(DataOf, Lines(a)), FlatMap(DataOf, Lines(b)), Deliveries(rest));
  }

  /** What a frame delivers, whatever its type and text contain: the data lines
      hidden in the type, then those of the text. */
  lemma FrameDelivers(e: Event, rest: string)
    ensures Deliveries(Frame(e) + rest)
         == FlatMap(DataOf, Lines(TypeLine(e)))
          + FlatMap(DataOf, Lines(DataLine(e))) + Deliveries(rest)
  {
    FrameText(e, rest);
    LinesDeliver(TypeLine(e), DataLine(e), rest);
  }

  const HIDDEN := "\ndata: "

  /** The type of an event hides no data line. */
  predicate QuietType(e: Event) {
    !Contains(TypeOf(e, "message"), HIDDEN)
  }

  /** The first line goes up to the first newline. */
  lemma {:induction false} FirstLine(text: string)
    ensures var first := Lines(text)[0]; first <= text && '\n' !in first && (first == text || text[|first|] == '\n')
  {
    if text == "" {
    } else {
      FirstLine(text[1..]);
      assert text == [text[0]] + text[1..];
    }
  }

  lemma FirstLineStarts(text: string)
    ensures "data: " <= Lines(text)[0] <==> "data: " <= text
  {
    FirstLine(text);
    assert forall k :: 0 <= k < 6 ==> "data: "[k] != '\n';
    assert "data: " <= text ==> forall k :: 0 <= k < 6 ==> text[k] == "data: "[k];
  }

  ghost predicate NoDataIn(lines: seq<string>) {
    forall k :: 0 <= k < |lines| ==> !("data: " <= lines[k])
  }

  ghost predicate NothingHidden(text: string) {
    forall i: nat :: !OccursAt(text, HIDDEN, i)
  }

  lemma OccursInTail(text: string, i: nat)
    requires text != ""
    ensures OccursAt(text, HIDDEN, 0) <==> text[0] == '\n' && "data: " <= text[1..]
    ensures OccursAt(text, HIDDEN, i + 1) <==> OccursAt(text[1..], HIDDEN, i)
  {
    assert HIDDEN == ['\n'] + "data: ";
    if |text| >= 7 { assert text[0..7] == [text[0]] + text[1..][..6]; }
    if i + 8 <= |text| { assert text[i + 1..i + 8] == text[1..][i..i + 7]; }
  }

  lemma HiddenInTail(text: string)
    requires text != ""
    ensures NothingHidden(text) <==> !(text[0] == '\n' && "data: " <= text[1..]) && NothingHidden(text[1..])
  {
    OccursInTail(text, 0);
    if !NothingHidden(text) {
      var i: nat :| OccursAt(text, HIDDEN, i);
      if i > 0 { OccursInTail(text, i - 1); }
    } else {
      forall i: nat ensures !OccursAt(text[1..], HIDDEN, i) {
        assert !OccursAt(text, HIDDEN, i + 1);
        OccursInTail(text, i);
      }
    }
  }

  lemma NoDataCons(line: string, lines: seq<string>)
    ensures NoDataIn([line] + lines) <==> !("data: " <= line) && NoDataIn(lines)
  {
    var all := [line] + lines;
    if NoDataIn(all) {
      assert all[0] == line;
      forall k | 0 <= k < |lines| ensures !("data: " <= lines[k]) { assert lines[k] == all[k + 1]; }
    } else {
      var k :| 0 <= k < |all| && "data: " <= all[k];
      if k > 0 { assert all[k] == lines[k - 1]; }
    }
  }

  /** A line behind the first one has data exactly where a newline is followed by
      the marker. */
  lemma {:induction false} DataBehindFirst(text: string)
    ensures NoDataIn(Lines(text)[1..]) <==> NothingHidden(text)
  {
    if text == "" {
      assert Lines(text)[1..] == [];
    } else {
      var lines := Lines(text[1..]);
      DataBehindFirst(text[1..]);
      FirstLineStarts(text[1..]);
      HiddenInTail(text);
      if text[0] == '\n' {
        assert Lines(text)[1..] == lines == [lines[0]] + lines[1..];
        NoDataCons(lines[0], lines[1..]);
      } else {
        assert Lines(text)[1..] == lines[1..];
      }
    }
  }

  lemma {:induction false} NoData(lines: seq<string>)
    ensures FlatMap(DataOf, lines) == [] <==> NoDataIn(lines)
  {
    if lines == [] {
    } else {
      var n := |lines| - 1;
      NoData(lines[..n]);
      assert FlatMap(DataOf, lines) == FlatMap(DataOf, lines[..n]) + DataOf(lines[n]);
      assert forall k :: 0 <= k < n ==> lines[..n][k] == lines[k];
    }
  }

  lemma OccursInType(e: Event, i: nat)
    ensures OccursAt(TypeLine(e), HIDDEN, i) <==> i >= 7 && OccursAt(TypeOf(e, "message"), HIDDEN, i - 7)
  {
    var line, t := TypeLine(e), TypeOf(e, "message");
    if i + 7 <= |line| {
      assert line[i..i + 7][0] == line[i];
      if i >= 7 { assert line[i..i + 7] == t[i - 7..i]; } else { assert line[i] == "event: "[i]; }
    }
  }

  /** The printed type line has data exactly when the type has a newline followed
      by the marker. */
  lemma QuietExactly(e: Event)
    ensures FlatMap(DataOf, Lines(TypeLine(e))) == [] <==> QuietType(e)
  {
    var line, t := TypeLine(e), TypeOf(e, "message");
    var lines := Lines(line);
    NoData(lines);
    NoDataCons(lines[0], lines[1..]);
    assert lines == [lines[0]] + lines[1..];
    DataBehindFirst(line);
    FirstLineStarts(line);
    assert line[0] == 'e' && "data: "[0] == 'd';
    FindsFirst(t, HIDDEN);
    forall i: nat ensures OccursAt(line, HIDDEN, i) <==> i >= 7 && OccursAt(t, HIDDEN, i - 7) { OccursInType(e, i); }
    if !QuietType(e) {
      assert OccursAt(line, HIDDEN, Find(t, HIDDEN).value + 7);
    }
  }

  lemma PlainTypeIsQuiet(e: Event)
    requires '\n' !in TypeOf(e, "message")
    ensures QuietType(e) && FlatMap(DataOf, Lines(TypeLine(e))) == []
  {
    var t := TypeOf(e, "message");
    forall i: nat ensures !OccursAt(t, HIDDEN, i) {
      if i + 7 <= |t| { assert t[i..i + 7][0] == t[i] && t[i] in t; }
    }
    FindsFirst(t, HIDDEN);
    QuietExactly(e);
  }

  lemma JsonDelivers(e: Event)
    requires '\n' !in e.json
    ensures FlatMap(DataOf, Lines(DataLine(e))) == [e.json]
  {
    var line := DataLine(e);
    assert forall c :: c in line ==> c in "data: " || c in e.json;
    NoNewline(line);
    assert line[6..] == e.json;
    FoldSingleton(DataOf, (l: string) => 0, line);
  }

  /** A printed stream ends at the start of a line. */
  lemma StreamEnds(events: seq<Event>)
    ensures Rest(Stream(events)) == ""
  {
    if events != [] {
      var n := |events| - 1;
      FrameText(events[n], "");
      var body := Stream(events[..n]) + (TypeLine(events[n]) + "\n" + (DataLine(events[n]) + "\n"));
      assert Stream(events) == body + "\n" + "";
      DeliveriesJoin(body, "");
    }
  }

  /** What one more frame delivers. */
  lemma StreamOneMore(events: seq<Event>, e: Event)
    requires '\n' !in e.json
    ensures Deliveries(Stream(events + [e]))
         == Deliveries(Stream(events)) + FlatMap(DataOf, Lines(TypeLine(e))) + [e.json]
  {
    var before := Stream(events);
    assert (events + [e])[..|events|] == events;
    StreamEnds(events);
    DeliveriesConcat(before, Frame(e));
    assert Rest(before) + Frame(e) == Frame(e) + "";
    FrameDelivers(e, "");
    JsonDelivers(e);
    assert Deliveries("") == [];
  }

  lemma DeliveriesMatch(before: seq<string>, hidden: seq<string>, json: string, payloads: seq<string>)
    requires |before| >= |payloads| && (|before| == |payloads| ==> before == payloads)
    ensures |before + hidden + [json]| >= |payloads + [json]|
    ensures before + hidden + [json] == payloads + [json] <==> |before| == |payloads| && hidden == []
    ensures |before + hidden + [json]| == |payloads + [json]| <==> |before| == |payloads| && hidden == []
  {
  }

  ghost predicate AllQuiet(events: seq<Event>) {
    forall e :: e in events ==> QuietType(e)
  }

  lemma QuietSnoc(events: seq<Event>, e: Event)
    ensures AllQuiet(events + [e]) <==> AllQuiet(events) && QuietType(e)
  {
    assert forall x :: x in events + [e] <==> x in events || x == e;
  }

  lemma {:induction false} StreamCount(events: seq<Event>)
    requires forall e :: e in events ==> '\n' !in e.json
    ensures |Deliveries(Stream(events))| >= |events|
    ensures Deliveries(Stream(events)) == Map(Payload, events) <==> AllQuiet(events)
    ensures |Deliveries(Stream(events))| == |events| <==> AllQuiet(events)
  {
    if events == [] {
      assert Deliveries(Stream(events)) == Map(Payload, events) == [];
    } else {
      var n := |events| - 1;
      var init, e := events[..n], events[n];
      assert events == init + [e];
      assert forall x :: x in init ==> x in events;
      StreamCount(init);
      QuietSnoc(init, e);
      QuietExactly(e);
      StreamOneMore(init, e);
      assert Map(Payload, events) == Map(Payload, init) + [e.json];
      DeliveriesMatch(Deliveries(Stream(init)), FlatMap(DataOf, Lines(TypeLine(e))), e.json, Map(Payload, init));
    }
  }

  /** The client delivers exactly the payloads, in order, if and only if no event
      type hides a data line; types without newlines never do.  JSON text has no
      raw newline (section 7 of RFC 8259). */
  lemma StreamDelivers(events: seq<Event>)
    requires forall e :: e in events ==> '\n' !in e.json
    ensures Deliveries(Stream(events)) == Map(Payload, events) <==> forall e :: e in events ==> QuietType(e)
    ensures (forall e :: e in events ==> '\n' !in TypeOf(e, "message")) ==>
              Deliveries(Stream(events)) == Map(Payload, events)
  {
    StreamCount(events);
    forall e | e in events && '\n' !in TypeOf(e, "message") ensures QuietType(e) {
      PlainTypeIsQuiet(e);
    }
  }

  lemma HiddenLine(plain: Event, payload: Event)
    requires '\n' !in TypeOf(plain, "message") && '\n' !in payload.json
    ensures FlatMap(DataOf, Lines(TypeLine(plain) + "\n" + DataLine(payload))) == [payload.json]
  {
    LinesJoin(TypeLine(plain), DataLine(payload));
    FlatMapConcat(DataOf, Lines(TypeLine(plain)), Lines(DataLine(payload)));
    PlainTypeIsQuiet(plain);
    JsonDelivers(payload);
  }

  /** A type that hides a data line delivers it, in front of the payload. */
  lemma HiddenDelivers(kind: string, data: string, json: string)
    requires '\n' !in kind && '\n' !in data && '\n' !in json
    ensures var e := Event(Some(kind + "\n" + ("data: " + data)), json);
            Deliveries(Stream([e])) == [data, json]
  {
    var e := Event(Some(kind + "\n" + ("data: " + data)), json);
    var plain, payload := Event(Some(kind), json), Event(None, data);
    assert TypeLine(e) == TypeLine(plain) + "\n" + DataLine(payload);
    HiddenLine(plain, payload);
    StreamOneMore([], e);
    assert [] + [e] == [e];
  }

  // ----- Truncation -----

  /** How many payloads have arrived once `n` characters have: those whose data
      line is finished. */
  function Arrived(events: seq<Event>, n: nat): nat {
    if events == [] || n < |Frame(events[0])| - 1 then 0
    else 1 + Arrived(events[1..], if n >= |Frame(events[0])| then n - |Frame(events[0])| else 0)
  }

  lemma {:induction false} ArrivedBounds(events: seq<Event>, n: nat)
    ensures Arrived(events, n) <= |events|
    ensures events != [] && n == 0 ==> Arrived(events, n) == 0
  {
    if events != [] && n >= |Frame(events[0])| - 1 {
      ArrivedBounds(events[1..], if n >= |Frame(events[0])| then n - |Frame(events[0])| else 0);
    }
  }

  lemma StreamHead(events: seq<Event>)
    requires events != []
    ensures Stream(events) == Frame(events[0]) + Stream(events[1..])
  {
    assert events == [events[0]] + events[1..];
    FlatMapConcat(Frame, [events[0]], events[1..]);
    FoldSingleton(Frame, (e: Event) => 0, events[0]);
  }

  /** An event whose frame delivers its payload alone. */
  ghost predicate Quiet(e: Event) {
    '\n' !in e.json && QuietType(e)
  }

  lemma CutText(a: string, b: string, tail: string, n: nat)
    requires n <= |a| + 1 + |b|
    ensures n <= |a| ==> (a + "\n" + b + tail)[..n] == a[..n]
    ensures n > |a| ==> (a + "\n" + b + tail)[..n] == a + "\n" + b[..n - |a| - 1]
  {
  }

  lemma NothingIn(a: seq<string>, b: seq<string>)
    requires a + b == []
    ensures a == []
  {
    assert |a| <= |a + b|;
  }

  lemma CutLine(text: string, n: nat, end: string)
    requires n <= |text|
    ensures text + end + "" == text[..n] + (text[n..] + end)
  {
  }

  /** A part of a text without data delivers nothing. */
  lemma QuietPart(text: string, n: nat)
    requires FlatMap(DataOf, Lines(text)) == [] && n <= |text|
    ensures Deliveries(text[..n]) == []
  {
    var a, b := text[..n], text[n..] + "\n";
    DeliveriesJoin(text, "");
    CutLine(text, n, "\n");
    DeliveriesConcat(a, b);
    NothingIn(Deliveries(a), Deliveries(Rest(a) + b));
  }

  /** A part of a single line delivers nothing. */
  lemma UnfinishedLine(line: string, n: nat)
    requires '\n' !in line && n <= |line|
    ensures Deliveries(line[..n]) == []
  {
    assert forall c :: c in line[..n] ==> c in line;
    NoNewline(line[..n]);
  }

  /** Behind a text without data, a part of a single line delivers nothing either. */
  lemma PartBehind(a: string, line: string, n: nat)
    requires '\n' !in line && FlatMap(DataOf, Lines(a)) == [] && n <= |line|
    ensures Deliveries(a + "\n" + line[..n]) == []
  {
    DeliveriesJoin(a, line[..n]);
    UnfinishedLine(line, n);
  }

  lemma OneLine(e: Event)
    requires '\n' !in e.json
    ensures '\n' !in DataLine(e)
  {
    assert forall c :: c in DataLine(e) ==> c in "data: " || c in e.json;
  }

  lemma CutFrame(e: Event, n: nat)
    requires n < |Frame(e)| - 1
    ensures |Frame(e)| == |TypeLine(e)| + |DataLine(e)| + 3
    ensures n <= |TypeLine(e)| ==> Frame(e)[..n] == TypeLine(e)[..n]
    ensures n > |TypeLine(e)| ==> Frame(e)[..n] == TypeLine(e) + "\n" + DataLine(e)[..n - |TypeLine(e)| - 1]
  {
    FrameText(e, "");
    CutText(TypeLine(e), DataLine(e), "\n\n", n);
  }

  lemma PartInType(e: Event, n: nat)
    requires Quiet(e) && n <= |TypeLine(e)|
    ensures Deliveries(TypeLine(e)[..n]) == []
  {
    QuietExactly(e);
    QuietPart(TypeLine(e), n);
  }

  lemma PartInData(e: Event, n: nat)
    requires Quiet(e) && n <= |DataLine(e)|
    ensures Deliveries(TypeLine(e) + "\n" + DataLine(e)[..n]) == []
  {
    QuietExactly(e);
    OneLine(e);
    PartBehind(TypeLine(e), DataLine(e), n);
  }

  /** A part of a frame that stops before its data line is finished delivers nothing. */
  lemma PartialFrame(e: Event, n: nat)
    requires Quiet(e) && n < |Frame(e)| - 1
    ensures Deliveries(Frame(e)[..n]) == []
  {
    CutFrame(e, n);
    if n <= |TypeLine(e)| {
      PartInType(e, n);
    } else {
      PartInData(e, n - |TypeLine(e)| - 1);
    }
  }

  /** The frame without its last newline delivers its payload. */
  lemma AlmostFrame(e: Event)
    requires Quiet(e)
    ensures Deliveries(Frame(e)[..|Frame(e)| - 1]) == [e.json]
  {
    var a, b := TypeLine(e), DataLine(e);
    FrameText(e, "");
    var text := Frame(e)[..|Frame(e)| - 1];
    assert text == a + "\n" + (b + "\n" + "");
    DeliveriesJoin(a, b + "\n" + "");
    DeliveriesJoin(b, "");
    QuietExactly(e);
    JsonDelivers(e);
  }

  /** The text of the first frame and what has arrived after it. */
  lemma CutStream(events: seq<Event>, n: nat)
    requires events != [] && n <= |Stream(events)|
    ensures n < |Frame(events[0])| ==> Stream(events)[..n] == Frame(events[0])[..n]
    ensures n >= |Frame(events[0])| ==>
              n - |Frame(events[0])| <= |Stream(events[1..])|
              && Stream(events)[..n] == Frame(events[0]) + Stream(events[1..])[..n - |Frame(events[0])|]
  {
    StreamHead(events);
    var f, rest := Frame(events[0]), Stream(events[1..]);
    assert Stream(events) == f + rest;
  }

  lemma WholeFrame(e: Event, rest: string)
    requires Quiet(e)
    ensures Deliveries(Frame(e) + rest) == [e.json] + Deliveries(rest)
  {
    FrameDelivers(e, rest);
    QuietExactly(e);
    JsonDelivers(e);
  }

  lemma PayloadPrefix(events: seq<Event>, k: nat)
    requires k < |events|
    ensures Map(Payload, events)[..k + 1] == [events[0].json] + Map(Payload, events[1..])[..k]
  {
  }

  /** What the text after a whole frame adds. */
  lemma CutAfterFrame(events: seq<Event>, n: nat)
    requires events != [] && Quiet(events[0]) && |Frame(events[0])| <= n <= |Stream(events)|
    ensures n - |Frame(events[0])| <= |Stream(events[1..])|
    ensures Deliveries(Stream(events)[..n])
         == [events[0].json] + Deliveries(Stream(events[1..])[..n - |Frame(events[0])|])
    ensures Arrived(events, n) == 1 + Arrived(events[1..], n - |Frame(events[0])|)
  {
    CutStream(events, n);
    WholeFrame(events[0], Stream(events[1..])[..n - |Frame(events[0])|]);
  }

  /** What part of a frame delivers. */
  lemma CutInFrame(events: seq<Event>, n: nat)
    requires events != [] && Quiet(events[0]) && n < |Frame(events[0])| && n <= |Stream(events)|
    ensures Arrived(events, n) == if n == |Frame(events[0])| - 1 then 1 else 0
    ensures Deliveries(Stream(events)[..n]) == if n == |Frame(events[0])| - 1 then [events[0].json] else []
  {
    CutStream(events, n);
    FrameText(events[0], "");
    ArrivedBounds(events[1..], 0);
    if n == |Frame(events[0])| - 1 { AlmostFrame(events[0]); } else { PartialFrame(events[0], n); }
  }

  /** After `n` characters exactly the payloads that have arrived are delivered: a
      prefix of all payloads, and never part of one. */
  ghost predicate DeliversArrived(events: seq<Event>, n: nat) {
    && n <= |Stream(events)| && Arrived(events, n) <= |events|
    && Deliveries(Stream(events)[..n]) == Map(Payload, events)[..Arrived(events, n)]
  }

  lemma ArrivesInFirst(events: seq<Event>, n: nat)
    requires events != [] && Quiet(events[0]) && n < |Frame(events[0])| && n <= |Stream(events)|
    ensures DeliversArrived(events, n)
  {
    CutInFrame(events, n);
    PayloadPrefix(events, 0);
  }

  lemma ArrivesAfterFirst(events: seq<Event>, n: nat)
    requires events != [] && Quiet(events[0]) && |Frame(events[0])| <= n <= |Stream(events)|
    requires DeliversArrived(events[1..], n - |Frame(events[0])|)
    ensures DeliversArrived(events, n)
  {
    CutAfterFrame(events, n);
    PayloadPrefix(events, Arrived(events[1..], n - |Frame(events[0])|));
  }

  /** A stream of quiet events, cut off anywhere, delivers what has arrived. */
  lemma {:induction false} TruncatedStreamDelivers(events: seq<Event>, n: nat)
    requires forall e :: e in events ==> Quiet(e)
    requires n <= |Stream(events)|
    ensures DeliversArrived(events, n)
    decreases |events|
  {
    if events == [] {
    } else {
      var length := |Frame(events[0])|;
      if n >= length {
        CutStream(events, n);
        TruncatedStreamDelivers(events[1..], n - length);
        ArrivesAfterFirst(events, n);
      } else {
        ArrivesInFirst(events, n);
      }
    }
  }

  /** Quiet types are what it takes: a stream delivers what has arrived wherever it is
      cut off, if and only if no type hides a data line. */
  lemma TruncatedStreamExactly(events: seq<Event>)
    requires forall e :: e in events ==> '\n' !in e.json
    ensures (forall n: nat :: n <= |Stream(events)| ==> DeliversArrived(events, n)) <==>
              forall e :: e in events ==> QuietType(e)
  {
    if AllQuiet(events) {
      forall n: nat | n <= |Stream(events)| ensures DeliversArrived(events, n) {
        TruncatedStreamDelivers(events, n);
      }
    } else {
      var n := |Stream(events)|;
      TakeAll(Stream(events));
      StreamCount(events);
      assert !DeliversArrived(events, n);
    }
  }

  lemma {:induction false} FramesConcat(events: seq<Event>)
    ensures Concat(Map(Frame, events)) == Stream(events)
  {
    if events == [] {
    } else {
      var n := |events| - 1;
      FramesConcat(events[..n]);
      assert Map(Frame, events)[..n] == Map(Frame, events[..n]);
    }
  }

  /** End to end: however the text of the frames is cut into chunks, and wherever
      it is cut off, the client delivers the payloads that have arrived; of a
      whole stream, exactly those of the sent events.  Those are all events before
      the disconnection, and in a progress stream the evaluation events of them. */
  lemma EndToEnd(events: seq<Event>, disconnected: nat -> bool, progressOnly: bool, chunks: seq<string>)
    requires forall e :: e in Sent(events, disconnected, progressOnly) ==> Quiet(e)
    requires Concat(chunks) <= Concat(Map(Frame, Sent(events, disconnected, progressOnly)))
    ensures var sent := Sent(events, disconnected, progressOnly);
            && Arrived(sent, |Concat(chunks)|) <= |sent|
            && Deliveries(Concat(chunks)) == Map(Payload, sent)[..Arrived(sent, |Concat(chunks)|)]
            && (Concat(chunks) == Concat(Map(Frame, sent)) ==> Deliveries(Concat(chunks)) == Map(Payload, sent))
            && exists d: nat :: DisconnectsAt(disconnected, events, d)
                           && sent == if progressOnly then EvaluationEvents(events[..d]) else events[..d]
  {
    var sent := Sent(events, disconnected, progressOnly);
    FramesConcat(sent);
    var d := Disconnects(disconnected, events);
    SentExactly(events, disconnected, progressOnly, d);
    assert Concat(chunks) == Stream(sent)[..|Concat(chunks)|];
    TruncatedStreamDelivers(sent, |Concat(chunks)|);
    StreamDelivers(sent);
  }
}
