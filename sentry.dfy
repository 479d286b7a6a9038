/** The error-tracker webhook parser (src/services/sentry.ts): keeps the
    stack frames of the application's own files, renders them as a trace,
    and takes the last of them as the affected file. */
module Sentry {
  import opened Wrappers
  import opened Strings
  import opened Types

  /** A frame is kept when its file name is non-empty and does not lie under
      `node_modules`. */
  predicate IsRelevant(f: SentryFrame) {
    f.filename != "" && !Includes(f.filename, "node_modules")
  }

  /** `frames.filter(...)`: the relevant frames in their original order. */
  function RelevantFrames(frames: seq<SentryFrame>): (r: seq<SentryFrame>)
    ensures |r| <= |frames|
    ensures forall k :: 0 <= k < |r| ==> IsRelevant(r[k])
  {
    if frames == [] then []
    else (if IsRelevant(frames[0]) then [frames[0]] else []) + RelevantFrames(frames[1..])
  }

  /** Filtering distributes over concatenation, so the kept frames keep their
      relative order. */
  lemma {:induction false} RelevantFramesAppend(a: seq<SentryFrame>, b: seq<SentryFrame>)
    ensures RelevantFrames(a + b) == RelevantFrames(a) + RelevantFrames(b)
  {
    if a == [] {
      assert a + b == b;
    } else {
      assert (a + b)[0] == a[0] && (a + b)[1..] == a[1..] + b;
      RelevantFramesAppend(a[1..], b);
    }
  }

  /** A frame is kept exactly when it is among the frames and relevant. */
  lemma {:induction false} RelevantFramesMembers(frames: seq<SentryFrame>, f: SentryFrame)
    ensures f in RelevantFrames(frames) <==> f in frames && IsRelevant(f)
  {
    if frames != [] {
      RelevantFramesMembers(frames[1..], f);
      assert frames == [frames[0]] + frames[1..];
    }
  }

  /** `f.function || 'anonymous'` */
  function FunctionLabel(f: SentryFrame): string {
    if f.functionName == "" then "anonymous" else f.functionName
  }

  /** One rendered trace line. */
  function FrameLine(f: SentryFrame): string {
    "  at " + FunctionLabel(f) + " (" + f.filename + ":" + NatToDecimal(f.lineno) + ")"
  }

  function FrameLines(frames: seq<SentryFrame>): (r: seq<string>)
    ensures |r| == |frames|
    ensures forall k :: 0 <= k < |frames| ==> r[k] == FrameLine(frames[k])
  {
    if frames == [] then [] else [FrameLine(frames[0])] + FrameLines(frames[1..])
  }

  /** The frames of the payload's event, or none when it has no event or no
      stack trace. */
  function FramesOf(payload: SentryPayload): seq<SentryFrame> {
    match payload.data.event
    case Some(e) => e.frames.GetOr([])
    case None => []
  }

  /** `SentryService.parseWebhookEvent`: `None` without an issue, otherwise
      the normalised event. `now` is the clock reading and `parseDate` is
      `new Date(text)`. */
  function ParseWebhookEvent(payload: SentryPayload, now: int, parseDate: string -> Date): (r: Option<ErrorEvent>)
    ensures r.None? <==> payload.data.issue.None?
    ensures r.Some? ==> r.value.source == Sentry && r.value.message == payload.data.issue.value.title
    ensures r.Some? ==> r.value.environment.None?
    ensures r.Some? ==> (r.value.severity == Some(Error) <==> payload.data.issue.value.level == Some("error"))
    ensures r.Some? ==> (r.value.severity == Some(Warning) <==> payload.data.issue.value.level != Some("error"))
    ensures r.Some? ==> (r.value.stackTrace.None? <==> RelevantFrames(FramesOf(payload)) == [])
    ensures r.Some? && r.value.stackTrace.Some? ==>
      r.value.stackTrace.value == JoinWith(FrameLines(RelevantFrames(FramesOf(payload))), "\n")
    ensures r.Some? ==> var event := payload.data.event;
      r.value.timestamp == if event.Some? && event.value.timestamp != "" then parseDate(event.value.timestamp) else Instant(now)
    ensures r.Some? ==> r.value.metadata.Some? && "affectedFile" in r.value.metadata.value
    ensures r.Some? ==> (r.value.metadata.value["affectedFile"].None? <==> RelevantFrames(FramesOf(payload)) == [])
  {
    match payload.data.issue
    case None => None
    case Some(issue) =>
      var relevant := RelevantFrames(FramesOf(payload));
      var stackTrace: Option<string> :=
        if |relevant| > 0 then Some(JoinWith(FrameLines(relevant), "\n")) else None;
      var affectedFile: Option<string> :=
        if |relevant| > 0 then Some(relevant[|relevant| - 1].filename) else None;
      var event := payload.data.event;
      var timestamp :=
        if event.Some? && event.value.timestamp != "" then parseDate(event.value.timestamp) else Instant(now);
      var metadata: Metadata := map[
        "issueId" := Some(issue.id),
        "culprit" := issue.culprit,
        "eventId" := (if event.Some? then Some(event.value.id) else None),
        "affectedFile" := affectedFile,
        "type" := (if issue.metadata.Some? then issue.metadata.value.typeName else None)];
      Some(ErrorEvent(
        Sentry,
        timestamp,
        issue.title,
        stackTrace,
        None,
        Some(if issue.level == Some("error") then Error else Warning),
        Some(metadata)))
  }

  /** The affected file is the file of the last kept frame, so it is never
      empty and never under `node_modules`. */
  lemma AffectedFileIsLastRelevant(payload: SentryPayload, now: int, parseDate: string -> Date)
    requires payload.data.issue.Some?
    ensures var r := ParseWebhookEvent(payload, now, parseDate).value.metadata.value["affectedFile"];
            var relevant := RelevantFrames(FramesOf(payload));
            r.Some? ==> r.value == relevant[|relevant| - 1].filename
                        && r.value != "" && !Includes(r.value, "node_modules")
  {
  }

  /** The metadata records the issue's id, its culprit, the event's id and
      the issue's type tag. */
  lemma MetadataRecordsIssue(payload: SentryPayload, now: int, parseDate: string -> Date)
    requires payload.data.issue.Some?
    ensures var m := ParseWebhookEvent(payload, now, parseDate).value.metadata.value;
            var issue := payload.data.issue.value;
            m.Keys == {"issueId", "culprit", "eventId", "affectedFile", "type"}
            && m["issueId"] == Some(issue.id)
            && m["culprit"] == issue.culprit
            && m["eventId"] == (if payload.data.event.Some? then Some(payload.data.event.value.id) else None)
            && m["type"] == (if issue.metadata.Some? then issue.metadata.value.typeName else None)
  {
  }

  /** Without an event timestamp the event is stamped with the parse time. */
  lemma TimestampDefaultsToNow(payload: SentryPayload, now: int, parseDate: string -> Date)
    requires payload.data.issue.Some?
    requires payload.data.event.None? || payload.data.event.value.timestamp == ""
    ensures ParseWebhookEvent(payload, now, parseDate).value.timestamp == Instant(now)
  {
  }

  /** A rendered line holds a line feed only if the frame's function or file
      name does. */
  lemma FrameLineSingleLine(f: SentryFrame)
    requires '\n' !in f.functionName && '\n' !in f.filename
    ensures '\n' !in FrameLine(f)
  {
    var digits := NatToDecimal(f.lineno);
    assert '\n' !in digits by {
      forall i | 0 <= i < |digits| ensures digits[i] != '\n' {
        assert IsDigit(digits[i]);
      }
    }
  }

  /** The rendered trace has exactly one line per kept frame, in order, when
      no kept frame's function or file name holds a line feed. */
  lemma {:induction false} TraceHasOneLinePerFrame(payload: SentryPayload, now: int, parseDate: string -> Date)
    requires payload.data.issue.Some?
    requires forall f :: f in FramesOf(payload) ==> '\n' !in f.functionName && '\n' !in f.filename
    ensures var r := ParseWebhookEvent(payload, now, parseDate).value;
            var relevant := RelevantFrames(FramesOf(payload));
            r.stackTrace.Some? ==> SplitOn(r.stackTrace.value, '\n') == FrameLines(relevant)
  {
    var relevant := RelevantFrames(FramesOf(payload));
    if |relevant| > 0 {
      var lines := FrameLines(relevant);
      forall k | 0 <= k < |lines| ensures '\n' !in lines[k] {
        RelevantFramesMembers(FramesOf(payload), relevant[k]);
        FrameLineSingleLine(relevant[k]);
      }
      SplitJoinRoundTrip(lines);
    }
  }
}
