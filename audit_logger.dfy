/** The audit trail: an append-only list of scan and override events, the
    queries over it, the choice of export format, the recovery of events
    from a log file whose JSON objects may span several lines, and the
    rebuilding of an event from its decoded dictionary.

    Event ids (`uuid4`) and the clock are parameters; timestamps are clock
    readings. Writing files is not part of this model. */
module AuditLogger {
  import opened Wrappers
  import opened Text
  import opened Models
  import opened Collections

  /** `AuditEvent`. */
  datatype AuditEvent = AuditEvent(
    eventId: string,
    timestamp: int,
    repoName: string,
    prNumber: int,
    commitHash: string,
    violationCount: int,
    criticalCount: int,
    highCount: int,
    enforcementAction: string,
    blocked: bool,
    overrideApplied: bool,
    overrideReason: Option<string>,
    prUrl: Option<string>,
    scanId: Option<string>,
    violationsSummary: Option<seq<Value>>)

  const OverrideAction := "override"

  /** `get_violations_summary`. */
  datatype Summary = Summary(
    totalScans: int,
    totalViolations: int,
    totalCritical: int,
    totalHigh: int,
    totalBlocked: int,
    totalOverrides: int)

  function SumOf(events: seq<AuditEvent>, f: AuditEvent -> int): int
  {
    if |events| == 0 then 0 else SumOf(events[..|events| - 1], f) + f(events[|events| - 1])
  }

  function IsBlocked(e: AuditEvent): bool
  {
    e.blocked
  }

  function IsOverride(e: AuditEvent): bool
  {
    e.overrideApplied
  }

  function ViolationCount(e: AuditEvent): int
  {
    e.violationCount
  }

  function CriticalCount(e: AuditEvent): int
  {
    e.criticalCount
  }

  function HighCount(e: AuditEvent): int
  {
    e.highCount
  }

  /** The summary of a list of events. */
  function SummaryOf(events: seq<AuditEvent>): (s: Summary)
    ensures s.totalScans == |events|
    ensures 0 <= s.totalBlocked <= s.totalScans
    ensures 0 <= s.totalOverrides <= s.totalScans
  {
    Summary(|events|, SumOf(events, ViolationCount), SumOf(events, CriticalCount), SumOf(events, HighCount),
            |Filter(events, IsBlocked)|, |Filter(events, IsOverride)|)
  }

  /** The totals of a longer trail are the totals of the shorter one plus
      the new event's counts. */
  lemma SummaryAppend(events: seq<AuditEvent>, e: AuditEvent)
    ensures var before, after := SummaryOf(events), SummaryOf(events + [e]);
              && after.totalScans == before.totalScans + 1
              && after.totalViolations == before.totalViolations + e.violationCount
              && after.totalCritical == before.totalCritical + e.criticalCount
              && after.totalHigh == before.totalHigh + e.highCount
              && after.totalBlocked == before.totalBlocked + (if e.blocked then 1 else 0)
              && after.totalOverrides == before.totalOverrides + (if e.overrideApplied then 1 else 0)
  {
    assert (events + [e])[..|events|] == events;
  }

  /** The export formats `export_audit_log` accepts. */
  datatype ExportFormat = JsonExport | CsvExport

  const UnsupportedExport := "Unsupported format. Use .json or .csv"

  /** The dispatch of `export_audit_log` on the suffix of the file name. */
  function ExportFormatOf(filename: string): (r: Result<ExportFormat, string>)
    ensures r == Success(JsonExport) <==> EndsWith(filename, ".json")
    ensures r == Success(CsvExport) <==> !EndsWith(filename, ".json") && EndsWith(filename, ".csv")
    ensures r.Failure? <==> !EndsWith(filename, ".json") && !EndsWith(filename, ".csv")
    ensures r.Failure? ==> r.error == UnsupportedExport
  {
    if EndsWith(filename, ".json") then Success(JsonExport)
    else if EndsWith(filename, ".csv") then Success(CsvExport)
    else Failure(UnsupportedExport)
  }

  /** `export_audit_log`: the file name back for a supported format. */
  function ExportAuditLog(filename: string): (r: Result<string, string>)
    ensures r.Success? <==> ExportFormatOf(filename).Success?
    ensures r.Success? ==> r.value == filename
    ensures r.Failure? ==> r.error == UnsupportedExport
  {
    match ExportFormatOf(filename)
    case Failure(e) => Failure(e)
    case Success(_) => Success(filename)
  }

  /** A span `[lo, hi)` of the content that holds one extracted object. */
  predicate ObjectSpan(content: string, span: (nat, nat))
  {
    span.0 < span.1 <= |content| && content[span.0] == '{' && content[span.1 - 1] == '}'
  }

  /** Spans in order of position, none overlapping the next. */
  predicate Ordered(spans: seq<(nat, nat)>)
  {
    forall k :: 0 <= k < |spans| - 1 ==> spans[k].1 <= spans[k + 1].0
  }

  /** What the splitter has found after reading `content[..i]`: an object
      per span, in order, every span ending at or before `i`. */
  ghost predicate Found(content: string, i: nat, objects: seq<string>, spans: seq<(nat, nat)>)
  {
    && i <= |content|
    && |objects| == |spans|
    && (forall k :: 0 <= k < |spans| ==> ObjectSpan(content, spans[k]) && objects[k] == content[spans[k].0..spans[k].1])
    && Ordered(spans)
    && (forall k :: 0 <= k < |spans| ==> spans[k].1 <= i)
  }

  /** Closing an object at `i` that opened at `lo` keeps `Found`. */
  lemma FoundClose(content: string, i: nat, objects: seq<string>, spans: seq<(nat, nat)>, lo: nat)
    requires Found(content, i, objects, spans) && i < |content|
    requires lo < i && content[lo] == '{' && content[i] == '}'
    requires |spans| == 0 || spans[|spans| - 1].1 <= lo
    ensures Found(content, i + 1, objects + [content[lo..i + 1]], spans + [(lo, i + 1)])
  {
  }

  /** Reading a character that closes no object keeps `Found`. */
  lemma FoundSkip(content: string, i: nat, objects: seq<string>, spans: seq<(nat, nat)>)
    requires Found(content, i, objects, spans) && i < |content|
    ensures Found(content, i + 1, objects, spans)
  {
  }

  /** How reading one character moves the brace count. */
  function Delta(c: char): int
  {
    if c == '{' then 1 else if c == '}' then -1 else 0
  }

  /** The brace count after reading `content[..i]`: opening braces minus
      closing braces so far. It goes below zero after a stray `}`. */
  function Depth(content: string, i: nat): int
    requires i <= |content|
  {
    if i == 0 then 0 else Depth(content, i - 1) + Delta(content[i - 1])
  }

  /** `content[lo..hi]` is a top-level object: a `{` read at count zero,
      and `hi - 1` the first position whose `}` brings the count back
      to zero. */
  ghost predicate IsObject(content: string, lo: nat, hi: nat)
  {
    && lo < hi <= |content|
    && content[lo] == '{' && Depth(content, lo) == 0
    && content[hi - 1] == '}' && Depth(content, hi) == 0
    && forall j :: lo < j < hi ==> Depth(content, j) > 0
  }

  /** The object being read opened at `start`, and the count has stayed
      positive since. */
  ghost predicate OpenAt(content: string, i: nat, start: nat)
  {
    && start < i <= |content|
    && content[start] == '{' && Depth(content, start) == 0
    && forall j :: start < j <= i ==> Depth(content, j) > 0
  }

  /** Every object that ends within `content[..i]` has been found, and
      nothing else. */
  ghost predicate Complete(content: string, i: nat, spans: seq<(nat, nat)>)
  {
    forall lo: nat, hi: nat :: hi <= i ==> ((lo, hi) in spans <==> IsObject(content, lo, hi))
  }

  /** A character that does not bring the count from one to zero ends no
      object. */
  lemma CompleteSkip(content: string, i: nat, spans: seq<(nat, nat)>)
    requires i < |content| && Complete(content, i, spans)
    requires forall k :: 0 <= k < |spans| ==> spans[k].1 <= i
    requires content[i] != '}' || Depth(content, i) != 1
    ensures Complete(content, i + 1, spans)
  {
    forall lo: nat, hi: nat | hi == i + 1
      ensures (lo, hi) !in spans && !IsObject(content, lo, hi)
    {
      assert forall k :: 0 <= k < |spans| ==> spans[k] != (lo, hi);
    }
  }

  /** The `}` that brings the count from one to zero ends exactly the
      object that opened at `start`. */
  lemma CompleteClose(content: string, i: nat, spans: seq<(nat, nat)>, start: nat)
    requires i < |content| && Complete(content, i, spans)
    requires forall k :: 0 <= k < |spans| ==> spans[k].1 <= i
    requires content[i] == '}' && Depth(content, i) == 1 && OpenAt(content, i, start)
    ensures Complete(content, i + 1, spans + [(start, i + 1)])
  {
    assert IsObject(content, start, i + 1);
    forall lo: nat, hi: nat | hi == i + 1 && IsObject(content, lo, hi)
      ensures lo == start
    {
      assert Depth(content, start) == 0 && Depth(content, lo) == 0;
    }
    forall lo: nat, hi: nat | hi <= i
      ensures (lo, hi) in spans + [(start, i + 1)] <==> (lo, hi) in spans
    {
    }
  }

  /** Reading on while the count stays positive keeps the object open. */
  lemma OpenStep(content: string, i: nat, start: nat)
    requires i < |content| && OpenAt(content, i, start) && Depth(content, i + 1) > 0
    ensures OpenAt(content, i + 1, start)
  {
  }

  /** What the splitter knows after reading `content[..i]` with the
      given count and start of the open object. */
  ghost predicate Scanned(content: string, i: nat, objects: seq<string>, spans: seq<(nat, nat)>, start: nat, count: int)
  {
    && Found(content, i, objects, spans)
    && Complete(content, i, spans)
    && count == Depth(content, i)
    && (count > 0 ==> OpenAt(content, i, start) && (|spans| == 0 || spans[|spans| - 1].1 <= start))
  }

  /** Once the whole content is read, the spans are exactly its objects. */
  lemma CompleteAll(content: string, objects: seq<string>, spans: seq<(nat, nat)>)
    requires Found(content, |content|, objects, spans) && Complete(content, |content|, spans)
    ensures forall lo: nat, hi: nat :: (lo, hi) in spans <==> IsObject(content, lo, hi)
  {
    forall lo: nat, hi: nat | (lo, hi) in spans
      ensures hi <= |content|
    {
      var k :| 0 <= k < |spans| && spans[k] == (lo, hi);
    }
  }

  /** One turn of the splitter's loop: the character at `i` moves the
      count, opens an object at count zero, or closes the open one when
      the count returns to zero. */
  method ReadChar(content: string, i: nat, objects: seq<string>, ghost spans: seq<(nat, nat)>, start: nat, count: int)
    returns (objects': seq<string>, ghost spans': seq<(nat, nat)>, start': nat, count': int)
    requires i < |content| && Scanned(content, i, objects, spans, start, count)
    ensures Scanned(content, i + 1, objects', spans', start', count')
  {
    objects', spans', start', count' := objects, spans, start, count;
    var c := content[i];
    if c == '{' {
      if count == 0 {
        start' := i;
      }
      count' := count + 1;
      CompleteSkip(content, i, spans);
      if count > 0 {
        OpenStep(content, i, start);
      }
      FoundSkip(content, i, objects, spans);
    } else if c == '}' {
      count' := count - 1;
      if count' == 0 {
        CompleteClose(content, i, spans, start);
        FoundClose(content, i, objects, spans, start);
        objects' := objects + [content[start..i + 1]];
        spans' := spans + [(start, i + 1)];
      } else {
        CompleteSkip(content, i, spans);
        if count' > 0 {
          OpenStep(content, i, start);
        }
        FoundSkip(content, i, objects, spans);
      }
    } else {
      CompleteSkip(content, i, spans);
      if count > 0 {
        OpenStep(content, i, start);
      }
      FoundSkip(content, i, objects, spans);
    }
  }

  /** The brace splitter of `load_audit_logs`: every top-level
      `{ ... }` object of the content, found by counting braces, in order
      of position. A stray `}` drives the count below zero, and no object
      is found until the count climbs back. */
  method SplitObjects(content: string) returns (objects: seq<string>, ghost spans: seq<(nat, nat)>)
    ensures |objects| == |spans|
    ensures forall k :: 0 <= k < |spans| ==> ObjectSpan(content, spans[k]) && objects[k] == content[spans[k].0..spans[k].1]
    ensures Ordered(spans)
    ensures forall lo: nat, hi: nat :: (lo, hi) in spans <==> IsObject(content, lo, hi)
    ensures forall k :: 0 <= k < |objects| ==> |objects[k]| >= 2 && objects[k][0] == '{' && objects[k][|objects[k]| - 1] == '}'
    ensures '{' !in content ==> objects == []
  {
    objects := [];
    spans := [];
    var currentStart: nat := 0;
    var braceCount := 0;
    var i := 0;
    while i < |content|
      invariant i <= |content|
      invariant Scanned(content, i, objects, spans, currentStart, braceCount)
    {
      objects, spans, currentStart, braceCount := ReadChar(content, i, objects, spans, currentStart, braceCount);
      i := i + 1;
    }
    CompleteAll(content, objects, spans);
    if objects != [] {
      assert content[spans[0].0] == '{';
    }
  }

  /** A `}` inside a JSON string is not escaped by `json.dumps`, yet the
      splitter counts it: the event `{"r":"}"}` is cut after the first
      `}`, and the whole event is not an object of the content. */
  lemma BraceInStringCutsEvent()
    ensures IsObject("{\"r\":\"}\"}", 0, 7)
    ensures !IsObject("{\"r\":\"}\"}", 0, 9)
  {
    var c := "{\"r\":\"}\"}";
    assert Depth(c, 1) == 1 && Depth(c, 2) == 1 && Depth(c, 3) == 1 && Depth(c, 4) == 1;
    assert Depth(c, 5) == 1 && Depth(c, 6) == 1 && Depth(c, 7) == 0 && Depth(c, 8) == 0 && Depth(c, 9) == -1;
  }

  const EventIdKey := "event_id"
  const TimestampKey := "timestamp"
  const RepoNameKey := "repo_name"
  const PrNumberKey := "pr_number"
  const CommitHashKey := "commit_hash"
  const ViolationCountKey := "violation_count"
  const CriticalCountKey := "critical_count"
  const HighCountKey := "high_count"
  const ActionKey := "enforcement_action"
  const BlockedKey := "blocked"
  const OverrideAppliedKey := "override_applied"
  const OverrideReasonKey := "override_reason"
  const PrUrlKey := "pr_url"
  const ScanIdKey := "scan_id"
  const SummaryKey := "violations_summary"

  /** The keys `_create_event_from_dict` reads with `d[...]`. */
  const RequiredKeys: seq<string> := [EventIdKey, TimestampKey, RepoNameKey, PrNumberKey, CommitHashKey,
                                      ViolationCountKey, CriticalCountKey, HighCountKey, ActionKey, BlockedKey]

  function IntAt(m: map<string, Value>, key: string): (r: Option<int>)
    ensures r.Some? ==> key in m
  {
    if key in m && m[key].Int? then Some(m[key].i) else None
  }

  function StrAt(m: map<string, Value>, key: string): (r: Option<string>)
    ensures r.Some? ==> key in m
  {
    if key in m && m[key].Str? then Some(m[key].s) else None
  }

  function BoolAt(m: map<string, Value>, key: string): (r: Option<bool>)
    ensures r.Some? ==> key in m
  {
    if key in m && m[key].Bool? then Some(m[key].b) else None
  }

  /** `d.get(key)` for an optional text: absent or null is None. */
  function OptionalStrAt(m: map<string, Value>, key: string): (r: Option<Option<string>>)
    ensures r == Some(None) <==> key !in m || m[key].Null?
  {
    if key !in m || m[key].Null? then Some(None)
    else if m[key].Str? then Some(Some(m[key].s))
    else None
  }

  /** Who and what an event is about: id, time, repository, pull request,
      commit. */
  function EventHeadOf(m: map<string, Value>): Option<(string, int, string, int, string)>
  {
    match (StrAt(m, EventIdKey), IntAt(m, TimestampKey), StrAt(m, RepoNameKey), IntAt(m, PrNumberKey), StrAt(m, CommitHashKey))
    case (Some(eventId), Some(timestamp), Some(repoName), Some(prNumber), Some(commitHash)) =>
      Some((eventId, timestamp, repoName, prNumber, commitHash))
    case _ => None
  }

  /** The counts and the decision of an event. */
  function EventCountsOf(m: map<string, Value>): Option<(int, int, int, string, bool)>
  {
    match (IntAt(m, ViolationCountKey), IntAt(m, CriticalCountKey), IntAt(m, HighCountKey), StrAt(m, ActionKey), BoolAt(m, BlockedKey))
    case (Some(violations), Some(critical), Some(high), Some(action), Some(blocked)) =>
      Some((violations, critical, high, action, blocked))
    case _ => None
  }

  /** The optional fields of an event, with their defaults. */
  function EventExtrasOf(m: map<string, Value>): Option<(bool, Option<string>, Option<string>, Option<string>, Option<seq<Value>>)>
  {
    var overrideApplied := if OverrideAppliedKey !in m then Some(false) else BoolAt(m, OverrideAppliedKey);
    match (overrideApplied, OptionalStrAt(m, OverrideReasonKey), OptionalStrAt(m, PrUrlKey), OptionalStrAt(m, ScanIdKey))
    case (Some(applied), Some(reason), Some(url), Some(scanId)) =>
      var summary := if SummaryKey in m && m[SummaryKey].List? then Some(m[SummaryKey].items) else None;
      Some((applied, reason, url, scanId, summary))
    case _ => None
  }

  /** The event `_create_event_from_dict` builds, or None when a required
      key is missing or a value has the wrong type. */
  function EventFromDict(m: map<string, Value>): (r: Option<AuditEvent>)
    ensures r.Some? ==> forall key :: key in RequiredKeys ==> key in m
    ensures r.Some? ==> StrAt(m, EventIdKey) == Some(r.value.eventId) && StrAt(m, RepoNameKey) == Some(r.value.repoName)
                        && IntAt(m, TimestampKey) == Some(r.value.timestamp) && BoolAt(m, BlockedKey) == Some(r.value.blocked)
    ensures r.Some? && OverrideAppliedKey !in m ==> !r.value.overrideApplied
    ensures r.Some? && (OverrideReasonKey !in m || m[OverrideReasonKey].Null?) ==> r.value.overrideReason == None
  {
    match (EventHeadOf(m), EventCountsOf(m), EventExtrasOf(m))
    case (Some(head), Some(counts), Some(extras)) =>
      Some(AuditEvent(head.0, head.1, head.2, head.3, head.4, counts.0, counts.1, counts.2, counts.3, counts.4,
                      extras.0, extras.1, extras.2, extras.3, extras.4))
    case _ => None
  }

  function OptionalStrValue(o: Option<string>): Value
  {
    match o case None => Null case Some(t) => Str(t)
  }

  /** `AuditEvent.to_dict`: one entry per field, absent options as null. */
  function EventToDict(e: AuditEvent): (m: map<string, Value>)
    ensures forall key :: key in RequiredKeys ==> key in m
  {
    map[EventIdKey := Str(e.eventId), TimestampKey := Int(e.timestamp), RepoNameKey := Str(e.repoName),
        PrNumberKey := Int(e.prNumber), CommitHashKey := Str(e.commitHash),
        ViolationCountKey := Int(e.violationCount), CriticalCountKey := Int(e.criticalCount),
        HighCountKey := Int(e.highCount), ActionKey := Str(e.enforcementAction),
        BlockedKey := Bool(e.blocked), OverrideAppliedKey := Bool(e.overrideApplied),
        OverrideReasonKey := OptionalStrValue(e.overrideReason), PrUrlKey := OptionalStrValue(e.prUrl),
        ScanIdKey := OptionalStrValue(e.scanId),
        SummaryKey := match e.violationsSummary case None => Null case Some(items) => List(items)]
  }

  /** An event written out by `to_dict` is read back unchanged by
      `_create_event_from_dict`. */
  lemma EventRoundTrip(e: AuditEvent)
    ensures EventFromDict(EventToDict(e)) == Some(e)
  {
    EventHeadRoundTrip(e);
    EventCountsRoundTrip(e);
    EventExtrasRoundTrip(e);
  }

  lemma EventHeadRoundTrip(e: AuditEvent)
    ensures EventHeadOf(EventToDict(e)) == Some((e.eventId, e.timestamp, e.repoName, e.prNumber, e.commitHash))
  {
    var m := EventToDict(e);
    assert m[EventIdKey] == Str(e.eventId) && m[TimestampKey] == Int(e.timestamp);
    assert m[RepoNameKey] == Str(e.repoName) && m[PrNumberKey] == Int(e.prNumber);
    assert m[CommitHashKey] == Str(e.commitHash);
  }

  lemma EventCountsRoundTrip(e: AuditEvent)
    ensures EventCountsOf(EventToDict(e)) == Some((e.violationCount, e.criticalCount, e.highCount, e.enforcementAction, e.blocked))
  {
    var m := EventToDict(e);
    assert m[ViolationCountKey] == Int(e.violationCount) && m[CriticalCountKey] == Int(e.criticalCount);
    assert m[HighCountKey] == Int(e.highCount) && m[ActionKey] == Str(e.enforcementAction);
    assert m[BlockedKey] == Bool(e.blocked);
  }

  lemma EventExtrasRoundTrip(e: AuditEvent)
    ensures EventExtrasOf(EventToDict(e)) == Some((e.overrideApplied, e.overrideReason, e.prUrl, e.scanId, e.violationsSummary))
  {
    var m := EventToDict(e);
    assert OverrideAppliedKey in m && m[OverrideAppliedKey] == Bool(e.overrideApplied);
    assert m[OverrideReasonKey] == OptionalStrValue(e.overrideReason) && m[PrUrlKey] == OptionalStrValue(e.prUrl);
    assert m[ScanIdKey] == OptionalStrValue(e.scanId);
    assert SummaryKey in m && m[SummaryKey] == match e.violationsSummary case None => Null case Some(items) => List(items);
  }

  /** The default `log_dir` of `AuditLogger`. */
  const DefaultLogDir := "audit_logs"

  /** `AuditLogger`: the events logged or loaded, in order. */
  class Logger {
    var logDir: string
    var events: seq<AuditEvent>

    /** A logger starts with no event; loading the files already in
        `logDir` is `LoadContent`, once per file. */
    constructor (logDir: string)
      ensures this.logDir == logDir && events == []
    {
      this.logDir := logDir;
      events := [];
    }

    /** `log_scan`: appends one scan event and returns it. */
    method LogScan(repoName: string, prNumber: int, commitHash: string, violationCount: int, criticalCount: int,
                   highCount: int, enforcementAction: string, blocked: bool, scanId: string,
                   violationsSummary: Option<seq<Value>>, prUrl: Option<string>, eventId: string, now: int)
      returns (event: AuditEvent)
      modifies this
      ensures events == old(events) + [event] && logDir == old(logDir)
      ensures event == AuditEvent(eventId, now, repoName, prNumber, commitHash, violationCount, criticalCount,
                                  highCount, enforcementAction, blocked, false, None, prUrl, Some(scanId),
                                  violationsSummary)
    {
      event := AuditEvent(eventId, now, repoName, prNumber, commitHash, violationCount, criticalCount,
                          highCount, enforcementAction, blocked, false, None, prUrl, Some(scanId), violationsSummary);
      events := events + [event];
    }

    /** `log_override`: appends one override event, which blocks nothing
        and counts nothing, and returns it. The token is not recorded. */
    method LogOverride(repoName: string, prNumber: int, overrideReason: string, overrideToken: string,
                       eventId: string, now: int)
      returns (event: AuditEvent)
      modifies this
      ensures events == old(events) + [event] && logDir == old(logDir)
      ensures event.overrideApplied && !event.blocked && event.enforcementAction == OverrideAction
      ensures event.violationCount == 0 && event.criticalCount == 0 && event.highCount == 0
      ensures event.repoName == repoName && event.prNumber == prNumber && event.commitHash == ""
      ensures event.overrideReason == Some(overrideReason) && event.eventId == eventId && event.timestamp == now
      ensures event.prUrl == None && event.scanId == None && event.violationsSummary == None
    {
      event := AuditEvent(eventId, now, repoName, prNumber, "", 0, 0, 0, OverrideAction, false, true,
                          Some(overrideReason), None, None, None);
      events := events + [event];
    }

    /** `get_events_by_repo`: the events of `repoName`, in order. */
    function GetEventsByRepo(repoName: string): (r: seq<AuditEvent>)
      reads this
      ensures r == Filter(events, SameRepo(repoName))
      ensures forall e :: e in r <==> e in events && e.repoName == repoName
      ensures |r| <= |events|
    {
      FilterEventsMembership(events, SameRepo(repoName));
      Filter(events, SameRepo(repoName))
    }

    /** `get_events_by_date_range`: the events logged between `startDate`
        and `endDate`, both included, in order. */
    method GetEventsByDateRange(startDate: int, endDate: int) returns (r: seq<AuditEvent>)
      ensures r == Filter(events, InRange(startDate, endDate))
      ensures forall e :: e in r <==> e in events && startDate <= e.timestamp <= endDate
    {
      r := [];
      var i := 0;
      while i < |events|
        invariant 0 <= i <= |events|
        invariant r == Filter(events[..i], InRange(startDate, endDate))
      {
        assert events[..i + 1][..i] == events[..i];
        var eventTime := events[i].timestamp;
        if startDate <= eventTime <= endDate {
          r := r + [events[i]];
        }
        i := i + 1;
      }
      assert events[..i] == events;
      FilterEventsMembership(events, InRange(startDate, endDate));
    }

    /** `get_violations_summary`. */
    function GetViolationsSummary(): (s: Summary)
      reads this
      ensures s.totalScans == |events|
      ensures s.totalBlocked <= s.totalScans && s.totalOverrides <= s.totalScans
    {
      SummaryOf(events)
    }

    /** `_create_event_from_dict`: appends the event the dictionary
        describes, or nothing when it cannot be built. */
    method CreateEventFromDict(eventDict: map<string, Value>)
      modifies this
      ensures events == old(events) + (match EventFromDict(eventDict) case Some(e) => [e] case None => [])
      ensures logDir == old(logDir)
    {
      var event := EventFromDict(eventDict);
      if event.Some? {
        events := events + [event.value];
      }
    }

    /** The per-file part of `load_audit_logs`: the objects of the content,
        each decoded and turned into an event; an object that does not
        decode, or whose dictionary is incomplete, is skipped. */
    method LoadContent(content: string, decode: string -> Option<map<string, Value>>)
      returns (objects: seq<string>, ghost spans: seq<(nat, nat)>)
      modifies this
      ensures events == old(events) + LoadedEvents(objects, decode)
      ensures logDir == old(logDir)
      ensures |objects| == |spans| && Ordered(spans)
      ensures forall k :: 0 <= k < |spans| ==> ObjectSpan(content, spans[k]) && objects[k] == content[spans[k].0..spans[k].1]
      ensures forall lo: nat, hi: nat :: (lo, hi) in spans <==> IsObject(content, lo, hi)
    {
      objects, spans := SplitObjects(content);
      LoadObjects(objects, decode);
    }

    /** The loop of `load_audit_logs` over the objects of one file. */
    method LoadObjects(objects: seq<string>, decode: string -> Option<map<string, Value>>)
      modifies this
      ensures events == old(events) + LoadedEvents(objects, decode)
      ensures logDir == old(logDir)
    {
      var i := 0;
      while i < |objects|
        invariant 0 <= i <= |objects|
        invariant events == old(events) + LoadedEvents(objects[..i], decode)
        invariant logDir == old(logDir)
      {
        assert objects[..i + 1][..i] == objects[..i];
        LoadObject(objects[i], decode);
        i := i + 1;
      }
      assert objects[..i] == objects;
    }

    /** One object of a log file: decoded, then built into an event. */
    method LoadObject(obj: string, decode: string -> Option<map<string, Value>>)
      modifies this
      ensures events == old(events) + LoadedEvent(decode, obj)
      ensures logDir == old(logDir)
    {
      var eventDict := decode(obj);
      if eventDict.Some? {
        CreateEventFromDict(eventDict.value);
      }
    }
  }

  function SameRepo(repoName: string): AuditEvent -> bool
  {
    (e: AuditEvent) => e.repoName == repoName
  }

  function InRange(startDate: int, endDate: int): AuditEvent -> bool
  {
    (e: AuditEvent) => startDate <= e.timestamp <= endDate
  }

  lemma FilterEventsMembership(events: seq<AuditEvent>, p: AuditEvent -> bool)
    ensures forall e :: e in Filter(events, p) <==> e in events && p(e)
  {
    forall e | true
      ensures e in Filter(events, p) <==> e in events && p(e)
    {
      FilterMembership(events, p, e);
    }
  }

  /** The event a decoded object yields, if any. */
  function LoadedEvent(decode: string -> Option<map<string, Value>>, obj: string): seq<AuditEvent>
  {
    match decode(obj)
    case None => []
    case Some(m) => match EventFromDict(m) case Some(e) => [e] case None => []
  }

  /** The events recovered from the objects, in order. */
  function LoadedEvents(objects: seq<string>, decode: string -> Option<map<string, Value>>): (r: seq<AuditEvent>)
    ensures |r| <= |objects|
  {
    if |objects| == 0 then []
    else LoadedEvents(objects[..|objects| - 1], decode) + LoadedEvent(decode, objects[|objects| - 1])
  }
}
