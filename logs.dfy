/** The log query endpoint (backend/app/routers/logs.py): the level/source/search predicate,
    the `read_logs` limit and count, and the server-sent-event frame. `json.dumps` is the
    parameter `dumps`. */
module Logs {
  import opened Base
  import opened Text
  import opened PyValues
  import LB = LogBuffer

  const DefaultLimit := 200
  const MaxLimit := 2000

  /** `entry.get(key)`. */
  function Get(e: LB.Entry, key: string): PyValue
  {
    if key in e then e[key] else PyNone
  }

  /** The `extra` value the search falls back to: `(entry.get("meta") or {}).get("extra")`. */
  function ExtraOf(e: LB.Entry): PyValue
  {
    var meta := if Truthy(Get(e, "meta")) then Get(e, "meta") else PyDict([]);
    if meta.PyDict? then
      var found := DictGet(meta.items, KStr("extra"));
      if found.Some? then found.value else PyNone
    else PyNone
  }

  /** The closure `_build_predicate(level, source, search)` returns, applied to `e`. */
  predicate Accepts(dumps: PyValue -> string, level: Option<string>, source: Option<string>,
                    search: Option<string>, e: LB.Entry)
  {
    if NonEmpty(level) && Get(e, "level") != PyStr(Upper(level.value)) then false
    else if NonEmpty(source) && Get(e, "source") != PyStr(source.value) then false
    else if NonEmpty(search) then
      var needle := Lower(search.value);
      var message := Lower(Str(if "msg" in e then e["msg"] else PyStr("")));
      if Contains(message, needle) then true
      else
        var extra := ExtraOf(e);
        extra.PyDict? && Contains(Lower(dumps(extra)), needle)
    else true
  }

  /** With no level, source or search, every entry is accepted. */
  lemma AcceptsAllWithoutCriteria(dumps: PyValue -> string, level: Option<string>, source: Option<string>,
                                  search: Option<string>, e: LB.Entry)
    requires !NonEmpty(level) && !NonEmpty(source) && !NonEmpty(search)
    ensures Accepts(dumps, level, source, search, e)
  {
  }

  /** An accepted entry has the upper-cased level and exactly the requested source. */
  lemma AcceptedLevelAndSource(dumps: PyValue -> string, level: Option<string>, source: Option<string>,
                               search: Option<string>, e: LB.Entry)
    requires Accepts(dumps, level, source, search, e)
    ensures NonEmpty(level) ==> Get(e, "level") == PyStr(Upper(level.value))
    ensures NonEmpty(source) ==> Get(e, "source") == PyStr(source.value)
  {
  }

  /** The search criterion: a case-insensitive match in `str(msg)` accepts; otherwise only a
      dict-valued `meta.extra` whose lower-cased JSON text contains the needle does. */
  lemma SearchCriterion(dumps: PyValue -> string, search: string, e: LB.Entry)
    requires search != ""
    ensures var needle := Lower(search);
            var message := Lower(Str(if "msg" in e then e["msg"] else PyStr("")));
            && (Contains(message, needle) ==> Accepts(dumps, None, None, Some(search), e))
            && (!Contains(message, needle) && !ExtraOf(e).PyDict? ==> !Accepts(dumps, None, None, Some(search), e))
            && (!Contains(message, needle) && ExtraOf(e).PyDict? ==>
                  (Accepts(dumps, None, None, Some(search), e) <==> Contains(Lower(dumps(ExtraOf(e))), needle)))
  {
  }

  /** Matching is case-insensitive on both sides: the search text's case does not matter. */
  lemma {:induction false} SearchCaseInsensitive(dumps: PyValue -> string, level: Option<string>,
                                                 source: Option<string>, search: string, e: LB.Entry)
    ensures Accepts(dumps, level, source, Some(search), e) == Accepts(dumps, level, source, Some(Lower(search)), e)
  {
    LowerIdempotent(search);
    assert |Lower(search)| == |search|;
  }

  // ---------------------------------------------------------------- read_logs

  /** The `filters` argument `read_logs` passes to `tail`. */
  function QueryFilters(level: Option<string>, source: Option<string>): map<string, PyValue>
  {
    map["level" := if NonEmpty(level) then PyStr(Upper(level.value)) else PyNone,
        "source" := if source.Some? then PyStr(source.value) else PyNone]
  }

  datatype LogsPage = LogsPage(logs: seq<LB.Entry>, count: int)

  /** `read_logs` on a snapshot of the buffer; a limit outside 1..2000 is refused with 422
      by the query validation. */
  function ReadLogs(snapshot: seq<LB.Entry>, dumps: PyValue -> string, limit: int, level: Option<string>,
                    source: Option<string>, search: Option<string>): Result<LogsPage>
  {
    if limit < 1 || limit > MaxLimit then Err(HttpError(422, "limit must be between 1 and 2000"))
    else
      var pred := Some((e: LB.Entry) => Accepts(dumps, level, source, search, e));
      var entries := LB.TailOf(snapshot, Some(limit), QueryFilters(level, source), pred);
      Ok(LogsPage(entries, |entries|))
  }

  /** The reported count is the number of entries returned, at most the limit; every entry
      is in the buffer and satisfies the predicate, and they are the most recent matches. */
  lemma ReadLogsPage(snapshot: seq<LB.Entry>, dumps: PyValue -> string, limit: int, level: Option<string>,
                     source: Option<string>, search: Option<string>)
    ensures var r := ReadLogs(snapshot, dumps, limit, level, source, search);
            && (r.Ok? <==> 1 <= limit <= MaxLimit)
            && (r.Err? ==> r.error.HttpError? && r.error.status == 422)
            && (r.Ok? ==>
                  && r.value.count == |r.value.logs| <= limit
                  && (forall e :: e in r.value.logs ==>
                        e in snapshot && Accepts(dumps, level, source, search, e))
                  && r.value.logs == LastN(LB.Select(snapshot, QueryFilters(level, source),
                       Some((e: LB.Entry) => Accepts(dumps, level, source, search, e))), limit))
  {
    if 1 <= limit <= MaxLimit {
      var pred := Some((e: LB.Entry) => Accepts(dumps, level, source, search, e));
      LB.TailWithPositiveLimit(snapshot, limit, QueryFilters(level, source), pred);
    }
  }

  /** With an empty `source` query parameter the predicate ignores the source, but `filters`
      still asks for `source == ""`, so an entry with any other source is not returned. */
  lemma EmptySourceDropsEntries(dumps: PyValue -> string)
    ensures var e := map["ts" := PyStr("t"), "level" := PyStr("INFO"), "source" := PyStr("app"),
                         "msg" := PyStr("hello"), "meta" := PyDict([])];
            && Accepts(dumps, None, Some(""), None, e)
            && ReadLogs([e], dumps, 10, None, Some(""), None) == Ok(LogsPage([], 0))
  {
    var e := map["ts" := PyStr("t"), "level" := PyStr("INFO"), "source" := PyStr("app"),
                 "msg" := PyStr("hello"), "meta" := PyDict([])];
    var pred := Some((x: LB.Entry) => Accepts(dumps, None, Some(""), None, x));
    var f := QueryFilters(None, Some(""));
    assert "source" in f && f["source"] == PyStr("");
    assert !LB.FilterHolds(e, "source", PyStr(""));
    assert !LB.Matches(e, QueryFilters(None, Some("")), pred);
    assert LB.Select([e], QueryFilters(None, Some("")), pred) == [];
  }

  /** The filters as the predicate reads them: an empty source means no source filter. */
  function IntendedFilters(level: Option<string>, source: Option<string>): map<string, PyValue>
  {
    map["level" := if NonEmpty(level) then PyStr(Upper(level.value)) else PyNone,
        "source" := if NonEmpty(source) then PyStr(source.value) else PyNone]
  }

  /** `read_logs` with the filters agreeing with the predicate. */
  function ReadLogsIntended(snapshot: seq<LB.Entry>, dumps: PyValue -> string, limit: int, level: Option<string>,
                            source: Option<string>, search: Option<string>): Result<LogsPage>
  {
    if limit < 1 || limit > MaxLimit then Err(HttpError(422, "limit must be between 1 and 2000"))
    else
      var pred := Some((e: LB.Entry) => Accepts(dumps, level, source, search, e));
      var entries := LB.TailOf(snapshot, Some(limit), IntendedFilters(level, source), pred);
      Ok(LogsPage(entries, |entries|))
  }

  /** With the intended filters an entry is selected exactly when the predicate accepts it:
      the filters add nothing to the predicate. */
  lemma IntendedFiltersAreRedundant(dumps: PyValue -> string, level: Option<string>, source: Option<string>,
                                    search: Option<string>, e: LB.Entry)
    ensures LB.Matches(e, IntendedFilters(level, source), Some((x: LB.Entry) => Accepts(dumps, level, source, search, x)))
            <==> Accepts(dumps, level, source, search, e)
  {
    var f := IntendedFilters(level, source);
    if Accepts(dumps, level, source, search, e) {
      assert LB.FilterHolds(e, "level", f["level"]);
      assert LB.FilterHolds(e, "source", f["source"]);
    }
  }

  /** So with no criteria at all the intended query returns the last `limit` entries of the buffer. */
  lemma {:induction false} IntendedSelectsAll(snapshot: seq<LB.Entry>, dumps: PyValue -> string,
                                              level: Option<string>, source: Option<string>, search: Option<string>)
    requires !NonEmpty(level) && !NonEmpty(source) && !NonEmpty(search)
    ensures LB.Select(snapshot, IntendedFilters(level, source),
                      Some((x: LB.Entry) => Accepts(dumps, level, source, search, x))) == snapshot
  {
    var pred := Some((x: LB.Entry) => Accepts(dumps, level, source, search, x));
    if snapshot != [] {
      IntendedFiltersAreRedundant(dumps, level, source, search, snapshot[0]);
      IntendedSelectsAll(snapshot[1..], dumps, level, source, search);
      assert [snapshot[0]] + snapshot[1..] == snapshot;
    }
  }

  /** With no criteria (an empty source included) the intended query returns the most recent
      `limit` entries of the buffer. */
  lemma ReadLogsIntendedUnfiltered(snapshot: seq<LB.Entry>, dumps: PyValue -> string, limit: int,
                                   level: Option<string>, source: Option<string>, search: Option<string>)
    requires 1 <= limit <= MaxLimit
    requires !NonEmpty(level) && !NonEmpty(source) && !NonEmpty(search)
    ensures ReadLogsIntended(snapshot, dumps, limit, level, source, search)
            == Ok(LogsPage(LastN(snapshot, limit), Min(limit, |snapshot|)))
  {
    IntendedSelectsAll(snapshot, dumps, level, source, search);
    var pred := Some((e: LB.Entry) => Accepts(dumps, level, source, search, e));
    LB.TailWithPositiveLimit(snapshot, limit, IntendedFilters(level, source), pred);
  }

  // ---------------------------------------------------------------- SSE

  /** `_format_sse`: one server-sent event carrying the JSON text. */
  function FormatSse(dumps: PyValue -> string, data: PyValue): string
  {
    "data: " + dumps(data) + "\n\n"
  }

  /** The JSON text of a frame: what follows "data: " before the blank line. */
  function SsePayload(frame: string): Option<string>
  {
    if |frame| >= 8 && frame[..6] == "data: " && frame[|frame| - 2..] == "\n\n"
    then Some(frame[6..|frame| - 2]) else None
  }

  /** A frame gives back the JSON text it was built from, and for JSON without a raw line
      break it is exactly one data line followed by the empty line ending the event. */
  lemma SseRoundTrip(dumps: PyValue -> string, data: PyValue)
    ensures SsePayload(FormatSse(dumps, data)) == Some(dumps(data))
    ensures '\n' !in dumps(data) ==> Split(FormatSse(dumps, data), '\n') == ["data: " + dumps(data), "", ""]
  {
    var f := FormatSse(dumps, data);
    assert f[6..|f| - 2] == dumps(data);
    if '\n' !in dumps(data) {
      var line := "data: " + dumps(data);
      assert '\n' !in line;
      assert f == line + ['\n'] + ("" + ['\n'] + "");
      SplitAtSeparator(line, "" + ['\n'] + "", '\n');
      assert "" + ['\n'] + "" == "\n";
      SplitAtSeparator("", "", '\n');
    }
  }
}
