/** The logging handler that turns log records into five-key buffer entries
    (backend/app/services/loghandler.py). */
module LogHandler {
  import opened Base
  import opened PyValues
  import LB = LogBuffer

  /** The attribute names of a standard log record, never copied into `meta.extra`. */
  const Reserved: set<string> := {
    "name", "msg", "args", "levelname", "levelno", "pathname", "filename", "module",
    "exc_info", "exc_text", "stack_info", "lineno", "funcName", "created", "msecs",
    "relativeCreated", "thread", "threadName", "processName", "process", "message",
    "asctime", "stacklevel", "taskName", "sinfo"
  }

  // ---------------------------------------------------------------- _safe_json

  /** `_safe_json`: containers are rebuilt (dict keys through `str`, tuples and sets as lists),
      leaves `json.dumps` refuses become their `repr`. */
  function SafeJson(v: PyValue): PyValue
    decreases v, 1
  {
    match v
    case PyNone => v
    case PyBool(_) => v
    case PyInt(_) => v
    case PyFloat(_) => v
    case PyStr(_) => v
    case PyDict(items) =>
      PyDict(DictFromPairs(SafePairs(v)))
    case PyList(e) => PyList(seq(|e|, i requires 0 <= i < |e| => SafeJson(e[i])))
    case PyTuple(e) => PyList(seq(|e|, i requires 0 <= i < |e| => SafeJson(e[i])))
    case PySet(e) => PyList(seq(|e|, i requires 0 <= i < |e| => SafeJson(e[i])))
    case PyObject(r, ok) => if ok then v else PyStr(r)
  }

  /** The string-keyed pairs the dict comprehension of `_safe_json` visits, before equal key
      texts merge. */
  function SafePairs(d: PyValue): (r: seq<(PyKey, PyValue)>)
    requires d.PyDict?
    ensures |r| == |d.items|
    decreases d, 0
  {
    seq(|d.items|, i requires 0 <= i < |d.items| =>
      var item := d.items[i]; assert item in d.items; (PyKey.KStr(KeyStr(item.0)), SafeJson(item.1)))
  }

  predicate IsScalar(v: PyValue)
  {
    v.PyNone? || v.PyBool? || v.PyInt? || v.PyFloat? || v.PyStr?
  }

  /** A value already in sanitised form: scalars, dicts with distinct string keys, lists and
      serialisable objects, all the way down. */
  predicate JsonSafe(v: PyValue)
    decreases v
  {
    match v
    case PyDict(items) =>
      DistinctKeys(items)
      && forall i :: 0 <= i < |items| ==> items[i].0.KStr? && (assert items[i] in items; JsonSafe(items[i].1))
    case PyList(e) => forall i :: 0 <= i < |e| ==> JsonSafe(e[i])
    case PyTuple(_) => false
    case PySet(_) => false
    case PyObject(_, ok) => ok
    case _ => true
  }

  /** What `_safe_json` does to each kind of value; in a dict, keys whose `str` texts coincide
      merge into one item holding the value of the last of them. */
  lemma SafeJsonShape(v: PyValue)
    ensures IsScalar(v) ==> SafeJson(v) == v
    ensures v.PyDict? ==>
              var r := SafeJson(v);
              r.PyDict? && DistinctKeys(r.items) && |r.items| <= |v.items|
              && (forall k :: HasItemKey(r.items, k) <==>
                    exists i :: 0 <= i < |v.items| && k == PyKey.KStr(KeyStr(v.items[i].0)))
              && (forall i ::
                    (0 <= i < |v.items|
                     && forall j :: i < j < |v.items| ==> KeyStr(v.items[j].0) != KeyStr(v.items[i].0)) ==>
                    DictGet(r.items, PyKey.KStr(KeyStr(v.items[i].0))) == Some(SafeJson(v.items[i].1)))
    ensures (v.PyList? || v.PyTuple? || v.PySet?) ==>
              var r := SafeJson(v);
              r.PyList? && |r.elems| == |v.elems|
              && forall i :: 0 <= i < |v.elems| ==> r.elems[i] == SafeJson(v.elems[i])
    ensures v.PyObject? ==> SafeJson(v) == if v.serialisable then v else PyStr(v.repr)
  {
    if v.PyDict? {
      var p := SafePairs(v);
      DictFromPairsKeys(p);
      forall k ensures HasItemKey(p, k) <==> exists i :: 0 <= i < |v.items| && k == PyKey.KStr(KeyStr(v.items[i].0)) {
        if HasItemKey(p, k) {
          var i :| 0 <= i < |p| && p[i].0 == k;
          assert k == PyKey.KStr(KeyStr(v.items[i].0));
        }
        if exists i :: 0 <= i < |v.items| && k == PyKey.KStr(KeyStr(v.items[i].0)) {
          var i :| 0 <= i < |v.items| && k == PyKey.KStr(KeyStr(v.items[i].0));
          assert p[i].0 == k;
        }
      }
      forall i | 0 <= i < |v.items|
          && (forall j :: i < j < |v.items| ==> KeyStr(v.items[j].0) != KeyStr(v.items[i].0))
        ensures DictGet(SafeJson(v).items, PyKey.KStr(KeyStr(v.items[i].0))) == Some(SafeJson(v.items[i].1))
      {
        assert forall j :: i < j < |p| ==> p[j].0 != p[i].0;
        DictFromPairsLastWins(p, i);
      }
    }
  }

  /** A sanitised dict lists each key text where it first occurred. */
  lemma SafeJsonKeyOrder(v: PyValue)
    requires v.PyDict?
    ensures KeysOf(SafeJson(v).items) == Dedup(KeysOf(SafePairs(v)))
    ensures forall i :: 0 <= i < |v.items| ==> KeysOf(SafePairs(v))[i] == PyKey.KStr(KeyStr(v.items[i].0))
  {
    DictFromPairsOrder(SafePairs(v));
  }

  /** Two keys with the same text: `{1: "a", "1": "b"}` sanitises to `{"1": "b"}`. */
  lemma SafeJsonMergesKeyTexts()
    ensures SafeJson(PyDict([(PyKey.KInt(1), PyStr("a")), (PyKey.KStr("1"), PyStr("b"))]))
            == PyDict([(PyKey.KStr("1"), PyStr("b"))])
  {
    var v := PyDict([(PyKey.KInt(1), PyStr("a")), (PyKey.KStr("1"), PyStr("b"))]);
    assert KeyStr(PyKey.KInt(1)) == "1";
    var p := SafePairs(v);
    assert p == [(PyKey.KStr("1"), PyStr("a")), (PyKey.KStr("1"), PyStr("b"))];
    assert DictFromPairs(p[..1]) == [(PyKey.KStr("1"), PyStr("a"))];
    assert HasItemKey(DictFromPairs(p[..1]), PyKey.KStr("1")) by {
      assert DictFromPairs(p[..1])[0].0 == PyKey.KStr("1");
    }
  }

  /** The result of `_safe_json` is always in sanitised form. */
  lemma {:induction false} SafeJsonIsJsonSafe(v: PyValue)
    ensures JsonSafe(SafeJson(v))
    decreases v
  {
    match v
    case PyDict(items) =>
      var p := SafePairs(v);
      var r := DictFromPairs(p);
      DictFromPairsKeys(p);
      forall j | 0 <= j < |r|
        ensures r[j].0.KStr? && JsonSafe(r[j].1)
      {
        var i :| 0 <= i < |p| && p[i] == r[j];
        assert items[i] in items;
        SafeJsonIsJsonSafe(items[i].1);
      }
    case PyList(e) =>
      forall i | 0 <= i < |e| ensures JsonSafe(SafeJson(e[i])) { SafeJsonIsJsonSafe(e[i]); }
    case PyTuple(e) =>
      forall i | 0 <= i < |e| ensures JsonSafe(SafeJson(e[i])) { SafeJsonIsJsonSafe(e[i]); }
    case PySet(e) =>
      forall i | 0 <= i < |e| ensures JsonSafe(SafeJson(e[i])) { SafeJsonIsJsonSafe(e[i]); }
    case _ =>
  }

  /** `_safe_json` leaves a value in sanitised form alone. */
  lemma {:induction false} SafeJsonKeepsJsonSafe(v: PyValue)
    requires JsonSafe(v)
    ensures SafeJson(v) == v
    decreases v
  {
    match v
    case PyDict(items) =>
      var p := SafePairs(v);
      forall i | 0 <= i < |items|
        ensures p[i] == items[i]
      {
        assert items[i] in items;
        SafeJsonKeepsJsonSafe(items[i].1);
      }
      assert p == items;
      DictFromDistinctPairs(items);
    case PyList(e) =>
      forall i | 0 <= i < |e| ensures SafeJson(e[i]) == e[i] { SafeJsonKeepsJsonSafe(e[i]); }
      assert SafeJson(v).elems == e;
    case _ =>
  }

  /** Sanitising twice is sanitising once. */
  lemma SafeJsonIdempotent(v: PyValue)
    ensures SafeJson(SafeJson(v)) == SafeJson(v)
  {
    SafeJsonIsJsonSafe(v);
    SafeJsonKeepsJsonSafe(SafeJson(v));
  }

  // ---------------------------------------------------------------- _format_entry

  /** The parts of a `logging.LogRecord` the handler reads. `ts` is the UTC ISO-8601 text of
      `created`, `message` the result of `getMessage()` or the exception it raises (a format
      string its arguments do not fit), `excType` the name of the exception
      class when `exc_info` is set, and `attrs` the record's `__dict__` in insertion order (its names distinct). */
  datatype LogRecord = LogRecord(
    ts: string,
    name: string,
    levelname: string,
    message: Result<string>,
    moduleName: string,
    funcName: string,
    lineno: int,
    process: Option<int>,
    thread: Option<int>,
    excType: Option<string>,
    excText: Option<string>,
    attrs: seq<(string, PyValue)>)

  function OptInt(o: Option<int>): PyValue
  {
    if o.Some? then PyInt(o.value) else PyNone
  }

  /** The `extras` comprehension: the non-reserved attributes, sanitised, in order. */
  function Extras(attrs: seq<(string, PyValue)>): seq<(PyKey, PyValue)>
  {
    if attrs == [] then []
    else if attrs[0].0 in Reserved then Extras(attrs[1..])
    else [(PyKey.KStr(attrs[0].0), SafeJson(attrs[0].1))] + Extras(attrs[1..])
  }

  /** `extras` holds no reserved name, holds every other attribute sanitised, and is empty
      exactly when every attribute is reserved. */
  lemma {:induction false} ExtrasContents(attrs: seq<(string, PyValue)>)
    ensures var r := Extras(attrs);
            && (forall i :: 0 <= i < |r| ==> r[i].0.KStr? && r[i].0.s !in Reserved)
            && (forall i :: 0 <= i < |attrs| && attrs[i].0 !in Reserved ==>
                  (PyKey.KStr(attrs[i].0), SafeJson(attrs[i].1)) in r)
            && (r == [] <==> forall i :: 0 <= i < |attrs| ==> attrs[i].0 in Reserved)
  {
    if attrs != [] {
      var rest := Extras(attrs[1..]);
      ExtrasContents(attrs[1..]);
      assert forall i :: 1 <= i < |attrs| ==> attrs[i] == attrs[1..][i - 1];
    }
  }

  /** The fixed part of `meta`. */
  function MetaBase(r: LogRecord): seq<(PyKey, PyValue)>
  {
    [ (PyKey.KStr("logger"), PyStr(r.name)),
      (PyKey.KStr("module"), PyStr(r.moduleName)),
      (PyKey.KStr("function"), PyStr(r.funcName)),
      (PyKey.KStr("line"), PyInt(r.lineno)),
      (PyKey.KStr("process"), OptInt(r.process)),
      (PyKey.KStr("thread"), OptInt(r.thread)) ]
  }

  function ExcTypeItem(r: LogRecord): seq<(PyKey, PyValue)>
  {
    if r.excType.Some? then [(PyKey.KStr("exc_type"), PyStr(r.excType.value))] else []
  }

  function ExcTextItem(r: LogRecord): seq<(PyKey, PyValue)>
  {
    if NonEmpty(r.excText) then [(PyKey.KStr("exc_text"), PyStr(r.excText.value))] else []
  }

  function ExtraItem(r: LogRecord): seq<(PyKey, PyValue)>
  {
    var extras := Extras(r.attrs);
    if extras != [] then [(PyKey.KStr("extra"), PyDict(extras))] else []
  }

  /** The `meta` dict, in insertion order. */
  function MetaItems(r: LogRecord): seq<(PyKey, PyValue)>
  {
    MetaBase(r) + ExcTypeItem(r) + ExcTextItem(r) + ExtraItem(r)
  }

  /** `_format_entry`: raises what `getMessage()` raises, and otherwise builds the five-key dict. */
  function FormatEntry(r: LogRecord): (res: Result<PyValue>)
    ensures res.Err? <==> r.message.Err?
    ensures res.Err? ==> res.error == r.message.error
    ensures res.Ok? ==> res.value.PyDict? && |res.value.items| == 5
  {
    if r.message.Err? then Err(r.message.error)
    else
      Ok(PyDict([
        (PyKey.KStr("ts"), PyStr(r.ts)),
        (PyKey.KStr("level"), PyStr(r.levelname)),
        (PyKey.KStr("source"), PyStr(r.name)),
        (PyKey.KStr("msg"), PyStr(r.message.value)),
        (PyKey.KStr("meta"), PyDict(MetaItems(r)))]))
  }

  /** Each of the five keys of a formatted record is looked up to its field. */
  lemma FormatEntryLookups(r: LogRecord)
    requires r.message.Ok?
    ensures var items := FormatEntry(r).value.items;
            && DictGet(items, KStr("ts")) == Some(PyStr(r.ts))
            && DictGet(items, KStr("level")) == Some(PyStr(r.levelname))
            && DictGet(items, KStr("source")) == Some(PyStr(r.name))
            && DictGet(items, KStr("msg")) == Some(PyStr(r.message.value))
            && DictGet(items, KStr("meta")) == Some(PyDict(MetaItems(r)))
  {
    var items := FormatEntry(r).value.items;
    DictGetUnique(items, 0);
    DictGetUnique(items, 1);
    DictGetUnique(items, 2);
    DictGetUnique(items, 3);
    DictGetUnique(items, 4);
  }

  /** A formatted record holds every key `_sanitize_entry` requires. */
  lemma FormatEntryHasRequiredKeys(r: LogRecord)
    requires r.message.Ok?
    ensures LB.HasRequiredKeys(FormatEntry(r).value.items)
  {
    var items := FormatEntry(r).value.items;
    forall k | k in LB.RequiredKeys
      ensures LB.HasKey(items, k)
    {
      var i := if k == "ts" then 0 else if k == "level" then 1 else if k == "source" then 2
               else if k == "msg" then 3 else 4;
      assert items[i].0 == KStr(k);
    }
  }

  /** The stored form of a formatted record. */
  function EntryOf(r: LogRecord): LB.Entry
    requires r.message.Ok?
  {
    FormatEntryHasRequiredKeys(r);
    LB.Restrict(FormatEntry(r).value.items)
  }

  /** A formatted record always passes `_sanitize_entry`; it is stored with exactly the five
      keys, the logger name as source. */
  lemma FormatEntryIsAccepted(r: LogRecord)
    requires r.message.Ok?
    ensures LB.SanitizeEntry(FormatEntry(r).value) == Ok(EntryOf(r))
    ensures var e := EntryOf(r);
            && LB.WellFormed(e)
            && e["ts"] == PyStr(r.ts) && e["level"] == PyStr(r.levelname)
            && e["source"] == PyStr(r.name) && e["msg"] == PyStr(r.message.value)
            && e["meta"] == PyDict(MetaItems(r))
  {
    var entry := FormatEntry(r).value;
    FormatEntryLookups(r);
    FormatEntryHasRequiredKeys(r);
    LB.SanitizeAccepts(entry);
  }

  lemma MetaHasKey(r: LogRecord, key: PyKey)
    ensures HasItemKey(MetaItems(r), key) <==>
              HasItemKey(MetaBase(r), key) || HasItemKey(ExcTypeItem(r), key)
              || HasItemKey(ExcTextItem(r), key) || HasItemKey(ExtraItem(r), key)
  {
    var a, b, c, d := MetaBase(r), ExcTypeItem(r), ExcTextItem(r), ExtraItem(r);
    HasItemKeyConcat(a, b, key);
    HasItemKeyConcat(a + b, c, key);
    HasItemKeyConcat(a + b + c, d, key);
  }

  /** `meta.extra` exists exactly when the record has a non-reserved attribute, and then is
      the sanitised non-reserved attributes, none of them a reserved name. */
  lemma MetaExtra(r: LogRecord)
    ensures var m := MetaItems(r);
            && (DictGet(m, KStr("extra")).Some? <==> exists i :: 0 <= i < |r.attrs| && r.attrs[i].0 !in Reserved)
            && (DictGet(m, KStr("extra")).Some? ==>
                  DictGet(m, KStr("extra")) == Some(PyDict(Extras(r.attrs)))
                  && forall k :: HasItemKey(Extras(r.attrs), KStr(k)) ==> k !in Reserved)
  {
    var m := MetaItems(r);
    var extras := Extras(r.attrs);
    ExtrasContents(r.attrs);
    MetaHasKey(r, KStr("extra"));
    forall k | HasItemKey(extras, KStr(k))
      ensures k !in Reserved
    {
      var i :| 0 <= i < |extras| && extras[i].0 == KStr(k);
    }
    if extras != [] {
      assert m[|m| - 1] == (PyKey.KStr("extra"), PyDict(extras));
    }
  }

  /** `exc_type` exists exactly when `exc_info` is set, `exc_text` exactly when it is non-empty. */
  lemma MetaException(r: LogRecord)
    ensures HasItemKey(MetaItems(r), KStr("exc_type")) <==> r.excType.Some?
    ensures HasItemKey(MetaItems(r), KStr("exc_text")) <==> NonEmpty(r.excText)
  {
    MetaHasKey(r, KStr("exc_type"));
    MetaHasKey(r, KStr("exc_text"));
    if r.excType.Some? {
      assert ExcTypeItem(r)[0].0 == KStr("exc_type");
    }
    if NonEmpty(r.excText) {
      assert ExcTextItem(r)[0].0 == KStr("exc_text");
    }
  }

  /** `LogBufferHandler`: forwards formatted records to its buffer. */
  class LogBufferHandler {
    const buffer: LB.LogBuffer

    constructor (buffer: LB.LogBuffer)
      ensures this.buffer == buffer
    {
      this.buffer := buffer;
    }

    /** `emit`: format and append; a failure is handed to `handleError` (`handled`) instead
        of propagating. Formatting fails exactly when `getMessage()` raises, and then the
        buffer is left as it was; a formatted record is always accepted. */
    method Emit(record: LogRecord, closedLoops: set<nat>) returns (handled: bool)
      requires buffer.Valid()
      modifies buffer
      ensures buffer.Valid()
      ensures handled <==> record.message.Err?
      ensures record.message.Err? ==> unchanged(buffer)
      ensures record.message.Ok? ==>
                && buffer.history == old(buffer.history) + [EntryOf(record)]
                && buffer.buffer == Text.LastN(old(buffer.buffer) + [EntryOf(record)], buffer.maxEntries)
                && buffer.subscribers == LB.Deliver(old(buffer.subscribers), EntryOf(record), closedLoops)
    {
      var entry := FormatEntry(record);
      if entry.Err? {
        handled := true;
      } else {
        FormatEntryIsAccepted(record);
        var outcome := buffer.Append(entry.value, closedLoops);
        handled := outcome.Fail?;
      }
    }
  }
}
