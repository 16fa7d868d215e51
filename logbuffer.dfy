/** The in-memory ring buffer of recent log entries (backend/app/services/logbuffer.py):
    entry sanitising, the bounded buffer, the filtered `tail` query and the subscriber
    queues with their drop-oldest policy. */
module LogBuffer {
  import opened Base
  import opened Text
  import opened PyValues

  /** A stored entry: a string-keyed dict. */
  type Entry = map<string, PyValue>

  const RequiredKeys: set<string> := {"ts", "level", "source", "msg", "meta"}

  /** The required keys in `sorted()` order, as the KeyError message lists them. */
  const SortedRequiredKeys: seq<string> := ["level", "meta", "msg", "source", "ts"]

  predicate WellFormed(e: Entry)
  {
    e.Keys == RequiredKeys
  }

  predicate HasKey(items: seq<(PyKey, PyValue)>, key: string)
  {
    DictGet(items, KStr(key)).Some?
  }

  /** The names of `names` that the dict does not hold, in the order of `names`. */
  function MissingKeys(names: seq<string>, items: seq<(PyKey, PyValue)>): (r: seq<string>)
    ensures forall k :: k in r <==> k in names && !HasKey(items, k)
  {
    if names == [] then []
    else (if HasKey(items, names[0]) then [] else [names[0]]) + MissingKeys(names[1..], items)
  }

  function QuotedList(names: seq<string>): string
  {
    "[" + Join(", ", seq(|names|, i requires 0 <= i < |names| => StrRepr(names[i]))) + "]"
  }

  predicate HasRequiredKeys(items: seq<(PyKey, PyValue)>)
  {
    forall k :: k in RequiredKeys ==> HasKey(items, k)
  }

  lemma MissingKeysEmpty(items: seq<(PyKey, PyValue)>)
    ensures MissingKeys(SortedRequiredKeys, items) == [] <==> HasRequiredKeys(items)
  {
    var missing := MissingKeys(SortedRequiredKeys, items);
    assert forall k :: k in SortedRequiredKeys <==> k in RequiredKeys;
    if missing != [] {
      assert missing[0] in missing;
    }
  }

  /** The copy restricted to the required keys. */
  function Restrict(items: seq<(PyKey, PyValue)>): (r: Entry)
    requires HasRequiredKeys(items)
    ensures WellFormed(r)
    ensures forall k :: k in RequiredKeys ==> Some(r[k]) == DictGet(items, KStr(k))
  {
    map k | k in RequiredKeys :: DictGet(items, KStr(k)).value
  }

  /** `_sanitize_entry`: a copy holding exactly the five required keys, or the TypeError /
      KeyError the source raises. */
  function SanitizeEntry(entry: PyValue): (r: Result<Entry>)
    ensures !entry.PyDict? ==> r == Err(TypeError("log entries must be mutable mappings"))
    ensures entry.PyDict? ==> (r.Ok? <==> HasRequiredKeys(entry.items))
    ensures entry.PyDict? && r.Err? ==> r.error.KeyError?
    ensures r.Ok? ==> WellFormed(r.value)
    ensures r.Ok? ==> forall k :: k in RequiredKeys ==> Some(r.value[k]) == DictGet(entry.items, KStr(k))
  {
    if !entry.PyDict? then Err(TypeError("log entries must be mutable mappings"))
    else
      MissingKeysEmpty(entry.items);
      var missing := MissingKeys(SortedRequiredKeys, entry.items);
      if missing != [] then
        Err(KeyError("log entry missing required keys: " + QuotedList(missing)))
      else
        Ok(Restrict(entry.items))
  }

  /** A dict holding the required keys is accepted, as its restriction to them. */
  lemma SanitizeAccepts(entry: PyValue)
    requires entry.PyDict? && HasRequiredKeys(entry.items)
    ensures SanitizeEntry(entry) == Ok(Restrict(entry.items))
  {
    MissingKeysEmpty(entry.items);
  }

  // ---------------------------------------------------------------- tail

  /** One `filters` item: a None expectation is ignored, a non-string iterable asks for
      membership, anything else for equality with `entry.get(key)`. */
  predicate FilterHolds(e: Entry, key: string, expected: PyValue)
  {
    var value := if key in e then e[key] else PyNone;
    match expected
    case PyNone => true
    case PyList(xs) => value in xs
    case PyTuple(xs) => value in xs
    case PySet(xs) => value in xs
    case PyDict(items) => exists i :: 0 <= i < |items| && KeyValue(items[i].0) == value
    case _ => value == expected
  }

  /** `matches` inside `tail`. */
  predicate Matches(e: Entry, filters: map<string, PyValue>, pred: Option<Entry -> bool>)
  {
    (forall k :: k in filters ==> FilterHolds(e, k, filters[k]))
    && (pred.None? || pred.value(e))
  }

  /** `[item for item in snapshot if matches(item)]`. */
  function Select(s: seq<Entry>, filters: map<string, PyValue>, pred: Option<Entry -> bool>): (r: seq<Entry>)
    ensures |r| <= |s|
    ensures forall x :: x in r <==> x in s && Matches(x, filters, pred)
  {
    if s == [] then []
    else (if Matches(s[0], filters, pred) then [s[0]] else []) + Select(s[1..], filters, pred)
  }

  /** Python's `s[start:]`, negative starts counting from the end. */
  function PySliceFrom<T>(s: seq<T>, start: int): seq<T>
  {
    var i := if start < 0 then (if |s| + start < 0 then 0 else |s| + start)
             else Min(start, |s|);
    s[i..]
  }

  /** `tail(limit, filters=..., predicate=...)` on a snapshot of the buffer. */
  function TailOf(snapshot: seq<Entry>, limit: Option<int>, filters: map<string, PyValue>,
                  pred: Option<Entry -> bool>): seq<Entry>
  {
    var selected := Select(snapshot, filters, pred);
    if limit.Some? then PySliceFrom(selected, -limit.value) else selected
  }

  /** `a` occurs in `b` in order, possibly with gaps. */
  predicate Subsequence<T(==)>(a: seq<T>, b: seq<T>)
    decreases |b|
  {
    a == [] || (b != [] && if a[0] == b[0] then Subsequence(a[1..], b[1..]) else Subsequence(a, b[1..]))
  }

  /** Dropping the first element of `b` cannot make `a` stop being a subsequence of it. */
  lemma {:induction false} SubsequenceDropHead<T>(a: seq<T>, b: seq<T>)
    requires b != [] && Subsequence(a, b[1..])
    ensures Subsequence(a, b)
    decreases |b|, 0
  {
    if a != [] && a[0] == b[0] {
      SubsequenceTail(a, b[1..]);
    }
  }

  /** The tail of a subsequence is again a subsequence. */
  lemma {:induction false} SubsequenceTail<T>(a: seq<T>, c: seq<T>)
    requires a != [] && Subsequence(a, c)
    ensures Subsequence(a[1..], c)
    decreases |c|, 1
  {
    if a[0] == c[0] {
      SubsequenceDropHead(a[1..], c);
    } else {
      SubsequenceTail(a, c[1..]);
      SubsequenceDropHead(a[1..], c);
    }
  }

  /** The selection keeps the buffer's order. */
  lemma {:induction false} SelectIsSubsequence(s: seq<Entry>, filters: map<string, PyValue>,
                                                pred: Option<Entry -> bool>)
    ensures Subsequence(Select(s, filters, pred), s)
  {
    if s != [] {
      SelectIsSubsequence(s[1..], filters, pred);
      var rest := Select(s[1..], filters, pred);
      if Matches(s[0], filters, pred) {
        assert Select(s, filters, pred) == [s[0]] + rest;
        assert ([s[0]] + rest)[1..] == rest;
      } else {
        assert Select(s, filters, pred) == rest;
        SubsequenceDropHead(rest, s);
      }
    }
  }

  /** `tail` returns matching entries only, in buffer order; for `limit >= 1` exactly the
      last `min(limit, #matches)` of them. */
  lemma TailWithPositiveLimit(snapshot: seq<Entry>, limit: int, filters: map<string, PyValue>,
                              pred: Option<Entry -> bool>)
    requires limit >= 1
    ensures var r := TailOf(snapshot, Some(limit), filters, pred);
            var sel := Select(snapshot, filters, pred);
            r == LastN(sel, limit)
            && (forall x :: x in r ==> x in snapshot && Matches(x, filters, pred))
  {
    var sel := Select(snapshot, filters, pred);
    SliceFromIsLastN(sel, limit);
    LastNMembers(sel, limit);
  }

  /** `s[-n:]` for `n >= 1` keeps the last `n` elements. */
  lemma SliceFromIsLastN<T>(s: seq<T>, n: int)
    requires n >= 1
    ensures PySliceFrom(s, -n) == LastN(s, n)
  {
  }

  lemma LastNMembers<T>(s: seq<T>, n: nat)
    ensures forall x :: x in LastN(s, n) ==> x in s
  {
    var r := LastN(s, n);
    forall x | x in r
      ensures x in s
    {
      var i :| 0 <= i < |r| && r[i] == x;
      assert r[i] == s[|s| - |r| + i];
    }
  }

  /** `limit=None` and `limit=0` (through `[-0:]`) both return every match; a negative
      limit drops the first `-limit` matches. */
  lemma TailWithoutUsefulLimit(snapshot: seq<Entry>, limit: Option<int>, filters: map<string, PyValue>,
                               pred: Option<Entry -> bool>)
    ensures var sel := Select(snapshot, filters, pred);
            (limit == None || limit == Some(0) ==> TailOf(snapshot, limit, filters, pred) == sel)
            && (limit.Some? && limit.value < 0 ==>
                  TailOf(snapshot, limit, filters, pred) == sel[Min(-limit.value, |sel|)..])
  {
  }

  // ---------------------------------------------------------------- subscriber queues

  /** An `asyncio.Queue`: its items, oldest first, and its `maxsize` (0 or less: unbounded). */
  datatype Queue = Queue(items: seq<Entry>, maxsize: int)

  predicate Full(q: Queue)
  {
    q.maxsize > 0 && |q.items| >= q.maxsize
  }

  /** `_enqueue`: `put_nowait`, and on a full queue drop the oldest item first. */
  function Enqueue(q: Queue, e: Entry): (r: Queue)
    ensures r.maxsize == q.maxsize
    ensures |r.items| >= 1 && r.items[|r.items| - 1] == e
    ensures r.items[..|r.items| - 1] == if Full(q) then q.items[1..] else q.items
    ensures q.maxsize > 0 && |q.items| <= q.maxsize ==> |r.items| <= q.maxsize
  {
    if !Full(q) then Queue(q.items + [e], q.maxsize)
    else Queue(q.items[1..] + [e], q.maxsize)
  }

  datatype Subscriber = Subscriber(queue: Queue, pred: Option<Entry -> bool>)

  predicate Wants(s: Subscriber, e: Entry)
  {
    s.pred.None? || s.pred.value(e)
  }

  /** What one `append` does to the subscriber table: subscribers that want the entry get it
      enqueued, except those whose event loop is closed, which are unregistered. */
  function Deliver(subs: map<nat, Subscriber>, e: Entry, closedLoops: set<nat>): (r: map<nat, Subscriber>)
    ensures r.Keys <= subs.Keys
  {
    map k | k in subs && !(Wants(subs[k], e) && k in closedLoops) ::
      if Wants(subs[k], e) then subs[k].(queue := Enqueue(subs[k].queue, e)) else subs[k]
  }

  /** The notification loop of `append`, over a snapshot of the subscriber keys. */
  method DeliverAll(subscribers: map<nat, Subscriber>, e: Entry, closedLoops: set<nat>) returns (subs: map<nat, Subscriber>)
    ensures subs == Deliver(subscribers, e, closedLoops)
  {
    var pending := subscribers.Keys;
    subs := subscribers;
    while pending != {}
      invariant pending <= subscribers.Keys && subs.Keys <= subscribers.Keys
      invariant forall k :: k in pending ==> k in subs && subs[k] == subscribers[k]
      invariant forall k :: k in subscribers && k !in pending ==>
                  (k in subs <==> k in Deliver(subscribers, e, closedLoops))
                  && (k in subs ==> subs[k] == Deliver(subscribers, e, closedLoops)[k])
      decreases pending
    {
      var k :| k in pending;
      pending := pending - {k};
      var s := subs[k];
      if Wants(s, e) {
        if k in closedLoops {
          subs := subs - {k};
        } else {
          subs := subs[k := s.(queue := Enqueue(s.queue, e))];
        }
      }
    }
  }

  /** Storing one well-formed entry keeps the deque the last `n` of the history. */
  lemma StoreStep(history: seq<Entry>, buffer: seq<Entry>, e: Entry, n: nat)
    requires buffer == LastN(history, n) && WellFormed(e)
    requires forall i :: 0 <= i < |history| ==> WellFormed(history[i])
    ensures LastN(buffer + [e], n) == LastN(history + [e], n)
    ensures forall i :: 0 <= i < |history + [e]| ==> WellFormed((history + [e])[i])
  {
    LastNAppend(history, e, n);
  }

  class LogBuffer {
    const maxEntries: nat
    /** The deque, oldest first. */
    var buffer: seq<Entry>
    /** Every entry ever stored, oldest first. */
    ghost var history: seq<Entry>
    var subscribers: map<nat, Subscriber>
    /** The next value of the `_ids` counter. */
    var nextId: nat

    ghost predicate Valid()
      reads this
    {
      && buffer == LastN(history, maxEntries)
      && (forall i :: 0 <= i < |history| ==> WellFormed(history[i]))
      && (forall k :: k in subscribers ==> k < nextId)
    }

    constructor (maxEntries: nat)
      ensures Valid()
      ensures this.maxEntries == maxEntries && buffer == [] && history == []
      ensures subscribers == map[] && nextId == 0
    {
      this.maxEntries := maxEntries;
      buffer := [];
      history := [];
      subscribers := map[];
      nextId := 0;
    }

    /** `append`: sanitise, store with drop-oldest eviction, notify subscribers. `closedLoops`
        are the subscribers whose event loop refuses the callback at this moment. */
    method Append(entry: PyValue, closedLoops: set<nat>) returns (outcome: Outcome)
      requires Valid()
      modifies this
      ensures Valid()
      ensures SanitizeEntry(entry).Err? ==>
                outcome == Fail(SanitizeEntry(entry).error)
                && buffer == old(buffer) && history == old(history)
                && subscribers == old(subscribers) && nextId == old(nextId)
      ensures SanitizeEntry(entry).Ok? ==>
                var e := SanitizeEntry(entry).value;
                outcome == Pass
                && history == old(history) + [e]
                && buffer == LastN(old(buffer) + [e], maxEntries)
                && subscribers == Deliver(old(subscribers), e, closedLoops)
                && nextId == old(nextId)
      ensures |buffer| <= maxEntries
    {
      var sanitized := SanitizeEntry(entry);
      if sanitized.Err? {
        return Fail(sanitized.error);
      }
      var e := sanitized.value;
      Store(e);
      var delivered := DeliverAll(subscribers, e, closedLoops);
      subscribers := delivered;
      return Pass;
    }

    /** The `self._buffer.append(entry)` step, evicting the oldest entry when full. */
    method Store(e: Entry)
      requires Valid() && WellFormed(e)
      modifies this
      ensures Valid()
      ensures history == old(history) + [e] && buffer == LastN(old(buffer) + [e], maxEntries)
      ensures subscribers == old(subscribers) && nextId == old(nextId)
    {
      StoreStep(history, buffer, e, maxEntries);
      buffer := LastN(buffer + [e], maxEntries);
      history := history + [e];
    }

    /** `tail`: reads a snapshot of the buffer and changes nothing. */
    function Tail(limit: Option<int>, filters: map<string, PyValue>, pred: Option<Entry -> bool>): seq<Entry>
      reads this
    {
      TailOf(buffer, limit, filters, pred)
    }

    /** `register_subscriber`: a new empty queue of capacity `maxQueue` under a fresh key. */
    method RegisterSubscriber(maxQueue: int, pred: Option<Entry -> bool>) returns (key: nat)
      requires Valid()
      modifies this
      ensures Valid()
      ensures key == old(nextId) && key !in old(subscribers)
      ensures subscribers == old(subscribers)[key := Subscriber(Queue([], maxQueue), pred)]
      ensures buffer == old(buffer) && history == old(history)
    {
      key := nextId;
      nextId := nextId + 1;
      subscribers := subscribers[key := Subscriber(Queue([], maxQueue), pred)];
    }

    /** `unregister`: a queue without a key is ignored; otherwise only that subscriber goes. */
    method Unregister(key: Option<nat>)
      requires Valid()
      modifies this
      ensures Valid()
      ensures key.None? ==> subscribers == old(subscribers)
      ensures key.Some? ==> subscribers == old(subscribers) - {key.value}
      ensures buffer == old(buffer) && history == old(history) && nextId == old(nextId)
    {
      if key.Some? {
        subscribers := subscribers - {key.value};
      }
    }
  }

  /** A subscriber whose predicate rejects the entry is not sent it; one that wants it and
      whose loop is open gets it last in its queue; nobody else's queue changes. */
  lemma DeliverRespectsPredicates(subs: map<nat, Subscriber>, e: Entry, closedLoops: set<nat>, k: nat)
    requires k in subs
    ensures var d := Deliver(subs, e, closedLoops);
            && (!Wants(subs[k], e) ==> k in d && d[k] == subs[k])
            && (Wants(subs[k], e) && k !in closedLoops ==>
                  k in d && d[k].queue == Enqueue(subs[k].queue, e) && d[k].pred == subs[k].pred)
            && (Wants(subs[k], e) && k in closedLoops ==> k !in d)
  {
  }
}
