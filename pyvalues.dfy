/** Python run-time values as the log pipeline and the module registry see them, with
    Python's truthiness, `str()` and `repr()`, and the `pathlib` name/suffix/stem rules. */
module PyValues {
  import opened Text
  import opened Base

  /** A dictionary key: the hashable scalars. */
  datatype PyKey =
    | KNone
    | KBool(b: bool)
    | KInt(i: int)
    | KFloat(text: string)
    | KStr(s: string)
    | KObject(repr: string)

  /** A Python value. Floats are carried by their `repr` text; `PyObject` is any other object,
      with its `repr` and whether `json.dumps` accepts it. Dict items are in insertion order. */
  datatype PyValue =
    | PyNone
    | PyBool(b: bool)
    | PyInt(i: int)
    | PyFloat(text: string)
    | PyStr(s: string)
    | PyDict(items: seq<(PyKey, PyValue)>)
    | PyList(elems: seq<PyValue>)
    | PyTuple(elems: seq<PyValue>)
    | PySet(elems: seq<PyValue>)
    | PyObject(repr: string, serialisable: bool)

  /** `bool(v)`. */
  predicate Truthy(v: PyValue)
  {
    match v
    case PyNone => false
    case PyBool(b) => b
    case PyInt(i) => i != 0
    case PyFloat(t) => t != "0.0" && t != "-0.0"
    case PyStr(s) => s != ""
    case PyDict(items) => items != []
    case PyList(e) => e != []
    case PyTuple(e) => e != []
    case PySet(e) => e != []
    case PyObject(_, _) => true
  }

  function KeyValue(k: PyKey): PyValue
  {
    match k
    case KNone => PyNone
    case KBool(b) => PyBool(b)
    case KInt(i) => PyInt(i)
    case KFloat(t) => PyFloat(t)
    case KStr(s) => PyStr(s)
    case KObject(r) => PyObject(r, false)
  }

  /** `d.get(key)` on a dict held as an insertion-ordered item list: the value of the item with that key. */
  function DictGet(items: seq<(PyKey, PyValue)>, key: PyKey): (r: Option<PyValue>)
    ensures r.Some? <==> exists i :: 0 <= i < |items| && items[i].0 == key
  {
    if items == [] then None
    else if items[|items| - 1].0 == key then Some(items[|items| - 1].1)
    else DictGet(items[..|items| - 1], key)
  }

  /** `key in d` for a dict held as an item list. */
  predicate HasItemKey(items: seq<(PyKey, PyValue)>, key: PyKey)
  {
    exists i :: 0 <= i < |items| && items[i].0 == key
  }

  lemma HasItemKeyConcat(a: seq<(PyKey, PyValue)>, b: seq<(PyKey, PyValue)>, key: PyKey)
    ensures HasItemKey(a + b, key) <==> HasItemKey(a, key) || HasItemKey(b, key)
  {
    if HasItemKey(a + b, key) {
      var i :| 0 <= i < |a + b| && (a + b)[i].0 == key;
      if i >= |a| {
        assert b[i - |a|].0 == key;
      }
    }
    if HasItemKey(a, key) {
      var i :| 0 <= i < |a| && a[i].0 == key;
      assert (a + b)[i].0 == key;
    }
    if HasItemKey(b, key) {
      var i :| 0 <= i < |b| && b[i].0 == key;
      assert (a + b)[|a| + i].0 == key;
    }
  }

  /** A key that occurs exactly once is looked up to its one value. */
  lemma {:induction false} DictGetUnique(items: seq<(PyKey, PyValue)>, i: nat)
    requires i < |items|
    requires forall j :: 0 <= j < |items| && j != i ==> items[j].0 != items[i].0
    ensures DictGet(items, items[i].0) == Some(items[i].1)
  {
    if i < |items| - 1 {
      var front := items[..|items| - 1];
      assert front[i] == items[i];
      DictGetUnique(front, i);
    }
  }

  /** No key occurs twice, as in every Python dict. */
  predicate DistinctKeys(items: seq<(PyKey, PyValue)>)
  {
    forall i, j :: 0 <= i < j < |items| ==> items[i].0 != items[j].0
  }

  /** `d[key] = value` on an item list: the value is replaced in place when the key is present, the item appended otherwise. */
  function DictSet(items: seq<(PyKey, PyValue)>, key: PyKey, value: PyValue): (r: seq<(PyKey, PyValue)>)
    ensures HasItemKey(items, key) ==> |r| == |items|
    ensures !HasItemKey(items, key) ==> r == items + [(key, value)]
  {
    if HasItemKey(items, key) then
      seq(|items|, i requires 0 <= i < |items| => if items[i].0 == key then (key, value) else items[i])
    else items + [(key, value)]
  }

  /** A dict built from pairs in order (`{k: v for k, v in pairs}`): each `d[k] = v` in turn. */
  function DictFromPairs(ps: seq<(PyKey, PyValue)>): seq<(PyKey, PyValue)>
  {
    if ps == [] then []
    else DictSet(DictFromPairs(ps[..|ps| - 1]), ps[|ps| - 1].0, ps[|ps| - 1].1)
  }

  /** The keys of an item list, in order. */
  function KeysOf(items: seq<(PyKey, PyValue)>): (r: seq<PyKey>)
    ensures |r| == |items| && forall i :: 0 <= i < |items| ==> r[i] == items[i].0
  {
    seq(|items|, i requires 0 <= i < |items| => items[i].0)
  }

  /** A key sequence with every repeat after the first occurrence dropped. */
  function Dedup(ks: seq<PyKey>): seq<PyKey>
  {
    if ks == [] then []
    else
      var front := Dedup(ks[..|ks| - 1]);
      if ks[|ks| - 1] in front then front else front + [ks[|ks| - 1]]
  }

  /** The dict built from pairs has distinct keys, exactly the keys of the pairs, and only items taken from the pairs. */
  lemma {:induction false} DictFromPairsKeys(ps: seq<(PyKey, PyValue)>)
    ensures DistinctKeys(DictFromPairs(ps))
    ensures |DictFromPairs(ps)| <= |ps|
    ensures forall k :: HasItemKey(DictFromPairs(ps), k) <==> HasItemKey(ps, k)
    ensures forall i :: 0 <= i < |DictFromPairs(ps)| ==> DictFromPairs(ps)[i] in ps
  {
    if ps != [] {
      var n := |ps| - 1;
      var front := DictFromPairs(ps[..n]);
      DictFromPairsKeys(ps[..n]);
      var r := DictFromPairs(ps);
      assert ps == ps[..n] + [ps[n]];
      forall k
        ensures HasItemKey(ps, k) <==> HasItemKey(ps[..n], k) || k == ps[n].0
      {
        HasItemKeyConcat(ps[..n], [ps[n]], k);
        assert HasItemKey([ps[n]], k) <==> k == ps[n].0 by {
          if k == ps[n].0 { assert [ps[n]][0].0 == k; }
        }
      }
      if HasItemKey(front, ps[n].0) {
        assert forall i :: 0 <= i < |r| ==> r[i].0 == front[i].0;
        forall k ensures HasItemKey(r, k) <==> HasItemKey(front, k) {
          if HasItemKey(front, k) {
            var i :| 0 <= i < |front| && front[i].0 == k;
            assert r[i].0 == k;
          }
        }
        forall i | 0 <= i < |r| ensures r[i] in ps {
          if front[i].0 != ps[n].0 {
            assert r[i] == front[i] && front[i] in ps[..n];
          }
        }
      } else {
        forall k ensures HasItemKey(r, k) <==> HasItemKey(front, k) || k == ps[n].0 {
          HasItemKeyConcat(front, [ps[n]], k);
          if k == ps[n].0 { assert [ps[n]][0].0 == k; }
        }
        forall i | 0 <= i < |r| ensures r[i] in ps {
          if i < |front| {
            assert r[i] == front[i] && front[i] in ps[..n];
          }
        }
        forall i, j | 0 <= i < j < |r| ensures r[i].0 != r[j].0 {
          if j == |front| {
            assert r[i] == front[i];
          }
        }
      }
    }
  }

  /** The last pair given for a key is the item the dict holds for it. */
  lemma {:induction false} DictFromPairsHoldsLast(ps: seq<(PyKey, PyValue)>, i: nat)
    requires i < |ps|
    requires forall j :: i < j < |ps| ==> ps[j].0 != ps[i].0
    ensures exists j :: 0 <= j < |DictFromPairs(ps)| && DictFromPairs(ps)[j] == ps[i]
  {
    var n := |ps| - 1;
    var front := DictFromPairs(ps[..n]);
    var r := DictFromPairs(ps);
    if i == n {
      if HasItemKey(front, ps[n].0) {
        var j :| 0 <= j < |front| && front[j].0 == ps[n].0;
        assert r[j] == ps[i];
      } else {
        assert r[|front|] == ps[i];
      }
    } else {
      DictFromPairsHoldsLast(ps[..n], i);
      var j :| 0 <= j < |front| && front[j] == ps[..n][i];
      assert r[j] == ps[i];
    }
  }

  /** Looking a key up in the built dict finds the value of the last pair with that key. */
  lemma DictFromPairsLastWins(ps: seq<(PyKey, PyValue)>, i: nat)
    requires i < |ps|
    requires forall j :: i < j < |ps| ==> ps[j].0 != ps[i].0
    ensures DictGet(DictFromPairs(ps), ps[i].0) == Some(ps[i].1)
  {
    DictFromPairsKeys(ps);
    DictFromPairsHoldsLast(ps, i);
    var r := DictFromPairs(ps);
    var j :| 0 <= j < |r| && r[j] == ps[i];
    DictGetUnique(r, j);
  }

  /** The built dict lists each key where it first occurred among the pairs. */
  lemma {:induction false} DictFromPairsOrder(ps: seq<(PyKey, PyValue)>)
    ensures KeysOf(DictFromPairs(ps)) == Dedup(KeysOf(ps))
  {
    if ps != [] {
      var n := |ps| - 1;
      var front := DictFromPairs(ps[..n]);
      DictFromPairsOrder(ps[..n]);
      assert KeysOf(ps)[..n] == KeysOf(ps[..n]);
      var k := ps[n].0;
      assert HasItemKey(front, k) <==> k in KeysOf(front) by {
        if k in KeysOf(front) {
          var i :| 0 <= i < |front| && KeysOf(front)[i] == k;
          assert front[i].0 == k;
        }
      }
      if HasItemKey(front, k) {
        assert KeysOf(DictFromPairs(ps)) == KeysOf(front);
      } else {
        assert KeysOf(DictFromPairs(ps)) == KeysOf(front) + [k];
      }
    }
  }

  /** Pairs whose keys are already distinct are the dict's items as they stand. */
  lemma {:induction false} DictFromDistinctPairs(ps: seq<(PyKey, PyValue)>)
    requires DistinctKeys(ps)
    ensures DictFromPairs(ps) == ps
  {
    if ps != [] {
      var n := |ps| - 1;
      DictFromDistinctPairs(ps[..n]);
      assert !HasItemKey(ps[..n], ps[n].0);
      assert ps[..n] + [ps[n]] == ps;
    }
  }

  // ---------------------------------------------------------------- str() and repr()

  function HexDigit(d: nat): char
    requires d < 16
  {
    "0123456789abcdef"[d]
  }

  /** The escape `repr` uses for one character inside a string quoted with `quote`. */
  function EscapeChar(c: char, quote: char): string
  {
    if c == '\\' then "\\\\"
    else if c == quote then ['\\', quote]
    else if c == '\n' then "\\n"
    else if c == '\r' then "\\r"
    else if c == '\t' then "\\t"
    else if c as int < 0x20 || c as int == 0x7f then
      ['\\', 'x', HexDigit(c as int / 16), HexDigit(c as int % 16)]
    else [c]
  }

  function EscapeAll(s: string, quote: char): string
  {
    if s == [] then "" else EscapeChar(s[0], quote) + EscapeAll(s[1..], quote)
  }

  /** `repr(s)` for a string: single quotes unless the text holds a single quote and no double quote. */
  function StrRepr(s: string): string
  {
    var quote := if '\'' in s && '"' !in s then '"' else '\'';
    [quote] + EscapeAll(s, quote) + [quote]
  }

  function KeyRepr(k: PyKey): string
  {
    match k
    case KNone => "None"
    case KBool(b) => if b then "True" else "False"
    case KInt(i) => IntToString(i)
    case KFloat(t) => t
    case KStr(s) => StrRepr(s)
    case KObject(r) => r
  }

  /** `str(k)` for a key. */
  function KeyStr(k: PyKey): string
  {
    match k
    case KStr(s) => s
    case _ => KeyRepr(k)
  }

  /** `repr(v)`. */
  function Repr(v: PyValue): string
    decreases v
  {
    match v
    case PyNone => "None"
    case PyBool(b) => if b then "True" else "False"
    case PyInt(i) => IntToString(i)
    case PyFloat(t) => t
    case PyStr(s) => StrRepr(s)
    case PyDict(items) => "{" + ItemsRepr(v, 0) + "}"
    case PyList(e) => "[" + ElemsRepr(v, 0) + "]"
    case PyTuple(e) => if |e| == 1 then "(" + Repr(e[0]) + ",)" else "(" + ElemsRepr(v, 0) + ")"
    case PySet(e) => if e == [] then "set()" else "{" + ElemsRepr(v, 0) + "}"
    case PyObject(r, _) => r
  }

  /** The ", "-separated reprs of the elements of a list, tuple or set, from index `i` on. */
  function ElemsRepr(v: PyValue, i: nat): string
    requires v.PyList? || v.PyTuple? || v.PySet?
    decreases v, |v.elems| - i
  {
    if i >= |v.elems| then ""
    else if i == |v.elems| - 1 then Repr(v.elems[i])
    else Repr(v.elems[i]) + ", " + ElemsRepr(v, i + 1)
  }

  /** The ", "-separated `key: value` reprs of a dict's items, from index `i` on. */
  function ItemsRepr(d: PyValue, i: nat): string
    requires d.PyDict?
    decreases d, |d.items| - i
  {
    if i >= |d.items| then ""
    else
      var item := d.items[i];
      assert item in d.items;
      var first := KeyRepr(item.0) + ": " + Repr(item.1);
      if i == |d.items| - 1 then first else first + ", " + ItemsRepr(d, i + 1)
  }

  /** `str(v)`: the text itself for a string, `repr(v)` for everything else. */
  function Str(v: PyValue): string
  {
    match v
    case PyStr(s) => s
    case _ => Repr(v)
  }

  // ---------------------------------------------------------------- pathlib

  /** Index of the last `c` in `s`, or -1 (Python's `str.rfind`). */
  function RFind(s: string, c: char): (i: int)
    ensures -1 <= i < |s|
    ensures i >= 0 ==> s[i] == c
    ensures forall j :: i < j < |s| ==> s[j] != c
  {
    if s == [] then -1
    else if s[|s| - 1] == c then |s| - 1
    else RFind(s[..|s| - 1], c)
  }

  function LastRealPart(parts: seq<string>): string
  {
    if parts == [] then ""
    else if parts[|parts| - 1] != "" && parts[|parts| - 1] != "." then parts[|parts| - 1]
    else LastRealPart(parts[..|parts| - 1])
  }

  /** `PurePosixPath(p).name`: the last component, ignoring empty and "." components. */
  function PathName(p: string): string
  {
    LastRealPart(Split(p, '/'))
  }

  /** `PurePath.suffix` of a final component `name`. */
  function Suffix(name: string): (r: string)
    ensures r == "" || (r[0] == '.' && '.' !in r[1..])
  {
    var i := RFind(name, '.');
    if 0 < i < |name| - 1 then name[i..] else ""
  }

  /** `PurePath.stem` of a final component `name`. */
  function Stem(name: string): string
  {
    var i := RFind(name, '.');
    if 0 < i < |name| - 1 then name[..i] else name
  }

  /** The name is its stem followed by its suffix. */
  lemma StemSuffix(name: string)
    ensures Stem(name) + Suffix(name) == name
  {
  }
}
