/**
  `convert_tuples_in_keys`: prepares a result structure for JSON by replacing
  every dictionary key with its `str()` and every tuple with its `str()`,
  recursing through dictionary values and list elements.
 */
module KeyConversion {

  /** The Python values a result structure is built from. A dict is its list of
      entries in insertion order. */
  datatype PyValue =
    | PyNone
    | PyBool(b: bool)
    | PyInt(i: int)
    | PyFloat(f: real)
    | PyStr(s: string)
    | PyList(items: seq<PyValue>)
    | PyTuple(elems: seq<PyValue>)
    | PyDict(entries: seq<Entry>)

  datatype Entry = Entry(key: PyValue, value: PyValue)

  /** Python's `str()`: the text of a str is itself; for every other value it is
      the value's `repr`, which this model takes as a parameter. */
  function Str(v: PyValue, repr: PyValue -> string): string
  {
    if v.PyStr? then v.s else repr(v)
  }

  /** The keys of a dict, in order. */
  function Keys(entries: seq<Entry>): seq<PyValue>
  {
    seq(|entries|, i requires 0 <= i < |entries| => entries[i].key)
  }

  /** No key occurs twice: the invariant of every Python dict. */
  predicate DistinctKeys(entries: seq<Entry>)
  {
    forall i, j :: 0 <= i < j < |entries| ==> entries[i].key != entries[j].key
  }

  /** `d[k] = v` on a dict: an existing key keeps its position and takes the
      new value, a new key goes at the end. */
  function Insert(entries: seq<Entry>, k: PyValue, v: PyValue): seq<Entry>
    decreases |entries|
  {
    if |entries| == 0 then [Entry(k, v)]
    else if entries[0].key == k then [Entry(k, v)] + entries[1..]
    else [entries[0]] + Insert(entries[1..], k, v)
  }

  lemma {:induction false} InsertNewKey(entries: seq<Entry>, k: PyValue, v: PyValue)
    requires k !in Keys(entries)
    ensures Insert(entries, k, v) == entries + [Entry(k, v)]
    decreases |entries|
  {
    if |entries| > 0 {
      var tail := entries[1..];
      assert Keys(entries)[0] == entries[0].key;
      assert k !in Keys(tail) by {
        forall i | 0 <= i < |tail| ensures Keys(tail)[i] != k {
          assert Keys(tail)[i] == Keys(entries)[i + 1];
        }
      }
      InsertNewKey(tail, k, v);
    }
  }

  lemma {:induction false} InsertOldKey(entries: seq<Entry>, k: PyValue, v: PyValue)
    requires k in Keys(entries)
    ensures |Insert(entries, k, v)| == |entries|
    decreases |entries|
  {
    var tail := entries[1..];
    if entries[0].key != k {
      var i :| 0 <= i < |entries| && Keys(entries)[i] == k;
      assert i > 0 && Keys(tail)[i - 1] == k;
      InsertOldKey(tail, k, v);
    }
  }

  lemma {:induction false} InsertEntries(entries: seq<Entry>, k: PyValue, v: PyValue)
    ensures forall e :: e in Insert(entries, k, v) ==> e in entries || e == Entry(k, v)
    decreases |entries|
  {
    if |entries| > 0 && entries[0].key != k {
      var tail := entries[1..];
      InsertEntries(tail, k, v);
      assert Insert(entries, k, v) == [entries[0]] + Insert(tail, k, v);
      forall e | e in tail ensures e in entries {
        var i :| 0 <= i < |tail| && tail[i] == e;
        assert entries[i + 1] == e;
      }
    } else if |entries| > 0 {
      forall e | e in entries[1..] ensures e in entries {
        var i :| 0 <= i < |entries[1..]| && entries[1..][i] == e;
        assert entries[i + 1] == e;
      }
    }
  }

  lemma KeysCons(e: Entry, rest: seq<Entry>)
    ensures Keys([e] + rest) == [e.key] + Keys(rest)
  {
  }

  /** Storing a key leaves the key sequence alone when the key is present and
      appends it otherwise. */
  lemma {:induction false} InsertKeySeq(entries: seq<Entry>, k: PyValue, v: PyValue)
    ensures Keys(Insert(entries, k, v)) == if k in Keys(entries) then Keys(entries) else Keys(entries) + [k]
    decreases |entries|
  {
    if |entries| == 0 {
      assert Keys([Entry(k, v)]) == [k];
    } else {
      var tail := entries[1..];
      assert entries == [entries[0]] + tail;
      KeysCons(entries[0], tail);
      if entries[0].key == k {
        KeysCons(Entry(k, v), tail);
      } else {
        InsertKeySeq(tail, k, v);
        KeysCons(entries[0], Insert(tail, k, v));
        assert k in Keys(entries) <==> k in Keys(tail);
      }
    }
  }

  /** The stored pair is in the dict afterwards, and every entry under another
      key is still there. */
  lemma {:induction false} InsertStores(entries: seq<Entry>, k: PyValue, v: PyValue)
    ensures Entry(k, v) in Insert(entries, k, v)
    ensures forall e :: e in entries && e.key != k ==> e in Insert(entries, k, v)
    decreases |entries|
  {
    if |entries| > 0 {
      var tail := entries[1..];
      assert entries == [entries[0]] + tail;
      if entries[0].key == k {
        assert Insert(entries, k, v) == [Entry(k, v)] + tail;
      } else {
        InsertStores(tail, k, v);
        assert Insert(entries, k, v) == [entries[0]] + Insert(tail, k, v);
      }
    }
  }

  /** `d[k] = v`: afterwards `k` holds `v`. A new key is appended at the end; an
      existing key keeps its place, so the key sequence is unchanged. Entries
      under other keys stay, and nothing else comes in. */
  lemma InsertKeys(entries: seq<Entry>, k: PyValue, v: PyValue)
    ensures Keys(Insert(entries, k, v)) == if k in Keys(entries) then Keys(entries) else Keys(entries) + [k]
    ensures k in Keys(entries) ==> |Insert(entries, k, v)| == |entries|
    ensures k !in Keys(entries) ==> Insert(entries, k, v) == entries + [Entry(k, v)]
    ensures Entry(k, v) in Insert(entries, k, v)
    ensures forall e :: e in entries && e.key != k ==> e in Insert(entries, k, v)
    ensures forall e :: e in Insert(entries, k, v) ==> e in entries || e == Entry(k, v)
    ensures forall x :: x in Keys(Insert(entries, k, v)) <==> x in Keys(entries) || x == k
  {
    if k in Keys(entries) { InsertOldKey(entries, k, v); } else { InsertNewKey(entries, k, v); }
    InsertEntries(entries, k, v);
    InsertKeySeq(entries, k, v);
    InsertStores(entries, k, v);
  }

  /** Storing a key never makes a key repeat. */
  lemma InsertDistinct(entries: seq<Entry>, k: PyValue, v: PyValue)
    requires DistinctKeys(entries)
    ensures DistinctKeys(Insert(entries, k, v))
  {
    InsertKeySeq(entries, k, v);
    var r := Insert(entries, k, v);
    var ks := Keys(entries);
    forall i, j | 0 <= i < j < |r| ensures r[i].key != r[j].key {
      assert r[i].key == Keys(r)[i] && r[j].key == Keys(r)[j];
      assert Keys(r)[i] == ks[i] && ks[i] == entries[i].key;
      if j < |ks| {
        assert Keys(r)[j] == ks[j] && ks[j] == entries[j].key;
      } else {
        assert Keys(r)[j] == k && k !in ks;
      }
    }
  }

  /** A dict comprehension: the pairs inserted one after the other. */
  function BuildDict(pairs: seq<Entry>): seq<Entry>
    decreases |pairs|
  {
    if |pairs| == 0 then [] else Insert(BuildDict(pairs[..|pairs| - 1]), pairs[|pairs| - 1].key, pairs[|pairs| - 1].value)
  }

  /** `convert_tuples_in_keys`. */
  function Convert(obj: PyValue, repr: PyValue -> string): PyValue
    decreases obj
  {
    match obj
    case PyDict(entries) =>
      PyDict(BuildDict(seq(|entries|, i requires 0 <= i < |entries| =>
        Entry(PyStr(Str(entries[i].key, repr)), Convert(entries[i].value, repr)))))
    case PyList(items) => PyList(seq(|items|, i requires 0 <= i < |items| => Convert(items[i], repr)))
    case PyTuple(_) => PyStr(Str(obj, repr))
    case _ => obj
  }

  /** Ready for JSON: no tuple anywhere, and every dict has distinct str keys. */
  predicate JsonReady(v: PyValue)
    decreases v
  {
    match v
    case PyTuple(_) => false
    case PyList(items) => forall i :: 0 <= i < |items| ==> JsonReady(items[i])
    case PyDict(entries) =>
      DistinctKeys(entries) &&
      forall i :: 0 <= i < |entries| ==> entries[i].key.PyStr? && JsonReady(entries[i].value)
    case _ => true
  }

  lemma {:induction false} BuildDictSubset(pairs: seq<Entry>)
    ensures forall e :: e in BuildDict(pairs) ==> e in pairs
    decreases |pairs|
  {
    if |pairs| > 0 {
      var init := pairs[..|pairs| - 1];
      var last := pairs[|pairs| - 1];
      BuildDictSubset(init);
      InsertEntries(BuildDict(init), last.key, last.value);
      assert pairs == init + [last];
    }
  }

  lemma {:induction false} BuildDictKeys(pairs: seq<Entry>)
    ensures forall x :: x in Keys(BuildDict(pairs)) <==> x in Keys(pairs)
    decreases |pairs|
  {
    if |pairs| > 0 {
      var init := pairs[..|pairs| - 1];
      var last := pairs[|pairs| - 1];
      BuildDictKeys(init);
      var built := BuildDict(init);
      InsertKeySeq(built, last.key, last.value);
      assert pairs == init + [last];
      assert Keys(pairs) == Keys(init) + [last.key];
    }
  }

  lemma {:induction false} BuildDictLength(pairs: seq<Entry>)
    ensures |BuildDict(pairs)| <= |pairs|
    decreases |pairs|
  {
    if |pairs| > 0 {
      var init := pairs[..|pairs| - 1];
      var last := pairs[|pairs| - 1];
      BuildDictLength(init);
      var built := BuildDict(init);
      if last.key in Keys(built) {
        InsertOldKey(built, last.key, last.value);
      } else {
        InsertNewKey(built, last.key, last.value);
      }
    }
  }

  lemma {:induction false} BuildDictNoDuplicates(pairs: seq<Entry>)
    ensures DistinctKeys(BuildDict(pairs))
    decreases |pairs|
  {
    if |pairs| > 0 {
      var init := pairs[..|pairs| - 1];
      var last := pairs[|pairs| - 1];
      BuildDictNoDuplicates(init);
      InsertDistinct(BuildDict(init), last.key, last.value);
    }
  }

  /** Every entry of a built dict is one of the pairs, its keys are exactly the
      pairs' keys, no key repeats, and it is never longer than the pairs. */
  lemma BuildDictFacts(pairs: seq<Entry>)
    ensures forall e :: e in BuildDict(pairs) ==> e in pairs
    ensures forall x :: x in Keys(BuildDict(pairs)) <==> x in Keys(pairs)
    ensures DistinctKeys(BuildDict(pairs))
    ensures |BuildDict(pairs)| <= |pairs|
  {
    BuildDictSubset(pairs);
    BuildDictKeys(pairs);
    BuildDictLength(pairs);
    BuildDictNoDuplicates(pairs);
  }

  /** Pair `i` is the last pair of `pairs` with its key. */
  predicate LastWithKey(pairs: seq<Entry>, i: nat)
    requires i < |pairs|
  {
    forall j :: i < j < |pairs| ==> pairs[j].key != pairs[i].key
  }

  /** Later keys overwrite earlier ones: the built dict holds, for each key,
      the last pair given with that key. */
  lemma {:induction false} BuildDictLastWins(pairs: seq<Entry>)
    ensures forall i :: 0 <= i < |pairs| && LastWithKey(pairs, i) ==> pairs[i] in BuildDict(pairs)
    decreases |pairs|
  {
    if |pairs| > 0 {
      var n := |pairs| - 1;
      var init := pairs[..n];
      var last := pairs[n];
      BuildDictLastWins(init);
      InsertStores(BuildDict(init), last.key, last.value);
      forall i | 0 <= i < |pairs| && LastWithKey(pairs, i) ensures pairs[i] in BuildDict(pairs) {
        if i < n {
          assert pairs[i] == init[i] && pairs[i].key != last.key;
          assert LastWithKey(init, i) by {
            forall j | i < j < |init| ensures init[j].key != init[i].key {
              assert init[j] == pairs[j];
            }
          }
        }
      }
    }
  }

  /** With distinct keys, building the dict gives back the pairs unchanged. */
  lemma {:induction false} BuildDictDistinct(pairs: seq<Entry>)
    requires DistinctKeys(pairs)
    ensures BuildDict(pairs) == pairs
    decreases |pairs|
  {
    if |pairs| > 0 {
      var init := pairs[..|pairs| - 1];
      var last := pairs[|pairs| - 1];
      assert DistinctKeys(init) by {
        forall i, j | 0 <= i < j < |init| ensures init[i].key != init[j].key {
          assert init[i] == pairs[i] && init[j] == pairs[j];
        }
      }
      BuildDictDistinct(init);
      assert last.key !in Keys(init) by {
        forall i | 0 <= i < |init| ensures Keys(init)[i] != last.key {
          assert init[i] == pairs[i];
        }
      }
      InsertKeys(init, last.key, last.value);
      assert init + [last] == pairs;
    }
  }

  /** The output never contains a tuple and all its dicts have distinct str keys. */
  lemma {:induction false} ConvertJsonReady(obj: PyValue, repr: PyValue -> string)
    ensures JsonReady(Convert(obj, repr))
    decreases obj
  {
    match obj
    case PyDict(entries) =>
      var pairs := seq(|entries|, i requires 0 <= i < |entries| =>
        Entry(PyStr(Str(entries[i].key, repr)), Convert(entries[i].value, repr)));
      forall i | 0 <= i < |entries| ensures JsonReady(pairs[i].value) {
        ConvertJsonReady(entries[i].value, repr);
      }
      BuildDictFacts(pairs);
      var built := BuildDict(pairs);
      forall i | 0 <= i < |built| ensures built[i].key.PyStr? && JsonReady(built[i].value) {
        assert built[i] in pairs;
      }
    case PyList(items) =>
      forall i | 0 <= i < |items| ensures JsonReady(Convert(items[i], repr)) {
        ConvertJsonReady(items[i], repr);
      }
    case _ =>
  }

  /** A value already ready for JSON comes back unchanged: scalars, strings and
      dicts whose keys are already distinct strings are left alone. */
  lemma {:induction false} ConvertFixesJsonReady(obj: PyValue, repr: PyValue -> string)
    requires JsonReady(obj)
    ensures Convert(obj, repr) == obj
    decreases obj
  {
    match obj
    case PyDict(entries) =>
      var pairs := seq(|entries|, i requires 0 <= i < |entries| =>
        Entry(PyStr(Str(entries[i].key, repr)), Convert(entries[i].value, repr)));
      forall i | 0 <= i < |entries| ensures pairs[i] == entries[i] {
        ConvertFixesJsonReady(entries[i].value, repr);
      }
      assert pairs == entries;
      BuildDictDistinct(entries);
    case PyList(items) =>
      forall i | 0 <= i < |items| ensures Convert(items[i], repr) == items[i] {
        ConvertFixesJsonReady(items[i], repr);
      }
      assert seq(|items|, i requires 0 <= i < |items| => Convert(items[i], repr)) == items;
    case _ =>
  }

  /** Converting twice is converting once. */
  lemma ConvertIdempotent(obj: PyValue, repr: PyValue -> string)
    ensures Convert(Convert(obj, repr), repr) == Convert(obj, repr)
  {
    ConvertJsonReady(obj, repr);
    ConvertFixesJsonReady(Convert(obj, repr), repr);
  }

  /** Lists map element by element and keep their length; tuples become their
      `str()`; scalars are returned unchanged. */
  lemma ConvertShapes(obj: PyValue, repr: PyValue -> string)
    ensures obj.PyList? ==> Convert(obj, repr).PyList? && |Convert(obj, repr).items| == |obj.items|
    ensures obj.PyList? ==> forall i :: 0 <= i < |obj.items| ==> Convert(obj, repr).items[i] == Convert(obj.items[i], repr)
    ensures obj.PyTuple? ==> Convert(obj, repr) == PyStr(repr(obj))
    ensures obj.PyNone? || obj.PyBool? || obj.PyInt? || obj.PyFloat? || obj.PyStr? ==> Convert(obj, repr) == obj
  {
  }

  /** The entries a dict is converted to before they are inserted. */
  function ConvertedPairs(entries: seq<Entry>, repr: PyValue -> string): seq<Entry>
  {
    seq(|entries|, i requires 0 <= i < |entries| => Entry(PyStr(Str(entries[i].key, repr)), Convert(entries[i].value, repr)))
  }

  /** A dict becomes a dict whose keys are exactly the `str()` of the input
      keys, each once, and which is never longer than the input. */
  lemma ConvertDictKeys(entries: seq<Entry>, repr: PyValue -> string)
    ensures Convert(PyDict(entries), repr).PyDict?
    ensures DistinctKeys(Convert(PyDict(entries), repr).entries)
    ensures |Convert(PyDict(entries), repr).entries| <= |entries|
    ensures forall x :: x in Keys(Convert(PyDict(entries), repr).entries) <==>
              exists i :: 0 <= i < |entries| && x == PyStr(Str(entries[i].key, repr))
  {
    var pairs := ConvertedPairs(entries, repr);
    assert Convert(PyDict(entries), repr) == PyDict(BuildDict(pairs));
    BuildDictFacts(pairs);
    forall x ensures x in Keys(pairs) <==> exists i :: 0 <= i < |entries| && x == PyStr(Str(entries[i].key, repr)) {
      if x in Keys(pairs) {
        var i :| 0 <= i < |pairs| && Keys(pairs)[i] == x;
        assert x == PyStr(Str(entries[i].key, repr));
      }
      if exists i :: 0 <= i < |entries| && x == PyStr(Str(entries[i].key, repr)) {
        var i :| 0 <= i < |entries| && x == PyStr(Str(entries[i].key, repr));
        assert Keys(pairs)[i] == x;
      }
    }
  }

  /** When the `str()` of the keys are pairwise distinct, the converted dict
      keeps every entry in order, with its key stringified and its value
      converted. */
  lemma ConvertDictInjective(entries: seq<Entry>, repr: PyValue -> string)
    requires forall i, j :: 0 <= i < j < |entries| ==> Str(entries[i].key, repr) != Str(entries[j].key, repr)
    ensures Convert(PyDict(entries), repr) == PyDict(ConvertedPairs(entries, repr))
  {
    var pairs := ConvertedPairs(entries, repr);
    assert Convert(PyDict(entries), repr) == PyDict(BuildDict(pairs));
    assert DistinctKeys(pairs);
    BuildDictDistinct(pairs);
  }

  /** Entry `i` is the last entry of `entries` whose key has its `str()`. */
  predicate LastWithStrKey(entries: seq<Entry>, i: nat, repr: PyValue -> string)
    requires i < |entries|
  {
    forall j :: i < j < |entries| ==> Str(entries[j].key, repr) != Str(entries[i].key, repr)
  }

  /** When several keys have the same `str()`, the converted dict keeps, under
      that string, the converted value of the last of them. */
  lemma ConvertDictLastWins(entries: seq<Entry>, repr: PyValue -> string)
    ensures Convert(PyDict(entries), repr).PyDict?
    ensures forall i :: 0 <= i < |entries| && LastWithStrKey(entries, i, repr) ==>
              Entry(PyStr(Str(entries[i].key, repr)), Convert(entries[i].value, repr)) in Convert(PyDict(entries), repr).entries
  {
    var pairs := ConvertedPairs(entries, repr);
    assert Convert(PyDict(entries), repr) == PyDict(BuildDict(pairs));
    BuildDictLastWins(pairs);
    forall i | 0 <= i < |entries| && LastWithStrKey(entries, i, repr)
      ensures pairs[i] in BuildDict(pairs)
    {
      assert LastWithKey(pairs, i) by {
        forall j | i < j < |pairs| ensures pairs[j].key != pairs[i].key {
          assert pairs[j].key == PyStr(Str(entries[j].key, repr));
        }
      }
    }
  }
}
