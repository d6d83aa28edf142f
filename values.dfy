/**
 * The dynamically typed values that flow through the back end: what `yaml.safe_load`
 * returns for the configuration file, and what `json.dumps` receives for a stream event.
 * A Python dict keeps its insertion order, so a dict is an ordered list of entries.
 */
module Values {
  import opened Wrappers

  datatype Value =
    | VNull
    | VBool(b: bool)
    | VInt(i: int)
    | VFloat(literal: string)   // kept opaque: no floating-point reasoning
    | VStr(s: string)
    | VList(items: seq<Value>)
    | VDict(entries: seq<Entry>)

  datatype Entry = Entry(key: string, val: Value)

  /** The keys of a dict, in insertion order (`list(d.keys())`). */
  function Keys(d: seq<Entry>): (ks: seq<string>)
    ensures |ks| == |d|
    ensures forall i :: 0 <= i < |d| ==> ks[i] == d[i].key
  {
    if d == [] then [] else [d[0].key] + Keys(d[1..])
  }

  /** A real Python dict never holds a key twice. */
  predicate UniqueKeys(d: seq<Entry>)
  {
    d == [] || (d[0].key !in Keys(d[1..]) && UniqueKeys(d[1..]))
  }

  /** `d.get(k)`: the value stored under `k`, if any. */
  function Get(d: seq<Entry>, k: string): (r: Option<Value>)
    ensures r.None? <==> k !in Keys(d)
    ensures r.Some? ==> exists i :: 0 <= i < |d| && d[i] == Entry(k, r.value)
  {
    if d == [] then None
    else if d[0].key == k then Some(d[0].val)
    else Get(d[1..], k)
  }

  /** In a dict with unique keys, every entry is what `get` finds under its key. */
  lemma {:induction false} GetAt(d: seq<Entry>, i: nat)
    requires UniqueKeys(d) && i < |d|
    ensures Get(d, d[i].key) == Some(d[i].val)
  {
    if i > 0 {
      assert d[i] == d[1..][i - 1] && Keys(d[1..])[i - 1] == d[i].key;
      GetAt(d[1..], i - 1);
    }
  }

  /** How `Keys` and `Get` see an entry put in front of a dict. */
  lemma ConsFacts(e: Entry, d: seq<Entry>)
    ensures ([e] + d)[1..] == d
    ensures Keys([e] + d) == [e.key] + Keys(d)
    ensures forall k :: Get([e] + d, k) == if e.key == k then Some(e.val) else Get(d, k)
  {
    assert ([e] + d)[1..] == d;
  }

  /** `d[k] = v`: overwrite in place when `k` is present, otherwise append at the end. */
  function Put(d: seq<Entry>, k: string, v: Value): seq<Entry>
  {
    if d == [] then [Entry(k, v)]
    else if d[0].key == k then [Entry(k, v)] + d[1..]
    else [d[0]] + Put(d[1..], k, v)
  }

  /** Assignment keeps the key order; a new key goes last. */
  lemma {:induction false} PutKeys(d: seq<Entry>, k: string, v: Value)
    ensures Keys(Put(d, k, v)) == if k in Keys(d) then Keys(d) else Keys(d) + [k]
  {
    if d != [] {
      assert d == [d[0]] + d[1..];
      ConsFacts(d[0], d[1..]);
      if d[0].key == k {
        ConsFacts(Entry(k, v), d[1..]);
      } else {
        PutKeys(d[1..], k, v);
        ConsFacts(d[0], Put(d[1..], k, v));
      }
    }
  }

  /** Assigning a key the dict does not hold yet appends one entry. */
  lemma {:induction false} PutNew(d: seq<Entry>, k: string, v: Value)
    requires k !in Keys(d)
    ensures Put(d, k, v) == d + [Entry(k, v)]
  {
    if d != [] {
      assert d == [d[0]] + d[1..];
      ConsFacts(d[0], d[1..]);
      PutNew(d[1..], k, v);
    }
  }

  /** After `d[k] = v`, `k` holds `v` and every other key holds what it held before. */
  lemma {:induction false} PutGet(d: seq<Entry>, k: string, v: Value)
    ensures Get(Put(d, k, v), k) == Some(v)
    ensures forall k' :: k' != k ==> Get(Put(d, k, v), k') == Get(d, k')
  {
    if d != [] {
      assert d == [d[0]] + d[1..];
      ConsFacts(d[0], d[1..]);
      if d[0].key == k {
        ConsFacts(Entry(k, v), d[1..]);
      } else {
        PutGet(d[1..], k, v);
        ConsFacts(d[0], Put(d[1..], k, v));
      }
    }
  }

  /** Assignment never introduces a duplicate key. */
  lemma {:induction false} PutUnique(d: seq<Entry>, k: string, v: Value)
    requires UniqueKeys(d)
    ensures UniqueKeys(Put(d, k, v))
  {
    if d != [] {
      assert d == [d[0]] + d[1..];
      ConsFacts(d[0], d[1..]);
      if d[0].key == k {
        ConsFacts(Entry(k, v), d[1..]);
      } else {
        PutUnique(d[1..], k, v);
        PutKeys(d[1..], k, v);
        ConsFacts(d[0], Put(d[1..], k, v));
      }
    }
  }

  /** `d.pop(k)` (result discarded): the first entry under `k` is removed. */
  function Pop(d: seq<Entry>, k: string): seq<Entry>
  {
    if d == [] then []
    else if d[0].key == k then d[1..]
    else [d[0]] + Pop(d[1..], k)
  }

  /** Popping removes one entry when the key is present and none otherwise, and adds none. */
  lemma {:induction false} PopSize(d: seq<Entry>, k: string)
    ensures |Pop(d, k)| == if k in Keys(d) then |d| - 1 else |d|
    ensures forall e :: e in Pop(d, k) ==> e in d
  {
    if d != [] {
      assert d == [d[0]] + d[1..];
      ConsFacts(d[0], d[1..]);
      PopSize(d[1..], k);
    }
  }

  /** Popping a key removes exactly the first entry under it and keeps the others in order. */
  lemma {:induction false} PopShape(d: seq<Entry>, k: string, i: nat)
    requires i < |d| && d[i].key == k
    requires forall j :: 0 <= j < i ==> d[j].key != k
    ensures Pop(d, k) == d[..i] + d[i + 1..]
  {
    if i == 0 {
      assert d[..0] + d[1..] == d[1..];
    } else {
      var tail := d[1..];
      assert forall j :: 0 <= j < i - 1 ==> tail[j] == d[j + 1];
      PopShape(tail, k, i - 1);
      var p := Pop(tail, k);
      assert Pop(d, k) == [d[0]] + p;
      assert d[..i] == [d[0]] + tail[..i - 1];
      assert d[i + 1..] == tail[i..];
    }
  }

  /** Popping a key leaves every other key's value alone. */
  lemma {:induction false} PopGet(d: seq<Entry>, k: string)
    ensures forall k' :: k' != k ==> Get(Pop(d, k), k') == Get(d, k')
  {
    if d != [] {
      assert d == [d[0]] + d[1..];
      ConsFacts(d[0], d[1..]);
      if d[0].key != k {
        PopGet(d[1..], k);
        ConsFacts(d[0], Pop(d[1..], k));
      }
    }
  }

  /** In a real dict, the popped key is gone afterwards. */
  lemma {:induction false} PopRemoves(d: seq<Entry>, k: string)
    requires UniqueKeys(d)
    ensures k !in Keys(Pop(d, k)) && UniqueKeys(Pop(d, k))
  {
    if d != [] {
      assert d == [d[0]] + d[1..];
      ConsFacts(d[0], d[1..]);
      if d[0].key != k {
        PopRemoves(d[1..], k);
        PopSubset(d[1..], k);
        ConsFacts(d[0], Pop(d[1..], k));
      }
    }
  }

  lemma {:induction false} PopSubset(d: seq<Entry>, k: string)
    ensures forall x :: x in Keys(Pop(d, k)) ==> x in Keys(d)
  {
    if d != [] {
      assert d == [d[0]] + d[1..];
      ConsFacts(d[0], d[1..]);
      if d[0].key != k {
        PopSubset(d[1..], k);
        ConsFacts(d[0], Pop(d[1..], k));
      }
    }
  }

  /** The keys of two entry lists put together. */
  lemma KeysOfAppend(a: seq<Entry>, b: seq<Entry>)
    ensures Keys(a + b) == Keys(a) + Keys(b)
  {
  }

  /** Looking a key up in two entry lists put together: the first one that holds it wins. */
  lemma {:induction false} GetOfAppend(a: seq<Entry>, b: seq<Entry>, k: string)
    ensures Get(a + b, k) == if k in Keys(a) then Get(a, k) else Get(b, k)
  {
    if a != [] {
      assert (a + b)[0] == a[0] && (a + b)[1..] == a[1..] + b;
      assert Keys(a) == [a[0].key] + Keys(a[1..]);
      GetOfAppend(a[1..], b, k);
    } else {
      assert a + b == b;
    }
  }

  /** Pairwise distinct keys make a dict. */
  lemma {:induction false} UniqueOfDistinct(d: seq<Entry>)
    requires forall i, j :: 0 <= i < j < |d| ==> d[i].key != d[j].key
    ensures UniqueKeys(d)
  {
    if d != [] {
      forall i | 0 <= i < |d| - 1
        ensures Keys(d[1..])[i] != d[0].key
      {
        assert d[1..][i] == d[i + 1];
      }
      UniqueOfDistinct(d[1..]);
    }
  }

  /** Two dicts with disjoint keys put together are a dict. */
  lemma {:induction false} UniqueOfAppend(a: seq<Entry>, b: seq<Entry>)
    requires UniqueKeys(a) && UniqueKeys(b)
    requires forall k :: k in Keys(a) ==> k !in Keys(b)
    ensures UniqueKeys(a + b)
  {
    if a != [] {
      assert (a + b)[0] == a[0] && (a + b)[1..] == a[1..] + b;
      assert Keys(a) == [a[0].key] + Keys(a[1..]);
      KeysOfAppend(a[1..], b);
      UniqueOfAppend(a[1..], b);
    } else {
      assert a + b == b;
    }
  }
}
