/** Canonical JSON: object keys sorted at every depth, arrays as they are. */
module Canon {
  import opened Wrappers
  import opened Json
  import opened Sorting

  // ----- the order of keys -----

  /** Strings by their first differing character; as UTF-8 bytes they compare the same. */
  predicate LexLeq(a: string, b: string) {
    a == [] || (b != [] && (a[0] < b[0] || (a[0] == b[0] && LexLeq(a[1..], b[1..]))))
  }

  /** Key a comes before key b: a proper prefix of it, or smaller at the first character where they differ. */
  ghost predicate KeyBefore(a: string, b: string) {
    exists n :: 0 <= n <= |a| && n <= |b| && a[..n] == b[..n] && (if n < |a| then n < |b| && a[n] < b[n] else n < |b|)
  }

  lemma {:induction false} LexIsBefore(a: string, b: string)
    ensures LexLeq(a, b) && a != b <==> KeyBefore(a, b)
  {
    if LexLeq(a, b) && a != b {
      var n := FirstDifference(a, b);
    }
    if n :| 0 <= n <= |a| && n <= |b| && a[..n] == b[..n] && (if n < |a| then n < |b| && a[n] < b[n] else n < |b|) {
      DiffersAt(a, b, n);
    }
  }

  lemma {:induction false} FirstDifference(a: string, b: string) returns (n: nat)
    requires LexLeq(a, b) && a != b
    ensures n <= |a| && n < |b| && a[..n] == b[..n] && (n < |a| ==> a[n] < b[n])
  {
    n := 0;
    if a != [] && a[0] == b[0] {
      assert a == [a[0]] + a[1..] && b == [b[0]] + b[1..];
      var k := FirstDifference(a[1..], b[1..]);
      n := k + 1;
      assert a[..n] == [a[0]] + a[1..][..k] && b[..n] == [b[0]] + b[1..][..k];
    }
  }

  lemma {:induction false} DiffersAt(a: string, b: string, n: nat)
    requires n <= |a| && n < |b| && a[..n] == b[..n] && (n < |a| ==> a[n] < b[n])
    ensures LexLeq(a, b) && a != b
  {
    if n > 0 {
      assert a[0] == a[..n][0] && b[0] == b[..n][0];
      assert a[1..][..n - 1] == a[..n][1..] && b[1..][..n - 1] == b[..n][1..];
      DiffersAt(a[1..], b[1..], n - 1);
    }
  }

  predicate KeyLeq(x: Entry, y: Entry) { LexLeq(x.key, y.key) }

  lemma {:induction false} LexTotal(a: string, b: string)
    ensures LexLeq(a, b) || LexLeq(b, a)
    ensures LexLeq(a, b) && LexLeq(b, a) ==> a == b
  {
    if a != [] && b != [] && a[0] == b[0] {
      LexTotal(a[1..], b[1..]);
      assert a == [a[0]] + a[1..] && b == [b[0]] + b[1..];
    }
  }

  lemma {:induction false} LexTransitive(a: string, b: string, c: string)
    requires LexLeq(a, b) && LexLeq(b, c)
    ensures LexLeq(a, c)
  {
    if a != [] && a[0] == b[0] == c[0] {
      LexTransitive(a[1..], b[1..], c[1..]);
    }
  }

  lemma KeyOrderIsTotal()
    ensures TotalOrder(KeyLeq)
  {
    forall x, y ensures KeyLeq(x, y) || KeyLeq(y, x) {
      LexTotal(x.key, y.key);
    }
    forall x, y, z | KeyLeq(x, y) && KeyLeq(y, z) ensures KeyLeq(x, z) {
      LexTransitive(x.key, y.key, z.key);
    }
  }

  // ----- values -----

  ghost predicate DistinctKeys(entries: seq<Entry>) {
    forall i, j :: 0 <= i < j < |entries| ==> entries[i].key != entries[j].key
  }

  /** No object, at any depth, has a key twice: what a parsed value looks like. */
  ghost predicate IsJson(v: Value) {
    match v
    case Array(items) => forall i :: 0 <= i < |items| ==> IsJson(items[i])
    case Object(entries) => DistinctKeys(entries) && forall i :: 0 <= i < |entries| ==> IsJson(entries[i].value)
    case _ => true
  }

  ghost predicate HasKey(entries: seq<Entry>, key: string) {
    exists i :: 0 <= i < |entries| && entries[i].key == key
  }

  /** Equal up to the order of object entries, at every depth. */
  ghost predicate SameJson(v: Value, w: Value) {
    match v
    case Array(items) => w.Array? && |items| == |w.items| && forall i :: 0 <= i < |items| ==> SameJson(items[i], w.items[i])
    case Object(entries) =>
      && w.Object?
      && (forall key :: HasKey(entries, key) <==> HasKey(w.entries, key))
      && (forall i, j :: 0 <= i < |entries| && 0 <= j < |w.entries| && entries[i].key == w.entries[j].key ==>
            SameJson(entries[i].value, w.entries[j].value))
    case _ => v == w
  }

  // ----- the canonical form -----

  function Canonical(v: Value): Value {
    match v
    case Array(items) => Array(seq(|items|, i requires 0 <= i < |items| => Canonical(items[i])))
    case Object(entries) =>
      Object(Sort(KeyLeq, seq(|entries|, i requires 0 <= i < |entries| => Entry(entries[i].key, Canonical(entries[i].value)))))
    case _ => v
  }

  /** The entries with canonical values, still in their old order. */
  ghost function CanonicalEntries(entries: seq<Entry>): (r: seq<Entry>)
    ensures |r| == |entries|
  {
    seq(|entries|, i requires 0 <= i < |entries| => Entry(entries[i].key, Canonical(entries[i].value)))
  }

  lemma CanonicalObject(entries: seq<Entry>)
    ensures Canonical(Object(entries)) == Object(Sort(KeyLeq, CanonicalEntries(entries)))
  {
    assert CanonicalEntries(entries)
           == seq(|entries|, i requires 0 <= i < |entries| => Entry(entries[i].key, Canonical(entries[i].value)));
  }

  // ----- equal canonical forms -----

  /** Sorting by distinct keys forgets the old order and nothing else. */
  lemma SortForgetsOrder(a: seq<Entry>, b: seq<Entry>)
    requires DistinctKeys(a) && DistinctKeys(b)
    ensures Sort(KeyLeq, a) == Sort(KeyLeq, b) <==> forall x :: x in a <==> x in b
  {
    KeyOrderIsTotal();
    var sa, sb := Sort(KeyLeq, a), Sort(KeyLeq, b);
    SortSorted(KeyLeq, a);
    SortSorted(KeyLeq, b);
    MultisetElements(sa, a);
    MultisetElements(sb, b);
    if forall x :: x in a <==> x in b {
      SameElements(a, b);
      forall x, y | x in sa && y in sa && KeyLeq(x, y) && KeyLeq(y, x) ensures x == y {
        LexTotal(x.key, y.key);
        SameKeySameEntry(a, x, y);
      }
      SortedUnique(KeyLeq, sa, sb);
    }
  }

  lemma SameKeySameEntry(a: seq<Entry>, x: Entry, y: Entry)
    requires DistinctKeys(a) && x in a && y in a && x.key == y.key
    ensures x == y
  {
  }

  lemma CanonicalEntriesDistinct(entries: seq<Entry>)
    requires DistinctKeys(entries)
    ensures DistinctKeys(CanonicalEntries(entries))
  {
  }

  /** Two values have the same canonical form exactly when they differ in the order of object entries only. */
  lemma {:induction false} CanonicalDecides(v: Value, w: Value)
    requires IsJson(v) && IsJson(w)
    ensures Canonical(v) == Canonical(w) <==> SameJson(v, w)
    decreases v
  {
    match v
    case Array(items) =>
      if w.Array? && |w.items| == |items| {
        forall i | 0 <= i < |items| ensures Canonical(items[i]) == Canonical(w.items[i]) <==> SameJson(items[i], w.items[i]) {
          CanonicalDecides(items[i], w.items[i]);
        }
        assert forall i :: 0 <= i < |items| ==> Canonical(v).items[i] == Canonical(items[i]);
        assert forall i :: 0 <= i < |items| ==> Canonical(w).items[i] == Canonical(w.items[i]);
      } else if w.Array? {
        assert |Canonical(v).items| != |Canonical(w).items|;
      }
    case Object(entries) =>
      if w.Object? {
        forall i, j | 0 <= i < |entries| && 0 <= j < |w.entries|
          ensures Canonical(entries[i].value) == Canonical(w.entries[j].value) <==> SameJson(entries[i].value, w.entries[j].value)
        {
          CanonicalDecides(entries[i].value, w.entries[j].value);
        }
        CanonicalEntriesDistinct(entries);
        CanonicalEntriesDistinct(w.entries);
        CanonicalObject(entries);
        CanonicalObject(w.entries);
        SortForgetsOrder(CanonicalEntries(entries), CanonicalEntries(w.entries));
        ObjectsMatch(entries, w.entries);
      }
    case _ =>
  }

  lemma ObjectsMatch(e: seq<Entry>, f: seq<Entry>)
    requires DistinctKeys(e) && DistinctKeys(f)
    requires forall i, j :: 0 <= i < |e| && 0 <= j < |f| ==> (Canonical(e[i].value) == Canonical(f[j].value) <==> SameJson(e[i].value, f[j].value))
    ensures (forall x :: x in CanonicalEntries(e) <==> x in CanonicalEntries(f)) <==> SameJson(Object(e), Object(f))
  {
    if SameJson(Object(e), Object(f)) {
      EntriesIncluded(e, f);
      EntriesIncluded(f, e);
    }
    if forall x :: x in CanonicalEntries(e) <==> x in CanonicalEntries(f) {
      KeysIncluded(e, f);
      KeysIncluded(f, e);
      forall i, j | 0 <= i < |e| && 0 <= j < |f| && e[i].key == f[j].key ensures SameJson(e[i].value, f[j].value) {
        assert CanonicalEntries(e)[i] in CanonicalEntries(f);
        var k :| 0 <= k < |f| && CanonicalEntries(f)[k] == CanonicalEntries(e)[i];
        assert k == j;
      }
    }
  }

  lemma EntriesIncluded(e: seq<Entry>, f: seq<Entry>)
    requires forall key :: HasKey(e, key) ==> HasKey(f, key)
    requires forall i, j :: 0 <= i < |e| && 0 <= j < |f| && e[i].key == f[j].key ==> Canonical(e[i].value) == Canonical(f[j].value)
    ensures forall x :: x in CanonicalEntries(e) ==> x in CanonicalEntries(f)
  {
    forall x | x in CanonicalEntries(e) ensures x in CanonicalEntries(f) {
      var i :| 0 <= i < |e| && CanonicalEntries(e)[i] == x;
      assert HasKey(e, e[i].key);
      var j :| 0 <= j < |f| && f[j].key == e[i].key;
      assert CanonicalEntries(f)[j] == x;
    }
  }

  lemma KeysIncluded(e: seq<Entry>, f: seq<Entry>)
    requires forall x :: x in CanonicalEntries(e) ==> x in CanonicalEntries(f)
    ensures forall key :: HasKey(e, key) ==> HasKey(f, key)
  {
    forall key | HasKey(e, key) ensures HasKey(f, key) {
      var i :| 0 <= i < |e| && e[i].key == key;
      assert CanonicalEntries(e)[i] in CanonicalEntries(f);
      var j :| 0 <= j < |f| && CanonicalEntries(f)[j] == CanonicalEntries(e)[i];
      assert f[j].key == key;
    }
  }

  // ----- the canonical form is one of the value's own orders -----

  /** A canonical form is the value itself up to entry order, with unique keys. */
  lemma {:induction false} CanonicalIsSame(v: Value)
    requires IsJson(v)
    ensures IsJson(Canonical(v)) && SameJson(v, Canonical(v))
    decreases v
  {
    match v
    case Array(items) =>
      forall i | 0 <= i < |items| ensures IsJson(Canonical(v).items[i]) && SameJson(items[i], Canonical(v).items[i]) {
        CanonicalIsSame(items[i]);
      }
    case Object(entries) =>
      forall i | 0 <= i < |entries| ensures IsJson(Canonical(entries[i].value)) && SameJson(entries[i].value, Canonical(entries[i].value)) {
        CanonicalIsSame(entries[i].value);
      }
      CanonicalObject(entries);
      CanonicalEntriesDistinct(entries);
      SortedEntries(entries);
    case _ =>
  }

  lemma SortedEntries(e: seq<Entry>)
    requires DistinctKeys(e) && DistinctKeys(CanonicalEntries(e))
    requires forall i :: 0 <= i < |e| ==> IsJson(Canonical(e[i].value)) && SameJson(e[i].value, Canonical(e[i].value))
    ensures var s := Sort(KeyLeq, CanonicalEntries(e)); IsJson(Object(s)) && SameJson(Object(e), Object(s))
  {
    var c := CanonicalEntries(e);
    var s := Sort(KeyLeq, c);
    SortKeepsDistinct(c);
    MultisetElements(s, c);
    forall j | 0 <= j < |s| ensures IsJson(s[j].value)
    {
      assert s[j] in c;
    }
    forall i, j | 0 <= i < |e| && 0 <= j < |s| && e[i].key == s[j].key ensures SameJson(e[i].value, s[j].value) {
      assert s[j] in c && c[i] in c;
      SameKeySameEntry(c, c[i], s[j]);
    }
    forall key ensures HasKey(e, key) <==> HasKey(s, key) {
      if HasKey(e, key) {
        var i :| 0 <= i < |e| && e[i].key == key;
        assert c[i] in s;
        var j :| 0 <= j < |s| && s[j] == c[i];
        assert s[j].key == key;
      }
      if HasKey(s, key) {
        var j :| 0 <= j < |s| && s[j].key == key;
        assert s[j] in c;
        var i :| 0 <= i < |c| && c[i] == s[j];
        assert e[i].key == key;
      }
    }
  }

  lemma SortKeepsDistinct(c: seq<Entry>)
    requires DistinctKeys(c)
    ensures DistinctKeys(Sort(KeyLeq, c))
  {
    var s := Sort(KeyLeq, c);
    OnceEach(c);
    MultisetElements(s, c);
    forall i, j | 0 <= i < j < |s| ensures s[i].key != s[j].key {
      if s[i].key == s[j].key {
        assert s[i] in c && s[j] in c;
        SameKeySameEntry(c, s[i], s[j]);
        TwiceCounts(s, i, j);
      }
    }
  }

  /** A canonical form is its own canonical form. */
  lemma CanonicalIdempotent(v: Value)
    requires IsJson(v)
    ensures Canonical(Canonical(v)) == Canonical(v)
  {
    CanonicalIsSame(v);
    CanonicalDecides(v, Canonical(v));
  }

  // ----- keys in ascending order -----

  /** In every object, at every depth, each key comes before all later ones. */
  ghost predicate KeysAscend(v: Value) {
    match v
    case Array(items) => forall i :: 0 <= i < |items| ==> KeysAscend(items[i])
    case Object(entries) =>
      && (forall i, j :: 0 <= i < j < |entries| ==> KeyBefore(entries[i].key, entries[j].key))
      && (forall i :: 0 <= i < |entries| ==> KeysAscend(entries[i].value))
    case _ => true
  }

  lemma {:induction false} CanonicalAscends(v: Value)
    requires IsJson(v)
    ensures KeysAscend(Canonical(v))
    decreases v
  {
    match v
    case Array(items) =>
      forall i | 0 <= i < |items| ensures KeysAscend(Canonical(v).items[i]) {
        CanonicalAscends(items[i]);
      }
    case Object(entries) =>
      forall i | 0 <= i < |entries| ensures KeysAscend(Canonical(entries[i].value)) {
        CanonicalAscends(entries[i].value);
      }
      CanonicalObject(entries);
      SortedAscend(entries);
    case _ =>
  }

  lemma SortedAscend(entries: seq<Entry>)
    requires DistinctKeys(entries) && forall i :: 0 <= i < |entries| ==> KeysAscend(Canonical(entries[i].value))
    ensures KeysAscend(Object(Sort(KeyLeq, CanonicalEntries(entries))))
  {
    hide KeyBefore, LexLeq;
    var c := CanonicalEntries(entries);
    var s := Sort(KeyLeq, c);
    MultisetElements(s, c);
    SortedKeysAscend(entries);
    forall j | 0 <= j < |s| ensures KeysAscend(s[j].value) {
      assert s[j] in c;
    }
  }

  lemma SortedKeysAscend(entries: seq<Entry>)
    requires DistinctKeys(entries)
    ensures var s := Sort(KeyLeq, CanonicalEntries(entries)); forall i, j :: 0 <= i < j < |s| ==> KeyBefore(s[i].key, s[j].key)
  {
    hide KeyBefore, LexLeq;
    var c := CanonicalEntries(entries);
    var s := Sort(KeyLeq, c);
    CanonicalEntriesDistinct(entries);
    SortKeepsDistinct(c);
    KeyOrderIsTotal();
    SortSorted(KeyLeq, c);
    forall i, j | 0 <= i < j < |s| ensures KeyBefore(s[i].key, s[j].key) {
      LexIsBefore(s[i].key, s[j].key);
    }
  }

  // ----- the operation -----

  /** `Map::insert`: replaces the value of a key, or adds the key at the end. */
  function Put(entries: seq<Entry>, key: string, value: Value): seq<Entry> {
    if entries == [] then [Entry(key, value)]
    else if entries[0].key == key then [Entry(key, value)] + entries[1..]
    else [entries[0]] + Put(entries[1..], key, value)
  }

  lemma {:induction false} PutNew(entries: seq<Entry>, key: string, value: Value)
    requires !HasKey(entries, key)
    ensures Put(entries, key, value) == entries + [Entry(key, value)]
  {
    if entries != [] {
      assert entries == [entries[0]] + entries[1..];
      assert forall i :: 0 <= i < |entries[1..]| ==> entries[1..][i] == entries[i + 1];
      PutNew(entries[1..], key, value);
    }
  }

  lemma {:induction false} LookupEntry(entries: seq<Entry>, i: nat)
    requires DistinctKeys(entries) && i < |entries|
    ensures Lookup(entries, entries[i].key) == Some(entries[i].value)
  {
    if i > 0 {
      assert entries[0].key != entries[i].key;
      LookupEntry(entries[1..], i - 1);
    }
  }

  ghost function KeysOf(entries: seq<Entry>): seq<string> {
    seq(|entries|, i requires 0 <= i < |entries| => entries[i].key)
  }

  lemma KeysOfCons(x: Entry, s: seq<Entry>)
    ensures KeysOf([x] + s) == [x.key] + KeysOf(s)
  {
  }

  lemma {:induction false} InsertKeys(x: Entry, s: seq<Entry>)
    ensures KeysOf(Insert(KeyLeq, x, s)) == Insert(LexLeq, x.key, KeysOf(s))
  {
    KeysOfCons(x, s);
    if s != [] {
      assert KeysOf(s)[1..] == KeysOf(s[1..]) && KeysOf(s)[0] == s[0].key;
      InsertKeys(x, s[1..]);
      KeysOfCons(s[0], Insert(KeyLeq, x, s[1..]));
    }
  }

  /** Sorting the keys alone gives the keys of the sorted entries. */
  lemma {:induction false} SortKeys(s: seq<Entry>)
    ensures KeysOf(Sort(KeyLeq, s)) == Sort(LexLeq, KeysOf(s))
  {
    if s != [] {
      assert KeysOf(s)[1..] == KeysOf(s[1..]);
      SortKeys(s[1..]);
      InsertKeys(s[0], Sort(KeyLeq, s[1..]));
    }
  }

  /** The k-th key in order belongs to an entry of the object, whose canonical value is the k-th canonical one. */
  lemma KthKey(entries: seq<Entry>, k: nat) returns (i: nat)
    requires DistinctKeys(entries) && k < |entries|
    ensures var s := Sort(KeyLeq, CanonicalEntries(entries));
            && |s| == |entries| && i < |entries| && s[k] == Entry(entries[i].key, Canonical(entries[i].value))
            && !HasKey(s[..k], s[k].key)
            && Lookup(entries, s[k].key) == Some(entries[i].value)
  {
    var c := CanonicalEntries(entries);
    var s := Sort(KeyLeq, c);
    CanonicalEntriesDistinct(entries);
    SortKeepsDistinct(c);
    MultisetElements(s, c);
    assert s[k] in c;
    i :| 0 <= i < |c| && c[i] == s[k];
    LookupEntry(entries, i);
  }

  method SortValues(v: Value) returns (r: Value)
    requires IsJson(v)
    ensures r == Canonical(v)
    ensures KeysAscend(r) && SameJson(v, r)
    decreases v, 1
  {
    CanonicalAscends(v);
    CanonicalIsSame(v);
    match v
    case Object(map_) =>
      r := SortObject(v);
    case Array(arr) =>
      var items: seq<Value> := [];
      for i := 0 to |arr|
        invariant items == Canonical(v).items[..i]
      {
        var item := SortValues(arr[i]);
        items := items + [item];
      }
      return Array(items);
    case _ =>
      return v;
  }

  method SortObject(v: Value) returns (r: Value)
    requires IsJson(v) && v.Object?
    ensures r == Canonical(v)
    ensures KeysAscend(r) && SameJson(v, r)
    decreases v, 0
  {
    hide Sort, Canonical, Lookup, Put, LexLeq, KeysAscend, SameJson, KeyBefore;
    var entries := v.entries;
    var keys := SortedKeys(entries);
    ghost var sorted := Sort(KeyLeq, CanonicalEntries(entries));
    var newMap: seq<Entry> := [];
    for k := 0 to |keys|
      invariant newMap == sorted[..k]
    {
      ghost var i := KthKey(entries, k);
      PutNew(newMap, keys[k], Canonical(entries[i].value));
      var value := SortValues(Lookup(entries, keys[k]).value);
      newMap := Put(newMap, keys[k], value);
    }
    CanonicalObject(entries);
    CanonicalAscends(v);
    CanonicalIsSame(v);
    return Object(newMap);
  }

  method SortedKeys(entries: seq<Entry>) returns (keys: seq<string>)
    ensures |Sort(KeyLeq, CanonicalEntries(entries))| == |entries|
    ensures keys == KeysOf(Sort(KeyLeq, CanonicalEntries(entries)))
    ensures DistinctKeys(entries) ==> forall i, j :: 0 <= i < j < |keys| ==> KeyBefore(keys[i], keys[j])
  {
    if DistinctKeys(entries) {
      SortedKeysAscend(entries);
    }
    keys := [];
    for i := 0 to |entries|
      invariant keys == KeysOf(entries)[..i]
    {
      keys := keys + [entries[i].key];
    }
    assert keys == KeysOf(CanonicalEntries(entries));
    SortKeys(CanonicalEntries(entries));
    MultisetElements(Sort(KeyLeq, CanonicalEntries(entries)), CanonicalEntries(entries));
    keys := Sort(LexLeq, keys);
  }
}
