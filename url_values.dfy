/**
 * Go's `url.Values` (a map from a key to a list of values), the byte-wise
 * string order of `sort.Strings`, and the `k=v&k=v` joining that both the
 * request signer and `Values.Encode` perform.
 *
 * Go strings and byte slices are both modelled as `seq<char>`, one `char` per
 * byte, so comparing `char`s by ordinal is comparing bytes.
 */
module UrlValues {

  /** url.Values */
  type Values = map<string, seq<string>>

  /** Values.Set: the key's value list becomes exactly `[value]`. */
  function Set(v: Values, key: string, value: string): (r: Values)
    ensures r == v[key := [value]]
  {
    v[key := [value]]
  }

  /** Values.Get: the first value of the key, "" when there is none. */
  function Get(v: Values, key: string): (r: string)
    ensures key in v && |v[key]| > 0 ==> r == v[key][0]
    ensures key !in v || v[key] == [] ==> r == ""
  {
    if key in v && |v[key]| > 0 then v[key][0] else ""
  }

  // ---------------------------------------------------------------------
  // Byte-wise order (Go's `<` on strings, used by sort.Strings)
  // ---------------------------------------------------------------------

  /** a sorts strictly before b: a proper prefix of b, or smaller at the first difference. */
  predicate Less(a: string, b: string)
    decreases |a|
  {
    |b| > 0 && (|a| == 0 || a[0] < b[0] || (a[0] == b[0] && Less(a[1..], b[1..])))
  }

  predicate LessEq(a: string, b: string) {
    a == b || Less(a, b)
  }

  lemma {:induction false} LessIrreflexive(a: string)
    ensures !Less(a, a)
    decreases |a|
  {
    if |a| > 0 {
      LessIrreflexive(a[1..]);
    }
  }

  lemma {:induction false} LessTransitive(a: string, b: string, c: string)
    requires Less(a, b) && Less(b, c)
    ensures Less(a, c)
    decreases |a|
  {
    if |a| > 0 && a[0] == b[0] && b[0] == c[0] {
      LessTransitive(a[1..], b[1..], c[1..]);
    }
  }

  lemma {:induction false} LessTotal(a: string, b: string)
    ensures a == b || Less(a, b) || Less(b, a)
    decreases |a|
  {
    if |a| > 0 && |b| > 0 && a[0] == b[0] {
      LessTotal(a[1..], b[1..]);
      if a[1..] == b[1..] {
        assert a == [a[0]] + a[1..] && b == [b[0]] + b[1..];
      }
    }
  }

  lemma LessAsymmetric(a: string, b: string)
    requires Less(a, b)
    ensures !Less(b, a) && a != b
  {
    LessIrreflexive(a);
    if Less(b, a) {
      LessTransitive(a, b, a);
    }
  }

  lemma LessEqTransitive(a: string, b: string, c: string)
    requires LessEq(a, b) && LessEq(b, c)
    ensures LessEq(a, c)
  {
    if Less(a, b) && Less(b, c) {
      LessTransitive(a, b, c);
    }
  }

  // ---------------------------------------------------------------------
  // Sorted key sequences
  // ---------------------------------------------------------------------

  function Elements(s: seq<string>): set<string> {
    set x | x in s
  }

  predicate Distinct(s: seq<string>) {
    forall i, j :: 0 <= i < j < |s| ==> s[i] != s[j]
  }

  /** Sorted as sort.Strings leaves a slice: never a later element before an earlier one. */
  predicate Sorted(s: seq<string>) {
    forall i, j :: 0 <= i < j < |s| ==> LessEq(s[i], s[j])
  }

  predicate StrictlySorted(s: seq<string>) {
    forall i, j :: 0 <= i < j < |s| ==> Less(s[i], s[j])
  }

  /** `m` is the least element of `s`. */
  ghost predicate IsMinimum(m: string, s: set<string>) {
    m in s && forall x :: x in s && x != m ==> Less(m, x)
  }

  lemma {:induction false} MinimumExists(s: set<string>)
    requires s != {}
    ensures exists m :: IsMinimum(m, s)
    decreases |s|
  {
    var y :| y in s;
    if s == {y} {
      assert IsMinimum(y, s);
    } else {
      MinimumExists(s - {y});
      var m :| IsMinimum(m, s - {y});
      LessTotal(m, y);
      if Less(m, y) {
        assert IsMinimum(m, s);
      } else {
        forall x | x in s && x != y
          ensures Less(y, x)
        {
          if x != m {
            LessTransitive(y, m, x);
          }
        }
        assert IsMinimum(y, s);
      }
    }
  }

  lemma PrependMinimum(m: string, rest: seq<string>, s: set<string>)
    requires IsMinimum(m, s)
    requires StrictlySorted(rest) && Elements(rest) == s - {m}
    ensures StrictlySorted([m] + rest) && Elements([m] + rest) == s
  {
    forall i | 0 <= i < |rest| ensures Less(m, rest[i]) {
      assert rest[i] in Elements(rest);
    }
    forall x ensures x in Elements([m] + rest) <==> x in s {
      assert x in [m] + rest <==> x == m || x in rest;
      assert x in rest <==> x in Elements(rest);
    }
  }

  /** The keys of a set in ascending byte-wise order: the order Sign and Encode visit them in. */
  ghost function SortedKeys(s: set<string>): (r: seq<string>)
    ensures StrictlySorted(r) && Elements(r) == s && |r| == |s|
    decreases |s|
  {
    if s == {} then []
    else
      MinimumExists(s);
      var m :| IsMinimum(m, s);
      var rest := SortedKeys(s - {m});
      PrependMinimum(m, rest, s);
      [m] + rest
  }

  /** A non-empty sequence contributes its first key to its elements. */
  lemma HeadInElements(s: seq<string>)
    ensures |s| > 0 ==> s[0] in Elements(s)
  {
  }

  /** Only one strictly ascending sequence enumerates a given set of keys. */
  lemma {:induction false} StrictlySortedUnique(a: seq<string>, b: seq<string>)
    requires StrictlySorted(a) && StrictlySorted(b) && Elements(a) == Elements(b)
    ensures a == b
    decreases |a|
  {
    if a == [] {
      HeadInElements(b);
    } else {
      assert a[0] in Elements(b);
      assert b != [];
      assert b[0] in Elements(a);
      var i :| 0 <= i < |a| && a[i] == b[0];
      var j :| 0 <= j < |b| && b[j] == a[0];
      if a[0] != b[0] {
        assert i > 0 && j > 0;
        LessAsymmetric(a[0], a[i]);
      }
      forall x | x in Elements(a[1..])
        ensures x in Elements(b[1..])
      {
        var k :| 1 <= k < |a| && a[k] == x;
        LessAsymmetric(a[0], a[k]);
        assert x in Elements(b);
      }
      forall x | x in Elements(b[1..])
        ensures x in Elements(a[1..])
      {
        var k :| 1 <= k < |b| && b[k] == x;
        LessAsymmetric(b[0], b[k]);
        assert x in Elements(a);
      }
      StrictlySortedUnique(a[1..], b[1..]);
      assert a == [a[0]] + a[1..] && b == [b[0]] + b[1..];
    }
  }

  // ---------------------------------------------------------------------
  // sort.Strings, as an insertion sort on a copy
  // ---------------------------------------------------------------------

  function Insert(x: string, s: seq<string>): (r: seq<string>)
    ensures multiset(r) == multiset(s) + multiset{x}
    decreases |s|
  {
    if s == [] || LessEq(x, s[0]) then [x] + s
    else
      assert s == [s[0]] + s[1..];
      [s[0]] + Insert(x, s[1..])
  }

  lemma SortedCons(h: string, t: seq<string>)
    requires Sorted(t) && forall j :: 0 <= j < |t| ==> LessEq(h, t[j])
    ensures Sorted([h] + t)
  {
  }

  lemma {:induction false} InsertSorted(x: string, s: seq<string>)
    requires Sorted(s)
    ensures Sorted(Insert(x, s))
    decreases |s|
  {
    if s == [] || LessEq(x, s[0]) {
      forall j | 0 <= j < |s|
        ensures LessEq(x, s[j])
      {
        LessEqTransitive(x, s[0], s[j]);
      }
      SortedCons(x, s);
    } else {
      InsertSorted(x, s[1..]);
      LessTotal(x, s[0]);
      var tail := Insert(x, s[1..]);
      forall j | 0 <= j < |tail|
        ensures LessEq(s[0], tail[j])
      {
        assert tail[j] in multiset(tail);
        assert tail[j] in multiset(s[1..]) + multiset{x};
        if tail[j] != x {
          assert tail[j] in s[1..];
        }
      }
      SortedCons(s[0], tail);
    }
  }

  /** sort.Strings on a copy of the slice. */
  function SortStrings(s: seq<string>): (r: seq<string>)
    ensures multiset(r) == multiset(s) && Sorted(r)
    decreases |s|
  {
    if s == [] then []
    else
      var r := Insert(s[0], SortStrings(s[1..]));
      InsertSorted(s[0], SortStrings(s[1..]));
      assert s == [s[0]] + s[1..];
      r
  }

  lemma DistinctCount(s: seq<string>, x: string)
    requires Distinct(s)
    ensures multiset(s)[x] <= 1
    decreases |s|
  {
    if s != [] {
      assert s == [s[0]] + s[1..];
      DistinctCount(s[1..], x);
      if x == s[0] {
        assert x !in s[1..];
      }
    }
  }

  lemma SortedDistinctIsStrict(r: seq<string>, s: seq<string>)
    requires Sorted(r) && Distinct(s) && multiset(r) == multiset(s)
    ensures StrictlySorted(r) && Elements(r) == Elements(s)
  {
    forall i, j | 0 <= i < j < |r|
      ensures Less(r[i], r[j])
    {
      if r[i] == r[j] {
        assert r == r[..j] + r[j..];
        assert r[i] in r[..j] && r[j] in r[j..];
        assert multiset(r)[r[i]] == multiset(r[..j])[r[i]] + multiset(r[j..])[r[i]];
        DistinctCount(s, r[i]);
      }
    }
    forall x ensures x in Elements(r) <==> x in Elements(s) {
      assert x in r <==> x in multiset(r);
      assert x in s <==> x in multiset(s);
    }
  }

  lemma ElementsSnoc(s: seq<string>, k: string)
    ensures Elements(s + [k]) == Elements(s) + {k}
  {
    forall x ensures x in Elements(s + [k]) <==> x in Elements(s) + {k} {
      assert x in s + [k] <==> x in s || x == k;
    }
  }

  lemma DistinctSnoc(s: seq<string>, k: string)
    requires Distinct(s) && k !in Elements(s)
    ensures Distinct(s + [k])
  {
    forall i | 0 <= i < |s| ensures s[i] != k {
      assert s[i] in Elements(s);
    }
  }

  /** `for k := range values { keys = append(keys, k) }`: every key once, in the map's own order. */
  method CollectKeys(v: Values) returns (collected: seq<string>)
    ensures Distinct(collected) && Elements(collected) == v.Keys
  {
    collected := [];
    var rest := v.Keys;
    while rest != {}
      invariant Distinct(collected)
      invariant Elements(collected) !! rest
      invariant Elements(collected) + rest == v.Keys
      decreases |rest|
    {
      var k :| k in rest;
      DistinctSnoc(collected, k);
      ElementsSnoc(collected, k);
      collected := collected + [k];
      rest := rest - {k};
    }
  }

  /**
   * The first lines of Sign (and of Values.Encode): append every key of the
   * map to a slice, in whatever order the map hands them out, then sort it.
   */
  method SortedKeyList(v: Values) returns (keys: seq<string>)
    ensures keys == SortedKeys(v.Keys)
  {
    var collected := CollectKeys(v);
    keys := SortStrings(collected);
    SortedDistinctIsStrict(keys, collected);
    StrictlySortedUnique(keys, SortedKeys(v.Keys));
  }

  // ---------------------------------------------------------------------
  // `k=v` pairs joined by `&`
  // ---------------------------------------------------------------------

  datatype Pair = Pair(key: string, value: string)

  function Render(p: Pair): string {
    p.key + "=" + p.value
  }

  /** Pairs rendered as `k=v`, with `&` written only between two pairs. */
  function Join(ps: seq<Pair>): (r: string)
    decreases |ps|
  {
    if ps == [] then ""
    else if |ps| == 1 then Render(ps[0])
    else Join(ps[..|ps| - 1]) + "&" + Render(ps[|ps| - 1])
  }

  /** What the writer loops rely on: the buffer is non-empty exactly when a pair was written. */
  lemma JoinEmpty(ps: seq<Pair>)
    ensures |Join(ps)| == 0 <==> ps == []
  {
    if ps != [] {
      assert Join(ps)[|Join(ps)| - |Render(ps[|ps| - 1])|..] == Render(ps[|ps| - 1]);
    }
  }

  /** Appending one pair to the buffer: `&` first unless the buffer is still empty. */
  lemma JoinSnoc(ps: seq<Pair>, p: Pair)
    ensures Join(ps + [p]) == Join(ps) + (if |Join(ps)| > 0 then "&" else "") + Render(p)
  {
    JoinEmpty(ps);
    assert (ps + [p])[..|ps|] == ps;
  }

  /** The pairs of one key, one per value, in list order. */
  function KeyEntries(k: string, vs: seq<string>): (r: seq<Pair>)
    ensures |r| == |vs|
    ensures forall i :: 0 <= i < |vs| ==> r[i] == Pair(k, vs[i])
  {
    seq(|vs|, i requires 0 <= i < |vs| => Pair(k, vs[i]))
  }

  /** The pairs of the given keys, key by key, value by value. */
  function Entries(v: Values, keys: seq<string>): seq<Pair>
    decreases |keys|
  {
    if keys == [] then []
    else
      var k := keys[|keys| - 1];
      Entries(v, keys[..|keys| - 1]) + KeyEntries(k, if k in v then v[k] else [])
  }

  /** The pairs whose value is not the empty string, in order. */
  function NonEmpty(ps: seq<Pair>): (r: seq<Pair>)
    ensures forall i :: 0 <= i < |r| ==> r[i].value != "" && r[i] in ps
    decreases |ps|
  {
    if ps == [] then []
    else
      NonEmpty(ps[..|ps| - 1]) + (if ps[|ps| - 1].value == "" then [] else [ps[|ps| - 1]])
  }

  lemma {:induction false} NonEmptyAppend(a: seq<Pair>, b: seq<Pair>)
    ensures NonEmpty(a + b) == NonEmpty(a) + NonEmpty(b)
    decreases |b|
  {
    if b != [] {
      NonEmptyAppend(a, b[..|b| - 1]);
      assert (a + b)[..|a + b| - 1] == a + b[..|b| - 1];
    } else {
      assert a + b == a;
    }
  }

  /** Every pair with both sides passed through an escaping function. */
  function Escaped(ps: seq<Pair>, escape: string -> string): (r: seq<Pair>)
    ensures |r| == |ps|
    ensures forall i :: 0 <= i < |ps| ==> r[i] == Pair(escape(ps[i].key), escape(ps[i].value))
  {
    seq(|ps|, i requires 0 <= i < |ps| => Pair(escape(ps[i].key), escape(ps[i].value)))
  }

  lemma EscapedAppend(a: seq<Pair>, b: seq<Pair>, escape: string -> string)
    ensures Escaped(a + b, escape) == Escaped(a, escape) + Escaped(b, escape)
  {
  }

  lemma EntriesSnoc(v: Values, keys: seq<string>, i: nat)
    requires i < |keys| && keys[i] in v
    ensures Entries(v, keys[..i + 1]) == Entries(v, keys[..i]) + KeyEntries(keys[i], v[keys[i]])
  {
    assert keys[..i + 1][..i] == keys[..i];
  }

  lemma KeyEntriesSnoc(k: string, vs: seq<string>, j: nat)
    requires j < |vs|
    ensures KeyEntries(k, vs[..j + 1]) == KeyEntries(k, vs[..j]) + [Pair(k, vs[j])]
  {
  }

  /**
   * Values.Encode: every key in ascending order, every value of the key, each
   * written `QueryEscape(k)=QueryEscape(v)`; empty values are kept.
   */
  ghost function Encoded(v: Values, escape: string -> string): string {
    Join(Escaped(Entries(v, SortedKeys(v.Keys)), escape))
  }

  /** One more pair written by Encode's inner loop. */
  lemma EncodeStep(done: seq<Pair>, p: Pair, escape: string -> string)
    ensures var before := Join(Escaped(done, escape));
      Join(Escaped(done + [p], escape))
        == before + (if |before| > 0 then "&" else "") + Render(Pair(escape(p.key), escape(p.value)))
  {
    EscapedAppend(done, [p], escape);
    JoinSnoc(Escaped(done, escape), Pair(escape(p.key), escape(p.value)));
  }

  lemma NoEntriesYet(ps: seq<Pair>, k: string, vs: seq<string>)
    ensures ps + KeyEntries(k, vs[..0]) == ps
  {
    assert KeyEntries(k, vs[..0]) == [];
  }

  /** One more value of key `k` written by Encode's inner loop. */
  lemma EncodeKeyStep(prefix: seq<Pair>, k: string, vs: seq<string>, j: nat, escape: string -> string)
    requires j < |vs|
    ensures var before := Join(Escaped(prefix + KeyEntries(k, vs[..j]), escape));
      Join(Escaped(prefix + KeyEntries(k, vs[..j + 1]), escape))
        == before + (if |before| > 0 then "&" else "") + Render(Pair(escape(k), escape(vs[j])))
  {
    KeyEntriesSnoc(k, vs, j);
    assert prefix + KeyEntries(k, vs[..j + 1]) == (prefix + KeyEntries(k, vs[..j])) + [Pair(k, vs[j])];
    EncodeStep(prefix + KeyEntries(k, vs[..j]), Pair(k, vs[j]), escape);
  }

  /** Encode's inner loop: every value of key `k`, each written after the pairs already in `s0`. */
  method EncodeValues(s0: string, k: string, vs: seq<string>, escape: string -> string, ghost done: seq<Pair>)
    returns (s: string)
    requires s0 == Join(Escaped(done, escape))
    ensures s == Join(Escaped(done + KeyEntries(k, vs), escape))
  {
    s := s0;
    var kEscaped := escape(k);
    NoEntriesYet(done, k, vs);
    var j := 0;
    while j < |vs|
      invariant 0 <= j <= |vs|
      invariant s == Join(Escaped(done + KeyEntries(k, vs[..j]), escape))
    {
      EncodeKeyStep(done, k, vs, j, escape);
      if |s| > 0 {
        s := s + "&";
      }
      s := s + Render(Pair(kEscaped, escape(vs[j])));
      j := j + 1;
    }
    assert vs[..j] == vs;
  }

  /** Values.Encode, the loops of the Go standard library. */
  method Encode(v: Values, escape: string -> string) returns (s: string)
    ensures s == Encoded(v, escape)
    ensures v == map[] ==> s == ""
  {
    var keys := SortedKeyList(v);
    s := "";
    ghost var done: seq<Pair> := [];
    var i := 0;
    while i < |keys|
      invariant 0 <= i <= |keys|
      invariant done == Entries(v, keys[..i])
      invariant s == Join(Escaped(done, escape))
    {
      var k := keys[i];
      assert k in Elements(keys);
      s := EncodeValues(s, k, v[k], escape, done);
      EntriesSnoc(v, keys, i);
      done := done + KeyEntries(k, v[k]);
      i := i + 1;
    }
    assert keys[..i] == keys;
  }
}
