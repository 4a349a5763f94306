/**
 * The string the request signer hashes (alipay/alipay.go, Sign): every key in
 * ascending byte-wise order, every non-empty value of the key written `k=v`,
 * and `&` between two written pairs.
 */
module Canonical {
  import opened UrlValues

  /** The pairs Sign writes, in the order it writes them. */
  ghost function CanonicalPairs(v: Values): seq<Pair> {
    NonEmpty(Entries(v, SortedKeys(v.Keys)))
  }

  /** The canonical string of a parameter map. */
  ghost function CanonicalString(v: Values): string {
    Join(CanonicalPairs(v))
  }

  // ---------------------------------------------------------------------
  // Which pairs are written, and in which order
  // ---------------------------------------------------------------------

  lemma {:induction false} EntriesMembers(v: Values, keys: seq<string>, p: Pair)
    ensures p in Entries(v, keys) <==> p.key in keys && p.key in v && p.value in v[p.key]
    decreases |keys|
  {
    if keys != [] {
      var k := keys[|keys| - 1];
      var init := keys[..|keys| - 1];
      EntriesMembers(v, init, p);
      assert keys == init + [k];
      var ke := KeyEntries(k, if k in v then v[k] else []);
      assert p in ke <==> p.key == k && k in v && p.value in v[k] by {
        if p in ke {
          var i :| 0 <= i < |ke| && ke[i] == p;
        }
        if p.key == k && k in v && p.value in v[k] {
          var i :| 0 <= i < |v[k]| && v[k][i] == p.value;
          assert ke[i] == p;
        }
      }
    }
  }

  lemma {:induction false} NonEmptyMembers(ps: seq<Pair>, p: Pair)
    ensures p in NonEmpty(ps) <==> p in ps && p.value != ""
    decreases |ps|
  {
    if ps != [] {
      NonEmptyMembers(ps[..|ps| - 1], p);
      assert ps == ps[..|ps| - 1] + [ps[|ps| - 1]];
    }
  }

  predicate KeysAscending(ps: seq<Pair>) {
    forall i, j :: 0 <= i < j < |ps| ==> LessEq(ps[i].key, ps[j].key)
  }

  lemma {:induction false} EntriesAscending(v: Values, keys: seq<string>)
    requires StrictlySorted(keys)
    ensures KeysAscending(Entries(v, keys))
    decreases |keys|
  {
    if keys != [] {
      var k := keys[|keys| - 1];
      var init := keys[..|keys| - 1];
      EntriesAscending(v, init);
      var front := Entries(v, init);
      var back := KeyEntries(k, if k in v then v[k] else []);
      forall i | 0 <= i < |front|
        ensures Less(front[i].key, k)
      {
        EntriesMembers(v, init, front[i]);
        var m :| 0 <= m < |init| && init[m] == front[i].key;
      }
      assert Entries(v, keys) == front + back;
    }
  }

  lemma {:induction false} NonEmptyAscending(ps: seq<Pair>)
    requires KeysAscending(ps)
    ensures KeysAscending(NonEmpty(ps))
    decreases |ps|
  {
    if ps != [] {
      var init := ps[..|ps| - 1];
      var last := ps[|ps| - 1];
      NonEmptyAscending(init);
      var r := NonEmpty(init);
      forall i | 0 <= i < |r|
        ensures LessEq(r[i].key, last.key)
      {
        NonEmptyMembers(init, r[i]);
        var m :| 0 <= m < |init| && init[m] == r[i];
      }
    }
  }

  /**
   * Exactly the non-empty values of the map are written, each under its own
   * key, and the keys come in ascending byte-wise order.
   */
  lemma CanonicalPairsSpec(v: Values)
    ensures forall p :: p in CanonicalPairs(v) <==> p.key in v && p.value in v[p.key] && p.value != ""
    ensures KeysAscending(CanonicalPairs(v))
  {
    var keys := SortedKeys(v.Keys);
    forall p
      ensures p in CanonicalPairs(v) <==> p.key in v && p.value in v[p.key] && p.value != ""
    {
      NonEmptyMembers(Entries(v, keys), p);
      EntriesMembers(v, keys, p);
      assert p.key in keys <==> p.key in Elements(keys);
    }
    EntriesAscending(v, keys);
    NonEmptyAscending(Entries(v, keys));
  }

  /** The pairs of `ps` whose key is `k`, in order. */
  function WithKey(ps: seq<Pair>, k: string): (r: seq<Pair>)
    ensures |r| <= |ps|
    decreases |ps|
  {
    if ps == [] then []
    else WithKey(ps[..|ps| - 1], k) + (if ps[|ps| - 1].key == k then [ps[|ps| - 1]] else [])
  }

  lemma {:induction false} WithKeyAppend(a: seq<Pair>, b: seq<Pair>, k: string)
    ensures WithKey(a + b, k) == WithKey(a, k) + WithKey(b, k)
    decreases |b|
  {
    if b != [] {
      WithKeyAppend(a, b[..|b| - 1], k);
      assert (a + b)[..|a + b| - 1] == a + b[..|b| - 1];
    } else {
      assert a + b == a;
    }
  }

  /** Keeping one key's pairs and dropping empty values can be done in either order. */
  lemma {:induction false} WithKeyNonEmpty(ps: seq<Pair>, k: string)
    ensures WithKey(NonEmpty(ps), k) == NonEmpty(WithKey(ps, k))
    decreases |ps|
  {
    if ps != [] {
      var init, p := ps[..|ps| - 1], ps[|ps| - 1];
      WithKeyNonEmpty(init, k);
      var tail := if p.value == "" then [] else [p];
      WithKeyAppend(NonEmpty(init), tail, k);
      var kept := if p.key == k then [p] else [];
      NonEmptyAppend(WithKey(init, k), kept);
      if p.key == k {
        assert kept[..0] == [];
      }
      if p.value != "" {
        assert tail[..0] == [];
      }
    }
  }

  /** One key's pairs, filtered by a key: all of them for that key, none for another. */
  lemma {:induction false} WithKeyEntriesOf(k: string, k': string, vs: seq<string>)
    ensures WithKey(KeyEntries(k', vs), k) == if k == k' then KeyEntries(k', vs) else []
    decreases |vs|
  {
    if vs != [] {
      var init := vs[..|vs| - 1];
      WithKeyEntriesOf(k, k', init);
      assert KeyEntries(k', vs)[..|vs| - 1] == KeyEntries(k', init);
      if k == k' {
        assert KeyEntries(k', vs) == KeyEntries(k', init) + [Pair(k', vs[|vs| - 1])];
      }
    }
  }

  /** In strictly ascending keys, the last key occurs nowhere before it. */
  lemma LastKeyFresh(keys: seq<string>)
    requires StrictlySorted(keys) && keys != []
    ensures keys[|keys| - 1] !in keys[..|keys| - 1]
  {
    var init, last := keys[..|keys| - 1], keys[|keys| - 1];
    forall i | 0 <= i < |init| ensures init[i] != last {
      LessAsymmetric(keys[i], last);
    }
  }

  /** The entries of a key list: those of all keys but the last, then the last key's. */
  lemma EntriesLast(v: Values, keys: seq<string>)
    requires keys != []
    ensures var last := keys[|keys| - 1];
      Entries(v, keys) == Entries(v, keys[..|keys| - 1]) + KeyEntries(last, if last in v then v[last] else [])
  {
  }

  /** One step of WithKeyEntries: the last key's pairs joined to those of the keys before it. */
  lemma WithKeyEntriesStep(v: Values, keys: seq<string>, k: string, front: seq<Pair>, back: seq<Pair>)
    requires StrictlySorted(keys) && keys != []
    requires front == if k in keys[..|keys| - 1] && k in v then KeyEntries(k, v[k]) else []
    requires var last := keys[|keys| - 1];
      back == if k == last then KeyEntries(last, if last in v then v[last] else []) else []
    ensures front + back == if k in keys && k in v then KeyEntries(k, v[k]) else []
  {
    var init, last := keys[..|keys| - 1], keys[|keys| - 1];
    assert keys == init + [last];
    if k == last {
      LastKeyFresh(keys);
      assert front == [];
    } else {
      assert back == [];
      assert front + back == front;
    }
  }

  /** Over strictly ascending keys, the pairs of key `k` are the pairs of its own list. */
  lemma {:induction false} WithKeyEntries(v: Values, keys: seq<string>, k: string)
    requires StrictlySorted(keys)
    ensures WithKey(Entries(v, keys), k) == if k in keys && k in v then KeyEntries(k, v[k]) else []
    decreases |keys|
  {
    if keys != [] {
      var init, last := keys[..|keys| - 1], keys[|keys| - 1];
      var vs := if last in v then v[last] else [];
      EntriesLast(v, keys);
      assert StrictlySorted(init);
      WithKeyEntries(v, init, k);
      WithKeyAppend(Entries(v, init), KeyEntries(last, vs), k);
      WithKeyEntriesOf(k, last, vs);
      WithKeyEntriesStep(v, keys, k, WithKey(Entries(v, init), k), WithKey(KeyEntries(last, vs), k));
    }
  }

  /**
   * Under each key, Sign writes exactly the non-empty values of that key's
   * list, each once, in list order; nothing under a key the map lacks.
   */
  lemma KeyValuesSigned(v: Values, k: string)
    ensures WithKey(CanonicalPairs(v), k) == if k in v then NonEmpty(KeyEntries(k, v[k])) else []
  {
    var keys := SortedKeys(v.Keys);
    WithKeyNonEmpty(Entries(v, keys), k);
    WithKeyEntries(v, keys, k);
    assert k in keys <==> k in Elements(keys);
  }

  // ---------------------------------------------------------------------
  // Empty values
  // ---------------------------------------------------------------------

  /** `keys` with every occurrence of `k` taken out. */
  function Without(keys: seq<string>, k: string): (r: seq<string>)
    ensures forall x :: x in r <==> x in keys && x != k
    decreases |keys|
  {
    if keys == [] then []
    else
      var init := keys[..|keys| - 1];
      assert keys == init + [keys[|keys| - 1]];
      Without(init, k) + (if keys[|keys| - 1] == k then [] else [keys[|keys| - 1]])
  }

  lemma {:induction false} WithoutSorted(keys: seq<string>, k: string)
    requires StrictlySorted(keys)
    ensures StrictlySorted(Without(keys, k))
    decreases |keys|
  {
    if keys != [] {
      var init := keys[..|keys| - 1];
      var last := keys[|keys| - 1];
      WithoutSorted(init, k);
      var w := Without(init, k);
      forall i | 0 <= i < |w|
        ensures Less(w[i], last)
      {
        assert w[i] in init;
        var m :| 0 <= m < |init| && init[m] == w[i];
      }
    }
  }

  /**
   * Dropping a key whose values are all empty from the key list does not
   * change the pairs written, when the two maps agree on every other key.
   */
  lemma {:induction false} SkipsEmptyKey(v1: Values, v2: Values, keys: seq<string>, k: string)
    requires k in v1 && forall i :: 0 <= i < |v1[k]| ==> v1[k][i] == ""
    requires forall x :: x != k ==> (x in v1 <==> x in v2)
    requires forall x :: x != k && x in v1 ==> v1[x] == v2[x]
    ensures NonEmpty(Entries(v1, keys)) == NonEmpty(Entries(v2, Without(keys, k)))
    decreases |keys|
  {
    if keys != [] {
      var init := keys[..|keys| - 1];
      var last := keys[|keys| - 1];
      SkipsEmptyKey(v1, v2, init, k);
      var back := KeyEntries(last, if last in v1 then v1[last] else []);
      NonEmptyAppend(Entries(v1, init), back);
      if last == k {
        NonEmptyOfAllEmpty(back);
        assert Without(keys, k) == Without(init, k);
      } else {
        var w := Without(init, k);
        assert Without(keys, k) == w + [last];
        assert (w + [last])[..|w|] == w;
        NonEmptyAppend(Entries(v2, w), back);
      }
    }
  }

  lemma {:induction false} NonEmptyOfAllEmpty(ps: seq<Pair>)
    requires forall i :: 0 <= i < |ps| ==> ps[i].value == ""
    ensures NonEmpty(ps) == []
    decreases |ps|
  {
    if ps != [] {
      NonEmptyOfAllEmpty(ps[..|ps| - 1]);
    }
  }

  /**
   * A key whose values are all "" gives the same canonical string as the key
   * being absent.
   */
  lemma EmptyValuesDropped(v: Values, k: string, vs: seq<string>)
    requires forall i :: 0 <= i < |vs| ==> vs[i] == ""
    ensures CanonicalString(v[k := vs]) == CanonicalString(v - {k})
  {
    var v1 := v[k := vs];
    var v2 := v - {k};
    var keys := SortedKeys(v1.Keys);
    assert v1.Keys - {k} == v2.Keys;
    SkipsEmptyKey(v1, v2, keys, k);
    SortedWithout(keys, k, v2.Keys);
    assert NonEmpty(Entries(v1, keys)) == CanonicalPairs(v2);
  }

  /** Taking a key out of the sorted key list gives the sorted list of the remaining keys. */
  lemma SortedWithout(keys: seq<string>, k: string, s: set<string>)
    requires StrictlySorted(keys) && Elements(keys) - {k} == s
    ensures Without(keys, k) == SortedKeys(s)
  {
    WithoutSorted(keys, k);
    forall x ensures x in Elements(Without(keys, k)) <==> x in s {
      assert x in keys <==> x in Elements(keys);
    }
    StrictlySortedUnique(Without(keys, k), SortedKeys(s));
  }

  /** A map whose values are all "" (or that is empty) gives "". */
  lemma AllEmptyGivesEmpty(v: Values)
    requires forall k :: k in v ==> forall i :: 0 <= i < |v[k]| ==> v[k][i] == ""
    ensures CanonicalString(v) == ""
  {
    var entries := Entries(v, SortedKeys(v.Keys));
    forall i | 0 <= i < |entries|
      ensures entries[i].value == ""
    {
      EntriesMembers(v, SortedKeys(v.Keys), entries[i]);
      var j :| 0 <= j < |v[entries[i].key]| && v[entries[i].key][j] == entries[i].value;
    }
    NonEmptyOfAllEmpty(entries);
  }

  // ---------------------------------------------------------------------
  // Shape: `k=v` fields, `&` only between them
  // ---------------------------------------------------------------------

  /** strings.Split(s, "&"), the inverse the shape lemmas use. */
  function SplitOnAmpersand(s: string): (r: seq<string>)
    ensures |r| >= 1
    decreases |s|
  {
    if s == [] then [""]
    else
      var f := SplitOnAmpersand(s[..|s| - 1]);
      var c := s[|s| - 1];
      if c == '&' then f + [""] else f[..|f| - 1] + [f[|f| - 1] + [c]]
  }

  lemma {:induction false} SplitAppendPlain(a: string, b: string)
    requires '&' !in b
    ensures var f := SplitOnAmpersand(a);
      SplitOnAmpersand(a + b) == f[..|f| - 1] + [f[|f| - 1] + b]
    decreases |b|
  {
    if b == [] {
      var f := SplitOnAmpersand(a);
      assert a + b == a;
      assert f[|f| - 1] + b == f[|f| - 1];
      assert f[..|f| - 1] + [f[|f| - 1]] == f;
    } else {
      var b' := b[..|b| - 1];
      var c := b[|b| - 1];
      SplitAppendPlain(a, b');
      assert c in b;
      var f := SplitOnAmpersand(a);
      var g := SplitOnAmpersand(a + b');
      assert g == f[..|f| - 1] + [f[|f| - 1] + b'];
      assert (a + b)[..|a + b| - 1] == a + b';
      assert (a + b)[|a + b| - 1] == c;
      assert SplitOnAmpersand(a + b) == g[..|g| - 1] + [g[|g| - 1] + [c]];
      assert g[..|g| - 1] == f[..|f| - 1];
      assert b == b' + [c];
      assert g[|g| - 1] + [c] == f[|f| - 1] + b;
    }
  }

  lemma SplitAppendField(a: string, b: string)
    requires '&' !in b
    ensures SplitOnAmpersand(a + "&" + b) == SplitOnAmpersand(a) + [b]
  {
    var f := SplitOnAmpersand(a);
    assert (a + "&")[..|a + "&"| - 1] == a;
    assert (a + "&")[|a + "&"| - 1] == '&';
    var g := SplitOnAmpersand(a + "&");
    assert g == f + [""];
    SplitAppendPlain(a + "&", b);
    assert a + "&" + b == (a + "&") + b;
    assert g[..|g| - 1] == f;
    assert g[|g| - 1] + b == b;
  }

  /** Each pair written as `k=v`. */
  function RenderAll(ps: seq<Pair>): (r: seq<string>)
    decreases |ps|
  {
    if ps == [] then [] else RenderAll(ps[..|ps| - 1]) + [Render(ps[|ps| - 1])]
  }

  predicate NoAmpersand(ps: seq<Pair>) {
    forall i :: 0 <= i < |ps| ==> '&' !in ps[i].key && '&' !in ps[i].value
  }

  lemma RenderNoAmpersand(p: Pair)
    requires '&' !in p.key && '&' !in p.value
    ensures '&' !in Render(p)
  {
    var text := Render(p);
    forall i | 0 <= i < |text| ensures text[i] != '&' {
      if i < |p.key| {
        assert text[i] == p.key[i];
      } else if i > |p.key| {
        assert text[i] == p.value[i - |p.key| - 1];
      }
    }
  }

  /**
   * Splitting a joined, non-empty list of pairs on `&` gives back each pair
   * as `k=v`: no leading, trailing or doubled separator.
   */
  lemma {:induction false} JoinSplits(ps: seq<Pair>)
    requires ps != [] && NoAmpersand(ps)
    ensures SplitOnAmpersand(Join(ps)) == RenderAll(ps)
    decreases |ps|
  {
    RenderNoAmpersand(ps[|ps| - 1]);
    if |ps| == 1 {
      SplitOne(ps);
    } else {
      var init := ps[..|ps| - 1];
      assert NoAmpersand(init);
      JoinSplits(init);
      SplitStep(ps);
    }
  }

  lemma SplitOne(ps: seq<Pair>)
    requires |ps| == 1 && '&' !in Render(ps[0])
    ensures SplitOnAmpersand(Join(ps)) == RenderAll(ps)
  {
    var text := Render(ps[0]);
    SplitAppendPlain("", text);
    assert "" + text == text;
    assert Join(ps) == text;
    assert ps[..0] == [];
  }

  lemma SplitStep(ps: seq<Pair>)
    requires |ps| > 1 && '&' !in Render(ps[|ps| - 1])
    requires SplitOnAmpersand(Join(ps[..|ps| - 1])) == RenderAll(ps[..|ps| - 1])
    ensures SplitOnAmpersand(Join(ps)) == RenderAll(ps)
  {
    var init := ps[..|ps| - 1];
    var text := Render(ps[|ps| - 1]);
    SplitAppendField(Join(init), text);
    assert Join(ps) == Join(init) + "&" + text;
  }

  /**
   * The canonical string is "" exactly when the map has no non-empty value;
   * otherwise, when no key or value holds `&`, splitting it on `&` gives one
   * `k=v` field per written pair and nothing else.
   */
  lemma CanonicalShape(v: Values)
    requires forall k :: k in v ==> '&' !in k && forall i :: 0 <= i < |v[k]| ==> '&' !in v[k][i]
    ensures CanonicalString(v) == "" <==> forall k :: k in v ==> forall i :: 0 <= i < |v[k]| ==> v[k][i] == ""
    ensures CanonicalString(v) != "" ==> SplitOnAmpersand(CanonicalString(v)) == RenderAll(CanonicalPairs(v))
  {
    var ps := CanonicalPairs(v);
    CanonicalPairsSpec(v);
    JoinEmpty(ps);
    if ps != [] {
      ShapeWritten(v);
    } else {
      forall k, i | k in v && 0 <= i < |v[k]|
        ensures v[k][i] == ""
      {
        assert Pair(k, v[k][i]) in ps <==> v[k][i] != "";
      }
    }
  }

  /** The non-empty case of CanonicalShape. */
  lemma ShapeWritten(v: Values)
    requires forall k :: k in v ==> '&' !in k && forall i :: 0 <= i < |v[k]| ==> '&' !in v[k][i]
    requires CanonicalPairs(v) != []
    ensures CanonicalString(v) != "" && exists k :: k in v && exists i :: 0 <= i < |v[k]| && v[k][i] != ""
    ensures SplitOnAmpersand(CanonicalString(v)) == RenderAll(CanonicalPairs(v))
  {
    var ps := CanonicalPairs(v);
    CanonicalPairsSpec(v);
    JoinEmpty(ps);
    var p := ps[0];
    assert p in ps;
    var i :| 0 <= i < |v[p.key]| && v[p.key][i] == p.value;
    forall j | 0 <= j < |ps|
      ensures '&' !in ps[j].key && '&' !in ps[j].value
    {
      assert ps[j] in ps;
      var m :| 0 <= m < |v[ps[j].key]| && v[ps[j].key][m] == ps[j].value;
    }
    JoinSplits(ps);
  }
}
