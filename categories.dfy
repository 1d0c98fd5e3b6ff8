/** Distinct values in first-seen order, as the client builds them with a
    Set, with an object used as a map, or with an array and indexOf. */
module Categories {
  import opened JsValues

  predicate Distinct<T(==)>(s: seq<T>) {
    forall i, j :: 0 <= i < j < |s| ==> s[i] != s[j]
  }

  /** The distinct elements of s, each where it first occurs. */
  function Dedup<T(==,!new)>(s: seq<T>): (r: seq<T>)
    ensures Distinct(r)
    ensures |r| <= |s|
    ensures forall x :: x in r <==> x in s
  {
    if s == [] then []
    else
      var d := Dedup(s[..|s| - 1]);
      var last := s[|s| - 1];
      assert forall x :: x in s <==> x in s[..|s| - 1] || x == last;
      if last in d then d else d + [last]
  }

  /** The position of the first occurrence of x in s. */
  function IndexIn<T(==)>(s: seq<T>, x: T): (i: nat)
    requires x in s
    ensures i < |s| && s[i] == x
    ensures forall j :: 0 <= j < i ==> s[j] != x
  {
    if s[0] == x then 0 else 1 + IndexIn(s[1..], x)
  }

  /** In a sequence without repeats the position of an element is its index. */
  lemma IndexInDistinct<T(!new)>(s: seq<T>, i: nat)
    requires Distinct(s) && i < |s|
    ensures IndexIn(s, s[i]) == i
  {
  }

  /** Deduplication appends a new value and ignores a repeated one. */
  lemma DedupSnoc<T(!new)>(s: seq<T>, x: T)
    ensures Dedup(s + [x]) == if x in Dedup(s) then Dedup(s) else Dedup(s) + [x]
  {
    assert (s + [x])[..|s|] == s;
  }

  /** Values that occur earlier are listed earlier: the order of Dedup is the
      order of first occurrence in s. */
  lemma {:induction false} DedupFirstSeenOrder<T(!new)>(s: seq<T>, i: nat, j: nat)
    requires i < j < |Dedup(s)|
    ensures IndexIn(s, Dedup(s)[i]) < IndexIn(s, Dedup(s)[j])
    decreases |s|
  {
    var p := s[..|s| - 1];
    var d := Dedup(p);
    var last := s[|s| - 1];
    var a := Dedup(s)[i];
    var b := Dedup(s)[j];
    assert a in Dedup(s) && b in Dedup(s);
    PrefixIndexIn(s, a);
    if j < |d| {
      assert a == d[i] && b == d[j];
      DedupFirstSeenOrder(p, i, j);
      PrefixIndexIn(s, b);
    } else {
      assert b == last && last !in d && a == d[i];
      assert a in p;
      assert b !in p;
      assert IndexIn(s, a) < |p|;
      assert IndexIn(s, b) == |p|;
    }
  }

  /** Occurrences in the prefix s[..|s| - 1] keep their position. */
  lemma PrefixIndexIn<T(!new)>(s: seq<T>, x: T)
    requires |s| > 0 && x in s[..|s| - 1]
    ensures IndexIn(s, x) == IndexIn(s[..|s| - 1], x)
  {
    var p := s[..|s| - 1];
    var k := IndexIn(p, x);
    assert s[k] == x;
    assert forall j :: 0 <= j < k ==> s[j] == p[j];
    IndexInAt(s, x, k);
  }

  /** The first position holding x is the one with no earlier x. */
  lemma {:induction false} IndexInAt<T>(s: seq<T>, x: T, k: nat)
    requires k < |s| && s[k] == x && forall j :: 0 <= j < k ==> s[j] != x
    ensures IndexIn(s, x) == k
  {
    if k > 0 {
      assert s[1..][k - 1] == x;
      IndexInAt(s[1..], x, k - 1);
    }
  }

  // ---- objects keyed by category ----

  /** The categories as object keys (String of each). */
  function KeyStrings(cats: seq<Value>): (ks: seq<string>)
    ensures |ks| == |cats|
    ensures forall i :: 0 <= i < |cats| ==> ks[i] == ToString(cats[i])
  {
    seq(|cats|, i requires 0 <= i < |cats| => ToString(cats[i]))
  }

  /** `Object.fromEntries(cats.map((c, i) => [c, i]))[key]`, over the keys of
      the categories: a later category with the same key overwrites an
      earlier one, so the lookup finds the last of them. */
  function KeyIndex(keys: seq<string>, key: string): (r: nat)
    requires key in keys
    ensures r < |keys| && keys[r] == key
    ensures forall i :: r < i < |keys| ==> keys[i] != key
  {
    if keys[|keys| - 1] == key then |keys| - 1
    else
      assert key in keys[..|keys| - 1] by {
        assert forall x :: x in keys ==> x in keys[..|keys| - 1] || x == keys[|keys| - 1];
      }
      KeyIndex(keys[..|keys| - 1], key)
  }

  /** The grid position of value v among the categories. */
  function Position(cats: seq<Value>, v: Value): (r: nat)
    requires v in cats
    ensures r < |cats| && ToString(cats[r]) == ToString(v)
  {
    var ks := KeyStrings(cats);
    assert ToString(v) in ks by {
      var i :| 0 <= i < |cats| && cats[i] == v;
      assert ks[i] == ToString(v);
    }
    KeyIndex(ks, ToString(v))
  }

  /** When no two categories share a key, each one's position is its index. */
  lemma PositionOfDistinct(cats: seq<Value>, n: nat)
    requires Distinct(KeyStrings(cats)) && n < |cats|
    ensures Position(cats, cats[n]) == n
  {
    var ks := KeyStrings(cats);
    var r := Position(cats, cats[n]);
    assert ks[r] == ks[n];
  }

  /** Every value has its place among the distinct values. */
  lemma InDedup<T(!new)>(s: seq<T>, i: nat)
    requires i < |s|
    ensures s[i] in Dedup(s)
  {
  }

  /** Every element is among the distinct elements. */
  lemma AllInDedup<T(!new)>(s: seq<T>)
    ensures forall i :: 0 <= i < |s| ==> s[i] in Dedup(s)
  {
    forall i | 0 <= i < |s| ensures s[i] in Dedup(s) {
      InDedup(s, i);
    }
  }

  /** A prefix one element longer is the prefix with that element appended. */
  lemma PrefixSnoc<T>(s: seq<T>, p: nat)
    requires p < |s|
    ensures s[..p + 1] == s[..p] + [s[p]]
  {
  }
}
