/**
 * `templateCache` (src/index.js:8): a plain object from template name to
 * `{fn, obj, server}`. A `for..in` over it visits keys in insertion order, so it is
 * modelled as a sequence of entries with distinct names, in that order.
 */
module Registry {
  import opened Wrappers

  /** The value stored under key `name`: compiled client function, namespace, and the server flag. */
  datatype Entry = Entry(name: string, fn: string, obj: string, server: bool)

  /** The keys of the cache, in `for..in` order. */
  function Names(c: seq<Entry>): seq<string>
  {
    seq(|c|, i requires 0 <= i < |c| => c[i].name)
  }

  /** An object has each key at most once. */
  predicate DistinctNames(c: seq<Entry>)
  {
    forall i, j :: 0 <= i < j < |c| ==> c[i].name != c[j].name
  }

  /** Whether `name` is an own key of the cache. */
  predicate Has(c: seq<Entry>, name: string)
  {
    name in Names(c)
  }

  /** The position of key `name`, or -1 when it is absent. */
  function IndexOf(c: seq<Entry>, name: string): (k: int)
    ensures -1 <= k < |c|
    ensures k >= 0 ==> c[k].name == name
    ensures k >= 0 ==> forall j :: 0 <= j < k ==> c[j].name != name
    ensures k < 0 <==> !Has(c, name)
  {
    if c == [] then -1
    else
      assert Names(c) == [c[0].name] + Names(c[1..]);
      if c[0].name == name then 0
      else
        var k := IndexOf(c[1..], name);
        if k < 0 then -1 else k + 1
  }

  /** The entry stored under `name`, or nothing. */
  function Lookup(c: seq<Entry>, name: string): Option<Entry>
  {
    var k := IndexOf(c, name);
    if k < 0 then None else Some(c[k])
  }

  /** Assigning `e` under its name: an existing key keeps its place, a new key goes last. */
  function Put(c: seq<Entry>, e: Entry): (r: seq<Entry>)
    ensures |r| == if Has(c, e.name) then |c| else |c| + 1
    ensures e in r
  {
    var k := IndexOf(c, e.name);
    if k < 0 then c + [e] else assert c[k := e][k] == e; c[k := e]
  }

  /** The cache after the server flag of every entry has been set. */
  function MarkServer(c: seq<Entry>): (r: seq<Entry>)
    ensures |r| == |c|
    ensures forall i :: 0 <= i < |r| ==>
      r[i].server && r[i].name == c[i].name && r[i].fn == c[i].fn && r[i].obj == c[i].obj
  {
    seq(|c|, i requires 0 <= i < |c| => c[i].(server := true))
  }

  /** In an object without repeated keys, a key's position is the one place it occurs. */
  lemma IndexOfUnique(c: seq<Entry>, name: string, i: int)
    requires DistinctNames(c) && 0 <= i < |c| && c[i].name == name
    ensures IndexOf(c, name) == i
  {
    assert Names(c)[i] == name;
  }

  /** Lookups depend only on the keys' order and the entries, not on how the cache was built. */
  lemma {:induction false} IndexOfSameNames(c: seq<Entry>, d: seq<Entry>, name: string)
    requires Names(c) == Names(d)
    ensures IndexOf(c, name) == IndexOf(d, name)
  {
    assert |c| == |Names(c)| == |Names(d)| == |d|;
    if c != [] {
      assert c[0].name == Names(c)[0] == Names(d)[0] == d[0].name;
      assert Names(c[1..]) == Names(c)[1..] == Names(d)[1..] == Names(d[1..]);
      IndexOfSameNames(c[1..], d[1..], name);
    }
  }

  /**
   * Storing an entry keeps keys distinct and the earlier keys in their order, makes the
   * entry the value of its key, and leaves every other key's value as it was. A new key
   * is appended.
   */
  lemma PutFacts(c: seq<Entry>, e: Entry)
    requires DistinctNames(c)
    ensures DistinctNames(Put(c, e))
    ensures Names(c) <= Names(Put(c, e))
    ensures Lookup(Put(c, e), e.name) == Some(e)
    ensures forall n :: n != e.name ==> Lookup(Put(c, e), n) == Lookup(c, n)
    ensures !Has(c, e.name) ==> Put(c, e) == c + [e]
    ensures Has(c, e.name) ==> |Put(c, e)| == |c|
  {
    var p := Put(c, e);
    var k := IndexOf(c, e.name);
    if k < 0 {
      forall i | 0 <= i < |c| ensures c[i].name != e.name {
        assert Names(c)[i] == c[i].name;
      }
      assert Names(c) == Names(p)[..|c|];
    } else {
      assert Names(c)[..k] == Names(p)[..k];
      assert Names(c) == Names(p);
    }
    IndexOfUnique(p, e.name, if k < 0 then |c| else k);
    forall n | n != e.name
      ensures Lookup(p, n) == Lookup(c, n)
    {
      var j := IndexOf(c, n);
      if j >= 0 {
        IndexOfUnique(p, n, j);
      }
    }
  }

  /**
   * Storing an entry whose key an earlier state of the cache did not have keeps that
   * earlier state as a prefix: the key is appended, or replaced behind that prefix.
   */
  lemma PutKeepsPrefix(p: seq<Entry>, c: seq<Entry>, e: Entry)
    requires p <= c && !Has(p, e.name)
    ensures p <= Put(c, e)
  {
    forall i | 0 <= i < |p|
      ensures c[i].name != e.name
    {
      assert Names(p)[i] == c[i].name;
    }
  }

  /** A cache that grew only by appending still maps every earlier key to its earlier entry. */
  lemma PrefixLookups(p: seq<Entry>, c: seq<Entry>)
    requires p <= c && DistinctNames(c)
    ensures forall n :: Has(p, n) ==> Lookup(c, n) == Lookup(p, n)
  {
    forall n | Has(p, n)
      ensures Lookup(c, n) == Lookup(p, n)
    {
      var k := IndexOf(p, n);
      IndexOfUnique(c, n, k);
    }
  }

  /** Marking every entry as emitted keeps keys, functions and namespaces as they were. */
  lemma MarkServerFacts(c: seq<Entry>)
    ensures Names(MarkServer(c)) == Names(c)
    ensures DistinctNames(c) ==> DistinctNames(MarkServer(c))
    ensures forall i :: 0 <= i < |c| ==>
      MarkServer(c)[i] == Entry(c[i].name, c[i].fn, c[i].obj, true)
    ensures forall n :: IndexOf(MarkServer(c), n) == IndexOf(c, n)
  {
    assert Names(MarkServer(c)) == Names(c);
    forall n ensures IndexOf(MarkServer(c), n) == IndexOf(c, n) {
      IndexOfSameNames(MarkServer(c), c, n);
    }
  }
}
