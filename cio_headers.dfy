/**
 * The CIO header adapter (`CIOHeaders`): a `ValuesMap` view over the parsed header block.
 * The block is its indexed list of (name, value) pairs together with its lookup by name;
 * how that lookup matches names is not part of this model.
 */
module CIOHeadersView {
  import opened Common

  /** An `HttpHeadersMap`: `pairs[i]` is (`nameAt(i)`, `valueAt(i)`); `find` is its `get`. */
  datatype HttpHeadersMap = HttpHeadersMap(pairs: seq<(string, string)>, find: string -> Option<string>)
  {
    function Size(): nat {
      |pairs|
    }

    function NameAt(i: nat): string
      requires i < |pairs|
    {
      pairs[i].0
    }

    function ValueAt(i: nat): string
      requires i < |pairs|
    {
      pairs[i].1
    }
  }

  /** An entry of `entries()`; `idx` stands for the identity of the `Entry` object. */
  datatype Entry = Entry(idx: nat, key: string, value: seq<string>)

  function NamesOf(h: HttpHeadersMap): (names: seq<string>)
    ensures |names| == h.Size()
    ensures forall i :: 0 <= i < h.Size() ==> names[i] == h.NameAt(i)
  {
    seq(|h.pairs|, i requires 0 <= i < |h.pairs| => h.pairs[i].0)
  }

  /** The index of the first occurrence of `x` in `xs`. */
  function FirstIndex(xs: seq<string>, x: string): (i: nat)
    requires x in xs
    ensures i < |xs| && xs[i] == x && x !in xs[..i]
  {
    if xs[0] == x then 0
    else
      var j := FirstIndex(xs[1..], x);
      assert xs[..j + 1] == [xs[0]] + xs[1..][..j];
      j + 1
  }

  /**
   * `r` lists every element of `xs` exactly once, ordered by first occurrence in `xs`:
   * what a `LinkedHashSet` filled from `xs` iterates.
   */
  ghost predicate DistinctInFirstOccurrenceOrder(r: seq<string>, xs: seq<string>) {
    && (forall i, j :: 0 <= i < j < |r| ==> r[i] != r[j])
    && (forall x :: x in r <==> x in xs)
    && (forall i, j :: 0 <= i < j < |r| ==> FirstIndex(xs, r[i]) < FirstIndex(xs, r[j]))
  }

  /** An element of a prefix first occurs inside that prefix. */
  lemma {:induction false} FirstIndexBefore(xs: seq<string>, k: nat, x: string)
    requires k <= |xs| && x in xs[..k]
    ensures x in xs && FirstIndex(xs, x) < k
  {
    if xs[0] != x {
      assert xs[..k] == [xs[0]] + xs[1..][..k - 1];
      FirstIndexBefore(xs[1..], k - 1, x);
    }
  }

  /** An element not seen before position `k` first occurs at `k`. */
  lemma {:induction false} FirstIndexAt(xs: seq<string>, k: nat)
    requires k < |xs| && xs[k] !in xs[..k]
    ensures FirstIndex(xs, xs[k]) == k
  {
    if k > 0 {
      assert xs[..k][0] == xs[0];
      assert xs[..k] == [xs[0]] + xs[1..][..k - 1];
      assert xs[1..][k - 1] == xs[k];
      FirstIndexAt(xs[1..], k - 1);
    }
  }

  /** A first-occurrence listing is empty exactly when the listed sequence is. */
  lemma EmptyListing(r: seq<string>, xs: seq<string>)
    requires DistinctInFirstOccurrenceOrder(r, xs)
    ensures r == [] <==> xs == []
  {
    if r != [] {
      assert r[0] in xs;
    }
    if xs != [] {
      assert xs[0] in r;
    }
  }

  /** The loop of the lazy `names` initialiser: add every `nameAt(i)` to a `LinkedHashSet`. */
  method CollectNames(headers: HttpHeadersMap) returns (names: seq<string>)
    ensures DistinctInFirstOccurrenceOrder(names, NamesOf(headers))
  {
    ghost var xs := NamesOf(headers);
    names := [];
    for i := 0 to headers.Size()
      invariant forall a, b :: 0 <= a < b < |names| ==> names[a] != names[b]
      invariant forall x :: x in names <==> x in xs[..i]
      invariant forall x :: x in names ==> x in xs && FirstIndex(xs, x) < i
      invariant forall a, b :: 0 <= a < b < |names| ==> FirstIndex(xs, names[a]) < FirstIndex(xs, names[b])
    {
      var name := headers.NameAt(i);
      assert xs[..i + 1] == xs[..i] + [name];
      if name !in names {
        FirstIndexAt(xs, i);
        names := names + [name];
      }
    }
    assert xs[..headers.Size()] == xs;
  }

  class CIOHeaders {
    const headers: HttpHeadersMap
    /** The lazily computed `names` set, once computed. */
    var namesCache: Option<seq<string>>

    /** The adapter reports its names as case-insensitive. */
    const caseInsensitiveName: bool := true

    ghost predicate Valid()
      reads this
    {
      namesCache.Some? ==> DistinctInFirstOccurrenceOrder(namesCache.value, NamesOf(headers))
    }

    constructor (headers: HttpHeadersMap)
      ensures Valid() && this.headers == headers && namesCache == None
    {
      this.headers := headers;
      namesCache := None;
    }

    /** `names()`: computed on first use, the same set on every later call. */
    method Names() returns (r: seq<string>)
      requires Valid()
      modifies this
      ensures Valid() && namesCache == Some(r)
      ensures DistinctInFirstOccurrenceOrder(r, NamesOf(headers))
      ensures old(namesCache).Some? ==> r == old(namesCache).value
      ensures r == [] <==> IsEmpty()
    {
      if namesCache.None? {
        var computed := CollectNames(headers);
        namesCache := Some(computed);
      }
      r := namesCache.value;
      EmptyListing(r, NamesOf(headers));
    }

    /** `get`: the header map's own lookup (`toString` of a string is the string). */
    function Get(name: string): (r: Option<string>)
      ensures r.Some? <==> headers.find(name).Some?
      ensures r.Some? ==> r.value == headers.find(name).value
    {
      headers.find(name)
    }

    /** `getAll`: absent exactly when `get` is, otherwise the one value `get` gives. */
    function GetAll(name: string): (r: Option<seq<string>>)
      ensures r.None? <==> Get(name).None?
      ensures r.Some? ==> |r.value| == 1 && r.value[0] == Get(name).value
    {
      match Get(name)
      case None => None
      case Some(v) => Some([v])
    }

    function EntryAt(i: nat): Entry
      requires i < headers.Size()
    {
      Entry(i, headers.NameAt(i), [headers.ValueAt(i)])
    }

    /** `entries()`: one entry per index, keyed by `nameAt(i)` with value `[valueAt(i)]`. */
    function Entries(): (r: set<Entry>)
      ensures |r| == headers.Size()
      ensures forall i :: 0 <= i < headers.Size() ==> EntryAt(i) in r
      ensures forall e :: e in r ==> e.idx < headers.Size() && e == EntryAt(e.idx)
    {
      EntriesUpToSize(headers.Size());
      set i | 0 <= i < headers.Size() :: EntryAt(i)
    }

    lemma {:induction false} EntriesUpToSize(n: nat)
      requires n <= headers.Size()
      ensures |set i | 0 <= i < n :: EntryAt(i)| == n
    {
      if n > 0 {
        EntriesUpToSize(n - 1);
        var smaller := set i | 0 <= i < n - 1 :: EntryAt(i);
        assert (set i | 0 <= i < n :: EntryAt(i)) == smaller + {EntryAt(n - 1)};
        assert EntryAt(n - 1) !in smaller;
      }
    }

    /** `isEmpty()`: no header at all, so no entry either. */
    function IsEmpty(): (b: bool)
      ensures b <==> headers.Size() == 0
      ensures b <==> Entries() == {}
    {
      headers.Size() == 0
    }
  }
}
