/** Slices, totals and page numbers of the list operations. */
module Pages {
  import opened Tasks

  function Min(a: nat, b: nat): nat {
    if a <= b then a else b
  }

  /** `xs[offset : offset + limit]`, clamped as Python clamps it. */
  function Slice<T>(xs: seq<T>, offset: nat, limit: nat): seq<T> {
    xs[Min(offset, |xs|)..Min(offset + limit, |xs|)]
  }

  datatype Page<T> = Page(data: seq<T>, total: nat, page: nat, pageSize: nat)

  function FromPage<T>(data: seq<T>, total: nat, limit: nat, offset: nat): Page<T>
    requires limit >= 1
  {
    Page(data, total, offset / limit + 1, limit)
  }

  /** The response of a list operation over `xs`. */
  function PageOf<T>(xs: seq<T>, limit: nat, offset: nat): Page<T>
    requires limit >= 1
  {
    FromPage(Slice(xs, offset, limit), |xs|, limit, offset)
  }

  /** The first `n` pages, one after the other. */
  function Walk<T>(xs: seq<T>, limit: nat, n: nat): seq<T>
    requires limit >= 1
  {
    if n == 0 then [] else Walk(xs, limit, n - 1) + PageOf(xs, limit, (n - 1) * limit).data
  }

  lemma {:induction false} WalkIsPrefix<T>(xs: seq<T>, limit: nat, n: nat)
    requires limit >= 1
    ensures Walk(xs, limit, n) == xs[..Min(n * limit, |xs|)]
  {
    if n > 0 {
      WalkIsPrefix(xs, limit, n - 1);
      assert n * limit == (n - 1) * limit + limit;
    }
  }

  /** Walking the pages until they are exhausted visits the list, each element once and in order. */
  lemma PagesTile<T>(xs: seq<T>, limit: nat, n: nat)
    requires limit >= 1 && n * limit >= |xs|
    ensures Walk(xs, limit, n) == xs
  {
    WalkIsPrefix(xs, limit, n);
  }

  /** Element i stands at position i mod limit of the response whose page number is i div limit + 1. */
  lemma ElementOnItsPage<T>(xs: seq<T>, limit: nat, i: nat, n: nat)
    requires limit >= 1 && i < |xs|
    ensures var p := PageOf(xs, limit, n * limit);
      && p.page == n + 1 && p.total == |xs| && p.pageSize == limit
      && (n == i / limit ==> i % limit < |p.data| && p.data[i % limit] == xs[i])
  {
  }

  // ------------------------------------------------------------------ images

  /** What is left of the raw list when every element that cannot be converted is skipped. */
  function Converted<R, T>(raw: seq<R>, convert: R -> Option<T>): seq<T> {
    if raw == [] then []
    else
      var rest := Converted(raw[..|raw| - 1], convert);
      match convert(raw[|raw| - 1])
      case Some(x) => rest + [x]
      case None => rest
  }

  /** The image listing: `convert` is the ImageResponse construction, None where it raises. */
  method ListImages<R, T>(raw: seq<R>, convert: R -> Option<T>, limit: nat, offset: nat)
      returns (images: seq<T>, total: nat)
    ensures images == Slice(Converted(raw, convert), offset, limit) && total == |Converted(raw, convert)|
  {
    var all: seq<T> := [];
    for n := 0 to |raw|
      invariant all == Converted(raw[..n], convert)
    {
      assert raw[..n + 1][..n] == raw[..n];
      var image := convert(raw[n]);
      if image.None? {
        continue;
      }
      all := all + [image.value];
    }
    assert raw[..|raw|] == raw;
    images := all[Min(offset, |all|)..Min(offset + limit, |all|)];
    total := |all|;
  }

  /** The positions, in order, of the elements that can be converted. */
  function Kept<R, T>(raw: seq<R>, convert: R -> Option<T>): seq<nat> {
    if raw == [] then []
    else
      var rest := Kept(raw[..|raw| - 1], convert);
      if convert(raw[|raw| - 1]).Some? then rest + [|raw| - 1] else rest
  }

  predicate Increasing(at: seq<nat>, bound: nat) {
    && (forall m, n :: 0 <= m < n < |at| ==> at[m] < at[n])
    && (forall n :: 0 <= n < |at| ==> at[n] < bound)
  }

  lemma {:induction false} KeptIsIncreasing<R, T>(raw: seq<R>, convert: R -> Option<T>)
    ensures Increasing(Kept(raw, convert), |raw|)
  {
    if raw != [] {
      KeptIsIncreasing(raw[..|raw| - 1], convert);
    }
  }

  lemma {:induction false} KeptExactly<R, T>(raw: seq<R>, convert: R -> Option<T>, i: nat)
    requires i < |raw|
    ensures i in Kept(raw, convert) <==> convert(raw[i]).Some?
  {
    var last := |raw| - 1;
    KeptIsIncreasing(raw[..last], convert);
    if i < last {
      KeptExactly(raw[..last], convert, i);
    }
  }

  lemma {:induction false} ConvertedAt<R, T>(raw: seq<R>, convert: R -> Option<T>, n: nat)
    requires n < |Kept(raw, convert)|
    ensures |Converted(raw, convert)| == |Kept(raw, convert)| && Kept(raw, convert)[n] < |raw|
    ensures convert(raw[Kept(raw, convert)[n]]) == Some(Converted(raw, convert)[n])
  {
    var first := raw[..|raw| - 1];
    KeptAsMany(first, convert);
    if n < |Kept(first, convert)| {
      ConvertedAt(first, convert, n);
    }
  }

  lemma {:induction false} KeptAsMany<R, T>(raw: seq<R>, convert: R -> Option<T>)
    ensures |Converted(raw, convert)| == |Kept(raw, convert)|
  {
    if raw != [] {
      KeptAsMany(raw[..|raw| - 1], convert);
    }
  }

  /** The converted list is the elements that can be converted, all of them, each once, in their order. */
  lemma ConvertedIsSubsequence<R, T>(raw: seq<R>, convert: R -> Option<T>)
    ensures var at := Kept(raw, convert);
      && |Converted(raw, convert)| == |at| && Increasing(at, |raw|)
      && (forall i :: 0 <= i < |raw| ==> (i in at <==> convert(raw[i]).Some?))
      && (forall n :: 0 <= n < |at| ==> convert(raw[at[n]]) == Some(Converted(raw, convert)[n]))
  {
    KeptAsMany(raw, convert);
    KeptIsIncreasing(raw, convert);
    forall i: nat | i < |raw| ensures i in Kept(raw, convert) <==> convert(raw[i]).Some? {
      KeptExactly(raw, convert, i);
    }
    forall n: nat | n < |Kept(raw, convert)|
      ensures convert(raw[Kept(raw, convert)[n]]) == Some(Converted(raw, convert)[n])
    {
      ConvertedAt(raw, convert, n);
    }
  }

  // ------------------------------------------------------------------ any offset

  /** The response for any offset: what is left from there, at most `limit` of it, and the page the offset is on. */
  lemma PageAt<T>(xs: seq<T>, limit: nat, offset: nat)
    requires limit >= 1
    ensures var p := PageOf(xs, limit, offset);
      && |p.data| == (if |xs| <= offset then 0 else if |xs| - offset <= limit then |xs| - offset else limit)
      && (forall j :: 0 <= j < |p.data| ==> p.data[j] == xs[offset + j])
      && p.total == |xs| && p.pageSize == limit
      && (p.page - 1) * limit <= offset < p.page * limit
  {
    assert offset == offset / limit * limit + offset % limit;
  }
}
