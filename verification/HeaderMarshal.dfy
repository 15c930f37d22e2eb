/**
 Handing a header map to Go: the C side writes every key and value into one byte buffer and describes
 them by an array of slices; the Go side reads the slices back and regroups the values by key.
 */
module HeaderMarshal {
  import opened StreamTypes

  datatype Header = Header(key: Bytes, value: Bytes)

  /** A Go string: n bytes of the buffer, from offset p. */
  datatype GoString = GoString(p: nat, n: nat)

  // ---------- what the marshalled form means ----------

  /** byteSize() of a header map. */
  function ByteSize(m: seq<Header>): nat {
    if m == [] then 0 else ByteSize(m[..|m| - 1]) + |m[|m| - 1].key| + |m[|m| - 1].value|
  }

  /** The keys and values, alternating. */
  function Strings(m: seq<Header>): (strs: seq<Bytes>)
    ensures |strs| == 2 * |m|
  {
    if m == [] then [] else Strings(m[..|m| - 1]) + [m[|m| - 1].key, m[|m| - 1].value]
  }

  function Total(strs: seq<Bytes>): nat {
    if strs == [] then 0 else Total(strs[..|strs| - 1]) + |strs[|strs| - 1]|
  }

  /** Slice i starts where the strings before it end, and holds string i. */
  ghost predicate Slice(strs: seq<Bytes>, slices: seq<GoString>, buf: Bytes, i: nat)
    requires i < |strs| && i < |slices|
  {
    var at := Total(strs[..i]);
    && slices[i] == GoString(at, |strs[i]|)
    && at + |strs[i]| <= |buf| && buf[at..at + |strs[i]|] == strs[i]
  }

  /** The slices of strs lie end to end from the start of the buffer and hold the strings. */
  ghost predicate Laid(strs: seq<Bytes>, slices: seq<GoString>, buf: Bytes) {
    && |strs| <= |slices| && Total(strs) <= |buf|
    && forall i :: 0 <= i < |strs| ==> Slice(strs, slices, buf, i)
  }

  lemma TotalSnoc(strs: seq<Bytes>, s: Bytes)
    ensures Total(strs + [s]) == Total(strs) + |s|
  {
    assert (strs + [s])[..|strs|] == strs;
  }

  lemma {:induction false} TotalMonotone(strs: seq<Bytes>, i: nat)
    requires i <= |strs|
    ensures Total(strs[..i]) <= Total(strs)
  {
    if i < |strs| {
      TotalMonotone(strs[..|strs| - 1], i);
      assert strs[..|strs| - 1][..i] == strs[..i];
    } else {
      assert strs[..i] == strs;
    }
  }

  lemma {:induction false} TotalStrings(m: seq<Header>)
    ensures Total(Strings(m)) == ByteSize(m)
  {
    if m != [] {
      var init, last := m[..|m| - 1], m[|m| - 1];
      TotalStrings(init);
      TotalSnoc(Strings(init), last.key);
      TotalSnoc(Strings(init) + [last.key], last.value);
      assert Strings(init) + [last.key] + [last.value] == Strings(m);
    }
  }

  lemma {:induction false} StringsAt(m: seq<Header>, i: nat)
    requires i < |m|
    ensures Strings(m)[2 * i] == m[i].key && Strings(m)[2 * i + 1] == m[i].value
    ensures Strings(m[..i]) == Strings(m)[..2 * i]
  {
    var init := m[..|m| - 1];
    if i < |m| - 1 {
      StringsAt(init, i);
      assert init[..i] == m[..i];
    } else {
      assert m[..i] == init;
      assert Strings(m)[..2 * i] == Strings(init);
    }
  }

  /** The strings up to and including string i end where the next slice starts. */
  lemma TotalThrough(strs: seq<Bytes>, i: nat, j: nat)
    requires i < j <= |strs|
    ensures Total(strs[..i]) + |strs[i]| <= Total(strs[..j]) <= Total(strs)
  {
    assert strs[..i + 1] == strs[..i] + [strs[i]];
    TotalSnoc(strs[..i], strs[i]);
    assert strs[..j][..i + 1] == strs[..i + 1];
    TotalMonotone(strs[..j], i + 1);
    TotalMonotone(strs, j);
  }

  /** Slices of one layout do not overlap, and all lie below the total. */
  lemma LaidDisjoint(strs: seq<Bytes>, slices: seq<GoString>, buf: Bytes, i: nat, j: nat)
    requires Laid(strs, slices, buf) && i < j < |strs|
    ensures slices[i].p + slices[i].n <= slices[j].p
    ensures slices[j].p + slices[j].n <= Total(strs) <= |buf|
  {
    hide Total;
    assert Slice(strs, slices, buf, i) && Slice(strs, slices, buf, j);
    TotalThrough(strs, i, j);
    TotalThrough(strs, j, |strs|);
  }

  /** Every byte below the total belongs to some slice: there are no gaps. */
  lemma {:induction false} LaidCovers(strs: seq<Bytes>, slices: seq<GoString>, buf: Bytes, b: nat) returns (i: nat)
    requires Laid(strs, slices, buf) && b < Total(strs)
    ensures i < |strs| && slices[i].p <= b < slices[i].p + slices[i].n
    decreases |strs|
  {
    var n := |strs| - 1;
    assert strs[..n + 1] == strs && Slice(strs, slices, buf, n);
    if Total(strs[..n]) <= b {
      i := n;
    } else {
      LaidPrefix(strs, slices, buf, n);
      i := LaidCovers(strs[..n], slices, buf, b);
    }
  }

  lemma LaidPrefix(strs: seq<Bytes>, slices: seq<GoString>, buf: Bytes, n: nat)
    requires Laid(strs, slices, buf) && n <= |strs|
    ensures Laid(strs[..n], slices, buf)
  {
    hide Total;
    TotalMonotone(strs, n);
    forall k | 0 <= k < n
      ensures Slice(strs[..n], slices, buf, k)
    {
      assert strs[..n][..k] == strs[..k] && Slice(strs, slices, buf, k);
    }
  }

  /** What is in front of the new string stays as it was. */
  lemma SliceStays(strs: seq<Bytes>, s: Bytes, slices: seq<GoString>, buf: Bytes,
                   slices2: seq<GoString>, buf2: Bytes, k: nat)
    requires Laid(strs, slices, buf) && k < |strs| < |slices2| && |buf2| == |buf|
    requires slices2[k] == slices[k] && buf2[..Total(strs)] == buf[..Total(strs)]
    ensures Slice(strs + [s], slices2, buf2, k)
  {
    hide Total;
    assert (strs + [s])[..k] == strs[..k];
    TotalThrough(strs, k, |strs|);
    assert strs[..|strs|] == strs && Slice(strs, slices, buf, k);
    SubSlice(buf, buf2, Total(strs), slices[k]);
  }

  lemma SliceAdded(strs: seq<Bytes>, s: Bytes, slices: seq<GoString>, buf: Bytes)
    requires |strs| < |slices| && slices[|strs|] == GoString(Total(strs), |s|)
    requires Total(strs) + |s| <= |buf| && buf[Total(strs)..Total(strs) + |s|] == s
    ensures Slice(strs + [s], slices, buf, |strs|)
  {
    hide Total;
    assert (strs + [s])[..|strs|] == strs;
  }

  /** Appending one string behind a layout extends it. */
  lemma LaidSnoc(strs: seq<Bytes>, s: Bytes, slices: seq<GoString>, buf: Bytes, slices2: seq<GoString>, buf2: Bytes)
    requires Laid(strs, slices, buf) && |strs| < |slices2| == |slices| && |buf2| == |buf|
    requires forall k :: 0 <= k < |strs| ==> slices2[k] == slices[k]
    requires slices2[|strs|] == GoString(Total(strs), |s|) && Total(strs) + |s| <= |buf2|
    requires buf2[..Total(strs)] == buf[..Total(strs)] && buf2[Total(strs)..Total(strs) + |s|] == s
    ensures Laid(strs + [s], slices2, buf2)
  {
    hide Total, Slice;
    TotalSnoc(strs, s);
    forall k | 0 <= k < |strs + [s]|
      ensures Slice(strs + [s], slices2, buf2, k)
    {
      if k < |strs| {
        SliceStays(strs, s, slices, buf, slices2, buf2, k);
      } else {
        SliceAdded(strs, s, slices2, buf2);
      }
    }
  }

  lemma SubSlice(a: Bytes, b: Bytes, upTo: nat, g: GoString)
    requires upTo <= |a| == |b| && a[..upTo] == b[..upTo] && g.p + g.n <= upTo
    ensures a[g.p..g.p + g.n] == b[g.p..g.p + g.n]
  {
    assert a[g.p..g.p + g.n] == a[..upTo][g.p..g.p + g.n];
    assert b[g.p..g.p + g.n] == b[..upTo][g.p..g.p + g.n];
  }

  // ---------- the C side ----------

  method MemCpy(dst: array<Byte>, at: nat, src: Bytes)
    requires at + |src| <= dst.Length
    modifies dst
    ensures dst[..at] == old(dst[..at]) && dst[at..at + |src|] == src && dst[at + |src|..] == old(dst[at + |src|..])
  {
    var i := 0;
    while i < |src|
      invariant 0 <= i <= |src|
      invariant forall j :: 0 <= j < i ==> dst[at + j] == src[j]
      invariant forall j :: 0 <= j < dst.Length && !(at <= j < at + i) ==> dst[j] == old(dst[j])
    {
      dst[at + i] := src[i];
      i := i + 1;
    }
  }

  /** One string goes behind the ones already there. */
  method PutString(goStrs: array<GoString>, goBuf: array<Byte>, i: nat, at: nat, s: Bytes, ghost strs: seq<Bytes>)
    requires i < goStrs.Length && at + |s| <= goBuf.Length
    requires |strs| == i && Total(strs) == at && Laid(strs, goStrs[..], goBuf[..])
    modifies goStrs, goBuf
    ensures Laid(strs + [s], goStrs[..], goBuf[..])
    ensures forall j :: i < j < goStrs.Length ==> goStrs[j] == old(goStrs[j])
  {
    ghost var slices, buf := goStrs[..], goBuf[..];
    goStrs[i] := GoString(at, |s|);
    MemCpy(goBuf, at, s);
    assert goBuf[..][at..at + |s|] == s && goBuf[..][..at] == buf[..at];
    LaidSnoc(strs, s, slices, buf, goStrs[..], goBuf[..]);
  }

  /** copyHeaderMapToGo. The arrays must have room for the map; Go sized them when its callback began. */
  method CopyHeaderMapToGo(m: seq<Header>, goStrs: array<GoString>, goBuf: array<Byte>)
    requires 2 * |m| <= goStrs.Length && ByteSize(m) <= goBuf.Length
    modifies goStrs, goBuf
    ensures Laid(Strings(m), goStrs[..], goBuf[..])
    ensures forall j :: 2 * |m| <= j < goStrs.Length ==> goStrs[j] == old(goStrs[j])
  {
    assert m[..0] == [] && Laid(Strings(m[..0]), goStrs[..], goBuf[..]);
    var i, at := 0, ByteSize(m[..0]);
    hide ByteSize, Total, Strings, Laid;
    for k := 0 to |m|
      invariant i == 2 * k && at == ByteSize(m[..k])
      invariant Laid(Strings(m[..k]), goStrs[..], goBuf[..])
      invariant forall j :: 2 * |m| <= j < goStrs.Length ==> goStrs[j] == old(goStrs[j])
    {
      var key, value := m[k].key, m[k].value;
      ghost var strs := Strings(m[..k]);
      NextHeader(m, k);
      PutString(goStrs, goBuf, i, at, key, strs);
      at := at + |key|;
      i := i + 1;
      PutString(goStrs, goBuf, i, at, value, strs + [key]);
      at := at + |value|;
      i := i + 1;
    }
    assert m[..|m|] == m;
  }

  lemma NextHeader(m: seq<Header>, k: nat)
    requires k < |m|
    ensures ByteSize(m[..k + 1]) == ByteSize(m[..k]) + |m[k].key| + |m[k].value| <= ByteSize(m)
    ensures Strings(m[..k + 1]) == Strings(m[..k]) + [m[k].key] + [m[k].value]
    ensures Total(Strings(m[..k])) == ByteSize(m[..k])
    ensures Total(Strings(m[..k]) + [m[k].key]) == ByteSize(m[..k]) + |m[k].key|
  {
    assert m[..k + 1][..k] == m[..k];
    TotalStrings(m[..k]);
    TotalSnoc(Strings(m[..k]), m[k].key);
    ByteSizeMonotone(m, k + 1);
  }

  lemma {:induction false} ByteSizeMonotone(m: seq<Header>, i: nat)
    requires i <= |m|
    ensures ByteSize(m[..i]) <= ByteSize(m)
  {
    if i < |m| {
      ByteSizeMonotone(m[..|m| - 1], i);
      assert m[..|m| - 1][..i] == m[..i];
    } else {
      assert m[..i] == m;
    }
  }

  // ---------- the Go side ----------

  type Grouped = map<Bytes, seq<Bytes>>

  /** The values of a key, in the order of the map. */
  function ValuesOf(m: seq<Header>, key: Bytes): seq<Bytes> {
    if m == [] then []
    else
      var init, last := m[..|m| - 1], m[|m| - 1];
      if last.key == key then ValuesOf(init, key) + [last.value] else ValuesOf(init, key)
  }

  predicate HasKey(m: seq<Header>, key: Bytes) {
    exists i :: 0 <= i < |m| && m[i].key == key
  }

  /** g is m regrouped by key: the keys of m, each with its values in order, and nothing else. */
  ghost predicate Groups(g: Grouped, m: seq<Header>) {
    && (forall key :: key in g <==> HasKey(m, key))
    && (forall key :: key in g ==> g[key] == ValuesOf(m, key))
  }

  lemma ValuesOfSnoc(m: seq<Header>, h: Header, key: Bytes)
    ensures ValuesOf(m + [h], key) == if h.key == key then ValuesOf(m, key) + [h.value] else ValuesOf(m, key)
    ensures HasKey(m + [h], key) <==> HasKey(m, key) || h.key == key
  {
    assert (m + [h])[..|m|] == m;
    assert (m + [h])[|m|] == h;
    if HasKey(m, key) {
      var i :| 0 <= i < |m| && m[i].key == key;
      assert (m + [h])[i].key == key;
    }
  }

  lemma {:induction false} NoKeyNoValues(m: seq<Header>, key: Bytes)
    ensures HasKey(m, key) <==> ValuesOf(m, key) != []
  {
    if m != [] {
      var init, last := m[..|m| - 1], m[|m| - 1];
      assert m == init + [last];
      NoKeyNoValues(init, key);
      ValuesOfSnoc(init, last, key);
    }
  }

  /** What is regrouped is determined by the headers. */
  lemma GroupsUnique(g: Grouped, h: Grouped, m: seq<Header>)
    requires Groups(g, m) && Groups(h, m)
    ensures g == h
  {
    assert forall key :: key in g <==> key in h;
  }

  /** One turn of the regrouping loop. */
  lemma GroupsSnoc(g: Grouped, m: seq<Header>, h: Header)
    requires Groups(g, m)
    ensures Groups(if h.key in g then g[h.key := g[h.key] + [h.value]] else g[h.key := [h.value]], m + [h])
  {
    hide HasKey, ValuesOf;
    var g2 := if h.key in g then g[h.key := g[h.key] + [h.value]] else g[h.key := [h.value]];
    NoKeyNoValues(m, h.key);
    forall key
      ensures key in g2 <==> HasKey(m + [h], key)
      ensures key in g2 ==> g2[key] == ValuesOf(m + [h], key)
    {
      ValuesOfSnoc(m, h, key);
    }
  }

  /** Slices the C side did not write stay empty strings, in pairs. */
  function Padded(m: seq<Header>, num: nat): (r: seq<Header>)
    requires |m| <= num
    ensures |r| == num
  {
    m + seq(num - |m|, i => Header([], []))
  }

  /** The string a slice describes. */
  function Read(buf: Bytes, g: GoString): Bytes
    requires g.p + g.n <= |buf|
  {
    buf[g.p..g.p + g.n]
  }

  predicate InBuffer(buf: Bytes, g: GoString) {
    g.p + g.n <= |buf|
  }

  /** Two slices read as a header. */
  predicate ReadsAs(buf: Bytes, key: GoString, value: GoString, h: Header) {
    InBuffer(buf, key) && InBuffer(buf, value) && Read(buf, key) == h.key && Read(buf, value) == h.value
  }

  lemma SliceReads(strs: seq<Bytes>, slices: seq<GoString>, buf: Bytes, i: nat)
    requires Laid(strs, slices, buf) && i < |strs|
    ensures InBuffer(buf, slices[i]) && Read(buf, slices[i]) == strs[i]
  {
    hide Total;
    assert Slice(strs, slices, buf, i);
  }

  lemma LaidReads(m: seq<Header>, slices: seq<GoString>, buf: Bytes, k: nat)
    requires 2 * |m| <= |slices| && Laid(Strings(m), slices, buf) && k < |m|
    ensures ReadsAs(buf, slices[2 * k], slices[2 * k + 1], m[k])
  {
    hide Strings, Laid, Read, InBuffer;
    StringsAt(m, k);
    SliceReads(Strings(m), slices, buf, 2 * k);
    SliceReads(Strings(m), slices, buf, 2 * k + 1);
  }

  lemma EmptyReads(buf: Bytes)
    ensures ReadsAs(buf, GoString(0, 0), GoString(0, 0), Header([], []))
  {
    assert buf[0..0] == [];
  }

  /** Pair k of a filled array reads as header k of the padded map. */
  lemma PaddedReads(m: seq<Header>, num: nat, slices: seq<GoString>, buf: Bytes, k: nat)
    requires |m| <= num && |slices| == 2 * num && k < num && Laid(Strings(m), slices, buf)
    requires forall i :: 2 * |m| <= i < |slices| ==> slices[i] == GoString(0, 0)
    ensures ReadsAs(buf, slices[2 * k], slices[2 * k + 1], Padded(m, num)[k])
  {
    hide Strings, Laid, ReadsAs;
    if k < |m| {
      LaidReads(m, slices, buf, k);
    } else {
      EmptyReads(buf);
    }
  }

  /** HttpCopyHeaders: the C side fills the arrays, the loop regroups what they hold. */
  method HttpCopyHeaders(m: seq<Header>, num: nat, bytes: nat) returns (g: Grouped)
    requires |m| <= num && ByteSize(m) <= bytes
    ensures Groups(g, Padded(m, num))
  {
    hide Total, ByteSize, Laid, Groups, Padded, Read;
    var strs := new GoString[num * 2](_ => GoString(0, 0));
    var buf := new Byte[bytes](_ => 0);
    CopyHeaderMapToGo(m, strs, buf);
    ghost var slices, content := strs[..], buf[..];
    ghost var all := Padded(m, num);
    g := map[];
    assert Groups(g, all[..0]) by { EmptyGroups(); assert all[..0] == []; }
    for k := 0 to num
      invariant strs[..] == slices && buf[..] == content && Groups(g, all[..k])
    {
      PaddedReads(m, num, slices, content, k);
      var key := Read(buf[..], strs[2 * k]);
      var value := Read(buf[..], strs[2 * k + 1]);
      GroupsSnoc(g, all[..k], all[k]);
      assert all[..k + 1] == all[..k] + [all[k]];
      if key !in g {
        g := g[key := [value]];
      } else {
        g := g[key := g[key] + [value]];
      }
    }
    assert all[..num] == all;
  }

  lemma EmptyGroups()
    ensures Groups(map[], [])
  {
  }

  /**
   The round trip. When the map has not grown since its size was taken, Go ends up with exactly the
   regrouped map if and only if it has not shrunk either: a missing header is read as an empty key.
   */
  lemma RoundTripExact(m: seq<Header>, num: nat, g: Grouped)
    requires |m| <= num && Groups(g, Padded(m, num))
    requires !HasKey(m, [])
    ensures Groups(g, m) <==> num == |m|
  {
    if num == |m| {
      assert Padded(m, num) == m;
    } else {
      assert Padded(m, num)[|m|].key == [];
      assert HasKey(Padded(m, num), []);
    }
  }
}
