/**
 The header map a Go filter holds: a cache of the Envoy header list, filled on the first read and then
 written through. It tells the truth as long as keys are lower-case and the list has neither grown nor
 shrunk before the first read.
 */
module HeaderCache {
  import opened StreamTypes
  import opened HeaderMarshal

  function LowerByte(b: Byte): Byte {
    if 65 <= b <= 90 then b + 32 else b
  }

  /** Http::LowerCaseString. */
  function Lower(key: Bytes): (r: Bytes)
    ensures |r| == |key|
  {
    if key == [] then [] else Lower(key[..|key| - 1]) + [LowerByte(key[|key| - 1])]
  }

  predicate IsLower(key: Bytes) { Lower(key) == key }

  predicate IsUpperLetter(b: Byte) { 'A' as int <= b as int <= 'Z' as int }

  /** Each capital becomes the small letter at its place in the alphabet, and every other byte stays. */
  lemma {:induction false} LowerExactly(key: Bytes, i: nat)
    requires i < |key|
    ensures !IsUpperLetter(Lower(key)[i])
    ensures !IsUpperLetter(key[i]) ==> Lower(key)[i] == key[i]
    ensures IsUpperLetter(key[i]) ==> Lower(key)[i] as int - 'a' as int == key[i] as int - 'A' as int
  {
    if i < |key| - 1 {
      LowerExactly(key[..|key| - 1], i);
    }
  }

  /** So a key is lower-case if and only if it has no capitals. */
  lemma LowerMeans(key: Bytes)
    ensures IsLower(key) <==> forall i :: 0 <= i < |key| ==> !IsUpperLetter(key[i])
  {
    forall i | 0 <= i < |key|
      ensures !IsUpperLetter(Lower(key)[i])
      ensures Lower(key)[i] == key[i] <==> !IsUpperLetter(key[i])
    {
      LowerExactly(key, i);
    }
  }

  lemma {:induction false} LowerTwice(key: Bytes)
    ensures IsLower(Lower(key))
  {
    if key != [] {
      var init, last := key[..|key| - 1], LowerByte(key[|key| - 1]);
      LowerTwice(init);
      assert (Lower(init) + [last])[..|key| - 1] == Lower(init);
    }
  }

  // ---------- the Envoy header list ----------

  /** The list without the entries of a key: HeaderMap::remove. */
  function Without(m: seq<Header>, key: Bytes): seq<Header> {
    if m == [] then []
    else
      var init, last := m[..|m| - 1], m[|m| - 1];
      if last.key == key then Without(init, key) else Without(init, key) + [last]
  }

  lemma {:induction false} WithoutValues(m: seq<Header>, key: Bytes, other: Bytes)
    ensures ValuesOf(Without(m, key), other) == if other == key then [] else ValuesOf(m, other)
    ensures HasKey(Without(m, key), other) <==> other != key && HasKey(m, other)
  {
    if m != [] {
      var init, last := m[..|m| - 1], m[|m| - 1];
      assert m == init + [last];
      WithoutValues(init, key, other);
      ValuesOfSnoc(init, last, other);
      if last.key != key {
        ValuesOfSnoc(Without(init, key), last, other);
      }
    }
  }

  /** Envoy lower-cases what it stores, and keys are never empty. */
  ghost predicate EnvoyKeys(m: seq<Header>) {
    forall key :: HasKey(m, key) ==> IsLower(key) && key != []
  }

  class EnvoyHeaders {
    var entries: seq<Header>

    constructor (m: seq<Header>)
      ensures entries == m
    {
      entries := m;
    }

    method AddCopy(key: Bytes, value: Bytes)
      modifies this
      ensures entries == old(entries) + [Header(key, value)]
    {
      entries := entries + [Header(key, value)];
    }

    method Remove(key: Bytes)
      modifies this
      ensures entries == Without(old(entries), key)
    {
      ghost var all := entries;
      var kept, i := [], 0;
      while i < |entries|
        invariant 0 <= i <= |entries| && entries == all && kept == Without(all[..i], key)
      {
        assert all[..i + 1][..i] == all[..i];
        if entries[i].key != key {
          kept := kept + [entries[i]];
        }
        i := i + 1;
      }
      assert all[..i] == all;
      entries := kept;
    }

    method SetCopy(key: Bytes, value: Bytes)
      modifies this
      ensures entries == Without(old(entries), key) + [Header(key, value)]
    {
      Remove(key);
      AddCopy(key, value);
    }
  }

  // ---------- what the operations do ----------

  /** The Envoy list, the cache (None is Go's nil map), and the sizes taken when the callback began. */
  datatype View = View(entries: seq<Header>, cache: Option<Grouped>, num: nat, bytes: nat) {
    /** The arrays of a load are large enough. */
    predicate Fits() { |entries| <= num && ByteSize(entries) <= bytes }

    ghost predicate Coherent() { cache.Some? ==> Groups(cache.value, entries) }
  }

  datatype Op = Read(key: Bytes) | Set(key: Bytes, value: Bytes) | Add(key: Bytes, value: Bytes) | Del(key: Bytes)

  /** The regrouped form of a list. */
  function GroupOf(m: seq<Header>): Grouped {
    if m == [] then map[]
    else
      var g, h := GroupOf(m[..|m| - 1]), m[|m| - 1];
      if h.key in g then g[h.key := g[h.key] + [h.value]] else g[h.key := [h.value]]
  }

  lemma {:induction false} GroupOfGroups(m: seq<Header>)
    ensures Groups(GroupOf(m), m)
  {
    if m == [] {
      EmptyGroups();
    } else {
      var init := m[..|m| - 1];
      GroupOfGroups(init);
      GroupsSnoc(GroupOf(init), init, m[|m| - 1]);
      assert m == init + [m[|m| - 1]];
    }
  }

  function Load(v: View): View
    requires v.cache.None? ==> v.Fits()
  {
    if v.cache.None? then v.(cache := Some(GroupOf(Padded(v.entries, v.num)))) else v
  }

  function CacheAdd(g: Grouped, key: Bytes, value: Bytes): Grouped {
    if key in g then g[key := g[key] + [value]] else g[key := [value]]
  }

  /** Reads load; writes go to the cache, if there is one, and to Envoy. */
  function Apply(v: View, op: Op): View
    requires op.Read? && v.cache.None? ==> v.Fits()
  {
    match op
    case Read(_) => Load(v)
    case Set(key, value) =>
      v.(cache := if v.cache.Some? then Some(v.cache.value[key := [value]]) else None,
         entries := Without(v.entries, Lower(key)) + [Header(Lower(key), value)])
    case Add(key, value) =>
      v.(cache := if v.cache.Some? then Some(CacheAdd(v.cache.value, key, value)) else None,
         entries := v.entries + [Header(Lower(key), value)])
    case Del(key) =>
      v.(cache := if v.cache.Some? then Some(v.cache.value - {key}) else None,
         entries := Without(v.entries, Lower(key)))
  }

  class HeaderMapImpl {
    const envoy: EnvoyHeaders
    const headerNum: nat
    const headerBytes: nat
    var headers: Option<Grouped>

    ghost function Value(): View
      reads this, envoy
    {
      View(envoy.entries, headers, headerNum, headerBytes)
    }

    constructor (envoy: EnvoyHeaders, headerNum: nat, headerBytes: nat)
      ensures this.envoy == envoy && Value() == View(envoy.entries, None, headerNum, headerBytes)
    {
      this.envoy, this.headerNum, this.headerBytes := envoy, headerNum, headerBytes;
      headers := None;
    }

    method Fill()
      requires headers.None? ==> Value().Fits()
      modifies this
      ensures Value() == Load(old(Value())) && headers.Some?
    {
      hide Groups, Padded, GroupOf;
      if headers.None? {
        var g := HttpCopyHeaders(envoy.entries, headerNum, headerBytes);
        GroupOfGroups(Padded(envoy.entries, headerNum));
        GroupsUnique(g, GroupOf(Padded(envoy.entries, headerNum)), Padded(envoy.entries, headerNum));
        headers := Some(g);
      }
    }

    /** Values: nil when the key is absent. */
    method Values(key: Bytes) returns (values: Option<seq<Bytes>>)
      requires headers.None? ==> Value().Fits()
      modifies this
      ensures Value() == Apply(old(Value()), Op.Read(key))
      ensures values == if key in headers.value then Some(headers.value[key]) else None
    {
      Fill();
      if key !in headers.value {
        return None;
      }
      return Some(headers.value[key]);
    }

    /** Get: the first value, or the empty string and false. A key in the cache has a value. */
    method Get(key: Bytes) returns (value: Bytes, ok: bool)
      requires headers.None? ==> Value().Fits()
      requires headers.Some? ==> exists m :: Groups(headers.value, m)
      modifies this
      ensures Value() == Apply(old(Value()), Op.Read(key))
      ensures if key in headers.value then ok && headers.value[key] != [] && value == headers.value[key][0]
              else !ok && value == []
    {
      hide GroupOf;
      ghost var m := Padded(envoy.entries, if headers.None? then headerNum else |envoy.entries|);
      if headers.Some? {
        m :| Groups(headers.value, m);
      } else {
        GroupOfGroups(m);
      }
      Fill();
      if key !in headers.value {
        return [], false;
      }
      NoKeyNoValues(m, key);
      return headers.value[key][0], true;
    }

    method Set(key: Bytes, value: Bytes)
      modifies this, envoy
      ensures Value() == Apply(old(Value()), Op.Set(key, value))
    {
      if headers.Some? {
        headers := Some(headers.value[key := [value]]);
      }
      envoy.SetCopy(Lower(key), value);
    }

    method Add(key: Bytes, value: Bytes)
      modifies this, envoy
      ensures Value() == Apply(old(Value()), Op.Add(key, value))
    {
      if headers.Some? {
        if key in headers.value {
          headers := Some(headers.value[key := headers.value[key] + [value]]);
        } else {
          headers := Some(headers.value[key := [value]]);
        }
      }
      envoy.AddCopy(Lower(key), value);
    }

    method Del(key: Bytes)
      modifies this, envoy
      ensures Value() == Apply(old(Value()), Op.Del(key))
    {
      if headers.Some? {
        headers := Some(headers.value - {key});
      }
      envoy.Remove(Lower(key));
    }
  }

  // ---------- coherence ----------

  /** What a write leaves under each key of the list. */
  lemma WrittenEntries(v: View, op: Op, other: Bytes)
    requires !op.Read?
    ensures var m, w, key := v.entries, Apply(v, op).entries, Lower(op.key);
            match op
            case Set(_, value) =>
              && (HasKey(w, other) <==> other == key || HasKey(m, other))
              && ValuesOf(w, other) == (if other == key then [value] else ValuesOf(m, other))
            case Add(_, value) =>
              && (HasKey(w, other) <==> other == key || HasKey(m, other))
              && ValuesOf(w, other) == (if other == key then ValuesOf(m, other) + [value] else ValuesOf(m, other))
            case _ =>
              && (HasKey(w, other) <==> other != key && HasKey(m, other))
              && ValuesOf(w, other) == (if other == key then [] else ValuesOf(m, other))
  {
    hide HasKey, ValuesOf, Without, Lower;
    var key := Lower(op.key);
    match op
    case Set(_, value) =>
      WithoutValues(v.entries, key, other);
      ValuesOfSnoc(Without(v.entries, key), Header(key, value), other);
      assert other == key ==> [] + [value] == [value];
    case Add(_, value) => ValuesOfSnoc(v.entries, Header(key, value), other);
    case Del(_) => WithoutValues(v.entries, key, other);
  }

  lemma WrittenKeys(v: View, op: Op)
    requires EnvoyKeys(v.entries) && !op.Read? && op.key != []
    ensures EnvoyKeys(Apply(v, op).entries)
  {
    hide HasKey, Without, Lower;
    LowerTwice(op.key);
    forall other | HasKey(Apply(v, op).entries, other)
      ensures IsLower(other) && other != []
    {
      WrittenEntries(v, op, other);
    }
  }

  lemma LowerWrite(v: View, op: Op)
    requires v.cache.Some? && v.Coherent() && !op.Read? && IsLower(op.key)
    ensures Apply(v, op).Coherent()
  {
    hide HasKey, ValuesOf, Without, Lower;
    var w := Apply(v, op);
    NoKeyNoValues(v.entries, op.key);
    forall other
      ensures other in w.cache.value <==> HasKey(w.entries, other)
      ensures other in w.cache.value ==> w.cache.value[other] == ValuesOf(w.entries, other)
    {
      WrittenEntries(v, op, other);
    }
  }

  /** A write to a loaded cache keeps it true if and only if its key is lower-case, or it deletes nothing. */
  lemma WriteCoherent(v: View, op: Op)
    requires v.cache.Some? && v.Coherent() && EnvoyKeys(v.entries) && !op.Read?
    ensures Apply(v, op).Coherent() <==> IsLower(op.key) || (op.Del? && !HasKey(v.entries, Lower(op.key)))
  {
    hide HasKey, ValuesOf, Without, Lower;
    var w := Apply(v, op);
    if IsLower(op.key) {
      LowerWrite(v, op);
    } else if op.Del? {
      assert op.key !in v.cache.value;
      assert w.cache.value == v.cache.value;
      WrittenEntries(v, op, Lower(op.key));
      if !HasKey(v.entries, Lower(op.key)) {
        forall other
          ensures HasKey(w.entries, other) <==> HasKey(v.entries, other)
          ensures HasKey(v.entries, other) ==> ValuesOf(w.entries, other) == ValuesOf(v.entries, other)
        {
          WrittenEntries(v, op, other);
        }
      }
    } else {
      WrittenEntries(v, op, op.key);
      assert op.key in w.cache.value && !HasKey(w.entries, op.key);
    }
  }

  /** The first read tells the truth if and only if as many headers are there as when the callback began. */
  lemma LoadCoherent(v: View)
    requires v.cache.None? && v.Fits() && EnvoyKeys(v.entries)
    ensures Load(v).Coherent() <==> |v.entries| == v.num
  {
    hide GroupOf, ValuesOf;
    GroupOfGroups(Padded(v.entries, v.num));
    RoundTripExact(v.entries, v.num, GroupOf(Padded(v.entries, v.num)));
  }

  // ---------- whole runs ----------

  /** What a look-up in an Envoy list finds: the first value of the lower-cased key, or nothing. */
  function FirstValue(m: seq<Header>, key: Bytes): Bytes {
    var values := ValuesOf(m, Lower(key));
    if values == [] then [] else values[0]
  }

  /** The first header whose key is the lower-cased one is found, whatever the case of the key asked for. */
  lemma {:induction false} FirstValueExactly(m: seq<Header>, key: Bytes, i: nat)
    requires i <= |m| && forall j :: 0 <= j < i ==> m[j].key != Lower(key)
    requires i < |m| ==> m[i].key == Lower(key)
    ensures FirstValue(m, key) == if i < |m| then m[i].value else []
    ensures i == |m| ==> ValuesOf(m, Lower(key)) == []
  {
    hide Lower;
    if m != [] {
      var init, last := m[..|m| - 1], m[|m| - 1];
      assert m == init + [last];
      ValuesOfSnoc(init, last, Lower(key));
      FirstValueExactly(init, key, if i < |init| then i else |init|);
      if i < |init| { NoKeyNoValues(init, Lower(key)); }
    }
  }

  predicate Proper(v: View, op: Op) {
    if op.Read? then v.cache.None? ==> v.Fits() && |v.entries| == v.num
    else IsLower(op.key) && op.key != []
  }

  /** Keys that are written are lower-case, and no read that loads finds the list grown or shrunk. */
  ghost predicate Timely(v: View, ops: seq<Op>)
    decreases |ops|
  {
    ops == [] ||
    (Proper(v, ops[0]) && Timely(Apply(v, ops[0]), ops[1..]))
  }

  ghost function Run(v: View, ops: seq<Op>): View
    requires Timely(v, ops)
    decreases |ops|
  {
    if ops == [] then v else Run(Apply(v, ops[0]), ops[1..])
  }

  lemma ApplyCoherent(v: View, op: Op)
    requires EnvoyKeys(v.entries) && v.Coherent() && Proper(v, op)
    ensures EnvoyKeys(Apply(v, op).entries) && Apply(v, op).Coherent()
  {
    hide Lower;
    if op.Read? {
      if v.cache.None? { LoadCoherent(v); }
    } else {
      WrittenKeys(v, op);
      if v.cache.Some? { LowerWrite(v, op); }
    }
  }

  /**
   After any such sequence of reads and writes a loaded cache is the Envoy list regrouped by key: the
   same keys, each with all its values in order; so a cached Get agrees with a look-up in that list.
   */
  lemma {:induction false} RunCoherent(v: View, ops: seq<Op>, key: Bytes)
    requires EnvoyKeys(v.entries) && v.Coherent() && Timely(v, ops)
    ensures var w := Run(v, ops);
            && EnvoyKeys(w.entries)
            && (w.cache.Some? ==>
                  && Groups(w.cache.value, w.entries)
                  && (IsLower(key) ==>
                        FirstValue(w.entries, key) ==
                        if key in w.cache.value && w.cache.value[key] != [] then w.cache.value[key][0] else []))
    decreases |ops|
  {
    hide Apply, EnvoyKeys, ValuesOf, HasKey, Lower;
    if ops == [] {
      NoKeyNoValues(v.entries, key);
    } else {
      ApplyCoherent(v, ops[0]);
      RunCoherent(Apply(v, ops[0]), ops[1..], key);
    }
  }
}
