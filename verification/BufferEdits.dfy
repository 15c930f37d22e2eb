/**
 What Go may do to the buffers it was shown: look one up by its handle, copy it, change it. The look-up
 throws away every buffer in front of the one it finds, and the byte count of the list ignores edits;
 the rest of the model therefore takes filters that leave buffers alone.
 */
module BufferEdits {
  import opened StreamTypes
  import opened StreamSpec

  /** A queued buffer and the address Go knows it by. */
  datatype Chunk = Chunk(handle: nat, data: Bytes)

  datatype Edit = SetTo(value: Bytes) | AppendWith(value: Bytes) | PrependWith(value: Bytes)

  function Edited(data: Bytes, edit: Edit): Bytes {
    match edit
    case SetTo(value) => value
    case AppendWith(value) => data + value
    case PrependWith(value) => value + data
  }

  /** An append leaves the old bytes as a prefix, a prepend as a suffix, and a set leaves none of them. */
  lemma EditsExactly(data: Bytes, edit: Edit)
    ensures var edited := Edited(data, edit);
            match edit
            case SetTo(value) => edited == value
            case AppendWith(value) => data <= edited && edited[|data|..] == value
            case PrependWith(value) => value <= edited && edited[|value|..] == data
  {
  }

  function Contents(queue: seq<Chunk>): seq<Bytes> {
    if queue == [] then [] else Contents(queue[..|queue| - 1]) + [queue[|queue| - 1].data]
  }

  /** The queue from the first chunk with the handle on; nothing if there is none. */
  function From(queue: seq<Chunk>, handle: nat): seq<Chunk> {
    if queue == [] || queue[0].handle == handle then queue else From(queue[1..], handle)
  }

  predicate Has(queue: seq<Chunk>, handle: nat) {
    exists i :: 0 <= i < |queue| && queue[i].handle == handle
  }

  class BufferList {
    var queue: seq<Chunk>
    var bytes: nat

    constructor (queue: seq<Chunk>)
      ensures this.queue == queue && bytes == Wrap(|Flat(Contents(queue))|)
    {
      this.queue := queue;
      bytes := Wrap(|Flat(Contents(queue))|);
    }

    method CheckExisting(handle: nat) returns (found: bool)
      modifies this`queue
      ensures queue == From(old(queue), handle) && (found <==> Has(old(queue), handle))
    {
      while queue != []
        invariant From(queue, handle) == From(old(queue), handle)
        invariant Has(queue, handle) <==> Has(old(queue), handle)
        decreases |queue|
      {
        if queue[0].handle == handle {
          return true;
        }
        RestHas(queue, handle);
        queue := queue[1..];
      }
      return false;
    }

    /** copyBuffer and setBufferHelper, once the look-up has succeeded: the handle's buffer is at the front. */
    method EditBuffer(handle: nat, edit: Edit) returns (found: bool)
      modifies this`queue
      ensures found <==> Has(old(queue), handle)
      ensures var kept := From(old(queue), handle);
              if found then kept != [] && queue == [Chunk(handle, Edited(kept[0].data, edit))] + kept[1..]
              else queue == []
      ensures found ==>
                var data := From(old(queue), handle)[0].data;
                match edit
                case SetTo(value) => queue[0].data == value
                case AppendWith(value) => queue[0].data == data + value
                case PrependWith(value) => queue[0].data == value + data
    {
      FromFront(queue, handle);
      found := CheckExisting(handle);
      if found {
        queue := [Chunk(handle, Edited(queue[0].data, edit))] + queue[1..];
      }
    }
  }

  lemma RestHas(queue: seq<Chunk>, handle: nat)
    requires queue != [] && queue[0].handle != handle
    ensures Has(queue[1..], handle) <==> Has(queue, handle)
  {
    if Has(queue, handle) {
      var i :| 0 <= i < |queue| && queue[i].handle == handle;
      assert queue[1..][i - 1] == queue[i];
    }
  }

  /** What the look-up leaves starts with the buffer it found, or is empty. */
  lemma {:induction false} FromFront(queue: seq<Chunk>, handle: nat)
    ensures var kept := From(queue, handle);
            if Has(queue, handle) then kept != [] && kept[0].handle == handle else kept == []
    ensures exists i :: 0 <= i <= |queue| && From(queue, handle) == queue[i..]
  {
    if queue == [] {
      assert queue[0..] == queue;
    } else if queue[0].handle == handle {
      assert queue[0..] == queue;
    } else {
      RestHas(queue, handle);
      FromFront(queue[1..], handle);
      var i :| 0 <= i <= |queue[1..]| && From(queue[1..], handle) == queue[1..][i..];
      assert queue[1..][i..] == queue[i + 1..];
    }
  }

  /**
   Looking a buffer up leaves the list as it was if and only if the buffer is the first one (or there is
   none at all): in every other case held bytes are lost, and bytes_ still counts them.
   */
  lemma LookupKeepsExactly(queue: seq<Chunk>, handle: nat)
    ensures From(queue, handle) == queue <==> queue == [] || queue[0].handle == handle
  {
    if queue != [] && queue[0].handle != handle {
      FromFront(queue[1..], handle);
      assert |From(queue, handle)| <= |queue| - 1;
    }
  }

  lemma {:induction false} ContentsConcat(a: seq<Chunk>, b: seq<Chunk>)
    ensures Contents(a + b) == Contents(a) + Contents(b)
  {
    if b == [] {
      assert a + b == a;
    } else {
      ContentsConcat(a, b[..|b| - 1]);
      assert (a + b)[..|a + b| - 1] == a + b[..|b| - 1];
    }
  }

  /** After an edit of the first buffer the byte count is right if and only if the size is the same modulo 2^32. */
  lemma EditKeepsCountExactly(first: Chunk, rest: seq<Chunk>, edit: Edit)
    ensures var before := Contents([first] + rest);
            var after := Contents([first.(data := Edited(first.data, edit))] + rest);
            Wrap(|Flat(after)|) == Wrap(|Flat(before)|) <==> Wrap(|Edited(first.data, edit)| - |first.data|) == 0
  {
    var edited := first.(data := Edited(first.data, edit));
    FrontSize(first, rest);
    FrontSize(edited, rest);
    var a, b, c := |first.data|, |edited.data|, |Flat(Contents(rest))|;
    WrapDifference(b + c, a + c);
  }

  lemma WrapDifference(a: int, b: int)
    ensures Wrap(a) == Wrap(b) <==> Wrap(a - b) == 0
  {
  }

  lemma {:induction false} FlatFront(first: Bytes, rest: seq<Bytes>)
    ensures Flat([first] + rest) == first + Flat(rest)
  {
    if rest == [] {
      FlatSnoc([], first);
      assert [first] + rest == [first] == [] + [first];
    } else {
      FlatFront(first, rest[..|rest| - 1]);
      assert ([first] + rest)[..|rest|] == [first] + rest[..|rest| - 1];
    }
  }

  lemma FrontSize(first: Chunk, rest: seq<Chunk>)
    ensures |Flat(Contents([first] + rest))| == |first.data| + |Flat(Contents(rest))|
  {
    ContentsConcat([first], rest);
    assert Contents([first]) == [first.data] by { assert [first][..0] == []; }
    FlatFront(first.data, Contents(rest));
  }
}
