/**
 Reading one header past the cache: which map the read goes to depends on the state of the stream, while
 everything else a header map does goes to the headers of the direction.
 */
module HeaderReads {
  import opened StreamTypes
  import opened StreamSpec
  import opened StreamRuns
  import opened StreamSafety
  import opened StreamDestroy
  import opened StreamWitnesses
  import opened HeaderMarshal
  import HeaderCache

  /** What GetRaw gives: a value, empty if the key is absent, or the panic that belongs to an API status. */
  datatype RawRead = Value(value: Bytes) | Refused(status: CAPIStatus)

  /** getHeader on the filter, where maps gives the entries of each map of the stream. */
  function GetRaw(f: FilterView, maps: HeaderMap -> seq<Header>, key: Bytes): RawRead {
    var status, m := ApiStatus(f, GetHeader), ApiMap(f, GetHeader);
    if status.CAPIOK? && m.Some? then Value(HeaderCache.FirstValue(maps(m.value), key)) else Refused(status)
  }

  /**
   While Go holds a direction: setting, adding, removing and loading act on the headers of that direction
   or are refused; GetRaw acts on them exactly while the headers are being processed, and on whatever
   trailers_ points at in every other state, which may be nothing, and may be trailers of the request
   while the response is processed.
   */
  lemma GetRawExactly(f: FilterView, maps: HeaderMap -> seq<Header>, key: Bytes)
    requires Inv(f) && !f.destroyed && f.t.running
    ensures var headers := HeadersOf(f.Cur());
            && (ApiMap(f, UseHeaders).None? || ApiMap(f, UseHeaders) == Some(headers))
            && (ApiMap(f, GetHeader) == Some(headers) <==> f.P(f.Cur()).state.ProcessingHeader?)
            && GetRaw(f, maps, key) ==
               if f.P(f.Cur()).state.ProcessingHeader? then Value(HeaderCache.FirstValue(maps(headers), key))
               else if f.t.trailers.None? then Refused(CAPIInvalidPhase)
               else Value(HeaderCache.FirstValue(maps(f.t.trailers.value), key))
  {
    HeldApi(f, Reply);
    if f.waiting {
      assert Parked(f);
    } else {
      assert Steady(f);
    }
  }

  /** GetRaw reads the headers of the direction, whatever the maps hold, if and only if they are being processed. */
  lemma GetRawReadsHeaders(f: FilterView)
    requires Inv(f) && !f.destroyed && f.t.running
    ensures f.P(f.Cur()).state.ProcessingHeader? <==>
            forall maps: HeaderMap -> seq<Header>, key: Bytes ::
              GetRaw(f, maps, key) == Value(HeaderCache.FirstValue(maps(HeadersOf(f.Cur())), key))
  {
    hide Inv, ApiMap, ApiStatus, GetRaw;
    if f.P(f.Cur()).state.ProcessingHeader? {
      forall maps: HeaderMap -> seq<Header>, key: Bytes
        ensures GetRaw(f, maps, key) == Value(HeaderCache.FirstValue(maps(HeadersOf(f.Cur())), key))
      {
        GetRawExactly(f, maps, key);
      }
    } else {
      var maps := (m: HeaderMap) => if m == HeadersOf(f.Cur()) then [Header([], [1])] else [];
      GetRawExactly(f, maps, []);
      TrailersElsewhere(f);
      OneHeader();
      assert GetRaw(f, maps, []) != Value(HeaderCache.FirstValue(maps(HeadersOf(f.Cur())), []));
    }
  }

  lemma TrailersElsewhere(f: FilterView)
    requires Inv(f) && !f.destroyed && f.t.running
    ensures f.t.trailers != Some(HeadersOf(f.Cur()))
  {
    if f.waiting {
      assert Parked(f);
    } else {
      assert Steady(f);
    }
  }

  lemma OneHeader()
    ensures HeaderCache.FirstValue([Header([], [1])], []) == [1] && HeaderCache.FirstValue([], []) == []
  {
    ValuesOfSnoc([], Header([], [1]), []);
    assert [] + [Header([], [1])] == [Header([], [1])];
  }

  /**
   The cache and GetRaw. After any proper sequence of reads and writes on the headers of the direction Go
   holds, GetRaw agrees with the loaded cache as long as the headers are being processed; afterwards the
   cache still answers, and GetRaw answers from trailers_ or is refused.
   */
  lemma RunRaw(v: HeaderCache.View, ops: seq<HeaderCache.Op>, key: Bytes,
               f: FilterView, maps: HeaderMap -> seq<Header>)
    requires HeaderCache.EnvoyKeys(v.entries) && v.Coherent() && HeaderCache.Timely(v, ops)
    requires Inv(f) && !f.destroyed && f.t.running
    requires maps(HeadersOf(f.Cur())) == HeaderCache.Run(v, ops).entries && HeaderCache.IsLower(key)
    ensures var w := HeaderCache.Run(v, ops);
            w.cache.Some? ==>
              var g := w.cache.value;
              var cached := if key in g && g[key] != [] then g[key][0] else [];
              GetRaw(f, maps, key) ==
              if f.P(f.Cur()).state.ProcessingHeader? then Value(cached)
              else if f.t.trailers.None? then Refused(CAPIInvalidPhase)
              else Value(HeaderCache.FirstValue(maps(f.t.trailers.value), key))
  {
    hide Inv, ApiMap, ApiStatus, GetRaw, HeaderCache.Timely, HeaderCache.Run, Groups;
    HeaderCache.RunCoherent(v, ops, key);
    GetRawExactly(f, maps, key);
  }

  // ---------- at a state that runs reach ----------

  /** Go stopped the headers, and holds the whole body. */
  function HoldsBody(body: Bytes): FilterView {
    var f := Asked(StopsHeaders);
    var c := GoCall(DecodeData, true, body, None, Running);
    f.(dec := f.dec.(state := ProcessingData, endStream := true, doEndStream := true,
                     s := f.dec.s.(recv := body, list := ListView([body], Wrap(|body|)),
                                   hist := [Piece(body, true, Held)])),
       t := f.t.(running := true, calls := f.t.calls + [c]))
  }

  lemma BodyHeld(body: Bytes)
    ensures Link(Asked(StopsHeaders), DecodeDataEvent(body, true), HoldsBody(body))
  {
    assert [] + body == body && [] + [body] == [body] && [] + [Piece(body, true, Held)] == [Piece(body, true, Held)];
  }

  /**
   A run, for any body, after which Go still reaches the request headers through its map, and GetRaw is
   refused as an invalid phase for every key.
   */
  lemma RawRefused(body: Bytes) returns (run: Run)
    ensures Valid(StopsHeaders, run) && run.events == [DecodeHeadersEvent(false), DecodeDataEvent(body, true)]
    ensures run.Last().t.running && ApiStatus(run.Last(), UseHeaders) == CAPIOK
    ensures ApiMap(run.Last(), UseHeaders) == Some(RequestHeaders)
    ensures forall maps: HeaderMap -> seq<Header>, key: Bytes ::
              GetRaw(run.Last(), maps, key) == Refused(CAPIInvalidPhase)
  {
    hide Link;
    run := Start(StopsHeaders);
    HeadersShown(StopsHeaders);
    run := Extend(StopsHeaders, run, DecodeHeadersEvent(false), Asked(StopsHeaders));
    BodyHeld(body);
    run := Extend(StopsHeaders, run, DecodeDataEvent(body, true), HoldsBody(body));
  }
}
