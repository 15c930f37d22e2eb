/**
 The vocabulary shared by the Envoy side of the Go extension and its model: states, phases and
 statuses as the source enumerates them, the frames the next filter receives, the calls made into
 Go and the ledger pieces used to account for every received byte.
 */
module StreamTypes {

  newtype Byte = b: int | 0 <= b < 256

  type Bytes = seq<Byte>

  datatype Option<+T> = None | Some(value: T)

  /** enum class FilterState. */
  datatype FilterState =
    | WaitingHeader
    | ProcessingHeader
    | WaitingData
    | WaitingAllData
    | ProcessingData
    | WaitingTrailer
    | ProcessingTrailer
    | Done

  /** enum class Phase; the last member is the phase of a finished encode direction. */
  datatype Phase =
    | DecodeHeader
    | DecodeData
    | DecodeTrailer
    | EncodeHeader
    | EncodeData
    | EncodeTrailer
    | AllDone

  /** enum class GolangStatus. */
  datatype GolangStatus =
    | Running
    | LocalReply
    | Continue
    | StopAndBuffer
    | StopAndBufferWatermark
    | StopNoBuffer

  /** Which of the two processor states. */
  datatype Direction = Decode | Encode

  /** The header maps a stream owns; a pointer into Envoy is the name of the map it points at. */
  datatype HeaderMap = RequestHeaders | ResponseHeaders | RequestTrailers | ResponseTrailers

  /** What the next filter of a direction receives. */
  datatype Frame =
    | Headers(end: bool)
    | Data(bytes: Bytes, end: bool)
    | Trailers

  /** One call of moeOnHttpHeader or moeOnHttpData, with the status Go returned. */
  datatype GoCall = GoCall(phase: Phase, end: bool, bytes: Bytes, headers: Option<HeaderMap>, answer: GolangStatus)

  /** What a posted event carries back from Go. */
  datatype Completion = Resume(status: GolangStatus) | Reply

  /** Why received bytes were thrown away. */
  datatype DropReason = NoBufferAsked | LocalReplyStarted

  /** Where a run of received bytes ended up. Held bytes wait in doDataList. */
  datatype Fate = Held | Forwarded | Dropped(reason: DropReason)

  /** A run of received bytes; shown tells whether Go was handed it. */
  datatype Piece = Piece(bytes: Bytes, shown: bool, fate: Fate)

  /** Results of the filter API that Go calls. */
  datatype CAPIStatus = CAPIOK | CAPIFilterIsGone | CAPIFilterIsDestroy | CAPINotInGo | CAPIInvalidPhase | CAPIYield

  datatype DestroyReason = Normal | Terminate

  /** The status Go returns from its k-th callback, for every k. */
  type Oracle = nat -> GolangStatus

  /** bytes_ of a BufferList is a uint32_t. */
  const UINT32_SIZE: nat := 0x1_0000_0000
}
