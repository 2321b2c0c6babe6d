/**
 * The wire protocol of the multipeer session: the session role, the video
 * command union and the one-byte framing that tells command payloads apart
 * from chat text on the shared channel.
 *
 * The body of a command frame is the JSON encoding of a `CommandMessage`;
 * that encoding is not modelled, only the framing around it.
 */
module Protocol {

  newtype Byte = x: int | 0 <= x < 256
  type Bytes = seq<Byte>

  datatype Role = Master | Slave

  /**
   * The command union the receivers switch over. The enum declared in the
   * service file lists only its first five variants; the three video-info
   * variants are used by both players' receivers as well.
   */
  datatype Command =
    | Play(position: real)
    | Pause(position: real)
    | SeekingStarted
    | Seek(position: real)
    | Sync(position: real, isPlaying: bool)
    | LoadVideo(videoName: string)
    | RequestVideoInfo
    | VideoInfoResponse(videoName: string, position: real, isPlaying: bool)

  /** What travels in a command frame: the command and its (informational) creation time. */
  datatype CommandMessage = CommandMessage(command: Command, timestamp: real)

  /** The leading byte that marks a payload as a video command. */
  const Marker: Byte := 0xFF

  /** An outgoing command frame: the marker byte, then the encoded message. */
  function Frame(body: Bytes): (frame: Bytes)
    ensures |frame| == |body| + 1
    ensures frame[0] == Marker && frame[1..] == body
  {
    [Marker] + body
  }

  /** How a received payload is routed: to the command decoder (given the bytes after the marker) or to the text path. */
  datatype Route = CommandRoute(body: Bytes) | TextRoute

  /** Classification of received bytes: the command path needs the marker first and at least one byte after it. */
  function Classify(data: Bytes): (route: Route)
    ensures route.CommandRoute? ==> data == Frame(route.body) && route.body != []
    ensures route.TextRoute? ==> data == [] || data[0] != Marker || data == [Marker]
  {
    if |data| > 1 && data[0] == Marker then CommandRoute(data[1..]) else TextRoute
  }

  /** A frame around a non-empty body is routed to the decoder with exactly that body. */
  lemma FrameRoundTrip(body: Bytes)
    requires body != []
    ensures Classify(Frame(body)) == CommandRoute(body)
  {
  }

  /** A payload that does not start with the marker never reaches the command decoder. */
  lemma UnmarkedIsText(data: Bytes)
    requires data == [] || data[0] != Marker
    ensures Classify(data) == TextRoute
  {
  }

  /** The lone marker byte (the frame of an empty body) is not a command: it goes to the text path. */
  lemma LoneMarkerIsText()
    ensures Classify(Frame([])) == TextRoute
  {
  }
}
