/**
 * `MultipeerService`: the session role, the roster of connected peers, the
 * chat messages, the bounded command log, and the sending and receiving of
 * framed video commands.
 *
 * The transport is abstract: what the session is asked to send is appended
 * to `transmissions` as (destination peers, payload); the session's own
 * connected-peer list, the outcome of a send, and the JSON and UTF-8 codecs
 * are parameters of the operations that use them. Commands handed to the
 * video delegate are appended to `delivered`.
 */
module Service {
  import opened Wrappers
  import opened SeqUtil
  import opened Protocol

  /** An `MCPeerID`: its identity and the name it shows. */
  datatype PeerId = PeerId(uid: nat, displayName: string)

  datatype SessionState = Connected | NotConnected | Connecting

  /** `P2PMessage` without its id and timestamp. */
  datatype ChatMessage = ChatMessage(text: string, senderName: string)

  /** One `session.send(_, toPeers:)`. */
  datatype Transmission = Transmission(toPeers: seq<PeerId>, payload: Bytes)

  /** The events the service records in `commandLog`; their text and timestamps are not modelled. */
  datatype LogEntry =
    | CannotSend(role: Role, peerCount: nat)
    | EncodeFailed
    | SentCommand(command: Command)
    | SendFailed
    | ReceivedCommand(command: Command)
    | DelegateMissing
    | DecodeFailed
    | Note(text: string)

  /** `commandLog` keeps at most this many entries. */
  const MaxCommandLog: nat := 20

  /** `addCommandLog` on a value: append, then drop the oldest entry once there are more than 20. */
  function AppendBounded(log: seq<LogEntry>, entry: LogEntry): (r: seq<LogEntry>)
    ensures |log| <= MaxCommandLog ==> |r| <= MaxCommandLog
    ensures r != [] && r[|r| - 1] == entry
    ensures |log| < MaxCommandLog ==> r == log + [entry]
    ensures |log| == MaxCommandLog ==> r == log[1..] + [entry]
    ensures exists k :: 0 <= k <= |log| && r == log[k..] + [entry]
  {
    var appended := log + [entry];
    if |appended| > MaxCommandLog then
      assert appended[1..] == log[1..] + [entry];
      appended[1..]
    else
      assert log[0..] == log;
      appended
  }

  /** Once the log is full, every entry stays for exactly twenty more entries: the log is the last twenty logged. */
  lemma {:induction false} AppendBoundedKeepsLatest(log: seq<LogEntry>, entries: seq<LogEntry>)
    requires |log| == MaxCommandLog
    ensures AppendAll(log, entries) == (log + entries)[|entries|..]
  {
    if entries != [] {
      var front := entries[..|entries| - 1];
      var last := entries[|entries| - 1];
      AppendBoundedKeepsLatest(log, front);
      AppendAllFull(log, front);
      assert entries == front + [last];
      assert log + entries == (log + front) + [last];
      calc {
        AppendAll(log, entries);
        AppendBounded(AppendAll(log, front), last);
        AppendBounded((log + front)[|front|..], last);
        (log + front)[|front|..][1..] + [last];
        (log + entries)[|entries|..];
      }
    }
  }

  /** Logs each entry in turn. */
  function AppendAll(log: seq<LogEntry>, entries: seq<LogEntry>): seq<LogEntry>
  {
    if entries == [] then log else AppendBounded(AppendAll(log, entries[..|entries| - 1]), entries[|entries| - 1])
  }

  lemma {:induction false} AppendAllFull(log: seq<LogEntry>, entries: seq<LogEntry>)
    requires |log| == MaxCommandLog
    ensures |AppendAll(log, entries)| == MaxCommandLog
  {
    if entries != [] {
      AppendAllFull(log, entries[..|entries| - 1]);
    }
  }

  class MultipeerService {
    var connectedPeers: seq<PeerId>
    var messages: seq<ChatMessage>
    var isInRoom: bool
    var role: Role
    /** Peers a browsing slave has found and not lost. */
    var browsingPeers: seq<PeerId>
    var commandLog: seq<LogEntry>

    var advertising: bool
    /** Whether a browser exists (`startBrowsing` has run) and whether it is browsing. */
    var hasBrowser: bool
    var browsing: bool
    /** Peers a slave has invited into its session. */
    var invitations: seq<PeerId>

    /** Whether the weakly held video delegate is set. */
    var delegateAttached: bool
    var transmissions: seq<Transmission>
    var delivered: seq<Command>

    /** The roster and the browse list hold each peer once, and the log at most 20 entries. */
    predicate Valid()
      reads this
    {
      NoDuplicates(connectedPeers) && NoDuplicates(browsingPeers) && |commandLog| <= MaxCommandLog
    }

    constructor ()
      ensures Valid()
      ensures connectedPeers == [] && messages == [] && !isInRoom && role == Slave
      ensures browsingPeers == [] && commandLog == []
      ensures !advertising && !hasBrowser && !browsing && invitations == []
      ensures !delegateAttached && transmissions == [] && delivered == []
    {
      connectedPeers := [];
      messages := [];
      isInRoom := false;
      role := Slave;
      browsingPeers := [];
      commandLog := [];
      advertising := false;
      hasBrowser := false;
      browsing := false;
      invitations := [];
      delegateAttached := false;
      transmissions := [];
      delivered := [];
    }

    /** `addCommandLog`: the new entry is last; past 20 entries the oldest is dropped. */
    method AddCommandLog(entry: LogEntry)
      requires Valid()
      modifies this`commandLog
      ensures Valid()
      ensures commandLog == AppendBounded(old(commandLog), entry)
    {
      commandLog := commandLog + [entry];
      if |commandLog| > MaxCommandLog {
        commandLog := commandLog[1..];
      }
    }

    /** The room sets or clears `videoDelegate`. */
    method SetDelegate(attached: bool)
      modifies this`delegateAttached
      ensures delegateAttached == attached
    {
      delegateAttached := attached;
    }

    /** `createRoom`: a fresh session, the master role, in the room, advertising. */
    method CreateRoom()
      requires Valid()
      modifies this`role, this`isInRoom, this`advertising
      ensures Valid()
      ensures role == Master && isInRoom && advertising
    {
      role := Master;
      isInRoom := true;
      advertising := true;
    }

    /** `startBrowsing`: the slave role, an empty browse list, a browser that browses. */
    method StartBrowsing()
      requires Valid()
      modifies this`role, this`browsingPeers, this`hasBrowser, this`browsing
      ensures Valid()
      ensures role == Slave && browsingPeers == [] && hasBrowser && browsing
    {
      role := Slave;
      browsingPeers := [];
      hasBrowser := true;
      browsing := true;
    }

    /** `joinPeer`: in the room, and the browser (if any) invites the peer. */
    method JoinPeer(peer: PeerId)
      modifies this`isInRoom, this`invitations
      ensures isInRoom
      ensures invitations == old(invitations) + (if hasBrowser then [peer] else [])
    {
      isInRoom := true;
      if hasBrowser {
        invitations := invitations + [peer];
      }
    }

    /** `leaveRoom`: stop advertising and browsing; roster, messages and browse list empty; out of the room. */
    method LeaveRoom()
      requires Valid()
      modifies this`advertising, this`browsing, this`connectedPeers, this`messages, this`browsingPeers, this`isInRoom
      ensures Valid()
      ensures !advertising && !browsing
      ensures connectedPeers == [] && messages == [] && browsingPeers == [] && !isInRoom
    {
      advertising := false;
      browsing := false;
      connectedPeers := [];
      messages := [];
      browsingPeers := [];
      isInRoom := false;
    }

    /**
     * `sendMessage`: only a master with peers sends the text's bytes to the
     * session's peers; a successful send adds the message as sent by "You".
     */
    method SendMessage(text: string, textData: Bytes, sessionPeers: seq<PeerId>, sendOk: bool)
      modifies this`transmissions, this`messages
      ensures role == Master && connectedPeers != [] && sendOk ==>
        transmissions == old(transmissions) + [Transmission(sessionPeers, textData)] &&
        messages == old(messages) + [ChatMessage(text, "You")]
      ensures !(role == Master && connectedPeers != [] && sendOk) ==>
        transmissions == old(transmissions) && messages == old(messages)
    {
      if role != Master || connectedPeers == [] {
        return;
      }
      if sendOk {
        transmissions := transmissions + [Transmission(sessionPeers, textData)];
        messages := messages + [ChatMessage(text, "You")];
      }
    }

    /**
     * `sendVideoCommand`: only a master with peers sends. The command and
     * its timestamp are encoded, the frame is the marker byte followed by
     * the encoding, and it goes to the session's peers. Every outcome is logged.
     */
    method SendVideoCommand(command: Command, timestamp: real, encode: CommandMessage -> Option<Bytes>,
                            sessionPeers: seq<PeerId>, sendOk: bool)
      requires Valid()
      modifies this`transmissions, this`commandLog
      ensures Valid()
      ensures !(role == Master && connectedPeers != []) ==>
        transmissions == old(transmissions) && commandLog == AppendBounded(old(commandLog), CannotSend(role, |connectedPeers|))
      ensures role == Master && connectedPeers != [] && encode(CommandMessage(command, timestamp)).None? ==>
        transmissions == old(transmissions) && commandLog == AppendBounded(old(commandLog), EncodeFailed)
      ensures role == Master && connectedPeers != [] && encode(CommandMessage(command, timestamp)).Some? ==>
        var frame := Frame(encode(CommandMessage(command, timestamp)).value);
        (sendOk ==> transmissions == old(transmissions) + [Transmission(sessionPeers, frame)] &&
                    commandLog == AppendBounded(old(commandLog), SentCommand(command))) &&
        (!sendOk ==> transmissions == old(transmissions) && commandLog == AppendBounded(old(commandLog), SendFailed))
    {
      if role != Master || connectedPeers == [] {
        AddCommandLog(CannotSend(role, |connectedPeers|));
        return;
      }
      var encoded := encode(CommandMessage(command, timestamp));
      if encoded.None? {
        AddCommandLog(EncodeFailed);
        return;
      }
      var frame: Bytes := [Marker];
      frame := frame + encoded.value;
      if sendOk {
        transmissions := transmissions + [Transmission(sessionPeers, frame)];
        AddCommandLog(SentCommand(command));
      } else {
        AddCommandLog(SendFailed);
      }
    }

    /**
     * The session reports a peer's state. A connect adds the peer unless
     * already present, and puts a slave in the room; a disconnect removes
     * every entry of the peer, and a slave left without peers leaves the room.
     */
    method SessionDidChange(peer: PeerId, state: SessionState)
      requires Valid()
      modifies this`connectedPeers, this`isInRoom
      ensures Valid()
      ensures state == Connected ==>
        connectedPeers == AppendIfAbsent(old(connectedPeers), peer) &&
        isInRoom == (old(isInRoom) || role == Slave)
      ensures state == NotConnected ==>
        connectedPeers == RemoveAll(old(connectedPeers), peer) &&
        isInRoom == (old(isInRoom) && !(role == Slave && connectedPeers == []))
      ensures state == Connecting ==> connectedPeers == old(connectedPeers) && isInRoom == old(isInRoom)
    {
      match state
      case Connected =>
        if peer !in connectedPeers {
          connectedPeers := connectedPeers + [peer];
        }
        if role == Slave {
          isInRoom := true;
        }
      case NotConnected =>
        RemoveAllKeepsNoDuplicates(connectedPeers, peer);
        connectedPeers := RemoveAll(connectedPeers, peer);
        if role == Slave && connectedPeers == [] {
          isInRoom := false;
        }
      case Connecting =>
    }

    /**
     * Bytes arrive from a peer. A command payload (the marker and at least
     * one more byte) is decoded from the bytes after the marker: a decoded
     * command is logged and handed to the delegate if one is set; a decode
     * failure is only logged. Any other payload is a chat message when it
     * is valid UTF-8, and is dropped otherwise.
     */
    method DidReceive(data: Bytes, from: PeerId, decode: Bytes -> Option<CommandMessage>, decodeText: Bytes -> Option<string>)
      requires Valid()
      modifies this`commandLog, this`delivered, this`messages
      ensures Valid()
      ensures Classify(data).CommandRoute? && decode(data[1..]).Some? ==>
        var command := decode(data[1..]).value.command;
        messages == old(messages) &&
        (delegateAttached ==> delivered == old(delivered) + [command] &&
                              commandLog == AppendBounded(old(commandLog), ReceivedCommand(command))) &&
        (!delegateAttached ==> delivered == old(delivered) &&
                               commandLog == AppendBounded(AppendBounded(old(commandLog), ReceivedCommand(command)), DelegateMissing))
      ensures Classify(data).CommandRoute? && decode(data[1..]).None? ==>
        messages == old(messages) && delivered == old(delivered) && commandLog == AppendBounded(old(commandLog), DecodeFailed)
      ensures Classify(data).TextRoute? ==>
        delivered == old(delivered) && commandLog == old(commandLog) &&
        messages == old(messages) + (if decodeText(data).Some? then [ChatMessage(decodeText(data).value, from.displayName)] else [])
    {
      match Classify(data)
      case CommandRoute(body) =>
        var message := decode(body);
        if message.Some? {
          AddCommandLog(ReceivedCommand(message.value.command));
          if delegateAttached {
            delivered := delivered + [message.value.command];
          } else {
            AddCommandLog(DelegateMissing);
          }
        } else {
          AddCommandLog(DecodeFailed);
        }
      case TextRoute =>
        var text := decodeText(data);
        if text.Some? {
          messages := messages + [ChatMessage(text.value, from.displayName)];
        }
    }

    /** The browser found a peer: listed once. */
    method FoundPeer(peer: PeerId)
      requires Valid()
      modifies this`browsingPeers
      ensures Valid()
      ensures browsingPeers == AppendIfAbsent(old(browsingPeers), peer)
    {
      if peer !in browsingPeers {
        browsingPeers := browsingPeers + [peer];
      }
    }

    /** The browser lost a peer: every entry of it goes. */
    method LostPeer(peer: PeerId)
      requires Valid()
      modifies this`browsingPeers
      ensures Valid()
      ensures browsingPeers == RemoveAll(old(browsingPeers), peer)
    {
      RemoveAllKeepsNoDuplicates(browsingPeers, peer);
      browsingPeers := RemoveAll(browsingPeers, peer);
    }
  }

  /**
   * What one `sendVideoCommand` frame does at the receiving end: with a
   * codec whose decoder inverts its encoder on this message (and an
   * encoding that is not empty), the receiver decodes exactly the sent message.
   */
  lemma SentFrameIsReceived(m: CommandMessage, encode: CommandMessage -> Option<Bytes>, decode: Bytes -> Option<CommandMessage>)
    requires encode(m).Some? && encode(m).value != []
    requires decode(encode(m).value) == Some(m)
    ensures Classify(Frame(encode(m).value)).CommandRoute?
    ensures decode(Frame(encode(m).value)[1..]) == Some(m)
  {
    FrameRoundTrip(encode(m).value);
  }
}
