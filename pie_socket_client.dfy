/** The real-time transport: decoding of inbound text frames into messages,
    the frame written by `emitMessage`, and the connection flag kept beside
    the current socket.

    A frame is taken as already parsed: JSON text parsing, the network and
    the socket library are outside the model. Sockets are named by numbers
    handed out in order, and what the client does to them is logged as
    `SocketEvent`s. Clock readings are parameters. */
module PieSocketClient {
  import opened Domain

  /** An inbound text frame as the JSON parser sees it. `Malformed` is text
      that is not a JSON object. Otherwise `strings` maps every key present
      to what `optString` reads for it, and `timestamp` is what
      `optLong("timestamp")` reads when it finds a number there. */
  datatype Frame =
    | Malformed
    | JsonObject(strings: map<string, string>, timestamp: Option<int>)

  /** The JSON object `emitMessage` writes. */
  datatype OutFrame = OutFrame(content: string, id: string, chatId: string, sender: string, timestamp: nat)

  /** What the client does to a socket. */
  datatype SocketEvent =
    | Opening(socket: nat)
    | Closing(socket: nat, code: int, reason: Option<string>)
    | SendingText(socket: nat, frame: OutFrame)

  /** `optString(key, fallback)`. */
  function OptString(strings: map<string, string>, key: string, fallback: string): string
  {
    if key in strings then strings[key] else fallback
  }

  function DigitChar(d: nat): char
    requires d < 10
  {
    ['0', '1', '2', '3', '4', '5', '6', '7', '8', '9'][d]
  }

  /** `Long.toString` of a clock reading. */
  function DecimalString(n: nat): (r: string)
    ensures |r| > 0
    ensures forall i :: 0 <= i < |r| ==> '0' <= r[i] <= '9'
  {
    if n < 10 then [DigitChar(n)] else DecimalString(n / 10) + [DigitChar(n % 10)]
  }

  /** The value of a decimal digit character. */
  function DigitValue(c: char): nat
  {
    if '0' <= c <= '9' then c as int - '0' as int else 0
  }

  /** The number a string of decimal digits denotes, most significant first. */
  function ParseDecimal(s: string): nat
  {
    if s == [] then 0 else 10 * ParseDecimal(s[..|s| - 1]) + DigitValue(s[|s| - 1])
  }

  /** `DecimalString(n)` is the decimal notation of `n`: it reads back as `n`
      and has no leading zero. */
  lemma {:induction false} DecimalRoundTrip(n: nat)
    ensures ParseDecimal(DecimalString(n)) == n
    ensures n >= 10 ==> DecimalString(n)[0] != '0'
  {
    var s := DecimalString(n);
    if n < 10 {
      assert s[..|s| - 1] == [];
    } else {
      DecimalRoundTrip(n / 10);
      assert s[..|s| - 1] == DecimalString(n / 10);
      assert s[|s| - 1] == DigitChar(n % 10);
      assert s[0] == DecimalString(n / 10)[0];
    }
  }

  /** The case class of `c` as the JDK's `equalsIgnoreCase` compares it
      against an ASCII letter: ASCII letters fold to upper case, and the four
      non-ASCII characters that the JDK's per-character upper- or
      lower-casing maps onto an ASCII letter fold onto that letter. */
  function FoldCase(c: char): char
  {
    if 'a' <= c <= 'z' then (c as int - 32) as char
    else if c == '\U{131}' || c == '\U{130}' then 'I'
    else if c == '\U{17F}' then 'S'
    else if c == '\U{212A}' then 'K'
    else c
  }

  /** `a.equals(b, ignoreCase = true)`, exact when `b` is made of ASCII letters. */
  predicate EqualsIgnoreCase(a: string, b: string)
  {
    |a| == |b| && forall i :: 0 <= i < |a| ==> FoldCase(a[i]) == FoldCase(b[i])
  }

  /** The `onMessage(text)` rule: a frame becomes a message only when it is
      a JSON object with a `content` or a `message` key. `idClock` and
      `tsClock` are the two clock readings taken for the defaults. */
  function Decode(frame: Frame, idClock: nat, tsClock: int): Option<Message>
  {
    match frame
    case Malformed => None
    case JsonObject(strings, timestamp) =>
      if "content" in strings || "message" in strings then
        Some(Message(
          OptString(strings, "id", DecimalString(idClock)),
          OptString(strings, "chatId", "1"),
          OptString(strings, "content", OptString(strings, "message", "")),
          match timestamp case Some(t) => t case None => tsClock,
          EqualsIgnoreCase(OptString(strings, "sender", "Bot"), "User"),
          Sent))
      else None
  }

  /** The frame `emitMessage(content, id, chatId)` writes at clock `now`. */
  function OutgoingFrame(content: string, id: string, chatId: string, now: nat): OutFrame
  {
    OutFrame(content, id, chatId, "User", now)
  }

  /** How a written frame reads once serialised and parsed again, as when
      the server echoes it back to its sender. */
  function AsReceived(f: OutFrame): Frame
  {
    JsonObject(map["content" := f.content, "id" := f.id, "chatId" := f.chatId,
                   "sender" := f.sender, "timestamp" := DecimalString(f.timestamp)],
               Some(f.timestamp))
  }

  // ---------------------------------------------------------------------

  /** A sender counts as the user exactly when it spells "User" in any mix
      of cases (with the long s U+017F standing for an `s`). */
  lemma SenderIsUser(s: string)
    ensures EqualsIgnoreCase(s, "User") <==>
      |s| == 4 && (s[0] == 'U' || s[0] == 'u')
      && (s[1] == 'S' || s[1] == 's' || s[1] == '\U{17F}')
      && (s[2] == 'E' || s[2] == 'e') && (s[3] == 'R' || s[3] == 'r')
  {
    if |s| == 4 {
      assert FoldCase('U') == 'U' && FoldCase('s') == 'S' && FoldCase('e') == 'E' && FoldCase('r') == 'R';
      if EqualsIgnoreCase(s, "User") {
        assert FoldCase(s[0]) == 'U' && FoldCase(s[1]) == 'S';
        assert FoldCase(s[2]) == 'E' && FoldCase(s[3]) == 'R';
      }
    }
  }

  /** Which frames are accepted, and the defaults of the decoded message. */
  lemma DecodeRule(frame: Frame, idClock: nat, tsClock: int)
    ensures frame.Malformed? ==> Decode(frame, idClock, tsClock) == None
    ensures frame.JsonObject? ==>
      (Decode(frame, idClock, tsClock).Some? <==>
         "content" in frame.strings || "message" in frame.strings)
    ensures Decode(frame, idClock, tsClock).Some? ==>
      var m, strings := Decode(frame, idClock, tsClock).value, frame.strings;
      m.status == Sent
      && m.id == (if "id" in strings then strings["id"] else DecimalString(idClock))
      && m.chatId == (if "chatId" in strings then strings["chatId"] else "1")
      && m.content == (if "content" in strings then strings["content"]
                       else strings["message"])
      && m.timestamp == (if frame.timestamp.Some? then frame.timestamp.value else tsClock)
      && (m.isSentByUser <==> "sender" in strings && EqualsIgnoreCase(strings["sender"], "User"))
  {
    if Decode(frame, idClock, tsClock).Some? {
      SenderIsUser("Bot");
    }
  }

  /** A frame the client writes, read back, decodes to the user's own SENT
      message with the same id, conversation, content and timestamp. */
  lemma EchoDecodes(content: string, id: string, chatId: string, now: nat, idClock: nat, tsClock: int)
    ensures Decode(AsReceived(OutgoingFrame(content, id, chatId, now)), idClock, tsClock)
         == Some(Message(id, chatId, content, now, true, Sent))
  {
    SenderIsUser("User");
  }

  // ---------------------------------------------------------------------

  class PieSocketClient {
    /** The current socket, if any. */
    var webSocket: Option<nat>
    /** The connection flag published as `connectionState`. */
    var connectionState: bool
    /** The number the next socket gets. */
    var nextSocket: nat
    /** What the client has done to sockets, oldest first. */
    var events: seq<SocketEvent>
    /** Messages decoded from inbound frames and handed to the collector. */
    var delivered: seq<Message>

    constructor ()
      ensures webSocket == None && !connectionState
      ensures events == [] && delivered == []
    {
      webSocket := None;
      connectionState := false;
      nextSocket := 0;
      events := [];
      delivered := [];
    }

    /** Closes any existing socket (code 1000, "Reconnecting") and then opens
        a new one. When opening throws (`fails`) the flag is set to false and
        no socket is kept; otherwise the flag waits for `OnOpen`. */
    method Connect(fails: bool)
      modifies this
      ensures events == old(events)
        + (if old(webSocket).Some? then [Closing(old(webSocket).value, 1000, Some("Reconnecting"))] else [])
        + (if fails then [] else [Opening(old(nextSocket))])
      ensures webSocket == if fails then None else Some(old(nextSocket))
      ensures connectionState == if fails then false else old(connectionState)
      ensures nextSocket > old(nextSocket) && delivered == old(delivered)
    {
      if webSocket.Some? {
        events := events + [Closing(webSocket.value, 1000, Some("Reconnecting"))];
        webSocket := None;
      }
      if fails {
        connectionState := false;
      } else {
        events := events + [Opening(nextSocket)];
        webSocket := Some(nextSocket);
      }
      nextSocket := nextSocket + 1;
    }

    /** Closes the current socket, if any, with code 1000; no socket, flag false. */
    method Disconnect()
      modifies this
      ensures events == old(events)
        + (if old(webSocket).Some? then [Closing(old(webSocket).value, 1000, Some("Client disconnect"))] else [])
      ensures webSocket == None && !connectionState
      ensures nextSocket == old(nextSocket) && delivered == old(delivered)
      ensures old(webSocket).None? ==> events == old(events)
    {
      if webSocket.Some? {
        events := events + [Closing(webSocket.value, 1000, Some("Client disconnect"))];
      }
      webSocket := None;
      connectionState := false;
    }

    /** Writes one frame to the current socket when the flag is set and a
        socket exists; otherwise writes nothing. */
    method EmitMessage(content: string, id: string, chatId: string, now: nat)
      modifies this`events
      ensures !connectionState || webSocket.None? ==> events == old(events)
      ensures connectionState && webSocket.Some? ==>
        events == old(events) + [SendingText(webSocket.value, OutgoingFrame(content, id, chatId, now))]
    {
      if !connectionState || webSocket.None? {
        return;
      }
      var frame := OutFrame(content, id, chatId, "User", now);
      events := events + [SendingText(webSocket.value, frame)];
    }

    /** Listener: the socket opened. */
    method OnOpen()
      modifies this`connectionState
      ensures connectionState
    {
      connectionState := true;
    }

    /** Listener: a text frame arrived; a decoded message goes to the collector. */
    method OnMessage(frame: Frame, idClock: nat, tsClock: int)
      modifies this`delivered
      ensures delivered == old(delivered)
        + (match Decode(frame, idClock, tsClock) case Some(m) => [m] case None => [])
    {
      var decoded := Decode(frame, idClock, tsClock);
      if decoded.Some? {
        delivered := delivered + [decoded.value];
      }
    }

    /** Listener: the peer is closing `socket`; it is closed in turn. */
    method OnClosing(socket: nat, code: int, reason: string)
      modifies this`events, this`connectionState
      ensures events == old(events) + [Closing(socket, 1000, None)]
      ensures !connectionState
    {
      events := events + [Closing(socket, 1000, None)];
      connectionState := false;
    }

    /** Listener: a socket closed. */
    method OnClosed()
      modifies this`connectionState
      ensures !connectionState
    {
      connectionState := false;
    }

    /** Listener: a socket failed. */
    method OnFailure()
      modifies this`connectionState
      ensures !connectionState
    {
      connectionState := false;
    }
  }
}
