/**
  The `connection.update` handler and the sockets it leaves behind.

  `React` is the handler's decision for one update. A `Session` records which socket is
  current (sockets are numbered in the order they are created, the first by start-up)
  and which sockets carry the `messages.upsert` handler that moderates messages.
  `StepAsWritten` is the code as it stands: a reconnect builds a new socket through the
  authentication routine alone, so the new socket never gets the message handler, which
  start-up attached to the first socket only. `Step` is the corrected behaviour, in which
  every socket built by a reconnect is wired to the message handler as well.
*/
module Connection {
  import opened Wrappers

  /** `DisconnectReason.loggedOut` of the messaging library. */
  const LoggedOutCode: int := 401

  /** The `connection` field of an update: `close`, `open`, `qr`, `connecting`, or absent. */
  datatype ConnectionField = Close | Open | Qr | Connecting | Absent

  /** An update: the connection field, `lastDisconnect.error.output.statusCode`, and `qr`. */
  datatype ConnectionUpdate = ConnectionUpdate(connection: ConnectionField, statusCode: Option<int>, qr: Option<string>)

  datatype Reaction =
    | Reconnect           // build a new socket
    | StayDown            // logged out: do nothing more
    | AnnounceOnline      // log that the bot is online
    | ShowQr(code: Option<string>)  // log the pairing code
    | Ignore

  /** Whether a close reason is the logged-out reason; a missing code is not. */
  predicate IsLogout(code: Option<int>) {
    code == Some(LoggedOutCode)
  }

  /** The decision of the `connection.update` handler. */
  function React(u: ConnectionUpdate): (r: Reaction)
    ensures r == Reconnect <==> u.connection == Close && !IsLogout(u.statusCode)
    ensures r == StayDown <==> u.connection == Close && IsLogout(u.statusCode)
    ensures r == AnnounceOnline <==> u.connection == Open
    ensures r.ShowQr? <==> u.connection == Qr
    ensures r.ShowQr? ==> r.code == u.qr
  {
    match u.connection
    case Close => if !IsLogout(u.statusCode) then Reconnect else StayDown
    case Open => AnnounceOnline
    case Qr => ShowQr(u.qr)
    case _ => Ignore
  }

  datatype Phase = Starting | Online | LoggedOut

  /** `socket` is the current socket; `listening` the sockets that carry the message handler. */
  datatype Session = Session(phase: Phase, socket: nat, listening: set<nat>)

  /** Start-up: the first socket, with the message handler attached to it. */
  function Initial(): Session {
    Session(Starting, 0, {0})
  }

  /** Messages that arrive on the current socket reach the moderation handler. */
  predicate Moderated(s: Session) {
    s.socket in s.listening
  }

  /**
    The session after one update as the code stands. A logged-out session stays as it is:
    its socket is closed and no other socket exists to deliver updates.
  */
  function StepAsWritten(s: Session, u: ConnectionUpdate): (r: Session)
    ensures r.listening == s.listening
    ensures r.socket == (if s.phase != LoggedOut && React(u) == Reconnect then s.socket + 1 else s.socket)
    ensures r.phase == LoggedOut <==> s.phase == LoggedOut || React(u) == StayDown
  {
    if s.phase == LoggedOut then s
    else match React(u)
      case Reconnect => Session(Starting, s.socket + 1, s.listening)
      case StayDown => s.(phase := LoggedOut)
      case AnnounceOnline => s.(phase := Online)
      case _ => s
  }

  /** The session after one update, with the reconnected socket wired to the message handler. */
  function Step(s: Session, u: ConnectionUpdate): (r: Session)
    ensures r.socket == (if s.phase != LoggedOut && React(u) == Reconnect then s.socket + 1 else s.socket)
    ensures r.phase == LoggedOut <==> s.phase == LoggedOut || React(u) == StayDown
    ensures Moderated(s) ==> Moderated(r)
  {
    if s.phase == LoggedOut then s
    else match React(u)
      case Reconnect => Session(Starting, s.socket + 1, s.listening + {s.socket + 1})
      case StayDown => s.(phase := LoggedOut)
      case AnnounceOnline => s.(phase := Online)
      case _ => s
  }

  function Run(s: Session, us: seq<ConnectionUpdate>): Session
    decreases |us|
  {
    if us == [] then s else Run(Step(s, us[0]), us[1..])
  }

  function RunAsWritten(s: Session, us: seq<ConnectionUpdate>): Session
    decreases |us|
  {
    if us == [] then s else RunAsWritten(StepAsWritten(s, us[0]), us[1..])
  }

  /** How many reconnects a sequence of updates causes from `s`. */
  function Reconnects(s: Session, us: seq<ConnectionUpdate>): nat
    decreases |us|
  {
    if us == [] then 0
    else (if s.phase != LoggedOut && React(us[0]) == Reconnect then 1 else 0) + Reconnects(Step(s, us[0]), us[1..])
  }

  // ---------------------------------------------------------------------------
  // Properties of the corrected session

  /** A logged-out session never reconnects again, whatever updates follow. */
  lemma {:induction false} LoggedOutIsTerminal(s: Session, us: seq<ConnectionUpdate>)
    requires s.phase == LoggedOut
    ensures Run(s, us) == s
    decreases |us|
  {
    if us != [] {
      LoggedOutIsTerminal(Step(s, us[0]), us[1..]);
    }
  }

  /** Each non-logout close builds exactly one new socket; nothing else does. */
  lemma {:induction false} SocketCountsReconnects(s: Session, us: seq<ConnectionUpdate>)
    ensures Run(s, us).socket == s.socket + Reconnects(s, us)
    decreases |us|
  {
    if us != [] {
      SocketCountsReconnects(Step(s, us[0]), us[1..]);
    }
  }

  /** An `open` update never reconnects and leaves the session online unless logged out. */
  lemma OpenNeverReconnects(s: Session, u: ConnectionUpdate)
    requires u.connection == Open
    ensures Step(s, u).socket == s.socket
    ensures s.phase != LoggedOut ==> Step(s, u).phase == Online
  {
  }

  /** Every socket the session ever makes current reaches the moderation handler. */
  lemma {:induction false} RunStaysModerated(s: Session, us: seq<ConnectionUpdate>)
    requires Moderated(s)
    ensures Moderated(Run(s, us))
    decreases |us|
  {
    if us != [] {
      RunStaysModerated(Step(s, us[0]), us[1..]);
    }
  }

  // ---------------------------------------------------------------------------
  // The code as it stands

  /** As written, the handler stays on the first socket and the current socket only moves on. */
  lemma {:induction false} AsWrittenKeepsFirstSocketOnly(s: Session, us: seq<ConnectionUpdate>)
    requires s.listening == {0}
    ensures RunAsWritten(s, us).listening == {0}
    ensures RunAsWritten(s, us).socket >= s.socket
    decreases |us|
  {
    if us != [] {
      AsWrittenKeepsFirstSocketOnly(StepAsWritten(s, us[0]), us[1..]);
    }
  }

  /** As written, once any reconnect has happened, messages are no longer moderated. */
  lemma AsWrittenModeratedOnlyOnFirstSocket(us: seq<ConnectionUpdate>)
    ensures Moderated(RunAsWritten(Initial(), us)) <==> RunAsWritten(Initial(), us).socket == 0
  {
    AsWrittenKeepsFirstSocketOnly(Initial(), us);
  }

  /**
    The input: the close with `restartRequired` (515) that follows pairing. As written
    the new socket has no message handler; corrected, it has.
  */
  lemma RestartAfterPairing()
    ensures var u := ConnectionUpdate(Close, Some(515), None);
            && !Moderated(StepAsWritten(Initial(), u))
            && Moderated(Step(Initial(), u))
  {
  }
}
