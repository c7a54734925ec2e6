/**
  The running bot: the policy collection, the outbound calls issued so far, and the
  connection session, updated in place by the three event handlers. Each handler is
  proved against the function of `Pipeline` or `Connection` that specifies it.
*/
module Bot {
  import opened Messages
  import opened Privilege
  import opened PolicyStore
  import opened Commands
  import opened Connection
  import opened Pipeline
  import LinkClassifier

  class AntiLinkBot {
    var settings: Store
    var outbox: seq<Action>
    var session: Session

    /** Every socket the bot makes current is wired to the message handler. */
    ghost predicate Valid()
      reads this
    {
      Moderated(session)
    }

    constructor ()
      ensures Valid()
      ensures settings == map[] && outbox == [] && session == Initial()
    {
      settings := map[];
      outbox := [];
      session := Initial();
    }

    /** `handleIncomingMessages`. */
    method HandleIncomingMessage(m: InboundMessage, roster: seq<Participant>)
      modifies this
      ensures settings == Moderate(old(settings), m, roster).store
      ensures outbox == old(outbox) + Moderate(old(settings), m, roster).actions
      ensures session == old(session)
    {
      if m.body.None? || m.key.fromMe {
        return;
      }
      var groupId := m.key.remoteJid;
      if !IsGroupJid(groupId) {
        return;
      }
      var sender := m.key.participant;
      var text := TextOf(m);

      var antiLink: bool;
      if groupId in settings {
        antiLink := settings[groupId];
      } else {
        settings := settings[groupId := DefaultAntiLink];
        antiLink := DefaultAntiLink;
      }

      if antiLink && LinkClassifier.ContainsLink(text) {
        var isAdmin := IsAdmin(roster, sender);
        if !isAdmin {
          outbox := outbox + [Warn(groupId, UserPart(sender), sender)];
          outbox := outbox + [Delete(m.key)];
          outbox := outbox + [Remove(groupId, sender)];
        }
      }
    }

    /** `handleCommands`. */
    method HandleCommand(m: InboundMessage, roster: seq<Participant>)
      modifies this
      ensures settings == Command(old(settings), m, roster).store
      ensures outbox == old(outbox) + Command(old(settings), m, roster).actions
      ensures session == old(session)
    {
      var groupId := m.key.remoteJid;
      if !IsGroupJid(groupId) {
        return;
      }
      var sender := m.key.participant;
      var text := TextOf(m);

      var isAdmin := IsAdmin(roster, sender);
      if !isAdmin {
        return;
      }

      if Lower(text) == EnableCommand {
        settings := settings[groupId := true];
        outbox := outbox + [Confirm(groupId, true)];
      }
      if Lower(text) == DisableCommand {
        settings := settings[groupId := false];
        outbox := outbox + [Confirm(groupId, false)];
      }
    }

    /**
      A `messages.upsert` event delivered by socket `from`: handled only if that socket
      carries the message handler; on the current socket it always does.
    */
    method OnMessagesUpsert(from: nat, batch: seq<InboundMessage>, modRoster: seq<Participant>, cmdRoster: seq<Participant>)
      requires Valid()
      modifies this
      ensures Valid() && session == old(session)
      ensures from in session.listening ==>
                && settings == Dispatch(old(settings), batch, modRoster, cmdRoster).store
                && outbox == old(outbox) + Dispatch(old(settings), batch, modRoster, cmdRoster).actions
      ensures from !in session.listening ==> settings == old(settings) && outbox == old(outbox)
      ensures from == session.socket ==> from in session.listening
    {
      if from !in session.listening || batch == [] {
        return;
      }
      var message := batch[0];
      if message.body.None? {
        return;
      }
      HandleIncomingMessage(message, modRoster);
      HandleCommand(message, cmdRoster);
    }

    /** The `connection.update` handler, with the message handler re-attached on reconnect. */
    method OnConnectionUpdate(u: ConnectionUpdate)
      requires Valid()
      modifies this
      ensures Valid()
      ensures session == Step(old(session), u)
      ensures settings == old(settings) && outbox == old(outbox)
    {
      if session.phase == LoggedOut {
        return;
      }
      var reaction := React(u);
      match reaction
      case Reconnect =>
        var next := session.socket + 1;
        session := Session(Starting, next, session.listening + {next});
      case StayDown =>
        session := session.(phase := LoggedOut);
      case AnnounceOnline =>
        session := session.(phase := Online);
      case _ =>
    }
  }
}
