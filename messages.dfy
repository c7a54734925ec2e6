/**
  The shape of an inbound message as the handlers read it, the admission filter of the
  moderation handler, text extraction, and the user part of a sender's address.
*/
module Messages {
  import opened Wrappers

  /** `message.key`: the chat, whether the bot sent it, the sender in a group, the id. */
  datatype MessageKey = MessageKey(remoteJid: string, fromMe: bool, participant: string, id: string)

  /** `message.message`: the two text-bearing fields the handlers look at. */
  datatype Body = Body(conversation: Option<string>, extendedText: Option<string>)

  /** One entry of a `messages.upsert` batch; `body` is `None` when `message.message` is absent. */
  datatype InboundMessage = InboundMessage(key: MessageKey, body: Option<Body>)

  const GroupSuffix: string := "@g.us"

  /** `remoteJid.endsWith('@g.us')`. */
  predicate IsGroupJid(jid: string) {
    |GroupSuffix| <= |jid| && jid[|jid| - |GroupSuffix|..] == GroupSuffix
  }

  /** JavaScript truthiness of an optional string: present and not empty. */
  predicate Truthy(o: Option<string>) {
    o.Some? && o.value != ""
  }

  /**
    `conversation || extendedTextMessage.text || ''`: the first truthy text field,
    otherwise the empty string.
  */
  function TextOf(m: InboundMessage): (text: string)
    ensures m.body.Some? && Truthy(m.body.value.conversation) ==> text == m.body.value.conversation.value
    ensures (m.body.Some? && !Truthy(m.body.value.conversation) && Truthy(m.body.value.extendedText))
            ==> text == m.body.value.extendedText.value
    ensures text == "" <==> m.body.None? || (!Truthy(m.body.value.conversation) && !Truthy(m.body.value.extendedText))
  {
    match m.body
    case None => ""
    case Some(b) =>
      if Truthy(b.conversation) then b.conversation.value
      else if Truthy(b.extendedText) then b.extendedText.value
      else ""
  }

  /** The guard of the moderation handler: a body, not sent by the bot, in a group. */
  predicate Admitted(m: InboundMessage) {
    m.body.Some? && !m.key.fromMe && IsGroupJid(m.key.remoteJid)
  }

  /** `sender.split('@')[0]`: the longest prefix without an `@`. */
  function UserPart(s: string): (r: string)
    ensures |r| <= |s| && r == s[..|r|]
    ensures forall k | 0 <= k < |r| :: r[k] != '@'
    ensures |r| < |s| ==> s[|r|] == '@'
  {
    if s == [] || s[0] == '@' then []
    else [s[0]] + UserPart(s[1..])
  }

  /** The three properties of `UserPart` leave no other choice. */
  lemma {:induction false} UserPartUnique(s: string, r: string)
    requires |r| <= |s| && r == s[..|r|]
    requires forall k | 0 <= k < |r| :: r[k] != '@'
    requires |r| < |s| ==> s[|r|] == '@'
    ensures r == UserPart(s)
  {
    if r != [] {
      assert s[0] == r[0] != '@';
      UserPartUnique(s[1..], r[1..]);
      assert r == [s[0]] + r[1..];
    }
  }

  lemma UserPartExamples()
    ensures UserPart("4477@s.whatsapp.net") == "4477"
    ensures UserPart("4477") == "4477"
    ensures UserPart("") == ""
  {
    UserPartUnique("4477@s.whatsapp.net", "4477");
    UserPartUnique("4477", "4477");
  }
}
