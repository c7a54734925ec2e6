/**
  The two message handlers as functions of the policy store, the message and the group
  roster they consult, producing the new store and the outbound calls in order; and the
  `messages.upsert` dispatch that runs moderation and then command handling on the first
  message of a batch.
*/
module Pipeline {
  import opened Wrappers
  import opened Messages
  import opened Privilege
  import opened PolicyStore
  import opened Commands
  import LinkClassifier

  /** The outbound calls of the handlers, in the order they are issued. */
  datatype Action =
    | Warn(group: string, handle: string, mention: string)  // "Link detected, removing @handle", mentioning the sender
    | Delete(key: MessageKey)                                // delete of the offending message
    | Remove(group: string, user: string)                   // removal of the sender from the group
    | Confirm(group: string, enabled: bool)                 // "Anti-link has been enabled/disabled"

  datatype Outcome = Outcome(store: Store, actions: seq<Action>)

  /** The remediation for message `m`: warn, delete, remove. */
  function Enforcement(m: InboundMessage): seq<Action> {
    var sender := m.key.participant;
    [Warn(m.key.remoteJid, UserPart(sender), sender), Delete(m.key), Remove(m.key.remoteJid, sender)]
  }

  /** The moderation handler. */
  function Moderate(store: Store, m: InboundMessage, roster: seq<Participant>): (r: Outcome)
    ensures !Admitted(m) ==> r == Outcome(store, [])
    ensures Admitted(m) ==> r.store == GetOrCreate(store, m.key.remoteJid).store
    ensures r.actions != [] <==>
              && Admitted(m)
              && PolicyOf(store, m.key.remoteJid)
              && LinkClassifier.RegexTest(TextOf(m))
              && !IsAdmin(roster, m.key.participant)
    ensures r.actions == [] || r.actions == Enforcement(m)
  {
    if !Admitted(m) then Outcome(store, [])
    else
      var settings := GetOrCreate(store, m.key.remoteJid);
      if settings.antiLink && LinkClassifier.ContainsLink(TextOf(m)) && !IsAdmin(roster, m.key.participant)
      then Outcome(settings.store, Enforcement(m))
      else Outcome(settings.store, [])
  }

  /** The command handler; it does not look at `fromMe` or at whether there is a body. */
  function Command(store: Store, m: InboundMessage, roster: seq<Participant>): (r: Outcome)
    ensures r.actions != [] <==>
              IsGroupJid(m.key.remoteJid) && IsAdmin(roster, m.key.participant) && Toggle(TextOf(m)).Some?
    ensures r.actions == [] ==> r.store == store
    ensures r.actions != [] ==>
              var v := Toggle(TextOf(m)).value;
              r.actions == [Confirm(m.key.remoteJid, v)] && r.store == SetAntiLink(store, m.key.remoteJid, v)
  {
    if !IsGroupJid(m.key.remoteJid) || !IsAdmin(roster, m.key.participant) then Outcome(store, [])
    else match Toggle(TextOf(m))
      case None => Outcome(store, [])
      case Some(v) => Outcome(SetAntiLink(store, m.key.remoteJid, v), [Confirm(m.key.remoteJid, v)])
  }

  /**
    One `messages.upsert` event: only the first message, only with a body; moderation
    first, then commands, each with the roster it fetches. At most one of the two
    handlers acts, since no command text is a link, and only the message's group changes.
  */
  function Dispatch(store: Store, batch: seq<InboundMessage>, modRoster: seq<Participant>, cmdRoster: seq<Participant>): (r: Outcome)
    ensures batch == [] || batch[0].body.None? ==> r == Outcome(store, [])
    ensures batch != [] ==>
              var m := batch[0];
              || r.actions == []
              || r.actions == Enforcement(m)
              || (Toggle(TextOf(m)).Some? && r.actions == [Confirm(m.key.remoteJid, Toggle(TextOf(m)).value)])
    ensures batch != [] ==>
              && r.store.Keys <= store.Keys + {batch[0].key.remoteJid}
              && forall g | g in store && g != batch[0].key.remoteJid :: g in r.store && r.store[g] == store[g]
  {
    if batch == [] || batch[0].body.None? then Outcome(store, [])
    else
      var m := batch[0];
      var moderated := Moderate(store, m, modRoster);
      var commanded := Command(moderated.store, m, cmdRoster);
      assert moderated.actions == [] || commanded.actions == [] by {
        if Toggle(TextOf(m)).Some? {
          CommandIsNoLink(TextOf(m));
        }
      }
      Outcome(commanded.store, moderated.actions + commanded.actions)
  }

  /** One `messages.upsert` event with the rosters its two handlers fetch. */
  datatype Event = Event(batch: seq<InboundMessage>, modRoster: seq<Participant>, cmdRoster: seq<Participant>)

  /** A run of events handled one after another, the calls concatenated in order. */
  function DispatchAll(store: Store, events: seq<Event>): Outcome
    decreases |events|
  {
    if events == [] then Outcome(store, [])
    else
      var d := Dispatch(store, events[0].batch, events[0].modRoster, events[0].cmdRoster);
      var rest := DispatchAll(d.store, events[1..]);
      Outcome(rest.store, d.actions + rest.actions)
  }

  /** Whether a call acts against a message or member of group `g`. */
  predicate Enforces(a: Action, g: string) {
    || (a.Warn? && a.group == g)
    || (a.Delete? && a.key.remoteJid == g)
    || (a.Remove? && a.group == g)
  }

  /** Whether event `e` is an admin's `!antilink on` in group `g`. */
  predicate EnablesIn(e: Event, g: string) {
    && e.batch != []
    && e.batch[0].body.Some?
    && e.batch[0].key.remoteJid == g
    && IsAdmin(e.cmdRoster, e.batch[0].key.participant)
    && Toggle(TextOf(e.batch[0])) == Some(true)
  }

  // ---------------------------------------------------------------------------
  // Properties

  /** Only the first message of a batch is looked at. */
  lemma OnlyFirstMessage(store: Store, batch: seq<InboundMessage>, modRoster: seq<Participant>, cmdRoster: seq<Participant>)
    requires batch != []
    ensures Dispatch(store, batch, modRoster, cmdRoster) == Dispatch(store, [batch[0]], modRoster, cmdRoster)
  {
  }

  /** A message without a body changes nothing and triggers nothing, commands included. */
  lemma NoBodyNoEffect(store: Store, m: InboundMessage, modRoster: seq<Participant>, cmdRoster: seq<Participant>)
    requires m.body.None?
    ensures Dispatch(store, [m], modRoster, cmdRoster) == Outcome(store, [])
  {
  }

  /** An admitted message leaves exactly its group's record, created with the default if new. */
  lemma ModerationCreatesRecord(store: Store, m: InboundMessage, roster: seq<Participant>)
    requires Admitted(m)
    ensures var r := Moderate(store, m, roster);
            && r.store.Keys == store.Keys + {m.key.remoteJid}
            && (m.key.remoteJid in store ==> r.store == store)
            && (m.key.remoteJid !in store ==> r.store[m.key.remoteJid] == DefaultAntiLink)
  {
  }

  /** Admins and superadmins are never removed, whatever they post. */
  lemma AdminsAreExempt(store: Store, m: InboundMessage, roster: seq<Participant>)
    requires IsAdmin(roster, m.key.participant)
    ensures Moderate(store, m, roster).actions == []
  {
  }

  /** A group with the policy switched off is never enforced. */
  lemma DisabledGroupIsNotEnforced(store: Store, m: InboundMessage, roster: seq<Participant>)
    requires m.key.remoteJid in store && !store[m.key.remoteJid]
    ensures Moderate(store, m, roster).actions == []
  {
  }

  /** A command is never itself enforced, so handling it before moderation would change nothing. */
  lemma CommandFirstAgrees(store: Store, m: InboundMessage, modRoster: seq<Participant>, cmdRoster: seq<Participant>)
    ensures var cmd := Command(store, m, cmdRoster);
            var mod := Moderate(cmd.store, m, modRoster);
            var d := Dispatch(store, [m], modRoster, cmdRoster);
            m.body.Some? ==> d.store == mod.store && d.actions == mod.actions + cmd.actions
  {
    var g := m.key.remoteJid;
    if Toggle(TextOf(m)).Some? {
      CommandIsNoLink(TextOf(m));
    }
    if Admitted(m) && IsGroupJid(g) && IsAdmin(cmdRoster, m.key.participant) && Toggle(TextOf(m)).Some? {
      SetAfterGet(store, g, Toggle(TextOf(m)).value);
    }
  }

  /** Repeating a command leaves the same policy; each repetition is confirmed again. */
  lemma CommandIdempotent(store: Store, m: InboundMessage, roster: seq<Participant>)
    ensures var once := Command(store, m, roster);
            var twice := Command(once.store, m, roster);
            twice.store == once.store && twice.actions == once.actions
  {
  }

  /** One event that is not an admin's `!antilink on` in `g` keeps `g` off and acts on nothing in `g`. */
  lemma DisabledStepStaysDisabled(store: Store, e: Event, g: string)
    requires g in store && !store[g]
    requires !EnablesIn(e, g)
    ensures var d := Dispatch(store, e.batch, e.modRoster, e.cmdRoster);
            && g in d.store && !d.store[g]
            && forall k | 0 <= k < |d.actions| :: !Enforces(d.actions[k], g)
  {
  }

  /** A switched-off group stays off, and nothing in it is enforced, until an admin's `!antilink on`. */
  lemma {:induction false} StaysDisabled(store: Store, events: seq<Event>, g: string)
    requires g in store && !store[g]
    requires forall k | 0 <= k < |events| :: !EnablesIn(events[k], g)
    ensures var r := DispatchAll(store, events);
            && g in r.store && !r.store[g]
            && forall k | 0 <= k < |r.actions| :: !Enforces(r.actions[k], g)
    decreases |events|
  {
    if events != [] {
      var e := events[0];
      var d := Dispatch(store, e.batch, e.modRoster, e.cmdRoster);
      DisabledStepStaysDisabled(store, e, g);
      StaysDisabled(d.store, events[1..], g);
      var rest := DispatchAll(d.store, events[1..]);
      var all := d.actions + rest.actions;
      forall k | 0 <= k < |all| ensures !Enforces(all[k], g) {
        if k >= |d.actions| {
          assert all[k] == rest.actions[k - |d.actions|];
        }
      }
    }
  }

  /**
    After an admin's `!antilink off`, which is only confirmed, the group stays off and
    nothing in it is enforced over any later run of events without an admin's `!antilink on`.
  */
  lemma DisableThenLink(store: Store, off: InboundMessage, roster: seq<Participant>, modRoster: seq<Participant>,
                        later: seq<Event>)
    requires off.body.Some? && IsGroupJid(off.key.remoteJid) && IsAdmin(roster, off.key.participant)
    requires Toggle(TextOf(off)) == Some(false)
    requires forall k | 0 <= k < |later| :: !EnablesIn(later[k], off.key.remoteJid)
    ensures var first := Dispatch(store, [off], modRoster, roster);
            var rest := DispatchAll(first.store, later);
            && first.actions == [Confirm(off.key.remoteJid, false)]
            && off.key.remoteJid in rest.store && !rest.store[off.key.remoteJid]
            && forall k | 0 <= k < |rest.actions| :: !Enforces(rest.actions[k], off.key.remoteJid)
  {
    CommandIsNoLink(TextOf(off));
    var first := Dispatch(store, [off], modRoster, roster);
    StaysDisabled(first.store, later, off.key.remoteJid);
  }

  /** A fresh group, a non-admin posting a link: the default policy applies and all three calls run once. */
  lemma FreshGroupScenario(key: MessageKey, roster: seq<Participant>)
    requires IsGroupJid(key.remoteJid) && !key.fromMe
    requires !IsAdmin(roster, key.participant)
    ensures var m := InboundMessage(key, Some(Body(Some("check http://evil.example"), None)));
            var d := Dispatch(map[], [m], roster, roster);
            && d.actions == [Warn(key.remoteJid, UserPart(key.participant), key.participant),
                             Delete(key),
                             Remove(key.remoteJid, key.participant)]
            && d.store == map[key.remoteJid := true]
  {
    LinkClassifier.LinkExamples();
    var m := InboundMessage(key, Some(Body(Some("check http://evil.example"), None)));
    assert Toggle(TextOf(m)) == None by {
      assert Lower(TextOf(m))[0] == 'c';
    }
  }
}
