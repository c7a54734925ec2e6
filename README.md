# Anti-link moderation bot, modelled in Dafny

The bot watches group chats. When a member who is not an admin posts a link in a group
whose `antiLink` policy is on, it warns the group (mentioning the sender), deletes the
message and removes the sender. Group admins switch the policy per group with
`!antilink on` and `!antilink off`. The bot also keeps its connection alive: after any
close other than "logged out" it opens a new socket.

The model keeps the decision logic of `main.js` and replaces the messaging socket and the
document store by plain values:

- `LinkClassifier` covers the link regular expression. `RegexTest` states it literally: some
  substring is a whole match of one of the two alternatives, written character by character.
  `ContainsLink` is a scanner over start positions. `MatchIffLinkAt` proves the two agree.
- `Messages` covers the inbound message, the admission guard of the moderation handler,
  text extraction (`conversation || extendedTextMessage.text || ''`) and `sender.split('@')[0]`.
- `Privilege` covers `checkIfAdmin`. The roster it searches is the participant list of the
  group metadata, passed in as a value.
- `PolicyStore` covers the `GroupSettings` collection as a map from group id to `antiLink`.
  It has get-or-create with default `true`, and upsert.
- `Commands` covers the lower-cased exact comparison with the two command strings.
- `Connection` covers the `connection.update` decision and the sockets it creates.
- `Pipeline` covers both message handlers and the `messages.upsert` dispatch, as functions
  from store, message and roster to the new store plus the outbound calls, in order.
- `Bot.AntiLinkBot` is the running bot. It is a class with the policy map, the outbound
  calls issued so far and the session. Its handler methods update these in place and are
  proved equal to the `Pipeline` and `Connection` functions. Its connection handler runs the
  corrected reconnect described under "## Findings": every new socket gets the message handler.

Case-insensitive regex matching without the `u` flag folds ASCII letters only. `\s` is the
ECMAScript white-space and line-terminator set. For `toLowerCase`, only ASCII capitals and
the KELVIN SIGN (U+212A) lower-case to ASCII. The lower-case form of any other character is
either that character or not ASCII, so `Commands.LowerChar` decides the comparison with an
ASCII command exactly. `toLowerCase` can also lengthen a string: U+0130 becomes `i` followed
by U+0307. The model keeps one character there; the comparison gives the same answer, because
U+0307 is not ASCII either. `Connection.LoggedOutCode` is 401, the value of
`DisconnectReason.loggedOut` in the messaging library. That library is not part of this model.

The command handler has no `fromMe` check, so the bot's own `!antilink` messages are obeyed
when the bot's account is a group admin.

## Model

| member | source | states |
|---|---|---|
| LinkClassifier.Fold | main.js:84 | the `i` flag maps each ASCII capital to its lower-case letter (code plus 32), leaves every other character unchanged, and yields a lower-case letter exactly for ASCII letters |
| LinkClassifier.LinkFrom | main.js:84-85 | scanning from position `i` finds a link iff a scheme prefix or a short domain starts at some position at or after `i` |
| LinkClassifier.ContainsLink | main.js:84-85 | `linkRegex.test(text)` is true iff some substring of the text is a whole match of the pattern |
| LinkClassifier.MatchIffLinkAt | main.js:84 | the pattern matches somewhere iff `http://`, `https://` or `www.` (any case) is followed by a non-space, or a label character, a dot and two letters occur |
| LinkClassifier.EmptyTextIsNoLink | main.js:74-85 | the `''` fallback of text extraction is never a link |
| LinkClassifier.NoDotNoColonNoLink | main.js:84 | a text with neither a dot nor a colon is never a link |
| LinkClassifier.LinkExamples | main.js:84 | `check http://evil.example`, `file.txt` and `WWW.x` are links |
| LinkClassifier.NumberIsNoLink | main.js:84 | `3.14` is not a link (a digit cannot start the top-level label) |
| LinkClassifier.AbbreviationIsNoLink | main.js:84 | `e.g.` is not a link (the top-level label needs two letters) |
| LinkClassifier.ProseIsNoLink | main.js:84 | plain prose such as `hello world` is not a link |
| Messages.TextOf | main.js:74 | the text is the conversation if non-empty, else the extended text if non-empty, else empty |
| Messages.UserPart | main.js:88 | the handle in the warning is the longest prefix of the sender that has no `@` |
| Messages.UserPartUnique | main.js:88 | any string with those three properties is the handle |
| Messages.UserPartExamples | main.js:88 | `4477@s.whatsapp.net` gives `4477`; a sender without `@` is kept whole |
| Privilege.Find | main.js:62 | `find` returns the first participant whose id is the sender, and `None` iff there is none |
| Privilege.IsAdmin | main.js:60-64 | the sender is admin iff their first roster entry has role `admin` or `superadmin` |
| Privilege.AbsentIsNotAdmin | main.js:62-63 | a sender missing from the roster is not admin |
| Privilege.FirstEntryDecides | main.js:62-63 | only the first entry for a sender decides; a later elevated duplicate does not count |
| PolicyStore.GetOrCreate | main.js:77-81 | the lookup returns the stored value, or creates the record with the schema default `true`; other records are unchanged |
| PolicyStore.SetAntiLink | main.js:107-111 | the upsert sets the group's value, creating the record if absent, and changes no other record |
| PolicyStore.GetOrCreateStable | main.js:77-81 | a second lookup finds the record the first created: same store, same value |
| PolicyStore.SetAntiLinkIdempotent | main.js:116-120 | setting the same value twice equals setting it once |
| PolicyStore.GetAfterSet | main.js:107-111 | a lookup after an upsert reads the value set and creates nothing |
| PolicyStore.SetAfterGet | main.js:77-81 | an upsert after a lookup leaves the same store as the upsert alone |
| Commands.LowerChar | main.js:106 | lower-casing maps ASCII capitals to lower case (code plus 32) and the KELVIN SIGN to `k`, and keeps every other character as far as a comparison with ASCII text can tell; it yields an ASCII letter exactly for ASCII letters and the KELVIN SIGN |
| Commands.Toggle | main.js:106-122 | the text asks for `true` iff lower-cased it equals `!antilink on`, and for `false` iff it equals `!antilink off` |
| Commands.ToggleIgnoresCase | main.js:106 | `!AntiLink ON`, `!ANTILINK off` and a KELVIN SIGN spelling are recognised |
| Commands.ToggleIsExact | main.js:115 | leading space, trailing words or a missing argument make no command |
| Commands.CommandIsNoLink | main.js:84-115 | no command text is a link |
| Connection.React | main.js:41-52 | a close reconnects iff its status code is not `loggedOut` (a missing code reconnects); `open` announces; `qr` shows the code |
| Connection.StepAsWritten | main.js:38-53 | as written: the socket changes only on a non-logout close and the session is logged out only by a logout close, but the set of sockets carrying the message handler never changes |
| Connection.Step | main.js:38-53 | corrected (see Findings): the socket changes only on a non-logout close, the session is logged out only by a logout close, and the current socket stays wired to the message handler |
| Connection.LoggedOutIsTerminal | main.js:43-46 | after a logout close no later update reconnects or changes anything |
| Connection.SocketCountsReconnects | main.js:41-46 | each non-logout close creates exactly one new socket, and nothing else creates one |
| Connection.OpenNeverReconnects | main.js:47-48 | `open` never reconnects and sets the session online |
| Connection.RunStaysModerated | main.js:129-135 | with the correction, every socket made current by any run of updates reaches the message handler |
| Connection.AsWrittenKeepsFirstSocketOnly | main.js:41-46 | as written, only the first socket ever carries the message handler |
| Connection.AsWrittenModeratedOnlyOnFirstSocket | main.js:126-135 | as written, messages are moderated iff no reconnect has happened yet |
| Connection.RestartAfterPairing | main.js:43-45 | a close with code 515 leaves the new socket without the handler as written, and with it when corrected |
| Pipeline.Moderate | main.js:67-93 | a message causes actions iff it is admitted, its group's policy is on, its text matches the link pattern and the sender is not admin; the actions are exactly warn, delete, remove; an admitted message creates its group's record; a non-admitted one changes nothing |
| Pipeline.Command | main.js:96-123 | a group message from an admin whose text is a command upserts the value and sends one confirmation; anything else changes nothing and sends nothing |
| Pipeline.Dispatch | main.js:129-135 | an event with no message or a first message without a body changes nothing; otherwise the calls are nothing, the enforcement of the first message, or one confirmation of its command, never both, and no other group's record changes |
| Pipeline.OnlyFirstMessage | main.js:130 | only the first message of a batch is handled |
| Pipeline.NoBodyNoEffect | main.js:131 | a message without a body changes nothing, commands included |
| Pipeline.ModerationCreatesRecord | main.js:77-81 | after an admitted message the keys are the old keys plus the group; an existing value is kept, a new record holds `true` |
| Pipeline.AdminsAreExempt | main.js:86-87 | an admin is never enforced |
| Pipeline.DisabledGroupIsNotEnforced | main.js:85 | a group with the policy off is never enforced |
| Pipeline.CommandFirstAgrees | main.js:133-134 | moderation sees the policy from before the command, and handling the command first would give the same store and calls |
| Pipeline.CommandIdempotent | main.js:106-122 | repeating a command leaves the same policy and sends the same confirmation again |
| Pipeline.StaysDisabled | main.js:77-122 | a group whose policy is off stays off, and no warn, delete or remove acts in it, over any run of events in which no admin sends `!antilink on` there |
| Pipeline.DisabledStepStaysDisabled | main.js:77-122 | one event that is not an admin's `!antilink on` keeps a switched-off group off and acts on nothing in it |
| Pipeline.DisableThenLink | main.js:96-134 | an admin's `!antilink off` is only confirmed, and afterwards the group stays off and nothing in it is enforced over any later run of events without an admin's `!antilink on` |
| Pipeline.FreshGroupScenario | main.js:77-91 | in a fresh group, a sender who is not admin posting `check http://evil.example` gets warn, delete, remove exactly once, and the group gets a record with `true` |
| Bot.AntiLinkBot.constructor | main.js:126-135 | the bot starts with no records, no calls and the first socket wired to the message handler |
| Bot.AntiLinkBot.HandleIncomingMessage | main.js:67-93 | the step-by-step handler leaves the store and the calls that `Moderate` specifies |
| Bot.AntiLinkBot.HandleCommand | main.js:96-123 | the step-by-step handler leaves the store and the calls that `Command` specifies |
| Bot.AntiLinkBot.OnMessagesUpsert | main.js:129-135 | corrected (see Findings): an event on a socket with the handler runs moderation, then commands, as `Dispatch` specifies; the current socket always has the handler |
| Bot.AntiLinkBot.OnConnectionUpdate | main.js:38-53 | corrected (see Findings): the session moves as `Step` specifies, so a reconnected socket gets the message handler; the store and calls are untouched |

## Findings

| source | as written | input that shows it | evidently intended | confidence | as-written member | corrected member |
|---|---|---|---|---|---|---|
| main.js:45 | a reconnect calls `authenticateBot()`, which builds a socket with only the connection and credential handlers; `startBot` attached `messages.upsert` to the first socket only (main.js:129) | any close whose status code is not 401, e.g. 515 (`restartRequired`) after pairing | the reconnected socket keeps moderating messages | high; not executed | Connection.AsWrittenModeratedOnlyOnFirstSocket | Connection.Step |

## Left out

- The MongoDB connection and environment configuration. The collection is the map in `PolicyStore`.
- Socket creation, multi-file auth state, the session directory, credential saving and the
  `creds.update` handler. These are foreign library calls and file I/O.
- Printing the QR code and all logging. `Connection.React` records only the decision to show the code or to announce.
- The unbounded recursion of reconnects. The model keeps the reconnect decision and a count of sockets, not the retry loop.
- Failures of network and store calls. Every call is assumed to succeed. In the code a failed
  membership lookup or store call aborts the rest of the handler, including `handleCommands`
  for that event.
- Partial enforcement. The code has no `try`/`catch`, so a failed warn, delete or remove call
  stops the calls after it; the model issues all three.
- Interleaving of concurrently handled messages, such as the find-then-save race that could
  create a duplicate record. Handlers are modelled as sequential steps.
- Message texts other than the mentioned sender and the handle in the warning.
- `remoteJid` and `participant` are modelled as always-present strings. If either were missing,
  the code would throw at `endsWith` or `split`.
- Strings are sequences of Unicode scalar values, not UTF-16 code units. The patterns involve
  only ASCII and BMP white space, so the answers are the same.
- Updates after a logout are ignored (`Connection.Step`), because that socket is closed and no other exists.
- `connecting` and absent `connection` values have no effect.
