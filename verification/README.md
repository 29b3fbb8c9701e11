# Mailbridge verification

Mailbridge lets ordinary mail programs reach a web mail service: an IMAP server and an SMTP
submission server in front of a remote HTTP API. This project is a Dafny model of its stateful
core, with proofs about it. `dafny verify dfyconfig.toml` checks everything.

Code that changes state step by step is modelled as classes and loops, each proved equal to a
function of the state before; what the code promises is then proved about those functions, over
all inputs and all runs.

- **SMTP session** (`smtp_*.dfy`). `SmtpEngine.Session` is the session object: reading lines and
  bodies, every command, the AUTH exchanges, STARTTLS, the command loop. It is proved equal to
  `SmtpModel`, a function of the input and of an environment `Env` that answers for everything
  outside (hooks, handshakes, clocks, reads that fail). Each answer is a function of the number of
  events so far, so a statement for every `Env` covers every behaviour. `SmtpTrace` records what is
  visible: lines read, replies, hook calls. `smtp_logins.dfy`, `smtp_guards.dfy` and `smtp_limits.dfy` say
  what clients and hooks meet: which credentials are asked about, behind what, and how much mail is
  taken. The MAIL, RCPT and SIZE patterns are modelled exactly:
  leftmost match, last closing bracket.
- **Submission** (`submission_bridge.dfy`, `submission_races.dfy`,
  `submission_schedules.dfy`). The two hooks of submit.go around
  one shared token map, and a protocol of any number of sessions, each running the SMTP engine, whose
  hook calls interleave in any order. A connection can drop while its session still has a call in
  progress, and its address can be used again at once.
- **Login limiter** (`login_limit.dfy`). The tracker, and the protocol of concurrent logins that
  take its lock twice: once to be admitted, once to record the outcome.
- **Mailbox names** (`mailbox_names.dfy`, `name_index.dfy`, `name_resolution.dfy`,
  `listed_names.dfy`). Labels, unique LIST names, the index built from them, and the resolver with its
  order of attempts.
- **Mailbox lists and commands** (`pager.dfy`, `seq_sets.dfy`, `imap_user.dfy`,
  `mailbox_commands.dfy`, `mailbox_results.dfy`). Loading a list page by page, the list cache, sequence
  sets, and STORE, COPY, MOVE and EXPUNGE as sequences of requests any of which the API may refuse, and
  what has been deleted after them.
- **Byte transformers** (`line_writer.dfy`, `line_log.dfy`, `base64.dfy`,
  `rfc822.dfy`). The protocol log's line
  splitter and the base64 wrapper for attachments.

## What the model shows of the code

- A MAIL that is refused keeps the earlier sender and drops the recipients; a message refused by
  the handler, or too large, leaves the transaction open; after a message that is too large the rest
  of its text is read as commands. All of that is in `SmtpModel` as the code has it.
- Replies and commands get out of step in two ways only (`SmtpPipelining.RepliesAlign`), and each
  does happen (`smtp_upsets.dfy`): a failed TLS handshake gives a second reply to one STARTTLS, and a
  hook's error passed on as it is may be no final reply, because it begins with 334 or 354 or is not
  well-formed: a line continued by nothing, or lines with different codes. An error without any code is
  taken for a final reply, of which a client can only make that something failed. The submission server
  has no TLS and its hooks give no such error, so there they never do.
- A handler error that begins with 250 is passed on as it is too: the client reads a success while the
  transaction stays open (`SmtpUpsets.RefusedAs250`). Reading a session's history therefore takes the handler's answer, not the
  reply, for the fate of a message.
- submit.go:21-22 speaks of one client per IP. The code keys the map by the whole remote address,
  port included, and that is what is modelled; so two sessions from one IP do not share a login.
- A login is checked for up to 30 seconds (submit.go:54) and its client stored even if the connection is
  gone by then. If the address is used again meanwhile, the next session's mail can go out under the
  first one's client (`SubmissionRaces.LateLoginTakesOver`). A schedule of
  connections made, connections lost and sessions ended is safe in this respect if and only if it makes
  no connection from the address of a session that still runs
  (`SubmissionSchedules.SafeExactlyWhenApart`), which holds by itself while no connection goes before
  its session has ended.
- The limiter's block comes after 5 failures when logins come one at a time; with k concurrent
  logins 4 + k failures can be recorded, and never more.
- The aliases `Folder-<id>` and `Tag-<id>` are put into the index without being reserved, so an
  entry can lose its listed name to a later entry's alias; `NameIndex.ListedNameKept` says exactly
  when. A title cut at 200 bytes can end in a space, which the resolver trims: the name then leads to
  nothing, to another mailbox, or, if what is left is the entry's own alias, to its own after all.
  `ListedNames.ListedNamesResolve` gives the exact condition for every listed name.
- The lines taken by the line splitter depend on how the stream is cut exactly when a bare LF comes
  before a CRLF in it: one line then swallows the bare LF. What it logs depends on it exactly when such
  a run of lines holds more than one that is not blank.
- COPY leaves the destination's list in the cache, and so does a STORE that deletes the trash's; a command that fails
  half-way leaves its own. The contracts in `mailbox_commands.dfy` say what the cache holds after
  each outcome.

## Model

| member | source | states |
|---|---|---|
| SmtpDelivery.SessionDelivers | internal/mhalesmtpd/smtpd.go:338-708 | a client that logs in with AUTH PLAIN and writes any list of letters has the hook asked about exactly its user and password before any handler call, and gets exactly one handler call per letter, in order, with that sender, those recipients and header ++ body, and the connection is left at what follows; for every configuration with room for the letters and every accepting environment |
| SmtpDelivery.ServedDelivers | internal/mhalesmtpd/smtpd.go:338-708 | and those calls are the first ones of the whole session as it is served to its end |
| SmtpDelivery.Delivers | internal/mhalesmtpd/smtpd.go:384-542 | the same from any session past its TLS and login checks, whatever transaction was open |
| SmtpDelivery.LetterTurns | internal/mhalesmtpd/smtpd.go:384-542 | one letter takes one command for the sender, one for each recipient and one for the body, and makes one call |
| SmtpDelivery.DataTurn | internal/mhalesmtpd/smtpd.go:462-542 | DATA with a dot-stuffed body hands over exactly that body and ends the transaction |
| SmtpDelivery.LoginAsks | internal/mhalesmtpd/smtpd.go:894-920 | AUTH PLAIN with an initial response calls the hook with the user and password that were encoded |
| SmtpDelivery.SplitCredentials | internal/mhalesmtpd/smtpd.go:911-916 | splitting NUL user NUL password gives back the two, when neither holds a NUL |
| SmtpDelivery.ReceivedIsOneField | internal/mhalesmtpd/smtpd.go:807-814 | the header put in front of a body is one Received field folded over three lines; it starts with the client's name, ends with the first recipient and the date, and the lines after it are exactly the body |
| SmtpLogins.LoginByTwoLines | internal/mhalesmtpd/smtpd.go:861-892 | for every user and password: a session that reads AUTH LOGIN and the two in base64, a line each, has the hook asked about that user and that password, in this order; both lines are used up, the answer decides whether the session is authenticated, and the reply is 235 or 535 unless the hook gives an error |
| SmtpLogins.LoginByOneLine | internal/mhalesmtpd/smtpd.go:861-892 | the same when the user comes with AUTH LOGIN and only the password on a line |
| SmtpLogins.PlainByOneLine | internal/mhalesmtpd/smtpd.go:894-920 | the same for AUTH PLAIN with NUL user NUL password on the next line |
| SmtpLogins.PlainAtOnce | internal/mhalesmtpd/smtpd.go:894-920 | and for AUTH PLAIN with these on its own line |
| SmtpLogins.CramMd5ByOneLine | internal/mhalesmtpd/smtpd.go:922-950 | the same for AUTH CRAM-MD5 and a line with user and digest |
| SmtpLogins.AuthAnswered | internal/mhalesmtpd/smtpd.go:680-702 | whatever the client sends, an AUTH is answered 235 if and only if the session is authenticated after it, when the hook gives no error |
| SmtpGuards.SessionGuarded | internal/mhalesmtpd/smtpd.go:384-542 | in every session: no password is asked about on a connection without TLS unless the configuration allows the mechanism so, none by a mechanism it forbids, none without the TLS it requires, and none after a login; no recipient is asked about and no body read or handed over but behind the TLS and login it requires; the recipient hook gets the sender of the transaction and the address on the line |
| SmtpGuards.ServedGuarded | internal/mhalesmtpd/smtpd.go:338-708 | the same over all of a session served to its end |
| SmtpGuards.AuthGuarded | internal/mhalesmtpd/smtpd.go:640-687 | AUTH keeps it, by any mechanism and whatever lines follow |
| SmtpGuards.UpgradeForgets | internal/mhalesmtpd/smtpd.go:599-639 | a completed STARTTLS leaves the login and the peer's address only: the transaction, the client's name and everything that came after STARTTLS in the clear are gone |
| SmtpLimits.MailWithSize | internal/mhalesmtpd/smtpd.go:398-416 | a MAIL that announces a size is answered 250 and sets the sender if and only if there is no limit or the size is within it; otherwise 552, or 501 beyond 64 bits, and the earlier sender stays |
| SmtpLimits.RcptAnswered | internal/mhalesmtpd/smtpd.go:443-460 | an RCPT in a transaction is answered 250 and adds its address at the end if and only if the limit, 100 by default, is not reached and the recipient hook, if there is one, agrees; otherwise 452 at the limit or 550, and nothing changes |
| SmtpLimits.TooLargeTurn | internal/mhalesmtpd/smtpd.go:474-490 | a body over the limit is answered 552: the transaction stays and the handler is not called |
| SmtpHandler.HandlerArguments | internal/mhalesmtpd/smtpd.go:384-542 | in every session the arguments of every handler call are a function of the lines read, the replies and the handler's earlier answers: the sender of the last MAIL answered 250, exactly the RCPTs answered 250 since, a Received header with the name of the last HELO or EHLO (none since a STARTTLS) and the first recipient, and the body just read; and behind exactly one login where one is required; the header's address, host and date are the environment's |
| SmtpHandler.ServedSession | internal/mhalesmtpd/smtpd.go:338-708 | the same, and the invariants of Reachable, for a session served to its end |
| SmtpHistory.DispatchTracked | internal/mhalesmtpd/smtpd.go:363-706 | every command keeps the session's sender, recipients and client name equal to what lines, replies and hook calls say they are |
| SmtpHistory.MailTracked | internal/mhalesmtpd/smtpd.go:384-424 | MAIL answered 250 sets the sender; a refused one keeps it; both drop the recipients, unless refused for TLS or login |
| SmtpHistory.BodyTracked | internal/mhalesmtpd/smtpd.go:474-542 | a body cut short, too large or refused by the handler leaves the transaction as it was; a delivered one ends it |
| SmtpInvariants.Reachable | internal/mhalesmtpd/smtpd.go:338-708 | in every reachable state: recipients imply a sender; a sender implies the login and the TLS the configuration requires; at most MaxRecipients recipients (0 meaning 100); exactly one successful login behind an authenticated session and none otherwise |
| SmtpInvariants.IterateKeeps | internal/mhalesmtpd/smtpd.go:351-707 | every turn keeps that invariant, whatever the line and the answers, and neither TLS nor a login is lost |
| SmtpInvariants.NeverReverts | internal/mhalesmtpd/smtpd.go:624-631 | TLS and authentication stay for the rest of the session |
| SmtpInvariants.AuthMeetsNoTransaction | internal/mhalesmtpd/smtpd.go:656-660 | where login is required an unauthenticated session never has an open transaction, so the reply for AUTH inside one is never given |
| SmtpPipelining.RepliesAlign | internal/mhalesmtpd/smtpd.go:351-707 | over any session, between commands every command has had exactly one completion reply, with 334 and 354 only in between, if and only if no TLS handshake has failed and no hook error was passed on that a client does not read as one final reply: one that is an intermediate reply, or ill-formed |
| SmtpUpsets.HandshakeUpsets | internal/mhalesmtpd/smtpd.go:599-622 | every session that begins with STARTTLS and whose handshake fails is out of step after it, and open |
| SmtpUpsets.AuthErrorUpsets | internal/mhalesmtpd/smtpd.go:680-697 | so is every session that begins with an AUTH PLAIN to which the hook gives an error that is no final reply |
| SmtpUpsets.HandlerErrorUpsets | internal/mhalesmtpd/smtpd.go:504-515 | and every session that begins with a letter which the handler refuses with an error that is passed on and is no final reply |
| SmtpUpsets.GoOnIsNotFinal | internal/mhalesmtpd/smtpd.go:504-515 | "354 go on" is such an error |
| SmtpUpsets.TwoLinesAreWhole | internal/mhalesmtpd/smtpd.go:690-697 | an error of two lines with one code is one whole reply |
| SmtpUpsets.RefusedAs250 | internal/mhalesmtpd/smtpd.go:504-515 | a message the handler refuses leaves the transaction open, and is answered with code 250 if and only if the error has the form of a reply and begins with 250 |
| SmtpPipelining.TameRepliesAlign | internal/mhalesmtpd/smtpd.go:351-707 | without TLS and with hooks whose errors are final replies, replies are always aligned |
| SubmissionReplies.SubmissionAligns | internal/smtpbridge/submit.go:41-134 | with the hooks of submit.go the submission server's replies are aligned in every session |
| SubmissionReplies.HookErrorsAreFinal | internal/smtpbridge/submit.go:73-134 | every error of mailHandler is passed on as it is and is a final reply with code 451, 530 or 554 |
| SmtpPipelining.DispatchCompletes | internal/mhalesmtpd/smtpd.go:363-706 | each command is completed by exactly one reply unless the connection ends, the handshake fails, or a hook's error is no final reply; with tame hooks and no TLS only the first can happen |
| SmtpRuns.Shrinks | internal/mhalesmtpd/smtpd.go:351-707 | every turn switches to TLS, uses up input or closes, so the loop ends |
| SmtpRuns.RunIsTurns | internal/mhalesmtpd/smtpd.go:351-707 | what the loop ends in is what some number of turns gives |
| SmtpRuns.RunExtends | internal/mhalesmtpd/smtpd.go:351-707 | what has happened after any number of turns, handler calls included, is the beginning of what has happened at the end |
| SmtpRuns.IterateExtends | internal/mhalesmtpd/smtpd.go:351-707 | no turn rewrites what has already happened |
| SmtpData.UnstuffsExactly | internal/mhalesmtpd/smtpd.go:772-803 | for every body that is empty or ends in LF, either terminator, whatever follows and any limit: reading the dot-stuffed body gives it back and leaves exactly what follows, if and only if it is within the limit (section 4.5.2 of RFC 5321) |
| SmtpData.ReadsBodies | internal/mhalesmtpd/smtpd.go:772-803 | whatever the input, what is read is empty or ends in LF and is within the limit, and what is left is a tail of the input |
| SmtpSyntax.MailReadsBack | internal/mhalesmtpd/smtpd.go:31-31 | MAIL FROM with any address without a line break parses back to that address, whatever brackets it holds |
| SmtpSyntax.RcptReadsBack | internal/mhalesmtpd/smtpd.go:30-30 | the same for RCPT TO and a non-empty address |
| SmtpSyntax.ReadsBack | internal/mhalesmtpd/smtpd.go:760-769 | a command word and its arguments, written with a space between, are split back into the two |
| SmtpEngine.Session.Serve | internal/mhalesmtpd/smtpd.go:338-708 | the session object runs to its end as the model's loop does: same state, same replies and hook calls in the same order |
| SmtpEngine.Session.Turn | internal/mhalesmtpd/smtpd.go:351-363 | one pass of the loop reads a line and carries it out, or ends the session |
| SmtpEngine.Session.ReadLine | internal/mhalesmtpd/smtpd.go:736-757 | takes one whole line off the input, or all of it when there is none |
| SmtpEngine.Session.ReadData | internal/mhalesmtpd/smtpd.go:772-803 | the line-by-line loop reads what ReadBody says and leaves what it says |
| SmtpEngine.Session.Hello | internal/mhalesmtpd/smtpd.go:366-383 | HELO and EHLO record the name and end the transaction |
| SmtpEngine.Session.MailCommand | internal/mhalesmtpd/smtpd.go:384-424 | MAIL: 530 while TLS or a login is missing; 501 or 552 for its parameters; 250 and the new sender otherwise; recipients dropped in all but the first case |
| SmtpEngine.Session.RcptCommand | internal/mhalesmtpd/smtpd.go:425-461 | RCPT: 530, 503 without a sender, 501, 452 at exactly the limit, 550 when the hook says no, else 250 and one more recipient at the end |
| SmtpEngine.Session.DataCommand | internal/mhalesmtpd/smtpd.go:462-490 | DATA: 530 or 503; else 354 and the body, with 421 and the end after a timeout, the end after a broken connection, 451 after the end of the input, 552 for a body over the limit, all leaving the transaction |
| SmtpEngine.Session.Handle | internal/mhalesmtpd/smtpd.go:492-542 | header and body go to the hook; a refusal is passed on if it has the form of a reply and keeps the transaction |
| SmtpEngine.Session.Rset | internal/mhalesmtpd/smtpd.go:546-555 | RSET ends the transaction with 250, or changes nothing with 530 when TLS is required and missing |
| SmtpEngine.Session.StartTls | internal/mhalesmtpd/smtpd.go:599-639 | STARTTLS: its refusals, the handshake, and what a completed one discards |
| SmtpEngine.Session.RefuseAuth | internal/mhalesmtpd/smtpd.go:640-678 | the reply when AUTH is not possible, and none exactly when it is |
| SmtpEngine.Session.HandleAuthPlain | internal/mhalesmtpd/smtpd.go:894-920 | PLAIN: a response is asked for with 334 only if none came along; it must be base64 of three NUL-separated parts, of which the hook judges the second and third |
| SmtpEngine.Session.HandleAuthLogin | internal/mhalesmtpd/smtpd.go:861-892 | LOGIN: asks for the user unless it came along, and always for the password; both must be base64; which of the two is which is said by LoginByTwoLines and LoginByOneLine |
| SmtpEngine.Session.HandleAuthCramMd5 | internal/mhalesmtpd/smtpd.go:922-950 | CRAM-MD5: one challenge; `*` cancels; the answer must be base64 of at least two words, of which the hook judges the first two |
| SmtpEngine.Session.FinishAuth | internal/mhalesmtpd/smtpd.go:680-702 | 235 and authenticated, 535, the exchange's own reply, or 421 and the end after a timeout |
| SubmissionProtocol.EachUnderItsOwnLogin | internal/smtpbridge/submit.go:41-79 | over every interleaving, with connections dropped at any point, their sessions finishing what they were doing, and addresses reused once no session with that address runs any more: a session that has logged in finds its own client in the map, and every message goes out under the client its own session authorised; so the 530 of mailHandler is never given |
| SubmissionSchedules.SafeExactlyWhenApart | internal/smtpbridge/submit.go:41-79 | the exact condition: for every feasible schedule of connections made, connections lost and sessions ended, all runs with that schedule send each message under its own session's login if and only if no connection comes from the address of a session that still runs |
| SubmissionSchedules.FeasibleExactlyWhenRun | internal/smtpbridge/submit.go:41-79 | the feasible schedules are exactly those that runs have |
| SubmissionRaces.Overtaken | internal/smtpbridge/submit.go:53-69 | from any state in which a session waits for the answer to its login, a connection from the same address can have its letter sent under that session's client |
| SubmissionProtocol.RunKeeps | internal/smtpbridge/submit.go:41-79 | the invariant behind it: each running session's own token is in place, and all sendings so far were rightful |
| SubmissionRaces.LateLoginTakesOver | internal/smtpbridge/submit.go:53-69 | for any two logins and any letter there is a run in which the address of a dropped connection is reused while its login is still being checked, and the second session's letter goes out under the first one's client |
| SubmissionProtocol.UndroppedIsApart | internal/smtpbridge/submit.go:41-79 | the premise holds in every run in which no connection goes before its session has ended |
| SubmissionHooks.Server.AuthHandler | internal/smtpbridge/submit.go:41-71 | true exactly when the address is not blocked, or logins are not limited, and the API authorises; only then is the token stored; what the limiter records, and that other addresses are not affected |
| SubmissionHooks.Server.MailHandler | internal/smtpbridge/submit.go:73-134 | no error if and only if the address has a client, the message is well formed and the API took it; then it went out under that client, and otherwise nothing went out; the error in each case |
| SubmissionReplies.ErrorReads | internal/smtpbridge/submit.go:73-134 | the code of each error: 530 without a client, 451 for bad data and when the API does not answer, 554 for a rejection, with 5.7.1 exactly when it is a denial |
| SubmissionReplies.ClientReads | internal/smtpbridge/submit.go:73-134 | and that is what the client reads at the end of its DATA; 250 exactly when there is no error |
| SubmissionHooks.AttemptIsSteps | internal/smtpbridge/submit.go:41-68 | what authHandler leaves in the limiter is what the limiter's protocol leaves after a check and, if that admits, a success or a failure |
| LoginProtocol.FailureBound | internal/loginlimit/loginlimit.go:55-95 | from a clean record, over every interleaving without a success, at most 4 + k failures are recorded for an address with at most k concurrent logins until its block expires |
| LoginProtocol.FailureBoundReached | internal/loginlimit/loginlimit.go:55-95 | for every k some run records 4 + k, so the bound is exact |
| LoginProtocol.FifthFailureBlocks | internal/loginlimit/loginlimit.go:55-84 | from a clean record, over every interleaving without a success: after one to four failures the next login is admitted; after the fifth it is admitted if and only if its clock reading is five minutes past that failure |
| LoginProtocol.BlockHolds | internal/loginlimit/loginlimit.go:60-66 | while an address is blocked no login from it is admitted, whatever others are still finishing |
| LoginProtocol.ExpiryAdmits | internal/loginlimit/loginlimit.go:60-68 | over any run without a success or an admission since the address was blocked, it is still blocked, with an expiry no earlier than before; the next login is admitted, with a clean record, exactly if its clock reading is at or past that expiry, and is otherwise refused and changes nothing |
| LoginProtocol.AlwaysSane | internal/loginlimit/loginlimit.go:73-84 | in every world there can be, no block outlasts the clock by more than five minutes, as the two results on blocks assume |
| LoginProtocol.Isolated | internal/loginlimit/loginlimit.go:55-95 | an address ends up as if no other address had ever logged in |
| LoginLimit.Tracker.Allowed | internal/loginlimit/loginlimit.go:55-70 | refuses exactly while blocked, clears an expired block, leaves other addresses alone |
| LoginLimit.Tracker.RecordFailure | internal/loginlimit/loginlimit.go:73-84 | counts, and blocks for five minutes at the fifth failure |
| LoginLimit.Tracker.RecordSuccess | internal/loginlimit/loginlimit.go:87-95 | clears the record |
| MailboxNames.ParseCanonical | internal/imapbackend/names.go:135-194 | parsing the canonical name of any standard mailbox, folder or tag gives that mailbox back |
| MailboxNames.ParsesExactly | internal/imapbackend/names.go:135-171 | a name is read as a mailbox if and only if, trimmed and in lower case, it spells it: one of the standard words, spam for Junk among them, or folder- or tag- and an integer |
| MailboxNames.SpecCacheKeyInjective | internal/imapbackend/names.go:11-16 | different mailboxes have different cache keys |
| MailboxNames.SanitizedIsLabel | internal/imapbackend/names.go:18-42 | a label has no separators or control characters and at most 200 bytes, and is trimmed unless it was cut |
| MailboxNames.SanitizeIMAPMailboxName | internal/imapbackend/names.go:18-42 | the rune loop computes that label |
| NameIndex.CandidatesDiffer | internal/imapbackend/names.go:72-115 | the names tried for an entry are pairwise distinct |
| NameIndex.TakenBound | internal/imapbackend/names.go:72-115 | so a free one is among the first number-of-taken-names + 1 |
| NameIndex.Occupied.Unique | internal/imapbackend/names.go:72-115 | the probing loop ends, with the first free candidate, now taken as well |
| NameIndex.NamesUnique | internal/imapbackend/user.go:125-160 | over a whole rebuild the listed names are pairwise distinct and distinct from the standard names |
| NameIndex.ListedNameKept | internal/imapbackend/user.go:125-160 | a listed name keeps its entry's mailbox in the finished index if and only if no later entry has that name as its alias |
| NameIndex.StandardKept | internal/imapbackend/user.go:125-160 | the six standard names always keep theirs |
| NameIndex.AliasCanTakeName | internal/imapbackend/user.go:148-151 | two folders of which the second's alias takes the first one's listed name |
| NameResolution.ListedResolves | internal/imapbackend/user.go:206-228 | what the order of attempts finds for a listed name that trimming leaves alone is its own mailbox if and only if: spelled folder-integer, it is its own alias but for case; otherwise no later alias took it |
| NameResolution.ListedTrimmed | internal/imapbackend/names.go:18-42 | trimming leaves a listed name alone whenever its title was not cut |
| NameResolution.CutTitleIsLost | internal/imapbackend/names.go:38-41 | listed alone, a title of 199 letters, a space and more is listed under a name that matches nothing when looked up |
| NameResolution.ImapMailboxLeaf | internal/imapbackend/names.go:46-59 | the loop finds the last non-blank segment |
| NameResolution.PathLeaf | internal/imapbackend/names.go:46-59 | whatever is before it, the segment after the last slash or backslash is the leaf |
| ListedNames.PathResolves | internal/imapbackend/user.go:231-252 | a name with a separator never resolves as a whole, whatever is listed; it takes one request for the folders and tags, after which its last segment resolves as it does alone |
| ListedNames.ListedPathResolves | internal/imapbackend/user.go:231-252 | so under any parent a listed name that trimming leaves alone leads to its own mailbox if and only if the condition of ListedNamesResolve holds |
| ImapUser.ListedResolvesOnce | internal/imapbackend/user.go:206-228 | through one attempt of the resolver, a listed name that trimming leaves alone gives its own mailbox if and only if the condition of ListedResolves holds |
| ListedNames.ListedNamesResolve | internal/imapbackend/user.go:182-252 | through the whole resolver, while the API lists the same or does not answer, every listed name leads to its own mailbox if and only if: trimming leaves it alone and the condition of ListedResolves holds; or trimming turns it into a spelling of its own folder alias; or into its own tag alias, which no later entry was listed under |
| ListedNames.TrimmedOpensAnother | internal/imapbackend/user.go:182-252 | a listed name that trimming turns into another listed name resolves to the very mailbox that one resolves to, its own or not |
| ListedNames.ListedOutcome | internal/imapbackend/user.go:182-252 | a listed name that trimming leaves alone has one outcome, whatever the API answers |
| ListedNames.CutTitleOpensAnother | internal/imapbackend/user.go:182-252 | two folders of which the first one's listed name opens the second |
| ListedNames.CutTitleOpensOwn | internal/imapbackend/user.go:182-252 | a folder whose cut title is its own alias and spaces, which meets the condition |
| NameIndex.AliasExact | internal/imapbackend/user.go:145-158 | an alias leads to its own mailbox if and only if no later entry was listed under it |
| NameIndex.OwnKeys | internal/imapbackend/user.go:145-158 | in the finished index only its listed name and its alias lead to an entry's mailbox |
| ImapUser.IndexedHits | internal/imapbackend/user.go:206-228 | a name in the index resolves without a request |
| ImapUser.User.RebuildMailboxNameIndex | internal/imapbackend/user.go:125-160 | the two loops build the index and the names of the listing function; what is listed is what ListingShows says |
| ImapUser.ListingShows | internal/imapbackend/user.go:145-158 | the folders are listed in the order of the API, each for the folder with its id, and then the tags, each for the tag with its id and under a name that begins with Tag-; a plain title is the name, or its beginning if an earlier name is the same; an empty or reserved one makes way for Folder-id or Tag-id |
| NameResolution.ListedNamedAfter | internal/imapbackend/names.go:72-115 | a listed name is what is tried first unless an earlier name is the same, and always begins with it |
| ImapUser.User.RefreshFolderTagNameIndex | internal/imapbackend/user.go:168-179 | an answer rebuilds the index, no answer leaves it alone |
| ImapUser.User.ResolveFromIndex | internal/imapbackend/user.go:182-203 | a name in the index is found without asking the API; otherwise the index is refreshed and the name looked up, then ignoring case |
| ImapUser.User.ResolveMailboxSpecOnce | internal/imapbackend/user.go:206-228 | one candidate, in every case: a blank one fails; a name starting with tag- is looked up first and read as Tag-id only if the index has nothing for it; any other name is read first and looked up only if it cannot be read; a lookup that misses refreshes the index, with one request, and tries again, then ignoring case |
| ImapUser.User.ResolveMailboxSpec | internal/imapbackend/user.go:231-252 | the whole name and then, only if that fails and it is another name, its last segment, in the index the first attempt left; and the number of requests that takes |
| ImapUser.ReadResolves | internal/imapbackend/user.go:206-252 | a name that can be read and does not start with tag-, like Trash or folder-12, resolves to what it says, with no request |
| ImapUser.UnlistedTagResolves | internal/imapbackend/user.go:206-228 | Tag-id is read as that tag when the index has nothing for it, after one request |
| ImapUser.User.LoadSummaries | internal/imapbackend/mailbox.go:681-736 | returns a list in an array of the caller's own: the one cached for this very mailbox if under 45 seconds old, otherwise what the pages add up to, which is then cached; it fails, and caches nothing, if and only if nothing usable is cached and one of the pages asked for is such as LoadFailsExactly says |
| ImapUser.UnansweredCachesNothing | internal/imapbackend/mailbox.go:703-706 | when one of the pages asked for is not answered the load fails and the cache stays as it was |
| ImapUser.CachedFor45Seconds | internal/imapbackend/mailbox.go:681-691 | a fetched list is used for 45 seconds from when it was stored and then asked for again; no other mailbox's list is touched |
| ImapUser.User.Remember | internal/imapbackend/mailbox.go:732-735 | caches a copy, so callers that sort their array cannot disturb it |
| ImapUser.User.Undisturbed | internal/imapbackend/mailbox.go:681-736 | nothing done to other arrays or to the name index changes what the cache holds |
| ImapUser.User.InvalidateSpec | internal/imapbackend/user.go:74-78 | drops one mailbox's list and no other |
| ImapUser.User.InvalidateFolderTagListCaches | internal/imapbackend/user.go:80-88 | drops exactly the lists of folders and tags |
| ImapUser.SameMailbox | internal/imapbackend/names.go:11-16 | two mailboxes with the same cache key are the same |
| ImapUser.User.FetchPages | internal/imapbackend/mailbox.go:692-730 | the page loop computes Load, in exactly the requests Requests says, at most 500; it fails if and only if one of the pages asked for is such as LoadFailsExactly says |
| Pager.LoadIsFirstPages | internal/imapbackend/mailbox.go:692-730 | whatever the server answers, a load is pages 1..k in order for some k of at most 500 |
| Pager.LoadFailsExactly | internal/imapbackend/mailbox.go:692-716 | a load fails if and only if one of the pages asked for is not answered, or page 1 is no list, or a later page is no list while nothing has been loaded |
| Pager.LoadsWholeList | internal/imapbackend/mailbox.go:692-730 | from a server that pages a list in non-empty pages and reports its length or nothing, the load succeeds and is a beginning of the list, all of it unless 500 pages or maxList mails were reached |
| SeqSets.ChecksRfc3501 | internal/imapbackend/mailbox.go:659-677 | for a number in use the check decides what section 9 of RFC 3501 says, with `*` and with `n:*` for n above the largest |
| SeqSets.SelectedIsRfc3501 | internal/imapbackend/mailbox.go:645-677 | in a sorted mailbox with distinct ids in 1..2^32-1 a command reaches exactly the messages section 9 of RFC 3501 names, by position or by id |
| SeqSets.StarIsLast | internal/imapbackend/mailbox.go:659-677 | `*` selects the last message and no other, by position and by id |
| SeqSets.MailboxMaxSeqAndUid | internal/imapbackend/mailbox.go:645-654 | the loop finds the largest position and uid |
| MailboxPlans.TriedIsPrefix | internal/imapbackend/mailbox.go:425-622 | the requests made are a prefix of the plan, all accepted but possibly the last; the whole plan exactly when none was refused |
| MailboxPlans.PlanAscends | internal/imapbackend/mailbox.go:431-449 | a plan names addressed messages only, in ascending order of ids |
| MailboxPlans.TransfersRfc3501 | internal/imapbackend/mailbox.go:540-619 | COPY and MOVE plan one request for each message section 9 of RFC 3501 names, for no other, in ascending order |
| MailboxResults.ToTag | internal/imapbackend/mailbox.go:526-619 | a request is in the plan of a COPY or MOVE to a tag if and only if it is move-to-tag of an addressed message, with the tag's id and the page of the source |
| MailboxResults.ToFolder | internal/imapbackend/mailbox.go:526-619 | for a folder: move-to-folder, with the folder's id |
| MailboxResults.ToTrash | internal/imapbackend/mailbox.go:600-604 | for MOVE to the trash: delete, without a value |
| MailboxOutcomes.Nowhere | internal/imapbackend/mailbox.go:549-619 | to any other standard mailbox nothing is requested, and the command fails if it addresses a message; for COPY the trash is one of these |
| MailboxResults.StoreRequests | internal/imapbackend/mailbox.go:455-490 | a request is in the plan of a STORE if and only if flags are added or set and it marks an addressed message read for \Seen, deletes it for \Deleted or marks it important for \Flagged |
| MailboxOutcomes.RequestsHere | internal/imapbackend/mailbox.go:425-622 | every request such a command has made names the page of the mailbox it was given in |
| MailboxResults.PageOf | internal/imapbackend/names.go:265-294 | the page of each standard mailbox and of every folder and tag |
| MailboxResults.PageIdInjective | internal/imapbackend/names.go:265-294 | different mailboxes are on different pages |
| MailboxResults.TrashRfc3501 | internal/imapbackend/mailbox.go:570-622 | a MOVE to the trash that succeeds has had deleted exactly the messages section 9 of RFC 3501 names, one that fails none but those |
| MailboxResults.TransferDeletesNothing | internal/imapbackend/mailbox.go:526-622 | no other MOVE and no COPY has anything deleted |
| MailboxOutcomes.WaitsAfterStore | internal/imapbackend/mailbox.go:455-490 | after a STORE that succeeds, what waited for EXPUNGE waits, and with it the named messages if \Deleted was added or set; without them if it was taken off |
| MailboxCommands.StoreRfc3501 | internal/imapbackend/mailbox.go:425-490 | a STORE that sets \Deleted and succeeds has had deleted exactly the messages section 9 of RFC 3501 names |
| MailboxCommands.StoreDeletes | internal/imapbackend/mailbox.go:455-490 | a STORE that succeeds has had deleted exactly the addressed messages if it sets \Deleted, and none otherwise |
| MailboxCommands.StoreSpares | internal/imapbackend/mailbox.go:425-490 | whether it succeeds or fails, a STORE has nothing deleted but addressed messages, and nothing at all without \Deleted or when taking flags off |
| MailboxCommands.SortById | internal/imapbackend/mailbox.go:431-431 | sorts the array in place by id and keeps its elements |
| MailboxCommands.Mailbox.ApplyFlagOp | internal/imapbackend/mailbox.go:455-490 | the flags' requests in order until one is refused; what waits for EXPUNGE afterwards |
| MailboxCommands.Mailbox.ActOnEach | internal/imapbackend/mailbox.go:433-449 | the loop carries out the plan for the sorted list until a refusal |
| MailboxCommands.Mailbox.UpdateMessagesFlags | internal/imapbackend/mailbox.go:425-453 | STORE: the plan on the loaded list, requested right after the load; after a success this mailbox is not cached; every message waiting for EXPUNGE had its deletion accepted |
| MailboxCommands.Mailbox.CopyMessages | internal/imapbackend/mailbox.go:526-566 | COPY: the destination is what the resolver makes of the name, the plan is requested right after that and the load; an impossible destination fails at the first addressed message, with no request; nothing leaves the cache |
| MailboxCommands.Mailbox.MoveMessages | internal/imapbackend/mailbox.go:570-622 | MOVE: the destination is what the resolver makes of the name; nothing more if that is the mailbox itself; else the plan on the loaded list; to the trash, after a success exactly the messages section 9 of RFC 3501 names have been deleted; after a success neither source nor destination is cached, after a failure both are as the load left them |
| MailboxCommands.Mailbox.Expunge | internal/imapbackend/mailbox.go:624-643 | asks once for each waiting message, until a refusal; exactly those accepted stop waiting; success if and only if none waits |
| LineSplitting.WritesLossless | internal/protocollog/writer.go:31-57 | over any sequence of writes the lines taken, with their terminators, and the buffer spell out every byte written, and the buffer holds no LF |
| LineSplitting.CutIndependentExactlyWhenUnmixed | internal/protocollog/writer.go:31-57 | the lines do not depend on how the stream is cut into writes if and only if the stream has no bare LF before a CRLF |
| LineSplitting.UnmixedWrites | internal/protocollog/writer.go:31-57 | then they are the lines that splitting at every LF gives |
| LineSplitting.ByteWrites | internal/protocollog/writer.go:31-57 | written one byte at a time, any stream is split at every LF |
| LineSplitting.DrainFewer | internal/protocollog/writer.go:31-57 | one write never takes more lines than splitting at every LF gives, and takes fewer when a bare LF comes before a CRLF |
| LineWriterModel.LineWriter.Write | internal/protocollog/writer.go:31-57 | the loop ends, takes off the buffer the lines that draining it gives, logs each, and reports every byte as written |
| LineWriterModel.LineWriter.EmitLine | internal/protocollog/writer.go:59-68 | logs the trimmed line, cut after 8192 bytes, or nothing if it is blank |
| LineLog.LogIndependentExactlyWhenQuiet | internal/protocollog/writer.go:31-68 | the log does not depend on how the stream is cut into writes if and only if no run of lines ended by bare LFs and closed by one ended by CRLF holds more than one that is not blank |
| LineLog.DrainShows | internal/protocollog/writer.go:31-68 | one write logs what splitting at every LF would, if all runs are such, and fewer entries otherwise |
| Rfc822.WrappedRoundTrip | internal/imapbackend/rfc822.go:157-170 | for all octets: the text is CRLF-terminated lines of 1 to 76 letters, all but the last of 76 (section 6.8 of RFC 2045), and decoding it gives the octets back (section 4 of RFC 4648) |
| Rfc822.WriteMIMEBase64Lines | internal/imapbackend/rfc822.go:157-170 | the loop over the encoded buffer appends exactly that text |
| Base64.DecodeEncode | internal/imapbackend/rfc822.go:157-161 | decoding undoes encoding, for all octets |
| Base64.EncodeRfc4648 | internal/imapbackend/rfc822.go:157-161 | three octets become the letters, in the alphabet of section 4 of RFC 4648, of the four sextets of one 24-bit number |
| Base64.EncodeEndRfc4648 | internal/imapbackend/rfc822.go:157-161 | one or two octets at the end are filled up with zero bits, and the text with `=` |
| Base64.EncodeDecode | internal/mhalesmtpd/smtpd.go:906-909 | only text that is an encoding, but for line breaks and the unused bits of the last letter, is decoded, and it is the encoding of what it decodes to |

## Left out

- Text is ASCII where it is trimmed, folded to one case or searched for control characters; the code uses Unicode's notions. A character stands for a byte, so a label cut at 200 bytes inside a rune is not told apart.
- Reply texts, except a hook's error passed on as it is: a reply is its code and enhanced status code. The lines of the EHLO answer are one 250.
- Sockets, deadlines, write errors, TLS itself and reverse DNS: they appear as answers of `Env`. XCLIENT parsing too: the peer it leads to is an answer. How many buffered bytes are dropped after a message that is too large, or eaten by a failed handshake, is any number.
- An AuthHandler error that is itself a network timeout: mailbridge's own hook returns no error.
- The session's loop variables `from`, `gotFrom`, `to` and `buffer` are fields of the session object, and VRFY and EXPN share the verb of HELP, whose answer they have.
- `Server.Shutdown` and `Close`, connection counting and the listener.
- Parsing of outgoing messages, recipient normalisation, and the choice between a new message and a reply: parameters of `SubmissionHooks.Server.MailHandler`.
- SubmissionProtocol.EachUnderItsOwnLogin: hook calls take effect one at a time, in the order each session makes them; reading and writing the map are single steps, as the mutex makes them; and no connection comes from the address of a session that still runs; `SubmissionSchedules.SafeExactlyWhenApart` shows that condition to be exact.
- The index lookup that ignores case takes some matching name; which one depends on map order in the code as well.
- Lists fetched while another goroutine invalidates: the cache is modelled for calls that follow one another, except that the times of the check and of the store differ.
- MailboxCommands.SortById: what the sort leaves is modelled, not the library's algorithm; messages with equal ids may come in any order.
- The loop that STORE, COPY and MOVE share is written once, with what it does for a message as a parameter.
- MailboxCommands.Mailbox.Expunge: ids that arrive in the set while it goes through them are not modelled.
- Creating, deleting and renaming mailboxes beyond the cache entries they drop; Status, Search, Fetch and append.
- The building of messages around the base64 lines, header texts, dates, content types; log redaction of IMAP LOGIN lines.
