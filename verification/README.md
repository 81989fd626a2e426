# A verified model of the IRC server

The repository is an IRC server in C++98: one process, a `poll` loop, three maps of clients and
channels, and one handler per command. This project models its in-memory behaviour, from the bytes that
`recv` returns to the bytes that `send` takes, and proves what the code keeps true over any run.

## How it is built

The model has two layers.

* **The specification, on values.** `Model.State` is the server as a value: live clients and their records, the
  fd map, the nick map, the channels with their modes and three client sets. `Commands` says what each
  command does to it and what it answers, `Mode` is the mode-string interpreter as a recursive
  function, `Parser` is the meaning of a line, `Framing` the batch form of line cutting, and
  `Runs` the steps of the server (accept, line, disconnect) and its runs. The theorems are about this layer.
* **The code, on the heap.** `Client`, `ChannelModes`, `Channel`, `ServerState` and `Server` are classes with
  the fields of their C++ originals; clients are shared by reference between the maps and the
  channels' sets. Handlers are methods with the branches and loops of the source, split only where one source
  function is long. Each ensures that the new `View()` of the heap and the replies are what the
  specification gives for the old `View()`. `Servers.Server` keeps a ghost trace and one
  account per connection, and its invariant says that the state is where the trace leads, that the
  receive buffer and the processed lines are the framing of all bytes received, and that the
  bytes sent and the send buffer are all replies addressed to the connection, in order.

A reply is kept as the `ReplyBuilder` call that makes it (`Replies.Body`) until it is queued; `Replies.Wire` is its text.

| file | models |
|---|---|
| `Text.dfy` | splitting, gluing, character classes, `atoi` |
| `Parser.dfy` | `src/Parser.cpp` |
| `Clients.dfy`, `Channels.dfy` | `src/Client.cpp`, `src/Channel.cpp`, `src/ChannelModes.cpp`, the order of a `std::set` |
| `Replies.dfy` | `src/ReplyBuilder.cpp` |
| `Model.dfy`, `Commands.dfy`, `Mode.dfy` | the specification of state, commands and the MODE loop |
| `Reading.dfy` | how a MODE announcement is read, and when that is what was done |
| `Walk.dfy` | what an operator's MODE comes to, position by position, without the interpreter |
| `Safety.dfy` | every command keeps the invariant; authority |
| `Answers.dfy`, `Names.dfy`, `Delivery.dfy`, `Laws.dfy` | what is answered, to whom, and how it reads back |
| `Wire.dfy` | what every line reads as: message and sender |
| `Gate.dfy` | what a connection can do before it is registered |
| `Outcomes.dfy` | when each command takes effect, and which numeric refuses it otherwise |
| `Runs.dfy`, `Witnesses.dfy` | theorems over whole runs, and concrete runs |
| `ServerState.dfy`, `Handlers.dfy`, `JoinKick.dfy`, `ModeHandler.dfy`, `Dispatcher.dfy` | `src/ServerState.cpp`, `src/handle*.cpp` and `src/CommandDispatcher.cpp` on the heap |
| `Framing.dfy`, `Books.dfy`, `Server.dfy` | the buffers, the poll list and the event functions of `src/Server.cpp` |

## What is not quite as one might expect

These hold of the code and are proved or modelled as such.

* MODE announcements do not always read back. A reader is taken to parse lines by the grammar the server itself uses.
  Exactly when the last parameter of the message is empty, has a space or starts with a colon, and some position of the mode
  string takes and announces it (as +k, or as +l with a positive number), what is read is not what was done
  (`Reading.Readable`, `Answers.ModeReadsIff`): the line reads as nothing, or as the same changes with another last parameter. An operator
  change never causes this, because nicks need no colon. After a concrete run the line `MODE #c +k :` leaves every member without
  the key, and `MODE #c +k ::x` with the key `x` where the channel has `:x` (`Witnesses.LossIsReachable`). A copy of the modes can be right
  all the same, when nothing is read and nothing was changed, the key is taken away again, or the limit has the same number; the theorems about following the modes over runs say
  exactly when (`Runs.Followable`, `Reading.Harmless`).
* Printing a parsed message and parsing it again gives the same message except when its command starts with
  a colon (`Parser.ReparseIff`, `Parser.ColonLine`).
* Nicks and channel names are compared case-sensitively; an invitation is not used up by JOIN; NICK and a disconnect are not
  broadcast; a channel that loses its last operator never gets another one; a 15th parameter without a
  colon takes one word only; setting the nick one already has succeeds. Sections 2.3.1 and 4.2 of RFC 1459 say otherwise in places;
  the model follows the code.
* `std::set<Client*>` is walked in the order of addresses; a client object has an address `addr` for
  this, and objects alive at the same time have different ones.

## Model

| member | source | states |
|---|---|---|
| `Text.SplitGlue` | src/CommandDispatcher.cpp:58-69 | cutting at commas undoes gluing, on pieces without a comma |
| `Text.GlueSplit` | src/CommandDispatcher.cpp:58-69 | gluing the pieces gives the string back, for every string, and no piece has a comma |
| `Text.AtoiDecimal` | src/handleMode.cpp:126 | a number is read after white space and at most one sign, up to the first character that is no digit; its value is the decimal one, or 0 where there is no digit |
| `Handlers.SplitByComma` | src/CommandDispatcher.cpp:58-69 | the loop over `start` and `result` computes that cut |
| `Parser.Parse` | src/Parser.cpp:20-67 | the loops over `pos` give the meaning of the line: prefix, command, up to 15 parameters, trailing |
| `Parser.ScanParams` | src/Parser.cpp:46-65 | the parameter loop returns the parameters of the rest of the line |
| `Parser.ToUpper` | src/Parser.cpp:13-18 | the in-place loop upper-cases every character |
| `Parser.ParsedWellFormed` | src/Parser.cpp:20-67 | for every line: at most 15 parameters, all but the last non-empty, space-free and without leading colon, the command upper-case and space-free |
| `Parser.ParsedWithout` | src/Parser.cpp:20-67 | a character that is not in the line is in no parameter, so stored strings never contain a newline |
| `Parser.RoundTrip` | src/Parser.cpp:20-67 | parsing a printed message gives the message, for every well-formed message whose command has no leading colon |
| `Parser.ParsedWritten` | src/Parser.cpp:20-67 | a line written with or without prefix, a command in any case, words with any spaces between them and an optional last parameter behind a colon is read as just that; only the first 15 parameters count |
| `Parser.ReparseIff` | src/Parser.cpp:30-35 | printing and parsing a parse result is the identity exactly when the line, after its prefix if it has one, does not start with a colon |
| `Parser.ColonLine` | src/Parser.cpp:30-41 | a line for which it is not: `:p :q` parses to a message that prints to a line without a command |
| `Clients.Client.TryRegister` | src/Client.cpp:46-53 | registers, and says so, exactly when the record is complete and was not registered |
| `Clients.OrderExact` | src/CommandDispatcher.cpp:79-87 | walking a client set visits every element exactly once |
| `Channels.Contains` | src/Channel.cpp:87-110 | the iterator loop of the three queries finds the client exactly when it is in the set |
| `Channels.Channel.RemoveClient` | src/Channel.cpp:75-84 | takes the client out of all three sets, touches nothing else, and reports whether it was in any |
| `Channels.Channel.AddMember` | src/Channel.cpp:38-44 | adds the member and reports whether it is new |
| `Channels.Channel.AddOperator` | src/Channel.cpp:46-52 | adds the operator and reports whether it is new |
| `Channels.Channel.AddInvitedMember` | src/Channel.cpp:54-60 | adds the invitation and reports whether it is new |
| `Channels.Channel.RemoveOperator` | src/Channel.cpp:67-69 | takes the operator out and reports whether it was one |
| `Channels.ChannelModes.UnsetChannelProtected` | src/ChannelModes.cpp:70-73 | unprotecting also empties the key |
| `Replies.WireFramed` | src/ReplyBuilder.cpp:4-90 | every reply built from newline-free strings is one line: its only newline is its last character |
| `Replies.WireVerb` | src/ReplyBuilder.cpp:4-90 | the second word of every reply identifies its kind |
| `Model.RemoveClientExact` | src/ServerState.cpp:39-58 | removing a client frees fd and nick, takes it out of every channel's three sets, drops exactly the channels it was alone in, and leaves everything else as it was |
| `Model.ReusedFdStartsClean` | src/ServerState.cpp:23-58 | a reused fd has no nick, membership, operator status or invitation, even if the object's address is reused |
| `Model.AddClientInv` | src/ServerState.cpp:23-37 | accepting keeps the global invariant |
| `Model.RemoveClientInv` | src/ServerState.cpp:39-58 | removing keeps the global invariant |
| `Model.UpdateNicknameInv` | src/ServerState.cpp:60-78 | changing a nick keeps the nick map a bijection with the clients that have one |
| `Model.NamesDisjoint` | src/handleNick.cpp:18-30 | no string is both a valid nick and a valid channel name |
| `Model.NickExact` | src/handleNick.cpp:11-30 | a nick is valid exactly when it is not empty, has only ASCII letters, digits, dashes and the nine listed characters, and does not start with a digit or a dash |
| `Model.ChannelNameExact` | src/handleJoin.cpp:11-26 | a channel name is valid exactly when it is a # and at least one more character, and none is a space, a control character, a comma or a colon |
| `Model.DeliverExact` | src/CommandDispatcher.cpp:79-87 | a broadcast reaches every element of the set but the excluded one exactly once and nobody else |
| `Mode.InterpretConcat` | src/handleMode.cpp:72-184 | running `a + b` is running `a`, then `b` with the sign and the cursor `a` left |
| `Mode.CursorStays` | src/handleMode.cpp:66-163 | the parameter cursor never moves back and never passes the end |
| `Mode.FlagsAreLastSign` | src/handleMode.cpp:84-102 | the final i and t flags are the sign in force at the last such letter, or the old value |
| `Mode.InterpretFrame` | src/handleMode.cpp:72-184 | only modes and operators change, every operator stays a member, an unprotected channel has an empty key, a limit is positive |
| `Mode.InterpretReplies` | src/handleMode.cpp:143-170 | the loop answers only the sender, only with 401, 441 and 472 |
| `Mode.ReplayFaithful` | src/handleMode.cpp:72-184 | applying the recorded changes to the old channel gives the new channel, whatever the parameters are |
| `Reading.DecodeLetters` | src/handleMode.cpp:172-181 | runs of signs and letters decode, with any parameters, to the changes they were written for with these parameters, when there are as many as were announced, and to nothing otherwise |
| `Reading.AnnouncementIff` | src/handleMode.cpp:172-188 | read by the grammar of lines, an announcement with at most 13 parameters reads back as its changes exactly when every announced parameter is non-empty, space-free and without leading colon |
| `Reading.AnnouncementLength` | src/handleMode.cpp:172-182 | an announcement that reads back has one letter for each change, a sign only where it turns, one space before each parameter, and nothing else |
| `Mode.InterpretGrants` | src/handleMode.cpp:140-152 | whoever the loop makes an operator, some position of the mode string has named under +o |
| `Walks.WalkAgrees` | src/handleMode.cpp:64-184 | after any number of characters of the mode string, sign, cursor, modes, operators, announced changes and answers are those of a closed form over positions that does not call the interpreter |
| `Walks.ModeExact` | src/handleMode.cpp:58-191 | for any MODE by an operator: the modes are those after the last position, nothing but modes and operators changes, a member operates the channel exactly as the last o that takes its nick says, and every connection hears the answers, if it is the sender's, and the announcement of all changes once, if it is a member's |
| `Walks.LastNameDecides` | src/handleMode.cpp:140-163 | whether a member operates the channel is decided by the sign at the last o that takes its nick, +o and -o alike |
| `Walks.LastKeyDecides` | src/handleMode.cpp:104-120 | the last +k with a parameter, or -k with a key to take away, decides whether there is a key and which |
| `Walks.LastLimitDecides` | src/handleMode.cpp:122-138 | the last +l with a positive number, or -l, decides whether there is a limit and which |
| `Reading.AsReadWords` | src/handleMode.cpp:172-188 | what a reader makes of an announcement: its changes with the parameters it finds, when it finds as many as were announced, and nothing otherwise |
| `Reading.ReadableIff` | src/handleMode.cpp:72-184 | the announcement of a parsed MODE reads back as the changes made exactly when its last parameter is non-empty, space-free and without leading colon, or there is none, or no position of the mode string takes and announces it |
| `Reading.CopyRightIff` | src/handleMode.cpp:72-184 | a reader's copy of the modes is right exactly when the message is readable, or nothing is read and nothing changed, or the key that is misread is taken away again, or the limit that is misread is the same number; otherwise the copy stays as it was, or is wrong in the key alone or the limit alone |
| `Reading.OddWords` | src/handleMode.cpp:172-188 | of an announcement whose last parameter alone needs a colon, a reader that finds as many parameters as were announced finds all but the last, and another last one |
| `Reading.OddTrack` | src/handleMode.cpp:104-138 | applying some changes with another last parameter gives the same modes exactly when that is a key that is taken away again or a limit of the same number, and differs in that field alone |
| `Safety.JoinManyKeeps` | src/handleJoin.cpp:119-141 | a JOIN of any list keeps the invariant and only enters channels that admit the sender or creates new ones |
| `Safety.KickExact` | src/handleKick.cpp:85-87 | KICK by an operator removes exactly the listed members up to and including the kicker; nothing after a self-kick has any effect, even when it deleted the channel |
| `Safety.KickEquation` | src/handleKick.cpp:61-89 | KICK as one equation: the victims at once, or nothing when the sender is not an operator |
| `Safety.ExecuteKeeps` | src/CommandDispatcher.cpp:29-55 | every command keeps the invariant and stays within its sender's authority |
| `Safety.DispatchInv` | src/CommandDispatcher.cpp:15-56 | the global invariant survives every message from every connection |
| `Safety.DispatchAuthority` | src/CommandDispatcher.cpp:15-56 | only the sender can enter a channel; modes, operators, invitations and removals need an operator; a topic needs a member, under +t an operator; no other record or nick changes |
| `Safety.DispatchInvitations` | src/handleInvite.cpp:26-54 | the only way to become invited is an INVITE by an operator of the channel |
| `Safety.DispatchOperators` | src/handleMode.cpp:58-152 | the only way to become operator of a channel that is there is a MODE by an operator of it that names one's nick under +o |
| `Commands.CommandNames` | src/CommandDispatcher.cpp:11-13 | the eleven names call their commands, and every other string calls none |
| `Gates.GateRefuses` | src/CommandDispatcher.cpp:19-27 | JOIN, PRIVMSG, KICK, INVITE, TOPIC, MODE and PING of an unregistered client are answered with one 451 each, and nothing else happens |
| `Gates.OutsiderPrivate` | src/CommandDispatcher.cpp:19-27 | whatever an unregistered client sends, no channel changes and nobody else is sent anything; 451 is the answer to exactly those seven commands |
| `Gates.OutsidersUnheard` | src/CommandDispatcher.cpp:19-27 | over any run a connection hears only registered clients and itself, and no line of a connection that is not registered then changes a channel |
| `Answers.ModeLineIff` | src/ReplyBuilder.cpp:82-90 | a MODE line, parsed by the grammar of lines, reads back as channel and changes exactly when no announced parameter needs a colon |
| `Answers.ModeReadsIff` | src/handleMode.cpp:172-189 | the line announced for a parsed MODE reads back as channel and changes exactly when the message is readable; in any case it reads as the channel and what the announcement comes to |
| `Answers.PlainIsNotMode` | src/ReplyBuilder.cpp:4-80 | no other reply can be taken for a MODE announcement |
| `Answers.DispatchTexts` | src/handleUser.cpp:27-28 | stored user names have no space and no newline, and topics are one line, after every message that came from a line |
| `Answers.DispatchGood` | src/CommandDispatcher.cpp:15-56 | every reply of every message is one framed line to a live connection, and no connection comes or goes |
| `Names.NamesDecodable` | src/handleJoin.cpp:41-60 | reading the 353 line of any channel in any valid state gives exactly the members' nicks, each once, and exactly which are operators |
| `Names.JoinNames` | src/handleJoin.cpp:106-116 | a JOIN that takes effect answers with the member list of the channel with the sender in it |
| `Delivery.BurstCount` | src/handleNick.cpp:62-67 | the burst carries each of 001 to 004 once, to the client alone |
| `Delivery.ModeChangesRead` | src/handleMode.cpp:185-189 | of an operator's MODE a connection reads one announcement, exactly when there are changes and it is a member's; it is that of the changes exactly when the message is readable |
| `Delivery.ModeFollowed` | src/handleMode.cpp:185-189 | a member that applies what it reads to its copy of the modes of a channel has the new modes exactly when the MODE is on another channel, changes nothing, is readable, or is misread without harm; otherwise its copy stays as it was, or is wrong in the key alone or the limit alone |
| `Delivery.ChannelMessageDelivered` | src/handlePrivMsg.cpp:17-30 | a channel message reaches every member but the sender exactly once and nobody else |
| `Delivery.PrivateMessageDelivered` | src/handlePrivMsg.cpp:31-41 | a private message reaches the holder of the nick once and nobody else |
| `Laws.JoinIsFold` | src/handleJoin.cpp:130-139 | a JOIN of a list is the left-to-right fold of single JOIN messages with the keys paired by position |
| `Laws.JoinOneHeard` | src/handleJoin.cpp:106-116 | a JOIN that takes effect is announced once to every member and nobody else; the sender then reads topic, members and end of list |
| `Laws.JoinHeard` | src/handleJoin.cpp:63-141 | of a JOIN with any list every connection gets, name by name: the announcement if it is a member's by then, with topic, members and end of list for the sender; or, the sender alone, one refusal: 403 for no name, 473 under +i without an invitation, else 475 under +k with another key, else 471; or nothing where the sender is a member already, be it by an earlier name of the list |
| `Laws.KickHeard` | src/handleKick.cpp:61-89 | of a KICK with any list every connection gets, nick by nick, one announcement if it is in the channel by then, or the one refusal if it is the sender's; the reason is the one given or the kicker's nick |
| `Laws.SilentAfterSelfKick` | src/handleKick.cpp:85-87 | once the kicker has kicked itself, no connection hears of another KICK of the list |
| `Outcomes.JoinManyAdmits` | src/handleJoin.cpp:134-139 | of a channel that is there a JOIN list changes only that the sender is in it, exactly when it is listed somewhere with a key that admits |
| `Outcomes.JoinAdmission` | src/handleJoin.cpp:80-139 | a JOIN message lets its sender into an existing channel exactly when it lists it with a key that passes +k while +i and +l admit; the invitation is kept |
| `Outcomes.JoinRefused` | src/handleJoin.cpp:80-105 | the one answer to a JOIN of an existing channel is 473 exactly under +i without an invitation, 475 exactly when that lets the sender pass but +k does not, 471 exactly when both do but +l does not; otherwise the sender is in |
| `Outcomes.JoinCreates` | src/handleJoin.cpp:69-111 | a JOIN of a new valid name makes a channel without topic and modes, its sender the one member and operator |
| `Outcomes.InviteOutcome` | src/handleInvite.cpp:8-55 | for every INVITE message and every client: it is invited afterwards exactly when it was before, or an operator named it and it is not a member; a newly invited client is told once |
| `Outcomes.InviteAnswer` | src/handleInvite.cpp:8-55 | which numeric answers INVITE under which condition, in the order of the checks, and whom the invitation goes to |
| `Outcomes.TopicOutcome` | src/handleTopic.cpp:9-52 | for every TOPIC message: a text takes effect exactly for a member, and under +t for an operator; then the topic and nothing else of the state changes, and every member and nobody else is told once; a member that asks is told 331, or 332 with the topic; anything else is refused by the first check that fails |
| `Laws.ModeFaithful` | src/handleMode.cpp:64-189 | an operator's MODE, whatever its parameters: its changes applied to the old channel give the new one, operators included; if there are any, each member reads one announcement and nobody else does, and it is that of the changes exactly when the message is readable |
| `Laws.PrivMsgDelivered` | src/handlePrivMsg.cpp:45-66 | PRIVMSG changes nothing, and every connection gets exactly its share of every listed target, in order |
| `Wires.ReadPrivMsg` | src/ReplyBuilder.cpp:36-45 | a PRIVMSG line reads as command, target and text |
| `Wires.ReadJoined` | src/ReplyBuilder.cpp:28-34 | a JOIN line reads as command and channel |
| `Wires.ReadKicked` | src/ReplyBuilder.cpp:47-60 | a KICK line reads as command, channel, nick and, unless it is empty, the reason |
| `Wires.ReadInvited` | src/ReplyBuilder.cpp:62-70 | an INVITE line reads as command, nick and channel |
| `Wires.ReadTopicSet` | src/ReplyBuilder.cpp:72-80 | a TOPIC line reads as command, channel and topic, an empty one included |
| `Wires.ReadPong` | src/handlePing.cpp:14-17 | a PONG line reads as command, server name and token |
| `Wires.ReadCap` | src/handleCap.cpp:21-28 | a CAP line reads as command, target, LS or NAK, and what follows |
| `Wires.LinesToTheLetter` | src/ReplyBuilder.cpp:28-90 | the seven lines of a client, character by character |
| `Wires.CodeDecimal` | src/ReplyBuilder.cpp:12 | the command of a numeric is three digits whose decimal value is the numeric |
| `Wires.ReadNumericAlone` | src/ReplyBuilder.cpp:4-19 | a numeric about nothing reads as number, target (a star for no nick) and the text of the table |
| `Wires.ReadNumericOne` | src/ReplyBuilder.cpp:4-19 | a numeric about one thing reads as number, target, the thing and the text |
| `Wires.ReadNumericTwo` | src/ReplyBuilder.cpp:4-19 | a numeric about a nick and a channel reads as number, target, both and the text |
| `Wires.ReadNumericText` | src/handleJoin.cpp:28-60 | 332 and 353 read as number, target, channel and the whole topic or member list |
| `Wires.ReadNumericPair` | src/ReplyBuilder.cpp:4-19 | 324 and 341 read as number, target and the two words they are about |
| `Wires.SenderReads` | src/ReplyBuilder.cpp:205-214 | cutting the prefix of a line at its first ! and its last @ gives back nick, user name and server, even if the user name has such characters |
| `Wires.PrivMsgRead` | src/handlePrivMsg.cpp:45-66 | what a connection reads of a PRIVMSG, parsing the lines it is sent: for each target that reaches it, in order, the sender's nick and user name, the target and the text, and no other message |
| `Runs.RunGood` | src/ServerState.cpp:23-135 | the global invariant holds after every run of accepts, lines and disconnects |
| `Runs.FrozenForLife` | src/handleMode.cpp:58-62 | a channel without operators keeps its modes for life, its operators stay none, its invitations only shrink, its topic stays under +t, and members leave only by disconnecting |
| `Runs.OperatorsAreMade` | src/handleMode.cpp:58-152 | whoever operates a channel at the end of any run did so at the start, created it, or was named under +o by somebody who operated it then |
| `Runs.KickErases` | src/handleKick.cpp:50-57 | a KICK takes the invitation with the membership |
| `Runs.KickedStaysOut` | src/handleKick.cpp:50-57 | a client kicked from a +i channel is out at the end of any later run in which the channel stays +i and no operator invites it |
| `Runs.LimitHolds` | src/handleJoin.cpp:97-104 | while a limit is in force the channel is no larger than the limit, or than it was when the limit was set |
| `Runs.WelcomedOnce` | src/Client.cpp:46-53 | in every run a client is registered exactly when password, user name and nick are in, whatever the order, and each welcome numeric is sent once if it registers and never otherwise |
| `Runs.PasswordNeeded` | src/handlePass.cpp:27-32 | a client that is registered at the end of a run has sent a PASS with the password in it |
| `Runs.PasswordAlways` | src/handlePass.cpp:27-32 | over any run, clients that come and go included: whoever has passed at the end and had not at the start has sent a PASS with the password |
| `Runs.RegisteredSentPassword` | src/handlePass.cpp:27-32 | in every state that is reached from the empty server each registered client has sent a PASS with the server's password |
| `Runs.StepFollowedIff` | src/handleMode.cpp:172-189 | over one step a member ends with the right copy of the modes exactly when the step is followable: no MODE by an operator of the channel, or one that changes nothing, is readable, or is misread without harm; otherwise its copy stays as it was, or is wrong in the key alone or the limit alone |
| `Runs.ModesFollowed` | src/handleMode.cpp:185-189 | in every run of followable steps a member that folds all MODE lines it is sent over the modes has the current modes |
| `Runs.RightThroughout` | src/handleMode.cpp:185-189 | a copy of the modes that is right at the start and follows what is broadcast in the channel is right at every point of a run exactly when every step of it is followable, whoever of the members reads each step |
| `Runs.ReadersThere` | src/handleJoin.cpp:106-111 | over any run in which the channel stays there is a member to read every step |
| `Runs.BroadcastsFollowed` | src/handleMode.cpp:185-189 | in every run of followable steps the channel's broadcasts folded over its modes give its current modes, however its members come and go |
| `Runs.ModesSinceCreation` | src/handleJoin.cpp:106-111 | since a channel's creation: a copy that starts with no modes and follows its MODE broadcasts is right at every point exactly when every step is followable, and the fold of the broadcasts is then what is set |
| `Witnesses.BadKeyIsLost` | src/handleMode.cpp:104-110 | the line with which an operator sets a key that is empty, has a space or starts with a colon protects the channel with it; a member's copy has the one parameter the key comes to on the rest of a line, or stays as it was if there is none or several; it is wrong unless it was right already and stays |
| `Witnesses.EmptyKeyIsLost` | src/handleMode.cpp:104-110 | with the line `MODE #c +k :` the channel is protected, and the copy of every member stays as it was |
| `Witnesses.ColonKeyIsMisread` | src/handleMode.cpp:104-110 | with the line `MODE #c +k ::x` the key is `:x`, and every member reads `x` |
| `Witnesses.OperatorReachable` | src/handleJoin.cpp:106-111 | PASS, NICK, USER and JOIN lead from the empty server to a channel operated by its creator |
| `Witnesses.LossIsReachable` | src/handleMode.cpp:104-110 | after such a run either of these two lines leaves the operator's own copy of the modes wrong |
| `Framing.ChunkingIndependence` | src/Server.cpp:110-139 | any two divisions of a stream into chunks give the same lines and leftover, those of the batch form; the leftover has no newline |
| `Framing.ChunksAgree` | src/Server.cpp:123-138 | feeding chunks one by one continues the batch form of what came before |
| `Framing.CutConcat` | src/Server.cpp:123-138 | text that arrives later only extends what was left over |
| `Framing.LinesArePrintable` | src/Server.cpp:112-122 | no control character below 0x20 but CR is ever in a line |
| `Framing.FilteredTimes` | src/Server.cpp:112-121 | every character from the space on, and CR and LF, keeps all its occurrences, every other character none |
| `Framing.FilteredSame` | src/Server.cpp:112-121 | bytes that are all such characters pass unchanged, in their order |
| `Framing.SentIsProcessed` | src/Server.cpp:110-139 | printable lines sent with CR LF are processed exactly as they were sent, in order, and nothing is left over |
| `Framing.BareLine` | src/Server.cpp:127-133 | a line may end with LF alone, and of several CR before it one is taken off |
| `Framing.DropControls` | src/Server.cpp:112-121 | the erase-while-scanning loop keeps exactly the characters that are not dropped |
| `Framing.TakeLine` | src/Server.cpp:127-133 | taking the first line out of a buffer leaves the lines after it |
| `Books.BookedLine` | src/Server.cpp:127-135 | processing a line moves it from the receive buffer to the lines processed and adds its replies to the output |
| `Books.BookedChunk` | src/Server.cpp:113-123 | a chunk extends the receive buffer so that lines and buffer stay the framing of all bytes received |
| `Books.BookedSend` | src/Server.cpp:251-261 | a partial send keeps bytes sent plus send buffer equal to everything queued |
| `Books.NothingWaits` | src/Server.cpp:125-138 | the receive buffer has no newline exactly when all complete lines have been processed |
| `Books.StreamDecodes` | src/Server.cpp:182-192 | cutting the output of a connection at newlines gives back every reply, in order |
| `Books.WelcomedIff` | src/Client.cpp:46-53 | over a connection's life each welcome numeric is queued once if it has handed in everything by now and never otherwise |
| `ServerStates.ServerState.AddNewClient` | src/ServerState.cpp:23-37 | refines the specification, keeps the invariant, and adds exactly one new object |
| `ServerStates.ServerState.UpdateNickname` | src/ServerState.cpp:60-78 | refines the specification, including its result |
| `ServerStates.ServerState.EnsureChannel` | src/ServerState.cpp:104-123 | returns the channel there is, or puts an empty new one under the name |
| `ServerStates.ServerState.RemoveChannelIfEmpty` | src/ServerState.cpp:125-135 | removes the channel exactly when it is there and empty |
| `ServerStates.ServerState.LeaveAll` | src/ServerState.cpp:44-50 | the first pass takes the client out of every channel and lists exactly the empty ones |
| `ServerStates.ServerState.RemoveListed` | src/ServerState.cpp:51-52 | the second pass removes exactly the empty channels |
| `ServerStates.ServerState.RemoveClient` | src/ServerState.cpp:39-58 | the two passes come to the one equation of the specification and keep the invariant |
| `Handlers.BroadcastToChannel` | src/CommandDispatcher.cpp:79-87 | the loop appends one copy per member, the excluded one aside, in the order of the set |
| `Handlers.IsValidNick` | src/handleNick.cpp:18-30 | the index scan accepts exactly the valid nicks |
| `Handlers.HandlePass` | src/handlePass.cpp:11-40 | refines the specification of PASS: new state and replies |
| `Handlers.HandleNick` | src/handleNick.cpp:32-69 | refines the specification of NICK |
| `Handlers.HandleUser` | src/handleUser.cpp:11-36 | refines the specification of USER |
| `Handlers.HandleInvite` | src/handleInvite.cpp:8-55 | refines the specification of INVITE |
| `Handlers.HandleTopic` | src/handleTopic.cpp:9-52 | refines the specification of TOPIC |
| `Handlers.SendPrivMsgToTarget` | src/handlePrivMsg.cpp:8-43 | answers as specified for one target and changes nothing |
| `Handlers.HandlePrivMsg` | src/handlePrivMsg.cpp:45-66 | refines the specification of PRIVMSG and changes nothing |
| `Handlers.HandlePing` | src/handlePing.cpp:8-20 | answers the sender once and changes nothing |
| `Handlers.HandleCap` | src/handleCap.cpp:11-33 | answers LS and REQ to the sender, nothing else, and changes nothing |
| `Handlers.HandleInvalidCommand` | src/CommandDispatcher.cpp:89-98 | answers 421 and changes nothing |
| `JoinKick.IsValidChannelName` | src/handleJoin.cpp:11-26 | the index scan accepts exactly the valid channel names |
| `JoinKick.MemberNames` | src/handleJoin.cpp:43-53 | the loop builds the member line in the order of the set |
| `JoinKick.Admission` | src/handleJoin.cpp:82-105 | the three rules in their order give the refusing numeric of the specification |
| `JoinKick.CreateChannel` | src/handleJoin.cpp:74-111 | a channel created by a JOIN has its creator alone in it, as member and operator |
| `JoinKick.JoinSingleChannel` | src/handleJoin.cpp:63-117 | refines the specification of one JOIN; only new objects are added |
| `JoinKick.HandleJoin` | src/handleJoin.cpp:119-141 | refines the specification of JOIN from any sender, and keeps the invariant from a registered one, the only kind that gets past the gate of `dispatch` |
| `JoinKick.KickSingleTarget` | src/handleKick.cpp:8-59 | refines the specification of one KICK, channel deletion included |
| `JoinKick.HandleKick` | src/handleKick.cpp:61-89 | refines the specification of KICK and keeps the invariant while channels are deleted mid-loop |
| `ModeHandler.ModeTurn` | src/handleMode.cpp:83-171 | one turn of the switch, in place, is one turn of the interpreter |
| `ModeHandler.Record` | src/handleMode.cpp:172-182 | `finalModes`, `finalParams` and `lastSign` always hold the announcement of the changes so far |
| `ModeHandler.WalkModes` | src/handleMode.cpp:64-184 | the loop refines the interpreter and builds its announcement |
| `ModeHandler.KeyTurn` | src/handleMode.cpp:104-120 | the k case in place: parameter taken, key set or cleared, change noted as specified |
| `ModeHandler.LimitTurn` | src/handleMode.cpp:122-138 | the l case in place, a limit that is not positive included |
| `ModeHandler.OperatorTurn` | src/handleMode.cpp:140-163 | the o case in place, with its two error replies |
| `ModeHandler.HandleMode` | src/handleMode.cpp:12-191 | refines the specification of MODE |
| `Dispatcher.CmdNameToNumber` | src/CommandDispatcher.cpp:71-77 | the table scan finds the command of the name, or the invalid one |
| `Dispatcher.Dispatch` | src/CommandDispatcher.cpp:15-56 | refines the specification, registration gate included, and keeps the server valid |
| `Servers.Server.constructor` | src/Server.cpp:5-64 | a new server is valid, with only the listener in the poll list |
| `Servers.Server.AcceptNewClient` | src/Server.cpp:66-88 | keeps the server valid and starts the connection with clean accounts |
| `Servers.Server.ReceiveData` | src/Server.cpp:90-141 | keeps the server valid; a chunk adds exactly its lines to the trace; a closed or failed connection is disconnected |
| `Servers.Server.ProcessLines` | src/Server.cpp:125-139 | the line loop processes exactly the complete lines, in order, and leaves the rest |
| `Servers.Server.QueueResponse` | src/Server.cpp:182-192 | appends to the send buffer, a new one if need be, and arms POLLOUT of the first entry, so that where it was armed exactly where bytes wait it stays so |
| `Servers.Server.ProcessMessage` | src/Server.cpp:194-211 | the state moves by one line and every reply is queued for its connection |
| `Servers.Server.DisconnectClient` | src/Server.cpp:213-229 | takes the connection out of all tables and the state; a second time changes nothing |
| `Servers.Server.SendData` | src/Server.cpp:231-268 | whatever send returns, the server stays valid, and the bytes taken move from the buffer to the bytes sent |

## Left out

- Sockets, poll, accept, recv, send, close, signals and logging: what the system returns is a parameter of the event methods; a descriptor it returns is not one that is open.
- The index walk of `ircLoop` and the destructors: the event methods are modelled one by one, and the listener is never disconnected.
- `requestToDisconnect`: no handler calls it, so `processMessage` never disconnects, and the early return of the line loop after it is not modelled.
- Allocation failure: `new` always succeeds, so `addNewClient` and `ensureChannel` fail only for a key that is there; deletion is removal from the live set.
- Branches that cannot be reached: a set insertion or removal that fails right after the membership test that rules it out, and null pointers in a member set.
- `std::atoi` on numbers that do not fit an `int`: `Text.Atoi` is the unbounded value.
- Locales: character classes are those of ASCII, and a byte is a `char`.
- Numerics as strings: a numeric is a number, written with three digits; `ReplyBuilder` is only called with those that have a text or none.
- Replies with equal text but different origin are told apart inside the model, where they are kept as `ReplyBuilder` calls; on the wire they are strings.
- Channel tables: a channel object has its modes as an object of its own, where the original embeds them.
- The texts of the banner, `main` and the unit tests.
