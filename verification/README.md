# A model of libirc

libirc is the IRC library of the ctrlproxy proxy. It keeps a client's view of a network by folding
every line it sees into a graph of channels and nicks, logs the lines to an indexed file with a
snapshot of the graph every thousand lines, rebuilds the graph from that log, and sends it to other
clients as lines. This project models that chain and proves what it is for.

* `Line`, `LineBuffer`, `Texts`: the message codec of section 2.3.1 of RFC 2812, as a grammar and as
  the parser and printer that work in a buffer, the 512-byte accounting of section 2.3, and which texts
  come back.
* `Casemap`, `Info`, `Isupport`, `Tokens`: the comparison every lookup rests on (section 2.2 of RFC
  2812), what a server announces in 005, the printer and parser of that announcement, and what each
  word of it does.
* `State`, `Handlers`: the network state as a value, and what each line does to it. `me` is the first
  of the people; a channel refers to its members by their position. `Accepts` says which lines a
  handler gets through: a joining nick has a full mask, a topic is set on a known channel, a channel
  MODE has an origin, names in a 353 carry at most one prefix.
* `Graph`, `Network`: the same on a graph of pointers. Freeing takes an address out of the map of what
  is allocated, so that every access in a verified method is an access to something not freed.
* `Effects`, `Presence`: what each command does, said of its words and arguments.
* `Modes`, `Unique`, `Collect`: MODE as a fold, uniqueness of names, and which nicks are forgotten.
* `Marshal`, `StateFile`, `LogFiles`, `Linestack`, `Views`, `Lists`, `Replay`, `Repeats`, `Settling`,
  `Unstored`, `Session`, `Live`: the log. Files are sequences with a cursor. `Views` blanks what a snapshot does not
  carry (hop counts, creation times, mode_received, which lists are present, WHO data, away), what
  depends on the clock (the time of a topic), and the ban, invite and except lists. Those are in a
  snapshot, but a MODE changes only a list that is present, and presence is read back as whatever memory
  held: `Lists` compares them letter by letter, and what is said of a rebuilt list is relative to the
  snapshot, since the replies that fill lists are not stored.
* `Names`, `Seating`, `Occupancy`, `Sending`, `Diff`, `Telling`, `Notices`, `Client`, `WhoTrace`, `Cache`:
  what clients are sent, and what it means to a receiver that parses the printed text.
* `Transport`, `Redirect`: the outgoing queue and the routing of numeric replies.
* `Failures`: runs on which the conditions below are not met.

A C string is a `string` of byte-valued characters without the terminator. Time, the memory that
`g_malloc` does not clear, and the answers of sockets are parameters or arbitrary. Where the source
asserts, a method has a precondition.

Some of what the code is for holds only under a condition. Each is proved exact, and `Failures` has a
run from the initial state on which it fails: NICK and 001 keep names distinct if and only if the new
name is nobody else's; handling a line again, as a replay does from a snapshot that already contains it,
leaves the state as it was if and only if the line is neither a NICK that renames nor a MODE that changes
the number of a mask on a complete list again, such as a plain `+b`; and a netsplit of a client with
distinct names ends if and only if everybody's QUIT names its own nick.

## Model

| member | source | states |
|---|---|---|
| Line.ParseOfPrint | libirc/line.c:89-142 | printing a well-formed line and parsing the text gives back its origin and arguments, and a flag that says whether a colon was printed; with CR LF added it parses the same |
| Line.ParsePrintParse | libirc/line.c:89-142 | for every text that parses, printing and parsing once more gives the same line, flag included |
| Line.SurvivesIffWellFormed | libirc/line.c:196-281 | a line with arguments comes back from printing and parsing if and only if it is well-formed, that is, if the texts in it can be where the printed colon leaves them; Texts.TextSurvivesIff says it without the printer |
| Texts.TextSurvivesIff | libirc/line.c:196-281 | any text without a line break comes back whole as the last argument of a line that leaves the colon to the printer, unless the command is MODE, NICK, JOIN, a PART or TOPIC of two arguments or one of 27 numerics and the text could not stand in the middle of a line: an if and only if, said of the text |
| Texts.MessageSurvives | libirc/line.c:196-255 | so any such text survives in 332, 315, 352, 366, QUIT, PRIVMSG, NOTICE, KICK, and in a PART or TOPIC of more than two arguments |
| Line.ParseIsWellFormed | libirc/line.c:89-142 | every parsed line is well-formed |
| Line.SplitWithinEstimate | libirc/line.c:115-142 | the number of arguments never exceeds the number of spaces plus one, the size the argument array is given |
| LineBuffer.ParseLine | libirc/line.c:89-142 | the parser that cuts its buffer in place yields the line the grammar defines, for every C string, without leaving its buffer |
| LineBuffer.LineString | libirc/line.c:257-281 | the printing loop writes the printed form, the text that Texts.TextSurvivesIff and Line.ParseOfPrint are about |
| LineBuffer.PrintedWithinEstimate | libirc/line.c:181-194 | what is written with CR LF is at most the estimated length less two without an origin, and at most the estimate plus the origin with one |
| LineBuffer.Builder.AddArg | libirc/line.c:416-449 | an argument is refused exactly when the estimate would pass 512; a line it was added to is written in at most 510 bytes, or 512 plus the origin |
| LineBuffer.GrownWithinLimit | libirc/line.c:416-449 | however many arguments are added one after the other, the written line stays within the limit it started under |
| Casemap.CompareScan | libirc/util.c:49-68 | the character scan answers zero exactly on strings of equal length that match character by character, with the given ranges taken as cases of each other |
| Casemap.Irccmp | libirc/isupport.c:630-644 | the comparison of the announced casemapping answers zero exactly on names with the same folding |
| Casemap.SameIffTwins | libirc/isupport.c:630-644 | names are the same if and only if they are character by character: equal, one letter in two cases, or paired by the mapping, with the brackets and the backslash under both RFC 1459 mappings and the tilde under the plain one |
| Info.PrefixLookupsInvert | libirc/isupport.c:722-776 | for PREFIX halves of equal length without repetition, mode to prefix and prefix to mode undo each other |
| Info.LeftmostPrefix | libirc/isupport.c:697-720 | the prefix shown for a set of modes is that of the leftmost mode in PREFIX that is set |
| Isupport.InfoString | libirc/isupport.c:80-358 | the announcement is the list of the advertised parameters, separated by single spaces |
| Isupport.ListMakeString | libirc/util.c:141-163 | the list is written with one space between neighbours |
| Isupport.SplitOfInfoString | libirc/isupport.c:80-358 | splitting the announcement on spaces gives back exactly the advertised tokens |
| Isupport.RoundTripInAnyOrder | libirc/isupport.c:385-600 | parsing the tokens, in any order, into fresh information restores every advertised field; an unknown casemapping comes back as rfc1459 |
| Tokens.FlagToken | libirc/isupport.c:400-600 | a parameter without a value, in any case, sets its own flag, with or without a value |
| Tokens.NumberToken | libirc/isupport.c:400-600 | a number from 0 to 0x7fffffff, printed, is kept under its own name, and 0 takes it away |
| Tokens.NoNumberToken | libirc/isupport.c:418-449 | a value that is not a number all the way changes nothing, but for KEYLEN |
| Tokens.TextToken | libirc/isupport.c:400-600 | a text is kept as it is under its own name; without a value it is forgotten |
| Tokens.LetterToken | libirc/isupport.c:519-557 | EXCEPTS, INVEX and DEAF alone stand for e, I and D; one character is that letter, none takes it away, more are refused |
| Tokens.PrefixToken | libirc/isupport.c:579-586 | PREFIX pairs the letters in parentheses with the symbols behind them, and is refused without the parentheses |
| Tokens.ChanmodesToken | libirc/isupport.c:501-515 | CHANMODES is four groups between three commas, and the letters 004 left out are known from then on |
| Graph.LinkInvariant | libirc/state.c:148-163 | a channel_nick is in its channel's list if and only if it is in its nick's list, it points back at both, whatever is reached is allocated and known, and no pair occurs twice |
| Network.NetworkState.FreeChannelNick | libirc/state.c:148-163 | a membership leaves both lists and is freed; its nick is freed too exactly when it has no other membership and no query |
| Network.NetworkState.FreeNetworkNick | libirc/state.c:1239-1261 | freeing a nick other than `me` takes it off every channel and out of the list, each of its memberships freed once |
| Network.NetworkState.FindAddChannelNick | libirc/state.c:412-446 | a name, less one prefix, gets a membership of the channel if it had none, with the prefix's mode, and is introduced to the network if unknown |
| Network.NetworkState.HandleJoin | libirc/state.c:448-487 | JOIN on the graph: every listed channel exists, has the nick, and the nick has its hostmask |
| Network.NetworkState.HandlePart | libirc/state.c:489-540 | PART on the graph: the nick leaves every listed channel, and a channel that `me` leaves is freed |
| Network.NetworkState.HandleKick | libirc/state.c:542-603 | KICK on the graph, channel by channel with its own nick |
| Network.NetworkState.HandleQuit | libirc/state.c:878-896 | QUIT on the graph: a nick is freed, `me` only leaves its channels |
| Network.NetworkState.HandleNames | libirc/state.c:665-697 | a NAMES reply adds everybody named; the first of a series empties the channel first |
| Network.NetworkState.HandleWho | libirc/state.c:818-862 | a WHO reply fills in the nick's record and stamps its membership of that channel |
| Network.NetworkState.ChangeModes | libirc/state.c:977-1046 | the loop over the mode string, with the argument index always between 3 and argc, so that the complaint about missing arguments is never reached; it is the fold of the row on ModeIsFold |
| Network.NetworkState.Handle | libirc/state.c:1206-1225 | one line on the graph is one step on the state it stands for, and the link invariant holds again; what the step of each command is, is the matter of the rows on Effects and Presence |
| Network.NetworkState.HandleAll | libirc/state.c:1206-1225 | any run of acceptable lines keeps the link invariant and ends where the fold over the value ends: nothing reachable is ever freed, and `me` keeps its query |
| Effects.TopicLine | libirc/state.c:605-620 | TOPIC leaves the channel with the text, the nick of the origin and the time; without an origin it is ignored, and an unknown channel is where the handler breaks off |
| Effects.TopicIs | libirc/state.c:622-634 | 332 leaves the channel with the text in its fourth word, and nothing else changes |
| Effects.TopicSetBy | libirc/state.c:636-649 | 333 leaves it with the setter and the time in words four and five |
| Effects.NoTopic | libirc/state.c:651-663 | 331 takes the topic of the channel named by its second word, which is where the handler looks |
| Effects.ModesAre | libirc/state.c:1107-1123 | 324 replaces the flags |
| Effects.CreatedAt | libirc/state.c:1125-1136 | 329 sets the time of creation |
| Effects.BanListed | libirc/state.c:781-802 | 367 adds mask, setter and time to the ban list, the first of a series to an empty one |
| Effects.InviteListed | libirc/state.c:710-730 | 346 likewise adds to the invite list |
| Effects.ExceptListed | libirc/state.c:745-765 | 348 likewise adds to the except list |
| Effects.NickLine | libirc/state.c:1081-1097 | NICK gives the nick and the hostmask with that nick to whom the origin names, who is introduced if unknown |
| Effects.MessageLine | libirc/state.c:1061-1079 | a PRIVMSG to the user opens a query with its sender, and any other changes nothing |
| Effects.ModeOf | libirc/state.c:977-1046 | a MODE line for a channel is its directives in turn, and one for a nick changes the modes of that nick |
| Effects.WhoLine | libirc/state.c:818-862 | 352 fills in user, host, server, hops and, where none is known, full name of the nick it names, and stamps its membership of the channel it names; it is acceptable if and only if the nick is known or has no prefix |
| Effects.UserHostIs | libirc/state.c:1138-1163 | an entry of a 302 gives the nick before the equals sign the mask behind it |
| Effects.SupportLine | libirc/isupport.c:602-612 | 005 takes every argument between the nick and the closing text as a token |
| Effects.HostmaskParts | libirc/state.c:114-146 | a new hostmask splits at its exclamation mark and its at sign |
| Effects.ListInTurn | libirc/state.c:448-540 | JOIN or PART of a list is JOIN or PART of its first channel and then of the rest |
| Effects.KicksInTurn | libirc/state.c:542-603 | KICK of two lists takes their firsts together and then the rests |
| Effects.ShortLine | libirc/state.c:1206-1225 | a command with fewer arguments than the table asks for changes nothing |
| Effects.UnknownCommand | libirc/state.c:1206-1225 | nor does one that is not in the table |
| Presence.JoinLine | libirc/state.c:448-487 | JOIN of a channel: it is known, has the nick and whom it had, and the nick has its hostmask; every other channel has whom it had |
| Presence.PartLine | libirc/state.c:489-540 | PART: the nick is off that channel alone, and the channel is gone when the nick is the user's own |
| Presence.KickLine | libirc/state.c:542-603 | KICK: the same for the nick that is kicked, if it is there, whoever kicks |
| Presence.QuitLine | libirc/state.c:878-896 | QUIT: the nick is off every channel, and forgotten if it is not the user's own |
| Presence.NamesLine | libirc/state.c:665-697 | 353: a known channel has the sort the reply gives, and one that is not known changes nothing |
| Modes.ModeIsFold | libirc/state.c:908-1046 | a channel MODE line is the fold over its signed letters, each offered the argument after those the letters before it take by their arity, up to the first one refused; the arity is said of the four CHANMODES groups and PREFIX |
| Modes.ChangeTakesArity | libirc/state.c:908-975 | a mode change takes as many arguments as the group of its letter says, and a refused one changes nothing |
| Modes.ListLetter | libirc/state.c:919-930 | a letter of the first CHANMODES group takes an argument either way and changes that list if it is complete |
| Modes.RemovesFirst | libirc/state.c:178-188 | taking a mask off a list takes its first entry and leaves the others in order |
| Modes.SettingLetter | libirc/state.c:932-949 | a letter of the second or third group takes an argument when set, which is the option from then on, and none when unset, when the option goes |
| Modes.PrefixLetter | libirc/state.c:949-968 | a letter of PREFIX takes an argument and changes that flag of the member it names; without one, or without that member, it is refused |
| Modes.FlagLetter | libirc/state.c:969-974 | a letter of the fourth group takes none and changes the flag of the channel; one that nobody announced takes one and changes nothing |
| Modes.UserModesAre | libirc/state.c:898-906 | a mode string for a nick leaves each letter as its last sign says |
| Unique.RunKeepsDistinct | libirc/state.c:250-446 | over every run whose lines bring in no colliding name under a fixed casemapping, no two channels and no two people, `me` included, have equal names |
| Unique.RenameKeeps | libirc/state.c:1081-1097 | NICK keeps names distinct if and only if the new nick is nobody else's |
| Unique.WelcomeKeeps | libirc/state.c:1048-1052 | 001 keeps names distinct if and only if the new name of `me` is nobody else's |
| Unique.MembersDistinct | libirc/state.c:298-329 | then no two members of a channel have equal names either |
| Unique.PersonIsFound | libirc/state.c:355-381 | then a name has at most one owner, and it is the one the lookup finds |
| Unique.RunKeepsMasks | libirc/state.c:32-146 | over every run that sets no nick with an exclamation mark and whose joining nicks carry no prefix, the known hostmask of everybody but `me` starts with the nick it belongs to |
| Collect.ClearMembersCollects | libirc/state.c:222-228 | emptying a channel forgets exactly the nicks without a query that were on it and on no other channel, and keeps the order of the rest |
| Collect.DropMemberCollects | libirc/state.c:148-163 | a nick whose membership goes is forgotten if and only if that was its last and it has no query |
| Collect.LastMembershipForgets | libirc/state.c:489-603 | after PART, KICK or a NAMES refresh, nobody who lost a last membership by it is still known without a query |
| Marshal.GetNetOfPut | libirc/linestack.c:1052-1068 | for strings without line breaks, plain mode letters, counts of at most nine digits, nicks distinct under RFC 1459 folding and members without a prefix, reading a written snapshot restores every marshalled field of `me`, the nicks and the channels, the order of channels, nicks and members, and who is on which channel; the fields that are not marshalled come back as whatever memory held |
| Marshal.GetMembersOfPut | libirc/linestack.c:996-1047 | reading the members of a channel by nick gives each its old place and modes, with nicks that are distinct under RFC 1459 folding and start with no prefix |
| Marshal.StringModesOfModes | libirc/state.c:1315-1356 | a mode set printed and read back is the same, for sets without NUL, line breaks, plus or minus |
| StateFile.SnapshotFile.WriteNet | libirc/linestack.c:1052-1068 | the writing loops produce the snapshot text |
| StateFile.SnapshotFile.ReadNet | libirc/linestack.c:1052-1068 | the reading loops, with their cursor, read what the format defines, or fail where it fails |
| LogFiles.RecordAt | libirc/linestack.c:50-56 | index record i holds the summed written length of the lines before i, the time of line i, and 1000 times i/1000 |
| LogFiles.ReadBack | libirc/linestack.c:294-353 | reading from a line's offset and parsing gives the stored line |
| Linestack.LinestackContext.Insert | libirc/linestack.c:504-563 | a line is appended to both files if and only if it is wanted, before every thousandth the passed state is saved, and both cursors end at the ends; which lines must be wanted is the next rows' matter |
| Unstored.UnneededLeavesView | libirc/linestack.c:471-534 | whatever a server may send that is not kept leaves what a snapshot shows as it was, unless it is 001, 221, 302, 352, a list reply or CTCP by PRIVMSG: so JOIN, PART, KICK, QUIT, NICK, TOPIC, MODE and the replies about names, topics and modes are kept |
| Unstored.TalkIsNeeded | libirc/linestack.c:515-528 | in both directions a PRIVMSG or NOTICE is kept if and only if it is not CTCP other than ACTION |
| Linestack.LinestackContext.ReadEntry | libirc/linestack.c:294-353 | entry i is the i-th stored line and its time; past the last there is none |
| Linestack.LinestackContext.Traverse | libirc/linestack.c:355-403 | the handler sees the entries of the range in order until it says stop; both cursors are back at the ends |
| Linestack.LinestackContext.GetState | libirc/linestack.c:212-292 | the answer is the snapshot the marker's record names with the lines from there to the marker replayed; a marker past the last line gives none |
| Linestack.VisitShowsRange | libirc/linestack.c:355-403 | a handler that keeps what it is shown sees exactly the lines a to b-1, in order |
| Linestack.VisitObjectShows | libirc/linestack.c:411-453 | the traversal for an object shows exactly the lines about it, alone or in a comma list, in order |
| Views.RunAlike | libirc/linestack.c:666-679 | replaying stored lines at another time from a state that looks the same ends in a state that looks the same, whatever memory held in the fields that are not in a snapshot; the ban, invite and except lists are the next rows' matter |
| Lists.StepLists | libirc/state.c:908-975 | what a stored line does to the list of a letter depends on that list, its presence and the view alone, entry for entry but for the time, or mask for mask; a line that does not name the letter need not agree on presence and keeps it entry for entry |
| Lists.RunLists | libirc/linestack.c:666-679 | the same over any replay of stored lines at other times |
| Replay.RebuildIsFold | libirc/linestack.c:212-292 | a rebuild at a marker is, but for the lists, the fold of the first that many stored lines, replaying at most a thousand, if the snapshot is the fold before its line, or the fold including it where handling that line again changes nothing |
| Replay.RebuildLists | libirc/linestack.c:948-1050 | the ban, invite and except lists of a rebuild are those of its snapshot as the lines since change them: to the entry for a letter no line since names, and but for the times for a letter of whose presence the uncleared memory happens to say the same as the snapshot's state |
| Replay.RebuildAtSnapshotIff | libirc/linestack.c:212-292 | right behind a snapshot that contains its own line, a rebuild is the fold if and only if handling that line again leaves the view alone |
| Replay.MarkerThenRest | libirc/linestack.c:666-679 | the state at a marker followed by the lines stored since is, but for the lists, the state now |
| Session.Use | libirc/linestack.c:94-563 | after creation and any run of inserts, traversals and rebuilds, the log has exactly the lines wanted, every state rebuilt was the fold of the lines before its marker with its lists as in the row on RebuildLists, and every traversal showed its range; asked of callers is only that lines survive in the file and are acceptable, and that the state passed where a snapshot is due is one to start from |
| Replay.NickIsIdempotentIff | libirc/state.c:1081-1097 | a NICK line may be handled twice if and only if the new nick is another spelling of the old |
| Repeats.ViewTwiceIff | libirc/linestack.c:471-481 | a stored line handled twice leaves the same view, on a state with distinct names and with no prefix on a joining nick, if and only if it is not a NICK line that really renames; and the very same state if it is no MODE line besides |
| Settling.LoopHeld | libirc/state.c:908-1046 | a mode string changes how often a mask is on a complete list as its list letters do one after the other, up to the first letter refused |
| Settling.AppliedTwiceIff | libirc/state.c:165-194 | putting a mask on a list and taking it off, twice over, leaves it there as often as once if and only if it is put on as often as taken off, or taken off more often and no more of it is left than the operations put back |
| Settling.StoredTwiceIff | libirc/linestack.c:471-481 | a stored line handled twice leaves the same view and every mask as often on its list, on such a state, if and only if it is neither a NICK line that really renames nor a channel MODE line with a mask on a complete list whose number would change again |
| Settling.BanTwice | libirc/state.c:919-930 | a ban set on a channel with a complete ban list and handled again is there once more than it was, in a state with the same view |
| Settling.LiveSnapshotOk | src/network.c:118-210 | a caller that applies a line before it stores it passes a state that holds that line: handling it again settles if and only if it neither renames nor changes the number of a mask again, and a rebuild can start from it unless it renames |
| Settling.LiveRebuildLists | libirc/linestack.c:212-292 | a rebuild from such a snapshot, where its line settles, has every mask as often on a list as the snapshot changed by the lines behind that one, for each letter of whose presence memory says the same |
| Live.LiveCallsOk | src/network.c:118-210 | a caller that handles each line from the server and then stores it keeps what the linestack asks, at every step of every run in which the few replies of the row on Unstored change nothing that was not known and no NICK that renames brings a snapshot |
| Live.UseLive | src/network.c:118-210 | so every state such a caller is given back is right in the sense of Session.Use, the log has exactly the lines that were to be kept, and a rebuild at the newest marker shows what the live state shows |
| Failures.AnnBecomesBob | libirc/state.c:1081-1097 | from the initial state, two JOINs and a NICK that every handler gets through leave two people with one name |
| Failures.MeBecomesBob | libirc/state.c:1048-1052 | from the initial state, a JOIN by bob and 001 bob leave two bobs, and a netsplit of that state never ends |
| Failures.RenameIsRepeated | libirc/linestack.c:504-563 | a log of 1001 lines whose last, by which a snapshot is due, is a NICK: the rebuild behind it is not the fold, whatever memory held |
| Failures.BanIsRepeated | libirc/state.c:919-930 | a JOIN, a 368 and a MODE +b: the mask is on the list once, and twice when the MODE is handled again |
| Names.NamesList | libirc/client.c:722-781 | when every single name fits a line, the NAMES lines carry every member once, in order, with its prefix, keep to the line limit, and each but the last could not take the next name too |
| Names.TightIsFewest | libirc/client.c:722-781 | no other cut of the same names into lines that fit has fewer lines |
| Names.NamesAreHeard | libirc/client.c:722-781 | a receiver with the same PREFIX that parses the printed lines has the same nicks in the same order, each with its leftmost prefix mode, for any number of members with plain, distinct nicks and any cut into lines, if the channel has members or the receiver's is empty |
| Diff.SendStateDiff | libirc/client.c:579-622 | the loops send, channel by channel, the lines the next row is about |
| Diff.DiffReachesNew | libirc/client.c:507-622 | a receiver in the old state that parses the printed lines ends on the new state's channels, each with the new state's members, if members' hostmasks are known and nicks in both sides of a channel keep theirs, `me` does not leave a channel that stays, new channels have members, and the topic and mode lines are well-formed |
| Notices.DiffTells | libirc/client.c:507-720 | the same with nothing asked of the lines but texts without line breaks; and of every channel in the end the receiver knows the topic, its setter, its time and the flags that TOPIC, 332, 333 and MODE tell and the rest as before |
| Notices.TopicReachesIff | libirc/client.c:548-556 | the topic is then the new one for a channel that is new; for one that was known, if and only if it need not change or is there and has a setter |
| Notices.ModesReachIff | libirc/client.c:558-570 | if all that are set are flags, a channel that was known has in the end the old ones and the new ones, and the new ones alone if and only if none was taken away; a channel that is new has none |
| Telling.TopicHeard | libirc/client.c:694-702 | the 332 line of a topic, printed, parsed and handled, leaves the channel with that topic, spaces included, and changes nothing else |
| Telling.SetterHeard | libirc/client.c:709-720 | the 333 line leaves it with the setter and the time, to the second |
| Telling.TopicChangeHeard | libirc/client.c:548-556 | a TOPIC line with an origin leaves it with the topic, the nick of the origin and the time it is heard; one without origin or text changes nothing |
| Telling.LettersHeard | libirc/client.c:558-570 | a MODE line of flags without arguments adds, of its letters, the flags up to the first that wants an argument, and changes nothing else |
| Telling.HeededIff | libirc/client.c:558-570 | all letters are added if and only if all are flags |
| Client.IrcClient.SendNetsplit | libirc/client.c:913-947 | one QUIT per known nick, in list order, until nobody is listed or a send fails; it ends |
| Client.NetsplitAdvancesIff | libirc/client.c:893-947 | one round of the loop makes the list shorter if and only if the QUIT it sends resolves to somebody listed; else it would send the same line again |
| Client.NetsplitEndsIff | libirc/client.c:893-947 | for a client with distinct names a netsplit comes to an end if and only if everybody's QUIT names its own nick |
| Client.UniqueIsSplittable | libirc/client.c:893-911 | distinct names and hostmasks that start with their nicks make every QUIT resolve to its own nick |
| WhoTrace.RunTraced | libirc/state.c:818-862 | over every run in which 005 keeps the casemapping, joining nicks carry no prefix and USERHOST nicks are plain, a member's WHO time and flags come from a 352 line that named that member of that channel, and the member has been there ever since, through any NICK |
| Cache.TryCacheWho | src/cache.c:121-197 | WHO is answered from the cache if and only if it asks for one known channel and every member's data is younger than the limit; nothing is sent otherwise |
| Cache.FreshMeansReplied | src/cache.c:121-197 | in every such run, an answer means that each member had a 352 of its own for the channel less than the limit ago |
| Cache.AnswerFedBack | src/cache.c:121-197 | the answer, printed, parsed and handled, changes nothing but the time of last update of the members answered for in full, and no member whose reply is cut short |
| Cache.ReplyFedBack | libirc/state.c:818-862 | one reply about a member changes only that time; a reply cut short by an unknown field changes nothing |
| Cache.HalfMaskCutsReply | libirc/state.c:114-146 | a hostmask without a host makes the next reply about its owner incomplete |
| Transport.IoTransport.SendLine | libirc/transport_ioc.c:154-211 | a line is queued behind what is pending or offered at once; FALSE exactly when the channel answers it with an error or EOF, or the flush fails |
| Transport.IoTransport.SendQueue | libirc/transport_ioc.c:338-407 | pending lines are offered from the head until the channel says to try again; each drain ends, and one never told so empties the queue |
| Transport.IoTransport.Disconnect | libirc/transport_ioc.c:141-149 | the channel is closed at once only with nothing pending |
| Transport.IoTransport.Run | libirc/transport_ioc.c:154-407 | under any interleaving and any answers of the channel, the lines handed over are, in order, those it has settled and those pending; without an error or EOF, those written and those pending; and no line waits without a watch |
| Transport.SettledSplits | libirc/transport_ioc.c:154-407 | a settled line was written, or lost to an error or EOF, and never both |
| Redirect.QueryStack.Record | libirc/redirect.c:573-612 | a query is put last with a reference to its client, but for a TOPIC that sets something; FALSE for a command not in the table |
| Redirect.QueryStack.MatchResponse | libirc/redirect.c:525-556 | a numeric that is a reply, an end or an error of an entry and of no older one goes to that entry; the entry stays if and only if it is a reply in between, its reference is given back otherwise, and the rest keep their order; a numeric of no entry leaves all |
| Redirect.RoutedByLists | libirc/redirect.c:536-552 | routing said of the three lists of the entries alone, with its converse: a numeric in no list of any entry belongs to nobody |
| Redirect.AnswersInTable | libirc/redirect.c:43-480 | in the table, the commands whose replies the state is built from end with their end-of-list numerics, and errors are in the list of errors |
| Redirect.AnswerStaysTogether | libirc/redirect.c:525-556 | all replies of one answer go to the same entry, which stays until the end reply or error takes it away |
| Redirect.AskAndHear | libirc/redirect.c:519-612 | a query, any replies in between and then an end or an error, with older queries about other numerics: all are routed to the asker, and the stack is what it was |
| Redirect.Trace | libirc/redirect.c:519-612 | in every trace of queries, responses and clearings, the references taken less those given back are one for every entry |
| Redirect.RedirectResponse | src/redirect.c:83-128 | FALSE if and only if the line went to all clients; said of the same lists, a client's own answer, end or error goes to that client alone, and a numeric nobody asked for goes where the tables decide |

## Left out

- LogFiles.ReadRaw: a line ends at CR or LF. GLib's reader also ends one at U+2029 and at NUL, so a line that carries U+2029 is read back short; GLib is not part of this model.
- Marshal.Get: the same for the lines of a snapshot; and a failed assertion of the source is a failed read here.
- Diff.SendStateDiff: the own hostmask is fixed for the whole diff, where the source reads it from the client's shadow state for each line; the shadow state itself is not followed, because it sees unparsed arguments.
- Diff.DiffReachesNew: membership only; topics and flags are in Notices.DiffTells, and are the new ones exactly where Notices.TopicReachesIff and Notices.ModesReachIff say. The source sends a removed topic as a TOPIC without text, which a receiver ignores, never a removed flag, no flags of a new channel, and no member's modes on a channel that stays.
- Effects.NoTopic: follows the handler, which looks up the second word of a 331 as the channel, where servers put the user's nick.
- Telling.LettersHeard: MODE lines with arguments are sent by nobody here; Modes.ListLetter and its neighbours say what a receiver makes of them.
- Names.NamesList: what is handed to the socket; the sender's shadow state after a packed 353 sees unparsed arguments and is not followed.
- Client.IrcClient.SendNetsplit: the method runs the loop where it ends (Client.NetsplitEndsIff); elsewhere the source sends the same line again.
- Cache.AnswerFedBack: assumes that whoever is answered for in full has a full name, which every WHO reply gives; a missing one is printed as `(null)` and read back as that.
- Live.LiveCallsOk: lines the caller sends itself, which are stored without being handled, and the few replies that are handled without being stored, where they change the view: 001, 221, 302, 352, the list replies and CTCP by PRIVMSG.
- Settling.StoredTwiceIff: compares lists by how often a mask is on them; their order may change, as with a mask taken off and put on again.
- Replay.RebuildIsFold: equality up to the view described above, with the lists apart (Replay.RebuildLists); the linestack does not store 005, so both sides use the default network information.
- Linestack.LinestackContext.GetState: marker 0, which seeks before the first record, and linestacks opened without truncation.
- Transport.IoTransport.Run: nothing after the channel has answered EOF; duplicate watches on one channel count as one.
- Handlers.StrtolAuto: numbers are unbounded; strtol stops at the limits of a long.
- Handlers.UserModes: mode letters up to 254; the source's arrays have 255 entries and a letter of code 255 is out of their bounds.
- Isupport.ParseToken: updates a value, as network_info_parse does one field at a time; the loops around it are methods.
- Network.NetworkState.HandleData: the handlers that only write fields of one channel share one method that applies a function to those fields.
- The length-limited comparisons, line_prefix_time, irc_line_cmp, charset conversion.
- Sockets, DNS, TLS, SOCKS, reconnecting, receiving from a transport, hang-up callbacks.
- The MODE, TOPIC and NAMES branches of the cache and its dispatch: MODE may send and then answer FALSE; the others add only easy members.
- Settings, logging, admin commands, CTCP, nickserv, auto-away, the daemon and the Python bindings.
- Failure of allocation and of writes to the log files.
