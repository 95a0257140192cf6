# soulshack core, modelled in Dafny

soulshack is an IRC bot that forwards chat to a language model. This project
models the deterministic logic of the bot, with every read of a file, a
subprocess, the clock or the model turned into a parameter:

- the IRC output chunker (a buffer that sends complete lines and force-splits long text);
- the message gates (addressed by nick, admin, valid, private, URL trigger);
- the command layer (registry and dispatch, `/help`, `/admins`, `/tools`, the config setters, key masking);
- session history trimming and the character total;
- the file-backed chat history (line format and the filtering reverse scan);
- word wrapping of replies and the admin check of `utils.go`;
- ReAct parsing of the `Action:` line;
- the `system_resource_monitor` tool script, which builds a report from `/proc`, `docker` and `uptime` output.

Modules, one per source file: `IrcChunker`, `IrcParsing`, `BotTriggers`,
`Commands` (registry and help), `AdminCommand`, `ToolsCommand`,
`ConfigFields`, `Sessions`, `History`, `Utils`, `React` and `SystemReport`.
Three shared modules sit alongside them. `Text` holds the Go and Python
string functions the code calls: fields, split, trim, find and join.
`GoStrconv` holds `ParseBool` and `Atoi`. `Wrappers` holds `Option`.

Code that updates state in place is modelled imperatively:
- the chunker buffer, the command registry, the admin list, the tool registry, the session and the history files are classes;
- each loop is a method proved equal to a specification function.

Pure code is modelled with functions and lemmas.

## Model

| member | source | states |
|---|---|---|
| IrcChunker.Chunker.constructor | internal/irc/chunker.go:18-24 | a new chunker has an empty buffer, has sent nothing and keeps the chunk size |
| IrcChunker.Chunker.Write | internal/irc/chunker.go:28-54 | appends to the output (earlier messages untouched) exactly the sent lines and chunk of WriteEffect; the buffer becomes the rest; the buffer never holds a newline afterwards |
| IrcChunker.Chunker.SendCompleteLines | internal/irc/chunker.go:32-45 | the read-line loop sends every non-empty complete line without its newline, in order, and leaves only the text after the last newline |
| IrcChunker.Chunker.ExtractBestSplitChunk | internal/irc/chunker.go:56-75 | returns the BestSplit chunk of the buffer and leaves its rest in the buffer |
| IrcChunker.Chunker.Flush | internal/irc/chunker.go:78-83 | sends the buffer once if it is not empty, sends nothing otherwise, and leaves the buffer empty |
| IrcChunker.BestSplit | internal/irc/chunker.go:61-74 | data == chunk + skipped + rest; the chunk is at most maxChunkSize long; a clean break drops one space, the last one at an index above 0 in the allowed range; otherwise a hard break at exactly min(max, len) with no usable space |
| IrcChunker.CompleteLines | internal/irc/chunker.go:32-45 | the complete lines hold no newline |
| IrcChunker.Pending | internal/irc/chunker.go:34-39 | the text kept after the last newline holds no newline |
| IrcChunker.LinesAndPendingRebuildText | internal/irc/chunker.go:32-45 | joining the complete lines and the pending text with newlines gives back the text |
| IrcChunker.WriteEffect | internal/irc/chunker.go:28-54 | everything a Write sends is non-empty and newline-free, and the new buffer has no newline |
| IrcChunker.WriteEffectCases | internal/irc/chunker.go:28-54 | a Write sends the non-empty complete lines, then one chunk exactly when the pending text reaches maxChunkSize |
| IrcChunker.WriteLosesNothing | internal/irc/chunker.go:28-75 | sent lines, dropped newlines, the chunk, the dropped space and the new buffer rebuild the written text |
| IrcChunker.AtMostOneForcedChunk | internal/irc/chunker.go:48-53 | at most one chunk beyond the complete lines, only when the buffer has reached the limit, and never longer than the limit |
| IrcChunker.CompleteLineIsSentWhole | internal/irc/chunker.go:32-45 | a complete line is sent whole however long it is, and nothing stays buffered |
| IrcChunker.LineStep | internal/irc/chunker.go:33-44 | consuming the first line of the buffer keeps the split of the whole text |
| IrcChunker.LastLine | internal/irc/chunker.go:34-39 | once no newline is left, the consumed lines are the complete lines and the buffer is the pending text |
| IrcParsing.CheckAddressed | internal/irc/parsing.go:6-20 | true for an empty nick; otherwise true iff the message is the nick, or starts with it followed by ' ', ':' or ',' |
| IrcParsing.LongerWordIsNotAddressed | internal/irc/parsing.go:17-19 | a nick followed by any other character does not address the bot |
| IrcParsing.Member | internal/irc/parsing.go:28-33 | the loop search is exact membership |
| IrcParsing.CheckAdmin | internal/irc/parsing.go:24-34 | true for an empty list; otherwise true iff the hostmask is in the list |
| IrcParsing.CheckValid | internal/irc/parsing.go:42-44 | false without arguments; otherwise true iff addressed, addressed mode off, or private |
| IrcParsing.CheckPrivate | internal/irc/parsing.go:47-49 | true iff the target is empty or does not start with '#' |
| BotTriggers.SchemeEnd | internal/bot/triggers.go:9 | finds a leading "http://" or "https://", and only those |
| BotTriggers.UrlPatternMeaning | internal/bot/triggers.go:9 | the pattern `^https?://[^\s]+` matches iff the message starts with a scheme followed by a non-space character |
| BotTriggers.CheckURLTrigger | internal/bot/triggers.go:12-24 | false when the watcher is off or the bot is addressed; otherwise true iff the message starts with a URL |
| BotTriggers.MidMessageUrlDoesNotTrigger | internal/bot/triggers.go:9-22 | a message whose first eight or more characters do not begin with "http://" or "https://" never triggers, whatever URL follows them |
| BotTriggers.FtpDoesNotTrigger | internal/bot/triggers.go:9-22 | an ftp URL never triggers |
| BotTriggers.EmptyUrlDoesNotTrigger | internal/bot/triggers.go:9-22 | a bare scheme, or one followed by a space, never triggers |
| Commands.Registry.constructor | internal/commands/command.go:21-25 | a new registry has no commands and no default |
| Commands.Registry.Register | internal/commands/command.go:29-36 | an empty name sets the default and leaves the map alone; another name is filed under it, replacing an earlier command |
| Commands.Registry.Get | internal/commands/command.go:39-42 | found iff the name is registered, and then it is that command |
| Commands.Registry.Dispatch | internal/commands/command.go:46-67 | unknown names run the default, or are not handled when there is none; an admin-only command from a non-admin gets exactly the permission reply; otherwise the named command runs |
| Commands.Registry.All | internal/commands/command.go:70-76 | each registered command exactly once (the default excluded), in an unspecified order |
| Commands.Visible | internal/commands/help.go:27-34 | no listed name is empty |
| Commands.VisibleMembers | internal/commands/help.go:27-34 | a name is shown iff a listed command has it, it is not empty, and the caller may run the command |
| Commands.VisibleDistinct | internal/commands/help.go:27-34 | distinct command names are shown at most once |
| Commands.VisibleNames | internal/commands/help.go:27-34 | the loop computes Visible |
| Commands.Help | internal/commands/help.go:22-37 | a non-admin never sees admin-only names; an admin sees every named command; each name once; one reply "Supported commands: " + the names |
| AdminCommand.WithoutFirst | internal/commands/admin.go:83-89 | removing a present hostmask shortens the list by one; removing an absent one changes nothing |
| AdminCommand.WithoutFirstKeepsOthers | internal/commands/admin.go:83-89 | exactly the first occurrence is deleted and the others keep their order |
| AdminCommand.WithoutFirstOfDistinct | internal/commands/admin.go:55-92 | in a list without duplicates, the removed hostmask is gone and the list stays duplicate-free |
| AdminCommand.AddThenRemove | internal/commands/admin.go:69-89 | adding a new hostmask and removing it again restores the list |
| AdminCommand.AdminCheckAfterChange | internal/commands/admin.go:69-89 | an added hostmask passes the admin check; removing the only admin lets everyone pass |
| AdminCommand.ListReply | internal/commands/admin.go:46-53 | "No admins configured" exactly for an empty list |
| AdminCommand.AddAdmin | internal/commands/admin.go:55-72 | an empty hostmask gets the usage reply; an existing admin is not duplicated; a new one is appended; the session is cleared only then; nothing but the admin list changes |
| AdminCommand.RemoveAdmin | internal/commands/admin.go:74-92 | an empty hostmask gets the usage reply; an absent one changes nothing; a present one is deleted once; the session is cleared only then |
| AdminCommand.Execute | internal/commands/admin.go:17-44 | no subcommand or "list" lists and changes nothing; a missing hostmask gets the usage reply; unknown subcommands are refused; "add" and "remove" give the usage, duplicate/absent or success reply of the joined hostmask and append it or delete its first occurrence exactly on success; the session is cleared iff the list changed |
| ToolsCommand.ParseToolName | internal/commands/tools.go:104-111 | the namespace and bare name of a tool; its properties are ParseToolNameSplits and ParseQualifiedName |
| ToolsCommand.ParseToolNameSplits | internal/commands/tools.go:106-111 | with "__", namespace + "__" + bare name == name and the namespace holds no "__"; without it, ("other", name) |
| ToolsCommand.ParseQualifiedName | internal/commands/tools.go:106-111 | a name built from a namespace without '_' parses back into that namespace and bare name |
| ToolsCommand.Namespaces | internal/commands/tools.go:205-206 | the namespace of each name, position by position |
| ToolsCommand.FirstSeen | internal/commands/tools.go:207-209 | every namespace once, and nothing else |
| ToolsCommand.FirstSeenOrder | internal/commands/tools.go:205-209 | namespaces are listed in the order of their first occurrence |
| ToolsCommand.Groups | internal/commands/tools.go:202-211 | a namespace is counted iff some name has it |
| ToolsCommand.GroupCountsSum | internal/commands/tools.go:201-214 | the group counts add up to the number of names |
| ToolsCommand.CountedStep | internal/commands/tools.go:206-210 | one loop turn keeps the map the true counts and the order the first-seen order |
| ToolsCommand.CountByNamespace | internal/commands/tools.go:202-211 | the loop yields the first-seen order and the true count per namespace |
| ToolsCommand.SummaryPartShape | internal/commands/tools.go:221-225 | an entry is "ns (1 tool)" for a count of 1 and "ns (N tools)" otherwise, and its number reads back as the count |
| ToolsCommand.FormatToolList | internal/commands/tools.go:201-214 | the grouped summary of the names |
| ToolsCommand.EffectiveMax | internal/commands/tools.go:231-234 | 350 for a limit of 0 or below, the limit otherwise |
| ToolsCommand.TruncateAsWritten | internal/commands/tools.go:231-239 | as written: panics exactly when the message is longer than a limit below 3 |
| ToolsCommand.TruncatePanicsOnTinyLimit | internal/commands/tools.go:235-236 | limits 2 and 1 with longer messages panic |
| ToolsCommand.Truncate | internal/commands/tools.go:231-239 | never longer than the limit; unchanged when it fits; otherwise exactly the limit long, ending in "..." after a prefix of the message |
| ToolsCommand.TruncateAgrees | internal/commands/tools.go:231-239 | wherever the written code does not panic, it gives Truncate's result |
| ToolsCommand.ToolsGetAsWritten | internal/commands/fields.go:15-38 | as written: panics for every non-empty tool list when the chunk size is 1 or 2 |
| ToolsCommand.ToolsGet | internal/commands/fields.go:15-38 | "No tools loaded" for no tools; otherwise at most the limit long |
| ToolsCommand.ToolsGetAgrees | internal/commands/fields.go:29-37 | both replies agree wherever the written one does not panic |
| ToolsCommand.SummaryPartIsLong | internal/commands/tools.go:221-225 | every summary entry is at least 9 characters long |
| ToolsCommand.SummaryIsLong | internal/commands/tools.go:201-227 | the summary of a non-empty tool list is at least 9 characters long |
| ToolsCommand.ListTools | internal/commands/tools.go:56-72 | "No tools loaded", or the grouped summary cut by the written truncateMessage; it panics iff there are tools and the chunk size is 1 or 2, and otherwise equals the intended Truncate |
| ToolsCommand.NamespaceListing | internal/commands/tools.go:83-92 | every listed name starts with "ns__" |
| ToolsCommand.WithPrefix | internal/commands/tools.go:86-88 | the kept names are tool names with the prefix |
| ToolsCommand.NamespaceListingKeepsNames | internal/commands/tools.go:83-92 | for a namespace without '_', the listing is exactly the tools with the "ns__" prefix, in order |
| ToolsCommand.NamespaceListingIsLong | internal/commands/tools.go:83-100 | a non-empty namespace listing is at least \|ns\| + 2 characters long |
| ToolsCommand.ListNamespace | internal/commands/tools.go:74-101 | an empty namespace lists all tools; otherwise "No tools in namespace: ns" or the joined listing cut by the written truncateMessage, which panics for a non-empty listing iff the chunk size is 1 or 2, and otherwise equals the intended Truncate |
| ToolsCommand.ServerGroups | internal/commands/tools.go:135-140 | every loaded server name gets a count |
| ToolsCommand.ServerOrder | internal/commands/tools.go:136-139 | server names in load order, repeats kept |
| ToolsCommand.ServerGroupsOfDistinct | internal/commands/tools.go:137-140 | with distinct server names, each is counted with its own tool count |
| ToolsCommand.FormatLoadResult | internal/commands/tools.go:130-142 | "No tools loaded" for no servers, else "Added: " + the grouped summary |
| ToolsCommand.AddTool | internal/commands/tools.go:113-127 | usage reply for an empty path; "Failed: " + the error; otherwise the load result |
| ToolsCommand.PlanRemoval | internal/commands/tools.go:152-165 | how `/tools remove` reads its pattern; its properties are PlanRemovalShape |
| ToolsCommand.PlanRemovalShape | internal/commands/tools.go:152-165 | a namespace removal always uses "ns__*"; a bare pattern gains a wildcard; a pattern without "*" is matched exactly as given |
| ToolsCommand.Matched | internal/commands/tools.go:169-177 | exactly the names that match, each a registered name |
| ToolsCommand.MatchedDistinct | internal/commands/tools.go:169-177 | distinct names give distinct matches |
| ToolsCommand.ToolRegistry.constructor | internal/commands/tools.go:150 | the registry holds the loaded tools |
| ToolsCommand.ToolRegistry.Has | internal/commands/tools.go:190 | true iff the tool is loaded |
| ToolsCommand.ToolRegistry.Remove | internal/commands/tools.go:174-193 | removes that tool and nothing else |
| ToolsCommand.ToolRegistry.All | internal/commands/tools.go:170 | every tool once, in an unspecified order |
| ToolsCommand.RemoveAllMatching | internal/commands/tools.go:169-177 | removes exactly the matching tools, reports each once, and keeps the rest |
| ToolsCommand.RemoveTool | internal/commands/tools.go:144-198 | usage reply for an empty pattern; wildcard removal reports the namespace, or the removed tools, or "No tools matched"; an exact name is removed if present, else "Not found" |
| ToolsCommand.Route | internal/commands/tools.go:19-54 | the subcommand dispatch of `/tools`; its properties are NonAdminOnlyLists and ListingIgnoresAdmin |
| ToolsCommand.NonAdminOnlyLists | internal/commands/tools.go:34-44 | a non-admin can only list; any other subcommand gets the permission reply |
| ToolsCommand.ListingIgnoresAdmin | internal/commands/tools.go:23-38 | listings are the same for admins and non-admins |
| ConfigFields.Get | internal/commands/fields.go:110-278 | the getter of each parameter, masking the API key; ApplyThenGet relates it to the setters |
| ConfigFields.Assign | internal/commands/fields.go:110-278 | the assignment of each setter; ApplyLeavesOthers and ApplyThenGet state its effect |
| ConfigFields.Names | internal/commands/fields.go:281-288 | one name per parameter, in table order |
| ConfigFields.Lookup | internal/commands/fields.go:110-278 | a found parameter has the key as its name |
| ConfigFields.LookupName | internal/commands/fields.go:110-278 | every parameter is found under its own name |
| ConfigFields.NamesAreDistinct | internal/commands/fields.go:110-278 | no two parameters share a name |
| ConfigFields.ExtraKeysAreNotParameters | internal/commands/fields.go:281-288 | "admins" and "tools" are not table entries |
| ConfigFields.MaskAPIKey | internal/commands/fields.go:291-299 | "(not set)" for an empty key; otherwise the same length, the first 4 characters shown only for keys longer than 4, the rest '*' |
| ConfigFields.MaskHidesTail | internal/commands/fields.go:291-299 | keys of the same length agreeing on their first 4 characters are masked alike |
| ConfigFields.ApplyParam | internal/commands/fields.go:110-278 | a setter never reports an unknown parameter |
| ConfigFields.Apply | internal/commands/fields.go:110-278 | unknown parameter iff the key is not in the table; otherwise that parameter's setter |
| ConfigFields.ApplyRejectsExactly | internal/commands/fields.go:110-266 | a setter rejects exactly the text its parser refuses (top_p also outside [0, 1]) |
| ConfigFields.ApplyThenGet | internal/commands/fields.go:110-278 | after a successful set, the getter reports the parsed value |
| ConfigFields.ApplyLeavesOthers | internal/commands/fields.go:110-278 | a setter changes its own field and no other, and never the admin list |
| ConfigFields.ChunkMaxAcceptsAnyInteger | internal/commands/fields.go:256-265 | chunkmax accepts every int64, zero and negatives included, and stores it |
| ConfigFields.BadBoolIsRejected | internal/commands/fields.go:112-116 | a value ParseBool refuses gets the "Please provide 'true' or 'false'" error and no assignment |
| ConfigFields.GetConfigKeys | internal/commands/fields.go:281-288 | every table key once, then "admins" and "tools"; no duplicates |
| ConfigFields.Configuration.constructor | internal/commands/fields.go:104-110 | holds the given settings |
| ConfigFields.Configuration.SetField | internal/commands/fields.go:110-278 | runs the setter; the fields change only when it succeeds, and then to the new settings |
| GoStrconv.ParseBool | internal/commands/fields.go:113 | accepts exactly Go's spellings of true and false |
| GoStrconv.ParseFormatBool | internal/commands/fields.go:113-120 | a formatted bool parses back |
| GoStrconv.Atoi | internal/commands/fields.go:132 | a value is returned only within int64 and only for all-digit text after an optional sign; the empty text and a lone sign are rejected |
| GoStrconv.AtoiAccepts | internal/commands/fields.go:132 | every optional sign followed by decimal digits, leading zeros included, reads as its signed value when that fits in int64 and is rejected otherwise |
| GoStrconv.AtoiNonCanonical | internal/commands/fields.go:132 | "007", "-0" and "+5" read as 7, 0 and 5 |
| GoStrconv.AtoiIntToString | internal/commands/fields.go:132-139 | a formatted int64 parses back |
| GoStrconv.NonDigitIsRejected | internal/commands/fields.go:132-135 | a non-digit after the sign is rejected |
| Sessions.Opening | session/sessions.go:79-86 | the opening messages are system messages, led by the prompt |
| Sessions.Trimmed | session/sessions.go:96-106 | the first message plus the newest MaxHistory; its properties are TrimmedShape, TrimmedKeepsNewest and TrimmedIdempotent |
| Sessions.TrimmedShape | session/sessions.go:96-106 | a history within MaxHistory is unchanged; otherwise MaxHistory + 1 messages: the first message, then the newest ones in order |
| Sessions.TrimmedKeepsNewest | session/sessions.go:101-105 | the newest message survives trimming |
| Sessions.TrimmedIdempotent | session/sessions.go:96-106 | trimming twice equals trimming once |
| Sessions.Session.constructor | session/sessions.go:42-50 | a new session is empty and its total is 0 |
| Sessions.Session.GetHistory | session/sessions.go:52-60 | returns the history and changes nothing |
| Sessions.Session.AppendMessage | session/sessions.go:90-94 | appends at the end, adds the message length to the total, and sets the time |
| Sessions.Session.AppendCountedTwice | session/sessions.go:79-85 | an opening message is appended and its length added twice |
| Sessions.Session.InitialMessagesAsWritten | session/sessions.go:74-88 | as written: an empty history gets the openings; their length is added twice, so a non-empty prompt breaks the count |
| Sessions.Session.InitialMessages | session/sessions.go:74-88 | the openings are added only to an empty history, each counted once |
| Sessions.Session.TrimHistory | session/sessions.go:96-106 | the in-place shift loop leaves Trimmed(history) |
| Sessions.Session.AddMessage | session/sessions.go:62-72 | as written: openings only for an empty history, then the message, then trimming; the total grows by twice the openings plus the message, so it stays the sum over the messages added only when the history was not empty |
| Sessions.Session.AddMessageIntended | session/sessions.go:62-72 | the same history with each opening counted once, so the total stays the sum over every message added |
| Sessions.Session.Reset | session/sessions.go:108-114 | takes the new config and empties the history; the total is not reset |
| Sessions.OpeningTotal | session/sessions.go:79-86 | the openings add their own length to the total |
| Sessions.OpeningLength | session/sessions.go:79-86 | the openings are as long as the prompt, plus the ReAct prompt in ReAct mode |
| Sessions.PromptCountedTwice | session/sessions.go:62-94 | a fresh session with prompt "hi" given the message "yo" holds 4 characters but totals 6 |
| History.FilePath | history.go:44-48 | the channel name with every '/' turned into '_', plus ".log" |
| History.SlashAndUnderscoreShareFile | history.go:44-48 | "#a/b" and "#a_b" share one file |
| History.SplitLine | history.go:103-107 | SplitN into three parts; its properties are SplitLineParts, SplitLineFails and SplitLineOfLine |
| History.SplitLineParts | history.go:103-107 | three parts lose nothing of the line, and the first two hold no '\|' |
| History.SplitLineFails | history.go:103-104 | a line is skipped for its shape iff it has fewer than two '\|' |
| History.SplitLineOfLine | history.go:62-107 | a written line splits back into timestamp, nick and message, even when the message holds '\|' |
| History.NickWithBarIsMisread | history.go:64-107 | a nick holding '\|' is read back wrongly |
| History.DropCR | history.go:89-91 | the scanner drops at most one trailing carriage return |
| History.ScanLines | history.go:88-92 | the scanner lines of a file; PiecesOfTerminated and ScanLinesAppend state them |
| History.PiecesOfTerminated | history.go:89-91 | a newline-terminated file has one line per piece |
| History.ScanLinesAppend | history.go:62-91 | appending one written line to a file adds exactly that line |
| History.Passes | history.go:103-129 | a kept line has the "<nick> msg" form of its parts |
| History.PassesExactly | history.go:103-129 | a line is kept iff it splits into 3 parts, its timestamp parses, it is within both time bounds, and it contains the search text ignoring case |
| History.Matches | history.go:101-137 | the kept messages in file order; MatchesAppend, MatchesTail and MatchesMembers state them |
| History.MatchesAppend | history.go:101-137 | the matches of a file are those of its first part followed by those of the rest |
| History.MatchesTail | history.go:101-146 | the matches of a suffix of the file are the last matches |
| History.MatchesMembers | history.go:101-137 | a message is returned iff some line is kept with it |
| History.Select | history.go:131-146 | CountOnly gives no messages; otherwise count == number of messages, at most Limit of them when Limit > 0, and exactly Limit when at least Limit lines match |
| History.Query | history.go:97-147 | the answer to a filter; QueryIsNewestMatches and QueryMatchesSearch state it |
| History.QueryIsNewestMatches | history.go:101-146 | the result is the newest matches in file order: all of them without a limit or when they fit, exactly Limit of them when more match |
| History.QueryMatchesSearch | history.go:108-129 | every result starts with "<" and contains the search text ignoring case |
| History.NewestIsLast | history.go:62-146 | a freshly added matching line is the last message returned |
| History.FilterLines | history.go:97-147 | the reverse-scan loop computes Select |
| History.FileHistory.constructor | history.go:35-42 | no files yet |
| History.FileHistory.Add | history.go:51-70 | appends the line "ts\|nick\|msg\n" to the channel's file; other files unchanged; a newline-free line is read back as one more line |
| History.FileHistory.Get | history.go:73-150 | the query over the file's lines; a missing file gives no messages and count 0 |
| Utils.Placed | utils.go:18-27 | the greedy placement; Wrapped and PlaceWords state it |
| Utils.Wrapped | utils.go:13-34 | the greedy lines; SplitResponse and PlaceWords state their properties |
| Utils.SplitResponse | utils.go:13-34 | the lines are the greedy placement of the words; blank input gives no lines; the non-empty lines joined by spaces are the words joined by spaces; a non-empty line fits the limit or is a single word; an empty line comes only first, and an over-long first word always yields one |
| Utils.PlaceWords | utils.go:18-33 | the word loop computes Wrapped, with the same properties as SplitResponse |
| Utils.SplitStep | utils.go:18-26 | one more word, with or without emitting the current line, keeps the loop invariant |
| Utils.BlankHasNoFields | utils.go:14 | white space only gives no words |
| Utils.IsAdmin | utils.go:37-48 | true for an empty admin list; otherwise exact membership; the same as CheckAdmin |
| React.FirstActionFrom | action/react.go:11-67 | the leftmost position of `(^\|\n)Action:` at or after p, or none |
| React.ReactFindActions | action/react.go:64-70 | "" iff the pattern matches nowhere; otherwise the suffix from the leftmost match |
| React.MidLineActionIsIgnored | action/react.go:11 | "Action:" inside a one-line message is not found |
| React.FirstSplitField | action/react.go:77-78 | Split(s, " ")[0] is the first space-separated token |
| React.ParseReact | action/react.go:72-87 | "invalid input" iff there is no ": "; the action is the trimmed first token after the first ": "; an unknown action is not run |
| React.ArgumentOf | action/react.go:73 | the text after the first ": " |
| React.ParsedActionIsFirstToken | action/react.go:77-78 | the parsed action is the trimmed first token of the argument |
| React.ActionLineRuns | action/react.go:72-87 | "Action: name args" runs `name` on "name args" when it is registered |
| SystemReport.RunEmitted | examples/tools/system.py:83-124 | every printed row comes from an emitting step of the loop |
| SystemReport.RunSteps | examples/tools/system.py:83-124 | the loop computes Run |
| SystemReport.ParseInts | examples/tools/system.py:48 | succeeds iff every field parses, and then gives each field's value |
| SystemReport.CpuReport | examples/tools/system.py:43-52 | the CPU section; CpuReportShape states it |
| SystemReport.CpuReportShape | examples/tools/system.py:43-52 | nothing without a leading "cpu "; otherwise total = the sum of the numbers after the label and idle = the 4th, with idle <= total for non-negative counters |
| SystemReport.SumBounds | examples/tools/system.py:49-50 | each non-negative counter is at most their sum |
| SystemReport.SumNonNegative | examples/tools/system.py:50 | the sum of non-negative counters is non-negative |
| SystemReport.MemTableBuilt | examples/tools/system.py:57-61 | the meminfo table builds iff every line has two fields and an int second field |
| SystemReport.MemTableKeys | examples/tools/system.py:57-61 | a key is in the table iff some line names it |
| SystemReport.MemTableLastWins | examples/tools/system.py:59-61 | a key holds the value of the last line naming it |
| SystemReport.BuildMemInfo | examples/tools/system.py:56-61 | the dict-building loop computes MemInfo |
| SystemReport.MemoryReport | examples/tools/system.py:53-68 | the memory section; MemoryBalance states it |
| SystemReport.MemoryBalance | examples/tools/system.py:53-68 | the report completes iff meminfo is well formed (else it crashes with no lines); used + free == total exactly; a missing MemTotal counts 0 |
| SystemReport.MemoryLines | examples/tools/system.py:53-68 | computes MemoryReport |
| SystemReport.DiskReport | examples/tools/system.py:69-79 | the disk section; MountPointsFromDevices states it |
| SystemReport.MountPointsFromDevices | examples/tools/system.py:71-72 | succeeds iff no "/dev/" line lacks a second field; a mount point is listed iff a "/dev/" line has it as its second field |
| SystemReport.DiskLines | examples/tools/system.py:69-79 | computes DiskReport |
| SystemReport.ProcessReport | examples/tools/system.py:80-100 | the process section; ProcessRowsSound and GoneProcessSkipped state it |
| SystemReport.ProcessRowsSound | examples/tools/system.py:80-100 | every row is for an all-digit entry whose stat could be read and whose owner exists |
| SystemReport.GoneProcessSkipped | examples/tools/system.py:84-97 | a vanished or non-numeric entry is skipped without error |
| SystemReport.ProcessLines | examples/tools/system.py:80-100 | computes ProcessReport |
| SystemReport.ContainerInfoIds | examples/tools/system.py:107-108 | an id is in the table iff some `docker ps` line has it, and it maps to a line with that id |
| SystemReport.BuildContainerInfo | examples/tools/system.py:108 | the dict comprehension computes ContainerInfo |
| SystemReport.WholeSecondsDropsFraction | examples/tools/system.py:119 | the start time loses its fractional seconds |
| SystemReport.NoContainersListed | examples/tools/system.py:105-128 | empty `docker ps` output prints only "No running Docker containers found." |
| SystemReport.StatsStep | examples/tools/system.py:114-124 | one `docker stats` line; StatsStepRow states it |
| SystemReport.StatsStepRow | examples/tools/system.py:114-124 | a row is printed only for a stats id found in the container list, with that list line, and its uptime is the written mktime-based column of the inspected start time |
| SystemReport.DockerReport | examples/tools/system.py:101-134 | the Docker section; NoContainersListed, DockerRowsFromStats and ContainerRowsJoined state it |
| SystemReport.DockerRowsFromStats | examples/tools/system.py:105-124 | every container row comes from the stats loop over non-empty outputs |
| SystemReport.ContainerRowsJoined | examples/tools/system.py:104-124 | every container row's id is in both the list and the stats output, and the row carries the list line |
| SystemReport.DockerLines | examples/tools/system.py:101-134 | computes DockerReport |
| SystemReport.Clock | examples/tools/system.py:121 | an HH:MM:SS text of 8 characters |
| SystemReport.ClockRoundTrip | examples/tools/system.py:121 | HH:MM:SS reads back as the seconds modulo 24 hours, and wraps every 24 hours |
| SystemReport.MkTime | examples/tools/system.py:119-120 | time.mktime as the UTC reading plus the zone offset |
| SystemReport.ContainerUptimeAsWritten | examples/tools/system.py:119-121 | the uptime column as written; ContainerUptimeAsWrittenIsShifted states it |
| SystemReport.ContainerUptimeAsWrittenIsShifted | examples/tools/system.py:119-121 | the written column reads back as the elapsed seconds minus the zone offset, modulo 24 hours |
| SystemReport.ContainerUptime | examples/tools/system.py:119-121 | the intended uptime column; ContainerUptimeIsElapsed states it |
| SystemReport.UptimeAgreesInUtc | examples/tools/system.py:119-121 | on a host that keeps UTC, the written column is the intended one |
| SystemReport.ContainerUptimeIsElapsed | examples/tools/system.py:119-121 | the uptime reads back as the elapsed seconds since the UTC start time, modulo 24 hours |
| SystemReport.TimeGmEpoch | examples/tools/system.py:119 | 1970-01-01T00:00:00 is second 0 |
| SystemReport.ClockOfZeroAndOneHour | examples/tools/system.py:121 | 0 and 3600 seconds print as "00:00:00" and "01:00:00" |
| SystemReport.UptimeShiftedByZone | examples/tools/system.py:119-121 | as written, one hour east of UTC a container started this second shows "01:00:00" instead of "00:00:00" |
| SystemReport.UptimeReport | examples/tools/system.py:135-146 | the load-average section: the `uptime` output or its error |
| SystemReport.Outcome | examples/tools/system.py:33-153 | what the script prints and how it ends; MissingResourceFails, UnknownResourceFails and Routing state it |
| SystemReport.MissingResourceFails | examples/tools/system.py:36-40 | a missing or falsy "resource" fails with the required-field error before any line |
| SystemReport.UnknownResourceFails | examples/tools/system.py:43-150 | an unknown resource prints no line and fails with the unknown-type error |
| SystemReport.SectionsSelected | examples/tools/system.py:43-147 | for a known resource, the section chain gives that resource's sections |
| SystemReport.Routing | examples/tools/system.py:43-147 | a known resource gets exactly its own sections, and "all" gets every section in order |
| SystemReport.ThenEmpty | examples/tools/system.py:43-147 | an unselected section adds nothing |
| SystemReport.ThenStep | examples/tools/system.py:43-147 | printing the lines of one section and then the rest is the joined report |
| SystemReport.Execute | examples/tools/system.py:33-153 | computes Outcome: invalid JSON, a missing resource, or the selected sections followed by the unknown check |
| SystemReport.RunSections | examples/tools/system.py:43-150 | the sections in source order computes Sections |
| SystemReport.LaterSections | examples/tools/system.py:80-150 | the process, docker and uptime sections and the unknown check compute their part of the chain |

## Left out

- Sockets, channels, goroutines and locks. The chunker's output channel is a sequence of sent messages. The session, registry and history mutexes are not modelled. `SessionMap` and its reaper are not modelled either.
- File and subprocess I/O. File contents, `docker`/`uptime` output, directory listings, `pwd`, `shutil.disk_usage` and the clock are parameters of `SystemReport.Machine` and of the history methods. I/O errors other than a missing file, and `bufio.Scanner`'s 64 KiB line limit, are not modelled.
- Foreign parsers are parameters or abstract results. These are `time.Parse` (RFC 3339), `time.ParseDuration`, `strconv.ParseFloat`, Python's `int()` and `time.strptime`, JSON decoding and `path.Match` globbing.
- Loading tools (`LoadToolAuto`) and the ReAct prompt builder are parameters. Running a ReAct action (`Execute`) is outside the model.
- Floating point. Temperature and top_p are stored as parsed reals, without float32 rounding. The system report keeps kilobytes, bytes and clock ticks instead of the rounded MB/GB/second values. Formatting of `%f` and of `time.Duration.String()` is abstract.
- String lengths are counted in characters, while Go's `len` counts bytes. `strings.ToLower` is modelled as ASCII lower-casing, and `str.isdigit` as ASCII digits.
- Go map iteration order is arbitrary. `All()` picks any order, and no contract depends on one.
- `handleToolsSet` (`/set tools`) duplicates `/tools add|remove` with other replies and is not part of this model.
- The `Verbose` debug dump, the CLI argument handling of the tool script (`--schema`, `--name`, `--description`) and the base directory of history files are not modelled.
- Sessions.Session.TrimHistory: requires MaxHistory >= -1, because for lower values the slice bound is negative and Go panics.
- IrcChunker.Chunker.constructor: takes a non-negative chunk size, because a negative size makes `min` a negative slice bound and Go panics.
- SystemReport.MkTime: models `time.mktime` as a fixed zone offset, without daylight-saving rules.
- SystemReport.ContainerUptimeAsWritten: the script's `time.time()` is the integer `now`, with sub-second parts dropped.
- Quirks of the source, modelled as written:
  - `listNamespace` rebuilds names from the bare name, so a namespace holding '_' can list renamed tools.
  - `formatLoadResult` lets a later server of the same name overwrite the count but still lists its name twice.
  - Removing the last admin leaves an empty list, which makes everyone an admin.
  - `Reset` does not reset `Totalchars`.
  - A nick containing '|' is misread by the history.
  - '/' and '_' channel names share one history file.
  - `CountOnly` ignores `Limit`.
  - The unknown-resource message omits 'uptime' although 'uptime' is accepted.
  - A process name containing spaces shifts the stat fields.
  - A `StartedAt` without fractional seconds keeps its 'Z' and makes `strptime` crash.
  - Only `FileNotFoundError` is caught in the process loop, so any other error ends the script.
  - The unknown-resource check runs after the sections.

## Findings

| source | as written | input that shows it | evidently intended | confidence | as-written member | corrected member |
|---|---|---|---|---|---|---|
| internal/commands/tools.go:231-239, internal/commands/fields.go:30-36 | `message[:maxLen-3]` with a limit of 1 or 2 has a negative slice bound, which panics | chunkmax 2 (accepted by the setter), message "abc" | cut to the limit without a negative bound | high (proved; not executed) | ToolsCommand.TruncateAsWritten, ToolsCommand.TruncatePanicsOnTinyLimit, ToolsCommand.ToolsGetAsWritten, ToolsCommand.ListTools, ToolsCommand.ListNamespace | ToolsCommand.Truncate, ToolsCommand.TruncateAgrees, ToolsCommand.ToolsGet, ToolsCommand.ToolsGetAgrees |
| session/sessions.go:79-80,84-85,90-94 | `addMessage` already adds the prompt length to `Totalchars`, and `initialMessages` adds it again | an empty session with prompt "hi" adds 4 characters instead of 2 | each message counted once | high (proved; not executed) | Sessions.Session.InitialMessagesAsWritten, Sessions.Session.AddMessage, Sessions.PromptCountedTwice | Sessions.Session.InitialMessages, Sessions.Session.AddMessageIntended |
| examples/tools/system.py:119-121 | Docker's `StartedAt` is UTC, but `time.mktime` reads it as local time, so the uptime is off by the zone offset | a container started now, on a host one hour east of UTC, shows "01:00:00" | elapsed time since the UTC start (`calendar.timegm`) | medium (proved for a fixed offset; not executed) | SystemReport.ContainerUptimeAsWritten, SystemReport.ContainerUptimeAsWrittenIsShifted, SystemReport.UptimeShiftedByZone, SystemReport.StatsStepRow | SystemReport.ContainerUptime, SystemReport.ContainerUptimeIsElapsed, SystemReport.UptimeAgreesInUtc |
