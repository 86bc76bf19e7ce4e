# Verified model of a file integrity monitor and its libraries

The repository is a daemon that watches directories, keeps a table of file
checksums, and raises an alert when a file is created, changed or deleted. It
carries two libraries of its own: the configuration reader libconfig 1.4.9 and
an MD5 implementation. This project models the parts of the three that are hard
to get right and proves what they promise, for all inputs or all runs.

**Configuration (`Config*.dfy`).** The settings tree is a store of numbered
settings with parent links and element buffers (a number stands for a
pointer). `ConfigTables` holds the parse tables of grammar.c,
`ConfigActions` the semantic actions with their two cursors, `ConfigParser` and
`ConfigYyparse` the shift/reduce loop, `ConfigScanner` and `ConfigYylex` the
scanner, `ConfigPrinter` and `ConfigWriter` the printer, `ConfigList`,
`ConfigTree`, `ConfigRemoval`, `ConfigEdits`, `ConfigEffects` and `ConfigObject` the
tree under edits, `ConfigLookup` the path lookup. The results build up like this:

- The tables accept exactly the writings of configurations (soundness in
  `ConfigGrammar`, completeness in `ConfigComplete`, both in `ConfigLanguage`).
- The cursor actions build exactly the recursive meaning of what was parsed
  (`ConfigRefine`), in a tree that satisfies the invariant of the edits
  (`ConfigParsed`).
- Every sequence of edits keeps that invariant (`ConfigEdits`), and each edit does to
  the meaning of the tree what its caller asked for, and nothing else (`ConfigEffects`).
- Texts that people write and the printer does not are read as the patterns say:
  comments, numbers, booleans and escapes in all their forms (`ConfigTexts`).
- What the printer writes is scanned and parsed back to the same tree
  (`ConfigLexing`, `ConfigRoundTrip`), and nothing else can be (`ConfigExact`); so do
  the loops with the parser's real stack limit (`ConfigDepth`, `ConfigFiles`).
  `ConfigKnown` has the value of each token and the exact text of a small tree.

**Monitor (`Timers.dfy`, `FileDb.dfy`, `Monitor*.dfy`, `FileAnalysis.dfy`).** The
watcher, analysis and timer threads are a step system: a step acquires one
mutex, or runs a critical section and releases it, or is a piece of
thread-local code between two readings of the clock. The clock is monotone, the
interval is not negative, database calls succeed, and the ignore and grep
filters are a fixed set of names. Timers carry the timestamp of the row they
were made for, and the state carries a history, as proof devices; no guard reads
them. `FileAnalysis` is `do_analysis` as a program over its objects, and shows
that the step system runs it when no other thread interferes. `MonitorQueue` tells
what the queue does from the list of steps alone.
`Watcher.dfy`, `WatcherWalk.dfy`, `Alerter.dfy` and `Paths.dfy` are the
directory traversal and the alert dispatch.

**MD5 (`Md5*.dfy`).** The specification is RFC 1321, sections
3.1 to 3.5; the program is the unrolled compression and the streaming buffer.
`Md5Bits` has the truth tables of the auxiliary functions, `Md5Known` the digest of
"abc" from section A.5 and the shape of the padding.

Some properties that one would expect turn out false of the code. Each is kept with
an input that shows it and with the exact condition:

- "At most one timer per file": `MonitorExample.TwoTimersReachable`; two are live
  exactly when a full check forgot one of them (`MonitorLive.TwoLiveExactly`), which
  cannot be once the row is an interval old, less a second (`MonitorLive.OneLiveTimer`).
- "A file that is not there has no row": `MonitorExample.MissingIsCreated`; exact in
  `MonitorAlerts.RowIsLastObservation`.
- "Arrays are homogeneous" under `config_setting_add`: `ConfigEdits.AddCanMix`; exact
  in `ConfigEdits.EditKeepsStrict`.
- "What is written can be read back": for deep trees `ConfigFiles.NestingIsTight`, exact
  in `ConfigFiles.WriteThenRead`; for values and names that the printer cannot write
  `ConfigExact.Lost`, exact in `ConfigExact.RoundTripExactly`.
- "A lookup that succeeds denotes its result": `ConfigLookup.LoneBracketFindsRoot`;
  exact in `ConfigLookup.LookupExact`.
- "Nothing in or under an excluded directory is found":
  `WatcherWalk.SlashInFilter` and `WatcherWalk.SlashInRoot`; exact in
  `WatcherWalk.ExclusionExact`.
- "An analysis gets the directory in which the file was found":
  `WatcherWalk.RootFiles`; exact in `WatcherWalk.BaseOfEntry`. So a rule kept under a
  directory that ends in a slash misses the files of that directory
  (`WatcherWalk.SlashRuleMissed`), and a rule for / is no default (`Alerter.RootRule`).
- "An event is analysed under the path that the walk found": exact in
  `WatcherWalk.EventName`.

## Model

| member | source | states |
|---|---|---|
| ConfigTables.DecodeAction | libconfig-1.4.9/lib/grammar.c:584-640 | looking an action up in the compressed tables (default reductions, check table) yields the action of the decoded automaton, for every state and terminal |
| ConfigTables.DecodeGoto | libconfig-1.4.9/lib/grammar.c:594-640 | the same for the goto tables, for every transition the automaton has |
| ConfigGrammar.NoErrorRecovery | libconfig-1.4.9/lib/grammar.c:1907-1934 | no state shifts the error token |
| ConfigGrammar.AcceptedDerives | libconfig-1.4.9/lib/grammar.c:512-580 | every accepted token sequence is the yield of a derivation tree from `configuration` under the listed rules |
| ConfigYyparse.Recover | libconfig-1.4.9/lib/grammar.c:1907-1934 | after a syntax error the popping loop always ends in abort |
| ConfigYyparse.YyParse | libconfig-1.4.9/lib/grammar.c:1303-1990 | the loop returns 0 only with the result of the unbounded parser, 1 only if that does not accept, and 2 exactly when the stack limit is reached |
| ConfigComplete.ParseTree | libconfig-1.4.9/lib/grammar.c:1386-1810 | on the tokens of any configuration the parser performs exactly the actions of its tree in reduction order, and accepts unless one fails |
| ConfigLanguage.AcceptsExactly | libconfig-1.4.9/lib/grammar.c:503-640 | the parser accepts a token sequence if and only if it is the writing of a configuration whose actions all succeed, with their result |
| ConfigRefine.SimpleAct | libconfig-1.4.9/lib/grammar.c:1555-1753 | string parts are concatenated and stored once, other scalars go to the vector or the member with their kind and format |
| ConfigRefine.ScalarAppended | libconfig-1.4.9/lib/grammar.c:1555-1753 | a scalar in a vector becomes its next element and means what was written, or aborts with a mismatched type, exactly by the type check |
| ConfigRefine.MemberBegun | libconfig-1.4.9/lib/grammar.c:1478-1494 | a member is created exactly when its name is valid and unused, otherwise the parser aborts with a duplicate setting |
| ConfigRefine.ActionsRefineMeaning | libconfig-1.4.9/lib/grammar.c:1476-1783 | the actions succeed exactly on configurations with valid unrepeated names and homogeneous arrays; then the tree at the root is the recursive meaning and the parent cursor is back at the root; otherwise the only aborts are duplicate names and mismatched elements |
| ConfigKnown.TokenValues | libconfig-1.4.9/lib/grammar.c:1555-1753 | a name, an equals sign and one token of a value make a configuration with that one setting: its type and format by the token, its value the number, float text or string in it |
| ConfigKnown.StringParts | libconfig-1.4.9/lib/grammar.c:1555-1571 | three strings in a row make one string, in their order |
| ConfigKnown.JoinedAppend | libconfig-1.4.9/lib/grammar.c:1555-1571 | the text of strings in a row is that of the first ones followed by that of the others |
| ConfigParsed.ParsedIsTree | libconfig-1.4.9/lib/grammar.c:1476-1783 | every accepted input builds a tree with matching links, valid unique names, covered buffers, named members and homogeneous arrays |
| ConfigScanner.BestLongest | libconfig-1.4.9/lib/scanner.c:905-941 | the chosen rule has a longest match |
| ConfigScanner.BestIs | libconfig-1.4.9/lib/scanner.c:905-941 | and is the earliest such rule |
| ConfigYylex.Scanner.Lex | libconfig-1.4.9/lib/scanner.c:870-1215 | one call returns the next token and leaves the rest of the token sequence, or reports the end |
| ConfigYylex.Tokens | libconfig-1.4.9/lib/scanner.c:870-1215 | repeated calls yield the tokens of the text |
| ConfigLexing.StringLiteral | libconfig-1.4.9/lib/scanner.c:986-1050 | a printed string literal is read back as the string, for all strings of bytes 1 to 255 |
| ConfigLexing.Integer | libconfig-1.4.9/lib/scanner.c:1148-1151 | a printed 32-bit integer, negative ones included, is read back as itself |
| ConfigLexing.Integer64 | libconfig-1.4.9/lib/scanner.c:1153-1156 | the same for 64-bit integers with their suffix |
| ConfigLexing.Hex | libconfig-1.4.9/lib/scanner.c:1158-1164 | a hexadecimal print of a 32-bit integer is read back as the signed value |
| ConfigLexing.Hex64 | libconfig-1.4.9/lib/scanner.c:1166-1169 | the same for 64-bit integers |
| ConfigLexing.Boolean | libconfig-1.4.9/lib/scanner.c:1128-1136 | printed booleans win over names and are read back |
| ConfigLexing.Name | libconfig-1.4.9/lib/scanner.c:1138-1141 | a valid name that is no boolean keyword in any letter case is read back as a name |
| ConfigTexts.Characters | libconfig-1.4.9/lib/scanner.l:86-96 | the characters of digits, names, blanks and path tokens, listed one by one |
| ConfigTexts.LineComment | libconfig-1.4.9/lib/scanner.l:95 | a # or // and whatever follows up to the newline yields no token, and scanning goes on at the newline |
| ConfigTexts.UnendedComment | libconfig-1.4.9/lib/scanner.l:95 | on a last line that does not end with a newline the # is no comment but garbage, and the text after it is scanned |
| ConfigTexts.BlockComment | libconfig-1.4.9/lib/scanner.l:102-105 | a bracket comment yields no token up to its first end, whatever is in it |
| ConfigTexts.UnendedBlock | libconfig-1.4.9/lib/scanner.l:102-105 | without an end it yields no token up to the end of the text |
| ConfigTexts.DecimalNumber | libconfig-1.4.9/lib/scanner.c:1148-1151 | digits with or without a sign are their value, cut to 64 bits and then taken modulo 2^32 into the signed range; exactly the value when it fits |
| ConfigTexts.DecimalNumber64 | libconfig-1.4.9/lib/scanner.c:1153-1156 | with L or LL they are their value cut to 64 bits |
| ConfigTexts.HexNumber | libconfig-1.4.9/lib/scanner.c:1158-1164 | 0x or 0X and digits in any letter case are their value, cut to 64 bits and taken modulo 2^32 into the signed range |
| ConfigTexts.HexNumber64 | libconfig-1.4.9/lib/scanner.c:1166-1169 | with L or LL they are taken modulo 2^64 into the signed range |
| ConfigTexts.FloatWithPoint | libconfig-1.4.9/lib/scanner.l:94 | a point with or without sign, digits on either side and exponent is one float token with that text |
| ConfigTexts.FloatWithoutPoint | libconfig-1.4.9/lib/scanner.l:94 | so are digits with an exponent |
| ConfigTexts.AnyCaseBoolean | libconfig-1.4.9/lib/scanner.l:86-87 | true and false in any letter case are the booleans 1 and 0 |
| ConfigTexts.Literals | libconfig-1.4.9/lib/scanner.c:986-1050 | a literal of plain text, escapes, \\x of any two digits and lone backslashes, in any order, is the string of their values; a zero byte adds nothing |
| ConfigTexts.UnendedString | libconfig-1.4.9/lib/scanner.c:986-1050 | plain text after an opening quote that is never closed yields no token |
| ConfigTexts.OtherBreak | libconfig-1.4.9/lib/scanner.l:155 | carriage returns and form feeds are skipped |
| ConfigTexts.StrangeIsGarbage | libconfig-1.4.9/lib/scanner.l:179 | a character that starts nothing is a garbage token |
| ConfigTexts.LoneSign | libconfig-1.4.9/lib/scanner.l:179 | so is a sign without a number |
| ConfigTexts.LoneSlash | libconfig-1.4.9/lib/scanner.l:179 | and a slash without a comment |
| ConfigTexts.AtSign | libconfig-1.4.9/lib/scanner.l:96 | and an at sign, but for an @include at the beginning of a line |
| ConfigTexts.IncludeIsError | libconfig-1.4.9/lib/scanner.c:1051-1095 | at the beginning of a line, after any blanks, @include and a quote end the tokens with an error when the file cannot be opened |
| ConfigWriter.WriteIndent | libconfig-1.4.9/lib/libconfig.c:154-164 | the indentation is the given number of blanks or tabs |
| ConfigWriter.WriteEscaped | libconfig-1.4.9/lib/libconfig.c:248-291 | the character loop writes the escaped string |
| ConfigWriter.WriteValue | libconfig-1.4.9/lib/libconfig.c:168-392 | what is appended to the stream is the text of the abstract tree below the setting |
| ConfigWriter.WriteSetting | libconfig-1.4.9/lib/libconfig.c:631-653 | the same for a named setting with its terminator |
| ConfigWriter.Write | libconfig-1.4.9/lib/libconfig.c:657-664 | the stream receives the text of the whole tree |
| ConfigKnown.SampleText | libconfig-1.4.9/lib/libconfig.c:168-392 | the text of a tree with a group, an array, a list, escapes and a hexadecimal number, character by character |
| ConfigRoundTrip.PrintedTokens | libconfig-1.4.9/lib/libconfig.c:168-392 | the text of a printable tree scans to the tokens of its concrete syntax, for every tab width |
| ConfigRoundTrip.RoundTrip | libconfig-1.4.9/lib/libconfig.c:631-664 | scanning and parsing what was printed is accepted and builds the same tree: names, order, types, values and formats |
| ConfigExact.ParsedIsPrintable | libconfig-1.4.9/lib/grammar.c:1476-1783 | whatever tree without floats any text is parsed to is printable: named members, no name that reads as a boolean, homogeneous arrays, booleans 0 or 1, no null strings, no settings without a type |
| ConfigExact.RoundTripExactly | libconfig-1.4.9/lib/libconfig.c:631-664 | a tree without floats comes back if and only if it is printable |
| ConfigExact.Lost | libconfig-1.4.9/lib/scanner.c:1128-1141 | a member named true, an unnamed member, a setting without a type, a null string and a boolean 2 do not come back |
| ConfigExact.ScanClean | libconfig-1.4.9/lib/scanner.c:1128-1141 | the scanner never returns a name that reads as a boolean, nor a boolean other than 0 and 1 |
| ConfigWriter.AbsPrintable | libconfig-1.4.9/lib/libconfig.c:168-392 | a tree with named members, homogeneous arrays and plain values is printable |
| ConfigWriter.StoreRoundTrip | libconfig-1.4.9/lib/libconfig.c:631-664 | the round trip for trees in the store |
| ConfigWriter.EditedRoundTrip | libconfig-1.4.9/lib/libconfig.c:551-664 | read, edit with care, write and read again: the same tree |
| ConfigDepth.DeepestExactly | libconfig-1.4.9/lib/grammar.c:1303-1360 | parsing a configuration takes exactly the stack that a function of its syntax says when the actions succeed, and no more otherwise |
| ConfigDepth.StackSuffices | libconfig-1.4.9/lib/grammar.c:929-931 | configurations nested at most 1665 levels deep fit the stack, whatever they hold |
| ConfigFiles.NestingIsTight | libconfig-1.4.9/lib/grammar.c:929-931 | a printable tree nested one level deeper does not fit |
| ConfigFiles.PrintedFits | libconfig-1.4.9/lib/grammar.c:1303-1360 | parsing a printed tree takes exactly the stack that a function of the tree says, for every tab width |
| ConfigFiles.WriteThenRead | libconfig-1.4.9/lib/libconfig.c:551-664 | the stream printer, the scanner loop and the parser loop together return 2 exactly when the tree needs more stack than there is, and else return 0 and the same tree |
| ConfigList.SettingList.Add | libconfig-1.4.9/lib/libconfig.c:396-407 | every write lands in the buffer; the list is extended by the element; capacity covers the length rounded up to 16 |
| ConfigList.SettingList.Remove | libconfig-1.4.9/lib/libconfig.c:440-455 | the tail moves down by one, the capacity stays |
| ConfigList.StringBuffer.Append | libconfig-1.4.9/lib/strbuf.c:41-55 | the text is appended, NUL-terminated inside the block, and the block is a multiple of 64 |
| ConfigList.StringBuffer.Release | libconfig-1.4.9/lib/strbuf.c:32-37 | the string goes to the caller and the buffer is null again |
| ConfigObject.CompareNamesLoop | libconfig-1.4.9/lib/libconfig.c:128-150 | the loop computes the comparison of first path components |
| ConfigObject.ValidateName | libconfig-1.4.9/lib/libconfig.c:530-547 | the loop accepts exactly the valid names |
| ConfigObject.Config.ListSearch | libconfig-1.4.9/lib/libconfig.c:411-436 | the loop finds the first element whose name matches |
| ConfigObject.Config.Index | libconfig-1.4.9/lib/libconfig.c:1595-1617 | the position at which the parent holds the setting; -1 exactly for the root |
| ConfigObject.Config.AddSetting | libconfig-1.4.9/lib/libconfig.c:1521-1543 | succeeds exactly when the edit does and keeps the tree invariant; the new setting is last in its parent with the name and kind asked for and no value, and all else is as before |
| ConfigObject.Config.SetValue | libconfig-1.4.9/lib/libconfig.c:974-1126 | the setting means the value, with its format kept, and all else is as before |
| ConfigObject.Config.SetElem | libconfig-1.4.9/lib/libconfig.c:1256-1451 | appending, the elements mean what they meant, followed by the value in the default format; in place, exactly that element means the value, with its format kept; the tree invariant holds |
| ConfigObject.Config.Destroy | libconfig-1.4.9/lib/libconfig.c:459-503 | the recursion frees exactly the settings whose parent chain passes through the given one |
| ConfigObject.Config.Remove | libconfig-1.4.9/lib/libconfig.c:1547-1565 | the first member that matches goes with everything under it, exactly when there is one; the others mean what they meant and the tree invariant holds |
| ConfigObject.Config.RemoveElem | libconfig-1.4.9/lib/libconfig.c:1569-1591 | the same by position |
| ConfigRemoval.RemoveAtNodes | libconfig-1.4.9/lib/libconfig.c:440-503 | what is left are the settings not under the removed one, unchanged but for the parent's list |
| ConfigRemoval.Siblings | libconfig-1.4.9/lib/libconfig.c:486-503 | nothing is under two elements of one setting, so nothing is freed twice |
| ConfigRemoval.RemoveTree | libconfig-1.4.9/lib/libconfig.c:1547-1591 | removals keep the tree invariant |
| ConfigEdits.EditKeepsTree | libconfig-1.4.9/lib/libconfig.c:974-1126 | every call keeps links, valid unique names, fitting values and covered buffers |
| ConfigEdits.EditsKeepTree | libconfig-1.4.9/lib/libconfig.c:1521-1591 | so does every sequence of calls |
| ConfigEdits.EditKeepsStrict | libconfig-1.4.9/lib/libconfig.c:507-526 | named members and homogeneous arrays survive every call but config_setting_add, and that one exactly when its caller passed a name to a group and a fitting scalar type to an array |
| ConfigEdits.EditsKeepStrict | libconfig-1.4.9/lib/libconfig.c:1256-1591 | so they survive every sequence of such calls |
| ConfigEdits.ArraysStayUniform | libconfig-1.4.9/lib/libconfig.c:1256-1451 | an array filled by set_*_elem only stays homogeneous, whatever happens to other settings |
| ConfigEdits.AddCanMix | libconfig-1.4.9/lib/libconfig.c:1521-1543 | a string can be added to an array of ints |
| ConfigEdits.GoneForGood | libconfig-1.4.9/lib/libconfig.c:752-779 | a removed setting never comes back |
| ConfigEffects.AddEffect | libconfig-1.4.9/lib/libconfig.c:1521-1543 | after config_setting_add the elements are the old ones, meaning what they meant, and the new one without a value at the end |
| ConfigEffects.AppendEffect | libconfig-1.4.9/lib/libconfig.c:1256-1451 | after an append they are the old ones and the value at the end |
| ConfigEffects.SetElementEffect | libconfig-1.4.9/lib/libconfig.c:1256-1451 | after a set by position that one element means the value, with its name and format, and the others what they meant |
| ConfigEffects.SetEffect | libconfig-1.4.9/lib/libconfig.c:974-1113 | after config_setting_set_* the setting means the value; an int keeps of a 64-bit value what fits, or 0 |
| ConfigEffects.FormatEffect | libconfig-1.4.9/lib/libconfig.c:1117-1127 | setting a format changes the format of an integer and nothing else |
| ConfigEffects.RemoveElementEffect | libconfig-1.4.9/lib/libconfig.c:1569-1591 | removing by position leaves the elements before and after it, meaning what they meant |
| ConfigEffects.RemoveMemberEffect | libconfig-1.4.9/lib/libconfig.c:1547-1565 | removing by name removes the first member with the first component of the key; refused exactly when there is none, and by what is no group |
| ConfigEffects.SetRefused | libconfig-1.4.9/lib/libconfig.c:974-1113 | a value is refused exactly by a setting with another type, but an int takes 64-bit values |
| ConfigEffects.AppendRefused | libconfig-1.4.9/lib/libconfig.c:1256-1451 | an append is refused exactly by what is no array or list, and by an array of another type |
| ConfigEffects.ElementRefused | libconfig-1.4.9/lib/libconfig.c:1256-1591 | a call by position is refused exactly when there is no such element, or the element refuses the value |
| ConfigEffects.FormatRefused | libconfig-1.4.9/lib/libconfig.c:1117-1127 | a format is refused exactly by what is no integer, and when it is neither of the two |
| ConfigEffects.AddRefused | libconfig-1.4.9/lib/libconfig.c:1521-1543 | a named member of a group is refused exactly when the name is invalid or taken |
| ConfigLookup.CompareFirst | libconfig-1.4.9/lib/libconfig.c:128-150 | two texts compare equal if and only if their first path components are the same |
| ConfigLookup.CompareOpposite | libconfig-1.4.9/lib/libconfig.c:128-150 | the comparison is antisymmetric |
| ConfigLookup.CompareTransitive | libconfig-1.4.9/lib/libconfig.c:128-150 | and transitive |
| ConfigLookup.CompareOrder | libconfig-1.4.9/lib/libconfig.c:128-150 | and negative exactly when the first component of one text comes before that of the other in a dictionary |
| ConfigLookup.LookupFrom | libconfig-1.4.9/lib/libconfig.c:1139-1168 | the loop over the path follows its steps one by one |
| ConfigLookup.LookupExact | libconfig-1.4.9/lib/libconfig.c:1139-1168 | the result is the setting that the steps denote, if and only if the path does not end in a lone bracket after a setting without elements |
| ConfigLookup.LoneBracketFindsRoot | libconfig-1.4.9/lib/libconfig.c:1139-1168 | looking up `[` in an empty configuration returns the root, though its step denotes nothing |
| ConfigLookup.JoinedBack | libconfig-1.4.9/lib/libconfig.c:1139-1168 | well-formed steps joined by a path token are read as those steps |
| ConfigLookup.IndexReads | libconfig-1.4.9/lib/libconfig.c:1139-1168 | an index is read after blanks, with any sign and any digits, cut to 64 bits, modulo 2^32 |
| ConfigLookup.LookupFindsEverySetting | libconfig-1.4.9/lib/libconfig.c:1139-1174 | the joined names and positions of any setting of the tree lead to that setting |
| Timers.TaskTimerManager.Add | src/TaskTimerManager.hpp:69-75 | inserts behind the timers with the same expiration and keeps the order |
| Timers.TaskTimerManager.Cancel | src/TaskTimerManager.hpp:77-94 | removes the timer with the expiration and id if it is there, else changes nothing |
| Timers.TaskTimerManager.ExecutePass | src/TaskTimerManager.hpp:54-63 | one pass enqueues exactly the nodes of the timers that are due, in order, and erases those |
| Timers.InsertBehind | src/TaskTimerManager.hpp:69-75 | a new timer stands behind exactly those that expire no later |
| Timers.RemoveExact | src/TaskTimerManager.hpp:77-94 | with distinct ids, cancelling takes out exactly that timer |
| FileDb.FindAfterInsert | src/file_db.cpp:82-91 | after an insert of an absent name, that name has the new row and others are unchanged |
| FileDb.FindAfterUpdate | src/file_db.cpp:93-100 | the same for an update of a present name |
| FileDb.FindAfterDelete | src/file_db.cpp:102-107 | after a delete the name has no row and others are unchanged |
| FileDb.StaysUnique | src/file_db.cpp:55-107 | at most one row per name is kept by updates, deletes, and inserts of absent names |
| MonitorLocks.NoDeadlock | src/file_analysis.cpp:54-135 | in every reachable state no chain of mutex waits between the threads is a cycle |
| MonitorQueue.QueueInOrder | src/file_analysis.cpp:54-110 | in every run the nodes taken off the queue so far, followed by those in it, are the nodes that the watcher and the timers handed over, in that order |
| MonitorQueue.NothingLost | src/file_analysis.cpp:54-110 | in every run, for every node, the events received plus the timers called equal the times it was taken off, plus those in the queue, plus one if the watcher still holds it |
| MonitorQueue.CalledIsFired | src/file_analysis.cpp:137-140 | the timers called, told from the steps, are those that the history counts as fired |
| MonitorQueue.DelayAddsTimer | src/file_analysis.cpp:196-212 | in every run a delay adds one timer to the pending ones: with a new id, for the node at hand, to expire an interval after the clock was read |
| MonitorQueue.IgnoredUnmentioned | src/file_analysis.cpp:171-183 | in every run no alert is raised for a file that the filters reject |
| MonitorTimers.TimersConserved | src/TaskTimerManager.hpp:50-94 | in every run each id handed out is waiting, fired or cancelled, in exactly one of these and once |
| MonitorTimers.PassExact | src/TaskTimerManager.hpp:54-63 | in every run a pass that ends has fired exactly the timers due at its start, in nondecreasing order of expiration |
| MonitorFiles.InvRun | src/file_analysis.cpp:171-225 | the invariant of rows, tracked timers, pending timers and thread positions holds in every run |
| MonitorDelays.AtMostTwoLiveTimers | src/file_analysis.cpp:196-223 | in every run at most two timers of a file are pending and not yet due |
| MonitorLive.LivePair | src/file_analysis.cpp:196-223 | in every run, of two such timers one carries the timestamp of the file's row, the other one at least an interval older, and the clock is at most two seconds short of timestamp + interval |
| MonitorLive.OneLiveTimer | src/file_analysis.cpp:196-223 | in every run there is at most one from timestamp + interval - 1 on, and when the row is gone |
| MonitorLive.TwoLiveExactly | src/file_analysis.cpp:196-223 | in every run there are two exactly when one of the current row is live beside one that a full check forgot |
| MonitorExample.TwoTimersReachable | src/file_analysis.cpp:214-223 | a run reaches a state with two such timers at timestamp + interval - 2, so the bounds are tight: the check branch forgets the task without cancelling its timer |
| MonitorDelays.TrackedWindow | src/file_analysis.cpp:196-212 | in every run a tracked timer expires in [timestamp + interval, timestamp + 2 * interval) of its file's row exactly when that is the row it was made for, which fails only while the check that rewrote or deleted the row is being closed |
| MonitorDelays.FiredLeadsToCheck | src/file_analysis.cpp:196-223 | in every run a fired timer whose row was not rewritten leads to a full check, never to another delay |
| MonitorDelays.NoDelayedEventLost | src/file_analysis.cpp:94-212 | in every run a delayed and not yet checked file has its tracked timer waiting, a node queued, or the analysis thread at work on it; that queued nodes are worked on is MonitorQueue.NothingLost |
| MonitorProgress.CheckCanFollow | src/file_analysis.cpp:94-225 | from every reachable state in which a file is delayed, some continuation by the clock and the threads reaches its full check |
| MonitorAlerts.RateLimit | src/file_analysis.cpp:185-223 | in every run at least the interval passes from the timestamp of a CREATED or CHANGED alert to any later alert of the file |
| MonitorAlerts.AlertOrder | src/file_analysis.cpp:188-223 | in every run a file's alerts follow CREATED CHANGED* DELETED, CHANGED only with a different checksum, in agreement with the table, which has one row per name |
| MonitorAlerts.RowIsLastObservation | src/file_analysis.cpp:188-223 | in every run, once the thread has moved on, a file has no row exactly when its last observation found it missing in a full check; else its row holds the observed checksum, an empty one for a missing new file |
| MonitorExample.MissingIsCreated | src/file_analysis.cpp:188-194 | a run in which a new name is missing at its first observation ends with a row and a CREATED alert |
| FileAnalysis.Analyser.DoAnalysis | src/file_analysis.cpp:171-225 | what one call does to rows, timers, tasks, ids and alerts, branch by branch |
| FileAnalysis.AnalysisIsARun | src/file_analysis.cpp:171-225 | the same change is made by an uninterrupted run of the step system |
| Paths.BaseDir | src/util.cpp:44-50 | the text before the last slash or backslash; the text itself exactly when it has none |
| Paths.TrimEmpty | src/util.cpp:24-42 | trimming leaves nothing exactly of texts of blanks, tabs and the four line breaks |
| Alerter.RuleIsNearest | src/alerter.cpp:14-40 | the lookup terminates with the longest ancestor that has a rule for the level, and with none exactly when no ancestor has any |
| Alerter.NearestUnique | src/alerter.cpp:65-76 | that answer is unique |
| Alerter.CallsCount | src/alerter.cpp:34-39 | each registered action of the rule runs as often as it is named, and nothing else runs |
| Alerter.CallsAppend | src/alerter.cpp:34-39 | the calls of two lists of actions are made one after the other |
| Alerter.CallsOne | src/alerter.cpp:34-39 | an action runs once, with the alert's level, directory and name, exactly if it is registered |
| Alerter.Dispatcher.AddRule | src/alerter.cpp:47-62 | a rule is stored under the directory as given, unless that is blank |
| Alerter.Dispatcher.Alert | src/alerter.cpp:14-40 | every registered action of the nearest rule runs, in the order of the rule, and nothing when no ancestor has a rule |
| Alerter.RootIsEmpty | src/util.cpp:44-50 | the chain from `/x` goes to the empty text, not to `/` |
| Alerter.RootRule | src/alerter.cpp:14-40 | the rule for `/` is the answer exactly for `/`, and for texts with a second separator right after the first, when no longer ancestor has a rule |
| Alerter.AncestorPrefix | src/util.cpp:44-50 | a directory is on the chain of a text exactly when the text is the directory or continues with a separator after it |
| Watcher.EntryIterator.Next | src/file_watcher.cpp:117-168 | yields the next entry of the walk, or the empty name at its end |
| Watcher.FileWatcher.ExcludeDir | src/file_watcher.cpp:180-189 | the filter gains exactly the nonempty directories |
| Watcher.FileWatcher.AddDir | src/file_watcher.cpp:197-248 | terminates; watches the directories of the walk and analyses its files, in order |
| Watcher.PushedAppend | src/file_watcher.cpp:140-159 | the entries of a directory are pushed in the order in which they are read |
| Watcher.Analyses | src/file_watcher.cpp:206-221 | each file is analysed under its base directory and its name, in order |
| WatcherWalk.WalkExact | src/file_watcher.cpp:106-168 | an entry is found if and only if a trail of readable directories that are not excluded leads to it and it is a file or such a directory |
| WatcherWalk.WalkOnce | src/file_watcher.cpp:106-168 | no path is found twice |
| WatcherWalk.OnlyRootWatched | src/file_watcher.cpp:156-158 | without recursion only the root is watched |
| WatcherWalk.OnTrailExactly | src/file_watcher.cpp:140-159 | the walk to an entry passes through exactly those texts above it that are not shorter than the root and, the root apart, do not end in a slash |
| WatcherWalk.ExcludedCut | src/file_watcher.cpp:131-133 | nothing in or under an excluded directory is found, if the filter spells it that way |
| WatcherWalk.ExclusionExact | src/file_watcher.cpp:191-195 | a filter entry takes away exactly what is in or under the directory if it is spelled that way, and nothing at all otherwise |
| WatcherWalk.SlashInFilter | src/file_watcher.cpp:191-195 | excluding /a/b/ leaves /a/b/x in the walk from /a |
| WatcherWalk.SlashInRoot | src/file_watcher.cpp:191-195 | excluding /a leaves /a/x in the walk from /a/ |
| WatcherWalk.BaseOfEntry | src/util.cpp:44-50 | the base directory of an entry is its directory if and only if, for a directory that does not end in a slash, the name has no backslash, and for one that does, the name's only backslash is its first character |
| WatcherWalk.RootFiles | src/util.cpp:44-50 | the base directory of a file directly under / is the empty text |
| WatcherWalk.SlashRuleMissed | src/alerter.cpp:14-40 | a rule kept under a directory that ends in a slash is on the chain of a file of that directory if and only if the file's name starts with a backslash |
| WatcherWalk.EventsResolve | src/file_watcher.cpp:226-248 | a new watch descriptor leads back to its directory |
| WatcherWalk.RegisteredExactly | src/file_watcher.cpp:226-248 | the descriptors known are those known before and the valid ones of the watched directories, each with a directory that it belongs to |
| WatcherWalk.EventName | src/file_watcher.cpp:303-308 | the path that an event analyses is the one that the walk finds if and only if the directory does not end in a slash |
| Md5Compress.Rotate | src/md5.c:197-197 | two shifts and an or rotate the word |
| Md5Bits.SingleBit | src/md5.c:199-301 | under a mask of one bit a word is all ones or all zeros, so the four tables that follow cover every bit of all words |
| Md5Bits.TableOfF | src/md5.c:202 | F is y where x is set and z where it is not |
| Md5Bits.TableOfG | src/md5.c:228 | G is x where z is set and y where it is not |
| Md5Bits.TableOfH | src/md5.c:254 | H is z where x and y agree and not z where they differ |
| Md5Bits.TableOfI | src/md5.c:280 | I is y where x is not set and z is, and not y elsewhere |
| Md5Compress.Round1 | src/md5.c:199-223 | the unrolled first round equals the first 16 steps of section 3.4 of RFC 1321 |
| Md5Compress.Round2 | src/md5.c:225-249 | the same for the second round |
| Md5Compress.Round3 | src/md5.c:251-275 | the same for the third round |
| Md5Compress.Round4 | src/md5.c:277-301 | the same for the fourth round |
| Md5.LoadBlock | src/md5.c:177-195 | the words of a block are loaded little-endian |
| Md5.LoadStore | src/md5.c:379-380 | a word written to the digest and loaded again is the word |
| Md5.StoreLoad | src/md5.c:379-380 | and bytes loaded and written again are the bytes |
| Md5.CompressAdds | src/md5.c:303-310 | what the sixty-four steps make of the registers is added to what they were |
| Md5.BlocksAppend | src/md5.c:351-353 | hashing whole blocks first and the rest later changes nothing |
| Md5.CountCarry | src/md5.c:333-338 | the two count words keep 8 times the length mod 2^64 across carries |
| Md5.OffsetFromCount | src/md5.c:327-327 | the buffer offset is the length mod 64 |
| Md5.State.Process | src/md5.c:131-310 | one block is compressed as section 3.4 of RFC 1321 says, for every state and block |
| Md5.State.Append | src/md5.c:322-358 | the message grows by the chunk; registers hold its whole blocks, the buffer its tail, the count words its length |
| Md5.State.Finish | src/md5.c:360-381 | the result is the RFC 1321 digest of all that was appended |
| Md5Known.AbcDigest | src/md5.c:131-381 | the digest of "abc" is the one that section A.5 of RFC 1321 gives |
| Md5Known.AbcPrinted | src/util.cpp:80-82 | and prints as 900150983cd24fb0d6963f7d28e17f72 |
| Md5Known.PaddingShape | src/md5.c:360-381 | the padding of any message is the byte 0x80, fewer than 64 zeros that complete a block, and the bit length modulo 2^64, low-order byte first |
| Md5.HashChunks | src/util.cpp:56-86 | however a file is split into reads, the result is the hexadecimal digest of its contents |
| Md5.HexInjective | src/util.cpp:80-82 | different digests print differently |
| Md5.HexNumberReads | src/util.cpp:80-82 | a byte is read back from its two lower-case digits, high digit first |
| Md5.HexAt | src/util.cpp:80-82 | the digits of byte i are at 2i and 2i + 1 |

## Left out

- Floating point: a float keeps the text it was written with; `atof`, `%.10g` and auto-conversion are not modelled, and floats are outside the round trip, which the printer does not promise for them.
- ConfigExact.RoundTripExactly: for trees without floats and a default format that is the default; integers have their C width and strings are C strings.
- ConfigScanner.BestLongest: the patterns are those of the rules; the compressed DFA of flex, its buffer refill and its line counting are not modelled.
- `@include`: the named file is taken to be one that cannot be opened, which ends in the error token.
- ConfigComplete.ParseTree: a reduction pushes no semantic value, since no action reads the value of a nonterminal.
- ConfigObject.Config.AddSetting: a null name compared with a named member would be a null dereference; it is taken as a refusal. Pointers are numbers of live settings, so a call through a dangling pointer cannot be written down, and hooks, line numbers and file names are not kept.
- ConfigLookup.CompareTransitive: characters are compared as unsigned; for bytes above 127 the sign of the result in C depends on the signedness of char, its being zero does not.
- Locale switching, the numeric conversion accessors and the C++ wrapper are not modelled.
- src/configfile.c is not modelled; the monitor does not use it.
- MonitorFiles.InvRun: a critical section and the release of its mutex are one step; the condition variable may wake spuriously; a timer pass holds its lock throughout.
- The meaning of the ignore and grep filters: a fixed predicate of the name, since the directory entry that the code picks depends on the order of a hash map.
- FileDb.StaysUnique: rows are abstract; SQL text, quoting, buffer sizes and failing database calls are not modelled.
- Watcher.FileWatcher.AddDir: the file system does not change during the walk, paths fit the path buffer, `inotify_add_watch` is a function of the path, and sleeping is left out.
- Md5.State.Append: each chunk is shorter than 2^28 bytes, so that the bit count of a chunk is defined; the caller uses at most 1024. The byte-wise load is modelled, not the word-aligned variant for little-endian machines.
- File metadata in checksums, mail, the message queue, logging, process start-up and signals: I/O or plumbing.
