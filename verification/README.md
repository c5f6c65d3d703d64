# CallWeaver applications in Dafny

Six applications of the CallWeaver telephone switch hold most of its algorithms and protocols. This project
models them and proves what they keep over every run. The outside world (channels, the zaptel device, the
database server, the dialplan, other threads) is data: a statement about every list of rounds, lines, events or
steps is a statement about every run.

**ADSIProg** (`Adsi*.dfy`) compiles a script, line by line, into byte messages for a screen telephone and sends
them in downloads. `AdsiProgram` says what a script means: tables of names, and a list of instructions for each
soft key and subroutine. `AdsiCompiler` is the code, with its buffers appended to and patched in place. The main
result, `CompileScript`, is that the code refines the meaning: a script compiles exactly when its program is
accepted, and then to that program written out in bytes. `AdsiSoundness` has what every line of every script
keeps, `AdsiPacking` that the downloads are as few as can be, and `AdsiBytes` that all that is sent are bytes.
`AdsiReading` reads the bytes back as a phone would, by opcode tables and message layouts of its own, and finds in
them the commands, keys, subroutines and displays of the script.

**Dial** (`Dial.dfy`) forks a call to many legs and waits for one to answer. Over every sequence of events each
channel is owned once, the failure counters are exact, the scan of the legs ends although it revisits one, and the
status is the verdict on causes read off the events alone.

**MeetMe** (`MeetMe*.dfy`) is conferencing: the linked list of participants, which refines a plain roster, and the
marked-user count, the talk mode under admin mutes given by other threads, the shutdown handshake with the
recorder thread, and the list of conferences shared by many callers.

**Proc** (`ProcCalls.dfy`) runs dialplan procedures as nested call frames over one channel.

**DTMFToText** (`MultiTap.dfy`) reads text typed on a telephone keypad; an encoder is its inverse.

**PGSQL** (`PgCursor.dfy`, `PgInterleaving.dfy`) keeps row cursors behind numeric handles; they refine plain
iterators, for whole fetches and for fetches cut wherever they let go of the lock.

Some properties are false of the code. Each of them is stated with the exact condition under which it holds:

- `MultiTap.BackspaceUndoes`: backspace takes back a run exactly when the run entered one character and did not
  use up the room; `BackspaceFails` is a run it does not take back.
- `MultiTap.SessionWithinIff`: the text entered is within its limit exactly when no run entered more than there
  was room for; `LimitOvershot` is one that does.
- `MeetMeUsers.Conference.Run`: menu key 5 by an admin already marked lowers the count and leaves the flag, so the
  count is short by the number of such presses, and right exactly when there was none; `CountSpoiled` is one.
- `MeetMeMute.MutedTalksIff`: one muted at the check of a pass talks at its end exactly when the channel's
  descriptor was swapped and the participant is not a listener (`SwappedInPass`), or key 1 was pressed after a
  command lifted the mute (`LiftedInPass`).
- `MeetMeMute.WaitingTalksIff`: waiting for a marked user takes the talking away and the check gives it back, so
  one who waits talks exactly when neither muted nor a listener; `WaiterTalks` is one.
- `MeetMeMute.RunConsistentIff`: a participant can end up both talking and down as a listener, exactly when key 1
  falls between a mute being lifted and the next check; `LiftedInPass` is such a run.
- `MeetMeMute.MusicRightIff`: one who waits hears music exactly without marked users, unless the descriptor was
  swapped in the pass in which the last of them went; `MusicLeftOn` is such a run.
- `MeetMeRecorder.CanFreeIff`: `conf_free` can still finish exactly when the recorder's Off was not overwritten.
- `ProcCalls.DepthBackIff`: a call turned away for a bad name or context leaves the depth one higher;
  `DepthLeftRaised` is one.
- `AdsiTables.GrownDistinctIff`: names are told apart exactly as far as they are stored, which is 39 characters.
- `AdsiSoundness.AllClosedIff`: a script that compiles has closed its subroutines exactly when it did not end
  inside an IF clause; `EndsInClause` is one that does.
- `AdsiPacking.Pack`: downloads are within the limit exactly when every message is; `AdsiCompiler.LongMain` is a
  script whose subroutine is not.
- `MeetMeRegistry.CallersMeet`: callers with one number meet while no address is used again; `AddressReused` is a
  run in which they do not.
- `MeetMeUsers.Conference.AdminExec`: it reads through a null pointer exactly for e in an empty conference.

Where code and documentation disagree the model follows the code: the key lists in the help text of DTMFToText
(`apps/app_dtmftotext.c:91-113`) leave out the space on key 0 and, in symbol mode, the 0 on key 0, which the
tables have.

## Model

| member | source | states |
|---|---|---|
| `Dial.TallyMeaning` | apps/app_dial.c:208-231 | the three counters grow by one for every ending but normal clearing, and each is positive exactly when its cause occurred |
| `Dial.LegsDistinct` | apps/app_dial.c:350-566 | in every reachable state no two legs hold the same channel |
| `Dial.LegAccounting` | apps/app_dial.c:292-348 | the counters never exceed the lines dialled, and with no leg left they equal them exactly when no leg ended with normal clearing |
| `Dial.FirstAnswerMeaning` | apps/app_dial.c:350-359 | the elected channel is that of the first leg that answered; none means no leg did |
| `Dial.ReworkKeeps` | apps/app_dial.c:375-455 | a leg that gives its channel up moves it, and one taken in vain, to the ones hung up, so each channel stays owned once |
| `Dial.ForwardKeeps` | apps/app_dial.c:360-456 | every outcome of a forward keeps the invariant and never leaves the old channel in the leg |
| `Dial.ReadKeeps` | apps/app_dial.c:457-563 | every frame read from a leg keeps the invariant |
| `Dial.ScannedKeeps` | apps/app_dial.c:350-566 | a pass keeps ownership, counters and forward limit, takes at most one new channel and only adds to what was hung up |
| `Dial.ForwardLeg` | apps/app_dial.c:360-456 | the step-by-step forward, with its limit, its request and its failed call, does to the leg what one settled rework does |
| `Dial.ReadLeg` | apps/app_dial.c:457-563 | an answer elects the leg only if there is no peer yet; busy, congestion and a closed channel end the leg under that cause |
| `Dial.WokenIsUnique` | apps/app_dial.c:350-566 | only the woken leg holds the channel that woke the wait; the others are untouched, and a forwarded leg does not hold it any more |
| `Dial.Scan` | apps/app_dial.c:350-566 | the pass that revisits a forwarded leg ends, changes the woken leg only, and elects the first leg that answers |
| `Dial.WaitKeeps` | apps/app_dial.c:317-631 | over every run of the wait the invariant holds, at most one channel is taken a round, and a peer is returned exactly when answered and was never hung up |
| `Dial.Watch` | apps/app_dial.c:317-331 | there is something to wait for exactly when some leg has a channel; lines counts legs and earlier failures |
| `Dial.NobodyLeft` | apps/app_dial.c:332-348 | the status chosen from the counters is BUSY over CONGESTION over CHANUNAVAIL by the causes that occurred, and unchanged if a leg cleared normally |
| `Dial.WaitForAnswer` | apps/app_dial.c:287-631 | the loop over rounds gives the legs, peer, timeout, status and digit of the round-by-round wait, for every sequence of rounds |
| `Dial.DialTarget` | apps/app_dial.c:1060-1210 | a target gets a leg exactly when a channel was granted, also after a forward, and the call went out; otherwise every channel taken is hung up |
| `Dial.AddTarget` | apps/app_dial.c:1037-1217 | the counters stay the tally of the refused targets and the forward requests those of the legs |
| `Dial.BuildLegs` | apps/app_dial.c:1037-1217 | targets are dialled up to a malformed one or one that is up at once; counters, forwards and ownership are exact, and the leg of the latest channel stands first |
| `Dial.HangupTree` | apps/app_dial.c:190-202 | each channel is hung up once for every leg that holds it, the exception not at all |
| `Dial.Finish` | apps/app_dial.c:1242-1267 | after the legs are let go every channel ever taken was hung up once, but for the peer |
| `Dial.DialExec` | apps/app_dial.c:1037-1267 | over a whole dial every channel is hung up exactly once except the peer handed over, which never is; no leg asks to be forwarded more than seven times; an unanswered dial ends with the status that the refused targets and the causes read off the rounds give |
| `Dial.ForwardLimit` | apps/app_dial.c:389-391 | no leg has made more than seven forward requests, the one at setup included |
| `Dial.ScannedEnds` | apps/app_dial.c:360-563 | a pass ends the woken leg under the cause read off its round: busy for a busy frame, congestion for a congestion frame, the hangup cause of a closed channel, congestion at the forward limit, the refusal of a forward, a lost channel for a forwarded call that fails; and ends nothing for an answer or any other frame |
| `Dial.ScannedLeg` | apps/app_dial.c:360-563 | the woken leg loses its channel exactly when it ended, holds the next channel when its forward went out, and has one forward more exactly when it asked for one |
| `Dial.OthersAreKept` | apps/app_dial.c:350-359 | a leg that is up is left alone even when it woke the wait, and so is every leg that did not |
| `Dial.AnswerWins` | apps/app_dial.c:457-478 | a leg that sends an answer is the peer unless one before it is up |
| `Dial.UpWins` | apps/app_dial.c:350-359 | the first leg whose line is up is the peer when no other leg is read from |
| `Dial.WaitStatus` | apps/app_dial.c:317-348 | over every run the status is CANCEL when the caller stopped it, the verdict on the causes read off the rounds when no leg is left, and unchanged otherwise |
| `Dial.VerdictMeaning` | apps/app_dial.c:332-343 | BUSY comes before CONGESTION and CONGESTION before CHANUNAVAIL, and a leg that cleared normally leaves the status alone |
| `Dial.CallerComesFirst` | apps/app_dial.c:567-628 | a caller who hangs up or presses a key to leave by cancels, whoever answered in that round; a hangup gives -1, a key 0, and only such a key is passed on |
| `Dial.AnswerEnds` | apps/app_dial.c:350-359 | a round in which a leg answers and the caller does nothing ends the wait with that leg and the time left |
| `Dial.OneLeg` | apps/app_dial.c:479-496 | one leg and one busy frame give BUSY, one congestion frame CONGESTION |
| `Dial.RefusalsMeaning` | apps/app_dial.c:1086-1160 | the causes counted before the wait are exactly those of the targets for which no channel could be had, at first or after a forward |
| `Dial.ReachMeaning` | apps/app_dial.c:1037-1217 | every target dialled is well formed and only the last can be up at once; the rest comes after one that is up or starts with a malformed one |
| `Dial.SetupMeaning` | apps/app_dial.c:1085-1160 | a leg starts with one forward request exactly when its target forwarded at setup |
| `Dial.SetupOrder` | apps/app_dial.c:1207-1212 | the target dialled last has the first leg |
| `AdsiTables.PlaceMeaning` | apps/app_adsiprog.c:511-518 | a lookup finds the first entry under a name, case aside |
| `AdsiTables.GetByName` | apps/app_adsiprog.c:511-579 | the search and the growth of a table, with its room and its leave to create |
| `AdsiTables.GrownDistinctIff` | apps/app_adsiprog.c:511-526 | a lookup keeps names distinct exactly when what it stores is not there already; always for names of at most 39 characters |
| `AdsiTables.GrownMeaning` | apps/app_adsiprog.c:511-526 | a table never outgrows its room, entries keep their places, and the entry found carries the name |
| `AdsiTables.LongNameTwice` | apps/app_adsiprog.c:405-422 | a name of forty characters is entered twice under its first thirty-nine |
| `AdsiCode.CodeSnoc` | apps/app_adsiprog.c:928-964 | an instruction more is its bytes more in a key, its block more in a subroutine |
| `AdsiCode.IfEventAt` | apps/app_adsiprog.c:1278-1279 | the event of an IF clause is read from where its block starts |
| `AdsiCode.PatchIf` | apps/app_adsiprog.c:1257-1263 | filling in an IF clause's count is giving its instruction that count: no other byte moves or changes |
| `AdsiEntries.KeyLength` | apps/app_adsiprog.c:1243-1249 | a key message is at most 50 bytes and its length byte is its length less two, without wrapping |
| `AdsiEntries.OpenKey` | apps/app_adsiprog.c:1063-1089 | the header of a key: number, names cut to 18 and 7, separators |
| `AdsiEntries.AddKeyCode` | apps/app_adsiprog.c:899-926 | a command counts in a key exactly when its code stays within 20 bytes |
| `AdsiEntries.CloseKey` | apps/app_adsiprog.c:1243-1254 | the length is filled in and fits its byte |
| `AdsiEntries.OpenSub` | apps/app_adsiprog.c:1109-1127 | the header of a subroutine, shorter for main, written again over an earlier one |
| `AdsiEntries.AppendedImage` | apps/app_adsiprog.c:958-963 | a block closed by 0xff and the counters moved is the image of one instruction more, with the IF clause where it was |
| `AdsiEntries.AddInstr` | apps/app_adsiprog.c:928-964 | a command becomes a block exactly when there is room, and else changes nothing |
| `AdsiEntries.OpenIf` | apps/app_adsiprog.c:1305-1332 | an IF clause starts with an empty count at the end of the code |
| `AdsiEntries.AddGoto` | apps/app_adsiprog.c:1264-1285 | a GOTO in an IF clause branches on the clause's own event and is counted in it |
| `AdsiEntries.ClauseEvent` | apps/app_adsiprog.c:1279 | the event read back through the clause pointer is the one the clause was opened with |
| `AdsiEntries.CloseIf` | apps/app_adsiprog.c:1257-1263 | the clause gets the number of instructions counted in it, and no other byte changes |
| `AdsiEntries.ClosedData` | apps/app_adsiprog.c:1263 | the count goes into the third byte of the clause, wherever header and earlier blocks put it |
| `AdsiEntries.CloseSub` | apps/app_adsiprog.c:1294-1304 | the length less two, modulo 256, and but for main the number of instructions go into the header |
| `AdsiEntries.DisplayLength` | apps/app_adsiprog.c:1191-1238 | a display is at most 46 bytes and its length byte is its length less two |
| `AdsiEntries.FillDisplay` | apps/app_adsiprog.c:1191-1238 | the columns cut to 20, and the header only if the qualifiers were good |
| `AdsiSoundness.CollectKeeps` | apps/app_adsiprog.c:581-632 | SHOWKEYS collects at most six numbers, each that of an entry, and entries keep their places |
| `AdsiSoundness.EmitKeeps` | apps/app_adsiprog.c:581-829 | the instruction of every command names only keys and subroutines in the tables |
| `AdsiSoundness.KeyCommandSound` | apps/app_adsiprog.c:1241-1255 | a command in a key keeps the invariant, its code within 20 bytes |
| `AdsiSoundness.SubCommandSound` | apps/app_adsiprog.c:1256-1336 | a command in a subroutine or IF clause keeps the invariant and the clause's count |
| `AdsiSoundness.DeclaredSound` | apps/app_adsiprog.c:980-1240 | a line outside keys and subroutines keeps the invariant |
| `AdsiSoundness.StepSound` | apps/app_adsiprog.c:966-1342 | every line of every script keeps: tables in bounds, main first, the open entry there, the others closed or blank, references in the tables, the open clause's count exact |
| `AdsiSoundness.Run` | apps/app_adsiprog.c:1371-1384 | the invariant holds after every script |
| `AdsiSoundness.RunExtends` | apps/app_adsiprog.c:511-579 | however long a script, every entry keeps its name and place, and so its number |
| `AdsiSoundness.PlaceStable` | apps/app_adsiprog.c:511-579 | a name once entered is found at the same place ever after |
| `AdsiSoundness.RunDistinct` | apps/app_adsiprog.c:405-579 | a script whose names have at most 39 characters enters none twice in any of the five tables |
| `AdsiSoundness.AcceptedResolved` | apps/app_adsiprog.c:1401-1425 | in a script that compiles every key or subroutine named by any instruction is defined |
| `AdsiSoundness.AllClosedIff` | apps/app_adsiprog.c:1386-1400 | a script that compiles has closed all its subroutines exactly when it did not end in an IF clause |
| `AdsiSoundness.EndsInClause` | apps/app_adsiprog.c:1257-1263 | a script of four lines compiles although it ends in an IF clause with main left open |
| `AdsiCompiler.EmitShowKeys` | apps/app_adsiprog.c:581-632 | the key list with its limit of six, stray words, full table and UNLESS flag |
| `AdsiCompiler.CheckStates` | apps/app_adsiprog.c:781-801 | the states of ONEVENT are good exactly when they are at most eight and all declared |
| `AdsiCompiler.EmitShowDisplay` | apps/app_adsiprog.c:634-687 | a display that is known, shown with or without update at its line and flag; anything missing gives no bytes |
| `AdsiCompiler.EmitFlag` | apps/app_adsiprog.c:424-469 | a declared flag set or cleared by number; an undeclared one gives no bytes |
| `AdsiCompiler.EmitCommand` | apps/app_adsiprog.c:581-829 | each command handler adds to the tables and yields the instruction that the command means |
| `AdsiCompiler.Compiler.constructor` | apps/app_adsiprog.c:1367-1370 | the empty script, with main as its one subroutine |
| `AdsiCompiler.Compiler.InKeyCommand` | apps/app_adsiprog.c:899-926 | buffers stay the image of the program when a key has a command more |
| `AdsiCompiler.Compiler.InSubCommand` | apps/app_adsiprog.c:928-964 | buffers stay the image of the program when a subroutine has a command more |
| `AdsiCompiler.Compiler.InIfGoto` | apps/app_adsiprog.c:1264-1285 | buffers stay the image of the program after a GOTO in an IF clause |
| `AdsiCompiler.Compiler.BeginKey` | apps/app_adsiprog.c:1012-1090 | buffers stay the image after a KEY line, good or bad; a defined key is not begun again |
| `AdsiCompiler.Compiler.BeginSub` | apps/app_adsiprog.c:1091-1127 | buffers stay the image after a SUB line, good or bad; a bad one leaves the header written |
| `AdsiCompiler.Compiler.DefineDisplay` | apps/app_adsiprog.c:1162-1238 | buffers stay the image after a DISPLAY line, good or bad; a known display is not filled again |
| `AdsiCompiler.Compiler.EndKeyLine` | apps/app_adsiprog.c:1243-1254 | buffers stay the image when a key is closed |
| `AdsiCompiler.Compiler.EndSubLine` | apps/app_adsiprog.c:1294-1304 | buffers stay the image when a subroutine is closed |
| `AdsiCompiler.Compiler.BeginIf` | apps/app_adsiprog.c:1305-1332 | buffers stay the image when an IF clause is opened |
| `AdsiCompiler.Compiler.EndIfLine` | apps/app_adsiprog.c:1257-1263 | buffers stay the image when an IF clause is closed |
| `AdsiCompiler.Compiler.Process` | apps/app_adsiprog.c:966-1342 | from the image of any program a line leads to the image of what the line makes of that program |
| `AdsiCompiler.CompileScript` | apps/app_adsiprog.c:1344-1426 | a script compiles exactly when its program is accepted, and then to exactly that program's messages |
| `AdsiCompiler.MessagesWithin` | apps/app_adsiprog.c:899-926 | whatever the script, no key message exceeds 50 bytes and no display 46, so both can be packed |
| `AdsiCompiler.LongMain` | apps/app_adsiprog.c:928-964 | SUB main IS, k lines of CLEAR and ENDSUB compile for every k up to 798, to one message of 3 + 2k bytes, over the download limit from k = 126 |
| `AdsiBytes.EmitBytes` | apps/app_adsiprog.c:581-829 | every number a command emits fits a byte |
| `AdsiBytes.StepBytes` | apps/app_adsiprog.c:966-1342 | every line keeps texts and code bytes |
| `AdsiBytes.MessagesAreBytes` | apps/app_adsiprog.c:1344-1426 | a script whose texts, fixed commands and events are byte-sized compiles to bytes, so no stored number is cut |
| `AdsiCompiler.SendAll` | apps/app_adsiprog.c:1463-1533 | keys, displays and subroutines are sent in turn, each byte for byte; it stops short only where the phone does |
| `AdsiCompiler.AdsiProg` | apps/app_adsiprog.c:1439-1552 | it succeeds only when the phone has got the program byte for byte and seen the download through, keys and displays always within the limit; it fails only for a script that does not compile or a phone that stops short, and nothing is sent to a phone that does not begin |
| `AdsiPacking.StaysAhead` | apps/app_adsiprog.c:1463-1485 | the cuts the loop makes are never behind those of any other grouping |
| `AdsiPacking.GreedyIsLeast` | apps/app_adsiprog.c:1463-1485 | no way of sending the messages in order within the limit takes fewer downloads |
| `AdsiPacking.WithinBack` | apps/app_adsiprog.c:1463-1485 | downloads within the limit carry only messages within it |
| `AdsiPacking.PackLoop` | apps/app_adsiprog.c:1463-1485 | each download was forced out by the message after it or is the last, and is within the limit or a single message |
| `AdsiPacking.WithinForward` | apps/app_adsiprog.c:1463-1485 | messages within the limit go out in downloads within it, none of them empty |
| `AdsiPacking.Pack` | apps/app_adsiprog.c:1463-1533 | what was sent is the messages in order, none split; within the limit exactly when every message is; as few downloads as possible |
| `AdsiReading.FlagReads` | apps/app_adsiprog.c:424-469 | the bytes of SETFLAG and CLEARFLAG, read by the opcode of a key or of a subroutine, set or clear the flag named; without a declared flag there are none |
| `AdsiReading.DisplayReads` | apps/app_adsiprog.c:634-687 | the bytes of SHOWDISPLAY read as the display named, with or without update, its line modulo 32 and its flag modulo 8 |
| `AdsiReading.ShowKeysReads` | apps/app_adsiprog.c:581-632 | the bytes of SHOWKEYS read as the keys named, in order, at most six, and the UNLESS flag; a word is left out only for lack of room, and then the flag is too |
| `AdsiReading.OnEventReads` | apps/app_adsiprog.c:759-829 | the bytes of ONEVENT read as its event, the subroutine named and a zero for each state, and there are none exactly for a bad event, state or target or a full table |
| `AdsiReading.GotoReads` | apps/app_adsiprog.c:737-757 | the bytes of GOTO in a key read as the subroutine named; in a subroutine it is no command |
| `AdsiReading.FixedReads` | apps/app_adsiprog.c:836-893 | a command that stands for fixed bytes stands for those of the key table in a key and those of the other table in a subroutine, or is no command there |
| `AdsiReading.EmitTables` | apps/app_adsiprog.c:581-829 | a command changes no table but that of the things it names |
| `AdsiReading.KeyReads` | apps/app_adsiprog.c:1063-1089 | a key message reads as 128, its length, its number, its long and its short name cut to 18 and 7, and its code |
| `AdsiReading.SubReads` | apps/app_adsiprog.c:1109-1127 | a subroutine message reads as 130, its length, whether it is the last, its label with number and count unless it is main, and its code |
| `AdsiReading.DisplayMessageReads` | apps/app_adsiprog.c:1191-1238 | a display message reads as 129, its length, its number and justification, its wrap flag and its two columns in order, cut to 20; bad qualifiers leave five zeros in front |
| `AdsiReading.DeclareReads` | apps/app_adsiprog.c:1128-1161 | STATE enters its name among the states and FLAG among the flags, and nothing else changes |
| `AdsiReading.KeyLineReads` | apps/app_adsiprog.c:1012-1090 | KEY enters its name and begins that key with its texts, the short one for both when there is no long one, exactly when the line is good and the key not yet defined |
| `AdsiReading.SubLineReads` | apps/app_adsiprog.c:1091-1127 | SUB enters its name and, with IS, begins that subroutine unless it is defined |
| `AdsiReading.DisplayLineReads` | apps/app_adsiprog.c:1162-1238 | DISPLAY enters a new name and fills that display with its columns and qualifiers; a known one stays as it is |
| `AdsiReading.KeyTakes` | apps/app_adsiprog.c:899-926 | a command in a key puts its bytes behind those there are exactly when the code stays within 20 bytes |
| `AdsiReading.SubTakes` | apps/app_adsiprog.c:928-964 | a command in a subroutine puts its bytes and 255 behind those there are exactly when the buffer stays within 255 bytes, or 1600 for main |
| `AdsiReading.KeyScript` | apps/app_adsiprog.c:1012-1254 | the script of one key compiles to one message that reads as that key, for every name and every two texts without the byte 255 |
| `AdsiReading.DisplayScript` | apps/app_adsiprog.c:1162-1238 | the script of one display compiles to one message that reads as that display |
| `AdsiReading.FlagScript` | apps/app_adsiprog.c:424-469 | FLAG f, SUB main IS, SETFLAG f, ENDSUB compiles to 130 4 128 10 17 255, and with CLEARFLAG to 16 in place of 17 |
| `AdsiReading.ClauseInMain` | apps/app_adsiprog.c:1256-1332 | IFEVENT e THEN, GOTO t, ENDIF at the start of main is a clause on e that counts one instruction and the branch on e to t |
| `MeetMeUsers.AppendKeeps` | apps/app_meetme.c:921-945 | a record hung on to the end keeps the list doubly linked with ascending numbers, and the old end had no successor |
| `MeetMeUsers.OnListOnce` | apps/app_meetme.c:932 | no record is on the list twice |
| `MeetMeUsers.UnlinkKeeps` | apps/app_meetme.c:1764-1799 | unlinking takes exactly its record out, keeps the rest linked in order, and never finds a link missing |
| `MeetMeUsers.Conference.constructor` | apps/app_meetme.c:455-497 | a new conference has no participants and a right count |
| `MeetMeUsers.Conference.Append` | apps/app_meetme.c:921-945 | the links of a join; the error branch is not reached |
| `MeetMeUsers.Conference.Enlist` | apps/app_meetme.c:919-951 | a new record at the end keeps the list in order and counts its mark |
| `MeetMeUsers.Conference.Join` | apps/app_meetme.c:909-970 | a caller is put at the end of the list, or turned away by a lock without a trace; list, length and marked count stay right |
| `MeetMeUsers.Conference.Unlink` | apps/app_meetme.c:1764-1799 | the code's three cases give the store, the ends and the missing-link reports of the specification |
| `MeetMeUsers.Conference.TakeOut` | apps/app_meetme.c:1764-1805 | unlinking and freeing takes exactly that user off the roster and that record out of the store, finding every link |
| `MeetMeUsers.Conference.Leave` | apps/app_meetme.c:1742-1805 | only that user goes off the roster, the conference exactly with the last one, and the error branches are not reached |
| `MeetMeUsers.Conference.PressFive` | apps/app_meetme.c:1560-1567 | the flag is on afterwards, and the count goes off by one more exactly when it was on before |
| `MeetMeUsers.Conference.FindUser` | apps/app_meetme.c:2228-2245 | finds the user whose number is written so, and none only if there is none |
| `MeetMeUsers.Conference.CommandAll` | apps/app_meetme.c:2286-2347 | K, N and n reach every user on the list and change nothing but their flags; N spares admins |
| `MeetMeUsers.Conference.CommandOne` | apps/app_meetme.c:2308-2353 | M, m and k change the user named and no other |
| `MeetMeUsers.Conference.EjectLast` | apps/app_meetme.c:2298-2307 | e kicks the last to join unless an admin, and no other; it fails, on a null pointer, exactly in an empty conference |
| `MeetMeUsers.Conference.AdminExec` | apps/app_meetme.c:2249-2363 | every command does to each user just what it says and keeps list and count; it fails exactly for e in an empty conference |
| `MeetMeUsers.Conference.Happens` | apps/app_meetme.c:905-1805 | one event on the linked records is one step of a plain roster; the count goes off exactly at key 5 by an admin already marked |
| `MeetMeUsers.Conference.Run` | apps/app_meetme.c:905-1805 | over every run the linked records stand for the plain roster the events give and no link is ever missing, the conference goes exactly with its last participant, and the marked count is short by the number of key 5 presses by admins already marked, so right exactly when there was none |
| `MeetMeUsers.SpoiledIff` | apps/app_meetme.c:1560-1567 | the count of such presses is zero exactly when no event of the run is one |
| `MeetMeUsers.CountSpoiled` | apps/app_meetme.c:1560-1567 | a marked admin who joins and presses key 5 spoils the count |
| `MeetMeUsers.JoinedPeople` | apps/app_meetme.c:921-945 | a join puts the caller at the end of the roster under the next number |
| `MeetMeUsers.LeftPeople` | apps/app_meetme.c:1764-1799 | a leave takes one off the roster |
| `MeetMeUsers.PressedPeople` | apps/app_meetme.c:1560-1567 | key 5 marks one on the roster |
| `MeetMeUsers.ObeyedPeople` | apps/app_meetme.c:2249-2363 | an admin command maps the roster |
| `MeetMeUsers.LeftList` | apps/app_meetme.c:1764-1805 | with the record that left freed, the rest is linked in order, its ends are right and no link was missing |
| `MeetMeUsers.LeftMarked` | apps/app_meetme.c:1755-1756 | the marked left are those before but for the one who left |
| `MeetMeUsers.RemarkCount` | apps/app_meetme.c:1560-1567 | turning one flag on adds one to the marked unless it was on |
| `MeetMeUsers.JoinKeeps` | apps/app_meetme.c:917-945 | a join keeps the list and adds one to the marked exactly if the caller is marked |
| `MeetMeUsers.ObeyedKeeps` | apps/app_meetme.c:2249-2363 | no admin command touches links, numbers or marks |
| `MeetMeUsers.CommandMeaning` | apps/app_meetme.c:2249-2363 | one command, field by field: who is kicked, who is muted and whose mute is lifted, and that nothing else changes |
| `MeetMeUsers.CommandsAddUp` | apps/app_meetme.c:2249-2363 | after any sequence of commands a participant is kicked exactly when one of them kicks it or it was, and muted exactly when a mute was not followed by a command that lifts it |
| `MeetMeUsers.JoinMeaning` | apps/app_meetme.c:905-945 | a caller is turned away exactly by the lock, and else comes in last, neither muted nor kicked, under the next number |
| `MeetMeUsers.LockDecides` | apps/app_meetme.c:2270-2285 | in any run the lock is on exactly when the last of L and l was L, or it was on and there was no l |
| `MeetMeMute.WatchMarked` | apps/app_meetme.c:1249-1340 | the branches on marked users coming and going amount to one table of modes and music |
| `MeetMeMute.Enforce` | apps/app_meetme.c:1343-1385 | nobody muted talks afterwards, and everybody else who is not down as a listener does |
| `MeetMeMute.MenuTwiceIff` | apps/app_meetme.c:1605-1618 | key 1 pressed by one not muted turns talking round, and pressed twice brings everything back exactly when the participant hears the conference and its talk-only option agrees with its listener option |
| `MeetMeMute.LoopPass` | apps/app_meetme.c:1249-1618 | a pass of the loop is the three in turn, and is left exactly when kicked or when the last marked user goes |
| `MeetMeMute.PassHolds` | apps/app_meetme.c:1343-1618 | between check and menu other threads change the shared flags only, and a mute lasts until a command lifts it |
| `MeetMeMute.PassIsLoop` | apps/app_meetme.c:1249-1618 | a check, whatever other threads do after it, and the menu make one pass of the loop, seeing the flags as they are at each |
| `MeetMeMute.MutedTalksIff` | apps/app_meetme.c:1343-1400 | in every interleaving with MeetMeAdmin commands, one muted at the check of a pass talks at its end exactly when the thread starts over and the participant is not a listener, or key 1 is pressed when the mute is off again, and then a command in between lifted it |
| `MeetMeMute.MutedDoesNotTalk` | apps/app_meetme.c:1343-1400 | one who talks at the end of a pass, however it ends, was not muted at its check, or a command lifted the mute, or the thread started over |
| `MeetMeMute.SwappedInPass` | apps/app_meetme.c:1389-1400 | after a swapped descriptor one who is still muted talks |
| `MeetMeMute.LiftedInPass` | apps/app_meetme.c:1614-1618 | the exception happens, and leaves the participant talking and down as a listener at once |
| `MeetMeMute.WaitingTalksIff` | apps/app_meetme.c:1249-1385 | one who waits for a marked user talks exactly when neither muted nor a listener, and hears only in the pass in which the music begins |
| `MeetMeMute.WaiterTalks` | apps/app_meetme.c:1375-1384 | a participant who waits and is restricted by nobody talks |
| `MeetMeMute.SelfMuteLasts` | apps/app_meetme.c:1605-1618 | one who muted oneself stays mute whatever admins and marked users do, until the menu is used |
| `MeetMeMute.StepSettled` | apps/app_meetme.c:1249-1618 | a step keeps talking and being down as a listener exclusive exactly when it is not key 1 between a lifted mute and the next check by one not down as a listener |
| `MeetMeMute.RunConsistentIff` | apps/app_meetme.c:1249-1618 | a run keeps them exclusive throughout exactly when no such press falls in it, judged from the commands, marked users and keys alone |
| `MeetMeMute.StartOverPlaces` | apps/app_meetme.c:1042-1142 | one whose thread starts over talks unless a listener and hears unless down for talking only, whatever the mute says |
| `MeetMeMute.MarkedArrives` | apps/app_meetme.c:1287-1310 | with the first marked user one who waited talks unless muted or a listener, and hears unless down for talking only |
| `MeetMeMute.AloneHearsMusic` | apps/app_meetme.c:1316-1335 | one who does not wait hears music from a check to the next exactly when alone at the check |
| `MeetMeMute.MusicRightIff` | apps/app_meetme.c:1249-1310 | for one who waits, there is music in every pass exactly when it saw no marked user, throughout a run exactly when the thread never starts over in the pass in which the last marked user went |
| `MeetMeMute.MusicLeftOn` | apps/app_meetme.c:1389-1400 | in a run in which it does, the music goes on with a marked user there |
| `MeetMeRecorder.RunKeepsInv` | apps/app_meetme.c:815-826 | in every interleaving the flag is not Off while the recorder is there, and the lock is where the threads say |
| `MeetMeRecorder.NeverFreedInUse` | apps/app_meetme.c:815-833 | the conference is never reclaimed before the recorder's last use of it |
| `MeetMeRecorder.LostForever` | apps/app_meetme.c:815-826 | once the recorder's Off is overwritten conf_free never finishes |
| `MeetMeRecorder.WayToFreed` | apps/app_meetme.c:815-833 | from every other state there is a run in which it does |
| `MeetMeRecorder.CanFreeIff` | apps/app_meetme.c:815-833 | from any reachable state conf_free can finish exactly when the Off has not been overwritten |
| `MeetMeRecorder.LossHappens` | apps/app_meetme.c:2387-2409 | the overwriting happens in some run |
| `MeetMeRegistry.FoundMeaning` | apps/app_meetme.c:441-447 | a lookup finds a conference exactly when the number is on the list |
| `MeetMeRegistry.RemovedKeeps` | apps/app_meetme.c:796-810 | freeing takes exactly that conference off and keeps numbers and addresses unique |
| `MeetMeRegistry.StepUnique` | apps/app_meetme.c:436-509 | each locked stretch of each caller keeps numbers and addresses on the list unique |
| `MeetMeRegistry.Registry.Search` | apps/app_meetme.c:1816-1823 | the walk along the list is the lookup |
| `MeetMeRegistry.Registry.BuildConf` | apps/app_meetme.c:436-509 | the list is searched again under the lock, and a conference made only if missing, wanted and granted |
| `MeetMeRegistry.BuiltMeaning` | apps/app_meetme.c:436-509 | a caller gets a conference under its number exactly when one is listed or one is wanted and granted; it is then the one a lookup finds, and no other number is affected |
| `MeetMeRegistry.Registry.ConfFree` | apps/app_meetme.c:794-810 | the walk with two pointers removes the conference at that address |
| `MeetMeRegistry.StepKeeps` | apps/app_meetme.c:1809-1880 | with addresses not used again each stretch also keeps held conferences genuine |
| `MeetMeRegistry.NumbersAreUnique` | apps/app_meetme.c:1815-1845 | however callers interleave and whatever addresses are used again, the list never holds two conferences with one number, though the lock is dropped between lookup and build |
| `MeetMeRegistry.CallersMeet` | apps/app_meetme.c:1809-1880 | while no address is used again, two callers who hold listed conferences with one number hold the same conference |
| `MeetMeRegistry.AddressReused` | apps/app_meetme.c:792-838 | with an address used again they need not: one can be left holding what was freed |
| `ProcCalls.NamesDiffer` | apps/app_proc.c:208-216 | the variable names Proc uses are told apart by their text, ARG1 and ARG11 included |
| `ProcCalls.VarsRestored` | apps/app_proc.c:277-330 | leaving a frame puts back the arguments and Proc's own variables and no others |
| `ProcCalls.CallRestores` | apps/app_proc.c:170-330 | whatever its steps and nested calls did, a call that returns puts back arguments, variables, depth, autoloop and, if it ends in its own context, the caller's place, moved by PROC_OFFSET only when that step exists |
| `ProcCalls.DepthBackIff` | apps/app_proc.c:131-168 | a call that returns leaves the depth as it was exactly when it entered its frame or was refused as too deep |
| `ProcCalls.DepthLeftRaised` | apps/app_proc.c:154-159 | a call without a name, at depth 0, leaves depth 1 |
| `ProcCalls.ExecWithin` | apps/app_proc.c:131-145 | a nested run keeps within the depth left to it and does not lower the depth |
| `ProcCalls.AtMostSevenFrames` | apps/app_proc.c:131-145 | while only Proc writes PROC_DEPTH at most seven frames are ever active |
| `ProcCalls.Channel.SwapArgs` | apps/app_proc.c:208-216 | arguments are saved and replaced one by one, none saved after being overwritten |
| `ProcCalls.Channel.Enter` | apps/app_proc.c:170-218 | the saved frame is the caller's, and the channel is set up for the first step |
| `ProcCalls.Channel.RestoreVars` | apps/app_proc.c:277-302 | the variables are put back from the frame, all but PROC_OFFSET |
| `ProcCalls.Channel.Leave` | apps/app_proc.c:277-330 | the frame is put back, PROC_OFFSET last, after it was read |
| `ProcCalls.MarkedMeaning` | apps/app_proc.c:144-152 | marking raises the depth by one, turns hangup mode on exactly when it was on or the channel is on extension h, and touches no other variable |
| `ProcCalls.Channel.ProcExec` | apps/app_proc.c:97-333 | the call changes the channel, and returns, as the nested meaning says |
| `ProcCalls.Channel.RunBody` | apps/app_proc.c:219-263 | the loop over the steps stops at a result, a jump out of the context or a hangup |
| `ProcCalls.EnteredMeaning` | apps/app_proc.c:170-218 | the first step finds the arguments in ARG1, ARG2 and so on in order, the caller in PROC_EXTEN, PROC_CONTEXT and PROC_PRIORITY, no PROC_OFFSET, every other variable as it was, and itself at step 1 of extension s of the context of the procedure |
| `ProcCalls.OffsetMeaning` | apps/app_proc.c:303-330 | PROC_OFFSET set to d has the caller go on d steps further exactly when that step exists |
| `ProcCalls.QuietSteps` | apps/app_proc.c:219-263 | steps are gone through one by one, each at the next priority |
| `ProcCalls.StepEnds` | apps/app_proc.c:219-263 | the first step with a result ends the procedure with it, ProcExit with 0, and a hangup or a jump out of the context with 0 |
| `ProcCalls.ResultIsAStep` | apps/app_proc.c:219-263 | the result is 0 or that of one of its own steps, and never that of ProcExit |
| `ProcCalls.CallResult` | apps/app_proc.c:131-275 | a call that does not enter gives 0 and leaves the channel alone but for the mark; one that enters returns exactly when its body does and it is not in hangup mode, with the result of the body |
| `ProcCalls.OneAct` | apps/app_proc.c:219-263 | an application may leave the channel in any state, and may call Proc |
| `ProcCalls.ActsInOrder` | apps/app_proc.c:219-263 | what an application does is done in order, and stops where it does not return |
| `MultiTap.RunIs` | apps/app_dtmftotext.c:763-772 | a block of equal digits that does not go on is read as one run |
| `MultiTap.WordBackspace` | apps/app_dtmftotext.c:820-838 | the pointer ends where the deleted word began |
| `MultiTap.CountRun` | apps/app_dtmftotext.c:766-772 | the presses counted are the whole run |
| `MultiTap.ReadSelector` | apps/app_dtmftotext.c:786-846 | each selector edits the text or changes the mode as specified |
| `MultiTap.ReadDigit` | apps/app_dtmftotext.c:864-938 | the numeric loop and the table lookup enter what a run of presses means, and then the limit is tested |
| `MultiTap.ReadRun` | apps/app_dtmftotext.c:763-938 | a run, and a selector after two stars, has the effect the specification gives it |
| `MultiTap.DecodeBatch` | apps/app_dtmftotext.c:760-946 | the loop over a batch leaves the text and mode of the run-by-run specification |
| `MultiTap.PlanRoundTrip` | apps/app_dtmftotext.c:760-946 | from any text and mode the digits of a plan enter exactly what the plan spells, mode switches and separators included |
| `MultiTap.LocateFinds` | apps/app_dtmftotext.c:599-624 | the encoder finds every character that is on some key in some mode |
| `MultiTap.RoundTrip` | apps/app_dtmftotext.c:599-946 | every text over the key tables that fits is decoded back from its encoding |
| `MultiTap.BackspaceUndoes` | apps/app_dtmftotext.c:788-803 | backspace takes a run back exactly when it entered one character and left room |
| `MultiTap.BackspaceFails` | apps/app_dtmftotext.c:788-803 | two numeric presses are not taken back by one backspace |
| `MultiTap.DeleteWordMeaning` | apps/app_dtmftotext.c:820-838 | word-delete removes exactly the last word and the spaces after it, leaving nothing or a text that ends in a space; of spaces only, one stays |
| `MultiTap.WithinLimitIff` | apps/app_dtmftotext.c:913-937 | a batch leaves the text within the limit exactly when none of its runs enters more than there is room for |
| `MultiTap.TextStaysInRange` | apps/app_dtmftotext.c:760-946 | whatever its commands, a batch begun below the limit goes on below it or is over, and ends less than its longest run above it |
| `MultiTap.LimitOvershot` | apps/app_dtmftotext.c:913-937 | three numeric presses where there is room for one enter three characters |
| `MultiTap.SessionWithinIff` | apps/app_dtmftotext.c:597-975 | over any batches and any limit the text entered is within the limit exactly when no run entered more than there was room for |
| `MultiTap.TypedMeaning` | apps/app_dtmftotext.c:864-938 | in upper case a run types the letter of the key table that the presses count to, in lower case that letter made small, in symbol mode the symbol, in numeric mode the digit once a press |
| `MultiTap.LowerHasNoCapitals` | apps/app_dtmftotext.c:873-876 | no capital is typed in lower case, and a capital of upper case comes out as its small letter |
| `MultiTap.PressesGoRound` | apps/app_dtmftotext.c:871-872 | as many presses more as the key has characters type the same |
| `MultiTap.ModesMeaning` | apps/app_dtmftotext.c:804-846 | **5 is lower case, **6 numbers, **7 symbols and **8 upper case; none touches the text; # ends |
| `MultiTap.ModeThenKey` | apps/app_dtmftotext.c:760-946 | the mode chosen is the mode typed in |
| `MultiTap.AlphabetInOrder` | apps/app_dtmftotext.c:599-610 | in upper case the keys 2 to 9, pressed once, twice and so on, type the alphabet in order |
| `MultiTap.DigitLast` | apps/app_dtmftotext.c:599-624 | on every key, in either table, its own digit comes last |
| `MultiTap.KeypadTypesA` | apps/app_dtmftotext.c:864-938 | **52# types a and **82# types A |
| `PgCursor.FiledKeeps` | apps/app_sql_postgres.c:170-197 | a new number is above all live ones, so live numbers stay positive and distinct and other entries are found as before |
| `PgCursor.WithoutKeeps` | apps/app_sql_postgres.c:199-227 | taking an entry out leaves none under its number and kind and every other as it was |
| `PgCursor.Pgsql.FindIdentifier` | apps/app_sql_postgres.c:143-168 | the walk finds the entry of that number and kind |
| `PgCursor.Pgsql.AddIdentifier` | apps/app_sql_postgres.c:170-197 | the entry goes in under one more than the largest number |
| `PgCursor.Pgsql.DelIdentifier` | apps/app_sql_postgres.c:199-227 | exactly that entry goes out, and its absence is reported |
| `PgCursor.Pgsql.Release` | apps/app_sql_postgres.c:376-383 | the cursor under a handle leaves the list and its row is kept; without one the row is 0 |
| `PgCursor.Channel.SetRow` | apps/app_sql_postgres.c:386-400 | columns go into variables as far as both last |
| `PgCursor.Pgsql.Fetch` | apps/app_sql_postgres.c:327-419 | the list, the variables and the report of a fetch, the invalid result and the end of the rows included |
| `PgCursor.SetElsewhere` | corelib/pbx.c:6936-6980 | setting a variable leaves every lookup its name does not answer alone |
| `PgCursor.FetchElsewhere` | apps/app_sql_postgres.c:353-413 | a fetch leaves the lookup of every other status variable alone |
| `PgCursor.FetchCaptures` | apps/app_sql_postgres.c:356-362 | a status variable that another's name begins with is captured by it, so the two must not begin one another |
| `PgCursor.FetchIds` | apps/app_sql_postgres.c:375-405 | the old cursor is gone, the new one there, every other entry as before; at the end the handle is released |
| `PgCursor.OtherHandle` | apps/app_sql_postgres.c:353-413 | a fetch leaves the handle of every other status variable, of its channel or another |
| `PgCursor.OthersStand` | apps/app_sql_postgres.c:353-413 | cursors behind other variables, of any channel, stand where they stood, on handles of their own |
| `PgCursor.FetchAdvances` | apps/app_sql_postgres.c:353-413 | the variable fetched through moves and reports as its iterator does, and holds one entry while it is under way |
| `PgCursor.FetchSimulates` | apps/app_sql_postgres.c:353-413 | a fetch is one step of its own variable's iterator and no step of any other |
| `PgCursor.FreshTracks` | apps/app_sql_postgres.c:365-368 | channels that have not fetched yet stand at their first rows |
| `PgCursor.RunRefines` | apps/app_sql_postgres.c:143-413 | every run of fetches by any number of channels on the one list, through any status variables, with connects, queries and clears in between, reports exactly what independent plain iterators would |
| `PgCursor.IteratorCycles` | apps/app_sql_postgres.c:375-413 | where a plain iterator stands after k fetches: its rows and the end, over and over |
| `PgCursor.RowsInOrder` | apps/app_sql_postgres.c:353-413 | inside any interleaving of fetches by any channels, the j-th fetch through a status variable delivers row j of its n rows, the one after the last reports the end, and the next starts over |
| `PgCursor.ColumnsRead` | apps/app_sql_postgres.c:386-400 | what any lookup finds after a row was delivered: the column of the last variable that answers it, or what it found before |
| `PgCursor.FetchDelivers` | apps/app_sql_postgres.c:353-413 | a fetch that reports row i delivers exactly the columns of row i, one that reports the end none |
| `PgCursor.ColumnHolds` | apps/app_sql_postgres.c:386-400 | after a fetch of row i each column variable that no later name begins holds its column of row i |
| `PgCursor.ColumnsInOrder` | apps/app_sql_postgres.c:353-413 | inside any interleaving of fetches by any channels, the j-th fetch through a status variable delivers the columns of row j |
| `PgInterleaving.FourSteps` | apps/app_sql_postgres.c:353-413 | a fetch that nothing comes between is the fetch taken as one step |
| `PgInterleaving.StartAgrees` | apps/app_sql_postgres.c:353-377 | finding the result and the status variable moves no handle of any channel |
| `PgInterleaving.LookAgrees` | apps/app_sql_postgres.c:378-380 | the cursor found is where the iterator stands, whatever other channels did since the handle was read |
| `PgInterleaving.TakeAgrees` | apps/app_sql_postgres.c:381-384 | deleting the cursor takes no other off the list |
| `PgInterleaving.EndAgrees` | apps/app_sql_postgres.c:386-413 | filing the next cursor gives a handle no other status variable stands on, even when an old number is given again, and reports what the iterator does |
| `PgInterleaving.OutsideAgrees` | apps/app_sql_postgres.c:170-227 | connects, queries and clears between the parts of a fetch concern no cursor |
| `PgInterleaving.LockedRunRefines` | apps/app_sql_postgres.c:143-413 | with every fetch cut wherever it lets the lock go, however the parts of the fetches of any channels interleave, each reports exactly what the plain iterator of its status variable would |
| `PgInterleaving.FreshFollows` | apps/app_sql_postgres.c:365-368 | channels that have not fetched yet follow iterators at their first rows |
| `PgInterleaving.EndDelivers` | apps/app_sql_postgres.c:386-413 | the end of a fetch delivers the columns of the row it reports |
| `PgInterleaving.LockedColumns` | apps/app_sql_postgres.c:143-413 | with every fetch cut wherever it lets the lock go, each delivers the columns of the row where the plain iterator of its status variable stands |

## Left out

- Words of a script are taken as already told apart: tokens, quoting, comments that touch a word and number syntax are not modelled.
- Commands of a script whose bytes do not depend on the tables come as those bytes; the handlers that compute them from their arguments are not modelled.
- The state numbers of ONEVENT: the code stores the outcome of a comparison, which is 0, and so does the model; a missing word where the code reads past the end is not modelled.
- Bytes written past the committed length of a buffer, which a later header or IF block can leave in bytes 1, 2 or 5 until they are filled in; the model has 0 there.
- No cap on the size of a subroutine is claimed: IF blocks and GOTOs in them bypass it. The fixed sizes of C buffers (1024, 2048, 501, 80, 256 watchers) and failing allocations are not modelled.
- AdsiReading.KeyReads: names are read back when they do not hold the byte 255 themselves, which is what ends a name; the same goes for `KeyScript`, and for the first column in `DisplayMessageReads` and `DisplayScript`.
- AdsiCompiler.AdsiProg: the session, the beginning and the end of the download and the closing display message are outcomes of the phone; their bytes are not modelled.
- Buffers of the ADSI compiler and the legs of a dial are values that are replaced, so aliasing of their cells is not captured; the participants of a conference are cells with addresses, so there it is.
- Dial.DialExec: channels are numbered as cw_request hands them out, never twice; privacy, options, bridging, call limits, music and the status after a malformed dial string are not modelled. Rounds that run out before the wait ends leave it pending, with the invariant.
- MeetMeUsers.Conference.Join: joining and leaving are one step each; the code counts a participant only after the lock is released.
- MeetMeMute.LoopPass: failing ioctls are not modelled; participants are not admins, and of the admin menu only key 5 is modelled, in `MeetMeUsers`.
- MeetMeRecorder.NeverFreedInUse: is for a recorder that has set its flag; one still starting is not modelled.
- Proc in hangup mode never returns and is modelled as just that. A depth text without a number reads as 0, where the code reads an unset variable. Names cut to 80 characters and more than 80 arguments are not modelled.
- Global variables, underscores in front of names, and different names with one hash are left out of the channel variables of PGSQL; a list lock that fails, rows with null columns, and a result cleared while it is fetched from are not modelled.
- The spoken echo of DTMFToText and its timing between batches are not modelled.
- Integers do not overflow.
- The remaining applications, Gosub and Return among them, are left out, as are CLI, manager events, logging and module loading: they would only add easy members.
