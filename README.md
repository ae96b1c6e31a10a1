# skeleIntro game logic in Dafny

This project models the frame-driven game logic of skeleIntro, a small Go game built on the engo engine. The player walks a room, inspects objects and fights a ghost through menus. The model covers these parts:

- **Phase controller** (`phase.dfy`, module `Phases`). It keeps a current phase, a pending phase and a FIFO queue. Set and dequeue messages change them. `Update` makes the transition, then applies the Listen, LogClear or Accept exit rule. The pause, unpause and clear messages it sends, and each accept callback it calls, are events on a trace.
- **Combat log** (`log.dfy`, module `CombatLog`). A message list is typed out letter by letter on three scrolling lines. The module models the done query, `clear`, and pause and unpause with a one-frame skip guard. A Go index panic is an explicit `Panicked` outcome.
- **Menus**:
  - `card.dfy` (module `CardSelect`): the character card row, with a wrap-around cursor and a highlight that lags one frame.
  - `menu.dfy` (module `Menus`): the shared logic of the ability and item menus. This is a clamped cursor with a four-row window, the redraw and the confirm and cancel phase requests.
  - `ability_select.dfy` (module `AbilitySelect`) and `item_select.dfy` (module `ItemSelect`): the two menu systems as classes.
- **Cast bars** (`bars.dfy`, module `Bars`). HP and MP are mirrored onto the bars. The cast timer accumulates and, when due, resets and fires the selected ability once. A frame returns its firings in entity order.
- **Abilities** (`character.dfy`, module `Characters`; `abilities.dfy`, module `Abilities`):
  - removal of an ability by title;
  - `AddAbility`;
  - the effect of every ability, as a function of its dice, the save flags and the caster.
- **Exploration systems**:
  - doors (`door.dfy`, module `Doors`);
  - points of interest (`interest.dfy`, module `Interests`);
  - target selection (`target.dfy`, module `Targets`);
  - from scene.go, the save-flag logic of the Mars, nanite-box, safe and window interactions and `checkKeyCount` (`scene.dfy`, module `SceneInteractions`), with the phase script each interaction sends.
- **Shared pieces** (`common.dfy`, `save.dfy`): `Option`, the collision groups, search-and-splice helpers, Go's float-to-int truncation and `strconv.Itoa`, and the global save record.

### How the model is written

- **Systems are classes.** Each system whose fields the game updates in place is a Dafny class with those fields. Its methods carry `modifies` clauses. Each method is proved against a specification function on values (`Frame`, `Step`, `CardFrame`, `FiringsOf`, `Fired`, `Teleports` and others). The properties the game relies on are proved as lemmas about those functions.
- **Messages and callbacks are values.** Mailbox messages and closures are not called. A method returns the phase commands it would dispatch, the log lines it would print and the callback it would register.
- **Panics are outcomes.** A Go panic (index or slice out of range) becomes `None`, `Panicked`, `MenuPanic` or `CardPanic`, or a `panicked` out-parameter.

### Source and specification disagreements

The repository does not compile as shown. The model follows the code and resolves the gaps like this:

- **Phase enum.** The `Phase` datatype adds `CardSelect`, `AbilitySelect`, `ItemSelect` and `Target`. The code uses them, but the enum at phase.go:12-18 does not declare them.
- **Character fields.** `Character` carries every field the code uses: abilities, inventory, the card and cast fields.
- **`AddAbility`.** It is called but defined nowhere. It is modelled as appending the ability unless one with the same title is already held.
- **`RemoveAbility`.** As written (character.go:51-62), it assigns the found index to an undeclared `idx` instead of `delete`. The method is also declared on `*Player` (character.go:51), not on `*Character`, so as written it could not reach a character's abilities at all. The model keeps the written version as `RemovedAsWritten`, and uses the intended splice on the character everywhere else (see Findings).

## Model

| member | source | states |
|---|---|---|
| Characters.RemovedSpec | character.go:51-62 | With no ability of the title the list is unchanged; otherwise exactly the first match goes, the length drops by one, the others keep their order and that title's count drops by one |
| Characters.RemoveAbilityAsWrittenKeepsMatch | character.go:52-56 | As written no list ever changes, so a held title stays held; the intended removal shortens the list by one and, with unique titles, drops the title |
| Characters.Character.RemoveAbility | character.go:51-62 | The abilities become the intended removal of the title from the old list |
| Characters.Character.AddAbility | abilities.go:65 | The abilities become the old list with the ability appended unless its title is held |
| Characters.AddedSpec | abilities.go:65 | After adding, the title is held; a held title adds nothing; unique titles stay unique; removing a newly added title gives back the old list |
| Characters.RemovedFromUnique | character.go:51-62 | From a list with unique titles, removal leaves no ability with the title and keeps titles unique |
| Characters.RemovedDropsTitle | character.go:51-62 | From a list with unique titles, no remaining ability has the removed title |
| Characters.RemovedKeepsUnique | character.go:51-62 | Removal keeps titles unique |
| Characters.RemovedAllFromUnique | abilities.go:245-248 | Several removals from a unique-titled list leave none of the removed titles |
| Characters.RemovedKeepsAbsent | character.go:51-62 | Removal never brings in a title |
| Characters.AddedAllSpec | abilities.go:91-125 | Adding several abilities keeps titles unique and ends with every added title held |
| Characters.FirstSelected | ability.go:155-161 | The index of the first character whose card is selected, with none before it, or -1 when none is |
| Characters.LastSelected | ability.go:389-433 | The index of the last character whose card is selected, with none after it, or -1 when none is |
| Characters.OneSelectedAgrees | ability.go:155-161 | With at most one card selected, the character a menu draws on opening is the one its frames serve |
| Characters.FindSelected | ability.go:155-161 | The search loop returns `FirstSelected` of the characters and changes nothing |
| Abilities.CastTimeBounds | abilities.go:27-32 | The regular attack's cast time is at least 0.2, at most 1.5 for non-negative dexterity, never longer for more dexterity, and exactly 1.5 - dex/100 up to a dexterity of 130 |
| Abilities.ApplyCastTime | abilities.go:27-32 | Only the regular attack's closure sets the total cast time, to the regular attack's cast time; the others change nothing |
| Abilities.LookAroundSpec | abilities.go:58-125 | A roll up to 5 finds nothing; 6 to 19 offers at most the first undiscovered thing in the order board, pointer, kit, salt; 20 offers every undiscovered thing; "already seen" appears exactly when everything is found |
| Abilities.CastLookAround | abilities.go:55-134 | The lines and the new ability list are those `LookAroundSpec` describes for the roll |
| Abilities.SeeSomething | abilities.go:61-90 | A middle roll prints the lines of the first undiscovered thing and adds its ability |
| Abilities.SeeEverything | abilities.go:91-125 | A roll of 20 prints the lines of every undiscovered thing and adds all their abilities |
| Abilities.Reveal | abilities.go:93-96 | One discovery on a 20: when still hidden, its lines are printed and its ability is added; otherwise nothing changes |
| Abilities.SeeEverythingAdded | abilities.go:91-125 | Adding the hidden discoveries one by one equals adding the list of them |
| Abilities.SafeSearchSpec | abilities.go:152-161 | Searching the safe always offers Distract and Dodge and Guess the Pin, and offers Ask about the Pin exactly when Me was recruited |
| Abilities.CastSafeSearch | abilities.go:144-170 | The lines are the safe-search lines and the abilities are added as `SafeSearchSpec` describes |
| Abilities.PinSolvedSpec | abilities.go:245-249 | With unique titles, solving the pin leaves none of the four pin abilities, holds Grab, and keeps titles unique |
| Abilities.RemovePinAbilities | abilities.go:245-248 | Guess, Ask, Input and Distract are removed in that order |
| Abilities.AskPinSpec | abilities.go:184-207 | The list changes only when the target, or else the caster, is Me; then Guess and Ask are gone and Input is held |
| Abilities.CastAskPin | abilities.go:179-215 | With no target player the effect panics and changes nothing; otherwise the lines and the list follow `AskPinSpec` |
| Abilities.GuessPinSpec | abilities.go:233-256 | Only the winning draw 1234 solves the pin; any other draw leaves the list alone and adds the two "wrong" lines |
| Abilities.CastGuessPin | abilities.go:226-264 | The lines and the new list are those `GuessPinSpec` describes for the draw |
| Abilities.CastInputPin | abilities.go:274-290 | Input the Pin solves the pin exactly once: the pin abilities go and Grab is added |
| Abilities.DodgeAppendsGrab | abilities.go:325-329 | A dodge removes the four pin abilities and raises the Grab count by one even when Grab is already held |
| Abilities.CastDistractAndDodge | abilities.go:300-350 | With no target baddie the effect panics and changes nothing; a dodge removes the pin abilities and appends Grab; a hit takes the blast damage (d30 + 15 + the ghost's strength and intelligence) from HP |
| Abilities.GrabSaveSpec | abilities.go:360-373 | Grab takes the board and opens the safe only when the board is not yet held, and touches nothing else in the save |
| Abilities.GrabRemovesItself | abilities.go:374 | From a unique-titled list, Grab leaves no Grab ability behind |
| Abilities.CastGrabItemInSafe | abilities.go:358-383 | The lines depend on whether the board was held; the save follows `GrabSaveSpec`; Grab is removed |
| Abilities.CastGlintSearch | abilities.go:391-407 | Looking closer at the wall prints its lines and only removes that ability |
| Abilities.KitSaveSpec | abilities.go:422-433 | The kit's bandage and drink counts never go down, grow by at most 3 and 2, and nothing else in the save changes |
| Abilities.KitNothingIff | abilities.go:424-436 | The search reports "nothing." exactly when neither draw is positive |
| Abilities.KitFind | abilities.go:422-437 | The find lines and the new counts are those of the two draws |
| Abilities.CastMedKitSearch | abilities.go:416-461 | When the kit opens, the lines list the finds and the save gains them; otherwise the mimic bites for the d20 roll + 5 and the save is unchanged |
| Abilities.Fire | abilities.go:33-484 | Firing an ability panics exactly when Ask has no target player or Distract and Dodge has no target baddie, and a panic changes nothing; the regular attack, Defend and Read the Spooky Board print nothing and keep the abilities; every other effect's lines, ability list, HP and save are those its own specification gives for its die (Look Around with the d20 plus one, the med kit with its d100, d6 counts minus 2 and 3 and d20 bite); only Grab and the med kit change the save, and only Distract and Dodge and the med kit change HP |
| Bars.FiringsOf | bars.go:57-88 | A frame fires at most once per entry |
| Bars.FiringsAreDue | bars.go:68-81 | Every firing comes from a casting character whose cast is due and whose ability has an effect, and carries exactly the ability and targets stored in that bar; conversely every such character fires with them |
| Bars.TickKeepsTimerValid | bars.go:68-81 | A tick keeps the cast timer in range; a finished cast restarts at 0 of 1 |
| Bars.TickMirrors | bars.go:60-67 | After a tick the bars show the current HP and MP, and HP and MP are untouched |
| Bars.FiresOnce | bars.go:73-78 | The firing tick clears the ability and the targets, so the effect fires once per selection; a bar with no ability never fires |
| Bars.NoFireKeepsSelection | bars.go:70-78 | A tick that does not fire keeps the ability and its targets |
| Bars.RunAccumulates | bars.go:68-72 | Before a cast reaches its total, its timer is the sum of the frame times |
| Bars.CastFiresWhenDue | bars.go:68-78 | The frame at which the accumulated time reaches the total fires the effect with the targets chosen when the cast began |
| Bars.RunKeepsTargets | bars.go:68-78 | Frames that do not fire keep the ability and the targets |
| Bars.RemoveSpec | bars.go:37-55 | Remove drops the first entry of the entity and keeps the rest in order; with no entry for it nothing changes |
| Bars.BarSystem.Add | bars.go:22-24 | The entry is appended |
| Bars.BarSystem.AddByInterface | bars.go:26-35 | A character gets a character entry and an enemy an enemy entry |
| Bars.BarSystem.Remove | bars.go:37-55 | The entries become `Remove` of the old entries |
| Bars.BarSystem.Update | bars.go:57-88 | Every character ticks as `Tick` says, enemies are skipped, and the firings are `FiringsOf` the states before the frame |
| Bars.BarSystem.TickOne | bars.go:60-83 | One character's fields become `Tick` of its old state |
| Bars.BarSystem.Mirror | bars.go:60-67 | The bars take the current HP and MP |
| Bars.BarSystem.Advance | bars.go:68-83 | The cast fields move as `Tick` says and the firing is reported |
| CardSelect.NavSpec | card.go:83-93 | The cursor stays on a card; left on the first card goes to the last and right on the last to the first; left and right undo each other |
| CardSelect.CardFrameSpec | card.go:65-117 | On a Valid row a frame never panics and keeps the row Valid; it raises the card the cursor was on at its start; A, B, X, Y send AbilitySelect, ItemSelect, Target, CardSelect; X and Y give RegularAttack and Defend to the raised card |
| CardSelect.EmptyRowPanics | card.go:73-82 | On a row with no cards, the first live frame panics whatever is pressed: the raised card catches up with the cursor before any button is read, and there is no card to raise |
| CardSelect.ReopenedValid | card.go:119-149 | Pausing and opening a non-empty row gives a Valid row with the next frame skipped |
| CardSelect.MenusServeRaisedCard | ability.go:155-161 | On a Valid row exactly one card is selected, and the menus' first and last selected character are both the raised card |
| CardSelect.CardSelectSystem.constructor | card.go:26-39 | A new row has no entries and nothing raised |
| CardSelect.CardSelectSystem.Add | card.go:41-43 | The character is appended |
| CardSelect.CardSelectSystem.AddByInterface | card.go:45-50 | Only characters join |
| CardSelect.CardSelectSystem.Remove | card.go:52-63 | The first entry with the id leaves and the rest keep their order |
| CardSelect.CardSelectSystem.Update | card.go:65-117 | The indices, every card's flag and the messages move as `CardFrame` says; only the raised card's ability can change |
| CardSelect.CardSelectSystem.Live | card.go:73-116 | A frame that is neither skipped nor paused follows `CardFrame` |
| CardSelect.CardSelectSystem.Act | card.go:94-116 | The button actions on the raised card follow `CardFrame` |
| CardSelect.CardSelectSystem.Highlight | card.go:73-82 | The raised card catches up with the cursor, or the frame panics when an index is off the row |
| CardSelect.CardSelectSystem.Pause | card.go:119-135 | Every card's cast becomes an empty one-second cast; the raised card is lowered, or the pause panics when its index is past the row; the indices are reset |
| CardSelect.CardSelectSystem.Unpause | card.go:137-149 | Every card is lowered and the first raised, or the unpause panics on an empty row; the next frame is skipped |
| Menus.ClampSpec | ability.go:165-177 | Up never takes the cursor below 0; down never takes it past max(len-1, 0); from inside the list each press moves it by at most one |
| Menus.NewTopSpec | ability.go:196-318 | After a scroll the cursor is inside the four-row window; a cursor already inside leaves the window where it was |
| Menus.WindowShorts | ability.go:222-305 | Row k of a window shows entry top+k when there is one, and the placeholder otherwise |
| Menus.FillAgreesInBounds | ability.go:222-305 | A scroll happens only on a list of more than four entries, and there the fallthrough fill equals the intended window |
| Menus.ValidShowsCursorEntry | ability.go:308-330 | In a Valid menu the row under the cursor sprite shows the entry the cursor designates |
| Menus.RedrawKeepsValid | ability.go:165-331 | While the list is unchanged, one frame of movement and redraw keeps the menu Valid, never indexes outside the list, and moves the cursor as `Clamp` says |
| Menus.HandOffSpec | ability.go:185-193 | Requesting a phase and dequeuing at once: with nothing queued the requested phase is next; a queued phase goes first and the request waits behind the queue; from an idle controller nothing changes |
| Menus.FrameSpec | ability.go:147-332 | On a Valid menu a frame panics only when an ability is confirmed from an empty list; it keeps the menu Valid; a confirmed entry is the one under the cursor and sends Target; B, and confirming an empty item list, send CardSelect |
| Menus.OpenedSpec | ability.go:354-434 | An opened menu is Valid for its list, shows every entry of a list of up to four, and has the cursor on the first row |
| Menus.PausedIgnoresInput | ability.go:152-154 | A paused menu ignores every frame and keeps its indices and texts |
| Menus.AbilityOpenDropsLastEntry | ability.go:389-433 | As written, opening the ability menu never shows the last entry of a list of up to four and shows no title for a single entry, where the intended opening shows them |
| Menus.ItemOpenPanics | item.go:395-433 | As written, opening the item menu panics exactly on lists of two or three entries and shows a single entry as empty; the intended opening is total |
| Menus.StaleCursorPicksHiddenEntry | ability.go:354-358 | As written, a menu reopened on a three-entry list shows the first entry, yet confirming picks the third |
| Menus.StaleCursorPanics | ability.go:354-358 | As written, a menu reopened on a one-entry list panics when up is pressed; the intended opening does not |
| AbilitySelect.AbilitySelectSystem.constructor | ability.go:33-121 | A new menu has no entities, zero indices and placeholder texts |
| AbilitySelect.AbilitySelectSystem.Add | ability.go:123-125 | The character is appended |
| AbilitySelect.AbilitySelectSystem.AddByInterface | ability.go:127-132 | Only characters join |
| AbilitySelect.AbilitySelectSystem.Remove | ability.go:134-145 | The first entity with the id leaves |
| AbilitySelect.AbilitySelectSystem.Update | ability.go:147-332 | The menu moves as `Frame` says; a confirmed ability becomes the served character's selected ability and raises its flag; no other character changes |
| AbilitySelect.AbilitySelectSystem.Pause | ability.go:334-352 | The menu is hidden; the indices and texts stay |
| AbilitySelect.AbilitySelectSystem.Unpause | ability.go:354-434 | The menu opens as `Opened` says, on the last card-selected character |
| ItemSelect.ItemSelectSystem.constructor | item.go:33-121 | A new menu has no entities, zero indices and placeholder texts |
| ItemSelect.ItemSelectSystem.Add | item.go:123-125 | The character is appended |
| ItemSelect.ItemSelectSystem.AddByInterface | item.go:127-132 | Only characters join |
| ItemSelect.ItemSelectSystem.Remove | item.go:134-145 | The first entity with the id leaves |
| ItemSelect.ItemSelectSystem.Update | item.go:147-335 | The menu moves as `Frame` says; a confirmed item becomes the served character's selected item; no other character changes |
| ItemSelect.ItemSelectSystem.Pause | item.go:337-355 | The menu is hidden; the indices and texts stay |
| ItemSelect.ItemSelectSystem.Unpause | item.go:357-436 | The menu opens as `Opened` says, on the last card-selected character, without indexing past a short list |
| Phases.ApplyAll | phase.go:66-94 | Delivering commands one after another: a request when idle sets `pending` and otherwise appends to the queue; a dequeue pops the head or falls back to Beginning |
| Phases.PerformKeepsOrder | phase.go:73-77 | One timely step keeps the queue orderly and moves phases from the queue to `pending` without reordering them |
| Phases.QueueIsFifo | phase.go:193-202 | Without late requests, phases reach `pending` in exactly the order they were queued or requested |
| Phases.LateRequestOvertakesQueue | phase.go:73-77 | A request made once the controller has settled on Beginning overtakes a phase already queued |
| Phases.Activation | phase.go:126-149 | Entering a phase sends no pause; only Listen, Walk, LogClear and Accept switch anything back on |
| Phases.TransitionPausesBeforeActivating | phase.go:104-151 | A transition first pauses the log, doors, interests and prompt, then switches on only what the new phase needs, and ends with current equal to the old pending phase |
| Phases.NoTransitionNoPause | phase.go:104 | Without a pending change no pause is sent and current stays put |
| Phases.EnteringBeginningOnlyPauses | phase.go:113-125 | Entering Beginning pauses everything and switches nothing back on |
| Phases.ListenWaitsForLog | phase.go:154-161 | In Listen nothing is dequeued until the log is done; then A, B, X or a left click dequeues |
| Phases.LogClearIsOneShot | phase.go:164-165 | LogClear dequeues on the frame it is entered |
| Phases.AcceptCallsCallbackOnlyOnYes | phase.go:177-189 | In Accept a confirm calls the stored callback iff yes is selected and a callback is registered, dequeues either way, and keeps the callback |
| Phases.PhaseLogicExtendsTrace | phase.go:153-190 | The per-phase logic only appends prompt unpauses and callback calls to the trace |
| Phases.EnterPromptUnpause | phase.go:144-148 | A transition sends no prompt unpause and raises the wait flag only on entering Accept |
| Phases.PhaseLogicPromptUnpause | phase.go:166-176 | The per-phase logic sends a prompt unpause only by lowering the wait flag |
| Phases.StepPromptUnpause | phase.go:103-190 | One frame sends at most one prompt unpause, only while the wait flag is up, and lowers the flag when it does |
| Phases.PromptUnpausedOncePerEntry | phase.go:144-176 | Over any run of frames the accept prompt is unpaused at most once per entry into Accept |
| Phases.PhaseSystem.constructor | phase.go:56-95 | A new controller is in Beginning with an empty queue and no callback |
| Phases.PhaseSystem.OnSetPhase | phase.go:66-78 | The state becomes `Request` of the old state |
| Phases.PhaseSystem.OnAcceptSet | phase.go:80-86 | The registered callback is replaced |
| Phases.PhaseSystem.OnDequeue | phase.go:193-202 | The state becomes `Dequeue` of the old state |
| Phases.PhaseSystem.Deliver | phase.go:179 | A callback's messages are delivered in order, as `ApplyAll` says |
| Phases.PhaseSystem.Transition | phase.go:104-151 | The controller becomes `Enter` of the old one |
| Phases.PhaseSystem.AcceptFrame | phase.go:166-190 | The controller becomes `PhaseLogic` of the old one in Accept |
| Phases.PhaseSystem.Update | phase.go:103-191 | The controller becomes `Step` of the old one |
| CombatLog.InitialIsSafe | log.go:64 | The starting state is safe |
| CombatLog.ClearIsSafe | log.go:252-271 | After `clear` the log is empty, idx is -1, charAt is 0, the state is safe, and done and moved are untouched |
| CombatLog.AppendKeepsState | log.go:141-149 | Appending keeps every earlier message, idx and what is shown, and puts the message last |
| CombatLog.AppendKeepsSafe | log.go:141-149 | A non-empty message keeps the log safe, unless it arrives after a clear made while a message was being typed |
| CombatLog.ClearWhileTypingThenPanics | log.go:252-271 | Clearing in the middle of a message and then appending leaves idx at -1 with typing still on, and the next frame panics |
| CombatLog.DoneMeansLastLineShown | log.go:158 | The done answer on a non-empty valid log means the last message is fully shown on the top line |
| CombatLog.GuardedFrames | log.go:185-191 | A skip frame only clears its flag; a paused frame changes nothing; after unpause the next frame is skipped |
| CombatLog.DoneAdvancesByOne | log.go:193-198 | When done and a later message exists, idx moves on by exactly one and typing restarts; otherwise idx and the flags stay |
| CombatLog.NewLineScrolls | log.go:204-223 | A new line moves line1 to line2 and line2 to line3 and shows the markers of lines with text |
| CombatLog.SkipShowsWholeLine | log.go:236-243 | Once a line has started, the skip key shows the whole message, sets charAt to 0 and ends the message |
| CombatLog.SafeFrames | log.go:184-250 | From a safe state a frame panics exactly when the skip key is pressed over an empty log |
| CombatLog.FrameKeepsValid | log.go:225-248 | A frame advances charAt by at most one letter, keeps it below the message length, and keeps the top line equal to the typed part |
| CombatLog.FrameKeepsSafe | log.go:184-250 | A safe state stays safe across every frame that does not panic |
| CombatLog.CombatLogSystem.constructor | log.go:64-180 | A new log is in the initial state |
| CombatLog.CombatLogSystem.OnMessage | log.go:141-149 | The state becomes `Append` of the old state |
| CombatLog.CombatLogSystem.OnDoneQuery | log.go:151-159 | The answer is done && idx >= len(log)-1, and when it holds on a valid log the last line is shown |
| CombatLog.CombatLogSystem.Clear | log.go:252-271 | The state becomes `Cleared` of the old state |
| CombatLog.CombatLogSystem.BlankLines | log.go:253-264 | The three lines are emptied and their markers reset |
| CombatLog.CombatLogSystem.Forget | log.go:265-270 | The messages are dropped, idx is -1 and charAt is 0 |
| CombatLog.CombatLogSystem.Pause | log.go:273-282 | Only the paused flag is raised |
| CombatLog.CombatLogSystem.Unpause | log.go:284-300 | The paused flag is lowered and the next frame is skipped |
| CombatLog.CombatLogSystem.Update | log.go:184-250 | The frame panics exactly when `Frame` does, and otherwise leaves the state `Frame` gives |
| CombatLog.CombatLogSystem.Tick | log.go:192 | The frame time is added to the elapsed time |
| CombatLog.CombatLogSystem.AdvanceFrame | log.go:193-250 | The rest of the frame follows `Advance` |
| CombatLog.CombatLogSystem.ScrollUp | log.go:204-223 | The state becomes `StartLine` of the old state |
| CombatLog.CombatLogSystem.StartTimer | log.go:204-213 | The line timer restarts and the first marker shows |
| CombatLog.CombatLogSystem.ShiftLines | log.go:207-222 | The lines move up one place and a marker shows beside each line with text |
| CombatLog.CombatLogSystem.TypeFrame | log.go:225-248 | Typing follows `Type` |
| CombatLog.CombatLogSystem.LetterStep | log.go:225-235 | One letter once the letter delay has passed, as `Letter` says |
| CombatLog.CombatLogSystem.SkipStep | log.go:236-243 | The skip key shows the whole message, as `Skip` says |
| CombatLog.CombatLogSystem.FinishStep | log.go:244-248 | The end-of-message check, as `Finish` says |
| Doors.StepSpec | door.go:100-115 | After a frame a door is open exactly when touched; opening selects "open" and closing "close"; a sending door was already open, so it does not change that frame |
| Doors.OpenThenSend | door.go:101-108 | Touching a closed door with its button held opens it without sending; once the animation reaches the open frame, the next frame sends |
| Doors.Teleports | door.go:99-115 | A frame sends at most one teleport per door |
| Doors.TeleportsFromSendingDoors | door.go:101-104 | Every teleport target belongs to a door that sends the player; with no button held no one is sent |
| Doors.SendingDoorsTeleport | door.go:101-104 | Every door that sends the player puts its target among the frame's teleports |
| Doors.DoorSystem.constructor | door.go:66-76 | A new system has no doors and is running |
| Doors.DoorSystem.Add | door.go:66-76 | The door is appended |
| Doors.DoorSystem.Remove | door.go:78-89 | The first door with the id leaves and the rest keep their order |
| Doors.DoorSystem.Update | door.go:91-116 | A skip frame only clears the flag and a paused frame changes nothing; otherwise every door steps as `Step` says and the teleports are `Teleports` of the doors before the frame |
| Doors.DoorSystem.StepAll | door.go:99-115 | Every door steps and the teleports come out in door order |
| Doors.DoorSystem.StepDoor | door.go:100-114 | One door steps as `Step` says and reports whether it sends |
| Doors.DoorSystem.Pause | door.go:118-120 | Only the paused flag is raised |
| Doors.DoorSystem.Unpause | door.go:122-125 | The paused flag is lowered and the next frame is skipped |
| Interests.Fired | interest.go:92-100 | A frame runs at most one callback per entity |
| Interests.FiredSpec | interest.go:92-99 | A callback runs exactly when its entity is overlapped on a confirmed frame; a nil callback never runs |
| Interests.NothingFiresUnconfirmed | interest.go:94 | Without A or a left click nothing runs |
| Interests.OneRunPerEntity | interest.go:92-99 | When every entity has a callback, a confirmed frame runs one per overlapped entity |
| Interests.InterestSystem.constructor | interest.go:59-61 | A new system has no entities and is running |
| Interests.InterestSystem.Add | interest.go:59-61 | The entity is appended |
| Interests.InterestSystem.AddByInterface | interest.go:63-69 | Only entities with collision and interest components join |
| Interests.InterestSystem.Remove | interest.go:71-82 | The first entity with the id leaves and the rest keep their order |
| Interests.InterestSystem.Update | interest.go:84-101 | A skip frame only clears the flag and a paused frame runs nothing; otherwise the callbacks run are `Fired` |
| Interests.InterestSystem.RunAll | interest.go:92-100 | The loop runs exactly the callbacks `Fired` names, in entity order, and changes nothing |
| Interests.InterestSystem.Pause | interest.go:103-105 | Only the paused flag is raised |
| Interests.InterestSystem.Unpause | interest.go:107-110 | The paused flag is lowered and the next frame is skipped |
| Targets.RemoveIndexAsWritten | target.go:56-70 | The index the written removal deletes: -1 when there is no match, 1 for a character's entry, the entry's own index for a baddie |
| Targets.RemoveAsWritten | target.go:55-74 | The written removal leaves the list unchanged without a match and panics exactly when the index it picks is past the end |
| Targets.RemoveSpec | target.go:55-74 | The intended removal takes out exactly the first entry of the entity, keeps the rest in order, and leaves the list unchanged when there is none |
| Targets.RemoveFirstCharacterAsWritten | target.go:59-61 | As written, removing a character whose entry comes first deletes the second entry and keeps its own; with its entry the only one, removal panics |
| Targets.RemoveAgreesAsWritten | target.go:64-68 | The written and intended removals agree for baddies and for a character entry at index 1 |
| Targets.FirstSelectedChara | target.go:85-93 | The index of the first character entry whose card is selected, with none before it, or -1 when none is |
| Targets.TargetSystem.constructor | target.go:40-42 | A new system has no entries and is running |
| Targets.TargetSystem.Add | target.go:40-42 | The entry is appended |
| Targets.TargetSystem.AddByInterface | target.go:44-53 | A character gets a character entry and a baddie a baddie entry, the character first |
| Targets.TargetSystem.RemoveEntity | target.go:55-74 | As corrected: the entries become the intended `Remove` of the old entries |
| Targets.TargetSystem.Update | target.go:76-98 | A skip frame only clears the flag and a paused frame finds nothing; otherwise the first selected character is found; no other state changes |
| Targets.TargetSystem.FindSelectedChara | target.go:85-93 | The loop returns the character of `FirstSelectedChara` and changes nothing |
| Targets.TargetSystem.Pause | target.go:100-102 | Only the paused flag is raised |
| Targets.TargetSystem.Unpause | target.go:104-107 | The paused flag is lowered and the next frame is skipped |
| SceneInteractions.KeysIn | scene.go:2074-2087 | The number of keys in a set is at most 4, and 4 exactly when every key is present |
| SceneInteractions.KeysInWith | scene.go:1489-1607 | Adding a missing key adds one to the count |
| SceneInteractions.KeyCountAnimationSpec | scene.go:2074-2087 | Counts 0 to 4 show the animation named by their number, any other count shows "4", and different counts up to four show different animations |
| SceneInteractions.ScriptHandsOver | scene.go:1651-1678 | From Walk with nothing queued, an interaction makes Accept (with a callback) or Listen the next phase, with LogClear and Walk queued behind it |
| SceneInteractions.ConfirmedScript | scene.go:1493-1514 | After a yes at the prompt, a callback that prints lines leads to Listen, then LogClear and Walk; a no, or taking the nanite key, goes straight to LogClear and Walk |
| SceneInteractions.VisitMarsSpec | scene.go:416-463 | Only the Mars count changes, by one; the tier is the new count up to 4; no callback is offered |
| SceneInteractions.MarsTiersInOrder | scene.go:417-445 | From a fresh count the n-th visit says tier min(n, 4), and the tiers never go back |
| SceneInteractions.VisitBoxSpec | scene.go:478-620 | The box count goes up by one; protective gear is held afterwards iff it was before or this is the second to ninth visit drawing 9 or 10; the nanite key is offered exactly while not held |
| SceneInteractions.SafeOfferSpec | scene.go:1483-1615 | An open safe whose board was taken offers nothing; otherwise the first pending key in the order nanite, desk, hood, space is offered; opening is offered only with all four keys in a closed safe |
| SceneInteractions.KeyboardRolls | scene.go:1925-1965 | As written, a first roll of 10 or more always gives the space key and a roll of 8 or 9 gives it only when the second roll is under 7; as intended only the second roll decides |
| SceneInteractions.WindowGivesSpaceKey | scene.go:1907-1965 | Without the space key, looking out and saying yes wins the key exactly when the first roll is at least 8 and the second is not 7 to 9; nothing else in the save or the safe changes |
| SceneInteractions.PutKeyShowsCount | scene.go:1489-1553 | Putting in the offered key raises the count by one, marks the key as in the safe, and the safe shows the new count |
| SceneInteractions.SpaceKeyAnimationLags | scene.go:1605-1607 | As written, putting in the space key leaves the safe showing one key fewer than it holds |
| SceneInteractions.PutKeyAgreesAsWritten | scene.go:1489-1553 | For the nanite, desk and hood keys the written and intended insertions agree |
| SceneInteractions.OpenTheSafeSpec | scene.go:1618-1646 | Opening the offered safe takes the board, opens the safe, shows it open, and the safe then offers nothing |
| SceneInteractions.FourKeysOpenTheSafe | scene.go:1483-1646 | As corrected: with four keys held and none in, four rounds put in the nanite, desk, hood and space keys in that order, the count shown going 1 to 4, and the fifth round opens the safe |
| SceneInteractions.Scene.CheckKeyCount | scene.go:2074-2087 | The safe's animation becomes the one for the key count |
| SceneInteractions.Scene.InspectMars | scene.go:416-463 | The save, lines and phase script become those of `VisitMars` |
| SceneInteractions.Scene.InspectNaniteBox | scene.go:478-620 | The save, lines, callback and phase script become those of `VisitBox` |
| SceneInteractions.Scene.InspectSafe | scene.go:1480-1679 | The safe changes no flag by itself and offers a key insertion or the opening, as `VisitSafe` says |
| SceneInteractions.Scene.LookOutWindow | scene.go:1907-2012 | The keyboard is offered exactly when the space key is not held and the roll is at least 8; nothing else changes |
| SceneInteractions.Scene.RunAccepted | scene.go:1489-1646 | As corrected: a confirmed callback changes the save and the safe's animation as `Accepted` says |

## Left out

- Rendering: sprites, fonts, text drawables, scales, positions, z-indices, hidden flags, bar widths and the cursor sprite. Menus keep only the row under the cursor and the texts of the rows.
- Audio playback and clip rewinds.
- Collision detection, animation selection and the engine's input polling. Collision flags, the current animation frame and button states are inputs.
- `math/rand` draws. Each die is a parameter with the range of its `rand.Intn`.
- The mailbox. A message a system would dispatch becomes a returned value: a phase command list, a trace event, a log line or a callback name. A listener becomes a method.
- The `sync.Mutex` and `RWMutex` locks. Everything is sequential.
- Go's fixed-width `int`. Integers are unbounded, which only matters on overflow the game never reaches.
- `float32`. Times, HP and stats are `real`, so no rounding is modelled.
- The rest of scene.go: room geometry, assets, dialogue text, the other interactions and the scene setup, including the safe's first `checkKeyCount` call. The interactions modelled return a tag (`Said`) for their dialogue instead of its text.
- exit.go, move.go, accept.go, fight.go, fight_shader.go, main.go, nav_js.go, baddie.go and ai.go. They are not part of this model. The "yes selected" answer of accept.go is an input of the phase model.
- Aliasing in Go's `append(s[:d], s[d+1:]...)`. Every Remove is modelled on values, so the in-place shift of the shared backing array is not captured.
- The scene script runs `rollAgain := rand.Intn(20)` inside the keyboard callback. The model passes it to the callback as a parameter.
- Doors.DoorSystem.Update: requires that no door appears twice in the list (the entity system adds each entity once); the Go code has no such check.
- Doors.DoorSystem.StepAll: requires the same distinctness.
- Bars.BarSystem.Update: requires that no character appears twice; the Go code has no such check.
- CardSelect.CardSelectSystem.Update: requires that no character appears twice in the row (the entity system adds each entity once); the Go code at card.go:65-117 has no such check.
- CardSelect.CardSelectSystem.Live: requires the same distinctness.
- CardSelect.CardSelectSystem.Act: requires the same distinctness.
- CardSelect.CardSelectSystem.Highlight: requires the same distinctness.
- CardSelect.CardSelectSystem.Unpause: requires that no character appears twice, for the same reason.
- Bars.BarSystem.Update: returns the firings instead of calling each effect inside the loop. An effect touches only its caster's HP and abilities, the save and the log, and no later iteration of the loop reads those.
- Abilities.Fire: a nil effect is excluded by `requires`, because the cast bar checks for nil before calling (bars.go:73).
- Characters.Character.AddAbility: its behaviour (append unless the title is held) is a modelling decision, since the repository does not define it.
- AbilitySelect.AbilitySelectSystem.Unpause and ItemSelect.ItemSelectSystem.Unpause use the corrected opening, not the written one (see Findings).
- SceneInteractions.Scene.RunAccepted: runs the corrected key insertion (the count goes up before `checkKeyCount`, for the space key too, where scene.go:1605-1607 calls `checkKeyCount` first) and the corrected keyboard test (`rollAgain < 10`, where scene.go:1942 tests `roll < 10`), not the written ones; see Findings.
- SceneInteractions.FourKeysOpenTheSafe: is stated over the corrected insertion. As written, the space key put in fourth leaves the safe showing "3" (SceneInteractions.SpaceKeyAnimationLags); see Findings.
- Targets.TargetSystem.RemoveEntity: runs the corrected removal of the entity's own entry, not the `d = 1` removal of target.go:60; see Findings.
- The combat log's panic after a clear made while typing (`CombatLog.ClearWhileTypingThenPanics`) is recorded as a property and not corrected: `clear` never resets `moved` or `done`, so the intended fix is not evident from the code.
- The Target enum of character.go:28-38 is declared but never read by the modelled code, so it has no operations of its own.

## Findings

| source | as written | input that shows it | evidently intended | confidence | as-written member | corrected member |
|---|---|---|---|---|---|---|
| character.go:51-62 | The search stores the match in `idx`, so `delete` stays -1 and nothing is ever removed | Any list holding an ability with the title | Splice out the first ability with the title | not executed | Characters.RemoveAbilityAsWrittenKeepsMatch | Characters.RemovedSpec |
| target.go:55-74 | A matching character entry sets `d = 1` instead of `d = i` | Entries [chara c, baddie b] and Remove(c) deletes b; a single entry [chara c] panics on `s.entities[2:]` | Remove the character's own entry at index i | not executed | Targets.RemoveFirstCharacterAsWritten | Targets.RemoveSpec |
| item.go:395-433 | The ascending switch falls through from `len > 1` into every later case and reads `Inventory[1..3]` | An inventory of 2 or 3 items panics on opening the menu; a single item shows nothing | Fill row k only when entry k exists | not executed | Menus.ItemOpenPanics | Menus.OpenedSpec |
| ability.go:389-433 | Row k is filled only when `len > k+1` (the `case len > 4` fills row 4, and so on down), and the title only when `len > 1` | A list of 1 to 4 abilities never shows its last entry; one ability shows no title | Fill row k when entry k exists | not executed | Menus.AbilityOpenDropsLastEntry | Menus.OpenedSpec |
| ability.go:354-358 | `unpause` resets neither `curIdx`, `topIdx` nor `setIdx`, while it draws the list from entry 0 | Confirm the third of three abilities, reopen, press A: the third is picked although the first is shown; reopen on one ability and press up: index 1 is read and the frame panics | Reset the indices to 0 when the menu opens | not executed | Menus.StaleCursorPicksHiddenEntry | Menus.OpenedSpec |
| scene.go:1930-1965 | The middle branch of the keyboard callback tests `roll` instead of `rollAgain` | First roll 10 and second roll 8 gives the key; first roll 8 and second roll 12 gives nothing | Test `rollAgain < 10` | not executed | SceneInteractions.KeyboardRolls | SceneInteractions.WindowGivesSpaceKey |
| scene.go:1605-1607 | For the space key `checkKeyCount` runs before `KeyCount++` | Putting in the fourth key (the space key last) shows three keys | Increment first, as for the other keys | not executed | SceneInteractions.SpaceKeyAnimationLags | SceneInteractions.PutKeyShowsCount |
