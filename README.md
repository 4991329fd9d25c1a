# Antares: action queue, action interpreter, data readers and mini-computer text

This project is a Dafny model of five parts of Antares, a C++ remake of the
space-strategy game Ares, with proofs about each.

- **Deferred action queue** (`src/game/action.cpp`). This is a pool of 120 slots.
  - The occupied slots are threaded into a linked list sorted by scheduled time.
  - `reset_action_queue` empties the pool.
  - `queue_action` fills the first free slot and links it into the list.
  - `execute_action_queue` decrements the times of every queued batch and fires the batches that are due. Before replaying a batch it compares the current ids of its objects with the ids captured when the batch was queued.
  - Module `ActionQueue` gives a pure model `QState` (slots, head, and the list as a ghost sequence `order`). It also gives a class `Queue` over an `array<Slot>`, whose methods are proved equal to the pure operations.
- **Action interpreter** (`execute_actions`, `action_filter_applies_to`). Module `Actions` gives the run of a slice of action records as a function `RunFrom`. The class `Engine` holds the world and the queue and carries the imperative loop. Module `Objects` holds the world state (object pool, zero object, key mask, effect log) and the integer-only verbs.
- **Field binding** (`include/data/field.hpp`). This covers the readers `optional_enum`, `required_enum`, `required_object_type`, `required_struct`, `optional_struct`, `required_array` and `optional_array`. They are modelled over a value tree in which a node records the route of keys and indices from the root (modules `Values`, `Readers` and `Fields`). An error is a `Result` carrying the path.
- **Scenario loaders** (`src/data/base-object.cpp` and `src/data/level.cpp`). These are modules `BaseObjects` and `Levels`:
  - the flag-map readers on `bv32`;
  - frame selection;
  - defaults;
  - the condition type switch;
  - the build-list check and its padding;
  - `read_from(ScenarioInfo)`.
- **Mini-computer text** (`src/game/minicomputer.cpp`). Module `MiniComputer` has a class over the array of the twelve screen lines. It covers:
  - `pad_to`;
  - the escape-driven layout of a screen string;
  - moving the selection;
  - key edge detection;
  - the button state;
  - the status lines;
  - the price of the selection;
  - the build bar.

The model treats some parts of the game as parameters and never computes them:

- the random number generator, as an oracle taking a seed and a range;
- readers and tables declared outside these files;
- game functions whose bodies these files do not contain: `GetObjectFromInitialNumber`, `mGetRealAdmiralNum`, `SetObjectDestination`, admiral scores, condition truth, prices and `mLongToFixed`;
- key names, the key bits, the font width and other constants these files do not define.

The model works by these conventions:

- A verb handler whose body is not modelled appends an entry to the world's effect log.
- A condition re-check is logged as `ConditionsChecked`.
- `Fixed` is its raw integer.

## Model

| member | source | states |
|---|---|---|
| Actions.FilterMonotone | src/game/action.cpp:94-108 | with the tag filter off, an object with a superset of accepted attributes is accepted |
| Actions.FilterExtremes | src/game/action.cpp:94-108 | with the tag filter off, an empty inclusive filter accepts everything; with `exclusiveFilter == 0xffffffff` only the level key tag decides, attributes play no part |
| Actions.OwnerRule | src/game/action.cpp:793-797 | the owner test passes exactly for code 0, code -1 with different owners and code 1 with equal owners |
| Actions.ChangeScoreOf | src/game/action.cpp:639-650 | a score change is logged for the focus's owner (player -1 on a real focus) or the real admiral, exactly when that admiral is non-negative, and nothing else changes |
| Actions.ScoreGoesToFocusOwner | src/game/action.cpp:639-650 | player -1 aimed at a pool object credits that object's owner |
| Actions.DispatchChecksNothing | src/game/action.cpp:802-822 | no verb handler itself re-checks the scenario conditions |
| Actions.Execute | src/game/action.cpp:724-730 | a negative record number does nothing; every record run lies in the slice |
| Actions.RunFromNext | src/game/action.cpp:740-834 | a record past the delay gate runs (substituting the zero object, with overrides) or is skipped, and either way delays become allowed for the rest of the slice |
| Actions.RunFromGate | src/game/action.cpp:753-758 | a record with positive delay while delays are allowed queues the rest of the slice with its overridden subject and object and returns at once |
| Actions.RunBounds | src/game/action.cpp:735-823 | the records run extend those run before and lie in the slice, in increasing order |
| Actions.RecordRuns | src/game/action.cpp:781-799 | past the delay gate a record's handler runs exactly when its focus is null or neither the owner test nor the filter rejects it |
| Actions.DeferralShape | src/game/action.cpp:753-758 | a deferred batch starts at a record of the slice with positive delay, covers the rest of the slice, and with delays disallowed is never the first record |
| Actions.DeferralCapture | src/game/action.cpp:753-758 | the queued request carries the subject, direct object and their ids as resolved for that record |
| Actions.DeferralRunsBefore | src/game/action.cpp:735-758 | in a deferred run every record run comes before the queued one |
| Actions.DeferredAfterRun | src/game/action.cpp:724-758 | when execute_actions queues the rest of its slice, every record it ran precedes the queued one |
| Actions.DeferralKeepsChecks | src/game/action.cpp:753-834 | a run that defers does not re-check the conditions |
| Actions.LaterDelayRequeued | src/game/action.cpp:753-759 | in a replay (allowDelay false) the first record is exempt, but a later delayed record queues the rest again |
| Actions.NoActionCutOff | src/game/action.cpp:739-743 | records after the first kNoAction have no influence on the run |
| Actions.NoActionStops | src/game/action.cpp:739-743 | no record at or after the first kNoAction runs or is queued |
| Actions.ChecksOnce | src/game/action.cpp:824-834 | the run logs exactly one re-check when it did not defer and a change-score or display-message record ran, none otherwise |
| Actions.ConditionsCheckedOnce | src/game/action.cpp:724-834 | the same for execute_actions as a whole |
| Actions.ReplayStep | src/game/action.cpp:939-972 | firing the due head keeps the queue well formed and in range, keeps the head in place, and popping it leaves one fewer due batch |
| Actions.ReplayDue | src/game/action.cpp:933-972 | firing due heads ends with a well-formed queue whose head is not due |
| Actions.StaleBatchDropped | src/game/action.cpp:936-954 | a due batch whose current subject or direct id (-1 for null or inactive) differs from the captured one is popped without running |
| Actions.Tick | src/game/action.cpp:925-974 | after execute_action_queue the queue is well formed and nothing in it is due |
| Actions.Engine.ResetActionQueue | src/game/action.cpp:837-860 | the queue model is the reset pool; the world is unchanged |
| Actions.Engine.Defer | src/game/action.cpp:862-923 | queueing a batch is the pure insertion on the queue model |
| Actions.Engine.RunRecord | src/game/action.cpp:760-822 | one record's handler call or skip advances the loop as RunFrom says |
| Actions.Engine.RunSlice | src/game/action.cpp:735-830 | the loop over the slice equals RunFrom: either a deferred request with the world so far, or the finished world and the check flag |
| Actions.Engine.ExecuteActions | src/game/action.cpp:724-835 | the new world is Execute's and the queue gains the deferred batch, if any |
| Actions.Engine.FireHead | src/game/action.cpp:933-972 | one pass fires (or drops) the due head and pops it, keeping what remains to replay and reducing the due count |
| Actions.Engine.ExecuteActionQueue | src/game/action.cpp:925-974 | the new world and queue are Tick of the old ones |
| ActionQueue.ListIsOrder | src/game/action.cpp:61-78 | from the head, following the links visits exactly the listed slots in order and ends at -1: the list is acyclic |
| ActionQueue.QReset | src/game/action.cpp:837-860 | after reset every slot is free and the list is empty |
| ActionQueue.FirstFree | src/game/action.cpp:866-874 | the scan gives the lowest free slot, or 120 when all are occupied |
| ActionQueue.ScanReadsPastEndWhenFull | src/game/action.cpp:868-871 | the scan as written finds the same slot, and reads past the pool exactly when every slot is occupied |
| ActionQueue.InsertPos | src/game/action.cpp:905-909 | the insertion position follows every entry scheduled strictly before the delay and precedes the first at or after it |
| ActionQueue.InsertAt | src/game/action.cpp:910-922 | the list with the new slot at the chosen position, every other entry shifted |
| ActionQueue.InsertPlacement | src/game/action.cpp:862-923 | a full pool is unchanged; otherwise only the first free slot and its predecessor's link change, and the new entry goes before older equal-time entries |
| ActionQueue.InsertValid | src/game/action.cpp:862-923 | insertion keeps the list acyclic, holding exactly the occupied slots, and sorted |
| ActionQueue.DecrementValid | src/game/action.cpp:926-931 | the uniform decrement keeps the queue well formed and sorted and lowers every entry by the same amount |
| ActionQueue.PopValid | src/game/action.cpp:955-971 | popping clears the head slot, makes its successor the head, and keeps the queue well formed |
| ActionQueue.PopDue | src/game/action.cpp:933-971 | popping a due head leaves one fewer due entry |
| ActionQueue.InsertNotDue | src/game/action.cpp:905-922 | queueing a batch with positive delay adds no due entry |
| ActionQueue.InsertBehindDueHead | src/game/action.cpp:905-935 | a batch re-queued with positive delay goes behind a due head, which stays the head |
| ActionQueue.NoneDueBehindHead | src/game/action.cpp:933-935 | when the head of the sorted list is not due, no entry is due |
| ActionQueue.InsertInRange | src/game/action.cpp:862-923 | insertion keeps every slot's slice within the action table |
| ActionQueue.PopInRange | src/game/action.cpp:955-971 | popping keeps every slot's slice within the table |
| ActionQueue.DecrementInRange | src/game/action.cpp:926-931 | the decrement keeps every slot's slice within the table |
| ActionQueue.Queue.constructor | src/game/action.cpp:837-860 | a new queue is the reset pool |
| ActionQueue.Queue.Reset | src/game/action.cpp:837-860 | the new pool is the reset pool |
| ActionQueue.Queue.FreeSlotNumber | src/game/action.cpp:864-874 | the scan loop, testing the bound first, returns FirstFree |
| ActionQueue.Queue.Predecessor | src/game/action.cpp:903-909 | the list walk returns the last entry scheduled before the delay (or -1) at the insertion position |
| ActionQueue.Queue.QueueAction | src/game/action.cpp:862-923 | the new pool is the pure insertion of the request |
| ActionQueue.Queue.Link | src/game/action.cpp:875-922 | the free slot takes the request and is linked after the predecessor or at the head |
| ActionQueue.Queue.Decrement | src/game/action.cpp:926-931 | the loop lowers every occupied slot's time by the units |
| ActionQueue.Queue.PopHead | src/game/action.cpp:955-971 | the head is cleared and unlinked and its successor becomes the head |
| Objects.SetObj | src/game/action.cpp:260-610 | writing through a reference changes only that object |
| Objects.NilTarget | src/game/action.cpp:260-264 | the three target members become kNoShip and nothing else changes |
| Objects.EnableKeysMeaning | src/game/action.cpp:691-693 | enable_keys clears exactly the action's bits of the key mask |
| Objects.DisableKeysMeaning | src/game/action.cpp:695-697 | disable_keys sets exactly the action's bits |
| Objects.EnableUndoesDisable | src/game/action.cpp:691-697 | enabling after disabling the same keys equals enabling them |
| Objects.AlterMaxVelocityOf | src/game/action.cpp:445-451 | a negative minimum restores the base type's maximum velocity, otherwise the minimum is set; nothing else changes |
| Objects.AlterThrustOf | src/game/action.cpp:453-460 | the thrust becomes (or gains) minimum plus one random draw; only the thrust and the seed change |
| Objects.AlterAgeOf | src/game/action.cpp:506-522 | altering the age draws once from the random sequence and changes only the age and the seed |
| Objects.AgeClamp | src/game/action.cpp:506-522 | a relative change never takes a non-negative age below zero, a negative age moves freely, and an absolute change sets the drawn age |
| Objects.InstallWeapon | src/game/action.cpp:552-607 | installing a weapon refills its ammo, restarts it and widens the range bounds; installing none clears base, ammo and time |
| Objects.InstalledRangeEnclosed | src/game/action.cpp:552-607 | after installing, the range bounds enclose the weapon's range and the old bounds |
| Objects.SetDestination | src/game/action.cpp:668-674 | the subject's attributes are the same after set_destination |
| Objects.SetDestinationKeepsEffects | src/game/action.cpp:668-674 | set_destination leaves the effect log and key mask alone |
| Objects.SetDestinationMeaning | src/game/action.cpp:668-674 | the destination is set on the subject with its static-destination bit cleared, and its attributes are then restored |
| Values.ChildrenStayReached | include/data/field.hpp:51-68 | a child made by `get(key)` or `get(index)` records a route that leads from the root back to it |
| Fields.FindName | include/data/field.hpp:138-144 | the scan finds the first table entry with the name, or reports that none has it |
| Fields.OptionalEnum | include/data/field.hpp:132-152 | null is absent; a string gives the value of the first entry with that name; anything else fails at the node's path listing every name |
| Fields.RequiredEnum | include/data/field.hpp:154-170 | exactly the table's names are accepted; null or anything else fails listing the names |
| Fields.EnumNameRoundTrip | include/data/field.hpp:132-170 | reading back any name of a table without repeated names gives its value |
| Fields.RequiredObjectType | include/data/field.hpp:172-178 | a non-map fails with "must be map"; a map is dispatched on its "type" member |
| Fields.FirstUnknown | include/data/field.hpp:254-260 | an input key the table does not know, every key before it in input order being known; none exactly when all keys are known |
| Fields.RequiredStruct | include/data/field.hpp:246-265 | the loop equals StructSpec: non-map fails; every setter runs once in table order, then the first unknown key fails at its path |
| Fields.OptionalStruct | include/data/field.hpp:267-276 | null is absent, a map reads as required_struct, anything else fails |
| Fields.ApplyFieldsAgree | include/data/field.hpp:246-253 | the setters see only the members the table names |
| Fields.StructIgnoresInputOrder | include/data/field.hpp:246-261 | two inputs holding the same known members in any order read to the same struct |
| Fields.UnknownMemberRejected | include/data/field.hpp:254-259 | adding an unknown member to a readable input makes the read fail at that member's path |
| Fields.ReadElements | include/data/field.hpp:281-286 | the element loop equals the element-wise read, stopping at the first error |
| Fields.RequiredArray | include/data/field.hpp:278-290 | required_array reads an array element-wise and fails on anything else |
| Fields.OptionalArray | include/data/field.hpp:292-306 | optional_array maps null to empty, reads an array element-wise and fails on anything else |
| Fields.ElementsFromMeaning | include/data/field.hpp:278-306 | the read succeeds iff every element does; then it has one entry per element, entry i being the element reader on element i; otherwise the error is the first failing element's |
| BaseObjects.RequiredInt32 | src/data/base-object.cpp:25-27 | accepted exactly for integers in [-2^31, 2^31) |
| BaseObjects.OptionalInt32 | src/data/base-object.cpp:29-35 | null or an integer in [-2^31, 2^31) |
| BaseObjects.Wrap32 | src/data/base-object.cpp:178-184 | two's-complement truncation to 32 bits |
| BaseObjects.FlagValues | src/data/base-object.cpp:75-80 | one flag per name of the table |
| BaseObjects.ReadFlags | src/data/base-object.cpp:37-85 | the loop with a shifted one-bit mask equals FlagsSpec |
| BaseObjects.MaskMeaning | src/data/base-object.cpp:75-80 | bit j of the mask is set exactly when flag j is true; no bit past the list is set |
| BaseObjects.FlagValuesMeaning | src/data/base-object.cpp:75-80 | reading succeeds iff every named member is null or boolean; flag j is true iff member j is true (a missing key counts as false) |
| BaseObjects.FlagBitMeaning | src/data/base-object.cpp:37-85 | bit j of a flag map read successfully is set exactly when the member named by entry j is true |
| BaseObjects.FlagBitsMeaning | src/data/base-object.cpp:37-85 | the same for every bit, and no bit beyond the table is set |
| BaseObjects.FlagsSpecFails | src/data/base-object.cpp:37-85 | reading fails exactly when the node is neither null nor a map or a named member is neither null nor boolean; unknown keys are not rejected |
| BaseObjects.OptionalObjectOrderFlags | src/data/base-object.cpp:37-85 | the order-flag reader is FlagsSpec on its name table |
| BaseObjects.OptionalObjectBuildFlags | src/data/base-object.cpp:87-130 | the build-flag reader is FlagsSpec on its name table |
| BaseObjects.OptionalUsage | src/data/base-object.cpp:242-259 | the usage reader is FlagsSpec on its three names |
| BaseObjects.UsageLowBits | src/data/base-object.cpp:246-254 | optional_usage can set only the low three bits |
| BaseObjects.EmptyKeySetsUnnamedOrderBits | src/data/base-object.cpp:41-80 | the unnamed (empty) entries of the order-flag table all read the "" member: a map with only "" set reads as the top four bits |
| BaseObjects.RequiredFixedPoint | src/data/base-object.cpp:132-140 | a non-map fails; a point read has its x and y from members x and y |
| BaseObjects.OptionalFixedPointArray | src/data/base-object.cpp:142-155 | null is empty; an array reads element-wise with required_fixed_point; anything else fails |
| BaseObjects.OptionalWeapon | src/data/base-object.cpp:157-168 | null is absent; a map gives base and positions; anything else fails with "must be null or map" |
| BaseObjects.OptionalLayer | src/data/base-object.cpp:170-176 | null or an integer in [1, 4) |
| BaseObjects.OptionalScale | src/data/base-object.cpp:178-184 | null or a fixed value; a value within range gives the raw value shifted left by four |
| BaseObjects.RequiredVectorFrame | src/data/base-object.cpp:218-240 | a bolt is visible iff a colour is given, with gray beam hue; otherwise visible iff a hue is given, with a clear bolt colour |
| BaseObjects.DeviceTableMeaning | src/data/base-object.cpp:261-273 | the device table reads each member and stores it, with -1 for absent ammo and restock cost |
| BaseObjects.DeviceDefaults | src/data/base-object.cpp:261-273 | a device read successfully has ammo and restock cost -1 and energy cost 0 when absent, its required members present, and no member outside the table |
| BaseObjects.ReadFrame | src/data/base-object.cpp:347-355 | the frame read is the one the attributes select: rotation over animation over vector, else device |
| BaseObjects.ActionList | src/data/base-object.cpp:337-342 | null is empty, an array keeps every element in order, anything else fails |
| BaseObjects.ReadIdentity | src/data/base-object.cpp:299-305 | the identity reads exactly when its flag maps and names do, and holds what they read; an absent portrait is "" |
| BaseObjects.ReadStats | src/data/base-object.cpp:307-326 | an absent occupy count is -1, an absent price 0; a string price fails at its path |
| BaseObjects.ReadLaunch | src/data/base-object.cpp:328-335 | an absent initial age is [-1, -1], an absent initial velocity [0, 0]; the shield colour is present iff given |
| BaseObjects.ReadObjectActions | src/data/base-object.cpp:337-342 | an absent action list is empty; a given list is kept as it is |
| BaseObjects.ReadLifetime | src/data/base-object.cpp:357-360 | absent destroy_dont_die is false, absent activate period [0, 0] |
| BaseObjects.ReadTags | src/data/base-object.cpp:362-364 | absent tags are "", given ones kept |
| BaseObjects.ReadBaseObject | src/data/base-object.cpp:292-367 | a non-map root fails; a read object has the identity and the frame its attributes select, and the documented defaults (occupy count -1, initial age [-1, -1], icon SQUARE/0, empty loadout, price 0, level tag ""); an identity error is the reported one |
| Levels.ReadScenarioInfo | src/data/level.cpp:40-79 | the information is produced iff the file parses, the seven strings are non-empty and the four handles are present integers; it then holds those members |
| Levels.MissingMemberRejected | src/data/level.cpp:47-58 | a file missing any of the four handle members, or with any of them not an integer, or with any of the seven string members empty, is rejected |
| Levels.PlayerSpec | src/data/level.cpp:81-104 | DEMO reads name and race; SOLO type, name and race; NET type only, with net race flags 0; a non-map fails |
| Levels.ReadPlayers | src/data/level.cpp:106-116 | the loop reads the array element-wise with required_player for the level type |
| Levels.InitialMembers | src/data/level.cpp:347-364 | a non-map fails; an initial read has its build list from "build", owner -1 and sprite override -1 when absent |
| Levels.Padded | src/data/level.cpp:372-378 | the build table has exactly the table's length |
| Levels.BuildTableAsWritten | src/data/level.cpp:365-371 | the check as written accepts only lists strictly shorter than the table |
| Levels.BuildTable | src/data/level.cpp:365-378 | a list no longer than the table is kept in front and followed by -1; a longer one fails with its length and the maximum |
| Levels.FullBuildListRejected | src/data/level.cpp:365-371 | a list exactly filling the table is rejected as written, though it fits |
| Levels.PadBuild | src/data/level.cpp:372-378 | the padding loop produces Padded |
| Levels.ReadInitial | src/data/level.cpp:347-381 | the method equals the initial reader with the corrected check |
| Levels.ReadInitials | src/data/level.cpp:383-395 | null is empty; an array reads element-wise with initial; anything else fails |
| Levels.ConditionKindSpec | src/data/level.cpp:256-297 | a type outside the sixteen names fails with "unknown type" |
| Levels.ConditionSpec | src/data/level.cpp:256-307 | a non-map fails; "false" returns before reading op or action; other types require op and an action array; initially_enabled is the negation of initially_disabled, default true |
| Levels.ReadConditions | src/data/level.cpp:309-321 | null is empty; an array reads element-wise with condition; anything else fails |
| Levels.BriefingTableMeaning | src/data/level.cpp:323-331 | the briefing table reads object, title and content in key order |
| Levels.BriefingMeaning | src/data/level.cpp:323-331 | a briefing read has title and content from the input, object none when absent, and no member outside the table |
| Levels.ReadBriefings | src/data/level.cpp:333-345 | null is empty; an array reads element-wise with briefing; anything else fails |
| Levels.SettingsSpec | src/data/level.cpp:132-141 | defaults: star map {0,0}, not training, angle -1, par kills and losses 0; the song is required |
| Levels.TextsSpec | src/data/level.cpp:143-157 | DEMO reads no texts; SOLO leaves foe_no_ships and description empty; NET requires own_no_ships (failing at its path otherwise), foe_no_ships and description and has no prologue or epilogue |
| Levels.LevelSpec | src/data/level.cpp:118-160 | a non-map root fails; a level read has the type, settings, texts and players (read for that type) |
| Levels.ReadLevel | src/data/level.cpp:118-160 | the method equals LevelSpec |
| MiniComputer.PadTo | src/game/minicomputer.cpp:188-196 | a shorter string is centred in exactly `width` runes with (width-size)/2 leading spaces; a longer one is unchanged |
| MiniComputer.CopyBlankLine | src/game/minicomputer.cpp:243-248 | a prefix of at most 25 runes, the whole text when it fits |
| MiniComputer.ClearedAll | src/game/minicomputer.cpp:294-306 | every line gets empty text, no highlight, no button, cannot be selected, no underline, plain kind and no source data; its status strings and value are kept |
| MiniComputer.ClearedAllIdempotent | src/game/minicomputer.cpp:294-306 | clearing lines that are already cleared changes nothing |
| MiniComputer.LayoutFits | src/game/minicomputer.cpp:553-565 | no laid-out line holds more than 25 runes |
| MiniComputer.LayoutFromFits | src/game/minicomputer.cpp:478-566 | after every rune and its wrap every line fits |
| MiniComputer.LayoutSelection | src/game/minicomputer.cpp:495-502 | the selection is the first line marked \S, and there is none exactly when no line is selectable |
| MiniComputer.LayoutFromSelection | src/game/minicomputer.cpp:495-502 | the layout keeps the first selection once made |
| MiniComputer.EscapeRules | src/game/minicomputer.cpp:479-546 | an unknown escaped rune is dropped, `\\` appends one backslash, `\x` moves to the next line |
| MiniComputer.EscapeExample | src/game/minicomputer.cpp:478-551 | a worked layout: the escaped q vanishes and the doubled backslash leaves one |
| MiniComputer.SelectExample | src/game/minicomputer.cpp:482-502 | a worked layout: \x ends the first line, \S selects the second, highlighted across the screen |
| MiniComputer.Wrap | src/game/minicomputer.cpp:553-565 | the overflow loop keeps the escape flag and selection and only moves forward |
| MiniComputer.WrapFitting | src/game/minicomputer.cpp:553 | a line that already fits is not wrapped |
| MiniComputer.Nearest | src/game/minicomputer.cpp:603-609 | the do-while never leaves the ten text lines |
| MiniComputer.NearestMeaning | src/game/minicomputer.cpp:603-609 | when some text line is selectable, the search lands on a selectable line and every line nearer in the direction cannot be selected |
| MiniComputer.MovedMeaning | src/game/minicomputer.cpp:593-613 | from a selected line, when some text line is selectable, the nearest selectable line in the direction is highlighted across the screen, the line left behind loses its highlight, and no other line changes |
| MiniComputer.DistUnique | src/game/minicomputer.cpp:599-609 | distinct text lines lie at distinct step distances from the start |
| MiniComputer.NoPressFires | src/game/minicomputer.cpp:569-591 | a press never runs the action |
| MiniComputer.PressThenRelease | src/game/minicomputer.cpp:569-591 | a press then release fires the action once; a second release and a press never do |
| MiniComputer.KeyChange | src/game/minicomputer.cpp:616-624 | accept and cancel react exactly when their key's bits differ |
| MiniComputer.KeyPress | src/game/minicomputer.cpp:626-632 | up and down react only to a key down now and not fully down before |
| MiniComputer.PassesCounts | src/game/minicomputer.cpp:615-633 | accept runs its action once per accept line that changes state, and only when its key changed; cancel runs only when its key changed; without a new arrow press the selection stays |
| MiniComputer.KeysIdle | src/game/minicomputer.cpp:615-633 | keys unchanged since the last poll change no line, move nothing and run no action |
| MiniComputer.AcceptPress | src/game/minicomputer.cpp:615-633 | pressing accept alone lights every accept button, runs nothing and moves nothing |
| MiniComputer.AcceptRelease | src/game/minicomputer.cpp:615-633 | releasing accept alone darkens every accept button, runs the accept action once per button that was lit, and moves nothing |
| MiniComputer.StatusValue | src/game/minicomputer.cpp:1481-1520 | -1 without status data, 0 for plain text, the condition's truth as 1/0, the score, or negative value minus score for the minus types |
| MiniComputer.MinusComplementsPlain | src/game/minicomputer.cpp:1505-1514 | a minus line shows the negative value less what the plain line shows |
| MiniComputer.MakeStatusString | src/game/minicomputer.cpp:1448-1479 | empty without status data; otherwise the status string, the true/false text or value, then the post-string except for plain text |
| MiniComputer.StatusLine | src/game/minicomputer.cpp:1356-1368 | a leading underscore underlines the line; selectability is untouched |
| MiniComputer.StatusLineMeaning | src/game/minicomputer.cpp:1364-1438 | a '-' string is plain text shown as is; otherwise the value is the status value of the parsed line and the text its status string |
| MiniComputer.UnderscoreUnderlines | src/game/minicomputer.cpp:1359-1362 | a leading underscore underlines and is otherwise ignored |
| MiniComputer.PriceOfCurrentSelection | src/game/minicomputer.cpp:1288-1306 | the price of the selected line's object on the build screen, 0 when another screen is up, nothing is selected, the value or the price is negative |
| MiniComputer.BuildBarValue | src/game/minicomputer.cpp:694-705 | -1 without a build site, 0 when the total time is not positive, otherwise build time times height divided (truncating) by the total |
| MiniComputer.BuildBarBounds | src/game/minicomputer.cpp:694-705 | the bar lies within [0, height], is full at completion and grows with the build time |
| MiniComputer.MiniScreen.constructor | src/game/minicomputer.cpp:260-274 | no selection, main screen, poll time 0, bar -1, cleared lines |
| MiniComputer.MiniScreen.ClearMiniScreenLines | src/game/minicomputer.cpp:294-306 | the loop clears every line |
| MiniComputer.MiniScreen.EscapedRune | src/game/minicomputer.cpp:479-546 | the escape switch equals Escaped |
| MiniComputer.MiniScreen.WrapLines | src/game/minicomputer.cpp:553-565 | the overflow loop equals Wrap |
| MiniComputer.MiniScreen.LayoutRune | src/game/minicomputer.cpp:478-565 | one rune and its wrap equal RuneStep then Wrap |
| MiniComputer.MiniScreen.MakeMiniScreen | src/game/minicomputer.cpp:461-567 | the lines and selection are the layout of the string from cleared lines |
| MiniComputer.MiniScreen.HandleMove | src/game/minicomputer.cpp:593-613 | no selection is a no-op; otherwise the selection moves to the nearest selectable text line in the direction, wrapping in [0,10); the old line's highlight is cleared and the new one highlighted; the new lines and selection equal Moved |
| MiniComputer.MiniScreen.NextSelectable | src/game/minicomputer.cpp:599-609 | the do-while finds the nearest line, wrapping, that is not cannotSelect, and equals Nearest |
| MiniComputer.MiniScreen.HandleAction | src/game/minicomputer.cpp:569-591 | every line with the button lights on a press and goes dark on a release; the action runs once per line that goes dark; the selection stays valid and can still move if it could |
| MiniComputer.MiniScreen.PressLine | src/game/minicomputer.cpp:572-590 | one line of that loop |
| MiniComputer.MiniScreen.HandleKeys | src/game/minicomputer.cpp:615-633 | the lines, selection and action counts equal KeysSpec: the accept pass, the cancel pass, then a move back on a new up press and a move on for a new down press; a changed accept key runs the action once per accept line that changes state; an unchanged key runs nothing; no new arrow press leaves the selection |
| MiniComputer.MiniScreen.PressButtons | src/game/minicomputer.cpp:615-624 | the accept then cancel passes, each a button press or release over all lines when its key changed |
| MiniComputer.MiniScreen.Cancel | src/game/minicomputer.cpp:635-638 | every line showing the in-line or out-line button is released, the in-line button first; the selection stays valid and can still move if it could |
| MiniComputer.MiniScreen.SetStatusStrings | src/game/minicomputer.cpp:1308-1446 | lines 1 to 9 take the status line of their string, or no status past the end of the list or without one; other lines are untouched |
| MiniComputer.MiniScreen.HandleNull | src/game/minicomputer.cpp:640-705 | the poll time accumulates; past the poll period it restarts and the bar is recomputed |

## Left out

- Random numbers, `GetObjectFromInitialNumber`, `mGetRealAdmiralNum`, `SetObjectDestination`, admiral scores, condition truth, base-object prices and `mLongToFixed` are parameters (oracles). Their bodies are not in the modelled files.
- Verbs other than nil_target, alter (max velocity, thrust, age, weapon slots), change_score, enable_keys, disable_keys and set_destination are only logged in the world's effect log. This covers create_object, die, sound, sparks, land_at, enter_warp, declare_winner, display_message, activate_special, colour flash, zoom and computer select. The other `alter` cases are logged the same way: velocity, spin, offline, owner, location, cash, conditions, hidden and cloak. Their physics, fixed-point arithmetic and cross-module calls are outside the model.
- Initial subject and direct-object overrides are resolved by the `objectFromInitial` oracle.
- The effect log stands for side effects.
- `CheckScenarioConditions` is logged as `ConditionsChecked` and has no effect.
- Integer widths are not modelled for queue times, ages, thrust, scores and status values. They are unbounded integers, so a 32-bit overflow in `scheduledTime -= unitsToDo`, `focus->age += l` or `buildTime * kMiniBuildTimeHeight` is not represented. `optional_scale` is the exception: its shift is truncated to 32 bits in BaseObjects.Wrap32.
- ActionQueue.Queue.QueueAction walks the list before filling the free slot, while the source fills the slot first. The walk reads only slots on the list, so the result is the same.
- The queue's raw pointers (`nextActionQueue`, `subjectObject`, `directObject`, `action`) are integer links and references. The `*Num` bookkeeping fields are kept as values, not checked against the pointers.
- MiniComputer.MiniScreen.HandleMove requires that some text line is selectable whenever a line is selected (`CanMove`). Without such a line the source loop never ends.
- MiniComputer.MiniScreen.SetStatusStrings requires every status string to be non-empty, and non-empty after a leading underscore. The source reads rune 0 unchecked.
- The status string fields are parsed by `Parsers` oracles that stand for `partition` and `string_to_int`, whose bodies are not shown.
- Printing of integer and fixed values in status strings goes through `Formats` parameters.
- Drawing, mouse hit-testing, beeps, `Messages`, `Preferences`, `StringList` loading, `mCopyMiniSpaceObject`, `UpdateMiniScreenLines` and the object-data copying in `MiniComputerHandleNull` are presentation or game-wide state outside the model.
- MiniComputer.MiniScreen.MakeMiniScreen takes the screen's string as a parameter.
- Key names are parameters.
- The button highlight geometry uses a font-width parameter.
- The `pn` parser, `path()`/`prefix()` formatting, `Resource::texture` and the `sfz` helpers are not modelled. A path is a list of key and index segments, and an error carries that list and a reason instead of a formatted message.
- Primitive readers whose bodies are not shown (`optional_bool`, `required_int`, `optional_fixed`, strings, ranges, points, colours, handles) are given the simplest behaviour their declarations allow, in module `Readers`.
- Other readers are parameters:
  - in `LevelContext`: level type, player type, race, admiral, initial, condition op, screen, zoom, initial attributes, seconds and their conversion to ticks, and kMaxTypeBaseCanBuild;
  - in `AttributeCatalog`: the attribute name table and the kShapeFromDirection, kIsSelfAnimated and kIsVector bits.
- The enumeration tables for vector kinds, hues, icon shapes and animation directions have their values defined outside the modelled files; they are written out in `BaseObjects`.
- `required_double` in `health_condition` is floating point. The model reads it as a number.
- Fields.RequiredStruct applies the table in the order of the Dafny sequence. The loaders list their tables in key order, which is `std::map` order. Key order is not checked for arbitrary tables.
- `DATA_COVERAGE` instrumentation and the `globals()` singletons are not modelled. State is passed explicitly.
- Ties and stale batches follow the code:
  - a new entry goes before older entries with the same time (ActionQueue.InsertPlacement);
  - a batch whose captured ids no longer match is dropped without running (Actions.StaleBatchDropped).
- ReadInitial (Levels.ReadInitial): uses the corrected build-list check (Levels.BuildTable), so a build list of exactly kMaxTypeBaseCanBuild entries is read where src/data/level.cpp:366 rejects it; the as-written check is Levels.FullBuildListRejected under Findings.
- InitialSpec (Levels.InitialSpec): the same corrected build-list check as ReadInitial.
- ReadInitials (Levels.ReadInitials): reads each initial with the corrected build-list check, as ReadInitial does.
- LevelSpec (Levels.LevelSpec): reads the level's initials with the corrected build-list check, as ReadInitial does.
- ReadLevel (Levels.ReadLevel): equals LevelSpec, so it uses the corrected build-list check too.
- ActionList (BaseObjects.ActionList): keeps each action node as it is. Decoding the actions of `optional_action_array`/`required_action_array` (src/data/base-object.cpp:337-342, src/data/level.cpp:304) and its errors are not modelled.
- MiniComputer.MiniScreen.HandleAction and MiniComputer.MiniScreen.HandleKeys count how often the accept and cancel callbacks run. The callbacks themselves (`MiniComputerDoAccept`, which runs `MiniComputerExecute`, at src/game/minicomputer.cpp:1016-1021, and `MiniComputerDoCancel`, which remakes the screen, at src/game/minicomputer.cpp:1182-1198) rebuild the screen inside the loop; that effect on the lines and the selection is not modelled.
- MiniComputer.MiniScreen.HandleKeys requires `CanMove` only when up or down is newly pressed, because only then does it call minicomputer_handle_move.

## Findings

| source | as written | input that shows it | evidently intended | confidence | as-written member | corrected member |
|---|---|---|---|---|---|---|
| src/game/action.cpp:868 | the free-slot scan tests `actionQueue->action` before `queueNumber < kActionQueueLength` | all 120 slots occupied: the scan reads slot 120, one past the pool | test the bound before reading the slot | not executed | ActionQueue.ScanReadsPastEndWhenFull | ActionQueue.Queue.FreeSlotNumber |
| src/data/level.cpp:366 | `build.size() >= kMaxTypeBaseCanBuild` is rejected, with the message "more than max" | a build list of exactly kMaxTypeBaseCanBuild entries, which fits the table | reject only lists longer than the table | not executed | Levels.FullBuildListRejected | Levels.BuildTable |
