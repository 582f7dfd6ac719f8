# eFloStop hub: verified models

The eFloStop hub shares one 2.4 GHz radio between BLE scanning (its leak sensors and its valve) and
Wi-Fi (the router and the setup SoftAP). This project models the parts of its firmware and tools
whose correctness rests on whole runs, and proves what their comments and documents promise.

- **The BLE scan executor** (`Ticks`, `RadioTable`, `ExecutorSpec`, `ExecutorMoves`, `Executor`,
  `ClaimSafety`, `RadioHistory`, `ExecutorPace`, `ExecutorDuties`, `ExecutorPulses`, `ExecutorSlots`,
  `ExecutorTimes`, `BudgetWrap`, `CodedGap`). `Executor` is the executor as a class, method by method.
  Each method computes the transition function of the same name in `ExecutorSpec`, and the theorems are
  about runs of those functions: a valve claim's connect never races a scan, under every interleaving of
  passes, controller events and the NimBLE host; one use of the radio at a time; the settle time after a
  cancel; the blind budget; the recovery after a pulse; the Coded-gap bound; and what a pass must do: a
  recovery owed is started at once or within 2 s, what is due starts, slots run in turn, pulses go out in
  their order and end when they must. Stamps are true tick counts, and every comparison is made modulo
  2^32 as the firmware makes it.
- **The sensor tables** (`SensorTables`, `SensorPhy`, `LeakEvents`, `LeakStale`). The whitelist and the tracking
  slots as arrays changed in place, the packed PHY byte and its meaning, and one advert's way to the
  event queue interleaved with reloads, resets and drains.
- **Wi-Fi** (`RouterRetry`, `ApTail`, `ApClients`). The router retry's three capped deferrals, the
  SoftAP's tail, the portal client table.
- **The capture checker** (`JsonScan`, `ReleaseOrder`). The JSON object scan over log text, and the
  release-order monitor against a property of the trace.
- **Smaller cores** (`LoraReplay`, `Schema`, `SchemaEdits`, `LegacyCmd`). Replay protection and nonces, the
  schema generator and its edits, the command parser.

`dafny verify dfyconfig.toml` checks everything.

Where the code and its own documents differ, the code is modelled:

- The blind budget is meant to be 0 once 2.8 s have passed since the last Coded window. The code
  multiplies ticks by 10 in 32 bits, so 49.7 days later it wraps (`ExecutorTimes.BudgetRight` says
  exactly when it is right; `BudgetWrap.BudgetWrong` is a run from boot in which nothing is wanted for
  that long and a pass then grants a pulse).
- The LoRa header promises that a counter at or below the last one seen is rejected. The code accepts
  it exactly when the sensor has no slot (the table is full of others) or came with another boot value
  than the last accepted packet (`LoraReplay.LowCounterAccepted`); `LoraReplay.ReplayAccepted` says
  exactly when a whole packet is accepted twice, and `LoraReplay.ReplayAfterReboot` and
  `LoraReplay.ReplayWhenFull` are runs in which it is.
- The comment in the legacy parser says malformed envelopes are rejected. They are only kept out of
  provisioning: a keyword inside one decides (`LegacyCmd.TruncatedEnvelopeActs`,
  `LegacyCmd.RefusedWhen`).
- The health check-in is commented as never losing the wet/dry edge. Its last value differs from the
  last advert's exactly when it was itself an edge whose event met a full queue and the last advert
  posted none, which then came within 5 s of it (`LeakEvents.NoEdgeLost`); `LeakStale` gives such a run
  from boot.
- The PHY comment says learned PHYs are carried by MAC. A MAC listed twice loses what was learned
  (`SensorPhy.CarryKeeps`, `SensorPhy.CarryLosesRepeated`). Provisioning ignores a repeated MAC in any
  letter case (main/provisioning_manager/provisioning_manager.c:553-565 and 1428-1434), so such a list
  comes only from NVS written by an older release, which the load (190-208) takes as it is.

## Model

| member | source | states |
|---|---|---|
| Ticks.Since | main/ble_leak_scanner/app_ble_leak.c:1446-1447 | the unsigned 32-bit difference of two stamps is the true one while they are less than 2^32 ticks apart |
| Ticks.Signed | main/ble_leak_scanner/app_ble_leak.c:1454-1455 | the signed difference is the true one while the stamps are less than 2^31 ticks apart |
| Ticks.Ms | main/ble_leak_scanner/app_ble_leak.c:955-958 | ticks to milliseconds is exact until 2^32 ms |
| Ticks.Stamp | main/ble_leak_scanner/app_ble_leak.c:1438-1439 | a stamp is never read as "none", and differs from now only when now would be |
| RadioTable.RowOf | main/radio_policy/radio_policy.h:144-160 | every row has one to four slots, no longer than 1.2 s, and its Coded window where `coded` says |
| CodedGap.RowFacts | main/radio_policy/radio_policy.c:63-110 | in every row that holds I1, only the window at `coded` is Coded, and every other slot ends inside the row's own gap with at most one scan before it |
| Executor.Executor.constructor | main/ble_leak_scanner/app_ble_leak.c:1697-1735 | the executor at boot |
| Executor.Executor.ScanStop | main/ble_leak_scanner/app_ble_leak.c:1097-1120 | a stop counts a Coded scan only once it covered an advert interval, forgets the row and the own end, and holds starts off for the settle time; a refused cancel changes nothing |
| Executor.Executor.ScanEnded | main/ble_leak_scanner/app_ble_leak.c:1129-1164 | an end is the scan's own only if it is neither lost, early nor a reset; only then does it allow a claim, count a Coded window and clear the recovery |
| Executor.Executor.RowBegin | main/ble_leak_scanner/app_ble_leak.c:1258-1279 | a row begins at its Coded window, or right after it, with the lead Wi-Fi slot where I8 and I1 say |
| Executor.Executor.SlotStart | main/ble_leak_scanner/app_ble_leak.c:1281-1330 | a slot's start: Wi-Fi timed from the last slot's end, or a scan attempt under a new generation |
| Executor.Executor.OpenWifi | main/ble_leak_scanner/app_ble_leak.c:1289-1295 | a Wi-Fi slot is timed from the end of the slot before it |
| Executor.Executor.ScanStart | main/ble_leak_scanner/app_ble_leak.c:1296-1330 | an attempt's three outcomes: running, already running and cancelled, failed |
| Executor.Executor.PickSlot | main/ble_leak_scanner/app_ble_leak.c:1334-1353 | the slot in turn, the next period's row, or the wanted row afresh |
| Executor.Executor.ExecNextSlot | main/ble_leak_scanner/app_ble_leak.c:1334-1356 | the slot picked, then started |
| Executor.Executor.ExecClaim | main/ble_leak_scanner/app_ble_leak.c:1361-1382 | a claim begins exactly at a boundary, after a scan's own end, with a length and its connect in flight |
| Executor.Executor.ExecWifiPulse | main/ble_leak_scanner/app_ble_leak.c:1385-1411 | a Wi-Fi pulse stops the scan and begins unless the cancel was refused |
| Executor.Executor.EndSlots | main/ble_leak_scanner/app_ble_leak.c:1434-1460 | a scan gone for 1 s, one overdue by 1 s, and a Wi-Fi slot whose time is up end |
| Executor.Executor.EndPulse | main/ble_leak_scanner/app_ble_leak.c:1474-1513 | a pulse's end, with the recovery it owes and the claim overrun asked once |
| Executor.Executor.GrantPulses | main/ble_leak_scanner/app_ble_leak.c:1523-1539 | grants between pulses and after recovery, a leak response's claim first |
| Executor.Executor.StopForPulse | main/ble_leak_scanner/app_ble_leak.c:1541-1568 | a pulse or a lost sync stops the scan; with nothing to scan the start gate follows the clock |
| Executor.Executor.StartNext | main/ble_leak_scanner/app_ble_leak.c:1544-1573 | the row that runs now, and the next slot started when due |
| Executor.Executor.ExecutorPass | main/ble_leak_scanner/app_ble_leak.c:1416-1618 | a whole pass: the state it leaves and how long it sleeps |
| Executor.Executor.NextEdge | main/ble_leak_scanner/app_ble_leak.c:1577-1604 | the edge a pass sleeps towards, if any |
| Executor.Executor.SleepFor | main/ble_leak_scanner/app_ble_leak.c:1581-1617 | the sleep, between one tick and EXEC_POLL_MS |
| ExecutorMoves.StopKeepsBudget | main/ble_leak_scanner/app_ble_leak.c:1206-1223 | the budget a pulse was sized by before its stop is the budget left of what the stop records |
| ExecutorMoves.BeforeMoves | main/ble_leak_scanner/app_ble_leak.c:1434-1563 | whatever a pass reads, what it does before its start is a sequence of ten guarded moves, none of them a scan's own end |
| ExecutorMoves.ActIs | main/ble_leak_scanner/app_ble_leak.c:1434-1573 | a pass is those moves, then at most one start |
| ClaimSafety.ClaimIsSafe | main/ble_leak_scanner/app_ble_leak.c:886-898 | main result: in every run of passes and controller events, when a pass starts a claim's connect the controller scans nothing and no scan's end is still to be processed |
| ClaimSafety.ClaimsHappen | main/ble_leak_scanner/app_ble_leak.c:886-891 | and such runs exist: a scan runs to its own end and the next pass starts the claim |
| ClaimSafety.RunInv | main/ble_leak_scanner/app_ble_leak.c:886-898 | the invariant behind it: generations, stored ends and the own-end mark agree with the controller in every reachable world |
| ClaimSafety.TakeKeeps | main/ble_leak_scanner/app_ble_leak.c:1423-1432 | taking a stored end keeps the invariant: an end taken as the scan's own is |
| ClaimSafety.DeliverKeeps | main/ble_leak_scanner/app_ble_leak.c:895-898 | so does processing a queued end: a stopped scan's late end is read as early |
| ClaimSafety.RestKeeps | main/ble_leak_scanner/app_ble_leak.c:1434-1573 | so does the rest of a pass, and a claim in it finds the radio quiet |
| ClaimSafety.EndInTime | main/ble_leak_scanner/app_ble_leak.c:1129-1143 | an end more than SCAN_EARLY_MS before the scan's duration is read as a stopped scan's |
| ClaimSafety.SameByte | main/ble_leak_scanner/app_ble_leak.c:1296-1304 | an 8-bit generation names one attempt among the last 256 |
| RadioHistory.RadioIsExclusive | main/ble_leak_scanner/app_ble_leak.c:849-858 | main result: after every pass at most one of a running scan, an open Wi-Fi slot and a pulse, and no Wi-Fi pulse past its deadline (I3) |
| RadioHistory.StartsSettle | main/ble_leak_scanner/app_ble_leak.c:892-894 | main result: in every run no scan start is attempted within SCAN_SETTLE_MS of any cancel before it |
| RadioHistory.PulsesFitBlindBudget | main/ble_leak_scanner/app_ble_leak.c:872-881 | main result (I2): every granted pulse's deadline lies within 2.8 s of the end of the last Coded window that counted |
| RadioHistory.RecoverySeparates | main/ble_leak_scanner/app_ble_leak.c:851-853 | main result: between a pulse whose blind span exceeded the resumed row's gap and the next pulse, a RECOVERY Coded scan ran to its own end, whatever failed in between |
| RadioHistory.RunKeeps | main/ble_leak_scanner/app_ble_leak.c:1416-1618 | every run keeps the link between the executor's fields and the history of what it did: the last Coded window that counted, the settle time, and a recovery owed exactly when the history owes one |
| RadioHistory.PassKeeps | main/ble_leak_scanner/app_ble_leak.c:1416-1618 | so does each pass |
| RadioHistory.SettleEnds | main/ble_leak_scanner/app_ble_leak.c:1446-1513 | after the ends of a pass, no scan is overdue and no Wi-Fi pulse is past its deadline |
| RadioHistory.LongIsOwed | main/ble_leak_scanner/app_ble_leak.c:1490-1502 | the 32-bit test owes a recovery exactly when the blind span is longer than the resumed row's gap |
| RadioHistory.GrantInBudget | main/ble_leak_scanner/app_ble_leak.c:1206-1223 | a length within the computed budget ends within 2.8 s of the recorded Coded window |
| RadioHistory.OwingUntilRecovery | main/ble_leak_scanner/app_ble_leak.c:851-853 | a recovery stays owed until a RECOVERY Coded scan's own end |
| ExecutorDuties.StartsWanted | main/ble_leak_scanner/app_ble_leak.c:1541-1551 | main result: in every run a start comes only synced and with no pulse left, is of RECOVERY's Coded scan while a recovery is owed, and else of the mode's row or, at that row's end, the policy's next |
| ExecutorDuties.RecoveryComes | main/ble_leak_scanner/app_ble_leak.c:849-853 | main result: in every run, once a recovery is owed with the radio at rest, the first synced pass at or after the start gate starts a RECOVERY Coded scan, and the gate is never more than 2 s away |
| ExecutorDuties.DueStarts | main/ble_leak_scanner/app_ble_leak.c:1569-1573 | in every run a synced pass with the gate open, nothing running after its ends and no pulse left starts the recovery if it is owed, and else a scan or a Wi-Fi slot if a row is wanted |
| ExecutorDuties.OwnEndTaken | main/ble_leak_scanner/app_ble_leak.c:1423-1432 | in every run a stored end is the running scan's own exactly when it has its generation, no reason, and comes no more than SCAN_EARLY_MS before its time |
| ExecutorDuties.OwnEndGivesWay | main/ble_leak_scanner/app_ble_leak.c:1160-1163 | and after it and its dither what is wanted next starts at once |
| ExecutorDuties.NothingBefore | main/ble_leak_scanner/app_ble_leak.c:1541-1573 | in every run, once the start gate stands at a tick with no scan running, no scan starts before it |
| ExecutorDuties.EndsWait | main/ble_leak_scanner/app_ble_leak.c:895-898 | so nothing starts before the time of a scan reset by a stopped scan's late end, nor before a dithered row's dither is over |
| ExecutorPulses.PulseEndsWhen | main/ble_leak_scanner/app_ble_leak.c:1474-1513 | main result: in every run a pulse ends exactly when its connect is gone, or at its deadline or its requester's end; a recovery is then owed exactly when one was or BLE was blind longer than the resumed row's gap; until then it goes on, and a claim's overrun is asked exactly CLAIM_OVERRUN_MS past its deadline |
| ExecutorPulses.GrantsInOrder | main/ble_leak_scanner/app_ble_leak.c:1515-1539 | main result: in every run, which pulse a pass begins: none between pulses' ends and their recovery, the claim before the others while a leak response is pending and after them otherwise, a Wi-Fi pulse with the running scan stopped for it |
| ExecutorPulses.NothingWanted | main/ble_leak_scanner/app_ble_leak.c:1553-1568 | in every run a pass with nothing to scan keeps no row unless a scan runs, and its start gate is not behind the clock |
| ExecutorPulses.StopsWhen | main/ble_leak_scanner/app_ble_leak.c:1541-1549 | in every run a scan runs on without NimBLE's sync only if its cancel was refused |
| ExecutorSlots.RunInRow | main/ble_leak_scanner/app_ble_leak.c:1281-1295 | in every run the slot that runs or ran last is its row's own, or the lead, with its kind and length, and a Wi-Fi slot ends its length after its start |
| ExecutorSlots.ScanRunsOn | main/ble_leak_scanner/app_ble_leak.c:1541-1549 | in every run a scan in its time, neither missing nor overdue, is left alone unless sync is lost or a pulse begins |
| ExecutorSlots.WifiRunsOn | main/ble_leak_scanner/app_ble_leak.c:1456-1462 | and so is a Wi-Fi slot before its end |
| ExecutorSlots.WifiGivesWay | main/ble_leak_scanner/app_ble_leak.c:1456-1462 | in every run the next slot starts in the first synced pass at or after a Wi-Fi slot's end |
| ExecutorSlots.LostScanEnds | main/ble_leak_scanner/app_ble_leak.c:1433-1447 | in every run a scan NimBLE no longer runs, on every pass for SCAN_GONE_MS and a tick, is given up |
| ExecutorSlots.OverdueScanEnds | main/ble_leak_scanner/app_ble_leak.c:1448-1455 | and at once one with no end SCAN_OVERDUE_MS past its time |
| ExecutorSlots.OverdueCancelled | main/ble_leak_scanner/app_ble_leak.c:1448-1455 | which is cancelled when no end is stored for it |
| ExecutorSlots.OddEnds | main/ble_leak_scanner/app_ble_leak.c:1138-1152 | in every run, however a scan ends but by its own end, its row starts again at its Coded window, no claim follows, and the gate opens after the settle time or the time of the scan reset early |
| ExecutorSlots.NoRunFromM | main/ble_leak_scanner/app_ble_leak.c:863-866 | main result (I8): in every run no scan of a row that holds I8 starts right after a 1M slot while the Coded gap leaves room for Wi-Fi between |
| ExecutorSlots.StartsNext | main/ble_leak_scanner/app_ble_leak.c:1334-1356 | main result: in every run each start is of the scan that is next: the row's slots in turn, the policy's next row at its period's end, a row's first slot when another ran or it was broken off |
| ExecutorSlots.SlotsInTurn | main/ble_leak_scanner/app_ble_leak.c:1258-1279 | main result: and the row, slot and slots left after it, with a lead Wi-Fi slot exactly when a 1M slot ended last, the row holds I8 and I1 leaves room |
| ExecutorTimes.CoveringTicks | main/ble_leak_scanner/app_ble_leak.c:926-930 | L_TICKS is exactly the least stamp difference that guarantees RP_L_MS of scanning, for every real start and stop instant |
| ExecutorTimes.BudgetRight | main/ble_leak_scanner/app_ble_leak.c:1206-1223 | the 32-bit budget is the true one if and only if the time since the last window does not wrap into less than 2.8 s |
| BudgetWrap.BudgetWrong | main/ble_leak_scanner/app_ble_leak.c:1206-1223 | and it does: a run from boot in which a pass grants a 2 s pulse on a budget read as 2796 ms with nothing left of the true one, so that its deadline is not within RP_BLIND_MAX_MS of the last Coded window |
| BudgetWrap.Wait | main/ble_leak_scanner/app_ble_leak.c:1544-1617 | with nothing wanted the executor polls on for 49.7 days and keeps the last Coded window's end |
| ExecutorTimes.SleepsToEdge | main/ble_leak_scanner/app_ble_leak.c:1577-1617 | in any state whose stamps are near, a pass sleeps at most one tick past a slot's edge, a pulse's deadline (a claim's plus CLAIM_OVERRUN_MS), a join's end, the next start, or the moment a young Coded scan covers an advert interval, whichever it waits for |
| ExecutorTimes.RunSleeps | main/ble_leak_scanner/app_ble_leak.c:1577-1617 | after every pass of every run the sleep ends by a Wi-Fi pulse's deadline, and at most one tick past a Wi-Fi slot's end, a claim's deadline plus CLAIM_OVERRUN_MS, the next start and a young Coded scan's covering |
| ExecutorTimes.RunNear | main/ble_leak_scanner/app_ble_leak.c:1446-1460 | in every run the stamps a pass compares with the clock are near enough for the signed 32-bit test |
| ExecutorPace.RunPaced | main/ble_leak_scanner/app_ble_leak.c:1416-1618 | the invariant behind it: those stamps never fall behind the last Coded window's end, and with none counted the start gate follows the clock |
| CodedGap.CodedGapHolds | main/ble_leak_scanner/app_ble_leak.c:859-869 | main result (I1): in every undisturbed run, whatever rows are wanted and wherever they switch, a Coded scan starts within the running row's own gap of the last Coded window's end (or what a lead Wi-Fi slot may take), plus one lateness (start and end stamp) for the scan in between, if the row has one, and its own start's; late ends and late starts of any size are counted, and so is an edge on a tick whose 32 bits read as "none", after which a Wi-Fi slot is timed from now |
| CodedGap.CodedGapWithinMax | main/radio_policy/radio_policy.h:44-44 | with a start's and an end's lateness together within one dither (or twice the start's plus the end's within two), no Coded gap exceeds RP_GAP_MAX_MS, but for one start's lateness more in a gap that holds a tick whose 32 bits are zero |
| CodedGap.QuietRun | main/ble_leak_scanner/app_ble_leak.c:859-869 | every slot of such a run ends no later than its place in the gap and the lateness of its scans allow, on every tick the clock reads |
| CodedGap.QuietKeeps | main/ble_leak_scanner/app_ble_leak.c:1334-1356 | each pass keeps that, late passes included |
| CodedGap.BeginPicks | main/ble_leak_scanner/app_ble_leak.c:1258-1279 | a row switch keeps the gap: at the Coded window, after it, or through a lead Wi-Fi slot that fits |
| CodedGap.QuietPassIs | main/ble_leak_scanner/app_ble_leak.c:1416-1573 | an undisturbed pass ends the slot that is over and starts the next one due, nothing else |
| SensorTables.Scanner.WhitelistFind | main/ble_leak_scanner/app_ble_leak.c:239-247 | the first list index of a MAC, -1 for none |
| SensorTables.Scanner.SensorFind | main/ble_leak_scanner/app_ble_leak.c:250-260 | the first slot in use that holds a MAC, -1 for none |
| SensorTables.Scanner.SensorAlloc | main/ble_leak_scanner/app_ble_leak.c:263-275 | the first free slot is cleared for the MAC, all others are as they were |
| SensorTables.Scanner.Lookup | main/ble_leak_scanner/app_ble_leak.c:677-707 | a listed MAC always gets a slot, its own or the first free one cleared, and slots stay distinct and listed |
| SensorTables.Scanner.SwapList | main/ble_leak_scanner/app_ble_leak.c:531-546 | the list is swapped and exactly the slots off it are cleared |
| SensorTables.AlwaysRoom | main/ble_leak_scanner/app_ble_leak.c:677-706 | main result: by pigeonhole a listed MAC with no slot finds a free one, even if the list repeats a MAC |
| SensorTables.SwapKeepsSlots | main/ble_leak_scanner/app_ble_leak.c:531-546 | a reload keeps slots distinct and listed, and a listed sensor's slot untouched |
| SensorPhy.LearnRefines | main/ble_leak_scanner/app_ble_leak.c:680-695 | the packed byte follows (known PHY, adverts in a row on the other PHY) |
| SensorPhy.LearnAllRefines | main/ble_leak_scanner/app_ble_leak.c:132-152 | main result: over every sequence of adverts |
| SensorPhy.ChangesOnFourth | main/ble_leak_scanner/app_ble_leak.c:136-140 | a known PHY changes exactly at the fourth advert in a row on the other PHY |
| SensorPhy.FlipsAreRare | main/ble_leak_scanner/app_ble_leak.c:136-140 | changes number at most a quarter of the adverts |
| SensorPhy.OtherPhysTeachNothing | main/ble_leak_scanner/app_ble_leak.c:668-672 | adverts on any other PHY can be left out |
| SensorPhy.PhyCarry | main/ble_leak_scanner/app_ble_leak.c:375-401 | the new table entry by entry, whether a known PHY left, whether a sensor came |
| SensorPhy.CarryKeeps | main/ble_leak_scanner/app_ble_leak.c:371-374 | a surviving sensor keeps its byte if and only if the old list's last entry for it holds the same one; always when nothing repeats |
| SensorPhy.CarryLosesRepeated | main/ble_leak_scanner/app_ble_leak.c:388-391 | an instance that loses it |
| SensorPhy.PhySave | main/ble_leak_scanner/app_ble_leak.c:451-459 | the records saved are the known PHYs, in list order |
| SensorPhy.PhyLoad | main/ble_leak_scanner/app_ble_leak.c:426-437 | each listed sensor gets its last usable record; a record of no listed sensor or of no PHY marks the table |
| SensorPhy.SaveLoad | main/ble_leak_scanner/app_ble_leak.c:403-459 | main result: save then load, into any list, keeps every known PHY and invents none |
| LeakEvents.NoEdgeLost | main/ble_leak_scanner/app_ble_leak.c:655-835 | main result: under every interleaving a slot that has reported holds exactly the last event enqueued for its MAC; after a listed advert the last event matches it or its own send met a full queue; the last check-in differs from the last advert's wet bit if and only if it was an edge whose own event met a full queue and that advert posted none, and then that advert came within 5 s of it (or, after a tracking reset, of a tick count that reads 0) |
| LeakEvents.EqualEventsSpaced | main/ble_leak_scanner/app_ble_leak.c:775-782 | main result: equal events of a sensor with no prune or reset between are at least BLE_LEAK_HEARTBEAT_MS apart |
| LeakEvents.HeartbeatSent | main/ble_leak_scanner/app_ble_leak.c:778-834 | main result: in every run an advert whose data differs from its sensor's last event, or comes BLE_LEAK_HEARTBEAT_MS or more after it, is enqueued unless the queue is full |
| LeakEvents.CheckinComes | main/ble_leak_scanner/app_ble_leak.c:762-776 | main result: in every run an advert HEALTH_CHECKIN_MIN_MS or more after its sensor's last check-in posts one |
| LeakStale.StaleAfterFullQueue | main/ble_leak_scanner/app_ble_leak.c:752-773 | a run from boot that ends with the check-in wet and the last advert dry |
| LeakStale.Fill | main/ble_leak_scanner/app_ble_leak.c:813-817 | a run from boot in which the queue fills |
| LeakEvents.WetKeepsSend | main/ble_leak_scanner/app_ble_leak.c:799-817 | a send keeps the check-in's relation to the slot, a full queue turning an edge into a lost one |
| LeakEvents.WetKeepsCheckin | main/ble_leak_scanner/app_ble_leak.c:762-773 | so does a check-in: one not posted repeats the slot's bit within 5 s |
| LeakEvents.StepTold | main/ble_leak_scanner/app_ble_leak.c:655-835 | every step of the three threads keeps what NoEdgeLost says |
| LeakEvents.ReloadKeeps | main/ble_leak_scanner/app_ble_leak.c:531-546 | a reload between any two steps of an advert keeps it |
| LeakEvents.ResetKeeps | main/ble_leak_scanner/app_ble_leak.c:1825-1836 | so does a tracking reset |
| LeakEvents.CommitKeeps | main/ble_leak_scanner/app_ble_leak.c:819-833 | so does a commit, which reaches the slot only while it is still the sensor's |
| LeakEvents.LookupFinds | main/ble_leak_scanner/app_ble_leak.c:696-705 | the lookup leaves one slot for the MAC, its own or a cleared one |
| RouterRetry.RetryTask.RetryJoinWait | main/app_wifi/app_wifi.c:919-926 | a join deferral is stamped once and holds for its cap |
| RouterRetry.RetryTask.RouterRetry | main/app_wifi/app_wifi.c:931-999 | a pass: its state, and how far it came |
| RouterRetry.OrderedInTime | main/app_wifi/app_wifi.c:915-999 | main result: while the STA stays down with no attempt after the mark, a run that goes on past mark + page cap + join cap + two grant waits + two pass periods has a pass that reached the order by then, whatever the page and the stations do |
| RouterRetry.NeverTooSoon | main/app_wifi/app_wifi.c:952-954 | no order within ROUTER_RETRY_MS of the mark, nor with an attempt in flight |
| RouterRetry.AsksWhen | main/app_wifi/app_wifi.c:931-980 | main result: a pass asks for its pulse if and only if the STA is down with no attempt, an attempt is known and ROUTER_RETRY_MS and its jitter past, the page is free or ROUTER_RETRY_PAGE_MAX_MS past it, and no station joins or its deferral is ROUTER_RETRY_JOIN_MAX_MS old |
| RouterRetry.OrderedWhen | main/app_wifi/app_wifi.c:960-999 | main result: and orders if and only if the same holds after the wait with no new attempt; the order is sent exactly when the queue takes it |
| RouterRetry.PassKeeps | main/app_wifi/app_wifi.c:948-967 | what a pass keeps: the mark with the jitter drawn for it, the first deferral stamped for it, and the count of retries |
| RouterRetry.OnePerMark | main/app_wifi/app_wifi.c:948-967 | in every run a mark keeps one jitter and at most one deferral, whatever the page, stations and STA do |
| RouterRetry.PassWaits | main/app_wifi/app_wifi.c:931-999 | a pass reaches the order in time or leaves a deferral that will run out |
| RouterRetry.StillReady | main/app_wifi/app_wifi.c:931-999 | so does every run of passes that reached none |
| ApTail.TailTask.Maintain | main/app_wifi/app_wifi.c:1006-1081 | a pass of the tail |
| ApTail.TailTask.NextStop | main/app_wifi/app_wifi.c:1045-1068 | the stop by the cap, the Finish and the stations |
| ApTail.RecordedStop | main/app_wifi/app_wifi.c:1006-1081 | main result: after a pass with a count whose timer command is taken, the recorded stop is the rules' for this Finish and the first pass that counted no station since one was last seen, or with no left rule when a station is on it |
| ApTail.StopIsLatest | main/app_wifi/app_wifi.c:1040-1070 | main result: the recorded stop is the latest that is within the cap, no later than a Finish's stop, and with no station left no later than 10 s after that, or for a Connect than the later of 15 s after that and 15 s |
| ApTail.StopStays | main/app_wifi/app_wifi.c:1034-1041 | until a pass has a count and its command taken the stop stays as the IP's callback left it |
| ApTail.DownForgets | main/app_wifi/app_wifi.c:1015-1019 | a pass with the STA or the SoftAP down ends the tail: what is counted after it is counted afresh |
| ApTail.EmptySinceIs | main/app_wifi/app_wifi.c:1056-1061 | the time kept is that of the first such pass, 0 exactly when there is none |
| ApTail.ConnectStop | main/app_wifi/app_wifi.c:230-243 | without a Finish a Connect's stop lies in 15 to 60 s |
| ApTail.FinishHolds | main/app_wifi/app_wifi.c:301-327 | after a Finish every pass leaves the sooner of the Finish's stop (2 s after the tap, 5 s after the IP) and what the tail's own rules gave at one of its passes |
| ApTail.OneBackstop | main/app_wifi/app_wifi.c:1016-1029 | over every run the IPs whose backstop order was taken are distinct |
| ApTail.BackstopComes | main/app_wifi/app_wifi.c:1022-1034 | main result: whatever came before, a pass 75 s past an IP with the SoftAP still up and its order taken leaves that IP's order in the history |
| ApTail.BackstopNotBefore | main/app_wifi/app_wifi.c:1016-1029 | none before 75 s, and only for the IP being followed |
| ApClients.ClientTable.Reset | main/app_wifi/app_wifi.c:593-598 | an AP start empties the table |
| ApClients.ClientTable.Find | main/app_wifi/app_wifi.c:569-584 | a station's entry, else a free one, else one with no joined station |
| ApClients.ClientTable.ByMac | main/app_wifi/app_wifi.c:569-590 | a claim clears only that entry, never a joined station's |
| ApClients.ClientTable.ClientJoined | main/app_wifi/app_wifi.c:600-612 | a join fails exactly when every entry holds another joined station; else one entry becomes its, with its marks started again; uniqueness is kept |
| ApClients.ClientTable.ClientLeft | main/app_wifi/app_wifi.c:614-621 | exactly the station's entry is marked left |
| ApClients.ClientTable.TakeAddress | main/app_wifi/app_wifi.c:628-637 | earlier holders of the address lose it |
| ApClients.ReleasedKeeps | main/app_wifi/app_wifi.c:628-637 | a client loses its address exactly to another station leased it, and a station then keeps all else |
| ApClients.ClientTable.ClientLeased | main/app_wifi/app_wifi.c:623-646 | a lease gives the station its address, evicts no other joined station, and keeps MACs and addresses unique |
| ApClients.ClientTable.FindAddress | main/app_wifi/app_wifi.c:675-684 | the client with an address, else a free entry |
| ApClients.ClientTable.Activity | main/app_wifi/app_wifi.c:669-697 | true exactly for a client's first request of a kind, which marks it in that client's entry only; the print history of an entry never repeats a kind |
| ApClients.LeaseOk | main/app_wifi/app_wifi.c:623-646 | one lease step, releasing the address and taking the entry, keeps stations' MACs and clients' addresses unique |
| ReleaseOrder.CheckReleaseOrder | docs/telemetry/validate_capture.py:509-576 | the loop over dictionaries returns the flags of the message-by-message monitor |
| ReleaseOrder.UpdateWet | docs/telemetry/validate_capture.py:544-565 | what is wet after a message |
| ReleaseOrder.FlagsAreLate | docs/telemetry/validate_capture.py:512-518 | main result: a device is flagged at a message if and only if the message is a release outside the reconnect pass and the device's earlier leak, no later in ts, was not forgotten in between |
| ReleaseOrder.StateTells | docs/telemetry/validate_capture.py:520-526 | the monitor's dictionaries say exactly what the trace says: the boot, what is wet since when, the reconnect pass |
| ReleaseOrder.FlagsListed | docs/telemetry/validate_capture.py:566-576 | the list returned holds exactly the messages with a late device |
| ReleaseOrder.FlagsProject | docs/telemetry/validate_capture.py:525-532 | main result: a message is flagged in an interleaved capture as it is in its own gateway's messages alone |
| ReleaseOrder.StateOfProjection | docs/telemetry/validate_capture.py:529-534 | a gateway's state depends on its own messages only |
| JsonScan.FindFrom | docs/telemetry/validate_capture.py:625-627 | the next opening brace |
| JsonScan.ScanFrom | docs/telemetry/validate_capture.py:628-646 | the depth and string scan's stop |
| JsonScan.ExtractAll | docs/telemetry/validate_capture.py:621-656 | the loop returns the extraction and ends on every text |
| JsonScan.ObjectEnds | docs/telemetry/validate_capture.py:628-647 | main result: from a printed object's first brace the scan stops exactly at its last, whatever its strings hold, wherever it has white space and whatever follows |
| JsonScan.ExtractsMessages | docs/telemetry/validate_capture.py:621-656 | main result: on a log of messages and any other text whose stray braces begin nothing that loads, exactly the messages, in order |
| JsonScan.NoisePasses | docs/telemetry/validate_capture.py:648-656 | a stray brace hides nothing after it: the extraction goes on one character later |
| JsonScan.ValuePasses | docs/telemetry/validate_capture.py:629-646 | the scan passes over any printed value inside an object and comes back to its state |
| JsonScan.PrintsSpaces | docs/telemetry/validate_capture.py:621-622 | white space may stand before a key, before a closing brace and inside an empty object |
| JsonScan.MembersPass | docs/telemetry/validate_capture.py:629-646 | so it does over an object's members |
| LoraReplay.BuildNonce | main/app_lora/lora_crypto.c:124-134 | the thirteen bytes written |
| LoraReplay.PutBe32 | main/app_lora/lora_crypto.c:47-53 | four bytes written big-endian, the rest of the buffer kept |
| LoraReplay.PutBe16 | main/app_lora/lora_crypto.c:129-130 | two bytes written big-endian, the rest of the buffer kept |
| LoraReplay.Be32Reads | main/app_lora/lora_crypto.c:47-61 | reading and writing four bytes are inverse |
| LoraReplay.BigEnd | main/app_lora/lora_crypto.c:55-61 | the first byte counts most |
| LoraReplay.NonceInjective | main/app_lora/lora_crypto.c:124-134 | main result: different headers never share a CCM nonce (section 2.1 of RFC 3610) |
| LoraReplay.NonceIsHeader | main/app_lora/lora_crypto.c:224-240 | the nonce of a packet is its own header and three zeros |
| LoraReplay.ReplayTable.FindOrCreate | main/app_lora/lora_crypto.c:140-165 | a sensor's slot, its own or a fresh one, none exactly when the table is full of others; slots stay unique |
| LoraReplay.ReplayTable.CheckAndUpdate | main/app_lora/lora_crypto.c:167-193 | one step of the table: the verdict and the record left, no other sensor's record changed, a full table still full |
| LoraReplay.DecryptPacket | main/app_lora/lora_crypto.c:207-290 | what is accepted is the plaintext that AES-CCM opens from the packet under its own nonce, and the replay check passed it; a short or unauthentic one leaves the table as it was |
| LoraReplay.TableIsRecord | main/app_lora/lora_crypto.c:167-193 | main result: in every run of the table, along any mix of packets, the record and the verdicts of a sensor it has room for are those its own packets make |
| LoraReplay.FullAcceptsAll | main/app_lora/lora_crypto.c:159-173 | a full table never takes another sensor in and accepts everything it sends |
| LoraReplay.FirstAccepted | main/app_lora/lora_crypto.c:167-193 | in every run a sensor's first packet is accepted unless it carries boot 0 and counter 0 and the table has room for it |
| LoraReplay.CountersIncrease | main/app_lora/lora_crypto.c:167-193 | main result: in every run of the table, between two accepted packets of one boot of a sensor with a slot the counter strictly increases and the nonces differ, whatever other sensors send |
| LoraReplay.BlockIsShort | main/app_lora/lora_crypto.c:185-188 | such a block of a run has at most 65,536 packets |
| LoraReplay.LowCounterAccepted | main/app_lora/lora_crypto.h:117-117 | main result: in every run a counter at or below the last accepted one is accepted if and only if the sensor has no slot or the packet carries another boot |
| LoraReplay.ReplayAccepted | main/app_lora/lora_crypto.c:167-193 | main result: in every run the second copy of an accepted packet is accepted if and only if its sensor has no slot, or was accepted in between with another boot and since then with its own only below that counter |
| LoraReplay.ReplayAfterReboot | main/app_lora/lora_crypto.c:175-183 | a run from an empty table in which a packet is accepted twice after a reboot |
| LoraReplay.ReplayUnderItsBoot | main/app_lora/lora_crypto.c:175-188 | one in which the boot on record is the packet's own when it is accepted again |
| LoraReplay.ReplayWhenFull | main/app_lora/lora_crypto.c:170-173 | a run in which a full table does: the first packets of sixteen sensors fill the empty table, and one of another sensor is then accepted twice |
| Schema.SchemaAccepts | docs/telemetry/build_catalogue.py:234-294 | main result: a generated schema accepts a payload if and only if its types and keys are the maximal payload's (nulls and the open payload aside), it carries the minimal payload's keys, and its strings use the declared vocabularies, at every level |
| Schema.BothAccepted | docs/telemetry/build_catalogue.py:363-379 | main result: for null-free, uniformly shaped examples with the minimal fitting the maximal, each is accepted if and only if its strings use their vocabularies |
| Schema.NothingDeclared | docs/telemetry/build_catalogue.py:242-242 | outside the telemetry plane there are no vocabularies, so both are accepted |
| Schema.ForeignKeyRejected | docs/telemetry/build_catalogue.py:257-258 | a key outside the maximal object is refused at every level |
| Schema.AcceptedAt | docs/telemetry/build_catalogue.py:234-294 | at every place of an accepted payload: its type, no foreign key (the open command payload aside), every key the minimal payload has there, and the vocabulary declared for the place's dotted name |
| Schema.OpenPayload | docs/telemetry/build_catalogue.py:257-258 | but changes nothing in the open command payload |
| Schema.NullNeedsDeclaring | docs/telemetry/build_catalogue.py:267-273 | a null example is accepted only if null is declared |
| Schema.BuildSchema | docs/telemetry/build_catalogue.py:309-337 | the edits, in order |
| Schema.NarrowEach | docs/telemetry/build_catalogue.py:323-330 | the loop over the narrowed vocabularies |
| Schema.DataRequiredAccepts | docs/telemetry/build_catalogue.py:318-320 | replaced data keys: an accepted payload stays accepted exactly when it has them |
| Schema.NarrowAccepts | docs/telemetry/build_catalogue.py:321-330 | a narrowed vocabulary: exactly when its value there is a member |
| Schema.TypeAccepts | docs/telemetry/build_catalogue.py:331-336 | the discriminator: exactly when the type is the literal |
| Schema.BuiltAcceptsBoth | docs/telemetry/build_catalogue.py:363-379 | main result: of two examples that use their declared vocabularies, the edited schema accepts each if and only if it meets every edit that takes effect |
| SchemaEdits.BuiltAccepts | docs/telemetry/build_catalogue.py:309-337 | main result: for every payload, the edited schema accepts it if and only if it stays within the maximal payload, carries the minimal one (`data`'s own keys aside when they are replaced), uses the vocabularies the edits leave, and meets the data keys, the narrowings and the literal |
| SchemaEdits.EditedAccepts | docs/telemetry/build_catalogue.py:309-337 | an edited schema accepts exactly what it would with the replaced keywords dropped and the edits met |
| SchemaEdits.LooseSchema | docs/telemetry/build_catalogue.py:234-294 | what the generated schema accepts with those keywords dropped |
| SchemaEdits.PatchType | docs/telemetry/build_catalogue.py:309-337 | the edits made in order are one change of each node's keywords by its path |
| Schema.TypeFirst | docs/telemetry/build_catalogue.py:331-336 | the type literal undoes a narrowing of the type and leaves every other one |
| Schema.LeadNarrowAll | docs/telemetry/build_catalogue.py:323-330 | after all narrowings each path that is there has its own vocabulary, and its required keys as before |
| LegacyCmd.Parser.Parse | main/commands/c2d_commands.c:23-54 | main result: the message's parse, a blank command on failure, and on the text path an empty id and version 0 with nothing left of a failed envelope |
| LegacyCmd.Parser.ParseEnvelope | main/commands/c2d_commands.c:68-127 | an accepted envelope's fields; a failed one leaves at most the version |
| LegacyCmd.Parser.ParseLegacy | main/commands/c2d_commands.c:144-295 | the first rule that hits decides, and the failed envelope's version is gone |
| LegacyCmd.Parser.ParseLora | main/commands/c2d_commands.c:165-178 | the LoRa keyword read at its place in the text as sent, the rest of the rules otherwise |
| LegacyCmd.Parser.CopyMac | main/commands/c2d_commands.c:184-190 | up to seventeen characters before a blank |
| LegacyCmd.Parser.UpperCopy | main/commands/c2d_commands.c:149-154 | the uppercase copy, character by character |
| LegacyCmd.Parser.ParseDecommission | main/commands/c2d_commands.c:180-212 | the remaining decommission keywords, with the bare ones refused |
| LegacyCmd.Parser.ParseRest | main/commands/c2d_commands.c:214-246 | the valve and configuration keywords |
| LegacyCmd.Parser.ParseLast | main/commands/c2d_commands.c:248-294 | the last two keywords and the provisioning fallback |
| LegacyCmd.LegacyIsClean | main/commands/c2d_commands.c:144-147 | an accepted message is an envelope exactly when one parses, and otherwise has an empty id and version 0 |
| LegacyCmd.FirstRuleDecides | main/commands/c2d_commands.c:156-260 | the command is that of the first of eleven rules that hits |
| LegacyCmd.MessageReads | main/commands/c2d_commands.c:23-127 | main result: a message is read after its blanks and up to its first NUL: an envelope of a known schema field by field, cut to its buffers, and anything else by the text path |
| LegacyCmd.ValveCommand | main/commands/c2d_commands.c:156-163 | main result, with the next eight rows: what each keyword gives where no earlier one hits, name and payload written out |
| LegacyCmd.LoraCommand | main/commands/c2d_commands.c:165-178 | the id after the first colon, in eight hex digits |
| LegacyCmd.BleCommand | main/commands/c2d_commands.c:180-199 | the MAC after the colon, up to a blank or seventeen characters |
| LegacyCmd.AllCommand | main/commands/c2d_commands.c:201-212 | all, by its keyword or the bare word alone; the bare LoRa and BLE keywords are refused |
| LegacyCmd.ValveControl | main/commands/c2d_commands.c:216-226 | open and close |
| LegacyCmd.ConfigCommand | main/commands/c2d_commands.c:230-237 | the rules' text after the colon |
| LegacyCmd.SensorMetaCommand | main/commands/c2d_commands.c:239-246 | the sensors' text after the colon |
| LegacyCmd.LastCommands | main/commands/c2d_commands.c:250-262 | leak reset and override cancel |
| LegacyCmd.Provisions | main/commands/c2d_commands.c:264-294 | with no keyword, an object without a command name as provisioning, and nothing else |
| LegacyCmd.NoRuleProvisions | main/commands/c2d_commands.c:264-290 | with no hit only the provisioning fallback is left |
| LegacyCmd.KeywordsIgnoreCase | main/commands/c2d_commands.c:149-154 | main result: texts that differ only in letter case give the same command and the same LoRa id; other payloads differ in case at most |
| LegacyCmd.CaseStrToUl | main/commands/c2d_commands.c:170-170 | reading a hex number ignores case |
| LegacyCmd.ReadsNumber | main/commands/c2d_commands.c:170-170 | a number is read past white space, a sign and a mark up to the first character that is no hex digit; too large a one saturates and a negative one wraps |
| LegacyCmd.LoraRoundTrip | main/commands/c2d_commands.c:165-178 | main result: the LoRa keyword followed by any printing of a 32-bit id in hex gives a payload naming exactly that id, never truncated |
| LegacyCmd.HexReads | main/commands/c2d_commands.c:172-174 | a printed hex number reads back |
| LegacyCmd.KeywordAnywhere | main/commands/c2d_commands.c:216-220 | a keyword decides wherever it stands in the text |
| LegacyCmd.TruncatedEnvelopeActs | main/commands/c2d_commands.c:264-283 | a truncated envelope that opens the valve |
| LegacyCmd.RefusedWhen | main/commands/c2d_commands.c:207-294 | text that is no envelope is refused if and only if the bare sensor keyword hits first, or none hits and it is no JSON object without a command |

## Left out

- Connects the executor did not grant (NimBLE re-attempts, off in the build): runs assume none.
- The radio policy's own decisions: rows and pulse lengths are inputs; a granted length is assumed to be at least RP_PULSE_MIN_MS and at most the budget passed, the CONNECT kind never granted to Wi-Fi. The laboratory rows and the period rule are left out.
- The policy's period, announcement, accounting and chore fields of the executor, its log lines, the summary and the starvation monitor.
- Executor.Executor.ExecutorPass: the class holds the executor's struct as one value `x`, so a field update is an update of that value; aliasing is not an issue, the original has one owner.
- ClaimSafety.ClaimIsSafe: a pass is two atomic steps (taking the stored end; the rest); host and controller events may fall between them but not inside one. Ends are processed first in first out, a stopped scan's late end comes more than SCAN_EARLY_MS before the running scan's duration, and NimBLE's callback argument is less than 255 attempts old when such an end is processed; at a host reset it may be any age.
- RadioHistory.RunKeeps: passes, and the last Coded window, are less than 49 days apart; beyond that the 32-bit milliseconds wrap (BudgetWrap.BudgetWrong).
- CodedGap.CodedGapHolds: the run has no pulse, stop, lost or overdue end or failed start.
- ExecutorTimes.RunSleeps: a join assist's own end comes from outside the executor and is assumed within 2^31 ticks of now and of the deadline.
- Burst log, advert counters, flip log and battery or firmware parsing in the advert handler; a sensor's data is one value compared as a whole.
- A PHY learned between the reload's copy and its swap is lost by design; the PHY theorems take a reload as one step. NVS failures are left out, a stored table is a list of records.
- The `sscanf` fallback when parsing a MAC string.
- RouterRetry.OrderedWhen: the mark and a deferral kept for it lie less than 2^32 ticks back.
- LeakEvents.HeartbeatSent: the queue's reader is the environment; it takes one event or none at any step.
- RouterRetry.OrderedInTime: reaching the order means the call to the wifi_manager queue; a full queue is tried again on a later pass. Tick distances stay below 2^31.
- The portal client table's join times and printed lines; activity kinds are a set, not a byte. MACs and addresses are non-zero numbers.
- The capture checker's per-message schema checks, the ordering check and the valveless check, which are simpler forms of the release-order monitor.
- ReleaseOrder.CheckReleaseOrder: time stamps are reals, and a message is what the monitor reads of it; which devices a snapshot still shows wet is part of the message.
- JsonScan.ExtractsMessages: json.loads is an oracle that accepts each printed message.
- AES-CCM and key derivation are an oracle on nonce, header, ciphertext and tag; the initialised flag and null arguments are left out.
- The schema generator's descriptions and metadata, and file output; a field's range text is an oracle that gives its vocabulary. Subschemas are values: an edit through a dotted path rebuilds the path.
- The parser's allocation failures and log lines; cJSON is an oracle that gives the fields asked for.
- DPS, UART, LoRa registers, network status, hub identity and NVS storage: input and output with one branch each.
