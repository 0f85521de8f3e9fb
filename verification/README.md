# muslimtify: the notification scheduler and its files

muslimtify announces the five daily prayers. Once a minute a cycle reads a trigger cache for the day, or
assembles it from the prayer times of yesterday, today and tomorrow, announces what is due, takes it out of
the cache and saves the rest. The cache and the settings are JSON files that the program prints and parses
with its own small JSON library. This project models both halves and what happens where they meet: an
announcement goes out once because the cache file, printed by one cycle, reads back in the next.

| File | What it models |
|---|---|
| `Basics.dfy`, `Numbers.dfy` | optional values, texts in texts, C strings; `%d`, `%.4f`, `%.6f`, `strtol`, `strtod` |
| `JsonEscape.dfy`, `JsonAgreement.dfy`, `JsonScan.dfy` | the escaping printer, the decoder, key comparison, and where the last two agree; bracket matching, key lookup, value extraction |
| `JsonTree.dfy`, `JsonPrint.dfy` | JSON trees with their layout, what the reader finds in their printed text, printing member by member |
| `Arena.dfy` | the region allocator behind the JSON reader |
| `TriggerCache.dfy`, `CacheFile.dfy` | one day's triggers in their fixed array; the cache file |
| `Settings.dfy`, `ConfigText.dfy`, `ConfigFile.dfy`, `ConfigRoundTrip.dfy` | the settings; the configuration file written, read, and both together |
| `Calendar.dfy`, `ClockTime.dfy` | civil dates and day serials; clock faces and instants |
| `Picking.dfy`, `Schedule.dfy`, `Assembly.dfy`, `Capacity.dfy` | what to do with a trigger now; assembling a day; what the assembly promises; when a day has room for all |
| `Cycle.dfy`, `Runs.dfy`, `Driver.dfy` | one cycle over the file; runs of cycles; calls of the cycle as a run |
| `Delivery.dfy`, `Once.dfy`, `Refreshes.dfy`, `WholeRuns.dfy`, `Witnesses.dfy` | what a day delivers; how often each announcement goes out, and on days with refreshes; days inside longer runs; runs in which announcements repeat |
| `NextPrayer.dfy` | the countdown to the next prayer, against the instants and against the scheduler |
| `Gpsd.dfy` | lines out of a byte stream that arrives in pieces, and the fix they report |

How to read the model:

- Characters stand for bytes, and a C string is a text without its terminator.
- A prayer time is an unknown function of a source day and a prayer, giving hours as a real number or
  nothing; the day's minute is the ceiling of sixty times that.
- The cache file is absent or a text. The outside world (location lookup, notifier start, deletion of the
  file by another process, success of a save) is an input of each cycle; the notifier is a log.
- A method that follows a loop or an update of the source is proved equal to a function on values, and the
  theorems are about that function. `IsBuild` is a relation, since `qsort` promises nothing about triggers of
  one minute.
- A run (`Runs.IsRun`) is any sequence of cycles and deletions on one file with the same settings and times
  throughout, and calling the cycle again and again makes one (`Driver.Drive`); `Runs.InOrder` asks that dates
  never go back. Minutes within a day may, as when a clock is set back, unless a theorem says otherwise.

Where the code falls short of its own remarks, the model follows the code and says exactly where. Keys and
values are read alike for plain escapes only (`JsonAgreement.ReadingsAgreeExactly`): surrogate pairs, unknown or
short escapes, lone surrogates and an escaped NUL decode in a value and make a key equal to nothing. Settings
that list a reminder twice announce it twice (`Once.NothingRepeatedExactly`,
`Witnesses.RepeatedReminderGoesOutTwice`). A refresh in the minute of an earlier cycle announces that minute
again, and no other refresh repeats anything while the clock goes forward (`Refreshes.RepeatsExactly`, with
`Witnesses.NoonAdhanGoesOutTwice` as an input that fails).

## Model

| member | source | states |
|---|---|---|
| Once.EachIsAnnouncedOnce | src/lib/muslimtify_cycle.c:94-172 | over every run with fixed times, an announcement that no two entries of its day share goes out at most once on that day, plus once for every deletion of the file, every cycle of the day that reports a failed save, and every refresh that comes after it went out and not after its minute |
| Once.AnnouncedOnceExactly | src/lib/muslimtify_cycle.c:116-158 | that is the only case: on a quiet day in time for it, it goes out at most once exactly when no two entries share it (for reminders when there is room for all, and otherwise exactly when the cache holds it at most once) |
| Once.NothingRepeatedExactly | src/core/cache.c:366-447 | a day's assembly holds nothing twice exactly when no two different (slot, reminder) pairs due that day share prayer, minute and lead |
| Once.RepeatedExactly | src/core/cache.c:366-447 | the same for one announcement |
| Once.SharedMeans | src/core/cache.c:366-447 | two entries that share are both adhans or both reminders of one prayer: it lists a lead twice, or it falls on one minute from two source days |
| Refreshes.RepeatsExactly | src/lib/muslimtify_cycle.c:87-158 | on a day of cycles whose clock goes forward, with any refreshes, an announcement that no two entries share and that the builds up to its minute place goes out at most once exactly when no refresh in its minute follows another cycle in that minute |
| Refreshes.DueRepeatsExactly | src/core/cache.c:366-447 | the builds place it for every adhan due that day, and for every reminder when there is room for all, so the rule holds of those |
| Refreshes.CountsOverBusyDay | src/lib/muslimtify_cycle.c:87-158 | with the clock going either way and any refreshes, how often any announcement goes out: the sum, over the cycles in time for it, of what the last build before placed, when no cycle in between reached its minute |
| Witnesses.RepeatedReminderGoesOutTwice | src/core/config.c:342-366 | reminders `[30, 30]` load from the file written for them, and one cycle announces the reminder twice |
| Witnesses.SameMinuteRefreshRepeats | src/lib/muslimtify_cycle.c:87-112 | for every plan and announcement, a run of a cycle and a refresh in the same minute announces all the cache holds of it twice, with no deletion and no failed save |
| Witnesses.NoonAdhanGoesOutTwice | src/lib/muslimtify_cycle.c:87-112 | such a run at loaded settings: an adhan that one entry yields goes out twice |
| Witnesses.NoonSettles | src/lib/muslimtify_cycle.c:34-69 | the settings of that run have a location, so no first lookup happens, and a refresh is tried exactly from 12 hours after the last one on, outside a retry pause |
| Capacity.FewReminders | src/core/cache.c:350-365 | with at most three reminders a prayer, as by default, capacity drops nothing |
| Capacity.RoomForNineAgain | src/core/cache.c:350-365 | whatever the settings, capacity drops nothing while at most nine adhans and reminders fall on the day from a second source day |
| Runs.NothingIsAnnouncedTwice | src/lib/muslimtify_cycle.c:94-172 | over every run with fixed times, whatever the saves and refreshes do, an announcement goes out at most as often as the day's assembly holds it, and as often again for each deletion, each cycle that reports a failed save, and each refresh that comes after it went out and not after its minute; no other refresh and no failed notifier start adds anything |
| Runs.RefreshesInTimeRepeatNothing | src/lib/muslimtify_cycle.c:87-112 | when every refresh that follows the announcement comes after its minute, refreshes add nothing to the bound |
| Runs.RefreshesComeInTime | src/lib/muslimtify_cycle.c:87-112 | so it is for every announcement when each refresh comes at a later minute than the earlier cycles of its day |
| Runs.SavedRunFailsNothing | src/lib/muslimtify_cycle.c:165-172 | when all saves succeed no cycle reports a failed one |
| Runs.RunIsWithin | src/lib/muslimtify_cycle.c:94-172 | the invariant of that bound over every prefix of a run: what went out plus what the file still holds |
| Runs.LeavesResidue | src/lib/muslimtify_cycle.c:116-172 | a cycle that returns OK leaves the file gone, when it was deleted meanwhile, or holding exactly what is still ahead |
| Runs.LeavesTheRest | src/lib/muslimtify_cycle.c:116-172 | one that does not leaves the file gone, as it was, or holding all the cycle worked on |
| Runs.NothingIsMadeUp | src/lib/muslimtify_cycle.c:116-172 | announcements and residue of a cycle that returns OK are together no more than what it worked on |
| Runs.OpensWithin | src/lib/muslimtify_cycle.c:87-114 | reused, rebuilt or refreshed, what a cycle works on keeps the bound together with what went out before; a refresh that may repeat the announcement raises it by one |
| Runs.EveryRunIsSound | src/lib/muslimtify_cycle.c:90-172 | over every run from an empty cache, saves failing or not, every file left behind is one the next cycle can load, and no cycle works on a reminder without its adhan |
| Runs.CycleIsSound | src/lib/muslimtify_cycle.c:90-172 | one step of it |
| Runs.WrittenFileLoads | src/core/cache.c:108-311 | a file a cycle wrote is never rejected: it loads with its date and the same announcements |
| Runs.DroppedRemindersAreNotMissed | src/core/check_cycle.c:12-21 | in every cycle of every run, a reminder dropped within the window because its prayer has passed goes with the announcement of that prayer |
| Driver.Drive | src/lib/muslimtify_cycle.c:29-173 | any calls of the cycle and deletions of the file, with settings whose prayer sections and times stay the same, are a run of one plan: its files, and exactly its announcements in the log |
| Driver.OpensAlike | src/core/cache.c:329-455 | what a cycle may work on depends on the prayer sections and the times only, so a refresh that moves nothing else changes nothing |
| Driver.DrivenInOrder | src/lib/muslimtify_cycle.c:165-172 | calls whose dates never go back make a run in order, and calls whose saves succeed one in which all do |
| Delivery.DeliveredExactly | src/lib/muslimtify_cycle.c:116-158 | on a day without deletion or refresh, an announcement goes out as often as the day's first cycle placed it in the cache when the first cycle at or after its minute is in time, and otherwise not at all, whatever capacity dropped besides |
| Delivery.DeliveredAsAssembled | src/core/cache.c:352-447 | for every adhan, and for every reminder when there is room for all, that is as often as the day's assembly holds it |
| WholeRuns.DeliveredInWholeRun | src/lib/muslimtify_cycle.c:87-172 | the same for a quiet day inside a run of many days, whatever happened before and happens after |
| WholeRuns.PrayerGoesOutOnOneDay | src/core/cache.c:366-444 | an adhan or a reminder whose rounded minute is within a day of its source day goes out on exactly one day of a whole run, that of its instant, in time and quiet there (and, for a reminder, with room for all), and once exactly when it shares that announcement with no other entry |
| WholeRuns.SilentOnOtherDays | src/core/cache.c:366-444 | over every run, refreshes and failures included, it goes out on no other day |
| Delivery.FiresAtFirstMeans | src/core/check_cycle.c:6-24 | in time: at most 15 minutes late, and for a reminder before its prayer |
| Delivery.AnnouncedInOrder | src/lib/muslimtify_cycle.c:116-158 | the announcements of such a day go out in the order of their minutes across all cycles |
| Delivery.RefreshRepeatsItsOwnMinute | src/lib/muslimtify_cycle.c:87-112 | of what a refresh rebuilds it fires exactly the triggers of its own minute, which a cycle of that minute fires too |
| Cycle.Service.RunCycle | src/lib/muslimtify_cycle.c:44-173 | the file, the notifier log, the count and the error of a whole cycle, by the selections from the triggers it worked on |
| Cycle.Service.RunTick | src/lib/muslimtify_cycle.c:94-172 | the same from the settled settings on |
| Cycle.Service.Locate | src/lib/muslimtify_cycle.c:34-85 | the whole outcome of settling the location: settings in force, settings stored, report, error, and the pause after a failed refresh |
| Cycle.Service.Open | src/lib/muslimtify_cycle.c:90-114 | load, or rebuild and save; after a refresh without what lies behind |
| Cycle.Service.Announce | src/lib/muslimtify_cycle.c:116-158 | the firing loop announces what is due in order, removes it and what is stale in place, keeps the rest, and gives up when the notifier will not start |
| Cycle.FiredNotice | src/core/check_cycle.c:6-34 | of what fires, the adhan is played on its own minute only, a reminder comes before its prayer, and the sound is left out exactly when it is off |
| Cycle.RefreshPauses | src/lib/muslimtify_cycle.c:70-79 | after a failed refresh the last location stays and no cycle of the next ten minutes tries again |
| Cycle.DropBefore | src/lib/muslimtify_cycle.c:103-112 | the refresh filter is the selection of what is not before now |
| Assembly.BuildIsGood | src/core/cache.c:329-455 | whatever settings loaded, a built cache meets the ranges its own loader checks and fits its fields |
| Assembly.LoadedFileMakesLoadedPlan | src/core/config.c:382-595 | settings from any file that loads give a plan the theorems on runs apply to |
| Assembly.AdhansComeFirst | src/core/cache.c:366-447 | at most fifteen adhans, none ever dropped, then reminders in assembly order up to the capacity of 64 |
| Assembly.AssembledLater | src/core/cache.c:397-430 | assembling at a minute is assembling at midnight without what lies more than 15 minutes back |
| Assembly.LateBuildIsEarlyBuild | src/core/cache.c:397-430 | when nothing is truncated, building at a minute or at midnight gives a cycle at that minute the same announcements and the same residue |
| Assembly.BuiltWithinDay | src/core/cache.c:329-455 | a cache built at any minute holds nothing more often than the whole day does |
| Assembly.AdhanOnOneDay | src/core/cache.c:366-420 | a prayer that spills over midnight is moved and never copied: exactly the day its instant falls on announces it, at that instant, if it lies within a day of its own |
| Assembly.ReminderOnOneDay | src/core/cache.c:424-444 | the same for every reminder, by its own minute |
| Assembly.BuildIsCovered | src/core/cache.c:366-447 | a built cache holds no reminder of the day without the adhan it precedes, even when reminders were dropped |
| Assembly.CoveredFrom | src/lib/muslimtify_cycle.c:103-158 | the refresh filter and the consumption keep that |
| Assembly.DroppedReminderHasItsAdhan | src/core/check_cycle.c:12-21 | a reminder dropped within the window because its prayer has passed meets its adhan firing in the same cycle |
| Once.AssembledCount | src/core/cache.c:366-447 | a day's assembly holds an announcement once for every entry announced so: every source day, and every time a reminder is listed |
| Schedule.Build | src/core/cache.c:329-455 | the two passes over three source days and the sort give a minute-ordered permutation of all due adhans and the first due reminders |
| Schedule.BuildPass | src/core/cache.c:366-447 | one pass over the three source days |
| Schedule.BuildAdhan | src/core/cache.c:397-422 | the adhan of one prayer of one source day |
| Schedule.BuildReminders | src/core/cache.c:424-444 | its reminders |
| Schedule.BuildReminder | src/core/cache.c:425-443 | one of them |
| Schedule.Sort | src/core/cache.c:449-452 | what `qsort` promises: ordered by minute, the same triggers |
| Schedule.InstantIsShifted | src/core/cache.c:375-392 | a source day moves a prayer's minute by whole days |
| TriggerCache.PrayerCache.Append | src/core/cache.c:405-422 | appends unless the array is full |
| TriggerCache.PrayerCache.Remove | src/core/cache.c:457-465 | removes one trigger by shifting the rest; an index outside the list changes nothing |
| NextPrayer.NextFromDays | src/core/prayer_checker.c:92-126 | the least wait that is not negative over three days, ties to the earlier day and prayer, and none only when nothing lies ahead |
| NextPrayer.NextIsFirstAdhanOfCache | src/core/prayer_checker.c:92-126 | with equal offsets the countdown ends today exactly when the cache built now holds an adhan still ahead, and then at the minute of the first of them |
| NextPrayer.CountdownReachesTheInstant | src/lib/muslimtify.c:334-345 | the instant handed out is the countdown ahead of now, to 31 seconds for any offsets and to the second for whole-minute ones, exactly when the rounded minute is within a day of its source day |
| NextPrayer.ShiftInSeconds | src/core/prayer_checker.c:103-117 | the offset shift in minutes against the same shift in seconds |
| ClockTime.TimeRejoins | src/lib/muslimtify.c:196-219 | date, clock and day offset name the rounded minute of the source day exactly when it is within a day of it |
| ClockTime.ClockIsTheRoundedMinute | vendor/prayertimes.h:740-783 | the clock face is the minute the time rounds up to, within its day |
| Calendar.DaysOfCivilOfDays | vendor/prayertimes.h:400-425 | the conversions between dates and serials are inverse |
| Calendar.DateTextReadsBack | src/lib/muslimtify_cycle.c:82-85 | the date printed for today is the date the build parses |
| Calendar.DateTextIsInjective | src/core/check_cycle.c:26-29 | no two days print the same date |
| CacheFile.FileRoundTrip | src/core/cache.c:108-311 | a day that fits its fields loads from its own file as itself, times to four decimals, exactly when every minute is in range |
| CacheFile.SaveThenLoad | src/core/cache.c:108-311 | the same on texts, for any strings a C program can hold |
| CacheFile.TruncationIsSafe | src/core/cache.c:150-255 | a file cut off before the end of its list is rejected, cut off later it loads as the whole file does |
| CacheFile.ListRoundTrip | src/core/cache.c:161-255 | the loading loop over a printed list, from any object on |
| CacheFile.TriggerRoundTrip | src/core/cache.c:203-236 | one printed object reads back, or rejects the file when its minutes are out of range |
| CacheFile.SaveFitsCap | src/core/cache.c:276-296 | whatever fits the fields prints to less than the loader's size cap |
| CacheFile.ReloadAllExactly | src/core/cache.c:217-229 | a list loads, trigger by trigger, exactly when all minutes are in range |
| CacheFile.Save | src/core/cache.c:262-296 | the text written |
| CacheFile.WriteTrigger | src/core/cache.c:281-293 | one line of it |
| CacheFile.WriteList | src/core/cache.c:276-296 | its list |
| CacheFile.LoadInto | src/core/cache.c:108-260 | the loader in place is the loading function, refusals included |
| CacheFile.ReadTriggers | src/core/cache.c:156-255 | its loop over the list fills the array |
| CacheFile.ReadObject | src/core/cache.c:192-240 | an object is read behind a NUL put into the buffer, and the buffer is restored |
| CacheFile.FindObjectEnd | src/core/cache.c:166-188 | braces are matched outside strings only |
| ConfigRoundTrip.FileRoundTrip | src/core/config.c:148-595 | settings in normal form load from their own file as themselves, decimals as millionths and angles for the custom method only |
| ConfigRoundTrip.SaveThenLoad | src/core/config.c:148-595 | the same on texts |
| ConfigRoundTrip.TruncationIsRefused | src/core/config.c:400-412 | every cut-off configuration is refused, but for one that lost only its last newline |
| ConfigRoundTrip.WholeExactly | src/core/config.c:404-412 | which cuts of a printed configuration are one whole object |
| ConfigRoundTrip.ReloadedIsStable | src/core/config.c:148-234 | what has been through the file stays as it is, and exactly such settings come back unchanged |
| ConfigRoundTrip.RemindersRoundTrip | src/core/config.c:342-366 | the printed array of reminders reads back |
| ConfigRoundTrip.PrayerRoundTrip | src/core/config.c:324-380 | one prayer's section reads back over any defaults |
| ConfigRoundTrip.SaveFitsCap | src/core/config.c:148-231 | settings in normal form print to less than the size cap |
| ConfigFile.LoadedIsNormal | src/core/config.c:324-595 | every file that loads gives offsets within 60 minutes, at most ten reminders of 1 to 1440, an interval that is off or at least an hour, GPS only with detection, format 12 or 24, a known sound mode, strings that fit |
| ConfigFile.LoadConfig | src/core/config.c:382-595 | the loader is the loading function, refusals and defaults included |
| ConfigFile.ParsePrayer | src/core/config.c:324-380 | the fields of one prayer, each kept when it is missing |
| ConfigFile.ParseReminders | src/core/config.c:342-366 | the loop over the reminder array |
| ConfigFile.ParseLocation | src/core/config.c:423-471 | the location, GPS off without detection, the interval raised to an hour |
| ConfigFile.ParseNotification | src/core/config.c:500-553 | the notification settings, the timeout saturated and the sound mode normalised |
| ConfigFile.RemindersFrom | src/core/config.c:342-366 | at most ten reminders, each from 1 to 1440, from any text |
| ConfigText.Write | src/core/config.c:148-234 | the text written |
| ConfigText.WriteReminders | src/core/config.c:187-192 | its reminder arrays |
| ConfigText.WritePrayer | src/core/config.c:181-195 | its prayer sections |
| ConfigText.WriteCalculation | src/core/config.c:216-228 | its calculation section, with angles for the custom method only |
| JsonTree.LookupIsFirstMember | src/json.h:500-711 | for every tree of height at most 100, lookup in the printed object gives the first member of that name, as the contents of a string or the exact text of anything else, and nothing when there is none |
| JsonTree.LookupsCompose | src/json.h:739-762 | lookups applied to the results of lookups follow the path in the tree |
| JsonTree.MatchOfContainer | src/json.h:455-498 | a printed bracket is matched with the one that closes it, whatever strings hold |
| JsonTree.FindAmongMembers | src/json.h:500-567 | key look-alikes inside values, deeper objects and strings never mislead the finder |
| JsonTree.FindOverValue | src/json.h:500-567 | a printed value below the top level is passed over whole |
| JsonTree.MatchOverValue | src/json.h:455-498 | the same for bracket matching |
| JsonTree.ExtractPrinted | src/json.h:569-711 | what extraction gives for each kind of printed value |
| JsonScan.FindMatchingBracket | src/json.h:455-498 | the character loop is the matching function |
| JsonScan.FindKey | src/json.h:500-567 | the cursor loop is the finding function |
| JsonScan.ExtractValue | src/json.h:569-711 | extraction of strings, containers and scalars |
| JsonScan.DecodeString | src/json.h:600-676 | the decoder writes into a block of the raw length plus one, never outside it, and the block reads as the decoded text |
| JsonScan.GetValue | src/json.h:756-762 | lookup and extraction together |
| JsonScan.MatchOfPrefix | src/json.h:455-498 | in a cut-off text a bracket is matched only where it is matched in the whole |
| JsonScan.FindKeyOfPrefix | src/json.h:500-567 | in a cut-off text a key is found where it is found in the whole, or not at all |
| JsonScan.StringEndOfEscape | src/json.h:515-528 | a printed string ends where it was printed to end |
| JsonAgreement.UnescapeInvertsEscape | src/json.h:600-676 | reading back printed text gives the text, for every text without NUL |
| JsonEscape.DecodePiece | src/json.h:608-676 | a piece decodes to no more bytes than it is written in, and to no NUL |
| JsonEscape.ReadPiece | src/json.h:603-676 | one character or escape of the decoder's loop, its hexadecimal digits read in their own loop |
| JsonEscape.ReadStrictPiece | src/json.h:266-347 | the same for the key comparison, which gives up on anything it does not know |
| JsonEscape.ReadHex4 | src/json.h:250-264 | the loop over four hexadecimal digits gives their number, or nothing when one is none or the text ends |
| JsonAgreement.UnicodeEscapeMeaning | src/json.h:634-668 | a `\u` escape decodes to the UTF-8 form of its scalar value; lone surrogates and zero to U+FFFD |
| JsonAgreement.SurrogatePairMeaning | src/json.h:634-668 | a surrogate pair decodes to the UTF-8 form of the one value its halves spell |
| JsonEscape.Utf8EncodeIsUtf8 | src/json.h:207-248 | the encoder's bytes mean the code point, by section 4 of RFC 3629 |
| JsonEscape.SliceEquals | src/json.h:266-347 | the two-cursor comparison is equality of the decoded key |
| JsonAgreement.StrictAgreesWithUnescape | src/json.h:266-347 | sound against the reader: a raw key that compares equal decodes to the key |
| JsonAgreement.StrictUnescapesEscape | src/json.h:266-347 | complete on printed keys |
| JsonAgreement.PrintedKeysCompareAsKeys | src/json.h:266-347 | printed keys compare equal exactly when they are equal |
| JsonAgreement.ReadingsAgreeExactly | src/json.h:266-347 | the key comparison and the decoder read a text alike exactly when every backslash in it starts one of the eight two-character escapes or `\u` with the digits of a character that is no surrogate half and not NUL |
| JsonAgreement.KeyMatchesExactly | src/json.h:266-347 | a raw key is found under a name exactly when it decodes to that name and is written so |
| JsonAgreement.SurrogatePairIsNoKey | src/json.h:266-347 | a surrogate pair decodes, and compares equal to no key |
| JsonAgreement.UnknownEscapeIsNoKey | src/json.h:266-347 | nor does an unknown escape, which decodes to itself |
| JsonAgreement.ShortEscapeIsNoKey | src/json.h:266-347 | nor `\u` without four digits, which decodes to itself |
| JsonAgreement.LoneSurrogateIsNoKey | src/json.h:266-347 | nor half a pair, which decodes to U+FFFD |
| JsonAgreement.EscapedNulIsNoKey | src/json.h:266-347 | nor an escaped NUL, which decodes to U+FFFD |
| JsonEscape.WriteEscaped | src/json.h:764-799 | the printer loop |
| JsonEscape.Quoted | src/json.h:764-799 | at most six bytes a character and two quotes |
| JsonPrint.WriteField | src/core/config.c:148-234 | one more member written is one more member of the printed object |
| Numbers.StrToLOfIntText | src/core/cache.c:221-222 | a printed integer reads back |
| Numbers.StrToDOfFixedText | src/core/cache.c:231 | a printed decimal reads back as the rounded value |
| Numbers.RoundedTwice | src/core/config.c:151-158 | a value read back prints as the same number |
| Arena.JsonArena.Alloc | src/json.h:374-429 | for any request: when it is refused, and that the blocks handed out are aligned, inside one region and apart from every earlier one, which all stay valid, for exactly the requests whose sums stay in a machine word |
| Arena.PlacedInRoom | src/json.h:405-428 | where there is room the new block is placed and every other one stays |
| Arena.OutsideWithoutRoom | src/json.h:405-428 | where the room test passes by wrapping the new block lies outside its region |
| Arena.SmallRequestIsServed | src/json.h:374-429 | every request of up to half a word stays in a word, whatever the arena holds |
| Arena.RoomyRequestIsServed | src/json.h:374-429 | so does every request that fits a word together with the current region |
| Arena.JsonArena.Take | src/json.h:423-428 | the block behind the padding, and the new index, in machine words |
| Arena.JsonArena.Grow | src/json.h:394-421 | a new region becomes the last of the list, and the others keep theirs |
| Arena.JsonArena.Free | src/json.h:431-441 | every region is given back, once |
| Arena.PaddingIsLeast | src/json.h:349-351 | the padding reaches the next aligned address |
| Arena.FreshRegionFits | src/json.h:394-421 | a region made for a request holds it at any address |
| Arena.RoomTestIsRight | src/json.h:408 | the test for room is right exactly when its sum does not wrap into the region |
| Arena.RoomTestCanWrap | src/json.h:408 | a size for which it does |
| Gpsd.GetLocation | src/platform/linux/gpsd_client.c:137-214 | the answer depends on the bytes received and not on how they were cut into chunks |
| Gpsd.Receiver.Receive | src/platform/linux/gpsd_client.c:160-203 | the loop hears the lines that fit, at most 256, up to the first fix |
| Gpsd.Receiver.Feed | src/platform/linux/gpsd_client.c:179-202 | one chunk, up to where it stops |
| Gpsd.Receiver.Put | src/platform/linux/gpsd_client.c:180-201 | one byte; the index stays inside the line buffer |
| Gpsd.StepsHear | src/platform/linux/gpsd_client.c:170-203 | from the middle of any line, byte steps agree with splitting the stream into lines, over-long lines dropped whole and uncounted |
| Gpsd.ReportIsHeard | src/platform/linux/gpsd_client.c:33-76 | a printed report is heard by the first members of its names: any class with a device shows one, and a position report gives its fix exactly when it has one |
| Gpsd.PositionReport | src/platform/linux/gpsd_client.c:52-72 | printed mode and coordinates give the fix, to the printed decimals, exactly when the mode is at least 2 and both lie on the globe |
| Gpsd.FirstFixWins | src/platform/linux/gpsd_client.c:170-202 | a line that gives a fix ends the hearing |
| Gpsd.ScanAllIsSane | src/platform/linux/gpsd_client.c:60-70 | a fix lies on the globe and comes with a device |

## Left out

- Floating-point rounding: prayer times, coordinates and offsets are real numbers; nothing is claimed about
  the last bits of a `double`, and the announced time string may differ by its four-decimal rounding.
- Numbers.StrToD: does not model hexadecimal notation, `inf`, `nan` or overflow to infinity; decimal notation
  with fraction and exponent is modelled.
- Schedule.Sort: stands for the C library's `qsort`, which is not part of this model; only its contract is used.
- JsonScan.DecodeString: takes its block as a fresh array; `Arena.dfy` proves apart that blocks are disjoint.
- Cycle.Service.Locate: takes the outcome of a lookup as an input; the network and the IP lookup are left out.
- Runs.NothingIsAnnouncedTwice: is about one plan for the whole run; a refresh that moves the prayer times
  makes new announcements, which are not counted as the old ones.
- Driver.Drive: stands for the timer that calls the cycle once a minute, which is not part of this model; its
  calls may come at any minutes.
- The text of the announced time (12 or 24 hours) is not modelled; a notice carries the hours.
- Dates are those of the years 0 to 9999, which print with four digits.
- The astronomy that computes prayer times, the method parameters and the time zone database.
- Files, temporary files, renames and permissions: a save succeeds or fails as a whole.
- Sockets, the connection to gpsd and its deadline: the chunks that arrive are the input.
- Notifications, audio and the platform services; log messages; memory exhaustion.
- The command line, tables and help texts; setters, enum names, the country table.
- Ranges of days in the public library interface: they repeat the single day.
