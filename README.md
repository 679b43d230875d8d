# SwiftCommon core, modelled in Dafny

This project models four parts of the SwiftCommon Swift library that carry their own logic, and proves properties of them:

- **`PathHeap`** (`path_heap.dfy`, module `PathHeaps`). This is the frontier queue of a shortest-path search: an array-backed binary min-heap of `PathDS` records, ordered by their cumulative `total`.
  - The model is a class whose `heap` field is a sequence that the methods reassign.
  - `EnQueue` keeps the source's sift-up loop, which has no early exit. The loop is proved against the function `SiftUp`.
  - For `SiftUp` the model proves: heap order is preserved, the result is a permutation, and only the path from the new leaf to the root changes.
  - `DeQueue` removes position 0 as the source does, with no sift-down. A lemma exhibits a heap that it breaks.
- **Path concatenation** (`path_operators.dfy`, module `PathOperators`). This covers `+` on two paths and its `String` overloads, the `/` overloads, `+=` and `/=`. A path is its raw string.
  - A trivial operand (`""` or `"."`) is dropped.
  - A doubled separator at the join is collapsed, and a missing one is inserted.
  - The model proves that, for two non-trivial operands, `+` equals "left side without its trailing `/`", then one `/`, then "right side without its leading `/`".
  - It also proves that `+` never creates `//`.
- **`FilePermissions`** (`file_permissions.dfy`, module `FilePermissionSets`). This is an option set with the bits Read = 1, Write = 2 and Execute = 4.
  - `description` is the source's loop over the three flags. It is proved equal to a specification of the description: the names of the contained flags, in order, joined by `", "`.
  - `init(forPath:)` takes the three answers about the file as inputs.
- **Moment** (`moment_units.dfy`, `moment_from_now.dfy`, `moment_build.dfy`). This covers the integer and string logic of the date library:
  - the `TimeUnit` one-letter names and their fallbacks for unknown names;
  - the seconds-per-unit constants, the `Int` duration extensions and `convert`;
  - the fourteen `fromNow` buckets;
  - the Russian plural-suffix rule;
  - `maximum` and `minimum`;
  - how `moment(params:)` and `moment(dict:)` assemble date components;
  - the field edits of `startOf`.

  Calendar work is not modelled. Where an operation needs a calendar (calendar `add`, `get` of a field, `startOf` on a date), the calendar part is a function parameter, and the model states what the by-name and derived forms do with it.

`startOf(.Weeks)` sets the day to `day - (weekday - 2)`, where weekday counts from Sunday = 1. `StartOfFields` models this exactly as written. For a Sunday it moves the day forward by one, to the following Monday.

## Model

| member | source | states |
|---|---|---|
| PathHeaps.PathHeap.constructor | SwiftCommon/SwiftCommon/DST/Factories/PathHeap.swift:16-18 | a new queue is empty and its count is 0 |
| PathHeaps.PathHeap.Count | SwiftCommon/SwiftCommon/DST/Factories/PathHeap.swift:22-24 | the count is the length of the heap array, and is 0 exactly when the array is empty |
| PathHeaps.PathHeap.Peek | SwiftCommon/SwiftCommon/DST/Factories/PathHeap.swift:29-37 | nothing exactly when the count is 0, otherwise the record at position 0; if the array is in heap order, that record has the minimum total |
| PathHeaps.PathHeap.DeQueue | SwiftCommon/SwiftCommon/DST/Factories/PathHeap.swift:42-48 | no-op on an empty queue; otherwise the new array is the old one without position 0 (order kept) and the count drops by one |
| PathHeaps.PathHeap.EnQueue | SwiftCommon/SwiftCommon/DST/Factories/PathHeap.swift:52-98 | the loop produces the append-then-sift-up contents; the count grows by one; the contents are the old ones plus the key; heap order is preserved; positions off the leaf-to-root path are unchanged |
| PathHeaps.SiftUp | SwiftCommon/SwiftCommon/DST/Factories/PathHeap.swift:73-95 | the sift-up loop as a function of the array and the walking position: swap with the parent when strictly cheaper, move to the parent in any case, stop at the root; the length is kept |
| PathHeaps.Enqueued | SwiftCommon/SwiftCommon/DST/Factories/PathHeap.swift:52-98 | the contents after `enQueue(key)`: the key appended, then sifted up from the new leaf; one record longer |
| PathHeaps.Build | SwiftCommon/SwiftCommon/DST/Factories/PathHeap.swift:16-18 | the contents after enqueuing the keys one by one into a new queue; as many records as keys |
| PathHeaps.SiftUpPermutes | SwiftCommon/SwiftCommon/DST/Factories/PathHeap.swift:73-95 | the sift-up loop only swaps, so its result is a permutation of its input |
| PathHeaps.SiftUpOnlyTouchesPath | SwiftCommon/SwiftCommon/DST/Factories/PathHeap.swift:73-95 | the loop changes only positions on the path from the start position up to the root |
| PathHeaps.SiftUpKeepsHeap | SwiftCommon/SwiftCommon/DST/Factories/PathHeap.swift:81-83 | on an array already in heap order the loop swaps nothing, because the comparison is strict |
| PathHeaps.SiftUpStep | SwiftCommon/SwiftCommon/DST/Factories/PathHeap.swift:76-92 | one iteration keeps "heap order everywhere except at the walking position" |
| PathHeaps.SiftUpRestoresHeap | SwiftCommon/SwiftCommon/DST/Factories/PathHeap.swift:73-95 | from that state, running the loop to the root restores heap order |
| PathHeaps.EnqueuePreservesHeap | SwiftCommon/SwiftCommon/DST/Factories/PathHeap.swift:52-98 | enqueuing into a min-heap yields a min-heap |
| PathHeaps.EnqueuePermutes | SwiftCommon/SwiftCommon/DST/Factories/PathHeap.swift:55-95 | after enqueuing, the multiset of records is the old one plus the key |
| PathHeaps.EnqueueNoSwapWhenNotCheaper | SwiftCommon/SwiftCommon/DST/Factories/PathHeap.swift:81 | a key no cheaper than its would-be parent stays at the end (ties are not swapped) |
| PathHeaps.RootNoCostlier | SwiftCommon/SwiftCommon/DST/Factories/PathHeap.swift:29-37 | in heap order, position 0 costs no more than any position |
| PathHeaps.RootIsMinimum | SwiftCommon/SwiftCommon/DST/Factories/PathHeap.swift:29-37 | in heap order, position 0 holds the minimum total |
| PathHeaps.BuildIsHeap | SwiftCommon/SwiftCommon/DST/Factories/PathHeap.swift:52-98 | any enqueue-only history from empty yields a min-heap holding exactly the enqueued records |
| PathHeaps.BuildTopIsMinimum | SwiftCommon/SwiftCommon/DST/Factories/PathHeap.swift:29-37 | after such a history, the peeked total is at most every enqueued total |
| PathHeaps.BuildTopIndependentOfOrder | SwiftCommon/SwiftCommon/DST/Factories/PathHeap.swift:52-98 | enqueuing the same records in any order gives the same minimum total at the top |
| PathHeaps.DeQueueCanBreakHeap | SwiftCommon/SwiftCommon/DST/Factories/PathHeap.swift:42-48 | removing position 0 without a sift-down turns the heap [1, 5, 2] into [5, 2], which is out of order |
| PathOperators.Plus | SwiftCommon/SwiftCommon/File/Operators.swift:56-68 | a trivial left operand gives the right one; else a trivial right operand gives the left one; otherwise the result starts with the left raw value |
| PathOperators.PlusJoinsWithOneSeparator | SwiftCommon/SwiftCommon/File/Operators.swift:59-67 | with two non-trivial operands, the result is the left side without a trailing separator, one separator, then the right side without a leading one |
| PathOperators.PlusSeparatorCases | SwiftCommon/SwiftCommon/File/Operators.swift:59-67 | the three switch cases: drop the right side's first character, insert "/", or concatenate |
| PathOperators.PlusNoDoubleSeparator | SwiftCommon/SwiftCommon/File/Operators.swift:56-68 | if neither operand has two adjacent separators, neither has the result |
| PathOperators.PlusExample | SwiftCommon/SwiftCommon/File/Operators.swift:50-56 | the documented example "/System/Library" + "Fonts" gives "/System/Library/Fonts" |
| PathOperators.PlusStringPath | SwiftCommon/SwiftCommon/File/Operators.swift:72-74 | `String + Path` is the path of the string plus the path |
| PathOperators.PlusPathString | SwiftCommon/SwiftCommon/File/Operators.swift:78-80 | `Path + String` is the path plus the path of the string |
| PathOperators.PlusAssign | SwiftCommon/SwiftCommon/File/Operators.swift:83-85 | `+=` sets the left operand to `lhs + rhs` |
| PathOperators.PlusAssignString | SwiftCommon/SwiftCommon/File/Operators.swift:88-90 | `+=` with a string sets the left operand to `lhs + Path(rhs)` |
| PathOperators.Slash | SwiftCommon/SwiftCommon/File/Operators.swift:95-97 | `/` on two paths equals `+` |
| PathOperators.SlashPathString | SwiftCommon/SwiftCommon/File/Operators.swift:101-103 | `Path / String` equals `Path + String` |
| PathOperators.SlashStringPath | SwiftCommon/SwiftCommon/File/Operators.swift:107-109 | `String / Path` equals `String + Path` |
| PathOperators.SlashAssign | SwiftCommon/SwiftCommon/File/Operators.swift:112-114 | `/=` sets the left operand to `lhs + rhs` |
| PathOperators.SlashAssignString | SwiftCommon/SwiftCommon/File/Operators.swift:117-119 | `/=` with a string sets the left operand to `lhs + Path(rhs)` |
| FilePermissionSets.FlagValues | SwiftCommon/SwiftCommon/File/FilePermissions.swift:9-15 | Read, Write and Execute have raw values 1, 2 and 4, and their union has raw value 7 |
| FilePermissionSets.RawValueKept | SwiftCommon/SwiftCommon/File/FilePermissions.swift:42-44 | `init(rawValue:)` keeps the raw value, and membership of each flag is its bit |
| FilePermissionSets.AppendName | SwiftCommon/SwiftCommon/File/FilePermissions.swift:25-32 | one step appends ", " unless the description is still empty, then the flag's name; for one of the three flags the result is non-empty |
| FilePermissionSets.DescriptionStep | SwiftCommon/SwiftCommon/File/FilePermissions.swift:23-33 | visiting one more flag keeps the description equal to the joined names of the contained flags visited so far |
| FilePermissionSets.Description | SwiftCommon/SwiftCommon/File/FilePermissions.swift:21-36 | the loop yields the type name and, in brackets, the names of the contained flags in the order of the flag list, joined by ", " |
| FilePermissionSets.DescriptionNamesInOrder | SwiftCommon/SwiftCommon/File/FilePermissions.swift:23-33 | the names listed are exactly the contained ones, in the order Read, Write, Execute |
| FilePermissionSets.JoinEnds | SwiftCommon/SwiftCommon/File/FilePermissions.swift:25 | the joined names start with the first name and end with the last: no leading or trailing separator |
| FilePermissionSets.JoinEmpty | SwiftCommon/SwiftCommon/File/FilePermissions.swift:25 | non-empty names join to the empty string only when there are none |
| FilePermissionSets.JoinAllNames | SwiftCommon/SwiftCommon/File/FilePermissions.swift:25-32 | the three names join to "Read, Write, Execute" |
| FilePermissionSets.DescriptionOfNone | SwiftCommon/SwiftCommon/File/FilePermissions.swift:21-36 | raw value 0 describes as "FilePermissions[]" |
| FilePermissionSets.DescriptionOfAll | SwiftCommon/SwiftCommon/File/FilePermissions.swift:21-36 | raw value 7 describes as "FilePermissions[Read, Write, Execute]" |
| FilePermissionSets.DescriptionIgnoresOtherBits | SwiftCommon/SwiftCommon/File/FilePermissions.swift:23-24 | two raw values that agree on bits 1, 2 and 4 have the same description |
| FilePermissionSets.ForPath | SwiftCommon/SwiftCommon/File/FilePermissions.swift:50-56 | Read iff readable, Write iff writable, Execute iff executable, and the raw value is at most 7 |
| MomentUnits.TimeUnitFromRaw | SwiftCommon/SwiftCommon/Moment/Moment.swift:8-17 | a unit is found only for its own one-letter name, and nothing is found for a name no unit has |
| MomentUnits.RawValueRoundTrip | SwiftCommon/SwiftCommon/Moment/Moment.swift:8-17 | every unit's raw name parses back to that unit |
| MomentUnits.ConstantsAgree | SwiftCommon/SwiftCommon/Moment/Moment.swift:499-504 | the constants are a 60-second minute, 60-minute hour, 24-hour day, 7-day week, 30-day month and 365-day year |
| MomentUnits.Convert | SwiftCommon/SwiftCommon/Moment/Moment.swift:790-809 | the corrected conversion agrees with the code as written for every unit except weeks |
| MomentUnits.ConvertAsWritten | SwiftCommon/SwiftCommon/Moment/Moment.swift:790-809 | `convert` as written: each unit's factor is its seconds constant (a quarter is three months), except weeks, whose factor is 1000 more than the week constant |
| MomentUnits.ConvertAsWrittenWeekIsOff | SwiftCommon/SwiftCommon/Moment/Moment.swift:800-801 | as written, a week converts to seven days plus 1000 seconds, not to the week constant |
| MomentUnits.ConvertAgreesWithConstants | SwiftCommon/SwiftCommon/Moment/Moment.swift:790-809 | corrected, each unit's factor is built from the next finer unit as the comments say (a week is 7 days) |
| MomentUnits.SecondsDuration | SwiftCommon/SwiftCommon/Moment/Moment.swift:214-216 | `n.seconds` is a duration of n seconds |
| MomentUnits.MinutesDuration | SwiftCommon/SwiftCommon/Moment/Moment.swift:218-220 | `n.minutes` is n times the minute constant |
| MomentUnits.HoursDuration | SwiftCommon/SwiftCommon/Moment/Moment.swift:222-224 | `n.hours` is n times the hour constant |
| MomentUnits.DaysDuration | SwiftCommon/SwiftCommon/Moment/Moment.swift:226-228 | `n.days` is n times the day constant |
| MomentUnits.MonthsDuration | SwiftCommon/SwiftCommon/Moment/Moment.swift:230-232 | `n.months` is n times the month constant |
| MomentUnits.QuartersDuration | SwiftCommon/SwiftCommon/Moment/Moment.swift:234-236 | `n.quarters` is n times three months |
| MomentUnits.YearsDuration | SwiftCommon/SwiftCommon/Moment/Moment.swift:238-240 | `n.years` is n times the year constant |
| MomentUnits.ExtensionsAgreeWithConvert | SwiftCommon/SwiftCommon/Moment/Moment.swift:213-241 | `n.seconds` … `n.years` carry the factor `convert` uses for their unit |
| MomentUnits.AddInterval | SwiftCommon/SwiftCommon/Moment/Moment.swift:691-696 | the date moves by the interval `convert` gives as written (605800 seconds per week), and the result has the default time zone and locale |
| MomentUnits.SubtractInterval | SwiftCommon/SwiftCommon/Moment/Moment.swift:709-711 | the date moves back by the interval `convert` gives as written; it is adding the negated value |
| MomentUnits.IntervalShiftAgainstConvert | SwiftCommon/SwiftCommon/Moment/Moment.swift:691-711 | adding or subtracting an interval moves the date by the corrected conversion for every unit but weeks, and one week moves it 1000 seconds more than the week constant |
| MomentUnits.AddDuration | SwiftCommon/SwiftCommon/Moment/Moment.swift:705-707 | the date moves by the duration's seconds, and the result has the defaults |
| MomentUnits.SubtractDuration | SwiftCommon/SwiftCommon/Moment/Moment.swift:724-726 | the date moves back by the duration's seconds, and the result has the defaults |
| MomentUnits.DurationRoundTrip | SwiftCommon/SwiftCommon/Moment/Moment.swift:705-726 | subtracting a duration undoes adding it, and the reverse |
| MomentUnits.GetByName | SwiftCommon/SwiftCommon/Moment/Moment.swift:637-642 | nothing exactly for an unknown name; otherwise the field of the named unit |
| MomentUnits.AddByName | SwiftCommon/SwiftCommon/Moment/Moment.swift:698-703 | the moment itself for an unknown name; otherwise calendar addition in the named unit |
| MomentUnits.SubtractByUnit | SwiftCommon/SwiftCommon/Moment/Moment.swift:713-715 | calendar addition of the negated value |
| MomentUnits.SubtractByName | SwiftCommon/SwiftCommon/Moment/Moment.swift:717-722 | the moment itself for an unknown name; otherwise calendar addition of the negated value |
| MomentUnits.StartOfByName | SwiftCommon/SwiftCommon/Moment/Moment.swift:766-771 | the moment itself for an unknown name; otherwise the start of the named unit |
| MomentUnits.EndOf | SwiftCommon/SwiftCommon/Moment/Moment.swift:773-775 | one second before the start of the unit plus one unit, with the default time zone and locale |
| MomentUnits.EndOfByName | SwiftCommon/SwiftCommon/Moment/Moment.swift:777-782 | the moment itself for an unknown name; otherwise the end of the named unit |
| MomentUnits.StartOfFields | SwiftCommon/SwiftCommon/Moment/Moment.swift:735-761 | seconds leave the fields alone; every coarser unit clears the second, hours and up clear the minute, days and up clear the hour; weeks move the day to `day - (weekday - 2)`; months, quarters and years set day 1; years set month 1; year and weekday never change |
| MomentFromNow.FromNow | SwiftCommon/SwiftCommon/Moment/Moment.swift:83-149 | the bucket picked is the one whose threshold range holds the delta, and a counted bucket reports the integer quotient of the delta by its unit |
| MomentFromNow.FromNowExactlyOneBucket | SwiftCommon/SwiftCommon/Moment/Moment.swift:89-148 | every delta lies in exactly one bucket, the one `fromNow` picks |
| MomentFromNow.FromNowMonotonic | SwiftCommon/SwiftCommon/Moment/Moment.swift:89-148 | a longer elapsed time never lands in an earlier bucket |
| MomentFromNow.FromNowJustNow | SwiftCommon/SwiftCommon/Moment/Moment.swift:89-91 | any delta below 5 seconds, a future moment included, is "just now" |
| MomentFromNow.FromNowExamples | SwiftCommon/SwiftCommonTests/SwiftCommonMomentTests.swift:32-94 | the English test's elapsed times give the buckets and counts it expects |
| MomentFromNow.BucketsDisjoint | SwiftCommon/SwiftCommon/Moment/Moment.swift:89-148 | the thresholds ascend, so no delta lies in two buckets |
| MomentFromNow.SwiftRemainder | SwiftCommon/SwiftCommon/Moment/Moment.swift:193-194 | Swift's `%` is the Euclidean remainder for a non-negative dividend, takes the dividend's sign, and is smaller in magnitude than the divisor |
| MomentFromNow.PluralSuffix | SwiftCommon/SwiftCommon/Moment/Moment.swift:187-210 | no suffix for a missing or non-Russian language, nor for a negative count; the suffix is always "", "_" or "__" |
| MomentFromNow.PluralSuffixRussian | SwiftCommon/SwiftCommon/Moment/Moment.swift:192-207 | for Russian: "__" exactly when the count ends in 1 but not 11, "_" exactly when it ends in 2 to 4 but not 12 to 14 |
| MomentFromNow.PluralSuffixExamples | SwiftCommon/SwiftCommon/Moment/Moment.swift:192-209 | 1 and 21 take "__", 2 and 24 take "_", 5, 11 and 12 take none, and English takes none |
| MomentBuild.ComponentsFromParams | SwiftCommon/SwiftCommon/Moment/Moment.swift:380-409 | nothing for an empty list; otherwise the first six values fill year, month, day, hour, minute and second in that order, and missing ones stay unset |
| MomentBuild.CollectLength | SwiftCommon/SwiftCommon/Moment/Moment.swift:413-432 | the collected list has at most one value per key, holds every key's value in order when all are present, and is empty exactly when none is |
| MomentBuild.ParamsFromDict | SwiftCommon/SwiftCommon/Moment/Moment.swift:414-432 | the list built is the values of year, month, day, hour, minute and second that are present, in that order |
| MomentBuild.ComponentsFromDict | SwiftCommon/SwiftCommon/Moment/Moment.swift:411-436 | nothing exactly when none of the six keys is present; otherwise the collected values are assigned positionally, and with all six keys each lands in its own field |
| MomentBuild.MissingYearShiftsMonth | SwiftCommon/SwiftCommon/Moment/Moment.swift:414-433 | with only a month key, the collected list is just the month's value; by `ComponentsFromDict`'s positional ensures, that value becomes the year component |
| MomentBuild.Maximum | SwiftCommon/SwiftCommon/Moment/Moment.swift:472-483 | nothing for no moments; otherwise the first of the latest moments |
| MomentBuild.Minimum | SwiftCommon/SwiftCommon/Moment/Moment.swift:485-496 | nothing for no moments; otherwise the first of the earliest moments |
| MomentBuild.FirstLatestUnique | SwiftCommon/SwiftCommon/Moment/Moment.swift:472-483 | only one position can hold the first latest moment, so `maximum`'s result is determined |

## Findings

| source | as written | input that shows it | evidently intended | confidence | as-written member | corrected member |
|---|---|---|---|---|---|---|
| SwiftCommon/SwiftCommon/Moment/Moment.swift:800-801 | `convert` multiplies weeks by 605800, commented "7 days" | `add(1, .Weeks)` with the interval overload moves the date by 605800 seconds, 1000 more than `weekInSeconds` = 604800 | a week is 7 × 86400 = 604800 seconds, as the comment and the constant at line 502 say | high (not executed) | MomentUnits.ConvertAsWrittenWeekIsOff | MomentUnits.ConvertAgreesWithConstants |

`ConvertAsWritten` keeps the factors as written, and `Convert` is proved to agree with it for every unit except weeks. `AddInterval` and `SubtractInterval` follow the code and use the factor as written; `IntervalShiftAgainstConvert` states how far they stray from the corrected `Convert` (only for weeks, by 1000 seconds per week). `AddDuration`, `SubtractDuration` and `EndOf` convert seconds only, where both agree.

## Left out

- Calendar and Foundation work is outside the model:
  - `NSCalendar` field extraction and calendar addition, `dateFromComponents`, formatting and parsing, and the localized string bundle.
  - The calendar operations appear as function parameters. `startOf` is modelled on the date fields it edits, before the date is rebuilt.
  - `moment(params:)` and `moment(dict:)` are modelled up to the components handed to the calendar. The case where the calendar cannot build a date, which gives nil, is not modelled.
- Dates and intervals are whole seconds (`int`), whereas the source uses `NSDate`/`Double`. The comparisons in `maximum`/`minimum` use the sign of the date difference, as the source does.
- `MomentFromNow.FromNow`: the elapsed time is an input. Reading the clock and the `Int(Double)` truncation of the interval are left out. The source also routes each count through `Float`, which rounds only above 2^24 units (over sixteen million years), and that rounding is not modelled.
- `MomentFromNow.PluralSuffix`: the source floors a `Double` count first; the model takes the floored integer. The preferred language is an input.
- Swift `Int` is 64 bits and traps on overflow. The duration extensions, `SwiftRemainder` and `fromNow` are modelled on unbounded integers, so overflow traps are not modelled.
- `convert` and the interval overloads of `add`/`subtract` work on `Double` values; the model uses whole seconds, so rounding of large or fractional intervals is not modelled.
- `PathHeaps.PathHeap.EnQueue`: the source keeps the child index as a `Float` and converts it with `floorf`. That is exact for any heap under 2^24 records, and the model uses integer `(c - 1) / 2`.
- `PathDS` is a class held by reference in the source; the model makes a record an immutable value. A caller that changes the `total` of a queued record, silently breaking heap order, cannot be expressed, nor can aliasing between queued records.
- `PathDS.total` is an implicitly unwrapped `Int!` in the source; the model assumes it is always set. `Vertex` is not part of this model beyond an identity. `previous` is an optional record.
- `Path` itself is not part of this model. A path is its raw string, and `Path(s)` keeps `s`.
- Swift's `hasPrefix`/`hasSuffix` compare grapheme clusters, and the model compares characters. These agree for the `/` separator except when a combining mark follows it.
- The other operators of `Operators.swift` are not modelled:
  - the move, copy and link operators are filesystem effects;
  - `==`, `<^>`, `%`, `*` and `^` depend on `Path` members that are not part of this model.
- In `FilePermissions`, `init(forFile:)` only forwards to `init(forPath:)`. The file system queries behind `isReadable`, `isWritable` and `isExecutable` are inputs. The raw `Int` is kept as its 64-bit two's-complement pattern (`bv64`), so membership and union are bitwise.
- `add(value: Int, unit)` builds calendar components and is left to the calendar parameter. The `Double`-valued `Duration` accessors, `isCloseTo`, `format` and `description` are not modelled.
