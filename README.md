# populate_dw: a verified model of the warehouse loader's core

`populate_dw.py` fills a PostgreSQL star schema with synthetic rows. It builds
the date dimension (one row per day, 2014-01-01 .. 2026-12-31), the customer,
cinema, promotion and showing dimensions, and one million transaction rows. The
transaction rows are streamed in batches through `COPY ... FROM STDIN (FORMAT
text)`. Underneath the database calls and the random draws is a deterministic
core, and this project models that core in Dafny:

- `calendar.dfy` (module `Calendar`): proleptic Gregorian dates as Python's
  `datetime.date` holds them (years 1..9999).
  - The ordinal `toordinal` is proved a bijection onto 1..3652059.
  - `date + timedelta` is ordinal arithmetic that fails past `date.max`.
  - It also holds `weekday`, `yyyymmdd` and `week_start_monday`.
- `iso_week.dfy` (module `IsoWeek`): `date.isocalendar()` as CPython computes
  it (the Monday of week 1, then a divmod by 7 with its two correction
  branches). It is proved equal to the ISO 8601 rule: a date belongs to the
  ISO year of the Thursday of its Monday-first week. `year_week_iso` is also
  here.
- `date_dim.dfy` (module `DateDimension`): the `populate_date_dt` loop.
- `labels.dfy` (module `Labels`): the threshold ladders `period_from_hour`,
  the customer age bracket and the hall-size bucket.
- `chunks.dfy` (module `Chunking`): `chunks(xs, size)`.
- `dimensions.dfy` (module `Dimensions`): the row loops of
  `populate_customers`, `populate_cinemas`, `populate_promotions` and
  `populate_showings`. Each random or Faker draw is an element of an input
  sequence.
- `fact.dfy` (module `Fact`): one transaction row built from its draws, and
  the sequence of rows with their transaction ids.
- `copy_text.dfy` (module `CopyText`): the COPY text line of a row, with tab
  separators, `\N` for NULL and `t`/`f` for booleans. A decoder is proved to
  invert it, for one line and for a whole buffer.
- `fact_load.dfy` (module `FactLoad`): the `while inserted < FACT_ROWS` batch
  loop and the inner `for i in range(n)` loop that writes the buffer.
- `decimal.dfy` (module `Decimal`) and `common.dfy` (module `Common`): decimal
  printing and parsing of integers, plus `Option`/`Result`, `Flatten` and small
  arithmetic facts.

Loops in the source stay loops here. These are the date loop, the customer,
cinema, promotion and showing loops, `chunks`, the fact batch loop and its
line-writing loop. Each is a `method` proved against a specification function.
The expression-only helpers are functions with lemmas.

## Model

| member | source | states |
|---|---|---|
| Calendar.DayNumber | populate_dw.py:60-65 | A date's ordinal lies inside its own year and within 1 .. the ordinal of 9999-12-31 |
| Calendar.DaysBeforeYearFormula | populate_dw.py:125 | The recursive day count before year y equals the closed form 365(y-1) + (y-1)/4 - (y-1)/100 + (y-1)/400 |
| Calendar.DateLe | populate_dw.py:111 | The loop guard `d <= DATE_END`: lexicographic order on (year, month, day); DayNumberOrder states that it is the order of the ordinals |
| Calendar.DayNumberOrder | populate_dw.py:111 | The ordinal orders dates exactly as calendar order does: <, <= and equality each hold iff they hold of the ordinals |
| Calendar.FromDayNumber | populate_dw.py:125 | Every ordinal in range is the ordinal of the date returned |
| Calendar.FromDayNumberOfDayNumber | populate_dw.py:125 | Going from a date to its ordinal and back gives the date, so the ordinal is a bijection |
| Calendar.MaxDateOrdinal | populate_dw.py:125 | 9999-12-31 is the one date whose ordinal is the largest |
| Calendar.AddDays | populate_dw.py:125 | `d + timedelta(days=k)` exists iff the ordinal plus k stays in range, and then it is the date of that ordinal |
| Calendar.WeekdayOfOrdinal | populate_dw.py:65 | `weekday()` of an ordinal, (n + 6) mod 7, lies in 0..6 (Monday = 0); MondayOrdinals and FirstDayIsMonday state which ordinals are Mondays |
| Calendar.Weekday | populate_dw.py:123 | `d.weekday()` (also used at line 65): the weekday of the date's ordinal, in 0..6 |
| Calendar.MondayOrdinals | populate_dw.py:64-65 | Mondays are exactly the ordinals 7q+1, and n minus its weekday is such an ordinal |
| Calendar.FirstDayIsMonday | populate_dw.py:64 | Sanity check on one date: 0001-01-01 has weekday 0 (Monday), the origin of the weekday count |
| Calendar.Weekday20140101 | populate_dw.py:37 | Sanity check on one date, not a general fact: DATE_START, 2014-01-01, has weekday 2 (Wednesday) |
| Calendar.Weekday20261231 | populate_dw.py:38 | Sanity check on one date, not a general fact: DATE_END, 2026-12-31, has weekday 3 (Thursday) |
| Calendar.Yyyymmdd | populate_dw.py:60-61 | `year * 10000 + month * 100 + day`; its contract is stated by YyyymmddDigits and YyyymmddMonotone |
| Calendar.YyyymmddDigits | populate_dw.py:60-61 | The key's digits give back year, month and day, and the key lies in 10101 .. 99991231 |
| Calendar.YyyymmddMonotone | populate_dw.py:60-61 | The key is strictly increasing in calendar order (iff), and injective |
| Calendar.WeekStartMonday | populate_dw.py:63-65 | The result is a Monday, is on or before d, and is at most 6 days before d |
| Calendar.WeekStartMondayIdempotent | populate_dw.py:63-65 | A Monday maps to itself, so applying it twice equals applying it once |
| Calendar.WeekStartMondayIsLatest | populate_dw.py:63-65 | Every Monday on or before d is on or before d's week start, so the result is the latest such Monday |
| IsoWeek.Week1Monday | populate_dw.py:69 | CPython's `_isoweek1monday`: the Monday on or before Jan 1 of year y when Jan 1 falls Monday to Thursday, else the Monday after it; its contract is stated by Week1MondayFacts and Week1MondayStep |
| IsoWeek.Week1MondayFacts | populate_dw.py:67-70 | The Monday of ISO week 1 is a Monday, and its Thursday falls in Jan 1 .. Jan 7 of the year |
| IsoWeek.Week1MondayStep | populate_dw.py:67-70 | Consecutive ISO years are 52 or 53 weeks long |
| IsoWeek.IsoYearUnique | populate_dw.py:67-70 | A day lies in the span of exactly one ISO year |
| IsoWeek.IsoCalendar | populate_dw.py:119 | `d.isocalendar()` (also used at line 69): CPython's algorithm on the date's year and ordinal; the ISO year is at least 1, and IsoCalendarMeaning states the full week-date meaning |
| IsoWeek.IsoOfOrdinal | populate_dw.py:69 | The body of `isocalendar()` for an ordinal of year y, with its week < 0 and week >= 52 branches; the ISO year is at least 1, and IsoOfOrdinalMeaning with its three case lemmas states what it computes |
| IsoWeek.IsoCalendarMeaning | populate_dw.py:69 | `isocalendar()` gives the ISO year whose week-1 Monday is on or before the day while the next one is after it; the week is the whole weeks since that Monday + 1 (1..53) and the weekday runs Monday = 1 .. Sunday = 7; the ISO year is within one of the calendar year |
| IsoWeek.IsoOfOrdinalMeaning | populate_dw.py:69 | The same for CPython's algorithm on an ordinal within year y |
| IsoWeek.IsoOfOrdinalBefore | populate_dw.py:69 | When the divmod gives a negative week, the day belongs to ISO year y-1 |
| IsoWeek.IsoOfOrdinalAfter | populate_dw.py:69 | When the day is on or after next year's week-1 Monday, it belongs to ISO year y+1 |
| IsoWeek.IsoOfOrdinalWithin | populate_dw.py:69 | Otherwise it belongs to ISO year y |
| IsoWeek.IsoThursdayRule | populate_dw.py:67-70 | ISO 8601 rule: the ISO year is the calendar year of the Thursday of the day's Monday-first week, and the week number counts that Thursday's weeks in its year |
| IsoWeek.YearWeekIso | populate_dw.py:67-70 | `iso_year * 100 + iso_week`; its contract is stated by YearWeekIsoDigits and YearWeekIsoMonotone |
| IsoWeek.YearWeekIsoDigits | populate_dw.py:67-70 | `year_week_iso` / 100 is the ISO year and % 100 is the ISO week |
| IsoWeek.YearWeekIsoMonotone | populate_dw.py:67-70 | `year_week_iso` never decreases along the calendar |
| IsoWeek.IsoDateMonotone | populate_dw.py:67-70 | A later day never has a smaller (ISO year, week) key |
| DateDimension.DateRowOf | populate_dw.py:112-124 | The row the loop appends for day d, without the two strftime columns; DateRowOfMeaning states every column |
| DateDimension.DateRowOfMeaning | populate_dw.py:112-124 | A day's row: the key digits are the date, week_of_year is the ISO week of d (1..53), the year-week digits are the ISO year and week, the week start is the Monday at most 6 days before, is_weekend iff weekday is 5 or 6 |
| DateDimension.PopulateDateRows | populate_dw.py:108-125 | The loop fails with OverflowError iff the range is non-empty and ends on 9999-12-31; otherwise row i is the row of start + i days, for exactly the days of [start, end] |
| DateDimension.AppendDay | populate_dw.py:112-125 | Appending the next day's row keeps the rows dated consecutively from start, each the row of its own date |
| DateDimension.DaysFromCovers | populate_dw.py:110-125 | Every day of [start, end] has its row, at its offset from start |
| DateDimension.OneRowPerDayIncreasing | populate_dw.py:110-125 | Rows run in strictly increasing date order and their keys strictly increase |
| DateDimension.ConfiguredDateRange | populate_dw.py:37-38 | The configured range is non-empty, holds 4748 days and does not end on date.max |
| Labels.PeriodFromHour | populate_dw.py:72-77 | Morning iff 6 <= h <= 11, Afternoon iff 12 <= h <= 17, Night iff h < 6 or h > 17 |
| Labels.PeriodFromHourText | populate_dw.py:72-77 | The returned text is "Morning" iff 6 <= h <= 11, "Afternoon" iff 12 <= h <= 17, "Night" iff h < 6 or h > 17 |
| Labels.PeriodNameInjective | populate_dw.py:74-77 | The three period texts are distinct, so the text determines the period |
| Labels.AgeInYears | populate_dw.py:142 | The age is the floor of the day difference over 365 |
| Labels.AgeGroupOf | populate_dw.py:143-152 | The bracket ladder, first of <= 20, <= 30, <= 40, <= 50, else "51+"; its contract is stated by AgeGroupOfIsUnique, AgeGroupOfText and AgeGroupMonotone |
| Labels.AgeGroupOfText | populate_dw.py:143-152 | The stored text is "0-20" iff age <= 20, "21-30" iff 21..30, "31-40" iff 31..40, "41-50" iff 41..50, "51+" iff age >= 51 |
| Labels.AgeGroupNameInjective | populate_dw.py:143-152 | The five bracket texts are distinct |
| Labels.AgeGroupOfIsUnique | populate_dw.py:143-152 | Each age gets exactly one bracket, the one whose range holds it |
| Labels.AgeGroupMonotone | populate_dw.py:143-152 | An older age never gets a younger bracket |
| Labels.HallSizeOf | populate_dw.py:199-205 | Small iff capacity < 140, Mid iff 140 <= capacity < 240, Large iff capacity >= 240 |
| Labels.HallSizeOfText | populate_dw.py:199-205 | The stored text is "Small" iff capacity < 140, "Mid" iff 140 <= capacity < 240, "Large" iff capacity >= 240 |
| Labels.HallSizeNameInjective | populate_dw.py:200-205 | The three size texts are distinct |
| Labels.HallSizeMonotone | populate_dw.py:199-205 | A larger capacity never gets a smaller bucket |
| Chunking.Chunks | populate_dw.py:79-81 | A step of 0 raises ValueError, a negative size gives no pieces, else the pieces of ChunksOf |
| Chunking.ChunksOfFlatten | populate_dw.py:79-81 | The pieces concatenate back to the input |
| Chunking.ChunksOfSizes | populate_dw.py:79-81 | Every piece is non-empty and at most size long, and every piece but the last is exactly size long |
| Chunking.ChunksOfCount | populate_dw.py:79-81 | There are ceil(|xs| / size) pieces |
| Dimensions.GenderNameInjective | populate_dw.py:136 | The two gender texts "M" and "F" are distinct |
| Dimensions.ReplaceNewlines | populate_dw.py:158 | The result has no line break, and an address with none is unchanged |
| Dimensions.ReplaceNewlinesConcat | populate_dw.py:158 | The replacement distributes over concatenation |
| Dimensions.ReplaceNewlinesChar | populate_dw.py:158 | A line feed becomes ", " and any other character stays itself; with ReplaceNewlinesConcat this fixes the result on every string |
| Dimensions.CustomerRowOf | populate_dw.py:138-161 | The row keeps the id and the draws, its age group holds the age on `today`, and its address has no line break |
| Dimensions.PopulateCustomers | populate_dw.py:135-169 | Row k is customer k+1's row from draw k, and the insert batches are the 10,000-row chunks, which concatenate to the rows |
| Dimensions.CinemaRowOf | populate_dw.py:197-214 | The row keeps id, capacity and street, its name is CinemaName(id), its city/state pair is the drawn entry of CITIES, and its size bucket follows the thresholds |
| Dimensions.PopulateCinemas | populate_dw.py:195-214 | Row k is cinema k+1's row from draw k |
| Dimensions.CinemaName | populate_dw.py:208 | `f"Cinema {i}"`: "Cinema " followed by the decimal id; CinemaNameInjective states that it is injective |
| Dimensions.CinemaNameInjective | populate_dw.py:208 | "Cinema {i}" names are equal iff the ids are |
| Dimensions.CinemaNamesDistinct | populate_dw.py:197-214 | No two cinemas of one run share a name |
| Dimensions.PromotionRowOf | populate_dw.py:226-234 | A "None" promotion has discount 0, any other has the drawn value; the description is the type name + " promotion" |
| Dimensions.ZeroDiscountIffNone | populate_dw.py:228 | With the draw in [5, 35], the discount is 0 iff the type is "None" |
| Dimensions.PromoTypeNameInjective | populate_dw.py:224 | The promotion type names are pairwise distinct |
| Dimensions.PopulatePromotions | populate_dw.py:223-234 | Row k is promotion k+1's row from draw k |
| Dimensions.ShowingCount | populate_dw.py:259-262 | The loop emits min(N, 72) rows for N >= 1, and exactly 1 row for N <= 0, because the first row is appended before the cap is tested |
| Dimensions.ShowingRowOf | populate_dw.py:250-257 | Row k has id k+1, hour (id-1) div 3, and the period of that hour |
| Dimensions.PopulateShowings | populate_dw.py:243-262 | The nested loop with its two breaks emits ShowingCount(N) rows, row k being ShowingRowOf(k) with its drawn minute |
| Dimensions.ShowingIdsConsecutive | populate_dw.py:246-258 | Ids differ exactly by their row distance, and hours never go back |
| Dimensions.ConfiguredShowings | populate_dw.py:32 | With N_SHOWINGS = 72: 72 rows, the last at hour 23 (Night), with Morning and Afternoon rows at hours 6 and 12 |
| Fact.FactRowOf | populate_dw.py:313-332 | The transaction row of one draw: sampled keys, `np.where` for promotion, browser and pay method; FactRowOfMeaning states its columns |
| Fact.FactRows | populate_dw.py:313-341 | Draw i becomes the row with transaction id start + i, one row per draw; TransactionIds states the ids |
| Fact.FactRowOfMeaning | populate_dw.py:313-332 | Every key is a member of its pool; the promotion is NULL iff not has_promo, the browser iff offline; the pay method comes from the channel's vocabulary |
| Fact.TransactionIds | populate_dw.py:341 | Transaction ids strictly increase, and are exactly start .. start + n - 1 |
| Fact.FactRowsPrefix | populate_dw.py:341 | The rows of a prefix of the draws are the prefix of the rows |
| CopyText.FactFields | populate_dw.py:347-353 | The twelve column texts of a row, in the order of `cols`; FactFieldsMarkers, FactFieldsNumbers and FactFieldsFree state each field |
| CopyText.SplitJoin | populate_dw.py:350-354 | Splitting a join at the separator gives back the fields when no field holds the separator |
| CopyText.NullableInt | populate_dw.py:347 | `promo_val`: `\N` for an absent key, else `str(int(key))`; NullableIntFacts and FactFieldsMarkers state its contract |
| CopyText.NullableBrowser | populate_dw.py:349 | `brow_val`: `\N` for an absent browser, else its name; FactFieldsMarkers and NullableBrowserFree state its contract |
| CopyText.BoolText | populate_dw.py:353 | The online text `t` or `f`; FactFieldsMarkers states that it is `t` iff online and `f` iff not |
| CopyText.NullableIntFacts | populate_dw.py:347 | The promotion text is `\N` iff the key is absent, never holds a tab or line feed, and parses back to the key |
| CopyText.FactFieldsFree | populate_dw.py:347-354 | No field of a row holds a tab or a line feed |
| CopyText.FactFieldsMarkers | populate_dw.py:347-354 | The promotion field is `\N` iff no promotion, the browser field is `\N` iff no browser, the online field is `t` iff online and `f` iff not, and the pay method, browser and price are their own texts |
| CopyText.FactFieldsNumbers | populate_dw.py:351-353 | Every numeric field parses back to the row's value |
| CopyText.EncodeFactLine | populate_dw.py:350-354 | The line ends in a line feed |
| CopyText.EncodeFactLineFields | populate_dw.py:350-354 | The line holds no other line feed, and the text before it splits at the tabs into exactly the twelve fields |
| CopyText.DecodeEncodeFactLine | populate_dw.py:350-354 | Decoding a row's line gives back the row |
| CopyText.EncodeFactLineInjective | populate_dw.py:350-354 | Two rows have the same line iff they are equal |
| CopyText.EncodeBuffer | populate_dw.py:344-355 | The StringIO text after writing the rows' lines in order; EncodeBufferConcat, EncodeBufferStep and DecodeEncodeBuffer state its contract |
| CopyText.EncodeBufferConcat | populate_dw.py:345-355 | The buffer of a concatenation is the concatenation of the buffers |
| CopyText.DecodeEncodeBuffer | populate_dw.py:344-356 | A whole buffer of lines decodes back to its rows |
| FactLoad.BatchPlan | populate_dw.py:309-310 | The sizes `n = min(FACT_BATCH_COPY, FACT_ROWS - inserted)` taken while rows remain; BatchPlanSum, BatchPlanSizes, BatchPlanChunks and BatchPlanCount state its contract |
| FactLoad.BatchPlanSum | populate_dw.py:309-310 | The batch sizes add up to FACT_ROWS (0 if that is not positive), so the loop ends with inserted = FACT_ROWS |
| FactLoad.BatchPlanSizes | populate_dw.py:310 | Every batch holds 1 .. FACT_BATCH_COPY rows, and every batch but the last is full |
| FactLoad.BatchPlanChunks | populate_dw.py:310 | The batch sizes are the sizes of `chunks` of the rows by FACT_BATCH_COPY |
| FactLoad.BatchPlanCount | populate_dw.py:309-310 | There are ceil(FACT_ROWS / FACT_BATCH_COPY) batches |
| FactLoad.ConfiguredBatchPlan | populate_dw.py:34-35 | The configured run is five batches of 200,000 rows |
| FactLoad.EncodeBatchesFlatten | populate_dw.py:344-362 | The batch buffers, one after another, are the buffer of all rows |
| FactLoad.LoadedRows | populate_dw.py:309-365 | A run writes max(FACT_ROWS, 0) rows |
| FactLoad.PopulateFact | populate_dw.py:280-365 | Fails with ValueError iff rows are due and a key pool is empty or the batch size is negative (n < 0 at :310 makes the sampling at :313 raise). Otherwise, for a positive batch size: inserted is the row count, sizes are the batch plan, buffers are the encodings of consecutive chunks of the rows, and together they are all rows' encoding. A successful run with an empty pool or a non-positive batch size (possible only with no rows due) writes nothing |
| FactLoad.CopyBatches | populate_dw.py:305-365 | The loop's final inserted count, batch sizes and buffers are the plan and the chunk encodings |
| FactLoad.CopyBatch | populate_dw.py:310-355 | One pass of the loop body: n = min(batch, FACT_ROWS - inserted), and the written batches, sizes and buffers extended by this batch still satisfy the loop invariant Written |
| FactLoad.WrittenAll | populate_dw.py:309 | When the loop exits, the batches written are exactly the chunks, with sizes and buffers to match |
| FactLoad.LoopStep | populate_dw.py:310-365 | One iteration, taking n = min(batch, remaining) and writing its buffer, keeps the loop invariant with inserted + n |
| FactLoad.WriteBatch | populate_dw.py:344-355 | The inner loop's buffer is the encoding of the batch's rows, numbered from the batch's first transaction id |
| FactLoad.EncodeBufferStep | populate_dw.py:355 | Writing row i's line extends the buffer of rows[..i] to that of rows[..i+1] |
| Decimal.IntToString | populate_dw.py:351-353 | `str(int(v))`: an optional minus sign and the decimal digits; IntToStringShape, IntToStringRoundTrip and IntToStringInjective state its contract |
| Decimal.IntToStringRoundTrip | populate_dw.py:351-353 | The decimal text `str(int(v))` of any integer parses back to it |
| Decimal.IntToStringInjective | populate_dw.py:351-353 | Distinct integers print differently |
| Decimal.NatToStringRoundTrip | populate_dw.py:208 | The digits of a natural number read back as its value |

## Left out

- Database access: `connect`, `fetch_all_keys`, `ensure_empty`, `fetch_date_id_years`, `execute_values`, `copy_expert`, `commit`, the final COUNT query and `main`. These are PostgreSQL I/O. The key pools enter as a parameter. The rows and COPY buffers a loader would submit are returned as values.
- Randomness: every Faker, `random` and `np.random` draw is an input. This covers dates of birth, names, addresses, genders, cities, capacities, promotion types, the discount draw, minutes, sampled keys, flags, tickets and prices. The model does not restrict their distributions beyond the ranges the code draws from (CITIES, 1..6 tickets, the listed minutes).
- Floating point: the log-normal price, `np.clip`, `np.round` and `float(...)` text. The price is an opaque text that is non-empty and holds no tab or line feed. The discount is an exact real.
- `strftime("%B")` and `strftime("%a")`: locale formatting. The date row omits the month name and day abbreviation.
- `date.today()`: the wall clock, taken as the `today` parameter.
- `populate_movies`: only Faker and `random` draws, outside the core.
- `time_from_hour`'s `datetime(...).time()`: a showing keeps just (hour, minute).
- The unused `years` array (populate_dw.py:292) and the progress `print`s.
- Integer width: `np.int64` keys and ids are unbounded integers. The configured ids stay far below 2^63.
- FactLoad.PopulateFact: requires a batch size other than 0 whenever rows are due (FACT_ROWS > 0). Then every `n` is 0, each empty batch is sent, `inserted` never grows, and the source's loop never ends. With no rows due, batch size 0 is accepted and the run writes nothing. The configured value is 200,000.
- FactLoad.CopyBatch: its new buffer is stated through the Written loop predicate, not as an explicit equation. WriteBatch states that equation.
- Calendar.FromDayNumber: turns an ordinal back into a date by a year and month search of its own, not by CPython's `_ord2ymd`. It is proved to be the inverse of `toordinal`.
