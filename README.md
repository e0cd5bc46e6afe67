# XMLTV grabber model

A Dafny model of tvheadend's XMLTV grabber module, `src/epggrab/module/xmltv.c`.
The module ingests an already-parsed XMLTV document (an htsmsg tag tree) into
the electronic programme guide. It covers:

- the `tv` listing: feed channels with their display name and icon, and
  programmes with their broadcast, series link and episode;
- the `xmltv-lineups` document: channels renumbered, renamed and re-iconed
  from a provider's lineup;
- the listing of installed grabbers, split into modules.

The model is organised by concern, one module per file:

| file | module | what it holds |
|---|---|---|
| `common.dfy` | `Common` | `Option`, the `uint16_t` counter type with its wrap-around, C's truncating `/` and `%` |
| `htsmsg.dfy` | `Htsmsg` | the tag tree (`attrib`, `tags`, `cdata` fields) and its lookups |
| `scan.dfy` | `Scan` | the C library conversions the module uses (`sscanf` `%d`/`%Nd`/`%hu`, `atoi`) and their round trips |
| `timecodec.dfy` | `TimeCodec` | `_xmltv_str2time` |
| `episodenum.dfy` | `EpisodeNumbering` | `xmltv_ns`, `dd_progid` and `onscreen` episode numbering |
| `metadata.dfy` | `Metadata` | picture quality, accessibility, repeat/new, categories, language strings |
| `guide.dfy` | `Guide` | channels, feed channels, broadcasts, episodes, the guide store, statistics |
| `ingest.dfy` | `Ingest` | `_xmltv_parse_programme_tags`, `_xmltv_parse_programme`, `_xmltv_parse_channel`, `_xmltv_parse_tv` |
| `lineup.dfy` | `Lineup` | `xmltv_parse_lineups` and its helpers |
| `grabbers.dfy` | `Grabbers` | the split loop of `_xmltv_load_grabbers` |
| `xmltv.dfy` | `Xmltv` | `_xmltv_parse` |

Pure parsing and classification are functions with lemmas. The loops of the
source are methods with loop invariants, proved against those functions:

- the field scan of `xmltv_ns_get_parse_num`;
- the backward dot search of `parse_xmltv_dd_progid`;
- the `HTSMSG_FOREACH` walks;
- the per-channel programme loop;
- the lineup walk;
- the in-place split of the grabber listing, which works on an `array<char>`.

Records that the source updates through setters are classes. These are
channels, feed channels, broadcasts, episodes, the guide store and the
statistics. Each setter reports whether the value changed, and callers OR
these bits together as the source does.

External state is passed in explicitly:

- `dispatch_clock` is the parameter `clock`;
- `mktime` is the parameter `localTime`;
- the module id is `modId`;
- the channel switches `epggrab_channel_renumber`, `_rename` and `_reicon` are a `Config`;
- the DVB services are a sequence of `Service` values.

### Behaviour of the code that the model keeps

The model follows the code, including where it surprises.

- **`xmltv_ns` overwrites everything.** Each `xmltv_ns` reading writes all
  six counters, whether or not the field had digits
  (`src/epggrab/module/xmltv.c:183-185`). A later `xmltv_ns` element
  therefore replaces an earlier one completely.
  `EpisodeNumbering.LaterNsWins` states this.
- **`dd_progid` cuts the series URI at an index of the identifier.** The code
  searches the last dot in the identifier `s`, but cuts the prefixed
  `ddprogid://<module>/<id>` buffer at that index
  (`src/epggrab/module/xmltv.c:203-207`). The series URI is therefore a
  prefix of the `ddprogid://` scheme text for short identifiers. The model
  reproduces the cut. `EpisodeNumbering.DdSeriesCut` states it in general,
  and `EpisodeNumbering.DdExample` shows `EP012345.0001` getting the series
  URI `ddprogid`.
- **Counts get the same `+ 1` as numbers.** The XMLTV DTD quoted at
  `src/epggrab/module/xmltv.c:95-127` indexes numbers from zero but gives
  totals as plain counts (`0/3` is the first of three parts). The code
  stores every number and every total plus one, so the DTD's `1.0.0/1`, a
  one-part episode, is stored with a part count of 2
  (`EpisodeNumbering.NsExamplePart`).
- **The colour flag is lost.** `parse_vid_quality` is handed the episode
  while it is still NULL (`src/epggrab/module/xmltv.c:370, 395`), and it
  calls `epg_episode_set_is_bw` without checking it
  (`src/epggrab/module/xmltv.c:257-258`). That setter is not part of this
  model; the model assumes that on a NULL episode it changes nothing and
  returns 0. The `colour` element therefore never reaches an episode.
  `Ingest.ApplyFlags` passes `null`.
- **The description dirty bit is counted against episodes.** The
  description's dirty bit goes into `save3`, which drives the episode
  statistics (`src/epggrab/module/xmltv.c:392, 436, 462`). A new broadcast
  with a description, or a changed description on an existing broadcast,
  counts an episode as created. `Ingest.ParseProgrammeTags` states exactly
  when `episodes.created` rises.

## Model

| member | source | states |
|---|---|---|
| Common.Inc | src/epggrab/module/xmltv.c:386 | a `uint16_t` statistics counter always changes when incremented: by one below 65535, and from 65535 it wraps to 0 |
| Common.IncIf | src/epggrab/module/xmltv.c:387 | `if (flag) counter++` changes the counter exactly when the flag is set |
| Common.AddU16 | src/epggrab/module/xmltv.c:499-501 | `n` increments of a `uint16_t` counter add `n` modulo 2^16 |
| Common.AddU16Split | src/epggrab/module/xmltv.c:499-501 | counting `a` then `b` increments is counting `a + b` |
| Common.Truncate | src/epggrab/module/xmltv.c:196 | a bounded `snprintf` keeps a prefix of at most `n` characters, and all of a text that fits |
| Htsmsg.FindIndex | src/epggrab/module/xmltv.c:487-489 | a by-name lookup finds the first field with that name, and None exactly when no field has it |
| Scan.SkipSpace | src/epggrab/module/xmltv.c:75 | the blank in the `sscanf` format skips exactly the white space that follows |
| Scan.DigitRun | src/epggrab/module/xmltv.c:75 | a `%Nd` field reads the longest run of digits up to its width |
| Scan.ScanInt | src/epggrab/module/xmltv.c:75-78 | a successful conversion consumes at least one character and stays in the text |
| Scan.NatTextValue | src/epggrab/module/xmltv.c:75-78 | the digits `%d` prints for a natural number read back as that number |
| Scan.PaddedValue | src/epggrab/module/xmltv.c:75-78 | a zero-padded `w`-digit field reads back as its number when it fits |
| Scan.DigitsValueAppend | src/epggrab/module/xmltv.c:149 | appending digits multiplies the earlier value by a power of ten and adds the new digits' value (`a = a * 10 + digit`) |
| Scan.ScanDigits | src/epggrab/module/xmltv.c:208 | `%d` on a run of digits reads their value and consumes them all |
| Scan.ScanU16Digits | src/epggrab/module/xmltv.c:208 | `%hu` on a run of digits reads their value reduced to 16 bits |
| Scan.ScanPadded | src/epggrab/module/xmltv.c:75 | `%wd` reads back exactly a `w`-digit padded field, whatever follows it |
| Scan.ScanDigitsAt | src/epggrab/module/xmltv.c:280 | `%d` at a position reads back the digits there when no digit follows them |
| Scan.ScanMinusDigitsAt | src/epggrab/module/xmltv.c:280 | the same for a minus sign followed by digits: the value is negated |
| Scan.ScanIntAt | src/epggrab/module/xmltv.c:280 | `%d` reads back the rendering of any `int` that is not followed by a digit |
| Scan.ScanIntText | src/epggrab/module/xmltv.c:805 | `%d` reads back the rendering of any `int` |
| Scan.IntTextInjective | src/epggrab/module/xmltv.c:805 | distinct integers have distinct renderings |
| Scan.AtoiIntText | src/epggrab/module/xmltv.c:629 | `atoi` reads back the `%d` rendering of any `int` |
| TimeCodec.TimeFields | src/epggrab/module/xmltv.c:75-78 | `sscanf` with the timestamp format stores at most seven values |
| TimeCodec.EmptyIsEpoch | src/epggrab/module/xmltv.c:90-91 | an empty timestamp converts nothing and gives instant 0 |
| TimeCodec.OffsetExamples | src/epggrab/module/xmltv.c:84 | with C's truncating division `-0130` is -90 minutes and `+0100` is 60; Euclidean division would give -50 for the first |
| TimeCodec.OffsetOdd | src/epggrab/module/xmltv.c:84 | a negative offset converts to the negation of the positive one |
| TimeCodec.OffsetOfHoursMinutes | src/epggrab/module/xmltv.c:84 | an offset `±HHMM` with MM below 60 converts to ±(HH*60+MM) minutes |
| TimeCodec.ScanSixFields | src/epggrab/module/xmltv.c:75-78 | the six fixed-width fields of `YYYYMMDDHHMMSS` read back as written |
| TimeCodec.LocalRoundTrip | src/epggrab/module/xmltv.c:75-87 | a timestamp without offset converts six fields and is the local time of its civil fields (year less 1900, month less 1) |
| TimeCodec.LocalFields | src/epggrab/module/xmltv.c:75-78 | a timestamp without offset converts exactly its six fields |
| TimeCodec.NothingAtEnd | src/epggrab/module/xmltv.c:75-78 | at the end of the text `%d` converts nothing |
| TimeCodec.SixFields | src/epggrab/module/xmltv.c:75-78 | when six fields convert and nothing follows, exactly six values are stored |
| TimeCodec.ScanOffset | src/epggrab/module/xmltv.c:75-78 | the blank and `%d` read back a signed four-digit offset |
| TimeCodec.ZonedRoundTrip | src/epggrab/module/xmltv.c:75-89 | a timestamp with offset converts seven fields and is UTC civil time minus the offset |
| TimeCodec.ZonedFields | src/epggrab/module/xmltv.c:75-78 | a timestamp with offset converts exactly its seven fields |
| TimeCodec.ZonedExample | src/epggrab/module/xmltv.c:88-89 | `20230101120000 +0100` is 2023-01-01 11:00:00 UTC, instant 1672570800 |
| TimeCodec.TimegmExample | src/epggrab/module/xmltv.c:89 | `timegm` of 2023-01-01 12:00 and 11:00 |
| TimeCodec.DaysExample | src/epggrab/module/xmltv.c:89 | 2023-01-01 is day 19358 of the Unix epoch |
| TimeCodec.LocalExample | src/epggrab/module/xmltv.c:86-87 | `20230101120000` is the local time of 2023-01-01 12:00:00 |
| TimeCodec.LocalExampleText | src/epggrab/module/xmltv.c:75 | the example text is the rendering of its fields |
| TimeCodec.ZonedExampleText | src/epggrab/module/xmltv.c:75 | the example with offset is the rendering of its fields |
| EpisodeNumbering.DigitsIn | src/epggrab/module/xmltv.c:146-150 | the digits of a field, in order, are digits and no more than the field |
| EpisodeNumbering.StopAt | src/epggrab/module/xmltv.c:134-144 | the field's number runs up to a position inside the text |
| EpisodeNumbering.FieldAt | src/epggrab/module/xmltv.c:129-178 | the next field starts at or after this one and inside the text |
| EpisodeNumbering.FieldNumberSnoc | src/epggrab/module/xmltv.c:146-150 | one more character: a digit gives `a * 10 + digit` (starting from 0 when `a` is unset), anything else changes nothing |
| EpisodeNumbering.StopAtIs | src/epggrab/module/xmltv.c:134-144 | the number ends at the first stop character |
| EpisodeNumbering.NumberStep | src/epggrab/module/xmltv.c:146-150 | the loop's accumulator after one more character |
| EpisodeNumbering.NumberInIs | src/epggrab/module/xmltv.c:146-150 | the number the loop accumulates over a stretch of text is the value of the digits in it, -1 when there is none |
| EpisodeNumbering.NumberRun | src/epggrab/module/xmltv.c:134-171 | one accumulating loop ends at the first stop with the number its digits spell, -1 when there is none |
| EpisodeNumbering.GetParseNum | src/epggrab/module/xmltv.c:129-178 | `xmltv_ns_get_parse_num` stores each number plus one and returns where the next field starts |
| EpisodeNumbering.ParseNsEpisode | src/epggrab/module/xmltv.c:180-186 | the three scans in a row give the reading of the whole text |
| EpisodeNumbering.NsWritesAllCounters | src/epggrab/module/xmltv.c:183-185 | an `xmltv_ns` reading replaces all six counters whatever they held, and keeps the label |
| EpisodeNumbering.NsExhausted | src/epggrab/module/xmltv.c:135-136 | once the text is used up, the remaining fields store 0/0 |
| EpisodeNumbering.NoDigitsIsUnknown | src/epggrab/module/xmltv.c:132-176 | a field without digits stores 0 (unknown) |
| EpisodeNumbering.DigitsInDigits | src/epggrab/module/xmltv.c:146-150 | a run of digits is its own digit sequence |
| EpisodeNumbering.OptTextNumber | src/epggrab/module/xmltv.c:146-150 | a written number reads back as itself, an omitted one as -1 |
| EpisodeNumbering.ShiftField | src/epggrab/module/xmltv.c:129-178 | a field reads the same numbers whatever text precedes it, only the position of the next field moves |
| EpisodeNumbering.PartField | src/epggrab/module/xmltv.c:134-171 | a field written `X` or `X/Y` in digits reads back its number and count (-1 when `/Y` is omitted) and is read up to the end |
| EpisodeNumbering.PartNoDot | src/epggrab/module/xmltv.c:95-127 | a field written in the DTD's notation holds no `.` |
| EpisodeNumbering.PartReads | src/epggrab/module/xmltv.c:95-171 | a field written in the DTD's notation reads back its number and count, -1 for an omitted one, and holds no `.` |
| EpisodeNumbering.StopAppend | src/epggrab/module/xmltv.c:134-144 | the scan from inside a text stops where it would in that text alone, or runs on into what follows it |
| EpisodeNumbering.NumberAppend | src/epggrab/module/xmltv.c:146-150 | the number a stretch of text spells does not depend on what follows the text |
| EpisodeNumbering.NoDotStop | src/epggrab/module/xmltv.c:156-170 | without a `.`, the count `Y` runs to the end of the text |
| EpisodeNumbering.JoinField | src/epggrab/module/xmltv.c:134-171 | a field without a `.` reads the same numbers when a `.` and more text follow it, and the next field starts after that `.` |
| EpisodeNumbering.EndField | src/epggrab/module/xmltv.c:134-171 | a field without a `.` is read up to the end of the text |
| EpisodeNumbering.SecondField | src/epggrab/module/xmltv.c:184 | the episode field of `a.b.c` reads as `b` alone does, and the part field starts after its `.` |
| EpisodeNumbering.ThirdField | src/epggrab/module/xmltv.c:185 | the part field of `a.b.c` reads as `c` alone does, up to the end |
| EpisodeNumbering.ThreeFields | src/epggrab/module/xmltv.c:180-186 | three fields without a `.`, joined by `.`, are read independently: each counter pair stores what its field reads alone, plus one |
| EpisodeNumbering.ParseNsFields | src/epggrab/module/xmltv.c:180-186 | the reading is determined by the three fields in sequence |
| EpisodeNumbering.CountTextNumber | src/epggrab/module/xmltv.c:165-169 | a written count reads back as itself, an omitted one as -1 |
| EpisodeNumbering.NsRoundTrip | src/epggrab/module/xmltv.c:95-186 | writing season, episode and part in the DTD's notation and reading them back stores each number plus one, 0 when omitted |
| EpisodeNumbering.NsExampleOmitted | src/epggrab/module/xmltv.c:118-121 | `0..` stores season 1/0, episode 0/0, part 0/0 |
| EpisodeNumbering.NsExampleText | src/epggrab/module/xmltv.c:115-116 | `1.0.0/1` is season 1, episode 0, part 0 of 1 written in the notation |
| EpisodeNumbering.NsExamplePart | src/epggrab/module/xmltv.c:115-116 | `1.0.0/1` stores season 2/0, episode 1/0, part 1/2 |
| EpisodeNumbering.NsExampleSpaced | src/epggrab/module/xmltv.c:121-125 | `0 . 12/13 . 0/3` stores season 1/0, episode 13/14, part 1/4 |
| EpisodeNumbering.SpacedSeason | src/epggrab/module/xmltv.c:121-125 | the season field of the spaced example reads 0 and ends after its `.` |
| EpisodeNumbering.SpacedEpisode | src/epggrab/module/xmltv.c:121-125 | the episode field of the spaced example reads 12 of 13, spaces ignored |
| EpisodeNumbering.SpacedPart | src/epggrab/module/xmltv.c:121-125 | the part field of the spaced example reads 0 of 3 and ends the text |
| EpisodeNumbering.SpaceThenNumber | src/epggrab/module/xmltv.c:146-151 | a space before a number's digits does not change the number read |
| EpisodeNumbering.NumberThenSpace | src/epggrab/module/xmltv.c:146-151 | a space after a number's digits does not change the number read |
| EpisodeNumbering.DigitsInAppend | src/epggrab/module/xmltv.c:146-150 | the digits of a concatenation are the concatenated digits |
| EpisodeNumbering.NonDigitIgnored | src/epggrab/module/xmltv.c:146-151 | a space or any other non-digit inside a field does not change its number |
| EpisodeNumbering.RawUri | src/epggrab/module/xmltv.c:192-196 | the raw URI has at most 126 characters (`snprintf(buf, sizeof(buf)-1, ...)`) |
| EpisodeNumbering.LastDot | src/epggrab/module/xmltv.c:203-204 | the backward scan stops at the last `.` at a position from 1 to the start, or at 0 when there is none |
| EpisodeNumbering.ParseDdProgid | src/epggrab/module/xmltv.c:188-211 | `parse_xmltv_dd_progid` with its backward loop computes the `dd_progid` reading |
| EpisodeNumbering.FindLastDot | src/epggrab/module/xmltv.c:203-204 | the backward loop finds the last dot as above |
| EpisodeNumbering.DdShortIgnored | src/epggrab/module/xmltv.c:193 | identifiers shorter than two characters change nothing |
| EpisodeNumbering.DdEpisodeUri | src/epggrab/module/xmltv.c:196-202 | the episode URI is the raw URI unless the identifier starts with `SH`; identifiers not starting with `EP` leave the series URI and the numbering alone |
| EpisodeNumbering.DdSeriesCut | src/epggrab/module/xmltv.c:202-209 | for `EP` identifiers the series URI is the raw URI cut at the index, in the identifier, of its last dot; the digits after the dot overwrite the episode number |
| EpisodeNumbering.LastDotIs | src/epggrab/module/xmltv.c:204 | the backward scan stops at the last dot |
| EpisodeNumbering.ScanExample | src/epggrab/module/xmltv.c:208 | `%hu` reads `0001` as 1 |
| EpisodeNumbering.DdExample | src/epggrab/module/xmltv.c:188-211 | `EP012345.0001` from module `xmltv` gives the episode URI `ddprogid://xmltv/EP012345.0001`, the series URI `ddprogid` and episode number 1 |
| EpisodeNumbering.GetEpisodeInfo | src/epggrab/module/xmltv.c:216-239 | the loop applies the `episode-num` elements in document order |
| EpisodeNumbering.EpisodeInfoIgnores | src/epggrab/module/xmltv.c:224-238 | elements other than a complete `episode-num`, and unknown systems, change nothing |
| EpisodeNumbering.LaterNsWins | src/epggrab/module/xmltv.c:234-235 | a later `xmltv_ns` element overwrites all six counters, whatever earlier elements set |
| EpisodeNumbering.OnscreenSetsLabel | src/epggrab/module/xmltv.c:232-233 | an `onscreen` element sets only the label, to its text verbatim |
| Metadata.VideoOf | src/epggrab/module/xmltv.c:259-283 | the `aspect` override never changes the HD flag or the line count that the quality text decides |
| Metadata.ParseVidQuality | src/epggrab/module/xmltv.c:247-293 | HD always written; widescreen (HD or aspect above 137) and aspect only when the aspect is known; lines only when known; colour `no` makes the episode black and white, any other colour clears it; the result is whether any field changed |
| Metadata.ContainsAt | src/epggrab/module/xmltv.c:260 | `strstr` finds a text that occurs |
| Metadata.NotContains | src/epggrab/module/xmltv.c:260-276 | `strstr` finds nothing in a text without its first character |
| Metadata.HdTakesPrecedence | src/epggrab/module/xmltv.c:259-277 | a quality naming HD is HD with lines and aspect unknown, even when it also names 1080 |
| Metadata.Quality1080 | src/epggrab/module/xmltv.c:272-275 | `1080i` is HD, 1080 lines, aspect 178 |
| Metadata.HdIsWidescreen | src/epggrab/module/xmltv.c:268-286 | a 720 or 1080 quality is HD and widescreen |
| Metadata.AspectRoundTrip | src/epggrab/module/xmltv.c:280 | `W:H` written with `%d` reads back as the pair |
| Metadata.AspectOverrides | src/epggrab/module/xmltv.c:278-283 | a `W:H` aspect sets the aspect to `100*W/H` truncated toward zero, whatever the quality says |
| Metadata.AspectExamples | src/epggrab/module/xmltv.c:281-286 | 16:9 gives 177 and is widescreen; 4:3 gives 133 and is not; -4:3 gives -133 |
| Metadata.ParseAccessibility | src/epggrab/module/xmltv.c:298-321 | teletext subtitles, deaf-signed subtitles and audio description each only set their flag; none is cleared; the result is whether a flag went from 0 to 1 |
| Metadata.AccessOfStep | src/epggrab/module/xmltv.c:307-319 | each element adds its flags to those before it |
| Metadata.AccessOfAppend | src/epggrab/module/xmltv.c:307-319 | the flags of consecutive runs of elements combine |
| Metadata.AccessIdempotent | src/epggrab/module/xmltv.c:307-319 | repeating the elements asks for nothing more |
| Metadata.RerunExclusive | src/epggrab/module/xmltv.c:401-405 | repeat exactly with `previously-shown`; new exactly without it and with `premiere` or `new`; never both |
| Metadata.ParseRerun | src/epggrab/module/xmltv.c:401-405 | the chosen flag is set to 1, nothing is cleared, and the result says whether a flag changed |
| Metadata.Elements | src/epggrab/module/xmltv.c:333-352 | the matching child elements are no more than the fields |
| Metadata.ElementsEmpty | src/epggrab/module/xmltv.c:333-352 | there are none exactly when no field of that name holds an element |
| Metadata.CategoryTexts | src/epggrab/module/xmltv.c:335 | one genre entry per `category` element, holding its text |
| Metadata.CategoriesStep | src/epggrab/module/xmltv.c:332-337 | a `category` element appends its text, creating the list at the first one |
| Metadata.ParseCategories | src/epggrab/module/xmltv.c:326-339 | `_xmltv_parse_categories` builds the list of the `category` elements, or none |
| Metadata.LangEntries | src/epggrab/module/xmltv.c:354-357 | one entry per element, holding its text and `lang` attribute |
| Metadata.LangStrStep | src/epggrab/module/xmltv.c:351-359 | a matching element appends its entry, creating the string at the first one |
| Metadata.ParseLangStr | src/epggrab/module/xmltv.c:344-360 | `_xmltv_parse_lang_str` builds the string of the elements of that name, or none |
| Metadata.LangStrShape | src/epggrab/module/xmltv.c:351-359 | the string is absent exactly when there is no such element, and has one entry per element |
| Metadata.CategoriesShape | src/epggrab/module/xmltv.c:332-338 | the genre list is absent exactly when there is no `category` element |
| Guide.Channel.SetNumber | src/epggrab/module/xmltv.c:629 | `channel_set_number` sets the number |
| Guide.Channel.Rename | src/epggrab/module/xmltv.c:637 | `channel_rename` sets the name and reports whether it changed |
| Guide.Channel.SetIcon | src/epggrab/module/xmltv.c:645 | `channel_set_icon` sets the icon |
| Guide.FeedChannel.constructor | src/epggrab/module/xmltv.c:521 | a feed channel created by id has no name, icon, number, links or local channel and is not marked updated |
| Guide.Episode.constructor | src/epggrab/module/xmltv.c:429-433 | a created episode has only its URI; no title, sub-title or genres, colour assumed, numbering zero |
| Guide.Broadcast.constructor | src/epggrab/module/xmltv.c:384 | a created broadcast has only its key; every flag, description, series link and episode is blank |
| Guide.FeedChannel.SetName | src/epggrab/module/xmltv.c:526 | sets the name and reports whether it changed |
| Guide.FeedChannel.SetIcon | src/epggrab/module/xmltv.c:532 | sets the icon and reports whether it changed |
| Guide.FeedChannel.SetNumber | src/epggrab/module/xmltv.c:675 | sets the number and reports whether it changed |
| Guide.FeedChannel.SetChannel | src/epggrab/module/xmltv.c:667 | links the feed channel to a local channel |
| Guide.FeedChannel.MarkUpdated | src/epggrab/module/xmltv.c:535 | marks the feed channel updated |
| Guide.FeedRegistry.Lookup | src/epggrab/module/xmltv.c:53-58 | finds the feed channel with that id, null exactly when there is none |
| Guide.FeedRegistry.FindOrCreate | src/epggrab/module/xmltv.c:53-58 | returns the existing record or a fresh blank one, reports which, and adds only that id |
| Guide.Episode.SetIsBw | src/epggrab/module/xmltv.c:258 | sets the black-and-white flag and reports whether it changed |
| Guide.Episode.SetTitle | src/epggrab/module/xmltv.c:443 | sets the title and reports whether it changed |
| Guide.Episode.SetSubtitle | src/epggrab/module/xmltv.c:445 | sets the sub-title and reports whether it changed |
| Guide.Episode.SetGenre | src/epggrab/module/xmltv.c:448 | sets the genres and reports whether they changed |
| Guide.Episode.SetEpnum | src/epggrab/module/xmltv.c:452 | sets the numbering and reports whether it changed |
| Guide.Broadcast.SetIsHd | src/epggrab/module/xmltv.c:284 | sets the HD flag and reports whether it changed |
| Guide.Broadcast.SetIsWidescreen | src/epggrab/module/xmltv.c:286 | sets the widescreen flag and reports whether it changed |
| Guide.Broadcast.SetAspect | src/epggrab/module/xmltv.c:287 | sets the aspect and reports whether it changed |
| Guide.Broadcast.SetLines | src/epggrab/module/xmltv.c:290 | sets the line count and reports whether it changed |
| Guide.Broadcast.SetIsSubtitled | src/epggrab/module/xmltv.c:312 | sets the subtitled flag and reports whether it changed |
| Guide.Broadcast.SetIsDeafSigned | src/epggrab/module/xmltv.c:314 | sets the deaf-signed flag and reports whether it changed |
| Guide.Broadcast.SetIsAudioDesc | src/epggrab/module/xmltv.c:317 | sets the audio-description flag and reports whether it changed |
| Guide.Broadcast.SetIsRepeat | src/epggrab/module/xmltv.c:402 | sets the repeat flag and reports whether it changed |
| Guide.Broadcast.SetIsNew | src/epggrab/module/xmltv.c:405 | sets the new flag and reports whether it changed |
| Guide.Broadcast.SetDescription | src/epggrab/module/xmltv.c:392 | sets the description and reports whether it changed |
| Guide.Broadcast.SetSeriesLink | src/epggrab/module/xmltv.c:422 | sets the series link and reports whether it changed |
| Guide.Broadcast.SetEpisode | src/epggrab/module/xmltv.c:430 | sets the episode and reports whether it changed |
| Guide.Broadcast.GetEpisode | src/epggrab/module/xmltv.c:433 | the broadcast's episode, created without URI and reported as created exactly when it had none |
| Guide.GuideStore.FindBroadcast | src/epggrab/module/xmltv.c:384 | the broadcast with that (channel, start, stop), created blank exactly when absent; nothing else in the store changes |
| Guide.GuideStore.FindEpisode | src/epggrab/module/xmltv.c:429 | the episode with that URI, created exactly when absent; nothing else changes |
| Guide.GuideStore.FindSeriesLink | src/epggrab/module/xmltv.c:416 | adds the series URI, reporting whether it was new |
| Ingest.ProgrammeInfo | src/epggrab/module/xmltv.c:374-410 | `get_episode_info` run from zeroed numbering and no URIs |
| Ingest.Count | src/epggrab/module/xmltv.c:386-387 | counting a record always changes the total; `created` changes exactly when created, `modified` exactly when modified |
| Ingest.FlagsAfterShows | src/epggrab/module/xmltv.c:395-405 | once a programme's picture, accessibility and repeat/new facts are applied, the broadcast's flags show every one of them |
| Ingest.FlagsAfterUnchanged | src/epggrab/module/xmltv.c:395-405 | applying the facts leaves the flags unchanged exactly when they already show them, so the dirty bit is false exactly then |
| Ingest.FlagsAfterIdempotent | src/epggrab/module/xmltv.c:395-405 | applying the same programme's facts a second time changes no flag |
| Ingest.ApplyFlags | src/epggrab/module/xmltv.c:395-405 | picture quality with a NULL episode: HD always from the quality, widescreen and aspect only when the aspect is non-zero, lines only when non-zero, otherwise the old values; accessibility and repeat/new flags are OR-ed in and never cleared; the dirty bit is whether any of the nine flags changed |
| Ingest.ApplyDescription | src/epggrab/module/xmltv.c:390-392 | the description is replaced when the tags give one and kept otherwise; the bit is whether it changed |
| Ingest.ApplyBroadcastTags | src/epggrab/module/xmltv.c:389-405 | the description as above, with its bit in `save3`; the flags become `FlagsAfter` of the old flags and the programme's facts, and `save` is whether they changed |
| Ingest.ApplyEpisodeTags | src/epggrab/module/xmltv.c:438-453 | title, sub-title and genres are set when given; the numbering always; `save3` is whether any of the four changed |
| Ingest.FindProgrammeEpisode | src/epggrab/module/xmltv.c:428-434 | with a URI the episode is found or created by URI and attached to the broadcast, the bit saying whether the attachment changed; without one the broadcast's own episode is used or created; created exactly when absent |
| Ingest.ProgrammeBroadcast | src/epggrab/module/xmltv.c:384-405 | the broadcast is found or created by (channel, start, stop) and is the only object added to the store; a created one is dirty, has no episode or series link, and takes the tags' description and `FlagsAfter` of blank flags; an existing one keeps its episode and series link, its flags become `FlagsAfter` of the old ones, it is dirty exactly when a flag changed, and its description is replaced only when the tags give one, the bit saying whether it changed; no other broadcast and no episode changes |
| Ingest.ProgrammeSeries | src/epggrab/module/xmltv.c:415-423 | with a series URI the series link is found or created and set on the broadcast; `save2` is whether it was created, `save` whether the broadcast's link changed |
| Ingest.ProgrammeBroadcastSeries | src/epggrab/module/xmltv.c:384-423 | the broadcast and series-link parts together: the series URI is added to the links, `save2` exactly when it is new; the broadcast's flags, description and link are as `ProgrammeBroadcast` states with the link replaced when a URI is given; the broadcast bit is created, a flag changed or the link changed; no other broadcast and no episode changes |
| Ingest.ProgrammeEpisode | src/epggrab/module/xmltv.c:425-457 | the episode is found or created (by URI, or as the broadcast's own) and ends up carrying the tags' title, sub-title, genres and numbering, as `TagsAfter` of blank tags when created and of its old tags otherwise; the broadcast keeps its flags, description and series link; the bit counted for `created` is the description's bit or the creation, and `save3` adds whether an episode field changed; the store only grows by fresh objects and no other broadcast or episode changes |
| Ingest.ApplyProgramme | src/epggrab/module/xmltv.c:384-457 | the store gains exactly the broadcast key, the series URI and the episode URI; the broadcast's flags are `FlagsAfter` of blank or old flags, its description and series link are replaced only when given, and its episode's fields are `TagsAfter` of blank or old tags; each dirty bit is set exactly when its record was created or one of its fields changed; no other broadcast or episode changes |
| Ingest.CountProgramme | src/epggrab/module/xmltv.c:386-462 | each statistics line counts one record, its `created` and `modified` by the matching dirty bits; the seasons line only with a series URI, created and modified together |
| Ingest.ParseProgrammeTags | src/epggrab/module/xmltv.c:365-470 | the guide changes as `ApplyProgramme` states, including the flags, description, series link and episode fields afterwards; the broadcast under the key shows the programme and is, with its episode, the only one that changed; one broadcast and one episode counted; broadcasts created exactly when the key is new and modified when created or changed; `episodes.created` rises exactly when the description changed or the episode was created; the seasons line only with a series URI; the result is whether any dirty bit is set |
| Ingest.ProgrammeSlot | src/epggrab/module/xmltv.c:485-497 | an accepted programme has linked channels, starts before it stops and stops after the clock |
| Ingest.KeysOf | src/epggrab/module/xmltv.c:499-501 | one broadcast key per linked channel at most |
| Ingest.KeysOfMembers | src/epggrab/module/xmltv.c:499-501 | the keys are exactly the linked channels at the programme's times |
| Ingest.CountAdd | src/epggrab/module/xmltv.c:386-387 | counting one more record on a line that already counts some moves the total on by one and `created` and `modified` by their flags, with the 16-bit wrap |
| Ingest.NoPasses | src/epggrab/module/xmltv.c:499-501 | before the first linked channel the loop has changed no map and counted nothing |
| Ingest.MapsStep | src/epggrab/module/xmltv.c:384-434 | one more pass keeps the maps' account: old broadcasts stay the same objects, the key is added, the series and episode URIs are added once a pass has run |
| Ingest.BroadcastsStep | src/epggrab/module/xmltv.c:386-460 | one more pass counts one more broadcast, created exactly when the map grew, modified when created or changed |
| Ingest.EpisodesStep | src/epggrab/module/xmltv.c:435-462 | one more pass counts one more episode; a counted creation is always a counted change |
| Ingest.SeasonsStep | src/epggrab/module/xmltv.c:418-461 | with a series URI one more pass counts one more season, created and modified only on the first pass and only when the link was new; without one the line is untouched |
| Ingest.PassStep | src/epggrab/module/xmltv.c:499-501 | one pass of `_xmltv_parse_programme_tags` keeps the whole account of the per-channel loop: maps and the three statistics lines |
| Ingest.SlotPass | src/epggrab/module/xmltv.c:499-501 | the pass on the `i`th linked channel takes the account from the first `i` channels' keys to the first `i + 1` |
| Ingest.ParseOnChannel | src/epggrab/module/xmltv.c:499-501 | the programme ingested on one linked channel: the store's maps and the three statistics lines change as one pass of `_xmltv_parse_programme_tags` does (`OnePass`), that channel's broadcast shows the programme, and it and its episode are the only broadcast and episode that changed; the result is whether any dirty bit is set |
| Ingest.ParseSlotStep | src/epggrab/module/xmltv.c:499-501 | one pass for a linked channel takes the account of the passes so far (`PassesDone`) one pass further, adding that channel's key, and every channel done so far, this one included, still has a broadcast showing the programme |
| Ingest.ParseSlot | src/epggrab/module/xmltv.c:499-502 | after the loop: the broadcasts under the keys before are the same objects and the only keys added are the linked channels' keys; the series URI and the episode URI are added only when there is a linked channel; the broadcasts and episodes lines count one record per linked channel, broadcasts created once per added key and modified at least that often and at most once a channel, episodes modified at least as often as created; the seasons line moves only with a series URI, counted per channel and created and modified once when the link was new; each linked channel's broadcast shows the programme |
| Ingest.ParseProgramme | src/epggrab/module/xmltv.c:475-503 | a dropped programme returns false and changes no statistic, no store map, no footprint and no broadcast or episode field; an accepted one changes the store's maps and statistics as `ParseSlot` states for its linked channels, and each linked channel's broadcast shows it afterwards |
| Ingest.Updated | src/epggrab/module/xmltv.c:525-533 | a setter called only when a value is given keeps the old value otherwise |
| Ingest.ApplyChannelTags | src/epggrab/module/xmltv.c:525-533 | display name and icon are set when given; the result is whether either changed |
| Ingest.CountChannel | src/epggrab/module/xmltv.c:522-537 | the channel is counted, created counts as modified, and a modified channel is marked updated |
| Ingest.ParseChannel | src/epggrab/module/xmltv.c:508-539 | without `attrib`, `id` or `tags` nothing changes; otherwise the feed channel is found or created, counted, takes name and icon, and is marked updated when created or changed; no other feed channel changes |
| Ingest.ChannelIds | src/epggrab/module/xmltv.c:860-866 | no more accepted channel ids than children |
| Ingest.IdSetMembers | src/epggrab/module/xmltv.c:53-58 | the registered ids of a sequence of accepted ids are exactly its members |
| Ingest.ChannelIdsStep | src/epggrab/module/xmltv.c:860-866 | each child adds its accepted id in order |
| Ingest.TvStep | src/epggrab/module/xmltv.c:860-866 | registered ids and the channel total stay in step over consecutive children |
| Ingest.ParseTvChild | src/epggrab/module/xmltv.c:861-865 | a `channel` child registers its id and is counted; other children add no feed channel |
| Ingest.ParseTvStep | src/epggrab/module/xmltv.c:860-866 | one turn of the loop keeps the registered ids and the channel total in step with the children read |
| Ingest.ParseTvChildren | src/epggrab/module/xmltv.c:860-866 | every accepted channel id is registered and the channel total counts each once |
| Ingest.ParseTv | src/epggrab/module/xmltv.c:850-868 | without `tags` it returns false and changes no feed channel id, statistic, store map or broadcast or episode field; otherwise every accepted channel id is registered and the channel total counts each once |
| Lineup.NamesOf | src/epggrab/module/xmltv.c:572-576 | the names of the local channels in order |
| Lineup.FirstNamed | src/epggrab/module/xmltv.c:572-576 | `channel_find_by_name` finds the first channel with that exact name, and none exactly when there is none |
| Lineup.FindService | src/epggrab/module/xmltv.c:544-561 | the first enabled service with that id, and none exactly when there is none |
| Lineup.ChannelKeyInjective | src/epggrab/module/xmltv.c:563-570 | distinct service ids give distinct feed channel ids `"<module>-<cid>"` |
| Lineup.ReturnVarNull | src/epggrab/module/xmltv.c:581-591 | NULL exactly for an element without text; `""` when the field is no element |
| Lineup.ReturnVarAttrib | src/epggrab/module/xmltv.c:594-605 | a NULL dereference exactly for an element without attributes; `""` when the field is no element |
| Lineup.StbPresetKept | src/epggrab/module/xmltv.c:728-799 | an entry without an `stb-channel` child leaves `stb_preset` as it was |
| Lineup.StationKeepsPreset | src/epggrab/module/xmltv.c:736-767 | a `station` element never changes `stb_preset` |
| Lineup.DvbKeepsPreset | src/epggrab/module/xmltv.c:769-786 | a `dvb-channel` element never changes `stb_preset` |
| Lineup.Classify | src/epggrab/module/xmltv.c:803-837 | `Radio channels` is skipped; otherwise a set `stb_preset` goes to `stb_channel`; otherwise a non-zero service id outside `Regional` goes to `xmltv_channelupdate` |
| Lineup.StbResult | src/epggrab/module/xmltv.c:609-650 | `stb_channel` returns 1 exactly when a channel with that name exists and a switch is on, whether or not a value changes |
| Lineup.UpdateResult | src/epggrab/module/xmltv.c:655-698 | `xmltv_channelupdate` returns 1 exactly when an enabled service with that id has a channel and (primary and renumber) or rename or reicon |
| Lineup.WalkUnfold | src/epggrab/module/xmltv.c:724-838 | the walk is the step at one child followed by the walk over the rest |
| Lineup.WalkBounds | src/epggrab/module/xmltv.c:825-834 | `update_counter` rises by at most one per child, and feed channel ids are only added |
| Lineup.WalkKeys | src/epggrab/module/xmltv.c:662-664 | every feed channel id the walk adds is `"<module>-<cid>"` for a linked service id |
| Lineup.ScanStation | src/epggrab/module/xmltv.c:736-767 | the loop over a `station` element's tags computes its variables |
| Lineup.ScanDvb | src/epggrab/module/xmltv.c:769-786 | the loop over a `dvb-channel` element's tags |
| Lineup.ScanStb | src/epggrab/module/xmltv.c:787-797 | the loop over an `stb-channel` element's tags |
| Lineup.ScanEntry | src/epggrab/module/xmltv.c:728-799 | the loop over a `lineup-entry` element's tags |
| Lineup.StbChannel | src/epggrab/module/xmltv.c:609-650 | the first channel with the name is renumbered and re-iconed as the switches say and keeps its name; no other channel changes; the result as `StbResult` |
| Lineup.ApplyLineupValues | src/epggrab/module/xmltv.c:669-694 | the number (primary EPG only), name and icon are set as the switches say |
| Lineup.ChannelUpdate | src/epggrab/module/xmltv.c:655-698 | for a linked service the feed channel `"<module>-<cid>"` is found or created and linked to the service's channel first, then renumbered, renamed and re-iconed as the switches say, and no other feed channel changes; an unlinked id changes no feed channel; the result as `UpdateResult` |
| Lineup.ScanLineupChild | src/epggrab/module/xmltv.c:724-801 | the scanning part of one outer iteration |
| Lineup.StbStep | src/epggrab/module/xmltv.c:819-826 | a child classified for `stb_channel` counts a returned 1 |
| Lineup.UpdateStep | src/epggrab/module/xmltv.c:831-835 | a child classified for `xmltv_channelupdate` counts a returned 1 and registers its feed channel |
| Lineup.ClassifyChild | src/epggrab/module/xmltv.c:803-837 | the classification block with the variables as they stand |
| Lineup.ParseLineupChild | src/epggrab/module/xmltv.c:724-838 | one outer iteration: scan, then classify unless it is a `lineup-entry` without tags |
| Lineup.WalkLineup | src/epggrab/module/xmltv.c:724-838 | the outer loop ends with `update_counter` exactly as the walk over the lineup's children computes it, undefined exactly when the walk meets undefined C behaviour; the registered feed channel ids grow by exactly the walk's keys; local channel names are never changed |
| Lineup.ParseLineups | src/epggrab/module/xmltv.c:702-845 | always returns 0; without the lineup path the count is 0 and no feed channel id, feed channel or local channel changes; otherwise the count and the registered ids are the walk's, and local channel names are never changed |
| Grabbers.CutBelow | src/epggrab/module/xmltv.c:909-921 | the cut buffer keeps its length |
| Grabbers.FirstEnd | src/epggrab/module/xmltv.c:910 | the search for the next terminator ends between its start and the end of the buffer |
| Grabbers.BeforeFirstSpec | src/epggrab/module/xmltv.c:913 | the path is the longest prefix without a bar character of the line |
| Grabbers.AfterLastSpec | src/epggrab/module/xmltv.c:912-918 | the description is the longest suffix without a bar character of the line |
| Grabbers.LinesAppend | src/epggrab/module/xmltv.c:909-921 | a listing ending in a terminator splits independently of what follows |
| Grabbers.NoLines | src/epggrab/module/xmltv.c:909-921 | text without a terminator gives no line |
| Grabbers.OneLine | src/epggrab/module/xmltv.c:910-915 | a line and its terminator give one line |
| Grabbers.TrailingIgnored | src/epggrab/module/xmltv.c:909-921 | bytes after the last terminator give no record |
| Grabbers.CStrOfCut | src/epggrab/module/xmltv.c:911-913 | the C string at a line's start in the cut buffer is the text before its first bar character |
| Grabbers.LineRecord | src/epggrab/module/xmltv.c:910-915 | at a terminator, the two C strings are the line's path and description |
| Grabbers.CutStep | src/epggrab/module/xmltv.c:911-917 | each step cuts exactly the current character |
| Grabbers.SplitStep | src/epggrab/module/xmltv.c:909-921 | each pass keeps the loop invariant |
| Grabbers.ReachInvariant | src/epggrab/module/xmltv.c:909-921 | every reachable loop state satisfies the invariant |
| Grabbers.SplitAt | src/epggrab/module/xmltv.c:910-920 | one pass cuts the current character and updates `p`, `n` and the records |
| Grabbers.SplitListing | src/epggrab/module/xmltv.c:907-921 | every newline and bar character becomes NUL, and each terminated line yields one module: the path before its first bar, the name `XMLTV: ` followed by the text after its last bar |
| Xmltv.Dispatch | src/epggrab/module/xmltv.c:876-888 | without `tags` nothing; a `tv` element wins over `xmltv-lineups`; neither is neither |
| Xmltv.Parse | src/epggrab/module/xmltv.c:870-889 | a `tv` document is ingested as `ParseTv` states; a lineups document returns false, leaves the guide store (maps, footprint, every broadcast and episode field) and statistics unchanged and registers the walk's feed channels; any other document does the same and also changes no local channel or feed channel |

## Left out

- `mktime` depends on the host's time zone and daylight-saving rules. It is the uninterpreted parameter `localTime`.
- `_xmltv_load_grabbers` apart from its split loop is process and filesystem I/O and is not modelled. That covers `spawn_and_store_stdout`, the `PATH` walk, `opendir` and `lstat`. `SplitListing` takes the listing buffer as its input.
- Module registration (`xmltv_init`, `xmltv_load`, `epggrab_module_*_create`), `tvhlog` and the `EPG_TRACE` blocks are not modelled.
- The guide store, channel registry and setters belong to other parts of tvheadend. They are abstract classes whose find-or-create always succeeds and whose setters report a change.
- The string-to-genre mapping of `epg_genre_list_add_by_str` is not modelled. A genre list is the sequence of category texts.
- The duplicate-language rules of `lang_str_add` are not modelled. A language string is the sequence of (text, language) entries.
- Memory management is not modelled (`strdup`, `free`, leaks).
- The overflows of `chid[32]` and `name[1000]` are not modelled. Feed channel ids and module names are unbounded strings.
- `parse_xmltv_dd_progid` reads bytes of the identifier past its terminating NUL. The model starts the backward scan at the end of the identifier at the latest, and treats positions past it as holding no dot.
- `sscanf` returning EOF (-1) for an empty string and returning 0 are not distinguished. In the timestamp and the service id both lead to the same result.
- Integer overflow inside `sscanf` and `atoi` is not modelled. Numbers are unbounded integers; only the `%hu` store is reduced to 16 bits.
- The signed `int` overflows of `100 * w` in the aspect (`src/epggrab/module/xmltv.c:281`) and of `tz * 60` and the offset conversion in the timestamp (`src/epggrab/module/xmltv.c:84, 89`) are not modelled. Both are computed on unbounded integers, so a huge width or offset gives the mathematical value where C's result is undefined.
- A `W:0` aspect is a division by zero, which C leaves undefined. `AspectDefined` and `ProgrammeDefined` require documents without one. `ParseProgramme` asks it only of a programme that is not dropped (`src/epggrab/module/xmltv.c:485-497`).
- Ingest.ParseTv, Ingest.TvDefined, Xmltv.Parse: they require every `programme` of a `tv` document to be free of a `W:0` aspect, including programmes the source drops before it reads their `video` element. Whether a programme is dropped depends on the channels registered earlier in the same document, so the precondition is stated on the whole document.
- EpisodeNumbering.ParseDdProgid, EpisodeNumbering.RawUri, EpisodeNumbering.DdShortIgnored: strings are sequences of characters, and C counts bytes. The length test `strlen(s) < 2` (`src/epggrab/module/xmltv.c:193`), the 126-byte bound of `snprintf` (`:196`) and the index of the last dot (`:203-204`) are taken as if each character were one byte. For identifiers outside ASCII the model differs: a single two-byte character such as `é` is ignored by the model, while C accepts it.
- EpisodeNumbering.GetParseNum: the `int` accumulators `a` and `b` of `xmltv_ns_get_parse_num` (`src/epggrab/module/xmltv.c:149, 168`) can overflow on a long run of digits, which C leaves undefined. The model reads the run as an unbounded integer and stores it in 16 bits.
- Xmltv.Parse: it requires that the local channels lie outside the guide store's footprint. In the source they are distinct objects from broadcasts and episodes; the model's store footprint is a set of objects, so the separation is written out.
- Wherever the lineup code hands NULL to `strcmp`, `sscanf`, `atoi` or `HTSMSG_FOREACH`, the C behaviour is undefined, and the walk stops with `Undefined`. The model makes the same choice where NULL reaches `channel_set_icon`, `epggrab_channel_set_name` or `epggrab_channel_set_icon`: those setters are not part of this model, so what they do with NULL is unknown.
- The lineup variables that are assigned but never read are not modelled: `short_name`, `commercial_free`, `chan_format`, `chan_aspect_ratio`, `chan_network_id`, `chan_lcn`, `chan_service_name` and `chan_encrypted`.
- The lineup code never touches the statistics, and the model passes them no further.
- Concurrency with other grabbers is not part of this code.
- Ingest.ParseProgramme: for an accepted programme, the result is not related to the per-channel results.
- Ingest.ParseSlot: the result is not related to the per-channel results. The store's maps, the statistics and the linked channels' broadcasts are stated.
- Ingest.ParseSlot, Ingest.ParseProgramme: the fields of broadcasts and episodes that are not under the slot's keys are framed only pass by pass (`ParseOnChannel`'s `OnlyKeyChanged`), not over the whole loop. Over the loop the maps are framed: a broadcast under a key outside the slot is the same object, and the episode map changes only under the programme's episode URI.
- Ingest.ParseSlot, Ingest.ParseProgramme: the exact number of broadcasts counted as modified and of episodes counted as created or modified depends on which fields changed. It is stated as bounds (between the creations and the number of linked channels), not as a count.
- Ingest.ParseTv: only the feed channel ids and the channel total are stated. Programmes' effects are stated per programme by `ParseProgramme`.
- Ingest.ParseTvChildren: only the feed channel ids and the channel total are stated.
- Ingest.ParseTvChild: only the feed channel ids and the channel total are stated.
- Ingest.ParseTvStep: only the feed channel ids and the channel total are stated, like the loop it is a turn of.
- Xmltv.Parse: for a `tv` document only what `ParseTv` states is carried over. For a lineups document it states the unchanged guide store and statistics, the registered feed channel ids and the unchanged channel names, but not the local channels' numbers and icons or the feed channels' fields.
- Lineup.WalkLineup: the local channels' numbers and icons and the feed channels' number, name and icon after a walk are not stated. Each single update states them (`ChannelUpdate`); the walk carries only the count, the registered ids and the local channel names.
- Lineup.ParseLineups: with a lineup path, the same as `WalkLineup`: numbers and icons of local and feed channels are not stated.
- Lineup.ChannelUpdate: when the rename or reicon switch is off, the contract does not say that the name or icon stays as it was.
