# FileRenamer in Dafny

A model of the `FileRenamer` class of `FileRenamer.py`. The class turns a directory listing into a rename plan, in these steps:

- Probe each file name with the user's primary, season and episode patterns.
- Extract the season and episode numbers: take the first run of digits in the pattern's match, optionally strip the leading zeros, and left-pad to a maximum length with a one-character filler.
- Drop the names whose primary pattern fails or whose episode number is `False` or empty.
- Render each new name from a `{name}`-placeholder template. The template's `{renaming_extension}` is itself a template over `{original_extension}`: the part of the name after the first dot, once leading dots are stripped.
- Build the list of `[old, new]` pairs. An invalid path gives the tagged error `[False, "The path specified is invalid!"]`.
- `rename_files_with_list` turns each new name into a destination path and renames the file, unless it is a dry run.

Files:

- `wrappers.dfy` — `Option`, standing for Python's `False`/`None` results.
- `text.dfy` — the fixed regular expressions `\d+`, `^0+` and `^\.+`, string repetition and padding, and `str.split`/`str.join` on a one-character separator, with their round trips.
- `template.dfy` — templates as sequences of literal and field tokens over a fixed field type, and their rendering.
- `renamer.dfy` — the renamer itself: configuration, probes, number extraction, the per-file filter, `refine_processed_list`, new names, the renaming list, the application of the list, and the constructor's defaults.

How the main pieces are modelled:

- The renamer's configuration is a datatype value, because no field is reassigned after `__init__`.
- User patterns are abstract search functions that return the matched substring or `None`. `Compiled` records the one fact of `re.compile` the code relies on: the empty pattern matches the empty string in every name.
- The step-by-step parts of the code are methods proved against specification functions:
  - `GetNumber`, against `NumberValue`;
  - `RefineProcessedList` (count the `None`s, then remove one at a time), against `Keep`;
  - `GetRenamingList`, against `Plan`;
  - `RenameFilesWithList` (a loop that appends), proved directly.
- The filesystem is an input:
  - `isDir` stands for `os.path.isdir(path)`;
  - `listing` stands for `os.listdir(path)`;
  - `resolve` stands for `os.path.abspath(os.path.join(...))`;
  - `performed` lists the `os.rename` calls the method would make, in order.

Where a description of the program and its code disagree, the model follows the code:

- An absent season reaches the template as Python `False`, so it renders as the text `False` (`AbsentNumberText`). It does not render as an empty value.
- The extension of `show.S01E02.mkv` is `S01E02.mkv`: everything after the first dot. It is not `mkv`.

## Model

| member | source | states |
|---|---|---|
| Text.DigitRunEnd | FileRenamer.py:48 | the end of a digit run: everything from `j` up to it is a digit and the next character is not |
| Text.DigitSearchFrom | FileRenamer.py:48 | no match exactly when there is no digit; otherwise the span is the leftmost maximal digit run |
| Text.DigitSearch | FileRenamer.py:48-51 | `\d+` search: `None` exactly when the string holds no digit, else the first maximal run of digits |
| Text.FirstDigitRunUnique | FileRenamer.py:48 | the first maximal digit run is unique, so the search's contract determines its result |
| Text.StripLeading | FileRenamer.py:53-54 | `^c+` substitution: the result is a suffix, everything removed is `c`, and the result does not start with `c` |
| Text.StripLeadingToNothing | FileRenamer.py:54 | stripping yields the empty string exactly when the input is all `c` ("000" becomes "") |
| Text.Repeat | FileRenamer.py:57 | `filler * n`: empty for an empty filler, otherwise `n` copies of the one character |
| Text.Pad | FileRenamer.py:55-58 | never truncates; unchanged for an empty filler; with a one-character filler the length is `max(len, width)`, the input is a suffix and the prefix is all filler |
| Text.SameRun | FileRenamer.py:57 | two runs of the same character with the same length are equal |
| Text.PadAbsorbsFiller | FileRenamer.py:55-58 | leading copies of the filler character are absorbed by padding with it |
| Text.StripThenPad | FileRenamer.py:53-58 | stripping `c` then padding with `c` equals padding directly when the input fits the width |
| Text.Examples | FileRenamer.py:53-58 | "007" strips to "7", "000" to "", "100" stays; "7" pads to "007" with "0" and stays "7" with ""; "1234" is not truncated |
| Text.Split | FileRenamer.py:106 | `str.split`: at least one piece, no piece contains the separator |
| Text.JoinCons | FileRenamer.py:107 | joining a piece in front of a non-empty list puts the separator between them |
| Text.JoinSplit | FileRenamer.py:106-107 | joining the pieces of a split gives the string back |
| Text.SplitWithoutSeparator | FileRenamer.py:106 | a separator-free prefix extends the first piece of the split |
| Text.SplitJoin | FileRenamer.py:106-107 | splitting a join of separator-free pieces gives the pieces back |
| Text.FirstIndex | FileRenamer.py:106 | the position of the first separator: it holds the separator and nothing before it does |
| Text.JoinTailOfSplit | FileRenamer.py:106-107 | joining all pieces but the first gives what follows the first separator, or "" when there is none |
| Text.AfterFirst | FileRenamer.py:106-107 | `sep.join(s.split(sep)[1:])` is "" when `s` has no separator, otherwise everything after the first separator |
| Template.RenderCons | FileRenamer.py:110-119 | a token in front renders its piece in front |
| Template.RenderSnoc | FileRenamer.py:110-119 | a token at the end renders its piece at the end |
| Template.RenderConcat | FileRenamer.py:110-119 | rendering a concatenation concatenates the renderings |
| Template.RenderUsesOnlyMentionedFields | FileRenamer.py:110-119 | the rendering depends only on the values of the fields the template mentions |
| Template.RenderWithoutFields | FileRenamer.py:110-119 | a template without fields renders to its literal text whatever the values |
| Template.RenderSingleField | FileRenamer.py:116-117 | a template that is one field renders to that field's value |
| FileRenamer.FirstChar | FileRenamer.py:12 | `s[:1]`: at most one character, a prefix of `s`, and exactly one character when `s` is non-empty |
| FileRenamer.NewRenamer | FileRenamer.py:5-18 | the fillers are cut to at most their first character and are empty only when given empty; every other argument is stored as given, in its own field; compiled patterns give a valid renamer |
| FileRenamer.DigitSearchFindsFirstRun | FileRenamer.py:48 | the `\d+` search returns any span that is the first maximal digit run |
| FileRenamer.NumberValue | FileRenamer.py:44-59 | failure exactly when the pattern has no match or the match holds no digit; otherwise the first maximal digit run of the match, zero-stripped if asked, padded to the width |
| FileRenamer.GetNumber | FileRenamer.py:61-75 | the step-by-step extraction (search, digit run, strip, pad with `fill_*_number`) yields exactly `NumberValue` |
| FileRenamer.EmptyNumber | FileRenamer.py:52-58 | the extracted number is "" exactly when the run is all zeros, zeros are stripped and there is no padding (empty filler or width at most 0) |
| FileRenamer.ZeroFillerUndoesStrip | FileRenamer.py:53-58 | with filler "0", stripping makes no difference while the run fits the width ("007" stays "007") |
| FileRenamer.GetCrudeMatch | FileRenamer.py:83-87 | the record carries the file name it probes |
| FileRenamer.GetProcessedMatch | FileRenamer.py:89-96 | a kept record carries the file name and a non-empty episode number |
| FileRenamer.ProcessIff | FileRenamer.py:89-96 | a record is dropped exactly when the primary probe fails or the episode value is failure or ""; a kept one holds the name, the season value and the episode value |
| FileRenamer.ProbesIgnored | FileRenamer.py:89-96 | the season and episode probe booleans do not influence the result |
| FileRenamer.SeasonNeverDrops | FileRenamer.py:92-96 | the season settings never decide whether a record is dropped, and a failed season is kept as absent |
| FileRenamer.DroppedIff | FileRenamer.py:89-96 | when the episode pattern matches and its match holds a digit, a record is dropped exactly when the primary probe fails or an all-zero episode run is stripped to nothing without padding |
| FileRenamer.ProbesAgreeWithExtraction | FileRenamer.py:31-39 | a number is found only where its probe passes; an empty season pattern always passes its probe and never yields a season |
| FileRenamer.Keep | FileRenamer.py:98-103 | the list without `None`: its length is the original length minus the count of `None`, and every entry is present |
| FileRenamer.RemoveFirstNoneKeeps | FileRenamer.py:102 | `remove(None)` lowers the count of `None` by one and keeps the non-`None` entries |
| FileRenamer.KeepWithoutNone | FileRenamer.py:101-103 | a list without `None` is left as it is |
| FileRenamer.KeepConcat | FileRenamer.py:98-103 | dropping `None`s commutes with concatenation, so relative order is kept |
| FileRenamer.KeepCounts | FileRenamer.py:98-103 | no `None` remains, and every other entry occurs as often as in the original |
| FileRenamer.RefineProcessedList | FileRenamer.py:98-103 | counting the `None`s and removing one that many times yields `Keep` of the input |
| FileRenamer.LeadingDotIgnored | FileRenamer.py:106 | a name starting with a dot has the extension of the name without that dot |
| FileRenamer.DotPrefixIgnored | FileRenamer.py:106 | putting a dot in front of any name does not change its extension |
| FileRenamer.ExtensionAfterFirstDot | FileRenamer.py:106-107 | for a name not starting with a dot, the extension is what follows its first dot |
| FileRenamer.HiddenFileExtension | FileRenamer.py:106-107 | ".hidden.txt" has the extension "txt" |
| FileRenamer.StemExtension | FileRenamer.py:106-107 | "hidden.txt" has the extension "txt" |
| FileRenamer.DoubleExtension | FileRenamer.py:106-107 | "archive.tar.gz" has the extension "tar.gz" |
| FileRenamer.DottedNameExtension | FileRenamer.py:106-107 | "show.S01E02.mkv" has the extension "S01E02.mkv" |
| FileRenamer.NoDotNoExtension | FileRenamer.py:106-107 | a name without a dot has the extension "" |
| FileRenamer.RenamingEntry | FileRenamer.py:105-120 | the entry's first component is the original file name; its second is the template rendered with `NameValue`, pinned field by field in NameValueFields |
| FileRenamer.NameValueFields | FileRenamer.py:110-119 | each placeholder gets its own value: the pattern's text, the two prefixes, the season ("False" when absent), the episode, the extension through `renaming_extension`, and the extension itself; with the default `renaming_extension` both extension fields give the extension |
| FileRenamer.NameValueSettings | FileRenamer.py:111-114 | `{match_criteria}`, `{season_prefix}` and `{episode_prefix}` get the renamer's settings |
| FileRenamer.NameValueNumbers | FileRenamer.py:113-115 | `{season_number}` and `{episode_number}` get the extracted numbers, an absent season as "False" |
| FileRenamer.NameValueExtensions | FileRenamer.py:106-118 | `{renaming_extension}` gets the extension template rendered with the extension, `{original_extension}` the extension |
| FileRenamer.Plan | FileRenamer.py:122-137 | the tagged error with "The path specified is invalid!" exactly when the path is not a directory; otherwise a list of pairs no longer than the listing |
| FileRenamer.GetRenamingList | FileRenamer.py:122-137 | the method's comprehensions and list refinement yield exactly `Plan` |
| FileRenamer.ProcessedListCons | FileRenamer.py:128-130 | the processed list of a listing is the processed head followed by the processed rest |
| FileRenamer.RenamingPairsConcat | FileRenamer.py:134-137 | the pairs of concatenated refined lists are the concatenated pairs |
| FileRenamer.ExpectedPairsSingle | FileRenamer.py:134-137 | a one-name listing contributes exactly that name's pairs |
| FileRenamer.HeadPair | FileRenamer.py:130-137 | a single name contributes its pair exactly when it survives the filter |
| FileRenamer.PlanIsExpected | FileRenamer.py:122-137 | for a directory, the plan is one `(name, new name)` pair per surviving name, in listing order |
| FileRenamer.ExpectedPairsMembers | FileRenamer.py:134-137 | every pair's first component is a listed, surviving name paired with its new name, and every surviving name has its pair |
| FileRenamer.ExpectedPairsConcat | FileRenamer.py:134-137 | the pairs of a concatenated listing are the pairs of each part in turn |
| FileRenamer.RenameFilesWithList | FileRenamer.py:139-147 | one pair per input entry, in order, each the old name with its resolved destination; the renames performed are exactly those pairs, and none in a dry run |
| FileRenamer.DefaultExtensionPassesThrough | FileRenamer.py:5 | the default `renaming_extension` renders to the original extension unchanged |
| FileRenamer.DefaultDestinationIsPath | FileRenamer.py:139-140 | the default destination template renders to the renamer's path |
| FileRenamer.DefaultRenamingSystemLayout | FileRenamer.py:5 | for any field values, the default naming template renders as "match_criteria season_prefix season_number episode_prefix episode_number.renaming_extension": single spaces between fields, a dot before the extension |
| Template.RenderThreePieces | FileRenamer.py:110-119 | a three-token template renders to its three pieces in order |
| Template.RenderFourPieces | FileRenamer.py:110-119 | a four-token template renders to its four pieces in order |
| FileRenamer.DefaultTemplatesNewName | FileRenamer.py:108-120 | with the default naming and extension templates, the new name is the pattern's text, the season prefix and number, the episode prefix and number, separated by single spaces, then a dot and the original extension |
| FileRenamer.DefaultSeasonAbsent | FileRenamer.py:5 | with the defaults, no season is ever found, and it renders as "False" |
| FileRenamer.DefaultEpisodeNumber | FileRenamer.py:5 | with the defaults, the episode is absent without a digit; otherwise it is the name's first digit, zero-stripped and padded with "0" to three places |
| FileRenamer.DefaultSurvives | FileRenamer.py:5 | with the defaults, a name survives exactly when the primary pattern matches and the name holds a digit |
| FileRenamer.DefaultNewName | FileRenamer.py:5 | with the defaults, a surviving name becomes "<pattern text> season False episode <episode number>.<original extension>" |
| FileRenamer.TitledSystemLayout | FileRenamer.py:150 | the demo's template shape, a title, the four number fields separated by spaces, and an ending, renders in that order |
| FileRenamer.SingleDigitNumber | FileRenamer.py:44-59 | a match made of a digit-free prefix and one non-zero digit yields that digit when the filler is empty |
| FileRenamer.MainRenamerSettings | FileRenamer.py:150 | the demo's renamer holds its patterns, template, the default prefixes and widths, empty fillers and zero stripping |
| FileRenamer.MainSeason | FileRenamer.py:150 | in the demo, the season match "s 1" yields the season "1" |
| FileRenamer.MainEpisode | FileRenamer.py:150 | in the demo, the episode match "ep 5" yields the episode "5" |
| FileRenamer.MainNewName | FileRenamer.py:150 | in the demo, "mha ep 5 s 1.mp4" survives and its new name is "My Hero Academia season 1 episode 5.mp4" |
| FileRenamer.MainExample | FileRenamer.py:150-151 | in the demo, the plan for a directory holding just "mha ep 5 s 1.mp4" is the one pair renaming it to "My Hero Academia season 1 episode 5.mp4" |

## Left out

- The filesystem calls are inputs, not operations: `os.path.isdir` (`check_path`), `os.listdir`, `os.path.abspath`/`os.path.join` and `os.rename`. Errors raised by `os.rename` are not modelled.
- The general regular-expression engine. The user's patterns are abstract search functions. Only the one property of the empty pattern is assumed of them, through `Compiled`.
- Text.IsDigit: matches only the ASCII digits, while Python's `\d` on `str` also matches every other Unicode decimal digit.
- The value of `{match_criteria}`: it is the `str()` of the compiled pattern object and is taken as a given string (`matchCriteriaText`).
- `str.format` beyond plain `{name}` fields: format specifications, `{{`/`}}` escapes, and the `KeyError` for an unknown field. Templates are token sequences over a fixed field type, so no unknown field can occur.
- Rendering of other Python values. A season or episode reaches the template as a string or as `False`, and only these two renderings are modelled.
- The `print` calls in `get_renaming_list` and in the `__main__` demo. The demo's final `rename_files_with_list` call is covered only by that method's general contract; the demo is modelled up to its plan (`MainExample`), with the searches of its three patterns taken as given.
- `is_match_season_enabled`: it compares a string with `True`, always returns `False`, and nothing calls it.
- The `messages` dictionary, except for its one error string (`InvalidPathMessage`).
- The in-place mutation of the processed list: `RefineProcessedList` returns the refined list as a new value. The aliasing between the processed and refined entries of `matching_files` is not modelled.
- Passing the invalid-path result `[False, message]` to `rename_files_with_list` is not modelled: that method takes a list of pairs.
- `get_crude_match` builds its four-slot list by appending. The fixed-size list is modelled as the record `MatchRecord`, built in one step.
- The Python truthiness checks of the walrus tests at FileRenamer.py:52 and :68 are always true: a `\d+` match is never empty. The `None` those branches would otherwise return is therefore not modelled.
