/** The `FileRenamer` class of FileRenamer.py: probing file names with the
    user's patterns, extracting and normalising season and episode numbers,
    dropping the names that do not qualify, rendering the new names from the
    naming template, and building the list of (old, new) pairs.

    The directory check, the directory listing, path joining and the rename
    system call are inputs: `isDir`, `listing` and `resolve` stand for
    `os.path.isdir`, `os.listdir` and `os.path.abspath(os.path.join(..))`, and
    the renames a call would perform are returned as a list. */
module FileRenamer {
  import opened Wrappers
  import opened Text
  import opened Template

  // ---------------------------------------------------------------------
  // Configuration
  // ---------------------------------------------------------------------

  /** A compiled user regular expression: its pattern text and its `search`,
      which yields the substring of the leftmost match, or `None`. */
  datatype Pattern = Pattern(text: string, search: string -> Option<string>)

  /** What `re.compile` guarantees of the empty pattern: it matches the empty
      string at the start of every name (a match object, which is truthy). */
  ghost predicate Compiled(p: Pattern) {
    p.text == [] ==> forall s :: p.search(s) == Some([])
  }

  /** The fields of the naming template (`renaming_system`). */
  datatype NameField =
    | MatchCriteria
    | SeasonPrefix
    | SeasonNumber
    | EpisodePrefix
    | EpisodeNumber
    | RenamingExtension
    | OriginalExtension

  /** The one field of the extension template (`renaming_extension`). */
  datatype ExtensionField = OriginalExtensionField

  /** The one field of the destination directory template. */
  datatype DestinationField = PathField

  /** The state of a `FileRenamer` object. None of its fields is reassigned
      after construction, so it is a value. `matchCriteriaText` is what
      `{match_criteria}` renders to: the `str()` of the compiled pattern
      object, which is not the pattern text. */
  datatype Renamer = Renamer(
    path: string,
    matchCriteria: Pattern,
    matchCriteriaText: string,
    renamingSystem: seq<Token<NameField>>,
    seasonMatchCriteria: Pattern,
    seasonPrefix: string,
    seasonMaxLength: int,
    seasonFiller: string,
    episodeMatchCriteria: Pattern,
    episodePrefix: string,
    episodeMaxLength: int,
    episodeFiller: string,
    renamingExtension: seq<Token<ExtensionField>>,
    stripPrecedingZeros: bool)

  /** What every renamer the constructor builds from compiled patterns
      satisfies. The lemmas below require only the conjuncts they use, so
      they also hold of renamers built otherwise. */
  ghost predicate Valid(cfg: Renamer) {
    && |cfg.seasonFiller| <= 1
    && |cfg.episodeFiller| <= 1
    && Compiled(cfg.matchCriteria)
    && Compiled(cfg.seasonMatchCriteria)
    && Compiled(cfg.episodeMatchCriteria)
  }

  /** Python `s[:1]`. */
  function FirstChar(s: string): (r: string)
    ensures |r| <= 1 && |r| <= |s| && r == s[..|r|]
    ensures s != [] ==> |r| == 1
  {
    if s == [] then [] else s[..1]
  }

  /** `FileRenamer.__init__`: keeps the arguments, except that the fillers are
      cut to their first character. */
  function NewRenamer(
    path: string,
    matchCriteria: Pattern,
    matchCriteriaText: string,
    renamingSystem: seq<Token<NameField>>,
    seasonMatchCriteria: Pattern,
    seasonMaxLength: int,
    seasonFiller: string,
    seasonPrefix: string,
    episodeMatchCriteria: Pattern,
    episodeMaxLength: int,
    episodeFiller: string,
    episodePrefix: string,
    renamingExtension: seq<Token<ExtensionField>>,
    stripPrecedingZeros: bool): (cfg: Renamer)
    ensures |cfg.seasonFiller| <= 1 && |cfg.seasonFiller| <= |seasonFiller|
    ensures cfg.seasonFiller == seasonFiller[..|cfg.seasonFiller|]
    ensures |cfg.episodeFiller| <= 1 && |cfg.episodeFiller| <= |episodeFiller|
    ensures cfg.episodeFiller == episodeFiller[..|cfg.episodeFiller|]
    ensures (cfg.seasonFiller == []) == (seasonFiller == [])
    ensures (cfg.episodeFiller == []) == (episodeFiller == [])
    ensures Compiled(matchCriteria) && Compiled(seasonMatchCriteria) && Compiled(episodeMatchCriteria) ==> Valid(cfg)
    ensures cfg.(seasonFiller := seasonFiller, episodeFiller := episodeFiller)
         == Renamer(path, matchCriteria, matchCriteriaText, renamingSystem,
                    seasonMatchCriteria, seasonPrefix, seasonMaxLength, seasonFiller,
                    episodeMatchCriteria, episodePrefix, episodeMaxLength, episodeFiller,
                    renamingExtension, stripPrecedingZeros)
  {
    Renamer(path, matchCriteria, matchCriteriaText, renamingSystem,
            seasonMatchCriteria, seasonPrefix, seasonMaxLength, FirstChar(seasonFiller),
            episodeMatchCriteria, episodePrefix, episodeMaxLength, FirstChar(episodeFiller),
            renamingExtension, stripPrecedingZeros)
  }

  const InvalidPathMessage := "The path specified is invalid!"

  // ---------------------------------------------------------------------
  // Probes
  // ---------------------------------------------------------------------

  /** `check_match_criteria` */
  function CheckMatchCriteria(cfg: Renamer, fileName: string): bool {
    cfg.matchCriteria.search(fileName).Some?
  }

  /** `check_season_match_criteria`: an empty season pattern counts as a match. */
  function CheckSeasonMatchCriteria(cfg: Renamer, fileName: string): bool {
    if cfg.seasonMatchCriteria.text != [] then cfg.seasonMatchCriteria.search(fileName).Some? else true
  }

  /** `check_episode_match_criteria` */
  function CheckEpisodeMatchCriteria(cfg: Renamer, fileName: string): bool {
    cfg.episodeMatchCriteria.search(fileName).Some?
  }

  // ---------------------------------------------------------------------
  // Number extraction (`get_season_number`, `get_episode_number`)
  // ---------------------------------------------------------------------

  function Normalised(digits: string, strip: bool): string {
    if strip then StripLeading(digits, '0') else digits
  }

  lemma DigitSearchFindsFirstRun(s: string)
    ensures forall i, j :: IsFirstDigitRun(s, i, j) ==> DigitSearch(s) == Some((i as nat, j as nat))
  {
    forall i, j | IsFirstDigitRun(s, i, j)
      ensures DigitSearch(s) == Some((i as nat, j as nat))
    {
      assert IsDigit(s[i]);
      var span := DigitSearch(s).value;
      FirstDigitRunUnique(s, i, j, span.0, span.1);
    }
  }

  /** The algorithm the season and the episode share: search the name with the
      pattern, take the first maximal run of digits of the match, optionally
      strip its leading zeros, and left-pad it to `maxLength` with `filler`.
      `None` is Python's `False`. */
  function NumberValue(fileName: string, p: Pattern, maxLength: int, filler: string, strip: bool): (r: Option<string>)
    ensures r.None? <==> p.search(fileName).None? || !HasDigit(p.search(fileName).value)
    ensures p.search(fileName).Some? ==>
      var m := p.search(fileName).value;
      forall i, j :: IsFirstDigitRun(m, i, j) ==> r == Some(Pad(Normalised(m[i..j], strip), maxLength, filler))
  {
    match p.search(fileName)
    case None => None
    case Some(m) =>
      DigitSearchFindsFirstRun(m);
      match DigitSearch(m)
      case None => None
      case Some(span) => Some(Pad(Normalised(m[span.0..span.1], strip), maxLength, filler))
  }

  /** The step-by-step form of the shared algorithm, rebinding the number as
      the source does. */
  method GetNumber(fileName: string, p: Pattern, maxLength: int, filler: string, strip: bool)
    returns (number: Option<string>)
    ensures number == NumberValue(fileName, p, maxLength, filler, strip)
  {
    var found := p.search(fileName);
    if found.None? {
      return None;
    }
    var run := DigitSearch(found.value);
    if run.None? {
      return None;
    }
    var digits := found.value[run.value.0..run.value.1];
    if strip {
      digits := StripLeading(digits, '0');
    }
    if |digits| < maxLength {
      var remaining := maxLength - |digits|;
      var fill := Repeat(filler, remaining);
      digits := fill + digits;
    }
    return Some(digits);
  }

  function SeasonValue(cfg: Renamer, fileName: string): Option<string> {
    NumberValue(fileName, cfg.seasonMatchCriteria, cfg.seasonMaxLength, cfg.seasonFiller, cfg.stripPrecedingZeros)
  }

  function EpisodeValue(cfg: Renamer, fileName: string): Option<string> {
    NumberValue(fileName, cfg.episodeMatchCriteria, cfg.episodeMaxLength, cfg.episodeFiller, cfg.stripPrecedingZeros)
  }

  /** The extracted number is the empty string exactly when the digit run is
      all zeros, zeros are stripped, and no padding is added (empty filler or
      a width of at most zero). */
  lemma EmptyNumber(fileName: string, p: Pattern, maxLength: int, filler: string, strip: bool, i: int, j: int)
    requires |filler| <= 1
    requires p.search(fileName).Some? && IsFirstDigitRun(p.search(fileName).value, i, j)
    ensures NumberValue(fileName, p, maxLength, filler, strip) == Some([]) <==>
      strip && AllChar(p.search(fileName).value[i..j], '0') && (filler == [] || maxLength <= 0)
  {
    StripLeadingToNothing(p.search(fileName).value[i..j], '0');
  }

  /** With `'0'` as the filler, stripping the leading zeros changes nothing while
      the digit run fits the width: "007" at width 3 stays "007". */
  lemma ZeroFillerUndoesStrip(fileName: string, p: Pattern, maxLength: int, i: int, j: int)
    requires p.search(fileName).Some? && IsFirstDigitRun(p.search(fileName).value, i, j)
    requires j - i <= maxLength
    ensures NumberValue(fileName, p, maxLength, ['0'], true) == NumberValue(fileName, p, maxLength, ['0'], false)
  {
    StripThenPad(p.search(fileName).value[i..j], maxLength, '0');
  }

  // ---------------------------------------------------------------------
  // Per-file filter (`get_crude_match`, `get_processed_match`)
  // ---------------------------------------------------------------------

  /** `[file_name, matches primary, matches season, matches episode]` */
  datatype MatchRecord = MatchRecord(
    fileName: string,
    matchCriteria: bool,
    matchSeasonCriteria: bool,
    matchEpisodeCriteria: bool)

  /** `[file_name, season_number, episode_number]`; an absent season stays
      `None` (Python `False`). */
  datatype Extracted = Extracted(fileName: string, seasonNumber: Option<string>, episodeNumber: string)

  function GetCrudeMatch(cfg: Renamer, fileName: string): (r: MatchRecord)
    ensures r.fileName == fileName
  {
    MatchRecord(fileName, CheckMatchCriteria(cfg, fileName),
                CheckSeasonMatchCriteria(cfg, fileName), CheckEpisodeMatchCriteria(cfg, fileName))
  }

  /** A Python value is truthy here when it is a non-empty string. */
  predicate Truthy(v: Option<string>) {
    v.Some? && v.value != []
  }

  /** `get_processed_match`: `None` drops the record. */
  function GetProcessedMatch(cfg: Renamer, fileName: string, matchCriteria: bool,
                             matchSeasonCriteria: bool, matchEpisodeCriteria: bool): (r: Option<Extracted>)
    ensures r.Some? ==> r.value.fileName == fileName && r.value.episodeNumber != []
  {
    if !matchCriteria then None
    else
      var seasonNumber := SeasonValue(cfg, fileName);
      var episodeNumber := EpisodeValue(cfg, fileName);
      if !Truthy(episodeNumber) then None
      else Some(Extracted(fileName, seasonNumber, episodeNumber.value))
  }

  /** What happens to one listed name: its probes, then the filter. */
  function Process(cfg: Renamer, fileName: string): Option<Extracted> {
    var crude := GetCrudeMatch(cfg, fileName);
    GetProcessedMatch(cfg, crude.fileName, crude.matchCriteria, crude.matchSeasonCriteria, crude.matchEpisodeCriteria)
  }

  /** A name survives the filter when the primary pattern matches and the
      episode number is a non-empty string. */
  predicate Survives(cfg: Renamer, fileName: string) {
    CheckMatchCriteria(cfg, fileName) && Truthy(EpisodeValue(cfg, fileName))
  }

  /** A record is dropped exactly when the primary pattern does not match or
      the episode number is `False` or the empty string; otherwise it carries
      the name and both extracted numbers. */
  lemma ProcessIff(cfg: Renamer, fileName: string)
    ensures Process(cfg, fileName).None? <==>
      !CheckMatchCriteria(cfg, fileName) || EpisodeValue(cfg, fileName).None? || EpisodeValue(cfg, fileName) == Some([])
    ensures Process(cfg, fileName).Some? ==>
      Process(cfg, fileName).value == Extracted(fileName, SeasonValue(cfg, fileName), EpisodeValue(cfg, fileName).value)
  {
  }

  /** The season and episode probes passed to `get_processed_match` do not
      influence its result. */
  lemma ProbesIgnored(cfg: Renamer, fileName: string, matchCriteria: bool, s1: bool, e1: bool, s2: bool, e2: bool)
    ensures GetProcessedMatch(cfg, fileName, matchCriteria, s1, e1) == GetProcessedMatch(cfg, fileName, matchCriteria, s2, e2)
  {
  }

  /** The season settings never decide whether a record is dropped: a failed
      season extraction keeps the record. */
  lemma SeasonNeverDrops(cfg: Renamer, fileName: string, p: Pattern, maxLength: int, filler: string)
    ensures Process(cfg.(seasonMatchCriteria := p, seasonMaxLength := maxLength, seasonFiller := filler), fileName).Some?
        == Process(cfg, fileName).Some?
    ensures Survives(cfg, fileName) && SeasonValue(cfg, fileName).None? ==>
      Process(cfg, fileName) == Some(Extracted(fileName, None, EpisodeValue(cfg, fileName).value))
  {
  }

  /** A dropped name, spelt out, for a name whose episode pattern matches and
      whose match holds a digit: either the primary pattern does not match, or
      the episode's run of zeros is reduced to nothing. */
  lemma DroppedIff(cfg: Renamer, fileName: string, i: int, j: int)
    requires |cfg.episodeFiller| <= 1
    requires cfg.episodeMatchCriteria.search(fileName).Some?
    requires IsFirstDigitRun(cfg.episodeMatchCriteria.search(fileName).value, i, j)
    ensures Process(cfg, fileName).None? <==>
      || !CheckMatchCriteria(cfg, fileName)
      || (&& cfg.stripPrecedingZeros
          && AllChar(cfg.episodeMatchCriteria.search(fileName).value[i..j], '0')
          && (cfg.episodeFiller == [] || cfg.episodeMaxLength <= 0))
  {
    EmptyNumber(fileName, cfg.episodeMatchCriteria, cfg.episodeMaxLength, cfg.episodeFiller, cfg.stripPrecedingZeros, i, j);
  }

  /** The probes agree with extraction: a number is only found where its
      pattern matches, and an empty season pattern always passes its probe
      while never yielding a season. */
  lemma ProbesAgreeWithExtraction(cfg: Renamer, fileName: string)
    requires Compiled(cfg.seasonMatchCriteria)
    ensures EpisodeValue(cfg, fileName).Some? ==> CheckEpisodeMatchCriteria(cfg, fileName)
    ensures SeasonValue(cfg, fileName).Some? ==> CheckSeasonMatchCriteria(cfg, fileName)
    ensures cfg.seasonMatchCriteria.text == [] ==> CheckSeasonMatchCriteria(cfg, fileName) && SeasonValue(cfg, fileName).None?
  {
    if cfg.seasonMatchCriteria.text == [] {
      assert cfg.seasonMatchCriteria.search(fileName) == Some([]);
    }
  }

  // ---------------------------------------------------------------------
  // `refine_processed_list`
  // ---------------------------------------------------------------------

  function CountNone<T>(s: seq<Option<T>>): nat {
    if s == [] then 0 else (if s[0].None? then 1 else 0) + CountNone(s[1..])
  }

  /** The list without its `None` entries, the rest in their original order. */
  function Keep<T>(s: seq<Option<T>>): (r: seq<Option<T>>)
    ensures |r| == |s| - CountNone(s)
    ensures forall k :: 0 <= k < |r| ==> r[k].Some?
  {
    if s == [] then [] else (if s[0].None? then [] else [s[0]]) + Keep(s[1..])
  }

  /** Python `list.remove(None)`: drops the first `None`. */
  function RemoveFirstNone<T>(s: seq<Option<T>>): seq<Option<T>> {
    if s == [] then [] else if s[0].None? then s[1..] else [s[0]] + RemoveFirstNone(s[1..])
  }

  lemma {:induction false} RemoveFirstNoneKeeps<T>(s: seq<Option<T>>)
    requires CountNone(s) > 0
    ensures CountNone(RemoveFirstNone(s)) == CountNone(s) - 1
    ensures Keep(RemoveFirstNone(s)) == Keep(s)
  {
    if s[0].Some? {
      var t := [s[0]] + RemoveFirstNone(s[1..]);
      RemoveFirstNoneKeeps(s[1..]);
      assert t[0] == s[0] && t[1..] == RemoveFirstNone(s[1..]);
    }
  }

  lemma {:induction false} KeepWithoutNone<T>(s: seq<Option<T>>)
    requires CountNone(s) == 0
    ensures Keep(s) == s
  {
    if s != [] {
      KeepWithoutNone(s[1..]);
    }
  }

  /** Dropping `None`s commutes with concatenation, so `Keep` preserves the
      relative order of the entries it keeps. */
  lemma {:induction false} KeepConcat<T>(a: seq<Option<T>>, b: seq<Option<T>>)
    ensures Keep(a + b) == Keep(a) + Keep(b)
  {
    if a == [] {
      assert a + b == b;
    } else {
      assert (a + b)[0] == a[0] && (a + b)[1..] == a[1..] + b;
      KeepConcat(a[1..], b);
    }
  }

  /** `Keep` keeps every non-`None` entry as often as it occurs, and no `None`. */
  lemma {:induction false} KeepCounts<T>(s: seq<Option<T>>)
    ensures multiset(Keep(s))[None] == 0
    ensures forall x: Option<T> :: x.Some? ==> multiset(Keep(s))[x] == multiset(s)[x]
  {
    if s != [] {
      KeepCounts(s[1..]);
      var head := if s[0].None? then [] else [s[0]];
      assert s == [s[0]] + s[1..];
      assert Keep(s) == head + Keep(s[1..]);
      assert multiset(s) == multiset{s[0]} + multiset(s[1..]);
      assert multiset(Keep(s)) == multiset(head) + multiset(Keep(s[1..]));
    }
  }

  /** `refine_processed_list`: counts the `None` entries, then removes one
      `None` that many times. */
  method RefineProcessedList<T>(processedList: seq<Option<T>>) returns (refined: seq<Option<T>>)
    ensures refined == Keep(processedList)
  {
    var count := CountNone(processedList);
    refined := processedList;
    for i := 0 to count
      invariant CountNone(refined) == count - i
      invariant Keep(refined) == Keep(processedList)
    {
      RemoveFirstNoneKeeps(refined);
      refined := RemoveFirstNone(refined);
    }
    KeepWithoutNone(refined);
  }

  // ---------------------------------------------------------------------
  // New names (`__get_renaming_list`)
  // ---------------------------------------------------------------------

  /** The original extension: leading dots stripped, then everything after the
      first remaining dot, or nothing when there is no dot. */
  function OriginalExtensionOf(fileName: string): string {
    AfterFirst(StripLeading(fileName, '.'), '.')
  }

  /** Leading dots do not count: a hidden file's extension is that of the name
      without its dot. */
  lemma LeadingDotIgnored(fileName: string)
    requires fileName != [] && fileName[0] == '.'
    ensures OriginalExtensionOf(fileName) == OriginalExtensionOf(fileName[1..])
  {
  }

  /** The extension of a name that does not start with a dot is what follows
      its first dot. */
  lemma ExtensionAfterFirstDot(fileName: string, k: nat)
    requires 0 < k < |fileName| && fileName[0] != '.' && fileName[k] == '.'
    requires forall i :: 0 <= i < k ==> fileName[i] != '.'
    ensures OriginalExtensionOf(fileName) == fileName[k + 1..]
  {
    assert '.' in fileName;
    var f := FirstIndex(fileName, '.');
    assert fileName[..f] == fileName[..k][..f] by { assert f <= k; }
  }

  /** ".hidden.txt" has the extension "txt". */
  lemma HiddenFileExtension(name: string)
    requires name == "hidden.txt"
    ensures OriginalExtensionOf(['.'] + name) == "txt"
  {
    DotPrefixIgnored(name);
    StemExtension(name);
  }

  /** A dot in front of a name does not change its extension. */
  lemma DotPrefixIgnored(name: string)
    ensures OriginalExtensionOf(['.'] + name) == OriginalExtensionOf(name)
  {
    var hidden := ['.'] + name;
    assert hidden[0] == '.' && hidden[1..] == name;
    LeadingDotIgnored(hidden);
  }

  /** "hidden.txt" has the extension "txt". */
  lemma StemExtension(name: string)
    requires name == "hidden.txt"
    ensures OriginalExtensionOf(name) == "txt"
  {
    ExtensionAfterFirstDot(name, 6);
    assert name[7..] == "txt";
  }

  /** "archive.tar.gz" has the extension "tar.gz". */
  lemma DoubleExtension(fileName: string)
    requires fileName == "archive.tar.gz"
    ensures OriginalExtensionOf(fileName) == "tar.gz"
  {
    ExtensionAfterFirstDot(fileName, 7);
    assert fileName[8..] == "tar.gz";
  }

  /** "show.S01E02.mkv" has the extension "S01E02.mkv": everything after the
      first dot, not only the last component. */
  lemma DottedNameExtension(fileName: string)
    requires fileName == "show.S01E02.mkv"
    ensures OriginalExtensionOf(fileName) == "S01E02.mkv"
  {
    ExtensionAfterFirstDot(fileName, 4);
    assert fileName[5..] == "S01E02.mkv";
  }

  /** A name without a dot has the empty extension. */
  lemma NoDotNoExtension(fileName: string)
    requires forall i :: 0 <= i < |fileName| ==> fileName[i] != '.'
    ensures OriginalExtensionOf(fileName) == ""
  {
  }

  /** How Python's `str.format` renders `False`, the value an absent season
      reaches the template with. */
  const AbsentNumberText := "False"

  function NumberText(v: Option<string>): string {
    match v
    case Some(s) => s
    case None => AbsentNumberText
  }

  function ExtensionValue(fileName: string): ExtensionField -> string {
    _ => OriginalExtensionOf(fileName)
  }

  /** The value of each field of the naming template. */
  function NameValue(cfg: Renamer, fileName: string, seasonNumber: Option<string>, episodeNumber: string): NameField -> string {
    f => FieldValue(cfg, fileName, seasonNumber, episodeNumber, f)
  }

  function FieldValue(cfg: Renamer, fileName: string, seasonNumber: Option<string>, episodeNumber: string, f: NameField): string {
    match f
    case MatchCriteria => cfg.matchCriteriaText
    case SeasonPrefix => cfg.seasonPrefix
    case SeasonNumber => NumberText(seasonNumber)
    case EpisodePrefix => cfg.episodePrefix
    case EpisodeNumber => episodeNumber
    case RenamingExtension => Render(cfg.renamingExtension, ExtensionValue(fileName))
    case OriginalExtension => OriginalExtensionOf(fileName)
  }

  /** `__get_renaming_list`: the pair of the old name and the rendered new name. */
  function RenamingEntry(cfg: Renamer, fileName: string, seasonNumber: Option<string>, episodeNumber: string): (entry: (string, string))
    ensures entry.0 == fileName
  {
    (fileName, Render(cfg.renamingSystem, NameValue(cfg, fileName, seasonNumber, episodeNumber)))
  }

  /** Which value fills which placeholder of the naming template: the
      renamer's settings, the two extracted numbers, and the extension, passed
      through `renaming_extension` for `{renaming_extension}` and as it is for
      `{original_extension}`. With the default `renaming_extension` both give
      the extension. */
  lemma NameValueFields(cfg: Renamer, fileName: string, seasonNumber: Option<string>, episodeNumber: string)
    ensures NameValue(cfg, fileName, seasonNumber, episodeNumber)(MatchCriteria) == cfg.matchCriteriaText
    ensures NameValue(cfg, fileName, seasonNumber, episodeNumber)(SeasonPrefix) == cfg.seasonPrefix
    ensures NameValue(cfg, fileName, seasonNumber, episodeNumber)(SeasonNumber) == NumberText(seasonNumber)
    ensures NameValue(cfg, fileName, seasonNumber, episodeNumber)(EpisodePrefix) == cfg.episodePrefix
    ensures NameValue(cfg, fileName, seasonNumber, episodeNumber)(EpisodeNumber) == episodeNumber
    ensures NameValue(cfg, fileName, seasonNumber, episodeNumber)(RenamingExtension)
         == Render(cfg.renamingExtension, ExtensionValue(fileName))
    ensures NameValue(cfg, fileName, seasonNumber, episodeNumber)(OriginalExtension) == OriginalExtensionOf(fileName)
    ensures cfg.renamingExtension == DefaultRenamingExtension ==>
      NameValue(cfg, fileName, seasonNumber, episodeNumber)(RenamingExtension) == OriginalExtensionOf(fileName)
  {
    NameValueSettings(cfg, fileName, seasonNumber, episodeNumber);
    NameValueNumbers(cfg, fileName, seasonNumber, episodeNumber);
    NameValueExtensions(cfg, fileName, seasonNumber, episodeNumber);
    DefaultExtensionPassesThrough(fileName);
  }

  lemma NameValueSettings(cfg: Renamer, fileName: string, seasonNumber: Option<string>, episodeNumber: string)
    ensures NameValue(cfg, fileName, seasonNumber, episodeNumber)(MatchCriteria) == cfg.matchCriteriaText
    ensures NameValue(cfg, fileName, seasonNumber, episodeNumber)(SeasonPrefix) == cfg.seasonPrefix
    ensures NameValue(cfg, fileName, seasonNumber, episodeNumber)(EpisodePrefix) == cfg.episodePrefix
  {
  }

  lemma NameValueNumbers(cfg: Renamer, fileName: string, seasonNumber: Option<string>, episodeNumber: string)
    ensures NameValue(cfg, fileName, seasonNumber, episodeNumber)(SeasonNumber) == NumberText(seasonNumber)
    ensures NameValue(cfg, fileName, seasonNumber, episodeNumber)(EpisodeNumber) == episodeNumber
  {
  }

  lemma NameValueExtensions(cfg: Renamer, fileName: string, seasonNumber: Option<string>, episodeNumber: string)
    ensures NameValue(cfg, fileName, seasonNumber, episodeNumber)(RenamingExtension)
         == Render(cfg.renamingExtension, ExtensionValue(fileName))
    ensures NameValue(cfg, fileName, seasonNumber, episodeNumber)(OriginalExtension) == OriginalExtensionOf(fileName)
  {
  }

  function EntryOf(cfg: Renamer, record: Extracted): (string, string) {
    RenamingEntry(cfg, record.fileName, record.seasonNumber, record.episodeNumber)
  }

  // ---------------------------------------------------------------------
  // The renaming list (`get_renaming_list`)
  // ---------------------------------------------------------------------

  /** `[False, message]` for an invalid path, the list of pairs otherwise. */
  datatype RenamingList = InvalidPath(message: string) | Renames(pairs: seq<(string, string)>)

  function CrudeList(cfg: Renamer, listing: seq<string>): seq<MatchRecord> {
    seq(|listing|, i requires 0 <= i < |listing| => GetCrudeMatch(cfg, listing[i]))
  }

  function ProcessedList(cfg: Renamer, crude: seq<MatchRecord>): seq<Option<Extracted>> {
    seq(|crude|, i requires 0 <= i < |crude| =>
      GetProcessedMatch(cfg, crude[i].fileName, crude[i].matchCriteria,
                        crude[i].matchSeasonCriteria, crude[i].matchEpisodeCriteria))
  }

  function RenamingPairs(cfg: Renamer, refined: seq<Option<Extracted>>): seq<(string, string)>
    requires forall k :: 0 <= k < |refined| ==> refined[k].Some?
  {
    seq(|refined|, i requires 0 <= i < |refined| => EntryOf(cfg, refined[i].value))
  }

  /** What `get_renaming_list` returns, given whether the path is a directory
      and the directory's listing. */
  function Plan(cfg: Renamer, isDir: bool, listing: seq<string>): (r: RenamingList)
    ensures !isDir <==> r == InvalidPath(InvalidPathMessage)
    ensures isDir ==> r.Renames? && |r.pairs| <= |listing|
  {
    if !isDir then InvalidPath(InvalidPathMessage)
    else Renames(RenamingPairs(cfg, Keep(ProcessedList(cfg, CrudeList(cfg, listing)))))
  }

  method GetRenamingList(cfg: Renamer, isDir: bool, listing: seq<string>) returns (r: RenamingList)
    ensures r == Plan(cfg, isDir, listing)
  {
    if !isDir {
      return InvalidPath(InvalidPathMessage);
    }
    var crude := CrudeList(cfg, listing);
    var processed := ProcessedList(cfg, crude);
    var refined := RefineProcessedList(processed);
    r := Renames(RenamingPairs(cfg, refined));
  }

  /** The new name of a surviving file. */
  function NewName(cfg: Renamer, fileName: string): string
    requires Survives(cfg, fileName)
  {
    RenamingEntry(cfg, fileName, SeasonValue(cfg, fileName), EpisodeValue(cfg, fileName).value).1
  }

  /** The renaming list stated directly: one pair per surviving name, in
      listing order. */
  function ExpectedPairs(cfg: Renamer, listing: seq<string>): seq<(string, string)> {
    if listing == [] then [] else PairsFor(cfg, listing[0]) + ExpectedPairs(cfg, listing[1..])
  }

  /** The pair one name contributes: none when it does not survive. */
  function PairsFor(cfg: Renamer, fileName: string): seq<(string, string)> {
    if Survives(cfg, fileName) then [(fileName, NewName(cfg, fileName))] else []
  }

  /** A one-name listing contributes just that name's pairs. */
  lemma ExpectedPairsSingle(cfg: Renamer, fileName: string)
    ensures ExpectedPairs(cfg, [fileName]) == PairsFor(cfg, fileName)
  {
    assert [fileName][1..] == [];
  }

  lemma ProcessedListCons(cfg: Renamer, listing: seq<string>)
    requires listing != []
    ensures ProcessedList(cfg, CrudeList(cfg, listing))
         == [Process(cfg, listing[0])] + ProcessedList(cfg, CrudeList(cfg, listing[1..]))
  {
  }

  lemma RenamingPairsConcat(cfg: Renamer, a: seq<Option<Extracted>>, b: seq<Option<Extracted>>)
    requires forall k :: 0 <= k < |a| ==> a[k].Some?
    requires forall k :: 0 <= k < |b| ==> b[k].Some?
    ensures forall k :: 0 <= k < |a + b| ==> (a + b)[k].Some?
    ensures RenamingPairs(cfg, a + b) == RenamingPairs(cfg, a) + RenamingPairs(cfg, b)
  {
    assert forall k :: 0 <= k < |a + b| ==> (a + b)[k] == if k < |a| then a[k] else b[k - |a|];
    var l, r := RenamingPairs(cfg, a + b), RenamingPairs(cfg, a) + RenamingPairs(cfg, b);
    assert |l| == |r|;
    forall k | 0 <= k < |l|
      ensures l[k] == r[k]
    {
      if k < |a| {
        assert (a + b)[k] == a[k];
      } else {
        assert (a + b)[k] == b[k - |a|];
      }
    }
  }

  lemma HeadPair(cfg: Renamer, fileName: string)
    ensures forall k :: 0 <= k < |Keep([Process(cfg, fileName)])| ==> Keep([Process(cfg, fileName)])[k].Some?
    ensures RenamingPairs(cfg, Keep([Process(cfg, fileName)]))
         == PairsFor(cfg, fileName)
  {
    var head := Process(cfg, fileName);
    assert [head][1..] == [];
    assert Keep([head]) == if head.None? then [] else [head];
    ProcessIff(cfg, fileName);
  }

  function Refined(cfg: Renamer, listing: seq<string>): seq<Option<Extracted>> {
    Keep(ProcessedList(cfg, CrudeList(cfg, listing)))
  }

  /** `get_renaming_list` on a directory yields exactly one pair per surviving
      name, in listing order, each pairing the name with its new name. */
  lemma {:induction false} PlanIsExpected(cfg: Renamer, listing: seq<string>)
    ensures Plan(cfg, true, listing) == Renames(ExpectedPairs(cfg, listing))
  {
    assert Plan(cfg, true, listing) == Renames(RenamingPairs(cfg, Refined(cfg, listing)));
    if listing != [] {
      var head := Process(cfg, listing[0]);
      var rest := ProcessedList(cfg, CrudeList(cfg, listing[1..]));
      ProcessedListCons(cfg, listing);
      KeepConcat([head], rest);
      assert Refined(cfg, listing) == Keep([head]) + Refined(cfg, listing[1..]);
      HeadPair(cfg, listing[0]);
      RenamingPairsConcat(cfg, Keep([head]), Refined(cfg, listing[1..]));
      PlanIsExpected(cfg, listing[1..]);
    }
  }

  /** The surviving names and nothing else, each with its new name. */
  lemma {:induction false} ExpectedPairsMembers(cfg: Renamer, listing: seq<string>)
    ensures forall k :: 0 <= k < |ExpectedPairs(cfg, listing)| ==>
      var pair := ExpectedPairs(cfg, listing)[k];
      pair.0 in listing && Survives(cfg, pair.0) && pair.1 == NewName(cfg, pair.0)
    ensures forall n :: n in listing && Survives(cfg, n) ==> (n, NewName(cfg, n)) in ExpectedPairs(cfg, listing)
  {
    if listing != [] {
      ExpectedPairsMembers(cfg, listing[1..]);
      assert listing == [listing[0]] + listing[1..];
    }
  }

  /** Listing order is kept: the pairs for a concatenated listing are the
      pairs for each part, one after the other. */
  lemma {:induction false} ExpectedPairsConcat(cfg: Renamer, a: seq<string>, b: seq<string>)
    ensures ExpectedPairs(cfg, a + b) == ExpectedPairs(cfg, a) + ExpectedPairs(cfg, b)
  {
    if a == [] {
      assert a + b == b;
    } else {
      assert (a + b)[0] == a[0] && (a + b)[1..] == a[1..] + b;
      ExpectedPairsConcat(cfg, a[1..], b);
      var h, x, y := PairsFor(cfg, a[0]), ExpectedPairs(cfg, a[1..]), ExpectedPairs(cfg, b);
      assert ExpectedPairs(cfg, a + b) == h + (x + y);
      assert h + (x + y) == (h + x) + y;
    }
  }

  // ---------------------------------------------------------------------
  // Applying the list (`rename_files_with_list`)
  // ---------------------------------------------------------------------

  /** The destination directory: the template rendered with `{path}`. */
  function DestinationDirectory(cfg: Renamer, destinationPath: seq<Token<DestinationField>>): string {
    Render(destinationPath, _ => cfg.path)
  }

  /** `rename_files_with_list`: pairs each old name with the resolved
      destination of its new name. `resolve` stands for
      `os.path.abspath(os.path.join(..))`; `performed` lists the `os.rename`
      calls in the order they are made, none when `rename` is off. */
  method RenameFilesWithList(cfg: Renamer, renamingList: seq<(string, string)>,
                             destinationPath: seq<Token<DestinationField>>, rename: bool,
                             resolve: (string, string) -> string)
    returns (returnList: seq<(string, string)>, performed: seq<(string, string)>)
    ensures |returnList| == |renamingList|
    ensures forall k :: 0 <= k < |renamingList| ==>
      returnList[k] == (renamingList[k].0, resolve(DestinationDirectory(cfg, destinationPath), renamingList[k].1))
    ensures performed == if rename then returnList else []
  {
    var destination := DestinationDirectory(cfg, destinationPath);
    returnList, performed := [], [];
    for i := 0 to |renamingList|
      invariant |returnList| == i
      invariant forall k :: 0 <= k < i ==> returnList[k] == (renamingList[k].0, resolve(destination, renamingList[k].1))
      invariant performed == if rename then returnList else []
    {
      var (oldName, newName) := renamingList[i];
      var fileNameDiff := (oldName, resolve(destination, newName));
      if rename {
        performed := performed + [fileNameDiff];
      }
      returnList := returnList + [fileNameDiff];
    }
  }

  // ---------------------------------------------------------------------
  // Defaults of the constructor
  // ---------------------------------------------------------------------

  /** `"{match_criteria} {season_prefix} {season_number} {episode_prefix} {episode_number}.{renaming_extension}"` */
  const DefaultRenamingSystem: seq<Token<NameField>> := [
    Field(MatchCriteria), Lit(" "), Field(SeasonPrefix), Lit(" "), Field(SeasonNumber), Lit(" "),
    Field(EpisodePrefix), Lit(" "), Field(EpisodeNumber), Lit("."), Field(RenamingExtension)]

  /** `"{original_extension}"` */
  const DefaultRenamingExtension: seq<Token<ExtensionField>> := [Field(OriginalExtensionField)]

  /** `"{path}"` */
  const DefaultDestinationPath: seq<Token<DestinationField>> := [Field(PathField)]

  /** The search of the empty pattern. */
  function MatchesEmpty(s: string): Option<string> {
    Some([])
  }

  /** The search of the pattern `\d`: the first digit. */
  function MatchesOneDigit(s: string): Option<string> {
    match DigitSearch(s)
    case None => None
    case Some(span) => Some(s[span.0..span.0 + 1])
  }

  /** A renamer built with every default but the path and the primary pattern. */
  function DefaultRenamer(path: string, matchCriteria: Pattern, matchCriteriaText: string): Renamer {
    NewRenamer(path, matchCriteria, matchCriteriaText, DefaultRenamingSystem,
               Pattern([], MatchesEmpty), 3, "0", "season",
               Pattern("\\d", MatchesOneDigit), 3, "0", "episode",
               DefaultRenamingExtension, true)
  }

  /** The default extension template passes the original extension through. */
  lemma DefaultExtensionPassesThrough(fileName: string)
    ensures Render(DefaultRenamingExtension, ExtensionValue(fileName)) == OriginalExtensionOf(fileName)
  {
    RenderSingleField(OriginalExtensionField, ExtensionValue(fileName));
  }

  /** The default destination directory is the renamer's path. */
  lemma DefaultDestinationIsPath(cfg: Renamer)
    ensures DestinationDirectory(cfg, DefaultDestinationPath) == cfg.path
  {
    RenderSingleField(PathField, _ => cfg.path);
  }

  /** "<match_criteria> <season_prefix> <season_number> <episode_prefix> <episode_number>.<renaming_extension>" */
  function DefaultLayout(matchCriteria: string, seasonPrefix: string, seasonNumber: string,
                         episodePrefix: string, episodeNumber: string, extension: string): string {
    (matchCriteria + " " + seasonPrefix + " ")
    + ((seasonNumber + " " + episodePrefix + " ") + (episodeNumber + "." + extension))
  }

  /** The default naming template lays the values of its fields out with
      single spaces between them and a dot before the extension. */
  lemma DefaultRenamingSystemLayout(v: NameField -> string)
    ensures Render(DefaultRenamingSystem, v)
         == DefaultLayout(v(MatchCriteria), v(SeasonPrefix), v(SeasonNumber), v(EpisodePrefix),
                          v(EpisodeNumber), v(RenamingExtension))
  {
    var t := DefaultRenamingSystem;
    assert t == t[..4] + (t[4..8] + t[8..]);
    RenderConcat(t[..4], t[4..8] + t[8..], v);
    RenderConcat(t[4..8], t[8..], v);
    RenderFourPieces(t[..4], v);
    RenderFourPieces(t[4..8], v);
    RenderThreePieces(t[8..], v);
  }

  /** With the default naming and extension templates, the new name is the
      pattern's text, the season prefix and number, the episode prefix and
      number, separated by spaces, then a dot and the original extension. An
      absent season appears as "False". */
  lemma DefaultTemplatesNewName(cfg: Renamer, fileName: string, seasonNumber: Option<string>, episodeNumber: string)
    requires cfg.renamingSystem == DefaultRenamingSystem && cfg.renamingExtension == DefaultRenamingExtension
    ensures RenamingEntry(cfg, fileName, seasonNumber, episodeNumber).1
         == DefaultLayout(cfg.matchCriteriaText, cfg.seasonPrefix, NumberText(seasonNumber),
                          cfg.episodePrefix, episodeNumber, OriginalExtensionOf(fileName))
  {
    var v := NameValue(cfg, fileName, seasonNumber, episodeNumber);
    DefaultRenamingSystemLayout(v);
    NameValueFields(cfg, fileName, seasonNumber, episodeNumber);
  }

  /** With every default, no season is ever found: the empty season pattern
      matches the empty string, which holds no digit, so the season reaches
      the template as `False` and renders as "False". */
  lemma DefaultSeasonAbsent(path: string, matchCriteria: Pattern, matchCriteriaText: string, fileName: string)
    ensures SeasonValue(DefaultRenamer(path, matchCriteria, matchCriteriaText), fileName) == None
    ensures NumberText(SeasonValue(DefaultRenamer(path, matchCriteria, matchCriteriaText), fileName)) == "False"
  {
    assert !HasDigit([]);
  }

  /** With every default, the episode number is the first digit of the name,
      its zero stripped, padded with '0' to three places. */
  lemma DefaultEpisodeNumber(path: string, matchCriteria: Pattern, matchCriteriaText: string, fileName: string)
    ensures !HasDigit(fileName) ==> EpisodeValue(DefaultRenamer(path, matchCriteria, matchCriteriaText), fileName) == None
    ensures HasDigit(fileName) ==>
      EpisodeValue(DefaultRenamer(path, matchCriteria, matchCriteriaText), fileName)
        == Some(Pad(StripLeading([fileName[DigitSearch(fileName).value.0]], '0'), 3, "0"))
  {
    var cfg := DefaultRenamer(path, matchCriteria, matchCriteriaText);
    assert cfg.episodeFiller == "0";
    assert cfg.episodeMaxLength == 3 && cfg.stripPrecedingZeros;
    if HasDigit(fileName) {
      var i := DigitSearch(fileName).value.0;
      var c := fileName[i];
      assert fileName[i..i + 1] == [c];
      assert cfg.episodeMatchCriteria.search(fileName) == Some([c]);
      assert IsFirstDigitRun([c], 0, 1);
      assert [c][0..1] == [c];
    }
  }

  /** With every default, a name survives exactly when the primary pattern
      matches and the name holds a digit. */
  lemma DefaultSurvives(path: string, matchCriteria: Pattern, matchCriteriaText: string, fileName: string)
    ensures Survives(DefaultRenamer(path, matchCriteria, matchCriteriaText), fileName)
        <==> matchCriteria.search(fileName).Some? && HasDigit(fileName)
  {
    var cfg := DefaultRenamer(path, matchCriteria, matchCriteriaText);
    DefaultEpisodeNumber(path, matchCriteria, matchCriteriaText, fileName);
    var episode := EpisodeValue(cfg, fileName);
    assert Survives(cfg, fileName) == (CheckMatchCriteria(cfg, fileName) && Truthy(episode));
    assert CheckMatchCriteria(cfg, fileName) == matchCriteria.search(fileName).Some?;
    if HasDigit(fileName) {
      var c := fileName[DigitSearch(fileName).value.0];
      var e := Pad(StripLeading([c], '0'), 3, "0");
      assert |e| == 3;
      assert Truthy(episode);
    }
  }

  /** With every default, a surviving name becomes the pattern's text,
      "season False", "episode", the episode number, a dot and the original
      extension. */
  lemma DefaultNewName(path: string, matchCriteria: Pattern, matchCriteriaText: string, fileName: string)
    requires Survives(DefaultRenamer(path, matchCriteria, matchCriteriaText), fileName)
    ensures NewName(DefaultRenamer(path, matchCriteria, matchCriteriaText), fileName)
         == DefaultLayout(matchCriteriaText, "season", AbsentNumberText, "episode",
                          EpisodeValue(DefaultRenamer(path, matchCriteria, matchCriteriaText), fileName).value,
                          OriginalExtensionOf(fileName))
  {
    var cfg := DefaultRenamer(path, matchCriteria, matchCriteriaText);
    DefaultSeasonAbsent(path, matchCriteria, matchCriteriaText, fileName);
    DefaultTemplatesNewName(cfg, fileName, SeasonValue(cfg, fileName), EpisodeValue(cfg, fileName).value);
  }

  // ---------------------------------------------------------------------
  // The renamer of the `__main__` block
  // ---------------------------------------------------------------------

  /** `"My Hero Academia {season_prefix} {season_number} {episode_prefix} {episode_number}.mp4"` */
  const MainRenamingSystem: seq<Token<NameField>> := TitledSystem("My Hero Academia ", ".mp4")

  /** A template that puts the four number fields, separated by spaces,
      between a fixed title and a fixed ending. */
  function TitledSystem(title: string, ending: string): seq<Token<NameField>> {
    [Lit(title), Field(SeasonPrefix), Lit(" "), Field(SeasonNumber)]
    + [Lit(" "), Field(EpisodePrefix), Lit(" "), Field(EpisodeNumber)]
    + [Lit(ending)]
  }

  /** The renamer the module's `__main__` block builds, over the searches of
      the patterns `mha`, `s\s\d` and `ep\s\d`. */
  function MainRenamer(primary: string -> Option<string>, primaryText: string,
                       season: string -> Option<string>, episode: string -> Option<string>): Renamer {
    NewRenamer(".", Pattern("mha", primary), primaryText, MainRenamingSystem,
               Pattern("s\\s\\d", season), 3, "", "season",
               Pattern("ep\\s\\d", episode), 3, "", "episode",
               DefaultRenamingExtension, true)
  }

  /** A titled template lays out its four fields between the title and the
      ending. */
  lemma TitledSystemLayout(title: string, ending: string, v: NameField -> string)
    ensures Render(TitledSystem(title, ending), v)
         == (title + v(SeasonPrefix) + " " + v(SeasonNumber)) + ((" " + v(EpisodePrefix) + " " + v(EpisodeNumber)) + ending)
  {
    var a := [Lit(title), Field(SeasonPrefix), Lit(" "), Field(SeasonNumber)];
    var b := [Lit(" "), Field(EpisodePrefix), Lit(" "), Field(EpisodeNumber)];
    var c: seq<Token<NameField>> := [Lit(ending)];
    assert TitledSystem(title, ending) == a + (b + c);
    RenderConcat(a, b + c, v);
    RenderConcat(b, c, v);
    RenderFourPieces(a, v);
    RenderFourPieces(b, v);
    RenderCons(Lit(ending), [], v);
  }

  /** A match made of a digit-free prefix and one non-zero digit yields that
      digit when there is no filler, whatever the width and stripping. */
  lemma SingleDigitNumber(fileName: string, p: Pattern, maxLength: int, strip: bool, prefix: string, d: char)
    requires p.search(fileName) == Some(prefix + [d])
    requires !HasDigit(prefix) && IsDigit(d) && d != '0'
    ensures NumberValue(fileName, p, maxLength, [], strip) == Some([d])
  {
    var m := prefix + [d];
    assert m[|prefix|] == d;
    assert forall k :: 0 <= k < |prefix| ==> m[k] == prefix[k];
    assert IsFirstDigitRun(m, |prefix|, |m|);
    assert m[|prefix|..|m|] == [d];
  }

  /** The settings the `__main__` renamer holds. */
  lemma MainRenamerSettings(primary: string -> Option<string>, primaryText: string,
                            season: string -> Option<string>, episode: string -> Option<string>)
    ensures var cfg := MainRenamer(primary, primaryText, season, episode);
      && cfg.matchCriteria.search == primary && cfg.matchCriteriaText == primaryText
      && cfg.renamingSystem == MainRenamingSystem
      && cfg.seasonMatchCriteria.search == season && cfg.episodeMatchCriteria.search == episode
      && cfg.seasonPrefix == "season" && cfg.episodePrefix == "episode"
      && cfg.seasonMaxLength == 3 && cfg.episodeMaxLength == 3
      && cfg.seasonFiller == [] && cfg.episodeFiller == [] && cfg.stripPrecedingZeros
  {
  }

  /** "s 1" is the digit-free "s " and the digit '1'. */
  lemma SeasonMatchText()
    ensures "s 1" == "s " + ['1'] && !HasDigit("s ")
  {
    assert !IsDigit("s "[0]) && !IsDigit("s "[1]);
  }

  /** "ep 5" is the digit-free "ep " and the digit '5'. */
  lemma EpisodeMatchText()
    ensures "ep 5" == "ep " + ['5'] && !HasDigit("ep ")
  {
    assert !IsDigit("ep "[0]) && !IsDigit("ep "[1]) && !IsDigit("ep "[2]);
  }

  /** The season of the `__main__` example: "1", from the match "s 1". */
  lemma MainSeason(primary: string -> Option<string>, primaryText: string,
                   season: string -> Option<string>, episode: string -> Option<string>, fileName: string)
    requires season(fileName) == Some("s 1")
    ensures SeasonValue(MainRenamer(primary, primaryText, season, episode), fileName) == Some("1")
  {
    var cfg := MainRenamer(primary, primaryText, season, episode);
    MainRenamerSettings(primary, primaryText, season, episode);
    SeasonMatchText();
    SingleDigitNumber(fileName, cfg.seasonMatchCriteria, 3, true, "s ", '1');
  }

  /** The episode of the `__main__` example: "5", from the match "ep 5". */
  lemma MainEpisode(primary: string -> Option<string>, primaryText: string,
                    season: string -> Option<string>, episode: string -> Option<string>, fileName: string)
    requires episode(fileName) == Some("ep 5")
    ensures EpisodeValue(MainRenamer(primary, primaryText, season, episode), fileName) == Some("5")
  {
    var cfg := MainRenamer(primary, primaryText, season, episode);
    MainRenamerSettings(primary, primaryText, season, episode);
    EpisodeMatchText();
    SingleDigitNumber(fileName, cfg.episodeMatchCriteria, 3, true, "ep ", '5');
  }

  /** "My Hero Academia " + "season" + " " + "1" + " " + "episode" + " " + "5" + ".mp4" */
  lemma MainNewNameText()
    ensures ("My Hero Academia " + "season" + " " + "1") + ((" " + "episode" + " " + "5") + ".mp4")
         == "My Hero Academia season 1 episode 5.mp4"
  {
  }

  /** The new name of the `__main__` example. */
  lemma MainNewName(primary: string -> Option<string>, primaryText: string,
                    season: string -> Option<string>, episode: string -> Option<string>, fileName: string)
    requires primary(fileName).Some? && season(fileName) == Some("s 1") && episode(fileName) == Some("ep 5")
    ensures Survives(MainRenamer(primary, primaryText, season, episode), fileName)
    ensures NewName(MainRenamer(primary, primaryText, season, episode), fileName)
         == "My Hero Academia season 1 episode 5.mp4"
  {
    var cfg := MainRenamer(primary, primaryText, season, episode);
    MainRenamerSettings(primary, primaryText, season, episode);
    MainSeason(primary, primaryText, season, episode, fileName);
    MainEpisode(primary, primaryText, season, episode, fileName);
    var v := NameValue(cfg, fileName, Some("1"), "5");
    TitledSystemLayout("My Hero Academia ", ".mp4", v);
    NameValueSettings(cfg, fileName, Some("1"), "5");
    NameValueNumbers(cfg, fileName, Some("1"), "5");
    MainNewNameText();
  }

  /** The example the `__main__` block is written for: in a directory holding
      just "mha ep 5 s 1.mp4", with searches that find "s 1" and "ep 5", the
      plan is the one pair that renames it to
      "My Hero Academia season 1 episode 5.mp4". */
  lemma MainExample(primary: string -> Option<string>, primaryText: string,
                    season: string -> Option<string>, episode: string -> Option<string>, fileName: string)
    requires fileName == "mha ep 5 s 1.mp4"
    requires primary(fileName).Some? && season(fileName) == Some("s 1") && episode(fileName) == Some("ep 5")
    ensures Plan(MainRenamer(primary, primaryText, season, episode), true, [fileName])
         == Renames([(fileName, "My Hero Academia season 1 episode 5.mp4")])
  {
    var cfg := MainRenamer(primary, primaryText, season, episode);
    MainNewName(primary, primaryText, season, episode, fileName);
    PlanIsExpected(cfg, [fileName]);
    ExpectedPairsSingle(cfg, fileName);
  }
}
