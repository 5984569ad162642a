# World Cup ETL core in Dafny

A model of the core of a small World Cup data pipeline. The pipeline has three parts, and each is modelled with proofs about it.

- **Field normalisers** (`src/etl/utils.py`):
  - `normalize_datetime`: month-first parse, with day-first as the fallback
  - `test_country_column`: the country-name anomaly scan
  - the trim-and-case column cleaners
  - the ISO-to-`YYYYMMDDhhmmss` column, whose failure value is all nines
  - the edition year
  - the unique stage name
  - the final projection with renaming
  - dictionary harmonisation
- **2014 match transformer** (`trf_file_wcup_2014` in `src/etl/transform.py`), together with that file's day-first `normalize_datetime` and its own copy of `test_country_column`. The transformer runs these steps in order:
  1. select the configured columns
  2. normalise the column labels
  3. rename the columns
  4. build the compact date
  5. map stage names
  6. scan, then correct, the home team names
  7. scan, then correct, the away team names
  8. sort by date
  9. number the rows
  10. reorder into the nine canonical columns
- **Nested-document flattener**: the body of `fct_read_json_nested` in `src/etl/extract.py`, once the document is loaded. It walks the `groups` and `knockout` sections and emits:
  - a group relation
  - a round relation
  - one match row per listed match, tagged with its stage and container
  - a match-to-channel bridge

## Data model

- A table is a pandas DataFrame seen column-major: `Tables.Table(height, cols)`.
  - Each cell is `Null`, `Str` or `Int`.
  - A column is found by the first column with that name.
- Operations that pandas performs in place are methods of the class `Tables.Frame`, whose fields are the height and the columns.
- `pd.to_datetime` is a parameter of type `DateParser`. It maps a cell and a parse mode (month-first, day-first or UTC) to an optional valid timestamp.
  - The model proves the formatting, the fallback order and the chronological order of the formatted strings.
  - It does not prove the parsing itself.
- Python exceptions become `Result`/`Option` failures:
  - a missing column (`KeyError`)
  - a blank value in the country scan (`val_strip[0]` raises `IndexError`)
  - a value `int()` refuses
  - a document the flattener cannot walk (`AttributeError`/`TypeError`)
- JSON is the datatype `Extract.Json`.
  - Objects keep their members in document order.
  - `get` returns the first member with the key.
  - A `for` loop over a value visits a list's items, an object's keys or a string's characters, and raises on anything else.

Module layout:

| file | module | contents |
|---|---|---|
| `wrappers.dfy` | Wrappers | `Option`, `Result` |
| `text.dfy` | Text | `strip`, `lower`, `upper`, `capitalize`, digits, zero padding, lexicographic order |
| `cells.dfy` | Cells | cells |
| `dates.dfy` | Dates | timestamps and `strftime("%Y%m%d%H%M%S")` |
| `sorting.dfy` | Sorting | the stable sort order used for `sort_values` |
| `tables.dfy` | Tables | tables and `Frame` |
| `utils.dfy` | Utils | `src/etl/utils.py` |
| `transform.dfy` | Transform | `src/etl/transform.py` |
| `extract.dfy` | Extract | `src/etl/extract.py` |

## Model

| member | source | states |
|---|---|---|
| Utils.NormalizeDatetime | src/etl/utils.py:42-69 | A result is 14 digits. The result is None exactly when the value is missing, or when neither the month-first nor the day-first parse succeeds. |
| Utils.NormalizeDatetimeOrder | src/etl/utils.py:60-65 | Month-first is used whenever it parses. Day-first is used only when month-first fails. |
| Utils.Distinct | src/etl/utils.py:86 | `dropna().unique()`: every present value, each exactly once, and nothing else. |
| Utils.DistinctOrder | src/etl/utils.py:86 | `unique()` keeps first-appearance order: a value listed earlier first occurs earlier in the column. With Distinct's contract this fixes the result completely. |
| Utils.AddOnce | src/etl/utils.py:99-111 | An append guarded by `not in`: the value is added, and distinct lists stay distinct. |
| Utils.ScanRaisesOnBlank | src/etl/utils.py:86-91 | The scan raises exactly when some visited value strips to the empty string. |
| Utils.ScanPrefixRaises | src/etl/utils.py:86-91 | Once a prefix of the values raises, the whole scan raises. |
| Utils.ScannedTextsSpacedUnique | src/etl/utils.py:86-88 | Two visited values with the same text cannot contain a space. |
| Utils.ScanNotCapitalized | src/etl/utils.py:91-92 | `not_capitalized` is exactly the visited values whose stripped form does not start with an upper-case letter, in visiting order. |
| Utils.ScanExtraSpaces | src/etl/utils.py:95-101 | `extra_spaces` is exactly the values with surrounding or doubled spaces, in order and without repeats. |
| Utils.ExtraSpacesNoDup | src/etl/utils.py:95-101 | `extra_spaces` holds no duplicates. |
| Utils.ScanSpecialChars | src/etl/utils.py:104-111 | `special_chars` holds exactly the values with a character outside letters, spaces and `-`, or with a quote. It holds no duplicates. |
| Utils.ScanReportsColumn | src/etl/utils.py:86-113 | Every list of a completed scan of a column meets the three statements above. |
| Utils.ScanNoDuplicates | src/etl/utils.py:86-92 | On a column of strings, the visited values and `not_capitalized` have no duplicates. |
| Utils.Classify | src/etl/utils.py:88-111 | The five checks of the loop body append exactly what the one-value step of the scan specification adds. |
| Utils.ScanValues | src/etl/utils.py:86-111 | The loop fails with `BlankValue` exactly when the scan specification raises. Otherwise it returns the specification's lists. |
| Utils.CheckCountryColumn | src/etl/utils.py:71-113 | The result is the scan of the column's distinct values. A missing column gives MissingColumn, and a blank value gives BlankValue. |
| Utils.CleanText | src/etl/utils.py:138-143 | The result is stripped and has the stripped length. Capitalize mode upper-cases the first character of the stripped text and lower-cases the rest. Upper mode upper-cases every character (`fct_upper_string_columns`). Lower mode lower-cases every character (`fct_lower_string_columns`). |
| Utils.CleanTextCase | src/etl/utils.py:148-208 | An upper-mode result holds no lower-case letter. A lower-mode result holds no upper-case letter. A capitalised result has no upper-case letter after the first character. |
| Utils.CleanCell | src/etl/utils.py:138-143 | Missing values stay missing. Any other value becomes the string of its `str` text, stripped and case-mapped. |
| Utils.CleanTextIdempotent | src/etl/utils.py:136-143 | Cleaning twice equals cleaning once, in every mode. |
| Utils.CleanCellsIdempotent | src/etl/utils.py:136-143 | Cleaning a column twice equals cleaning it once. |
| Utils.CleanColumns | src/etl/utils.py:136-143 | The table stays well formed and keeps its height. |
| Utils.CleanColumnsEffect | src/etl/utils.py:136-143 | Column names and order are kept. Each listed, present column is cleaned exactly once. Every other column is untouched. |
| Utils.CleanColumn | src/etl/utils.py:137-143 | The loop body: a present column is replaced by its cleaned cells, and an absent one leaves the frame unchanged. |
| Utils.NormalizeStringColumns | src/etl/utils.py:129-144 | No columns given leaves the frame unchanged. Otherwise the frame becomes the cleaned table. |
| Utils.CapitalizeStringColumns | src/etl/utils.py:115-144 | In place: the columns are stripped and capitalised. |
| Utils.UpperStringColumns | src/etl/utils.py:148-176 | In place: the columns are stripped and upper-cased. |
| Utils.LowerStringColumns | src/etl/utils.py:179-208 | In place: the columns are stripped and lower-cased. |
| Utils.CapitalizedPassesScan | src/etl/utils.py:91-96 | A capitalised value that starts with a letter is not reported by the capital check or the surrounding-space check. |
| Utils.IsoCompact | src/etl/utils.py:219-232 | The result has 14 characters. It is the all-nines value exactly when the value is missing or fails to parse. Any other result is digits and sorts before the all-nines value. It is then exactly the `strftime` of the UTC parse. |
| Utils.IsoCells | src/etl/utils.py:234 | The column of compact values, one per cell. |
| Utils.IsoCompactOrder | src/etl/utils.py:219-232 | Converted values compare lexicographically exactly as their timestamps do. |
| Utils.IsoToYyyymmddhhmmss | src/etl/utils.py:210-235 | Writes the compact column to `new_col`, or back to `col` when none is given. A missing `col` is an error and leaves the frame unchanged. |
| Utils.ParseIntDigits | src/etl/utils.py:248 | `int()` on plain digits gives their decimal value. |
| Utils.Editions | src/etl/utils.py:248 | Each cell becomes the integer of its first four characters. |
| Utils.EditionOfCompact | src/etl/utils.py:248 | The edition of a compact date is its year, or 9999 for the failure value. |
| Utils.EditionOfNormalized | src/etl/utils.py:248 | The edition of a `normalize_datetime` result is the year of the parse that was used. |
| Utils.ExtractEdition | src/etl/utils.py:237-249 | Writes `edition`. A missing column, or a value `int()` refuses, is an error and leaves the frame unchanged. |
| Utils.StageNames | src/etl/utils.py:270-278 | Each row's stage name is chosen from that row's stage, group id and round id. |
| Utils.StageNameIgnoresCleaning | src/etl/utils.py:271-272 | Trimming and re-casing the stage column never changes the stage name. |
| Utils.CleanedStageKey | src/etl/utils.py:271-272 | The lower-cased, stripped key is the same before and after any cleaner. |
| Utils.GenerateUniqueStage | src/etl/utils.py:251-279 | Writes `stage_name` from `stage`, `group_id` and `round_id`. A missing input column is the KeyError. |
| Utils.Pairs | src/etl/utils.py:298 | The dictionary's keys are exactly the listed keys. |
| Utils.PairsLast | src/etl/utils.py:298 | A key maps to the value at its last occurrence. |
| Utils.FinalColumnsToKeep | src/etl/utils.py:281-306 | Succeeds exactly when every original column exists; otherwise the error names a missing one. On success, each kept column carries its renamed label and its original cells, in list order. |
| Utils.FinalColumnsPairwise | src/etl/utils.py:298-304 | With distinct originals and enough final names, the result's labels are the final names, pairwise. |
| Utils.HarmonizeCell | src/etl/utils.py:326 | Missing values stay missing. |
| Utils.HarmonizeIdempotent | src/etl/utils.py:326 | With a mapping whose targets map to themselves, harmonising twice equals harmonising once. |
| Utils.HarmonizePassesMisses | src/etl/utils.py:326 | Values outside the mapping pass through unchanged. Mapped values become their image. |
| Utils.HarmonizeColumnValues | src/etl/utils.py:308-328 | A missing column leaves the frame unchanged. Otherwise only that column is replaced by its harmonised cells. |
| Tables.Lookup | src/etl/transform.py:136 | `df[name]`: succeeds exactly when the column exists; otherwise MissingColumn. |
| Tables.Put | src/etl/transform.py:136 | `df[name] = cells`: the column holds the cells and every other column is unchanged. A new name is appended at the end. |
| Tables.Project | src/etl/transform.py:125 | `df[names]`: succeeds exactly when every name exists, giving those columns in that order. Otherwise the error names a missing column. |
| Tables.MapNames | src/etl/transform.py:128 | Relabelling maps each label and keeps the cells. |
| Tables.Reorder | src/etl/transform.py:163 | Every column is permuted by the same row order. |
| Tables.GetReorder | src/etl/transform.py:163 | After a reorder, a column's cells are its old cells permuted. |
| Tables.ReorderIdentity | src/etl/transform.py:163 | The identity order leaves the table unchanged. |
| Tables.PutSame | src/etl/transform.py:165 | Writing a column's own cells back leaves the table unchanged. |
| Tables.SortRows | src/etl/transform.py:163 | Succeeds exactly when the key column exists and is comparable. The names and the height are kept. |
| Tables.Frame.Assign | src/etl/transform.py:136 | In place: the frame becomes the table with the column written. |
| Tables.Frame.Relabel | src/etl/transform.py:128 | In place: the frame's labels are relabelled. |
| Tables.Frame.RenameColumns | src/etl/transform.py:131-133 | In place: the frame's columns are renamed through the mapping. |
| Tables.Frame.SortValues | src/etl/transform.py:163 | `sort_values(inplace=True)`: the frame becomes the sorted table, or is unchanged with the error. |
| Sorting.SortOrderCorrect | src/etl/transform.py:163 | The sort order is a permutation of the rows, nondecreasing in the key (missing values last). It is the identity on a sorted key. |
| Sorting.KeyLeTotal | src/etl/transform.py:163 | Any two keys are ordered one way or the other. |
| Sorting.KeyLeTransitive | src/etl/transform.py:163 | The key order is transitive. |
| Dates.FormatStamp | src/etl/utils.py:65 | `strftime("%Y%m%d%H%M%S")` yields 14 digits. |
| Dates.FormatOrder | src/etl/utils.py:65 | Formatted stamps compare lexicographically exactly as the timestamps do. The format is injective. |
| Dates.SentinelSortsLast | src/etl/utils.py:230-232 | The all-nines value sorts after every formatted stamp. |
| Dates.FormatYear | src/etl/utils.py:248 | The first four characters are the zero-padded year. |
| Transform.NormalizeDatetimeDayFirst | src/etl/transform.py:5-30 | A result is 14 digits. The result is None exactly when the value is missing or the day-first parse fails. Otherwise it is the `strftime` of the day-first parse. |
| Transform.DayFirstWhereReadingsDiffer | src/etl/transform.py:21-26 | When both readings of a value parse and disagree, as `06/12/2014` does, the copy returns the day-first instant and differs from the general normaliser. |
| Transform.DayFirstAgreesWithFallback | src/etl/transform.py:21-26 | The result agrees with the fallback version of `src/etl/utils.py` whenever month-first fails, or when both parses agree. |
| Transform.DayFirstChronological | src/etl/transform.py:21-26 | Results compare lexicographically exactly as their timestamps do. |
| Transform.DateCells | src/etl/transform.py:136 | The `date` column: missing exactly where the conversion fails. Otherwise it is the 14-digit `strftime` of that row's day-first parse. |
| Transform.CheckCountryColumn | src/etl/transform.py:32-74 | The local copy gives the same outcome as the scan specification of `src/etl/utils.py`. |
| Transform.ScanOutcomeError | src/etl/transform.py:32-74 | The scan fails exactly when its column is missing or holds a blank value. |
| Transform.NormalizeColumnNameClean | src/etl/transform.py:128 | Normalised labels contain no space and no upper-case letter. Normalising is idempotent. |
| Transform.Selected | src/etl/transform.py:125-133 | Succeeds exactly when every configured column exists, and otherwise raises the KeyError of a missing one. Column i holds the cells of the i-th configured column, labelled by its lower-cased, underscored name passed through `news_columns`. |
| Transform.WithDate | src/etl/transform.py:136 | Succeeds exactly when `datetime` exists. On success, `date` is the day-first conversion of `datetime`, and every other column is unchanged. |
| Transform.Harmonized | src/etl/transform.py:143 | The column becomes `map(m).fillna(col)` of itself, cell by cell. Nothing else changes. The column is settled under a self-closed mapping. |
| Transform.CorrectTeams | src/etl/transform.py:146-158 | Fails exactly when the scan of the team column fails. On success, the team column is its mapped input column, and nothing else changes. |
| Transform.CorrectBothTeams | src/etl/transform.py:146-158 | On success, both team columns are their input columns passed through the correction mapping. Every other column is unchanged. |
| Transform.Corrected | src/etl/transform.py:139-159 | On success, `stage` is its input column passed through `stage_mapping`, and both team columns are theirs passed through the correction mapping. Every other column is unchanged. |
| Transform.Prepared | src/etl/transform.py:125-159 | Before sorting, the table is well formed, has the input's height and has an all-compact `date`. |
| Transform.HarmonizedSettled | src/etl/transform.py:143-158 | Under a self-closed mapping, every harmonised value is a fixed point of the mapping. |
| Transform.CompactDatesComparable | src/etl/transform.py:163 | A column of compact dates can be sorted. |
| Transform.Ids | src/etl/transform.py:165 | `range(1, n + 1)` as cells. |
| Transform.RekeyNumbersSorted | src/etl/transform.py:163-165 | After sorting and numbering, `match_id` is 1..n and `date` is nondecreasing. |
| Transform.RekeyColumn | src/etl/transform.py:163-165 | Every other column is the old column permuted by the date order. |
| Transform.RekeyStable | src/etl/transform.py:163-165 | A table already sorted by date and numbered 1..n is left unchanged. |
| Transform.RekeyIdempotent | src/etl/transform.py:163-165 | Sorting and renumbering twice is the same as once. |
| Transform.CorrectBothTeamsSettled | src/etl/transform.py:150-158 | Both team columns are settled under a self-closed mapping. |
| Transform.PreparedTeamsSettled | src/etl/transform.py:146-158 | Both team columns of the prepared table are settled under a self-closed mapping. |
| Transform.CorrectBothTeamsErrors | src/etl/transform.py:146-158 | The only errors are a missing team column, or a blank value in one. |
| Transform.PreparedErrors | src/etl/transform.py:125-159 | Before sorting, every error is a missing column or a blank team name. |
| Transform.Wcup2014Errors | src/etl/transform.py:76-170 | Every failure of the transform is a missing column or a blank home or away team name. |
| Transform.FinishShape | src/etl/transform.py:163-168 | The output has exactly the nine canonical columns. `match_id` is 1..n and `date` is sorted and compact. |
| Transform.FinishColumn | src/etl/transform.py:163-168 | Each output column is the prepared column permuted by one permutation of the rows. |
| Transform.Wcup2014Shape | src/etl/transform.py:76-170 | The output has the canonical columns and the input's height. `match_id` is 1..n and `date` is sorted and compact. |
| Transform.Wcup2014Rows | src/etl/transform.py:76-170 | Every output column is its prepared column permuted by the date order. |
| Transform.PreparedDate | src/etl/transform.py:136 | The prepared `date` column is the day-first conversion of the selected `datetime` column. |
| Transform.PreparedColumn | src/etl/transform.py:139-159 | Every other prepared column is the selected column: `stage` through `stage_mapping`, the team columns through the correction mapping, the rest unchanged. |
| Transform.Wcup2014Column | src/etl/transform.py:125-168 | Each output column after `match_id` is derived from the selected input column and permuted by the sort on the converted dates: the dates, the mapped stage, the corrected teams, or the carried results, edition and city. |
| Transform.PermuteSettled | src/etl/transform.py:163 | Reordering keeps a settled column settled. |
| Transform.FinishTeamsSettled | src/etl/transform.py:163-168 | Settled team columns stay settled in the output. |
| Transform.Wcup2014TeamsSettled | src/etl/transform.py:146-168 | Under a self-closed mapping, the output's team names are fixed points of the correction mapping. |
| Transform.AddDate | src/etl/transform.py:136 | In place: the frame gains the date column, or reports the missing `datetime` column. |
| Transform.CorrectTeamColumn | src/etl/transform.py:146-159 | In place: the team column is scanned, then corrected. |
| Transform.CorrectColumns | src/etl/transform.py:139-159 | In place: the stage is mapped, then both team columns are scanned and corrected. |
| Transform.Renumber | src/etl/transform.py:163-165 | In place: the frame is sorted by date, then `match_id` is numbered. |
| Transform.Wcup2014 | src/etl/transform.py:76-170 | The step-by-step transform returns exactly the transform specification, whose properties are the lemmas above. |
| Extract.LookupMeaning | src/etl/extract.py:78-80 | `get` returns the default exactly when the key is absent. Otherwise it returns the first stored value. |
| Extract.Iterate | src/etl/extract.py:99 | A `for` loop over a value succeeds exactly on a list, an object or a string. It visits a list's items. |
| Extract.GroupRows | src/etl/extract.py:83-91 | One group row per key of `groups`, in order. |
| Extract.RoundRows | src/etl/extract.py:126 | One round row per key of `knockout`, in order. |
| Extract.ChannelRows | src/etl/extract.py:120-121 | One bridge row per channel, in order. |
| Extract.ContainerMatches | src/etl/extract.py:99-119 | One match row per match of a container, in order. |
| Extract.ContainerMatchesStep | src/etl/extract.py:99-119 | One more match adds one row at the end. |
| Extract.ContainerBridgeStep | src/etl/extract.py:120-121 | One more match adds its channel rows at the end. |
| Extract.SectionStep | src/etl/extract.py:98-149 | One more container adds its match rows and its bridge rows at the end. |
| Extract.RoundRowsStep | src/etl/extract.py:126 | One more round adds one round row at the end. |
| Extract.AppendChannels | src/etl/extract.py:120-121 | The innermost loop appends exactly the match's channel rows. |
| Extract.ContainerRows | src/etl/extract.py:99-121 | The loops over a container succeed exactly when its matches can be walked. They produce the container's match rows and bridge rows. |
| Extract.ReadGroups | src/etl/extract.py:83-91 | The first `groups` loop succeeds exactly when every group is an object, and yields the group rows. |
| Extract.ReadGroupMatches | src/etl/extract.py:98-121 | The second `groups` loop succeeds exactly when every group can be walked, and yields its matches and bridge. |
| Extract.ReadKnockout | src/etl/extract.py:124-149 | The `knockout` loop succeeds exactly when every round can be walked. It yields the rounds, their matches and the bridge. |
| Extract.Flatten | src/etl/extract.py:76-156 | The traversal raises exactly on documents it cannot walk. Otherwise it returns exactly the specified relations. |
| Extract.MatchRowMeaning | src/etl/extract.py:100-146 | A match row carries its container's tag: a group row has stage `group`, its group id, no round id and no penalties. A knockout row has stage `knockout`, no group id, its round id and the match's penalties. |
| Extract.SectionMatchesCount | src/etl/extract.py:98-149 | A section yields as many match rows as its containers list matches. |
| Extract.SectionMatchesAt | src/etl/extract.py:98-149 | Match j of container i is emitted at position (matches of containers before i) + j. |
| Extract.RowsBridgeAppend | src/etl/extract.py:120-148 | The bridge of two runs of match rows is the concatenation of their bridges. |
| Extract.ContainerBridgeFollows | src/etl/extract.py:99-121 | Within a container, the bridge lists each match row's channels, in match order. |
| Extract.SectionBridgeFollows | src/etl/extract.py:98-149 | Within a section, the bridge lists each match row's channels, in match order. |
| Extract.AbsentKeys | src/etl/extract.py:78-84 | Absent `teams`, `stadiums` or `tvchannels` give empty lists. Absent `groups` or `knockout` give empty sections, never an error. |
| Extract.NoChannelsKey | src/etl/extract.py:118-121 | A match without `channels` contributes no bridge rows. |
| Extract.StageNameOfRow | src/etl/extract.py:104-106 | The unique stage name of a flattened row is its container key. |
| Extract.FlattenContainers | src/etl/extract.py:83-126 | One group row per group key, carrying its name, winner and runner-up. One round row per round key, carrying its name. |
| Extract.FlattenMatchCount | src/etl/extract.py:93-152 | The match relation has exactly as many rows as the document lists matches. |
| Extract.FlattenGroupMatch | src/etl/extract.py:98-121 | Every group match is emitted, tagged with its group, before all knockout matches. |
| Extract.FlattenKnockoutMatch | src/etl/extract.py:124-149 | Every knockout match is emitted, tagged with its round, after all group matches. |
| Extract.FlattenBridgeFollows | src/etl/extract.py:93-152 | The bridge has one row per channel listed on each match, in match order. |
| Extract.EmptyDocument | src/etl/extract.py:78-156 | An empty document gives empty relations. |

## Left out

- Date parsing inside `pd.to_datetime` is a library this model cannot see. It is the `DateParser` parameter, and only the formatting, the fallback and the order of attempts are modelled.
- Reading the configuration file (`fct_load_config`) is left out: the 2014 configuration is the `Config2014` value.
- `fct_read_csv` and the `open`/`json.load` lines (`src/etl/extract.py:73-74`) are file input and output. The flattener starts from the parsed document.
- `src/etl/load.py` is database input and output and is not part of this model.
- `main.py` is orchestration only, and its merge step (`main.py:46`) is empty.
- `print` diagnostics are console output and are left out. This includes the printed scan results of the 2014 transform.
- pandas dtypes and column indexes are left out, and so are duplicate column names (a lookup takes the first column with the name).
- Characters outside Latin-1 are left out of the special-character letter class and of case mapping.
- Utils.CleanText: case mapping is one character to one character, over ASCII and Latin-1 plus `ÿ`/`Ÿ`. Python maps `ß` (U+00DF) to "SS" in `upper` and in the first position of `capitalize`, and `µ` (U+00B5) to `Μ` (U+039C). `capitalize` uses titlecase for its first character, and some characters outside Latin-1 change length under case mapping. The model leaves all of these unchanged, so its length equation does not hold of Python for such strings.
- Utils.ParseInt: accepts decimal digits with an optional sign and surrounding whitespace. It leaves out Python's `_` digit separators and non-ASCII digits.
- The flattener keeps the `teams`, `stadiums` and `tvchannels` values as JSON. It does not model the `pd.DataFrame` construction around them, or the construction of the frames from the row lists.
- JSON numbers are integers only. Duplicate object keys, which `json.load` collapses to the last value, are not modelled, because lookups take the first member.
- Tables.SortRows: pandas' default sort is not stable. The model fixes one admissible outcome, a stable insertion order with missing dates last.
- The 2010, 2018 and 2022 transformers of `src/etl/transform.py` are outside this core.
- Utils.ScanNoDuplicates: the absence of duplicates in `not_capitalized` is proved only for string columns. A column holding both the integer 5 and the string "5" would visit the same text twice, as the source would.
- Utils.GenerateUniqueStage: the `col_stage`, `col_round` and `col_group` parameters are ignored, as in the source, which always reads `stage`, `group_id` and `round_id`. A stage column with no strings at all, where pandas refuses `.str`, is modelled as yielding `notdefined`.
- Transform.Wcup2014: follows the code, which reads a `datetime` column after renaming. An input without that column is a MissingColumn failure.
- Errors are a single `Result` error value, not Python exception classes. The flattener reports only that the walk raised, not which exception.
