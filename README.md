# su3-distillation job-file generators, modelled in Dafny

The su3-distillation scripts write the input files and launch scripts for the stages of a
lattice-QCD distillation run. Those stages are eigenvectors, perambulators, mesons and
disconnected diagrams, run with Chroma. Most of the scripts are YAML loading, Jinja2
rendering and directory creation. Under that plumbing sits a small amount of string and
integer logic, and this project models that logic and proves what it does:

- **Ensemble-tag decoders.** A short ensemble tag (`a065m420`, `b3.6_s32t64`, `eric_test`)
  is looked up in a fixed table. The long tag is then read by an ordered list of regular
  expressions, the first match winning. Four copies exist, each with its own table and
  patterns:
  - `EnsTags` is shared by `create_tasks_ens.py` and `scripts/create_tasks_ens.py`.
  - `ScriptsEnsemble` adds the `cfg_path`/`cfg_name` derivation of `scripts/create_tasks_ens.py`.
  - `JurecaTags` covers `create-jureca.py`.
  - `ChromaShTags` covers `yml_to_xml/chroma_sh_xml.py`.

  Each regular expression is a deterministic scanner. The scanner is proved sound (what it
  returns re-assembles the input) and complete (it reads back every well-formed text).
  These proofs live in `Scan` and `TagPatterns`.
- **Task planning.** The command-line task names expand into an ordered list of run
  objects. For each config id in a range, every object is mapped to an output directory and
  file name. An existing file is skipped unless overwriting is on, and otherwise the
  template is rendered and written.
  - The filesystem is a set of existing paths, and Jinja2 is an oracle that may fail.
  - A run's result is the list of writes plus the exception that stopped it, if any.
  - `Plan` holds the shared loop.
  - `ScriptsPlanner` covers `scripts/create_tasks_ens.py`.
  - `UnifiedTasks` and `UnifiedPlanner` cover `create_tasks_ens.py`, including its
    `peram_<inverter>_<flavor>` tasks.
  - `ScriptsTasks` and `ScriptsTasksRun` cover `scripts/create_tasks.py`, with substring
    expansion and nvec directories.
  - `JurecaObjects` and `JurecaPlanner` cover `create-jureca.py`, with caught render errors
    and a written-file counter.
  - `ScriptsBinned` covers `scripts/create_binned_tasks.py`.
- **Config binning** (`ScriptsBinned`). Config ids are grouped four at a time, 50 apart,
  and each id of a group is paired with a GPU index.
- **Small helpers.**
  - `PeramsXml`: the t-source list.
  - `MesonXml` and `DiscoXml`: the constant momentum and displacement lists and the
    colour-parts count.
  - `Momenta`: the text form of momenta and displacements.
- **Missing-file audit** (`FileAudit`, `check-all-files.py`). The expected `.sdb`/`.h5`
  names per config id are filtered through the set of existing files.

The task-expansion loops, the nested planning and writing loops of every generator and the
audit loops of `check_files` are Dafny `method`s with `while` loops. Each is proved equal to
a recursive specification function, and the properties are lemmas about that function.
Three kinds of loop are recursive functions instead, because they only compute a value:
the `for t in types` loop of `main` in `check-all-files.py` (`FileAudit.MainLoop`), the
for/break loops over the regular expressions (`TagPatterns.FirstSome`), and the list
builders `list(dict.fromkeys(...))`, `range` and `" ".join(...)` (`Py.Dedup`, `Py.Range`,
`Py.JoinWith`).
Python's `dict`, `list`, `str` and `int` become `map`, `seq`, `seq<char>` and `int`.
Python exceptions become the `Py.PyError` values of a `Result`, carrying the key or message
the source raises.

Where the description of a generator and its code differ, the model follows the code:

- `create_tasks_ens.py:231`: the flavour dict is built before `.get(flavor)`. It therefore
  reads `prop_mass_light_label` for every peram task, not only for `light` ones.
  `UnifiedTasks.PeramUpdate` has an `asWritten` flag for this, and Finding 3 below has the
  details.
- `scripts/create_tasks_ens.py:87` raises KeyError for every `_ms` ensemble, and
  `scripts/create_tasks.py:97` raises NameError for every non-empty config range (Findings 1
  and 4). The intended behaviour is modelled beside the as-written one.
- `scripts/create_binned_tasks.py:62`: the ids of the last group may exceed `cfg_f`, and
  `ScriptsBinned.GroupShape` states exactly that.
- `create_tasks_ens.py:304` calls `meson_xml._gen_mom_list2`. The root
  `yml_to_xml/meson_xml.py` that it imports is not part of this model, and
  `scripts/yml_to_xml/meson_xml.py` does not define that function. The list is therefore a
  `Result` parameter of `UnifiedPlanner`: either the list the root module gives, or the
  error the call raises.

## Model

| member | source | states |
|---|---|---|
| Py.PyRange | scripts/create_tasks_ens.py:298 | `range(i, f, d)` raises exactly when the step is 0; otherwise it is the arithmetic sequence `Range` |
| Py.Range | scripts/create_tasks_ens.py:298 | a non-empty range starts at its start value |
| Py.RangeValues | scripts/create_tasks_ens.py:298 | the k-th element of `range(start, stop, step)` is `start + k*step` |
| Py.RangeBounds | scripts/create_tasks_ens.py:298 | every element lies strictly before `stop` (in the step's direction) and one more step reaches or passes `stop`, so `stop` itself is excluded |
| Py.RangeNoDups | scripts/create_tasks_ens.py:298 | a range never repeats an id |
| Py.NatToStringRoundTrip | create-jureca.py:125 | the decimal text of a natural number reads back as that number |
| Py.CanonicalRoundTrip | create-jureca.py:125 | a digit string without leading zero is the decimal text of its value |
| Py.IntToStringRoundTrip | create-jureca.py:125 | `int(str(n)) == n` for every int, negative ones included |
| Py.ParseNonNegative | scripts/create_tasks_ens.py:64-72 | `int()` of a digit string is its decimal value |
| Py.ParseNegative | scripts/create_tasks_ens.py:64-72 | `int()` of `-digits` is minus their value |
| Py.Pad2 | scripts/create_tasks_ens.py:317 | `f'{n:02d}'` has at least two characters and reads back as `n` |
| Py.Pad2Injective | scripts/create_tasks_ens.py:317 | different config ids never get the same padded text |
| Py.Split | create_tasks_ens.py:223 | `str.split(c)` gives at least one part, no part holds `c`, and joining the parts with `c` restores the string |
| Py.SplitJoin | create_tasks_ens.py:223 | splitting a `c`-joined list of `c`-free parts gives the parts back |
| Py.SplitFirst | create_tasks_ens.py:223 | the split of `p + c + rest` is `p` followed by the split of `rest` |
| Py.Lower | create_tasks_ens.py:229 | `str.lower()` maps A–Z to a–z and keeps every other character, preserving length |
| Py.DictOf | yml_to_xml/chroma_sh_xml.py:30-45 | a dict display has exactly the keys written in it |
| Py.DictOfValue | yml_to_xml/chroma_sh_xml.py:30-45 | every value of a dict display is one written for that key |
| Py.DictOfLast | yml_to_xml/chroma_sh_xml.py:31-44 | when a key is written more than once, the last entry wins |
| Py.Dedup | scripts/create_tasks_ens.py:292 | `list(dict.fromkeys(xs))` has the same members as `xs` and no duplicates |
| Py.DedupFirstOccurrenceOrder | scripts/create_tasks_ens.py:292 | the survivors keep the order of their first occurrences |
| Py.DedupOfDistinct | scripts/create_tasks_ens.py:292 | a list without duplicates is unchanged |
| Py.FirstIndexInPrefix | scripts/create_tasks_ens.py:292 | the first occurrence of a value in a prefix is its first occurrence in the whole list |
| Py.FlatMapMembers | scripts/create_tasks_ens.py:270-289 | a list built by `extend` per task holds exactly the objects some task contributes |
| Py.PathJoin | scripts/create_tasks_ens.py:317-337 | `os.path.join(a, b)` is `b` when `b` is absolute, and always ends with `b` |
| Py.PathJoinName | scripts/create_tasks_ens.py:337 | joining a directory without trailing slash and a relative name inserts exactly one `/` |
| Py.AfterLastSlashJoin | scripts/create_tasks_ens.py:337 | the last path component of `dir/name` is `name` |
| Py.SameLastComponent | scripts/create_tasks_ens.py:337 | two equal `dir/name` paths with slash-free names have the same name |
| Py.FloorDiv | yml_to_xml/disco_xml.py:52 | `a // b` raises ZeroDivisionError exactly for b == 0, and otherwise is the floor of a/b |
| Py.RoundDiv | scripts/yml_to_xml/perams_xml.py:64 | `round(a / b)` is the nearest integer to a/b, with ties going to the even one |
| Scan.RunLength | scripts/create_tasks_ens.py:55 | the longest prefix of one character class, stopped by the first character outside it |
| Scan.ScanRun | scripts/create_tasks_ens.py:55 | a greedy `[class]+` or `[class]{n}` reads a piece of the class of the right length, and the rest re-assembles the input |
| Scan.ScanRunComplete | scripts/create_tasks_ens.py:55 | on a well-formed piece followed by a stopping character, the scanner returns exactly that piece |
| Scan.ScanLit | scripts/create_tasks_ens.py:55 | a literal is read exactly when the text starts with it |
| Scan.ScanPoint | scripts/create_tasks_ens.py:55 | `[0-9]+\.[0-9]+` (or fixed fraction width) reads whole and fraction digits around one `.` |
| Scan.ScanPointComplete | scripts/create_tasks_ens.py:55 | every well-formed decimal is read back whole |
| Scan.ScanDec | scripts/create_tasks_ens.py:55 | `-?[0-9]+\.[0-9]+` reads an optionally signed decimal whose text re-assembles the input |
| Scan.ScanDecComplete | scripts/create_tasks_ens.py:55 | every well-formed signed decimal is read back with its sign |
| TagPatterns.ScanSize | scripts/create_tasks_ens.py:55 | `_s(NL)t(NT)` reads two digit runs of the pattern's width |
| TagPatterns.ScanSizeComplete | scripts/create_tasks_ens.py:55 | every well-formed `_s..t..` piece is read back |
| TagPatterns.ScanP | scripts/create_tasks_ens.py:55 | the `-(?P<P>[0-9]{3})` group is read exactly when the pattern has it |
| TagPatterns.MatchMs | scripts/create_tasks_ens.py:55 | a match of an `_ms` pattern yields fields that fit the pattern and re-assemble the long tag |
| TagPatterns.MatchMsComplete | scripts/create_tasks_ens.py:55 | every long tag written in an `_ms` shape is matched, to its own fields |
| TagPatterns.MatchMc | scripts/create_tasks_ens.py:57-61 | a match of the `_mc` pattern yields fields fitting it that re-assemble the long tag |
| TagPatterns.MatchMcComplete | scripts/create_tasks_ens.py:57-61 | every `_mc` long tag is matched, to its own fields |
| TagPatterns.MsRejectsMc | scripts/create_tasks_ens.py:74-84 | no `_ms` pattern matches an `_mc` long tag |
| TagPatterns.McRejectsMs | scripts/create_tasks_ens.py:74-84 | the `_mc` pattern matches no `_ms` long tag |
| TagPatterns.MsRejectsShortMud | yml_to_xml/chroma_sh_xml.py:50-55 | a pattern demanding n mud decimals rejects a long tag with fewer |
| TagPatterns.MudTooShort | yml_to_xml/chroma_sh_xml.py:52 | `[0-9]{n}` followed by `_` fails on fewer than n digits |
| TagPatterns.MsTextInjective | scripts/create_tasks_ens.py:55 | two `_ms` field sets with the same text are equal |
| TagPatterns.McTextInjective | scripts/create_tasks_ens.py:57-61 | two `_mc` field sets with the same text are equal |
| TagPatterns.DigitsAreDigits | scripts/create_tasks_ens.py:64-72 | a `[0-9]` run is a string of decimal digits |
| TagPatterns.IntOf | scripts/create_tasks_ens.py:64-72 | `int()` of an NL/NT group is a non-negative int that reads back from the group |
| TagPatterns.Get | scripts/create_tasks_ens.py:87 | `info[key]` returns the value when present and raises KeyError naming the key otherwise |
| TagPatterns.MsInfo | scripts/create_tasks_ens.py:64-83 | an `_ms` match gives beta/ms/mud as str and NL/NT as int, plus P when the pattern has it, and no mc, cfg_path or cfg_name |
| TagPatterns.McInfo | scripts/create_tasks_ens.py:64-83 | an `_mc` match gives beta/mc/mud as str and NL/NT as int, with no ms and no P |
| TagPatterns.Match | scripts/create_tasks_ens.py:75-83 | one pattern's result holds mc exactly for the `_mc` pattern, never cfg fields, and exists exactly when its scanner matches |
| TagPatterns.Matches | scripts/create_tasks_ens.py:75-76 | the patterns are tried one by one, in order |
| TagPatterns.FirstSome | scripts/create_tasks_ens.py:74-84 | the for/break keeps the first successful result |
| TagPatterns.FirstSomeNone | scripts/create_tasks_ens.py:74 | with no successful result, `info` stays `{}` |
| TagPatterns.FirstSomeFirst | scripts/create_tasks_ens.py:74-84 | the result is the first success, whatever follows |
| TagPatterns.FirstMatch | scripts/create_tasks_ens.py:74-84 | when the first pattern matches, its dict is the result |
| TagPatterns.FirstMatchNone | scripts/create_tasks_ens.py:74 | when no pattern matches, the result is the empty dict |
| TagPatterns.FirstMatchFirst | scripts/create_tasks_ens.py:74-84 | the first matching pattern in order wins |
| TagPatterns.FirstMatchSecond | scripts/create_tasks_ens.py:74-84 | when the first of two patterns fails, the second decides |
| EnsTags.Decode | scripts/create_tasks_ens.py:31-84 | decoding fails exactly for a tag outside the table, with ValueError "Unknown ensemble short tag: <tag>", before any pattern is tried |
| EnsTags.ReadsMs | scripts/create_tasks_ens.py:55-84 | an `_ms` long tag is read by the first pattern into its `_ms` fields |
| EnsTags.ReadsMc | scripts/create_tasks_ens.py:57-84 | an `_mc` long tag fails the first pattern and is read by the second |
| EnsTags.TableDecodes | create_tasks_ens.py:29-85 | every table tag decodes; NL/NT are int, beta/mud str; mc is present exactly for the `b…` tags, ms and P exactly for the others |
| EnsTags.TableEntriesWell | scripts/create_tasks_ens.py:31-48 | every one of the sixteen entries matches one of the two patterns, with the fields its tag promises |
| ScriptsEnsemble.Derive | scripts/create_tasks_ens.py:86-95 | the intended derivation adds cfg_path and cfg_name, keeping every decoded field; for an `_mc` dict it needs beta/mud/NL/NT, and for an `_ms` dict also ms and P |
| ScriptsEnsemble.DeriveAsWritten | scripts/create_tasks_ens.py:87 | as written, a dict without mc raises KeyError('mc'); with mc it agrees with the intended derivation |
| ScriptsEnsemble.ParseEnsemble | scripts/create_tasks_ens.py:17-97 | an unknown tag raises ValueError; success gives NL, NT, cfg_path and cfg_name |
| ScriptsEnsemble.ParseEnsembleAsWritten | scripts/create_tasks_ens.py:17-97 | the same contract for the code as written |
| ScriptsEnsemble.DeriveMs | scripts/create_tasks_ens.py:93-94 | for an `_ms` tag, cfg_name is the long tag followed by `-n_cfg_` |
| ScriptsEnsemble.DeriveMc | scripts/create_tasks_ens.py:88-89 | for an `_mc` tag, cfg_path is `…/GREGORY/CONFIGS/NF3P1/B<beta>/B<beta>_M-<mud>M<mc>_L<NL>T<NT>/NS8_LS1_G2/` and cfg_name is `test_b…_nf3p1_cfg_` |
| ScriptsEnsemble.ParseEnsembleTable | scripts/create_tasks_ens.py:31-97 | with the intended derivation every table tag parses; an `_mc` tag gets one of the documented paths, and an `_ms` tag a cfg_name made of its long tag |
| ScriptsEnsemble.ParseEnsembleAsWrittenMs | scripts/create_tasks_ens.py:87 | as written, every `_ms` table tag raises KeyError('mc'), though the intended version parses it |
| ScriptsEnsemble.ParseEnsembleAsWrittenMc | scripts/create_tasks_ens.py:87-89 | as written and as intended agree on the `_mc` tags |
| ScriptsEnsemble.DocPathsDerived | scripts/create_tasks_ens.py:19-28 | each of the eight configuration directories in the docstring is a derived cfg_path, up to a trailing slash |
| ScriptsEnsemble.TableDocumented | scripts/create_tasks_ens.py:19-47 | the k-th `_mc` table entry derives the k-th documented directory |
| ScriptsEnsemble.TableKeysDistinct | scripts/create_tasks_ens.py:31-48 | no short tag is written twice in this table |
| ScriptsEnsemble.TableDerives | scripts/create_tasks_ens.py:31-97 | every entry decodes and derives cfg_path/cfg_name from its own fields |
| ScriptsEnsemble.MsEntryDerives | scripts/create_tasks_ens.py:93-94 | an `_ms` entry's cfg_name is its long tag plus `-n_cfg_` |
| ScriptsEnsemble.McEntryDerives | scripts/create_tasks_ens.py:88 | an `_mc` entry's cfg_path is the Gregory directory of its fields |
| ScriptsEnsemble.ShowDigits | scripts/create_tasks_ens.py:88 | formatting `int(NL)` in an f-string gives back the canonical digits |
| ChromaShTags.ParseEnsemble | yml_to_xml/chroma_sh_xml.py:27-95 | an unknown tag raises KeyError(tag), not ValueError; a known tag always gives a dict |
| ChromaShTags.TableDecodes | yml_to_xml/chroma_sh_xml.py:30-95 | each tag's dict has int NL/NT; mc exactly for `eric_s…`, ms for the rest; P exactly for the `a…` tags; no cfg fields |
| ChromaShTags.DuplicateKey | yml_to_xml/chroma_sh_xml.py:31-44 | `a125m280` is written twice and resolves to the later s24t64 entry; the overwritten entry would have decoded without P |
| ChromaShTags.TableEntriesWell | yml_to_xml/chroma_sh_xml.py:32-44 | every entry after the overwritten one decodes to the fields its tag promises |
| ChromaShTags.NoPatternEmpty | yml_to_xml/chroma_sh_xml.py:83-95 | a long tag not starting with `b` matches nothing and gives `{}` |
| ChromaShTags.ReadsStandard | yml_to_xml/chroma_sh_xml.py:48-55 | a 4-decimal-mud long tag with stream label is read by the first pattern, with P |
| ChromaShTags.ReadsMc | yml_to_xml/chroma_sh_xml.py:57-62 | an `_mc` long tag is read by the second pattern |
| ChromaShTags.ReadsMinimal | yml_to_xml/chroma_sh_xml.py:64-69 | a 3-decimal-mud `_ms` long tag falls through to the minimal pattern and has no P |
| ChromaShTags.SecondReads | yml_to_xml/chroma_sh_xml.py:83-93 | when the first of three patterns fails and the second matches, the second decides |
| ChromaShTags.ThirdReads | yml_to_xml/chroma_sh_xml.py:83-93 | when the first two fail, the third decides |
| JurecaTags.MatchTail | create-jureca.py:30 | `_s(\d+)t(\d+)-\d+` reads the three digit runs of the tag's tail |
| JurecaTags.MatchTailComplete | create-jureca.py:30 | every well-formed tail is read back |
| JurecaTags.MatchMasses | create-jureca.py:30 | `_ms([0-9.-]+)_mud-([0-9.]+)` reads the two mass strings of their classes |
| JurecaTags.MatchMassesComplete | create-jureca.py:30 | every well-formed mass pair is read back |
| JurecaTags.MatchJureca | create-jureca.py:29-32 | a match of the single pattern gives fields fitting it that re-assemble the long tag |
| JurecaTags.MatchJurecaComplete | create-jureca.py:29-32 | every long tag of that shape is matched, to its own fields |
| JurecaTags.TrailingP | create-jureca.py:26-27 | P is three digits: those after a final `-` at the end, and "000" otherwise |
| JurecaTags.TrailingPOf | create-jureca.py:26-27 | a tag ending in `-ddd` has P = ddd |
| JurecaTags.TrailingPDefault | create-jureca.py:27 | a tag not ending in a digit or newline has P = "000" |
| JurecaTags.TrailingPText | create-jureca.py:26-30 | for a tag matched by the pattern with a three-digit tail, P is that tail |
| JurecaTags.JurecaInfo | create-jureca.py:36-41 | the dict has beta/ms/mud as str, NL/NT as int and the given P, and nothing else |
| JurecaTags.ParseEnsemble | create-jureca.py:11-42 | an unknown tag raises ValueError "Unknown ensemble: …"; a non-matching long tag raises "Failed to parse: …"; success gives the six keys with P from the trailing digits |
| JurecaTags.TableDecodes | create-jureca.py:12-41 | every table tag parses, with P = "000" |
| JurecaTags.EntryDecodes | create-jureca.py:12-41 | a table entry parses to the dict of its own fields |
| JobData.Props | scripts/create_tasks_ens.py:229 | the decoded fields go into the YAML dict under their Python key names, and only those names |
| JobData.DataMap | scripts/create_tasks_ens.py:229-236 | every YAML key other than the decoded and derived ones keeps its value |
| JobData.Lookup | create_tasks_ens.py:231 | `d[key]` returns the value, or raises KeyError naming the key |
| JobData.PathArg | scripts/create_tasks_ens.py:249 | a path setting is read only when present and a string; a missing one raises KeyError |
| JobData.CfgRange | scripts/create_tasks_ens.py:293-298 | the config loop runs exactly when cfg_i/cfg_f/cfg_d are ints with non-zero step, over `range(cfg_i, cfg_f, cfg_d)`; a zero step raises ValueError |
| JobData.ScriptName | scripts/create_tasks_ens.py:327-329 | `obj.split("_")[1]` raises exactly when the name has no `_` |
| JobData.PadShape | scripts/create_tasks_ens.py:317 | a padded config id has no `/` and ends in a digit |
| Plan.Steps | scripts/create_tasks_ens.py:298-301 | the nested config/object loops make one step per pair |
| Plan.Row | scripts/create_tasks_ens.py:301 | the inner loop visits each object once, in order |
| Plan.StepsMembers | scripts/create_tasks_ens.py:298-301 | every step pairs a listed config id with a listed object |
| Plan.RunLoops | scripts/create_tasks_ens.py:298-356 | the nested loops produce exactly the writes and the exception of the run specification, and leave the filesystem with the written paths added |
| Plan.RunRow | scripts/create_tasks_ens.py:301-356 | one pass of the inner loop, then the rest of the run |
| Plan.RunCons | scripts/create_tasks_ens.py:337-356 | a skipped step writes nothing, a raising step ends the run, and a written step adds its path |
| Plan.RunFresh | scripts/create_tasks_ens.py:339-341 | without overwrite, no run writes over an existing file or writes one path twice |
| Plan.RunWritesLocated | scripts/create_tasks_ens.py:337-356 | every write goes to the located path of one of the steps, for that step's object |
| Plan.RunOverwriteAll | scripts/create_tasks_ens.py:339-356 | with overwrite and no exception, each step writes once, in order, its located path and rendered text |
| Plan.RunCaughtCons | create-jureca.py:155-176 | with render errors caught, a failing step writes nothing and the run goes on |
| Plan.RunLoopsCaught | create-jureca.py:123-176 | the loops with try/except give the run's writes, and `written` is their number |
| Plan.RunRowCaught | create-jureca.py:131-176 | one pass of the inner loop with errors caught, then the rest |
| Plan.RunCaughtExtends | create-jureca.py:169-176 | catching errors only adds writes after the point where the uncaught run would stop |
| Plan.RunCaughtFresh | create-jureca.py:155-156 | without overwrite, no existing file is overwritten and no path is written twice |
| Plan.RunCaughtCount | create-jureca.py:123-174 | `written` is at most the number of steps, and equals it when overwriting and every step renders |
| Plan.RunCaughtLocated | create-jureca.py:153-172 | every write goes to the located path of some step |
| Plan.RunCaughtDistinct | create-jureca.py:153-172 | when the steps' paths differ, no two writes share a path |
| Plan.StepsNoDups | create-jureca.py:124-131 | distinct config ids and objects make distinct steps |
| ScriptsPlanner.TaskObjects | scripts/create_tasks_ens.py:271-289 | a task contributes nothing exactly when it is not one of the nine names; a known task contributes itself and one chroma object |
| ScriptsPlanner.ExpandTasks | scripts/create_tasks_ens.py:270-289 | the expansion loop appends each task's objects in order |
| ScriptsPlanner.RunObjects | scripts/create_tasks_ens.py:292 | the deduplicated run objects contain no duplicate |
| ScriptsPlanner.RunObjectsMembers | scripts/create_tasks_ens.py:270-292 | an object is run exactly when some task, matched by `==`, contributes it; unknown tasks are ignored |
| ScriptsPlanner.RunObjectsShared | scripts/create_tasks_ens.py:276-292 | `peram_charm_mg` and `peram_charm_mg_eric` share `chroma_peram_charm_mg`, which is kept once |
| ScriptsPlanner.TaskDirPairs | scripts/create_tasks_ens.py:303-314 | a task's two objects share a directory, except for `peram_charm_mg_eric` |
| ScriptsPlanner.EricDirs | scripts/create_tasks_ens.py:307-314 | `peram_charm_mg_eric` goes to ini-other while its script goes to ini-perams-charm |
| ScriptsPlanner.OtherDirs | scripts/create_tasks_ens.py:313-314 | chroma_peram, chroma_peram_clover and chroma_peram_charm_clover fall to ini-other |
| ScriptsPlanner.FileNameRules | scripts/create_tasks_ens.py:326-335 | a chroma object without `_` raises; a chroma object is named `<second field>_cfgNN.sh`, and every other object `<obj>_cfgNN.ini.xml` |
| ScriptsPlanner.ScriptRule | scripts/create_tasks_ens.py:326-329 | both chroma branches use the same naming rule |
| ScriptsPlanner.InputRule | scripts/create_tasks_ens.py:330-335 | the three non-chroma branches give the same name |
| ScriptsPlanner.ChromaListed | scripts/create_tasks_ens.py:326 | the first branch's two objects are chroma objects |
| ScriptsPlanner.PeramCharmName | scripts/create_tasks_ens.py:330-331 | the `peram_charm_mg` branch spells the same name as the fallback |
| ScriptsPlanner.ObjDir | scripts/create_tasks_ens.py:317 | the object directory never ends in `/` |
| ScriptsPlanner.Locate | scripts/create_tasks_ens.py:317-337 | an output path exists exactly when the file name can be formed |
| ScriptsPlanner.LocateShape | scripts/create_tasks_ens.py:337 | the output path is the object directory, `/`, and the file name, whose last component is the name |
| ScriptsPlanner.NameSlashFree | scripts/create_tasks_ens.py:326-335 | file names are non-empty and contain no `/` |
| ScriptsPlanner.LocateCfgInjective | scripts/create_tasks_ens.py:317-337 | one object never targets the same path for two config ids |
| ScriptsPlanner.ChromaPeramCollision | scripts/create_tasks_ens.py:303-329 | chroma_peram, chroma_peram_clover and chroma_peram_charm_clover all target `ini-other/cnfgNN/peram_cfgNN.sh` |
| ScriptsPlanner.PeramScript | scripts/create_tasks_ens.py:328-329 | every `chroma_peram…` object is named `peram_cfgNN.sh` |
| ScriptsPlanner.TemplatesCover | scripts/create_tasks_ens.py:170-190 | every object of a task has a template except `peram_charm_mg_eric` |
| ScriptsPlanner.RenderDataRules | scripts/create_tasks_ens.py:344-349 | every template sees each other YAML key unchanged, the padded cfg_id that reads back as the id, the texts of the three meson momenta and two meson displacements, and the thirteen disco displacements as both `disco_displacement_list` and `disco_t_sources` |
| ScriptsPlanner.RenderObj | scripts/create_tasks_ens.py:344-353 | an object without a template raises KeyError; otherwise its template is rendered on the template data of `RenderDataRules` |
| ScriptsPlanner.YamlKeysKept | scripts/create_tasks_ens.py:229-295 | run_path and cfg_i/cfg_f/cfg_d are neither decoded nor overwritten, so the YAML values are used |
| ScriptsPlanner.Parse | scripts/create_tasks_ens.py:224 | a parsed ensemble has NL and NT |
| ScriptsPlanner.Prepare | scripts/create_tasks_ens.py:214-295 | set-up succeeds exactly when parsing succeeds, run_path is a string and the cfg settings are ints with non-zero step; it then has the deduplicated objects and `range(cfg_i, cfg_f, cfg_d)` |
| ScriptsPlanner.Process | scripts/create_tasks_ens.py:214-227 | a parse error ends the file with no writes |
| ScriptsPlanner.ProcessYamlFile | scripts/create_tasks_ens.py:214-356 | the method's writes and exception are those of the specification, and the filesystem gains exactly the written paths |
| ScriptsPlanner.ProcessAsWrittenMs | scripts/create_tasks_ens.py:87 | as written, every `_ms` ensemble file fails with KeyError('mc') before any write, where the intended parser would go on |
| ScriptsPlanner.RunSetupLocated | scripts/create_tasks_ens.py:298-356 | every write is the located path of a run object for a config id of the range |
| ScriptsPlanner.RunSetupEricFails | scripts/create_tasks_ens.py:279-353 | with `peram_charm_mg_eric` requested and overwrite on, the run raises |
| ScriptsPlanner.EricRequested | scripts/create_tasks_ens.py:278-292 | the task `peram_charm_mg_eric` puts that object in the run |
| ScriptsPlanner.CfgIds | scripts/create_tasks_ens.py:298 | ids run from cfg_i toward cfg_f and never reach cfg_f |
| UnifiedTasks.DictGet | create_tasks_ens.py:232-233 | `dict.get(key)` is the value or None |
| UnifiedTasks.FlavorConfig | create_tasks_ens.py:230-236 | an unknown flavour raises ValueError "Invalid flavor: …"; a known one gives mass_label = flavour, quark_mass and output_sdb_path |
| UnifiedTasks.PeramName | create_tasks_ens.py:221-229 | a peram task parses exactly when it splits into three `_` parts with inverter mg or clover; the flavour is lower-cased |
| UnifiedTasks.Labels | create_tasks_ens.py:231-233 | the light label is read with `[]` and may raise, the strange and charm labels with `.get` |
| UnifiedTasks.PeramUpdateFails | create_tasks_ens.py:221-236 | a peram task fails exactly when its name or flavour is invalid or the light label is missing; as written this holds for every flavour, as intended only for light |
| UnifiedTasks.PeramUpdateSets | create_tasks_ens.py:230-241 | a peram task sets exactly mass_label, quark_mass, output_sdb_path, inverter_type and flavor, with the sdb path under data_path |
| UnifiedTasks.SdbDir | create_tasks_ens.py:198-233 | each flavour's sdb directory is one of the created additional directories |
| UnifiedTasks.SdbPaths | create_tasks_ens.py:231-233 | output_sdb_path is `<data_path>/<flavour's sdb dir>` |
| UnifiedTasks.QuarkMassFallback | create_tasks_ens.py:231-233 | light takes prop_mass_light_label, which must be present; strange and charm take their label or None |
| UnifiedTasks.PeramUpdateReads | create_tasks_ens.py:231-233 | the update depends only on the three label keys |
| UnifiedTasks.LabelKeys | create_tasks_ens.py:237-241 | no update overwrites a label key |
| UnifiedTasks.TaskStep | create_tasks_ens.py:218-248 | a task fails only as a peram task whose update fails; it appends its objects, and only peram tasks change the data |
| UnifiedTasks.ExpandTasks | create_tasks_ens.py:217-248 | the task loop computes the expansion specification |
| UnifiedTasks.ExpandErrStays | create_tasks_ens.py:218-236 | an exception raised by an earlier task ends the loop |
| UnifiedTasks.ExpandObjects | create_tasks_ens.py:217-248 | a successful loop lists each task's objects in order and keeps the label keys |
| UnifiedTasks.ExpandFails | create_tasks_ens.py:218-236 | the loop raises exactly when some task fails |
| UnifiedTasks.ExpandFirstError | create_tasks_ens.py:218-236 | the error raised is the first failing task's |
| UnifiedTasks.ExpandLast | create_tasks_ens.py:218-248 | the loop over `tasks + [t]` is the loop over `tasks` and then `t` |
| UnifiedTasks.LastPeramWins | create_tasks_ens.py:237-241 | after several peram tasks, flavor and inverter_type are those of the last one |
| UnifiedTasks.NoPeramKeepsData | create_tasks_ens.py:218-248 | without peram tasks the loop never raises and leaves the data alone |
| UnifiedTasks.PeramObjectsHaveKeys | create_tasks_ens.py:237-242 | once a peram task has run, flavor and inverter_type are set |
| UnifiedTasks.PeramObjectsFromPeramTasks | create_tasks_ens.py:242 | peram_unified and chroma_peram come only from peram tasks |
| UnifiedTasks.PeramObjectsOf | create_tasks_ens.py:221-242 | a task contributes peram_unified or chroma_peram exactly when it starts with `peram` |
| UnifiedTasks.LastPeram | create_tasks_ens.py:218-242 | the last peram task of a list that has one |
| UnifiedTasks.StrangeNeedsLightLabel | create_tasks_ens.py:230-234 | as written, a strange task without prop_mass_light_label raises KeyError; as intended it succeeds with the strange label |
| UnifiedTasks.StrangeTaskNeedsLightLabel | create_tasks_ens.py:230-234 | the same for the task `peram_mg_strange` |
| UnifiedTasks.IntendedLabels | create_tasks_ens.py:230-236 | as intended, a valid peram task fails exactly for flavour light without the light label, with KeyError('prop_mass_light_label') |
| UnifiedPlanner.ParseEnsemble | create_tasks_ens.py:17-85 | an unknown tag raises ValueError; a known one decodes to the fields its tag promises and derives no cfg_path/cfg_name |
| UnifiedPlanner.FirstMatchNoCfg | create_tasks_ens.py:67-85 | no pattern result carries cfg_path or cfg_name |
| UnifiedPlanner.PeramDir | create_tasks_ens.py:269-272 | a peram object's directory reads flavor then inverter_type, raising KeyError for whichever is missing first, and is `ini-perams-<flavor>-<inverter>` |
| UnifiedPlanner.FixedDirs | create_tasks_ens.py:261-274 | every other object's directory is fixed and does not depend on the data |
| UnifiedPlanner.TaskDirPairs | create_tasks_ens.py:261-274 | a task's two objects share a directory |
| UnifiedPlanner.FileNameRules | create_tasks_ens.py:285-293 | a chroma object without `_` raises; chroma objects are `<second field>_cfgNN.sh`; others are `<obj>_cfgNN.ini.xml` |
| UnifiedPlanner.ScriptRule | create_tasks_ens.py:286-289 | both chroma branches use the same rule |
| UnifiedPlanner.InputRule | create_tasks_ens.py:290-293 | both non-chroma branches give the same name |
| UnifiedPlanner.PeramScriptName | create_tasks_ens.py:289 | chroma_peram's script is `peram_cfgNN.sh` |
| UnifiedPlanner.Locate | create_tasks_ens.py:277-295 | a path exists exactly when the directory, launch_path and file name do; a directory error is raised as is |
| UnifiedPlanner.TemplatesCover | create_tasks_ens.py:153-248 | every object a task contributes has a template and a named directory |
| UnifiedPlanner.RenderDataRules | create_tasks_ens.py:301-309 | render data keeps every YAML value; it sets cfg_id and the displacement lists, and sets momentum_list only for meson (list 1) and meson2 (list 2); only meson2 can fail |
| UnifiedPlanner.RenderObj | create_tasks_ens.py:301-311 | rendering raises the data error, KeyError for an object without template, or renders that template |
| UnifiedPlanner.YamlKeysKept | create_tasks_ens.py:190-255 | data_path and cfg_i/cfg_f/cfg_d are never overwritten by the decoded fields or peram updates |
| UnifiedPlanner.Prepare | create_tasks_ens.py:178-257 | set-up raises the parse error or KeyError('data_path'); on success it holds the task-loop data, the deduplicated objects and `range(cfg_i, cfg_f, cfg_d)` |
| UnifiedPlanner.Process | create_tasks_ens.py:185-189 | an unknown tag ends the file with ValueError and no writes |
| UnifiedPlanner.ProcessYamlFile | create_tasks_ens.py:178-314 | the method's writes and exception are the specification's, and the filesystem gains exactly the written paths |
| UnifiedPlanner.RunSetupLocated | create_tasks_ens.py:257-314 | every write is the located path of a run object for a config id of the range |
| UnifiedPlanner.PreparedObjects | create_tasks_ens.py:251-274 | the prepared objects are distinct, all have templates, and all have a directory other than ini-other |
| UnifiedPlanner.PeramDirOfLastTask | create_tasks_ens.py:237-272 | both peram objects go to `ini-perams-<flavor>-<inverter>` of the last peram task |
| UnifiedPlanner.LocateCfgInjective | create_tasks_ens.py:277-295 | one object never targets the same path for two config ids |
| UnifiedPlanner.CfgDirName | create_tasks_ens.py:277 | the config directory does not end in `/` |
| UnifiedPlanner.NameSlashFree | create_tasks_ens.py:285-293 | file names are non-empty and slash-free |
| ScriptsTasks.ExpandTasks | scripts/create_tasks.py:71-92 | the substring-test loop computes the expansion specification |
| ScriptsTasks.AppliedMembers | scripts/create_tasks.py:73-92 | a task contributes a kind's xml and script exactly when the kind's name is a substring of the task |
| ScriptsTasks.KindsComplete | scripts/create_tasks.py:73-92 | the chain tests every kind |
| ScriptsTasks.TaskObjectsInput | scripts/create_tasks.py:73-92 | a kind's xml object comes from a task exactly when the task contains the kind's name |
| ScriptsTasks.RunObjectsMembers | scripts/create_tasks.py:71-92 | run objects are exactly those some task contributes, with no dedup |
| ScriptsTasks.PeramSubstring | scripts/create_tasks.py:87-88 | every task containing `peram` also adds peram and chroma_peram |
| ScriptsTasks.EricExpansion | scripts/create_tasks.py:71-92 | `peram_charm_mg_eric` yields peram_charm_mg, chroma_peram_charm_mg, peram_charm_mg_eric, chroma_peram_charm_mg, peram, chroma_peram |
| ScriptsTasks.CharmEricExpansion | scripts/create_tasks.py:79-92 | the same, for any task containing exactly those substrings |
| ScriptsTasks.FileNameRule | scripts/create_tasks.py:114-124 | every object's name is its base, then `_<nvec>` when its branch names nvec and nvec is set, then `_cfgNN` and its extension; no branch raises |
| ScriptsTasks.ChromaFileName | scripts/create_tasks.py:115-118 | chroma names use the second `_` field; only chroma_eigs and chroma_disco omit the nvec |
| ScriptsTasks.ScriptNameRule | scripts/create_tasks.py:115-118 | the rule for the eight chroma objects |
| ScriptsTasks.InputNameRule | scripts/create_tasks.py:119-124 | the rule for the ten xml objects |
| ScriptsTasks.InputNotChroma | scripts/create_tasks.py:115-122 | no xml object falls into a chroma branch, and each special-cased xml name picks one kind |
| ScriptsTasks.NvecAbsent | scripts/create_tasks.py:105-124 | an nvec of None or 0 names the file as if there were none |
| ScriptsTasks.EigsDiscoNoNvec | scripts/create_tasks.py:115-122 | eigs/disco xml files and chroma_eigs/chroma_disco scripts never carry the nvec |
| ScriptsTasks.EricNameCollides | scripts/create_tasks.py:119-120 | peram_charm_mg_eric's xml gets peram_charm_mg's name `peram_charm_mg[_<nvec>]_cfgNN.ini.xml` |
| ScriptsTasks.PeramScriptsCollide | scripts/create_tasks.py:117-118 | all five chroma_peram… scripts are named `peram[_<nvec>]_cfgNN.sh` |
| ScriptsTasks.ChromaSecond | scripts/create_tasks.py:116-118 | the second `_` field of `chroma_<base>…` is the base |
| ScriptsTasks.FileDirRule | scripts/create_tasks.py:108-126 | `obj.__contains__('eigs\|disco')` never holds, so with nvec every file goes under `numvec<nvec>` |
| ScriptsTasks.NoBar | scripts/create_tasks.py:126 | no object name contains `\|` |
| ScriptsTasks.OutPathRule | scripts/create_tasks.py:105-126 | the output path is the (numvec) directory joined with the object's name |
| ScriptsTasks.Shows | scripts/create_tasks.py:142 | `str(i)` is applied to every element |
| ScriptsTasks.TSourcesAgree | scripts/create_tasks.py:142 | t_sources is the space-joined list that perams_xml's generator gives for the same positive fwd and num |
| ScriptsTasks.TSourcesDefault | scripts/create_tasks.py:142 | with the defaults 96 and 4, t_sources is "0 24 48 72" |
| ScriptsTasks.TSourcesFails | scripts/create_tasks.py:142 | non-int settings raise TypeError, and num_tsrc = 0 raises ZeroDivisionError |
| ScriptsTasks.EnsEntries | scripts/create_tasks.py:146-147 | the decoded fields are added under their Python names, and nothing else |
| ScriptsTasks.BaseKeeps | scripts/create_tasks.py:133-135 | a YAML key survives exactly when it is a model field of the object's class and is not overwritten later |
| ScriptsTasks.BaseSets | scripts/create_tasks.py:136-145 | cfg_id, the momentum/displacement lists, tsrc = 24, t_sources, and with nvec num_vecs_perams and meson_nvec |
| ScriptsTasks.RenderDataSplit | scripts/create_tasks.py:133-147 | rendered data is the filtered data updated with the decoded ensemble of its ens_short |
| ScriptsTasks.RenderDataRules | scripts/create_tasks.py:133-147 | other YAML keys survive exactly when they are model fields; keys set here keep the value set |
| ScriptsTasks.SetHereNotFields | scripts/create_tasks.py:136-147 | no key set here is a decoded field name |
| ScriptsTasks.RenderDataNoTag | scripts/create_tasks.py:146 | without ens_short among the kept keys, `parse_ensemble('')` raises KeyError('') |
| ScriptsTasks.EmptyTagUnknown | yml_to_xml/chroma_sh_xml.py:30-46 | the empty tag is not in the table |
| ScriptsTasksRun.NvecValues | scripts/create_tasks.py:105 | without num_vecs the nvec loop runs once with None, otherwise once per value |
| ScriptsTasksRun.ObjJobs | scripts/create_tasks.py:107 | the nvec loop makes one job per nvec |
| ScriptsTasksRun.CfgJobs | scripts/create_tasks.py:102-107 | the object loop makes objects × nvecs jobs |
| ScriptsTasksRun.Jobs | scripts/create_tasks.py:94-107 | the three loops make cfgs × objects × nvecs jobs |
| ScriptsTasksRun.CfgJobsMembers | scripts/create_tasks.py:102-107 | a job is in one config's loops exactly when its object and nvec are listed |
| ScriptsTasksRun.JobsMembers | scripts/create_tasks.py:94-107 | a job is run exactly when its config, object and nvec are listed |
| ScriptsTasksRun.JobPathAsWritten | scripts/create_tasks.py:96-126 | the branch-by-branch path of a job equals its rule-form path and never raises |
| ScriptsTasksRun.RunJobsCons | scripts/create_tasks.py:128-153 | a skipped job writes nothing, a failing one ends the run, and a written one adds its path |
| ScriptsTasksRun.ProcessAsWrittenFails | scripts/create_tasks.py:94-98 | as written nothing is ever written; a non-empty range raises NameError('ini_path') |
| ScriptsTasksRun.ProcessAgreesBeforeLoop | scripts/create_tasks.py:94 | with a failing or empty range, the as-written and corrected runs agree |
| ScriptsTasksRun.ProcessLoops | scripts/create_tasks.py:94-153 | the corrected nested loops compute the run specification and add exactly the written paths |
| ScriptsTasksRun.RunLoops | scripts/create_tasks.py:94-153 | the config loop computes the run over all jobs |
| ScriptsTasksRun.RunCfg | scripts/create_tasks.py:102-153 | one config's loops, then the rest of the run |
| ScriptsTasksRun.RunObj | scripts/create_tasks.py:107-153 | one object's nvec loop, then the rest of the run |
| ScriptsTasksRun.RunJobsFresh | scripts/create_tasks.py:128-130 | without overwrite no existing file is overwritten and no path is written twice |
| ScriptsTasksRun.RunJobsLocated | scripts/create_tasks.py:126-153 | every write is some job's path, object name and rendered text |
| ScriptsTasksRun.RunJobsOverwriteAll | scripts/create_tasks.py:126-153 | with overwrite and no exception, each job writes once, in order |
| ScriptsTasksRun.RunJobsNoRender | scripts/create_tasks.py:146-150 | when every render fails, nothing is written, and with overwrite the run raises that error |
| ScriptsTasksRun.ProcessWritesFresh | scripts/create_tasks.py:94-153 | without overwrite, the run's writes are fresh and distinct |
| ScriptsTasksRun.ProcessWritesLocated | scripts/create_tasks.py:94-153 | every write is for a config of the range, a run object and an nvec value, at its path and with its rendered text |
| ScriptsTasksRun.RunnerOfJob | scripts/create_tasks.py:114-153 | the loop body locates a job at its rule-form path, names its object, and renders its template |
| ScriptsTasksRun.ProcessNoTag | scripts/create_tasks.py:146 | a YAML file without ens_short writes nothing |
| ScriptsTasksRun.SharedPaths | scripts/create_tasks.py:115-126 | all chroma_peram… scripts share one path, and so do the two peram_charm_mg xml objects |
| JurecaObjects.FindKind | create-jureca.py:104-116 | `task_map.get(task)` finds the kind with that name, or none exists |
| JurecaObjects.TaskKind | create-jureca.py:104-116 | a found kind has the task's name |
| JurecaObjects.KindNameInjective | create-jureca.py:104-113 | no two kinds share a name |
| JurecaObjects.TaskKindName | create-jureca.py:104-116 | every kind's name finds that kind |
| JurecaObjects.TaskKindDomain | create-jureca.py:104-116 | a task is known exactly when it names a kind |
| JurecaObjects.KindNameShape | create-jureca.py:104-113 | task names are non-empty, slash-free and do not start with `chroma_` |
| JurecaObjects.TaskObjectsRule | create-jureca.py:104-116 | a known task contributes `[task, chroma_task]`, an unknown one nothing |
| JurecaObjects.RunObjects | create-jureca.py:114-117 | the run objects have no duplicates |
| JurecaObjects.RunObjectsMembers | create-jureca.py:114-117 | an object runs exactly when some known task names it or its chroma script |
| JurecaObjects.ObjOf | create-jureca.py:47-65 | an object name maps back to its object |
| JurecaObjects.ObjOfName | create-jureca.py:47-65 | every object's name maps back to it |
| JurecaObjects.ObjOfDomain | create-jureca.py:47-65 | the names with a template are exactly the objects' names |
| JurecaObjects.SubdirRule | create-jureca.py:132-142 | an object and its script share their kind's directory, never ini-other |
| JurecaObjects.TaskObjectsCovered | create-jureca.py:47-142 | every object of a task has a template and a slash-free name |
| JurecaObjects.RunObjectsCovered | create-jureca.py:47-142 | every run object has a template entry and a subdir entry |
| JurecaObjects.RunObjectsWell | create-jureca.py:47-117 | the same, for every member of the run list |
| JurecaObjects.FileNameRule | create-jureca.py:146-153 | `chroma_<task>` is named `<task>_cfg<id>.sh`, other objects `<obj>_cfg<id>.ini.xml`, with unpadded ids |
| JurecaObjects.OutFileInjective | create-jureca.py:143-153 | two (object, config id) pairs never share an output path |
| JurecaObjects.OutFileInjectiveEqual | create-jureca.py:143-153 | equal output paths mean equal objects and ids |
| JurecaObjects.OutFileParts | create-jureca.py:143-153 | equal output paths have equal id texts and file names |
| JurecaObjects.FileNameInjective | create-jureca.py:146-153 | stripping `chroma_` once and the `.sh`/`.ini.xml` extension keep file names of one config distinct |
| JurecaObjects.ChromaBase | create-jureca.py:147 | `obj.split("_", 1)[1]` of a chroma object is what follows `chroma_` |
| JurecaObjects.JoinSplit | create-jureca.py:143-153 | a path joined from a directory and a component splits back uniquely |
| JurecaObjects.JoinedParts | create-jureca.py:143-153 | an output path determines its id and file name |
| JurecaPlanner.PathOf | create-jureca.py:75-80 | a path setting is read only when present as a string; a missing one raises KeyError |
| JurecaPlanner.ReadLocations | create-jureca.py:75-80 | a missing `paths` block raises KeyError('paths'); otherwise the five settings are read in order, data_path first, and the four directories are expanded and normalised by `str(Path(p).expanduser())` |
| JurecaPlanner.DataOf | create-jureca.py:87-93 | the YAML keys other than the decoded and assigned ones keep their values |
| JurecaPlanner.DataOfRules | create-jureca.py:87-93 | the decoded fields are added, ens_short is the tag, and Nt_forward = prop_t_fwd = meson_t_fwd = NT |
| JurecaPlanner.DataOfKeepsRange | create-jureca.py:119-121 | cfg_i/cfg_f/cfg_d come from the YAML unchanged |
| JurecaPlanner.PlusOne | create-jureca.py:124 | `cfg_f + 1` needs an int |
| JurecaPlanner.CfgIds | create-jureca.py:119-124 | ids are `range(cfg_i, cfg_f + 1, cfg_d)` exactly when the three settings are ints and the step non-zero |
| JurecaPlanner.CfgIdsInclusive | create-jureca.py:124 | with a positive step every id lies in [cfg_i, cfg_f] on the step grid, cfg_f is included exactly when it is on the grid, and no id repeats |
| JurecaPlanner.RangeInclusive | create-jureca.py:124 | the same, for `range(i, f + 1, d)` |
| JurecaPlanner.CfgIdsNoDups | create-jureca.py:124 | the config ids never repeat |
| JurecaPlanner.RenderDataRules | create-jureca.py:158-167 | render data keeps the YAML values and the `paths` block; it sets the unpadded cfg_id, gauge_file, the four normalised directories, and the meson lists |
| JurecaPlanner.PreparedRenderPaths | create-jureca.py:75-79 | for a prepared run the templates see the document's `paths` block and `str(Path(p).expanduser())` of each directory it names, and files go under the normalised launch directory |
| JurecaPlanner.RenderObj | create-jureca.py:169-170 | an object without a template raises KeyError |
| JurecaPlanner.RenderObjTemplate | create-jureca.py:158-170 | an object's file is its template rendered on its render data |
| JurecaPlanner.Prepare | create-jureca.py:68-124 | set-up raises the path or parse error; on success it holds the read paths, the parsed data, the deduplicated objects and the inclusive ids |
| JurecaPlanner.PrepareRange | create-jureca.py:119-124 | a successful set-up runs over `range(cfg_i, cfg_f + 1, cfg_d)` of the YAML |
| JurecaPlanner.PreparedWell | create-jureca.py:104-124 | prepared objects and ids are distinct and every object has a template |
| JurecaPlanner.Process | create-jureca.py:87 | an unknown ensemble raises before any write |
| JurecaPlanner.ProcessYamlFile | create-jureca.py:68-178 | the method's result is the specification's, and `written` counts exactly the files written |
| JurecaPlanner.RunDistinct | create-jureca.py:131-176 | no two writes of one file's run share a path |
| JurecaPlanner.RunWritesLocated | create-jureca.py:143-172 | every write is for a run object at its output path for some config id |
| JurecaPlanner.RunCount | create-jureca.py:123-176 | `written` is at most configs × objects, and equals it when overwriting and every render succeeds |
| JurecaPlanner.RunFresh | create-jureca.py:155-156 | without overwrite no existing file is written |
| ScriptsBinned.ExpandTasks | scripts/create_binned_tasks.py:46-55 | the append loop computes the expansion specification |
| ScriptsBinned.AddedMembers | scripts/create_binned_tasks.py:48-55 | a task adds a binned object exactly when the object's tail is a substring of the task |
| ScriptsBinned.TestedComplete | scripts/create_binned_tasks.py:48-55 | the chain tests all four objects |
| ScriptsBinned.RunObjectsMembers | scripts/create_binned_tasks.py:46-55 | an object runs exactly when some task contains its tail |
| ScriptsBinned.AddedStep | scripts/create_binned_tasks.py:48-55 | one `if` of the chain, then the rest |
| ScriptsBinned.StrangeExpansion | scripts/create_binned_tasks.py:48-51 | a task containing `peram_strange` (and not charm/meson) adds chroma_peram and chroma_peram_strange |
| ScriptsBinned.PeramOnlyExpansion | scripts/create_binned_tasks.py:48-55 | a task containing only `peram` adds chroma_peram alone |
| ScriptsBinned.PeramStrangeTask | scripts/create_binned_tasks.py:48-55 | `peram_strange` expands to chroma_peram and chroma_peram_strange |
| ScriptsBinned.PeramTask | scripts/create_binned_tasks.py:48-55 | `peram` expands to chroma_peram alone |
| ScriptsBinned.DuplicatesKept | scripts/create_binned_tasks.py:46-55 | `peram peram_strange` gives chroma_peram twice; duplicates are not removed |
| ScriptsBinned.Zip | scripts/create_binned_tasks.py:80 | `zip` pairs the k-th elements and stops at the shorter list |
| ScriptsBinned.GroupStartsShape | scripts/create_binned_tasks.py:56-125 | groups start at cfg_i + 200k while below cfg_f, whatever --cfg_step says |
| ScriptsBinned.GroupShape | scripts/create_binned_tasks.py:61-62 | start ≤ end ≤ min(start+150, cfg_f); the ids are start, start+50, …, 1 to 4 of them, all below end+50, and the last reaches end (it may pass cfg_f) |
| ScriptsBinned.IdsCount | scripts/create_binned_tasks.py:57-62 | a group has at most four ids |
| ScriptsBinned.DevicesPaired | scripts/create_binned_tasks.py:58-80 | the k-th id is paired with GPU k, and every id gets one |
| ScriptsBinned.GroupsTile | scripts/create_binned_tasks.py:60-62 | the j-th id of group k is cfg_i + 50(4k + j), so groups tile the 50-grid without overlap |
| ScriptsBinned.LastIdPastEnd | scripts/create_binned_tasks.py:61-62 | with cfg_i = 0 and cfg_f = 120 the single group ends at 120 but lists id 150 |
| ScriptsBinned.StripChroma | scripts/create_binned_tasks.py:76-77 | every run object starts with `chroma_`, and stripping it leaves the task tail |
| ScriptsBinned.BinPathInjective | scripts/create_binned_tasks.py:66-79 | within one group and nvec, different objects get different script paths |
| ScriptsBinned.GroupDataSets | scripts/create_binned_tasks.py:100-111 | render data holds cfg_ids, the id/GPU pairs, the group bounds and the nvec twice |
| ScriptsBinned.GroupDataKeeps | scripts/create_binned_tasks.py:97-98 | other YAML keys survive exactly when they are ChromaOptions fields |
| ScriptsBinned.BinDataNoTag | scripts/create_binned_tasks.py:112 | without ens_short among the kept keys, the lookup raises KeyError('ens_short') |
| ScriptsBinned.BinDataUnknownTag | scripts/create_binned_tasks.py:112 | an ens_short outside chroma_sh_xml's table raises KeyError(tag) |
| ScriptsBinned.NvecJobs | scripts/create_binned_tasks.py:75 | the object loop makes one job per object, in order |
| ScriptsBinned.GroupJobs | scripts/create_binned_tasks.py:70-75 | a group makes nvecs × objects jobs |
| ScriptsBinned.AllJobs | scripts/create_binned_tasks.py:60-75 | the run makes groups × nvecs × objects jobs |
| ScriptsBinned.GroupJobsMembers | scripts/create_binned_tasks.py:70-75 | a job is in a group's loops exactly when its bounds, nvec and object are the group's |
| ScriptsBinned.AllJobsMembers | scripts/create_binned_tasks.py:60-75 | a job runs exactly when it starts a group, ends at that group's end, and has a listed nvec and object |
| ScriptsBinned.RunBinsCons | scripts/create_binned_tasks.py:92-119 | an ungated job writes nothing, a failing render ends the run, and a rendered one is written |
| ScriptsBinned.MainLoops | scripts/create_binned_tasks.py:60-119 | the group, nvec and object loops compute the run specification |
| ScriptsBinned.RunGroup | scripts/create_binned_tasks.py:70-119 | one group's loops, then the rest of the run |
| ScriptsBinned.RunNvec | scripts/create_binned_tasks.py:75-119 | one nvec's object loop, then the rest |
| ScriptsBinned.Gated | scripts/create_binned_tasks.py:92 | the jobs whose object passes the gate |
| ScriptsBinned.RunBinsGated | scripts/create_binned_tasks.py:92-119 | every write is a gated job's script path, object name and rendered text |
| ScriptsBinned.RunBinsNoneGated | scripts/create_binned_tasks.py:92 | when no object name is in list_tasks, nothing is written and nothing is raised |
| ScriptsBinned.RunBinsAll | scripts/create_binned_tasks.py:92-119 | a run without exception writes once per gated job, in order |
| ScriptsBinned.RunBinsFails | scripts/create_binned_tasks.py:112-114 | the first gated job whose render fails ends the run with its error, after fewer writes than jobs before it |
| ScriptsBinned.MainPlainTasks | scripts/create_binned_tasks.py:47-92 | with task names like `peram` and `meson` (none starting `chroma_`), the script renders nothing |
| ScriptsBinned.BinRunnerOfJob | scripts/create_binned_tasks.py:66-119 | the loop body gates on `obj in list_tasks`, writes to `<run_dir>/cfgs_<s>-<e>/numvec<n>/<tail>_<n>_cfgs_<s>-<e>.sh`, and renders the object's template on its data |
| FileAudit.FormatPlain | check-all-files.py:32 | `.format` leaves a brace-free string unchanged |
| FileAudit.FormatLit | check-all-files.py:37-38 | brace-free text is copied through `.format` |
| FileAudit.FormatField | check-all-files.py:37-38 | each `{}` takes the next argument |
| FileAudit.FormatTwo | check-all-files.py:37-38 | a two-field pattern is filled with nvec and cfg in order |
| FileAudit.DirectoryBraceFree | check-all-files.py:7-32 | the directories contain no braces, so `.format(nvec)` leaves them unchanged |
| FileAudit.CfgRangeIds | check-all-files.py:23 | the checked ids are 11, 21, …, 1991: 199 of them |
| FileAudit.Audit | check-all-files.py:25-54 | a known type always gives two lists |
| FileAudit.CheckFilesLoop | check-all-files.py:25-54 | the nvec loop computes the audit specification |
| FileAudit.AuditCfgsLoop | check-all-files.py:36-49 | the config loop computes the two missing lists |
| FileAudit.AuditCfgsPrefixErr | check-all-files.py:36-49 | an error in a prefix of the ids stays the result |
| FileAudit.AuditPrefixErr | check-all-files.py:30-52 | an error for a prefix of the nvecs stays the result |
| FileAudit.Expected | check-all-files.py:36-41 | one expected path per config id |
| FileAudit.ExpectedAt | check-all-files.py:36-41 | the k-th expected path is that of the k-th id |
| FileAudit.Missing | check-all-files.py:43-49 | a missing list holds exactly the expected paths not on disk, and is no longer than the expected list |
| FileAudit.MissingAppend | check-all-files.py:36-49 | missing paths of consecutive ids concatenate in order |
| FileAudit.AuditCfgsFinds | check-all-files.py:36-49 | each list is the expected paths of its extension filtered by the filesystem, independently of the other |
| FileAudit.AuditFinds | check-all-files.py:30-54 | for a known type and one nvec, the audit returns the two filtered lists |
| FileAudit.CheckFilesFinds | check-all-files.py:21-54 | `check_files` returns, for nvec 96 and ids 11…1991, the missing `.sdb` and `.h5` paths in increasing id order |
| FileAudit.CheckFilesBound | check-all-files.py:21-36 | each list has at most \|nvecs\|·199 entries |
| FileAudit.CheckFilesKnown | check-all-files.py:31-54 | meson and peram always give two lists |
| FileAudit.CheckFilesUnknown | check-all-files.py:50-52 | an unknown type returns None |
| FileAudit.ExpectedNames | check-all-files.py:23-41 | the k-th expected name is for id 11 + 10k and nvec 96 |
| FileAudit.MainPeramStrange | check-all-files.py:61-76 | `--type peram_strange` passes the choices but the unpack raises TypeError before any report |
| FileAudit.MainLoopKnown | check-all-files.py:74-90 | a known type produces its report, then the loop continues |
| FileAudit.MainKnown | check-all-files.py:69-90 | meson and peram produce exactly one report and raise nothing |
| FileAudit.MainAll | check-all-files.py:69-76 | `--type all` reports meson and peram, then raises TypeError at peram_strange |
| Momenta.IntTextNoSpace | scripts/yml_to_xml/meson_xml.py:5-7 | an int's text contains no space |
| Momenta.MomTextRoundTrip | scripts/yml_to_xml/meson_xml.py:5-7 | a momentum's `"x y z"` text reads back as that momentum |
| Momenta.MomTextInjective | scripts/yml_to_xml/meson_xml.py:5-7 | different momenta have different texts |
| Momenta.WritesAppend | yml_to_xml/disco_xml.py:5-12 | lists of momentum texts concatenate |
| Momenta.WritesParse | yml_to_xml/disco_xml.py:5-12 | each text of a momentum list reads back as its momentum |
| Momenta.WritesNoDups | yml_to_xml/disco_xml.py:5-12 | distinct momenta give distinct texts |
| Momenta.DispTextRoundTrip | scripts/yml_to_xml/meson_xml.py:20-24 | a displacement's space-separated text reads back as its directions |
| Momenta.DispTextJoin | scripts/yml_to_xml/meson_xml.py:22 | a displacement's text is its directions joined by spaces |
| Momenta.ParseIntsOf | scripts/yml_to_xml/meson_xml.py:22 | the texts of ints read back |
| Momenta.DispTextInjective | scripts/yml_to_xml/meson_xml.py:20-24 | different displacements have different texts |
| Momenta.WritesDispsNoDups | yml_to_xml/disco_xml.py:17-19 | distinct displacements give distinct texts |
| MesonXml.GenMomList | scripts/yml_to_xml/meson_xml.py:4-17 | `_gen_mom_list` writes the momenta (0,0,0), (1,0,0), (-1,0,0), in that order |
| MesonXml.MesonMomsShape | scripts/yml_to_xml/meson_xml.py:5-7 | the list is closed under negation, has no duplicate, and its only non-zero momenta are one unit along an axis |
| MesonXml.MomListReads | scripts/yml_to_xml/meson_xml.py:4-17 | each text reads back as its momentum and no text repeats |
| MesonXml.DisplacementList | scripts/yml_to_xml/meson_xml.py:20-24 | `_displacement_list` writes no displacement and a single step in direction 1 |
| MesonXml.NewMeson | scripts/yml_to_xml/meson_xml.py:50-53 | Meson's default momentum_list and displacement_list equal the two functions' results; given values are kept |
| DiscoXml.DiscoMomsMembers | yml_to_xml/disco_xml.py:4-14 | the disco momenta are exactly zero and ±1, ±2, ±3 along a single axis |
| DiscoXml.DiscoMomAt | yml_to_xml/disco_xml.py:5-12 | each entry is in its own slot of the list |
| DiscoXml.DiscoMomsShape | yml_to_xml/disco_xml.py:5-12 | 19 distinct momenta, closed under negation |
| DiscoXml.GenMomListReads | yml_to_xml/disco_xml.py:4-14 | the 19 texts are distinct and read back as the momenta |
| DiscoXml.GenMomList | yml_to_xml/disco_xml.py:4-14 | `_gen_mom_list` writes the disco momenta in order |
| DiscoXml.DisplacementList | yml_to_xml/disco_xml.py:17-19 | `_displacement_list` writes the displacements in their listed order |
| DiscoXml.DiscoDispAt | yml_to_xml/disco_xml.py:18 | each displacement is in its own slot |
| DiscoXml.DiscoDispsMembers | yml_to_xml/disco_xml.py:18 | the displacements are exactly '' and every one- or two-step path over directions 1–3 |
| DiscoXml.DisplacementListShape | yml_to_xml/disco_xml.py:17-19 | 13 entries, none repeated |
| DiscoXml.ColorParts | yml_to_xml/disco_xml.py:52 | the formula is ceil(max_colors / at_once): parts·at_once ≥ max_colors > (parts−1)·at_once; at_once = 0 raises |
| DiscoXml.NewDisco | yml_to_xml/disco_xml.py:42-48 | as written, num_color_parts is 14 unless given, and the default disco_displacement_list equals `_displacement_list()` |
| DiscoXml.NewDiscoIntended | yml_to_xml/disco_xml.py:50-52 | as intended, num_color_parts is the ceiling division, raising only for at_once = 0 |
| DiscoXml.ColorPartsIgnored | yml_to_xml/disco_xml.py:48-54 | for 3325 colours, 256 at once, the model holds 14 while the formula gives 13 |
| PeramsXml.GenerateTSourceList | scripts/yml_to_xml/perams_xml.py:57-65 | non-int inputs raise TypeError, non-positive ones ValueError; otherwise the result is `range(0, fwd, round(fwd/num))`, which raises when the step rounds to 0 |
| PeramsXml.StepSign | scripts/yml_to_xml/perams_xml.py:64 | for positive inputs the step is never negative, and is 0 exactly when 2·fwd ≤ num |
| PeramsXml.TSourceListFails | scripts/yml_to_xml/perams_xml.py:59-65 | the generator raises exactly for non-ints, non-positive inputs, or 2·fwd ≤ num |
| PeramsXml.TSourceListShape | scripts/yml_to_xml/perams_xml.py:65 | the list starts at 0, rises by the step, stays below fwd, and has ceil(fwd/step) entries |
| PeramsXml.TSourceListExamples | scripts/yml_to_xml/perams_xml.py:64-65 | (10, 4) gives 5 sources, (96, 4) gives 0 24 48 72, and (1, 2) raises the zero-step ValueError |
| PeramsXml.TSourceListIsFirst64 | scripts/yml_to_xml/perams_xml.py:67 | the module-level list is 0..63 |

## Left out

- I/O is not modelled: YAML loading and dumping, the `input()` prompts for missing
  `run_path`/`cfg_path`, directory creation, printing, argparse, and `os.walk`/`rglob`
  discovery of YAML files. A YAML document is a `map<string, Value>` given as a parameter,
  and the ensemble tag is a parameter rather than the file's stem.
- `ScriptsBinned.Main` takes the document as a parameter, as if read after the prompts.
  The re-read of the YAML file inside the object loop gives the same map every time.
- Jinja2 rendering is the `Plan.Oracle` parameter. StrictUndefined errors are whatever the
  oracle returns.
- Template and model-field lookups are partly modelled. The source's `handler.templates[obj]`
  and `xml_classes` are total maps over the objects the expansion produces. The pydantic
  field lists of `Eigs`, `Perams`, `Meson`, `Disco` and `ChromaOptions` are parameters.
- `os.path.realpath` in `scripts/create_tasks.py` is a function parameter of
  `ScriptsTasksRun.Setup`, since it depends on the working directory and symlinks.
- The filesystem is a set of paths. Writes never fail, and a written path joins the set.
  Directory creation is not modelled.
- `--overwrite` and `--cfg_step` of `scripts/create_binned_tasks.py` are accepted and
  ignored by the source. The model therefore has no overwrite check there, and its config
  step is the constant 50.
- `ScriptsBinned.GroupData` models `cfg_ids`, a `range` object, as the list of its ids
  (`Plan.Entry.Ints`).
- `Py.RoundDiv` models Python's `round(fwd / num)` on the exact quotient. Float rounding of
  the division, which can differ for very large operands, is not modelled.
- `Py.IntToString`, `Py.Lower` and the scanners work on `seq<char>` only. Unicode digits
  and case rules beyond ASCII are not modelled.
- `FileAudit.Format` models `str.format` only for the plain `{}` fields the patterns use.
- `FileAudit.Main` requires the file type to be one of the four argparse choices, because
  argparse rejects any other before `main` runs.
- `UnifiedPlanner.Process`: its own contract covers only the unknown-tag error.
  `UnifiedPlanner.ProcessYamlFile` ties the method to it, and the run's writes are stated by
  `UnifiedPlanner.RunSetupLocated` and `Plan.RunFresh`.
- `ScriptsPlanner.Process`: its own contract covers only the parse error. The run is stated
  by `ScriptsPlanner.RunSetupLocated`, `ScriptsPlanner.RunSetupEricFails` and
  `Plan.RunFresh`.
- `JurecaPlanner.Process`: its own contract covers only the parse error. The run is stated
  by `JurecaPlanner.RunDistinct`, `JurecaPlanner.RunWritesLocated`,
  `JurecaPlanner.RunCount` and `JurecaPlanner.RunFresh`.
- `ScriptsEnsemble.ParseEnsemble`: its own contract names the keys present. The values for
  every table entry are stated by `ScriptsEnsemble.ParseEnsembleTable`.
- `meson_xml._gen_mom_list2`, called by `create_tasks_ens.py`, comes from the root
  `yml_to_xml/meson_xml.py`, which is not part of this model.
  `UnifiedPlanner.MesonSource.momentumList2` is a `Result` parameter, so either a list or
  the error calling it raises.
- The scripts under `scripts/` import `yml_to_xml.*` from `scripts/yml_to_xml/`, while the
  root `create_tasks_ens.py` imports the root `yml_to_xml/` copies. The model has one module
  per helper file: `MesonXml` and `PeramsXml` are `scripts/yml_to_xml/meson_xml.py` and
  `scripts/yml_to_xml/perams_xml.py`, and `ChromaShTags` and `DiscoXml` are the root
  `yml_to_xml/chroma_sh_xml.py` and `yml_to_xml/disco_xml.py`. Every generator uses these
  four, so a difference between the two copies of a file is not modelled. `UnifiedPlanner`
  takes the root meson lists as its `MesonSource` parameter instead.
- `Py.Value` holds a string, an int or None only. A YAML bool, float, list or nested
  mapping in a document's top level is not modelled. So the model does not capture that
  `isinstance(True, int)` holds at `scripts/yml_to_xml/perams_xml.py:59`, that a float
  `cfg_d` makes `range` raise TypeError, or how an f-string shows a float. The one nested
  mapping the generators read, the `paths` block of `create-jureca.py`, is modelled
  separately (`JurecaPlanner.Doc`) and reaches the templates as a `Plan.Entry.Mapping`.
- ReadLocations: `str(Path(p).expanduser())` is the `JurecaPlanner.PathStr` parameter,
  because the home directory belongs to the environment. Its normal form is not spelled
  out, so no lemma states what it does to a given text.
- JurecaPlanner.RenderDataRules: the `/` of `pathlib` is modelled by `Py.PathJoin` on the
  normalised directory. The two differ only for a directory that normalises to `.`, where
  `Path('.') / name` is `name` rather than `./name`; and a config name containing `/` is not
  normalised again in `gauge_file`.
- `eigs_xml.py`, `inspect_dpi.py`, `contractions-launch/generate_batch.py` and
  `scripts/clean_ini_files.py` are not part of this model. They are field lists, plotting,
  a Slurm template and file removal.
- The `main` functions' loops over YAML files are not modelled. Each `process_yaml_file` is
  modelled on its own, and the ValueError for a missing `--in_file`/`--ini_dir` belongs to
  the argument handling left out above.

## Findings

| source | as written | input that shows it | evidently intended | confidence | as-written member | corrected member |
|---|---|---|---|---|---|---|
| scripts/create_tasks_ens.py:87 | `info['mc']` is read for every decoded tag, and the `_ms` dicts have no `mc` key | any `_ms` short tag, e.g. `a065m420`: KeyError('mc') before any file is planned | `'mc' in info`, as in the commented-out derivation of `create_tasks_ens.py:79`, so that `_ms` tags take the else branch | high, not executed | ScriptsEnsemble.ParseEnsembleAsWrittenMs | ScriptsEnsemble.ParseEnsembleTable |
| yml_to_xml/disco_xml.py:48-52 | the later class attribute `num_color_parts: int = 14` wins, and pydantic never calls `__post_init__` | max_colors 3325, at_once 256: the model holds 14 | the ceiling division of line 52, giving 13 | medium, not executed | DiscoXml.ColorPartsIgnored | DiscoXml.NewDiscoIntended |
| create_tasks_ens.py:231 | the flavour dict is built in full before `.get(flavor)`, so `dataMap['prop_mass_light_label']` is read for every flavour | task `peram_mg_strange` with no `prop_mass_light_label` in the YAML: KeyError | only the light flavour needs the light label; strange and charm read their own label with `.get` | medium, not executed | UnifiedTasks.StrangeNeedsLightLabel | UnifiedTasks.IntendedLabels |
| scripts/create_tasks.py:97 | `print(ini_path)` reads a name that is never defined | any run with cfg_i < cfg_f: NameError before the first file | `ini_path` is the ensemble's input directory, given to the run | high, not executed | ScriptsTasksRun.ProcessAsWrittenFails | ScriptsTasksRun.ProcessWritesLocated |
