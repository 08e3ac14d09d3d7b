# Verified model of the neuroimaging batch scripts

This project models, in Dafny, the rule sets inside a collection of Python 2
batch scripts. The scripts prepare and analyse task fMRI data with AFNI,
dcm2niix and Connectome Workbench. Each rule set works on file names, text
lines and records:

- **AFNI timing files** (`timing_files.dfy`): `create_AFNI_timing_files`.
  It orders a participant's BIDS events files by task. It loops over the
  750 analysis-level combinations and appends one line per run to every
  timing file. The folder of timing files is a class whose state is a map
  from file name to lines.
- **BIDS events** (`bids_events.dfy`): `code_data`. It selects BOLD runs
  and their PsychoPy files and codes each trial as a row of a BIDS events
  file (section 8.5, "Task Events", of the Brain Imaging Data Structure
  specification). It then merges the subsequent-memory fields of the
  retrieval rows into the encoding rows.
- **NIfTI reorganisation** (`nifti_files.dfy`): `reorganize_NIfTI`. It
  sorts the converted files into `anat`, `func` and `fmap`, keeps the latest
  T1/T2 scan and picks BOLD and SBRef runs. It cleans task labels, pairs
  rest runs, names fieldmap directions and writes `TaskName` and
  `IntendedFor` into the JSON side-cars. The session folders are a class
  whose state is the listing of each folder.
- **ROI averaging tool** (`roi_tool.dfy`): the presets file, the
  display and AFNI forms of a coordinate, `long_substr`/`is_substr`, the
  condition clean-up, the uniqueness filter, the `master_list` accumulation
  and the output name.
- **Elapsed time** (`elapsed.dfy`): `time_duration`. The QC script and the
  ROI tool (lines 28-65 of `ROI_AFNI_tool/ROI_AFNI_tool.py`) both define it
  with the same text.
- **Cluster and surface scripts** (`path_check.dfy`, `command_line.dfy`,
  `cluster_args.dfy`, `vol_to_surface.dfy`): the special-character check,
  argument parsing, validation and name normalisation. This part also covers
  the scan of the AFNI header for the 3dClustSim table with the cluster-size
  lookup, and the Workbench volume-to-surface mappings.
- **QC** (`qc_afni.dfy`): GLM folder selection, including the removal of
  folders while the list is being iterated. It also covers the folders
  collected over subjects, the run labels, the template search, the snapshot
  decision and the radial-correlation block.
- **LME magnitudes** (`lme_roi.dfy`): the folder entries, the ROI names,
  the subject folders, the trial count and the rows of the magnitude table.

Shared modules carry the Python primitives the scripts lean on:

- `Wrappers`: Option and Result;
- `PyStr`: `in`, `startswith`, `split`, `replace`, `lower`, `isalnum`,
  slicing with negative bounds, `str(int)`, `int()` and `splitlines`;
- `Sorting`: `sorted`, as the unique sorted permutation;
- `Glob`: `fnmatch`/`glob` with `*`.

Where a script changes state step by step, the model is a method with
loop invariants. The method is proved equal to a specification function,
and the properties are proved as lemmas about that function.

Defects of the scripts are modelled as written and pinned down by lemmas:

- the misspelled `directoy` in the LME script (`LmeRoi.SelectFolders`);
- the list mutated during iteration in the QC script
  (`QcAfni.PruneSkipsNext`);
- the `conf_level == 'all'` test that is never true
  (`TimingFiles.NameAlwaysHasConf`);
- the single-run group renamed twice (`NiftiFiles.SingleRunRenamedTwice`);
- the stray-character test that never fires
  (`NiftiFiles.StrayTestNeverFires`);
- `int(command[8:])` keeping the `=` (`VolToSurface.SubbrickWithEquals`);
- the flat `master_list`, where the key of condition `x_count` is the
  `_count` companion of condition `x` (`RoiTool.ClashingConditions`);
- `keepafni` testing `keepnifti_string`, among others.

External effects become parameters. A predicate `onDisk` on paths stands
for `os.path.exists` and `glob`. Functions `read`/`unzip` stand for file
contents. Orders (`os.listdir`, `glob`, dictionary iteration) are given sequences (see Left out for where the model fixes one),
and `round4`/`formatOnset`/`pFromZ` stand for the floating-point
conversions.

## Model

| member | source | states |
|---|---|---|
| TimingFiles.OrderEventsFiles | Acronym_Interface_Package/Data_Prep_Bundle/Create_AFNI_Timing_Files.py:93-98 | the nested task/file loop builds exactly `OrderedBy(TaskOrder, files)`: for each task of `task_order`, the files containing it, in listing order |
| TimingFiles.MatchingCount | Acronym_Interface_Package/Data_Prep_Bundle/Create_AFNI_Timing_Files.py:95-97 | for one task, a file is kept as often as it is listed if its path contains the task, else never |
| TimingFiles.OrderedCount | Acronym_Interface_Package/Data_Prep_Bundle/Create_AFNI_Timing_Files.py:93-98 | a file appears in the ordered list once per listing times the number of task names its path contains (a path naming two tasks is processed twice) |
| TimingFiles.OrderedMembers | Acronym_Interface_Package/Data_Prep_Bundle/Create_AFNI_Timing_Files.py:93-98 | a file is in the ordered list iff it was listed and names at least one task |
| TimingFiles.OrderedGroups | Acronym_Interface_Package/Data_Prep_Bundle/Create_AFNI_Timing_Files.py:93-99 | the files of the first k tasks form a prefix of the ordered list, so runs follow `task_order` |
| TimingFiles.Rank | Acronym_Interface_Package/Data_Prep_Bundle/Create_AFNI_Timing_Files.py:120-132 | the position of a level combination in the five nested loops is below 750 |
| TimingFiles.UnrankRank | Acronym_Interface_Package/Data_Prep_Bundle/Create_AFNI_Timing_Files.py:120-132 | each level combination is found again at its own loop position |
| TimingFiles.RankUnrank | Acronym_Interface_Package/Data_Prep_Bundle/Create_AFNI_Timing_Files.py:120-132 | each loop position holds a combination whose position it is, so positions and combinations correspond one to one |
| TimingFiles.LevelsAtIndex | Acronym_Interface_Package/Data_Prep_Bundle/Create_AFNI_Timing_Files.py:120-124 | every level of each of the five level lists sits at its own index |
| TimingFiles.NameJoin | Acronym_Interface_Package/Data_Prep_Bundle/Create_AFNI_Timing_Files.py:136 | the timing file name is `sub-<prefix><id>_` followed by the type, duration, event, `<conf>conf` and `<rt>.txt` fields joined by `_` |
| TimingFiles.NameParts | Acronym_Interface_Package/Data_Prep_Bundle/Create_AFNI_Timing_Files.py:136 | splitting the joined fields at `_` gives the fields back |
| TimingFiles.NamesDistinct | Acronym_Interface_Package/Data_Prep_Bundle/Create_AFNI_Timing_Files.py:126-136 | two combinations with the same file name are the same combination, so no file is shared by two analyses |
| TimingFiles.FieldsDistinct | Acronym_Interface_Package/Data_Prep_Bundle/Create_AFNI_Timing_Files.py:136 | equal name fields mean equal combinations |
| TimingFiles.TextsDistinct | Acronym_Interface_Package/Data_Prep_Bundle/Create_AFNI_Timing_Files.py:120-124 | combinations whose five level texts agree are equal |
| TimingFiles.RtTextDistinct | Acronym_Interface_Package/Data_Prep_Bundle/Create_AFNI_Timing_Files.py:124 | the RT level texts are distinct |
| TimingFiles.TypeTextDistinct | Acronym_Interface_Package/Data_Prep_Bundle/Create_AFNI_Timing_Files.py:120 | the run type texts are distinct |
| TimingFiles.DurationTextDistinct | Acronym_Interface_Package/Data_Prep_Bundle/Create_AFNI_Timing_Files.py:121 | the duration level texts are distinct |
| TimingFiles.EventTextDistinct | Acronym_Interface_Package/Data_Prep_Bundle/Create_AFNI_Timing_Files.py:122 | the event level texts are distinct |
| TimingFiles.ConfTextDistinct | Acronym_Interface_Package/Data_Prep_Bundle/Create_AFNI_Timing_Files.py:123 | the confidence level texts are distinct |
| TimingFiles.NameAlwaysHasConf | Acronym_Interface_Package/Data_Prep_Bundle/Create_AFNI_Timing_Files.py:133-136 | every file name carries `_<conf>conf_`, `allconf` included, because the test `conf_level == 'all'` compares a list with a string |
| TimingFiles.CollectEventsFiles | Acronym_Interface_Package/Data_Prep_Bundle/Create_AFNI_Timing_Files.py:78-85 | the session loop (or the single folder) collects `EventsFiles(...)`: the `*events.tsv` listings of sessions 1..n in session order |
| TimingFiles.SessionFilesFrom | Acronym_Interface_Package/Data_Prep_Bundle/Create_AFNI_Timing_Files.py:79-82 | a file is collected iff the `func` folder of some session 1..n lists it |
| TimingFiles.ReadTaskName | Acronym_Interface_Package/Data_Prep_Bundle/Create_AFNI_Timing_Files.py:102-105 | the split loop leaves `task_name` as `[5:]` of the last piece containing `task-`, or unchanged when no piece does |
| TimingFiles.Tasks | Acronym_Interface_Package/Data_Prep_Bundle/Create_AFNI_Timing_Files.py:101-105 | when defined, there is one task name per ordered file |
| TimingFiles.TasksFail | Acronym_Interface_Package/Data_Prep_Bundle/Create_AFNI_Timing_Files.py:101-105 | the task names are undefined (the script stops with `UnboundLocalError`) iff the first file has no `task-` piece (also line 141 of the same file) |
| TimingFiles.TaskOfBidsName | Acronym_Interface_Package/Data_Prep_Bundle/Create_AFNI_Timing_Files.py:102-105 | a BIDS name `<dir>_task-<task>_<tail>` in a folder without `_` yields `<task>` |
| TimingFiles.NothingPicked | Acronym_Interface_Package/Data_Prep_Bundle/Create_AFNI_Timing_Files.py:161-219 | with no selected trial, the trial loop writes nothing |
| TimingFiles.EventsTextEndsWithSpace | Acronym_Interface_Package/Data_Prep_Bundle/Create_AFNI_Timing_Files.py:175-219 | with a selected trial, the entries end with a space |
| TimingFiles.RunLineStar | Acronym_Interface_Package/Data_Prep_Bundle/Create_AFNI_Timing_Files.py:141-160 | a run's line is `*` iff its task does not fit the run type or the duration level |
| TimingFiles.KeptMembers | Acronym_Interface_Package/Data_Prep_Bundle/Create_AFNI_Timing_Files.py:172-173 | the trials kept are those not omitted for participant 014 |
| TimingFiles.OmittedIgnored | Acronym_Interface_Package/Data_Prep_Bundle/Create_AFNI_Timing_Files.py:172-173 | dropping the omitted item beforehand changes neither the entries nor the count of a line |
| TimingFiles.KeptAll | Acronym_Interface_Package/Data_Prep_Bundle/Create_AFNI_Timing_Files.py:172 | for every participant but 014 all trials count |
| TimingFiles.AppendEvent | Acronym_Interface_Package/Data_Prep_Bundle/Create_AFNI_Timing_Files.py:176-184 | one trial adds its rounded onset, then `*<rt>` (or `*1.1` without a response) for the RT covariate, then a space |
| TimingFiles.RunText | Acronym_Interface_Package/Data_Prep_Bundle/Create_AFNI_Timing_Files.py:141-223 | the checks, the trial loop with `event_counter` and the `-1` give exactly `RunLine(...)` |
| TimingFiles.ComboOrder | Acronym_Interface_Package/Data_Prep_Bundle/Create_AFNI_Timing_Files.py:126-132 | the nested loops visit 750 combinations |
| TimingFiles.OnsetsFolder.Clear | Acronym_Interface_Package/Data_Prep_Bundle/Create_AFNI_Timing_Files.py:89-91 | the removal loop leaves the onsets folder empty |
| TimingFiles.OnsetsFolder.Append | Acronym_Interface_Package/Data_Prep_Bundle/Create_AFNI_Timing_Files.py:137-140 | opening with `'a'` or `'w'` and writing adds the text to the file, creating it when absent, and changes no other file |
| TimingFiles.OnsetsFolder.WriteCombinations | Acronym_Interface_Package/Data_Prep_Bundle/Create_AFNI_Timing_Files.py:126-225 | the level loops for one run leave the folder as `RunsOver(old folder, ...)` |
| TimingFiles.OnsetsFolder.WriteCombination | Acronym_Interface_Package/Data_Prep_Bundle/Create_AFNI_Timing_Files.py:130-225 | one combination adds its run line and a line break to its own file, unless it is CR or FA at encoding |
| TimingFiles.OnsetsFolder.CreateTimingFiles | Acronym_Interface_Package/Data_Prep_Bundle/Create_AFNI_Timing_Files.py:77-225 | the whole function: on success the folder equals the outcome of the ordered files; on the task-name error it holds one empty file, `sub-<prefix><id>_all_allruns_allevents_allconf_rt.txt`, the one opened for writing before `task_name` is read |
| TimingFiles.OnsetsFolder.ProcessEventsFiles | Acronym_Interface_Package/Data_Prep_Bundle/Create_AFNI_Timing_Files.py:101-225 | the loop over ordered files gives `Outcome(...)`: its map, or its error with the folder holding only the file the first combination opened |
| TimingFiles.OnsetsFolder.ProcessFile | Acronym_Interface_Package/Data_Prep_Bundle/Create_AFNI_Timing_Files.py:101-225 | one file updates `task_name` and, when there is one, writes the run's line to every file; when there is none, only the first combination's file is opened (created empty if absent) before the script stops |
| TimingFiles.OnsetsFolder.OpenFirst | Acronym_Interface_Package/Data_Prep_Bundle/Create_AFNI_Timing_Files.py:126-141 | the combination loop stopping at the first unbound `task_name` read: the file of the first combination not skipped is opened (created empty if absent), and every other file is unchanged |
| TimingFiles.FirstOpened | Acronym_Interface_Package/Data_Prep_Bundle/Create_AFNI_Timing_Files.py:126-140 | the first file opened belongs to a combination of the loop that is not skipped |
| TimingFiles.FirstOpenedInLoopOrder | Acronym_Interface_Package/Data_Prep_Bundle/Create_AFNI_Timing_Files.py:126-140 | the first combination the five loops open is `rt`, `all`, `allruns`, `allevents`, `all` |
| TimingFiles.FirstFileName | Acronym_Interface_Package/Data_Prep_Bundle/Create_AFNI_Timing_Files.py:136 | that combination's file is `sub-<prefix><id>_all_allruns_allevents_allconf_rt.txt` |
| TimingFiles.FailedRunLeavesOneFile | Acronym_Interface_Package/Data_Prep_Bundle/Create_AFNI_Timing_Files.py:137-141 | from the cleared folder, the failed run leaves exactly that file, empty |
| TimingFiles.ComboOrderExact | Acronym_Interface_Package/Data_Prep_Bundle/Create_AFNI_Timing_Files.py:126-132 | the loop order visits every combination, each exactly once |
| TimingFiles.RunsOverText | Acronym_Interface_Package/Data_Prep_Bundle/Create_AFNI_Timing_Files.py:126-225 | in one run, a combination's file gets its line exactly once if the combination is visited |
| TimingFiles.RunsOverKeys | Acronym_Interface_Package/Data_Prep_Bundle/Create_AFNI_Timing_Files.py:126-140 | a run adds exactly the names of the visited combinations to the folder |
| TimingFiles.AllNamesExactly | Acronym_Interface_Package/Data_Prep_Bundle/Create_AFNI_Timing_Files.py:130-131 | a combination has a file iff it is not CR or FA at encoding |
| TimingFiles.FileLines | Acronym_Interface_Package/Data_Prep_Bundle/Create_AFNI_Timing_Files.py:101-224 | a combination's file receives one line per ordered events file |
| TimingFiles.WrittenText | Acronym_Interface_Package/Data_Prep_Bundle/Create_AFNI_Timing_Files.py:101-225 | a timing file's text is its run lines, each terminated by a line break, in run order |
| TimingFiles.WrittenKeys | Acronym_Interface_Package/Data_Prep_Bundle/Create_AFNI_Timing_Files.py:101-140 | after at least one run the folder holds exactly the generated names, and none before |
| TimingFiles.EventsTextOneLine | Acronym_Interface_Package/Data_Prep_Bundle/Create_AFNI_Timing_Files.py:175-219 | the entries of a run hold no line break when the rounded numbers hold none |
| TimingFiles.FileLinesOneLine | Acronym_Interface_Package/Data_Prep_Bundle/Create_AFNI_Timing_Files.py:141-224 | no run line holds a line break |
| TimingFiles.TimingFilesContent | Acronym_Interface_Package/Data_Prep_Bundle/Create_AFNI_Timing_Files.py:77-225 | for any order that visits each combination once: a file exists iff there was a run and the combination is not skipped, and reading it line by line gives one line per run |
| TimingFiles.WrittenFiles | Acronym_Interface_Package/Data_Prep_Bundle/Create_AFNI_Timing_Files.py:126-140 | a combination's file exists iff there was a run and the combination is not skipped |
| TimingFiles.WrittenLines | Acronym_Interface_Package/Data_Prep_Bundle/Create_AFNI_Timing_Files.py:101-225 | read back line by line, a combination's file gives its run lines |
| BidsEvents.FuncFilesMembers | Acronym_Interface_Package/Data_Prep_Bundle/Generate_BIDS_Event_Files.py:54-59 | the five filters keep exactly the listed names that are BOLD runs (no `.DS_Store`, `task-rest`, `sbref`, `events` or `.json`) |
| BidsEvents.TaskTokensMembers | Acronym_Interface_Package/Data_Prep_Bundle/Generate_BIDS_Event_Files.py:63-66 | the task tokens of a name are the `[5:]` of exactly its `_`-pieces containing `task-` |
| BidsEvents.FuncTasksMembers | Acronym_Interface_Package/Data_Prep_Bundle/Generate_BIDS_Event_Files.py:61-66 | a task name is listed iff it is a task token of some BOLD run |
| BidsEvents.CollectFuncTasks | Acronym_Interface_Package/Data_Prep_Bundle/Generate_BIDS_Event_Files.py:61-66 | the nested loops build exactly `FuncTasks(func_files)` |
| BidsEvents.EnterEffect | Acronym_Interface_Package/Data_Prep_Bundle/Generate_BIDS_Event_Files.py:75-80 | one raw file is entered for exactly the tasks it is the participant's `.csv` of, and other keys keep their file |
| BidsEvents.TaskFileMapLast | Acronym_Interface_Package/Data_Prep_Bundle/Generate_BIDS_Event_Files.py:72-80 | a task gets a file iff it has a `.csv` of the participant, and then the last one listed |
| BidsEvents.BuildTaskFiles | Acronym_Interface_Package/Data_Prep_Bundle/Generate_BIDS_Event_Files.py:73-84 | the loops build `TaskFileMap(...)`; the duplicate check never fires because the count is reset for every pair |
| BidsEvents.FirstPulseFirst | Acronym_Interface_Package/Data_Prep_Bundle/Generate_BIDS_Event_Files.py:126-129 | the start time is that of the first `Keypress: 5` line, with none before it, and exists iff such a line does |
| BidsEvents.FindStartTime | Acronym_Interface_Package/Data_Prep_Bundle/Generate_BIDS_Event_Files.py:126-129 | the loop with `break` sets the first pulse's time, or leaves the earlier run's start time |
| BidsEvents.Onsets | Acronym_Interface_Package/Data_Prep_Bundle/Generate_BIDS_Event_Files.py:132-138 | onsets are the stimulus times minus the start time, one per stimulus line; they fail (unset `starttime`) iff there is a stimulus and no start time |
| BidsEvents.ComputeOnsets | Acronym_Interface_Package/Data_Prep_Bundle/Generate_BIDS_Event_Files.py:131-138 | the `new_dict_list` comprehension (`Stimuli`) and the append loop compute exactly `Onsets(...)`: each stimulus time minus the start time, or the unset-`starttime` error when there is a stimulus but no sync pulse |
| BidsEvents.KeyField | Acronym_Interface_Package/Data_Prep_Bundle/Generate_BIDS_Event_Files.py:202-205 | the response key is `n/a` iff the key column is `None` (or already `n/a`) (also lines 300-303 of the same file) |
| BidsEvents.EncodingScoring | Acronym_Interface_Package/Data_Prep_Bundle/Generate_BIDS_Event_Files.py:190-217 | the correct key is `6` iff the category is on the participant's `6` side; with an answer key and a known category, the trial is correct iff the answer is the category |
| BidsEvents.EncodingNoAnswer | Acronym_Interface_Package/Data_Prep_Bundle/Generate_BIDS_Event_Files.py:202-228 | an encoding trial without an answer has key and answer `n/a`, is scored incorrect, and its subsequent columns are `?` |
| BidsEvents.Counterbalancing | Acronym_Interface_Package/Data_Prep_Bundle/Generate_BIDS_Event_Files.py:237-246 | the old side repeats every four participants and the finger layout every two, going through all four combinations |
| BidsEvents.LostDespiteComma | Acronym_Interface_Package/Data_Prep_Bundle/Generate_BIDS_Event_Files.py:361-366 | the missing comma after `indoor_electronicstore.jpg` still recodes both joined names, because the test is a substring test |
| BidsEvents.RetrievalScoring | Acronym_Interface_Package/Data_Prep_Bundle/Generate_BIDS_Event_Files.py:305-353 | with an answer key, the trial is correct iff the judgment is the item's; type, confidence and the joined columns follow the score, the item and the key |
| BidsEvents.RetrievalNoAnswer | Acronym_Interface_Package/Data_Prep_Bundle/Generate_BIDS_Event_Files.py:300-353 | without an answer every answer column is `n/a` and the score is `incorrect` |
| BidsEvents.KeyConfMirror | Acronym_Interface_Package/Data_Prep_Bundle/Generate_BIDS_Event_Files.py:330-340 | mirror keys give the same confidence, and the two finger layouts swap high and low |
| BidsEvents.RetrievalRecoding | Acronym_Interface_Package/Data_Prep_Bundle/Generate_BIDS_Event_Files.py:360-408 | only participant 007's lost items are recoded, as new items whose type is `cr`, `fa` or `n/a` |
| BidsEvents.LostSubstrings | Acronym_Interface_Package/Data_Prep_Bundle/Generate_BIDS_Event_Files.py:361-377 | the lost-item test also accepts a name inside a listed entry, the empty name included |
| BidsEvents.PhaseOf | Acronym_Interface_Package/Data_Prep_Bundle/Generate_BIDS_Event_Files.py:153 | a run is coded iff its task contains `encoding` or `retrieval`, as encoding iff it contains `encoding` (also line 235 of the same file) |
| BidsEvents.KeptTrialsAppend | Acronym_Interface_Package/Data_Prep_Bundle/Generate_BIDS_Event_Files.py:162-167 | dropping null trials distributes over concatenation (also lines 249-254 of the same file) |
| BidsEvents.KeptTrialsMembers | Acronym_Interface_Package/Data_Prep_Bundle/Generate_BIDS_Event_Files.py:165-167 | exactly the trials with a non-empty answer column are kept, in order (also lines 252-254 of the same file) |
| BidsEvents.CodedRows | Acronym_Interface_Package/Data_Prep_Bundle/Generate_BIDS_Event_Files.py:161-231 | one row per kept trial (also lines 248-414 of the same file) |
| BidsEvents.RunRows | Acronym_Interface_Package/Data_Prep_Bundle/Generate_BIDS_Event_Files.py:153-414 | a run of another task gives no rows; otherwise the run fails iff there are more kept trials than onsets |
| BidsEvents.RunRowsShape | Acronym_Interface_Package/Data_Prep_Bundle/Generate_BIDS_Event_Files.py:161-414 | the k-th row carries the k-th onset, the lower-cased file name and the trial type, with `?` (encoding) or `n/a` (retrieval) subsequent columns |
| BidsEvents.CodeTrials | Acronym_Interface_Package/Data_Prep_Bundle/Generate_BIDS_Event_Files.py:161-231 | the loop with `trial_count` gives exactly `RunRows(...)` (also lines 248-414 of the same file) |
| BidsEvents.FuncFileForLast | Acronym_Interface_Package/Data_Prep_Bundle/Generate_BIDS_Event_Files.py:93-96 | `func_file_name` is the last BOLD run containing the task, and is `None` iff none does |
| BidsEvents.EventsPathOfBold | Acronym_Interface_Package/Data_Prep_Bundle/Generate_BIDS_Event_Files.py:441 | the events file sits beside its BOLD image, with `bold.nii.gz` replaced by `events.tsv` |
| BidsEvents.OnsetTexts | Acronym_Interface_Package/Data_Prep_Bundle/Generate_BIDS_Event_Files.py:171 | one text per onset (also line 257 of the same file) |
| BidsEvents.RunStepPath | Acronym_Interface_Package/Data_Prep_Bundle/Generate_BIDS_Event_Files.py:441 | a run that succeeds writes to its task's path |
| BidsEvents.RunStepRows | Acronym_Interface_Package/Data_Prep_Bundle/Generate_BIDS_Event_Files.py:102-446 | a run's rows are those of its trials, with onsets from the start time it leaves behind |
| BidsEvents.RunsFrame | Acronym_Interface_Package/Data_Prep_Bundle/Generate_BIDS_Event_Files.py:89-447 | files no run writes keep their contents |
| BidsEvents.RunsKeep | Acronym_Interface_Package/Data_Prep_Bundle/Generate_BIDS_Event_Files.py:89-447 | the runs only ever add files |
| BidsEvents.RunsWritten | Acronym_Interface_Package/Data_Prep_Bundle/Generate_BIDS_Event_Files.py:89-447 | without an error, every run's events file exists afterwards |
| BidsEvents.EventsFolder.WriteEventsFile | Acronym_Interface_Package/Data_Prep_Bundle/Generate_BIDS_Event_Files.py:441-447 | writing replaces that one file's rows and changes no other file |
| BidsEvents.EventsFolder.CodeRuns | Acronym_Interface_Package/Data_Prep_Bundle/Generate_BIDS_Event_Files.py:89-447 | the loop over `task_file_dict` leaves the folder and error given by `Runs(...)` |
| BidsEvents.EventsFolder.SubsequentMemory | Acronym_Interface_Package/Data_Prep_Bundle/Generate_BIDS_Event_Files.py:458-526 | the loop over the events files leaves the folder and error given by `Subsequent(...)` |
| BidsEvents.EventsFolder.CollectSessionEvents | Acronym_Interface_Package/Data_Prep_Bundle/Generate_BIDS_Event_Files.py:453-456 | the session loop gathers the events files of sessions 1..n, in session order |
| BidsEvents.EventsFolder.CodeData | Acronym_Interface_Package/Data_Prep_Bundle/Generate_BIDS_Event_Files.py:39-526 | `code_data` leaves the folder and error given by `CodeDataOutcome(...)` |
| BidsEvents.CodeRun | Acronym_Interface_Package/Data_Prep_Bundle/Generate_BIDS_Event_Files.py:91-438 | one run gives exactly `RunStep(...)`: start time, onsets, rows and path, or the error |
| BidsEvents.AbsorbLast | Acronym_Interface_Package/Data_Prep_Bundle/Generate_BIDS_Event_Files.py:481-486 | the last retrieval row of the item wins; an item never retrieved keeps its row |
| BidsEvents.MergedRows | Acronym_Interface_Package/Data_Prep_Bundle/Generate_BIDS_Event_Files.py:480-491 | subsequent memory keeps the number of encoding rows |
| BidsEvents.MergedRowsEffect | Acronym_Interface_Package/Data_Prep_Bundle/Generate_BIDS_Event_Files.py:480-491 | only the four subsequent columns change: to the last retrieval answer, unchanged when never retrieved, `n/a` under the cebu override |
| BidsEvents.MergeRows | Acronym_Interface_Package/Data_Prep_Bundle/Generate_BIDS_Event_Files.py:480-491 | the in-place merge leaves the array equal to `MergedRows(old rows, ...)` |
| BidsEvents.AbsorbRetrieval | Acronym_Interface_Package/Data_Prep_Bundle/Generate_BIDS_Event_Files.py:481-486 | the inner loop gives exactly `Absorb(...)` |
| PyStr.Containing | Acronym_Interface_Package/Data_Prep_Bundle/Generate_BIDS_Event_Files.py:466 | the comprehension keeps exactly the files containing the pattern |
| BidsEvents.SubsequentFrame | Acronym_Interface_Package/Data_Prep_Bundle/Generate_BIDS_Event_Files.py:458-526 | subsequent memory rewrites only listed non-retrieval files, and only their subsequent columns |
| BidsEvents.GlobIn | Acronym_Interface_Package/Data_Prep_Bundle/Generate_BIDS_Event_Files.py:456 | `glob.glob`: the events files that are listed in `diskOrder`, present, and matched by the pattern, in `diskOrder`'s order |
| BidsEvents.CodeDataWritten | Acronym_Interface_Package/Data_Prep_Bundle/Generate_BIDS_Event_Files.py:39-526 | on success every run of the session has its events file, and other files differ at most in their subsequent columns |
| NiftiFiles.Without | Data_Prep_Bundle/NIfTI_Files.py:84 | after `os.remove` a folder holds exactly its other entries |
| NiftiFiles.Put | Data_Prep_Bundle/NIfTI_Files.py:88 | after `os.rename` into a name the folder holds its entries plus that name, an existing entry of that name being replaced |
| NiftiFiles.RenameTwice | Data_Prep_Bundle/NIfTI_Files.py:163-170 | renaming the same entry a second time fails with the missing-file error |
| NiftiFiles.ApplyRemoves | Data_Prep_Bundle/NIfTI_Files.py:82-84 | a run of `os.remove` calls that succeeds leaves exactly the entries none of them names |
| NiftiFiles.MoveAllPlaces | Data_Prep_Bundle/NIfTI_Files.py:54-68 | each converted file ends up in the folder chosen by the first rule it matches (`T1`/`T2` to anat, spin-echo or fieldmap to fmap, rest or task code to func), and stays in the nifti folder iff no rule matches |
| NiftiFiles.MoveAllKeeps | Data_Prep_Bundle/NIfTI_Files.py:54-68 | moving the other files never takes a file out of anat, func or fmap, and never puts one back into the nifti folder |
| NiftiFiles.SessionFolders.DistributeConverted | Data_Prep_Bundle/NIfTI_Files.py:54-68 | the move loop leaves the folders as `DistributeStage` states, the listing taken before the first move |
| NiftiFiles.MaxStem | Data_Prep_Bundle/NIfTI_Files.py:81 | `max(d, key=...)` picks a stem of the list |
| NiftiFiles.MinStem | Data_Prep_Bundle/NIfTI_Files.py:146 | `min(d, key=...)` picks a stem of the list |
| NiftiFiles.MaxStemIsMax | Data_Prep_Bundle/NIfTI_Files.py:80-81 | no stem has a larger series number than the one `max` picks |
| NiftiFiles.MaxStemIsFirst | Data_Prep_Bundle/NIfTI_Files.py:80-81 | of the stems sharing the largest number, the model's `max` picks the first in the order of the list it is given (the script's dictionary order is not modelled, see Left out) |
| NiftiFiles.MinStemIsMin | Data_Prep_Bundle/NIfTI_Files.py:144-146 | no stem has a smaller series number than the one `min` picks |
| NiftiFiles.BoldAfterSbref | Data_Prep_Bundle/NIfTI_Files.py:142-146 | when the latest run can be chosen the earliest can too, its number is not larger, and with one candidate the two are the same file |
| NiftiFiles.SelectRun | Data_Prep_Bundle/NIfTI_Files.py:78-81 | the dictionary loop then `max`/`min` gives the stem `Select` names, or the `int()` error for an unnumbered name, or the empty-sequence error |
| NiftiFiles.NiftiStems | Data_Prep_Bundle/NIfTI_Files.py:74-77 | the stems are exactly `file[:-7]` of the files that contain the tag and `.nii` |
| NiftiFiles.CollectStems | Data_Prep_Bundle/NIfTI_Files.py:74-77 | the append loop builds that list |
| NiftiFiles.StaleScans | Data_Prep_Bundle/NIfTI_Files.py:82-84 | only removals, one for each file of the kind that does not contain the name of the scan kept |
| NiftiFiles.ReduceScansKeepsLatest | Data_Prep_Bundle/NIfTI_Files.py:82-84 | after the deletions every listed file of the kind that is left carries the kept name, and files of other kinds are still there |
| NiftiFiles.LatestScanIndex | Data_Prep_Bundle/NIfTI_Files.py:74-81 | every NIfTI of the kind has a series number no larger than the kept one |
| NiftiFiles.SessionFolders.RemoveStale | Data_Prep_Bundle/NIfTI_Files.py:82-84 | the deletion loop fails exactly as the removals of `StaleScans` do, leaves what they leave, and touches only the anat folder |
| NiftiFiles.SessionFolders.RenameScans | Data_Prep_Bundle/NIfTI_Files.py:85-90 | the rename loop over the new listing gives the NIfTI and JSON of the kind the `_T1w`/`_T2w` names, or stops at the first failing rename |
| NiftiFiles.SessionFolders.RenameScan | Data_Prep_Bundle/NIfTI_Files.py:87-90 | one listed file is renamed to the `.nii.gz` target when its name has the kind and `.nii`, then to the `.json` target when it has the kind and `.json`; a rename of a file no longer there stops with the missing-file error and leaves the rest of the state alone |
| NiftiFiles.SessionFolders.ReduceAnat | Data_Prep_Bundle/NIfTI_Files.py:72-111 | one anatomical kind ends as `AnatStage` states: the error, or the anat folder with the latest scan kept and renamed (`ReduceScansResult`) |
| NiftiFiles.ReduceScansResult | Data_Prep_Bundle/NIfTI_Files.py:72-90 | on success `<target>.nii.gz` is present, `<target>.json` is present iff the kept scan had a JSON side-car, no other NIfTI or JSON of the kind is left, entries of other kinds stay, and nothing else is added (for an anat folder whose files of the kind are the listed ones and which holds neither BIDS name yet) |
| NiftiFiles.ReduceScansDeletes | Data_Prep_Bundle/NIfTI_Files.py:82-84 | the deletions leave, of the kind, exactly the listed files carrying the kept name, and every entry of another kind |
| NiftiFiles.RenamesLeave | Data_Prep_Bundle/NIfTI_Files.py:85-90 | the renames over the new listing leave the two BIDS names as they are due, no other NIfTI or JSON of the kind, and every entry of another kind |
| NiftiFiles.KeptImage | Data_Prep_Bundle/NIfTI_Files.py:74-81 | the kept stem comes from a listed NIfTI of the kind whose name contains it |
| NiftiFiles.ScanRenamesNames | Data_Prep_Bundle/NIfTI_Files.py:85-90 | each rename takes a listed file of the kind to one of the two BIDS names |
| NiftiFiles.ScanRenamesCover | Data_Prep_Bundle/NIfTI_Files.py:85-90 | every listed NIfTI and JSON of the kind is renamed |
| NiftiFiles.ScanRenamesGive | Data_Prep_Bundle/NIfTI_Files.py:85-90 | a BIDS name is given iff a listed file of the kind carries its extension |
| NiftiFiles.ApplyRenamesFrom | Data_Prep_Bundle/NIfTI_Files.py:85-90 | after a run of `os.rename` calls that succeeds, every entry is a target or an old entry no rename took away |
| NiftiFiles.ApplyRenamesTo | Data_Prep_Bundle/NIfTI_Files.py:85-90 | an entry no rename takes away is there afterwards iff it was there before or is some rename's target |
| NiftiFiles.AnyContains | Data_Prep_Bundle/NIfTI_Files.py:73 | `any(tag in x for x in files)` holds iff some listed name contains the tag |
| NiftiFiles.StrayTestNeverFires | Data_Prep_Bundle/NIfTI_Files.py:150-151 | comparing the first character with the bool that `any(...)` returns is never true, so the stray-character strip never happens |
| NiftiFiles.TaskLabelLetters | Data_Prep_Bundle/NIfTI_Files.py:148-159 | the task label is the letters and digits of the lower-cased group with the task code removed, or the `IndexError` when nothing is left |
| NiftiFiles.CleanLabel | Data_Prep_Bundle/NIfTI_Files.py:148-159 | the step-by-step clean-up gives `TaskLabel` |
| NiftiFiles.RunsOfKind | Data_Prep_Bundle/NIfTI_Files.py:124-128 | `rsfc_files` holds exactly the names with `rsfc` or `rest` (any case), `task_files` exactly the others |
| NiftiFiles.SplitRuns | Data_Prep_Bundle/NIfTI_Files.py:121-128 | the loop builds both lists |
| NiftiFiles.GroupNames | Data_Prep_Bundle/NIfTI_Files.py:130-136 | `file_names` holds each group of a task NIfTI exactly once |
| NiftiFiles.CollectGroups | Data_Prep_Bundle/NIfTI_Files.py:130-136 | the loop with its `not in` test builds that list |
| NiftiFiles.SingleRunRenamedTwice | Data_Prep_Bundle/NIfTI_Files.py:145-146 | with a single run in a group, BOLD and SBRef are the same stem, so its NIfTI is renamed twice and the script stops (also lines 160-170 of the same file) |
| NiftiFiles.RunRenamesNames | Data_Prep_Bundle/NIfTI_Files.py:160-170 | a group's renames take exactly the listed NIfTI and JSON files that carry the BOLD or the SBRef stem, and give only the group's four BIDS names |
| NiftiFiles.RunRenamesGive | Data_Prep_Bundle/NIfTI_Files.py:160-170 | each of the four BIDS names (`_bold`/`_sbref`, `.nii.gz`/`.json`) is given iff a listed file carries that stem and that extension |
| NiftiFiles.GroupStepResult | Data_Prep_Bundle/NIfTI_Files.py:129-170 | after one group succeeds, `<subject>_task-<label>_bold.nii.gz` and `_sbref.nii.gz` are present, each `.json` iff a listed JSON carries that stem, the files carrying either stem are gone, nothing else is added and every other entry stays (for folders without the group's BIDS names yet) |
| NiftiFiles.SessionFolders.RenameTaskFile | Data_Prep_Bundle/NIfTI_Files.py:161-170 | one file's renames change the func folder as `RunRenames` states, or stop at the first that fails |
| NiftiFiles.SessionFolders.RenameGroup | Data_Prep_Bundle/NIfTI_Files.py:160-170 | the loop over `task_files` does the group's renames in order |
| NiftiFiles.SessionFolders.RenameGroupRuns | Data_Prep_Bundle/NIfTI_Files.py:137-170 | one group: its candidates, BOLD/SBRef choice, label and renames, as `GroupStep` states |
| NiftiFiles.SessionFolders.RenameTaskRuns | Data_Prep_Bundle/NIfTI_Files.py:129-170 | all groups in `file_names` order, as `TaskStage` states |
| NiftiFiles.Dedup | Data_Prep_Bundle/NIfTI_Files.py:177-179 | the keys of `rest_dict`: each rest run once, and nothing else (the model keeps them in first-seen order; the script's dictionary order is not modelled, see Left out) |
| NiftiFiles.IndexRuns | Data_Prep_Bundle/NIfTI_Files.py:177-179 | the dictionary loop fails with the `int()` error iff some run has no series number, and otherwise maps each key to its number |
| NiftiFiles.UnindexedRun | Data_Prep_Bundle/NIfTI_Files.py:179 | one run without a series number is enough to stop the loop |
| NiftiFiles.IndexInValues | Data_Prep_Bundle/NIfTI_Files.py:182 | `v in rest_dict.values()` holds iff some run has number `v` |
| NiftiFiles.RestBoldPaired | Data_Prep_Bundle/NIfTI_Files.py:180-183 | a rest run is in `rest_bold_dict` with its number iff a run with the number one below exists |
| NiftiFiles.PairedRuns | Data_Prep_Bundle/NIfTI_Files.py:180-183 | the loop over the keys builds `rest_bold_dict` in key order |
| NiftiFiles.SortedRunsIndexed | Data_Prep_Bundle/NIfTI_Files.py:184-186 | after sorting by (number, name) each entry still carries its own run's number |
| NiftiFiles.SbrefOfUniqueNumber | Data_Prep_Bundle/NIfTI_Files.py:192-193 | when the series number occurs only at the end, the SBRef name is the BOLD name with that number decremented |
| NiftiFiles.SbrefRenumbersEverywhere | Data_Prep_Bundle/NIfTI_Files.py:193 | `replace` decrements every occurrence: `rest1_MB_1` becomes `rest0_MB_0` (also line 200 of the same file) |
| NiftiFiles.RestRenames | Data_Prep_Bundle/NIfTI_Files.py:190-195 | four renames per BOLD rest run: its NIfTI and JSON, then its SBRef's |
| NiftiFiles.RestOps | Data_Prep_Bundle/NIfTI_Files.py:187-203 | four renames per sorted BOLD run |
| NiftiFiles.RestOpsShape | Data_Prep_Bundle/NIfTI_Files.py:187-203 | the k-th block of four is the k-th run's renames with run number `run + k` |
| NiftiFiles.RestRunNames | Data_Prep_Bundle/NIfTI_Files.py:189-202 | the k-th run becomes `task-rest_run-0<k+1>` (plain `task-rest` when it is the only one), its SBRef beside it |
| NiftiFiles.EmptyRestRuns | Data_Prep_Bundle/NIfTI_Files.py:172 | without resting-state files the func folder is unchanged |
| NiftiFiles.SessionFolders.RenameFunc | Data_Prep_Bundle/NIfTI_Files.py:190 | one `os.rename` in the func folder, or the missing-file error |
| NiftiFiles.SessionFolders.RenameRestPair | Data_Prep_Bundle/NIfTI_Files.py:190-202 | one BOLD run and its SBRef renamed as `RestRenames` states |
| NiftiFiles.SessionFolders.RenameRestList | Data_Prep_Bundle/NIfTI_Files.py:187-203 | the numbered loop performs `RestOps` from run 1 |
| NiftiFiles.SessionFolders.RenameRestRuns | Data_Prep_Bundle/NIfTI_Files.py:172-203 | the resting-state step as `RestStage` states |
| NiftiFiles.CollectWith | Data_Prep_Bundle/NIfTI_Files.py:206-209 | the append loop builds that list |
| NiftiFiles.TaskNameStepsFail | Data_Prep_Bundle/NIfTI_Files.py:210-214 | the `TaskName` loop fails (unbound `task_name`) iff the first JSON has no `task-` piece |
| NiftiFiles.TaskNameStepsSet | Data_Prep_Bundle/NIfTI_Files.py:210-221 | each JSON naming a task gets that task, other JSON files keep theirs, and the folder keeps the same names |
| NiftiFiles.RenamedJsonTask | Data_Prep_Bundle/NIfTI_Files.py:163-165 | a JSON name the script wrote reads back its own task (also lines 211-214 of the same file) |
| NiftiFiles.SessionFolders.SetTaskNames | Data_Prep_Bundle/NIfTI_Files.py:205-221 | the loop does `TaskNameStage` |
| NiftiFiles.RunsOfFieldmaps | Data_Prep_Bundle/NIfTI_Files.py:224-228 | `fieldmap_files` holds exactly the names with `spinecho` or `fieldmap` (any case) |
| NiftiFiles.CollectFieldmaps | Data_Prep_Bundle/NIfTI_Files.py:224-228 | the loop builds that list |
| NiftiFiles.Direction | Data_Prep_Bundle/NIfTI_Files.py:230-246 | with exactly four fieldmap files the raw direction is used; otherwise `j` becomes `PA`, `j-` becomes `AP` and anything else stays |
| NiftiFiles.SinglePairRawDirection | Data_Prep_Bundle/NIfTI_Files.py:230-236 | with a single pair the AP fieldmap is named `dir-j-`, not `dir-AP` |
| NiftiFiles.FieldmapStepRenames | Data_Prep_Bundle/NIfTI_Files.py:231-236 | a fieldmap step that succeeds found its NIfTI's direction and did its two renames |
| NiftiFiles.FieldmapStepsRenames | Data_Prep_Bundle/NIfTI_Files.py:229-248 | a fieldmap loop that succeeds found every NIfTI's direction and did all the renames in order |
| NiftiFiles.FieldmapOpsTargets | Data_Prep_Bundle/NIfTI_Files.py:235-236 | the fieldmap renames give only names `<subject>_dir-..._epi.nii.gz` or `.json` |
| NiftiFiles.FieldmapOpsGive | Data_Prep_Bundle/NIfTI_Files.py:231-248 | every listed NIfTI whose direction is known gives `<subject>_dir-<direction>_epi.nii.gz` and `.json` |
| NiftiFiles.FieldmapOpsKeep | Data_Prep_Bundle/NIfTI_Files.py:231-248 | a name that is neither a listed NIfTI nor the JSON of one is never renamed |
| NiftiFiles.FieldmapsResult | Data_Prep_Bundle/NIfTI_Files.py:224-248 | after the fieldmap step succeeds, every fieldmap NIfTI had a direction and its two files are now `<subject>_dir-<direction>_epi.nii.gz` and `.json`, every other entry stays, and every new entry is such a name (for a folder without BIDS-named fieldmaps yet) |
| NiftiFiles.SessionFolders.RenameFmap | Data_Prep_Bundle/NIfTI_Files.py:235 | one `os.rename` in the fmap folder, or the missing-file error |
| NiftiFiles.SessionFolders.RenameFieldmap | Data_Prep_Bundle/NIfTI_Files.py:231-248 | one fieldmap file: its direction read from its JSON and both files renamed, or the read error |
| NiftiFiles.SessionFolders.RenameFieldmaps | Data_Prep_Bundle/NIfTI_Files.py:224-248 | the fieldmap loop does `FieldmapStage` |
| NiftiFiles.FuncPrefixOfSession | Data_Prep_Bundle/NIfTI_Files.py:254-257 | for a func folder `.../ses-0X/func` the prefix is `ses-0X/func/` |
| NiftiFiles.IntendedFor | Data_Prep_Bundle/NIfTI_Files.py:250-260 | the list holds exactly the prefixed names with `bold` and `.nii`, and it fails only when there is such a name and the prefix cannot be computed |
| NiftiFiles.BoldRuns | Data_Prep_Bundle/NIfTI_Files.py:250-260 | the loop builds that list |
| NiftiFiles.IntendedForWritten | Data_Prep_Bundle/NIfTI_Files.py:266-274 | every JSON in the fmap listing, and no other file, gets the BOLD list; the folder keeps its names |
| NiftiFiles.SessionFolders.WriteIntendedFor | Data_Prep_Bundle/NIfTI_Files.py:266-274 | the loop writes `IntendedForSteps` |
| NiftiFiles.SessionFolders.SetIntendedFor | Data_Prep_Bundle/NIfTI_Files.py:250-274 | the list is written only if some fmap entry has `epi` in its name, as `IntendedForStage` states |
| NiftiFiles.SessionFolders.Cleanup | Data_Prep_Bundle/NIfTI_Files.py:283-291 | the nifti folder is deleted, then each of anat, func and fmap that is empty |
| NiftiFiles.SessionFolders.Relocate | Data_Prep_Bundle/NIfTI_Files.py:53-274 | every stage in source order; the first error stops the script |
| NiftiFiles.SessionFolders.Reorganize | Data_Prep_Bundle/NIfTI_Files.py:44-291 | the whole reorganisation after the conversion, as `Reorganized` states |
| NiftiFiles.ReorganizedRemovesNifti | Data_Prep_Bundle/NIfTI_Files.py:283 | a run that completes leaves an empty nifti folder and records its deletion |
| RoiTool.ReadPresets | ROI_AFNI_tool/ROI_AFNI_tool.py:77-82 | reading the presets file gives `PresetMap` of its lines |
| RoiTool.PresetMapError | ROI_AFNI_tool/ROI_AFNI_tool.py:80-82 | the only way the presets loop fails is the `IndexError` of a line without `:` |
| RoiTool.PresetMapErrStays | ROI_AFNI_tool/ROI_AFNI_tool.py:80-82 | once a line has failed, the later lines cannot undo it |
| RoiTool.PresetInputs | ROI_AFNI_tool/ROI_AFNI_tool.py:84-87 | the four presets can be read iff all four keys are present |
| RoiTool.KeyLines | ROI_AFNI_tool/ROI_AFNI_tool.py:286-289 | the written lines are `key:value`, one per key, in order |
| RoiTool.KeyLinesPlain | ROI_AFNI_tool/ROI_AFNI_tool.py:286-292 | a written line is never empty and holds no line break |
| RoiTool.ReadKeyLines | ROI_AFNI_tool/ROI_AFNI_tool.py:77-82 | reading `key:value` lines stores each value, cut at its first `:`, under its key |
| RoiTool.StoredLookup | ROI_AFNI_tool/ROI_AFNI_tool.py:80-82 | each key holds the value of its last line |
| RoiTool.ReadWrittenPresets | ROI_AFNI_tool/ROI_AFNI_tool.py:77-82 | the written presets file reads back as the four stored values (also lines 286-292 of the same file) |
| RoiTool.InputsOfStored | ROI_AFNI_tool/ROI_AFNI_tool.py:84-87 | the four presets are read back from the four stored values |
| RoiTool.PresetsRoundTrip | ROI_AFNI_tool/ROI_AFNI_tool.py:77-87 | presets without `:` or line breaks are read back exactly as they were written (also lines 286-292 of the same file) |
| RoiTool.PresetsColonCut | ROI_AFNI_tool/ROI_AFNI_tool.py:80-82 | a path holding a `:` comes back cut at the `:` (also lines 286-292 of the same file) |
| RoiTool.JoinedChars | ROI_AFNI_tool/ROI_AFNI_tool.py:391-398 | which of space, comma and parenthesis a joined coordinate line holds is decided by the separator alone |
| RoiTool.DisplayOfCommas | ROI_AFNI_tool/ROI_AFNI_tool.py:391-398 | a line `a,b,c` is shown as `(a, b, c)` |
| RoiTool.DisplayOfSpaces | ROI_AFNI_tool/ROI_AFNI_tool.py:391-398 | a line `a b c` is shown as `(a, b, c)` |
| RoiTool.AfniCoordinates | ROI_AFNI_tool/ROI_AFNI_tool.py:1005-1014 | the coordinate file is written again iff its first line holds a comma |
| RoiTool.AfniOfCommas | ROI_AFNI_tool/ROI_AFNI_tool.py:1007-1011 | for AFNI, `a,b,c` and `a, b, c` both become `a b c` |
| RoiTool.IsSubstr | ROI_AFNI_tool/ROI_AFNI_tool.py:679-685 | `is_substr` is false for an empty pattern over an empty list, and otherwise says whether the pattern occurs in every string |
| RoiTool.LongSubstr | ROI_AFNI_tool/ROI_AFNI_tool.py:670-677 | `long_substr` returns the first longest slice of the first string, longer than two characters, found in every string; or `''` when there is none, when there are fewer than two strings, or when the first string is empty |
| RoiTool.LongSubstrUnique | ROI_AFNI_tool/ROI_AFNI_tool.py:670-677 | that description allows only one result |
| RoiTool.StripAll | ROI_AFNI_tool/ROI_AFNI_tool.py:690 | every condition name has the common substring removed, in place in the list |
| RoiTool.CleanConditions | ROI_AFNI_tool/ROI_AFNI_tool.py:687-691 | five rounds, each removing the longest common substring and sorting, leave a sorted list of the same length |
| RoiTool.IsUnique | ROI_AFNI_tool/ROI_AFNI_tool.py:1056-1063 | the `unique` flag holds iff no other shortened response occurs in the option without occurring in the condition |
| RoiTool.FilterOptions | ROI_AFNI_tool/ROI_AFNI_tool.py:1053-1065 | the nested loops build `UseList`: each option once for each selected condition that keeps it |
| RoiTool.UseListMembers | ROI_AFNI_tool/ROI_AFNI_tool.py:1053-1065 | an option is in `use_list` iff it is one of the options and some selected condition keeps it |
| RoiTool.PicksMembers | ROI_AFNI_tool/ROI_AFNI_tool.py:1054-1065 | the inner loop appends only the option itself, and does so iff some selected condition keeps it |
| RoiTool.UseListAppend | ROI_AFNI_tool/ROI_AFNI_tool.py:1053-1065 | the options are taken in their own order |
| RoiTool.KeepsRejectsLonger | ROI_AFNI_tool/ROI_AFNI_tool.py:1051-1065 | `hit` does not pick `hit-cr_GLT` when `cr` is another response that `hit` does not contain |
| RoiTool.Plus | ROI_AFNI_tool/ROI_AFNI_tool.py:1214 | `map(add, a, b)` on readings of one length is the element-wise sum |
| RoiTool.PyAdd | ROI_AFNI_tool/ROI_AFNI_tool.py:1212-1214 | Python 2's `+` succeeds iff both operands are numbers or both are lists; numbers add, giving an int only for two ints, and lists concatenate |
| RoiTool.MapAddFloats | ROI_AFNI_tool/ROI_AFNI_tool.py:1214 | `map(add, ...)` of two lists of floats is the element-wise sum iff their lengths agree, and otherwise the `TypeError` whose operand order the longer list decides |
| RoiTool.Reading | ROI_AFNI_tool/ROI_AFNI_tool.py:1197-1208 | a file can be read iff it is a time course or has a first line; magnitudes take the first value, time courses all values |
| RoiTool.SubjectReading | ROI_AFNI_tool/ROI_AFNI_tool.py:1191-1208 | a file whose path lacks `<subject_results>/subj.` stops the tool with the `IndexError`, otherwise its reading |
| RoiTool.Readings | ROI_AFNI_tool/ROI_AFNI_tool.py:1190-1208 | one reading per file, in file order |
| RoiTool.Average | ROI_AFNI_tool/ROI_AFNI_tool.py:1239 | each averaged value times the count gives back the sum (also line 1259 of the same file) |
| RoiTool.ReadSlotAdds | ROI_AFNI_tool/ROI_AFNI_tool.py:1190-1220 | reading the files of a key successfully adds their readings in order |
| RoiTool.AddAllCount | ROI_AFNI_tool/ROI_AFNI_tool.py:1210-1220 | after adding readings the count has grown by their number, every reading is kept for the SEM in order, and all readings have the sum's length |
| RoiTool.AddAllSum | ROI_AFNI_tool/ROI_AFNI_tool.py:1210-1220 | after adding readings the sum is the old sum (or nothing) plus their element-wise total |
| RoiTool.AddAllOk | ROI_AFNI_tool/ROI_AFNI_tool.py:1209-1220 | readings added to a new key succeed iff they all have the first reading's length, which is then the sum's length |
| RoiTool.AddAllMismatch | ROI_AFNI_tool/ROI_AFNI_tool.py:1213-1214 | the first reading whose length differs stops the loop with the `TypeError` of `map(add, ...)`: `'float' and 'NoneType'` iff that reading is shorter than the sum, `'NoneType' and 'float'` iff it is longer |
| RoiTool.ReadFilesAdds | ROI_AFNI_tool/ROI_AFNI_tool.py:1187-1220 | on a dictionary of separate entries, reading the files of a key that clashes with no name in use adds their readings to that key's entry, keeps the entries separate, and changes no name but the key and its two companions |
| RoiTool.FreshKey | ROI_AFNI_tool/ROI_AFNI_tool.py:1217-1220 | a name not in use whose companions are no entry keys, read for the first time, holds the element-wise total of the readings, which all have one length; `_count` holds their number and `_sem` the readings themselves |
| RoiTool.AddKeyNew | ROI_AFNI_tool/ROI_AFNI_tool.py:1217-1220 | on a name not in use a step stores a fresh entry under the name and its two companions |
| RoiTool.AddKeyStep | ROI_AFNI_tool/ROI_AFNI_tool.py:1209-1216 | on the key of an entry held in the dictionary a step adds the reading to that entry and writes its three values back |
| RoiTool.AddKeyHolds | ROI_AFNI_tool/ROI_AFNI_tool.py:1209-1220 | on a dictionary of separate entries, the step of a key that clashes with no name in use is the step on that key's entry, and on success the entries stay separate |
| RoiTool.ReadFilesHolds | ROI_AFNI_tool/ROI_AFNI_tool.py:1190-1220 | reading a key that clashes with no name in use gives the same outcome on the dictionary and on that key's entry: the same error, or the dictionary holding the entries with that key's entry updated |
| RoiTool.CompanionKeyFails | ROI_AFNI_tool/ROI_AFNI_tool.py:1209-1216 | the `_count` or `_sem` companion of an entry key, read as a key, is found in use and its step fails: for `<k>_count`, the `map` error in time courses, and in magnitudes the `KeyError` of `<k>_count_count` unless that is an entry key |
| RoiTool.CompanionFilesFail | ROI_AFNI_tool/ROI_AFNI_tool.py:1187-1220 | a key that is the companion of an entry key stops the tool on its first file |
| RoiTool.CompanionOverwrites | ROI_AFNI_tool/ROI_AFNI_tool.py:1217-1220 | a new name whose `_count` companion is already an entry key overwrites that entry's running value, never an int, with the count 1 |
| RoiTool.ClashingConditions | ROI_AFNI_tool/ROI_AFNI_tool.py:1177-1220 | with conditions `x` and `x_count` and one readable file each for the ROI `R`, the tool stops with `KeyError: 'R_x_count_count'` in magnitudes and the `map` error in time courses |
| RoiTool.RoiName | ROI_AFNI_tool/ROI_AFNI_tool.py:1181-1184 | `ROI[:-4]` or `ROI[:-10]`: a prefix of the file name, four or ten characters shorter (empty when the name is shorter) |
| RoiTool.ReadFilesNext | ROI_AFNI_tool/ROI_AFNI_tool.py:1190-1220 | one more file: its step on the dictionary decides the outcome, and a failing step is the outcome of the whole loop over the key's files |
| RoiTool.ReadFilesErrStays | ROI_AFNI_tool/ROI_AFNI_tool.py:1190-1220 | an error while reading a key's files is the outcome of the whole loop |
| RoiTool.ReadRoisErrStays | ROI_AFNI_tool/ROI_AFNI_tool.py:1180-1220 | an error on one ROI stops the loop over the ROIs |
| RoiTool.ReadConditionsErrStays | ROI_AFNI_tool/ROI_AFNI_tool.py:1178-1220 | an error on one condition stops the loop over the conditions |
| RoiTool.ReadFoldersErrStays | ROI_AFNI_tool/ROI_AFNI_tool.py:1177-1220 | an error in one folder stops the whole accumulation |
| RoiTool.ReadRoisKeys | ROI_AFNI_tool/ROI_AFNI_tool.py:1209-1220 | every name the loops add is an ROI name, `_` and the condition, or the `_count` or `_sem` companion of one |
| RoiTool.ReadFilesKeys | ROI_AFNI_tool/ROI_AFNI_tool.py:1209-1220 | reading a key's files leaves every other name as it was and, when there is a file, adds the key and its two companions and nothing else |
| RoiTool.MasterList.AddReading | ROI_AFNI_tool/ROI_AFNI_tool.py:1209-1220 | the `if key_name in master_list` step on the dictionary itself does `AddKey`, whose `TypeError`, `KeyError` and `AttributeError` cases `AddKeyHolds` and the companion lemmas describe; a failure leaves the dictionary as it was |
| RoiTool.MasterList.ReadSubject | ROI_AFNI_tool/ROI_AFNI_tool.py:1190-1220 | one file read and added under the key, as `ReadFile` on the dictionary, or the error with the dictionary unchanged |
| RoiTool.MasterList.ReadCondition | ROI_AFNI_tool/ROI_AFNI_tool.py:1187-1220 | the loop over one key's sorted files does `ReadFiles` |
| RoiTool.MasterList.AccumulateRois | ROI_AFNI_tool/ROI_AFNI_tool.py:1180-1220 | the loop over the ROI list does `ReadRois` |
| RoiTool.MasterList.AccumulateConditions | ROI_AFNI_tool/ROI_AFNI_tool.py:1178-1220 | the loop over a folder's conditions does `ReadConditions` |
| RoiTool.MasterList.AccumulateFolders | ROI_AFNI_tool/ROI_AFNI_tool.py:1176-1221 | the loop over all folders does `ReadFolders` |
| RoiTool.ReportedKeys | ROI_AFNI_tool/ROI_AFNI_tool.py:1267-1270 | on a dictionary of separate entries, the `count`/`sem` filter keeps exactly the entry keys holding neither word, so every companion name is dropped |
| RoiTool.WordDropsKey | ROI_AFNI_tool/ROI_AFNI_tool.py:1267-1270 | an ROI or condition whose name holds `count` or `sem` (`semantic`, say) is left out of `ordered_list`, so in magnitudes mode it is missing from the output (in timecourses mode a `sem` name stops the script earlier, see Left out) |
| RoiTool.ReportedOf | ROI_AFNI_tool/ROI_AFNI_tool.py:1267-1270 | the loop collects exactly the keys holding neither word, each once, whatever order the dictionary uses |
| RoiTool.PermutationDistinct | ROI_AFNI_tool/ROI_AFNI_tool.py:1271 | sorting a list without repeats gives one without repeats |
| RoiTool.MasterList.OrderedList | ROI_AFNI_tool/ROI_AFNI_tool.py:1267-1271 | `ordered_list` is sorted, without repeats, and holds exactly the names of the dictionary that hold neither word |
| RoiTool.MasterFilePathStem | ROI_AFNI_tool/ROI_AFNI_tool.py:1231-1234 | the master CSV path is the plain name when that does not exist, and otherwise the name numbered with how many paths the glob `<base>*` finds |
| RoiTool.MasterGlobbed | ROI_AFNI_tool/ROI_AFNI_tool.py:1233 | the glob finds both the plain and the numbered outputs |
| RoiTool.NumberedInjective | ROI_AFNI_tool/ROI_AFNI_tool.py:1234 | different numbers give different names |
| RoiTool.NumberedNotPlain | ROI_AFNI_tool/ROI_AFNI_tool.py:1231-1234 | a numbered name is never the plain one |
| RoiTool.OutputsCount | ROI_AFNI_tool/ROI_AFNI_tool.py:1231-1234 | n consecutive runs leave n outputs |
| RoiTool.OutputsMembers | ROI_AFNI_tool/ROI_AFNI_tool.py:1231-1234 | the outputs of n consecutive runs are the plain name and exactly the names numbered 1 to n - 1 |
| RoiTool.MasterFirstRun | ROI_AFNI_tool/ROI_AFNI_tool.py:1231-1234 | the first run writes the plain name, which did not exist |
| RoiTool.MasterNextRun | ROI_AFNI_tool/ROI_AFNI_tool.py:1231-1234 | after n runs the next one writes `_<n>`, a new name, and leaves n + 1 outputs |
| RoiTool.MasterOverwrite | ROI_AFNI_tool/ROI_AFNI_tool.py:1231-1234 | with `base.csv` and `base_2.csv` present (`base_1.csv` deleted), the run overwrites `base_2.csv` |
| ElapsedTime.LeadingDigit | QC_AFNI.py:17-18 | `int(str(totaltime)[:1])` reads the first decimal digit of the day count: below ten, and positive for a positive count |
| ElapsedTime.LeadingDigitText | QC_AFNI.py:18 | that digit is the first character of the count's decimal text |
| ElapsedTime.Breakdown | QC_AFNI.py:16-28 | seconds below 60, minutes below 60 and hours below 24 that add up to the time within the day; days are the leading digit of the day count, or 0 under a day |
| ElapsedTime.DayClock | QC_AFNI.py:21-27 | the script's step-by-step minute and hour arithmetic agrees with plain division |
| ElapsedTime.Figures | QC_AFNI.py:16-28 | the figures computed step by step are `Breakdown` |
| ElapsedTime.AppendCount | QC_AFNI.py:41-43 | one `str(n) + " unit"` step with its plural `s` appends `Phrase(n, unit)` |
| ElapsedTime.LargerUnits | QC_AFNI.py:29-45 | the day, hour and minute steps give `DurationHead`: days when there are any, hours when there are days or hours, minutes when any of the three is non-zero, and the `, ` after the minutes only with days or hours |
| ElapsedTime.Reporter.TimeDuration | QC_AFNI.py:13-50 | `duration_string` is set to `DurationText` of the elapsed seconds |
| ElapsedTime.DurationEndsWithSeconds | QC_AFNI.py:48-50 | the text always ends with the seconds, and ends in `s` iff the seconds are not 1 |
| ElapsedTime.DurationUnderMinute | QC_AFNI.py:46-50 | under a minute only the seconds are shown |
| ElapsedTime.DurationUnderHour | QC_AFNI.py:40-50 | under an hour the minutes and seconds are joined by ` and ` |
| ElapsedTime.DurationWithHours | QC_AFNI.py:35-50 | with hours the minutes are always shown, followed by `,  and ` (comma, two spaces) before the seconds |
| ElapsedTime.DurationWithDays | QC_AFNI.py:29-50 | with days the hours and minutes are always shown, with `, ` between them and `,  and ` before the seconds |
| ElapsedTime.DurationDays | QC_AFNI.py:17-30 | with days the text opens with the leading digit of the day count and ` day` |
| ElapsedTime.DurationTwelveDays | QC_AFNI.py:17-18 | twelve days are reported as `1 day, 0 hours, 0 minutes,  and 0 seconds` |
| PathCheck.Specials | Clustering_and_Vol_Surf_Convert/cluster_and_map_vol_to_surface.py:25-28 | `special_characters` holds exactly the characters of the path outside ASCII letters, digits and `/_-` |
| PathCheck.ShownAll | Clustering_and_Vol_Surf_Convert/cluster_and_map_vol_to_surface.py:36-39 | each character is shown quoted, a space as `' ' (space)` |
| PathCheck.PathVerdict | Clustering_and_Vol_Surf_Convert/cluster_and_map_vol_to_surface.py:30-42 | the script goes on iff the path holds no special character |
| PathCheck.InvalidCharacters | Clustering_and_Vol_Surf_Convert/cluster_and_map_vol_to_surface.py:31-40 | the loop builds the character list of the message |
| PathCheck.AppendShown | Clustering_and_Vol_Surf_Convert/cluster_and_map_vol_to_surface.py:36-39 | one character shown and followed by `, ` |
| PathCheck.DropSeparator | Clustering_and_Vol_Surf_Convert/cluster_and_map_vol_to_surface.py:40 | `[:-2]` removes the trailing separator, also from an empty list |
| PathCheck.DistinctElements | Clustering_and_Vol_Surf_Convert/map_vol_to_surface.py:19-28 | the message lists each special character of the path |
| PathCheck.DistinctNoRepeats | Clustering_and_Vol_Surf_Convert/map_vol_to_surface.py:21-23 | no character is listed twice |
| PathCheck.DistinctFirstSeen | Clustering_and_Vol_Surf_Convert/map_vol_to_surface.py:21-23 | characters are listed in the order they first appear |
| CommandLine.ParseFlag | Clustering_and_Vol_Surf_Convert/cluster_and_map_vol_to_surface.py:104-111 | `true` and `false` become booleans; any other text is kept as given |
| CommandLine.FileArgument | Clustering_and_Vol_Surf_Convert/cluster_and_map_vol_to_surface.py:150-153 | a `filename=` prefix is removed, any other argument is taken whole |
| ClusterArgs.AfniFlag | Clustering_and_Vol_Surf_Convert/cluster_and_map_vol_to_surface.py:140-147 | `keepafni=` reads as true whenever `keepnifti=true` was given, whatever its own value; otherwise `false` or the raw text |
| ClusterArgs.SetThresholds | Clustering_and_Vol_Surf_Convert/cluster_and_map_vol_to_surface.py:86-91 | the first three tests change only p, z and alpha, and alpha only for an `alpha=` argument |
| ClusterArgs.SetSwitches | Clustering_and_Vol_Surf_Convert/cluster_and_map_vol_to_surface.py:92-139 | each of NN, bisided, loop, suffix and keepnifti changes only for an argument naming it |
| ClusterArgs.SetKeepafni | Clustering_and_Vol_Surf_Convert/cluster_and_map_vol_to_surface.py:140-147 | the `keepafni=` test changes only keepafni, and nothing without `keepafni=` |
| ClusterArgs.SetFilename | Clustering_and_Vol_Surf_Convert/cluster_and_map_vol_to_surface.py:148-153 | the file-name test changes only the file name |
| ClusterArgs.ReadArgument | Clustering_and_Vol_Surf_Convert/cluster_and_map_vol_to_surface.py:85-153 | the loop body does `ReadCommand` |
| ClusterArgs.ReadThresholds | Clustering_and_Vol_Surf_Convert/cluster_and_map_vol_to_surface.py:86-91 | the threshold tests do `SetThresholds` |
| ClusterArgs.ReadSwitches | Clustering_and_Vol_Surf_Convert/cluster_and_map_vol_to_surface.py:92-139 | the switch tests do `SetSwitches` |
| ClusterArgs.ReadArguments | Clustering_and_Vol_Surf_Convert/cluster_and_map_vol_to_surface.py:85-153 | the argument loop does `ReadAll` from the defaults |
| ClusterArgs.ReadAllErrStays | Clustering_and_Vol_Surf_Convert/cluster_and_map_vol_to_surface.py:85-153 | once an argument stops the script, later arguments change nothing |
| ClusterArgs.ReadCommandKeeps | Clustering_and_Vol_Surf_Convert/cluster_and_map_vol_to_surface.py:85-153 | an argument not naming an option leaves that option as it was |
| ClusterArgs.ReadAllDefaults | Clustering_and_Vol_Surf_Convert/cluster_and_map_vol_to_surface.py:74-83 | an option no argument names keeps its default (alpha `0.05`, NN `3`, bisided true, loop, keepnifti and keepafni false, suffix empty) |
| ClusterArgs.KeepafniFollowsKeepnifti | Clustering_and_Vol_Surf_Convert/cluster_and_map_vol_to_surface.py:140-143 | after `keepnifti=true`, `keepafni=false` still sets keepafni to true |
| ClusterArgs.KeepafniNeedsKeepnifti | Clustering_and_Vol_Surf_Convert/cluster_and_map_vol_to_surface.py:140-142 | a `keepafni=` argument with no `keepnifti=` at or before it stops the script on the unset `keepnifti_string` |
| ClusterArgs.NoKeepniftiUnset | Clustering_and_Vol_Surf_Convert/cluster_and_map_vol_to_surface.py:132-133 | `keepnifti_string` stays unset until a `keepnifti=` argument |
| ClusterArgs.Check | Clustering_and_Vol_Surf_Convert/cluster_and_map_vol_to_surface.py:156-204 | the script goes on iff exactly one of p and z is given, each given threshold and alpha parse as numbers, NN is 1-3, the switches are booleans (loop only when set), a file that exists is named unless `loop` is set, and the user does not answer `n`; both p and z give their own message |
| ClusterArgs.StripHeadOrBrik | Clustering_and_Vol_Surf_Convert/cluster_and_map_vol_to_surface.py:220-222 | `.HEAD` or a plain `.BRIK` is removed from a file name |
| ClusterArgs.StripBrikGz | Clustering_and_Vol_Surf_Convert/cluster_and_map_vol_to_surface.py:223-224 | `.BRIK.gz` is removed from a file name |
| ClusterArgs.StripPlain | Clustering_and_Vol_Surf_Convert/cluster_and_map_vol_to_surface.py:220-224 | a name without either marker is kept |
| ClusterArgs.LeadingZero | Clustering_and_Vol_Surf_Convert/cluster_and_map_vol_to_surface.py:225-228 | a value starting with `.` gets a `0` in front, any other is kept |
| ClusterArgs.SuffixForm | Clustering_and_Vol_Surf_Convert/cluster_and_map_vol_to_surface.py:229-231 | a non-empty suffix starts with `_`, `.` or `-`, with `_` added only when it does not |
| ClusterArgs.Normalised | Clustering_and_Vol_Surf_Convert/cluster_and_map_vol_to_surface.py:207-231 | p and alpha never start with `.`, the NN level is `NN<n>`, the sidedness is `bisided` or `1sided`, and there is a file name iff one was given (also lines 268-278 of the same file) |
| ClusterArgs.Configure | Clustering_and_Vol_Surf_Convert/cluster_and_map_vol_to_surface.py:18-231 | the script reaches the per-file loop only with a clean path, some argument, arguments that read, and checks that pass; the settings are then the normalised options |
| ClusterArgs.FilesToProcess | Clustering_and_Vol_Surf_Convert/cluster_and_map_vol_to_surface.py:234-238 | under `loop` the `.HEAD` stems of the listing, else the one file |
| ClusterArgs.HeadStems | Clustering_and_Vol_Surf_Convert/cluster_and_map_vol_to_surface.py:236 | at most one stem per listed name |
| ClusterArgs.HeadStemsMembers | Clustering_and_Vol_Surf_Convert/cluster_and_map_vol_to_surface.py:236 | a stem is `x[:-5]` of exactly a listed name holding `.HEAD` |
| ClusterArgs.Leftovers | Clustering_and_Vol_Surf_Convert/cluster_and_map_vol_to_surface.py:244-252 | a file is processed iff no cluster mask, intermediate AFNI or NIfTI file, or output surface of an earlier run exists |
| ClusterArgs.FirstWithFacts | Clustering_and_Vol_Surf_Convert/cluster_and_map_vol_to_surface.py:288-301 | no line before it matches, and it matches when there is one |
| ClusterArgs.FirstWithNext | Clustering_and_Vol_Surf_Convert/cluster_and_map_vol_to_surface.py:288-301 | whether the first match is at or before a line is decided line by line |
| ClusterArgs.LastWithMeaning | Clustering_and_Vol_Surf_Convert/cluster_and_map_vol_to_surface.py:291-294 | the line kept holds the pattern and no later line in range does; none is kept when no line holds it |
| ClusterArgs.NoMaskRows | Clustering_and_Vol_Surf_Convert/cluster_and_map_vol_to_surface.py:300-301 | the rows kept are exactly the lines without `mask_count` |
| ClusterArgs.MaskCountLine | Clustering_and_Vol_Surf_Convert/cluster_and_map_vol_to_surface.py:295-301 | the `mask_count=` line itself is never a row |
| ClusterArgs.ScanHeader | Clustering_and_Vol_Surf_Convert/cluster_and_map_vol_to_surface.py:282-301 | the rows are the lines after the block's `mask_count=` line up to the end tag, and the label lines are the last `pthr=`/`athr=` from the block name through the end tag |
| ClusterArgs.ScanRows | Clustering_and_Vol_Surf_Convert/cluster_and_map_vol_to_surface.py:295-301 | how one more line extends the rows |
| ClusterArgs.NoBlockNoRows | Clustering_and_Vol_Surf_Convert/cluster_and_map_vol_to_surface.py:286-304 | a header without the block yields no rows, so the script exits |
| ClusterArgs.Cells | Clustering_and_Vol_Surf_Convert/cluster_and_map_vol_to_surface.py:313-314 | each row is `item[1:-1].split(' ')` |
| ClusterArgs.Floats | Clustering_and_Vol_Surf_Convert/cluster_and_map_vol_to_surface.py:308 | the conversion succeeds iff every label parses, and keeps them in order |
| ClusterArgs.IndexOfValue | Clustering_and_Vol_Surf_Convert/cluster_and_map_vol_to_surface.py:320 | `.index` finds the first position of the value |
| ClusterArgs.LastColumn | Clustering_and_Vol_Surf_Convert/cluster_and_map_vol_to_surface.py:326 | `dict(zip(...))[alpha]` reads the last column labelled alpha within the row (also line 333 of the same file) |
| ClusterArgs.ClusterSize | Clustering_and_Vol_Surf_Convert/cluster_and_map_vol_to_surface.py:303-304 | a header without rows stops the script with the `-Clustsim` message |
| ClusterArgs.LookupMeaning | Clustering_and_Vol_Surf_Convert/cluster_and_map_vol_to_surface.py:316-333 | a p or alpha outside the labels stops the script; a size found is the cell in the row of the first matching p label and a column labelled alpha |
| ClusterArgs.ClusterSizeMeaning | Clustering_and_Vol_Surf_Convert/cluster_and_map_vol_to_surface.py:303-333 | a size is found only with rows, both label lines, numeric p labels and a numeric p |
| ClusterArgs.AlphaMissing | Clustering_and_Vol_Surf_Convert/cluster_and_map_vol_to_surface.py:322-324 | an alpha missing from the labels stops the script |
| VolToSurface.SetNames | Clustering_and_Vol_Surf_Convert/map_vol_to_surface.py:80-103 | the `hem=`, `mappingtype=` and `space=` tests change only those options, each only for an argument naming it |
| VolToSurface.SetSubbrick | Clustering_and_Vol_Surf_Convert/map_vol_to_surface.py:104-105 | the `subbrick` test changes only the subbrick, and fails iff `command[8:]` is not a whole number |
| VolToSurface.SetRest | Clustering_and_Vol_Surf_Convert/map_vol_to_surface.py:106-118 | `keepnifti=` sets keepnifti to the parsed flag; the file name becomes the argument (without `filename=`) iff it names a file |
| VolToSurface.ReadArgument | Clustering_and_Vol_Surf_Convert/map_vol_to_surface.py:79-118 | the loop body does `ReadCommand` |
| VolToSurface.ReadArguments | Clustering_and_Vol_Surf_Convert/map_vol_to_surface.py:79-118 | the argument loop does `ReadAll` from the defaults |
| VolToSurface.ReadAllErrStays | Clustering_and_Vol_Surf_Convert/map_vol_to_surface.py:79-118 | once an argument stops the script, later arguments change nothing |
| VolToSurface.ReadCommandKeeps | Clustering_and_Vol_Surf_Convert/map_vol_to_surface.py:79-118 | an argument not naming an option leaves that option as it was |
| VolToSurface.ReadAllDefaults | Clustering_and_Vol_Surf_Convert/map_vol_to_surface.py:72-77 | an option no argument names keeps its default (`both`, `ribbon-constrained`, `MNI`, subbrick 0, keepnifti false) |
| VolToSurface.ReadAllFilename | Clustering_and_Vol_Surf_Convert/map_vol_to_surface.py:114-118 | the file name is the one the last naming argument gives |
| VolToSurface.LastFileNone | Clustering_and_Vol_Surf_Convert/map_vol_to_surface.py:75 | without an argument that names a file the file name stays unset (also lines 114-118 of the same file) |
| VolToSurface.LastFileSome | Clustering_and_Vol_Surf_Convert/map_vol_to_surface.py:114-118 | the file name comes from the last argument that names a file, without its `filename=` prefix |
| VolToSurface.SubbrickWithEquals | Clustering_and_Vol_Surf_Convert/map_vol_to_surface.py:104-105 | every `subbrick=` argument stops the script, since the slice keeps the `=` |
| VolToSurface.SubbrickWithoutEquals | Clustering_and_Vol_Surf_Convert/map_vol_to_surface.py:104-105 | `subbrick<n>` is the form that sets the subbrick to n |
| VolToSurface.Check | Clustering_and_Vol_Surf_Convert/map_vol_to_surface.py:120-136 | the script goes on iff hem, mappingtype and space are valid, keepnifti is a boolean, and a file name is given that exists, or whose `.HEAD` exists; a bad hem gives its own message |
| VolToSurface.VolumeOf | Clustering_and_Vol_Surf_Convert/map_vol_to_surface.py:140-162 | a plain NIfTI is mapped as it is and kept; a 4dfp image or gzip NIfTI is always removed afterwards, an AFNI dataset unless `keepnifti` |
| VolToSurface.FourDfpVolume | Clustering_and_Vol_Surf_Convert/map_vol_to_surface.py:145-148 | a 4dfp image gives the NIfTI of its stem |
| VolToSurface.HeadOrBrikVolume | Clustering_and_Vol_Surf_Convert/map_vol_to_surface.py:154-162 | `<stem>+view.HEAD` and a plain `<stem>+view.BRIK` both give `<stem>.nii` (5 more characters dropped) |
| VolToSurface.BrikGzVolume | Clustering_and_Vol_Surf_Convert/map_vol_to_surface.py:157-162 | `.BRIK.gz` loses its 8 characters, then the view |
| VolToSurface.BareAfniVolume | Clustering_and_Vol_Surf_Convert/map_vol_to_surface.py:154-162 | a name without extension whose `.HEAD` exists is converted like the header |
| VolToSurface.Method | Clustering_and_Vol_Surf_Convert/map_vol_to_surface.py:177-185 | ribbon-constrained carries the hemisphere's white and pial surfaces; the other methods go as given |
| VolToSurface.ForHemisphere | Clustering_and_Vol_Surf_Convert/map_vol_to_surface.py:35-40 | one call reads the volume and the hemisphere's midthickness surface and writes `<volume[:-4]>_<h>.func.gii` (also lines 177-186 of the same file) |
| VolToSurface.Mappings | Clustering_and_Vol_Surf_Convert/map_vol_to_surface.py:177-186 | `both` maps both hemispheres, `L` or `R` one |
| VolToSurface.HemisphereOutputs | Clustering_and_Vol_Surf_Convert/map_vol_to_surface.py:180 | the two hemispheres never write the same file (also line 185 of the same file) |
| VolToSurface.Convert | Clustering_and_Vol_Surf_Convert/map_vol_to_surface.py:6-191 | the mappings run only with a clean path, some argument, arguments that read and checks that pass; they are those `hem` asks for on the converted volume, which is removed afterwards iff the conversion made it |
| QcAfni.FilterSorted | QC_AFNI.py:203-208 | dropping folders from a sorted list keeps it sorted |
| QcAfni.SelectGlmFolders | QC_AFNI.py:198-208 | the two loops and the `sorted` between them give `GlmFolders` |
| QcAfni.GlmFoldersMeaning | QC_AFNI.py:198-208 | a folder is reviewed iff it holds a `stats*` file and has no review table yet, and the list is sorted |
| QcAfni.RemoveFirst | QC_AFNI.py:218 | `list.remove` takes out one element |
| QcAfni.RemoveFirstAt | QC_AFNI.py:218 | in a list without repeats it removes the position of that element |
| QcAfni.RemoveFirstMembers | QC_AFNI.py:218 | it removes nothing but that element |
| QcAfni.RemoveFirstNoDuplicates | QC_AFNI.py:218 | a list without repeats stays so |
| QcAfni.Prune | QC_AFNI.py:210-218 | the loop that removes from the list it iterates gives `PruneFrom`: the iterator's position counts over the list as it stands |
| QcAfni.PruneMembers | QC_AFNI.py:210-218 | pruning only removes folders, only folders with more than 50 conditions, and every other folder stays |
| QcAfni.PruneKeepsPrefix | QC_AFNI.py:210-218 | the positions before the iterator are never touched |
| QcAfni.PruneSkipsNext | QC_AFNI.py:211-218 | the folder right after a removed one is never examined and stays, however many conditions it has |
| QcAfni.PruneTwo | QC_AFNI.py:211-218 | of two GLMs that both have too many conditions, only the first is removed |
| QcAfni.SubjectGlmsMeaning | QC_AFNI.py:197-218 | every GLM reviewed is a selected one, and every selected GLM with at most 50 conditions (or all, without `long_scripts_check`) is reviewed |
| QcAfni.CollectFolders | QC_AFNI.py:220-222 | the loop gives `AddNew` |
| QcAfni.AddNewMeaning | QC_AFNI.py:220-222 | `all_GLM_folders` keeps the folders seen so far first and in order, adds each new folder, and never holds one twice |
| QcAfni.RunList | QC_AFNI.py:311-318 | one label per run, in run order |
| QcAfni.RunLabels | QC_AFNI.py:311-318 | the loop builds that list |
| QcAfni.RunLabelDigits | QC_AFNI.py:313-318 | below 99 runs each label is the two digits of the 1-based run number |
| QcAfni.RunLabelNumber | QC_AFNI.py:313-318 | each label reads as the 1-based run number |
| QcAfni.RunLabelsDistinct | QC_AFNI.py:311-318 | different runs get different labels |
| QcAfni.RunLabelsSorted | QC_AFNI.py:320 | up to 99 runs `sorted` leaves the labels as built |
| QcAfni.ZipAt | QC_AFNI.py:322 | `dict(zip(...))` with distinct keys maps the k-th key to the k-th value |
| QcAfni.EpiFilesInOrder | QC_AFNI.py:285-289 | up to 99 runs label k names the k-th sorted volreg HEAD file (also lines 311-322 of the same file) |
| QcAfni.FindTemplate | QC_AFNI.py:294-303 | the `count` loop and the `.HEAD` removal give `Template` |
| QcAfni.BaseScanErrStays | QC_AFNI.py:297-300 | reading past the end stops the loop for good |
| QcAfni.BaseScanEarly | QC_AFNI.py:297-300 | only a `-base` in last position reads past the end |
| QcAfni.BaseScanLast | QC_AFNI.py:297-300 | the template is the token after the last `-base` |
| QcAfni.BaseScanNone | QC_AFNI.py:296-300 | without `-base` there is no template |
| QcAfni.BaseScanDangling | QC_AFNI.py:298-299 | a history whose last token is `-base` stops the script with the `IndexError` |
| QcAfni.DoSnapshots | QC_AFNI.py:327-333 | `do_snapshots` holds iff the anatomy jpg or some run's jpg is missing |
| QcAfni.MissingRunsEmpty | QC_AFNI.py:345-352 | no run snapshot is made iff every run's jpg exists |
| QcAfni.DoSnapshotsIffMade | QC_AFNI.py:327-352 | the announcement is printed iff some snapshot is then made |
| QcAfni.Rule | QC_AFNI.py:374 | the rule is 60 `=` characters |
| QcAfni.RadialBetween | QC_AFNI.py:374-376 | the block written runs from the first rule through the second rule and one more character |
| LmeRoi.Folders.EntryFields | LME_ROI_magnitudes.py:34-43 | the three entries are stored, the first under the misspelled `directoy`, so `directory` keeps what it held |
| LmeRoi.OutputDirectory | LME_ROI_magnitudes.py:114 | joining fails with the `NoneType` error iff the directory is unset, and otherwise ends with `LME_results` |
| LmeRoi.SelectFolders | LME_ROI_magnitudes.py:34-43 | whatever is typed into the entries, computing the output directory fails, since `directory` is still `None`; the script gets there whenever the typed masks folder can be listed (also lines 109-114 of the same file) |
| LmeRoi.Rois | LME_ROI_magnitudes.py:108-112 | at most one ROI per mask file |
| LmeRoi.CollectRois | LME_ROI_magnitudes.py:108-112 | the loop builds `Rois` |
| LmeRoi.RoisMembers | LME_ROI_magnitudes.py:108-112 | an ROI is `f[:-10]` of exactly a mask file holding `.HEAD` |
| LmeRoi.MaskStem | LME_ROI_magnitudes.py:111-112 | the header `<stem>+tlrc.HEAD` gives back `<stem>` |
| LmeRoi.SubjectFolders | LME_ROI_magnitudes.py:146-152 | the subject folders are exactly the listed items whose GLM folder exists, in listing order |
| LmeRoi.HashTail | LME_ROI_magnitudes.py:171 | the tail of the pattern matches a `#` followed by a text ending in `_Coef'` |
| LmeRoi.TrialLabelShape | LME_ROI_magnitudes.py:171 | `'*#*_Coef'` matches exactly a quote, a later `#`, and a text after it ending in `_Coef'` (also line 202 of the same file) |
| LmeRoi.TrialCountTokens | LME_ROI_magnitudes.py:170-172 | the trials counted are the space-split tokens of that shape, no more than the tokens (also lines 201-203 of the same file) |
| LmeRoi.FilterLength | LME_ROI_magnitudes.py:171 | `fnmatch.filter` never returns more names than it is given |
| LmeRoi.TrialsDropLast | LME_ROI_magnitudes.py:177 | `range(0, trial_number - 1)` has one trial fewer than counted: the last counted trial is never extracted, and none when none is counted (also line 206 of the same file) |
| LmeRoi.ReadLine | LME_ROI_magnitudes.py:212 | `readline()` gives a prefix of the file that is all of it or ends at a line break |
| LmeRoi.FillRow | LME_ROI_magnitudes.py:207-214 | the loop fills `trial_dict` as `TrialRow` states |
| LmeRoi.TrialRowKeys | LME_ROI_magnitudes.py:207-214 | a row holds exactly the header's columns (also line 218 of the same file) |
| LmeRoi.TrialRowMagnitudes | LME_ROI_magnitudes.py:210-214 | each ROI's cell is the first token of the first line of that ROI's average file for the trial |
| LmeRoi.TrialRowFixed | LME_ROI_magnitudes.py:208-209 | unless an ROI is named like them, the fixed cells hold the subject and the trial |
| LmeRoi.TrialRowsAt | LME_ROI_magnitudes.py:206-215 | one row per trial, the k-th for the k-th trial |
| LmeRoi.TrialRowsLength | LME_ROI_magnitudes.py:206-215 | one row per trial |
| LmeRoi.AddTrials | LME_ROI_magnitudes.py:206-215 | the trial loop appends one filled row per trial |
| LmeRoi.AddSubject | LME_ROI_magnitudes.py:194-215 | one subject folder appends its rows |
| LmeRoi.CollectRows | LME_ROI_magnitudes.py:192-215 | the loop builds `data_dict_list` as `Rows` |
| LmeRoi.RowsFitHeader | LME_ROI_magnitudes.py:218-225 | every row has exactly the header's columns, so the CSV writer takes every row whole |
| LmeRoi.SubjectRowsCount | LME_ROI_magnitudes.py:198-206 | a subject folder with its betas bucket gives `trial_number - 1` rows, one without gives none |
| LmeRoi.SubjectRowAt | LME_ROI_magnitudes.py:195 | the k-th row of a subject folder names the subject and trial k (also lines 206-209 of the same file) |

The ROI tool's `master_list` is modelled as the script has it: one flat
dictionary from names to values, where a key `k` keeps its running value
under `k`, its count under `k_count` and its readings under `k_sem`.
Lemmas relate that dictionary to a map of entries, one entry per key,
while no key is another's companion.

## Left out

- ReadFilesAdds, FreshKey, AddKeyHolds, ReadFilesHolds (`RoiTool`): these hold only for a key that clashes with no name in use, one that is not another key's `_count` or `_sem` companion and whose own companions are no keys. The other cases are not summarised; `CompanionKeyFails`, `CompanionFilesFail`, `CompanionOverwrites` and `ClashingConditions` show what the script does in them.
- Tk windows, buttons, check-boxes and screen probing: user interface only. The entry callbacks are kept where they feed the logic (`LmeRoi.Folders.EntryFields`).
- Every subprocess call (3dinfo, 3dmaskave, 3dbucket, 3dUndump, 3dclust, 3dcalc, 3dAFNItoNIFTI, nifti_4dfp, wb_command, dcm2niix, gen_ss_review_*, @snapshot_volreg, 1dplot, cp/mv/rm): foreign programs. Their outputs are parameters (the `3dinfo -verb` text, the header text, the history), and their effects on disk are the file-system parameters.
- The `dcm2niix` conversion at the start of `reorganize_NIfTI` (lines 26-38 of `Data_Prep_Bundle/NIfTI_Files.py`): a foreign program, whose output listing is the input of the model.
- Floating point: `float()`, `round(x, 4)`, `str(float)`, `stats.sem`, `norm.cdf`/`ppf` and the nearest-p search for a z value (lines 207-218 of `Clustering_and_Vol_Surf_Convert/cluster_and_map_vol_to_surface.py`). They are passed in as the functions `round4`, `formatOnset` and `pFromZ`. The ROI accumulator adds and divides exact reals, not floating-point numbers.
- File and directory I/O, and csv/json serialisation: folders are sequences or maps of names, files are their text or their rows, and the order of `os.listdir` and `glob` is a given sequence. A folder re-listed after a rename lists the renamed entry last (`NiftiFiles.Put`); `os.listdir` promises no order, so the order of the re-listings at lines 85, 106, 205 and 264 of `Data_Prep_Bundle/NIfTI_Files.py` is the model's choice. That order decides which JSON file `NiftiFiles.TaskNameStepsFail` calls the first one, and the order of the `IntendedFor` list.
- The timecourse table and the CSV and Excel writing of the ROI tool (lines 1222-1320 of `ROI_AFNI_tool/ROI_AFNI_tool.py`): only the row keys, the averages and the output name are modelled. The SEM loop of lines 1240-1249 is not modelled either: it treats every key holding `sem` as a list of readings, so an ROI or condition name holding `sem` (`ROI_semantic`, say) makes it index a number, and with non-empty time courses the script stops there with a `TypeError` before it writes anything. Likewise the `csv.DictWriter` of the LME script (lines 221-226 of `LME_ROI_magnitudes.py`): only the rows and the header are modelled.
- The stage-one extraction loop of the LME script (lines 157-186 of `LME_ROI_magnitudes.py`: 3dbucket, 3dinfo, 3dmaskave, os.rename): foreign calls. Its outputs are the `read` parameter. As written, the script stops at line 114 whenever the typed masks folder can be listed by line 109, and at line 109 otherwise (`LmeRoi.SelectFolders`). The later stages are therefore modelled with the directory given as a parameter.
- The review scripts, plots and drive/e-mail steps of the QC script (lines 229-269 and 382 onwards of `QC_AFNI.py`): foreign calls without logic of their own.
- `print` output, progress messages and notifications: no effect on the files.
- `Acronym_Interface_Package/Data_Prep_Bundle/DICOM_Files.py` and `Acronym_Interface_Package/Data_Prep_Bundle/Setup_BIDS_Folder_Structure.py`: network copies and `os.makedirs` calls without logic; they are not part of this model.
- PyStr.ParseInt: accepts an optional sign and decimal digits only; Python's `int()` also accepts surrounding white space, which is not modelled. No argument of the scripts carries such white space.
- Python 2 semantics are assumed throughout: integer `/` on non-negative operands and the `UnboundLocalError` of a local read before assignment.
- MaxStem, MinStem (`NiftiFiles`): Python 2's `max`/`min` over a dictionary meet the keys in hash order, which is not modelled. The model scans the stems in listing order, so when two stems share the largest (or smallest) series number, the one it picks is the script's choice only if the dictionary happens to iterate in that order.
- MaxStemIsFirst (`NiftiFiles`): the tie-break it states, the first in listing order, is the model's order, not the script's. Python 2 dictionary hash order is not modelled.
- Dedup (`NiftiFiles`): the keys of `rest_dict` are kept in first-seen order; Python 2 iterates them in hash order, which is not modelled. The set of keys and their uniqueness are as the script has them; the order in which `rest_bold_dict` is built follows the model's order.
- Reorganize (`NiftiFiles.SessionFolders`): the removal of the DICOM folder (`shutil.rmtree(dicom_folder)`, lines 46-47 of `Data_Prep_Bundle/NIfTI_Files.py`) is not modelled. The DICOM folder is outside the folders the model tracks.
- CodeData (`BidsEvents`): the `converted_<log>.tsv` and `converted_<log>.csv` files written, and the `.tsv` removed again, by the log conversion (lines 102-116 of `Acronym_Interface_Package/Data_Prep_Bundle/Generate_BIDS_Event_Files.py`) are not modelled. The converted rows are the `logs` parameter.
- The removal of `stats_info_temp.txt` by the LME script (line 204 of `LME_ROI_magnitudes.py`) is not modelled. The file is scratch output of a foreign program.
- Match (`Glob`): `*` is modelled as `fnmatch` has it, for `RoiTool.Globbed` and `BidsEvents.GlobIn` too, matching any run of characters, `/` and a leading `.` included; every other character, `?` and `[` among them, matches only itself. `glob.glob` matches each path component on its own, so its `*` matches neither `/` nor a leading `.`, and it takes `?` and `[...]` as wildcards. The patterns of lines 82 and 85 of `Acronym_Interface_Package/Data_Prep_Bundle/Create_AFNI_Timing_Files.py`, line 456 of `Acronym_Interface_Package/Data_Prep_Bundle/Generate_BIDS_Event_Files.py` and line 1233 of `ROI_AFNI_tool/ROI_AFNI_tool.py` (`RoiTool.Globbed`) agree with the model only for folder names without `?` or `[` and file names without a leading `.`, with no `/` in the part a `*` matches.
- GroupStepResult (`NiftiFiles`): it is stated for a func folder and a task listing that hold none of the group's four BIDS names yet. When one is already there (two groups with the same label, say), the rename onto it replaces it, and that case is not described.
- FieldmapsResult (`NiftiFiles`): it is stated for a fmap folder where no fieldmap NIfTI, and no JSON of one, already ends in `_epi.nii.gz` or `_epi.json`. Otherwise a later rename can take a BIDS name an earlier one gave, and that case is not described.
- GlobIn (`BidsEvents`): the files found are those that `diskOrder` lists; nothing requires `diskOrder` to list every file present, or each file once.
- One character of the model is one byte of a Python 2 `str`: the special-character test of `path_check.dfy` and every length and slice count bytes, which is what Python 2 does for a non-ASCII UTF-8 path.
