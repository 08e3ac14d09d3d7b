/** `code_data` of the behavioural-coding script: it picks the BOLD runs of
    a participant, finds the PsychoPy files of each task, turns every trial
    into a row of a BIDS events file (the "Task Events" section, 8.5, of the
    Brain Imaging Data Structure specification) and finally copies the
    retrieval answers into the encoding rows ("subsequent memory"). */
module BidsEvents {
  import opened Wrappers
  import opened PyStr
  import TimingFiles
  import Glob

  // ---------------------------------------------------------------------
  // BOLD runs and their tasks
  // ---------------------------------------------------------------------

  /** The five list filters on the `func` folder listing. */
  predicate IsBoldRun(x: string) {
    !Contains(x, ".DS_Store") && !Contains(x, "task-rest") && !Contains(x, "sbref") && !Contains(x, "events") &&
    !Contains(x, ".json")
  }

  function FuncFiles(listing: seq<string>): seq<string>
    decreases |listing|
  {
    if |listing| == 0 then []
    else FuncFiles(listing[..|listing| - 1]) + (if IsBoldRun(Last(listing)) then [Last(listing)] else [])
  }

  /** The filters keep the listing order and drop exactly the non-BOLD
      names. */
  lemma {:induction false} FuncFilesMembers(listing: seq<string>)
    ensures forall x :: x in FuncFiles(listing) <==> x in listing && IsBoldRun(x)
    decreases |listing|
  {
    if |listing| > 0 {
      var front := listing[..|listing| - 1];
      FuncFilesMembers(front);
      assert listing == front + [Last(listing)];
    }
  }

  /** `item[5:]` for every `_`-piece holding `task-`. */
  function TaskTokens(pieces: seq<string>): seq<string>
    decreases |pieces|
  {
    if |pieces| == 0 then []
    else
      TaskTokens(pieces[..|pieces| - 1]) +
      (if Contains(Last(pieces), "task-") then [Drop(Last(pieces), 5)] else [])
  }

  /** `func_tasks`: the task tokens of every BOLD run, run by run. */
  function FuncTasks(files: seq<string>): seq<string>
    decreases |files|
  {
    if |files| == 0 then [] else FuncTasks(files[..|files| - 1]) + TaskTokens(Split(Last(files), '_'))
  }

  lemma {:induction false} TaskTokensMembers(pieces: seq<string>)
    ensures forall t :: t in TaskTokens(pieces) <==> exists p :: p in pieces && Contains(p, "task-") && Drop(p, 5) == t
    decreases |pieces|
  {
    if |pieces| > 0 {
      var front := pieces[..|pieces| - 1];
      TaskTokensMembers(front);
      assert pieces == front + [Last(pieces)];
    }
  }

  /** Every task name comes from a BOLD run, and every task token of a
      BOLD run is listed. */
  lemma {:induction false} FuncTasksMembers(files: seq<string>)
    ensures forall t :: t in FuncTasks(files) <==> exists f :: f in files && t in TaskTokens(Split(f, '_'))
    decreases |files|
  {
    if |files| > 0 {
      var front := files[..|files| - 1];
      FuncTasksMembers(front);
      assert files == front + [Last(files)];
      forall t | exists f :: f in files && t in TaskTokens(Split(f, '_'))
        ensures t in FuncTasks(files)
      {
        var f :| f in files && t in TaskTokens(Split(f, '_'));
        if f != Last(files) {
          assert f in front;
        }
      }
      forall t | t in FuncTasks(files)
        ensures exists f :: f in files && t in TaskTokens(Split(f, '_'))
      {
        if t in FuncTasks(front) {
          var f :| f in front && t in TaskTokens(Split(f, '_'));
          assert f in files;
        } else {
          assert Last(files) in files;
        }
      }
    }
  }

  /** The `for file in func_files: for item in splits` loops. */
  method CollectFuncTasks(funcFiles: seq<string>) returns (funcTasks: seq<string>)
    ensures funcTasks == FuncTasks(funcFiles)
  {
    funcTasks := [];
    for i := 0 to |funcFiles|
      invariant funcTasks == FuncTasks(funcFiles[..i])
    {
      assert funcFiles[..i + 1][..i] == funcFiles[..i];
      var splits := Split(funcFiles[i], '_');
      ghost var before := funcTasks;
      for j := 0 to |splits|
        invariant funcTasks == before + TaskTokens(splits[..j])
      {
        assert splits[..j + 1][..j] == splits[..j];
        if Contains(splits[j], "task-") {
          funcTasks := funcTasks + [Drop(splits[j], 5)];
        }
      }
      assert splits[..|splits|] == splits;
    }
    assert funcFiles[..|funcFiles|] == funcFiles;
  }

  // ---------------------------------------------------------------------
  // The behavioural file of each task
  // ---------------------------------------------------------------------

  /** A raw file is the `.csv` of the participant for a task. */
  predicate IsTaskCsv(file: string, participant: string, task: string) {
    StartsWith(file, participant) && Contains(Lower(file), task) && Contains(file, ".csv")
  }

  /** One raw file entered for every task it is the `.csv` of. */
  function Enter(m: map<string, string>, file: string, tasks: seq<string>, participant: string): map<string, string>
    decreases |tasks|
  {
    if |tasks| == 0 then m
    else
      var prev := Enter(m, file, tasks[..|tasks| - 1], participant);
      if IsTaskCsv(file, participant, Last(tasks)) then prev[Last(tasks) := file] else prev
  }

  /** `task_file_dict` after the loops over the raw files and the tasks. */
  function TaskFileMap(raw: seq<string>, tasks: seq<string>, participant: string): map<string, string>
    decreases |raw|
  {
    if |raw| == 0 then map[] else Enter(TaskFileMap(raw[..|raw| - 1], tasks, participant), Last(raw), tasks, participant)
  }

  /** The last raw file, in listing order, that is the `.csv` of `task`. */
  function LastCsv(raw: seq<string>, participant: string, task: string): Option<string>
    decreases |raw|
  {
    if |raw| == 0 then None
    else if IsTaskCsv(Last(raw), participant, task) then Some(Last(raw))
    else LastCsv(raw[..|raw| - 1], participant, task)
  }

  lemma {:induction false} EnterEffect(m: map<string, string>, file: string, tasks: seq<string>, participant: string)
    ensures forall t :: t in Enter(m, file, tasks, participant) <==>
                        t in m || (t in tasks && IsTaskCsv(file, participant, t))
    ensures forall t :: t in Enter(m, file, tasks, participant) ==>
                        Enter(m, file, tasks, participant)[t] ==
                        if t in tasks && IsTaskCsv(file, participant, t) then file else m[t]
    decreases |tasks|
  {
    if |tasks| > 0 {
      var front := tasks[..|tasks| - 1];
      EnterEffect(m, file, front, participant);
      assert tasks == front + [Last(tasks)];
    }
  }

  /** A task gets a file exactly when it has a `.csv`, and then the last
      one listed: resetting `participant_task_count` for every pair means a
      second `.csv` silently replaces the first. */
  lemma {:induction false} TaskFileMapLast(raw: seq<string>, tasks: seq<string>, participant: string, t: string)
    ensures t in TaskFileMap(raw, tasks, participant) <==> t in tasks && LastCsv(raw, participant, t).Some?
    ensures t in TaskFileMap(raw, tasks, participant) ==>
            TaskFileMap(raw, tasks, participant)[t] == LastCsv(raw, participant, t).value
    decreases |raw|
  {
    if |raw| > 0 {
      TaskFileMapLast(raw[..|raw| - 1], tasks, participant, t);
      EnterEffect(TaskFileMap(raw[..|raw| - 1], tasks, participant), Last(raw), tasks, participant);
    }
  }

  /** The loops that build `task_file_dict`. The duplicate check after each
      pair can never stop the script, since the count was reset to zero
      just before and is at most one. */
  method BuildTaskFiles(raw: seq<string>, funcTasks: seq<string>, participant: string)
    returns (taskFileDict: map<string, string>)
    ensures taskFileDict == TaskFileMap(raw, funcTasks, participant)
  {
    taskFileDict := map[];
    for i := 0 to |raw|
      invariant taskFileDict == TaskFileMap(raw[..i], funcTasks, participant)
    {
      assert raw[..i + 1][..i] == raw[..i];
      var file := raw[i];
      ghost var before := taskFileDict;
      for j := 0 to |funcTasks|
        invariant taskFileDict == Enter(before, file, funcTasks[..j], participant)
      {
        assert funcTasks[..j + 1][..j] == funcTasks[..j];
        var funcTask := funcTasks[j];
        var participantTaskCount := 0;
        if StartsWith(file, participant) && Contains(Lower(file), funcTask) && Contains(file, ".csv") {
          taskFileDict := taskFileDict[funcTask := file];
          participantTaskCount := participantTaskCount + 1;
        }
        if participantTaskCount > 1 {
          assert false;
        }
      }
      assert funcTasks[..|funcTasks|] == funcTasks;
    }
    assert raw[..|raw|] == raw;
  }

  // ---------------------------------------------------------------------
  // Onsets from the PsychoPy log
  // ---------------------------------------------------------------------

  /** One line of the converted log: its time and its event text. */
  datatype LogEvent = LogEvent(time: real, event: string)

  /** The stimulus events whose times are the trial onsets. */
  predicate IsStimulus(event: string) {
    event == "encodingScene_1: autoDraw = True" || event == "retrievalScene_1A: autoDraw = True"
  }

  /** The time of the first `Keypress: 5` (the first scanner pulse). */
  function FirstPulse(log: seq<LogEvent>): Option<real>
    decreases |log|
  {
    if |log| == 0 then None
    else if log[0].event == "Keypress: 5" then Some(log[0].time)
    else FirstPulse(log[1..])
  }

  /** The first pulse is a pulse, and no earlier line is one. */
  lemma {:induction false} FirstPulseFirst(log: seq<LogEvent>)
    ensures FirstPulse(log).Some? <==> exists k :: 0 <= k < |log| && log[k].event == "Keypress: 5"
    ensures FirstPulse(log).Some? ==>
            exists k :: 0 <= k < |log| && log[k].event == "Keypress: 5" && log[k].time == FirstPulse(log).value &&
                        forall j :: 0 <= j < k ==> log[j].event != "Keypress: 5"
    decreases |log|
  {
    if |log| > 0 && log[0].event != "Keypress: 5" {
      FirstPulseFirst(log[1..]);
      if FirstPulse(log).Some? {
        var k :| 0 <= k < |log[1..]| && log[1..][k].event == "Keypress: 5" &&
                 log[1..][k].time == FirstPulse(log).value &&
                 forall j :: 0 <= j < k ==> log[1..][j].event != "Keypress: 5";
        assert log[k + 1] == log[1..][k];
        assert forall j :: 1 <= j < k + 1 ==> log[j] == log[1..][j - 1];
      }
      if exists k :: 0 <= k < |log| && log[k].event == "Keypress: 5" {
        var k :| 0 <= k < |log| && log[k].event == "Keypress: 5";
        assert log[1..][k - 1] == log[k];
      }
    }
  }

  /** The `for item in dict_list` loop with `break` that sets `starttime`;
      without a pulse `starttime` keeps what an earlier run set. */
  method FindStartTime(log: seq<LogEvent>, previous: Option<real>) returns (starttime: Option<real>)
    ensures starttime == if FirstPulse(log).Some? then FirstPulse(log) else previous
  {
    starttime := previous;
    var i := 0;
    while i < |log|
      invariant 0 <= i <= |log|
      invariant FirstPulse(log) == FirstPulse(log[i..])
      invariant starttime == previous
    {
      if log[i].event == "Keypress: 5" {
        starttime := Some(log[i].time);
        return;
      }
      assert log[i..][1..] == log[i + 1..];
      i := i + 1;
    }
  }

  /** `[d for d in dict_list if d.get('Event') in keepevents]`. */
  function Stimuli(log: seq<LogEvent>): (r: seq<LogEvent>)
    ensures forall k :: 0 <= k < |r| ==> IsStimulus(r[k].event)
    decreases |log|
  {
    if |log| == 0 then []
    else Stimuli(log[..|log| - 1]) + (if IsStimulus(Last(log).event) then [Last(log)] else [])
  }

  /** The times of the stimulus events, in log order. */
  function StimulusTimes(log: seq<LogEvent>): seq<real> {
    var stimuli := Stimuli(log);
    seq(|stimuli|, k requires 0 <= k < |stimuli| => stimuli[k].time)
  }

  /** `onsets_list`: each stimulus time minus the start time. With no
      stimulus the start time is never read; otherwise a missing one is the
      `UnboundLocalError` of an unset `starttime`. */
  function Onsets(log: seq<LogEvent>, starttime: Option<real>): (r: Result<seq<real>>)
    ensures r.Err? <==> |StimulusTimes(log)| > 0 && starttime.None?
    ensures r.Ok? ==> |r.value| == |StimulusTimes(log)|
    ensures r.Ok? && |r.value| > 0 ==>
            starttime.Some? && forall k :: 0 <= k < |r.value| ==> r.value[k] == StimulusTimes(log)[k] - starttime.value
  {
    var times := StimulusTimes(log);
    if |times| == 0 then Ok([])
    else if starttime.None? then Err(NoStartTime)
    else Ok(seq(|times|, k requires 0 <= k < |times| => times[k] - starttime.value))
  }

  const NoStartTime := "UnboundLocalError: local variable 'starttime' referenced before assignment"

  /** The `new_dict_list` filter and the loop appending to `onsets_list`. */
  method ComputeOnsets(log: seq<LogEvent>, starttime: Option<real>) returns (r: Result<seq<real>>)
    ensures r == Onsets(log, starttime)
  {
    var newDictList := Stimuli(log);
    var onsetsList: seq<real> := [];
    for i := 0 to |newDictList|
      invariant |onsetsList| == i
      invariant i > 0 ==> starttime.Some?
      invariant forall k :: 0 <= k < i ==> onsetsList[k] == newDictList[k].time - starttime.value
    {
      if starttime.None? {
        return Err(NoStartTime);
      }
      onsetsList := onsetsList + [newDictList[i].time - starttime.value];
    }
    r := Ok(onsetsList);
    if |onsetsList| > 0 {
      var times := StimulusTimes(log);
      assert onsetsList == seq(|times|, k requires 0 <= k < |times| => times[k] - starttime.value);
    }
  }

  // ---------------------------------------------------------------------
  // Coding the trials
  // ---------------------------------------------------------------------

  /** The columns of a PsychoPy trial row that the coding reads. */
  datatype Trial = Trial(encodingKeys: string, encodingRt: string, retrievalKeys: string, retrievalRt: string,
                         encodingBlock: string, retrievalBlock: string, indoorOutdoor: string, filename: string,
                         oldTrue: string)

  /** One row of an events file, its columns in file order. */
  datatype EventsRow = EventsRow(
    onset: string, duration: string, trialType: string, encodingBlock: string, retrievalBlock: string,
    oldNew: string, indoorOutdoor: string, filename: string, buttonboxSide: string, fingersSide: string,
    correctKey: string, correctResponse: string, responseRt: string, responseKey: string, response: string,
    responseScored: string, responseJudgment: string, responseConf: string, responseType: string,
    responseTypeConf: string, subsequentJudgment: string, subsequentConf: string, subsequentType: string,
    subsequentTypeConf: string)

  /** `participant_response_key`: the key, with `None` (no answer) as `n/a`. */
  function KeyField(keys: string): (r: string)
    ensures r == "n/a" <==> keys == "None" || keys == "n/a"
  {
    if keys == "None" then "n/a" else keys
  }

  /** `participant_response_rt`: an empty RT is `n/a`. */
  function RtField(rt: string): string {
    if rt != "" then rt else "n/a"
  }

  /** The participants whose left finger answers `outdoor`. */
  predicate OutdoorLeft(participantNumber: int) {
    participantNumber in {1, 2, 3, 4, 9, 10, 11, 12, 17, 18, 19, 20}
  }

  /** The coded row of an encoding trial. */
  function EncodingRow(item: Trial, outdoorLeft: bool, onset: string): EventsRow {
    var key := KeyField(item.encodingKeys);
    var correctKey :=
      if (outdoorLeft && item.indoorOutdoor == "Outdoor") || (!outdoorLeft && item.indoorOutdoor == "Indoor") then "6"
      else "1";
    var response :=
      if key == "n/a" then "n/a"
      else if (outdoorLeft && item.encodingKeys == "6") || (!outdoorLeft && item.encodingKeys == "1") then "outdoor"
      else "indoor";
    EventsRow(onset, "0.5", "encoding", item.encodingBlock, item.retrievalBlock, "old", Lower(item.indoorOutdoor),
              Lower(item.filename), if outdoorLeft then "outdoor | indoor" else "indoor | outdoor", "n/a", correctKey,
              Lower(item.indoorOutdoor), RtField(item.encodingRt), key, response,
              if key == correctKey then "correct" else "incorrect", "n/a", "n/a", "n/a", "n/a", "?", "?", "?", "?")
  }

  /** The correct key is `6` exactly for the category on the participant's
      `6` side; with one of the two answer keys and a known category, the
      answer is scored correct exactly when it names the item's category. */
  lemma EncodingScoring(item: Trial, outdoorLeft: bool, onset: string)
    ensures var r := EncodingRow(item, outdoorLeft, onset);
            (r.correctKey == "6" <==>
               (outdoorLeft && item.indoorOutdoor == "Outdoor") || (!outdoorLeft && item.indoorOutdoor == "Indoor")) &&
            (item.encodingKeys in ["1", "6"] && item.indoorOutdoor in ["Indoor", "Outdoor"] ==>
               (r.responseScored == "correct" <==> r.response == r.correctResponse))
  {
    assert Lower("Indoor") == "indoor" && Lower("Outdoor") == "outdoor";
  }

  /** No answer (`None`) gives key and answer `n/a`, scored incorrect; the
      retrieval columns are `n/a` and the subsequent-memory ones wait as
      `?`. */
  lemma EncodingNoAnswer(item: Trial, outdoorLeft: bool, onset: string)
    requires item.encodingKeys == "None"
    ensures var r := EncodingRow(item, outdoorLeft, onset);
            r.responseKey == "n/a" && r.response == "n/a" && r.responseScored == "incorrect" &&
            r.responseJudgment == "n/a" && r.responseConf == "n/a" && r.responseType == "n/a" &&
            r.responseTypeConf == "n/a" && r.subsequentJudgment == "?" && r.subsequentConf == "?" &&
            r.subsequentType == "?" && r.subsequentTypeConf == "?"
  {
  }

  /** The key and finger layout of a participant: old answers on the left
      for the first two of every four participants, high confidence on the
      index finger for every other one. */
  predicate OldLeft(participantNumber: int) {
    ((participantNumber - 1) / 2) % 2 == 0
  }

  predicate IndexHigh(participantNumber: int) {
    (participantNumber - 1) % 2 == 0
  }

  /** The layouts repeat every four participants and go through all four
      combinations. */
  lemma Counterbalancing(n: int)
    ensures OldLeft(n + 4) == OldLeft(n) && IndexHigh(n + 2) == IndexHigh(n)
    ensures OldLeft(1) && IndexHigh(1) && OldLeft(2) && !IndexHigh(2)
    ensures !OldLeft(3) && IndexHigh(3) && !OldLeft(4) && !IndexHigh(4)
  {
    assert (n + 4 - 1) / 2 == (n - 1) / 2 + 2;
  }

  /** The confidence an answer key gives. */
  function KeyConf(key: string, indexHigh: bool): string {
    if key in ["2", "7"] then "mod"
    else if key in ["1", "6"] then (if indexHigh then "high" else "low")
    else (if indexHigh then "low" else "high")
  }

  /** The answer type from the score and the item. */
  function AnswerType(scored: string, oldNew: string): string {
    if scored == "correct" then (if oldNew == "old" then "hit" else "cr")
    else (if oldNew == "old" then "miss" else "fa")
  }

  /** The coded row of a retrieval trial, before the recoding of the items
      participant 007 never saw. */
  function RetrievalBase(item: Trial, oldLeft: bool, indexHigh: bool, onset: string): EventsRow {
    var oldNew := if item.oldTrue == "1" then "old" else "new";
    var correctKey := if (oldNew == "old" && oldLeft) || (oldNew == "new" && !oldLeft) then "6/7/8" else "1/2/3";
    var key := KeyField(item.retrievalKeys);
    var scored := if Contains(correctKey, key) then "correct" else "incorrect";
    var judgment :=
      if key == "n/a" then "n/a"
      else if (oldLeft && key in ["6", "7", "8"]) || (!oldLeft && key in ["1", "2", "3"]) then "old"
      else "new";
    var kind := if key == "n/a" then "n/a" else AnswerType(scored, oldNew);
    var conf := if key == "n/a" then "n/a" else KeyConf(key, indexHigh);
    EventsRow(onset, "1.9", "retrieval", if item.encodingBlock != "" then item.encodingBlock else "n/a",
              item.retrievalBlock, oldNew, Lower(item.indoorOutdoor), Lower(item.filename),
              if oldLeft then "old | new" else "new | old", if indexHigh then "l m h | h m l" else "h m l | l m h",
              correctKey, oldNew, RtField(item.retrievalRt), key, if key == "n/a" then "n/a" else judgment + "-" + conf,
              scored, judgment, conf, kind, if key == "n/a" then "n/a" else kind + "-" + conf,
              "n/a", "n/a", "n/a", "n/a")
  }

  /** The items participant 007 lost at the end of the second encoding run.
      A comma is missing after `indoor_electronicstore.jpg`, so that entry
      and the next form one string. */
  const LostItems: seq<string> := [
    "indoor_squash_court.jpg", "indoor_hockey_rink.jpg .jpg", "outdoor_deer_blind.jpg",
    "indoor_christmaspresents.jpg", "outdoor_playground.jpg", "indoor_ballroom.jpg",
    "indoor_airplane_cabin.jpg", "outdoor_government_building.jpg", "outdoor_track.jpg",
    "indoor_electronicstore.jpg" + "indoor_fishingstore.jpg", "outdoor_empty_wheelbarrow.jpg", "indoor_drugstore.jpg",
    "outdoor_ferris_wheel.jpg", "indoor_jail.jpeg", "outdoor_rusting_sub.jpg",
    "indoor_bikestore.jpg", "outdoor_dark_intersection.jpg", "outdoor_smoke_stacks.jpg",
    "indoor_candy_store.jpg", "indoor_gymnastics.jpg", "outdoor_cityscape.jpg",
    "indoor_skydiving_tube.jpg", "outdoor_cliff.jpg", "outdoor_fancy_fence.jpg",
    "indoor_hardware_store.jpg", "outdoor_dam.jpg", "indoor_greekrestaurant.jpg",
    "indoor_officelunchroom.jpg", "indoor_funeral_chapel.jpg", "outdoor_botanical_garden.jpg",
    "outdoor_clock_tower.jpg", "outdoor_butte.jpg", "indoor_controlroom.jpg",
    "indoor_subway_station.jpg", "outdoor_tornado.jpg", "indoor_fabric_store.jpg",
    "indoor_toy_store.jpg", "indoor_officesupplies.jpg", "outdoor_old_arena.jpg",
    "outdoor_ww2_vehicles.jpg", "outdoor_pine_forest.jpg", "indoor_hair_salon.jpg",
    "outdoor_lava.jpg"]

  /** `any(filename in x for x in [...])`: a substring test. */
  predicate Lost(filename: string) {
    exists k :: 0 <= k < |LostItems| && Contains(LostItems[k], filename)
  }

  /** The missing comma loses neither of the two joined names, since the
      test is a substring test. */
  lemma LostDespiteComma()
    ensures Lost("indoor_electronicstore.jpg") && Lost("indoor_fishingstore.jpg")
  {
    var joined := LostItems[9];
    assert joined == "indoor_electronicstore.jpg" + "indoor_fishingstore.jpg";
    assert OccursAt(joined, "indoor_electronicstore.jpg", 0);
    assert OccursAt(joined, "indoor_fishingstore.jpg", 26);
  }

  /** A lost item is recoded as a new item, typed from its answer. */
  function Recoded(row: EventsRow): EventsRow {
    var r1 :=
      if Contains(row.response, "new") then ("correct", "new", "cr")
      else if Contains(row.response, "old") then ("incorrect", "old", "fa")
      else ("n/a", "n/a", "n/a");
    var r2 :=
      if Contains(row.response, "high") then "high"
      else if Contains(row.response, "mod") then "mod"
      else if Contains(row.response, "low") then "low"
      else "n/a";
    row.(encodingBlock := "n/a", oldNew := "new", correctResponse := "new", responseScored := r1.0,
         responseJudgment := r1.1, responseConf := r2, responseType := r1.2,
         responseTypeConf := if r1.0 == "n/a" then "n/a" else r1.2 + "-" + r2)
  }

  /** The coded row of a retrieval trial. */
  function RetrievalRow(item: Trial, oldLeft: bool, indexHigh: bool, participant: string, onset: string): EventsRow {
    var row := RetrievalBase(item, oldLeft, indexHigh, onset);
    if participant == "007" && Lost(row.filename) then Recoded(row) else row
  }

  /** The answer keys: 6, 7, 8 on one hand and 1, 2, 3 on the other. */
  predicate IsAnswerKey(key: string) {
    key in ["1", "2", "3", "6", "7", "8"]
  }

  /** With an answer key, the answer is scored correct exactly when the
      judgment (old or new) is the item's; the type follows the score and
      the item, the confidence the key. */
  lemma RetrievalScoring(item: Trial, oldLeft: bool, indexHigh: bool, onset: string)
    requires IsAnswerKey(item.retrievalKeys)
    ensures var r := RetrievalBase(item, oldLeft, indexHigh, onset);
            (r.responseScored == "correct" <==> r.responseJudgment == r.oldNew) &&
            r.responseType == AnswerType(r.responseScored, r.oldNew) &&
            r.responseConf == KeyConf(item.retrievalKeys, indexHigh) &&
            r.response == r.responseJudgment + "-" + r.responseConf &&
            r.responseTypeConf == r.responseType + "-" + r.responseConf
  {
    var key := item.retrievalKeys;
    assert key == [key[0]];
    ContainsChar("6/7/8", key[0]);
    ContainsChar("1/2/3", key[0]);
  }

  /** Without an answer every answer column is `n/a` and the score stays
      `incorrect`: `n/a` is in neither key list. */
  lemma RetrievalNoAnswer(item: Trial, oldLeft: bool, indexHigh: bool, onset: string)
    requires item.retrievalKeys == "None"
    ensures var r := RetrievalBase(item, oldLeft, indexHigh, onset);
            r.responseKey == "n/a" && r.response == "n/a" && r.responseJudgment == "n/a" &&
            r.responseConf == "n/a" && r.responseType == "n/a" && r.responseTypeConf == "n/a" &&
            r.responseScored == "incorrect"
  {
    assert 'n' in "n/a" && 'n' !in "6/7/8" && 'n' !in "1/2/3";
    if Contains("6/7/8", "n/a") {
      ContainsChars("6/7/8", "n/a", 'n');
      assert false;
    }
    if Contains("1/2/3", "n/a") {
      ContainsChars("1/2/3", "n/a", 'n');
      assert false;
    }
  }

  /** Mirror keys (1 and 6, 2 and 7, 3 and 8) give the same confidence, and
      the two finger layouts swap high and low. */
  lemma KeyConfMirror(indexHigh: bool)
    ensures KeyConf("1", indexHigh) == KeyConf("6", indexHigh) == (if indexHigh then "high" else "low")
    ensures KeyConf("2", indexHigh) == KeyConf("7", indexHigh) == "mod"
    ensures KeyConf("3", indexHigh) == KeyConf("8", indexHigh) == (if indexHigh then "low" else "high")
  {
  }

  /** Only participant 007's lost items are recoded; they become new items
      whose answer is a correct rejection, a false alarm or `n/a`. */
  lemma RetrievalRecoding(item: Trial, oldLeft: bool, indexHigh: bool, participant: string, onset: string)
    ensures var base, r := RetrievalBase(item, oldLeft, indexHigh, onset),
                           RetrievalRow(item, oldLeft, indexHigh, participant, onset);
            (participant != "007" || !Lost(base.filename) ==> r == base) &&
            (participant == "007" && Lost(base.filename) ==>
               r.oldNew == "new" && r.correctResponse == "new" && r.encodingBlock == "n/a" &&
               r.responseType in ["cr", "fa", "n/a"] && r.responseKey == base.responseKey &&
               r.correctKey == base.correctKey)
  {
  }

  /** The lost-item test is a substring test: a shorter name inside a listed
      entry also counts, the empty name included. */
  lemma LostSubstrings()
    ensures Lost("indoor_hockey_rink.jpg") && Lost("")
  {
    assert OccursAt(LostItems[1], "indoor_hockey_rink.jpg", 0);
    assert OccursAt(LostItems[0], "", 0);
  }

  /** How a run is coded, from its task name: `encoding` comes first, then
      `retrieval`; any other task gives a file with the header only. */
  datatype Phase = Encoding(outdoorLeft: bool) | Retrieval(oldLeft: bool, indexHigh: bool)

  function PhaseOf(taskName: string, participantNumber: int): (r: Option<Phase>)
    ensures r.Some? <==> Contains(taskName, "encoding") || Contains(taskName, "retrieval")
    ensures r.Some? && r.value.Encoding? <==> Contains(taskName, "encoding")
  {
    if Contains(taskName, "encoding") then Some(Encoding(OutdoorLeft(participantNumber)))
    else if Contains(taskName, "retrieval") then Some(Retrieval(OldLeft(participantNumber), IndexHigh(participantNumber)))
    else None
  }

  /** The answer column the phase reads; an empty one marks a null trial. */
  function ResponseKeys(item: Trial, phase: Phase): string {
    if phase.Encoding? then item.encodingKeys else item.retrievalKeys
  }

  function CodeRow(item: Trial, phase: Phase, participant: string, onset: string): EventsRow {
    match phase
    case Encoding(outdoorLeft) => EncodingRow(item, outdoorLeft, onset)
    case Retrieval(oldLeft, indexHigh) => RetrievalRow(item, oldLeft, indexHigh, participant, onset)
  }

  /** The trials that are coded, in file order. */
  function KeptTrials(items: seq<Trial>, phase: Phase): seq<Trial>
    decreases |items|
  {
    if |items| == 0 then []
    else if ResponseKeys(items[|items| - 1], phase) == "" then KeptTrials(items[..|items| - 1], phase)
    else KeptTrials(items[..|items| - 1], phase) + [items[|items| - 1]]
  }

  lemma {:induction false} KeptTrialsAppend(a: seq<Trial>, b: seq<Trial>, phase: Phase)
    ensures KeptTrials(a + b, phase) == KeptTrials(a, phase) + KeptTrials(b, phase)
    decreases |b|
  {
    if |b| == 0 {
      assert a + b == a;
    } else {
      var front := b[..|b| - 1];
      assert (a + b)[..|a + b| - 1] == a + front;
      KeptTrialsAppend(a, front, phase);
    }
  }

  /** Exactly the trials with an answer column are kept, in order. */
  lemma {:induction false} KeptTrialsMembers(items: seq<Trial>, phase: Phase)
    ensures forall t :: t in KeptTrials(items, phase) <==> t in items && ResponseKeys(t, phase) != ""
    ensures |KeptTrials(items, phase)| <= |items|
    decreases |items|
  {
    if |items| > 0 {
      var front := items[..|items| - 1];
      KeptTrialsMembers(front, phase);
      assert items == front + [items[|items| - 1]];
    }
  }

  /** The rows of a run: the `k`-th kept trial takes the `k`-th onset. */
  function CodedRows(kept: seq<Trial>, phase: Phase, participant: string, onsets: seq<string>): (r: seq<EventsRow>)
    requires |kept| <= |onsets|
    ensures |r| == |kept|
  {
    seq(|kept|, k requires 0 <= k < |kept| => CodeRow(kept[k], phase, participant, onsets[k]))
  }

  lemma CodedRowsSnoc(kept: seq<Trial>, t: Trial, phase: Phase, participant: string, onsets: seq<string>)
    requires |kept| < |onsets|
    ensures CodedRows(kept + [t], phase, participant, onsets) ==
            CodedRows(kept, phase, participant, onsets) + [CodeRow(t, phase, participant, onsets[|kept|])]
  {
    var a := CodedRows(kept + [t], phase, participant, onsets);
    var b := CodedRows(kept, phase, participant, onsets) + [CodeRow(t, phase, participant, onsets[|kept|])];
    forall k | 0 <= k < |a|
      ensures a[k] == b[k]
    {
      assert (kept + [t])[k] == if k < |kept| then kept[k] else t;
    }
  }

  /** The rows written for one run, or the error that stops the script when
      there are more answered trials than stimulus onsets. */
  function RunRows(items: seq<Trial>, phase: Option<Phase>, participant: string, onsets: seq<string>)
    : (r: Result<seq<EventsRow>>)
    ensures phase.None? ==> r == Ok([])
    ensures phase.Some? ==> (r.Err? <==> |KeptTrials(items, phase.value)| > |onsets|)
  {
    if phase.None? then Ok([])
    else
      var kept := KeptTrials(items, phase.value);
      if |kept| > |onsets| then Err("IndexError: list index out of range")
      else Ok(CodedRows(kept, phase.value, participant, onsets))
  }

  /** Every row of a run is of the run's phase and carries its onset, the
      item's file name and, for encoding, `?` in the columns subsequent
      memory fills in. */
  lemma RunRowsShape(items: seq<Trial>, phase: Option<Phase>, participant: string, onsets: seq<string>)
    requires RunRows(items, phase, participant, onsets).Ok?
    ensures var rows := RunRows(items, phase, participant, onsets).value;
            phase.Some? ==>
              |rows| == |KeptTrials(items, phase.value)| &&
              forall k :: 0 <= k < |rows| ==>
                rows[k].onset == onsets[k] &&
                rows[k].filename == Lower(KeptTrials(items, phase.value)[k].filename) &&
                (phase.value.Encoding? ==> rows[k].trialType == "encoding" && rows[k].subsequentJudgment == "?") &&
                (phase.value.Retrieval? ==> rows[k].trialType == "retrieval" && rows[k].subsequentJudgment == "n/a")
  {
  }

  /** The loop over the rows of the PsychoPy file, with `trial_count`
      indexing the onsets. */
  method CodeTrials(items: seq<Trial>, phase: Phase, participant: string, onsets: seq<string>)
    returns (r: Result<seq<EventsRow>>)
    ensures r == RunRows(items, Some(phase), participant, onsets)
  {
    var outputDictList: seq<EventsRow> := [];
    var trialCount := 0;
    for i := 0 to |items|
      invariant trialCount == |KeptTrials(items[..i], phase)| <= |onsets|
      invariant outputDictList == CodedRows(KeptTrials(items[..i], phase), phase, participant, onsets)
    {
      var item := items[i];
      assert items[..i + 1][..i] == items[..i];
      if ResponseKeys(item, phase) == "" {
        continue;
      }
      if trialCount >= |onsets| {
        KeptTrialsAppend(items[..i + 1], items[i + 1..], phase);
        assert items[..i + 1] + items[i + 1..] == items;
        return Err("IndexError: list index out of range");
      }
      var rowDict := CodeRow(item, phase, participant, onsets[trialCount]);
      CodedRowsSnoc(KeptTrials(items[..i], phase), item, phase, participant, onsets);
      outputDictList := outputDictList + [rowDict];
      trialCount := trialCount + 1;
    }
    assert items[..|items|] == items;
    r := Ok(outputDictList);
  }

  // ---------------------------------------------------------------------
  // The runs of a session
  // ---------------------------------------------------------------------

  /** `func_file_name`: the last BOLD run whose name contains the task. */
  function FuncFileFor(funcFiles: seq<string>, task: string): Option<string>
    decreases |funcFiles|
  {
    if |funcFiles| == 0 then None
    else if Contains(Last(funcFiles), task) then Some(Last(funcFiles))
    else FuncFileFor(funcFiles[..|funcFiles| - 1], task)
  }

  /** The chosen run contains the task and no later one does; there is none
      only when no run contains the task. */
  lemma {:induction false} FuncFileForLast(funcFiles: seq<string>, task: string)
    ensures FuncFileFor(funcFiles, task).None? <==> forall k :: 0 <= k < |funcFiles| ==> !Contains(funcFiles[k], task)
    ensures FuncFileFor(funcFiles, task).Some? ==>
            exists k :: 0 <= k < |funcFiles| && funcFiles[k] == FuncFileFor(funcFiles, task).value &&
                        Contains(funcFiles[k], task) &&
                        forall j :: k < j < |funcFiles| ==> !Contains(funcFiles[j], task)
    decreases |funcFiles|
  {
    if |funcFiles| > 0 {
      var front := funcFiles[..|funcFiles| - 1];
      FuncFileForLast(front, task);
      assert forall k :: 0 <= k < |front| ==> front[k] == funcFiles[k];
      if Contains(Last(funcFiles), task) {
        assert funcFiles[|funcFiles| - 1] == Last(funcFiles);
      }
    }
  }

  /** `func_folder + "/" + func_file_name[:-11] + "events.tsv"`; without a
      run for the task the slice fails on `None`. */
  function EventsPath(funcFolder: string, funcFile: Option<string>): Result<string> {
    match funcFile
    case None => Err("TypeError: 'NoneType' object has no attribute '__getitem__'")
    case Some(f) => Ok(funcFolder + "/" + DropLast(f, 11) + "events.tsv")
  }

  /** The events file of a run sits beside its BOLD image and takes its
      name with `bold.nii.gz` replaced by `events.tsv`. */
  lemma EventsPathOfBold(funcFolder: string, stem: string)
    ensures EventsPath(funcFolder, Some(stem + "bold.nii.gz")) == Ok(funcFolder + "/" + stem + "events.tsv")
  {
    var f := stem + "bold.nii.gz";
    assert DropLast(f, 11) == f[..|stem|] == stem;
  }

  /** The fixed inputs of one call: the BOLD runs, the func folder, the
      participant, the contents of the PsychoPy files (logs by log name,
      trial rows by csv name) and `str` on an onset. */
  datatype Context = Context(funcFiles: seq<string>, funcFolder: string, participantNumber: int, participant: string,
                             logs: map<string, seq<LogEvent>>, csvs: map<string, seq<Trial>>, formatOnset: real -> string)

  /** `behavioral_file_name[:-3] + 'log'` */
  function LogName(csvFile: string): string {
    DropLast(csvFile, 3) + "log"
  }

  const NoSuchFile := "IOError: No such file or directory"

  datatype RunOut = RunOut(start: Option<real>, path: string, rows: seq<EventsRow>)

  function OnsetTexts(onsets: seq<real>, formatOnset: real -> string): (r: seq<string>)
    ensures |r| == |onsets|
  {
    seq(|onsets|, k requires 0 <= k < |onsets| => formatOnset(onsets[k]))
  }

  /** One pass of the loop over `task_file_dict`: the start time it leaves
      behind, the events file it writes and its rows, or the error that
      stops the script. */
  function RunStep(ctx: Context, task: string, csvFile: string, start: Option<real>): Result<RunOut> {
    var logFile := LogName(csvFile);
    if logFile !in ctx.logs then Err(NoSuchFile)
    else
      var log := ctx.logs[logFile];
      var starttime := if FirstPulse(log).Some? then FirstPulse(log) else start;
      var onsets := Onsets(log, starttime);
      if onsets.Err? then Err(onsets.error)
      else if csvFile !in ctx.csvs then Err(NoSuchFile)
      else
        var rows := RunRows(ctx.csvs[csvFile], PhaseOf(task, ctx.participantNumber), ctx.participant,
                            OnsetTexts(onsets.value, ctx.formatOnset));
        var path := RunPath(ctx, task);
        if rows.Err? then Err(rows.error)
        else if path.Err? then Err(path.error)
        else Ok(RunOut(starttime, path.value, rows.value))
  }

  /** The events files, by path, and the error that stopped the script, if
      any. */
  datatype Outcome = Outcome(files: map<string, seq<EventsRow>>, error: Option<string>)

  /** The runs in `keys` order, each starting from the start time the
      previous one left. */
  function Runs(ctx: Context, taskFiles: map<string, string>, keys: seq<string>, start: Option<real>,
                files: map<string, seq<EventsRow>>): Outcome
    requires forall k :: 0 <= k < |keys| ==> keys[k] in taskFiles
    decreases |keys|
  {
    if |keys| == 0 then Outcome(files, None)
    else
      match RunStep(ctx, keys[0], taskFiles[keys[0]], start)
      case Err(e) => Outcome(files, Some(e))
      case Ok(out) => Runs(ctx, taskFiles, keys[1..], out.start, files[out.path := out.rows])
  }

  /** Where the run of a task is written. */
  function RunPath(ctx: Context, task: string): Result<string> {
    EventsPath(ctx.funcFolder, FuncFileFor(ctx.funcFiles, task))
  }

  lemma RunStepPath(ctx: Context, task: string, csvFile: string, start: Option<real>)
    requires RunStep(ctx, task, csvFile, start).Ok?
    ensures RunPath(ctx, task) == Ok(RunStep(ctx, task, csvFile, start).value.path)
  {
  }

  /** The rows of a run are those of its trials, with the onsets measured
      from the start time the run leaves behind. */
  lemma RunStepRows(ctx: Context, task: string, csvFile: string, start: Option<real>)
    requires RunStep(ctx, task, csvFile, start).Ok?
    ensures var out := RunStep(ctx, task, csvFile, start).value;
            var log := ctx.logs[LogName(csvFile)];
            LogName(csvFile) in ctx.logs && csvFile in ctx.csvs &&
            out.start == (if FirstPulse(log).Some? then FirstPulse(log) else start) &&
            Onsets(log, out.start).Ok? &&
            RunRows(ctx.csvs[csvFile], PhaseOf(task, ctx.participantNumber), ctx.participant,
                    OnsetTexts(Onsets(log, out.start).value, ctx.formatOnset)) == Ok(out.rows)
  {
  }

  /** Files that no run writes keep their contents. */
  lemma {:induction false} RunsFrame(ctx: Context, taskFiles: map<string, string>, keys: seq<string>,
                                     start: Option<real>, files: map<string, seq<EventsRow>>, p: string)
    requires forall k :: 0 <= k < |keys| ==> keys[k] in taskFiles
    requires forall k :: 0 <= k < |keys| ==> RunPath(ctx, keys[k]) != Ok(p)
    ensures var out := Runs(ctx, taskFiles, keys, start, files);
            (p in out.files <==> p in files) && (p in files ==> out.files[p] == files[p])
    decreases |keys|
  {
    if |keys| > 0 {
      var step := RunStep(ctx, keys[0], taskFiles[keys[0]], start);
      if step.Ok? {
        RunStepPath(ctx, keys[0], taskFiles[keys[0]], start);
        RunsFrame(ctx, taskFiles, keys[1..], step.value.start, files[step.value.path := step.value.rows], p);
      }
    }
  }

  /** The runs only ever add files. */
  lemma {:induction false} RunsKeep(ctx: Context, taskFiles: map<string, string>, keys: seq<string>,
                                    start: Option<real>, files: map<string, seq<EventsRow>>, p: string)
    requires forall k :: 0 <= k < |keys| ==> keys[k] in taskFiles
    requires p in files
    ensures p in Runs(ctx, taskFiles, keys, start, files).files
    decreases |keys|
  {
    if |keys| > 0 {
      var step := RunStep(ctx, keys[0], taskFiles[keys[0]], start);
      if step.Ok? {
        RunsKeep(ctx, taskFiles, keys[1..], step.value.start, files[step.value.path := step.value.rows], p);
      }
    }
  }

  /** Without an error, every run's events file exists afterwards. */
  lemma {:induction false} RunsWritten(ctx: Context, taskFiles: map<string, string>, keys: seq<string>,
                                       start: Option<real>, files: map<string, seq<EventsRow>>, k: int)
    requires forall k :: 0 <= k < |keys| ==> keys[k] in taskFiles
    requires 0 <= k < |keys|
    requires Runs(ctx, taskFiles, keys, start, files).error.None?
    ensures RunPath(ctx, keys[k]).Ok? && RunPath(ctx, keys[k]).value in Runs(ctx, taskFiles, keys, start, files).files
    decreases |keys|
  {
    RunsFirst(ctx, taskFiles, keys, start, files);
    var step := RunStep(ctx, keys[0], taskFiles[keys[0]], start);
    RunStepPath(ctx, keys[0], taskFiles[keys[0]], start);
    var files' := files[step.value.path := step.value.rows];
    if k == 0 {
      RunsKeep(ctx, taskFiles, keys[1..], step.value.start, files', step.value.path);
    } else {
      RunsWritten(ctx, taskFiles, keys[1..], step.value.start, files', k - 1);
      assert keys[1..][k - 1] == keys[k];
    }
  }

  /** A run loop without an error went past its first run. */
  lemma RunsFirst(ctx: Context, taskFiles: map<string, string>, keys: seq<string>,
                  start: Option<real>, files: map<string, seq<EventsRow>>)
    requires forall k :: 0 <= k < |keys| ==> keys[k] in taskFiles
    requires 0 < |keys| && Runs(ctx, taskFiles, keys, start, files).error.None?
    ensures RunStep(ctx, keys[0], taskFiles[keys[0]], start).Ok?
    ensures var out := RunStep(ctx, keys[0], taskFiles[keys[0]], start).value;
            Runs(ctx, taskFiles, keys, start, files) == Runs(ctx, taskFiles, keys[1..], out.start, files[out.path := out.rows])
  {
  }

  /** The events files of the participant, as the file system holds them. */
  class EventsFolder {
    var files: map<string, seq<EventsRow>>

    constructor (existing: map<string, seq<EventsRow>>)
      ensures files == existing
    {
      files := existing;
    }

    /** `csv.DictWriter` writing the header and `rows` to `path`. */
    method WriteEventsFile(path: string, rows: seq<EventsRow>)
      modifies this
      ensures files == old(files)[path := rows]
    {
      files := files[path := rows];
    }

    /** The `for task in task_file_dict` loop, in the order `keys` gives. */
    method CodeRuns(ctx: Context, taskFiles: map<string, string>, keys: seq<string>)
      returns (error: Option<string>)
      requires forall k :: 0 <= k < |keys| ==> keys[k] in taskFiles
      modifies this
      ensures Outcome(files, error) == Runs(ctx, taskFiles, keys, None, old(files))
    {
      var starttime: Option<real> := None;
      for i := 0 to |keys|
        invariant Runs(ctx, taskFiles, keys, None, old(files)) == Runs(ctx, taskFiles, keys[i..], starttime, files)
      {
        assert keys[i..][1..] == keys[i + 1..];
        var r := CodeRun(ctx, keys[i], taskFiles[keys[i]], starttime);
        if r.Err? {
          return Some(r.error);
        }
        starttime := r.value.start;
        WriteEventsFile(r.value.path, r.value.rows);
      }
      error := None;
    }

    /** The `for file in events_files` loop of subsequent memory. */
    method SubsequentMemory(eventsFiles: seq<string>, taskName: Option<string>, participant: string)
      returns (error: Option<string>)
      modifies this
      ensures Outcome(files, error) == Subsequent(eventsFiles, eventsFiles, taskName, participant, old(files))
    {
      var task := taskName;
      for i := 0 to |eventsFiles|
        invariant Subsequent(eventsFiles, eventsFiles, taskName, participant, old(files)) ==
                  Subsequent(eventsFiles, eventsFiles[i..], task, participant, files)
      {
        var file := eventsFiles[i];
        assert eventsFiles[i..][0] == file && eventsFiles[i..][1..] == eventsFiles[i + 1..];
        if Contains(file, "retrieval") {
          continue;
        }
        task := TimingFiles.ReadTaskName(file, task);
        if task.None? {
          return Some(NoTaskName);
        }
        if task.value == "" {
          return Some("IndexError: string index out of range");
        }
        var retrievalFiles := RetrievalFilesFor(eventsFiles, task.value);
        if file !in files {
          return Some(NoSuchFile);
        }
        var encodingDictList := files[file];
        if |retrievalFiles| == 0 {
          return Some("IndexError: list index out of range");
        }
        if retrievalFiles[0] !in files {
          return Some(NoSuchFile);
        }
        if |retrievalFiles| == 1 {
          return Some("IndexError: list index out of range");
        }
        if retrievalFiles[1] !in files {
          return Some(NoSuchFile);
        }
        var retrievalData := files[retrievalFiles[0]] + files[retrievalFiles[1]];
        var encoding := new EventsRow[|encodingDictList|](k requires 0 <= k < |encodingDictList| => encodingDictList[k]);
        assert encoding[..] == encodingDictList;
        MergeRows(encoding, retrievalData, participant);
        WriteEventsFile(file, encoding[..]);
      }
      error := None;
    }

    /** The `for session in range(1, number_of_sessions + 1)` loop that
        gathers `events_files`. */
    method CollectSessionEvents(folder: string, idPrefix: string, participant: string, numberOfSessions: nat,
                                diskOrder: seq<string>)
      returns (eventsFiles: seq<string>)
      ensures eventsFiles == SessionEventsFiles(folder, idPrefix, participant, numberOfSessions, diskOrder, files)
    {
      eventsFiles := [];
      for session := 1 to numberOfSessions + 1
        invariant eventsFiles == SessionEventsFiles(folder, idPrefix, participant, session - 1, diskOrder, files)
      {
        var funcFolder := TimingFiles.FuncFolder(folder, idPrefix, participant, Some(session));
        eventsFiles := eventsFiles + GlobIn(TimingFiles.EventsPattern(funcFolder), diskOrder, files);
      }
    }

    /** `code_data`: the BOLD runs of the func folder (`funcListing`), their
        PsychoPy files in the raw folder (`rawListing`), one events file per
        run, and subsequent memory in the last session. */
    method CodeData(session: int, numberOfSessions: nat, folder: string, funcFolder: string, participantNumber: int,
                    participant: string, idPrefix: string, funcListing: seq<string>, rawListing: seq<string>,
                    keys: seq<string>, logs: map<string, seq<LogEvent>>, csvs: map<string, seq<Trial>>,
                    formatOnset: real -> string, diskOrder: seq<string>)
      returns (error: Option<string>)
      requires KeyOrder(keys, TaskFileMap(rawListing, FuncTasks(FuncFiles(funcListing)), participant))
      modifies this
      ensures var ctx := Context(FuncFiles(funcListing), funcFolder, participantNumber, participant, logs, csvs, formatOnset);
              Outcome(files, error) ==
              CodeDataOutcome(ctx, TaskFileMap(rawListing, FuncTasks(FuncFiles(funcListing)), participant), keys,
                              session, numberOfSessions, folder, idPrefix, diskOrder, old(files))
    {
      var funcFiles := FuncFiles(funcListing);
      var funcTasks := CollectFuncTasks(funcFiles);
      var taskFileDict := BuildTaskFiles(rawListing, funcTasks, participant);
      var ctx := Context(funcFiles, funcFolder, participantNumber, participant, logs, csvs, formatOnset);
      error := CodeRuns(ctx, taskFileDict, keys);
      if error.Some? || session != numberOfSessions {
        return;
      }
      var eventsFiles := CollectSessionEvents(folder, idPrefix, participant, numberOfSessions, diskOrder);
      error := SubsequentMemory(eventsFiles, if |keys| > 0 then Some(Last(keys)) else None, participant);
    }
  }

  /** One run: the start time, the onsets, the rows and the output path. */
  method CodeRun(ctx: Context, task: string, csvFile: string, previous: Option<real>) returns (r: Result<RunOut>)
    ensures r == RunStep(ctx, task, csvFile, previous)
  {
    var funcFileName := FuncFileFor(ctx.funcFiles, task);
    var logfile := LogName(csvFile);
    if logfile !in ctx.logs {
      return Err(NoSuchFile);
    }
    var starttime := FindStartTime(ctx.logs[logfile], previous);
    var onsetsList := ComputeOnsets(ctx.logs[logfile], starttime);
    if onsetsList.Err? {
      return Err(onsetsList.error);
    }
    if csvFile !in ctx.csvs {
      return Err(NoSuchFile);
    }
    var onsets := OnsetTexts(onsetsList.value, ctx.formatOnset);
    var phase := PhaseOf(task, ctx.participantNumber);
    var outputDictList: Result<seq<EventsRow>> := Ok([]);
    if phase.Some? {
      outputDictList := CodeTrials(ctx.csvs[csvFile], phase.value, ctx.participant, onsets);
    }
    if outputDictList.Err? {
      return Err(outputDictList.error);
    }
    var outputFilePath := EventsPath(ctx.funcFolder, funcFileName);
    assert outputFilePath == RunPath(ctx, task);
    if outputFilePath.Err? {
      return Err(outputFilePath.error);
    }
    r := Ok(RunOut(starttime, outputFilePath.value, outputDictList.value));
  }

  // ---------------------------------------------------------------------
  // Subsequent memory
  // ---------------------------------------------------------------------

  /** An encoding row with the four subsequent-memory columns taken from a
      retrieval row. */
  function TakeSubsequent(row: EventsRow, from: EventsRow): EventsRow {
    row.(subsequentJudgment := from.responseJudgment, subsequentConf := from.responseConf,
         subsequentType := from.responseType, subsequentTypeConf := from.responseTypeConf)
  }

  /** The inner loop over `retrieval_data`: every retrieval row with the
      same file name overwrites the four columns. */
  function Absorb(row: EventsRow, retrieval: seq<EventsRow>): EventsRow
    decreases |retrieval|
  {
    if |retrieval| == 0 then row
    else
      var r := Absorb(row, retrieval[..|retrieval| - 1]);
      if r.filename == Last(retrieval).filename then TakeSubsequent(r, Last(retrieval)) else r
  }

  /** The last retrieval row showing the item. */
  function LastWithFile(retrieval: seq<EventsRow>, filename: string): Option<EventsRow>
    decreases |retrieval|
  {
    if |retrieval| == 0 then None
    else if Last(retrieval).filename == filename then Some(Last(retrieval))
    else LastWithFile(retrieval[..|retrieval| - 1], filename)
  }

  /** The last retrieval row of the item wins; an item never retrieved
      keeps its row. */
  lemma {:induction false} AbsorbLast(row: EventsRow, retrieval: seq<EventsRow>)
    ensures Absorb(row, retrieval) ==
            match LastWithFile(retrieval, row.filename)
            case None => row
            case Some(x) => TakeSubsequent(row, x)
    decreases |retrieval|
  {
    if |retrieval| > 0 {
      AbsorbLast(row, retrieval[..|retrieval| - 1]);
    }
  }

  /** Participant 014 never saw `outdoor_cebu_tops.jpg` at retrieval. */
  function CebuOverride(row: EventsRow, participant: string): EventsRow {
    if row.filename == "outdoor_cebu_tops.jpg" && participant == "014" then
      row.(subsequentJudgment := "n/a", subsequentConf := "n/a", subsequentType := "n/a", subsequentTypeConf := "n/a")
    else row
  }

  function Merged(row: EventsRow, retrieval: seq<EventsRow>, participant: string): EventsRow {
    CebuOverride(Absorb(row, retrieval), participant)
  }

  /** The encoding rows after subsequent memory. */
  function MergedRows(rows: seq<EventsRow>, retrieval: seq<EventsRow>, participant: string): (r: seq<EventsRow>)
    ensures |r| == |rows|
  {
    seq(|rows|, k requires 0 <= k < |rows| => Merged(rows[k], retrieval, participant))
  }

  /** Two rows that differ at most in the subsequent-memory columns. */
  predicate SameExceptSubsequent(a: EventsRow, b: EventsRow) {
    a.(subsequentJudgment := "", subsequentConf := "", subsequentType := "", subsequentTypeConf := "") ==
    b.(subsequentJudgment := "", subsequentConf := "", subsequentType := "", subsequentTypeConf := "")
  }

  /** Subsequent memory changes only the four subsequent columns of each
      row; an item retrieved gets the last retrieval answer, one never
      retrieved keeps its `?` (outside the cebu override), and the override
      always gives `n/a`. */
  lemma MergedRowsEffect(rows: seq<EventsRow>, retrieval: seq<EventsRow>, participant: string, k: int)
    requires 0 <= k < |rows|
    ensures var m, row := MergedRows(rows, retrieval, participant)[k], rows[k];
            SameExceptSubsequent(m, row) &&
            (row.filename == "outdoor_cebu_tops.jpg" && participant == "014" ==>
               m.subsequentJudgment == m.subsequentConf == m.subsequentType == m.subsequentTypeConf == "n/a") &&
            (!(row.filename == "outdoor_cebu_tops.jpg" && participant == "014") ==>
               match LastWithFile(retrieval, row.filename)
               case None => m == row
               case Some(x) =>
                 m.subsequentJudgment == x.responseJudgment && m.subsequentConf == x.responseConf &&
                 m.subsequentType == x.responseType && m.subsequentTypeConf == x.responseTypeConf)
  {
    AbsorbLast(rows[k], retrieval);
  }

  /** The merge, in place on the encoding rows. */
  method MergeRows(encoding: array<EventsRow>, retrievalData: seq<EventsRow>, participant: string)
    modifies encoding
    ensures encoding[..] == MergedRows(old(encoding[..]), retrievalData, participant)
  {
    for i := 0 to encoding.Length
      invariant forall k :: 0 <= k < i ==> encoding[k] == Merged(old(encoding[k]), retrievalData, participant)
      invariant forall k :: i <= k < encoding.Length ==> encoding[k] == old(encoding[k])
    {
      var encodingItem := AbsorbRetrieval(encoding[i], retrievalData);
      if encodingItem.filename == "outdoor_cebu_tops.jpg" && participant == "014" {
        encodingItem := encodingItem.(subsequentJudgment := "n/a", subsequentConf := "n/a", subsequentType := "n/a",
                                      subsequentTypeConf := "n/a");
      }
      encoding[i] := encodingItem;
    }
  }

  /** The inner `for retrieval_item in retrieval_data` loop for one row. */
  method AbsorbRetrieval(encodingItem: EventsRow, retrievalData: seq<EventsRow>) returns (r: EventsRow)
    ensures r == Absorb(encodingItem, retrievalData)
  {
    r := encodingItem;
    for j := 0 to |retrievalData|
      invariant r == Absorb(encodingItem, retrievalData[..j])
    {
      assert retrievalData[..j + 1][..j] == retrievalData[..j];
      if r.filename == retrievalData[j].filename {
        r := TakeSubsequent(r, retrievalData[j]);
      }
    }
    assert retrievalData[..|retrievalData|] == retrievalData;
  }

  /** `retrieval_files`: the A then the B retrieval runs of the task's
      number. */
  function RetrievalFilesFor(eventsFiles: seq<string>, task: string): seq<string>
    requires |task| > 0
  {
    Containing(eventsFiles, "task-retrieval" + [Last(task)] + "a") +
    Containing(eventsFiles, "task-retrieval" + [Last(task)] + "b")
  }

  const NoTaskName := "UnboundLocalError: local variable 'task_name' referenced before assignment"

  /** The loop over `events_files`, from the file `rest[0]` on, with the
      task name the earlier files left; `eventsFiles` is the whole list. */
  function Subsequent(eventsFiles: seq<string>, rest: seq<string>, taskName: Option<string>, participant: string,
                      files: map<string, seq<EventsRow>>): Outcome
    decreases |rest|
  {
    if |rest| == 0 then Outcome(files, None)
    else
      var file := rest[0];
      if Contains(file, "retrieval") then Subsequent(eventsFiles, rest[1..], taskName, participant, files)
      else
        var task := TimingFiles.TaskAfter(taskName, file);
        if task.None? then Outcome(files, Some(NoTaskName))
        else if task.value == "" then Outcome(files, Some("IndexError: string index out of range"))
        else
          var retrievalFiles := RetrievalFilesFor(eventsFiles, task.value);
          if file !in files then Outcome(files, Some(NoSuchFile))
          else if |retrievalFiles| == 0 then Outcome(files, Some("IndexError: list index out of range"))
          else if retrievalFiles[0] !in files then Outcome(files, Some(NoSuchFile))
          else if |retrievalFiles| == 1 then Outcome(files, Some("IndexError: list index out of range"))
          else if retrievalFiles[1] !in files then Outcome(files, Some(NoSuchFile))
          else
            var merged := MergedRows(files[file], files[retrievalFiles[0]] + files[retrievalFiles[1]], participant);
            Subsequent(eventsFiles, rest[1..], task, participant, files[file := merged])
  }

  /** Subsequent memory rewrites only listed files without `retrieval` in
      their path, and only ever changes their subsequent-memory columns. */
  lemma {:induction false} SubsequentFrame(eventsFiles: seq<string>, rest: seq<string>, taskName: Option<string>,
                                           participant: string, files: map<string, seq<EventsRow>>, p: string)
    requires p in files
    ensures var out := Subsequent(eventsFiles, rest, taskName, participant, files).files;
            p in out && |out[p]| == |files[p]| &&
            (forall k :: 0 <= k < |files[p]| ==> SameExceptSubsequent(out[p][k], files[p][k])) &&
            (p !in rest || Contains(p, "retrieval") ==> out[p] == files[p])
    decreases |rest|
  {
    if |rest| > 0 {
      var file := rest[0];
      var task := TimingFiles.TaskAfter(taskName, file);
      if !Contains(file, "retrieval") && task.Some? && task.value != "" {
        var retrievalFiles := RetrievalFilesFor(eventsFiles, task.value);
        if file in files && |retrievalFiles| >= 2 && retrievalFiles[0] in files && retrievalFiles[1] in files {
          var retrieval := files[retrievalFiles[0]] + files[retrievalFiles[1]];
          var files' := files[file := MergedRows(files[file], retrieval, participant)];
          SubsequentFrame(eventsFiles, rest[1..], task, participant, files', p);
          if p == file {
            forall k | 0 <= k < |files[p]|
              ensures SameExceptSubsequent(files'[p][k], files[p][k])
            {
              MergedRowsEffect(files[p], retrieval, participant, k);
            }
          }
        } else {
          assert Subsequent(eventsFiles, rest, taskName, participant, files).files == files;
        }
      } else if Contains(file, "retrieval") {
        SubsequentFrame(eventsFiles, rest[1..], taskName, participant, files, p);
      }
    }
  }

  /** `glob.glob(pattern)`: the events files present that match, in the
      order the file system lists them (`diskOrder`). */
  function GlobIn(pattern: string, diskOrder: seq<string>, files: map<string, seq<EventsRow>>): (r: seq<string>)
    ensures forall p :: p in r <==> p in diskOrder && p in files && Glob.Match(pattern, p)
    decreases |diskOrder|
  {
    if |diskOrder| == 0 then []
    else
      var p := Last(diskOrder);
      GlobIn(pattern, diskOrder[..|diskOrder| - 1], files) + (if p in files && Glob.Match(pattern, p) then [p] else [])
  }

  /** `events_files`: the events files of sessions `1..n`, session by
      session. */
  function SessionEventsFiles(folder: string, idPrefix: string, participant: string, n: nat, diskOrder: seq<string>,
                              files: map<string, seq<EventsRow>>): seq<string>
    decreases n
  {
    if n == 0 then []
    else SessionEventsFiles(folder, idPrefix, participant, n - 1, diskOrder, files) +
         GlobIn(TimingFiles.EventsPattern(TimingFiles.FuncFolder(folder, idPrefix, participant, Some(n))),
                diskOrder, files)
  }

  /** `task_file_dict` iterated in `keys` order: each key once. */
  predicate KeyOrder(keys: seq<string>, m: map<string, string>) {
    (forall k :: 0 <= k < |keys| ==> keys[k] in m) &&
    (forall t :: t in m ==> t in keys) &&
    (forall i, j :: 0 <= i < j < |keys| ==> keys[i] != keys[j])
  }

  /** What `code_data` leaves behind: the runs of this session, then, in
      the last session, subsequent memory over the events files of all
      sessions, starting with `task_name` as the last run left it. */
  function CodeDataOutcome(ctx: Context, taskFiles: map<string, string>, keys: seq<string>, session: int,
                           numberOfSessions: nat, folder: string, idPrefix: string, diskOrder: seq<string>,
                           files: map<string, seq<EventsRow>>): Outcome
    requires KeyOrder(keys, taskFiles)
  {
    var runs := Runs(ctx, taskFiles, keys, None, files);
    if runs.error.Some? || session != numberOfSessions then runs
    else
      var eventsFiles := SessionEventsFiles(folder, idPrefix, ctx.participant, numberOfSessions, diskOrder, runs.files);
      Subsequent(eventsFiles, eventsFiles, if |keys| > 0 then Some(Last(keys)) else None, ctx.participant, runs.files)
  }

  /** When `code_data` finishes, every run of the session has its events
      file, and the files no run wrote differ from before at most in their
      subsequent-memory columns. */
  lemma CodeDataWritten(ctx: Context, taskFiles: map<string, string>, keys: seq<string>, session: int,
                        numberOfSessions: nat, folder: string, idPrefix: string, diskOrder: seq<string>,
                        files: map<string, seq<EventsRow>>)
    requires KeyOrder(keys, taskFiles)
    ensures var out := CodeDataOutcome(ctx, taskFiles, keys, session, numberOfSessions, folder, idPrefix, diskOrder, files);
            out.error.None? ==>
              (forall k :: 0 <= k < |keys| ==> RunPath(ctx, keys[k]).Ok? && RunPath(ctx, keys[k]).value in out.files) &&
              (forall p :: p in files && (forall k :: 0 <= k < |keys| ==> RunPath(ctx, keys[k]) != Ok(p)) ==>
                 p in out.files && |out.files[p]| == |files[p]| &&
                 forall j :: 0 <= j < |files[p]| ==> SameExceptSubsequent(out.files[p][j], files[p][j]))
  {
    var runs := Runs(ctx, taskFiles, keys, None, files);
    var out := CodeDataOutcome(ctx, taskFiles, keys, session, numberOfSessions, folder, idPrefix, diskOrder, files);
    if out.error.None? {
      assert runs.error.None?;
      var eventsFiles := SessionEventsFiles(folder, idPrefix, ctx.participant, numberOfSessions, diskOrder, runs.files);
      var taskName := if |keys| > 0 then Some(Last(keys)) else None;
      forall k | 0 <= k < |keys|
        ensures RunPath(ctx, keys[k]).Ok? && RunPath(ctx, keys[k]).value in out.files
      {
        RunsWritten(ctx, taskFiles, keys, None, files, k);
        if session == numberOfSessions {
          SubsequentFrame(eventsFiles, eventsFiles, taskName, ctx.participant, runs.files, RunPath(ctx, keys[k]).value);
        }
      }
      forall p | p in files && (forall k :: 0 <= k < |keys| ==> RunPath(ctx, keys[k]) != Ok(p))
        ensures p in out.files && |out.files[p]| == |files[p]|
        ensures forall j :: 0 <= j < |files[p]| ==> SameExceptSubsequent(out.files[p][j], files[p][j])
      {
        RunsFrame(ctx, taskFiles, keys, None, files, p);
        if session == numberOfSessions {
          SubsequentFrame(eventsFiles, eventsFiles, taskName, ctx.participant, runs.files, p);
        } else {
          assert out.files[p] == files[p];
        }
      }
    }
  }
}
