/** LME_ROI_magnitudes.py: the folder choices, the ROI list, the subject
    folders, the trial count read from `3dinfo -verb`, and the rows of the
    magnitude table written as CSV. The windows, the AFNI commands and the
    file system are parameters: `onDisk` answers `os.path.exists` and
    `read` gives a file's text. */
module LmeRoi {
  import opened Wrappers
  import opened PyStr
  import Glob

  /** The module-level names the entry window fills in; `None` until set. */
  class Folders {
    var directory: Option<string>
    var directoy: Option<string>
    var masksFolder: Option<string>
    var folderName: Option<string>

    constructor ()
      ensures directory == None && directoy == None && masksFolder == None && folderName == None
    {
      directory := None;
      directoy := None;
      masksFolder := None;
      folderName := None;
    }

    /** `entry_fields`: the first entry is bound to the misspelled name, so
        `directory` keeps whatever it held. */
    method EntryFields(e1: string, e2: string, e3: string)
      modifies this
      ensures directoy == Some(e1) && masksFolder == Some(e2) && folderName == Some(e3)
      ensures directory == old(directory)
    {
      directoy := Some(e1);
      masksFolder := Some(e2);
      folderName := Some(e3);
    }
  }

  /** What Python 2's `os.path.join` raises when its first argument is `None`. */
  const NoneJoin := "AttributeError: 'NoneType' object has no attribute 'endswith'"

  /** `os.path.join(directory, "LME_results")` */
  function OutputDirectory(directory: Option<string>): (r: Result<string>)
    ensures r.Err? <==> directory == None
    ensures r.Err? ==> r.error == NoneJoin
    ensures r.Ok? ==> EndsWith(r.value, "LME_results")
  {
    match directory
    case None => Err(NoneJoin)
    case Some(d) => Ok(PathJoin(d, "LME_results"))
  }

  /** The script from its globals to `output_directory`: whatever is typed
      into the three entries, the join fails. The script reaches the join
      whenever `os.listdir` can list the typed masks folder; the listing
      is not modelled. */
  method SelectFolders(e1: string, e2: string, e3: string) returns (r: Result<string>)
    ensures r == Err(NoneJoin)
  {
    var folders := new Folders();
    folders.EntryFields(e1, e2, e3);
    r := OutputDirectory(folders.directory);
  }

  /** The ROI names: every mask file with `.HEAD` in it, less its last ten
      characters (`+tlrc.HEAD`). */
  function Rois(roiFiles: seq<string>): (r: seq<string>)
    ensures |r| <= |roiFiles|
    decreases |roiFiles|
  {
    if |roiFiles| == 0 then []
    else
      var front := Rois(roiFiles[..|roiFiles| - 1]);
      if Contains(Last(roiFiles), ".HEAD") then front + [DropLast(Last(roiFiles), 10)] else front
  }

  method CollectRois(roiFiles: seq<string>) returns (rois: seq<string>)
    ensures rois == Rois(roiFiles)
  {
    rois := [];
    for i := 0 to |roiFiles|
      invariant rois == Rois(roiFiles[..i])
    {
      assert roiFiles[..i + 1][..i] == roiFiles[..i];
      if Contains(roiFiles[i], ".HEAD") {
        rois := rois + [DropLast(roiFiles[i], 10)];
      }
    }
    assert roiFiles[..|roiFiles|] == roiFiles;
  }

  /** Every mask file with `.HEAD` in it, and only those, names an ROI. */
  lemma {:induction false} RoisMembers(roiFiles: seq<string>)
    ensures forall x :: x in Rois(roiFiles) <==> exists f :: f in roiFiles && Contains(f, ".HEAD") && x == DropLast(f, 10)
    decreases |roiFiles|
  {
    if |roiFiles| > 0 {
      var front := roiFiles[..|roiFiles| - 1];
      RoisMembers(front);
      assert roiFiles == front + [Last(roiFiles)];
    }
  }

  /** The header of an AFNI mask `<stem>+tlrc.HEAD` gives back `<stem>`. */
  lemma MaskStem(stem: string)
    ensures Contains(stem + "+tlrc.HEAD", ".HEAD")
    ensures DropLast(stem + "+tlrc.HEAD", 10) == stem
  {
    var f := stem + "+tlrc.HEAD";
    assert OccursAt(f, ".HEAD", |stem| + 5);
  }

  /** `os.path.join(directory, item, item[5:] + ".results", folder_name)` */
  function GlmFolder(directory: string, item: string, folderName: string): string {
    PathJoin(PathJoin(PathJoin(directory, item), Drop(item, 5) + ".results"), folderName)
  }

  /** The subject folders: the listed items whose GLM folder exists. */
  method SubjectFolders(directory: string, listAll: seq<string>, folderName: string, onDisk: string -> bool)
    returns (subjectFolders: seq<string>)
    ensures forall item :: item in subjectFolders <==> item in listAll && onDisk(GlmFolder(directory, item, folderName))
    ensures subjectFolders == Filter(listAll, item => onDisk(GlmFolder(directory, item, folderName)))
  {
    var used := item => onDisk(GlmFolder(directory, item, folderName));
    subjectFolders := [];
    for i := 0 to |listAll|
      invariant subjectFolders == Filter(listAll[..i], used)
    {
      assert listAll[..i + 1][..i] == listAll[..i];
      if onDisk(GlmFolder(directory, listAll[i], folderName)) {
        subjectFolders := subjectFolders + [listAll[i]];
      }
    }
    assert listAll[..|listAll|] == listAll;
    FilterMembers(listAll, used);
  }

  /** The `fnmatch` pattern of a regression coefficient's label. */
  const CoefPattern := "'*#*_Coef'"

  predicate IsTrialLabel(t: string) {
    Glob.Match(CoefPattern, t)
  }

  /** The shape the pattern asks for: a quote, then a `#` somewhere after it,
      then after the `#` a text ending in `_Coef'`. */
  predicate CoefLabel(t: string) {
    |t| > 0 && t[0] == '\'' && exists i :: 1 <= i < |t| && t[i] == '#' && EndsWith(t[i + 1..], "_Coef'")
  }

  lemma HashTail(u: string)
    ensures Glob.Match("#*_Coef'", u) <==> |u| > 0 && u[0] == '#' && EndsWith(u[1..], "_Coef'")
  {
    var p := "#*_Coef'";
    assert p[1..] == "*" + "_Coef'";
    Glob.MatchStarLiteral("_Coef'", if |u| > 0 then u[1..] else u);
  }

  /** The labels the glob counts are exactly those of the described shape. */
  lemma {:induction false} TrialLabelShape(t: string)
    ensures IsTrialLabel(t) <==> CoefLabel(t)
  {
    var p := CoefPattern;
    var q := "#*_Coef'";
    assert p[0] == '\'' && p[1..] == "*" + q;
    if |t| > 0 && t[0] == '\'' {
      var u := t[1..];
      Glob.MatchStarSplit(q, u);
      if Glob.Match(p[1..], u) {
        var j :| 0 <= j <= |u| && Glob.Match(q, u[j..]);
        HashTail(u[j..]);
        assert u[j..] == t[j + 1..] && u[j..][1..] == t[j + 2..];
        assert 1 <= j + 1 < |t| && t[j + 1] == '#' && EndsWith(t[j + 2..], "_Coef'");
      }
      if CoefLabel(t) {
        var i :| 1 <= i < |t| && t[i] == '#' && EndsWith(t[i + 1..], "_Coef'");
        assert u[i - 1..] == t[i..] && u[i - 1..][1..] == t[i + 1..];
        HashTail(u[i - 1..]);
      }
    }
  }

  /** `len(fnmatch.filter(file_data.split(" "), "'*#*_Coef'"))` */
  function TrialCount(fileData: string): nat {
    |Filter(Split(fileData, ' '), IsTrialLabel)|
  }

  /** The tokens counted are the coefficient labels among the space-split
      pieces, and no others. */
  lemma TrialCountTokens(fileData: string)
    ensures TrialCount(fileData) <= |Split(fileData, ' ')|
    ensures forall t :: t in Filter(Split(fileData, ' '), IsTrialLabel) <==> t in Split(fileData, ' ') && CoefLabel(t)
  {
    FilterMembers(Split(fileData, ' '), IsTrialLabel);
    forall t {
      TrialLabelShape(t);
    }
    FilterLength(Split(fileData, ' '), IsTrialLabel);
  }

  lemma {:induction false} FilterLength(xs: seq<string>, keep: string -> bool)
    ensures |Filter(xs, keep)| <= |xs|
    decreases |xs|
  {
    if |xs| > 0 {
      FilterLength(xs[..|xs| - 1], keep);
    }
  }

  /** `range(0, trial_number - 1)` */
  function Trials(trialNumber: nat): seq<nat> {
    seq(if trialNumber == 0 then 0 else trialNumber - 1, k => k)
  }

  /** One trial fewer than counted is extracted: the last, `trial_number - 1`,
      never is, and with no trial counted none is. */
  lemma TrialsDropLast(trialNumber: nat)
    ensures |Trials(trialNumber)| == if trialNumber == 0 then 0 else trialNumber - 1
    ensures forall t: nat :: t in Trials(trialNumber) <==> t + 1 < trialNumber
    ensures trialNumber > 0 ==> trialNumber - 1 !in Trials(trialNumber)
  {
    forall t: nat | t + 1 < trialNumber
      ensures t in Trials(trialNumber)
    {
      assert Trials(trialNumber)[t] == t;
    }
  }

  /** One row of the table. */
  type Row = map<string, string>

  /** `readline()`: the text up to and including the first line break. */
  function ReadLine(contents: string): (r: string)
    ensures StartsWith(contents, r)
    ensures r == contents || EndsWith(r, "\n")
  {
    var i := Find(contents, "\n", 0);
    if i < 0 then contents else contents[..i + 1]
  }

  /** `output_directory + '/%s.ave.%s.trial%s.txt' % (subject, ROI, trial)` */
  function AverageFile(outputDirectory: string, subject: string, roi: string, trial: nat): string {
    outputDirectory + "/" + subject + ".ave." + roi + ".trial" + NatToStr(trial) + ".txt"
  }

  /** `readline().split(" ")[0]` of an average file. */
  function Magnitude(read: string -> string, path: string): string {
    Split(ReadLine(read(path)), ' ')[0]
  }

  function FirstRow(subject: string, trial: nat): Row {
    map["Participant" := subject, "Trial" := NatToStr(trial)]
  }

  /** `trial_dict`, after the ROIs given have been entered in order. */
  function TrialRow(outputDirectory: string, subject: string, trial: nat, rois: seq<string>, read: string -> string): Row
    decreases |rois|
  {
    if |rois| == 0 then FirstRow(subject, trial)
    else
      var roi := Last(rois);
      TrialRow(outputDirectory, subject, trial, rois[..|rois| - 1], read)[roi := Magnitude(read, AverageFile(outputDirectory, subject, roi, trial))]
  }

  method FillRow(outputDirectory: string, subject: string, trial: nat, rois: seq<string>, read: string -> string)
    returns (trialDict: Row)
    ensures trialDict == TrialRow(outputDirectory, subject, trial, rois, read)
  {
    trialDict := map[];
    trialDict := trialDict["Participant" := subject];
    trialDict := trialDict["Trial" := NatToStr(trial)];
    for i := 0 to |rois|
      invariant trialDict == TrialRow(outputDirectory, subject, trial, rois[..i], read)
    {
      assert rois[..i + 1][..i] == rois[..i];
      var magnitudeData := ReadLine(read(AverageFile(outputDirectory, subject, rois[i], trial)));
      var splits := Split(magnitudeData, ' ');
      trialDict := trialDict[rois[i] := splits[0]];
    }
    assert rois[..|rois|] == rois;
  }

  /** `['Participant', 'Trial'] + ROIs` */
  function Columns(rois: seq<string>): seq<string> {
    ["Participant", "Trial"] + rois
  }

  /** A row holds exactly the header's columns. */
  lemma {:induction false} TrialRowKeys(outputDirectory: string, subject: string, trial: nat, rois: seq<string>, read: string -> string)
    ensures TrialRow(outputDirectory, subject, trial, rois, read).Keys == set c | c in Columns(rois)
    decreases |rois|
  {
    if |rois| > 0 {
      var front := rois[..|rois| - 1];
      TrialRowKeys(outputDirectory, subject, trial, front, read);
      assert Columns(rois) == Columns(front) + [Last(rois)];
    }
  }

  /** Each ROI's cell holds the first token of that ROI's own average file. */
  lemma {:induction false} TrialRowMagnitudes(outputDirectory: string, subject: string, trial: nat, rois: seq<string>, read: string -> string)
    ensures forall roi :: roi in rois ==>
      (roi in TrialRow(outputDirectory, subject, trial, rois, read) &&
       TrialRow(outputDirectory, subject, trial, rois, read)[roi] == Magnitude(read, AverageFile(outputDirectory, subject, roi, trial)))
    decreases |rois|
  {
    if |rois| > 0 {
      var front := rois[..|rois| - 1];
      TrialRowMagnitudes(outputDirectory, subject, trial, front, read);
      assert rois == front + [Last(rois)];
    }
  }

  /** Unless an ROI is named like them, the two fixed cells hold the
      subject and the trial. */
  lemma {:induction false} TrialRowFixed(outputDirectory: string, subject: string, trial: nat, rois: seq<string>, read: string -> string)
    requires "Participant" !in rois && "Trial" !in rois
    ensures var row := TrialRow(outputDirectory, subject, trial, rois, read);
      "Participant" in row && row["Participant"] == subject && "Trial" in row && row["Trial"] == NatToStr(trial)
    decreases |rois|
  {
    if |rois| > 0 {
      var front := rois[..|rois| - 1];
      assert Last(rois) in rois;
      TrialRowFixed(outputDirectory, subject, trial, front, read);
    }
  }

  /** The rows of one subject, one per trial given. */
  function TrialRows(outputDirectory: string, subject: string, trials: seq<nat>, rois: seq<string>, read: string -> string): seq<Row>
    decreases |trials|
  {
    if |trials| == 0 then []
    else TrialRows(outputDirectory, subject, trials[..|trials| - 1], rois, read) + [TrialRow(outputDirectory, subject, Last(trials), rois, read)]
  }

  lemma {:induction false} TrialRowsAt(outputDirectory: string, subject: string, trials: seq<nat>, rois: seq<string>, read: string -> string, k: nat)
    requires k < |trials|
    ensures |TrialRows(outputDirectory, subject, trials, rois, read)| == |trials|
    ensures TrialRows(outputDirectory, subject, trials, rois, read)[k] == TrialRow(outputDirectory, subject, trials[k], rois, read)
    decreases |trials|
  {
    var front := trials[..|trials| - 1];
    TrialRowsLength(outputDirectory, subject, front, rois, read);
    if k < |front| {
      TrialRowsAt(outputDirectory, subject, front, rois, read, k);
    }
  }

  lemma {:induction false} TrialRowsLength(outputDirectory: string, subject: string, trials: seq<nat>, rois: seq<string>, read: string -> string)
    ensures |TrialRows(outputDirectory, subject, trials, rois, read)| == |trials|
    decreases |trials|
  {
    if |trials| > 0 {
      TrialRowsLength(outputDirectory, subject, trials[..|trials| - 1], rois, read);
    }
  }

  /** The script's folders and the file system it reads. */
  datatype Study = Study(directory: string, outputDirectory: string, folderName: string,
                         read: string -> string, onDisk: string -> bool)

  const StatsInfo := "stats_info_temp.txt"

  /** `GLM_folder + "/AllTrials_Betas_%s+tlrc.BRIK" % subject` */
  function BetasFile(glm: string, subject: string): string {
    glm + "/AllTrials_Betas_" + subject + "+tlrc.BRIK"
  }

  /** Whether the subject folder's betas bucket exists. */
  predicate HasBetas(study: Study, subjectFolder: string) {
    study.onDisk(BetasFile(GlmFolder(study.directory, subjectFolder, study.folderName), Drop(subjectFolder, 5)))
  }

  /** The count read from the subject folder's `stats_info_temp.txt`. */
  function TrialNumber(study: Study, subjectFolder: string): nat {
    TrialCount(study.read(PathJoin(GlmFolder(study.directory, subjectFolder, study.folderName), StatsInfo)))
  }

  /** The trials a subject folder contributes: none without its betas
      bucket, else those `range(0, trial_number - 1)` gives. */
  function SubjectTrials(study: Study, subjectFolder: string): seq<nat> {
    if HasBetas(study, subjectFolder) then Trials(TrialNumber(study, subjectFolder)) else []
  }

  function SubjectRows(study: Study, subjectFolder: string, rois: seq<string>): seq<Row> {
    TrialRows(study.outputDirectory, Drop(subjectFolder, 5), SubjectTrials(study, subjectFolder), rois, study.read)
  }

  /** `data_dict_list`, after the subject folders given. */
  function Rows(study: Study, subjectFolders: seq<string>, rois: seq<string>): seq<Row>
    decreases |subjectFolders|
  {
    if |subjectFolders| == 0 then []
    else Rows(study, subjectFolders[..|subjectFolders| - 1], rois) + SubjectRows(study, Last(subjectFolders), rois)
  }

  /** The trial loop of one subject: a filled row appended per trial. */
  method AddTrials(outputDirectory: string, subject: string, trials: seq<nat>, rois: seq<string>,
                   read: string -> string, dataDictList: seq<Row>)
    returns (r: seq<Row>)
    ensures r == dataDictList + TrialRows(outputDirectory, subject, trials, rois, read)
  {
    r := dataDictList;
    for j := 0 to |trials|
      invariant r == dataDictList + TrialRows(outputDirectory, subject, trials[..j], rois, read)
    {
      assert trials[..j + 1][..j] == trials[..j];
      var trialDict := FillRow(outputDirectory, subject, trials[j], rois, read);
      r := r + [trialDict];
    }
    assert trials[..|trials|] == trials;
  }

  /** One pass of the loop that assembles `data_dict_list`: the rows of
      one subject folder appended. */
  method AddSubject(study: Study, subjectFolder: string, rois: seq<string>, dataDictList: seq<Row>)
    returns (r: seq<Row>)
    ensures r == dataDictList + SubjectRows(study, subjectFolder, rois)
  {
    r := dataDictList;
    var subject := Drop(subjectFolder, 5);
    var glm := GlmFolder(study.directory, subjectFolder, study.folderName);
    if study.onDisk(BetasFile(glm, subject)) {
      var fileData := study.read(PathJoin(glm, StatsInfo));
      var trials := Trials(TrialCount(fileData));
      r := AddTrials(study.outputDirectory, subject, trials, rois, study.read, r);
    }
  }

  /** The loop that assembles `data_dict_list`. */
  method CollectRows(study: Study, subjectFolders: seq<string>, rois: seq<string>) returns (dataDictList: seq<Row>)
    ensures dataDictList == Rows(study, subjectFolders, rois)
  {
    dataDictList := [];
    for i := 0 to |subjectFolders|
      invariant dataDictList == Rows(study, subjectFolders[..i], rois)
    {
      assert subjectFolders[..i + 1][..i] == subjectFolders[..i];
      dataDictList := AddSubject(study, subjectFolders[i], rois, dataDictList);
    }
    assert subjectFolders[..|subjectFolders|] == subjectFolders;
  }

  /** Every row of the table has exactly the header's columns, so the CSV
      writer neither refuses a row nor leaves a cell empty. */
  lemma {:induction false} RowsFitHeader(study: Study, subjectFolders: seq<string>, rois: seq<string>, k: nat)
    requires k < |Rows(study, subjectFolders, rois)|
    ensures Rows(study, subjectFolders, rois)[k].Keys == set c | c in Columns(rois)
    decreases |subjectFolders|
  {
    var front := subjectFolders[..|subjectFolders| - 1];
    var before := Rows(study, front, rois);
    if k < |before| {
      RowsFitHeader(study, front, rois, k);
    } else {
      var subjectFolder := Last(subjectFolders);
      var trials := SubjectTrials(study, subjectFolder);
      TrialRowsLength(study.outputDirectory, Drop(subjectFolder, 5), trials, rois, study.read);
      TrialRowsAt(study.outputDirectory, Drop(subjectFolder, 5), trials, rois, study.read, k - |before|);
      TrialRowKeys(study.outputDirectory, Drop(subjectFolder, 5), trials[k - |before|], rois, study.read);
    }
  }

  /** A subject folder with its betas bucket gives one row per trial
      `0 … trial_number - 2`; one without gives none. */
  lemma SubjectRowsCount(study: Study, subjectFolder: string, rois: seq<string>)
    ensures var n := TrialNumber(study, subjectFolder);
      |SubjectRows(study, subjectFolder, rois)| == if HasBetas(study, subjectFolder) && n > 0 then n - 1 else 0
  {
    TrialRowsLength(study.outputDirectory, Drop(subjectFolder, 5), SubjectTrials(study, subjectFolder), rois, study.read);
  }

  /** The `k`-th row of a subject folder names the subject and trial `k`. */
  lemma SubjectRowAt(study: Study, subjectFolder: string, rois: seq<string>, k: nat)
    requires "Participant" !in rois && "Trial" !in rois
    requires k < |SubjectRows(study, subjectFolder, rois)|
    ensures var row := SubjectRows(study, subjectFolder, rois)[k];
      "Participant" in row && row["Participant"] == Drop(subjectFolder, 5) &&
      "Trial" in row && row["Trial"] == NatToStr(k)
  {
    var subject := Drop(subjectFolder, 5);
    var trials := SubjectTrials(study, subjectFolder);
    TrialRowsLength(study.outputDirectory, subject, trials, rois, study.read);
    TrialRowsAt(study.outputDirectory, subject, trials, rois, study.read, k);
    assert trials[k] == k;
    TrialRowFixed(study.outputDirectory, subject, k, rois, study.read);
  }
}
