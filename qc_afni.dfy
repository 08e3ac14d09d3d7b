/** `QC_AFNI.py`: the bookkeeping of the quality-control script. This covers
    the GLM folders it reviews for one subject, the pruning of GLMs with
    too many conditions, the folders collected across subjects, the run
    labels of the alignment snapshots, the template found in the
    anatomical history, the decision to make snapshots, and the block kept
    from the radial-correlation report. The AFNI programs it calls
    (3dinfo, gen_ss_review_*, @snapshot_volreg, 1dplot) are foreign calls;
    their outputs are parameters, and the file system is a predicate
    `onDisk` on paths. */
module QcAfni {
  import opened Wrappers
  import opened PyStr
  import opened Sorting

  /** Filtering keeps a sorted list sorted. */
  lemma {:induction false} FilterSorted(xs: seq<string>, keep: string -> bool)
    requires SortedBy(StrLe, xs)
    ensures SortedBy(StrLe, Filter(xs, keep))
    decreases |xs|
  {
    if |xs| > 0 {
      var front := xs[..|xs| - 1];
      FilterSorted(front, keep);
      FilterMembers(front, keep);
      var f := Filter(front, keep);
      if keep(Last(xs)) {
        forall i | 0 <= i < |f|
          ensures StrLe(f[i], Last(xs))
        {
          assert f[i] in front;
          var k :| 0 <= k < |front| && front[k] == f[i];
          assert xs[k] == f[i];
        }
      }
    }
  }

  // ---------------------------------------------------------------------
  // The GLM folders of one subject
  // ---------------------------------------------------------------------

  /** The review table that marks a GLM as done. */
  function ReviewTable(reviewTables: string, glm: string): string {
    PathJoin(reviewTables, "review_table_" + glm + ".xls")
  }

  /** The test of the second loop: no review table yet. */
  function Unreviewed(reviewTables: string, onDisk: string -> bool): string -> bool {
    glm => !onDisk(ReviewTable(reviewTables, glm))
  }

  /** The GLM folders of a subject: the listed folders holding a `stats*`
      file (`withStats`), sorted, without those already reviewed. */
  function GlmFolders(potential: seq<string>, withStats: string -> bool, reviewTables: string, onDisk: string -> bool)
    : seq<string>
  {
    Filter(SortStrings(Filter(potential, withStats)), Unreviewed(reviewTables, onDisk))
  }

  /** The two loops and the `sorted` between them. */
  method SelectGlmFolders(potential: seq<string>, withStats: string -> bool, reviewTables: string, onDisk: string -> bool)
      returns (glmFolders: seq<string>)
    ensures glmFolders == GlmFolders(potential, withStats, reviewTables, onDisk)
  {
    glmFolders := [];
    for i := 0 to |potential|
      invariant glmFolders == Filter(potential[..i], withStats)
    {
      assert potential[..i + 1][..i] == potential[..i];
      if withStats(potential[i]) {
        glmFolders := glmFolders + [potential[i]];
      }
    }
    assert potential[..|potential|] == potential;
    glmFolders := SortStrings(glmFolders);
    var glmFoldersInt := [];
    for i := 0 to |glmFolders|
      invariant glmFoldersInt == Filter(glmFolders[..i], Unreviewed(reviewTables, onDisk))
    {
      assert glmFolders[..i + 1][..i] == glmFolders[..i];
      if !onDisk(ReviewTable(reviewTables, glmFolders[i])) {
        glmFoldersInt := glmFoldersInt + [glmFolders[i]];
      }
    }
    assert glmFolders[..|glmFolders|] == glmFolders;
    glmFolders := glmFoldersInt;
  }

  /** A folder is reviewed iff it holds a stats file and has no review
      table yet; the list is sorted. */
  lemma GlmFoldersMeaning(potential: seq<string>, withStats: string -> bool, reviewTables: string, onDisk: string -> bool)
    ensures forall x :: x in GlmFolders(potential, withStats, reviewTables, onDisk) <==>
      x in potential && withStats(x) && !onDisk(ReviewTable(reviewTables, x))
    ensures SortedBy(StrLe, GlmFolders(potential, withStats, reviewTables, onDisk))
  {
    var listed := Filter(potential, withStats);
    var sorted := SortStrings(listed);
    FilterMembers(potential, withStats);
    FilterMembers(sorted, Unreviewed(reviewTables, onDisk));
    FilterSorted(sorted, Unreviewed(reviewTables, onDisk));
    assert forall x :: x in sorted <==> x in multiset(sorted);
    assert forall x :: x in listed <==> x in multiset(listed);
  }

  // ---------------------------------------------------------------------
  // Pruning GLMs with many conditions
  // ---------------------------------------------------------------------

  /** More than 50 of the `|`-separated labels of the stats file name a
      `Coef`; `labelNames` is the output of `3dinfo -label`. */
  predicate TooManyConditions(labelNames: string) {
    |Filter(Split(labelNames, '|'), fn => Contains(fn, "Coef"))| > 50
  }

  /** `xs.remove(x)`: the first occurrence goes. */
  function RemoveFirst(xs: seq<string>, x: string): (r: seq<string>)
    requires x in xs
    ensures |r| == |xs| - 1
  {
    if xs[0] == x then xs[1..] else [xs[0]] + RemoveFirst(xs[1..], x)
  }

  /** In a list without duplicates, removing the element at `i` removes
      that position. */
  lemma {:induction false} RemoveFirstAt(xs: seq<string>, i: nat)
    requires i < |xs| && xs[i] !in xs[..i]
    ensures RemoveFirst(xs, xs[i]) == xs[..i] + xs[i + 1..]
  {
    if i > 0 {
      assert xs[1..][i - 1] == xs[i];
      assert xs[1..][..i - 1] == xs[..i][1..];
      RemoveFirstAt(xs[1..], i - 1);
      assert xs[..i] == [xs[0]] + xs[1..][..i - 1];
      assert xs[i + 1..] == xs[1..][i..];
    }
  }

  /** `for GLM_folder in GLM_folders: ... GLM_folders.remove(GLM_folder)`:
      the list iterator reads position `i` of the list as it is when it
      gets there, so a removal shifts the next folder into the position
      already read. */
  function PruneFrom(folders: seq<string>, i: nat, tooMany: string -> bool): seq<string>
    decreases |folders| - i
  {
    if i >= |folders| then folders
    else if tooMany(folders[i]) then PruneFrom(RemoveFirst(folders, folders[i]), i + 1, tooMany)
    else PruneFrom(folders, i + 1, tooMany)
  }

  /** The pruning loop, run only with `long_scripts_check`. */
  method Prune(glmFolders: seq<string>, tooMany: string -> bool) returns (folders: seq<string>)
    ensures folders == PruneFrom(glmFolders, 0, tooMany)
  {
    folders := glmFolders;
    var i := 0;
    while i < |folders|
      invariant PruneFrom(glmFolders, 0, tooMany) == PruneFrom(folders, i, tooMany)
      decreases |folders| - i
    {
      var glmFolder := folders[i];
      if tooMany(glmFolder) {
        folders := RemoveFirst(folders, glmFolder);
      }
      i := i + 1;
    }
  }

  lemma {:induction false} RemoveFirstMembers(xs: seq<string>, x: string)
    requires x in xs
    ensures forall y :: y in RemoveFirst(xs, x) ==> y in xs
    ensures forall y :: y in xs && y != x ==> y in RemoveFirst(xs, x)
    decreases |xs|
  {
    if xs[0] != x {
      RemoveFirstMembers(xs[1..], x);
      assert xs == [xs[0]] + xs[1..];
    }
  }

  /** Pruning only removes folders, and only folders with too many
      conditions; every other folder stays. */
  lemma {:induction false} PruneMembers(folders: seq<string>, i: nat, tooMany: string -> bool)
    ensures forall y :: y in PruneFrom(folders, i, tooMany) ==> y in folders
    ensures forall y :: y in folders && !tooMany(y) ==> y in PruneFrom(folders, i, tooMany)
    decreases |folders| - i
  {
    if i < |folders| {
      if tooMany(folders[i]) {
        RemoveFirstMembers(folders, folders[i]);
        PruneMembers(RemoveFirst(folders, folders[i]), i + 1, tooMany);
      } else {
        PruneMembers(folders, i + 1, tooMany);
      }
    }
  }

  lemma RemoveFirstNoDuplicates(xs: seq<string>, i: nat)
    requires i < |xs| && NoDuplicates(xs)
    ensures NoDuplicates(xs[..i] + xs[i + 1..])
  {
    var ys := xs[..i] + xs[i + 1..];
    forall a, b | 0 <= a < b < |ys|
      ensures ys[a] != ys[b]
    {
      var a', b' := if a < i then a else a + 1, if b < i then b else b + 1;
      assert ys[a] == xs[a'] && ys[b] == xs[b'];
    }
  }

  /** The positions before the iterator are never touched. */
  lemma {:induction false} PruneKeepsPrefix(folders: seq<string>, i: nat, tooMany: string -> bool)
    requires NoDuplicates(folders) && i <= |folders|
    ensures |PruneFrom(folders, i, tooMany)| >= i
    ensures PruneFrom(folders, i, tooMany)[..i] == folders[..i]
    decreases |folders| - i
  {
    if i < |folders| {
      if tooMany(folders[i]) {
        RemoveFirstAt(folders, i);
        RemoveFirstNoDuplicates(folders, i);
        var ys := folders[..i] + folders[i + 1..];
        if i + 1 <= |ys| {
          PruneKeepsPrefix(ys, i + 1, tooMany);
          assert PruneFrom(folders, i, tooMany)[..i] == ys[..i + 1][..i];
        }
        assert ys[..i] == folders[..i];
      } else {
        PruneKeepsPrefix(folders, i + 1, tooMany);
        assert folders[..i + 1][..i] == folders[..i];
        assert PruneFrom(folders, i, tooMany)[..i] == PruneFrom(folders, i + 1, tooMany)[..i + 1][..i];
      }
    }
  }

  /** The folder right after a removed one is never examined: it stays,
      however many conditions it has. */
  lemma PruneSkipsNext(folders: seq<string>, i: nat, tooMany: string -> bool)
    requires NoDuplicates(folders) && i + 1 < |folders| && tooMany(folders[i])
    ensures folders[i + 1] in PruneFrom(folders, i, tooMany)
  {
    RemoveFirstAt(folders, i);
    RemoveFirstNoDuplicates(folders, i);
    var ys := folders[..i] + folders[i + 1..];
    PruneKeepsPrefix(ys, i + 1, tooMany);
    assert ys[i] == folders[i + 1];
    assert PruneFrom(ys, i + 1, tooMany)[i] == ys[..i + 1][i];
  }

  /** Two GLMs that both have too many conditions: only the first goes. */
  lemma PruneTwo(a: string, b: string, tooMany: string -> bool)
    requires a != b && tooMany(a) && tooMany(b)
    ensures PruneFrom([a, b], 0, tooMany) == [b]
  {
    assert RemoveFirst([a, b], a) == [b];
  }

  /** The GLMs reviewed for one subject: the selection, then the pruning
      when `long_scripts_check` is set; `labels` gives the `3dinfo -label`
      output of a GLM's stats file. */
  function SubjectGlms(potential: seq<string>, withStats: string -> bool, reviewTables: string, onDisk: string -> bool,
                       longScriptsCheck: bool, labels: string -> string): (r: seq<string>)
  {
    var glmFolders := GlmFolders(potential, withStats, reviewTables, onDisk);
    if longScriptsCheck then PruneFrom(glmFolders, 0, glm => TooManyConditions(labels(glm))) else glmFolders
  }

  /** Every reviewed GLM is a selected one, and every selected GLM with at
      most 50 conditions is reviewed. */
  lemma SubjectGlmsMeaning(potential: seq<string>, withStats: string -> bool, reviewTables: string, onDisk: string -> bool,
                           longScriptsCheck: bool, labels: string -> string)
    ensures var r := SubjectGlms(potential, withStats, reviewTables, onDisk, longScriptsCheck, labels);
      var selected := GlmFolders(potential, withStats, reviewTables, onDisk);
      && (forall x :: x in r ==> x in selected)
      && (forall x :: x in selected && (!longScriptsCheck || !TooManyConditions(labels(x))) ==> x in r)
  {
    PruneMembers(GlmFolders(potential, withStats, reviewTables, onDisk), 0, glm => TooManyConditions(labels(glm)));
  }

  // ---------------------------------------------------------------------
  // The folders of all subjects
  // ---------------------------------------------------------------------

  /** `all_GLM_folders` after the folders `xs` of one more subject. */
  function AddNew(all: seq<string>, xs: seq<string>): seq<string>
    decreases |xs|
  {
    if |xs| == 0 then all
    else
      var before := AddNew(all, xs[..|xs| - 1]);
      if Last(xs) in before then before else before + [Last(xs)]
  }

  method CollectFolders(all: seq<string>, glmFolders: seq<string>) returns (allGlmFolders: seq<string>)
    ensures allGlmFolders == AddNew(all, glmFolders)
  {
    allGlmFolders := all;
    for i := 0 to |glmFolders|
      invariant allGlmFolders == AddNew(all, glmFolders[..i])
    {
      assert glmFolders[..i + 1][..i] == glmFolders[..i];
      if glmFolders[i] !in allGlmFolders {
        allGlmFolders := allGlmFolders + [glmFolders[i]];
      }
    }
    assert glmFolders[..|glmFolders|] == glmFolders;
  }

  /** The folders seen so far stay first and in their order, each new
      folder is added once, and no folder appears twice. */
  lemma {:induction false} AddNewMeaning(all: seq<string>, xs: seq<string>)
    ensures forall x :: x in AddNew(all, xs) <==> x in all || x in xs
    ensures |AddNew(all, xs)| >= |all| && AddNew(all, xs)[..|all|] == all
    ensures NoDuplicates(all) ==> NoDuplicates(AddNew(all, xs))
    decreases |xs|
  {
    if |xs| > 0 {
      var front := xs[..|xs| - 1];
      AddNewMeaning(all, front);
      assert xs == front + [Last(xs)];
      var before := AddNew(all, front);
      if Last(xs) !in before {
        assert (before + [Last(xs)])[..|all|] == before[..|all|];
      }
    }
  }

  // ---------------------------------------------------------------------
  // Run labels of the snapshots
  // ---------------------------------------------------------------------

  /** The label of 0-based run `run`: two digits up to run 9. */
  function RunLabel(run: nat): string {
    if run < 9 then "0" + NatToStr(run + 1) else NatToStr(run + 1)
  }

  /** `run_0_list` before it is sorted. */
  function RunList(n: nat): (r: seq<string>)
    ensures |r| == n && forall k :: 0 <= k < n ==> r[k] == RunLabel(k)
  {
    seq(n, k requires 0 <= k < n => RunLabel(k))
  }

  /** The loop that builds `run_0_list`, one label per run. */
  method RunLabels(numberOfRuns: nat) returns (run0List: seq<string>)
    ensures run0List == RunList(numberOfRuns)
  {
    run0List := [];
    for run := 0 to numberOfRuns
      invariant run0List == RunList(run)
    {
      var run0;
      if run < 9 {
        run0 := "0" + NatToStr(run + 1);
      } else {
        run0 := NatToStr(run + 1);
      }
      run0List := run0List + [run0];
    }
  }

  /** Below 99 runs every label has two digits, those of `run + 1`. */
  lemma RunLabelDigits(run: nat)
    requires run < 99
    ensures RunLabel(run) == [DigitChar((run + 1) / 10), DigitChar((run + 1) % 10)]
  {
    if run >= 9 {
      assert NatToStr(run + 1) == NatToStr((run + 1) / 10) + [DigitChar((run + 1) % 10)];
    }
  }

  /** The label reads as the 1-based run number. */
  lemma RunLabelNumber(run: nat)
    ensures ParseInt(RunLabel(run)) == Some(run + 1)
  {
    if run < 9 {
      var s := "0" + NatToStr(run + 1);
      assert s == ['0', DigitChar(run + 1)];
      assert AllDigits(s);
      assert s[..1] == ['0'] && ['0'][..0] == [];
      assert DigitsValue(['0']) == 0;
      assert DigitsValue(s) == DigitsValue(s[..1]) * 10 + (DigitChar(run + 1) as int - '0' as int);
    } else {
      ParseNatToStr(run + 1);
    }
  }

  /** Different runs get different labels. */
  lemma RunLabelsDistinct(n: nat)
    ensures NoDuplicates(RunList(n))
  {
    forall i, j | 0 <= i < j < n
      ensures RunList(n)[i] != RunList(n)[j]
    {
      RunLabelNumber(i);
      RunLabelNumber(j);
    }
  }

  /** Up to 99 runs the labels are already in order, so `sorted` leaves
      them as built. */
  lemma RunLabelsSorted(n: nat)
    requires n <= 99
    ensures SortStrings(RunList(n)) == RunList(n)
  {
    var labels := RunList(n);
    forall i, j | 0 <= i < j < n
      ensures StrLe(labels[i], labels[j])
    {
      RunLabelDigits(i);
      RunLabelDigits(j);
      var a, b := labels[i], labels[j];
      assert a[1..][1..] == [] && b[1..][1..] == [];
      if (i + 1) / 10 == (j + 1) / 10 {
        assert (i + 1) % 10 < (j + 1) % 10;
      }
    }
    SortStringsSorted(labels);
  }

  /** `dict(zip(keys, values))`: a later duplicate key wins, and the
      shorter list decides the length. */
  function Zip(keys: seq<string>, values: seq<string>): map<string, string>
    decreases |keys|
  {
    if |keys| == 0 || |values| == 0 then map[]
    else
      var n := if |keys| < |values| then |keys| else |values|;
      Zip(keys[..n - 1], values[..n - 1])[keys[n - 1] := values[n - 1]]
  }

  /** With distinct keys, the `k`-th key maps to the `k`-th value. */
  lemma {:induction false} ZipAt(keys: seq<string>, values: seq<string>, k: nat)
    requires |keys| == |values| && NoDuplicates(keys) && k < |keys|
    ensures keys[k] in Zip(keys, values) && Zip(keys, values)[keys[k]] == values[k]
    decreases |keys|
  {
    var n := |keys|;
    if k < n - 1 {
      assert keys[..n - 1][k] == keys[k] && values[..n - 1][k] == values[k];
      assert keys[n - 1] != keys[k];
      ZipAt(keys[..n - 1], values[..n - 1], k);
    }
  }

  /** The volreg HEAD files of the processing blocks, sorted. */
  function VolregFiles(resultFiles: seq<string>): seq<string> {
    SortStrings(Filter(resultFiles, x => Contains(x, "pb") && Contains(x, "volreg") && Contains(x, "HEAD")))
  }

  /** `epi_files`: the run labels, sorted, zipped with the volreg files. */
  function EpiFiles(resultFiles: seq<string>): map<string, string> {
    var files := VolregFiles(resultFiles);
    Zip(SortStrings(RunList(|files|)), files)
  }

  /** Up to 99 runs, label `RunLabel(k)` names the `k`-th sorted volreg
      file: one label per file, zipped in order. */
  lemma EpiFilesInOrder(resultFiles: seq<string>, k: nat)
    requires |VolregFiles(resultFiles)| <= 99 && k < |VolregFiles(resultFiles)|
    ensures RunLabel(k) in EpiFiles(resultFiles)
    ensures EpiFiles(resultFiles)[RunLabel(k)] == VolregFiles(resultFiles)[k]
  {
    var files := VolregFiles(resultFiles);
    RunLabelsSorted(|files|);
    RunLabelsDistinct(|files|);
    ZipAt(RunList(|files|), files, k);
  }

  // ---------------------------------------------------------------------
  // The template in the history of the warped anatomy
  // ---------------------------------------------------------------------

  const NoNext := "IndexError: list index out of range"
  const NoTemplate := "AttributeError: 'NoneType' object has no attribute 'endswith'"

  /** `template` after the first `n` tokens of the `count` loop: the token
      after each `-base`; a `-base` in last position reads past the end. */
  function BaseScan(tokens: seq<string>, n: nat): Result<Option<string>>
    requires n <= |tokens|
  {
    if n == 0 then Ok(None)
    else
      var before := BaseScan(tokens, n - 1);
      if before.Err? then before
      else if tokens[n - 1] == "-base" then (if n < |tokens| then Ok(Some(tokens[n])) else Err(NoNext))
      else before
  }

  /** The template the snapshots use, from the history text. */
  function Template(history: string): Result<string> {
    var splits := Split(history, ' ');
    var found := BaseScan(splits, |splits|);
    if found.Err? then Err(found.error)
    else if found.value.None? then Err(NoTemplate)
    else if EndsWith(found.value.value, ".HEAD") then Ok(DropLast(found.value.value, 5))
    else Ok(found.value.value)
  }

  /** The `count` loop and the `.HEAD` removal. */
  method FindTemplate(history: string) returns (r: Result<string>)
    ensures r == Template(history)
  {
    var splits := Split(history, ' ');
    var count := 0;
    var template: Option<string> := None;
    while count < |splits|
      invariant count <= |splits| && BaseScan(splits, count) == Ok(template)
    {
      var item := splits[count];
      if item == "-base" {
        if count + 1 >= |splits| {
          BaseScanErrStays(splits, count + 1);
          return Err(NoNext);
        }
        template := Some(splits[count + 1]);
      }
      count := count + 1;
    }
    if template.None? {
      return Err(NoTemplate);
    }
    var t := template.value;
    if EndsWith(t, ".HEAD") {
      t := DropLast(t, 5);
    }
    r := Ok(t);
  }

  lemma {:induction false} BaseScanErrStays(tokens: seq<string>, n: nat)
    requires n <= |tokens| && BaseScan(tokens, n).Err?
    ensures BaseScan(tokens, |tokens|) == BaseScan(tokens, n)
    decreases |tokens| - n
  {
    if n < |tokens| {
      BaseScanErrStays(tokens, n + 1);
    }
  }

  /** Only a `-base` in last position reads past the end. */
  lemma {:induction false} BaseScanEarly(tokens: seq<string>, n: nat)
    requires n < |tokens|
    ensures BaseScan(tokens, n).Ok?
    decreases n
  {
    if n > 0 {
      BaseScanEarly(tokens, n - 1);
    }
  }

  /** The template is the token after the last `-base`. */
  lemma {:induction false} BaseScanLast(tokens: seq<string>, n: nat, k: nat)
    requires k + 1 < n <= |tokens| && tokens[k] == "-base"
    requires forall j :: k < j < n ==> tokens[j] != "-base"
    ensures BaseScan(tokens, n) == Ok(Some(tokens[k + 1]))
    decreases n
  {
    if n - 1 > k + 1 {
      BaseScanLast(tokens, n - 1, k);
    } else {
      BaseScanEarly(tokens, k);
    }
  }

  /** Without `-base` there is no template. */
  lemma {:induction false} BaseScanNone(tokens: seq<string>, n: nat)
    requires n <= |tokens| && forall j :: 0 <= j < n ==> tokens[j] != "-base"
    ensures BaseScan(tokens, n) == Ok(None)
    decreases n
  {
    if n > 0 {
      BaseScanNone(tokens, n - 1);
    }
  }

  /** A history whose last token is `-base` stops the script. */
  lemma BaseScanDangling(tokens: seq<string>)
    requires |tokens| > 0 && Last(tokens) == "-base"
    ensures BaseScan(tokens, |tokens|) == Err(NoNext)
  {
    if |tokens| > 1 {
      BaseScanEarly(tokens, |tokens| - 1);
    }
  }

  // ---------------------------------------------------------------------
  // Snapshots
  // ---------------------------------------------------------------------

  function AnatJpg(snapshotFolder: string, subject: string): string {
    PathJoin(snapshotFolder, subject + "_anat-template.jpg")
  }

  function RunJpg(snapshotFolder: string, subject: string, run: string): string {
    PathJoin(snapshotFolder, subject + "_run" + run + "-anat.jpg")
  }

  /** The `do_snapshots` loop. */
  method DoSnapshots(snapshotFolder: string, subject: string, runs: seq<string>, onDisk: string -> bool)
      returns (doSnapshots: bool)
    ensures doSnapshots <==>
      !onDisk(AnatJpg(snapshotFolder, subject)) || exists k :: 0 <= k < |runs| && !onDisk(RunJpg(snapshotFolder, subject, runs[k]))
  {
    doSnapshots := false;
    if !onDisk(AnatJpg(snapshotFolder, subject)) {
      doSnapshots := true;
    }
    for i := 0 to |runs|
      invariant doSnapshots <==>
        !onDisk(AnatJpg(snapshotFolder, subject)) || exists k :: 0 <= k < i && !onDisk(RunJpg(snapshotFolder, subject, runs[k]))
    {
      if !onDisk(RunJpg(snapshotFolder, subject, runs[i])) {
        doSnapshots := true;
      }
    }
  }

  /** The snapshot jpgs the rest of the subject's loop makes: the missing
      ones, anatomy first, then the runs in order. */
  function Snapshots(snapshotFolder: string, subject: string, runs: seq<string>, onDisk: string -> bool): seq<string> {
    (if onDisk(AnatJpg(snapshotFolder, subject)) then [] else [AnatJpg(snapshotFolder, subject)]) +
    MissingRuns(snapshotFolder, subject, runs, onDisk)
  }

  function MissingRuns(snapshotFolder: string, subject: string, runs: seq<string>, onDisk: string -> bool): seq<string>
    decreases |runs|
  {
    if |runs| == 0 then []
    else
      var jpg := RunJpg(snapshotFolder, subject, Last(runs));
      MissingRuns(snapshotFolder, subject, runs[..|runs| - 1], onDisk) + (if onDisk(jpg) then [] else [jpg])
  }

  lemma {:induction false} MissingRunsEmpty(snapshotFolder: string, subject: string, runs: seq<string>, onDisk: string -> bool)
    ensures MissingRuns(snapshotFolder, subject, runs, onDisk) == [] <==>
      forall k :: 0 <= k < |runs| ==> onDisk(RunJpg(snapshotFolder, subject, runs[k]))
    decreases |runs|
  {
    if |runs| > 0 {
      var front := runs[..|runs| - 1];
      MissingRunsEmpty(snapshotFolder, subject, front, onDisk);
      assert forall k :: 0 <= k < |front| ==> front[k] == runs[k];
    }
  }

  /** The message announcing snapshots is printed iff a snapshot is made. */
  lemma DoSnapshotsIffMade(snapshotFolder: string, subject: string, runs: seq<string>, onDisk: string -> bool)
    ensures (Snapshots(snapshotFolder, subject, runs, onDisk) != []) <==>
      !onDisk(AnatJpg(snapshotFolder, subject)) || exists k :: 0 <= k < |runs| && !onDisk(RunJpg(snapshotFolder, subject, runs[k]))
  {
    MissingRunsEmpty(snapshotFolder, subject, runs, onDisk);
  }

  // ---------------------------------------------------------------------
  // The radial-correlation summary
  // ---------------------------------------------------------------------

  /** The rule of 60 `=` that frames the report's blocks. */
  function Rule(): (r: string)
    ensures |r| == 60 && forall k :: 0 <= k < 60 ==> r[k] == '='
  {
    seq(60, _ => '=')
  }

  /** `text[start_index:(end_index+61)]`, from the first rule to one
      character past the second. */
  function RadialBlock(text: string): string {
    var startIndex := Find(text, Rule(), 0);
    var endIndex := Find(text, Rule(), (startIndex + 1) as nat);
    Slice(text, startIndex, endIndex + 61)
  }

  /** With rules at `s` and `e` and none before `e` but `s`, the block
      runs from the first rule through the second and one more
      character. */
  lemma RadialBetween(text: string, s: nat, e: nat)
    requires s < e && OccursAt(text, Rule(), s) && OccursAt(text, Rule(), e)
    requires forall i :: 0 <= i < e && i != s ==> !OccursAt(text, Rule(), i)
    ensures var stop := if e + 61 <= |text| then e + 61 else |text|;
      RadialBlock(text) == text[s..stop]
    ensures StartsWith(RadialBlock(text), Rule()) && OccursAt(RadialBlock(text), Rule(), e - s)
  {
    var stop := if e + 61 <= |text| then e + 61 else |text|;
    assert Find(text, Rule(), 0) == s;
    assert Find(text, Rule(), s + 1) == e;
    assert RadialBlock(text) == text[s..stop];
    var block := text[s..stop];
    assert e + 60 <= stop;
    assert block[..60] == text[s..s + 60];
    var second, rule := block[e - s..e - s + 60], text[e..e + 60];
    forall k | 0 <= k < 60
      ensures second[k] == rule[k]
    {
      assert block[e - s + k] == text[e + k];
    }
    assert second == rule;
  }
}
