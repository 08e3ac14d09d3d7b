/** `reorganize_NIfTI`: after `dcm2niix` has converted a session, the
    converted files are sorted into the anat, func and fmap folders and
    renamed after the Brain Imaging Data Structure (BIDS) conventions; the
    JSON side-cars get their `TaskName` and `IntendedFor` entries.

    A folder is the sequence of its entries in listing order: a moved or
    renamed entry is listed last. */
module NiftiFiles {
  import opened Wrappers
  import opened PyStr
  import Sorting
  import TimingFiles

  // ---------------------------------------------------------------------
  // Folders and file operations
  // ---------------------------------------------------------------------

  /** The folder without the entry `f`. */
  function Without(d: seq<string>, f: string): (r: seq<string>)
    ensures forall x :: x in r <==> x in d && x != f
    decreases |d|
  {
    if |d| == 0 then []
    else Without(d[..|d| - 1], f) + (if Last(d) == f then [] else [Last(d)])
  }

  /** `f` placed in the folder, replacing an entry of the same name. */
  function Put(d: seq<string>, f: string): (r: seq<string>)
    ensures forall x :: x in r <==> x in d || x == f
  {
    Without(d, f) + [f]
  }

  const NoSuchFile := "OSError: [Errno 2] No such file or directory"

  /** `os.remove` and `os.rename` within one folder. */
  datatype FileOp = Remove(name: string) | Rename(src: string, dst: string)

  function Step(d: seq<string>, op: FileOp): Result<seq<string>> {
    match op
    case Remove(f) => if f in d then Ok(Without(d, f)) else Err(NoSuchFile)
    case Rename(src, dst) => if src in d then Ok(Put(Without(d, src), dst)) else Err(NoSuchFile)
  }

  /** The operations one after the other; the first that fails stops the
      script. */
  function Apply(d: seq<string>, ops: seq<FileOp>): Result<seq<string>>
    decreases |ops|
  {
    if |ops| == 0 then Ok(d)
    else match Step(d, ops[0])
         case Err(e) => Err(e)
         case Ok(d') => Apply(d', ops[1..])
  }

  lemma {:induction false} ApplyConcat(d: seq<string>, a: seq<FileOp>, b: seq<FileOp>)
    ensures Apply(d, a + b) == match Apply(d, a) case Err(e) => Err(e) case Ok(d') => Apply(d', b)
    decreases |a|
  {
    if |a| == 0 {
      assert a + b == b;
    } else {
      assert (a + b)[0] == a[0] && (a + b)[1..] == a[1..] + b;
      if Step(d, a[0]).Ok? {
        ApplyConcat(Step(d, a[0]).value, a[1..], b);
      }
    }
  }

  /** Renaming an entry twice fails: the second rename finds no source. */
  lemma RenameTwice(d: seq<string>, f: string, g: string, h: string)
    requires f != g
    ensures Apply(d, [Rename(f, g), Rename(f, h)]).Err?
  {
    if f in d {
      var d' := Put(Without(d, f), g);
      assert f !in d';
      assert [Rename(f, g), Rename(f, h)][1..] == [Rename(f, h)];
    }
  }

  /** Removals only take entries away, and exactly the named ones. */
  lemma {:induction false} ApplyRemoves(d: seq<string>, ops: seq<FileOp>)
    requires forall k :: 0 <= k < |ops| ==> ops[k].Remove?
    ensures Apply(d, ops).Ok? ==>
            forall x :: x in Apply(d, ops).value <==> x in d && forall k :: 0 <= k < |ops| ==> ops[k].name != x
    decreases |ops|
  {
    if |ops| > 0 && Step(d, ops[0]).Ok? {
      ApplyRemoves(Step(d, ops[0]).value, ops[1..]);
      assert forall k :: 1 <= k < |ops| ==> ops[k] == ops[1..][k - 1];
    }
  }

  /** `"_ses-0" + str(session)` in a multi-session study, else nothing. */
  function SessionTag(multiSession: bool, session: nat): string {
    if multiSession then "_ses-0" + NatToStr(session) else ""
  }

  /** `sub-<prefix><id><ses>`, the start of every BIDS name. */
  function Subject(idPrefix: string, participant: string, ses: string): string {
    "sub-" + idPrefix + participant + ses
  }

  // ---------------------------------------------------------------------
  // Sorting the converted files into folders
  // ---------------------------------------------------------------------

  datatype Destination = AnatFolder | FieldmapFolder | FuncFolder | Stays

  /** The first rule that matches: `T1`/`T2` (case-sensitive), then
      spin-echo fieldmaps, then resting state, then the task code. */
  function Classify(f: string, taskCode: string): Destination {
    var lower := Lower(f);
    if Contains(f, "T1") || Contains(f, "T2") then AnatFolder
    else if Contains(lower, "spinecho") || Contains(lower, "fieldmap") then FieldmapFolder
    else if Contains(lower, "rsfc") || Contains(lower, "rest") then FuncFolder
    else if Contains(lower, Lower(taskCode)) then FuncFolder
    else Stays
  }

  /** The folders of a session, and what the JSON side-cars have been given. */
  datatype Folders = Folders(nifti: seq<string>, anat: seq<string>, func: seq<string>, fmap: seq<string>)

  /** `shutil.move` of one converted file into its folder. */
  function Move(s: Folders, f: string, taskCode: string): Folders {
    match Classify(f, taskCode)
    case AnatFolder => s.(nifti := Without(s.nifti, f), anat := Put(s.anat, f))
    case FieldmapFolder => s.(nifti := Without(s.nifti, f), fmap := Put(s.fmap, f))
    case FuncFolder => s.(nifti := Without(s.nifti, f), func := Put(s.func, f))
    case Stays => s
  }

  function MoveAll(s: Folders, files: seq<string>, taskCode: string): Folders
    decreases |files|
  {
    if |files| == 0 then s else MoveAll(Move(s, files[0], taskCode), files[1..], taskCode)
  }

  /** Every converted file ends up in the folder its class names, and only
      the files no rule matches stay behind. */
  lemma {:induction false} MoveAllPlaces(s: Folders, files: seq<string>, taskCode: string, f: string)
    requires f in files
    ensures var r := MoveAll(s, files, taskCode);
            (f in r.nifti <==> f in s.nifti && Classify(f, taskCode) == Stays) &&
            (Classify(f, taskCode) == AnatFolder ==> f in r.anat) &&
            (Classify(f, taskCode) == FieldmapFolder ==> f in r.fmap) &&
            (Classify(f, taskCode) == FuncFolder ==> f in r.func)
    decreases |files|
  {
    var s' := Move(s, files[0], taskCode);
    if f == files[0] {
      MoveAllKeeps(s', files[1..], taskCode, f);
    } else {
      MoveAllPlaces(s', files[1..], taskCode, f);
    }
  }

  /** Moving other files keeps a moved file where it is. */
  lemma {:induction false} MoveAllKeeps(s: Folders, files: seq<string>, taskCode: string, f: string)
    ensures var r := MoveAll(s, files, taskCode);
            (f in s.anat ==> f in r.anat) && (f in s.fmap ==> f in r.fmap) && (f in s.func ==> f in r.func) &&
            (f in r.nifti ==> f in s.nifti) &&
            (f in s.nifti && Classify(f, taskCode) == Stays ==> f in r.nifti)
    decreases |files|
  {
    if |files| > 0 {
      MoveAllKeeps(Move(s, files[0], taskCode), files[1..], taskCode, f);
    }
  }

  // ---------------------------------------------------------------------
  // Run indices
  // ---------------------------------------------------------------------

  /** `file[:-7]`: the name without `.nii.gz`. */
  function Stem(f: string): string {
    DropLast(f, 7)
  }

  /** `int(item.split("_")[-1])`: the series number `dcm2niix` appends. */
  function RunIndex(stem: string): Option<int> {
    ParseInt(Last(Split(stem, '_')))
  }

  predicate AllIndexed(items: seq<string>) {
    forall k :: 0 <= k < |items| ==> RunIndex(items[k]).Some?
  }

  /** `max(d, key=lambda key: d[key])`: the first item with the largest
      index, the items taken in the order given (Python 2 meets the keys
      of the dictionary in hash order). */
  function MaxStem(items: seq<string>): (m: string)
    requires |items| > 0 && AllIndexed(items)
    ensures m in items
    decreases |items|
  {
    if |items| == 1 then items[0]
    else
      var m := MaxStem(items[..|items| - 1]);
      if RunIndex(Last(items)).value > RunIndex(m).value then Last(items) else m
  }

  /** `min(d, key=lambda key: d[key])`: the first item with the smallest
      index, the items taken in the order given. */
  function MinStem(items: seq<string>): (m: string)
    requires |items| > 0 && AllIndexed(items)
    ensures m in items
    decreases |items|
  {
    if |items| == 1 then items[0]
    else
      var m := MinStem(items[..|items| - 1]);
      if RunIndex(Last(items)).value < RunIndex(m).value then Last(items) else m
  }

  /** The chosen item has the largest index of all. */
  lemma {:induction false} MaxStemIsMax(items: seq<string>)
    requires |items| > 0 && AllIndexed(items)
    ensures forall k :: 0 <= k < |items| ==> RunIndex(items[k]).value <= RunIndex(MaxStem(items)).value
    decreases |items|
  {
    if |items| > 1 {
      var front := items[..|items| - 1];
      MaxStemIsMax(front);
      assert forall k :: 0 <= k < |front| ==> front[k] == items[k];
    }
  }

  /** Every item before position `k` has a run index below `index`. */
  predicate AllBelow(items: seq<string>, k: nat, index: int)
    requires AllIndexed(items) && k <= |items|
  {
    forall j :: 0 <= j < k ==> RunIndex(items[j]).value < index
  }

  /** It comes before every other item with that index. */
  lemma {:induction false} MaxStemIsFirst(items: seq<string>)
    requires |items| > 0 && AllIndexed(items)
    ensures exists k :: 0 <= k < |items| && items[k] == MaxStem(items) && AllBelow(items, k, RunIndex(MaxStem(items)).value)
    decreases |items|
  {
    if |items| == 1 {
      assert items[0] == MaxStem(items) && AllBelow(items, 0, RunIndex(MaxStem(items)).value);
    } else {
      var front := items[..|items| - 1];
      MaxStemIsFirst(front);
      var m := MaxStem(front);
      var k :| 0 <= k < |front| && front[k] == m && AllBelow(front, k, RunIndex(m).value);
      if RunIndex(Last(items)).value > RunIndex(m).value {
        MaxStemLastFirst(items);
      } else {
        MaxStemKeptFirst(items, k);
      }
    }
  }

  /** A new largest index at the end is the first of its kind. */
  lemma MaxStemLastFirst(items: seq<string>)
    requires |items| > 1 && AllIndexed(items)
    requires RunIndex(Last(items)).value > RunIndex(MaxStem(items[..|items| - 1])).value
    ensures exists k :: 0 <= k < |items| && items[k] == MaxStem(items) && AllBelow(items, k, RunIndex(MaxStem(items)).value)
  {
    var front, n := items[..|items| - 1], |items| - 1;
    MaxStemIsMax(front);
    assert items[n] == MaxStem(items);
    forall j | 0 <= j < n
      ensures RunIndex(items[j]).value < RunIndex(items[n]).value
    {
      assert items[j] == front[j];
    }
    assert AllBelow(items, n, RunIndex(MaxStem(items)).value);
  }

  /** Otherwise the earlier choice, and its position, stand. */
  lemma MaxStemKeptFirst(items: seq<string>, k: nat)
    requires |items| > 1 && AllIndexed(items)
    requires RunIndex(Last(items)).value <= RunIndex(MaxStem(items[..|items| - 1])).value
    requires k < |items| - 1 && items[..|items| - 1][k] == MaxStem(items[..|items| - 1])
    requires AllBelow(items[..|items| - 1], k, RunIndex(MaxStem(items[..|items| - 1])).value)
    ensures exists k :: 0 <= k < |items| && items[k] == MaxStem(items) && AllBelow(items, k, RunIndex(MaxStem(items)).value)
  {
    var front := items[..|items| - 1];
    assert items[k] == front[k] == MaxStem(items);
    forall j | 0 <= j < k
      ensures RunIndex(items[j]).value < RunIndex(MaxStem(items)).value
    {
      assert items[j] == front[j];
    }
    assert AllBelow(items, k, RunIndex(MaxStem(items)).value);
  }

  lemma {:induction false} MinStemIsMin(items: seq<string>)
    requires |items| > 0 && AllIndexed(items)
    ensures forall k :: 0 <= k < |items| ==> RunIndex(MinStem(items)).value <= RunIndex(items[k]).value
    decreases |items|
  {
    if |items| > 1 {
      var front := items[..|items| - 1];
      MinStemIsMin(front);
      assert forall k :: 0 <= k < |front| ==> front[k] == items[k];
    }
  }

  const BadIndex := "ValueError: invalid literal for int() with base 10"
  const EmptyMax := "ValueError: max() arg is an empty sequence"
  const EmptyMin := "ValueError: min() arg is an empty sequence"

  /** The index dictionary, then its largest (`latest`) or smallest entry;
      a name whose last piece is not a number, or no name at all, stops the
      script. */
  function Select(items: seq<string>, latest: bool): Result<string> {
    if !AllIndexed(items) then Err(BadIndex)
    else if |items| == 0 then Err(if latest then EmptyMax else EmptyMin)
    else Ok(if latest then MaxStem(items) else MinStem(items))
  }

  /** BOLD (the latest) never has a smaller index than SBRef (the
      earliest), and the two coincide when there is a single run. */
  lemma BoldAfterSbref(items: seq<string>)
    requires Select(items, true).Ok?
    ensures Select(items, false).Ok?
    ensures RunIndex(Select(items, false).value).value <= RunIndex(Select(items, true).value).value
    ensures |items| == 1 ==> Select(items, true) == Select(items, false)
  {
    MaxStemIsMax(items);
    MinStemIsMin(items);
  }

  /** The dictionary loop (`d[item] = int(...)`) followed by `max`/`min`. */
  method SelectRun(items: seq<string>, latest: bool) returns (r: Result<string>)
    ensures r == Select(items, latest)
  {
    var indices: map<string, int> := map[];
    for i := 0 to |items|
      invariant forall k :: 0 <= k < i ==> items[k] in indices
      invariant forall x :: x in indices ==> RunIndex(x) == Some(indices[x])
    {
      var index := RunIndex(items[i]);
      if index.None? {
        return Err(BadIndex);
      }
      indices := indices[items[i] := index.value];
    }
    if |items| == 0 {
      return Err(if latest then EmptyMax else EmptyMin);
    }
    var best := items[0];
    assert items[..1] == [items[0]];
    for i := 1 to |items|
      invariant best in indices
      invariant best == Chosen(items[..i], latest)
    {
      SelectStep(items, i, latest);
      if (latest && indices[items[i]] > indices[best]) || (!latest && indices[items[i]] < indices[best]) {
        best := items[i];
      }
    }
    assert items[..|items|] == items;
    r := Ok(best);
  }

  /** The stem `max` or `min` returns. */
  function Chosen(items: seq<string>, latest: bool): string
    requires |items| > 0 && AllIndexed(items)
  {
    if latest then MaxStem(items) else MinStem(items)
  }

  /** One more item replaces the choice only when its index is strictly
      beyond the chosen one's. */
  lemma SelectStep(items: seq<string>, i: nat, latest: bool)
    requires AllIndexed(items) && 0 < i < |items|
    ensures AllIndexed(items[..i]) && AllIndexed(items[..i + 1])
    ensures Chosen(items[..i + 1], latest) ==
            if (latest && RunIndex(items[i]).value > RunIndex(Chosen(items[..i], latest)).value) ||
               (!latest && RunIndex(items[i]).value < RunIndex(Chosen(items[..i], latest)).value)
            then items[i] else Chosen(items[..i], latest)
  {
    var front, grown := items[..i], items[..i + 1];
    assert grown[..|grown| - 1] == front && Last(grown) == items[i];
    assert forall k :: 0 <= k < |grown| ==> grown[k] == items[k];
  }

  /** `[file[:-7] for file in files if tag in file and ".nii" in file]` */
  function NiftiStems(files: seq<string>, tag: string): (r: seq<string>)
    ensures forall x :: x in r <==> exists f :: f in files && Contains(f, tag) && Contains(f, ".nii") && x == Stem(f)
    decreases |files|
  {
    if |files| == 0 then []
    else
      var f := Last(files);
      NiftiStems(files[..|files| - 1], tag) + (if Contains(f, tag) && Contains(f, ".nii") then [Stem(f)] else [])
  }

  // ---------------------------------------------------------------------
  // Anatomical scans
  // ---------------------------------------------------------------------

  /** The scans of the kind (`T1` or `T2`) that do not contain the name of
      the one kept. */
  function StaleScans(anatFiles: seq<string>, tag: string, keep: string): (r: seq<FileOp>)
    ensures forall k :: 0 <= k < |r| ==> r[k].Remove?
    ensures forall f :: Remove(f) in r <==> f in anatFiles && !Contains(f, keep) && Contains(f, tag)
    decreases |anatFiles|
  {
    if |anatFiles| == 0 then []
    else
      var f := anatFiles[0];
      (if !Contains(f, keep) && Contains(f, tag) then [Remove(f)] else []) + StaleScans(anatFiles[1..], tag, keep)
  }

  /** The renames of what is left: the NIfTI and the JSON of the kind get
      the BIDS name `<subject>_T1w` (or `_T2w`). */
  function ScanRenames(files: seq<string>, tag: string, target: string): seq<FileOp>
    decreases |files|
  {
    if |files| == 0 then [] else ScanRename(files[0], tag, target) + ScanRenames(files[1..], tag, target)
  }

  /** The renames of one listed anat file: its NIfTI, then its JSON. */
  function ScanRename(f: string, tag: string, target: string): seq<FileOp> {
    (if Contains(f, tag) && Contains(f, ".nii") then [Rename(f, target + ImageExt)] else []) +
    (if Contains(f, tag) && Contains(f, ".json") then [Rename(f, target + SidecarExt)] else [])
  }

  /** One anatomical kind: keep the latest scan, delete the others, rename
      what is left. `anatFiles` is the listing taken before either kind was
      handled. */
  function ReduceScans(anat: seq<string>, anatFiles: seq<string>, tag: string, target: string): Result<seq<string>> {
    if forall k :: 0 <= k < |anatFiles| ==> !Contains(anatFiles[k], tag) then Ok(anat)
    else
      match Select(NiftiStems(anatFiles, tag), true)
      case Err(e) => Err(e)
      case Ok(keep) =>
        match Apply(anat, StaleScans(anatFiles, tag, keep))
        case Err(e) => Err(e)
        case Ok(d) => Apply(d, ScanRenames(d, tag, target))
  }

  /** After the deletions, every scan of the kind that is left carries the
      name of the latest one; entries of other kinds are untouched. */
  lemma ReduceScansKeepsLatest(anat: seq<string>, anatFiles: seq<string>, tag: string, keep: string)
    requires Apply(anat, StaleScans(anatFiles, tag, keep)).Ok?
    ensures var d := Apply(anat, StaleScans(anatFiles, tag, keep)).value;
            (forall f :: f in d && f in anatFiles && Contains(f, tag) ==> Contains(f, keep)) &&
            (forall f :: f in anat && !Contains(f, tag) ==> f in d)
  {
    ApplyRemoves(anat, StaleScans(anatFiles, tag, keep));
  }

  /** The scan kept has the largest index among the NIfTIs of its kind. */
  lemma LatestScanIndex(anatFiles: seq<string>, tag: string, f: string)
    requires Select(NiftiStems(anatFiles, tag), true).Ok?
    requires f in anatFiles && Contains(f, tag) && Contains(f, ".nii")
    ensures RunIndex(Stem(f)).Some?
    ensures RunIndex(Stem(f)).value <= RunIndex(Select(NiftiStems(anatFiles, tag), true).value).value
  {
    var stems := NiftiStems(anatFiles, tag);
    MaxStemIsMax(stems);
    assert Stem(f) in stems;
    var k :| 0 <= k < |stems| && stems[k] == Stem(f);
  }

  /** The names the renames of `ops` take away. */
  function Sources(ops: seq<FileOp>): set<string>
    decreases |ops|
  {
    if |ops| == 0 then {} else (if ops[0].Rename? then {ops[0].src} else {}) + Sources(ops[1..])
  }

  /** The names the renames of `ops` give. */
  function Targets(ops: seq<FileOp>): set<string>
    decreases |ops|
  {
    if |ops| == 0 then {} else (if ops[0].Rename? then {ops[0].dst} else {}) + Targets(ops[1..])
  }

  lemma {:induction false} RenamesConcat(a: seq<FileOp>, b: seq<FileOp>)
    ensures Sources(a + b) == Sources(a) + Sources(b) && Targets(a + b) == Targets(a) + Targets(b)
    decreases |a|
  {
    if |a| == 0 {
      assert a + b == b;
    } else {
      RenamesConcat(a[1..], b);
      assert (a + b)[0] == a[0] && (a + b)[1..] == a[1..] + b;
    }
  }

  /** Renames take away their sources and add their targets: whatever
      is left after them is a target, or an old entry no rename took. */
  lemma {:induction false} ApplyRenamesFrom(d: seq<string>, ops: seq<FileOp>)
    requires forall k :: 0 <= k < |ops| ==> ops[k].Rename?
    requires Apply(d, ops).Ok?
    ensures forall x :: x in Apply(d, ops).value ==> x in Targets(ops) || (x in d && x !in Sources(ops))
    decreases |ops|
  {
    if |ops| > 0 {
      var d' := Put(Without(d, ops[0].src), ops[0].dst);
      assert Apply(d, ops) == Apply(d', ops[1..]);
      ApplyRenamesFrom(d', ops[1..]);
    }
  }

  /** An entry no rename takes away is there afterwards exactly when it
      was there before or some rename gives it its name. */
  lemma {:induction false} ApplyRenamesTo(d: seq<string>, ops: seq<FileOp>, y: string)
    requires forall k :: 0 <= k < |ops| ==> ops[k].Rename?
    requires y !in Sources(ops)
    requires Apply(d, ops).Ok?
    ensures y in Apply(d, ops).value <==> y in d || y in Targets(ops)
    decreases |ops|
  {
    if |ops| > 0 {
      var d' := Put(Without(d, ops[0].src), ops[0].dst);
      assert Apply(d, ops) == Apply(d', ops[1..]);
      ApplyRenamesTo(d', ops[1..], y);
    }
  }

  /** What the renames of one listed anat file take and give. */
  lemma ScanRenameNames(f: string, tag: string, target: string)
    ensures var r := ScanRename(f, tag, target);
            (forall k :: 0 <= k < |r| ==> r[k].Rename?) &&
            Sources(r) == (if Contains(f, tag) && (Contains(f, ".nii") || Contains(f, ".json")) then {f} else {}) &&
            Targets(r) == (if Contains(f, tag) && Contains(f, ".nii") then {target + ImageExt} else {}) +
                          (if Contains(f, tag) && Contains(f, ".json") then {target + SidecarExt} else {})
  {
    var image := if Contains(f, tag) && Contains(f, ".nii") then [Rename(f, target + ImageExt)] else [];
    var sidecar := if Contains(f, tag) && Contains(f, ".json") then [Rename(f, target + SidecarExt)] else [];
    RenamesConcat(image, sidecar);
  }

  /** Every rename of the listed anat files takes a listed file of the
      kind to one of the two BIDS names. */
  lemma {:induction false} ScanRenamesNames(files: seq<string>, tag: string, target: string)
    ensures var r := ScanRenames(files, tag, target);
            (forall k :: 0 <= k < |r| ==> r[k].Rename?) &&
            (forall x :: x in Sources(r) ==> x in files && Contains(x, tag) && (Contains(x, ".nii") || Contains(x, ".json"))) &&
            (forall x :: x in Targets(r) ==> x == target + ImageExt || x == target + SidecarExt)
    decreases |files|
  {
    if |files| > 0 {
      ScanRenamesNames(files[1..], tag, target);
      ScanRenameNames(files[0], tag, target);
      RenamesConcat(ScanRename(files[0], tag, target), ScanRenames(files[1..], tag, target));
      assert forall x :: x in files[1..] ==> x in files;
    }
  }

  /** Every listed NIfTI and JSON of the kind is renamed. */
  lemma {:induction false} ScanRenamesCover(files: seq<string>, tag: string, target: string, f: string)
    requires f in files && Contains(f, tag) && (Contains(f, ".nii") || Contains(f, ".json"))
    ensures f in Sources(ScanRenames(files, tag, target))
    decreases |files|
  {
    ScanRenameNames(files[0], tag, target);
    RenamesConcat(ScanRename(files[0], tag, target), ScanRenames(files[1..], tag, target));
    if files[0] != f {
      ScanRenamesCover(files[1..], tag, target, f);
    }
  }

  /** A BIDS name is given exactly when a listed file of the kind carries
      its extension (`.nii` for the image, `.json` for the side-car). */
  lemma {:induction false} ScanRenamesGive(files: seq<string>, tag: string, target: string, image: bool)
    ensures var name := target + (if image then ImageExt else SidecarExt);
            var ext := if image then ".nii" else ".json";
            name in Targets(ScanRenames(files, tag, target)) <==>
            exists f :: f in files && Contains(f, tag) && Contains(f, ext)
    decreases |files|
  {
    if |files| > 0 {
      ScanRenamesGive(files[1..], tag, target, image);
      ScanRenameNames(files[0], tag, target);
      RenamesConcat(ScanRename(files[0], tag, target), ScanRenames(files[1..], tag, target));
      assert forall g :: g in files <==> g == files[0] || g in files[1..] by {
        assert files == [files[0]] + files[1..];
      }
      assert (target + ImageExt)[|target|..] == ImageExt;
      assert (target + SidecarExt)[|target|..] == SidecarExt;
    }
  }

  /** What the deletions leave of the folder: of the kind, the listed files
      carrying the kept name; of other kinds, everything. */
  lemma ReduceScansDeletes(anat: seq<string>, anatFiles: seq<string>, tag: string, keep: string)
    requires forall f :: Contains(f, tag) ==> (f in anat <==> f in anatFiles)
    requires Apply(anat, StaleScans(anatFiles, tag, keep)).Ok?
    ensures var d := Apply(anat, StaleScans(anatFiles, tag, keep)).value;
            (forall f :: Contains(f, tag) ==> (f in d <==> f in anatFiles && Contains(f, keep))) &&
            (forall f :: f in d <==> f in anat && (Contains(f, tag) ==> Contains(f, keep)))
  {
    ApplyRemoves(anat, StaleScans(anatFiles, tag, keep));
  }

  /** On success, what is left of the kind is the kept scan under its
      BIDS names: `<target>.nii.gz` always, `<target>.json` when the kept
      scan had a JSON side-car, and no other NIfTI or JSON of the kind.
      Entries of other kinds stay, and nothing else is added. This holds
      for a folder whose files of the kind are the listed ones and which
      does not hold the BIDS names yet. */
  lemma ReduceScansResult(anat: seq<string>, anatFiles: seq<string>, tag: string, target: string)
    requires exists k :: 0 <= k < |anatFiles| && Contains(anatFiles[k], tag)
    requires forall f :: Contains(f, tag) ==> (f in anat <==> f in anatFiles)
    requires target + ImageExt !in anat && target + SidecarExt !in anat
    requires ReduceScans(anat, anatFiles, tag, target).Ok?
    ensures var keep := Select(NiftiStems(anatFiles, tag), true).value;
            var r := ReduceScans(anat, anatFiles, tag, target).value;
            target + ImageExt in r &&
            (target + SidecarExt in r <==>
             exists f :: f in anatFiles && Contains(f, tag) && Contains(f, keep) && Contains(f, ".json")) &&
            (forall x :: x in r && Contains(x, tag) && (Contains(x, ".nii") || Contains(x, ".json")) ==>
                           x == target + ImageExt || x == target + SidecarExt) &&
            (forall x :: x in r ==> x in anat || x == target + ImageExt || x == target + SidecarExt) &&
            (forall x :: x in anat && !Contains(x, tag) ==> x in r)
  {
    var keep := Select(NiftiStems(anatFiles, tag), true).value;
    var d := Apply(anat, StaleScans(anatFiles, tag, keep)).value;
    ReduceScansDeletes(anat, anatFiles, tag, keep);
    RenamesLeave(d, anatFiles, tag, keep, target);
    var f := KeptImage(anatFiles, tag, true);
  }

  /** The NIfTI of the kept scan is listed, and carries the kept name. */
  lemma KeptImage(anatFiles: seq<string>, tag: string, latest: bool) returns (f: string)
    requires Select(NiftiStems(anatFiles, tag), latest).Ok?
    ensures f in anatFiles && Contains(f, tag) && Contains(f, ".nii")
    ensures Contains(f, Select(NiftiStems(anatFiles, tag), latest).value)
  {
    var keep := Select(NiftiStems(anatFiles, tag), latest).value;
    f :| f in anatFiles && Contains(f, tag) && Contains(f, ".nii") && keep == Stem(f);
    ContainsPrefix(f, keep);
  }

  /** The renames after the deletions, for a folder `d` holding of the kind
      exactly the listed files that carry the kept name. */
  lemma RenamesLeave(d: seq<string>, anatFiles: seq<string>, tag: string, keep: string, target: string)
    requires forall f :: Contains(f, tag) ==> (f in d <==> f in anatFiles && Contains(f, keep))
    requires target + ImageExt !in d && target + SidecarExt !in d
    requires Apply(d, ScanRenames(d, tag, target)).Ok?
    ensures var r := Apply(d, ScanRenames(d, tag, target)).value;
            (target + ImageExt in r <==>
             exists f :: f in anatFiles && Contains(f, tag) && Contains(f, keep) && Contains(f, ".nii")) &&
            (target + SidecarExt in r <==>
             exists f :: f in anatFiles && Contains(f, tag) && Contains(f, keep) && Contains(f, ".json")) &&
            (forall x :: x in r && Contains(x, tag) && (Contains(x, ".nii") || Contains(x, ".json")) ==>
                           x == target + ImageExt || x == target + SidecarExt) &&
            (forall x :: x in r ==> x in d || x == target + ImageExt || x == target + SidecarExt) &&
            (forall x :: x in d && !Contains(x, tag) ==> x in r)
  {
    var ops := ScanRenames(d, tag, target);
    var r := Apply(d, ops).value;
    ScanRenamesNames(d, tag, target);
    ScanRenamesGive(d, tag, target, true);
    ScanRenamesGive(d, tag, target, false);
    ApplyRenamesFrom(d, ops);
    ApplyRenamesTo(d, ops, target + ImageExt);
    ApplyRenamesTo(d, ops, target + SidecarExt);
    forall x | x in r && Contains(x, tag) && (Contains(x, ".nii") || Contains(x, ".json"))
      ensures x == target + ImageExt || x == target + SidecarExt
    {
      if x in d {
        ScanRenamesCover(d, tag, target, x);
      }
    }
    forall x | x in d && !Contains(x, tag) ensures x in r {
      ApplyRenamesTo(d, ops, x);
    }
  }

  // ---------------------------------------------------------------------
  // Task runs
  // ---------------------------------------------------------------------

  /** A Python value, as far as the stray-character test needs one. */
  datatype PyValue = PyText(s: string) | PyBool(b: bool)

  /** `any(x for x in xs)`: true when some string is non-empty. */
  predicate AnyTruthy(xs: seq<string>) {
    exists k :: 0 <= k < |xs| && |xs[k]| > 0
  }

  /** `file_name[0] == any(x for x in ["_", "-", "."])`: a one-character
      string compared with a bool. */
  predicate StrayFirst(fileName: string)
    requires |fileName| > 0
  {
    PyText([fileName[0]]) == PyBool(AnyTruthy(["_", "-", "."]))
  }

  /** The stray-character test never fires, whatever the first character
      is (a string never equals a bool). */
  lemma StrayTestNeverFires(fileName: string)
    requires |fileName| > 0
    ensures !StrayFirst(fileName)
  {
  }

  /** The task label: the run name lower-cased, the task code removed, the
      stray-character and repeated-separator clean-ups, then only letters
      and digits; an empty remainder fails at `file_name[0]`. */
  function TaskLabel(group: string, taskCode: string): Result<string> {
    var fileName := Replace(Lower(group), Lower(taskCode), "");
    if |fileName| == 0 then Err("IndexError: string index out of range")
    else
      var f1 := if StrayFirst(fileName) then Drop(fileName, 1) else fileName;
      var f2 := if Contains(f1, "__") then Replace(f1, "__", "_") else f1;
      var f3 := if Contains(f2, "--") then Replace(f2, "--", "-") else f2;
      var f4 := if Contains(f3, "..") then Replace(f3, "..", ".") else f3;
      Ok(AlnumOnly(f4))
  }

  /** The clean-ups before the letters-and-digits filter change nothing:
      the label is the letters and digits of the lower-cased name with the
      task code removed. */
  lemma TaskLabelLetters(group: string, taskCode: string)
    ensures var fileName := Replace(Lower(group), Lower(taskCode), "");
            TaskLabel(group, taskCode) ==
            if |fileName| == 0 then Err("IndexError: string index out of range") else Ok(AlnumOnly(fileName))
  {
    var fileName := Replace(Lower(group), Lower(taskCode), "");
    if |fileName| > 0 {
      StrayTestNeverFires(fileName);
      var f2 := if Contains(fileName, "__") then Replace(fileName, "__", "_") else fileName;
      var f3 := if Contains(f2, "--") then Replace(f2, "--", "-") else f2;
      AlnumOnlyReplace(fileName, "__", "_");
      AlnumOnlyReplace(f2, "--", "-");
      AlnumOnlyReplace(f3, "..", ".");
    }
  }

  /** `"rsfc" in file.lower() or "rest" in file.lower()` */
  predicate IsRest(f: string) {
    Contains(Lower(f), "rsfc") || Contains(Lower(f), "rest")
  }

  /** The func listing split into `rsfc_files` (`rest`) or `task_files`. */
  function RunsOfKind(files: seq<string>, rest: bool): (r: seq<string>)
    ensures forall x :: x in r <==> x in files && IsRest(x) == rest
    decreases |files|
  {
    if |files| == 0 then []
    else RunsOfKind(files[..|files| - 1], rest) + (if IsRest(Last(files)) == rest then [Last(files)] else [])
  }

  /** `file.replace("_" + file.split("_")[-1], "")`: the name without its
      series number (every occurrence of that piece is removed). */
  function GroupOf(f: string): string {
    Replace(f, "_" + Last(Split(f, '_')), "")
  }

  /** `file_names`: the groups of the task NIfTIs, each once, in first-seen
      order. */
  function GroupNames(files: seq<string>): (r: seq<string>)
    ensures forall g :: g in r <==> exists f :: f in files && Contains(f, ".nii") && g == GroupOf(f)
    ensures forall i, j :: 0 <= i < j < |r| ==> r[i] != r[j]
    decreases |files|
  {
    if |files| == 0 then []
    else
      var g := GroupNames(files[..|files| - 1]);
      var f := Last(files);
      if Contains(f, ".nii") && GroupOf(f) !in g then g + [GroupOf(f)] else g
  }

  /** The renames for one group, file by file, in the order of the
      listing. */
  function RunRenames(files: seq<string>, bold: string, sbref: string, target: string): seq<FileOp>
    decreases |files|
  {
    if |files| == 0 then [] else RunRename(files[0], bold, sbref, target) + RunRenames(files[1..], bold, sbref, target)
  }

  /** The renames of one file, tested in the script's order: a file whose
      name contains the BOLD stem becomes `<target>_bold.nii.gz` (a NIfTI)
      or `<target>_bold.json` (a JSON), then one containing the SBRef stem
      becomes `<target>_sbref.nii.gz` or `<target>_sbref.json`. */
  function RunRename(o: string, bold: string, sbref: string, target: string): seq<FileOp> {
    ScanRename(o, bold, target + "_bold") + ScanRename(o, sbref, target + "_sbref")
  }

  lemma {:induction false} RunRenamesConcat(a: seq<string>, b: seq<string>, bold: string, sbref: string, target: string)
    ensures RunRenames(a + b, bold, sbref, target) == RunRenames(a, bold, sbref, target) + RunRenames(b, bold, sbref, target)
    decreases |a|
  {
    if |a| == 0 {
      assert a + b == b;
    } else {
      assert (a + b)[0] == a[0] && (a + b)[1..] == a[1..] + b;
      RunRenamesConcat(a[1..], b, bold, sbref, target);
      var x, y, z := RunRename(a[0], bold, sbref, target), RunRenames(a[1..], bold, sbref, target), RunRenames(b, bold, sbref, target);
      assert x + (y + z) == (x + y) + z;
    }
  }

  /** The renames of one file, one condition at a time. */
  lemma RunRenamesOne(o: string, bold: string, sbref: string, target: string)
    ensures RunRenames([o], bold, sbref, target) ==
            (if Contains(o, bold) && Contains(o, ".nii") then [Rename(o, target + "_bold" + ImageExt)] else []) +
            ((if Contains(o, bold) && Contains(o, ".json") then [Rename(o, target + "_bold" + SidecarExt)] else []) +
             ((if Contains(o, sbref) && Contains(o, ".nii") then [Rename(o, target + "_sbref" + ImageExt)] else []) +
              ((if Contains(o, sbref) && Contains(o, ".json") then [Rename(o, target + "_sbref" + SidecarExt)] else []) + [])))
  {
    assert [o][1..] == [];
  }

  /** A NIfTI carrying a stem that is both BOLD and SBRef gets two renames. */
  lemma SingleRunRenames(o: string, stem: string, target: string)
    requires Contains(o, stem) && Contains(o, ".nii") && !Contains(o, ".json")
    ensures RunRenames([o], stem, stem, target) ==
            [Rename(o, target + "_bold" + ImageExt), Rename(o, target + "_sbref" + ImageExt)]
  {
    RunRenamesOne(o, stem, stem, target);
  }

  /** With a single run in a group BOLD and SBRef are the same stem, so its
      NIfTI is renamed twice and the second rename fails. */
  lemma SingleRunRenamedTwice(d: seq<string>, pre: seq<string>, o: string, post: seq<string>, stem: string,
                              target: string)
    requires Contains(o, stem) && Contains(o, ".nii") && !Contains(o, ".json")
    requires o != target + "_bold" + ImageExt
    ensures Apply(d, RunRenames(pre + [o] + post, stem, stem, target)).Err?
  {
    var ops := [Rename(o, target + "_bold" + ImageExt), Rename(o, target + "_sbref" + ImageExt)];
    SingleRunRenames(o, stem, target);
    RunRenamesConcat(pre, [o], stem, stem, target);
    RunRenamesConcat(pre + [o], post, stem, stem, target);
    var a := RunRenames(pre, stem, stem, target);
    var c := RunRenames(post, stem, stem, target);
    ApplyConcat(d, a + ops, c);
    ApplyConcat(d, a, ops);
    if Apply(d, a).Ok? {
      RenameTwice(Apply(d, a).value, o, target + "_bold" + ImageExt, target + "_sbref" + ImageExt);
    }
  }

  /** The renames of one group of task runs, or the error that stops the
      script: the candidates are its NIfTIs, BOLD the latest and SBRef the
      earliest. */
  function GroupRenames(taskFiles: seq<string>, group: string, subject: string, taskCode: string)
    : Result<seq<FileOp>>
  {
    var candidates := NiftiStems(taskFiles, group);
    match Select(candidates, true)
    case Err(e) => Err(e)
    case Ok(bold) =>
      var sbref := Select(candidates, false);
      match TaskLabel(group, taskCode)
      case Err(e) => Err(e)
      case Ok(taskLabel) => Ok(RunRenames(taskFiles, bold, sbref.value, subject + "_task-" + taskLabel))
  }

  /** One group's renames, applied to the func folder. */
  function GroupStep(func: seq<string>, taskFiles: seq<string>, group: string, subject: string, taskCode: string)
    : Result<seq<string>>
  {
    var ops := GroupRenames(taskFiles, group, subject, taskCode);
    if ops.Err? then Err(ops.error) else Apply(func, ops.value)
  }

  /** All groups, one after the other, on the func folder. */
  function TaskRuns(func: seq<string>, taskFiles: seq<string>, groups: seq<string>, subject: string,
                    taskCode: string): Result<seq<string>>
    decreases |groups|
  {
    if |groups| == 0 then Ok(func)
    else
      var d := GroupStep(func, taskFiles, groups[0], subject, taskCode);
      if d.Err? then d else TaskRuns(d.value, taskFiles, groups[1..], subject, taskCode)
  }

  /** `BOLD_run in original_file` or `SBRef in original_file`, for a NIfTI
      or a JSON: the files a group's renames take away. */
  predicate RenamedRun(o: string, bold: string, sbref: string) {
    (Contains(o, bold) || Contains(o, sbref)) && (Contains(o, ".nii") || Contains(o, ".json"))
  }

  /** A group's renames are the BOLD renames and the SBRef renames
      interleaved: they take and give the same names as those two. */
  lemma {:induction false} RunRenamesSplit(files: seq<string>, bold: string, sbref: string, target: string)
    ensures var r := RunRenames(files, bold, sbref, target);
            var rb := ScanRenames(files, bold, target + "_bold");
            var rs := ScanRenames(files, sbref, target + "_sbref");
            Sources(r) == Sources(rb) + Sources(rs) && Targets(r) == Targets(rb) + Targets(rs)
    decreases |files|
  {
    if |files| > 0 {
      var o, rest := files[0], files[1..];
      RunRenamesSplit(rest, bold, sbref, target);
      RenamesConcat(ScanRename(o, bold, target + "_bold"), ScanRename(o, sbref, target + "_sbref"));
      RenamesConcat(RunRename(o, bold, sbref, target), RunRenames(rest, bold, sbref, target));
      RenamesConcat(ScanRename(o, bold, target + "_bold"), ScanRenames(rest, bold, target + "_bold"));
      RenamesConcat(ScanRename(o, sbref, target + "_sbref"), ScanRenames(rest, sbref, target + "_sbref"));
    }
  }

  /** Every rename of a group is a rename. */
  lemma {:induction false} RunRenamesAreRenames(files: seq<string>, bold: string, sbref: string, target: string)
    ensures forall k :: 0 <= k < |RunRenames(files, bold, sbref, target)| ==> RunRenames(files, bold, sbref, target)[k].Rename?
    decreases |files|
  {
    if |files| > 0 {
      RunRenamesAreRenames(files[1..], bold, sbref, target);
      ScanRenameNames(files[0], bold, target + "_bold");
      ScanRenameNames(files[0], sbref, target + "_sbref");
      RenamesJoin(ScanRename(files[0], bold, target + "_bold"), ScanRename(files[0], sbref, target + "_sbref"));
      RenamesJoin(RunRename(files[0], bold, sbref, target), RunRenames(files[1..], bold, sbref, target));
    }
  }

  lemma RenamesJoin(a: seq<FileOp>, b: seq<FileOp>)
    requires forall k :: 0 <= k < |a| ==> a[k].Rename?
    requires forall k :: 0 <= k < |b| ==> b[k].Rename?
    ensures forall k :: 0 <= k < |a + b| ==> (a + b)[k].Rename?
  {
  }

  /** A group's renames take exactly the listed files that carry the BOLD
      or the SBRef stem, and give only the four BIDS names of the group. */
  lemma RunRenamesNames(files: seq<string>, bold: string, sbref: string, target: string)
    ensures var r := RunRenames(files, bold, sbref, target);
            (forall k :: 0 <= k < |r| ==> r[k].Rename?) &&
            (forall x :: x in Sources(r) <==> x in files && RenamedRun(x, bold, sbref)) &&
            (forall x :: x in Targets(r) ==> x == target + "_bold" + ImageExt || x == target + "_bold" + SidecarExt ||
                                             x == target + "_sbref" + ImageExt || x == target + "_sbref" + SidecarExt)
  {
    RunRenamesAreRenames(files, bold, sbref, target);
    RunRenamesSplit(files, bold, sbref, target);
    ScanRenamesNames(files, bold, target + "_bold");
    ScanRenamesNames(files, sbref, target + "_sbref");
    forall x | x in files && RenamedRun(x, bold, sbref)
      ensures x in Sources(RunRenames(files, bold, sbref, target))
    {
      if Contains(x, bold) {
        ScanRenamesCover(files, bold, target + "_bold", x);
      } else {
        ScanRenamesCover(files, sbref, target + "_sbref", x);
      }
    }
  }

  /** The BOLD names and the SBRef names of a group differ. */
  lemma BoldSbrefDiffer(target: string, e1: string, e2: string)
    ensures target + "_bold" + e1 != target + "_sbref" + e2
  {
    assert (target + "_bold" + e1)[|target| + 1] == 'b';
    assert (target + "_sbref" + e2)[|target| + 1] == 's';
  }

  /** One of the four BIDS names is given exactly when a listed file
      carries its stem (BOLD or SBRef) and its extension (`.nii` for the
      image, `.json` for the side-car). */
  lemma RunRenamesGive(files: seq<string>, bold: string, sbref: string, target: string, isBold: bool, image: bool)
    ensures var name := target + (if isBold then "_bold" else "_sbref") + (if image then ImageExt else SidecarExt);
            var stem := if isBold then bold else sbref;
            var ext := if image then ".nii" else ".json";
            name in Targets(RunRenames(files, bold, sbref, target)) <==>
            exists o :: o in files && Contains(o, stem) && Contains(o, ext)
  {
    RunRenamesSplit(files, bold, sbref, target);
    ScanRenamesNames(files, bold, target + "_bold");
    ScanRenamesNames(files, sbref, target + "_sbref");
    ScanRenamesGive(files, if isBold then bold else sbref, target + (if isBold then "_bold" else "_sbref"), image);
    BoldSbrefDiffer(target, ImageExt, ImageExt);
    BoldSbrefDiffer(target, ImageExt, SidecarExt);
    BoldSbrefDiffer(target, SidecarExt, ImageExt);
    BoldSbrefDiffer(target, SidecarExt, SidecarExt);
  }

  /** On success, one group of task runs is under its BIDS names: the
      BOLD run's and the SBRef's NIfTI always, each JSON side-car exactly
      when a listed file carries that stem and `.json`. The files carrying
      either stem are gone, nothing else is added, and every other entry
      stays. This holds for a func folder and a task listing that do not
      hold the group's BIDS names yet. */
  lemma GroupStepResult(func: seq<string>, taskFiles: seq<string>, group: string, subject: string,
                        taskCode: string)
    requires GroupStep(func, taskFiles, group, subject, taskCode).Ok?
    requires var target := subject + "_task-" + TaskLabel(group, taskCode).value;
             forall x :: (x == target + "_bold" + ImageExt || x == target + "_bold" + SidecarExt ||
                          x == target + "_sbref" + ImageExt || x == target + "_sbref" + SidecarExt) ==>
                         x !in func && x !in taskFiles
    ensures var bold := Select(NiftiStems(taskFiles, group), true).value;
            var sbref := Select(NiftiStems(taskFiles, group), false).value;
            var target := subject + "_task-" + TaskLabel(group, taskCode).value;
            var r := GroupStep(func, taskFiles, group, subject, taskCode).value;
            target + "_bold" + ImageExt in r && target + "_sbref" + ImageExt in r &&
            (target + "_bold" + SidecarExt in r <==>
             exists o :: o in taskFiles && Contains(o, bold) && Contains(o, ".json")) &&
            (target + "_sbref" + SidecarExt in r <==>
             exists o :: o in taskFiles && Contains(o, sbref) && Contains(o, ".json")) &&
            (forall x :: x in r ==> x == target + "_bold" + ImageExt || x == target + "_bold" + SidecarExt ||
                                    x == target + "_sbref" + ImageExt || x == target + "_sbref" + SidecarExt ||
                                    (x in func && !(x in taskFiles && RenamedRun(x, bold, sbref)))) &&
            (forall x :: x in func && !(x in taskFiles && RenamedRun(x, bold, sbref)) ==> x in r)
  {
    var bold := Select(NiftiStems(taskFiles, group), true).value;
    var sbref := Select(NiftiStems(taskFiles, group), false).value;
    var target := subject + "_task-" + TaskLabel(group, taskCode).value;
    var ops := RunRenames(taskFiles, bold, sbref, target);
    assert GroupRenames(taskFiles, group, subject, taskCode) == Ok(ops);
    RunRenamesNames(taskFiles, bold, sbref, target);
    ApplyRenamesFrom(func, ops);
    var b := KeptImage(taskFiles, group, true);
    var s := KeptImage(taskFiles, group, false);
    RunRenamesGive(taskFiles, bold, sbref, target, true, true);
    RunRenamesGive(taskFiles, bold, sbref, target, true, false);
    RunRenamesGive(taskFiles, bold, sbref, target, false, true);
    RunRenamesGive(taskFiles, bold, sbref, target, false, false);
    ApplyRenamesTo(func, ops, target + "_bold" + ImageExt);
    ApplyRenamesTo(func, ops, target + "_bold" + SidecarExt);
    ApplyRenamesTo(func, ops, target + "_sbref" + ImageExt);
    ApplyRenamesTo(func, ops, target + "_sbref" + SidecarExt);
    forall x | x in func && !(x in taskFiles && RenamedRun(x, bold, sbref))
      ensures x in GroupStep(func, taskFiles, group, subject, taskCode).value
    {
      ApplyRenamesTo(func, ops, x);
    }
  }

  // ---------------------------------------------------------------------
  // Resting-state runs
  // ---------------------------------------------------------------------

  /** The distinct items, in first-seen order: the keys of a dictionary
      filled in that order, the order taken as the order of iteration
      (Python 2 iterates in hash order). */
  function Dedup(items: seq<string>): (r: seq<string>)
    ensures forall x :: x in r <==> x in items
    ensures forall i, j :: 0 <= i < j < |r| ==> r[i] != r[j]
    decreases |items|
  {
    if |items| == 0 then []
    else
      var d := Dedup(items[..|items| - 1]);
      if Last(items) in d then d else d + [Last(items)]
  }

  /** `rest_bold_dict`: the rest runs with a run one index below them. */
  function RestBold(keys: seq<string>, all: seq<string>): (r: seq<(int, string)>)
    requires AllIndexed(all)
    requires forall k :: 0 <= k < |keys| ==> keys[k] in all
    decreases |keys|
  {
    if |keys| == 0 then []
    else
      var x := Last(keys);
      assert x in all;
      var i := RunIndex(x).value;
      RestBold(keys[..|keys| - 1], all) +
      (if exists j :: 0 <= j < |all| && RunIndex(all[j]).value == i - 1 then [(i, x)] else [])
  }

  /** A rest run is a BOLD run exactly when a run one index below it
      exists; that run is its SBRef. */
  lemma {:induction false} RestBoldPaired(keys: seq<string>, all: seq<string>, i: int, x: string)
    requires AllIndexed(all)
    requires forall k :: 0 <= k < |keys| ==> keys[k] in all
    ensures (i, x) in RestBold(keys, all) <==>
            x in keys && RunIndex(x) == Some(i) && exists j :: 0 <= j < |all| && RunIndex(all[j]) == Some(i - 1)
    decreases |keys|
  {
    if |keys| > 0 {
      RestBoldPaired(keys[..|keys| - 1], all, i, x);
      assert keys == keys[..|keys| - 1] + [Last(keys)];
      assert Last(keys) in all;
      if x in keys && RunIndex(x) == Some(i) && x != Last(keys) {
        var k :| 0 <= k < |keys| && keys[k] == x;
        assert keys[..|keys| - 1][k] == x;
      }
      if x == Last(keys) {
        var j :| 0 <= j < |all| && all[j] == x;
      }
    }
  }

  function IntToStr(n: int): string {
    if n < 0 then "-" + NatToStr(-n) else NatToStr(n)
  }

  /** `file.replace(file_split[-1], str(int(file_split[-1]) - 1))`: every
      occurrence of the series number is decremented, not only the last. */
  function SbrefName(file: string, index: int): string {
    Replace(file, Last(Split(file, '_')), IntToStr(index - 1))
  }

  /** When the series number occurs only at the end, the SBRef name is
      the BOLD name with that number replaced. */
  lemma SbrefOfUniqueNumber(pre: string, number: string, lower: string)
    requires |number| > 0 && number[0] !in pre + "_"
    ensures Replace(pre + "_" + number, number, lower) == pre + "_" + lower
  {
    ReplaceSkip(pre + "_", number, number, lower);
    assert number[..|number|] == number && number[|number|..] == "";
  }

  /** A series number that also occurs earlier in the name is decremented
      there too: `rest1_MB_1` gives `rest0_MB_0`, not `rest1_MB_0`. */
  lemma SbrefRenumbersEverywhere()
    ensures Replace("rest1_MB_1", "1", "0") == "rest0_MB_0"
  {
    var one, zero := "1", "0";
    ReplaceHead(one, "", zero);
    ReplaceSkip("_MB_", one, one, zero);
    ReplaceHead(one, "_MB_" + one, zero);
    ReplaceSkip("rest", one + ("_MB_" + one), one, zero);
    assert "rest" + (one + ("_MB_" + one)) == "rest1_MB_1";
    assert "rest" + (zero + ("_MB_" + zero)) == "rest0_MB_0";
  }

  /** The four renames of one BOLD rest run and its SBRef. */
  function RestRenames(file: string, index: int, target: string): (r: seq<FileOp>)
    ensures |r| == 4
  {
    var sbref := SbrefName(file, index);
    [Rename(file + ImageExt, target + BoldImage), Rename(file + SidecarExt, target + BoldSidecar),
     Rename(sbref + ImageExt, target + SbrefImage), Rename(sbref + SidecarExt, target + SbrefSidecar)]
  }

  const ImageExt := ".nii.gz"
  const SidecarExt := ".json"
  const BoldImage := "_bold.nii.gz"
  const BoldSidecar := "_bold.json"
  const SbrefImage := "_sbref.nii.gz"
  const SbrefSidecar := "_sbref.json"

  /** `task-rest`, with `_run-0<run>` unless there is a single run. */
  function RestTarget(subject: string, run: nat, single: bool): string {
    subject + "_task-rest" + (if single then "" else "_run-0" + NatToStr(run))
  }

  /** The loop over the sorted BOLD rest runs, `run` counting from 1. */
  function RestOps(sorted: seq<(int, string)>, subject: string, run: nat, single: bool): (r: seq<FileOp>)
    ensures |r| == 4 * |sorted|
    decreases |sorted|
  {
    if |sorted| == 0 then []
    else RestRenames(sorted[0].1, sorted[0].0, RestTarget(subject, run, single)) + RestOps(sorted[1..], subject, run + 1, single)
  }
  lemma RestTargetIs(subject: string, run: nat, single: bool)
    ensures RestTarget(subject, run, single) ==
            if single then subject + "_task-rest" else subject + "_task-rest_run-0" + NatToStr(run)
  {
  }

  /** One step of the rest loop: the renames of item `i`, then the rest. */
  lemma RestOpsAt(sorted: seq<(int, string)>, subject: string, i: nat, single: bool)
    requires i < |sorted|
    ensures RestOps(sorted[i..], subject, i + 1, single) ==
            RestRenames(sorted[i].1, sorted[i].0, RestTarget(subject, i + 1, single)) + RestOps(sorted[i + 1..], subject, i + 2, single)
  {
    assert sorted[i..][0] == sorted[i] && sorted[i..][1..] == sorted[i + 1..];
  }

  lemma RestOpsFromStart(sorted: seq<(int, string)>, subject: string, single: bool)
    ensures RestOps(sorted[0..], subject, 0 + 1, single) == RestOps(sorted, subject, 1, single)
  {
    assert sorted[0..] == sorted;
  }

  /** Applying the renames of item `i` onwards: those of item `i`, then,
      if they succeed, the others on what they leave. */
  lemma RestLoopStep(func: seq<string>, sorted: seq<(int, string)>, subject: string, i: nat, single: bool)
    requires i < |sorted|
    ensures var first := RestRenames(sorted[i].1, sorted[i].0, RestTarget(subject, i + 1, single));
            Apply(func, RestOps(sorted[i..], subject, i + 1, single)) ==
            match Apply(func, first)
            case Err(e) => Err(e)
            case Ok(d) => Apply(d, RestOps(sorted[i + 1..], subject, i + 2, single))
  {
    RestOpsAt(sorted, subject, i, single);
    ApplyConcat(func, RestRenames(sorted[i].1, sorted[i].0, RestTarget(subject, i + 1, single)),
                RestOps(sorted[i + 1..], subject, i + 2, single));
  }

  /** The resting-state step on the func folder. */
  function RestRuns(func: seq<string>, rsfcFiles: seq<string>, subject: string): Result<seq<string>> {
    var keys := Dedup(NiftiStems(rsfcFiles, ".nii"));
    if !AllIndexed(keys) then Err(BadIndex)
    else
      var sorted := Sorting.SortPairs(RestBold(keys, keys));
      Apply(func, RestOps(sorted, subject, 1, |sorted| == 1))
  }

  lemma {:induction false} RestOpsShape(sorted: seq<(int, string)>, subject: string, run: nat, single: bool, k: nat)
    requires k < |sorted|
    ensures RestOps(sorted, subject, run, single)[4 * k..4 * k + 4] ==
            RestRenames(sorted[k].1, sorted[k].0, RestTarget(subject, run + k, single))
    decreases |sorted|, 1
  {
    var head := RestRenames(sorted[0].1, sorted[0].0, RestTarget(subject, run, single));
    var tail := RestOps(sorted[1..], subject, run + 1, single);
    if k == 0 {
      assert RestOps(sorted, subject, run, single) == head + tail;
      BlockFirst(head, tail);
    } else {
      RestOpsLater(sorted, subject, run, single, k);
    }
  }

  /** The step of `RestOpsShape` past the first run. */
  lemma {:induction false} RestOpsLater(sorted: seq<(int, string)>, subject: string, run: nat, single: bool, k: nat)
    requires 0 < k < |sorted|
    ensures RestOps(sorted, subject, run, single)[4 * k..4 * k + 4] ==
            RestRenames(sorted[k].1, sorted[k].0, RestTarget(subject, run + k, single))
    decreases |sorted|, 0
  {
    var head := RestRenames(sorted[0].1, sorted[0].0, RestTarget(subject, run, single));
    var tail := RestOps(sorted[1..], subject, run + 1, single);
    RestOpsShape(sorted[1..], subject, run + 1, single, k - 1);
    RestBlockShift(sorted, subject, run, single, k);
    BlockAfter(RestOps(sorted, subject, run, single), head, tail, k,
               RestRenames(sorted[1..][k - 1].1, sorted[1..][k - 1].0, RestTarget(subject, run + 1 + (k - 1), single)),
               RestRenames(sorted[k].1, sorted[k].0, RestTarget(subject, run + k, single)));
  }

  lemma RestBlockShift(sorted: seq<(int, string)>, subject: string, run: nat, single: bool, k: nat)
    requires 0 < k < |sorted|
    ensures RestRenames(sorted[1..][k - 1].1, sorted[1..][k - 1].0, RestTarget(subject, run + 1 + (k - 1), single)) ==
            RestRenames(sorted[k].1, sorted[k].0, RestTarget(subject, run + k, single))
  {
    var r := run + k;
    assert run + 1 + (k - 1) == r;
    assert sorted[1..][k - 1] == sorted[k];
  }

  /** The first block of four of a sequence that starts with one. */
  lemma BlockFirst<T>(head: seq<T>, tail: seq<T>)
    requires |head| == 4
    ensures (head + tail)[0..4] == head
  {
  }

  /** A later block of four is a block of what follows the first. */
  lemma BlockAfter<T>(whole: seq<T>, head: seq<T>, tail: seq<T>, k: nat, recBlock: seq<T>, block: seq<T>)
    requires whole == head + tail && |head| == 4 && 0 < k && 4 * k + 4 <= |whole|
    requires tail[4 * (k - 1)..4 * (k - 1) + 4] == recBlock && recBlock == block
    ensures whole[4 * k..4 * k + 4] == block
  {
    assert whole[4 * k..4 * k + 4] == tail[4 * (k - 1)..4 * (k - 1) + 4];
  }

  /** The `k`-th BOLD rest run in (index, name) order becomes run `k + 1`,
      with its SBRef beside it; a single run gets no run number. */
  lemma RestRunNames(sorted: seq<(int, string)>, subject: string, k: nat)
    requires k < |sorted|
    ensures var ops := RestOps(sorted, subject, 1, |sorted| == 1);
            var target := subject + "_task-rest" + (if |sorted| == 1 then "" else "_run-0" + NatToStr(k + 1));
            ops[4 * k] == Rename(sorted[k].1 + ".nii.gz", target + "_bold.nii.gz") &&
            ops[4 * k + 2] == Rename(SbrefName(sorted[k].1, sorted[k].0) + ".nii.gz", target + "_sbref.nii.gz")
  {
    var ops := RestOps(sorted, subject, 1, |sorted| == 1);
    RestOpsShape(sorted, subject, 1, |sorted| == 1, k);
    var four := RestRenames(sorted[k].1, sorted[k].0, RestTarget(subject, 1 + k, |sorted| == 1));
    assert ops[4 * k] == four[0] && ops[4 * k + 2] == four[2];
  }

  // ---------------------------------------------------------------------
  // TaskName in the func JSON files
  // ---------------------------------------------------------------------

  const NoTaskName := "UnboundLocalError: local variable 'task_name' referenced before assignment"

  /** The loop over the func JSON files: each is given the task name in
      effect (its own `task-` piece, or the one left from an earlier file)
      and is removed and written again, so it is listed last. */
  function TaskNameSteps(func: seq<string>, names: map<string, string>, jsons: seq<string>,
                         previous: Option<string>): Result<(seq<string>, map<string, string>)>
    decreases |jsons|
  {
    if |jsons| == 0 then Ok((func, names))
    else match TimingFiles.TaskAfter(previous, jsons[0])
         case None => Err(NoTaskName)
         case Some(t) => TaskNameSteps(Put(func, jsons[0]), names[jsons[0] := t], jsons[1..], Some(t))
  }

  /** The loop fails only when the first JSON has no `task-` piece. */
  lemma {:induction false} TaskNameStepsFail(func: seq<string>, names: map<string, string>, jsons: seq<string>,
                                             previous: Option<string>)
    ensures TaskNameSteps(func, names, jsons, previous).Err? <==>
            |jsons| > 0 && previous.None? && TimingFiles.LastTaskPiece(Split(jsons[0], '_')).None?
    decreases |jsons|
  {
    if |jsons| > 0 {
      match TimingFiles.TaskAfter(previous, jsons[0])
      case None =>
      case Some(t) =>
        TaskNameStepsFail(Put(func, jsons[0]), names[jsons[0] := t], jsons[1..], Some(t));
    }
  }

  /** Every JSON that names a task gets that task as its `TaskName`, the
      others keep what they had and the listing keeps the same files. */
  lemma {:induction false} TaskNameStepsSet(func: seq<string>, names: map<string, string>, jsons: seq<string>,
                                            previous: Option<string>, f: string)
    requires TaskNameSteps(func, names, jsons, previous).Ok?
    ensures var r := TaskNameSteps(func, names, jsons, previous).value;
            (forall x :: x in r.0 <==> x in func || x in jsons) &&
            (f in jsons && TimingFiles.LastTaskPiece(Split(f, '_')).Some? ==>
               f in r.1 && r.1[f] == TimingFiles.LastTaskPiece(Split(f, '_')).value) &&
            (f !in jsons && f in names ==> f in r.1 && r.1[f] == names[f])
    decreases |jsons|
  {
    if |jsons| > 0 {
      var t := TimingFiles.TaskAfter(previous, jsons[0]).value;
      TaskNameStepsSet(Put(func, jsons[0]), names[jsons[0] := t], jsons[1..], Some(t), f);
      if f !in jsons[1..] && f == jsons[0] {
        assert TimingFiles.LastTaskPiece(Split(f, '_')).Some? ==> t == TimingFiles.LastTaskPiece(Split(f, '_')).value;
      }
    }
  }

  /** A JSON renamed by the script reads back its own task. */
  lemma RenamedJsonTask(subject: string, task: string, kind: string)
    requires '_' !in subject && '_' !in task && '_' !in kind + ".json"
    requires !Contains(kind + ".json", "task-")
    ensures TimingFiles.LastTaskPiece(Split(subject + "_task-" + task + "_" + kind + ".json", '_')) == Some(task)
  {
    var tail := kind + ".json";
    assert subject + "_task-" + task + "_" + kind + ".json" == subject + "_task-" + task + "_" + tail;
    TimingFiles.TaskOfBidsName(subject, task, tail);
  }

  // ---------------------------------------------------------------------
  // Fieldmaps
  // ---------------------------------------------------------------------

  /** `'spinecho' in item.lower() or 'fieldmap' in item.lower()` */
  predicate IsFieldmap(f: string) {
    Contains(Lower(f), "spinecho") || Contains(Lower(f), "fieldmap")
  }

  /** The direction label: the raw `PhaseEncodingDirection` when there are
      exactly four fieldmap files, otherwise `j` reads `PA` and `j-` reads
      `AP`; any other value is used as it is. */
  function Direction(raw: string, fileCount: nat): (r: string)
    ensures fileCount == 4 ==> r == raw
    ensures fileCount != 4 && raw == "j" ==> r == "PA"
    ensures fileCount != 4 && raw == "j-" ==> r == "AP"
    ensures raw != "j" && raw != "j-" ==> r == raw
  {
    if fileCount == 4 then raw else if raw == "j" then "PA" else if raw == "j-" then "AP" else raw
  }

  /** With a single pair the raw direction reaches the name, so the AP
      fieldmap is named `dir-j-`, not `dir-AP`. */
  lemma SinglePairRawDirection(subject: string)
    ensures subject + "_dir-" + Direction("j-", 4) + "_epi.nii.gz" == subject + "_dir-j-_epi.nii.gz"
  {
  }

  const NoDirection := "KeyError: 'PhaseEncodingDirection'"
  const NoSuchJson := "IOError: [Errno 2] No such file or directory"

  /** One fieldmap file: a NIfTI reads its JSON's direction (`phase`, keyed
      by the JSON's name when it is read) and both files are renamed
      `<subject>_dir-<direction>_epi`; other files are passed over. */
  function FieldmapStep(fmap: seq<string>, file: string, fileCount: nat, phase: map<string, string>,
                        subject: string): Result<seq<string>>
  {
    if !Contains(file, ".nii") then Ok(fmap)
    else
      var json := DropLast(file, 7) + ".json";
      if json !in fmap then Err(NoSuchJson)
      else if json !in phase then Err(NoDirection)
      else
        var target := subject + "_dir-" + Direction(phase[json], fileCount) + "_epi";
        Apply(fmap, [Rename(file, target + ".nii.gz"), Rename(json, target + ".json")])
  }

  /** The fieldmap loop; the first failure stops it. */
  function FieldmapSteps(fmap: seq<string>, files: seq<string>, fileCount: nat, phase: map<string, string>,
                         subject: string): Result<seq<string>>
    decreases |files|
  {
    if |files| == 0 then Ok(fmap)
    else
      var d := FieldmapStep(fmap, files[0], fileCount, phase, subject);
      if d.Err? then d else FieldmapSteps(d.value, files[1..], fileCount, phase, subject)
  }

  /** The fieldmap step on the fmap folder. */
  function Fieldmaps(fmap: seq<string>, phase: map<string, string>, subject: string): Result<seq<string>> {
    var files := RunsOfFieldmaps(fmap);
    FieldmapSteps(fmap, files, |files|, phase, subject)
  }

  function RunsOfFieldmaps(files: seq<string>): (r: seq<string>)
    ensures forall x :: x in r <==> x in files && IsFieldmap(x)
    decreases |files|
  {
    if |files| == 0 then []
    else RunsOfFieldmaps(files[..|files| - 1]) + (if IsFieldmap(Last(files)) then [Last(files)] else [])
  }

  /** `'%s.json' % file[:-7]`: the JSON side-car of a fieldmap NIfTI. */
  function FieldmapJson(file: string): string {
    DropLast(file, 7) + ".json"
  }

  /** `sub-<subject>_dir-<direction>_epi`: the BIDS stem of a fieldmap. */
  function EpiTarget(subject: string, raw: string, fileCount: nat): string {
    subject + "_dir-" + Direction(raw, fileCount) + "_epi"
  }

  /** The two renames of one fieldmap NIfTI whose direction is known. */
  function FieldmapRenames(file: string, fileCount: nat, phase: map<string, string>, subject: string): seq<FileOp> {
    if Contains(file, ".nii") && FieldmapJson(file) in phase then
      var target := EpiTarget(subject, phase[FieldmapJson(file)], fileCount);
      [Rename(file, target + ".nii.gz"), Rename(FieldmapJson(file), target + ".json")]
    else []
  }

  /** The renames of the whole fieldmap loop. */
  function FieldmapOps(files: seq<string>, fileCount: nat, phase: map<string, string>, subject: string)
    : seq<FileOp>
    decreases |files|
  {
    if |files| == 0 then []
    else FieldmapRenames(files[0], fileCount, phase, subject) + FieldmapOps(files[1..], fileCount, phase, subject)
  }

  /** A name shaped like a fieldmap's BIDS name. */
  predicate EpiNamed(x: string) {
    EndsWith(x, "_epi.nii.gz") || EndsWith(x, "_epi.json")
  }

  /** A step that succeeds did its two renames, after finding the NIfTI's
      direction. */
  lemma FieldmapStepRenames(d: seq<string>, file: string, fileCount: nat, phase: map<string, string>,
                            subject: string)
    requires FieldmapStep(d, file, fileCount, phase, subject).Ok?
    ensures Contains(file, ".nii") ==> FieldmapJson(file) in phase
    ensures FieldmapStep(d, file, fileCount, phase, subject) == Apply(d, FieldmapRenames(file, fileCount, phase, subject))
  {
  }

  /** A loop that succeeds did all the renames, in order, after finding
      every NIfTI's direction. */
  lemma {:induction false} FieldmapStepsRenames(d: seq<string>, files: seq<string>, fileCount: nat,
                                                phase: map<string, string>, subject: string)
    requires FieldmapSteps(d, files, fileCount, phase, subject).Ok?
    ensures forall f :: f in files && Contains(f, ".nii") ==> FieldmapJson(f) in phase
    ensures FieldmapSteps(d, files, fileCount, phase, subject) == Apply(d, FieldmapOps(files, fileCount, phase, subject))
    decreases |files|
  {
    if |files| > 0 {
      FieldmapStepRenames(d, files[0], fileCount, phase, subject);
      var d' := FieldmapStep(d, files[0], fileCount, phase, subject).value;
      FieldmapStepsRenames(d', files[1..], fileCount, phase, subject);
      ApplyConcat(d, FieldmapRenames(files[0], fileCount, phase, subject), FieldmapOps(files[1..], fileCount, phase, subject));
      assert forall f :: f in files <==> f == files[0] || f in files[1..];
    }
  }

  /** The fieldmap renames are renames, and give only `<subject>_dir-..._epi`
      names. */
  lemma {:induction false} FieldmapOpsTargets(files: seq<string>, fileCount: nat, phase: map<string, string>,
                                              subject: string)
    ensures forall k :: 0 <= k < |FieldmapOps(files, fileCount, phase, subject)| ==>
              FieldmapOps(files, fileCount, phase, subject)[k].Rename?
    ensures forall x :: x in Targets(FieldmapOps(files, fileCount, phase, subject)) ==>
              StartsWith(x, subject + "_dir-") && EpiNamed(x)
    decreases |files|
  {
    if |files| > 0 {
      var one := FieldmapRenames(files[0], fileCount, phase, subject);
      FieldmapOpsTargets(files[1..], fileCount, phase, subject);
      RenamesConcat(one, FieldmapOps(files[1..], fileCount, phase, subject));
      RenamesJoin(one, FieldmapOps(files[1..], fileCount, phase, subject));
      if |one| > 0 {
        var raw := phase[FieldmapJson(files[0])];
        EpiTargetShape(subject, raw, fileCount);
        assert [one[1]][1..] == [] && one[1..] == [one[1]];
      }
    }
  }

  lemma EpiTargetShape(subject: string, raw: string, fileCount: nat)
    ensures var t := EpiTarget(subject, raw, fileCount);
            StartsWith(t + ".nii.gz", subject + "_dir-") && EpiNamed(t + ".nii.gz") &&
            StartsWith(t + ".json", subject + "_dir-") && EpiNamed(t + ".json")
  {
    var d := Direction(raw, fileCount);
    var t := EpiTarget(subject, raw, fileCount);
    assert t + ".nii.gz" == subject + "_dir-" + (d + "_epi.nii.gz");
    assert t + ".json" == subject + "_dir-" + (d + "_epi.json");
  }

  /** A name that is no listed NIfTI and the JSON of none is never renamed. */
  lemma {:induction false} FieldmapOpsKeep(files: seq<string>, fileCount: nat, phase: map<string, string>,
                                           subject: string, x: string)
    requires forall g :: g in files && Contains(g, ".nii") ==> x != g && x != FieldmapJson(g)
    ensures x !in Sources(FieldmapOps(files, fileCount, phase, subject))
    decreases |files|
  {
    if |files| > 0 {
      var one := FieldmapRenames(files[0], fileCount, phase, subject);
      assert forall g :: g in files[1..] ==> g in files;
      FieldmapOpsKeep(files[1..], fileCount, phase, subject, x);
      RenamesConcat(one, FieldmapOps(files[1..], fileCount, phase, subject));
      if |one| > 0 {
        assert [one[1]][1..] == [] && one[1..] == [one[1]];
      }
    }
  }

  /** Every listed NIfTI whose direction is known gives both BIDS names. */
  lemma {:induction false} FieldmapOpsGive(files: seq<string>, fileCount: nat, phase: map<string, string>,
                                           subject: string, g: string)
    requires g in files && Contains(g, ".nii") && FieldmapJson(g) in phase
    ensures var t := EpiTarget(subject, phase[FieldmapJson(g)], fileCount);
            var r := Targets(FieldmapOps(files, fileCount, phase, subject));
            t + ".nii.gz" in r && t + ".json" in r
    decreases |files|
  {
    var one := FieldmapRenames(files[0], fileCount, phase, subject);
    RenamesConcat(one, FieldmapOps(files[1..], fileCount, phase, subject));
    if files[0] == g {
      assert |one| == 2 && [one[1]][1..] == [] && one[1..] == [one[1]];
    } else {
      FieldmapOpsGive(files[1..], fileCount, phase, subject, g);
    }
  }

  /** On success, every listed fieldmap NIfTI had a direction in its JSON,
      and both its files are now `<subject>_dir-<direction>_epi.nii.gz` and
      `.json`; every other entry stays, and every new entry is such a BIDS
      name. This holds for a folder where no fieldmap NIfTI and no JSON of
      one is named like a fieldmap's BIDS name yet. */
  lemma FieldmapsResult(fmap: seq<string>, phase: map<string, string>, subject: string)
    requires forall g :: g in fmap && IsFieldmap(g) && Contains(g, ".nii") ==>
               !EpiNamed(g) && !EpiNamed(FieldmapJson(g))
    requires Fieldmaps(fmap, phase, subject).Ok?
    ensures var n := |RunsOfFieldmaps(fmap)|;
            var r := Fieldmaps(fmap, phase, subject).value;
            (forall f :: f in fmap && IsFieldmap(f) && Contains(f, ".nii") ==>
               FieldmapJson(f) in phase &&
               EpiTarget(subject, phase[FieldmapJson(f)], n) + ".nii.gz" in r &&
               EpiTarget(subject, phase[FieldmapJson(f)], n) + ".json" in r) &&
            (forall x :: x in fmap && !(IsFieldmap(x) && Contains(x, ".nii")) &&
                         (forall g :: g in fmap && IsFieldmap(g) && Contains(g, ".nii") ==> x != FieldmapJson(g)) ==>
                         x in r) &&
            (forall x :: x in r ==> x in fmap || (StartsWith(x, subject + "_dir-") && EpiNamed(x)))
  {
    var files := RunsOfFieldmaps(fmap);
    var n := |files|;
    var ops := FieldmapOps(files, n, phase, subject);
    FieldmapStepsRenames(fmap, files, n, phase, subject);
    FieldmapOpsTargets(files, n, phase, subject);
    ApplyRenamesFrom(fmap, ops);
    forall f | f in fmap && IsFieldmap(f) && Contains(f, ".nii")
      ensures EpiTarget(subject, phase[FieldmapJson(f)], n) + ".nii.gz" in Fieldmaps(fmap, phase, subject).value
      ensures EpiTarget(subject, phase[FieldmapJson(f)], n) + ".json" in Fieldmaps(fmap, phase, subject).value
    {
      var t := EpiTarget(subject, phase[FieldmapJson(f)], n);
      FieldmapOpsGive(files, n, phase, subject, f);
      EpiTargetShape(subject, phase[FieldmapJson(f)], n);
      FieldmapOpsKeep(files, n, phase, subject, t + ".nii.gz");
      FieldmapOpsKeep(files, n, phase, subject, t + ".json");
      ApplyRenamesTo(fmap, ops, t + ".nii.gz");
      ApplyRenamesTo(fmap, ops, t + ".json");
    }
    forall x | x in fmap && !(IsFieldmap(x) && Contains(x, ".nii")) &&
               (forall g :: g in fmap && IsFieldmap(g) && Contains(g, ".nii") ==> x != FieldmapJson(g))
      ensures x in Fieldmaps(fmap, phase, subject).value
    {
      FieldmapOpsKeep(files, n, phase, subject, x);
      ApplyRenamesTo(fmap, ops, x);
    }
  }

  // ---------------------------------------------------------------------
  // IntendedFor in the fieldmap JSON files
  // ---------------------------------------------------------------------

  /** `session_folder + "/func/"` (the second-to-last piece of the func
      folder's path) for multi-session studies, `func/` otherwise. */
  function FuncPrefix(multiSession: bool, funcFolderPath: string): Result<string> {
    if !multiSession then Ok("func/")
    else
      var splits := Split(funcFolderPath, '/');
      if |splits| < 2 then Err("IndexError: list index out of range")
      else Ok(splits[|splits| - 2] + "/func/")
  }

  /** For a func folder `.../ses-0X/func` the prefix is `ses-0X/func/`. */
  lemma FuncPrefixOfSession(parts: seq<string>, session: string)
    requires forall k :: 0 <= k < |parts| ==> '/' !in parts[k]
    requires '/' !in session
    ensures FuncPrefix(true, Join(parts + [session, "func"], "/")) == Ok(session + "/func/")
  {
    var all := parts + [session, "func"];
    assert forall k :: 0 <= k < |all| ==> '/' !in all[k];
    SplitJoin(all, '/');
    FuncPrefixOfSplit(Join(all, ['/']), all);
    assert all[|all| - 2] == session;
  }

  lemma FuncPrefixOfSplit(path: string, splits: seq<string>)
    requires Split(path, '/') == splits && |splits| >= 2
    ensures FuncPrefix(true, path) == Ok(splits[|splits| - 2] + "/func/")
  {
  }

  /** `renamed_func_files`: every func file with `bold` and `.nii` in its
      name, behind the prefix; the prefix is computed only when there is
      such a file. */
  function IntendedFor(listing: seq<string>, multiSession: bool, funcFolderPath: string): (r: Result<seq<string>>)
    ensures r.Ok? ==> forall x :: x in r.value <==>
              exists f :: f in listing && Contains(f, "bold") && Contains(f, ".nii") &&
                          FuncPrefix(multiSession, funcFolderPath).Ok? &&
                          x == FuncPrefix(multiSession, funcFolderPath).value + f
    ensures r.Err? <==> FuncPrefix(multiSession, funcFolderPath).Err? &&
                        exists f :: f in listing && Contains(f, "bold") && Contains(f, ".nii")
    ensures r.Err? ==> r.error == FuncPrefix(multiSession, funcFolderPath).error
    decreases |listing|
  {
    if |listing| == 0 then Ok([])
    else
      var f := Last(listing);
      var front := listing[..|listing| - 1];
      assert listing == front + [f];
      match IntendedFor(front, multiSession, funcFolderPath)
      case Err(e) => Err(e)
      case Ok(r) =>
        if Contains(f, "bold") && Contains(f, ".nii") then
          match FuncPrefix(multiSession, funcFolderPath)
          case Err(e) => Err(e)
          case Ok(prefix) => Ok(r + [prefix + f])
        else Ok(r)
  }

  /** When any file in the fmap folder has `epi` in its name, every JSON
      there is given the list and written again (listed last). */
  function IntendedForSteps(fmap: seq<string>, lists: map<string, seq<string>>, files: seq<string>,
                            boldRuns: seq<string>): (seq<string>, map<string, seq<string>>)
    decreases |files|
  {
    if |files| == 0 then (fmap, lists)
    else if Contains(files[0], ".json") then
      IntendedForSteps(Put(fmap, files[0]), lists[files[0] := boldRuns], files[1..], boldRuns)
    else IntendedForSteps(fmap, lists, files[1..], boldRuns)
  }

  /** Every JSON of the listing, and nothing else, is given the BOLD runs;
      the folder keeps its entries; other JSON files keep what they had. */
  lemma {:induction false} IntendedForWritten(fmap: seq<string>, lists: map<string, seq<string>>, files: seq<string>,
                                              boldRuns: seq<string>)
    ensures var r := IntendedForSteps(fmap, lists, files, boldRuns);
            (forall x :: x in r.0 <==> x in fmap || (x in files && Contains(x, ".json"))) &&
            (forall x :: x in r.1 <==> x in lists || (x in files && Contains(x, ".json"))) &&
            (forall x :: x in files && Contains(x, ".json") ==> r.1[x] == boldRuns) &&
            (forall x :: x in lists && !(x in files && Contains(x, ".json")) ==> r.1[x] == lists[x])
    decreases |files|
  {
    if |files| > 0 {
      assert files == [files[0]] + files[1..];
      if Contains(files[0], ".json") {
        IntendedForWritten(Put(fmap, files[0]), lists[files[0] := boldRuns], files[1..], boldRuns);
      } else {
        IntendedForWritten(fmap, lists, files[1..], boldRuns);
      }
    }
  }

  // ---------------------------------------------------------------------
  // The stages of `reorganize_NIfTI`
  // ---------------------------------------------------------------------

  /** Everything the reorganisation changes: the folders, what the JSON
      side-cars are given, and the folders deleted, in order. */
  datatype Session = Session(folders: Folders, taskNames: map<string, string>,
                             intendedFor: map<string, seq<string>>, removed: seq<string>)

  /** What the script is called with, and what the fieldmap JSON files say
      (`phase`: the `PhaseEncodingDirection` of each, by name). */
  datatype Params = Params(multiSession: bool, session: nat, idPrefix: string, participant: string,
                           taskCode: string, phase: map<string, string>, funcFolderPath: string)

  function SubjectOf(p: Params): string {
    Subject(p.idPrefix, p.participant, SessionTag(p.multiSession, p.session))
  }

  function ErrorOf<T>(r: Result<T>): Option<string> {
    if r.Err? then Some(r.error) else None
  }

  function OnAnat(s: Session, r: Result<seq<string>>): Result<Session> {
    if r.Err? then Err(r.error) else Ok(s.(folders := s.folders.(anat := r.value)))
  }

  function OnFunc(s: Session, r: Result<seq<string>>): Result<Session> {
    if r.Err? then Err(r.error) else Ok(s.(folders := s.folders.(func := r.value)))
  }

  function OnFmap(s: Session, r: Result<seq<string>>): Result<Session> {
    if r.Err? then Err(r.error) else Ok(s.(folders := s.folders.(fmap := r.value)))
  }

  function DistributeStage(s: Session, taskCode: string): Session {
    s.(folders := MoveAll(s.folders, s.folders.nifti, taskCode))
  }

  function AnatStage(s: Session, anatFiles: seq<string>, tag: string, target: string): Result<Session> {
    OnAnat(s, ReduceScans(s.folders.anat, anatFiles, tag, target))
  }

  function TaskStage(s: Session, taskFiles: seq<string>, subject: string, taskCode: string): Result<Session> {
    OnFunc(s, TaskRuns(s.folders.func, taskFiles, GroupNames(taskFiles), subject, taskCode))
  }

  function RestStage(s: Session, rsfcFiles: seq<string>, subject: string): Result<Session> {
    OnFunc(s, RestRuns(s.folders.func, rsfcFiles, subject))
  }

  function TaskNameStage(s: Session): Result<Session> {
    var r := TaskNameSteps(s.folders.func, s.taskNames, Containing(s.folders.func, ".json"), None);
    if r.Err? then Err(r.error) else Ok(s.(folders := s.folders.(func := r.value.0), taskNames := r.value.1))
  }

  function FieldmapStage(s: Session, phase: map<string, string>, subject: string): Result<Session> {
    OnFmap(s, Fieldmaps(s.folders.fmap, phase, subject))
  }

  /** `listing` is the func folder as it was before the JSON files were
      rewritten. */
  function IntendedForStage(s: Session, listing: seq<string>, multiSession: bool, funcFolderPath: string)
    : Result<Session>
  {
    var runs := IntendedFor(listing, multiSession, funcFolderPath);
    if runs.Err? then Err(runs.error)
    else if forall k :: 0 <= k < |s.folders.fmap| ==> !Contains(s.folders.fmap[k], "epi") then Ok(s)
    else
      var r := IntendedForSteps(s.folders.fmap, s.intendedFor, s.folders.fmap, runs.value);
      Ok(s.(folders := s.folders.(fmap := r.0), intendedFor := r.1))
  }

  /** The nifti folder is deleted with whatever it still holds, then each
      of anat, func and fmap that is empty. */
  function CleanupStage(s: Session): Session {
    var f := s.folders;
    s.(folders := f.(nifti := []),
       removed := s.removed + ["nifti"] + (if |f.anat| == 0 then ["anat"] else []) +
                  (if |f.func| == 0 then ["func"] else []) + (if |f.fmap| == 0 then ["fmap"] else []))
  }

  /** The whole of `reorganize_NIfTI` after the conversion, or the error
      that stops it. */
  function Reorganized(s0: Session, p: Params): Result<Session> {
    var s := Relocated(s0, p);
    if s.Err? then s else Ok(CleanupStage(s.value))
  }

  /** Everything before the clean-up. */
  function Relocated(s0: Session, p: Params): Result<Session> {
    var subject := SubjectOf(p);
    var s1 := DistributeStage(s0, p.taskCode);
    var anatFiles := s1.folders.anat;
    var s2 := AnatStage(s1, anatFiles, "T1", subject + "_T1w");
    if s2.Err? then s2 else
    var s3 := AnatStage(s2.value, anatFiles, "T2", subject + "_T2w");
    if s3.Err? then s3 else
    var funcFiles := s3.value.folders.func;
    var s4 := TaskStage(s3.value, RunsOfKind(funcFiles, false), subject, p.taskCode);
    if s4.Err? then s4 else
    var s5 := RestStage(s4.value, RunsOfKind(funcFiles, true), subject);
    if s5.Err? then s5 else
    var listing := s5.value.folders.func;
    var s6 := TaskNameStage(s5.value);
    if s6.Err? then s6 else
    var s7 := FieldmapStage(s6.value, p.phase, subject);
    if s7.Err? then s7 else
    var s8 := IntendedForStage(s7.value, listing, p.multiSession, p.funcFolderPath);
    s8
  }

  /** A run that completes leaves no nifti folder and no converted file
      outside anat, func and fmap. */
  lemma ReorganizedRemovesNifti(s0: Session, p: Params)
    requires Reorganized(s0, p).Ok?
    ensures Reorganized(s0, p).value.folders.nifti == []
    ensures "nifti" in Reorganized(s0, p).value.removed
  {
    var s := Relocated(s0, p).value;
    assert CleanupStage(s).removed[|s.removed|] == "nifti";
  }

  // ---------------------------------------------------------------------
  // The loops over the folders
  // ---------------------------------------------------------------------

  /** `RestRenames` spelled out, the SBRef name computed as the loop does. */
  lemma RestRenamesAre(file: string, index: int, target: string, sbref: string)
    requires RunIndex(file) == Some(index)
    requires sbref == Replace(file, Split(file, '_')[|Split(file, '_')| - 1], IntToStr(ParseInt(Split(file, '_')[|Split(file, '_')| - 1]).value - 1))
    ensures RestRenames(file, index, target) ==
            [Rename(file + ".nii.gz", target + "_bold.nii.gz"), Rename(file + ".json", target + "_bold.json"),
             Rename(sbref + ".nii.gz", target + "_sbref.nii.gz"), Rename(sbref + ".json", target + "_sbref.json")]
  {
  }

  lemma ApplyTwo(d: seq<string>, a: FileOp, b: FileOp)
    ensures Apply(d, [a, b]) == if Step(d, a).Err? then Err(Step(d, a).error) else Apply(Step(d, a).value, [b])
  {
    assert [a, b] == [a] + [b];
    ApplyMaybe(d, true, a, [b]);
  }

  lemma ApplyThree(d: seq<string>, a: FileOp, b: FileOp, c: FileOp)
    ensures Apply(d, [a, b, c]) == if Step(d, a).Err? then Err(Step(d, a).error) else Apply(Step(d, a).value, [b, c])
  {
    assert [a, b, c] == [a] + [b, c];
    ApplyMaybe(d, true, a, [b, c]);
  }

  lemma ApplyFour(d: seq<string>, a: FileOp, b: FileOp, c: FileOp, e: FileOp)
    ensures Apply(d, [a, b, c, e]) == if Step(d, a).Err? then Err(Step(d, a).error) else Apply(Step(d, a).value, [b, c, e])
  {
    assert [a, b, c, e] == [a] + [b, c, e];
    ApplyMaybe(d, true, a, [b, c, e]);
  }

  lemma ApplyMaybe(d: seq<string>, c: bool, op: FileOp, rest: seq<FileOp>)
    ensures Apply(d, (if c then [op] else []) + rest) ==
            if !c then Apply(d, rest)
            else if Step(d, op).Err? then Err(Step(d, op).error) else Apply(Step(d, op).value, rest)
  {
    if c {
      assert ([op] + rest)[0] == op && ([op] + rest)[1..] == rest;
    } else {
      assert [] + rest == rest;
    }
  }

  /** `[file[:-7] for file in files if tag in file and ".nii" in file]`,
      built by appending. */
  method CollectStems(files: seq<string>, tag: string) returns (stems: seq<string>)
    ensures stems == NiftiStems(files, tag)
  {
    stems := [];
    for i := 0 to |files|
      invariant stems == NiftiStems(files[..i], tag)
    {
      assert files[..i + 1][..i] == files[..i];
      if Contains(files[i], tag) && Contains(files[i], ".nii") {
        stems := stems + [DropLast(files[i], 7)];
      }
    }
    assert files[..|files|] == files;
  }

  /** The names that contain `pat`, built by appending. */
  method CollectWith(files: seq<string>, pat: string) returns (r: seq<string>)
    ensures r == Containing(files, pat)
  {
    r := [];
    for i := 0 to |files|
      invariant r == Containing(files[..i], pat)
    {
      assert files[..i + 1][..i] == files[..i];
      if Contains(files[i], pat) {
        r := r + [files[i]];
      }
    }
    assert files[..|files|] == files;
  }

  /** `any(tag in x for x in files)` */
  method AnyContains(files: seq<string>, tag: string) returns (b: bool)
    ensures b <==> exists k :: 0 <= k < |files| && Contains(files[k], tag)
  {
    b := false;
    for i := 0 to |files|
      invariant b <==> exists k :: 0 <= k < i && Contains(files[k], tag)
    {
      if Contains(files[i], tag) {
        b := true;
      }
    }
  }

  /** The split of the func listing into `task_files` and `rsfc_files`. */
  method SplitRuns(funcFiles: seq<string>) returns (taskFiles: seq<string>, rsfcFiles: seq<string>)
    ensures taskFiles == RunsOfKind(funcFiles, false)
    ensures rsfcFiles == RunsOfKind(funcFiles, true)
  {
    taskFiles, rsfcFiles := [], [];
    for i := 0 to |funcFiles|
      invariant taskFiles == RunsOfKind(funcFiles[..i], false)
      invariant rsfcFiles == RunsOfKind(funcFiles[..i], true)
    {
      assert funcFiles[..i + 1][..i] == funcFiles[..i];
      var file := funcFiles[i];
      if Contains(Lower(file), "rsfc") || Contains(Lower(file), "rest") {
        rsfcFiles := rsfcFiles + [file];
      } else {
        taskFiles := taskFiles + [file];
      }
    }
    assert funcFiles[..|funcFiles|] == funcFiles;
  }

  /** The loop that fills `file_names`. */
  method CollectGroups(taskFiles: seq<string>) returns (fileNames: seq<string>)
    ensures fileNames == GroupNames(taskFiles)
  {
    fileNames := [];
    for i := 0 to |taskFiles|
      invariant fileNames == GroupNames(taskFiles[..i])
    {
      assert taskFiles[..i + 1][..i] == taskFiles[..i];
      var file := taskFiles[i];
      if Contains(file, ".nii") {
        var fileNameSplit := Split(file, '_');
        var fileName := Replace(file, "_" + fileNameSplit[|fileNameSplit| - 1], "");
        if fileName !in fileNames {
          fileNames := fileNames + [fileName];
        }
      }
    }
    assert taskFiles[..|taskFiles|] == taskFiles;
  }

  /** The clean-up of the task label, step by step. */
  method CleanLabel(group: string, taskCode: string) returns (r: Result<string>)
    ensures r == TaskLabel(group, taskCode)
  {
    var file := Lower(group);
    var fileName := Replace(file, Lower(taskCode), "");
    if |fileName| == 0 {
      return Err("IndexError: string index out of range");
    }
    var one: nat := 1;
    if PyText([fileName[0]]) == PyBool(AnyTruthy(["_", "-", "."])) {
      fileName := Drop(fileName, one);
    }
    if Contains(fileName, "__") {
      fileName := Replace(fileName, "__", "_");
    }
    if Contains(fileName, "--") {
      fileName := Replace(fileName, "--", "-");
    }
    if Contains(fileName, "..") {
      fileName := Replace(fileName, "..", ".");
    }
    r := Ok(AlnumOnly(fileName));
  }

  /** The rename loop over the func listing for the rest runs' `.json`
      files, building the BOLD list. */
  method BoldRuns(listing: seq<string>, multiSession: bool, funcFolderPath: string) returns (r: Result<seq<string>>)
    ensures r == IntendedFor(listing, multiSession, funcFolderPath)
  {
    var runs := [];
    for i := 0 to |listing|
      invariant IntendedFor(listing[..i], multiSession, funcFolderPath) == Ok(runs)
    {
      assert listing[..i + 1][..i] == listing[..i];
      var file := listing[i];
      if Contains(file, "bold") && Contains(file, ".nii") {
        var prefix;
        if multiSession {
          var splits := Split(funcFolderPath, '/');
          if |splits| < 2 {
            assert file in listing;
            return Err("IndexError: list index out of range");
          }
          prefix := splits[|splits| - 2] + "/func/";
        } else {
          prefix := "func/";
        }
        runs := runs + [prefix + file];
      }
    }
    assert listing[..|listing|] == listing;
    r := Ok(runs);
  }

  /** The `rest_dict` loop: every rest run keyed by its series number, the
      keys in first-seen order. A number `int()` cannot read stops the
      script. */
  method IndexRuns(restRuns: seq<string>) returns (keys: seq<string>, restDict: map<string, int>, error: Option<string>)
    ensures error.None? <==> AllIndexed(Dedup(restRuns))
    ensures error.Some? ==> error == Some(BadIndex)
    ensures error.None? ==> keys == Dedup(restRuns) && AllIndexed(keys)
    ensures error.None? ==> forall x :: x in restDict <==> x in keys
    ensures error.None? ==> forall x :: x in restDict ==> RunIndex(x) == Some(restDict[x])
  {
    keys, restDict, error := [], map[], None;
    for i := 0 to |restRuns|
      invariant keys == Dedup(restRuns[..i]) && AllIndexed(keys)
      invariant forall x :: x in restDict <==> x in keys
      invariant forall x :: x in restDict ==> RunIndex(x) == Some(restDict[x])
    {
      var item := restRuns[i];
      assert restRuns[..i + 1][..i] == restRuns[..i] && Last(restRuns[..i + 1]) == item;
      var fileSplit := Split(item, '_');
      var number := ParseInt(fileSplit[|fileSplit| - 1]);
      if number.None? {
        UnindexedRun(restRuns, i);
        return keys, restDict, Some(BadIndex);
      }
      assert RunIndex(item) == number;
      DedupSnoc(restRuns[..i], item);
      IndexStep(keys, restDict, item, number.value);
      if item !in restDict {
        keys := keys + [item];
      }
      restDict := restDict[item := number.value];
    }
    assert restRuns[..|restRuns|] == restRuns;
  }

  lemma DedupSnoc(items: seq<string>, x: string)
    ensures Dedup(items + [x]) == if x in Dedup(items) then Dedup(items) else Dedup(items) + [x]
  {
    assert (items + [x])[..|items|] == items;
  }

  /** One entry added to the dictionary and, when new, to its keys. */
  lemma IndexStep(keys: seq<string>, restDict: map<string, int>, x: string, n: int)
    requires AllIndexed(keys) && RunIndex(x) == Some(n)
    requires forall y :: y in restDict <==> y in keys
    requires forall y :: y in restDict ==> RunIndex(y) == Some(restDict[y])
    ensures var keys' := if x in restDict then keys else keys + [x];
            AllIndexed(keys') &&
            (forall y :: y in restDict[x := n] <==> y in keys') &&
            (forall y :: y in restDict[x := n] ==> RunIndex(y) == Some(restDict[x := n][y]))
  {
    assert forall k :: 0 <= k < |keys| ==> (keys + [x])[k] == keys[k];
  }

  /** A run without a series number leaves the dictionary's keys
      unindexed. */
  lemma UnindexedRun(restRuns: seq<string>, i: nat)
    requires i < |restRuns| && RunIndex(restRuns[i]).None?
    ensures !AllIndexed(Dedup(restRuns))
  {
    var keys := Dedup(restRuns);
    assert restRuns[i] in restRuns;
    var k :| 0 <= k < |keys| && keys[k] == restRuns[i];
    assert RunIndex(keys[k]).None?;
  }

  /** The `rest_bold_dict` loop over the dictionary's keys. */
  method PairedRuns(keys: seq<string>, restDict: map<string, int>) returns (bold: seq<(int, string)>)
    requires AllIndexed(keys)
    requires forall x :: x in restDict <==> x in keys
    requires forall x :: x in restDict ==> RunIndex(x) == Some(restDict[x])
    ensures bold == RestBold(keys, keys)
  {
    bold := [];
    for j := 0 to |keys|
      invariant bold == RestBold(keys[..j], keys)
    {
      var item := keys[j];
      assert keys[..j + 1][..j] == keys[..j] && Last(keys[..j + 1]) == item;
      assert item in restDict;
      IndexInValues(keys, restDict, restDict[item] - 1);
      if restDict[item] - 1 in restDict.Values {
        bold := bold + [(restDict[item], item)];
      }
    }
    assert keys[..|keys|] == keys;
  }

  /** `value in rest_dict.values()` asks whether some run has that index. */
  lemma IndexInValues(keys: seq<string>, restDict: map<string, int>, v: int)
    requires AllIndexed(keys)
    requires forall x :: x in restDict <==> x in keys
    requires forall x :: x in restDict ==> RunIndex(x) == Some(restDict[x])
    ensures v in restDict.Values <==> exists j :: 0 <= j < |keys| && RunIndex(keys[j]).value == v
  {
    if v in restDict.Values {
      var x :| x in restDict && restDict[x] == v;
      var j :| 0 <= j < |keys| && keys[j] == x;
      assert RunIndex(keys[j]).value == v;
    }
    if exists j :: 0 <= j < |keys| && RunIndex(keys[j]).value == v {
      var j :| 0 <= j < |keys| && RunIndex(keys[j]).value == v;
      assert keys[j] in restDict;
      assert restDict[keys[j]] == v;
    }
  }

  /** Each sorted BOLD rest run carries its own series number, as the
      rename loop reads it again from the name. */
  lemma SortedRunsIndexed(keys: seq<string>, sorted: seq<(int, string)>)
    requires AllIndexed(keys)
    requires multiset(sorted) == multiset(RestBold(keys, keys))
    ensures forall k :: 0 <= k < |sorted| ==> RunIndex(sorted[k].1) == Some(sorted[k].0)
  {
    forall k | 0 <= k < |sorted|
      ensures RunIndex(sorted[k].1) == Some(sorted[k].0)
    {
      assert sorted[k] in multiset(sorted);
      RestBoldPaired(keys, keys, sorted[k].0, sorted[k].1);
    }
  }

  /** Without resting-state files the step changes nothing. */
  lemma EmptyRestRuns(func: seq<string>, subject: string)
    ensures RestRuns(func, [], subject) == Ok(func)
  {
    var sorted := Sorting.SortPairs(RestBold([], []));
    assert |multiset(sorted)| == 0;
    assert sorted == [];
  }

  /** `fieldmap_files`: the spin-echo and fieldmap entries of the listing. */
  method CollectFieldmaps(files: seq<string>) returns (r: seq<string>)
    ensures r == RunsOfFieldmaps(files)
  {
    r := [];
    for i := 0 to |files|
      invariant r == RunsOfFieldmaps(files[..i])
    {
      assert files[..i + 1][..i] == files[..i];
      var lower := Lower(files[i]);
      if Contains(lower, "spinecho") || Contains(lower, "fieldmap") {
        r := r + [files[i]];
      }
    }
    assert files[..|files|] == files;
  }

  // ---------------------------------------------------------------------
  // The session's folders
  // ---------------------------------------------------------------------

  class SessionFolders {
    var nifti: seq<string>
    var anat: seq<string>
    var func: seq<string>
    var fmap: seq<string>
    /** The `TaskName` written into each func JSON. */
    var taskNames: map<string, string>
    /** The `IntendedFor` list written into each fieldmap JSON. */
    var intendedFor: map<string, seq<string>>
    /** The folders deleted, in order. */
    var removed: seq<string>

    function State(): Session
      reads this
    {
      Session(Folders(nifti, anat, func, fmap), taskNames, intendedFor, removed)
    }

    /** The folders right after `dcm2niix`: the converted files in the nifti
        folder, the other three as they are. */
    constructor (converted: seq<string>, anat0: seq<string>, func0: seq<string>, fmap0: seq<string>)
      ensures State() == Session(Folders(converted, anat0, func0, fmap0), map[], map[], [])
    {
      nifti, anat, func, fmap := converted, anat0, func0, fmap0;
      taskNames, intendedFor, removed := map[], map[], [];
    }

    /** The loop over the converted files that moves each into its folder. */
    method DistributeConverted(taskCode: string)
      modifies this
      ensures State() == DistributeStage(old(State()), taskCode)
    {
      ghost var s0 := State();
      var files2 := nifti;
      for i := 0 to |files2|
        invariant MoveAll(s0.folders, files2, taskCode) == MoveAll(State().folders, files2[i..], taskCode)
        invariant State() == s0.(folders := State().folders)
      {
        assert files2[i..][0] == files2[i] && files2[i..][1..] == files2[i + 1..];
        var f := files2[i];
        var lower := Lower(f);
        if Contains(f, "T1") || Contains(f, "T2") {
          nifti, anat := Without(nifti, f), Put(anat, f);
        } else if Contains(lower, "spinecho") || Contains(lower, "fieldmap") {
          nifti, fmap := Without(nifti, f), Put(fmap, f);
        } else if Contains(lower, "rsfc") || Contains(lower, "rest") {
          nifti, func := Without(nifti, f), Put(func, f);
        } else if Contains(lower, Lower(taskCode)) {
          nifti, func := Without(nifti, f), Put(func, f);
        }
      }
      assert files2[|files2|..] == [];
    }

    /** The deletion loop over the (stale) anat listing: every file of the
        kind that does not contain the name of the scan kept. */
    method RemoveStale(anatFiles: seq<string>, tag: string, keep: string) returns (error: Option<string>)
      modifies this
      ensures error == ErrorOf(Apply(old(anat), StaleScans(anatFiles, tag, keep)))
      ensures error.None? ==> anat == Apply(old(anat), StaleScans(anatFiles, tag, keep)).value
      ensures State() == old(State()).(folders := old(State()).folders.(anat := anat))
    {
      ghost var ops := StaleScans(anatFiles, tag, keep);
      for i := 0 to |anatFiles|
        invariant Apply(old(anat), ops) == Apply(anat, StaleScans(anatFiles[i..], tag, keep))
        invariant State() == old(State()).(folders := old(State()).folders.(anat := anat))
      {
        var file := anatFiles[i];
        assert anatFiles[i..][0] == file && anatFiles[i..][1..] == anatFiles[i + 1..];
        ApplyMaybe(anat, !Contains(file, keep) && Contains(file, tag), Remove(file), StaleScans(anatFiles[i + 1..], tag, keep));
        if !Contains(file, keep) && Contains(file, tag) {
          if file !in anat {
            return Some(NoSuchFile);
          }
          anat := Without(anat, file);
        }
      }
      assert anatFiles[|anatFiles|..] == [];
      error := None;
    }

    /** The rename loop over the new anat listing. */
    method RenameScans(files: seq<string>, tag: string, target: string) returns (error: Option<string>)
      modifies this
      ensures error == ErrorOf(Apply(old(anat), ScanRenames(files, tag, target)))
      ensures error.None? ==> anat == Apply(old(anat), ScanRenames(files, tag, target)).value
      ensures State() == old(State()).(folders := old(State()).folders.(anat := anat))
    {
      ghost var ops := ScanRenames(files, tag, target);
      for i := 0 to |files|
        invariant Apply(old(anat), ops) == Apply(anat, ScanRenames(files[i..], tag, target))
        invariant State() == old(State()).(folders := old(State()).folders.(anat := anat))
      {
        var file := files[i];
        ghost var rest := ScanRenames(files[i + 1..], tag, target);
        assert files[i..][0] == file && files[i..][1..] == files[i + 1..];
        ApplyConcat(anat, ScanRename(file, tag, target), rest);
        error := RenameScan(file, tag, target);
        if error.Some? {
          return;
        }
      }
      assert files[|files|..] == [];
      error := None;
    }

    /** One pass of the rename loop. */
    method RenameScan(file: string, tag: string, target: string) returns (error: Option<string>)
      modifies this
      ensures error == ErrorOf(Apply(old(anat), ScanRename(file, tag, target)))
      ensures error.None? ==> anat == Apply(old(anat), ScanRename(file, tag, target)).value
      ensures State() == old(State()).(folders := old(State()).folders.(anat := anat))
    {
      ghost var isJson := Contains(file, tag) && Contains(file, ".json");
      ghost var second: seq<FileOp> := if isJson then [Rename(file, target + ".json")] else [];
      ApplyMaybe(anat, Contains(file, tag) && Contains(file, ".nii"), Rename(file, target + ".nii.gz"), second);
      if Contains(file, tag) && Contains(file, ".nii") {
        if file !in anat {
          return Some(NoSuchFile);
        }
        anat := Put(Without(anat, file), target + ".nii.gz");
      }
      ApplyMaybe(anat, isJson, Rename(file, target + ".json"), []);
      assert second + [] == second;
      if Contains(file, tag) && Contains(file, ".json") {
        if file !in anat {
          return Some(NoSuchFile);
        }
        anat := Put(Without(anat, file), target + ".json");
      }
      error := None;
    }

    /** One anatomical kind (`T1` or `T2`): keep the latest scan, delete the
        others, rename what is left. */
    method ReduceAnat(anatFiles: seq<string>, tag: string, target: string) returns (error: Option<string>)
      modifies this
      ensures error == ErrorOf(AnatStage(old(State()), anatFiles, tag, target))
      ensures error.None? ==> State() == AnatStage(old(State()), anatFiles, tag, target).value
    {
      var any := AnyContains(anatFiles, tag);
      if !any {
        return None;
      }
      var stems := CollectStems(anatFiles, tag);
      var keep := SelectRun(stems, true);
      if keep.Err? {
        return Some(keep.error);
      }
      error := RemoveStale(anatFiles, tag, keep.value);
      if error.Some? {
        return;
      }
      var anatFilesNew := anat;
      error := RenameScans(anatFilesNew, tag, target);
    }

    /** The four renames of one file for a group of task runs. */
    method RenameTaskFile(o: string, bold: string, sbref: string, target: string) returns (error: Option<string>)
      modifies this
      ensures error == ErrorOf(Apply(old(func), RunRenames([o], bold, sbref, target)))
      ensures error.None? ==> func == Apply(old(func), RunRenames([o], bold, sbref, target)).value
      ensures State() == old(State()).(folders := old(State()).folders.(func := func))
    {
      var c1 := Contains(o, bold) && Contains(o, ".nii");
      var c2 := Contains(o, bold) && Contains(o, ".json");
      var c3 := Contains(o, sbref) && Contains(o, ".nii");
      var c4 := Contains(o, sbref) && Contains(o, ".json");
      ghost var t4 := (if c4 then [Rename(o, target + "_sbref" + SidecarExt)] else []) + [];
      ghost var t3 := (if c3 then [Rename(o, target + "_sbref" + ImageExt)] else []) + t4;
      ghost var t2 := (if c2 then [Rename(o, target + "_bold" + SidecarExt)] else []) + t3;
      RunRenamesOne(o, bold, sbref, target);
      ApplyMaybe(func, c1, Rename(o, target + "_bold" + ImageExt), t2);
      if c1 {
        if o !in func {
          return Some(NoSuchFile);
        }
        func := Put(Without(func, o), target + "_bold" + ImageExt);
      }
      ApplyMaybe(func, c2, Rename(o, target + "_bold" + SidecarExt), t3);
      if c2 {
        if o !in func {
          return Some(NoSuchFile);
        }
        func := Put(Without(func, o), target + "_bold" + SidecarExt);
      }
      ApplyMaybe(func, c3, Rename(o, target + "_sbref" + ImageExt), t4);
      if c3 {
        if o !in func {
          return Some(NoSuchFile);
        }
        func := Put(Without(func, o), target + "_sbref" + ImageExt);
      }
      ApplyMaybe(func, c4, Rename(o, target + "_sbref" + SidecarExt), []);
      if c4 {
        if o !in func {
          return Some(NoSuchFile);
        }
        func := Put(Without(func, o), target + "_sbref" + SidecarExt);
      }
      error := None;
    }

    /** The rename loop over `task_files` for one group. */
    method RenameGroup(taskFiles: seq<string>, bold: string, sbref: string, target: string)
      returns (error: Option<string>)
      modifies this
      ensures error == ErrorOf(Apply(old(func), RunRenames(taskFiles, bold, sbref, target)))
      ensures error.None? ==> func == Apply(old(func), RunRenames(taskFiles, bold, sbref, target)).value
      ensures State() == old(State()).(folders := old(State()).folders.(func := func))
    {
      for i := 0 to |taskFiles|
        invariant Apply(old(func), RunRenames(taskFiles, bold, sbref, target)) ==
                  Apply(func, RunRenames(taskFiles[i..], bold, sbref, target))
        invariant State() == old(State()).(folders := old(State()).folders.(func := func))
      {
        ghost var one := RunRenames([taskFiles[i]], bold, sbref, target);
        ghost var rest := RunRenames(taskFiles[i + 1..], bold, sbref, target);
        assert taskFiles[i..] == [taskFiles[i]] + taskFiles[i + 1..];
        RunRenamesConcat([taskFiles[i]], taskFiles[i + 1..], bold, sbref, target);
        ApplyConcat(func, one, rest);
        error := RenameTaskFile(taskFiles[i], bold, sbref, target);
        if error.Some? {
          return;
        }
      }
      assert taskFiles[|taskFiles|..] == [];
      error := None;
    }

    /** One group: BOLD and SBRef, the label, then the renames. */
    method RenameGroupRuns(taskFiles: seq<string>, file: string, subject: string, taskCode: string)
      returns (error: Option<string>)
      modifies this
      ensures error == ErrorOf(GroupStep(old(func), taskFiles, file, subject, taskCode))
      ensures error.None? ==> func == GroupStep(old(func), taskFiles, file, subject, taskCode).value
      ensures State() == old(State()).(folders := old(State()).folders.(func := func))
    {
      var candidates := CollectStems(taskFiles, file);
      var boldRun := SelectRun(candidates, true);
      if boldRun.Err? {
        return Some(boldRun.error);
      }
      BoldAfterSbref(candidates);
      var sbref := SelectRun(candidates, false);
      var fileName := CleanLabel(file, taskCode);
      if fileName.Err? {
        return Some(fileName.error);
      }
      error := RenameGroup(taskFiles, boldRun.value, sbref.value, subject + "_task-" + fileName.value);
    }

    /** The task-run step over every group. */
    method RenameTaskRuns(taskFiles: seq<string>, subject: string, taskCode: string) returns (error: Option<string>)
      modifies this
      ensures error == ErrorOf(TaskStage(old(State()), taskFiles, subject, taskCode))
      ensures error.None? ==> State() == TaskStage(old(State()), taskFiles, subject, taskCode).value
      ensures State() == old(State()).(folders := old(State()).folders.(func := func))
    {
      error := None;
      ghost var s0 := State();
      ghost var spec := TaskRuns(func, taskFiles, GroupNames(taskFiles), subject, taskCode);
      assert TaskStage(old(State()), taskFiles, subject, taskCode) == OnFunc(s0, spec);
      if |taskFiles| > 0 {
        var fileNames := CollectGroups(taskFiles);
        for j := 0 to |fileNames|
          invariant spec == TaskRuns(func, taskFiles, fileNames[j..], subject, taskCode)
          invariant error == None
          invariant nifti == old(nifti) && anat == old(anat) && fmap == old(fmap)
          invariant taskNames == old(taskNames) && intendedFor == old(intendedFor) && removed == old(removed)
        {
          assert fileNames[j..][0] == fileNames[j] && fileNames[j..][1..] == fileNames[j + 1..];
          ghost var step := GroupStep(func, taskFiles, fileNames[j], subject, taskCode);
          assert spec == if step.Err? then step else TaskRuns(step.value, taskFiles, fileNames[j + 1..], subject, taskCode);
          error := RenameGroupRuns(taskFiles, fileNames[j], subject, taskCode);
          if error.Some? {
            assert spec == step && spec.Err?;
            assert error == ErrorOf(OnFunc(s0, spec));
            return;
          }
        }
        assert fileNames[|fileNames|..] == [];
      } else {
        assert GroupNames(taskFiles) == [];
      }
      assert spec == Ok(func);
      assert OnFunc(s0, spec) == Ok(State());
    }

    /** One `os.rename` in the func folder. */
    method RenameFunc(src: string, dst: string) returns (error: Option<string>)
      modifies this
      ensures error == ErrorOf(Step(old(func), Rename(src, dst)))
      ensures error.None? ==> func == Step(old(func), Rename(src, dst)).value
      ensures State() == old(State()).(folders := old(State()).folders.(func := func))
    {
      if src !in func {
        return Some(NoSuchFile);
      }
      func := Put(Without(func, src), dst);
      error := None;
    }

    /** The four renames of one BOLD rest run and its SBRef, the SBRef's
        name derived from the BOLD run's series number. */
    method RenameRestPair(file: string, target: string) returns (error: Option<string>)
      requires RunIndex(file).Some?
      modifies this
      ensures error == ErrorOf(Apply(old(func), RestRenames(file, RunIndex(file).value, target)))
      ensures error.None? ==> func == Apply(old(func), RestRenames(file, RunIndex(file).value, target)).value
      ensures State() == old(State()).(folders := old(State()).folders.(func := func))
    {
      var fileSplit := Split(file, '_');
      var fileSbref := Replace(file, fileSplit[|fileSplit| - 1], IntToStr(ParseInt(fileSplit[|fileSplit| - 1]).value - 1));
      var boldImage, boldSidecar := Rename(file + ".nii.gz", target + "_bold.nii.gz"), Rename(file + ".json", target + "_bold.json");
      var sbrefImage, sbrefSidecar := Rename(fileSbref + ".nii.gz", target + "_sbref.nii.gz"), Rename(fileSbref + ".json", target + "_sbref.json");
      RestRenamesAre(file, RunIndex(file).value, target, fileSbref);
      ApplyFour(func, boldImage, boldSidecar, sbrefImage, sbrefSidecar);
      error := RenameFunc(file + ".nii.gz", target + "_bold.nii.gz");
      if error.Some? {
        return;
      }
      ApplyThree(func, boldSidecar, sbrefImage, sbrefSidecar);
      error := RenameFunc(file + ".json", target + "_bold.json");
      if error.Some? {
        return;
      }
      ApplyTwo(func, sbrefImage, sbrefSidecar);
      error := RenameFunc(fileSbref + ".nii.gz", target + "_sbref.nii.gz");
      if error.Some? {
        return;
      }
      ApplyMaybe(func, true, sbrefSidecar, []);
      error := RenameFunc(fileSbref + ".json", target + "_sbref.json");
    }

    /** The numbered loop over the sorted BOLD rest runs: `run` counts
        from 1 and only advances when there are several runs. */
    method RenameRestList(sorted: seq<(int, string)>, subject: string) returns (error: Option<string>)
      requires forall k :: 0 <= k < |sorted| ==> RunIndex(sorted[k].1) == Some(sorted[k].0)
      modifies this
      ensures error == ErrorOf(Apply(old(func), RestOps(sorted, subject, 1, |sorted| == 1)))
      ensures error.None? ==> func == Apply(old(func), RestOps(sorted, subject, 1, |sorted| == 1)).value
      ensures State() == old(State()).(folders := old(State()).folders.(func := func))
    {
      error := None;
      var single := |sorted| == 1;
      var run := 1;
      ghost var spec := Apply(func, RestOps(sorted, subject, 1, single));
      RestOpsFromStart(sorted, subject, single);
      for i := 0 to |sorted|
        invariant spec == Apply(func, RestOps(sorted[i..], subject, i + 1, single))
        invariant !single ==> run == i + 1
        invariant error == None
        invariant State() == old(State()).(folders := old(State()).folders.(func := func))
      {
        var file := sorted[i].1;
        var target;
        if single {
          target := subject + "_task-rest";
        } else {
          target := subject + "_task-rest_run-0" + NatToStr(run);
        }
        RestTargetIs(subject, i + 1, single);
        RestLoopStep(func, sorted, subject, i, single);
        error := RenameRestPair(file, target);
        if error.Some? {
          return;
        }
        if !single {
          run := run + 1;
        }
      }
      assert sorted[|sorted|..] == [];
    }

    /** The resting-state step: series numbers, the BOLD runs (those with
        a run one number below), sorted by number and renamed. */
    method RenameRestRuns(rsfcFiles: seq<string>, subject: string) returns (error: Option<string>)
      modifies this
      ensures error == ErrorOf(RestStage(old(State()), rsfcFiles, subject))
      ensures error.None? ==> State() == RestStage(old(State()), rsfcFiles, subject).value
      ensures State() == old(State()).(folders := old(State()).folders.(func := func))
    {
      error := None;
      ghost var s0 := State();
      ghost var spec := RestRuns(func, rsfcFiles, subject);
      assert RestStage(old(State()), rsfcFiles, subject) == OnFunc(s0, spec);
      if |rsfcFiles| > 0 {
        var restRuns := CollectStems(rsfcFiles, ".nii");
        var keys, restDict, bad := IndexRuns(restRuns);
        if bad.Some? {
          assert spec == Err(BadIndex);
          return bad;
        }
        var bold := PairedRuns(keys, restDict);
        var sorted := Sorting.SortPairs(bold);
        SortedRunsIndexed(keys, sorted);
        assert spec == Apply(s0.folders.func, RestOps(sorted, subject, 1, |sorted| == 1));
        error := RenameRestList(sorted, subject);
      } else {
        EmptyRestRuns(func, subject);
      }
    }

    /** The `TaskName` loop over the func JSON files. */
    method SetTaskNames() returns (error: Option<string>)
      modifies this
      ensures error == ErrorOf(TaskNameStage(old(State())))
      ensures error.None? ==> State() == TaskNameStage(old(State())).value
      ensures State() == old(State()).(folders := old(State()).folders.(func := func), taskNames := taskNames)
    {
      error := None;
      ghost var s0 := State();
      var renamedFuncFilesAll := func;
      var renamedFuncJsons := CollectWith(renamedFuncFilesAll, ".json");
      ghost var spec := TaskNameSteps(func, taskNames, renamedFuncJsons, None);
      var taskName: Option<string> := None;
      for i := 0 to |renamedFuncJsons|
        invariant spec == TaskNameSteps(func, taskNames, renamedFuncJsons[i..], taskName)
        invariant State() == s0.(folders := s0.folders.(func := func), taskNames := taskNames)
      {
        var file := renamedFuncJsons[i];
        assert renamedFuncJsons[i..][0] == file && renamedFuncJsons[i..][1..] == renamedFuncJsons[i + 1..];
        taskName := TimingFiles.ReadTaskName(file, taskName);
        if taskName.None? {
          return Some(NoTaskName);
        }
        taskNames := taskNames[file := taskName.value];
        func := Without(func, file);
        func := func + [file];
      }
      assert renamedFuncJsons[|renamedFuncJsons|..] == [];
    }

    /** One `os.rename` in the fmap folder. */
    method RenameFmap(src: string, dst: string) returns (error: Option<string>)
      modifies this
      ensures error == ErrorOf(Step(old(fmap), Rename(src, dst)))
      ensures error.None? ==> fmap == Step(old(fmap), Rename(src, dst)).value
      ensures State() == old(State()).(folders := old(State()).folders.(fmap := fmap))
    {
      if src !in fmap {
        return Some(NoSuchFile);
      }
      fmap := Put(Without(fmap, src), dst);
      error := None;
    }

    /** The fieldmap loop: each NIfTI's direction read from its JSON, both
        renamed; `j`/`j-` become `PA`/`AP` unless there are exactly four
        fieldmap files. */
    method RenameFieldmaps(phase: map<string, string>, subject: string) returns (error: Option<string>)
      modifies this
      ensures error == ErrorOf(FieldmapStage(old(State()), phase, subject))
      ensures error.None? ==> State() == FieldmapStage(old(State()), phase, subject).value
      ensures State() == old(State()).(folders := old(State()).folders.(fmap := fmap))
    {
      error := None;
      ghost var s0 := State();
      var fieldmapFiles1 := fmap;
      var fieldmapFiles := CollectFieldmaps(fieldmapFiles1);
      ghost var spec := FieldmapSteps(fmap, fieldmapFiles, |fieldmapFiles|, phase, subject);
      assert FieldmapStage(old(State()), phase, subject) == OnFmap(s0, spec);
      if |fieldmapFiles| > 0 {
        for i := 0 to |fieldmapFiles|
          invariant spec == FieldmapSteps(fmap, fieldmapFiles[i..], |fieldmapFiles|, phase, subject)
          invariant error == None
          invariant State() == s0.(folders := s0.folders.(fmap := fmap))
        {
          assert fieldmapFiles[i..][0] == fieldmapFiles[i] && fieldmapFiles[i..][1..] == fieldmapFiles[i + 1..];
          error := RenameFieldmap(fieldmapFiles[i], |fieldmapFiles|, phase, subject);
          if error.Some? {
            return;
          }
        }
        assert fieldmapFiles[|fieldmapFiles|..] == [];
      }
    }

    /** The loop body for one fieldmap file; `j`/`j-` become `PA`/`AP`
        unless there are exactly four fieldmap files. */
    method RenameFieldmap(file: string, fileCount: nat, phase: map<string, string>, subject: string)
      returns (error: Option<string>)
      modifies this
      ensures error == ErrorOf(FieldmapStep(old(fmap), file, fileCount, phase, subject))
      ensures error.None? ==> fmap == FieldmapStep(old(fmap), file, fileCount, phase, subject).value
      ensures State() == old(State()).(folders := old(State()).folders.(fmap := fmap))
    {
      error := None;
      if Contains(file, ".nii") {
        var json := DropLast(file, 7) + ".json";
        if json !in fmap {
          return Some(NoSuchJson);
        }
        if json !in phase {
          return Some(NoDirection);
        }
        var direction := phase[json];
        if fileCount != 4 {
          if direction == "j" {
            direction := "PA";
          } else if direction == "j-" {
            direction := "AP";
          }
        }
        var target := subject + "_dir-" + direction + "_epi";
        assert direction == Direction(phase[json], fileCount);
        ghost var ops := [Rename(file, target + ".nii.gz"), Rename(json, target + ".json")];
        assert ops == [ops[0]] + [ops[1]] && [ops[1]] == [ops[1]] + [];
        ApplyMaybe(fmap, true, ops[0], [ops[1]]);
        error := RenameFmap(file, target + ".nii.gz");
        if error.Some? {
          return;
        }
        ApplyMaybe(fmap, true, ops[1], []);
        error := RenameFmap(json, target + ".json");
      }
    }

    /** `IntendedFor`: the BOLD runs of `listing` (the func folder before its
        JSON files were rewritten) are written into every fmap JSON, if any
        fmap entry has `epi` in its name. */
    method SetIntendedFor(listing: seq<string>, multiSession: bool, funcFolderPath: string)
      returns (error: Option<string>)
      modifies this
      ensures error == ErrorOf(IntendedForStage(old(State()), listing, multiSession, funcFolderPath))
      ensures error.None? ==> State() == IntendedForStage(old(State()), listing, multiSession, funcFolderPath).value
      ensures State() == old(State()).(folders := old(State()).folders.(fmap := fmap), intendedFor := intendedFor)
    {
      ghost var s0 := State();
      var renamedFuncFiles := BoldRuns(listing, multiSession, funcFolderPath);
      if renamedFuncFiles.Err? {
        return Some(renamedFuncFiles.error);
      }
      var renamedFieldmapFiles := fmap;
      var any := AnyContains(renamedFieldmapFiles, "epi");
      if any {
        WriteIntendedFor(renamedFuncFiles.value);
      }
      error := None;
    }

    /** The loop that gives every fmap JSON the list and writes it again. */
    method WriteIntendedFor(renamedFuncFiles: seq<string>)
      modifies this
      ensures (fmap, intendedFor) == IntendedForSteps(old(fmap), old(intendedFor), old(fmap), renamedFuncFiles)
      ensures State() == old(State()).(folders := old(State()).folders.(fmap := fmap), intendedFor := intendedFor)
    {
      var renamedFieldmapFiles := fmap;
      ghost var spec := IntendedForSteps(fmap, intendedFor, renamedFieldmapFiles, renamedFuncFiles);
      for i := 0 to |renamedFieldmapFiles|
        invariant spec == IntendedForSteps(fmap, intendedFor, renamedFieldmapFiles[i..], renamedFuncFiles)
        invariant State() == old(State()).(folders := old(State()).folders.(fmap := fmap), intendedFor := intendedFor)
      {
        var file := renamedFieldmapFiles[i];
        assert renamedFieldmapFiles[i..][0] == file && renamedFieldmapFiles[i..][1..] == renamedFieldmapFiles[i + 1..];
        ghost var next := IntendedForSteps(fmap, intendedFor, renamedFieldmapFiles[i + 1..], renamedFuncFiles);
        if Contains(file, ".json") {
          next := IntendedForSteps(Put(fmap, file), intendedFor[file := renamedFuncFiles], renamedFieldmapFiles[i + 1..],
                                   renamedFuncFiles);
          intendedFor := intendedFor[file := renamedFuncFiles];
          fmap := Without(fmap, file);
          fmap := fmap + [file];
        }
        assert spec == next;
      }
      assert renamedFieldmapFiles[|renamedFieldmapFiles|..] == [];
    }

    /** `shutil.rmtree` of the nifti folder, then `os.rmdir` of each of
        anat, func and fmap that is empty. */
    method Cleanup()
      modifies this
      ensures State() == CleanupStage(old(State()))
    {
      nifti := [];
      removed := removed + ["nifti"];
      if |anat| == 0 {
        removed := removed + ["anat"];
      }
      if |func| == 0 {
        removed := removed + ["func"];
      }
      if |fmap| == 0 {
        removed := removed + ["fmap"];
      }
    }

    /** `reorganize_NIfTI` after the conversion: every stage in turn, the
        first error stopping the script. */
    method Reorganize(p: Params) returns (error: Option<string>)
      modifies this
      ensures error == ErrorOf(Reorganized(old(State()), p))
      ensures error.None? ==> State() == Reorganized(old(State()), p).value
    {
      var ses := "";
      if p.multiSession {
        ses := "_ses-0" + NatToStr(p.session);
      }
      var subject := "sub-" + p.idPrefix + p.participant + ses;
      assert subject == SubjectOf(p);
      error := Relocate(p, subject);
      if error.Some? {
        return;
      }
      Cleanup();
    }

    /** Every stage before the clean-up. */
    method Relocate(p: Params, subject: string) returns (error: Option<string>)
      requires subject == SubjectOf(p)
      modifies this
      ensures error == ErrorOf(Relocated(old(State()), p))
      ensures error.None? ==> State() == Relocated(old(State()), p).value
    {
      DistributeConverted(p.taskCode);
      var anatFiles := anat;
      error := ReduceAnat(anatFiles, "T1", subject + "_T1w");
      if error.Some? {
        return;
      }
      error := ReduceAnat(anatFiles, "T2", subject + "_T2w");
      if error.Some? {
        return;
      }
      var funcFiles := func;
      var taskFiles, rsfcFiles := SplitRuns(funcFiles);
      error := RenameTaskRuns(taskFiles, subject, p.taskCode);
      if error.Some? {
        return;
      }
      error := RenameRestRuns(rsfcFiles, subject);
      if error.Some? {
        return;
      }
      var renamedFuncFilesAll := func;
      error := SetTaskNames();
      if error.Some? {
        return;
      }
      error := RenameFieldmaps(p.phase, subject);
      if error.Some? {
        return;
      }
      error := SetIntendedFor(renamedFuncFilesAll, p.multiSession, p.funcFolderPath);
    }
  }
}
