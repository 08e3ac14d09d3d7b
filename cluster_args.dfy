/** `cluster_and_map_vol_to_surface.py`: the arguments of the script, their
    validation and normalisation, the scan of the AFNI header for the
    3dClustSim table, and the lookup of the minimum cluster size in it.
    3dclust, 3dcalc, the surface conversion and the z-to-p search are
    foreign calls or floating point and are left out; the working
    directory is a predicate `onDisk` on paths. */
module ClusterArgs {
  import opened Wrappers
  import opened PyStr
  import opened CommandLine
  import PathCheck

  // ---------------------------------------------------------------------
  // Reading the arguments
  // ---------------------------------------------------------------------

  /** The option variables of `main` as the argument loop leaves them;
      `keepniftiString` is the local `keepnifti_string`, unset until a
      `keepnifti=` argument is read. */
  datatype Options = Options(filename: Option<string>, p: Option<string>, z: Option<string>,
                             alpha: string, nn: string, bisided: Flag, loop: Flag, suffix: string,
                             keepnifti: Flag, keepafni: Flag, keepniftiString: Option<string>)

  /** The values the script starts from. */
  const Defaults := Options(None, None, None, "0.05", "3", Bool(true), Bool(false), "", Bool(false), Bool(false), None)

  /** An exit without a message: after the usage text, after the `NN=more`
      explanation, or when the user answers `n`. */
  const Quiet := ""

  const NoKeepniftiString := "UnboundLocalError: local variable 'keepnifti_string' referenced before assignment"

  /** The extensions that make an argument the AFNI file. */
  const Extensions := [".HEAD", ".BRIK"]

  /** `keepafni=<s>`: the true-branch tests the value of `keepnifti=`, the
      false-branch the value of `keepafni=`. */
  function AfniFlag(keepniftiString: string, keepafniString: string): (f: Flag)
    ensures keepniftiString == "true" ==> f == Bool(true)
    ensures keepniftiString != "true" ==> f == (if keepafniString == "false" then Bool(false) else Text(keepafniString))
  {
    if keepniftiString == "true" then Bool(true)
    else if keepafniString == "false" then Bool(false)
    else Text(keepafniString)
  }

  /** The `p=`, `z=` and `alpha=` tests; `p=` is skipped in an argument
      that mentions `loop`. */
  function SetThresholds(o: Options, command: string): (r: Options)
    ensures r == o.(p := r.p, z := r.z, alpha := r.alpha)
    ensures !Contains(command, "alpha=") ==> r.alpha == o.alpha
  {
    var o1 := if Contains(command, "p=") && !Contains(command, "loop") then o.(p := Some(Drop(command, 2))) else o;
    var o2 := if Contains(command, "z=") then o1.(z := Some(Drop(command, 2))) else o1;
    if Contains(command, "alpha=") then o2.(alpha := Drop(command, 6)) else o2
  }

  /** The `NN=`, `bisided=`, `loop=`, `suffix=` and `keepnifti=` tests. */
  function SetSwitches(o: Options, command: string): (r: Options)
    ensures r == o.(nn := r.nn, bisided := r.bisided, loop := r.loop, suffix := r.suffix,
                    keepnifti := r.keepnifti, keepniftiString := r.keepniftiString)
    ensures !Contains(command, "NN=") ==> r.nn == o.nn
    ensures !Contains(command, "bisided=") ==> r.bisided == o.bisided
    ensures !Contains(command, "loop=") ==> r.loop == o.loop
    ensures !Contains(command, "suffix=") ==> r.suffix == o.suffix
    ensures !Contains(command, "keepnifti=") ==> r.keepnifti == o.keepnifti && r.keepniftiString == o.keepniftiString
  {
    var o1 := if Contains(command, "NN=") then o.(nn := Drop(command, 3)) else o;
    var o2 := if Contains(command, "bisided=") then o1.(bisided := ParseFlag(Drop(command, 8))) else o1;
    var o3 := if Contains(command, "loop=") then o2.(loop := ParseFlag(Drop(command, 5))) else o2;
    var o4 := if Contains(command, "suffix=") then o3.(suffix := Drop(command, 7)) else o3;
    if Contains(command, "keepnifti=")
    then o4.(keepnifti := ParseFlag(Drop(command, 10)), keepniftiString := Some(Drop(command, 10)))
    else o4
  }

  /** The `keepafni=` test, which reads `keepnifti_string`. */
  function SetKeepafni(o: Options, command: string): (r: Result<Options>)
    ensures r.Ok? ==> r.value == o.(keepafni := r.value.keepafni)
    ensures !Contains(command, "keepafni=") ==> r == Ok(o)
  {
    if !Contains(command, "keepafni=") then Ok(o)
    else if o.keepniftiString.None? then Err(NoKeepniftiString)
    else Ok(o.(keepafni := AfniFlag(o.keepniftiString.value, Drop(command, 9))))
  }

  /** The file-name test. */
  function SetFilename(o: Options, command: string, thisdir: string, onDisk: string -> bool): (r: Options)
    ensures r == o.(filename := r.filename)
  {
    if NamesFile(command, Extensions, thisdir, onDisk) then o.(filename := Some(FileArgument(command))) else o
  }

  /** One pass of `for command in commands`: every test is applied in turn,
      so one argument can set several options; `NN=more` stops the script
      after the explanation. */
  function ReadCommand(o: Options, command: string, thisdir: string, onDisk: string -> bool): Result<Options> {
    if Contains(command, "NN=") && Contains(command, "more") then Err(Quiet)
    else
      var r := SetKeepafni(SetSwitches(SetThresholds(o, command), command), command);
      if r.Err? then r else Ok(SetFilename(r.value, command, thisdir, onDisk))
  }

  /** The options after the arguments `commands` (all of `sys.argv`). */
  function ReadAll(commands: seq<string>, thisdir: string, onDisk: string -> bool): Result<Options>
    decreases |commands|
  {
    if |commands| == 0 then Ok(Defaults)
    else
      var before := ReadAll(commands[..|commands| - 1], thisdir, onDisk);
      if before.Err? then before else ReadCommand(before.value, Last(commands), thisdir, onDisk)
  }

  lemma {:induction false} ReadAllErrStays(commands: seq<string>, thisdir: string, onDisk: string -> bool, n: nat)
    requires n <= |commands| && ReadAll(commands[..n], thisdir, onDisk).Err?
    ensures ReadAll(commands, thisdir, onDisk) == ReadAll(commands[..n], thisdir, onDisk)
    decreases |commands| - n
  {
    if n == |commands| {
      assert commands[..n] == commands;
    } else {
      assert commands[..n + 1][..n] == commands[..n];
      ReadAllErrStays(commands, thisdir, onDisk, n + 1);
    }
  }

  /** The argument loop; `o` holds the option variables of `main`. */
  method ReadArguments(commands: seq<string>, thisdir: string, onDisk: string -> bool) returns (r: Result<Options>)
    ensures r == ReadAll(commands, thisdir, onDisk)
  {
    var o := Defaults;
    for i := 0 to |commands|
      invariant ReadAll(commands[..i], thisdir, onDisk) == Ok(o)
    {
      var command := commands[i];
      assert commands[..i + 1][..i] == commands[..i];
      var step := ReadArgument(o, command, thisdir, onDisk);
      if step.Err? {
        ReadAllErrStays(commands, thisdir, onDisk, i + 1);
        return step;
      }
      o := step.value;
    }
    assert commands[..|commands|] == commands;
    r := Ok(o);
  }

  /** The body of the argument loop. */
  method ReadArgument(o: Options, command: string, thisdir: string, onDisk: string -> bool) returns (r: Result<Options>)
    ensures r == ReadCommand(o, command, thisdir, onDisk)
  {
    var next := ReadThresholds(o, command);
    if Contains(command, "NN=") && Contains(command, "more") {
      return Err(Quiet);
    }
    next := ReadSwitches(next, command);
    if Contains(command, "keepafni=") {
      if next.keepniftiString.None? {
        return Err(NoKeepniftiString);
      }
      next := next.(keepafni := AfniFlag(next.keepniftiString.value, Drop(command, 9)));
    }
    if NamesFile(command, Extensions, thisdir, onDisk) {
      next := next.(filename := Some(FileArgument(command)));
    }
    r := Ok(next);
  }

  method ReadThresholds(o: Options, command: string) returns (next: Options)
    ensures next == SetThresholds(o, command)
  {
    next := o;
    if Contains(command, "p=") && !Contains(command, "loop") {
      next := next.(p := Some(Drop(command, 2)));
    }
    if Contains(command, "z=") {
      next := next.(z := Some(Drop(command, 2)));
    }
    if Contains(command, "alpha=") {
      next := next.(alpha := Drop(command, 6));
    }
  }

  /** The `NN=` to `keepnifti=` tests; `NN=more` has stopped the script
      before the value would matter. */
  method ReadSwitches(o: Options, command: string) returns (next: Options)
    ensures next == SetSwitches(o, command)
  {
    next := o;
    if Contains(command, "NN=") {
      next := next.(nn := Drop(command, 3));
    }
    if Contains(command, "bisided=") {
      next := next.(bisided := ParseFlag(Drop(command, 8)));
    }
    if Contains(command, "loop=") {
      next := next.(loop := ParseFlag(Drop(command, 5)));
    }
    if Contains(command, "suffix=") {
      next := next.(suffix := Drop(command, 7));
    }
    if Contains(command, "keepnifti=") {
      var keepniftiString := Drop(command, 10);
      next := next.(keepnifti := ParseFlag(keepniftiString), keepniftiString := Some(keepniftiString));
    }
  }

  /** What one argument leaves unchanged. */
  lemma ReadCommandKeeps(o: Options, command: string, thisdir: string, onDisk: string -> bool)
    requires ReadCommand(o, command, thisdir, onDisk).Ok?
    ensures var n := ReadCommand(o, command, thisdir, onDisk).value;
      && (!Contains(command, "alpha=") ==> n.alpha == o.alpha)
      && (!Contains(command, "NN=") ==> n.nn == o.nn)
      && (!Contains(command, "bisided=") ==> n.bisided == o.bisided)
      && (!Contains(command, "loop=") ==> n.loop == o.loop)
      && (!Contains(command, "suffix=") ==> n.suffix == o.suffix)
      && (!Contains(command, "keepnifti=") ==> n.keepnifti == o.keepnifti && n.keepniftiString == o.keepniftiString)
      && (!Contains(command, "keepafni=") ==> n.keepafni == o.keepafni)
  {
  }

  /** An option no argument mentions keeps its default. */
  lemma {:induction false} ReadAllDefaults(commands: seq<string>, thisdir: string, onDisk: string -> bool)
    requires ReadAll(commands, thisdir, onDisk).Ok?
    ensures var o := ReadAll(commands, thisdir, onDisk).value;
      && ((forall k :: 0 <= k < |commands| ==> !Contains(commands[k], "alpha=")) ==> o.alpha == "0.05")
      && ((forall k :: 0 <= k < |commands| ==> !Contains(commands[k], "NN=")) ==> o.nn == "3")
      && ((forall k :: 0 <= k < |commands| ==> !Contains(commands[k], "bisided=")) ==> o.bisided == Bool(true))
      && ((forall k :: 0 <= k < |commands| ==> !Contains(commands[k], "loop=")) ==> o.loop == Bool(false))
      && ((forall k :: 0 <= k < |commands| ==> !Contains(commands[k], "suffix=")) ==> o.suffix == "")
      && ((forall k :: 0 <= k < |commands| ==> !Contains(commands[k], "keepnifti=")) ==> o.keepnifti == Bool(false))
      && ((forall k :: 0 <= k < |commands| ==> !Contains(commands[k], "keepafni=")) ==> o.keepafni == Bool(false))
    decreases |commands|
  {
    if |commands| > 0 {
      var front := commands[..|commands| - 1];
      ReadAllDefaults(front, thisdir, onDisk);
      assert forall k :: 0 <= k < |front| ==> front[k] == commands[k];
      ReadCommandKeeps(ReadAll(front, thisdir, onDisk).value, Last(commands), thisdir, onDisk);
    }
  }

  /** With `keepnifti=true` read earlier, `keepafni=false` still sets
      `keepafni` to `True`: the true-branch tests the wrong variable. */
  lemma KeepafniFollowsKeepnifti(o: Options, command: string, thisdir: string, onDisk: string -> bool)
    requires o.keepniftiString == Some("true")
    requires Contains(command, "keepafni=") && !Contains(command, "keepnifti=") && !Contains(command, "NN=")
    ensures ReadCommand(o, command, thisdir, onDisk).Ok?
    ensures ReadCommand(o, command, thisdir, onDisk).value.keepafni == Bool(true)
  {
  }

  /** Without an earlier `keepnifti=`, any `keepafni=` argument stops the
      script on the unset `keepnifti_string`. */
  lemma KeepafniNeedsKeepnifti(commands: seq<string>, thisdir: string, onDisk: string -> bool, k: nat)
    requires k < |commands| && Contains(commands[k], "keepafni=")
    requires forall j :: 0 <= j <= k ==> !Contains(commands[j], "keepnifti=")
    ensures ReadAll(commands, thisdir, onDisk).Err?
  {
    var r := ReadAll(commands[..k], thisdir, onDisk);
    NoKeepniftiUnset(commands, thisdir, onDisk, k);
    assert commands[..k + 1][..k] == commands[..k];
    ReadAllErrStays(commands, thisdir, onDisk, k + 1);
  }

  lemma {:induction false} NoKeepniftiUnset(commands: seq<string>, thisdir: string, onDisk: string -> bool, n: nat)
    requires n <= |commands|
    requires forall j :: 0 <= j < n ==> !Contains(commands[j], "keepnifti=")
    ensures ReadAll(commands[..n], thisdir, onDisk).Ok? ==> ReadAll(commands[..n], thisdir, onDisk).value.keepniftiString.None?
    decreases n
  {
    if n > 0 {
      NoKeepniftiUnset(commands, thisdir, onDisk, n - 1);
      assert commands[..n][..n - 1] == commands[..n - 1];
      var before := ReadAll(commands[..n - 1], thisdir, onDisk);
      if before.Ok? && ReadAll(commands[..n], thisdir, onDisk).Ok? {
        ReadCommandKeeps(before.value, commands[n - 1], thisdir, onDisk);
      }
    }
  }

  // ---------------------------------------------------------------------
  // Validation
  // ---------------------------------------------------------------------

  /** The checks after the argument loop, in the script's order; `isFloat`
      is whether `float(s)` succeeds, `answer` what the user types when
      both a file name and `loop=true` are given. */
  function Check(o: Options, thisdir: string, onDisk: string -> bool, isFloat: string -> bool, answer: string)
    : (r: Result<()>)
    ensures r.Ok? <==>
      && Given(o.p) != Given(o.z)
      && (Given(o.p) ==> isFloat(o.p.value))
      && (Given(o.z) ==> isFloat(o.z.value))
      && o.alpha != "" && isFloat(o.alpha)
      && o.nn in {"1", "2", "3"}
      && IsBool(o.bisided) && (FlagOn(o.loop) ==> IsBool(o.loop)) && IsBool(o.keepnifti) && IsBool(o.keepafni)
      && (!FlagOn(o.loop) ==>
            Given(o.filename) &&
            (onDisk(thisdir + "/" + o.filename.value) || onDisk(thisdir + "/" + o.filename.value + ".HEAD")))
      && !(FlagOn(o.loop) && Given(o.filename) && answer == "n")
    ensures Given(o.p) && Given(o.z) ==>
      r == Err("You cannot specify both a p-value and a z-value. Please select only one.")
  {
    if Given(o.p) && Given(o.z) then Err("You cannot specify both a p-value and a z-value. Please select only one.")
    else if Given(o.p) && !isFloat(o.p.value) then Err("Please provide a valid option for the argument 'p'")
    else if Given(o.z) && !isFloat(o.z.value) then Err("Please provide a valid option for the argument 'z'")
    else if !Given(o.p) && !Given(o.z) then Err("You must provide at least one threshold value using either 'p' or 'z'")
    else if o.alpha == "" || !isFloat(o.alpha) then Err("Please provide a valid option for the argument 'alpha'")
    else if o.nn !in {"1", "2", "3"} then Err("Please provide a valid option for the argument 'NN'")
    else if !IsBool(o.bisided) then Err("Please provide a valid option for the argument 'bisided'")
    else if FlagOn(o.loop) && !IsBool(o.loop) then Err("Please provide a valid option for the argument 'loop'")
    else if !IsBool(o.keepnifti) then Err("Please provide a valid option for the argument 'keepnifti'")
    else if !IsBool(o.keepafni) then Err("Please provide a valid option for the argument 'keepafni'")
    else if !FlagOn(o.loop) && !(Given(o.filename) &&
              (onDisk(thisdir + "/" + o.filename.value) || onDisk(thisdir + "/" + o.filename.value + ".HEAD")))
    then Err("Please provide a valid AFNI file name, or set loop=true")
    else if FlagOn(o.loop) && Given(o.filename) && answer == "n" then Err(Quiet)
    else Ok(())
  }

  // ---------------------------------------------------------------------
  // Normalisation
  // ---------------------------------------------------------------------

  /** The file name without `.HEAD`/`.BRIK` (5 characters) or `.BRIK.gz`
      (8 characters). */
  function StripAfni(filename: string): string {
    var f := if (Contains(filename, ".HEAD") || Contains(filename, ".BRIK")) && !Contains(filename, ".BRIK.gz")
             then DropLast(filename, 5) else filename;
    if Contains(f, ".BRIK.gz") then DropLast(f, 8) else f
  }

  /** `.HEAD` or a plain `.BRIK` is removed from a file name. */
  lemma StripHeadOrBrik(base: string, ext: string)
    requires ext == ".HEAD" || ext == ".BRIK"
    requires !Contains(base + ext, ".BRIK.gz")
    ensures StripAfni(base + ext) == base
  {
    ContainsSuffix(base + ext, ext);
    assert (base + ext)[..|base|] == base;
    NotContainsLeft(base, ext, ".BRIK.gz");
  }

  lemma StripBrikGz(base: string)
    ensures StripAfni(base + ".BRIK.gz") == base
  {
    ContainsSuffix(base + ".BRIK.gz", ".BRIK.gz");
    assert (base + ".BRIK.gz")[..|base|] == base;
  }

  /** A name without either marker is left as it is. */
  lemma StripPlain(name: string)
    requires !Contains(name, ".HEAD") && !Contains(name, ".BRIK")
    ensures StripAfni(name) == name
  {
    assert |".BRIK.gz"| == 8 && ".BRIK.gz"[..5] == ".BRIK";
    forall i | 0 <= i <= |name| - 8
      ensures !OccursAt(name, ".BRIK.gz", i)
    {
      assert name[i..i + 8][..5] == name[i..i + 5];
      assert !OccursAt(name, ".BRIK", i);
    }
  }

  /** `'0' + x` when `x` starts with `.`. */
  function LeadingZero(x: string): (r: string)
    ensures !StartsWith(r, ".")
    ensures r == x || r == "0" + x
    ensures r == x <==> !StartsWith(x, ".")
  {
    if StartsWith(x, ".") then
      assert ("0" + x)[..1] == "0";
      "0" + x
    else x
  }

  /** The suffix with `_` in front, unless it is empty or already starts
      with `_`, `.` or `-`. */
  function SuffixForm(suffix: string): (r: string)
    ensures r == suffix || r == "_" + suffix
    ensures suffix == "" ==> r == ""
    ensures suffix != "" ==> r[0] in {'_', '.', '-'}
    ensures r == suffix <==> suffix == "" || suffix[0] in {'_', '.', '-'}
  {
    if suffix != "" && !StartsWith(suffix, "_") && !StartsWith(suffix, ".") && !StartsWith(suffix, "-") then
      "_" + suffix
    else
      assert suffix != "" ==> suffix[..1] == [suffix[0]];
      suffix
  }

  /** The settings the per-file loop works with. */
  datatype Job = Job(filename: Option<string>, p: string, z: Option<string>, alpha: string, nnLevel: string,
                     sided: string, loop: bool, suffix: string, keepnifti: bool, keepafni: bool)

  /** The normalisation after the checks; `pFromZ` is the p-value text the
      nearest-p search picks for a z-value. */
  function Normalised(o: Options, pFromZ: string -> string): (j: Job)
    requires Given(o.p) || Given(o.z)
    requires IsBool(o.bisided) && IsBool(o.keepnifti) && IsBool(o.keepafni)
    ensures !StartsWith(j.p, ".") && !StartsWith(j.alpha, ".")
    ensures j.nnLevel == "NN" + o.nn
    ensures j.sided == if o.bisided.b then "bisided" else "1sided"
    ensures j.filename.Some? <==> Given(o.filename)
  {
    var p := if Given(o.z) then pFromZ(o.z.value) else o.p.value;
    Job(if Given(o.filename) then Some(StripAfni(o.filename.value)) else None,
        LeadingZero(p), o.z, LeadingZero(o.alpha), "NN" + o.nn,
        if o.bisided.b then "bisided" else "1sided",
        FlagOn(o.loop), SuffixForm(o.suffix), o.keepnifti.b, o.keepafni.b)
  }

  /** The script up to the per-file loop: the special-character check on
      its own directory `path`, the usage exit without arguments, the
      argument loop, the checks and the normalisation. */
  function Configure(path: string, argv: seq<string>, thisdir: string, onDisk: string -> bool,
                     isFloat: string -> bool, answer: string, pFromZ: string -> string): (r: Result<Job>)
    ensures r.Ok? ==> PathCheck.PathVerdict(path).Ok? && |argv| >= 2
    ensures r.Ok? ==> ReadAll(argv, thisdir, onDisk).Ok?
    ensures r.Ok? ==> var o := ReadAll(argv, thisdir, onDisk).value;
      Check(o, thisdir, onDisk, isFloat, answer).Ok? && r.value == Normalised(o, pFromZ)
  {
    var verdict := PathCheck.PathVerdict(path);
    if verdict.Err? then Err(verdict.error)
    else if |argv| < 2 then Err(Quiet)
    else
      var read := ReadAll(argv, thisdir, onDisk);
      if read.Err? then Err(read.error)
      else
        var checked := Check(read.value, thisdir, onDisk, isFloat, answer);
        if checked.Err? then Err(checked.error)
        else Ok(Normalised(read.value, pFromZ))
  }

  /** The names the per-file loop runs over: every `.HEAD` of the listing
      with 5 characters dropped under `loop=true`, else the one file. */
  function FilesToProcess(job: Job, listing: seq<string>): (r: seq<string>)
    requires !job.loop ==> job.filename.Some?
    ensures !job.loop ==> r == [job.filename.value]
    ensures job.loop ==> r == HeadStems(listing)
  {
    if job.loop then HeadStems(listing) else [job.filename.value]
  }

  function HeadStems(listing: seq<string>): (r: seq<string>)
    ensures |r| <= |listing|
    decreases |listing|
  {
    if |listing| == 0 then []
    else
      var front := HeadStems(listing[..|listing| - 1]);
      if Contains(Last(listing), ".HEAD") then front + [DropLast(Last(listing), 5)] else front
  }

  /** Every name listed with `.HEAD` in it, and only those, gives a stem. */
  lemma {:induction false} HeadStemsMembers(listing: seq<string>)
    ensures forall x :: x in HeadStems(listing) <==> exists f :: f in listing && Contains(f, ".HEAD") && x == DropLast(f, 5)
    decreases |listing|
  {
    if |listing| > 0 {
      var front := listing[..|listing| - 1];
      HeadStemsMembers(front);
      assert listing == front + [Last(listing)];
    }
  }

  /** `"%s_Clust%s" % (filename[:-5], suffix)`, the name of every output. */
  function ClustName(filename: string, suffix: string): string {
    DropLast(filename, 5) + "_Clust" + suffix
  }

  /** The existence checks that refuse to run over outputs of an earlier
      run, for one input `filename`. */
  function Leftovers(thisdir: string, filename: string, suffix: string, onDisk: string -> bool): (r: Result<()>)
    ensures var stem := thisdir + "/" + ClustName(filename, suffix);
      r.Ok? <==> !onDisk(thisdir + "/Clust_mask+tlrc.HEAD") && !onDisk(thisdir + "/Clust_mask+tlrc.BRIK.gz") &&
                 !onDisk(stem + "+tlrc.HEAD") && !onDisk(stem + "+tlrc.BRIK.gz") && !onDisk(stem + ".nii") &&
                 !onDisk(stem + "_L.func.gii") && !onDisk(stem + "_R.func.gii")
  {
    var name := ClustName(filename, suffix);
    var stem := thisdir + "/" + name;
    if onDisk(thisdir + "/Clust_mask+tlrc.HEAD") || onDisk(thisdir + "/Clust_mask+tlrc.BRIK.gz") then
      Err("There are Cluster masks remaining from previous use of this script (Clust_mask+tlrc) - please delete these before continuing.")
    else if onDisk(stem + "+tlrc.HEAD") || onDisk(stem + "+tlrc.BRIK.gz") then
      Err("There are intermediate AFNI files remaining from previous use of this script (" + name +
          "+tlrc) - please delete these before continuing.")
    else if onDisk(stem + ".nii") then
      Err("There are intermediate NIfTI files remaining from previous use of this script (" + name +
          ".nii) - please delete these before continuing.")
    else if onDisk(stem + "_L.func.gii") || onDisk(stem + "_R.func.gii") then
      Err("The output GIfTI surface files already exist (" + name +
          "_L/R.func.gii) - please delete these before continuing.")
    else Ok(())
  }

  // ---------------------------------------------------------------------
  // The 3dClustSim block of the header
  // ---------------------------------------------------------------------

  /** The `name = AFNI_CLUSTSIM_<NN>_<sided>` text that opens the block. */
  function BlockName(nnLevel: string, sided: string): string {
    "name = AFNI_CLUSTSIM_" + nnLevel + "_" + sided
  }

  /** The text that closes the table. */
  function EndTag(nnLevel: string): string {
    "</3dClustSim_" + nnLevel + ">~"
  }

  /** The first index at or after `from` whose line contains `sub`, or the
      number of lines. */
  ghost function FirstWith(lines: seq<string>, from: nat, sub: string): (k: nat)
    requires from <= |lines|
    ensures from <= k <= |lines|
    decreases |lines| - from
  {
    if from == |lines| || Contains(lines[from], sub) then from else FirstWith(lines, from + 1, sub)
  }

  lemma {:induction false} FirstWithFacts(lines: seq<string>, from: nat, sub: string)
    requires from <= |lines|
    ensures forall j :: from <= j < FirstWith(lines, from, sub) ==> !Contains(lines[j], sub)
    ensures FirstWith(lines, from, sub) < |lines| ==> Contains(lines[FirstWith(lines, from, sub)], sub)
    decreases |lines| - from
  {
    if from < |lines| && !Contains(lines[from], sub) {
      FirstWithFacts(lines, from + 1, sub);
    }
  }

  /** Whether the first such line is line `i` or an earlier one, decided
      one line at a time. */
  lemma FirstWithNext(lines: seq<string>, from: nat, sub: string, i: nat)
    requires from <= |lines| && i < |lines|
    ensures var k := FirstWith(lines, from, sub);
      (k <= i) == (k < i || (from <= i && Contains(lines[i], sub)))
  {
    FirstWithFacts(lines, from, sub);
  }

  /** The last of `lines[lo..hi]` that contains `sub`. */
  function LastWith(lines: seq<string>, lo: nat, hi: nat, sub: string): Option<string>
    requires hi <= |lines|
    decreases hi
  {
    if hi <= lo then None
    else if Contains(lines[hi - 1], sub) then Some(lines[hi - 1])
    else LastWith(lines, lo, hi - 1, sub)
  }

  lemma LastWithNext(lines: seq<string>, lo: nat, i: nat, sub: string)
    requires i < |lines|
    ensures LastWith(lines, lo, i + 1, sub) ==
            if lo <= i && Contains(lines[i], sub) then Some(lines[i]) else LastWith(lines, lo, i, sub)
  {
  }

  /** The line found is one of `lines[lo..hi]` holding `sub`, and none after
      it in that range does; `None` when no line there holds it. */
  lemma {:induction false} LastWithMeaning(lines: seq<string>, lo: nat, hi: nat, sub: string)
    requires hi <= |lines|
    ensures var r := LastWith(lines, lo, hi, sub);
      && (r.Some? ==> exists k :: lo <= k < hi && lines[k] == r.value && Contains(lines[k], sub) &&
                        forall j :: k < j < hi ==> !Contains(lines[j], sub))
      && (r.None? ==> forall k :: lo <= k < hi ==> !Contains(lines[k], sub))
    decreases hi
  {
    if lo < hi && !Contains(lines[hi - 1], sub) {
      LastWithMeaning(lines, lo, hi - 1, sub);
    } else if lo < hi {
      assert lines[hi - 1] == LastWith(lines, lo, hi, sub).value;
    }
  }

  /** The lines that do not contain `mask_count`. */
  function NoMask(lines: seq<string>): seq<string>
    decreases |lines|
  {
    if |lines| == 0 then []
    else if Contains(Last(lines), "mask_count") then NoMask(lines[..|lines| - 1])
    else NoMask(lines[..|lines| - 1]) + [Last(lines)]
  }

  /** The rows kept are the lines without `mask_count`, in their order. */
  lemma {:induction false} NoMaskRows(lines: seq<string>)
    ensures forall x :: x in NoMask(lines) <==> x in lines && !Contains(x, "mask_count")
    ensures |NoMask(lines)| <= |lines|
    decreases |lines|
  {
    if |lines| > 0 {
      NoMaskRows(lines[..|lines| - 1]);
      assert lines == lines[..|lines| - 1] + [Last(lines)];
    }
  }

  lemma MaskCountLine(line: string)
    requires Contains(line, "mask_count=")
    ensures Contains(line, "mask_count")
  {
    assert "mask_count="[..10] == "mask_count";
    ContainsHead(line, "mask_count=", 10);
  }

  /** The header scan. With `s` the first line naming the block, `m` the
      first line from `s` on holding `mask_count=`, and `e` the first from
      `m` on holding the end tag, the table rows are the lines between `m`
      and `e` without `mask_count`, and the p and alpha label lines are the
      last ones from `s` up to and including `e`. */
  method ScanHeader(data: seq<string>, nnLevel: string, sided: string)
      returns (pthresholds: Option<string>, athresholds: Option<string>, numbers: seq<string>)
    ensures var s := FirstWith(data, 0, BlockName(nnLevel, sided));
      var m := FirstWith(data, s, "mask_count=");
      var e := FirstWith(data, m, EndTag(nnLevel));
      var hi := if e < |data| then e + 1 else e;
      && numbers == NoMask(data[m..e])
      && pthresholds == LastWith(data, s, hi, "pthr=")
      && athresholds == LastWith(data, s, hi, "athr=")
  {
    var blockName, endTag := BlockName(nnLevel, sided), EndTag(nnLevel);
    ghost var s := FirstWith(data, 0, blockName);
    ghost var m := FirstWith(data, s, "mask_count=");
    ghost var e := FirstWith(data, m, endTag);
    pthresholds, athresholds, numbers := None, None, [];
    var start, numbersStart := false, false;
    var i := 0;
    while i < |data|
      invariant i <= e
      invariant start == (s < i) && numbersStart == (m < i)
      invariant pthresholds == LastWith(data, s, i, "pthr=")
      invariant athresholds == LastWith(data, s, i, "athr=")
      invariant numbers == NoMask(data[if m < i then m else i..i])
    {
      var line := data[i];
      FirstWithNext(data, 0, blockName, i);
      FirstWithNext(data, s, "mask_count=", i);
      FirstWithNext(data, m, endTag, i);
      LastWithNext(data, s, i, "pthr=");
      LastWithNext(data, s, i, "athr=");
      var hasBlock, hasP, hasAlpha := Contains(line, blockName), Contains(line, "pthr="), Contains(line, "athr=");
      var hasMaskCount, hasEnd, hasMask := Contains(line, "mask_count="), Contains(line, endTag), Contains(line, "mask_count");
      if hasBlock {
        start := true;
      }
      if start && hasP {
        pthresholds := Some(line);
      }
      if start && hasAlpha {
        athresholds := Some(line);
      }
      if start && hasMaskCount {
        numbersStart := true;
      }
      if numbersStart && hasEnd {
        break;
      }
      if numbersStart && !hasMask {
        numbers := numbers + [line];
      }
      ScanRows(data, m, i, numbersStart);
      i := i + 1;
    }
  }

  /** How one more line extends the rows collected from `m` on. */
  lemma ScanRows(data: seq<string>, m: nat, i: nat, numbersStart: bool)
    requires i < |data| && m <= |data| && numbersStart == (m <= i)
    requires m == i ==> Contains(data[i], "mask_count=")
    ensures NoMask(data[if m < i + 1 then m else i + 1..i + 1]) ==
      NoMask(data[if m < i then m else i..i]) + (if numbersStart && !Contains(data[i], "mask_count") then [data[i]] else [])
  {
    if m == i {
      MaskCountLine(data[i]);
      assert data[i..i + 1] == [data[i]];
      assert [data[i]][..0] == [];
    } else if m < i {
      assert data[m..i + 1][..i - m] == data[m..i];
    }
  }

  /** A header without the block, or without a `mask_count=` line in it,
      yields no rows, and the script then exits. */
  lemma NoBlockNoRows(data: seq<string>, nnLevel: string, sided: string)
    requires forall k :: 0 <= k < |data| ==> !Contains(data[k], BlockName(nnLevel, sided))
    ensures var s := FirstWith(data, 0, BlockName(nnLevel, sided));
      var m := FirstWith(data, s, "mask_count=");
      NoMask(data[m..FirstWith(data, m, EndTag(nnLevel))]) == []
  {
    FirstWithFacts(data, 0, BlockName(nnLevel, sided));
  }

  // ---------------------------------------------------------------------
  // The minimum cluster size
  // ---------------------------------------------------------------------

  const NoClustSim := "Make sure that you have run your t-test with the -Clustsim option, and that the results were added to the your file's header."
  const NoneSlice := "TypeError: 'NoneType' object has no attribute '__getitem__'"
  const NotFloat := "ValueError: could not convert string to float"
  const NoIndex := "IndexError: list index out of range"
  const PNotListed := "You p-value is not included in AFNI's list of simulated p-values to determine minimum cluster sizes. Please choose one of the following thresholds:\n"
  const AlphaNotListed := "Your alpha-value is not included in AFNI's list of simulated alpha-values to determine minimum cluster sizes. Please choose one of the following thresholds:\n"

  /** The labels of a `pthr=`/`athr=` line: `line[8:-2].split(',')`. */
  function Labels(line: string): seq<string> {
    Split(Slice(line, 8, -2), ',')
  }

  /** The cells of the table rows: `item[1:-1].split(' ')` each. */
  function Cells(numbers: seq<string>): (r: seq<seq<string>>)
    ensures |r| == |numbers|
    ensures forall k :: 0 <= k < |numbers| ==> r[k] == Split(Slice(numbers[k], 1, -1), ' ')
  {
    seq(|numbers|, k requires 0 <= k < |numbers| => Split(Slice(numbers[k], 1, -1), ' '))
  }

  /** `[float(x) for x in labels]`, `None` on the first that fails. */
  function Floats(labels: seq<string>, float: string -> Option<real>): (r: Option<seq<real>>)
    ensures r.Some? <==> forall k :: 0 <= k < |labels| ==> float(labels[k]).Some?
    ensures r.Some? ==> |r.value| == |labels| && forall k :: 0 <= k < |labels| ==> r.value[k] == float(labels[k]).value
    decreases |labels|
  {
    if |labels| == 0 then Some([])
    else
      var front := Floats(labels[..|labels| - 1], float);
      var x := float(Last(labels));
      if front.None? || x.None? then None else Some(front.value + [x.value])
  }

  /** `xs.index(x)` */
  function IndexOfValue<T(==)>(xs: seq<T>, x: T): (i: nat)
    requires x in xs
    ensures i < |xs| && xs[i] == x && forall j :: 0 <= j < i ==> xs[j] != x
  {
    if xs[0] == x then 0 else 1 + IndexOfValue(xs[1..], x)
  }

  /** The column `dict(zip(labels, row))[alpha]` reads: the last label
      equal to `alpha` among the first `n`. */
  function LastColumn(labels: seq<string>, n: nat, alpha: string): (c: Option<nat>)
    requires n <= |labels|
    ensures c.Some? ==> c.value < n && labels[c.value] == alpha && forall j :: c.value < j < n ==> labels[j] != alpha
    ensures c.None? ==> forall j :: 0 <= j < n ==> labels[j] != alpha
    decreases n
  {
    if n == 0 then None else if labels[n - 1] == alpha then Some(n - 1) else LastColumn(labels, n - 1, alpha)
  }

  function Min(a: nat, b: nat): nat {
    if a < b then a else b
  }

  /** Python's `str()` of a list of texts, as the two messages show it,
      each item quoted with `'`. Python itself quotes an item holding `'`
      with `"` and escapes backslashes; such items are not modelled. */
  function ListText(items: seq<string>): string {
    "[" + Join(seq(|items|, k requires 0 <= k < |items| => "'" + items[k] + "'"), ", ") + "]"
  }

  /** `voxel_number`: the entry of the row for p in the column labelled
      alpha, after the script's exits in order. */
  function ClusterSize(pthresholds: Option<string>, athresholds: Option<string>, numbers: seq<string>,
                       p: string, alpha: string, float: string -> Option<real>): (r: Result<string>)
    ensures |numbers| == 0 ==> r == Err(NoClustSim)
  {
    if |numbers| == 0 then Err(NoClustSim)
    else if pthresholds.None? then Err(NoneSlice)
    else
      var pLabels := Labels(pthresholds.value);
      var pFloats := Floats(pLabels, float);
      if pFloats.None? then Err(NotFloat)
      else if athresholds.None? then Err(NoneSlice)
      else
        var pValue := float(p);
        if pValue.None? then Err(NotFloat)
        else Lookup(pLabels, pFloats.value, Labels(athresholds.value), Cells(numbers), pValue.value, alpha)
  }

  /** The final part of the lookup, once both label lines are read and p is
      a number: `pthresholds.index(p)`, the alpha check, the row and the
      column. */
  function Lookup(pLabels: seq<string>, pValues: seq<real>, aLabels: seq<string>, rows: seq<seq<string>>,
                  x: real, alpha: string): (r: Result<string>)
  {
    if x !in pValues then
      Err(PNotListed + ListText(pLabels))
    else
      var index := IndexOfValue(pValues, x);
      if alpha !in aLabels then
        Err(AlphaNotListed + ListText(aLabels))
      else if index >= |rows| then Err(NoIndex)
      else
        var column := LastColumn(aLabels, Min(|aLabels|, |rows[index]|), alpha);
        if column.None? then Err("KeyError: '" + alpha + "'")
        else Ok(rows[index][column.value])
  }

  /** A found size is the cell, in the row of the first p label equal to p,
      of a column labelled alpha; a p or an alpha outside the labels is an
      error. */
  lemma LookupMeaning(pLabels: seq<string>, pValues: seq<real>, aLabels: seq<string>, rows: seq<seq<string>>,
                      x: real, alpha: string)
    ensures x !in pValues || alpha !in aLabels ==> Lookup(pLabels, pValues, aLabels, rows, x, alpha).Err?
    ensures Lookup(pLabels, pValues, aLabels, rows, x, alpha).Ok? ==>
      exists i, c :: 0 <= i < |pValues| && pValues[i] == x && (forall j :: 0 <= j < i ==> pValues[j] != x) &&
        i < |rows| && 0 <= c < |aLabels| && aLabels[c] == alpha && c < |rows[i]| &&
        Lookup(pLabels, pValues, aLabels, rows, x, alpha).value == rows[i][c]
  {
    var r := Lookup(pLabels, pValues, aLabels, rows, x, alpha);
    if x in pValues && alpha in aLabels {
      var i := IndexOfValue(pValues, x);
      if i < |rows| {
        var column := LastColumn(aLabels, Min(|aLabels|, |rows[i]|), alpha);
        if column.Some? {
          var c := column.value;
          assert r == Ok(rows[i][c]);
          assert 0 <= i < |pValues| && pValues[i] == x && (forall j :: 0 <= j < i ==> pValues[j] != x);
          assert i < |rows| && 0 <= c < |aLabels| && aLabels[c] == alpha && c < |rows[i]|;
        }
      }
    }
  }

  /** A size is found only for a header with the table and both label
      lines whose p labels are all numbers, and only when p is a number. */
  lemma ClusterSizeMeaning(pthresholds: Option<string>, athresholds: Option<string>, numbers: seq<string>,
                           p: string, alpha: string, float: string -> Option<real>)
    requires ClusterSize(pthresholds, athresholds, numbers, p, alpha, float).Ok?
    ensures |numbers| > 0 && pthresholds.Some? && athresholds.Some?
    ensures Floats(Labels(pthresholds.value), float).Some? && float(p).Some?
    ensures ClusterSize(pthresholds, athresholds, numbers, p, alpha, float) ==
      Lookup(Labels(pthresholds.value), Floats(Labels(pthresholds.value), float).value,
             Labels(athresholds.value), Cells(numbers), float(p).value, alpha)
  {
  }

  /** An alpha missing from the labels stops the script. */
  lemma AlphaMissing(pthresholds: Option<string>, athresholds: Option<string>, numbers: seq<string>,
                     p: string, alpha: string, float: string -> Option<real>)
    requires athresholds.Some? && alpha !in Labels(athresholds.value)
    ensures ClusterSize(pthresholds, athresholds, numbers, p, alpha, float).Err?
  {
    if ClusterSize(pthresholds, athresholds, numbers, p, alpha, float).Ok? {
      LookupMeaning(Labels(pthresholds.value), Floats(Labels(pthresholds.value), float).value,
                    Labels(athresholds.value), Cells(numbers), float(p).value, alpha);
    }
  }
}
