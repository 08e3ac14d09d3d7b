/** `map_vol_to_surface.py`: the arguments of the script, their validation,
    the NIfTI volume derived from the input file, and the Workbench
    mappings run on it. The conversions themselves (nifti_4dfp,
    3dAFNItoNIFTI, wb_command) are foreign calls and are left out; the
    working directory is a predicate `onDisk` on paths and the contents of
    a gzip file a function `unzip` of its name. */
module VolToSurface {
  import opened Wrappers
  import opened PyStr
  import opened CommandLine
  import PathCheck

  // ---------------------------------------------------------------------
  // Reading the arguments
  // ---------------------------------------------------------------------

  /** The option variables of `main` as the argument loop leaves them. */
  datatype Options = Options(hem: string, mappingtype: string, space: string, filename: Option<string>,
                             subbrick: int, keepnifti: Flag)

  /** The values the script starts from. */
  const Defaults := Options("both", "ribbon-constrained", "MNI", None, 0, Bool(false))

  /** An exit without a message: after the usage text or after the
      `mappingtype=more` explanation. */
  const Quiet := ""

  /** `int()` of a text that is not a whole number. */
  const BadSubbrick := "ValueError: invalid literal for int() with base 10"

  /** The extensions that make an argument the input file. */
  const Extensions := ["4dfp.img", ".nii", ".HEAD", ".BRIK"]

  /** The `hem=`, `mappingtype=` and `space=` tests. */
  function SetNames(o: Options, command: string): (r: Options)
    ensures r == o.(hem := r.hem, mappingtype := r.mappingtype, space := r.space)
    ensures !Contains(command, "hem=") ==> r.hem == o.hem
    ensures !Contains(command, "mappingtype=") ==> r.mappingtype == o.mappingtype
    ensures !Contains(command, "space=") ==> r.space == o.space
  {
    var o1 := if Contains(command, "hem=") then o.(hem := Drop(command, 4)) else o;
    var o2 := if Contains(command, "mappingtype=") then o1.(mappingtype := Drop(command, 12)) else o1;
    if Contains(command, "space=") then o2.(space := Drop(command, 6)) else o2
  }

  /** The `subbrick` test: `int(command[8:])`, which fails on anything but
      a whole number. */
  function SetSubbrick(o: Options, command: string): (r: Result<Options>)
    ensures r.Ok? ==> r.value == o.(subbrick := r.value.subbrick)
    ensures !Contains(command, "subbrick") ==> r == Ok(o)
    ensures Contains(command, "subbrick") ==> (r.Ok? <==> ParseInt(Drop(command, 8)).Some?)
  {
    if !Contains(command, "subbrick") then Ok(o)
    else
      var n := ParseInt(Drop(command, 8));
      if n.None? then Err(BadSubbrick) else Ok(o.(subbrick := n.value))
  }

  /** The `keepnifti=` and file-name tests. */
  function SetRest(o: Options, command: string, thisdir: string, onDisk: string -> bool): (r: Options)
    ensures r == o.(keepnifti := r.keepnifti, filename := r.filename)
    ensures !Contains(command, "keepnifti=") ==> r.keepnifti == o.keepnifti
    ensures Contains(command, "keepnifti=") ==> r.keepnifti == ParseFlag(Drop(command, 10))
    ensures r.filename == if NamesFile(command, Extensions, thisdir, onDisk) then Some(FileArgument(command)) else o.filename
  {
    var o1 := if Contains(command, "keepnifti=") then o.(keepnifti := ParseFlag(Drop(command, 10))) else o;
    if NamesFile(command, Extensions, thisdir, onDisk) then o1.(filename := Some(FileArgument(command))) else o1
  }

  /** One pass of `for command in commands`: every test is applied in turn;
      `mappingtype=more` stops the script after the explanation. */
  function ReadCommand(o: Options, command: string, thisdir: string, onDisk: string -> bool): Result<Options> {
    if Contains(command, "mappingtype=") && Contains(command, "more") then Err(Quiet)
    else
      var r := SetSubbrick(SetNames(o, command), command);
      if r.Err? then r else Ok(SetRest(r.value, command, thisdir, onDisk))
  }

  /** The options after the arguments `commands` (all of `sys.argv`). */
  function ReadAll(commands: seq<string>, thisdir: string, onDisk: string -> bool): Result<Options>
    decreases |commands|
  {
    if |commands| == 0 then Ok(Defaults)
    else
      var before := ReadAll(commands[..|commands| - 1], thisdir, onDisk);
      if before.Err? then before else ReadCommand(before.value, Last(commands), thisdir, onDisk)
  }

  lemma {:induction false} ReadAllErrStays(commands: seq<string>, thisdir: string, onDisk: string -> bool, n: nat)
    requires n <= |commands| && ReadAll(commands[..n], thisdir, onDisk).Err?
    ensures ReadAll(commands, thisdir, onDisk) == ReadAll(commands[..n], thisdir, onDisk)
    decreases |commands| - n
  {
    if n == |commands| {
      assert commands[..n] == commands;
    } else {
      assert commands[..n + 1][..n] == commands[..n];
      ReadAllErrStays(commands, thisdir, onDisk, n + 1);
    }
  }

  /** The argument loop; `o` holds the option variables of `main`. */
  method ReadArguments(commands: seq<string>, thisdir: string, onDisk: string -> bool) returns (r: Result<Options>)
    ensures r == ReadAll(commands, thisdir, onDisk)
  {
    var o := Defaults;
    for i := 0 to |commands|
      invariant ReadAll(commands[..i], thisdir, onDisk) == Ok(o)
    {
      var command := commands[i];
      assert commands[..i + 1][..i] == commands[..i];
      var step := ReadArgument(o, command, thisdir, onDisk);
      if step.Err? {
        ReadAllErrStays(commands, thisdir, onDisk, i + 1);
        return step;
      }
      o := step.value;
    }
    assert commands[..|commands|] == commands;
    r := Ok(o);
  }

  /** The body of the argument loop. */
  method ReadArgument(o: Options, command: string, thisdir: string, onDisk: string -> bool) returns (r: Result<Options>)
    ensures r == ReadCommand(o, command, thisdir, onDisk)
  {
    var next := o;
    if Contains(command, "hem=") {
      next := next.(hem := Drop(command, 4));
    }
    if Contains(command, "mappingtype=") {
      next := next.(mappingtype := Drop(command, 12));
      if Contains(command, "more") {
        return Err(Quiet);
      }
    }
    if Contains(command, "space=") {
      next := next.(space := Drop(command, 6));
    }
    if Contains(command, "subbrick") {
      var subbrick := ParseInt(Drop(command, 8));
      if subbrick.None? {
        return Err(BadSubbrick);
      }
      next := next.(subbrick := subbrick.value);
    }
    if Contains(command, "keepnifti=") {
      next := next.(keepnifti := ParseFlag(Drop(command, 10)));
    }
    if NamesFile(command, Extensions, thisdir, onDisk) {
      next := next.(filename := Some(FileArgument(command)));
    }
    r := Ok(next);
  }

  /** What one argument leaves unchanged. */
  lemma ReadCommandKeeps(o: Options, command: string, thisdir: string, onDisk: string -> bool)
    requires ReadCommand(o, command, thisdir, onDisk).Ok?
    ensures var n := ReadCommand(o, command, thisdir, onDisk).value;
      && (!Contains(command, "hem=") ==> n.hem == o.hem)
      && (!Contains(command, "mappingtype=") ==> n.mappingtype == o.mappingtype)
      && (!Contains(command, "space=") ==> n.space == o.space)
      && (!Contains(command, "subbrick") ==> n.subbrick == o.subbrick)
      && (!Contains(command, "keepnifti=") ==> n.keepnifti == o.keepnifti)
      && n.filename == if NamesFile(command, Extensions, thisdir, onDisk) then Some(FileArgument(command)) else o.filename
  {
  }

  /** An option no argument mentions keeps its default. */
  lemma {:induction false} ReadAllDefaults(commands: seq<string>, thisdir: string, onDisk: string -> bool)
    requires ReadAll(commands, thisdir, onDisk).Ok?
    ensures var o := ReadAll(commands, thisdir, onDisk).value;
      && ((forall k :: 0 <= k < |commands| ==> !Contains(commands[k], "hem=")) ==> o.hem == "both")
      && ((forall k :: 0 <= k < |commands| ==> !Contains(commands[k], "mappingtype=")) ==> o.mappingtype == "ribbon-constrained")
      && ((forall k :: 0 <= k < |commands| ==> !Contains(commands[k], "space=")) ==> o.space == "MNI")
      && ((forall k :: 0 <= k < |commands| ==> !Contains(commands[k], "subbrick")) ==> o.subbrick == 0)
      && ((forall k :: 0 <= k < |commands| ==> !Contains(commands[k], "keepnifti=")) ==> o.keepnifti == Bool(false))
    decreases |commands|
  {
    if |commands| > 0 {
      var front := commands[..|commands| - 1];
      ReadAllDefaults(front, thisdir, onDisk);
      assert forall k :: 0 <= k < |front| ==> front[k] == commands[k];
      ReadCommandKeeps(ReadAll(front, thisdir, onDisk).value, Last(commands), thisdir, onDisk);
    }
  }

  /** The file name the arguments give: that of the last one `names`
      picks. */
  function LastFile(commands: seq<string>, names: string -> bool): Option<string>
    decreases |commands|
  {
    if |commands| == 0 then None
    else if names(Last(commands)) then Some(FileArgument(Last(commands)))
    else LastFile(commands[..|commands| - 1], names)
  }

  /** The test of the argument loop that makes an argument the file name. */
  function NamesInput(thisdir: string, onDisk: string -> bool): string -> bool {
    command => NamesFile(command, Extensions, thisdir, onDisk)
  }

  lemma {:induction false} ReadAllFilename(commands: seq<string>, thisdir: string, onDisk: string -> bool)
    requires ReadAll(commands, thisdir, onDisk).Ok?
    ensures ReadAll(commands, thisdir, onDisk).value.filename == LastFile(commands, NamesInput(thisdir, onDisk))
    decreases |commands|
  {
    if |commands| > 0 {
      var front := commands[..|commands| - 1];
      ReadAllFilename(front, thisdir, onDisk);
      ReadCommandKeeps(ReadAll(front, thisdir, onDisk).value, Last(commands), thisdir, onDisk);
    }
  }

  /** Without an argument that names a file, the file name stays unset. */
  lemma {:induction false} LastFileNone(commands: seq<string>, names: string -> bool)
    requires forall k :: 0 <= k < |commands| ==> !names(commands[k])
    ensures LastFile(commands, names) == None
    decreases |commands|
  {
    if |commands| > 0 {
      var front := commands[..|commands| - 1];
      assert forall k :: 0 <= k < |front| ==> front[k] == commands[k];
      LastFileNone(front, names);
    }
  }

  /** The file name is taken from the last argument `k` that names a file,
      without its `filename=` prefix. */
  lemma {:induction false} LastFileSome(commands: seq<string>, names: string -> bool, k: nat)
    requires k < |commands| && names(commands[k])
    requires forall j :: k < j < |commands| ==> !names(commands[j])
    ensures LastFile(commands, names) == Some(FileArgument(commands[k]))
    decreases |commands|
  {
    if k < |commands| - 1 {
      var front := commands[..|commands| - 1];
      assert front[k] == commands[k];
      forall j | k < j < |front|
        ensures !names(front[j])
      {
        assert front[j] == commands[j];
      }
      LastFileSome(front, names, k);
    }
  }

  /** Every `subbrick=` argument stops the script: the 8-character slice
      keeps the `=`, which `int()` refuses. */
  lemma SubbrickWithEquals(o: Options, command: string, thisdir: string, onDisk: string -> bool)
    requires StartsWith(command, "subbrick=")
    ensures ReadCommand(o, command, thisdir, onDisk).Err?
  {
    ContainsPrefix(command, "subbrick=");
    assert "subbrick="[..8] == "subbrick";
    ContainsHead(command, "subbrick=", 8);
    assert Drop(command, 8)[0] == '=';
    assert !IsDigit(Drop(command, 8)[0]);
    assert ParseInt(Drop(command, 8)).None?;
  }

  /** `subbrick<n>`, without `=`, is the form the slice reads. */
  lemma SubbrickWithoutEquals(o: Options, n: nat)
    ensures SetSubbrick(o, "subbrick" + NatToStr(n)) == Ok(o.(subbrick := n))
  {
    var command := "subbrick" + NatToStr(n);
    ContainsPrefix(command, "subbrick");
    assert Drop(command, 8) == NatToStr(n);
    ParseNatToStr(n);
  }

  // ---------------------------------------------------------------------
  // Validation
  // ---------------------------------------------------------------------

  const BadHem := "Please provide a valid option for the argument 'hem'"
  const BadMappingtype := "Please provide a valid option for the argument 'mappingtype'"
  const BadSpace := "Please provide a valid option for the argument 'space'"
  const BadKeepnifti := "Please provide a valid option for the argument 'keepnifti'"
  const BadFile := "Please provide a valid file name (.nii, .HEAD/.BRIK, or .4dfp.img)"

  /** `thisdir + "/" + filename + ".HEAD"` with no file name given. */
  const NoFilename := "TypeError: cannot concatenate 'str' and 'NoneType' objects"

  /** The checks after the argument loop, in the script's order. The
      subbrick check can never fail, since the value is already an `int`. */
  function Check(o: Options, thisdir: string, onDisk: string -> bool): (r: Result<()>)
    ensures r.Ok? <==>
      && o.hem in {"L", "R", "both"}
      && o.mappingtype in {"enclosing", "trilinear", "ribbon-constrained"}
      && o.space in {"MNI", "711-2B"}
      && IsBool(o.keepnifti)
      && o.filename.Some?
      && ((o.filename.value != "" && onDisk(thisdir + "/" + o.filename.value)) ||
          onDisk(thisdir + "/" + o.filename.value + ".HEAD"))
    ensures o.hem !in {"L", "R", "both"} ==> r == Err(BadHem)
  {
    if o.hem !in {"L", "R", "both"} then Err(BadHem)
    else if o.mappingtype !in {"enclosing", "trilinear", "ribbon-constrained"} then Err(BadMappingtype)
    else if o.space !in {"MNI", "711-2B"} then Err(BadSpace)
    else if !IsBool(o.keepnifti) then Err(BadKeepnifti)
    else if o.filename.None? then Err(NoFilename)
    else if o.filename.value == "" || !onDisk(thisdir + "/" + o.filename.value) then
      if !onDisk(thisdir + "/" + o.filename.value + ".HEAD") then Err(BadFile) else Ok(())
    else Ok(())
  }

  // ---------------------------------------------------------------------
  // The volume to map
  // ---------------------------------------------------------------------

  /** The NIfTI file the mapping reads, and whether it is removed after. */
  datatype Volume = Volume(name: string, deleteNifti: bool)

  /** An AFNI name: `.HEAD` or `.BRIK` in it, or such a file beside it. */
  predicate IsAfni(volume: string, onDisk: string -> bool) {
    Contains(volume, ".HEAD") || Contains(volume, ".BRIK") || onDisk(volume + ".HEAD") || onDisk(volume + ".BRIK")
  }

  /** The AFNI name without `.HEAD`/plain `.BRIK` (5 characters), then
      without `.BRIK.gz` (8 characters). */
  function AfniBase(volume: string): string {
    var v := if Contains(volume, ".HEAD") || (Contains(volume, ".BRIK") && !Contains(volume, ".BRIK.gz"))
             then DropLast(volume, 5) else volume;
    if Contains(v, ".BRIK.gz") then DropLast(v, 8) else v
  }

  /** The volume after the conversion step: a 4dfp image becomes the NIfTI
      of the same stem, a gzip NIfTI is replaced by its contents, and an
      AFNI dataset becomes the NIfTI named by its stem minus the 5-character
      view (`+tlrc`); only a plain NIfTI is kept as it is. */
  function VolumeOf(volume: string, keepnifti: bool, onDisk: string -> bool, unzip: string -> string): (v: Volume)
    ensures !Contains(volume, ".4dfp.img") && !Contains(volume, ".nii.gz") && !IsAfni(volume, onDisk) ==>
              v == Volume(volume, false)
    ensures v.deleteNifti <==>
              Contains(volume, ".4dfp.img") || Contains(volume, ".nii.gz") || (IsAfni(volume, onDisk) && !keepnifti)
  {
    if Contains(volume, ".4dfp.img") then Volume(DropLast(volume, 9) + ".nii", true)
    else if Contains(volume, ".nii.gz") then Volume(unzip(volume), true)
    else if IsAfni(volume, onDisk) then Volume(DropLast(AfniBase(volume), 5) + ".nii", !keepnifti)
    else Volume(volume, false)
  }

  /** A 4dfp image gives the NIfTI of its stem, which is removed after. */
  lemma FourDfpVolume(stem: string, keepnifti: bool, onDisk: string -> bool, unzip: string -> string)
    ensures VolumeOf(stem + ".4dfp.img", keepnifti, onDisk, unzip) == Volume(stem + ".nii", true)
  {
    ContainsSuffix(stem + ".4dfp.img", ".4dfp.img");
    assert (stem + ".4dfp.img")[..|stem|] == stem;
  }

  /** A `.HEAD` dataset `<stem>+view.HEAD` gives `<stem>.nii`, kept only
      under `keepnifti=true`; a plain `.BRIK` dataset is named like its
      header. */
  lemma HeadOrBrikVolume(base: string, ext: string, keepnifti: bool, onDisk: string -> bool, unzip: string -> string)
    requires ext == ".HEAD" || ext == ".BRIK"
    requires var v := base + ext; !Contains(v, ".4dfp.img") && !Contains(v, ".nii.gz") && !Contains(v, ".BRIK.gz")
    ensures VolumeOf(base + ext, keepnifti, onDisk, unzip) == Volume(DropLast(base, 5) + ".nii", !keepnifti)
  {
    ContainsSuffix(base + ext, ext);
    assert (base + ext)[..|base|] == base;
    NotContainsLeft(base, ext, ".BRIK.gz");
  }

  /** A compressed `.BRIK.gz` dataset loses all 8 characters first. */
  lemma BrikGzVolume(base: string, keepnifti: bool, onDisk: string -> bool, unzip: string -> string)
    requires var v := base + ".BRIK.gz"; !Contains(v, ".4dfp.img") && !Contains(v, ".nii.gz") && !Contains(v, ".HEAD")
    ensures VolumeOf(base + ".BRIK.gz", keepnifti, onDisk, unzip) == Volume(DropLast(base, 5) + ".nii", !keepnifti)
  {
    var v := base + ".BRIK.gz";
    ContainsSuffix(v, ".BRIK.gz");
    assert ".BRIK.gz"[..5] == ".BRIK";
    ContainsHead(v, ".BRIK.gz", 5);
    assert v[..|base|] == base;
  }

  /** A name given without extension whose `.HEAD` exists is converted
      like the header itself. */
  lemma BareAfniVolume(base: string, keepnifti: bool, onDisk: string -> bool, unzip: string -> string)
    requires !Contains(base, ".4dfp.img") && !Contains(base, ".nii.gz")
    requires !Contains(base, ".HEAD") && !Contains(base, ".BRIK") && onDisk(base + ".HEAD")
    ensures VolumeOf(base, keepnifti, onDisk, unzip) == Volume(DropLast(base, 5) + ".nii", !keepnifti)
  {
    assert |".BRIK.gz"| == 8 && ".BRIK.gz"[..5] == ".BRIK";
    forall i | 0 <= i <= |base| - 8
      ensures !OccursAt(base, ".BRIK.gz", i)
    {
      assert base[i..i + 8][..5] == base[i..i + 5];
      assert !OccursAt(base, ".BRIK", i);
    }
  }

  // ---------------------------------------------------------------------
  // The mappings
  // ---------------------------------------------------------------------

  /** One `wb_command -volume-to-surface-mapping` call. */
  datatype Mapping = Mapping(volume: string, surface: string, output: string, mapping: string)

  /** `path + '/surface_files/Conte69.<h>.<kind>.32k_fs_LR.surf.gii'` */
  function Surface(path: string, hemisphere: string, kind: string): string {
    path + "/surface_files/Conte69." + hemisphere + "." + kind + ".32k_fs_LR.surf.gii"
  }

  /** The method argument: ribbon-constrained carries the hemisphere's
      white and pial surfaces, the other methods go as given. */
  function Method(path: string, hemisphere: string, mappingtype: string): (m: string)
    ensures mappingtype == "ribbon-constrained" ==>
      StartsWith(m, "ribbon-constrained ") &&
      Contains(m, Surface(path, hemisphere, "white")) && Contains(m, Surface(path, hemisphere, "pial"))
    ensures mappingtype != "ribbon-constrained" ==> m == mappingtype
  {
    if mappingtype == "ribbon-constrained" then
      var white, pial := Surface(path, hemisphere, "white"), Surface(path, hemisphere, "pial");
      var m := "ribbon-constrained " + white + " " + pial + " -voxel-subdiv 5";
      assert m == "ribbon-constrained " + white + (" " + pial + " -voxel-subdiv 5");
      ContainsSuffix("ribbon-constrained " + white, white);
      ContainsLeft("ribbon-constrained " + white, " " + pial + " -voxel-subdiv 5", white);
      assert m == ("ribbon-constrained " + white + " ") + (pial + " -voxel-subdiv 5");
      ContainsPrefix(pial + " -voxel-subdiv 5", pial);
      ContainsRight("ribbon-constrained " + white + " ", pial + " -voxel-subdiv 5", pial);
      assert m[..19] == "ribbon-constrained ";
      m
    else mappingtype
  }

  /** The call for one hemisphere: `<volume[:-4]>_<h>.func.gii` from that
      hemisphere's midthickness surface. */
  function ForHemisphere(path: string, volume: string, hemisphere: string, mappingtype: string): (m: Mapping)
    ensures m.volume == volume && m.surface == Surface(path, hemisphere, "midthickness")
    ensures m.output == DropLast(volume, 4) + "_" + hemisphere + ".func.gii"
    ensures m.mapping == Method(path, hemisphere, mappingtype)
  {
    Mapping(volume, Surface(path, hemisphere, "midthickness"), DropLast(volume, 4) + "_" + hemisphere + ".func.gii",
            Method(path, hemisphere, mappingtype))
  }

  /** The calls `hem` asks for, left before right. */
  function Mappings(path: string, volume: string, hem: string, mappingtype: string): (r: seq<Mapping>)
    ensures |r| == (if hem == "both" then 2 else if hem == "L" || hem == "R" then 1 else 0)
    ensures ForHemisphere(path, volume, "L", mappingtype) in r <==> hem in {"both", "L"}
    ensures ForHemisphere(path, volume, "R", mappingtype) in r <==> hem in {"both", "R"}
  {
    var left, right := ForHemisphere(path, volume, "L", mappingtype), ForHemisphere(path, volume, "R", mappingtype);
    HemisphereOutputs(path, volume, mappingtype);
    assert left != right;
    (if hem == "both" || hem == "L" then [left] else []) + (if hem == "both" || hem == "R" then [right] else [])
  }

  /** The two hemispheres never write the same file. */
  lemma HemisphereOutputs(path: string, volume: string, mappingtype: string)
    ensures ForHemisphere(path, volume, "L", mappingtype).output != ForHemisphere(path, volume, "R", mappingtype).output
  {
    var stem := DropLast(volume, 4);
    var l, r := stem + "_L.func.gii", stem + "_R.func.gii";
    assert l[|stem| + 1] == 'L' && r[|stem| + 1] == 'R';
    assert ForHemisphere(path, volume, "L", mappingtype).output == l;
    assert ForHemisphere(path, volume, "R", mappingtype).output == r;
  }

  // ---------------------------------------------------------------------
  // The whole script
  // ---------------------------------------------------------------------

  /** What the script does once it gets past its exits: the mappings it
      runs and the NIfTI it removes afterwards, if any. */
  datatype Plan = Plan(mappings: seq<Mapping>, removed: Option<string>)

  /** The script: the special-character check on its own directory `path`,
      the usage exit without arguments, the argument loop, the checks, the
      conversion to NIfTI and the mappings. */
  function Convert(path: string, argv: seq<string>, thisdir: string, onDisk: string -> bool, unzip: string -> string)
    : (r: Result<Plan>)
    ensures r.Ok? ==> PathCheck.PathVerdict(path).Ok? && |argv| >= 2
    ensures r.Ok? ==> ReadAll(argv, thisdir, onDisk).Ok?
    ensures r.Ok? ==> var o := ReadAll(argv, thisdir, onDisk).value;
      && Check(o, thisdir, onDisk).Ok?
      && var v := VolumeOf(thisdir + "/" + o.filename.value, o.keepnifti.b, onDisk, unzip);
      && r.value.mappings == Mappings(path, v.name, o.hem, o.mappingtype)
      && r.value.removed == (if v.deleteNifti then Some(v.name) else None)
  {
    var verdict := PathCheck.PathVerdict(path);
    if verdict.Err? then Err(verdict.error)
    else if |argv| < 2 then Err(Quiet)
    else
      var read := ReadAll(argv, thisdir, onDisk);
      if read.Err? then Err(read.error)
      else
        var o := read.value;
        var checked := Check(o, thisdir, onDisk);
        if checked.Err? then Err(checked.error)
        else
          var v := VolumeOf(thisdir + "/" + o.filename.value, o.keepnifti.b, onDisk, unzip);
          Ok(Plan(Mappings(path, v.name, o.hem, o.mappingtype), if v.deleteNifti then Some(v.name) else None))
  }
}
