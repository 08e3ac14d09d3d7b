/** What the two cluster/surface scripts share when they read `sys.argv`:
    every argument is tested against every option, `true`/`false` options
    keep any other text as given, and an argument names the input file when
    it holds a known extension or an AFNI header of that name exists. */
module CommandLine {
  import opened Wrappers
  import opened PyStr

  /** An option read as `true`/`false`: Python keeps the text itself when it
      is neither. */
  datatype Flag = Bool(b: bool) | Text(s: string)

  /** `x = True if s == 'true' else False if s == 'false' else s` */
  function ParseFlag(s: string): (f: Flag)
    ensures f.Bool? <==> s == "true" || s == "false"
    ensures f.Bool? ==> (f.b <==> s == "true")
    ensures f.Text? ==> f.s == s
  {
    if s == "true" then Bool(true) else if s == "false" then Bool(false) else Text(s)
  }

  /** `any(x == flag for x in [True, False])` */
  predicate IsBool(f: Flag) {
    f.Bool?
  }

  /** Python truth of the option's value: a boolean, or a non-empty text. */
  predicate FlagOn(f: Flag) {
    match f
    case Bool(b) => b
    case Text(s) => s != ""
  }

  /** Python truth of an optional text: set and non-empty. */
  predicate Given(s: Option<string>) {
    s.Some? && s.value != ""
  }

  /** The test that makes an argument the file name: it contains one of the
      script's extensions, or `<dir>/<argument>.HEAD` or
      `<dir>/<argument[9:]>.HEAD` exists. */
  predicate NamesFile(command: string, extensions: seq<string>, thisdir: string, onDisk: string -> bool) {
    (exists k :: 0 <= k < |extensions| && Contains(command, extensions[k])) ||
    onDisk(thisdir + "/" + command + ".HEAD") || onDisk(thisdir + "/" + Drop(command, 9) + ".HEAD")
  }

  /** The file name an argument gives: without its `filename=` prefix. */
  function FileArgument(command: string): (r: string)
    ensures StartsWith(command, "filename=") ==> command == "filename=" + r
    ensures !StartsWith(command, "filename=") ==> r == command
  {
    if StartsWith(command, "filename=") then Drop(command, 9) else command
  }
}
