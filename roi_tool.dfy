/** The string and bookkeeping rules of the ROI averaging tool: its presets
    file, the display and AFNI forms of a coordinate line, the shortening
    of condition names by their longest common substring, the filter that
    keeps a condition from matching a longer one, and the accumulation of
    the per-subject averages into one table. */
module RoiTool {
  import opened Wrappers
  import opened PyStr
  import Sorting
  import Glob

  const NoIndex := "IndexError: list index out of range"

  function KeyError(key: string): string {
    "KeyError: '" + key + "'"
  }

  // ---------------------------------------------------------------------
  // Presets
  // ---------------------------------------------------------------------

  /** The four remembered choices. */
  datatype Presets = Presets(subjectResultsPath: string, masksPath: string, coordSystem: string,
                             sphereRadius: string)

  /** The loop that fills `presets` from the lines of the presets file:
      each line is split at `:` and its second piece stored under its
      first; a line without `:` has no second piece. */
  function PresetMap(lines: seq<string>): Result<map<string, string>>
    decreases |lines|
  {
    if |lines| == 0 then Ok(map[])
    else
      var m := PresetMap(lines[..|lines| - 1]);
      var splits := Split(Last(lines), ':');
      if m.Err? then m
      else if |splits| < 2 then Err(NoIndex)
      else Ok(m.value[splits[0] := splits[1]])
  }

  /** `control_file.read().splitlines()` and the loop over its lines. */
  method ReadPresets(text: string) returns (presets: Result<map<string, string>>)
    ensures presets == PresetMap(SplitLines(text))
  {
    var presetsInit := SplitLines(text);
    var m: map<string, string> := map[];
    for i := 0 to |presetsInit|
      invariant PresetMap(presetsInit[..i]) == Ok(m)
    {
      assert presetsInit[..i + 1][..i] == presetsInit[..i];
      var splits := Split(presetsInit[i], ':');
      if |splits| < 2 {
        assert PresetMap(presetsInit[..i + 1]).Err?;
        PresetMapErrStays(presetsInit, i + 1);
        return Err(NoIndex);
      }
      m := m[splits[0] := splits[1]];
    }
    assert presetsInit[..|presetsInit|] == presetsInit;
    presets := Ok(m);
  }

  /** Once a line has failed, the lines after it cannot repair it. */
  lemma {:induction false} PresetMapErrStays(lines: seq<string>, n: nat)
    requires n <= |lines| && PresetMap(lines[..n]).Err?
    ensures PresetMap(lines) == Err(NoIndex)
    decreases |lines| - n
  {
    if n == |lines| {
      assert lines[..n] == lines;
      PresetMapError(lines);
    } else {
      assert lines[..n + 1][..n] == lines[..n];
      PresetMapErrStays(lines, n + 1);
    }
  }

  /** The only failure of the loop is a line without `:`. */
  lemma {:induction false} PresetMapError(lines: seq<string>)
    ensures PresetMap(lines).Err? ==> PresetMap(lines) == Err(NoIndex)
    decreases |lines|
  {
    if |lines| > 0 {
      PresetMapError(lines[..|lines| - 1]);
    }
  }

  /** The four presets read back by key; a missing key stops the tool. */
  function PresetInputs(presets: map<string, string>): (r: Result<Presets>)
    ensures r.Ok? <==> "subject_results_path" in presets && "masks_path" in presets &&
                       "coord_system" in presets && "sphere_radius" in presets
  {
    if "subject_results_path" !in presets then Err(KeyError("subject_results_path"))
    else if "masks_path" !in presets then Err(KeyError("masks_path"))
    else if "coord_system" !in presets then Err(KeyError("coord_system"))
    else if "sphere_radius" !in presets then Err(KeyError("sphere_radius"))
    else Ok(Presets(presets["subject_results_path"], presets["masks_path"], presets["coord_system"],
                    presets["sphere_radius"]))
  }

  /** `key:value` lines, as the tool writes them. */
  function KeyLines(keys: seq<string>, values: seq<string>): (r: seq<string>)
    requires |keys| == |values|
    ensures |r| == |keys|
    ensures forall k :: 0 <= k < |r| ==> r[k] == keys[k] + ":" + values[k]
  {
    seq(|keys|, k requires 0 <= k < |keys| => keys[k] + ":" + values[k])
  }

  /** What reading stores under each key: its value up to the first `:`. */
  function Stored(keys: seq<string>, values: seq<string>): map<string, string>
    requires |keys| == |values|
    decreases |keys|
  {
    if |keys| == 0 then map[]
    else Stored(keys[..|keys| - 1], values[..|values| - 1])[Last(keys) := Split(Last(values), ':')[0]]
  }

  /** Reading `key:value` lines stores each value, cut at its first `:`,
      under its key; a later line for the same key wins. */
  lemma {:induction false} ReadKeyLines(keys: seq<string>, values: seq<string>)
    requires |keys| == |values|
    requires forall k :: 0 <= k < |keys| ==> ':' !in keys[k]
    ensures PresetMap(KeyLines(keys, values)) == Ok(Stored(keys, values))
    decreases |keys|
  {
    if |keys| > 0 {
      var n := |keys| - 1;
      assert KeyLines(keys, values)[..n] == KeyLines(keys[..n], values[..n]);
      ReadKeyLines(keys[..n], values[..n]);
      SplitAtSep(keys[n], values[n], ':');
      assert Last(KeyLines(keys, values)) == keys[n] + [':'] + values[n];
    }
  }

  const PresetKeys := ["subject_results_path", "masks_path", "coord_system", "sphere_radius"]

  function PresetValues(p: Presets): seq<string> {
    [p.subjectResultsPath, p.masksPath, p.coordSystem, p.sphereRadius]
  }

  /** `new_control_list` joined by newlines: what the tool writes back. */
  function PresetsText(p: Presets): string {
    Join(KeyLines(PresetKeys, PresetValues(p)), "\n")
  }

  /** A value that survives the file: no `:` and no line break. */
  predicate PlainValue(v: string) {
    ':' !in v && NoLineBreaks(v)
  }

  predicate NoLineBreaks(s: string) {
    forall c :: c in s ==> !IsLineBreak(c)
  }

  /** Written lines are never empty and hold no line break of their own. */
  lemma KeyLinesPlain(keys: seq<string>, values: seq<string>)
    requires |keys| == |values|
    requires forall k :: 0 <= k < |keys| ==> NoLineBreaks(keys[k]) && NoLineBreaks(values[k])
    ensures forall k :: 0 <= k < |keys| ==> |KeyLines(keys, values)[k]| > 0
    ensures forall k :: 0 <= k < |keys| ==> NoLineBreaks(KeyLines(keys, values)[k])
  {
  }

  /** The presets file as written, read back line by line. */
  lemma ReadWrittenPresets(p: Presets)
    requires forall k :: 0 <= k < 4 ==> NoLineBreaks(PresetValues(p)[k])
    ensures PresetMap(SplitLines(PresetsText(p))) == Ok(Stored(PresetKeys, PresetValues(p)))
  {
    assert forall k :: 0 <= k < 4 ==> NoLineBreaks(PresetKeys[k]) && ':' !in PresetKeys[k];
    KeyLinesPlain(PresetKeys, PresetValues(p));
    SplitLinesJoin(KeyLines(PresetKeys, PresetValues(p)));
    ReadKeyLines(PresetKeys, PresetValues(p));
  }

  /** The four keys read back from four stored values. */
  lemma InputsOfStored(v: seq<string>)
    requires |v| == 4
    ensures PresetInputs(Stored(PresetKeys, v)) ==
            Ok(Presets(Split(v[0], ':')[0], Split(v[1], ':')[0], Split(v[2], ':')[0], Split(v[3], ':')[0]))
  {
    var m := Stored(PresetKeys, v);
    StoredPreset(v, 0);
    StoredPreset(v, 1);
    StoredPreset(v, 2);
    StoredPreset(v, 3);
    InputsOfMap(m, Split(v[0], ':')[0], Split(v[1], ':')[0], Split(v[2], ':')[0], Split(v[3], ':')[0]);
  }

  /** Each of the four keys is read back with its own value. */
  lemma StoredPreset(v: seq<string>, i: nat)
    requires |v| == 4 && i < 4
    ensures PresetKeys[i] in Stored(PresetKeys, v) && Stored(PresetKeys, v)[PresetKeys[i]] == Split(v[i], ':')[0]
  {
    PresetKeysDistinct();
    StoredLookup(PresetKeys, v, i);
  }

  lemma InputsOfMap(m: map<string, string>, a: string, b: string, c: string, d: string)
    requires PresetKeys[0] in m && m[PresetKeys[0]] == a && PresetKeys[1] in m && m[PresetKeys[1]] == b
    requires PresetKeys[2] in m && m[PresetKeys[2]] == c && PresetKeys[3] in m && m[PresetKeys[3]] == d
    ensures PresetInputs(m) == Ok(Presets(a, b, c, d))
  {
  }

  lemma PresetKeysDistinct()
    ensures forall i, j :: 0 <= i < 4 && 0 <= j < 4 && i != j ==> PresetKeys[i] != PresetKeys[j]
  {
    var k := PresetKeys;
    assert |k[0]| == 20 && |k[1]| == 10 && |k[2]| == 12 && |k[3]| == 13;
  }

  /** The value read for a key is that of its last line. */
  lemma {:induction false} StoredLookup(keys: seq<string>, values: seq<string>, i: nat)
    requires |keys| == |values| && i < |keys|
    requires forall j :: i < j < |keys| ==> keys[j] != keys[i]
    ensures keys[i] in Stored(keys, values) && Stored(keys, values)[keys[i]] == Split(values[i], ':')[0]
    decreases |keys|
  {
    if i < |keys| - 1 {
      StoredLookup(keys[..|keys| - 1], values[..|values| - 1], i);
    }
  }

  /** Writing the presets and reading them back gives the same presets. */
  lemma PresetsRoundTrip(p: Presets)
    requires PlainValue(p.subjectResultsPath) && PlainValue(p.masksPath)
    requires PlainValue(p.coordSystem) && PlainValue(p.sphereRadius)
    ensures PresetMap(SplitLines(PresetsText(p))).Ok?
    ensures PresetInputs(PresetMap(SplitLines(PresetsText(p))).value) == Ok(p)
  {
    ReadWrittenPresets(p);
    InputsOfStored(PresetValues(p));
    SplitNoSep(p.subjectResultsPath, ':');
    SplitNoSep(p.masksPath, ':');
    SplitNoSep(p.coordSystem, ':');
    SplitNoSep(p.sphereRadius, ':');
  }

  /** A path with a `:` in it comes back cut at the `:`. */
  lemma PresetsColonCut(p: Presets, a: string, b: string)
    requires p.subjectResultsPath == a + ":" + b
    requires PlainValue(a) && NoLineBreaks(b)
    requires PlainValue(p.masksPath) && PlainValue(p.coordSystem) && PlainValue(p.sphereRadius)
    ensures PresetMap(SplitLines(PresetsText(p))).Ok?
    ensures PresetInputs(PresetMap(SplitLines(PresetsText(p))).value) == Ok(p.(subjectResultsPath := a))
  {
    ReadWrittenPresets(p);
    InputsOfStored(PresetValues(p));
    SplitAtSep(a, b, ':');
    SplitNoSep(p.masksPath, ':');
    SplitNoSep(p.coordSystem, ':');
    SplitNoSep(p.sphereRadius, ':');
  }

  // ---------------------------------------------------------------------
  // Coordinates
  // ---------------------------------------------------------------------

  /** The line of a coordinate file as shown in the window: `a,b,c` and
      `a b c` become `a, b, c`, wrapped in parentheses unless one is
      already there. */
  function DisplayCoordinates(values: string): string {
    var v := if Contains(values, ",") then (if !Contains(values, " ") then Replace(values, ",", ", ") else values)
             else Replace(values, " ", ", ");
    if !Contains(v, "(") then "(" + v + ")" else v
  }

  /** The rewrite into the form AFNI reads: `a,b,c` and `a, b, c` become
      `a b c`; the file is written again only when it holds a comma. */
  function AfniCoordinates(fileData: string): (r: Option<string>)
    ensures r.Some? <==> ',' in fileData
  {
    ContainsChar(fileData, ',');
    if Contains(fileData, ",") then
      if !Contains(fileData, " ") then Some(Replace(fileData, ",", " ")) else Some(Replace(fileData, ", ", " "))
    else None
  }

  /** The numbers of a coordinate line: no comma, space or parenthesis. */
  predicate PlainNumbers(parts: seq<string>) {
    forall k :: 0 <= k < |parts| ==> ',' !in parts[k] && ' ' !in parts[k] && '(' !in parts[k]
  }

  /** What character tests see in a joined line. */
  lemma JoinedChars(parts: seq<string>, sep: string)
    requires PlainNumbers(parts)
    ensures ' ' in Join(parts, sep) <==> |parts| >= 2 && ' ' in sep
    ensures ',' in Join(parts, sep) <==> |parts| >= 2 && ',' in sep
    ensures '(' in Join(parts, sep) <==> |parts| >= 2 && '(' in sep
  {
    JoinHasChar(parts, sep, ' ');
    JoinHasChar(parts, sep, ',');
    JoinHasChar(parts, sep, '(');
  }

  /** `a,b,c` is shown as `(a, b, c)`. */
  lemma DisplayOfCommas(parts: seq<string>)
    requires |parts| >= 1 && PlainNumbers(parts)
    ensures DisplayCoordinates(Join(parts, ",")) == "(" + Join(parts, ", ") + ")"
  {
    var line := Join(parts, ",");
    JoinedChars(parts, ",");
    JoinedChars(parts, ", ");
    ContainsChar(line, ',');
    ContainsChar(line, ' ');
    ContainsChar(Join(parts, ", "), '(');
    ReplaceJoin(parts, ",", ", ");
    if |parts| == 1 {
      assert line == parts[0] == Join(parts, ", ");
      ReplaceAbsent(line, " ", ", ");
    }
  }

  /** `a b c` is shown as `(a, b, c)`. */
  lemma DisplayOfSpaces(parts: seq<string>)
    requires |parts| >= 1 && PlainNumbers(parts)
    ensures DisplayCoordinates(Join(parts, " ")) == "(" + Join(parts, ", ") + ")"
  {
    var line := Join(parts, " ");
    JoinedChars(parts, " ");
    JoinedChars(parts, ", ");
    ContainsChar(line, ',');
    ContainsChar(Join(parts, ", "), '(');
    ReplaceJoin(parts, " ", ", ");
  }

  /** For AFNI, `a,b,c` and `a, b, c` both become `a b c`. */
  lemma AfniOfCommas(parts: seq<string>, sep: string)
    requires sep == "," || sep == ", "
    requires |parts| >= 2 && PlainNumbers(parts)
    ensures AfniCoordinates(Join(parts, sep)) == Some(Join(parts, " "))
  {
    var line := Join(parts, sep);
    JoinedChars(parts, sep);
    ContainsChar(line, ',');
    ContainsChar(line, ' ');
    ReplaceJoin(parts, sep, " ");
  }

  // ---------------------------------------------------------------------
  // Shortening the condition names
  // ---------------------------------------------------------------------

  /** `find` occurs in every string of `data`. */
  predicate InAll(find: string, data: seq<string>) {
    forall k :: 0 <= k < |data| ==> Contains(data[k], find)
  }

  /** `is_substr(find, data)`: false only for an empty pattern over an
      empty list, otherwise whether the pattern occurs in every string. */
  method IsSubstr(find: string, data: seq<string>) returns (b: bool)
    ensures b == (if |data| < 1 && |find| < 1 then false else InAll(find, data))
  {
    if |data| < 1 && |find| < 1 {
      return false;
    }
    for i := 0 to |data|
      invariant InAll(find, data[..i])
    {
      if !Contains(data[i], find) {
        return false;
      }
      assert data[..i + 1] == data[..i] + [data[i]];
    }
    assert data[..|data|] == data;
    return true;
  }

  /** The slice `data[0][i:i+j]` is a candidate of `long_substr`: longer
      than two characters and present in every string. */
  ghost predicate Candidate(data: seq<string>, i: int, j: int) {
    |data| > 0 && 0 <= i && 0 <= j && i + j <= |data[0]| && j > 2 && InAll(data[0][i..i + j], data)
  }

  /** What `long_substr` returns: nothing for fewer than two strings or an
      empty first string; otherwise a candidate at least as long as every
      other, at the first start where one that long exists, or nothing when
      no candidate exists at all. */
  ghost predicate IsLongSubstr(data: seq<string>, substr: string) {
    (|data| <= 1 || |data[0]| == 0 ==> substr == "") &&
    (|data| > 1 && substr != "" ==> |substr| > 2 && InAll(substr, data) && Contains(data[0], substr)) &&
    (|data| > 1 ==> forall i, j :: Candidate(data, i, j) ==> j <= |substr|) &&
    (|data| > 1 && substr != "" ==>
       exists p :: Candidate(data, p, |substr|) && substr == data[0][p..p + |substr|] &&
                   forall q :: 0 <= q < p ==> !Candidate(data, q, |substr|))
  }

  /** `long_substr(data)`: the scan over every start and length of a slice
      of the first string, keeping a slice when it is a candidate longer
      than the one kept so far. The result is the first longest candidate,
      or empty when there is none. */
  method LongSubstr(data: seq<string>) returns (substr: string)
    ensures IsLongSubstr(data, substr)
  {
    substr := "";
    if |data| > 1 && |data[0]| > 0 {
      var first := data[0];
      ghost var pos := 0;
      for i := 0 to |first|
        invariant forall i1, j1 :: Candidate(data, i1, j1) && i1 < i ==> j1 <= |substr|
        invariant substr != "" ==>
          0 <= pos && Candidate(data, pos, |substr|) && substr == first[pos..pos + |substr|] &&
          forall q :: 0 <= q < pos ==> !Candidate(data, q, |substr|)
      {
        for j := 0 to |first| - i + 1
          invariant forall i1, j1 :: Candidate(data, i1, j1) && (i1 < i || (i1 == i && j1 < j)) ==> j1 <= |substr|
          invariant substr != "" ==>
            0 <= pos && Candidate(data, pos, |substr|) && substr == first[pos..pos + |substr|] &&
            forall q :: 0 <= q < pos ==> !Candidate(data, q, |substr|)
        {
          if j > |substr| {
            var common := IsSubstr(first[i..i + j], data);
            if common && |first[i..i + j]| > 2 {
              assert Candidate(data, i, j);
              forall q | 0 <= q < i
                ensures !Candidate(data, q, j)
              {
              }
              substr := first[i..i + j];
              pos := i;
            }
          }
        }
      }
      if substr != "" {
        assert OccursAt(first, substr, pos);
      }
    }
  }

  /** The description of `long_substr` fixes its result. */
  lemma LongSubstrUnique(data: seq<string>, s: string, t: string)
    requires IsLongSubstr(data, s) && IsLongSubstr(data, t)
    ensures s == t
  {
    if |data| > 1 && |data[0]| > 0 {
      if s != "" {
        var p :| Candidate(data, p, |s|) && s == data[0][p..p + |s|] &&
                 forall q :: 0 <= q < p ==> !Candidate(data, q, |s|);
        assert |s| <= |t|;
        var p' :| Candidate(data, p', |t|) && t == data[0][p'..p' + |t|] &&
                  forall q :: 0 <= q < p' ==> !Candidate(data, q, |t|);
        assert |t| <= |s|;
        assert p < p' ==> !Candidate(data, p, |t|);
        assert p' < p ==> !Candidate(data, p', |s|);
      } else {
        assert t != "" ==> exists p' :: Candidate(data, p', |t|);
      }
    }
  }

  /** `[x.replace(long_substring, '') for x in conditions]` */
  function StripAll(conditions: seq<string>, substr: string): (r: seq<string>)
    ensures |r| == |conditions|
    ensures forall k :: 0 <= k < |r| ==> r[k] == Replace(conditions[k], substr, "")
  {
    seq(|conditions|, k requires 0 <= k < |conditions| => Replace(conditions[k], substr, ""))
  }

  /** The five rounds of the cleanup loop over one GLM's condition list:
      each round removes the longest common substring from every name and
      sorts the list. The rounds are given by `stages` and `removed`. */
  method CleanConditions(conditions: seq<string>)
      returns (cleaned: seq<string>, ghost stages: seq<seq<string>>, ghost removed: seq<string>)
    ensures |stages| == 6 && |removed| == 5 && stages[0] == conditions && stages[5] == cleaned
    ensures forall k :: 0 <= k < 5 ==>
      IsLongSubstr(stages[k], removed[k]) && stages[k + 1] == Sorting.SortStrings(StripAll(stages[k], removed[k]))
    ensures |cleaned| == |conditions| && Sorting.SortedBy(Sorting.StrLe, cleaned)
  {
    cleaned := conditions;
    stages := [conditions];
    removed := [];
    for i := 0 to 5
      invariant Rounds(stages, removed, i) && stages[0] == conditions && stages[i] == cleaned
      invariant |cleaned| == |conditions|
      invariant i > 0 ==> Sorting.SortedBy(Sorting.StrLe, cleaned)
    {
      var longSubstring := LongSubstr(cleaned);
      var next := Sorting.SortStrings(StripAll(cleaned, longSubstring));
      assert |multiset(next)| == |conditions|;
      RoundsStep(stages, removed, i, longSubstring, next);
      cleaned := next;
      stages := stages + [cleaned];
      removed := removed + [longSubstring];
    }
  }

  /** The first `n` rounds of the cleanup loop, as stages and removed
      substrings. */
  ghost predicate Rounds(stages: seq<seq<string>>, removed: seq<string>, n: nat) {
    && |stages| == n + 1 && |removed| == n
    && forall k :: 0 <= k < n ==>
         IsLongSubstr(stages[k], removed[k]) && stages[k + 1] == Sorting.SortStrings(StripAll(stages[k], removed[k]))
  }

  lemma RoundsStep(stages: seq<seq<string>>, removed: seq<string>, n: nat, substr: string, next: seq<string>)
    requires Rounds(stages, removed, n)
    requires IsLongSubstr(stages[n], substr) && next == Sorting.SortStrings(StripAll(stages[n], substr))
    ensures Rounds(stages + [next], removed + [substr], n + 1)
    ensures (stages + [next])[0] == stages[0] && (stages + [next])[n + 1] == next
  {
    var after, cut := stages + [next], removed + [substr];
    forall k | 0 <= k < n + 1
      ensures IsLongSubstr(after[k], cut[k]) && after[k + 1] == Sorting.SortStrings(StripAll(after[k], cut[k]))
    {
      if k < n {
        assert after[k] == stages[k] && after[k + 1] == stages[k + 1] && cut[k] == removed[k];
      }
    }
  }

  // ---------------------------------------------------------------------
  // Choosing the analysed files
  // ---------------------------------------------------------------------

  /** The test of the `use_list` loop: the selected condition occurs in the
      option, and every other shortened response that occurs in the option
      also occurs in the condition (so `hit` does not pick `hit-cr_GLT`
      when `cr` is also a response). The buttons of the selection window
      apply the same test. */
  predicate Keeps(option: string, condition: string, shortenedResponses: seq<string>) {
    Contains(option, condition) &&
    forall k :: 0 <= k < |shortenedResponses| && shortenedResponses[k] != condition ==>
      !Contains(option, shortenedResponses[k]) || Contains(condition, shortenedResponses[k])
  }

  /** `use_list`: each option once for every selected condition that keeps
      it, in the order of the options and then of the conditions. */
  function UseList(options: seq<string>, selected: seq<string>, shortenedResponses: seq<string>): seq<string>
    decreases |options|
  {
    if |options| == 0 then []
    else UseList(options[..|options| - 1], selected, shortenedResponses) +
         Picks(Last(options), selected, shortenedResponses)
  }

  /** The copies of one option that the inner loop appends. */
  function Picks(option: string, selected: seq<string>, shortenedResponses: seq<string>): seq<string>
    decreases |selected|
  {
    if |selected| == 0 then []
    else Picks(option, selected[..|selected| - 1], shortenedResponses) +
         (if Keeps(option, Last(selected), shortenedResponses) then [option] else [])
  }

  /** The `unique` flag: the loop over `quick_list`, the shortened
      responses other than the condition. */
  method IsUnique(option: string, condition: string, shortenedResponses: seq<string>) returns (unique: bool)
    requires Contains(option, condition)
    ensures unique == Keeps(option, condition, shortenedResponses)
  {
    unique := true;
    for k := 0 to |shortenedResponses|
      invariant unique == forall m :: 0 <= m < k && shortenedResponses[m] != condition ==>
        !Contains(option, shortenedResponses[m]) || Contains(condition, shortenedResponses[m])
    {
      var otherOption := shortenedResponses[k];
      if otherOption != condition {
        if !Contains(option, otherOption) || Contains(condition, otherOption) {
          continue;
        } else {
          unique := false;
        }
      }
    }
  }

  /** The nested loops that build `use_list` for one GLM folder. */
  method FilterOptions(iterate: seq<string>, selected: seq<string>, shortenedResponses: seq<string>)
      returns (useList: seq<string>)
    ensures useList == UseList(iterate, selected, shortenedResponses)
  {
    useList := [];
    for i := 0 to |iterate|
      invariant useList == UseList(iterate[..i], selected, shortenedResponses)
    {
      var option := iterate[i];
      assert iterate[..i + 1][..i] == iterate[..i];
      ghost var before := useList;
      for j := 0 to |selected|
        invariant useList == before + Picks(option, selected[..j], shortenedResponses)
      {
        var condition := selected[j];
        assert selected[..j + 1][..j] == selected[..j];
        if Contains(option, condition) {
          var unique := IsUnique(option, condition, shortenedResponses);
          if unique {
            useList := useList + [option];
          }
        }
      }
      assert selected[..|selected|] == selected;
    }
    assert iterate[..|iterate|] == iterate;
  }

  /** An option is in `use_list` exactly when it is one of the options and
      some selected condition keeps it. */
  lemma {:induction false} UseListMembers(options: seq<string>, selected: seq<string>,
                                          shortenedResponses: seq<string>, x: string)
    ensures x in UseList(options, selected, shortenedResponses) <==>
            x in options && exists c :: c in selected && Keeps(x, c, shortenedResponses)
    decreases |options|
  {
    if |options| > 0 {
      var front := options[..|options| - 1];
      UseListMembers(front, selected, shortenedResponses, x);
      PicksMembers(Last(options), selected, shortenedResponses, x);
      assert options == front + [Last(options)];
    }
  }

  lemma {:induction false} PicksMembers(option: string, selected: seq<string>,
                                        shortenedResponses: seq<string>, x: string)
    ensures x in Picks(option, selected, shortenedResponses) <==>
            x == option && exists c :: c in selected && Keeps(x, c, shortenedResponses)
    decreases |selected|
  {
    if |selected| > 0 {
      var front := selected[..|selected| - 1];
      PicksMembers(option, front, shortenedResponses, x);
      assert selected == front + [Last(selected)];
    }
  }

  /** The options are taken in their own order: filtering a concatenation
      concatenates the filtered parts. */
  lemma {:induction false} UseListAppend(a: seq<string>, b: seq<string>, selected: seq<string>,
                                         shortenedResponses: seq<string>)
    ensures UseList(a + b, selected, shortenedResponses) ==
            UseList(a, selected, shortenedResponses) + UseList(b, selected, shortenedResponses)
    decreases |b|
  {
    if |b| == 0 {
      assert a + b == a;
    } else {
      var front, ab := b[..|b| - 1], a + b;
      UseListAppend(a, front, selected, shortenedResponses);
      assert ab[..|ab| - 1] == a + front;
      assert Last(ab) == Last(b);
      var picks := Picks(Last(b), selected, shortenedResponses);
      var u, v := UseList(a, selected, shortenedResponses), UseList(front, selected, shortenedResponses);
      assert UseList(ab, selected, shortenedResponses) == (u + v) + picks;
      assert UseList(b, selected, shortenedResponses) == v + picks;
      assert (u + v) + picks == u + (v + picks);
    }
  }

  /** `hit` does not pick `hit-cr_GLT` when `cr` is another response that
      `hit` does not contain. */
  lemma KeepsRejectsLonger(option: string, condition: string, other: string, shortenedResponses: seq<string>)
    requires other in shortenedResponses && other != condition
    requires Contains(option, other) && !Contains(condition, other)
    ensures !Keeps(option, condition, shortenedResponses)
  {
  }

  // ---------------------------------------------------------------------
  // Accumulating the subject averages: the values of `master_list`
  // ---------------------------------------------------------------------

  /** One `*ave*.txt` file found for a subject: its path and the first
      space-separated value of each of its lines, as numbers. */
  datatype SubjectFile = SubjectFile(path: string, values: seq<real>)

  /** A value held in `master_list`: a float, an int or a list. */
  datatype Val = Float(x: real) | Int(n: int) | List(items: seq<Val>)

  /** Python's name for the type of a value, `None` included. */
  function TypeName(v: Option<Val>): string {
    match v
    case None => "NoneType"
    case Some(Float(_)) => "float"
    case Some(Int(_)) => "int"
    case Some(List(_)) => "list"
  }

  predicate Numeric(v: Val) {
    v.Float? || v.Int?
  }

  function AsReal(v: Val): real
    requires Numeric(v)
  {
    if v.Float? then v.x else v.n as real
  }

  /** Python 2's `a + b`, also `operator.add`, with `None` for Python's
      `None`: numbers add (two ints give an int), two lists concatenate,
      and anything else is a `TypeError` whose wording depends on whether
      the left operand is a list. */
  function PyAdd(a: Option<Val>, b: Option<Val>): (r: Result<Val>)
    ensures r.Ok? <==> a.Some? && b.Some? &&
                       ((Numeric(a.value) && Numeric(b.value)) || (a.value.List? && b.value.List?))
    ensures r.Ok? && a.value.List? ==> r.value == List(a.value.items + b.value.items)
    ensures r.Ok? && Numeric(a.value) ==> r.value.Int? == (a.value.Int? && b.value.Int?)
    ensures r.Ok? && Numeric(a.value) ==> Numeric(r.value) && AsReal(r.value) == AsReal(a.value) + AsReal(b.value)
  {
    if a.Some? && b.Some? && a.value.Int? && b.value.Int? then Ok(Int(a.value.n + b.value.n))
    else if a.Some? && b.Some? && Numeric(a.value) && Numeric(b.value) then
      Ok(Float(AsReal(a.value) + AsReal(b.value)))
    else if a.Some? && b.Some? && a.value.List? && b.value.List? then Ok(List(a.value.items + b.value.items))
    else if a.Some? && a.value.List? then
      Err(ConcatError(TypeName(b)))
    else Err(OperandError(TypeName(a), TypeName(b)))
  }

  function ConcatError(right: string): string {
    "TypeError: can only concatenate list (not \"" + right + "\") to list"
  }

  function OperandError(left: string, right: string): string {
    "TypeError: unsupported operand type(s) for +: '" + left + "' and '" + right + "'"
  }

  const AddFloatNone := OperandError("float", "NoneType")
  const AddNoneFloat := OperandError("NoneType", "float")
  const NotIterable := "TypeError: argument 2 to map() must support iteration"

  /** The two operand orders give different messages. */
  lemma OperandOrders()
    ensures AddFloatNone != AddNoneFloat
  {
    assert AddFloatNone[47] == 'f';
    assert AddNoneFloat[47] == 'N';
  }

  /** The error of `map(add, sum, act)` on lists of floats of different
      lengths: Python 2 pads the shorter list with `None`, and `add` meets
      that `None` on the right when the running sum is the longer list and
      on the left otherwise. */
  function MismatchError(sumLength: nat, actLength: nat): string {
    if sumLength > actLength then AddFloatNone else AddNoneFloat
  }

  /** `.append` on a value that is not a list. */
  function NoAppend(v: Val): string {
    "AttributeError: '" + TypeName(Some(v)) + "' object has no attribute 'append'"
  }

  function Head(s: seq<Val>): Option<Val> {
    if |s| > 0 then Some(s[0]) else None
  }

  function Rest(s: seq<Val>): (r: seq<Val>)
    ensures |r| == if |s| > 0 then |s| - 1 else 0
  {
    if |s| > 0 then s[1..] else []
  }

  /** Python 2's `map(add, xs, ys)` over two lists: the shorter one is
      padded with `None`, and the first pair that `add` refuses stops it. */
  function MapAddItems(xs: seq<Val>, ys: seq<Val>): Result<seq<Val>>
    decreases |xs| + |ys|
  {
    if |xs| == 0 && |ys| == 0 then Ok([])
    else
      var h := PyAdd(Head(xs), Head(ys));
      if h.Err? then Err(h.error)
      else
        var t := MapAddItems(Rest(xs), Rest(ys));
        if t.Err? then t else Ok([h.value] + t.value)
  }

  /** `map(add, a, act)`: the running value has to be a list. */
  function MapAdd(a: Val, act: seq<Val>): Result<Val> {
    if !a.List? then Err(NotIterable)
    else
      var r := MapAddItems(a.items, act);
      if r.Err? then Err(r.error) else Ok(List(r.value))
  }

  function Floats(a: seq<real>): (r: seq<Val>)
    ensures |r| == |a| && forall k :: 0 <= k < |a| ==> r[k] == Float(a[k])
  {
    seq(|a|, k requires 0 <= k < |a| => Float(a[k]))
  }

  /** Element-wise `map(add, a, b)` on readings of one length. */
  function Plus(a: seq<real>, b: seq<real>): (r: seq<real>)
    requires |a| == |b|
    ensures |r| == |a| && forall k :: 0 <= k < |r| ==> r[k] == a[k] + b[k]
  {
    seq(|a|, k requires 0 <= k < |a| => a[k] + b[k])
  }

  /** On lists of floats `map(add, ...)` is the element-wise sum when the
      lengths agree, and otherwise the `TypeError` whose operand order the
      longer list decides. */
  lemma {:induction false} MapAddFloats(a: seq<real>, b: seq<real>)
    ensures MapAddItems(Floats(a), Floats(b)) ==
            if |a| == |b| then Ok(Floats(Plus(a, b))) else Err(MismatchError(|a|, |b|))
    decreases |a| + |b|
  {
    if |a| > 0 && |b| > 0 {
      FloatsSplit(a);
      FloatsSplit(b);
      MapAddFloats(a[1..], b[1..]);
      if |a| == |b| {
        PlusSplit(a, b);
      }
    } else if |a| > 0 {
      FloatsSplit(a);
      assert PyAdd(Head(Floats(a)), None) == Err(AddFloatNone);
    } else if |b| > 0 {
      FloatsSplit(b);
      assert PyAdd(None, Head(Floats(b))) == Err(AddNoneFloat);
    } else {
      assert Floats(Plus(a, b)) == [];
    }
  }

  lemma FloatsSplit(a: seq<real>)
    requires |a| > 0
    ensures Head(Floats(a)) == Some(Float(a[0])) && Rest(Floats(a)) == Floats(a[1..])
  {
    assert Rest(Floats(a)) == Floats(a[1..]);
  }

  lemma PlusSplit(a: seq<real>, b: seq<real>)
    requires |a| == |b| > 0
    ensures Floats(Plus(a, b)) == [Float(a[0] + b[0])] + Floats(Plus(a[1..], b[1..]))
  {
    assert Floats(Plus(a, b)) == [Float(a[0] + b[0])] + Floats(Plus(a[1..], b[1..]));
  }

  /** `act_data`: one float for magnitudes, a list of floats for time
      courses. */
  function ActVal(act: seq<real>, magnitudes: bool): Val {
    if magnitudes && |act| == 1 then Float(act[0]) else List(Floats(act))
  }

  /** `act_data` for magnitudes or time courses; an empty magnitudes file
      has no first value. */
  function Reading(file: SubjectFile, magnitudes: bool): (r: Result<seq<real>>)
    ensures r.Ok? <==> !magnitudes || |file.values| > 0
    ensures r.Ok? ==> r.value == ActOf(file, magnitudes)
  {
    if !magnitudes then Ok(file.values)
    else if |file.values| == 0 then Err(NoIndex)
    else Ok([file.values[0]])
  }

  /** The reading a file gives when it can be read. */
  function ActOf(file: SubjectFile, magnitudes: bool): seq<real> {
    if magnitudes && |file.values| > 0 then [file.values[0]] else file.values
  }

  /** The `if key_name in master_list` step on the whole dictionary. A name
      already present gets the reading added to its value (`+` for
      magnitudes, `map(add, ...)` for time courses), 1 added to
      `<name>_count` and the reading appended to `<name>_sem`; a name not
      yet present gets the three values stored fresh. Every name shares
      one dictionary with the `_count` and `_sem` companions of the
      others. */
  function AddKey(d: map<string, Val>, keyName: string, act: seq<real>, magnitudes: bool)
    : Result<map<string, Val>>
  {
    var a := ActVal(act, magnitudes);
    if keyName !in d then Ok(d[keyName := a][keyName + "_count" := Int(1)][keyName + "_sem" := List([a])])
    else
      var sum := if magnitudes then PyAdd(Some(d[keyName]), Some(a)) else MapAdd(d[keyName], Floats(act));
      if sum.Err? then Err(sum.error)
      else
        var d1 := Bump(d[keyName := sum.value], keyName + "_count");
        if d1.Err? then d1 else AppendTo(d1.value, keyName + "_sem", a)
  }

  /** `master_list[name] = master_list[name] + 1` */
  function Bump(d: map<string, Val>, name: string): Result<map<string, Val>> {
    if name !in d then Err(KeyError(name))
    else
      var count := PyAdd(Some(d[name]), Some(Int(1)));
      if count.Err? then Err(count.error) else Ok(d[name := count.value])
  }

  /** `master_list[name].append(a)` */
  function AppendTo(d: map<string, Val>, name: string, a: Val): Result<map<string, Val>> {
    if name !in d then Err(KeyError(name))
    else if !d[name].List? then Err(NoAppend(d[name]))
    else Ok(d[name := List(d[name].items + [a])])
  }

  /** A step that succeeds writes the name and its two companions, and no
      other name. */
  lemma AddKeyFrame(d: map<string, Val>, keyName: string, act: seq<real>, magnitudes: bool)
    requires AddKey(d, keyName, act, magnitudes).Ok?
    ensures var r := AddKey(d, keyName, act, magnitudes).value;
      && r.Keys == d.Keys + {keyName, keyName + "_count", keyName + "_sem"}
      && forall x :: x in d && x != keyName && x != keyName + "_count" && x != keyName + "_sem" ==> r[x] == d[x]
  {
  }

  /** Reading one subject file and adding it under its key: the subject
      number must follow `<subject_results>/subj.` in the path. */
  function ReadFile(d: map<string, Val>, keyName: string, file: SubjectFile, subjectResults: string,
                    magnitudes: bool): Result<map<string, Val>>
  {
    if !Contains(file.path, PathJoin(subjectResults, "subj.")) then Err(NoIndex)
    else
      var act := Reading(file, magnitudes);
      if act.Err? then Err(act.error) else AddKey(d, keyName, act.value, magnitudes)
  }

  /** The loop over `ROI_conditions`, the sorted files of one key. */
  function ReadFiles(d: map<string, Val>, keyName: string, files: seq<SubjectFile>, subjectResults: string,
                     magnitudes: bool): Result<map<string, Val>>
    decreases |files|
  {
    if |files| == 0 then Ok(d)
    else
      var before := ReadFiles(d, keyName, files[..|files| - 1], subjectResults, magnitudes);
      if before.Err? then before else ReadFile(before.value, keyName, Last(files), subjectResults, magnitudes)
  }

  /** Reading a key's files writes the key and its companions, and no
      other name: when there is a file all three are there afterwards. */
  lemma {:induction false} ReadFilesKeys(d: map<string, Val>, keyName: string, files: seq<SubjectFile>,
                                         subjectResults: string, magnitudes: bool)
    requires ReadFiles(d, keyName, files, subjectResults, magnitudes).Ok?
    ensures var r := ReadFiles(d, keyName, files, subjectResults, magnitudes).value;
      && r.Keys == d.Keys + (if |files| > 0 then {keyName, keyName + "_count", keyName + "_sem"} else {})
      && forall x :: x in d && x != keyName && x != keyName + "_count" && x != keyName + "_sem" ==> r[x] == d[x]
    decreases |files|
  {
    if |files| > 0 {
      var n := |files| - 1;
      ReadFilesKeys(d, keyName, files[..n], subjectResults, magnitudes);
      var before := ReadFiles(d, keyName, files[..n], subjectResults, magnitudes).value;
      var act := Reading(Last(files), magnitudes).value;
      AddKeyFrame(before, keyName, act, magnitudes);
    }
  }

  // ---------------------------------------------------------------------
  // The entry of one key: its value with its `_count` and `_sem`
  // ---------------------------------------------------------------------

  /** The three `master_list` values of one `ROI_condition` key, as the
      script means them: the running (element-wise) sum, `_count` and
      `_sem` (every reading). */
  datatype Entry = Entry(sum: seq<real>, count: nat, readings: seq<seq<real>>)

  /** The entry of a key, if there is one. */
  function Slot(entries: map<string, Entry>, keyName: string): Option<Entry> {
    if keyName in entries then Some(entries[keyName]) else None
  }

  function Updated(entries: map<string, Entry>, keyName: string, slot: Option<Entry>): map<string, Entry> {
    if slot.Some? then entries[keyName := slot.value] else entries
  }

  /** One reading added to the entry of a key; readings of different
      lengths fail as `map(add, ...)` does. */
  function AddSlot(slot: Option<Entry>, act: seq<real>): Result<Entry> {
    match slot
    case None => Ok(Entry(act, 1, [act]))
    case Some(e) =>
      if |e.sum| != |act| then Err(MismatchError(|e.sum|, |act|))
      else Ok(Entry(Plus(e.sum, act), e.count + 1, e.readings + [act]))
  }

  /** One subject file read into the entry of its key. */
  function SlotFile(slot: Option<Entry>, file: SubjectFile, subjectResults: string, magnitudes: bool)
    : Result<Entry>
  {
    if !Contains(file.path, PathJoin(subjectResults, "subj.")) then Err(NoIndex)
    else
      var act := Reading(file, magnitudes);
      if act.Err? then Err(act.error) else AddSlot(slot, act.value)
  }

  /** The loop over the files of one key, on the entry of that key. */
  function ReadSlot(slot: Option<Entry>, files: seq<SubjectFile>, subjectResults: string, magnitudes: bool)
    : Result<Option<Entry>>
    decreases |files|
  {
    if |files| == 0 then Ok(slot)
    else
      var before := ReadSlot(slot, files[..|files| - 1], subjectResults, magnitudes);
      if before.Err? then before
      else
        var e := SlotFile(before.value, Last(files), subjectResults, magnitudes);
        if e.Err? then Err(e.error) else Ok(Some(e.value))
  }

  /** The readings of a list of files. */
  function Readings(files: seq<SubjectFile>, magnitudes: bool): (r: seq<seq<real>>)
    ensures |r| == |files| && forall k :: 0 <= k < |r| ==> r[k] == ActOf(files[k], magnitudes)
  {
    seq(|files|, k requires 0 <= k < |files| => ActOf(files[k], magnitudes))
  }

  function Zeros(n: nat): (r: seq<real>)
    ensures |r| == n && forall k :: 0 <= k < n ==> r[k] == 0.0
  {
    seq(n, k => 0.0)
  }

  /** The element-wise sum of readings of length `n`. */
  function Total(n: nat, acts: seq<seq<real>>): (r: seq<real>)
    requires forall k :: 0 <= k < |acts| ==> |acts[k]| == n
    ensures |r| == n
    decreases |acts|
  {
    if |acts| == 0 then Zeros(n)
    else Plus(Total(n, acts[..|acts| - 1]), Last(acts))
  }

  /** `master_list[item] / master_list[item + "_count"]`, element-wise. */
  function Average(e: Entry): (r: seq<real>)
    requires e.count > 0
    ensures |r| == |e.sum| && forall k :: 0 <= k < |r| ==> r[k] * (e.count as real) == e.sum[k]
  {
    seq(|e.sum|, k requires 0 <= k < |e.sum| => e.sum[k] / (e.count as real))
  }

  /** The readings added one after another to the entry of a key. */
  function AddAll(slot: Option<Entry>, acts: seq<seq<real>>): Result<Option<Entry>>
    decreases |acts|
  {
    if |acts| == 0 then Ok(slot)
    else
      var before := AddAll(slot, acts[..|acts| - 1]);
      if before.Err? then before
      else
        var e := AddSlot(before.value, Last(acts));
        if e.Err? then Err(e.error) else Ok(Some(e.value))
  }

  /** A successful read of the files of a key adds their readings. */
  lemma {:induction false} ReadSlotAdds(slot: Option<Entry>, files: seq<SubjectFile>, subjectResults: string,
                                        magnitudes: bool)
    requires ReadSlot(slot, files, subjectResults, magnitudes).Ok?
    ensures ReadSlot(slot, files, subjectResults, magnitudes) == AddAll(slot, Readings(files, magnitudes))
    decreases |files|
  {
    if |files| > 0 {
      var n := |files| - 1;
      ReadSlotAdds(slot, files[..n], subjectResults, magnitudes);
      assert Readings(files, magnitudes)[..n] == Readings(files[..n], magnitudes);
    }
  }

  /** The count and the readings of a key after its readings are added. */
  function CountAfter(slot: Option<Entry>, n: nat): nat {
    if slot.Some? then slot.value.count + n else n
  }

  function ReadingsAfter(slot: Option<Entry>, acts: seq<seq<real>>): seq<seq<real>> {
    if slot.Some? then slot.value.readings + acts else acts
  }

  /** Adding readings: the count grows by their number, every reading is
      kept in order, and all readings have the length of the sum. */
  lemma {:induction false} AddAllCount(slot: Option<Entry>, acts: seq<seq<real>>)
    requires |acts| > 0 && AddAll(slot, acts).Ok?
    ensures var r := AddAll(slot, acts).value;
      && r.Some?
      && r.value.count == CountAfter(slot, |acts|)
      && r.value.readings == ReadingsAfter(slot, acts)
      && (forall k :: 0 <= k < |acts| ==> |acts[k]| == |r.value.sum|)
      && (slot.Some? ==> |slot.value.sum| == |r.value.sum|)
    decreases |acts|
  {
    var n := |acts| - 1;
    var front := acts[..n];
    var before := AddAll(slot, front).value;
    assert acts == front + [acts[n]];
    if n > 0 {
      AddAllCount(slot, front);
      assert ReadingsAfter(slot, acts) == before.value.readings + [acts[n]];
    } else {
      assert before == slot;
    }
  }

  /** Adding readings: the sum is the earlier sum (or nothing) plus their
      element-wise total. */
  lemma {:induction false} AddAllSum(slot: Option<Entry>, acts: seq<seq<real>>)
    requires |acts| > 0 && AddAll(slot, acts).Ok?
    ensures var r := AddAll(slot, acts).value;
      && r.Some?
      && (forall k :: 0 <= k < |acts| ==> |acts[k]| == |r.value.sum|)
      && (slot.Some? ==> |slot.value.sum| == |r.value.sum|)
      && r.value.sum == if slot.Some? then Plus(slot.value.sum, Total(|r.value.sum|, acts))
                        else Total(|r.value.sum|, acts)
    decreases |acts|
  {
    AddAllCount(slot, acts);
    var r := AddAll(slot, acts).value.value;
    var len := |r.sum|;
    var n := |acts| - 1;
    var front := acts[..n];
    var before := AddAll(slot, front).value;
    assert Total(len, acts) == Plus(Total(len, front), acts[n]);
    if n > 0 {
      AddAllSum(slot, front);
      AddAllCount(slot, front);
      assert r.sum == Plus(before.value.sum, acts[n]);
      if slot.Some? {
        PlusAssoc(slot.value.sum, Total(len, front), acts[n]);
      }
    } else {
      assert before == slot;
      PlusZeros(acts[n]);
      assert Total(len, front) == Zeros(len);
    }
  }

  /** Readings added to a new key succeed exactly when they all have the
      length of the first one, which is then the length of the sum. */
  lemma {:induction false} AddAllOk(acts: seq<seq<real>>)
    requires |acts| > 0
    ensures AddAll(None, acts).Ok? <==> forall k :: 0 <= k < |acts| ==> |acts[k]| == |acts[0]|
    ensures AddAll(None, acts).Ok? ==> AddAll(None, acts).value.Some? && |AddAll(None, acts).value.value.sum| == |acts[0]|
    decreases |acts|
  {
    if AddAll(None, acts).Ok? {
      AddAllCount(None, acts);
    } else {
      var n := |acts| - 1;
      if n > 0 && AddAll(None, acts[..n]).Err? {
        AddAllOk(acts[..n]);
      }
    }
  }

  /** The first reading whose length differs from the first one's stops
      the loop with the `TypeError` of `map(add, ...)`, naming the operand
      order that the lengths decide. */
  lemma {:induction false} AddAllMismatch(acts: seq<seq<real>>, k: nat)
    requires 0 < k < |acts|
    requires forall j :: 0 <= j < k ==> |acts[j]| == |acts[0]|
    requires |acts[k]| != |acts[0]|
    ensures AddAll(None, acts) == Err(MismatchError(|acts[0]|, |acts[k]|))
    ensures AddAll(None, acts).error == AddFloatNone <==> |acts[k]| < |acts[0]|
    decreases |acts|
  {
    var n := |acts| - 1;
    OperandOrders();
    if n == k {
      var front := acts[..k];
      assert forall j :: 0 <= j < |front| ==> |front[j]| == |front[0]|;
      AddAllOk(front);
    } else {
      AddAllMismatch(acts[..n], k);
    }
  }

  lemma PlusAssoc(a: seq<real>, b: seq<real>, c: seq<real>)
    requires |a| == |b| == |c|
    ensures Plus(Plus(a, b), c) == Plus(a, Plus(b, c))
  {
  }

  lemma PlusZeros(a: seq<real>)
    ensures Plus(Zeros(|a|), a) == a
  {
  }

  // ---------------------------------------------------------------------
  // Entries in the flat dictionary
  // ---------------------------------------------------------------------

  /** The readings as the script keeps them in `_sem`. */
  function ValsOf(acts: seq<seq<real>>, magnitudes: bool): (r: seq<Val>)
    ensures |r| == |acts| && forall k :: 0 <= k < |acts| ==> r[k] == ActVal(acts[k], magnitudes)
  {
    seq(|acts|, k requires 0 <= k < |acts| => ActVal(acts[k], magnitudes))
  }

  /** The names the entries take in `master_list`: each key with its
      `_count` and `_sem` companions. */
  function DictKeys(entries: map<string, Entry>): (r: set<string>)
    ensures entries.Keys <= r
  {
    entries.Keys + (set k | k in entries :: k + "_count") + (set k | k in entries :: k + "_sem")
  }

  /** No entry key is the `_count` or `_sem` companion of another. */
  predicate Separate(entries: map<string, Entry>) {
    forall k, j :: k in entries && j in entries ==> j != k + "_count" && j != k + "_sem"
  }

  /** At least one reading, and for magnitudes one value in each. */
  predicate Shaped(e: Entry, magnitudes: bool) {
    && |e.readings| > 0
    && (magnitudes ==> |e.sum| == 1 && forall j :: 0 <= j < |e.readings| ==> |e.readings[j]| == 1)
  }

  /** The three values of one entry stored under its key and its
      companions. */
  predicate EntryHeld(d: map<string, Val>, keyName: string, e: Entry, magnitudes: bool) {
    && Shaped(e, magnitudes)
    && keyName in d && d[keyName] == ActVal(e.sum, magnitudes)
    && keyName + "_count" in d && d[keyName + "_count"] == Int(e.count)
    && keyName + "_sem" in d && d[keyName + "_sem"] == List(ValsOf(e.readings, magnitudes))
  }

  /** `master_list` holds exactly the entries, each under its three names,
      and no two entries share a name. */
  predicate Holds(d: map<string, Val>, entries: map<string, Entry>, magnitudes: bool) {
    && Separate(entries)
    && d.Keys == DictKeys(entries)
    && forall k {:trigger entries[k]} :: k in entries ==> EntryHeld(d, k, entries[k], magnitudes)
  }

  /** A key that can be read as an entry of its own: it is one already, or
      neither it nor its companions are names in use. */
  predicate NoClash(entries: map<string, Entry>, keyName: string) {
    keyName in entries ||
    (keyName !in DictKeys(entries) && keyName + "_count" !in entries && keyName + "_sem" !in entries)
  }

  /** An entry's three values written under its key and its companions. */
  function Write(d: map<string, Val>, keyName: string, e: Entry, magnitudes: bool): map<string, Val> {
    d[keyName := ActVal(e.sum, magnitudes)][keyName + "_count" := Int(e.count)]
     [keyName + "_sem" := List(ValsOf(e.readings, magnitudes))]
  }

  /** The dictionary after a step on one entry, or that step's error. */
  function Written(d: map<string, Val>, keyName: string, e: Result<Entry>, magnitudes: bool)
    : Result<map<string, Val>>
  {
    if e.Ok? then Ok(Write(d, keyName, e.value, magnitudes)) else Err(e.error)
  }

  /** Reading a key on the dictionary and on its entry agree: both fail
      with one error, or the dictionary holds the entries with that key's
      entry updated. */
  predicate Mirrors(r: Result<map<string, Val>>, slot: Result<Option<Entry>>, entries: map<string, Entry>,
                    keyName: string, magnitudes: bool)
  {
    && (r.Ok? <==> slot.Ok?)
    && (r.Err? ==> slot.Err? && r.error == slot.error)
    && (r.Ok? ==> slot.Ok? && Holds(r.value, Updated(entries, keyName, slot.value), magnitudes))
  }

  lemma SuffixCancel(a: string, b: string, s: string)
    requires a + s == b + s
    ensures a == b
  {
    assert a == (a + s)[..|a|];
    assert b == (b + s)[..|b|];
  }

  lemma CountNotSem(a: string, b: string)
    ensures a + "_count" != b + "_sem"
  {
    assert (a + "_count")[|a| + 5] == 't';
    assert (b + "_sem")[|b| + 3] == 'm';
  }

  lemma DictKeysUpdate(entries: map<string, Entry>, keyName: string, e: Entry)
    ensures DictKeys(entries[keyName := e]) == DictKeys(entries) + {keyName, keyName + "_count", keyName + "_sem"}
  {
    var f := entries[keyName := e];
    assert (set k | k in f :: k + "_count") == (set k | k in entries :: k + "_count") + {keyName + "_count"};
    assert (set k | k in f :: k + "_sem") == (set k | k in entries :: k + "_sem") + {keyName + "_sem"};
  }

  /** The three names of a key that clashes with no other name are none
      of the three names of another entry. */
  lemma NamesApart(entries: map<string, Entry>, keyName: string, k: string)
    requires Separate(entries) && NoClash(entries, keyName) && k in entries && k != keyName
    ensures keyName != k + "_count" && keyName != k + "_sem"
    ensures keyName + "_count" != k && keyName + "_count" != k + "_count" && keyName + "_count" != k + "_sem"
    ensures keyName + "_sem" != k && keyName + "_sem" != k + "_count" && keyName + "_sem" != k + "_sem"
  {
    CountNotSem(keyName, k);
    CountNotSem(k, keyName);
    if keyName !in entries {
      assert k + "_count" in DictKeys(entries) && k + "_sem" in DictKeys(entries);
    }
    if keyName + "_count" == k + "_count" {
      SuffixCancel(keyName, k, "_count");
    }
    if keyName + "_sem" == k + "_sem" {
      SuffixCancel(keyName, k, "_sem");
    }
  }

  /** On a name not in use a step stores a fresh entry. */
  lemma AddKeyNew(d: map<string, Val>, keyName: string, act: seq<real>, magnitudes: bool)
    requires keyName !in d
    ensures AddKey(d, keyName, act, magnitudes) == Written(d, keyName, AddSlot(None, act), magnitudes)
  {
    assert ValsOf([act], magnitudes) == [ActVal(act, magnitudes)];
  }

  /** The running value of an entry plus one reading. */
  lemma SumStep(v: Val, sum: seq<real>, act: seq<real>, magnitudes: bool)
    requires v == ActVal(sum, magnitudes)
    requires magnitudes ==> |sum| == 1 && |act| == 1
    ensures (if magnitudes then PyAdd(Some(v), Some(ActVal(act, magnitudes))) else MapAdd(v, Floats(act))) ==
            if |sum| == |act| then Ok(ActVal(Plus(sum, act), magnitudes)) else Err(MismatchError(|sum|, |act|))
  {
    if !magnitudes {
      MapAddFloats(sum, act);
    }
  }

  /** On the key of an entry held in the dictionary a step adds to that
      entry, as `AddSlot` does. */
  lemma AddKeyStep(d: map<string, Val>, keyName: string, e: Entry, act: seq<real>, magnitudes: bool)
    requires EntryHeld(d, keyName, e, magnitudes)
    requires magnitudes ==> |act| == 1
    ensures AddKey(d, keyName, act, magnitudes) == Written(d, keyName, AddSlot(Some(e), act), magnitudes)
  {
    var c := keyName + "_count";
    var s := keyName + "_sem";
    var a := ActVal(act, magnitudes);
    SumStep(d[keyName], e.sum, act, magnitudes);
    if |e.sum| == |act| {
      CountNotSem(keyName, keyName);
      var d1 := d[keyName := ActVal(Plus(e.sum, act), magnitudes)];
      assert c in d1 && d1[c] == Int(e.count);
      var d2 := d1[c := Int(e.count + 1)];
      assert Bump(d1, c) == Ok(d2);
      assert s in d2 && d2[s] == List(ValsOf(e.readings, magnitudes));
      assert ValsOf(e.readings, magnitudes) + [a] == ValsOf(e.readings + [act], magnitudes);
    }
  }

  /** A step keeps the shape of an entry's readings. */
  lemma AddSlotShaped(slot: Option<Entry>, act: seq<real>, magnitudes: bool)
    requires slot.Some? ==> Shaped(slot.value, magnitudes)
    requires magnitudes ==> |act| == 1
    ensures AddSlot(slot, act).Ok? ==> Shaped(AddSlot(slot, act).value, magnitudes)
  {
  }

  /** Writing the entry of a key that clashes with no other name keeps
      `Holds`. */
  lemma HoldsWrite(d: map<string, Val>, entries: map<string, Entry>, keyName: string, e: Entry, magnitudes: bool)
    requires Holds(d, entries, magnitudes) && NoClash(entries, keyName) && Shaped(e, magnitudes)
    ensures Holds(Write(d, keyName, e, magnitudes), entries[keyName := e], magnitudes)
  {
    SeparateWrite(entries, keyName, e);
    KeysWrite(d, entries, keyName, e, magnitudes);
    EntriesWritten(d, entries, entries[keyName := e], keyName, e, magnitudes);
  }

  /** Writing an entry adds its three names to those in use. */
  lemma KeysWrite(d: map<string, Val>, entries: map<string, Entry>, keyName: string, e: Entry, magnitudes: bool)
    requires d.Keys == DictKeys(entries)
    ensures Write(d, keyName, e, magnitudes).Keys == DictKeys(entries[keyName := e])
  {
    DictKeysUpdate(entries, keyName, e);
  }

  /** Adding a key that clashes with no other name keeps the entry keys
      apart from each other's companions. */
  lemma SeparateWrite(entries: map<string, Entry>, keyName: string, e: Entry)
    requires Separate(entries) && NoClash(entries, keyName)
    ensures Separate(entries[keyName := e])
  {
    var f := entries[keyName := e];
    forall k, j | k in f && j in f
      ensures j != k + "_count" && j != k + "_sem"
    {
      if k != keyName && j == keyName {
        NamesApart(entries, keyName, k);
      } else if k == keyName && j != keyName {
        NamesApart(entries, keyName, j);
      }
    }
  }

  /** The three names written with an entry's values hold that entry. */
  lemma HeldWritten(d: map<string, Val>, keyName: string, e: Entry, magnitudes: bool)
    requires Shaped(e, magnitudes)
    ensures EntryHeld(Write(d, keyName, e, magnitudes), keyName, e, magnitudes)
  {
    CountNotSem(keyName, keyName);
  }

  /** Writing the three names of a key that clashes with no other name
      holds the new entry and keeps every other one. */
  lemma EntriesWritten(d: map<string, Val>, entries: map<string, Entry>, f: map<string, Entry>, keyName: string,
                       e: Entry, magnitudes: bool)
    requires Holds(d, entries, magnitudes) && NoClash(entries, keyName) && Shaped(e, magnitudes)
    requires f == entries[keyName := e]
    ensures forall k {:trigger f[k]} :: k in f ==> EntryHeld(Write(d, keyName, e, magnitudes), k, f[k], magnitudes)
  {
    var v, n, w := ActVal(e.sum, magnitudes), Int(e.count), List(ValsOf(e.readings, magnitudes));
    var c := keyName + "_count";
    forall k | k in f
      ensures EntryHeld(Write(d, keyName, e, magnitudes), k, f[k], magnitudes)
    {
      if k == keyName {
        HeldWritten(d, keyName, e, magnitudes);
      } else {
        NamesApart(entries, keyName, k);
        HeldApart(d, k, entries[k], keyName, v, magnitudes);
        HeldApart(d[keyName := v], k, entries[k], c, n, magnitudes);
        HeldApart(d[keyName := v][c := n], k, entries[k], keyName + "_sem", w, magnitudes);
      }
    }
  }

  /** Writing a name that is none of an entry's three names keeps it. */
  lemma HeldApart(d: map<string, Val>, k: string, e: Entry, name: string, v: Val, magnitudes: bool)
    requires EntryHeld(d, k, e, magnitudes)
    requires name != k && name != k + "_count" && name != k + "_sem"
    ensures EntryHeld(d[name := v], k, e, magnitudes)
  {
  }

  /** The step of a key that clashes with no other name, read on the
      dictionary, is the step on that key's entry, and keeps `Holds`. */
  lemma AddKeyHolds(d: map<string, Val>, entries: map<string, Entry>, keyName: string, act: seq<real>,
                    magnitudes: bool)
    requires Holds(d, entries, magnitudes) && NoClash(entries, keyName)
    requires magnitudes ==> |act| == 1
    ensures AddKey(d, keyName, act, magnitudes) == Written(d, keyName, AddSlot(Slot(entries, keyName), act), magnitudes)
    ensures AddSlot(Slot(entries, keyName), act).Ok? ==>
              Holds(Write(d, keyName, AddSlot(Slot(entries, keyName), act).value, magnitudes),
                    entries[keyName := AddSlot(Slot(entries, keyName), act).value], magnitudes)
  {
    if keyName in entries {
      assert EntryHeld(d, keyName, entries[keyName], magnitudes);
      AddKeyStep(d, keyName, entries[keyName], act, magnitudes);
    } else {
      AddKeyNew(d, keyName, act, magnitudes);
    }
    var n := AddSlot(Slot(entries, keyName), act);
    if n.Ok? {
      if keyName in entries {
        assert EntryHeld(d, keyName, entries[keyName], magnitudes);
      }
      AddSlotShaped(Slot(entries, keyName), act, magnitudes);
      HoldsWrite(d, entries, keyName, n.value, magnitudes);
    }
  }

  /** One file of a key that clashes with no other name, read on the
      dictionary, is that file read on the key's entry. */
  lemma ReadFileHolds(d: map<string, Val>, entries: map<string, Entry>, keyName: string, file: SubjectFile,
                      subjectResults: string, magnitudes: bool)
    requires Holds(d, entries, magnitudes) && NoClash(entries, keyName)
    ensures ReadFile(d, keyName, file, subjectResults, magnitudes) ==
            Written(d, keyName, SlotFile(Slot(entries, keyName), file, subjectResults, magnitudes), magnitudes)
    ensures SlotFile(Slot(entries, keyName), file, subjectResults, magnitudes).Ok? ==>
              Holds(Write(d, keyName, SlotFile(Slot(entries, keyName), file, subjectResults, magnitudes).value,
                          magnitudes),
                    entries[keyName := SlotFile(Slot(entries, keyName), file, subjectResults, magnitudes).value],
                    magnitudes)
  {
    var act := Reading(file, magnitudes);
    if Contains(file.path, PathJoin(subjectResults, "subj.")) && act.Ok? {
      AddKeyHolds(d, entries, keyName, act.value, magnitudes);
    }
  }

  /** Reading the files of a key that clashes with no other name, on the
      dictionary or on the entry of that key, gives the same outcome. */
  lemma {:induction false} ReadFilesHolds(d: map<string, Val>, entries: map<string, Entry>, keyName: string,
                                          files: seq<SubjectFile>, subjectResults: string, magnitudes: bool)
    requires Holds(d, entries, magnitudes) && NoClash(entries, keyName)
    ensures Mirrors(ReadFiles(d, keyName, files, subjectResults, magnitudes),
                    ReadSlot(Slot(entries, keyName), files, subjectResults, magnitudes), entries, keyName, magnitudes)
    decreases |files|
  {
    if |files| == 0 {
      UpdatedSame(entries, keyName);
    } else {
      var n := |files| - 1;
      ReadFilesHolds(d, entries, keyName, files[..n], subjectResults, magnitudes);
      var slot := ReadSlot(Slot(entries, keyName), files[..n], subjectResults, magnitudes);
      SlotAfter(entries, keyName, files[..n], subjectResults, magnitudes);
      ReadFileMirrors(entries, keyName, ReadFiles(d, keyName, files[..n], subjectResults, magnitudes), slot,
                      Last(files), subjectResults, magnitudes);
    }
  }

  /** One more file keeps the dictionary and the entries in agreement. */
  lemma ReadFileMirrors(entries: map<string, Entry>, keyName: string, before: Result<map<string, Val>>,
                        slot: Result<Option<Entry>>, file: SubjectFile, subjectResults: string, magnitudes: bool)
    requires NoClash(entries, keyName) && Mirrors(before, slot, entries, keyName, magnitudes)
    requires slot.Ok? ==> Slot(Updated(entries, keyName, slot.value), keyName) == slot.value
    ensures Mirrors(if before.Err? then before else ReadFile(before.value, keyName, file, subjectResults, magnitudes),
                    if slot.Err? then slot
                    else
                      var e := SlotFile(slot.value, file, subjectResults, magnitudes);
                      if e.Err? then Err(e.error) else Ok(Some(e.value)),
                    entries, keyName, magnitudes)
  {
    if before.Ok? {
      var mid := Updated(entries, keyName, slot.value);
      assert NoClash(mid, keyName);
      ReadFileHolds(before.value, mid, keyName, file, subjectResults, magnitudes);
      var e := SlotFile(slot.value, file, subjectResults, magnitudes);
      if e.Ok? {
        UpdatedAgain(entries, keyName, slot.value, e.value);
      }
    }
  }

  /** After reading files the entry of a key is the slot read. */
  lemma SlotAfter(entries: map<string, Entry>, keyName: string, files: seq<SubjectFile>, subjectResults: string,
                  magnitudes: bool)
    ensures var slot := ReadSlot(Slot(entries, keyName), files, subjectResults, magnitudes);
            slot.Ok? ==> Slot(Updated(entries, keyName, slot.value), keyName) == slot.value
  {
  }

  lemma UpdatedSame(entries: map<string, Entry>, keyName: string)
    ensures Updated(entries, keyName, Slot(entries, keyName)) == entries
  {
  }

  lemma UpdatedAgain(entries: map<string, Entry>, keyName: string, slot: Option<Entry>, e: Entry)
    ensures Updated(entries, keyName, slot)[keyName := e] == entries[keyName := e]
  {
  }

  /** Reading the files of a key that clashes with no other name adds
      their readings to its entry and changes no other name. */
  lemma ReadFilesAdds(d: map<string, Val>, entries: map<string, Entry>, keyName: string, files: seq<SubjectFile>,
                      subjectResults: string, magnitudes: bool)
    requires Holds(d, entries, magnitudes) && NoClash(entries, keyName)
    requires |files| > 0 && ReadFiles(d, keyName, files, subjectResults, magnitudes).Ok?
    ensures AddAll(Slot(entries, keyName), Readings(files, magnitudes)).Ok?
    ensures AddAll(Slot(entries, keyName), Readings(files, magnitudes)).value.Some?
    ensures Holds(ReadFiles(d, keyName, files, subjectResults, magnitudes).value,
                  entries[keyName := AddAll(Slot(entries, keyName), Readings(files, magnitudes)).value.value], magnitudes)
    ensures forall x :: x in d && x != keyName && x != keyName + "_count" && x != keyName + "_sem" ==>
              x in ReadFiles(d, keyName, files, subjectResults, magnitudes).value &&
              ReadFiles(d, keyName, files, subjectResults, magnitudes).value[x] == d[x]
  {
    ReadFilesHolds(d, entries, keyName, files, subjectResults, magnitudes);
    ReadSlotAdds(Slot(entries, keyName), files, subjectResults, magnitudes);
    AddAllCount(Slot(entries, keyName), Readings(files, magnitudes));
    ReadFilesKeys(d, keyName, files, subjectResults, magnitudes);
  }

  /** A name not in use whose companions are no entry keys, read for the
      first time: it holds the element-wise total of the readings,
      `_count` their number and `_sem` the readings themselves. */
  lemma FreshKey(d: map<string, Val>, entries: map<string, Entry>, keyName: string, files: seq<SubjectFile>,
                 subjectResults: string, magnitudes: bool)
    requires Holds(d, entries, magnitudes)
    requires keyName !in d && keyName + "_count" !in entries && keyName + "_sem" !in entries
    requires |files| > 0 && ReadFiles(d, keyName, files, subjectResults, magnitudes).Ok?
    ensures var r := ReadFiles(d, keyName, files, subjectResults, magnitudes).value;
      var acts := Readings(files, magnitudes);
      var n := |acts[0]|;
      && (forall k :: 0 <= k < |acts| ==> |acts[k]| == n)
      && keyName in r && r[keyName] == ActVal(Total(n, acts), magnitudes)
      && keyName + "_count" in r && r[keyName + "_count"] == Int(|acts|)
      && keyName + "_sem" in r && r[keyName + "_sem"] == List(ValsOf(acts, magnitudes))
  {
    var acts := Readings(files, magnitudes);
    assert Slot(entries, keyName) == None;
    ReadFilesAdds(d, entries, keyName, files, subjectResults, magnitudes);
    var r := ReadFiles(d, keyName, files, subjectResults, magnitudes).value;
    HeldOf(r, entries[keyName := AddAll(None, acts).value.value], keyName, magnitudes);
    FreshHeld(r, keyName, acts, magnitudes);
  }

  /** The names of a new key hold the entry its readings make. */
  lemma FreshHeld(r: map<string, Val>, keyName: string, acts: seq<seq<real>>, magnitudes: bool)
    requires |acts| > 0 && AddAll(None, acts).Ok? && AddAll(None, acts).value.Some?
    requires EntryHeld(r, keyName, AddAll(None, acts).value.value, magnitudes)
    ensures var n := |acts[0]|;
      && (forall k :: 0 <= k < |acts| ==> |acts[k]| == n)
      && keyName in r && r[keyName] == ActVal(Total(n, acts), magnitudes)
      && keyName + "_count" in r && r[keyName + "_count"] == Int(|acts|)
      && keyName + "_sem" in r && r[keyName + "_sem"] == List(ValsOf(acts, magnitudes))
  {
    FreshEntry(acts);
  }

  /** The entry that readings make of a new key. */
  lemma FreshEntry(acts: seq<seq<real>>)
    requires |acts| > 0 && AddAll(None, acts).Ok?
    ensures forall k :: 0 <= k < |acts| ==> |acts[k]| == |acts[0]|
    ensures AddAll(None, acts).value == Some(Entry(Total(|acts[0]|, acts), |acts|, acts))
  {
    AddAllCount(None, acts);
    AddAllSum(None, acts);
  }

  lemma HeldOf(d: map<string, Val>, entries: map<string, Entry>, keyName: string, magnitudes: bool)
    requires Holds(d, entries, magnitudes) && keyName in entries
    ensures EntryHeld(d, keyName, entries[keyName], magnitudes)
  {
  }

  /** A name that is the `_count` or `_sem` companion of an entry key
      cannot be read: adding a reading under it stops the tool. For
      `<key>_count` that is the `KeyError` of `<key>_count_count` for
      magnitudes (unless that is an entry key too) and the `map` error for
      time courses. */
  lemma CompanionKeyFails(d: map<string, Val>, entries: map<string, Entry>, k: string, act: seq<real>,
                          magnitudes: bool)
    requires Holds(d, entries, magnitudes) && k in entries
    requires magnitudes ==> |act| == 1
    ensures AddKey(d, k + "_count", act, magnitudes).Err?
    ensures AddKey(d, k + "_sem", act, magnitudes).Err?
    ensures !magnitudes ==> AddKey(d, k + "_count", act, magnitudes) == Err(NotIterable)
    ensures magnitudes && k + "_count" + "_count" !in entries ==>
              AddKey(d, k + "_count", act, magnitudes) == Err(KeyError(k + "_count" + "_count"))
  {
    assert EntryHeld(d, k, entries[k], magnitudes);
    SemKeyFails(d, k, entries[k], act, magnitudes);
    if magnitudes {
      var cc := k + "_count" + "_count";
      var cs := k + "_count" + "_sem";
      CountCompanions(d, entries, k, magnitudes);
      if cc in entries {
        assert EntryHeld(d, cc, entries[cc], magnitudes);
      }
      if cs in entries {
        assert EntryHeld(d, cs, entries[cs], magnitudes);
      }
      CountKeyMagnitudes(d, k, entries[k], act);
    } else {
      CountKeyTimecourse(d, k, entries[k], act);
    }
  }

  /** `<key>_sem` holds a list of readings, and a reading cannot be added
      to a list. */
  lemma SemKeyFails(d: map<string, Val>, k: string, e: Entry, act: seq<real>, magnitudes: bool)
    requires EntryHeld(d, k, e, magnitudes) && (magnitudes ==> |act| == 1)
    ensures AddKey(d, k + "_sem", act, magnitudes).Err?
  {
    var items := ValsOf(e.readings, magnitudes);
    if !magnitudes {
      assert Head(items) == Some(List(Floats(e.readings[0])));
      assert PyAdd(Head(items), Head(Floats(act))).Err?;
    }
  }

  /** For time courses `<key>_count` holds an int, which `map` cannot
      iterate. */
  lemma CountKeyTimecourse(d: map<string, Val>, k: string, e: Entry, act: seq<real>)
    requires EntryHeld(d, k, e, false)
    ensures AddKey(d, k + "_count", act, false) == Err(NotIterable)
  {
  }

  /** For magnitudes the count of `<key>_count` is looked up under
      `<key>_count_count`: a missing name, or a float, after which
      `<key>_count_sem` is a missing name or a float and cannot be
      appended to. */
  lemma CountKeyMagnitudes(d: map<string, Val>, k: string, e: Entry, act: seq<real>)
    requires EntryHeld(d, k, e, true) && |act| == 1
    requires k + "_count" + "_count" in d ==> d[k + "_count" + "_count"].Float?
    requires k + "_count" + "_sem" in d ==> d[k + "_count" + "_sem"].Float?
    ensures AddKey(d, k + "_count", act, true).Err?
    ensures k + "_count" + "_count" !in d ==>
              AddKey(d, k + "_count", act, true) == Err(KeyError(k + "_count" + "_count"))
  {
    var c := k + "_count";
    var cc := c + "_count";
    var cs := c + "_sem";
    assert |cc| == |c| + 6 && |cs| == |c| + 4;
    CountNotSem(c, c);
    var d1 := d[c := Float(e.count as real + act[0])];
    assert PyAdd(Some(d[c]), Some(ActVal(act, true))) == Ok(Float(e.count as real + act[0]));
    var b := Bump(d1, cc);
    assert AddKey(d, c, act, true) == if b.Err? then b else AppendTo(b.value, cs, ActVal(act, true));
    if cc in d {
      assert b.Ok? && cs !in b.value.Keys - d.Keys;
      assert cs in b.value ==> b.value[cs] == d[cs];
    }
  }

  /** The companions of `<key>_count` are in use only as entry keys. */
  lemma CountCompanions(d: map<string, Val>, entries: map<string, Entry>, k: string, magnitudes: bool)
    requires Holds(d, entries, magnitudes) && k in entries
    ensures k + "_count" + "_count" in d ==> k + "_count" + "_count" in entries
    ensures k + "_count" + "_sem" in d ==> k + "_count" + "_sem" in entries
  {
    if k + "_count" + "_count" in d {
      CompanionIsEntry(entries, k, k + "_count" + "_count");
    }
    if k + "_count" + "_sem" in d {
      CompanionIsEntry(entries, k, k + "_count" + "_sem");
    }
  }

  lemma CompanionIsEntry(entries: map<string, Entry>, k: string, x: string)
    requires Separate(entries) && k in entries && x in DictKeys(entries)
    requires x == k + "_count" + "_count" || x == k + "_count" + "_sem"
    ensures x in entries
  {
    var c := k + "_count";
    if x !in entries {
      if j :| j in entries && x == j + "_count" {
        if x == c + "_count" {
          SuffixCancel(c, j, "_count");
        } else {
          CountNotSem(j, c);
        }
      } else {
        var j :| j in entries && x == j + "_sem";
        if x == c + "_count" {
          CountNotSem(c, j);
        } else {
          SuffixCancel(c, j, "_sem");
        }
      }
    }
  }

  /** A key that is the companion of an entry key stops the tool on its
      first file. */
  lemma CompanionFilesFail(d: map<string, Val>, entries: map<string, Entry>, k: string, keyName: string,
                           files: seq<SubjectFile>, subjectResults: string, magnitudes: bool)
    requires Holds(d, entries, magnitudes) && k in entries
    requires keyName == k + "_count" || keyName == k + "_sem"
    requires |files| > 0
    ensures ReadFiles(d, keyName, files, subjectResults, magnitudes).Err?
  {
    forall act: seq<real> | magnitudes ==> |act| == 1
      ensures AddKey(d, keyName, act, magnitudes).Err?
    {
      CompanionKeyFails(d, entries, k, act, magnitudes);
    }
    ReadFileFails(d, keyName, files[0], subjectResults, magnitudes);
    FirstFileFails(d, keyName, files, subjectResults, magnitudes);
  }

  /** A key that every reading fails on fails on every file. */
  lemma ReadFileFails(d: map<string, Val>, keyName: string, file: SubjectFile, subjectResults: string,
                      magnitudes: bool)
    requires forall act: seq<real> :: (magnitudes ==> |act| == 1) ==> AddKey(d, keyName, act, magnitudes).Err?
    ensures ReadFile(d, keyName, file, subjectResults, magnitudes).Err?
  {
    var act := Reading(file, magnitudes);
    if act.Ok? {
      assert AddKey(d, keyName, act.value, magnitudes).Err?;
    }
  }

  /** A first file that cannot be read stops the loop. */
  lemma FirstFileFails(d: map<string, Val>, keyName: string, files: seq<SubjectFile>, subjectResults: string,
                       magnitudes: bool)
    requires |files| > 0 && ReadFile(d, keyName, files[0], subjectResults, magnitudes).Err?
    ensures ReadFiles(d, keyName, files, subjectResults, magnitudes).Err?
  {
    assert files[..1][..0] == [];
    assert ReadFiles(d, keyName, files[..1], subjectResults, magnitudes).Err?;
    ReadFilesErrStays(d, keyName, files, subjectResults, magnitudes, 1);
  }

  /** The other order: a new name whose `_count` companion is already an
      entry key (`R_x` read after `R_x_count`) overwrites that entry's
      running value, which is never an int, with the count 1. */
  lemma CompanionOverwrites(d: map<string, Val>, entries: map<string, Entry>, keyName: string, act: seq<real>,
                            magnitudes: bool)
    requires Holds(d, entries, magnitudes) && keyName !in d && keyName + "_count" in entries
    ensures AddKey(d, keyName, act, magnitudes).Ok?
    ensures !d[keyName + "_count"].Int?
    ensures keyName + "_count" in AddKey(d, keyName, act, magnitudes).value
    ensures AddKey(d, keyName, act, magnitudes).value[keyName + "_count"] == Int(1)
  {
    assert !d[keyName + "_count"].Int? by {
      assert EntryHeld(d, keyName + "_count", entries[keyName + "_count"], magnitudes);
    }
    AddKeyCountsOne(d, keyName, act, magnitudes);
  }

  /** A new name starts with the count 1. */
  lemma AddKeyCountsOne(d: map<string, Val>, keyName: string, act: seq<real>, magnitudes: bool)
    requires keyName !in d
    ensures AddKey(d, keyName, act, magnitudes).Ok?
    ensures keyName + "_count" in AddKey(d, keyName, act, magnitudes).value
    ensures AddKey(d, keyName, act, magnitudes).value[keyName + "_count"] == Int(1)
  {
    CountNotSem(keyName, keyName);
  }

  /** All the reading one file needs: a subject number in its path and,
      for magnitudes, a first line. */
  predicate Readable(file: SubjectFile, subjectResults: string, magnitudes: bool) {
    Contains(file.path, PathJoin(subjectResults, "subj.")) && (magnitudes ==> |file.values| > 0)
  }
  // ---------------------------------------------------------------------
  // The loops over folders, conditions and ROIs
  // ---------------------------------------------------------------------

  /** What the loops consult: the ROI method, the analysis type, the
      results folder, and the sorted files the search for one folder,
      ROI name and condition finds. */
  datatype Search = Search(spherical: bool, magnitudes: bool, subjectResults: string,
                           found: (string, string, string) -> seq<SubjectFile>)

  /** `ROI[:-4]` for a coordinate file, `ROI[:-10]` for a mask. */
  function RoiName(roi: string, spherical: bool): (r: string)
    ensures StartsWith(roi, r)
    ensures |r| == if spherical then (if |roi| > 4 then |roi| - 4 else 0) else (if |roi| > 10 then |roi| - 10 else 0)
  {
    if spherical then DropLast(roi, 4) else DropLast(roi, 10)
  }

  /** The files of one ROI and condition, under `ROI_name + "_" + condition`. */
  function ReadRoi(d: map<string, Val>, folder: string, condition: string, roi: string, s: Search)
    : Result<map<string, Val>>
  {
    var name := RoiName(roi, s.spherical);
    ReadFiles(d, name + "_" + condition, s.found(folder, name, condition), s.subjectResults, s.magnitudes)
  }

  function ReadRois(d: map<string, Val>, folder: string, condition: string, rois: seq<string>, s: Search)
    : Result<map<string, Val>>
    decreases |rois|
  {
    if |rois| == 0 then Ok(d)
    else
      var before := ReadRois(d, folder, condition, rois[..|rois| - 1], s);
      if before.Err? then before else ReadRoi(before.value, folder, condition, Last(rois), s)
  }

  function ReadConditions(d: map<string, Val>, folder: string, conditions: seq<string>, rois: seq<string>,
                          s: Search): Result<map<string, Val>>
    decreases |conditions|
  {
    if |conditions| == 0 then Ok(d)
    else
      var before := ReadConditions(d, folder, conditions[..|conditions| - 1], rois, s);
      if before.Err? then before else ReadRois(before.value, folder, Last(conditions), rois, s)
  }

  /** The whole accumulation over `all_GLM_condition_pairs`, given as
      (folder, its sorted conditions) pairs in the order of the dictionary. */
  function ReadFolders(d: map<string, Val>, pairs: seq<(string, seq<string>)>, rois: seq<string>, s: Search)
    : Result<map<string, Val>>
    decreases |pairs|
  {
    if |pairs| == 0 then Ok(d)
    else
      var before := ReadFolders(d, pairs[..|pairs| - 1], rois, s);
      if before.Err? then before else ReadConditions(before.value, Last(pairs).0, Last(pairs).1, rois, s)
  }

  lemma {:induction false} ReadRoisErrStays(d: map<string, Val>, folder: string, condition: string,
                                            rois: seq<string>, s: Search, n: nat)
    requires n <= |rois| && ReadRois(d, folder, condition, rois[..n], s).Err?
    ensures ReadRois(d, folder, condition, rois, s) == ReadRois(d, folder, condition, rois[..n], s)
    decreases |rois| - n
  {
    if n == |rois| {
      assert rois[..n] == rois;
    } else {
      assert rois[..n + 1][..n] == rois[..n];
      ReadRoisErrStays(d, folder, condition, rois, s, n + 1);
    }
  }

  lemma {:induction false} ReadConditionsErrStays(d: map<string, Val>, folder: string, conditions: seq<string>,
                                                  rois: seq<string>, s: Search, n: nat)
    requires n <= |conditions| && ReadConditions(d, folder, conditions[..n], rois, s).Err?
    ensures ReadConditions(d, folder, conditions, rois, s) == ReadConditions(d, folder, conditions[..n], rois, s)
    decreases |conditions| - n
  {
    if n == |conditions| {
      assert conditions[..n] == conditions;
    } else {
      assert conditions[..n + 1][..n] == conditions[..n];
      ReadConditionsErrStays(d, folder, conditions, rois, s, n + 1);
    }
  }

  lemma {:induction false} ReadFoldersErrStays(d: map<string, Val>, pairs: seq<(string, seq<string>)>,
                                               rois: seq<string>, s: Search, n: nat)
    requires n <= |pairs| && ReadFolders(d, pairs[..n], rois, s).Err?
    ensures ReadFolders(d, pairs, rois, s) == ReadFolders(d, pairs[..n], rois, s)
    decreases |pairs| - n
  {
    if n == |pairs| {
      assert pairs[..n] == pairs;
    } else {
      assert pairs[..n + 1][..n] == pairs[..n];
      ReadFoldersErrStays(d, pairs, rois, s, n + 1);
    }
  }

  /** Every name the loops add is an ROI name, `_` and the condition, or
      the `_count` or `_sem` companion of one. */
  lemma {:induction false} ReadRoisKeys(d: map<string, Val>, folder: string, condition: string,
                                        rois: seq<string>, s: Search, key: string)
    requires ReadRois(d, folder, condition, rois, s).Ok?
    requires key in ReadRois(d, folder, condition, rois, s).value && key !in d
    ensures exists k :: 0 <= k < |rois| && KeyOf(rois[k], condition, s.spherical, key)
    decreases |rois|
  {
    var n := |rois| - 1;
    var before := ReadRois(d, folder, condition, rois[..n], s).value;
    var name := RoiName(rois[n], s.spherical);
    var files := s.found(folder, name, condition);
    ReadFilesKeys(before, name + "_" + condition, files, s.subjectResults, s.magnitudes);
    if key in before {
      ReadRoisKeys(d, folder, condition, rois[..n], s, key);
      var k :| 0 <= k < n && KeyOf(rois[..n][k], condition, s.spherical, key);
      assert rois[..n][k] == rois[k];
    } else {
      assert KeyOf(rois[n], condition, s.spherical, key);
    }
  }

  /** `key` is the key of an ROI file and condition, or a companion of it. */
  predicate KeyOf(roi: string, condition: string, spherical: bool, key: string) {
    var name := RoiName(roi, spherical) + "_" + condition;
    key == name || key == name + "_count" || key == name + "_sem"
  }

  /** Conditions `x` and `x_count` of one folder and the ROI file `R.txt`,
      one readable file each: `x` stores `R_x`, `R_x_count` and `R_x_sem`;
      then the key `R_x_count` is found in use, and the tool stops with
      `KeyError: 'R_x_count_count'` for magnitudes and the `map` error for
      time courses. */
  lemma ClashingConditions(folder: string, s: Search, f: SubjectFile, g: SubjectFile)
    requires s.spherical
    requires s.found(folder, "R", "x") == [f] && s.found(folder, "R", "x_count") == [g]
    requires Readable(f, s.subjectResults, s.magnitudes) && Readable(g, s.subjectResults, s.magnitudes)
    ensures ReadConditions(map[], folder, ["x", "x_count"], ["R.txt"], s) ==
            Err(if s.magnitudes then KeyError("R_x_count_count") else NotIterable)
  {
    assert RoiName("R.txt", true) == "R";
    assert "R" + "_" + "x" == "R_x" && "R" + "_" + "x_count" == "R_x_count" == "R_x" + "_count";
    assert "R_x" + "_count" + "_count" == "R_x_count_count";
    assert ["x", "x_count"][..1] == ["x"] && ["x"][..0] == [] && ["R.txt"][..0] == [];
    var act := Reading(f, s.magnitudes).value;
    var e := Entry(act, 1, [act]);
    var d := Write(map[], "R_x", e, s.magnitudes);
    OneFile(map[], "R_x", f, s.subjectResults, s.magnitudes);
    AddKeyNew(map[], "R_x", act, s.magnitudes);
    assert ReadConditions(map[], folder, ["x"], ["R.txt"], s) == Ok(d);
    var actG := Reading(g, s.magnitudes).value;
    OneFile(d, "R_x_count", g, s.subjectResults, s.magnitudes);
    FirstEntry(e, "R_x", s.magnitudes);
    CompanionKeyFails(d, map["R_x" := e], "R_x", actG, s.magnitudes);
  }

  /** One readable file read under a key is one step on that key. */
  lemma OneFile(d: map<string, Val>, keyName: string, f: SubjectFile, subjectResults: string, magnitudes: bool)
    requires Readable(f, subjectResults, magnitudes)
    ensures ReadFiles(d, keyName, [f], subjectResults, magnitudes) ==
            AddKey(d, keyName, Reading(f, magnitudes).value, magnitudes)
  {
    assert [f][..0] == [];
  }

  /** The first entry written into an empty dictionary is held by it. */
  lemma FirstEntry(e: Entry, keyName: string, magnitudes: bool)
    requires Shaped(e, magnitudes)
    ensures Holds(Write(map[], keyName, e, magnitudes), map[keyName := e], magnitudes)
  {
    assert Holds(map[], map[], magnitudes) by {
      assert DictKeys(map[]) == {};
    }
    HoldsWrite(map[], map[], keyName, e, magnitudes);
    assert map[][keyName := e] == map[keyName := e];
  }

  // ---------------------------------------------------------------------
  // The output: the ordered list and the master file's name
  // ---------------------------------------------------------------------

  /** `"count" not in item and "sem" not in item`: a substring test. */
  predicate Reported(item: string) {
    !Contains(item, "count") && !Contains(item, "sem")
  }

  /** While the dictionary holds separate entries, the filter drops every
      companion name, and of the entry keys keeps those that contain
      neither word. */
  lemma ReportedKeys(d: map<string, Val>, entries: map<string, Entry>, magnitudes: bool)
    requires Holds(d, entries, magnitudes)
    ensures forall x :: x in d && Reported(x) <==> x in entries && Reported(x)
  {
    CompanionsNotReported(entries);
  }

  lemma CompanionsNotReported(entries: map<string, Entry>)
    ensures forall x :: x in DictKeys(entries) && Reported(x) <==> x in entries && Reported(x)
  {
    forall x | x in DictKeys(entries) && x !in entries
      ensures !Reported(x)
    {
      if x in (set k | k in entries :: k + "_count") {
        var k :| k in entries && x == k + "_count";
        assert x[|x| - 5..] == "_count"[1..] == "count";
        ContainsSuffix(x, "count");
      } else {
        var k :| k in entries && x == k + "_sem";
        assert x[|x| - 3..] == "_sem"[1..] == "sem";
        ContainsSuffix(x, "sem");
      }
    }
  }

  /** An ROI or condition name holding `count` or `sem` (a condition
      called `semantic`, say) keeps its key out of `ordered_list`, and so
      out of the magnitudes output. */
  lemma WordDropsKey(roiName: string, condition: string)
    requires Contains(roiName, "sem") || Contains(roiName, "count") ||
             Contains(condition, "sem") || Contains(condition, "count")
    ensures !Reported(roiName + "_" + condition)
  {
    var w := if Contains(roiName, "sem") || Contains(condition, "sem") then "sem" else "count";
    if Contains(roiName, w) {
      ContainsLeft(roiName, "_", w);
      ContainsLeft(roiName + "_", condition, w);
    } else {
      ContainsRight(roiName + "_", condition, w);
    }
  }

  lemma {:induction false} DistinctCounts(s: seq<string>)
    requires NoDuplicates(s)
    ensures forall x :: multiset(s)[x] <= 1
    decreases |s|
  {
    if |s| > 0 {
      var n := |s| - 1;
      DistinctCounts(s[..n]);
      assert s == s[..n] + [s[n]];
      assert s[n] !in s[..n];
    }
  }

  /** A permutation of a sequence without repeats has none either. */
  lemma PermutationDistinct(s: seq<string>, r: seq<string>)
    requires multiset(r) == multiset(s) && NoDuplicates(s)
    ensures NoDuplicates(r)
  {
    DistinctCounts(s);
    forall i, j | 0 <= i < j < |r|
      ensures r[i] != r[j]
    {
      assert r == r[..i] + [r[i]] + r[i + 1..j] + [r[j]] + r[j + 1..];
      assert multiset(r)[r[i]] >= 1 + (if r[j] == r[i] then 1 else 0);
    }
  }

  /** The `for item in master_list: if ...: ordered_list.append(item)`
      loop, over the keys in whatever order the dictionary yields them. */
  method ReportedOf(keys: set<string>) returns (list: seq<string>)
    ensures forall x :: x in list <==> x in keys && Reported(x)
    ensures NoDuplicates(list)
  {
    var remaining := keys;
    list := [];
    while remaining != {}
      invariant remaining <= keys
      invariant forall x :: x in list <==> x in keys - remaining && Reported(x)
      invariant NoDuplicates(list)
      decreases |remaining|
    {
      var item :| item in remaining;
      if Reported(item) {
        list := list + [item];
      }
      remaining := remaining - {item};
    }
  }

  lemma SameElements(s: seq<string>, r: seq<string>)
    requires multiset(r) == multiset(s)
    ensures forall x :: x in r <==> x in s
  {
    assert forall x :: x in r <==> x in multiset(r);
    assert forall x :: x in s <==> x in multiset(s);
  }

  /** `"master_%s_ROI_%s_file" % (method_ROI, method_type)` */
  function MasterBase(methodRoi: string, methodType: string): string {
    "master_" + methodRoi + "_ROI_" + methodType + "_file"
  }

  /** The paths among `existing` that the glob `pattern` finds. */
  function Globbed(pattern: string, existing: set<string>): set<string> {
    set p | p in existing && Glob.Match(pattern, p)
  }

  /** The path of the master CSV, given the paths that exist: the plain
      name, or when that exists, the name with `_<n>`, n being the number
      of paths the glob `<base>*` finds. */
  function MasterFilePath(folder: string, methodRoi: string, methodType: string, existing: set<string>): string {
    var base := MasterBase(methodRoi, methodType);
    var plain := PathJoin(folder, base + ".csv");
    if plain !in existing then plain
    else
      var existingOutputs := Globbed(PathJoin(folder, base + "*"), existing);
      PathJoin(folder, base + "_" + NatToStr(|existingOutputs|) + ".csv")
  }

  /** The numbered name, `_<i>.csv` after the stem. */
  function Numbered(stem: string, i: nat): string {
    stem + "_" + NatToStr(i) + ".csv"
  }

  /** What `n` consecutive runs leave behind: the plain name and the names
      numbered 1 to n - 1. */
  function Outputs(stem: string, n: nat): set<string>
    decreases n
  {
    if n <= 1 then {stem + ".csv"} else Outputs(stem, n - 1) + {Numbered(stem, n - 1)}
  }

  /** The outputs are the plain name and exactly the names numbered 1 to
      n - 1. */
  lemma {:induction false} OutputsMembers(stem: string, n: nat, x: string)
    ensures x in Outputs(stem, n) <==> x == stem + ".csv" || exists i: nat :: 1 <= i < n && x == Numbered(stem, i)
    decreases n
  {
    if n > 1 {
      OutputsMembers(stem, n - 1, x);
    }
  }

  /** `os.path.join(folder, base + x)` extends `os.path.join(folder, base)`. */
  lemma StemJoin(folder: string, base: string, x: string)
    requires |base| > 0 && base[0] != '/'
    ensures PathJoin(folder, base + x) == PathJoin(folder, base) + x
  {
    assert (base + x)[..1] == [base[0]] && base[..1] == [base[0]];
    assert !StartsWith(base + x, "/") && !StartsWith(base, "/");
    if folder == "" {
    } else if EndsWith(folder, "/") {
      assert folder + (base + x) == (folder + base) + x;
    } else {
      assert folder + "/" + (base + x) == (folder + "/" + base) + x;
    }
  }

  lemma StemStarFree(folder: string, base: string)
    requires Glob.StarFree(folder) && Glob.StarFree(base)
    ensures Glob.StarFree(PathJoin(folder, base))
  {
    assert '*' !in "/";
  }

  /** The choice `MasterFilePath` makes, in terms of the joined stem
      `<folder>/master_<ROI>_ROI_<type>_file`. */
  function NextMaster(stem: string, existing: set<string>): string {
    if stem + ".csv" !in existing then stem + ".csv"
    else Numbered(stem, |Globbed(stem + "*", existing)|)
  }

  lemma MasterFilePathStem(folder: string, methodRoi: string, methodType: string, existing: set<string>)
    ensures MasterFilePath(folder, methodRoi, methodType, existing) ==
            NextMaster(PathJoin(folder, MasterBase(methodRoi, methodType)), existing)
  {
    var base := MasterBase(methodRoi, methodType);
    assert base[0] == 'm';
    var n := |Globbed(PathJoin(folder, base + "*"), existing)|;
    StemJoin(folder, base, ".csv");
    StemJoin(folder, base, "*");
    StemJoin(folder, base, "_" + NatToStr(n) + ".csv");
    assert base + "_" + NatToStr(n) + ".csv" == base + ("_" + NatToStr(n) + ".csv");
    assert Numbered(PathJoin(folder, base), n) == PathJoin(folder, base) + ("_" + NatToStr(n) + ".csv");
  }

  /** Both names start with the stem, so the glob finds them. */
  lemma MasterGlobbed(stem: string, i: nat)
    requires Glob.StarFree(stem)
    ensures Glob.Match(stem + "*", stem + ".csv") && Glob.Match(stem + "*", Numbered(stem, i))
  {
    Glob.MatchLiteralStar(stem, stem + ".csv");
    assert Numbered(stem, i) == stem + ("_" + NatToStr(i) + ".csv");
    Glob.MatchLiteralStar(stem, Numbered(stem, i));
  }

  lemma NumberedInjective(stem: string, i: nat, j: nat)
    requires Numbered(stem, i) == Numbered(stem, j)
    ensures i == j
  {
    var a, b := Numbered(stem, i), Numbered(stem, j);
    assert a[|stem| + 1..|a| - 4] == NatToStr(i);
    assert b[|stem| + 1..|b| - 4] == NatToStr(j);
    ParseNatToStr(i);
    ParseNatToStr(j);
  }

  lemma NumberedNotPlain(stem: string, i: nat)
    ensures Numbered(stem, i) != stem + ".csv"
  {
    assert Numbered(stem, i)[|stem|] == '_';
    assert (stem + ".csv")[|stem|] == '.';
  }

  /** A run adds a name no earlier run of the series left. */
  lemma OutputsNext(stem: string, n: nat)
    requires n >= 1
    ensures Numbered(stem, n) !in Outputs(stem, n)
  {
    NumberedNotPlain(stem, n);
    forall i: nat | 1 <= i < n
      ensures Numbered(stem, i) != Numbered(stem, n)
    {
      if Numbered(stem, i) == Numbered(stem, n) {
        NumberedInjective(stem, i, n);
      }
    }
    OutputsMembers(stem, n, Numbered(stem, n));
  }

  lemma {:induction false} OutputsCount(stem: string, n: nat)
    requires n >= 1
    ensures |Outputs(stem, n)| == n
    decreases n
  {
    if n > 1 {
      OutputsCount(stem, n - 1);
      OutputsNext(stem, n - 1);
    }
  }

  /** The first run writes the plain name and leaves one output behind. */
  lemma MasterFirstRun(stem: string, existing: set<string>)
    requires Glob.StarFree(stem) && Globbed(stem + "*", existing) == {}
    ensures var r := NextMaster(stem, existing);
      r == stem + ".csv" && r !in existing && Globbed(stem + "*", existing + {r}) == Outputs(stem, 1)
  {
    var r := stem + ".csv";
    MasterGlobbed(stem, 0);
    assert r !in existing by {
      assert r !in Globbed(stem + "*", existing);
    }
    assert Outputs(stem, 1) == {r};
    assert Globbed(stem + "*", existing + {r}) == Globbed(stem + "*", existing) + {r};
  }

  /** After n consecutive runs, the next run writes `_<n>`, a path that did
      not exist, and leaves n + 1 outputs behind. */
  lemma MasterNextRun(stem: string, existing: set<string>, n: nat)
    requires n >= 1 && Glob.StarFree(stem) && Globbed(stem + "*", existing) == Outputs(stem, n)
    ensures var r := NextMaster(stem, existing);
      r == Numbered(stem, n) && r !in existing && Globbed(stem + "*", existing + {r}) == Outputs(stem, n + 1)
  {
    OutputsCount(stem, n);
    OutputsNext(stem, n);
    MasterGlobbed(stem, n);
    OutputsMembers(stem, n, stem + ".csv");
  }

  /** A gap left by a deleted output makes a run overwrite the highest
      one: with `base.csv` and `base_2.csv` present, the name chosen is
      `base_2.csv` again. */
  lemma MasterOverwrite(stem: string, existing: set<string>)
    requires Globbed(stem + "*", existing) == {stem + ".csv", Numbered(stem, 2)}
    ensures NextMaster(stem, existing) == Numbered(stem, 2) && Numbered(stem, 2) in existing
  {
    NumberedNotPlain(stem, 2);
    assert stem + ".csv" in Globbed(stem + "*", existing);
  }

  /** The `master_list` dictionary of the tool. */
  class MasterList {
    var contents: map<string, Val>

    constructor ()
      ensures contents == map[]
    {
      contents := map[];
    }

    /** The `if key_name in master_list` step. The tool stops at an error,
        so what the dictionary then holds is never read; the method leaves
        it as it was. */
    method AddReading(keyName: string, actData: seq<real>, magnitudes: bool) returns (error: Option<string>)
      modifies this
      ensures Outcome(contents, error) == AddKey(old(contents), keyName, actData, magnitudes)
      ensures error.Some? ==> contents == old(contents)
    {
      var act := ActVal(actData, magnitudes);
      var countKey := keyName + "_count";
      var semKey := keyName + "_sem";
      if keyName !in contents {
        contents := contents[keyName := act][countKey := Int(1)][semKey := List([act])];
        return None;
      }
      var sum: Result<Val>;
      if magnitudes {
        sum := PyAdd(Some(contents[keyName]), Some(act));
      } else {
        sum := MapAdd(contents[keyName], Floats(actData));
      }
      if sum.Err? {
        return Some(sum.error);
      }
      var next := contents[keyName := sum.value];
      if countKey !in next {
        return Some(KeyError(countKey));
      }
      var count := PyAdd(Some(next[countKey]), Some(Int(1)));
      if count.Err? {
        return Some(count.error);
      }
      next := next[countKey := count.value];
      if semKey !in next {
        return Some(KeyError(semKey));
      }
      if !next[semKey].List? {
        return Some(NoAppend(next[semKey]));
      }
      contents := next[semKey := List(next[semKey].items + [act])];
      error := None;
    }

    /** The loop over the sorted `ROI_conditions` of one key. */
    method ReadCondition(keyName: string, files: seq<SubjectFile>, subjectResults: string, magnitudes: bool)
        returns (error: Option<string>)
      modifies this
      ensures Outcome(contents, error) == ReadFiles(old(contents), keyName, files, subjectResults, magnitudes)
    {
      error := None;
      ghost var start := contents;
      for i := 0 to |files|
        invariant ReadFiles(start, keyName, files[..i], subjectResults, magnitudes) == Ok(contents)
        invariant error == None
      {
        ReadFilesNext(start, keyName, files, i, subjectResults, magnitudes);
        error := ReadSubject(keyName, files[i], subjectResults, magnitudes);
        if error.Some? {
          return;
        }
      }
      assert files[..|files|] == files;
    }

    /** `ordered_list`: the names that hold neither `count` nor `sem`,
        collected from the dictionary and sorted. */
    method OrderedList() returns (ordered: seq<string>)
      ensures Sorting.SortedBy(Sorting.StrLe, ordered)
      ensures forall x :: x in ordered <==> x in contents && Reported(x)
      ensures NoDuplicates(ordered)
    {
      var list := ReportedOf(contents.Keys);
      ordered := Sorting.SortStrings(list);
      PermutationDistinct(list, ordered);
      SameElements(list, ordered);
    }

    /** The loop over `ROI_list` for one folder and condition. */
    method AccumulateRois(folder: string, condition: string, roiList: seq<string>, s: Search)
        returns (error: Option<string>)
      modifies this
      ensures Outcome(contents, error) == ReadRois(old(contents), folder, condition, roiList, s)
    {
      error := None;
      ghost var start := contents;
      for i := 0 to |roiList|
        invariant ReadRois(start, folder, condition, roiList[..i], s) == Ok(contents)
        invariant error == None
      {
        var roi := roiList[i];
        assert roiList[..i + 1][..i] == roiList[..i];
        var roiName: string;
        if s.spherical {
          roiName := DropLast(roi, 4);
        } else {
          roiName := DropLast(roi, 10);
        }
        var roiConditions := s.found(folder, roiName, condition);
        error := ReadCondition(roiName + "_" + condition, roiConditions, s.subjectResults, s.magnitudes);
        if error.Some? {
          ReadRoisErrStays(start, folder, condition, roiList, s, i + 1);
          return;
        }
      }
      assert roiList[..|roiList|] == roiList;
    }

    /** The loop over the conditions of one folder. */
    method AccumulateConditions(folder: string, conditions: seq<string>, roiList: seq<string>, s: Search)
        returns (error: Option<string>)
      modifies this
      ensures Outcome(contents, error) == ReadConditions(old(contents), folder, conditions, roiList, s)
    {
      error := None;
      ghost var start := contents;
      for i := 0 to |conditions|
        invariant ReadConditions(start, folder, conditions[..i], roiList, s) == Ok(contents)
        invariant error == None
      {
        assert conditions[..i + 1][..i] == conditions[..i];
        error := AccumulateRois(folder, conditions[i], roiList, s);
        if error.Some? {
          ReadConditionsErrStays(start, folder, conditions, roiList, s, i + 1);
          return;
        }
      }
      assert conditions[..|conditions|] == conditions;
    }

    /** The loop over `all_GLM_condition_pairs`. */
    method AccumulateFolders(pairs: seq<(string, seq<string>)>, roiList: seq<string>, s: Search)
        returns (error: Option<string>)
      modifies this
      ensures Outcome(contents, error) == ReadFolders(old(contents), pairs, roiList, s)
    {
      error := None;
      ghost var start := contents;
      for i := 0 to |pairs|
        invariant ReadFolders(start, pairs[..i], roiList, s) == Ok(contents)
        invariant error == None
      {
        assert pairs[..i + 1][..i] == pairs[..i];
        error := AccumulateConditions(pairs[i].0, pairs[i].1, roiList, s);
        if error.Some? {
          ReadFoldersErrStays(start, pairs, roiList, s, i + 1);
          return;
        }
      }
      assert pairs[..|pairs|] == pairs;
    }

    /** One pass of the loop over `ROI_conditions`: read one file and add
        its reading under the key. */
    method ReadSubject(keyName: string, subject: SubjectFile, subjectResults: string, magnitudes: bool)
        returns (error: Option<string>)
      modifies this
      ensures Outcome(contents, error) == ReadFile(old(contents), keyName, subject, subjectResults, magnitudes)
      ensures error.Some? ==> contents == old(contents)
    {
      var act := SubjectReading(subject, subjectResults, magnitudes);
      if act.Err? {
        return Some(act.error);
      }
      error := AddReading(keyName, act.value, magnitudes);
    }
  }
  /** The subject number and `act_data` of one file: the split at
      `<subject_results>/subj.` needs a second piece, and a magnitudes file
      needs a first line. */
  method SubjectReading(subject: SubjectFile, subjectResults: string, magnitudes: bool) returns (act: Result<seq<real>>)
    ensures act == if !Contains(subject.path, PathJoin(subjectResults, "subj.")) then Err(NoIndex)
                   else Reading(subject, magnitudes)
  {
    if !Contains(subject.path, PathJoin(subjectResults, "subj.")) {
      return Err(NoIndex);
    }
    if magnitudes {
      if |subject.values| == 0 {
        return Err(NoIndex);
      }
      act := Ok([subject.values[0]]);
    } else {
      act := Ok(subject.values);
    }
  }

  /** One more file read: its step decides the outcome, and a failing
      step is the outcome of the whole loop. */
  lemma ReadFilesNext(d: map<string, Val>, keyName: string, files: seq<SubjectFile>, i: nat, subjectResults: string,
                      magnitudes: bool)
    requires i < |files| && ReadFiles(d, keyName, files[..i], subjectResults, magnitudes).Ok?
    ensures var before := ReadFiles(d, keyName, files[..i], subjectResults, magnitudes).value;
      var step := ReadFile(before, keyName, files[i], subjectResults, magnitudes);
      && (step.Ok? ==> ReadFiles(d, keyName, files[..i + 1], subjectResults, magnitudes) == step)
      && (step.Err? ==> ReadFiles(d, keyName, files, subjectResults, magnitudes) == step)
  {
    assert files[..i + 1][..i] == files[..i];
    var before := ReadFiles(d, keyName, files[..i], subjectResults, magnitudes).value;
    if ReadFile(before, keyName, files[i], subjectResults, magnitudes).Err? {
      ReadFilesErrStays(d, keyName, files, subjectResults, magnitudes, i + 1);
    }
  }

  /** The dictionary, or the error that stopped the tool. */
  function Outcome(d: map<string, Val>, error: Option<string>): Result<map<string, Val>> {
    if error.Some? then Err(error.value) else Ok(d)
  }

  /** An error while reading stops the loop with that error. */
  lemma {:induction false} ReadFilesErrStays(d: map<string, Val>, keyName: string, files: seq<SubjectFile>,
                                             subjectResults: string, magnitudes: bool, n: nat)
    requires n <= |files| && ReadFiles(d, keyName, files[..n], subjectResults, magnitudes).Err?
    ensures ReadFiles(d, keyName, files, subjectResults, magnitudes) ==
            ReadFiles(d, keyName, files[..n], subjectResults, magnitudes)
    decreases |files| - n
  {
    if n == |files| {
      assert files[..n] == files;
    } else {
      assert files[..n + 1][..n] == files[..n];
      ReadFilesErrStays(d, keyName, files, subjectResults, magnitudes, n + 1);
    }
  }
}
