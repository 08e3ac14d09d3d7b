/** `create_AFNI_timing_files`: from a participant's BIDS events files it
    writes one AFNI timing file per analysis level (RT covariate, run type,
    duration, event and confidence), with one line per run. */
module TimingFiles {
  import opened Wrappers
  import opened PyStr

  /** The order in which runs go into the timing files. */
  const TaskOrder: seq<string> :=
    ["encoding1", "retrieval1a", "retrieval1b", "encoding2", "retrieval2a", "retrieval2b",
     "encoding3", "retrieval3a", "retrieval3b"]

  /** The value written for the RT of a trial without a response. */
  const Tr: string := "1.1"

  // ---------------------------------------------------------------------
  // Ordering the events files
  // ---------------------------------------------------------------------

  /** The files whose path contains `task`, in listing order. */
  function Matching(task: string, files: seq<string>): (r: seq<string>)
    decreases |files|
  {
    if |files| == 0 then []
    else if Contains(Last(files), task) then Matching(task, files[..|files| - 1]) + [Last(files)]
    else Matching(task, files[..|files| - 1])
  }

  /** For each task in turn, the files that contain it. */
  function OrderedBy(tasks: seq<string>, files: seq<string>): seq<string>
    decreases |tasks|
  {
    if |tasks| == 0 then [] else OrderedBy(tasks[..|tasks| - 1], files) + Matching(Last(tasks), files)
  }

  /** How many of `tasks` the path contains. */
  function TaskHits(x: string, tasks: seq<string>): nat
    decreases |tasks|
  {
    if |tasks| == 0 then 0
    else TaskHits(x, tasks[..|tasks| - 1]) + (if Contains(x, Last(tasks)) then 1 else 0)
  }

  /** The nested loop that builds `events_files_ordered`. */
  method OrderEventsFiles(eventsFiles: seq<string>) returns (ordered: seq<string>)
    ensures ordered == OrderedBy(TaskOrder, eventsFiles)
  {
    ordered := [];
    for t := 0 to |TaskOrder|
      invariant ordered == OrderedBy(TaskOrder[..t], eventsFiles)
    {
      assert TaskOrder[..t + 1][..t] == TaskOrder[..t];
      ghost var before := ordered;
      for i := 0 to |eventsFiles|
        invariant ordered == before + Matching(TaskOrder[t], eventsFiles[..i])
      {
        assert eventsFiles[..i + 1][..i] == eventsFiles[..i];
        if Contains(eventsFiles[i], TaskOrder[t]) {
          ordered := ordered + [eventsFiles[i]];
        }
      }
      assert eventsFiles[..|eventsFiles|] == eventsFiles;
    }
    assert TaskOrder[..|TaskOrder|] == TaskOrder;
  }

  lemma {:induction false} MatchingCount(task: string, files: seq<string>, x: string)
    ensures multiset(Matching(task, files))[x] == if Contains(x, task) then multiset(files)[x] else 0
    decreases |files|
  {
    if |files| > 0 {
      MatchingCount(task, files[..|files| - 1], x);
      assert files == files[..|files| - 1] + [Last(files)];
    }
  }

  /** A file appears once for every task name it contains: once if it
      names one task, never if it names none. */
  lemma {:induction false} OrderedCount(tasks: seq<string>, files: seq<string>, x: string)
    ensures multiset(OrderedBy(tasks, files))[x] == multiset(files)[x] * TaskHits(x, tasks)
    decreases |tasks|
  {
    if |tasks| > 0 {
      var front := tasks[..|tasks| - 1];
      OrderedCount(front, files, x);
      MatchingCount(Last(tasks), files, x);
      var m, h := multiset(files)[x], TaskHits(x, front);
      var hit := if Contains(x, Last(tasks)) then 1 else 0;
      assert multiset(OrderedBy(tasks, files))[x] ==
             multiset(OrderedBy(front, files))[x] + multiset(Matching(Last(tasks), files))[x];
      assert TaskHits(x, tasks) == h + hit;
      MulAdd(m, h, hit);
    }
  }

  lemma MulAdd(m: nat, h: nat, k: nat)
    ensures m * (h + k) == m * h + m * k
  {
  }

  /** The ordered list keeps exactly the files that name some task. */
  lemma OrderedMembers(files: seq<string>, x: string)
    ensures x in OrderedBy(TaskOrder, files) <==> x in files && TaskHits(x, TaskOrder) > 0
  {
    OrderedCount(TaskOrder, files, x);
    var m, h := multiset(files)[x], TaskHits(x, TaskOrder);
    assert m * h > 0 <==> m > 0 && h > 0;
  }

  /** Runs come in task order: every file matching an earlier task comes
      before every file matching a later one. */
  lemma {:induction false} OrderedGroups(tasks: seq<string>, files: seq<string>, k: nat)
    requires k <= |tasks|
    ensures OrderedBy(tasks[..k], files) <= OrderedBy(tasks, files)
    decreases |tasks|
  {
    if k < |tasks| {
      var front := tasks[..|tasks| - 1];
      assert front[..k] == tasks[..k];
      OrderedGroups(front, files, k);
    } else {
      assert tasks[..k] == tasks;
    }
  }

  // ---------------------------------------------------------------------
  // Analysis levels and file names
  // ---------------------------------------------------------------------

  datatype RtLevel = WithRt | NoRt
  datatype TypeLevel = AllTypes | Encoding | Retrieval
  datatype DurationLevel = AllRuns | Short1 | Short2 | BothShort | Long
  datatype EventLevel = AllEvents | Hit | Miss | Cr | Fa
  datatype ConfLevel = AllConf | High | Mod | Low | ModLow

  /** One iteration of the five nested level loops. */
  datatype Combo = Combo(rt: RtLevel, kind: TypeLevel, duration: DurationLevel, event: EventLevel, conf: ConfLevel)

  function RtText(l: RtLevel): string {
    match l
    case WithRt => "rt"
    case NoRt => "nort"
  }

  function TypeText(l: TypeLevel): string {
    match l
    case AllTypes => "all"
    case Encoding => "encoding"
    case Retrieval => "retrieval"
  }

  function DurationText(l: DurationLevel): string {
    match l
    case AllRuns => "allruns"
    case Short1 => "short1"
    case Short2 => "short2"
    case BothShort => "bothshort"
    case Long => "long"
  }

  function EventText(l: EventLevel): string {
    match l
    case AllEvents => "allevents"
    case Hit => "hit"
    case Miss => "miss"
    case Cr => "cr"
    case Fa => "fa"
  }

  function ConfText(l: ConfLevel): string {
    match l
    case AllConf => "all"
    case High => "high"
    case Mod => "mod"
    case Low => "low"
    case ModLow => "modlow"
  }

  function RtIndex(l: RtLevel): (i: nat)
    ensures i < 2
  {
    match l
    case WithRt => 0
    case NoRt => 1
  }

  function TypeIndex(l: TypeLevel): (i: nat)
    ensures i < 3
  {
    match l
    case AllTypes => 0
    case Encoding => 1
    case Retrieval => 2
  }

  function DurationIndex(l: DurationLevel): (i: nat)
    ensures i < 5
  {
    match l
    case AllRuns => 0
    case Short1 => 1
    case Short2 => 2
    case BothShort => 3
    case Long => 4
  }

  function EventIndex(l: EventLevel): (i: nat)
    ensures i < 5
  {
    match l
    case AllEvents => 0
    case Hit => 1
    case Miss => 2
    case Cr => 3
    case Fa => 4
  }

  function ConfIndex(l: ConfLevel): (i: nat)
    ensures i < 5
  {
    match l
    case AllConf => 0
    case High => 1
    case Mod => 2
    case Low => 3
    case ModLow => 4
  }

  /** The number of level combinations the nested loops visit. */
  const ComboCount: nat := 750

  /** The position of a combination in the order of the nested loops
      (`rt_level` outermost, `conf_level` innermost). */
  function Rank(c: Combo): (r: nat)
    ensures r < ComboCount
  {
    (((RtIndex(c.rt) * 3 + TypeIndex(c.kind)) * 5 + DurationIndex(c.duration)) * 5 + EventIndex(c.event)) * 5 +
    ConfIndex(c.conf)
  }

  /** The combination at a loop position. */
  function Unrank(r: nat): Combo
    requires r < ComboCount
  {
    var q1 := r / 5;
    var q2 := q1 / 5;
    var q3 := q2 / 5;
    Combo(RtAt(q3 / 3), TypeAt(q3 % 3), DurationAt(q2 % 5), EventAt(q1 % 5), ConfAt(r % 5))
  }

  function RtAt(i: nat): (l: RtLevel)
    requires i < 2
    ensures RtIndex(l) == i
  {
    if i == 0 then WithRt else NoRt
  }

  function TypeAt(i: nat): (l: TypeLevel)
    requires i < 3
    ensures TypeIndex(l) == i
  {
    if i == 0 then AllTypes else if i == 1 then Encoding else Retrieval
  }

  function DurationAt(i: nat): (l: DurationLevel)
    requires i < 5
    ensures DurationIndex(l) == i
  {
    if i == 0 then AllRuns else if i == 1 then Short1 else if i == 2 then Short2 else if i == 3 then BothShort else Long
  }

  function EventAt(i: nat): (l: EventLevel)
    requires i < 5
    ensures EventIndex(l) == i
  {
    if i == 0 then AllEvents else if i == 1 then Hit else if i == 2 then Miss else if i == 3 then Cr else Fa
  }

  function ConfAt(i: nat): (l: ConfLevel)
    requires i < 5
    ensures ConfIndex(l) == i
  {
    if i == 0 then AllConf else if i == 1 then High else if i == 2 then Mod else if i == 3 then Low else ModLow
  }

  /** Each combination has exactly one position: the loop visits every
      combination once. */
  lemma UnrankRank(c: Combo)
    ensures Unrank(Rank(c)) == c
  {
    var r := Rank(c);
    RankDigits(r, RtIndex(c.rt), TypeIndex(c.kind), DurationIndex(c.duration), EventIndex(c.event), ConfIndex(c.conf));
    UnrankDigits(r);
    LevelsAtIndex(c);
  }

  /** The digits of a position in the mixed base of the five loops. */
  lemma RankDigits(r: nat, a: nat, b: nat, d: nat, e: nat, f: nat)
    requires a < 2 && b < 3 && d < 5 && e < 5 && f < 5
    requires r == (((a * 3 + b) * 5 + d) * 5 + e) * 5 + f
    ensures r / 5 / 5 / 5 / 3 == a && r / 5 / 5 / 5 % 3 == b && r / 5 / 5 % 5 == d && r / 5 % 5 == e && r % 5 == f
  {
    var q3 := a * 3 + b;
    var q2 := q3 * 5 + d;
    var q1 := q2 * 5 + e;
    Digit5(q1, f);
    Digit5(q2, e);
    Digit5(q3, d);
    Digit3(a, b);
  }

  /** The components of `Unrank(r)`, digit by digit. */
  lemma UnrankDigits(r: nat)
    requires r < ComboCount
    ensures Unrank(r) == Combo(RtAt(r / 5 / 5 / 5 / 3), TypeAt(r / 5 / 5 / 5 % 3), DurationAt(r / 5 / 5 % 5),
                               EventAt(r / 5 % 5), ConfAt(r % 5))
  {
  }

  /** Each level is found again at its own index. */
  lemma LevelsAtIndex(c: Combo)
    ensures RtAt(RtIndex(c.rt)) == c.rt && TypeAt(TypeIndex(c.kind)) == c.kind
    ensures DurationAt(DurationIndex(c.duration)) == c.duration
    ensures EventAt(EventIndex(c.event)) == c.event && ConfAt(ConfIndex(c.conf)) == c.conf
  {
  }

  /** Each position holds a different combination. */
  lemma RankUnrank(r: nat)
    requires r < ComboCount
    ensures Rank(Unrank(r)) == r
  {
    var q1 := r / 5;
    var q2 := q1 / 5;
    var q3 := q2 / 5;
    var c := Unrank(r);
    assert RtIndex(c.rt) == q3 / 3 && TypeIndex(c.kind) == q3 % 3;
    assert DurationIndex(c.duration) == q2 % 5 && EventIndex(c.event) == q1 % 5 && ConfIndex(c.conf) == r % 5;
    assert q3 == (q3 / 3) * 3 + q3 % 3;
    assert q2 == q3 * 5 + q2 % 5;
    assert q1 == q2 * 5 + q1 % 5;
    assert r == q1 * 5 + r % 5;
  }

  /** One digit of a number in base 5, and in base 3. */
  lemma Digit5(q: nat, d: nat)
    requires d < 5
    ensures (q * 5 + d) / 5 == q && (q * 5 + d) % 5 == d
  {
  }

  lemma Digit3(q: nat, d: nat)
    requires d < 3
    ensures (q * 3 + d) / 3 == q && (q * 3 + d) % 3 == d
  {
  }

  /** The `continue` for encoding runs with CR or FA events. */
  predicate Skipped(c: Combo) {
    c.kind == Encoding && (c.event == Cr || c.event == Fa)
  }

  /** The parts of a timing file name after the participant. */
  function NameFields(c: Combo): seq<string> {
    [TypeText(c.kind), DurationText(c.duration), EventText(c.event), ConfText(c.conf) + "conf", RtText(c.rt) + ".txt"]
  }

  /** `sub-<prefix><id>_<type>_<duration>_<event>_<conf>conf_<rt>.txt`. The
      script also has a branch for names without the confidence part, but
      its test (`conf_level == 'all'`) compares the list of levels with a
      string, which is never true, so it is not part of the model. */
  function TimingFileName(idPrefix: string, participant: string, c: Combo): string {
    "sub-" + idPrefix + participant + "_" + TypeText(c.kind) + "_" + DurationText(c.duration) + "_" +
    EventText(c.event) + "_" + ConfText(c.conf) + "conf_" + RtText(c.rt) + ".txt"
  }

  lemma NameJoin(idPrefix: string, participant: string, c: Combo)
    ensures TimingFileName(idPrefix, participant, c) == "sub-" + idPrefix + participant + "_" + Join(NameFields(c), "_")
  {
    var t, du, ev, cf, rt := TypeText(c.kind), DurationText(c.duration), EventText(c.event), ConfText(c.conf) + "conf",
                             RtText(c.rt) + ".txt";
    JoinFive(t, du, ev, cf, rt, "_");
    NameAssoc("sub-" + idPrefix + participant + "_", t, du, ev, ConfText(c.conf), RtText(c.rt));
  }

  /** The file name, regrouped around its `_`-separated fields. */
  lemma NameAssoc(head: string, t: string, du: string, ev: string, cf: string, rt: string)
    ensures head + t + "_" + du + "_" + ev + "_" + cf + "conf_" + rt + ".txt" ==
            head + (t + "_" + du + "_" + ev + "_" + (cf + "conf") + "_" + (rt + ".txt"))
  {
    assert "conf_" == "conf" + "_";
  }

  lemma JoinFive(a: string, b: string, c: string, d: string, e: string, sep: string)
    ensures Join([a, b, c, d, e], sep) == a + sep + b + sep + c + sep + d + sep + e
  {
    assert [a, b, c, d, e][1..] == [b, c, d, e];
    assert [b, c, d, e][1..] == [c, d, e];
    assert [c, d, e][1..] == [d, e];
    assert [d, e][1..] == [e];
    assert Join([d, e], sep) == d + sep + e;
    assert Join([c, d, e], sep) == c + sep + (d + sep + e);
    assert Join([b, c, d, e], sep) == b + sep + (c + sep + (d + sep + e));
  }

  lemma NameParts(c: Combo)
    ensures Split(Join(NameFields(c), "_"), '_') == NameFields(c)
  {
    var parts := NameFields(c);
    assert forall k :: 0 <= k < |parts| ==> '_' !in parts[k];
    SplitJoin(parts, '_');
  }

  /** Different combinations write to different files, so no timing file is
      ever shared by two analyses. */
  lemma NamesDistinct(idPrefix: string, participant: string, c: Combo, d: Combo)
    requires TimingFileName(idPrefix, participant, c) == TimingFileName(idPrefix, participant, d)
    ensures c == d
  {
    var head := "sub-" + idPrefix + participant + "_";
    var x, y := Join(NameFields(c), "_"), Join(NameFields(d), "_");
    NameJoin(idPrefix, participant, c);
    NameJoin(idPrefix, participant, d);
    assert x == (head + x)[|head|..];
    assert x == y;
    NameParts(c);
    NameParts(d);
    FieldsDistinct(c, d);
  }

  lemma FieldsDistinct(c: Combo, d: Combo)
    requires NameFields(c) == NameFields(d)
    ensures c == d
  {
    var fc, fd := NameFields(c), NameFields(d);
    assert fc[0] == fd[0] && fc[1] == fd[1] && fc[2] == fd[2] && fc[3] == fd[3] && fc[4] == fd[4];
    DropSuffix(ConfText(c.conf), ConfText(d.conf), "conf");
    DropSuffix(RtText(c.rt), RtText(d.rt), ".txt");
    TextsDistinct(c, d);
  }

  lemma DropSuffix(a: string, b: string, suffix: string)
    requires a + suffix == b + suffix
    ensures a == b
  {
    assert a == (a + suffix)[..|a|];
    assert b == (b + suffix)[..|b|];
  }

  /** The text of each level names that level alone. */
  lemma TextsDistinct(c: Combo, d: Combo)
    requires RtText(c.rt) == RtText(d.rt) && TypeText(c.kind) == TypeText(d.kind)
    requires DurationText(c.duration) == DurationText(d.duration) && EventText(c.event) == EventText(d.event)
    requires ConfText(c.conf) == ConfText(d.conf)
    ensures c == d
  {
    RtTextDistinct(c.rt, d.rt);
    TypeTextDistinct(c.kind, d.kind);
    DurationTextDistinct(c.duration, d.duration);
    EventTextDistinct(c.event, d.event);
    ConfTextDistinct(c.conf, d.conf);
  }

  lemma RtTextDistinct(a: RtLevel, b: RtLevel)
    requires RtText(a) == RtText(b)
    ensures a == b
  {
  }

  lemma TypeTextDistinct(a: TypeLevel, b: TypeLevel)
    requires TypeText(a) == TypeText(b)
    ensures a == b
  {
  }

  lemma DurationTextDistinct(a: DurationLevel, b: DurationLevel)
    requires DurationText(a) == DurationText(b)
    ensures a == b
  {
  }

  lemma EventTextDistinct(a: EventLevel, b: EventLevel)
    requires EventText(a) == EventText(b)
    ensures a == b
  {
  }

  lemma ConfTextDistinct(a: ConfLevel, b: ConfLevel)
    requires ConfText(a) == ConfText(b)
    ensures a == b
  {
  }

  /** The confidence part is always present, `allconf` included. */
  lemma NameAlwaysHasConf(idPrefix: string, participant: string, c: Combo)
    ensures Contains(TimingFileName(idPrefix, participant, c), "_" + ConfText(c.conf) + "conf_")
  {
    var n := TimingFileName(idPrefix, participant, c);
    var front := "sub-" + idPrefix + participant + "_" + TypeText(c.kind) + "_" + DurationText(c.duration) + "_" +
                 EventText(c.event);
    var mid := "_" + ConfText(c.conf) + "conf_";
    assert n == front + mid + (RtText(c.rt) + ".txt");
    assert n[|front|..|front| + |mid|] == mid;
    assert OccursAt(n, mid, |front|);
  }
  // ---------------------------------------------------------------------
  // Finding the events files
  // ---------------------------------------------------------------------

  /** The `func` folder of a participant, in one session or in none. */
  function FuncFolder(folder: string, idPrefix: string, participant: string, session: Option<nat>): string {
    match session
    case None => folder + "/sub-" + idPrefix + participant + "/func"
    case Some(n) => folder + "/sub-" + idPrefix + participant + "/ses-0" + NatToStr(n) + "/func"
  }

  function EventsPattern(funcFolder: string): string {
    funcFolder + "/*events.tsv"
  }

  /** The events files of sessions `1..n`, session by session, each in the
      order `listing` (the directory listing behind `glob.glob`) gives. */
  function SessionFiles(folder: string, idPrefix: string, participant: string, n: nat,
                        listing: string -> seq<string>): seq<string>
    decreases n
  {
    if n == 0 then []
    else SessionFiles(folder, idPrefix, participant, n - 1, listing) +
         listing(EventsPattern(FuncFolder(folder, idPrefix, participant, Some(n))))
  }

  function EventsFiles(numberOfSessions: nat, multiSession: bool, folder: string, idPrefix: string,
                       participant: string, listing: string -> seq<string>): seq<string>
  {
    if multiSession then SessionFiles(folder, idPrefix, participant, numberOfSessions, listing)
    else listing(EventsPattern(FuncFolder(folder, idPrefix, participant, None)))
  }

  /** The loop over sessions (or the single folder) that collects
      `events_files`. */
  method CollectEventsFiles(numberOfSessions: nat, multiSession: bool, folder: string, idPrefix: string,
                            participant: string, listing: string -> seq<string>)
    returns (eventsFiles: seq<string>)
    ensures eventsFiles == EventsFiles(numberOfSessions, multiSession, folder, idPrefix, participant, listing)
  {
    if multiSession {
      eventsFiles := [];
      for session := 1 to numberOfSessions + 1
        invariant eventsFiles == SessionFiles(folder, idPrefix, participant, session - 1, listing)
      {
        var funcFolder := FuncFolder(folder, idPrefix, participant, Some(session));
        eventsFiles := eventsFiles + listing(EventsPattern(funcFolder));
      }
    } else {
      var funcFolder := FuncFolder(folder, idPrefix, participant, None);
      eventsFiles := listing(EventsPattern(funcFolder));
    }
  }

  /** A file is collected exactly when some session folder lists it. */
  lemma {:induction false} SessionFilesFrom(folder: string, idPrefix: string, participant: string, n: nat,
                                            listing: string -> seq<string>, x: string)
    ensures x in SessionFiles(folder, idPrefix, participant, n, listing) <==>
            exists s :: 1 <= s <= n && x in listing(EventsPattern(FuncFolder(folder, idPrefix, participant, Some(s))))
    decreases n
  {
    if n > 0 {
      var here := listing(EventsPattern(FuncFolder(folder, idPrefix, participant, Some(n))));
      SessionFilesFrom(folder, idPrefix, participant, n - 1, listing, x);
      assert SessionFiles(folder, idPrefix, participant, n, listing) ==
             SessionFiles(folder, idPrefix, participant, n - 1, listing) + here;
    }
  }

  // ---------------------------------------------------------------------
  // The task name of an events file
  // ---------------------------------------------------------------------

  /** `split[5:]` of the last piece that contains `task-`, if any. */
  function LastTaskPiece(pieces: seq<string>): (r: Option<string>)
    decreases |pieces|
  {
    if |pieces| == 0 then None
    else if Contains(Last(pieces), "task-") then Some(Drop(Last(pieces), 5))
    else LastTaskPiece(pieces[..|pieces| - 1])
  }

  /** The task name in effect after a file: its own, or else the one
      `task_name` still holds from an earlier file. */
  function TaskAfter(previous: Option<string>, file: string): Option<string> {
    match LastTaskPiece(Split(file, '_'))
    case Some(t) => Some(t)
    case None => previous
  }

  /** The loop over `file.split("_")` that sets `task_name`. */
  method ReadTaskName(file: string, taskName: Option<string>) returns (r: Option<string>)
    ensures r == TaskAfter(taskName, file)
  {
    var splits := Split(file, '_');
    r := taskName;
    for i := 0 to |splits|
      invariant r == match LastTaskPiece(splits[..i]) case Some(t) => Some(t) case None => taskName
    {
      assert splits[..i + 1][..i] == splits[..i];
      if Contains(splits[i], "task-") {
        r := Some(Drop(splits[i], 5));
      }
    }
    assert splits[..|splits|] == splits;
  }

  /** The task name in effect for each file in turn, or `None` when the
      first file has no `task-` piece (the script then fails with a
      `UnboundLocalError`). */
  function Tasks(files: seq<string>): (r: Option<seq<string>>)
    ensures r.Some? ==> |r.value| == |files|
    decreases |files|
  {
    if |files| == 0 then Some([])
    else
      match Tasks(files[..|files| - 1])
      case None => None
      case Some(ts) =>
        var previous := if |ts| == 0 then None else Some(Last(ts));
        match TaskAfter(previous, Last(files))
        case None => None
        case Some(t) => Some(ts + [t])
  }

  /** The script fails only when the first file names no task. */
  lemma {:induction false} TasksFail(files: seq<string>)
    ensures Tasks(files).None? <==> |files| > 0 && LastTaskPiece(Split(files[0], '_')).None?
    decreases |files|
  {
    if |files| > 1 {
      var front := files[..|files| - 1];
      TasksFail(front);
      assert front[0] == files[0];
    }
  }

  /** A BIDS file name such as `sub-01_task-encoding1_events.tsv`, in a
      folder whose path holds no `_`, gives its task. */
  lemma TaskOfBidsName(dir: string, task: string, tail: string)
    requires '_' !in dir && '_' !in task && '_' !in tail
    requires !Contains(tail, "task-")
    ensures LastTaskPiece(Split(dir + "_task-" + task + "_" + tail, '_')) == Some(task)
  {
    var piece := "task-" + task;
    assert dir + "_task-" + task + "_" + tail == dir + "_" + piece + "_" + tail;
    NoSepConcat("task-", task, '_');
    ThreePieces(dir, piece, tail, '_');
    var pieces := [dir, piece, tail];
    assert pieces[..2][..1] == [dir];
    assert OccursAt(piece, "task-", 0);
    assert Drop(piece, 5) == task;
    assert LastTaskPiece(pieces[..2]) == Some(task);
  }

  lemma NoSepConcat(a: string, b: string, sep: char)
    requires sep !in a && sep !in b
    ensures sep !in a + b
  {
  }

  lemma ThreePieces(a: string, b: string, c: string, sep: char)
    requires sep !in a && sep !in b && sep !in c
    ensures Split(a + [sep] + b + [sep] + c, sep) == [a, b, c]
  {
    assert a + [sep] + b + [sep] + c == a + [sep] + (b + [sep] + c);
    SplitAtSep(a, b + [sep] + c, sep);
    SplitAtSep(b, c, sep);
    SplitNoSep(c, sep);
  }

  // ---------------------------------------------------------------------
  // One line of a timing file
  // ---------------------------------------------------------------------

  /** The columns of the events file the script reads. */
  datatype EventRecord = EventRecord(onset: string, responseRt: string, responseType: string,
                                     responseTypeConf: string, subsequentType: string,
                                     subsequentTypeConf: string, filename: string)

  /** What the script needs beyond the files: the participant, how an
      events file reads as records, and `str(round(float(x), 4))`. */
  datatype Setting = Setting(idPrefix: string, participant: string, read: string -> seq<EventRecord>,
                             round4: string -> string)

  /** The `*` cases: a run type or duration the task does not have. */
  predicate Applicable(task: string, c: Combo) {
    (c.kind == AllTypes || Contains(task, TypeText(c.kind))) &&
    match c.duration
    case AllRuns => true
    case Short1 => Contains(task, "1")
    case Short2 => Contains(task, "3")
    case BothShort => Contains(task, "1") || Contains(task, "3")
    case Long => Contains(task, "2")
  }

  /** The item participant 014 never saw at retrieval. */
  predicate Omitted(participant: string, e: EventRecord) {
    e.filename == "outdoor_cebu_tops.jpg" && participant == "014"
  }

  /** Whether a trial belongs to the event and confidence level. For `all`
      events every trial does, whatever the confidence level. */
  predicate Selected(c: Combo, e: EventRecord) {
    var ev := EventText(c.event);
    if c.event == AllEvents then true
    else if c.conf == AllConf then ev == e.responseType || ev == e.subsequentType
    else if c.conf == ModLow then
      (Contains(e.responseTypeConf, ev) && (Contains(e.responseTypeConf, "mod") || Contains(e.responseTypeConf, "low"))) ||
      (Contains(e.subsequentTypeConf, ev) && (Contains(e.subsequentTypeConf, "mod") || Contains(e.subsequentTypeConf, "low")))
    else ev + "-" + ConfText(c.conf) == e.responseTypeConf || ev + "-" + ConfText(c.conf) == e.subsequentTypeConf
  }

  predicate Picked(participant: string, c: Combo, e: EventRecord) {
    !Omitted(participant, e) && Selected(c, e)
  }

  /** The onset, and with the RT covariate `*<rt>` (or `*<tr>` without a
      response), then a space. */
  function EventEntry(rt: RtLevel, e: EventRecord, round4: string -> string): string {
    round4(e.onset) + (if rt == WithRt then "*" + (if e.responseRt != "n/a" then round4(e.responseRt) else Tr) + " " else " ")
  }

  /** The entries of the picked trials, in file order. */
  function EventsText(participant: string, c: Combo, events: seq<EventRecord>, round4: string -> string): string
    decreases |events|
  {
    if |events| == 0 then ""
    else
      EventsText(participant, c, events[..|events| - 1], round4) +
      (if Picked(participant, c, Last(events)) then EventEntry(c.rt, Last(events), round4) else "")
  }

  function PickedCount(participant: string, c: Combo, events: seq<EventRecord>): nat
    decreases |events|
  {
    if |events| == 0 then 0
    else PickedCount(participant, c, events[..|events| - 1]) + (if Picked(participant, c, Last(events)) then 1 else 0)
  }

  /** The line a run adds to the file of a combination (without its `\n`):
      `*` when the run does not apply, `-1` (with `*<tr>` for the RT
      covariate) when it applies but has no such trial, else the entries. */
  function RunLine(task: string, participant: string, c: Combo, events: seq<EventRecord>, round4: string -> string): string {
    if !Applicable(task, c) then "*"
    else if PickedCount(participant, c, events) == 0 then "-1" + (if c.rt == WithRt then "*" + Tr else "")
    else EventsText(participant, c, events, round4)
  }

  lemma {:induction false} NothingPicked(participant: string, c: Combo, events: seq<EventRecord>, round4: string -> string)
    requires PickedCount(participant, c, events) == 0
    ensures EventsText(participant, c, events, round4) == ""
    decreases |events|
  {
    if |events| > 0 {
      NothingPicked(participant, c, events[..|events| - 1], round4);
    }
  }

  /** Every entry ends with a space, so a line of entries does too. */
  lemma {:induction false} EventsTextEndsWithSpace(participant: string, c: Combo, events: seq<EventRecord>,
                                                   round4: string -> string)
    requires PickedCount(participant, c, events) > 0
    ensures var t := EventsText(participant, c, events, round4); |t| > 0 && t[|t| - 1] == ' '
    decreases |events|
  {
    var front := events[..|events| - 1];
    if !Picked(participant, c, Last(events)) {
      EventsTextEndsWithSpace(participant, c, front, round4);
    }
  }

  /** A line is `*` exactly when the run does not fit the type or the
      duration level. */
  lemma RunLineStar(task: string, participant: string, c: Combo, events: seq<EventRecord>, round4: string -> string)
    ensures RunLine(task, participant, c, events, round4) == "*" <==> !Applicable(task, c)
  {
    if Applicable(task, c) && PickedCount(participant, c, events) > 0 {
      EventsTextEndsWithSpace(participant, c, events, round4);
    }
  }

  /** The trials that count for the line: all but the omitted item. */
  function Kept(participant: string, events: seq<EventRecord>): seq<EventRecord>
    decreases |events|
  {
    if |events| == 0 then []
    else Kept(participant, events[..|events| - 1]) + (if Omitted(participant, Last(events)) then [] else [Last(events)])
  }

  lemma {:induction false} KeptMembers(participant: string, events: seq<EventRecord>)
    ensures forall e :: e in Kept(participant, events) <==> e in events && !Omitted(participant, e)
    decreases |events|
  {
    if |events| > 0 {
      var front := events[..|events| - 1];
      KeptMembers(participant, front);
      assert events == front + [Last(events)];
    }
  }

  /** Removing the omitted item from the events file beforehand changes no
      line. */
  lemma {:induction false} OmittedIgnored(participant: string, c: Combo, events: seq<EventRecord>,
                                          round4: string -> string)
    ensures EventsText(participant, c, Kept(participant, events), round4) == EventsText(participant, c, events, round4)
    ensures PickedCount(participant, c, Kept(participant, events)) == PickedCount(participant, c, events)
    decreases |events|
  {
    if |events| > 0 {
      var front, e := events[..|events| - 1], Last(events);
      OmittedIgnored(participant, c, front, round4);
      var k := Kept(participant, front);
      if Omitted(participant, e) {
        assert k + [] == k;
        assert EventsText(participant, c, front, round4) + "" == EventsText(participant, c, front, round4);
      } else {
        assert (k + [e])[..|k|] == k;
      }
    }
  }

  /** For participants other than 014 every trial counts. */
  lemma {:induction false} KeptAll(participant: string, events: seq<EventRecord>)
    requires participant != "014"
    ensures Kept(participant, events) == events
    decreases |events|
  {
    if |events| > 0 {
      var front := events[..|events| - 1];
      KeptAll(participant, front);
      assert events == front + [Last(events)];
    }
  }

  /** The `if loop_event_level == ...` step that writes one trial's entry. */
  method AppendEvent(text: string, rt: RtLevel, item: EventRecord, round4: string -> string) returns (r: string)
    ensures r == text + EventEntry(rt, item, round4)
  {
    r := text + round4(item.onset);
    if rt == WithRt {
      if item.responseRt != "n/a" {
        r := r + ("*" + round4(item.responseRt) + " ");
      } else {
        r := r + ("*" + Tr + " ");
      }
    } else {
      r := r + " ";
    }
  }

  /** The body of the innermost loop for one combination and one run: the
      `*` checks, the loop over trials with `event_counter`, and the `-1`. */
  method RunText(task: string, participant: string, c: Combo, events: seq<EventRecord>, round4: string -> string)
    returns (line: string)
    ensures line == RunLine(task, participant, c, events, round4)
  {
    if c.kind != AllTypes && !Contains(task, TypeText(c.kind)) {
      return "*";
    }
    if c.duration == Short1 && !Contains(task, "1") {
      return "*";
    }
    if c.duration == Short2 && !Contains(task, "3") {
      return "*";
    }
    if c.duration == BothShort && !(Contains(task, "1") || Contains(task, "3")) {
      return "*";
    }
    if c.duration == Long && !Contains(task, "2") {
      return "*";
    }
    var eventCounter := 0;
    line := "";
    for i := 0 to |events|
      invariant line == EventsText(participant, c, events[..i], round4)
      invariant eventCounter == 0 <==> PickedCount(participant, c, events[..i]) == 0
    {
      assert events[..i + 1][..i] == events[..i];
      var item := events[i];
      if item.filename == "outdoor_cebu_tops.jpg" && participant == "014" {
        continue;
      }
      var ev := EventText(c.event);
      if c.event == AllEvents {
        line := AppendEvent(line, c.rt, item, round4);
        eventCounter := eventCounter + 1;
      } else if c.conf == AllConf {
        if ev == item.responseType || ev == item.subsequentType {
          line := AppendEvent(line, c.rt, item, round4);
          eventCounter := eventCounter + 1;
          eventCounter := eventCounter + 1;
        }
      } else if c.conf == ModLow {
        var rtc, stc := item.responseTypeConf, item.subsequentTypeConf;
        if (Contains(rtc, ev) && (Contains(rtc, "mod") || Contains(rtc, "low"))) ||
           (Contains(stc, ev) && (Contains(stc, "mod") || Contains(stc, "low"))) {
          line := AppendEvent(line, c.rt, item, round4);
          eventCounter := eventCounter + 1;
        }
      } else {
        var level := ev + "-" + ConfText(c.conf);
        if level == item.responseTypeConf || level == item.subsequentTypeConf {
          line := AppendEvent(line, c.rt, item, round4);
          eventCounter := eventCounter + 1;
        }
      }
    }
    assert events[..|events|] == events;
    if eventCounter == 0 {
      NothingPicked(participant, c, events, round4);
      line := line + "-1";
      if c.rt == WithRt {
        line := line + "*" + Tr;
      }
    }
  }
  // ---------------------------------------------------------------------
  // The onsets folder
  // ---------------------------------------------------------------------

  /** The text of a file in the folder; `""` for one that does not exist
      yet, which `open(..., 'w')` creates. */
  function TextOf(m: map<string, string>, name: string): string {
    if name in m then m[name] else ""
  }

  /** Every combination in the order of the nested loops. */
  function ComboOrder(): (r: seq<Combo>)
    ensures |r| == ComboCount
  {
    seq(ComboCount, i requires 0 <= i < ComboCount => Unrank(i))
  }

  /** The folder after each of `combos` in turn, unless skipped, has added
      its line for one run to its file. */
  function RunsOver(m: map<string, string>, st: Setting, task: string, events: seq<EventRecord>, combos: seq<Combo>)
    : map<string, string>
    decreases |combos|
  {
    if |combos| == 0 then m
    else
      var prev := RunsOver(m, st, task, events, combos[..|combos| - 1]);
      var c := Last(combos);
      if Skipped(c) then prev
      else
        var name := TimingFileName(st.idPrefix, st.participant, c);
        prev[name := TextOf(prev, name) + RunLine(task, st.participant, c, events, st.round4) + "\n"]
  }

  /** The folder after the ordered events files, with the task in effect
      for each, have been processed (starting from the emptied folder),
      each run visiting the combinations in `order`. */
  function Written(files: seq<string>, tasks: seq<string>, st: Setting, order: seq<Combo>): map<string, string>
    requires |tasks| == |files|
    decreases |files|
  {
    if |files| == 0 then map[]
    else
      RunsOver(Written(files[..|files| - 1], tasks[..|tasks| - 1], st, order), st, Last(tasks), st.read(Last(files)),
               order)
  }

  lemma RunsOverSnoc(m: map<string, string>, st: Setting, task: string, events: seq<EventRecord>,
                     combos: seq<Combo>, c: Combo)
    ensures var prev, name := RunsOver(m, st, task, events, combos), TimingFileName(st.idPrefix, st.participant, c);
            RunsOver(m, st, task, events, combos + [c]) ==
            if Skipped(c) then prev
            else prev[name := TextOf(prev, name) + RunLine(task, st.participant, c, events, st.round4) + "\n"]
  {
    assert (combos + [c])[..|combos|] == combos;
  }

  const NoTaskName := "UnboundLocalError: local variable 'task_name' referenced before assignment"

  /** What processing the ordered events files leaves in the folder, or the
      error the script stops with. */
  function Outcome(ordered: seq<string>, st: Setting, order: seq<Combo>): Result<map<string, string>> {
    match Tasks(ordered)
    case None => Err(NoTaskName)
    case Some(ts) => Ok(Written(ordered, ts, st, order))
  }

  /** The first combination of `order` the level loops do not skip. */
  function FirstOpened(order: seq<Combo>): (r: Option<Combo>)
    ensures r.Some? ==> r.value in order && !Skipped(r.value)
    decreases |order|
  {
    if |order| == 0 then None
    else if !Skipped(order[0]) then Some(order[0])
    else FirstOpened(order[1..])
  }

  /** The folder a run leaves when `task_name` was never set: the level
      loops open the first combination's file (creating it empty when it is
      absent), and reading `task_name` before the first write raises. */
  function Opened(m: map<string, string>, st: Setting, order: seq<Combo>): map<string, string> {
    match FirstOpened(order)
    case None => m
    case Some(c) =>
      var name := TimingFileName(st.idPrefix, st.participant, c);
      m[name := TextOf(m, name)]
  }

  /** The first combination of the nested loops is written. */
  lemma FirstOpenedInLoopOrder()
    ensures FirstOpened(ComboOrder()) == Some(Combo(WithRt, AllTypes, AllRuns, AllEvents, AllConf))
  {
    var order := ComboOrder();
    assert order[0] == Unrank(0);
  }

  /** On the task-name error the emptied folder ends up holding one empty
      file, the one for `rt`, `all`, `allruns`, `allevents`, `all`. */
  lemma FailedRunLeavesOneFile(st: Setting)
    ensures Opened(map[], st, ComboOrder()) ==
            map["sub-" + st.idPrefix + st.participant + "_all_allruns_allevents_allconf_rt.txt" := ""]
  {
    var c := Combo(WithRt, AllTypes, AllRuns, AllEvents, AllConf);
    FirstOpenedInLoopOrder();
    OpenedFirst(st, ComboOrder(), c);
    FirstFileName(st.idPrefix, st.participant);
  }

  lemma OpenedFirst(st: Setting, order: seq<Combo>, c: Combo)
    requires FirstOpened(order) == Some(c)
    ensures Opened(map[], st, order) == map[TimingFileName(st.idPrefix, st.participant, c) := ""]
  {
  }

  lemma FirstFileName(idPrefix: string, participant: string)
    ensures TimingFileName(idPrefix, participant, Combo(WithRt, AllTypes, AllRuns, AllEvents, AllConf)) ==
            "sub-" + idPrefix + participant + "_all_allruns_allevents_allconf_rt.txt"
  {
  }

  /** The onsets folder: the name and text of every file in it. */
  class OnsetsFolder {
    var files: map<string, string>

    constructor (initial: map<string, string>)
      ensures files == initial
    {
      files := initial;
    }

    /** The `os.listdir` / `os.remove` loop that empties the folder. */
    method Clear()
      modifies this
      ensures files == map[]
    {
      var oldOnsetFiles := files.Keys;
      while oldOnsetFiles != {}
        invariant files.Keys == oldOnsetFiles
        decreases oldOnsetFiles
      {
        var f :| f in oldOnsetFiles;
        files := files - {f};
        oldOnsetFiles := oldOnsetFiles - {f};
      }
      assert files == map[];
    }

    /** Opening a timing file (`'a'` if it exists, else `'w'`) and writing
        `text` to it. */
    method Append(name: string, text: string)
      modifies this
      ensures files == old(files)[name := TextOf(old(files), name) + text]
    {
      if name in files {
        files := files[name := files[name] + text];
      } else {
        assert "" + text == text;
        files := files[name := text];
      }
    }

    /** The five nested level loops for one run, flattened into one loop
        over the combinations in their loop order: every combination except
        the skipped ones adds its line to its file. */
    method WriteCombinations(st: Setting, task: string, events: seq<EventRecord>, combos: seq<Combo>)
      modifies this
      ensures files == RunsOver(old(files), st, task, events, combos)
    {
      ghost var m0 := files;
      for r := 0 to |combos|
        invariant files == RunsOver(m0, st, task, events, combos[..r])
      {
        var c := combos[r];
        assert combos[..r + 1] == combos[..r] + [c];
        RunsOverSnoc(m0, st, task, events, combos[..r], c);
        WriteCombination(st, task, events, c);
      }
      assert combos[..|combos|] == combos;
    }

    /** One iteration of the innermost level loop: unless the combination is
        skipped, open its file and write its line for the run. */
    method WriteCombination(st: Setting, task: string, events: seq<EventRecord>, c: Combo)
      modifies this
      ensures var name := TimingFileName(st.idPrefix, st.participant, c);
              files == if Skipped(c) then old(files)
                       else old(files)[name := TextOf(old(files), name) +
                                               RunLine(task, st.participant, c, events, st.round4) + "\n"]
    {
      if Skipped(c) {
        return;
      }
      var outputFile := TimingFileName(st.idPrefix, st.participant, c);
      var line := RunText(task, st.participant, c, events, st.round4);
      Append(outputFile, line + "\n");
      assert TextOf(old(files), outputFile) + (line + "\n") == TextOf(old(files), outputFile) + line + "\n";
    }

    /** `create_AFNI_timing_files`: collect and order the events files,
        empty the folder, then add one line per run to every timing file. */
    method CreateTimingFiles(numberOfSessions: nat, multiSession: bool, folder: string,
                             listing: string -> seq<string>, st: Setting)
      returns (r: Result<()>)
      modifies this
      ensures var ordered := OrderedBy(TaskOrder, EventsFiles(numberOfSessions, multiSession, folder, st.idPrefix,
                                                             st.participant, listing));
              match Outcome(ordered, st, ComboOrder())
              case Ok(m) => r == Ok(()) && files == m
              case Err(e) => r == Err(e) &&
                             files == map["sub-" + st.idPrefix + st.participant + "_all_allruns_allevents_allconf_rt.txt" := ""]
    {
      FailedRunLeavesOneFile(st);
      var eventsFiles := CollectEventsFiles(numberOfSessions, multiSession, folder, st.idPrefix, st.participant, listing);
      Clear();
      var ordered := OrderEventsFiles(eventsFiles);
      r := ProcessEventsFiles(ordered, st, ComboOrder());
    }

    /** The loop over the ordered events files, starting from the emptied
        folder. */
    method ProcessEventsFiles(ordered: seq<string>, st: Setting, order: seq<Combo>) returns (r: Result<()>)
      requires files == map[]
      modifies this
      ensures match Outcome(ordered, st, order)
              case Ok(m) => r == Ok(()) && files == m
              case Err(e) => r == Err(e) && files == Opened(map[], st, order)
    {
      var taskName: Option<string> := None;
      ghost var tasks: seq<string> := [];
      for i := 0 to |ordered|
        invariant Tasks(ordered[..i]) == Some(tasks)
        invariant taskName == if i == 0 then None else Some(Last(tasks))
        invariant files == Written(ordered[..i], tasks, st, order)
      {
        assert ordered[..i + 1] == ordered[..i] + [ordered[i]];
        TasksStep(ordered[..i], ordered[i], tasks);
        taskName := ProcessFile(st, order, ordered[i], taskName);
        if taskName.None? {
          TasksFail(ordered[..1]);
          TasksFail(ordered);
          return Err(NoTaskName);
        }
        WrittenStep(ordered[..i], tasks, ordered[i], taskName.value, st, order);
        tasks := tasks + [taskName.value];
      }
      assert ordered[..|ordered|] == ordered;
      r := Ok(());
    }

    /** One iteration of the loop over the events files: read the task name,
        then, if there is one, write a line for this run to every file. */
    method ProcessFile(st: Setting, order: seq<Combo>, file: string, taskName: Option<string>)
      returns (next: Option<string>)
      modifies this
      ensures next == TaskAfter(taskName, file)
      ensures files == if next.None? then Opened(old(files), st, order)
                       else RunsOver(old(files), st, next.value, st.read(file), order)
    {
      next := ReadTaskName(file, taskName);
      if next.Some? {
        WriteCombinations(st, next.value, st.read(file), order);
      } else {
        OpenFirst(st, order);
      }
    }

    /** The level loops with `task_name` unset: they run up to the first
        combination not skipped, open its file with `'a'` or `'w'`, and
        stop with the `UnboundLocalError` of the first read of
        `task_name`, before anything is written. */
    method OpenFirst(st: Setting, order: seq<Combo>)
      modifies this
      ensures files == Opened(old(files), st, order)
    {
      for r := 0 to |order|
        invariant FirstOpened(order) == FirstOpened(order[r..])
        invariant files == old(files)
      {
        assert order[r..][0] == order[r] && order[r..][1..] == order[r + 1..];
        if !Skipped(order[r]) {
          var outputFile := TimingFileName(st.idPrefix, st.participant, order[r]);
          Append(outputFile, "");
          assert TextOf(old(files), outputFile) + "" == TextOf(old(files), outputFile);
          return;
        }
      }
      assert order[|order|..] == [];
    }
  }

  lemma TasksStep(files: seq<string>, f: string, ts: seq<string>)
    requires Tasks(files) == Some(ts)
    ensures Tasks(files + [f]) ==
            match TaskAfter(if |ts| == 0 then None else Some(Last(ts)), f)
            case None => None
            case Some(t) => Some(ts + [t])
  {
    assert (files + [f])[..|files|] == files;
  }

  lemma WrittenStep(files: seq<string>, ts: seq<string>, f: string, t: string, st: Setting, order: seq<Combo>)
    requires |ts| == |files|
    ensures Written(files + [f], ts + [t], st, order) == RunsOver(Written(files, ts, st, order), st, t, st.read(f), order)
  {
    assert (files + [f])[..|files|] == files;
    assert (ts + [t])[..|ts|] == ts;
  }

  // ---------------------------------------------------------------------
  // What ends up in the timing files
  // ---------------------------------------------------------------------

  /** The files a run writes: one per combination that is not skipped. */
  function NamesOf(st: Setting, combos: seq<Combo>): set<string> {
    set c | c in combos && !Skipped(c) :: TimingFileName(st.idPrefix, st.participant, c)
  }

  /** An order of the combinations that visits every one of them, each
      once. */
  ghost predicate VisitsEachOnce(order: seq<Combo>) {
    (forall c :: c in order) && forall i, j :: 0 <= i < j < |order| ==> order[i] != order[j]
  }

  /** The loops visit every combination, each once. */
  lemma ComboOrderExact()
    ensures VisitsEachOnce(ComboOrder())
  {
    forall c ensures c in ComboOrder() {
      UnrankRank(c);
      assert ComboOrder()[Rank(c)] == c;
    }
    forall i, j | 0 <= i < j < ComboCount ensures ComboOrder()[i] != ComboOrder()[j] {
      RankUnrank(i);
      RankUnrank(j);
    }
  }

  /** The file of a combination gets its line if the combination is among
      those visited, once since none is visited twice. */
  lemma {:induction false} RunsOverText(m: map<string, string>, st: Setting, task: string, events: seq<EventRecord>,
                                        combos: seq<Combo>, c: Combo)
    requires !Skipped(c)
    requires forall i, j :: 0 <= i < j < |combos| ==> combos[i] != combos[j]
    ensures TextOf(RunsOver(m, st, task, events, combos), TimingFileName(st.idPrefix, st.participant, c)) ==
            TextOf(m, TimingFileName(st.idPrefix, st.participant, c)) +
            (if c in combos then RunLine(task, st.participant, c, events, st.round4) + "\n" else "")
    decreases |combos|
  {
    var name := TimingFileName(st.idPrefix, st.participant, c);
    if |combos| == 0 {
      assert TextOf(m, name) + "" == TextOf(m, name);
    } else {
      var front, d := combos[..|combos| - 1], Last(combos);
      assert combos == front + [d];
      assert forall i, j :: 0 <= i < j < |front| ==> front[i] == combos[i] && front[j] == combos[j];
      RunsOverText(m, st, task, events, front, c);
      RunsOverSnoc(m, st, task, events, front, d);
      var prev := RunsOver(m, st, task, events, front);
      var nd := TimingFileName(st.idPrefix, st.participant, d);
      if Skipped(d) {
        assert c in combos <==> c in front;
      } else {
        TextOfUpdate(prev, nd, TextOf(prev, nd) + RunLine(task, st.participant, d, events, st.round4) + "\n", name);
        if nd == name {
          NamesDistinct(st.idPrefix, st.participant, d, c);
          assert c !in front;
          var line := RunLine(task, st.participant, c, events, st.round4);
          assert TextOf(prev, name) == TextOf(m, name) + "" == TextOf(m, name);
          assert TextOf(m, name) + line + "\n" == TextOf(m, name) + (line + "\n");
        } else {
          assert c in combos <==> c in front;
        }
      }
    }
  }

  lemma TextOfUpdate(m: map<string, string>, key: string, text: string, name: string)
    ensures TextOf(m[key := text], name) == if key == name then text else TextOf(m, name)
  {
  }

  /** A run adds exactly the names of the combinations visited. */
  lemma {:induction false} RunsOverKeys(m: map<string, string>, st: Setting, task: string, events: seq<EventRecord>,
                                        combos: seq<Combo>)
    ensures RunsOver(m, st, task, events, combos).Keys == m.Keys + NamesOf(st, combos)
    decreases |combos|
  {
    if |combos| > 0 {
      var front := combos[..|combos| - 1];
      RunsOverKeys(m, st, task, events, front);
      var c := Last(combos);
      assert combos == front + [c];
      var extra := if Skipped(c) then {} else {TimingFileName(st.idPrefix, st.participant, c)};
      assert NamesOf(st, combos) == NamesOf(st, front) + extra;
    }
  }

  /** Exactly the combinations that are not skipped have a file. */
  lemma AllNamesExactly(st: Setting, order: seq<Combo>, c: Combo)
    requires forall d :: d in order
    ensures TimingFileName(st.idPrefix, st.participant, c) in NamesOf(st, order) <==> !Skipped(c)
  {
    var name := TimingFileName(st.idPrefix, st.participant, c);
    if name in NamesOf(st, order) {
      var d :| d in order && !Skipped(d) && TimingFileName(st.idPrefix, st.participant, d) == name;
      NamesDistinct(st.idPrefix, st.participant, d, c);
    }
  }

  /** The lines a combination's file gets, one per ordered events file. */
  function FileLines(files: seq<string>, tasks: seq<string>, st: Setting, c: Combo): (r: seq<string>)
    requires |tasks| == |files|
    ensures |r| == |files|
    decreases |files|
  {
    if |files| == 0 then []
    else
      FileLines(files[..|files| - 1], tasks[..|tasks| - 1], st, c) +
      [RunLine(Last(tasks), st.participant, c, st.read(Last(files)), st.round4)]
  }

  /** Each timing file holds one line per run, in run order. */
  lemma {:induction false} WrittenText(files: seq<string>, tasks: seq<string>, st: Setting, order: seq<Combo>,
                                       c: Combo)
    requires |tasks| == |files| && !Skipped(c) && VisitsEachOnce(order)
    ensures TextOf(Written(files, tasks, st, order), TimingFileName(st.idPrefix, st.participant, c)) ==
            Terminated(FileLines(files, tasks, st, c), "\n")
    decreases |files|
  {
    if |files| > 0 {
      var front, ft := files[..|files| - 1], tasks[..|tasks| - 1];
      WrittenText(front, ft, st, order, c);
      RunsOverText(Written(front, ft, st, order), st, Last(tasks), st.read(Last(files)), order, c);
    }
  }

  /** Once there is a run, the folder holds exactly the generated files. */
  lemma {:induction false} WrittenKeys(files: seq<string>, tasks: seq<string>, st: Setting, order: seq<Combo>)
    requires |tasks| == |files|
    ensures Written(files, tasks, st, order).Keys == if |files| == 0 then {} else NamesOf(st, order)
    decreases |files|
  {
    if |files| > 0 {
      var front, ft := files[..|files| - 1], tasks[..|tasks| - 1];
      WrittenKeys(front, ft, st, order);
      RunsOverKeys(Written(front, ft, st, order), st, Last(tasks), st.read(Last(files)), order);
    }
  }

  /** `str(round(...))` never yields a line break. */
  ghost predicate RoundsOnOneLine(round4: string -> string) {
    forall x :: '\n' !in round4(x) && '\r' !in round4(x)
  }

  lemma {:induction false} EventsTextOneLine(participant: string, c: Combo, events: seq<EventRecord>,
                                             round4: string -> string)
    requires RoundsOnOneLine(round4)
    ensures forall ch :: ch in EventsText(participant, c, events, round4) ==> !IsLineBreak(ch)
    decreases |events|
  {
    if |events| > 0 {
      EventsTextOneLine(participant, c, events[..|events| - 1], round4);
      var e := Last(events);
      assert '\n' !in round4(e.onset) && '\r' !in round4(e.onset);
      assert '\n' !in round4(e.responseRt) && '\r' !in round4(e.responseRt);
    }
  }

  lemma {:induction false} FileLinesOneLine(files: seq<string>, tasks: seq<string>, st: Setting, c: Combo)
    requires |tasks| == |files| && RoundsOnOneLine(st.round4)
    ensures forall k :: 0 <= k < |files| ==> forall ch :: ch in FileLines(files, tasks, st, c)[k] ==> !IsLineBreak(ch)
    decreases |files|
  {
    if |files| > 0 {
      FileLinesOneLine(files[..|files| - 1], tasks[..|tasks| - 1], st, c);
      EventsTextOneLine(st.participant, c, st.read(Last(files)), st.round4);
    }
  }

  /** The outcome of the script, for any order of the level loops that
      visits each combination once (the script's own order does, by
      `ComboOrderExact`): with at least one run the folder holds exactly the
      650 generated files (never one for CR or FA at encoding), and reading
      each file back line by line gives one line per run. */
  lemma TimingFilesContent(ordered: seq<string>, st: Setting, order: seq<Combo>, c: Combo)
    requires Outcome(ordered, st, order).Ok? && RoundsOnOneLine(st.round4) && VisitsEachOnce(order)
    ensures var m, ts := Outcome(ordered, st, order).value, Tasks(ordered).value;
            var name := TimingFileName(st.idPrefix, st.participant, c);
            (name in m <==> |ordered| > 0 && !Skipped(c)) &&
            (!Skipped(c) ==> SplitLines(TextOf(m, name)) == FileLines(ordered, ts, st, c))
  {
    var ts := Tasks(ordered).value;
    assert Outcome(ordered, st, order).value == Written(ordered, ts, st, order);
    WrittenFiles(ordered, ts, st, order, c);
    if !Skipped(c) {
      WrittenLines(ordered, ts, st, order, c);
    }
  }

  /** The folder holds a combination's file exactly when there was a run
      and the combination is not skipped. */
  lemma WrittenFiles(files: seq<string>, ts: seq<string>, st: Setting, order: seq<Combo>, c: Combo)
    requires |ts| == |files| && VisitsEachOnce(order)
    ensures TimingFileName(st.idPrefix, st.participant, c) in Written(files, ts, st, order) <==>
            |files| > 0 && !Skipped(c)
  {
    WrittenKeys(files, ts, st, order);
    AllNamesExactly(st, order, c);
  }

  /** Read back line by line, a combination's file gives its run lines. */
  lemma WrittenLines(files: seq<string>, ts: seq<string>, st: Setting, order: seq<Combo>, c: Combo)
    requires |ts| == |files| && VisitsEachOnce(order) && !Skipped(c) && RoundsOnOneLine(st.round4)
    ensures SplitLines(TextOf(Written(files, ts, st, order), TimingFileName(st.idPrefix, st.participant, c))) ==
            FileLines(files, ts, st, c)
  {
    WrittenText(files, ts, st, order, c);
    FileLinesOneLine(files, ts, st, c);
    SplitLinesTerminated(FileLines(files, ts, st, c));
  }
}
