/** Validating a bundle of captured runs, and combining single-mode bundles: exactly when the
    result is accepted again. */
module BundleCombine {
  import opened Results
  import opened EvidenceFiles
  import opened ProductGate
  import opened RunReading

  datatype InputWindow = InputWindow(mode: Mode, window: Window)

  datatype Bundle = Bundle(schema: int, revision: string, clean: bool, optedIn: bool, header: Window,
                           runs: seq<Run>, inputs: Option<seq<InputWindow>>)

  // ---- validating a bundle ----

  predicate IsRevision(s: string) {
    |s| == 40 && forall i :: 0 <= i < |s| ==> '0' <= s[i] <= '9' || 'a' <= s[i] <= 'f'
  }

  predicate Ordered(w: Window) {
    0.0 < w.started <= w.finished
  }

  predicate Inside(w: Window, header: Window) {
    0.0 < w.started && header.started <= w.started <= w.finished <= header.finished
  }

  predicate SameModes(runs: seq<Run>, required: seq<Mode>) {
    && |runs| == |required|
    && (forall i :: 0 <= i < |runs| ==> runs[i].mode in required)
    && forall mode :: mode in required ==> exists i :: 0 <= i < |runs| && runs[i].mode == mode
  }

  predicate DistinctModes(modes: seq<Mode>) {
    forall i, j :: 0 <= i < j < |modes| ==> modes[i] != modes[j]
  }

  predicate HeaderSound(b: Bundle, revision: string, required: seq<Mode>) {
    && IsRevision(revision) && required != [] && DistinctModes(required)
    && b.schema == 1 && b.revision == revision && b.clean && b.optedIn && Ordered(b.header)
    && SameModes(b.runs, required)
  }

  predicate InputsSound(b: Bundle, required: seq<Mode>) {
    b.inputs.None? ||
    (&& |b.inputs.value| == |b.runs|
     && (forall i :: 0 <= i < |b.inputs.value| ==>
         b.inputs.value[i].mode in required && Inside(b.inputs.value[i].window, b.header))
     && forall i, j :: 0 <= i < j < |b.inputs.value| ==> b.inputs.value[i].mode != b.inputs.value[j].mode)
  }

  function FirstWindow(inputs: seq<InputWindow>, mode: Mode): Option<Window> {
    if inputs == [] then None
    else if inputs[0].mode == mode then Some(inputs[0].window)
    else FirstWindow(inputs[1..], mode)
  }

  /** The run's own window when the bundle keeps one, else the bundle's. */
  function WindowFor(b: Bundle, mode: Mode): Window {
    if b.inputs.None? || FirstWindow(b.inputs.value, mode).None? then b.header
    else FirstWindow(b.inputs.value, mode).value
  }

  function Judged(c: Codec, judge: Judge, dir: Directory, b: Bundle, run: Run): Option<string> {
    judge(run, b.revision, WindowFor(b, run.mode), ViewOf(c, dir, run))
  }

  predicate Passes(c: Codec, judge: Judge, dir: Directory, b: Bundle, revision: string, required: seq<Mode>) {
    && HeaderSound(b, revision, required) && InputsSound(b, required)
    && AllPass(c, judge, dir, b, b.runs)
  }

  predicate AllPass(c: Codec, judge: Judge, dir: Directory, b: Bundle, runs: seq<Run>) {
    forall i :: 0 <= i < |runs| ==> Judged(c, judge, dir, b, runs[i]).Some?
  }

  /** The results of the runs that pass, in order. */
  function Verdicts(c: Codec, judge: Judge, dir: Directory, b: Bundle, runs: seq<Run>): seq<string>
    decreases |runs|
  {
    if runs == [] then []
    else
      var last := Judged(c, judge, dir, b, runs[|runs| - 1]);
      Verdicts(c, judge, dir, b, runs[..|runs| - 1]) + if last.Some? then [last.value] else []
  }

  lemma {:induction false} VerdictsNext(c: Codec, judge: Judge, dir: Directory, b: Bundle, runs: seq<Run>, i: nat)
    requires i < |runs|
    ensures Verdicts(c, judge, dir, b, runs[..i + 1])
         == Verdicts(c, judge, dir, b, runs[..i])
          + if Judged(c, judge, dir, b, runs[i]).Some? then [Judged(c, judge, dir, b, runs[i]).value] else []
    ensures AllPass(c, judge, dir, b, runs[..i + 1]) <==>
            AllPass(c, judge, dir, b, runs[..i]) && Judged(c, judge, dir, b, runs[i]).Some?
  {
    var all := runs[..i + 1];
    assert all[..i] == runs[..i] && all[i] == runs[i];
    forall k | 0 <= k < i
      ensures all[k] == runs[..i][k]
    {
    }
  }

  lemma {:induction false} FirstWindowIs(inputs: seq<InputWindow>, i: nat)
    requires i < |inputs| && forall j, k :: 0 <= j < k < |inputs| ==> inputs[j].mode != inputs[k].mode
    ensures FirstWindow(inputs, inputs[i].mode) == Some(inputs[i].window)
    decreases |inputs|
  {
    if i > 0 {
      FirstWindowIs(inputs[1..], i - 1);
    }
  }

  lemma {:induction false} NoFirstWindow(inputs: seq<InputWindow>, mode: Mode)
    requires forall i :: 0 <= i < |inputs| ==> inputs[i].mode != mode
    ensures FirstWindow(inputs, mode).None?
    decreases |inputs|
  {
    if inputs != [] {
      NoFirstWindow(inputs[1..], mode);
    }
  }

  /** The input windows by mode, if each is known, inside the header and named once. */
  method ReadWindows(b: Bundle, required: seq<Mode>) returns (r: Result<map<Mode, Window>>)
    ensures r.Ok? <==> InputsSound(b, required)
    ensures r.Ok? ==> forall mode ::
              (if mode in r.value then r.value[mode] else b.header) == WindowFor(b, mode)
  {
    var windows: map<Mode, Window> := map[];
    if b.inputs.None? {
      return Ok(windows);
    }
    var inputs := b.inputs.value;
    if |inputs| != |b.runs| {
      return Err;
    }
    for k := 0 to |inputs|
      invariant forall i :: 0 <= i < k ==> inputs[i].mode in required && Inside(inputs[i].window, b.header)
      invariant forall i, j :: 0 <= i < j < k ==> inputs[i].mode != inputs[j].mode
      invariant forall i :: 0 <= i < k ==> inputs[i].mode in windows && windows[inputs[i].mode] == inputs[i].window
      invariant forall mode :: mode in windows ==> exists i :: 0 <= i < k && inputs[i].mode == mode
    {
      var input := inputs[k];
      if input.mode !in required || input.mode in windows || !Inside(input.window, b.header) {
        return Err;
      }
      windows := windows[input.mode := input.window];
    }
    forall mode
      ensures (if mode in windows then windows[mode] else b.header) == WindowFor(b, mode)
    {
      if mode in windows {
        var i :| 0 <= i < |inputs| && inputs[i].mode == mode;
        FirstWindowIs(inputs, i);
      } else {
        NoFirstWindow(inputs, mode);
      }
    }
    return Ok(windows);
  }

  method ValidateBundle(c: Codec, judge: Judge, dir: Directory, b: Bundle, revision: string, required: seq<Mode>)
    returns (passed: bool, results: seq<string>)
    ensures passed <==> Passes(c, judge, dir, b, revision, required)
    ensures passed ==> results == Verdicts(c, judge, dir, b, b.runs)
  {
    passed, results := true, [];
    if !HeaderSound(b, revision, required) {
      return false, [];
    }
    var windows := ReadWindows(b, required);
    if windows.Err? {
      return false, [];
    }
    for i := 0 to |b.runs|
      invariant results == Verdicts(c, judge, dir, b, b.runs[..i])
      invariant passed <==> AllPass(c, judge, dir, b, b.runs[..i])
    {
      var run := b.runs[i];
      VerdictsNext(c, judge, dir, b, b.runs, i);
      var window := if run.mode in windows.value then windows.value[run.mode] else b.header;
      assert window == WindowFor(b, run.mode);
      var result := judge(run, b.revision, window, ViewOf(c, dir, run));
      assert result == Judged(c, judge, dir, b, run);
      if result.Some? {
        results := results + [result.value];
      } else {
        passed := false;
      }
    }
    assert b.runs[..|b.runs|] == b.runs;
  }

  // ---- combining ----

  datatype Input = Input(dir: Directory, bundle: Bundle)

  datatype Gather = Gather(runs: seq<Run>, windows: seq<Window>, files: Directory)

  const NOTHING := Gather([], [], map[])

  predicate HasMode(runs: seq<Run>, mode: Mode) {
    exists i :: 0 <= i < |runs| && runs[i].mode == mode
  }

  predicate Compatible(c: Codec, files: Directory, found: Directory) {
    forall name :: name in found && name in files ==> c.digest(files[name]) == c.digest(found[name])
  }

  predicate Takes(c: Codec, judge: Judge, revision: string, g: Gather, input: Input) {
    && input.bundle.revision == revision && |input.bundle.runs| == 1
    && !HasMode(g.runs, input.bundle.runs[0].mode)
    && Passes(c, judge, input.dir, input.bundle, revision, [input.bundle.runs[0].mode])
    && Collected(c, input.dir, input.bundle.runs[0]).Some?
    && Compatible(c, g.files, Collected(c, input.dir, input.bundle.runs[0]).value)
  }

  function Take(c: Codec, g: Gather, input: Input): Gather
    requires |input.bundle.runs| == 1 && Collected(c, input.dir, input.bundle.runs[0]).Some?
  {
    var run := input.bundle.runs[0];
    Gather(g.runs + [run], g.windows + [WindowFor(input.bundle, run.mode)],
           g.files + Collected(c, input.dir, run).value)
  }

  function GatherAll(c: Codec, judge: Judge, revision: string, inputs: seq<Input>): Option<Gather>
    decreases |inputs|
  {
    if inputs == [] then Some(NOTHING)
    else
      var before, last := GatherAll(c, judge, revision, inputs[..|inputs| - 1]), inputs[|inputs| - 1];
      if before.Some? && Takes(c, judge, revision, before.value, last) then Some(Take(c, before.value, last)) else None
  }

  function OfMode(runs: seq<Run>, mode: Mode): seq<Run>
    decreases |runs|
  {
    if runs == [] then []
    else OfMode(runs[..|runs| - 1], mode) + if runs[|runs| - 1].mode == mode then [runs[|runs| - 1]] else []
  }

  function Earliest(windows: seq<Window>): real
    requires windows != []
    decreases |windows|
  {
    if |windows| == 1 then windows[0].started
    else
      var before, last := Earliest(windows[..|windows| - 1]), windows[|windows| - 1].started;
      if last < before then last else before
  }

  function Latest(windows: seq<Window>): real
    requires windows != []
    decreases |windows|
  {
    if |windows| == 1 then windows[0].finished
    else
      var before, last := Latest(windows[..|windows| - 1]), windows[|windows| - 1].finished;
      if last > before then last else before
  }

  function Zipped(runs: seq<Run>, windows: seq<Window>): (inputs: seq<InputWindow>)
    requires |runs| == |windows|
    ensures |inputs| == |runs|
  {
    seq(|runs|, i requires 0 <= i < |runs| => InputWindow(runs[i].mode, windows[i]))
  }

  /** The merged bundle: the runs by mode, the union of the windows, and each run's own window kept. */
  function Merged(g: Gather, revision: string): Bundle
    requires |g.runs| == |g.windows| && g.windows != []
  {
    Bundle(1, revision, true, true, Window(Earliest(g.windows), Latest(g.windows)),
           OfMode(g.runs, DL) + OfMode(g.runs, LL), Some(Zipped(g.runs, g.windows)))
  }

  method GatherInputs(c: Codec, judge: Judge, revision: string, inputs: seq<Input>) returns (r: Result<Gather>)
    ensures r == match GatherAll(c, judge, revision, inputs) case Some(g) => Ok(g) case None => Err
  {
    var g := NOTHING;
    for i := 0 to |inputs|
      invariant GatherAll(c, judge, revision, inputs[..i]) == Some(g)
    {
      assert inputs[..i + 1][..i] == inputs[..i];
      var taken := TakeInput(c, judge, revision, g, inputs[i]);
      if taken.Err? {
        GatherFails(c, judge, revision, inputs, i + 1);
        return Err;
      }
      g := taken.value;
    }
    assert inputs[..|inputs|] == inputs;
    return Ok(g);
  }

  lemma {:induction false} GatherFails(c: Codec, judge: Judge, revision: string, inputs: seq<Input>, k: nat)
    requires k <= |inputs| && GatherAll(c, judge, revision, inputs[..k]).None?
    ensures GatherAll(c, judge, revision, inputs).None?
    decreases |inputs| - k
  {
    if k < |inputs| {
      assert inputs[..k + 1][..k] == inputs[..k];
      GatherFails(c, judge, revision, inputs, k + 1);
    } else {
      assert inputs[..k] == inputs;
    }
  }

  /** One input: validated on its own, its files collected, none of them in conflict. */
  method TakeInput(c: Codec, judge: Judge, revision: string, g: Gather, input: Input) returns (r: Result<Gather>)
    ensures r.Ok? <==> Takes(c, judge, revision, g, input)
    ensures r.Ok? ==> r.value == Take(c, g, input)
  {
    if input.bundle.revision != revision || |input.bundle.runs| != 1 {
      return Err;
    }
    var run := input.bundle.runs[0];
    if HasMode(g.runs, run.mode) {
      return Err;
    }
    var passed, _ := ValidateBundle(c, judge, input.dir, input.bundle, revision, [run.mode]);
    if !passed || Roots(run).None? {
      return Err;
    }
    var incoming :- CollectFiles(c, input.dir, Roots(run).value);
    if !Compatible(c, g.files, incoming) {
      return Err;
    }
    return Ok(Gather(g.runs + [run], g.windows + [WindowFor(input.bundle, run.mode)], g.files + incoming));
  }

  datatype Combined = Combined(bundle: Bundle, dir: Directory, passed: bool, results: seq<string>)

  /** Where the merged bundle is written: the directory as it is, the file's name, and how a
      bundle is written down. */
  datatype Output = Output(dir: Directory, name: string, encode: Bundle -> string)
  {
    /** Names no attachment may take: the bundle's and its result's. */
    function Reserved(): set<string> {
      {name, name + ".result.json"}
    }

    /** The directory with files copied into it and the bundle written beside them. */
    function With(files: Directory, b: Bundle): Directory {
      (files + dir)[name := encode(b)]
    }
  }

  /** The combiner's own checks. The file of the merged bundle must not exist yet. */
  predicate Combines(c: Codec, judge: Judge, inputs: seq<Input>, revision: string, out: Output) {
    && inputs != [] && IsRevision(revision)
    && var g := GatherAll(c, judge, revision, inputs);
       && g.Some? && HasMode(g.value.runs, DL) && HasMode(g.value.runs, LL)
       && Copyable(c, g.value.files, out.dir, out.Reserved()) && out.name !in out.dir
  }

  /** The revision asked for, or else that of the first input. */
  function Chosen(asked: Option<string>, inputs: seq<Input>): string {
    if asked.Some? then asked.value else if inputs != [] then inputs[0].bundle.revision else ""
  }

  /** What the combiner leaves: the merged bundle, the attachments beside what was there, and
      the verdict of validating just that. */
  ghost predicate IsCombined(c: Codec, judge: Judge, inputs: seq<Input>, revision: string, out: Output, r: Combined) {
    var g := GatherAll(c, judge, revision, inputs);
    && g.Some? && |g.value.runs| == |g.value.windows| && g.value.windows != []
    && r.bundle == Merged(g.value, revision) && r.dir == out.With(g.value.files, r.bundle)
    && (r.passed <==> Passes(c, judge, r.dir, r.bundle, revision, [DL, LL]))
    && (r.passed ==> r.results == Verdicts(c, judge, r.dir, r.bundle, r.bundle.runs))
  }

  lemma {:induction false} GatherSizes(c: Codec, judge: Judge, revision: string, inputs: seq<Input>)
    requires GatherAll(c, judge, revision, inputs).Some?
    ensures |GatherAll(c, judge, revision, inputs).value.runs| == |inputs|
    ensures |GatherAll(c, judge, revision, inputs).value.windows| == |inputs|
    decreases |inputs|
  {
    if inputs != [] {
      GatherSizes(c, judge, revision, inputs[..|inputs| - 1]);
    }
  }

  // ---- what has been gathered ----

  /** The i-th run was taken from the i-th input, with its own window, and its files are there. */
  ghost predicate TakenFrom(c: Codec, judge: Judge, revision: string, input: Input, run: Run, window: Window,
                            files: Directory)
  {
    && input.bundle.revision == revision && input.bundle.runs == [run] && window == WindowFor(input.bundle, run.mode)
    && Passes(c, judge, input.dir, input.bundle, revision, [run.mode])
    && Collected(c, input.dir, run).Some? && Carried(Collected(c, input.dir, run).value, files)
  }

  lemma StillCarried(c: Codec, found: Directory, files: Directory, incoming: Directory)
    requires Collisionless(c) && Carried(found, files) && Compatible(c, files, incoming)
    ensures Carried(found, files + incoming)
  {
    forall name | name in found && name in incoming
      ensures incoming[name] == found[name]
    {
      assert c.digest(files[name]) == c.digest(incoming[name]);
    }
  }

  lemma Rejoined<T>(s: seq<T>)
    requires s != []
    ensures s[..|s| - 1] + [s[|s| - 1]] == s
  {
  }

  lemma GatherLast(c: Codec, judge: Judge, revision: string, init: seq<Input>, last: Input)
    requires GatherAll(c, judge, revision, init + [last]).Some?
    ensures var before := GatherAll(c, judge, revision, init);
            && before.Some? && Takes(c, judge, revision, before.value, last)
            && GatherAll(c, judge, revision, init + [last]) == Some(Take(c, before.value, last))
  {
    assert (init + [last])[..|init|] == init;
  }

  ghost predicate AllTaken(c: Codec, judge: Judge, revision: string, inputs: seq<Input>, g: Gather) {
    && |g.runs| == |g.windows| == |inputs|
    && forall i :: 0 <= i < |inputs| ==>
         TakenFrom(c, judge, revision, inputs[i], g.runs[i], g.windows[i], g.files)
  }

  lemma TakenOneMore(c: Codec, judge: Judge, revision: string, inputs: seq<Input>, g: Gather, input: Input)
    requires Collisionless(c) && AllTaken(c, judge, revision, inputs, g) && Takes(c, judge, revision, g, input)
    ensures AllTaken(c, judge, revision, inputs + [input], Take(c, g, input))
  {
    var all, more := inputs + [input], Take(c, g, input);
    forall i | 0 <= i < |all|
      ensures TakenFrom(c, judge, revision, all[i], more.runs[i], more.windows[i], more.files)
    {
      if i < |inputs| {
        TakenStays(c, judge, revision, inputs[i], g.runs[i], g.windows[i], g.files,
                   Collected(c, input.dir, input.bundle.runs[0]).value);
      } else {
        TakenLast(c, judge, revision, g, input);
      }
    }
  }

  lemma {:induction false} AllAreTaken(c: Codec, judge: Judge, revision: string, inputs: seq<Input>)
    requires Collisionless(c) && GatherAll(c, judge, revision, inputs).Some?
    ensures AllTaken(c, judge, revision, inputs, GatherAll(c, judge, revision, inputs).value)
    decreases |inputs|
  {
    if inputs != [] {
      var init, last := inputs[..|inputs| - 1], inputs[|inputs| - 1];
      Rejoined(inputs);
      GatherLast(c, judge, revision, init, last);
      AllAreTaken(c, judge, revision, init);
      TakenOneMore(c, judge, revision, init, GatherAll(c, judge, revision, init).value, last);
    }
  }

  lemma GatheredAre(c: Codec, judge: Judge, revision: string, inputs: seq<Input>, i: nat)
    requires Collisionless(c) && GatherAll(c, judge, revision, inputs).Some? && i < |inputs|
    ensures var g := GatherAll(c, judge, revision, inputs).value;
            && |g.runs| == |g.windows| == |inputs|
            && TakenFrom(c, judge, revision, inputs[i], g.runs[i], g.windows[i], g.files)
  {
    AllAreTaken(c, judge, revision, inputs);
  }

  lemma TakenStays(c: Codec, judge: Judge, revision: string, input: Input, run: Run, window: Window,
                   files: Directory, incoming: Directory)
    requires Collisionless(c) && TakenFrom(c, judge, revision, input, run, window, files)
    requires Compatible(c, files, incoming)
    ensures TakenFrom(c, judge, revision, input, run, window, files + incoming)
  {
    StillCarried(c, Collected(c, input.dir, run).value, files, incoming);
  }

  lemma TakenLast(c: Codec, judge: Judge, revision: string, g: Gather, input: Input)
    requires Takes(c, judge, revision, g, input)
    ensures var run := input.bundle.runs[0];
            TakenFrom(c, judge, revision, input, run, WindowFor(input.bundle, run.mode), Take(c, g, input).files)
  {
  }

  lemma {:induction false} GatheredDistinct(c: Codec, judge: Judge, revision: string, inputs: seq<Input>)
    requires GatherAll(c, judge, revision, inputs).Some?
    ensures var g := GatherAll(c, judge, revision, inputs).value;
            forall i, j :: 0 <= i < j < |g.runs| ==> g.runs[i].mode != g.runs[j].mode
    decreases |inputs|
  {
    if inputs != [] {
      GatheredDistinct(c, judge, revision, inputs[..|inputs| - 1]);
    }
  }

  lemma TwoModes(a: Mode, b: Mode, d: Mode)
    ensures a == b || a == d || b == d
  {
  }

  /** Of two modes, each once, the runs by mode are the two runs. */
  lemma ByMode(runs: seq<Run>)
    requires HasMode(runs, DL) && HasMode(runs, LL)
    requires forall i, j :: 0 <= i < j < |runs| ==> runs[i].mode != runs[j].mode
    ensures |runs| == 2
    ensures OfMode(runs, DL) + OfMode(runs, LL) == if runs[0].mode == DL then runs else [runs[1], runs[0]]
  {
    if |runs| > 2 {
      TwoModes(runs[0].mode, runs[1].mode, runs[2].mode);
    }
    assert runs == [runs[0], runs[1]];
    OfModePair(runs[0], runs[1], DL);
    OfModePair(runs[0], runs[1], LL);
  }

  lemma OfModePair(first: Run, second: Run, mode: Mode)
    ensures OfMode([first, second], mode) ==
            (if first.mode == mode then [first] else []) + (if second.mode == mode then [second] else [])
  {
    var both := [first, second];
    assert both[..|both| - 1] == [first];
    OfModeOne(first, mode);
  }

  lemma OfModeOne(run: Run, mode: Mode)
    ensures OfMode([run], mode) == if run.mode == mode then [run] else []
  {
    assert [run][..0] == [];
  }

  lemma {:induction false} UnionHolds(windows: seq<Window>, i: nat)
    requires i < |windows|
    ensures Earliest(windows) <= windows[i].started && windows[i].finished <= Latest(windows)
    decreases |windows|
  {
    if i < |windows| - 1 {
      UnionHolds(windows[..|windows| - 1], i);
    }
  }

  lemma {:induction false} UnionReached(windows: seq<Window>)
    requires windows != [] && forall i :: 0 <= i < |windows| ==> Ordered(windows[i])
    ensures 0.0 < Earliest(windows)
    decreases |windows|
  {
    if |windows| > 1 {
      UnionReached(windows[..|windows| - 1]);
    }
  }

  lemma WindowOrdered(c: Codec, judge: Judge, dir: Directory, b: Bundle, revision: string, mode: Mode)
    requires Passes(c, judge, dir, b, revision, [mode])
    ensures Ordered(WindowFor(b, mode))
  {
    if b.inputs.Some? && FirstWindow(b.inputs.value, mode).Some? {
      var i := WindowAmong(b.inputs.value, mode);
    }
  }

  lemma {:induction false} WindowAmong(inputs: seq<InputWindow>, mode: Mode) returns (i: nat)
    requires FirstWindow(inputs, mode).Some?
    ensures i < |inputs| && FirstWindow(inputs, mode).value == inputs[i].window
    decreases |inputs|
  {
    if inputs[0].mode == mode {
      i := 0;
    } else {
      var j := WindowAmong(inputs[1..], mode);
      i := j + 1;
    }
  }

  // ---- the combined bundle is accepted again ----

  /** The directory a combination leaves. */
  function CombinedDir(c: Codec, judge: Judge, inputs: seq<Input>, revision: string, out: Output): Directory
    requires Combines(c, judge, inputs, revision, out)
  {
    var g := GatherAll(c, judge, revision, inputs).value;
    GatherSizes(c, judge, revision, inputs);
    out.With(g.files, Merged(g, revision))
  }

  /** Everything the runs of the inputs follow can be read there. */
  predicate AllTravel(c: Codec, inputs: seq<Input>, there: Directory) {
    forall i :: 0 <= i < |inputs| ==>
      |inputs[i].bundle.runs| == 1 && Travels(c, inputs[i].dir, inputs[i].bundle.runs[0], there)
  }

  /** Every input is a single portable run. */
  predicate AllPortable(c: Codec, inputs: seq<Input>) {
    forall i :: 0 <= i < |inputs| ==>
      |inputs[i].bundle.runs| == 1 && Portable(c, inputs[i].dir, inputs[i].bundle.runs[0])
  }

  /** The input's one run passes there with the result it had in its own bundle. */
  predicate SameJudgement(c: Codec, judge: Judge, there: Directory, b: Bundle, input: Input, run: Run) {
    && input.bundle.runs == [run]
    && Judged(c, judge, there, b, run).Some?
    && Judged(c, judge, there, b, run) == Judged(c, judge, input.dir, input.bundle, run)
  }

  /** Every input's files are in the combined directory, as they are. */
  lemma InputCarried(c: Codec, judge: Judge, inputs: seq<Input>, revision: string, out: Output, i: nat)
    requires Collisionless(c) && Combines(c, judge, inputs, revision, out) && i < |inputs|
    ensures var g := GatherAll(c, judge, revision, inputs).value;
            && |g.runs| == |g.windows| == |inputs|
            && TakenFrom(c, judge, revision, inputs[i], g.runs[i], g.windows[i], g.files)
            && Carried(Collected(c, inputs[i].dir, g.runs[i]).value, CombinedDir(c, judge, inputs, revision, out))
  {
    var g := GatherAll(c, judge, revision, inputs).value;
    GatheredAre(c, judge, revision, inputs, i);
    CopyCarries(c, g.files, out, Merged(g, revision));
  }

  /** Each run keeps its window, so it passes in the combined bundle exactly when all it follows
      can be read there, and then with the result it had. */
  lemma JudgedAgainIff(c: Codec, judge: Judge, inputs: seq<Input>, revision: string, out: Output, i: nat)
    requires Strict(judge) && Collisionless(c) && Combines(c, judge, inputs, revision, out) && i < |inputs|
    ensures var g, there := GatherAll(c, judge, revision, inputs).value, CombinedDir(c, judge, inputs, revision, out);
            && |g.runs| == |g.windows| == |inputs| && inputs[i].bundle.runs == [g.runs[i]]
            && (Judged(c, judge, there, Merged(g, revision), g.runs[i]).Some?
                <==> Travels(c, inputs[i].dir, g.runs[i], there))
            && (Travels(c, inputs[i].dir, g.runs[i], there) ==>
                  SameJudgement(c, judge, there, Merged(g, revision), inputs[i], g.runs[i]))
  {
    var g := GatherAll(c, judge, revision, inputs).value;
    InputCarried(c, judge, inputs, revision, out, i);
    GatheredDistinct(c, judge, revision, inputs);
    FirstWindowIs(Zipped(g.runs, g.windows), i);
    assert Judged(c, judge, inputs[i].dir, inputs[i].bundle, inputs[i].bundle.runs[0]).Some?;
    JudgedThereIff(c, judge, inputs[i].dir, g.runs[i], CombinedDir(c, judge, inputs, revision, out), revision,
                   g.windows[i]);
  }

  lemma CopyCarries(c: Codec, files: Directory, out: Output, b: Bundle)
    requires Collisionless(c) && Copyable(c, files, out.dir, out.Reserved())
    ensures Carried(files, out.With(files, b))
  {
    forall name | name in files && name in out.dir
      ensures out.dir[name] == files[name]
    {
      assert c.digest(out.dir[name]) == c.digest(files[name]);
    }
  }

  ghost predicate BothOnce(g: Gather) {
    && |g.runs| == |g.windows| && HasMode(g.runs, DL) && HasMode(g.runs, LL)
    && (forall i, j :: 0 <= i < j < |g.runs| ==> g.runs[i].mode != g.runs[j].mode)
    && forall i :: 0 <= i < |g.windows| ==> Ordered(g.windows[i])
  }

  lemma MergedHeader(g: Gather, revision: string)
    requires IsRevision(revision) && BothOnce(g)
    ensures g.windows != [] && |g.runs| == 2
    ensures HeaderSound(Merged(g, revision), revision, [DL, LL])
  {
    ByMode(g.runs);
    UnionHolds(g.windows, 0);
    UnionReached(g.windows);
    BothModes(Merged(g, revision).runs);
  }

  lemma MergedInputs(g: Gather, revision: string)
    requires BothOnce(g) && |g.runs| == 2
    ensures InputsSound(Merged(g, revision), [DL, LL])
  {
    var b := Merged(g, revision);
    ByMode(g.runs);
    UnionHolds(g.windows, 0);
    UnionHolds(g.windows, 1);
    forall i | 0 <= i < |b.inputs.value|
      ensures b.inputs.value[i].mode in [DL, LL] && Inside(b.inputs.value[i].window, b.header)
    {
      assert Ordered(g.windows[i]);
    }
  }

  lemma MergedSound(c: Codec, judge: Judge, inputs: seq<Input>, revision: string, out: Output)
    requires Collisionless(c) && Combines(c, judge, inputs, revision, out)
    ensures var g := GatherAll(c, judge, revision, inputs).value;
            && |g.runs| == |g.windows| == |inputs| == 2
            && HeaderSound(Merged(g, revision), revision, [DL, LL]) && InputsSound(Merged(g, revision), [DL, LL])
  {
    var g := GatherAll(c, judge, revision, inputs).value;
    GatherSizes(c, judge, revision, inputs);
    GatheredDistinct(c, judge, revision, inputs);
    forall i | 0 <= i < |inputs|
      ensures Ordered(g.windows[i])
    {
      GatheredAre(c, judge, revision, inputs, i);
      WindowOrdered(c, judge, inputs[i].dir, inputs[i].bundle, revision, g.runs[i].mode);
    }
    MergedHeader(g, revision);
    MergedInputs(g, revision);
  }

  lemma BothModes(runs: seq<Run>)
    requires |runs| == 2 && runs[0].mode != runs[1].mode
    ensures SameModes(runs, [DL, LL])
  {
    assert runs[0].mode in [DL, LL] && runs[1].mode in [DL, LL];
    forall mode | mode in [DL, LL]
      ensures exists i :: 0 <= i < |runs| && runs[i].mode == mode
    {
      assert runs[0].mode == mode || runs[1].mode == mode;
    }
  }

  /** The results of an input validated on its own. */
  function Own(c: Codec, judge: Judge, input: Input): seq<string> {
    Verdicts(c, judge, input.dir, input.bundle, input.bundle.runs)
  }

  lemma VerdictsByMode(c: Codec, judge: Judge, dir: Directory, b: Bundle, runs: seq<Run>)
    requires HasMode(runs, DL) && HasMode(runs, LL)
    requires forall i, j :: 0 <= i < j < |runs| ==> runs[i].mode != runs[j].mode
    requires forall i :: 0 <= i < |runs| ==> Judged(c, judge, dir, b, runs[i]).Some?
    ensures |runs| == 2
    ensures var first, second := Judged(c, judge, dir, b, runs[0]).value, Judged(c, judge, dir, b, runs[1]).value;
            Verdicts(c, judge, dir, b, OfMode(runs, DL) + OfMode(runs, LL))
            == if runs[0].mode == DL then [first, second] else [second, first]
  {
    ByMode(runs);
    assert runs == [runs[0], runs[1]];
    VerdictsOfTwo(c, judge, dir, b, runs[0], runs[1]);
    VerdictsOfTwo(c, judge, dir, b, runs[1], runs[0]);
  }

  lemma OwnIs(c: Codec, judge: Judge, input: Input, run: Run)
    requires input.bundle.runs == [run] && Judged(c, judge, input.dir, input.bundle, run).Some?
    ensures Own(c, judge, input) == [Judged(c, judge, input.dir, input.bundle, run).value]
  {
    VerdictOfOne(c, judge, input.dir, input.bundle, run);
  }

  lemma InOrderIs(c: Codec, judge: Judge, there: Directory, b: Bundle, one: Input, two: Input, first: Run, second: Run)
    requires SameJudgement(c, judge, there, b, one, first) && SameJudgement(c, judge, there, b, two, second)
    ensures InOrder(c, judge, one, two) ==
            if first.mode == DL then [Judged(c, judge, there, b, first).value, Judged(c, judge, there, b, second).value]
            else [Judged(c, judge, there, b, second).value, Judged(c, judge, there, b, first).value]
  {
    OwnIs(c, judge, one, first);
    OwnIs(c, judge, two, second);
    assert one.bundle.runs[0] == first;
  }

  lemma VerdictsAgain(c: Codec, judge: Judge, one: Input, two: Input, there: Directory, b: Bundle, runs: seq<Run>)
    requires |runs| == 2 && HasMode(runs, DL) && HasMode(runs, LL) && runs[0].mode != runs[1].mode
    requires SameJudgement(c, judge, there, b, one, runs[0]) && SameJudgement(c, judge, there, b, two, runs[1])
    ensures Verdicts(c, judge, there, b, OfMode(runs, DL) + OfMode(runs, LL)) == InOrder(c, judge, one, two)
  {
    VerdictsByMode(c, judge, there, b, runs);
    InOrderIs(c, judge, there, b, one, two, runs[0], runs[1]);
  }

  /** The results of two inputs, each validated on its own, that of the DL run first. */
  function InOrder(c: Codec, judge: Judge, first: Input, second: Input): seq<string>
  {
    if HasMode(first.bundle.runs, DL) then Own(c, judge, first) + Own(c, judge, second)
    else Own(c, judge, second) + Own(c, judge, first)
  }

  /** The combination of one accepted bundle of each mode is accepted again exactly when all
      that both runs follow can be read in it, and then with the results the two had, in the
      order of the modes. */
  lemma PassesIffAllTravel(c: Codec, judge: Judge, inputs: seq<Input>, revision: string, out: Output, r: Combined)
    requires Strict(judge) && Collisionless(c) && Combines(c, judge, inputs, revision, out)
    requires IsCombined(c, judge, inputs, revision, out, r)
    ensures |inputs| == 2 && (r.passed <==> AllTravel(c, inputs, r.dir))
    ensures r.passed ==> r.results == InOrder(c, judge, inputs[0], inputs[1])
  {
    var g := GatherAll(c, judge, revision, inputs).value;
    MergedSound(c, judge, inputs, revision, out);
    GatheredDistinct(c, judge, revision, inputs);
    JudgedAgainIff(c, judge, inputs, revision, out, 0);
    JudgedAgainIff(c, judge, inputs, revision, out, 1);
    BothPassIff(c, judge, inputs[0], inputs[1], r.dir, r.bundle, g.runs);
    BothTravel(c, inputs, r.dir);
  }

  lemma BothTravel(c: Codec, inputs: seq<Input>, there: Directory)
    requires |inputs| == 2 && |inputs[0].bundle.runs| == 1 && |inputs[1].bundle.runs| == 1
    ensures AllTravel(c, inputs, there) <==>
            && Travels(c, inputs[0].dir, inputs[0].bundle.runs[0], there)
            && Travels(c, inputs[1].dir, inputs[1].bundle.runs[0], there)
  {
  }

  /** Both runs pass there exactly when each does. */
  lemma BothPassIff(c: Codec, judge: Judge, one: Input, two: Input, there: Directory, b: Bundle, runs: seq<Run>)
    requires |runs| == 2 && HasMode(runs, DL) && HasMode(runs, LL) && runs[0].mode != runs[1].mode
    requires Judged(c, judge, there, b, runs[0]).Some? ==> SameJudgement(c, judge, there, b, one, runs[0])
    requires Judged(c, judge, there, b, runs[1]).Some? ==> SameJudgement(c, judge, there, b, two, runs[1])
    ensures var merged := OfMode(runs, DL) + OfMode(runs, LL);
            var both := Judged(c, judge, there, b, runs[0]).Some? && Judged(c, judge, there, b, runs[1]).Some?;
            && (both <==> AllPass(c, judge, there, b, merged))
            && (both ==> Verdicts(c, judge, there, b, merged) == InOrder(c, judge, one, two))
  {
    MergedPass(c, judge, there, b, runs);
    if Judged(c, judge, there, b, runs[0]).Some? && Judged(c, judge, there, b, runs[1]).Some? {
      VerdictsAgain(c, judge, one, two, there, b, runs);
    }
  }

  lemma MergedPass(c: Codec, judge: Judge, there: Directory, b: Bundle, runs: seq<Run>)
    requires |runs| == 2 && HasMode(runs, DL) && HasMode(runs, LL) && runs[0].mode != runs[1].mode
    ensures AllPass(c, judge, there, b, OfMode(runs, DL) + OfMode(runs, LL)) <==>
            Judged(c, judge, there, b, runs[0]).Some? && Judged(c, judge, there, b, runs[1]).Some?
  {
    InModeOrder(runs);
    if runs[0].mode == DL {
      TwoPass(c, judge, there, b, runs[0], runs[1]);
    } else {
      TwoPass(c, judge, there, b, runs[1], runs[0]);
    }
  }

  lemma InModeOrder(runs: seq<Run>)
    requires |runs| == 2 && HasMode(runs, DL) && HasMode(runs, LL) && runs[0].mode != runs[1].mode
    ensures OfMode(runs, DL) + OfMode(runs, LL)
         == if runs[0].mode == DL then [runs[0], runs[1]] else [runs[1], runs[0]]
  {
    ByMode(runs);
    TwoOf(runs);
  }

  lemma TwoOf<T>(s: seq<T>)
    requires |s| == 2
    ensures s == [s[0], s[1]]
  {
  }

  lemma TwoPass(c: Codec, judge: Judge, there: Directory, b: Bundle, first: Run, second: Run)
    ensures AllPass(c, judge, there, b, [first, second]) <==>
            Judged(c, judge, there, b, first).Some? && Judged(c, judge, there, b, second).Some?
  {
    var both := [first, second];
    assert both[0] == first && both[1] == second;
  }

  lemma VerdictOfOne(c: Codec, judge: Judge, dir: Directory, b: Bundle, run: Run)
    requires Judged(c, judge, dir, b, run).Some?
    ensures Verdicts(c, judge, dir, b, [run]) == [Judged(c, judge, dir, b, run).value]
  {
    assert [run][..0] == [];
  }

  lemma VerdictsOfTwo(c: Codec, judge: Judge, dir: Directory, b: Bundle, first: Run, second: Run)
    requires Judged(c, judge, dir, b, first).Some? && Judged(c, judge, dir, b, second).Some?
    ensures Verdicts(c, judge, dir, b, [first, second])
            == [Judged(c, judge, dir, b, first).value, Judged(c, judge, dir, b, second).value]
  {
    assert [first, second][..1] == [first];
    VerdictOfOne(c, judge, dir, b, first);
  }

  // ---- the same, seen before combining ----

  /** The input's files, as far as they are collected, hold what the reference names. */
  predicate SuppliedBy(c: Codec, input: Input, ref: Json) {
    && |input.bundle.runs| == 1 && Roots(input.bundle.runs[0]).Some?
    && NamedFrom(c, input.dir, Roots(input.bundle.runs[0]).value, 0, PathOf(ref))
    && ReadRef(c, input.dir, Some(ref)).Some?
  }

  predicate SomeSupplies(c: Codec, inputs: seq<Input>, ref: Json) {
    exists k :: 0 <= k < |inputs| && SuppliedBy(c, inputs[k], ref)
  }

  /** One of the inputs supplies what the reference names, or it is in the output directory
      already, or it is the text of the merged bundle itself. */
  predicate Supplied(c: Codec, inputs: seq<Input>, out: Output, text: string, ref: Option<Json>) {
    ref.Some? &&
    (|| SomeSupplies(c, inputs, ref.value)
     || ReadRef(c, out.dir, ref).Some?
     || ReadRef(c, map[out.name := text], ref).Some?)
  }

  predicate AllSupplied(c: Codec, inputs: seq<Input>, out: Output, text: string) {
    forall i :: 0 <= i < |inputs| ==>
      && |inputs[i].bundle.runs| == 1
      && forall ref :: ref in FollowedBy(c, inputs[i].dir, inputs[i].bundle.runs[0]) ==>
           Supplied(c, inputs, out, text, ref)
  }

  /** What has been gathered is what the inputs' runs collect. */
  lemma {:induction false} GatheredFiles(c: Codec, judge: Judge, revision: string, inputs: seq<Input>, name: string)
    requires GatherAll(c, judge, revision, inputs).Some?
    ensures name in GatherAll(c, judge, revision, inputs).value.files <==> SomeCollects(c, inputs, name)
    decreases |inputs|
  {
    if inputs != [] {
      var init, last := inputs[..|inputs| - 1], inputs[|inputs| - 1];
      Rejoined(inputs);
      GatherLast(c, judge, revision, init, last);
      GatheredFiles(c, judge, revision, init, name);
      MoreFiles(c, judge, revision, init, last, name);
    }
  }

  lemma LastCollects(c: Codec, judge: Judge, revision: string, g: Gather, input: Input, name: string)
    requires Takes(c, judge, revision, g, input)
    ensures name in Take(c, g, input).files <==> name in g.files || CollectedBy(c, input, name)
  {
  }

  lemma MoreFiles(c: Codec, judge: Judge, revision: string, init: seq<Input>, last: Input, name: string)
    requires GatherAll(c, judge, revision, init + [last]).Some? && GatherAll(c, judge, revision, init).Some?
    requires name in GatherAll(c, judge, revision, init).value.files <==> SomeCollects(c, init, name)
    ensures name in GatherAll(c, judge, revision, init + [last]).value.files <==> SomeCollects(c, init + [last], name)
  {
    GatherLast(c, judge, revision, init, last);
    LastCollects(c, judge, revision, GatherAll(c, judge, revision, init).value, last, name);
    SomeOrLast(c, init, last, name);
  }

  predicate SomeCollects(c: Codec, inputs: seq<Input>, name: string) {
    exists k :: 0 <= k < |inputs| && CollectedBy(c, inputs[k], name)
  }

  lemma SomeOrLast(c: Codec, init: seq<Input>, last: Input, name: string)
    ensures SomeCollects(c, init + [last], name) <==> SomeCollects(c, init, name) || CollectedBy(c, last, name)
  {
    var all := init + [last];
    if SomeCollects(c, init, name) {
      var k :| 0 <= k < |init| && CollectedBy(c, init[k], name);
      assert all[k] == init[k];
    }
    assert all[|init|] == last;
  }

  predicate CollectedBy(c: Codec, input: Input, name: string) {
    && |input.bundle.runs| == 1 && Collected(c, input.dir, input.bundle.runs[0]).Some?
    && name in Collected(c, input.dir, input.bundle.runs[0]).value
  }

  lemma CollectedIsNamed(c: Codec, judge: Judge, inputs: seq<Input>, revision: string, k: nat, name: string)
    requires Collisionless(c) && GatherAll(c, judge, revision, inputs).Some? && k < |inputs|
    ensures |inputs[k].bundle.runs| == 1 && Roots(inputs[k].bundle.runs[0]).Some?
    ensures CollectedBy(c, inputs[k], name) <==>
            NamedFrom(c, inputs[k].dir, Roots(inputs[k].bundle.runs[0]).value, 0, Some(name))
    ensures CollectedBy(c, inputs[k], name) ==>
              && name in inputs[k].dir && name in GatherAll(c, judge, revision, inputs).value.files
              && GatherAll(c, judge, revision, inputs).value.files[name] == inputs[k].dir[name]
  {
    GatheredAre(c, judge, revision, inputs, k);
    CollectsAll(c, inputs[k].dir, Roots(inputs[k].bundle.runs[0]).value);
  }

  /** A reference reads the same in two directories that agree on its file. */
  lemma ReadAlike(c: Codec, one: Directory, other: Directory, ref: Json)
    requires PathOf(ref).Some? ==>
               var name := PathOf(ref).value;
               (name in one <==> name in other) && (name in one ==> one[name] == other[name])
    ensures ReadRef(c, one, Some(ref)) == ReadRef(c, other, Some(ref))
  {
  }

  /** The text of the merged bundle. */
  function TextOf(c: Codec, judge: Judge, inputs: seq<Input>, revision: string, out: Output): string
    requires Combines(c, judge, inputs, revision, out)
  {
    GatherSizes(c, judge, revision, inputs);
    out.encode(Merged(GatherAll(c, judge, revision, inputs).value, revision))
  }

  /** What an input collects is in the combined directory as it was. */
  lemma InputSupplies(c: Codec, judge: Judge, inputs: seq<Input>, revision: string, out: Output, k: nat, ref: Json)
    requires Collisionless(c) && Combines(c, judge, inputs, revision, out) && k < |inputs| && PathOf(ref).Some?
    ensures CollectedBy(c, inputs[k], PathOf(ref).value) ==>
              (SuppliedBy(c, inputs[k], ref) <==>
               ReadRef(c, CombinedDir(c, judge, inputs, revision, out), Some(ref)).Some?)
    ensures !CollectedBy(c, inputs[k], PathOf(ref).value) ==> !SuppliedBy(c, inputs[k], ref)
  {
    CollectedIsNamed(c, judge, inputs, revision, k, PathOf(ref).value);
    if CollectedBy(c, inputs[k], PathOf(ref).value) {
      InputCarried(c, judge, inputs, revision, out, k);
      CollectsAll(c, inputs[k].dir, Roots(inputs[k].bundle.runs[0]).value);
      ReadAlike(c, inputs[k].dir, CombinedDir(c, judge, inputs, revision, out), ref);
    }
  }

  /** Outside the bundle's own file, what was in the output directory is there, and else what
      was copied. */
  lemma ReadsWith(c: Codec, out: Output, files: Directory, b: Bundle, ref: Json)
    requires PathOf(ref).Some? && out.name !in out.dir
    ensures var there, name := out.With(files, b), PathOf(ref).value;
            && (name == out.name ==>
                ReadRef(c, there, Some(ref)) == ReadRef(c, map[out.name := out.encode(b)], Some(ref)))
            && (name in out.dir ==> name != out.name && ReadRef(c, there, Some(ref)) == ReadRef(c, out.dir, Some(ref)))
            && (ReadRef(c, there, Some(ref)).Some? ==> name == out.name || name in out.dir || name in files)
            && (name != out.name ==> ReadRef(c, map[out.name := out.encode(b)], Some(ref)).None?)
            && (name !in out.dir ==> ReadRef(c, out.dir, Some(ref)).None?)
  {
  }

  /** In the combined directory a reference can be read exactly when it is supplied. */
  lemma ReadableIff(c: Codec, judge: Judge, inputs: seq<Input>, revision: string, out: Output, ref: Option<Json>)
    requires Collisionless(c) && Combines(c, judge, inputs, revision, out)
    ensures ReadRef(c, CombinedDir(c, judge, inputs, revision, out), ref).Some? <==>
            Supplied(c, inputs, out, TextOf(c, judge, inputs, revision, out), ref)
  {
    if ref.None? || PathOf(ref.value).None? {
      NoPath(c, inputs, out, TextOf(c, judge, inputs, revision, out), ref);
    } else {
      NamedReadableIff(c, judge, inputs, revision, out, ref.value);
    }
  }

  lemma NoPath(c: Codec, inputs: seq<Input>, out: Output, text: string, ref: Option<Json>)
    requires ref.None? || PathOf(ref.value).None?
    ensures !Supplied(c, inputs, out, text, ref)
  {
  }

  lemma NamedReadableIff(c: Codec, judge: Judge, inputs: seq<Input>, revision: string, out: Output, ref: Json)
    requires Collisionless(c) && Combines(c, judge, inputs, revision, out) && PathOf(ref).Some?
    ensures ReadRef(c, CombinedDir(c, judge, inputs, revision, out), Some(ref)).Some? <==>
            || SomeSupplies(c, inputs, ref) || ReadRef(c, out.dir, Some(ref)).Some?
            || ReadRef(c, map[out.name := TextOf(c, judge, inputs, revision, out)], Some(ref)).Some?
  {
    var g := GatherAll(c, judge, revision, inputs).value;
    GatherSizes(c, judge, revision, inputs);
    InputsSupply(c, judge, inputs, revision, out, ref);
    SuppliedIff(c, out, g.files, Merged(g, revision), ref, SomeSupplies(c, inputs, ref));
  }

  lemma SuppliedIff(c: Codec, out: Output, files: Directory, b: Bundle, ref: Json, some: bool)
    requires PathOf(ref).Some? && out.name !in out.dir
    requires some <==> PathOf(ref).value in files && ReadRef(c, out.With(files, b), Some(ref)).Some?
    ensures ReadRef(c, out.With(files, b), Some(ref)).Some? <==>
            || some || ReadRef(c, out.dir, Some(ref)).Some?
            || ReadRef(c, map[out.name := out.encode(b)], Some(ref)).Some?
  {
    ReadsWith(c, out, files, b, ref);
  }

  lemma InputsSupply(c: Codec, judge: Judge, inputs: seq<Input>, revision: string, out: Output, ref: Json)
    requires Collisionless(c) && Combines(c, judge, inputs, revision, out) && PathOf(ref).Some?
    ensures SomeSupplies(c, inputs, ref) <==>
            && PathOf(ref).value in GatherAll(c, judge, revision, inputs).value.files
            && ReadRef(c, CombinedDir(c, judge, inputs, revision, out), Some(ref)).Some?
  {
    GatheredFiles(c, judge, revision, inputs, PathOf(ref).value);
    if SomeSupplies(c, inputs, ref) {
      var k :| 0 <= k < |inputs| && SuppliedBy(c, inputs[k], ref);
      InputSupplies(c, judge, inputs, revision, out, k, ref);
    }
    if SomeCollects(c, inputs, PathOf(ref).value) {
      var k :| 0 <= k < |inputs| && CollectedBy(c, inputs[k], PathOf(ref).value);
      InputSupplies(c, judge, inputs, revision, out, k, ref);
    }
  }

  /** For a strict validator: the combination of two inputs is accepted again exactly when
      everything their runs follow is supplied, and then with their results. */
  lemma PassesIffAllSupplied(c: Codec, judge: Judge, inputs: seq<Input>, revision: string, out: Output, r: Combined)
    requires Strict(judge) && Collisionless(c) && Combines(c, judge, inputs, revision, out)
    requires IsCombined(c, judge, inputs, revision, out, r)
    ensures |inputs| == 2 && (r.passed <==> AllSupplied(c, inputs, out, out.encode(r.bundle)))
    ensures r.passed ==> r.results == InOrder(c, judge, inputs[0], inputs[1])
  {
    PassesIffAllTravel(c, judge, inputs, revision, out, r);
    forall ref: Option<Json>
      ensures ReadRef(c, r.dir, ref).Some? <==> Supplied(c, inputs, out, out.encode(r.bundle), ref)
    {
      ReadableIff(c, judge, inputs, revision, out, ref);
    }
  }

  /** Portable inputs are accepted again. */
  lemma PortablePasses(c: Codec, judge: Judge, inputs: seq<Input>, revision: string, out: Output, r: Combined)
    requires Strict(judge) && Collisionless(c) && Combines(c, judge, inputs, revision, out)
    requires IsCombined(c, judge, inputs, revision, out, r) && AllPortable(c, inputs)
    ensures |inputs| == 2 && r.passed && r.results == InOrder(c, judge, inputs[0], inputs[1])
  {
    AllPortableTravel(c, judge, inputs, revision, out);
    PassesIffAllTravel(c, judge, inputs, revision, out, r);
  }

  lemma AllPortableTravel(c: Codec, judge: Judge, inputs: seq<Input>, revision: string, out: Output)
    requires Strict(judge) && Collisionless(c) && Combines(c, judge, inputs, revision, out) && AllPortable(c, inputs)
    ensures AllTravel(c, inputs, CombinedDir(c, judge, inputs, revision, out))
  {
    forall i | 0 <= i < |inputs|
      ensures |inputs[i].bundle.runs| == 1
      ensures Travels(c, inputs[i].dir, inputs[i].bundle.runs[0], CombinedDir(c, judge, inputs, revision, out))
    {
      PortableInput(c, judge, inputs, revision, out, i);
    }
  }

  lemma PortableInput(c: Codec, judge: Judge, inputs: seq<Input>, revision: string, out: Output, i: nat)
    requires Strict(judge) && Collisionless(c) && Combines(c, judge, inputs, revision, out)
    requires i < |inputs| && |inputs[i].bundle.runs| == 1 && Portable(c, inputs[i].dir, inputs[i].bundle.runs[0])
    ensures Travels(c, inputs[i].dir, inputs[i].bundle.runs[0], CombinedDir(c, judge, inputs, revision, out))
  {
    InputCarried(c, judge, inputs, revision, out, i);
    assert Judged(c, judge, inputs[i].dir, inputs[i].bundle, inputs[i].bundle.runs[0]).Some?;
    PortableTravels(c, inputs[i].dir, inputs[i].bundle.runs[0], CombinedDir(c, judge, inputs, revision, out));
  }

  /** The combiner: validates and gathers the inputs, copies their files, merges, writes the
      bundle and validates what it has written. */
  method Combine(c: Codec, judge: Judge, inputs: seq<Input>, asked: Option<string>, out: Output)
    returns (r: Result<Combined>)
    ensures r.Ok? <==> Combines(c, judge, inputs, Chosen(asked, inputs), out)
    ensures r.Ok? ==> IsCombined(c, judge, inputs, Chosen(asked, inputs), out, r.value)
    ensures r.Ok? && Strict(judge) && Collisionless(c) ==>
              && |inputs| == 2
              && (r.value.passed <==> AllSupplied(c, inputs, out, out.encode(r.value.bundle)))
              && (r.value.passed ==> r.value.results == InOrder(c, judge, inputs[0], inputs[1]))
  {
    if inputs == [] || !IsRevision(Chosen(asked, inputs)) {
      return Err;
    }
    var revision := Chosen(asked, inputs);
    var g :- GatherInputs(c, judge, revision, inputs);
    if !HasMode(g.runs, DL) || !HasMode(g.runs, LL) {
      return Err;
    }
    GatherSizes(c, judge, revision, inputs);
    var dir :- CopyFiles(c, g.files, out.dir, out.Reserved());
    var bundle := Merged(g, revision);
    if out.name in dir {
      return Err;
    }
    dir := dir[out.name := out.encode(bundle)];
    var passed, results := ValidateBundle(c, judge, dir, bundle, revision, [DL, LL]);
    var combined := Combined(bundle, dir, passed, results);
    if Strict(judge) && Collisionless(c) {
      PassesIffAllSupplied(c, judge, inputs, revision, out, combined);
    }
    return Ok(combined);
  }
}
