/**
 * The decision logic of the application page: which loader a dropped or
 * chosen file goes to, the drag-and-drop counter that shows the drop
 * indicator, and the keyboard shortcut gate and table.
 */
module MainPage {
  import opened Options
  import Decimal

  // ---------------------------------------------------------------------------
  // File handlers: dispatch on the file-name suffix
  // ---------------------------------------------------------------------------

  /** The three workspace loaders a file can be bound to. */
  datatype Loader = LoadImage | LoadMesh | LoadIntensities

  /** A file from a file list; only its name takes part in the dispatch. */
  datatype File = File(name: string, contents: seq<bv8>)

  /** A loader bound to a file (`g_workspace.loadX.bind(g_workspace, file)`). */
  datatype Handler = Handler(loader: Loader, file: File)

  /**
   * The case folding of a regular expression with the `i` flag and without
   * the `u` flag: only A..Z fold onto a..z, since no character at or above
   * U+0080 may fold onto an ASCII one.
   */
  function LowerAscii(c: char): (r: char)
    ensures 'A' <= c <= 'Z' ==> r as int == c as int + 32
    ensures !('A' <= c <= 'Z') ==> r == c
    ensures !('A' <= r <= 'Z')
  {
    if 'A' <= c <= 'Z' then (c as int + 32) as char else c
  }

  function Lower(s: string): (r: string)
    ensures |r| == |s|
  {
    seq(|s|, i requires 0 <= i < |s| => LowerAscii(s[i]))
  }

  /** `/\.xyz$/i.test(name)` for a lower-case suffix ".xyz": the name ends in it, ignoring case. */
  predicate EndsWithIgnoringCase(name: string, suffix: string) {
    |suffix| <= |name| && Lower(name[|name| - |suffix|..]) == suffix
  }

  /** The loader a file name selects: .png, then .stl, then .csv; none for any other name. */
  function LoaderFor(name: string): Option<Loader> {
    if EndsWithIgnoringCase(name, ".png") then Some(LoadImage)
    else if EndsWithIgnoringCase(name, ".stl") then Some(LoadMesh)
    else if EndsWithIgnoringCase(name, ".csv") then Some(LoadIntensities)
    else None
  }

  /** The handler one file contributes: one when its suffix is recognised, none otherwise. */
  function HandlerOf(f: File): seq<Handler> {
    match LoaderFor(f.name)
    case None => []
    case Some(l) => [Handler(l, f)]
  }

  /** The handlers of a file list, in the order of the files. */
  function HandlersFor(files: seq<File>): seq<Handler> {
    if files == [] then []
    else HandlersFor(files[..|files| - 1]) + HandlerOf(files[|files| - 1])
  }

  /** findFileHandlers: one handler per recognised file, in input order; other files are skipped. */
  method FindFileHandlers(files: seq<File>) returns (result: seq<Handler>)
    ensures result == HandlersFor(files)
  {
    result := [];
    var i := 0;
    while i < |files|
      invariant 0 <= i <= |files|
      invariant result == HandlersFor(files[..i])
    {
      var file := files[i];
      if EndsWithIgnoringCase(file.name, ".png") {
        result := result + [Handler(LoadImage, file)];
      } else if EndsWithIgnoringCase(file.name, ".stl") {
        result := result + [Handler(LoadMesh, file)];
      } else if EndsWithIgnoringCase(file.name, ".csv") {
        result := result + [Handler(LoadIntensities, file)];
      }
      assert files[..i + 1][..i] == files[..i];
      i := i + 1;
    }
    assert files[..|files|] == files;
  }

  /** The last character of a name ending in a suffix folds onto the suffix's last character. */
  lemma LastCharOfSuffix(name: string, suffix: string)
    requires |suffix| > 0 && EndsWithIgnoringCase(name, suffix)
    ensures LowerAscii(name[|name| - 1]) == suffix[|suffix| - 1]
  {
    var tail := name[|name| - |suffix|..];
    assert tail[|suffix| - 1] == name[|name| - 1];
    assert Lower(tail)[|suffix| - 1] == LowerAscii(tail[|suffix| - 1]);
  }

  /** No name ends in two of the three suffixes, so the order of the checks does not matter. */
  lemma SuffixesExclusive(name: string)
    ensures !(EndsWithIgnoringCase(name, ".png") && EndsWithIgnoringCase(name, ".stl"))
    ensures !(EndsWithIgnoringCase(name, ".png") && EndsWithIgnoringCase(name, ".csv"))
    ensures !(EndsWithIgnoringCase(name, ".stl") && EndsWithIgnoringCase(name, ".csv"))
  {
    if EndsWithIgnoringCase(name, ".png") {
      LastCharOfSuffix(name, ".png");
    }
    if EndsWithIgnoringCase(name, ".stl") {
      LastCharOfSuffix(name, ".stl");
    }
  }

  /** Each loader is selected exactly by its own suffix, whatever the other checks. */
  lemma LoaderForSuffix(name: string)
    ensures LoaderFor(name) == Some(LoadImage) <==> EndsWithIgnoringCase(name, ".png")
    ensures LoaderFor(name) == Some(LoadMesh) <==> EndsWithIgnoringCase(name, ".stl")
    ensures LoaderFor(name) == Some(LoadIntensities) <==> EndsWithIgnoringCase(name, ".csv")
    ensures LoaderFor(name) == None <==>
      !EndsWithIgnoringCase(name, ".png") && !EndsWithIgnoringCase(name, ".stl") &&
      !EndsWithIgnoringCase(name, ".csv")
  {
    SuffixesExclusive(name);
  }

  /** Folding the case first does not change a suffix test. */
  lemma SuffixTestIgnoresCase(name: string, suffix: string)
    ensures EndsWithIgnoringCase(Lower(name), suffix) <==> EndsWithIgnoringCase(name, suffix)
  {
    if |suffix| <= |name| {
      var k := |name| - |suffix|;
      var a, b := Lower(Lower(name)[k..]), Lower(name[k..]);
      forall i | 0 <= i < |suffix|
        ensures a[i] == b[i]
      {
        assert Lower(name)[k..][i] == Lower(name)[k + i] == LowerAscii(name[k + i]);
      }
      assert a == b;
    }
  }

  /** The dispatch ignores letter case: a name and its lower-case form select the same loader. */
  lemma LoaderIgnoresCase(name: string)
    ensures LoaderFor(Lower(name)) == LoaderFor(name)
  {
    SuffixTestIgnoresCase(name, ".png");
    SuffixTestIgnoresCase(name, ".stl");
    SuffixTestIgnoresCase(name, ".csv");
  }

  /** Handlers of a concatenation are the handlers of each part, in order. */
  lemma {:induction false} HandlersForAppend(a: seq<File>, b: seq<File>)
    ensures HandlersFor(a + b) == HandlersFor(a) + HandlersFor(b)
  {
    if b == [] {
      assert a + b == a;
    } else {
      var b' := b[..|b| - 1];
      assert (a + b)[..|a + b| - 1] == a + b';
      assert (a + b)[|a + b| - 1] == b[|b| - 1];
      HandlersForAppend(a, b');
    }
  }

  /** The result is never longer than the input, and as long exactly when every file is recognised. */
  lemma {:induction false} HandlersBound(files: seq<File>)
    ensures |HandlersFor(files)| <= |files|
    ensures |HandlersFor(files)| == |files| <==> forall i :: 0 <= i < |files| ==> LoaderFor(files[i].name).Some?
  {
    if files != [] {
      var init := files[..|files| - 1];
      HandlersBound(init);
      assert forall i :: 0 <= i < |init| ==> init[i] == files[i];
    }
  }

  /** Every handler binds the loader its file's suffix selects to a file of the input. */
  lemma {:induction false} HandlersSound(files: seq<File>, h: Handler)
    requires h in HandlersFor(files)
    ensures h.file in files && LoaderFor(h.file.name) == Some(h.loader)
  {
    var init := files[..|files| - 1];
    if h in HandlersFor(init) {
      HandlersSound(init, h);
    }
  }

  /** Every recognised file gets its handler. */
  lemma HandlersComplete(files: seq<File>, i: nat)
    requires i < |files| && LoaderFor(files[i].name).Some?
    ensures Handler(LoaderFor(files[i].name).value, files[i]) in HandlersFor(files)
  {
    var before, after := files[..i + 1], files[i + 1..];
    assert files == before + after;
    HandlersForAppend(before, after);
    assert before[..|before| - 1] == files[..i];
    assert HandlersFor(before) == HandlersFor(files[..i]) + HandlerOf(files[i]);
  }

  // ---------------------------------------------------------------------------
  // Drag and drop: the enter/leave counter and the drop-target attribute
  // ---------------------------------------------------------------------------

  datatype DragEvent = DragEnter | DragLeave | DragOver | Drop

  /** The shared counter and whether the body carries the drop-target attribute. */
  datatype Indicator = Indicator(counter: int, dropTarget: bool)

  const Idle := Indicator(0, false)

  /** The attribute is present exactly while more enters than leaves are pending. */
  predicate Consistent(s: Indicator) {
    s.dropTarget <==> s.counter >= 1
  }

  /**
   * One event: enter adds 1 and sets the attribute when the counter becomes
   * exactly 1; leave takes 1 away and removes it when the counter becomes
   * exactly 0; over changes nothing; drop resets both.
   */
  function Step(s: Indicator, ev: DragEvent): (r: Indicator)
    ensures Consistent(s) ==> Consistent(r)
  {
    match ev
    case DragEnter =>
      var c := s.counter + 1;
      Indicator(c, if c == 1 then true else s.dropTarget)
    case DragLeave =>
      var c := s.counter - 1;
      Indicator(c, if c == 0 then false else s.dropTarget)
    case DragOver => s
    case Drop => Idle
  }

  function Run(s: Indicator, evs: seq<DragEvent>): Indicator
    decreases |evs|
  {
    if evs == [] then s else Run(Step(s, evs[0]), evs[1..])
  }

  /** Enters minus leaves. */
  function Balance(evs: seq<DragEvent>): int {
    if evs == [] then 0
    else (match evs[0] case DragEnter => 1 case DragLeave => -1 case _ => 0) + Balance(evs[1..])
  }

  lemma {:induction false} RunAppend(s: Indicator, a: seq<DragEvent>, b: seq<DragEvent>)
    ensures Run(s, a + b) == Run(Run(s, a), b)
    decreases |a|
  {
    if a != [] {
      assert (a + b)[1..] == a[1..] + b;
      RunAppend(Step(s, a[0]), a[1..], b);
    } else {
      assert a + b == b;
    }
  }

  /** From a consistent state (the initial one is), every event sequence keeps the attribute in step with the counter. */
  lemma {:induction false} RunKeepsConsistent(s: Indicator, evs: seq<DragEvent>)
    requires Consistent(s)
    ensures Consistent(Run(s, evs))
    decreases |evs|
  {
    if evs != [] {
      RunKeepsConsistent(Step(s, evs[0]), evs[1..]);
    }
  }

  /** Without a drop, the counter moves by enters minus leaves. */
  lemma {:induction false} RunCounts(s: Indicator, evs: seq<DragEvent>)
    requires Drop !in evs
    ensures Run(s, evs).counter == s.counter + Balance(evs)
    decreases |evs|
  {
    if evs != [] {
      assert evs[0] != Drop;
      assert forall x :: x in evs[1..] ==> x in evs;
      RunCounts(Step(s, evs[0]), evs[1..]);
    }
  }

  /** A drop forgets everything before it. */
  lemma DropResets(s: Indicator, before: seq<DragEvent>, after: seq<DragEvent>)
    ensures Run(s, before + [Drop] + after) == Run(Idle, after)
  {
    RunAppend(s, before + [Drop], after);
    RunAppend(s, before, [Drop]);
  }

  /** From the initial state and without a drop, the indicator shows exactly while enters outnumber leaves. */
  lemma IndicatorShowsPendingDrag(evs: seq<DragEvent>)
    requires Drop !in evs
    ensures Run(Idle, evs).dropTarget <==> Balance(evs) >= 1
  {
    RunKeepsConsistent(Idle, evs);
    RunCounts(Idle, evs);
  }

  /** An enter from a counter below 0 does not show the indicator; a leave with no enter before it gets the counter there. */
  lemma StrayLeaveHidesNextEnter(s: Indicator)
    requires s.counter <= -1
    ensures Step(s, DragEnter).dropTarget == s.dropTarget
    ensures Run(Idle, [DragLeave]).counter == -1 && Run(Idle, [DragLeave, DragEnter]) == Idle
  {
    assert Run(Idle, [DragLeave, DragEnter]) == Run(Indicator(-1, false), [DragEnter]);
  }

  /** The DragAndDrop listener object with its shared counter; invoked logs the handlers openFiles invoked. */
  class DragAndDrop {
    var counter: int
    var dropTarget: bool
    var invoked: seq<Handler>

    function State(): Indicator
      reads this
    {
      Indicator(counter, dropTarget)
    }

    constructor ()
      ensures State() == Idle && invoked == []
    {
      counter := 0;
      dropTarget := false;
      invoked := [];
    }

    method OnDragEnter()
      modifies this
      ensures State() == Step(old(State()), DragEnter) && invoked == old(invoked)
    {
      counter := counter + 1;
      if counter == 1 {
        dropTarget := true;
      }
    }

    method OnDragLeave()
      modifies this
      ensures State() == Step(old(State()), DragLeave) && invoked == old(invoked)
    {
      counter := counter - 1;
      if counter == 0 {
        dropTarget := false;
      }
    }

    /** drop: reset, then openFiles runs the handlers of the dropped files one by one. */
    method OnDrop(files: seq<File>)
      modifies this
      ensures State() == Step(old(State()), Drop)
      ensures invoked == old(invoked) + HandlersFor(files)
    {
      counter := 0;
      dropTarget := false;
      var handlers := FindFileHandlers(files);
      var i := 0;
      while i < |handlers|
        invariant 0 <= i <= |handlers|
        invariant State() == Idle
        invariant invoked == old(invoked) + handlers[..i]
      {
        invoked := invoked + [handlers[i]];
        assert handlers[..i + 1] == handlers[..i] + [handlers[i]];
        i := i + 1;
      }
      assert handlers[..|handlers|] == handlers;
    }
  }

  // ---------------------------------------------------------------------------
  // Keyboard shortcuts
  // ---------------------------------------------------------------------------

  datatype Action = NavigateUp | NavigateDown | OpenFiles | ActivateMapSelector | TakeSnapshot

  /** The fields of a key event the handler reads; 0 stands for a falsy which. */
  datatype KeyEvent = KeyEvent(ctrlKey: bool, altKey: bool, metaKey: bool, which: nat, keyCode: nat)

  datatype KeyOutcome = Ignored | Handled(action: Action)

  /** `/^Mac/i.test(navigator.platform)` */
  predicate IsMacPlatform(platform: string) {
    |platform| >= 3 && Lower(platform[..3]) == "mac"
  }

  /** The modifier gate: Command alone on a Mac, Control alone elsewhere (Shift is not looked at). */
  predicate Considered(isMac: bool, e: KeyEvent) {
    if isMac then !(e.ctrlKey || e.altKey || !e.metaKey)
    else !(!e.ctrlKey || e.altKey || e.metaKey)
  }

  /** The key code as a decimal string: which when it is truthy, keyCode otherwise. */
  function KeyOf(e: KeyEvent): string {
    Decimal.NatToString(if e.which != 0 then e.which else e.keyCode)
  }

  /** The key event initKeyboardShortcuts listens to. */
  function KeyPressEvent(isWebkit: bool): string {
    if isWebkit then "keydown" else "keypress"
  }

  /** The table before initKeyboardShortcuts: the arrow keys. */
  const ArrowKeys: map<string, Action> := map["38" := NavigateUp, "40" := NavigateDown]

  /** The table after initKeyboardShortcuts. */
  function Shortcuts(isWebkit: bool): map<string, Action> {
    ArrowKeys[if isWebkit then "79" else "111" := OpenFiles]
             [if isWebkit then "70" else "102" := ActivateMapSelector]
             [if isWebkit then "83" else "115" := TakeSnapshot]
  }

  /** The key code that triggers an action: letter codes of keydown on WebKit, of keypress elsewhere. */
  function CodeFor(isWebkit: bool, a: Action): nat {
    match a
    case NavigateUp => 38
    case NavigateDown => 40
    case OpenFiles => if isWebkit then 79 else 111
    case ActivateMapSelector => if isWebkit then 70 else 102
    case TakeSnapshot => if isWebkit then 83 else 115
  }

  /** No key press passes the gate on both kinds of platform. */
  lemma GateDependsOnPlatform(e: KeyEvent)
    ensures !(Considered(true, e) && Considered(false, e))
    ensures Considered(true, e) <==> e.metaKey && !e.ctrlKey && !e.altKey
    ensures Considered(false, e) <==> e.ctrlKey && !e.altKey && !e.metaKey
  {
  }

  /** An action runs for exactly one key code, the one the table was initialised with. */
  lemma ShortcutFor(isWebkit: bool, code: nat, a: Action)
    ensures Decimal.NatToString(code) in Shortcuts(isWebkit) && Shortcuts(isWebkit)[Decimal.NatToString(code)] == a
        <==> code == CodeFor(isWebkit, a)
  {
    var t := Shortcuts(isWebkit);
    var key := Decimal.NatToString(code);
    var want := CodeFor(isWebkit, a);
    KeyNames();
    assert Decimal.NatToString(want) in t && t[Decimal.NatToString(want)] == a;
    if key in t && t[key] == a {
      Decimal.NatToStringInjective(code, want);
    }
  }

  /** The decimal strings of the seven table codes. */
  lemma KeyNames()
    ensures Decimal.NatToString(38) == "38" && Decimal.NatToString(40) == "40"
    ensures Decimal.NatToString(79) == "79" && Decimal.NatToString(70) == "70" && Decimal.NatToString(83) == "83"
    ensures Decimal.NatToString(111) == "111" && Decimal.NatToString(102) == "102" && Decimal.NatToString(115) == "115"
  {
    assert Decimal.NatToString(11) == "11";
    assert Decimal.NatToString(10) == "10";
  }

  /** The KEYBOARD_SHORTCUTS table and the key event its listener was added for. */
  class KeyboardShortcuts {
    var table: map<string, Action>
    var listenedEvent: Option<string>

    constructor ()
      ensures table == ArrowKeys && listenedEvent == None
    {
      table := ArrowKeys;
      listenedEvent := None;
    }

    /** initKeyboardShortcuts: add the three letter shortcuts and listen to the platform's key event. */
    method Init(isWebkit: bool)
      modifies this
      ensures table == old(table)[if isWebkit then "79" else "111" := OpenFiles]
                                 [if isWebkit then "70" else "102" := ActivateMapSelector]
                                 [if isWebkit then "83" else "115" := TakeSnapshot]
      ensures old(table) == ArrowKeys ==> table == Shortcuts(isWebkit)
      ensures listenedEvent == Some(KeyPressEvent(isWebkit))
    {
      table := table[if isWebkit then "79" else "111" := OpenFiles];
      table := table[if isWebkit then "70" else "102" := ActivateMapSelector];
      table := table[if isWebkit then "83" else "115" := TakeSnapshot];
      listenedEvent := Some(KeyPressEvent(isWebkit));
    }

    /**
     * onKeyPress: a press that fails the modifier gate is ignored; otherwise
     * it is handled (default prevented, handler run) exactly when its key
     * code string is in the table.
     */
    method OnKeyPress(platform: string, e: KeyEvent) returns (r: KeyOutcome)
      ensures r.Handled? <==> Considered(IsMacPlatform(platform), e) && KeyOf(e) in table
      ensures r.Handled? ==> r.action == table[KeyOf(e)]
    {
      if IsMacPlatform(platform) {
        if e.ctrlKey || e.altKey || !e.metaKey {
          return Ignored;
        }
      } else {
        if !e.ctrlKey || e.altKey || e.metaKey {
          return Ignored;
        }
      }
      var key := Decimal.NatToString(if e.which != 0 then e.which else e.keyCode);
      if key in table {
        r := Handled(table[key]);
      } else {
        r := Ignored;
      }
    }
  }
}
