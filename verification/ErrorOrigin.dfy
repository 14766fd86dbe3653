/**
 Where an error came from: the first stack frame of the project's own code in the error or, down
 its chain of causes, in one of the errors behind it. Chains may be cyclic.
 */
module ErrorOrigin {
  import opened Wrappers
  import opened Text

  // ---------- One stack ----------

  const OWN_PATH_MARKERS := ["/src/", "/dist/", "/test/"]

  datatype Frame = Frame(fn: string, location: string)

  /** `.` of a regular expression stops at these. */
  predicate NoLineTerminator(s: string) {
    forall c <- s :: c !in {'\n', '\r', '\U{2028}', '\U{2029}'}
  }

  /** `text (place)` can be split at the white space `i`. */
  predicate SplitsAt(s: string, i: nat) {
    && i + 2 < |s| && IsSpace(s[i]) && s[i + 1] == '(' && s[|s| - 1] == ')'
    && NoLineTerminator(s[..i]) && NoLineTerminator(s[i + 2..|s| - 1])
  }

  /** The last such position before `n`: the function part takes as much as it can. */
  function LastSplit(s: string, n: nat): (i: Option<nat>)
    ensures i.Some? ==> SplitsAt(s, i.value)
  {
    if n == 0 then None else if SplitsAt(s, n - 1) then Some(n - 1) else LastSplit(s, n - 1)
  }

  /** A line `at Fn (place)` or `at place`; anything else is not a frame. An empty `fn` means none. */
  function ParseFrame(rawLine: string): Option<Frame> {
    var line := Trim(rawLine);
    if !StartsWith(line, "at ") then None
    else
      var rest := Trim(line[3..]);
      match LastSplit(rest, |rest|)
      case None => Some(Frame("", rest))
      case Some(i) => Some(Frame(Trim(rest[..i]), Trim(rest[i + 2..|rest| - 1])))
  }

  /** Inside the project, never a dependency and never an internal of the platform. */
  predicate IsOwnFrame(location: string) {
    && !StartsWith(location, "node:")
    && !Contains(location, "node_modules")
    && exists marker <- OWN_PATH_MARKERS :: Contains(location, marker)
  }

  /** The path from the first marker's directory on; the markers are tried in their order. */
  function RelativeFrom(location: string, markers: seq<string>): Option<string>
    decreases |markers|
  {
    if markers == [] then None
    else match IndexOf(location, markers[0])
         case Some(i) => if i < |location| then Some(location[i + 1..]) else None
         case None => RelativeFrom(location, markers[1..])
  }

  function LastColon(s: string): Option<nat>
    ensures LastColon(s).Some? ==> LastColon(s).value < |s| && s[LastColon(s).value] == ':'
    decreases |s|
  {
    if s == [] then None else if s[|s| - 1] == ':' then Some(|s| - 1) else LastColon(s[..|s| - 1])
  }

  /** `path:line:col` without the column; any other text as it is. */
  function StripColumn(location: string): string {
    match LastColon(location)
    case None => location
    case Some(j) =>
      match LastColon(location[..j])
      case None => location
      case Some(i) =>
        if AllDigits(location[i + 1..j]) && AllDigits(location[j + 1..]) && NoLineTerminator(location[..i])
        then location[..j] else location
  }

  /** What one line contributes. */
  function OwnPlace(rawLine: string): Option<string> {
    match ParseFrame(rawLine)
    case None => None
    case Some(frame) =>
      if !IsOwnFrame(frame.location) then None
      else match RelativeFrom(frame.location, OWN_PATH_MARKERS)
           case None => None
           case Some(relative) =>
             if relative == "" then None
             else
               var location := StripColumn(relative);
               Some(if frame.fn == "" then location else location + " (" + frame.fn + ")")
  }

  /** An own line always has a place to name, so the scan never passes over one. */
  lemma OwnLinesHavePlaces(rawLine: string)
    ensures OwnPlace(rawLine).Some? <==> ParseFrame(rawLine).Some? && IsOwnFrame(ParseFrame(rawLine).value.location)
    ensures OwnPlace(rawLine).Some? ==> OwnPlace(rawLine).value != ""
  {
    if ParseFrame(rawLine).Some? && IsOwnFrame(ParseFrame(rawLine).value.location) {
      RelativeExists(ParseFrame(rawLine).value.location, OWN_PATH_MARKERS);
    }
  }

  lemma {:induction false} RelativeExists(location: string, markers: seq<string>)
    requires exists marker <- markers :: Contains(location, marker)
    requires forall marker <- markers :: |marker| >= 2
    ensures RelativeFrom(location, markers).Some? && RelativeFrom(location, markers).value != ""
    decreases |markers|
  {
    if !Contains(location, markers[0]) {
      RelativeExists(location, markers[1..]);
    }
  }

  /** The named path is the end of the location, from one of the project's directories on. */
  lemma {:induction false} RelativeIsInside(location: string, markers: seq<string>)
    requires RelativeFrom(location, markers).Some?
    requires forall marker <- markers :: |marker| >= 1
    ensures var relative := RelativeFrom(location, markers).value;
            && (exists marker <- markers :: marker[1..] <= relative)
            && exists i :: 0 <= i <= |location| && relative == location[i..]
    decreases |markers|
  {
    match IndexOf(location, markers[0]) {
      case Some(i) =>
        var relative := RelativeFrom(location, markers).value;
        assert relative == location[i + 1..];
        assert location[i..i + |markers[0]|] == markers[0];
        assert relative[..|markers[0]| - 1] == location[i..i + |markers[0]|][1..];
        assert markers[0] in markers && markers[0][1..] <= relative;
      case None =>
        RelativeIsInside(location, markers[1..]);
    }
  }

  lemma {:induction false} LastColonBeforeDigits(path: string, digits: string)
    requires forall i :: 0 <= i < |digits| ==> digits[i] != ':'
    ensures LastColon(path + ":" + digits) == Some(|path|)
    decreases |digits|
  {
    var s := path + ":" + digits;
    if digits == [] {
    } else {
      assert s[..|s| - 1] == path + ":" + digits[..|digits| - 1];
      LastColonBeforeDigits(path, digits[..|digits| - 1]);
    }
  }

  /** From `path:line:column` only the column goes, whatever colons the path has. */
  lemma ColumnIsStripped(path: string, line: string, column: string)
    requires NoLineTerminator(path) && AllDigits(line) && AllDigits(column)
    ensures StripColumn(path + ":" + line + ":" + column) == path + ":" + line
  {
    var s := path + ":" + line + ":" + column;
    LastColonBeforeDigits(path + ":" + line, column);
    LastColonBeforeDigits(path, line);
    var j := |path + ":" + line|;
    assert s[..j] == path + ":" + line && s[j + 1..] == column;
    assert s[|path| + 1..j] == line && s[..|path|] == path;
  }

  // ---------- Whole lines ----------

  /** A text that white space and an opening bracket do not split. */
  ghost predicate Unsplit(s: string) {
    forall i :: 0 <= i < |s| - 1 ==> !(IsSpace(s[i]) && s[i + 1] == '(')
  }

  predicate Trimmed(s: string) {
    s != "" && !IsSpace(s[0]) && !IsSpace(s[|s| - 1])
  }

  lemma {:induction false} LastSplitIs(fn: string, place: string, n: nat)
    requires Unsplit(place) && NoLineTerminator(fn) && NoLineTerminator(place)
    requires var s := fn + " (" + place + ")"; |fn| < n <= |s|
    ensures LastSplit(fn + " (" + place + ")", n) == Some(|fn|)
    decreases n
  {
    var s := fn + " (" + place + ")";
    if n == |fn| + 1 {
      assert s[..|fn|] == fn && s[|fn| + 2..|s| - 1] == place;
    } else {
      var i := n - 1;
      if i > |fn| + 1 && i + 2 < |s| {
        assert s[i] == place[i - |fn| - 2] && s[i + 1] == place[i - |fn| - 1];
      }
      assert !SplitsAt(s, i);
      LastSplitIs(fn, place, n - 1);
    }
  }

  /** What `at ` introduces, however indented. */
  lemma IndentedLine(indent: string, rest: string)
    requires AllSpace(indent) && Trimmed(rest)
    ensures var line := Trim(indent + "at " + rest);
            StartsWith(line, "at ") && line[3..] == rest && Trim(rest) == rest
  {
    var line := "at " + rest;
    assert indent + "at " + rest == indent + line + "";
    TrimIgnoresSpace(indent, line, "");
    TrimmedStays(line);
    assert line[3..] == rest && line[..3] == "at ";
    TrimmedStays(rest);
  }

  lemma PartsOf(fn: string, place: string)
    requires Trimmed(fn) && Trimmed(place)
    ensures var rest := fn + " (" + place + ")";
            Trimmed(rest) && Trim(rest[..|fn|]) == fn && Trim(rest[|fn| + 2..|rest| - 1]) == place
  {
    var rest := fn + " (" + place + ")";
    assert rest[..|fn|] == fn && rest[|fn| + 2..|rest| - 1] == place;
    TrimmedStays(fn);
    TrimmedStays(place);
    assert rest[0] == fn[0] && rest[|rest| - 1] == ')';
  }

  /** A line `at fn (place)`, however indented, is read as that function at that place. */
  lemma LineIsRead(indent: string, fn: string, place: string)
    requires AllSpace(indent) && Trimmed(fn) && Trimmed(place) && Unsplit(place)
    requires NoLineTerminator(fn) && NoLineTerminator(place)
    ensures ParseFrame(indent + "at " + (fn + " (" + place + ")")) == Some(Frame(fn, place))
  {
    var rest := fn + " (" + place + ")";
    PartsOf(fn, place);
    IndentedLine(indent, rest);
    LastSplitIs(fn, place, |rest|);
  }

  lemma {:induction false} NoSplit(s: string, n: nat)
    requires s != "" && s[|s| - 1] != ')'
    ensures LastSplit(s, n) == None
    decreases n
  {
    if n == 0 {
    } else {
      NoSplit(s, n - 1);
    }
  }

  /** And a line `at place` as that place in no named function. */
  lemma BareLineIsRead(indent: string, place: string)
    requires AllSpace(indent) && Trimmed(place) && place[|place| - 1] != ')'
    ensures ParseFrame(indent + "at " + place) == Some(Frame("", place))
  {
    IndentedLine(indent, place);
    NoSplit(place, |place|);
  }

  lemma FirstMarkerDecides(place: string, markers: seq<string>, n: nat)
    requires markers != [] && |markers[0]| >= 1 && IndexOf(place, markers[0]) == Some(n)
    ensures n < |place| && RelativeFrom(place, markers) == Some(place[n + 1..])
  {
    assert OccursAt(place, markers[0], n);
  }

  lemma MarkerIsOwn(place: string)
    requires Contains(place, "/src/") && !StartsWith(place, "node:") && !Contains(place, "node_modules")
    ensures IsOwnFrame(place)
  {
    assert OWN_PATH_MARKERS[0] == "/src/" && OWN_PATH_MARKERS[0] in OWN_PATH_MARKERS;
  }

  /**
   A frame whose place reads `path:line:column` from the first `src/` on is given as `path:line`, with
   its function if it has one.
   */
  lemma OwnPlaceOf(rawLine: string, fn: string, place: string, n: nat, path: string, line: string, column: string)
    requires ParseFrame(rawLine) == Some(Frame(fn, place)) && IndexOf(place, "/src/") == Some(n) && n < |place|
    requires !StartsWith(place, "node:") && !Contains(place, "node_modules")
    requires NoLineTerminator(path) && AllDigits(line) && AllDigits(column)
    requires place[n + 1..] == path + ":" + line + ":" + column
    ensures var kept := path + ":" + line;
            OwnPlace(rawLine) == Some(if fn == "" then kept else kept + " (" + fn + ")")
  {
    assert OWN_PATH_MARKERS[0] == "/src/";
    FirstMarkerDecides(place, OWN_PATH_MARKERS, n);
    MarkerIsOwn(place);
    ColumnIsStripped(path, line, column);
    assert StripColumn(path + ":" + line + ":" + column) == path + ":" + line && place[n + 1..] != "";
  }

  /** A frame of a dependency or of the platform is never named, and neither is one outside the project. */
  lemma ForeignFrameNamesNothing(rawLine: string, fn: string, place: string)
    requires ParseFrame(rawLine) == Some(Frame(fn, place))
    requires || StartsWith(place, "node:") || Contains(place, "node_modules")
             || (!Contains(place, "/src/") && !Contains(place, "/dist/") && !Contains(place, "/test/"))
    ensures OwnPlace(rawLine) == None
  {
  }

  /** What the lines of a stack contribute, top down. */
  function Places(lines: seq<string>): seq<Option<string>> {
    seq(|lines|, i requires 0 <= i < |lines| => OwnPlace(lines[i]))
  }

  function FirstSome<T>(s: seq<Option<T>>): Option<T>
    decreases |s|
  {
    if s == [] then None else if s[0].Some? then s[0] else FirstSome(s[1..])
  }

  /** The place a stack names. */
  function StackPlace(stack: Option<string>): Option<string> {
    if stack == None || stack.value == "" then None else FirstSome(Places(Lines(stack.value)))
  }

  /** There is one exactly when some entry is there, and it is the first of them. */
  lemma {:induction false} FirstSomeSpec<T>(s: seq<Option<T>>)
    ensures FirstSome(s).None? <==> forall k :: 0 <= k < |s| ==> s[k].None?
    ensures FirstSome(s).Some? ==>
              exists k :: 0 <= k < |s| && s[k] == FirstSome(s) && forall m :: 0 <= m < k ==> s[m].None?
    decreases |s|
  {
    if s != [] && s[0].None? {
      FirstSomeSpec(s[1..]);
      assert forall k :: 0 < k < |s| ==> s[k] == s[1..][k - 1];
      if FirstSome(s).Some? {
        var k :| 0 <= k < |s[1..]| && s[1..][k] == FirstSome(s) && forall m :: 0 <= m < k ==> s[1..][m].None?;
        assert s[k + 1] == FirstSome(s) && forall m :: 0 <= m < k + 1 ==> s[m].None?;
      }
    }
  }

  /** The scan over the lines, stopping at the first own one. */
  method FrameFromStack(stack: Option<string>) returns (frame: Option<string>)
    ensures frame == StackPlace(stack)
  {
    if stack == None || stack.value == "" {
      return None;
    }
    var lines := Lines(stack.value);
    ghost var places := Places(lines);
    var i := 0;
    while i < |lines|
      invariant 0 <= i <= |lines|
      invariant FirstSome(places) == FirstSome(places[i..])
    {
      var place := OwnPlace(lines[i]);
      assert places[i..][0] == place && places[i..][1..] == places[i + 1..];
      if place.Some? {
        return place;
      }
      i := i + 1;
    }
    return None;
  }

  // ---------- The chain of causes ----------

  const MAX_CAUSE_DEPTH := 10

  /** A value in a `cause`: an object on the heap, or something that cannot be followed. */
  datatype Value = Object(id: nat) | Primitive

  datatype ErrorObject = ErrorObject(stack: Option<string>, cause: Value)

  /** The objects, by identity. */
  type Heap = seq<ErrorObject>

  /** An error as the walk sees it: the place its stack names, and its cause. */
  datatype Node = Node(place: Option<string>, cause: Value)

  type Chain = seq<Node>

  function ChainOf(h: Heap): (chain: Chain)
    ensures |chain| == |h|
  {
    if h == [] then []
    else ChainOf(h[..|h| - 1]) + [Node(StackPlace(h[|h| - 1].stack), h[|h| - 1].cause)]
  }

  lemma {:induction false} ChainAt(h: Heap, id: nat)
    requires id < |h|
    ensures ChainOf(h)[id] == Node(StackPlace(h[id].stack), h[id].cause)
    decreases |h|
  {
    if id >= |h| - 1 {
    } else {
      ChainAt(h[..|h| - 1], id);
    }
  }

  function CauseOf(h: Chain, v: Value): Value {
    if v.Object? && v.id < |h| then h[v.id].cause else Primitive
  }

  function PlaceOf(h: Chain, v: Value): Option<string> {
    if v.Object? && v.id < |h| then h[v.id].place else None
  }

  /** The value `n` causes down. */
  function Nth(h: Chain, v: Value, n: nat): Value {
    if n == 0 then v else CauseOf(h, Nth(h, v, n - 1))
  }

  /** The first depth from `n` on, below the limit, with a place other than `except`. */
  function FirstDepth(h: Chain, v: Value, n: nat, except: Option<string>): Option<nat>
    decreases MAX_CAUSE_DEPTH - n
  {
    if n >= MAX_CAUSE_DEPTH then None
    else
      var place := PlaceOf(h, Nth(h, v, n));
      if place.Some? && place != except then Some(n) else FirstDepth(h, v, n + 1, except)
  }

  datatype Origin = Origin(origin: Option<string>, causeOrigin: Option<string>)

  /**
   The intended answer, without any guard against cycles: among the error and the next nine
   causes, the first place, and the first later place that differs from it.
   */
  function Specified(h: Chain, error: Value): Origin {
    match FirstDepth(h, error, 0, None)
    case None => Origin(None, None)
    case Some(n) =>
      var origin := PlaceOf(h, Nth(h, error, n));
      match FirstDepth(h, error, n + 1, origin)
      case None => Origin(origin, None)
      case Some(m) => Origin(origin, PlaceOf(h, Nth(h, error, m)))
  }

  /** The objects at depths 0 to n - 1. */
  ghost function Visited(h: Chain, v: Value, n: nat): set<Value> {
    set k | 0 <= k < n :: Nth(h, v, k)
  }

  /** From a value seen before, the chain only meets values seen before. */
  lemma {:induction false} CycleStaysVisited(h: Chain, v: Value, n: nat, k: nat)
    requires Nth(h, v, n) in Visited(h, v, n) && n <= k
    ensures Nth(h, v, k) in Visited(h, v, n)
    decreases k
  {
    if k <= n {
    } else {
      CycleStaysVisited(h, v, n, k - 1);
      var i :| 0 <= i < n && Nth(h, v, i) == Nth(h, v, k - 1);
      assert Nth(h, v, i + 1) == Nth(h, v, k);
      if i + 1 < n {
        assert Nth(h, v, i + 1) in Visited(h, v, n);
      } else {
        assert Nth(h, v, i + 1) == Nth(h, v, n);
      }
    }
  }

  /** Past a value that cannot be followed there are no more objects. */
  lemma {:induction false} PrimitiveEnds(h: Chain, v: Value, n: nat, k: nat)
    requires Nth(h, v, n).Primitive? && n <= k
    ensures Nth(h, v, k).Primitive?
    decreases k
  {
    if k <= n {
    } else {
      PrimitiveEnds(h, v, n, k - 1);
    }
  }

  /** The guards lose nothing: where the walk stops, no place other than `except` lies ahead. */
  lemma {:induction false} NothingAhead(h: Chain, v: Value, n: nat, except: Option<string>, k: nat)
    requires Nth(h, v, n).Primitive? || Nth(h, v, n) in Visited(h, v, n)
    requires OnlyPlace(h, Visited(h, v, n), except)
    requires n <= k
    ensures FirstDepth(h, v, k, except).None?
    decreases MAX_CAUSE_DEPTH - k
  {
    if k >= MAX_CAUSE_DEPTH {
    } else {
      if Nth(h, v, n).Primitive? {
        PrimitiveEnds(h, v, n, k);
      } else {
        CycleStaysVisited(h, v, n, k);
      }
      NothingAhead(h, v, n, except, k + 1);
    }
  }

  /** Where one of the two loops of the walk ended, and what it found. */
  datatype Walked = Walked(current: Value, depth: nat, seen: set<Value>, found: Option<string>)

  /** A walk down the causes of `error` stands here, having met no place but `except`. */
  ghost predicate OnPath(h: Chain, error: Value, w: Walked, except: Option<string>) {
    && w.depth <= MAX_CAUSE_DEPTH && w.current == Nth(h, error, w.depth)
    && w.seen == Visited(h, error, w.depth) && OnlyPlace(h, w.seen, except)
  }

  /** It found the first place other than `except`, or there is none within the limit. */
  ghost predicate WalkEnds(h: Chain, error: Value, from: Walked, except: Option<string>, w: Walked) {
    if w.found.None? then FirstDepth(h, error, from.depth, except).None?
    else
      && w.depth > 0 && FirstDepth(h, error, from.depth, except) == Some(w.depth - 1)
      && w.found == PlaceOf(h, Nth(h, error, w.depth - 1))
      && (except == None ==> OnPath(h, error, w, w.found))
  }

  lemma TwoWalksAnswer(h: Chain, error: Value, start: Walked, first: Walked, second: Walked)
    requires start == Walked(error, 0, {}, None) && WalkEnds(h, error, start, None, first)
    requires first.found.Some? ==> WalkEnds(h, error, first, first.found, second)
    ensures Specified(h, error) ==
            if first.found.None? then Origin(None, None) else Origin(first.found, second.found)
  {
    var outer := FirstDepth(h, error, 0, None);
    if first.found.None? {
      assert outer.None?;
    } else {
      assert outer == Some(first.depth - 1) && first.found == PlaceOf(h, Nth(h, error, outer.value));
      var inner := FirstDepth(h, error, first.depth, first.found);
      assert inner.None? <==> second.found.None?;
    }
  }

  lemma StartOnPath(h: Chain, error: Value)
    ensures OnPath(h, error, Walked(error, 0, {}, None), None)
  {
    assert Visited(h, error, 0) == {};
  }

  /** One loop of the walk: down the causes from `from` until a place other than `except`. */
  method Walk(heap: Heap, ghost h: Chain, error: Value, from: Walked, except: Option<string>) returns (w: Walked)
    requires h == ChainOf(heap) && OnPath(h, error, from, except)
    ensures WalkEnds(h, error, from, except, w)
  {
    var current, depth, seen := from.current, from.depth, from.seen;
    while current.Object? && depth < MAX_CAUSE_DEPTH && current !in seen
      invariant OnPath(h, error, Walked(current, depth, seen, None), except)
      invariant FirstDepth(h, error, from.depth, except) == FirstDepth(h, error, depth, except)
      decreases MAX_CAUSE_DEPTH - depth
    {
      StepOnPath(h, error, Walked(current, depth, seen, None), except);
      seen := seen + {current};
      depth := depth + 1;
      var frame, cause := Inspect(heap, current);
      current := cause;
      if frame.Some? && frame != except {
        return Walked(current, depth, seen, frame);
      }
    }
    WalkStops(h, error, from, except, Walked(current, depth, seen, None));
    return Walked(current, depth, seen, None);
  }

  /** Where no guard lets the loop go on, there is nothing to find. */
  lemma WalkStops(h: Chain, error: Value, from: Walked, except: Option<string>, w: Walked)
    requires OnPath(h, error, w, except) && w.found.None?
    requires w.current.Object? && w.depth < MAX_CAUSE_DEPTH ==> w.current in w.seen
    requires FirstDepth(h, error, from.depth, except) == FirstDepth(h, error, w.depth, except)
    ensures WalkEnds(h, error, from, except, w)
  {
    if w.depth < MAX_CAUSE_DEPTH {
      NothingAhead(h, error, w.depth, except, w.depth);
    }
  }

  /** One turn of the loop: on to the cause when nothing new is named here, otherwise the end. */
  lemma StepOnPath(h: Chain, error: Value, w: Walked, except: Option<string>)
    requires OnPath(h, error, w, except) && w.depth < MAX_CAUSE_DEPTH
    ensures var place := PlaceOf(h, w.current);
            var next := Walked(CauseOf(h, w.current), w.depth + 1, w.seen + {w.current}, None);
            if place.Some? && place != except then
              && FirstDepth(h, error, w.depth, except) == Some(w.depth)
              && (except == None ==> OnPath(h, error, next.(found := place), place))
            else
              && FirstDepth(h, error, w.depth, except) == FirstDepth(h, error, w.depth + 1, except)
              && OnPath(h, error, next, except)
  {
    VisitedGrows(h, error, w.depth);
  }

  /** No value of `seen` names a place other than `except`. */
  ghost predicate OnlyPlace(h: Chain, seen: set<Value>, except: Option<string>) {
    forall u <- seen :: PlaceOf(h, u).None? || PlaceOf(h, u) == except
  }

  lemma VisitedGrows(h: Chain, v: Value, n: nat)
    ensures Visited(h, v, n + 1) == Visited(h, v, n) + {Nth(h, v, n)}
  {
  }

  /**
   The walk as it is: one identity set and one depth counter over both loops. It terminates on
   every heap and gives the intended answer, so on a cyclic chain the identity set changes nothing.
   */
  method ResolveErrorOrigin(heap: Heap, error: Value) returns (r: Origin)
    ensures r == Specified(ChainOf(heap), error)
  {
    ghost var h := ChainOf(heap);
    StartOnPath(h, error);
    var start := Walked(error, 0, {}, None);
    var first := Walk(heap, h, error, start, None);
    if first.found == None {
      TwoWalksAnswer(h, error, start, first, first);
      return Origin(None, None);
    }
    var second := Walk(heap, h, error, first, first.found);
    TwoWalksAnswer(h, error, start, first, second);
    return Origin(first.found, second.found);
  }

  /** The place a value's stack names, and its cause. */
  method Inspect(heap: Heap, v: Value) returns (frame: Option<string>, cause: Value)
    ensures frame == PlaceOf(ChainOf(heap), v) && cause == CauseOf(ChainOf(heap), v)
  {
    if v.Object? && v.id < |heap| {
      ChainAt(heap, v.id);
      frame := FrameFromStack(heap[v.id].stack);
      cause := heap[v.id].cause;
    } else {
      frame, cause := None, Primitive;
    }
  }

  /** A place other than `except`, `k` causes down. */
  predicate NamesPlace(h: Chain, v: Value, k: nat, except: Option<string>) {
    PlaceOf(h, Nth(h, v, k)).Some? && PlaceOf(h, Nth(h, v, k)) != except
  }

  lemma {:induction false} FirstDepthSpec(h: Chain, v: Value, n: nat, except: Option<string>)
    ensures var r := FirstDepth(h, v, n, except);
            && (r.None? ==> forall k: nat :: n <= k < MAX_CAUSE_DEPTH ==> !NamesPlace(h, v, k, except))
            && (r.Some? ==> n <= r.value < MAX_CAUSE_DEPTH && NamesPlace(h, v, r.value, except)
                            && forall k: nat :: n <= k < r.value ==> !NamesPlace(h, v, k, except))
    decreases MAX_CAUSE_DEPTH - n
  {
    if n >= MAX_CAUSE_DEPTH {
    } else {
      FirstDepthSpec(h, v, n + 1, except);
    }
  }

  /** `n` is the depth of the first place, and the second is that of the first error below it with another one. */
  ghost predicate OriginAt(h: Chain, error: Value, r: Origin, n: nat) {
    && n < MAX_CAUSE_DEPTH && OutermostPlace(h, error, n) && r.origin == PlaceOf(h, Nth(h, error, n))
    && (if r.causeOrigin.None? then NothingBelow(h, error, n, r.origin)
        else exists m: nat :: FirstBelow(h, error, n, m, r.origin) && r.causeOrigin == PlaceOf(h, Nth(h, error, m)))
  }

  ghost predicate NothingBelow(h: Chain, error: Value, n: nat, origin: Option<string>) {
    forall k: nat :: n < k < MAX_CAUSE_DEPTH ==> !NamesPlace(h, error, k, origin)
  }

  /**
   What the answer means: no origin exactly when none of the ten errors has own code in its stack;
   the origin is the outermost one that has; the second place is that of the first error below it
   which names a different one, and missing exactly when none does.
   */
  lemma SpecifiedMeaning(h: Chain, error: Value)
    ensures var r := Specified(h, error);
            && (r.origin.None? <==> forall k: nat :: k < MAX_CAUSE_DEPTH ==> !NamesPlace(h, error, k, None))
            && (r.origin.None? ==> r.causeOrigin.None?)
            && (r.origin.Some? ==> r.causeOrigin != r.origin && exists n: nat :: OriginAt(h, error, r, n))
  {
    FirstDepthSpec(h, error, 0, None);
    if FirstDepth(h, error, 0, None).Some? {
      OriginIsAt(h, error, FirstDepth(h, error, 0, None).value);
    }
  }

  lemma OriginIsAt(h: Chain, error: Value, n: nat)
    requires FirstDepth(h, error, 0, None) == Some(n)
    ensures var r := Specified(h, error); OriginAt(h, error, r, n) && r.causeOrigin != r.origin
  {
    FirstDepthSpec(h, error, 0, None);
    var origin := PlaceOf(h, Nth(h, error, n));
    FirstDepthSpec(h, error, n + 1, origin);
    var second := FirstDepth(h, error, n + 1, origin);
    if second.Some? {
      assert FirstBelow(h, error, n, second.value, origin);
    } else {
      assert NothingBelow(h, error, n, origin);
    }
  }

  /** Below depth `n`, depth `m` is the first to name a place other than `origin`. */
  ghost predicate FirstBelow(h: Chain, error: Value, n: nat, m: nat, origin: Option<string>) {
    && n < m < MAX_CAUSE_DEPTH && NamesPlace(h, error, m, origin)
    && forall k: nat :: n < k < m ==> !NamesPlace(h, error, k, origin)
  }

  ghost predicate OutermostPlace(h: Chain, error: Value, n: nat) {
    NamesPlace(h, error, n, None) && forall k: nat :: k < n ==> !NamesPlace(h, error, k, None)
  }
}
