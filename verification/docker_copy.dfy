/**
The runtime reference closure of `scripts/check-docker-copy.ts`: which files the scripts of
the image reach through relative references without being copied to the same path.

The text scan, Node's path functions and the file system are parameters (`World`).
*/
module DockerCopy {
  import opened Common

  /** What the check is given: repo files, the reference scan, path resolution, directories. */
  datatype World = World(
    files: map<string, string>,
    references: string -> seq<string>,
    resolve: (string, string) -> string,
    isDirectory: string -> bool,
    copies: seq<RunnerCopy>)

  datatype RunnerCopy = RunnerCopy(source: string, destination: string)

  /** A file the image lacks, and the script that refers to it. */
  datatype Missing = Missing(target: string, referrer: string)

  // ------------------------------------------------------------ covering copies

  predicate StartsWith(s: string, prefix: string) { prefix <= s }

  predicate EndsWith(s: string, suffix: string) {
    |suffix| <= |s| && s[|s| - |suffix|..] == suffix
  }

  /** JavaScript's `slice` with one non-negative argument. */
  function SliceFrom(s: string, n: nat): string { if n <= |s| then s[n..] else "" }

  predicate Covers(c: RunnerCopy, appPath: string) {
    && (appPath == c.source || StartsWith(appPath, c.source + "/"))
    && c.destination == "." + SliceFrom(c.source, |"/app"|)
  }

  function CoveringCopy(copies: seq<RunnerCopy>, appPath: string): (r: Option<RunnerCopy>)
    ensures r.Some? ==> r.value in copies && Covers(r.value, appPath)
    ensures r.None? ==> forall c :: c in copies ==> !Covers(c, appPath)
  {
    if copies == [] then None
    else if Covers(copies[0], appPath) then Some(copies[0])
    else CoveringCopy(copies[1..], appPath)
  }

  /** A destination as Docker reads it, with `/app` as the working directory. */
  function InApp(destination: string): string {
    if destination == "." then "/app"
    else if StartsWith(destination, "./") then "/app/" + destination[2..]
    else "/app/" + destination
  }

  /** Where the copy puts the file. */
  function Placed(c: RunnerCopy, appPath: string): string
    requires Covers(c, appPath)
  {
    InApp(c.destination) + appPath[|c.source|..]
  }

  predicate UnderApp(path: string) { path == "/app" || StartsWith(path, "/app/") }

  lemma InAppOf(rest: string)
    ensures InApp("." + rest) == if rest == "" then "/app" else if rest[0] == '/' then "/app" + rest else "/app/." + rest
  {
    var d := "." + rest;
    if rest == "" {
      assert d == ".";
    } else {
      assert d[1] == rest[0] && d[2..] == rest[1..];
      if rest[0] == '/' {
        assert d[..2] == "./";
        assert "/app/" + rest[1..] == "/app" + rest;
      } else {
        assert "/app/" + d == "/app/." + rest;
      }
    }
  }

  lemma PlacedFromApp(c: RunnerCopy, appPath: string)
    requires Covers(c, appPath) && UnderApp(c.source)
    ensures Placed(c, appPath) == appPath
  {
    var rest := c.source[4..];
    assert c.source == "/app" + rest && appPath == c.source + appPath[|c.source|..];
    if rest != "" { assert rest[0] == c.source[4] == "/app/"[4]; }
    InAppOf(rest);
  }

  lemma PlacedFromElsewhere(c: RunnerCopy, appPath: string)
    requires Covers(c, appPath) && !UnderApp(c.source)
    ensures Placed(c, appPath) != appPath
  {
    var rest, tail := SliceFrom(c.source, 4), appPath[|c.source|..];
    assert appPath == c.source + tail;
    InAppOf(rest);
    if rest != "" && rest[0] == '/' {
      assert c.source == c.source[..4] + rest;
      assert c.source[..5] == c.source[..4] + "/";
      assert Placed(c, appPath)[..4] == "/app" && appPath[..4] == c.source[..4];
    }
  }

  /** A covering copy puts the file at the same path if and only if its source is `/app` or under it. */
  lemma PlacedAtSamePath(c: RunnerCopy, appPath: string)
    requires Covers(c, appPath)
    ensures Placed(c, appPath) == appPath <==> UnderApp(c.source)
  {
    if UnderApp(c.source) { PlacedFromApp(c, appPath); } else { PlacedFromElsewhere(c, appPath); }
  }

  const SIBLING := RunnerCopy("/application/x", ".lication/x")
  const OUTSIDE := RunnerCopy("/opt/x", "./x")

  /** Two copies that cover a file and put it elsewhere. */
  lemma CoversElsewhere()
    ensures Covers(SIBLING, "/application/x") && Placed(SIBLING, "/application/x") == "/app/.lication/x"
    ensures Covers(OUTSIDE, "/opt/x") && Placed(OUTSIDE, "/opt/x") == "/app/x"
  {
    assert SIBLING.source[4..] == "lication/x" && SIBLING.destination == "." + "lication/x";
    InAppOf("lication/x");
    assert "/app/." + "lication/x" + "" == "/app/.lication/x";
    assert OUTSIDE.source[4..] == "/x" && OUTSIDE.destination == "." + "/x";
    InAppOf("/x");
    assert "/app" + "/x" + "" == "/app/x";
  }

  /** Only a source of the app can cover a file of the app. */
  lemma CoveredFromApp(c: RunnerCopy, appPath: string)
    requires Covers(c, appPath) && StartsWith(appPath, "/app/") && c.source != ""
    ensures UnderApp(c.source)
  {
    if appPath != c.source {
      var n := |c.source|;
      assert appPath[n] == (c.source + "/")[n] == '/';
      assert appPath[..5] == "/app/";
      assert n < 5 ==> "/app/"[n] == '/';
      assert c.source == appPath[..n];
    }
  }

  /** For a file of the app that always holds: no other source can cover it. */
  lemma AppFilesKeepTheirPath(c: RunnerCopy, appPath: string)
    requires Covers(c, appPath) && StartsWith(appPath, "/app/") && c.source != ""
    ensures Placed(c, appPath) == appPath
  {
    CoveredFromApp(c, appPath);
    PlacedFromApp(c, appPath);
  }

  /** The file itself, or a file anywhere in the directory. */
  ghost predicate Within(path: string, parent: string) { path == parent || exists rest :: path == parent + "/" + rest }

  /** A copy of `/app…` to the same place under the working directory, which holds `path`. */
  ghost predicate Keeps(c: RunnerCopy, path: string) {
    exists at :: c == RunnerCopy("/app" + at, "." + at) && Within(path, "/app" + at)
  }

  lemma WithinIff(path: string, parent: string)
    ensures Within(path, parent) <==> path == parent || StartsWith(path, parent + "/")
  {
    if StartsWith(path, parent + "/") {
      assert path == parent + "/" + path[|parent| + 1..];
    }
  }

  /** A file of the app is covered exactly by the copies in place of it and of the directories it is in. */
  lemma CoversIff(c: RunnerCopy, file: string)
    requires c.source != ""
    ensures Covers(c, "/app/" + file) <==> Keeps(c, "/app/" + file)
  {
    var path := "/app/" + file;
    WithinIff(path, c.source);
    if Covers(c, path) {
      CoveredFromApp(c, path);
      assert c.source == "/app" + c.source[4..];
    }
    if Keeps(c, path) {
      var at :| c == RunnerCopy("/app" + at, "." + at) && Within(path, "/app" + at);
      assert c.source[4..] == at;
    }
  }

  // -------------------------------------------------------------- reachability

  function RepoPath(appPath: string): string { SliceFrom(appPath, |"/app/"|) }

  predicate Readable(w: World, a: string) { RepoPath(a) in w.files }

  /** The reference `r` of script `a` is a file reference to `t`. */
  predicate Refers(w: World, a: string, r: string, t: string) {
    && Readable(w, a) && r in w.references(w.files[RepoPath(a)])
    && t == w.resolve(a, r) && !w.isDirectory(RepoPath(t))
  }

  predicate IsModule(t: string) { EndsWith(t, ".mjs") || EndsWith(t, ".js") }

  ghost predicate RefersTo(w: World, a: string, t: string) { exists r :: Refers(w, a, r, t) }

  type Graph = (string, string) -> bool

  /** A script leads to the modules it refers to. */
  ghost function Links(w: World): Graph { (a, t) => RefersTo(w, a, t) && IsModule(t) }

  /** `p` follows links from an entry. */
  ghost predicate Trail(g: Graph, entries: seq<string>, p: seq<string>)
    decreases |p|
  {
    && p != []
    && if |p| == 1 then p[0] in entries
       else Trail(g, entries, p[..|p| - 1]) && g(p[|p| - 2], p[|p| - 1])
  }

  ghost predicate Reachable(g: Graph, entries: seq<string>, a: string) {
    exists p :: Trail(g, entries, p) && p[|p| - 1] == a
  }

  lemma EntryReachable(g: Graph, entries: seq<string>, a: string)
    requires a in entries
    ensures Reachable(g, entries, a)
  {
    assert Trail(g, entries, [a]);
  }

  lemma StepReachable(g: Graph, entries: seq<string>, a: string, t: string)
    requires Reachable(g, entries, a) && g(a, t)
    ensures Reachable(g, entries, t)
  {
    var p :| Trail(g, entries, p) && p[|p| - 1] == a;
    assert (p + [t])[..|p|] == p;
    assert Trail(g, entries, p + [t]);
  }

  /** What the closure must hold: every uncovered file reference of every reachable script. */
  ghost predicate Uncovered(w: World, entries: seq<string>, m: Missing) {
    && Reachable(Links(w), entries, m.referrer) && RefersTo(w, m.referrer, m.target)
    && forall c :: c in w.copies ==> !Covers(c, m.target)
  }

  /**
  Said of the files themselves: a file reference of an entry script is missing exactly when
  no copy keeps the file, or a directory it is in, where it is.
  */
  lemma EntryReference(w: World, entries: seq<string>, script: string, r: string, file: string)
    requires "/app/" + script in entries && script in w.files && r in w.references(w.files[script])
    requires w.resolve("/app/" + script, r) == "/app/" + file && !w.isDirectory(file)
    requires forall c :: c in w.copies ==> c.source != ""
    ensures Uncovered(w, entries, Missing("/app/" + file, "/app/" + script))
       <==> forall c :: c in w.copies ==> !Keeps(c, "/app/" + file)
  {
    RepoPathOf(script);
    RepoPathOf(file);
    assert Refers(w, "/app/" + script, r, "/app/" + file);
    EntryReachable(Links(w), entries, "/app/" + script);
    forall c | c in w.copies ensures Covers(c, "/app/" + file) <==> Keeps(c, "/app/" + file) { CoversIff(c, file); }
  }

  lemma RepoPathOf(file: string)
    ensures RepoPath("/app/" + file) == file
  {
    assert ("/app/" + file)[5..] == file;
  }

  lemma SuffixEnds(stem: string, suffix: string)
    ensures EndsWith(stem + suffix, suffix)
  {
  }

  /** And a module an entry refers to is followed in its turn: its own references count. */
  lemma ModuleReference(w: World, entries: seq<string>, script: string, r: string, stem: string)
    requires "/app/" + script in entries && script in w.files && r in w.references(w.files[script])
    requires w.resolve("/app/" + script, r) in ["/app/" + stem + ".js", "/app/" + stem + ".mjs"]
    requires !w.isDirectory(stem + ".js") && !w.isDirectory(stem + ".mjs")
    ensures Reachable(Links(w), entries, w.resolve("/app/" + script, r))
  {
    var a, t := "/app/" + script, w.resolve("/app/" + script, r);
    RepoPathOf(script);
    assert "/app/" + stem + ".js" == "/app/" + (stem + ".js") && "/app/" + stem + ".mjs" == "/app/" + (stem + ".mjs");
    RepoPathOf(stem + ".js");
    RepoPathOf(stem + ".mjs");
    assert Refers(w, a, r, t);
    SuffixEnds("/app/" + stem, ".js");
    SuffixEnds("/app/" + stem, ".mjs");
    EntryReachable(Links(w), entries, a);
    StepReachable(Links(w), entries, a, t);
  }

  /** Nothing else is followed: what is reached is an entry, a `.js` or a `.mjs` file. */
  lemma ReachedIsModule(w: World, entries: seq<string>, a: string)
    requires Reachable(Links(w), entries, a) && a !in entries
    ensures exists stem :: a == stem + ".js" || a == stem + ".mjs"
  {
    var p :| Trail(Links(w), entries, p) && p[|p| - 1] == a;
    assert IsModule(a);
    var n := if EndsWith(a, ".mjs") then 4 else 3;
    assert a == a[..|a| - n] + a[|a| - n..];
  }

  // --------------------------------------------------------------- termination

  ghost function Strings(n: nat): set<string> {
    if n == 0 then {""}
    else Strings(n - 1) + set s: string, c: char | s in Strings(n - 1) && c in AllChars() :: s + [c]
  }

  predicate IsChar(c: char) { true }

  ghost function AllChars(): set<char> { set c: char | IsChar(c) }

  lemma {:induction false} ShortIn(s: string, n: nat)
    requires |s| <= n
    ensures s in Strings(n)
    decreases n
  {
    if n > 0 {
      if |s| < n {
        ShortIn(s, n - 1);
      } else {
        ShortIn(s[..n - 1], n - 1);
        assert s == s[..n - 1] + [s[n - 1]];
        assert IsChar(s[n - 1]);
      }
    }
  }

  /** Holds every path of the app that can be read. */
  ghost function Universe(w: World): set<string> {
    Strings(5) + set s: string, f: string | s in Strings(5) && f in w.files :: s + f
  }

  lemma ReadableIn(w: World, a: string)
    requires Readable(w, a)
    ensures a in Universe(w)
  {
    if |a| <= 5 {
      ShortIn(a, 5);
    } else {
      ShortIn(a[..5], 5);
      assert a == a[..5] + RepoPath(a);
    }
  }

  // ------------------------------------------------------------- the worklist

  /** The scripts seen are reachable, and everything they lead to is seen or queued. */
  ghost predicate Progress(g: Graph, entries: seq<string>, seen: set<string>, queue: seq<string>) {
    && (forall a :: a in seen || a in queue ==> Reachable(g, entries, a))
    && (forall a :: a in entries ==> a in seen || a in queue)
    && (forall a, t :: a in seen && g(a, t) ==> t in seen || t in queue)
  }

  ghost predicate CollectedFrom(w: World, scripts: set<string>, missing: seq<Missing>) {
    && (forall m :: m in missing ==> m.referrer in scripts)
    && (forall m: Missing :: m.referrer in scripts ==>
         (m in missing <==> RefersTo(w, m.referrer, m.target) && CoveringCopy(w.copies, m.target).None?))
  }

  lemma {:induction false} ClosedHoldsTrail(g: Graph, entries: seq<string>, seen: set<string>, p: seq<string>)
    requires Progress(g, entries, seen, []) && Trail(g, entries, p)
    ensures p[|p| - 1] in seen
    decreases |p|
  {
    if |p| > 1 { ClosedHoldsTrail(g, entries, seen, p[..|p| - 1]); }
  }

  lemma ClosedIsReachable(g: Graph, entries: seq<string>, seen: set<string>, a: string)
    requires Progress(g, entries, seen, [])
    ensures a in seen <==> Reachable(g, entries, a)
  {
    if Reachable(g, entries, a) {
      var p :| Trail(g, entries, p) && p[|p| - 1] == a;
      ClosedHoldsTrail(g, entries, seen, p);
    }
  }

  function Targets(w: World, a: string, refs: seq<string>): seq<string> {
    if refs == [] then []
    else
      var n := |refs| - 1;
      var t := w.resolve(a, refs[n]);
      Targets(w, a, refs[..n]) + if w.isDirectory(RepoPath(t)) then [] else [t]
  }

  lemma {:induction false} TargetsAre(w: World, a: string, refs: seq<string>, t: string)
    ensures t in Targets(w, a, refs)
       <==> exists r :: r in refs && t == w.resolve(a, r) && !w.isDirectory(RepoPath(t))
    decreases |refs|
  {
    if refs != [] {
      var n := |refs| - 1;
      assert refs == refs[..n] + [refs[n]];
      TargetsAre(w, a, refs[..n], t);
    }
  }

  lemma TargetsReferred(w: World, a: string, t: string)
    requires Readable(w, a)
    ensures t in Targets(w, a, w.references(w.files[RepoPath(a)])) <==> RefersTo(w, a, t)
  {
    var refs := w.references(w.files[RepoPath(a)]);
    TargetsAre(w, a, refs, t);
    if t in Targets(w, a, refs) {
      var r :| r in refs && t == w.resolve(a, r) && !w.isDirectory(RepoPath(t));
      assert Refers(w, a, r, t);
    }
    if RefersTo(w, a, t) {
      var r :| Refers(w, a, r, t);
    }
  }

  function Modules(ts: seq<string>): seq<string> {
    if ts == [] then []
    else Modules(ts[..|ts| - 1]) + if IsModule(ts[|ts| - 1]) then [ts[|ts| - 1]] else []
  }

  lemma {:induction false} ModulesAre(ts: seq<string>, t: string)
    ensures t in Modules(ts) <==> t in ts && IsModule(t)
    decreases |ts|
  {
    if ts != [] {
      assert ts == ts[..|ts| - 1] + [ts[|ts| - 1]];
      ModulesAre(ts[..|ts| - 1], t);
    }
  }

  /** `missing` after the file references `ts` of script `a`: each uncovered one once. */
  function AddMissing(w: World, a: string, ts: seq<string>, missing: seq<Missing>): seq<Missing> {
    if ts == [] then missing
    else
      var t, before := ts[|ts| - 1], AddMissing(w, a, ts[..|ts| - 1], missing);
      if CoveringCopy(w.copies, t).None? && Missing(t, a) !in before then before + [Missing(t, a)] else before
  }

  lemma {:induction false} AddMissingIs(w: World, a: string, ts: seq<string>, missing: seq<Missing>, m: Missing)
    ensures m in AddMissing(w, a, ts, missing)
       <==> m in missing || (m.referrer == a && m.target in ts && CoveringCopy(w.copies, m.target).None?)
    decreases |ts|
  {
    if ts != [] {
      assert ts == ts[..|ts| - 1] + [ts[|ts| - 1]];
      AddMissingIs(w, a, ts[..|ts| - 1], missing, m);
    }
  }

  lemma {:induction false} AddMissingDistinct(w: World, a: string, ts: seq<string>, missing: seq<Missing>)
    requires Distinct(missing)
    ensures Distinct(AddMissing(w, a, ts, missing))
    decreases |ts|
  {
    if ts != [] { AddMissingDistinct(w, a, ts[..|ts| - 1], missing); }
  }

  /** The inner loop: one script's references. */
  method Follow(w: World, a: string, refs: seq<string>, queue0: seq<string>, missing0: seq<Missing>)
    returns (queue: seq<string>, missing: seq<Missing>)
    ensures queue == queue0 + Modules(Targets(w, a, refs))
    ensures missing == AddMissing(w, a, Targets(w, a, refs), missing0)
  {
    queue, missing := queue0, missing0;
    for k := 0 to |refs|
      invariant queue == queue0 + Modules(Targets(w, a, refs[..k]))
      invariant missing == AddMissing(w, a, Targets(w, a, refs[..k]), missing0)
    {
      assert refs[..k + 1][..k] == refs[..k];
      var target := w.resolve(a, refs[k]);
      if w.isDirectory(RepoPath(target)) {
        assert Targets(w, a, refs[..k + 1]) == Targets(w, a, refs[..k]);
        continue;
      }
      assert Targets(w, a, refs[..k + 1])[..|Targets(w, a, refs[..k])|] == Targets(w, a, refs[..k]);
      if CoveringCopy(w.copies, target).None? && Missing(target, a) !in missing {
        missing := missing + [Missing(target, a)];
      }
      if IsModule(target) {
        queue := queue + [target];
      }
    }
    assert refs[..|refs|] == refs;
  }

  ghost predicate Inv(w: World, entries: seq<string>, seen: set<string>, queue: seq<string>, missing: seq<Missing>) {
    Progress(Links(w), entries, seen, queue) && CollectedFrom(w, seen, missing) && Distinct(missing)
  }

  lemma Starts(w: World, entries: seq<string>)
    ensures Inv(w, entries, {}, entries, [])
  {
    forall a | a in entries ensures Reachable(Links(w), entries, a) { EntryReachable(Links(w), entries, a); }
  }

  /** A script met again, or one that leads nowhere, is dropped. */
  lemma DroppedProgress(g: Graph, entries: seq<string>, seen: set<string>, queue: seq<string>)
    requires queue != [] && Progress(g, entries, seen, queue) && (queue[0] in seen || forall t :: !g(queue[0], t))
    ensures Progress(g, entries, seen + {queue[0]}, queue[1..])
  {
    assert queue == [queue[0]] + queue[1..];
  }

  lemma Dropped(w: World, entries: seq<string>, seen: set<string>, queue: seq<string>, missing: seq<Missing>)
    requires queue != [] && Inv(w, entries, seen, queue, missing)
    requires !Readable(w, queue[0]) || queue[0] in seen
    ensures Inv(w, entries, seen + {queue[0]}, queue[1..], missing)
  {
    if queue[0] !in seen {
      forall t ensures !RefersTo(w, queue[0], t) { }
    }
    DroppedProgress(Links(w), entries, seen, queue);
  }

  /** A script is taken and everything it leads to is queued. */
  lemma Followed(g: Graph, entries: seq<string>, seen: set<string>, queue: seq<string>, a: string, ts: seq<string>)
    requires queue != [] && a == queue[0] && Progress(g, entries, seen, queue)
    requires forall t :: t in ts <==> g(a, t)
    ensures Progress(g, entries, seen + {a}, queue[1..] + ts)
  {
    assert queue == [a] + queue[1..];
    forall t | t in ts ensures Reachable(g, entries, t) { StepReachable(g, entries, a, t); }
  }

  lemma Recorded(w: World, seen: set<string>, a: string, ts: seq<string>, missing: seq<Missing>)
    requires a !in seen && CollectedFrom(w, seen, missing)
    requires forall t :: t in ts <==> RefersTo(w, a, t)
    ensures CollectedFrom(w, seen + {a}, AddMissing(w, a, ts, missing))
  {
    forall m: Missing
      ensures m in AddMissing(w, a, ts, missing)
         <==> m in missing || (m.referrer == a && m.target in ts && CoveringCopy(w.copies, m.target).None?)
    {
      AddMissingIs(w, a, ts, missing, m);
    }
  }

  /** A script that is read: its modules are queued and its uncovered files collected. */
  lemma Taken(w: World, entries: seq<string>, seen: set<string>, queue: seq<string>, missing: seq<Missing>)
    requires queue != [] && Inv(w, entries, seen, queue, missing)
    requires Readable(w, queue[0]) && queue[0] !in seen
    ensures var ts := Targets(w, queue[0], w.references(w.files[RepoPath(queue[0])]));
            Inv(w, entries, seen + {queue[0]}, queue[1..] + Modules(ts), AddMissing(w, queue[0], ts, missing))
  {
    var a := queue[0];
    var ts := Targets(w, a, w.references(w.files[RepoPath(a)]));
    forall t ensures t in ts <==> RefersTo(w, a, t) { TargetsReferred(w, a, t); }
    forall t ensures t in Modules(ts) <==> Links(w)(a, t) { ModulesAre(ts, t); }
    Followed(Links(w), entries, seen, queue, a, Modules(ts));
    Recorded(w, seen, a, ts, missing);
    AddMissingDistinct(w, a, ts, missing);
  }

  lemma Ends(w: World, entries: seq<string>, seen: set<string>, missing: seq<Missing>)
    requires Inv(w, entries, seen, [], missing)
    ensures forall m: Missing :: m in missing <==> Uncovered(w, entries, m)
  {
    forall m: Missing ensures m in missing <==> Uncovered(w, entries, m) {
      ClosedIsReachable(Links(w), entries, seen, m.referrer);
    }
  }

  /**
  `missingRuntimeReferences`: terminates, and returns each uncovered file reference of each
  reachable script exactly once, and nothing else.
  */
  method MissingRuntimeReferences(w: World, entries: seq<string>) returns (missing: seq<Missing>)
    ensures forall m: Missing :: m in missing <==> Uncovered(w, entries, m)
    ensures Distinct(missing)
  {
    missing := [];
    var seen: set<string>, queue := {}, entries;
    Starts(w, entries);
    while queue != []
      invariant Inv(w, entries, seen, queue, missing)
      decreases |Universe(w) - seen|, |queue|
    {
      var a := queue[0];
      Shrinks(w, seen, a);
      if a in seen || RepoPath(a) !in w.files {
        Dropped(w, entries, seen, queue, missing);
        queue := queue[1..];
      } else {
        Taken(w, entries, seen, queue, missing);
        ReadableIn(w, a);
        queue, missing := Follow(w, a, w.references(w.files[RepoPath(a)]), queue[1..], missing);
      }
      seen := seen + {a};
    }
    Ends(w, entries, seen, missing);
  }

  lemma Shrinks(w: World, seen: set<string>, a: string)
    ensures |Universe(w) - (seen + {a})| <= |Universe(w) - seen|
    ensures a in Universe(w) - seen ==> |Universe(w) - (seen + {a})| < |Universe(w) - seen|
  {
    assert Universe(w) - (seen + {a}) == (Universe(w) - seen) - {a};
  }

  /** The order of the entries does not matter, nor do repetitions. */
  lemma OrderIndependent(w: World, entries: seq<string>, others: seq<string>, m: Missing)
    requires forall a :: a in entries <==> a in others
    ensures Uncovered(w, entries, m) ==> Uncovered(w, others, m)
  {
    if Uncovered(w, entries, m) {
      var p :| Trail(Links(w), entries, p) && p[|p| - 1] == m.referrer;
      SameTrail(Links(w), entries, others, p);
    }
  }

  lemma {:induction false} SameTrail(g: Graph, entries: seq<string>, others: seq<string>, p: seq<string>)
    requires (forall a :: a in entries <==> a in others) && Trail(g, entries, p)
    ensures Trail(g, others, p)
    decreases |p|
  {
    if |p| > 1 { SameTrail(g, entries, others, p[..|p| - 1]); }
  }
}
