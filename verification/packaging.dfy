/** Where `archiveLambda` puts a function's archives, and the archiving
    step of the current service (src/services/LambdaService.ts). */
module Packaging {
  import opened Common
  import opened Cloud

  // ---------------------------------------------------------------------------
  // The function directory's name
  // ---------------------------------------------------------------------------

  /** `parts.filter(Boolean)`: the non-empty strings, in order. */
  function NonEmpty(parts: seq<string>): (r: seq<string>)
    ensures forall i :: 0 <= i < |r| ==> r[i] != "" && r[i] in parts
  {
    if |parts| == 0 then []
    else (if parts[0] == "" then [] else [parts[0]]) + NonEmpty(parts[1..])
  }

  /** `path.split('/').filter(Boolean).pop()`: the last non-empty segment,
      or nothing (`undefined`) when the path has none. */
  function LastSegment(path: string): (r: Option<string>)
    ensures r.Some? ==> r.value != "" && '/' !in r.value
  {
    var segs := NonEmpty(Split(path, '/'));
    if |segs| == 0 then None else Some(segs[|segs| - 1])
  }

  lemma {:induction false} NonEmptyAppend(a: seq<string>, b: seq<string>)
    ensures NonEmpty(a + b) == NonEmpty(a) + NonEmpty(b)
    decreases |a|
  {
    if |a| == 0 {
      assert a + b == b;
    } else {
      assert (a + b)[1..] == a[1..] + b;
      NonEmptyAppend(a[1..], b);
    }
  }

  /** Splitting around one separator splits each side. */
  lemma {:induction false} SplitAround(a: string, c: char, b: string)
    ensures Split(a + [c] + b, c) == Split(a, c) + Split(b, c)
    decreases |a|
  {
    if |a| == 0 {
      assert a + [c] + b == [c] + b;
      assert ([c] + b)[1..] == b;
    } else {
      var s := a + [c] + b;
      assert s[0] == a[0] && s[1..] == a[1..] + [c] + b;
      SplitAround(a[1..], c, b);
      if a[0] != c {
        var ra := Split(a[1..], c);
        assert Split(a, c) == [[a[0]] + ra[0]] + ra[1..];
        assert (ra + Split(b, c))[0] == ra[0];
        assert (ra + Split(b, c))[1..] == ra[1..] + Split(b, c);
      }
    }
  }

  /** Trailing slashes do not change the directory name. */
  lemma TrailingSlashIgnored(path: string)
    ensures LastSegment(path + "/") == LastSegment(path)
  {
    SplitAround(path, '/', "");
    assert path + ['/'] + "" == path + "/";
    NonEmptyAppend(Split(path, '/'), [""]);
    assert NonEmpty([""]) == [];
    assert NonEmpty(Split(path, '/')) + [] == NonEmpty(Split(path, '/'));
  }

  /** The name after the last slash is the directory name. */
  lemma LastSegmentAfterSlash(prefix: string, name: string)
    requires name != "" && '/' !in name
    ensures LastSegment(prefix + "/" + name) == Some(name)
  {
    SplitAround(prefix, '/', name);
    assert prefix + ['/'] + name == prefix + "/" + name;
    SplitSingle(name, '/');
    NonEmptyAppend(Split(prefix, '/'), [name]);
    assert NonEmpty([name]) == [name];
  }

  // ---------------------------------------------------------------------------
  // Archive paths
  // ---------------------------------------------------------------------------

  /** `path.join(base, rest)` for a `rest` that is already normalised. */
  function JoinPath(base: string, rest: string): string {
    if base == "" then rest else TrimTrailingSlashes(base) + "/" + rest
  }

  function TrimTrailingSlashes(s: string): (r: string)
    ensures r <= s
    ensures forall i :: |r| <= i < |s| ==> s[i] == '/'
    ensures |r| == 0 || r[|r| - 1] != '/'
  {
    if |s| == 0 || s[|s| - 1] != '/' then s else TrimTrailingSlashes(s[..|s| - 1])
  }

  /** `path.join(moduleCfgDir, 'lambda')`: where all archives go. */
  function ArchiveDir(moduleCfgDir: string): string {
    JoinPath(moduleCfgDir, "lambda")
  }

  const ModulesArchiveName := "RWS-modules.zip"

  function AppArchiveName(dirName: Option<string>): string {
    "lambda-" + Show(dirName) + "-app.zip"
  }

  datatype PackagePaths = PackagePaths(app: string, modules: string)

  /** `determineLambdaPackagePaths(dirName, moduleCfgDir)`: both archives
      sit in the archive directory; the modules archive name is fixed. */
  function DeterminePackagePaths(dirName: Option<string>, moduleCfgDir: string): (r: PackagePaths)
    ensures r.app == ArchiveDir(moduleCfgDir) + "/" + AppArchiveName(dirName)
    ensures r.modules == ArchiveDir(moduleCfgDir) + "/" + ModulesArchiveName
  {
    PackagePaths(JoinPath(moduleCfgDir, "lambda/" + AppArchiveName(dirName)),
                 JoinPath(moduleCfgDir, "lambda/" + ModulesArchiveName))
  }

  lemma PrefixCancel(p: string, x: string, y: string)
    requires p + x == p + y
    ensures x == y
  {
    assert x == (p + x)[|p|..];
    assert y == (p + y)[|p|..];
  }

  lemma SuffixCancel(x: string, y: string, q: string)
    requires x + q == y + q
    ensures x == y
  {
    assert x == (x + q)[..|x + q| - |q|];
    assert y == (y + q)[..|y + q| - |q|];
  }

  /** The app archive never lands on the shared modules archive. */
  lemma AppArchiveIsNotModulesArchive(dirName: Option<string>, moduleCfgDir: string)
    ensures DeterminePackagePaths(dirName, moduleCfgDir).app != DeterminePackagePaths(dirName, moduleCfgDir).modules
  {
    var dir := ArchiveDir(moduleCfgDir) + "/";
    var a := dir + AppArchiveName(dirName);
    var m := dir + ModulesArchiveName;
    assert a[|dir|] == 'l';
    assert m[|dir|] == 'R';
  }

  /** Two directory names share an app archive only if they render alike. */
  lemma AppArchiveDeterminesDirName(d1: Option<string>, d2: Option<string>, moduleCfgDir: string)
    requires DeterminePackagePaths(d1, moduleCfgDir).app == DeterminePackagePaths(d2, moduleCfgDir).app
    ensures Show(d1) == Show(d2)
  {
    var dir := ArchiveDir(moduleCfgDir) + "/";
    PrefixCancel(dir, AppArchiveName(d1), AppArchiveName(d2));
    assert AppArchiveName(d1) == "lambda-" + (Show(d1) + "-app.zip");
    assert AppArchiveName(d2) == "lambda-" + (Show(d2) + "-app.zip");
    PrefixCancel("lambda-", Show(d1) + "-app.zip", Show(d2) + "-app.zip");
    SuffixCancel(Show(d1), Show(d2), "-app.zip");
  }

  // ---------------------------------------------------------------------------
  // archiveLambda (current service)
  // ---------------------------------------------------------------------------

  /** Calls that only touch local files. */
  predicate LocalFileCall(c: Call) {
    c.DirMade? || c.FileRemoved? || c.ArchiveCreated?
  }

  function CountArchives(log: seq<Call>): nat {
    if |log| == 0 then 0 else (if log[0].ArchiveCreated? then 1 else 0) + CountArchives(log[1..])
  }

  lemma {:induction false} CountArchivesAppend(a: seq<Call>, b: seq<Call>)
    ensures CountArchives(a + b) == CountArchives(a) + CountArchives(b)
    decreases |a|
  {
    if |a| == 0 {
      assert a + b == b;
    } else {
      assert (a + b)[1..] == a[1..] + b;
      CountArchivesAppend(a[1..], b);
    }
  }

  /** The calls `archiveLambda` makes: create the archive directory when it
      is missing, remove a stale app archive, and write one new archive. */
  function ArchiveCalls(files: set<string>, lambdaDirPath: string, moduleCfgDir: string): (d: seq<Call>)
    ensures var app := DeterminePackagePaths(LastSegment(lambdaDirPath), moduleCfgDir).app;
            && |d| >= 1 && d[|d| - 1] == ArchiveCreated(app, lambdaDirPath, [])
            && (app in files ==> FileRemoved(app) in d)
    ensures CountArchives(d) == 1
    ensures forall i :: 0 <= i < |d| ==> LocalFileCall(d[i])
  {
    var app := DeterminePackagePaths(LastSegment(lambdaDirPath), moduleCfgDir).app;
    var dir := ArchiveDir(moduleCfgDir);
    var made: seq<Call> := if dir in files then [] else [DirMade(dir)];
    var removed: seq<Call> := if app in files then [FileRemoved(app)] else [];
    ArchiveDelta(made, removed, ArchiveCreated(app, lambdaDirPath, []));
    made + removed + [ArchiveCreated(app, lambdaDirPath, [])]
  }

  /** `archiveLambda(lambdaDirPath, moduleCfgDir)`: removes a stale app
      archive, then writes exactly one new archive of the directory and
      returns its path. */
  function ArchiveLambda(w: World, lambdaDirPath: string, moduleCfgDir: string): (o: Outcome<string>)
    ensures o.world.calls == w.calls + ArchiveCalls(w.files, lambdaDirPath, moduleCfgDir)
    ensures var app := DeterminePackagePaths(LastSegment(lambdaDirPath), moduleCfgDir).app;
            o.result.Ok? ==> o.result.value == app && app in o.world.files
    ensures o.world.(files := w.files, calls := w.calls) == w
  {
    var app := DeterminePackagePaths(LastSegment(lambdaDirPath), moduleCfgDir).app;
    var dir := ArchiveDir(moduleCfgDir);
    assert dir != app by {
      assert |app| > |dir|;
    }
    var w1 := MakeDirIfMissing(w, dir);
    var w2 := RemoveIfPresent(w1, app);
    CreateArchive(w2, app, lambdaDirPath, [])
  }

  lemma ArchiveDelta(made: seq<Call>, removed: seq<Call>, last: Call)
    requires |made| <= 1 && |removed| <= 1 && last.ArchiveCreated?
    requires forall i :: 0 <= i < |made| ==> made[i].DirMade?
    requires forall i :: 0 <= i < |removed| ==> removed[i].FileRemoved?
    ensures CountArchives(made + removed + [last]) == 1
    ensures forall i :: 0 <= i < |made + removed + [last]| ==> LocalFileCall((made + removed + [last])[i])
  {
    CountArchivesAppend(made, removed);
    CountArchivesAppend(made + removed, [last]);
    assert CountArchives([last]) == 1;
    if |made| == 1 { assert CountArchives(made) == CountArchives(made[1..]); }
    if |removed| == 1 { assert CountArchives(removed) == CountArchives(removed[1..]); }
  }
}
