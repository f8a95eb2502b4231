/** The POSIX path functions of node:path that the workspace check uses, as operations on the segments
    between slashes. */
module PosixPath {

  type Path = string

  type Segments = seq<string>

  /** The pieces between slashes, empty ones included. */
  function Split(p: Path): (r: Segments)
    ensures r != []
  {
    if p == "" then [""]
    else
      var rest := Split(p[1..]);
      if p[0] == '/' then [""] + rest else [[p[0]] + rest[0]] + rest[1..]
  }

  function JoinSlash(segs: Segments): Path {
    if segs == [] then ""
    else if |segs| == 1 then segs[0]
    else segs[0] + "/" + JoinSlash(segs[1..])
  }

  predicate Skipped(s: string) { s == "" || s == "." }

  /** One segment more: "." and "" are dropped, ".." takes the last name away, or is kept if there is none
      and paths may climb. */
  function Walk(mayClimb: bool, at: Segments, s: string): Segments {
    if Skipped(s) then at
    else if s != ".." then at + [s]
    else if at != [] && at[|at| - 1] != ".." then at[..|at| - 1]
    else if mayClimb then at + [".."]
    else at
  }

  function WalkAll(mayClimb: bool, at: Segments, segs: Segments): Segments
    decreases |segs|
  {
    if segs == [] then at else WalkAll(mayClimb, Walk(mayClimb, at, segs[0]), segs[1..])
  }

  predicate IsAbsolute(p: Path) { p != "" && p[0] == '/' }

  /** The segments normalize keeps. */
  function Kept(p: Path): Segments { WalkAll(!IsAbsolute(p), [], Split(p)) }

  function Normalize(p: Path): Path {
    if p == "" then "."
    else
      var tail := if p[|p| - 1] == '/' then "/" else "";
      if Kept(p) == [] then (if IsAbsolute(p) then "/" else "." + tail)
      else (if IsAbsolute(p) then "/" else "") + JoinSlash(Kept(p)) + tail
  }

  function Join(a: Path, b: Path): Path {
    if a == "" then Normalize(b) else if b == "" then Normalize(a) else Normalize(a + "/" + b)
  }

  /** Where p is, for a process running at cwd: path.resolve, as the names from the file system's root. */
  function Location(cwd: Path, p: Path): Segments {
    WalkAll(false, [], if IsAbsolute(p) then Split(p) else Split(cwd) + Split(p))
  }

  function CommonPrefix(a: Segments, b: Segments): (n: nat)
    ensures n <= |a| && n <= |b|
  {
    if a != [] && b != [] && a[0] == b[0] then 1 + CommonPrefix(a[1..], b[1..]) else 0
  }

  function Relative(cwd: Path, from: Path, to: Path): Path {
    var (a, b) := (Location(cwd, from), Location(cwd, to));
    var n := CommonPrefix(a, b);
    JoinSlash(seq(|a| - n, _ => "..") + b[n..])
  }

  predicate StartsWith(p: Path, prefix: Path) { prefix <= p }

  // Splitting and joining.

  lemma {:induction false} SplitSlash(a: Path, b: Path)
    ensures Split(a + "/" + b) == Split(a) + Split(b)
  {
    if a == "" {
      assert (a + "/" + b)[1..] == b;
    } else {
      assert (a + "/" + b)[1..] == a[1..] + "/" + b;
      SplitSlash(a[1..], b);
    }
  }

  lemma {:induction false} SplitPlain(s: string)
    requires '/' !in s
    ensures Split(s) == [s]
  {
    if s != "" {
      SplitPlain(s[1..]);
      assert [s[0]] + s[1..] == s;
    }
  }

  lemma {:induction false} SplitJoin(segs: Segments)
    requires segs != [] && forall s :: s in segs ==> '/' !in s
    ensures Split(JoinSlash(segs)) == segs
  {
    SplitPlain(segs[0]);
    if |segs| > 1 {
      SplitJoin(segs[1..]);
      SplitSlash(segs[0], JoinSlash(segs[1..]));
    }
  }

  lemma {:induction false} SplitNoSlash(p: Path)
    ensures forall s :: s in Split(p) ==> '/' !in s
  {
    if p != "" {
      SplitNoSlash(p[1..]);
      assert Split(p[1..])[0] in Split(p[1..]);
    }
  }

  // Walking.

  /** What a walk leaves: no dropped segments, and ".." only at the front. */
  ghost predicate Normal(segs: Segments) {
    && (forall i :: 0 <= i < |segs| ==> !Skipped(segs[i]) && '/' !in segs[i])
    && (forall i :: 0 < i < |segs| && segs[i] == ".." ==> segs[i - 1] == "..")
  }

  predicate NoUps(segs: Segments) { ".." !in segs }

  lemma {:induction false} WalkAppend(mayClimb: bool, at: Segments, a: Segments, b: Segments)
    ensures WalkAll(mayClimb, at, a + b) == WalkAll(mayClimb, WalkAll(mayClimb, at, a), b)
    decreases |a|
  {
    if a == [] {
      assert a + b == b;
    } else {
      assert (a + b)[1..] == a[1..] + b;
      WalkAppend(mayClimb, Walk(mayClimb, at, a[0]), a[1..], b);
    }
  }

  lemma {:induction false} WalkNormal(mayClimb: bool, at: Segments, segs: Segments)
    requires Normal(at) && forall s :: s in segs ==> '/' !in s
    requires mayClimb || NoUps(at)
    ensures Normal(WalkAll(mayClimb, at, segs))
    ensures mayClimb || NoUps(WalkAll(mayClimb, at, segs))
    decreases |segs|
  {
    if segs != [] {
      var next := Walk(mayClimb, at, segs[0]);
      assert Normal(next);
      WalkNormal(mayClimb, next, segs[1..]);
    }
  }

  lemma {:induction false} WalkNames(mayClimb: bool, at: Segments, segs: Segments)
    requires forall s :: s in segs ==> !Skipped(s) && s != ".."
    ensures WalkAll(mayClimb, at, segs) == at + segs
    decreases |segs|
  {
    if segs != [] {
      assert segs[0] in segs;
      WalkNames(mayClimb, at + [segs[0]], segs[1..]);
    }
  }

  lemma WalkOne(done: Segments, s: string)
    requires Normal(done + [s])
    ensures Walk(true, done, s) == done + [s]
  {
    assert (done + [s])[|done|] == s;
    if done != [] { assert (done + [s])[|done| - 1] == done[|done| - 1]; }
  }

  lemma {:induction false} WalkUps(done: Segments, segs: Segments)
    requires Normal(done + segs)
    ensures WalkAll(true, done, segs) == done + segs
    decreases |segs|
  {
    if segs != [] {
      assert done + segs == (done + [segs[0]]) + segs[1..];
      NormalPrefix(done + [segs[0]], segs[1..]);
      WalkOne(done, segs[0]);
      WalkUps(done + [segs[0]], segs[1..]);
    }
  }

  lemma NormalPrefix(a: Segments, b: Segments)
    requires Normal(a + b)
    ensures Normal(a)
  {
    forall i | 0 <= i < |a| ensures a[i] == (a + b)[i] {}
  }

  /** Walking through normal segments keeps every one of them. */
  lemma WalkKeeps(mayClimb: bool, at: Segments, segs: Segments)
    requires Normal(segs) && (NoUps(segs) || (mayClimb && at == []))
    ensures WalkAll(mayClimb, at, segs) == at + segs
  {
    if NoUps(segs) {
      WalkNames(mayClimb, at, segs);
    } else {
      assert [] + segs == segs;
      WalkUps([], segs);
    }
  }

  /** Simplifying a relative path first does not change where it leads. */
  lemma {:induction false} WalkAfterSimplifying(from: Segments, at: Segments, segs: Segments)
    requires forall s :: s in at ==> !Skipped(s)
    ensures WalkAll(false, from, WalkAll(true, at, segs)) == WalkAll(false, WalkAll(false, from, at), segs)
    decreases |segs|
  {
    if segs != [] {
      var s, next := segs[0], Walk(true, at, segs[0]);
      WalkAfterSimplifying(from, next, segs[1..]);
      assert WalkAll(false, from, next) == Walk(false, WalkAll(false, from, at), s) by {
        if next == at + [s] {
          WalkAppend(false, from, at, [s]);
        } else if next != at {
          assert at == next + [at[|at| - 1]];
          WalkAppend(false, from, next, [at[|at| - 1]]);
        }
      }
    }
  }

  lemma KeptNormal(p: Path)
    ensures Normal(Kept(p)) && (IsAbsolute(p) ==> NoUps(Kept(p)))
  {
    SplitNoSlash(p);
    WalkNormal(!IsAbsolute(p), [], Split(p));
  }

  // Normalizing.

  lemma {:induction false} JoinNonEmpty(segs: Segments)
    requires segs != [] && segs[0] != ""
    ensures JoinSlash(segs) != "" && JoinSlash(segs)[0] == segs[0][0]
  {
  }

  lemma {:induction false} JoinLast(segs: Segments)
    requires segs != []
    requires forall s :: s in segs ==> '/' !in s && s != ""
    ensures JoinSlash(segs) != "" && JoinSlash(segs)[|JoinSlash(segs)| - 1] != '/'
  {
    if |segs| > 1 {
      assert segs[1] in segs;
      JoinLast(segs[1..]);
    } else {
      assert segs[0] in segs;
      assert segs[0][|segs[0]| - 1] in segs[0];
    }
  }

  /** A leading and a trailing slash add droppable segments only. */
  lemma WalkDecorated(mayClimb: bool, at: Segments, segs: Segments, lead: bool, trail: bool)
    requires segs != [] && forall s :: s in segs ==> '/' !in s
    ensures var p := (if lead then "/" else "") + JoinSlash(segs) + (if trail then "/" else "");
            WalkAll(mayClimb, at, Split(p)) == WalkAll(mayClimb, at, segs)
  {
    var body := JoinSlash(segs);
    SplitJoin(segs);
    SplitPlain("");
    WalkAround(mayClimb, at, segs);
    hide JoinSlash, WalkAll, Split;
    var tailed := body + if trail then "/" else "";
    var tail: Segments := if trail then [""] else [];
    SplitSlash(body, "");
    assert body + "/" + "" == body + "/" && body + "" == body && segs + [] == segs;
    assert Split(tailed) == segs + tail;
    if lead {
      SplitSlash("", tailed);
      assert "" + "/" + tailed == "/" + body + if trail then "/" else "";
    } else {
      assert "" + body + (if trail then "/" else "") == tailed;
    }
  }

  /** The segments of a normalized path are the kept ones, with droppable ones around them. */
  lemma WalkNormalized(mayClimb: bool, at: Segments, p: Path)
    ensures WalkAll(mayClimb, at, Split(Normalize(p))) == WalkAll(mayClimb, at, Kept(p))
  {
    KeptNormal(p);
    if Kept(p) == [] {
      SplitPlain("");
      SplitPlain(".");
      SplitSlash("", "");
      SplitSlash(".", "");
      assert "" + "/" + "" == "/" && "." + "/" + "" == "./" && "." + "" == ".";
    } else {
      forall s | s in Kept(p) ensures '/' !in s {
        var i :| 0 <= i < |Kept(p)| && Kept(p)[i] == s;
      }
      if p != "" {
        hide Kept, JoinSlash, WalkAll, Split;
        WalkDecorated(mayClimb, at, Kept(p), IsAbsolute(p), p[|p| - 1] == '/');
      }
    }
  }

  lemma WalkAround(mayClimb: bool, at: Segments, segs: Segments)
    ensures WalkAll(mayClimb, at, [""] + segs) == WalkAll(mayClimb, at, segs)
    ensures WalkAll(mayClimb, at, segs + [""]) == WalkAll(mayClimb, at, segs)
    ensures WalkAll(mayClimb, at, [""] + (segs + [""])) == WalkAll(mayClimb, at, segs)
  {
    WalkAppend(mayClimb, at, segs, [""]);
    assert ([""] + segs)[1..] == segs && ([""] + (segs + [""]))[1..] == segs + [""];
  }

  lemma NormalizeShape(p: Path)
    ensures IsAbsolute(Normalize(p)) == IsAbsolute(p)
    ensures Normalize(p) != ""
    ensures p != "" && Kept(p) != [] ==> (p[|p| - 1] == '/' <==> Normalize(p)[|Normalize(p)| - 1] == '/')
  {
    KeptNormal(p);
    if p != "" && Kept(p) != [] {
      forall s | s in Kept(p) ensures '/' !in s && s != "" {
        var i :| 0 <= i < |Kept(p)| && Kept(p)[i] == s;
        assert !Skipped(Kept(p)[i]);
      }
      JoinNonEmpty(Kept(p));
      JoinLast(Kept(p));
      assert Kept(p)[0][0] in Kept(p)[0];
    }
  }

  lemma KeptNormalized(p: Path)
    ensures Kept(Normalize(p)) == Kept(p)
  {
    NormalizeShape(p);
    KeptNormal(p);
    WalkNormalized(!IsAbsolute(p), [], p);
    WalkKeeps(!IsAbsolute(p), [], Kept(p));
  }

  /** A normalized path is a fixed point. */
  lemma NormalizeTwice(p: Path)
    ensures Normalize(Normalize(p)) == Normalize(p)
  {
    NormalizeShape(p);
    KeptNormalized(p);
  }

  /** Normalizing a path does not change where it is. */
  lemma LocationNormalized(cwd: Path, p: Path)
    ensures Location(cwd, Normalize(p)) == Location(cwd, p)
  {
    NormalizeShape(p);
    KeptNormal(p);
    if IsAbsolute(p) {
      WalkNormalized(false, [], p);
      WalkKeeps(false, [], Kept(p));
    } else {
      var here := WalkAll(false, [], Split(cwd));
      WalkAppend(false, [], Split(cwd), Split(Normalize(p)));
      WalkAppend(false, [], Split(cwd), Split(p));
      WalkNormalized(false, here, p);
      WalkAfterSimplifying(here, [], Split(p));
    }
  }

  /** A relative path appended to a root is walked from where the root is. */
  lemma LocationBelow(cwd: Path, root: Path, p: Path)
    requires root != ""
    ensures Location(cwd, root + "/" + p) == WalkAll(false, Location(cwd, root), Split(p))
  {
    SplitSlash(root, p);
    hide Split, WalkAll;
    if IsAbsolute(root) {
      WalkAppend(false, [], Split(root), Split(p));
    } else {
      WalkAppend(false, [], Split(cwd) + Split(root), Split(p));
      assert Split(cwd) + (Split(root) + Split(p)) == (Split(cwd) + Split(root)) + Split(p);
    }
  }

  lemma LocationJoin(cwd: Path, root: Path, p: Path)
    requires !IsAbsolute(p)
    ensures Location(cwd, Join(root, p)) == WalkAll(false, Location(cwd, root), Split(p))
  {
    if root == "" {
      LocationNormalized(cwd, p);
      WalkAppend(false, [], Split(cwd), Split(p));
      WalkAppend(false, [], Split(cwd), [""]);
    } else if p == "" {
      LocationNormalized(cwd, root);
    } else {
      LocationBelow(cwd, root, p);
      LocationNormalized(cwd, root + "/" + p);
    }
  }

  /** From a directory to something below it there is nothing to climb. */
  lemma {:induction false} CommonPrefixOfBelow(a: Segments, rest: Segments)
    ensures CommonPrefix(a, a + rest) == |a|
  {
    if a != [] {
      assert (a + rest)[1..] == a[1..] + rest;
      CommonPrefixOfBelow(a[1..], rest);
    }
  }

  lemma RelativeBelow(cwd: Path, from: Path, to: Path, rest: Segments)
    requires Location(cwd, to) == Location(cwd, from) + rest
    ensures Relative(cwd, from, to) == JoinSlash(rest)
  {
    var a := Location(cwd, from);
    CommonPrefixOfBelow(a, rest);
    assert (a + rest)[|a|..] == rest;
    assert seq(0, _ => "..") + rest == rest;
  }
}

/** The check that a path given by a user stays in the workspace (services/orchestrator/src/sandbox/security.ts). */
module PathSecurity {
  import opened Collections
  import opened PosixPath

  datatype PathError = NullBytes | AbsolutePath | Traversal | Escape

  function ValidatePath(cwd: Path, userPath: Path, workspaceRoot: Path): Result<Path, PathError> {
    if '\0' in userPath then Failure(NullBytes)
    else if IsAbsolute(userPath) then Failure(AbsolutePath)
    else
      var normalized := Normalize(userPath);
      if StartsWith(normalized, "..") then Failure(Traversal)
      else
        var relativeToRoot := Relative(cwd, workspaceRoot, Join(workspaceRoot, normalized));
        if StartsWith(relativeToRoot, "..") || IsAbsolute(relativeToRoot) then Failure(Escape)
        else Success(normalized)
  }

  lemma JoinStartsUp(segs: Segments, tail: string)
    requires segs != [] && segs[0] != "" && '/' !in segs[0] && (tail == "" || tail == "/")
    ensures StartsWith(JoinSlash(segs) + tail, "..") <==> StartsWith(segs[0], "..")
  {
    var s := JoinSlash(segs) + tail;
    var after := if |segs| == 1 then tail else "/" + JoinSlash(segs[1..]) + tail;
    assert s == segs[0] + after;
    TwoDots(s);
    TwoDots(segs[0]);
  }

  lemma TwoDots(p: Path)
    ensures StartsWith(p, "..") <==> |p| >= 2 && p[0] == '.' && p[1] == '.'
  {
    if |p| >= 2 { assert ".." <= p <==> p[..2] == ".."; }
  }

  /** The textual test looks at the first segment that is kept. */
  lemma StartsUpIff(p: Path)
    requires !IsAbsolute(p)
    ensures StartsWith(Normalize(p), "..") <==> Kept(p) != [] && StartsWith(Kept(p)[0], "..")
  {
    KeptNormal(p);
    TwoDots(Normalize(p));
    if p != "" && Kept(p) != [] {
      JoinStartsUp(Kept(p), if p[|p| - 1] == '/' then "/" else "");
      assert "" + JoinSlash(Kept(p)) == JoinSlash(Kept(p));
    }
  }

  lemma NormalNoUps(segs: Segments)
    requires Normal(segs) && (segs == [] || segs[0] != "..")
    ensures NoUps(segs)
  {
    if ".." in segs {
      var i :| 0 <= i < |segs| && segs[i] == "..";
      FirstUp(segs, i);
    }
  }

  lemma {:induction false} FirstUp(segs: Segments, i: nat)
    requires Normal(segs) && i < |segs| && segs[i] == ".."
    ensures segs[0] == ".."
  {
    if i > 0 { FirstUp(segs, i - 1); }
  }

  /** Past the textual test, the path leads from the root to itself followed by the names it keeps. */
  lemma BelowRoot(cwd: Path, p: Path, root: Path)
    requires !IsAbsolute(p) && !StartsWith(Normalize(p), "..")
    ensures NoUps(Kept(p))
    ensures WalkAll(false, Location(cwd, root), Split(p)) == Location(cwd, root) + Kept(p)
    ensures Location(cwd, Join(root, Normalize(p))) == Location(cwd, root) + Kept(p)
    ensures Relative(cwd, root, Join(root, Normalize(p))) == JoinSlash(Kept(p))
  {
    var at := Location(cwd, root);
    StartsUpIff(p);
    KeptNormal(p);
    NormalNoUps(Kept(p));
    NormalizeShape(p);
    LocationJoin(cwd, root, Normalize(p));
    WalkNormalized(false, at, p);
    WalkKeeps(false, at, Kept(p));
    WalkAfterSimplifying(at, [], Split(p));
    RelativeBelow(cwd, root, Join(root, Normalize(p)), Kept(p));
  }

  /** The last check never fires: what it looks for has been refused before. */
  lemma LastCheckNeverFires(cwd: Path, p: Path, root: Path)
    ensures ValidatePath(cwd, p, root) != Failure(Escape)
  {
    if !IsAbsolute(p) && !StartsWith(Normalize(p), "..") {
      BelowRoot(cwd, p, root);
      StartsUpIff(p);
      KeptNormal(p);
      if Kept(p) != [] {
        JoinNonEmpty(Kept(p));
        JoinStartsUp(Kept(p), "");
        assert JoinSlash(Kept(p)) + "" == JoinSlash(Kept(p));
        assert Kept(p)[0][0] in Kept(p)[0];
      }
    }
  }

  /** An accepted path stays at or below the root, wherever that is: read as it was given or as it is
      returned, it is the root followed by the names kept; and what is returned is already normalized. */
  lemma AcceptedStaysBelow(cwd: Path, p: Path, root: Path)
    requires ValidatePath(cwd, p, root).Success?
    ensures var normalized := ValidatePath(cwd, p, root).value;
            && Normalize(normalized) == normalized && !IsAbsolute(normalized)
            && Location(cwd, Join(root, normalized)) == Location(cwd, root) + Kept(p)
            && Location(cwd, Join(root, p)) == Location(cwd, root) + Kept(p)
            && Normal(Kept(p)) && NoUps(Kept(p))
  {
    BelowRoot(cwd, p, root);
    LocationJoin(cwd, root, p);
    NormalizeTwice(p);
    NormalizeShape(p);
    KeptNormal(p);
  }

  // Who is refused.

  function Weight(s: string): int { if Skipped(s) then 0 else if s == ".." then -1 else 1 }

  /** How deep below its start a list of segments leads, counting without a floor. */
  function Depth(segs: Segments): int {
    if segs == [] then 0 else Weight(segs[0]) + Depth(segs[1..])
  }

  /** At some point the path is above its start. */
  ghost predicate Climbs(segs: Segments) {
    exists i :: 0 <= i <= |segs| && Depth(segs[..i]) < 0
  }

  ghost predicate ClimbsFrom(depth: nat, segs: Segments) {
    exists i :: 0 <= i <= |segs| && depth + Depth(segs[..i]) < 0
  }

  lemma ClimbsFromStep(depth: nat, segs: Segments)
    requires segs != []
    ensures ClimbsFrom(depth, segs)
       <==> depth + Weight(segs[0]) < 0 || ClimbsFrom(depth + Weight(segs[0]), segs[1..])
  {
    var d := depth + Weight(segs[0]);
    if ClimbsFrom(depth, segs) {
      var i :| 0 <= i <= |segs| && depth + Depth(segs[..i]) < 0;
      assert i > 0 && segs[..i][1..] == segs[1..][..i - 1];
      if d >= 0 {
        assert d + Depth(segs[1..][..i - 1]) < 0;
      }
    }
    if d < 0 {
      assert segs[..1][1..] == [];
      assert depth + Depth(segs[..1]) < 0;
    } else if ClimbsFrom(d, segs[1..]) {
      var i :| 0 <= i <= |segs[1..]| && d + Depth(segs[1..][..i]) < 0;
      assert segs[..i + 1][1..] == segs[1..][..i];
      assert depth + Depth(segs[..i + 1]) < 0;
    }
  }

  /** Once a walk has climbed it cannot come back. */
  lemma {:induction false} UpStays(at: Segments, segs: Segments)
    requires at != [] && at[0] == ".."
    ensures WalkAll(true, at, segs) != [] && WalkAll(true, at, segs)[0] == ".."
    decreases |segs|
  {
    if segs != [] { UpStays(Walk(true, at, segs[0]), segs[1..]); }
  }

  lemma {:induction false} WalkClimbsIff(at: Segments, segs: Segments)
    requires NoUps(at)
    ensures var r := WalkAll(true, at, segs); (r != [] && r[0] == "..") <==> ClimbsFrom(|at|, segs)
    decreases |segs|
  {
    if segs == [] {
      if at != [] { assert at[0] in at; }
      assert segs[..0] == [];
    } else {
      ClimbsFromStep(|at|, segs);
      var next := Walk(true, at, segs[0]);
      if at == [] && segs[0] == ".." {
        UpStays(next, segs[1..]);
      } else {
        if at != [] { assert at[|at| - 1] in at; }
        WalkClimbsIff(next, segs[1..]);
      }
    }
  }

  /** A name that merely begins with two dots. */
  predicate DotsName(s: string) { StartsWith(s, "..") && s != ".." }

  /** A path is refused exactly if it holds a null byte, is absolute, climbs above its start at some point, or
      keeps first a name beginning with two dots, which escapes nothing; and with the error of the first of
      these that applies. */
  lemma RefusedIff(cwd: Path, p: Path, root: Path)
    ensures var escapes := Climbs(Split(p)) || (Kept(p) != [] && DotsName(Kept(p)[0]));
            var checked := ValidatePath(cwd, p, root);
            if '\0' in p then checked == Failure(NullBytes)
            else if p != "" && p[0] == '/' then checked == Failure(AbsolutePath)
            else (checked == Failure(Traversal) <==> escapes) && (checked.Success? <==> !escapes)
  {
    LastCheckNeverFires(cwd, p, root);
    if !IsAbsolute(p) {
      StartsUpIff(p);
      WalkClimbsIff([], Split(p));
      assert Climbs(Split(p)) <==> ClimbsFrom(0, Split(p));
    }
  }

  /** Such a name is refused although it stays inside. */
  lemma DotsNameRefused(cwd: Path, root: Path)
    ensures ValidatePath(cwd, "..notes", root) == Failure(Traversal)
    ensures Location(cwd, Join(root, "..notes")) == Location(cwd, root) + ["..notes"]
  {
    SplitPlain("..notes");
    assert Kept("..notes") == ["..notes"];
    StartsUpIff("..notes");
    LocationJoin(cwd, root, "..notes");
  }
}
