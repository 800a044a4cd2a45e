/** Path composition as the orchestrator performs it: Python's
    `os.path.join` with two arguments, on POSIX. */
module Paths {
  type Path = string

  predicate IsAbsolute(p: Path) {
    |p| > 0 && p[0] == '/'
  }

  predicate EndsInSeparator(p: Path) {
    |p| > 0 && p[|p| - 1] == '/'
  }

  /** `os.path.join(a, b)`: an absolute `b` replaces `a`; otherwise `b` is
      appended to `a` with a '/' between them, and none is added when `a` is
      empty or already ends in '/'. */
  function Join(a: Path, b: Path): Path {
    if IsAbsolute(b) then b
    else if a == "" || EndsInSeparator(a) then a + b
    else a + "/" + b
  }

  /** What a joined path looks like: it ends with `b`; when `b` is relative
      it starts with `a`, a '/' separates the two unless `a` is empty, and
      exactly one character is added precisely when `a` is non-empty and
      lacks a trailing '/'. */
  lemma JoinShape(a: Path, b: Path)
    ensures var r := Join(a, b);
            |r| >= |b| && r[|r| - |b|..] == b &&
            (IsAbsolute(b) ==> r == b) &&
            (!IsAbsolute(b) ==> |r| >= |a| && r[..|a|] == a) &&
            (!IsAbsolute(b) && a != "" ==> |r| > |b| && r[|r| - |b| - 1] == '/') &&
            (!IsAbsolute(b) ==>
               |r| == |a| + |b| + (if a == "" || EndsInSeparator(a) then 0 else 1))
  {
  }

  /** Below one directory, distinct relative names give distinct paths. */
  lemma JoinInjective(a: Path, b1: Path, b2: Path)
    requires !IsAbsolute(b1) && !IsAbsolute(b2)
    ensures Join(a, b1) == Join(a, b2) <==> b1 == b2
  {
    JoinShape(a, b1);
    JoinShape(a, b2);
  }
}
