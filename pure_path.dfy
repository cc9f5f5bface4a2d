/** `pathlib.PurePosixPath` as the modelled code uses it: `Path(s)`, `p / q`,
    `p.is_absolute()`, `p.parent`, `p.name` and `str(p)`. A path is an absoluteness
    flag and its components; parsing drops empty and `.` components. */
module PurePath {
  import opened PyText

  datatype Path = Path(absolute: bool, parts: seq<string>)

  /** A component as `Path` keeps it: not empty, not `.`, without `/`. */
  predicate IsPart(p: string) {
    p != "" && p != "." && '/' !in p
  }

  ghost predicate Normal(p: Path) {
    forall i :: 0 <= i < |p.parts| ==> IsPart(p.parts[i])
  }

  /** The segments that `Path` keeps as components. */
  function Parts(segments: seq<string>): (r: seq<string>)
    ensures forall i :: 0 <= i < |r| ==> r[i] != "" && r[i] != "."
  {
    if segments == [] then []
    else if segments[0] == "" || segments[0] == "." then Parts(segments[1..])
    else [segments[0]] + Parts(segments[1..])
  }

  lemma {:induction false} PartsAppend(a: seq<string>, b: seq<string>)
    ensures Parts(a + b) == Parts(a) + Parts(b)
  {
    if a != [] {
      assert (a + b)[1..] == a[1..] + b;
      PartsAppend(a[1..], b);
    } else {
      assert a + b == b;
    }
  }

  lemma {:induction false} PartsKeep(segments: seq<string>)
    requires forall i :: 0 <= i < |segments| ==> IsPart(segments[i])
    ensures Parts(segments) == segments
  {
    if segments != [] {
      PartsKeep(segments[1..]);
    }
  }

  /** The pieces of `s` between slashes contain no slash. */
  lemma {:induction false} SplitHasNoSlash(s: string)
    ensures forall i :: 0 <= i < |Split(s, '/')| ==> '/' !in Split(s, '/')[i]
  {
    if s != [] {
      SplitHasNoSlash(s[1..]);
    }
  }

  /** `Path(s)`: absolute when `s` starts with `/`. (A path starting with exactly
      two slashes, which POSIX lets `pathlib` keep, is not distinguished.) */
  function Parse(s: string): (p: Path)
    ensures Normal(p)
    ensures p.absolute <==> StartsWith(s, "/")
  {
    SplitHasNoSlash(s);
    var segments := Split(s, '/');
    PartsNoSlash(segments);
    Path(|s| > 0 && s[0] == '/', Parts(segments))
  }

  lemma {:induction false} PartsNoSlash(segments: seq<string>)
    requires forall i :: 0 <= i < |segments| ==> '/' !in segments[i]
    ensures forall i :: 0 <= i < |Parts(segments)| ==> IsPart(Parts(segments)[i])
  {
    if segments != [] {
      PartsNoSlash(segments[1..]);
    }
  }

  /** `str(p)` */
  function Text(p: Path): string {
    if p.absolute then "/" + Join("/", p.parts)
    else if p.parts == [] then "."
    else Join("/", p.parts)
  }

  /** A normal path survives `str` and `Path` unchanged. */
  lemma ParseText(p: Path)
    requires Normal(p)
    ensures Parse(Text(p)) == p
  {
    var j := Join("/", p.parts);
    if p.parts == [] {
      assert Split("", '/') == [""];
      if p.absolute {
        assert Text(p) == "/";
        assert "/"[1..] == "";
        assert Split("/", '/') == ["", ""];
        assert Parts(["", ""]) == [];
      } else {
        assert Text(p) == ".";
        assert "."[1..] == "" && "."[0] == '.';
        assert Split(".", '/') == [['.'] + ""];
        assert Parts(["."]) == [];
      }
    } else {
      SplitJoin(p.parts, '/');
      PartsKeep(p.parts);
      if p.absolute {
        assert ("/" + j)[1..] == j;
        assert Split("/" + j, '/') == [""] + p.parts;
      } else {
        assert j[0] != '/' by {
          JoinHead(p.parts);
        }
      }
    }
  }

  lemma JoinHead(parts: seq<string>)
    requires |parts| >= 1 && IsPart(parts[0])
    ensures |Join("/", parts)| > 0 && Join("/", parts)[0] == parts[0][0]
  {
  }

  /** `a / b`: an absolute `b` replaces `a`; a relative one is appended to it. */
  function Div(a: Path, b: Path): (r: Path)
    ensures b.absolute ==> r == b
    ensures !b.absolute ==> r.absolute == a.absolute && r.parts == a.parts + b.parts
  {
    if b.absolute then b else Path(a.absolute, a.parts + b.parts)
  }

  /** `p.parent`: `p` without its last component; `/` and `.` are their own parents. */
  function Parent(p: Path): (r: Path)
    ensures r.absolute == p.absolute
    ensures p.parts != [] ==> r.parts + [p.parts[|p.parts| - 1]] == p.parts
    ensures p.parts == [] ==> r == p
  {
    if p.parts == [] then p else Path(p.absolute, p.parts[..|p.parts| - 1])
  }

  /** `p.name`: the last component, or `""`. */
  function Name(p: Path): string {
    if p.parts == [] then "" else p.parts[|p.parts| - 1]
  }
}
