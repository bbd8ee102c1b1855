/**
 * The parts of Python's `pathlib.PurePosixPath` the tools use: parsing a
 * path text into a root and its components, the normalised text
 * (`str(path)` and `path.as_posix()`), `name`, `suffix` and `stem`.
 */
module PyPath {
  import opened Wrappers
  import opened PyStr

  /** The root of a path text: `//` only for exactly two leading slashes,
      otherwise `/` for any leading slash, otherwise none. */
  function Root(s: string): string
  {
    if |s| == 0 || s[0] != '/' then ""
    else if |s| >= 2 && s[1] == '/' && !(|s| >= 3 && s[2] == '/') then "//"
    else "/"
  }

  /** The text without its leading slashes. */
  function LStripSlash(s: string): (r: string)
    ensures |r| == 0 || r[0] != '/'
  {
    if |s| > 0 && s[0] == '/' then LStripSlash(s[1..]) else s
  }

  /** The text after the root, as `splitroot` leaves it. */
  function Rel(s: string): string
  {
    if Root(s) == "//" then s[2..] else LStripSlash(s)
  }

  /** The components that survive parsing: neither empty nor `.`. */
  function KeepParts(ps: seq<string>): (r: seq<string>)
    ensures forall i :: 0 <= i < |r| ==> r[i] != "" && r[i] != "." && r[i] in ps
  {
    if |ps| == 0 then []
    else (if ps[0] != "" && ps[0] != "." then [ps[0]] else []) + KeepParts(ps[1..])
  }

  /** The components of a path text. */
  function Parts(s: string): seq<string>
  {
    KeepParts(Split(Rel(s), "/"))
  }

  /** `str(Path(s))`, which is also `Path(s).as_posix()`: the root followed by
      the components joined by `/`, or `.` when that is empty. */
  function PathStr(s: string): string
  {
    var t := Root(s) + Join("/", Parts(s));
    if t == "" then "." else t
  }

  /** `Path(s).name`: the last component, or empty. */
  function Name(s: string): string
  {
    var ps := Parts(s);
    if |ps| == 0 then "" else ps[|ps| - 1]
  }

  /** The index of the dot that starts the suffix of a name, if the name
      has one: the last dot, neither first nor last in the name. */
  function SuffixDot(name: string): (r: Option<nat>)
    ensures r.Some? ==> 0 < r.value < |name| - 1 && name[r.value] == '.' && '.' !in name[r.value + 1..]
  {
    match LastIndexOfChar(name, '.')
    case Some(i) => if 0 < i < |name| - 1 then Some(i) else None
    case None => None
  }

  /** `Path.suffix` of a name: from the last dot on, or empty. */
  function Suffix(name: string): string
  {
    match SuffixDot(name)
    case Some(i) => name[i..]
    case None => ""
  }

  /** `Path.stem` of a name: the name without its suffix. */
  function Stem(name: string): string
  {
    match SuffixDot(name)
    case Some(i) => name[..i]
    case None => name
  }

  /** `suffix.lstrip('.')`: the extension without its dot. */
  function Extension(name: string): string
  {
    var x := Suffix(name);
    if |x| > 0 then x[1..] else x
  }

  /** A name is its stem followed by its suffix; the suffix is empty or a
      dot followed by a non-empty text without dots, and the extension is
      that text. */
  lemma StemSuffix(name: string)
    ensures Stem(name) + Suffix(name) == name
    ensures Suffix(name) == "" || (|Suffix(name)| >= 2 && Suffix(name)[0] == '.' && '.' !in Suffix(name)[1..])
    ensures Suffix(name) == "" ==> Extension(name) == ""
    ensures Suffix(name) != "" ==> Suffix(name) == "." + Extension(name)
  {
    match SuffixDot(name)
    case Some(i) =>
      assert name[..i] + name[i..] == name;
      assert name[i..][1..] == name[i + 1..];
    case None =>
  }

  /** Every piece of a split on `c` is free of `c`. */
  lemma {:induction false} SplitPieces(s: string, c: char)
    ensures forall i :: 0 <= i < |Split(s, [c])| ==> c !in Split(s, [c])[i]
    decreases |s|
  {
    match IndexOf(s, [c])
    case None =>
      forall j | 0 <= j < |s|
        ensures s[j] != c
      {
        assert !OccursAt(s, [c], j);
        assert s[j..j + 1] == [s[j]];
      }
    case Some(k) =>
      forall j | 0 <= j < k
        ensures s[..k][j] != c
      {
        assert !OccursAt(s, [c], j);
        assert s[j..j + 1] == [s[j]];
      }
      SplitPieces(s[k + 1..], c);
  }

  /** No component contains a slash, is empty or is `.`. */
  lemma PartsClean(s: string)
    ensures forall i :: 0 <= i < |Parts(s)| ==> '/' !in Parts(s)[i] && Parts(s)[i] != "" && Parts(s)[i] != "."
  {
    SplitPieces(Rel(s), '/');
  }

  /** Keeping the clean components of clean components keeps them all. */
  lemma {:induction false} KeepClean(ps: seq<string>)
    requires forall i :: 0 <= i < |ps| ==> ps[i] != "" && ps[i] != "."
    ensures KeepParts(ps) == ps
  {
    if |ps| > 0 {
      KeepClean(ps[1..]);
    }
  }

  /** A join of non-empty parts starts with the first part's first character. */
  lemma JoinStarts(ps: seq<string>)
    requires |ps| > 0 && |ps[0]| > 0
    ensures |Join("/", ps)| > 0 && Join("/", ps)[0] == ps[0][0]
  {
  }

  /** A root followed by a text that does not start with a slash parses
      back into that root and that text. */
  lemma RootJoin(root: string, j: string)
    requires root == "" || root == "/" || root == "//"
    requires |j| > 0 && j[0] != '/'
    ensures Root(root + j) == root && Rel(root + j) == j
  {
    var t := root + j;
    if root == "/" {
      assert t[1..] == j;
      assert LStripSlash(t) == LStripSlash(j) == j;
    } else if root == "//" {
      assert t[2..] == j;
    } else {
      assert t == j;
    }
  }

  /** The texts of paths without components have no components. */
  lemma BarePaths()
    ensures Parts(".") == [] && Root(".") == ""
    ensures Parts("/") == [] && Root("/") == "/"
    ensures Parts("//") == [] && Root("//") == "//"
  {
    assert Split("", "/") == [""];
    assert Split(".", "/") == ["."] by { SplitNoSep(".", '/'); }
    assert LStripSlash("/") == LStripSlash("") == "";
    assert "//"[2..] == "";
  }

  /** A root followed by the `/`-join of clean components parses back into
      that root and those components. */
  lemma PartsOfJoin(root: string, ps: seq<string>)
    requires root == "" || root == "/" || root == "//"
    requires |ps| > 0
    requires forall i :: 0 <= i < |ps| ==> '/' !in ps[i] && ps[i] != "" && ps[i] != "."
    ensures Root(root + Join("/", ps)) == root && Parts(root + Join("/", ps)) == ps
  {
    var j := Join("/", ps);
    JoinStarts(ps);
    assert ps[0][0] in ps[0];
    RootJoin(root, j);
    SplitJoin(ps, '/');
    KeepClean(ps);
  }

  /** A root followed by clean components is already normalised. */
  lemma PathStrJoin(root: string, ps: seq<string>)
    requires root == "" || root == "/" || root == "//"
    requires |ps| > 0
    requires forall i :: 0 <= i < |ps| ==> '/' !in ps[i] && ps[i] != "" && ps[i] != "."
    ensures PathStr(root + Join("/", ps)) == root + Join("/", ps)
  {
    PartsOfJoin(root, ps);
    JoinStarts(ps);
  }

  /** A path without components normalises to `.`, `/` or `//`, each of
      which normalises to itself. */
  lemma PathStrBare(s: string)
    requires |Parts(s)| == 0
    ensures PathStr(PathStr(s)) == PathStr(s)
  {
    BarePaths();
    assert Join("/", Parts(s)) == "";
  }

  /** Normalising a normalised path changes nothing. */
  lemma PathStrIdempotent(s: string)
    ensures PathStr(PathStr(s)) == PathStr(s)
  {
    if |Parts(s)| == 0 {
      PathStrBare(s);
    } else {
      PartsClean(s);
      JoinStarts(Parts(s));
      PathStrJoin(Root(s), Parts(s));
    }
  }

  /** A single clean component is its own path text, and its own name. */
  lemma PlainName(s: string)
    requires '/' !in s && s != "" && s != "."
    ensures Root(s) == "" && Parts(s) == [s] && PathStr(s) == s && Name(s) == s
  {
    assert s[0] in s;
    assert Rel(s) == LStripSlash(s) == s;
    SplitNoSep(s, '/');
    assert KeepParts([s]) == [s] + KeepParts([]);
  }

  /** `Path(p).parent.name`: the component before the last, or empty. */
  function ParentName(p: string): (r: string)
    ensures '/' !in r
  {
    var ps := Parts(p);
    PartsClean(p);
    if |ps| >= 2 then ps[|ps| - 2] else ""
  }

  /** `Path(p).relative_to(base).as_posix()`: the components of `p` after
      those of `base`, which must be a leading part of `p` with the same root
      (ValueError otherwise); `.` when nothing is left. */
  function RelativeTo(p: string, base: string): (r: Result<string>)
    ensures r.Ok? <==> Root(p) == Root(base) && Parts(base) <= Parts(p)
    ensures r.Err? ==> r.error.ValueError?
  {
    var ps := Parts(p);
    var bs := Parts(base);
    if Root(p) == Root(base) && bs <= ps then
      var rest := ps[|bs|..];
      Ok(if |rest| == 0 then "." else Join("/", rest))
    else Err(ValueError("is not in the subpath"))
  }

  /** The text of a relative path made of clean components parses back
      into those components. */
  lemma RelativeText(rest: seq<string>)
    requires forall i :: 0 <= i < |rest| ==> '/' !in rest[i] && rest[i] != "" && rest[i] != "."
    ensures var r := if |rest| == 0 then "." else Join("/", rest);
            Root(r) == "" && Parts(r) == rest
  {
    if |rest| == 0 {
      BarePaths();
    } else {
      PartsOfJoin("", rest);
      assert "" + Join("/", rest) == Join("/", rest);
    }
  }

  /** The relative path holds exactly the components of `p` that follow
      those of `base`, and has no root. */
  lemma RelativeToParts(p: string, base: string)
    requires RelativeTo(p, base).Ok?
    ensures var r := RelativeTo(p, base).value;
            Root(r) == "" && Parts(base) + Parts(r) == Parts(p)
  {
    var ps := Parts(p);
    var bs := Parts(base);
    var rest := ps[|bs|..];
    assert RelativeTo(p, base).value == if |rest| == 0 then "." else Join("/", rest);
    assert forall i :: 0 <= i < |rest| ==> '/' !in rest[i] && rest[i] != "" && rest[i] != "." by {
      PartsClean(p);
      assert forall i :: 0 <= i < |rest| ==> rest[i] == ps[|bs| + i];
    }
    RelativeText(rest);
    PrefixRest(bs, ps);
  }

  /** A leading part followed by what comes after it is the whole. */
  lemma PrefixRest<T>(xs: seq<T>, ys: seq<T>)
    requires xs <= ys
    ensures xs + ys[|xs|..] == ys
  {
  }

  /** The last occurrence of `c` is the one that starts `b` when the rest of
      `b` is free of it. */
  lemma {:induction false} LastIndexAt(a: string, b: string, c: char)
    requires |b| > 0 && b[0] == c && c !in b[1..]
    ensures LastIndexOfChar(a + b, c) == Some(|a|)
    decreases |b|
  {
    var s := a + b;
    if |b| > 1 {
      assert b[|b| - 1] in b[1..];
      assert s[..|s| - 1] == a + b[..|b| - 1];
      assert b[..|b| - 1][1..] == b[1..|b| - 1];
      assert forall x :: x in b[1..|b| - 1] ==> x in b[1..];
      LastIndexAt(a, b[..|b| - 1], c);
    }
  }

  /** Appending a suffix to a non-empty stem gives a name with that stem and
      that suffix. */
  lemma SuffixAppend(stem: string, suffix: string)
    requires |stem| > 0 && |suffix| >= 2 && suffix[0] == '.' && '.' !in suffix[1..]
    ensures Suffix(stem + suffix) == suffix && Stem(stem + suffix) == stem
  {
    LastIndexAt(stem, suffix, '.');
    assert (stem + suffix)[|stem|..] == suffix;
    assert (stem + suffix)[..|stem|] == stem;
  }
}
