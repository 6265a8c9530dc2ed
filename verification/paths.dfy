/** The part of `pathlib.PurePosixPath` the program relies on: building a
    path from text and joining with `/`. A path is whether it is rooted and
    its components; empty and `.` components are dropped, as pathlib does. */
module Paths {
  import opened Common
  import opened Text

  datatype Path = Path(absolute: bool, parts: seq<string>)

  /** A component that pathlib keeps as it is. */
  predicate IsComponent(s: string)
  {
    s != "" && s != "." && '/' !in s
  }

  function Components(pieces: seq<string>): (r: seq<string>)
    ensures forall i :: 0 <= i < |r| ==> r[i] != "" && r[i] != "." && r[i] in pieces
  {
    if pieces == [] then []
    else (if pieces[0] == "" || pieces[0] == "." then [] else [pieces[0]]) + Components(pieces[1..])
  }

  /** `Path(text)` */
  function FromText(text: string): (p: Path)
    ensures p.absolute <==> |text| > 0 && text[0] == '/'
    ensures forall i :: 0 <= i < |p.parts| ==> IsComponent(p.parts[i])
  {
    var pieces := Split(text, '/');
    var r := Components(pieces);
    Path(|text| > 0 && text[0] == '/', r)
  }

  /** `p / text`: an absolute right-hand side replaces `p`. */
  function Child(p: Path, text: string): (r: Path)
    ensures |text| > 0 && text[0] == '/' ==> r == FromText(text)
    ensures !(|text| > 0 && text[0] == '/') ==>
      r.absolute == p.absolute && |r.parts| >= |p.parts| && r.parts[..|p.parts|] == p.parts
  {
    var q := FromText(text);
    if q.absolute then q else Path(p.absolute, p.parts + q.parts)
  }

  /** `p.name`: the last component, empty for a root or `.`. */
  function Name(p: Path): string
  {
    if p.parts == [] then "" else p.parts[|p.parts| - 1]
  }

  /** `p.parent` for a path with at least one component. */
  function Parent(p: Path): Path
    requires p.parts != []
  {
    Path(p.absolute, p.parts[..|p.parts| - 1])
  }

  /** The position of the first of `paths[i..]` that is not in `present`: a
      file that does not exist, a directory that cannot be created. */
  function FirstMissing(paths: seq<Path>, present: set<Path>, i: nat): (r: Option<nat>)
    requires i <= |paths|
    ensures r.None? <==> forall j :: i <= j < |paths| ==> paths[j] in present
    ensures r.Some? ==>
      && i <= r.value < |paths| && paths[r.value] !in present
      && forall k :: i <= k < r.value ==> paths[k] in present
    decreases |paths| - i
  {
    if i == |paths| then None
    else if paths[i] !in present then Some(i)
    else FirstMissing(paths, present, i + 1)
  }

  /** A plain file name is a single component. */
  lemma ComponentText(name: string)
    requires IsComponent(name)
    ensures FromText(name) == Path(false, [name])
  {
    SplitNoSeparator(name, '/');
    assert Components([name]) == [name] + Components([]);
  }

  /** Joining a plain file name puts it directly inside the directory. */
  lemma ChildOfComponent(p: Path, name: string)
    requires IsComponent(name)
    ensures Child(p, name) == Path(p.absolute, p.parts + [name])
    ensures Name(Child(p, name)) == name && Parent(Child(p, name)) == p
  {
    ComponentText(name);
    assert (p.parts + [name])[..|p.parts|] == p.parts;
  }

  /** A name with a `/` in it lands deeper: `d / "a/b"` is `d/a/b`. */
  lemma ChildWithSlash(p: Path, a: string, b: string)
    requires IsComponent(a) && IsComponent(b)
    ensures Child(p, a + "/" + b) == Path(p.absolute, p.parts + [a, b])
  {
    var text := a + "/" + b;
    assert text == a + ['/'] + b;
    SplitAtFirst(a, '/', b);
    SplitNoSeparator(b, '/');
    assert Split(text, '/') == [a, b];
    assert Components([a, b]) == [a] + Components([b]);
    assert Components([b]) == [b] + Components([]);
  }
}
