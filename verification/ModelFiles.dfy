/**
 Paths of model files as the runtime handles them: spelled as `pathlib` spells them, and located on
 disk from the working directory (src/link/app/runtime.py:991-1036, 1230-1249).
 */
module ModelFiles {
  import opened Common
  import opened Search

  /** A path as it is compared: by its spelling. */
  datatype Path = Path(absolute: bool, parts: seq<string>)

  /** A place on disk, from the root down. */
  type Location = seq<string>

  /** The components of a text, without empty ones and without `.`. */
  function Components(text: string): (r: seq<string>)
    decreases |text|
  {
    var slash := Find(text, "/");
    if slash < 0 then Kept(text) else Kept(text[..slash]) + Components(text[slash + 1..])
  }

  function Kept(part: string): (r: seq<string>) { if part == "" || part == "." then [] else [part] }

  /** `Path(text)` */
  function ParsePath(text: string): (p: Path) { Path(text != "" && text[0] == '/', Components(text)) }

  /** `..` leads to the parent. */
  function Climb(parts: seq<string>): (r: Location)
    decreases |parts|
  {
    if parts == [] then []
    else
      var above := Climb(parts[..|parts| - 1]);
      var last := parts[|parts| - 1];
      if last != ".." then above + [last] else if above == [] then [] else above[..|above| - 1]
  }

  /** Where a path leads: a relative one starts at the working directory. */
  function Locate(cwd: Location, p: Path): (r: Location) {
    Climb(if p.absolute then p.parts else cwd + p.parts)
  }

  /** `_is_safe_basename`: one path component. */
  predicate IsSafeBasename(name: string) {
    && name != "" && name != "." && name != ".."
    && '/' !in name && '\\' !in name && '\0' !in name
  }

  /** `_is_safe_extension` */
  predicate IsSafeExtension(extension: string) {
    && extension != "" && extension != "." && extension != ".."
    && '/' !in extension && '\\' !in extension && '\0' !in extension
  }

  function Dotted(extension: string): (r: string) {
    if extension != "" && extension[0] != '.' then "." + extension else extension
  }

  /** The file an uninstall command names itself, under models/ of the working directory. */
  function Fallback(cwd: Location, filename: string, extension: string): (r: Option<Path>) {
    if filename == "" then None else Some(Path(true, cwd + ["models", filename + Dotted(extension)]))
  }

  lemma {:induction false} ClimbSnoc(parts: seq<string>, last: string)
    ensures Climb(parts + [last]) ==
            if last != ".." then Climb(parts) + [last]
            else if Climb(parts) == [] then [] else Climb(parts)[..|Climb(parts)| - 1]
  {
    assert (parts + [last])[..|parts|] == parts;
  }

  /** A path without `..` leads where it says. */
  lemma {:induction false} ClimbPlain(parts: seq<string>)
    requires ".." !in parts
    ensures Climb(parts) == parts
    decreases |parts|
  {
    if parts != [] {
      var front := parts[..|parts| - 1];
      ClimbPlain(front);
      assert parts == front + [parts[|parts| - 1]];
    }
  }

  /** Going down and up again is staying. */
  lemma {:induction false} ClimbBack(before: seq<string>, name: string, rest: seq<string>)
    requires name != ".."
    ensures Climb(before + [name, ".."] + rest) == Climb(before + rest)
    decreases |rest|
  {
    if rest == [] {
      assert before + [name, ".."] + rest == (before + [name]) + [".."] && before + rest == before;
      ClimbSnoc(before, name);
      ClimbSnoc(before + [name], "..");
    } else {
      var front, last := rest[..|rest| - 1], rest[|rest| - 1];
      ClimbBack(before, name, front);
      assert before + [name, ".."] + rest == (before + [name, ".."] + front) + [last];
      assert before + rest == (before + front) + [last];
      ClimbSnoc(before + [name, ".."] + front, last);
      ClimbSnoc(before + front, last);
    }
  }

  /** And above the root there is nothing. */
  lemma {:induction false} ClimbRoot(rest: seq<string>)
    ensures Climb([".."] + rest) == Climb(rest)
    decreases |rest|
  {
    if rest == [] {
      assert [".."] + rest == [] + [".."];
      ClimbSnoc([], "..");
    } else {
      var front, last := rest[..|rest| - 1], rest[|rest| - 1];
      ClimbRoot(front);
      assert [".."] + rest == ([".."] + front) + [last] && rest == front + [last];
      ClimbSnoc([".."] + front, last);
      ClimbSnoc(front, last);
    }
  }

  /** What is between the slashes, in order, less the empty parts and the dots. */
  function Named(parts: seq<string>): (r: seq<string>) {
    if parts == [] then [] else (if parts[0] in ["", "."] then [] else [parts[0]]) + Named(parts[1..])
  }

  lemma {:induction false} NamedCons(part: string, rest: seq<string>)
    ensures Named([part] + rest) == Kept(part) + Named(rest)
  {
    assert ([part] + rest)[1..] == rest;
  }

  lemma {:induction false} ComponentsUnfold(text: string, i: int)
    requires i == Find(text, ['/'])
    ensures i < 0 ==> Components(text) == Kept(text) && Split(text, '/') == [text]
    ensures i >= 0 ==> Components(text) == Kept(text[..i]) + Components(text[i + 1..])
    ensures i >= 0 ==> Split(text, '/') == [text[..i]] + Split(text[i + 1..], '/')
  {
    assert "/" == ['/'];
  }

  lemma {:induction false} ComponentsAreNamed(text: string)
    ensures Components(text) == Named(Split(text, '/'))
    decreases |text|
  {
    var i := Find(text, ['/']);
    ComponentsUnfold(text, i);
    if i < 0 {
      NamedCons(text, []);
      assert [text] + [] == [text] && Kept(text) + [] == Kept(text);
    } else {
      var rest := text[i + 1..];
      ComponentsAreNamed(rest);
      NamedCons(text[..i], Split(rest, '/'));
    }
  }

  lemma {:induction false} OneComponent(name: string)
    requires '/' !in name && name != "" && name != "."
    ensures Components(name) == [name]
  {
    FindOne(name, '/');
  }

  lemma {:induction false} ModelsPath(name: string)
    requires '/' !in name && name != "" && name != "."
    ensures ParsePath("models/" + name) == Path(false, ["models", name])
  {
    var text := "models/" + name;
    assert text == "models" + ['/'] + name;
    FindOneAt("models", '/', name);
    assert text[..6] == "models" && text[7..] == name;
    OneComponent(name);
  }
}
