/** SFTP path names, cleaned at the virtual root before any lookup. */
module Paths {
  import opened Common

  type Name = string

  /** A path below the shared directory; [] is the directory itself. */
  type Path = seq<Name>

  function Split(s: string): (r: seq<string>)
    ensures |r| > 0
  {
    if s == "" then [""]
    else if s[0] == '/' then [""] + Split(s[1..])
    else var r := Split(s[1..]); [[s[0]] + r[0]] + r[1..]
  }

  function Push(stack: Path, part: string): Path {
    if part == "" || part == "." then stack
    else if part == ".." then (if stack == [] then [] else stack[..|stack| - 1])
    else stack + [part]
  }

  function PushAll(stack: Path, parts: seq<string>): Path
    decreases |parts|
  {
    if parts == [] then stack else PushAll(Push(stack, parts[0]), parts[1..])
  }

  /** None for a path with a NUL in it. */
  function Clean(path: string): Option<Path> {
    if '\0' in path then None else Some(PushAll([], Split(path)))
  }

  method Relative(path: string) returns (r: Option<Path>)
    ensures r == Clean(path)
  {
    if '\0' in path {
      return None;
    }
    var split := Split(path);
    var parts: Path := [];
    for i := 0 to |split|
      invariant PushAll(parts, split[i..]) == PushAll([], split)
    {
      assert split[i..][1..] == split[i + 1..];
      var part := split[i];
      if part == "" || part == "." {
      } else if part == ".." {
        if parts != [] {
          parts := parts[..|parts| - 1];
        }
      } else {
        parts := parts + [part];
      }
    }
    r := Some(parts);
  }

  function Join(path: Path): (r: string)
    ensures r == "" || r[0] == '/'
  {
    if path == [] then "" else "/" + path[0] + Join(path[1..])
  }

  /** A name that stands for itself: not empty, no dots-only name, no separator or NUL inside. */
  predicate Plain(n: Name)
    ensures Plain(n) ==> '/' !in n && '\0' !in n
  {
    n != "" && n != "." && n != ".." && '/' !in n && '\0' !in n
  }

  lemma {:induction false} SplitNames(s: string)
    ensures forall p :: p in Split(s) ==> '/' !in p && forall c :: c in p ==> c in s
  {
    if s == "" {
    } else {
      SplitNames(s[1..]);
      var r := Split(s[1..]);
      if s[0] != '/' {
        assert r == [r[0]] + r[1..];
        assert forall c :: c in [s[0]] + r[0] ==> c == s[0] || c in r[0];
      }
    }
  }

  lemma {:induction false} PushAllPlain(stack: Path, parts: seq<string>)
    requires forall n :: n in stack ==> Plain(n)
    requires forall p :: p in parts ==> '/' !in p && '\0' !in p
    ensures forall n :: n in PushAll(stack, parts) ==> Plain(n)
    decreases |parts|
  {
    if parts == [] {
    } else {
      PushAllPlain(Push(stack, parts[0]), parts[1..]);
    }
  }

  /** A cleaned path has only plain names: nothing in it can climb out of the directory. */
  lemma {:induction false} CleanIsPlain(path: string)
    ensures Clean(path).Some? ==> forall n :: n in Clean(path).value ==> Plain(n)
    ensures Clean(path).None? <==> '\0' in path
  {
    if '\0' !in path {
      SplitNames(path);
      PushAllPlain([], Split(path));
    }
  }

  lemma {:induction false} SplitAtSlash(a: string, b: string)
    requires '/' !in a
    ensures Split(a + "/" + b) == [a] + Split(b)
    decreases |a|
  {
    if a == "" {
      assert (a + "/" + b) == "/" + b && ("/" + b)[1..] == b;
    } else {
      assert (a + "/" + b)[1..] == a[1..] + "/" + b;
      SplitAtSlash(a[1..], b);
      assert [a[0]] + a[1..] == a;
    }
  }

  lemma {:induction false} SplitNoSlash(a: string)
    requires '/' !in a
    ensures Split(a) == [a]
    decreases |a|
  {
    if a == "" {
    } else {
      SplitNoSlash(a[1..]);
      assert [a[0]] + a[1..] == a;
    }
  }

  lemma {:induction false} SplitHead(name: string, rest: string)
    requires '/' !in name
    requires rest == "" || rest[0] == '/'
    ensures Split("/" + (name + rest)) == [""] + ([name] + Split(rest)[1..])
  {
    var s := name + rest;
    assert ("/" + s)[1..] == s;
    if rest == "" {
      SplitNoSlash(name);
      assert s == name;
    } else {
      assert s == name + "/" + rest[1..];
      SplitAtSlash(name, rest[1..]);
      assert Split(rest) == [""] + Split(rest[1..]);
    }
  }

  lemma {:induction false} SplitJoin(path: Path)
    requires forall n :: n in path ==> Plain(n)
    ensures Split(Join(path)) == [""] + path
    decreases |path|
  {
    hide Plain, Split;
    if path == [] {
      assert Split(Join(path)) == [""] by { SplitNoSlash(""); }
    } else {
      var rest := Join(path[1..]);
      assert Plain(path[0]) by { assert path[0] in path; }
      SplitJoin(path[1..]);
      SplitHead(path[0], rest);
      assert Join(path) == "/" + (path[0] + rest);
      assert Split(rest)[1..] == path[1..];
      assert [path[0]] + path[1..] == path;
    }
  }

  lemma {:induction false} PushAllOfPlain(stack: Path, parts: Path)
    requires forall n :: n in parts ==> Plain(n)
    ensures PushAll(stack, parts) == stack + parts
    decreases |parts|
  {
    if parts == [] {
    } else {
      assert parts[0] in parts;
      PushAllOfPlain(stack + [parts[0]], parts[1..]);
      assert (stack + [parts[0]]) + parts[1..] == stack + parts;
    }
  }

  /** Cleaning what RealPath answers gives the same path back. */
  lemma {:induction false} CleanOfJoin(path: Path)
    requires forall n :: n in path ==> Plain(n)
    ensures Clean(Join(path)) == Some(path)
  {
    NoNul(path);
    SplitJoin(path);
    var parts := [""] + path;
    assert parts[1..] == path && Push([], parts[0]) == [];
    PushAllOfPlain([], path);
    assert [] + path == path;
    assert PushAll([], parts) == PushAll([], path);
  }

  // ---- Reading a path name by name ----

  lemma {:induction false} SplitConcat(a: string, b: string)
    ensures Split(a + "/" + b) == Split(a) + Split(b)
    decreases |a|
  {
    if a == "" {
      assert a + "/" + b == "/" + b && ("/" + b)[1..] == b;
    } else {
      assert (a + "/" + b)[1..] == a[1..] + "/" + b;
      SplitConcat(a[1..], b);
    }
  }

  lemma {:induction false} PushAllConcat(stack: Path, a: seq<string>, b: seq<string>)
    ensures PushAll(stack, a + b) == PushAll(PushAll(stack, a), b)
    decreases |a|
  {
    if a == [] {
      assert a + b == b;
    } else {
      assert (a + b)[1..] == a[1..] + b;
      PushAllConcat(Push(stack, a[0]), a[1..], b);
    }
  }

  lemma {:induction false} CleanAppend(path: string, part: string)
    requires '\0' !in path && '\0' !in part && '/' !in part
    ensures Clean(path + "/" + part) == Some(Push(Clean(path).value, part))
  {
    hide Push;
    SplitConcat(path, part);
    SplitNoSlash(part);
    PushAllConcat([], Split(path), [part]);
    assert [part][1..] == [];
  }

  /**
   A path means what its names say, one after the other: ".." goes up one level and stays at the root, an empty name
   or "." changes nothing, and any other name goes down to it. With the empty path these are all paths without a NUL.
   */
  lemma {:induction false} CleanNameByName(path: string, name: Name)
    requires '\0' !in path
    ensures Clean("") == Some([])
    ensures var up := Clean(path + "/..");
      up == Some(if Clean(path).value == [] then [] else Clean(path).value[..|Clean(path).value| - 1])
    ensures Clean(path + "/") == Clean(path + "/.") == Clean(path)
    ensures Plain(name) ==> Clean(path + "/" + name) == Some(Clean(path).value + [name])
    ensures Plain(name) ==> Clean(name) == Some([name])
  {
    CleanAppend(path, "..");
    CleanAppend(path, "");
    CleanAppend(path, ".");
    assert path + "/" + "" == path + "/";
    assert path + "/" + ".." == path + "/.." && path + "/" + "." == path + "/.";
    NamesAlone(name);
    if Plain(name) {
      CleanAppend(path, name);
    }
  }

  lemma {:induction false} NamesAlone(name: Name)
    ensures Clean("") == Some([]) && (Plain(name) ==> Clean(name) == Some([name]))
  {
    if Plain(name) {
      SplitNoSlash(name);
      assert [name][1..] == [] && PushAll([], [name]) == PushAll([name], []);
    }
    assert Split("") == [""] && [""][1..] == [] && PushAll([], [""]) == PushAll([], []);
  }

  lemma {:induction false} NoNul(path: Path)
    requires forall n :: n in path ==> Plain(n)
    ensures '\0' !in Join(path)
    decreases |path|
  {
    if path == [] {
    } else {
      assert Plain(path[0]) by { assert path[0] in path; }
      NoNul(path[1..]);
    }
  }
}
