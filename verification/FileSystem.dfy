/**
 The shared directory behind a directory capability. Lookups walk from its root, follow symbolic links
 inside it and fail rather than leave it.
 */
module FileSystem {
  import opened Common
  import opened Paths

  /** Nodes that existed when the session began are Old, nodes it created are New. */
  datatype Ino = Old(id: nat) | New(id: nat)

  datatype Meta = Meta(permissions: nat, owner: nat, accessed: nat, modified: nat)

  datatype Node =
    | File(content: Bytes, meta: Meta)
    | Dir(entries: map<Name, Ino>, meta: Meta)
    | Link(target: string, meta: Meta)

  type Tree = map<Ino, Node>

  datatype IoError = NotFound | PermissionDenied | AlreadyExists | Unsupported | Other

  datatype Io<T> = Done(value: T) | Failed(error: IoError)

  const ROOT: Ino := Old(0)
  const MAX_LINKS: nat := 40

  function Top(stack: seq<Ino>): Ino
    requires stack != []
  {
    stack[|stack| - 1]
  }

  predicate IsDir(fs: Tree, ino: Ino) {
    ino in fs && fs[ino].Dir?
  }

  predicate Follows(fs: Tree, ino: Ino, last: bool, follow: bool) {
    ino in fs && fs[ino].Link? && (follow || !last)
  }

  /** Walks `parts` down from the top of the stack of open directories. */
  function Resolve(fs: Tree, stack: seq<Ino>, parts: seq<string>, follow: bool, budget: nat): (r: Io<seq<Ino>>)
    requires stack != []
    ensures r.Done? ==> r.value != []
    decreases budget, |parts|
  {
    if parts == [] then Done(stack)
    else if !IsDir(fs, Top(stack)) then Failed(Other)
    else if parts[0] == "" || parts[0] == "." then Resolve(fs, stack, parts[1..], follow, budget)
    else if parts[0] == ".." then
      if |stack| == 1 then Failed(PermissionDenied)
      else Resolve(fs, stack[..|stack| - 1], parts[1..], follow, budget)
    else
      var entries := fs[Top(stack)].entries;
      if parts[0] !in entries || entries[parts[0]] !in fs then Failed(NotFound)
      else
        var ino := entries[parts[0]];
        if Follows(fs, ino, |parts| == 1, follow) then
          var target := fs[ino].target;
          if target == "" then Failed(NotFound)
          else if target[0] == '/' then Failed(PermissionDenied)
          else if budget == 0 then Failed(Other)
          else Resolve(fs, stack, Split(target) + parts[1..], follow, budget - 1)
        else Resolve(fs, stack + [ino], parts[1..], follow, budget)
  }

  function Lookup(fs: Tree, path: Path, follow: bool): (r: Io<Ino>)
  {
    match Resolve(fs, [ROOT], path, follow, MAX_LINKS)
    case Done(stack) => Done(Top(stack))
    case Failed(e) => Failed(e)
  }

  /** Creating a name exclusively: an existing entry of any kind, even a dangling link, is an error. */
  function Create(fs: Tree, path: Path, ino: Ino, node: Node): Io<Tree> {
    if path == [] then Failed(AlreadyExists)
    else
      match Resolve(fs, [ROOT], path[..|path| - 1], true, MAX_LINKS)
      case Failed(e) => Failed(e)
      case Done(stack) =>
        var name := path[|path| - 1];
        if !IsDir(fs, Top(stack)) then Failed(Other)
        else if name in fs[Top(stack)].entries then Failed(AlreadyExists)
        else Done(WithEntry(fs, Top(stack), name, ino, node))
  }

  function WithEntry(fs: Tree, dir: Ino, name: Name, ino: Ino, node: Node): Tree
    requires IsDir(fs, dir)
  {
    fs[dir := Dir(fs[dir].entries[name := ino], fs[dir].meta)][ino := node]
  }

  function Zeros(n: nat): (r: Bytes)
    ensures |r| == n
  {
    if n == 0 then [] else [0] + Zeros(n - 1)
  }

  function Resize(content: Bytes, n: nat): (r: Bytes)
    ensures |r| == n
  {
    if n <= |content| then content[..n] else content + Zeros(n - |content|)
  }

  function Overwrite(content: Bytes, offset: nat, data: Bytes): Bytes {
    if data == [] then content
    else
      Resize(content, offset) + data + (if offset + |data| < |content| then content[offset + |data|..] else [])
  }

  // ---- What a session in a write-only mode may do to a tree ----

  predicate EntriesKept(a: map<Name, Ino>, b: map<Name, Ino>) {
    && (forall n :: n in a ==> n in b && b[n] == a[n])
    && (forall n :: n in b && n !in a ==> b[n].New?)
  }

  predicate SameKind(a: Node, b: Node) {
    match a
    case File(_, _) => b.File?
    case Dir(entries, _) => b.Dir? && EntriesKept(entries, b.entries)
    case Link(_, _) => a == b
  }

  /** A file or link as it was; a directory with its attributes and at most new entries for new nodes. */
  predicate NodeKept(a: Node, b: Node) {
    if a.Dir? then b.Dir? && a.meta == b.meta && EntriesKept(a.entries, b.entries) else a == b
  }

  predicate Evolves(fs: Tree, fs': Tree) {
    forall i :: i in fs ==> i in fs' && SameKind(fs[i], fs'[i]) && (i.Old? ==> NodeKept(fs[i], fs'[i]))
  }

  lemma {:induction false} EvolvesTransitive(a: Tree, b: Tree, c: Tree)
    requires Evolves(a, b) && Evolves(b, c)
    ensures Evolves(a, c)
  {
    forall i | i in a
      ensures i in c && SameKind(a[i], c[i]) && (i.Old? ==> NodeKept(a[i], c[i]))
    {
      assert i in b && SameKind(a[i], b[i]) && SameKind(b[i], c[i]);
    }
  }

  /** A path that resolved keeps its meaning. */
  lemma {:induction false} ResolveStable(fs: Tree, fs': Tree, stack: seq<Ino>, parts: seq<string>,
                                         follow: bool, budget: nat)
    requires stack != [] && Evolves(fs, fs')
    requires Resolve(fs, stack, parts, follow, budget).Done?
    ensures Resolve(fs', stack, parts, follow, budget) == Resolve(fs, stack, parts, follow, budget)
    decreases budget, |parts|
  {
    if parts == [] {
    } else {
      var top := Top(stack);
      assert SameKind(fs[top], fs'[top]);
      if parts[0] == "" || parts[0] == "." {
        ResolveStable(fs, fs', stack, parts[1..], follow, budget);
      } else if parts[0] == ".." {
        ResolveStable(fs, fs', stack[..|stack| - 1], parts[1..], follow, budget);
      } else {
        var ino := fs[top].entries[parts[0]];
        assert SameKind(fs[ino], fs'[ino]);
        if Follows(fs, ino, |parts| == 1, follow) {
          ResolveStable(fs, fs', stack, Split(fs[ino].target) + parts[1..], follow, budget - 1);
        } else {
          ResolveStable(fs, fs', stack + [ino], parts[1..], follow, budget);
        }
      }
    }
  }

  lemma {:induction false} LookupStable(fs: Tree, fs': Tree, path: Path, follow: bool)
    requires Evolves(fs, fs') && Lookup(fs, path, follow).Done?
    ensures Lookup(fs', path, follow) == Lookup(fs, path, follow)
  {
    ResolveStable(fs, fs', [ROOT], path, follow, MAX_LINKS);
  }

  /** One more name below a resolved directory is found by the longer path. */
  lemma {:induction false} ResolveThen(fs: Tree, stack: seq<Ino>, parts: seq<string>, name: Name,
                                       follow: bool, budget: nat)
    requires stack != [] && Plain(name)
    requires Resolve(fs, stack, parts, true, budget).Done?
    requires IsDir(fs, Top(Resolve(fs, stack, parts, true, budget).value))
    requires var entries := fs[Top(Resolve(fs, stack, parts, true, budget).value)].entries;
             name in entries && entries[name] in fs && !fs[entries[name]].Link?
    ensures var dir := Resolve(fs, stack, parts, true, budget).value;
            Resolve(fs, stack, parts + [name], follow, budget) == Done(dir + [fs[Top(dir)].entries[name]])
    decreases budget, |parts|
  {
    var all := parts + [name];
    if parts == [] {
      assert all == [name] && all[1..] == [];
    } else {
      assert all[0] == parts[0] && all[1..] == parts[1..] + [name];
      if parts[0] == "" || parts[0] == "." {
        ResolveThen(fs, stack, parts[1..], name, follow, budget);
      } else if parts[0] == ".." {
        ResolveThen(fs, stack[..|stack| - 1], parts[1..], name, follow, budget);
      } else {
        var ino := fs[Top(stack)].entries[parts[0]];
        if Follows(fs, ino, |parts| == 1, true) {
          var target := Split(fs[ino].target);
          assert target + all[1..] == (target + parts[1..]) + [name];
          ResolveThen(fs, stack, target + parts[1..], name, follow, budget - 1);
        } else {
          ResolveThen(fs, stack + [ino], parts[1..], name, follow, budget);
        }
      }
    }
  }

  /** Creation only adds: nothing that was there changes, and the path now names the created node. */
  lemma {:induction false} CreateAdds(fs: Tree, path: Path, ino: Ino, node: Node, follow: bool)
    requires ino.New? && ino !in fs && !node.Link?
    requires forall n :: n in path ==> Plain(n)
    requires Create(fs, path, ino, node).Done?
    ensures Evolves(fs, Create(fs, path, ino, node).value)
    ensures Create(fs, path, ino, node).value.Keys == fs.Keys + {ino}
    ensures Create(fs, path, ino, node).value[ino] == node
    ensures Lookup(Create(fs, path, ino, node).value, path, follow) == Done(ino)
  {
    var fs' := Create(fs, path, ino, node).value;
    var parent, name := path[..|path| - 1], path[|path| - 1];
    var dir := Resolve(fs, [ROOT], parent, true, MAX_LINKS).value;
    assert Evolves(fs, fs') by { WithEntryEvolves(fs, Top(dir), name, ino, node); }
    ResolveStable(fs, fs', [ROOT], parent, true, MAX_LINKS);
    assert name in path;
    ResolveThen(fs', [ROOT], parent, name, follow, MAX_LINKS);
    assert parent + [name] == path;
  }

  lemma {:induction false} WithEntryEvolves(fs: Tree, dir: Ino, name: Name, ino: Ino, node: Node)
    requires IsDir(fs, dir) && name !in fs[dir].entries && ino.New? && ino !in fs
    ensures Evolves(fs, WithEntry(fs, dir, name, ino, node))
  {
    var fs' := WithEntry(fs, dir, name, ino, node);
    forall i | i in fs
      ensures i in fs' && SameKind(fs[i], fs'[i]) && (i.Old? ==> NodeKept(fs[i], fs'[i]))
    {
      if i != dir {
        assert fs'[i] == fs[i];
      }
    }
  }

  /** Changing a created node in place leaves every old one alone. */
  lemma {:induction false} UpdateEvolves(fs: Tree, ino: Ino, node: Node)
    requires ino in fs && ino.New? && SameKind(fs[ino], node)
    ensures Evolves(fs, fs[ino := node])
  {
  }
}
