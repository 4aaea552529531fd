/** What a lookup finds, which requests are denied, and what each of the others answers and does. */
module FilesAnswers {
  import opened Common
  import opened Paths
  import opened FileSystem
  import opened FilesPolicy
  import opened FilesSafety

  /** A root directory with a link to a file beside it. */
  predicate LinkToFile(fs: Tree, link: Name, name: Name) {
    && Plain(link) && Plain(name) && link != name && IsDir(fs, ROOT)
    && link in fs[ROOT].entries && name in fs[ROOT].entries
    && fs[ROOT].entries[link] in fs && fs[ROOT].entries[name] in fs
    && fs[fs[ROOT].entries[link]].Link? && fs[fs[ROOT].entries[link]].target == name
    && fs[fs[ROOT].entries[name]].File?
  }

  /** A lookup that follows links reaches the file; one that does not stays at the link. */
  lemma {:induction false} LookupFollows(fs: Tree, link: Name, name: Name)
    requires LinkToFile(fs, link, name)
    ensures Lookup(fs, [link], true) == Done(fs[ROOT].entries[name])
    ensures Lookup(fs, [link], false) == Done(fs[ROOT].entries[link])
  {
    var l, f := fs[ROOT].entries[link], fs[ROOT].entries[name];
    SplitNoSlash(name);
    assert [link][1..] == [] && [name][1..] == [] && [name] + [] == [name];
    assert Resolve(fs, [ROOT, l], [], false, MAX_LINKS) == Done([ROOT, l]);
    assert [ROOT] + [l] == [ROOT, l] && [ROOT] + [f] == [ROOT, f];
    assert Resolve(fs, [ROOT, f], [], true, MAX_LINKS - 1) == Done([ROOT, f]);
    assert Resolve(fs, [ROOT], [name], true, MAX_LINKS - 1) == Done([ROOT, f]);
  }

  /** So outside the write-only modes Stat tells of the file and Lstat of the link. */
  lemma {:induction false} StatFollowsLstatDoesNot(s: Session, link: Name, name: Name, w: World)
    requires LinkToFile(s.fs, link, name) && !s.mode.DropBox() && w.Fault(0).None?
    ensures var l, f := s.fs[s.fs[ROOT].entries[link]], s.fs[s.fs[ROOT].entries[name]];
      && Serve(s, Stat(link), w) == Outcome(s, Attrs(Attributes(Regular, |f.content|, f.meta)))
      && Serve(s, Lstat(link), w) == Outcome(s, Attrs(Attributes(Symbolic, |name|, l.meta)))
      && Serve(s, ReadLink(link), w) == Outcome(s, OneName(name))
  {
    hide Lookup, Plain;
    LookupFollows(s.fs, link, name);
    assert Plain(link);
    NamesAlone(link);
  }

  // ---- What a lookup finds ----

  predicate NoLinks(fs: Tree) {
    forall i :: i in fs ==> !fs[i].Link?
  }

  /** Where the names lead, one entry after the other. */
  function Walk(fs: Tree, from: Ino, path: Path): Option<Ino>
    decreases |path|
  {
    if path == [] then Some(from)
    else if !IsDir(fs, from) || path[0] !in fs[from].entries || fs[from].entries[path[0]] !in fs then None
    else Walk(fs, fs[from].entries[path[0]], path[1..])
  }

  /** Without links a path finds exactly what its names lead to, and is refused as missing, never as forbidden. */
  lemma {:induction false} ResolveIsWalk(fs: Tree, stack: seq<Ino>, path: Path, follow: bool, budget: nat)
    requires NoLinks(fs) && stack != [] && forall n :: n in path ==> Plain(n)
    ensures var r := Resolve(fs, stack, path, follow, budget); var found := Walk(fs, Top(stack), path);
      && (found.Some? ==> r.Done? && Top(r.value) == found.value)
      && (found.None? ==> r == Failed(NotFound) || r == Failed(Other))
    decreases |path|
  {
    hide Plain;
    if path == [] {
    } else {
      assert path[0] in path;
      PlainStands(path[0]);
      if IsDir(fs, Top(stack)) && path[0] in fs[Top(stack)].entries && fs[Top(stack)].entries[path[0]] in fs {
        ResolveIsWalk(fs, stack + [fs[Top(stack)].entries[path[0]]], path[1..], follow, budget);
      }
    }
  }

  lemma {:induction false} PlainStands(n: Name)
    requires Plain(n)
    ensures n != "" && n != "." && n != ".."
  {
  }

  /** Every way a lookup goes, links and ".." in them included, stays below the directory shared. */
  lemma {:induction false} ResolveStaysInside(fs: Tree, stack: seq<Ino>, parts: seq<string>, follow: bool, budget: nat)
    requires stack != [] && Below(fs, stack)
    ensures Resolve(fs, stack, parts, follow, budget).Done? ==>
      Resolve(fs, stack, parts, follow, budget).value[0] == stack[0]
      && Below(fs, Resolve(fs, stack, parts, follow, budget).value)
    decreases budget, |parts|
  {
    if parts == [] || !IsDir(fs, Top(stack)) {
    } else if parts[0] == "" || parts[0] == "." {
      ResolveStaysInside(fs, stack, parts[1..], follow, budget);
    } else if parts[0] == ".." {
      if |stack| > 1 {
        ResolveStaysInside(fs, stack[..|stack| - 1], parts[1..], follow, budget);
      }
    } else if parts[0] in fs[Top(stack)].entries && fs[Top(stack)].entries[parts[0]] in fs {
      var ino := fs[Top(stack)].entries[parts[0]];
      if Follows(fs, ino, |parts| == 1, follow) {
        var target := fs[ino].target;
        if target != "" && target[0] != '/' && budget > 0 {
          ResolveStaysInside(fs, stack, Split(target) + parts[1..], follow, budget - 1);
        }
      } else {
        ResolveStaysInside(fs, stack + [ino], parts[1..], follow, budget);
      }
    }
  }

  /** Each node is an entry of the directory before it. */
  predicate Below(fs: Tree, stack: seq<Ino>) {
    forall i :: 0 <= i < |stack| - 1 ==> IsDir(fs, stack[i]) && stack[i + 1] in fs[stack[i]].entries.Values
  }

  /** ".." in a link's target goes up one directory, but not out of the shared one. */
  lemma {:induction false} UpGoesUp(fs: Tree, stack: seq<Ino>, rest: seq<string>, follow: bool, budget: nat)
    requires stack != [] && IsDir(fs, Top(stack))
    ensures Resolve(fs, stack, [".."] + rest, follow, budget)
         == if |stack| == 1 then Failed(PermissionDenied) else Resolve(fs, stack[..|stack| - 1], rest, follow, budget)
  {
    assert ([".."] + rest)[1..] == rest;
  }

  /** A link in the middle of a path is replaced by its target; an absolute one leads nowhere, and so do 41 of them. */
  lemma {:induction false} LinkIsReplaced(fs: Tree, stack: seq<Ino>, link: Name, rest: seq<string>, follow: bool,
                                          budget: nat)
    requires stack != [] && IsDir(fs, Top(stack)) && Plain(link) && link in fs[Top(stack)].entries
    requires var ino := fs[Top(stack)].entries[link]; ino in fs && fs[ino].Link? && fs[ino].target != ""
    requires follow || rest != []
    ensures var target := fs[fs[Top(stack)].entries[link]].target;
      Resolve(fs, stack, [link] + rest, follow, budget)
      == if target[0] == '/' then Failed(PermissionDenied)
         else if budget == 0 then Failed(Other)
         else Resolve(fs, stack, Split(target) + rest, follow, budget - 1)
  {
    assert ([link] + rest)[1..] == rest;
  }

  /** A link to itself is followed forty times and then fails. */
  lemma {:induction false} LoopFails(fs: Tree, link: Name)
    requires IsDir(fs, ROOT) && Plain(link) && link in fs[ROOT].entries
    requires var ino := fs[ROOT].entries[link]; ino in fs && fs[ino].Link? && fs[ino].target == link
    ensures Lookup(fs, [link], true) == Failed(Other)
  {
    LoopRunsOut(fs, link, MAX_LINKS);
  }

  lemma {:induction false} LoopRunsOut(fs: Tree, link: Name, budget: nat)
    requires IsDir(fs, ROOT) && Plain(link) && link in fs[ROOT].entries
    requires var ino := fs[ROOT].entries[link]; ino in fs && fs[ino].Link? && fs[ino].target == link
    ensures Resolve(fs, [ROOT], [link], true, budget) == Failed(Other)
  {
    LinkIsReplaced(fs, [ROOT], link, [], true, budget);
    SplitNoSlash(link);
    assert [link] + [] == [link];
    if budget > 0 {
      LoopRunsOut(fs, link, budget - 1);
    }
  }

  // ---- Which requests are denied ----

  /** What a mode forbids whatever the directory holds. */
  predicate Barred(s: Session, r: Request) {
    match r
    case Open(name, f) =>
      (match s.mode
       case ReadOnly => f.write || f.append || f.create || f.truncate || f.exclude
       case ReadWrite => false
       case WriteOnly => f.read || !f.write || !f.create || (Clean(name).Some? && |Clean(name).value| != 1)
       case WriteOnlyPlus => f.read || !f.write || !f.create)
    case Read(h, _, _) => s.mode.WriteOnly? || s.mode.WriteOnlyPlus? || !s.IsFile(h) || !s.handles[h].readable
    case Write(h, _, _) => !s.IsFile(h) || !s.handles[h].writable
    case SetStat(path, _) =>
      (match s.mode
       case ReadOnly => true
       case ReadWrite => false
       case _ => Clean(path).Some? && Clean(path).value !in s.wrote)
    case FSetStat(h, _) =>
      (match s.mode
       case ReadOnly => true
       case ReadWrite => false
       case _ => s.IsFile(h) && !s.handles[h].writable)
    case OpenDir(_) => s.mode.WriteOnly? || s.mode.WriteOnlyPlus?
    case ReadLink(_) => s.mode.WriteOnly? || s.mode.WriteOnlyPlus?
    case MkDir(_) => s.mode.ReadOnly? || s.mode.WriteOnly?
    case Remove(_) => !s.mode.ReadWrite?
    case RmDir(_) => !s.mode.ReadWrite?
    case Rename(_, _) => !s.mode.ReadWrite?
    case Symlink(_, _) => !s.mode.ReadWrite?
    case PosixRename(a, b) => !s.mode.ReadWrite? && a.Some? && b.Some?
    case HardLink(a, _) => !s.mode.ReadWrite? && a.Some?
    case _ => false
  }

  /** No path in the request has a NUL in it. */
  predicate Readable(r: Request) {
    match r
    case Open(name, _) => Clean(name).Some?
    case Stat(path) => Clean(path).Some?
    case Lstat(path) => Clean(path).Some?
    case SetStat(path, _) => Clean(path).Some?
    case OpenDir(path) => Clean(path).Some?
    case RealPath(path) => Clean(path).Some?
    case MkDir(path) => Clean(path).Some?
    case ReadLink(path) => Clean(path).Some?
    case _ => true
  }

  /** No system call fails, and the host denies nothing. */
  predicate Calm(w: World) {
    w.faults == [] && w.hostStatus != Denied && w.hostFile != Failed(PermissionDenied)
  }

  /** A request that its mode forbids is denied and changes nothing. */
  lemma {:induction false} BarredIsDenied(s: Session, r: Request, w: World)
    requires Barred(s, r) && Readable(r)
    ensures Serve(s, r, w) == Outcome(s, Answer(Denied))
  {
    hide Clean;
  }

  /** In a directory without links nothing else is denied. */
  lemma {:induction false} DeniedIsBarred(s: Session, r: Request, w: World)
    requires NoLinks(s.fs) && Calm(w) && Readable(r) && !Barred(s, r)
    requires forall p :: p in s.wrote ==> forall n :: n in s.wrote[p] ==> Plain(n)
    ensures Serve(s, r, w).reply != Answer(Denied)
  {
    hide Clean, Lookup, Plain, Listed, Join, OpenStep, Statted, SetStatPath, MkDirStep;
    match r
    case Open(name, flags) => OpensUndenied(s, name, flags, w);
    case Stat(path) => StatsUndenied(s, path, true, w);
    case Lstat(path) => StatsUndenied(s, path, false, w);
    case SetStat(path, attrs) => SetsUndenied(s, path, attrs, w);
    case OpenDir(path) => PathUndenied(s.fs, path, true);
    case MkDir(path) => MakesUndenied(s, path, w);
    case ReadLink(path) => PathUndenied(s.fs, path, false);
    case _ => OthersUndenied(s, r, w);
  }

  /** The requests that name no path the session looks up. */
  predicate Pathless(r: Request) {
    !(r.Open? || r.Stat? || r.Lstat? || r.SetStat? || r.OpenDir? || r.MkDir? || r.ReadLink?)
  }

  lemma {:induction false} OthersUndenied(s: Session, r: Request, w: World)
    requires Calm(w) && Pathless(r) && Readable(r) && !Barred(s, r)
    ensures Serve(s, r, w).reply != Answer(Denied)
  {
    hide Clean, Join, SetNode;
    if r.FSetStat? && s.IsFile(r.handle) && s.handles[r.handle].ino in s.fs {
      NodeUndenied(s.fs[s.handles[r.handle].ino], r.attrs, s.handles[r.handle].writable, w);
    }
  }

  lemma {:induction false} LookupUndenied(fs: Tree, path: Path, follow: bool)
    requires NoLinks(fs) && forall n :: n in path ==> Plain(n)
    ensures Lookup(fs, path, follow) != Failed(PermissionDenied) && Lookup(fs, path, follow) != Failed(Unsupported)
  {
    hide Plain, Resolve;
    ResolveIsWalk(fs, [ROOT], path, follow, MAX_LINKS);
  }

  lemma {:induction false} PathUndenied(fs: Tree, path: string, follow: bool)
    requires NoLinks(fs) && Clean(path).Some?
    ensures Lookup(fs, Clean(path).value, follow) != Failed(PermissionDenied)
  {
    hide Plain, Lookup;
    CleanIsPlain(path);
    LookupUndenied(fs, Clean(path).value, follow);
  }

  lemma {:induction false} StatsUndenied(s: Session, path: string, follow: bool, w: World)
    requires NoLinks(s.fs) && Calm(w) && Clean(path).Some?
    requires forall p :: p in s.wrote ==> forall n :: n in s.wrote[p] ==> Plain(n)
    ensures Statted(s, path, follow, w) != Answer(Denied)
  {
    hide Plain, Lookup, Clean;
    PathUndenied(s.fs, path, follow);
    var p := Clean(path).value;
    if p in s.wrote {
      LookupUndenied(s.fs, s.wrote[p], follow);
    }
  }

  lemma {:induction false} NodeUndenied(n: Node, attrs: AttrSet, sizable: bool, w: World)
    requires Calm(w)
    ensures SetNode(n, attrs, sizable, w).1 != Denied
  {
  }

  lemma {:induction false} SetsUndenied(s: Session, path: string, attrs: AttrSet, w: World)
    requires NoLinks(s.fs) && Calm(w) && Clean(path).Some? && !Barred(s, SetStat(path, attrs))
    requires forall p :: p in s.wrote ==> forall n :: n in s.wrote[p] ==> Plain(n)
    ensures SetStatPath(s, Clean(path).value, attrs, w).reply != Answer(Denied)
  {
    hide Plain, Lookup, Clean, SetNode;
    var p := Clean(path).value;
    var target := if s.mode.DropBox() then s.wrote[p] else p;
    PathUndenied(s.fs, path, true);
    if s.mode.DropBox() {
      LookupUndenied(s.fs, target, true);
    }
    match Lookup(s.fs, target, true)
    case Failed(_) =>
    case Done(ino) =>
      if ino in s.fs {
        NodeUndenied(s.fs[ino], attrs, true, w);
      }
  }

  lemma {:induction false} CreatesUndenied(s: Session, path: Path, node: Node, w: World, call: nat)
    requires NoLinks(s.fs) && Calm(w) && forall n :: n in path ==> Plain(n)
    ensures TryCreate(s, path, node, w, call) != Failed(PermissionDenied)
  {
    hide Plain, Resolve;
    if path != [] {
      ResolveIsWalk(s.fs, [ROOT], path[..|path| - 1], true, MAX_LINKS);
    }
  }

  lemma {:induction false} MakesUndenied(s: Session, path: string, w: World)
    requires NoLinks(s.fs) && Calm(w) && Clean(path).Some? && !Barred(s, MkDir(path))
    ensures MkDirStep(s, path, w).reply != Answer(Denied)
  {
    hide Plain, Clean, TryCreate;
    CleanIsPlain(path);
    CreatesUndenied(s, Clean(path).value, Dir(map[], w.newMeta), w, 0);
  }

  lemma {:induction false} OpensUndenied(s: Session, name: string, flags: Flags, w: World)
    requires NoLinks(s.fs) && Calm(w) && Clean(name).Some? && !Barred(s, Open(name, flags))
    ensures OpenStep(s, name, flags, w).reply != Answer(Denied)
  {
    hide Plain, Clean, TryCreate, Lookup, Unique;
    var path := Clean(name).value;
    CleanIsPlain(name);
    PathUndenied(s.fs, name, true);
    UniqueIsPlain(path, w.stamp);
    CreatesUndenied(s, path, File([], w.newMeta), w, 0);
    CreatesUndenied(s, Unique(path, w.stamp), File([], w.newMeta), w, 0);
    CreatesUndenied(s, Unique(path, w.stamp), File([], w.newMeta), w, 1);
  }

  // ---- What the plain requests do ----

  /** The first Init is answered once, and nothing else before it. */
  lemma {:induction false} InitComesFirst(s: Session, r: Request, w: World)
    ensures r.Init? && !s.initialized ==> Step(s, r, w) == Outcome(s.(initialized := true), Version)
    ensures r.Init? == s.initialized ==> r.Init? ==> Step(s, r, w) == Outcome(s, Answer(BadMessage))
    ensures !r.Init? && !s.initialized ==> Step(s, r, w) == Outcome(s, Answer(BadMessage))
    ensures !r.Init? && s.initialized ==> Step(s, r, w) == Serve(s, r, w)
  {
    hide Serve;
  }

  /** A new session has seen no Init, holds nothing and gives its first handle the number 1. */
  lemma {:induction false} FreshSession(mode: Mode, fs: Tree, r: Request, w: World)
    ensures !r.Init? ==> Step(Start(mode, fs), r, w) == Outcome(Start(mode, fs), Answer(BadMessage))
    ensures var s := Start(mode, fs);
      s.handles == map[] && s.wrote == map[] && s.nextHandle == 0 && s.fs == fs && s.mode == mode
  {
    hide Serve;
  }

  /** The status a failed system call is reported with. */
  predicate Reports(e: IoError, status: Status) {
    && (e == NotFound <==> status == NoSuchFile) && (e == PermissionDenied <==> status == Denied)
    && (e == Unsupported <==> status == OpUnsupported) && (e == AlreadyExists || e == Other <==> status == Failure)
  }

  /** A request whose first system call fails is answered with that failure and changes nothing. */
  lemma {:induction false} FailureIsReported(s: Session, r: Request, w: World, e: IoError)
    requires w.faults != [] && w.faults[0] == Some(e) && Readable(r) && !Barred(s, r)
    requires match r
      case Open(_, f) => (s.mode.ReadOnly? || s.mode.ReadWrite?) && f == Flags(true, false, false, false, false, false)
      case Stat(_) => s.mode.ReadOnly? || s.mode.ReadWrite?
      case Lstat(_) => s.mode.ReadOnly? || s.mode.ReadWrite?
      case Read(_, _, _) => true
      case OpenDir(_) => true
      case ReadLink(_) => true
      case MkDir(_) => true
      case Fstat(h) => s.IsFile(h)
      case Fsync(h) => h.Some? && s.IsFile(h.value)
      case _ => false
    ensures Serve(s, r, w).session == s && Serve(s, r, w).reply.Answer? && Reports(e, Serve(s, r, w).reply.status)
  {
    hide Clean, Lookup, Create;
  }

  /** With no failing call what is asked for is set and nothing else, but a size only of a file that can be written. */
  lemma {:induction false} SetsWhatIsAsked(n: Node, attrs: AttrSet, sizable: bool, w: World)
    requires w.faults == []
    ensures var (n', status) := SetNode(n, attrs, sizable, w);
      var sized := attrs.size.Some? && n.File? && sizable;
      && status == (if attrs.size.None? || sized then Good else Failure)
      && n'.meta.permissions == (if attrs.permissions.Some? then attrs.permissions.value % 512 else n.meta.permissions)
      && n'.meta.accessed == (if attrs.accessed.Some? then attrs.accessed.value else n.meta.accessed)
      && n'.meta.modified == (if sized then w.now else if attrs.modified.Some? then attrs.modified.value
                              else n.meta.modified)
      && n'.meta.owner == n.meta.owner && (n'.File? <==> n.File?) && (n'.Dir? <==> n.Dir?)
      && (n.File? ==> n'.content == if sized then Resize(n.content, attrs.size.value) else n.content)
      && (n.Dir? ==> n'.entries == n.entries) && (n.Link? ==> n'.target == n.target)
  {
    hide Resize;
  }

  /** The first failing call stops: permissions come before times and times before the size, and what was set stays. */
  lemma {:induction false} SettingStops(n: Node, attrs: AttrSet, sizable: bool, w: World, e: IoError)
    ensures var (n', status) := SetNode(n, attrs, sizable, w);
      var timed := attrs.accessed.Some? || attrs.modified.Some?;
      var first := SetNode(n, attrs.(accessed := None, modified := None, size := None), sizable, w);
      var second := SetNode(n, attrs.(size := None), sizable, w);
      && (attrs.permissions.Some? && w.Fault(0) == Some(e) ==> n' == n && Reports(e, status))
      && (first.1 == Good && timed && w.Fault(1) == Some(e) ==> n' == first.0 && Reports(e, status))
      && (second.1 == Good && attrs.size.Some? && w.Fault(2) == Some(e) ==> n' == second.0 && Reports(e, status))
  {
    hide Resize;
  }

  /** Where the path leads the attributes are set, and nothing else changes. */
  lemma {:induction false} SetStatIsDone(s: Session, path: string, attrs: AttrSet, w: World, ino: Ino)
    requires Clean(path).Some? && !Barred(s, SetStat(path, attrs)) && Asks(attrs) && ino in s.fs
    requires var p := Clean(path).value;
      Lookup(s.fs, if s.mode.DropBox() then s.wrote[p] else p, true) == Done(ino)
    ensures var (node, status) := SetNode(s.fs[ino], attrs, true, w);
      Serve(s, SetStat(path, attrs), w) == Outcome(s.(fs := s.fs[ino := node]), Answer(status))
  {
    hide Clean, Lookup, SetNode;
  }

  /** Through a handle too, the size if the handle can write. */
  lemma {:induction false} FSetStatIsDone(s: Session, handle: nat, attrs: AttrSet, w: World)
    requires !Barred(s, FSetStat(handle, attrs)) && s.IsFile(handle) && s.handles[handle].ino in s.fs
    ensures var h := s.handles[handle]; var (node, status) := SetNode(s.fs[h.ino], attrs, h.writable, w);
      Serve(s, FSetStat(handle, attrs), w) == Outcome(s.(fs := s.fs[h.ino := node]), Answer(status))
  {
    hide SetNode;
  }

  /** A path with a NUL in it is a bad message wherever its mode does not forbid the request first. */
  lemma {:induction false} NulIsBad(s: Session, r: Request, w: World)
    requires !Readable(r) && (r.Open? || r.OpenDir? || r.MkDir? || r.ReadLink? ==> !Barred(s, r))
    ensures Serve(s, r, w) == Outcome(s, Answer(BadMessage))
  {
    hide Clean;
  }

  /** A read answers with what the file holds there, up to 262144 octets, and all that was asked for if there is. */
  predicate Reads(content: Bytes, offset: nat, len: nat, reply: Reply) {
    if len == 0 || offset >= |content| then reply == Answer(Eof)
    else
      && reply.Octets? && 0 < |reply.data| <= len && |reply.data| <= 262144
      && offset + |reply.data| <= |content| && reply.data == content[offset..offset + |reply.data|]
      && (|reply.data| == len || |reply.data| == 262144 || offset + |reply.data| == |content|)
  }

  /** Opening to read changes nothing but the handles, and what is read through the handle is the file. */
  lemma {:induction false} OpenedIsRead(s: Session, name: string, w: World, offset: nat, len: nat, w': World)
    requires s.mode.ReadOnly? || s.mode.ReadWrite?
    requires w.Fault(0).None? && w'.Fault(0).None? && Clean(name).Some?
    requires var found := Lookup(s.fs, Clean(name).value, true);
      found.Done? && found.value in s.fs && s.fs[found.value].File?
    ensures var o := Serve(s, Open(name, Flags(true, false, false, false, false, false)), w);
      var content := s.fs[Lookup(s.fs, Clean(name).value, true).value].content;
      && o.reply == Handed(s.nextHandle + 1) && o.session.fs == s.fs && o.session.wrote == s.wrote
      && Reads(content, offset, len, Serve(o.session, Read(s.nextHandle + 1, offset, len), w').reply)
      && Serve(o.session, Read(s.nextHandle + 1, offset, len), w').session == o.session
  {
    hide Clean, Lookup;
  }

  /** A handle once closed is none: what it was for is refused, and the other handles are as they were. */
  lemma {:induction false} ClosedIsGone(s: Session, handle: nat, w: World, w': World)
    ensures var o := Serve(s, Close(handle), w);
      && o.reply == Answer(if handle in s.handles then Good else Failure)
      && (forall h :: h in o.session.handles <==> h in s.handles && h != handle)
      && (forall h :: h in o.session.handles ==> o.session.handles[h] == s.handles[h])
      && o.session == s.(handles := o.session.handles)
      && Serve(o.session, Close(handle), w').reply == Answer(Failure)
      && Serve(o.session, Fstat(handle), w').reply == Answer(Failure)
      && Serve(o.session, ReadDir(handle), w').reply == Answer(Failure)
      && Serve(o.session, Fsync(Some(handle)), w').reply == Answer(Failure)
  {
  }

  /** Through a handle the attributes are those of its node. */
  lemma {:induction false} FstatTells(s: Session, handle: nat, w: World)
    requires s.IsFile(handle) && s.handles[handle].ino in s.fs && w.Fault(0).None?
    ensures var node := s.fs[s.handles[handle].ino];
      Serve(s, Fstat(handle), w) == Outcome(s, Attrs(match node
        case File(content, meta) => Attributes(Regular, |content|, meta)
        case Dir(_, meta) => Attributes(Directory, 0, meta)
        case Link(target, meta) => Attributes(Symbolic, |target|, meta)))
    ensures Serve(s, Fsync(Some(handle)), w) == Outcome(s, Answer(Good))
  {
  }

  /** In the write-only modes a name not uploaded is not there, but for the root and, in wo+, directories. */
  lemma {:induction false} DropBoxHidesNames(s: Session, path: string, follow: bool, w: World)
    requires s.mode.DropBox() && Clean(path).Some? && Clean(path).value !in s.wrote && w.Fault(0).None?
    ensures var p := Clean(path).value; var found := Lookup(s.fs, p, follow);
      Statted(s, path, follow, w)
      == if (s.mode.WriteOnlyPlus? || p == []) && found.Done? && IsDir(s.fs, found.value)
         then Attrs(Attributes(Directory, 0, s.fs[found.value].meta)) else Answer(NoSuchFile)
  {
    hide Clean, Lookup;
  }

  /** A new directory is empty, is there under its name, and leaves everything else alone. */
  lemma {:induction false} MadeIsThere(s: Session, path: string, w: World, w': World, follow: bool)
    requires (s.mode.ReadWrite? || s.mode.WriteOnlyPlus?) && Clean(path).Some? && New(s.created) !in s.fs
    requires w'.Fault(0).None?
    ensures var o := Serve(s, MkDir(path), w); o.reply == Answer(Good) ==>
      && Evolves(s.fs, o.session.fs) && o.session.handles == s.handles
      && o.session.fs.Keys == s.fs.Keys + {New(s.created)} && o.session.created == s.created + 1
      && o.session.fs[New(s.created)] == Dir(map[], w.newMeta)
      && Statted(o.session, path, follow, w') == Attrs(Attributes(Directory, 0, w.newMeta))
      && o.session.wrote == if s.mode.ReadWrite? then s.wrote else s.wrote[Clean(path).value := Clean(path).value]
  {
    hide Clean, Lookup, Create, Evolves, Plain;
    var p := Clean(path).value;
    var o := Serve(s, MkDir(path), w);
    if o.reply == Answer(Good) {
      CleanIsPlain(path);
      CreateAdds(s.fs, p, New(s.created), Dir(map[], w.newMeta), follow);
    }
  }

  /** Creating a name is refused exactly if something is there under it, whatever it is, or its directory is not. */
  lemma {:induction false} CreatesExclusively(fs: Tree, dir: Path, name: Name, ino: Ino, node: Node)
    ensures Create(fs, [], ino, node) == Failed(AlreadyExists)
    ensures var r := Create(fs, dir + [name], ino, node);
      match Resolve(fs, [ROOT], dir, true, 40)
      case Failed(e) => r == Failed(e)
      case Done(way) =>
        var d := way[|way| - 1];
        if d !in fs || !fs[d].Dir? then r == Failed(Other)
        else if name in fs[d].entries then r == Failed(AlreadyExists)
        else r == Done(fs[d := Dir(fs[d].entries[name := ino], fs[d].meta)][ino := node])
  {
    hide Resolve;
    var path := dir + [name];
    assert path[..|path| - 1] == dir && path[|path| - 1] == name;
  }

  /** A file is made there: the next handle writes it, and the name asked for is remembered with where it went. */
  predicate UploadedTo(s: Session, asked: Path, actual: Path, meta: Meta, o: Outcome) {
    match Create(s.fs, actual, New(s.created), File([], meta))
    case Failed(e) => o.session == s && o.reply.Answer? && Reports(e, o.reply.status)
    case Done(fs) =>
      && o.reply == Handed(s.nextHandle + 1)
      && o.session == s.(fs := fs, created := s.created + 1, wrote := s.wrote[asked := actual],
                         nextHandle := s.nextHandle + 1,
                         handles := s.handles[s.nextHandle + 1 := FileHandle(New(s.created), false, true)])
  }

  /** An upload goes to a unique name in wo, and in wo+ to the name asked for unless it is taken. */
  lemma {:induction false} UploadGoesTo(s: Session, name: string, flags: Flags, w: World)
    requires s.mode.DropBox() && Clean(name).Some? && !Barred(s, Open(name, flags)) && w.faults == []
    ensures var p := Clean(name).value;
      var taken := Create(s.fs, p, New(s.created), File([], w.newMeta)) == Failed(AlreadyExists);
      UploadedTo(s, p, if s.mode.WriteOnly? || taken then Unique(p, w.stamp) else p, w.newMeta,
                 Serve(s, Open(name, flags), w))
  {
    hide Clean, Create, Unique;
  }

  /** A failing system call is reported, but in wo+ a name found taken is tried again as a unique one. */
  lemma {:induction false} UploadFails(s: Session, name: string, flags: Flags, w: World, e: IoError)
    requires s.mode.DropBox() && Clean(name).Some? && !Barred(s, Open(name, flags))
    ensures var o := Serve(s, Open(name, flags), w); var p := Clean(name).value;
      && (w.faults != [] && w.faults[0] == Some(e) && (s.mode.WriteOnly? || e != AlreadyExists) ==>
            o.session == s && o.reply.Answer? && Reports(e, o.reply.status))
      && (w.faults == [Some(AlreadyExists)] && s.mode.WriteOnlyPlus? ==>
            UploadedTo(s, p, Unique(p, w.stamp), w.newMeta, o))
      && (w.faults == [Some(AlreadyExists), Some(e)] && s.mode.WriteOnlyPlus? ==>
            o.session == s && o.reply.Answer? && Reports(e, o.reply.status))
  {
    hide Clean, Create, Unique;
  }

  /** An open for nothing fails; one that may change the directory has the outcome the host gives it. */
  lemma {:induction false} OtherOpens(s: Session, name: string, flags: Flags, w: World)
    requires Clean(name).Some?
    ensures !s.mode.DropBox() && flags == Flags(false, false, false, false, false, false) ==>
      Serve(s, Open(name, flags), w) == Outcome(s, Answer(Failure))
    ensures s.mode.ReadWrite? && (flags.write || flags.append || flags.create || flags.truncate || flags.exclude) ==>
      var o := Serve(s, Open(name, flags), w);
      match w.hostFile
      case Failed(e) => o.session == s.(fs := w.host) && o.reply.Answer? && Reports(e, o.reply.status)
      case Done(ino) =>
        && o.reply == Handed(s.nextHandle + 1)
        && o.session == s.(fs := w.host, nextHandle := s.nextHandle + 1,
                           handles := s.handles[s.nextHandle + 1 := FileHandle(ino, flags.read, flags.write)])
  {
    hide Clean, Lookup;
  }

  /** What landed of a write is in the file and dates it; writing nothing leaves it as it is. */
  lemma {:induction false} WriteLands(s: Session, handle: nat, offset: nat, data: Bytes, w: World)
    requires !Barred(s, Write(handle, offset, data))
    requires var ino := s.handles[handle].ino; ino in s.fs && s.fs[ino].File?
    ensures var o := Serve(s, Write(handle, offset, data), w);
      var ino := s.handles[handle].ino; var file := s.fs[ino];
      var failed := w.faults != [] && w.faults[0].Some?;
      var landed := if failed && w.landed < |data| then data[..w.landed] else data;
      && o.reply.Answer? && (failed ==> Reports(w.faults[0].value, o.reply.status))
      && (!failed ==> o.reply.status == Good)
      && o.session == s.(fs := s.fs[ino := if landed == [] then file
                                           else File(Overwrite(file.content, offset, landed),
                                                     file.meta.(modified := w.now))])
  {
    hide Overwrite;
    assert data[..|data|] == data;
  }

  /** A directory that is there and whole is opened, unless the mode is write-only. */
  lemma {:induction false} DirectoryOpens(s: Session, path: string, w: World, ino: Ino)
    requires (s.mode.ReadOnly? || s.mode.ReadWrite?) && w.faults == [] && Clean(path).Some?
    requires Lookup(s.fs, Clean(path).value, true) == Done(ino) && IsDir(s.fs, ino)
    requires Lists(w.order, s.fs[ino].entries) && forall n :: n in w.order ==> s.fs[ino].entries[n] in s.fs
    ensures Serve(s, OpenDir(path), w).reply == Handed(s.nextHandle + 1)
  {
    hide Clean, Lookup, Listed;
  }

  /** The real path is a slash before each name of the path, and a slash alone for the root. */
  lemma {:induction false} RealPathSpells(s: Session, path: string, w: World, dir: Path, name: Name)
    requires Clean(path).Some?
    ensures Clean(path).value == [] ==> Serve(s, RealPath(path), w) == Outcome(s, OneName("/"))
    ensures Clean(path).value == dir + [name] ==>
      Serve(s, RealPath(path), w) == Outcome(s, OneName(Join(dir) + "/" + name))
    ensures Join([]) == ""
  {
    hide Clean;
    JoinsAtEnd(dir, name);
  }

  lemma {:induction false} JoinsAtEnd(dir: Path, name: Name)
    ensures Join(dir + [name]) == Join(dir) + "/" + name
    decreases |dir|
  {
    var all := dir + [name];
    if dir == [] {
      assert all[1..] == [] && name + "" == name;
    } else {
      assert all[1..] == dir[1..] + [name];
      JoinsAtEnd(dir[1..], name);
    }
  }

  /** What the server does not know it refuses in every mode. */
  lemma {:induction false} UnknownIsUnsupported(s: Session, w: World)
    ensures Serve(s, OtherRequest, w) == Outcome(s, Answer(OpUnsupported))
    ensures Serve(s, OtherExtension(true), w) == Outcome(s, Answer(OpUnsupported))
    ensures Serve(s, OtherExtension(false), w) == Outcome(s, Answer(BadMessage))
  {
  }

  /** In read-write mode the rest is the host's. */
  lemma {:induction false} HostDecides(s: Session, r: Request, w: World)
    requires s.mode.ReadWrite?
    ensures match r
      case Remove(p) => Clean(p).Some? ==> Serve(s, r, w) == Outcome(s.(fs := w.host), Answer(w.hostStatus))
      case RmDir(p) => Clean(p).Some? ==> Serve(s, r, w) == Outcome(s.(fs := w.host), Answer(w.hostStatus))
      case Rename(a, b) =>
        Serve(s, r, w) == if Clean(a).Some? && Clean(b).Some? then Outcome(s.(fs := w.host), Answer(w.hostStatus))
                          else Outcome(s, Answer(BadMessage))
      case PosixRename(a, b) =>
        Serve(s, r, w) == if a.Some? && b.Some? && Clean(a.value).Some? && Clean(b.value).Some?
                          then Outcome(s.(fs := w.host), Answer(w.hostStatus)) else Outcome(s, Answer(BadMessage))
      case HardLink(a, b) =>
        Serve(s, r, w) == if a.Some? && b.Some? && Clean(a.value).Some? && Clean(b.value).Some?
                          then Outcome(s.(fs := w.host), Answer(w.hostStatus)) else Outcome(s, Answer(BadMessage))
      case OtherRequest => Serve(s, r, w) == Outcome(s, Answer(OpUnsupported))
      case _ => true
  {
    hide Clean;
  }
}
