/** The object that serves one SFTP session, and what single requests promise. */
module FilesSession {
  import opened Common
  import opened Paths
  import opened FileSystem
  import opened FilesPolicy
  import opened Listings

  class Files {
    const mode: Mode
    var wrote: map<Path, Path>
    var handles: map<nat, Handle>
    var nextHandle: nat
    var initialized: bool
    // The directory behind the capability, and how many nodes the session made in it.
    var fs: Tree
    var created: nat

    constructor (mode: Mode, fs: Tree)
      ensures View() == Start(mode, fs)
    {
      this.mode := mode;
      wrote, handles, nextHandle, initialized := map[], map[], 0, false;
      this.fs, created := fs, 0;
    }

    function View(): Session
      reads this
    {
      Session(mode, wrote, handles, nextHandle, initialized, fs, created)
    }

    method NewHandle(h: Handle) returns (reply: Reply)
      modifies this`nextHandle, this`handles
      ensures Outcome(View(), reply) == AddHandle(old(View()), h)
    {
      nextHandle := nextHandle + 1;
      handles := handles[nextHandle := h];
      reply := Handed(nextHandle);
    }

    /** One exclusive creation; the tree changes only when it succeeds. */
    method CreateNew(path: Path, node: Node, w: World, call: nat) returns (r: Io<Ino>)
      modifies this`fs, this`created
      ensures match TryCreate(old(View()), path, node, w, call)
              case Failed(e) => r == Failed(e) && fs == old(fs) && created == old(created)
              case Done(tree) => r == Done(New(old(created))) && fs == tree && created == old(created) + 1
    {
      var tried := TryCreate(View(), path, node, w, call);
      match tried
      case Failed(e) => r := Failed(e);
      case Done(tree) =>
        r := Done(New(created));
        fs, created := tree, created + 1;
    }

    method OpenDropBox(requested: Path, flags: Flags, w: World) returns (reply: Reply)
      requires mode.DropBox()
      modifies this
      ensures Outcome(View(), reply) == FilesPolicy.OpenDropBox(old(View()), requested, flags, w)
    {
      if flags.read || !(flags.write && flags.create) {
        return Answer(Denied);
      }
      var actual := requested;
      if mode == WriteOnly {
        if |requested| != 1 {
          return Answer(Denied);
        }
        actual := Unique(requested, w.stamp);
      }
      var result := CreateNew(actual, File([], w.newMeta), w, 0);
      if mode == WriteOnlyPlus && result == Failed(AlreadyExists) {
        actual := Unique(requested, w.stamp);
        result := CreateNew(actual, File([], w.newMeta), w, 1);
      }
      match result
      case Failed(e) => reply := Answer(StatusOf(e));
      case Done(file) =>
        wrote := wrote[requested := actual];
        reply := NewHandle(FileHandle(file, flags.read, flags.write));
    }

    method OpenShared(path: Path, flags: Flags, w: World) returns (reply: Reply)
      requires !mode.DropBox() && (mode == ReadOnly ==> !flags.Mutating())
      modifies this
      ensures Outcome(View(), reply)
              == if flags.Mutating() then OpenOnHost(old(View()), flags, w)
                 else OpenExisting(old(View()), path, flags, w)
    {
      var file: Io<Ino>;
      if flags.Mutating() {
        fs := w.host;
        file := w.hostFile;
      } else if !flags.read {
        file := Failed(Other);
      } else if w.Fault(0).Some? {
        file := Failed(w.Fault(0).value);
      } else {
        file := Lookup(fs, path, true);
      }
      match file
      case Failed(e) => reply := Answer(StatusOf(e));
      case Done(ino) => reply := NewHandle(FileHandle(ino, flags.read, flags.write));
    }

    method Open(filename: string, flags: Flags, w: World) returns (reply: Reply)
      modifies this
      ensures Outcome(View(), reply) == OpenStep(old(View()), filename, flags, w)
    {
      if mode == ReadOnly && flags.Mutating() {
        return Answer(Denied);
      }
      var requested := Relative(filename);
      if requested.None? {
        return Answer(BadMessage);
      }
      if mode.DropBox() {
        reply := OpenDropBox(requested.value, flags, w);
      } else {
        reply := OpenShared(requested.value, flags, w);
      }
    }

    method SetStat(name: string, attrs: AttrSet, w: World) returns (reply: Reply)
      modifies this`fs
      ensures Outcome(View(), reply)
              == match Clean(name)
                 case None => Refuse(old(View()), BadMessage)
                 case Some(p) => SetStatPath(old(View()), p, attrs, w)
    {
      hide SetNode, Lookup;
      var path := Relative(name);
      if path.None? {
        return Answer(BadMessage);
      }
      var actual := path.value;
      if mode == ReadOnly {
        return Answer(Denied);
      }
      if mode.DropBox() {
        if actual !in wrote {
          return Answer(Denied);
        }
        actual := wrote[actual];
      }
      if !Asks(attrs) {
        return Answer(Good);
      }
      var found := Lookup(fs, actual, true);
      match found
      case Failed(e) => reply := Answer(StatusOf(e));
      case Done(ino) =>
        if ino !in fs {
          return Answer(Failure);
        }
        var done := SetNode(fs[ino], attrs, true, w);
        fs := fs[ino := done.0];
        reply := Answer(done.1);
    }

    method FSetStat(handle: nat, attrs: AttrSet, w: World) returns (reply: Reply)
      modifies this`fs
      ensures Outcome(View(), reply) == FSetStatStep(old(View()), handle, attrs, w)
    {
      hide SetNode;
      if mode == ReadOnly {
        return Answer(Denied);
      }
      if handle !in handles || !handles[handle].FileHandle? {
        return Answer(Failure);
      }
      var h := handles[handle];
      if mode.DropBox() && !h.writable {
        return Answer(Denied);
      }
      if h.ino !in fs {
        return Answer(Failure);
      }
      var done := SetNode(fs[h.ino], attrs, h.writable, w);
      fs := fs[h.ino := done.0];
      reply := Answer(done.1);
    }

    method Write(handle: nat, offset: nat, data: Bytes, w: World) returns (reply: Reply)
      modifies this`fs
      ensures Outcome(View(), reply) == WriteStep(old(View()), handle, offset, data, w)
    {
      if handle !in handles || !handles[handle].FileHandle? || !handles[handle].writable {
        return Answer(Denied);
      }
      var ino := handles[handle].ino;
      if ino !in fs || !fs[ino].File? {
        return Answer(Failure);
      }
      var landed := data;
      reply := Answer(Good);
      if w.Fault(0).Some? {
        landed := data[..Min(w.landed, |data|)];
        reply := Answer(StatusOf(w.Fault(0).value));
      }
      var n := fs[ino];
      if landed != [] {
        n := File(Overwrite(n.content, offset, landed), n.meta.(modified := w.now));
      }
      fs := fs[ino := n];
    }

    method Close(handle: nat) returns (reply: Reply)
      modifies this`handles
      ensures Outcome(View(), reply) == CloseStep(old(View()), handle)
    {
      if handle !in handles {
        return Answer(Failure);
      }
      handles := handles - {handle};
      reply := Answer(Good);
    }

    method OpenDir(name: string, w: World) returns (reply: Reply)
      modifies this`nextHandle, this`handles
      ensures Outcome(View(), reply) == OpenDirStep(old(View()), name, w)
    {
      if mode.DropBox() {
        return Answer(Denied);
      }
      var path := Relative(name);
      if path.None? {
        return Answer(BadMessage);
      }
      var found := if w.Fault(0).Some? then Failed(w.Fault(0).value) else Lookup(fs, path.value, true);
      match found
      case Failed(e) => reply := Answer(StatusOf(e));
      case Done(dir) =>
        if !IsDir(fs, dir) || !Lists(w.order, fs[dir].entries)
           || exists n :: n in w.order && fs[dir].entries[n] !in fs
        {
          return Answer(Failure);
        }
        var listed: seq<(Name, Attributes)> := [];
        for i := 0 to |w.order|
          invariant |listed| == i
          invariant forall k :: 0 <= k < i ==>
                      listed[k] == (w.order[k], AttributesOf(fs[fs[dir].entries[w.order[k]]]))
        {
          var name := w.order[i];
          assert name in w.order;
          listed := listed + [(name, AttributesOf(fs[fs[dir].entries[name]]))];
        }
        assert listed == Listed(fs, fs[dir].entries, w.order);
        reply := NewHandle(DirHandle(ByName(listed), 0));
    }

    method ReadDir(handle: nat) returns (reply: Reply)
      modifies this`handles
      ensures Outcome(View(), reply) == ReadDirStep(old(View()), handle)
    {
      if handle !in handles || !handles[handle].DirHandle? {
        return Answer(Failure);
      }
      var h := handles[handle];
      if h.next >= |h.entries| {
        return Answer(Eof);
      }
      var end := Min(h.next + PAGE, |h.entries|);
      reply := Names(h.entries[h.next..end]);
      handles := handles[handle := h.(next := end)];
    }

    method MkDir(name: string, w: World) returns (reply: Reply)
      modifies this
      ensures Outcome(View(), reply) == MkDirStep(old(View()), name, w)
    {
      if mode == ReadOnly || mode == WriteOnly {
        return Answer(Denied);
      }
      var path := Relative(name);
      if path.None? {
        return Answer(BadMessage);
      }
      var made := CreateNew(path.value, Dir(map[], w.newMeta), w, 0);
      if made.Failed? {
        return Answer(StatusOf(made.error));
      }
      if mode.DropBox() {
        wrote := wrote[path.value := path.value];
      }
      reply := Answer(Good);
    }

    method Read(handle: nat, offset: nat, len: nat, w: World) returns (reply: Reply)
      ensures Outcome(View(), reply) == ReadStep(View(), handle, offset, len, w)
    {
      if mode.DropBox() {
        return Answer(Denied);
      }
      if handle !in handles || !handles[handle].FileHandle? || !handles[handle].readable {
        return Answer(Denied);
      }
      if w.Fault(0).Some? {
        return Answer(StatusOf(w.Fault(0).value));
      }
      var ino := handles[handle].ino;
      if ino !in fs || !fs[ino].File? {
        return Answer(Failure);
      }
      var content := fs[ino].content;
      if offset >= |content| || len == 0 {
        return Answer(Eof);
      }
      var end := Min(offset + Min(len, READ_LIMIT), |content|);
      reply := Octets(content[offset..end]);
    }

    method Fstat(handle: nat, w: World) returns (reply: Reply)
      ensures Outcome(View(), reply) == FstatStep(View(), handle, w)
    {
      if handle !in handles || !handles[handle].FileHandle? {
        return Answer(Failure);
      }
      if w.Fault(0).Some? {
        return Answer(StatusOf(w.Fault(0).value));
      }
      var ino := handles[handle].ino;
      reply := if ino in fs then Attrs(AttributesOf(fs[ino])) else Answer(Failure);
    }

    method Metadata(path: Path, follow: bool, w: World) returns (reply: Reply)
      ensures reply == FilesPolicy.Metadata(fs, path, follow, w)
    {
      hide Lookup;
      if w.Fault(0).Some? {
        return Answer(StatusOf(w.Fault(0).value));
      }
      var found := Lookup(fs, path, follow);
      match found
      case Failed(e) => reply := Answer(StatusOf(e));
      case Done(ino) => reply := if ino in fs then Attrs(AttributesOf(fs[ino])) else Answer(Failure);
    }

    /** Stat follows a link at the end of the path and Lstat does not. */
    method Stat(name: string, follow: bool, w: World) returns (reply: Reply)
      ensures reply == Statted(View(), name, follow, w)
    {
      hide Lookup, Clean;
      var path := Relative(name);
      if path.None? {
        return Answer(BadMessage);
      }
      if !mode.DropBox() {
        reply := Metadata(path.value, follow, w);
      } else if path.value in wrote {
        reply := Metadata(wrote[path.value], follow, w);
      } else if mode == WriteOnly && path.value != [] {
        reply := Answer(NoSuchFile);
      } else {
        reply := Metadata(path.value, follow, w);
        if !(reply.Attrs? && reply.attrs.kind == Directory) {
          reply := Answer(NoSuchFile);
        }
      }
    }

    method RealPath(name: string) returns (reply: Reply)
      ensures Outcome(View(), reply) == RealPathStep(View(), name)
    {
      hide Clean;
      var path := Relative(name);
      if path.None? {
        return Answer(BadMessage);
      }
      var text := "/";
      if path.value != [] {
        text := Join(path.value);
      }
      reply := OneName(text);
    }

    method ReadLink(name: string, w: World) returns (reply: Reply)
      ensures Outcome(View(), reply) == ReadLinkStep(View(), name, w)
    {
      hide Lookup, Clean;
      if mode.DropBox() {
        return Answer(Denied);
      }
      var path := Relative(name);
      if path.None? {
        return Answer(BadMessage);
      }
      if w.Fault(0).Some? {
        return Answer(StatusOf(w.Fault(0).value));
      }
      var found := Lookup(fs, path.value, false);
      match found
      case Failed(e) => reply := Answer(StatusOf(e));
      case Done(ino) =>
        if ino !in fs || !fs[ino].Link? {
          return Answer(Failure);
        }
        reply := OneName(fs[ino].target);
    }

    method Fsync(file: Option<nat>, w: World) returns (reply: Reply)
      ensures Outcome(View(), reply) == FsyncStep(View(), file, w)
    {
      if file.None? {
        return Answer(BadMessage);
      }
      if file.value !in handles || !handles[file.value].FileHandle? {
        return Answer(Failure);
      }
      reply := Answer(Good);
      if w.Fault(0).Some? {
        reply := Answer(StatusOf(w.Fault(0).value));
      }
    }

    /** Remove, RmDir, Rename, Symlink and the two linking extensions. */
    method OnHost(operands: seq<string>, w: World) returns (reply: Reply)
      modifies this`fs
      ensures Outcome(View(), reply) == HostStep(old(View()), operands, w)
    {
      hide Clean;
      if mode != ReadWrite {
        return Answer(Denied);
      }
      for i := 0 to |operands|
        invariant fs == old(fs)
        invariant forall k :: 0 <= k < i ==> Clean(operands[k]).Some?
      {
        var p := Relative(operands[i]);
        if p.None? {
          assert operands[i] in operands && Clean(operands[i]).None?;
          return Answer(BadMessage);
        }
      }
      fs := w.host;
      reply := Answer(w.hostStatus);
    }

    method Extended(r: Request, w: World) returns (reply: Reply)
      requires r.PosixRename? || r.HardLink? || r.Fsync? || r.OtherExtension?
      modifies this`fs
      ensures Outcome(View(), reply) == Serve(old(View()), r, w)
    {
      hide HostStep, Clean;
      match r
      case PosixRename(first, second) =>
        if first.None? || second.None? {
          return Answer(BadMessage);
        }
        reply := OnHost([first.value, second.value], w);
      case HardLink(first, second) =>
        if first.None? {
          return Answer(BadMessage);
        }
        if mode != ReadWrite {
          return Answer(Denied);
        }
        if second.None? {
          return Answer(BadMessage);
        }
        reply := OnHost([first.value, second.value], w);
      case Fsync(file) => reply := Fsync(file, w);
      case OtherExtension(readable) => reply := Answer(if readable then OpUnsupported else BadMessage);
    }

    method OnHandle(r: Request, w: World) returns (reply: Reply)
      requires r.Close? || r.Read? || r.Write? || r.Fstat? || r.FSetStat? || r.ReadDir?
      modifies this
      ensures Outcome(View(), reply) == Serve(old(View()), r, w)
    {
      hide OpenStep, CloseStep, WriteStep, SetStatPath, FSetStatStep, ReadDirStep, Statted, OpenDirStep, MkDirStep;
      hide HostStep, ReadStep, FstatStep, RealPathStep, ReadLinkStep, FsyncStep, Clean, PosixRenameStep, HardLinkStep;
      match r
      case Close(handle) => reply := Close(handle);
      case Read(handle, offset, len) => reply := Read(handle, offset, len, w);
      case Write(handle, offset, data) => reply := Write(handle, offset, data, w);
      case Fstat(handle) => reply := Fstat(handle, w);
      case FSetStat(handle, attrs) => reply := FSetStat(handle, attrs, w);
      case ReadDir(handle) => reply := ReadDir(handle);
    }

    method OnPath(r: Request, w: World) returns (reply: Reply)
      requires r.Open? || r.Stat? || r.Lstat? || r.SetStat? || r.OpenDir? || r.RealPath? || r.MkDir? || r.ReadLink?
      modifies this
      ensures Outcome(View(), reply) == Serve(old(View()), r, w)
    {
      hide OpenStep, CloseStep, WriteStep, SetStatPath, FSetStatStep, ReadDirStep, Statted, OpenDirStep, MkDirStep;
      hide HostStep, ReadStep, FstatStep, RealPathStep, ReadLinkStep, FsyncStep, Clean, PosixRenameStep, HardLinkStep;
      match r
      case Open(filename, flags) => reply := Open(filename, flags, w);
      case Stat(path) => reply := Stat(path, true, w);
      case Lstat(path) => reply := Stat(path, false, w);
      case SetStat(path, attrs) => reply := SetStat(path, attrs, w);
      case OpenDir(path) => reply := OpenDir(path, w);
      case RealPath(path) => reply := RealPath(path);
      case MkDir(path) => reply := MkDir(path, w);
      case ReadLink(path) => reply := ReadLink(path, w);
    }

    method Process(r: Request, w: World) returns (reply: Reply)
      modifies this
      ensures Outcome(View(), reply) == Step(old(View()), r, w)
    {
      hide OpenStep, CloseStep, WriteStep, SetStatPath, FSetStatStep, ReadDirStep, Statted, OpenDirStep, MkDirStep;
      hide HostStep, ReadStep, FstatStep, RealPathStep, ReadLinkStep, FsyncStep, Clean, PosixRenameStep, HardLinkStep;
      if !r.Init? && !initialized {
        return Answer(BadMessage);
      }
      if r.Init? {
        if initialized {
          return Answer(BadMessage);
        }
        initialized := true;
        reply := Version;
      } else if r.Remove? || r.RmDir? {
        reply := OnHost([r.path], w);
      } else if r.Rename? {
        reply := OnHost([r.from, r.to], w);
      } else if r.Symlink? {
        reply := OnHost([r.target, r.link], w);
      } else if r.PosixRename? || r.HardLink? || r.Fsync? || r.OtherExtension? {
        reply := Extended(r, w);
      } else if r.Close? || r.Read? || r.Write? || r.Fstat? || r.FSetStat? || r.ReadDir? {
        reply := OnHandle(r, w);
      } else if r.OtherRequest? {
        reply := Answer(OpUnsupported);
      } else {
        reply := OnPath(r, w);
      }
    }
  }

  // ---- What the requests are for ----

  /** Octets written are read back from the same place through the same handle. */
  lemma {:induction false} WriteThenRead(s: Session, handle: nat, offset: nat, data: Bytes, w: World, w': World)
    requires s.mode == ReadWrite && s.IsFile(handle) && s.handles[handle].readable && s.handles[handle].writable
    requires s.handles[handle].ino in s.fs && s.fs[s.handles[handle].ino].File?
    requires w.Fault(0).None? && w'.Fault(0).None? && 0 < |data| <= READ_LIMIT
    ensures var o := WriteStep(s, handle, offset, data, w);
            o.reply == Answer(Good) && ReadStep(o.session, handle, offset, |data|, w').reply == Octets(data)
  {
    Overwritten(s.fs[s.handles[handle].ino].content, offset, data);
  }

  /** A write replaces exactly its range, filling any gap with zeros. */
  lemma {:induction false} Overwritten(content: Bytes, offset: nat, data: Bytes)
    requires data != []
    ensures var r := Overwrite(content, offset, data);
            && offset + |data| <= |r|
            && |r| == (if |content| <= offset + |data| then offset + |data| else |content|)
            && r[offset..offset + |data|] == data
            && (forall k :: 0 <= k < |content| && (k < offset || offset + |data| <= k) ==> r[k] == content[k])
            && (forall k :: |content| <= k < offset ==> r[k] == 0)
  {
    ResizedKeeps(content, offset);
  }

  lemma {:induction false} ResizedKeeps(content: Bytes, n: nat)
    ensures forall k :: 0 <= k < Min(n, |content|) ==> Resize(content, n)[k] == content[k]
    ensures forall k :: |content| <= k < n ==> Resize(content, n)[k] == 0
  {
    if n > |content| {
      AllZero(n - |content|);
    }
  }

  lemma {:induction false} AllZero(n: nat)
    ensures forall k :: 0 <= k < n ==> Zeros(n)[k] == 0
  {
    if n == 0 {
    } else {
      AllZero(n - 1);
    }
  }

  /** The entries a client collects by asking until the end of the listing. */
  function Collect(s: Session, handle: nat): seq<(Name, Attributes)>
    requires handle in s.handles && s.handles[handle].DirHandle?
    decreases |s.handles[handle].entries| - s.handles[handle].next
  {
    var o := ReadDirStep(s, handle);
    if o.reply.Names? then o.reply.entries + Collect(o.session, handle) else []
  }

  lemma {:induction false} CollectsTheRest(s: Session, handle: nat)
    requires handle in s.handles && s.handles[handle].DirHandle?
    requires s.handles[handle].next <= |s.handles[handle].entries|
    ensures Collect(s, handle) == s.handles[handle].entries[s.handles[handle].next..]
    decreases |s.handles[handle].entries| - s.handles[handle].next
  {
    var h := s.handles[handle];
    if h.next == |h.entries| {
    } else {
      var end := Min(h.next + PAGE, |h.entries|);
      CollectsTheRest(ReadDirStep(s, handle).session, handle);
      assert h.entries[h.next..] == h.entries[h.next..end] + h.entries[end..];
    }
  }

  /**
   A listing read to its end names every entry of the directory exactly once, with its own attributes, in
   ascending order of the names, whatever order the host lists them in.
   */
  lemma {:induction false} ListingIsComplete(s: Session, path: string, w: World)
    requires OpenDirStep(s, path, w).reply.Handed?
    ensures Clean(path).Some? && Lookup(s.fs, Clean(path).value, true).Done?
    ensures var dir := Lookup(s.fs, Clean(path).value, true).value;
            IsDir(s.fs, dir) && forall n :: n in s.fs[dir].entries ==> s.fs[dir].entries[n] in s.fs
    ensures var o := OpenDirStep(s, path, w);
            o.reply.handle in o.session.handles && o.session.handles[o.reply.handle].DirHandle?
    ensures var o := OpenDirStep(s, path, w);
            var entries := s.fs[Lookup(s.fs, Clean(path).value, true).value].entries;
            var all := Collect(o.session, o.reply.handle);
            && Ascending(all)
            && (forall e :: e in all ==> e.0 in entries && e.1 == AttributesOf(s.fs[entries[e.0]]))
            && (forall n :: n in entries ==> (n, AttributesOf(s.fs[entries[n]])) in all)
  {
    hide Lookup, Clean, ByName, Ascending;
    var o := OpenDirStep(s, path, w);
    var dir := Lookup(s.fs, Clean(path).value, true).value;
    CollectsTheRest(o.session, o.reply.handle);
    ListedByName(s.fs, s.fs[dir].entries, w.order);
  }

  lemma {:induction false} ListedByName(fs: Tree, entries: map<Name, Ino>, order: seq<Name>)
    requires Lists(order, entries) && forall n :: n in order ==> entries[n] in fs
    ensures forall n :: n in entries ==> entries[n] in fs
    ensures var all := ByName(Listed(fs, entries, order));
            && Ascending(all)
            && (forall e :: e in all ==> e.0 in entries && e.1 == AttributesOf(fs[entries[e.0]]))
            && (forall n :: n in entries ==> (n, AttributesOf(fs[entries[n]])) in all)
  {
    hide ByName, Ascending, AttributesOf;
    var listed := Listed(fs, entries, order);
    ByNameSorts(listed);
    var all := ByName(listed);
    forall e | e in all
      ensures e.0 in entries && e.1 == AttributesOf(fs[entries[e.0]])
    {
      assert e in multiset(all);
      var k :| 0 <= k < |listed| && listed[k] == e;
      assert order[k] in order;
    }
    forall n | n in entries
      ensures (n, AttributesOf(fs[entries[n]])) in all
    {
      assert n in order;
      var k :| 0 <= k < |order| && order[k] == n;
      assert listed[k] in multiset(listed);
      assert listed[k] in multiset(all);
    }
  }

  /** Asking for the real path of a real path gives it back. */
  lemma {:induction false} RealPathIsFixed(s: Session, path: string)
    requires RealPathStep(s, path).reply.OneName?
    ensures RealPathStep(s, RealPathStep(s, path).reply.name).reply == RealPathStep(s, path).reply
  {
    hide PushAll, Split, Plain;
    var p := Clean(path).value;
    CleanIsPlain(path);
    CleanOfJoin(p);
    RootIsClean();
    assert p != [] ==> Join(p) != "";
  }

  lemma {:induction false} RootIsClean()
    ensures Clean("/") == Some([])
  {
    assert "/"[1..] == "";
    assert Split("/") == [""] + Split("");
    var parts := ["", ""];
    assert PushAll([], parts) == PushAll(Push([], parts[0]), parts[1..]);
    assert parts[1..] == [""] && [""][1..] == [];
    assert PushAll([], [""]) == PushAll(Push([], ""), []);
  }

  /** The last dot starts the extension, which a unique name keeps; so do the stem and the directory. */
  lemma {:induction false} UniqueKeepsStemAndExtension(path: Path, stamp: Stamp)
    requires path != []
    ensures var base, u := path[|path| - 1], Unique(path, stamp);
            && |u| == |path| && u[..|u| - 1] == path[..|path| - 1]
            && base == base[..LastDot(base)] + base[LastDot(base)..]
            && u[|u| - 1] == base[..LastDot(base)] + "." + stamp + base[LastDot(base)..]
  {
    var base := path[|path| - 1];
    assert base == base[..LastDot(base)] + base[LastDot(base)..];
  }
}
