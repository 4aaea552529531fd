/** What a whole session can do to the shared directory, mode by mode. */
module FilesSafety {
  import opened Common
  import opened Paths
  import opened FileSystem
  import opened FilesPolicy

  type Event = (Request, World)

  function Run(s: Session, events: seq<Event>): Session
    decreases |events|
  {
    if events == [] then s else Run(Step(s, events[0].0, events[0].1).session, events[1..])
  }

  /** The directory as it was before the session: no node in it is one the session will create. */
  ghost predicate Before(fs: Tree) {
    forall i :: i in fs ==> i.Old?
  }

  // ---- Write-only modes ----

  /** A handle in these modes writes a file this session created. */
  ghost predicate OwnHandle(fs: Tree, h: Handle) {
    h.FileHandle? && !h.readable && h.writable && h.ino.New? && h.ino in fs && fs[h.ino].File?
  }

  /** A remembered target names a node this session created. */
  ghost predicate OwnTarget(fs: Tree, path: Path) {
    Lookup(fs, path, true).Done? && Lookup(fs, path, true).value.New? && Lookup(fs, path, true).value in fs
  }

  ghost predicate Nodes(fs: Tree, created: nat) {
    forall i :: i in fs && i.New? ==> i.id < created && !fs[i].Link?
  }

  ghost predicate Inv(s: Session, fs0: Tree)
    ensures Inv(s, fs0) ==> s.mode.DropBox() && Evolves(fs0, s.fs)
  {
    && s.mode.DropBox()
    && Evolves(fs0, s.fs)
    && Nodes(s.fs, s.created)
    && (forall h :: h in s.handles ==> OwnHandle(s.fs, s.handles[h]))
    && (forall p :: p in s.wrote ==> OwnTarget(s.fs, s.wrote[p]))
  }

  /** The parts of the invariant that speak of the tree survive any change the modes allow. */
  lemma {:induction false} InvMoves(s: Session, fs0: Tree, fs: Tree, created: nat)
    requires Inv(s, fs0) && Evolves(s.fs, fs) && Nodes(fs, created)
    ensures Inv(s.(fs := fs, created := created), fs0)
  {
    EvolvesTransitive(fs0, s.fs, fs);
    forall h | h in s.handles
      ensures OwnHandle(fs, s.handles[h])
    {
      assert OwnHandle(s.fs, s.handles[h]);
      assert SameKind(s.fs[s.handles[h].ino], fs[s.handles[h].ino]);
    }
    forall p | p in s.wrote
      ensures OwnTarget(fs, s.wrote[p])
    {
      assert OwnTarget(s.fs, s.wrote[p]);
      LookupStable(s.fs, fs, s.wrote[p], true);
    }
  }

  lemma {:induction false} UniqueIsPlain(path: Path, stamp: Stamp)
    requires forall n :: n in path ==> Plain(n)
    ensures forall n :: n in Unique(path, stamp) ==> Plain(n)
  {
    var base := if path == [] then "" else path[|path| - 1];
    var i := LastDot(base);
    var name := UniqueName(base, stamp);
    assert |name| > 2;
    assert forall c :: c in name ==> c in base || c == '.' || c in stamp;
    assert base == "" || Plain(base) by {
      if path != [] {
        assert base in path;
      }
    }
  }

  lemma {:induction false} CreationKeeps(s: Session, fs0: Tree, requested: Path, actual: Path, node: Node)
    requires Inv(s, fs0) && !node.Link?
    requires forall n :: n in actual ==> Plain(n)
    requires Create(s.fs, actual, New(s.created), node).Done?
    ensures Inv(Created(s, requested, actual, Create(s.fs, actual, New(s.created), node).value), fs0)
    ensures var fs := Create(s.fs, actual, New(s.created), node).value;
            New(s.created) in fs && fs[New(s.created)] == node
  {
    var ino := New(s.created);
    var fs := Create(s.fs, actual, ino, node).value;
    assert ino !in s.fs;
    CreateAdds(s.fs, actual, ino, node, true);
    assert Nodes(fs, s.created + 1) by {
      forall i | i in fs && i.New?
        ensures i.id < s.created + 1 && !fs[i].Link?
      {
        if i != ino {
          assert i in s.fs && SameKind(s.fs[i], fs[i]);
        }
      }
    }
    InvMoves(s, fs0, fs, s.created + 1);
    assert OwnTarget(fs, actual);
  }

  lemma {:induction false} CreateFileKeeps(s: Session, fs0: Tree, requested: Path, actual: Path, w: World, call: nat)
    requires Inv(s, fs0)
    requires forall n :: n in actual ==> Plain(n)
    ensures Inv(CreateFile(s, requested, actual, w, call).session, fs0)
  {
    var node := File([], w.newMeta);
    var tried := TryCreate(s, actual, node, w, call);
    if tried.Done? {
      CreationKeeps(s, fs0, requested, actual, node);
      var made := Created(s, requested, actual, tried.value);
      var h := FileHandle(New(s.created), false, true);
      assert OwnHandle(made.fs, h);
    }
  }

  lemma {:induction false} OpenKeeps(s: Session, fs0: Tree, filename: string, flags: Flags, w: World)
    requires Inv(s, fs0)
    ensures Inv(OpenStep(s, filename, flags, w).session, fs0)
  {
    hide Inv, CreateFile, TryCreate, Unique, Plain;
    CleanIsPlain(filename);
    if Clean(filename).Some? {
      var path := Clean(filename).value;
      UniqueIsPlain(path, w.stamp);
      CreateFileKeeps(s, fs0, path, Unique(path, w.stamp), w, 0);
      CreateFileKeeps(s, fs0, path, Unique(path, w.stamp), w, 1);
      CreateFileKeeps(s, fs0, path, path, w, 0);
    }
  }

  lemma {:induction false} MkDirKeeps(s: Session, fs0: Tree, path: string, w: World)
    requires Inv(s, fs0)
    ensures Inv(MkDirStep(s, path, w).session, fs0)
  {
    hide Inv, Plain, Create, Created;
    CleanIsPlain(path);
    if Clean(path).Some? {
      var p := Clean(path).value;
      if TryCreate(s, p, Dir(map[], w.newMeta), w, 0).Done? {
        CreationKeeps(s, fs0, p, p, Dir(map[], w.newMeta));
      }
    }
  }

  lemma {:induction false} UpdateKeeps(s: Session, fs0: Tree, ino: Ino, node: Node)
    requires Inv(s, fs0) && ino.New? && ino in s.fs && SameKind(s.fs[ino], node)
    ensures Inv(s.(fs := s.fs[ino := node]), fs0)
  {
    UpdateEvolves(s.fs, ino, node);
    InvMoves(s, fs0, s.fs[ino := node], s.created);
    assert s.(fs := s.fs[ino := node]) == s.(fs := s.fs[ino := node], created := s.created);
  }

  lemma {:induction false} SetStatKeeps(s: Session, fs0: Tree, path: Path, attrs: AttrSet, w: World)
    requires Inv(s, fs0)
    ensures Inv(SetStatPath(s, path, attrs, w).session, fs0)
  {
    hide Evolves, SetNode, Lookup;
    if path in s.wrote && Asks(attrs) {
      assert OwnTarget(s.fs, s.wrote[path]);
      var ino := Lookup(s.fs, s.wrote[path], true).value;
      UpdateKeeps(s, fs0, ino, SetNode(s.fs[ino], attrs, true, w).0);
    }
  }

  lemma {:induction false} HandlesKeep(s: Session, fs0: Tree, handle: nat, offset: nat, data: Bytes,
                                       attrs: AttrSet, w: World)
    requires Inv(s, fs0)
    ensures Inv(WriteStep(s, handle, offset, data, w).session, fs0)
    ensures Inv(FSetStatStep(s, handle, attrs, w).session, fs0)
    ensures Inv(CloseStep(s, handle).session, fs0)
    ensures Inv(ReadDirStep(s, handle).session, fs0)
  {
    hide Evolves, SetNode, Nodes, Written;
    if s.IsFile(handle) {
      var ino := s.handles[handle].ino;
      assert OwnHandle(s.fs, s.handles[handle]);
      UpdateKeeps(s, fs0, ino, SetNode(s.fs[ino], attrs, true, w).0);
      var landed := if w.Fault(0).Some? then data[..Min(w.landed, |data|)] else data;
      UpdateKeeps(s, fs0, ino, Written(s.fs[ino], offset, landed, w.now));
    }
    if handle in s.handles {
      assert OwnHandle(s.fs, s.handles[handle]);
    }
  }

  lemma {:induction false} StepKeepsInv(s: Session, fs0: Tree, r: Request, w: World)
    requires Inv(s, fs0)
    ensures Inv(Step(s, r, w).session, fs0)
  {
    if r.Init? {
    } else if s.initialized {
      ServeKeepsInv(s, fs0, r, w);
    }
  }

  lemma {:induction false} ServeKeepsInv(s: Session, fs0: Tree, r: Request, w: World)
    requires Inv(s, fs0)
    ensures Inv(Serve(s, r, w).session, fs0)
  {
    hide Inv, OpenStep, CloseStep, WriteStep, SetStatPath, FSetStatStep, ReadDirStep, MkDirStep, Statted;
    match r
    case Open(filename, flags) => OpenKeeps(s, fs0, filename, flags, w);
    case Close(handle) => HandlesKeep(s, fs0, handle, 0, [], AttrSet(None, None, None, None), w);
    case Write(handle, offset, data) =>
      HandlesKeep(s, fs0, handle, offset, data, AttrSet(None, None, None, None), w);
    case SetStat(path, attrs) =>
      if Clean(path).Some? {
        SetStatKeeps(s, fs0, Clean(path).value, attrs, w);
      }
    case FSetStat(handle, attrs) => HandlesKeep(s, fs0, handle, 0, [], attrs, w);
    case ReadDir(handle) => HandlesKeep(s, fs0, handle, 0, [], AttrSet(None, None, None, None), w);
    case MkDir(path) => MkDirKeeps(s, fs0, path, w);
    case _ =>
  }

  lemma {:induction false} RunKeepsInv(s: Session, fs0: Tree, events: seq<Event>)
    requires Inv(s, fs0)
    ensures Inv(Run(s, events), fs0)
    decreases |events|
  {
    hide Inv, Step;
    if events == [] {
    } else {
      StepKeepsInv(s, fs0, events[0].0, events[0].1);
      RunKeepsInv(Step(s, events[0].0, events[0].1).session, fs0, events[1..]);
    }
  }

  /**
   In both write-only modes, after any requests: what was in the directory is still there unchanged, except that
   directories may have gained entries for created nodes; and every handle and every remembered target is a
   node this session created.
   */
  lemma {:induction false} DropBoxKeepsEverything(fs0: Tree, mode: Mode, events: seq<Event>)
    requires mode.DropBox() && Before(fs0)
    ensures var s := Run(Start(mode, fs0), events);
            && (forall i :: i in fs0 ==> i in s.fs && NodeKept(fs0[i], s.fs[i]))
            && (forall i :: i in s.fs && i !in fs0 ==> i.New?)
            && (forall h :: h in s.handles ==> OwnHandle(s.fs, s.handles[h]))
            && (forall p :: p in s.wrote ==> OwnTarget(s.fs, s.wrote[p]))
  {
    var s0 := Start(mode, fs0);
    assert Evolves(fs0, s0.fs);
    RunKeepsInv(s0, fs0, events);
    var s := Run(s0, events);
    assert forall i :: i in fs0 ==> i.Old? && i in s.fs && NodeKept(fs0[i], s.fs[i]);
    OnlyNewNodes(s0, fs0, events);
  }

  /** Every path that named something before the session names the same thing, kept, after it. */
  lemma {:induction false} PathsKeepTheirMeaning(fs0: Tree, mode: Mode, events: seq<Event>, path: Path, follow: bool)
    requires mode.DropBox() && Before(fs0)
    requires Lookup(fs0, path, follow).Done? && Lookup(fs0, path, follow).value in fs0
    ensures var i := Lookup(fs0, path, follow).value;
            var fs := Run(Start(mode, fs0), events).fs;
            Lookup(fs, path, follow) == Done(i) && i in fs && NodeKept(fs0[i], fs[i])
  {
    var s0 := Start(mode, fs0);
    assert Evolves(fs0, s0.fs);
    RunKeepsInv(s0, fs0, events);
    LookupStable(fs0, Run(s0, events).fs, path, follow);
  }

  ghost predicate OldNodes(fs: Tree, fs0: Tree) {
    forall i :: i in fs && i.Old? ==> i in fs0
  }

  lemma {:induction false} CreationsAddOnlyNew(s: Session, fs0: Tree, name: string, flags: Flags, w: World)
    requires s.mode.DropBox() && OldNodes(s.fs, fs0)
    ensures OldNodes(OpenStep(s, name, flags, w).session.fs, fs0)
    ensures OldNodes(MkDirStep(s, name, w).session.fs, fs0)
  {
    hide Clean, Unique, Resolve;
  }

  lemma {:induction false} StepAddsOnlyNew(s: Session, fs0: Tree, r: Request, w: World)
    requires Inv(s, fs0) && OldNodes(s.fs, fs0)
    ensures OldNodes(Step(s, r, w).session.fs, fs0)
  {
    hide Inv, Lookup, SetNode, Written, Clean, OpenStep, MkDirStep;
    if r.Open? {
      CreationsAddOnlyNew(s, fs0, r.filename, r.flags, w);
    } else if r.MkDir? {
      CreationsAddOnlyNew(s, fs0, r.path, Flags(false, false, false, false, false, false), w);
    }
  }

  lemma {:induction false} OnlyNewNodes(s: Session, fs0: Tree, events: seq<Event>)
    requires Inv(s, fs0) && OldNodes(s.fs, fs0)
    ensures OldNodes(Run(s, events).fs, fs0)
    decreases |events|
  {
    hide Inv, Step, OldNodes;
    if events == [] {
    } else {
      StepKeepsInv(s, fs0, events[0].0, events[0].1);
      StepAddsOnlyNew(s, fs0, events[0].0, events[0].1);
      OnlyNewNodes(Step(s, events[0].0, events[0].1).session, fs0, events[1..]);
    }
  }

  /** Neither contents nor names ever come back: no reply in these modes is data, a listing or a link target. */
  lemma {:induction false} DropBoxTellsNothing(s: Session, fs0: Tree, r: Request, w: World)
    requires Inv(s, fs0)
    ensures var reply := Step(s, r, w).reply;
            !reply.Octets? && !reply.Names? && (reply.OneName? ==> r.RealPath?)
  {
    hide Evolves, Nodes, OwnTarget, Lookup, SetNode, Written, Clean, Unique, Resolve, Create;
    if r.ReadDir? && r.handle in s.handles {
      assert OwnHandle(s.fs, s.handles[r.handle]);
    }
  }

  // ---- Read-only mode ----

  /** Only files opened for reading, and listings. */
  ghost predicate Passive(s: Session) {
    && s.mode == ReadOnly
    && (forall h :: s.IsFile(h) ==> !s.handles[h].writable)
  }

  lemma {:induction false} ReadOnlyOpens(s: Session, name: string, flags: Flags, w: World)
    requires Passive(s)
    ensures Passive(OpenStep(s, name, flags, w).session) && OpenStep(s, name, flags, w).session.fs == s.fs
    ensures Passive(OpenDirStep(s, name, w).session) && OpenDirStep(s, name, w).session.fs == s.fs
  {
    hide Lookup, Clean, Listed, Lists;
  }

  lemma {:induction false} ReadOnlyStep(s: Session, r: Request, w: World)
    requires Passive(s)
    ensures Passive(Step(s, r, w).session) && Step(s, r, w).session.fs == s.fs
  {
    hide Lookup, Clean, Metadata, OpenStep, OpenDirStep;
    if r.Open? {
      ReadOnlyOpens(s, r.filename, r.flags, w);
    } else if r.OpenDir? {
      ReadOnlyOpens(s, r.path, Flags(false, false, false, false, false, false), w);
    }
  }

  /** A read-only session never changes the directory. */
  lemma {:induction false} ReadOnlyChangesNothing(s: Session, events: seq<Event>)
    requires Passive(s)
    ensures Run(s, events).fs == s.fs
    decreases |events|
  {
    hide Passive, Step;
    if events == [] {
    } else {
      ReadOnlyStep(s, events[0].0, events[0].1);
      ReadOnlyChangesNothing(Step(s, events[0].0, events[0].1).session, events[1..]);
    }
  }
}
