/** Handles and names over a session: none is reused, and what was written through them is found again. */
module FilesHandles {
  import opened Common
  import opened Paths
  import opened FileSystem
  import opened FilesPolicy
  import opened FilesSafety

  // ---- Handles ----

  ghost predicate Counted(s: Session) {
    forall h :: h in s.handles ==> h <= s.nextHandle
  }

  /** The same open file, or the same listing read no less far. */
  ghost predicate SameHandle(a: Handle, b: Handle) {
    match a
    case FileHandle(_, _, _) => a == b
    case DirHandle(entries, next) => b.DirHandle? && b.entries == entries && b.next >= next
  }

  /** No handle number is used twice: one that is live now and was handed out before has been live since. */
  ghost predicate HandlesPersist(s: Session, s': Session) {
    && s.nextHandle <= s'.nextHandle
    && forall h :: h in s'.handles && h <= s.nextHandle ==> h in s.handles && SameHandle(s.handles[h], s'.handles[h])
  }

  lemma {:induction false} AddPersists(s: Session, s': Session, h: Handle)
    requires Counted(s) && s'.handles == s.handles && s'.nextHandle == s.nextHandle
    ensures Counted(AddHandle(s', h).session) && HandlesPersist(s, AddHandle(s', h).session)
  {
  }

  lemma {:induction false} PersistsItself(s: Session, s': Session)
    requires Counted(s) && s'.handles == s.handles && s'.nextHandle == s.nextHandle
    ensures Counted(s') && HandlesPersist(s, s')
  {
  }

  lemma {:induction false} OpenPersists(s: Session, filename: string, flags: Flags, w: World)
    requires Counted(s)
    ensures var s' := OpenStep(s, filename, flags, w).session; Counted(s') && HandlesPersist(s, s')
  {
    hide Counted, HandlesPersist, AddHandle, Lookup, Clean, Create, Unique, Resolve;
    PersistsItself(s, s);
    PersistsItself(s, s.(fs := w.host));
    forall s': Session, h | s'.handles == s.handles && s'.nextHandle == s.nextHandle
      ensures Counted(AddHandle(s', h).session) && HandlesPersist(s, AddHandle(s', h).session)
    {
      AddPersists(s, s', h);
    }
  }

  lemma {:induction false} OpenDirPersists(s: Session, path: string, w: World)
    requires Counted(s)
    ensures var s' := OpenDirStep(s, path, w).session; Counted(s') && HandlesPersist(s, s')
  {
    hide Counted, HandlesPersist, AddHandle, Lookup, Clean, Listed, Lists;
    PersistsItself(s, s);
    forall h
      ensures Counted(AddHandle(s, h).session) && HandlesPersist(s, AddHandle(s, h).session)
    {
      AddPersists(s, s, h);
    }
  }

  lemma {:induction false} UsesPersist(s: Session, handle: nat)
    requires Counted(s)
    ensures var s' := ReadDirStep(s, handle).session; Counted(s') && HandlesPersist(s, s')
    ensures var s' := CloseStep(s, handle).session; Counted(s') && HandlesPersist(s, s')
  {
  }

  /** No other request touches the table of handles. */
  lemma {:induction false} OthersLeaveHandles(s: Session, r: Request, w: World)
    requires !r.Open? && !r.OpenDir? && !r.ReadDir? && !r.Close?
    ensures var s' := Serve(s, r, w).session; s'.handles == s.handles && s'.nextHandle == s.nextHandle
  {
    hide Lookup, Clean, SetNode, Written, Create, Join, Statted, OpenStep, OpenDirStep, ReadDirStep, CloseStep;
  }

  lemma {:induction false} StepKeepsHandles(s: Session, r: Request, w: World)
    requires Counted(s)
    ensures Counted(Step(s, r, w).session) && HandlesPersist(s, Step(s, r, w).session)
  {
    hide Counted, HandlesPersist, OpenStep, OpenDirStep, ReadDirStep, CloseStep;
    hide SetStatPath, FSetStatStep, WriteStep, ReadStep, FstatStep, MkDirStep, HostStep, ReadLinkStep, RealPathStep,
      PosixRenameStep, HardLinkStep, FsyncStep, Statted, Clean;
    PersistsItself(s, s);
    if r.Init? {
      PersistsItself(s, s.(initialized := true));
    } else if r.Open? {
      OpenPersists(s, r.filename, r.flags, w);
    } else if r.OpenDir? {
      OpenDirPersists(s, r.path, w);
    } else if r.ReadDir? || r.Close? {
      UsesPersist(s, r.handle);
    } else {
      OthersLeaveHandles(s, r, w);
      PersistsItself(s, Serve(s, r, w).session);
    }
  }

  lemma {:induction false} PersistTransitive(a: Session, b: Session, c: Session)
    requires HandlesPersist(a, b) && HandlesPersist(b, c)
    ensures HandlesPersist(a, c)
  {
  }

  /** A closed handle is never live again, and a live one never changes what it refers to. */
  lemma {:induction false} HandlesAreNeverReused(s: Session, events: seq<Event>)
    requires Counted(s)
    ensures Counted(Run(s, events)) && HandlesPersist(s, Run(s, events))
    decreases |events|
  {
    hide Step, Counted, HandlesPersist;
    if events == [] {
      assert HandlesPersist(s, s) by { PersistsItself(s, s); }
    } else {
      var next := Step(s, events[0].0, events[0].1).session;
      StepKeepsHandles(s, events[0].0, events[0].1);
      HandlesAreNeverReused(next, events[1..]);
      PersistTransitive(s, next, Run(s, events));
    }
  }

  // ---- Uploads ----

  /** What a name and its handle stand for after an upload was opened. */
  ghost predicate Uploaded(s: Session, o: Outcome, path: Path, w: World) {
    var ino := New(s.created);
    && o.reply.Handed? && o.session.IsFile(o.reply.handle) && o.session.handles[o.reply.handle].ino == ino
    && ino !in s.fs && ino in o.session.fs && o.session.fs[ino] == File([], w.newMeta)
    && path in o.session.wrote && Lookup(o.session.fs, o.session.wrote[path], true) == Done(ino)
  }

  lemma {:induction false} CreateFileUploads(s: Session, fs0: Tree, path: Path, actual: Path, w: World, call: nat)
    requires Inv(s, fs0) && forall n :: n in actual ==> Plain(n)
    requires CreateFile(s, path, actual, w, call).reply.Handed?
    ensures Uploaded(s, CreateFile(s, path, actual, w, call), path, w)
  {
    hide Plain, Lookup, Evolves, Create;
    assert New(s.created) !in s.fs by { NextIsNew(s, fs0); }
    CreateAdds(s.fs, actual, New(s.created), File([], w.newMeta), true);
  }

  /** A successful upload's name and handle both stand for the new, empty file; asking for the name finds it. */
  lemma {:induction false} UploadIsRemembered(s: Session, fs0: Tree, filename: string, flags: Flags,
                                              w: World, w': World)
    requires Inv(s, fs0) && w'.Fault(0).None?
    ensures var o := OpenStep(s, filename, flags, w);
            o.reply.Handed? ==>
              && Clean(filename).Some? && Uploaded(s, o, Clean(filename).value, w)
              && Statted(o.session, filename, true, w') == Attrs(Attributes(Regular, 0, w.newMeta))
  {
    if OpenStep(s, filename, flags, w).reply.Handed? {
      HandedIsRemembered(s, fs0, filename, flags, w, w');
    }
  }

  lemma {:induction false} HandedIsRemembered(s: Session, fs0: Tree, filename: string, flags: Flags,
                                              w: World, w': World)
    requires Inv(s, fs0) && OpenStep(s, filename, flags, w).reply.Handed? && w'.Fault(0).None?
    ensures Clean(filename).Some?
    ensures var o := OpenStep(s, filename, flags, w);
            Uploaded(s, o, Clean(filename).value, w)
            && Statted(o.session, filename, true, w') == Attrs(Attributes(Regular, 0, w.newMeta))
  {
    hide Inv, Plain, Unique, CreateFile, TryCreate;
    CleanIsPlain(filename);
    var path := Clean(filename).value;
    var unique := Unique(path, w.stamp);
    UniqueIsPlain(path, w.stamp);
    if CreateFile(s, path, unique, w, 0).reply.Handed? {
      CreateFileUploads(s, fs0, path, unique, w, 0);
    }
    if CreateFile(s, path, unique, w, 1).reply.Handed? {
      CreateFileUploads(s, fs0, path, unique, w, 1);
    }
    if CreateFile(s, path, path, w, 0).reply.Handed? {
      CreateFileUploads(s, fs0, path, path, w, 0);
    }
    assert OpenStep(s, filename, flags, w) == OpenDropBox(s, path, flags, w) by { ReadsOff(s, fs0); }
    assert OpenStep(s, filename, flags, w).session.mode.DropBox() by {
      OpenKeeps(s, fs0, filename, flags, w);
      ReadsOff(OpenStep(s, filename, flags, w).session, fs0);
    }
    UploadIsStatted(s, OpenStep(s, filename, flags, w), path, w, w');
  }

  lemma {:induction false} ReadsOff(s: Session, fs0: Tree)
    requires Inv(s, fs0)
    ensures s.mode.DropBox()
  {
  }

  lemma {:induction false} UploadIsStatted(s: Session, o: Outcome, path: Path, w: World, w': World)
    requires Uploaded(s, o, path, w) && o.session.mode.DropBox() && w'.Fault(0).None?
    ensures StatPath(o.session, path, true, w') == Attrs(Attributes(Regular, 0, w.newMeta))
  {
    hide Lookup;
  }

  lemma {:induction false} NextIsNew(s: Session, fs0: Tree)
    requires Inv(s, fs0)
    ensures New(s.created) !in s.fs
  {
  }

  // ---- Attributes ----

  predicate SameShapeNode(a: Node, b: Node) {
    match a
    case File(_, _) => b.File?
    case Dir(entries, _) => b.Dir? && b.entries == entries
    case Link(target, _) => b.Link? && b.target == target
  }

  ghost predicate SameShape(a: Tree, b: Tree) {
    a.Keys == b.Keys && forall i :: i in a ==> SameShapeNode(a[i], b[i])
  }

  /** Lookups see entries and link targets only. */
  lemma {:induction false} ResolveSeesShape(a: Tree, b: Tree, stack: seq<Ino>, parts: seq<string>,
                                            follow: bool, budget: nat)
    requires stack != [] && SameShape(a, b)
    ensures Resolve(a, stack, parts, follow, budget) == Resolve(b, stack, parts, follow, budget)
    decreases budget, |parts|
  {
    if parts == [] || !IsDir(a, Top(stack)) {
    } else {
      assert SameShapeNode(a[Top(stack)], b[Top(stack)]);
      if parts[0] == "" || parts[0] == "." {
        ResolveSeesShape(a, b, stack, parts[1..], follow, budget);
      } else if parts[0] == ".." {
        if |stack| > 1 {
          ResolveSeesShape(a, b, stack[..|stack| - 1], parts[1..], follow, budget);
        }
      } else if parts[0] in a[Top(stack)].entries && a[Top(stack)].entries[parts[0]] in a {
        var ino := a[Top(stack)].entries[parts[0]];
        assert SameShapeNode(a[ino], b[ino]);
        if Follows(a, ino, |parts| == 1, follow) {
          var target := a[ino].target;
          if target != "" && target[0] != '/' && budget > 0 {
            ResolveSeesShape(a, b, stack, Split(target) + parts[1..], follow, budget - 1);
          }
        } else {
          ResolveSeesShape(a, b, stack + [ino], parts[1..], follow, budget);
        }
      }
    }
  }

  lemma {:induction false} SetNodeKeepsShape(n: Node, attrs: AttrSet, sizable: bool, w: World)
    ensures SameShapeNode(n, SetNode(n, attrs, sizable, w).0)
  {
    hide Resize;
  }

  /** Every attribute asked for is on the node when the answer is good; permissions are cut to nine bits. */
  lemma {:induction false} SetNodeSets(n: Node, attrs: AttrSet, sizable: bool, w: World)
    requires SetNode(n, attrs, sizable, w).1 == Good
    ensures var r := AttributesOf(SetNode(n, attrs, sizable, w).0);
            && (attrs.permissions.Some? ==> r.meta.permissions == attrs.permissions.value % 512)
            && (attrs.permissions.None? ==> r.meta.permissions == n.meta.permissions)
            && (attrs.size.Some? ==> r.size == attrs.size.value)
            && (attrs.size.None? ==> r.size == AttributesOf(n).size)
            && (attrs.accessed.Some? ==> r.meta.accessed == attrs.accessed.value)
            && (attrs.modified.Some? && attrs.size.None? ==> r.meta.modified == attrs.modified.value)
            && r.meta.owner == n.meta.owner
  {
  }

  /** Attributes set through a path are the attributes then reported for that path. */
  lemma {:induction false} SetStatIsReported(s: Session, path: Path, attrs: AttrSet, w: World, w': World)
    requires SetStatPath(s, path, attrs, w).reply == Answer(Good) && Asks(attrs) && w'.Fault(0).None?
    ensures var r := StatPath(SetStatPath(s, path, attrs, w).session, path, true, w');
            && r.Attrs?
            && (attrs.permissions.Some? ==> r.attrs.meta.permissions == attrs.permissions.value % 512)
            && (attrs.size.Some? ==> r.attrs.size == attrs.size.value)
            && (attrs.accessed.Some? ==> r.attrs.meta.accessed == attrs.accessed.value)
            && (attrs.modified.Some? && attrs.size.None? ==> r.attrs.meta.modified == attrs.modified.value)
  {
    hide Lookup, SetNode;
    var actual := if s.mode.DropBox() then s.wrote[path] else path;
    var ino := Lookup(s.fs, actual, true).value;
    var s' := SetStatPath(s, path, attrs, w).session;
    SetNodeSets(s.fs[ino], attrs, true, w);
    assert SameShape(s.fs, s'.fs) by {
      SetNodeKeepsShape(s.fs[ino], attrs, true, w);
    }
    assert Lookup(s'.fs, actual, true) == Lookup(s.fs, actual, true) by { LookupSeesShape(s.fs, s'.fs, actual, true); }
  }

  lemma {:induction false} LookupSeesShape(a: Tree, b: Tree, path: Path, follow: bool)
    requires SameShape(a, b)
    ensures Lookup(a, path, follow) == Lookup(b, path, follow)
  {
    ResolveSeesShape(a, b, [ROOT], path, follow, MAX_LINKS);
  }
}
