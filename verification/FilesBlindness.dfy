/**
 The flat drop box tells its client nothing about what is in the directory: two sessions over any two
 directories answer the same requests alike.
 */
module FilesBlindness {
  import opened Common
  import opened Paths
  import opened FileSystem
  import opened FilesPolicy
  import opened FilesSafety

  /** The attributes of the directory itself say only that it is one. */
  function Blurred(r: Reply): Reply {
    if r.Attrs? && r.attrs.kind == Directory then Attrs(Attributes(Directory, 0, Meta(0, 0, 0, 0))) else r
  }

  function Replies(s: Session, events: seq<Event>): seq<Reply>
    decreases |events|
  {
    if events == [] then []
    else
      var o := Step(s, events[0].0, events[0].1);
      [Blurred(o.reply)] + Replies(o.session, events[1..])
  }

  /** The unique name drawn for this request is not taken in the directory. */
  ghost predicate NoClash(s: Session, r: Request, w: World) {
    r.Open? && Clean(r.filename).Some? && |Clean(r.filename).value| == 1 && IsDir(s.fs, ROOT) ==>
      Unique(Clean(r.filename).value, w.stamp)[0] !in s.fs[ROOT].entries
  }

  ghost predicate NeverClashes(s: Session, events: seq<Event>)
    decreases |events|
  {
    events == [] ||
    (NoClash(s, events[0].0, events[0].1)
     && NeverClashes(Step(s, events[0].0, events[0].1).session, events[1..]))
  }

  ghost predicate RootEntry(fs: Tree, name: Name, ino: Ino) {
    IsDir(fs, ROOT) && name in fs[ROOT].entries && fs[ROOT].entries[name] == ino
  }

  /** What the two directories must share: the nodes the session made, all of them files. */
  ghost predicate SameNew(a: Tree, b: Tree, created: nat) {
    && IsDir(a, ROOT) && IsDir(b, ROOT)
    && (forall i :: i in a && i.New? ==> i.id < created && i in b && a[i] == b[i] && a[i].File?)
    && (forall i :: i in b && i.New? ==> i in a)
  }

  /** Both directories hold the remembered file under the same name. */
  ghost predicate SharedTarget(a: Tree, b: Tree, path: Path) {
    && |path| == 1 && Plain(path[0])
    && exists i: Ino :: i.New? && i in a && RootEntry(a, path[0], i) && RootEntry(b, path[0], i)
  }

  ghost predicate Twins(a: Session, b: Session) {
    && a.mode == WriteOnly
    && b == a.(fs := b.fs)
    && SameNew(a.fs, b.fs, a.created)
    && (forall h :: h in a.handles ==> OwnHandle(a.fs, a.handles[h]))
    && (forall p :: p in a.wrote ==> p != [] && SharedTarget(a.fs, b.fs, a.wrote[p]))
  }

  ghost predicate Alike(a: Outcome, b: Outcome) {
    Twins(a.session, b.session) && Blurred(a.reply) == Blurred(b.reply)
  }

  lemma {:induction false} LookupHere(fs: Tree, name: Name, ino: Ino, follow: bool)
    requires Plain(name) && RootEntry(fs, name, ino) && ino in fs && !fs[ino].Link?
    ensures Lookup(fs, [name], follow) == Done(ino)
  {
    assert [name][1..] == [];
    assert Resolve(fs, [ROOT] + [ino], [], follow, MAX_LINKS) == Done([ROOT] + [ino]);
  }

  lemma {:induction false} TargetsAlike(a: Session, b: Session, p: Path, follow: bool)
    requires Twins(a, b) && p in a.wrote
    ensures Lookup(a.fs, a.wrote[p], follow) == Lookup(b.fs, b.wrote[p], follow)
    ensures Lookup(a.fs, a.wrote[p], follow).Done?
    ensures var i := Lookup(a.fs, a.wrote[p], follow).value; i.New? && i in a.fs
  {
    var path := a.wrote[p];
    assert SharedTarget(a.fs, b.fs, path);
    var i: Ino :| i.New? && i in a.fs && RootEntry(a.fs, path[0], i) && RootEntry(b.fs, path[0], i);
    assert path == [path[0]];
    LookupHere(a.fs, path[0], i, follow);
    LookupHere(b.fs, path[0], i, follow);
  }

  lemma {:induction false} StatAlike(a: Session, b: Session, path: string, follow: bool, w: World)
    requires Twins(a, b)
    ensures Blurred(Statted(a, path, follow, w)) == Blurred(Statted(b, path, follow, w))
  {
    hide SharedTarget, OwnHandle, Lookup;
    if Clean(path).Some? {
      var p := Clean(path).value;
      if p in a.wrote {
        TargetsAlike(a, b, p, follow);
      } else if p == [] {
        RootLookup(a.fs, follow);
        RootLookup(b.fs, follow);
      }
    }
  }

  lemma {:induction false} RootLookup(fs: Tree, follow: bool)
    ensures Lookup(fs, [], follow) == Done(ROOT)
  {
  }

  /** Directories that changed alike, keeping what the root holds, still look the same to the session. */
  lemma {:induction false} TwinsMove(a: Session, b: Session, fa: Tree, fb: Tree, created: nat)
    requires Twins(a, b) && SameNew(fa, fb, created)
    requires forall i :: i in a.fs && i.New? ==> i in fa && fa[i].File?
    requires forall n, i :: RootEntry(a.fs, n, i) ==> RootEntry(fa, n, i)
    requires forall n, i :: RootEntry(b.fs, n, i) ==> RootEntry(fb, n, i)
    ensures Twins(a.(fs := fa, created := created), b.(fs := fb, created := created))
  {
    hide RootEntry, Plain;
    forall p | p in a.wrote
      ensures SharedTarget(fa, fb, a.wrote[p])
    {
      assert SharedTarget(a.fs, b.fs, a.wrote[p]);
      var n := a.wrote[p][0];
      var i: Ino :| i.New? && i in a.fs && RootEntry(a.fs, n, i) && RootEntry(b.fs, n, i);
      assert i in fa && RootEntry(fa, n, i) && RootEntry(fb, n, i);
    }
    forall h | h in a.handles
      ensures OwnHandle(fa, a.handles[h])
    {
      assert OwnHandle(a.fs, a.handles[h]);
    }
  }

  /** Changing a created file the same way on both sides. */
  lemma {:induction false} UpdateTwins(a: Session, b: Session, ino: Ino, node: Node)
    requires Twins(a, b) && ino.New? && ino in a.fs && node.File?
    ensures Twins(a.(fs := a.fs[ino := node]), b.(fs := b.fs[ino := node]))
  {
    hide SharedTarget, OwnHandle;
    var fa, fb := a.fs[ino := node], b.fs[ino := node];
    TwinsMove(a, b, fa, fb, a.created);
    assert a.(fs := fa) == a.(fs := fa, created := a.created);
    assert b.(fs := fb) == b.(fs := fb, created := a.created);
  }

  lemma {:induction false} CreateHere(fs: Tree, name: Name, ino: Ino, node: Node)
    requires IsDir(fs, ROOT) && name !in fs[ROOT].entries
    ensures Create(fs, [name], ino, node) == Done(WithEntry(fs, ROOT, name, ino, node))
  {
    assert [name][..0] == [];
  }

  lemma {:induction false} CreationTwins(a: Session, b: Session, requested: Path, name: Name, node: Node)
    requires Twins(a, b) && Plain(name) && node.File? && requested != []
    requires name !in a.fs[ROOT].entries && name !in b.fs[ROOT].entries
    ensures var ino := New(a.created);
            Twins(Created(a, requested, [name], WithEntry(a.fs, ROOT, name, ino, node)),
                  Created(b, requested, [name], WithEntry(b.fs, ROOT, name, ino, node)))
  {
    hide Plain, OwnHandle;
    var ino := New(a.created);
    var fa, fb := WithEntry(a.fs, ROOT, name, ino, node), WithEntry(b.fs, ROOT, name, ino, node);
    EntryTwins(a, b, name, ino, node);
    assert RootEntry(fa, name, ino) && RootEntry(fb, name, ino);
    assert SharedTarget(fa, fb, [name]);
  }

  lemma {:induction false} EntryTwins(a: Session, b: Session, name: Name, ino: Ino, node: Node)
    requires Twins(a, b) && node.File? && ino == New(a.created)
    requires name !in a.fs[ROOT].entries && name !in b.fs[ROOT].entries
    ensures var fa, fb := WithEntry(a.fs, ROOT, name, ino, node), WithEntry(b.fs, ROOT, name, ino, node);
            ino in fa && Twins(a.(fs := fa, created := a.created + 1), b.(fs := fb, created := a.created + 1))
  {
    hide SharedTarget, OwnHandle;
    var fa, fb := WithEntry(a.fs, ROOT, name, ino, node), WithEntry(b.fs, ROOT, name, ino, node);
    assert ino !in a.fs && ino !in b.fs;
    assert SameNew(fa, fb, a.created + 1);
    TwinsMove(a, b, fa, fb, a.created + 1);
  }

  lemma {:induction false} HandleTwins(a: Session, b: Session, ino: Ino)
    requires Twins(a, b) && ino.New? && ino in a.fs && a.fs[ino].File?
    ensures Alike(AddHandle(a, FileHandle(ino, false, true)), AddHandle(b, FileHandle(ino, false, true)))
  {
    hide SharedTarget, SameNew;
    var h := FileHandle(ino, false, true);
    assert OwnHandle(a.fs, h);
  }

  lemma {:induction false} OpenAlike(a: Session, b: Session, filename: string, flags: Flags, w: World)
    requires Twins(a, b)
    requires NoClash(a, Open(filename, flags), w) && NoClash(b, Open(filename, flags), w)
    ensures Alike(OpenStep(a, filename, flags, w), OpenStep(b, filename, flags, w))
  {
    hide SharedTarget, OwnHandle, Plain, UniqueName, Create, WithEntry;
    if Clean(filename).Some? && |Clean(filename).value| == 1 {
      var path := Clean(filename).value;
      var actual := Unique(path, w.stamp);
      var name, ino, node := actual[0], New(a.created), File([], w.newMeta);
      CleanIsPlain(filename);
      UniqueIsPlain(path, w.stamp);
      assert actual == [name] && name in actual;
      CreateHere(a.fs, name, ino, node);
      CreateHere(b.fs, name, ino, node);
      CreationTwins(a, b, path, name, node);
      var fa, fb := WithEntry(a.fs, ROOT, name, ino, node), WithEntry(b.fs, ROOT, name, ino, node);
      assert ino in fa && fa[ino] == node by { Entered(a.fs, name, ino, node); }
      HandleTwins(Created(a, path, actual, fa), Created(b, path, actual, fb), ino);
    }
  }

  lemma {:induction false} Entered(fs: Tree, name: Name, ino: Ino, node: Node)
    requires IsDir(fs, ROOT)
    ensures ino in WithEntry(fs, ROOT, name, ino, node) && WithEntry(fs, ROOT, name, ino, node)[ino] == node
  {
  }

  lemma {:induction false} SetAlike(a: Session, b: Session, ino: Ino, attrs: AttrSet, w: World)
    requires Twins(a, b) && ino.New? && ino in a.fs
    ensures Alike(SetIno(a, ino, attrs, true, w), SetIno(b, ino, attrs, true, w))
  {
    hide SharedTarget, OwnHandle, SetNode;
    UpdateTwins(a, b, ino, SetNode(a.fs[ino], attrs, true, w).0);
  }

  lemma {:induction false} HandlesAlike(a: Session, b: Session, handle: nat, offset: nat, data: Bytes,
                                        attrs: AttrSet, w: World)
    requires Twins(a, b)
    ensures Alike(WriteStep(a, handle, offset, data, w), WriteStep(b, handle, offset, data, w))
    ensures Alike(FSetStatStep(a, handle, attrs, w), FSetStatStep(b, handle, attrs, w))
    ensures Alike(FstatStep(a, handle, w), FstatStep(b, handle, w))
    ensures Alike(CloseStep(a, handle), CloseStep(b, handle))
    ensures Alike(ReadDirStep(a, handle), ReadDirStep(b, handle))
  {
    hide SharedTarget, SetNode, Written, SetIno;
    if handle in a.handles {
      var ino := a.handles[handle].ino;
      assert OwnHandle(a.fs, a.handles[handle]);
      SetAlike(a, b, ino, attrs, w);
      var landed := if w.Fault(0).Some? then data[..Min(w.landed, |data|)] else data;
      UpdateTwins(a, b, ino, Written(a.fs[ino], offset, landed, w.now));
    }
  }

  lemma {:induction false} SetStatAlike(a: Session, b: Session, path: Path, attrs: AttrSet, w: World)
    requires Twins(a, b)
    ensures Alike(SetStatPath(a, path, attrs, w), SetStatPath(b, path, attrs, w))
  {
    hide SharedTarget, OwnHandle, SetIno, Lookup;
    if path in a.wrote {
      TargetsAlike(a, b, path, true);
      SetAlike(a, b, Lookup(a.fs, a.wrote[path], true).value, attrs, w);
    }
  }

  /** The requests this mode refuses, or answers from the request alone. */
  lemma {:induction false} OthersAlike(a: Session, b: Session, r: Request, w: World)
    requires Twins(a, b)
    requires !r.Open? && !r.Close? && !r.Write? && !r.Fstat? && !r.Stat? && !r.Lstat? && !r.SetStat?
             && !r.FSetStat? && !r.ReadDir?
    ensures Alike(Serve(a, r, w), Serve(b, r, w))
  {
    hide SharedTarget, SameNew, OwnHandle, Join, Clean;
    hide OpenStep, CloseStep, WriteStep, SetStatPath, FSetStatStep, ReadDirStep, FstatStep, Statted;
  }

  lemma {:induction false} ServeAlike(a: Session, b: Session, r: Request, w: World)
    requires Twins(a, b) && NoClash(a, r, w) && NoClash(b, r, w)
    ensures Alike(Serve(a, r, w), Serve(b, r, w))
  {
    hide NoClash, SharedTarget, SameNew, OwnHandle, Clean;
    hide OpenStep, CloseStep, WriteStep, SetStatPath, FSetStatStep, ReadDirStep, FstatStep, Statted;
    hide ReadStep, OpenDirStep, RealPathStep, MkDirStep, HostStep, ReadLinkStep, PosixRenameStep, HardLinkStep,
      FsyncStep;
    var none := AttrSet(None, None, None, None);
    match r
    case Open(filename, flags) => OpenAlike(a, b, filename, flags, w);
    case Close(handle) => HandlesAlike(a, b, handle, 0, [], none, w);
    case Write(handle, offset, data) => HandlesAlike(a, b, handle, offset, data, none, w);
    case Fstat(handle) => HandlesAlike(a, b, handle, 0, [], none, w);
    case Stat(path) => StatAlike(a, b, path, true, w);
    case Lstat(path) => StatAlike(a, b, path, false, w);
    case SetStat(path, attrs) =>
      if Clean(path).Some? {
        SetStatAlike(a, b, Clean(path).value, attrs, w);
      }
    case FSetStat(handle, attrs) => HandlesAlike(a, b, handle, 0, [], attrs, w);
    case ReadDir(handle) => HandlesAlike(a, b, handle, 0, [], none, w);
    case _ => OthersAlike(a, b, r, w);
  }

  lemma {:induction false} StepAlike(a: Session, b: Session, r: Request, w: World)
    requires Twins(a, b) && NoClash(a, r, w) && NoClash(b, r, w)
    ensures Alike(Step(a, r, w), Step(b, r, w))
  {
    hide NoClash, SharedTarget, SameNew, OwnHandle, Serve;
    ServeAlike(a, b, r, w);
  }

  lemma {:induction false} RepliesAlike(a: Session, b: Session, events: seq<Event>)
    requires Twins(a, b) && NeverClashes(a, events) && NeverClashes(b, events)
    ensures Replies(a, events) == Replies(b, events)
    decreases |events|
  {
    hide Twins, NoClash, Step;
    if events == [] {
    } else {
      StepAlike(a, b, events[0].0, events[0].1);
      RepliesAlike(Step(a, events[0].0, events[0].1).session, Step(b, events[0].0, events[0].1).session, events[1..]);
    }
  }

  /** The replies compared are those of the run, one to each request, but for the attributes of a directory. */
  lemma {:induction false} RepliesAreTheAnswers(s: Session, events: seq<Event>, i: nat)
    requires i < |events|
    ensures |Replies(s, events)| == |events|
    ensures var r := Step(Run(s, events[..i]), events[i].0, events[i].1).reply;
      Replies(s, events)[i]
      == if r.Attrs? && r.attrs.kind.Directory? then Attrs(Attributes(Directory, 0, Meta(0, 0, 0, 0))) else r
    decreases |events|
  {
    hide Step;
    var rest := events[1..];
    var s' := Step(s, events[0].0, events[0].1).session;
    if rest == [] {
      assert Replies(s', rest) == [];
    } else {
      RepliesAreTheAnswers(s', rest, if i > 0 then i - 1 else 0);
    }
    if i > 0 {
      assert events[..i][1..] == rest[..i - 1] && events[..i][0] == events[0];
      assert Run(s, events[..i]) == Run(s', rest[..i - 1]);
    } else {
      assert events[..i] == [];
    }
  }

  /**
   In `wo` mode the whole reply sequence is the same over any two directories, when the random suffixes collide
   with a name in neither.
   */
  lemma {:induction false} DropBoxIsBlind(fsA: Tree, fsB: Tree, events: seq<Event>)
    requires Before(fsA) && Before(fsB) && IsDir(fsA, ROOT) && IsDir(fsB, ROOT)
    requires NeverClashes(Start(WriteOnly, fsA), events) && NeverClashes(Start(WriteOnly, fsB), events)
    ensures Replies(Start(WriteOnly, fsA), events) == Replies(Start(WriteOnly, fsB), events)
  {
    hide NeverClashes, Replies;
    RepliesAlike(Start(WriteOnly, fsA), Start(WriteOnly, fsB), events);
  }
}
