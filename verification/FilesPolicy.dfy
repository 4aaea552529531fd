/**
 One SFTP session over a shared directory: the answer to every request of draft-ietf-secsh-filexfer-02 and
 what it does to the directory, for the four access modes.
 */
module FilesPolicy {
  import opened Common
  import opened Paths
  import opened FileSystem
  import opened Listings
  import opened Texts

  const READ_LIMIT: nat := 256 * 1024
  const PAGE: nat := 64

  datatype Mode = ReadOnly | ReadWrite | WriteOnly | WriteOnlyPlus {
    predicate DropBox() {
      this == WriteOnly || this == WriteOnlyPlus
    }
  }

  datatype Flags = Flags(read: bool, write: bool, append: bool, create: bool, truncate: bool, exclude: bool) {
    predicate Mutating() {
      write || append || create || truncate || exclude
    }
  }

  datatype AttrSet = AttrSet(size: Option<nat>, permissions: Option<nat>,
                             accessed: Option<nat>, modified: Option<nat>)

  datatype Kind = Regular | Directory | Symbolic

  datatype Attributes = Attributes(kind: Kind, size: nat, meta: Meta)

  datatype Status =
    | Good | Eof | NoSuchFile | Denied | Failure | BadMessage | OpUnsupported

  /** A handle's text is the decimal form of a counter; 0 stands for any text that is not such a number. */
  datatype Request =
    | Init
    | Open(filename: string, flags: Flags)
    | Close(handle: nat)
    | Read(handle: nat, offset: nat, len: nat)
    | Write(handle: nat, offset: nat, data: Bytes)
    | Fstat(handle: nat)
    | Stat(path: string)
    | Lstat(path: string)
    | SetStat(path: string, attrs: AttrSet)
    | FSetStat(handle: nat, attrs: AttrSet)
    | OpenDir(path: string)
    | ReadDir(handle: nat)
    | RealPath(path: string)
    | MkDir(path: string)
    | Remove(path: string)
    | RmDir(path: string)
    | Rename(from: string, to: string)
    | ReadLink(path: string)
    | Symlink(target: string, link: string)
    | PosixRename(first: Option<string>, second: Option<string>)
    | HardLink(first: Option<string>, second: Option<string>)
    | Fsync(file: Option<nat>)
    | OtherExtension(readable: bool)
    | OtherRequest

  datatype Reply =
    | Version
    | Answer(status: Status)
    | Handed(handle: nat)
    | Octets(data: Bytes)
    | Attrs(attrs: Attributes)
    | Names(entries: seq<(Name, Attributes)>)
    | OneName(name: string)

  datatype Handle =
    | FileHandle(ino: Ino, readable: bool, writable: bool)
    | DirHandle(entries: seq<(Name, Attributes)>, next: nat)

  /** Text drawn for a unique name: the time and sixteen random hexadecimal digits. */
  type Stamp = s: string | |s| > 1 && '/' !in s && '\0' !in s witness "00"

  /**
   What one request finds outside the session: which of its system calls fail, the drawn stamp, the attributes
   of a node it creates, the clock, how much of a failing write lands, the order of a listing, and in read-write
   mode the outcome of the operations passed straight to the host.
   */
  datatype World = World(faults: seq<Option<IoError>>, stamp: Stamp, newMeta: Meta, now: nat, landed: nat,
                         order: seq<Name>, host: Tree, hostFile: Io<Ino>, hostStatus: Status) {
    function Fault(k: nat): Option<IoError> {
      if k < |faults| then faults[k] else None
    }
  }

  datatype Session = Session(mode: Mode, wrote: map<Path, Path>, handles: map<nat, Handle>, nextHandle: nat,
                             initialized: bool, fs: Tree, created: nat) {
    predicate IsFile(handle: nat) {
      handle in handles && handles[handle].FileHandle?
    }
  }

  datatype Outcome = Outcome(session: Session, reply: Reply)

  function Start(mode: Mode, fs: Tree): Session {
    Session(mode, map[], map[], 0, false, fs, 0)
  }

  function StatusOf(e: IoError): Status {
    match e
    case NotFound => NoSuchFile
    case PermissionDenied => Denied
    case Unsupported => OpUnsupported
    case _ => Failure
  }

  function Refuse(s: Session, status: Status): Outcome {
    Outcome(s, Answer(status))
  }

  // ---- Attributes ----

  function AttributesOf(n: Node): Attributes {
    match n
    case File(content, meta) => Attributes(Regular, |content|, meta)
    case Dir(_, meta) => Attributes(Directory, 0, meta)
    case Link(target, meta) => Attributes(Symbolic, |target|, meta)
  }

  function NodeReply(fs: Tree, ino: Ino): Reply {
    if ino in fs then Attrs(AttributesOf(fs[ino])) else Answer(Failure)
  }

  function Metadata(fs: Tree, path: Path, follow: bool, w: World): Reply {
    if w.Fault(0).Some? then Answer(StatusOf(w.Fault(0).value))
    else
      match Lookup(fs, path, follow)
      case Failed(e) => Answer(StatusOf(e))
      case Done(ino) => NodeReply(fs, ino)
  }

  function StatPath(s: Session, path: Path, follow: bool, w: World): Reply {
    if !s.mode.DropBox() then Metadata(s.fs, path, follow, w)
    else if path in s.wrote then Metadata(s.fs, s.wrote[path], follow, w)
    else if s.mode == WriteOnly && path != [] then Answer(NoSuchFile)
    else
      var r := Metadata(s.fs, path, follow, w);
      if r.Attrs? && r.attrs.kind == Directory then r else Answer(NoSuchFile)
  }

  function Statted(s: Session, path: string, follow: bool, w: World): Reply {
    match Clean(path)
    case None => Answer(BadMessage)
    case Some(p) => StatPath(s, p, follow, w)
  }

  predicate Asks(a: AttrSet) {
    a.permissions.Some? || a.accessed.Some? || a.modified.Some? || a.size.Some?
  }

  function WithPermissions(n: Node, mode: nat): Node {
    n.(meta := n.meta.(permissions := mode % 512))
  }

  function WithTimes(n: Node, accessed: Option<nat>, modified: Option<nat>): Node {
    var a := if accessed.Some? then accessed.value else n.meta.accessed;
    var m := if modified.Some? then modified.value else n.meta.modified;
    n.(meta := n.meta.(accessed := a, modified := m))
  }

  function WithSize(n: Node, size: nat, now: nat): Node
    requires n.File?
  {
    n.(content := Resize(n.content, size), meta := n.meta.(modified := now))
  }

  /** Permissions, then times, then size; the first failure stops, and what came before it stays. */
  function SetNode(n: Node, attrs: AttrSet, sizable: bool, w: World): (r: (Node, Status))
    ensures SameKind(n, r.0) || n.Link?
  {
    if attrs.permissions.Some? && w.Fault(0).Some? then (n, StatusOf(w.Fault(0).value))
    else
      var n := if attrs.permissions.Some? then WithPermissions(n, attrs.permissions.value) else n;
      var timed := attrs.accessed.Some? || attrs.modified.Some?;
      if timed && w.Fault(1).Some? then (n, StatusOf(w.Fault(1).value))
      else
        var n := if timed then WithTimes(n, attrs.accessed, attrs.modified) else n;
        if attrs.size.None? then (n, Good)
        else if w.Fault(2).Some? then (n, StatusOf(w.Fault(2).value))
        else if !n.File? || !sizable then (n, Failure)
        else (WithSize(n, attrs.size.value, w.now), Good)
  }

  function SetIno(s: Session, ino: Ino, attrs: AttrSet, sizable: bool, w: World): Outcome {
    if ino !in s.fs then Refuse(s, Failure)
    else
      var r := SetNode(s.fs[ino], attrs, sizable, w);
      Outcome(s.(fs := s.fs[ino := r.0]), Answer(r.1))
  }

  function SetStatPath(s: Session, path: Path, attrs: AttrSet, w: World): Outcome {
    if s.mode == ReadOnly || (s.mode.DropBox() && path !in s.wrote) then Refuse(s, Denied)
    else if !Asks(attrs) then Refuse(s, Good)
    else
      match Lookup(s.fs, if s.mode.DropBox() then s.wrote[path] else path, true)
      case Failed(e) => Refuse(s, StatusOf(e))
      case Done(ino) => SetIno(s, ino, attrs, true, w)
  }

  function FSetStatStep(s: Session, handle: nat, attrs: AttrSet, w: World): Outcome {
    if s.mode == ReadOnly then Refuse(s, Denied)
    else if !s.IsFile(handle) then Refuse(s, Failure)
    else if s.mode.DropBox() && !s.handles[handle].writable then Refuse(s, Denied)
    else SetIno(s, s.handles[handle].ino, attrs, s.handles[handle].writable, w)
  }

  // ---- Opening ----

  /** Where the extension starts, its dot included. */
  function LastDot(name: string): (i: nat)
    ensures i <= |name|
  {
    FindLast(name, '.')
  }

  function UniqueName(base: string, stamp: Stamp): string {
    var i := LastDot(base);
    base[..i] + "." + stamp + base[i..]
  }

  function Unique(path: Path, stamp: Stamp): (r: Path)
    ensures r != []
  {
    if path == [] then [UniqueName("", stamp)]
    else path[..|path| - 1] + [UniqueName(path[|path| - 1], stamp)]
  }

  function TryCreate(s: Session, path: Path, node: Node, w: World, call: nat): Io<Tree> {
    if w.Fault(call).Some? then Failed(w.Fault(call).value)
    else Create(s.fs, path, New(s.created), node)
  }

  function AddHandle(s: Session, h: Handle): Outcome {
    var n := s.nextHandle + 1;
    Outcome(s.(nextHandle := n, handles := s.handles[n := h]), Handed(n))
  }

  /** Remembers where the client's name really went. */
  function Created(s: Session, requested: Path, actual: Path, fs: Tree): Session {
    s.(fs := fs, created := s.created + 1, wrote := s.wrote[requested := actual])
  }

  function CreateFile(s: Session, requested: Path, actual: Path, w: World, call: nat): Outcome {
    match TryCreate(s, actual, File([], w.newMeta), w, call)
    case Failed(e) => Refuse(s, StatusOf(e))
    case Done(fs) => AddHandle(Created(s, requested, actual, fs), FileHandle(New(s.created), false, true))
  }

  function OpenDropBox(s: Session, requested: Path, flags: Flags, w: World): Outcome {
    if flags.read || !flags.write || !flags.create then Refuse(s, Denied)
    else if s.mode == WriteOnly then
      if |requested| != 1 then Refuse(s, Denied)
      else CreateFile(s, requested, Unique(requested, w.stamp), w, 0)
    else if TryCreate(s, requested, File([], w.newMeta), w, 0) == Failed(AlreadyExists) then
      CreateFile(s, requested, Unique(requested, w.stamp), w, 1)
    else CreateFile(s, requested, requested, w, 0)
  }

  function OpenExisting(s: Session, path: Path, flags: Flags, w: World): Outcome {
    if !flags.read then Refuse(s, Failure)
    else if w.Fault(0).Some? then Refuse(s, StatusOf(w.Fault(0).value))
    else
      match Lookup(s.fs, path, true)
      case Failed(e) => Refuse(s, StatusOf(e))
      case Done(ino) => AddHandle(s, FileHandle(ino, true, false))
  }

  function OpenOnHost(s: Session, flags: Flags, w: World): Outcome {
    match w.hostFile
    case Failed(e) => Outcome(s.(fs := w.host), Answer(StatusOf(e)))
    case Done(ino) => AddHandle(s.(fs := w.host), FileHandle(ino, flags.read, flags.write))
  }

  function OpenStep(s: Session, filename: string, flags: Flags, w: World): Outcome {
    if s.mode == ReadOnly && flags.Mutating() then Refuse(s, Denied)
    else
      match Clean(filename)
      case None => Refuse(s, BadMessage)
      case Some(path) =>
        if s.mode.DropBox() then OpenDropBox(s, path, flags, w)
        else if flags.Mutating() then OpenOnHost(s, flags, w)
        else OpenExisting(s, path, flags, w)
  }

  function MkDirStep(s: Session, path: string, w: World): Outcome {
    if s.mode == ReadOnly || s.mode == WriteOnly then Refuse(s, Denied)
    else
      match Clean(path)
      case None => Refuse(s, BadMessage)
      case Some(p) =>
        match TryCreate(s, p, Dir(map[], w.newMeta), w, 0)
        case Failed(e) => Refuse(s, StatusOf(e))
        case Done(fs) =>
          if s.mode.DropBox() then Outcome(Created(s, p, p, fs), Answer(Good))
          else Outcome(s.(fs := fs, created := s.created + 1), Answer(Good))
  }

  // ---- Reading and writing ----

  function ReadStep(s: Session, handle: nat, offset: nat, len: nat, w: World): Outcome {
    if s.mode.DropBox() || !s.IsFile(handle) || !s.handles[handle].readable then Refuse(s, Denied)
    else if w.Fault(0).Some? then Refuse(s, StatusOf(w.Fault(0).value))
    else
      var ino := s.handles[handle].ino;
      if ino !in s.fs || !s.fs[ino].File? then Refuse(s, Failure)
      else
        var content := s.fs[ino].content;
        var n := Min(Min(len, READ_LIMIT), |content| - offset);
        if n <= 0 then Refuse(s, Eof) else Outcome(s, Octets(content[offset..offset + n]))
  }

  /** Writing nothing leaves the file as it is, its time included. */
  function Written(n: Node, offset: nat, landed: Bytes, now: nat): (r: Node)
    requires n.File?
    ensures r.File?
  {
    if landed == [] then n else File(Overwrite(n.content, offset, landed), n.meta.(modified := now))
  }

  function WriteStep(s: Session, handle: nat, offset: nat, data: Bytes, w: World): Outcome {
    if !s.IsFile(handle) || !s.handles[handle].writable then Refuse(s, Denied)
    else
      var ino := s.handles[handle].ino;
      if ino !in s.fs || !s.fs[ino].File? then Refuse(s, Failure)
      else
        var landed := if w.Fault(0).Some? then data[..Min(w.landed, |data|)] else data;
        var status := if w.Fault(0).Some? then StatusOf(w.Fault(0).value) else Good;
        Outcome(s.(fs := s.fs[ino := Written(s.fs[ino], offset, landed, w.now)]), Answer(status))
  }

  function CloseStep(s: Session, handle: nat): Outcome {
    if handle !in s.handles then Refuse(s, Failure)
    else Outcome(s.(handles := s.handles - {handle}), Answer(Good))
  }

  function FstatStep(s: Session, handle: nat, w: World): Outcome {
    if !s.IsFile(handle) then Refuse(s, Failure)
    else if w.Fault(0).Some? then Refuse(s, StatusOf(w.Fault(0).value))
    else Outcome(s, NodeReply(s.fs, s.handles[handle].ino))
  }

  function FsyncStep(s: Session, file: Option<nat>, w: World): Outcome {
    match file
    case None => Refuse(s, BadMessage)
    case Some(handle) =>
      if !s.IsFile(handle) then Refuse(s, Failure)
      else if w.Fault(0).Some? then Refuse(s, StatusOf(w.Fault(0).value))
      else Refuse(s, Good)
  }

  // ---- Listing ----

  /** A listing names every entry exactly once. */
  predicate Lists(order: seq<Name>, entries: map<Name, Ino>) {
    && (forall n :: n in order ==> n in entries)
    && (forall n :: n in entries ==> n in order)
    && (forall i, j :: 0 <= i < j < |order| ==> order[i] != order[j])
  }

  function Listed(fs: Tree, entries: map<Name, Ino>, order: seq<Name>): (r: seq<(Name, Attributes)>)
    requires forall n :: n in order ==> n in entries && entries[n] in fs
    ensures |r| == |order|
    ensures forall i :: 0 <= i < |r| ==> r[i] == (order[i], AttributesOf(fs[entries[order[i]]]))
  {
    if order == [] then []
    else
      assert order[0] in order;
      [(order[0], AttributesOf(fs[entries[order[0]]]))] + Listed(fs, entries, order[1..])
  }

  function OpenDirStep(s: Session, path: string, w: World): Outcome {
    if s.mode.DropBox() then Refuse(s, Denied)
    else
      match Clean(path)
      case None => Refuse(s, BadMessage)
      case Some(p) =>
        if w.Fault(0).Some? then Refuse(s, StatusOf(w.Fault(0).value))
        else
          match Lookup(s.fs, p, true)
          case Failed(e) => Refuse(s, StatusOf(e))
          case Done(ino) =>
            if !IsDir(s.fs, ino) || !Lists(w.order, s.fs[ino].entries)
               || exists n :: n in w.order && s.fs[ino].entries[n] !in s.fs
            then Refuse(s, Failure)
            else AddHandle(s, DirHandle(ByName(Listed(s.fs, s.fs[ino].entries, w.order)), 0))
  }

  function ReadDirStep(s: Session, handle: nat): Outcome {
    if handle !in s.handles || !s.handles[handle].DirHandle? then Refuse(s, Failure)
    else
      var h := s.handles[handle];
      if h.next >= |h.entries| then Refuse(s, Eof)
      else
        var end := Min(h.next + PAGE, |h.entries|);
        Outcome(s.(handles := s.handles[handle := h.(next := end)]), Names(h.entries[h.next..end]))
  }

  function RealPathStep(s: Session, path: string): Outcome {
    match Clean(path)
    case None => Refuse(s, BadMessage)
    case Some(p) => Outcome(s, OneName(if p == [] then "/" else Join(p)))
  }

  function ReadLinkStep(s: Session, path: string, w: World): Outcome {
    if s.mode.DropBox() then Refuse(s, Denied)
    else
      match Clean(path)
      case None => Refuse(s, BadMessage)
      case Some(p) =>
        if w.Fault(0).Some? then Refuse(s, StatusOf(w.Fault(0).value))
        else
          match Lookup(s.fs, p, false)
          case Failed(e) => Refuse(s, StatusOf(e))
          case Done(ino) =>
            if ino in s.fs && s.fs[ino].Link? then Outcome(s, OneName(s.fs[ino].target)) else Refuse(s, Failure)
  }

  // ---- Operations only read-write mode passes to the host ----

  /** The operands are checked in order after the mode; a NUL in one is a bad message. */
  function HostStep(s: Session, operands: seq<string>, w: World): Outcome {
    if s.mode != ReadWrite then Refuse(s, Denied)
    else if exists p :: p in operands && Clean(p).None? then Refuse(s, BadMessage)
    else Outcome(s.(fs := w.host), Answer(w.hostStatus))
  }

  function PosixRenameStep(s: Session, first: Option<string>, second: Option<string>, w: World): Outcome {
    if first.None? || second.None? then Refuse(s, BadMessage)
    else HostStep(s, [first.value, second.value], w)
  }

  function HardLinkStep(s: Session, first: Option<string>, second: Option<string>, w: World): Outcome {
    if first.None? then Refuse(s, BadMessage)
    else if s.mode != ReadWrite then Refuse(s, Denied)
    else if second.None? then Refuse(s, BadMessage)
    else HostStep(s, [first.value, second.value], w)
  }

  function Step(s: Session, r: Request, w: World): Outcome {
    if r.Init? then
      if s.initialized then Refuse(s, BadMessage) else Outcome(s.(initialized := true), Version)
    else if !s.initialized then Refuse(s, BadMessage)
    else Serve(s, r, w)
  }

  function Serve(s: Session, r: Request, w: World): Outcome {
    match r
    case Init => Refuse(s, BadMessage)
    case Open(filename, flags) => OpenStep(s, filename, flags, w)
    case Close(handle) => CloseStep(s, handle)
    case Read(handle, offset, len) => ReadStep(s, handle, offset, len, w)
    case Write(handle, offset, data) => WriteStep(s, handle, offset, data, w)
    case Fstat(handle) => FstatStep(s, handle, w)
    case Stat(path) => Outcome(s, Statted(s, path, true, w))
    case Lstat(path) => Outcome(s, Statted(s, path, false, w))
    case SetStat(path, attrs) =>
      (match Clean(path)
       case None => Refuse(s, BadMessage)
       case Some(p) => SetStatPath(s, p, attrs, w))
    case FSetStat(handle, attrs) => FSetStatStep(s, handle, attrs, w)
    case OpenDir(path) => OpenDirStep(s, path, w)
    case ReadDir(handle) => ReadDirStep(s, handle)
    case RealPath(path) => RealPathStep(s, path)
    case MkDir(path) => MkDirStep(s, path, w)
    case Remove(path) => HostStep(s, [path], w)
    case RmDir(path) => HostStep(s, [path], w)
    case Rename(from, to) => HostStep(s, [from, to], w)
    case ReadLink(path) => ReadLinkStep(s, path, w)
    case Symlink(target, link) => HostStep(s, [target, link], w)
    case PosixRename(first, second) => PosixRenameStep(s, first, second, w)
    case HardLink(first, second) => HardLinkStep(s, first, second, w)
    case Fsync(file) => FsyncStep(s, file, w)
    case OtherExtension(readable) => Refuse(s, if readable then OpUnsupported else BadMessage)
    case OtherRequest => Refuse(s, OpUnsupported)
  }
}
