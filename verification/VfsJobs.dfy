/**
 The job machine of the file server: what the handler and the resume function do
 with a request, as programs over set_result and nested requests, together with
 what they do to the tree of names.
 */
module VfsJobs {
  import opened Common
  import opened Wrappers
  import opened NamespaceModel
  import NT = NamespaceTheorems
  import CM = CoopModel

  type Port = CM.Port
  type Prog = CM.Prog

  // VFS_COOP_KIND_*
  datatype Kind =
    | Read | Write | Open | Mkdir | Unlink | Stat | Chdir | Faccessat | Rename | HardLink | Getdents | Readlink | Mount

  // VFS_COOP_STEP_*
  datatype At =
    | Begin | AtLookup | AtCreate | AtExisting | AtPostCreate | AtMkdir | AtTruncate | AtUnlink | AtRename | AtLink
    | AtReaddir | AtReadlink

  // The flags of an open; writes says O_WRONLY or O_RDWR
  datatype Flags = Flags(creat: bool, excl: bool, trunc: bool, directory: bool, writes: bool)

  datatype Inode = Inode(isDir: bool, isSymlink: bool, writable: bool, port: Option<Port>)

  // vfs_coop_ctx_t, paths normalized
  datatype Ctx = Ctx(
    kind: Kind,
    step: At,
    path: Path,
    path2: Path,          // the new path of a rename or link
    flags: Flags,
    rmdir: bool,          // AT_REMOVEDIR
    follow: bool,         // follow_symlink
    needCommit: bool,
    count: nat,
    total: nat,
    remaining: nat,
    chunkLen: nat,
    port: Port,
    ino: Inode)

  datatype File = File(isDir: bool, readable: bool, writable: bool, port: Option<Port>)

  // One round of a directory listing: what readdir_prepare and pack_one answer
  datatype Round = Round(prep: int, port: Port, packed: int)

  // What vfs_mount_register_prepare answers
  datatype MountPrep = MountRefused(err: nat) | AlreadyThere | NeedsMkdir(port: Port) | JustCover

  // The answers of everything else during one call of the handler or of resume:
  // memory, ports, permissions, mounts, user memory, handles, inodes.
  datatype Env = Env(
    room: Room,
    backendPort: Path -> Option<Port>,
    mounted: Path -> Option<Port>,     // vfs_mount_view_for_path
    overlayPort: Option<Port>,
    rootPort: Option<Port>,
    perm: Id -> int,                   // vfs_perm_check_mode_request on the node
    pathFits: Id -> bool,              // vfs_ns_path_of
    resolved: Option<Path>,            // the target of the symbolic link at hand
    ino: Inode,                        // what the backend has filled in
    install: int,                      // vfs_open_install
    outcome: int,                      // vfs_store_inode_stat, the access check or the copy of a link's text
    linkText: bool,                    // the link's text is known here
    mount: MountPrep,
    task: bool,
    file: Option<File>,
    memory: bool,
    loads: bool,                       // linux_mm_load_from_user
    stores: bool,
    rounds: nat -> Round)

  // A call ends with a program for the queue, a tree, and the context that is
  // kept if the job is parked.
  datatype Out = Out(prog: Prog, tree: Tree, ctx: Ctx)

  // vfs_coop_finish and return
  function Done(t: Tree, c: Ctx, result: int): Out {
    Out(CM.Finish(result, CM.Return(CM.Handled(0))), t, c)
  }

  // vfs_coop_park_or_eio
  function Park(t: Tree, c: Ctx, port: Port, step: At): Out {
    Out(CM.CallOrFail(port, -EIO), t, c.(step := step, port := port))
  }

  // ---- prepares

  datatype Prep =
    | Refused(err: int)
    | Go(port: Port, commit: bool)
    | Exists(port: Port)   // the caller has to look the file up
    | Local                // no backend is involved

  // vfs_ns_check_parent_writable
  function ParentWritable(t: Tree, env: Env, path: Path): int {
    if path == [] then -EINVAL
    else if Front(path) == [] then env.perm(ROOT)
    else if !DirAt(t, Front(path)) then -ENOENT
    else env.perm(Lookup(t, Front(path)).value)
  }

  // The node of a path, tombstones included
  predicate Live(t: Tree, path: Path) {
    var w := Walk(t, path, true);
    w.Some? && w.value in t.nodes && !t.nodes[w.value].deleted
  }

  // vfs_namespace_mkdir_prepare
  function MkdirPrepare(t: Tree, env: Env, path: Path): Prep {
    if path == [] then Refused(-EEXIST)
    else if env.backendPort(path).None? then Refused(-ENXIO)
    else if env.mounted(path).Some? then Go(env.backendPort(path).value, false)
    else if Live(t, path) then Refused(-EEXIST)
    else if ParentWritable(t, env, path) < 0 then Refused(ParentWritable(t, env, path))
    else Go(env.backendPort(path).value, true)
  }

  // vfs_namespace_create_prepare
  function CreatePrepare(t: Tree, env: Env, path: Path): Prep {
    if env.backendPort(path).None? then Refused(-ENXIO)
    else if env.mounted(path).Some? then Go(env.backendPort(path).value, false)
    else if Live(t, path) then
      var x := Walk(t, path, true).value;
      var n := t.nodes[x];
      if n.isDir then Refused(-EISDIR)
      else if !env.pathFits(x) then Refused(-ENAMETOOLONG)
      else if !n.overlay && !n.inCpio then Refused(-ENOENT)
      else
        var port := if n.overlay then env.overlayPort else env.rootPort;
        if port.None? then Refused(-ENXIO) else Exists(port.value)
    else if ParentWritable(t, env, path) < 0 then Refused(ParentWritable(t, env, path))
    else Go(env.backendPort(path).value, true)
  }

  // vfs_namespace_unlink_prepare
  function UnlinkPrepare(t: Tree, env: Env, path: Path): Prep {
    if path == [] then Refused(-EINVAL)
    else
      var x := Lookup(t, path);
      if x.None? || x.value !in t.nodes then Refused(-ENOENT)
      else if t.nodes[x.value].isDir then Refused(-EISDIR)
      else if env.perm(x.value) < 0 then Refused(env.perm(x.value))
      else if !t.nodes[x.value].overlay then Local
      else if env.backendPort(path).None? then Refused(-ENXIO)
      else Go(env.backendPort(path).value, true)
  }

  // vfs_namespace_rename_prepare
  function RenamePrepare(t: Tree, env: Env, from: Path, dest: Path): Prep {
    if from == [] || dest == [] then Refused(-EINVAL)
    else
      var x := Lookup(t, from);
      if x.None? || x.value !in t.nodes then Refused(-ENOENT)
      else if Lookup(t, dest).Some? then Refused(-EEXIST)
      else if ParentWritable(t, env, dest) < 0 then Refused(ParentWritable(t, env, dest))
      else if !DirAt(t, Front(dest)) then Refused(-ENOENT)
      else if t.nodes[x.value].overlay then
        if env.backendPort(from).None? then Refused(-ENXIO) else Go(env.backendPort(from).value, true)
      else Refused(if t.nodes[x.value].inCpio then -EROFS else -ENOENT)
  }

  // vfs_namespace_link_prepare
  function LinkPrepare(t: Tree, env: Env, from: Path, dest: Path): Prep {
    if from == [] || dest == [] then Refused(-EINVAL)
    else
      var x := Lookup(t, from);
      if x.None? || x.value !in t.nodes then Refused(-ENOENT)
      else if t.nodes[x.value].isDir then Refused(-EPERM)
      else if !t.nodes[x.value].overlay then Refused(if t.nodes[x.value].inCpio then -EXDEV else -ENOENT)
      else if Lookup(t, dest).Some? then Refused(-EEXIST)
      else if ParentWritable(t, env, dest) < 0 then Refused(ParentWritable(t, env, dest))
      else if !DirAt(t, Front(dest)) then Refused(-ENOENT)
      else if env.backendPort(from).None? then Refused(-ENXIO)
      else Go(env.backendPort(from).value, true)
  }

  // vfs_namespace_lookup_prepare; Local is the root, whose inode is made here
  function LookupPrepare(t: Tree, env: Env, path: Path): Prep {
    if path == [] then Local
    else if env.mounted(path).Some? then Go(env.mounted(path).value, false)
    else
      var x := Lookup(t, path);
      if x.None? || x.value !in t.nodes then Refused(-ENOENT)
      else if !env.pathFits(x.value) then Refused(-ENAMETOOLONG)
      else if !t.nodes[x.value].overlay && !t.nodes[x.value].inCpio then Refused(-ENOENT)
      else
        var port := if t.nodes[x.value].overlay then env.overlayPort else env.rootPort;
        if port.None? then Refused(-ENXIO) else Go(port.value, false)
  }

  const ROOT_INODE := Inode(true, false, false, None)

  // ---- starting

  // vfs_coop_finish_lookup_op
  function LookupResult(env: Env, c: Ctx): int {
    match c.kind
    case Stat => env.outcome
    case Chdir => if c.ino.isDir then 0 else -ENOTDIR
    case Faccessat => env.outcome
    case _ => -EINVAL
  }

  // vfs_coop_after_readlink_inode
  function AfterReadlinkInode(t: Tree, env: Env, c: Ctx): Out {
    if !c.ino.isSymlink then Done(t, c, -EINVAL)
    else if env.linkText then Done(t, c, env.outcome)
    else
      var port := if env.mounted(c.path).Some? then env.mounted(c.path) else c.ino.port;
      if port.None? then Done(t, c, -EINVAL) else Park(t, c, port.value, AtReadlink)
  }

  // vfs_coop_after_inode
  function AfterInode(t: Tree, env: Env, c: Ctx): Out {
    if c.kind == Readlink then AfterReadlinkInode(t, env, c)
    else if c.kind != Open then Done(t, c, LookupResult(env, c))
    else if c.flags.creat && c.flags.excl then Done(t, c, -EEXIST)
    else if c.flags.trunc && !c.ino.isDir && c.flags.writes then
      if !c.ino.writable then Done(t, c, -EROFS)
      else if c.ino.port.None? then Done(t, c, -ENXIO)
      else Park(t, c, c.ino.port.value, AtTruncate)
    else Done(t, c, env.install)
  }

  // vfs_coop_open_on_enoent
  function OpenOnEnoent(t: Tree, env: Env, c: Ctx): Out {
    if !c.flags.creat then Done(t, c, -ENOENT)
    else if c.flags.directory then
      match MkdirPrepare(t, env, c.path)
      case Refused(err) => Done(t, c, err)
      case Go(port, commit) => Park(t, c.(needCommit := commit), port, AtMkdir)
      case _ => Done(t, c, -EINVAL)
    else
      match CreatePrepare(t, env, c.path)
      case Refused(err) => Done(t, c, err)
      case Exists(port) => Park(t, c.(needCommit := false), port, AtExisting)
      case Go(port, commit) => Park(t, c.(needCommit := commit), port, AtCreate)
      case _ => Done(t, c, -EINVAL)
  }

  // After an inode is known: vfs_coop_try_follow_symlink and what follows it
  function FollowOrGoOn(t: Tree, env: Env, c: Ctx): Out
    decreases c.follow, 0
  {
    if !c.follow || !c.ino.isSymlink then AfterInode(t, env, c)
    else if env.resolved.None? then Done(t, c, -EINVAL)
    else StartLookup(t, env, c.(path := env.resolved.value, follow := false))
  }

  // vfs_coop_start_lookup
  function StartLookup(t: Tree, env: Env, c: Ctx): Out
    decreases c.follow, 1
  {
    match LookupPrepare(t, env, c.path)
    case Refused(err) => if c.kind == Open && err == -ENOENT then OpenOnEnoent(t, env, c) else Done(t, c, err)
    case Go(port, _) => Park(t, c, port, AtLookup)
    case _ => FollowOrGoOn(t, env, c.(ino := ROOT_INODE))
  }

  // vfs_coop_start_twopath, and the same tail for mkdir
  function StartPrepared(t: Tree, c: Ctx, prep: Prep, step: At): Out {
    match prep
    case Refused(err) => Done(t, c, err)
    case Go(port, commit) => Park(t, c.(needCommit := commit), port, step)
    case _ => Done(t, c, -EINVAL)
  }

  function UnlinkResult(t: Tree, path: Path): int {
    if Lookup(t, path).Some? then 0 else -ENOENT
  }

  function Covered(t: Tree, path: Path, on: bool): Tree { NT.Apply(t, NT.Cover(path, on)) }

  // vfs_coop_start_path
  function StartPath(t: Tree, env: Env, c: Ctx): Out {
    match c.kind
    case Mkdir => StartPrepared(t, c, MkdirPrepare(t, env, c.path), AtMkdir)
    case Unlink =>
      if c.rmdir then Done(t, c, -ENOSYS)
      else if UnlinkPrepare(t, env, c.path) == Local then Done(UnlinkCommit(t, c.path), c, UnlinkResult(t, c.path))
      else StartPrepared(t, c, UnlinkPrepare(t, env, c.path), AtUnlink)
    case Rename => StartPrepared(t, c, RenamePrepare(t, env, c.path, c.path2), AtRename)
    case HardLink => StartPrepared(t, c, LinkPrepare(t, env, c.path, c.path2), AtLink)
    case Mount =>
      (match env.mount
       case MountRefused(err) => Done(t, c, -(err + 1))
       case AlreadyThere => Done(t, c, 0)
       case NeedsMkdir(port) => Park(t, c, port, AtMkdir)
       case JustCover => Done(Covered(t, c.path, true), c, 0))
    case Readlink => if c.count == 0 then Done(t, c, -EINVAL) else StartLookup(t, env, c)
    case _ => StartLookup(t, env, c)
  }

  // ---- going on

  // vfs_coop_finish_after_be
  function AfterBackend(t: Tree, c: Ctx, nested: int, committed: Tree, result: int): Out {
    if nested < 0 then Done(t, c, nested)
    else if c.needCommit then Done(committed, c, result)
    else Done(t, c, 0)
  }

  function RenameResult(t: Tree, from: Path, dest: Path): int {
    if dest == [] then -EINVAL else if RenameOk(t, from, Front(dest)) then 0 else -ENOENT
  }

  function LinkResult(t: Tree, from: Path, dest: Path, room: Room): int {
    if dest == [] then -EINVAL
    else if !RenameOk(t, from, Front(dest)) then -ENOENT
    else if room(t.next) then 0
    else -ENOMEM
  }

  function RenameTree(t: Tree, from: Path, dest: Path): Tree {
    if dest == [] then t else RenameCommit(t, from, Front(dest), Last(dest))
  }

  function LinkTree(t: Tree, from: Path, dest: Path, room: Room): Tree {
    if dest == [] then t else LinkCommit(t, from, Front(dest), Last(dest), room)
  }

  // VFS_COOP_STEP_CREATE
  function AfterCreate(t: Tree, env: Env, c: Ctx, nested: int): Out {
    if nested < 0 then Done(t, c, nested)
    else if c.needCommit && !CreateOk(t, c.path, false, env.room) then
      Done(CreateCommit(t, c.path, false, env.room), c, -ENOMEM)
    else Park(if c.needCommit then CreateCommit(t, c.path, false, env.room) else t, c, c.port, AtPostCreate)
  }

  // VFS_COOP_STEP_MKDIR_BE
  function AfterMkdir(t: Tree, env: Env, c: Ctx, nested: int): Out {
    if c.kind == Mount then Done(Covered(t, c.path, true), c, 0)
    else if nested < 0 then Done(t, c, nested)
    else
      var t1 := if c.needCommit then CreateCommit(t, c.path, true, env.room) else t;
      if c.needCommit && !CreateOk(t, c.path, true, env.room) then Done(t1, c, -ENOMEM)
      else if c.kind == Open then StartLookup(t1, env, c.(follow := false))
      else Done(t1, c, 0)
  }

  // vfs_coop_resume_path
  function ResumePath(t: Tree, env: Env, c: Ctx, nested: int): Out {
    match c.step
    case AtLookup =>
      if nested != 0 then
        if c.kind == Open && nested == -ENOENT then OpenOnEnoent(t, env, c) else Done(t, c, nested)
      else FollowOrGoOn(t, env, c.(ino := env.ino))
    case AtExisting =>
      if nested != 0 then Done(t, c, nested)
      else if !env.ino.writable then Done(t, c, -EEXIST)
      else AfterInode(t, env, c.(ino := env.ino))
    case AtCreate => AfterCreate(t, env, c, nested)
    case AtPostCreate => if nested != 0 then Done(t, c, -EIO) else AfterInode(t, env, c.(ino := env.ino))
    case AtMkdir => AfterMkdir(t, env, c, nested)
    case AtTruncate => Done(t, c, if nested < 0 then nested else env.install)
    case AtUnlink => AfterBackend(t, c, nested, UnlinkCommit(t, c.path), UnlinkResult(t, c.path))
    case AtRename => AfterBackend(t, c, nested, RenameTree(t, c.path, c.path2), RenameResult(t, c.path, c.path2))
    case AtLink =>
      AfterBackend(t, c, nested, LinkTree(t, c.path, c.path2, env.room), LinkResult(t, c.path, c.path2, env.room))
    case AtReadlink => Done(t, c, if nested < 0 then nested else env.outcome)
    case _ => Done(t, c, -EIO)
  }

  // ---- reading and writing

  // vfs_coop_start_rw
  function StartRw(t: Tree, env: Env, c: Ctx): Out {
    if !env.task then Done(t, c, -ESRCH)
    else if env.file.None? then Done(t, c, -EBADF)
    else if env.file.value.isDir then Done(t, c, -EISDIR)
    else if !(if c.kind == Read then env.file.value.readable else env.file.value.writable) then Done(t, c, -EBADF)
    else if env.file.value.port.None? then Done(t, c, 0)
    else if !env.memory then Done(t, c, -ENOMEM)
    else if c.count == 0 then Done(t, c, 0)
    else if c.kind == Write && !env.loads then Done(t, c, -EFAULT)
    else
      Park(t, c.(remaining := c.count, total := 0, chunkLen := Min(c.count, CHUNK)), env.file.value.port.value, Begin)
  }

  // The bytes so far, or the error if there are none
  function Total(total: nat, err: int): int { if total > 0 then total else err }

  // vfs_coop_resume_rw
  function ResumeRw(t: Tree, env: Env, c: Ctx, n: int): Out {
    if !env.task || env.file.None? then Done(t, c, Total(c.total, -EBADF))
    else if n < 0 then Done(t, c, Total(c.total, n))
    else if n == 0 then Done(t, c, c.total)
    else if c.kind == Read && !env.stores then Done(t, c, Total(c.total, -EFAULT))
    else
      var c1 := c.(total := c.total + n, remaining := if c.remaining >= n then c.remaining - n else 0);
      if c1.remaining == 0 || n < c.chunkLen then Done(t, c1, c1.total)
      else if c.kind == Write && !env.loads then Done(t, c1, c1.total)
      else if env.file.value.port.None? then Done(t, c1, Total(c1.total, -EIO))
      else
        Out(CM.CallOrFail(env.file.value.port.value, Total(c1.total, -EIO)), t,
            c1.(chunkLen := Min(c1.remaining, CHUNK)))
  }

  // ---- listing

  // After pack_one: stop, or go on with the next entry
  function AfterPack(t: Tree, env: Env, c: Ctx, i: nat): Out
    decreases if c.total < c.count then c.count - c.total else 0, 1
  {
    var packed := env.rounds(i).packed;
    if packed < 0 then Done(t, c, packed)
    else if packed == 0 then Done(t, c, if c.total == 0 then -EINVAL else c.total)
    else if c.total < c.count then Fill(t, env, c.(total := c.total + packed), i + 1)
    else Done(t, c, c.total + packed)
  }

  // vfs_coop_getdents_fill
  function Fill(t: Tree, env: Env, c: Ctx, i: nat): Out
    decreases if c.total < c.count then c.count - c.total else 0, 2
  {
    if c.total >= c.count then Done(t, c, c.total)
    else
      var r := env.rounds(i);
      if r.prep < 0 then Done(t, c, r.prep)
      else if r.prep == 1 then Done(t, c, c.total)
      else if r.prep == 2 then Park(t, c, r.port, AtReaddir)
      else AfterPack(t, env, c, i)
  }

  // vfs_coop_start_getdents
  function StartGetdents(t: Tree, env: Env, c: Ctx): Out {
    if c.count == 0 then Done(t, c, 0)
    else if env.file.None? then Done(t, c, -EBADF)
    else if !env.file.value.isDir then Done(t, c, -ENOTDIR)
    else Fill(t, env, c.(total := 0), 0)
  }

  // vfs_coop_resume_getdents
  function ResumeGetdents(t: Tree, env: Env, c: Ctx, nested: int): Out {
    if c.step != AtReaddir then Done(t, c, -EIO)
    else if nested < 0 then Done(t, c, nested)
    else if nested > 0 then Done(t, c, c.total)
    else AfterPack(t, env, c, 0)
  }

  // ---- the two entry points

  // A message that cannot be decoded or needs no backend is answered through
  // *result_out; umount is one of these.
  datatype Request = AtOnce(result: int) | Umount(path: Path, result: int) | Job(ctx: Ctx)

  const NO_FLAGS := Flags(false, false, false, false, false)
  const NO_JOB := Ctx(Stat, Begin, [], [], NO_FLAGS, false, false, false, 0, 0, 0, 0, "", ROOT_INODE)

  // vfs_coop_handler
  function Start(t: Tree, env: Env, req: Request): Out {
    match req
    case AtOnce(r) => Out(CM.Return(CM.Handled(r)), t, NO_JOB)
    case Umount(path, r) => Out(CM.Return(CM.Handled(r)), if r == 0 then Covered(t, path, false) else t, NO_JOB)
    case Job(c) =>
      match c.kind
      case Read => StartRw(t, env, c)
      case Write => StartRw(t, env, c)
      case Getdents => StartGetdents(t, env, c)
      case _ => StartPath(t, env, c)
  }

  // vfs_coop_resume
  function Resume(t: Tree, env: Env, c: Ctx, nested: int): Out {
    match c.kind
    case Read => ResumeRw(t, env, c, nested)
    case Write => ResumeRw(t, env, c, nested)
    case Getdents => ResumeGetdents(t, env, c, nested)
    case _ => ResumePath(t, env, c, nested)
  }
}
