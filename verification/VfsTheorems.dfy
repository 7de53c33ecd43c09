/**
 What the file server's code does with a job, on every branch: one finish or one
 park, and a change of the tree exactly where a commit or a cover is.
 */
module VfsTheorems {
  import opened Common
  import opened Wrappers
  import opened NamespaceModel
  import opened VfsJobs
  import NP = NamespaceProofs
  import NT = NamespaceTheorems
  import NR = NamespaceRefinement
  import CM = CoopModel

  // ---- what every branch keeps

  // On every branch one finish or one park
  predicate Ordered(prog: Prog) { CM.InOrder(prog, true) && CM.InOrder(prog, false) }

  // The steps a parked job can be at
  predicate CtxOk(c: Ctx) {
    match c.step
    case AtCreate => c.kind == Open && c.flags.creat
    case AtExisting => c.kind == Open && c.flags.creat
    case AtPostCreate => c.kind == Open && c.flags.creat
    case AtMkdir => (c.kind == Open && c.flags.creat) || c.kind == Mkdir || c.kind == Mount
    case AtTruncate => c.kind == Open && !(c.flags.creat && c.flags.excl)
    case AtUnlink => c.kind == Unlink && c.path != []
    case AtRename => c.kind == Rename && c.path != [] && c.path2 != []
    case AtLink => c.kind == HardLink && c.path != [] && c.path2 != []
    case AtReaddir => c.kind == Getdents
    case AtReadlink => c.kind == Readlink
    case _ => true
  }

  predicate Exclusive(c: Ctx) { c.kind == Open && c.flags.creat && c.flags.excl }

  // The client is told of an error, if it is told anything.
  predicate Fails(prog: Prog) {
    (CM.Verdict(prog, true).Some? ==> CM.Verdict(prog, true).value < 0)
    && (CM.Verdict(prog, false).Some? ==> CM.Verdict(prog, false).value < 0)
  }

  // A call that ends well-behaved and leaves the tree as t
  predicate Tidy(out: Out, t: Tree, c: Ctx) {
    && Ordered(out.prog) && out.tree == t && out.ctx.kind == c.kind && out.ctx.flags == c.flags
    && (out.prog.Issue? ==> CtxOk(out.ctx))
  }

  lemma AfterInodeTidy(t: Tree, env: Env, c: Ctx)
    ensures Tidy(AfterInode(t, env, c), t, c)
    ensures Exclusive(c) ==> Fails(AfterInode(t, env, c).prog)
  {
  }

  lemma MkdirRefusal(t: Tree, env: Env, path: Path)
    ensures var p := MkdirPrepare(t, env, path);
            (p.Refused? && p.err < 0) || (p.Go? && (p.commit ==> path != [] && !Live(t, path)))
  {
  }

  lemma CreateRefusal(t: Tree, env: Env, path: Path)
    ensures var p := CreatePrepare(t, env, path);
            (p.Refused? && p.err < 0) || p.Exists? || (p.Go? && (p.commit ==> path != [] && !Live(t, path)))
  {
  }

  lemma OpenOnEnoentTidy(t: Tree, env: Env, c: Ctx)
    requires c.kind == Open
    ensures Tidy(OpenOnEnoent(t, env, c), t, c) && Fails(OpenOnEnoent(t, env, c).prog)
  {
    if c.flags.creat && c.flags.directory {
      OpenMkdirTidy(t, env, c);
    } else if c.flags.creat {
      OpenCreateTidy(t, env, c);
    }
  }

  lemma OpenMkdirTidy(t: Tree, env: Env, c: Ctx)
    requires c.kind == Open && c.flags.creat && c.flags.directory
    ensures Tidy(OpenOnEnoent(t, env, c), t, c) && Fails(OpenOnEnoent(t, env, c).prog)
  {
    MkdirRefusal(t, env, c.path);
  }

  lemma OpenCreateTidy(t: Tree, env: Env, c: Ctx)
    requires c.kind == Open && c.flags.creat && !c.flags.directory
    ensures Tidy(OpenOnEnoent(t, env, c), t, c) && Fails(OpenOnEnoent(t, env, c).prog)
  {
    CreateRefusal(t, env, c.path);
  }

  lemma {:induction false} FollowTidy(t: Tree, env: Env, c: Ctx)
    ensures Tidy(FollowOrGoOn(t, env, c), t, c)
    ensures Exclusive(c) ==> Fails(FollowOrGoOn(t, env, c).prog)
    decreases c.follow, 0
  {
    AfterInodeTidy(t, env, c);
    if c.follow && c.ino.isSymlink && env.resolved.Some? {
      LookupTidy(t, env, c.(path := env.resolved.value, follow := false));
    }
  }

  lemma {:induction false} LookupTidy(t: Tree, env: Env, c: Ctx)
    ensures Tidy(StartLookup(t, env, c), t, c)
    ensures Exclusive(c) ==> Fails(StartLookup(t, env, c).prog)
    decreases c.follow, 1
  {
    if c.kind == Open {
      OpenOnEnoentTidy(t, env, c);
    }
    match LookupPrepare(t, env, c.path) {
      case Refused(_) =>
      case Go(_, _) =>
      case _ => FollowTidy(t, env, c.(ino := ROOT_INODE));
    }
  }

  lemma {:induction false} PackTidy(t: Tree, env: Env, c: Ctx, i: nat)
    requires c.kind == Getdents
    ensures Tidy(AfterPack(t, env, c, i), t, c)
    decreases if c.total < c.count then c.count - c.total else 0, 1
  {
    var packed := env.rounds(i).packed;
    if packed > 0 && c.total < c.count {
      FillTidy(t, env, c.(total := c.total + packed), i + 1);
    }
  }

  lemma {:induction false} FillTidy(t: Tree, env: Env, c: Ctx, i: nat)
    requires c.kind == Getdents
    ensures Tidy(Fill(t, env, c, i), t, c)
    decreases if c.total < c.count then c.count - c.total else 0, 2
  {
    PackTidy(t, env, c, i);
  }

  lemma StartRwTidy(t: Tree, env: Env, c: Ctx)
    ensures Tidy(StartRw(t, env, c), t, c)
  {
  }

  lemma ResumeRwTidy(t: Tree, env: Env, c: Ctx, n: int)
    requires CtxOk(c)
    ensures Tidy(ResumeRw(t, env, c, n), t, c)
  {
  }

  // ---- what a prepare makes sure of

  lemma {:induction false} DirIsThere(t: Tree, env: Env, path: Path)
    requires NR.Ready(t) && path != [] && ParentWritable(t, env, path) >= 0
    ensures DirAt(t, Front(path))
  {
  }

  // A request that goes on to its commit has met the precondition under which
  // NamespaceRefinement says what the commit does.
  lemma {:induction false} CreatePrepared(t: Tree, env: Env, path: Path)
    requires NR.Ready(t)
    ensures var p := MkdirPrepare(t, env, path);
            p.Go? && p.commit ==> path != [] && NR.Prepared(t, Front(path), Last(path))
    ensures var p := CreatePrepare(t, env, path);
            p.Go? && p.commit ==> path != [] && NR.Prepared(t, Front(path), Last(path))
  {
    if path != [] && ParentWritable(t, env, path) >= 0 {
      DirIsThere(t, env, path);
      assert path == Front(path) + [Last(path)];
      NP.WalkIsNode(t, path, true);
    }
  }

  lemma {:induction false} ChangePrepared(t: Tree, env: Env, path: Path, path2: Path)
    requires NR.Ready(t)
    ensures var p := UnlinkPrepare(t, env, path); p.Go? || p.Local? ==> NR.Unlinkable(t, path)
    ensures RenamePrepare(t, env, path, path2).Go? ==> path2 != [] && NR.Renamable(t, path, Front(path2), Last(path2))
    ensures LinkPrepare(t, env, path, path2).Go? ==> path2 != [] && NR.HardLinkable(t, path, Front(path2), Last(path2))
  {
    if path2 != [] {
      assert path2 == Front(path2) + [Last(path2)];
    }
  }

  // ---- the handler

  // A call that changes the tree at once answers 0.
  predicate AtOnceDone(out: Out, t: Tree, c: Ctx) {
    Tidy(out, out.tree, c) && (out.tree != t ==> out.prog == CM.Finish(0, CM.Return(CM.Handled(0))))
  }

  lemma StartPreparedTidy(t: Tree, c: Ctx, prep: Prep, step: At)
    requires prep.Go? ==> CtxOk(c.(step := step))
    ensures Tidy(StartPrepared(t, c, prep, step), t, c)
  {
  }

  lemma StartPathTidy(t: Tree, env: Env, c: Ctx)
    ensures AtOnceDone(StartPath(t, env, c), t, c)
    ensures Exclusive(c) ==> Fails(StartPath(t, env, c).prog)
  {
    match c.kind {
      case Mkdir => StartPreparedTidy(t, c, MkdirPrepare(t, env, c.path), AtMkdir);
      case Unlink =>
        if UnlinkPrepare(t, env, c.path) != Local {
          StartPreparedTidy(t, c, UnlinkPrepare(t, env, c.path), AtUnlink);
        }
      case Rename => StartPreparedTidy(t, c, RenamePrepare(t, env, c.path, c.path2), AtRename);
      case HardLink => StartPreparedTidy(t, c, LinkPrepare(t, env, c.path, c.path2), AtLink);
      case Mount =>
      case _ => LookupTidy(t, env, c);
    }
  }

  // The handler, for every request and every answer it can get
  lemma {:induction false} StartInOrder(t: Tree, env: Env, req: Request)
    requires req.Job? ==> req.ctx.step == Begin
    ensures var out := Start(t, env, req);
            && CM.InOrder(out.prog, true)
            && (req.Job? ==> AtOnceDone(out, t, req.ctx))
            && (req.Job? && Exclusive(req.ctx) ==> Fails(out.prog))
  {
    if req.Job? {
      var c := req.ctx;
      match c.kind {
        case Read => StartRwTidy(t, env, c);
        case Write => StartRwTidy(t, env, c);
        case Getdents => FillTidy(t, env, c.(total := 0), 0);
        case _ => StartPathTidy(t, env, c);
      }
    }
  }

  // ---- the resume function

  // The tree after a call of resume: five steps can change it, and but for a
  // mount only after the backend has succeeded.
  function TreeAfter(t: Tree, env: Env, c: Ctx, nested: int): Tree {
    if c.step == AtMkdir && c.kind == Mount then Covered(t, c.path, true)
    else if nested < 0 || !c.needCommit then t
    else
      match c.step
      case AtCreate => CreateCommit(t, c.path, false, env.room)
      case AtMkdir => CreateCommit(t, c.path, true, env.room)
      case AtUnlink => UnlinkCommit(t, c.path)
      case AtRename => RenameTree(t, c.path, c.path2)
      case AtLink => LinkTree(t, c.path, c.path2, env.room)
      case _ => t
  }

  // The resume function, for every job it can be called with, every nested result
  // and every answer: one finish or one park, and this tree.
  lemma {:induction false} ResumeInOrder(t: Tree, env: Env, c: Ctx, nested: int)
    requires CtxOk(c)
    ensures CM.InOrder(Resume(t, env, c, nested).prog, false)
    ensures Tidy(Resume(t, env, c, nested), TreeAfter(t, env, c, nested), c)
  {
    match c.kind {
      case Read => ResumeRwTidy(t, env, c, nested);
      case Write => ResumeRwTidy(t, env, c, nested);
      case Getdents => PackTidy(t, env, c, 0);
      case _ => ResumePathTidy(t, env, c, nested);
    }
  }

  lemma {:induction false} ResumePathTidy(t: Tree, env: Env, c: Ctx, nested: int)
    requires CtxOk(c) && c.kind != Getdents
    ensures Tidy(ResumePath(t, env, c, nested), TreeAfter(t, env, c, nested), c)
  {
    match c.step {
      case AtLookup =>
        FollowTidy(t, env, c.(ino := env.ino));
        if c.kind == Open {
          OpenOnEnoentTidy(t, env, c);
        }
      case AtExisting => AfterInodeTidy(t, env, c.(ino := env.ino));
      case AtPostCreate => AfterInodeTidy(t, env, c.(ino := env.ino));
      case AtCreate => CreateTidy(t, env, c, nested);
      case AtMkdir => MkdirTidy(t, env, c, nested);
      case _ =>
    }
  }

  lemma CreateTidy(t: Tree, env: Env, c: Ctx, nested: int)
    requires CtxOk(c) && c.step == AtCreate
    ensures Tidy(AfterCreate(t, env, c, nested), TreeAfter(t, env, c, nested), c)
  {
  }

  lemma MkdirTidy(t: Tree, env: Env, c: Ctx, nested: int)
    requires CtxOk(c) && c.step == AtMkdir
    ensures Tidy(AfterMkdir(t, env, c, nested), TreeAfter(t, env, c, nested), c)
  {
    LookupTidy(TreeAfter(t, env, c, nested), env, c.(follow := false));
  }

  // ---- failure and the tree

  // The namespace commit of a create or mkdir has been tried.
  predicate Commits(c: Ctx, nested: int) {
    c.needCommit && nested >= 0 && (c.step == AtCreate || (c.step == AtMkdir && c.kind != Mount))
  }

  // Whatever a request is answered with at its first step, a refusal included,
  // an error means that the tree is as it was.
  lemma FailedStart(t: Tree, env: Env, req: Request, accepted: bool)
    requires req.Job? ==> req.ctx.step == Begin
    requires var v := CM.Verdict(Start(t, env, req).prog, accepted); v.Some? && v.value < 0
    ensures Start(t, env, req).tree == t
  {
    StartInOrder(t, env, req);
  }

  // A later step that ends in an error leaves the tree as it was, but for a
  // create or mkdir after its commit.
  lemma {:induction false} FailedResume(t: Tree, env: Env, c: Ctx, nested: int, accepted: bool)
    requires CtxOk(c)
    requires var v := CM.Verdict(Resume(t, env, c, nested).prog, accepted); v.Some? && v.value < 0
    ensures Resume(t, env, c, nested).tree ==
            if Commits(c, nested) then CreateCommit(t, c.path, c.step == AtMkdir, env.room) else t
  {
    ResumeInOrder(t, env, c, nested);
  }

  // The exact condition, where the commit meets a tree its prepare would accept:
  // an error after a change is an open that has created its file or directory.
  lemma {:induction false} FailureChangesTreeIff(t: Tree, env: Env, c: Ctx, nested: int, accepted: bool)
    requires NR.Ready(t) && CtxOk(c)
    requires Commits(c, nested) ==> c.path != [] && NR.Prepared(t, Front(c.path), Last(c.path))
    requires var v := CM.Verdict(Resume(t, env, c, nested).prog, accepted); v.Some? && v.value < 0
    ensures Resume(t, env, c, nested).tree != t <==>
            c.kind == Open && Commits(c, nested) && CreateOk(t, c.path, c.step == AtMkdir, env.room)
  {
    FailedResume(t, env, c, nested, accepted);
    if Commits(c, nested) {
      assert c.path == Front(c.path) + [Last(c.path)];
      NR.CreateChangesOnePath(t, Front(c.path), Last(c.path), c.step == AtMkdir, env.room, []);
    }
  }

  // Both happen.  An open with O_CREAT whose next request cannot be issued, or
  // whose lookup fails, is answered with -EIO, and the file is there.
  lemma {:induction false} OpenFailsAfterCreate(t: Tree, env: Env, c: Ctx, dir: Path, name: Name, nested: int)
    requires NR.Ready(t) && NR.Prepared(t, dir, name) && NR.CreateShows(t, dir, name, env.room)
    requires c.kind == Open && c.step == AtCreate && c.needCommit && c.path == dir + [name] && nested >= 0
    ensures var out := Resume(t, env, c, nested);
            && CM.Verdict(out.prog, false) == Some(-EIO) && CM.Verdict(out.prog, true) == None
            && out.ctx.step == AtPostCreate
            && Lookup(t, dir + [name]) == None && Lookup(out.tree, dir + [name]).Some?
  {
    NR.CommitIs(t, dir, name, false, env.room);
    CreateParks(t, env, c, nested);
    NR.CreateChangesOnePath(t, dir, name, false, env.room, dir + [name]);
  }

  lemma CreateParks(t: Tree, env: Env, c: Ctx, nested: int)
    requires c.kind == Open && c.step == AtCreate && c.needCommit && nested >= 0 && CreateOk(t, c.path, false, env.room)
    ensures var out := Resume(t, env, c, nested);
            && out.tree == CreateCommit(t, c.path, false, env.room) && out.ctx.step == AtPostCreate
            && CM.Verdict(out.prog, false) == Some(-EIO) && CM.Verdict(out.prog, true) == None
  {
  }

  // The lookup after the create fails: -EIO, and the tree keeps the file.
  lemma PostCreateFails(t: Tree, env: Env, c: Ctx, nested: int, accepted: bool)
    requires c.kind == Open && c.step == AtPostCreate && nested != 0
    ensures Resume(t, env, c, nested).tree == t && CM.Verdict(Resume(t, env, c, nested).prog, accepted) == Some(-EIO)
  {
  }

  // For one, in the tree the server starts with
  lemma {:induction false} FirstOpenFailsAfterCreate(env: Env, name: Name)
    requires env.room(1)
    ensures var c := NO_JOB.(kind := Open, step := AtCreate, needCommit := true, path := [name],
            flags := NO_FLAGS.(creat := true));
            var out := Resume(NT.INITIAL, env, c, 0);
            && CM.Verdict(out.prog, false) == Some(-EIO)
            && Lookup(NT.INITIAL, [name]) == None && Lookup(out.tree, [name]) == Some(1)
  {
    var t := NT.INITIAL;
    NR.InitialReady();
    NR.LookupTop(t, name, true);
    NR.LookupTop(t, name, false);
    assert [] + [name] == [name];
    assert Lookup(t, []) == Some(ROOT);
    assert FindIn(t.nodes, [], name) == None;
    assert NR.Prepared(t, [], name) && NR.CreateShows(t, [], name, env.room);
    var c := NO_JOB.(kind := Open, step := AtCreate, needCommit := true, path := [name],
        flags := NO_FLAGS.(creat := true));
    OpenFailsAfterCreate(t, env, c, [], name, 0);
    NR.CreateChangesOnePath(t, [], name, false, env.room, [name]);
    NR.CommitIs(t, [], name, false, env.room);
    CreateParks(t, env, c, 0);
  }

  // A ramfs mount covers its directory and answers 0, whatever the backend said.
  lemma MountIgnoresBackend(t: Tree, env: Env, c: Ctx, nested: int, accepted: bool)
    requires c.kind == Mount && c.step == AtMkdir
    ensures var out := Resume(t, env, c, nested);
            && CM.Verdict(out.prog, accepted) == Some(0) && out.tree == Covered(t, c.path, true)
            && (Walk(t, c.path, true).Some? && Walk(t, c.path, true).value in t.nodes
                && t.nodes[Walk(t, c.path, true).value].isDir
                ==> out.tree.nodes[Walk(t, c.path, true).value].covered)
  {
  }

  // ---- exclusive opens

  // An open with O_CREAT and O_EXCL never succeeds: when the file is there it is
  // refused, and when it has just been created it is found and refused, too.
  lemma {:induction false} ExclusiveOpenFails(t: Tree, env: Env, c: Ctx, nested: int)
    requires CtxOk(c) && Exclusive(c) && nested <= 0
    ensures Fails(Resume(t, env, c, nested).prog)
  {
    match c.step {
      case AtLookup =>
        FollowTidy(t, env, c.(ino := env.ino));
        OpenOnEnoentTidy(t, env, c);
      case AtExisting => AfterInodeTidy(t, env, c.(ino := env.ino));
      case AtPostCreate => AfterInodeTidy(t, env, c.(ino := env.ino));
      case AtMkdir => LookupTidy(TreeAfter(t, env, c, nested), env, c.(follow := false));
      case _ =>
    }
  }

  // ---- every call keeps the tree in order

  lemma StartKeeps(t: Tree, env: Env, req: Request)
    requires NP.Inv(t) && (req.Job? ==> req.ctx.step == Begin)
    ensures NP.Inv(Start(t, env, req).tree)
  {
    match req {
      case AtOnce(_) =>
      case Umount(path, r) => NT.CoverKeeps(t, path, false);
      case Job(c) =>
        NT.UnlinkKeeps(t, c.path);
        NT.CoverKeeps(t, c.path, true);
        StartChanges(t, env, c);
    }
  }

  // What the handler itself can do to the tree
  lemma StartChanges(t: Tree, env: Env, c: Ctx)
    requires c.step == Begin
    ensures var t' := Start(t, env, Job(c)).tree;
            t' == t || t' == UnlinkCommit(t, c.path) || t' == Covered(t, c.path, true)
  {
    match c.kind {
      case Read => StartRwTidy(t, env, c);
      case Write => StartRwTidy(t, env, c);
      case Getdents => FillTidy(t, env, c.(total := 0), 0);
      case Mkdir => StartPreparedTidy(t, c, MkdirPrepare(t, env, c.path), AtMkdir);
      case Unlink => StartPreparedTidy(t, c, UnlinkPrepare(t, env, c.path), AtUnlink);
      case Rename => StartPreparedTidy(t, c, RenamePrepare(t, env, c.path, c.path2), AtRename);
      case HardLink => StartPreparedTidy(t, c, LinkPrepare(t, env, c.path, c.path2), AtLink);
      case Mount =>
      case _ => LookupTidy(t, env, c);
    }
  }

  lemma {:induction false} ResumeKeeps(t: Tree, env: Env, c: Ctx, nested: int)
    requires NP.Inv(t) && CtxOk(c)
    ensures NP.Inv(Resume(t, env, c, nested).tree)
  {
    ResumeInOrder(t, env, c, nested);
    NT.CoverKeeps(t, c.path, true);
    match c.step {
      case AtCreate => NT.CreateKeeps(t, c.path, false, env.room);
      case AtMkdir => NT.CreateKeeps(t, c.path, true, env.room);
      case AtUnlink => NT.UnlinkKeeps(t, c.path);
      case AtRename => NT.RenameKeeps(t, c.path, Front(c.path2), Last(c.path2));
      case AtLink => NT.LinkCommitKeeps(t, c.path, Front(c.path2), Last(c.path2), env.room);
      case _ =>
    }
  }

  // A job that goes on after it has changed the tree is an open with O_CREAT.
  lemma {:induction false} ParkedChange(t: Tree, env: Env, c: Ctx, nested: int)
    requires CtxOk(c) && Resume(t, env, c, nested).prog.Issue? && Resume(t, env, c, nested).tree != t
    ensures c.kind == Open && c.flags.creat
  {
    ResumeInOrder(t, env, c, nested);
  }

  // A job that fails in the step in which it changes the tree is such an open, or
  // a mkdir that got no node.
  lemma {:induction false} FailedChange(t: Tree, env: Env, c: Ctx, nested: int)
    requires CtxOk(c) && Resume(t, env, c, nested).tree != t
    requires var v := CM.Verdict(Resume(t, env, c, nested).prog, false); v.Some? && v.value < 0
    ensures (c.kind == Open && c.flags.creat)
            || (c.kind == Mkdir && CM.Verdict(Resume(t, env, c, nested).prog, false) == Some(-ENOMEM))
  {
    FailedResume(t, env, c, nested, false);
  }
}
