/**
 One step of a connection, whoever takes it: JavaScript, libuv, libsmb2 or the garbage
 collector; and the proof that every step keeps the connection steady.
 */
module Steps {
  import opened Options
  import opened Texts
  import opened Operations
  import opened Lifecycle
  import opened Invariants
  import T = HandleTable
  import P = PollLink
  import Paths

  datatype Event =
    | DoConnect(choice: Option<CtxId>, path: Text, now: nat, reply: Reply, rc: int, script: Script)
    | DoDisconnect(now: nat, reply: Reply, rc: int, script: Script)
    | DoRequest(kind: Kind, path: Text, handle: nat, tooLong: bool, now: nat, reply: Reply, rc: int, script: Script)
    | DoReaddir(handle: nat, entry: Option<Text>)
    | DoClosedir(handle: nat)
    | TimerFires(script: Script, rc: int, teardown: Script)
    | PollFires(status: int, readable: bool, writable: bool, script: Script, rc: int, reply: Reply, teardown: Script)
    | FdMoves(ctx: CtxId, fd: int, add: bool, reply: Reply, teardown: Script)
    | MaskMoves(ctx: CtxId, mask: int, reply: Reply, teardown: Script)
    | PollCloses(id: nat)
    | Collected(script: Script)

  /** The request calls that submit an operation to libsmb2. */
  predicate IsRequest(kind: Kind) {
    !kind.ConnectOp? && !kind.DisconnectOp? && !kind.ReaddirOp? && !kind.ClosedirOp?
  }

  /** When the environment can cause an event: `connect` is the first call on a wrapper, libuv
      fires only what is armed, and a wrapper is collected only when nothing references it. */
  predicate Possible(s: Wrap, e: Event) {
    match e
    case DoConnect(_, _, _, _, _, _) => s.ledger.nextId == 0
    case DoRequest(kind, _, _, _, _, _, _, _) => IsRequest(kind)
    case TimerFires(_, _, _) => s.timer.mode != Off
    case PollFires(_, _, _, _, _, _, _) => s.link.poll.Some? && s.link.poll.value.watched != P.NOTHING
    case FdMoves(ctx, _, _, _, _) => RoutesHere(s, ctx)
    case MaskMoves(ctx, _, _, _) => RoutesHere(s, ctx)
    case PollCloses(id) => id in s.link.closing
    case Collected(_) => s.ledger.refs == 0
    case _ => true
  }

  /** Impossible events change nothing. */
  function Step(s: Wrap, e: Event): Wrap {
    if !Possible(s, e) then s
    else
      match e
      case DoConnect(choice, path, now, reply, rc, script) => Connect(s, choice, path, now, reply, rc, script)
      case DoDisconnect(now, reply, rc, script) => Disconnect(s, now, reply, rc, script)
      case DoRequest(kind, path, handle, tooLong, now, reply, rc, script) =>
        Request(s, kind, path, handle, tooLong, now, reply, rc, script)
      case DoReaddir(handle, entry) => Readdir(s, handle, entry)
      case DoClosedir(handle) => Closedir(s, handle)
      case TimerFires(script, rc, teardown) => OnServiceTimer(s, script, rc, teardown)
      case PollFires(status, readable, writable, script, rc, reply, teardown) =>
        OnPollEvent(s, status, readable, writable, script, rc, reply, teardown)
      case FdMoves(ctx, fd, add, reply, teardown) => FdChange(s, ctx, fd, add, reply, teardown)
      case MaskMoves(ctx, mask, reply, teardown) => EventsChange(s, ctx, mask, reply, teardown)
      case PollCloses(id) => s.(link := P.Free(s.link, id))
      case Collected(script) => Finalize(s, script)
  }

  ghost predicate Kept(s: Wrap, t: Wrap) {
    Steady(t, {}) && Evolves(s, t)
  }

  lemma KeptTrans(a: Wrap, b: Wrap, c: Wrap)
    requires Kept(a, b) && Kept(b, c)
    ensures Kept(a, c)
  {
    hide Steady, Evolves;
    EvolvesTrans(a, b, c);
  }

  lemma KeptRefl(s: Wrap)
    requires Steady(s, {})
    ensures Kept(s, s)
  {
    hide Steady;
    EvolvesQuietly(s, s);
  }

  // ---- Fatal errors and service -----------------------------------------------------------

  lemma WreckedEvolves(s: Wrap, t: Wrap)
    requires Wrecked(s, t) && Routed(s) && s.ledger.nextId > 0
    ensures Evolves(s, t)
  {
    hide Steady, OnlyRejects, Remembers, NoNewSuccess;
    OnlyRejectsEvolves(s.ledger, t.ledger, ConnectionLost);
    NextIdKept(s.ledger, t.ledger);
  }

  lemma FatalKeeps(s: Wrap, script: Script)
    requires Breakable(s)
    ensures Kept(s, HandleFatal(s, script))
    ensures Wrecked(s, HandleFatal(s, script))
  {
    hide Steady, Sound, HandleFatal, OnlyRejects, Routed;
    FatalEffect(s, script);
    WreckedEvolves(s, HandleFatal(s, script));
  }

  lemma SteadyBreakable(s: Wrap, busy: set<OpId>)
    requires Steady(s, busy) && s.ledger.nextId > 0
    ensures Breakable(s)
  {
  }

  /** A connection whose context is alive has been asked to connect. */
  lemma AliveIsOld(s: Wrap, busy: set<OpId>)
    requires Steady(s, busy) && s.context.Some?
    ensures s.ledger.nextId > 0 && Touch(s) == s && RoutesHere(s, s.context.value)
  {
  }

  lemma ServiceKeeps(s: Wrap, script: Script)
    requires Steady(s, {}) && s.context.Some?
    ensures Kept(s, RunScript(Touch(s), s.context.value, script, false))
  {
    AliveIsOld(s, {});
    hide Steady, Evolves, Spares, Touch;
    ScriptServed(s, s.context.value, script, {});
  }

  lemma EvolvesAge(s: Wrap, t: Wrap)
    requires Evolves(s, t)
    ensures s.ledger.nextId <= t.ledger.nextId
  {
  }

  lemma ServiceOrFatal(s: Wrap, script: Script, teardown: Script)
    requires Steady(s, {}) && s.context.Some?
    ensures Kept(s, HandleFatal(RunScript(Touch(s), s.context.value, script, false), teardown))
  {
    AliveIsOld(s, {});
    ServiceKeeps(s, script);
    var s1 := RunScript(Touch(s), s.context.value, script, false);
    hide Steady, RunScript, HandleFatal;
    EvolvesAge(s, s1);
    hide Evolves;
    SteadyBreakable(s1, {});
    FatalKeeps(s1, teardown);
    KeptTrans(s, s1, HandleFatal(s1, teardown));
  }

  // ---- The timer --------------------------------------------------------------------------

  /** The connection as a cleanup sees it once its one-shot timer has fired. */
  function Expired(s: Wrap): Wrap {
    s.(timer := s.timer.(mode := Off), cleanupPending := false)
  }

  lemma AwaitingCleanup(s: Wrap)
    requires Steady(s, {}) && s.cleanupPending
    ensures s.timer.mode == OneShot && s.ledger.pending == {} && AllSettled(s.ledger)
    ensures Sound(Expired(s)) && Routed(Expired(s)) && (s.context.None? ==> s.ledger.outstanding == {})
    ensures s.ledger.nextId > 0
  {
    Membership(s.ledger, {}, s.cleanupRef);
    hide LedgerInv, T.TableInv, P.LinkInv;
  }

  lemma ReleaseSteady(s: Wrap)
    requires Steady(s, {}) && s.context.None? && s.cleanupRef && s.ledger.deferred == multiset{}
    ensures Steady(s.(cleanupRef := false, ledger := AddRefs(s.ledger, -1)), {})
    ensures Evolves(s, s.(cleanupRef := false, ledger := AddRefs(s.ledger, -1)))
  {
    hide LedgerInv, T.TableInv, P.LinkInv, AddRefs, Evolves;
    AddRefsKeeps(s.ledger, true, false);
    AddRefsFacts(s.ledger, -1);
    EvolvesQuietly(s, s.(cleanupRef := false, ledger := AddRefs(s.ledger, -1)));
  }

  /** A teardown and a drain, as the timer and the destructor perform them. */
  lemma FinalizeKeeps(s: Wrap, script: Script)
    requires Sound(s) && Routed(s) && AllSettled(s.ledger) && (s.context.Some? ==> s.ledger.nextId > 0)
    requires s.context.None? ==> s.ledger.outstanding == {}
    requires s.ledger.nextId == 0 ==> !s.cleanupRef
    ensures Kept(s, Finalize(s, script))
    ensures Finalize(s, script).ledger.operations.Keys <= s.ledger.pending
    ensures var t := Finalize(s, script);
      && t.ledger.deferred == multiset{} && t.context == None && t.link.poll == None
      && t.ledger.promises == s.ledger.promises
      && (s.scheduleFailed ==> t.scheduleFailed)
  {
    hide Sound, Routed, CleanupContext, Drain, Steady, Evolves;
    CleanupEffect(s, script);
    var t := CleanupContext(s, script);
    DrainedSteady(s, t);
    assert t.ledger.promises == Finalize(s, script).ledger.promises by { DrainKeepsPromises(t.ledger); }
    TornDownEvolves(s, t);
    DrainEvolves(t);
    EvolvesTrans(s, t, DrainDeferred(t));
  }

  lemma DrainKeepsPromises(m: Ledger)
    ensures Drain(m).promises == m.promises
  {
  }

  lemma TornDownEvolves(s: Wrap, t: Wrap)
    requires TornDown(s, t) && Routed(s) && (s.context.Some? ==> s.ledger.nextId > 0)
    ensures Evolves(s, t)
  {
    hide Sound;
  }

  lemma DrainEvolves(s: Wrap)
    ensures Evolves(s, DrainDeferred(s)) || s.context.Some?
  {
  }

  /** The cleanup reference, if held, is dropped. */
  function Released(s: Wrap): Wrap {
    if s.cleanupRef then s.(cleanupRef := false, ledger := AddRefs(s.ledger, -1)) else s
  }

  lemma TimerSplit(s: Wrap, script: Script, rc: int, teardown: Script)
    requires s.cleanupPending && s.timer.mode.OneShot?
    ensures OnServiceTimer(s, script, rc, teardown) == Released(Finalize(Expired(s), script))
  {
    var s1 := s.(timer := s.timer.(mode := Off));
    assert Dismantle(s1) == Dismantle(Expired(s));
    assert CleanupContext(s1, script) == CleanupContext(Expired(s), script);
    hide CleanupContext;
  }

  lemma ReleasedKeeps(s: Wrap)
    requires Steady(s, {}) && s.context.None? && s.ledger.deferred == multiset{}
    ensures Kept(s, Released(s)) && !Released(s).cleanupRef
    ensures Released(s).ledger.operations == s.ledger.operations && Released(s).context == s.context
  {
    if s.cleanupRef {
      ReleaseSteady(s);
    } else {
      KeptRefl(s);
    }
    hide Steady, Evolves;
  }

  /** The scheduled cleanup runs: teardown, drain, and the cleanup reference is dropped. */
  lemma CleanupRuns(s: Wrap, script: Script, rc: int, teardown: Script)
    requires Steady(s, {}) && s.cleanupPending
    ensures var t := OnServiceTimer(s, script, rc, teardown);
      Kept(s, t) && t.ledger.operations == map[] && t.context == None && !t.cleanupRef
  {
    AwaitingCleanup(s);
    TimerSplit(s, script, rc, teardown);
    EvolvesQuietly(s, Expired(s));
    hide Steady, Evolves, Finalize, OnServiceTimer, Released, Sound, Routed;
    var s1 := Expired(s);
    FinalizeKeeps(s1, script);
    var s2 := Finalize(s1, script);
    assert s2.ledger.operations == map[];
    ReleasedKeeps(s2);
    EvolvesTrans(s, s1, s2);
    EvolvesTrans(s, s2, Released(s2));
  }

  lemma ExpiredSteady(s: Wrap)
    requires Steady(s, {}) && !s.cleanupPending && s.timer.mode.OneShot?
    ensures Kept(s, s.(timer := s.timer.(mode := Off)))
  {
    hide LedgerInv, T.TableInv, P.LinkInv, Evolves;
    EvolvesQuietly(s, s.(timer := s.timer.(mode := Off)));
  }

  /** A tick of the service timer on a live context. */
  lemma TickKeeps(s: Wrap, script: Script, rc: int, teardown: Script)
    requires Steady(s, {}) && !s.cleanupPending && !s.timer.mode.OneShot?
    ensures Kept(s, OnServiceTimer(s, script, rc, teardown))
  {
    hide HandleFatal, RunScript, Evolves, Touch;
    if s.context.None? {
      KeptRefl(s);
    } else if rc < 0 {
      ServiceOrFatal(s, script, teardown);
    } else {
      ServiceKeeps(s, script);
    }
    hide Steady;
  }

  lemma TimerKeeps(s: Wrap, script: Script, rc: int, teardown: Script)
    requires Steady(s, {})
    ensures Kept(s, OnServiceTimer(s, script, rc, teardown))
  {
    if s.cleanupPending {
      CleanupRuns(s, script, rc, teardown);
    } else if s.timer.mode.OneShot? {
      var s1 := s.(timer := s.timer.(mode := Off));
      ExpiredSteady(s);
      hide Steady, Evolves, RunScript, HandleFatal, Touch;
      TickKeeps(s1, script, rc, teardown);
      KeptTrans(s, s1, OnServiceTimer(s1, script, rc, teardown));
    } else {
      TickKeeps(s, script, rc, teardown);
    }
  }

  // ---- The poll ---------------------------------------------------------------------------

  /** A teardown stops the poll before anything else looks at it. */
  lemma FatalStopsPoll(s: Wrap, script: Script)
    ensures HandleFatal(s, script) == HandleFatal(s.(link := P.Stop(s.link)), script)
  {
    FatalSplit(s, script);
    FatalSplit(s.(link := P.Stop(s.link)), script);
    P.StopTwice(s.link);
    var a, b := Condemned(s), Condemned(s.(link := P.Stop(s.link)));
    assert b == a.(link := P.Stop(a.link));
    assert Dismantle(a) == Dismantle(b);
    assert CleanupContext(a, script) == CleanupContext(b, script);
  }

  lemma LinkKeeps(s: Wrap, link: P.Link)
    requires Steady(s, {}) && P.LinkInv(link)
    requires s.context.Some? || link.poll == None
    ensures Kept(s, s.(link := link))
  {
    hide LedgerInv, T.TableInv, P.LinkInv, Evolves;
    EvolvesQuietly(s, s.(link := link));
  }

  /** A libuv failure while the poll is being set up. */
  lemma PollFatal(s: Wrap, link: P.Link, teardown: Script)
    requires Steady(s, {}) && s.context.Some? && P.LinkInv(P.Stop(link))
    ensures Kept(s, HandleFatal(s.(link := link), teardown))
  {
    AliveIsOld(s, {});
    P.StopTwice(link);
    var s1 := s.(link := P.Stop(link));
    LinkKeeps(s, P.Stop(link));
    SteadyBreakable(s1, {});
    hide Steady, Evolves, HandleFatal;
    FatalKeeps(s1, teardown);
    FatalStopsPoll(s.(link := link), teardown);
    KeptTrans(s, s1, HandleFatal(s1, teardown));
  }

  lemma ApplyKeeps(s: Wrap, link: P.Link, reply: Reply, teardown: Script)
    requires Steady(s, {}) && s.context.Some?
    requires P.LinkInv(P.Stop(link)) && P.LinkInv(P.Apply(link))
    ensures Kept(s, ApplyPollEvents(s.(link := link), reply, teardown))
  {
    PollFatal(s, link, teardown);
    LinkKeeps(s, P.Apply(link));
    hide Steady, Evolves, HandleFatal, P.Apply;
  }

  lemma StartPollKeeps(s: Wrap, fd: int, reply: Reply, teardown: Script)
    requires Steady(s, {}) && s.context.Some?
    ensures Kept(s, StartPoll(s, fd, reply, teardown))
  {
    assert P.LinkInv(s.link);
    hide Steady, Kept, HandleFatal, ApplyPollEvents, P.LinkInv, P.Stop, P.Attach, P.AttachFailed, P.Apply, P.WatchesFd;
    P.StartSteps(s.link, fd);
    var stopped := P.Stop(s.link);
    if P.WatchesFd(s.link, fd) {
      KeptRefl(s);
    } else if reply.NoLoop? {
      PollFatal(s, stopped, teardown);
    } else if reply.InitFails? {
      PollFatal(s, P.AttachFailed(stopped), teardown);
    } else {
      ApplyKeeps(s, P.Attach(stopped, fd), reply, teardown);
    }
  }

  lemma FdChangeKeeps(s: Wrap, ctx: CtxId, fd: int, add: bool, reply: Reply, teardown: Script)
    requires Steady(s, {}) && RoutesHere(s, ctx)
    ensures Kept(s, FdChange(s, ctx, fd, add, reply, teardown))
  {
    assert s.context.Some? && P.LinkInv(s.link);
    hide Steady, Evolves, StartPoll;
    StartPollKeeps(s, fd, reply, teardown);
    P.StopKeeps(s.link);
    LinkKeeps(s, P.Stop(s.link));
  }

  lemma EventsChangeKeeps(s: Wrap, ctx: CtxId, mask: int, reply: Reply, teardown: Script)
    requires Steady(s, {}) && RoutesHere(s, ctx)
    ensures Kept(s, EventsChange(s, ctx, mask, reply, teardown))
  {
    assert s.context.Some? && P.LinkInv(s.link);
    hide Steady, Evolves, ApplyPollEvents;
    P.StopAskKeeps(s.link, mask);
    P.AskKeeps(s.link, mask);
    ApplyKeeps(s, P.Ask(s.link, mask), reply, teardown);
  }

  /** Re-applying the mask after a service call; the context may have died in it. */
  lemma ReapplyKeeps(s: Wrap, reply: Reply, teardown: Script)
    requires Steady(s, {})
    ensures Kept(s, ApplyPollEvents(s, reply, teardown))
  {
    assert P.LinkInv(s.link);
    P.StopKeeps(s.link);
    KeptRefl(s);
    assert P.Apply(s.link) == s.link;
    assert s.(link := s.link) == s;
    if s.context.Some? {
      hide Steady, Evolves, ApplyPollEvents;
      ApplyKeeps(s, s.link, reply, teardown);
    }
  }

  lemma ServeThenApply(s: Wrap, script: Script, reply: Reply, teardown: Script)
    requires Steady(s, {}) && s.context.Some?
    ensures Kept(s, ApplyPollEvents(RunScript(Touch(s), s.context.value, script, false), reply, teardown))
  {
    hide Steady, Evolves, RunScript, Touch, ApplyPollEvents;
    ServiceKeeps(s, script);
    var s1 := RunScript(Touch(s), s.context.value, script, false);
    ReapplyKeeps(s1, reply, teardown);
    KeptTrans(s, s1, ApplyPollEvents(s1, reply, teardown));
  }

  lemma PollEventKeeps(s: Wrap, status: int, readable: bool, writable: bool,
                       script: Script, rc: int, reply: Reply, teardown: Script)
    requires Steady(s, {})
    ensures Kept(s, OnPollEvent(s, status, readable, writable, script, rc, reply, teardown))
  {
    hide HandleFatal, RunScript, ApplyPollEvents, Evolves, Touch;
    if s.context.None? {
      KeptRefl(s);
    } else if status < 0 {
      AliveIsOld(s, {});
      SteadyBreakable(s, {});
      FatalKeeps(s, teardown);
    } else if !readable && !writable {
      KeptRefl(s);
    } else if rc < 0 {
      ServiceOrFatal(s, script, teardown);
    } else {
      ServeThenApply(s, script, reply, teardown);
    }
    hide Steady;
  }

  // ---- Calls from JavaScript --------------------------------------------------------------

  lemma AnswerSteady(s: Wrap, files: T.Table, dirs: T.Table, kind: Kind, outcome: Outcome)
    requires Steady(s, {}) && T.TableInv(files) && T.TableInv(dirs)
    requires T.Continues(s.files, files) && T.Continues(s.dirs, dirs)
    requires s.connected || (files.entries == map[] && dirs.entries == map[])
    requires Rank(s) < DISCONNECTING || outcome.Rejected?
    ensures Kept(s, s.(files := files, dirs := dirs, ledger := Answer(s.ledger, kind, outcome)))
  {
    hide LedgerInv, T.TableInv, P.LinkInv, Answer, Remembers, NoNewSuccess;
    AnswerFacts(s.ledger, kind, outcome, s.cleanupRef);
  }

  lemma RefuseKeeps(s: Wrap, kind: Kind)
    requires Steady(s, {})
    ensures Kept(s, Refuse(s, kind))
  {
    TablesSound(s, {});
    hide LedgerInv, T.TableInv, P.LinkInv, Kept, Answer;
    AnswerSteady(s, s.files, s.dirs, kind, Rejected(InvalidState));
    assert Refuse(s, kind)
        == s.(files := s.files, dirs := s.dirs, ledger := Answer(s.ledger, kind, Rejected(InvalidState)));
  }

  lemma ReaddirKeeps(s: Wrap, handle: nat, entry: Option<Text>)
    requires Steady(s, {})
    ensures Kept(s, Readdir(s, handle, entry))
  {
    TablesSound(s, {});
    RefuseKeeps(s, ReaddirOp);
    if Ready(s) && handle in s.dirs.entries {
      AliveIsOld(s, {});
      var value := match entry
        case None => Null
        case Some(name) => Named(Paths.Join(s.dirs.entries[handle].path, name), name);
      AnswerSteady(s, s.files, s.dirs, ReaddirOp, Resolved(value));
      assert Readdir(s, handle, entry)
          == s.(files := s.files, dirs := s.dirs, ledger := Answer(s.ledger, ReaddirOp, Resolved(value)));
    }
    hide Steady, Evolves, Answer, Refuse;
  }

  lemma ClosedirKeeps(s: Wrap, handle: nat)
    requires Steady(s, {})
    ensures Kept(s, Closedir(s, handle))
  {
    TablesSound(s, {});
    RefuseKeeps(s, ClosedirOp);
    if Ready(s) && handle in s.dirs.entries {
      AliveIsOld(s, {});
      T.HandOverKeeps(s.dirs, handle);
      AnswerSteady(s, s.files, T.HandOver(s.dirs, handle), ClosedirOp, Resolved(Undefined));
      assert Closedir(s, handle)
          == s.(files := s.files, dirs := T.HandOver(s.dirs, handle),
                ledger := Answer(s.ledger, ClosedirOp, Resolved(Undefined)));
    }
    hide Steady, Evolves, Answer, Refuse;
  }

  lemma EnlistedEvolves(s: Wrap, kind: Kind, now: nat, path: Text, reply: Reply)
    requires Steady(s, {}) && s.connected
    ensures var t := Enlisted(s, kind, now, path, reply);
      Breakable(t) && Evolves(s, t)
  {
    hide LedgerInv, T.TableInv, P.LinkInv, Remembers, NoNewSuccess, Enrol, Evolves;
    EnrolFacts(s.ledger, kind, now, path, s.cleanupRef);
    EvolvesBySettling(s, Enlisted(s, kind, now, path, reply));
  }

  lemma EnlistedCalled(s: Wrap, kind: Kind, now: nat, path: Text, reply: Reply)
    requires Steady(s, {}) && Ready(s) && !kind.ConnectOp? && Arms(s.timer, reply)
    ensures Called(Enlisted(s, kind, now, path, reply), s.ledger.nextId, {})
  {
    hide LedgerInv, T.TableInv, P.LinkInv, Remembers, NoNewSuccess, Enrol;
    EnrolFacts(s.ledger, kind, now, path, s.cleanupRef);
  }

  lemma OweKeeps(s: Wrap, id: OpId)
    requires Called(s, id, {})
    ensures Kept(s, Owe(s, id))
  {
    hide LedgerInv, T.TableInv, P.LinkInv, Evolves;
    OweLedger(s.ledger, id, s.cleanupRef);
    EvolvesQuietly(s, Owe(s, id));
  }

  lemma OweLedger(m: Ledger, id: OpId, held: bool)
    requires LedgerInv(m, {}, held) && id in m.operations
    ensures LedgerInv(Submitted(m, id), {}, held)
  {
  }

  lemma ConcludedKeeps(s: Wrap, id: OpId, armed: bool, rc: int, script: Script)
    requires if armed then Called(s, id, {}) && s.connected else Breakable(s)
    ensures Kept(s, Concluded(s, id, armed, rc, script))
  {
    if armed {
      AliveIsOld(s, {id});
    }
    if !armed {
      FatalKeeps(s, script);
    } else if rc < 0 {
      RejectFinish(s, id, Classified(rc), {});
    } else {
      OweKeeps(s, id);
    }
    hide Steady, Evolves, Spares, HandleFatal, RejectOp, Finish, Owe, Called, Breakable, Touch;
  }

  lemma TableSteady(s: Wrap, files: T.Table)
    requires Steady(s, {}) && T.TableInv(files) && T.Continues(s.files, files) && s.connected
    ensures Steady(s.(files := files), {}) && Kept(s, s.(files := files))
  {
    hide LedgerInv, T.TableInv, P.LinkInv, Evolves;
    EvolvesQuietly(s, s.(files := files));
  }

  lemma AcceptedKeeps(s: Wrap, kind: Kind, now: nat, path: Text, reply: Reply, rc: int, script: Script)
    requires Steady(s, {}) && Ready(s) && IsRequest(kind)
    ensures Kept(s, Concluded(Enlisted(s, kind, now, path, reply), s.ledger.nextId, Arms(s.timer, reply), rc, script))
  {
    EnlistedEvolves(s, kind, now, path, reply);
    EnlistedConnected(s, kind, now, path, reply);
    var s1 := Enlisted(s, kind, now, path, reply);
    var armed := Arms(s.timer, reply);
    if armed {
      EnlistedCalled(s, kind, now, path, reply);
    }
    hide Steady, Evolves, Concluded, Called, Breakable, Enlisted;
    ConcludedKeeps(s1, s.ledger.nextId, armed, rc, script);
    EvolvesTrans(s, s1, Concluded(s1, s.ledger.nextId, armed, rc, script));
  }

  lemma RequestAccepted(s: Wrap, files: T.Table, kind: Kind, where: Text, now: nat, reply: Reply, rc: int,
                        script: Script)
    requires Steady(s, {}) && Ready(s) && IsRequest(kind) && T.TableInv(files) && T.Continues(s.files, files)
    ensures Kept(s, Concluded(Enlisted(s.(files := files), kind, now, where, reply),
                              s.ledger.nextId, Arms(s.timer, reply), rc, script))
  {
    TableSteady(s, files);
    hide Steady, Concluded, Enlisted, Kept, T.TableInv;
    var s1 := s.(files := files);
    AcceptedKeeps(s1, kind, now, where, reply, rc, script);
    KeptTrans(s, s1,
              Concluded(Enlisted(s1, kind, now, where, reply), s.ledger.nextId, Arms(s.timer, reply), rc, script));
  }

  lemma RequestKeeps(s: Wrap, kind: Kind, path: Text, handle: nat, tooLong: bool,
                     now: nat, reply: Reply, rc: int, script: Script)
    requires Steady(s, {}) && IsRequest(kind)
    ensures Kept(s, Request(s, kind, path, handle, tooLong, now, reply, rc, script))
  {
    hide Steady, Concluded, Enlisted, AfterRequest, Kept, T.TableInv, Refuse;
    if Acceptable(s, kind, handle, tooLong) {
      var armed := Arms(s.timer, reply);
      AfterRequestKeeps(s, kind, handle, armed);
      var where := if NeedsFile(kind) then s.files.entries[handle].path else path;
      RequestAccepted(s, AfterRequest(s, kind, handle, armed), kind, where, now, reply, rc, script);
    } else {
      RefuseKeeps(s, kind);
    }
  }

  lemma AfterRequestKeeps(s: Wrap, kind: Kind, handle: nat, armed: bool)
    requires Steady(s, {}) && (kind.CloseOp? ==> handle in s.files.entries)
    ensures T.TableInv(AfterRequest(s, kind, handle, armed))
    ensures T.Continues(s.files, AfterRequest(s, kind, handle, armed))
  {
    TablesSound(s, {});
    hide Steady, T.TableInv, T.HandOver, T.Forget;
    if kind.CloseOp? {
      T.HandOverKeeps(s.files, handle);
      T.ForgetKeeps(s.files, handle);
    }
  }

  lemma EnlistedConnected(s: Wrap, kind: Kind, now: nat, path: Text, reply: Reply)
    ensures Enlisted(s, kind, now, path, reply).connected == s.connected
  {
  }

  // ---- Connecting and disconnecting -------------------------------------------------------

  lemma ConnectKeeps(s: Wrap, choice: Option<CtxId>, path: Text, now: nat, reply: Reply, rc: int, script: Script)
    requires Steady(s, {}) && s.ledger.nextId == 0
    ensures Kept(s, Connect(s, choice, path, now, reply, rc, script))
  {
    if choice.None? || choice.value in s.shared.live {
      StillbornSteady(s, ConnectOp, now, path, Rejected(NoContext));
    } else {
      ConnectingKeeps(s, choice.value, path, now, reply, rc, script);
    }
    hide Steady, Stillborn, Enlisted, Finish, CleanupContext, HandleFatal;
  }

  lemma StillbornSteady(s: Wrap, kind: Kind, now: nat, path: Text, outcome: Outcome)
    requires Steady(s, {}) && (outcome.Rejected? || kind.DisconnectOp?)
    ensures Kept(s, s.(ledger := Stillborn(s.ledger, kind, now, path, outcome)))
  {
    hide LedgerInv, T.TableInv, P.LinkInv, Stillborn, Remembers, NoNewSuccess, Evolves;
    StillbornFacts(s.ledger, kind, now, path, outcome, s.cleanupRef);
    EvolvesBySettling(s, s.(ledger := Stillborn(s.ledger, kind, now, path, outcome)));
  }

  /** A fresh wrapper that has got its context and listed its connect operation. */
  function Dialling(s: Wrap, ctx: CtxId, path: Text, now: nat, reply: Reply): Wrap {
    Enlisted(EnsureContext(s, Some(ctx)), ConnectOp, now, path, reply)
  }

  lemma FreshIsEmpty(s: Wrap)
    requires Steady(s, {}) && s.ledger.nextId == 0
    ensures s.ledger.operations == map[] && s.ledger.pending == {} && s.ledger.deferred == multiset{}
    ensures s.ledger.promises == map[] && s.ledger.outstanding == {}
  {
    Membership(s.ledger, {}, s.cleanupRef);
    hide LedgerInv, T.TableInv, P.LinkInv;
    assert forall id :: id !in s.ledger.operations;
    assert forall id :: id !in s.ledger.promises;
  }

  /** A context of its own, and nobody else's touched. */
  lemma EnsureFacts(s: Wrap, ctx: CtxId)
    requires Routed(s) && s.context.None? && ctx !in s.shared.live
    ensures var t := EnsureContext(s, Some(ctx));
      t == s.(context := Some(ctx), shared := t.shared) && Routed(t) && Neighbourly(s, t)
  {
  }

  lemma SameNeighbours(s: Wrap, t: Wrap, u: Wrap)
    requires u.self == t.self && u.shared == t.shared && u.context == t.context
    ensures Neighbourly(s, t) ==> Neighbourly(s, u)
    ensures Routed(t) ==> Routed(u)
  {
  }

  lemma DiallingFields(s: Wrap, ctx: CtxId, path: Text, now: nat, reply: Reply)
    requires Steady(s, {}) && s.ledger.nextId == 0 && ctx !in s.shared.live
    ensures var t := Dialling(s, ctx, path, now, reply);
      && t == s.(context := Some(ctx), shared := t.shared, timer := Arm(s.timer, Tick, reply), ledger := t.ledger)
      && t.ledger.operations == map[0 := Operation(ConnectOp, false, now, path)]
      && t.ledger.pending == {0} && t.ledger.deferred == multiset{} && t.ledger.outstanding == {}
      && t.ledger.nextId == 1
      && LedgerInv(t.ledger, {}, s.cleanupRef)
      && Remembers(s.ledger, t.ledger) && NoNewSuccess(s.ledger, t.ledger)
      && Routed(t) && Neighbourly(s, t)
  {
    FreshIsEmpty(s);
    FreshParts(s);
    hide Steady, LedgerInv, Remembers, NoNewSuccess, Enrol, Routed, Neighbourly, EnsureContext, Arm;
    EnrolFacts(s.ledger, ConnectOp, now, path, s.cleanupRef);
    EnsureFacts(s, ctx);
    SameNeighbours(s, EnsureContext(s, Some(ctx)), Dialling(s, ctx, path, now, reply));
  }

  lemma DiallingSound(s: Wrap, ctx: CtxId, path: Text, now: nat, reply: Reply)
    requires Steady(s, {}) && s.ledger.nextId == 0 && ctx !in s.shared.live
    ensures Breakable(Dialling(s, ctx, path, now, reply))
  {
    DiallingFields(s, ctx, path, now, reply);
    hide LedgerInv, T.TableInv, P.LinkInv, Remembers, NoNewSuccess, Routed, Neighbourly, Dialling, Connecting;
  }

  lemma DiallingEvolves(s: Wrap, ctx: CtxId, path: Text, now: nat, reply: Reply)
    requires Steady(s, {}) && s.ledger.nextId == 0 && ctx !in s.shared.live
    ensures Evolves(s, Dialling(s, ctx, path, now, reply))
  {
    FreshParts(s);
    DiallingFields(s, ctx, path, now, reply);
    hide Steady, LedgerInv, Remembers, NoNewSuccess, Routed, Neighbourly, Dialling;
  }

  lemma BreakableParts(s: Wrap)
    requires Breakable(s)
    ensures Sound(s) && Routed(s)
  {
  }

  lemma FreshParts(s: Wrap)
    requires Steady(s, {}) && s.ledger.nextId == 0
    ensures LedgerInv(s.ledger, {}, s.cleanupRef) && s.context.None? && Routed(s) && !s.cleanupRef
  {
    SoundLedger(s);
    hide Sound, LedgerInv;
  }

  lemma SoundLedger(s: Wrap)
    requires Sound(s)
    ensures LedgerInv(s.ledger, {}, s.cleanupRef)
  {
  }

  lemma DiallingCalled(s: Wrap, ctx: CtxId, path: Text, now: nat, reply: Reply)
    requires Steady(s, {}) && s.ledger.nextId == 0 && ctx !in s.shared.live && Arms(s.timer, reply)
    ensures Called(Dialling(s, ctx, path, now, reply), 0, {})
  {
    DiallingSound(s, ctx, path, now, reply);
    DiallingFields(s, ctx, path, now, reply);
    hide Sound, LedgerInv, Remembers, NoNewSuccess, Routed, Neighbourly, Breakable, Dialling, Called;
    FreshParts(s);
    BreakableParts(Dialling(s, ctx, path, now, reply));
    CalledBack(Dialling(s, ctx, path, now, reply), Operation(ConnectOp, false, now, path));
  }

  /** A connection that has just begun to connect, while its own callback runs. */
  lemma CalledBack(s: Wrap, op: Operation)
    requires Sound(s) && Routed(s) && s.context.Some? && op.kind.ConnectOp? && !op.settled
    requires s.ledger.operations == map[0 := op] && s.ledger.pending == {0}
    requires s.ledger.deferred == multiset{} && s.ledger.outstanding == {} && s.ledger.nextId == 1
    requires !s.connected && !s.disconnecting && s.timer == Timer(true, Tick) && !s.cleanupRef
    requires s.files.entries == map[] && s.dirs.entries == map[]
    ensures Called(s, 0, {})
  {
    hide Sound, Routed;
  }

  /** libsmb2 refuses the connect at once: reject, finish, tear down. */
  lemma DialRefused(s: Wrap, id: OpId, code: Code, script: Script)
    requires Called(s, id, {}) && s.ledger.operations[id].kind.ConnectOp? && Unsettled(s.ledger, id)
    ensures Kept(s, CleanupContext(Finish(RejectOp(s, id, code), id), script))
  {
    RejectedConnect(s, id, code, {});
    hide Steady, Evolves, Sound, RejectOp, CleanupContext, Spares;
    var s1 := RejectOp(s, id, code);
    FinishSound(s1, id);
    FinishedConnect(s1, id);
    var s2 := Finish(s1, id);
    hide Finish, Routed, AllSettled;
    CleanupEffect(s2, script);
    TornDownSteady(s2, CleanupContext(s2, script), {});
    EvolvesTrans(s, s1, s2);
    EvolvesTrans(s, s2, CleanupContext(s2, script));
  }

  lemma FinishedConnect(s: Wrap, id: OpId)
    requires Routed(s) && AllSettled(s.ledger) && s.ledger.nextId > 0 && s.ledger.deferred == multiset{}
    requires s.context.Some? && Rank(s) == CONNECTING
    ensures var t := Finish(s, id);
      Routed(t) && AllSettled(t.ledger) && t.ledger.nextId > 0 && t.ledger.deferred == multiset{}
      && t.context.Some? && Evolves(s, t)
  {
    hide Retire, Evolves;
    RetireFacts(s.ledger, id);
    EvolvesQuietly(s, Finish(s, id));
  }

  lemma DialledKeeps(s: Wrap, id: OpId, rc: int, script: Script)
    requires Called(s, id, {}) && s.ledger.operations[id].kind.ConnectOp? && Unsettled(s.ledger, id)
    ensures Touch(s) == s
    ensures Kept(s, if rc < 0 then CleanupContext(Finish(RejectOp(s, id, Classified(rc)), id), script) else Owe(s, id))
  {
    AliveIsOld(s, {id});
    if rc < 0 {
      DialRefused(s, id, Classified(rc), script);
    } else {
      OweKeeps(s, id);
    }
    hide *;
  }

  lemma ConnectingKeeps(s: Wrap, ctx: CtxId, path: Text, now: nat, reply: Reply, rc: int, script: Script)
    requires Steady(s, {}) && s.ledger.nextId == 0 && ctx !in s.shared.live && s.context.None?
    ensures Kept(s, Connect(s, Some(ctx), path, now, reply, rc, script))
  {
    hide Steady, Evolves, Finish, RejectOp, CleanupContext, HandleFatal, Touch, Owe, Enlisted, Called, Breakable;
    DiallingSound(s, ctx, path, now, reply);
    DiallingEvolves(s, ctx, path, now, reply);
    var s1 := Dialling(s, ctx, path, now, reply);
    if Arms(s.timer, reply) {
      DiallingCalled(s, ctx, path, now, reply);
      OnlyConnect0(s, ctx, path, now, reply);
      DialledKeeps(s1, 0, rc, script);
    } else {
      FatalKeeps(s1, script);
    }
    EvolvesTrans(s, s1, Connect(s, Some(ctx), path, now, reply, rc, script));
  }

  lemma OnlyConnect0(s: Wrap, ctx: CtxId, path: Text, now: nat, reply: Reply)
    requires s.ledger.nextId == 0 && s.context.None? && ctx !in s.shared.live
    ensures var t := Dialling(s, ctx, path, now, reply);
      Unsettled(t.ledger, 0) && t.ledger.operations[0].kind.ConnectOp?
  {
  }

  /** A connection once Disconnect has rejected everything and listed its own operation. */
  function Leaving(s: Wrap, now: nat, reply: Reply): Wrap {
    Enlisted(RejectAll(s.(disconnecting := true), ConnectionLost), DisconnectOp, now, [], reply)
  }

  lemma AllRejected(s: Wrap)
    requires Steady(s, {}) && s.connected
    ensures var t := RejectAll(s.(disconnecting := true), ConnectionLost);
      && Steady(t, {}) && AllSettled(t.ledger) && Evolves(s, t) && t.connected && t.disconnecting
      && OnlyRejects(s.ledger, t.ledger, ConnectionLost) && t.timer == s.timer && t.context == s.context
      && t.ledger.nextId == s.ledger.nextId
  {
    hide LedgerInv, T.TableInv, P.LinkInv, RejectEach, OnlyRejects, Evolves, Remembers, NoNewSuccess;
    var t := RejectAll(s.(disconnecting := true), ConnectionLost);
    RejectAllFacts(s.ledger, ConnectionLost, {}, s.cleanupRef);
    OnlyRejectsEvolves(s.ledger, t.ledger, ConnectionLost);
    NextIdKept(s.ledger, t.ledger);
    EvolvesBySettling(s, t);
  }

  lemma LeavingCalled(s: Wrap, now: nat, reply: Reply)
    requires Steady(s, {}) && AllSettled(s.ledger) && s.connected && s.disconnecting && Arms(s.timer, reply)
    ensures Called(Enlisted(s, DisconnectOp, now, [], reply), s.ledger.nextId, {})
  {
    hide LedgerInv, T.TableInv, P.LinkInv, Remembers, NoNewSuccess, Enrol;
    EnrolFacts(s.ledger, DisconnectOp, now, [], s.cleanupRef);
  }

  lemma LeavingFields(s: Wrap, now: nat, reply: Reply)
    requires AllSettled(s.ledger)
    ensures var t := Enlisted(s, DisconnectOp, now, [], reply);
      && Unsettled(t.ledger, s.ledger.nextId)
      && t.ledger.operations[s.ledger.nextId].kind.DisconnectOp?
      && (forall x :: x in t.ledger.operations && x != s.ledger.nextId ==> t.ledger.operations[x].settled)
      && t.connected == s.connected
  {
  }

  /** libsmb2 refuses the disconnect at once: reject, tear down, finish. */
  lemma LeaveRefused(s: Wrap, id: OpId, code: Code, script: Script)
    requires Called(s, id, {}) && s.connected && Unsettled(s.ledger, id)
    requires forall x :: x in s.ledger.operations && x != id ==> s.ledger.operations[x].settled
    ensures Kept(s, Finish(CleanupContext(RejectOp(s, id, code), script), id))
  {
    LeaveRejected(s, id, code);
    hide Steady, Called, Evolves, Sound, Finish, RejectOp, CleanupContext, Routed, AllSettled, Spares;
    var s1 := RejectOp(s, id, code);
    CleanupEffect(s1, script);
    var s2 := CleanupContext(s1, script);
    TornDownSteady(s1, s2, {});
    FinishDead(s2, id, {});
    EvolvesTrans(s, s1, s2);
    EvolvesTrans(s, s2, Finish(s2, id));
  }

  lemma LeaveRejected(s: Wrap, id: OpId, code: Code)
    requires Called(s, id, {}) && s.connected && Unsettled(s.ledger, id)
    requires forall x :: x in s.ledger.operations && x != id ==> s.ledger.operations[x].settled
    ensures var t := RejectOp(s, id, code);
      && Sound(t) && Routed(t) && AllSettled(t.ledger) && t.ledger.nextId > 0 && Evolves(s, t)
      && t.ledger.deferred == multiset{} && t.context.Some?
      && id in t.ledger.operations && id !in t.ledger.outstanding
  {
    hide LedgerInv, T.TableInv, P.LinkInv, Settle, Reject, Remembers, NoNewSuccess, Evolves;
    RejectIsSettle(s.ledger, id, code, {}, s.cleanupRef);
    SettleFacts(s.ledger, id, Rejected(code), {}, s.cleanupRef);
    Membership(s.ledger, {}, s.cleanupRef);
    EvolvesBySettling(s, RejectOp(s, id, code));
  }

  lemma LeftKeeps(s: Wrap, id: OpId, rc: int, script: Script)
    requires Called(s, id, {}) && s.connected && Unsettled(s.ledger, id)
    requires forall x :: x in s.ledger.operations && x != id ==> s.ledger.operations[x].settled
    ensures Touch(s) == s
    ensures Kept(s, if rc < 0 then Finish(CleanupContext(RejectOp(s, id, Classified(rc)), script), id) else Owe(s, id))
  {
    AliveIsOld(s, {id});
    if rc < 0 {
      LeaveRefused(s, id, Classified(rc), script);
    } else {
      OweKeeps(s, id);
    }
    hide *;
  }

  /** From the moment everything has been rejected, the rest of Disconnect is evolution. */
  lemma LeavingKeeps(s: Wrap, now: nat, reply: Reply, rc: int, script: Script)
    requires Steady(s, {}) && s.connected
    ensures var s1 := RejectAll(s.(disconnecting := true), ConnectionLost);
      Kept(s1, Disconnect(s, now, reply, rc, script)) && Evolves(s, s1)
  {
    assert s.context.Some?;
    AllRejected(s);
    hide HandleFatal, Called, Breakable, Enlisted, RejectAll, Evolves, RejectOp, CleanupContext, Finish, Owe, Touch,
      AllSettled, OnlyRejects, Steady;
    var s1 := RejectAll(s.(disconnecting := true), ConnectionLost);
    var s2 := Enlisted(s1, DisconnectOp, now, [], reply);
    EnlistedEvolves(s1, DisconnectOp, now, [], reply);
    LeavingFields(s1, now, reply);
    if Arms(s.timer, reply) {
      LeavingCalled(s1, now, reply);
      LeftKeeps(s2, s1.ledger.nextId, rc, script);
    } else {
      FatalKeeps(s2, script);
    }
    EvolvesTrans(s1, s2, Disconnect(s, now, reply, rc, script));
  }

  lemma DisconnectKeeps(s: Wrap, now: nat, reply: Reply, rc: int, script: Script)
    requires Steady(s, {})
    ensures Kept(s, Disconnect(s, now, reply, rc, script))
  {
    if s.connected {
      LeavingKeeps(s, now, reply, rc, script);
      hide Steady, Evolves, Disconnect;
      var s1 := RejectAll(s.(disconnecting := true), ConnectionLost);
      EvolvesTrans(s, s1, Disconnect(s, now, reply, rc, script));
    } else {
      StillbornSteady(s, DisconnectOp, now, [], Resolved(Undefined));
      hide Steady, Evolves;
    }
  }

  // ---- Every step -------------------------------------------------------------------------

  /** With no reference left nothing is pending, so whatever libsmb2 still owes is settled. */
  lemma CollectableIsQuiet(s: Wrap)
    requires Steady(s, {}) && s.ledger.refs == 0
    ensures s.ledger.pending == {} && !s.cleanupRef && AllSettled(s.ledger)
    ensures Sound(s) && Routed(s) && (s.context.Some? ==> s.ledger.nextId > 0)
    ensures s.context.None? ==> s.ledger.outstanding == {}
  {
    Membership(s.ledger, {}, s.cleanupRef);
    assert |s.ledger.pending| == 0;
  }

  lemma CollectedKeeps(s: Wrap, script: Script)
    requires Steady(s, {}) && s.ledger.refs == 0
    ensures var t := Finalize(s, script);
      && Kept(s, t) && t.ledger.operations == map[] && t.context == None && t.link.poll == None
      && t.ledger.promises == s.ledger.promises
      && (s.scheduleFailed ==> t.scheduleFailed)
  {
    CollectableIsQuiet(s);
    hide Steady, Evolves, Sound, Routed, Finalize;
    FinalizeKeeps(s, script);
  }

  lemma PollClosesKeeps(s: Wrap, id: nat)
    requires Steady(s, {}) && id in s.link.closing
    ensures Kept(s, s.(link := P.Free(s.link, id)))
  {
    assert P.LinkInv(s.link);
    P.FreeKeeps(s.link, id);
    hide P.LinkInv;
    LinkKeeps(s, P.Free(s.link, id));
  }

  /** Every step of a connection keeps it steady and moves it forward. */
  lemma StepKeeps(s: Wrap, e: Event)
    requires Steady(s, {})
    ensures Kept(s, Step(s, e))
  {
    hide Steady, Kept, Connect, Disconnect, Request, Readdir, Closedir, OnServiceTimer, OnPollEvent, FdChange,
      EventsChange, Finalize;
    if !Possible(s, e) {
      KeptRefl(s);
    } else {
      match e
      case DoConnect(choice, path, now, reply, rc, script) => ConnectKeeps(s, choice, path, now, reply, rc, script);
      case DoDisconnect(now, reply, rc, script) => DisconnectKeeps(s, now, reply, rc, script);
      case DoRequest(kind, path, handle, tooLong, now, reply, rc, script) =>
        RequestKeeps(s, kind, path, handle, tooLong, now, reply, rc, script);
      case DoReaddir(handle, entry) => ReaddirKeeps(s, handle, entry);
      case DoClosedir(handle) => ClosedirKeeps(s, handle);
      case TimerFires(script, rc, teardown) => TimerKeeps(s, script, rc, teardown);
      case PollFires(status, readable, writable, script, rc, reply, teardown) =>
        PollEventKeeps(s, status, readable, writable, script, rc, reply, teardown);
      case FdMoves(ctx, fd, add, reply, teardown) => FdChangeKeeps(s, ctx, fd, add, reply, teardown);
      case MaskMoves(ctx, mask, reply, teardown) => EventsChangeKeeps(s, ctx, mask, reply, teardown);
      case PollCloses(id) => PollClosesKeeps(s, id);
      case Collected(script) => CollectedKeeps(s, script);
    }
  }
}
