/**
 From a call to its answer, and from a close to whatever comes after it, with any run in between.
 */
module Journeys {
  import opened Options
  import opened Texts
  import opened Operations
  import opened Lifecycle
  import opened Invariants
  import opened Steps
  import opened World
  import opened Theorems
  import opened Outcomes
  import opened Leftovers
  import opened Effects
  import opened Answers
  import T = HandleTable
  import P = PollLink
  import Paths

  // ---- What lasts -------------------------------------------------------------------------

  /** Over any run: no operation is replaced by another, its kind, its time and its path stay, an
      entry of a table never changes, and an id that has gone never comes back (below 2^32 opens). */
  lemma RunKeeps(w: World, id: WrapId, later: seq<Action>)
    requires Valid(w) && id in w.wraps
    ensures var n := Run(w, later);
      && Valid(n) && id in n.wraps
      && Remembers(w.wraps[id].ledger, n.wraps[id].ledger)
      && T.Continues(w.wraps[id].files, n.wraps[id].files)
      && T.Continues(w.wraps[id].dirs, n.wraps[id].dirs)
  {
    hide Steady, Run, Remembers, T.Continues;
    RunValid(w, later);
    assert Onward(Focus(w, id), Focus(Run(w, later), id));
  }

  /** An operation that is still there in a continuation is the one it was. */
  lemma DeedLasts(w: World, id: WrapId, op: OpId, later: seq<Action>)
    requires Valid(w) && id in w.wraps && op in w.wraps[id].ledger.operations
    ensures var n := Run(w, later);
      id in n.wraps && (op in n.wraps[id].ledger.operations ==>
        SameDeed(w.wraps[id].ledger.operations[op], n.wraps[id].ledger.operations[op]))
  {
    RunKeeps(w, id, later);
    OperationIsOld(Focus(w, id), op);
    hide Valid, Run, Steady;
  }

  lemma OperationIsOld(s: Wrap, op: OpId)
    requires Steady(s, {}) && op in s.ledger.operations
    ensures op < s.ledger.nextId
  {
    SoundLedger(s);
    Membership(s.ledger, {}, s.cleanupRef);
  }

  // ---- From a request to its answer -------------------------------------------------------

  /** The world after connection `id` has made a request that is accepted. */
  function HasAsked(w: World, id: WrapId, kind: Kind, path: Text, handle: nat, now: nat, rc: int): World {
    Next(w, Enter(id, DoRequest(kind, path, handle, false, now, Accepted, rc, [])))
  }

  predicate MayAsk(s: Wrap, kind: Kind, handle: nat) {
    && s.context.Some? && s.connected && !s.disconnecting
    && IsRequest(kind)
    && ((kind.ReadOp? || kind.WriteOp? || kind.FtruncateOp? || kind.CloseOp?) ==> handle in s.files.entries)
  }

  /** The path a request is about. */
  function Subject(s: Wrap, kind: Kind, path: Text, handle: nat): Text
    requires MayAsk(s, kind, handle)
  {
    match kind
    case ReadOp | WriteOp | FtruncateOp | CloseOp => s.files.entries[handle].path
    case _ => path
  }

  /** While it waits for its answer, whatever happens meanwhile, the request is about that path. */
  lemma AskedAbout(w: World, id: WrapId, kind: Kind, path: Text, handle: nat, now: nat, rc: int, later: seq<Action>)
    requires Reachable(w) && id in w.wraps && MayAsk(w.wraps[id], kind, handle) && rc >= 0
    ensures var op := w.wraps[id].ledger.nextId;
      var n := Run(HasAsked(w, id, kind, path, handle, now, rc), later);
      && Reachable(n) && id in n.wraps
      && (op in n.wraps[id].ledger.operations ==>
            SameDeed(Operation(kind, false, now, Subject(w.wraps[id], kind, path, handle)),
                     n.wraps[id].ledger.operations[op]))
  {
    hide Steady, Step, Run, Reachable, Request, Next, Valid;
    var s := Focus(w, id);
    var a := Enter(id, DoRequest(kind, path, handle, false, now, Accepted, rc, []));
    var w1 := Next(w, a);
    ReachableSteady(w, id);
    NextFocus(w, id, a);
    RequestSteps(s, kind, path, handle, now, rc);
    RequestSubmits(s, kind, path, handle, false, now, rc, []);
    ReachableNext(w, a);
    ReachableRun(w1, later);
    ReachableSteady(w1, id);
    DeedLasts(w1, id, s.ledger.nextId, later);
  }

  lemma RequestSteps(s: Wrap, kind: Kind, path: Text, handle: nat, now: nat, rc: int)
    requires IsRequest(kind)
    ensures Step(s, DoRequest(kind, path, handle, false, now, Accepted, rc, []))
         == Request(s, kind, path, handle, false, now, Accepted, rc, [])
  {
    hide Request;
  }

  lemma ReachableRun(w: World, later: seq<Action>)
    requires Reachable(w)
    ensures Reachable(Run(w, later))
  {
    hide Run;
    var actions :| w == Run(EMPTY_WORLD, actions);
    RunTwice(EMPTY_WORLD, actions, later);
  }

  /** What libsmb2's answer to a request settles its promise with. */
  predicate Settles(outcomes: seq<Outcome>, kind: Kind, path: Text, status: int) {
    |outcomes| == 1 &&
      if status < 0 then outcomes[0] == Rejected(Classified(status))
      else if kind.StatOp? then outcomes[0] == Resolved(Named(path, Paths.Basename(path)))
      else if kind.ReadOp? || kind.WriteOp? then outcomes[0] == Resolved(Number(status))
      else if kind.OpenOp? || kind.OpendirOp? then outcomes[0].Resolved? && outcomes[0].value.Number?
      else outcomes[0] == Resolved(Undefined)
  }

  /** A request that is made, and, after any run in which it has not been settled, answered by libsmb2
      in the middle of a service call, has its promise settled with what its kind and path and the
      status say, and its operation freed. */
  lemma RequestIsAnswered(w: World, id: WrapId, kind: Kind, path: Text, handle: nat, now: nat, rc: int,
                          later: seq<Action>, e: Event, k: nat)
    requires Reachable(w) && id in w.wraps && MayAsk(w.wraps[id], kind, handle) && rc >= 0
    requires var n := Run(HasAsked(w, id, kind, path, handle, now, rc), later);
      id in n.wraps && Answered(Focus(n, id), w.wraps[id].ledger.nextId, e, k)
    ensures var n := Run(HasAsked(w, id, kind, path, handle, now, rc), later);
      var m, op := Step(Focus(n, id), e).ledger, w.wraps[id].ledger.nextId;
      && op !in m.operations && op in m.promises
      && Settles(m.promises[op].outcomes, kind, Subject(w.wraps[id], kind, path, handle), e.script[k].status)
  {
    hide Steady, Step, Run, Reachable, HasAsked, RunScript, Awaits, AnswersRequest, Services, Possible, MayAsk;
    AskedAbout(w, id, kind, path, handle, now, rc, later);
    var n := Run(HasAsked(w, id, kind, path, handle, now, rc), later);
    ReachableSteady(n, id);
    var s, op := Focus(n, id), w.wraps[id].ledger.nextId;
    AwaitedIsOld(s, op);
    ServiceAnswers(s, e, k);
    assert IsRequest(kind) by { AskedIsRequest(w.wraps[id], kind, handle); }
    assert e.PollFires? || e.TimerFires? by { ServicesKind(s, e); }
    VerdictSettles(RunScript(s, s.context.value, e.script[..k], false), op, e.script[k].status);
  }

  lemma ServicesKind(s: Wrap, e: Event)
    requires Services(s, e)
    ensures e.PollFires? || e.TimerFires?
  {
  }

  lemma AskedIsRequest(s: Wrap, kind: Kind, handle: nat)
    requires MayAsk(s, kind, handle)
    ensures IsRequest(kind)
  {
  }

  lemma VerdictSettles(s: Wrap, op: OpId, status: int)
    requires op in s.ledger.operations && IsRequest(s.ledger.operations[op].kind)
    ensures var o := s.ledger.operations[op]; Settles([Verdict(s, op, status)], o.kind, o.path, status)
  {
    hide Paths.Basename;
  }

  /** Event `e` is a service call that the connection survives, in whose script libsmb2 answers `op`
      first at place `k`, and before it nothing but requests. */
  predicate Answered(s: Wrap, op: OpId, e: Event, k: nat) {
    && s.context.Some? && Possible(s, e) && Services(s, e) && k < |e.script|
    && e.script[k].Complete? && e.script[k].op == op && Awaits(s.ledger, op)
    && (forall j :: 0 <= j < k ==> AnswersRequest(s.ledger, e.script[j]))
    && (forall j :: 0 <= j < k && e.script[j].Complete? ==> e.script[j].op != op)
  }

  // ---- From an open to its entry ----------------------------------------------------------

  /** `after` is `before` with the native handle just delivered under an id of its own. */
  predicate Enters(before: T.Table, after: T.Table, path: Text, outcomes: seq<Outcome>) {
    var v := before.next;
    && v !in before.entries
    && after.entries == before.entries[v := T.Entry(before.delivered, path)]
    && after.delivered == before.delivered + 1
    && after.log == before.log + [T.Opened(v, T.Entry(before.delivered, path))]
    && after.handed == before.handed
    && outcomes == [Resolved(Number(v))]
  }

  /** An open or opendir that libsmb2 answers with success enters the handle, with the operation's path,
      into the one table or the other, and resolves with its id. */
  lemma OpenEnters(s: Wrap, id: OpId, busy: set<OpId>, reply: Reply, nested: Script)
    requires Called(s, id, busy) && Unsettled(s.ledger, id)
    ensures var op, t := s.ledger.operations[id], OnComplete(s, id, 0, reply, nested);
      && (op.kind.OpenOp? && s.files.opens + 1 < 0x1_0000_0000 ==>
            id in t.ledger.promises && Enters(s.files, t.files, op.path, t.ledger.promises[id].outcomes)
            && t.dirs == s.dirs)
      && (op.kind.OpendirOp? && s.dirs.opens + 1 < 0x1_0000_0000 ==>
            id in t.ledger.promises && Enters(s.dirs, t.dirs, op.path, t.ledger.promises[id].outcomes)
            && t.files == s.files)
  {
    var op := s.ledger.operations[id];
    if op.kind.OpenOp? || op.kind.OpendirOp? {
      TablesSound(s, busy + {id});
      HandleEnters(s, id);
      hide Called, OnComplete, T.TableInv, Enters, WithHandle, T.Insert;
      OpenCompletes(s, id, busy, reply, nested);
    }
  }

  lemma OpenCompletes(s: Wrap, id: OpId, busy: set<OpId>, reply: Reply, nested: Script)
    requires Called(s, id, busy) && Unsettled(s.ledger, id)
    requires s.ledger.operations[id].kind.OpenOp? || s.ledger.operations[id].kind.OpendirOp?
    ensures var op, t := s.ledger.operations[id], OnComplete(s, id, 0, reply, nested);
      && id in t.ledger.promises
      && t.ledger.promises[id].outcomes
         == [Resolved(Number(if op.kind.OpenOp? then s.files.next else s.dirs.next))]
      && t.files == WithHandle(s, id).files && t.dirs == WithHandle(s, id).dirs
  {
    OpenMeansConnected(s, id, busy);
    CalledLedger(s, id, busy);
    hide Called, LedgerInv, OnComplete, Finish, ResolveOp, RejectOp, WithHandle, EndsAlone, T.Insert;
    RequestCompletes(s, id, busy, 0, reply, nested);
    RequestSplit(s, id, 0, reply, nested);
    EndKeepsTables(WithHandle(s, id), id, Delivered(s, id, 0));
    OpenVerdict(s, id);
    hide Delivered, Verdict;
  }

  lemma OpenVerdict(s: Wrap, id: OpId)
    requires id in s.ledger.operations
    requires s.ledger.operations[id].kind.OpenOp? || s.ledger.operations[id].kind.OpendirOp?
    ensures Verdict(s, id, 0)
         == Resolved(Number(if s.ledger.operations[id].kind.OpenOp? then s.files.next else s.dirs.next))
    ensures Verdict(s, id, 0) == Resolved(Delivered(s, id, 0))
  {
  }

  lemma HandleEnters(s: Wrap, id: OpId)
    requires id in s.ledger.operations && T.TableInv(s.files) && T.TableInv(s.dirs)
    ensures var op, t := s.ledger.operations[id], WithHandle(s, id);
      && (op.kind.OpenOp? ==> t.dirs == s.dirs && (s.files.opens + 1 < 0x1_0000_0000 ==>
            Enters(s.files, t.files, op.path, [Resolved(Number(s.files.next))])))
      && (op.kind.OpendirOp? ==> t.files == s.files && (s.dirs.opens + 1 < 0x1_0000_0000 ==>
            Enters(s.dirs, t.dirs, op.path, [Resolved(Number(s.dirs.next))])))
  {
    hide T.TableInv, T.Insert, Enters;
    if s.files.opens + 1 < 0x1_0000_0000 {
      FreshEntry(s.files, s.ledger.operations[id].path);
    }
    if s.dirs.opens + 1 < 0x1_0000_0000 {
      FreshEntry(s.dirs, s.ledger.operations[id].path);
    }
  }

  lemma EndKeepsTables(s: Wrap, id: OpId, value: Value)
    ensures var t := Finish(ResolveOp(s, id, value), id); t.files == s.files && t.dirs == s.dirs
  {
    hide Settle, Retire;
  }

  lemma FreshEntry(t: T.Table, path: Text)
    requires T.TableInv(t) && t.opens + 1 < 0x1_0000_0000
    ensures Enters(t, T.Insert(t, path), path, [Resolved(Number(t.next))])
  {
  }

  /** So a request to open `path` that is answered with success, after any run in which it has not been
      settled, leaves an entry with that path at that point of the script. */
  lemma OpenIsEntered(w: World, id: WrapId, kind: Kind, path: Text, now: nat, rc: int, later: seq<Action>,
                      e: Event, k: nat)
    requires Reachable(w) && id in w.wraps && MayAsk(w.wraps[id], kind, 0) && rc >= 0
    requires kind.OpenOp? || kind.OpendirOp?
    requires var n := Run(HasAsked(w, id, kind, path, 0, now, rc), later);
      && id in n.wraps && Answered(Focus(n, id), w.wraps[id].ledger.nextId, e, k) && e.script[k].status == 0
      && n.wraps[id].context.Some?
    ensures var s := Focus(Run(HasAsked(w, id, kind, path, 0, now, rc), later), id);
      var before, after := RunScript(s, s.context.value, e.script[..k], false),
                           RunScript(s, s.context.value, e.script[..k + 1], false);
      && (kind.OpenOp? && before.files.opens + 1 < 0x1_0000_0000 ==>
            Enters(before.files, after.files, path, Standing(after, w.wraps[id].ledger.nextId)))
      && (kind.OpendirOp? && before.dirs.opens + 1 < 0x1_0000_0000 ==>
            Enters(before.dirs, after.dirs, path, Standing(after, w.wraps[id].ledger.nextId)))
  {
    hide Steady, Step, Run, Reachable, HasAsked, RunScript, Awaits, AnswersRequest, Services, Possible, MayAsk, Serving,
      Enters;
    AskedAbout(w, id, kind, path, 0, now, rc, later);
    var n := Run(HasAsked(w, id, kind, path, 0, now, rc), later);
    ReachableSteady(n, id);
    var s, op := Focus(n, id), w.wraps[id].ledger.nextId;
    ServicesKind(s, e);
    AwaitedIsOld(s, op);
    AliveServes(s);
    OthersWait(s, s.context.value, e.script[..k], op, {});
    var before := RunScript(s, s.context.value, e.script[..k], false);
    assert e.script[..k + 1] == e.script[..k] + [e.script[k]];
    ScriptAppend(s, s.context.value, e.script[..k], [e.script[k]], false);
    OneOpen(before, s.context.value, e.script[k]);
  }

  lemma OneOpen(s: Wrap, ctx: CtxId, act: Act)
    requires Serving(s, ctx, {}) && act.Complete? && act.status == 0 && Awaits(s.ledger, act.op)
    ensures var t, op := RunScript(s, ctx, [act], false), s.ledger.operations[act.op];
      && (op.kind.OpenOp? && s.files.opens + 1 < 0x1_0000_0000 ==>
            Enters(s.files, t.files, op.path, Standing(t, act.op)))
      && (op.kind.OpendirOp? && s.dirs.opens + 1 < 0x1_0000_0000 ==>
            Enters(s.dirs, t.dirs, op.path, Standing(t, act.op)))
  {
    hide Serving, Called, OnComplete, Enters, Evolves;
    FiredCalled(s, ctx, act.op, {});
    var s1 := s.(ledger := Fired(s.ledger, act.op));
    OpenEnters(s1, act.op, {}, act.reply, act.nested);
    assert [act][1..] == [] && [act][0] == act;
    assert RunScript(s, ctx, [act], false) == RunScript(RunAct(s, ctx, act, false), ctx, [], false);
    assert RunAct(s, ctx, act, false) == OnComplete(s1, act.op, 0, act.reply, act.nested);
  }

  /** Once the counter has wrapped an id may still be in use: then the table stays as it is, the open
      resolves with the id of the older file, and the new handle is lost. */
  lemma WrappedOpenShadows(s: Wrap, id: OpId, busy: set<OpId>, reply: Reply, nested: Script)
    requires Called(s, id, busy) && Unsettled(s.ledger, id) && s.ledger.operations[id].kind.OpenOp?
    ensures var t := OnComplete(s, id, 0, reply, nested);
      && id in t.ledger.promises && t.ledger.promises[id].outcomes == [Resolved(Number(s.files.next))]
      && (s.files.next in s.files.entries <==> t.files.entries == s.files.entries)
      && (s.files.next in s.files.entries <==> T.WasDropped(t.files, s.files.delivered))
      && t.files.next == (s.files.next + 1) % 0x1_0000_0000
  {
    hide Called, OnComplete;
    OpenCompletes(s, id, busy, reply, nested);
    InsertTells(s.files, s.ledger.operations[id].path);
  }

  lemma InsertTells(t: T.Table, path: Text)
    ensures t.next in t.entries <==> T.Insert(t, path).entries == t.entries
    ensures t.next in t.entries <==> T.WasDropped(T.Insert(t, path), t.delivered)
    ensures T.Insert(t, path).next == (t.next + 1) % 0x1_0000_0000
  {
    if t.next !in t.entries {
      assert t.next in T.Insert(t, path).entries;
    }
  }

  /** A handle that an open delivers when nobody waits for it is closed again at once. */
  lemma LateOpenIsClosed(s: Wrap, id: OpId, busy: set<OpId>, reply: Reply)
    requires Called(s, id, busy) && s.ledger.operations[id].settled
    ensures var op, t := s.ledger.operations[id], OnComplete(s, id, 0, reply, []);
      && (op.kind.OpenOp? ==> Bounces(s.files, t.files) && t.dirs == s.dirs)
      && (op.kind.OpendirOp? ==> Bounces(s.dirs, t.dirs) && t.files == s.files)
      && ((op.kind.OpenOp? || op.kind.OpendirOp?) ==>
            t.ledger.promises == s.ledger.promises && id !in t.ledger.operations)
  {
    AliveIsOld(s, busy + {id});
    hide Called, Steady, Bounces, T.Bounce, OnComplete, Retire;
    LateSplit(s, id, reply);
    RetireFacts(s.ledger, id);
    Bounced(s.files);
    Bounced(s.dirs);
  }

  lemma LateSplit(s: Wrap, id: OpId, reply: Reply)
    requires id in s.ledger.operations && s.ledger.operations[id].settled && s.context.Some?
    requires s.context.value in s.shared.live
    ensures var op, t := s.ledger.operations[id], OnComplete(s, id, 0, reply, []);
      && (op.kind.OpenOp? ==> t.files == T.Bounce(s.files) && t.dirs == s.dirs)
      && (op.kind.OpendirOp? ==> t.dirs == T.Bounce(s.dirs) && t.files == s.files)
      && ((op.kind.OpenOp? || op.kind.OpendirOp?) ==> t.ledger == Retire(s.ledger, id))
  {
    hide Finish, RejectOp, Touch, T.Bounce, OnConnectComplete, OnDisconnectComplete, OnStatComplete, OnRequestComplete;
    LateEnd(s, s.(files := T.Bounce(s.files)), id);
    LateEnd(s, s.(dirs := T.Bounce(s.dirs)), id);
    assert RunScript(s.(files := T.Bounce(s.files)), s.context.value, [], false) == s.(files := T.Bounce(s.files));
  }

  lemma LateEnd(s: Wrap, u: Wrap, id: OpId)
    requires id in s.ledger.operations && s.ledger.operations[id].settled && s.context.Some?
    requires s.context.value in s.shared.live
    requires u.ledger == s.ledger && u.context == s.context && u.shared == s.shared
    ensures Touch(u) == u
    ensures var t := Finish(RejectOp(u, id, ConnectionLost), id);
      t.ledger == Retire(s.ledger, id) && t.files == u.files && t.dirs == u.dirs
  {
    RejectSettled(s.ledger, id, ConnectionLost);
    hide Retire, IdleTimer, Reject;
  }

  /** One more handle has been delivered, and handed to a close call. */
  predicate Bounces(t: T.Table, u: T.Table) {
    && u.entries == t.entries && u.next == t.next && u.opens == t.opens && u.log == t.log
    && u.delivered == t.delivered + 1
    && u.handed == t.handed + multiset{t.delivered}
    && u.place == t.place[t.delivered := T.Handed]
  }

  lemma Bounced(t: T.Table)
    ensures Bounces(t, T.Bounce(t))
  {
  }

  // ---- After a close ----------------------------------------------------------------------

  /** After a close, however it ends and whatever comes then, the id is in the table never again, and
      every call that takes it is refused (below 2^32 opens). */
  lemma ClosedForGood(w: World, id: WrapId, handle: nat, path: Text, now: nat, reply: Reply, rc: int, script: Script,
                      later: seq<Action>, kind: Kind, tooLong: bool)
    requires Reachable(w) && id in w.wraps && MayAsk(w.wraps[id], CloseOp, handle)
    requires var n := Run(Next(w, Enter(id, DoRequest(CloseOp, path, handle, false, now, reply, rc, script))), later);
      id in n.wraps && n.wraps[id].files.opens < 0x1_0000_0000
    ensures var n := Run(Next(w, Enter(id, DoRequest(CloseOp, path, handle, false, now, reply, rc, script))), later);
      && handle !in n.wraps[id].files.entries
      && ((kind.ReadOp? || kind.WriteOp? || kind.FtruncateOp? || kind.CloseOp?) ==>
            OnlyRefuses(Focus(n, id),
                        Step(Focus(n, id), DoRequest(kind, path, handle, tooLong, now, reply, rc, script)),
                        kind))
  {
    hide Steady, Step, Run, Reachable, Request, Next, Valid, T.TableInv, T.Continues;
    var s := Focus(w, id);
    var a := Enter(id, DoRequest(CloseOp, path, handle, false, now, reply, rc, script));
    var w1 := Next(w, a);
    var n := Run(w1, later);
    ReachableSteady(w, id);
    NextFocus(w, id, a);
    ClosingStep(s, path, handle, now, reply, rc, script);
    CloseRemoves(s, path, handle, false, now, reply, rc, script);
    ReachableNext(w, a);
    ReachableRun(w1, later);
    ReachableSteady(w1, id);
    ReachableSteady(n, id);
    RunKeeps(w1, id, later);
    TablesSound(s, {});
    StepContinues(s, a.event);
    GoneStaysGone(s.files, w1.wraps[id].files, n.wraps[id].files, handle);
    if kind.ReadOp? || kind.WriteOp? || kind.FtruncateOp? || kind.CloseOp? {
      RequestRefused(Focus(n, id), kind, path, handle, tooLong, now, reply, rc, script);
      AnyStep(Focus(n, id), kind, path, handle, tooLong, now, reply, rc, script);
    }
  }

  lemma ClosingStep(s: Wrap, path: Text, handle: nat, now: nat, reply: Reply, rc: int, script: Script)
    ensures Step(s, DoRequest(CloseOp, path, handle, false, now, reply, rc, script))
         == Request(s, CloseOp, path, handle, false, now, reply, rc, script)
  {
    hide Request;
  }

  lemma AnyStep(s: Wrap, kind: Kind, path: Text, handle: nat, tooLong: bool, now: nat, reply: Reply, rc: int,
                script: Script)
    requires IsRequest(kind)
    ensures Step(s, DoRequest(kind, path, handle, tooLong, now, reply, rc, script))
         == Request(s, kind, path, handle, tooLong, now, reply, rc, script)
  {
    hide Request;
  }

  lemma StepContinues(s: Wrap, e: Event)
    requires Steady(s, {})
    ensures T.Continues(s.files, Step(s, e).files) && T.Continues(s.dirs, Step(s, e).dirs)
  {
    hide Steady, Step, T.Continues;
    StepKeeps(s, e);
  }

  lemma GoneStaysGone(a: T.Table, b: T.Table, c: T.Table, handle: nat)
    requires T.TableInv(a) && handle in a.entries && handle !in b.entries
    requires T.Continues(a, b) && T.Continues(b, c) && c.opens < 0x1_0000_0000
    ensures handle !in c.entries
  {
  }

  /** The same after a closedir: reading and closing it again are refused. */
  lemma DirClosedForGood(w: World, id: WrapId, handle: nat, later: seq<Action>, entry: Option<Text>)
    requires Reachable(w) && id in w.wraps
    requires w.wraps[id].context.Some? && w.wraps[id].connected && !w.wraps[id].disconnecting
    requires handle in w.wraps[id].dirs.entries
    requires var n := Run(Next(w, Enter(id, DoClosedir(handle))), later);
      id in n.wraps && n.wraps[id].dirs.opens < 0x1_0000_0000
    ensures var n := Run(Next(w, Enter(id, DoClosedir(handle))), later);
      && handle !in n.wraps[id].dirs.entries
      && OnlyRefuses(Focus(n, id), Step(Focus(n, id), DoReaddir(handle, entry)), ReaddirOp)
      && OnlyRefuses(Focus(n, id), Step(Focus(n, id), DoClosedir(handle)), ClosedirOp)
  {
    hide Steady, Step, Run, Reachable, Closedir, Next, Valid, T.TableInv, T.Continues, OnlyRefuses;
    var s := Focus(w, id);
    var a := Enter(id, DoClosedir(handle));
    var w1 := Next(w, a);
    var n := Run(w1, later);
    ReachableSteady(w, id);
    NextFocus(w, id, a);
    DirStep(s, handle);
    ClosedirHandsOver(s, handle);
    ReachableNext(w, a);
    ReachableRun(w1, later);
    ReachableSteady(w1, id);
    RunKeeps(w1, id, later);
    TablesSound(s, {});
    StepContinues(s, a.event);
    GoneStaysGone(s.dirs, w1.wraps[id].dirs, n.wraps[id].dirs, handle);
    UnknownDirRefused(Focus(n, id), handle, entry);
  }

  lemma DirStep(s: Wrap, handle: nat)
    ensures Step(s, DoClosedir(handle)) == Closedir(s, handle)
  {
    hide Closedir;
  }

  /** Calls on a directory handle that is not in the table are refused. */
  lemma UnknownDirRefused(s: Wrap, handle: nat, entry: Option<Text>)
    requires handle !in s.dirs.entries
    ensures OnlyRefuses(s, Step(s, DoReaddir(handle, entry)), ReaddirOp)
    ensures OnlyRefuses(s, Step(s, DoClosedir(handle)), ClosedirOp)
  {
  }
}
