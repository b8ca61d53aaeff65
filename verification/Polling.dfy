/**
 What libuv watches for a connection, bit by bit and descriptor by descriptor, and what becomes of
 the connection when libuv refuses.
 */
module Polling {
  import opened Options
  import opened Operations
  import opened Lifecycle
  import opened Invariants
  import opened Steps
  import opened World
  import opened Theorems
  import opened Outcomes
  import T = HandleTable
  import P = PollLink

  /** A mask by its bits: 0x0001 asks to read, 0x0004 to write, the others are of no interest here. */
  function Mask(read: bool, write: bool, other: bool, high: int): int {
    (if read then 0x0001 else 0) + (if other then 0x0002 else 0) + (if write then 0x0004 else 0) + 0x0008 * high
  }

  lemma MaskIsTranslated(read: bool, write: bool, other: bool, high: int)
    ensures P.Translate(Mask(read, write, other, high)) == P.Watch(read, write)
  {
  }

  lemma EveryMask(mask: int) returns (read: bool, write: bool, other: bool, high: int)
    ensures mask == Mask(read, write, other, high)
  {
    read, other, write, high := mask % 2 == 1, mask / 2 % 2 == 1, mask / 4 % 2 == 1, mask / 8;
  }

  // ---- The mask ---------------------------------------------------------------------------

  /** In every run a poll watches for reading when bit 0 of the mask last asked for is set, and for
      writing when bit 2 is, unless a teardown has reset the mask since; then it watches nothing. */
  lemma PollWatchesMask(w: World, id: WrapId, read: bool, write: bool, other: bool, high: int)
    requires Reachable(w) && id in w.wraps && w.wraps[id].link.poll.Some?
    requires w.wraps[id].link.requested == Mask(read, write, other, high)
    ensures var l := w.wraps[id].link;
      l.poll.value.watched == if l.stale then P.Watch(false, false) else P.Watch(read, write)
  {
    hide Steady, Reachable, P.Translate;
    ReachableSteady(w, id);
    SteadyLink(Focus(w, id));
    MaskIsTranslated(read, write, other, high);
    assert P.Translate(0) == P.NOTHING by { MaskIsTranslated(false, false, false, 0); }
  }

  /** A new mask is watched at once, and nothing else about the connection changes; libuv can call
      back exactly if there is a poll and bit 0 or bit 2 is set. */
  lemma MaskIsWatched(s: Wrap, ctx: CtxId, read: bool, write: bool, other: bool, high: int, teardown: Script, e: Event)
    requires RoutesHere(s, ctx) && e.PollFires?
    ensures var mask := Mask(read, write, other, high);
      var t := Step(s, MaskMoves(ctx, mask, Accepted, teardown));
      && t == s.(link := s.link.(
           pollEvents := mask, requested := mask, stale := false,
           poll := if s.link.poll.None? then None
                   else Some(P.PollState(s.link.poll.value.id, s.link.poll.value.fd, P.Watch(read, write)))))
      && (Possible(t, e) <==> s.link.poll.Some? && (read || write))
  {
    hide HandleFatal, P.Translate, Mask;
    MaskIsTranslated(read, write, other, high);
  }

  // ---- The descriptor ---------------------------------------------------------------------

  /** The PollStates whose close callbacks are to come, once the current one is closed too. */
  function AllClosing(l: P.Link): set<nat> {
    l.closing + if l.poll.Some? then {l.poll.value.id} else {}
  }

  /** A descriptor that libsmb2 adds is watched in place of the one before, whose PollState is closed;
      one that is watched already stays. */
  lemma AddedIsWatched(s: Wrap, ctx: CtxId, fd: int, read: bool, write: bool, other: bool, high: int, teardown: Script)
    requires Steady(s, {}) && RoutesHere(s, ctx) && s.link.requested == Mask(read, write, other, high)
    ensures var t := Step(s, FdMoves(ctx, fd, true, Accepted, teardown));
      if s.link.poll.Some? && s.link.poll.value.fd == fd then t == s
      else
        t == s.(link := s.link.(
          poll := Some(P.PollState(s.link.nextPoll, fd,
                                   if s.link.stale then P.Watch(false, false) else P.Watch(read, write))),
          nextPoll := s.link.nextPoll + 1,
          closing := AllClosing(s.link)))
  {
    hide Steady, Step, P.LinkInv, Mask, P.Translate, P.Start, P.Stop, P.Attach, P.AttachFailed, P.WatchesFd, AllClosing,
      RoutesHere;
    SteadyLink(s);
    LinkMask(s.link, read, write, other, high);
    FdSteps(s, ctx, fd, Accepted, teardown);
    StartedLink(s.link, fd);
    assert s.(link := s.link) == s;
  }

  lemma LinkMask(l: P.Link, read: bool, write: bool, other: bool, high: int)
    requires P.LinkInv(l) && l.requested == Mask(read, write, other, high)
    ensures P.Translate(l.pollEvents) == if l.stale then P.Watch(false, false) else P.Watch(read, write)
  {
    hide P.Translate;
    MaskIsTranslated(read, write, other, high);
    assert P.Translate(0) == P.NOTHING by { MaskIsTranslated(false, false, false, 0); }
  }

  lemma StartedLink(l: P.Link, fd: int)
    ensures P.Start(l, fd) ==
      if l.poll.Some? && l.poll.value.fd == fd then l
      else
        l.(poll := Some(P.PollState(l.nextPoll, fd, P.Translate(l.pollEvents))), nextPoll := l.nextPoll + 1,
           closing := AllClosing(l))
  {
    hide P.Translate;
    assert l.closing + {} == l.closing;
  }

  /** The branches of a descriptor change. */
  lemma FdSteps(s: Wrap, ctx: CtxId, fd: int, reply: Reply, teardown: Script)
    requires RoutesHere(s, ctx)
    ensures var t, stopped := Step(s, FdMoves(ctx, fd, true, reply, teardown)), P.Stop(s.link);
      && (P.WatchesFd(s.link, fd) ==> t == s)
      && (!P.WatchesFd(s.link, fd) && reply.NoLoop? ==> t == HandleFatal(s.(link := stopped), teardown))
      && (!P.WatchesFd(s.link, fd) && reply.InitFails? ==>
            t == HandleFatal(s.(link := P.AttachFailed(stopped)), teardown))
      && (!P.WatchesFd(s.link, fd) && reply.StartFails? && P.Translate(s.link.pollEvents) != P.NOTHING ==>
            t == HandleFatal(s.(link := P.Attach(stopped, fd)), teardown))
      && (reply.Accepted? ==> t == s.(link := P.Start(s.link, fd)))
  {
    hide HandleFatal, P.Translate;
    assert s.(link := s.link) == s;
  }

  /** A descriptor that libsmb2 removes stops the poll and closes its PollState. */
  lemma RemovedIsStopped(s: Wrap, ctx: CtxId, fd: int, reply: Reply, teardown: Script)
    requires RoutesHere(s, ctx)
    ensures Step(s, FdMoves(ctx, fd, false, reply, teardown))
         == s.(link := s.link.(poll := None, closing := AllClosing(s.link)))
  {
    assert s.link.closing + {} == s.link.closing;
  }

  /** What libsmb2 reports in the middle of a call on the context does the same. */
  lemma ReportsDoTheSame(s: Wrap, ctx: CtxId, fd: int, add: bool, mask: int, dying: bool)
    requires RoutesHere(s, ctx)
    ensures RunAct(s, ctx, FdChanged(fd, add), dying) == Step(s, FdMoves(ctx, fd, add, Accepted, []))
    ensures RunAct(s, ctx, EventsChanged(mask), dying) == Step(s, MaskMoves(ctx, mask, Accepted, []))
  {
    hide HandleFatal, P.Translate;
    assert s.(link := s.link) == s;
  }

  // ---- libuv refuses ----------------------------------------------------------------------

  lemma LinkFatal(s: Wrap, link: P.Link, teardown: Script)
    requires Steady(s, {}) && s.context.Some? && P.LinkInv(P.Stop(link))
    ensures Gone(HandleFatal(s.(link := link), teardown))
  {
    AliveIsOld(s, {});
    var s1 := s.(link := P.Stop(link));
    LinkKeeps(s, P.Stop(link));
    SteadyBreakable(s1, {});
    P.StopTwice(link);
    hide Steady, Evolves, HandleFatal, Breakable, Gone, Wrecked, P.LinkInv;
    FatalEffect(s1, teardown);
    FatalStopsPoll(s.(link := link), teardown);
    WreckedIsGone(s1, HandleFatal(s1, teardown));
  }

  /** Without a loop, with a poll that cannot be initialised, or with one that cannot be started
      although the mask asks for something, a new descriptor is fatal. */
  lemma RefusedDescriptorIsFatal(s: Wrap, ctx: CtxId, fd: int, read: bool, write: bool, other: bool, high: int,
                                 reply: Reply, teardown: Script)
    requires Steady(s, {}) && RoutesHere(s, ctx) && (s.link.poll.None? || s.link.poll.value.fd != fd)
    requires s.link.requested == Mask(read, write, other, high)
    requires reply.NoLoop? || reply.InitFails? || (reply.StartFails? && !s.link.stale && (read || write))
    ensures Gone(Step(s, FdMoves(ctx, fd, true, reply, teardown)))
  {
    SteadyLink(s);
    LinkMask(s.link, read, write, other, high);
    FdSteps(s, ctx, fd, reply, teardown);
    assert s.context.Some? && !P.WatchesFd(s.link, fd);
    hide Steady, Step, HandleFatal, Gone, P.Translate, P.Stop, Mask, P.WatchesFd, P.LinkInv;
    P.StartSteps(s.link, fd);
    var stopped := P.Stop(s.link);
    if reply.NoLoop? {
      LinkFatal(s, stopped, teardown);
    } else if reply.InitFails? {
      LinkFatal(s, P.AttachFailed(stopped), teardown);
    } else {
      LinkFatal(s, P.Attach(stopped, fd), teardown);
    }
  }

  /** So is a mask that asks for something, when libuv does not start the poll there is. */
  lemma RefusedMaskIsFatal(s: Wrap, ctx: CtxId, read: bool, write: bool, other: bool, high: int, reply: Reply,
                           teardown: Script)
    requires Steady(s, {}) && RoutesHere(s, ctx) && s.link.poll.Some? && !reply.Accepted? && (read || write)
    ensures Gone(Step(s, MaskMoves(ctx, Mask(read, write, other, high), reply, teardown)))
  {
    SteadyLink(s);
    MaskIsTranslated(read, write, other, high);
    assert s.context.Some?;
    var mask := Mask(read, write, other, high);
    MaskFails(s, ctx, mask, reply, teardown);
    hide Steady, Step, HandleFatal, Gone, P.Translate, Mask, P.LinkInv, P.Ask;
    P.StopAskKeeps(s.link, mask);
    LinkFatal(s, P.Ask(s.link, mask), teardown);
  }

  lemma MaskFails(s: Wrap, ctx: CtxId, mask: int, reply: Reply, teardown: Script)
    requires RoutesHere(s, ctx) && s.link.poll.Some? && !reply.Accepted? && P.Translate(mask) != P.NOTHING
    ensures Step(s, MaskMoves(ctx, mask, reply, teardown)) == HandleFatal(s.(link := P.Ask(s.link, mask)), teardown)
  {
    hide HandleFatal, P.Translate;
  }

  /** And so is one that libuv does not start again after a poll event has been served. */
  lemma RefusedRestartIsFatal(s: Wrap, e: Event)
    requires Steady(s, {}) && s.context.Some? && e.PollFires? && Possible(s, e)
    requires e.status >= 0 && (e.readable || e.writable) && e.rc >= 0 && !e.reply.Accepted?
    ensures var u := RunScript(s, s.context.value, e.script, false);
      u.link.poll.Some? && u.link.poll.value.watched != P.Watch(false, false) ==> Gone(Step(s, e))
  {
    AliveIsOld(s, {});
    ServiceKeeps(s, e.script);
    var u := RunScript(s, s.context.value, e.script, false);
    hide RunScript, HandleFatal, Gone, P.Translate, Touch, Step, Steady, P.LinkInv, Kept;
    ServedLink(s, u);
    if u.link.poll.Some? && u.link.poll.value.watched != P.Watch(false, false) {
      RestartFails(s, u, e);
      P.StopKeeps(u.link);
      assert u.(link := u.link) == u;
      LinkFatal(u, u.link, e.teardown);
    }
  }

  lemma RestartFails(s: Wrap, u: Wrap, e: Event)
    requires s.context.Some? && e.PollFires? && Possible(s, e) && Touch(s) == s
    requires e.status >= 0 && (e.readable || e.writable) && e.rc >= 0 && !e.reply.Accepted?
    requires u == RunScript(s, s.context.value, e.script, false)
    requires u.link.poll.Some? && P.Translate(u.link.pollEvents) != P.NOTHING
    ensures Step(s, e) == HandleFatal(u, e.teardown)
  {
    hide RunScript, HandleFatal, P.Translate, Touch;
  }

  lemma ServedLink(s: Wrap, u: Wrap)
    requires Kept(s, u)
    ensures Steady(u, {}) && P.LinkInv(u.link) && (u.link.poll.Some? ==> u.context.Some?)
    ensures u.link.poll.Some? ==> u.link.poll.value.watched == P.Translate(u.link.pollEvents)
  {
    hide Evolves;
  }
}
