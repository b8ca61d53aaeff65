/**
 The libuv poll of one connection: `poll_state_`, `poll_events_` and the lifetimes of the
 PollState objects.  `requested` is the last mask libsmb2 asked for; `stale` says that a
 teardown has reset `poll_events_` since.
 */
module PollLink {
  import opened Options

  datatype Watch = Watch(readable: bool, writable: bool)

  const NOTHING := Watch(false, false)

  datatype PollState = PollState(id: nat, fd: int, watched: Watch)

  datatype Link = Link(
    poll: Option<PollState>,
    pollEvents: int,
    requested: int,
    stale: bool,
    nextPoll: nat,            // PollStates 0 .. nextPoll - 1 have been allocated
    closing: set<nat>,        // uv_close called, OnPollClosed still to come
    freed: multiset<nat>)     // deletes performed

  const IDLE := Link(None, 0, 0, false, 0, {}, multiset{})

  /** kSmbPollIn is bit 0 and kSmbPollOut is bit 2 of the mask. */
  function Translate(mask: int): Watch {
    Watch(mask % 2 == 1, mask / 4 % 2 == 1)
  }

  // ---- Transitions ------------------------------------------------------------------------

  function Stop(l: Link): Link {
    match l.poll
    case None => l
    case Some(state) => l.(poll := None, closing := l.closing + {state.id})
  }

  function Attach(l: Link, fd: int): Link {
    l.(poll := Some(PollState(l.nextPoll, fd, NOTHING)), nextPoll := l.nextPoll + 1)
  }

  /** uv_poll_init_socket refused: the PollState is deleted on the spot. */
  function AttachFailed(l: Link): Link {
    l.(nextPoll := l.nextPoll + 1, freed := l.freed + multiset{l.nextPoll})
  }

  /** ApplyPollEvents when libuv accepts. */
  function Apply(l: Link): Link {
    match l.poll
    case None => l
    case Some(state) => l.(poll := Some(state.(watched := Translate(l.pollEvents))))
  }

  predicate WatchesFd(l: Link, fd: int) {
    l.poll.Some? && l.poll.value.fd == fd
  }

  /** StartPoll when libuv accepts. */
  function Start(l: Link, fd: int): Link {
    if WatchesFd(l, fd) then l else Apply(Attach(Stop(l), fd))
  }

  function Ask(l: Link, mask: int): Link {
    l.(pollEvents := mask, requested := mask, stale := false)
  }

  function Reset(l: Link): Link {
    l.(pollEvents := 0, stale := true)
  }

  /** OnPollClosed. */
  function Free(l: Link, id: nat): Link {
    l.(closing := l.closing - {id}, freed := l.freed + multiset{id})
  }

  // ---- The invariant ----------------------------------------------------------------------

  ghost predicate IsCurrent(l: Link, id: nat) {
    l.poll.Some? && l.poll.value.id == id
  }

  /** Lifetimes of PollStates: allocated once, then current, closing or freed exactly once. */
  ghost predicate Lifetimes(l: Link) {
    && (l.poll.Some? ==> l.poll.value.id < l.nextPoll && l.poll.value.id !in l.closing)
    && (forall id :: id in l.closing ==> id < l.nextPoll)
    && (forall id :: l.freed[id] ==
          if 0 <= id < l.nextPoll && id !in l.closing && !IsCurrent(l, id) then 1 else 0)
  }

  /** libuv watches exactly what `poll_events_` says, and `poll_events_` is what libsmb2 last
      asked for unless a teardown has cleared it since. */
  ghost predicate Faithful(l: Link) {
    && (l.poll.Some? ==> l.poll.value.watched == Translate(l.pollEvents))
    && l.pollEvents == if l.stale then 0 else l.requested
  }

  ghost predicate LinkInv(l: Link) {
    Lifetimes(l) && Faithful(l)
  }

  lemma StopKeeps(l: Link)
    requires LinkInv(l)
    ensures LinkInv(Stop(l)) && Stop(l).poll == None
  {
  }

  lemma ResetKeeps(l: Link)
    requires LinkInv(l)
    ensures LinkInv(Reset(Stop(l))) && Reset(Stop(l)).poll == None
  {
  }

  lemma AttachFailedKeeps(l: Link)
    requires LinkInv(l) && l.poll == None
    ensures LinkInv(AttachFailed(l))
  {
  }

  /** A poll that is stopped at once leaves no trace but its lifetime. */
  lemma StopAttachKeeps(l: Link, fd: int)
    requires LinkInv(l)
    ensures LinkInv(Stop(Attach(Stop(l), fd)))
  {
  }

  lemma StopAskKeeps(l: Link, mask: int)
    requires LinkInv(l)
    ensures LinkInv(Stop(Ask(l, mask)))
  {
  }

  lemma StopTwice(l: Link)
    ensures Stop(Stop(l)) == Stop(l)
  {
  }

  lemma AttachKeeps(l: Link, fd: int)
    requires LinkInv(l) && l.poll == None
    ensures Lifetimes(Attach(l, fd))
  {
  }

  lemma StartKeeps(l: Link, fd: int)
    requires LinkInv(l)
    ensures LinkInv(Start(l, fd))
    ensures WatchesFd(Start(l, fd), fd)
  {
    if !WatchesFd(l, fd) {
      StopKeeps(l);
      AttachKeeps(Stop(l), fd);
    }
  }

  /** Every step of StartPoll, and a teardown after any of them, keeps the link. */
  lemma StartSteps(l: Link, fd: int)
    requires LinkInv(l)
    ensures LinkInv(Stop(Stop(l)))
    ensures LinkInv(Stop(AttachFailed(Stop(l))))
    ensures LinkInv(Stop(Attach(Stop(l), fd)))
    ensures !WatchesFd(l, fd) ==> LinkInv(Apply(Attach(Stop(l), fd)))
  {
    StopKeeps(l);
    StopTwice(l);
    AttachFailedKeeps(Stop(l));
    StopKeeps(AttachFailed(Stop(l)));
    StopAttachKeeps(l, fd);
    StartKeeps(l, fd);
    hide LinkInv;
  }

  lemma AskKeeps(l: Link, mask: int)
    requires Lifetimes(l)
    ensures LinkInv(Apply(Ask(l, mask)))
  {
  }

  lemma FreeKeeps(l: Link, id: nat)
    requires LinkInv(l) && id in l.closing
    ensures LinkInv(Free(l, id))
  {
  }

  /** A PollState whose close callback comes has not been freed before, and is not current. */
  lemma FreedOnce(l: Link, id: nat)
    requires LinkInv(l) && id in l.closing
    ensures var t := Free(l, id);
      && l.freed[id] == 0 && t.freed[id] == 1
      && id < t.nextPoll && id !in t.closing && !IsCurrent(t, id)
      && t.poll == l.poll && (forall x :: x != id ==> t.freed[x] == l.freed[x])
  {
  }

  /** What the invariant means for an observer of libuv. */
  lemma WatchesWhatWasAsked(l: Link, poll: nat)
    requires LinkInv(l)
    ensures l.poll.Some? ==>
      (l.poll.value.watched == Translate(l.requested) <==> !l.stale || Translate(l.requested) == NOTHING)
    ensures l.poll.Some? && l.stale ==> l.poll.value.watched == NOTHING
    ensures l.freed[poll] <= 1
    ensures poll < l.nextPoll <==> l.freed[poll] == 1 || poll in l.closing || IsCurrent(l, poll)
  {
  }
}
