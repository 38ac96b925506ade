/** Requests for copied files through all of it: a client's sessions one after the other, each with a
    channel of its own, and the router (`geserdesk-client/src/files.rs` and `net.rs`,
    `geserdesk-server/src/files.rs` and `net.rs`). */
module FileSessions {
  import opened Wrappers
  import opened Names
  import opened FileTrees
  import opened Pulling
  import opened FileRouting

  /** A client's present session, its channel and the requests on their way from it, and the router.
      Requests with a ticket below `first` were made in earlier sessions; what was answered by then is
      `gone`, to the outbox of an earlier session; `past` are the channels of those. */
  datatype Link = Link(channel: Channel, outgoing: seq<nat>, routes: Routes, first: nat, gone: set<nat>, past: seq<Channel>)

  const START: Link := Link(FRESH_CHANNEL, [], FRESH, 0, {}, [])

  datatype LinkOp =
    | StartRead(args: Args, open: bool)
    | Carry(sendOk: bool)
    | Elsewhere(op: RouteOp)
    | Bring(ticket: nat)
    | GiveUp(req: nat)
    | Begin
    | ReadOn(session: nat, args: Args)

  predicate IsFor(to: Waiting, me: Name) {
    to.ToClient? && to.name == me
  }

  function NewSession(l: Link, routes: Routes): Link {
    Link(FRESH_CHANNEL, [], routes, |routes.issued|, routes.answered.Keys, l.past + [l.channel])
  }

  /** An answer addressed to the client may be brought at any time, and more than once, to the session
      it has then. A session begins after the one before was given up, with a new channel; a pull of an
      earlier session that reads on is answered at once. */
  function Move(l: Link, me: Name, op: LinkOp): Link {
    match op
    case StartRead(args, open) =>
      l.(channel := l.channel.Read(args, open), outgoing := if open then l.outgoing + [l.channel.nextReq] else l.outgoing)
    case Carry(sendOk) =>
      if l.outgoing == [] || l.outgoing[0] !in l.channel.asked then l
      else
        var k := l.outgoing[0];
        l.(outgoing := l.outgoing[1..], routes := Apply(l.routes, Request(ToClient(me, k), l.channel.asked[k], sendOk)))
    case Elsewhere(op) => l.(routes := Apply(l.routes, op))
    case Bring(t) =>
      if t in l.routes.answered && t !in l.gone && IsFor(l.routes.answered[t].to, me)
      then l.(channel := l.channel.GetReply(l.routes.answered[t].to.req, l.routes.answered[t].result))
      else l
    case GiveUp(req) => l.(channel := l.channel.Forget(req))
    case Begin => NewSession(l, l.routes.OnDisconnected(me))
    case ReadOn(i, args) => if i < |l.past| then l.(past := l.past[i := l.past[i].Read(args, false)]) else l
  }

  /** Other machines do what they like but ask in this client's name, or lie about their files. */
  predicate Allowed(l: Link, me: Name, op: LinkOp, f: (Owner, Args) -> FileReadResult) {
    op.Elsewhere? ==> Truthful(l.routes, op.op, f) && !(op.op.Request? && IsFor(op.op.waiting, me))
  }

  /** No owner but the client itself has still to answer it. */
  predicate OwedNothing(s: Routes, me: Name) {
    && (forall r | r in s.pending && s.pending[r].sentTo != me :: !IsFor(s.pending[r].waiting, me))
    && (forall t | t in s.working :: !IsFor(s.working[t], me))
  }

  /** A session begins only when nothing from before it is still to be answered. */
  predicate Settled(l: Link, me: Name, op: LinkOp) {
    op.Begin? ==> OwedNothing(l.routes, me)
  }

  /** Some machine has these bytes for exactly this request. */
  ghost predicate Genuine(result: FileReadResult, args: Args, f: (Owner, Args) -> FileReadResult) {
    result.Data? ==> exists o: Owner :: Holds(o, args, result, f)
  }

  predicate Holds(o: Owner, args: Args, result: FileReadResult, f: (Owner, Args) -> FileReadResult) {
    f(o, args) == result
  }

  /** No read ended with bytes meant for another. */
  ghost predicate AllGenuine(c: Channel, f: (Owner, Args) -> FileReadResult) {
    forall k | k in c.resolved :: k in c.asked && Genuine(c.resolved[k], c.asked[k], f)
  }

  /** The requests of the present session ask what it asked. */
  predicate AsksAsAsked(issued: seq<Ask>, first: nat, asked: map<nat, Args>, me: Name) {
    forall t | first <= t < |issued| && IsFor(issued[t].waiting, me) ::
      issued[t].waiting.req in asked && asked[issued[t].waiting.req] == issued[t].args
  }

  /** Every request of an earlier session was answered to it. */
  predicate EarlierGone(issued: seq<Ask>, first: nat, gone: set<nat>, me: Name) {
    first <= |issued| && forall t: nat | t < first && IsFor(issued[t].waiting, me) :: t in gone
  }

  /** Of the router and the present session. */
  ghost predicate LinkSound(l: Link, me: Name, f: (Owner, Args) -> FileReadResult) {
    && Sound(l.routes) && OwnersWords(l.routes.answered, l.routes.issued, f) && l.channel.Sound()
    && AsksAsAsked(l.routes.issued, l.first, l.channel.asked, me)
    && EarlierGone(l.routes.issued, l.first, l.gone, me) && l.gone <= l.routes.answered.Keys
    && AllGenuine(l.channel, f)
  }

  /** Only a request adds to the list, and only itself. */
  lemma IssuedAfter(s: Routes, op: RouteOp)
    ensures match op
      case Request(waiting, args, sendOk) =>
        Apply(s, op).issued == s.Noted(waiting, args).issued
      case _ => Apply(s, op).issued == s.issued
  {
    if op.Disconnects? {
      SweepSweeps(s.(current := if s.current == Some(Client(op.name)) then None else s.current), op.name, s.nextReq);
    }
  }

  lemma RoutesMove(s: Routes, first: nat, asked: map<nat, Args>, me: Name, op: RouteOp, f: (Owner, Args) -> FileReadResult)
    requires Sound(s) && OwnersWords(s.answered, s.issued, f) && AsksAsAsked(s.issued, first, asked, me) && Truthful(s, op, f)
    requires op.Request? && IsFor(op.waiting, me) ==> op.waiting.req in asked && asked[op.waiting.req] == op.args
    ensures var b := Apply(s, op);
      Sound(b) && OwnersWords(b.answered, b.issued, f) && AsksAsAsked(b.issued, first, asked, me) && Grows(s, b)
  {
    ApplyKeeps(s, op);
    TruthKeepsWords(s, op, f);
    IssuedAfter(s, op);
    if op.Request? {
      AskedMore(s.issued, first, s.Noted(op.waiting, op.args).issued[|s.issued|], asked, me);
    }
  }

  lemma AskedMore(issued: seq<Ask>, first: nat, ask: Ask, asked: map<nat, Args>, me: Name)
    requires AsksAsAsked(issued, first, asked, me)
    requires IsFor(ask.waiting, me) ==> ask.waiting.req in asked && asked[ask.waiting.req] == ask.args
    ensures AsksAsAsked(issued + [ask], first, asked, me)
  {
  }

  lemma MoveKeeps(l: Link, me: Name, op: LinkOp, f: (Owner, Args) -> FileReadResult)
    requires LinkSound(l, me, f) && Allowed(l, me, op, f) && Settled(l, me, op)
    ensures LinkSound(Move(l, me, op), me, f)
  {
    match op
    case StartRead(args, open) =>
    case Carry(sendOk) =>
      if l.outgoing != [] && l.outgoing[0] in l.channel.asked {
        var k := l.outgoing[0];
        RoutesMove(l.routes, l.first, l.channel.asked, me, Request(ToClient(me, k), l.channel.asked[k], sendOk), f);
      }
    case Elsewhere(op) =>
      RoutesMove(l.routes, l.first, l.channel.asked, me, op, f);
    case Bring(t) =>
      BringKeeps(l, me, t, f);
    case GiveUp(req) =>
    case Begin =>
      BeginKeeps(l, me, f);
    case ReadOn(i, args) =>
  }

  lemma BringKeeps(l: Link, me: Name, t: nat, f: (Owner, Args) -> FileReadResult)
    requires LinkSound(l, me, f)
    ensures LinkSound(Move(l, me, Bring(t)), me, f)
  {
    if t in l.routes.answered && t !in l.gone && IsFor(l.routes.answered[t].to, me) {
      var reply := l.routes.answered[t];
      assert reply.to == l.routes.issued[t].waiting;
      assert reply.result.Data? ==> Holds(l.routes.issued[t].owner.value, l.channel.asked[reply.to.req], reply.result, f);
    }
  }

  /** `b` is `s` after the client's session was given up: only what was sent to it is gone. */
  predicate GivenUp(s: Routes, b: Routes, me: Name) {
    && b.issued == s.issued && b.working == s.working && Grows(s, b)
    && (forall r | r in b.pending :: r in s.pending && b.pending[r] == s.pending[r] && s.pending[r].sentTo != me)
    && (forall r | r in s.pending && s.pending[r].sentTo != me :: r in b.pending)
  }

  lemma Disconnecting(s: Routes, me: Name, f: (Owner, Args) -> FileReadResult) returns (b: Routes)
    requires Sound(s) && OwnersWords(s.answered, s.issued, f)
    ensures b == s.OnDisconnected(me) && Sound(b) && OwnersWords(b.answered, b.issued, f) && GivenUp(s, b, me)
  {
    b := s.OnDisconnected(me);
    var s0 := s.(current := if s.current == Some(Client(me)) then None else s.current);
    ApplyKeeps(s, Disconnects(me));
    TruthKeepsWords(s, Disconnects(me), f);
    SweepSweeps(s0, me, s.nextReq);
    NothingWaitsOnTheGone(s, me, 0, NOT_FOUND);
    forall r | r in s.pending && s.pending[r].sentTo != me
      ensures r in b.pending
    {
      SweepSpares(s0, me, s.nextReq, r);
    }
  }

  /** A sweep leaves what was sent to others. */
  lemma {:induction false} SweepSpares(s: Routes, name: Name, n: nat, r: nat)
    requires r in s.pending && s.pending[r].sentTo != name
    ensures var b := s.RefuseSentTo(name, n); r in b.pending && b.pending[r] == s.pending[r]
    decreases n
  {
    if n > 0 {
      SweepSpares(s, name, n - 1, r);
    }
  }

  /** A new session begins sound exactly when nothing is owed to the client. */
  lemma BeginKeeps(l: Link, me: Name, f: (Owner, Args) -> FileReadResult)
    requires LinkSound(l, me, f)
    ensures LinkSound(Move(l, me, Begin), me, f) <==> OwedNothing(l.routes, me)
  {
    var b := Disconnecting(l.routes, me, f);
    if OwedNothing(l.routes, me) {
      NothingOwedIsAnswered(b, me);
    } else {
      var t := StillOwed(l.routes, b, me);
      assert t !in b.answered.Keys;
    }
  }

  /** A request of the client's that is still to be answered once a new session has begun. */
  lemma StillOwed(s: Routes, b: Routes, me: Name) returns (t: nat)
    requires Sound(s) && Sound(b) && GivenUp(s, b, me) && !OwedNothing(s, me)
    ensures t < |b.issued| && IsFor(b.issued[t].waiting, me) && t !in b.answered
  {
    if r :| r in s.pending && s.pending[r].sentTo != me && IsFor(s.pending[r].waiting, me) {
      t := s.pending[r].ticket;
      assert t in Tickets(b.pending);
    } else {
      t :| t in s.working && IsFor(s.working[t], me);
    }
    TicketPlace(b, t);
  }

  lemma NothingOwedIsAnswered(s: Routes, me: Name)
    requires Sound(s) && forall r | r in s.pending :: !IsFor(s.pending[r].waiting, me)
    requires forall t | t in s.working :: !IsFor(s.working[t], me)
    ensures EarlierGone(s.issued, |s.issued|, s.answered.Keys, me)
  {
    forall t: nat | t < |s.issued| && IsFor(s.issued[t].waiting, me)
      ensures t in s.answered
    {
      TicketPlace(s, t);
    }
  }

  function MoveAll(l: Link, me: Name, ops: seq<LinkOp>): Link
    decreases |ops|
  {
    if ops == [] then l else MoveAll(Move(l, me, ops[0]), me, ops[1..])
  }

  predicate AllAllowed(l: Link, me: Name, ops: seq<LinkOp>, f: (Owner, Args) -> FileReadResult)
    decreases |ops|
  {
    ops == [] || (Allowed(l, me, ops[0], f) && AllAllowed(Move(l, me, ops[0]), me, ops[1..], f))
  }

  predicate AllSettled(l: Link, me: Name, ops: seq<LinkOp>)
    decreases |ops|
  {
    ops == [] || (Settled(l, me, ops[0]) && AllSettled(Move(l, me, ops[0]), me, ops[1..]))
  }

  /** The channels of all the client's sessions. */
  function Sessions(l: Link): seq<Channel> {
    l.past + [l.channel]
  }

  ghost predicate PastGenuine(past: seq<Channel>, f: (Owner, Args) -> FileReadResult) {
    forall i | 0 <= i < |past| :: past[i].Sound() && AllGenuine(past[i], f)
  }

  lemma MovePast(l: Link, me: Name, op: LinkOp, f: (Owner, Args) -> FileReadResult)
    requires LinkSound(l, me, f) && PastGenuine(l.past, f)
    ensures PastGenuine(Move(l, me, op).past, f)
  {
  }

  lemma {:induction false} MovesKeep(l: Link, me: Name, ops: seq<LinkOp>, f: (Owner, Args) -> FileReadResult)
    requires LinkSound(l, me, f) && PastGenuine(l.past, f) && AllAllowed(l, me, ops, f) && AllSettled(l, me, ops)
    ensures LinkSound(MoveAll(l, me, ops), me, f) && PastGenuine(MoveAll(l, me, ops).past, f)
    decreases |ops|
  {
    if ops != [] {
      MoveKeeps(l, me, ops[0], f);
      MovePast(l, me, ops[0], f);
      MovesKeep(Move(l, me, ops[0]), me, ops[1..], f);
    }
  }

  /** In every run of a client through any number of sessions, the router and everybody else, whatever
      is lost, refused or brought twice, if each session begins with nothing owed to the client: a read
      of any session never ends with bytes meant for another read. */
  lemma ReadsGetTheirOwnAnswers(me: Name, ops: seq<LinkOp>, f: (Owner, Args) -> FileReadResult)
    requires AllAllowed(START, me, ops, f) && AllSettled(START, me, ops)
    ensures forall c | c in Sessions(MoveAll(START, me, ops)) :: AllGenuine(c, f)
  {
    MovesKeep(START, me, ops, f);
  }

  // ---- what is owed to an earlier session ----------------------------------------------------------------------------

  /** It happens: the client asks, its session ends, the next one asks something else under the same
      number, and the owner's true answer to the first ends the second. */
  lemma AnswersReachTheNextSession(me: Name, owner: Name, first: Args, second: Args, f: (Owner, Args) -> FileReadResult,
          ops: seq<LinkOp>)
    requires owner != me && f(Client(owner), first).Data? && !Genuine(f(Client(owner), first), second, f)
    requires ops == [Elsewhere(Announce(Client(owner))), StartRead(first, true), Carry(true), Begin, StartRead(second, true),
                     Elsewhere(ClientReplies(owner, 1, f(Client(owner), first))), Bring(0)]
    ensures AllAllowed(START, me, ops, f)
    ensures var c := MoveAll(START, me, ops).channel;
      c.asked == map[1 := second] && c.resolved == map[1 := f(Client(owner), first)] && !AllGenuine(c, f)
  {
    var l3 := UpToCarried(me, owner, first, f, ops);
    AnsweredToTheNext(me, owner, first, second, f, l3, ops);
  }

  lemma UpToCarried(me: Name, owner: Name, first: Args, f: (Owner, Args) -> FileReadResult, ops: seq<LinkOp>) returns (l3: Link)
    requires |ops| == 7 && ops[0] == Elsewhere(Announce(Client(owner))) && ops[1] == StartRead(first, true) && ops[2] == Carry(true)
    ensures MoveAll(START, me, ops) == MoveAll(l3, me, ops[3..]) && (AllAllowed(START, me, ops, f) <==> AllAllowed(l3, me, ops[3..], f))
    ensures l3.channel == Channel(2, {1}, map[1 := first], map[])
    ensures l3.routes == Routes(Some(Client(owner)), map[1 := Pending(owner, ToClient(me, 1), 0)], 2, map[],
                                [Ask(ToClient(me, 1), first, Some(Client(owner)), Some(1))], map[])
  {
    var l1 := Move(START, me, ops[0]);
    var l2 := Move(l1, me, ops[1]);
    l3 := Move(l2, me, ops[2]);
    assert l2.outgoing == [1] && l2.channel.asked == map[1 := first];
    OneMove(START, me, ops, 0, f);
    OneMove(l1, me, ops, 1, f);
    OneMove(l2, me, ops, 2, f);
    assert ops[0..] == ops;
  }

  lemma OneMove(l: Link, me: Name, ops: seq<LinkOp>, i: nat, f: (Owner, Args) -> FileReadResult)
    requires i < |ops|
    ensures MoveAll(l, me, ops[i..]) == MoveAll(Move(l, me, ops[i]), me, ops[i + 1..])
    ensures AllAllowed(l, me, ops[i..], f) <==> Allowed(l, me, ops[i], f) && AllAllowed(Move(l, me, ops[i]), me, ops[i + 1..], f)
  {
    assert ops[i..][1..] == ops[i + 1..];
  }

  lemma AnsweredToTheNext(me: Name, owner: Name, first: Args, second: Args, f: (Owner, Args) -> FileReadResult,
          l3: Link, ops: seq<LinkOp>)
    requires owner != me && |ops| == 7 && f(Client(owner), first).Data? && !Genuine(f(Client(owner), first), second, f)
    requires ops[3] == Begin && ops[4] == StartRead(second, true) && ops[6] == Bring(0)
    requires ops[5] == Elsewhere(ClientReplies(owner, 1, f(Client(owner), first)))
    requires l3.routes == Routes(Some(Client(owner)), map[1 := Pending(owner, ToClient(me, 1), 0)], 2, map[],
                                 [Ask(ToClient(me, 1), first, Some(Client(owner)), Some(1))], map[])
    ensures AllAllowed(l3, me, ops[3..], f)
    ensures var c := MoveAll(l3, me, ops[3..]).channel;
      c.asked == map[1 := second] && c.resolved == map[1 := f(Client(owner), first)] && !AllGenuine(c, f)
  {
    var d := f(Client(owner), first);
    var l4 := Move(l3, me, ops[3]);
    assert l3.routes.OnDisconnected(me) == l3.routes by {
      assert l3.routes.RefuseSentTo(me, 1) == l3.routes.RefuseSentTo(me, 0).RefuseIfSentTo(me, 0);
      assert l3.routes.RefuseSentTo(me, 2) == l3.routes.RefuseSentTo(me, 1).RefuseIfSentTo(me, 1);
    }
    var l5 := Move(l4, me, ops[4]);
    var l6 := Move(l5, me, ops[5]);
    var l7 := Move(l6, me, ops[6]);
    assert l6.routes.answered == map[0 := Reply(ToClient(me, 1), d, Some(Client(owner)))];
    OneMove(l3, me, ops, 3, f);
    OneMove(l4, me, ops, 4, f);
    OneMove(l5, me, ops, 5, f);
    OneMove(l6, me, ops, 6, f);
    assert ops[7..] == [];
    assert l7.channel.resolved == map[1 := d];
  }

  /** An index no request asks for. */
  function Unasked(issued: seq<Ask>): (n: nat)
    ensures forall t | 0 <= t < |issued| :: issued[t].args.index < n
  {
    if issued == [] then 0
    else
      var last, n := |issued| - 1, Unasked(issued[..|issued| - 1]);
      assert forall t | 0 <= t < last :: issued[..last][t] == issued[t];
      Max(issued[last].args.index + 1, n)
  }

  function Max(a: nat, b: nat): nat {
    if a < b then b else a
  }

  /** As `f`, but somebody has bytes for `args`, and nobody has any for `other`. */
  function Having(f: (Owner, Args) -> FileReadResult, args: Args, other: Args): (Owner, Args) -> FileReadResult {
    (o: Owner, a: Args) => if a == other then NOT_FOUND else if a == args && !f(o, a).Data? then Data([]) else f(o, a)
  }

  /** `k` reads, and then the rest. */
  function ReadsThen(args: Args, k: nat, rest: seq<LinkOp>): seq<LinkOp> {
    if k == 0 then rest else [StartRead(args, true)] + ReadsThen(args, k - 1, rest)
  }

  /** A session that has asked for nothing but `args` so far. */
  ghost predicate AsksOnly(c: Channel, args: Args) {
    && 1 <= c.nextReq && (forall k: nat :: k in c.asked <==> 1 <= k < c.nextReq) && (forall k | k in c.asked :: c.asked[k] == args)
    && c.pending == c.asked.Keys && c.resolved == map[]
  }

  lemma {:induction false} Asking(l: Link, me: Name, args: Args, k: nat, rest: seq<LinkOp>, g: (Owner, Args) -> FileReadResult)
    returns (l1: Link)
    requires AsksOnly(l.channel, args)
    ensures AsksOnly(l1.channel, args) && l1.channel.nextReq == l.channel.nextReq + k && l1.routes == l.routes && l1.gone == l.gone
    ensures MoveAll(l, me, ReadsThen(args, k, rest)) == MoveAll(l1, me, rest)
    ensures AllAllowed(l, me, ReadsThen(args, k, rest), g) <==> AllAllowed(l1, me, rest, g)
    decreases k
  {
    if k == 0 {
      l1 := l;
    } else {
      var op, more := StartRead(args, true), ReadsThen(args, k - 1, rest);
      assert ([op] + more)[1..] == more;
      l1 := Asking(Move(l, me, op), me, args, k - 1, rest, g);
    }
  }

  predicate NoNewSession(ops: seq<LinkOp>) {
    forall op | op in ops :: !op.Begin?
  }

  lemma {:induction false} ReadsBeginNothing(args: Args, k: nat, rest: seq<LinkOp>)
    requires NoNewSession(rest)
    ensures NoNewSession(ReadsThen(args, k, rest))
    decreases k
  {
    if k > 0 {
      ReadsBeginNothing(args, k - 1, rest);
    }
  }

  /** The true answer to a request still owed from before. */
  lemma TheAnswer(s: Routes, me: Name, t: nat, g: (Owner, Args) -> FileReadResult) returns (op: RouteOp)
    requires Sound(s) && t < |s.issued| && IsFor(s.issued[t].waiting, me) && t !in s.answered
    requires forall o: Owner :: g(o, s.issued[t].args).Data?
    ensures Truthful(s, op, g) && !op.Request?
    ensures var b := Apply(s, op);
      && t in b.answered && b.answered[t].to == s.issued[t].waiting && b.answered[t].result.Data?
      && s.issued[t].owner.Some? && b.answered[t].result == g(s.issued[t].owner.value, s.issued[t].args)
  {
    TicketPlace(s, t);
    if t in s.working {
      op := RouteOp.OwnReadDone(t, g(Server, s.issued[t].args));
    } else {
      var r :| r in s.pending && s.pending[r].ticket == t;
      op := ClientReplies(s.pending[r].sentTo, r, g(Client(s.pending[r].sentTo), s.issued[t].args));
    }
  }

  /** With files `g`, which agree with what was answered so far, the run ends with a read of the session
      answered with bytes meant for another. */
  ghost predicate Misleads(b: Link, me: Name, g: (Owner, Args) -> FileReadResult, ops: seq<LinkOp>) {
    && OwnersWords(b.routes.answered, b.routes.issued, g) && AllAllowed(b, me, ops, g) && NoNewSession(ops)
    && !AllGenuine(MoveAll(b, me, ops).channel, g)
  }

  /** The session has just begun, and request `t` of an earlier one is unanswered. */
  predicate Owes(b: Link, me: Name, f: (Owner, Args) -> FileReadResult, t: nat) {
    && Sound(b.routes) && OwnersWords(b.routes.answered, b.routes.issued, f) && b.channel == FRESH_CHANNEL
    && t < |b.routes.issued| && IsFor(b.routes.issued[t].waiting, me) && b.routes.issued[t].waiting.req >= 1
    && t !in b.routes.answered && t !in b.gone
  }

  lemma OwedAtBegin(l: Link, me: Name, f: (Owner, Args) -> FileReadResult) returns (b: Routes, t: nat)
    requires LinkSound(l, me, f) && !OwedNothing(l.routes, me)
    ensures NewSession(l, b) == Move(l, me, Begin) && Owes(NewSession(l, b), me, f, t)
  {
    b := Disconnecting(l.routes, me, f);
    BeginIsNew(l, me, b);
    t := StillOwed(l.routes, b, me);
    NumbersBeginAtOne(l, me, f, t);
    BegunOwing(l, b, me, f, t);
  }

  lemma BeginIsNew(l: Link, me: Name, b: Routes)
    requires b == l.routes.OnDisconnected(me)
    ensures NewSession(l, b) == Move(l, me, Begin)
  {
  }

  lemma BegunOwing(l: Link, b: Routes, me: Name, f: (Owner, Args) -> FileReadResult, t: nat)
    requires Sound(b) && OwnersWords(b.answered, b.issued, f)
    requires t < |b.issued| && IsFor(b.issued[t].waiting, me) && b.issued[t].waiting.req >= 1 && t !in b.answered
    ensures Owes(NewSession(l, b), me, f, t)
  {
  }

  /** A session just begun, with request `t` of an earlier one unanswered, can be misled. */
  lemma Misled(b: Link, me: Name, f: (Owner, Args) -> FileReadResult, t: nat)
    returns (g: (Owner, Args) -> FileReadResult, ops: seq<LinkOp>)
    requires Owes(b, me, f, t)
    ensures Misleads(b, me, g, ops)
  {
    var ask, other := b.routes.issued[t], Args(0, Unasked(b.routes.issued), 0, 0);
    g := Having(f, ask.args, other);
    HavingKeepsWords(b.routes, f, ask.args, other);
    var reply := TheAnswer(b.routes, me, t, g);
    var k := ask.waiting.req;
    ops := [Elsewhere(reply)] + ReadsThen(other, k, [Bring(t)]);
    ReadsBeginNothing(other, k, [Bring(t)]);
    MisleadingRun(b, me, t, k, other, g, reply);
  }

  /** Whenever something is owed as a session begins, there are files and a run of that session in
      which one of its reads ends with bytes meant for an earlier session's. */
  lemma OwedAnswerMisleads(l: Link, me: Name, f: (Owner, Args) -> FileReadResult)
    returns (b: Link, g: (Owner, Args) -> FileReadResult, ops: seq<LinkOp>)
    requires LinkSound(l, me, f) && !OwedNothing(l.routes, me)
    ensures b == Move(l, me, Begin) && Misleads(b, me, g, ops)
  {
    var routes, t := OwedAtBegin(l, me, f);
    b := NewSession(l, routes);
    g, ops := Misled(b, me, f, t);
  }

  lemma NumbersBeginAtOne(l: Link, me: Name, f: (Owner, Args) -> FileReadResult, t: nat)
    requires LinkSound(l, me, f) && t < |l.routes.issued| && IsFor(l.routes.issued[t].waiting, me) && t !in l.gone
    ensures l.routes.issued[t].waiting.req >= 1
  {
  }

  lemma HavingKeepsWords(s: Routes, f: (Owner, Args) -> FileReadResult, args: Args, other: Args)
    requires OwnersWords(s.answered, s.issued, f) && other.index == Unasked(s.issued)
    ensures OwnersWords(s.answered, s.issued, Having(f, args, other))
  {
  }

  lemma MisleadingRun(b: Link, me: Name, t: nat, k: nat, other: Args, g: (Owner, Args) -> FileReadResult, reply: RouteOp)
    requires b.channel == FRESH_CHANNEL && t !in b.gone && 1 <= k && Truthful(b.routes, reply, g) && !reply.Request?
    requires var r := Apply(b.routes, reply).answered;
      t in r && r[t].to == ToClient(me, k) && r[t].result.Data? && forall o: Owner :: g(o, other) == NOT_FOUND
    ensures var ops := [Elsewhere(reply)] + ReadsThen(other, k, [Bring(t)]);
      AllAllowed(b, me, ops, g) && !AllGenuine(MoveAll(b, me, ops).channel, g)
  {
    var op, rest := Elsewhere(reply), ReadsThen(other, k, [Bring(t)]);
    assert ([op] + rest)[1..] == rest;
    var l1 := Move(b, me, op);
    var l2 := Asking(l1, me, other, k, [Bring(t)], g);
    assert [Bring(t)][1..] == [];
    var c := Move(l2, me, Bring(t)).channel;
    assert k in c.resolved && c.asked[k] == other;
  }

  /** Whether any run of a new session can mix up its answers, whatever files the machines have, is
      exactly whether anything is owed to the client as the session begins. */
  lemma NewSessionIsSafeExactly(l: Link, me: Name, f: (Owner, Args) -> FileReadResult)
    requires LinkSound(l, me, f)
    ensures OwedNothing(l.routes, me) <==> forall g: (Owner, Args) -> FileReadResult, ops: seq<LinkOp> :: !Misleads(Move(l, me, Begin), me, g, ops)
  {
    BeginKeeps(l, me, f);
    var b := Move(l, me, Begin);
    if OwedNothing(l.routes, me) {
      forall g: (Owner, Args) -> FileReadResult, ops: seq<LinkOp> | Misleads(b, me, g, ops)
        ensures false
      {
        SoundWith(b, me, f, g);
        OneSessionKeeps(b, me, ops, g);
      }
    } else {
      var b', g, ops := OwedAnswerMisleads(l, me, f);
    }
  }

  /** A session just begun knows nothing of the files but what the answers so far told. */
  lemma SoundWith(b: Link, me: Name, f: (Owner, Args) -> FileReadResult, g: (Owner, Args) -> FileReadResult)
    requires LinkSound(b, me, f) && OwnersWords(b.routes.answered, b.routes.issued, g) && b.channel.resolved == map[]
    ensures LinkSound(b, me, g)
  {
  }

  lemma {:induction false} OneSessionKeeps(l: Link, me: Name, ops: seq<LinkOp>, g: (Owner, Args) -> FileReadResult)
    requires LinkSound(l, me, g) && AllAllowed(l, me, ops, g) && NoNewSession(ops)
    ensures LinkSound(MoveAll(l, me, ops), me, g)
    decreases |ops|
  {
    if ops != [] {
      assert ops[0] in ops && forall op | op in ops[1..] :: op in ops;
      MoveKeeps(l, me, ops[0], g);
      OneSessionKeeps(Move(l, me, ops[0]), me, ops[1..], g);
    }
  }

  // ---- a copy pulled through all of it ------------------------------------------------------------------------------

  /** Every read of the pull that was answered was a read of this channel. */
  ghost predicate ReadsThrough(env: Env, c: Channel, seqNo: nat) {
    forall i: nat, o: nat, n: nat | env.read(i, o, n).Some? ::
      exists k :: k in c.resolved && k in c.asked && c.asked[k] == Args(seqNo, i, o, n) && c.resolved[k] == env.read(i, o, n).value
  }

  /** With one machine serving that number, the bytes in a genuine answer are that machine's. */
  lemma GenuineIsHome(result: FileReadResult, args: Args, serving: Owner -> Option<Serving>, disks: Owner -> Forest,
          f: (Owner, Args) -> FileReadResult, home: Owner)
    requires Genuine(result, args, f) && result.Data?
    requires forall o: Owner, a: Args :: f(o, a) == Answer(serving(o), disks(o), a.seqNo, a.index, a.offset, a.len)
    requires forall o | o != home :: serving(o) == None || serving(o).value.seqNo != args.seqNo
    ensures result == Answer(serving(home), disks(home), args.seqNo, args.index, args.offset, args.len)
  {
    var who: Owner :| Holds(who, args, result, f);
    assert who == home;
  }

  /** End to end: in every run of a client's sessions, the router and the owners' machines in which each
      session begins with nothing owed, a copy that `home` announced under a number nobody else serves
      is pulled by any of the sessions exactly, or not at all, whatever else is asked, lost, refused or
      answered meanwhile. `f` is what each machine's file owner answers from its own disk. */
  lemma RoutedPullIsExactOrNothing(me: Name, ops: seq<LinkOp>, c: Channel, serving: Owner -> Option<Serving>,
          disks: Owner -> Forest, f: (Owner, Args) -> FileReadResult, home: Owner, roots: seq<Path>, limit: nat,
          g: Gathered, env: Env, seqNo: nat, dest: Path, max: nat, lower: string -> string, d: Store)
    requires forall o: Owner, a: Args :: f(o, a) == Answer(serving(o), disks(o), a.seqNo, a.index, a.offset, a.len)
    requires AllAllowed(START, me, ops, f) && AllSettled(START, me, ops)
    requires c in Sessions(MoveAll(START, me, ops)) && ReadsThrough(env, c, seqNo)
    requires serving(home) == Some(Serving(seqNo, g.entries, g.abs))
    requires forall o | o != home :: serving(o) == None || serving(o).value.seqNo != seqNo
    requires Sane(disks(home)) && Collect(disks(home), roots, limit, NOTHING) == Ok(g)
    requires forall p | p in d :: !(dest < p)
    ensures var r := Pull(env, g.entries, dest, max, lower, d);
      if r.result.Ok? then r.result.value == Under(dest, KeptRoots(disks(home), roots)) && HoldsCopy(r.disk, dest, disks(home), roots)
      else r.disk == d || forall p | p in r.disk :: !(dest <= p)
  {
    ReadsGetTheirOwnAnswers(me, ops, f);
    forall i: nat, o: nat, n: nat | env.read(i, o, n).Some? && env.read(i, o, n).value.Data?
      ensures env.read(i, o, n).value == Answer(serving(home), disks(home), seqNo, i, o, n)
    {
      var k :| k in c.resolved && k in c.asked && c.asked[k] == Args(seqNo, i, o, n) && c.resolved[k] == env.read(i, o, n).value;
      GenuineIsHome(c.resolved[k], c.asked[k], serving, disks, f, home);
    }
    PullIsExactOrNothing(disks(home), roots, limit, g, env, seqNo, dest, max, lower, d);
  }
}
