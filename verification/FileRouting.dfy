/** Requests for copied files on their way to the owner and back: `FileRouter` in
    `geserdesk-server/src/files.rs` and `FileChannel` in `geserdesk-client/src/files.rs`. */
module FileRouting {
  import opened Wrappers
  import opened Names
  import opened FileTrees
  import opened Pulling

  /** Who owns the files now on the clipboard. */
  datatype Owner = Server | Client(name: Name)

  /** Where an answer must end up: with a client under its own number, or in a pull of the server's. */
  datatype Waiting = ToClient(name: Name, req: nat) | ToLocal

  datatype Args = Args(seqNo: nat, index: nat, offset: nat, len: nat)

  /** One request as it reached the router, who owned the files then, and the number it went on
      under, if to a client. Its place in the list of all of them is its ticket. */
  datatype Ask = Ask(waiting: Waiting, args: Args, owner: Option<Owner>, number: Option<nat>)

  /** One answer as it left the router; `source` is whose words it holds, if anyone's. */
  datatype Reply = Reply(to: Waiting, result: FileReadResult, source: Option<Owner>)

  datatype Pending = Pending(sentTo: Name, waiting: Waiting, ticket: nat)

  const NOT_FOUND: FileReadResult := Refused(NotFound)

  /** The router: its own three fields, the server's own reads under way, and what happened so far:
      every request, and every answer by ticket. */
  datatype Routes = Routes(
    current: Option<Owner>,
    pending: map<nat, Pending>,
    nextReq: nat,
    working: map<nat, Waiting>,
    issued: seq<Ask>,
    answered: map<nat, Reply>)
  {
    function Deliver(ticket: nat, to: Waiting, result: FileReadResult, source: Option<Owner>): Routes {
      this.(answered := answered[ticket := Reply(to, result, source)])
    }

    /** The pending request `r` is answered with what it asked for not being there. */
    function Refuse(r: nat): Routes {
      if r !in pending then this
      else this.(pending := pending - {r}).Deliver(pending[r].ticket, pending[r].waiting, NOT_FOUND, None)
    }

    function Noted(waiting: Waiting, args: Args): Routes {
      var number := if current.Some? && current.value.Client? then Some(nextReq) else None;
      this.(issued := issued + [Ask(waiting, args, current, number)])
    }

    /** The request is put among the pending and its number spent, before it is sent. */
    function Forward(name: Name, waiting: Waiting, args: Args): Routes {
      Noted(waiting, args).(pending := pending[nextReq := Pending(name, waiting, |issued|)], nextReq := nextReq + 1)
    }

    function Route(waiting: Waiting, args: Args, sendOk: bool): Routes {
      match current
      case None => Noted(waiting, args).Deliver(|issued|, waiting, NOT_FOUND, None)
      case Some(Server) => Noted(waiting, args).(working := working[|issued| := waiting])
      case Some(Client(name)) =>
        var s := Forward(name, waiting, args);
        if sendOk then s else s.Refuse(nextReq)
    }

    /** The server's own read for this ticket is finished. */
    function OwnReadDone(ticket: nat, result: FileReadResult): Routes {
      if ticket !in working then this
      else this.(working := working - {ticket}).Deliver(ticket, working[ticket], result, Some(Server))
    }

    function ReplyFromClient(from: Name, r: nat, result: FileReadResult): Routes {
      if r !in pending || pending[r].sentTo != from then Refuse(r)
      else this.(pending := pending - {r}).Deliver(pending[r].ticket, pending[r].waiting, result, Some(Client(from)))
    }

    function RefuseIfSentTo(name: Name, r: nat): Routes {
      if r in pending && pending[r].sentTo == name then Refuse(r) else this
    }

    /** Every request numbered below `n` that was sent to `name` is refused. */
    function RefuseSentTo(name: Name, n: nat): Routes
      decreases n
    {
      if n == 0 then this
      else
        RefuseSentTo(name, n - 1).RefuseIfSentTo(name, n - 1)
    }

    function OnDisconnected(name: Name): Routes {
      this.(current := if current == Some(Client(name)) then None else current).RefuseSentTo(name, nextReq)
    }
  }

  const FRESH: Routes := Routes(None, map[], 1, map[], [], map[])

  class FileRouter {
    var current: Option<Owner>
    var pending: map<nat, Pending>
    var nextReq: nat
    var working: map<nat, Waiting>
    var issued: seq<Ask>
    var answered: map<nat, Reply>

    function View(): Routes
      reads this
    {
      Routes(current, pending, nextReq, working, issued, answered)
    }

    constructor ()
      ensures View() == FRESH
    {
      current, pending, nextReq, working, issued, answered := None, map[], 1, map[], [], map[];
    }

    method Announce(owner: Owner)
      modifies this`current
      ensures View() == old(View()).(current := Some(owner))
    {
      current := Some(owner);
    }

    method Deliver(ticket: nat, to: Waiting, result: FileReadResult, source: Option<Owner>)
      modifies this`answered
      ensures View() == old(View()).Deliver(ticket, to, result, source)
    {
      answered := answered[ticket := Reply(to, result, source)];
    }

    method Refuse(r: nat)
      modifies this`pending, this`answered
      ensures View() == old(View()).Refuse(r)
    {
      if r in pending {
        var p := pending[r];
        pending := pending - {r};
        Deliver(p.ticket, p.waiting, NOT_FOUND, None);
      }
    }

    method Route(waiting: Waiting, args: Args, sendOk: bool)
      modifies this
      ensures View() == old(View()).Route(waiting, args, sendOk)
    {
      var ticket := |issued|;
      match current {
        case None =>
          issued := issued + [Ask(waiting, args, current, None)];
          Deliver(ticket, waiting, NOT_FOUND, None);
        case Some(Server) =>
          issued := issued + [Ask(waiting, args, current, None)];
          working := working[ticket := waiting];
        case Some(Client(name)) =>
          var req := nextReq;
          nextReq := nextReq + 1;
          issued := issued + [Ask(waiting, args, current, Some(req))];
          pending := pending[req := Pending(name, waiting, ticket)];
          if !sendOk {
            Refuse(req);
          }
      }
    }

    method OwnReadDone(ticket: nat, result: FileReadResult)
      modifies this`working, this`answered
      ensures View() == old(View()).OwnReadDone(ticket, result)
    {
      if ticket in working {
        var to := working[ticket];
        working := working - {ticket};
        Deliver(ticket, to, result, Some(Server));
      }
    }

    method ReplyFromClient(from: Name, r: nat, result: FileReadResult)
      modifies this`pending, this`answered
      ensures View() == old(View()).ReplyFromClient(from, r, result)
    {
      if r in pending {
        var p := pending[r];
        pending := pending - {r};
        if p.sentTo == from {
          Deliver(p.ticket, p.waiting, result, Some(Client(from)));
        } else {
          Deliver(p.ticket, p.waiting, NOT_FOUND, None);
        }
      }
    }

    method OnDisconnected(name: Name)
      modifies this`current, this`pending, this`answered
      ensures View() == old(View()).OnDisconnected(name)
    {
      if current == Some(Client(name)) {
        current := None;
      }
      ghost var start := View();
      for r := 0 to nextReq
        invariant View() == start.RefuseSentTo(name, r)
      {
        if r in pending && pending[r].sentTo == name {
          Refuse(r);
        }
      }
    }
  }

  // ---- what every step keeps --------------------------------------------------------------------------

  /** No number on a forwarded request is on another. */
  predicate Numbered(issued: seq<Ask>, nextReq: nat) {
    && (forall t | 0 <= t < |issued| && issued[t].number.Some? :: issued[t].number.value < nextReq)
    && (forall t, u | 0 <= t < u < |issued| && issued[t].number.Some? && issued[u].number.Some? ::
          issued[t].number.value < issued[u].number.value)
  }

  /** What waits waits at the owner its request was forwarded to, for whoever asked. */
  predicate Waits(pending: map<nat, Pending>, issued: seq<Ask>) {
    forall r | r in pending ::
      var p := pending[r];
      p.ticket < |issued| && issued[p.ticket] == Ask(p.waiting, issued[p.ticket].args, Some(Client(p.sentTo)), Some(r))
  }

  predicate Works(working: map<nat, Waiting>, issued: seq<Ask>) {
    forall t | t in working :: t < |issued| && issued[t] == Ask(working[t], issued[t].args, Some(Server), None)
  }

  /** An answer goes where its request came from, and data in it is the words of the owner asked. */
  predicate RightlyAnswered(answered: map<nat, Reply>, issued: seq<Ask>) {
    forall t | t in answered ::
      t < |issued| && answered[t].to == issued[t].waiting
      && (answered[t].result.Data? ==> answered[t].source.Some? && answered[t].source == issued[t].owner)
  }

  /** The request is waiting at an owner. */
  predicate AtOwner(pending: map<nat, Pending>, ask: Ask) {
    ask.number.Some? && ask.number.value in pending
  }

  /** A request is waiting at an owner, or being read here, or answered, and only one of these. */
  predicate Placed(s: Routes) {
    && (forall t | t in s.answered :: t < |s.issued| && t !in s.working && !AtOwner(s.pending, s.issued[t]))
    && (forall t: nat {:trigger t in s.answered} | t < |s.issued| ::
          t in s.answered || t in s.working || AtOwner(s.pending, s.issued[t]))
  }

  predicate Sound(s: Routes) {
    && Numbered(s.issued, s.nextReq) && Waits(s.pending, s.issued) && Works(s.working, s.issued)
    && RightlyAnswered(s.answered, s.issued) && Placed(s)
  }

  /** What happened stays as it happened: no request is answered a second time. */
  predicate Grows(a: Routes, b: Routes) {
    && a.issued <= b.issued
    && (forall t | t in a.answered :: t in b.answered && b.answered[t] == a.answered[t])
  }

  lemma StillRight(answered: map<nat, Reply>, issued: seq<Ask>, t: nat, reply: Reply)
    requires RightlyAnswered(answered, issued) && t < |issued| && reply.to == issued[t].waiting
    requires reply.result.Data? ==> reply.source.Some? && reply.source == issued[t].owner
    ensures RightlyAnswered(answered[t := reply], issued)
  {
  }

  lemma PlacedAnswer(s: Routes, r: nat, reply: Reply)
    requires Placed(s) && Waits(s.pending, s.issued) && Works(s.working, s.issued) && Numbered(s.issued, s.nextReq) && r in s.pending
    ensures var s1 := s.(pending := s.pending - {r}, answered := s.answered[s.pending[r].ticket := reply]);
      Placed(s1)
  {
    assert forall t | 0 <= t < |s.issued| && s.issued[t].number == Some(r) :: t == s.pending[r].ticket;
  }

  lemma PlacedRead(s: Routes, t: nat, reply: Reply)
    requires Placed(s) && Waits(s.pending, s.issued) && Works(s.working, s.issued) && t in s.working
    ensures var s1 := s.(working := s.working - {t}, answered := s.answered[t := reply]); Placed(s1)
  {
  }

  /** Taking one pending request out and answering it. */
  lemma AnsweringKeeps(s: Routes, r: nat, result: FileReadResult, source: Option<Owner>)
    requires Sound(s) && r in s.pending && (result.Data? ==> source == Some(Client(s.pending[r].sentTo)))
    ensures var p := s.pending[r];
      var s1 := s.(pending := s.pending - {r}).Deliver(p.ticket, p.waiting, result, source);
      Sound(s1) && Grows(s, s1)
  {
    var p := s.pending[r];
    var reply := Reply(p.waiting, result, source);
    StillRight(s.answered, s.issued, p.ticket, reply);
    PlacedAnswer(s, r, reply);
  }

  lemma RefuseKeeps(s: Routes, r: nat)
    requires Sound(s)
    ensures Sound(s.Refuse(r)) && Grows(s, s.Refuse(r)) && r !in s.Refuse(r).pending
  {
    if r in s.pending {
      AnsweringKeeps(s, r, NOT_FOUND, None);
    }
  }

  lemma OwnReadKeeps(s: Routes, t: nat, result: FileReadResult)
    requires Sound(s)
    ensures Sound(s.OwnReadDone(t, result)) && Grows(s, s.OwnReadDone(t, result))
  {
    if t in s.working {
      var reply := Reply(s.working[t], result, Some(Server));
      StillRight(s.answered, s.issued, t, reply);
      PlacedRead(s, t, reply);
    }
  }

  /** One more request on the list changes nothing about the others. */
  lemma NotingKeeps(s: Routes, ask: Ask, nextReq: nat)
    requires Numbered(s.issued, s.nextReq) && Waits(s.pending, s.issued) && Works(s.working, s.issued) && RightlyAnswered(s.answered, s.issued)
    requires s.nextReq <= nextReq && (ask.number.Some? ==> s.nextReq <= ask.number.value < nextReq)
    ensures var issued := s.issued + [ask];
      Numbered(issued, nextReq) && Waits(s.pending, issued) && Works(s.working, issued) && RightlyAnswered(s.answered, issued)
  {
  }

  lemma PlacedMore(s: Routes, ask: Ask, reply: Reply, to: Waiting)
    requires Sound(s) && ask.number == None
    ensures var t := |s.issued|;
      var a, w := s.(issued := s.issued + [ask], answered := s.answered[t := reply]), s.(issued := s.issued + [ask], working := s.working[t := to]);
      Placed(a) && Placed(w)
  {
  }

  lemma PlacedForward(s: Routes, ask: Ask, p: Pending)
    requires Sound(s) && ask.number == Some(s.nextReq) && p.ticket == |s.issued|
    ensures var s1 := s.(issued := s.issued + [ask], pending := s.pending[s.nextReq := p], nextReq := s.nextReq + 1);
      Placed(s1)
  {
  }

  lemma WaitsMore(pending: map<nat, Pending>, issued: seq<Ask>, r: nat, ask: Ask, p: Pending)
    requires Waits(pending, issued + [ask]) && ask == Ask(p.waiting, ask.args, Some(Client(p.sentTo)), Some(r)) && p.ticket == |issued|
    ensures Waits(pending[r := p], issued + [ask])
  {
  }

  lemma ForwardKeeps(s: Routes, waiting: Waiting, args: Args, name: Name)
    requires Sound(s) && s.current == Some(Client(name))
    ensures var s1 := s.Forward(name, waiting, args); Sound(s1) && Grows(s, s1)
  {
    var ask, p := Ask(waiting, args, s.current, Some(s.nextReq)), Pending(name, waiting, |s.issued|);
    NotingKeeps(s, ask, s.nextReq + 1);
    PlacedForward(s, ask, p);
    WaitsMore(s.pending, s.issued, s.nextReq, ask, p);
  }

  lemma AnswerAtOnceKeeps(s: Routes, waiting: Waiting, args: Args)
    requires Sound(s) && (s.current == None || s.current == Some(Server))
    ensures var s1 := s.Route(waiting, args, true); Sound(s1) && Grows(s, s1)
  {
    var t, ask, reply := |s.issued|, Ask(waiting, args, s.current, None), Reply(waiting, NOT_FOUND, None);
    NotingKeeps(s, ask, s.nextReq);
    PlacedMore(s, ask, reply, waiting);
    StillRight(s.answered, s.issued + [ask], t, reply);
    assert Works(s.working[t := waiting], s.issued + [ask]) || s.current == None;
  }

  lemma RouteKeeps(s: Routes, waiting: Waiting, args: Args, sendOk: bool)
    requires Sound(s)
    ensures var s1 := s.Route(waiting, args, sendOk); Sound(s1) && Grows(s, s1)
  {
    if s.current.Some? && s.current.value.Client? {
      var a := s.Forward(s.current.value.name, waiting, args);
      ForwardKeeps(s, waiting, args, s.current.value.name);
      RefuseKeeps(a, s.nextReq);
      GrowsOn(s, a, a.Refuse(s.nextReq));
    } else {
      AnswerAtOnceKeeps(s, waiting, args);
    }
  }

  lemma GrowsOn(a: Routes, b: Routes, c: Routes)
    requires Grows(a, b) && Grows(b, c)
    ensures Grows(a, c)
  {
  }

  /** What is left after a sweep: as it was, without the ones sent to `name`. */
  predicate Swept(s: Routes, s1: Routes, name: Name, n: nat) {
    && s1.issued == s.issued && s1.nextReq == s.nextReq && s1.current == s.current && s1.working == s.working
    && forall r | r in s1.pending :: r in s.pending && s1.pending[r] == s.pending[r] && (r < n ==> s1.pending[r].sentTo != name)
  }

  lemma SweepStep(s: Routes, a: Routes, name: Name, r: nat) returns (b: Routes)
    requires Sound(a) && Grows(s, a)
    ensures b == a.RefuseIfSentTo(name, r) && Sound(b) && Grows(s, b)
  {
    RefuseKeeps(a, r);
    b := a.RefuseIfSentTo(name, r);
  }

  /** What refusing one request keeps, a sweep keeps. */
  lemma {:induction false} SweepInduction(s: Routes, name: Name, n: nat, kept: Routes -> bool)
    requires kept(s) && forall a: Routes, r: nat :: kept(a) ==> kept(a.RefuseIfSentTo(name, r))
    ensures kept(s.RefuseSentTo(name, n))
    decreases n
  {
    if n > 0 {
      SweepInduction(s, name, n - 1, kept);
    }
  }

  lemma SweepKeeps(s: Routes, name: Name, n: nat) returns (b: Routes)
    requires Sound(s)
    ensures b == s.RefuseSentTo(name, n) && Sound(b) && Grows(s, b)
  {
    var kept := (a: Routes) => Sound(a) && Grows(s, a);
    forall a: Routes, r: nat | kept(a) ensures kept(a.RefuseIfSentTo(name, r)) {
      var _ := SweepStep(s, a, name, r);
    }
    SweepInduction(s, name, n, kept);
    b := s.RefuseSentTo(name, n);
    assert kept(b);
  }

  lemma {:induction false} SweepSweeps(s: Routes, name: Name, n: nat)
    ensures Swept(s, s.RefuseSentTo(name, n), name, n)
    decreases n
  {
    if n > 0 {
      SweepSweeps(s, name, n - 1);
    }
  }

  // ---- counting ----------------------------------------------------------------------------------------

  function Below(n: nat): (s: set<nat>)
    ensures |s| == n && forall t: nat :: t in s <==> t < n
  {
    if n == 0 then {} else Below(n - 1) + {n - 1}
  }

  function Tickets(pending: map<nat, Pending>): set<nat> {
    set r | r in pending :: pending[r].ticket
  }

  lemma {:induction false} TicketsHave(pending: map<nat, Pending>)
    requires forall a, b | a in pending && b in pending && a != b :: pending[a].ticket != pending[b].ticket
    ensures |Tickets(pending)| == |pending|
    decreases |pending|
  {
    if pending != map[] {
      var r :| r in pending;
      var rest := pending - {r};
      assert rest.Keys == pending.Keys - {r};
      TicketsHave(rest);
      forall t | t in Tickets(pending) ensures t in Tickets(rest) + {pending[r].ticket} {
        var q :| q in pending && pending[q].ticket == t;
        assert q == r || q in rest;
      }
      assert Tickets(pending) == Tickets(rest) + {pending[r].ticket};
    }
  }

  /** Requests issued are the answers given, the requests waiting at an owner and the reads under way. */
  lemma SoundCounts(s: Routes)
    requires Sound(s)
    ensures |s.issued| == |s.answered| + |s.pending| + |s.working|
  {
    var waiting := Tickets(s.pending);
    TicketsHave(s.pending);
    Covers(s);
    assert |s.answered.Keys + s.working.Keys + waiting| == |s.answered.Keys| + |s.working.Keys| + |waiting|;
  }

  lemma Covers(s: Routes)
    requires Sound(s)
    ensures Below(|s.issued|) == s.answered.Keys + s.working.Keys + Tickets(s.pending)
    ensures s.answered.Keys !! s.working.Keys && (s.answered.Keys + s.working.Keys) !! Tickets(s.pending)
  {
    forall t: nat
      ensures t < |s.issued| <==> t in s.answered.Keys || t in s.working.Keys || t in Tickets(s.pending)
      ensures t in s.answered.Keys ==> t !in s.working.Keys
      ensures t in Tickets(s.pending) ==> t !in s.answered.Keys && t !in s.working.Keys
    {
      TicketPlace(s, t);
    }
    ThreeParts(Below(|s.issued|), s.answered.Keys, s.working.Keys, Tickets(s.pending));
  }

  lemma ThreeParts(all: set<nat>, a: set<nat>, w: set<nat>, p: set<nat>)
    requires forall t: nat :: t in all <==> t in a || t in w || t in p
    requires forall t: nat :: (t in a ==> t !in w) && (t in p ==> t !in a && t !in w)
    ensures all == a + w + p && a !! w && (a + w) !! p
  {
  }

  lemma TicketPlace(s: Routes, t: nat)
    requires Sound(s)
    ensures t < |s.issued| <==> t in s.answered || t in s.working || t in Tickets(s.pending)
    ensures t in s.answered ==> t !in s.working
    ensures t in Tickets(s.pending) ==> t !in s.answered && t !in s.working
  {
    if t in Tickets(s.pending) {
      TicketElsewhere(s, t);
    }
    if t < |s.issued| {
      TicketSomewhere(s, t);
    }
  }

  lemma TicketElsewhere(s: Routes, t: nat)
    requires Sound(s) && t in Tickets(s.pending)
    ensures t < |s.issued| && t !in s.answered && t !in s.working
  {
    var r :| r in s.pending && s.pending[r].ticket == t;
    assert s.issued[t].number == Some(r);
  }

  lemma TicketSomewhere(s: Routes, t: nat)
    requires Sound(s) && t < |s.issued|
    ensures t in s.answered || t in s.working || t in Tickets(s.pending)
  {
    if t !in s.answered && t !in s.working {
      var r := s.issued[t].number.value;
      assert s.issued[s.pending[r].ticket].number == Some(r);
    }
  }

  // ---- runs -------------------------------------------------------------------------------------------

  datatype RouteOp =
    | Announce(owner: Owner)
    | Request(waiting: Waiting, args: Args, sendOk: bool)
    | OwnReadDone(ticket: nat, result: FileReadResult)
    | ClientReplies(from: Name, req: nat, result: FileReadResult)
    | Disconnects(name: Name)

  function Apply(s: Routes, op: RouteOp): Routes {
    match op
    case Announce(owner) => s.(current := Some(owner))
    case Request(waiting, args, sendOk) => s.Route(waiting, args, sendOk)
    case OwnReadDone(ticket, result) => s.OwnReadDone(ticket, result)
    case ClientReplies(from, req, result) => s.ReplyFromClient(from, req, result)
    case Disconnects(name) => s.OnDisconnected(name)
  }

  function Run(s: Routes, ops: seq<RouteOp>): Routes
    decreases |ops|
  {
    if ops == [] then s else Run(Apply(s, ops[0]), ops[1..])
  }

  lemma ApplyKeeps(s: Routes, op: RouteOp)
    requires Sound(s)
    ensures Sound(Apply(s, op)) && Grows(s, Apply(s, op))
  {
    match op
    case Announce(owner) =>
    case Request(waiting, args, sendOk) =>
      RouteKeeps(s, waiting, args, sendOk);
    case OwnReadDone(t, result) =>
      OwnReadKeeps(s, t, result);
    case ClientReplies(from, req, result) =>
      if req in s.pending && s.pending[req].sentTo == from {
        AnsweringKeeps(s, req, result, Some(Client(from)));
      } else {
        RefuseKeeps(s, req);
      }
    case Disconnects(name) =>
      var b := SweepKeeps(s.(current := if s.current == Some(Client(name)) then None else s.current), name, s.nextReq);
  }

  lemma {:induction false} RunKeeps(s: Routes, ops: seq<RouteOp>)
    requires Sound(s)
    ensures Sound(Run(s, ops)) && Grows(s, Run(s, ops))
    decreases |ops|
  {
    if ops != [] {
      ApplyKeeps(s, ops[0]);
      RunKeeps(Apply(s, ops[0]), ops[1..]);
    }
  }

  /** In every run of announcements, requests, replies from anyone, and disconnections: requests
      issued are exactly the answers given plus the requests outstanding, each answer goes where its
      own request came from, data only ever comes from the owner the request was forwarded to, and a
      later step neither answers a request again nor gives a number to a second one. */
  lemma RequestsAreConserved(before: seq<RouteOp>, since: seq<RouteOp>)
    ensures var s, s1 := Run(FRESH, before), Run(Run(FRESH, before), since);
      Sound(s) && |s.issued| == |s.answered| + |s.pending| + |s.working| && Grows(s, s1)
  {
    RunKeeps(FRESH, before);
    SoundCounts(Run(FRESH, before));
    RunKeeps(Run(FRESH, before), since);
  }

  /** Once an owner has answered a request, or has disconnected, nothing of it waits there, and
      everything that waited there is answered. */
  lemma NothingWaitsOnTheGone(s: Routes, name: Name, req: nat, result: FileReadResult)
    requires Sound(s)
    ensures req !in s.ReplyFromClient(name, req, result).pending
    ensures var s1 := s.OnDisconnected(name);
      && s1.current != Some(Client(name))
      && (forall r | r in s1.pending :: s1.pending[r].sentTo != name)
      && (forall r | r in s.pending && s.pending[r].sentTo == name :: s.pending[r].ticket in s1.answered)
  {
    var s1 := SweepAnswers(s.(current := if s.current == Some(Client(name)) then None else s.current), name);
  }

  lemma SweepAnswers(s: Routes, name: Name) returns (s1: Routes)
    requires Sound(s)
    ensures s1 == s.RefuseSentTo(name, s.nextReq) && s1.current == s.current
    ensures forall r | r in s1.pending :: s1.pending[r].sentTo != name
    ensures forall r | r in s.pending && s.pending[r].sentTo == name :: s.pending[r].ticket in s1.answered
  {
    s1 := SweepKeeps(s, name, s.nextReq);
    SweepSweeps(s, name, s.nextReq);
    SweptAreAnswered(s, s1, name);
  }

  lemma SweptAreAnswered(s: Routes, s1: Routes, name: Name)
    requires Sound(s) && Placed(s1) && Swept(s, s1, name, s.nextReq)
    ensures forall r | r in s1.pending :: s1.pending[r].sentTo != name
    ensures forall r | r in s.pending && s.pending[r].sentTo == name :: s.pending[r].ticket in s1.answered
  {
    forall r | r in s.pending
      ensures r < s.nextReq && (r !in s1.pending ==> s.pending[r].ticket in s1.answered)
    {
      GoneIsAnswered(s, s1, r);
    }
  }

  /** What waited and waits no longer was answered. */
  lemma GoneIsAnswered(s: Routes, s1: Routes, r: nat)
    requires Waits(s.pending, s.issued) && Works(s.working, s.issued) && Numbered(s.issued, s.nextReq) && Placed(s1)
    requires s1.issued == s.issued && s1.working == s.working && r in s.pending
    ensures r < s.nextReq && (r !in s1.pending ==> s.pending[r].ticket in s1.answered)
  {
    assert s1.issued[s.pending[r].ticket].number == Some(r);
  }

  // ---- owners that answer from their files ------------------------------------------------------------------

  /** The step is no lie: data in it is what `f` says that owner has for the request it answers. */
  predicate Truthful(s: Routes, op: RouteOp, f: (Owner, Args) -> FileReadResult) {
    match op
    case ClientReplies(from, r, result) =>
      result.Data? && r in s.pending && s.pending[r].sentTo == from && s.pending[r].ticket < |s.issued|
      ==> result == f(Client(from), s.issued[s.pending[r].ticket].args)
    case OwnReadDone(t, result) =>
      result.Data? && t in s.working && t < |s.issued| ==> result == f(Server, s.issued[t].args)
    case _ => true
  }

  /** Every answer with data in it is what the owner asked has for exactly that request. */
  predicate OwnersWords(answered: map<nat, Reply>, issued: seq<Ask>, f: (Owner, Args) -> FileReadResult) {
    forall t | t in answered && answered[t].result.Data? ::
      t < |issued| && issued[t].owner.Some? && answered[t].result == f(issued[t].owner.value, issued[t].args)
  }

  /** Nothing new was answered with data. */
  predicate NoNewData(s: Routes, b: Routes) {
    && s.issued <= b.issued
    && forall t | t in b.answered && b.answered[t].result.Data? :: t in s.answered && s.answered[t] == b.answered[t]
  }

  lemma {:induction false} SweepHasNoData(s: Routes, name: Name, n: nat)
    ensures NoNewData(s, s.RefuseSentTo(name, n))
    decreases n
  {
    if n > 0 {
      SweepHasNoData(s, name, n - 1);
    }
  }

  lemma RouteHasNoData(s: Routes, waiting: Waiting, args: Args, sendOk: bool)
    requires Sound(s)
    ensures NoNewData(s, s.Route(waiting, args, sendOk))
  {
    if s.current.Some? && s.current.value.Client? {
      var a := s.Forward(s.current.value.name, waiting, args);
      assert s.issued <= a.issued && a.answered == s.answered;
      RefusalHasNoData(s, a, s.nextReq);
    } else {
      var a := s.Noted(waiting, args);
      assert s.issued <= a.issued && a.answered == s.answered;
    }
  }

  lemma RefusalHasNoData(s: Routes, a: Routes, r: nat)
    requires s.issued <= a.issued && a.answered == s.answered
    ensures NoNewData(s, a) && NoNewData(s, a.Refuse(r))
  {
  }

  lemma WordsStay(s: Routes, b: Routes, f: (Owner, Args) -> FileReadResult)
    requires OwnersWords(s.answered, s.issued, f) && NoNewData(s, b)
    ensures OwnersWords(b.answered, b.issued, f)
  {
  }

  lemma WordsWith(answered: map<nat, Reply>, issued: seq<Ask>, t: nat, reply: Reply, f: (Owner, Args) -> FileReadResult)
    requires OwnersWords(answered, issued, f)
    requires reply.result.Data? ==> t < |issued| && issued[t].owner.Some? && reply.result == f(issued[t].owner.value, issued[t].args)
    ensures OwnersWords(answered[t := reply], issued, f)
  {
  }

  lemma TruthKeepsWords(s: Routes, op: RouteOp, f: (Owner, Args) -> FileReadResult)
    requires Sound(s) && OwnersWords(s.answered, s.issued, f) && Truthful(s, op, f)
    ensures OwnersWords(Apply(s, op).answered, Apply(s, op).issued, f)
  {
    match op
    case Announce(owner) =>
    case Disconnects(name) =>
      var s0 := s.(current := if s.current == Some(Client(name)) then None else s.current);
      SweepHasNoData(s0, name, s.nextReq);
      WordsStay(s0, s0.RefuseSentTo(name, s.nextReq), f);
    case Request(waiting, args, sendOk) =>
      RouteHasNoData(s, waiting, args, sendOk);
      WordsStay(s, s.Route(waiting, args, sendOk), f);
    case OwnReadDone(t, result) =>
      if t in s.working {
        WordsWith(s.answered, s.issued, t, Reply(s.working[t], result, Some(Server)), f);
      }
    case ClientReplies(from, r, result) =>
      if r in s.pending {
        var p := s.pending[r];
        WordsWith(s.answered, s.issued, p.ticket, if p.sentTo == from then Reply(p.waiting, result, Some(Client(from))) else Reply(p.waiting, NOT_FOUND, None), f);
      }
  }

  // ---- the client's side -----------------------------------------------------------------------------------------

  /** A session's outgoing reads: the ones still awaited, every one asked, and how each ended. */
  datatype Channel = Channel(nextReq: nat, pending: set<nat>, asked: map<nat, Args>, resolved: map<nat, FileReadResult>)
  {
    /** A read is numbered and awaited; if the session is over it is answered at once. */
    function Read(args: Args, open: bool): Channel {
      var noted := this.(nextReq := nextReq + 1, asked := asked[nextReq := args]);
      if open then noted.(pending := pending + {nextReq}) else noted.(resolved := resolved[nextReq := NOT_FOUND])
    }

    function GetReply(req: nat, result: FileReadResult): Channel {
      if req !in pending then this else this.(pending := pending - {req}, resolved := resolved[req := result])
    }

    /** The pull that asked has gone away. */
    function Forget(req: nat): Channel {
      this.(pending := pending - {req})
    }

    predicate Sound() {
      && 1 <= nextReq && (forall k | k in asked :: 1 <= k < nextReq)
      && (forall k | k in pending :: k in asked && k !in resolved)
      && (forall k | k in resolved :: k in asked)
    }
  }

  const FRESH_CHANNEL: Channel := Channel(1, {}, map[], map[])

  class FileChannel {
    var pending: set<nat>
    var nextReq: nat
    var asked: map<nat, Args>
    var resolved: map<nat, FileReadResult>

    function View(): Channel
      reads this
    {
      Channel(nextReq, pending, asked, resolved)
    }

    constructor ()
      ensures View() == FRESH_CHANNEL
    {
      pending, nextReq, asked, resolved := {}, 1, map[], map[];
    }

    method Read(args: Args, open: bool) returns (req: nat)
      modifies this
      ensures View() == old(View()).Read(args, open) && req == old(nextReq)
    {
      req := nextReq;
      nextReq := nextReq + 1;
      asked := asked[req := args];
      if open {
        pending := pending + {req};
      } else {
        resolved := resolved[req := NOT_FOUND];
      }
    }

    method GetReply(req: nat, result: FileReadResult)
      modifies this
      ensures View() == old(View()).GetReply(req, result)
    {
      if req in pending {
        pending := pending - {req};
        resolved := resolved[req := result];
      }
    }

    method Forget(req: nat)
      modifies this
      ensures View() == old(View()).Forget(req)
    {
      pending := pending - {req};
    }
  }

  /** Every read ends at most once, whatever arrives and in whatever order; a number is never given
      twice; after a read is forgotten no answer reaches it. */
  lemma ReadsEndOnce(c: Channel, args: Args, open: bool, req: nat, result: FileReadResult)
    requires c.Sound()
    ensures c.Read(args, open).Sound() && c.GetReply(req, result).Sound() && c.Forget(req).Sound()
    ensures c.nextReq !in c.asked && c.nextReq !in c.pending
    ensures forall k | k in c.resolved :: k in c.GetReply(req, result).resolved && c.GetReply(req, result).resolved[k] == c.resolved[k]
    ensures c.Forget(req).GetReply(req, result) == c.Forget(req)
  {
  }

  datatype ChannelOp = Asks(args: Args, open: bool) | Hears(req: nat, result: FileReadResult) | Drops(req: nat)

  function ChannelAfter(ops: seq<ChannelOp>): Channel {
    if ops == [] then FRESH_CHANNEL
    else
      var c := ChannelAfter(ops[..|ops| - 1]);
      match ops[|ops| - 1]
      case Asks(args, open) => c.Read(args, open)
      case Hears(req, result) => c.GetReply(req, result)
      case Drops(req) => c.Forget(req)
  }

  function Asked(ops: seq<ChannelOp>): nat {
    if ops == [] then 0 else Asked(ops[..|ops| - 1]) + (if ops[|ops| - 1].Asks? then 1 else 0)
  }

  /** How a read stands: awaited, ended with an answer, or dropped by the pull that asked. */
  datatype Fate = Awaited | Ended(result: FileReadResult) | Dropped

  /** How read `k`, asked by operation `i`, stands: in a session that is over it ends at once with NotFound;
      else with the first answer to its number, unless it was dropped before. */
  function FateOf(ops: seq<ChannelOp>, i: nat, k: nat): Fate
    requires i < |ops| && ops[i].Asks?
  {
    if |ops| == i + 1 then (if ops[i].open then Awaited else Ended(Refused(NotFound)))
    else
      var fate := FateOf(ops[..|ops| - 1], i, k);
      if fate != Awaited then fate
      else
        match ops[|ops| - 1]
        case Hears(req, result) => if req == k then Ended(result) else fate
        case Drops(req) => if req == k then Dropped else fate
        case _ => fate
  }

  lemma {:induction false} NumbersSoFar(ops: seq<ChannelOp>)
    ensures var c := ChannelAfter(ops);
      && c.nextReq == 1 + Asked(ops) && (forall k :: k in c.asked <==> 1 <= k <= Asked(ops))
      && (forall k | k in c.pending || k in c.resolved :: 1 <= k <= Asked(ops)) && c.pending !! c.resolved.Keys
  {
    if ops != [] {
      NumbersSoFar(ops[..|ops| - 1]);
    }
  }

  /** Over every run of a channel: the n-th read has number n, and stands as the operations since say: it is
      awaited, or has ended with that answer, or neither. */
  lemma {:induction false} ReadHasItsFate(ops: seq<ChannelOp>, i: nat)
    requires i < |ops| && ops[i].Asks?
    ensures var c, k := ChannelAfter(ops), Asked(ops[..i]) + 1;
      && k in c.asked && c.asked[k] == ops[i].args
      && match FateOf(ops, i, k)
         case Awaited => k in c.pending && k !in c.resolved
         case Ended(result) => k !in c.pending && k in c.resolved && c.resolved[k] == result
         case Dropped => k !in c.pending && k !in c.resolved
  {
    var last := |ops| - 1;
    var front := ops[..last];
    NumbersSoFar(front);
    if i < last {
      ReadHasItsFate(front, i);
      assert front[..i] == ops[..i];
      AskedMore(front, i);
    }
  }

  lemma {:induction false} AskedMore(ops: seq<ChannelOp>, i: nat)
    requires i < |ops| && ops[i].Asks?
    ensures Asked(ops[..i]) + 1 <= Asked(ops)
  {
    if i < |ops| - 1 {
      AskedMore(ops[..|ops| - 1], i);
      assert ops[..|ops| - 1][..i] == ops[..i];
    }
  }
}
