/** Sharing the clipboard across a star of machines without echo: change detection
    (`geserdesk-clipboard/src/sync.rs`), the server's relay (`geserdesk-server/src/clipboard.rs`)
    and the client's half (`ClientClipboard` in `geserdesk-client/src/net.rs`). */
module ClipSync {
  import opened Wrappers
  import opened Names
  import opened Contents

  // ---- change detection ---------------------------------------------------------------------

  /** What was last read or written, and the change count then. Fingerprints are equality. */
  datatype Watch<T> = Watch(seen: Option<T>, count: Option<nat>)

  /** A look at the clipboard: `count` is the change count now (`None`: no such signal), `found`
      what reading gives (`None`: nothing shareable, or it cannot be read). */
  function Look<T(==)>(w: Watch<T>, count: Option<nat>, found: Option<T>): (Watch<T>, Option<T>) {
    if count.Some? && count == w.count then (w, None)
    else if found.None? || w.seen == found then (w.(count := count), None)
    else (Watch(found, count), found)
  }

  /** After writing `written`: remember what the clipboard now reports, else what was written. */
  function Wrote<T>(written: T, now: Option<T>, count: Option<nat>): Watch<T> {
    Watch(Some(if now.Some? then now.value else written), count)
  }

  type Path = string

  function NonEmpty(list: Option<seq<Path>>): Option<seq<Path>> {
    if list == Some([]) then None else list
  }

  /** What was found once is not news again: not at the same change count, whatever is there by then, nor at
      any count while it is still there. Something is news exactly if it is there, is not what was seen
      last, and the change count does not say that nothing came since. */
  lemma NothingIsNewsTwice<T>(w: Watch<T>, count: Option<nat>, found: Option<T>, later: Option<nat>, then_: Option<T>)
    ensures var w1 := Look(w, count, found).0;
      && (later.Some? && later == count ==> Look(w1, later, then_).1 == None)
      && (Look(w, count, found).1 == found ==> Look(w1, later, found).1 == None)
    ensures Look(w, count, found).1.Some? <==> found.Some? && found != w.seen && !(count.Some? && count == w.count)
    ensures Look(w, count, found).1.Some? ==> Look(w, count, found).1 == found
  {
  }

  /** An empty list of files is none. */
  lemma NoFilesAreNoNews(w: Watch<seq<Path>>, count: Option<nat>, list: seq<Path>)
    ensures Look(w, count, NonEmpty(Some(list))).1.Some? <==> list != [] && Some(list) != w.seen && !(count.Some? && count == w.count)
    ensures NonEmpty(None) == None && (list != [] ==> Wrote(list, NonEmpty(Some([])), count) == Watch(Some(list), count))
  {
  }

  /** `ClipboardSync`: data and files are watched apart, so that neither disturbs the other. The
      clipboard itself is what the arguments say it reports. */
  class ClipboardSync {
    var data: Watch<Content>
    var refused: Option<Content>
    var files: Watch<seq<Path>>

    constructor ()
      ensures data == Watch(None, None) && files == Watch(None, None) && refused == None
    {
      data, refused, files := Watch(None, None), None, Watch(None, None);
    }

    method Prime(count: Option<nat>, found: Option<Content>)
      modifies this`data
      ensures data == Watch(found, count)
    {
      data := Watch(found, count);
    }

    method PrimeFiles(count: Option<nat>, found: Option<seq<Path>>)
      modifies this`files
      ensures files == Watch(NonEmpty(found), count)
    {
      files := Watch(if found.Some? && found.value != [] then found else None, count);
    }

    method Poll(count: Option<nat>, found: Option<Content>, maxBytes: nat) returns (offer: Option<Content>)
      modifies this`data, this`refused
      ensures data == Look(old(data), count, found).0
      ensures var news := Look(old(data), count, found).1;
        offer == if news.None? || news.value.IsEmpty() then None else Fit(news.value, maxBytes)
    {
      if count.Some? && count == data.count {
        return None;
      }
      data := data.(count := count);
      if found.None? || data.seen == found {
        return None;
      }
      data := data.(seen := found);
      if found.value.IsEmpty() {
        return None;
      }
      offer := Fit(found.value, maxBytes);
      if offer.None? && refused != found {
        refused := found;
      }
    }

    method PollFiles(count: Option<nat>, found: Option<seq<Path>>) returns (offer: Option<seq<Path>>)
      modifies this`files
      ensures (files, offer) == Look(old(files), count, NonEmpty(found))
    {
      if count.Some? && count == files.count {
        return None;
      }
      files := files.(count := count);
      if found.None? || found.value == [] || files.seen == found {
        return None;
      }
      files := files.(seen := found);
      return found;
    }

    /** `written` went onto the clipboard if `ok`, which then reports `now`. */
    method Apply(written: Content, ok: bool, now: Option<Content>, count: Option<nat>)
      modifies this`data
      ensures data == if ok then Wrote(written, now, count) else old(data)
    {
      if !ok {
        return;
      }
      data := Watch(Some(if now.Some? then now.value else written), count);
    }

    method ApplyFiles(written: seq<Path>, ok: bool, now: Option<seq<Path>>, count: Option<nat>)
      modifies this`files
      ensures files == if ok then Wrote(written, NonEmpty(now), count) else old(files)
    {
      if !ok {
        return;
      }
      files := Watch(Some(if now.Some? && now.value != [] then now.value else written), count);
    }
  }

  // ---- one machine ------------------------------------------------------------------------------

  /** A machine's clipboard, as reading it reports, and the watch over it. `local` says the last
      write was a local application's; the counters are of such writes and of what was news. */
  datatype Machine<T> = Machine(board: Option<T>, watch: Watch<T>, local: bool, copies: nat, news: nat)

  datatype Deed<T> =
    | Copied(board: Option<T>)
    | Looked(count: Option<nat>, readable: bool)
    | Put(written: T, ok: bool, readable: bool, count: Option<nat>)
    | PrimedAt(count: Option<nat>, readable: bool)

  /** A clipboard that can be read, at least right after it was written to, may hand a write back
      changed by `norm`. */
  function Act<T(==)>(m: Machine<T>, norm: T -> T, d: Deed<T>): (Machine<T>, Option<T>) {
    match d
    case Copied(b) => (m.(board := b, local := true, copies := m.copies + 1), None)
    case Looked(count, readable) =>
      var (w, found) := Look(m.watch, count, if readable then m.board else None);
      (m.(watch := w, news := if found.Some? then m.news + 1 else m.news), found)
    case Put(written, ok, readable, count) =>
      if !ok then (m, None)
      else
        var now := norm(written);
        (m.(board := Some(now), local := false, watch := Wrote(written, if readable then Some(now) else None, count)), None)
    case PrimedAt(count, readable) => (m.(watch := Watch(if readable then m.board else None, count)), None)
  }

  /** What is on the clipboard and not yet seen came from a local application, and has not been
      counted as news yet. */
  predicate Owes<T(==)>(m: Machine<T>) {
    m.board.Some? && m.watch.seen != m.board
  }

  predicate Quiet<T(==)>(m: Machine<T>) {
    (Owes(m) ==> m.local) && m.news + (if Owes(m) then 1 else 0) <= m.copies
  }

  /** Every deed keeps a machine quiet, given that its clipboard can be read when sharing begins and
      after a write. What a look finds to be news is what a local application put there, never what a peer sent. */
  lemma DeedsKeepQuiet<T>(m: Machine<T>, norm: T -> T, d: Deed<T>)
    requires Quiet(m) && (d.Put? || d.PrimedAt? ==> d.readable)
    ensures Quiet(Act(m, norm, d).0)
    ensures Act(m, norm, d).1.Some? ==> m.local && Owes(m) && Act(m, norm, d).1 == m.board && !Owes(Act(m, norm, d).0)
  {
  }

  /** Where the clipboard cannot be read right after a write, the write comes back as news at the
      next look exactly if the platform changed it and no change count says that nothing came since. */
  lemma UnreadableWriteEchoes<T>(m: Machine<T>, norm: T -> T, written: T, count: Option<nat>, later: Option<nat>)
    ensures var m' := Act(m, norm, Put(written, true, false, count)).0;
      Act(m', norm, Looked(later, true)).1
        == if norm(written) == written || (later.Some? && later == count) then None else Some(norm(written))
  {
  }

  /** Where it cannot be read when sharing begins, what was there is news at the next look, unless the
      platform counts changes and there was none. */
  lemma UnreadablePrimeEchoes<T>(m: Machine<T>, norm: T -> T, count: Option<nat>, later: Option<nat>)
    ensures var m' := Act(m, norm, PrimedAt(count, false)).0;
      Act(m', norm, Looked(later, true)).1 == if later.Some? && later == count then None else m.board
  {
  }

  // ---- the star -----------------------------------------------------------------------------------

  /** What a client pushed, on its way to the relay. */
  datatype Pushed = Pushed(from: Name, content: Content)

  /** The server `hub` and the clients: their clipboards, what waits for the relay, and what waits
      for each client. A transfer is one message here; that it arrives as sent is `Transfers`. */
  datatype Star = Star(hub: Name, machines: map<Name, Machine<Content>>, inbox: seq<Pushed>, queues: map<Name, seq<Content>>)

  datatype Happening =
    | Join(at: Name, board: Option<Content>, count: Option<nat>)
    | Part(at: Name)
    | Copy(at: Name, board: Option<Content>)
    | Poll(at: Name, count: Option<nat>, readable: bool)
    | Relay(ok: bool, count: Option<nat>)
    | Arrive(at: Name, ok: bool, count: Option<nat>)

  predicate WellFormed(s: Star) {
    s.hub in s.machines && s.queues.Keys == s.machines.Keys - {s.hub}
  }

  /** How each machine hands a write back, and the size limit they share. */
  datatype World = World(norm: Name -> (Content -> Content), maxBytes: nat)

  function Doing(w: World, s: Star, n: Name, d: Deed<Content>): Star
    requires n in s.machines
  {
    s.(machines := s.machines[n := Act(s.machines[n], w.norm(n), d).0])
  }

  function Broadcast(s: Star, except: Option<Name>, c: Content): Star {
    s.(queues := map n | n in s.queues :: if except == Some(n) then s.queues[n] else s.queues[n] + [c])
  }

  /** What a poll of `at` offers the others. */
  function Offer(w: World, s: Star, at: Name, count: Option<nat>, readable: bool): Option<Content>
    requires at in s.machines
  {
    var news := Act(s.machines[at], w.norm(at), Looked(count, readable)).1;
    if news.None? || news.value.IsEmpty() then None else Fit(news.value, w.maxBytes)
  }

  /** A machine as it begins to share: what is on its clipboard is known. */
  function Primed(norm: Content -> Content, board: Option<Content>, count: Option<nat>): Machine<Content> {
    Act(Machine(board, Watch(None, None), false, 0, 0), norm, PrimedAt(count, true)).0
  }

  /** The server begins to share, with nobody there yet. */
  function Begun(w: World, hub: Name, board: Option<Content>, count: Option<nat>): Star {
    Star(hub, map[hub := Primed(w.norm(hub), board, count)], [], map[])
  }

  /** A client that comes is primed and has nothing waiting for it. */
  function Next(w: World, s: Star, h: Happening): Star
    requires WellFormed(s)
  {
    match h
    case Join(at, board, count) =>
      if at in s.machines then s
      else s.(machines := s.machines[at := Primed(w.norm(at), board, count)], queues := s.queues[at := []])
    case Part(at) => if at == s.hub then s else s.(machines := s.machines - {at}, queues := s.queues - {at})
    case Copy(at, board) => if at in s.machines then Doing(w, s, at, Copied(board)) else s
    case Poll(at, count, readable) =>
      if at !in s.machines then s
      else
        var s' := Doing(w, s, at, Looked(count, readable));
        (match Offer(w, s, at, count, readable)
         case None => s'
         case Some(c) => if at == s.hub then Broadcast(s', None, c) else s'.(inbox := s.inbox + [Pushed(at, c)]))
    case Relay(ok, count) =>
      if s.inbox == [] then s
      else
        var p := s.inbox[0];
        var s' := Doing(w, s, s.hub, Put(p.content, ok, true, count));
        Broadcast(s'.(inbox := s.inbox[1..]), Some(p.from), p.content)
    case Arrive(at, ok, count) =>
      if at !in s.queues || s.queues[at] == [] then s
      else Doing(w, s, at, Put(s.queues[at][0], ok, true, count)).(queues := s.queues[at := s.queues[at][1..]])
  }

  predicate AllQuiet(s: Star) {
    WellFormed(s) && forall n | n in s.machines :: Quiet(s.machines[n])
  }

  function Play(w: World, s: Star, hs: seq<Happening>): Star
    requires AllQuiet(s)
    decreases |hs|
  {
    if hs == [] then s
    else
      NextKeepsQuiet(w, s, hs[0]);
      Play(w, Next(w, s, hs[0]), hs[1..])
  }

  lemma NextKeepsQuiet(w: World, s: Star, h: Happening)
    requires AllQuiet(s)
    ensures AllQuiet(Next(w, s, h))
  {
    match h {
      case Join(_, _, _) =>
      case Part(_) =>
      case Copy(at, board) =>
        if at in s.machines {
          DeedsKeepQuiet(s.machines[at], w.norm(at), Copied(board));
        }
      case Poll(at, count, readable) =>
        if at in s.machines {
          DeedsKeepQuiet(s.machines[at], w.norm(at), Looked(count, readable));
        }
      case Relay(ok, count) =>
        if s.inbox != [] {
          DeedsKeepQuiet(s.machines[s.hub], w.norm(s.hub), Put(s.inbox[0].content, ok, true, count));
        }
      case Arrive(at, ok, count) =>
        if at in s.queues && s.queues[at] != [] {
          DeedsKeepQuiet(s.machines[at], w.norm(at), Put(s.queues[at][0], ok, true, count));
        }
    }
  }

  function Total(names: seq<Name>, s: Star, news: bool): nat {
    if names == [] then 0
    else
      (if names[0] !in s.machines then 0 else if news then s.machines[names[0]].news else s.machines[names[0]].copies)
      + Total(names[1..], s, news)
  }

  lemma {:induction false} NewsNeverExceedCopies(names: seq<Name>, s: Star)
    requires AllQuiet(s)
    ensures Total(names, s, true) <= Total(names, s, false)
  {
    if names != [] {
      NewsNeverExceedCopies(names[1..], s);
    }
  }

  /** On no machine, and not in all, was more found new than local applications copied; and whatever a
      poll now offers is (as much as fits of) what a local application last put on that very machine,
      never what a peer sent. */
  predicate Echoless(w: World, s: Star, at: Name, count: Option<nat>, readable: bool) {
    && (forall n | n in s.machines :: s.machines[n].news <= s.machines[n].copies)
    && Total(Sorted(s.machines.Keys), s, true) <= Total(Sorted(s.machines.Keys), s, false)
    && (at in s.machines ==> OffersOnlyLocal(w, s, at, count, readable))
  }

  predicate OffersOnlyLocal(w: World, s: Star, at: Name, count: Option<nat>, readable: bool)
    requires at in s.machines
  {
    Offer(w, s, at, count, readable).Some? ==>
      s.machines[at].local && s.machines[at].board.Some?
      && Offer(w, s, at, count, readable) == Fit(s.machines[at].board.value, w.maxBytes)
  }

  lemma QuietOffersOnlyLocal(w: World, s: Star, at: Name, count: Option<nat>, readable: bool)
    requires at in s.machines && Quiet(s.machines[at])
    ensures OffersOnlyLocal(w, s, at, count, readable)
  {
    DeedsKeepQuiet(s.machines[at], w.norm(at), Looked(count, readable));
  }

  lemma QuietIsEcholess(w: World, s: Star, at: Name, count: Option<nat>, readable: bool)
    requires AllQuiet(s)
    ensures Echoless(w, s, at, count, readable)
  {
    NewsNeverExceedCopies(Sorted(s.machines.Keys), s);
    if at in s.machines {
      QuietOffersOnlyLocal(w, s, at, count, readable);
    }
  }

  lemma {:induction false} RunsStayQuiet(w: World, s: Star, hs: seq<Happening>)
    requires AllQuiet(s)
    ensures AllQuiet(Play(w, s, hs))
    decreases |hs|
  {
    if hs != [] {
      NextKeepsQuiet(w, s, hs[0]);
      RunsStayQuiet(w, Next(w, s, hs[0]), hs[1..]);
    }
  }

  /** No echo, in any run from the moment the server begins to share, with clients coming and going. */
  lemma NoEcho(w: World, hub: Name, board: Option<Content>, now: Option<nat>, hs: seq<Happening>,
          at: Name, count: Option<nat>, readable: bool)
    ensures AllQuiet(Begun(w, hub, board, now))
    ensures Echoless(w, Play(w, Begun(w, hub, board, now), hs), at, count, readable)
  {
    RunsStayQuiet(w, Begun(w, hub, board, now), hs);
    QuietIsEcholess(w, Play(w, Begun(w, hub, board, now), hs), at, count, readable);
  }

  // ---- one copy reaches everyone, and then it is quiet ------------------------------------------------

  predicate Reads(w: World, s: Star, n: Name, c: Content)
    requires n in s.machines
  {
    s.machines[n].board == Some(w.norm(n)(c))
  }

  /** The copy `c` of machine `from` is spreading: every other machine has it, or it is on its
      way there and nothing else is; and nobody has anything else to offer. */
  predicate Spreading(w: World, s: Star, from: Name, c: Content) {
    && WellFormed(s) && from in s.machines
    && (forall n | n in s.machines :: !Owes(s.machines[n]))
    && (if s.inbox != [] then
          s.inbox == [Pushed(from, c)] && from != s.hub && forall n | n in s.queues :: s.queues[n] == []
        else
          && (from != s.hub ==> Reads(w, s, s.hub, c) && s.queues[from] == [])
          && forall n | n in s.queues && n != from :: s.queues[n] == [c] || (s.queues[n] == [] && Reads(w, s, n, c)))
  }

  predicate Settling(h: Happening) {
    match h
    case Join(_, _, _) => false
    case Part(_) => false
    case Copy(_, _) => false
    case Relay(ok, _) => ok
    case Arrive(_, ok, _) => ok
    case Poll(_, _, _) => true
  }

  lemma PollSpreads(w: World, s: Star, from: Name, c: Content, at: Name, count: Option<nat>, readable: bool)
    requires Spreading(w, s, from, c)
    ensures Spreading(w, Next(w, s, Poll(at, count, readable)), from, c)
    ensures at in s.machines ==> Offer(w, s, at, count, readable) == None
  {
  }

  lemma RelaySpreads(w: World, s: Star, from: Name, c: Content, count: Option<nat>)
    requires Spreading(w, s, from, c)
    ensures Spreading(w, Next(w, s, Relay(true, count)), from, c)
  {
  }

  lemma ArriveSpreads(w: World, s: Star, from: Name, c: Content, at: Name, count: Option<nat>)
    requires Spreading(w, s, from, c)
    ensures Spreading(w, Next(w, s, Arrive(at, true, count)), from, c)
  {
  }

  /** What is delivered is delivered: nothing waits for that machine any more, and it has the copy. */
  lemma DeliveryReaches(w: World, s: Star, from: Name, c: Content, at: Name, count: Option<nat>)
    requires Spreading(w, s, from, c) && s.inbox == [] && at in s.queues && at != from
    ensures var s' := Next(w, s, Arrive(at, true, count)); s'.queues[at] == [] && Reads(w, s', at, c)
  {
  }

  lemma NextSpreads(w: World, s: Star, from: Name, c: Content, h: Happening)
    requires Spreading(w, s, from, c) && Settling(h)
    ensures Spreading(w, Next(w, s, h), from, c)
    ensures h.Poll? && h.at in s.machines ==> Offer(w, s, h.at, h.count, h.readable) == None
  {
    match h
    case Poll(at, count, readable) =>
      PollSpreads(w, s, from, c, at, count, readable);
    case Relay(_, count) =>
      RelaySpreads(w, s, from, c, count);
    case Arrive(at, _, count) =>
      ArriveSpreads(w, s, from, c, at, count);
    case _ =>
  }

  /** One copy at a time, with every machine's clipboard taking what it is given: from the moment
      it is offered, and in whatever order it is delivered and the clipboards are looked at, no
      machine offers anything more, and once nothing is on its way every other machine has it. */
  lemma {:induction false} OneCopySettles(w: World, s: Star, from: Name, c: Content, hs: seq<Happening>)
    requires AllQuiet(s) && Spreading(w, s, from, c) && forall h | h in hs :: Settling(h)
    ensures var s' := Play(w, s, hs);
      && Spreading(w, s', from, c)
      && (s'.inbox == [] && (forall n | n in s'.queues :: s'.queues[n] == []) ==>
            forall n | n in s'.machines && n != from :: Reads(w, s', n, c))
    decreases |hs|
  {
    if hs != [] {
      NextKeepsQuiet(w, s, hs[0]);
      NextSpreads(w, s, from, c, hs[0]);
      OneCopySettles(w, Next(w, s, hs[0]), from, c, hs[1..]);
    }
  }

  /** What a local application copies is offered at the next look, as far as it passes the limit, unless it
      was seen there last or the change count says that nothing came. */
  lemma CopyIsOffered(w: World, s: Star, at: Name, c: Content, count: Option<nat>)
    requires WellFormed(s) && at in s.machines
    ensures var s' := Next(w, s, Copy(at, Some(c)));
      at in s'.machines && Offer(w, s', at, count, true)
        == if Some(c) == s.machines[at].watch.seen || (count.Some? && count == s.machines[at].watch.count) || !HoldsSomething(c)
           then None else Fit(c, w.maxBytes)
  {
    EmptyHoldsNothing(c);
  }

  /** A poll that finds a copy on one machine of a quiet star is where that begins. */
  lemma OfferBeginsSpreading(w: World, s: Star, from: Name, count: Option<nat>, readable: bool, c: Content)
    requires WellFormed(s) && from in s.machines && s.inbox == [] && forall n | n in s.queues :: s.queues[n] == []
    requires forall n | n in s.machines && n != from :: !Owes(s.machines[n])
    requires Offer(w, s, from, count, readable) == Some(c)
    ensures Spreading(w, Next(w, s, Poll(from, count, readable)), from, c)
  {
  }
}
