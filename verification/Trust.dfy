/** Which certificates are trusted for which screens, in memory and in the config file
    (`geserdesk-server/src/trust.rs`, `approve`, `revoke` and `dismiss` in `admin.rs`). */
module Trust {
  import opened Wrappers
  import opened Names
  import Staging

  type Fingerprint = nat

  const MAX_PENDING: nat := 16
  const PENDING_TTL: nat := 600

  datatype Request = Request(name: Name, fp: Fingerprint, addr: string, supersedes: Option<Fingerprint>, lastSeen: nat)

  /** Certificates trusted, and the requests waiting for a person, oldest first. */
  datatype Ledger = Ledger(trusted: map<Name, Fingerprint>, pending: seq<Request>)

  datatype Verdict = Trusted | Mismatch(expected: Fingerprint) | Unknown

  function Check(l: Ledger, name: Name, fp: Fingerprint): Verdict {
    if name !in l.trusted then Unknown else if l.trusted[name] == fp then Trusted else Mismatch(l.trusted[name])
  }

  function Lookup(trusted: map<Name, Fingerprint>, name: Name): Option<Fingerprint> {
    if name in trusted then Some(trusted[name]) else None
  }

  /** The requests that satisfy `keep`, in order. */
  function Retain(pending: seq<Request>, keep: Request -> bool): (kept: seq<Request>)
    ensures |kept| <= |pending|
    ensures forall p :: p in kept <==> p in pending && keep(p)
  {
    if pending == [] then []
    else (if keep(pending[0]) then [pending[0]] else []) + Retain(pending[1..], keep)
  }

  predicate Waiting(pending: seq<Request>, name: Name, fp: Fingerprint) {
    exists p | p in pending :: p.name == name && p.fp == fp
  }

  /** The first request for that name and certificate, brought up to date. */
  function Refresh(pending: seq<Request>, request: Request): (refreshed: seq<Request>)
    ensures |refreshed| == |pending|
    ensures forall i | 0 <= i < |pending| :: refreshed[i].name == pending[i].name && refreshed[i].fp == pending[i].fp
  {
    if pending == [] then []
    else if pending[0].name == request.name && pending[0].fp == request.fp then [request] + pending[1..]
    else [pending[0]] + Refresh(pending[1..], request)
  }

  function NotePending(l: Ledger, name: Name, fp: Fingerprint, addr: string, now: nat): Ledger {
    l.(pending := Enlist(Live(l.pending, now), Request(name, fp, addr, Lookup(l.trusted, name), now)))
  }

  /** The requests that are not too old. */
  function Live(pending: seq<Request>, now: nat): seq<Request> {
    Retain(pending, (p: Request) => now - p.lastSeen < PENDING_TTL)
  }

  /** The list as it is shown, which forgets the ones that are too old. */
  function Listed(l: Ledger, now: nat): Ledger {
    l.(pending := Live(l.pending, now))
  }

  /** A request that waits already is refreshed; a new one goes last, and the oldest makes room. */
  function Enlist(live: seq<Request>, request: Request): seq<Request> {
    if Waiting(live, request.name, request.fp) then Refresh(live, request)
    else (if |live| >= MAX_PENDING then live[1..] else live) + [request]
  }

  /** Whoever was asked about is trusted, and no other request in that name is left. */
  function Approve(l: Ledger, name: Name, fp: Fingerprint): Option<Ledger> {
    if !Waiting(l.pending, name, fp) then None
    else Some(Ledger(l.trusted[name := fp], Retain(l.pending, (p: Request) => p.name != name)))
  }

  function Dismiss(l: Ledger, name: Name, fp: Fingerprint): Ledger {
    l.(pending := Retain(l.pending, (p: Request) => !(p.name == name && p.fp == fp)))
  }

  function Restore(l: Ledger, name: Name, fp: Option<Fingerprint>): Ledger {
    l.(trusted := if fp.Some? then l.trusted[name := fp.value] else l.trusted - {name})
  }

  class TrustStore {
    var trusted: map<Name, Fingerprint>
    var pending: seq<Request>

    function View(): Ledger
      reads this
    {
      Ledger(trusted, pending)
    }

    constructor (trusted: map<Name, Fingerprint>)
      ensures View() == Ledger(trusted, [])
    {
      this.trusted := trusted;
      pending := [];
    }

    method Note(name: Name, fp: Fingerprint, addr: string, now: nat)
      modifies this
      ensures View() == NotePending(old(View()), name, fp, addr, now)
    {
      pending := Live(pending, now);
      var request := Request(name, fp, addr, Lookup(trusted, name), now);
      if Waiting(pending, name, fp) {
        pending := Refresh(pending, request);
        return;
      }
      if |pending| >= MAX_PENDING {
        pending := pending[1..];
      }
      pending := pending + [request];
    }

    method List(now: nat) returns (shown: seq<Request>)
      modifies this`pending
      ensures View() == Listed(old(View()), now) && shown == pending
    {
      pending := Live(pending, now);
      return pending;
    }

    method Verify(name: Name, fp: Fingerprint) returns (verdict: Verdict)
      ensures verdict == Check(View(), name, fp)
    {
      if name !in trusted {
        return Unknown;
      }
      return if trusted[name] == fp then Trusted else Mismatch(trusted[name]);
    }

    method ApproveRequest(name: Name, fp: Fingerprint) returns (ok: bool)
      modifies this
      ensures ok == Approve(old(View()), name, fp).Some?
      ensures View() == if ok then Approve(old(View()), name, fp).value else old(View())
    {
      if !Waiting(pending, name, fp) {
        return false;
      }
      pending := Retain(pending, (p: Request) => p.name != name);
      trusted := trusted[name := fp];
      return true;
    }

    method DismissRequest(name: Name, fp: Fingerprint) returns (dropped: bool)
      modifies this
      ensures View() == Dismiss(old(View()), name, fp)
      ensures dropped <==> |pending| != |old(pending)|
    {
      var before := |pending|;
      pending := Retain(pending, (p: Request) => !(p.name == name && p.fp == fp));
      return |pending| != before;
    }

    method Revoke(name: Name) returns (was: Option<Fingerprint>)
      modifies this`trusted
      ensures was == Lookup(old(trusted), name) && trusted == old(trusted) - {name}
    {
      was := Lookup(trusted, name);
      trusted := trusted - {name};
    }

    method PutBack(name: Name, fp: Option<Fingerprint>)
      modifies this`trusted
      ensures View() == Restore(old(View()), name, fp)
    {
      trusted := if fp.Some? then trusted[name := fp.value] else trusted - {name};
    }
  }

  // ---- the desk's administration ------------------------------------------------------------------

  /** What Rust's `trim` takes off. */
  predicate IsSpace(c: char) {
    var n := c as int;
    0x09 <= n <= 0x0D || n == 0x20 || n == 0x85 || n == 0xA0 || n == 0x1680 || 0x2000 <= n <= 0x200A
    || n == 0x2028 || n == 0x2029 || n == 0x202F || n == 0x205F || n == 0x3000
  }

  /** A name for a machine that asks to join must be plain. */
  predicate ValidScreenName(name: Name) {
    && name != "" && Staging.Utf8Length(name) <= 64
    && !IsSpace(name[0]) && !IsSpace(name[|name| - 1])
    && forall c | c in name :: !Staging.IsControl(c)
  }

  /** Each screen of the config file and the fingerprint recorded for it. */
  type Config = map<Name, Option<Fingerprint>>

  datatype AdminError = UnknownScreen(name: Name) | NotPending | NotTrusted | SaveFailed

  /** Memory, and the config file, if the server runs with one. */
  datatype Admin = Admin(ledger: Ledger, screens: set<Name>, config: Option<Config>)

  /** Setting or removing a listed screen's fingerprint; a screen that is not listed is passed over. */
  function WriteFingerprint(config: Config, name: Name, fp: Option<Fingerprint>): Config {
    if name in config then config[name := fp] else config
  }

  /** `writes` says whether the file could be written. */
  function ApproveClient(a: Admin, name: Name, fp: Fingerprint, writes: bool): (Admin, Option<AdminError>) {
    var listed := name in a.screens;
    if !listed && !ValidScreenName(name) then (a, Some(UnknownScreen(name)))
    else
      match Approve(a.ledger, name, fp)
      case None => (a, Some(NotPending))
      case Some(ledger) =>
        var joined := if listed then a.screens else a.screens + {name};
        if a.config.None? then (a.(ledger := ledger, screens := joined), None)
        else if !writes || (!listed && name in a.config.value) then
          (a.(ledger := Restore(ledger, name, Lookup(a.ledger.trusted, name))), Some(SaveFailed))
        else
          var config := if listed then WriteFingerprint(a.config.value, name, Some(fp)) else a.config.value[name := Some(fp)];
          (Admin(ledger, joined, Some(config)), None)
  }

  function RevokeClient(a: Admin, name: Name, writes: bool): (Admin, Option<AdminError>) {
    if name !in a.ledger.trusted then (a, Some(NotTrusted))
    else
      var ledger := a.ledger.(trusted := a.ledger.trusted - {name});
      if a.config.None? then (a.(ledger := ledger), None)
      else if !writes then (a.(ledger := Restore(ledger, name, Some(a.ledger.trusted[name]))), Some(SaveFailed))
      else (a.(ledger := ledger, config := Some(WriteFingerprint(a.config.value, name, None))), None)
  }

  class DeskAdministration {
    const store: TrustStore
    var screens: set<Name>
    var config: Option<Config>

    ghost function View(): Admin
      reads this, store
    {
      Admin(store.View(), screens, config)
    }

    constructor (store: TrustStore, screens: set<Name>, config: Option<Config>)
      ensures this.store == store && View() == Admin(store.View(), screens, config)
    {
      this.store := store;
      this.screens := screens;
      this.config := config;
    }

    method ApproveScreen(name: Name, fp: Fingerprint, writes: bool) returns (error: Option<AdminError>)
      modifies this, store
      ensures (View(), error) == ApproveClient(old(View()), name, fp, writes)
    {
      var listed := name in screens;
      if !listed && !ValidScreenName(name) {
        return Some(UnknownScreen(name));
      }
      var previous := Lookup(store.trusted, name);
      var approved := store.ApproveRequest(name, fp);
      if !approved {
        return Some(NotPending);
      }
      if config.Some? {
        if !writes || (!listed && name in config.value) {
          store.PutBack(name, previous);
          return Some(SaveFailed);
        }
        config := Some(if listed then WriteFingerprint(config.value, name, Some(fp)) else config.value[name := Some(fp)]);
      }
      if !listed {
        screens := screens + {name};
      }
      return None;
    }

    method RevokeScreen(name: Name, writes: bool) returns (error: Option<AdminError>)
      modifies this, store
      ensures (View(), error) == RevokeClient(old(View()), name, writes)
    {
      var was := store.Revoke(name);
      if was.None? {
        assert store.trusted == old(store.trusted);
        return Some(NotTrusted);
      }
      if config.Some? {
        if !writes {
          store.PutBack(name, was);
          return Some(SaveFailed);
        }
        config := Some(WriteFingerprint(config.value, name, None));
      }
      return None;
    }
  }

  // ---- memory and file agree -----------------------------------------------------------------------------

  function Recorded(config: Config): map<Name, Fingerprint> {
    map n | n in config && config[n].Some? :: config[n].value
  }

  /** What is trusted is what the file records, and the desk's screens are the file's. */
  predicate InAgreement(a: Admin) {
    a.config.Some? ==> a.screens == a.config.value.Keys && a.ledger.trusted == Recorded(a.config.value)
  }

  /** No request waits twice, and never more than sixteen. */
  predicate Bounded(pending: seq<Request>) {
    |pending| <= MAX_PENDING && Once(pending)
  }

  predicate Once(pending: seq<Request>) {
    forall i, j | 0 <= i < j < |pending| :: !(pending[i].name == pending[j].name && pending[i].fp == pending[j].fp)
  }

  datatype TrustOp =
    | Asks(name: Name, fp: Fingerprint, addr: string, now: nat)
    | Approves(name: Name, fp: Fingerprint, writes: bool)
    | Lists(now: nat)
    | Dismisses(name: Name, fp: Fingerprint)
    | Revokes(name: Name, writes: bool)

  function Step(a: Admin, op: TrustOp): Admin {
    match op
    case Asks(name, fp, addr, now) => a.(ledger := NotePending(a.ledger, name, fp, addr, now))
    case Approves(name, fp, writes) => ApproveClient(a, name, fp, writes).0
    case Lists(now) => a.(ledger := Listed(a.ledger, now))
    case Dismisses(name, fp) => a.(ledger := Dismiss(a.ledger, name, fp))
    case Revokes(name, writes) => RevokeClient(a, name, writes).0
  }

  lemma {:induction false} RetainKeepsOnce(pending: seq<Request>, keep: Request -> bool)
    requires Once(pending)
    ensures Once(Retain(pending, keep))
  {
    if pending != [] {
      assert Once(pending[1..]);
      RetainKeepsOnce(pending[1..], keep);
      assert forall p | p in pending[1..] :: !(p.name == pending[0].name && p.fp == pending[0].fp);
      OneMoreOnce(pending[0], Retain(pending[1..], keep));
      assert [] + Retain(pending[1..], keep) == Retain(pending[1..], keep);
    }
  }

  lemma OneMoreOnce(first: Request, rest: seq<Request>)
    requires Once(rest) && forall p | p in rest :: !(p.name == first.name && p.fp == first.fp)
    ensures Once([first] + rest)
  {
  }

  lemma NotingKeepsOnce(l: Ledger, name: Name, fp: Fingerprint, addr: string, now: nat)
    requires Bounded(l.pending)
    ensures Bounded(NotePending(l, name, fp, addr, now).pending)
  {
    RetainKeepsOnce(l.pending, (p: Request) => now - p.lastSeen < PENDING_TTL);
    EnlistingKeepsOnce(Live(l.pending, now), Request(name, fp, addr, Lookup(l.trusted, name), now));
  }

  lemma EnlistingKeepsOnce(live: seq<Request>, request: Request)
    requires Bounded(live)
    ensures Bounded(Enlist(live, request))
  {
    if !Waiting(live, request.name, request.fp) {
      var left := if |live| >= MAX_PENDING then live[1..] else live;
      assert forall p | p in left :: p in live;
      LastOnce(left, request);
    }
  }

  lemma LastOnce(pending: seq<Request>, last: Request)
    requires Once(pending) && !Waiting(pending, last.name, last.fp)
    ensures Once(pending + [last])
  {
    assert forall i | 0 <= i < |pending| :: pending[i] in pending;
  }

  lemma StepKeepsAgreement(a: Admin, op: TrustOp)
    requires InAgreement(a) && Bounded(a.ledger.pending)
    ensures InAgreement(Step(a, op)) && Bounded(Step(a, op).ledger.pending)
  {
    match op
    case Asks(name, fp, addr, now) =>
      NotingKeepsOnce(a.ledger, name, fp, addr, now);
    case Approves(name, fp, writes) =>
      RetainKeepsOnce(a.ledger.pending, (p: Request) => p.name != name);
    case Lists(now) =>
      RetainKeepsOnce(a.ledger.pending, (p: Request) => now - p.lastSeen < PENDING_TTL);
    case Dismisses(name, fp) =>
      RetainKeepsOnce(a.ledger.pending, (p: Request) => !(p.name == name && p.fp == fp));
    case Revokes(name, writes) =>
  }

  function Run(a: Admin, ops: seq<TrustOp>): Admin
    decreases |ops|
  {
    if ops == [] then a else Run(Step(a, ops[0]), ops[1..])
  }

  /** Over every run, with writes failing as they like: memory is what the file says, the desk's
      screens are the file's, and the waiting list stays short and without repeats. */
  lemma {:induction false} MemoryIsTheFile(a: Admin, ops: seq<TrustOp>)
    requires InAgreement(a) && Bounded(a.ledger.pending)
    ensures InAgreement(Run(a, ops)) && Bounded(Run(a, ops).ledger.pending)
    decreases |ops|
  {
    if ops != [] {
      StepKeepsAgreement(a, ops[0]);
      MemoryIsTheFile(Step(a, ops[0]), ops[1..]);
    }
  }

  // ---- where trust comes from ----------------------------------------------------------------------------

  /** A certificate becomes trusted for a name by an approval of exactly that pair, which was waiting
      then, and in no other way. */
  lemma TrustNeedsApproval(a: Admin, op: TrustOp, name: Name, fp: Fingerprint)
    requires Lookup(a.ledger.trusted, name) != Some(fp) && Lookup(Step(a, op).ledger.trusted, name) == Some(fp)
    ensures op.Approves? && op.name == name && op.fp == fp && Waiting(a.ledger.pending, name, fp)
  {
  }

  predicate Asked(ops: seq<TrustOp>, name: Name, fp: Fingerprint) {
    exists op | op in ops :: op.Asks? && op.name == name && op.fp == fp
  }

  /** Nothing waits that did not ask. */
  predicate AllAsked(pending: seq<Request>, ops: seq<TrustOp>) {
    forall p | p in pending :: Asked(ops, p.name, p.fp)
  }

  lemma StepKeepsAsked(a: Admin, op: TrustOp, before: seq<TrustOp>)
    requires AllAsked(a.ledger.pending, before)
    ensures AllAsked(Step(a, op).ledger.pending, before + [op])
  {
    var after := before + [op];
    forall p | p in Step(a, op).ledger.pending ensures Asked(after, p.name, p.fp) {
      assert op in after;
      if !(op.Asks? && op.name == p.name && op.fp == p.fp) {
        WaitedBefore(a, op, p);
        assert Asked(before, p.name, p.fp);
        assert forall o | o in before :: o in after;
      }
    }
  }

  lemma WaitedBefore(a: Admin, op: TrustOp, p: Request)
    requires p in Step(a, op).ledger.pending && !(op.Asks? && op.name == p.name && op.fp == p.fp)
    ensures Waiting(a.ledger.pending, p.name, p.fp)
  {
    if op.Asks? {
      var live := Live(a.ledger.pending, op.now);
      var request := Request(op.name, op.fp, op.addr, Lookup(a.ledger.trusted, op.name), op.now);
      if Waiting(live, op.name, op.fp) {
        var i :| 0 <= i < |live| && Refresh(live, request)[i] == p;
        assert live[i] in live;
      } else {
        assert p in live;
      }
    }
  }

  lemma {:induction false} TrustIsEarned(a: Admin, before: seq<TrustOp>, ops: seq<TrustOp>, name: Name, fp: Fingerprint)
    requires AllAsked(a.ledger.pending, before)
    ensures Lookup(Run(a, ops).ledger.trusted, name) == Some(fp) ==>
      Lookup(a.ledger.trusted, name) == Some(fp) || Asked(before + ops, name, fp)
    decreases |ops|
  {
    if ops != [] {
      var a1, past := Step(a, ops[0]), before + [ops[0]];
      StepKeepsAsked(a, ops[0], before);
      TrustIsEarned(a1, past, ops[1..], name, fp);
      assert past + ops[1..] == before + ops;
      if Lookup(a.ledger.trusted, name) != Some(fp) && Lookup(a1.ledger.trusted, name) == Some(fp) {
        TrustNeedsApproval(a, ops[0], name, fp);
        assert Asked(before, name, fp);
        assert forall o | o in before :: o in before + ops;
      }
    }
  }

  /** From a server's start on, whatever happens: a certificate that is let in for a name was in the
      config from the beginning, or asked for that very name. */
  lemma TrustedWereConfiguredOrAsked(initial: Admin, ops: seq<TrustOp>, name: Name, fp: Fingerprint)
    requires initial.ledger.pending == [] && Check(Run(initial, ops).ledger, name, fp) == Trusted
    ensures Check(initial.ledger, name, fp) == Trusted || Asked(ops, name, fp)
  {
    TrustIsEarned(initial, [], ops, name, fp);
    assert [] + ops == ops;
  }

  /** With a config file: who is let in, in any run, is who the file records at that moment. */
  lemma LetInIsRecorded(initial: Admin, ops: seq<TrustOp>, name: Name, fp: Fingerprint)
    requires InAgreement(initial) && Bounded(initial.ledger.pending) && Run(initial, ops).config.Some?
    ensures var a := Run(initial, ops);
      Check(a.ledger, name, fp) == Trusted <==> name in a.config.value && a.config.value[name] == Some(fp)
  {
    MemoryIsTheFile(initial, ops);
  }

  // ---- asking ------------------------------------------------------------------------------------------

  lemma {:induction false} RefreshReplaces(pending: seq<Request>, request: Request)
    requires Waiting(pending, request.name, request.fp) && Once(pending)
    ensures request in Refresh(pending, request)
    ensures forall p: Request | p.name != request.name || p.fp != request.fp :: p in Refresh(pending, request) <==> p in pending
  {
    if pending[0].name == request.name && pending[0].fp == request.fp {
      assert pending == [pending[0]] + pending[1..];
    } else {
      assert Once(pending[1..]);
      RefreshReplaces(pending[1..], request);
    }
  }

  /** Whoever asks is on the list with what it asked just now; the others stay that are not too old, but
      for the oldest of sixteen if the one that asks is new. */
  lemma AskingIsNoted(l: Ledger, name: Name, fp: Fingerprint, addr: string, now: nat)
    requires Bounded(l.pending)
    ensures var l', live := NotePending(l, name, fp, addr, now), Live(l.pending, now);
      && l'.trusted == l.trusted && Request(name, fp, addr, Lookup(l.trusted, name), now) in l'.pending
      && forall p: Request | p.name != name || p.fp != fp :: p in l'.pending <==>
           p in l.pending && now - p.lastSeen < 600 && !(|live| == 16 && !Waiting(live, name, fp) && p == live[0])
  {
    var live, request := Live(l.pending, now), Request(name, fp, addr, Lookup(l.trusted, name), now);
    RetainKeepsOnce(l.pending, (p: Request) => now - p.lastSeen < PENDING_TTL);
    if Waiting(live, name, fp) {
      RefreshReplaces(live, request);
    } else if |live| >= MAX_PENDING {
      assert live == [live[0]] + live[1..];
      assert forall p | p in live[1..] :: p != live[0];
    }
  }

  // ---- approving ---------------------------------------------------------------------------------------

  /** The characters Unicode calls white space. */
  const WHITE_SPACE: set<int> := {
    9, 10, 11, 12, 13, 32, 133, 160, 5760, 8192, 8193, 8194, 8195, 8196, 8197, 8198, 8199, 8200, 8201, 8202, 8232, 8233,
    8239, 8287, 12288
  }

  lemma SpaceIsWhiteSpace(c: char)
    ensures IsSpace(c) <==> c as int in WHITE_SPACE
  {
  }

  /** A plain name: not empty, at most 64 bytes, with no white space around it and no control characters. */
  predicate Plain(name: Name) {
    && name != "" && Staging.Utf8Length(name) <= 64
    && name[0] as int !in WHITE_SPACE && name[|name| - 1] as int !in WHITE_SPACE
    && forall i | 0 <= i < |name| :: name[i] as int >= 32 && !(127 <= name[i] as int <= 159)
  }

  lemma ValidIsPlain(name: Name)
    ensures ValidScreenName(name) <==> Plain(name)
  {
    if name != "" {
      SpaceIsWhiteSpace(name[0]);
      SpaceIsWhiteSpace(name[|name| - 1]);
      assert (forall c | c in name :: !Staging.IsControl(c)) <==> forall i | 0 <= i < |name| :: !Staging.IsControl(name[i]);
    }
  }

  /** A screen neither listed nor of a plain name is not approved; otherwise a request that waits is, unless
      it cannot be saved. What is approved is trusted, listed, recorded if there is a file, and no request in
      that name is left; nothing else changes. */
  lemma ApprovalTakesEffect(a: Admin, name: Name, fp: Fingerprint, writes: bool)
    ensures var (a', error) := ApproveClient(a, name, fp, writes);
      && (error == Some(UnknownScreen(name)) <==> name !in a.screens && !Plain(name))
      && (error == None <==>
            && (name in a.screens || Plain(name)) && Waiting(a.ledger.pending, name, fp)
            && (a.config.Some? ==> writes && (name !in a.screens ==> name !in a.config.value)))
      && (error == None ==>
            && a'.ledger.trusted == a.ledger.trusted[name := fp] && a'.screens == a.screens + {name}
            && (forall p :: p in a'.ledger.pending <==> p in a.ledger.pending && p.name != name)
            && (a.config.None? <==> a'.config.None?)
            && (InAgreement(a) && a.config.Some? ==> a'.config.value == a.config.value[name := Some(fp)]))
  {
    ValidIsPlain(name);
  }

  // ---- dismissed, and revoked ------------------------------------------------------------------------------

  /** A request that was dismissed waits no more, and the others do, in their order. */
  lemma {:induction false} DismissDrops(pending: seq<Request>, name: Name, fp: Fingerprint, l: Ledger)
    requires l.pending == pending
    ensures var left := Dismiss(l, name, fp).pending;
      && !Waiting(left, name, fp)
      && (forall n, f | n != name || f != fp :: Of(left, n, f) == Of(pending, n, f))
      && Dismiss(l, name, fp).trusted == l.trusted
    decreases |pending|
  {
    if pending != [] {
      DismissDrops(pending[1..], name, fp, l.(pending := pending[1..]));
      var rest := Dismiss(l.(pending := pending[1..]), name, fp).pending;
      var left := Dismiss(l, name, fp).pending;
      assert left == (if pending[0].name == name && pending[0].fp == fp then [] else [pending[0]]) + rest;
      assert [] + rest == rest && ([pending[0]] + rest)[1..] == rest;
    }
  }

  /** The requests of one pair, in order. */
  function Of(pending: seq<Request>, name: Name, fp: Fingerprint): seq<Request> {
    if pending == [] then []
    else (if pending[0].name == name && pending[0].fp == fp then [pending[0]] else []) + Of(pending[1..], name, fp)
  }

  lemma {:induction false} StaysAway(a: Admin, ops: seq<TrustOp>, name: Name, fp: Fingerprint)
    requires !Waiting(a.ledger.pending, name, fp) && !Asked(ops, name, fp) && Lookup(a.ledger.trusted, name) != Some(fp)
    ensures !Waiting(Run(a, ops).ledger.pending, name, fp) && Lookup(Run(a, ops).ledger.trusted, name) != Some(fp)
    decreases |ops|
  {
    if ops != [] {
      var a1 := Step(a, ops[0]);
      assert ops[0] in ops && forall op | op in ops[1..] :: op in ops;
      forall p | p in a1.ledger.pending && p.name == name && p.fp == fp ensures false {
        WaitedBefore(a, ops[0], p);
      }
      if Lookup(a1.ledger.trusted, name) == Some(fp) {
        TrustNeedsApproval(a, ops[0], name, fp);
      }
      StaysAway(a1, ops[1..], name, fp);
    }
  }

  /** Once dismissed, a certificate that is not trusted can be neither approved nor let in until it asks
      for that name again, whatever else happens. */
  lemma DismissedStaysOut(a: Admin, ops: seq<TrustOp>, name: Name, fp: Fingerprint, writes: bool)
    requires !Asked(ops, name, fp) && Check(a.ledger, name, fp) != Trusted
    ensures var end := Run(Step(a, Dismisses(name, fp)), ops);
      && Check(end.ledger, name, fp) != Trusted
      && ApproveClient(end, name, fp, writes).1 in {Some(NotPending), Some(UnknownScreen(name))}
  {
    DismissDrops(a.ledger.pending, name, fp, a.ledger);
    StaysAway(Step(a, Dismisses(name, fp)), ops, name, fp);
  }

  predicate Approved(ops: seq<TrustOp>, name: Name, fp: Fingerprint) {
    exists op | op in ops :: op.Approves? && op.name == name && op.fp == fp
  }

  /** A revocation that is saved takes effect: no certificate is let in for that name, and each one only
      after an approval of its own. One that is not saved leaves everything as it was. */
  lemma RevokedStaysOut(a: Admin, ops: seq<TrustOp>, name: Name, fp: Fingerprint, writes: bool)
    requires RevokeClient(a, name, writes).1 == None && !Approved(ops, name, fp)
    ensures Check(Run(Step(a, Revokes(name, writes)), ops).ledger, name, fp) != Trusted
  {
    UnapprovedStaysOut(Step(a, Revokes(name, writes)), ops, name, fp);
  }

  lemma {:induction false} UnapprovedStaysOut(a: Admin, ops: seq<TrustOp>, name: Name, fp: Fingerprint)
    requires Lookup(a.ledger.trusted, name) != Some(fp) && !Approved(ops, name, fp)
    ensures Lookup(Run(a, ops).ledger.trusted, name) != Some(fp)
    decreases |ops|
  {
    if ops != [] {
      assert ops[0] in ops && forall op | op in ops[1..] :: op in ops;
      if Lookup(Step(a, ops[0]).ledger.trusted, name) == Some(fp) {
        TrustNeedsApproval(a, ops[0], name, fp);
      }
      UnapprovedStaysOut(Step(a, ops[0]), ops[1..], name, fp);
    }
  }

  lemma RevocationIsSavedOrUndone(a: Admin, name: Name, writes: bool)
    requires InAgreement(a)
    ensures var (a', error) := RevokeClient(a, name, writes);
      && (error == None <==> name in a.ledger.trusted && (writes || a.config.None?))
      && (error == Some(SaveFailed) <==> name in a.ledger.trusted && a.config.Some? && !writes)
      && (if error == None then a'.ledger.trusted == a.ledger.trusted - {name} && a'.ledger.pending == a.ledger.pending
          else a' == a)
  {
    if name in a.ledger.trusted {
      assert (a.ledger.trusted - {name})[name := a.ledger.trusted[name]] == a.ledger.trusted;
    }
  }

  // ---- a failed approval, and old requests -----------------------------------------------------------------

  /** An approval fails to be saved exactly when the request could have been approved and the file
      could not be written, or a screen it takes for a new one is in the file already. Then the trust
      is undone and the forgetting is not: memory and file are as before, every request in that name
      is gone, at least the approved one, and the client has to ask again. */
  lemma FailedSaveForgetsRequests(a: Admin, name: Name, fp: Fingerprint, writes: bool)
    ensures var (a', error) := ApproveClient(a, name, fp, writes);
      && (error == Some(SaveFailed) <==>
          && (name in a.screens || ValidScreenName(name)) && Waiting(a.ledger.pending, name, fp)
          && a.config.Some? && (!writes || (name !in a.screens && name in a.config.value)))
      && (error == Some(SaveFailed) ==>
          && a'.ledger.trusted == a.ledger.trusted && a'.config == a.config && a'.screens == a.screens
          && a'.ledger.pending != a.ledger.pending && (forall p | p in a'.ledger.pending :: p.name != name)
          && ApproveClient(a', name, fp, true).1 == Some(NotPending))
      && (error.Some? && error != Some(SaveFailed) ==> a' == a)
  {
  }

  /** Approving does not look at the age: a request can be approved that the list would not show
      exactly when it waits and is as old as the limit or older. */
  lemma HiddenYetApprovable(l: Ledger, name: Name, fp: Fingerprint, now: nat)
    requires Once(l.pending)
    ensures Approve(l, name, fp).Some? && !Waiting(Listed(l, now).pending, name, fp)
        <==> exists p | p in l.pending :: p.name == name && p.fp == fp && now - p.lastSeen >= PENDING_TTL
  {
    if p :| p in l.pending && p.name == name && p.fp == fp && now - p.lastSeen >= PENDING_TTL {
      assert Waiting(l.pending, name, fp);
      forall q | q in l.pending && q.name == name && q.fp == fp ensures q == p {
        var i :| 0 <= i < |l.pending| && l.pending[i] == p;
        var j :| 0 <= j < |l.pending| && l.pending[j] == q;
        assert i == j || i < j || j < i;
      }
    }
  }

  /** Showing the list closes that gap: just after, what can be approved is what was shown. */
  lemma ListingForgets(a: Admin, name: Name, fp: Fingerprint, now: nat)
    ensures Approve(Step(a, Lists(now)).ledger, name, fp).Some?
        <==> exists p | p in a.ledger.pending :: p.name == name && p.fp == fp && now - p.lastSeen < 600
  {
  }

  /** Such a run: asked at 0, hidden from 600 on, approved all the same. */
  lemma OldRequestIsApproved(start: Admin, ops: seq<TrustOp>)
    requires start == Admin(Ledger(map[], []), {"win"}, None) && ops == [Asks("win", 7, "", 0), Approves("win", 7, true)]
    ensures Listed(Run(start, ops[..1]).ledger, 600).pending == [] && Check(Run(start, ops).ledger, "win", 7) == Trusted
  {
    var a1 := Step(start, ops[0]);
    assert ops[..1] == [ops[0]] && ops[..1][1..] == [] && Run(start, ops[..1]) == a1;
    var rest := ops[1..];
    assert rest == [ops[1]] && rest[1..] == [];
    assert Run(a1, rest) == Run(Step(a1, ops[1]), rest[1..]);
    var request := Request("win", 7, "", None, 0);
    assert Live([], 0) == [];
    assert a1.ledger.pending == [] + [request] == [request];
    assert request in a1.ledger.pending;
    assert [request][1..] == [];
    assert Live([request], 600) == [];
    assert Run(start, ops) == Step(a1, ops[1]);
  }
}
