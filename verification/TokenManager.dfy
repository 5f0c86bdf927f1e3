/** OAuth token refresh (internal/provider/codex/refresh.go): one exchange at a time, and dead
    credentials are not tried again. The mutex makes each refresh one atomic action; the reads
    EnsureFreshToken does before it can interleave with anything. */
module TokenManager {
  import opened Bytes

  datatype Credentials = Credentials(access: string, refresh: string, expiresAt: Option<int>)

  const FRESH_MARGIN: int := 5 * 60 * 1_000_000_000

  predicate TokenFresh(c: Credentials, now: int) {
    c.access != "" && c.expiresAt.Some? && c.expiresAt.value - now > FRESH_MARGIN
  }

  /** The token endpoint's answer; a token may come without a new refresh token. */
  datatype Reply = Token(access: string, refresh: string, expiresAt: Option<int>) | Unrecoverable | Failed

  datatype Result = Ready(creds: Credentials) | NotAuthenticated | NoRefreshToken | Reauthenticate | EndpointError | PutFailed

  /** One POST to the endpoint: with which pair, for which rejected access token when forced. */
  datatype Post = Post(access: string, refresh: string, forcedFor: Option<string>, reply: Reply)

  datatype Manager = Manager(store: Credentials, deadAccess: string, deadRefresh: string, posts: seq<Post>)

  predicate Dead(m: Manager) {
    m.store.access == m.deadAccess && m.store.refresh == m.deadRefresh
  }

  function Renewed(c: Credentials, t: Reply): Credentials
    requires t.Token?
  {
    Credentials(t.access, if t.refresh != "" then t.refresh else c.refresh, t.expiresAt)
  }

  /** Whether refresh answers without asking the endpoint. forcedFor is the access token a
      forced refresh was rejected with; None for an unforced one. */
  function Early(m: Manager, forcedFor: Option<string>, now: int): Option<Result> {
    if forcedFor.Some? && forcedFor.value != "" && m.store.access != forcedFor.value then Some(Ready(m.store))
    else if forcedFor.None? && TokenFresh(m.store, now) then Some(Ready(m.store))
    else if m.store.refresh == "" then Some(NoRefreshToken)
    else if Dead(m) then Some(Reauthenticate)
    else None
  }

  /** refresh, under the mutex. */
  function Refresh(m: Manager, forcedFor: Option<string>, now: int, reply: Reply, putOk: bool): (Result, Manager) {
    var early := Early(m, forcedFor, now);
    if early.Some? then (early.value, m)
    else
      var asked := m.(deadAccess := "", deadRefresh := "", posts := m.posts + [Post(m.store.access, m.store.refresh, forcedFor, reply)]);
      match reply
      case Unrecoverable => (Reauthenticate, asked.(deadAccess := m.store.access, deadRefresh := m.store.refresh))
      case Failed => (EndpointError, asked)
      case Token(_, _, _) =>
        if putOk then (Ready(Renewed(m.store, reply)), asked.(store := Renewed(m.store, reply))) else (PutFailed, asked)
  }

  // ---------------------------------------------------------------- interleavings

  /** The atomic actions of any number of callers: a refresh EnsureFreshToken asked for, a forced
      one, and a write to the store from outside. The unlocked look at the store that comes
      before the first changes nothing, and what it read and tested may be of any earlier
      moments; so that refresh may come at any time, from anyone. */
  datatype Action =
    | Ensure(now: int, reply: Reply, putOk: bool)
    | Force(rejected: string, now: int, reply: Reply, putOk: bool)
    | Reconnect(creds: Credentials)

  /** seen are the access tokens the store ever held. */
  datatype System = System(manager: Manager, seen: set<string>)

  function Turn(m: Manager, a: Action): Manager {
    match a
    case Ensure(now, reply, putOk) => Refresh(m, None, now, reply, putOk).1
    case Force(rejected, now, reply, putOk) => Refresh(m, Some(rejected), now, reply, putOk).1
    case Reconnect(creds) => m.(store := creds)
  }

  function Turns(m: Manager, actions: seq<Action>): Manager {
    if actions == [] then m else Turn(Turns(m, actions[..|actions| - 1]), actions[|actions| - 1])
  }

  function Act(s: System, a: Action): System {
    var m := Turn(s.manager, a);
    s.(manager := m, seen := s.seen + {m.store.access})
  }

  function Run(s: System, actions: seq<Action>): System {
    if actions == [] then s else Act(Run(s, actions[..|actions| - 1]), actions[|actions| - 1])
  }

  function Start(creds: Credentials): System {
    System(Manager(creds, "", "", []), {creds.access})
  }

  /** The assumption on one action: every write to the store succeeds and brings an access
      token the store never held. */
  predicate Fair(s: System, a: Action) {
    match a
    case Ensure(_, reply, putOk) => putOk && (reply.Token? ==> reply.access !in s.seen)
    case Force(_, _, reply, putOk) => putOk && (reply.Token? ==> reply.access !in s.seen)
    case Reconnect(creds) => creds.access !in s.seen
  }

  ghost predicate FairRun(s: System, actions: seq<Action>) {
    actions == [] ||
    (FairRun(s, actions[..|actions| - 1]) && Fair(Run(s, actions[..|actions| - 1]), actions[|actions| - 1]))
  }

  /** Successful exchanges a rejected access token has caused. */
  function Exchanges(posts: seq<Post>, rejected: string): nat {
    if posts == [] then 0
    else
      var p := posts[|posts| - 1];
      Exchanges(posts[..|posts| - 1], rejected) + if p.forcedFor == Some(rejected) && p.reply.Token? then 1 else 0
  }

  lemma RefreshPosts(m: Manager, forcedFor: Option<string>, now: int, reply: Reply, putOk: bool, rejected: string)
    requires rejected != ""
    ensures var m1 := Refresh(m, forcedFor, now, reply, putOk).1;
            Exchanges(m1.posts, rejected) == Exchanges(m.posts, rejected)
            + if Early(m, forcedFor, now).None? && forcedFor == Some(rejected) && reply.Token? then 1 else 0
  {
    if Early(m, forcedFor, now).None? {
      var posts := m.posts + [Post(m.store.access, m.store.refresh, forcedFor, reply)];
      assert posts[..|m.posts|] == m.posts;
    }
  }

  /** A rejected token has been exchanged at most once, and once it has, the store has moved on. */
  ghost predicate OneFlight(s: System, rejected: string) {
    && s.manager.store.access in s.seen
    && Exchanges(s.manager.posts, rejected) <= 1
    && (Exchanges(s.manager.posts, rejected) == 1 ==> rejected in s.seen && s.manager.store.access != rejected)
  }

  lemma OneFlightStep(s: System, a: Action, rejected: string)
    requires rejected != "" && OneFlight(s, rejected) && Fair(s, a)
    ensures OneFlight(Act(s, a), rejected)
  {
    match a
    case Ensure(now, reply, putOk) => RefreshPosts(s.manager, None, now, reply, putOk, rejected);
    case Force(bad, now, reply, putOk) => RefreshPosts(s.manager, Some(bad), now, reply, putOk, rejected);
    case _ =>
  }

  /** Single flight: in every interleaving, forced refreshes for the same rejected, non-empty
      access token make at most one successful exchange between them, however many callers
      bring it. */
  lemma {:induction false} OneExchangePerRejection(creds: Credentials, actions: seq<Action>, rejected: string)
    requires rejected != "" && FairRun(Start(creds), actions)
    ensures OneFlight(Run(Start(creds), actions), rejected)
  {
    if actions != [] {
      var init, a := actions[..|actions| - 1], actions[|actions| - 1];
      OneExchangePerRejection(creds, init, rejected);
      OneFlightStep(Run(Start(creds), init), a, rejected);
    }
  }

  // ---------------------------------------------------------------- dead credentials

  predicate KeepsPair(m: Manager, a: Action) {
    a.Reconnect? ==> a.creds.access == m.store.access && a.creds.refresh == m.store.refresh
  }

  lemma DeadIsQuiet(m: Manager, forcedFor: Option<string>, now: int, reply: Reply, putOk: bool)
    requires Dead(m)
    ensures Refresh(m, forcedFor, now, reply, putOk).1 == m
  {
  }

  /** A pair the endpoint rejected as unrecoverable is never posted again while the store still
      holds it, whoever asks and in whatever order. */
  lemma {:induction false} RejectedPairIsNotRetried(s: System, actions: seq<Action>)
    requires Dead(s.manager)
    requires forall i :: 0 <= i < |actions| ==> KeepsPair(s.manager, actions[i])
    ensures var s1 := Run(s, actions);
            && s1.manager.posts == s.manager.posts && Dead(s1.manager)
            && s1.manager.store.access == s.manager.store.access && s1.manager.store.refresh == s.manager.store.refresh
  {
    if actions != [] {
      var init, a := actions[..|actions| - 1], actions[|actions| - 1];
      RejectedPairIsNotRetried(s, init);
      var m := Run(s, init).manager;
      assert KeepsPair(s.manager, a);
      match a
      case Ensure(now, reply, putOk) => DeadIsQuiet(m, None, now, reply, putOk);
      case Force(rejected, now, reply, putOk) => DeadIsQuiet(m, Some(rejected), now, reply, putOk);
      case _ =>
    }
  }

  /** The rejection is what makes the pair dead. */
  lemma RejectionKills(m: Manager, forcedFor: Option<string>, now: int, putOk: bool)
    requires Early(m, forcedFor, now).None?
    ensures var (r, m1) := Refresh(m, forcedFor, now, Unrecoverable, putOk);
            r == Reauthenticate && Dead(m1) && m1.store == m.store && |m1.posts| == |m.posts| + 1
  {
  }

  // ---------------------------------------------------------------- the unlocked look

  /** What EnsureFreshToken answers without the mutex to the credentials it read, when the pair
      that is dead by then is m's; None when it goes on to refresh. */
  function Probed(creds: Credentials, m: Manager, now: int): Option<Result> {
    if creds.access == m.deadAccess && creds.refresh == m.deadRefresh then Some(Reauthenticate)
    else if TokenFresh(creds, now) then Some(Ready(creds))
    else None
  }

  /** EnsureFreshToken among other callers: they act between its reading of the store and its
      test of the dead pair (first), and between that and its refresh (second). */
  function Ensured(m: Manager, first: seq<Action>, second: seq<Action>, probed: int, now: int, reply: Reply, putOk: bool): (Result, Manager) {
    if m.store.access == "" && m.store.refresh == "" then (NotAuthenticated, m)
    else
      var m1 := Turns(m, first);
      var answer := Probed(m.store, m1, probed);
      if answer.Some? then (answer.value, m1) else Refresh(Turns(m1, second), None, now, reply, putOk)
  }

  lemma {:induction false} TurnsApart(m: Manager, first: seq<Action>, second: seq<Action>)
    ensures Turns(m, first + second) == Turns(Turns(m, first), second)
  {
    if second == [] {
      EmptyRight(first);
    } else {
      var init, a := second[..|second| - 1], second[|second| - 1];
      TurnsApart(m, first, init);
      assert (first + second)[..|first + second| - 1] == first + init;
    }
  }

  lemma {:induction false} RunIsTurns(s: System, actions: seq<Action>)
    ensures Run(s, actions).manager == Turns(s.manager, actions)
  {
    if actions != [] {
      RunIsTurns(s, actions[..|actions| - 1]);
    }
  }

  /** So a whole call leaves what some sequence of atomic actions leaves, the other callers' among
      them in their order and one more Ensure at most: what holds of every run holds of it. */
  lemma EnsuredIsRun(s: System, first: seq<Action>, second: seq<Action>, probed: int, now: int, reply: Reply, putOk: bool)
    returns (actions: seq<Action>)
    ensures actions == [] || actions == first || actions == first + second + [Ensure(now, reply, putOk)]
    ensures Ensured(s.manager, first, second, probed, now, reply, putOk).1 == Run(s, actions).manager
  {
    var m := s.manager;
    if m.store.access == "" && m.store.refresh == "" {
      actions := [];
    } else if Probed(m.store, Turns(m, first), probed).Some? {
      actions := first;
    } else {
      actions := first + second + [Ensure(now, reply, putOk)];
      TurnsApart(m, first, second);
      assert actions[..|actions| - 1] == first + second;
    }
    RunIsTurns(s, actions);
  }

  // ---------------------------------------------------------------- the manager itself

  class CredStore {
    var creds: Credentials

    constructor (creds: Credentials)
      ensures this.creds == creds
    {
      this.creds := creds;
    }

    method Put(c: Credentials, ok: bool) returns (stored: bool)
      modifies this
      ensures stored == ok && creds == if ok then c else old(creds)
    {
      if ok {
        creds := c;
      }
      return ok;
    }
  }

  class SharedManager {
    const store: CredStore
    var deadAccessToken: string
    var deadRefreshToken: string
    ghost var posts: seq<Post>

    ghost function M(): Manager
      reads this, store
    {
      Manager(store.creds, deadAccessToken, deadRefreshToken, posts)
    }

    constructor (store: CredStore)
      ensures this.store == store && M() == Manager(store.creds, "", "", [])
    {
      this.store := store;
      deadAccessToken, deadRefreshToken, posts := "", "", [];
    }

    /** The unlocked look at credentials read before. */
    method Probe(creds: Credentials, now: int) returns (r: Option<Result>)
      ensures r == Probed(creds, M(), now)
    {
      if creds.access == deadAccessToken && creds.refresh == deadRefreshToken {
        return Some(Reauthenticate);
      }
      if TokenFresh(creds, now) {
        return Some(Ready(creds));
      }
      r := None;
    }

    /** Other callers act, one after the other. */
    method Others(actions: seq<Action>)
      modifies this, store
      ensures M() == Turns(old(M()), actions)
    {
      for i := 0 to |actions|
        invariant M() == Turns(old(M()), actions[..i])
      {
        TakeSnoc(actions, i);
        Other(actions[i]);
      }
      TakeAll(actions, |actions|);
    }

    method Other(a: Action)
      modifies this, store
      ensures M() == Turn(old(M()), a)
    {
      match a
      case Ensure(now, reply, putOk) => var _ := RefreshToken(None, now, reply, putOk);
      case Force(rejected, now, reply, putOk) => var _ := RefreshToken(Some(rejected), now, reply, putOk);
      case Reconnect(creds) => var _ := store.Put(creds, true);
    }

    /** EnsureFreshToken, with whatever others do between its unlocked steps. */
    method EnsureFreshToken(first: seq<Action>, second: seq<Action>, probed: int, now: int, reply: Reply, putOk: bool)
      returns (r: Result)
      modifies this, store
      ensures (r, M()) == Ensured(old(M()), first, second, probed, now, reply, putOk)
    {
      var creds := store.creds;
      if creds.access == "" && creds.refresh == "" {
        return NotAuthenticated;
      }
      Others(first);
      var answer := Probe(creds, probed);
      if answer.Some? {
        return answer.value;
      }
      Others(second);
      r := RefreshToken(None, now, reply, putOk);
    }

    method ForceRefreshToken(rejected: string, now: int, reply: Reply, putOk: bool) returns (r: Result)
      modifies this, store
      ensures (r, M()) == Refresh(old(M()), Some(rejected), now, reply, putOk)
    {
      r := RefreshToken(Some(rejected), now, reply, putOk);
    }

    /** refresh: runs under the manager's mutex from start to end. */
    method RefreshToken(forcedFor: Option<string>, now: int, reply: Reply, putOk: bool) returns (r: Result)
      modifies this, store
      ensures (r, M()) == Refresh(old(M()), forcedFor, now, reply, putOk)
    {
      var creds := store.creds;
      if forcedFor.Some? {
        if forcedFor.value != "" && creds.access != forcedFor.value {
          return Ready(creds);
        }
      } else if TokenFresh(creds, now) {
        return Ready(creds);
      }
      if creds.refresh == "" {
        return NoRefreshToken;
      }
      if creds.access == deadAccessToken && creds.refresh == deadRefreshToken {
        return Reauthenticate;
      }
      deadAccessToken, deadRefreshToken := "", "";
      posts := posts + [Post(creds.access, creds.refresh, forcedFor, reply)];
      match reply
      case Unrecoverable =>
        deadAccessToken, deadRefreshToken := creds.access, creds.refresh;
        return Reauthenticate;
      case Failed =>
        return EndpointError;
      case Token(access, refresh, expiresAt) =>
        var renewed := Credentials(access, if refresh != "" then refresh else creds.refresh, expiresAt);
        var stored := store.Put(renewed, putOk);
        return if stored then Ready(renewed) else PutFailed;
    }
  }
}
