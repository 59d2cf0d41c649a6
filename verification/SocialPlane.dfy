/**
 The durable social plane: guild ranks, friendships, bans and permissions live in the social node's memory, every
 change is written through to a store, and after a restart the store is replayed into an empty memory.
 */
module SocialPlane {
  import opened Geometry

  type Uuid = nat
  type Seconds = s: int | 0 <= s < 0x1_0000_0000

  // ------------------------------------------------------------------------------------------------
  // Messages, memory and store
  // ------------------------------------------------------------------------------------------------

  datatype Delta =
    | GuildJoin(guild: Uuid, user: Uuid, rank: nat)
    | GuildLeave(guild: Uuid, user: Uuid)
    | GuildRank(guild: Uuid, user: Uuid, rank: nat)
    | GuildDisband(guild: Uuid)
    | FriendAdd(user: Uuid, friend: Uuid)
    | FriendRemove(user: Uuid, friend: Uuid)
    | SessionOnly

  /** A ban of zero seconds is for ever. */
  datatype AccountAction =
    | BanFor(user: Uuid, durationS: Seconds, reason: string)
    | Unban(user: Uuid)
    | SetPerm(user: Uuid, flags: nat)

  datatype Packet = Social(delta: Delta) | Account(action: AccountAction)

  /** The deadline is on the clock of the node that keeps it; zero is none. */
  datatype Ban = Ban(until: nat, reason: string)

  datatype Memory = Memory(
    guilds: map<Uuid, map<Uuid, nat>>, friends: map<Uuid, set<Uuid>>, banned: map<Uuid, Ban>, perms: map<Uuid, nat>)

  const EMPTY: Memory := Memory(map[], map[], map[], map[])

  /** An account document: a lifted ban has the deadline -1, and a field may be missing. */
  datatype AccountDoc = AccountDoc(until: Option<int>, reason: string, perms: Option<nat>)

  datatype Store = Store(members: map<(Uuid, Uuid), nat>, friends: set<(Uuid, Uuid)>, accounts: map<Uuid, AccountDoc>)

  const NOTHING: Store := Store(map[], {}, map[])

  function GuildOf(m: Memory, guild: Uuid): map<Uuid, nat> { if guild in m.guilds then m.guilds[guild] else map[] }
  function FriendsOf(m: Memory, user: Uuid): set<Uuid> { if user in m.friends then m.friends[user] else {} }

  /** The relations the memory stands for; an empty guild is no guild. */
  function RankOf(m: Memory, guild: Uuid, user: Uuid): Option<nat> {
    if user in GuildOf(m, guild) then Some(GuildOf(m, guild)[user]) else None
  }

  predicate IsFriend(m: Memory, user: Uuid, friend: Uuid) { friend in FriendsOf(m, user) }

  function BanOf(m: Memory, user: Uuid): Option<Ban> { if user in m.banned then Some(m.banned[user]) else None }

  function PermOf(m: Memory, user: Uuid): Option<nat> { if user in m.perms then Some(m.perms[user]) else None }

  function StoredRank(s: Store, guild: Uuid, user: Uuid): Option<nat> {
    if (guild, user) in s.members then Some(s.members[(guild, user)]) else None
  }

  // ------------------------------------------------------------------------------------------------
  // One message, in memory and in the store
  // ------------------------------------------------------------------------------------------------

  function Remembered(m: Memory, d: Delta): Memory {
    match d
    case GuildJoin(g, u, _) => m.(guilds := m.guilds[g := GuildOf(m, g)[u := 0]])
    case GuildLeave(g, u) => m.(guilds := m.guilds[g := GuildOf(m, g) - {u}])
    case GuildRank(g, u, rank) =>
      var members := GuildOf(m, g);
      m.(guilds := m.guilds[g := if u in members then members[u := rank] else members])
    case GuildDisband(g) => m.(guilds := m.guilds - {g})
    case FriendAdd(u, f) => m.(friends := m.friends[u := FriendsOf(m, u) + {f}])
    case FriendRemove(u, f) => m.(friends := m.friends[u := FriendsOf(m, u) - {f}])
    case SessionOnly => m
  }

  function Deadline(now: nat, durationS: Seconds): nat { if durationS == 0 then 0 else now + durationS * 1000 }

  function Enforced(m: Memory, a: AccountAction, now: nat): Memory {
    match a
    case BanFor(u, secs, reason) => m.(banned := m.banned[u := Ban(Deadline(now, secs), reason)])
    case Unban(u) => m.(banned := m.banned - {u})
    case SetPerm(u, flags) => m.(perms := m.perms[u := flags])
  }

  function Written(s: Store, d: Delta): Store {
    match d
    case GuildJoin(g, u, rank) => s.(members := s.members[(g, u) := rank])
    case GuildRank(g, u, rank) => s.(members := s.members[(g, u) := rank])
    case GuildLeave(g, u) => s.(members := s.members - {(g, u)})
    case GuildDisband(g) => s.(members := map k | k in s.members && k.0 != g :: s.members[k])
    case FriendAdd(u, f) => s.(friends := s.friends + {(u, f)})
    case FriendRemove(u, f) => s.(friends := s.friends - {(u, f)})
    case SessionOnly => s
  }

  function DocOf(s: Store, user: Uuid): AccountDoc {
    if user in s.accounts then s.accounts[user] else AccountDoc(None, "", None)
  }

  function WrittenAccount(s: Store, a: AccountAction, now: nat): Store {
    var doc := DocOf(s, a.user);
    s.(accounts := s.accounts[a.user :=
        match a
        case BanFor(_, secs, reason) => doc.(until := Some(Deadline(now, secs)), reason := reason)
        case Unban(_) => doc.(until := Some(-1), reason := "")
        case SetPerm(_, flags) => doc.(perms := Some(flags))])
  }

  // ------------------------------------------------------------------------------------------------
  // Memory and store agree
  // ------------------------------------------------------------------------------------------------

  ghost predicate SameRanks(m: Memory, s: Store) {
    forall g, u :: RankOf(m, g, u) == StoredRank(s, g, u)
  }

  ghost predicate SameFriends(m: Memory, s: Store) {
    forall u: Uuid, f: Uuid :: IsFriend(m, u, f) <==> (u, f) in s.friends
  }

  /** What a well-behaved client sends: a member joins with the lowest rank, and only members are given a rank. */
  predicate WellFormed(m: Memory, d: Delta) {
    (d.GuildJoin? ==> d.rank == 0) && (d.GuildRank? ==> RankOf(m, d.guild, d.user).Some?)
  }

  lemma RankAfter(m: Memory, d: Delta, g: Uuid, u: Uuid)
    ensures RankOf(Remembered(m, d), g, u) ==
            match d
            case GuildJoin(h, v, _) => if (g, u) == (h, v) then Some(0) else RankOf(m, g, u)
            case GuildLeave(h, v) => if (g, u) == (h, v) then None else RankOf(m, g, u)
            case GuildRank(h, v, rank) =>
              if (g, u) == (h, v) && RankOf(m, g, u).Some? then Some(rank) else RankOf(m, g, u)
            case GuildDisband(h) => if g == h then None else RankOf(m, g, u)
            case _ => RankOf(m, g, u)
  {
  }

  /** A ban runs from now for so many seconds, or for ever; it and the permissions stay until they are changed. */
  lemma AccountAfter(m: Memory, a: AccountAction, now: nat, u: Uuid)
    ensures BanOf(Enforced(m, a, now), u) ==
            match a
            case BanFor(v, secs, reason) =>
              if u == v then Some(Ban(if secs == 0 then 0 else now + 1000 * secs, reason)) else BanOf(m, u)
            case Unban(v) => if u == v then None else BanOf(m, u)
            case SetPerm(_, _) => BanOf(m, u)
    ensures PermOf(Enforced(m, a, now), u) ==
            if a.SetPerm? && a.user == u then Some(a.flags) else PermOf(m, u)
  {
  }

  /** The document says the same: a lifted ban leaves a mark that is no deadline, and the permissions as they were. */
  lemma DocAfter(s: Store, a: AccountAction, now: nat, u: Uuid)
    ensures var was, doc := DocOf(s, u), DocOf(WrittenAccount(s, a, now), u);
            if u != a.user then doc == was
            else
              match a
              case BanFor(_, secs, reason) =>
                doc == AccountDoc(Some(if secs == 0 then 0 else now + 1000 * secs), reason, was.perms)
              case Unban(_) => doc == AccountDoc(Some(-1), "", was.perms)
              case SetPerm(_, flags) => doc == AccountDoc(was.until, was.reason, Some(flags))
  {
  }

  lemma FriendAfter(m: Memory, d: Delta, u: Uuid, f: Uuid)
    ensures IsFriend(Remembered(m, d), u, f) <==>
            match d
            case FriendAdd(v, h) => (u, f) == (v, h) || IsFriend(m, u, f)
            case FriendRemove(v, h) => (u, f) != (v, h) && IsFriend(m, u, f)
            case _ => IsFriend(m, u, f)
  {
  }

  /** A delta keeps memory and store in agreement on the guilds exactly when it is well-formed. */
  lemma RanksAgreeIff(m: Memory, s: Store, d: Delta)
    requires SameRanks(m, s)
    ensures SameRanks(Remembered(m, d), Written(s, d)) <==> WellFormed(m, d)
  {
    forall g, u ensures WellFormed(m, d) ==> RankOf(Remembered(m, d), g, u) == StoredRank(Written(s, d), g, u) {
      RankAfter(m, d, g, u);
      assert RankOf(m, g, u) == StoredRank(s, g, u);
    }
    if (d.GuildJoin? || d.GuildRank?) && !WellFormed(m, d) {
      RankAfter(m, d, d.guild, d.user);
      assert StoredRank(Written(s, d), d.guild, d.user) == Some(d.rank);
    }
  }

  lemma FriendsAgree(m: Memory, s: Store, d: Delta)
    requires SameFriends(m, s)
    ensures SameFriends(Remembered(m, d), Written(s, d))
  {
    forall u: Uuid, f: Uuid ensures IsFriend(Remembered(m, d), u, f) <==> (u, f) in Written(s, d).friends {
      FriendAfter(m, d, u, f);
      assert IsFriend(m, u, f) <==> (u, f) in s.friends;
    }
  }

  /**
   The two clocks: the store's shows `offset` more than the memory's, and a message reaches the store at most
   `lag` milliseconds after it was applied in memory.
   */
  ghost predicate Stamped(offset: int, lag: nat, here: nat, there: nat) {
    offset <= there - here <= offset + lag
  }

  /** The same ban in both, up to the clocks. */
  ghost predicate SameBan(ban: Option<Ban>, doc: AccountDoc, offset: int, lag: nat) {
    match ban
    case None => doc.until.None? || doc.until.value < 0
    case Some(b) =>
      && doc.until.Some? && doc.until.value >= 0 && doc.reason == b.reason
      && (b.until == 0 <==> doc.until.value == 0)
      && (b.until != 0 ==> offset <= doc.until.value - b.until <= offset + lag)
  }

  ghost predicate SameAccounts(m: Memory, s: Store, offset: int, lag: nat) {
    && (forall u :: SameBan(BanOf(m, u), DocOf(s, u), offset, lag))
    && (forall u :: PermOf(m, u) == DocOf(s, u).perms)
  }

  lemma AccountsAgree(m: Memory, s: Store, a: AccountAction, here: nat, there: nat, offset: int, lag: nat)
    requires SameAccounts(m, s, offset, lag) && Stamped(offset, lag, here, there)
    ensures SameAccounts(Enforced(m, a, here), WrittenAccount(s, a, there), offset, lag)
  {
    var n, t := Enforced(m, a, here), WrittenAccount(s, a, there);
    forall u ensures SameBan(BanOf(n, u), DocOf(t, u), offset, lag) && PermOf(n, u) == DocOf(t, u).perms {
      assert SameBan(BanOf(m, u), DocOf(s, u), offset, lag) && PermOf(m, u) == DocOf(s, u).perms;
    }
  }

  // ------------------------------------------------------------------------------------------------
  // Whole histories
  // ------------------------------------------------------------------------------------------------

  /** A message with the time it was applied in memory and the time it was stored. */
  datatype Entry = Entry(packet: Packet, here: nat, there: nat)

  function MemoryAfter(es: seq<Entry>): Memory {
    if es == [] then EMPTY
    else
      var m, e := MemoryAfter(es[..|es| - 1]), es[|es| - 1];
      match e.packet
      case Social(d) => Remembered(m, d)
      case Account(a) => Enforced(m, a, e.here)
  }

  function StoreAfter(es: seq<Entry>): Store {
    if es == [] then NOTHING
    else
      var s, e := StoreAfter(es[..|es| - 1]), es[|es| - 1];
      match e.packet
      case Social(d) => Written(s, d)
      case Account(a) => WrittenAccount(s, a, e.there)
  }

  ghost predicate GoodHistory(es: seq<Entry>, offset: int, lag: nat) {
    es == [] ||
    (var e := es[|es| - 1];
     && GoodHistory(es[..|es| - 1], offset, lag) && Stamped(offset, lag, e.here, e.there)
     && (e.packet.Social? ==> WellFormed(MemoryAfter(es[..|es| - 1]), e.packet.delta)))
  }

  /** Over every history of well-formed messages the store keeps what the memory knows. */
  lemma {:induction false} StoreMirrorsMemory(es: seq<Entry>, offset: int, lag: nat)
    requires GoodHistory(es, offset, lag)
    ensures SameRanks(MemoryAfter(es), StoreAfter(es)) && SameFriends(MemoryAfter(es), StoreAfter(es))
    ensures SameAccounts(MemoryAfter(es), StoreAfter(es), offset, lag)
  {
    if es != [] {
      var was, e := es[..|es| - 1], es[|es| - 1];
      StoreMirrorsMemory(was, offset, lag);
      match e.packet {
        case Social(d) =>
          RanksAgreeIff(MemoryAfter(was), StoreAfter(was), d);
          FriendsAgree(MemoryAfter(was), StoreAfter(was), d);
          DeltaLeavesAccounts(MemoryAfter(was), StoreAfter(was), d, offset, lag);
        case Account(a) =>
          AccountsAgree(MemoryAfter(was), StoreAfter(was), a, e.here, e.there, offset, lag);
          ActionLeavesRelations(MemoryAfter(was), StoreAfter(was), a, e.here, e.there);
      }
    }
  }

  lemma DeltaLeavesAccounts(m: Memory, s: Store, d: Delta, offset: int, lag: nat)
    requires SameAccounts(m, s, offset, lag)
    ensures SameAccounts(Remembered(m, d), Written(s, d), offset, lag)
  {
    var n, t := Remembered(m, d), Written(s, d);
    assert n.banned == m.banned && n.perms == m.perms && t.accounts == s.accounts;
    forall u ensures SameBan(BanOf(n, u), DocOf(t, u), offset, lag) && PermOf(n, u) == DocOf(t, u).perms {
      assert SameBan(BanOf(m, u), DocOf(s, u), offset, lag) && PermOf(m, u) == DocOf(s, u).perms;
    }
  }

  lemma ActionLeavesRelations(m: Memory, s: Store, a: AccountAction, here: nat, there: nat)
    requires SameRanks(m, s) && SameFriends(m, s)
    ensures SameRanks(Enforced(m, a, here), WrittenAccount(s, a, there)) &&
            SameFriends(Enforced(m, a, here), WrittenAccount(s, a, there))
  {
    var n, t := Enforced(m, a, here), WrittenAccount(s, a, there);
    forall g, u ensures RankOf(n, g, u) == StoredRank(t, g, u) {
      assert RankOf(m, g, u) == StoredRank(s, g, u);
    }
    forall u: Uuid, f: Uuid ensures IsFriend(n, u, f) <==> (u, f) in t.friends {
      assert IsFriend(m, u, f) <==> (u, f) in s.friends;
    }
  }

  // ------------------------------------------------------------------------------------------------
  // Replay
  // ------------------------------------------------------------------------------------------------

  /** One record of the restored state; what a store never sends back is not applied. */
  function Replay(m: Memory, p: Packet, now: nat): Memory {
    match p
    case Social(d) => if d.GuildJoin? || d.GuildRank? || d.FriendAdd? then Remembered(m, d) else m
    case Account(a) => if a.Unban? then m else Enforced(m, a, now)
  }

  function Replayed(m: Memory, ps: seq<Packet>, now: nat): Memory {
    if ps == [] then m else Replay(Replayed(m, ps[..|ps| - 1], now), ps[|ps| - 1], now)
  }

  lemma ReplayedAppend(m: Memory, ps: seq<Packet>, p: Packet, now: nat)
    ensures Replayed(m, ps + [p], now) == Replay(Replayed(m, ps, now), p, now)
  {
    assert (ps + [p])[..|ps|] == ps;
  }

  predicate ActiveBan(doc: AccountDoc, now: nat) {
    doc.until.Some? && doc.until.value >= 0 && (doc.until.value == 0 || doc.until.value > now)
  }

  /** What is left of a ban, in whole seconds and one more, narrowed to 32 bits. */
  function SecondsLeft(until: int, now: nat): Seconds
    requires until == 0 || until > now
  {
    if until == 0 then 0 else ((until - now) / 1000 + 1) % 0x1_0000_0000
  }

  function RestoredBan(doc: AccountDoc, asked: nat, now: nat): Option<Ban> {
    if ActiveBan(doc, asked) then Some(Ban(Deadline(now, SecondsLeft(doc.until.value, asked)), doc.reason)) else None
  }

  function RestoredPerm(doc: AccountDoc, asked: nat): Option<nat> {
    if ActiveBan(doc, asked) then None else doc.perms
  }

  /** The memory is the store over again, as of when it was asked and when the answer is applied. */
  ghost predicate Rebuilds(m: Memory, s: Store, asked: nat, now: nat) {
    SameRanks(m, s) && SameFriends(m, s) && AccountsRebuilt(m, s, asked, now)
  }

  // ------------------------------------------------------------------------------------------------
  // The nodes
  // ------------------------------------------------------------------------------------------------

  class SocialNode {
    var guilds: map<Uuid, map<Uuid, nat>>
    var friends: map<Uuid, set<Uuid>>
    var banned: map<Uuid, Ban>
    var perms: map<Uuid, nat>

    ghost function Value(): Memory
      reads this
    {
      Memory(guilds, friends, banned, perms)
    }

    constructor ()
      ensures Value() == EMPTY
    {
      guilds, friends, banned, perms := map[], map[], map[], map[];
    }

    method ApplyDelta(d: Delta)
      modifies `guilds, `friends
      ensures Value() == Remembered(old(Value()), d)
    {
      match d {
        case GuildJoin(g, u, _) =>
          var members := if g in guilds then guilds[g] else map[];
          guilds := guilds[g := members[u := 0]];
        case GuildLeave(g, u) =>
          var members := if g in guilds then guilds[g] else map[];
          guilds := guilds[g := members - {u}];
        case GuildRank(g, u, rank) =>
          var members := if g in guilds then guilds[g] else map[];
          guilds := guilds[g := members];
          if u in members {
            guilds := guilds[g := members[u := rank]];
          }
        case GuildDisband(g) =>
          guilds := guilds - {g};
        case FriendAdd(u, f) =>
          var known := if u in friends then friends[u] else {};
          friends := friends[u := known + {f}];
        case FriendRemove(u, f) =>
          var known := if u in friends then friends[u] else {};
          friends := friends[u := known - {f}];
        case SessionOnly =>
      }
    }

    method HandleAccount(a: AccountAction, now: nat)
      modifies `banned, `perms
      ensures Value() == Enforced(old(Value()), a, now)
    {
      match a {
        case BanFor(u, secs, reason) => banned := banned[u := Ban(if secs != 0 then now + secs * 1000 else 0, reason)];
        case Unban(u) => banned := banned - {u};
        case SetPerm(u, flags) => perms := perms[u := flags];
      }
    }

    /** Merges the restored records into what the node knows. */
    method Restore(ps: seq<Packet>, now: nat)
      modifies this
      ensures Value() == Replayed(old(Value()), ps, now)
    {
      ghost var was := Value();
      var i := 0;
      while i < |ps|
        invariant 0 <= i <= |ps|
        invariant Value() == Replayed(was, ps[..i], now)
      {
        assert ps[..i + 1] == ps[..i] + [ps[i]];
        ReplayedAppend(was, ps[..i], ps[i], now);
        match ps[i] {
          case Social(d) =>
            if d.GuildJoin? || d.GuildRank? || d.FriendAdd? {
              ApplyDelta(d);
            }
          case Account(a) =>
            if !a.Unban? {
              HandleAccount(a, now);
            }
        }
        i := i + 1;
      }
      assert ps[..i] == ps;
    }
  }

  lemma JoinThenRank(m: Memory, g: Uuid, u: Uuid, rank: nat, now: nat) returns (n: Memory)
    ensures n == Replay(Replay(m, Social(GuildJoin(g, u, 0)), now), Social(GuildRank(g, u, rank)), now)
    ensures n.friends == m.friends && n.banned == m.banned && n.perms == m.perms
    ensures forall h: Uuid, v: Uuid :: RankOf(n, h, v) == if (h, v) == (g, u) then Some(rank) else RankOf(m, h, v)
  {
    var mid := Remembered(m, GuildJoin(g, u, 0));
    n := Remembered(mid, GuildRank(g, u, rank));
    forall h: Uuid, v: Uuid ensures RankOf(n, h, v) == if (h, v) == (g, u) then Some(rank) else RankOf(m, h, v) {
      RankAfter(m, GuildJoin(g, u, 0), h, v);
      RankAfter(mid, GuildRank(g, u, rank), h, v);
    }
  }

  class PersistenceNode {
    var members: map<(Uuid, Uuid), nat>
    var friends: set<(Uuid, Uuid)>
    var accounts: map<Uuid, AccountDoc>

    ghost function Value(): Store
      reads this
    {
      Store(members, friends, accounts)
    }

    constructor ()
      ensures Value() == NOTHING
    {
      members, friends, accounts := map[], {}, map[];
    }

    method StoreSocial(d: Delta)
      modifies `members, `friends
      ensures Value() == Written(old(Value()), d)
    {
      match d {
        case GuildJoin(g, u, rank) => members := members[(g, u) := rank];
        case GuildRank(g, u, rank) => members := members[(g, u) := rank];
        case GuildLeave(g, u) => members := members - {(g, u)};
        case GuildDisband(g) => members := map k | k in members && k.0 != g :: members[k];
        case FriendAdd(u, f) => friends := friends + {(u, f)};
        case FriendRemove(u, f) => friends := friends - {(u, f)};
        case SessionOnly =>
      }
    }

    method StoreAccount(a: AccountAction, now: nat)
      modifies `accounts
      ensures Value() == WrittenAccount(old(Value()), a, now)
    {
      var doc := if a.user in accounts then accounts[a.user] else AccountDoc(None, "", None);
      match a {
        case Unban(_) => doc := doc.(until := Some(-1), reason := "");
        case BanFor(_, secs, reason) =>
          doc := doc.(until := Some(if secs != 0 then now + secs * 1000 else 0), reason := reason);
        case SetPerm(_, flags) => doc := doc.(perms := Some(flags));
      }
      accounts := accounts[a.user := doc];
    }

    /** A join and a rank for every member document, in whatever order the documents come. */
    method ListMembers(cap: nat, ghost now: nat) returns (out: seq<Packet>)
      ensures |out| <= cap
      ensures SameRanks(Replayed(EMPTY, out, now), Value()) <==> 2 * |members| <= cap
      ensures 2 * |members| <= cap ==> |out| == 2 * |members|
      ensures 2 * |members| >= cap ==> |out| >= cap - 1 && |out| % 2 == 0
      ensures var m := Replayed(EMPTY, out, now); m.friends == map[] && m.banned == map[] && m.perms == map[]
    {
      var todo := members.Keys;
      out := [];
      while todo != {} && |out| + 2 <= cap
        invariant todo <= members.Keys && |out| == 2 * (|members| - |todo|) && |out| <= cap
        invariant var m := Replayed(EMPTY, out, now); m.friends == map[] && m.banned == map[] && m.perms == map[]
        invariant forall g: Uuid, u: Uuid ::
                    RankOf(Replayed(EMPTY, out, now), g, u) ==
                    if (g, u) in todo then None else StoredRank(Value(), g, u)
        decreases |todo|
      {
        var k :| k in todo;
        var join, rank := Social(GuildJoin(k.0, k.1, 0)), Social(GuildRank(k.0, k.1, members[k]));
        ReplayedAppend(EMPTY, out, join, now);
        ReplayedAppend(EMPTY, out + [join], rank, now);
        var _ := JoinThenRank(Replayed(EMPTY, out, now), k.0, k.1, members[k], now);
        out := out + [join] + [rank];
        todo := todo - {k};
      }
      if todo != {} {
        ghost var k :| k in todo;
        assert RankOf(Replayed(EMPTY, out, now), k.0, k.1) != StoredRank(Value(), k.0, k.1);
        assert |todo| >= 1;
      }
    }

    method ListFriends(cap: nat, sent: seq<Packet>, ghost now: nat) returns (out: seq<Packet>)
      requires |sent| <= cap && Replayed(EMPTY, sent, now).friends == map[]
      ensures |out| == if |sent| + |friends| <= cap then |sent| + |friends| else cap
      ensures SameFriends(Replayed(EMPTY, out, now), Value()) <==> |sent| + |friends| <= cap
      ensures Replayed(EMPTY, out, now).(friends := map[]) == Replayed(EMPTY, sent, now)
    {
      var todo := friends;
      out := sent;
      while todo != {} && |out| + 1 <= cap
        invariant todo <= friends && |out| == |sent| + |friends| - |todo| && |out| <= cap
        invariant Replayed(EMPTY, out, now).(friends := map[]) == Replayed(EMPTY, sent, now)
        invariant forall u: Uuid, f: Uuid ::
                    IsFriend(Replayed(EMPTY, out, now), u, f) <==> (u, f) in friends && (u, f) !in todo
        decreases |todo|
      {
        var k :| k in todo;
        var add := FriendAdd(k.0, k.1);
        ReplayedAppend(EMPTY, out, Social(add), now);
        ghost var was := Replayed(EMPTY, out, now);
        forall u: Uuid, f: Uuid ensures IsFriend(Remembered(was, add), u, f) <==> (u, f) == k || IsFriend(was, u, f) {
          FriendAfter(was, add, u, f);
        }
        out := out + [Social(add)];
        todo := todo - {k};
      }
      if todo != {} {
        ghost var k :| k in todo;
        assert !IsFriend(Replayed(EMPTY, out, now), k.0, k.1) && (k.0, k.1) in friends;
        assert |todo| >= 1;
      }
    }

    /** The accounts about which there is something to send. */
    ghost function Speaking(asked: nat): set<Uuid>
      reads this
    {
      set u | u in accounts && Speaks(accounts[u], asked)
    }

    /** The ban of an account if it is active, or else its permissions, or nothing. */
    method SendAccount(u: Uuid, sent: seq<Packet>, asked: nat, ghost now: nat, ghost todo: set<Uuid>)
      returns (out: seq<Packet>)
      requires u in accounts && u in todo && RebuiltBut(Replayed(EMPTY, sent, now), Value(), asked, now, todo)
      ensures |out| == |sent| + if Speaks(accounts[u], asked) then 1 else 0
      ensures var m, n := Replayed(EMPTY, sent, now), Replayed(EMPTY, out, now);
              && n.(banned := map[], perms := map[]) == m.(banned := map[], perms := map[])
              && RebuiltBut(n, Value(), asked, now, todo - {u})
    {
      var doc := accounts[u];
      ghost var was := Replayed(EMPTY, sent, now);
      out := sent;
      if ActiveBan(doc, asked) {
        var p := Account(BanFor(u, SecondsLeft(doc.until.value, asked), doc.reason));
        ReplayedAppend(EMPTY, out, p, now);
        out := out + [p];
        BanRebuilt(was, Value(), asked, now, todo, u);
      } else if doc.perms.Some? {
        var p := Account(SetPerm(u, doc.perms.value));
        ReplayedAppend(EMPTY, out, p, now);
        out := out + [p];
        PermRebuilt(was, Value(), asked, now, todo, u);
      } else {
        SilentRebuilt(was, Value(), asked, now, todo, u);
      }
    }

    /** So for every account, as long as there is room. */
    method ListAccounts(cap: nat, sent: seq<Packet>, asked: nat, ghost now: nat) returns (out: seq<Packet>)
      requires |sent| <= cap && Replayed(EMPTY, sent, now).banned == map[] && Replayed(EMPTY, sent, now).perms == map[]
      ensures |out| <= cap && (|sent| >= cap ==> out == sent)
      ensures Replayed(EMPTY, out, now).(banned := map[], perms := map[]) == Replayed(EMPTY, sent, now)
      ensures AccountsRebuilt(Replayed(EMPTY, out, now), Value(), asked, now) <==> |sent| + |Speaking(asked)| <= cap
    {
      var todo := accounts.Keys;
      out := sent;
      ghost var left := Speaking(asked);
      while todo != {} && |out| + 1 <= cap
        invariant todo <= accounts.Keys && |out| <= cap && (|sent| >= cap ==> out == sent)
        invariant left == Speaking(asked) * todo && |out| + |left| == |sent| + |Speaking(asked)|
        invariant Replayed(EMPTY, out, now).(banned := map[], perms := map[]) == Replayed(EMPTY, sent, now)
        invariant RebuiltBut(Replayed(EMPTY, out, now), Value(), asked, now, todo)
        decreases |todo|
      {
        var u :| u in todo;
        out := SendAccount(u, out, asked, now, todo);
        left := left - {u};
        todo := todo - {u};
      }
      LeftOver(Replayed(EMPTY, out, now), Value(), asked, now, todo, left);
    }

    /**
     The whole durable plane as the records that rebuild it, at most `cap` of them. Replaying them rebuilds the store's
     state exactly if the cap is enough for two records a member and one a friendship and a speaking account. Bans
     come last: when members and friends use up the cap, none is sent.
     */
    method AnswerSocialQuery(cap: nat, asked: nat, ghost now: nat) returns (out: seq<Packet>)
      ensures |out| <= cap
      ensures Rebuilds(Replayed(EMPTY, out, now), Value(), asked, now) <==>
              2 * |members| + |friends| + |Speaking(asked)| <= cap
      ensures 2 * |members| + |friends| >= cap && (cap % 2 == 0 || friends != {}) ==>
                forall u :: BanOf(Replayed(EMPTY, out, now), u).None? && PermOf(Replayed(EMPTY, out, now), u).None?
    {
      var first := ListMembers(cap, now);
      assert friends != {} ==> |friends| >= 1;
      var second := ListFriends(cap, first, now);
      out := ListAccounts(cap, second, asked, now);
      SameRelations(Replayed(EMPTY, first, now), Replayed(EMPTY, second, now), Replayed(EMPTY, out, now), Value());
    }
  }

  predicate Speaks(doc: AccountDoc, asked: nat) { ActiveBan(doc, asked) || doc.perms.Some? }

  ghost predicate AccountRebuilt(m: Memory, s: Store, asked: nat, now: nat, u: Uuid) {
    BanOf(m, u) == RestoredBan(DocOf(s, u), asked, now) && PermOf(m, u) == RestoredPerm(DocOf(s, u), asked)
  }

  ghost predicate AccountsRebuilt(m: Memory, s: Store, asked: nat, now: nat) {
    forall u :: AccountRebuilt(m, s, asked, now, u)
  }

  /** Every account is rebuilt but those still to do, of which nothing is known. */
  ghost predicate RebuiltBut(m: Memory, s: Store, asked: nat, now: nat, todo: set<Uuid>) {
    && (forall u :: u !in todo ==> AccountRebuilt(m, s, asked, now, u))
    && (forall u :: u in todo ==> BanOf(m, u).None? && PermOf(m, u).None?)
  }

  lemma BanRebuilt(m: Memory, s: Store, asked: nat, now: nat, todo: set<Uuid>, u: Uuid)
    requires RebuiltBut(m, s, asked, now, todo) && u in todo && u in s.accounts && ActiveBan(s.accounts[u], asked)
    ensures var doc := s.accounts[u];
            var n := Enforced(m, BanFor(u, SecondsLeft(doc.until.value, asked), doc.reason), now);
            && n.(banned := map[], perms := map[]) == m.(banned := map[], perms := map[])
            && RebuiltBut(n, s, asked, now, todo - {u})
  {
    var doc := s.accounts[u];
    var n := Enforced(m, BanFor(u, SecondsLeft(doc.until.value, asked), doc.reason), now);
    forall v | v !in todo - {u} ensures AccountRebuilt(n, s, asked, now, v) {
      assert v != u ==> AccountRebuilt(m, s, asked, now, v);
    }
  }

  lemma PermRebuilt(m: Memory, s: Store, asked: nat, now: nat, todo: set<Uuid>, u: Uuid)
    requires RebuiltBut(m, s, asked, now, todo) && u in todo && u in s.accounts
    requires !ActiveBan(s.accounts[u], asked) && s.accounts[u].perms.Some?
    ensures var n := Enforced(m, SetPerm(u, s.accounts[u].perms.value), now);
            && n.(banned := map[], perms := map[]) == m.(banned := map[], perms := map[])
            && RebuiltBut(n, s, asked, now, todo - {u})
  {
    var n := Enforced(m, SetPerm(u, s.accounts[u].perms.value), now);
    forall v | v !in todo - {u} ensures AccountRebuilt(n, s, asked, now, v) {
      assert v != u ==> AccountRebuilt(m, s, asked, now, v);
    }
  }

  lemma SilentRebuilt(m: Memory, s: Store, asked: nat, now: nat, todo: set<Uuid>, u: Uuid)
    requires RebuiltBut(m, s, asked, now, todo) && u in todo && u in s.accounts && !Speaks(s.accounts[u], asked)
    ensures RebuiltBut(m, s, asked, now, todo - {u})
  {
    assert AccountRebuilt(m, s, asked, now, u);
  }

  /** What is left to do matters exactly if there was something to send about one of them. */
  lemma LeftOver(m: Memory, s: Store, asked: nat, now: nat, todo: set<Uuid>, left: set<Uuid>)
    requires RebuiltBut(m, s, asked, now, todo) && todo <= s.accounts.Keys
    requires forall u :: u in left <==> u in todo && Speaks(s.accounts[u], asked)
    ensures AccountsRebuilt(m, s, asked, now) <==> left == {}
    ensures left == {} <==> |left| == 0
  {
    if left == {} {
      forall u ensures AccountRebuilt(m, s, asked, now, u) {
        if u in todo {
          assert u !in left;
        }
      }
    } else {
      assert (forall u: Uuid :: u !in left) ==> left == {};
      var u :| u in left;
      assert !AccountRebuilt(m, s, asked, now, u);
    }
  }

  /** The later lists leave the relations of the earlier ones alone. */
  lemma SameRelations(a: Memory, b: Memory, c: Memory, s: Store)
    requires b.(friends := map[]) == a && c.(banned := map[], perms := map[]) == b
    ensures SameRanks(c, s) <==> SameRanks(a, s)
    ensures SameFriends(c, s) <==> SameFriends(b, s)
  {
    assert forall g: Uuid, u: Uuid :: RankOf(c, g, u) == RankOf(a, g, u);
    assert forall u: Uuid, f: Uuid :: IsFriend(c, u, f) == IsFriend(b, u, f);
  }

  /** A restart: a fresh node asks for the stored plane and merges the answer. */
  method Restart(store: PersistenceNode, cap: nat, asked: nat, now: nat) returns (node: SocialNode)
    ensures fresh(node)
    ensures Rebuilds(node.Value(), store.Value(), asked, now) <==>
            2 * |store.members| + |store.friends| + |store.Speaking(asked)| <= cap
    ensures 2 * |store.members| + |store.friends| >= cap && (cap % 2 == 0 || store.friends != {}) ==>
              forall u :: BanOf(node.Value(), u).None? && PermOf(node.Value(), u).None?
  {
    var ps := store.AnswerSocialQuery(cap, asked, now);
    node := new SocialNode();
    node.Restore(ps, now);
  }

  const SOCIAL_HARD_CAP: nat := 8192

  /** A world with 4096 guild members forgets its one permanent ban when the social node restarts. */
  method FullGuildLosesBan(banned: Uuid, asked: nat, now: nat) returns (store: PersistenceNode, node: SocialNode)
    ensures RestoredBan(DocOf(store.Value(), banned), asked, now) == Some(Ban(0, "cheating"))
    ensures BanOf(node.Value(), banned).None? && !Rebuilds(node.Value(), store.Value(), asked, now)
  {
    store := new PersistenceNode();
    for i := 0 to 4096
      invariant fresh(store) && store.friends == {} && store.accounts == map[]
      invariant |store.members| == i && forall k :: k in store.members ==> k.1 < i
    {
      store.StoreSocial(GuildJoin(1, i, 0));
    }
    store.StoreAccount(BanFor(banned, 0, "cheating"), asked);
    node := Restart(store, SOCIAL_HARD_CAP, asked, now);
    assert !AccountRebuilt(node.Value(), store.Value(), asked, now, banned);
  }

  // ------------------------------------------------------------------------------------------------
  // What a restart restores
  // ------------------------------------------------------------------------------------------------

  /**
   A timed ban that is still running in the store comes back as a timed ban exactly when its remaining seconds fit
   32 bits; otherwise it comes back as a ban for ever. The new deadline is after the stored one, by at most a second
   and the time the answer took.
   */
  lemma RestoredDeadline(until: int, asked: nat, now: nat, offset: int, delay: nat)
    requires until > asked && asked <= now + offset <= asked + delay
    ensures Deadline(now, SecondsLeft(until, asked)) == 0 <==> ((until - asked) / 1000 + 1) % 0x1_0000_0000 == 0
    ensures (until - asked) / 1000 + 1 < 0x1_0000_0000 ==>
            until < Deadline(now, SecondsLeft(until, asked)) + offset <= until + 1000 + delay
  {
  }

  /**
   For a ban stored earlier that is the case unless it had the longest possible term and is asked for in the very same
   millisecond.
   */
  lemma TermFitsUnlessLongest(secs: Seconds, stored: nat, asked: nat)
    requires secs != 0 && stored <= asked < Deadline(stored, secs)
    ensures SecondsLeft(Deadline(stored, secs), asked) == 0 <==> secs == 0xFFFF_FFFF && asked == stored
    ensures SecondsLeft(Deadline(stored, secs), asked) != 0 ==>
            (Deadline(stored, secs) - asked) / 1000 + 1 < 0x1_0000_0000
  {
    var left := Deadline(stored, secs) - asked;
    assert 0 < left <= secs * 1000;
    assert left / 1000 <= secs;
    if left / 1000 == 0xFFFF_FFFF {
      assert left == 0xFFFF_FFFF * 1000;
    }
  }

  /** The ban `n` after the restart stands for the ban `b` before it; deadlines are compared on the store's clock. */
  ghost predicate Continues(b: Ban, n: Ban, offset: int, newOffset: int, slack: nat) {
    && n.reason == b.reason && (b.until == 0 <==> n.until == 0)
    && (b.until != 0 ==> 0 < (n.until + newOffset) - (b.until + offset) <= 1000 + slack)
  }

  /**
   What becomes of a ban: one that is still active at the time of asking goes on, one that has run out does not come
   back, and in between, while the store's deadline lags behind, it may do either.
   */
  ghost predicate BanCarried(
    before: Option<Ban>, after: Option<Ban>, asked: nat, offset: int, lag: nat, newOffset: int, delay: nat)
  {
    match before
    case None => after.None?
    case Some(b) =>
      && (b.until == 0 || b.until + offset > asked ==> after.Some?)
      && (b.until != 0 && b.until + offset + lag <= asked ==> after.None?)
      && (after.Some? ==> Continues(b, after.value, offset, newOffset, lag + delay))
  }

  lemma BanSurvives(
    ban: Option<Ban>, doc: AccountDoc, asked: nat, now: nat, offset: int, lag: nat, newOffset: int, delay: nat)
    requires SameBan(ban, doc, offset, lag) && asked <= now + newOffset <= asked + delay && Fits(doc, asked)
    ensures BanCarried(ban, RestoredBan(doc, asked, now), asked, offset, lag, newOffset, delay)
  {
    if ActiveBan(doc, asked) && doc.until.value != 0 {
      RestoredDeadline(doc.until.value, asked, now, newOffset, delay);
    }
  }

  ghost predicate Fits(doc: AccountDoc, asked: nat) {
    doc.until.Some? ==> doc.until.value - asked < 0xFFFF_FFFF * 1000
  }

  /** The question comes after the messages, and not in the same millisecond as a ban of the longest possible term. */
  ghost predicate AskedAfter(es: seq<Entry>, asked: nat) {
    forall i :: 0 <= i < |es| ==>
      && es[i].there <= asked
      && (es[i].there == asked && es[i].packet.Account? && es[i].packet.action.BanFor? ==>
         es[i].packet.action.durationS != 0xFFFF_FFFF)
  }

  lemma {:induction false} TermsFit(es: seq<Entry>, asked: nat, u: Uuid)
    requires AskedAfter(es, asked)
    ensures Fits(DocOf(StoreAfter(es), u), asked)
  {
    if es != [] {
      TermsFit(es[..|es| - 1], asked, u);
    }
  }

  /**
   The social plane survives a restart. For every history of well-formed messages, a memory rebuilt from the store
   has the same guild members with the same ranks, the same friendships, every ban that is still active, with its
   reason, ending no earlier and at most a second and the message delays later, no ban that was lifted or has run
   out, and the permissions of every account that is not under an active ban.
   */
  lemma RestartRestores(
    es: seq<Entry>, rebuilt: Memory, asked: nat, now: nat, offset: int, lag: nat, newOffset: int, delay: nat)
    requires GoodHistory(es, offset, lag) && AskedAfter(es, asked) && asked <= now + newOffset <= asked + delay
    requires Rebuilds(rebuilt, StoreAfter(es), asked, now)
    ensures var before := MemoryAfter(es);
            && (forall g, u :: RankOf(rebuilt, g, u) == RankOf(before, g, u))
            && (forall u, f :: IsFriend(rebuilt, u, f) <==> IsFriend(before, u, f))
            && (forall u :: BanCarried(BanOf(before, u), BanOf(rebuilt, u), asked, offset, lag, newOffset, delay))
            && (forall u :: PermOf(rebuilt, u) == if BanOf(rebuilt, u).Some? then None else PermOf(before, u))
  {
    StoreMirrorsMemory(es, offset, lag);
    var before, s := MemoryAfter(es), StoreAfter(es);
    forall u ensures BanCarried(BanOf(before, u), BanOf(rebuilt, u), asked, offset, lag, newOffset, delay) {
      TermsFit(es, asked, u);
      assert AccountRebuilt(rebuilt, s, asked, now, u);
      BanSurvives(BanOf(before, u), DocOf(s, u), asked, now, offset, lag, newOffset, delay);
    }
    forall u ensures PermOf(rebuilt, u) == if BanOf(rebuilt, u).Some? then None else PermOf(before, u) {
      assert AccountRebuilt(rebuilt, s, asked, now, u);
    }
    forall g, u ensures RankOf(rebuilt, g, u) == RankOf(before, g, u) {
      assert RankOf(before, g, u) == StoredRank(s, g, u);
    }
    forall u: Uuid, f: Uuid ensures IsFriend(rebuilt, u, f) <==> IsFriend(before, u, f) {
      assert IsFriend(before, u, f) <==> (u, f) in s.friends;
    }
  }
}
