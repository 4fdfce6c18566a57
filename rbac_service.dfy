/**
 * RBACProvider (backend/src/common/utils/rbac.ts) as an object over the datastore and the
 * RBAC cache: the cache-aside lookups, the access checks that fetch their facts through
 * them, and the invalidation entry points.
 *
 * The datastore is a value of the tables the provider queries; the provider only reads it.
 * The cache is the shared RbacCache.Cache object, which the provider mutates.
 */
module RbacService {
  import opened Wrappers
  import opened Ids
  import opened Roles
  import opened Permissions
  import opened RbacTables
  import opened RbacPolicy
  import RbacCache

  /** The board columns getBoardInfo selects; the joined workspace is taken to exist. */
  datatype BoardRow = BoardRow(visibility: BoardVisibility, isClosed: bool, workspaceId: Id)

  /**
   * The rows the provider reads. Memberships are keyed by (userId, workspaceId) and
   * (userId, boardId), which the unique constraints of the member tables make functional;
   * a list or card appears in listBoards or cardBoards only when it has a board.
   */
  datatype Datastore = Datastore(
    workspaces: map<Id, WorkspaceRow>,
    boards: map<Id, BoardRow>,
    workspaceMembers: map<(Id, Id), Role>,
    boardMembers: map<(Id, Id), Role>,
    listBoards: map<Id, Id>,
    cardBoards: map<Id, Id>)

  /** The values the provider writes into the cache; a membership keeps only its role. */
  datatype Cached = MembershipEntry(role: Role) | BoardInfoEntry(info: BoardInfo) | BoardIdEntry(boardId: Id)

  /** A query for one row: findOne / getOne. */
  function Find<K, V>(m: map<K, V>, k: K): (r: Option<V>)
    ensures r.Some? <==> k in m
    ensures r.Some? ==> r.value == m[k]
  {
    if k in m then Some(m[k]) else None
  }

  /** The board info the datastore yields for a board id. */
  function InfoOf(db: Datastore, boardId: Id): (r: Option<BoardInfo>)
    ensures r.Some? <==> boardId in db.boards
    ensures r.Some? ==> r.value.id == boardId && r.value.workspaceId == db.boards[boardId].workspaceId
    ensures r.Some? ==> r.value.visibility == db.boards[boardId].visibility && r.value.isClosed == db.boards[boardId].isClosed
  {
    if boardId in db.boards then
      var row := db.boards[boardId];
      Some(BoardInfo(boardId, row.visibility, row.isClosed, row.workspaceId))
    else None
  }

  /** What a cache hit holds, read as a role, a board info or a board id; any other value is a miss. */
  function AsRole(c: Option<Cached>): Option<Role>
  {
    if c.Some? && c.value.MembershipEntry? then Some(c.value.role) else None
  }

  function AsBoardInfo(c: Option<Cached>): Option<BoardInfo>
  {
    if c.Some? && c.value.BoardInfoEntry? then Some(c.value.info) else None
  }

  function AsBoardId(c: Option<Cached>): Option<Id>
  {
    if c.Some? && c.value.BoardIdEntry? then Some(c.value.boardId) else None
  }

  /** The value the datastore justifies at a key; workspace_info entries are never read by the provider. */
  predicate Agrees(db: Datastore, k: RbacCache.CacheKey, c: Cached)
  {
    match k
    case WsMember(u, w) => (u, w) in db.workspaceMembers && c == MembershipEntry(db.workspaceMembers[(u, w)])
    case BoardMember(u, b) => (u, b) in db.boardMembers && c == MembershipEntry(db.boardMembers[(u, b)])
    case BoardInfo(b) => InfoOf(db, b).Some? && c == BoardInfoEntry(InfoOf(db, b).value)
    case WorkspaceInfo(_) => true
    case ListBoard(l) => l in db.listBoards && c == BoardIdEntry(db.listBoards[l])
    case CardBoard(cd) => cd in db.cardBoards && c == BoardIdEntry(db.cardBoards[cd])
  }

  /** Every entry the provider may read that is still live at now agrees with the datastore. */
  ghost predicate Coherent(store: map<string, RbacCache.Entry<Cached>>, db: Datastore, now: nat)
  {
    forall k :: RbacCache.KeyOf(k) in store && now < store[RbacCache.KeyOf(k)].expiresAt ==>
      Agrees(db, k, store[RbacCache.KeyOf(k)].value)
  }

  /** Writing a value the datastore justifies keeps the cache coherent. */
  lemma WriteKeepsCoherent(store: map<string, RbacCache.Entry<Cached>>, db: Datastore, now: nat, up: bool,
                           k: RbacCache.CacheKey, c: Cached, ttl: nat)
    requires Coherent(store, db, now) && Agrees(db, k, c)
    ensures Coherent(RbacCache.Written(store, up, RbacCache.KeyOf(k), c, ttl, now), db, now)
  {
    var store' := RbacCache.Written(store, up, RbacCache.KeyOf(k), c, ttl, now);
    forall k' | RbacCache.KeyOf(k') in store' && now < store'[RbacCache.KeyOf(k')].expiresAt
      ensures Agrees(db, k', store'[RbacCache.KeyOf(k')].value)
    {
      RbacCache.KeyOfInjective(k', k);
    }
  }

  /** Removing entries keeps the cache coherent. */
  lemma RemovalKeepsCoherent(store: map<string, RbacCache.Entry<Cached>>, store': map<string, RbacCache.Entry<Cached>>,
                             db: Datastore, now: nat)
    requires Coherent(store, db, now)
    requires forall key :: key in store' ==> key in store && store'[key] == store[key]
    ensures Coherent(store', db, now)
  {
  }

  /** Entries only expire as time passes, so coherence lasts. */
  lemma CoherenceLasts(store: map<string, RbacCache.Entry<Cached>>, db: Datastore, now: nat, later: nat)
    requires Coherent(store, db, now) && now <= later
    ensures Coherent(store, db, later)
  {
  }

  /**
   * A membership change in the datastore, followed by clearWorkspaceMembershipCache and
   * clearBoardMembershipCache for that user and resource (clearCache(u, r)), leaves the
   * cache coherent with the new datastore.
   */
  lemma MembershipChangeThenClear(store: map<string, RbacCache.Entry<Cached>>, db: Datastore, db': Datastore,
                                  now: nat, u: Id, r: Id)
    requires Coherent(store, db, now)
    requires db'.boards == db.boards && db'.listBoards == db.listBoards && db'.cardBoards == db.cardBoards
    requires forall key :: key != (u, r) ==> Find(db'.workspaceMembers, key) == Find(db.workspaceMembers, key)
    requires forall key :: key != (u, r) ==> Find(db'.boardMembers, key) == Find(db.boardMembers, key)
    ensures Coherent(store - {RbacCache.KeyOf(RbacCache.WsMember(u, r))} - {RbacCache.KeyOf(RbacCache.BoardMember(u, r))}, db', now)
  {
    var store' := store - {RbacCache.KeyOf(RbacCache.WsMember(u, r))} - {RbacCache.KeyOf(RbacCache.BoardMember(u, r))};
    forall k | RbacCache.KeyOf(k) in store' && now < store'[RbacCache.KeyOf(k)].expiresAt
      ensures Agrees(db', k, store'[RbacCache.KeyOf(k)].value)
    {
      RbacCache.KeyOfInjective(k, RbacCache.WsMember(u, r));
      RbacCache.KeyOfInjective(k, RbacCache.BoardMember(u, r));
      assert Agrees(db, k, store[RbacCache.KeyOf(k)].value);
      match k
      case WsMember(u', w) =>
        assert Find(db'.workspaceMembers, (u', w)) == Find(db.workspaceMembers, (u', w));
      case BoardMember(u', b) =>
        assert Find(db'.boardMembers, (u', b)) == Find(db.boardMembers, (u', b));
      case _ =>
    }
  }

  /**
   * A change to one board's row, followed by clearBoardCache, leaves the cache coherent
   * with the new datastore.
   */
  lemma BoardChangeThenClear(store: map<string, RbacCache.Entry<Cached>>, db: Datastore, db': Datastore,
                             now: nat, b: Id)
    requires Coherent(store, db, now)
    requires db'.workspaceMembers == db.workspaceMembers && db'.boardMembers == db.boardMembers
    requires db'.listBoards == db.listBoards && db'.cardBoards == db.cardBoards
    requires forall key :: key != b ==> Find(db'.boards, key) == Find(db.boards, key)
    ensures Coherent(RbacCache.Without(store - {RbacCache.KeyOf(RbacCache.BoardInfo(b))},
                                       RbacCache.Prefix + RbacCache.BoardMemberPattern(b)), db', now)
  {
    var store' := RbacCache.Without(store - {RbacCache.KeyOf(RbacCache.BoardInfo(b))},
                                    RbacCache.Prefix + RbacCache.BoardMemberPattern(b));
    forall k | RbacCache.KeyOf(k) in store' && now < store'[RbacCache.KeyOf(k)].expiresAt
      ensures Agrees(db', k, store'[RbacCache.KeyOf(k)].value)
    {
      RbacCache.KeyOfInjective(k, RbacCache.BoardInfo(b));
      assert Agrees(db, k, store[RbacCache.KeyOf(k)].value);
      match k
      case BoardInfo(b') =>
        assert Find(db'.boards, b') == Find(db.boards, b');
      case _ =>
    }
  }

  /**
   * Without an invalidation a removed membership stays visible: a coherent cache holding
   * a live ws_member entry is no longer coherent once the datastore drops that membership.
   */
  lemma RemovedMembershipIsStale(store: map<string, RbacCache.Entry<Cached>>, db: Datastore, now: nat, u: Id, w: Id)
    requires Coherent(store, db, now)
    requires RbacCache.KeyOf(RbacCache.WsMember(u, w)) in store
    requires now < store[RbacCache.KeyOf(RbacCache.WsMember(u, w))].expiresAt
    ensures (u, w) in db.workspaceMembers
    ensures !Coherent(store, db.(workspaceMembers := db.workspaceMembers - {(u, w)}), now)
  {
    var k := RbacCache.WsMember(u, w);
    assert Agrees(db, k, store[RbacCache.KeyOf(k)].value);
    assert !Agrees(db.(workspaceMembers := db.workspaceMembers - {(u, w)}), k, store[RbacCache.KeyOf(k)].value);
  }

  /** The workspace role the datastore gives a caller, if any. */
  function WorkspaceRoleOf(db: Datastore, user: Option<Id>, workspaceId: Id): (r: Option<Role>)
    ensures r.Some? <==> user.Some? && (user.value, workspaceId) in db.workspaceMembers
  {
    if user.Some? then Find(db.workspaceMembers, (user.value, workspaceId)) else None
  }

  /** The board role the datastore gives a caller, if any. */
  function BoardRoleOf(db: Datastore, user: Option<Id>, boardId: Id): (r: Option<Role>)
    ensures r.Some? <==> user.Some? && (user.value, boardId) in db.boardMembers
  {
    if user.Some? then Find(db.boardMembers, (user.value, boardId)) else None
  }

  /** The workspace role a caller holds in the workspace of a board that exists. */
  function BoardWorkspaceRoleOf(db: Datastore, user: Option<Id>, boardId: Id): (r: Option<Role>)
    ensures r.Some? ==> boardId in db.boards
  {
    if boardId in db.boards then WorkspaceRoleOf(db, user, db.boards[boardId].workspaceId) else None
  }

  /** The kind of value the provider caches under a key; an entry of another kind there reads as a miss. */
  predicate Fits(k: RbacCache.CacheKey, c: Cached)
  {
    match k
    case WsMember(_, _) => c.MembershipEntry?
    case BoardMember(_, _) => c.MembershipEntry?
    case BoardInfo(_) => c.BoardInfoEntry?
    case WorkspaceInfo(_) => false
    case ListBoard(_) => c.BoardIdEntry?
    case CardBoard(_) => c.BoardIdEntry?
  }

  /** The datastore's answer for a key, in the form the provider caches it: for every key the
      provider reads, the one value the datastore justifies there, if any. */
  function Stored(db: Datastore, k: RbacCache.CacheKey): (c: Option<Cached>)
    ensures c.Some? ==> Agrees(db, k, c.value) && Fits(k, c.value)
    ensures !k.WorkspaceInfo? ==> forall v :: Agrees(db, k, v) ==> c == Some(v)
  {
    match k
    case WsMember(u, w) => if (u, w) in db.workspaceMembers then Some(MembershipEntry(db.workspaceMembers[(u, w)])) else None
    case BoardMember(u, b) => if (u, b) in db.boardMembers then Some(MembershipEntry(db.boardMembers[(u, b)])) else None
    case BoardInfo(b) => if InfoOf(db, b).Some? then Some(BoardInfoEntry(InfoOf(db, b).value)) else None
    case WorkspaceInfo(_) => None
    case ListBoard(l) => if l in db.listBoards then Some(BoardIdEntry(db.listBoards[l])) else None
    case CardBoard(cd) => if cd in db.cardBoards then Some(BoardIdEntry(db.cardBoards[cd])) else None
  }

  /** The time-to-live the provider writes an entry with. */
  function TtlOf(k: RbacCache.CacheKey): nat
  {
    match k
    case WsMember(_, _) => RbacCache.DefaultTtl
    case BoardMember(_, _) => RbacCache.DefaultTtl
    case BoardInfo(_) => RbacCache.InfoTtl
    case WorkspaceInfo(_) => RbacCache.InfoTtl
    case ListBoard(_) => RbacCache.BoardIdTtl
    case CardBoard(_) => RbacCache.BoardIdTtl
  }

  /** What one cache-aside read yields, and the store it leaves behind. */
  datatype Fetch = Fetch(value: Option<Cached>, store: map<string, RbacCache.Entry<Cached>>)

  /**
   * A cache-aside read of key k at instant now: a live entry of the right kind, else the
   * datastore's answer, written back with the key's time-to-live when there is one.
   */
  function Fetched(store: map<string, RbacCache.Entry<Cached>>, up: bool, db: Datastore, k: RbacCache.CacheKey, now: nat): (f: Fetch)
    ensures f.value.Some? ==> Fits(k, f.value.value)
    // the answer differs from the datastore's only when a live cached entry supplied it
    ensures f.value != Stored(db, k) ==>
              up && RbacCache.KeyOf(k) in store && now < store[RbacCache.KeyOf(k)].expiresAt &&
              f.value == Some(store[RbacCache.KeyOf(k)].value) && f.store == store
    // no entry is dropped, no other key is touched, and a new entry at k is the datastore's
    ensures forall key :: key in store ==> key in f.store
    ensures forall key :: key != RbacCache.KeyOf(k) ==> (key in f.store <==> key in store)
    ensures forall key :: key != RbacCache.KeyOf(k) && key in store ==> f.store[key] == store[key]
    ensures RbacCache.KeyOf(k) in f.store && (RbacCache.KeyOf(k) !in store || f.store[RbacCache.KeyOf(k)] != store[RbacCache.KeyOf(k)]) ==>
              Agrees(db, k, f.store[RbacCache.KeyOf(k)].value)
  {
    var hit := if up then RbacCache.Live(store, RbacCache.KeyOf(k), now) else None;
    if hit.Some? && Fits(k, hit.value) then Fetch(hit, store)
    else
      var v := Stored(db, k);
      Fetch(v, if v.None? then store else RbacCache.Written(store, up, RbacCache.KeyOf(k), v.value, TtlOf(k), now))
  }

  /** Over a coherent cache a read yields the datastore's answer and leaves the cache coherent. */
  lemma FetchCoherent(store: map<string, RbacCache.Entry<Cached>>, up: bool, db: Datastore, k: RbacCache.CacheKey, now: nat)
    requires Coherent(store, db, now)
    ensures Fetched(store, up, db, k, now).value == Stored(db, k)
    ensures Coherent(Fetched(store, up, db, k, now).store, db, now)
  {
    var key := RbacCache.KeyOf(k);
    if up && key in store && now < store[key].expiresAt {
      assert Agrees(db, k, store[key].value);
    }
    if Fetched(store, up, db, k, now).store != store {
      WriteKeepsCoherent(store, db, now, up, k, Stored(db, k).value, TtlOf(k));
    }
  }

  /**
   * store' keeps every key of store and differs from it only at the keys of ks, each time
   * by an entry the datastore justifies.
   */
  ghost predicate Refreshed(store: map<string, RbacCache.Entry<Cached>>, store': map<string, RbacCache.Entry<Cached>>,
                            db: Datastore, ks: set<RbacCache.CacheKey>)
  {
    (forall key :: key in store ==> key in store') &&
    forall key :: key in store' && (key !in store || store'[key] != store[key]) ==>
      exists k :: k in ks && key == RbacCache.KeyOf(k) && Agrees(db, k, store'[key].value)
  }

  /** A read refreshes the store at its own key only. */
  lemma FetchRefreshes(store: map<string, RbacCache.Entry<Cached>>, up: bool, db: Datastore, k: RbacCache.CacheKey, now: nat)
    ensures Refreshed(store, Fetched(store, up, db, k, now).store, db, {k})
  {
    var store' := Fetched(store, up, db, k, now).store;
    forall key | key in store' && (key !in store || store'[key] != store[key])
      ensures exists k' :: k' in {k} && key == RbacCache.KeyOf(k') && Agrees(db, k', store'[key].value)
    {
      assert key == RbacCache.KeyOf(k);
    }
  }

  /** Two refreshes in a row refresh at the keys of both. */
  lemma RefreshedChain(s1: map<string, RbacCache.Entry<Cached>>, s2: map<string, RbacCache.Entry<Cached>>,
                       s3: map<string, RbacCache.Entry<Cached>>, db: Datastore, ks1: set<RbacCache.CacheKey>, ks2: set<RbacCache.CacheKey>)
    requires Refreshed(s1, s2, db, ks1) && Refreshed(s2, s3, db, ks2)
    ensures Refreshed(s1, s3, db, ks1 + ks2)
  {
    forall key | key in s3 && (key !in s1 || s3[key] != s1[key])
      ensures exists k :: k in ks1 + ks2 && key == RbacCache.KeyOf(k) && Agrees(db, k, s3[key].value)
    {
      if key !in s2 || s3[key] != s2[key] {
        var k :| k in ks2 && key == RbacCache.KeyOf(k) && Agrees(db, k, s3[key].value);
        assert k in ks1 + ks2;
      } else {
        var k :| k in ks1 && key == RbacCache.KeyOf(k) && Agrees(db, k, s2[key].value);
        assert k in ks1 + ks2;
      }
    }
  }

  /** A refresh leaves the entry of every other key as it was. */
  lemma RefreshedElsewhere(store: map<string, RbacCache.Entry<Cached>>, store': map<string, RbacCache.Entry<Cached>>,
                           db: Datastore, ks: set<RbacCache.CacheKey>, k: RbacCache.CacheKey)
    requires Refreshed(store, store', db, ks) && k !in ks
    ensures RbacCache.KeyOf(k) in store' <==> RbacCache.KeyOf(k) in store
    ensures RbacCache.KeyOf(k) in store ==> store'[RbacCache.KeyOf(k)] == store[RbacCache.KeyOf(k)]
  {
    var key := RbacCache.KeyOf(k);
    if key in store' && (key !in store || store'[key] != store[key]) {
      var k' :| k' in ks && key == RbacCache.KeyOf(k') && Agrees(db, k', store'[key].value);
      RbacCache.KeyOfInjective(k, k');
    }
  }

  /** A refresh keeps a coherent cache coherent. */
  lemma RefreshedKeepsCoherent(store: map<string, RbacCache.Entry<Cached>>, store': map<string, RbacCache.Entry<Cached>>,
                               db: Datastore, ks: set<RbacCache.CacheKey>, now: nat)
    requires Coherent(store, db, now) && Refreshed(store, store', db, ks)
    ensures Coherent(store', db, now)
  {
    forall k | RbacCache.KeyOf(k) in store' && now < store'[RbacCache.KeyOf(k)].expiresAt
      ensures Agrees(db, k, store'[RbacCache.KeyOf(k)].value)
    {
      var key := RbacCache.KeyOf(k);
      if key !in store || store'[key] != store[key] {
        var k' :| k' in ks && key == RbacCache.KeyOf(k') && Agrees(db, k', store'[key].value);
        RbacCache.KeyOfInjective(k, k');
      }
    }
  }

  /** The facts the board checks read through the cache, and the store they leave behind. */
  datatype BoardFacts = BoardFacts(info: Option<BoardInfo>, boardRole: Option<Role>, workspaceRole: Option<Role>,
                                   store: map<string, RbacCache.Entry<Cached>>)

  /**
   * The reads of canViewBoard, hasBoardPermission and getEffectiveBoardRole, in their order:
   * the board info; then, for a signed-in caller of a board found, the board membership and
   * the membership in the board's workspace.
   */
  function FetchBoardFacts(store: map<string, RbacCache.Entry<Cached>>, up: bool, db: Datastore,
                           user: Option<Id>, boardId: Id, now: nat): (f: BoardFacts)
    ensures f.info.None? || user.None? ==> f.boardRole.None? && f.workspaceRole.None?
  {
    var fi := Fetched(store, up, db, RbacCache.BoardInfo(boardId), now);
    var info := AsBoardInfo(fi.value);
    if info.None? || user.None? then BoardFacts(info, None, None, fi.store)
    else
      var fb := Fetched(fi.store, up, db, RbacCache.BoardMember(user.value, boardId), now);
      var fw := Fetched(fb.store, up, db, RbacCache.WsMember(user.value, info.value.workspaceId), now);
      BoardFacts(info, AsRole(fb.value), AsRole(fw.value), fw.store)
  }

  /** The keys those reads look up. */
  function BoardFactKeys(user: Option<Id>, boardId: Id, info: Option<BoardInfo>): set<RbacCache.CacheKey>
  {
    {RbacCache.BoardInfo(boardId)} +
    if user.Some? && info.Some? then {RbacCache.BoardMember(user.value, boardId), RbacCache.WsMember(user.value, info.value.workspaceId)}
    else {}
  }

  /** The board reads change the cache only at the keys they look up, and only by the datastore's entries. */
  lemma BoardFactsRefresh(store: map<string, RbacCache.Entry<Cached>>, up: bool, db: Datastore, user: Option<Id>, boardId: Id, now: nat)
    ensures var f := FetchBoardFacts(store, up, db, user, boardId, now);
            Refreshed(store, f.store, db, BoardFactKeys(user, boardId, f.info))
  {
    var fi := Fetched(store, up, db, RbacCache.BoardInfo(boardId), now);
    var info := AsBoardInfo(fi.value);
    FetchRefreshes(store, up, db, RbacCache.BoardInfo(boardId), now);
    if info.Some? && user.Some? {
      var kb, kw := RbacCache.BoardMember(user.value, boardId), RbacCache.WsMember(user.value, info.value.workspaceId);
      var fb := Fetched(fi.store, up, db, kb, now);
      FetchRefreshes(fi.store, up, db, kb, now);
      FetchRefreshes(fb.store, up, db, kw, now);
      RefreshedChain(store, fi.store, fb.store, db, {RbacCache.BoardInfo(boardId)}, {kb});
      RefreshedChain(store, fb.store, Fetched(fb.store, up, db, kw, now).store, db, {RbacCache.BoardInfo(boardId)} + {kb}, {kw});
      assert BoardFactKeys(user, boardId, info) == {RbacCache.BoardInfo(boardId)} + {kb} + {kw};
    }
  }

  /** Over a coherent cache the board reads yield the datastore's facts and keep the cache coherent. */
  lemma BoardFactsCoherent(store: map<string, RbacCache.Entry<Cached>>, up: bool, db: Datastore, user: Option<Id>, boardId: Id, now: nat)
    requires Coherent(store, db, now)
    ensures var f := FetchBoardFacts(store, up, db, user, boardId, now);
            Coherent(f.store, db, now) && f.info == InfoOf(db, boardId) &&
            (f.info.Some? ==> f.boardRole == BoardRoleOf(db, user, boardId) && f.workspaceRole == BoardWorkspaceRoleOf(db, user, boardId))
  {
    var fi := Fetched(store, up, db, RbacCache.BoardInfo(boardId), now);
    FetchCoherent(store, up, db, RbacCache.BoardInfo(boardId), now);
    var info := AsBoardInfo(fi.value);
    if info.Some? && user.Some? {
      var kb, kw := RbacCache.BoardMember(user.value, boardId), RbacCache.WsMember(user.value, info.value.workspaceId);
      FetchCoherent(fi.store, up, db, kb, now);
      FetchCoherent(Fetched(fi.store, up, db, kb, now).store, up, db, kw, now);
    }
  }

  class RbacProvider {
    var db: Datastore
    const cache: RbacCache.Cache<Cached>

    constructor (db: Datastore, cache: RbacCache.Cache<Cached>)
      ensures this.db == db && this.cache == cache
    {
      this.db := db;
      this.cache := cache;
    }

    /** The cache agrees with the datastore at instant now. */
    ghost predicate CacheCoherent(now: nat)
      reads this, cache
    {
      Coherent(cache.store, db, now)
    }

    /** getBoardInfo: a cached info, else the datastore's, cached for 120 s when found. */
    method GetBoardInfo(boardId: Id, now: nat) returns (info: Option<BoardInfo>)
      modifies cache
      ensures cache.up == old(cache.up)
      ensures var f := Fetched(old(cache.store), cache.up, db, RbacCache.BoardInfo(boardId), now);
              info == AsBoardInfo(f.value) && cache.store == f.store
      ensures var hit := AsBoardInfo(old(cache.Peek(RbacCache.KeyOf(RbacCache.BoardInfo(boardId)), now)));
              if hit.Some? then info == hit && cache.store == old(cache.store)
              else info == InfoOf(db, boardId) &&
                   cache.store == if info.None? then old(cache.store)
                                  else RbacCache.Written(old(cache.store), cache.up, RbacCache.KeyOf(RbacCache.BoardInfo(boardId)),
                                                         BoardInfoEntry(info.value), RbacCache.InfoTtl, now)
      ensures old(CacheCoherent(now)) ==> CacheCoherent(now) && info == InfoOf(db, boardId)
    {
      var cached := cache.GetBoardInfo(boardId, now);
      if AsBoardInfo(cached).Some? {
        assert old(CacheCoherent(now)) ==> Agrees(db, RbacCache.BoardInfo(boardId), cached.value);
        return AsBoardInfo(cached);
      }
      var row := Find(db.boards, boardId);
      if row.None? {
        return None;
      }
      var boardInfo := BoardInfo(boardId, row.value.visibility, row.value.isClosed, row.value.workspaceId);
      ghost var before := cache.store;
      cache.SetBoardInfo(boardId, BoardInfoEntry(boardInfo), now);
      if Coherent(before, db, now) {
        WriteKeepsCoherent(before, db, now, cache.up, RbacCache.BoardInfo(boardId), BoardInfoEntry(boardInfo), RbacCache.InfoTtl);
      }
      info := Some(boardInfo);
    }

    /** getWorkspaceMembership: a cached role, else the datastore's, cached for 60 s when found. */
    method GetWorkspaceMembership(userId: Id, workspaceId: Id, now: nat) returns (m: Option<Role>)
      modifies cache
      ensures cache.up == old(cache.up)
      ensures var f := Fetched(old(cache.store), cache.up, db, RbacCache.WsMember(userId, workspaceId), now);
              m == AsRole(f.value) && cache.store == f.store
      ensures var hit := AsRole(old(cache.Peek(RbacCache.KeyOf(RbacCache.WsMember(userId, workspaceId)), now)));
              if hit.Some? then m == hit && cache.store == old(cache.store)
              else m == Find(db.workspaceMembers, (userId, workspaceId)) &&
                   cache.store == if m.None? then old(cache.store)
                                  else RbacCache.Written(old(cache.store), cache.up, RbacCache.KeyOf(RbacCache.WsMember(userId, workspaceId)),
                                                         MembershipEntry(m.value), RbacCache.DefaultTtl, now)
      ensures old(CacheCoherent(now)) ==> CacheCoherent(now) && m == Find(db.workspaceMembers, (userId, workspaceId))
    {
      var cached := cache.GetWorkspaceMembership(userId, workspaceId, now);
      if AsRole(cached).Some? {
        assert old(CacheCoherent(now)) ==> Agrees(db, RbacCache.WsMember(userId, workspaceId), cached.value);
        return AsRole(cached);
      }
      var member := Find(db.workspaceMembers, (userId, workspaceId));
      if member.None? {
        return None;
      }
      ghost var before := cache.store;
      cache.SetWorkspaceMembership(userId, workspaceId, MembershipEntry(member.value), now);
      if Coherent(before, db, now) {
        WriteKeepsCoherent(before, db, now, cache.up, RbacCache.WsMember(userId, workspaceId),
                           MembershipEntry(member.value), RbacCache.DefaultTtl);
      }
      m := member;
    }

    /** getBoardMembership: a cached role, else the datastore's, cached for 60 s when found. */
    method GetBoardMembership(userId: Id, boardId: Id, now: nat) returns (m: Option<Role>)
      modifies cache
      ensures cache.up == old(cache.up)
      ensures var f := Fetched(old(cache.store), cache.up, db, RbacCache.BoardMember(userId, boardId), now);
              m == AsRole(f.value) && cache.store == f.store
      ensures var hit := AsRole(old(cache.Peek(RbacCache.KeyOf(RbacCache.BoardMember(userId, boardId)), now)));
              if hit.Some? then m == hit && cache.store == old(cache.store)
              else m == Find(db.boardMembers, (userId, boardId)) &&
                   cache.store == if m.None? then old(cache.store)
                                  else RbacCache.Written(old(cache.store), cache.up, RbacCache.KeyOf(RbacCache.BoardMember(userId, boardId)),
                                                         MembershipEntry(m.value), RbacCache.DefaultTtl, now)
      ensures old(CacheCoherent(now)) ==> CacheCoherent(now) && m == Find(db.boardMembers, (userId, boardId))
    {
      var cached := cache.GetBoardMembership(userId, boardId, now);
      if AsRole(cached).Some? {
        assert old(CacheCoherent(now)) ==> Agrees(db, RbacCache.BoardMember(userId, boardId), cached.value);
        return AsRole(cached);
      }
      var member := Find(db.boardMembers, (userId, boardId));
      if member.None? {
        return None;
      }
      ghost var before := cache.store;
      cache.SetBoardMembership(userId, boardId, MembershipEntry(member.value), now);
      if Coherent(before, db, now) {
        WriteKeepsCoherent(before, db, now, cache.up, RbacCache.BoardMember(userId, boardId),
                           MembershipEntry(member.value), RbacCache.DefaultTtl);
      }
      m := member;
    }

    /** getBoardIdFromList: a cached board id, else the datastore's, cached for 300 s when found. */
    method GetBoardIdFromList(listId: Id, now: nat) returns (b: Option<Id>)
      modifies cache
      ensures cache.up == old(cache.up)
      ensures var f := Fetched(old(cache.store), cache.up, db, RbacCache.ListBoard(listId), now);
              b == AsBoardId(f.value) && cache.store == f.store
      ensures var hit := AsBoardId(old(cache.Peek(RbacCache.KeyOf(RbacCache.ListBoard(listId)), now)));
              if hit.Some? then b == hit && cache.store == old(cache.store)
              else b == Find(db.listBoards, listId) &&
                   cache.store == if b.None? then old(cache.store)
                                  else RbacCache.Written(old(cache.store), cache.up, RbacCache.KeyOf(RbacCache.ListBoard(listId)),
                                                         BoardIdEntry(b.value), RbacCache.BoardIdTtl, now)
      ensures old(CacheCoherent(now)) ==> CacheCoherent(now) && b == Find(db.listBoards, listId)
    {
      var cached := cache.GetListBoardId(listId, now);
      if AsBoardId(cached).Some? {
        assert old(CacheCoherent(now)) ==> Agrees(db, RbacCache.ListBoard(listId), cached.value);
        return AsBoardId(cached);
      }
      var board := Find(db.listBoards, listId);
      if board.None? {
        return None;
      }
      ghost var before := cache.store;
      cache.SetListBoardId(listId, BoardIdEntry(board.value), now);
      if Coherent(before, db, now) {
        WriteKeepsCoherent(before, db, now, cache.up, RbacCache.ListBoard(listId), BoardIdEntry(board.value), RbacCache.BoardIdTtl);
      }
      b := board;
    }

    /** getBoardIdFromCard: a cached board id, else the datastore's, cached for 300 s when found. */
    method GetBoardIdFromCard(cardId: Id, now: nat) returns (b: Option<Id>)
      modifies cache
      ensures cache.up == old(cache.up)
      ensures var f := Fetched(old(cache.store), cache.up, db, RbacCache.CardBoard(cardId), now);
              b == AsBoardId(f.value) && cache.store == f.store
      ensures var hit := AsBoardId(old(cache.Peek(RbacCache.KeyOf(RbacCache.CardBoard(cardId)), now)));
              if hit.Some? then b == hit && cache.store == old(cache.store)
              else b == Find(db.cardBoards, cardId) &&
                   cache.store == if b.None? then old(cache.store)
                                  else RbacCache.Written(old(cache.store), cache.up, RbacCache.KeyOf(RbacCache.CardBoard(cardId)),
                                                         BoardIdEntry(b.value), RbacCache.BoardIdTtl, now)
      ensures old(CacheCoherent(now)) ==> CacheCoherent(now) && b == Find(db.cardBoards, cardId)
    {
      var cached := cache.GetCardBoardId(cardId, now);
      if AsBoardId(cached).Some? {
        assert old(CacheCoherent(now)) ==> Agrees(db, RbacCache.CardBoard(cardId), cached.value);
        return AsBoardId(cached);
      }
      var board := Find(db.cardBoards, cardId);
      if board.None? {
        return None;
      }
      ghost var before := cache.store;
      cache.SetCardBoardId(cardId, BoardIdEntry(board.value), now);
      if Coherent(before, db, now) {
        WriteKeepsCoherent(before, db, now, cache.up, RbacCache.CardBoard(cardId), BoardIdEntry(board.value), RbacCache.BoardIdTtl);
      }
      b := board;
    }

    /**
     * canViewWorkspace: the workspace row comes straight from the datastore, never from the
     * cache; the membership is looked up only for a signed-in caller of a live workspace.
     */
    method CanViewWorkspace(userId: Option<Id>, workspaceId: Id, now: nat) returns (r: AccessResult)
      modifies cache
      ensures cache.up == old(cache.up)
      ensures var ws := Find(db.workspaces, workspaceId);
              if ws.Some? && !ws.value.isArchived && userId.Some? then
                var f := Fetched(old(cache.store), cache.up, db, RbacCache.WsMember(userId.value, workspaceId), now);
                r == WorkspaceAccess(userId, ws, AsRole(f.value)) && cache.store == f.store
              else r == WorkspaceAccess(userId, ws, None) && cache.store == old(cache.store)
      ensures old(CacheCoherent(now)) ==>
                CacheCoherent(now) &&
                r == WorkspaceAccess(userId, Find(db.workspaces, workspaceId), WorkspaceRoleOf(db, userId, workspaceId))
    {
      var workspace := Find(db.workspaces, workspaceId);
      var membership: Option<Role> := None;
      if workspace.Some? && !workspace.value.isArchived && userId.Some? {
        membership := GetWorkspaceMembership(userId.value, workspaceId, now);
      }
      r := WorkspaceAccess(userId, workspace, membership);
    }

    /** canViewBoard: board info and, for a signed-in caller, both memberships, all through the cache. */
    method CanViewBoard(userId: Option<Id>, boardId: Id, now: nat) returns (r: AccessResult)
      modifies cache
      ensures cache.up == old(cache.up)
      ensures var f := FetchBoardFacts(old(cache.store), cache.up, db, userId, boardId, now);
              r == BoardAccess(userId, f.info, f.boardRole, f.workspaceRole) && cache.store == f.store &&
              Refreshed(old(cache.store), cache.store, db, BoardFactKeys(userId, boardId, f.info))
      ensures old(CacheCoherent(now)) ==>
                CacheCoherent(now) &&
                r == BoardAccess(userId, InfoOf(db, boardId), BoardRoleOf(db, userId, boardId),
                                 BoardWorkspaceRoleOf(db, userId, boardId))
    {
      BoardFactsRefresh(cache.store, cache.up, db, userId, boardId, now);
      var board := GetBoardInfo(boardId, now);
      if board.None? {
        return Deny(BoardNotFound);
      }
      var boardMembership: Option<Role> := None;
      var workspaceMembership: Option<Role> := None;
      if userId.Some? {
        boardMembership := GetBoardMembership(userId.value, boardId, now);
        workspaceMembership := GetWorkspaceMembership(userId.value, board.value.workspaceId, now);
      }
      r := BoardAccess(userId, board, boardMembership, workspaceMembership);
    }

    /** hasWorkspacePermission. */
    method HasWorkspacePermission(userId: Id, workspaceId: Id, p: Permission, now: nat) returns (ok: bool)
      modifies cache
      ensures cache.up == old(cache.up)
      ensures var f := Fetched(old(cache.store), cache.up, db, RbacCache.WsMember(userId, workspaceId), now);
              ok == WorkspacePermission(AsRole(f.value), p) && cache.store == f.store
      ensures old(CacheCoherent(now)) ==>
                CacheCoherent(now) && ok == WorkspacePermission(Find(db.workspaceMembers, (userId, workspaceId)), p)
    {
      var membership := GetWorkspaceMembership(userId, workspaceId, now);
      if membership.None? {
        return false;
      }
      ok := WorkspacePermission(membership, p);
    }

    /** hasBoardPermission. */
    method HasBoardPermission(userId: Id, boardId: Id, p: Permission, now: nat) returns (ok: bool)
      modifies cache
      ensures cache.up == old(cache.up)
      ensures var f := FetchBoardFacts(old(cache.store), cache.up, db, Some(userId), boardId, now);
              ok == BoardPermission(f.info, f.boardRole, f.workspaceRole, p) && cache.store == f.store &&
              Refreshed(old(cache.store), cache.store, db, BoardFactKeys(Some(userId), boardId, f.info))
      ensures old(CacheCoherent(now)) ==>
                CacheCoherent(now) &&
                ok == BoardPermission(InfoOf(db, boardId), BoardRoleOf(db, Some(userId), boardId),
                                      BoardWorkspaceRoleOf(db, Some(userId), boardId), p)
    {
      BoardFactsRefresh(cache.store, cache.up, db, Some(userId), boardId, now);
      var board := GetBoardInfo(boardId, now);
      if board.None? {
        return false;
      }
      var boardMembership := GetBoardMembership(userId, boardId, now);
      var workspaceMembership := GetWorkspaceMembership(userId, board.value.workspaceId, now);
      ok := BoardPermission(board, boardMembership, workspaceMembership, p);
    }

    /** getEffectiveBoardRole. */
    method GetEffectiveBoardRole(userId: Id, boardId: Id, now: nat) returns (role: Option<Role>)
      modifies cache
      ensures cache.up == old(cache.up)
      ensures var f := FetchBoardFacts(old(cache.store), cache.up, db, Some(userId), boardId, now);
              role == EffectiveBoardRole(f.info, f.boardRole, f.workspaceRole) && cache.store == f.store &&
              Refreshed(old(cache.store), cache.store, db, BoardFactKeys(Some(userId), boardId, f.info))
      ensures old(CacheCoherent(now)) ==>
                CacheCoherent(now) &&
                role == EffectiveBoardRole(InfoOf(db, boardId), BoardRoleOf(db, Some(userId), boardId),
                                           BoardWorkspaceRoleOf(db, Some(userId), boardId))
    {
      BoardFactsRefresh(cache.store, cache.up, db, Some(userId), boardId, now);
      var board := GetBoardInfo(boardId, now);
      if board.None? {
        return None;
      }
      var boardMembership := GetBoardMembership(userId, boardId, now);
      var workspaceMembership := GetWorkspaceMembership(userId, board.value.workspaceId, now);
      role := EffectiveBoardRole(board, boardMembership, workspaceMembership);
    }

    /**
     * clearCache: both membership entries of a user for a resource; else every entry of the
     * user; else, also when only a resource is given, the whole namespace.
     */
    method ClearCache(userId: Option<Id>, resourceId: Option<Id>)
      modifies cache
      ensures cache.up == old(cache.up)
      ensures !cache.up ==> cache.store == old(cache.store)
      ensures cache.up && userId.Some? && resourceId.Some? ==>
                cache.store == old(cache.store) - {RbacCache.KeyOf(RbacCache.WsMember(userId.value, resourceId.value))}
                                                - {RbacCache.KeyOf(RbacCache.BoardMember(userId.value, resourceId.value))}
      ensures cache.up && userId.Some? && resourceId.None? ==>
                cache.store == RbacCache.Without(old(cache.store), RbacCache.Prefix + RbacCache.UserPattern(userId.value))
      ensures cache.up && userId.None? ==>
                cache.store == RbacCache.Without(old(cache.store), RbacCache.Prefix + RbacCache.AllPattern)
      ensures forall key :: key in cache.store ==> key in old(cache.store) && cache.store[key] == old(cache.store)[key]
    {
      if userId.Some? && resourceId.Some? {
        cache.ClearWorkspaceMembershipCache(userId.value, resourceId.value);
        cache.ClearBoardMembershipCache(userId.value, resourceId.value);
      } else if userId.Some? {
        cache.ClearUserCache(userId.value);
      } else {
        cache.ClearAll();
      }
    }

    /** clearBoardCache. */
    method ClearBoardCache(boardId: Id)
      modifies cache
      ensures cache.up == old(cache.up)
      ensures cache.store == if cache.up then RbacCache.Without(old(cache.store) - {RbacCache.KeyOf(RbacCache.BoardInfo(boardId))},
                                                                RbacCache.Prefix + RbacCache.BoardMemberPattern(boardId))
                             else old(cache.store)
    {
      cache.ClearBoardCache(boardId);
    }

    /** clearWorkspaceCache. */
    method ClearWorkspaceCache(workspaceId: Id)
      modifies cache
      ensures cache.up == old(cache.up)
      ensures cache.store == if cache.up then RbacCache.Without(old(cache.store) - {RbacCache.KeyOf(RbacCache.WorkspaceInfo(workspaceId))},
                                                                RbacCache.Prefix + RbacCache.WorkspaceMemberPattern(workspaceId))
                             else old(cache.store)
    {
      cache.ClearWorkspaceCache(workspaceId);
    }
  }
}
