/**
 * RBACCache (backend/src/common/utils/rbacCache.ts): a namespaced key/value cache with
 * per-entry time-to-live over Redis.
 *
 * Redis is modelled as a map from key to value and expiry instant; the clock is an
 * explicit argument (seconds). The `up` flag stands for the connection: while it is
 * false every call fails inside Redis, and RBACCache swallows the failure, so a read
 * finds nothing and a write or delete changes nothing.
 */
module RbacCache {
  import opened Wrappers
  import opened Strings
  import opened Ids
  import opened Glob

  /** PREFIX: every key the cache touches starts with it. */
  const Prefix: string := "rbac:"

  /** DEFAULT_TTL, and the longer lifetimes of the info and id entries (seconds). */
  const DefaultTtl: nat := 60
  const InfoTtl: nat := 120
  const BoardIdTtl: nat := 300

  /** parts.join(':'): the parts in order, with one ':' between neighbours. */
  function Join(parts: seq<string>): (s: string)
    ensures |parts| == 0 ==> s == ""
    ensures |parts| == 1 ==> s == parts[0]
    ensures |parts| == 2 ==> s == parts[0] + ":" + parts[1]
    ensures |parts| > 1 ==> parts[0] + ":" <= s
  {
    if |parts| == 0 then ""
    else if |parts| == 1 then parts[0]
    else parts[0] + ":" + Join(parts[1..])
  }

  /** getKey: the namespace, the type segment, then the ids, all separated by ':'. */
  function GetKey(kind: string, parts: seq<string>): (k: string)
    ensures Prefix + (kind + ":") <= k
    ensures |parts| == 1 ==> k == Prefix + (kind + ":" + parts[0])
    ensures |parts| == 2 ==> k == Prefix + (kind + ":" + (parts[0] + ":" + parts[1]))
  {
    Prefix + (kind + ":" + Join(parts))
  }

  function WorkspaceMembershipKey(userId: Id, workspaceId: Id): (k: string)
    ensures k == Prefix + ("ws_member" + ":" + (userId + ":" + workspaceId))
  {
    GetKey("ws_member", [userId, workspaceId])
  }

  function BoardMembershipKey(userId: Id, boardId: Id): (k: string)
    ensures k == Prefix + ("board_member" + ":" + (userId + ":" + boardId))
  {
    GetKey("board_member", [userId, boardId])
  }

  function BoardInfoKey(boardId: Id): (k: string)
    ensures k == Prefix + ("board_info" + ":" + boardId)
  {
    GetKey("board_info", [boardId])
  }

  function WorkspaceInfoKey(workspaceId: Id): (k: string)
    ensures k == Prefix + ("workspace_info" + ":" + workspaceId)
  {
    GetKey("workspace_info", [workspaceId])
  }

  function ListBoardKey(listId: Id): (k: string)
    ensures k == Prefix + ("list_board" + ":" + listId)
  {
    GetKey("list_board", [listId])
  }

  function CardBoardKey(cardId: Id): (k: string)
    ensures k == Prefix + ("card_board" + ":" + cardId)
  {
    GetKey("card_board", [cardId])
  }

  /** The keys the builders produce, one constructor per builder. */
  datatype CacheKey =
    | WsMember(user: Id, workspace: Id)
    | BoardMember(user: Id, board: Id)
    | BoardInfo(board: Id)
    | WorkspaceInfo(workspace: Id)
    | ListBoard(list: Id)
    | CardBoard(card: Id)

  /** The type segment of a key. */
  function Kind(k: CacheKey): string
  {
    match k
    case WsMember(_, _) => "ws_member"
    case BoardMember(_, _) => "board_member"
    case BoardInfo(_) => "board_info"
    case WorkspaceInfo(_) => "workspace_info"
    case ListBoard(_) => "list_board"
    case CardBoard(_) => "card_board"
  }

  /** The ids of a key, joined by ':'. */
  function Rest(k: CacheKey): string
  {
    match k
    case WsMember(u, w) => u + ":" + w
    case BoardMember(u, b) => u + ":" + b
    case BoardInfo(b) => b
    case WorkspaceInfo(w) => w
    case ListBoard(l) => l
    case CardBoard(c) => c
  }

  /** The key string the matching builder produces. */
  function KeyOf(k: CacheKey): (s: string)
    ensures s == Prefix + (Kind(k) + ":" + Rest(k))
  {
    match k
    case WsMember(u, w) => WorkspaceMembershipKey(u, w)
    case BoardMember(u, b) => BoardMembershipKey(u, b)
    case BoardInfo(b) => BoardInfoKey(b)
    case WorkspaceInfo(w) => WorkspaceInfoKey(w)
    case ListBoard(l) => ListBoardKey(l)
    case CardBoard(c) => CardBoardKey(c)
  }

  lemma IdIsPlain(x: Id)
    ensures ColonFree(x) && StarFree(x)
  {
    assert forall i :: 0 <= i < |x| ==> !Special(x[i]);
  }

  lemma KindIsPlain(k: CacheKey)
    ensures ColonFree(Kind(k)) && StarFree(Kind(k))
  {
    var s := Kind(k);
    forall i | 0 <= i < |s|
      ensures s[i] != ':' && s[i] != '*'
    {
      assert 'a' <= s[i] <= 'z' || s[i] == '_';
    }
  }

  /** Distinct builder keys are distinct strings: in particular a ws_member and a board_member key never collide. */
  lemma KeyOfInjective(k1: CacheKey, k2: CacheKey)
    ensures KeyOf(k1) == KeyOf(k2) <==> k1 == k2
  {
    if KeyOf(k1) == KeyOf(k2) {
      var b1, b2 := Kind(k1) + ":" + Rest(k1), Kind(k2) + ":" + Rest(k2);
      assert b1 == KeyOf(k1)[|Prefix|..];
      assert b2 == KeyOf(k2)[|Prefix|..];
      KindIsPlain(k1);
      KindIsPlain(k2);
      SplitAtFirstColon(Kind(k1), Rest(k1), Kind(k2), Rest(k2));
      match k1
      case WsMember(u1, w1) =>
        var u2, w2 := k2.user, k2.workspace;
        IdIsPlain(u1);
        IdIsPlain(u2);
        SplitAtFirstColon(u1, w1, u2, w2);
      case BoardMember(u1, b1) =>
        var u2, b2 := k2.user, k2.board;
        IdIsPlain(u1);
        IdIsPlain(u2);
        SplitAtFirstColon(u1, b1, u2, b2);
      case _ =>
    }
  }

  /** The pattern clearUserCache deletes by. */
  function UserPattern(userId: Id): string
  {
    "*" + (":" + userId + ":") + "*"
  }

  /** The pattern clearBoardCache deletes by. */
  function BoardMemberPattern(boardId: Id): string
  {
    "board_member" + ":*:" + boardId
  }

  /** The pattern clearWorkspaceCache deletes by. */
  function WorkspaceMemberPattern(workspaceId: Id): string
  {
    "ws_member" + ":*:" + workspaceId
  }

  /** The pattern clearAll deletes by. */
  const AllPattern: string := "*"

  /** A namespaced pattern matches a builder key exactly when the pattern matches the part after the prefix. */
  lemma UnderPrefix(pat: string, k: CacheKey)
    ensures Match(Prefix + pat, KeyOf(k)) <==> Match(pat, Kind(k) + ":" + Rest(k))
  {
    LiteralHead(Prefix, pat, KeyOf(k));
    assert KeyOf(k)[|Prefix|..] == Kind(k) + ":" + Rest(k);
  }

  /** A literal "type:" head selects the keys of that type. */
  lemma KindHead(x: string, k: CacheKey)
    requires ColonFree(x)
    ensures x + ":" <= Kind(k) + ":" + Rest(k) <==> x == Kind(k)
    ensures x == Kind(k) ==> (Kind(k) + ":" + Rest(k))[|x| + 1..] == Rest(k)
  {
    var s := Kind(k) + ":" + Rest(k);
    if x + ":" <= s {
      var q := s[|x| + 1..];
      assert s == x + ":" + q;
      KindIsPlain(k);
      SplitAtFirstColon(x, q, Kind(k), Rest(k));
    }
  }

  /** The only ':' in a + ":" + (b + ":" + c), all colon-free, are the two separators. */
  lemma TwoColons(a: string, b: string, c: string, j: int)
    requires ColonFree(a) && ColonFree(b) && ColonFree(c)
    requires 0 <= j < |a + ":" + (b + ":" + c)| && (a + ":" + (b + ":" + c))[j] == ':'
    ensures j == |a| || j == |a| + 1 + |b|
  {
    if j > |a| {
      OnlyColon(b, c, j - |a| - 1);
    }
  }

  /** Some tail of u + ":" + x equals ":" + b exactly when b is x. */
  lemma ColonTail(u: string, x: string, b: string)
    requires ColonFree(u) && ColonFree(x)
    ensures (exists i :: 0 <= i <= |u + ":" + x| && (u + ":" + x)[i..] == ":" + b) <==> b == x
  {
    var s := u + ":" + x;
    if i :| 0 <= i <= |s| && s[i..] == ":" + b {
      assert s[i] == ':';
      OnlyColon(u, x, i);
      assert s[i + 1..] == b;
    }
    if b == x {
      assert s[|u|..] == ":" + b;
    }
  }

  /** ":" + u + ":" occurs in a + ":" + (x + ":" + w), all colon-free, exactly when u is x. */
  lemma ColonInfix(a: string, x: string, w: string, u: string)
    requires ColonFree(a) && ColonFree(x) && ColonFree(w) && ColonFree(u)
    ensures Occurs(":" + u + ":", a + ":" + (x + ":" + w)) <==> u == x
  {
    var s := a + ":" + (x + ":" + w);
    var t := ":" + u + ":";
    if i :| 0 <= i <= |s| && t <= s[i..] {
      assert s[i] == t[0] == ':';
      assert s[i + 1 + |u|] == t[1 + |u|] == ':';
      TwoColons(a, x, w, i);
      TwoColons(a, x, w, i + 1 + |u|);
      assert i == |a| && |u| == |x|;
      assert u == t[1..1 + |u|] == s[i + 1..i + 1 + |u|];
      assert x == s[|a| + 1..|a| + 1 + |x|];
    }
    if u == x {
      assert t <= s[|a|..];
    }
  }

  /** ":" + u + ":" never occurs in a + ":" + b with a, b colon-free: there is one ':' only. */
  lemma NoColonInfix(a: string, b: string, u: string)
    requires ColonFree(a) && ColonFree(b) && ColonFree(u)
    ensures !Occurs(":" + u + ":", a + ":" + b)
  {
    var s := a + ":" + b;
    var t := ":" + u + ":";
    forall i | 0 <= i && |t| <= |s| - i && s[i] == ':'
      ensures s[i + 1 + |u|] != ':'
    {
      OnlyColon(a, b, i);
    }
    forall i | 0 <= i <= |s|
      ensures !(t <= s[i..])
    {
      if |t| <= |s| - i {
        assert t[0] == ':' && t[1 + |u|] == ':';
        assert s[i..][0] == s[i] && s[i..][1 + |u|] == s[i + 1 + |u|];
      }
    }
  }

  /** clearUserCache's pattern matches a builder key exactly when ":" + u + ":" occurs after the prefix. */
  lemma UserPatternOccurs(userId: Id, k: CacheKey)
    ensures Match(Prefix + UserPattern(userId), KeyOf(k)) <==> Occurs(":" + userId + ":", Kind(k) + ":" + Rest(k))
  {
    var t := ":" + userId + ":";
    UnderPrefix(UserPattern(userId), k);
    IdIsPlain(userId);
    assert StarFree(t);
    StarLiteralStar(t, Kind(k) + ":" + Rest(k));
  }

  /** clearUserCache(u) selects exactly u's two membership entries among the builder keys. */
  lemma UserPatternSelects(userId: Id, k: CacheKey)
    ensures Match(Prefix + UserPattern(userId), KeyOf(k)) <==> (k.WsMember? || k.BoardMember?) && k.user == userId
  {
    UserPatternOccurs(userId, k);
    KindIsPlain(k);
    IdIsPlain(userId);
    if k.WsMember? || k.BoardMember? {
      var last := if k.WsMember? then k.workspace else k.board;
      IdIsPlain(k.user);
      IdIsPlain(last);
      assert Rest(k) == k.user + ":" + last;
      ColonInfix(Kind(k), k.user, last, userId);
    } else {
      IdIsPlain(Rest(k));
      NoColonInfix(Kind(k), Rest(k), userId);
    }
  }

  /** A "type:*:id" pattern selects the keys of that type whose ids end with ":" + id. */
  lemma MemberPatternHead(kind: string, id: Id, k: CacheKey)
    requires ColonFree(kind) && StarFree(kind)
    ensures Match(Prefix + (kind + ":*:" + id), KeyOf(k)) <==>
              kind == Kind(k) && exists i :: 0 <= i <= |Rest(k)| && Rest(k)[i..] == ":" + id
  {
    var tail := ":" + id;
    assert kind + ":*:" + id == (kind + ":") + ("*" + tail);
    UnderPrefix(kind + ":*:" + id, k);
    LiteralHead(kind + ":", "*" + tail, Kind(k) + ":" + Rest(k));
    KindHead(kind, k);
    IdIsPlain(id);
    assert StarFree(tail);
    StarThenLiteral(tail, Rest(k));
  }

  /** clearBoardCache's pattern selects exactly the board_member keys of that board. */
  lemma BoardPatternSelects(boardId: Id, k: CacheKey)
    ensures Match(Prefix + BoardMemberPattern(boardId), KeyOf(k)) <==> k.BoardMember? && k.board == boardId
  {
    MemberPatternHead("board_member", boardId, k);
    if k.BoardMember? {
      IdIsPlain(k.user);
      IdIsPlain(k.board);
      ColonTail(k.user, k.board, boardId);
    }
  }

  /** clearWorkspaceCache's pattern selects exactly the ws_member keys of that workspace. */
  lemma WorkspacePatternSelects(workspaceId: Id, k: CacheKey)
    ensures Match(Prefix + WorkspaceMemberPattern(workspaceId), KeyOf(k)) <==> k.WsMember? && k.workspace == workspaceId
  {
    MemberPatternHead("ws_member", workspaceId, k);
    if k.WsMember? {
      IdIsPlain(k.user);
      IdIsPlain(k.workspace);
      ColonTail(k.user, k.workspace, workspaceId);
    }
  }

  /** clearAll's pattern selects exactly the keys in the cache's namespace. */
  lemma AllPatternSelects(key: string)
    ensures Match(Prefix + AllPattern, key) <==> Prefix <= key
  {
    LiteralThenStar(Prefix, key);
  }

  /** A stored value and the instant (seconds) at which it expires. */
  datatype Entry<V> = Entry(value: V, expiresAt: nat)

  /** What the store holds at key at instant now, if the entry has not expired. */
  function Live<V>(store: map<string, Entry<V>>, key: string, now: nat): (r: Option<V>)
    ensures r.Some? <==> key in store && now < store[key].expiresAt
    ensures r.Some? ==> r.value == store[key].value
  {
    if key in store && now < store[key].expiresAt then Some(store[key].value) else None
  }

  /** The store after setEx(key, ttl, data) at instant now; a failing call (no connection, or no positive ttl) changes nothing. */
  function Written<V>(store: map<string, Entry<V>>, up: bool, key: string, data: V, ttl: nat, now: nat): map<string, Entry<V>>
  {
    if up && ttl > 0 then store[key := Entry(data, now + ttl)] else store
  }

  /** The store with every key that pattern matches removed. */
  function Without<V>(store: map<string, Entry<V>>, pattern: string): (r: map<string, Entry<V>>)
    ensures forall key :: key in r <==> key in store && !Match(pattern, key)
    ensures forall key :: key in r ==> r[key] == store[key]
  {
    map key | key in store && !Match(pattern, key) :: store[key]
  }

  /** set then get: the value is there until its time-to-live runs out, and no other entry is touched. */
  lemma SetThenGet<V>(store: map<string, Entry<V>>, key: string, data: V, ttl: nat, now: nat, later: nat, other: string)
    requires ttl > 0 && now <= later
    ensures Live(Written(store, true, key, data, ttl, now), key, later) == if later < now + ttl then Some(data) else None
    ensures other != key ==> Live(Written(store, true, key, data, ttl, now), other, later) == Live(store, other, later)
  {
  }

  /** A pattern no key matches changes nothing. */
  lemma UnmatchedPatternKeepsStore<V>(store: map<string, Entry<V>>, pattern: string)
    requires forall key :: key in store ==> !Match(pattern, key)
    ensures Without(store, pattern) == store
  {
  }

  /** The cache object: the Redis contents it sees and whether Redis answers. */
  class Cache<V> {
    var store: map<string, Entry<V>>
    var up: bool

    constructor (up: bool)
      ensures store == map[] && this.up == up
    {
      store := map[];
      this.up := up;
    }

    /** What get(key) returns: null when the key is missing or expired, or when Redis fails. */
    function Peek(key: string, now: nat): (r: Option<V>)
      reads this
      ensures r.Some? <==> up && key in store && now < store[key].expiresAt
      ensures r.Some? ==> r.value == store[key].value
    {
      if up then Live(store, key, now) else None
    }

    /** get. */
    method Get(key: string, now: nat) returns (r: Option<V>)
      ensures r == Peek(key, now)
    {
      if !up {
        return None;
      }
      if key in store && now < store[key].expiresAt {
        r := Some(store[key].value);
      } else {
        r := None;
      }
    }

    /** set, with DEFAULT_TTL when no ttl is given. */
    method Set(key: string, data: V, now: nat, ttl: nat := DefaultTtl)
      modifies this
      ensures up == old(up)
      ensures store == Written(old(store), up, key, data, ttl, now)
    {
      if up && ttl > 0 {
        store := store[key := Entry(data, now + ttl)];
      }
    }

    /** delete. */
    method Delete(key: string)
      modifies this
      ensures up == old(up)
      ensures store == if up then old(store) - {key} else old(store)
    {
      if up {
        store := store - {key};
      }
    }

    /** deleteByPattern: collect the keys matching PREFIX + pattern, then delete them. */
    method DeleteByPattern(pattern: string)
      modifies this
      ensures up == old(up)
      ensures store == if up then Without(old(store), Prefix + pattern) else old(store)
    {
      if up {
        var keys := set key | key in store && Match(Prefix + pattern, key);
        if |keys| > 0 {
          store := store - keys;
        } else {
          assert forall key :: key in store ==> key !in keys;
        }
        assert store == Without(old(store), Prefix + pattern);
      }
    }

    method GetWorkspaceMembership(userId: Id, workspaceId: Id, now: nat) returns (r: Option<V>)
      ensures r == Peek(KeyOf(WsMember(userId, workspaceId)), now)
    {
      r := Get(WorkspaceMembershipKey(userId, workspaceId), now);
    }

    method SetWorkspaceMembership(userId: Id, workspaceId: Id, data: V, now: nat)
      modifies this
      ensures up == old(up)
      ensures store == Written(old(store), up, KeyOf(WsMember(userId, workspaceId)), data, DefaultTtl, now)
    {
      Set(WorkspaceMembershipKey(userId, workspaceId), data, now);
    }

    method GetBoardMembership(userId: Id, boardId: Id, now: nat) returns (r: Option<V>)
      ensures r == Peek(KeyOf(BoardMember(userId, boardId)), now)
    {
      r := Get(BoardMembershipKey(userId, boardId), now);
    }

    method SetBoardMembership(userId: Id, boardId: Id, data: V, now: nat)
      modifies this
      ensures up == old(up)
      ensures store == Written(old(store), up, KeyOf(BoardMember(userId, boardId)), data, DefaultTtl, now)
    {
      Set(BoardMembershipKey(userId, boardId), data, now);
    }

    method GetBoardInfo(boardId: Id, now: nat) returns (r: Option<V>)
      ensures r == Peek(KeyOf(BoardInfo(boardId)), now)
    {
      r := Get(BoardInfoKey(boardId), now);
    }

    method SetBoardInfo(boardId: Id, data: V, now: nat, ttl: nat := InfoTtl)
      modifies this
      ensures up == old(up)
      ensures store == Written(old(store), up, KeyOf(BoardInfo(boardId)), data, ttl, now)
    {
      Set(BoardInfoKey(boardId), data, now, ttl);
    }

    method GetWorkspaceInfo(workspaceId: Id, now: nat) returns (r: Option<V>)
      ensures r == Peek(KeyOf(WorkspaceInfo(workspaceId)), now)
    {
      r := Get(WorkspaceInfoKey(workspaceId), now);
    }

    method SetWorkspaceInfo(workspaceId: Id, data: V, now: nat, ttl: nat := InfoTtl)
      modifies this
      ensures up == old(up)
      ensures store == Written(old(store), up, KeyOf(WorkspaceInfo(workspaceId)), data, ttl, now)
    {
      Set(WorkspaceInfoKey(workspaceId), data, now, ttl);
    }

    method GetListBoardId(listId: Id, now: nat) returns (r: Option<V>)
      ensures r == Peek(KeyOf(ListBoard(listId)), now)
    {
      r := Get(ListBoardKey(listId), now);
    }

    method SetListBoardId(listId: Id, boardId: V, now: nat)
      modifies this
      ensures up == old(up)
      ensures store == Written(old(store), up, KeyOf(ListBoard(listId)), boardId, BoardIdTtl, now)
    {
      Set(ListBoardKey(listId), boardId, now, BoardIdTtl);
    }

    method GetCardBoardId(cardId: Id, now: nat) returns (r: Option<V>)
      ensures r == Peek(KeyOf(CardBoard(cardId)), now)
    {
      r := Get(CardBoardKey(cardId), now);
    }

    method SetCardBoardId(cardId: Id, boardId: V, now: nat)
      modifies this
      ensures up == old(up)
      ensures store == Written(old(store), up, KeyOf(CardBoard(cardId)), boardId, BoardIdTtl, now)
    {
      Set(CardBoardKey(cardId), boardId, now, BoardIdTtl);
    }

    /** clearUserCache: every entry of the user's memberships goes, every other builder key stays. */
    method ClearUserCache(userId: Id)
      modifies this
      ensures up == old(up)
      ensures store == if up then Without(old(store), Prefix + UserPattern(userId)) else old(store)
      ensures up ==> forall k :: KeyOf(k) in store <==>
                KeyOf(k) in old(store) && !((k.WsMember? || k.BoardMember?) && k.user == userId)
    {
      DeleteByPattern(UserPattern(userId));
      forall k: CacheKey
        ensures Match(Prefix + UserPattern(userId), KeyOf(k)) <==> (k.WsMember? || k.BoardMember?) && k.user == userId
      {
        UserPatternSelects(userId, k);
      }
    }

    /** clearWorkspaceMembershipCache: exactly one key goes. */
    method ClearWorkspaceMembershipCache(userId: Id, workspaceId: Id)
      modifies this
      ensures up == old(up)
      ensures store == if up then old(store) - {KeyOf(WsMember(userId, workspaceId))} else old(store)
    {
      Delete(WorkspaceMembershipKey(userId, workspaceId));
    }

    /** clearBoardMembershipCache: exactly one key goes. */
    method ClearBoardMembershipCache(userId: Id, boardId: Id)
      modifies this
      ensures up == old(up)
      ensures store == if up then old(store) - {KeyOf(BoardMember(userId, boardId))} else old(store)
    {
      Delete(BoardMembershipKey(userId, boardId));
    }

    /** clearBoardCache: the board's info and every membership entry of the board go, nothing else. */
    method ClearBoardCache(boardId: Id)
      modifies this
      ensures up == old(up)
      ensures store == if up then Without(old(store) - {KeyOf(BoardInfo(boardId))}, Prefix + BoardMemberPattern(boardId))
                       else old(store)
      ensures up ==> forall k :: KeyOf(k) in store <==>
                KeyOf(k) in old(store) && k != BoardInfo(boardId) && !(k.BoardMember? && k.board == boardId)
    {
      Delete(BoardInfoKey(boardId));
      DeleteByPattern(BoardMemberPattern(boardId));
      forall k: CacheKey
        ensures Match(Prefix + BoardMemberPattern(boardId), KeyOf(k)) <==> k.BoardMember? && k.board == boardId
        ensures KeyOf(k) == KeyOf(BoardInfo(boardId)) <==> k == BoardInfo(boardId)
      {
        BoardPatternSelects(boardId, k);
        KeyOfInjective(k, BoardInfo(boardId));
      }
    }

    /** clearWorkspaceCache: the workspace's info and every membership entry of the workspace go, nothing else. */
    method ClearWorkspaceCache(workspaceId: Id)
      modifies this
      ensures up == old(up)
      ensures store == if up then Without(old(store) - {KeyOf(WorkspaceInfo(workspaceId))}, Prefix + WorkspaceMemberPattern(workspaceId))
                       else old(store)
      ensures up ==> forall k :: KeyOf(k) in store <==>
                KeyOf(k) in old(store) && k != WorkspaceInfo(workspaceId) && !(k.WsMember? && k.workspace == workspaceId)
    {
      Delete(WorkspaceInfoKey(workspaceId));
      DeleteByPattern(WorkspaceMemberPattern(workspaceId));
      forall k: CacheKey
        ensures Match(Prefix + WorkspaceMemberPattern(workspaceId), KeyOf(k)) <==> k.WsMember? && k.workspace == workspaceId
        ensures KeyOf(k) == KeyOf(WorkspaceInfo(workspaceId)) <==> k == WorkspaceInfo(workspaceId)
      {
        WorkspacePatternSelects(workspaceId, k);
        KeyOfInjective(k, WorkspaceInfo(workspaceId));
      }
    }

    /** clearAll: no key of the namespace is left. */
    method ClearAll()
      modifies this
      ensures up == old(up)
      ensures store == if up then Without(old(store), Prefix + AllPattern) else old(store)
      ensures up ==> forall key :: key in store ==> !(Prefix <= key)
    {
      DeleteByPattern(AllPattern);
      forall key | key in store
        ensures Match(Prefix + AllPattern, key) <==> Prefix <= key
      {
        AllPatternSelects(key);
      }
    }
  }
}
