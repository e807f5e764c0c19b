/** Role permissions behind a TTL cache (app/auth/permission_resolver.py). */
module PermissionCache {
  import opened Wrappers

  // ---------- Cache keys: ",".join(sorted(roles)) ----------

  predicate Less(a: string, b: string) {
    if b == "" then false
    else if a == "" then true
    else a[0] < b[0] || (a[0] == b[0] && Less(a[1..], b[1..]))
  }

  predicate AtMost(a: string, b: string) {
    a == b || Less(a, b)
  }

  lemma {:induction false} LessIsTransitive(a: string, b: string, c: string)
    requires Less(a, b) && Less(b, c)
    ensures Less(a, c)
  {
    if a != "" && a[0] == b[0] && b[0] == c[0] {
      LessIsTransitive(a[1..], b[1..], c[1..]);
    }
  }

  lemma {:induction false} LessIsTotal(a: string, b: string)
    ensures a == b || Less(a, b) || Less(b, a)
  {
    if a != "" && b != "" && a[0] == b[0] {
      LessIsTotal(a[1..], b[1..]);
      assert a == [a[0]] + a[1..] && b == [b[0]] + b[1..];
    }
  }

  lemma {:induction false} LessIsIrreflexive(a: string)
    ensures !Less(a, a)
  {
    if a != "" {
      LessIsIrreflexive(a[1..]);
    }
  }

  function Insert(x: string, s: seq<string>): seq<string> {
    if s == [] || AtMost(x, s[0]) then [x] + s else [s[0]] + Insert(x, s[1..])
  }

  function Sorted(s: seq<string>): seq<string> {
    if s == [] then [] else Insert(s[0], Sorted(s[1..]))
  }

  ghost predicate InOrder(s: seq<string>) {
    forall i, j :: 0 <= i < j < |s| ==> AtMost(s[i], s[j])
  }

  lemma {:induction false} InsertKeeps(x: string, s: seq<string>)
    requires InOrder(s)
    ensures InOrder(Insert(x, s)) && multiset(Insert(x, s)) == multiset{x} + multiset(s)
  {
    if s != [] {
      assert s == [s[0]] + s[1..];
      if AtMost(x, s[0]) {
        forall j | 0 <= j < |s|
          ensures AtMost(x, s[j])
        {
          AtMostIsTransitive(x, s[0], s[j]);
        }
      } else {
        InsertKeeps(x, s[1..]);
        LessIsTotal(x, s[0]);
        var r := Insert(x, s[1..]);
        forall j | 0 <= j < |r|
          ensures AtMost(s[0], r[j])
        {
          assert r[j] in multiset(r);
          assert r[j] == x || r[j] in s[1..];
        }
      }
    }
  }

  lemma AtMostIsTransitive(a: string, b: string, c: string)
    requires AtMost(a, b) && (b == c || AtMost(b, c))
    ensures AtMost(a, c)
  {
    if a != b && b != c {
      LessIsTransitive(a, b, c);
    }
  }

  lemma {:induction false} SortedKeeps(s: seq<string>)
    ensures InOrder(Sorted(s)) && multiset(Sorted(s)) == multiset(s)
  {
    if s != [] {
      SortedKeeps(s[1..]);
      InsertKeeps(s[0], Sorted(s[1..]));
      assert s == [s[0]] + s[1..];
    }
  }

  /** Two ordered lists of the same names are the same list. */
  lemma {:induction false} OrderIsUnique(a: seq<string>, b: seq<string>)
    requires InOrder(a) && InOrder(b) && multiset(a) == multiset(b)
    ensures a == b
    decreases |a|
  {
    if a == [] || b == [] {
      assert |a| == |multiset(a)| == |multiset(b)| == |b|;
    } else {
      HeadIsLeast(a, b);
      HeadIsLeast(b, a);
      BothWays(a[0], b[0]);
      assert a == [a[0]] + a[1..] && b == [b[0]] + b[1..];
      assert multiset(a[1..]) == multiset(a) - multiset{a[0]};
      assert multiset(b[1..]) == multiset(b) - multiset{b[0]};
      OrderIsUnique(a[1..], b[1..]);
    }
  }

  lemma HeadIsLeast(a: seq<string>, b: seq<string>)
    requires InOrder(a) && multiset(a) == multiset(b) && a != [] && b != []
    ensures AtMost(a[0], b[0])
  {
    assert b[0] in multiset(b);
    assert b[0] in a;
    var i :| 0 <= i < |a| && a[i] == b[0];
  }

  lemma BothWays(a: string, b: string)
    requires AtMost(a, b) && AtMost(b, a)
    ensures a == b
  {
    if a != b {
      LessIsTransitive(a, b, a);
      LessIsIrreflexive(a);
    }
  }

  function Join(s: seq<string>): string {
    if s == [] then ""
    else if |s| == 1 then s[0]
    else s[0] + "," + Join(s[1..])
  }

  function Key(roles: seq<string>): string {
    Join(Sorted(roles))
  }

  /** Role names that can be told apart in a key. */
  ghost predicate Plain(roles: seq<string>) {
    forall i :: 0 <= i < |roles| ==> roles[i] != "" && ',' !in roles[i]
  }

  lemma {:induction false} JoinIsInjective(a: seq<string>, b: seq<string>)
    requires Plain(a) && Plain(b) && Join(a) == Join(b)
    ensures a == b
    decreases |a|
  {
    if a == [] {
      JoinedIsNotEmpty(b);
    } else if b == [] {
      JoinedIsNotEmpty(a);
    } else {
      FirstName(a);
      FirstName(b);
      SamePrefix(a[0], b[0], Join(a));
      assert |a| == 1 <==> |b| == 1;
      assert a == [a[0]] + a[1..] && b == [b[0]] + b[1..];
      if |a| > 1 {
        assert Join(a) == a[0] + "," + Join(a[1..]) && Join(b) == b[0] + "," + Join(b[1..]);
        assert Join(a)[|a[0]| + 1..] == Join(a[1..]) && Join(b)[|b[0]| + 1..] == Join(b[1..]);
        JoinIsInjective(a[1..], b[1..]);
      }
    }
  }

  lemma JoinedIsNotEmpty(a: seq<string>)
    requires Plain(a)
    ensures Join(a) == "" <==> a == []
  {
  }

  lemma FirstName(a: seq<string>)
    requires Plain(a) && a != []
    ensures a[0] <= Join(a) && ',' !in a[0]
    ensures if |a| == 1 then |Join(a)| == |a[0]| else |Join(a)| > |a[0]| && Join(a)[|a[0]|] == ','
  {
  }

  lemma CharacterBehind(x: string, y: string, s: string)
    requires x <= s && y <= s
    ensures |x| < |y| ==> s[|x|] in y
  {
    assert |x| < |y| ==> y[|x|] == s[|x|];
  }

  lemma SamePrefix(x: string, y: string, s: string)
    requires x <= s && y <= s && ',' !in x && ',' !in y
    requires |s| > |x| ==> s[|x|] == ','
    requires |s| > |y| ==> s[|y|] == ','
    ensures x == y
  {
    CharacterBehind(x, y, s);
    CharacterBehind(y, x, s);
  }

  /** Lists of plain names share a key iff they are permutations of each other. */
  lemma KeysAgreeIff(a: seq<string>, b: seq<string>)
    requires Plain(a) && Plain(b)
    ensures Key(a) == Key(b) <==> multiset(a) == multiset(b)
  {
    SortedKeeps(a);
    SortedKeeps(b);
    if Key(a) == Key(b) {
      PlainSorted(a);
      PlainSorted(b);
      JoinIsInjective(Sorted(a), Sorted(b));
    }
    if multiset(a) == multiset(b) {
      OrderIsUnique(Sorted(a), Sorted(b));
    }
  }

  lemma PlainSorted(a: seq<string>)
    requires Plain(a)
    ensures Plain(Sorted(a))
  {
    SortedKeeps(a);
    forall i | 0 <= i < |Sorted(a)|
      ensures Sorted(a)[i] != "" && ',' !in Sorted(a)[i]
    {
      assert Sorted(a)[i] in multiset(Sorted(a));
      assert Sorted(a)[i] in a;
    }
  }

  /** With a comma in a name, one role and two others share a key. */
  lemma CommasCollide()
    ensures Key(["a,b"]) == Key(["a", "b"]) && multiset(["a,b"]) != multiset(["a", "b"])
  {
    assert Sorted(["b"]) == ["b"] by {
      assert ["b"][1..] == [];
    }
    assert Less("a", "b");
    assert ["a", "b"][1..] == ["b"];
    assert Sorted(["a", "b"]) == ["a", "b"];
    assert ["a,b"][1..] == [];
    assert Sorted(["a,b"]) == ["a,b"];
    assert ["a", "b"][1..] == ["b"] && Join(["a", "b"]) == "a" + "," + "b";
    assert "a" + "," + "b" == "a,b";
    assert "a" in multiset(["a", "b"]) && "a" !in multiset(["a,b"]);
  }

  // ---------- The resolver ----------

  type Grants = map<string, set<string>>

  /** The union of the permissions of all given roles; an unknown role has none. */
  function Union(db: Grants, roles: seq<string>): set<string> {
    if roles == [] then {}
    else (if roles[0] in db then db[roles[0]] else {}) + Union(db, roles[1..])
  }

  lemma UnionHas(db: Grants, roles: seq<string>, p: string)
    ensures p in Union(db, roles) <==> exists r :: r in roles && r in db && p in db[r]
  {
    if roles != [] {
      UnionHas(db, roles[1..], p);
      assert roles == [roles[0]] + roles[1..];
    }
  }

  ghost predicate SameNames(a: seq<string>, b: seq<string>) {
    forall r :: r in a <==> r in b
  }

  /** The union depends on which roles are named, not on their order or how often. */
  lemma UnionByNames(db: Grants, a: seq<string>, b: seq<string>)
    requires SameNames(a, b)
    ensures Union(db, a) == Union(db, b)
  {
    forall p
      ensures p in Union(db, a) <==> p in Union(db, b)
    {
      UnionHas(db, a, p);
      UnionHas(db, b, p);
    }
  }

  datatype Entry = Entry(permissions: set<string>, storedAt: int)

  type Cache = map<string, Entry>

  predicate Hit(cache: Cache, ttl: int, key: string, now: int) {
    key in cache && now - cache[key].storedAt < ttl
  }

  class DatabasePermissionResolver {
    const ttl: int
    var cache: Cache
    var cacheHits: nat

    constructor (ttl: int)
      ensures this.ttl == ttl && cache == map[] && cacheHits == 0
    {
      this.ttl := ttl;
      cache, cacheHits := map[], 0;
    }

    /** get_permissions_for_roles up to the query: the cached set, or None for a miss. */
    method Lookup(roles: seq<string>, now: int) returns (permissions: Option<set<string>>)
      modifies this
      ensures cache == old(cache)
      ensures permissions == if Hit(cache, ttl, Key(roles), now) then Some(cache[Key(roles)].permissions) else None
      ensures cacheHits == old(cacheHits) + (if permissions.Some? then 1 else 0)
    {
      var key := Key(roles);
      if key in cache && now - cache[key].storedAt < ttl {
        cacheHits := cacheHits + 1;
        return Some(cache[key].permissions);
      }
      permissions := None;
    }

    /** ... and after it: the entry carries the time the call began. */
    method Remember(roles: seq<string>, began: int, permissions: set<string>)
      modifies this`cache
      ensures cache == old(cache)[Key(roles) := Entry(permissions, began)]
    {
      cache := cache[Key(roles) := Entry(permissions, began)];
    }

    method InvalidateCache(roles: Option<seq<string>>)
      modifies this`cache
      ensures cache == Invalidated(old(cache), roles)
      ensures roles.None? ==> cache == map[]
      ensures roles.Some? ==> Key(roles.value) !in cache
      ensures roles.Some? ==> forall key :: key != Key(roles.value) ==>
        (key in cache <==> key in old(cache)) && (key in cache ==> cache[key] == old(cache)[key])
    {
      if roles.None? {
        cache := map[];
      } else {
        cache := cache - {Key(roles.value)};
      }
    }
  }

  function Invalidated(cache: Cache, roles: Option<seq<string>>): Cache {
    if roles.None? then map[] else cache - {Key(roles.value)}
  }

  // ---------- Interleaved calls over a changing database ----------

  /** A call that missed: its roles, when it began, and what its query returned, if it has run. */
  datatype Waiting = Waiting(roles: seq<string>, began: int, read: Option<set<string>>)

  datatype Answer = Answer(roles: seq<string>, began: int, ended: int, permissions: set<string>)

  datatype State = State(cache: Cache, clock: int, waiting: map<nat, Waiting>, answers: seq<Answer>)

  datatype Event =
    | Call(id: nat, roles: seq<string>)
    | Query(id: nat)
    | Return(id: nat)
    | Cancel(id: nat)
    | Invalidate(which: Option<seq<string>>)
    | Tick(elapsed: nat)

  /** dbAt gives the database's grants at every instant. */
  function Step(ttl: int, dbAt: int -> Grants, s: State, ev: Event): State {
    match ev
    case Tick(elapsed) => s.(clock := s.clock + elapsed)
    case Invalidate(which) => s.(cache := Invalidated(s.cache, which))
    case Call(id, roles) =>
      if id in s.waiting then s
      else if Hit(s.cache, ttl, Key(roles), s.clock) then
        s.(answers := s.answers + [Answer(roles, s.clock, s.clock, s.cache[Key(roles)].permissions)])
      else s.(waiting := s.waiting[id := Waiting(roles, s.clock, None)])
    case Query(id) =>
      if id !in s.waiting || s.waiting[id].read.Some? then s
      else s.(waiting := s.waiting[id := s.waiting[id].(read := Some(Union(dbAt(s.clock), s.waiting[id].roles)))])
    case Cancel(id) => s.(waiting := s.waiting - {id})
    case Return(id) =>
      if id !in s.waiting || s.waiting[id].read.None? then s
      else
        var w := s.waiting[id];
        State(s.cache[Key(w.roles) := Entry(w.read.value, w.began)], s.clock, s.waiting - {id},
              s.answers + [Answer(w.roles, w.began, s.clock, w.read.value)])
  }

  function Run(ttl: int, dbAt: int -> Grants, s: State, events: seq<Event>): State {
    if events == [] then s else Step(ttl, dbAt, Run(ttl, dbAt, s, events[..|events| - 1]), events[|events| - 1])
  }

  /** permissions were exactly right for the roles at some instant from `from` to `to`. */
  ghost predicate RightBetween(dbAt: int -> Grants, roles: seq<string>, permissions: set<string>, from: int, to: int) {
    exists t :: from <= t <= to && permissions == Union(dbAt(t), roles)
  }

  /** Lists that share a key name the same roles. */
  ghost predicate Apart(asked: set<seq<string>>) {
    forall a, b :: a in asked && b in asked && Key(a) == Key(b) ==> SameNames(a, b)
  }

  /** The lists of roles a history asks about. */
  ghost function Asked(events: seq<Event>): set<seq<string>> {
    if events == [] then {}
    else Asked(events[..|events| - 1]) + if events[|events| - 1].Call? then {events[|events| - 1].roles} else {}
  }

  ghost predicate EntryOk(asked: set<seq<string>>, dbAt: int -> Grants, key: string, entry: Entry, from: int, clock: int) {
    exists roles :: roles in asked && Key(roles) == key && RightBetween(dbAt, roles, entry.permissions, from, clock)
  }

  /** Answers are right at an instant less than ttl before the call began, or during it. */
  ghost predicate AnswerOk(ttl: int, dbAt: int -> Grants, a: Answer) {
    RightBetween(dbAt, a.roles, a.permissions, a.began, a.ended)
    || RightBetween(dbAt, a.roles, a.permissions, a.began - ttl + 1, a.ended)
  }

  ghost predicate WaitingOk(asked: set<seq<string>>, dbAt: int -> Grants, w: Waiting, clock: int) {
    && w.roles in asked && w.began <= clock
    && (w.read.Some? ==> RightBetween(dbAt, w.roles, w.read.value, w.began, clock))
  }

  ghost predicate Inv(ttl: int, asked: set<seq<string>>, dbAt: int -> Grants, s: State) {
    && (forall k :: k in s.cache ==> EntryOk(asked, dbAt, k, s.cache[k], s.cache[k].storedAt, s.clock))
    && (forall id :: id in s.waiting ==> WaitingOk(asked, dbAt, s.waiting[id], s.clock))
    && (forall i :: 0 <= i < |s.answers| ==> AnswerOk(ttl, dbAt, s.answers[i]))
  }

  lemma EntryOkLater(asked: set<seq<string>>, dbAt: int -> Grants, key: string, entry: Entry, from: int, clock: int, later: int)
    requires EntryOk(asked, dbAt, key, entry, from, clock) && clock <= later
    ensures EntryOk(asked, dbAt, key, entry, from, later)
  {
    var roles :| roles in asked && Key(roles) == key && RightBetween(dbAt, roles, entry.permissions, from, clock);
    assert RightBetween(dbAt, roles, entry.permissions, from, later);
  }

  /** A hit: whoever filled the entry asked for the same names. */
  lemma HitIsRight(asked: set<seq<string>>, dbAt: int -> Grants, entry: Entry, roles: seq<string>, from: int, clock: int)
    requires Apart(asked) && roles in asked && EntryOk(asked, dbAt, Key(roles), entry, from, clock)
    ensures RightBetween(dbAt, roles, entry.permissions, from, clock)
  {
    var other :| other in asked && Key(other) == Key(roles) && RightBetween(dbAt, other, entry.permissions, from, clock);
    var t :| from <= t <= clock && entry.permissions == Union(dbAt(t), other);
    UnionByNames(dbAt(t), other, roles);
  }

  lemma NotFromTheFuture(asked: set<seq<string>>, dbAt: int -> Grants, key: string, entry: Entry, clock: int)
    requires EntryOk(asked, dbAt, key, entry, entry.storedAt, clock)
    ensures entry.storedAt <= clock
  {
    hide Union, Key;
  }

  lemma HitAnswerOk(ttl: int, asked: set<seq<string>>, dbAt: int -> Grants, cache: Cache, roles: seq<string>, clock: int)
    requires Apart(asked) && roles in asked && Hit(cache, ttl, Key(roles), clock)
    requires EntryOk(asked, dbAt, Key(roles), cache[Key(roles)], cache[Key(roles)].storedAt, clock)
    ensures AnswerOk(ttl, dbAt, Answer(roles, clock, clock, cache[Key(roles)].permissions))
  {
    hide Union, Key;
    HitIsRight(asked, dbAt, cache[Key(roles)], roles, cache[Key(roles)].storedAt, clock);
  }

  lemma StepKeepsInv(ttl: int, asked: set<seq<string>>, dbAt: int -> Grants, s: State, ev: Event)
    requires (ttl > 0 ==> Apart(asked)) && Inv(ttl, asked, dbAt, s) && (ev.Call? ==> ev.roles in asked)
    ensures Inv(ttl, asked, dbAt, Step(ttl, dbAt, s, ev))
  {
    hide Key, Union, EntryOk, AnswerOk, RightBetween, Apart;
    match ev
    case Tick(elapsed) => TickKeepsInv(ttl, asked, dbAt, s, elapsed);
    case Invalidate(which) =>
    case Cancel(id) =>
    case Call(id, roles) =>
      if id !in s.waiting && Hit(s.cache, ttl, Key(roles), s.clock) {
        NotFromTheFuture(asked, dbAt, Key(roles), s.cache[Key(roles)], s.clock);
        HitAnswerOk(ttl, asked, dbAt, s.cache, roles, s.clock);
      }
    case Query(id) =>
      if id in s.waiting {
        assert WaitingOk(asked, dbAt, s.waiting[id], s.clock);
        ReadNow(asked, dbAt, s.waiting[id], s.clock);
      }
    case Return(id) =>
      if id in s.waiting && s.waiting[id].read.Some? {
        assert WaitingOk(asked, dbAt, s.waiting[id], s.clock);
        ReturnedOk(ttl, asked, dbAt, s.waiting[id], s.clock);
      }
  }

  lemma TickKeepsInv(ttl: int, asked: set<seq<string>>, dbAt: int -> Grants, s: State, elapsed: nat)
    requires Inv(ttl, asked, dbAt, s)
    ensures Inv(ttl, asked, dbAt, s.(clock := s.clock + elapsed))
  {
    hide EntryOk, AnswerOk, Union;
    forall k | k in s.cache
      ensures EntryOk(asked, dbAt, k, s.cache[k], s.cache[k].storedAt, s.clock + elapsed)
    {
      EntryOkLater(asked, dbAt, k, s.cache[k], s.cache[k].storedAt, s.clock, s.clock + elapsed);
    }
  }

  lemma ReadNow(asked: set<seq<string>>, dbAt: int -> Grants, w: Waiting, clock: int)
    requires WaitingOk(asked, dbAt, w, clock)
    ensures WaitingOk(asked, dbAt, w.(read := Some(Union(dbAt(clock), w.roles))), clock)
  {
    hide Union;
    assert RightBetween(dbAt, w.roles, Union(dbAt(clock), w.roles), w.began, clock);
  }

  lemma ReturnedOk(ttl: int, asked: set<seq<string>>, dbAt: int -> Grants, w: Waiting, clock: int)
    requires WaitingOk(asked, dbAt, w, clock) && w.read.Some?
    ensures EntryOk(asked, dbAt, Key(w.roles), Entry(w.read.value, w.began), w.began, clock)
    ensures AnswerOk(ttl, dbAt, Answer(w.roles, w.began, clock, w.read.value))
  {
    hide Union, Key;
  }

  function Start(clock: int): State {
    State(map[], clock, map[], [])
  }

  /** Every answer to a history that asks for these lists only is right less than ttl before the call, or during it. */
  ghost predicate AlwaysBounded(ttl: int, asked: set<seq<string>>) {
    forall dbAt: int -> Grants, start: int, events: seq<Event> :: Asked(events) <= asked ==>
      AllAnswersOk(ttl, dbAt, Run(ttl, dbAt, Start(start), events))
  }

  ghost predicate AllAnswersOk(ttl: int, dbAt: int -> Grants, s: State) {
    forall i :: 0 <= i < |s.answers| ==> AnswerOk(ttl, dbAt, s.answers[i])
  }

  /**
   Bounded staleness: over every database and however calls, invalidations, cancellations and
   database changes interleave, every answer is what the database granted those roles at some
   instant during the call or less than ttl before it, iff lists asked for that share a key name
   the same roles, or the ttl is not positive, so that nothing is served from the cache.
   */
  lemma StalenessIsBoundedIff(ttl: int, asked: set<seq<string>>)
    ensures AlwaysBounded(ttl, asked) <==> ttl <= 0 || Apart(asked)
  {
    hide Key, Union, Run, AllAnswersOk, Asked;
    if ttl <= 0 || Apart(asked) {
      forall dbAt: int -> Grants, start: int, events: seq<Event> | Asked(events) <= asked
        ensures AllAnswersOk(ttl, dbAt, Run(ttl, dbAt, Start(start), events))
      {
        StalenessIsBounded(ttl, asked, dbAt, start, events);
      }
    } else {
      var a, b :| a in asked && b in asked && Key(a) == Key(b) && !SameNames(a, b);
      if r :| r in a && r !in b {
        CollidingListsAnswerWrong(ttl, asked, a, b, r);
      } else {
        var r :| r in b && r !in a;
        CollidingListsAnswerWrong(ttl, asked, b, a, r);
      }
    }
  }

  lemma StalenessIsBounded(ttl: int, asked: set<seq<string>>, dbAt: int -> Grants, start: int, events: seq<Event>)
    requires (ttl > 0 ==> Apart(asked)) && Asked(events) <= asked
    ensures AllAnswersOk(ttl, dbAt, Run(ttl, dbAt, Start(start), events))
  {
    hide Run, AnswerOk, Apart;
    RunKeepsInv(ttl, asked, dbAt, start, events);
  }

  lemma {:induction false} RunKeepsInv(ttl: int, asked: set<seq<string>>, dbAt: int -> Grants, start: int, events: seq<Event>)
    requires (ttl > 0 ==> Apart(asked)) && Asked(events) <= asked
    ensures Inv(ttl, asked, dbAt, Run(ttl, dbAt, Start(start), events))
  {
    hide Step, Inv, Apart;
    if events == [] {
      EmptyInv(ttl, asked, dbAt, start);
    } else {
      var front := events[..|events| - 1];
      RunKeepsInv(ttl, asked, dbAt, start, front);
      StepKeepsInv(ttl, asked, dbAt, Run(ttl, dbAt, Start(start), front), events[|events| - 1]);
    }
  }

  lemma EmptyInv(ttl: int, asked: set<seq<string>>, dbAt: int -> Grants, start: int)
    ensures Inv(ttl, asked, dbAt, Start(start))
  {
  }

  /** Role names that are not empty and hold no comma never share a key by accident. */
  lemma PlainListsAreApart(asked: set<seq<string>>)
    requires forall roles :: roles in asked ==> Plain(roles)
    ensures Apart(asked)
  {
    hide Key, Plain;
    forall a, b | a in asked && b in asked && Key(a) == Key(b)
      ensures SameNames(a, b)
    {
      KeysAgreeIff(a, b);
      assert forall r :: (r in a <==> r in multiset(a)) && (r in b <==> r in multiset(b));
    }
  }

  /** One permission, granted to one role, at every instant. */
  function GrantedTo(r: string, t: int): Grants {
    map[r := {"p"}]
  }

  /** Where only the first of two lists that share a key names the role, the second is answered with its permission. */
  lemma CollidingListsAnswerWrong(ttl: int, asked: set<seq<string>>, a: seq<string>, b: seq<string>, r: string)
    requires ttl > 0 && a in asked && b in asked && Key(a) == Key(b) && r in a && r !in b
    ensures var events := [Call(0, a), Query(0), Return(0), Call(1, b)];
      var s := Run(ttl, t => GrantedTo(r, t), Start(0), events);
      && Asked(events) <= asked
      && s.answers == [Answer(a, 0, 0, {"p"}), Answer(b, 0, 0, {"p"})]
      && (forall t :: Union(GrantedTo(r, t), b) == {})
      && !AllAnswersOk(ttl, t => GrantedTo(r, t), s)
    ensures !AlwaysBounded(ttl, asked)
  {
    hide Key, Union, Run, Asked;
    var dbAt := t => GrantedTo(r, t);
    var events := [Call(0, a), Query(0), Return(0), Call(1, b)];
    RunOfFour(ttl, dbAt, Start(0), Call(0, a), Query(0), Return(0), Call(1, b));
    AskedOfFour(Call(0, a), Query(0), Return(0), Call(1, b));
    forall t
      ensures Union(GrantedTo(r, t), a) == {"p"} && Union(GrantedTo(r, t), b) == {}
    {
      GrantedToNamed(r, t, a);
      GrantedToNamed(r, t, b);
    }
    var s := Run(ttl, dbAt, Start(0), events);
    assert !AnswerOk(ttl, dbAt, s.answers[1]);
  }

  lemma GrantedToNamed(r: string, t: int, roles: seq<string>)
    ensures Union(GrantedTo(r, t), roles) == if r in roles then {"p"} else {}
  {
    forall p
      ensures p in Union(GrantedTo(r, t), roles) <==> p == "p" && r in roles
    {
      UnionHas(GrantedTo(r, t), roles, p);
    }
  }

  lemma AskedOfFour(a: Event, b: Event, c: Event, d: Event)
    requires a.Call? && !b.Call? && !c.Call? && d.Call?
    ensures Asked([a, b, c, d]) == {a.roles, d.roles}
  {
    assert [a, b, c, d][..3] == [a, b, c] && [a, b, c][..2] == [a, b] && [a, b][..1] == [a] && [a][..0] == [];
    assert Asked([a]) == {a.roles};
    assert Asked([a, b]) == {a.roles};
    assert Asked([a, b, c]) == {a.roles};
  }

  lemma RunOfTwo(ttl: int, dbAt: int -> Grants, s: State, a: Event, b: Event)
    ensures Run(ttl, dbAt, s, [a, b]) == Step(ttl, dbAt, Step(ttl, dbAt, s, a), b)
  {
    hide Step;
    assert [a, b][..1] == [a] && [a][..0] == [];
    assert Run(ttl, dbAt, s, [a]) == Step(ttl, dbAt, s, a);
  }

  lemma RunOfFour(ttl: int, dbAt: int -> Grants, s: State, a: Event, b: Event, c: Event, d: Event)
    ensures Run(ttl, dbAt, s, [a, b, c, d])
         == Step(ttl, dbAt, Step(ttl, dbAt, Step(ttl, dbAt, Step(ttl, dbAt, s, a), b), c), d)
  {
    hide Step;
    RunOfTwo(ttl, dbAt, s, a, b);
    assert [a, b, c, d][..3] == [a, b, c] && [a, b, c][..2] == [a, b];
  }

  // ---------- What an invalidation achieves ----------

  predicate Covers(which: Option<seq<string>>, key: string) {
    which.None? || Key(which.value) == key
  }

  /** No call under way has read grants that have changed since and would still be served from the cache. */
  ghost predicate NoStaleReads(ttl: int, dbAt: int -> Grants, s: State, key: string) {
    forall id :: id in s.waiting && Key(s.waiting[id].roles) == key && s.waiting[id].read.Some?
                 && s.clock - s.waiting[id].began < ttl ==>
      s.waiting[id].read.value == Union(dbAt(s.clock), s.waiting[id].roles)
  }

  /** From the n-th answer on, calls for the key that began at `from` or later are right at an instant since `from`. */
  ghost predicate FreshFrom(dbAt: int -> Grants, answers: seq<Answer>, n: nat, key: string, from: int) {
    forall i :: n <= i < |answers| && Key(answers[i].roles) == key && answers[i].began >= from ==>
      RightBetween(dbAt, answers[i].roles, answers[i].permissions, from, answers[i].ended)
  }

  ghost predicate AlwaysFresh(ttl: int, asked: set<seq<string>>, dbAt: int -> Grants, s: State, n: nat, key: string, from: int) {
    forall events :: Asked(events) <= asked ==> FreshFrom(dbAt, Run(ttl, dbAt, s, events).answers, n, key, from)
  }

  /** Invalidating one list of roles leaves every other list served as before, and calls under way as they are. */
  lemma InvalidationSparesOthers(ttl: int, dbAt: int -> Grants, s: State, roles: seq<string>, other: seq<string>)
    requires Key(other) != Key(roles)
    ensures var t := Step(ttl, dbAt, s, Invalidate(Some(roles)));
      && t.waiting == s.waiting && t.answers == s.answers
      && (Key(other) in t.cache <==> Key(other) in s.cache)
      && (Key(other) in s.cache ==> t.cache[Key(other)] == s.cache[Key(other)])
  {
    hide Key;
  }

  /**
   After an invalidation every later call for those roles is answered with grants read since, whatever
   happens next, iff at that moment no call under way held grants that had changed in the meantime.
   */
  lemma InvalidationHoldsIff(ttl: int, asked: set<seq<string>>, dbAt: int -> Grants, s: State, which: Option<seq<string>>, key: string)
    requires Apart(asked) && Inv(ttl, asked, dbAt, s) && Covers(which, key)
    ensures AlwaysFresh(ttl, asked, dbAt, Step(ttl, dbAt, s, Invalidate(which)), |s.answers|, key, s.clock)
       <==> NoStaleReads(ttl, dbAt, s, key)
  {
    hide Union, Key, Run, Step, RightBetween, FreshFrom, Apart, Inv;
    var s1 := Step(ttl, dbAt, s, Invalidate(which));
    if NoStaleReads(ttl, dbAt, s, key) {
      forall events | Asked(events) <= asked
        ensures FreshFrom(dbAt, Run(ttl, dbAt, s1, events).answers, |s.answers|, key, s.clock)
      {
        InvalidationHolds(ttl, asked, dbAt, s, which, key, events);
      }
    } else {
      var id :| id in s.waiting && Key(s.waiting[id].roles) == key && s.waiting[id].read.Some?
                && s.clock - s.waiting[id].began < ttl
                && s.waiting[id].read.value != Union(dbAt(s.clock), s.waiting[id].roles);
      StaleReadIsServed(ttl, asked, dbAt, s, which, key, id);
    }
  }

  /** The query under way fills the cache after the invalidation, and the next call is served from it. */
  lemma StaleReadIsServed(ttl: int, asked: set<seq<string>>, dbAt: int -> Grants, s: State, which: Option<seq<string>>, key: string, id: nat)
    requires Inv(ttl, asked, dbAt, s) && id in s.waiting && Key(s.waiting[id].roles) == key && s.waiting[id].read.Some?
    requires s.clock - s.waiting[id].began < ttl
    requires s.waiting[id].read.value != Union(dbAt(s.clock), s.waiting[id].roles)
    ensures var events := [Return(id), Call(id, s.waiting[id].roles)];
      && Asked(events) <= asked
      && !FreshFrom(dbAt, Run(ttl, dbAt, Step(ttl, dbAt, s, Invalidate(which)), events).answers, |s.answers|, key, s.clock)
  {
    hide Union, Key, EntryOk, AnswerOk;
    var w := s.waiting[id];
    assert WaitingOk(asked, dbAt, w, s.clock);
    var events := [Return(id), Call(id, w.roles)];
    AskedOfTwo(Return(id), Call(id, w.roles));
    var s1 := Step(ttl, dbAt, s, Invalidate(which));
    RunOfTwo(ttl, dbAt, s1, Return(id), Call(id, w.roles));
    var t := Run(ttl, dbAt, s1, events);
    var i := |s.answers| + 1;
    assert t.answers[i] == Answer(w.roles, s.clock, s.clock, w.read.value);
  }

  lemma AskedOfTwo(a: Event, b: Event)
    requires !a.Call? && b.Call?
    ensures Asked([a, b]) == {b.roles}
  {
    assert [a, b][..1] == [a] && [a][..0] == [];
    assert Asked([a]) == {};
  }

  /** The key's entry, reads and answers are right since `from`, or too old to be served. */
  ghost predicate Since(ttl: int, asked: set<seq<string>>, dbAt: int -> Grants, s: State, n: nat, key: string, from: int) {
    && from <= s.clock
    && (key in s.cache ==>
          EntryOk(asked, dbAt, key, s.cache[key], from, s.clock) || s.clock - s.cache[key].storedAt >= ttl)
    && (forall id :: id in s.waiting ==> s.waiting[id].roles in asked)
    && (forall id :: id in s.waiting && Key(s.waiting[id].roles) == key && s.waiting[id].read.Some? ==>
          ReadSince(ttl, dbAt, s.waiting[id], from, s.clock))
    && n <= |s.answers| && FreshFrom(dbAt, s.answers, n, key, from)
  }

  ghost predicate ReadSince(ttl: int, dbAt: int -> Grants, w: Waiting, from: int, clock: int)
    requires w.read.Some?
  {
    RightBetween(dbAt, w.roles, w.read.value, from, clock) || (w.began < from && clock - w.began >= ttl)
  }

  lemma InvalidationHolds(ttl: int, asked: set<seq<string>>, dbAt: int -> Grants, s: State, which: Option<seq<string>>, key: string, events: seq<Event>)
    requires Apart(asked) && Inv(ttl, asked, dbAt, s) && Covers(which, key) && NoStaleReads(ttl, dbAt, s, key) && Asked(events) <= asked
    ensures FreshFrom(dbAt, Run(ttl, dbAt, Step(ttl, dbAt, s, Invalidate(which)), events).answers, |s.answers|, key, s.clock)
  {
    hide Run, Step, Inv, NoStaleReads, Covers, Apart, FreshFrom;
    SinceAtInvalidation(ttl, asked, dbAt, s, which, key);
    RunKeepsSince(ttl, asked, dbAt, Step(ttl, dbAt, s, Invalidate(which)), |s.answers|, key, s.clock, events);
  }

  lemma SinceAtInvalidation(ttl: int, asked: set<seq<string>>, dbAt: int -> Grants, s: State, which: Option<seq<string>>, key: string)
    requires Inv(ttl, asked, dbAt, s) && Covers(which, key) && NoStaleReads(ttl, dbAt, s, key)
    ensures Since(ttl, asked, dbAt, Step(ttl, dbAt, s, Invalidate(which)), |s.answers|, key, s.clock)
  {
    hide Union, Key, EntryOk, AnswerOk;
    forall id | id in s.waiting && Key(s.waiting[id].roles) == key && s.waiting[id].read.Some?
      ensures ReadSince(ttl, dbAt, s.waiting[id], s.clock, s.clock)
    {
      assert WaitingOk(asked, dbAt, s.waiting[id], s.clock);
    }
  }

  lemma {:induction false} RunKeepsSince(ttl: int, asked: set<seq<string>>, dbAt: int -> Grants, s: State, n: nat, key: string, from: int, events: seq<Event>)
    requires Apart(asked) && Since(ttl, asked, dbAt, s, n, key, from) && Asked(events) <= asked
    ensures Since(ttl, asked, dbAt, Run(ttl, dbAt, s, events), n, key, from)
  {
    hide Step, Since, Apart;
    if events != [] {
      var front := events[..|events| - 1];
      RunKeepsSince(ttl, asked, dbAt, s, n, key, from, front);
      StepKeepsSince(ttl, asked, dbAt, Run(ttl, dbAt, s, front), n, key, from, events[|events| - 1]);
    }
  }

  lemma StepKeepsSince(ttl: int, asked: set<seq<string>>, dbAt: int -> Grants, s: State, n: nat, key: string, from: int, ev: Event)
    requires Apart(asked) && Since(ttl, asked, dbAt, s, n, key, from) && (ev.Call? ==> ev.roles in asked)
    ensures Since(ttl, asked, dbAt, Step(ttl, dbAt, s, ev), n, key, from)
  {
    hide Key, Union, EntryOk, RightBetween, Apart;
    match ev
    case Tick(elapsed) => TickKeepsSince(ttl, asked, dbAt, s, n, key, from, elapsed);
    case Invalidate(which) =>
    case Cancel(id) =>
    case Call(id, roles) =>
      if id !in s.waiting && Hit(s.cache, ttl, Key(roles), s.clock) && Key(roles) == key {
        HitIsRight(asked, dbAt, s.cache[key], roles, from, s.clock);
      }
    case Query(id) =>
      if id in s.waiting {
        NowIsRight(dbAt, s.waiting[id].roles, from, s.clock);
      }
    case Return(id) =>
      if id in s.waiting && s.waiting[id].read.Some? && Key(s.waiting[id].roles) == key {
        ReturnKeepsSince(ttl, asked, dbAt, s, n, key, from, id);
      }
  }

  lemma NowIsRight(dbAt: int -> Grants, roles: seq<string>, from: int, clock: int)
    requires from <= clock
    ensures RightBetween(dbAt, roles, Union(dbAt(clock), roles), from, clock)
  {
    hide Union;
  }

  lemma ReturnKeepsSince(ttl: int, asked: set<seq<string>>, dbAt: int -> Grants, s: State, n: nat, key: string, from: int, id: nat)
    requires Since(ttl, asked, dbAt, s, n, key, from)
    requires id in s.waiting && s.waiting[id].read.Some? && Key(s.waiting[id].roles) == key
    ensures Since(ttl, asked, dbAt, Step(ttl, dbAt, s, Return(id)), n, key, from)
  {
    hide Key, Union, RightBetween;
    var w := s.waiting[id];
    assert ReadSince(ttl, dbAt, w, from, s.clock);
    if RightBetween(dbAt, w.roles, w.read.value, from, s.clock) {
      assert EntryOk(asked, dbAt, key, Entry(w.read.value, w.began), from, s.clock);
    }
  }

  lemma TickKeepsSince(ttl: int, asked: set<seq<string>>, dbAt: int -> Grants, s: State, n: nat, key: string, from: int, elapsed: nat)
    requires Since(ttl, asked, dbAt, s, n, key, from)
    ensures Since(ttl, asked, dbAt, s.(clock := s.clock + elapsed), n, key, from)
  {
    hide EntryOk, Union, Key;
    if key in s.cache && EntryOk(asked, dbAt, key, s.cache[key], from, s.clock) {
      EntryOkLater(asked, dbAt, key, s.cache[key], from, s.clock, s.clock + elapsed);
    }
    forall id | id in s.waiting && Key(s.waiting[id].roles) == key && s.waiting[id].read.Some?
      ensures ReadSince(ttl, dbAt, s.waiting[id], from, s.clock + elapsed)
    {
      assert ReadSince(ttl, dbAt, s.waiting[id], from, s.clock);
    }
  }

  /** One role, whose permission is revoked at instant 1. */
  function RevokedAtOne(t: int): Grants {
    if t < 1 then map["r" := {"p"}] else map["r" := {}]
  }

  /** The revoked permission is served after the invalidation that was to end it. */
  lemma RevokedPermissionIsServed(ttl: int)
    requires ttl > 1
    ensures var before := Run(ttl, RevokedAtOne, Start(0), [Call(0, ["r"]), Query(0), Tick(1), Invalidate(None)]);
      var after := Run(ttl, RevokedAtOne, before, [Return(0), Call(1, ["r"])]);
      && before.answers == [] && before.clock == 1
      && |after.answers| == 2 && after.answers[1] == Answer(["r"], 1, 1, {"p"})
      && forall t :: t >= 1 ==> Union(RevokedAtOne(t), ["r"]) == {}
  {
    RunOfFour(ttl, RevokedAtOne, Start(0), Call(0, ["r"]), Query(0), Tick(1), Invalidate(None));
    var before := Run(ttl, RevokedAtOne, Start(0), [Call(0, ["r"]), Query(0), Tick(1), Invalidate(None)]);
    RunOfTwo(ttl, RevokedAtOne, before, Return(0), Call(1, ["r"]));
    assert ["r"][1..] == [];
    assert Union(RevokedAtOne(0), ["r"]) == {"p"};
    hide Key;
  }
}
