/**
 The versioned cache in front of the public station search. Readers take four separate
 steps (read the version, look up, query the database, store) and writers two (commit,
 then advance the version), in any interleaving; a step may also never come.
 Every answer is the query on a catalogue at least as new as every update whose
 invalidation had finished when the reader read the version.
 */
module SearchCache {
  import opened Wrappers

  type Id = int
  // A validated search, a committed content of the station tables, and a page of results.
  type Query = int
  type Catalogue = int
  type Page = int

  /******* Keys *******/

  const VERSION_KEY := "chargemate:stations:search:version"
  const KEY_PREFIX := "chargemate:stations:search"
  const DIGEST_LENGTH := 64

  function Decimal(n: nat): string {
    (if n < 10 then "" else Decimal(n / 10)) + [((n % 10) + '0' as int) as char]
  }

  function Parsed(s: string): int {
    if s == "" then 0 else 10 * Parsed(s[..|s| - 1]) + (s[|s| - 1] as int - '0' as int)
  }

  lemma {:induction false} DecimalParses(n: nat)
    ensures Parsed(Decimal(n)) == n
  {
    if n >= 10 {
      DecimalParses(n / 10);
      assert Decimal(n)[..|Decimal(n)| - 1] == Decimal(n / 10);
    } else {
      assert Decimal(n)[..0] == "";
    }
  }

  // The hex SHA-256 digest of the canonical query.
  ghost predicate IsDigest(digest: Query -> string) {
    && (forall q :: |digest(q)| == DIGEST_LENGTH)
    && (forall p, q :: digest(p) == digest(q) ==> p == q)
  }

  function BuildCacheKey(digest: Query -> string, q: Query, version: string): string {
    KEY_PREFIX + ":v" + version + ":" + digest(q)
  }

  function Key(digest: Query -> string, q: Query, version: nat): string {
    BuildCacheKey(digest, q, Decimal(version))
  }

  lemma SuffixesAgree(a: string, b: string, c: string, d: string)
    requires a + b == c + d && |b| == |d|
    ensures a == c && b == d
  {
    assert a == (a + b)[..|a|] && c == (c + d)[..|c|];
    assert b == (a + b)[|a|..] && d == (c + d)[|c|..];
  }

  // One key per query and version, and none of them is the key of the version counter.
  lemma KeysAreDistinct(digest: Query -> string, p: Query, u: nat, q: Query, v: nat)
    requires IsDigest(digest)
    ensures Key(digest, p, u) == Key(digest, q, v) <==> p == q && u == v
    ensures Key(digest, q, v) != VERSION_KEY
  {
    var head := KEY_PREFIX + ":v";
    if Key(digest, p, u) == Key(digest, q, v) {
      SuffixesAgree(head + Decimal(u) + ":", digest(p), head + Decimal(v) + ":", digest(q));
      SuffixesAgree(head + Decimal(u), ":", head + Decimal(v), ":");
      assert Decimal(u) == (head + Decimal(u))[|head|..];
      assert Decimal(v) == (head + Decimal(v))[|head|..];
      DecimalParses(u);
      DecimalParses(v);
    }
    assert |Key(digest, q, v)| > |VERSION_KEY|;
  }

  /******* Redis *******/

  datatype Value = Counter(n: nat) | Json(page: Page)
  type Redis = map<string, Value>

  // GET version, or "0".
  function VersionIn(redis: Redis): nat {
    if VERSION_KEY in redis && redis[VERSION_KEY].Counter? then redis[VERSION_KEY].n else 0
  }

  function LookIn(redis: Redis, key: string): Option<Page> {
    if key in redis && redis[key].Json? then Some(redis[key].page) else None
  }

  function Stored(redis: Redis, key: string, page: Page): Redis {
    redis[key := Json(page)]
  }

  function Advanced(redis: Redis): Redis {
    redis[VERSION_KEY := Counter(VersionIn(redis) + 1)]
  }

  /******* Readers and writers *******/

  // find_public_stations on one snapshot, and the digest of a query.
  datatype Search = Search(find: (Catalogue, Query) -> Page, digest: Query -> string)

  datatype Reader =
    | Keyed(query: Query, version: nat)
    | Missed(query: Query, version: nat)
    | Holding(query: Query, version: nat, page: Page)

  // history holds every committed catalogue, writers the commits still to be announced.
  datatype World = World(history: seq<Catalogue>, redis: Redis, readers: map<Id, Reader>, writers: map<Id, nat>)

  datatype Step =
    | ReadVersion(reader: Id, query: Query)
    | LookUp(reader: Id)
    | QueryDatabase(reader: Id)
    | StorePage(reader: Id)
    | GiveUp(reader: Id)
    | CommitChange(writer: Id, catalogue: Catalogue)
    | Invalidate(writer: Id)
    // Expiry, eviction or loss.
    | Lose(key: string)

  function Initial(catalogue: Catalogue): World {
    World([catalogue], map[], map[], map[])
  }

  function KeyOf(f: Search, r: Reader): string {
    Key(f.digest, r.query, r.version)
  }

  function Next(f: Search, w: World, a: Step): World {
    match a
    case ReadVersion(r, q) =>
      if r in w.readers then w else w.(readers := w.readers[r := Keyed(q, VersionIn(w.redis))])
    case LookUp(r) =>
      if r !in w.readers || !w.readers[r].Keyed? then w
      else
        var x := w.readers[r];
        if LookIn(w.redis, KeyOf(f, x)).Some? then w.(readers := w.readers - {r})
        else w.(readers := w.readers[r := Missed(x.query, x.version)])
    case QueryDatabase(r) =>
      if r !in w.readers || !w.readers[r].Missed? || w.history == [] then w
      else
        var x := w.readers[r];
        w.(readers := w.readers[r := Holding(x.query, x.version, f.find(w.history[|w.history| - 1], x.query))])
    case StorePage(r) =>
      if r !in w.readers || !w.readers[r].Holding? then w
      else
        var x := w.readers[r];
        w.(redis := Stored(w.redis, KeyOf(f, x), x.page), readers := w.readers - {r})
    case GiveUp(r) => w.(readers := w.readers - {r})
    case CommitChange(writer, c) =>
      if writer in w.writers then w
      else w.(history := w.history + [c], writers := w.writers[writer := |w.history|])
    case Invalidate(writer) =>
      if writer !in w.writers then w
      else w.(redis := Advanced(w.redis), writers := w.writers - {writer})
    case Lose(key) => w.(redis := w.redis - {key})
  }

  // What step a tells the client of reader r: the cached page, or the page just queried.
  function Answer(f: Search, w: World, a: Step, r: Id): Option<Page> {
    if r !in w.readers then None
    else if a == LookUp(r) && w.readers[r].Keyed? then LookIn(w.redis, KeyOf(f, w.readers[r]))
    else if a == QueryDatabase(r) && w.readers[r].Missed? && w.history != []
    then Some(f.find(w.history[|w.history| - 1], w.readers[r].query))
    else None
  }

  function Run(f: Search, w: World, acts: seq<Step>): World {
    if acts == [] then w else Next(f, Run(f, w, acts[..|acts| - 1]), acts[|acts| - 1])
  }

  lemma RunNext(f: Search, w: World, acts: seq<Step>, i: nat)
    requires i < |acts|
    ensures Run(f, w, acts[..i + 1]) == Next(f, Run(f, w, acts[..i]), acts[i])
  {
    assert acts[..i + 1][..i] == acts[..i];
  }

  /******* What a version promises *******/

  // Entry v is the newest commit whose invalidation had finished when the version became v.
  function Floors(f: Search, w: World, acts: seq<Step>): seq<nat> {
    if acts == [] then [0]
    else
      var before := Floors(f, w, acts[..|acts| - 1]);
      FloorsAfter(before, Run(f, w, acts[..|acts| - 1]), acts[|acts| - 1])
  }

  function FloorsAfter(floors: seq<nat>, w: World, a: Step): seq<nat> {
    if a.Invalidate? && a.writer in w.writers
    then floors + [Max(if floors == [] then 0 else floors[|floors| - 1], w.writers[a.writer])]
    else floors
  }

  function Max(x: nat, y: nat): nat {
    if x < y then y else x
  }

  // The page answers the query on a catalogue no older than the floor.
  ghost predicate FreshFrom(f: Search, history: seq<Catalogue>, floor: nat, q: Query, page: Page) {
    exists i :: floor <= i < |history| && page == f.find(history[i], q)
  }

  ghost predicate FreshEntries(f: Search, w: World, floors: seq<nat>) {
    forall q, v: nat | Key(f.digest, q, v) in w.redis ::
      && v < |floors|
      && w.redis[Key(f.digest, q, v)].Json?
      && FreshFrom(f, w.history, floors[v], q, w.redis[Key(f.digest, q, v)].page)
  }

  ghost predicate FreshReaders(f: Search, w: World, floors: seq<nat>) {
    forall r | r in w.readers ::
      && w.readers[r].version < |floors|
      && (w.readers[r].Holding? ==>
            FreshFrom(f, w.history, floors[w.readers[r].version], w.readers[r].query, w.readers[r].page))
  }

  ghost predicate FloorsRise(w: World, floors: seq<nat>) {
    && |floors| == VersionIn(w.redis) + 1
    && (VERSION_KEY in w.redis ==> w.redis[VERSION_KEY].Counter?)
    && (forall u, v | 0 <= u <= v < |floors| :: floors[u] <= floors[v])
    && (forall v | 0 <= v < |floors| :: floors[v] < |w.history|)
    && (forall x | x in w.writers :: w.writers[x] < |w.history|)
  }

  ghost predicate Coherent(f: Search, w: World, floors: seq<nat>) {
    FloorsRise(w, floors) && FreshEntries(f, w, floors) && FreshReaders(f, w, floors)
  }

  lemma StillFresh(f: Search, history: seq<Catalogue>, c: Catalogue, floor: nat, q: Query, page: Page)
    requires FreshFrom(f, history, floor, q, page)
    ensures FreshFrom(f, history + [c], floor, q, page)
  {
    var i :| floor <= i < |history| && page == f.find(history[i], q);
    assert (history + [c])[i] == history[i];
  }

  lemma StoringKeepsEntries(f: Search, w: World, r: Id, floors: seq<nat>)
    requires IsDigest(f.digest) && Coherent(f, w, floors)
    requires r in w.readers && w.readers[r].Holding?
    ensures Coherent(f, Next(f, w, StorePage(r)), floors)
  {
    var x := w.readers[r];
    forall q, v: nat
      ensures Key(f.digest, q, v) == KeyOf(f, x) ==> q == x.query && v == x.version
      ensures KeyOf(f, x) != VERSION_KEY
    {
      KeysAreDistinct(f.digest, q, v, x.query, x.version);
    }
  }

  lemma InvalidatingStaysCoherent(f: Search, w: World, writer: Id, floors: seq<nat>)
    requires IsDigest(f.digest) && Coherent(f, w, floors)
    ensures Coherent(f, Next(f, w, Invalidate(writer)), FloorsAfter(floors, w, Invalidate(writer)))
  {
  }

  lemma CommittingStaysCoherent(f: Search, w: World, writer: Id, c: Catalogue, floors: seq<nat>)
    requires Coherent(f, w, floors)
    ensures Coherent(f, Next(f, w, CommitChange(writer, c)), floors)
  {
    forall floor, q, page | FreshFrom(f, w.history, floor, q, page)
      ensures FreshFrom(f, w.history + [c], floor, q, page)
    {
      StillFresh(f, w.history, c, floor, q, page);
    }
  }

  lemma ReadingStaysCoherent(f: Search, w: World, a: Step, floors: seq<nat>)
    requires Coherent(f, w, floors)
    requires a.ReadVersion? || a.LookUp? || a.QueryDatabase? || a.GiveUp?
    ensures Coherent(f, Next(f, w, a), floors)
  {
  }

  lemma LosingStaysCoherent(f: Search, w: World, key: string, floors: seq<nat>)
    requires Coherent(f, w, floors) && key != VERSION_KEY
    ensures Coherent(f, Next(f, w, Lose(key)), floors)
  {
  }

  lemma StepStaysCoherent(f: Search, w: World, a: Step, floors: seq<nat>)
    requires IsDigest(f.digest) && Coherent(f, w, floors) && a != Lose(VERSION_KEY)
    ensures Coherent(f, Next(f, w, a), FloorsAfter(floors, w, a))
  {
    match a
    case StorePage(r) =>
      if r in w.readers && w.readers[r].Holding? {
        StoringKeepsEntries(f, w, r, floors);
      }
    case Invalidate(writer) => InvalidatingStaysCoherent(f, w, writer, floors);
    case CommitChange(writer, c) => CommittingStaysCoherent(f, w, writer, c, floors);
    case Lose(key) => LosingStaysCoherent(f, w, key, floors);
    case _ => ReadingStaysCoherent(f, w, a, floors);
  }

  lemma {:induction false} RunIsCoherent(f: Search, c: Catalogue, acts: seq<Step>)
    requires IsDigest(f.digest) && Lose(VERSION_KEY) !in acts
    ensures Coherent(f, Run(f, Initial(c), acts), Floors(f, Initial(c), acts))
  {
    if acts != [] {
      hide Coherent, Next, FloorsAfter;
      var before := acts[..|acts| - 1];
      RunIsCoherent(f, c, before);
      StepStaysCoherent(f, Run(f, Initial(c), before), acts[|acts| - 1], Floors(f, Initial(c), before));
    } else {
      assert forall q, v: nat :: Key(f.digest, q, v) !in Initial(c).redis;
    }
  }

  /******* Freshness over runs *******/

  lemma FloorsNext(f: Search, w: World, acts: seq<Step>, i: nat)
    requires i < |acts|
    ensures Floors(f, w, acts[..i + 1]) == FloorsAfter(Floors(f, w, acts[..i]), Run(f, w, acts[..i]), acts[i])
  {
    assert acts[..i + 1][..i] == acts[..i];
  }

  lemma {:induction false} FloorsExtend(f: Search, w: World, acts: seq<Step>, i: nat, j: nat)
    requires i <= j <= |acts|
    ensures Floors(f, w, acts[..i]) <= Floors(f, w, acts[..j])
    decreases j
  {
    hide FloorsAfter, Floors, Run;
    if i < j {
      FloorsExtend(f, w, acts, i, j - 1);
      FloorsGrow(f, w, acts, j - 1);
      PrefixOfPrefix(Floors(f, w, acts[..i]), Floors(f, w, acts[..j - 1]), Floors(f, w, acts[..j]));
    }
  }

  lemma PrefixOfPrefix(x: seq<nat>, y: seq<nat>, z: seq<nat>)
    requires x <= y && y <= z
    ensures x <= z
  {
  }

  lemma FloorsGrow(f: Search, w: World, acts: seq<Step>, i: nat)
    requires i < |acts|
    ensures Floors(f, w, acts[..i]) <= Floors(f, w, acts[..i + 1])
  {
    FloorsNext(f, w, acts, i);
    hide Floors, Run;
    FloorsOnlyGrow(Floors(f, w, acts[..i]), Run(f, w, acts[..i]), acts[i]);
  }

  lemma FloorsOnlyGrow(floors: seq<nat>, w: World, a: Step)
    ensures floors <= FloorsAfter(floors, w, a)
  {
  }

  ghost predicate ReadingDuring(f: Search, w: World, acts: seq<Step>, j: nat, k: nat, r: Id) {
    && j < k <= |acts|
    && forall m | j < m <= k :: IsReading(f, w, acts, m, r)
  }

  // Reader r is under way before step m.
  ghost predicate IsReading(f: Search, w: World, acts: seq<Step>, m: nat, r: Id)
    requires m <= |acts|
  {
    r in Run(f, w, acts[..m]).readers
  }

  // A reader keeps its query and version from the moment it reads the version.
  lemma {:induction false} ReaderKeepsVersion(f: Search, w: World, acts: seq<Step>, j: nat, k: nat, r: Id)
    requires ReadingDuring(f, w, acts, j, k, r)
    ensures IsReading(f, w, acts, j + 1, r) && IsReading(f, w, acts, k, r)
    ensures Run(f, w, acts[..k]).readers[r].query == Run(f, w, acts[..j + 1]).readers[r].query
    ensures Run(f, w, acts[..k]).readers[r].version == Run(f, w, acts[..j + 1]).readers[r].version
    decreases k
  {
    assert IsReading(f, w, acts, j + 1, r) && IsReading(f, w, acts, k, r);
    if k > j + 1 {
      assert IsReading(f, w, acts, k - 1, r);
      ReaderKeepsVersion(f, w, acts, j, k - 1, r);
      RunNext(f, w, acts, k - 1);
      hide Run, Next;
      ReaderStepKeepsVersion(f, Run(f, w, acts[..k - 1]), acts[k - 1], r);
    }
  }

  lemma ReaderStepKeepsVersion(f: Search, w: World, a: Step, r: Id)
    requires r in w.readers && r in Next(f, w, a).readers
    ensures Next(f, w, a).readers[r].query == w.readers[r].query
    ensures Next(f, w, a).readers[r].version == w.readers[r].version
  {
  }

  // The answer step of a reader that read version v is fresh from floor v on.
  lemma AnswerIsFresh(f: Search, w: World, a: Step, r: Id, floors: seq<nat>)
    requires Coherent(f, w, floors) && Answer(f, w, a, r).Some?
    ensures r in w.readers && w.readers[r].version < |floors|
    ensures FreshFrom(f, w.history, floors[w.readers[r].version], w.readers[r].query, Answer(f, w, a, r).value)
  {
  }

  // An update committed as number c was announced (step i) before the reader read the version
  // (step j): whatever the reader is told (step k) is the query on that catalogue or a newer one.
  lemma AnswersContainAnnouncedUpdates(
    f: Search, start: Catalogue, acts: seq<Step>, i: nat, j: nat, k: nat, writer: Id, r: Id, q: Query)
    requires IsDigest(f.digest) && Lose(VERSION_KEY) !in acts
    requires i < j < k < |acts|
    requires acts[i] == Invalidate(writer) && writer in Run(f, Initial(start), acts[..i]).writers
    requires acts[j] == ReadVersion(r, q) && r !in Run(f, Initial(start), acts[..j]).readers
    requires ReadingDuring(f, Initial(start), acts, j, k, r)
    requires Answer(f, Run(f, Initial(start), acts[..k]), acts[k], r).Some?
    ensures
      var w := Run(f, Initial(start), acts[..k]);
      FreshFrom(
        f, w.history, Run(f, Initial(start), acts[..i]).writers[writer], q, Answer(f, w, acts[k], r).value)
  {
    var w0 := Initial(start);
    var floors := Floors(f, w0, acts[..k]);
    var u := Run(f, w0, acts[..j]);
    FloorsNext(f, w0, acts, i);
    FloorsExtend(f, w0, acts, i + 1, j);
    FloorsExtend(f, w0, acts, j, k);
    RunIsCoherent(f, start, acts[..j]);
    RunIsCoherent(f, start, acts[..k]);
    RunNext(f, w0, acts, j);
    ReaderKeepsVersion(f, w0, acts, j, k, r);
    AnswerIsFresh(f, Run(f, w0, acts[..k]), acts[k], r, floors);
    hide Run, Floors, Answer, FreshEntries, FreshReaders, FreshFrom;
    AnnouncedIsInFloor(
      Floors(f, w0, acts[..i]), Run(f, w0, acts[..i]), acts[i], Floors(f, w0, acts[..j]), u);
    assert floors[VersionIn(u.redis)] == Floors(f, w0, acts[..j])[VersionIn(u.redis)];
    LowerFloor(
      f, Run(f, w0, acts[..k]).history, Run(f, w0, acts[..i]).writers[writer], floors[VersionIn(u.redis)],
      q, Answer(f, Run(f, w0, acts[..k]), acts[k], r).value);
  }

  lemma AnnouncedIsInFloor(floors: seq<nat>, w: World, a: Step, later: seq<nat>, u: World)
    requires a.Invalidate? && a.writer in w.writers
    requires FloorsAfter(floors, w, a) <= later && FloorsRise(u, later)
    ensures w.writers[a.writer] <= later[VersionIn(u.redis)]
  {
    assert later[|floors|] == FloorsAfter(floors, w, a)[|floors|];
  }

  lemma LowerFloor(f: Search, history: seq<Catalogue>, low: nat, high: nat, q: Query, page: Page)
    requires low <= high && FreshFrom(f, history, high, q, page)
    ensures FreshFrom(f, history, low, q, page)
  {
  }

  lemma NewestIsExact(f: Search, history: seq<Catalogue>, q: Query, page: Page)
    requires history != [] && FreshFrom(f, history, |history| - 1, q, page)
    ensures page == f.find(history[|history| - 1], q)
  {
  }

  // If the announced update is still the newest, the cache is invisible: the answer is the query itself.
  lemma AnswersAreExactWhenQuiet(
    f: Search, start: Catalogue, acts: seq<Step>, i: nat, j: nat, k: nat, writer: Id, r: Id, q: Query)
    requires IsDigest(f.digest) && Lose(VERSION_KEY) !in acts
    requires i < j < k < |acts|
    requires acts[i] == Invalidate(writer) && writer in Run(f, Initial(start), acts[..i]).writers
    requires acts[j] == ReadVersion(r, q) && r !in Run(f, Initial(start), acts[..j]).readers
    requires ReadingDuring(f, Initial(start), acts, j, k, r)
    requires Answer(f, Run(f, Initial(start), acts[..k]), acts[k], r).Some?
    requires Run(f, Initial(start), acts[..i]).writers[writer] == |Run(f, Initial(start), acts[..k]).history| - 1
    ensures
      var w := Run(f, Initial(start), acts[..k]);
      Answer(f, w, acts[k], r).value == f.find(w.history[|w.history| - 1], q)
  {
    hide Run, Answer, FreshFrom, ReadingDuring, IsDigest;
    AnswersContainAnnouncedUpdates(f, start, acts, i, j, k, writer, r, q);
    var w := Run(f, Initial(start), acts[..k]);
    NewestIsExact(f, w.history, q, Answer(f, w, acts[k], r).value);
  }

  // A slow reader's late store is seen by no reader of another version.
  lemma LateStoreIsNeverServedToOthers(f: Search, w: World, r: Id, q: Query, v: nat)
    requires IsDigest(f.digest) && r in w.readers && w.readers[r].Holding?
    requires v != w.readers[r].version
    ensures LookIn(Next(f, w, StorePage(r)).redis, Key(f.digest, q, v)) == LookIn(w.redis, Key(f.digest, q, v))
    ensures VersionIn(Next(f, w, StorePage(r)).redis) == VersionIn(w.redis)
  {
    KeysAreDistinct(f.digest, q, v, w.readers[r].query, w.readers[r].version);
  }

  // A stored page is found by every later reader of the same version until the entry is lost.
  lemma StoredPageIsServed(f: Search, w: World, r: Id, reader: Id)
    requires r in w.readers && w.readers[r].Holding?
    requires reader in w.readers && reader != r
    requires w.readers[reader] == Keyed(w.readers[r].query, w.readers[r].version)
    ensures Answer(f, Next(f, w, StorePage(r)), LookUp(reader), reader) == Some(w.readers[r].page)
  {
  }

  lemma {:induction false} RunsJoin(f: Search, w: World, x: seq<Step>, y: seq<Step>)
    ensures Run(f, w, x + y) == Run(f, Run(f, w, x), y)
  {
    if y == [] {
      assert x + y == x;
    } else {
      hide Next;
      assert (x + y)[..|x + y| - 1] == x + y[..|y| - 1];
      RunsJoin(f, w, x, y[..|y| - 1]);
    }
  }

  lemma RunOfFour(f: Search, w: World, a: Step, b: Step, c: Step, d: Step)
    ensures Run(f, w, [a, b, c, d]) == Next(f, Next(f, Next(f, Next(f, w, a), b), c), d)
  {
    hide Next;
    assert [a][..0] == [] && Run(f, w, [a]) == Next(f, w, a);
    assert [a, b][..1] == [a] && Run(f, w, [a, b]) == Next(f, Run(f, w, [a]), b);
    assert [a, b, c][..2] == [a, b] && Run(f, w, [a, b, c]) == Next(f, Run(f, w, [a, b]), c);
    assert [a, b, c, d][..3] == [a, b, c];
  }

  // The counter must not be lost: without it an old version comes back, and with it an old page.
  lemma LosingTheCounterServesStalePages(f: Search, first: Catalogue, second: Catalogue, q: Query)
    requires IsDigest(f.digest) && f.find(first, q) != f.find(second, q)
    ensures
      var before := [ReadVersion(1, q), LookUp(1), QueryDatabase(1), StorePage(1)]
                  + [CommitChange(2, second), Invalidate(2), Lose(VERSION_KEY), ReadVersion(3, q)];
      var w := Run(f, Initial(first), before);
      && w.history == [first, second] && w.writers == map[]
      && Answer(f, w, LookUp(3), 3).Some?
      && Answer(f, w, LookUp(3), 3).value != f.find(second, q)
  {
    KeysAreDistinct(f.digest, q, 0, q, 0);
    hide Run, Key, Next, IsDigest;
    RunsJoin(
      f, Initial(first), [ReadVersion(1, q), LookUp(1), QueryDatabase(1), StorePage(1)],
      [CommitChange(2, second), Invalidate(2), Lose(VERSION_KEY), ReadVersion(3, q)]);
    RunOfFour(f, Initial(first), ReadVersion(1, q), LookUp(1), QueryDatabase(1), StorePage(1));
    RunOfFour(
      f, PageStored(f, first, q), CommitChange(2, second), Invalidate(2), Lose(VERSION_KEY), ReadVersion(3, q));
    FirstReaderStores(f, first, q);
    OldVersionComesBack(f, first, second, q, PageStored(f, first, q));
  }

  function PageStored(f: Search, c: Catalogue, q: Query): World {
    World([c], map[Key(f.digest, q, 0) := Json(f.find(c, q))], map[], map[])
  }

  lemma FirstReaderStores(f: Search, c: Catalogue, q: Query)
    ensures
      var w2 := Next(f, Next(f, Initial(c), ReadVersion(1, q)), LookUp(1));
      Next(f, Next(f, w2, QueryDatabase(1)), StorePage(1)) == PageStored(f, c, q)
  {
  }

  lemma OldVersionComesBack(f: Search, first: Catalogue, second: Catalogue, q: Query, w: World)
    requires w == PageStored(f, first, q) && Key(f.digest, q, 0) != VERSION_KEY
    ensures
      var w6 := Next(f, Next(f, w, CommitChange(2, second)), Invalidate(2));
      var w8 := Next(f, Next(f, w6, Lose(VERSION_KEY)), ReadVersion(3, q));
      && w8.history == [first, second] && w8.writers == map[]
      && Answer(f, w8, LookUp(3), 3) == Some(f.find(first, q))
  {
  }

  /******* cache.py as it is written *******/

  class StationCache {
    const enabled: bool
    var redis: Redis

    constructor (enabled: bool)
      ensures this.enabled == enabled && redis == map[]
    {
      this.enabled := enabled;
      redis := map[];
    }

    method GetCachedStationSearch(digest: Query -> string, q: Query) returns (key: Option<string>, page: Option<Page>)
      ensures key == if enabled then Some(Key(digest, q, VersionIn(redis))) else None
      ensures page == if enabled then LookIn(redis, Key(digest, q, VersionIn(redis))) else None
    {
      if !enabled {
        return None, None;
      }
      var version := "0";
      if VERSION_KEY in redis && redis[VERSION_KEY].Counter? {
        version := Decimal(redis[VERSION_KEY].n);
      }
      assert Decimal(0) == "0";
      var cacheKey := BuildCacheKey(digest, q, version);
      page := LookIn(redis, cacheKey);
      key := Some(cacheKey);
    }

    method StoreStationSearch(key: Option<string>, page: Page)
      modifies this
      ensures redis == if key.Some? && enabled then Stored(old(redis), key.value, page) else old(redis)
    {
      if key.None? || !enabled {
        return;
      }
      redis := redis[key.value := Json(page)];
    }

    method InvalidateStationSearches()
      modifies this
      ensures redis == if enabled then Advanced(old(redis)) else old(redis)
    {
      if !enabled {
        return;
      }
      redis := redis[VERSION_KEY := Counter(VersionIn(redis) + 1)];
    }

    // With one client at a time: the entries of the current version are the query on the catalogue.
    ghost predicate Current(f: Search, catalogue: Catalogue)
      reads this
    {
      && IsDigest(f.digest)
      && forall q, v: nat | Key(f.digest, q, v) in redis ::
           v <= VersionIn(redis)
           && (v == VersionIn(redis) ==> redis[Key(f.digest, q, v)] == Json(f.find(catalogue, q)))
    }

    // list_charging_stations: what it returns does not depend on what is cached.
    method ListChargingStations(f: Search, catalogue: Catalogue, q: Query) returns (page: Page)
      requires Current(f, catalogue)
      modifies this
      ensures Current(f, catalogue)
      ensures page == f.find(catalogue, q)
      ensures VersionIn(redis) == VersionIn(old(redis))
      // The next one to ask finds it cached.
      ensures enabled ==> LookIn(redis, Key(f.digest, q, VersionIn(redis))) == Some(page)
    {
      var key, cached := GetCachedStationSearch(f.digest, q);
      if cached.Some? {
        return cached.value;
      }
      page := f.find(catalogue, q);
      forall p, u: nat
        ensures Key(f.digest, p, u) == Key(f.digest, q, VersionIn(redis)) ==> p == q && u == VersionIn(redis)
        ensures Key(f.digest, p, u) != VERSION_KEY
      {
        KeysAreDistinct(f.digest, p, u, q, VersionIn(redis));
        KeysAreDistinct(f.digest, p, u, p, u);
      }
      StoreStationSearch(key, page);
    }

    // create_station, update_station and update_charge_point commit, then advance the version.
    method CommitAndInvalidate(f: Search, before: Catalogue, after: Catalogue)
      requires Current(f, before)
      modifies this
      ensures enabled ==> Current(f, after)
      ensures !enabled ==> redis == old(redis)
    {
      forall p, u: nat
        ensures Key(f.digest, p, u) != VERSION_KEY
      {
        KeysAreDistinct(f.digest, p, u, p, u);
      }
      InvalidateStationSearches();
    }
  }
}
