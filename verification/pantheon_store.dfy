/**
 The client's content-scraping store (frontend/src/stores/pantheon.js). It
 talks to no server: sources and schedules are plain objects built in the
 client, modelled as maps from property names to values, where object
 spread `{ a, ...b, c }` is the map union `a + b + c` (later keys win).
 Scraped items carry their scrape time as an instant.
 */
module PantheonStore {
  import opened Common
  import opened Docs
  import opened Ordering

  /** The property values the objects of this store hold. */
  datatype Value = Num(n: int) | Str(s: string) | Flag(b: bool) | Null

  type Record = map<string, Value>

  datatype ContentItem = ContentItem(id: int, sourceId: Value, title: string, url: string, scrapedAt: int)

  datatype State = State(
    sources: seq<Record>,
    scrapedContent: seq<ContentItem>,
    schedules: seq<Record>,
    loading: bool)

  datatype Step<+T> = Step(state: State, result: T)

  const ScraperOk: string := "Scraper executed successfully"

  function ScrapedAt(c: ContentItem): int { c.scrapedAt }

  /** `record.id === id` for a record that has an `id`. */
  predicate HasId(r: Record, id: Value)
  {
    "id" in r && r["id"] == id
  }

  /** The test `updateSource` looks a source up by. */
  function WithId(id: Value): Record -> bool
  {
    (r: Record) => HasId(r, id)
  }

  /** The test the `contentBySource` getter applies to each item. */
  function FromSource(sourceId: Value): ContentItem -> bool
  {
    (c: ContentItem) => c.sourceId == sourceId
  }

  /** `{ id: now, ...data, createdAt: iso }`. */
  function Stamped(data: Record, now: int, iso: string): (r: Record)
    ensures r.Keys == data.Keys + {"id", "createdAt"}
    ensures r["createdAt"] == Str(iso)
    ensures r["id"] == if "id" in data then data["id"] else Num(now)
    ensures forall k :: k in data && k != "createdAt" ==> r[k] == data[k]
  {
    map["id" := Num(now)] + data + map["createdAt" := Str(iso)]
  }

  /** The `contentFeed` getter: every scraped item, latest first. */
  function ContentFeed(s: State): (r: seq<ContentItem>)
    ensures SortedDesc(r, ScrapedAt)
    ensures multiset(r) == multiset(s.scrapedContent)
  {
    SortDesc(s.scrapedContent, ScrapedAt)
  }

  /** The `contentBySource` getter: the items from one source, in stored order. */
  function ContentBySource(s: State, sourceId: Value): (r: seq<ContentItem>)
    ensures forall k :: 0 <= k < |r| ==> r[k].sourceId == sourceId
    ensures forall c :: multiset(r)[c] == if c.sourceId == sourceId then multiset(s.scrapedContent)[c] else 0
  {
    Filter(s.scrapedContent, FromSource(sourceId))
  }

  /** `addSource`: a new source, stamped with the clock, goes to the front. */
  function AddSource(s: State, data: Record, now: int, iso: string): (t: Step<Record>)
    ensures t.state == s.(sources := [t.result] + s.sources, loading := false)
    ensures t.result == Stamped(data, now, iso)
  {
    var source := Stamped(data, now, iso);
    Step(s.(sources := [source] + s.sources, loading := false), source)
  }

  /**
   `updateSource(id, data)`: the first source with that id is merged with
   `data` and stamped `updatedAt`; without such a source nothing changes and
   `null` is returned.
   */
  function UpdateSource(s: State, id: Value, data: Record, iso: string): (t: Step<Option<Record>>)
    ensures FirstIndex(s.sources, WithId(id), true).None? ==> t == Step(s.(loading := false), None)
    ensures FirstIndex(s.sources, WithId(id), true).Some? ==>
              var i := FirstIndex(s.sources, WithId(id), true).value;
              && t.result == Some(s.sources[i] + data + map["updatedAt" := Str(iso)])
              && t.state == s.(sources := s.sources[i := t.result.value], loading := false)
  {
    match FirstIndex(s.sources, WithId(id), true)
    case None => Step(s.(loading := false), None)
    case Some(i) =>
      var merged := s.sources[i] + data + map["updatedAt" := Str(iso)];
      Step(s.(sources := s.sources[i := merged], loading := false), Some(merged))
  }

  /** `addSchedule`: like `addSource`, for schedules. */
  function AddSchedule(s: State, data: Record, now: int, iso: string): (t: Step<Record>)
    ensures t.state == s.(schedules := [t.result] + s.schedules, loading := false)
    ensures t.result == Stamped(data, now, iso)
  {
    var schedule := Stamped(data, now, iso);
    Step(s.(schedules := [schedule] + s.schedules, loading := false), schedule)
  }

  /** `runScraper`: a stub that always reports success and changes nothing but `loading`. */
  function RunScraper(s: State, sourceId: Value): (t: Step<(bool, string)>)
    ensures t.state == s.(loading := false)
    ensures t.result == (true, ScraperOk)
  {
    Step(s.(loading := false), (true, ScraperOk))
  }

  // ---------------------------------------------------------------------
  // Properties
  // ---------------------------------------------------------------------

  /** The feed and the per-source view agree: a source's items in the feed are exactly its items. */
  lemma FeedHoldsEverySourceItem(s: State, sourceId: Value, c: ContentItem)
    ensures (c in ContentFeed(s) && c.sourceId == sourceId) <==> c in ContentBySource(s, sourceId)
  {
    assert multiset(ContentFeed(s))[c] == multiset(s.scrapedContent)[c];
    assert multiset(ContentBySource(s, sourceId))[c] == if c.sourceId == sourceId then multiset(s.scrapedContent)[c] else 0;
  }

  /**
   The per-source view keeps the stored order: the view of two stretches of
   content one after the other is the view of the first followed by the view
   of the second, and one item is shown exactly when it is from the source.
   */
  lemma {:induction false} ContentBySourceKeepsOrder(s: State, sourceId: Value, xs: seq<ContentItem>, ys: seq<ContentItem>)
    requires s.scrapedContent == xs + ys
    ensures ContentBySource(s, sourceId)
              == ContentBySource(s.(scrapedContent := xs), sourceId) + ContentBySource(s.(scrapedContent := ys), sourceId)
  {
    FilterAppend(xs, ys, FromSource(sourceId));
  }

  lemma ContentBySourceSingle(s: State, sourceId: Value, c: ContentItem)
    requires s.scrapedContent == [c]
    ensures ContentBySource(s, sourceId) == if c.sourceId == sourceId then [c] else []
  {
    FilterSingleton(c, FromSource(sourceId));
  }

  /** The data's own `id` overrides the clock's, so two added sources can share an id. */
  lemma DataIdWins(s: State, data: Record, now: int, iso: string)
    requires "id" in data
    ensures AddSource(s, data, now, iso).result["id"] == data["id"]
  {
  }

  /** The same holds for schedules. */
  lemma ScheduleDataIdWins(s: State, data: Record, now: int, iso: string)
    requires "id" in data
    ensures AddSchedule(s, data, now, iso).result["id"] == data["id"]
  {
  }

  /** A schedule just added is the first one its id finds, and the sources and content are untouched. */
  lemma AddedScheduleFoundFirst(s: State, data: Record, now: int, iso: string)
    ensures var t := AddSchedule(s, data, now, iso);
            && FirstIndex(t.state.schedules, WithId(t.result["id"]), true) == Some(0)
            && t.state.sources == s.sources && t.state.scrapedContent == s.scrapedContent
  {
    var t := AddSchedule(s, data, now, iso);
    assert t.state.schedules[0] == t.result;
  }

  /** A source just added is the one an update of its id changes. */
  lemma AddThenUpdateSource(s: State, data: Record, now: int, iso: string, more: Record, later: string)
    ensures var a := AddSource(s, data, now, iso);
            UpdateSource(a.state, a.result["id"], more, later).result
              == Some(a.result + more + map["updatedAt" := Str(later)])
  {
    var a := AddSource(s, data, now, iso);
    assert a.state.sources[0] == a.result;
    assert FirstIndex(a.state.sources, WithId(a.result["id"]), true) == Some(0);
  }

  /** Running the scraper leaves every source, schedule and item, and so both content views, as they were. */
  lemma ScraperRunKeepsData(s: State, sourceId: Value, other: Value)
    ensures var t := RunScraper(s, sourceId).state;
            && t.sources == s.sources && t.schedules == s.schedules
            && ContentFeed(t) == ContentFeed(s)
            && ContentBySource(t, other) == ContentBySource(s, other)
  {
  }

  /** Updating a source never changes its `id` unless the data carries one, and touches no other source. */
  lemma UpdateSourceFrame(s: State, id: Value, data: Record, iso: string)
    requires "id" !in data
    ensures var t := UpdateSource(s, id, data, iso);
            && |t.state.sources| == |s.sources|
            && (t.result.Some? ==> HasId(t.result.value, id))
            && forall k :: 0 <= k < |s.sources| && !HasId(s.sources[k], id) ==> t.state.sources[k] == s.sources[k]
  {
  }
}
