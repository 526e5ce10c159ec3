/**
 * What the REST checkpoints of a window may claim, for page sizes that change from restart to
 * restart, and when a completed traversal has stored the whole window.
 */
module RestProgress {
  import opened Wrappers
  import opened RawEvents
  import opened BackfillStorage
  import opened BackfillProgress
  import opened BackfillRuns
  import opened PageHistory
  import opened RestListing

  // ---------------------------------------------------------------- the three kinds of traversal

  /** One paginated traversal: its run key, how it ends, and the record of each listed item, if selected. */
  datatype Family = Family(key: RunKey, rule: EndRule, candidates: seq<Option<BackfillRecord>>)

  function RunsFamily(cfg: Config, listing: RestListing): Family {
    Family(RunsKey(cfg), TotalCount, RunCandidates(cfg, listing.workflowRuns))
  }

  function DeploymentsFamily(cfg: Config, listing: RestListing): Family {
    Family(DeploymentsKey(cfg), ShortPage, DeploymentCandidates(cfg, listing.deployments))
  }

  function StatusesFamily(cfg: Config, listing: RestListing, id: int): Family {
    Family(StatusesKey(cfg, id), ShortPage, StatusCandidates(cfg, id, listing.Statuses(id)))
  }

  ghost predicate IsFamily(cfg: Config, listing: RestListing, f: Family) {
    || f == RunsFamily(cfg, listing)
    || f == DeploymentsFamily(cfg, listing)
    || exists id :: f == StatusesFamily(cfg, listing, id)
  }

  ghost predicate WindowId(cfg: Config, listing: RestListing, id: int) {
    exists i :: 0 <= i < |listing.deployments| && cfg.InWindow(listing.deployments[i].createdAt)
                && listing.deployments[i].id == id
  }

  /** The traversals that the window asks for: statuses only of its own deployments. */
  ghost predicate Asked(cfg: Config, listing: RestListing, f: Family) {
    || f == RunsFamily(cfg, listing)
    || f == DeploymentsFamily(cfg, listing)
    || exists id :: WindowId(cfg, listing, id) && f == StatusesFamily(cfg, listing, id)
  }

  lemma AskedIsFamily(cfg: Config, listing: RestListing, f: Family)
    requires Asked(cfg, listing, f)
    ensures IsFamily(cfg, listing, f)
  {
  }

  lemma KeyNamesFamily(cfg: Config, listing: RestListing, f: Family, g: Family)
    requires IsFamily(cfg, listing, f) && IsFamily(cfg, listing, g) && f.key == g.key
    ensures f == g
  {
  }

  // ---------------------------------------------------------------- records and histories

  /** The page sizes with which the committed pages of each traversal were fetched, oldest first. */
  type History = map<RunKey, seq<nat>>

  function SizesOf(h: History, key: RunKey): seq<nat> { if key in h then h[key] else [] }

  function Noted(h: History, key: RunKey, size: nat): History { h[key := SizesOf(h, key) + [size]] }

  predicate AddsOnly(sizes: seq<nat>, more: seq<nat>, size: nat) {
    sizes <= more && forall k | |sizes| <= k < |more| :: more[k] == size
  }

  /** Between two moments only pages of this size were committed. */
  ghost predicate Appended(h: History, g: History, size: nat) {
    forall key :: AddsOnly(SizesOf(h, key), SizesOf(g, key), size)
  }

  lemma NothingAppended(h: History, size: nat)
    ensures Appended(h, h, size)
  {
  }

  lemma NotedIsAppended(h: History, key: RunKey, size: nat)
    ensures Appended(h, Noted(h, key, size), size)
  {
  }

  lemma AppendedIsTransitive(h: History, g: History, e: History, size: nat)
    requires Appended(h, g, size) && Appended(g, e, size)
    ensures Appended(h, e, size)
  {
    forall key ensures AddsOnly(SizesOf(h, key), SizesOf(e, key), size) {
      assert AddsOnly(SizesOf(h, key), SizesOf(g, key), size) && AddsOnly(SizesOf(g, key), SizesOf(e, key), size);
    }
  }

  predicate AddsAmong(sizes: seq<nat>, more: seq<nat>, used: set<nat>) {
    sizes <= more && forall k | |sizes| <= k < |more| :: more[k] in used
  }

  /** Between two moments only pages of these sizes were committed. */
  ghost predicate GrewBy(h: History, g: History, used: set<nat>) {
    forall key :: AddsAmong(SizesOf(h, key), SizesOf(g, key), used)
  }

  lemma NothingGrew(h: History, used: set<nat>)
    ensures GrewBy(h, h, used)
  {
  }

  lemma GrewByAppended(h: History, g: History, e: History, used: set<nat>, size: nat)
    requires GrewBy(h, g, used) && Appended(g, e, size) && size in used
    ensures GrewBy(h, e, used)
  {
    forall key ensures AddsAmong(SizesOf(h, key), SizesOf(e, key), used) {
      assert AddsAmong(SizesOf(h, key), SizesOf(g, key), used) && AddsOnly(SizesOf(g, key), SizesOf(e, key), size);
    }
  }

  ghost predicate HasRecord(f: Family, i: nat, r: BackfillRecord) {
    i < |f.candidates| && f.candidates[i] == Some(r)
  }

  /** Everything the window asks for: its runs, its deployments, and all statuses of those. */
  ghost predicate Expected(cfg: Config, listing: RestListing, r: BackfillRecord) {
    exists f, i: nat :: Asked(cfg, listing, f) && HasRecord(f, i, r)
  }

  /** What the pages fetched so far contained of that. */
  ghost predicate WasFetched(cfg: Config, listing: RestListing, h: History, r: BackfillRecord) {
    exists f, i: nat :: Asked(cfg, listing, f) && HasRecord(f, i, r) && Fetched(SizesOf(h, f.key), i)
  }

  ghost function Wanted(cfg: Config, listing: RestListing, h: History): iset<BackfillRecord> {
    iset r | WasFetched(cfg, listing, h, r)
  }

  // ---------------------------------------------------------------- the restart invariant

  /** The checkpoint counts the committed pages and names the next one, or the traversal has ended. */
  ghost predicate CheckpointOk(s: Store, f: Family, sizes: seq<nat>) {
    && Sized(sizes)
    && match Lookup(s.checkpoints, f.key)
       case None => sizes == []
       case Some(c) =>
         && c.pagesCompleted == |sizes|
         && if c.status.Completed? then Finished(f.rule, sizes, |f.candidates|) else c.cursor == Some(PageNumber(|sizes| + 1))
  }

  ghost predicate FetchedIsStored(raw: RawTable, f: Family, sizes: seq<nat>) {
    forall i: nat, r | HasRecord(f, i, r) && Fetched(sizes, i) :: r.Key() in raw
  }

  ghost predicate FamilyOk(s: Store, f: Family, sizes: seq<nat>) {
    CheckpointOk(s, f, sizes) && FetchedIsStored(s.raw, f, sizes)
  }

  /** A deployment's page is only ever committed once its statuses are completed. */
  ghost predicate StatusesFirst(cfg: Config, listing: RestListing, s: Store, sizes: seq<nat>) {
    forall i: nat | i < |listing.deployments| && cfg.InWindow(listing.deployments[i].createdAt) && Fetched(sizes, i) ::
      IsCompleted(s, StatusesKey(cfg, listing.deployments[i].id))
  }

  /** What holds after any crashes and restarts, whatever page sizes they used. */
  ghost predicate Inv(cfg: Config, listing: RestListing, base: RawTable, s: Store, h: History) {
    && NoExtras(Wanted(cfg, listing, h), base, s.raw)
    && (forall f | IsFamily(cfg, listing, f) :: FamilyOk(s, f, SizesOf(h, f.key)))
    && StatusesFirst(cfg, listing, s, SizesOf(h, DeploymentsKey(cfg)))
  }

  /** Before the first run on this window nothing is claimed. */
  lemma FreshStart(cfg: Config, listing: RestListing, s: Store)
    requires forall k | k in s.checkpoints :: !OwnKey(cfg, REST_RESOURCES, k)
    ensures Inv(cfg, listing, s.raw, s, map[])
  {
    hide RunCandidates, DeploymentCandidates, StatusCandidates;
    forall f | IsFamily(cfg, listing, f) ensures FamilyOk(s, f, []) {
      assert f.key !in s.checkpoints;
    }
  }

  // ---------------------------------------------------------------- what other writers leave intact

  lemma FamilySurvives(s: Store, t: Store, f: Family, sizes: seq<nat>)
    requires FamilyOk(s, f, sizes) && Grows(s.raw, t.raw)
    requires Lookup(s.checkpoints, f.key) == Lookup(t.checkpoints, f.key)
    ensures FamilyOk(t, f, sizes)
  {
  }

  lemma StatusesFirstSurvives(cfg: Config, listing: RestListing, s: Store, t: Store, sizes: seq<nat>)
    requires StatusesFirst(cfg, listing, s, sizes)
    requires forall id :: IsCompleted(s, StatusesKey(cfg, id)) ==> IsCompleted(t, StatusesKey(cfg, id))
    ensures StatusesFirst(cfg, listing, t, sizes)
  {
  }

  ghost predicate SameClaims(cfg: Config, s: Store, t: Store) {
    forall k | OwnKey(cfg, REST_RESOURCES, k) :: Lookup(s.checkpoints, k) == Lookup(t.checkpoints, k)
  }

  lemma FamilyIsOwn(cfg: Config, listing: RestListing, f: Family)
    requires IsFamily(cfg, listing, f)
    ensures OwnKey(cfg, REST_RESOURCES, f.key)
  {
  }

  lemma ClaimsSurvive(cfg: Config, listing: RestListing, base: RawTable, s: Store, t: Store, h: History)
    requires Inv(cfg, listing, base, s, h) && SameClaims(cfg, s, t) && Grows(s.raw, t.raw)
    ensures forall f | IsFamily(cfg, listing, f) :: FamilyOk(t, f, SizesOf(h, f.key))
    ensures StatusesFirst(cfg, listing, t, SizesOf(h, DeploymentsKey(cfg)))
  {
    hide NoExtras, FamilyOk, Grows, IsFamily, StatusesFirst, SizesOf;
    forall f | IsFamily(cfg, listing, f) ensures FamilyOk(t, f, SizesOf(h, f.key)) {
      FamilyIsOwn(cfg, listing, f);
      FamilySurvives(s, t, f, SizesOf(h, f.key));
    }
    forall id ensures IsCompleted(s, StatusesKey(cfg, id)) ==> IsCompleted(t, StatusesKey(cfg, id)) {
      assert Lookup(s.checkpoints, StatusesKey(cfg, id)) == Lookup(t.checkpoints, StatusesKey(cfg, id));
    }
    StatusesFirstSurvives(cfg, listing, s, t, SizesOf(h, DeploymentsKey(cfg)));
  }

  /** Webhook rows may land at any moment. */
  lemma ArrivalsKeepInv(cfg: Config, listing: RestListing, base: RawTable, s: Store, t: Store, h: History)
    requires Inv(cfg, listing, base, s, h) && Arrived(s, t)
    ensures Inv(cfg, listing, base, t, h)
  {
    hide FamilyOk, IsFamily, Wanted;
    ArrivedHasNoExtras(Wanted(cfg, listing, h), base, s, t);
    ClaimsSurvive(cfg, listing, base, s, t, h);
  }

  /** Other traversals may write between two starts; their rows do not count as this window's own. */
  lemma ForeignKeepsInv(cfg: Config, listing: RestListing, base: RawTable, s: Store, w: Write, h: History)
    requires Inv(cfg, listing, base, s, h) && Foreign(cfg, REST_RESOURCES, w)
    ensures var t := AfterWrite(s, w);
            && Inv(cfg, listing, Widened(base, s.raw, t.raw), t, h)
            && SameClaims(cfg, s, t)
  {
    hide FamilyOk, IsFamily, Wanted, AfterWrite, NoExtras, Widened;
    var t := AfterWrite(s, w);
    WriteGrows(s, w);
    WidenedHasNoExtras(Wanted(cfg, listing, h), base, s.raw, t.raw);
    ClaimsSurvive(cfg, listing, base, s, t, h);
  }

  // ---------------------------------------------------------------- one committed page

  /** The statuses of every in-window deployment among these nodes are completed. */
  ghost predicate StatusesCompleted(cfg: Config, s: Store, nodes: seq<DeploymentNode>) {
    forall i | 0 <= i < |nodes| && cfg.InWindow(nodes[i].createdAt) :: IsCompleted(s, StatusesKey(cfg, nodes[i].id))
  }

  /** The next page of a traversal is the one after those committed. */
  lemma PageIsNext(cfg: Config, listing: RestListing, base: RawTable, s: Store, h: History, f: Family)
    requires Inv(cfg, listing, base, s, h) && IsFamily(cfg, listing, f) && !IsCompleted(s, f.key)
    ensures NextPage(Lookup(s.checkpoints, f.key)) == Success(|SizesOf(h, f.key)| + 1)
  {
    hide IsFamily, NoExtras, StatusesFirst, FetchedIsStored;
    assert FamilyOk(s, f, SizesOf(h, f.key));
  }

  lemma FamilyPageIsOk(s: Store, f: Family, sizes: seq<nat>, size: nat, completed: bool)
    requires FamilyOk(s, f, sizes) && size >= 1 && !IsCompleted(s, f.key)
    requires completed <==> Ends(f.rule, |sizes| + 1, size, |f.candidates|)
    ensures var page := |sizes| + 1;
            FamilyOk(Persisted(s, f.key, Chosen(PageOf(f.candidates, size, page)), PageCursor(page, completed)), f, sizes + [size])
  {
    hide InsertAll, InsertedCount, Chosen, PageOf, OnPage, Fetched;
    var page := |sizes| + 1;
    var records := Chosen(PageOf(f.candidates, size, page));
    var t := Persisted(s, f.key, records, PageCursor(page, completed));
    InsertAllKeys(s.raw, records);
    forall i: nat, r | HasRecord(f, i, r) && Fetched(sizes + [size], i) ensures r.Key() in t.raw {
      FetchedAppend(sizes, size, i);
      if !Fetched(sizes, i) {
        PageOfHas(f.candidates, size, page, Some(r));
        ChosenHas(PageOf(f.candidates, size, page), r);
      }
    }
  }

  lemma NotedFetches(cfg: Config, listing: RestListing, h: History, key: RunKey, size: nat)
    ensures Wanted(cfg, listing, h) <= Wanted(cfg, listing, Noted(h, key, size))
  {
    hide Asked, HasRecord, Fetched;
    forall r | WasFetched(cfg, listing, h, r) ensures WasFetched(cfg, listing, Noted(h, key, size), r) {
      var f, i: nat :| Asked(cfg, listing, f) && HasRecord(f, i, r) && Fetched(SizesOf(h, f.key), i);
      FetchedAppend(SizesOf(h, f.key), size, i);
      assert Fetched(SizesOf(Noted(h, key, size), f.key), i);
    }
  }

  lemma PageIsFetched(cfg: Config, listing: RestListing, h: History, f: Family, size: nat, r: BackfillRecord)
    requires Asked(cfg, listing, f)
    requires r in Chosen(PageOf(f.candidates, size, |SizesOf(h, f.key)| + 1))
    ensures WasFetched(cfg, listing, Noted(h, f.key, size), r)
  {
    hide Asked, OnPage, Fetched, Chosen;
    var page := |SizesOf(h, f.key)| + 1;
    ChosenHas(PageOf(f.candidates, size, page), r);
    PageOfHas(f.candidates, size, page, Some(r));
    var i: nat :| i < |f.candidates| && OnPage(i, page, size) && f.candidates[i] == Some(r);
    FetchedAppend(SizesOf(h, f.key), size, i);
    assert HasRecord(f, i, r) && Fetched(SizesOf(Noted(h, f.key, size), f.key), i);
  }

  /** The deployments of the new page have their statuses, and no older one loses them. */
  lemma StatusesFirstAppend(cfg: Config, listing: RestListing, s: Store, sizes: seq<nat>, size: nat)
    requires StatusesFirst(cfg, listing, s, sizes)
    requires StatusesCompleted(cfg, s, PageOf(listing.deployments, size, |sizes| + 1))
    ensures StatusesFirst(cfg, listing, s, sizes + [size])
  {
    hide IsCompleted, Fetched, OnPage, PageOf;
    var page := |sizes| + 1;
    forall i: nat | i < |listing.deployments| && cfg.InWindow(listing.deployments[i].createdAt) && Fetched(sizes + [size], i)
      ensures IsCompleted(s, StatusesKey(cfg, listing.deployments[i].id))
    {
      FetchedAppend(sizes, size, i);
      if !Fetched(sizes, i) {
        PageOfHas(listing.deployments, size, page, listing.deployments[i]);
        var j :| 0 <= j < |PageOf(listing.deployments, size, page)|
                 && PageOf(listing.deployments, size, page)[j] == listing.deployments[i];
      }
    }
  }

  /** Committing a page of any of the traversals, fetched with any page size, keeps the invariant. */
  lemma PageKeepsInv(cfg: Config, listing: RestListing, base: RawTable, s: Store, h: History, f: Family, size: nat, completed: bool)
    requires Inv(cfg, listing, base, s, h) && Asked(cfg, listing, f) && !IsCompleted(s, f.key) && size >= 1
    requires completed <==> Ends(f.rule, |SizesOf(h, f.key)| + 1, size, |f.candidates|)
    requires f.key == DeploymentsKey(cfg) ==>
               StatusesCompleted(cfg, s, PageOf(listing.deployments, size, |SizesOf(h, f.key)| + 1))
    ensures var page := |SizesOf(h, f.key)| + 1;
            var t := Persisted(s, f.key, Chosen(PageOf(f.candidates, size, page)), PageCursor(page, completed));
            Inv(cfg, listing, base, t, Noted(h, f.key, size))
  {
    hide IsFamily, Asked, FamilyOk, NoExtras, WasFetched, Chosen, PageOf, Ends, InsertAll, InsertedCount, StatusesFirst,
      StatusesCompleted, Advanced, IsCompleted;
    var sizes := SizesOf(h, f.key);
    var page, g := |sizes| + 1, Noted(h, f.key, size);
    var records := Chosen(PageOf(f.candidates, size, page));
    var t := Persisted(s, f.key, records, PageCursor(page, completed));
    AskedIsFamily(cfg, listing, f);
    PersistIsLater(s, f.key, records, PageCursor(page, completed));
    NotedFetches(cfg, listing, h, f.key, size);
    MoreExpected(Wanted(cfg, listing, h), Wanted(cfg, listing, g), base, s.raw);
    forall r | r in records ensures r in Wanted(cfg, listing, g) {
      PageIsFetched(cfg, listing, h, f, size, r);
    }
    PersistHasNoExtras(Wanted(cfg, listing, g), base, s.raw, records);
    forall e | IsFamily(cfg, listing, e) ensures FamilyOk(t, e, SizesOf(g, e.key)) {
      if e.key == f.key {
        KeyNamesFamily(cfg, listing, e, f);
        FamilyPageIsOk(s, f, sizes, size, completed);
      } else {
        FamilySurvives(s, t, e, SizesOf(h, e.key));
      }
    }
    StatusesFirstSurvives(cfg, listing, s, t, SizesOf(h, DeploymentsKey(cfg)));
    if f.key == DeploymentsKey(cfg) {
      StatusesFirstAppend(cfg, listing, s, sizes, size);
      StatusesFirstSurvives(cfg, listing, s, t, sizes + [size]);
    }
  }

  // ---------------------------------------------------------------- what a traversal has stored

  /** At any time the backfilled rows are those of the start and the records fetched since, no more and no less. */
  lemma StoredIsFetched(cfg: Config, listing: RestListing, base: RawTable, s: Store, h: History)
    requires Inv(cfg, listing, base, s, h)
    ensures forall k: RawKey | k.source.Backfill? ::
              k in s.raw <==> k in base || exists r :: WasFetched(cfg, listing, h, r) && r.Key() == k
    ensures forall k | k in s.raw && k.source.Backfill? ::
              if k in base then s.raw[k] == base[k]
              else exists r :: WasFetched(cfg, listing, h, r) && r.Key() == k && r.Row() == s.raw[k]
  {
    hide WasFetched, FamilyOk, IsFamily, StatusesFirst;
    forall r | WasFetched(cfg, listing, h, r) ensures r.Key() in s.raw {
      FetchedRecordIsStored(cfg, listing, base, s, h, r);
    }
  }

  lemma FetchedRecordIsStored(cfg: Config, listing: RestListing, base: RawTable, s: Store, h: History, r: BackfillRecord)
    requires Inv(cfg, listing, base, s, h) && WasFetched(cfg, listing, h, r)
    ensures r.Key() in s.raw
  {
    hide Asked, IsFamily, NoExtras, StatusesFirst, CheckpointOk, HasRecord, Fetched;
    var f, i: nat :| Asked(cfg, listing, f) && HasRecord(f, i, r) && Fetched(SizesOf(h, f.key), i);
    AskedIsFamily(cfg, listing, f);
    assert FamilyOk(s, f, SizesOf(h, f.key));
  }

  /** The pages of every traversal that the window asks for tile its listing. */
  ghost predicate Tiling(cfg: Config, listing: RestListing, h: History) {
    forall f | Asked(cfg, listing, f) :: Tiles(SizesOf(h, f.key), |f.candidates|)
  }

  /** The window is completely stored. */
  ghost predicate Complete(cfg: Config, listing: RestListing, raw: RawTable) {
    forall r | Expected(cfg, listing, r) :: r.Key() in raw
  }

  lemma TiledIsComplete(cfg: Config, listing: RestListing, base: RawTable, s: Store, h: History)
    requires Inv(cfg, listing, base, s, h) && Tiling(cfg, listing, h)
    ensures forall r | Expected(cfg, listing, r) :: WasFetched(cfg, listing, h, r)
    ensures Complete(cfg, listing, s.raw)
  {
    hide Asked, HasRecord, Inv, Tiles, WasFetched;
    forall r | Expected(cfg, listing, r) ensures WasFetched(cfg, listing, h, r) && r.Key() in s.raw {
      var f, i: nat :| Asked(cfg, listing, f) && HasRecord(f, i, r);
      TilesFetch(cfg, listing, base, s, h, f, i, r);
      FetchedRecordIsStored(cfg, listing, base, s, h, r);
    }
  }

  lemma TilesFetch(cfg: Config, listing: RestListing, base: RawTable, s: Store, h: History, f: Family, i: nat, r: BackfillRecord)
    requires Inv(cfg, listing, base, s, h) && Tiling(cfg, listing, h) && Asked(cfg, listing, f) && HasRecord(f, i, r)
    ensures WasFetched(cfg, listing, h, r)
  {
    hide Asked, IsFamily, NoExtras, StatusesFirst, Tiles, Fetched, FetchedIsStored;
    AskedIsFamily(cfg, listing, f);
    assert FamilyOk(s, f, SizesOf(h, f.key));
    CoversIffTiles(SizesOf(h, f.key), |f.candidates|);
  }

  /** All listed items lie in the window. */
  ghost predicate AllInWindow(cfg: Config, listing: RestListing) {
    && (forall i | 0 <= i < |listing.workflowRuns| :: cfg.InWindow(listing.workflowRuns[i].createdAt))
    && (forall i | 0 <= i < |listing.deployments| :: cfg.InWindow(listing.deployments[i].createdAt))
  }

  /** Different items have different record keys, and none of them was there before. */
  ghost predicate NewRecords(cfg: Config, listing: RestListing, base: RawTable) {
    && (forall r | Expected(cfg, listing, r) :: r.Key() !in base)
    && (forall f, i: nat, r, g, j: nat, q ::
          Asked(cfg, listing, f) && HasRecord(f, i, r) && Asked(cfg, listing, g) && HasRecord(g, j, q) && r.Key() == q.Key() ==>
            f == g && i == j)
  }

  lemma CandidatesSelected(cfg: Config, listing: RestListing, f: Family, i: nat)
    requires AllInWindow(cfg, listing) && Asked(cfg, listing, f) && i < |f.candidates|
    ensures f.candidates[i].Some?
  {
  }

  /** An item that no page fetched is not in the table. */
  lemma UnfetchedIsMissing(cfg: Config, listing: RestListing, base: RawTable, s: Store, h: History, f: Family, i: nat, r: BackfillRecord)
    requires Inv(cfg, listing, base, s, h) && NewRecords(cfg, listing, base)
    requires Asked(cfg, listing, f) && HasRecord(f, i, r)
    ensures r.Key() in s.raw <==> Fetched(SizesOf(h, f.key), i)
  {
    hide Asked, HasRecord, Fetched, Inv;
    StoredIsFetched(cfg, listing, base, s, h);
    assert Expected(cfg, listing, r);
    if Fetched(SizesOf(h, f.key), i) {
      assert WasFetched(cfg, listing, h, r);
    }
    if r.Key() in s.raw {
      var q :| WasFetched(cfg, listing, h, q) && q.Key() == r.Key();
      var g, j: nat :| Asked(cfg, listing, g) && HasRecord(g, j, q) && Fetched(SizesOf(h, g.key), j);
    }
  }

  /**
   * Whatever page sizes the starts of a traversal used: if the pages tile every listing, all the
   * window asks for is stored, and if all listed items are new and in the window, only then.
   */
  lemma CompleteIffTiled(cfg: Config, listing: RestListing, base: RawTable, s: Store, h: History)
    requires Inv(cfg, listing, base, s, h)
    ensures Tiling(cfg, listing, h) ==> Complete(cfg, listing, s.raw)
    ensures NewRecords(cfg, listing, base) && AllInWindow(cfg, listing) ==> (Complete(cfg, listing, s.raw) <==> Tiling(cfg, listing, h))
  {
    hide Asked, Inv, Tiles, Fetched, NewRecords, AllInWindow;
    if Tiling(cfg, listing, h) {
      TiledIsComplete(cfg, listing, base, s, h);
    }
    if NewRecords(cfg, listing, base) && AllInWindow(cfg, listing) && Complete(cfg, listing, s.raw) {
      forall f | Asked(cfg, listing, f) ensures Tiles(SizesOf(h, f.key), |f.candidates|) {
        CompleteTiles(cfg, listing, base, s, h, f);
      }
    }
  }

  lemma CompleteTiles(cfg: Config, listing: RestListing, base: RawTable, s: Store, h: History, f: Family)
    requires Inv(cfg, listing, base, s, h) && NewRecords(cfg, listing, base) && AllInWindow(cfg, listing)
    requires Complete(cfg, listing, s.raw) && Asked(cfg, listing, f)
    ensures Tiles(SizesOf(h, f.key), |f.candidates|)
  {
    hide Asked, IsFamily, NoExtras, StatusesFirst, Tiles, Fetched, FetchedIsStored, NewRecords, AllInWindow;
    AskedIsFamily(cfg, listing, f);
    assert FamilyOk(s, f, SizesOf(h, f.key));
    forall i: nat | i < |f.candidates| ensures Fetched(SizesOf(h, f.key), i) {
      CandidatesSelected(cfg, listing, f, i);
      var r := f.candidates[i].value;
      assert HasRecord(f, i, r);
      assert Expected(cfg, listing, r);
      UnfetchedIsMissing(cfg, listing, base, s, h, f, i, r);
    }
    CoversIffTiles(SizesOf(h, f.key), |f.candidates|);
  }

  // ---------------------------------------------------------------- restarts that leave no gap

  /** No start of a traversal fetched a page beyond what the earlier ones had reached. */
  ghost predicate Guarded(cfg: Config, listing: RestListing, h: History) {
    forall f | Asked(cfg, listing, f) :: StartsCovered(SizesOf(h, f.key), |f.candidates|)
  }

  /** No traversal was ever resumed with a larger page, and all pages had at least this size. */
  ghost predicate Declining(h: History, size: nat) {
    forall key :: NeverGrown(SizesOf(h, key)) && AtLeast(SizesOf(h, key), size)
  }

  predicate AtLeast(sizes: seq<nat>, size: nat) { forall k | 0 <= k < |sizes| :: sizes[k] >= size }

  lemma AppendedDeclines(h: History, g: History, size: nat)
    requires Declining(h, size) && Appended(h, g, size)
    ensures Declining(g, size)
  {
    forall key ensures NeverGrown(SizesOf(g, key)) && AtLeast(SizesOf(g, key), size) {
      assert NeverGrown(SizesOf(h, key)) && AtLeast(SizesOf(h, key), size) && AddsOnly(SizesOf(h, key), SizesOf(g, key), size);
    }
  }

  lemma SmallerDeclines(h: History, size: nat, smaller: nat)
    requires Declining(h, size) && smaller <= size
    ensures Declining(h, smaller)
  {
  }

  lemma DecliningIsGuarded(cfg: Config, listing: RestListing, h: History, size: nat)
    requires Declining(h, size)
    ensures Guarded(cfg, listing, h)
  {
    hide Asked, NeverGrown, StartsCovered;
    forall f | Asked(cfg, listing, f) ensures StartsCovered(SizesOf(h, f.key), |f.candidates|) {
      assert NeverGrown(SizesOf(h, f.key));
      NeverGrownPasses(SizesOf(h, f.key), |f.candidates|);
    }
  }

  lemma FinishedCovers(cfg: Config, listing: RestListing, base: RawTable, s: Store, h: History, f: Family)
    requires Inv(cfg, listing, base, s, h) && Guarded(cfg, listing, h) && Asked(cfg, listing, f) && IsCompleted(s, f.key)
    ensures Covers(SizesOf(h, f.key), |f.candidates|) && Tiles(SizesOf(h, f.key), |f.candidates|)
  {
    hide IsFamily, Asked, NoExtras, StatusesFirst, Tiles, Covers, FetchedIsStored, StartsCovered;
    AskedIsFamily(cfg, listing, f);
    assert FamilyOk(s, f, SizesOf(h, f.key));
    GuardSuffices(f.rule, SizesOf(h, f.key), |f.candidates|);
    CoversIffTiles(SizesOf(h, f.key), |f.candidates|);
  }

  lemma GuardedIsTiling(cfg: Config, listing: RestListing, base: RawTable, s: Store, h: History)
    requires Inv(cfg, listing, base, s, h) && Guarded(cfg, listing, h)
    requires IsCompleted(s, RunsKey(cfg)) && IsCompleted(s, DeploymentsKey(cfg))
    ensures Tiling(cfg, listing, h)
  {
    hide Inv, Guarded, IsCompleted, Tiles, Fetched, RunCandidates, DeploymentCandidates, StatusCandidates;
    FinishedCovers(cfg, listing, base, s, h, DeploymentsFamily(cfg, listing));
    forall f | Asked(cfg, listing, f) ensures Tiles(SizesOf(h, f.key), |f.candidates|) {
      if f != RunsFamily(cfg, listing) && f != DeploymentsFamily(cfg, listing) {
        var id :| WindowId(cfg, listing, id) && f == StatusesFamily(cfg, listing, id);
        WindowStatusesCompleted(cfg, listing, base, s, h, id);
      }
      FinishedCovers(cfg, listing, base, s, h, f);
    }
  }

  lemma WindowStatusesCompleted(cfg: Config, listing: RestListing, base: RawTable, s: Store, h: History, id: int)
    requires Inv(cfg, listing, base, s, h) && WindowId(cfg, listing, id)
    requires Covers(SizesOf(h, DeploymentsKey(cfg)), |listing.deployments|)
    ensures IsCompleted(s, StatusesKey(cfg, id))
  {
    hide IsFamily, NoExtras, FamilyOk, Fetched, IsCompleted;
    var i: nat :| i < |listing.deployments| && cfg.InWindow(listing.deployments[i].createdAt) && listing.deployments[i].id == id;
    assert Fetched(SizesOf(h, DeploymentsKey(cfg)), i);
  }

  /**
   * If no start left a gap, completed traversals mean exactly the expected records, beside what
   * was there before and what other traversals added.
   */
  lemma CompletedIsExact(cfg: Config, listing: RestListing, base: RawTable, s: Store, h: History)
    requires Inv(cfg, listing, base, s, h) && Guarded(cfg, listing, h)
    requires IsCompleted(s, RunsKey(cfg)) && IsCompleted(s, DeploymentsKey(cfg))
    ensures forall k: RawKey | k.source.Backfill? ::
              k in s.raw <==> k in base || exists r :: Expected(cfg, listing, r) && r.Key() == k
    ensures forall k | k in s.raw && k.source.Backfill? ::
              if k in base then s.raw[k] == base[k]
              else exists r :: Expected(cfg, listing, r) && r.Key() == k && r.Row() == s.raw[k]
  {
    hide Inv, Expected, WasFetched, Guarded, IsCompleted, Tiling;
    GuardedIsTiling(cfg, listing, base, s, h);
    TiledIsComplete(cfg, listing, base, s, h);
    StoredIsFetched(cfg, listing, base, s, h);
    forall r | WasFetched(cfg, listing, h, r) ensures Expected(cfg, listing, r) {
      FetchedIsExpected(cfg, listing, h, r);
    }
  }

  /** However often two traversals were interrupted, and whatever page sizes they used without a gap, they store the same. */
  lemma InterruptionsDoNotMatter(cfg: Config, listing: RestListing, base: RawTable, s: Store, h: History, t: Store, g: History)
    requires Inv(cfg, listing, base, s, h) && Guarded(cfg, listing, h)
    requires IsCompleted(s, RunsKey(cfg)) && IsCompleted(s, DeploymentsKey(cfg))
    requires Inv(cfg, listing, base, t, g) && Guarded(cfg, listing, g)
    requires IsCompleted(t, RunsKey(cfg)) && IsCompleted(t, DeploymentsKey(cfg))
    ensures BackfillKeys(s.raw) == BackfillKeys(t.raw)
  {
    hide Inv, Expected, Guarded, IsCompleted;
    CompletedIsExact(cfg, listing, base, s, h);
    CompletedIsExact(cfg, listing, base, t, g);
    assert forall k: RawKey | k.source.Backfill? :: k in s.raw <==> k in t.raw;
  }

  lemma FetchedIsExpected(cfg: Config, listing: RestListing, h: History, r: BackfillRecord)
    requires WasFetched(cfg, listing, h, r)
    ensures Expected(cfg, listing, r)
  {
  }

  // ---------------------------------------------------------------- a page size that grew

  /**
   * Three deployments in the window, the first page fetched with size one and the next, after a
   * restart, with size two: the traversal is completed and the deployment in the middle is missing.
   */
  lemma GrownPageSkips(cfg: Config, s: Store, a: DeploymentNode, b: DeploymentNode, c: DeploymentNode)
    requires cfg.InWindow(a.createdAt) && cfg.InWindow(b.createdAt) && cfg.InWindow(c.createdAt)
    requires a.id != b.id && b.id != c.id
    requires DeploymentsKey(cfg) !in s.checkpoints && DeploymentRecord(cfg, b).Key() !in s.raw
    ensures var key, candidates := DeploymentsKey(cfg), DeploymentCandidates(cfg, [a, b, c]);
            var first := Persisted(s, key, Chosen(PageOf(candidates, 1, 1)), PageCursor(1, Ends(ShortPage, 1, 1, 3)));
            var second := Persisted(first, key, Chosen(PageOf(candidates, 2, 2)), PageCursor(2, Ends(ShortPage, 2, 2, 3)));
            && AtPage(s, key, 1) && AtPage(first, key, 2)
            && IsCompleted(second, key) && DeploymentRecord(cfg, b).Key() !in second.raw
  {
    hide InsertAll, InsertedCount, Chosen;
    var key, candidates := DeploymentsKey(cfg), DeploymentCandidates(cfg, [a, b, c]);
    var one, two := Chosen(PageOf(candidates, 1, 1)), Chosen(PageOf(candidates, 2, 2));
    assert PageOf(candidates, 1, 1) == [Some(DeploymentRecord(cfg, a))];
    assert PageOf(candidates, 2, 2) == [Some(DeploymentRecord(cfg, c))];
    forall r ensures r in one <==> r == DeploymentRecord(cfg, a) {
      ChosenHas(PageOf(candidates, 1, 1), r);
    }
    forall r ensures r in two <==> r == DeploymentRecord(cfg, c) {
      ChosenHas(PageOf(candidates, 2, 2), r);
    }
    InsertAllKeys(s.raw, one);
    InsertAllKeys(InsertAll(s.raw, one), two);
  }
}
