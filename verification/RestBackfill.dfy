/** Numbered page loops with a checkpoint each: a page of deployments is committed after the status loops of its nodes. */
module RestBackfill {
  import opened Wrappers
  import opened Arithmetic
  import opened RawEvents
  import opened BackfillStorage
  import opened BackfillSummary
  import opened BackfillProgress
  import opened BackfillRuns
  import opened PageHistory
  import opened RestListing
  import opened RestProgress

  // ---------------------------------------------------------------- what a faithful client may answer

  lemma RunsAnswer(script: RestScript, listing: RestListing, t: nat, size: nat, page: int)
    requires RestFaithful(script, listing) && page >= 1 && size >= 1
    ensures var reply, total := script.workflowRuns(t, size, page), |listing.workflowRuns|;
            && (RestUninterrupted(script, listing) ==> reply.Runs?)
            && (reply.Runs? ==>
                  && reply.totalCount == total
                  && reply.runs == PageOf(listing.workflowRuns, size, page)
                  && (page * size < total ==> reply.runs != []))
  {
    ReachGrows(page, size, |listing.workflowRuns|);
    ItemsBeforeNext(page, size);
  }

  /** A short page is the last one. */
  lemma DeploymentsAnswer(script: RestScript, listing: RestListing, t: nat, size: nat, page: int)
    requires RestFaithful(script, listing) && page >= 1 && size >= 1
    ensures var reply, total := script.deployments(t, size, page), |listing.deployments|;
            && (RestUninterrupted(script, listing) ==> reply.Nodes?)
            && (reply.Nodes? ==>
                  && reply.nodes == PageOf(listing.deployments, size, page)
                  && (|reply.nodes| < size <==> Ends(ShortPage, page, size, total)))
  {
    ReachGrows(page, size, |listing.deployments|);
  }

  lemma StatusesAnswer(script: RestScript, listing: RestListing, t: nat, id: int, size: nat, page: int)
    requires RestFaithful(script, listing) && page >= 1 && size >= 1
    ensures var reply, total := script.statuses(t, id, size, page), |listing.Statuses(id)|;
            && (RestUninterrupted(script, listing) ==> reply.Nodes?)
            && (reply.Nodes? ==>
                  && reply.nodes == PageOf(listing.Statuses(id), size, page)
                  && (|reply.nodes| < size <==> Ends(ShortPage, page, size, total)))
  {
    ReachGrows(page, size, |listing.Statuses(id)|);
  }

  // ---------------------------------------------------------------- the nodes of one page of deployments

  lemma NoStatuses(cfg: Config, s: Store)
    ensures StatusesCompleted(cfg, s, []) && Chosen(DeploymentCandidates(cfg, [])) == []
  {
  }

  lemma LaterKeepsStatuses(cfg: Config, s: Store, t: Store, nodes: seq<DeploymentNode>)
    requires Later(s, t) && StatusesCompleted(cfg, s, nodes)
    ensures StatusesCompleted(cfg, t, nodes)
  {
  }

  lemma StatusesAppend(cfg: Config, s: Store, nodes: seq<DeploymentNode>, node: DeploymentNode)
    requires StatusesCompleted(cfg, s, nodes)
    requires cfg.InWindow(node.createdAt) ==> IsCompleted(s, StatusesKey(cfg, node.id))
    ensures StatusesCompleted(cfg, s, nodes + [node])
  {
  }

  lemma NodeIsWindowId(cfg: Config, listing: RestListing, size: nat, page: int, i: nat)
    requires page >= 1 && i < |PageOf(listing.deployments, size, page)|
    requires cfg.InWindow(PageOf(listing.deployments, size, page)[i].createdAt)
    ensures WindowId(cfg, listing, PageOf(listing.deployments, size, page)[i].id)
  {
    ReachGrows(page, size, |listing.deployments|);
    var lo := Reach(page, size, |listing.deployments|);
    assert listing.deployments[lo + i] == PageOf(listing.deployments, size, page)[i];
  }

  // ---------------------------------------------------------------- the adapter

  /** The summary after one page, and whether that was the last one. */
  datatype Turn = Turn(summary: Summary, completed: bool)

  class GitHubRestBackfill {
    const storage: PostgresBackfillStorage
    const client: RestClient
    const cfg: Config
    const pageSize: nat
    /** With which sizes the committed pages were fetched, by this and all earlier starts. */
    ghost var history: History

    constructor (client: RestClient, storage: PostgresBackfillStorage, cfg: Config, pageSize: nat, ghost history: History)
      ensures this.client == client && this.storage == storage && this.cfg == cfg && this.pageSize == pageSize
      ensures this.history == history
    {
      this.client, this.storage, this.cfg, this.pageSize, this.history := client, storage, cfg, pageSize, history;
    }

    ghost function Now(): Ledger
      reads storage
    {
      Ledger(storage.View(), storage.submitted)
    }

    /** The API shows one frozen listing, and the store satisfies the restart invariant for it. */
    ghost predicate Sound(listing: RestListing, base: RawTable)
      reads this, storage
    {
      RestFaithful(client.script, listing) && Inv(cfg, listing, base, storage.View(), history)
    }

    /** Neither a request nor a commit will fail. */
    ghost predicate Reliable(listing: RestListing)
      reads storage, client
    {
      RestUninterrupted(client.script, listing) && client.left.None? && storage.lifetime.None?
    }

    /** The records are those of a traversal's page, and it is the last one exactly when the traversal ends there. */
    ghost predicate Fits(listing: RestListing, s: Store, f: Family, records: seq<BackfillRecord>, page: int, completed: bool) {
      && page >= 1
      && Asked(cfg, listing, f)
      && records == Chosen(PageOf(f.candidates, pageSize, page))
      && (completed <==> Ends(f.rule, page, pageSize, |f.candidates|))
      && (f.key == DeploymentsKey(cfg) ==> StatusesCompleted(cfg, s, PageOf(listing.deployments, pageSize, page)))
    }

    /** Commit one page under its number and add it to the summary. */
    method PersistPage(key: RunKey, records: seq<BackfillRecord>, page: int, completed: bool, summary: Summary,
                       ghost start: Ledger, ghost listing: RestListing, ghost base: RawTable, ghost f: Family)
      returns (r: Result<Summary, PersistError>)
      requires 1 <= pageSize && key.repositoryId == cfg.repositoryId
      requires forall x | x in records :: x.repositoryId == cfg.repositoryId
      requires AtPage(storage.View(), key, page) && Accounts(start, Now(), summary)
      modifies this, storage
      ensures Later(old(storage.View()), storage.View())
      ensures forall k | k != key :: Lookup(storage.checkpoints, k) == Lookup(old(storage.checkpoints), k)
      ensures r.Success? <==> old(storage.lifetime) != Some(0)
      ensures storage.lifetime.None? <==> old(storage.lifetime).None?
      ensures r.Success? ==>
                && Accounts(start, Now(), r.value)
                && (if completed then IsCompleted(storage.View(), key) else AtPage(storage.View(), key, page + 1))
      ensures PartiallyAccounts(start, Now())
      ensures Appended(old(history), history, pageSize)
      ensures old(Sound(listing, base)) && f.key == key && Fits(listing, old(storage.View()), f, records, page, completed) ==>
                Sound(listing, base)
    {
      hide Inv, Later, Accounts, PartiallyAccounts, RestFaithful, IsCompleted, AtPage, Persisted, Arrived, Appended, Asked,
        Chosen, PageOf, Ends, StatusesCompleted, SizesOf;
      ghost var entry := storage.View();
      PageAdvances(entry, key, page, records, completed);
      ghost var before;
      r, before := CommitPage(storage, key, records, PageCursor(page, completed), completed, summary, start);
      ArrivedIsLookup(entry, before, key);
      AtPageIsLookup(entry, before, key, page);
      PageAdvances(before, key, page, records, completed);
      if RestFaithful(client.script, listing) && Inv(cfg, listing, base, entry, history) && f.key == key
         && Fits(listing, entry, f, records, page, completed) {
        AskedIsFamily(cfg, listing, f);
        ArrivalsKeepInv(cfg, listing, base, entry, before, history);
        PageIsNext(cfg, listing, base, before, history, f);
        NextIsUnique(before, key, page);
        ArrivedIsLater(entry, before);
        if f.key == DeploymentsKey(cfg) {
          LaterKeepsStatuses(cfg, entry, before, PageOf(listing.deployments, pageSize, page));
        }
        PageKeepsInv(cfg, listing, base, before, history, f, pageSize, completed);
      }
      NothingAppended(history, pageSize);
      NotedIsAppended(history, key, pageSize);
      if r.Success? {
        history := Noted(history, key, pageSize);
      }
    }

    /** One page of runs: refuse a total beyond the cap, store the page, and only then object to an empty one. */
    method WorkflowRunsPage(page: int, summary: Summary, ghost start: Ledger, ghost listing: RestListing, ghost base: RawTable)
      returns (r: Result<Turn, RestError>)
      requires 1 <= pageSize && page >= 1
      requires AtPage(storage.View(), RunsKey(cfg), page) && Accounts(start, Now(), summary)
      modifies this, storage, client
      ensures client.asked == old(client.asked) + 1
      ensures Later(old(storage.View()), storage.View())
      ensures r.Success? ==>
                && Accounts(start, Now(), r.value.summary)
                && (if r.value.completed then IsCompleted(storage.View(), RunsKey(cfg))
                    else AtPage(storage.View(), RunsKey(cfg), page + 1) && ItemsBefore(page + 1, pageSize) < MAX_FILTERED_WORKFLOW_RUNS)
      ensures r.Failure? ==> PartiallyAccounts(start, Now())
      ensures Drawn(old(client.left), client.left) && (storage.lifetime.None? <==> old(storage.lifetime).None?)
      ensures Appended(old(history), history, pageSize)
      ensures old(Sound(listing, base)) ==>
                && Sound(listing, base)
                && (old(Reliable(listing)) && |listing.workflowRuns| <= MAX_FILTERED_WORKFLOW_RUNS ==> r.Success?)
    {
      hide Inv, Later, Accounts, PartiallyAccounts, RestFaithful, RestUninterrupted, IsCompleted, AtPage, Appended,
        PageOf, Chosen, ItemsBefore, Lookup, RunCandidates, Asked, WorkflowRunRecord, Reach;
      ghost var good, f := Sound(listing, base), RunsFamily(cfg, listing);
      AccountsPartially(start, Now(), summary);
      LaterIsReflexive(storage.View());
      NothingAppended(history, pageSize);
      if good {
        RunsAnswer(client.script, listing, client.asked, pageSize, page);
        RunsFit(cfg, listing, pageSize, page);
      }
      var reply := client.WorkflowRuns(pageSize, page);
      if reply.RunsRaised? {
        return Failure(RequestFailed);
      }
      if reply.totalCount > MAX_FILTERED_WORKFLOW_RUNS {
        return Failure(TooManyRuns);
      }
      var records := Chosen(RunCandidates(cfg, reply.runs));
      ItemsBeforeNext(page, pageSize);
      var completed := page * pageSize >= reply.totalCount;
      RunsRepository(cfg, reply.runs);
      var written := PersistPage(RunsKey(cfg), records, page, completed, summary, start, listing, base, f);
      if written.Failure? {
        return Failure(StorageFailed);
      }
      if !completed && reply.runs == [] {
        return Failure(EndedEarly);
      }
      return Success(Turn(written.value, completed));
    }

    /**
     * Traverse the filtered workflow runs.  Whatever the client answers, the traversal ends within
     * the request bound and its summary accounts for the store; over a frozen listing it also
     * keeps the restart invariant.
     */
    method RunWorkflowRuns(ghost listing: RestListing, ghost base: RawTable) returns (r: Result<Summary, RestError>)
      requires 1 <= pageSize && cfg.windowStart < cfg.windowEnd
      modifies this, storage, client
      ensures client.asked - old(client.asked) <= RequestBound(pageSize, old(NextPage(Lookup(storage.checkpoints, RunsKey(cfg)))))
      ensures Later(old(storage.View()), storage.View())
      ensures r.Success? ==> IsCompleted(storage.View(), RunsKey(cfg)) && Accounts(old(Now()), Now(), r.value)
      ensures r.Failure? ==> PartiallyAccounts(old(Now()), Now())
      ensures Drawn(old(client.left), client.left) && (storage.lifetime.None? <==> old(storage.lifetime).None?)
      ensures old(IsCompleted(storage.View(), RunsKey(cfg))) ==>
                client.asked == old(client.asked) && r == Success(NOTHING) && Now() == old(Now())
      ensures Appended(old(history), history, pageSize)
      ensures old(Sound(listing, base)) ==>
                && Sound(listing, base)
                && (old(Reliable(listing)) && |listing.workflowRuns| <= MAX_FILTERED_WORKFLOW_RUNS ==> r.Success?)
    {
      hide Inv, Later, Accounts, PartiallyAccounts, RestFaithful, RestUninterrupted, IsCompleted, AtPage, Appended,
        CeilDiv, ItemsBefore, Lookup, RunCandidates, Asked, SizesOf;
      var key := RunsKey(cfg);
      var summary := NOTHING;
      ghost var good := Sound(listing, base);
      NothingAccounts(Now());
      LaterIsReflexive(storage.View());
      NothingAppended(history, pageSize);
      AccountsPartially(Now(), Now(), summary);
      var checkpoint := storage.LoadCheckpoint(key);
      LoadedCompleted(storage.View(), key, checkpoint);
      if checkpoint.Some? && checkpoint.value.status == Completed {
        return Success(summary);
      }
      var next := NextPage(checkpoint);
      if good {
        PageIsNext(cfg, listing, base, storage.View(), history, RunsFamily(cfg, listing));
      }
      if next.Failure? {
        return Failure(next.error);
      }
      var page := next.value;
      StartsAtPage(storage.View(), key, page);
      while true
        invariant page >= next.value >= 1 && client.asked - old(client.asked) == page - next.value
        invariant page > next.value ==> ItemsBefore(page, pageSize) < MAX_FILTERED_WORKFLOW_RUNS
        invariant AtPage(storage.View(), key, page)
        invariant good ==> Sound(listing, base)
        invariant Drawn(old(client.left), client.left) && (storage.lifetime.None? <==> old(storage.lifetime).None?)
        invariant Later(old(storage.View()), storage.View()) && Accounts(old(Now()), Now(), summary)
        invariant Appended(old(history), history, pageSize)
        decreases MAX_FILTERED_WORKFLOW_RUNS - ItemsBefore(page, pageSize)
      {
        if page > next.value {
          BelowCapIsBelowCeil(page, pageSize);
        }
        ItemsBeforeNext(page, pageSize);
        ghost var entry, sizes := storage.View(), history;
        var turn := WorkflowRunsPage(page, summary, old(Now()), listing, base);
        LaterIsTransitive(old(storage.View()), entry, storage.View());
        AppendedIsTransitive(old(history), sizes, history, pageSize);
        if turn.Failure? {
          return Failure(turn.error);
        }
        summary := turn.value.summary;
        if turn.value.completed {
          return Success(summary);
        }
        page := page + 1;
      }
    }

    /** Traverse the statuses of one deployment from its own checkpoint. */
    method RunDeploymentStatuses(id: int, ghost listing: RestListing, ghost base: RawTable)
      returns (r: Result<Summary, RestError>)
      requires 1 <= pageSize
      requires client.left.None? ==> Sound(listing, base) && WindowId(cfg, listing, id)
      modifies this, storage, client
      ensures Later(old(storage.View()), storage.View())
      ensures Lookup(storage.checkpoints, DeploymentsKey(cfg)) == old(Lookup(storage.checkpoints, DeploymentsKey(cfg)))
      ensures r.Success? ==> IsCompleted(storage.View(), StatusesKey(cfg, id)) && Accounts(old(Now()), Now(), r.value)
      ensures r.Failure? ==> PartiallyAccounts(old(Now()), Now())
      ensures Drawn(old(client.left), client.left) && (storage.lifetime.None? <==> old(storage.lifetime).None?)
      ensures Appended(old(history), history, pageSize)
      ensures old(Sound(listing, base)) && WindowId(cfg, listing, id) ==>
                Sound(listing, base) && (old(Reliable(listing)) ==> r.Success?)
    {
      hide Inv, Later, Accounts, PartiallyAccounts, RestFaithful, RestUninterrupted, IsCompleted, AtPage, Appended,
        ItemsBefore, Lookup, StatusCandidates, Asked, WindowId, SizesOf, PageOf, Chosen, Reach;
      var key := StatusesKey(cfg, id);
      var summary := NOTHING;
      ghost var good, f := Sound(listing, base) && WindowId(cfg, listing, id), StatusesFamily(cfg, listing, id);
      NothingAccounts(Now());
      LaterIsReflexive(storage.View());
      NothingAppended(history, pageSize);
      AccountsPartially(Now(), Now(), summary);
      var checkpoint := storage.LoadCheckpoint(key);
      LoadedCompleted(storage.View(), key, checkpoint);
      if checkpoint.Some? && checkpoint.value.status == Completed {
        return Success(summary);
      }
      var next := NextPage(checkpoint);
      if good {
        PageIsNext(cfg, listing, base, storage.View(), history, f);
      }
      if next.Failure? {
        return Failure(next.error);
      }
      var page := next.value;
      StartsAtPage(storage.View(), key, page);
      while true
        invariant page >= 1 && AtPage(storage.View(), key, page)
        invariant good ==> Sound(listing, base)
        invariant Drawn(old(client.left), client.left) && (storage.lifetime.None? <==> old(storage.lifetime).None?)
        invariant Later(old(storage.View()), storage.View()) && Accounts(old(Now()), Now(), summary)
        invariant Lookup(storage.checkpoints, DeploymentsKey(cfg)) == old(Lookup(storage.checkpoints, DeploymentsKey(cfg)))
        invariant Appended(old(history), history, pageSize)
        decreases if client.left.Some? then client.left.value else |listing.Statuses(id)| - ItemsBefore(page, pageSize)
      {
        AccountsPartially(old(Now()), Now(), summary);
        if good {
          StatusesAnswer(client.script, listing, client.asked, id, pageSize, page);
          StatusesFit(cfg, listing, id, pageSize, page);
        }
        ItemsBeforeNext(page, pageSize);
        var reply := client.Statuses(id, pageSize, page);
        if reply.RestRaised? {
          return Failure(RequestFailed);
        }
        var records := Chosen(StatusCandidates(cfg, id, reply.nodes));
        var completed := |reply.nodes| < pageSize;
        ghost var entry, sizes := storage.View(), history;
        StatusesRepository(cfg, id, reply.nodes);
        var written := PersistPage(key, records, page, completed, summary, old(Now()), listing, base, f);
        LaterIsTransitive(old(storage.View()), entry, storage.View());
        AppendedIsTransitive(old(history), sizes, history, pageSize);
        if written.Failure? {
          return Failure(StorageFailed);
        }
        summary := written.value;
        if completed {
          return Success(summary);
        }
        page := page + 1;
      }
    }

    /** The loop over one page of deployments: statuses first, then the record. */
    method RunDeploymentNodes(nodes: seq<DeploymentNode>, ghost page: int, ghost listing: RestListing, ghost base: RawTable)
      returns (r: Result<(seq<BackfillRecord>, Summary), RestError>)
      requires 1 <= pageSize && page >= 1
      requires client.left.None? ==> Sound(listing, base) && nodes == PageOf(listing.deployments, pageSize, page)
      modifies this, storage, client
      ensures Later(old(storage.View()), storage.View())
      ensures Lookup(storage.checkpoints, DeploymentsKey(cfg)) == old(Lookup(storage.checkpoints, DeploymentsKey(cfg)))
      ensures r.Success? ==>
                && r.value.0 == Chosen(DeploymentCandidates(cfg, nodes))
                && StatusesCompleted(cfg, storage.View(), nodes)
                && Accounts(old(Now()), Now(), r.value.1)
      ensures r.Failure? ==> PartiallyAccounts(old(Now()), Now())
      ensures Drawn(old(client.left), client.left) && (storage.lifetime.None? <==> old(storage.lifetime).None?)
      ensures Appended(old(history), history, pageSize)
      ensures old(Sound(listing, base)) && nodes == PageOf(listing.deployments, pageSize, page) ==>
                Sound(listing, base) && (old(Reliable(listing)) ==> r.Success?)
    {
      hide Inv, Later, Accounts, PartiallyAccounts, RestFaithful, RestUninterrupted, IsCompleted, StatusesCompleted,
        DeploymentRecord, DeploymentCandidates, Chosen, PageOf, Reach, WindowId, Appended, Lookup;
      ghost var good := Sound(listing, base) && nodes == PageOf(listing.deployments, pageSize, page);
      var summary, records := NOTHING, [];
      NothingAccounts(Now());
      LaterIsReflexive(storage.View());
      NothingAppended(history, pageSize);
      NoStatuses(cfg, storage.View());
      for i := 0 to |nodes|
        invariant good ==> Sound(listing, base)
        invariant Later(old(storage.View()), storage.View())
        invariant Lookup(storage.checkpoints, DeploymentsKey(cfg)) == old(Lookup(storage.checkpoints, DeploymentsKey(cfg)))
        invariant Drawn(old(client.left), client.left) && (storage.lifetime.None? <==> old(storage.lifetime).None?)
        invariant Appended(old(history), history, pageSize)
        invariant records == Chosen(DeploymentCandidates(cfg, nodes[..i]))
        invariant StatusesCompleted(cfg, storage.View(), nodes[..i])
        invariant Accounts(old(Now()), Now(), summary)
      {
        var node := nodes[i];
        assert nodes[..i + 1] == nodes[..i] + [node];
        DeploymentCandidatesAppend(cfg, nodes[..i], node);
        ghost var before, sizes := Now(), history;
        if cfg.InWindow(node.createdAt) {
          if good {
            NodeIsWindowId(cfg, listing, pageSize, page, i);
          }
          var statuses := RunDeploymentStatuses(node.id, listing, base);
          LaterIsTransitive(old(storage.View()), before.store, storage.View());
          AppendedIsTransitive(old(history), sizes, history, pageSize);
          if statuses.Failure? {
            PartialPlus(old(Now()), before, Now(), summary);
            return Failure(statuses.error);
          }
          AccountsPlus(old(Now()), before, Now(), summary, statuses.value);
          summary := summary.Plus(statuses.value);
          LaterKeepsStatuses(cfg, before.store, storage.View(), nodes[..i]);
          records := records + [DeploymentRecord(cfg, node)];
        }
        StatusesAppend(cfg, storage.View(), nodes[..i], node);
      }
      assert nodes[..|nodes|] == nodes;
      return Success((records, summary));
    }

    /** One page of deployments: fetch it, complete the statuses of its nodes, store it. */
    method DeploymentsPage(page: int, summary: Summary, ghost start: Ledger, ghost listing: RestListing, ghost base: RawTable)
      returns (r: Result<Turn, RestError>)
      requires 1 <= pageSize && page >= 1
      requires client.left.None? ==> Sound(listing, base)
      requires AtPage(storage.View(), DeploymentsKey(cfg), page) && Accounts(start, Now(), summary)
      modifies this, storage, client
      ensures Later(old(storage.View()), storage.View())
      ensures r.Success? ==>
                && Accounts(start, Now(), r.value.summary)
                && (if r.value.completed then IsCompleted(storage.View(), DeploymentsKey(cfg))
                    else AtPage(storage.View(), DeploymentsKey(cfg), page + 1))
      ensures r.Failure? ==> PartiallyAccounts(start, Now())
      ensures Drawn(old(client.left), client.left) && (storage.lifetime.None? <==> old(storage.lifetime).None?)
      ensures r.Success? && client.left.Some? ==> client.left.value < old(client.left).value
      ensures Appended(old(history), history, pageSize)
      ensures old(Sound(listing, base)) ==>
                && Sound(listing, base)
                && (old(Reliable(listing)) ==> r.Success?)
                && (r.Success? && !r.value.completed ==> ItemsBefore(page + 1, pageSize) <= |listing.deployments|)
    {
      hide Inv, Later, Accounts, PartiallyAccounts, RestFaithful, RestUninterrupted, IsCompleted, AtPage, Appended,
        PageOf, Chosen, ItemsBefore, Lookup, DeploymentCandidates, Asked, Reach, StatusesCompleted;
      var key := DeploymentsKey(cfg);
      ghost var good, f := Sound(listing, base), DeploymentsFamily(cfg, listing);
      AccountsPartially(start, Now(), summary);
      LaterIsReflexive(storage.View());
      NothingAppended(history, pageSize);
      if good {
        DeploymentsAnswer(client.script, listing, client.asked, pageSize, page);
        DeploymentsFit(cfg, listing, pageSize, page);
      }
      ItemsBeforeNext(page, pageSize);
      var reply := client.Deployments(pageSize, page);
      if reply.RestRaised? {
        return Failure(RequestFailed);
      }
      ghost var atPage := Now();
      var work := RunDeploymentNodes(reply.nodes, page, listing, base);
      if work.Failure? {
        PartialPlus(start, atPage, Now(), summary);
        return Failure(work.error);
      }
      AccountsPlus(start, atPage, Now(), summary, work.value.1);
      var completed := |reply.nodes| < pageSize;
      ghost var ready, sizes := Now(), history;
      AtPageIsLookup(atPage.store, ready.store, key, page);
      DeploymentsRepository(cfg, reply.nodes);
      var written := PersistPage(key, work.value.0, page, completed, summary.Plus(work.value.1), start, listing, base, f);
      LaterIsTransitive(atPage.store, ready.store, storage.View());
      AppendedIsTransitive(old(history), sizes, history, pageSize);
      if written.Failure? {
        return Failure(StorageFailed);
      }
      return Success(Turn(written.value, completed));
    }

    /** Traverse all deployments, each in-window one with all its statuses. */
    method RunDeployments(ghost listing: RestListing, ghost base: RawTable) returns (r: Result<Summary, RestError>)
      requires 1 <= pageSize
      requires client.left.None? ==> Sound(listing, base)
      modifies this, storage, client
      ensures Later(old(storage.View()), storage.View())
      ensures r.Success? ==> IsCompleted(storage.View(), DeploymentsKey(cfg)) && Accounts(old(Now()), Now(), r.value)
      ensures r.Failure? ==> PartiallyAccounts(old(Now()), Now())
      ensures old(IsCompleted(storage.View(), DeploymentsKey(cfg))) ==>
                client.asked == old(client.asked) && r == Success(NOTHING) && Now() == old(Now())
      ensures Appended(old(history), history, pageSize)
      ensures old(Sound(listing, base)) ==> Sound(listing, base) && (old(Reliable(listing)) ==> r.Success?)
    {
      hide Inv, Later, Accounts, PartiallyAccounts, RestFaithful, RestUninterrupted, IsCompleted, AtPage, Appended,
        ItemsBefore, Lookup, Asked, SizesOf, DeploymentCandidates;
      var key := DeploymentsKey(cfg);
      var summary := NOTHING;
      ghost var good := Sound(listing, base);
      NothingAccounts(Now());
      LaterIsReflexive(storage.View());
      NothingAppended(history, pageSize);
      AccountsPartially(Now(), Now(), summary);
      var checkpoint := storage.LoadCheckpoint(key);
      LoadedCompleted(storage.View(), key, checkpoint);
      if checkpoint.Some? && checkpoint.value.status == Completed {
        return Success(summary);
      }
      var next := NextPage(checkpoint);
      if good {
        PageIsNext(cfg, listing, base, storage.View(), history, DeploymentsFamily(cfg, listing));
      }
      if next.Failure? {
        return Failure(next.error);
      }
      var page := next.value;
      StartsAtPage(storage.View(), key, page);
      while true
        invariant page >= 1 && AtPage(storage.View(), key, page)
        invariant good ==> Sound(listing, base)
        invariant Drawn(old(client.left), client.left) && (storage.lifetime.None? <==> old(storage.lifetime).None?)
        invariant Later(old(storage.View()), storage.View()) && Accounts(old(Now()), Now(), summary)
        invariant Appended(old(history), history, pageSize)
        decreases if client.left.Some? then client.left.value else |listing.deployments| - ItemsBefore(page, pageSize)
      {
        ItemsBeforeNext(page, pageSize);
        ghost var entry, sizes := storage.View(), history;
        var turn := DeploymentsPage(page, summary, old(Now()), listing, base);
        LaterIsTransitive(old(storage.View()), entry, storage.View());
        AppendedIsTransitive(old(history), sizes, history, pageSize);
        if turn.Failure? {
          return Failure(turn.error);
        }
        summary := turn.value.summary;
        if turn.value.completed {
          return Success(summary);
        }
        page := page + 1;
      }
    }

    /** Runs first, then deployments; the window is checked before any request. */
    method Run(ghost listing: RestListing, ghost base: RawTable) returns (r: Result<Summary, RestError>)
      requires 1 <= pageSize
      requires client.left.None? ==> Sound(listing, base)
      modifies this, storage, client
      ensures Later(old(storage.View()), storage.View())
      ensures r.Success? ==>
                && IsCompleted(storage.View(), RunsKey(cfg)) && IsCompleted(storage.View(), DeploymentsKey(cfg))
                && Accounts(old(Now()), Now(), r.value)
      ensures r.Failure? ==> PartiallyAccounts(old(Now()), Now())
      ensures cfg.windowStart >= cfg.windowEnd ==> r == Failure(InvalidWindow)
      ensures Appended(old(history), history, pageSize)
      ensures old(Sound(listing, base)) ==>
                && Sound(listing, base)
                && (cfg.windowStart < cfg.windowEnd && old(Reliable(listing)) && |listing.workflowRuns| <= MAX_FILTERED_WORKFLOW_RUNS ==>
                      r.Success?)
    {
      hide Inv, Later, Accounts, PartiallyAccounts, RestFaithful, RestUninterrupted, IsCompleted, Lookup, Appended;
      NothingAccounts(Now());
      LaterIsReflexive(storage.View());
      NothingAppended(history, pageSize);
      AccountsPartially(Now(), Now(), NOTHING);
      if cfg.windowStart >= cfg.windowEnd {
        return Failure(InvalidWindow);
      }
      r := RunWorkflowRuns(listing, base);
      if r.Failure? {
        return;
      }
      var runs := r.value;
      ghost var between, sizes := Now(), history;
      r := RunDeployments(listing, base);
      LaterIsTransitive(old(storage.View()), between.store, storage.View());
      AppendedIsTransitive(old(history), sizes, history, pageSize);
      LaterKeepsCompleted(between.store, storage.View(), RunsKey(cfg));
      if r.Failure? {
        PartialPlus(old(Now()), between, Now(), runs);
        return;
      }
      AccountsPlus(old(Now()), between, Now(), runs, r.value);
      r := Success(runs.Plus(r.value));
    }
  }

  lemma NextIsUnique(s: Store, key: RunKey, page: int)
    requires AtPage(s, key, page)
    ensures NextPage(Lookup(s.checkpoints, key)) == Success(page) && !IsCompleted(s, key)
  {
  }

  lemma RunsRepository(cfg: Config, nodes: seq<WorkflowRunNode>)
    ensures forall r | r in Chosen(RunCandidates(cfg, nodes)) :: r.repositoryId == cfg.repositoryId
  {
    CandidatesRepository(cfg, RunCandidates(cfg, nodes));
  }

  lemma RunsFit(cfg: Config, listing: RestListing, size: nat, page: int)
    requires page >= 1
    ensures Asked(cfg, listing, RunsFamily(cfg, listing))
    ensures RunCandidates(cfg, PageOf(listing.workflowRuns, size, page)) == PageOf(RunsFamily(cfg, listing).candidates, size, page)
    ensures RunsFamily(cfg, listing).key != DeploymentsKey(cfg)
  {
    RunCandidatesOfPage(cfg, listing.workflowRuns, size, page);
  }

  lemma DeploymentsRepository(cfg: Config, nodes: seq<DeploymentNode>)
    ensures forall r | r in Chosen(DeploymentCandidates(cfg, nodes)) :: r.repositoryId == cfg.repositoryId
  {
    CandidatesRepository(cfg, DeploymentCandidates(cfg, nodes));
  }

  lemma StatusesRepository(cfg: Config, id: int, nodes: seq<StatusNode>)
    ensures forall r | r in Chosen(StatusCandidates(cfg, id, nodes)) :: r.repositoryId == cfg.repositoryId
  {
    CandidatesRepository(cfg, StatusCandidates(cfg, id, nodes));
  }

  lemma DeploymentsFit(cfg: Config, listing: RestListing, size: nat, page: int)
    requires page >= 1
    ensures Asked(cfg, listing, DeploymentsFamily(cfg, listing))
    ensures DeploymentCandidates(cfg, PageOf(listing.deployments, size, page)) ==
            PageOf(DeploymentsFamily(cfg, listing).candidates, size, page)
  {
    DeploymentCandidatesOfPage(cfg, listing.deployments, size, page);
  }

  lemma StatusesFit(cfg: Config, listing: RestListing, id: int, size: nat, page: int)
    requires page >= 1 && WindowId(cfg, listing, id)
    ensures IsFamily(cfg, listing, StatusesFamily(cfg, listing, id)) && Asked(cfg, listing, StatusesFamily(cfg, listing, id))
    ensures StatusCandidates(cfg, id, PageOf(listing.Statuses(id), size, page)) ==
            PageOf(StatusesFamily(cfg, listing, id).candidates, size, page)
    ensures StatusesKey(cfg, id) != DeploymentsKey(cfg)
  {
    StatusCandidatesOfPage(cfg, id, listing.Statuses(id), size, page);
  }

  // ---------------------------------------------------------------- any number of starts

  ghost predicate NeverFails(a: Attempt<RestScript>, listing: RestListing) {
    RestUninterrupted(a.script, listing) && a.Lasting()
  }

  /** No start uses a larger page than an earlier one, or than this. */
  ghost predicate SizesDecline(events: seq<Event<RestScript>>, size: nat) {
    && (forall e | e in events && e.Begin? :: e.attempt.pageSize <= size)
    && (forall i, j | 0 <= i < j < |events| && events[i].Begin? && events[j].Begin? ::
          events[j].attempt.pageSize <= events[i].attempt.pageSize)
  }

  /** A process starts, runs as far as it gets, and is gone. */
  method StartOnce(storage: PostgresBackfillStorage, cfg: Config, a: Attempt<RestScript>, ghost listing: RestListing,
                   ghost base: RawTable, ghost before: History)
    returns (ghost history: History)
    requires 1 <= a.pageSize && RestFaithful(a.script, listing) && cfg.windowStart < cfg.windowEnd
    requires Inv(cfg, listing, base, storage.View(), before)
    modifies storage
    ensures Inv(cfg, listing, base, storage.View(), history) && Appended(before, history, a.pageSize)
    ensures PartiallyAccounts(old(Ledger(storage.View(), storage.submitted)), Ledger(storage.View(), storage.submitted))
    ensures (NeverFails(a, listing) && |listing.workflowRuns| <= MAX_FILTERED_WORKFLOW_RUNS)
            || old(IsCompleted(storage.View(), RunsKey(cfg)) && IsCompleted(storage.View(), DeploymentsKey(cfg))) ==>
              IsCompleted(storage.View(), RunsKey(cfg)) && IsCompleted(storage.View(), DeploymentsKey(cfg))
  {
    hide Inv, Later, Accounts, PartiallyAccounts, RestFaithful, RestUninterrupted, IsCompleted, Appended;
    ghost var entry := Ledger(storage.View(), storage.submitted);
    storage.Reconnect(a.lifetime, a.arrivals);
    var client := new RestClient(a.script, a.answers);
    var backfill := new GitHubRestBackfill(client, storage, cfg, a.pageSize, before);
    var r := backfill.Run(listing, base);
    history := backfill.history;
    if r.Success? {
      AccountsPartially(entry, Ledger(storage.View(), storage.submitted), r.value);
    }
    LaterKeepsCompleted(entry.store, storage.View(), RunsKey(cfg));
    LaterKeepsCompleted(entry.store, storage.View(), DeploymentsKey(cfg));
  }

  /**
   * Any number of starts on the same storage with any page sizes, and between them any transactions
   * of other processes.  Wherever each start was cut off, the invariant holds over a base that grew
   * only by rows of those transactions, one that never fails leaves both families completed for
   * good, and declining page sizes stay on record as such.
   */
  method Restart(storage: PostgresBackfillStorage, cfg: Config, events: seq<Event<RestScript>>, ghost listing: RestListing,
                 ghost base: RawTable, ghost before: History, ghost size: nat)
    returns (ghost widened: RawTable, ghost history: History)
    requires forall e | e in events :: Admissible(cfg, REST_RESOURCES, e)
    requires forall e | e in events && e.Begin? :: RestFaithful(e.attempt.script, listing)
    requires cfg.windowStart < cfg.windowEnd
    requires Inv(cfg, listing, base, storage.View(), before)
    modifies storage
    ensures GivenBy(base, widened, events) && Inv(cfg, listing, widened, storage.View(), history)
    ensures |listing.workflowRuns| <= MAX_FILTERED_WORKFLOW_RUNS
            && (exists e | e in events :: e.Begin? && NeverFails(e.attempt, listing)) ==>
              IsCompleted(storage.View(), RunsKey(cfg)) && IsCompleted(storage.View(), DeploymentsKey(cfg))
    ensures PartiallyAccounts(old(Ledger(storage.View(), storage.submitted)), Ledger(storage.View(), storage.submitted))
    ensures GrewBy(before, history, set e | e in events && e.Begin? :: e.attempt.pageSize)
    ensures Declining(before, size) && SizesDecline(events, size) ==> Guarded(cfg, listing, history)
  {
    hide Inv, Later, Accounts, PartiallyAccounts, RestFaithful, RestUninterrupted, IsCompleted, Foreign, SameClaims, AfterWrite,
      Lookup, Declining, Guarded, Appended, GrewBy, GivenBy, Widened;
    NothingGiven<RestScript>(base);
    ghost var used := set e | e in events && e.Begin? :: e.attempt.pageSize;
    NothingGrew(before, used);
    ghost var start := Ledger(storage.View(), storage.submitted);
    ghost var bound := size;
    widened, history := base, before;
    NothingAccounts(start);
    AccountsPartially(start, start, NOTHING);
    for i := 0 to |events|
      invariant GivenBy(base, widened, events[..i]) && Inv(cfg, listing, widened, storage.View(), history)
      invariant |listing.workflowRuns| <= MAX_FILTERED_WORKFLOW_RUNS
                && (exists j :: 0 <= j < i && events[j].Begin? && NeverFails(events[j].attempt, listing)) ==>
                  IsCompleted(storage.View(), RunsKey(cfg)) && IsCompleted(storage.View(), DeploymentsKey(cfg))
      invariant PartiallyAccounts(start, Ledger(storage.View(), storage.submitted))
      invariant GrewBy(before, history, used)
      invariant Declining(before, size) && SizesDecline(events, size) ==>
                  && Declining(history, bound)
                  && forall j | i <= j < |events| && events[j].Begin? :: events[j].attempt.pageSize <= bound
    {
      ghost var entry := Ledger(storage.View(), storage.submitted);
      assert Admissible(cfg, REST_RESOURCES, events[i]);
      assert events[..i + 1] == events[..i] + [events[i]];
      match events[i] {
        case Begin(a) =>
          ghost var longer := StartOnce(storage, cfg, a, listing, widened, history);
          GrewByAppended(before, history, longer, used, a.pageSize);
          if Declining(before, size) && SizesDecline(events, size) {
            SmallerDeclines(history, bound, a.pageSize);
            AppendedDeclines(history, longer, a.pageSize);
          }
          bound, history := a.pageSize, longer;
          GivenLater(base, widened, events[..i], events[i]);
        case Other(w) =>
          WriteAccounts(entry.store, entry.submitted, w);
          ForeignKeepsInv(cfg, listing, widened, entry.store, w, history);
          OuterClaims(cfg, entry.store, AfterWrite(entry.store, w));
          InvContainsBase(cfg, listing, widened, entry.store, history);
          GivenMore(base, widened, events[..i], entry.store, w);
          widened := Widened(widened, entry.store.raw, AfterWrite(entry.store, w).raw);
          storage.OtherWriter(w);
      }
      PartialsCompose(start, entry, Ledger(storage.View(), storage.submitted));
    }
    assert events[..|events|] == events;
    if Declining(before, size) && SizesDecline(events, size) {
      DecliningIsGuarded(cfg, listing, history, bound);
    }
  }

  lemma OuterClaims(cfg: Config, s: Store, t: Store)
    requires SameClaims(cfg, s, t)
    ensures IsCompleted(s, RunsKey(cfg)) <==> IsCompleted(t, RunsKey(cfg))
    ensures IsCompleted(s, DeploymentsKey(cfg)) <==> IsCompleted(t, DeploymentsKey(cfg))
  {
    assert Lookup(s.checkpoints, RunsKey(cfg)) == Lookup(t.checkpoints, RunsKey(cfg));
    assert Lookup(s.checkpoints, DeploymentsKey(cfg)) == Lookup(t.checkpoints, DeploymentsKey(cfg));
  }

  lemma InvContainsBase(cfg: Config, listing: RestListing, base: RawTable, s: Store, h: History)
    requires Inv(cfg, listing, base, s, h)
    ensures Grows(base, s.raw)
  {
  }

  /** All starts of a history, with pages that never grow, and one of them never fails. */
  ghost predicate FinishesAlone(events: seq<Event<RestScript>>, listing: RestListing, size: nat) {
    && (forall e | e in events :: e.Begin? && 1 <= e.attempt.pageSize && RestFaithful(e.attempt.script, listing))
    && (exists e | e in events :: e.Begin? && NeverFails(e.attempt, listing))
    && SizesDecline(events, size)
  }

  /**
   * Two databases that start alike: however often the traversals of the first are cut off before
   * they complete, it ends with the same backfilled identities as the second, and no others than
   * those of the window are new.
   */
  method InterruptedLikeUninterrupted(first: PostgresBackfillStorage, second: PostgresBackfillStorage, cfg: Config,
                                      interrupted: seq<Event<RestScript>>, uninterrupted: seq<Event<RestScript>>,
                                      ghost listing: RestListing, ghost size: nat)
    requires first != second && first.View() == second.View() && cfg.windowStart < cfg.windowEnd
    requires forall k | k in first.checkpoints :: !OwnKey(cfg, REST_RESOURCES, k)
    requires |listing.workflowRuns| <= MAX_FILTERED_WORKFLOW_RUNS
    requires FinishesAlone(interrupted, listing, size) && FinishesAlone(uninterrupted, listing, size)
    modifies first, second
    ensures BackfillKeys(first.raw) == BackfillKeys(second.raw)
    ensures forall k | k in first.raw && k !in old(first.raw) && k.source.Backfill? ::
              exists r :: Expected(cfg, listing, r) && r.Key() == k && r.Row() == first.raw[k]
  {
    hide Inv, RestFaithful, RestUninterrupted, IsCompleted, GivenBy, Expected, SizesDecline, Guarded, GrewBy;
    FreshStart(cfg, listing, first.View());
    NoPagesDecline(size);
    ghost var base := first.raw;
    ghost var one, h := Restart(first, cfg, interrupted, listing, base, map[], size);
    ghost var two, g := Restart(second, cfg, uninterrupted, listing, base, map[], size);
    AloneIsGivenNothing(base, one, interrupted);
    AloneIsGivenNothing(base, two, uninterrupted);
    InterruptionsDoNotMatter(cfg, listing, base, first.View(), h, second.View(), g);
    CompletedIsExact(cfg, listing, base, first.View(), h);
  }

  lemma NoPagesDecline(size: nat)
    ensures Declining(map[], size)
  {
  }
}
