/** The validator-health monitor of the bot (the `MonitoringTasks` cog): each pass
    rebuilds the per-chain slashing caches, then checks every validator with
    notifications enabled, chooses at most one alert by a fixed priority, sends it,
    and writes the fresh status back to the repository.

    Network replies, whether the alert channel resolves and whether sending
    succeeds are inputs; sent alerts are appended to `outbox`. */
module MonitoringTasks {
  import opened Wrappers
  import opened Seqs
  import opened ApiHelpers
  import opened DbManager

  const MissedBlocksThreshold: int := 50

  // ---------------------------------------------------------------------------
  // Alert choice
  // ---------------------------------------------------------------------------

  datatype Alert = NoAlert | JailedAlert | RecoveredAlert | MissedBlocksAlert

  /** The if/elif chain choosing the alert from the stored and the fresh
      (status, missed blocks): jailing first, then release from jail, then an
      upward crossing of the missed-blocks threshold. */
  function Classify(oldStatus: string, oldMissed: int, newStatus: string, newMissed: int): (a: Alert)
    ensures a == JailedAlert <==> newStatus == StatusJailed && oldStatus != StatusJailed
    ensures a == RecoveredAlert <==> newStatus != StatusJailed && oldStatus == StatusJailed
    ensures a == MissedBlocksAlert <==>
      (newStatus == StatusJailed <==> oldStatus == StatusJailed) && oldMissed < MissedBlocksThreshold <= newMissed
    ensures newStatus == oldStatus && newMissed == oldMissed ==> a == NoAlert
  {
    if newStatus == StatusJailed && oldStatus != StatusJailed then JailedAlert
    else if newStatus != StatusJailed && oldStatus == StatusJailed then RecoveredAlert
    else if newMissed > oldMissed && newMissed >= MissedBlocksThreshold && oldMissed < MissedBlocksThreshold then
      MissedBlocksAlert
    else NoAlert
  }

  /** What one `check_and_notify_validator_status` call decides: the alert chosen,
      whether it reached the channel, and the status record written back, if any. */
  datatype Step = Step(alert: Alert, delivered: bool, write: Option<ValidatorInfo>)

  /** One check against the stored (status, missed blocks). `resolved` is None when
      the chain is not configured. Nothing happens unless the resolver succeeded;
      an alert whose channel cannot be found aborts the check before the write;
      a failed send is swallowed and the write still happens. */
  function CheckStep(oldStatus: string, oldMissed: int, resolved: Option<Result<ValidatorInfo, InfoError>>,
                     channelExists: bool, sendSucceeds: bool): (s: Step)
    ensures resolved.None? || resolved.value.Err? ==> s == Step(NoAlert, false, None)
    ensures resolved.Some? && resolved.value.Ok? ==>
      var info := resolved.value.value;
      && s.alert == Classify(oldStatus, oldMissed, info.status, info.missedBlocks)
      && (s.write.Some? <==> s.alert == NoAlert || channelExists)
      && (s.write.Some? ==> s.write.value == info)
      && (s.delivered <==> s.alert != NoAlert && channelExists && sendSucceeds)
  {
    match resolved
    case None => Step(NoAlert, false, None)
    case Some(Err(_)) => Step(NoAlert, false, None)
    case Some(Ok(info)) =>
      var alert := Classify(oldStatus, oldMissed, info.status, info.missedBlocks);
      if alert != NoAlert && !channelExists then Step(alert, false, None)
      else Step(alert, alert != NoAlert && sendSucceeds, Some(info))
  }

  // ---------------------------------------------------------------------------
  // Successive checks of one validator
  // ---------------------------------------------------------------------------

  /** The stored (status, missed blocks) of one validator. */
  datatype Snapshot = Snapshot(status: string, missedBlocks: int)

  /** The inputs of one check, once the resolver has run. */
  datatype Poll = Poll(resolved: Option<Result<ValidatorInfo, InfoError>>, channelExists: bool, sendSucceeds: bool)

  function StepFrom(s: Snapshot, p: Poll): Step {
    CheckStep(s.status, s.missedBlocks, p.resolved, p.channelExists, p.sendSucceeds)
  }

  /** The snapshot after a check: the written record, or the old snapshot when nothing was written. */
  function Next(s: Snapshot, p: Poll): Snapshot {
    var st := StepFrom(s, p);
    if st.write.Some? then Snapshot(st.write.value.status, st.write.value.missedBlocks) else s
  }

  /** The snapshot after a series of checks. */
  function After(s: Snapshot, polls: seq<Poll>): Snapshot {
    if |polls| == 0 then s else Next(After(s, polls[..|polls| - 1]), polls[|polls| - 1])
  }

  /** The k-th check of a series. */
  function CheckAt(s: Snapshot, polls: seq<Poll>, k: nat): Step
    requires k < |polls|
  {
    StepFrom(After(s, polls[..k]), polls[k])
  }

  predicate StoresAtLeastThreshold(st: Step) {
    st.write.Some? && st.write.value.missedBlocks >= MissedBlocksThreshold
  }

  predicate StoresBelowThreshold(st: Step) {
    st.write.Some? && st.write.value.missedBlocks < MissedBlocksThreshold
  }

  /** Once a count at or above the threshold is stored, it stays so until a check stores one below. */
  lemma {:induction false} StaysAtOrAboveThreshold(s: Snapshot, polls: seq<Poll>, i: nat, n: nat)
    requires i < n <= |polls|
    requires StoresAtLeastThreshold(CheckAt(s, polls, i))
    requires forall k :: i < k < n ==> !StoresBelowThreshold(CheckAt(s, polls, k))
    ensures After(s, polls[..n]).missedBlocks >= MissedBlocksThreshold
  {
    assert polls[..n][..n - 1] == polls[..n - 1] && polls[..n][n - 1] == polls[n - 1];
    var before := After(s, polls[..n - 1]);
    assert After(s, polls[..n]) == Next(before, polls[n - 1]);
    assert StepFrom(before, polls[n - 1]) == CheckAt(s, polls, n - 1);
    if n - 1 > i {
      StaysAtOrAboveThreshold(s, polls, i, n - 1);
    }
  }

  /** No repeated missed-blocks alert: after a check that stored a count at or above
      the threshold, the alert is chosen again only after some check in between
      stored a count below it. */
  lemma MissedBlocksAlertNeedsDropBelow(s: Snapshot, polls: seq<Poll>, i: nat, j: nat)
    requires i < j < |polls|
    requires StoresAtLeastThreshold(CheckAt(s, polls, i))
    requires CheckAt(s, polls, j).alert == MissedBlocksAlert
    ensures exists k :: i < k < j && StoresBelowThreshold(CheckAt(s, polls, k))
  {
    if forall k :: i < k < j ==> !StoresBelowThreshold(CheckAt(s, polls, k)) {
      StaysAtOrAboveThreshold(s, polls, i, j);
    }
  }

  /** The missing-count sentinel -1 counts as "below": a poll that cannot read the
      counter (empty caches, say) re-arms the alert although the chain-side count
      never dropped. */
  lemma SentinelReArmsMissedBlocksAlert(moniker: string)
    ensures var above := ValidatorInfo(moniker, "Bonded", false, 60, 0.0, None);
            var unknown := ValidatorInfo(moniker, "Bonded", false, -1, 0.0, None);
            var polls := [Poll(Some(Ok(above)), true, true), Poll(Some(Ok(unknown)), true, true),
                          Poll(Some(Ok(above)), true, true)];
            var s := Snapshot("Bonded", 10);
            CheckAt(s, polls, 0).alert == MissedBlocksAlert && CheckAt(s, polls, 2).alert == MissedBlocksAlert
  {
    var above := ValidatorInfo(moniker, "Bonded", false, 60, 0.0, None);
    var unknown := ValidatorInfo(moniker, "Bonded", false, -1, 0.0, None);
    var polls := [Poll(Some(Ok(above)), true, true), Poll(Some(Ok(unknown)), true, true),
                  Poll(Some(Ok(above)), true, true)];
    var s := Snapshot("Bonded", 10);
    assert polls[..1] == [polls[0]] && polls[..2] == polls[..1] + [polls[1]];
    assert polls[..2][..1] == polls[..1];
    assert After(s, polls[..1]) == Snapshot("Bonded", 60);
    assert After(s, polls[..2]) == Snapshot("Bonded", -1);
  }

  // ---------------------------------------------------------------------------
  // Slashing caches
  // ---------------------------------------------------------------------------

  /** An HTTP fetch: failed (network error, non-2xx status or a body that is not JSON) or its JSON. */
  datatype Fetch<T> = Failed | Fetched(body: T)

  /** The two fetches for one chain: the `params` object (None: key absent, read as {})
      and the `info` list (None: key absent, read as []). */
  datatype SlashingPoll = SlashingPoll(params: Fetch<Option<SlashingParams>>, infos: Fetch<Option<seq<SigningInfo>>>)

  /** No later item carries the same address as item i. */
  predicate LastWithAddress(items: seq<SigningInfo>, i: nat)
    requires i < |items|
  {
    forall j :: i < j < |items| ==> items[j].address != items[i].address
  }

  /** `{item['address']: item for item in items}`: None when an item has no address
      (the KeyError); otherwise each address maps to the last item carrying it. */
  function IndexByAddress(items: seq<SigningInfo>): (r: Option<SigningInfoCache>)
    ensures r.None? <==> exists i :: 0 <= i < |items| && items[i].address.None?
    ensures r.Some? ==> forall a :: a in r.value <==> exists i :: 0 <= i < |items| && items[i].address == Some(a)
  {
    if |items| == 0 then Some(map[])
    else
      var init := items[..|items| - 1];
      var last := items[|items| - 1];
      assert forall i :: 0 <= i < |init| ==> init[i] == items[i];
      match IndexByAddress(init)
      case None => None
      case Some(m) =>
        if last.address.None? then None
        else Some(m[last.address.value := last])
  }

  /** Later duplicates overwrite earlier ones: each address maps to the last item carrying it. */
  lemma {:induction false} IndexKeepsLastItem(items: seq<SigningInfo>, i: nat)
    requires i < |items| && LastWithAddress(items, i)
    requires IndexByAddress(items).Some?
    ensures items[i].address.value in IndexByAddress(items).value
    ensures IndexByAddress(items).value[items[i].address.value] == items[i]
  {
    var n := |items| - 1;
    var init := items[..n];
    assert items == init + [items[n]];
    if i < n {
      assert init[i] == items[i];
      assert LastWithAddress(init, i);
      IndexKeepsLastItem(init, i);
    }
  }

  /** The caches one chain ends a refresh with: both empty when anything failed. */
  function RefreshedCaches(p: SlashingPoll): (c: (SlashingParams, SigningInfoCache))
    ensures p.params.Failed? || p.infos.Failed? ==> c == (map[], map[])
    ensures p.params.Fetched? && p.infos.Fetched? ==>
      match IndexByAddress(p.infos.body.GetOr([]))
      case None => c == (map[], map[])
      case Some(index) => c == (p.params.body.GetOr(map[]), index)
    ensures forall a :: a in c.1 ==> c.1[a].address == Some(a)
  {
    match p.params
    case Failed => (map[], map[])
    case Fetched(params) =>
      match p.infos
      case Failed => (map[], map[])
      case Fetched(items) =>
        match IndexByAddress(items.GetOr([]))
        case None => (map[], map[])
        case Some(index) =>
          assert forall a :: a in index ==> index[a].address == Some(a) by {
            forall a | a in index ensures index[a].address == Some(a) {
              var all := items.GetOr([]);
              var i :| 0 <= i < |all| && all[i].address == Some(a);
              LastIndexExists(all, i);
              var k :| i <= k < |all| && all[k].address == all[i].address && LastWithAddress(all, k);
              IndexKeepsLastItem(all, k);
            }
          }
          (params.GetOr(map[]), index)
  }

  /** Every address occurring in a list occurs a last time. */
  lemma {:induction false} LastIndexExists(items: seq<SigningInfo>, i: nat)
    requires i < |items|
    ensures exists k :: i <= k < |items| && items[k].address == items[i].address && LastWithAddress(items, k)
    decreases |items| - i
  {
    if !LastWithAddress(items, i) {
      var j :| i < j < |items| && items[j].address == items[i].address;
      LastIndexExists(items, j);
    }
  }

  function Lookup<K, V>(m: map<K, V>, k: K): Option<V> {
    if k in m then Some(m[k]) else None
  }

  /** Whether one of the first `n` chains has missed-block support and the given name:
      a refresh of those chains rebuilds that name's caches. */
  predicate TrackedAmong(chains: seq<ChainConfig>, n: nat, name: string)
    requires n <= |chains|
  {
    exists k :: 0 <= k < n && chains[k].missedBlocksSupported && chains[k].name == name
  }

  predicate DistinctNames(chains: seq<ChainConfig>) {
    forall i, j :: 0 <= i < j < |chains| ==> chains[i].name != chains[j].name
  }

  /** `supported_chains.get(name)`. */
  function FindChain(chains: seq<ChainConfig>, name: string): (r: Option<ChainConfig>)
    ensures r.Some? <==> exists i :: 0 <= i < |chains| && chains[i].name == name
    ensures r.Some? ==> r.value in chains && r.value.name == name
  {
    if |chains| == 0 then None
    else if chains[0].name == name then Some(chains[0])
    else
      var r := FindChain(chains[1..], name);
      assert forall i :: 1 <= i < |chains| ==> chains[i] == chains[1..][i - 1];
      r
  }

  // ---------------------------------------------------------------------------
  // One monitoring pass, as functions of the inputs
  // ---------------------------------------------------------------------------

  /** What the check of one validator reads besides the repository: the chain
      configurations, the current caches and the consensus-address derivation. */
  datatype Env = Env(
    chains: seq<ChainConfig>,
    params: map<string, SlashingParams>,
    infos: map<string, SigningInfoCache>,
    derive: (string, string) -> Option<string>)

  /** The inputs of one check: the staking reply, whether `get_channel` finds the
      channel, whether fetching the user and sending succeed, and the time written. */
  datatype CheckInput = CheckInput(reply: StakingReply, channelExists: bool, sendSucceeds: bool, checkTime: string)

  /** A delivered alert. */
  datatype Notification = Notification(
    channelId: int, userId: int, chainName: string, alert: Alert, moniker: string, status: string, missedBlocks: int)

  /** The resolver's answer for a validator of the named chain; None for an unknown chain. */
  function Resolve(env: Env, chainName: string, reply: StakingReply): (r: Option<Result<ValidatorInfo, InfoError>>)
    ensures r.None? <==> FindChain(env.chains, chainName).None?
    ensures r.Some? && r.value.Ok? && (chainName !in env.infos || chainName !in env.params) ==>
      r.value.value.missedBlocks == -1 && r.value.value.uptime.None?
    ensures r.Some? && r.value.Ok? && r.value.value.missedBlocks != -1 ==>
      && chainName in env.infos && chainName in env.params
      && FindChain(env.chains, chainName).value.missedBlocksSupported
    ensures r.Some? && reply.RequestFailed? ==> r.value == Err(NetworkError(reply.detail))
    ensures r.Some? && reply.BadStatus? ==> r.value == Err(Unexpected)
    ensures r.Some? && reply.Json? && reply.validator.Some? && WellFormedDoc(reply.validator.value) &&
            !LookupAttempted(FindChain(env.chains, chainName).value.missedBlocksSupported,
                             Lookup(env.infos, chainName).GetOr(map[]), Lookup(env.params, chainName).GetOr(map[])) ==>
      r.value.Ok? && r.value.value.missedBlocks == -1 && r.value.value.uptime.None?
    ensures r.Some? && r.value.Ok? ==>
      var cfg := FindChain(env.chains, chainName).value;
      && reply.Json? && reply.validator.Some?
      && SigningStats(cfg.missedBlocksSupported, reply.validator.value.consensusKey, cfg.valconsPrefix,
                      Lookup(env.infos, chainName).GetOr(map[]), Lookup(env.params, chainName).GetOr(map[]), env.derive)
         == Ok(Signing(r.value.value.missedBlocks, r.value.value.uptime))
  {
    match FindChain(env.chains, chainName)
    case None => None
    case Some(cfg) =>
      Some(GetValidatorInfo(cfg, reply, Lookup(env.infos, chainName).GetOr(map[]),
                            Lookup(env.params, chainName).GetOr(map[]), env.derive))
  }

  function StepOf(env: Env, e: MonitorEntry, input: CheckInput): Step {
    CheckStep(e.status, e.missedBlocks, Resolve(env, e.chainName, input.reply), input.channelExists, input.sendSucceeds)
  }

  /** The repository table and the outbox after checking one validator. */
  function Check(env: Env, rows: seq<ValidatorRow>, outbox: seq<Notification>, e: MonitorEntry, input: CheckInput)
    : (seq<ValidatorRow>, seq<Notification>)
  {
    var st := StepOf(env, e, input);
    if st.write.None? then (rows, outbox)
    else
      var info := st.write.value;
      (UpdateStatusRows(rows, e.chainName, e.validatorAddress, info.status, info.missedBlocks, input.checkTime,
                        Some(info.moniker)),
       if st.delivered
       then outbox + [Notification(e.channelId, e.userId, e.chainName, st.alert, info.moniker, info.status,
                                   info.missedBlocks)]
       else outbox)
  }

  /** The repository row of a checked validator ends up holding the snapshot `Next`
      computes, so the lemmas about successive checks speak about the stored row. */
  lemma CheckStoresNext(env: Env, rows: seq<ValidatorRow>, outbox: seq<Notification>, e: MonitorEntry,
                        input: CheckInput, k: nat)
    requires k < |rows| && Entry(rows[k]) == e
    ensures var after := Check(env, rows, outbox, e, input).0;
            var next := Next(Snapshot(e.status, e.missedBlocks),
                             Poll(Resolve(env, e.chainName, input.reply), input.channelExists, input.sendSucceeds));
            |after| == |rows| && after[k].status == next.status && after[k].missedBlocks == next.missedBlocks
  {
  }

  /** The table and outbox after checking the entries in order. */
  function Pass(env: Env, rows: seq<ValidatorRow>, outbox: seq<Notification>,
                entries: seq<MonitorEntry>, inputs: seq<CheckInput>): (seq<ValidatorRow>, seq<Notification>)
    requires |inputs| == |entries|
  {
    if |entries| == 0 then (rows, outbox)
    else
      var n := |entries| - 1;
      var before := Pass(env, rows, outbox, entries[..n], inputs[..n]);
      Check(env, before.0, before.1, entries[n], inputs[n])
  }

  /** Each entry is one row's projection: the check never touches a row with
      notifications disabled, because addresses are unique. */
  lemma {:induction false} PassLeavesDisabledRowsAlone(env: Env, rows: seq<ValidatorRow>, outbox: seq<Notification>,
                                                      entries: seq<MonitorEntry>, inputs: seq<CheckInput>)
    requires |inputs| == |entries|
    requires UniqueAddresses(rows)
    requires forall e :: e in entries ==> exists j :: 0 <= j < |rows| && rows[j].notificationsEnabled
                                                   && rows[j].validatorAddress == e.validatorAddress
    ensures var after := Pass(env, rows, outbox, entries, inputs).0;
      && |after| == |rows|
      && (forall k :: 0 <= k < |rows| ==> after[k].validatorAddress == rows[k].validatorAddress)
      && (forall k :: 0 <= k < |rows| && !rows[k].notificationsEnabled ==> after[k] == rows[k])
  {
    if |entries| > 0 {
      var n := |entries| - 1;
      assert forall e :: e in entries[..n] ==> e in entries;
      PassLeavesDisabledRowsAlone(env, rows, outbox, entries[..n], inputs[..n]);
      var e := entries[n];
      assert e in entries;
      var j :| 0 <= j < |rows| && rows[j].notificationsEnabled && rows[j].validatorAddress == e.validatorAddress;
      forall k | 0 <= k < |rows| && !rows[k].notificationsEnabled
        ensures rows[k].validatorAddress != e.validatorAddress
      {
        assert k != j;
      }
    }
  }

  /** A pass only appends to the outbox, at most one notification per validator checked. */
  lemma {:induction false} PassNotifiesAtMostOncePerEntry(env: Env, rows: seq<ValidatorRow>, outbox: seq<Notification>,
                                                         entries: seq<MonitorEntry>, inputs: seq<CheckInput>)
    requires |inputs| == |entries|
    ensures var sent := Pass(env, rows, outbox, entries, inputs).1;
      |outbox| <= |sent| <= |outbox| + |entries| && sent[..|outbox|] == outbox
  {
    if |entries| > 0 {
      var n := |entries| - 1;
      PassNotifiesAtMostOncePerEntry(env, rows, outbox, entries[..n], inputs[..n]);
      var before := Pass(env, rows, outbox, entries[..n], inputs[..n]);
      var sent := Pass(env, rows, outbox, entries, inputs).1;
      assert sent == before.1 || sent == before.1 + [sent[|sent| - 1]];
      assert before.1[..|outbox|] == outbox;
    }
  }

  // ---------------------------------------------------------------------------
  // The cog
  // ---------------------------------------------------------------------------

  class Monitor {
    const db: Database
    const chains: seq<ChainConfig>
    /** `pubkey_to_consensus_address`, left uninterpreted. */
    const derive: (string, string) -> Option<string>
    var slashingParams: map<string, SlashingParams>
    var slashingInfo: map<string, SigningInfoCache>
    var outbox: seq<Notification>

    ghost predicate Valid()
      reads this, db
    {
      db.Valid() && DistinctNames(chains)
    }

    function Environment(): Env
      reads this
    {
      Env(chains, slashingParams, slashingInfo, derive)
    }

    /** The cog starts with empty caches. */
    constructor (db: Database, chains: seq<ChainConfig>, derive: (string, string) -> Option<string>)
      requires db.Valid() && DistinctNames(chains)
      ensures Valid()
      ensures this.db == db && this.chains == chains && this.derive == derive
      ensures slashingParams == map[] && slashingInfo == map[] && outbox == []
    {
      this.db := db;
      this.chains := chains;
      this.derive := derive;
      slashingParams := map[];
      slashingInfo := map[];
      outbox := [];
    }

    /** The cache loop of `monitor_validators`: chains without missed-block support
        are skipped; every other chain gets the caches of its own fetch outcome. */
    method RefreshSlashingCaches(polls: seq<SlashingPoll>)
      requires Valid() && |polls| == |chains|
      modifies this
      ensures Valid()
      ensures forall i :: 0 <= i < |chains| && chains[i].missedBlocksSupported ==>
        Lookup(slashingParams, chains[i].name) == Some(RefreshedCaches(polls[i]).0) &&
        Lookup(slashingInfo, chains[i].name) == Some(RefreshedCaches(polls[i]).1)
      ensures forall name :: !TrackedAmong(chains, |chains|, name) ==>
        Lookup(slashingParams, name) == Lookup(old(slashingParams), name) &&
        Lookup(slashingInfo, name) == Lookup(old(slashingInfo), name)
      ensures outbox == old(outbox)
    {
      var i := 0;
      while i < |chains|
        invariant 0 <= i <= |chains|
        invariant forall k :: 0 <= k < i && chains[k].missedBlocksSupported ==>
          Lookup(slashingParams, chains[k].name) == Some(RefreshedCaches(polls[k]).0) &&
          Lookup(slashingInfo, chains[k].name) == Some(RefreshedCaches(polls[k]).1)
        invariant forall name :: !TrackedAmong(chains, i, name) ==>
          Lookup(slashingParams, name) == Lookup(old(slashingParams), name) &&
          Lookup(slashingInfo, name) == Lookup(old(slashingInfo), name)
        invariant outbox == old(outbox)
      {
        if chains[i].missedBlocksSupported {
          var caches := RefreshedCaches(polls[i]);
          slashingParams := slashingParams[chains[i].name := caches.0];
          slashingInfo := slashingInfo[chains[i].name := caches.1];
        }
        i := i + 1;
      }
    }

    /** `check_and_notify_validator_status` for one monitored row. */
    method CheckAndNotifyValidatorStatus(e: MonitorEntry, input: CheckInput)
      requires Valid()
      modifies this, db
      ensures Valid()
      ensures slashingParams == old(slashingParams) && slashingInfo == old(slashingInfo)
      ensures (db.validators, outbox) == Check(Environment(), old(db.validators), old(outbox), e, input)
      ensures db.settings == old(db.settings)
    {
      var cfg := FindChain(chains, e.chainName);
      if cfg.None? {
        return;
      }
      var resolved := GetValidatorInfo(cfg.value, input.reply, Lookup(slashingInfo, e.chainName).GetOr(map[]),
                                       Lookup(slashingParams, e.chainName).GetOr(map[]), derive);
      if resolved.Err? {
        return;
      }
      var info := resolved.value;
      var alert := Classify(e.status, e.missedBlocks, info.status, info.missedBlocks);
      if alert != NoAlert {
        if !input.channelExists {
          return;
        }
        if input.sendSucceeds {
          outbox := outbox + [Notification(e.channelId, e.userId, e.chainName, alert, info.moniker, info.status,
                                           info.missedBlocks)];
        }
      }
      db.UpdateValidatorStatus(e.chainName, e.validatorAddress, info.status, info.missedBlocks, input.checkTime,
                               Some(info.moniker));
    }

    /** The loop over `get_all_validators_to_monitor`: each entry is checked once,
        in order, against the caches as they stand. */
    method CheckEntries(entries: seq<MonitorEntry>, inputs: seq<CheckInput>)
      requires Valid() && |inputs| == |entries|
      modifies this, db
      ensures Valid()
      ensures slashingParams == old(slashingParams) && slashingInfo == old(slashingInfo)
      ensures (db.validators, outbox) == Pass(Environment(), old(db.validators), old(outbox), entries, inputs)
      ensures db.settings == old(db.settings)
    {
      var i := 0;
      while i < |entries|
        invariant 0 <= i <= |entries|
        invariant Valid()
        invariant slashingParams == old(slashingParams) && slashingInfo == old(slashingInfo)
        invariant (db.validators, outbox)
               == Pass(Environment(), old(db.validators), old(outbox), entries[..i], inputs[..i])
        invariant db.settings == old(db.settings)
      {
        CheckAndNotifyValidatorStatus(entries[i], inputs[i]);
        assert entries[..i + 1][..i] == entries[..i];
        assert inputs[..i + 1][..i] == inputs[..i];
        i := i + 1;
      }
      assert entries[..i] == entries && inputs[..i] == inputs;
    }

    /** One run of the `monitor_validators` loop: refresh the caches, then check the
        validators `get_all_validators_to_monitor` returns, each once, in order. */
    method MonitorValidators(polls: seq<SlashingPoll>, inputs: seq<CheckInput>)
      requires Valid() && |polls| == |chains|
      requires |inputs| == |db.GetAllValidatorsToMonitor()|
      modifies this, db
      ensures Valid()
      ensures forall i :: 0 <= i < |chains| && chains[i].missedBlocksSupported ==>
        Lookup(slashingParams, chains[i].name) == Some(RefreshedCaches(polls[i]).0) &&
        Lookup(slashingInfo, chains[i].name) == Some(RefreshedCaches(polls[i]).1)
      ensures forall name :: !TrackedAmong(chains, |chains|, name) ==>
        Lookup(slashingParams, name) == Lookup(old(slashingParams), name) &&
        Lookup(slashingInfo, name) == Lookup(old(slashingInfo), name)
      ensures (db.validators, outbox)
           == Pass(Environment(), old(db.validators), old(outbox), old(db.GetAllValidatorsToMonitor()), inputs)
      ensures db.settings == old(db.settings)
    {
      RefreshSlashingCaches(polls);
      var entries := db.GetAllValidatorsToMonitor();
      CheckEntries(entries, inputs);
    }
  }
}
