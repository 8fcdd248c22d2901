/** The SQLite repository behind the bot: the `validators` table of registered
    validators and the `chain_notification_settings` table of per-channel
    governance/upgrade preferences. Each table is a sequence of rows in insertion
    order; the UNIQUE constraints of the schema are the class invariant. */
module DbManager {
  import opened Wrappers
  import opened Seqs

  /** Status and missed-block count a validator is registered with. */
  const InitialStatus: string := "UNKNOWN"
  const InitialMissedBlocks: int := -1

  /** One row of the `validators` table (the AUTOINCREMENT id is not modelled). */
  datatype ValidatorRow = ValidatorRow(
    userId: int,
    channelId: int,
    chainName: string,
    validatorAddress: string,
    moniker: Option<string>,
    status: string,
    missedBlocks: int,
    lastCheckTime: string,
    notificationsEnabled: bool)

  /** The columns `get_user_validators[_by_chain]` select. */
  datatype ValidatorSummary = ValidatorSummary(
    chainName: string, validatorAddress: string, moniker: Option<string>, status: string, missedBlocks: int)

  /** The columns `get_user_validator_details` selects. */
  datatype ValidatorDetails = ValidatorDetails(
    chainName: string, validatorAddress: string, userId: int, channelId: int,
    moniker: Option<string>, status: string, missedBlocks: int, notificationsEnabled: bool)

  /** The columns `get_all_validators_to_monitor` selects. */
  datatype MonitorEntry = MonitorEntry(
    chainName: string, validatorAddress: string, userId: int, channelId: int,
    moniker: Option<string>, status: string, missedBlocks: int)

  /** One row of the `chain_notification_settings` table; a NULL mention type is None. */
  datatype ChainSetting = ChainSetting(
    channelId: int, chainName: string, notifyGov: bool, notifyUpgrade: bool, mentionType: Option<string>)

  /** The columns `get_chain_notification_preferences` returns for each row. */
  datatype ChainPreference = ChainPreference(
    channelId: int, notifyGov: bool, notifyUpgrade: bool, mentionType: Option<string>)

  function Summary(r: ValidatorRow): ValidatorSummary {
    ValidatorSummary(r.chainName, r.validatorAddress, r.moniker, r.status, r.missedBlocks)
  }

  function Details(r: ValidatorRow): ValidatorDetails {
    ValidatorDetails(r.chainName, r.validatorAddress, r.userId, r.channelId, r.moniker, r.status,
                     r.missedBlocks, r.notificationsEnabled)
  }

  function Entry(r: ValidatorRow): MonitorEntry {
    MonitorEntry(r.chainName, r.validatorAddress, r.userId, r.channelId, r.moniker, r.status, r.missedBlocks)
  }

  function Preference(s: ChainSetting): ChainPreference {
    ChainPreference(s.channelId, s.notifyGov, s.notifyUpgrade, s.mentionType)
  }

  /** `validator_address TEXT NOT NULL UNIQUE`. */
  predicate UniqueAddresses(rows: seq<ValidatorRow>) {
    forall i, j :: 0 <= i < j < |rows| ==> rows[i].validatorAddress != rows[j].validatorAddress
  }

  /** `UNIQUE(channel_id, chain_name)`. */
  predicate UniqueSettingKeys(settings: seq<ChainSetting>) {
    forall i, j :: 0 <= i < j < |settings| ==>
      (settings[i].channelId, settings[i].chainName) != (settings[j].channelId, settings[j].chainName)
  }

  predicate HasAddress(rows: seq<ValidatorRow>, address: string) {
    exists i :: 0 <= i < |rows| && rows[i].validatorAddress == address
  }

  /** The WHERE clause shared by remove, details and set-notifications. */
  predicate Matches(r: ValidatorRow, userId: int, chainName: string, address: string) {
    r.userId == userId && r.chainName == chainName && r.validatorAddress == address
  }

  /** The row `add_validator` inserts. */
  function NewRow(userId: int, channelId: int, chainName: string, address: string,
                  moniker: Option<string>, now: string): ValidatorRow
  {
    ValidatorRow(userId, channelId, chainName, address, moniker, InitialStatus, InitialMissedBlocks, now, true)
  }

  /** The table after `DELETE ... WHERE user_id = ? AND chain_name = ? AND validator_address = ?`. */
  function WithoutMatching(rows: seq<ValidatorRow>, userId: int, chainName: string, address: string): (r: seq<ValidatorRow>)
    ensures forall row :: row in r <==> row in rows && !Matches(row, userId, chainName, address)
  {
    Filter(rows, (row: ValidatorRow) => !Matches(row, userId, chainName, address))
  }

  /** One row after the status UPDATE; the moniker is replaced only by a truthy (non-NULL, non-empty) one. */
  function StatusUpdated(r: ValidatorRow, status: string, missedBlocks: int, checkTime: string,
                         moniker: Option<string>): ValidatorRow
  {
    r.(status := status, missedBlocks := missedBlocks, lastCheckTime := checkTime,
       moniker := if moniker.Some? && moniker.value != "" then moniker else r.moniker)
  }

  /** The table after `update_validator_status`: every row of that chain and address is updated. */
  function UpdateStatusRows(rows: seq<ValidatorRow>, chainName: string, address: string, status: string,
                            missedBlocks: int, checkTime: string, moniker: Option<string>): (r: seq<ValidatorRow>)
    ensures |r| == |rows|
    ensures forall i :: 0 <= i < |rows| ==>
      && r[i].userId == rows[i].userId && r[i].channelId == rows[i].channelId
      && r[i].chainName == rows[i].chainName && r[i].validatorAddress == rows[i].validatorAddress
      && r[i].notificationsEnabled == rows[i].notificationsEnabled
    ensures forall i :: 0 <= i < |rows| && (rows[i].chainName != chainName || rows[i].validatorAddress != address) ==>
      r[i] == rows[i]
    ensures forall i :: 0 <= i < |rows| && rows[i].chainName == chainName && rows[i].validatorAddress == address ==>
      && r[i].status == status && r[i].missedBlocks == missedBlocks && r[i].lastCheckTime == checkTime
      && (r[i].moniker == rows[i].moniker <== (moniker.None? || moniker.value == ""))
      && (r[i].moniker == moniker <== (moniker.Some? && moniker.value != ""))
    ensures UniqueAddresses(rows) ==> UniqueAddresses(r)
  {
    Map(rows, (row: ValidatorRow) => if row.chainName == chainName && row.validatorAddress == address
                     then StatusUpdated(row, status, missedBlocks, checkTime, moniker) else row)
  }

  /** The table after `set_validator_notifications`: only the flag of matching rows changes. */
  function NotificationRows(rows: seq<ValidatorRow>, userId: int, chainName: string, address: string,
                            enabled: bool): (r: seq<ValidatorRow>)
    ensures |r| == |rows|
    ensures forall i :: 0 <= i < |rows| ==>
      r[i] == if Matches(rows[i], userId, chainName, address) then rows[i].(notificationsEnabled := enabled) else rows[i]
    ensures UniqueAddresses(rows) ==> UniqueAddresses(r)
  {
    Map(rows, (row: ValidatorRow) => if Matches(row, userId, chainName, address) then row.(notificationsEnabled := enabled) else row)
  }

  predicate SameKey(s: ChainSetting, channelId: int, chainName: string) {
    s.channelId == channelId && s.chainName == chainName
  }

  predicate HasKey(settings: seq<ChainSetting>, channelId: int, chainName: string) {
    exists i :: 0 <= i < |settings| && SameKey(settings[i], channelId, chainName)
  }

  /** The settings table after `INSERT ... ON CONFLICT(channel_id, chain_name) DO UPDATE`:
      a conflicting row is rewritten in place, otherwise the new row is appended. */
  function Upserted(settings: seq<ChainSetting>, channelId: int, chainName: string, notifyGov: bool,
                    notifyUpgrade: bool, mentionType: Option<string>): (r: seq<ChainSetting>)
    ensures ChainSetting(channelId, chainName, notifyGov, notifyUpgrade, mentionType) in r
    ensures forall s :: s in r && SameKey(s, channelId, chainName) ==>
      s == ChainSetting(channelId, chainName, notifyGov, notifyUpgrade, mentionType)
    ensures |r| == if HasKey(settings, channelId, chainName) then |settings| else |settings| + 1
    ensures forall i :: 0 <= i < |settings| && !SameKey(settings[i], channelId, chainName) ==> r[i] == settings[i]
    ensures UniqueSettingKeys(settings) ==> UniqueSettingKeys(r)
  {
    var row := ChainSetting(channelId, chainName, notifyGov, notifyUpgrade, mentionType);
    if HasKey(settings, channelId, chainName) then
      var r := Map(settings, (s: ChainSetting) => if SameKey(s, channelId, chainName) then row else s);
      var k :| 0 <= k < |settings| && SameKey(settings[k], channelId, chainName);
      assert r[k] == row;
      r
    else
      settings + [row]
  }

  /** With the UNIQUE constraint in force, an upsert leaves exactly one row for its key. */
  lemma UpsertLeavesOneRow(settings: seq<ChainSetting>, channelId: int, chainName: string, notifyGov: bool,
                           notifyUpgrade: bool, mentionType: Option<string>)
    requires UniqueSettingKeys(settings)
    ensures var r := Upserted(settings, channelId, chainName, notifyGov, notifyUpgrade, mentionType);
      Filter(r, (s: ChainSetting) => SameKey(s, channelId, chainName))
        == [ChainSetting(channelId, chainName, notifyGov, notifyUpgrade, mentionType)]
  {
    var r := Upserted(settings, channelId, chainName, notifyGov, notifyUpgrade, mentionType);
    var k :| 0 <= k < |r| && r[k] == ChainSetting(channelId, chainName, notifyGov, notifyUpgrade, mentionType);
    forall i | 0 <= i < |r| && i != k ensures !SameKey(r[i], channelId, chainName) {
      assert (r[i].channelId, r[i].chainName) != (r[k].channelId, r[k].chainName);
    }
    FilterOne(r, (s: ChainSetting) => SameKey(s, channelId, chainName), k);
  }

  /** Repeating the same preference call changes nothing. */
  lemma UpsertIdempotent(settings: seq<ChainSetting>, channelId: int, chainName: string, notifyGov: bool,
                         notifyUpgrade: bool, mentionType: Option<string>)
    ensures var once := Upserted(settings, channelId, chainName, notifyGov, notifyUpgrade, mentionType);
      Upserted(once, channelId, chainName, notifyGov, notifyUpgrade, mentionType) == once
  {
    var row := ChainSetting(channelId, chainName, notifyGov, notifyUpgrade, mentionType);
    var once := Upserted(settings, channelId, chainName, notifyGov, notifyUpgrade, mentionType);
    var k :| 0 <= k < |once| && once[k] == row;
    assert HasKey(once, channelId, chainName);
    var twice := Upserted(once, channelId, chainName, notifyGov, notifyUpgrade, mentionType);
    assert |twice| == |once|;
    forall i | 0 <= i < |once| ensures twice[i] == once[i] {
      if SameKey(once[i], channelId, chainName) {
        assert once[i] in once;
      }
    }
  }

  /** A filter keeps a table's addresses unique. */
  lemma {:induction false} FilterKeepsUnique(rows: seq<ValidatorRow>, p: ValidatorRow -> bool)
    ensures UniqueAddresses(rows) ==> UniqueAddresses(Filter(rows, p))
  {
    if |rows| > 0 && UniqueAddresses(rows) {
      FilterKeepsUnique(rows[1..], p);
      var rest := Filter(rows[1..], p);
      forall x | x in rest ensures x.validatorAddress != rows[0].validatorAddress {
        var j :| 0 <= j < |rows[1..]| && rows[1..][j] == x;
        assert rows[j + 1] == x;
      }
    }
  }

  /** A filter keeps the settings table's (channel, chain) keys unique. */
  lemma {:induction false} FilterKeepsUniqueKeys(settings: seq<ChainSetting>, p: ChainSetting -> bool)
    ensures UniqueSettingKeys(settings) ==> UniqueSettingKeys(Filter(settings, p))
  {
    if |settings| > 0 && UniqueSettingKeys(settings) {
      FilterKeepsUniqueKeys(settings[1..], p);
      var rest := Filter(settings[1..], p);
      forall x | x in rest ensures (x.channelId, x.chainName) != (settings[0].channelId, settings[0].chainName) {
        var j :| 0 <= j < |settings[1..]| && settings[1..][j] == x;
        assert settings[j + 1] == x;
      }
    }
  }

  /** Because addresses are unique, a DELETE by (user, chain, address) removes at most one row. */
  lemma {:induction false} RemoveDeletesAtMostOne(rows: seq<ValidatorRow>, userId: int, chainName: string, address: string)
    requires UniqueAddresses(rows)
    ensures |WithoutMatching(rows, userId, chainName, address)| >= |rows| - 1
    ensures |WithoutMatching(rows, userId, chainName, address)| == |rows| <==>
      !exists i :: 0 <= i < |rows| && Matches(rows[i], userId, chainName, address)
  {
    var p := (row: ValidatorRow) => !Matches(row, userId, chainName, address);
    if |rows| > 0 {
      RemoveDeletesAtMostOne(rows[1..], userId, chainName, address);
      if !p(rows[0]) {
        forall i | 0 <= i < |rows[1..]| ensures p(rows[1..][i]) {
          assert rows[1..][i] == rows[i + 1];
        }
        FilterAll(rows[1..], p);
        assert WithoutMatching(rows, userId, chainName, address) == Filter(rows[1..], p);
      } else {
        assert WithoutMatching(rows, userId, chainName, address) == [rows[0]] + Filter(rows[1..], p);
        assert (exists i :: 0 <= i < |rows| && Matches(rows[i], userId, chainName, address)) <==>
               (exists i :: 0 <= i < |rows[1..]| && Matches(rows[1..][i], userId, chainName, address));
      }
    }
  }

  class Database {
    var validators: seq<ValidatorRow>
    var settings: seq<ChainSetting>

    /** The schema's UNIQUE constraints. */
    ghost predicate Valid()
      reads this
    {
      UniqueAddresses(validators) && UniqueSettingKeys(settings)
    }

    /** `init_db` on a fresh database file: both tables exist and are empty. */
    constructor ()
      ensures Valid()
      ensures validators == [] && settings == []
    {
      validators := [];
      settings := [];
    }

    /** `add_validator`: the INSERT succeeds unless the address is already registered,
        under any user or chain, in which case the IntegrityError is reported as false. */
    method AddValidator(userId: int, channelId: int, chainName: string, address: string, now: string,
                        moniker: Option<string> := None) returns (ok: bool)
      requires Valid()
      modifies this
      ensures Valid()
      ensures ok <==> !HasAddress(old(validators), address)
      ensures validators == if ok then old(validators) + [NewRow(userId, channelId, chainName, address, moniker, now)]
                            else old(validators)
      ensures settings == old(settings)
    {
      ok := !HasAddress(validators, address);
      if ok {
        validators := validators + [NewRow(userId, channelId, chainName, address, moniker, now)];
      }
    }

    /** `remove_validator`: deletes the rows of that user, chain and address; true iff one was deleted. */
    method RemoveValidator(userId: int, chainName: string, address: string) returns (ok: bool)
      requires Valid()
      modifies this
      ensures Valid()
      ensures validators == WithoutMatching(old(validators), userId, chainName, address)
      ensures ok <==> exists i :: 0 <= i < |old(validators)| && Matches(old(validators)[i], userId, chainName, address)
      ensures |validators| == if ok then |old(validators)| - 1 else |old(validators)|
      ensures settings == old(settings)
    {
      RemoveDeletesAtMostOne(validators, userId, chainName, address);
      FilterKeepsUnique(validators, (row: ValidatorRow) => !Matches(row, userId, chainName, address));
      var remaining := WithoutMatching(validators, userId, chainName, address);
      ok := |remaining| < |validators|;
      validators := remaining;
    }

    /** `get_user_validators`: the summaries of that user's rows, in table order. */
    function GetUserValidators(userId: int): (r: seq<ValidatorSummary>)
      reads this
      ensures |r| <= |validators|
      ensures forall s :: s in r <==> exists row :: row in validators && row.userId == userId && Summary(row) == s
      ensures UniqueAddresses(validators) ==> NoDuplicates(r)
    {
      FilterKeepsUnique(validators, (row: ValidatorRow) => row.userId == userId);
      Map(Filter(validators, (row: ValidatorRow) => row.userId == userId), Summary)
    }

    /** `get_user_validators_by_chain`: the summaries of that user's rows on that chain. */
    function GetUserValidatorsByChain(userId: int, chainName: string): (r: seq<ValidatorSummary>)
      reads this
      ensures |r| <= |validators|
      ensures forall s :: s in r <==>
        exists row :: row in validators && row.userId == userId && row.chainName == chainName && Summary(row) == s
      ensures UniqueAddresses(validators) ==> NoDuplicates(r)
    {
      FilterKeepsUnique(validators, (row: ValidatorRow) => row.userId == userId && row.chainName == chainName);
      Map(Filter(validators, (row: ValidatorRow) => row.userId == userId && row.chainName == chainName), Summary)
    }

    /** `get_user_validator_details`: the first row of that user, chain and address, if any. */
    function GetUserValidatorDetails(userId: int, chainName: string, address: string): (r: Option<ValidatorDetails>)
      reads this
      ensures r.Some? <==> exists i :: 0 <= i < |validators| && Matches(validators[i], userId, chainName, address)
      ensures r.Some? ==> exists i :: 0 <= i < |validators| && Matches(validators[i], userId, chainName, address)
                                     && r.value == Details(validators[i])
    {
      var found := Filter(validators, (row: ValidatorRow) => Matches(row, userId, chainName, address));
      assert forall i :: 0 <= i < |validators| && Matches(validators[i], userId, chainName, address) ==>
        validators[i] in found;
      if |found| == 0 then None
      else
        assert found[0] in found;
        Some(Details(found[0]))
    }

    /** `get_all_validators_to_monitor`: exactly the rows whose notifications are enabled. */
    function GetAllValidatorsToMonitor(): (r: seq<MonitorEntry>)
      reads this
      ensures |r| <= |validators|
      ensures forall e :: e in r <==> exists row :: row in validators && row.notificationsEnabled && Entry(row) == e
      ensures UniqueAddresses(validators) ==> NoDuplicates(r)
    {
      FilterKeepsUnique(validators, (row: ValidatorRow) => row.notificationsEnabled);
      Map(Filter(validators, (row: ValidatorRow) => row.notificationsEnabled), Entry)
    }

    /** `update_validator_status`: rows are matched by chain and address only, not by user. */
    method UpdateValidatorStatus(chainName: string, address: string, status: string, missedBlocks: int,
                                 checkTime: string, moniker: Option<string>)
      requires Valid()
      modifies this
      ensures Valid()
      ensures validators == UpdateStatusRows(old(validators), chainName, address, status, missedBlocks, checkTime, moniker)
      ensures settings == old(settings)
    {
      validators := UpdateStatusRows(validators, chainName, address, status, missedBlocks, checkTime, moniker);
    }

    /** `set_validator_notifications`: true iff a row of that user, chain and address matched. */
    method SetValidatorNotifications(userId: int, chainName: string, address: string, enabled: bool) returns (ok: bool)
      requires Valid()
      modifies this
      ensures Valid()
      ensures validators == NotificationRows(old(validators), userId, chainName, address, enabled)
      ensures ok <==> exists i :: 0 <= i < |old(validators)| && Matches(old(validators)[i], userId, chainName, address)
      ensures settings == old(settings)
    {
      ok := exists i :: 0 <= i < |validators| && Matches(validators[i], userId, chainName, address);
      validators := NotificationRows(validators, userId, chainName, address, enabled);
    }

    /** `set_chain_notification_preference`: an upsert on (channel, chain). */
    method SetChainNotificationPreference(channelId: int, chainName: string, notifyGov: bool,
                                          notifyUpgrade: bool, mentionType: Option<string>) returns (ok: bool)
      requires Valid()
      modifies this
      ensures Valid()
      ensures ok
      ensures settings == Upserted(old(settings), channelId, chainName, notifyGov, notifyUpgrade, mentionType)
      ensures validators == old(validators)
    {
      settings := Upserted(settings, channelId, chainName, notifyGov, notifyUpgrade, mentionType);
      ok := true;
    }

    /** `get_chain_notification_preferences`: that chain's rows with at least one flag set. */
    function GetChainNotificationPreferences(chainName: string): (r: seq<ChainPreference>)
      reads this
      ensures |r| <= |settings|
      ensures forall p :: p in r <==>
        exists s :: s in settings && s.chainName == chainName && (s.notifyGov || s.notifyUpgrade) && Preference(s) == p
      ensures UniqueSettingKeys(settings) ==> NoDuplicates(r)
    {
      var flagged := Filter(settings, (s: ChainSetting) => s.chainName == chainName && (s.notifyGov || s.notifyUpgrade));
      FilterKeepsUniqueKeys(settings, (s: ChainSetting) => s.chainName == chainName && (s.notifyGov || s.notifyUpgrade));
      assert forall i :: 0 <= i < |flagged| ==> flagged[i].chainName == chainName by {
        forall i | 0 <= i < |flagged| ensures flagged[i].chainName == chainName {
          assert flagged[i] in flagged;
        }
      }
      Map(flagged, Preference)
    }

    /** `get_all_chain_notification_chains`: each chain with a row that has a flag set, once. */
    function GetAllChainNotificationChains(): (r: seq<string>)
      reads this
      ensures NoDuplicates(r)
      ensures forall c :: c in r <==>
        exists s :: s in settings && s.chainName == c && (s.notifyGov || s.notifyUpgrade)
    {
      Distinct(Map(Filter(settings, (s: ChainSetting) => s.notifyGov || s.notifyUpgrade), (s: ChainSetting) => s.chainName))
    }
  }

  /** The by-chain listing is the user listing restricted to that chain. */
  lemma ByChainRefinesUserListing(db: Database, userId: int, chainName: string)
    ensures db.GetUserValidatorsByChain(userId, chainName)
         == Filter(db.GetUserValidators(userId), (s: ValidatorSummary) => s.chainName == chainName)
  {
    var byUser := (row: ValidatorRow) => row.userId == userId;
    var onChain := (row: ValidatorRow) => row.chainName == chainName;
    var both := (row: ValidatorRow) => row.userId == userId && row.chainName == chainName;
    FilterMap(Filter(db.validators, byUser), Summary, (s: ValidatorSummary) => s.chainName == chainName, onChain);
    FilterFilter(db.validators, byUser, onChain, both);
  }
}
