/** The pure helpers of the bot: the text progress bar and the post-processing
    `get_validator_info` applies to a staking-API reply, combined with the
    per-chain slashing caches. HTTP itself is not modelled: the reply is an input. */
module ApiHelpers {
  import opened Wrappers

  // ---------------------------------------------------------------------------
  // Progress bar
  // ---------------------------------------------------------------------------

  const FullBlock: char := '\U{2588}'
  const LightShade: char := '\U{2591}'
  const DefaultBarLength: int := 20

  /** Python's `c * n`: `n` copies of `c`, empty when `n` is not positive. */
  function Repeat(c: char, n: int): (r: string)
    ensures |r| == if n <= 0 then 0 else n
    ensures forall i :: 0 <= i < |r| ==> r[i] == c
  {
    if n <= 0 then [] else [c] + Repeat(c, n - 1)
  }

  /** `int(length * percentage // 100)`, with the float taken as an exact real. */
  function FilledLength(percentage: real, length: int): int {
    ((length as real) * percentage / 100.0).Floor
  }

  /** `create_progress_bar`: outside [0, 100] the bar is blank; otherwise it holds
      FilledLength full blocks followed by light shades up to `length` cells. */
  function ProgressBar(percentage: real, length: int := DefaultBarLength): (r: string)
    ensures |r| == 2 + (if length > 0 then length else 0)
    ensures r[0] == '[' && r[|r| - 1] == ']'
    ensures !(0.0 <= percentage <= 100.0) ==> forall i :: 0 < i < |r| - 1 ==> r[i] == ' '
    ensures 0.0 <= percentage <= 100.0 ==> forall i :: 0 < i < |r| - 1 ==>
      r[i] == if i <= FilledLength(percentage, length) then FullBlock else LightShade
  {
    if !(0.0 <= percentage <= 100.0) then
      "[" + Repeat(' ', length) + "]"
    else
      var filled := FilledLength(percentage, length);
      FilledLengthBounds(percentage, length);
      "[" + Repeat(FullBlock, filled) + Repeat(LightShade, length - filled) + "]"
  }

  /** For an in-range percentage the filled count lies between 0 and the length
      (and is 0 when the length is not positive). */
  lemma FilledLengthBounds(percentage: real, length: int)
    requires 0.0 <= percentage <= 100.0
    ensures length >= 0 ==> 0 <= FilledLength(percentage, length) <= length
    ensures length < 0 ==> length <= FilledLength(percentage, length) <= 0
  {
    var x := (length as real) * percentage / 100.0;
    if length >= 0 {
      assert 0.0 <= x <= length as real by {
        assert (length as real) * percentage <= (length as real) * 100.0;
      }
    } else {
      assert length as real <= x <= 0.0 by {
        assert (length as real) * percentage >= (length as real) * 100.0;
      }
    }
  }

  /** A larger percentage never fills fewer cells. */
  lemma FilledLengthMonotone(p: real, q: real, length: nat)
    requires p <= q
    ensures FilledLength(p, length) <= FilledLength(q, length)
  {
    var x := (length as real) * p / 100.0;
    var y := (length as real) * q / 100.0;
    assert x <= y by {
      assert (length as real) * p <= (length as real) * q;
    }
  }

  // ---------------------------------------------------------------------------
  // Status resolution
  // ---------------------------------------------------------------------------

  /** The fields of a chain's configuration the resolver reads. */
  datatype ChainConfig = ChainConfig(
    name: string,
    valconsPrefix: string,
    tokenSymbol: string,
    decimals: Option<nat>,          // `decimals`, 6 when absent
    missedBlocksSupported: bool)    // `missed_blocks_supported`, false when absent

  const DefaultDecimals: nat := 6

  /** One item of the signing-infos list: its `address` (absent: KeyError when the
      cache is built) and its `missed_blocks_counter` as `int()` converts it. */
  datatype SigningInfo = SigningInfo(address: Option<string>, missedBlocksCounter: Option<Parse<int>>)

  /** The slashing-info cache of one chain: consensus address to signing-info item. */
  type SigningInfoCache = map<string, SigningInfo>

  /** The slashing-params cache of one chain: each parameter as `int()` converts it. */
  type SlashingParams = map<string, Parse<int>>

  const SignedBlocksWindowKey: string := "signed_blocks_window"

  /** The `validator` object of a staking reply; a field is None when a key on
      its path is missing. */
  datatype ValidatorDoc = ValidatorDoc(
    moniker: Option<string>,                 // description.moniker
    jailed: Option<bool>,                    // jailed
    bondStatus: Option<string>,              // status
    delegatorShares: Option<Parse<real>>,    // delegator_shares, "0" when absent
    consensusKey: Option<string>)            // consensus_pubkey.key

  /** What `GET .../cosmos/staking/v1beta1/validators/{address}` produced. */
  datatype StakingReply =
    | RequestFailed(detail: string)          // httpx.RequestError: timeout, connection failure
    | BadStatus(code: int)                   // raise_for_status on a non-2xx response
    | NotJson                                // .json() raised a decoding (Value) error
    | Json(validator: Option<ValidatorDoc>)  // None: no `validator` key

  /** The resolved status record of a successful call. `uptime` None is "N/A"
      (percentage 0.0); total stake is kept as a number, before formatting. */
  datatype ValidatorInfo = ValidatorInfo(
    moniker: string,
    status: string,
    jailed: bool,
    missedBlocks: int,
    totalStake: real,
    uptime: Option<real>)

  /** The three `except` branches of `get_validator_info`. */
  datatype InfoError = NetworkError(detail: string) | NotFoundOrInvalid | Unexpected

  const NetworkErrorPrefix: string := "Network error: "
  // Two literals: the verifier reads the characters of a short literal but not of a long one.
  const NotFoundMessage: string := "Validator" + " not found or data format is invalid."
  const UnexpectedMessage: string := "An unexpected error occurred."

  /** The `error` string of a failed call. */
  function ErrorMessage(e: InfoError): (m: string)
    ensures e.NetworkError? <==> |m| >= |NetworkErrorPrefix| && m[..|NetworkErrorPrefix|] == NetworkErrorPrefix
    ensures e.NetworkError? ==> m[|NetworkErrorPrefix|..] == e.detail
  {
    match e
    case NetworkError(d) => NetworkErrorPrefix + d
    case NotFoundOrInvalid =>
      assert NotFoundMessage[0] == 'V' && NetworkErrorPrefix[0] == 'N';
      NotFoundMessage
    case Unexpected =>
      assert UnexpectedMessage[0] == 'A' && NetworkErrorPrefix[0] == 'N';
      UnexpectedMessage
  }

  /** A caller can tell the error apart from its message alone. */
  lemma ErrorMessageInjective(e1: InfoError, e2: InfoError)
    requires ErrorMessage(e1) == ErrorMessage(e2)
    ensures e1 == e2
  {
    if e1.NetworkError? && e2.NetworkError? {
      assert e1.detail == ErrorMessage(e1)[|NetworkErrorPrefix|..];
    }
  }

  const StatusJailed: string := "JAILED"

  /** The display status: a jailed validator is "JAILED" whatever its bond status;
      the three known bond statuses get short names; any other string passes through. */
  function DisplayStatus(jailed: bool, bondStatus: string): (r: string)
    ensures jailed ==> r == StatusJailed
    ensures !jailed && bondStatus == "BOND_STATUS_BONDED" ==> r == "Bonded"
    ensures !jailed && bondStatus == "BOND_STATUS_UNBONDING" ==> r == "Unbonding"
    ensures !jailed && bondStatus == "BOND_STATUS_UNBONDED" ==> r == "Unbonded"
    ensures !jailed && bondStatus !in {"BOND_STATUS_BONDED", "BOND_STATUS_UNBONDING", "BOND_STATUS_UNBONDED"} ==>
      r == bondStatus
    ensures r == StatusJailed <==> jailed || bondStatus == StatusJailed
  {
    if jailed then StatusJailed
    else if bondStatus == "BOND_STATUS_BONDED" then "Bonded"
    else if bondStatus == "BOND_STATUS_UNBONDING" then "Unbonding"
    else if bondStatus == "BOND_STATUS_UNBONDED" then "Unbonded"
    else bondStatus
  }

  /** The missed-block count and uptime the resolver reports. */
  datatype Signing = Signing(missedBlocks: int, uptime: Option<real>)

  /** Missed blocks unavailable: -1, uptime "N/A". */
  const Unavailable: Signing := Signing(-1, None)

  /** `(window - missed) / window * 100`. */
  function UptimePercent(window: int, missed: int): real
    requires window > 0
  {
    ((window - missed) as real / window as real) * 100.0
  }

  /** With a count within the window the uptime is a percentage, 100 exactly when nothing was missed. */
  lemma UptimeBounds(window: int, missed: int)
    requires 0 <= missed <= window && window > 0
    ensures 0.0 <= UptimePercent(window, missed) <= 100.0
    ensures UptimePercent(window, missed) == 100.0 <==> missed == 0
  {
    var w := window as real;
    var f := (window - missed) as real / w;
    assert 0.0 <= f <= 1.0 by {
      assert (window - missed) as real <= w;
    }
    if UptimePercent(window, missed) == 100.0 {
      assert f == 1.0;
      assert (window - missed) as real == f * w;
    }
  }

  /** Whether the missed-block lookup is attempted at all: the chain supports it
      and both caches are non-empty (Python truthiness of the dicts). */
  predicate LookupAttempted(supported: bool, infos: SigningInfoCache, params: SlashingParams) {
    supported && |infos| > 0 && |params| > 0
  }

  /** The missed-block part of `get_validator_info`. The consensus address comes
      from `derive` (pubkey_to_consensus_address, which reports every failure as None);
      a missing consensus key or an unparsable counter/window is a data-format error. */
  function SigningStats(supported: bool, consensusKey: Option<string>, valconsPrefix: string,
                        infos: SigningInfoCache, params: SlashingParams,
                        derive: (string, string) -> Option<string>): (r: Result<Signing, InfoError>)
    ensures !LookupAttempted(supported, infos, params) ==> r == Ok(Unavailable)
    ensures r.Err? ==> r.error == NotFoundOrInvalid
    ensures r.Ok? && r.value.missedBlocks != -1 ==>
      && LookupAttempted(supported, infos, params)
      && consensusKey.Some?
      && derive(consensusKey.value, valconsPrefix).Some?
      && derive(consensusKey.value, valconsPrefix).value in infos
    ensures r.Ok? && r.value.uptime.Some? ==>
      && SignedBlocksWindowKey in params && params[SignedBlocksWindowKey].Parsed?
      && var window := params[SignedBlocksWindowKey].value;
         window > 0 && r.value.missedBlocks >= 0 && r.value.uptime.value == UptimePercent(window, r.value.missedBlocks)
    ensures LookupAttempted(supported, infos, params) && consensusKey.Some? ==>
      var addr := derive(consensusKey.value, valconsPrefix);
      addr.Some? && addr.value in infos && infos[addr.value].missedBlocksCounter.None? ==>
        r.Err? || r.value.missedBlocks == -1
    ensures LookupAttempted(supported, infos, params) && consensusKey.None? ==> r == Err(NotFoundOrInvalid)
    ensures LookupAttempted(supported, infos, params) && consensusKey.Some? ==>
      var addr := derive(consensusKey.value, valconsPrefix);
      addr.None? || addr.value == "" || addr.value !in infos ==> r == Ok(Unavailable)
    ensures LookupAttempted(supported, infos, params) && consensusKey.Some? ==>
      var addr := derive(consensusKey.value, valconsPrefix);
      addr.Some? && addr.value != "" && addr.value in infos ==>
        var counter := infos[addr.value].missedBlocksCounter.GetOr(Parsed(-1));
        var window := if SignedBlocksWindowKey in params then params[SignedBlocksWindowKey] else Parsed(0);
        && (r.Err? <==> counter.Unparsable? || window.Unparsable?)
        && (counter.Parsed? && window.Parsed? ==>
              r == Ok(Signing(counter.value,
                              if window.value > 0 && counter.value >= 0
                              then Some(UptimePercent(window.value, counter.value)) else None)))
  {
    if !LookupAttempted(supported, infos, params) then Ok(Unavailable)
    else if consensusKey.None? then Err(NotFoundOrInvalid)
    else
      var addr := derive(consensusKey.value, valconsPrefix);
      if addr.None? || addr.value == "" || addr.value !in infos then Ok(Unavailable)
      else
        var missed := infos[addr.value].missedBlocksCounter.GetOr(Parsed(-1));
        var window := if SignedBlocksWindowKey in params then params[SignedBlocksWindowKey] else Parsed(0);
        if missed.Unparsable? || window.Unparsable? then Err(NotFoundOrInvalid)
        else if window.value > 0 && missed.value >= 0 then
          Ok(Signing(missed.value, Some(UptimePercent(window.value, missed.value))))
        else
          Ok(Signing(missed.value, None))
  }

  /** `10**token_decimals`, the divisor that turns delegator shares into whole tokens. */
  function Pow10(n: nat): (r: nat)
    ensures r >= 1
  {
    if n == 0 then 1 else 10 * Pow10(n - 1)
  }

  /** The keys `get_validator_info` reads from the validator object are present and
      convertible: the moniker, the jailed flag, the bond status (read only for a
      validator that is not jailed) and the delegator shares (default "0"). */
  predicate WellFormedDoc(doc: ValidatorDoc) {
    && doc.moniker.Some?
    && doc.jailed.Some?
    && (doc.jailed.value || doc.bondStatus.Some?)
    && doc.delegatorShares.GetOr(Parsed(0.0)).Parsed?
  }

  /** `get_validator_info` after the HTTP call: never raises, maps every failure to
      one of the three error kinds, and otherwise builds the status record. */
  function GetValidatorInfo(chain: ChainConfig, reply: StakingReply, infos: SigningInfoCache,
                            params: SlashingParams, derive: (string, string) -> Option<string>)
    : (r: Result<ValidatorInfo, InfoError>)
    ensures reply.RequestFailed? <==> r.Err? && r.error.NetworkError?
    ensures reply.RequestFailed? ==> r == Err(NetworkError(reply.detail))
    ensures reply.BadStatus? <==> r == Err(Unexpected)
    ensures reply.NotJson? || reply == Json(None) ==> r == Err(NotFoundOrInvalid)
    ensures r.Ok? ==>
      && reply.Json? && reply.validator.Some?
      && var doc := reply.validator.value;
         && doc.moniker == Some(r.value.moniker)
         && doc.jailed == Some(r.value.jailed)
         && (r.value.jailed ==> r.value.status == StatusJailed)
         && (!r.value.jailed ==> doc.bondStatus.Some? && r.value.status == DisplayStatus(false, doc.bondStatus.value))
         && doc.delegatorShares.GetOr(Parsed(0.0)).Parsed?
         && r.value.totalStake * (Pow10(chain.decimals.GetOr(DefaultDecimals)) as real)
              == doc.delegatorShares.GetOr(Parsed(0.0)).value
         && SigningStats(chain.missedBlocksSupported, doc.consensusKey, chain.valconsPrefix, infos, params, derive)
              == Ok(Signing(r.value.missedBlocks, r.value.uptime))
    ensures r.Ok? && !LookupAttempted(chain.missedBlocksSupported, infos, params) ==>
      r.value.missedBlocks == -1 && r.value.uptime.None?
    ensures reply.Json? && reply.validator.Some? ==>
      var doc := reply.validator.value;
      var stats := SigningStats(chain.missedBlocksSupported, doc.consensusKey, chain.valconsPrefix, infos, params, derive);
      && (r.Ok? <==> WellFormedDoc(doc) && stats.Ok?)
      && (stats.Err? ==> r == Err(stats.error))
  {
    match reply
    case RequestFailed(d) => Err(NetworkError(d))
    case BadStatus(_) => Err(Unexpected)
    case NotJson => Err(NotFoundOrInvalid)
    case Json(v) =>
      if v.None? then Err(NotFoundOrInvalid)
      else
        var doc := v.value;
        var shares := doc.delegatorShares.GetOr(Parsed(0.0));
        if !WellFormedDoc(doc) then Err(NotFoundOrInvalid)
        else
          match SigningStats(chain.missedBlocksSupported, doc.consensusKey, chain.valconsPrefix, infos, params, derive)
          case Err(e) => Err(e)
          case Ok(s) =>
            var scale := Pow10(chain.decimals.GetOr(DefaultDecimals)) as real;
            var status := if doc.jailed.value then StatusJailed else DisplayStatus(false, doc.bondStatus.value);
            Ok(ValidatorInfo(doc.moniker.value, status, doc.jailed.value, s.missedBlocks, shares.value / scale, s.uptime))
  }
}
