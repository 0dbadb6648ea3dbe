/**
 * The raffle contract (src/contract.rs). Its persistent state is four storage
 * items, each possibly never saved, held here as the `Option` fields of class
 * `Raffle`. Each entry point either fails with a named error and writes
 * nothing, or passes all its checks and then saves.
 *
 * As written, the contract has no write-once guard: every successful oracle
 * callback and every `TestRandomizer` call overwrites the one winners item,
 * and `TestRandomizer` is open to any sender.
 */
module Contract {
  import opened Wrappers
  import opened Error
  import opened Platform
  import Text

  // Storage keys of the four items (src/state.rs).
  const ParticipantCountKey := "participant_count"
  const NoisProxyKey := "nois_proxy"
  const AdminKey := "admin"
  const WinnersKey := "winners"

  /** How many winners a draw asks the selector for. */
  const WinnerCount: nat := 100

  /** The job id under which the contract requests randomness. */
  const JobId := "raffle"

  datatype InstantiateMsg = InstantiateMsg(participantCount: U32, noisProxyAddress: string)

  /**
   * The execute messages as `execute` matches them. src/msg.rs declares
   * `RequestRandomness { job_id }` and no `TestRandomizer`; contract.rs matches
   * `RequestRandomness {}` and `TestRandomizer { randomness }`, and this model
   * follows contract.rs.
   */
  datatype ExecuteMsg =
    | RequestRandomness
    | NoisReceive(callback: NoisCallback)
    | TestRandomizer(randomness: string)

  /**
   * The queries `query` answers. src/msg.rs also declares `TestWinners`, which
   * `query` does not match; it has no counterpart here.
   */
  datatype QueryMsg = ParticipantCount | Winners | Admin | NoisProxy

  /** The value a query returns, before its JSON encoding. */
  datatype QueryResponse =
    | Count(count: U32)
    | WinnerList(winners: seq<U32>)
    | AdminAddr(admin: Addr)
    | ProxyAddr(proxy: Addr)

  function Min(a: nat, b: nat): nat {
    if a <= b then a else b
  }

  ghost predicate Distinct(s: seq<U32>) {
    forall i, j :: 0 <= i < j < |s| ==> s[i] != s[j]
  }

  /** `(0..n).collect::<Vec<u32>>()`: the participants, numbered from 0, in ascending order. */
  function Population(n: U32): (pop: seq<U32>)
    ensures |pop| == n
    ensures forall i :: 0 <= i < n ==> pop[i] == i
  {
    if n == 0 then [] else Population(n - 1) + [n - 1]
  }

  /**
   * The draw both winner-picking paths make: the selector asked for 100
   * winners from exactly the list 0, 1, ..., count - 1, in ascending order.
   */
  function Draw(pick: (Seed, nat, seq<U32>) -> seq<U32>, seed: Seed, count: U32): (ws: seq<U32>)
    ensures forall pop: seq<U32> | |pop| == count && (forall i :: 0 <= i < |pop| ==> pop[i] == i) ::
              ws == pick(seed, WinnerCount, pop)
  {
    assert forall pop: seq<U32> | |pop| == count && (forall i :: 0 <= i < |pop| ==> pop[i] == i) ::
             pop == Population(count);
    pick(seed, WinnerCount, Population(count))
  }

  /**
   * `Item::load`: the saved value, or a not-found error naming the item. The
   * entry points of `execute` lift the error into `ContractError::Std`.
   */
  function Load<T>(cell: Option<T>, key: string): (r: Result<T, StdError>)
    ensures r.Ok? <==> cell.Some?
    ensures r.Ok? ==> r.value == cell.value
    ensures r.Err? ==> r.error == NotFound(key)
  {
    match cell
    case None => Err(NotFound(key))
    case Some(v) => Ok(v)
  }

  /** `Item::load` followed by `?` in an entry point that returns `ContractError`. */
  function LoadOrStd<T>(cell: Option<T>, key: string): (r: Result<T, ContractError>)
    ensures r.Ok? <==> cell.Some?
    ensures r.Ok? ==> r.value == cell.value
    ensures r.Err? ==> r.error == Std(NotFound(key))
  {
    Load(cell, key).MapFailure(e => Std(e))
  }

  /**
   * Conversion of decoded randomness to `[u8; 32]` (`try_into` in the
   * `TestRandomizer` arm, `to_array` in the callback): anything but exactly 32
   * bytes is `InvalidRandomness`.
   */
  function ToSeed(bytes: seq<bv8>): (r: Result<Seed, ContractError>)
    ensures r.Ok? <==> |bytes| == 32
    ensures r.Ok? ==> r.value == bytes
    ensures r.Err? ==> r.error == InvalidRandomness
  {
    if |bytes| == 32 then Ok(bytes) else Err(InvalidRandomness)
  }

  /**
   * The response of a successful draw: no message and one `winners`
   * attribute, from whose value the drawn list can be read back exactly.
   */
  function WinnersResponse(ws: seq<U32>): (r: Response)
    ensures r.messages == [] && |r.attributes| == 1 && r.attributes[0].key == "winners"
    ensures Text.ParseWinners(r.attributes[0].value) == Some(ws)
  {
    Response([], [Attribute("winners", Text.WinnersString(ws))])
  }

  /**
   * The response of a successful `instantiate`: no message; the five
   * attributes in order, `action = instantiate` first; the `participant_count`
   * value reads back as the saved count, and the `nois_proxy_addr` and
   * `creator` values are the saved proxy and admin.
   */
  function InstantiateResponse(msg: InstantiateMsg, proxy: Addr, creator: Addr): (r: Response)
    ensures r.messages == [] && |r.attributes| == 5
    ensures r.attributes[0] == Attribute("action", "instantiate")
    ensures && r.attributes[1].key == "participant_count"
            && r.attributes[2].key == "nois_proxy_address"
            && r.attributes[3].key == "nois_proxy_addr"
            && r.attributes[4].key == "creator"
    ensures Text.AllDigits(r.attributes[1].value)
    ensures Text.DecimalValue(r.attributes[1].value) == msg.participantCount
    ensures r.attributes[2].value == msg.noisProxyAddress
    ensures r.attributes[3].value == proxy.text && r.attributes[4].value == creator.text
  {
    Text.DecimalRoundTrip(msg.participantCount);
    Response([], [
      Attribute("action", "instantiate"),
      Attribute("participant_count", Text.ToDecimal(msg.participantCount)),
      Attribute("nois_proxy_address", msg.noisProxyAddress),
      Attribute("nois_proxy_addr", proxy.text),
      Attribute("creator", creator.text)])
  }

  /**
   * How a winner-picking call ends, given the outcome of its checks and draw:
   * on an error, that error and the winners item as it was; on success, the
   * drawn list saved in place of whatever was there, and its response.
   */
  predicate Commits(outcome: Result<seq<U32>, ContractError>, before: Option<seq<U32>>,
                    after: Option<seq<U32>>, r: Result<Response, ContractError>)
  {
    match outcome
    case Err(e) => r == Err(e) && after == before
    case Ok(ws) => r == Ok(WinnersResponse(ws)) && after == Some(ws)
  }

  /**
   * ASSUMPTION about the foreign selector `nois::pick`, never proved here:
   * from a list of distinct values it returns min(k, length) distinct values,
   * each taken from the list. It is used only as a stated precondition.
   */
  ghost predicate SelectsWithoutReplacement(pick: (Seed, nat, seq<U32>) -> seq<U32>) {
    forall seed: Seed, k: nat, pop: seq<U32> ::
      Distinct(pop) ==>
        && |pick(seed, k, pop)| == Min(k, |pop|)
        && Distinct(pick(seed, k, pop))
        && (forall i :: 0 <= i < |pick(seed, k, pop)| ==> pick(seed, k, pop)[i] in pop)
  }

  /**
   * Under the selector assumption, a draw yields min(100, count) distinct
   * participant numbers, each below the participant count.
   */
  lemma SelectionWellFormed(pick: (Seed, nat, seq<U32>) -> seq<U32>, seed: Seed, count: U32)
    requires SelectsWithoutReplacement(pick)
    ensures |Draw(pick, seed, count)| == Min(WinnerCount, count)
    ensures Distinct(Draw(pick, seed, count))
    ensures forall i :: 0 <= i < |Draw(pick, seed, count)| ==> Draw(pick, seed, count)[i] < count
  {
  }

  class Raffle {
    /** The foreign operations this instance runs against; fixed for its lifetime. */
    const lib: Collaborators

    // The four storage items of src/state.rs; `None` until first saved.
    var participantCount: Option<U32>
    var noisProxy: Option<Addr>
    var admin: Option<Addr>
    var winners: Option<seq<U32>>

    /**
     * What every reachable storage satisfies: the three configuration items
     * are saved together, the count is positive, and winners exist only once
     * a participant count does.
     */
    ghost predicate Valid()
      reads this
    {
      && (participantCount.Some? <==> noisProxy.Some?)
      && (noisProxy.Some? <==> admin.Some?)
      && (participantCount.Some? ==> participantCount.value > 0)
      && (winners.Some? ==> participantCount.Some?)
    }

    /** A contract's storage before `instantiate` runs: nothing saved. */
    constructor (lib: Collaborators)
      ensures this.lib == lib
      ensures participantCount == None && noisProxy == None && admin == None && winners == None
      ensures Valid()
    {
      this.lib := lib;
      participantCount, noisProxy, admin, winners := None, None, None, None;
    }

    /**
     * The checks `instantiate` makes before it saves anything: the proxy
     * address first, the participant count second.
     */
    function InstantiateCheck(msg: InstantiateMsg): (r: Result<Addr, ContractError>)
      ensures lib.addrValidate(msg.noisProxyAddress).None? ==> r == Err(InvalidProxyAddress)
      ensures lib.addrValidate(msg.noisProxyAddress).Some? && msg.participantCount == 0 ==>
                r == Err(InvalidParticipantCount)
      ensures r.Ok? <==> lib.addrValidate(msg.noisProxyAddress).Some? && msg.participantCount > 0
      ensures r.Ok? ==> Some(r.value) == lib.addrValidate(msg.noisProxyAddress)
    {
      match lib.addrValidate(msg.noisProxyAddress)
      case None => Err(InvalidProxyAddress)
      case Some(proxy) => if msg.participantCount == 0 then Err(InvalidParticipantCount) else Ok(proxy)
    }

    /**
     * `instantiate`: on a failed check nothing is saved; otherwise the count,
     * the validated proxy and the sender as admin are saved, and the winners
     * item is left as it was (absent on a new contract).
     */
    method Instantiate(info: MessageInfo, msg: InstantiateMsg) returns (r: Result<Response, ContractError>)
      requires Valid()
      modifies this`participantCount, this`noisProxy, this`admin
      ensures Valid()
      ensures InstantiateCheck(msg).Err? ==> r == Err(InstantiateCheck(msg).error) && unchanged(this)
      ensures InstantiateCheck(msg).Ok? ==>
                && participantCount == Some(msg.participantCount)
                && noisProxy == Some(InstantiateCheck(msg).value)
                && admin == Some(info.sender)
                && r == Ok(InstantiateResponse(msg, InstantiateCheck(msg).value, info.sender))
    {
      var validated := lib.addrValidate(msg.noisProxyAddress);
      if validated.None? {
        return Err(InvalidProxyAddress);
      }
      var noisProxyAddr := validated.value;
      if msg.participantCount == 0 {
        return Err(InvalidParticipantCount);
      }
      participantCount := Some(msg.participantCount);
      noisProxy := Some(noisProxyAddr);
      admin := Some(info.sender);
      r := Ok(InstantiateResponse(msg, noisProxyAddr, info.sender));
    }

    /**
     * `execute_request_randomness`: reads storage and changes none of it. Only
     * the admin gets a response, and it holds exactly one message: a
     * `GetNextRandomness` for `jobId` sent to the stored proxy with the
     * caller's funds forwarded unchanged.
     */
    function ExecuteRequestRandomness(info: MessageInfo, jobId: string): (r: Result<Response, ContractError>)
      reads this
      ensures noisProxy.None? ==> r == Err(Std(NotFound(NoisProxyKey)))
      ensures noisProxy.Some? && admin.None? ==> r == Err(Std(NotFound(AdminKey)))
      ensures noisProxy.Some? && admin.Some? && info.sender != admin.value ==> r == Err(Unauthorized)
      ensures r.Ok? <==> noisProxy.Some? && admin == Some(info.sender)
      ensures r.Ok? ==> r.value.attributes == [] && |r.value.messages| == 1
      ensures r.Ok? ==> r.value.messages[0] == WasmMsg.Execute(noisProxy.value, GetNextRandomness(jobId), info.funds)
    {
      var proxy :- LoadOrStd(noisProxy, NoisProxyKey);
      var adminAddr :- LoadOrStd(admin, AdminKey);
      if info.sender != adminAddr then Err(Unauthorized)
      else Ok(Response([WasmMsg.Execute(proxy, GetNextRandomness(jobId), info.funds)], []))
    }

    /**
     * What `execute_pick_winners` decides: the sender is checked against the
     * stored proxy before the randomness is looked at; 32 bytes of randomness
     * from the proxy draw from the participants 0, 1, ..., count - 1 in that
     * order. Winners already saved play no part.
     */
    function PickWinnersOutcome(info: MessageInfo, callback: NoisCallback): (r: Result<seq<U32>, ContractError>)
      reads this
      ensures noisProxy.None? ==> r == Err(Std(NotFound(NoisProxyKey)))
      ensures noisProxy.Some? && info.sender != noisProxy.value ==> r == Err(Unauthorized)
      ensures noisProxy == Some(info.sender) && |callback.randomness| != 32 ==> r == Err(InvalidRandomness)
      ensures noisProxy == Some(info.sender) && |callback.randomness| == 32 && participantCount.None? ==>
                r == Err(Std(NotFound(ParticipantCountKey)))
      ensures r.Ok? <==> noisProxy == Some(info.sender) && |callback.randomness| == 32 && participantCount.Some?
      ensures r.Ok? ==> r.value == lib.pick(callback.randomness, WinnerCount, Population(participantCount.value))
    {
      match noisProxy
      case None => Err(Std(NotFound(NoisProxyKey)))
      case Some(proxy) =>
        if info.sender != proxy then Err(Unauthorized)
        else if |callback.randomness| != 32 then Err(InvalidRandomness)
        else if participantCount.None? then Err(Std(NotFound(ParticipantCountKey)))
        else Ok(Draw(lib.pick, callback.randomness, participantCount.value))
    }

    /**
     * What the `TestRandomizer` arm decides: no caller check; input that is not
     * hex, or hex of any length but 32 bytes, is `InvalidRandomness`; otherwise
     * the same draw as the oracle callback.
     */
    function TestRandomizerOutcome(randomness: string): (r: Result<seq<U32>, ContractError>)
      reads this
      ensures lib.hexDecode(randomness).None? ==> r == Err(InvalidRandomness)
      ensures lib.hexDecode(randomness).Some? && |lib.hexDecode(randomness).value| != 32 ==>
                r == Err(InvalidRandomness)
      ensures r.Ok? <==> && lib.hexDecode(randomness).Some?
                         && |lib.hexDecode(randomness).value| == 32
                         && participantCount.Some?
      ensures (&& lib.hexDecode(randomness).Some?
               && |lib.hexDecode(randomness).value| == 32
               && participantCount.None?) ==> r == Err(Std(NotFound(ParticipantCountKey)))
      ensures r.Ok? ==> r.value == lib.pick(lib.hexDecode(randomness).value, WinnerCount,
                                            Population(participantCount.value))
    {
      match lib.hexDecode(randomness)
      case None => Err(InvalidRandomness)
      case Some(bytes) =>
        if |bytes| != 32 then Err(InvalidRandomness)
        else if participantCount.None? then Err(Std(NotFound(ParticipantCountKey)))
        else Ok(Draw(lib.pick, bytes, participantCount.value))
    }

    /** Given the same 32 bytes, the test path and an authorised callback draw the same winners. */
    lemma TestRandomizerMatchesCallback(info: MessageInfo, callback: NoisCallback, randomness: string)
      requires noisProxy == Some(info.sender)
      requires lib.hexDecode(randomness) == Some(callback.randomness)
      ensures TestRandomizerOutcome(randomness) == PickWinnersOutcome(info, callback)
    {
    }

    /**
     * In every reachable storage, a callback that passes the proxy check finds
     * a participant count: the configuration items are saved together.
     */
    lemma CallbackFindsCount(info: MessageInfo, callback: NoisCallback)
      requires Valid()
      ensures PickWinnersOutcome(info, callback) != Err(Std(NotFound(ParticipantCountKey)))
    {
    }

    /**
     * `execute_pick_winners`: the oracle callback. Only the winners item can
     * change, and it is replaced by the draw whenever the checks pass.
     */
    method ExecutePickWinners(info: MessageInfo, callback: NoisCallback) returns (r: Result<Response, ContractError>)
      modifies this`winners
      ensures Commits(old(PickWinnersOutcome(info, callback)), old(winners), winners, r)
    {
      var proxy :- LoadOrStd(noisProxy, NoisProxyKey);
      if info.sender != proxy {
        return Err(Unauthorized);
      }
      var seed :- ToSeed(callback.randomness);
      var count :- LoadOrStd(participantCount, ParticipantCountKey);
      var ws := Draw(lib.pick, seed, count);
      var winnersString := Text.WinnersString(ws);
      winners := Some(ws);
      r := Ok(Response([], [Attribute("winners", winnersString)]));
    }

    /**
     * `execute`: dispatch on the message. A randomness request uses the job id
     * "raffle" and saves nothing; the callback and `TestRandomizer` end as
     * their outcomes say.
     */
    method Execute(info: MessageInfo, msg: ExecuteMsg) returns (r: Result<Response, ContractError>)
      requires Valid()
      modifies this`winners
      ensures Valid()
      ensures msg.RequestRandomness? ==> r == ExecuteRequestRandomness(info, JobId) && unchanged(this)
      ensures msg.NoisReceive? ==> Commits(old(PickWinnersOutcome(info, msg.callback)), old(winners), winners, r)
      ensures msg.TestRandomizer? ==> Commits(old(TestRandomizerOutcome(msg.randomness)), old(winners), winners, r)
    {
      match msg
      case RequestRandomness =>
        r := ExecuteRequestRandomness(info, JobId);
      case NoisReceive(callback) =>
        r := ExecutePickWinners(info, callback);
      case TestRandomizer(randomness) =>
        var decoded := lib.hexDecode(randomness);
        if decoded.None? {
          return Err(InvalidRandomness);
        }
        var seed :- ToSeed(decoded.value);
        var count :- LoadOrStd(participantCount, ParticipantCountKey);
        var ws := Draw(lib.pick, seed, count);
        var winnersString := Text.WinnersString(ws);
        winners := Some(ws);
        r := Ok(Response([], [Attribute("winners", winnersString)]));
    }

    /** `query`: reads one item back; an item never saved is a not-found error. */
    function Query(msg: QueryMsg): (r: Result<QueryResponse, StdError>)
      reads this
      ensures msg.ParticipantCount? ==>
                if participantCount.Some? then r == Ok(Count(participantCount.value))
                else r == Err(NotFound(ParticipantCountKey))
      ensures msg.Winners? ==>
                if winners.Some? then r == Ok(WinnerList(winners.value))
                else r == Err(NotFound(WinnersKey))
      ensures msg.Admin? ==>
                if admin.Some? then r == Ok(AdminAddr(admin.value))
                else r == Err(NotFound(AdminKey))
      ensures msg.NoisProxy? ==>
                if noisProxy.Some? then r == Ok(ProxyAddr(noisProxy.value))
                else r == Err(NotFound(NoisProxyKey))
    {
      match msg
      case ParticipantCount =>
        var count :- Load(participantCount, ParticipantCountKey);
        Ok(Count(count))
      case Winners =>
        var ws :- Load(winners, WinnersKey);
        Ok(WinnerList(ws))
      case Admin =>
        var adminAddr :- Load(admin, AdminKey);
        Ok(AdminAddr(adminAddr))
      case NoisProxy =>
        var proxy :- Load(noisProxy, NoisProxyKey);
        Ok(ProxyAddr(proxy))
    }
  }

  /**
   * A run of a fresh instance up to the randomness request: setup, the
   * queries that read it back, and the admin check on requests.
   */
  method SetupScenario(lib: Collaborators, creator: Addr, oracle: Addr, stranger: Addr, funds: seq<Coin>)
    requires lib.addrValidate("oracle1") == Some(oracle)
    requires stranger != creator
  {
    var raffle := new Raffle(lib);
    var r := raffle.Instantiate(MessageInfo(creator, []), InstantiateMsg(5, "oracle1"));
    assert r.Ok?;
    assert raffle.Query(Admin) == Ok(AdminAddr(creator));
    assert raffle.Query(Winners) == Err(NotFound(WinnersKey));

    r := raffle.Execute(MessageInfo(stranger, funds), RequestRandomness);
    assert r == Err(Unauthorized);
    r := raffle.Execute(MessageInfo(creator, funds), RequestRandomness);
    assert r.Ok? && r.value.messages == [WasmMsg.Execute(oracle, GetNextRandomness("raffle"), funds)];
  }

  /**
   * Draws on a fresh instance: the oracle callback's checks, its draw, and the
   * overwrite of those winners by a `TestRandomizer` call from an arbitrary
   * sender.
   */
  method DrawScenario(lib: Collaborators, creator: Addr, oracle: Addr, stranger: Addr,
                      seed: Seed, hex: string, testSeed: Seed)
    requires lib.addrValidate("oracle1") == Some(oracle)
    requires stranger != oracle
    requires lib.hexDecode(hex) == Some(testSeed)
  {
    var raffle := new Raffle(lib);
    var r := raffle.Instantiate(MessageInfo(creator, []), InstantiateMsg(5, "oracle1"));
    assert r.Ok?;

    r := raffle.Execute(MessageInfo(oracle, []), NoisReceive(NoisCallback("raffle", seed[..31])));
    assert r == Err(InvalidRandomness);
    r := raffle.Execute(MessageInfo(stranger, []), NoisReceive(NoisCallback("raffle", seed)));
    assert r == Err(Unauthorized);
    assert raffle.winners == None;

    r := raffle.Execute(MessageInfo(oracle, []), NoisReceive(NoisCallback("raffle", seed)));
    assert Population(5) == [0, 1, 2, 3, 4];
    assert raffle.winners == Some(lib.pick(seed, 100, [0, 1, 2, 3, 4]));

    r := raffle.Execute(MessageInfo(stranger, []), TestRandomizer(hex));
    assert raffle.winners == Some(lib.pick(testSeed, 100, [0, 1, 2, 3, 4]));
  }
}
