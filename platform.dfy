/**
 * The values the contract exchanges with its host chain and with the nois
 * randomness library, and the foreign operations it calls. The foreign
 * operations are held as function values so that the model fixes their
 * signatures and nothing about their behaviour.
 */
module Platform {
  import opened Wrappers

  /** Rust's `u32`. */
  type U32 = x: nat | x < 0x1_0000_0000

  /** A validated account address (`cosmwasm_std::Addr`); its string form is `text`. */
  datatype Addr = Addr(text: string)

  /** One coin of the funds attached to a call; the contract never looks inside. */
  datatype Coin = Coin(denom: string, amount: nat)

  /** Who sent the call and the funds sent with it. */
  datatype MessageInfo = MessageInfo(sender: Addr, funds: seq<Coin>)

  /** The 32 bytes of randomness `nois::pick` consumes (`[u8; 32]`). */
  type Seed = s: seq<bv8> | |s| == 32 witness seq(32, _ => 0 as bv8)

  /** The request the contract sends to the nois proxy (`ProxyExecuteMsg`). */
  datatype ProxyExecuteMsg = GetNextRandomness(jobId: string)

  /** The callback the nois proxy delivers (`NoisCallback`); the publish time
      it also carries is ignored by the contract and left out. */
  datatype NoisCallback = NoisCallback(jobId: string, randomness: seq<bv8>)

  /** An outbound message: execute `msg` on `contractAddr`, forwarding `funds`. */
  datatype WasmMsg = Execute(contractAddr: Addr, msg: ProxyExecuteMsg, funds: seq<Coin>)

  datatype Attribute = Attribute(key: string, value: string)

  /** The part of `cosmwasm_std::Response` the contract fills in. */
  datatype Response = Response(messages: seq<WasmMsg>, attributes: seq<Attribute>)

  /**
   * The operations the contract delegates to code outside it:
   *  - `addrValidate`: the host's `addr_validate`, `None` for an address it rejects;
   *  - `hexDecode`: `hex::decode`, `None` for a string that is not hex;
   *  - `pick`: `nois::pick(randomness, n, data)`, the deterministic selector.
   */
  datatype Collaborators = Collaborators(
    addrValidate: string -> Option<Addr>,
    hexDecode: string -> Option<seq<bv8>>,
    pick: (Seed, nat, seq<U32>) -> seq<U32>)
}
