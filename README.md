# cw-raffle: a Dafny model of the raffle contract

This project models the raffle contract of cw-raffle, a CosmWasm contract that
draws up to 100 winners from participants numbered `0 .. participant_count - 1`,
using 32 bytes of randomness delivered by a nois proxy contract.

The contract's storage is four items — `participant_count`, `nois_proxy`,
`admin` and `winners` — held as the `Option` fields of class
`Contract.Raffle` (`None` until the item is first saved). The entry points are:

- `instantiate` (`Raffle.Instantiate`): validates the proxy address, then the
  participant count, and saves the count, the proxy and the sender as admin.
- `execute` (`Raffle.Execute`), with three messages:
  - `RequestRandomness`: the admin-only request (`Raffle.ExecuteRequestRandomness`),
    a pure function of storage and caller that emits one message to the proxy;
  - `NoisReceive`: the proxy-only callback (`Raffle.ExecutePickWinners`, decided by
    `Raffle.PickWinnersOutcome`) that draws and saves the winners;
  - `TestRandomizer`: the same draw from a hex string, open to any sender
    (decided by `Raffle.TestRandomizerOutcome`).
- `query` (`Raffle.Query`): reads one item back.

Each state-changing method is proved against a specification function: it
ends with that function's error and saves nothing, or saves exactly what the
function computed. `Raffle.Valid` is the storage invariant every entry point
preserves. The text of the `winners` attribute (`u32::to_string` and
`join(", ")`) is modelled in module `Text`, with a parser proved to recover
the winners list from it.

The code, as written, differs from the raffle's intended design, and the
model follows the code:

- There is no write-once guard. Every successful callback and every
  `TestRandomizer` call replaces the saved winners. `TestRandomizer` performs
  no caller check, so any sender can replace them: the `TestRandomizer` clause
  of `Raffle.Execute`'s postcondition (`Commits` with
  `Raffle.TestRandomizerOutcome`, which takes no sender) states this for every
  input. `Contract.DrawScenario` is one example run of it.
- There is one winners item and no stored seed. There is no test/final split.
  The errors `WinnersAlreadyPicked`, `TestRandomnessNotSet`,
  `FinalRandomnessNotSet` and `FinalRandomnessAlreadySet` are declared but
  never returned.
- src/msg.rs declares `RequestRandomness { job_id }` and no `TestRandomizer`.
  src/contract.rs matches `RequestRandomness {}` and `TestRandomizer`. The model
  takes contract.rs's shape, and the job id is always `"raffle"`.
- src/msg.rs declares `QueryMsg::TestWinners`, which `query` does not handle.
  The model's `QueryMsg` has only the four handled queries.

The foreign operations are fields of `Platform.Collaborators`, fixed per
contract instance: the host's `addr_validate`, `hex::decode` and the nois
selector `pick`. The model says nothing about how they behave.
`Contract.SelectsWithoutReplacement` states what the raffle relies on `pick`
for. It is an assumption: it appears only as a precondition of
`Contract.SelectionWellFormed`.

## Model

| member | source | states |
|---|---|---|
| `Contract.Raffle.constructor` | src/state.rs:4-7 | a new contract has none of its four storage items saved, and the storage invariant holds |
| `Contract.Raffle.InstantiateCheck` | src/contract.rs:21-27 | a rejected address is `InvalidProxyAddress` even when the count is 0; a valid address with count 0 is `InvalidParticipantCount`; the checks pass exactly when the address validates and the count is positive, yielding the validated address |
| `Contract.Raffle.Instantiate` | src/contract.rs:15-40 | on a failed check returns that error and saves nothing; otherwise saves the count, the validated proxy and the sender as admin, leaves the winners item as it was, returns the five instantiate attributes, and keeps the storage invariant |
| `Contract.Raffle.ExecuteRequestRandomness` | src/contract.rs:79-98 | a missing proxy item, then a missing admin item, then a sender other than the admin are errors in that order; it succeeds exactly when the sender is the stored admin, and then emits exactly one message, `GetNextRandomness { job_id }` to the stored proxy carrying the caller's funds unchanged, and no attribute; being a function, it saves nothing |
| `Contract.Raffle.PickWinnersOutcome` | src/contract.rs:106-120 | a missing proxy item is not-found; a sender other than the stored proxy is `Unauthorized` whatever the randomness; from the proxy, randomness of any length but 32 is `InvalidRandomness`; it succeeds exactly when the sender is the proxy, the randomness is 32 bytes and a count is saved, and then the winners are `pick(randomness, 100, [0, 1, ..., count - 1])`; saved winners play no part |
| `Contract.Raffle.ExecutePickWinners` | src/contract.rs:100-131 | only the winners item may change; on any error it is unchanged and the error is returned; on success it is replaced by the drawn list, whatever it held before, and the response carries that list as its `winners` attribute |
| `Contract.Raffle.TestRandomizerOutcome` | src/contract.rs:54-64 | no caller check; a string that is not hex, or hex of any length but 32 bytes, is `InvalidRandomness`; it succeeds exactly when the decoded bytes are 32 and a count is saved, and then draws `pick(bytes, 100, [0, 1, ..., count - 1])` |
| `Contract.Raffle.TestRandomizerMatchesCallback` | src/contract.rs:61-64 | given the same 32 bytes, the `TestRandomizer` draw and an authorised callback's draw are identical |
| `Contract.Raffle.Execute` | src/contract.rs:43-77 | `RequestRandomness` uses job id `"raffle"` and changes no storage; `NoisReceive` and `TestRandomizer` change only the winners item, as their outcomes say (error and no write, or overwrite with the draw); the storage invariant is preserved |
| `Contract.Raffle.Query` | src/contract.rs:134-141 | each query returns the saved value of its item, and a not-found error for an item never saved |
| `Contract.Population` | src/contract.rs:62 | the population handed to `pick` has `count` entries and entry `i` is `i`: ascending, no gaps, no repeats |
| `Contract.ToSeed` | src/contract.rs:113-115 | the conversion to `[u8; 32]` succeeds exactly for 32 bytes, returns them unchanged, and fails with `InvalidRandomness` |
| `Contract.Load` | src/contract.rs:136-139 | loading an item succeeds exactly when it was saved and returns the saved value; otherwise it is the `StdError` not-found error naming the item |
| `Contract.LoadOrStd` | src/contract.rs:85 | a load followed by `?` in an execute entry point: the saved value, or the same not-found error lifted into `ContractError::Std` |
| `Contract.SelectionWellFormed` | src/contract.rs:64 | ASSUMING the selector picks without replacement, a draw has min(100, count) entries, pairwise distinct, each below the participant count |
| `Text.ToDecimal` | src/contract.rs:67 | a number renders as a non-empty string of decimal digits with no leading zero: it starts with `0` only for zero, and zero renders as the single digit `0` |
| `Text.DecimalRoundTrip` | src/contract.rs:67 | reading a rendered number's digits gives back the number |
| `Text.ToDecimalInjective` | src/contract.rs:67 | distinct numbers render as distinct strings |
| `Text.Decimals` | src/contract.rs:65-68 | the rendered list has one string per winner, in order, each the winner's decimal rendering |
| `Text.ParseItemsJoin` | src/contract.rs:65-69 | a non-empty winners list joined with `", "` reads back as that list |
| `Text.Join` | src/contract.rs:69 | `join(sep)` starts with the first part and its length is the parts' total length plus one separator fewer than there are parts; no parts give the empty string (its contents are pinned down by `Text.JoinAppend`) |
| `Text.JoinAppend` | src/contract.rs:69 | joining one more part gives the previous join, then the separator, then that part: with the one-part case, this fixes the joined string's contents exactly |
| `Text.WinnersString` | src/contract.rs:121-125 | the `winners` attribute value parses back to exactly the winners list, order included (the empty list renders as the empty string) |
| `Contract.Draw` | src/contract.rs:118-120 | the selector is asked for 100 winners from exactly the list `0, 1, ..., count - 1` in ascending order |
| `Contract.WinnersResponse` | src/contract.rs:129 | a successful draw responds with no message and a single `winners` attribute whose value reads back as the drawn list |
| `Contract.InstantiateResponse` | src/contract.rs:32-37 | the instantiate response has no message and five attributes, in order `action = instantiate`, `participant_count`, `nois_proxy_address`, `nois_proxy_addr`, `creator`; `participant_count` reads back as the saved count, `nois_proxy_address` is the address as given, `nois_proxy_addr` and `creator` are the saved proxy and admin |
| `Contract.Raffle.CallbackFindsCount` | src/contract.rs:117 | in every storage satisfying the invariant, the callback's participant-count load cannot fail: the count was saved with the proxy |

## Left out

- The selector `nois::pick` is a field of `Platform.Collaborators` with no behaviour given. Its length, distinctness and membership properties appear only as the labelled assumption `Contract.SelectsWithoutReplacement`. The model treats it as total, so an abort inside the selector is not modelled.
- Address validation (`addr_validate`) is a field of `Platform.Collaborators`. A rejected address is `None`; the validated address is whatever it returns.
- `hex::decode` is a field of `Platform.Collaborators`, returning bytes or `None`. `HexBinary::to_array` and `try_into` keep only their exactly-32-bytes check (`Contract.ToSeed`).
- JSON encoding of messages and query answers (`to_json_binary`) is left out. The model returns the values before encoding, and the encoding's own failure path is not modelled.
- `Response` is modelled only as its message list and its attributes.
- `StdError` is modelled only as `NotFound`, for a load of an item never saved. The model's `NotFound` names the item's storage key; cosmwasm's message names the stored type instead. Storage read/write failures are not modelled.
- The `Env` argument and the callback's publish time are unused by the contract and left out.
- Funds are forwarded verbatim and never inspected, so coin arithmetic is left out.
- The host's per-call rollback is left out. Every entry point writes nothing before its checks pass, so no partial write can occur.
- Gas and memory limits are not modelled. The population `(0..participant_count).collect()` holds `participant_count` entries, and instantiate accepts any `u32` count above zero. For a large enough count, the host's gas or Wasm memory limit aborts the draw, and so aborts every callback and every `TestRandomizer` call. In the model, `Contract.Population` and `Contract.Draw` always succeed.
- Integer widths: the participant count and winners are `u32` (`Platform.U32`). The count 100 and indices are unbounded naturals, since nothing in the core overflows.
