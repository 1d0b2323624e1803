# Counter smart contract for Algorand, modelled in Dafny

This project models the decision logic of a small stateful Algorand
application: a counter. The contract is written in PyTeal and compiled to a
TEAL approval program and a clear-state program. Each call of the approval
program sees a transaction and the application's global state, and it ends
in Approve or Reject. An approved call may store a new value under the single
global key `"Count"`.

The approval program is a first-match-wins selection:

1. application id 0 (the creating call, whatever its on-completion kind)
   stores `Count := 0` and approves;
2. OptIn, CloseOut, UpdateApplication and DeleteApplication reject;
3. NoOp asserts that the group size is 1, then routes on the first argument:
   - `"Increment"` stores `Count + 1` (when `Count < 2^64 - 1`; otherwise the
     addition fails and the call rejects);
   - `"Decrement"` stores `Count - 1` when `Count > 0` and leaves it alone
     otherwise;
   - both approve, except for the failed addition above;
4. anything else matches no branch, and the program fails, which rejects.

The platform commits an approved call's writes and none of a rejected call's
writes. So every rejecting outcome in the model carries the old state.

Files:

- `teal.dfy` (module `Teal`): the parts of the AVM the contract uses. It has
  64-bit unsigned integers, byte strings, checked `+` and `-` (overflow or
  underflow fails the program), and `app_global_get` / `app_global_put` on a
  map from keys to integers. A missing key reads as 0.
- `counter.dfy` (module `Counter`): the calling transaction, the
  on-completion kinds, the handlers and both programs as pure functions.
  `Accepts` is a decision table written apart from the branch structure.
  `ApprovalProgram` is proved to approve exactly the calls it accepts.
- `counter_app.dfy` (module `CounterApp`): the application as an object
  whose `globals` field each call rewrites in place. The read-modify-write
  handlers load `"Count"` into a scratch local, compute, then store. Each
  method is proved to leave exactly the state the pure function describes.
  A client method runs create, three increments and five decrements.
- `counter_traces.dfy` (module `CounterTraces`): sequences of calls and the
  properties that span several calls.

Choices made where the source leaves room:

- Increment overflow: when `Count` is 2^64 - 1, the TEAL addition fails and
  the call is rejected with the state unchanged. This is modelled as an
  outcome, not a precondition.
- A NoOp call with no arguments rejects, because reading
  `application_args[0]` fails. The group-size assertion comes first.
- A call with on-completion ClearState that reaches the approval program
  matches no branch and rejects, as written.
- Creation is recognised by application id 0 alone. It is checked before any
  on-completion branch, so a creating call of any on-completion kind
  approves and sets the counter to 0.

## Model

| member | source | states |
|---|---|---|
| Teal.Add | sample_contract.py:27 | TEAL `+` on uint64 succeeds exactly when the sum is below 2^64, and then yields the sum |
| Teal.Sub | sample_contract.py:35 | TEAL `-` succeeds exactly when the result is not negative, and then yields the difference |
| Teal.GlobalGet | sample_contract.py:24 | reading a global key yields its stored value, or 0 when it is absent |
| Teal.GlobalPut | sample_contract.py:7 | a global write binds the key to the value and leaves every other key as it was |
| Counter.ArgumentsDiffer | sample_contract.py:45-48 | `"Increment"` and `"Decrement"` are different byte strings, so at most one routing branch matches |
| Counter.HandleCreation | sample_contract.py:6-9 | creation approves, leaves `Count` present and equal to 0, and writes no other key |
| Counter.Increment | sample_contract.py:21-29 | approves exactly when `Count < 2^64 - 1`; then the new `Count` is the old plus one; otherwise the state is unchanged; no other key is written |
| Counter.Decrement | sample_contract.py:31-38 | always approves; a positive `Count` goes down by one; at 0 the state is unchanged; `Count` never goes below 0; no other key is written |
| Counter.FirstArg | sample_contract.py:46 | reading the first argument fails exactly when the call has no arguments |
| Counter.HandleNoOp | sample_contract.py:40-49 | group size other than 1 rejects before the argument is read; no argument rejects; `"Increment"` and `"Decrement"` behave as above, including the unchanged state when decrementing at 0; any other argument rejects; a reject keeps the state; a present `Count` stays present |
| Counter.ApprovalProgram | sample_contract.py:51-58 | approves exactly the calls in the decision table `Accepts`; creation wins over every on-completion kind and sets `Count` to 0; an existing application rejects every on-completion kind but NoOp, state unchanged; an approved call on an existing app adds one to `Count` on `"Increment"`, and on `"Decrement"` subtracts one from a positive `Count` or leaves the whole state unchanged at 0; only `Count` is written; a present `Count` stays present |
| Counter.ClearStateProgram | sample_contract.py:62-64 | the clear-state program approves every call and writes nothing |
| CounterApp.Application.HandleCreation | sample_contract.py:6-9 | the in-place creation handler stores 0 under `Count`, approves, and agrees with `Counter.HandleCreation` |
| CounterApp.Application.Increment | sample_contract.py:21-29 | the in-place read-modify-write approves exactly below the 64-bit limit, stores old `Count` + 1 then, leaves the state alone otherwise, and agrees with `Counter.Increment` |
| CounterApp.Application.Decrement | sample_contract.py:31-38 | the in-place read-modify-write always approves, stores old `Count` - 1 only when it was positive, and agrees with `Counter.Decrement` |
| CounterApp.Application.HandleNoOp | sample_contract.py:40-49 | the in-place no-op handler leaves the state unchanged when it rejects and agrees with `Counter.HandleNoOp` |
| CounterApp.Application.Call | sample_contract.py:51-58 | one in-place call approves exactly when `Accepts` holds of the call and the old counter, keeps the state on reject, and leaves the state `Counter.ApprovalProgram` describes |
| CounterApp.CreateIncrementThreeDecrementFive | sample_contract.py:21-38 | on a live application, create, increment three times and decrement five times: every call approves and the counter ends at 0 |
| CounterTraces.RunWritesOnlyCount | sample_contract.py:6-38 | over any sequence of calls, `Count` is the only global key ever written |
| CounterTraces.CountKeyPersists | sample_contract.py:51-58 | once `Count` exists, no sequence of calls removes it |
| CounterTraces.RepeatedIncrement | sample_contract.py:21-29 | `k` increments that stay below 2^64 all approve and add exactly `k` |
| CounterTraces.RepeatedDecrement | sample_contract.py:31-38 | `k` decrements all approve and leave `Count - k`, floored at 0 |
| CounterTraces.DecrementAtZeroIsFixed | sample_contract.py:33-36 | from 0, any number of decrements approve and leave the state exactly as it was |
| CounterTraces.CreateIncrementThreeDecrementFive | sample_contract.py:51-58 | from any prior state and with any on-completion kind on the creating call, create, three increments and five decrements all approve, and `Count` ends at 0 |

## Left out

- Compilation to TEAL bytecode (`compileTeal`) and the printing of the compiled programs. The model covers what the built programs do, not the compiler.
- The PyTeal objects themselves (`Seq`, `Cond`, `ScratchVar`). The scratch slot is a local variable of the in-place handlers.
- Deployment, signing, the client SDK and network submission. None of them is in the contract source.
- Atomic-group execution and the host's commit and rollback. These are abstracted as "a rejected call commits nothing". Each outcome carries the old state on reject.
- Local state and opt-in bookkeeping of the platform. The contract rejects those calls and never touches local state.
- The host's routing of ClearState calls to the clear-state program, and the protocol's own checks on transactions (for example, which on-completion kinds a creating call may carry). The model evaluates whichever program it is given.
- Global values of byte-slice type, and the global-state schema declared at creation. The contract only ever stores integers.
- The AVM's budget and cost limits. The programs are far below them.
