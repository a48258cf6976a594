/** The contract's error type, with the variants its call sites construct. */
module Errors {
  import opened Host

  datatype ContractError =
    | Std(err: StdError)
    | OnlyOrderedChannel
    | InvalidIbcVersion(actual: string, expected: string)
      /** Stands for a Rust panic: the call aborts and none of its writes are kept. */
    | Panic(reason: string)
}
