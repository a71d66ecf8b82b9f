/** Shared value types of the tunnel tool: fixed-width integers, Option,
    the error taxonomy `TunnelError` and the `Result` every step returns. */
module Types {

  /** Rust's `u16`, `u32` and `u64`. */
  type u16 = x: int | 0 <= x < 0x1_0000
  type u32 = x: int | 0 <= x < 0x1_0000_0000
  type u64 = x: int | 0 <= x < 0x1_0000_0000_0000_0000

  datatype Option<+T> = None | Some(value: T)

  /** The error enumeration of the tool; a `PathBuf` payload is a path string here. */
  datatype TunnelError =
    | TunnelCreation(detail: string)
    | KeyTransfer(detail: string)
    | ConnectionValidation(detail: string)
    | TunnelTimeout
    | InvalidKeyPath(path: string)
    | ArchitectureDetection(detail: string)
    | NonArmCpu(detail: string)

  datatype Result<+T> = Ok(value: T) | Err(error: TunnelError)
}
