/**
 * The application-wide error type and the constants the core uses.
 * Errors carry their message text; foreign errors (serde_json, std::io) carry the text
 * their own Display would produce, which is outside this model.
 */
module Shared {

  datatype YtdlError =
    | InvalidUrl(msg: string)
    | YtdlpNotFound
    | YtdlpFailed(msg: string)
    | FfmpegNotFound
    | InsufficientDiskSpace(required: nat, available: nat)
    | Network(msg: string)
    | JsonParse(msg: string)
    | ProgressParse(msg: string)
    | Io(msg: string)
    | Config(msg: string)
    | FormatNotAvailable(msg: string)
    | Interrupted
    | Other(msg: string)

  const SECONDS_PER_MINUTE: nat := 60
  const SECONDS_PER_HOUR: nat := 3600

  const BYTES_PER_KB: nat := 1024
  const BYTES_PER_MB: nat := 1024 * 1024
  const BYTES_PER_GB: nat := 1024 * 1024 * 1024

  const DEFAULT_CONCURRENT_DOWNLOADS: nat := 3
  const MAX_CONCURRENT_DOWNLOADS: nat := 10
  const MIN_CONCURRENT_DOWNLOADS: nat := 1

  const DEFAULT_HISTORY_LIMIT: nat := 10
  const MAX_FORMAT_DISPLAY_COUNT: nat := 10
  const DEFAULT_VIDEO_FORMAT_COUNT: nat := 5

  /** Largest value of Rust's `u64` (and of `usize` on a 64-bit target). */
  const U64_MAX: nat := 0xFFFF_FFFF_FFFF_FFFF
  /** Largest value of Rust's `u32`. */
  const U32_MAX: nat := 0xFFFF_FFFF

}
