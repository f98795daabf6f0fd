// src/staging.rs
module Staging {
  const MAX_PLAINTEXT: nat := 16384
  const MAX_TLS_RECORD: nat := 5 + MAX_PLAINTEXT + 256
  const STAGING_HEADROOM: nat := 8 * 1024
  const TLS_STAGING_CAP: nat := MAX_TLS_RECORD + STAGING_HEADROOM
}
