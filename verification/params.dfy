/** The tunables of params.c and params.h at their shipped values, the machine widths the
    code relies on, and the small arithmetic shared by every part of the model.
    Rates are in Mb/s, which is bits per microsecond; times are nanoseconds. */
module Params {
  const U16: nat := 0x1_0000
  const U32: nat := 0x1_0000_0000
  const U64: nat := 0x1_0000_0000_0000_0000
  const I32: nat := 0x8000_0000

  const MAX_TX_RATE: nat := 9800
  const VQ_DRAIN_RATE: nat := 9000
  const MAX_BURST_TIME_US: nat := 150
  const MIN_BURST_BYTES: nat := 65536
  const RFAIR_INITIAL: nat := 5000
  const MIN_RFAIR: nat := 10
  const MAX_WEIGHT: nat := 1024
  const RFAIR_INCREMENT: nat := 10
  const DECREASE_INTERVAL_US: nat := 120
  const INCREASE_INTERVAL_US: nat := 120
  const FEEDBACK_TIMEOUT_US: nat := 1000 * 1000
  const FEEDBACK_INTERVAL_US: nat := 100
  const FEEDBACK_INTERVAL_BYTES: nat := 10000
  const FEEDBACK_PACKET_SIZE: nat := 64
  const FEEDBACK_IPPROTO: nat := 143
  const RL_UPDATE_INTERVAL_US: nat := 20
  const VQ_UPDATE_INTERVAL_US: nat := 200
  const TXC_UPDATE_INTERVAL_US: nat := 200
  const VQ_HRCP_US: nat := 1000
  const MAX_QUEUE_LEN_BYTES: nat := 128 * 1024
  const TX_MARK_THRESH: nat := 100 * 1024
  const GSO_THRESH_RATE: nat := 1000
  const GSO_MIN_SPLIT_BYTES: nat := 10000
  const ECN_MARK_THRESH_BYTES: nat := 30 * 1500
  const IDLE_TIMEOUT_US: nat := 100 * 1000 * 10 * 1000
  const IDLE_RATE: nat := 2500
  const INITIAL_TOKENS: nat := 15000
  const MIN_PKT_SIZE: nat := 600
  const ETH_HLEN: nat := 14
  const TASKLET_BUDGET: nat := 500

  datatype Option<T> = None | Some(value: T)

  function Min(a: int, b: int): int { if a <= b then a else b }
  function Max(a: int, b: int): int { if a >= b then a else b }

  /** `ktime_us_delta` on a clock that never runs backwards: whole microseconds, truncated. */
  function UsDelta(now: nat, earlier: nat): nat {
    if now < earlier then 0 else (now - earlier) / 1000
  }

  lemma UsDeltaMono(now: nat, later: nat, start: nat, earlier: nat)
    requires now <= later && earlier <= start
    ensures UsDelta(now, start) <= UsDelta(later, earlier)
  {
  }

  /** Truncation only ever loses time: consecutive intervals add up to no more than the whole. */
  lemma UsDeltaTelescopes(a: nat, b: nat, c: nat)
    requires a <= b <= c
    ensures UsDelta(b, a) + UsDelta(c, b) <= UsDelta(c, a)
  {
  }
}
