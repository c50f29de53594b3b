/** The part of internal/config/config.go that checks the worker's timing settings. */
module LeaseBudget {
  import opened Backoff

  datatype OutboxConfig = OutboxConfig(
    lockTTL: Duration, publishTimeout: Duration, baseBackoff: Duration, maxBackoff: Duration)

  datatype Verdict = Accepted | LeaseTooShort | BackoffOrder

  /** The lease outlives one claim query, one publish attempt and one final query, over unbounded integers. */
  predicate Covers(lockTTL: int, publishTimeout: int, queryTimeout: int) {
    lockTTL > publishTimeout + 2 * queryTimeout
  }

  /**
   validateOutbox. The settings reach it as positive durations. Subtracting step by step never
   leaves 64 bits, although the sum it stands for may.
   */
  method ValidateOutbox(cfg: OutboxConfig, queryTimeout: Duration) returns (verdict: Verdict)
    requires 0 < cfg.lockTTL && 0 < cfg.publishTimeout && 0 < cfg.baseBackoff && 0 < cfg.maxBackoff
    requires 0 < queryTimeout
    ensures verdict.LeaseTooShort? <==>
            !Covers(cfg.lockTTL as int, cfg.publishTimeout as int, queryTimeout as int)
    ensures verdict.Accepted? <==>
            && Covers(cfg.lockTTL as int, cfg.publishTimeout as int, queryTimeout as int)
            && cfg.baseBackoff <= cfg.maxBackoff
  {
    if cfg.lockTTL <= cfg.publishTimeout {
      return LeaseTooShort;
    }

    var remainingLeaseTime := cfg.lockTTL - cfg.publishTimeout;
    if remainingLeaseTime <= queryTimeout {
      return LeaseTooShort;
    }

    remainingLeaseTime := remainingLeaseTime - queryTimeout;
    if remainingLeaseTime <= queryTimeout {
      return LeaseTooShort;
    }

    if cfg.maxBackoff < cfg.baseBackoff {
      return BackoffOrder;
    }
    return Accepted;
  }
}
