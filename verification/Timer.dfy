/** Interval negotiation, the sender's effective interval, and the receiver's arrival floor. */
module Timer {
  import opened Basics
  import opened Caps

  function ClampInterval(secs: u32): (r: u32)
    ensures PEX_MIN_INTERVAL <= r <= PEX_MAX_INTERVAL
    ensures PEX_MIN_INTERVAL <= secs <= PEX_MAX_INTERVAL ==> r == secs
  {
    if secs < PEX_MIN_INTERVAL then PEX_MIN_INTERVAL
    else if secs > PEX_MAX_INTERVAL then PEX_MAX_INTERVAL
    else secs
  }

  function Distance(a: nat, b: nat): nat { if a < b then b - a else a - b }

  /** Clamping goes to the one legal value nearest to what was declared. */
  lemma ClampIsNearest(secs: u32, legal: u32)
    requires PEX_MIN_INTERVAL <= legal <= PEX_MAX_INTERVAL
    ensures Distance(ClampInterval(secs), secs) <= Distance(legal, secs)
    ensures Distance(ClampInterval(secs), secs) == Distance(legal, secs) <==> legal == ClampInterval(secs)
  {
  }

  function EffectiveIntervalSecs(ownDeclared: u32, remoteDeclared: Option<u32>): (r: u32)
    ensures r >= ClampInterval(ownDeclared)
    ensures remoteDeclared.Some? ==> r >= ClampInterval(remoteDeclared.value)
    ensures r == ClampInterval(ownDeclared)
         || (remoteDeclared.Some? && r == ClampInterval(remoteDeclared.value))
  {
    var own := ClampInterval(ownDeclared);
    var remote := match remoteDeclared case None => 0 case Some(d) => ClampInterval(d);
    Max(Max(own, remote), PEX_MIN_INTERVAL)
  }

  function ArrivalFloorMs(remoteDeclared: u32): (r: nat)
    ensures r >= 25_000
  {
    var declared := Max(ClampInterval(remoteDeclared), PEX_MIN_INTERVAL);
    (declared - PEX_ARRIVAL_GRACE) * 1000
  }

  /** The floor a receiver enforces on a declared interval is one grace short of the soonest a sender that
      declared it can send, whatever the receiver declared in turn; and exactly that if it declared no more. */
  lemma FloorMeetsSender(declared: u32, other: Option<u32>)
    ensures var soonest := EffectiveIntervalSecs(declared, other) * 1000;
            && ArrivalFloorMs(declared) + PEX_ARRIVAL_GRACE * 1000 <= soonest
            && (ArrivalFloorMs(declared) + PEX_ARRIVAL_GRACE * 1000 == soonest
                <==> other.None? || ClampInterval(other.value) <= ClampInterval(declared))
  {
  }

  function SaturatingDouble(secs: u32): u32 { Min(secs * 2, U32_MAX) }

  /** The values `jitter_ms` can draw: 0 to 10% of the effective interval, in milliseconds. */
  predicate JitterRange(effectiveSecs: u32, jitter: nat) { jitter <= effectiveSecs * 100 }

  method JitterMs(effectiveSecs: u32) returns (jitter: nat)
    ensures JitterRange(effectiveSecs, jitter)
  {
    var span := effectiveSecs * 100;
    if span == 0 {
      jitter := 0;
    } else {
      jitter :| 0 <= jitter <= span;
    }
  }
}
