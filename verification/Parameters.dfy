/**
 Baudrates, bus parameters and the times derived from them.

 All times are whole microseconds; conversions round down like the integer divisions they model.
 */
module BusParameters {

  const MICROS_PER_SECOND: int := 1_000_000

  datatype Baudrate =
    | B9600 | B19200 | B31250 | B45450 | B93750 | B187500
    | B500000 | B1500000 | B3000000 | B6000000 | B12000000
  {
    /** The baudrate in bits per second. */
    function ToRate(): (rate: int)
      ensures 9600 <= rate <= 12_000_000
    {
      match this
      case B9600 => 9600
      case B19200 => 19200
      case B31250 => 31250
      case B45450 => 45450
      case B93750 => 93750
      case B187500 => 187500
      case B500000 => 500000
      case B1500000 => 1500000
      case B3000000 => 3000000
      case B6000000 => 6000000
      case B12000000 => 12000000
    }

    /** How long it takes to transmit this many bits, in microseconds. */
    function BitsToTime(bits: nat): (time: nat)
      ensures time * ToRate() <= bits * MICROS_PER_SECOND < (time + 1) * ToRate()
    {
      DivisionBounds(bits * MICROS_PER_SECOND, ToRate());
      bits * MICROS_PER_SECOND / ToRate()
    }

    /** How many bits can be transmitted in this many microseconds. */
    function TimeToBits(time: nat): (bits: nat)
      ensures bits * MICROS_PER_SECOND <= time * ToRate() < (bits + 1) * MICROS_PER_SECOND
    {
      time * ToRate() / MICROS_PER_SECOND
    }
  }

  lemma DivisionBounds(a: nat, d: int)
    requires d > 0
    ensures 0 <= a / d && (a / d) * d <= a < (a / d + 1) * d
  {
    assert a == (a / d) * d + a % d;
  }

  lemma OrderOfProducts(a: int, b: int, d: int)
    requires d > 0
    ensures a <= b <==> a * d <= b * d
  {
  }

  /** Converting bits to time and back never gains bits, and loses at most as many as fit into one
      microsecond, rounded up. */
  lemma BitsSurviveTimeConversion(baud: Baudrate, bits: nat)
    ensures var back := baud.TimeToBits(baud.BitsToTime(bits));
            back <= bits <= back + CeilDiv(baud.ToRate(), MICROS_PER_SECOND)
  {
    var rate := baud.ToRate();
    var time := baud.BitsToTime(bits);
    var back := baud.TimeToBits(time);
    assert (time + 1) * rate == time * rate + rate;
    assert back * MICROS_PER_SECOND <= bits * MICROS_PER_SECOND;
    assert bits * MICROS_PER_SECOND < (back + 1) * MICROS_PER_SECOND + rate;
  }

  /** At a baudrate of `m` megabits, exactly the bits that do not fill a microsecond are lost. */
  lemma MegabitLossExactly(baud: Baudrate, m: nat, bits: nat)
    requires m > 0 && baud.ToRate() == m * MICROS_PER_SECOND
    ensures bits - baud.TimeToBits(baud.BitsToTime(bits)) == bits % m
  {
    var rate, time := baud.ToRate(), baud.BitsToTime(bits);
    var q, r := bits / m, bits % m;
    assert bits == q * m + r;
    assert q * rate == q * m * MICROS_PER_SECOND;
    assert q * rate <= bits * MICROS_PER_SECOND < (q + 1) * rate by {
      assert (q + 1) * rate == q * rate + rate;
    }
    OrderOfProducts(time + 1, q, rate);
    OrderOfProducts(q + 1, time, rate);
    assert time == q;
    assert time * rate == q * m * MICROS_PER_SECOND;
    assert time * rate / MICROS_PER_SECOND == q * m;
  }

  /** At 1.5 megabits a microsecond holds one bit and a half. */
  lemma OneAndAHalfMegabitLoss(bits: nat)
    ensures bits - B1500000.TimeToBits(B1500000.BitsToTime(bits)) == if bits % 3 == 0 then 0 else 1
  {
    assert bits * MICROS_PER_SECOND / 1_500_000 == 2 * bits / 3;
    var time := 2 * bits / 3;
    assert time * 1_500_000 / MICROS_PER_SECOND == 3 * time / 2;
  }

  /** The most bits that the unit test allows a conversion there and back to lose. */
  function SampledLimit(baud: Baudrate): nat {
    match baud
    case B3000000 => 2
    case B6000000 => 4
    case B12000000 => 10
    case _ => 1
  }

  /** The limits of the unit test, which looks at samples only, hold for every number of bits except at the
      two highest baudrates, and there they fail exactly when one microsecond lacks a single bit. */
  lemma SampledLimitsExactly(baud: Baudrate, bits: nat)
    ensures bits - baud.TimeToBits(baud.BitsToTime(bits)) > SampledLimit(baud)
            <==> (baud.B6000000? && bits % 6 == 5) || (baud.B12000000? && bits % 12 == 11)
  {
    match baud
    case B1500000 => OneAndAHalfMegabitLoss(bits);
    case B3000000 => MegabitLossExactly(baud, 3, bits);
    case B6000000 => MegabitLossExactly(baud, 6, bits);
    case B12000000 => MegabitLossExactly(baud, 12, bits);
    case _ => BitsSurviveTimeConversion(baud, bits);
  }

  lemma TimeIsMonotone(baud: Baudrate, a: nat, b: nat)
    requires a <= b
    ensures baud.BitsToTime(a) <= baud.BitsToTime(b)
  {
    OrderOfProducts(baud.BitsToTime(b) + 1, baud.BitsToTime(a), baud.ToRate());
  }

  /** Rounding down twice never gives more than rounding down the sum. */
  lemma TimeIsSuperadditive(baud: Baudrate, a: nat, b: nat)
    ensures baud.BitsToTime(a) + baud.BitsToTime(b) <= baud.BitsToTime(a + b)
  {
    var rate, s, t, u := baud.ToRate(), baud.BitsToTime(a), baud.BitsToTime(b), baud.BitsToTime(a + b);
    assert (s + t) * rate == s * rate + t * rate;
    OrderOfProducts(u + 1, s + t, rate);
  }

  /** The distance between two instants is never negative. */
  function Distance(a: int, b: int): nat {
    if a < b then b - a else a - b
  }

  // ---------------------------------------------------------------------------------------------
  // Parameters of an active station
  // ---------------------------------------------------------------------------------------------

  datatype Parameters = Parameters(
    address: nat,
    baudrate: Baudrate,
    slotBits: nat,
    tokenRotationBits: nat,
    gapWaitRotations: nat,
    highestStationAddress: nat,
    maxRetryLimit: nat,
    minTsdrBits: nat,
    watchdogFactors: Option<(nat, nat)>)
  {
    function BitsToTime(bits: nat): nat {
      baudrate.BitsToTime(bits)
    }

    function SlotTime(): nat {
      BitsToTime(slotBits)
    }

    /** The pause that must precede every transmission. */
    function SyncPause(): nat {
      BitsToTime(33)
    }

    /** How long the bus must be silent before the token counts as lost. */
    function TokenLostTimeout(): nat {
      BitsToTime(slotBits * (6 + 2 * address))
    }

    function TokenRotationTime(): nat {
      BitsToTime(tokenRotationBits)
    }

    /** The part of the token hold time that is kept back for a GAP poll. */
    function GapReserve(): nat {
      BitsToTime(slotBits + 100)
    }
  }

  datatype Option<+T> = None | Some(value: T)

  function MinSlotBits(baud: Baudrate): nat {
    match baud
    case B500000 => 200
    case B1500000 => 300
    case B3000000 => 400
    case B6000000 => 600
    case B12000000 => 1000
    case _ => 100
  }

  /** The table in the documentation of the slot time, which goes by the rate. */
  lemma SlotLimitsByRate(baud: Baudrate)
    ensures var rate := baud.ToRate();
            MinSlotBits(baud) ==
              if rate <= 187_500 then 100
              else if rate <= 500_000 then 200
              else if rate <= 1_500_000 then 300
              else if rate <= 3_000_000 then 400
              else if rate <= 6_000_000 then 600
              else 1000
  {
  }

  /** What the parameter builder guarantees about everything it builds. */
  predicate Consistent(p: Parameters) {
    && p.address <= 125
    && MinSlotBits(p.baudrate) <= p.slotBits < 0x1_0000
    && 256 <= p.tokenRotationBits <= 16_777_960
    && 1 <= p.gapWaitRotations <= 100
    && p.address < p.highestStationAddress <= 126
    && 1 <= p.maxRetryLimit <= 15
    && 11 <= p.minTsdrBits < 0x100
    && (p.watchdogFactors.Some? ==> 1 <= p.watchdogFactors.value.0 <= 255 && 1 <= p.watchdogFactors.value.1 <= 255)
  }

  /** A slot is never shorter than the synchronization pause, so a retry after an expired slot does
      not have to wait for the pause. */
  lemma SlotCoversSyncPause(p: Parameters)
    requires Consistent(p)
    ensures p.SyncPause() <= p.SlotTime()
  {
    TimeIsMonotone(p.baudrate, 33, p.slotBits);
  }

  /** Two slots are longer than a claim telegram, even after rounding to microseconds. */
  lemma TwoSlotsOutlastClaim(p: Parameters)
    requires Consistent(p)
    ensures p.BitsToTime(2 * p.slotBits - 33) >= 1
  {
    match p.baudrate
    case B12000000 =>
    case B6000000 =>
    case _ =>
  }

  lemma TimeoutGrowsWithAddress(slot: nat, low: nat, high: nat)
    requires low < high
    ensures slot * (6 + 2 * low) + 2 * slot <= slot * (6 + 2 * high)
  {
    OrderOfProductsLeft(slot, 8 + 2 * low, 6 + 2 * high);
    assert slot * (8 + 2 * low) == slot * (6 + 2 * low) + 2 * slot;
  }

  lemma OrderOfProductsLeft(d: nat, a: int, b: int)
    requires a <= b
    ensures d * a <= d * b
  {
  }

  /** When two stations with the same slot time both wait for a lost token, the claim telegram of
      the one with the lower address has ended before the other one's timeout. */
  lemma LowerAddressClaimsFirst(a: Parameters, b: Parameters)
    requires Consistent(a) && Consistent(b) && a.address < b.address
    requires a.baudrate == b.baudrate && a.slotBits == b.slotBits
    ensures a.TokenLostTimeout() + a.BitsToTime(33) < b.TokenLostTimeout()
  {
    TwoSlotsOutlastClaim(a);
    EarlierAddressEndsFirst(a.baudrate, a.slotBits, a.address, b.address);
  }

  lemma EarlierAddressEndsFirst(baud: Baudrate, slot: nat, low: nat, high: nat)
    requires low < high && slot >= 33 && baud.BitsToTime(2 * slot - 33) >= 1
    ensures baud.BitsToTime(slot * (6 + 2 * low)) + baud.BitsToTime(33) < baud.BitsToTime(slot * (6 + 2 * high))
  {
    TimeoutGrowsWithAddress(slot, low, high);
    LaterByMoreThan(baud, slot * (6 + 2 * low), slot * (6 + 2 * high), 2 * slot - 33);
  }

  lemma LaterByMoreThan(baud: Baudrate, first: nat, second: nat, gain: nat)
    requires first + 33 + gain <= second && baud.BitsToTime(gain) >= 1
    ensures baud.BitsToTime(first) + baud.BitsToTime(33) < baud.BitsToTime(second)
  {
    TimeIsSuperadditive(baud, first, 33);
    TimeIsSuperadditive(baud, first + 33, gain);
    TimeIsMonotone(baud, first + 33 + gain, second);
  }

  lemma TimeoutIsPositive(p: Parameters)
    requires Consistent(p)
    ensures p.TokenLostTimeout() > 0
  {
    TimeoutGrowsWithAddress(p.slotBits, 0, p.address + 1);
    assert p.slotBits * (6 + 2 * (p.address + 1)) == p.slotBits * (6 + 2 * p.address) + 2 * p.slotBits;
    TwoSlotsOutlastClaim(p);
    TimeIsMonotone(p.baudrate, 2 * p.slotBits - 33, p.slotBits * (6 + 2 * p.address));
  }

  /** A station never claims the token before it might have answered. */
  lemma TimeoutOutlastsPause(p: Parameters)
    requires Consistent(p)
    ensures p.SyncPause() + 1 < p.TokenLostTimeout()
  {
    TwoSlotsOutlastClaim(p);
    OrderOfProductsLeft(p.slotBits, 6, 6 + 2 * p.address);
    LaterByMoreThan(p.baudrate, 2 * p.slotBits - 33, p.slotBits * (6 + 2 * p.address), 2 * p.slotBits - 33);
  }

  /** The bit count of the timeout fits into 32 bits, so it is computed without overflow. */
  lemma TimeoutBitsFit(p: Parameters)
    requires Consistent(p)
    ensures p.slotBits * (6 + 2 * p.address) < 0x1_0000_0000
  {
    assert p.slotBits * (6 + 2 * p.address) <= p.slotBits * 256;
  }

  // ---------------------------------------------------------------------------------------------
  // Watchdog factors
  // ---------------------------------------------------------------------------------------------

  function CeilDiv(a: nat, d: int): (q: nat)
    requires d > 0
    ensures a <= q * d < a + d
  {
    DivisionBounds(a + d - 1, d);
    var q := (a + d - 1) / d;
    assert (q + 1) * d == q * d + d;
    q
  }

  lemma CeilDivAtMost(a: nat, d: int, bound: nat)
    requires d > 0
    ensures CeilDiv(a, d) <= bound <==> a <= bound * d
  {
    var q := CeilDiv(a, d);
    if q <= bound {
      assert q * d <= bound * d;
    } else {
      assert (bound + 1) * d <= q * d;
      assert (bound + 1) * d == bound * d + d;
    }
  }

  datatype WatchdogResult = Disabled | Factors(f1: nat, f2: nat) | TooLong

  /** Find factors for a watchdog timeout of the given number of milliseconds: the smallest first
      factor whose partner still fits into a byte. */
  method WatchdogFactors(micros: nat) returns (r: WatchdogResult)
    ensures r.Disabled? <==> micros == 0
    ensures micros != 0 ==> (r.Factors? <==> micros / 1000 / 10 <= 255 * 255)
    ensures r.Factors? ==>
              var t := micros / 1000 / 10;
              && 1 <= r.f1 <= 255 && r.f2 <= 255
              && t <= r.f1 * r.f2 < t + r.f1
              && forall f | 1 <= f < r.f1 :: CeilDiv(t, f) > 255
  {
    if micros == 0 {
      return Disabled;
    }
    var timeout := micros / 1000 / 10;
    if timeout >= 0x1_0000_0000 {
      return TooLong;
    }
    for f1 := 1 to 256
      invariant forall f | 1 <= f < f1 :: CeilDiv(timeout, f) > 255
    {
      var f2 := CeilDiv(timeout, f1);
      if f2 < 256 {
        CeilDivAtMost(timeout, f1, 255);
        assert f1 * f2 == f2 * f1;
        return Factors(f1, f2);
      }
    }
    CeilDivAtMost(timeout, 255, 255);
    assert CeilDiv(timeout, 255) > 255;
    return TooLong;
  }

  // ---------------------------------------------------------------------------------------------
  // The builder
  // ---------------------------------------------------------------------------------------------

  /** Collects parameters; every setter keeps them consistent. */
  class ParametersBuilder {
    var parameters: Parameters

    ghost predicate Valid()
      reads this
    {
      Consistent(parameters)
    }

    constructor (address: nat, baudrate: Baudrate)
      requires address <= 125
      ensures Valid()
      ensures parameters == Parameters(address, baudrate, MinSlotBits(baudrate), 32436, 10, 126, 1, 11, None)
    {
      parameters := Parameters(address, baudrate, MinSlotBits(baudrate), 32436, 10, 126, 1, 11, None);
    }

    method SlotBits(slotBits: nat)
      requires Valid() && MinSlotBits(parameters.baudrate) <= slotBits < 0x1_0000
      modifies this
      ensures Valid() && parameters == old(parameters).(slotBits := slotBits)
    {
      parameters := parameters.(slotBits := slotBits);
    }

    /** The rotation time follows the highest station address. */
    method HighestStationAddress(hsa: nat)
      requires Valid() && parameters.address < hsa <= 126
      modifies this
      ensures Valid()
      ensures parameters == old(parameters).(highestStationAddress := hsa, tokenRotationBits := hsa * 5000)
    {
      parameters := parameters.(highestStationAddress := hsa);
      TokenRotationBits(hsa * 5000);
    }

    method TokenRotationBits(ttr: nat)
      requires Valid() && 256 <= ttr <= 16_777_960
      modifies this
      ensures Valid() && parameters == old(parameters).(tokenRotationBits := ttr)
    {
      parameters := parameters.(tokenRotationBits := ttr);
    }

    /** A watchdog timeout between 10 ms and 650 s always has factors. */
    method WatchdogTimeout(micros: nat)
      requires Valid() && 10_000 <= micros <= 650_000_000
      modifies this
      ensures Valid() && parameters.watchdogFactors.Some?
      ensures parameters == old(parameters).(watchdogFactors := parameters.watchdogFactors)
      ensures var (f1, f2) := parameters.watchdogFactors.value;
              var t := micros / 1000 / 10;
              t <= f1 * f2 < t + f1 && forall f | 1 <= f < f1 :: CeilDiv(t, f) > 255
    {
      var r := WatchdogFactors(micros);
      parameters := parameters.(watchdogFactors := Some((r.f1, r.f2)));
    }
  }
}
