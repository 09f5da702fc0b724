/** Comparing audio quality by one packed number (`crates/delune-core/src/quality.rs`). */
module Qualities {
  import opened Text

  datatype Codec = Flac | Alac | Wav | Aiff | Mp3 | Aac | Opus | Vorbis

  predicate IsLossless(codec: Codec) {
    codec.Flac? || codec.Alac? || codec.Wav? || codec.Aiff?
  }

  function EfficiencyPercent(codec: Codec): nat {
    match codec
    case Opus => 150
    case Aac | Vorbis => 125
    case _ => 100
  }

  /** What is known of a file's quality. */
  datatype Quality = Quality(codec: Codec, bitDepth: Option<nat>, sampleRate: Option<nat>, bitrate: Option<nat>)

  // ---- bits ----

  function Pow2(k: nat): (p: nat)
    ensures 0 < p
  {
    if k == 0 then 1 else 2 * Pow2(k - 1)
  }

  /** `a << k`, of a result that fits. */
  function Shifted(a: nat, k: nat): nat {
    a * Pow2(k)
  }

  /** `a | b`, bit by bit. */
  function Or(a: nat, b: nat): nat {
    if a == 0 then b
    else if b == 0 then a
    else (if a % 2 == 1 || b % 2 == 1 then 1 else 0) + 2 * Or(a / 2, b / 2)
  }

  /** Bits that don't overlap add up. */
  lemma {:induction false} OrAdds(high: nat, k: nat, low: nat)
    requires low < Pow2(k)
    ensures Or(Shifted(high, k), low) == Shifted(high, k) + low
  {
    if k > 0 {
      var a := Shifted(high, k);
      assert a == 2 * Shifted(high, k - 1) by {
        assert high * (2 * Pow2(k - 1)) == 2 * (high * Pow2(k - 1));
      }
      OrAdds(high, k - 1, low / 2);
      if a != 0 && low != 0 {
        assert a % 2 == 0 && a / 2 == Shifted(high, k - 1);
      }
    }
  }

  // ---- the key ----

  function Min(a: nat, b: nat): nat {
    if a < b then a else b
  }

  function Known<T>(value: Option<T>): (known: nat)
    ensures known <= 1
  {
    if value.Some? then 1 else 0
  }

  /** Bits per sample, up to 64; CD quality when unknown. */
  function Depth(q: Quality): (depth: nat)
    ensures depth <= 64
  {
    Min(if q.bitDepth.Some? then q.bitDepth.value else 16, 64)
  }

  /** The sample rate in steps of 100 Hz; CD quality when unknown. */
  function Rate(q: Quality): (rate: nat)
    ensures rate <= 15360
  {
    Min(if q.sampleRate.Some? then q.sampleRate.value else 44100, 1536000) / 100
  }

  function DepthField(q: Quality): nat {
    Depth(q) * 2 + Known(q.bitDepth)
  }

  function RateField(q: Quality): nat {
    Rate(q) * 2 + Known(q.sampleRate)
  }

  /** All that is known of a quality, packed into one number so that better is greater. */
  function Rank(q: Quality): nat {
    if IsLossless(q.codec) then Or(Or(Shifted(1, 30), Shifted(DepthField(q), 18)), RateField(q))
    else Min(if q.bitrate.Some? then q.bitrate.value else 0, 10000) * EfficiencyPercent(q.codec) / 100
  }

  predicate Beats(a: Quality, b: Quality) {
    Rank(b) < Rank(a)
  }

  // ---- the fields never overlap ----

  lemma Powers()
    ensures Pow2(12) == 0x1000 && Pow2(18) == 0x40000 && Pow2(30) == 0x40000000
  {
    assert Pow2(6) == 64;
    assert Pow2(12) == 0x1000;
    assert Pow2(18) == 0x40000;
    assert Pow2(24) == 0x1000000;
  }

  lemma {:induction false} PowersAdd(j: nat, k: nat)
    ensures Pow2(j + k) == Pow2(j) * Pow2(k)
  {
    if j > 0 {
      PowersAdd(j - 1, k);
    }
  }

  /** The flag, the depth and the rate have bits of their own, and the key fits 32 bits. */
  lemma FieldsDontOverlap(q: Quality)
    requires IsLossless(q.codec)
    ensures Rank(q) == 0x40000000 + DepthField(q) * 0x40000 + RateField(q)
    ensures DepthField(q) < 0x1000 && RateField(q) < 0x40000 && Rank(q) < 0x80000000
  {
    Powers();
    PowersAdd(12, 18);
    var flag := Shifted(0x1000, 18);
    assert flag == Shifted(1, 30);
    OrAdds(1, 30, Shifted(DepthField(q), 18));
    var high := 0x1000 + DepthField(q);
    assert Shifted(high, 18) == Shifted(1, 30) + Shifted(DepthField(q), 18);
    OrAdds(high, 18, RateField(q));
  }

  // ---- what the order is ----

  /** Worse by depth, then by whether the depth is known, then by rate, then by whether the
      rate is known. */
  predicate Worse(a: Quality, b: Quality) {
    || Depth(a) < Depth(b)
    || (Depth(a) == Depth(b) && Known(a.bitDepth) < Known(b.bitDepth))
    || (Depth(a) == Depth(b) && Known(a.bitDepth) == Known(b.bitDepth) && Rate(a) < Rate(b))
    || (Depth(a) == Depth(b) && Known(a.bitDepth) == Known(b.bitDepth) && Rate(a) == Rate(b) && Known(a.sampleRate) < Known(b.sampleRate))
  }

  /** Lossless files rank by depth, then by rate in steps of 100 Hz; of two that agree on
      either, one that says so ranks higher. */
  lemma LosslessInOrder(a: Quality, b: Quality)
    requires IsLossless(a.codec) && IsLossless(b.codec)
    ensures Beats(b, a) <==> Worse(a, b)
  {
    FieldsDontOverlap(a);
    FieldsDontOverlap(b);
  }

  /** Every lossless file beats every lossy one. */
  lemma LosslessBeatsLossy(a: Quality, b: Quality)
    requires IsLossless(a.codec) && !IsLossless(b.codec)
    ensures Beats(a, b)
  {
    FieldsDontOverlap(a);
    LossyIsSmall(Min(if b.bitrate.Some? then b.bitrate.value else 0, 10000), EfficiencyPercent(b.codec));
  }

  lemma LossyIsSmall(kbps: nat, percent: nat)
    requires kbps <= 10000 && percent <= 150
    ensures kbps * percent / 100 <= 15000
  {
    assert kbps * percent <= 10000 * percent;
  }

  /** Among lossy files, a higher bitrate of the same codec never ranks lower, and an
      efficient codec needs less of it. */
  lemma LossyInOrder(a: Quality, b: Quality)
    requires !IsLossless(a.codec) && !IsLossless(b.codec) && a.bitrate.Some? && b.bitrate.Some?
    requires a.bitrate.value <= b.bitrate.value && EfficiencyPercent(a.codec) <= EfficiencyPercent(b.codec)
    ensures !Beats(a, b)
  {
    var k, l := Min(a.bitrate.value, 10000), Min(b.bitrate.value, 10000);
    var p, q := EfficiencyPercent(a.codec), EfficiencyPercent(b.codec);
    assert k * p <= l * p <= l * q;
  }
}
