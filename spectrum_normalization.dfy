/**
 * SpectrumNormalizationFilter: scales a spectrum so that a chosen statistic (the mean
 * over a 1-based channel range, the strongest channel, or the sum of all channels)
 * becomes the requested height.
 *
 * Spectrum's sub-range, max and sum are not part of this model: the sub-range from
 * start to end includes both ends, and the maximum of an empty spectrum is taken as 0.
 */
module SpectrumNormalization {

  datatype Mode = ChannelRange | StrongestChannel | AllChannels

  /** The filter's four parameters; start and end are 1-based channels. */
  datatype Params = Params(mode: Mode, start: int, end: int, height: real)

  /** validate: both channels at least 1, end not before start, and a height between 1
      and 1000000. */
  predicate ParamsValid(p: Params)
  {
    p.start >= 1 && p.end >= 1 && p.end >= p.start && 1.0 <= p.height <= 1000000.0
  }

  function Sum(s: seq<real>): real
  {
    if s == [] then 0.0 else Sum(s[..|s| - 1]) + s[|s| - 1]
  }

  function Max(s: seq<real>): real
  {
    if |s| <= 1 then (if s == [] then 0.0 else s[0])
    else var m := Max(s[..|s| - 1]); if s[|s| - 1] > m then s[|s| - 1] else m
  }

  /** The maximum is an entry at least as large as every entry. */
  lemma {:induction false} MaxIsMaximum(s: seq<real>)
    requires s != []
    ensures Max(s) in s
    ensures forall i :: 0 <= i < |s| ==> s[i] <= Max(s)
  {
    if |s| > 1 {
      MaxIsMaximum(s[..|s| - 1]);
    }
  }

  /** new ISpectrum(n): n zero channels. */
  function Zeros(n: nat): (r: seq<real>)
    ensures |r| == n && forall i :: 0 <= i < n ==> r[i] == 0.0
  {
    if n == 0 then [] else Zeros(n - 1) + [0.0]
  }

  /** divideBy: every channel divided by c. */
  function Divided(s: seq<real>, c: real): (r: seq<real>)
    requires c != 0.0
    ensures |r| == |s|
    ensures forall i :: 0 <= i < |s| ==> r[i] == s[i] / c
  {
    seq(|s|, i requires 0 <= i < |s| => s[i] / c)
  }

  lemma {:induction false} SumDivided(s: seq<real>, c: real)
    requires c != 0.0
    ensures Sum(Divided(s, c)) == Sum(s) / c
  {
    if s != [] {
      var init := s[..|s| - 1];
      SumDivided(init, c);
      assert Divided(s, c)[..|s| - 1] == Divided(init, c);
      assert Sum(Divided(s, c)) == Sum(init) / c + s[|s| - 1] / c;
      DivAdd(Sum(init), s[|s| - 1], c);
    }
  }

  lemma DivAdd(a: real, b: real, c: real)
    requires c != 0.0
    ensures a / c + b / c == (a + b) / c
  {
  }

  lemma {:induction false} MaxDivided(s: seq<real>, c: real)
    requires c > 0.0
    ensures Max(Divided(s, c)) == Max(s) / c
  {
    if |s| > 1 {
      MaxDivided(s[..|s| - 1], c);
      assert Divided(s, c)[..|s| - 1] == Divided(s[..|s| - 1], c);
      DivMono(s[|s| - 1], Max(s[..|s| - 1]), c);
    }
  }

  lemma DivMono(a: real, b: real, c: real)
    requires c > 0.0
    ensures a > b <==> a / c > b / c
  {
  }

  /** The statistic the mode brings to the height; `first` and `last` are 0-based. */
  function Statistic(mode: Mode, data: seq<real>, first: int, last: int): real
    requires mode == ChannelRange ==> 0 <= first <= last < |data|
  {
    match mode
    case ChannelRange => Sum(data[first..last + 1]) / ((last - first + 1) as real)
    case StrongestChannel => Max(data)
    case AllChannels => Sum(data)
  }

  /** The range mode leaves the data alone when the range starts past the end or ends
      at the first channel. */
  predicate Skipped(p: Params, data: seq<real>)
  {
    p.mode == ChannelRange && (p.start - 1 >= |data| || p.end - 1 <= 0)
  }

  /** The channel range lies inside the data (always so outside range mode). */
  predicate RangeInData(p: Params, data: seq<real>)
  {
    p.mode == ChannelRange ==> 0 <= p.start - 1 <= p.end - 1 < |data|
  }

  /** The scaling step: every channel divided by (statistic / height), or all zeros
      when that ratio is 0. */
  function ScaledToHeight(p: Params, data: seq<real>): (r: seq<real>)
    requires ParamsValid(p) && RangeInData(p, data)
    ensures |r| == |data|
    ensures Statistic(p.mode, data, p.start - 1, p.end - 1) == 0.0 ==> forall i :: 0 <= i < |r| ==> r[i] == 0.0
    ensures Statistic(p.mode, data, p.start - 1, p.end - 1) != 0.0 ==>
      r == Divided(data, Statistic(p.mode, data, p.start - 1, p.end - 1) / p.height)
  {
    var value := Statistic(p.mode, data, p.start - 1, p.end - 1);
    var ratio := value / p.height;
    if ratio == 0.0 then Zeros(|data|)
    else Divided(data, ratio)
  }

  /** filterApplyTo, as written. */
  function FilterApplyTo(p: Params, data: seq<real>): (r: seq<real>)
    requires ParamsValid(p)
    requires p.mode == ChannelRange && !Skipped(p, data) ==> p.end - 1 < |data|
    ensures |r| == |data|
    ensures Skipped(p, data) ==> r == data
    ensures !Skipped(p, data) ==> RangeInData(p, data) && r == ScaledToHeight(p, data)
  {
    if Skipped(p, data) then data else ScaledToHeight(p, data)
  }

  /** The range-mode guard with the end test the validator implies: only a range
      ending before the first channel is skipped. */
  predicate SkippedIntended(p: Params, data: seq<real>)
  {
    p.mode == ChannelRange && (p.start - 1 >= |data| || p.end - 1 < 0)
  }

  /** filterApplyTo with the corrected guard. */
  function FilterApplyToIntended(p: Params, data: seq<real>): (r: seq<real>)
    requires ParamsValid(p)
    requires p.mode == ChannelRange && !SkippedIntended(p, data) ==> p.end - 1 < |data|
    ensures |r| == |data|
    ensures SkippedIntended(p, data) ==> r == data
    ensures !SkippedIntended(p, data) ==> RangeInData(p, data) && r == ScaledToHeight(p, data)
  {
    if SkippedIntended(p, data) then data else ScaledToHeight(p, data)
  }

  /** The two guards disagree only on a range ending at channel 1 of non-empty data. */
  lemma GuardsDifferOnlyAtFirstChannel(p: Params, data: seq<real>)
    requires ParamsValid(p)
    ensures Skipped(p, data) != SkippedIntended(p, data) <==>
      p.mode == ChannelRange && p.end == 1 && |data| > 0
  {
  }

  lemma RatioNonZero(v: real, h: real)
    requires v != 0.0 && h > 0.0
    ensures v / h != 0.0
    ensures v > 0.0 ==> v / h > 0.0
  {
  }

  /** Dividing a non-zero value by (value / h) gives h. */
  lemma Rescaled(v: real, h: real)
    requires v != 0.0 && h > 0.0
    ensures v / (v / h) == h
  {
    assert (v / h) * h == v;
  }

  /** The mean of a range scaled by its own mean over h is h. */
  lemma RescaledMean(total: real, n: real, h: real)
    requires total != 0.0 && n > 0.0 && h > 0.0
    ensures (total / ((total / n) / h)) / n == h
  {
    var ratio := (total / n) / h;
    assert ratio * h * n == total;
    assert total / ratio == h * n;
  }

  lemma NonZeroNumerator(a: real, n: real)
    requires n > 0.0 && a / n != 0.0
    ensures a != 0.0
  {
  }

  /** Scaling by (mean / h) brings the mean of the range to h. */
  lemma MeanToHeight(data: seq<real>, first: int, last: int, h: real)
    requires 0 <= first <= last < |data| && h > 0.0
    requires Statistic(ChannelRange, data, first, last) != 0.0
    ensures var ratio := Statistic(ChannelRange, data, first, last) / h;
      ratio != 0.0 && Statistic(ChannelRange, Divided(data, ratio), first, last) == h
  {
    var sub := data[first..last + 1];
    var n := (last - first + 1) as real;
    var value := Sum(sub) / n;
    NonZeroNumerator(Sum(sub), n);
    RatioNonZero(value, h);
    var ratio := value / h;
    assert Divided(data, ratio)[first..last + 1] == Divided(sub, ratio);
    SumDivided(sub, ratio);
    RescaledMean(Sum(sub), n, h);
  }

  /** Scaling by (max / h) brings a positive maximum to h. */
  lemma MaxToHeight(data: seq<real>, h: real)
    requires Max(data) > 0.0 && h > 0.0
    ensures Max(data) / h != 0.0 && Max(Divided(data, Max(data) / h)) == h
  {
    RatioNonZero(Max(data), h);
    MaxDivided(data, Max(data) / h);
    Rescaled(Max(data), h);
  }

  /** Scaling by (sum / h) brings a non-zero sum to h. */
  lemma SumToHeight(data: seq<real>, h: real)
    requires Sum(data) != 0.0 && h > 0.0
    ensures Sum(data) / h != 0.0 && Sum(Divided(data, Sum(data) / h)) == h
  {
    RatioNonZero(Sum(data), h);
    SumDivided(data, Sum(data) / h);
    Rescaled(Sum(data), h);
  }

  /** After normalising, the chosen statistic equals the height (for the strongest
      channel, when that channel is positive). */
  lemma NormalizedToHeight(p: Params, data: seq<real>)
    requires ParamsValid(p) && RangeInData(p, data)
    requires Statistic(p.mode, data, p.start - 1, p.end - 1) != 0.0
    requires p.mode == StrongestChannel ==> Max(data) > 0.0
    ensures Statistic(p.mode, ScaledToHeight(p, data), p.start - 1, p.end - 1) == p.height
  {
    var value := Statistic(p.mode, data, p.start - 1, p.end - 1);
    RatioNonZero(value, p.height);
    assert ScaledToHeight(p, data) == Divided(data, value / p.height);
    match p.mode
    case ChannelRange => MeanToHeight(data, p.start - 1, p.end - 1, p.height);
    case StrongestChannel => MaxToHeight(data, p.height);
    case AllChannels => SumToHeight(data, p.height);
  }

  /** As written, a range of just the first channel (start = end = 1) leaves the data
      unchanged, so channel 1 keeps its value instead of becoming the height. */
  lemma FirstChannelRangeUnchanged(height: real, data: seq<real>)
    requires 1.0 <= height <= 1000000.0
    ensures FilterApplyTo(Params(ChannelRange, 1, 1, height), data) == data
    ensures data != [] && data[0] != height ==>
      Statistic(ChannelRange, FilterApplyTo(Params(ChannelRange, 1, 1, height), data), 0, 0) != height
  {
    if data != [] {
      SingleChannelMean(data);
    }
  }

  /** The mean over the range of just channel 1 is that channel's value. */
  lemma SingleChannelMean(data: seq<real>)
    requires data != []
    ensures Statistic(ChannelRange, data, 0, 0) == data[0]
  {
    var one := data[0..1];
    assert one == [data[0]];
    assert one[..|one| - 1] == [];
    assert Sum(one) == data[0];
    assert Statistic(ChannelRange, data, 0, 0) == Sum(one) / 1.0;
  }

  /** With the corrected guard, the range of just the first channel brings a non-zero
      channel 1 to the height. */
  lemma FirstChannelRangeNormalized(height: real, data: seq<real>)
    requires 1.0 <= height <= 1000000.0
    requires data != [] && data[0] != 0.0
    ensures Statistic(ChannelRange, FilterApplyToIntended(Params(ChannelRange, 1, 1, height), data), 0, 0) == height
  {
    var p := Params(ChannelRange, 1, 1, height);
    SingleChannelMean(data);
    NormalizedToHeight(p, data);
  }

  class SpectrumNormalizationFilter {
    var params: Params
    var startEnabled: bool
    var endEnabled: bool

    /** initialize: range mode over channels 1 to 10, height 10. */
    constructor ()
      ensures params == Params(ChannelRange, 1, 10, 10.0)
      ensures ParamsValid(params)
    {
      params := Params(ChannelRange, 1, 10, 10.0);
      startEnabled := true;
      endEnabled := true;
    }

    /** validate: enables the channel parameters exactly in range mode, and accepts
        exactly the valid parameter sets. */
    method Validate() returns (ok: bool)
      modifies this`startEnabled, this`endEnabled
      ensures startEnabled == (params.mode == ChannelRange) && endEnabled == (params.mode == ChannelRange)
      ensures ok <==> ParamsValid(params)
    {
      startEnabled := params.mode == ChannelRange;
      endEnabled := params.mode == ChannelRange;
      if params.start < 1 {
        return false;
      }
      if params.end < 1 {
        return false;
      }
      if params.end < params.start {
        return false;
      }
      if params.height < 1.0 {
        return false;
      }
      if params.height > 1000000.0 {
        return false;
      }
      return true;
    }
  }
}
