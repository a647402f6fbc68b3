/** Grad-CAM attribution arithmetic, steps 1-4 of `GradCamGenerator.generate`
    (models/grad_cam.py). The resize to the crop size and the colour map are left to the
    image library and are not part of this module. */
module GradCam {
  import opened Wrappers

  /** A tensor indexed batch, channel, cell; the spatial grid of a channel is flattened
      row by row into its cells. */
  type Tensor = seq<seq<seq<real>>>

  /** Every batch entry has `c` channels of `n` cells. */
  ghost predicate Shaped(t: Tensor, c: nat, n: nat) {
    forall b :: 0 <= b < |t| ==> |t[b]| == c && forall i :: 0 <= i < c ==> |t[b][i]| == n
  }

  /** Activations and their gradients from one pass: non-empty, and the same channels and
      cells in both. */
  ghost predicate Compatible(f: Tensor, g: Tensor) {
    && |f| >= 1 && |g| >= 1 && |f[0]| >= 1 && |f[0][0]| >= 1
    && Shaped(f, |f[0]|, |f[0][0]|) && Shaped(g, |f[0]|, |f[0][0]|)
  }

  function Sum(s: seq<real>): real {
    if |s| == 0 then 0.0 else s[0] + Sum(s[1..])
  }

  /** A sum of equal terms. */
  lemma {:induction false} SumConst(s: seq<real>, v: real)
    requires forall k :: 0 <= k < |s| ==> s[k] == v
    ensures Sum(s) == |s| as real * v
  {
    if |s| > 0 {
      SumConst(s[1..], v);
    }
  }

  lemma DivCancel(d: real, v: real)
    requires d > 0.0
    ensures (d * v) / d == v
  {
  }

  lemma MulAssoc(a: real, b: real, c: real)
    ensures a * (b * c) == (a * b) * c
  {
  }

  lemma ProductAsReal(a: nat, b: nat)
    requires a >= 1 && b >= 1
    ensures (a * b) as real == a as real * b as real && a * b >= 1
  {
  }

  lemma DivUnit(a: real, m: real)
    requires 0.0 <= a <= m && m > 0.0
    ensures 0.0 <= a / m <= 1.0
  {
  }

  /** Step 1, `torch.mean(gradients, dim=[0, 2, 3])` for one channel: the mean of its
      gradient over the batch and all cells. */
  function ChannelWeight(g: Tensor, n: nat, i: nat): real
    requires |g| >= 1 && n >= 1
    requires forall b :: 0 <= b < |g| ==> i < |g[b]| && |g[b][i]| == n
  {
    Sum(seq(|g|, b requires 0 <= b < |g| => Sum(g[b][i]))) / ((|g| * n) as real)
  }

  function PooledGradients(g: Tensor, c: nat, n: nat): (w: seq<real>)
    requires |g| >= 1 && n >= 1 && Shaped(g, c, n)
    ensures |w| == c
  {
    seq(c, i requires 0 <= i < c => ChannelWeight(g, n, i))
  }

  /** Step 2: channel `i` of the activations scaled by weight `i`. */
  function Scaled(a: seq<seq<real>>, w: seq<real>, n: nat): (m: seq<seq<real>>)
    requires |a| == |w| && forall i :: 0 <= i < |a| ==> |a[i]| == n
    ensures |m| == |a| && forall i :: 0 <= i < |m| ==> |m[i]| == n
  {
    seq(|a|, i requires 0 <= i < |a| => seq(n, k requires 0 <= k < n => a[i][k] * w[i]))
  }

  /** Step 3, `torch.mean(activation_map, dim=0)`: each cell's mean over the channels. */
  function ChannelMean(m: seq<seq<real>>, n: nat): (h: seq<real>)
    requires |m| >= 1 && forall i :: 0 <= i < |m| ==> |m[i]| == n
    ensures |h| == n
  {
    seq(n, k requires 0 <= k < n => Sum(seq(|m|, i requires 0 <= i < |m| => m[i][k])) / (|m| as real))
  }

  /** Step 3, `F.relu`. */
  function Relu(s: seq<real>): (r: seq<real>)
    ensures |r| == |s|
    ensures forall k :: 0 <= k < |s| ==> (s[k] >= 0.0 ==> r[k] == s[k]) && (s[k] < 0.0 ==> r[k] == 0.0)
  {
    seq(|s|, k requires 0 <= k < |s| => if s[k] > 0.0 then s[k] else 0.0)
  }

  /** `torch.max` of a non-empty map: an element that bounds every element. */
  function Max(s: seq<real>): (m: real)
    requires |s| >= 1
    ensures forall k :: 0 <= k < |s| ==> s[k] <= m
    ensures exists k :: 0 <= k < |s| && s[k] == m
  {
    if |s| == 1 then s[0]
    else
      var m := Max(s[1..]);
      assert forall k :: 1 <= k < |s| ==> s[k] == s[1..][k - 1];
      if s[0] > m then s[0] else m
  }

  /** Step 4: divide by the maximum, unless the maximum is zero. */
  function Normalise(s: seq<real>): (r: seq<real>)
    requires |s| >= 1
    ensures |r| == |s|
  {
    var m := Max(s);
    if m != 0.0 then seq(|s|, k requires 0 <= k < |s| => s[k] / m) else s
  }

  /** The map `generate` computes before resizing, for compatible inputs. */
  ghost function Heatmap(f: Tensor, g: Tensor): (h: seq<real>)
    requires Compatible(f, g)
    ensures |h| == |f[0][0]|
  {
    var c, n := |f[0]|, |f[0][0]|;
    Normalise(Relu(ChannelMean(Scaled(f[0], PooledGradients(g, c, n), n), n)))
  }

  /** The rows of a two-dimensional array. */
  function Rows(a: array2<real>): (m: seq<seq<real>>)
    reads a
    ensures |m| == a.Length0 && forall i :: 0 <= i < |m| ==> |m[i]| == a.Length1
  {
    seq(a.Length0, i requires 0 <= i < a.Length0 reads a =>
      seq(a.Length1, k requires 0 <= k < a.Length1 reads a => a[i, k]))
  }

  /** Step 2's loop: every channel row of `act` multiplied in place by its weight. */
  method ScaleChannels(act: array2<real>, pooled: seq<real>)
    requires |pooled| == act.Length0
    modifies act
    ensures Rows(act) == Scaled(old(Rows(act)), pooled, act.Length1)
  {
    ghost var orig := Rows(act);
    var c, n := act.Length0, act.Length1;
    for i := 0 to c
      invariant forall i', k :: 0 <= i' < i && 0 <= k < n ==> act[i', k] == orig[i'][k] * pooled[i']
      invariant forall i', k :: i <= i' < c && 0 <= k < n ==> act[i', k] == orig[i'][k]
    {
      forall k | 0 <= k < n {
        act[i, k] := act[i, k] * pooled[i];
      }
    }
    forall i | 0 <= i < c ensures Rows(act)[i] == Scaled(orig, pooled, n)[i] {
      assert forall k :: 0 <= k < n ==> Rows(act)[i][k] == Scaled(orig, pooled, n)[i][k];
    }
  }

  /** Step 4, `heatmap /= torch.max(heatmap)` unless the maximum is zero, in place. */
  method NormaliseInPlace(heat: array<real>)
    requires heat.Length >= 1
    modifies heat
    ensures heat[..] == Normalise(old(heat[..]))
  {
    var m := Max(heat[..]);
    if m != 0.0 {
      ghost var orig := heat[..];
      forall k | 0 <= k < heat.Length {
        heat[k] := heat[k] / m;
      }
      assert heat[..] == seq(heat.Length, k requires 0 <= k < heat.Length => orig[k] / m);
    }
  }

  /** `GradCamGenerator.generate`, steps 1-4: `None` when either input is missing,
      otherwise the rectified, normalised channel-weighted activation map. */
  method Generate(features: Option<Tensor>, gradients: Option<Tensor>) returns (heatmap: Option<seq<real>>)
    requires features.Some? && gradients.Some? ==> Compatible(features.value, gradients.value)
    ensures features.None? || gradients.None? ==> heatmap == None
    ensures features.Some? && gradients.Some? ==> heatmap == Some(Heatmap(features.value, gradients.value))
  {
    if features.None? || gradients.None? {
      return None;
    }
    var f, g := features.value, gradients.value;
    var c, n := |f[0]|, |f[0][0]|;
    // 1. channel weights
    var pooled := PooledGradients(g, c, n);
    // 2. a copy of the first batch entry, each channel then scaled in place
    var act := new real[c, n]((i, k) requires 0 <= i < c && 0 <= k < n => f[0][i][k]);
    forall i | 0 <= i < c ensures Rows(act)[i] == f[0][i] {
      assert forall k :: 0 <= k < n ==> Rows(act)[i][k] == f[0][i][k];
    }
    assert Rows(act) == f[0];
    ScaleChannels(act, pooled);
    // 3. mean over the channels, then the ReLU
    var relu := Relu(ChannelMean(Rows(act), n));
    var heat := new real[n](k requires 0 <= k < n => relu[k]);
    assert heat[..] == relu;
    // 4. normalise
    NormaliseInPlace(heat);
    heatmap := Some(heat[..]);
  }

  /** Normalising a non-negative map puts every cell in [0, 1]; when some cell is non-zero
      the largest cell becomes exactly 1. */
  lemma NormaliseUnitRange(r: seq<real>)
    requires |r| >= 1 && forall k :: 0 <= k < |r| ==> r[k] >= 0.0
    ensures forall k :: 0 <= k < |r| ==> 0.0 <= Normalise(r)[k] <= 1.0
    ensures (exists k :: 0 <= k < |r| && r[k] != 0.0) ==> Max(Normalise(r)) == 1.0
  {
    var m := Max(r);
    var h := Normalise(r);
    if m != 0.0 {
      var j :| 0 <= j < |r| && r[j] == m;
      forall k | 0 <= k < |r| ensures 0.0 <= h[k] <= 1.0 {
        DivUnit(r[k], m);
      }
      DivCancel(m, 1.0);
      assert h[j] == r[j] / m == m / m == 1.0;
    } else {
      assert forall k :: 0 <= k < |r| ==> r[k] == 0.0;
    }
  }

  /** Every cell of the Grad-CAM map lies in [0, 1], and its largest cell is 1 unless the
      rectified map is all zero. */
  lemma HeatmapInUnitRange(f: Tensor, g: Tensor)
    requires Compatible(f, g)
    ensures forall k :: 0 <= k < |Heatmap(f, g)| ==> 0.0 <= Heatmap(f, g)[k] <= 1.0
    ensures (exists k :: 0 <= k < |Heatmap(f, g)| && Heatmap(f, g)[k] != 0.0) ==> Max(Heatmap(f, g)) == 1.0
  {
    var c, n := |f[0]|, |f[0][0]|;
    var r := Relu(ChannelMean(Scaled(f[0], PooledGradients(g, c, n), n), n));
    NormaliseUnitRange(r);
    var h := Heatmap(f, g);
    if exists k :: 0 <= k < n && h[k] != 0.0 {
      var k :| 0 <= k < n && h[k] != 0.0;
      if r[k] == 0.0 {
        assert Max(r) != 0.0;
      }
    }
  }

  /** A channel whose gradient is the same everywhere gets exactly that value as weight. */
  lemma ConstantGradientWeight(g: Tensor, n: nat, i: nat, v: real)
    requires |g| >= 1 && n >= 1
    requires forall b :: 0 <= b < |g| ==> i < |g[b]| && |g[b][i]| == n
    requires forall b, k :: 0 <= b < |g| && 0 <= k < n ==> g[b][i][k] == v
    ensures ChannelWeight(g, n, i) == v
  {
    var sums := seq(|g|, b requires 0 <= b < |g| => Sum(g[b][i]));
    forall b | 0 <= b < |g| ensures sums[b] == n as real * v {
      SumConst(g[b][i], v);
    }
    var gr, nr := |g| as real, n as real;
    SumConst(sums, nr * v);
    MulAssoc(gr, nr, v);
    ProductAsReal(|g|, n);
    var d := (|g| * n) as real;
    assert Sum(sums) == d * v;
    DivCancel(d, v);
  }

  /** All-zero gradients give an all-zero map, and no division takes place. */
  lemma ZeroGradientsGiveZeroMap(f: Tensor, g: Tensor)
    requires Compatible(f, g)
    requires forall b, i, k :: 0 <= b < |g| && 0 <= i < |g[b]| && 0 <= k < |g[b][i]| ==> g[b][i][k] == 0.0
    ensures forall k :: 0 <= k < |Heatmap(f, g)| ==> Heatmap(f, g)[k] == 0.0
  {
    var c, n := |f[0]|, |f[0][0]|;
    var w := PooledGradients(g, c, n);
    forall i | 0 <= i < c ensures w[i] == 0.0 {
      ConstantGradientWeight(g, n, i, 0.0);
    }
    var s := Scaled(f[0], w, n);
    var mean := ChannelMean(s, n);
    forall k | 0 <= k < n ensures mean[k] == 0.0 {
      var col := seq(c, i requires 0 <= i < c => s[i][k]);
      SumConst(col, 0.0);
    }
    var r := Relu(mean);
    assert forall k :: 0 <= k < n ==> r[k] == 0.0;
    var j :| 0 <= j < n && r[j] == Max(r);
    assert Normalise(r) == r;
  }
}
