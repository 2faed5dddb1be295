/** The deterministic part of the propagation module: distance tests, linear
    interpolation of the wall loss through the mall entrance, the shadowing
    table, the shared table of call-arrival bits with its cursor, the
    composition of the received signal level, and k-th smallest selection.
    Random samples, path loss and fading are inputs. */
module Rf {
  import opened Prelude
  import opened Towers
  import opened Cfg

  function Abs(x: real): real {
    if x < 0.0 then -x else x
  }

  /** `near(threshold, d1, d2)`: the two distances are at most `threshold` apart. */
  function Near(threshold: real, dist1: real, dist2: real): (r: bool)
    ensures r <==> dist1 - threshold <= dist2 <= dist1 + threshold
  {
    Abs(dist1 - dist2) <= threshold
  }

  lemma NearSymmetric(threshold: real, dist1: real, dist2: real)
    ensures Near(threshold, dist1, dist2) == Near(threshold, dist2, dist1)
  {
  }

  // ---------------------------------------------------------------------------
  // Wall penetration

  /** `_interpolate(dist, min, max, length)`: the straight line from `min` at
      0 to `max` at `length`. */
  function Interpolate(dist: real, lo: real, hi: real, length: real): (r: Result<real, Raised>)
    ensures dist > length ==> r == Failure(ValueError)
    ensures dist <= length && lo > hi ==> r == Failure(ValueError)
    ensures dist <= length && lo <= hi && length == 0.0 ==> r == Failure(ZeroDivisionError)
    ensures r.Success? <==> dist <= length && lo <= hi && length != 0.0
    ensures r.Success? ==> (r.value - lo) * length == (hi - lo) * dist
    ensures r.Success? && dist == 0.0 ==> r.value == lo
    ensures r.Success? && dist == length ==> r.value == hi
    ensures r.Success? && 0.0 <= dist ==> lo <= r.value <= hi
  {
    if dist > length then Failure(ValueError)
    else if lo > hi then Failure(ValueError)
    else if length == 0.0 then Failure(ZeroDivisionError)
    else
      var weight := dist / length;
      InterpolationBounds(dist, length, lo, hi);
      Success(lo + (hi - lo) * weight)
  }

  lemma InterpolationBounds(dist: real, length: real, lo: real, hi: real)
    requires dist <= length && length != 0.0 && lo <= hi
    ensures 0.0 <= dist ==> 0.0 <= dist / length <= 1.0
    ensures 0.0 <= dist ==> lo <= lo + (hi - lo) * (dist / length) <= hi
  {
    if 0.0 <= dist {
      assert 0.0 < length;
      var w := dist / length;
      assert w <= 1.0;
      assert 0.0 <= (hi - lo) * w;
      assert 0.0 <= (hi - lo) * (1.0 - w);
      assert (hi - lo) * w == (hi - lo) - (hi - lo) * (1.0 - w);
    }
  }

  /** `get_penetration(geometry, tower, user)`: the wall loss between a tower
      and a user at `pos`. Inside the mall the base station is behind the
      wall, outside it the small cell is; in the entrance hallway the loss
      is interpolated linearly. */
  function Penetration(g: Geometry, kind: TowerType, pos: real): (r: Result<real, Raised>)
    ensures pos <= g.hallStart ==> r == Success(if kind == SmallCell then 0.0 else g.wallLoss)
    ensures g.hallStart < pos && g.mallEnd <= pos ==>
      r == Success(if kind == SmallCell then g.wallLoss else 0.0)
    // in the hallway the only failure is a negative wall loss
    ensures r.Failure? <==> g.hallStart < pos < g.mallEnd && g.wallLoss < 0.0
    ensures r.Failure? ==> r.error == ValueError
    ensures r.Success? && 0.0 <= g.wallLoss ==> 0.0 <= r.value <= g.wallLoss
    // in the hallway the loss grows linearly towards the far side of the wall
    ensures g.hallStart < pos < g.mallEnd && 0.0 <= g.wallLoss ==>
      r.Success? &&
      r.value * (g.mallEnd - g.hallStart) ==
        g.wallLoss * (if kind == SmallCell then pos - g.hallStart else g.mallEnd - pos)
  {
    if pos <= g.hallStart then
      Success(if kind == SmallCell then 0.0 else g.wallLoss)
    else if pos >= g.mallEnd then
      Success(if kind == SmallCell then g.wallLoss else 0.0)
    else
      var hallLength := g.mallEnd - g.hallStart;
      var into := pos - g.hallStart;
      if kind == SmallCell then Interpolate(into, 0.0, g.wallLoss, hallLength)
      else Interpolate(hallLength - into, 0.0, g.wallLoss, hallLength)
  }

  /** In the hallway the two towers share the wall loss: what one loses the
      other gains, and both see half of it in the middle. */
  lemma PenetrationComplementary(g: Geometry, pos: real)
    requires g.hallStart < pos < g.mallEnd && 0.0 <= g.wallLoss
    ensures Penetration(g, SmallCell, pos).Success? && Penetration(g, BaseStation, pos).Success?
    ensures Penetration(g, SmallCell, pos).value + Penetration(g, BaseStation, pos).value == g.wallLoss
    ensures pos - g.hallStart == g.mallEnd - pos ==>
      Penetration(g, SmallCell, pos).value == Penetration(g, BaseStation, pos).value == g.wallLoss / 2.0
  {
    var l := g.mallEnd - g.hallStart;
    var d := pos - g.hallStart;
    var small := Penetration(g, SmallCell, pos).value;
    var base := Penetration(g, BaseStation, pos).value;
    assert small * l == g.wallLoss * d;
    assert base * l == g.wallLoss * (l - d);
    assert (small + base) * l == g.wallLoss * l;
  }

  /** The hallway of the reference configuration: entrance at 190 m, mall end
      at 200 m, 21 dB of wall; users at 189 m, 195 m and 201 m. */
  lemma PenetrationReferenceHallway()
    ensures var g := MakeGeometry(200.0, 190.0, 300.0, 3000.0, 21.0);
      Penetration(g, SmallCell, 201.0) == Success(21.0) &&
      Penetration(g, SmallCell, 189.0) == Success(0.0) &&
      Penetration(g, SmallCell, 195.0) == Success(10.5) &&
      Penetration(g, BaseStation, 201.0) == Success(0.0) &&
      Penetration(g, BaseStation, 189.0) == Success(21.0) &&
      Penetration(g, BaseStation, 195.0) == Success(10.5)
  {
    var g := MakeGeometry(200.0, 190.0, 300.0, 3000.0, 21.0);
    PenetrationComplementary(g, 195.0);
  }

  // ---------------------------------------------------------------------------
  // Shadowing table

  function Zeros(n: nat): (r: seq<real>)
    ensures |r| == n && forall i :: 0 <= i < n ==> r[i] == 0.0
  {
    seq(n, _ => 0.0)
  }

  /** `np.repeat(samples, seg)`: each sample `seg` times, in order. */
  function Repeat(samples: seq<real>, seg: nat): (r: seq<real>)
    ensures |r| == |samples| * seg
  {
    if samples == [] then []
    else
      var rest := Repeat(samples[1..], seg);
      assert |rest| + seg == |samples| * seg by {
        assert |samples[1..]| * seg + seg == (|samples[1..]| + 1) * seg;
      }
      seq(seg, _ => samples[0]) + rest
  }

  /** Position `k*seg + j` of the repeated samples, for `j < seg`, is sample `k`. */
  lemma {:induction false} RepeatAt(samples: seq<real>, seg: nat, k: nat, j: nat)
    requires k < |samples| && j < seg
    ensures k * seg + j < |Repeat(samples, seg)|
    ensures Repeat(samples, seg)[k * seg + j] == samples[k]
  {
    var head := seq(seg, _ => samples[0]);
    var rest := Repeat(samples[1..], seg);
    assert Repeat(samples, seg) == head + rest;
    if k == 0 {
      assert k * seg + j == j;
    } else {
      RepeatAt(samples[1..], seg, k - 1, j);
      var x := (k - 1) * seg + j;
      assert k * seg + j == seg + x by {
        MulPred(k, seg);
      }
      assert (head + rest)[seg + x] == rest[x];
    }
  }

  lemma MulPred(k: nat, seg: nat)
    requires 0 < k
    ensures k * seg == seg + (k - 1) * seg
  {
  }

  /** Number of independent samples, `int((road_end - mall_end) // seg)`. */
  function SampleCount(g: Geometry, seg: int): int
    requires seg != 0
  {
    ((g.roadEnd - g.mallEnd) / seg as real).Floor
  }

  /** `init_shadowing` on the samples numpy would draw: zeros for every
      metre of the mall, then each sample repeated over one segment. numpy
      refuses a negative count, scale, repeat count or array size. */
  function ShadowInit(g: Geometry, seg: int, sigma: real, samples: seq<real>): (r: Result<seq<real>, Raised>)
    requires seg != 0 && 0 <= SampleCount(g, seg) ==> |samples| == SampleCount(g, seg)
    ensures seg == 0 ==> r == Failure(ZeroDivisionError)
    ensures r.Success? <==> seg > 0 && 0 <= SampleCount(g, seg) && 0.0 <= sigma && 0 <= Trunc(g.mallEnd)
    ensures r.Failure? && seg != 0 ==> r.error == ValueError
    ensures r.Success? ==> |r.value| == Trunc(g.mallEnd) + SampleCount(g, seg) * seg
  {
    if seg == 0 then Failure(ZeroDivisionError)
    else if SampleCount(g, seg) < 0 || sigma < 0.0 then Failure(ValueError)
    else if seg < 0 then Failure(ValueError)
    else if Trunc(g.mallEnd) < 0 then Failure(ValueError)
    else Success(Zeros(Trunc(g.mallEnd)) + Repeat(samples, seg))
  }

  /** The layout of a built table: nothing inside the mall, then one value
      per segment. */
  lemma ShadowLayout(g: Geometry, seg: int, sigma: real, samples: seq<real>, k: nat, j: nat)
    requires seg != 0 && 0 <= SampleCount(g, seg) ==> |samples| == SampleCount(g, seg)
    requires ShadowInit(g, seg, sigma, samples).Success?
    requires k < |samples| && j < seg
    ensures var t := ShadowInit(g, seg, sigma, samples).value;
      (forall i :: 0 <= i < Trunc(g.mallEnd) ==> t[i] == 0.0) &&
      Trunc(g.mallEnd) + k * seg + j < |t| && t[Trunc(g.mallEnd) + k * seg + j] == samples[k]
  {
    RepeatAt(samples, seg, k, j);
  }

  /** `get_shadowing(pos)`: the entry at `int(pos)`; Python counts negative
      indices from the end, and any other miss is an uninitialised table. */
  function ShadowAt(shadows: seq<real>, pos: real): (r: Result<real, Raised>)
    ensures 0.0 <= pos ==> (r.Success? <==> pos < |shadows| as real)
    ensures 0.0 <= pos && r.Success? ==> r.value == shadows[Trunc(pos)]
    ensures r.Failure? ==> r.error == InitializationError
  {
    var i := Trunc(pos);
    if 0 <= i < |shadows| then Success(shadows[i])
    else if -|shadows| <= i < 0 then Success(shadows[|shadows| + i])
    else Failure(InitializationError)
  }

  // ---------------------------------------------------------------------------
  // Received signal level

  /** `RSL(geometry, user, tower)` with the path loss and the fading given:
      EIRP minus path loss minus shadowing (base station only) plus fading
      minus wall loss. A failed shadow lookup comes before a failed wall
      loss, as in the source's order of evaluation. */
  function Rsl(g: Geometry, shadows: seq<real>, kind: TowerType, eirp: real, userPos: real,
               propagation: real, fading: real): (r: Result<real, Raised>)
    ensures kind == BaseStation && ShadowAt(shadows, userPos).Failure? ==> r == Failure(InitializationError)
    ensures r.Success? <==>
      (kind == SmallCell || ShadowAt(shadows, userPos).Success?) && Penetration(g, kind, userPos).Success?
    ensures r.Success? ==>
      r.value == eirp - propagation - (if kind == BaseStation then ShadowAt(shadows, userPos).value else 0.0)
                 + fading - Penetration(g, kind, userPos).value
  {
    var shadow := if kind == BaseStation then ShadowAt(shadows, userPos) else Success(0.0);
    if shadow.Failure? then Failure(shadow.error)
    else
      var wall := Penetration(g, kind, userPos);
      if wall.Failure? then Failure(wall.error)
      else Success(eirp - propagation - shadow.value + fading - wall.value)
  }

  /** Inside the mall, a table built by `init_shadowing` adds no shadowing to
      the base station's signal. */
  lemma NoShadowInsideMall(g: Geometry, seg: int, sigma: real, samples: seq<real>, pos: real)
    requires seg != 0 && 0 <= SampleCount(g, seg) ==> |samples| == SampleCount(g, seg)
    requires ShadowInit(g, seg, sigma, samples).Success?
    requires 0.0 <= pos < Trunc(g.mallEnd) as real
    ensures ShadowAt(ShadowInit(g, seg, sigma, samples).value, pos) == Success(0.0)
  {
    var t := ShadowInit(g, seg, sigma, samples).value;
    assert Trunc(pos) < Trunc(g.mallEnd);
    assert t[Trunc(pos)] == 0.0;
  }

  // ---------------------------------------------------------------------------
  // Call-arrival table

  /** `np.random.rand(n) < prob` on the uniform draws `u`. */
  function Bernoulli(u: seq<real>, prob: real): (r: seq<bool>)
    ensures |r| == |u| && forall i :: 0 <= i < |u| ==> (r[i] <==> u[i] < prob)
  {
    seq(|u|, i requires 0 <= i < |u| => u[i] < prob)
  }

  /** The module state behind `want_call`: the bit table, whether it was
      built, the cursor, the table size and the per-second call probability. */
  datatype CallTable = CallTable(table: seq<bool>, init: bool, idx: int, num: int, prob: real)
  {
    /** Once built, the table always has exactly `num` entries. */
    predicate Valid() {
      0 <= idx && 0 <= num && (init ==> |table| == num)
    }
  }

  function NoCallTable(): CallTable {
    CallTable([], false, 0, 0, 0.0)
  }

  datatype CallDraw = CallDraw(state: CallTable, result: Result<bool, Raised>)

  datatype CallInit = CallInit(state: CallTable, outcome: Outcome<Raised>)

  /** `init_call_probabilities(size, calls_per_hrs)`: the probability is set
      before numpy checks the size; the cursor is kept. */
  function InitCalls(c: CallTable, size: int, callsPerHour: real, uniforms: seq<real>): (r: CallInit)
    requires 0 <= size ==> |uniforms| == size
    ensures r.state.prob == callsPerHour / 3600.0 && r.state.idx == c.idx
    ensures size < 0 ==> r.outcome == Fail(ValueError) && r.state == c.(prob := callsPerHour / 3600.0)
    ensures 0 <= size ==> r.outcome == Pass && r.state.init && r.state.num == size
    ensures 0 <= size ==> |r.state.table| == size
    ensures 0 <= size ==> forall i :: 0 <= i < |r.state.table| ==> (r.state.table[i] <==> uniforms[i] < r.state.prob)
    ensures c.Valid() ==> r.state.Valid()
  {
    var prob := callsPerHour / 3600.0;
    if size < 0 then CallInit(c.(prob := prob), Fail(ValueError))
    else CallInit(c.(table := Bernoulli(uniforms, prob), init := true, num := size, prob := prob), Pass)
  }

  /** `want_call()`: advance the cursor; when it reaches a multiple of the
      table size, double the size and draw a redraw table from `redraw`; then
      read the entry under the cursor, modulo the size. */
  function NextCall(c: CallTable, redraw: seq<real>): (r: CallDraw)
    requires c.Valid() && |redraw| == 2 * c.num
    ensures !c.init ==> r == CallDraw(c, Failure(InitializationError))
    ensures c.init && c.num == 0 ==> r == CallDraw(c.(idx := c.idx + 1), Failure(ZeroDivisionError))
    ensures r.result.Success? <==> c.init && 0 < c.num
    ensures r.state.Valid() && r.state.prob == c.prob && r.state.init == c.init
    ensures c.init ==> r.state.idx == c.idx + 1
    // the size doubles exactly when the advanced cursor is a multiple of the old size
    ensures r.result.Success? ==> (r.state.num == 2 * c.num <==> (c.idx + 1) % c.num == 0)
    ensures r.result.Success? && (c.idx + 1) % c.num != 0 ==> r.state.table == c.table && r.state.num == c.num
    // a doubling draws the new table from `redraw` with the same probability
    ensures r.result.Success? && (c.idx + 1) % c.num == 0 ==> r.state.table == Bernoulli(redraw, c.prob)
    // the bit read is always an entry of the current table
    ensures r.result.Success? ==>
      0 <= r.state.idx % r.state.num < |r.state.table| &&
      r.result.value == r.state.table[r.state.idx % r.state.num]
  {
    if !c.init then CallDraw(c, Failure(InitializationError))
    else
      var idx := c.idx + 1;
      if c.num == 0 then CallDraw(c.(idx := idx), Failure(ZeroDivisionError))
      else
        var next := if idx % c.num == 0 then c.(idx := idx, num := 2 * c.num, table := Bernoulli(redraw, c.prob))
                    else c.(idx := idx);
        CallDraw(next, Success(next.table[idx % next.num]))
  }

  /** A table built for `n` calls is read at entries 1, 2, ... without being
      redrawn until the cursor comes round to `n`. */
  lemma {:induction false} NoRedrawBeforeWrap(c: CallTable, redraw: seq<real>)
    requires c.Valid() && c.init && |redraw| == 2 * c.num
    requires c.idx + 1 < c.num
    ensures NextCall(c, redraw).state.table == c.table
    ensures NextCall(c, redraw).result == Success(c.table[c.idx + 1])
  {
    var i := c.idx + 1;
    assert i % c.num == i by {
      SmallMod(i, c.num);
    }
    var r := NextCall(c, redraw);
    assert r.state.num == c.num && r.state.idx == i;
  }

  lemma SmallMod(a: int, n: int)
    requires 0 <= a < n
    ensures a % n == a
  {
  }

  /** The module globals of the propagation module. */
  class Tables {
    var shadows: seq<real>
    var randBool: seq<bool>
    var randBoolInit: bool
    var randBoolIdx: int
    var randBoolNum: int
    var randBoolProb: real

    function Calls(): CallTable
      reads this
    {
      CallTable(randBool, randBoolInit, randBoolIdx, randBoolNum, randBoolProb)
    }

    /** The globals at import time: no shadowing, no call table. */
    constructor ()
      ensures shadows == [] && Calls() == NoCallTable()
    {
      shadows, randBool, randBoolInit, randBoolIdx, randBoolNum, randBoolProb := [], [], false, 0, 0, 0.0;
    }

    method InitShadowing(g: Geometry, seg: int, sigma: real, samples: seq<real>) returns (r: Outcome<Raised>)
      requires seg != 0 && 0 <= SampleCount(g, seg) ==> |samples| == SampleCount(g, seg)
      modifies this`shadows
      ensures var built := ShadowInit(g, seg, sigma, samples);
        (built.Success? ==> r == Pass && shadows == built.value) &&
        (built.Failure? ==> r == Fail(built.error) && shadows == old(shadows))
    {
      var built := ShadowInit(g, seg, sigma, samples);
      if built.Failure? {
        return Fail(built.error);
      }
      shadows := built.value;
      r := Pass;
    }

    /** `get_shadowing(pos)` on the current table. */
    function Shadowing(pos: real): (r: Result<real, Raised>)
      reads this
      ensures 0.0 <= pos ==> (r.Success? <==> pos < |shadows| as real)
    {
      ShadowAt(shadows, pos)
    }

    method InitCallProbabilities(size: int, callsPerHour: real, uniforms: seq<real>) returns (r: Outcome<Raised>)
      requires 0 <= size ==> |uniforms| == size
      modifies this`randBool, this`randBoolInit, this`randBoolNum, this`randBoolProb
      ensures Calls() == InitCalls(old(Calls()), size, callsPerHour, uniforms).state
      ensures r == InitCalls(old(Calls()), size, callsPerHour, uniforms).outcome
    {
      randBoolProb := callsPerHour / 3600.0;
      if size < 0 {
        return Fail(ValueError);
      }
      randBool := Bernoulli(uniforms, randBoolProb);
      randBoolInit := true;
      randBoolNum := size;
      r := Pass;
    }

    method WantCall(redraw: seq<real>) returns (r: Result<bool, Raised>)
      requires Calls().Valid() && |redraw| == 2 * randBoolNum
      modifies this`randBool, this`randBoolIdx, this`randBoolNum
      ensures Calls() == NextCall(old(Calls()), redraw).state
      ensures r == NextCall(old(Calls()), redraw).result
    {
      if !randBoolInit {
        return Failure(InitializationError);
      }
      randBoolIdx := randBoolIdx + 1;
      if randBoolNum == 0 {
        return Failure(ZeroDivisionError);
      }
      if randBoolIdx % randBoolNum == 0 {
        randBoolNum := randBoolNum * 2;
        randBool := Bernoulli(redraw, randBoolProb);
      }
      r := Success(randBool[randBoolIdx % randBoolNum]);
    }
  }

  // ---------------------------------------------------------------------------
  // k-th smallest

  /** Whether `x` is below `v` (or, with `orEqual`, not above it). */
  predicate Ranked(x: real, v: real, orEqual: bool) {
    if orEqual then x <= v else x < v
  }

  /** How many entries of `s` are below `v` (or at most `v`). */
  function Count(s: seq<real>, v: real, orEqual: bool): (n: nat)
    ensures n <= |s|
  {
    if s == [] then 0 else (if Ranked(s[0], v, orEqual) then 1 else 0) + Count(s[1..], v, orEqual)
  }

  lemma {:induction false} CountAppend(a: seq<real>, b: seq<real>, v: real, orEqual: bool)
    ensures Count(a + b, v, orEqual) == Count(a, v, orEqual) + Count(b, v, orEqual)
  {
    if a == [] {
      assert a + b == b;
    } else {
      assert (a + b)[1..] == a[1..] + b;
      CountAppend(a[1..], b, v, orEqual);
    }
  }

  /** Removing entry `i` removes its contribution to the count and nothing else. */
  lemma CountRemove(s: seq<real>, i: nat, v: real, orEqual: bool)
    requires i < |s|
    ensures Count(s, v, orEqual) ==
      Count(s[..i] + s[i + 1..], v, orEqual) + (if Ranked(s[i], v, orEqual) then 1 else 0)
  {
    assert s == s[..i] + ([s[i]] + s[i + 1..]);
    CountAppend(s[..i], [s[i]] + s[i + 1..], v, orEqual);
    CountAppend([s[i]], s[i + 1..], v, orEqual);
    CountAppend(s[..i], s[i + 1..], v, orEqual);
    assert Count([s[i]], v, orEqual) == (if Ranked(s[i], v, orEqual) then 1 else 0) by {
      assert [s[i]][1..] == [];
    }
  }

  /** Position of a smallest entry. */
  function MinIndex(s: seq<real>): (i: nat)
    requires |s| > 0
    ensures i < |s| && forall j :: 0 <= j < |s| ==> s[i] <= s[j]
  {
    if |s| == 1 then 0
    else
      var j := MinIndex(s[1..]);
      if s[0] <= s[j + 1] then 0 else j + 1
  }

  /** The k-th smallest entry (1-based, duplicates counted): remove a
      smallest entry k-1 times, then take the smallest. */
  function KthSmallest(s: seq<real>, k: nat): (r: real)
    requires 1 <= k <= |s|
    ensures r in s
    ensures Count(s, r, false) < k <= Count(s, r, true)
    decreases |s|
  {
    var i := MinIndex(s);
    if k == 1 then
      MinRank(s, i);
      s[i]
    else
      var r := KthSmallest(s[..i] + s[i + 1..], k - 1);
      RankAfterRemovingMin(s, i, r, k);
      r
  }

  /** A smallest entry is the first smallest. */
  lemma MinRank(s: seq<real>, i: nat)
    requires i < |s| && forall j :: 0 <= j < |s| ==> s[i] <= s[j]
    ensures Count(s, s[i], false) < 1 <= Count(s, s[i], true)
  {
    CountRemove(s, i, s[i], false);
    CountRemove(s, i, s[i], true);
    NoneBelowMin(s[..i] + s[i + 1..], s[i]);
  }

  /** The (k-1)-th smallest once a smallest entry is gone is the k-th smallest. */
  lemma RankAfterRemovingMin(s: seq<real>, i: nat, r: real, k: nat)
    requires i < |s| && forall j :: 0 <= j < |s| ==> s[i] <= s[j]
    requires r in s[..i] + s[i + 1..]
    requires Count(s[..i] + s[i + 1..], r, false) < k - 1 <= Count(s[..i] + s[i + 1..], r, true)
    ensures r in s
    ensures Count(s, r, false) < k <= Count(s, r, true)
  {
    var rest := s[..i] + s[i + 1..];
    var j :| 0 <= j < |rest| && rest[j] == r;
    if j < i { assert s[j] == r; } else { assert s[j + 1] == r; }
    CountRemove(s, i, r, false);
    CountRemove(s, i, r, true);
  }

  lemma {:induction false} NoneBelowMin(s: seq<real>, m: real)
    requires forall j :: 0 <= j < |s| ==> m <= s[j]
    ensures Count(s, m, false) == 0
  {
    if s != [] {
      NoneBelowMin(s[1..], m);
    }
  }

  /** The first smallest is the minimum. */
  lemma {:induction false} FirstSmallestIsMin(s: seq<real>)
    requires 1 <= |s|
    ensures forall x :: x in s ==> KthSmallest(s, 1) <= x
  {
    NoneBelow(s, KthSmallest(s, 1));
  }

  /** Nothing counted below `v` means every entry is at least `v`. */
  lemma {:induction false} NoneBelow(s: seq<real>, v: real)
    requires Count(s, v, false) == 0
    ensures forall j :: 0 <= j < |s| ==> v <= s[j]
  {
    if s != [] {
      NoneBelow(s[1..], v);
      assert forall j :: 1 <= j < |s| ==> s[j] == s[1..][j - 1];
    }
  }

  /** `indices` lists every position of an `n`-entry array exactly once. */
  predicate IsIndexPermutation(indices: seq<nat>, n: nat) {
    |indices| == n &&
    (forall p :: 0 <= p < n ==> indices[p] < n) &&
    (forall p, q :: 0 <= p < q < n ==> indices[p] != indices[q]) &&
    (forall j :: 0 <= j < n ==> j in indices)
  }

  /** What `np.argpartition(a, kth)` promises about the indices it returns:
      the entry at position `kth` is in sorted place, no entry before it is
      larger and none after it smaller. The order within each side is
      unspecified. */
  predicate IsArgPartition(a: seq<real>, indices: seq<nat>, kth: nat) {
    IsIndexPermutation(indices, |a|) && kth < |a| &&
    forall p :: 0 <= p < |a| ==>
      (p < kth ==> a[indices[p]] <= a[indices[kth]]) &&
      (kth < p ==> a[indices[kth]] <= a[indices[p]])
  }

  /** `get_kth_smallest(array, k)` as written, given the index order numpy's
      `argpartition(array, k)` returns: a non-int `k` is a TypeError; numpy
      returns an empty array partitioned without looking at `k`, whose empty
      prefix has no last entry (IndexError); otherwise a `k` outside
      `-n..n-1` is out of bounds for numpy (ValueError), the prefix
      `indexes[:k]` is sliced the Python way, and its last entry is looked
      up (IndexError when it is empty). */
  function GetKthSmallest(a: seq<real>, k: PyArg, indices: seq<nat>): (r: Result<real, Raised>)
    requires IsIndexPermutation(indices, |a|)
    ensures k.OtherArg? ==> r == Failure(TypeError)
    ensures k.IntArg? && |a| == 0 ==> r == Failure(IndexError)
    ensures k.IntArg? && |a| > 0 && (k.value < -|a| || |a| <= k.value) ==> r == Failure(ValueError)
    ensures k.IntArg? && (k.value == 0 || k.value == -|a|) && |a| > 0 ==> r == Failure(IndexError)
    ensures r.Success? <==> k.IntArg? && (0 < k.value < |a| || -|a| < k.value < 0)
    ensures r.Success? ==> r.value in a
  {
    if k.OtherArg? then Failure(TypeError)
    else if |a| == 0 then Failure(IndexError)
    else if k.value < -|a| || |a| <= k.value then Failure(ValueError)
    else
      var take := if k.value >= 0 then k.value else |a| + k.value;
      if take == 0 then Failure(IndexError)
      else Success(a[indices[take - 1]])
  }

  /** With `k = 1` the selection does return the minimum, provided the array
      has a second entry for numpy to partition at. */
  lemma GetKthSmallestFirstIsMin(a: seq<real>, indices: seq<nat>)
    requires IsArgPartition(a, indices, 1)
    ensures GetKthSmallest(a, IntArg(1), indices).Success?
    ensures forall x :: x in a ==> GetKthSmallest(a, IntArg(1), indices).value <= x
  {
    forall x | x in a
      ensures a[indices[0]] <= x
    {
      var j :| 0 <= j < |a| && a[j] == x;
      assert j in indices;
      var p :| 0 <= p < |indices| && indices[p] == j;
      assert a[indices[0]] <= a[indices[1]];
    }
  }

  /** Finding: asking for the largest entry (`k == len(array)`) is out of
      bounds for `argpartition`, so it raises instead of returning it. */
  lemma GetKthSmallestRejectsLargest()
    ensures GetKthSmallest([1.0, 2.0], IntArg(2), [0, 1]) == Failure(ValueError)
    ensures KthSmallest([1.0, 2.0], 2) == 2.0
  {
    var s := [1.0, 2.0];
    assert MinIndex(s) == 0 by {
      assert MinIndex(s[1..]) == 0;
    }
    assert s[..0] + s[1..] == [2.0];
    assert MinIndex([2.0]) == 0;
  }

  /** Finding: `argpartition` leaves the entries before position `k` in no
      particular order, so the last of them need not be the k-th smallest. */
  lemma GetKthSmallestUnorderedPrefix()
    ensures IsArgPartition([1.0, 2.0, 3.0], [1, 0, 2], 2)
    ensures GetKthSmallest([1.0, 2.0, 3.0], IntArg(2), [1, 0, 2]) == Success(1.0)
    ensures KthSmallest([1.0, 2.0, 3.0], 2) == 2.0
  {
    SwappedPrefixIsArgPartition();
    SecondOfThree();
  }

  lemma SwappedPrefixIsArgPartition()
    ensures IsArgPartition([1.0, 2.0, 3.0], [1, 0, 2], 2)
  {
    var indices: seq<nat> := [1, 0, 2];
    assert indices[1] == 0 && indices[0] == 1 && indices[2] == 2;
  }

  lemma SecondOfThree()
    ensures KthSmallest([1.0, 2.0, 3.0], 2) == 2.0
  {
    var s := [1.0, 2.0, 3.0];
    var rest := [2.0, 3.0];
    assert MinIndex(rest) == 0 by {
      assert rest[1..] == [3.0];
      assert MinIndex([3.0]) == 0;
    }
    assert MinIndex(s) == 0 by {
      assert s[1..] == rest;
    }
    assert s[..0] + s[1..] == rest;
  }
}
