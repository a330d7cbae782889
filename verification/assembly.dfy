/**
 * The shape every `create*Alarms` function shares: walk a fixed sequence
 * of toggles, each contributing at most one alarm (a "step"), collect the
 * alarms in walk order, then attach the topic to every one of them.
 */
module Assembly {
  import opened Wrappers
  import opened CloudWatch

  /** The alarms the steps emit, in step order. */
  function Collect(steps: seq<Option<AlarmSpec>>): seq<AlarmSpec>
  {
    if |steps| == 0 then []
    else Collect(steps[..|steps| - 1]) + Emitted(steps[|steps| - 1])
  }

  function Emitted(step: Option<AlarmSpec>): seq<AlarmSpec> {
    if step.Some? then [step.value] else []
  }

  lemma {:induction false} CollectAppend(xs: seq<Option<AlarmSpec>>, ys: seq<Option<AlarmSpec>>)
    ensures Collect(xs + ys) == Collect(xs) + Collect(ys)
    decreases |ys|
  {
    if |ys| > 0 {
      var zs := xs + ys;
      assert zs[..|zs| - 1] == xs + ys[..|ys| - 1];
      assert zs[|zs| - 1] == ys[|ys| - 1];
      CollectAppend(xs, ys[..|ys| - 1]);
    } else {
      assert xs + ys == xs;
    }
  }

  /** Appending a step appends what it emits. */
  lemma CollectSnocStep(xs: seq<Option<AlarmSpec>>, x: Option<AlarmSpec>)
    ensures Collect(xs + [x]) == Collect(xs) + Emitted(x)
  {
    assert (xs + [x])[..|xs|] == xs;
  }

  /** A walk over four toggles emits the alarms of the toggles that are on, in order. */
  lemma CollectFour(a: Option<AlarmSpec>, b: Option<AlarmSpec>, c: Option<AlarmSpec>, d: Option<AlarmSpec>)
    ensures Collect([a, b, c, d]) == Emitted(a) + Emitted(b) + Emitted(c) + Emitted(d)
  {
    CollectSnocStep([], a);
    assert [] + [a] == [a];
    CollectSnocStep([a], b);
    assert [a] + [b] == [a, b];
    CollectSnocStep([a, b], c);
    assert [a, b] + [c] == [a, b, c];
    CollectSnocStep([a, b, c], d);
    assert [a, b, c] + [d] == [a, b, c, d];
  }

  /** The same for five toggles. */
  lemma CollectFive(a: Option<AlarmSpec>, b: Option<AlarmSpec>, c: Option<AlarmSpec>, d: Option<AlarmSpec>, e: Option<AlarmSpec>)
    ensures Collect([a, b, c, d, e]) == Emitted(a) + Emitted(b) + Emitted(c) + Emitted(d) + Emitted(e)
  {
    CollectFour(a, b, c, d);
    CollectSnocStep([a, b, c, d], e);
    assert [a, b, c, d] + [e] == [a, b, c, d, e];
  }

  /** The indices of the steps that emitted an alarm: `Collect(steps)[k]` came from step `p[k]`. */
  function Positions(steps: seq<Option<AlarmSpec>>): (p: seq<nat>)
    ensures |p| == |Collect(steps)|
    ensures forall k :: 0 <= k < |p| ==> p[k] < |steps| && steps[p[k]] == Some(Collect(steps)[k])
    ensures forall k, l :: 0 <= k < l < |p| ==> p[k] < p[l]
    ensures forall j :: 0 <= j < |steps| && steps[j].Some? ==> j in p
  {
    if |steps| == 0 then []
    else
      var init := steps[..|steps| - 1];
      assert forall j :: 0 <= j < |init| ==> init[j] == steps[j];
      Positions(init) + (if steps[|steps| - 1].Some? then [|steps| - 1] else [])
  }

  /** The ids of `alarms`, in order. */
  function Ids(alarms: seq<AlarmSpec>): (r: seq<string>)
    ensures |r| == |alarms|
    ensures forall k :: 0 <= k < |r| ==> r[k] == alarms[k].id
  {
    seq(|alarms|, k requires 0 <= k < |alarms| => alarms[k].id)
  }

  ghost predicate Distinct(ids: seq<string>) {
    forall j, k :: 0 <= j < k < |ids| ==> ids[j] != ids[k]
  }

  /** Step `j` can only emit the alarm whose id is `ids[j]`. */
  ghost predicate Labelled(steps: seq<Option<AlarmSpec>>, ids: seq<string>) {
    && |ids| == |steps|
    && forall j :: 0 <= j < |steps| && steps[j].Some? ==> steps[j].value.id == ids[j]
  }

  /** The index of the first occurrence of `id` in `ids`, or `|ids|` when it does not occur. */
  function Rank(ids: seq<string>, id: string): (r: nat)
    ensures r <= |ids|
    ensures r < |ids| ==> ids[r] == id
    ensures forall j :: 0 <= j < r ==> ids[j] != id
  {
    if |ids| == 0 then 0
    else if ids[0] == id then 0
    else 1 + Rank(ids[1..], id)
  }

  lemma RankOfDistinct(ids: seq<string>, j: nat)
    requires Distinct(ids)
    requires j < |ids|
    ensures Rank(ids, ids[j]) == j
  {
  }

  /** `alarms` without the alarm(s) whose id is `id`, order kept. */
  function Without(alarms: seq<AlarmSpec>, id: string): (r: seq<AlarmSpec>)
    ensures |r| <= |alarms|
    ensures forall a :: a in r <==> a in alarms && a.id != id
  {
    if |alarms| == 0 then []
    else
      var last := alarms[|alarms| - 1];
      var init := alarms[..|alarms| - 1];
      assert alarms == init + [last];
      Without(init, id) + (if last.id == id then [] else [last])
  }

  /** Attaching the topic to every alarm, `alarms.forEach(a => a.addAlarmAction(...))`. */
  function FanOut(alarms: seq<AlarmSpec>, topic: Option<Topic>): (r: seq<AlarmSpec>)
    ensures |r| == |alarms|
    ensures forall k :: 0 <= k < |r| ==> r[k] == Attach(alarms[k], topic)
  {
    if |alarms| == 0 then []
    else FanOut(alarms[..|alarms| - 1], topic) + [Attach(alarms[|alarms| - 1], topic)]
  }

  lemma WithoutAbsent(alarms: seq<AlarmSpec>, id: string)
    requires forall k :: 0 <= k < |alarms| ==> alarms[k].id != id
    ensures Without(alarms, id) == alarms
  {
    if |alarms| > 0 {
      WithoutAbsent(alarms[..|alarms| - 1], id);
      assert alarms[..|alarms| - 1] + [alarms[|alarms| - 1]] == alarms;
    }
  }

  lemma WithoutAppend(alarms: seq<AlarmSpec>, tail: seq<AlarmSpec>, id: string)
    requires |tail| <= 1
    ensures Without(alarms + tail, id) == Without(alarms, id) + Without(tail, id)
  {
    if |tail| == 1 {
      assert (alarms + tail)[..|alarms + tail| - 1] == alarms;
      assert tail[..0] == [];
    } else {
      assert alarms + tail == alarms;
    }
  }

  /** A labelled walk over distinct ids stays so when its last step is cut off. */
  lemma LabelledInit(steps: seq<Option<AlarmSpec>>, ids: seq<string>)
    requires Labelled(steps, ids) && Distinct(ids)
    requires |steps| > 0
    ensures Labelled(steps[..|steps| - 1], ids[..|steps| - 1])
    ensures Distinct(ids[..|steps| - 1])
  {
  }

  /** A labelled walk never emits an alarm whose id is not among its labels. */
  lemma CollectOnlyLabels(steps: seq<Option<AlarmSpec>>, ids: seq<string>, id: string)
    requires Labelled(steps, ids)
    requires forall j :: 0 <= j < |ids| ==> ids[j] != id
    ensures Without(Collect(steps), id) == Collect(steps)
  {
    var p := Positions(steps);
    forall k | 0 <= k < |Collect(steps)|
      ensures Collect(steps)[k].id != id
    {
      assert steps[p[k]] == Some(Collect(steps)[k]);
    }
    WithoutAbsent(Collect(steps), id);
  }

  /** Dropping the last step removes exactly its alarm. */
  lemma CollectDropLast(steps: seq<Option<AlarmSpec>>, ids: seq<string>)
    requires Labelled(steps, ids) && Distinct(ids)
    requires |steps| > 0
    ensures Collect(steps[|steps| - 1 := None]) == Without(Collect(steps), ids[|steps| - 1])
  {
    var n := |steps|;
    var init := steps[..n - 1];
    var id := ids[n - 1];
    LabelledInit(steps, ids);
    var pre := ids[..n - 1];
    assert forall j :: 0 <= j < |pre| ==> pre[j] != id;
    CollectOnlyLabels(init, pre, id);
    WithoutAppend(Collect(init), Emitted(steps[n - 1]), id);
    assert steps[n - 1 := None][..n - 1] == init;
  }

  lemma UpdateBeforeLast(init: seq<Option<AlarmSpec>>, last: Option<AlarmSpec>, i: nat)
    requires i < |init|
    ensures (init + [last])[i := None] == init[i := None] + [last]
  {
    var l := (init + [last])[i := None];
    var r := init[i := None] + [last];
    assert |l| == |r|;
    forall k | 0 <= k < |l|
      ensures l[k] == r[k]
    {
    }
  }

  /** Appending a step whose alarm does not carry `id` commutes with removing `id`. */
  lemma CollectSnoc(init: seq<Option<AlarmSpec>>, dropped: seq<Option<AlarmSpec>>, last: Option<AlarmSpec>, id: string)
    requires Collect(dropped) == Without(Collect(init), id)
    requires last.Some? ==> last.value.id != id
    ensures Collect(dropped + [last]) == Without(Collect(init + [last]), id)
  {
    assert (dropped + [last])[..|dropped|] == dropped;
    assert (init + [last])[..|init|] == init;
    WithoutAppend(Collect(init), Emitted(last), id);
    if last.Some? {
      WithoutAbsent(Emitted(last), id);
    }
  }

  lemma SnocSplit(steps: seq<Option<AlarmSpec>>)
    requires |steps| > 0
    ensures steps == steps[..|steps| - 1] + [steps[|steps| - 1]]
  {
  }

  /** The inductive step of `CollectDrop`: dropping an earlier step commutes with appending a last one that does not carry `id`. */
  lemma CollectDropBeforeLast(init: seq<Option<AlarmSpec>>, last: Option<AlarmSpec>, id: string, i: nat)
    requires i < |init|
    requires Collect(init[i := None]) == Without(Collect(init), id)
    requires last.Some? ==> last.value.id != id
    ensures Collect((init + [last])[i := None]) == Without(Collect(init + [last]), id)
  {
    CollectSnoc(init, init[i := None], last, id);
    UpdateBeforeLast(init, last, i);
  }

  /** Dropping a step removes exactly the alarm carrying that step's id. */
  lemma {:induction false} CollectDrop(steps: seq<Option<AlarmSpec>>, ids: seq<string>, i: nat)
    requires Labelled(steps, ids) && Distinct(ids)
    requires i < |steps|
    ensures Collect(steps[i := None]) == Without(Collect(steps), ids[i])
    decreases |steps|
  {
    var n := |steps|;
    if i == n - 1 {
      CollectDropLast(steps, ids);
    } else {
      var init := steps[..n - 1];
      var last := steps[n - 1];
      SnocSplit(steps);
      LabelledInit(steps, ids);
      CollectDrop(init, ids[..n - 1], i);
      assert ids[i] != ids[n - 1];
      assert last.Some? ==> last.value.id == ids[n - 1];
      CollectDropBeforeLast(init, last, ids[i], i);
    }
  }

  lemma FanOutWithout(alarms: seq<AlarmSpec>, id: string, topic: Option<Topic>)
    ensures FanOut(Without(alarms, id), topic) == Without(FanOut(alarms, topic), id)
  {
    if |alarms| > 0 {
      var init := alarms[..|alarms| - 1];
      var last := alarms[|alarms| - 1];
      FanOutWithout(init, id, topic);
      var fo := FanOut(alarms, topic);
      assert fo[..|fo| - 1] == FanOut(init, topic);
      var tail := if last.id == id then [] else [last];
      assert FanOut(Without(init, id) + tail, topic) == FanOut(Without(init, id), topic) + FanOut(tail, topic) by {
        FanOutAppend(Without(init, id), tail, topic);
      }
    }
  }

  lemma FanOutAppend(xs: seq<AlarmSpec>, ys: seq<AlarmSpec>, topic: Option<Topic>)
    ensures FanOut(xs + ys, topic) == FanOut(xs, topic) + FanOut(ys, topic)
  {
    var l := FanOut(xs + ys, topic);
    var r := FanOut(xs, topic) + FanOut(ys, topic);
    assert |l| == |r|;
    forall k | 0 <= k < |l|
      ensures l[k] == r[k]
    {
      if k < |xs| {
        assert (xs + ys)[k] == xs[k];
      } else {
        assert (xs + ys)[k] == ys[k - |xs|];
      }
    }
  }

  /** The alarm at position `k` of an assembled catalogue carries the id of the step it came from. */
  lemma AssembledIds(steps: seq<Option<AlarmSpec>>, ids: seq<string>, topic: Option<Topic>)
    requires Labelled(steps, ids) && Distinct(ids)
    ensures var r := FanOut(Collect(steps), topic); var p := Positions(steps);
      forall k :: 0 <= k < |r| ==> r[k].id == ids[p[k]] && Rank(ids, r[k].id) == p[k]
  {
    var c := Collect(steps);
    var p := Positions(steps);
    forall k | 0 <= k < |c|
      ensures c[k].id == ids[p[k]] && Rank(ids, c[k].id) == p[k]
    {
      assert steps[p[k]] == Some(c[k]);
      RankOfDistinct(ids, p[k]);
    }
  }

  /** The alarm at position `k` of an assembled catalogue is the one its step emits, with the topic attached. */
  lemma AssembledContentAt(steps: seq<Option<AlarmSpec>>, ids: seq<string>, topic: Option<Topic>, k: nat)
    requires Labelled(steps, ids) && Distinct(ids)
    requires k < |FanOut(Collect(steps), topic)|
    ensures var r := FanOut(Collect(steps), topic);
      Rank(ids, r[k].id) < |ids| && steps[Rank(ids, r[k].id)].Some?
      && r[k] == Attach(steps[Rank(ids, r[k].id)].value, topic)
  {
    AssembledIds(steps, ids, topic);
    var p := Positions(steps);
    assert steps[p[k]] == Some(Collect(steps)[k]);
  }

  /** Each assembled alarm is the one its step emits, with the topic attached. */
  lemma AssembledContent(steps: seq<Option<AlarmSpec>>, ids: seq<string>, topic: Option<Topic>)
    requires Labelled(steps, ids) && Distinct(ids)
    ensures var r := FanOut(Collect(steps), topic);
      forall k :: 0 <= k < |r| ==>
        Rank(ids, r[k].id) < |ids| && steps[Rank(ids, r[k].id)].Some?
        && r[k] == Attach(steps[Rank(ids, r[k].id)].value, topic)
  {
    forall k | 0 <= k < |FanOut(Collect(steps), topic)|
      ensures var r := FanOut(Collect(steps), topic);
        Rank(ids, r[k].id) < |ids| && steps[Rank(ids, r[k].id)].Some?
        && r[k] == Attach(steps[Rank(ids, r[k].id)].value, topic)
    {
      AssembledContentAt(steps, ids, topic, k);
    }
  }

  /** Assembled alarms appear in step order, so no id occurs twice. */
  lemma AssembledOrder(steps: seq<Option<AlarmSpec>>, ids: seq<string>, topic: Option<Topic>)
    requires Labelled(steps, ids) && Distinct(ids)
    ensures var r := FanOut(Collect(steps), topic);
      && (forall k, l :: 0 <= k < l < |r| ==> Rank(ids, r[k].id) < Rank(ids, r[l].id))
      && Distinct(Ids(r))
  {
    AssembledIds(steps, ids, topic);
    var r := FanOut(Collect(steps), topic);
    var p := Positions(steps);
    var rk := Ids(r);
    forall j, k | 0 <= j < k < |rk|
      ensures rk[j] != rk[k]
    {
      assert p[j] < p[k];
    }
  }

  /** An emitting step's id shows up among the assembled ids. */
  lemma EmittingStepPresent(steps: seq<Option<AlarmSpec>>, ids: seq<string>, topic: Option<Topic>, j: nat)
    requires Labelled(steps, ids) && Distinct(ids)
    requires j < |steps| && steps[j].Some?
    ensures ids[j] in Ids(FanOut(Collect(steps), topic))
  {
    AssembledIds(steps, ids, topic);
    var p := Positions(steps);
    var k :| 0 <= k < |p| && p[k] == j;
    assert Ids(FanOut(Collect(steps), topic))[k] == ids[j];
  }

  /** An id among the assembled ids belongs to a step that emits. */
  lemma PresentStepEmits(steps: seq<Option<AlarmSpec>>, ids: seq<string>, topic: Option<Topic>, j: nat)
    requires Labelled(steps, ids) && Distinct(ids)
    requires j < |steps| && ids[j] in Ids(FanOut(Collect(steps), topic))
    ensures steps[j].Some?
  {
    AssembledIds(steps, ids, topic);
    var r := FanOut(Collect(steps), topic);
    var p := Positions(steps);
    var k :| 0 <= k < |r| && Ids(r)[k] == ids[j];
    RankOfDistinct(ids, j);
    assert p[k] == j;
  }

  /** A step's alarm is in the assembled catalogue exactly when that step emits. */
  lemma AssembledPresence(steps: seq<Option<AlarmSpec>>, ids: seq<string>, topic: Option<Topic>)
    requires Labelled(steps, ids) && Distinct(ids)
    ensures var r := FanOut(Collect(steps), topic);
      forall j :: 0 <= j < |steps| ==> (steps[j].Some? <==> ids[j] in Ids(r))
  {
    forall j | 0 <= j < |steps|
      ensures steps[j].Some? <==> ids[j] in Ids(FanOut(Collect(steps), topic))
    {
      if steps[j].Some? {
        EmittingStepPresent(steps, ids, topic, j);
      }
      if ids[j] in Ids(FanOut(Collect(steps), topic)) {
        PresentStepEmits(steps, ids, topic, j);
      }
    }
  }

  /** Turning one step off removes exactly its alarm from the assembled catalogue. */
  lemma AssembledDrop(steps: seq<Option<AlarmSpec>>, ids: seq<string>, topic: Option<Topic>, i: nat)
    requires Labelled(steps, ids) && Distinct(ids)
    requires i < |steps|
    ensures FanOut(Collect(steps[i := None]), topic) == Without(FanOut(Collect(steps), topic), ids[i])
  {
    CollectDrop(steps, ids, i);
    FanOutWithout(Collect(steps), ids[i], topic);
  }
}
