/**
 * The five-star rating widget: each of five slots shows a full, half or
 * empty star chosen by two thresholds on the value, and an optional label.
 */
module Rating {
  import opened Common

  datatype StarKind = Full | Half | Empty

  /** One slot: full from `full` up, half from `half` up, empty below. */
  function Slot(value: real, full: real, half: real): StarKind {
    if value >= full then Full else if value >= half then Half else Empty
  }

  /** The five slots with the thresholds the widget spells out one by one. */
  function Stars(value: real): (s: seq<StarKind>)
    ensures |s| == 5
  {
    [Slot(value, 1.0, 0.5), Slot(value, 2.0, 1.5), Slot(value, 3.0, 2.5), Slot(value, 4.0, 3.5), Slot(value, 5.0, 4.5)]
  }

  /** The rule behind the thresholds: star k is full from k, half from k - 0.5. */
  function StarFor(value: real, k: int): StarKind {
    if value >= k as real then Full else if value >= k as real - 0.5 then Half else Empty
  }

  /** The written-out slots follow the uniform rule for every k = 1..5. */
  lemma StarsFollowRule(value: real)
    ensures forall k :: 1 <= k <= 5 ==> Stars(value)[k - 1] == StarFor(value, k)
  {
    var s := Stars(value);
    assert s[0] == StarFor(value, 1) && s[1] == StarFor(value, 2) && s[2] == StarFor(value, 3);
    assert s[3] == StarFor(value, 4) && s[4] == StarFor(value, 5);
  }

  /** Full ranks above half, half above empty. */
  function Rank(s: StarKind): nat {
    match s
    case Full => 2
    case Half => 1
    case Empty => 0
  }

  /** Raising the value never lowers any slot. */
  lemma StarsMonotone(v: real, w: real)
    requires v <= w
    ensures forall i :: 0 <= i < 5 ==> Rank(Stars(v)[i]) <= Rank(Stars(w)[i])
  {
    StarsFollowRule(v);
    StarsFollowRule(w);
    forall i | 0 <= i < 5
      ensures Rank(Stars(v)[i]) <= Rank(Stars(w)[i])
    {
      assert Stars(v)[i] == StarFor(v, i + 1) && Stars(w)[i] == StarFor(w, i + 1);
    }
  }

  /** The slots read full, then at most one half, then empty, left to right. */
  lemma StarsOrdered(value: real)
    ensures forall i, j :: 0 <= i < j < 5 ==> Rank(Stars(value)[i]) >= Rank(Stars(value)[j])
    ensures forall i, j :: 0 <= i < j < 5 ==> !(Stars(value)[i] == Half && Stars(value)[j] == Half)
  {
    StarsFollowRule(value);
    forall i, j | 0 <= i < j < 5
      ensures Rank(Stars(value)[i]) >= Rank(Stars(value)[j])
      ensures !(Stars(value)[i] == Half && Stars(value)[j] == Half)
    {
      assert Stars(value)[i] == StarFor(value, i + 1) && Stars(value)[j] == StarFor(value, j + 1);
    }
  }

  /** The label is shown exactly when a non-empty text is given. */
  function Label(text: Option<string>): (shown: Option<string>)
    ensures shown.Some? <==> text.Some? && text.value != ""
    ensures shown.Some? ==> shown == text
  {
    if text.Some? && text.value != "" then text else None
  }
}
