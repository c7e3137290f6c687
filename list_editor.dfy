/** The list editors. One call of `ui` on a `Vec<T>` is one frame: every row
    shows its element's own editor and a "-" button, below them a "+"
    button. The frame's inputs are abstract: what each row's editor wrote
    into its element (`None` when it left it alone), whether each row's "-"
    was clicked, and whether "+" was clicked. The fixed-size array editor
    has the rows without the buttons. */
module ListEditor {
  import opened Inspectable

  /** The elements after every row's editor has run. */
  function ApplyEdits<T>(v: seq<T>, edits: seq<Option<T>>): seq<T>
    requires |edits| == |v|
  {
    seq(|v|, i requires 0 <= i < |v| => edits[i].GetOr(v[i]))
  }

  /** The index that `to_delete` holds after the row loop: the last row
      whose "-" was clicked, if any. */
  function LastClicked(clicked: seq<bool>): (k: Option<nat>)
    ensures k.Some? ==>
              k.value < |clicked| && clicked[k.value] && forall j :: k.value < j < |clicked| ==> !clicked[j]
    ensures k.None? <==> forall j :: 0 <= j < |clicked| ==> !clicked[j]
  {
    if clicked == [] then None
    else if clicked[|clicked| - 1] then Some(|clicked| - 1)
    else LastClicked(clicked[..|clicked| - 1])
  }

  /** The sequence without its element at index `i`, as `Vec::remove`. */
  function RemoveAt<T>(s: seq<T>, i: nat): seq<T>
    requires i < |s|
  {
    s[..i] + s[i + 1..]
  }

  /** The list after one frame: the row edits, then the push of the default
      element, then the removal of the last row whose "-" was clicked. Its
      length is one more if "+" was clicked, one fewer if any "-" was. */
  function Frame<T>(v: seq<T>, edits: seq<Option<T>>, minus: seq<bool>, plus: bool, default: T): (w: seq<T>)
    requires |edits| == |v| && |minus| == |v|
    ensures |w| == |v| + (if plus then 1 else 0) - (if exists j :: 0 <= j < |v| && minus[j] then 1 else 0)
  {
    var edited := ApplyEdits(v, edits);
    var pushed := if plus then edited + [default] else edited;
    match LastClicked(minus)
    case None => pushed
    case Some(k) => RemoveAt(pushed, k)
  }

  /** `Vec<T>::ui`: the row loop records the last clicked "-" in `toDelete`,
      then "+" pushes `default` and only then the recorded row is removed. */
  method VecUi<T>(v: seq<T>, edits: seq<Option<T>>, minus: seq<bool>, plus: bool, default: T)
    returns (w: seq<T>)
    requires |edits| == |v| && |minus| == |v|
    ensures w == Frame(v, edits, minus, plus, default)
  {
    w := v;
    var toDelete: Option<nat> := None;
    var i := 0;
    while i < |w|
      invariant |w| == |v| && 0 <= i <= |v|
      invariant forall j :: 0 <= j < i ==> w[j] == edits[j].GetOr(v[j])
      invariant forall j :: i <= j < |v| ==> w[j] == v[j]
      invariant toDelete == LastClicked(minus[..i])
    {
      w := w[i := edits[i].GetOr(w[i])];
      if minus[i] {
        toDelete := Some(i);
      }
      assert minus[..i + 1][..i] == minus[..i];
      i := i + 1;
    }
    assert minus[..i] == minus;
    assert w == ApplyEdits(v, edits);
    if plus {
      w := w + [default];
    }
    if toDelete.Some? {
      w := RemoveAt(w, toDelete.value);
    }
  }

  /** `[T; N]::ui`: every row's editor writes its element in place; there is
      neither insertion nor removal. */
  method ArrayUi<T>(a: array<T>, edits: seq<Option<T>>)
    requires |edits| == a.Length
    modifies a
    ensures a[..] == ApplyEdits(old(a[..]), edits)
  {
    for i := 0 to a.Length
      invariant forall j :: 0 <= j < i ==> a[j] == edits[j].GetOr(old(a[j]))
      invariant forall j :: i <= j < a.Length ==> a[j] == old(a[j])
    {
      a[i] := edits[i].GetOr(a[i]);
    }
  }

  /** The array editor keeps the length and, where a row's editor did not
      write, the element. */
  lemma ArrayEditsKeepShape<T>(v: seq<T>, edits: seq<Option<T>>)
    requires |edits| == |v|
    ensures |ApplyEdits(v, edits)| == |v|
    ensures forall i :: 0 <= i < |v| && edits[i].None? ==> ApplyEdits(v, edits)[i] == v[i]
    ensures forall i :: 0 <= i < |v| && edits[i].Some? ==> ApplyEdits(v, edits)[i] == edits[i].value
  {
  }

  /** When "+" was clicked the list ends with the default element: the
      removed index lies below the old length, so the pushed element stays. */
  lemma FrameKeepsPushedDefault<T>(v: seq<T>, edits: seq<Option<T>>, minus: seq<bool>, default: T)
    requires |edits| == |v| && |minus| == |v|
    ensures var w := Frame(v, edits, minus, true, default);
      |w| > 0 && w[|w| - 1] == default
  {
  }

  /** The removed row is the last one whose "-" was clicked: the rows before
      it keep their places, the rows after it (and a pushed default) move
      down by one, in order. With no "-" clicked nothing is removed. */
  lemma FrameRemovesLastClicked<T>(v: seq<T>, edits: seq<Option<T>>, minus: seq<bool>, plus: bool, default: T)
    requires |edits| == |v| && |minus| == |v|
    ensures var w := Frame(v, edits, minus, plus, default);
      var edited := ApplyEdits(v, edits);
      var pushed := if plus then edited + [default] else edited;
      match LastClicked(minus)
      case None => w == pushed
      case Some(k) =>
        k < |v| && minus[k] && (forall j :: k < j < |v| ==> !minus[j])
        && |w| == |pushed| - 1
        && (forall j :: 0 <= j < k ==> w[j] == pushed[j])
        && (forall j :: k <= j < |w| ==> w[j] == pushed[j + 1])
  {
  }

  /** At most one element goes per frame: what is left together with the
      removed row are exactly the edited elements and a pushed default. */
  lemma {:induction false} FrameRemovesAtMostOne<T>(v: seq<T>, edits: seq<Option<T>>, minus: seq<bool>, plus: bool, default: T)
    requires |edits| == |v| && |minus| == |v|
    ensures var edited := ApplyEdits(v, edits);
      var pushed := if plus then edited + [default] else edited;
      var w := Frame(v, edits, minus, plus, default);
      match LastClicked(minus)
      case None => multiset(w) == multiset(pushed)
      case Some(k) => multiset(w) + multiset{edited[k]} == multiset(pushed)
  {
    var edited := ApplyEdits(v, edits);
    var pushed := if plus then edited + [default] else edited;
    match LastClicked(minus)
    case None =>
    case Some(k) =>
      assert pushed == pushed[..k] + [pushed[k]] + pushed[k + 1..];
      assert pushed[k] == edited[k];
  }

  /** A frame in which nothing was edited or clicked leaves the list as it was. */
  lemma {:induction false} IdleFrameKeepsList<T>(v: seq<T>, edits: seq<Option<T>>, minus: seq<bool>, default: T)
    requires |edits| == |v| && |minus| == |v|
    requires forall j :: 0 <= j < |v| ==> edits[j].None? && !minus[j]
    ensures Frame(v, edits, minus, false, default) == v
  {
  }
}
