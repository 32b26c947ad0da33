/** Microdata without a closing tag. */
module MicrodataUnclosed {
  // Microdata pages on which a closing tag was left out
  // (packages/extractor/src/offers.ts:450-469): what is still read of an offer, and
  // what is not.

  import opened Prelude
  import opened Microdata

  // ---------------------------------------------------------------------------
  // Leaving a tag out reads as blanking it, which keeps every other tag in place.
  // ---------------------------------------------------------------------------

  /** A tag that opens and closes nothing and states nothing. */
  const BLANK := Tag(Word([]), Void, NO_MARKS)

  function Without(tags: seq<Tag>, d: nat): seq<Tag>
    requires d < |tags|
  {
    tags[..d] + tags[d + 1..]
  }

  /** Where what stood at `k` stands once `d` is left out. */
  function Shifted(d: nat, k: nat): nat { if k <= d then k else k - 1 }

  lemma WithoutAt(tags: seq<Tag>, d: nat, i: nat)
    requires d < |tags| && i < |tags| && i != d
    ensures |Without(tags, d)| == |tags| - 1 && Shifted(d, i) < |tags| - 1 && Without(tags, d)[Shifted(d, i)] == tags[i]
  {
  }

  lemma {:induction false} DepthShifts(tags: seq<Tag>, d: nat, name: Word, from: nat, k: nat)
    requires d < |tags| && tags[d] == BLANK && from <= k <= |tags|
    ensures Shifted(d, from) <= Shifted(d, k) <= |Without(tags, d)|
    ensures Depth(Without(tags, d), name, Shifted(d, from), Shifted(d, k)) == Depth(tags, name, from, k)
    decreases k
  {
    if from < k {
      DepthShifts(tags, d, name, from, k - 1);
      if k - 1 != d {
        WithoutAt(tags, d, k - 1);
      }
    }
  }

  lemma {:induction false} ClosesShifts(tags: seq<Tag>, d: nat, from: nat, k: nat)
    requires d < |tags| && tags[d] == BLANK && from != d && from <= k < |tags| && k != d
    ensures Closes(Without(tags, d), Shifted(d, from), Shifted(d, k) + 1) <==> Closes(tags, from, k + 1)
  {
    WithoutAt(tags, d, k);
    WithoutAt(tags, d, from);
    DepthShifts(tags, d, tags[from].name, from, k + 1);
  }

  lemma {:induction false} EndShifts(tags: seq<Tag>, d: nat, from: nat, k: nat, limit: nat)
    requires d < |tags| && tags[d] == BLANK && from != d && from <= k <= limit <= |tags|
    ensures Shifted(d, from) <= Shifted(d, k) <= Shifted(d, limit) <= |Without(tags, d)|
    ensures EndFrom(Without(tags, d), Shifted(d, from), Shifted(d, k), Shifted(d, limit)) == Shifted(d, EndFrom(tags, from, k, limit))
    decreases limit - k
  {
    if k < limit {
      EndShifts(tags, d, from, k + 1, limit);
      if k != d {
        ClosesShifts(tags, d, from, k);
      }
    }
  }

  lemma {:induction false} ScanShifts(tags: seq<Tag>, d: nat, from: nat, stop: nat, p: Properties)
    requires d < |tags| && tags[d] == BLANK && from <= stop <= |tags|
    ensures Shifted(d, from) <= Shifted(d, stop) <= |Without(tags, d)|
    ensures Scan(Without(tags, d), Shifted(d, from), Shifted(d, stop), p) == Scan(tags, from, stop, p)
    decreases stop - from
  {
    if from < stop {
      if from == d {
        ScanShifts(tags, d, from + 1, stop, p);
      } else {
        WithoutAt(tags, d, from);
        if tags[from].kind.Open? && tags[from].marks.scope {
          EndShifts(tags, d, from, from, stop);
          ScanShifts(tags, d, ElementEnd(tags, from, stop), stop, WithTag(p, tags[from].marks));
        } else {
          ScanShifts(tags, d, from + 1, stop, if tags[from].kind.Close? then p else WithTag(p, tags[from].marks));
        }
      }
    }
  }

  /** Every offer reads alike whether a tag is left out or blanked. */
  lemma {:induction false} BlankIsNothing(tags: seq<Tag>, d: nat, at: nat)
    requires d < |tags| && at < |tags| && at != d
    ensures Shifted(d, at) < |Without(tags, d)|
    ensures StatedAt(Without(tags, d), Shifted(d, at)) == StatedAt(tags[d := BLANK], at)
  {
    var cut := tags[d := BLANK];
    assert Without(cut, d) == Without(tags, d);
    WithoutAt(cut, d, at);
    EndShifts(cut, d, at, at, |cut|);
    ScanShifts(cut, d, at + 1, if cut[at].kind.Open? then ElementEnd(cut, at, |cut|) else at + 1, NO_PROPERTIES);
  }

  // ---------------------------------------------------------------------------
  // Extents only widen.
  // ---------------------------------------------------------------------------

  /** `cut` is `tags` with any number of closing tags blanked. */
  ghost predicate LeavesOut(tags: seq<Tag>, cut: seq<Tag>) {
    |cut| == |tags| && forall i :: 0 <= i < |tags| ==> cut[i] == tags[i] || (tags[i].kind.Close? && cut[i] == BLANK)
  }

  lemma {:induction false} DeeperWithout(tags: seq<Tag>, cut: seq<Tag>, name: Word, from: nat, k: nat)
    requires LeavesOut(tags, cut) && from <= k <= |tags|
    ensures Depth(cut, name, from, k) >= Depth(tags, name, from, k)
    decreases k
  {
    if from < k {
      DeeperWithout(tags, cut, name, from, k - 1);
    }
  }

  /** Whatever closing tags are left out, and whatever the limit, no element ends earlier. */
  lemma {:induction false} UnclosedReadsWider(tags: seq<Tag>, cut: seq<Tag>, from: nat, limit: nat)
    requires LeavesOut(tags, cut) && from < limit <= |tags| && !tags[from].kind.Close?
    ensures ElementEnd(cut, from, limit) >= ElementEnd(tags, from, limit)
  {
    EndIsFirst(tags, from, from, limit);
    EndIsFirst(cut, from, from, limit);
    var end := ElementEnd(cut, from, limit);
    if end < limit {
      DeeperWithout(tags, cut, tags[from].name, from, end);
      assert Closes(cut, from, end) && cut[end - 1] == tags[end - 1] && cut[from] == tags[from];
      assert Closes(tags, from, end);
    }
  }

  // ---------------------------------------------------------------------------
  // Which tags a scan reads.
  // ---------------------------------------------------------------------------

  /** The scan of `tags[from..stop]` reads the tag at `i`. */
  predicate Reads(tags: seq<Tag>, from: nat, stop: nat, i: nat)
    requires from <= stop <= |tags|
    decreases stop - from
  {
    if from == stop then false
    else if tags[from].kind.Close? then Reads(tags, from + 1, stop, i)
    else if tags[from].kind.Open? && tags[from].marks.scope then i == from || Reads(tags, ElementEnd(tags, from, stop), stop, i)
    else i == from || Reads(tags, from + 1, stop, i)
  }

  predicate StatesAt(tags: seq<Tag>, i: nat, name: Property, value: Word) {
    i < |tags| && States(tags[i].marks, name, value)
  }

  ghost predicate ReadsValue(tags: seq<Tag>, from: nat, stop: nat, name: Property, value: Word)
    requires from <= stop <= |tags|
  {
    exists i: nat :: StatesAt(tags, i, name, value) && Reads(tags, from, stop, i)
  }

  /** A scan collects what the tags it reads state, on any list of tags. */
  lemma {:induction false} ScanCollects(tags: seq<Tag>, from: nat, stop: nat, p: Properties, name: Property, value: Word)
    requires from <= stop <= |tags| && Distinct(p)
    ensures value in Scan(tags, from, stop, p).Under(name) <==> value in p.Under(name) || ReadsValue(tags, from, stop, name, value)
    decreases stop - from
  {
    if from < stop {
      var next := if tags[from].kind.Open? && tags[from].marks.scope then ElementEnd(tags, from, stop) else from + 1;
      var more := if tags[from].kind.Close? then p else WithTag(p, tags[from].marks);
      TagCollects(p, tags[from].marks, name, value);
      ScanCollects(tags, next, stop, more, name, value);
      ReadsNext(tags, from, next, stop, name, value);
    }
  }

  lemma {:induction false} ReadsNext(tags: seq<Tag>, from: nat, next: nat, stop: nat, name: Property, value: Word)
    requires from < stop <= |tags|
    requires next == if tags[from].kind.Open? && tags[from].marks.scope then ElementEnd(tags, from, stop) else from + 1
    ensures from < next <= stop
    ensures ReadsValue(tags, from, stop, name, value) <==>
            (!tags[from].kind.Close? && States(tags[from].marks, name, value)) || ReadsValue(tags, next, stop, name, value)
  {
    if ReadsValue(tags, from, stop, name, value) {
      var i: nat :| StatesAt(tags, i, name, value) && Reads(tags, from, stop, i);
      assert i == from || Reads(tags, next, stop, i);
    }
    if ReadsValue(tags, next, stop, name, value) {
      var i: nat :| StatesAt(tags, i, name, value) && Reads(tags, next, stop, i);
      assert Reads(tags, from, stop, i);
    }
    if !tags[from].kind.Close? && States(tags[from].marks, name, value) {
      assert StatesAt(tags, from, name, value) && Reads(tags, from, stop, from);
    }
  }

  // ---------------------------------------------------------------------------
  // The same, over the tree.
  // ---------------------------------------------------------------------------

  /** The tag at `i` is one the forest laid from `at` on states itself: it stands in no item nested in it. */
  predicate Own(f: Forest, at: nat, i: nat)
    decreases f
  {
    match f
    case Nothing => false
    case Lone(_, _, rest) => i == at || Own(rest, at + 1, i)
    case Element(_, marks, inside, rest) =>
      i == at || (!marks.scope && Own(inside, at + 1, i)) || Own(rest, at + 2 + Size(inside), i)
  }

  lemma {:induction false} OwnIsInside(f: Forest, at: nat, i: nat)
    ensures Own(f, at, i) ==> at <= i < at + Size(f)
    decreases f
  {
    match f {
      case Nothing =>
      case Lone(_, _, rest) => OwnIsInside(rest, at + 1, i);
      case Element(_, _, inside, rest) =>
        OwnIsInside(inside, at + 1, i);
        OwnIsInside(rest, at + 2 + Size(inside), i);
    }
  }

  ghost predicate OwnValue(tags: seq<Tag>, at: nat, f: Forest, name: Property, value: Word) {
    exists i: nat :: StatesAt(tags, i, name, value) && Own(f, at, i)
  }

  /** What a forest states itself is what its own tags state. */
  lemma {:induction false} OwnTagsState(tags: seq<Tag>, at: nat, f: Forest, name: Property, value: Word)
    requires LiesAt(tags, at, f)
    ensures OwnStates(f, name, value) <==> OwnValue(tags, at, f, name, value)
    decreases f
  {
    match f {
      case Nothing =>
      case Lone(_, _, rest) =>
        OwnTagsState(tags, at + 1, rest, name, value);
        OwnValueOfParts(tags, at, f, Nothing, rest, at + 1, at + 1, name, value);
      case Element(_, marks, inside, rest) =>
        OwnTagsState(tags, at + 1, inside, name, value);
        OwnTagsState(tags, at + 2 + Size(inside), rest, name, value);
        OwnValueOfParts(tags, at, f, if marks.scope then Nothing else inside, rest, at + 1, at + 2 + Size(inside), name, value);
    }
  }

  lemma {:induction false} OwnValueOfParts(tags: seq<Tag>, at: nat, f: Forest, inside: Forest, rest: Forest, a: nat, b: nat, name: Property, value: Word)
    requires forall i: nat :: Own(f, at, i) <==> i == at || Own(inside, a, i) || Own(rest, b, i)
    ensures OwnValue(tags, at, f, name, value) <==>
            StatesAt(tags, at, name, value) || OwnValue(tags, a, inside, name, value) || OwnValue(tags, b, rest, name, value)
  {
    if OwnValue(tags, at, f, name, value) {
      var i: nat :| StatesAt(tags, i, name, value) && Own(f, at, i);
      assert i == at || Own(inside, a, i) || Own(rest, b, i);
    }
  }

  /** Whole elements: a scan reads their own tags and goes on behind them. */
  lemma {:induction false} ReadsItsOwn(tags: seq<Tag>, at: nat, f: Forest, stop: nat, i: nat)
    requires LiesAt(tags, at, f) && at + Size(f) <= stop <= |tags|
    ensures Reads(tags, at, stop, i) <==> Own(f, at, i) || Reads(tags, at + Size(f), stop, i)
    decreases f
  {
    match f {
      case Nothing =>
      case Lone(_, _, rest) => ReadsItsOwn(tags, at + 1, rest, stop, i);
      case Element(_, marks, inside, rest) =>
        if marks.scope {
          ElementEndsAtItsOwnClose(tags, at, f, stop);
        } else {
          ReadsItsOwn(tags, at + 1, inside, stop, i);
        }
        ReadsItsOwn(tags, at + 2 + Size(inside), rest, stop, i);
    }
  }

  /** Away from the blanked tag the tree stands as it did. */
  lemma {:induction false} LiesElsewhere(tags: seq<Tag>, d: nat, at: nat, f: Forest)
    requires LiesAt(tags, at, f) && d < |tags| && (d < at || at + Size(f) <= d)
    ensures LiesAt(tags[d := BLANK], at, f)
    decreases f
  {
    match f {
      case Nothing =>
      case Lone(_, _, rest) => LiesElsewhere(tags, d, at + 1, rest);
      case Element(_, _, inside, rest) =>
        LiesElsewhere(tags, d, at + 1, inside);
        LiesElsewhere(tags, d, at + 2 + Size(inside), rest);
    }
  }

  // ---------------------------------------------------------------------------
  // How far an element reaches without its closing tag.
  // ---------------------------------------------------------------------------

  lemma {:induction false} DepthAdds(tags: seq<Tag>, name: Word, from: nat, mid: nat, k: nat)
    requires from <= mid <= k <= |tags|
    ensures Depth(tags, name, from, k) == Depth(tags, name, from, mid) + Depth(tags, name, mid, k)
    decreases k
  {
    if mid < k {
      DepthAdds(tags, name, from, mid, k - 1);
    }
  }

  lemma {:induction false} DepthOfCut(tags: seq<Tag>, d: nat, name: Word, from: nat, k: nat)
    requires from <= k <= |tags| && d < |tags|
    ensures Depth(tags[d := BLANK], name, from, k) == Depth(tags, name, from, k) - if from <= d < k then Turn(tags[d], name) else 0
    decreases k
  {
    if from < k {
      DepthOfCut(tags, d, name, from, k - 1);
    }
  }

  /** `tags[k - 1]` closes an element of that name that was opened before `from`. */
  predicate Unmatched(tags: seq<Tag>, name: Word, from: nat, k: nat) {
    && from < k <= |tags|
    && tags[k - 1].kind.Close? && tags[k - 1].name == name
    && Depth(tags, name, from, k) < 0
  }

  function FirstUnmatched(tags: seq<Tag>, name: Word, from: nat, k: nat, limit: nat): (g: nat)
    requires from <= k <= limit <= |tags|
    ensures k <= g <= limit && (k < limit ==> k < g)
    ensures forall j :: k < j < g ==> !Unmatched(tags, name, from, j)
    ensures g < limit ==> Unmatched(tags, name, from, g)
    decreases limit - k
  {
    if k == limit then limit
    else if Unmatched(tags, name, from, k + 1) then k + 1
    else FirstUnmatched(tags, name, from, k + 1, limit)
  }

  /** Just past the first tag behind `from` that closes an element of that name opened before it; or the limit. */
  function StretchEnd(tags: seq<Tag>, name: Word, from: nat, limit: nat): (g: nat)
    requires from <= limit <= |tags|
    ensures from <= g <= limit
  {
    FirstUnmatched(tags, name, from, from, limit)
  }

  /** Until there is one, the depth stays where it was or above. */
  lemma {:induction false} NeverBelow(tags: seq<Tag>, name: Word, from: nat, k: nat)
    requires from <= k <= |tags| && forall j :: from < j <= k ==> !Unmatched(tags, name, from, j)
    ensures Depth(tags, name, from, k) >= 0
    decreases k
  {
    if from < k {
      NeverBelow(tags, name, from, k - 1);
      assert !Unmatched(tags, name, from, k);
    }
  }

  /** What closes an element once a closing tag inside it, or its own, is blanked. */
  lemma {:induction false} ClosesOfCut(tags: seq<Tag>, d: nat, at: nat, f: Forest, k: nat)
    requires f.Element? && LiesAt(tags, at, f)
    requires at < d < at + 2 + Size(f.inside) && tags[d].kind.Close? && at < k <= |tags|
    ensures var end := at + 2 + Size(f.inside);
            Closes(tags[d := BLANK], at, k) <==>
              if f.name == tags[d].name then k > end && Unmatched(tags, f.name, end, k)
              else k >= end && Closes(tags, at, k)
  {
    var cut, end := tags[d := BLANK], at + 2 + Size(f.inside);
    assert cut[at] == tags[at] && tags[at].name == f.name;
    DepthOfCut(tags, d, f.name, at, k);
    if k < end {
      ElementEndsAtItsOwnClose(tags, at, f, end);
      EndIsFirst(tags, at, at, end);
      assert !Closes(tags, at, k);
    } else {
      OwnCloseBalances(tags, at, f);
      DepthAdds(tags, f.name, at, end, k);
    }
  }

  /** Such an element, if the tag was of its name, takes the next one that closes for its own. */
  lemma {:induction false} WidenedEnd(tags: seq<Tag>, d: nat, at: nat, f: Forest, stop: nat)
    requires f.Element? && LiesAt(tags, at, f) && at + 2 + Size(f.inside) <= stop <= |tags|
    requires at < d < at + 2 + Size(f.inside) && tags[d].kind.Close?
    ensures var end := at + 2 + Size(f.inside);
            ElementEnd(tags[d := BLANK], at, stop) == if f.name == tags[d].name then StretchEnd(tags, f.name, end, stop) else end
  {
    var cut, end := tags[d := BLANK], at + 2 + Size(f.inside);
    EndIsFirst(cut, at, at, stop);
    var found := ElementEnd(cut, at, stop);
    ClosesOfCut(tags, d, at, f, found);
    if f.name == tags[d].name {
      ClosesOfCut(tags, d, at, f, end);
      ClosesOfCut(tags, d, at, f, StretchEnd(tags, f.name, end, stop));
    } else {
      OwnCloseBalances(tags, at, f);
      ClosesOfCut(tags, d, at, f, end);
    }
  }

  lemma {:induction false} OwnCloseBalances(tags: seq<Tag>, at: nat, f: Forest)
    requires f.Element? && LiesAt(tags, at, f)
    ensures Depth(tags, f.name, at, at + 2 + Size(f.inside)) == 0
  {
    ForestIsBalanced(tags, f.name, at, at + 1, f.inside);
    assert Depth(tags, f.name, at, at + 1) == 1;
  }

  // ---------------------------------------------------------------------------
  // The nested item that widens, if one does.
  // ---------------------------------------------------------------------------

  /** Where the item of that name ended that stands in `f`, nested in no other, and holds or ends with the tag at `d`. */
  function Widened(f: Forest, at: nat, d: nat, name: Word): Option<nat>
    decreases f
  {
    match f
    case Nothing => None
    case Lone(_, _, rest) => Widened(rest, at + 1, d, name)
    case Element(own, marks, inside, rest) =>
      var end := at + 2 + Size(inside);
      if d <= at then None
      else if d >= end then Widened(rest, end, d, name)
      else if !marks.scope then Widened(inside, at + 1, d, name)
      else if own == name then Some(end) else None
  }

  lemma {:induction false} WidenedIsInside(f: Forest, at: nat, d: nat, name: Word)
    ensures Widened(f, at, d, name).Some? ==> at <= d < Widened(f, at, d, name).value <= at + Size(f)
    decreases f
  {
    match f {
      case Nothing =>
      case Lone(_, _, rest) => WidenedIsInside(rest, at + 1, d, name);
      case Element(_, _, inside, rest) =>
        WidenedIsInside(inside, at + 1, d, name);
        WidenedIsInside(rest, at + 2 + Size(inside), d, name);
    }
  }

  /**
   The tag at `i` is the forest's own and opens an item of that name which holds or ends with the
   tag at `d`, and ends at `end`.
   */
  predicate HoldsTag(tags: seq<Tag>, f: Forest, at: nat, i: nat, d: nat, name: Word, end: nat) {
    && Own(f, at, i) && i < d < end && i < |tags|
    && tags[i].kind.Open? && tags[i].marks.scope && tags[i].name == name
    && ElementEnd(tags, i, |tags|) == end
  }

  /** It is the one own tag that opens such an item. */
  lemma {:induction false} WidenedIsTheItem(tags: seq<Tag>, f: Forest, at: nat, d: nat, name: Word, end: nat)
    requires LiesAt(tags, at, f)
    ensures Widened(f, at, d, name) == Some(end) <==> exists i: nat :: HoldsTag(tags, f, at, i, d, name, end)
    decreases f
  {
    match f {
      case Nothing =>
      case Lone(_, _, rest) =>
        WidenedIsTheItem(tags, rest, at + 1, d, name, end);
        ItemOfParts(tags, f, at, Nothing, rest, at + 1, at + 1, d, name, end);
      case Element(_, marks, inside, rest) =>
        var b := at + 2 + Size(inside);
        ElementEndsAtItsOwnClose(tags, at, f, |tags|);
        WidenedIsTheItem(tags, inside, at + 1, d, name, end);
        WidenedIsTheItem(tags, rest, b, d, name, end);
        WidenedIsInside(inside, at + 1, d, name);
        WidenedIsInside(rest, b, d, name);
        ItemOfParts(tags, f, at, if marks.scope then Nothing else inside, rest, at + 1, b, d, name, end);
    }
  }

  ghost predicate SomeItem(tags: seq<Tag>, f: Forest, at: nat, d: nat, name: Word, end: nat) {
    exists i: nat :: HoldsTag(tags, f, at, i, d, name, end)
  }

  lemma {:induction false} ItemOfParts(tags: seq<Tag>, f: Forest, at: nat, inside: Forest, rest: Forest, a: nat, b: nat, d: nat, name: Word, end: nat)
    requires at < |tags| && forall i: nat :: Own(f, at, i) <==> i == at || Own(inside, a, i) || Own(rest, b, i)
    ensures SomeItem(tags, f, at, d, name, end) <==>
            || SomeItem(tags, inside, a, d, name, end) || SomeItem(tags, rest, b, d, name, end)
            || (at < d < end && tags[at].kind.Open? && tags[at].marks.scope && tags[at].name == name && ElementEnd(tags, at, |tags|) == end)
  {
    if i: nat :| HoldsTag(tags, f, at, i, d, name, end) {
      assert i == at || HoldsTag(tags, inside, a, i, d, name, end) || HoldsTag(tags, rest, b, i, d, name, end);
    }
    if i: nat :| HoldsTag(tags, inside, a, i, d, name, end) {
      assert HoldsTag(tags, f, at, i, d, name, end);
    }
    if i: nat :| HoldsTag(tags, rest, b, i, d, name, end) {
      assert HoldsTag(tags, f, at, i, d, name, end);
    }
    assert HoldsTag(tags, f, at, at, d, name, end) <==>
           at < d < end && tags[at].kind.Open? && tags[at].marks.scope && tags[at].name == name && ElementEnd(tags, at, |tags|) == end;
  }

  /** A closing tag, blanked or not, is read as nothing: the scan goes on behind it. */
  lemma ReadsPast(tags: seq<Tag>, d: nat, k: nat, stop: nat, i: nat)
    requires k < stop <= |tags| && d < |tags| && tags[k].kind.Close? && i != d
    ensures Reads(tags[d := BLANK], k, stop, i) <==> Reads(tags[d := BLANK], k + 1, stop, i)
  {
  }

  /** The forest does not hold the blanked tag. */
  lemma {:induction false} ReadsBehindGap(tags: seq<Tag>, d: nat, at: nat, f: Forest, stop: nat, i: nat)
    requires LiesAt(tags, at, f) && d < |tags| && (d < at || at + Size(f) <= d) && at + Size(f) <= stop <= |tags|
    ensures Reads(tags[d := BLANK], at, stop, i) <==> Own(f, at, i) || Reads(tags[d := BLANK], at + Size(f), stop, i)
  {
    LiesElsewhere(tags, d, at, f);
    ReadsItsOwn(tags[d := BLANK], at, f, stop, i);
  }

  /** The first element of the forest does not hold it. */
  lemma {:induction false} ReadsBeforeGap(tags: seq<Tag>, d: nat, at: nat, f: Forest, stop: nat, i: nat)
    requires f.Element? && LiesAt(tags, at, f) && at + 2 + Size(f.inside) <= d < |tags| && at + 2 + Size(f.inside) <= stop <= |tags|
    ensures Reads(tags[d := BLANK], at, stop, i) <==>
            i == at || (!f.marks.scope && Own(f.inside, at + 1, i)) || Reads(tags[d := BLANK], at + 2 + Size(f.inside), stop, i)
  {
    var alone := Element(f.name, f.marks, f.inside, Nothing);
    ReadsBehindGap(tags, d, at, alone, stop, i);
  }

  /**
   With the tag at `d` blanked, a forest that holds it is read as before, up to the old end of the
   item that widens and then from its new one.
   */
  predicate AroundGap(tags: seq<Tag>, d: nat, at: nat, f: Forest, stop: nat, i: nat)
    requires d < |tags| && at + Size(f) <= stop <= |tags|
  {
    var cut, w := tags[d := BLANK], Widened(f, at, d, tags[d].name);
    if w == None then Reads(cut, at, stop, i) <==> Own(f, at, i) || Reads(cut, at + Size(f), stop, i)
    else && w.value <= stop
         && (Reads(cut, at, stop, i) <==>
             (Own(f, at, i) && i < w.value) || Reads(cut, StretchEnd(tags, tags[d].name, w.value, stop), stop, i))
  }

  lemma {:induction false} GapInTheRest(tags: seq<Tag>, d: nat, at: nat, f: Forest, stop: nat, i: nat)
    requires f.Element? && LiesAt(tags, at, f) && at + 2 + Size(f.inside) <= d < |tags| && at + Size(f) <= stop <= |tags|
    requires AroundGap(tags, d, at + 2 + Size(f.inside), f.rest, stop, i)
    ensures AroundGap(tags, d, at, f, stop, i)
  {
    var b := at + 2 + Size(f.inside);
    OwnIsInside(f.inside, at + 1, i);
    WidenedIsInside(f.rest, b, d, tags[d].name);
    ReadsBeforeGap(tags, d, at, f, stop, i);
  }

  lemma {:induction false} GapAtAnItem(tags: seq<Tag>, d: nat, at: nat, f: Forest, stop: nat, i: nat)
    requires f.Element? && LiesAt(tags, at, f) && f.marks.scope && at + Size(f) <= stop <= |tags|
    requires at < d < at + 2 + Size(f.inside) && tags[d].kind.Close?
    ensures AroundGap(tags, d, at, f, stop, i)
  {
    var b := at + 2 + Size(f.inside);
    OwnIsInside(f.rest, b, i);
    WidenedEnd(tags, d, at, f, stop);
    ReadsBehindGap(tags, d, b, f.rest, stop, i);
  }

  lemma {:induction false} GapInside(tags: seq<Tag>, d: nat, at: nat, f: Forest, stop: nat, i: nat)
    requires f.Element? && LiesAt(tags, at, f) && !f.marks.scope && at + Size(f) <= stop <= |tags|
    requires at < d < at + 1 + Size(f.inside) && tags[d].kind.Close? && i != d
    requires AroundGap(tags, d, at + 1, f.inside, stop, i)
    ensures AroundGap(tags, d, at, f, stop, i)
  {
    var b := at + 2 + Size(f.inside);
    WidenedIsInside(f.inside, at + 1, d, tags[d].name);
    OwnIsInside(f.rest, b, i);
    ReadsPast(tags, d, b - 1, stop, i);
    ReadsBehindGap(tags, d, b, f.rest, stop, i);
  }

  lemma {:induction false} GapIsTheClose(tags: seq<Tag>, d: nat, at: nat, f: Forest, stop: nat, i: nat)
    requires f.Element? && LiesAt(tags, at, f) && !f.marks.scope && at + Size(f) <= stop <= |tags|
    requires d == at + 1 + Size(f.inside) && i != d
    ensures AroundGap(tags, d, at, f, stop, i)
  {
    WidenedIsInside(f.inside, at + 1, d, tags[d].name);
    ReadsBehindGap(tags, d, at + 1, f.inside, stop, i);
    ReadsPast(tags, d, d, stop, i);
    ReadsBehindGap(tags, d, d + 1, f.rest, stop, i);
  }

  lemma {:induction false} ReadsAroundGap(tags: seq<Tag>, d: nat, at: nat, f: Forest, stop: nat, i: nat)
    requires LiesAt(tags, at, f) && at <= d < at + Size(f) <= stop <= |tags| && tags[d].kind.Close? && i != d
    ensures AroundGap(tags, d, at, f, stop, i)
    decreases f
  {
    match f {
      case Lone(_, _, rest) =>
        ReadsAroundGap(tags, d, at + 1, rest, stop, i);
        WidenedIsInside(rest, at + 1, d, tags[d].name);
        assert tags[d := BLANK][at] == tags[at];
      case Element(_, marks, inside, rest) =>
        var b := at + 2 + Size(inside);
        if d >= b {
          ReadsAroundGap(tags, d, b, rest, stop, i);
          GapInTheRest(tags, d, at, f, stop, i);
        } else if marks.scope {
          GapAtAnItem(tags, d, at, f, stop, i);
        } else if d == b - 1 {
          GapIsTheClose(tags, d, at, f, stop, i);
        } else {
          ReadsAroundGap(tags, d, at + 1, inside, stop, i);
          GapInside(tags, d, at, f, stop, i);
        }
    }
  }

  // ---------------------------------------------------------------------------
  // Where the stretch the widened item swallows ends, and that the scan resumes there.
  // ---------------------------------------------------------------------------

  /**
   The stretch that starts at `from` ends inside the forest, at its own level, so that
   what it states behind the stretch is read; or no tag of the forest ends it.
   */
  predicate Resumes(tags: seq<Tag>, d: nat, at: nat, f: Forest, from: nat, stop: nat, i: nat)
    requires d < |tags| && from <= stop && at + Size(f) <= stop <= |tags|
  {
    var g := StretchEnd(tags, tags[d].name, from, stop);
    if g <= at + Size(f)
    then Reads(tags[d := BLANK], g, stop, i) <==> (Own(f, at, i) && i >= g) || Reads(tags[d := BLANK], at + Size(f), stop, i)
    else true
  }

  lemma {:induction false} ResumesInTheRest(tags: seq<Tag>, d: nat, at: nat, f: Forest, from: nat, stop: nat, i: nat)
    requires f.Element? && LiesAt(tags, at, f) && d < |tags| && at + 2 + Size(f.inside) < from <= stop && at + Size(f) <= stop <= |tags|
    requires Resumes(tags, d, at + 2 + Size(f.inside), f.rest, from, stop, i)
    ensures Resumes(tags, d, at, f, from, stop, i)
  {
    OwnIsInside(f.inside, at + 1, i);
  }

  /** Whole elements end no stretch that starts before them. */
  lemma {:induction false} ForestEndsNothing(tags: seq<Tag>, name: Word, from: nat, at: nat, f: Forest, k: nat)
    requires from <= at && LiesAt(tags, at, f) && Depth(tags, name, from, at) >= 0 && at < k <= at + Size(f)
    ensures !Unmatched(tags, name, from, k)
  {
    ForestIsBalanced(tags, name, from, at, f);
  }

  lemma {:induction false} ResumesBehindAnItem(tags: seq<Tag>, d: nat, at: nat, f: Forest, stop: nat, i: nat)
    requires f.Element? && LiesAt(tags, at, f) && d < |tags| && at + Size(f) <= stop <= |tags|
    ensures Resumes(tags, d, at, f, at + 2 + Size(f.inside), stop, i)
  {
    var name, b := tags[d].name, at + 2 + Size(f.inside);
    var g := StretchEnd(tags, name, b, stop);
    OwnIsInside(f, at, i);
    if b < g <= at + Size(f) {
      ForestEndsNothing(tags, name, b, b, f.rest, g);
    }
  }

  /**
   Behind the last tag of the forest inside an element comes the element's own closing tag, which
   ends the stretch if it is of that name.
   */
  lemma {:induction false} OwnCloseEndsIt(tags: seq<Tag>, name: Word, at: nat, f: Forest, from: nat)
    requires f.Element? && LiesAt(tags, at, f) && at < from <= at + 1 + Size(f.inside)
    requires forall k :: from < k <= at + 1 + Size(f.inside) ==> !Unmatched(tags, name, from, k)
    ensures Unmatched(tags, name, from, at + 2 + Size(f.inside)) <==> f.name == name
    ensures f.name != name ==> Depth(tags, name, from, at + 2 + Size(f.inside)) >= 0
  {
    var last := at + 1 + Size(f.inside);
    ForestIsBalanced(tags, name, at + 1, at + 1, f.inside);
    DepthAdds(tags, name, at + 1, from, last);
    NeverBelow(tags, name, from, last);
  }

  lemma {:induction false} ResumesInside(tags: seq<Tag>, d: nat, at: nat, f: Forest, from: nat, stop: nat, i: nat)
    requires f.Element? && LiesAt(tags, at, f) && !f.marks.scope && at + Size(f) <= stop <= |tags|
    requires at < d < at + 1 + Size(f.inside) && d < from <= at + 1 + Size(f.inside) && tags[d].kind.Close? && i != d
    requires Resumes(tags, d, at + 1, f.inside, from, stop, i)
    ensures Resumes(tags, d, at, f, from, stop, i)
  {
    var b, name := at + 2 + Size(f.inside), tags[d].name;
    var g := StretchEnd(tags, name, from, stop);
    OwnIsInside(f.inside, at + 1, i);
    OwnIsInside(f.rest, b, i);
    ReadsBehindGap(tags, d, b, f.rest, stop, i);
    if g <= b - 1 {
      ReadsPast(tags, d, b - 1, stop, i);
    } else {
      OwnCloseEndsIt(tags, name, at, f, from);
      if b < g <= at + Size(f) {
        ForestEndsNothing(tags, name, from, b, f.rest, g);
      }
    }
  }

  /** Where the widened item stood in the forest, the scan resumes there too, if at all. */
  lemma {:induction false} ResumesAtItsLevel(tags: seq<Tag>, d: nat, at: nat, f: Forest, stop: nat, i: nat)
    requires LiesAt(tags, at, f) && at <= d < at + Size(f) <= stop <= |tags| && tags[d].kind.Close? && i != d
    requires Widened(f, at, d, tags[d].name).Some?
    ensures Widened(f, at, d, tags[d].name).value <= stop
    ensures Resumes(tags, d, at, f, Widened(f, at, d, tags[d].name).value, stop, i)
    decreases f
  {
    var name := tags[d].name;
    var from := Widened(f, at, d, name).value;
    WidenedIsInside(f, at, d, name);
    match f {
      case Lone(_, _, rest) => ResumesAtItsLevel(tags, d, at + 1, rest, stop, i);
      case Element(_, marks, inside, rest) =>
        var b := at + 2 + Size(inside);
        if d >= b {
          ResumesAtItsLevel(tags, d, b, rest, stop, i);
          ResumesInTheRest(tags, d, at, f, from, stop, i);
        } else if marks.scope {
          ResumesBehindAnItem(tags, d, at, f, stop, i);
        } else {
          WidenedIsInside(inside, at + 1, d, name);
          ResumesAtItsLevel(tags, d, at + 1, inside, stop, i);
          ResumesInside(tags, d, at, f, from, stop, i);
        }
    }
  }

  // ---------------------------------------------------------------------------
  // What is read of an offer.
  // ---------------------------------------------------------------------------

  function OldEnd(at: nat, f: Forest): nat
    requires f.Element?
  {
    at + 2 + Size(f.inside)
  }

  /** Where the offer at `at` ends once the tag at `d` is left out. */
  function NewEnd(tags: seq<Tag>, d: nat, at: nat): nat
    requires d < |tags| && at < |tags|
  {
    ElementEnd(tags[d := BLANK], at, |tags|)
  }

  /**
   It ends where it did, unless the tag was of its name and stood inside it or was its own: then it
   reaches the next that closes for it.
   */
  lemma {:induction false} NewEndIs(tags: seq<Tag>, d: nat, at: nat, f: Forest)
    requires f.Element? && LiesAt(tags, at, f) && d < |tags| && tags[d].kind.Close?
    ensures NewEnd(tags, d, at) == if at < d < OldEnd(at, f) && f.name == tags[d].name
                                   then StretchEnd(tags, f.name, OldEnd(at, f), |tags|) else OldEnd(at, f)
  {
    var alone := Element(f.name, f.marks, f.inside, Nothing);
    if at < d < OldEnd(at, f) {
      WidenedEnd(tags, d, at, f, |tags|);
    } else {
      LiesElsewhere(tags, d, at, alone);
      ElementEndsAtItsOwnClose(tags[d := BLANK], at, alone, |tags|);
    }
  }

  function Later(a: nat, b: nat): nat { if a >= b then a else b }

  /** The nested item that widens, and where the stretch it swallows ends. */
  datatype Loss = NothingLost | Swallowed(from: nat, upTo: nat)
  {
    predicate Holds(i: nat) { Swallowed? && from <= i < upTo }

    /** Where, behind the offer's old end, reading goes on if the offer itself has widened. */
    function Onward(end: nat): nat { if Swallowed? then Later(end, upTo) else end }
  }

  function LossOf(tags: seq<Tag>, d: nat, at: nat, f: Forest): Loss
    requires f.Element? && d < |tags| && at < |tags|
  {
    match Widened(f.inside, at + 1, d, tags[d].name)
    case None => NothingLost
    case Some(from) =>
      if from <= NewEnd(tags, d, at) then Swallowed(from, StretchEnd(tags, tags[d].name, from, NewEnd(tags, d, at))) else NothingLost
  }

  /**
   What is read: the offer's own tags outside the stretch, and, if the offer itself has widened,
   what a scan reads behind its old end.
   */
  lemma {:induction false} OfferReads(tags: seq<Tag>, d: nat, at: nat, f: Forest, i: nat)
    requires f.Element? && LiesAt(tags, at, f) && d < |tags| && tags[d].kind.Close? && i != d
    ensures var cut, loss, end := tags[d := BLANK], LossOf(tags, d, at, f), NewEnd(tags, d, at);
            && OldEnd(at, f) <= loss.Onward(OldEnd(at, f)) <= end <= |tags|
            && (Reads(cut, at + 1, end, i) <==>
                (Own(f.inside, at + 1, i) && !loss.Holds(i)) || Reads(cut, loss.Onward(OldEnd(at, f)), end, i))
  {
    var end, last := NewEnd(tags, d, at), OldEnd(at, f) - 1;
    NewEndIs(tags, d, at, f);
    WidenedIsInside(f.inside, at + 1, d, tags[d].name);
    OwnIsInside(f.inside, at + 1, i);
    ReadsPast(tags, d, last, end, i);
    if at < d < last {
      ReadsAroundGap(tags, d, at + 1, f.inside, end, i);
      if Widened(f.inside, at + 1, d, tags[d].name).Some? {
        ResumesAtItsLevel(tags, d, at + 1, f.inside, end, i);
      }
    } else {
      ReadsBehindGap(tags, d, at + 1, f.inside, end, i);
    }
  }

  /** The offer states the value somewhere outside the stretch. */
  ghost predicate StatesOutside(tags: seq<Tag>, at: nat, f: Forest, loss: Loss, name: Property, value: Word) {
    exists i: nat :: StatesAt(tags, i, name, value) && Own(f, at, i) && !loss.Holds(i)
  }

  /**
   EXACTLY WHAT SURVIVES: on any page on which the offer's own markup is a tree, with any one
   closing tag of the page left out.
   */
  lemma {:induction false} UnclosedReadsExactly(tags: seq<Tag>, d: nat, at: nat, f: Forest, name: Property, value: Word)
    requires f.Element? && LiesAt(tags, at, f) && d < |tags| && tags[d].kind.Close?
    ensures Shifted(d, at) < |Without(tags, d)|
    ensures var loss := LossOf(tags, d, at, f);
            && loss.Onward(OldEnd(at, f)) <= NewEnd(tags, d, at) <= |tags|
            && (value in StatedAt(Without(tags, d), Shifted(d, at)).Under(name) <==>
                || StatesOutside(tags, at + 1, f.inside, loss, name, value)
                || ReadsValue(tags[d := BLANK], loss.Onward(OldEnd(at, f)), NewEnd(tags, d, at), name, value))
  {
    var cut, loss, end := tags[d := BLANK], LossOf(tags, d, at, f), NewEnd(tags, d, at);
    BlankIsNothing(tags, d, at);
    OfferReads(tags, d, at, f, at);
    assert cut[at] == tags[at];
    assert StatedAt(cut, at) == Scan(cut, at + 1, end, NO_PROPERTIES);
    ScanCollects(cut, at + 1, end, NO_PROPERTIES, name, value);
    if ReadsValue(cut, at + 1, end, name, value) {
      var i: nat :| StatesAt(cut, i, name, value) && Reads(cut, at + 1, end, i);
      OfferReads(tags, d, at, f, i);
      assert StatesAt(tags, i, name, value);
    }
    if StatesOutside(tags, at + 1, f.inside, loss, name, value) {
      var i: nat :| StatesAt(tags, i, name, value) && Own(f.inside, at + 1, i) && !loss.Holds(i);
      OwnIsNoClose(tags, at + 1, f.inside, d);
      OfferReads(tags, d, at, f, i);
      assert StatesAt(cut, i, name, value);
    }
    if ReadsValue(cut, loss.Onward(OldEnd(at, f)), end, name, value) {
      var i: nat :| StatesAt(cut, i, name, value) && Reads(cut, loss.Onward(OldEnd(at, f)), end, i);
      OfferReads(tags, d, at, f, i);
      assert Reads(cut, at + 1, end, i);
    }
  }

  lemma {:induction false} OwnIsNoClose(tags: seq<Tag>, at: nat, f: Forest, i: nat)
    requires LiesAt(tags, at, f)
    ensures Own(f, at, i) ==> i < |tags| && !tags[i].kind.Close?
    decreases f
  {
    match f {
      case Nothing =>
      case Lone(_, _, rest) => OwnIsNoClose(tags, at + 1, rest, i);
      case Element(_, _, inside, rest) =>
        OwnIsNoClose(tags, at + 1, inside, i);
        OwnIsNoClose(tags, at + 2 + Size(inside), rest, i);
    }
  }

  /** No item of that name among the forest's own tags holds or ends with the tag at `d`. */
  ghost predicate NoItemHolds(tags: seq<Tag>, f: Forest, at: nat, d: nat, name: Word) {
    forall i: nat, end: nat :: !HoldsTag(tags, f, at, i, d, name, end)
  }

  lemma {:induction false} NoItemNoLoss(tags: seq<Tag>, f: Forest, at: nat, d: nat, name: Word)
    requires LiesAt(tags, at, f)
    ensures NoItemHolds(tags, f, at, d, name) <==> Widened(f, at, d, name) == None
  {
    var w := Widened(f, at, d, name);
    if w.Some? {
      WidenedIsTheItem(tags, f, at, d, name, w.value);
    }
    if i: nat, end: nat :| HoldsTag(tags, f, at, i, d, name, end) {
      WidenedIsTheItem(tags, f, at, d, name, end);
    }
  }

  /**
   SAFE TO LEAVE OUT: if no nested item of the tag's name holds or ends with it,
   everything the offer states is still read; and nothing else is, unless the tag
   stood inside the offer, or closed it, and was of its name.
   */
  lemma {:induction false} UnclosedKeepsAll(tags: seq<Tag>, d: nat, at: nat, f: Forest, name: Property, value: Word)
    requires f.Element? && LiesAt(tags, at, f) && d < |tags| && tags[d].kind.Close?
    requires NoItemHolds(tags, f.inside, at + 1, d, tags[d].name)
    ensures Shifted(d, at) < |Without(tags, d)|
    ensures var read := StatedAt(Without(tags, d), Shifted(d, at));
            && (OwnStates(f.inside, name, value) ==> value in read.Under(name))
            && (f.name != tags[d].name || d <= at || d >= OldEnd(at, f) ==>
                  (value in read.Under(name) <==> OwnStates(f.inside, name, value)))
  {
    NoItemNoLoss(tags, f.inside, at + 1, d, tags[d].name);
    UnclosedReadsExactly(tags, d, at, f, name, value);
    OwnTagsState(tags, at + 1, f.inside, name, value);
    NewEndIs(tags, d, at, f);
    var loss := LossOf(tags, d, at, f);
    assert loss.NothingLost?;
    assert OwnValue(tags, at + 1, f.inside, name, value) ==> StatesOutside(tags, at + 1, f.inside, loss, name, value);
  }

  /**
   AND OTHERWISE NOT: if the nested item opened at `i`, which ended at `end`, holds the
   tag or ends with it and is of its name, a value is still read if and only if the
   offer also states it outside the stretch from `end` to the next tag that closes for
   that item, or the offer has itself widened and reads it behind its old end.
   */
  lemma {:induction false} UnclosedKeepsIff(tags: seq<Tag>, d: nat, at: nat, f: Forest, i: nat, end: nat, name: Property, value: Word)
    requires f.Element? && LiesAt(tags, at, f) && d < |tags| && tags[d].kind.Close?
    requires HoldsTag(tags, f.inside, at + 1, i, d, tags[d].name, end)
    ensures Shifted(d, at) < |Without(tags, d)| && end <= NewEnd(tags, d, at) <= |tags|
    ensures var upTo := StretchEnd(tags, tags[d].name, end, NewEnd(tags, d, at));
            && Later(OldEnd(at, f), upTo) <= NewEnd(tags, d, at)
            && (value in StatedAt(Without(tags, d), Shifted(d, at)).Under(name) <==>
                || StatesOutside(tags, at + 1, f.inside, Swallowed(end, upTo), name, value)
                || (f.name == tags[d].name &&
                    ReadsValue(tags[d := BLANK], Later(OldEnd(at, f), upTo), NewEnd(tags, d, at), name, value)))
  {
    WidenedIsTheItem(tags, f.inside, at + 1, d, tags[d].name, end);
    WidenedIsInside(f.inside, at + 1, d, tags[d].name);
    UnclosedReadsExactly(tags, d, at, f, name, value);
    NewEndIs(tags, d, at, f);
  }

  /** Such a page: without the closing tag of the seller nested in it, the offer loses its own price to the seller. */
  lemma UnclosedItemHidesThePrice(offer: Tag, seller: Tag, price: Tag, close: Tag)
    requires offer == Tag(Word("div"), Open, Marks(true, true, [], None)) && close == Tag(Word("div"), Close, NO_MARKS)
    requires seller == Tag(Word("div"), Open, Marks(false, true, [], None))
    requires price == Tag(Word("meta"), Void, Marks(false, false, [Price], Some(Word("9.99"))))
    ensures OfferAt([offer, seller, close, price, close], 0) == CandidateOf(WithTag(NO_PROPERTIES, price.marks))
    ensures Word("9.99") in WithTag(NO_PROPERTIES, price.marks).Under(Price)
    ensures OfferAt(Without([offer, seller, close, price, close], 2), 0) == CandidateOf(NO_PROPERTIES)
  {
    TagCollects(NO_PROPERTIES, price.marks, Price, Word("9.99"));
    var nested := Element(Word("div"), seller.marks, Nothing, Lone(Word("meta"), price.marks, Nothing));
    var tree := Element(Word("div"), offer.marks, nested, Nothing);
    var closed := [offer, seller, close, price, close];
    assert LiesAt(closed, 3, nested.rest) && LiesAt(closed, 2, nested.inside);
    assert LiesAt(closed, 1, nested) && LiesAt(closed, 5, tree.rest);
    OfferIsItsElement(closed, 0, tree);
    assert Walk(nested, NO_PROPERTIES) == Walk(nested.rest, NO_PROPERTIES);
    var unclosed := [offer, seller, price, close];
    assert Without(closed, 2) == unclosed;
    UnclosedEnds(unclosed);
    assert Scan(unclosed, 1, 4, NO_PROPERTIES) == Scan(unclosed, 4, 4, NO_PROPERTIES);
  }

  lemma UnclosedEnds(tags: seq<Tag>)
    requires |tags| == 4 && tags[2].kind.Void? && tags[3].kind.Close?
    requires tags[0].name == tags[1].name == tags[3].name && tags[0].kind == tags[1].kind == Open
    ensures ElementEnd(tags, 0, 4) == 4 && ElementEnd(tags, 1, 4) == 4
  {
    EndIsFirst(tags, 0, 0, 4);
    EndIsFirst(tags, 1, 1, 4);
  }
}
