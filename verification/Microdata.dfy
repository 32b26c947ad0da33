/** Microdata offers. */
module Microdata {
  // Microdata offers on a tag list (packages/extractor/src/offers.ts).
  //
  // The reader sees a flat list of tags. What it is meant to do is a property of the
  // element tree behind the list: each offer element is one candidate, built from
  // the properties inside it that no nested item owns.

  import opened Prelude
  import opened Text

  datatype Kind = Open | Void | Close

  /** Text taken whole from the markup: an element's name, or a value. */
  datatype Word = Word(text: string)

  /** The property names an offer is read for, and every other. */
  datatype Property = Price | LowPrice | HighPrice | PriceCurrency | Availability | OtherProperty(name: string)

  /**
   What the attributes of a tag amount to: whether its `itemtype` names an offer,
   whether it carries `itemscope`, the names its `itemprop` lists, and the value it
   gives them, if any.
   */
  datatype Marks = Marks(offer: bool, scope: bool, names: seq<Property>, value: Option<Word>)

  const NO_MARKS := Marks(false, false, [], None)

  datatype Tag = Tag(name: Word, kind: Kind, marks: Marks)

  // ---------------------------------------------------------------------------
  // Where an element ends.
  // ---------------------------------------------------------------------------

  function Turn(tag: Tag, name: Word): int {
    if tag.name != name || tag.kind.Void? then 0 else if tag.kind.Open? then 1 else -1
  }

  /** Opening less closing tags of one name among `tags[from..to]`. */
  function Depth(tags: seq<Tag>, name: Word, from: nat, stop: nat): int
    requires from <= stop <= |tags|
  {
    if from == stop then 0 else Depth(tags, name, from, stop - 1) + Turn(tags[stop - 1], name)
  }

  /** `tags[end - 1]` closes what `tags[from]` opened. */
  predicate Closes(tags: seq<Tag>, from: nat, end: nat) {
    && from < end <= |tags|
    && tags[end - 1].kind.Close? && tags[end - 1].name == tags[from].name
    && Depth(tags, tags[from].name, from, end) <= 0
  }

  /** The first end from `k` on, or `limit`. */
  function EndFrom(tags: seq<Tag>, from: nat, k: nat, limit: nat): (end: nat)
    requires from <= k <= limit <= |tags|
    ensures k <= end <= limit && (k < limit ==> k < end)
    decreases limit - k
  {
    if k == limit then limit
    else if Closes(tags, from, k + 1) then k + 1
    else EndFrom(tags, from, k + 1, limit)
  }

  function ElementEnd(tags: seq<Tag>, from: nat, limit: nat): nat
    requires from <= limit <= |tags|
  {
    EndFrom(tags, from, from, limit)
  }

  /** The end is the first closing tag that balances, if there is one. */
  lemma {:induction false} EndIsFirst(tags: seq<Tag>, from: nat, k: nat, limit: nat)
    requires from <= k <= limit <= |tags|
    ensures var end := EndFrom(tags, from, k, limit);
            && (forall e :: k < e < end ==> !Closes(tags, from, e))
            && (end < limit ==> Closes(tags, from, end))
    decreases limit - k
  {
    if k < limit && !Closes(tags, from, k + 1) {
      EndIsFirst(tags, from, k + 1, limit);
    }
  }

  method FindElementEnd(tags: seq<Tag>, from: nat, limit: nat) returns (end: nat)
    requires from < limit <= |tags|
    ensures from < end <= limit
    ensures forall e :: from < e < end ==> !Closes(tags, from, e)
    ensures end < limit ==> Closes(tags, from, end)
    ensures end == ElementEnd(tags, from, limit)
  {
    var name := tags[from].name;
    var depth := 0;
    var index := from;
    while index < limit
      invariant from <= index <= limit && depth == Depth(tags, name, from, index)
      invariant forall e :: from < e <= index ==> !Closes(tags, from, e)
      invariant ElementEnd(tags, from, limit) == EndFrom(tags, from, index, limit)
    {
      var tag := tags[index];
      if tag.name == name {
        if tag.kind.Open? {
          depth := depth + 1;
        } else if tag.kind.Close? {
          depth := depth - 1;
          if depth <= 0 {
            return index + 1;
          }
        }
      }
      index := index + 1;
    }
    return limit;
  }

  // ---------------------------------------------------------------------------
  // What one offer states.
  // ---------------------------------------------------------------------------

  /** Under each property name, the distinct values stated so far, in order of first appearance. */
  datatype Properties = Properties(values: map<Property, seq<Word>>)
  {
    function Under(name: Property): seq<Word> { if name in values then values[name] else [] }

    function First(name: Property): Option<Word> { if Under(name) == [] then None else Some(Under(name)[0]) }
  }

  const NO_PROPERTIES := Properties(map[])

  function WithValue(p: Properties, name: Property, value: Word): Properties {
    if value in p.Under(name) then p else Properties(p.values[name := p.Under(name) + [value]])
  }

  function WithNames(p: Properties, names: seq<Property>, n: nat, value: Word): Properties
    requires n <= |names|
  {
    if n == 0 then p else WithValue(WithNames(p, names, n - 1, value), names[n - 1], value)
  }

  /** A tag states its value under each name it lists; without a value it states nothing. */
  function WithTag(p: Properties, m: Marks): Properties {
    if m.value.None? then p else WithNames(p, m.names, |m.names|, m.value.value)
  }

  /** The scan of `tags[from..stop]`: what a nested item holds is jumped over. */
  function Scan(tags: seq<Tag>, from: nat, stop: nat, p: Properties): Properties
    requires from <= stop <= |tags|
    decreases stop - from
  {
    if from == stop then p
    else if tags[from].kind.Close? then Scan(tags, from + 1, stop, p)
    else if tags[from].kind.Open? && tags[from].marks.scope
    then Scan(tags, ElementEnd(tags, from, stop), stop, WithTag(p, tags[from].marks))
    else Scan(tags, from + 1, stop, WithTag(p, tags[from].marks))
  }

  datatype Candidate = Candidate(prices: seq<Word>, currencies: seq<Word>, availability: Word, priceIsRange: bool)

  /** A range whose ends agree is one price; any other range is none. */
  function ReadRange(low: Option<Word>, high: Option<Word>): (Option<Word>, bool) {
    if low.Some? && low == high then (low, false) else (None, low.Some? || high.Some?)
  }

  function NormaliseCode(code: Word): Word { Word(Upper(Trim(code.text))) }

  function NormaliseCodes(codes: seq<Word>, n: nat): seq<Word>
    requires n <= |codes|
  {
    if n == 0 then [] else NormaliseCodes(codes, n - 1) + [NormaliseCode(codes[n - 1])]
  }

  function CandidateOf(p: Properties): Candidate {
    var prices := p.Under(Price);
    var range := if |prices| > 0 then (None, false) else ReadRange(p.First(LowPrice), p.First(HighPrice));
    var codes := p.Under(PriceCurrency);
    var availability := p.First(Availability);
    Candidate(if |prices| > 0 then prices else if range.0.None? then [] else [range.0.value],
              NormaliseCodes(codes, |codes|),
              if availability.Some? then availability.value else Word([]),
              range.1)
  }

  method AddDistinct(p: Properties, name: Property, value: Word) returns (more: Properties)
    ensures more == WithValue(p, name, value)
  {
    if name !in p.values {
      assert p.Under(name) + [value] == [value];
      return Properties(p.values[name := [value]]);
    }
    more := p;
    if value !in p.values[name] {
      more := Properties(p.values[name := p.values[name] + [value]]);
    }
  }

  method ReadMicrodataOffer(tags: seq<Tag>, from: nat, stop: nat) returns (candidate: Candidate)
    requires from <= stop <= |tags|
    ensures candidate == CandidateOf(Scan(tags, from, stop, NO_PROPERTIES))
    ensures forall f :: LiesAt(tags, from, f) && from + Size(f) == stop ==> Says(f, candidate)
  {
    var p := NO_PROPERTIES;
    var index := from;
    while index < stop
      invariant from <= index <= stop
      invariant Scan(tags, index, stop, p) == Scan(tags, from, stop, NO_PROPERTIES)
      decreases stop - index
    {
      var tag := tags[index];
      if tag.kind.Close? {
        index := index + 1;
        continue;
      }
      if tag.marks.value.Some? {
        ghost var before := p;
        for i := 0 to |tag.marks.names|
          invariant p == WithNames(before, tag.marks.names, i, tag.marks.value.value)
        {
          p := AddDistinct(p, tag.marks.names[i], tag.marks.value.value);
        }
      }
      if tag.kind.Open? && tag.marks.scope {
        index := FindElementEnd(tags, index, stop);
      } else {
        index := index + 1;
      }
    }
    candidate := CandidateOf(p);
    forall f | LiesAt(tags, from, f) && from + Size(f) == stop ensures Says(f, candidate) {
      ElementSays(tags, from, stop, f, p);
    }
  }

  /** What is read of the offer element opened at `index`. */
  function StatedAt(tags: seq<Tag>, index: nat): Properties
    requires index < |tags|
  {
    Scan(tags, index + 1, if tags[index].kind.Open? then ElementEnd(tags, index, |tags|) else index + 1, NO_PROPERTIES)
  }

  function OfferAt(tags: seq<Tag>, index: nat): Candidate
    requires index < |tags|
  {
    CandidateOf(StatedAt(tags, index))
  }

  /** What a tag contributes: the candidate of the offer it opens, if it opens one. */
  function Item(tags: seq<Tag>, index: nat): Option<Candidate>
    requires index < |tags|
  {
    if tags[index].kind.Close? || !tags[index].marks.offer then None else Some(OfferAt(tags, index))
  }

  function Items(tags: seq<Tag>): seq<Option<Candidate>> {
    seq(|tags|, i requires 0 <= i < |tags| => Item(tags, i))
  }

  /** The candidates found so far, the latest outermost. */
  datatype Found = NoOffers | Offered(earlier: Found, candidate: Candidate)
  {
    function With(item: Option<Candidate>): Found { if item.Some? then Offered(this, item.value) else this }

    function InOrder(): seq<Candidate> { if NoOffers? then [] else earlier.InOrder() + [candidate] }
  }

  function Gathered(items: seq<Option<Candidate>>, n: nat): Found
    requires n <= |items|
  {
    if n == 0 then NoOffers else Gathered(items, n - 1).With(items[n - 1])
  }

  method FindMicrodataOffers(tags: seq<Tag>) returns (candidates: seq<Candidate>)
    ensures candidates == Gathered(Items(tags), |tags|).InOrder()
  {
    candidates := [];
    for index := 0 to |tags|
      invariant candidates == Gathered(Items(tags), index).InOrder()
    {
      var tag := tags[index];
      if tag.kind.Close? || !tag.marks.offer {
        continue;
      }
      var end := index + 1;
      if tag.kind.Open? {
        end := FindElementEnd(tags, index, |tags|);
      }
      var candidate := ReadMicrodataOffer(tags, index + 1, end);
      assert Items(tags)[index] == Some(candidate);
      candidates := candidates + [candidate];
    }
  }

  // ---------------------------------------------------------------------------
  // The element tree behind a list.
  // ---------------------------------------------------------------------------

  /** Elements side by side: a void one, or one with others inside it, and then the rest. */
  datatype Forest =
    | Nothing
    | Lone(name: Word, marks: Marks, rest: Forest)
    | Element(name: Word, marks: Marks, inside: Forest, rest: Forest)

  /** `f` laid flat, with `after` behind it. */
  function Flatten(f: Forest, after: seq<Tag>): seq<Tag>
    decreases f
  {
    match f
    case Nothing => after
    case Lone(name, marks, rest) => [Tag(name, Void, marks)] + Flatten(rest, after)
    case Element(name, marks, inside, rest) =>
      [Tag(name, Open, marks)] + Flatten(inside, [Tag(name, Close, NO_MARKS)] + Flatten(rest, after))
  }

  function Size(f: Forest): nat {
    match f
    case Nothing => 0
    case Lone(_, _, rest) => 1 + Size(rest)
    case Element(_, _, inside, rest) => 2 + Size(inside) + Size(rest)
  }

  /** `f` is what stands in `tags` from `at` on. */
  predicate LiesAt(tags: seq<Tag>, at: nat, f: Forest)
    decreases f
  {
    && at + Size(f) <= |tags|
    && match f
       case Nothing => true
       case Lone(name, marks, rest) => tags[at] == Tag(name, Void, marks) && LiesAt(tags, at + 1, rest)
       case Element(name, marks, inside, rest) =>
         && tags[at] == Tag(name, Open, marks)
         && LiesAt(tags, at + 1, inside)
         && tags[at + 1 + Size(inside)] == Tag(name, Close, NO_MARKS)
         && LiesAt(tags, at + 2 + Size(inside), rest)
  }

  /** `list` is what `tags` holds from `at` to its end. */
  ghost predicate EndsIn(tags: seq<Tag>, at: nat, list: seq<Tag>) {
    |tags| == at + |list| && forall i :: 0 <= i < |list| ==> tags[at + i] == list[i]
  }

  lemma TagAt(tags: seq<Tag>, at: nat, tag: Tag, after: seq<Tag>)
    requires EndsIn(tags, at, [tag] + after)
    ensures at < |tags| && tags[at] == tag && EndsIn(tags, at + 1, after)
  {
    var list := [tag] + after;
    assert tags[at + 0] == list[0];
    forall i | 0 <= i < |after| ensures tags[at + 1 + i] == after[i] {
      assert tags[at + (i + 1)] == list[i + 1];
    }
  }

  /** The parts of an element, one behind the other. */
  lemma {:induction false} PartsLie(tags: seq<Tag>, at: nat, f: Forest)
    requires f.Element? && at < |tags| && tags[at] == Tag(f.name, Open, f.marks) && LiesAt(tags, at + 1, f.inside)
    requires at + 1 + Size(f.inside) < |tags| && tags[at + 1 + Size(f.inside)] == Tag(f.name, Close, NO_MARKS)
    requires LiesAt(tags, at + 2 + Size(f.inside), f.rest)
    ensures LiesAt(tags, at, f) && at + Size(f) == at + 2 + Size(f.inside) + Size(f.rest)
  {
  }

  lemma {:induction false} FlattenLies(tags: seq<Tag>, at: nat, f: Forest, after: seq<Tag>)
    requires EndsIn(tags, at, Flatten(f, after))
    ensures LiesAt(tags, at, f) && EndsIn(tags, at + Size(f), after)
    decreases f
  {
    match f {
      case Nothing =>
      case Lone(name, marks, rest) =>
        TagAt(tags, at, Tag(name, Void, marks), Flatten(rest, after));
        FlattenLies(tags, at + 1, rest, after);
      case Element(name, marks, inside, rest) =>
        var close, behind := Tag(name, Close, NO_MARKS), Flatten(rest, after);
        TagAt(tags, at, Tag(name, Open, marks), Flatten(inside, [close] + behind));
        FlattenLies(tags, at + 1, inside, [close] + behind);
        TagAt(tags, at + 1 + Size(inside), close, behind);
        FlattenLies(tags, at + 2 + Size(inside), rest, after);
        PartsLie(tags, at, f);
    }
  }

  /** Whole elements leave the depth of every name as it was, and never take it below that. */
  lemma {:induction false} ForestIsBalanced(tags: seq<Tag>, name: Word, from: nat, at: nat, f: Forest)
    requires from <= at && LiesAt(tags, at, f)
    ensures Depth(tags, name, from, at + Size(f)) == Depth(tags, name, from, at)
    ensures forall k :: at <= k <= at + Size(f) ==> Depth(tags, name, from, k) >= Depth(tags, name, from, at)
    decreases f
  {
    match f {
      case Nothing =>
      case Lone(_, _, rest) => ForestIsBalanced(tags, name, from, at + 1, rest);
      case Element(_, _, inside, rest) =>
        ForestIsBalanced(tags, name, from, at + 1, inside);
        ForestIsBalanced(tags, name, from, at + 2 + Size(inside), rest);
    }
  }

  /** THE EXTENT: on a list that is a tree laid flat, an element ends just past its own closing tag. */
  lemma ElementEndsAtItsOwnClose(tags: seq<Tag>, at: nat, f: Forest, limit: nat)
    requires f.Element? && LiesAt(tags, at, f) && at + 2 + Size(f.inside) <= limit <= |tags|
    ensures ElementEnd(tags, at, limit) == at + 2 + Size(f.inside)
  {
    EndIsFirst(tags, at, at, limit);
    var end := at + 2 + Size(f.inside);
    ForestIsBalanced(tags, f.name, at, at + 1, f.inside);
    assert Depth(tags, f.name, at, at + 1) == 1;
    assert Closes(tags, at, end);
    assert forall e :: at < e < end ==> !Closes(tags, at, e);
  }

  /** What an item's element states itself: everything inside it, but nothing inside an item nested in it. */
  function Walk(f: Forest, p: Properties): Properties
    decreases f
  {
    match f
    case Nothing => p
    case Lone(_, marks, rest) => Walk(rest, WithTag(p, marks))
    case Element(_, marks, inside, rest) =>
      Walk(rest, if marks.scope then WithTag(p, marks) else Walk(inside, WithTag(p, marks)))
  }

  /** What the first element of `f` contributes: if it is an offer, the candidate of what it states itself. */
  function OwnOffer(f: Forest): Option<Candidate> {
    match f
    case Nothing => None
    case Lone(_, marks, _) => if marks.offer then Some(CandidateOf(NO_PROPERTIES)) else None
    case Element(_, marks, inside, _) => if marks.offer then Some(CandidateOf(Walk(inside, NO_PROPERTIES))) else None
  }

  /** What each element contributes, in document order. */
  function InDocumentOrder(f: Forest, own: Forest -> Option<Candidate>, found: Found): Found
    decreases f
  {
    match f
    case Nothing => found
    case Lone(_, _, rest) => InDocumentOrder(rest, own, found.With(own(f)))
    case Element(_, _, inside, rest) => InDocumentOrder(rest, own, InDocumentOrder(inside, own, found.With(own(f))))
  }

  /** The scan of a list collects what the walk of the tree does. */
  lemma {:induction false} ScanIsTreeWalk(tags: seq<Tag>, at: nat, f: Forest, stop: nat, p: Properties)
    requires LiesAt(tags, at, f) && at + Size(f) <= stop <= |tags|
    ensures Scan(tags, at, stop, p) == Scan(tags, at + Size(f), stop, Walk(f, p))
    decreases f
  {
    match f {
      case Nothing =>
      case Lone(_, marks, rest) => ScanIsTreeWalk(tags, at + 1, rest, stop, WithTag(p, marks));
      case Element(_, marks, inside, rest) =>
        var own := WithTag(p, marks);
        if marks.scope {
          ElementEndsAtItsOwnClose(tags, at, f, stop);
          ScanIsTreeWalk(tags, at + 2 + Size(inside), rest, stop, own);
        } else {
          ScanIsTreeWalk(tags, at + 1, inside, stop, own);
          ScanIsTreeWalk(tags, at + 2 + Size(inside), rest, stop, Walk(inside, own));
        }
    }
  }

  lemma ScanOfElement(tags: seq<Tag>, at: nat, f: Forest, p: Properties)
    requires f.Element? && LiesAt(tags, at, f)
    ensures Scan(tags, at + 1, at + 2 + Size(f.inside), p) == Walk(f.inside, p)
  {
    ScanIsTreeWalk(tags, at + 1, f.inside, at + 2 + Size(f.inside), p);
  }

  lemma OfferIsItsElement(tags: seq<Tag>, at: nat, f: Forest)
    requires f.Element? && LiesAt(tags, at, f)
    ensures OfferAt(tags, at) == CandidateOf(Walk(f.inside, NO_PROPERTIES))
  {
    ElementEndsAtItsOwnClose(tags, at, f, |tags|);
    ScanOfElement(tags, at, f, NO_PROPERTIES);
  }

  /** Every element of `f`, standing at `at`, is read as `own` says, and no closing tag is read. */
  ghost predicate ReadsTree(items: seq<Option<Candidate>>, own: Forest -> Option<Candidate>, at: nat, f: Forest)
    requires at + Size(f) <= |items|
    decreases f
  {
    match f
    case Nothing => true
    case Lone(_, _, rest) => items[at] == own(f) && ReadsTree(items, own, at + 1, rest)
    case Element(_, _, inside, rest) =>
      && items[at] == own(f) && ReadsTree(items, own, at + 1, inside)
      && items[at + 1 + Size(inside)] == None && ReadsTree(items, own, at + 2 + Size(inside), rest)
  }

  lemma ItemIsItsElement(tags: seq<Tag>, at: nat, f: Forest)
    requires !f.Nothing? && LiesAt(tags, at, f)
    ensures at < |tags| && Items(tags)[at] == OwnOffer(f)
  {
    if f.Element? {
      OfferIsItsElement(tags, at, f);
    }
  }

  lemma {:induction false} PartsOfElement(tags: seq<Tag>, at: nat, f: Forest)
    requires f.Element? && LiesAt(tags, at, f)
    ensures LiesAt(tags, at + 1, f.inside) && LiesAt(tags, at + 2 + Size(f.inside), f.rest)
    ensures at + 1 + Size(f.inside) < |tags| && Items(tags)[at + 1 + Size(f.inside)] == None
    ensures at + Size(f) == at + 2 + Size(f.inside) + Size(f.rest) <= |tags|
  {
  }

  lemma {:induction false} ItemsReadTree(tags: seq<Tag>, items: seq<Option<Candidate>>, own: Forest -> Option<Candidate>, at: nat, f: Forest)
    requires LiesAt(tags, at, f) && items == Items(tags) && own == OwnOffer
    ensures at + Size(f) <= |items| && ReadsTree(items, own, at, f)
    decreases f
  {
    match f {
      case Nothing =>
      case Lone(_, _, rest) =>
        ItemIsItsElement(tags, at, f);
        ItemsReadTree(tags, items, own, at + 1, rest);
      case Element(_, _, inside, rest) =>
        ItemIsItsElement(tags, at, f);
        PartsOfElement(tags, at, f);
        ItemsReadTree(tags, items, own, at + 1, inside);
        ItemsReadTree(tags, items, own, at + 2 + Size(inside), rest);
    }
  }

  lemma {:induction false} GatheredAreTheTrees(items: seq<Option<Candidate>>, own: Forest -> Option<Candidate>, at: nat, f: Forest)
    requires at + Size(f) <= |items| && ReadsTree(items, own, at, f)
    ensures Gathered(items, at + Size(f)) == InDocumentOrder(f, own, Gathered(items, at))
    decreases f
  {
    match f {
      case Nothing =>
      case Lone(_, _, rest) =>
        GatheredAreTheTrees(items, own, at + 1, rest);
      case Element(_, _, inside, rest) =>
        GatheredAreTheTrees(items, own, at + 1, inside);
        GatheredAreTheTrees(items, own, at + 2 + Size(inside), rest);
    }
  }

  lemma PageLies(tags: seq<Tag>, f: Forest)
    requires tags == Flatten(f, [])
    ensures LiesAt(tags, 0, f) && Size(f) == |tags|
  {
    FlattenLies(tags, 0, f, []);
  }

  lemma {:induction false} FoundAsItsTree(tags: seq<Tag>, f: Forest)
    requires tags == Flatten(f, [])
    ensures Gathered(Items(tags), |tags|) == InDocumentOrder(f, OwnOffer, NoOffers)
  {
    PageLies(tags, f);
    ItemsReadTree(tags, Items(tags), OwnOffer, 0, f);
    GatheredAreTheTrees(Items(tags), OwnOffer, 0, f);
  }

  // ---------------------------------------------------------------------------
  // What a walk collects.
  // ---------------------------------------------------------------------------

  predicate States(m: Marks, name: Property, value: Word) { name in m.names && m.value == Some(value) }

  /** Some tag of the item's own states `value` under `name`. */
  predicate OwnStates(f: Forest, name: Property, value: Word) {
    match f
    case Nothing => false
    case Lone(_, marks, rest) => States(marks, name, value) || OwnStates(rest, name, value)
    case Element(_, marks, inside, rest) =>
      States(marks, name, value) || (!marks.scope && OwnStates(inside, name, value)) || OwnStates(rest, name, value)
  }

  ghost predicate NoneTwice(values: seq<Word>) { forall i, j :: 0 <= i < j < |values| ==> values[i] != values[j] }

  ghost predicate Distinct(p: Properties) { forall name :: NoneTwice(p.Under(name)) }

  lemma ValueStaysDistinct(p: Properties, name: Property, value: Word)
    requires Distinct(p)
    ensures Distinct(WithValue(p, name, value))
  {
    var q := WithValue(p, name, value);
    forall n ensures NoneTwice(q.Under(n)) {
      assert NoneTwice(p.Under(n));
    }
  }

  lemma ValueCollects(p: Properties, stated: Property, v: Word, name: Property, value: Word)
    ensures value in WithValue(p, stated, v).Under(name) <==> value in p.Under(name) || (name == stated && value == v)
  {
  }

  lemma {:induction false} NamesStayDistinct(p: Properties, names: seq<Property>, n: nat, v: Word)
    requires n <= |names| && Distinct(p)
    ensures Distinct(WithNames(p, names, n, v))
  {
    if n > 0 {
      NamesStayDistinct(p, names, n - 1, v);
      ValueStaysDistinct(WithNames(p, names, n - 1, v), names[n - 1], v);
    }
  }

  predicate NamedAmong(names: seq<Property>, n: nat, name: Property)
    requires n <= |names|
  {
    exists i :: 0 <= i < n && names[i] == name
  }

  lemma {:induction false} NamesCollect(p: Properties, names: seq<Property>, n: nat, v: Word, name: Property, value: Word)
    requires n <= |names|
    ensures value in WithNames(p, names, n, v).Under(name) <==> value in p.Under(name) || (value == v && NamedAmong(names, n, name))
  {
    if n > 0 {
      NamesCollect(p, names, n - 1, v, name, value);
      ValueCollects(WithNames(p, names, n - 1, v), names[n - 1], v, name, value);
      assert NamedAmong(names, n, name) <==> NamedAmong(names, n - 1, name) || names[n - 1] == name;
    }
  }

  /**
   EXACTLY ITS OWN: an offer's candidate holds a value under a name if and only if the offer states
   it itself, and holds it once.
   */
  lemma {:induction false} WalkCollectsItsOwn(f: Forest, p: Properties, name: Property, value: Word)
    requires Distinct(p)
    ensures Distinct(Walk(f, p))
    ensures value in Walk(f, p).Under(name) <==> value in p.Under(name) || OwnStates(f, name, value)
    decreases f
  {
    match f {
      case Nothing =>
      case Lone(_, marks, rest) =>
        TagCollects(p, marks, name, value);
        WalkCollectsItsOwn(rest, WithTag(p, marks), name, value);
      case Element(_, marks, inside, rest) =>
        TagCollects(p, marks, name, value);
        var own := WithTag(p, marks);
        WalkCollectsItsOwn(inside, own, name, value);
        WalkCollectsItsOwn(rest, if marks.scope then own else Walk(inside, own), name, value);
    }
  }

  lemma TagCollects(p: Properties, m: Marks, name: Property, value: Word)
    requires Distinct(p)
    ensures Distinct(WithTag(p, m))
    ensures value in WithTag(p, m).Under(name) <==> value in p.Under(name) || States(m, name, value)
  {
    if m.value.Some? {
      NamesStayDistinct(p, m.names, |m.names|, m.value.value);
      NamesCollect(p, m.names, |m.names|, m.value.value, name, value);
    }
  }

  // ---------------------------------------------------------------------------
  // What a candidate says, by what the offer states, in document order.
  // ---------------------------------------------------------------------------

  /** The values the item states itself under a name, in document order and with every repetition. */
  function Statements(f: Forest, name: Property): seq<Word>
    decreases f
  {
    match f
    case Nothing => []
    case Lone(_, marks, rest) => StatedBy(marks, name) + Statements(rest, name)
    case Element(_, marks, inside, rest) =>
      StatedBy(marks, name) + ((if marks.scope then [] else Statements(inside, name)) + Statements(rest, name))
  }

  function StatedBy(m: Marks, name: Property): seq<Word> {
    if name in m.names && m.value.Some? then [m.value.value] else []
  }

  /** `a` is stated somewhere with no `b` stated before it. */
  ghost predicate ComesBefore(stated: seq<Word>, a: Word, b: Word) {
    exists k :: 0 <= k < |stated| && stated[k] == a && b !in stated[..k + 1]
  }

  /** Each of the values stated, once, by their first appearance. */
  ghost predicate AreFirsts(values: seq<Word>, stated: seq<Word>) {
    && (forall v :: v in values <==> v in stated)
    && forall i, j :: 0 <= i < j < |values| ==> ComesBefore(stated, values[i], values[j])
  }

  /** Neither or both ends are stated, or only one: a range is a price only if both are and agree. */
  ghost predicate OnePrice(low: seq<Word>, high: seq<Word>, v: Word) {
    low != [] && high != [] && low[0] == v && high[0] == v
  }

  /** What a candidate of an item says, in terms of nothing but what the item states. */
  ghost predicate Says(f: Forest, c: Candidate) {
    var price, low, high := Statements(f, Price), Statements(f, LowPrice), Statements(f, HighPrice);
    var code, available := Statements(f, PriceCurrency), Statements(f, Availability);
    && (if price != [] then AreFirsts(c.prices, price)
        else if low != [] && high != [] && low[0] == high[0] then c.prices == [low[0]]
        else c.prices == [])
    && (c.priceIsRange <==> price == [] && low + high != [] && !(low != [] && high != [] && low[0] == high[0]))
    && c.availability == (if available == [] then Word([]) else available[0])
    && exists codes: seq<Word> ::
         && AreFirsts(codes, code) && |c.currencies| == |codes|
         && forall i :: 0 <= i < |codes| ==> c.currencies[i].text == Upper(Trim(codes[i].text))
  }

  lemma {:induction false} OwnStatesIsStated(f: Forest, name: Property, value: Word)
    ensures OwnStates(f, name, value) <==> value in Statements(f, name)
    decreases f
  {
    match f {
      case Nothing =>
      case Lone(_, _, rest) => OwnStatesIsStated(rest, name, value);
      case Element(_, _, inside, rest) =>
        OwnStatesIsStated(inside, name, value);
        OwnStatesIsStated(rest, name, value);
    }
  }

  function Added(values: seq<Word>, v: Word): seq<Word> { if v in values then values else values + [v] }

  function AddedAll(values: seq<Word>, more: seq<Word>): seq<Word>
    decreases |more|
  {
    if more == [] then values else AddedAll(Added(values, more[0]), more[1..])
  }

  lemma {:induction false} AddedAllJoins(values: seq<Word>, a: seq<Word>, b: seq<Word>)
    ensures AddedAll(values, a + b) == AddedAll(AddedAll(values, a), b)
    decreases |a|
  {
    if a == [] {
      assert a + b == b;
    } else {
      assert (a + b)[1..] == a[1..] + b;
      AddedAllJoins(Added(values, a[0]), a[1..], b);
    }
  }

  lemma {:induction false} NamesAdd(p: Properties, names: seq<Property>, n: nat, v: Word, name: Property)
    requires n <= |names|
    ensures WithNames(p, names, n, v).Under(name) == if NamedAmong(names, n, name) then Added(p.Under(name), v) else p.Under(name)
  {
    if n > 0 {
      NamesAdd(p, names, n - 1, v, name);
      assert NamedAmong(names, n, name) <==> NamedAmong(names, n - 1, name) || names[n - 1] == name;
    }
  }

  lemma {:induction false} TagAdds(p: Properties, m: Marks, name: Property)
    ensures WithTag(p, m).Under(name) == AddedAll(p.Under(name), StatedBy(m, name))
  {
    if m.value.Some? {
      NamesAdd(p, m.names, |m.names|, m.value.value, name);
      assert AddedAll(p.Under(name), [m.value.value]) == AddedAll(Added(p.Under(name), m.value.value), []);
    }
  }

  lemma {:induction false} WalkAdds(f: Forest, p: Properties, name: Property)
    ensures Walk(f, p).Under(name) == AddedAll(p.Under(name), Statements(f, name))
    decreases f
  {
    match f {
      case Nothing =>
      case Lone(_, marks, rest) =>
        TagAdds(p, marks, name);
        WalkAdds(rest, WithTag(p, marks), name);
        AddedAllJoins(p.Under(name), StatedBy(marks, name), Statements(rest, name));
      case Element(_, marks, inside, rest) =>
        var own := WithTag(p, marks);
        var nested := if marks.scope then [] else Statements(inside, name);
        TagAdds(p, marks, name);
        WalkAdds(inside, own, name);
        WalkAdds(rest, if marks.scope then own else Walk(inside, own), name);
        AddedAllJoins(p.Under(name), StatedBy(marks, name), nested + Statements(rest, name));
        AddedAllJoins(own.Under(name), nested, Statements(rest, name));
    }
  }

  lemma {:induction false} AddedAreFirsts(stated: seq<Word>)
    ensures AreFirsts(AddedAll([], stated), stated)
    ensures stated != [] ==> AddedAll([], stated) != [] && AddedAll([], stated)[0] == stated[0]
    decreases |stated|
  {
    if stated != [] {
      var init, v := stated[..|stated| - 1], stated[|stated| - 1];
      var values := AddedAll([], init);
      AddedAreFirsts(init);
      assert stated == init + [v];
      AddedAllJoins([], init, [v]);
      assert AddedAll(values, [v]) == AddedAll(Added(values, v), []);
      FirstsGrow(values, init, v);
    }
  }

  lemma {:induction false} FirstsGrow(values: seq<Word>, stated: seq<Word>, v: Word)
    requires AreFirsts(values, stated)
    ensures AreFirsts(Added(values, v), stated + [v])
  {
    var more, longer := Added(values, v), stated + [v];
    forall i, j | 0 <= i < j < |more| ensures ComesBefore(longer, more[i], more[j]) {
      if j < |values| {
        assert ComesBefore(stated, values[i], values[j]);
        var k :| 0 <= k < |stated| && stated[k] == values[i] && values[j] !in stated[..k + 1];
        assert longer[k] == more[i] && longer[..k + 1] == stated[..k + 1];
      } else {
        assert values[i] in stated;
        var k :| 0 <= k < |stated| && stated[k] == values[i];
        assert longer[k] == more[i] && longer[..k + 1] == stated[..k + 1];
        assert v !in stated;
      }
    }
  }

  lemma {:induction false} UnderAreFirsts(f: Forest, name: Property)
    ensures var values := Walk(f, NO_PROPERTIES).Under(name);
            && AreFirsts(values, Statements(f, name))
            && (Statements(f, name) == [] <==> values == [])
            && (values != [] ==> values[0] == Statements(f, name)[0])
  {
    WalkAdds(f, NO_PROPERTIES, name);
    AddedAreFirsts(Statements(f, name));
  }

  /** CANDIDATES: each part of a candidate is what the offer's own statements make it, first ones first. */
  lemma {:induction false} CandidateSays(f: Forest, p: Properties)
    requires p == Walk(f, NO_PROPERTIES)
    ensures Says(f, CandidateOf(p))
  {
    UnderAreFirsts(f, Price);
    UnderAreFirsts(f, LowPrice);
    UnderAreFirsts(f, HighPrice);
    UnderAreFirsts(f, PriceCurrency);
    UnderAreFirsts(f, Availability);
    NormalisedInPlace(p.Under(PriceCurrency), |p.Under(PriceCurrency)|);
  }

  /** What stands inside each offer element, in document order; inside a void one there is nothing. */
  function OffersIn(f: Forest): seq<Forest>
    decreases f
  {
    match f
    case Nothing => []
    case Lone(_, marks, rest) => (if marks.offer then [Nothing] else []) + OffersIn(rest)
    case Element(_, marks, inside, rest) => (if marks.offer then [inside] else []) + (OffersIn(inside) + OffersIn(rest))
  }

  /** One candidate for each, in the same order, that says what is stated there. */
  ghost predicate SayAll(offers: seq<Forest>, found: seq<Candidate>) {
    |found| == |offers| && forall i :: 0 <= i < |offers| ==> Says(offers[i], found[i])
  }

  lemma OneMoreSays(offers: seq<Forest>, found: Found, inside: Forest, c: Candidate)
    requires SayAll(offers, found.InOrder()) && Says(inside, c)
    ensures SayAll(offers + [inside], found.With(Some(c)).InOrder())
  {
  }

  lemma {:induction false} OwnSays(offers: seq<Forest>, f: Forest, found: Found)
    requires !f.Nothing? && SayAll(offers, found.InOrder())
    ensures SayAll(offers + (if f.marks.offer then [if f.Lone? then Nothing else f.inside] else []), found.With(OwnOffer(f)).InOrder())
  {
    if f.marks.offer {
      var inside := if f.Lone? then Nothing else f.inside;
      CandidateSays(inside, Walk(inside, NO_PROPERTIES));
      OneMoreSays(offers, found, inside, OwnOffer(f).value);
    } else {
      assert offers + [] == offers;
    }
  }

  lemma JoinForests(a: seq<Forest>, b: seq<Forest>, c: seq<Forest>)
    ensures (a + b) + c == a + (b + c)
  {
  }

  lemma {:induction false} TreeSaysAll(f: Forest, offers: seq<Forest>, found: Found)
    requires SayAll(offers, found.InOrder())
    ensures SayAll(offers + OffersIn(f), InDocumentOrder(f, OwnOffer, found).InOrder())
    decreases f
  {
    match f {
      case Nothing =>
        assert offers + [] == offers;
      case Lone(_, marks, rest) =>
        var own := if marks.offer then [Nothing] else [];
        OwnSays(offers, f, found);
        TreeSaysAll(rest, offers + own, found.With(OwnOffer(f)));
        JoinForests(offers, own, OffersIn(rest));
      case Element(_, marks, inside, rest) =>
        var own := if marks.offer then [inside] else [];
        var first := found.With(OwnOffer(f));
        OwnSays(offers, f, found);
        TreeSaysAll(inside, offers + own, first);
        TreeSaysAll(rest, (offers + own) + OffersIn(inside), InDocumentOrder(inside, OwnOffer, first));
        JoinForests(offers + own, OffersIn(inside), OffersIn(rest));
        JoinForests(offers, own, OffersIn(inside) + OffersIn(rest));
    }
  }

  /**
   SCOPING: on a page that is an element tree there is one candidate for each offer element,
   in document order, and it says exactly what that element states itself.
   */
  lemma {:induction false} PageReadsAsItsTree(tags: seq<Tag>, f: Forest)
    requires tags == Flatten(f, [])
    ensures SayAll(OffersIn(f), Gathered(Items(tags), |tags|).InOrder())
  {
    FoundAsItsTree(tags, f);
    TreeSaysAll(f, [], NoOffers);
    assert [] + OffersIn(f) == OffersIn(f);
  }

  lemma {:induction false} ElementSays(tags: seq<Tag>, from: nat, stop: nat, f: Forest, p: Properties)
    requires LiesAt(tags, from, f) && from + Size(f) == stop <= |tags| && p == Scan(tags, from, stop, NO_PROPERTIES)
    ensures Says(f, CandidateOf(p))
  {
    ScanIsTreeWalk(tags, from, f, stop, NO_PROPERTIES);
    CandidateSays(f, p);
  }

  // ---------------------------------------------------------------------------
  // Currencies: values are compared before they are trimmed and upper-cased.
  // ---------------------------------------------------------------------------

  lemma {:induction false} NormalisedInPlace(codes: seq<Word>, n: nat)
    requires n <= |codes|
    ensures |NormaliseCodes(codes, n)| == n
    ensures forall i :: 0 <= i < n ==> NormaliseCodes(codes, n)[i] == NormaliseCode(codes[i])
  {
    if n > 0 {
      NormalisedInPlace(codes, n - 1);
    }
  }

  /** No two of the values normalise to one code. */
  ghost predicate NoTwoAlike(codes: seq<Word>) {
    forall i, j :: 0 <= i < j < |codes| ==> NormaliseCode(codes[i]) != NormaliseCode(codes[j])
  }

  /** A candidate's currencies are distinct if and only if no two spellings of one code were stated. */
  lemma CurrenciesAreDistinctIff(p: Properties)
    ensures NoneTwice(CandidateOf(p).currencies) <==> NoTwoAlike(p.Under(PriceCurrency))
  {
    NormalisedInPlace(p.Under(PriceCurrency), |p.Under(PriceCurrency)|);
  }

  /** The offer states two different currency values. */
  ghost predicate StatesTwo(f: Forest) {
    exists a, b :: a != b && OwnStates(f, PriceCurrency, a) && OwnStates(f, PriceCurrency, b)
  }

  /** Every currency value the offer states is a spelling of one code. */
  ghost predicate StatesOneCode(f: Forest) {
    forall a, b :: OwnStates(f, PriceCurrency, a) && OwnStates(f, PriceCurrency, b) ==> NormaliseCode(a) == NormaliseCode(b)
  }

  lemma TwoOf(codes: seq<Word>)
    requires NoneTwice(codes)
    ensures |codes| > 1 <==> exists a, b :: a != b && a in codes && b in codes
  {
    if |codes| > 1 {
      assert codes[0] in codes && codes[1] in codes && codes[0] != codes[1];
    }
  }

  lemma AllOneCode(codes: seq<Word>)
    ensures var read := NormaliseCodes(codes, |codes|);
            (forall x, y :: x in read && y in read ==> x == y) <==>
            (forall a, b :: a in codes && b in codes ==> NormaliseCode(a) == NormaliseCode(b))
  {
    var read := NormaliseCodes(codes, |codes|);
    NormalisedInPlace(codes, |codes|);
    forall a, b | (forall x, y :: x in read && y in read ==> x == y) && a in codes && b in codes
      ensures NormaliseCode(a) == NormaliseCode(b)
    {
      var i :| 0 <= i < |codes| && codes[i] == a;
      var j :| 0 <= j < |codes| && codes[j] == b;
      assert read[i] in read && read[j] in read;
    }
  }

  lemma {:induction false} CodesAreStated(f: Forest, codes: seq<Word>)
    requires codes == Walk(f, NO_PROPERTIES).Under(PriceCurrency)
    ensures NoneTwice(codes) && forall v :: v in codes <==> OwnStates(f, PriceCurrency, v)
  {
    forall v ensures v in codes <==> OwnStates(f, PriceCurrency, v) {
      WalkCollectsItsOwn(f, NO_PROPERTIES, PriceCurrency, v);
    }
    WalkCollectsItsOwn(f, NO_PROPERTIES, PriceCurrency, Word([]));
  }

  /**
   An offer has more than one currency, which makes it ambiguous, if and only if it
   states two different values; and these are all one code, so that it is ambiguous
   over nothing, if and only if it states one code in two spellings.
   */
  lemma {:induction false} SeveralCurrenciesIff(f: Forest)
    ensures var read := CandidateOf(Walk(f, NO_PROPERTIES)).currencies;
            && (|read| > 1 <==> StatesTwo(f))
            && ((forall x, y :: x in read && y in read ==> x == y) <==> StatesOneCode(f))
  {
    var codes := Walk(f, NO_PROPERTIES).Under(PriceCurrency);
    CodesAreStated(f, codes);
    TwoOf(codes);
    AllOneCode(codes);
    NormalisedInPlace(codes, |codes|);
  }

  /** A page with one offer that spells its currency in both cases. */
  const SPELT_TWICE := Element(Word("div"), Marks(true, true, [], None),
                               Lone(Word("meta"), Marks(false, false, [PriceCurrency], Some(Word("usd"))),
                                    Lone(Word("span"), Marks(false, false, [PriceCurrency], Some(Word("USD"))), Nothing)), Nothing)

  /** It reads as one offer, of one code, with two currencies. */
  lemma {:induction false} OneCodeSpeltTwice()
    ensures Gathered(Items(Flatten(SPELT_TWICE, [])), |Flatten(SPELT_TWICE, [])|) == NoOffers.With(OwnOffer(SPELT_TWICE))
    ensures OwnOffer(SPELT_TWICE) == Some(CandidateOf(Walk(SPELT_TWICE.inside, NO_PROPERTIES)))
    ensures |OwnOffer(SPELT_TWICE).value.currencies| > 1
    ensures forall x, y :: x in OwnOffer(SPELT_TWICE).value.currencies && y in OwnOffer(SPELT_TWICE).value.currencies ==> x == y
  {
    FoundAsItsTree(Flatten(SPELT_TWICE, []), SPELT_TWICE);
    InDocumentOrderOfOne(SPELT_TWICE);
    var f := SPELT_TWICE.inside;
    SeveralCurrenciesIff(f);
    BothSpellings(f);
  }

  lemma {:induction false} BothSpellings(f: Forest)
    requires f == SPELT_TWICE.inside
    ensures StatesTwo(f) && StatesOneCode(f)
  {
    UpperOfUsd();
    assert OwnStates(f.rest, PriceCurrency, Word("USD")) && OwnStates(f, PriceCurrency, Word("usd"));
    assert OwnStates(f, PriceCurrency, Word("USD")) && Word("usd") != Word("USD");
    forall a | OwnStates(f, PriceCurrency, a) ensures a == Word("usd") || a == Word("USD") {
      assert States(f.marks, PriceCurrency, a) || OwnStates(f.rest, PriceCurrency, a);
      assert OwnStates(f.rest, PriceCurrency, a) ==> States(f.rest.marks, PriceCurrency, a) || OwnStates(Nothing, PriceCurrency, a);
    }
  }

  lemma {:induction false} InDocumentOrderOfOne(page: Forest)
    requires page.Element? && page.rest.Nothing? && page.inside.Lone? && page.inside.rest.Lone? && page.inside.rest.rest.Nothing?
    requires !page.inside.marks.offer && !page.inside.rest.marks.offer
    ensures InDocumentOrder(page, OwnOffer, NoOffers) == NoOffers.With(OwnOffer(page))
  {
    var found := NoOffers.With(OwnOffer(page));
    assert InDocumentOrder(page.inside.rest, OwnOffer, found) == found;
    assert InDocumentOrder(page.inside, OwnOffer, found) == found;
  }

  lemma UpperOfUsd()
    ensures NormaliseCode(Word("usd")) == Word("USD") && NormaliseCode(Word("USD")) == Word("USD")
  {
    assert Trim("usd") == "usd" && Trim("USD") == "USD";
    assert Upper("usd") == "USD" && Upper("USD") == "USD";
  }
}
