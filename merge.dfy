/**
  The merge of remote quotes into a collection, as a function of the
  collection it starts from and the API elements: element `i` goes to
  category `Route(cats, i)` and is appended there unless a quote with the same
  text is already present. The lemmas state routing, placement, dedup and
  idempotence.
 */
module QuoteMerge {
  import opened Wrappers
  import opened Quotes

  /**
    The elements `forEach` gets through: the API list up to its first
    `null`/`undefined` element, where reading `quote.q` throws a TypeError.
   */
  function LeadingObjects(items: seq<Option<RawQuote>>): (r: seq<RawQuote>)
    ensures |r| <= |items|
    ensures forall i :: 0 <= i < |r| ==> items[i] == Some(r[i])
    ensures |r| < |items| ==> items[|r|].None?
  {
    if items == [] || items[0].None? then [] else [items[0].value] + LeadingObjects(items[1..])
  }

  /** `processApiQuotes`' argument: absent when it is not an array. */
  function Processed(apiQuotes: Option<seq<Option<RawQuote>>>): seq<RawQuote>
  {
    if apiQuotes.Some? then LeadingObjects(apiQuotes.value) else []
  }

  /** One step of the merge: append `q` to category `c` unless its text is there. */
  function Add(m: Collection, c: string, q: Quote): (r: Collection)
    ensures r.Keys == m.Keys + {c}
    ensures forall d :: d in m && d != c ==> r[d] == m[d]
    ensures Get(m, c) <= Get(r, c) && HasText(Get(r, c), q.text)
    ensures HasText(Get(m, c), q.text) ==> r == m
    ensures !HasText(Get(m, c), q.text) ==> r[c] == Get(m, c) + [q]
  {
    var current := Get(m, c);
    if HasText(current, q.text) then m
    else
      var s := current + [q];
      assert s[|current|].text == q.text;
      m[c := s]
  }

  /**
    `if (!quotes[c]) quotes[c] = []`: the category is present afterwards,
    with its old quotes, or empty when it was missing.
   */
  function Ensure(m: Collection, c: string): (r: Collection)
    ensures r.Keys == m.Keys + {c}
    ensures forall d :: d in m ==> r[d] == m[d]
    ensures Get(r, c) == Get(m, c)
  {
    if c in m then m else m[c := []]
  }

  /** Creating the empty list first does not change what an `Add` yields. */
  lemma AddAfterEnsure(m: Collection, c: string, q: Quote)
    ensures Add(Ensure(m, c), c, q) == Add(m, c, q)
  {
    if c !in m && !HasText([], q.text) {
      assert m[c := []][c := [q]] == m[c := [q]];
    }
  }

  /** The category element `i` is routed to: `categories[i % categories.length]`. */
  function Route(cats: seq<string>, i: nat): (r: string)
    requires cats != []
    ensures r in cats
    ensures i < |cats| ==> r == cats[i]
  {
    cats[i % |cats|]
  }

  /**
    The collection after the elements of `raws` have been merged into
    `start`, in order, routed round-robin over the category list `cats`.
   */
  function Merge(cats: seq<string>, start: Collection, raws: seq<RawQuote>): Collection
    requires cats != []
    decreases |raws|
  {
    if raws == [] then start
    else
      var n := |raws| - 1;
      Add(Merge(cats, start, raws[..n]), Route(cats, n), Normalise(raws[n]))
  }

  lemma HasTextGrows(s: seq<Quote>, t: seq<Quote>, text: string)
    requires s <= t && HasText(s, text)
    ensures HasText(t, text)
  {
    var k :| 0 <= k < |s| && s[k].text == text;
    assert t[k] == s[k];
  }

  lemma AddKeepsDistinct(m: Collection, c: string, q: Quote, d: string)
    requires DistinctTexts(Get(m, d))
    ensures DistinctTexts(Get(Add(m, c, q), d))
  {
    var s := Get(m, d);
    if d == c && !HasText(s, q.text) {
      var t := s + [q];
      forall j, k | 0 <= j < k < |t| ensures t[j].text != t[k].text {
        if k == |s| {
          assert s[j].text != q.text;
        }
      }
    }
  }

  /** Adding to one category never shortens or reorders any category. */
  lemma AddGrows(m: Collection, c: string, q: Quote, d: string)
    ensures Get(m, d) <= Get(Add(m, c, q), d)
  {
  }

  /** Placement: a category only grows at its end, so its old quotes keep their positions. */
  lemma {:induction false} MergeGrows(cats: seq<string>, start: Collection, raws: seq<RawQuote>, c: string)
    requires cats != []
    ensures Get(start, c) <= Get(Merge(cats, start, raws), c)
  {
    if raws != [] {
      var n := |raws| - 1;
      MergeGrows(cats, start, raws[..n], c);
      AddGrows(Merge(cats, start, raws[..n]), Route(cats, n), Normalise(raws[n]), c);
    }
  }

  /**
    Routing: every quote appended to category `c` is the normalised form of
    an element routed to `c`.
   */
  lemma {:induction false} MergeOrigin(cats: seq<string>, start: Collection, raws: seq<RawQuote>, c: string, p: nat)
    requires cats != []
    requires |Get(start, c)| <= p < |Get(Merge(cats, start, raws), c)|
    ensures exists i :: 0 <= i < |raws| && Route(cats, i) == c && Get(Merge(cats, start, raws), c)[p] == Normalise(raws[i])
  {
    var n := |raws| - 1;
    var prefix := raws[..n];
    var before := Get(Merge(cats, start, prefix), c);
    AddGrows(Merge(cats, start, prefix), Route(cats, n), Normalise(raws[n]), c);
    if p < |before| {
      MergeOrigin(cats, start, prefix, c, p);
      var i :| 0 <= i < |prefix| && Route(cats, i) == c && before[p] == Normalise(prefix[i]);
      assert prefix[i] == raws[i];
    } else {
      assert Get(Merge(cats, start, raws), c)[p] == Normalise(raws[n]);
    }
  }

  /** A category that no element is routed to does not change. */
  lemma {:induction false} MergeUntouched(cats: seq<string>, start: Collection, raws: seq<RawQuote>, c: string)
    requires cats != []
    requires forall i :: 0 <= i < |raws| ==> Route(cats, i) != c
    ensures Get(Merge(cats, start, raws), c) == Get(start, c)
  {
    if raws != [] {
      var n := |raws| - 1;
      MergeUntouched(cats, start, raws[..n], c);
    }
  }

  /** An `Add` to one category leaves every other category as it was. */
  lemma AddOther(m: Collection, c: string, q: Quote, d: string)
    requires d != c
    ensures Get(Add(m, c, q), d) == Get(m, d)
  {
  }

  /** A text present in a category stays present after an `Add`. */
  lemma AddKeepsText(m: Collection, c: string, q: Quote, d: string, text: string)
    requires HasText(Get(m, d), text)
    ensures HasText(Get(Add(m, c, q), d), text)
  {
    AddGrows(m, c, q, d);
    HasTextGrows(Get(m, d), Get(Add(m, c, q), d), text);
  }

  /** The last element's text is in its category after the merge. */
  lemma MergeCompleteLast(cats: seq<string>, start: Collection, raws: seq<RawQuote>)
    requires cats != [] && raws != []
    ensures HasText(Get(Merge(cats, start, raws), Route(cats, |raws| - 1)), Normalise(raws[|raws| - 1]).text)
  {
  }

  /** Every element's text ends up in the category it is routed to (added now or already there). */
  lemma {:induction false} MergeComplete(cats: seq<string>, start: Collection, raws: seq<RawQuote>, i: nat)
    requires cats != []
    requires i < |raws|
    ensures HasText(Get(Merge(cats, start, raws), Route(cats, i)), Normalise(raws[i]).text)
  {
    var n := |raws| - 1;
    if i < n {
      var prefix := raws[..n];
      MergeComplete(cats, start, prefix, i);
      assert prefix[i] == raws[i];
      AddKeepsText(Merge(cats, start, prefix), Route(cats, n), Normalise(raws[n]), Route(cats, i), Normalise(raws[i]).text);
    } else {
      MergeCompleteLast(cats, start, raws);
    }
  }

  /** Dedup: a category whose texts were pairwise distinct stays so. */
  lemma {:induction false} MergeKeepsDistinct(cats: seq<string>, start: Collection, raws: seq<RawQuote>, c: string)
    requires cats != []
    requires DistinctTexts(Get(start, c))
    ensures DistinctTexts(Get(Merge(cats, start, raws), c))
  {
    if raws != [] {
      var n := |raws| - 1;
      MergeKeepsDistinct(cats, start, raws[..n], c);
      AddKeepsDistinct(Merge(cats, start, raws[..n]), Route(cats, n), Normalise(raws[n]), c);
    }
  }

  /** Merging elements whose texts are all present already changes nothing. */
  lemma {:induction false} MergeNothingNew(cats: seq<string>, m: Collection, raws: seq<RawQuote>)
    requires cats != []
    requires forall i :: 0 <= i < |raws| ==> HasText(Get(m, Route(cats, i)), Normalise(raws[i]).text)
    ensures Merge(cats, m, raws) == m
  {
    if raws != [] {
      var n := |raws| - 1;
      var prefix := raws[..n];
      forall i | 0 <= i < |prefix|
        ensures HasText(Get(m, Route(cats, i)), Normalise(prefix[i]).text)
      {
        assert prefix[i] == raws[i];
      }
      MergeNothingNew(cats, m, prefix);
    }
  }

  /** Re-running the merge on its own result with the same elements adds nothing. */
  lemma MergeIdempotent(cats: seq<string>, start: Collection, raws: seq<RawQuote>)
    requires cats != []
    ensures Merge(cats, Merge(cats, start, raws), raws) == Merge(cats, start, raws)
  {
    forall i | 0 <= i < |raws|
      ensures HasText(Get(Merge(cats, start, raws), Route(cats, i)), Normalise(raws[i]).text)
    {
      MergeComplete(cats, start, raws, i);
    }
    MergeNothingNew(cats, Merge(cats, start, raws), raws);
  }

  /** Merging one more element is one more `Add` at its routed category. */
  lemma MergeSnoc(cats: seq<string>, start: Collection, raws: seq<RawQuote>, x: RawQuote)
    requires cats != []
    ensures Merge(cats, start, raws + [x]) == Add(Merge(cats, start, raws), Route(cats, |raws|), Normalise(x))
  {
    assert (raws + [x])[..|raws|] == raws;
  }

  /** The merge of a one longer prefix is one more `Add`. */
  lemma MergeStep(cats: seq<string>, start: Collection, raws: seq<RawQuote>, i: nat)
    requires cats != [] && i < |raws|
    ensures Merge(cats, start, raws[..i + 1]) == Add(Merge(cats, start, raws[..i]), Route(cats, i), Normalise(raws[i]))
  {
    assert raws[..i + 1][..i] == raws[..i];
  }

  /** A single element goes to the first category. */
  lemma MergeFirst(cats: seq<string>, start: Collection, a: RawQuote)
    requires cats != []
    ensures Merge(cats, start, [a]) == Add(start, cats[0], Normalise(a))
  {
    MergeSnoc(cats, start, [], a);
    assert [] + [a] == [a];
  }

  /** The second element goes to the second category. */
  lemma MergeSecond(cats: seq<string>, start: Collection, raws: seq<RawQuote>)
    requires |cats| >= 2 && |raws| == 2
    ensures Merge(cats, start, raws) == Add(Merge(cats, start, raws[..1]), cats[1], Normalise(raws[1]))
  {
    assert Route(cats, 1) == cats[1];
  }

  /**
    The first two elements go to the first two categories and, when their
    texts are new there, are appended after the quotes already present.
   */
  lemma MergeFirstTwo(cats: seq<string>, start: Collection, a: RawQuote, b: RawQuote)
    requires |cats| >= 2 && cats[0] != cats[1]
    requires !HasText(Get(start, cats[0]), Normalise(a).text)
    requires !HasText(Get(start, cats[1]), Normalise(b).text)
    ensures Get(Merge(cats, start, [a, b]), cats[0]) == Get(start, cats[0]) + [Normalise(a)]
    ensures Get(Merge(cats, start, [a, b]), cats[1]) == Get(start, cats[1]) + [Normalise(b)]
  {
    MergeFirst(cats, start, a);
    MergeSecond(cats, start, [a, b]);
    assert [a, b][..1] == [a];
    var m1 := Add(start, cats[0], Normalise(a));
    AddOther(start, cats[0], Normalise(a), cats[1]);
    AddOther(m1, cats[1], Normalise(b), cats[0]);
  }

  /**
    Two API quotes `{q: "A", a: "X"}` and `{q: "B", a: "Y"}` merged into the
    fallback dictionary: A is appended to Inspiration and B to Love, after
    their built-in quotes.
   */
  lemma TwoQuoteScenario()
    ensures var m := Merge(Categories, Fallback, [RawQuote(Some("A"), None, Some("X"), None),
                                                  RawQuote(Some("B"), None, Some("Y"), None)]);
            Get(m, "Inspiration") == InspirationQuotes + [Quote("A", "X")] &&
            Get(m, "Love") == LoveQuotes + [Quote("B", "Y")]
  {
    var a := RawQuote(Some("A"), None, Some("X"), None);
    var b := RawQuote(Some("B"), None, Some("Y"), None);
    assert Get(Fallback, "Inspiration") == InspirationQuotes;
    assert Get(Fallback, "Love") == LoveQuotes;
    MergeFirstTwo(Categories, Fallback, a, b);
  }
}
