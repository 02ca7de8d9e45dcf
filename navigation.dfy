/**
  The navigation cursor over one category's quotes: the index moves back and
  forward without wrapping, the shown quote falls back to the first one when
  the index is out of range, and the buttons are disabled exactly where a
  press would do nothing. The random jump's redraw loop is here too, over an
  explicit stream of `Math.random()` draws.
 */
module Navigation {
  import opened Wrappers
  import opened Quotes

  /** `previousQuote`: one step back, except at the first quote. */
  function Previous(index: nat): (r: nat)
    ensures r <= index && index - r <= 1
    ensures r == index <==> index == 0
  {
    if index > 0 then index - 1 else index
  }

  /** `nextQuote` over a category of `len` quotes: one step forward, except at the last quote. */
  function Next(index: nat, len: nat): (r: nat)
    ensures index <= r <= index + 1
    ensures r == index <==> index + 1 >= len
    ensures index < len ==> r < len
  {
    if index < len - 1 then index + 1 else index
  }

  /**
    The quote `displayCurrentQuote` shows: none for an empty category,
    otherwise the quote at the index, or the first quote when the index is
    out of range.
   */
  function ShownQuote(quotes: seq<Quote>, index: nat): (r: Option<Quote>)
    ensures r.None? <==> quotes == []
    ensures index < |quotes| ==> r == Some(quotes[index])
    ensures quotes != [] && index >= |quotes| ==> r == Some(quotes[0])
  {
    if |quotes| == 0 then None
    else if index < |quotes| then Some(quotes[index])
    else Some(quotes[0])
  }

  /** The "previous" button is disabled exactly when pressing it would not move. */
  function PrevDisabled(index: nat): (d: bool)
    ensures d <==> Previous(index) == index
    ensures d <==> index == 0
  {
    index == 0
  }

  /** The "next" button is disabled exactly when pressing it would not move. */
  function NextDisabled(index: nat, len: nat): (d: bool)
    ensures d <==> Next(index, len) == index
  {
    index >= len - 1
  }

  /** A button press of the previous/next pair. */
  datatype Step = Back | Forward

  /** The index after a sequence of presses, in order. */
  function Walk(index: nat, len: nat, steps: seq<Step>): nat
    decreases |steps|
  {
    if steps == [] then index
    else
      var i := Walk(index, len, steps[..|steps| - 1]);
      match steps[|steps| - 1]
      case Back => Previous(i)
      case Forward => Next(i, len)
  }

  /** Bounds invariant: any sequence of presses keeps an in-range index in range. */
  lemma {:induction false} WalkInBounds(index: nat, len: nat, steps: seq<Step>)
    requires index < len
    ensures Walk(index, len, steps) < len
  {
    if steps != [] {
      WalkInBounds(index, len, steps[..|steps| - 1]);
    }
  }

  /** `Math.floor(Math.random() * len)` for a draw `r` in [0, 1). */
  function DrawIndex(r: real, len: nat): (k: nat)
    requires 0.0 <= r < 1.0 && len > 0
    ensures k < len
  {
    var x := r * len as real;
    assert 0.0 <= x < len as real by {
      assert (1.0 - r) * len as real > 0.0;
    }
    x.Floor
  }

  /** Every draw is a value `Math.random()` can return. */
  predicate ValidDraws(draws: seq<real>)
  {
    forall k :: 0 <= k < |draws| ==> 0.0 <= draws[k] < 1.0
  }

  /**
    The `do ... while` loop of `getNewQuote`: draw indices until one differs
    from `current`. `used` is the number of draws consumed; every earlier
    draw hit `current`. The stream must hold a draw that differs, which is
    how the model states that the loop ends.
   */
  method RedrawIndex(draws: seq<real>, len: nat, current: nat) returns (newIndex: nat, used: nat)
    requires len > 1 && ValidDraws(draws)
    requires exists k :: 0 <= k < |draws| && DrawIndex(draws[k], len) != current
    ensures 0 < used <= |draws|
    ensures newIndex == DrawIndex(draws[used - 1], len)
    ensures forall k :: 0 <= k < used - 1 ==> DrawIndex(draws[k], len) == current
    ensures newIndex < len && newIndex != current
    ensures len == 2 && current < 2 ==> newIndex == 1 - current
  {
    ghost var target :| 0 <= target < |draws| && DrawIndex(draws[target], len) != current;
    newIndex := DrawIndex(draws[0], len);
    used := 1;
    while newIndex == current
      invariant 0 < used <= target + 1
      invariant newIndex == DrawIndex(draws[used - 1], len)
      invariant forall k :: 0 <= k < used - 1 ==> DrawIndex(draws[k], len) == current
      decreases target + 1 - used
    {
      newIndex := DrawIndex(draws[used], len);
      used := used + 1;
    }
  }
}
