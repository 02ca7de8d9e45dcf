/**
  The `QuotelyApp` object: the quote collection it rebuilds in place, the
  navigation cursor, and the loading flag. Each category's quotes live in a
  mutable list object, as JavaScript arrays do, so that the shallow copy
  `{ ...this.fallbackQuotes }` shares its lists with the fallback dictionary
  and a push into `quotes` grows the fallback too.
 */
module Quotely {
  import opened Wrappers
  import opened Quotes
  import QuoteMerge
  import Navigation

  /** A JavaScript array of quotes: a heap object whose contents can grow. */
  class QuoteList {
    var items: seq<Quote>

    constructor (items: seq<Quote>)
      ensures this.items == items
    {
      this.items := items;
    }

    /**
      `list.some(q => q.text === quote.text)` and, when it is false,
      `list.push(quote)`.
     */
    method PushUnlessPresent(quote: Quote)
      modifies this
      ensures HasText(old(items), quote.text) ==> items == old(items)
      ensures !HasText(old(items), quote.text) ==> items == old(items) + [quote]
    {
      if !HasText(items, quote.text) {
        items := items + [quote];
      }
    }
  }

  /** No two keys of `lists` share one list object. */
  ghost predicate Unshared(lists: map<string, QuoteList>)
  {
    forall c, d :: c in lists && d in lists && c != d ==> lists[c] != lists[d]
  }

  /** The contents of a dictionary of lists, as values. */
  function Snapshot(lists: map<string, QuoteList>): (m: Collection)
    reads lists.Values
    ensures m.Keys == lists.Keys
    ensures forall c :: c in lists ==> m[c] == lists[c].items
  {
    map c | c in lists :: lists[c].items
  }

  /**
    The fallback dictionary's object literal: one fresh list per category,
    holding the given quotes.
   */
  method NewFallbackLists(inspiration: seq<Quote>, love: seq<Quote>, humor: seq<Quote>,
                          life: seq<Quote>, wisdom: seq<Quote>, motivation: seq<Quote>)
    returns (lists: map<string, QuoteList>)
    ensures Unshared(lists) && fresh(lists.Values)
    ensures Snapshot(lists) == map["Inspiration" := inspiration, "Love" := love, "Humor" := humor,
                                   "Life" := life, "Wisdom" := wisdom, "Motivation" := motivation]
  {
    var l1 := new QuoteList(inspiration);
    var l2 := new QuoteList(love);
    var l3 := new QuoteList(humor);
    var l4 := new QuoteList(life);
    var l5 := new QuoteList(wisdom);
    var l6 := new QuoteList(motivation);
    lists := map["Inspiration" := l1, "Love" := l2, "Humor" := l3,
                 "Life" := l4, "Wisdom" := l5, "Motivation" := l6];
  }

  class QuotelyApp {
    const categories: seq<string>
    var currentCategory: string
    var currentQuoteIndex: nat
    var quotes: map<string, QuoteList>
    var isLoading: bool
    const fallbackQuotes: map<string, QuoteList>

    /**
      The object's invariant: every category has its own fallback list, which
      holds at least the four quotes every built-in category starts with (lists
      only ever grow), and `quotes` never maps two categories to one list.
     */
    ghost predicate Valid()
      reads this, fallbackQuotes.Values
    {
      && categories != []
      && (forall i :: 0 <= i < |categories| ==> categories[i] in fallbackQuotes)
      && (forall i :: 0 <= i < |categories| ==> |fallbackQuotes[categories[i]].items| >= 4)
      && Unshared(fallbackQuotes) && Unshared(quotes)
    }

    /** The current collection, `this.quotes`, as a value. */
    function Contents(): Collection
      reads this, quotes.Values
    {
      Snapshot(quotes)
    }

    /** The fallback dictionary as a value; it grows when merges push into shared lists. */
    function FallbackContents(): Collection
      reads this, fallbackQuotes.Values
    {
      Snapshot(fallbackQuotes)
    }

    /** `this.quotes[this.currentCategory] || []`. */
    function CurrentQuotes(): (s: seq<Quote>)
      reads this, quotes.Values
      ensures s == Get(Contents(), currentCategory)
    {
      if currentCategory in quotes then quotes[currentCategory].items else []
    }

    /** The cursor's bounds invariant: the index names a quote of the current category. */
    ghost predicate InBounds()
      reads this, quotes.Values
    {
      currentQuoteIndex < |CurrentQuotes()|
    }

    /**
      The navigation bounds invariant once quotes are loaded: `quotes` is the
      fallback copy, the current category is one of the six, and the index
      names one of its quotes.
     */
    ghost predicate Ready()
      reads this, quotes.Values, fallbackQuotes.Values
    {
      Valid() && quotes == fallbackQuotes && currentCategory in categories && InBounds()
    }

    /** The constructor: empty collection, first category, index 0, not loading, fresh fallback lists. */
    constructor ()
      ensures Valid()
      ensures categories == Categories
      ensures currentCategory == "Inspiration" && currentQuoteIndex == 0
      ensures quotes == map[] && !isLoading
      ensures FallbackContents() == Fallback
      ensures fresh(fallbackQuotes.Values)
    {
      categories := Categories;
      currentCategory := "Inspiration";
      currentQuoteIndex := 0;
      quotes := map[];
      isLoading := false;
      var lists := NewFallbackLists(InspirationQuotes, LoveQuotes, HumorQuotes,
                                    LifeQuotes, WisdomQuotes, MotivationQuotes);
      fallbackQuotes := lists;
      FallbackCategories();
    }

    /**
      `if (!this.quotes[category]) this.quotes[category] = [];`: the list the
      category's quotes go to, created empty when the key is missing.
     */
    method EnsureList(category: string) returns (list: QuoteList)
      requires Unshared(quotes)
      modifies this`quotes
      ensures Unshared(quotes) && category in quotes && quotes[category] == list
      ensures category in old(quotes) ==> quotes == old(quotes)
      ensures category !in old(quotes) ==> fresh(list) && list.items == [] && quotes == old(quotes)[category := list]
      ensures Contents() == QuoteMerge.Ensure(old(Contents()), category)
    {
      if category in quotes {
        list := quotes[category];
      } else {
        list := new QuoteList([]);
        quotes := quotes[category := list];
      }
    }

    /** The `some`/`push` step on the category's existing list. */
    method PushInto(category: string, quote: Quote)
      requires Unshared(quotes) && category in quotes
      modifies quotes[category]
      ensures Contents() == QuoteMerge.Add(old(Contents()), category, quote)
    {
      var list := quotes[category];
      list.PushUnlessPresent(quote);
      assert forall d :: d in quotes && d != category ==> Contents()[d] == old(Contents())[d];
    }

    /**
      One iteration of `processApiQuotes`' loop: create the category's list
      if it is missing, then push `quote` unless its text is already there.
     */
    method AddQuote(category: string, quote: Quote)
      requires Unshared(quotes)
      modifies this`quotes, quotes.Values
      ensures Unshared(quotes)
      ensures forall c :: c in old(quotes) ==> c in quotes && quotes[c] == old(quotes)[c]
      ensures fresh(quotes.Values - old(quotes.Values))
      ensures category in old(quotes) ==> quotes == old(quotes)
      ensures Contents() == QuoteMerge.Add(old(Contents()), category, quote)
    {
      var list := EnsureList(category);
      PushInto(category, quote);
      QuoteMerge.AddAfterEnsure(old(Contents()), category, quote);
    }

    /**
      The `forEach` loop of `processApiQuotes`: element `i` is normalised and
      added to `categories[i % categories.length]`. It stops with a TypeError
      at the first `null`/`undefined` element. Every category already has a
      list, so `quotes` keeps its list objects and only their contents grow.
     */
    method RouteQuotes(items: seq<Option<RawQuote>>) returns (typeError: bool)
      requires categories != [] && Unshared(quotes)
      requires forall i :: 0 <= i < |categories| ==> categories[i] in quotes
      modifies this`quotes, quotes.Values
      ensures quotes == old(quotes)
      ensures typeError <==> exists i :: 0 <= i < |items| && items[i].None?
      ensures Contents() == QuoteMerge.Merge(categories, old(Contents()), QuoteMerge.LeadingObjects(items))
    {
      ghost var start := Contents();
      ghost var objects := QuoteMerge.LeadingObjects(items);
      var i := 0;
      while i < |items| && items[i].Some?
        invariant 0 <= i <= |objects|
        invariant quotes == old(quotes)
        invariant Contents() == QuoteMerge.Merge(categories, start, objects[..i])
      {
        QuoteMerge.MergeStep(categories, start, objects, i);
        AddQuote(categories[i % |categories|], Normalise(items[i].value));
        i := i + 1;
      }
      typeError := i < |items|;
      assert objects[..i] == objects;
    }

    /**
      The body of `processApiQuotes`: start over from a shallow copy of the
      fallback dictionary, so that `quotes` holds the very same list objects,
      then run the routing loop when `apiQuotes` is an array. The pushes land
      in the fallback lists too. `typeError` is the exception the loop throws
      at a `null`/`undefined` element; the pushes made before it stay.
     */
    method CopyAndRoute(apiQuotes: Option<seq<Option<RawQuote>>>) returns (typeError: bool)
      requires categories != [] && Unshared(fallbackQuotes)
      requires forall i :: 0 <= i < |categories| ==> categories[i] in fallbackQuotes
      modifies this`quotes, fallbackQuotes.Values
      ensures quotes == fallbackQuotes
      ensures typeError <==> apiQuotes.Some? && exists i :: 0 <= i < |apiQuotes.value| && apiQuotes.value[i].None?
      ensures Contents() == QuoteMerge.Merge(categories, old(FallbackContents()), QuoteMerge.Processed(apiQuotes))
    {
      quotes := fallbackQuotes;
      ghost var start := Contents();
      assert start == old(FallbackContents());
      typeError := false;
      if apiQuotes.Some? {
        typeError := RouteQuotes(apiQuotes.value);
      }
    }

    /**
      `processApiQuotes(apiQuotes)`: afterwards `quotes` and the fallback
      dictionary are the same lists, holding the merge; every list only grew,
      so the object's invariant and an in-bounds cursor are kept.
     */
    method ProcessApiQuotes(apiQuotes: Option<seq<Option<RawQuote>>>) returns (typeError: bool)
      requires Valid()
      modifies this`quotes, fallbackQuotes.Values
      ensures Valid() && quotes == fallbackQuotes
      ensures old(Ready()) ==> Ready()
      ensures currentCategory in categories && currentQuoteIndex == 0 ==> Ready()
      ensures typeError <==> apiQuotes.Some? && exists i :: 0 <= i < |apiQuotes.value| && apiQuotes.value[i].None?
      ensures Contents() == QuoteMerge.Merge(categories, old(FallbackContents()), QuoteMerge.Processed(apiQuotes))
    {
      ghost var start := FallbackContents();
      typeError := CopyAndRoute(apiQuotes);
      forall i | 0 <= i < |categories|
        ensures |Get(start, categories[i])| <= |Get(Contents(), categories[i])|
      {
        QuoteMerge.MergeGrows(categories, start, QuoteMerge.Processed(apiQuotes), categories[i]);
      }
      if old(Ready()) {
        QuoteMerge.MergeGrows(categories, start, QuoteMerge.Processed(apiQuotes), currentCategory);
      }
    }

    /** `useFallbackQuotes`: the shallow copy alone. */
    method UseFallbackQuotes()
      requires Valid()
      modifies this`quotes
      ensures Valid() && quotes == fallbackQuotes
      ensures Contents() == FallbackContents()
      ensures old(Ready()) ==> Ready()
      ensures currentCategory in categories && currentQuoteIndex == 0 ==> Ready()
    {
      quotes := fallbackQuotes;
    }

    /** `switchCategory(category)`: a no-op for the current category, else a jump to its first quote. */
    method SwitchCategory(category: string)
      modifies this`currentCategory, this`currentQuoteIndex
      ensures old(currentCategory) == category ==> currentQuoteIndex == old(currentQuoteIndex)
      ensures currentCategory == category
      ensures old(currentCategory) != category ==> currentQuoteIndex == 0 && (InBounds() <==> CurrentQuotes() != [])
      ensures Valid() && quotes == fallbackQuotes && category in categories && old(currentCategory) != category ==> InBounds()
      ensures old(Ready()) && category in categories ==> Ready()
    {
      if currentCategory == category {
        return;
      }
      currentCategory := category;
      currentQuoteIndex := 0;
    }

    /** `previousQuote`. */
    method PreviousQuote()
      modifies this`currentQuoteIndex
      ensures currentQuoteIndex == Navigation.Previous(old(currentQuoteIndex))
      ensures old(InBounds()) ==> InBounds()
      ensures old(Ready()) ==> Ready()
    {
      if currentQuoteIndex > 0 {
        currentQuoteIndex := currentQuoteIndex - 1;
      }
    }

    /** `nextQuote`. */
    method NextQuote()
      modifies this`currentQuoteIndex
      ensures currentQuoteIndex == Navigation.Next(old(currentQuoteIndex), |CurrentQuotes()|)
      ensures old(InBounds()) ==> InBounds()
      ensures old(Ready()) ==> Ready()
    {
      var categoryQuotes := CurrentQuotes();
      if currentQuoteIndex < |categoryQuotes| - 1 {
        currentQuoteIndex := currentQuoteIndex + 1;
      }
    }

    /** The logo's click handler: back to the first quote of the category. */
    method ResetToFirstQuote()
      modifies this`currentQuoteIndex
      ensures currentQuoteIndex == 0
      ensures InBounds() <==> CurrentQuotes() != []
      ensures Valid() && quotes == fallbackQuotes && currentCategory in categories ==> Ready()
    {
      currentQuoteIndex := 0;
    }

    /**
      `getNewQuote`: unless loading or the category has at most one quote,
      jump to a random other quote. `draws` are the successive values of
      `Math.random()` and `used` how many of them the redraw loop consumed.
     */
    method GetNewQuote(draws: seq<real>) returns (used: nat)
      requires Navigation.ValidDraws(draws)
      requires !isLoading && |CurrentQuotes()| > 1 ==>
                 exists k :: 0 <= k < |draws| && Navigation.DrawIndex(draws[k], |CurrentQuotes()|) != currentQuoteIndex
      modifies this`currentQuoteIndex
      ensures isLoading || |CurrentQuotes()| <= 1 ==> currentQuoteIndex == old(currentQuoteIndex) && used == 0
      ensures !isLoading && |CurrentQuotes()| > 1 ==>
                InBounds() && currentQuoteIndex != old(currentQuoteIndex) &&
                0 < used <= |draws| && currentQuoteIndex == Navigation.DrawIndex(draws[used - 1], |CurrentQuotes()|)
      ensures !isLoading && |CurrentQuotes()| > 1 ==>
                forall k :: 0 <= k < used - 1 ==> Navigation.DrawIndex(draws[k], |CurrentQuotes()|) == old(currentQuoteIndex)
      ensures !isLoading && |CurrentQuotes()| == 2 && old(currentQuoteIndex) < 2 ==>
                currentQuoteIndex == 1 - old(currentQuoteIndex)
      ensures old(InBounds()) ==> InBounds()
      ensures old(Ready()) ==> Ready()
    {
      used := 0;
      if isLoading {
        return;
      }
      var categoryQuotes := CurrentQuotes();
      if |categoryQuotes| <= 1 {
        return;
      }
      var newIndex;
      newIndex, used := Navigation.RedrawIndex(draws, |categoryQuotes|, currentQuoteIndex);
      currentQuoteIndex := newIndex;
    }

    /** The quote `displayCurrentQuote` renders, if any. */
    method DisplayCurrentQuote() returns (shown: Option<Quote>)
      ensures shown == Navigation.ShownQuote(CurrentQuotes(), currentQuoteIndex)
      ensures InBounds() ==> shown == Some(CurrentQuotes()[currentQuoteIndex])
    {
      var categoryQuotes := CurrentQuotes();
      if |categoryQuotes| == 0 {
        return None;
      }
      shown := if currentQuoteIndex < |categoryQuotes| then Some(categoryQuotes[currentQuoteIndex])
               else Some(categoryQuotes[0]);
    }

    /** The `disabled` flags `updateNavigation` sets on the previous and next buttons. */
    method UpdateNavigation() returns (prevDisabled: bool, nextDisabled: bool)
      ensures prevDisabled == Navigation.PrevDisabled(currentQuoteIndex)
      ensures nextDisabled == Navigation.NextDisabled(currentQuoteIndex, |CurrentQuotes()|)
      ensures InBounds() ==> (nextDisabled <==> currentQuoteIndex == |CurrentQuotes()| - 1)
    {
      var categoryQuotes := CurrentQuotes();
      prevDisabled := currentQuoteIndex == 0;
      nextDisabled := currentQuoteIndex >= |categoryQuotes| - 1;
    }
  }

  /**
    Two refreshes with the same response: the second adds nothing, even
    though it starts from fallback lists the first one has grown.
   */
  method ProcessTwice(app: QuotelyApp, apiQuotes: Option<seq<Option<RawQuote>>>)
    requires app.Valid()
    modifies app`quotes, app.fallbackQuotes.Values
    ensures app.Valid() && app.quotes == app.fallbackQuotes
    ensures app.Contents() == QuoteMerge.Merge(app.categories, old(app.FallbackContents()), QuoteMerge.Processed(apiQuotes))
  {
    var _ := app.ProcessApiQuotes(apiQuotes);
    var _ := app.ProcessApiQuotes(apiQuotes);
    QuoteMerge.MergeIdempotent(app.categories, old(app.FallbackContents()), QuoteMerge.Processed(apiQuotes));
  }

  /**
    Because the copy is shallow, falling back after a refresh does not bring
    back the pristine dictionary: the first remote quote is still shown in
    the first category.
   */
  method FallbackAfterRefresh(app: QuotelyApp, raw: RawQuote)
    requires app.Valid()
    modifies app`quotes, app.fallbackQuotes.Values
    ensures app.quotes == app.fallbackQuotes
    ensures HasText(Get(app.Contents(), app.categories[0]), Normalise(raw).text)
  {
    var typeError := app.ProcessApiQuotes(Some([Some(raw)]));
    app.UseFallbackQuotes();
    QuoteMerge.MergeComplete(app.categories, old(app.FallbackContents()), [raw], 0);
  }

  /**
    After any refresh, whatever category the user picks, the first quote and
    the next one are in bounds: every category keeps its quotes.
   */
  method BrowseAfterRefresh(app: QuotelyApp, apiQuotes: Option<seq<Option<RawQuote>>>, i: nat)
    requires app.Valid() && i < |app.categories|
    modifies app`quotes, app.fallbackQuotes.Values, app`currentCategory, app`currentQuoteIndex
    ensures app.Ready() && app.currentCategory == app.categories[i] && app.currentQuoteIndex == 1
  {
    var _ := app.ProcessApiQuotes(apiQuotes);
    app.SwitchCategory(app.categories[i]);
    app.ResetToFirstQuote();
    app.NextQuote();
  }
}
