/**
  The quote entities of Quotely: a stored quote, a quote object as it comes
  from the remote API, the normalisation between the two, the six fixed
  categories and the built-in fallback dictionary.
 */
module Quotes {
  import opened Wrappers

  /** A quote as the app stores and shows it. */
  datatype Quote = Quote(text: string, author: string)

  /**
    One element of the API's answer, seen as an object. Each field is absent
    (`None`, JavaScript `undefined` or `null`) or a string; ZenQuotes uses the
    short fields `q`/`a`, other sources the long fields `text`/`author`.
   */
  datatype RawQuote = RawQuote(q: Option<string>, text: Option<string>,
                               a: Option<string>, author: Option<string>)

  const NoQuoteText: string := "No quote available"
  const UnknownAuthor: string := "Unknown"

  /** JavaScript truthiness of an optional string: present and not empty. */
  predicate Truthy(v: Option<string>)
  {
    v.Some? && v.value != ""
  }

  /** The JavaScript expression `x || y || fallback` over optional strings. */
  function FirstTruthy(x: Option<string>, y: Option<string>, fallback: string): (r: string)
    requires fallback != ""
    ensures r != ""
  {
    if Truthy(x) then x.value else if Truthy(y) then y.value else fallback
  }

  /**
    The `formattedQuote` built for every API element: the short field wins,
    then the long field, then the placeholder. The result never has an empty
    text or author.
   */
  function Normalise(raw: RawQuote): (r: Quote)
    ensures r.text != "" && r.author != ""
  {
    Quote(FirstTruthy(raw.q, raw.text, NoQuoteText),
          FirstTruthy(raw.a, raw.author, UnknownAuthor))
  }

  /**
    Which field `Normalise` takes: the short field when it is non-empty, else
    the long field when it is non-empty, else the placeholder.
   */
  lemma NormaliseChoice(raw: RawQuote)
    ensures Truthy(raw.q) ==> Normalise(raw).text == raw.q.value
    ensures !Truthy(raw.q) && Truthy(raw.text) ==> Normalise(raw).text == raw.text.value
    ensures !Truthy(raw.q) && !Truthy(raw.text) ==> Normalise(raw).text == NoQuoteText
    ensures Truthy(raw.a) ==> Normalise(raw).author == raw.a.value
    ensures !Truthy(raw.a) && Truthy(raw.author) ==> Normalise(raw).author == raw.author.value
    ensures !Truthy(raw.a) && !Truthy(raw.author) ==> Normalise(raw).author == UnknownAuthor
  {
  }

  /** A formatted `{text, author}` object read as an input record: only the long fields are set. */
  function AsRaw(quote: Quote): RawQuote
  {
    RawQuote(None, Some(quote.text), None, Some(quote.author))
  }

  /** A formatted object with non-empty fields formats to itself. */
  lemma FormattedRoundTrip(quote: Quote)
    requires quote.text != "" && quote.author != ""
    ensures Normalise(AsRaw(quote)) == quote
  {
  }

  /** Formatting a formatted quote again gives nothing new. */
  lemma NormaliseIdempotent(raw: RawQuote)
    ensures Normalise(AsRaw(Normalise(raw))) == Normalise(raw)
  {
    FormattedRoundTrip(Normalise(raw));
  }

  /** An empty string and an absent field fall through to the next choice alike. */
  lemma EmptyFieldIsAbsent(raw: RawQuote)
    ensures Normalise(raw.(q := Some(""))) == Normalise(raw.(q := None))
    ensures Normalise(raw.(text := Some(""))) == Normalise(raw.(text := None))
    ensures Normalise(raw.(a := Some(""))) == Normalise(raw.(a := None))
    ensures Normalise(raw.(author := Some(""))) == Normalise(raw.(author := None))
  {
  }

  /** The six categories, in the order used for round-robin routing. */
  const Categories: seq<string> := ["Inspiration", "Love", "Humor", "Life", "Wisdom", "Motivation"]

  /** A quote collection: category name to its quotes, in insertion order. */
  type Collection = map<string, seq<Quote>>

  /** `quotes[category] || []`: the quotes of a category, none when it is absent. */
  function Get(m: Collection, c: string): (s: seq<Quote>)
    ensures c in m ==> s == m[c]
    ensures c !in m ==> s == []
  {
    if c in m then m[c] else []
  }

  /** `quotes.some(q => q.text === text)`. */
  predicate HasText(s: seq<Quote>, text: string)
  {
    exists k :: 0 <= k < |s| && s[k].text == text
  }

  /** No two quotes of `s` have the same text. */
  predicate DistinctTexts(s: seq<Quote>)
  {
    forall j, k :: 0 <= j < k < |s| ==> s[j].text != s[k].text
  }

  const InspirationQuotes: seq<Quote> := [
    Quote("The only way to do great work is to love what you do.", "Steve Jobs"),
    Quote("Innovation distinguishes between a leader and a follower.", "Steve Jobs"),
    Quote("Life is what happens to you while you're busy making other plans.", "John Lennon"),
    Quote("The future belongs to those who believe in the beauty of their dreams.", "Eleanor Roosevelt"),
    Quote("It is during our darkest moments that we must focus to see the light.", "Aristotle")
  ]

  const LoveQuotes: seq<Quote> := [
    Quote("Being deeply loved by someone gives you strength, while loving someone deeply gives you courage.", "Lao Tzu"),
    Quote("The best thing to hold onto in life is each other.", "Audrey Hepburn"),
    Quote("Love is not about how many days, months, or years you have been together. Love is about how much you love each other every single day.", "Unknown"),
    Quote("Where there is love there is life.", "Mahatma Gandhi")
  ]

  const HumorQuotes: seq<Quote> := [
    Quote("I'm not superstitious, but I am a little stitious.", "Michael Scott"),
    Quote("The trouble with having an open mind is that people keep coming along and sticking things into it.", "Terry Pratchett"),
    Quote("I haven't failed. I've just found 10,000 ways that won't work.", "Thomas Edison"),
    Quote("The only mystery in life is why the kamikaze pilots wore helmets.", "Al McGuire")
  ]

  const LifeQuotes: seq<Quote> := [
    Quote("In the end, we will remember not the words of our enemies, but the silence of our friends.", "Martin Luther King Jr."),
    Quote("The purpose of our lives is to be happy.", "Dalai Lama"),
    Quote("Life is really simple, but we insist on making it complicated.", "Confucius"),
    Quote("The good life is one inspired by love and guided by knowledge.", "Bertrand Russell")
  ]

  const WisdomQuotes: seq<Quote> := [
    Quote("The only true wisdom is in knowing you know nothing.", "Socrates"),
    Quote("It is during our darkest moments that we must focus to see the light.", "Aristotle"),
    Quote("The journey of a thousand miles begins with one step.", "Lao Tzu"),
    Quote("Yesterday is history, tomorrow is a mystery, today is a gift of God, which is why we call it the present.", "Bill Keane")
  ]

  const MotivationQuotes: seq<Quote> := [
    Quote("Success is not final, failure is not fatal: it is the courage to continue that counts.", "Winston Churchill"),
    Quote("The way to get started is to quit talking and begin doing.", "Walt Disney"),
    Quote("Don't watch the clock; do what it does. Keep going.", "Sam Levenson"),
    Quote("The only impossible journey is the one you never begin.", "Tony Robbins")
  ]

  /** The built-in fallback dictionary. */
  const Fallback: Collection := map[
    "Inspiration" := InspirationQuotes,
    "Love" := LoveQuotes,
    "Humor" := HumorQuotes,
    "Life" := LifeQuotes,
    "Wisdom" := WisdomQuotes,
    "Motivation" := MotivationQuotes
  ]

  /** The six category names are distinct. */
  lemma CategoriesDistinct()
    ensures |Categories| == 6
    ensures forall j, k :: 0 <= j < k < 6 ==> Categories[j] != Categories[k]
  {
  }

  /** The fallback dictionary has exactly the six categories, each with four or five quotes. */
  lemma FallbackCategories()
    ensures Fallback.Keys == set c | c in Categories
    ensures forall c :: c in Categories ==> 4 <= |Fallback[c]| <= 5
  {
  }

  /** Within each of the first three fallback categories the quote texts are pairwise distinct. */
  lemma FallbackDistinctFirstHalf()
    ensures DistinctTexts(InspirationQuotes) && DistinctTexts(LoveQuotes) && DistinctTexts(HumorQuotes)
  {
  }

  /** Within each of the last three fallback categories the quote texts are pairwise distinct. */
  lemma FallbackDistinctSecondHalf()
    ensures DistinctTexts(LifeQuotes) && DistinctTexts(WisdomQuotes) && DistinctTexts(MotivationQuotes)
  {
  }
}
