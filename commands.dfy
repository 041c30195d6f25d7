/** The command rules of `handleCommand`: each rule's test on the
    lower-cased command, their fixed order, and the choice of the first
    rule whose test passes. */
module Commands {
  import opened Text

  /** One branch of the `handleCommand` chain, in source order. */
  datatype Rule =
    | Time | Date
    | OpenGoogle | OpenYouTube | OpenWikipedia
    | SearchFor
    | ClearHistory | GoToSleep
    | Joke | Weather
    | Greeting | Thanks | Identity
    | Fallback

  /** The prefix that introduces a web search. */
  const SearchPrefix: string := "search for"

  /** The place of a rule in the chain: lower ranks are tested first. */
  function Rank(r: Rule): nat
  {
    match r
    case Time => 0
    case Date => 1
    case OpenGoogle => 2
    case OpenYouTube => 3
    case OpenWikipedia => 4
    case SearchFor => 5
    case ClearHistory => 6
    case GoToSleep => 7
    case Joke => 8
    case Weather => 9
    case Greeting => 10
    case Thanks => 11
    case Identity => 12
    case Fallback => 13
  }

  /** The test a rule applies to the lower-cased command, taken on its own.
      All are substring tests except the search rule, which tests a prefix;
      the fallback accepts everything. */
  predicate Matches(r: Rule, lower: string)
  {
    match r
    case Time => Contains(lower, "time")
    case Date => Contains(lower, "date")
    case OpenGoogle => Contains(lower, "open google")
    case OpenYouTube => Contains(lower, "open youtube")
    case OpenWikipedia => Contains(lower, "open wikipedia")
    case SearchFor => StartsWith(lower, SearchPrefix)
    case ClearHistory => Contains(lower, "clear history")
    case GoToSleep => Contains(lower, "go to sleep")
    case Joke => Contains(lower, "joke")
    case Weather => Contains(lower, "weather")
    case Greeting => Contains(lower, "hello") || Contains(lower, "hi")
    case Thanks => Contains(lower, "thank")
    case Identity => Contains(lower, "who are you")
    case Fallback => true
  }

  /** The rule `handleCommand` runs: its test passes, and the test of every
      rule ranked before it fails. */
  function SelectRule(lower: string): (r: Rule)
    ensures Matches(r, lower)
    ensures forall q :: Rank(q) < Rank(r) ==> !Matches(q, lower)
  {
    if Contains(lower, "time") then Time
    else if Contains(lower, "date") then Date
    else if Contains(lower, "open google") then OpenGoogle
    else if Contains(lower, "open youtube") then OpenYouTube
    else if Contains(lower, "open wikipedia") then OpenWikipedia
    else if StartsWith(lower, SearchPrefix) then SearchFor
    else if Contains(lower, "clear history") then ClearHistory
    else if Contains(lower, "go to sleep") then GoToSleep
    else if Contains(lower, "joke") then Joke
    else if Contains(lower, "weather") then Weather
    else if Contains(lower, "hello") || Contains(lower, "hi") then Greeting
    else if Contains(lower, "thank") then Thanks
    else if Contains(lower, "who are you") then Identity
    else Fallback
  }

  /** Exactly one rule is the first match: `SelectRule` returns a rule if
      and only if that rule passes and every earlier rule fails. */
  lemma FirstMatchIsUnique(lower: string, r: Rule)
    ensures SelectRule(lower) == r <==> (Matches(r, lower) && forall q :: Rank(q) < Rank(r) ==> !Matches(q, lower))
  {
    var s := SelectRule(lower);
    if Matches(r, lower) && (forall q :: Rank(q) < Rank(r) ==> !Matches(q, lower)) {
      assert Matches(s, lower) && !(Rank(s) < Rank(r));
      assert !(Rank(r) < Rank(s));
      RankIsInjective(r, s);
    }
  }

  /** No two rules share a place in the chain. */
  lemma RankIsInjective(a: Rule, b: Rule)
    requires Rank(a) == Rank(b)
    ensures a == b
  {
  }

  /** A command that mentions "time" gets the time answer, whatever else it
      mentions ("date", "search for", "joke", ...). */
  lemma TimeShadowsEveryOtherRule(lower: string)
    requires Contains(lower, "time")
    ensures SelectRule(lower) == Time
  {
    assert Matches(Time, lower);
  }

  /** "clear history" is tested before the greeting, so a command containing
      it is never answered as a greeting. */
  lemma ClearHistoryIsNeverAGreeting(lower: string)
    requires Contains(lower, "clear history")
    ensures SelectRule(lower) != Greeting
  {
    assert Matches(ClearHistory, lower);
  }

  /** The order matters for that pair: "clear history" itself contains "hi". */
  lemma ClearHistoryContainsHi()
    ensures Matches(Greeting, "clear history")
  {
    assert OccursAt("clear history", "hi", 6);
  }
}
