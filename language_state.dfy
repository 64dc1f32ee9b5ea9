/**
 * The record that the language agent's pipeline passes from node to node, and the
 * partial updates the nodes return.  None of the fields declares a reducer, so the
 * graph merges an update by overwriting each field the update names.
 */
module LanguageState {
  import opened Wrappers
  import opened Json

  datatype AgentState = AgentState(
    question: string,
    portfolio: Fields,
    tickers: seq<string>,
    quotes: Fields,
    daily: Fields,
    earnings: seq<Fields>,
    news: seq<Fields>,
    context: seq<string>,
    brief: string,
    error: string)

  /** The dictionary a node returns: the fields it sets. */
  datatype Update = Update(
    question: Option<string>,
    portfolio: Option<Fields>,
    tickers: Option<seq<string>>,
    quotes: Option<Fields>,
    daily: Option<Fields>,
    earnings: Option<seq<Fields>>,
    news: Option<seq<Fields>>,
    context: Option<seq<string>>,
    brief: Option<string>,
    error: Option<string>)

  /** A node that sets nothing. */
  const NoUpdate: Update := Update(None, None, None, None, None, None, None, None, None, None)

  /** A node that returns the whole state it was given (`return state`). */
  function Whole(s: AgentState): Update
  {
    Update(Some(s.question), Some(s.portfolio), Some(s.tickers), Some(s.quotes), Some(s.daily),
           Some(s.earnings), Some(s.news), Some(s.context), Some(s.brief), Some(s.error))
  }

  function Pick<T>(o: Option<T>, keep: T): T
  {
    if o.Some? then o.value else keep
  }

  /** The state after the graph merges a node's update. */
  function Apply(s: AgentState, u: Update): AgentState
  {
    AgentState(Pick(u.question, s.question), Pick(u.portfolio, s.portfolio), Pick(u.tickers, s.tickers),
               Pick(u.quotes, s.quotes), Pick(u.daily, s.daily), Pick(u.earnings, s.earnings),
               Pick(u.news, s.news), Pick(u.context, s.context), Pick(u.brief, s.brief),
               Pick(u.error, s.error))
  }

  /** An update that sets nothing leaves the state as it was. */
  lemma ApplyNoUpdate(s: AgentState)
    ensures Apply(s, NoUpdate) == s
  {
  }

  /** Returning the state itself replaces every field by the value it already had. */
  lemma ApplyWhole(s: AgentState, t: AgentState)
    ensures Apply(s, Whole(t)) == t
  {
  }

  /** A field the update names takes the update's value, whatever it held before. */
  lemma ApplyOverwritesError(s: AgentState, u: Update)
    ensures u.error.Some? ==> Apply(s, u).error == u.error.value
    ensures u.error.None? ==> Apply(s, u).error == s.error
  {
  }

  /** The state the endpoint starts the graph with. */
  function InitialState(question: string, portfolio: Fields): AgentState
  {
    AgentState(question, portfolio, [], [], [], [], [], [], "", "")
  }
}
